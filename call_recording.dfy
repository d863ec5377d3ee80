/**
 * The call-recording screen: the ledger of recorded calls persisted under one storage key and
 * reconciled with the files on the device, the three recording settings, and the gates that
 * decide when a recording may start or stop.
 */
module CallRecording {
  import opened Wrappers
  import opened JsText

  /** The metadata of one recorded call. */
  datatype RecordedCall = RecordedCall(
    id: string,
    phoneNumber: string,
    date: string,
    time: string,
    duration: string,
    fileSize: string,
    filePath: string,
    fileName: string)

  /** A value in the device's key-value storage: a plain string, or the serialized ledger. */
  datatype Stored = Text(s: string) | RecordList(items: seq<RecordedCall>)

  const RecordingsKey: string := "@call_recordings"
  const ConsentKey: string := "@consent_accepted"
  const RecordAllKey: string := "@record_all_calls"
  const RecordSuspiciousKey: string := "@record_suspicious_calls"

  /** The number a manual recording is attributed to. */
  const SimulatedNumber: string := "+57 300 123 4567"

  // ---------------------------------------------------------------- the ledger

  /** The entries whose file still exists, in their order. */
  function Existing(items: seq<RecordedCall>, files: set<string>): (r: seq<RecordedCall>)
    ensures |r| <= |items|
    ensures forall k :: 0 <= k < |r| ==> r[k].filePath in files
  {
    if items == [] then []
    else
      var rest := Existing(items[..|items| - 1], files);
      if items[|items| - 1].filePath in files then rest + [items[|items| - 1]] else rest
  }

  /** An entry survives reconciliation exactly when it was listed and its file exists. */
  lemma {:induction false} ExistingMembers(items: seq<RecordedCall>, files: set<string>, x: RecordedCall)
    ensures x in Existing(items, files) <==> x in items && x.filePath in files
  {
    if items != [] {
      var init := items[..|items| - 1];
      ExistingMembers(init, files, x);
      assert items == init + [items[|items| - 1]];
    }
  }

  /** Reconciliation keeps the order: it distributes over concatenation. */
  lemma {:induction false} ExistingAppend(a: seq<RecordedCall>, b: seq<RecordedCall>, files: set<string>)
    ensures Existing(a + b, files) == Existing(a, files) + Existing(b, files)
    decreases |b|
  {
    if b == [] {
      assert a + b == a;
    } else {
      var init := b[..|b| - 1];
      ExistingAppend(a, init, files);
      assert (a + b)[..|a + b| - 1] == a + init;
      assert (a + b)[|a + b| - 1] == b[|b| - 1];
    }
  }

  /** Nothing is dropped exactly when every listed file exists, and then the list is kept as is. */
  lemma {:induction false} ExistingAll(items: seq<RecordedCall>, files: set<string>)
    ensures |Existing(items, files)| == |items| <==> forall k :: 0 <= k < |items| ==> items[k].filePath in files
    ensures (forall k :: 0 <= k < |items| ==> items[k].filePath in files) ==> Existing(items, files) == items
  {
    if items != [] {
      var init := items[..|items| - 1];
      ExistingAll(init, files);
      assert forall k :: 0 <= k < |init| ==> init[k] == items[k];
      assert items == init + [items[|items| - 1]];
    }
  }

  /** A second reconciliation against the same files drops nothing more. */
  lemma ReloadStable(items: seq<RecordedCall>, files: set<string>)
    ensures Existing(Existing(items, files), files) == Existing(items, files)
    ensures |Existing(Existing(items, files), files)| == |Existing(items, files)|
  {
    ExistingAll(Existing(items, files), files);
  }

  /** The ledger without the entries carrying `id`, in their order. */
  function Without(items: seq<RecordedCall>, id: string): (r: seq<RecordedCall>)
    ensures |r| <= |items|
    ensures forall k :: 0 <= k < |r| ==> r[k].id != id
  {
    if items == [] then []
    else if items[0].id == id then Without(items[1..], id)
    else [items[0]] + Without(items[1..], id)
  }

  /** Deletion drops exactly the entries with the deleted id. */
  lemma {:induction false} WithoutMembers(items: seq<RecordedCall>, id: string, x: RecordedCall)
    ensures x in Without(items, id) <==> x in items && x.id != id
  {
    if items != [] {
      WithoutMembers(items[1..], id, x);
      assert items == [items[0]] + items[1..];
    }
  }

  /** Deleting an id no entry carries changes nothing. */
  lemma {:induction false} WithoutAbsent(items: seq<RecordedCall>, id: string)
    requires forall k :: 0 <= k < |items| ==> items[k].id != id
    ensures Without(items, id) == items
  {
    if items != [] {
      WithoutAbsent(items[1..], id);
      assert items == [items[0]] + items[1..];
    }
  }

  // ---------------------------------------------------------------- durations

  /** `formatTime`: whole minutes, a colon, and the seconds padded to two digits. */
  function FormatTime(seconds: nat): string {
    var mins := seconds / 60;
    var secs := seconds % 60;
    NatToString(mins) + ":" + (if secs < 10 then "0" else "") + NatToString(secs)
  }

  /** Reading a duration back: minutes, a colon, two digits of seconds. */
  function ParseDuration(d: string): Option<nat> {
    var parts := Split(d, ':');
    if |parts| == 2 && parts[0] != "" && AllDigits(parts[0]) && |parts[1]| == 2 && AllDigits(parts[1])
      && Value(parts[1]) < 60
    then Some(60 * Value(parts[0]) + Value(parts[1]))
    else None
  }

  /** The seconds part of a duration is two digits worth the seconds. */
  lemma SecondsText(secs: nat)
    requires secs < 60
    ensures var t := (if secs < 10 then "0" else "") + NatToString(secs);
      |t| == 2 && AllDigits(t) && Value(t) == secs
  {
    var n := NatToString(secs);
    if secs < 10 {
      var t := "0" + n;
      assert t[..1] == "0" && t[1] == n[0];
      assert Value(n) == DigitValue(n[0]) by {
        assert n[..0] == [];
      }
      assert Value(t[..1]) == 0 by {
        assert t[..1][..0] == [];
      }
    }
  }

  /** A formatted duration reads back as the seconds it was made from. */
  lemma FormatTimeRoundTrip(seconds: nat)
    ensures ParseDuration(FormatTime(seconds)) == Some(seconds)
  {
    var m := NatToString(seconds / 60);
    var t := (if seconds % 60 < 10 then "0" else "") + NatToString(seconds % 60);
    SecondsText(seconds % 60);
    assert FormatTime(seconds) == Join([m, t], [':']);
    assert ':' !in m && ':' !in t by {
      assert forall i :: 0 <= i < |m| ==> IsDigit(m[i]);
      assert forall i :: 0 <= i < |t| ==> IsDigit(t[i]);
    }
    SplitJoin([m, t], ':');
  }

  lemma FormatTimeExample()
    ensures FormatTime(65) == "1:05"
  {
    assert NatToString(1) == "1";
    assert NatToString(5) == "5";
  }

  // ---------------------------------------------------------------- settings

  /** The three recording settings. */
  datatype Settings = Settings(consentAccepted: bool, recordAllCalls: bool, recordSuspiciousCalls: bool)

  /** `b.toString()` */
  function BoolText(b: bool): string {
    if b then "true" else "false"
  }

  /** `getItem(key) === 'true'` */
  predicate StoredTrue(storage: map<string, Stored>, key: string) {
    key in storage && storage[key] == Text("true")
  }

  /** `saveSettings`: each flag written as text under its key. */
  function Written(storage: map<string, Stored>, s: Settings): (r: map<string, Stored>)
    ensures r.Keys == storage.Keys + {ConsentKey, RecordAllKey, RecordSuspiciousKey}
    ensures forall k :: k in storage && k !in {ConsentKey, RecordAllKey, RecordSuspiciousKey} ==> r[k] == storage[k]
  {
    storage[ConsentKey := Text(BoolText(s.consentAccepted))]
      [RecordAllKey := Text(BoolText(s.recordAllCalls))]
      [RecordSuspiciousKey := Text(BoolText(s.recordSuspiciousCalls))]
  }

  /**
   * The settings a freshly opened screen ends with after `loadSettings`: consent and "record
   * all" only on a stored `'true'`, "record suspicious" true unless a stored value says otherwise.
   */
  function Decoded(storage: map<string, Stored>): (s: Settings)
    ensures ConsentKey !in storage && RecordAllKey !in storage && RecordSuspiciousKey !in storage
      ==> s == Settings(false, false, true)
  {
    Settings(StoredTrue(storage, ConsentKey), StoredTrue(storage, RecordAllKey),
      if RecordSuspiciousKey in storage then StoredTrue(storage, RecordSuspiciousKey) else true)
  }

  /** Saved settings are loaded back as they were. */
  lemma SettingsRoundTrip(storage: map<string, Stored>, s: Settings)
    ensures Decoded(Written(storage, s)) == s
  {
  }

  /**
   * What accepting consent writes, as written: `saveSettings` runs in the same render as the
   * handler, so it saves the consent flag as it was before the handler set it.
   */
  function AcceptConsentAsWritten(storage: map<string, Stored>, before: Settings): map<string, Stored> {
    Written(storage, before)
  }

  /** A first acceptance is therefore not remembered: the next launch asks again. */
  lemma AcceptedConsentForgotten(storage: map<string, Stored>, recordAll: bool, recordSuspicious: bool)
    ensures !Decoded(AcceptConsentAsWritten(storage, Settings(false, recordAll, recordSuspicious))).consentAccepted
  {
    SettingsRoundTrip(storage, Settings(false, recordAll, recordSuspicious));
  }

  /** What accepting consent evidently means to write: the accepted flag with the other two. */
  function AcceptConsentStorage(storage: map<string, Stored>, before: Settings): map<string, Stored> {
    Written(storage, before.(consentAccepted := true))
  }

  /** With that, the next launch starts with consent given and the other settings kept. */
  lemma AcceptedConsentRemembered(storage: map<string, Stored>, before: Settings)
    ensures Decoded(AcceptConsentStorage(storage, before))
      == Settings(true, before.recordAllCalls, before.recordSuspiciousCalls)
  {
    SettingsRoundTrip(storage, before.(consentAccepted := true));
  }

  /** The flags of the screen's first render, which the save effect at mount writes. */
  const FirstRenderSettings := Settings(false, false, true)

  /**
   * The save effect at mount captures the first render's flags, so whatever was stored, it
   * leaves storage that loads as the first render's settings, consent not given.
   */
  lemma MountSaveForgetsConsent(storage: map<string, Stored>)
    ensures Decoded(Written(storage, FirstRenderSettings)) == FirstRenderSettings
    ensures !Decoded(Written(storage, FirstRenderSettings)).consentAccepted
  {
    SettingsRoundTrip(storage, FirstRenderSettings);
  }

  /**
   * So even the corrected acceptance lasts one launch when both switches are at their first-render
   * values: that launch loads consent as given, but its save at mount writes `'false'` back
   * (loading changes no switch, so no later save restores it).
   */
  lemma CorrectedConsentLastsOneLaunch(storage: map<string, Stored>, before: Settings)
    requires !before.recordAllCalls && before.recordSuspiciousCalls
    ensures Decoded(AcceptConsentStorage(storage, before)) == Settings(true, false, true)
    ensures !Decoded(Written(AcceptConsentStorage(storage, before), FirstRenderSettings)).consentAccepted
  {
    AcceptedConsentRemembered(storage, before);
    MountSaveForgetsConsent(AcceptConsentStorage(storage, before));
  }

  // ---------------------------------------------------------------- the screen

  /** The alerts the screen shows. */
  datatype RecorderAlert =
    | PermissionsRequired                               // a manual start without permissions
    | ConsentRequired                                   // consent was rejected
    | StartFailed                                       // the recorder could not start
    | RecordingFinished(duration: string, size: string) // a manual recording was saved
    | AutoRecordingStarted(phoneNumber: string)         // an automatic recording started
    | RecordingCompleted(phoneNumber: string, duration: string, size: string) // and was saved
    | NotConfigured                                     // a call was answered with both settings off
    | DeleteFailed                                      // the file could not be deleted

  /** What the platform reports when a recording is finalised: clock-derived names and the formatted size. */
  datatype Stamp = Stamp(id: string, date: string, time: string, fileName: string, fileSize: string)

  /** Everything on the screen apart from the ledger, its storage and the device's files. */
  datatype ScreenState = ScreenState(
    permissionsGranted: bool,
    settings: Settings,
    consentModalVisible: bool,
    isRecording: bool,
    hasRecording: bool,
    autoRecordingActive: bool,
    isIncomingCall: bool,
    currentPhoneNumber: string,
    recordingTime: nat,
    alert: Option<RecorderAlert>)

  class CallRecorder {
    /** `FileSystem.documentDirectory` */
    const documentDirectory: string
    /** The paths of the files on the device. */
    var files: set<string>
    /** The device's key-value storage. */
    var storage: map<string, Stored>
    /** `recordedCalls` */
    var recordings: seq<RecordedCall>

    var permissionsGranted: bool
    var consentAccepted: bool
    var consentModalVisible: bool
    var recordAllCalls: bool
    var recordSuspiciousCalls: bool
    var isRecording: bool
    /** `recording !== null` */
    var hasRecording: bool
    var autoRecordingActive: bool
    var isIncomingCall: bool
    var currentPhoneNumber: string
    /** Seconds elapsed in the current recording. */
    var recordingTime: nat
    var alert: Option<RecorderAlert>

    function Screen(): ScreenState
      reads this
    {
      ScreenState(permissionsGranted, Settings(consentAccepted, recordAllCalls, recordSuspiciousCalls),
        consentModalVisible, isRecording, hasRecording, autoRecordingActive, isIncomingCall,
        currentPhoneNumber, recordingTime, alert)
    }

    /** Where finished recordings are kept. */
    function RecordingsDir(): string {
      documentDirectory + "recordings/"
    }

    /** The screen as first rendered, over the device's files and storage; permission is asked by the platform. */
    constructor (documentDirectory: string, files: set<string>, storage: map<string, Stored>, permissionsGranted: bool)
      ensures this.documentDirectory == documentDirectory && this.files == files && this.storage == storage
      ensures recordings == []
      ensures Screen() == ScreenState(permissionsGranted, Settings(false, false, true), false, false, false, false,
        false, "", 0, None)
    {
      this.documentDirectory := documentDirectory;
      this.files := files;
      this.storage := storage;
      this.permissionsGranted := permissionsGranted;
      recordings := [];
      consentAccepted, consentModalVisible, recordAllCalls, recordSuspiciousCalls := false, false, false, true;
      isRecording, hasRecording, autoRecordingActive, isIncomingCall := false, false, false, false;
      currentPhoneNumber, recordingTime, alert := "", 0, None;
    }

    // ------------------------------------------------------------ settings

    /** `loadSettings`: each flag is set only when its stored value says so. */
    method LoadSettings()
      modifies this
      ensures Screen() == old(Screen()).(
        settings := Settings(
          StoredTrue(storage, ConsentKey) || old(consentAccepted),
          StoredTrue(storage, RecordAllKey) || old(recordAllCalls),
          if RecordSuspiciousKey in storage then StoredTrue(storage, RecordSuspiciousKey) else old(recordSuspiciousCalls)),
        consentModalVisible := !StoredTrue(storage, ConsentKey) || old(consentModalVisible))
      ensures old(Screen().settings) == Settings(false, false, true) ==> Screen().settings == Decoded(storage)
      ensures storage == old(storage) && files == old(files) && recordings == old(recordings)
    {
      var consent := StoredTrue(storage, ConsentKey);
      var recordAll := StoredTrue(storage, RecordAllKey);
      var suspiciousStored := RecordSuspiciousKey in storage;
      var recordSuspicious := StoredTrue(storage, RecordSuspiciousKey);
      if consent {
        consentAccepted := true;
      } else {
        consentModalVisible := true;
      }
      if recordAll {
        recordAllCalls := true;
      }
      if suspiciousStored {
        recordSuspiciousCalls := recordSuspicious;
      }
    }

    /** `saveSettings`: the three flags as they are now. */
    method SaveSettings()
      modifies this
      ensures storage == Written(old(storage), Screen().settings)
      ensures Screen() == old(Screen()) && files == old(files) && recordings == old(recordings)
    {
      storage := Written(storage, Settings(consentAccepted, recordAllCalls, recordSuspiciousCalls));
    }

    /** `handleAcceptConsent`, saving the accepted flag (see `AcceptConsentAsWritten`). */
    method HandleAcceptConsent()
      modifies this
      ensures consentAccepted && !consentModalVisible
      ensures storage == AcceptConsentStorage(old(storage), old(Screen().settings))
      ensures Decoded(storage).consentAccepted
      ensures Screen() == old(Screen()).(settings := old(Screen().settings).(consentAccepted := true),
        consentModalVisible := false)
      ensures files == old(files) && recordings == old(recordings)
    {
      consentAccepted := true;
      consentModalVisible := false;
      SaveSettings();
      AcceptedConsentRemembered(old(storage), old(Screen().settings));
    }

    /** `handleRejectConsent`: the modal closes with a warning; consent stays as it was. */
    method HandleRejectConsent()
      modifies this
      ensures Screen() == old(Screen()).(consentModalVisible := false, alert := Some(ConsentRequired))
      ensures storage == old(storage) && files == old(files) && recordings == old(recordings)
    {
      alert := Some(ConsentRequired);
      consentModalVisible := false;
    }

    /** The "record all calls" switch; the settings are saved when the value changes. */
    method SetRecordAllCalls(value: bool)
      modifies this
      ensures Screen() == old(Screen()).(settings := old(Screen().settings).(recordAllCalls := value))
      ensures value != old(recordAllCalls) ==> storage == Written(old(storage), Screen().settings)
      ensures value == old(recordAllCalls) ==> storage == old(storage)
      ensures files == old(files) && recordings == old(recordings)
    {
      var changed := value != recordAllCalls;
      recordAllCalls := value;
      if changed {
        SaveSettings();
      }
    }

    /** The "record suspicious calls" switch; the settings are saved when the value changes. */
    method SetRecordSuspiciousCalls(value: bool)
      modifies this
      ensures Screen() == old(Screen()).(settings := old(Screen().settings).(recordSuspiciousCalls := value))
      ensures value != old(recordSuspiciousCalls) ==> storage == Written(old(storage), Screen().settings)
      ensures value == old(recordSuspiciousCalls) ==> storage == old(storage)
      ensures files == old(files) && recordings == old(recordings)
    {
      var changed := value != recordSuspiciousCalls;
      recordSuspiciousCalls := value;
      if changed {
        SaveSettings();
      }
    }

    // ------------------------------------------------------------ the ledger

    /** The stored ledger can be read: it is a list, and every listed file can be looked up. */
    predicate Loadable(unreadable: set<string>)
      reads this
    {
      RecordingsKey in storage && storage[RecordingsKey].RecordList?
      && forall k :: 0 <= k < |storage[RecordingsKey].items| ==> storage[RecordingsKey].items[k].filePath !in unreadable
    }

    /**
     * `loadRecordings`, where looking up the files in `unreadable` fails. A readable ledger is
     * replaced by its entries whose file exists, and rewritten only if that dropped one; an
     * absent or unreadable ledger changes nothing.
     */
    method LoadRecordings(unreadable: set<string>)
      modifies this
      ensures !old(Loadable(unreadable)) ==> recordings == old(recordings) && storage == old(storage)
      ensures old(Loadable(unreadable)) ==>
        var saved := old(storage)[RecordingsKey].items;
        recordings == Existing(saved, files)
        && storage == if |recordings| != |saved| then old(storage)[RecordingsKey := RecordList(recordings)] else old(storage)
      ensures files == old(files) && Screen() == old(Screen())
    {
      if RecordingsKey !in storage || !storage[RecordingsKey].RecordList? {
        return;
      }
      var saved := storage[RecordingsKey].items;
      var validRecordings := [];
      var i := 0;
      while i < |saved|
        invariant 0 <= i <= |saved|
        invariant validRecordings == Existing(saved[..i], files)
        invariant forall k :: 0 <= k < i ==> saved[k].filePath !in unreadable
      {
        if saved[i].filePath in unreadable {
          return;
        }
        if saved[i].filePath in files {
          validRecordings := validRecordings + [saved[i]];
        }
        assert saved[..i + 1][..i] == saved[..i];
        i := i + 1;
      }
      assert saved[..i] == saved;
      recordings := validRecordings;
      if |validRecordings| != |saved| {
        storage := storage[RecordingsKey := RecordList(validRecordings)];
      }
    }

    /** `saveRecording`: the new entry first, and the stored ledger equal to the list on screen. */
    method SaveRecording(newRecording: RecordedCall)
      modifies this
      ensures recordings == [newRecording] + old(recordings)
      ensures storage == old(storage)[RecordingsKey := RecordList(recordings)]
      ensures files == old(files) && Screen() == old(Screen())
    {
      recordings := [newRecording] + recordings;
      storage := storage[RecordingsKey := RecordList(recordings)];
    }

    /**
     * The delete button's handler: the file is deleted first, which fails for a missing file
     * or when `refused`; only then are the entries with the item's id dropped and the list saved.
     */
    method DeleteRecording(item: RecordedCall, refused: bool)
      modifies this
      ensures old(item.filePath !in files) || refused ==>
        files == old(files) && recordings == old(recordings) && storage == old(storage)
        && Screen() == old(Screen()).(alert := Some(DeleteFailed))
      ensures old(item.filePath in files) && !refused ==>
        files == old(files) - {item.filePath} && recordings == Without(old(recordings), item.id)
        && storage == old(storage)[RecordingsKey := RecordList(recordings)] && Screen() == old(Screen())
    {
      if item.filePath !in files || refused {
        alert := Some(DeleteFailed);
        return;
      }
      files := files - {item.filePath};
      recordings := Without(recordings, item.id);
      storage := storage[RecordingsKey := RecordList(recordings)];
    }

    // ------------------------------------------------------------ recording

    /** One second of the timer while recording. */
    method Tick()
      requires isRecording
      modifies this
      ensures Screen() == old(Screen()).(recordingTime := old(recordingTime) + 1)
      ensures files == old(files) && storage == old(storage) && recordings == old(recordings)
    {
      recordingTime := recordingTime + 1;
    }

    /**
     * `startRecording`, where `fails` says the recorder could not start. Permission is checked
     * before consent, and neither missing starts anything.
     */
    method StartRecording(fails: bool)
      modifies this
      ensures !old(permissionsGranted) ==> Screen() == old(Screen()).(alert := Some(PermissionsRequired))
      ensures old(permissionsGranted) && !old(consentAccepted) ==>
        Screen() == old(Screen()).(consentModalVisible := true)
      ensures old(permissionsGranted && consentAccepted) && fails ==>
        Screen() == old(Screen()).(alert := Some(StartFailed))
      ensures old(permissionsGranted && consentAccepted) && !fails ==>
        Screen() == old(Screen()).(hasRecording := true, isRecording := true, currentPhoneNumber := SimulatedNumber)
      ensures files == old(files) && storage == old(storage) && recordings == old(recordings)
    {
      if !permissionsGranted {
        alert := Some(PermissionsRequired);
        return;
      }
      if !consentAccepted {
        consentModalVisible := true;
        return;
      }
      if fails {
        alert := Some(StartFailed);
        return;
      }
      hasRecording := true;
      isRecording := true;
      currentPhoneNumber := SimulatedNumber;
    }

    /** The entry for a recording saved as `stamp.fileName`, from `phoneNumber`, lasting `duration`. */
    function Entry(stamp: Stamp, phoneNumber: string, duration: string): (r: RecordedCall)
      ensures r.filePath == RecordingsDir() + r.fileName && r.fileName == stamp.fileName
    {
      RecordedCall(stamp.id, phoneNumber, stamp.date, stamp.time, duration, stamp.fileSize,
        RecordingsDir() + stamp.fileName, stamp.fileName)
    }

    /**
     * The common part of both stop handlers: the recorder is released, and a file it left at
     * `uri` is moved into the recordings directory and put first in the ledger.
     */
    method EndRecording(uri: Option<string>, stamp: Stamp) returns (saved: bool, duration: string)
      modifies this
      ensures saved == (uri.Some? && uri.value != "") && duration == FormatTime(old(recordingTime))
      ensures Screen() == old(Screen()).(hasRecording := false, isRecording := false, recordingTime := 0)
      ensures !saved ==> files == old(files) && storage == old(storage) && recordings == old(recordings)
      ensures saved ==>
        files == (old(files) - {uri.value}) + {RecordingsDir() + stamp.fileName}
        && recordings == [Entry(stamp, currentPhoneNumber, duration)] + old(recordings)
        && storage == old(storage)[RecordingsKey := RecordList(recordings)]
    {
      duration := FormatTime(recordingTime);
      hasRecording := false;
      isRecording := false;
      recordingTime := 0;
      saved := uri.Some? && uri.value != "";
      if saved {
        var newPath := RecordingsDir() + stamp.fileName;
        files := (files - {uri.value}) + {newPath};
        SaveRecording(Entry(stamp, currentPhoneNumber, duration));
      }
    }

    /**
     * `stopRecording`: without a recorder nothing happens; otherwise recording stops, and a
     * file left at `uri` becomes the newest entry, with the elapsed time as its duration.
     */
    method StopRecording(uri: Option<string>, stamp: Stamp)
      modifies this
      ensures !old(hasRecording) ==>
        Screen() == old(Screen()) && files == old(files) && storage == old(storage) && recordings == old(recordings)
      ensures old(hasRecording) && (uri.None? || uri.value == "") ==>
        Screen() == old(Screen()).(hasRecording := false, isRecording := false, recordingTime := 0)
        && files == old(files) && storage == old(storage) && recordings == old(recordings)
      ensures old(hasRecording) && uri.Some? && uri.value != "" ==>
        var duration := FormatTime(old(recordingTime));
        Screen() == old(Screen()).(hasRecording := false, isRecording := false, recordingTime := 0,
          alert := Some(RecordingFinished(duration, stamp.fileSize)))
        && recordings == [Entry(stamp, currentPhoneNumber, duration)] + old(recordings)
        && storage == old(storage)[RecordingsKey := RecordList(recordings)]
        && files == (old(files) - {uri.value}) + {RecordingsDir() + stamp.fileName}
    {
      if !hasRecording {
        return;
      }
      var saved, duration := EndRecording(uri, stamp);
      if saved {
        alert := Some(RecordingFinished(duration, stamp.fileSize));
      }
    }

    /** `handleRecordPress`: the record button stops a running recording and starts one otherwise. */
    method HandleRecordPress(fails: bool, uri: Option<string>, stamp: Stamp)
      modifies this
      ensures old(isRecording) && old(hasRecording) ==> !isRecording && !hasRecording
      ensures !old(isRecording) && old(permissionsGranted && consentAccepted) && !fails ==> isRecording && hasRecording
      ensures !old(isRecording) && !old(permissionsGranted && consentAccepted) ==>
        isRecording == old(isRecording) && hasRecording == old(hasRecording) && recordings == old(recordings)
    {
      if isRecording {
        StopRecording(uri, stamp);
      } else {
        StartRecording(fails);
      }
    }

    /**
     * `startAutoRecording`, announcing the call from `shownNumber` (the number as the calling
     * handler saw it). Without both permission and consent it does nothing at all.
     */
    method StartAutoRecording(fails: bool, shownNumber: string)
      modifies this
      ensures !(old(permissionsGranted) && old(consentAccepted)) ==> Screen() == old(Screen())
      ensures old(permissionsGranted && consentAccepted) && fails ==> Screen() == old(Screen()).(autoRecordingActive := false)
      ensures old(permissionsGranted && consentAccepted) && !fails ==>
        Screen() == old(Screen()).(autoRecordingActive := true, hasRecording := true, isRecording := true,
          alert := Some(AutoRecordingStarted(shownNumber)))
      ensures files == old(files) && storage == old(storage) && recordings == old(recordings)
    {
      if !permissionsGranted || !consentAccepted {
        return;
      }
      autoRecordingActive := true;
      if fails {
        autoRecordingActive := false;
        return;
      }
      hasRecording := true;
      isRecording := true;
      alert := Some(AutoRecordingStarted(shownNumber));
    }

    /**
     * `stopAutoRecording`: nothing happens unless a recorder exists and auto-recording is
     * active; otherwise it ends like a manual stop and also clears the auto-recording flag.
     */
    method StopAutoRecording(uri: Option<string>, stamp: Stamp)
      modifies this
      ensures !(old(hasRecording) && old(autoRecordingActive)) ==>
        Screen() == old(Screen()) && files == old(files) && storage == old(storage) && recordings == old(recordings)
      ensures old(hasRecording && autoRecordingActive) && (uri.None? || uri.value == "") ==>
        Screen() == old(Screen()).(hasRecording := false, isRecording := false, autoRecordingActive := false,
          recordingTime := 0)
        && files == old(files) && storage == old(storage) && recordings == old(recordings)
      ensures old(hasRecording && autoRecordingActive) && uri.Some? && uri.value != "" ==>
        var duration := FormatTime(old(recordingTime));
        Screen() == old(Screen()).(hasRecording := false, isRecording := false, autoRecordingActive := false,
          recordingTime := 0, alert := Some(RecordingCompleted(currentPhoneNumber, duration, stamp.fileSize)))
        && recordings == [Entry(stamp, currentPhoneNumber, duration)] + old(recordings)
        && storage == old(storage)[RecordingsKey := RecordList(recordings)]
        && files == (old(files) - {uri.value}) + {RecordingsDir() + stamp.fileName}
    {
      if !hasRecording || !autoRecordingActive {
        return;
      }
      autoRecordingActive := false;
      var saved, duration := EndRecording(uri, stamp);
      if saved {
        alert := Some(RecordingCompleted(currentPhoneNumber, duration, stamp.fileSize));
      }
    }

    /**
     * `handleSimulatedCall` followed by the answer to its prompt: rejecting ends the call;
     * answering starts auto-recording only if one of the two settings is on.
     */
    method HandleSimulatedCall(phoneNumber: string, answer: bool, fails: bool)
      modifies this
      ensures currentPhoneNumber == phoneNumber && isIncomingCall == answer
      ensures !answer || !(old(recordAllCalls) || old(recordSuspiciousCalls)) ==>
        autoRecordingActive == old(autoRecordingActive) && hasRecording == old(hasRecording)
      ensures answer && !(old(recordAllCalls) || old(recordSuspiciousCalls)) ==> alert == Some(NotConfigured)
      ensures (answer && (old(recordAllCalls) || old(recordSuspiciousCalls))
        && old(permissionsGranted && consentAccepted) && !fails) ==>
        autoRecordingActive && hasRecording && alert == Some(AutoRecordingStarted(old(currentPhoneNumber)))
      ensures files == old(files) && storage == old(storage) && recordings == old(recordings)
      ensures Screen().settings == old(Screen().settings)
    {
      var shownNumber := currentPhoneNumber;
      currentPhoneNumber := phoneNumber;
      isIncomingCall := true;
      if !answer {
        isIncomingCall := false;
      } else if recordAllCalls || recordSuspiciousCalls {
        StartAutoRecording(fails, shownNumber);
      } else {
        alert := Some(NotConfigured);
      }
    }
  }
}
