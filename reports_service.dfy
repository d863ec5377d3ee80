/**
 * The report service: validation of the report form, formatting of the form into the
 * request payload, removal of empty values before sending, the mapping of transport
 * failures to user-facing messages, and the three API calls reduced to the request they
 * build and the outcome they return.
 */
module ReportsService {
  import opened Wrappers
  import opened JsText
  import opened JsValue
  import opened ApiConfig

  /** The form as the report screen passes it: five text fields and four flags. */
  datatype FormData = FormData(
    phoneNumber: string,
    date: string,
    time: string,
    description: string,
    hasEvidence: bool,
    anonymous: bool,
    reporterName: string,
    reporterContact: string,
    termsAccepted: bool)

  /** The `field` tag of a validation error, in the order the checks run. */
  datatype Field = PhoneNumber | Date | Time | Description | TermsAccepted | ReporterName | ReporterContact

  function FieldRank(f: Field): nat {
    match f
    case PhoneNumber => 0
    case Date => 1
    case Time => 2
    case Description => 3
    case TermsAccepted => 4
    case ReporterName => 5
    case ReporterContact => 6
  }

  /** A validation error: which rule failed, with the `field` and `message` it reports. */
  datatype FieldError =
    | PhoneRequired | PhoneInvalid
    | DateRequired | DateInvalid
    | TimeRequired | TimeInvalid
    | DescriptionTooShort | DescriptionTooLong
    | TermsRequired
    | NameTooShort | NameTooLong
    | ContactTooShort | ContactTooLong
  {
    function field(): Field {
      match this
      case PhoneRequired | PhoneInvalid => PhoneNumber
      case DateRequired | DateInvalid => Date
      case TimeRequired | TimeInvalid => Time
      case DescriptionTooShort | DescriptionTooLong => Description
      case TermsRequired => TermsAccepted
      case NameTooShort | NameTooLong => ReporterName
      case ContactTooShort | ContactTooLong => ReporterContact
    }

    function message(): string {
      match this
      case PhoneRequired => "El número telefónico es obligatorio"
      case PhoneInvalid => "Formato de teléfono colombiano inválido. Debe tener 10 dígitos o incluir +57"
      case DateRequired => "La fecha es obligatoria"
      case DateInvalid => "La fecha debe tener el formato DD/MM/AAAA"
      case TimeRequired => "La hora es obligatoria"
      case TimeInvalid => "La hora debe tener el formato HH:MM (24 horas)"
      case DescriptionTooShort => "La descripción debe tener al menos 10 caracteres"
      case DescriptionTooLong => "La descripción no puede exceder 1000 caracteres"
      case TermsRequired => "Debe aceptar los términos y condiciones"
      case NameTooShort => "El nombre debe tener al menos 2 caracteres si no es anónimo"
      case NameTooLong => "El nombre no puede exceder 100 caracteres"
      case ContactTooShort => "El contacto debe tener al menos 7 caracteres si no es anónimo"
      case ContactTooLong => "El contacto no puede exceder 50 caracteres"
    }
  }

  // ---------------------------------------------------------------- the format rules

  /** `[1-9]\d{9}`: ten digits, the first of them not zero. */
  predicate LocalNumber(s: string) {
    |s| == 10 && '1' <= s[0] <= '9' && AllDigits(s)
  }

  /** `/^(\+?57)?[1-9]\d{9}$/` */
  predicate ColombianPattern(s: string) {
    LocalNumber(s)
    || (|s| == 12 && s[..2] == "57" && LocalNumber(s[2..]))
    || (|s| == 13 && s[..3] == "+57" && LocalNumber(s[3..]))
  }

  /**
   * The phone rule: the number without white space matches the Colombian pattern, or its
   * digits alone are ten and start with `3`.
   */
  predicate PhoneAccepted(p: string) {
    ColombianPattern(WithoutWhitespace(p))
    || (|Digits(p)| == 10 && StartsWith(Digits(p), "3"))
  }

  /** `/^\d{2}\/\d{2}\/\d{4}$/`; there is no calendar check. */
  predicate DateShape(s: string) {
    |s| == 10 && s[2] == '/' && s[5] == '/'
    && forall i :: 0 <= i < 10 && i != 2 && i != 5 ==> IsDigit(s[i])
  }

  predicate IsMinuteTens(c: char) {
    '0' <= c <= '5'
  }

  /** `/^([01]?[0-9]|2[0-3]):[0-5][0-9]$/` */
  predicate TimeShape(s: string) {
    (|s| == 4 && IsDigit(s[0]) && s[1] == ':' && IsMinuteTens(s[2]) && IsDigit(s[3]))
    || (|s| == 5
        && ((('0' <= s[0] <= '1') && IsDigit(s[1])) || (s[0] == '2' && '0' <= s[1] <= '3'))
        && s[2] == ':' && IsMinuteTens(s[3]) && IsDigit(s[4]))
  }

  /** The time rule read as numbers: one or two hour digits worth at most 23, a colon, two minute digits worth at most 59. */
  predicate ClockReading(s: string) {
    (|s| == 4 || |s| == 5) && s[|s| - 3] == ':'
    && AllDigits(s[..|s| - 3]) && AllDigits(s[|s| - 2..])
    && Value(s[..|s| - 3]) <= 23 && Value(s[|s| - 2..]) <= 59
  }

  lemma TwoDigitValue(s: string)
    requires |s| == 2 && AllDigits(s)
    ensures Value(s) == 10 * DigitValue(s[0]) + DigitValue(s[1])
  {
    assert s[..1][..0] == "";
    assert Value(s[..1]) == DigitValue(s[0]);
  }

  lemma OneDigitValue(s: string)
    requires |s| == 1 && AllDigits(s)
    ensures Value(s) == DigitValue(s[0])
  {
    assert s[..0] == "";
  }

  /** The regular expression accepts exactly the clock readings. */
  lemma TimeShapeIsClockReading(s: string)
    ensures TimeShape(s) <==> ClockReading(s)
  {
    if |s| == 4 || |s| == 5 {
      var h := s[..|s| - 3];
      var m := s[|s| - 2..];
      if AllDigits(m) {
        TwoDigitValue(m);
      }
      if |s| == 4 && AllDigits(h) {
        OneDigitValue(h);
      }
      if |s| == 5 && AllDigits(h) {
        TwoDigitValue(h);
      }
    }
  }

  // ---------------------------------------------------------------- per-field checks

  function PhoneCheck(p: string): Option<FieldError> {
    if p == "" then Some(PhoneRequired)
    else if !PhoneAccepted(p) then Some(PhoneInvalid)
    else None
  }

  function DateCheck(d: string): Option<FieldError> {
    if d == "" then Some(DateRequired)
    else if !DateShape(d) then Some(DateInvalid)
    else None
  }

  function TimeCheck(t: string): Option<FieldError> {
    if t == "" then Some(TimeRequired)
    else if !TimeShape(t) then Some(TimeInvalid)
    else None
  }

  function DescriptionCheck(d: string): Option<FieldError> {
    if d == "" || Length(Trim(d)) < 10 then Some(DescriptionTooShort)
    else if Length(Trim(d)) > 1000 then Some(DescriptionTooLong)
    else None
  }

  function TermsCheck(accepted: bool): Option<FieldError> {
    if !accepted then Some(TermsRequired) else None
  }

  function NameCheck(n: string): Option<FieldError> {
    if n == "" || Length(Trim(n)) < 2 then Some(NameTooShort)
    else if Length(Trim(n)) > 100 then Some(NameTooLong)
    else None
  }

  function ContactCheck(c: string): Option<FieldError> {
    if c == "" || Length(Trim(c)) < 7 then Some(ContactTooShort)
    else if Length(Trim(c)) > 50 then Some(ContactTooLong)
    else None
  }

  function Listed(e: Option<FieldError>): seq<FieldError> {
    if e.Some? then [e.value] else []
  }

  /** The check of one field; the reporter checks only apply to a report that is not anonymous. */
  function Check(f: FormData, field: Field): Option<FieldError> {
    match field
    case PhoneNumber => PhoneCheck(f.phoneNumber)
    case Date => DateCheck(f.date)
    case Time => TimeCheck(f.time)
    case Description => DescriptionCheck(f.description)
    case TermsAccepted => TermsCheck(f.termsAccepted)
    case ReporterName => if f.anonymous then None else NameCheck(f.reporterName)
    case ReporterContact => if f.anonymous then None else ContactCheck(f.reporterContact)
  }

  /** The errors `validateReportData` returns, check by check. */
  function ValidationErrors(f: FormData): seq<FieldError> {
    Listed(Check(f, PhoneNumber)) + Listed(Check(f, Date)) + Listed(Check(f, Time))
    + Listed(Check(f, Description)) + Listed(Check(f, TermsAccepted))
    + Listed(Check(f, ReporterName)) + Listed(Check(f, ReporterContact))
  }

  /** Whether a field's rule holds, stated without the error messages. */
  predicate FieldValid(f: FormData, field: Field) {
    match field
    case PhoneNumber => PhoneAccepted(f.phoneNumber)
    case Date => DateShape(f.date)
    case Time => TimeShape(f.time)
    case Description => 10 <= Length(Trim(f.description)) <= 1000
    case TermsAccepted => f.termsAccepted
    case ReporterName => f.anonymous || 2 <= Length(Trim(f.reporterName)) <= 100
    case ReporterContact => f.anonymous || 7 <= Length(Trim(f.reporterContact)) <= 50
  }

  /** A form every rule accepts. */
  predicate FormAccepted(f: FormData) {
    forall field: Field :: FieldValid(f, field)
  }

  /**
   * The bounds count UTF-16 code units, as `.trim().length` does: one emoji is a name of
   * length two, five are a description of length ten.
   */
  lemma AstralCharactersCountTwice()
    ensures NameCheck("\U{1F600}") == None
    ensures DescriptionCheck("\U{1F600}\U{1F600}\U{1F600}\U{1F600}\U{1F600}") == None
  {
    var e := "\U{1F600}";
    assert Trim(e) == e;
    assert Length(e) == 2;
    var d := e + e + e + e + e;
    assert Trim(d) == d;
    LengthAppend(e, e);
    LengthAppend(e + e, e);
    LengthAppend(e + e + e, e);
    LengthAppend(e + e + e + e, e);
  }

  /**
   * `validateReportData`: runs every check in turn and collects the errors. Each block of
   * the source is its own step below.
   */
  method ValidateReportData(form: FormData) returns (errors: seq<FieldError>)
    ensures errors == ValidationErrors(form)
  {
    errors := ValidatePhoneNumber(form);
    errors := ValidateDate(form, errors);
    errors := ValidateTime(form, errors);
    errors := ValidateDescription(form, errors);
    errors := ValidateTerms(form, errors);
    if !form.anonymous {
      errors := ValidateReporter(form, errors);
    }
  }

  method ValidatePhoneNumber(form: FormData) returns (errors: seq<FieldError>)
    ensures errors == Listed(Check(form, PhoneNumber))
  {
    errors := [];
    if form.phoneNumber == "" {
      errors := errors + [PhoneRequired];
    } else {
      var cleanPhone := Digits(form.phoneNumber);
      if !ColombianPattern(WithoutWhitespace(form.phoneNumber))
         && !(|cleanPhone| == 10 && StartsWith(cleanPhone, "3")) {
        errors := errors + [PhoneInvalid];
      }
    }
  }

  method ValidateDate(form: FormData, before: seq<FieldError>) returns (errors: seq<FieldError>)
    ensures errors == before + Listed(Check(form, Date))
  {
    errors := before;
    if form.date == "" {
      errors := errors + [DateRequired];
    } else if !DateShape(form.date) {
      errors := errors + [DateInvalid];
    }
  }

  method ValidateTime(form: FormData, before: seq<FieldError>) returns (errors: seq<FieldError>)
    ensures errors == before + Listed(Check(form, Time))
  {
    errors := before;
    if form.time == "" {
      errors := errors + [TimeRequired];
    } else if !TimeShape(form.time) {
      errors := errors + [TimeInvalid];
    }
  }

  method ValidateDescription(form: FormData, before: seq<FieldError>) returns (errors: seq<FieldError>)
    ensures errors == before + Listed(Check(form, Description))
  {
    errors := before;
    if form.description == "" || Length(Trim(form.description)) < 10 {
      errors := errors + [DescriptionTooShort];
    } else if Length(Trim(form.description)) > 1000 {
      errors := errors + [DescriptionTooLong];
    }
  }

  method ValidateTerms(form: FormData, before: seq<FieldError>) returns (errors: seq<FieldError>)
    ensures errors == before + Listed(Check(form, TermsAccepted))
  {
    errors := before;
    if !form.termsAccepted {
      errors := errors + [TermsRequired];
    }
  }

  /** The block that only runs for a report that is not anonymous. */
  method ValidateReporter(form: FormData, before: seq<FieldError>) returns (errors: seq<FieldError>)
    requires !form.anonymous
    ensures errors == before + Listed(Check(form, ReporterName)) + Listed(Check(form, ReporterContact))
  {
    errors := before;
    if form.reporterName == "" || Length(Trim(form.reporterName)) < 2 {
      errors := errors + [NameTooShort];
    } else if Length(Trim(form.reporterName)) > 100 {
      errors := errors + [NameTooLong];
    }
    if form.reporterContact == "" || Length(Trim(form.reporterContact)) < 7 {
      errors := errors + [ContactTooShort];
    } else if Length(Trim(form.reporterContact)) > 50 {
      errors := errors + [ContactTooLong];
    }
  }

  /** Each check reports its own field, and reports nothing exactly when the field's rule holds. */
  lemma CheckField(f: FormData, field: Field)
    ensures Check(f, field).Some? ==> Check(f, field).value.field() == field
    ensures Check(f, field).None? <==> FieldValid(f, field)
  {
    if field.PhoneNumber? && f.phoneNumber == "" {
      assert Digits(f.phoneNumber) == "";
      assert WithoutWhitespace(f.phoneNumber) == "";
    }
  }

  predicate InCheckOrder(errs: seq<FieldError>) {
    forall i, j :: 0 <= i < j < |errs| ==> FieldRank(errs[i].field()) < FieldRank(errs[j].field())
  }

  predicate RanksBelow(errs: seq<FieldError>, r: nat) {
    forall i :: 0 <= i < |errs| ==> FieldRank(errs[i].field()) < r
  }

  predicate Reports(errs: seq<FieldError>, field: Field) {
    exists i :: 0 <= i < |errs| && errs[i].field() == field
  }

  /** Seven check outcomes, one per rank. */
  predicate RankedOutcomes(o: seq<Option<FieldError>>) {
    |o| == 7 && forall field :: o[FieldRank(field)].Some? ==> o[FieldRank(field)].value.field() == field
  }

  /** The errors of the first `k` outcomes report exactly the fields of rank below `k` whose check failed. */
  predicate FlattenedUpTo(o: seq<Option<FieldError>>, errs: seq<FieldError>, k: nat)
    requires |o| == 7
  {
    InCheckOrder(errs) && RanksBelow(errs, k)
    && forall field :: FieldRank(field) < k ==> (Reports(errs, field) <==> o[FieldRank(field)].Some?)
  }

  lemma AppendOutcome(o: seq<Option<FieldError>>, prefix: seq<FieldError>, k: nat)
    requires RankedOutcomes(o) && k < 7
    requires FlattenedUpTo(o, prefix, k)
    requires o[k].Some? ==> FieldRank(o[k].value.field()) == k
    ensures FlattenedUpTo(o, prefix + Listed(o[k]), k + 1)
  {
    var s := prefix + Listed(o[k]);
    forall field | FieldRank(field) < k + 1
      ensures Reports(s, field) <==> o[FieldRank(field)].Some?
    {
      if Reports(s, field) {
        var i :| 0 <= i < |s| && s[i].field() == field;
        if i < |prefix| {
          assert prefix[i] == s[i];
        }
      }
      if FieldRank(field) < k && Reports(prefix, field) {
        var i :| 0 <= i < |prefix| && prefix[i].field() == field;
        assert s[i] == prefix[i];
      }
      if FieldRank(field) == k && o[k].Some? {
        assert s[|prefix|] == o[k].value;
      }
    }
  }

  function Flatten(o: seq<Option<FieldError>>): seq<FieldError>
    requires |o| == 7
  {
    Listed(o[0]) + Listed(o[1]) + Listed(o[2]) + Listed(o[3]) + Listed(o[4]) + Listed(o[5]) + Listed(o[6])
  }

  /** Seven check outcomes, each of its own rank, flatten to errors in check order. */
  lemma FlattenInOrder(o: seq<Option<FieldError>>)
    requires RankedOutcomes(o)
    requires forall k :: 0 <= k < 7 && o[k].Some? ==> FieldRank(o[k].value.field()) == k
    ensures FlattenedUpTo(o, Flatten(o), 7)
  {
    var s0: seq<FieldError> := [];
    AppendOutcome(o, s0, 0);
    var s1 := s0 + Listed(o[0]);
    AppendOutcome(o, s1, 1);
    var s2 := s1 + Listed(o[1]);
    AppendOutcome(o, s2, 2);
    var s3 := s2 + Listed(o[2]);
    AppendOutcome(o, s3, 3);
    var s4 := s3 + Listed(o[3]);
    AppendOutcome(o, s4, 4);
    var s5 := s4 + Listed(o[4]);
    AppendOutcome(o, s5, 5);
    var s6 := s5 + Listed(o[5]);
    AppendOutcome(o, s6, 6);
    assert s1 == Listed(o[0]);
  }

  function Outcomes(f: FormData): (o: seq<Option<FieldError>>)
    ensures |o| == 7
    ensures forall field :: o[FieldRank(field)] == Check(f, field)
  {
    [Check(f, PhoneNumber), Check(f, Date), Check(f, Time), Check(f, Description),
     Check(f, TermsAccepted), Check(f, ReporterName), Check(f, ReporterContact)]
  }

  /**
   * The errors come in check order with at most one per field, and a field has an error
   * exactly when its rule fails.
   */
  lemma ValidationErrorsPerField(f: FormData)
    ensures InCheckOrder(ValidationErrors(f))
    ensures forall field: Field :: Reports(ValidationErrors(f), field) <==> !FieldValid(f, field)
  {
    var o := Outcomes(f);
    OutcomesRanked(f);
    FlattenInOrder(o);
    assert Flatten(o) == ValidationErrors(f);
  }

  lemma OutcomesRanked(f: FormData)
    ensures RankedOutcomes(Outcomes(f))
    ensures forall k :: 0 <= k < 7 && Outcomes(f)[k].Some? ==> FieldRank(Outcomes(f)[k].value.field()) == k
    ensures forall field :: Outcomes(f)[FieldRank(field)].Some? <==> !FieldValid(f, field)
  {
    var o := Outcomes(f);
    forall field: Field
      ensures o[FieldRank(field)].Some? ==> o[FieldRank(field)].value.field() == field
      ensures o[FieldRank(field)].Some? <==> !FieldValid(f, field)
    {
      CheckField(f, field);
    }
    forall k | 0 <= k < 7 && o[k].Some?
      ensures FieldRank(o[k].value.field()) == k
    {
      var field := [PhoneNumber, Date, Time, Description, TermsAccepted, ReporterName, ReporterContact][k];
      assert FieldRank(field) == k;
    }
  }

  /** Validation returns no error exactly when every rule holds. */
  lemma ValidationEmptyIffAccepted(f: FormData)
    ensures ValidationErrors(f) == [] <==> FormAccepted(f)
  {
    ValidationErrorsPerField(f);
    if ValidationErrors(f) != [] {
      assert Reports(ValidationErrors(f), ValidationErrors(f)[0].field());
    }
  }

  // ---------------------------------------------------------------- phone normalisation

  /**
   * The phone number as `formatReportData` sends it: its digits, without the first two when
   * they are twelve starting `57` or thirteen starting `575`.
   */
  function NormalizedPhone(raw: string): (r: string)
    ensures AllDigits(r)
  {
    var d := Digits(raw);
    if |d| == 10 && StartsWith(d, "3") then d
    else if |d| == 12 && StartsWith(d, "57") then d[2..]
    else if |d| == 13 && StartsWith(d, "575") then d[2..]
    else d
  }

  /** Every other input keeps all of its digits. */
  lemma NormalizedPhoneKeepsOtherDigits(raw: string)
    requires var d := Digits(raw); !(|d| == 12 && StartsWith(d, "57")) && !(|d| == 13 && StartsWith(d, "575"))
    ensures NormalizedPhone(raw) == Digits(raw)
  {
  }

  /** An accepted phone number is sent as ten digits, the last ten of its digits. */
  lemma AcceptedPhoneNormalizes(p: string)
    requires PhoneAccepted(p)
    ensures LocalNumber(NormalizedPhone(p))
    ensures |Digits(p)| >= 10 && NormalizedPhone(p) == Digits(p)[|Digits(p)| - 10..]
  {
    var w := WithoutWhitespace(p);
    var d := Digits(p);
    DigitsIgnoreWhitespace(p);
    assert Digits(w) == d;
    if |d| == 10 && StartsWith(d, "3") {
      assert AllDigits(d);
    } else if LocalNumber(w) {
      FilterKeepsAll(w, IsDigit);
    } else if |w| == 12 && w[..2] == "57" && LocalNumber(w[2..]) {
      PrefixedDigits(w);
    } else {
      PlusPrefixedDigits(w);
    }
  }

  /** `57` followed by a local number is all digits. */
  lemma PrefixedDigits(w: string)
    requires |w| == 12 && w[..2] == "57" && LocalNumber(w[2..])
    ensures Digits(w) == w && StartsWith(w, "57")
  {
    assert AllDigits(w) by {
      forall i | 0 <= i < 12 ensures IsDigit(w[i]) {
        if i >= 2 { assert w[2..][i - 2] == w[i]; }
      }
    }
    FilterKeepsAll(w, IsDigit);
  }

  /** `+57` followed by a local number has the same digits without its `+`. */
  lemma PlusPrefixedDigits(w: string)
    requires |w| == 13 && w[..3] == "+57" && LocalNumber(w[3..])
    ensures Digits(w) == w[1..] && StartsWith(w[1..], "57") && w[1..][2..] == w[3..]
  {
    var tail := w[1..];
    assert AllDigits(tail) by {
      forall i | 0 <= i < 12 ensures IsDigit(tail[i]) {
        if i >= 2 { assert w[3..][i - 2] == tail[i]; } else { assert w[..3][i + 1] == tail[i]; }
      }
    }
    assert tail[..2] == "57" by {
      assert w[1] == w[..3][1] && w[2] == w[..3][2];
    }
    assert w == [w[0]] + tail;
    FilterAppend([w[0]], tail, IsDigit);
    FilterKeepsAll(tail, IsDigit);
    assert Filter([w[0]], IsDigit) == [];
  }

  /**
   * The branch for thirteen digits starting `575` keeps eleven digits, and no number that
   * validation accepts reaches it.
   */
  lemma ThirteenDigitBranchKeepsEleven(raw: string)
    requires |Digits(raw)| == 13 && StartsWith(Digits(raw), "575")
    ensures |NormalizedPhone(raw)| == 11
    ensures !PhoneAccepted(raw)
  {
    if PhoneAccepted(raw) {
      AcceptedPhoneNormalizes(raw);
    }
  }

  // ---------------------------------------------------------------- time normalisation

  predicate IsClockChar(c: char) {
    IsDigit(c) || c == ':'
  }

  function Min(a: nat, b: nat): nat {
    if a < b then a else b
  }

  /** `HH:MM` from an hour and a minute below 100, each padded to two digits. */
  function ClockText(h: nat, m: nat): (r: string)
    requires h < 100 && m < 100
    ensures |r| == 5 && r[2] == ':'
  {
    PadTwo(NatToString(h)) + ":" + PadTwo(NatToString(m))
  }

  /** The pieces of a digits-and-colons string around its colons are digit strings. */
  lemma ClockPartsAreDigits(c: string)
    requires forall i :: 0 <= i < |c| ==> IsClockChar(c[i])
    ensures forall k :: 0 <= k < |Split(c, ':')| ==> AllDigits(Split(c, ':')[k])
  {
    var parts := Split(c, ':');
    SplitKeeps(c, ':', IsClockChar);
    forall k, i | 0 <= k < |parts| && 0 <= i < |parts[k]|
      ensures IsDigit(parts[k][i])
    {
      assert parts[k][i] != ':' by {
        assert ':' !in parts[k];
      }
    }
  }

  /**
   * The time as `formatReportData` sends it: the empty string as it is, anything else
   * reshaped after dropping every character but digits and colons.
   */
  function NormalizedTime(t: string): string {
    if t == "" then t else Reshaped(Filter(t, IsClockChar))
  }

  /**
   * With a colon: the first two pieces read as numbers (empty as 0), clamped to 23 and 59 and
   * padded. Without one: three digits become `0d:dd`, four become `dd:dd`, with no clamping,
   * and anything else stays as it is.
   */
  function Reshaped(c: string): string
    requires forall i :: 0 <= i < |c| ==> IsClockChar(c[i])
  {
    if ':' in c then ClampedClock(c)
    else if |c| == 3 then "0" + [c[0]] + ":" + c[1..]
    else if |c| == 4 then c[..2] + ":" + c[2..]
    else c
  }

  function ClampedClock(c: string): string
    requires forall i :: 0 <= i < |c| ==> IsClockChar(c[i])
    requires ':' in c
  {
    var parts := Split(c, ':');
    ClockPartsAreDigits(c);
    ClockText(Min(23, Value(parts[0])), Min(59, Value(parts[1])))
  }

  lemma ValueBelow100(s: string)
    requires AllDigits(s) && |s| <= 2
    ensures Value(s) < 100
  {
    if |s| == 2 {
      TwoDigitValue(s);
    } else if |s| == 1 {
      OneDigitValue(s);
    }
  }

  lemma TwoDigitsUnique(a: string, b: string)
    requires |a| == 2 && |b| == 2 && AllDigits(a) && AllDigits(b) && Value(a) == Value(b)
    ensures a == b
  {
    TwoDigitValue(a);
    TwoDigitValue(b);
    assert a[0] == b[0] && a[1] == b[1];
  }

  lemma PadTwoValue(s: string)
    requires AllDigits(s) && 1 <= |s| <= 2
    ensures |PadTwo(s)| == 2 && AllDigits(PadTwo(s)) && Value(PadTwo(s)) == Value(s)
  {
    if |s| == 1 {
      OneDigitValue(s);
      TwoDigitValue(PadTwo(s));
    }
  }

  /** Re-rendering the value of one or two digits gives them back, padded. */
  lemma PaddedValue(s: string)
    requires AllDigits(s) && 1 <= |s| <= 2
    ensures Value(s) < 100
    ensures PadTwo(NatToString(Value(s))) == PadTwo(s)
  {
    ValueBelow100(s);
    var r := NatToString(Value(s));
    PadTwoValue(r);
    PadTwoValue(s);
    TwoDigitsUnique(PadTwo(r), PadTwo(s));
  }

  /** The padded rendering of a number below 100 is two digits worth that number. */
  lemma PaddedNumber(n: nat)
    requires n < 100
    ensures |PadTwo(NatToString(n))| == 2 && AllDigits(PadTwo(NatToString(n)))
    ensures Value(PadTwo(NatToString(n))) == n
  {
    PadTwoValue(NatToString(n));
  }

  /** A rendered clock with an hour up to 23 and a minute up to 59 is a valid time. */
  lemma ClockTextShape(h: nat, m: nat)
    requires h <= 23 && m <= 59
    ensures TimeShape(ClockText(h, m))
  {
    var r := ClockText(h, m);
    PaddedNumber(h);
    PaddedNumber(m);
    assert r[..2] == PadTwo(NatToString(h)) && r[3..] == PadTwo(NatToString(m));
    TimeShapeIsClockReading(r);
  }

  /** With a colon among the kept characters, the result is always a valid `HH:MM` time. */
  lemma NormalizedTimeWithColon(t: string)
    requires ':' in Filter(t, IsClockChar)
    ensures TimeShape(NormalizedTime(t)) && |NormalizedTime(t)| == 5
  {
    var c := Filter(t, IsClockChar);
    var parts := Split(c, ':');
    ClockPartsAreDigits(c);
    ClockTextShape(Min(23, Value(parts[0])), Min(59, Value(parts[1])));
  }

  /** A valid time keeps all its characters and splits at its colon into the hour and the minute. */
  lemma ValidTimeParts(t: string)
    requires ClockReading(t)
    ensures Filter(t, IsClockChar) == t && ':' in t
    ensures Split(t, ':') == [t[..|t| - 3], t[|t| - 2..]]
    ensures t == t[..|t| - 3] + ":" + t[|t| - 2..]
  {
    var n := |t| - 3;
    var h := t[..n];
    var m := t[n + 1..];
    assert t == h + ":" + m;
    DigitsAroundColon(h, m);
  }

  /** Digits, a colon and digits are all kept, and split at the colon into the two runs. */
  lemma DigitsAroundColon(h: string, m: string)
    requires AllDigits(h) && AllDigits(m)
    ensures Filter(h + ":" + m, IsClockChar) == h + ":" + m
    ensures Split(h + ":" + m, ':') == [h, m]
  {
    var t := h + ":" + m;
    forall i | 0 <= i < |t|
      ensures IsClockChar(t[i])
    {
      if i < |h| {
        assert t[i] == h[i];
      } else if i > |h| {
        assert t[i] == m[i - |h| - 1];
      }
    }
    FilterKeepsAll(t, IsClockChar);
    assert ':' !in h && ':' !in m by {
      assert forall i :: 0 <= i < |h| ==> IsDigit(h[i]);
      assert forall i :: 0 <= i < |m| ==> IsDigit(m[i]);
    }
    SplitJoin([h, m], ':');
    assert Join([h, m], [':']) == t;
  }

  /** A time validation accepts is sent as itself, with a one-digit hour padded. */
  lemma NormalizedValidTime(t: string)
    requires TimeShape(t)
    ensures NormalizedTime(t) == if |t| == 4 then "0" + t else t
  {
    TimeShapeIsClockReading(t);
    NormalizedClockReading(t);
  }

  lemma NormalizedClockReading(t: string)
    requires ClockReading(t)
    ensures NormalizedTime(t) == if |t| == 4 then "0" + t else t
  {
    ValidTimeParts(t);
    var h := t[..|t| - 3];
    var m := t[|t| - 2..];
    NormalizedSplit(t, h, m);
    ClockTextOfParts(t, h, m);
  }

  /** The clock rendered from a reading's own parts is the reading, padded to five characters. */
  lemma ClockTextOfParts(t: string, h: string, m: string)
    requires t == h + ":" + m && 1 <= |h| <= 2 && |m| == 2
    requires AllDigits(h) && AllDigits(m) && Value(h) <= 23 && Value(m) <= 59
    ensures ClockText(Min(23, Value(h)), Min(59, Value(m))) == if |t| == 4 then "0" + t else t
  {
    PaddedValue(h);
    PaddedValue(m);
  }

  /** A string of clock characters with one colon is rendered from its two clamped parts. */
  lemma NormalizedSplit(t: string, h: string, m: string)
    requires Filter(t, IsClockChar) == t && ':' in t && Split(t, ':') == [h, m]
    ensures AllDigits(h) && AllDigits(m)
    ensures NormalizedTime(t) == ClockText(Min(23, Value(h)), Min(59, Value(m)))
  {
    ClockPartsAreDigits(t);
    assert AllDigits(Split(t, ':')[0]) && AllDigits(Split(t, ':')[1]);
  }

  lemma NormalizedTimeIdempotent(t: string)
    requires ':' in Filter(t, IsClockChar)
    ensures NormalizedTime(NormalizedTime(t)) == NormalizedTime(t)
  {
    NormalizedTimeWithColon(t);
    NormalizedValidTime(NormalizedTime(t));
  }

  /** `9:3` becomes `09:03`. */
  lemma TimeExampleShortParts()
    ensures NormalizedTime("9:3") == "09:03"
  {
    assert NormalizedTime("9:3") == ClockText(9, 3) by {
      assert "9:3" == "9" + ":" + "3";
      NormalizedDigitsAroundColon("9", "3");
      OneDigitValue("9");
      OneDigitValue("3");
    }
    ClockTextOf(9, 3);
    assert DigitChar(0) == '0' && DigitChar(9) == '9' && DigitChar(3) == '3';
  }

  /** The clock text of two numbers below 100 is their two-digit renderings around a colon. */
  lemma ClockTextOf(h: nat, m: nat)
    requires h < 100 && m < 100
    ensures ClockText(h, m) == [DigitChar(h / 10), DigitChar(h % 10), ':', DigitChar(m / 10), DigitChar(m % 10)]
  {
    PaddedDigits(h);
    PaddedDigits(m);
  }

  lemma PaddedDigits(n: nat)
    requires n < 100
    ensures PadTwo(NatToString(n)) == [DigitChar(n / 10), DigitChar(n % 10)]
  {
    if n < 10 {
      assert NatToString(n) == [DigitChar(n)];
      assert n / 10 == 0 && n % 10 == n;
      assert DigitChar(0) == '0';
    } else {
      var t := n / 10;
      assert t < 10;
      assert NatToString(t) == [DigitChar(t)];
      assert NatToString(n) == NatToString(t) + [DigitChar(n % 10)];
    }
  }

  /** Digits, a colon and digits normalise to the clamped clock of the two runs. */
  lemma NormalizedDigitsAroundColon(h: string, m: string)
    requires AllDigits(h) && AllDigits(m)
    ensures NormalizedTime(h + ":" + m) == ClockText(Min(23, Value(h)), Min(59, Value(m)))
  {
    var t := h + ":" + m;
    DigitsAroundColon(h, m);
    assert t[|h|] == ':';
    NormalizedSplit(t, h, m);
  }

  /** `25:61` is clamped to `23:59`. */
  lemma TimeExampleClamped()
    ensures NormalizedTime("25:61") == "23:59"
  {
    ClampedClockParts();
    ClockTextLatest();
  }

  lemma ClampedClockParts()
    ensures NormalizedTime("25:61") == ClockText(23, 59)
  {
    assert "25:61" == "25" + ":" + "61";
    NormalizedDigitsAroundColon("25", "61");
    TwoDigitValue("25");
    TwoDigitValue("61");
  }

  lemma ClockTextLatest()
    ensures ClockText(23, 59) == "23:59"
  {
    ClockTextOf(23, 59);
    assert 23 / 10 == 2 && 23 % 10 == 3 && 59 / 10 == 5 && 59 % 10 == 9;
    assert DigitChar(2) == '2' && DigitChar(3) == '3' && DigitChar(5) == '5' && DigitChar(9) == '9';
  }

  /** Without a colon, three digits are read as `H` then `MM`, and nothing is clamped. */
  lemma TimeExampleBare()
    ensures NormalizedTime("930") == "09:30"
    ensures NormalizedTime("999") == "09:99"
  {
    ClockCharsKept("930");
    ClockCharsKept("999");
    NoColon("930");
    NoColon("999");
  }

  lemma NoColon(s: string)
    requires AllDigits(s)
    ensures ':' !in s
  {
  }

  /** Letters and other separators are dropped before reshaping. */
  lemma TimeExampleNoise()
    ensures NormalizedTime("9h30") == "09:30"
  {
    NoiseDropped();
    NoColon("930");
  }

  lemma NoiseDropped()
    ensures Filter("9h30", IsClockChar) == "930"
  {
    assert Filter("0", IsClockChar) == "0";
    assert Filter("30", IsClockChar) == "30";
    assert Filter("h30", IsClockChar) == "30";
  }

  /** A string of clock characters survives the filter whole. */
  lemma ClockCharsKept(s: string)
    requires forall i :: 0 <= i < |s| ==> IsClockChar(s[i])
    ensures Filter(s, IsClockChar) == s
  {
    FilterKeepsAll(s, IsClockChar);
  }

  /** `09:99` has its minute clamped to `09:59`. */
  lemma TimeExampleMinuteClamped()
    ensures NormalizedTime("09:99") == "09:59"
  {
    MinuteClampedClock();
    ClockTextNineFiftyNine();
  }

  lemma MinuteClampedClock()
    ensures NormalizedTime("09:99") == ClockText(9, 59)
  {
    assert "09:99" == "09" + ":" + "99";
    ValueNine();
    ValueNinetyNine();
    NormalizedDigitsAroundColon("09", "99");
  }

  lemma ValueNine()
    ensures AllDigits("09") && Value("09") == 9
  {
    TwoDigitValue("09");
    assert DigitValue('0') == 0 && DigitValue('9') == 9;
  }

  lemma ValueNinetyNine()
    ensures AllDigits("99") && Value("99") == 99
  {
    TwoDigitValue("99");
    assert DigitValue('9') == 9;
  }

  lemma ClockTextNineFiftyNine()
    ensures ClockText(9, 59) == "09:59"
  {
    ClockTextOf(9, 59);
    assert 9 / 10 == 0 && 9 % 10 == 9 && 59 / 10 == 5 && 59 % 10 == 9;
    assert DigitChar(0) == '0' && DigitChar(9) == '9' && DigitChar(5) == '5';
  }

  /**
   * Normalisation is not idempotent: a colon-free input is never clamped, and its output,
   * which now has a colon, is clamped the second time.
   */
  lemma NormalizedTimeNotIdempotent()
    ensures NormalizedTime(NormalizedTime("999")) != NormalizedTime("999")
  {
    TimeExampleBare();
    TimeExampleMinuteClamped();
  }

  // ---------------------------------------------------------------- the payload

  const CommonKeys: set<string> :=
    {"phoneNumber", "date", "time", "description", "hasEvidence", "anonymous", "termsAccepted"}
  const ReporterKeys: set<string> := {"reporterName", "reporterContact"}

  /** The object `formatReportData` builds from the form. */
  function Payload(f: FormData): map<string, Json> {
    Assemble(NormalizedPhone(f.phoneNumber), f.date, NormalizedTime(f.time), Trim(f.description),
      f.hasEvidence, f.anonymous, f.termsAccepted, Trim(f.reporterName), Trim(f.reporterContact))
  }

  /** The seven common keys, and the two reporter keys unless the report is anonymous. */
  function Assemble(phoneNumber: string, date: string, time: string, description: string,
                    hasEvidence: bool, anonymous: bool, termsAccepted: bool,
                    reporterName: string, reporterContact: string): map<string, Json>
  {
    var common := map[
      "phoneNumber" := Str(phoneNumber),
      "date" := Str(date),
      "time" := Str(time),
      "description" := Str(description),
      "hasEvidence" := Bool(hasEvidence),
      "anonymous" := Bool(anonymous),
      "termsAccepted" := Bool(termsAccepted)];
    if anonymous then common
    else common["reporterName" := Str(reporterName)]["reporterContact" := Str(reporterContact)]
  }

  /** An anonymous payload has no reporter keys at all; any other has both. */
  lemma PayloadKeys(f: FormData)
    ensures Payload(f).Keys == if f.anonymous then CommonKeys else CommonKeys + ReporterKeys
    ensures f.anonymous <==> "reporterName" !in Payload(f)
    ensures f.anonymous <==> "reporterContact" !in Payload(f)
  {
    AssembleKeys(NormalizedPhone(f.phoneNumber), f.date, NormalizedTime(f.time), Trim(f.description),
      f.hasEvidence, f.anonymous, f.termsAccepted, Trim(f.reporterName), Trim(f.reporterContact));
  }

  lemma AssembleKeys(phoneNumber: string, date: string, time: string, description: string,
                     hasEvidence: bool, anonymous: bool, termsAccepted: bool,
                     reporterName: string, reporterContact: string)
    ensures var p := Assemble(phoneNumber, date, time, description, hasEvidence, anonymous,
                              termsAccepted, reporterName, reporterContact);
            p.Keys == (if anonymous then CommonKeys else CommonKeys + ReporterKeys)
            && (anonymous <==> "reporterName" !in p) && (anonymous <==> "reporterContact" !in p)
  {
  }

  /** `formatReportData`: the phone and the time are rewritten in place, then the object is assembled. */
  method FormatReportData(form: FormData) returns (formatted: map<string, Json>)
    ensures formatted == Payload(form)
  {
    var phoneNumber := FormatPhone(form.phoneNumber);
    var time := FormatTime(form.time);
    formatted := map[
      "phoneNumber" := Str(phoneNumber),
      "date" := Str(form.date),
      "time" := Str(time),
      "description" := Str(Trim(form.description)),
      "hasEvidence" := Bool(form.hasEvidence),
      "anonymous" := Bool(form.anonymous),
      "termsAccepted" := Bool(form.termsAccepted)];
    if !form.anonymous {
      formatted := formatted["reporterName" := Str(Trim(form.reporterName))];
      formatted := formatted["reporterContact" := Str(Trim(form.reporterContact))];
    }
  }

  method FormatPhone(raw: string) returns (phoneNumber: string)
    ensures phoneNumber == NormalizedPhone(raw)
  {
    phoneNumber := Digits(raw);
    if |phoneNumber| == 10 && StartsWith(phoneNumber, "3") {
    } else if |phoneNumber| == 12 && StartsWith(phoneNumber, "57") {
      phoneNumber := phoneNumber[2..];
    } else if |phoneNumber| == 13 && StartsWith(phoneNumber, "575") {
      phoneNumber := phoneNumber[2..];
    }
  }

  method FormatTime(raw: string) returns (time: string)
    ensures time == NormalizedTime(raw)
  {
    time := raw;
    if time != "" {
      time := Filter(time, IsClockChar);
      if ':' in time {
        var timeParts := Split(time, ':');
        if |timeParts| >= 2 {
          ClockPartsAreDigits(time);
          var hours := Value(timeParts[0]);
          var minutes := Value(timeParts[1]);
          hours := Min(23, hours);
          minutes := Min(59, minutes);
          time := PadTwo(NatToString(hours)) + ":" + PadTwo(NatToString(minutes));
        }
      } else if 3 <= |time| <= 4 {
        if |time| == 3 {
          time := "0" + [time[0]] + ":" + time[1..];
        } else if |time| == 4 {
          time := time[..2] + ":" + time[2..];
        }
      }
    }
  }

  // ---------------------------------------------------------------- cleaning

  /** A value `_cleanReportData` keeps: neither `undefined` nor `null`, nor a string that trims to empty. */
  predicate Kept(v: Json) {
    !v.Undefined? && !v.Null? && !(v.Str? && Trim(v.s) == "")
  }

  /** The value it keeps: strings trimmed, everything else as it is. */
  function CleanedValue(v: Json): Json {
    if v.Str? then Str(Trim(v.s)) else v
  }

  /** The object `_cleanReportData` returns. */
  function Cleaned(data: map<string, Json>): (r: map<string, Json>)
    ensures r.Keys <= data.Keys
    ensures forall k :: k in data ==> (k in r <==> Kept(data[k]))
    ensures forall k :: k in r ==> !r[k].Undefined? && !r[k].Null?
    ensures forall k :: k in r && r[k].Str? ==> r[k].s != "" && IsTrimmed(r[k].s)
    ensures forall k :: k in r && !data[k].Str? ==> r[k] == data[k]
  {
    map k | k in data && Kept(data[k]) :: CleanedValue(data[k])
  }

  /** Cleaning a cleaned object changes nothing. */
  lemma CleanedIdempotent(data: map<string, Json>)
    ensures Cleaned(Cleaned(data)) == Cleaned(data)
  {
    var c := Cleaned(data);
    forall k | k in c
      ensures Kept(c[k]) && CleanedValue(c[k]) == c[k]
    {
      if data[k].Str? {
        TrimIdempotent(data[k].s);
      }
    }
  }

  /**
   * `_cleanReportData`: a copy of the object whose keys are visited one by one, deleting
   * `null` and `undefined`, trimming strings and deleting those left empty.
   */
  method CleanReportData(data: map<string, Json>) returns (cleaned: map<string, Json>)
    ensures cleaned == Cleaned(data)
  {
    cleaned := data;
    var keys := data.Keys;
    while keys != {}
      invariant keys <= data.Keys && cleaned.Keys <= data.Keys
      invariant forall k :: k in keys ==> k in cleaned && cleaned[k] == data[k]
      invariant forall k :: k in data && k !in keys ==> (k in cleaned <==> Kept(data[k]))
      invariant forall k :: k in cleaned && k !in keys ==> cleaned[k] == CleanedValue(data[k])
      decreases keys
    {
      var key :| key in keys;
      var v := cleaned[key];
      if v.Undefined? || v.Null? {
        cleaned := cleaned - {key};
      } else if v.Str? {
        cleaned := cleaned[key := Str(Trim(v.s))];
        if Trim(v.s) == "" {
          cleaned := cleaned - {key};
        }
      }
      keys := keys - {key};
    }
    assert cleaned.Keys == Cleaned(data).Keys;
  }

  /** All digits and not empty means nothing to trim. */
  lemma DigitsTrimmed(s: string)
    requires AllDigits(s) && s != ""
    ensures Trim(s) == s && Kept(Str(s))
  {
    assert IsDigit(s[0]) && IsDigit(s[|s| - 1]);
    TrimTrimmed(s);
  }

  lemma TrimmedKept(s: string)
    requires |Trim(s)| > 0
    ensures Kept(Str(Trim(s))) && CleanedValue(Str(Trim(s))) == Str(Trim(s))
  {
    TrimIdempotent(s);
  }

  /** Trimmed, non-empty text. */
  predicate Filled(s: string) {
    s != "" && IsTrimmed(s)
  }

  lemma FilledSettled(s: string)
    requires Filled(s)
    ensures Kept(Str(s)) && CleanedValue(Str(s)) == Str(s)
  {
    TrimTrimmed(s);
  }

  /** Cleaning leaves a payload alone when its text fields (the sent ones) are all filled. */
  lemma AssembleClean(phoneNumber: string, date: string, time: string, description: string,
                      hasEvidence: bool, anonymous: bool, termsAccepted: bool,
                      reporterName: string, reporterContact: string)
    requires Filled(phoneNumber) && Filled(date) && Filled(time) && Filled(description)
    requires !anonymous ==> Filled(reporterName) && Filled(reporterContact)
    ensures var p := Assemble(phoneNumber, date, time, description, hasEvidence, anonymous,
                              termsAccepted, reporterName, reporterContact);
            Cleaned(p) == p
  {
    var p := Assemble(phoneNumber, date, time, description, hasEvidence, anonymous,
                      termsAccepted, reporterName, reporterContact);
    FilledSettled(phoneNumber);
    FilledSettled(date);
    FilledSettled(time);
    FilledSettled(description);
    if !anonymous {
      FilledSettled(reporterName);
      FilledSettled(reporterContact);
    }
    CleanedUnchanged(p);
  }

  /** Cleaning changes nothing when every value is kept as it is. */
  lemma CleanedUnchanged(d: map<string, Json>)
    requires forall k :: k in d ==> Kept(d[k]) && CleanedValue(d[k]) == d[k]
    ensures Cleaned(d) == d
  {
  }

  /** All digits and not empty means nothing to trim. */
  lemma DigitsFilled(s: string)
    requires AllDigits(s) && s != ""
    ensures Filled(s)
  {
    assert IsDigit(s[0]) && IsDigit(s[|s| - 1]);
  }

  lemma TrimFilled(s: string)
    requires |Trim(s)| > 0
    ensures Filled(Trim(s))
  {
  }

  lemma PhoneFilled(p: string)
    requires PhoneAccepted(p)
    ensures Filled(NormalizedPhone(p))
  {
    AcceptedPhoneNormalizes(p);
    DigitsFilled(NormalizedPhone(p));
  }

  lemma DateFilled(d: string)
    requires DateShape(d)
    ensures Filled(d)
  {
    assert IsDigit(d[0]) && IsDigit(d[9]);
  }

  lemma TimeFilled(t: string)
    requires TimeShape(t)
    ensures Filled(NormalizedTime(t))
  {
    NormalizedValidTime(t);
    PaddedFilled(t, NormalizedTime(t));
  }

  lemma PaddedFilled(t: string, n: string)
    requires TimeShape(t) && n == if |t| == 4 then "0" + t else t
    ensures Filled(n)
  {
    assert IsDigit(n[0]) && IsDigit(n[|n| - 1]) by {
      if |t| == 4 {
        assert n[0] == '0' && n[4] == t[3];
      }
    }
  }

  /** A form that passes validation is formatted into a payload that cleaning leaves as it is. */
  lemma AcceptedPayloadClean(f: FormData)
    requires FormAccepted(f)
    ensures Cleaned(Payload(f)) == Payload(f)
  {
    assert FieldValid(f, PhoneNumber) && FieldValid(f, Date) && FieldValid(f, Time);
    assert FieldValid(f, Description) && FieldValid(f, ReporterName) && FieldValid(f, ReporterContact);
    PhoneFilled(f.phoneNumber);
    DateFilled(f.date);
    TimeFilled(f.time);
    AssembleClean(NormalizedPhone(f.phoneNumber), f.date, NormalizedTime(f.time), Trim(f.description),
      f.hasEvidence, f.anonymous, f.termsAccepted, Trim(f.reporterName), Trim(f.reporterContact));
  }
}
