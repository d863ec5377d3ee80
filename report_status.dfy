/**
 * The report-status modal: a search by case number or report id, the tolerant reading of the
 * service's answer, the alert it ends with, and the labels and colours of a report's status.
 */
module ReportStatus {
  import opened Wrappers
  import opened JsText
  import opened JsValue
  import opened ReportsApi

  // ---------------------------------------------------------------- colours and labels

  // The palette entries the status badge uses (constants/Colors.ts).
  const Warning: string := "#FF9800"
  const Primary: string := "#00457C"
  const Success: string := "#4CAF50"
  const TextSecondary: string := "#6C757D"

  /** The four statuses the service uses. */
  predicate KnownStatus(status: Json) {
    status == Str("PENDING") || status == Str("IN_REVIEW") || status == Str("RESOLVED")
    || status == Str("CLOSED")
  }

  /** `getStatusColor`: unknown statuses fall through to the colour of a closed report. */
  function StatusColor(status: Json): (r: string)
    ensures !KnownStatus(status) || status == Str("CLOSED") ==> r == TextSecondary
    ensures r in {Warning, Primary, Success, TextSecondary}
  {
    if status == Str("PENDING") then Warning
    else if status == Str("IN_REVIEW") then Primary
    else if status == Str("RESOLVED") then Success
    else TextSecondary
  }

  /** `getStatusText`: the four statuses get a Spanish label, anything else is shown as it is. */
  function StatusText(status: Json): (r: Json)
    ensures !KnownStatus(status) ==> r == status
    ensures KnownStatus(status) ==> r.Str? && !KnownStatus(r)
  {
    if status == Str("PENDING") then Str("Pendiente de Revisión")
    else if status == Str("IN_REVIEW") then Str("En Investigación")
    else if status == Str("RESOLVED") then Str("Resuelto")
    else if status == Str("CLOSED") then Str("Cerrado")
    else status
  }

  /** The four statuses get four different labels. */
  lemma KnownStatusesDistinct(a: Json, b: Json)
    requires KnownStatus(a) && KnownStatus(b) && a != b
    ensures StatusText(a) != StatusText(b)
  {
  }

  /** A label is never a status, so labelling twice changes nothing. */
  lemma StatusTextIdempotent(status: Json)
    ensures StatusText(StatusText(status)) == StatusText(status)
  {
  }

  /** An unknown status spelled like a label is displayed exactly as the status it names. */
  lemma StatusTextCollision()
    ensures StatusText(Str("Cerrado")) == StatusText(Str("CLOSED"))
    ensures StatusColor(Str("Cerrado")) == StatusColor(Str("CLOSED"))
  {
  }

  // ---------------------------------------------------------------- reading the answer

  /**
   * The report inside an answer, or `null`: the answer's truthy `data`, else the answer itself
   * when it has an `id` or a `caseNumber`, else the first element of a non-empty array.
   */
  function ReportInfo(response: Json): (r: Json)
    ensures r.Null? || Truthy(r) || (response.Arr? && |response.items| > 0 && r == response.items[0])
    ensures Truthy(Get(response, "data")) ==> r == Get(response, "data")
    ensures !Truthy(Get(response, "data")) && (Truthy(Get(response, "id")) || Truthy(Get(response, "caseNumber")))
      ==> r == response
    ensures response.Arr? && |response.items| > 0 ==> r == response.items[0]
    ensures !response.Obj? && !response.Arr? ==> r.Null?
  {
    if Truthy(response) && IsObject(response) then
      if Truthy(Get(response, "data")) then Get(response, "data")
      else if Truthy(Get(response, "id")) || Truthy(Get(response, "caseNumber")) then response
      else if response.Arr? && |response.items| > 0 then response.items[0]
      else Null
    else Null
  }

  /** The record the modal shows; every field is whatever JSON value the service sent. */
  datatype StatusData = StatusData(
    reportId: Json,
    caseNumber: Json,
    status: Json,
    phoneNumber: Json,
    description: Json,
    createdAt: Json,
    updatedAt: Json)
  {
    /** The phone row is shown only for a real phone number. */
    predicate showsPhone() {
      Truthy(phoneNumber) && phoneNumber != Str("N/A")
    }

    /** The description row is shown only for a real description. */
    predicate showsDescription() {
      Truthy(description) && description != Str("Sin descripción")
    }
  }

  /**
   * `formattedData`: each field from the first truthy of its spellings; the identifying fields,
   * the status and the description always end up truthy, the dates may stay undefined.
   */
  function FormatStatus(info: Json): (d: StatusData)
    ensures Truthy(d.reportId) && Truthy(d.caseNumber) && Truthy(d.status)
    ensures Truthy(d.phoneNumber) && Truthy(d.description)
    ensures Truthy(Get(info, "id")) ==> d.reportId == Get(info, "id")
    ensures !Truthy(Get(info, "id")) && Truthy(Get(info, "reportId")) ==> d.reportId == Get(info, "reportId")
    ensures !Truthy(Get(info, "id")) && !Truthy(Get(info, "reportId")) ==> d.reportId == Str("N/A")
    ensures Truthy(Get(info, "caseNumber")) ==> d.caseNumber == Get(info, "caseNumber")
    ensures !Truthy(Get(info, "caseNumber")) && Truthy(Get(info, "case_number"))
      ==> d.caseNumber == Get(info, "case_number")
    ensures !Truthy(Get(info, "caseNumber")) && !Truthy(Get(info, "case_number")) ==> d.caseNumber == Str("N/A")
    ensures Truthy(Get(info, "status")) <==> d.status == Get(info, "status")
    ensures Truthy(Get(info, "phoneNumber")) ==> d.phoneNumber == Get(info, "phoneNumber")
    ensures !Truthy(Get(info, "phoneNumber")) && Truthy(Get(info, "phone_number"))
      ==> d.phoneNumber == Get(info, "phone_number")
    ensures !Truthy(Get(info, "phoneNumber")) && !Truthy(Get(info, "phone_number")) ==> d.phoneNumber == Str("N/A")
    ensures !Truthy(Get(info, "phoneNumber")) && !Truthy(Get(info, "phone_number")) ==> !d.showsPhone()
    ensures Truthy(Get(info, "description")) <==> d.description == Get(info, "description")
    ensures !Truthy(Get(info, "description")) ==> d.description == Str("Sin descripción") && !d.showsDescription()
    ensures Truthy(Get(info, "createdAt")) ==> d.createdAt == Get(info, "createdAt")
    ensures !Truthy(Get(info, "createdAt")) && Truthy(Get(info, "created_at")) ==> d.createdAt == Get(info, "created_at")
    ensures !Truthy(Get(info, "createdAt")) && !Truthy(Get(info, "created_at")) ==> d.createdAt == Get(info, "incidentDate")
    ensures Truthy(d.createdAt) <==>
      Truthy(Get(info, "createdAt")) || Truthy(Get(info, "created_at")) || Truthy(Get(info, "incidentDate"))
    ensures Truthy(Get(info, "updatedAt")) ==> d.updatedAt == Get(info, "updatedAt")
    ensures !Truthy(Get(info, "updatedAt")) ==> d.updatedAt == Get(info, "updated_at")
  {
    StatusData(
      Or(Or(Get(info, "id"), Get(info, "reportId")), Str("N/A")),
      Or(Or(Get(info, "caseNumber"), Get(info, "case_number")), Str("N/A")),
      Or(Get(info, "status"), Str("UNKNOWN")),
      Or(Or(Get(info, "phoneNumber"), Get(info, "phone_number")), Str("N/A")),
      Or(Get(info, "description"), Str("Sin descripción")),
      Or(Or(Get(info, "createdAt"), Get(info, "created_at")), Get(info, "incidentDate")),
      Or(Get(info, "updatedAt"), Get(info, "updated_at")))
  }

  /** A report without a status is shown as `UNKNOWN`, in a closed report's colour. */
  lemma MissingStatusShownUnknown(info: Json)
    requires !Truthy(Get(info, "status"))
    ensures StatusText(FormatStatus(info).status) == Str("UNKNOWN")
    ensures StatusColor(FormatStatus(info).status) == TextSecondary
  {
  }

  // ---------------------------------------------------------------- failures

  /** The error thrown when an answer holds no report. */
  const NoInformationMessage: string := "No se encontró información del reporte"

  /** The three alerts a failed search can end with. */
  datatype LookupFailure = NotFound | ConnectionLost | OtherFailure

  /** The `catch` block: the first keyword group found in the message decides. */
  function ClassifyLookup(message: string): LookupFailure {
    if Contains(message, "no encontrado") || Contains(message, "not found") || Contains(message, "404")
    then NotFound
    else if Contains(message, "Network Error") || Contains(message, "timeout") then ConnectionLost
    else OtherFailure
  }

  /** The service's message for a 404 without a message of its own is recognised as such. */
  lemma NotFoundRecognised()
    ensures ClassifyLookup(NotFoundMessage) == NotFound
  {
    ContainsAt(NotFoundMessage, "no encontrado", 8);
  }

  /**
   * The service's connection message is not recognised as one: "Error de conexión." lacks
   * an `a` and an `f`, the rest lacks a `d`, and neither has an `N`, an `m` or a `4`.
   */
  lemma ServiceConnectionNotRecognised()
    ensures ClassifyLookup(FailureMessage(NoResponse)) == OtherFailure
  {
    ConnectionReported();
    var x, y := "Error de conexión.", " Verifique su conexión a internet";
    assert ConnectionMessage == x + y;
    NotFoundLacks(x, 'a', 'f');
    ConnectionTailLacksD();
    NotFoundLacks(y, 'd', 'd');
    NotContainsAcross(x, y, "no encontrado");
    NotContainsAcross(x, y, "not found");
    ConnectionLacksN();
    ConnectionLacksM();
    ConnectionLacks4();
    NotContainsMissingChar(ConnectionMessage, "404", '4');
    NotContainsMissingChar(ConnectionMessage, "Network Error", 'N');
    NotContainsMissingChar(ConnectionMessage, "timeout", 'm');
  }

  /**
   * Nor is the modal's own "no information" error a not-found: it gets the generic alert,
   * which repeats the message.
   */
  lemma NoInformationNotRecognised()
    ensures ClassifyLookup(NoInformationMessage) == OtherFailure
  {
    NoInformationNotNotFound();
    NoInformationLacks4();
    NoInformationLacksW();
    NoInformationLacksU();
    NotContainsMissingChar(NoInformationMessage, "404", '4');
    NotContainsMissingChar(NoInformationMessage, "Network Error", 'w');
    NotContainsMissingChar(NoInformationMessage, "timeout", 'u');
  }

  /** The "no information" error names neither `no encontrado` nor `not found`. */
  lemma NoInformationNotNotFound()
    ensures !Contains(NoInformationMessage, "no encontrado") && !Contains(NoInformationMessage, "not found")
  {
    var x, y, z := "No se encontró", " informació", "n del reporte";
    assert NoInformationMessage == (x + y) + z;
    NoInformationHeadLacks();
    NotFoundLacks(y, 'd', 'd');
    NotFoundLacks(z, 'a', 'f');
    NotContainsAcross(x, y, "no encontrado");
    NotContainsAcross(x, y, "not found");
    NotContainsAcross(x + y, z, "no encontrado");
    NotContainsAcross(x + y, z, "not found");
  }

  lemma NoInformationHeadLacks()
    ensures !Contains("No se encontró", "no encontrado") && !Contains("No se encontró", "not found")
  {
    NoInformationLacksA();
    NotFoundLacks("No se encontró", 'a', 'f');
  }

  /** A text lacking a letter of `no encontrado` and one of `not found` contains neither. */
  lemma NotFoundLacks(s: string, a: char, b: char)
    requires a in "no encontrado" && a !in s
    requires b in "not found" && b !in s
    ensures !Contains(s, "no encontrado") && !Contains(s, "not found")
  {
    NotContainsMissingChar(s, "no encontrado", a);
    NotContainsMissingChar(s, "not found", b);
  }

  // Letters missing from the service's connection message and the "no information" error.
  lemma ConnectionTailLacksD() ensures 'd' !in " Verifique su conexión a internet" {}
  lemma ConnectionLacksN() ensures 'N' !in ConnectionMessage {}
  lemma ConnectionLacksM() ensures 'm' !in ConnectionMessage {}
  lemma ConnectionLacks4() ensures '4' !in ConnectionMessage {}
  lemma NoInformationLacksA() ensures 'a' !in "No se encontró" {}
  lemma NoInformationLacks4() ensures '4' !in NoInformationMessage {}
  lemma NoInformationLacksW() ensures 'w' !in NoInformationMessage {}
  lemma NoInformationLacksU() ensures 'u' !in NoInformationMessage {}

  // ---------------------------------------------------------------- alerts and outcome

  /** The alert a search ends with. */
  datatype LookupNotice =
    | BlankSearch                                   // nothing to search for
    | Found(caseNumber: Json)                       // the report was read
    | NoReport(byCase: bool, query: string)         // the not-found alert, naming what was asked
    | NoConnection                                  // the connection alert
    | LookupError(message: string)                  // the generic alert, repeating the error
  {
    function title(): string {
      match this
      case BlankSearch => "Error"
      case Found(_) => "Reporte Encontrado"
      case NoReport(_, _) => "Reporte No Encontrado"
      case NoConnection => "Error de Conexión"
      case LookupError(_) => "Error"
    }

    function text(): string {
      match this
      case BlankSearch => "Por favor ingrese un número de caso o ID de reporte"
      case Found(caseNumber) => "Se encontró el reporte con caso: " + ToText(caseNumber)
      case NoReport(byCase, query) =>
        "No se encontró ningún reporte con " + (if byCase then "el número de caso" else "el ID")
        + ": \"" + query + "\"\n\nVerifique los datos e intente nuevamente."
      case NoConnection =>
        "No se pudo conectar con el servidor. Verifique su conexión a internet e intente nuevamente."
      case LookupError(message) =>
        "Ocurrió un error al consultar el reporte:\n" + message + "\n\nPor favor intente nuevamente."
    }
  }

  /** The alert for an error with `message`, in a search by case (or id) for `query`. */
  function FailureNotice(byCase: bool, query: string, message: string): (n: LookupNotice)
    ensures ClassifyLookup(message) == NotFound <==> n == NoReport(byCase, query)
    ensures ClassifyLookup(message) == ConnectionLost <==> n == NoConnection
    ensures ClassifyLookup(message) == OtherFailure <==> n == LookupError(message)
  {
    match ClassifyLookup(message)
    case NotFound => NoReport(byCase, query)
    case ConnectionLost => NoConnection
    case OtherFailure => LookupError(message)
  }

  /** `getReportByCaseNumber` for a search by case, `getReportStatus` for one by id. */
  function LookupRequest(byCase: bool, query: string): (r: Request)
    ensures byCase ==> r == CaseRequest(query)
    ensures !byCase ==> r == StatusRequest(query)
  {
    if byCase then CaseRequest(query) else StatusRequest(query)
  }

  /** The alert and the shown record after the service answered `reply`. */
  function SearchOutcome(byCase: bool, query: string, reply: Reply): (LookupNotice, Option<StatusData>) {
    match Settle(reply)
    case Resolved(response) =>
      var info := ReportInfo(response);
      if Truthy(info) then (Found(FormatStatus(info).caseNumber), Some(FormatStatus(info)))
      else (FailureNotice(byCase, query, NoInformationMessage), None)
    case Rejected(message) => (FailureNotice(byCase, query, message), None)
  }

  /** A record is shown exactly when the alert says it was found, and it names the same case. */
  lemma RecordOnlyWhenFound(byCase: bool, query: string, reply: Reply)
    ensures SearchOutcome(byCase, query, reply).1.Some? <==> SearchOutcome(byCase, query, reply).0.Found?
    ensures SearchOutcome(byCase, query, reply).1.Some? ==>
      SearchOutcome(byCase, query, reply).0.caseNumber == SearchOutcome(byCase, query, reply).1.value.caseNumber
  {
  }

  /** An answer that holds no report ends with the generic alert, never the not-found one. */
  lemma EmptyAnswerGeneric(byCase: bool, query: string, response: Json)
    requires !Truthy(ReportInfo(response))
    ensures SearchOutcome(byCase, query, Responded(response)) == (LookupError(NoInformationMessage), None)
  {
    NoInformationNotRecognised();
  }

  /** A lookup that got no response at all also ends with the generic alert. */
  lemma NoResponseGeneric(byCase: bool, query: string)
    ensures SearchOutcome(byCase, query, Failed(NoResponse)) == (LookupError(ConnectionMessage), None)
  {
    ServiceConnectionNotRecognised();
    ConnectionReported();
  }

  /** A 404 without a message of its own ends with the not-found alert for what was asked. */
  lemma MissingReportNotFound(byCase: bool, query: string, data: Json)
    requires !Truthy(Get(data, "message"))
    ensures SearchOutcome(byCase, query, Failed(HttpError(404, data))) == (NoReport(byCase, query), None)
  {
    ServerMessageFallback(404, data);
    NotFoundRecognised();
  }

  // ---------------------------------------------------------------- the modal

  /** The modal's state. */
  class StatusModal {
    var searchValue: string
    /** `searchType === 'case'` */
    var byCase: bool
    var loading: bool
    /** The record on display, if any. */
    var reportData: Option<StatusData>
    /** The alert on screen, if any. */
    var alert: Option<LookupNotice>
    /** Every lookup the modal has sent, oldest first. */
    var sent: seq<Request>
    /** Whether the modal has asked its parent to hide it (the `onClose` callback). */
    var closeRequested: bool

    constructor ()
      ensures searchValue == "" && byCase && !loading && reportData.None? && alert.None? && sent == []
      ensures !closeRequested
    {
      searchValue, byCase, loading := "", true, false;
      reportData, alert, sent, closeRequested := None, None, [], false;
    }

    /**
     * `handleSearch`, with `reply` standing for what the service answers. A blank search only
     * shows an error; any other sends one lookup for the trimmed value, replaces the record
     * and the alert by the outcome, and ends with `loading` false.
     */
    method HandleSearch(reply: Reply)
      modifies this
      ensures searchValue == old(searchValue) && byCase == old(byCase) && closeRequested == old(closeRequested)
      ensures Trim(searchValue) == "" ==>
        alert == Some(BlankSearch) && sent == old(sent) && loading == old(loading) && reportData == old(reportData)
      ensures Trim(searchValue) != "" ==>
        sent == old(sent) + [LookupRequest(byCase, Trim(searchValue))] && !loading
        && alert == Some(SearchOutcome(byCase, Trim(searchValue), reply).0)
        && reportData == SearchOutcome(byCase, Trim(searchValue), reply).1
    {
      var query := Trim(searchValue);
      if query == "" {
        alert := Some(BlankSearch);
        return;
      }
      loading := true;
      reportData := None;
      if byCase {
        sent := sent + [CaseRequest(query)];
      } else {
        sent := sent + [StatusRequest(query)];
      }
      ShowAnswer(query, reply);
      loading := false;
    }

    /** The answer's branch of the `try` block, or its `catch` block. */
    method ShowAnswer(query: string, reply: Reply)
      modifies this
      ensures alert == Some(SearchOutcome(byCase, query, reply).0)
      ensures reportData == SearchOutcome(byCase, query, reply).1
      ensures searchValue == old(searchValue) && byCase == old(byCase) && closeRequested == old(closeRequested)
      ensures loading == old(loading) && sent == old(sent)
    {
      match Settle(reply) {
        case Resolved(response) =>
          var info := ReportInfo(response);
          if Truthy(info) {
            var formattedData := FormatStatus(info);
            reportData := Some(formattedData);
            alert := Some(Found(formattedData.caseNumber));
          } else {
            alert := Some(FailureNotice(byCase, query, NoInformationMessage));
            reportData := None;
          }
        case Rejected(message) =>
          alert := Some(FailureNotice(byCase, query, message));
          reportData := None;
      }
    }

    /**
     * `handleClose`: the search value and the record are cleared and the parent is asked to
     * hide the modal; nothing else changes.
     */
    method HandleClose()
      modifies this
      ensures searchValue == "" && reportData.None? && closeRequested
      ensures byCase == old(byCase) && loading == old(loading) && alert == old(alert) && sent == old(sent)
    {
      searchValue := "";
      reportData := None;
      closeRequested := true;
    }
  }
}
