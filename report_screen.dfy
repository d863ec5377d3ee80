/**
 * The report screen: nine form fields (six texts, three flags) and a loading flag, the submit handler that validates,
 * formats and sends the report and reports the outcome in an alert, and the reset handler.
 */
module ReportScreen {
  import opened Wrappers
  import opened JsText
  import opened JsValue
  import opened ReportsService
  import opened ReportsApi

  /** The four ways a failed submission is reported. */
  datatype FailureKind = InvalidData | ConnectionFailed | RateLimited | Unexpected {
    function title(): string {
      match this
      case InvalidData => "Error de Validación"
      case ConnectionFailed => "Error de Conexión"
      case RateLimited => "Demasiadas Solicitudes"
      case Unexpected => "Error"
    }

    function text(): string {
      match this
      case InvalidData => "Por favor revise los datos ingresados y intente nuevamente."
      case ConnectionFailed =>
        "No se pudo conectar con el servidor. Verifique su conexión a internet e intente nuevamente."
      case RateLimited =>
        "Ha excedido el límite de reportes. Por favor espere unos minutos antes de intentar nuevamente."
      case Unexpected => "Ocurrió un error al enviar el reporte. Por favor intente nuevamente."
    }
  }

  /** The alert a submission ends with. */
  datatype Notice =
    | InvalidForm(errors: seq<FieldError>)           // validation failed; nothing was sent
    | ReportSent(message: string, caseNumber: string) // the service accepted the report
    | SubmitFailed(kind: FailureKind)                // the call failed or was refused
  {
    function title(): string {
      match this
      case InvalidForm(_) => "Error de Validación"
      case ReportSent(_, _) => "Reporte Enviado"
      case SubmitFailed(kind) => kind.title()
    }

    function text(): string {
      match this
      case InvalidForm(errors) => Join(Messages(errors), "\n")
      case ReportSent(message, caseNumber) => message + "\n\nNúmero de caso: " + caseNumber
      case SubmitFailed(kind) => kind.text()
    }

    /** Only the success alert's OK button resets the form. */
    predicate resetOnOk() {
      ReportSent?
    }
  }

  /** The catch block: the first keyword group found in the error message decides. */
  function ClassifyFailure(message: string): FailureKind {
    if Contains(message, "validation") || Contains(message, "validación") then InvalidData
    else if Contains(message, "network") || Contains(message, "fetch") then ConnectionFailed
    else if Contains(message, "Too Many Requests") then RateLimited
    else Unexpected
  }

  /**
   * A message lacking `c` (a letter of both validation keywords), a `w`, an `h` and a `T`
   * matches no keyword.
   */
  lemma NoKeyword(message: string, c: char)
    requires (c == 'v' || c == 'l') && c !in message
    requires 'w' !in message && 'h' !in message && 'T' !in message
    ensures ClassifyFailure(message) == Unexpected
  {
    NotContainsMissingChar(message, "validation", c);
    NotContainsMissingChar(message, "validación", c);
    NotContainsMissingChar(message, "network", 'w');
    NotContainsMissingChar(message, "fetch", 'h');
    NotContainsMissingChar(message, "Too Many Requests", 'T');
  }

  /** The service's rate-limit message is not recognised as one: it gets the generic alert. */
  lemma RateLimitNotRecognised(data: Json)
    ensures ClassifyFailure(FailureMessage(HttpError(429, data))) == Unexpected
  {
    TooManyRequestsReported(data);
    TooManyRequestsLacksL();
    TooManyRequestsLacksW();
    TooManyRequestsLacksH();
    TooManyRequestsLacksT();
    NoKeyword(TooManyRequestsMessage, 'l');
  }

  /** Neither is the service's connection message. */
  lemma ConnectionNotRecognised()
    ensures ClassifyFailure(FailureMessage(NoResponse)) == Unexpected
  {
    ConnectionReported();
    ConnectionLacksL();
    ConnectionLacksW();
    ConnectionLacksH();
    ConnectionLacksT();
    NoKeyword(ConnectionMessage, 'l');
  }

  /** A 400 response listing validation entries is reported as invalid data. */
  lemma BadRequestRecognised(data: Json)
    requires HasErrorList(data)
    requires forall i :: 0 <= i < |Get(data, "errors").items| ==> !Get(data, "errors").items[i].Null?
    ensures ClassifyFailure(FailureMessage(HttpError(400, data))) == InvalidData
  {
    BadRequestLines(data);
    var m := FailureMessage(HttpError(400, data));
    ValidationTitleWord();
    ContainsInPrefix(m, ValidationTitle + ":\n", "validación", 9);
  }

  /** The error messages of a failed validation, one per line. */
  function Messages(errors: seq<FieldError>): (r: seq<string>)
    ensures |r| == |errors|
    ensures forall i :: 0 <= i < |errors| ==> r[i] == errors[i].message()
  {
    if errors == [] then [] else [errors[0].message()] + Messages(errors[1..])
  }

  /**
   * What a body the service resolved with leads to: a truthy `success` shows the message and
   * the case number; reading either of them from `null` or `undefined` throws, and a falsy
   * `success` is thrown as an error carrying `message` (or `Error desconocido`).
   */
  function ResponseNotice(response: Json): Notice {
    if response.Null? || response.Undefined? then
      SubmitFailed(ClassifyFailure(ReadErrorMessage("success", response)))
    else if Truthy(Get(response, "success")) then
      var data := Get(response, "data");
      if data.Null? || data.Undefined? then SubmitFailed(ClassifyFailure(ReadErrorMessage("caseNumber", data)))
      else ReportSent(ToText(Get(response, "message")), ToText(Get(data, "caseNumber")))
    else
      SubmitFailed(ClassifyFailure(ToText(Or(Get(response, "message"), Str("Error desconocido")))))
  }

  /** The alert a submission of `f` ends with, when the service answers `reply`. */
  function SubmitNotice(f: FormData, reply: Reply): Notice {
    var errors := ValidationErrors(f);
    if errors != [] then InvalidForm(errors) else AnswerNotice(reply)
  }

  /** The alert for what the service answered a valid form. */
  function AnswerNotice(reply: Reply): Notice {
    match Settle(reply)
    case Resolved(response) => ResponseNotice(response)
    case Rejected(message) => SubmitFailed(ClassifyFailure(message))
  }

  /** Only a body with a truthy `success` and a `data` value to read the case number from is a success. */
  lemma SentOnlyOnSuccess(response: Json)
    ensures ResponseNotice(response).ReportSent? <==>
      !response.Null? && !response.Undefined? && Truthy(Get(response, "success"))
      && !Get(response, "data").Null? && !Get(response, "data").Undefined?
  {
  }

  /** A form that fails validation shows its errors whatever the service would have answered. */
  lemma InvalidFormIgnoresReply(f: FormData, r1: Reply, r2: Reply)
    requires !FormAccepted(f)
    ensures SubmitNotice(f, r1) == SubmitNotice(f, r2) == InvalidForm(ValidationErrors(f))
    ensures SubmitNotice(f, r1).errors != []
  {
    ValidationEmptyIffAccepted(f);
  }

  /** A valid form whose call fails never reaches the success alert, so the form is kept. */
  lemma FailedCallKeepsForm(f: FormData, e: TransportError)
    ensures !SubmitNotice(f, Failed(e)).resetOnOk()
  {
  }

  /** A missing `data` value after a truthy `success` is an unexpected failure. */
  lemma MissingCaseDataUnexpected(response: Json)
    requires response.Obj? && Truthy(Get(response, "success"))
    requires Get(response, "data").Null? || Get(response, "data").Undefined?
    ensures ResponseNotice(response) == SubmitFailed(Unexpected)
  {
    var data := Get(response, "data");
    var m := ReadErrorMessage("caseNumber", data);
    ReadErrorLacksV("caseNumber", data);
    ReadErrorLacksW("caseNumber", data);
    ReadErrorLacksH("caseNumber", data);
    ReadErrorLacksT("caseNumber", data);
    NoKeyword(m, 'v');
  }

  // Letters missing from the engine's messages for reading `success` or `caseNumber`.
  lemma ReadErrorLacksV(property: string, v: Json)
    requires property == "caseNumber" || property == "success"
    ensures 'v' !in ReadErrorMessage(property, v)
  {
  }

  lemma ReadErrorLacksW(property: string, v: Json)
    requires property == "caseNumber" || property == "success"
    ensures 'w' !in ReadErrorMessage(property, v)
  {
  }

  lemma ReadErrorLacksH(property: string, v: Json)
    requires property == "caseNumber" || property == "success"
    ensures 'h' !in ReadErrorMessage(property, v)
  {
  }

  lemma ReadErrorLacksT(property: string, v: Json)
    requires property == "caseNumber" || property == "success"
    ensures 'T' !in ReadErrorMessage(property, v)
  {
  }

  /** The screen's state. */
  class ReportForm {
    var phoneNumber: string
    var date: string
    var time: string
    var description: string
    var anonymous: bool
    var reporterName: string
    var reporterContact: string
    var hasEvidence: bool
    var termsAccepted: bool
    var loading: bool
    /** The alert on screen, if any. */
    var alert: Option<Notice>
    /** Every request the screen has sent, oldest first. */
    var sent: seq<Request>

    /** The `formData` object `handleSubmit` builds from the fields. */
    function Form(): FormData
      reads this
    {
      FormData(phoneNumber, date, time, description, hasEvidence, anonymous,
        reporterName, reporterContact, termsAccepted)
    }

    predicate Blank()
      reads this
    {
      phoneNumber == "" && date == "" && time == "" && description == ""
      && reporterName == "" && reporterContact == ""
      && !anonymous && !hasEvidence && !termsAccepted
    }

    constructor ()
      ensures Blank() && !loading && alert.None? && sent == []
    {
      phoneNumber, date, time, description := "", "", "", "";
      anonymous, reporterName, reporterContact := false, "", "";
      hasEvidence, termsAccepted := false, false;
      loading, alert, sent := false, None, [];
    }

    /**
     * `handleSubmit`, with `reply` standing for what the service answers. An invalid form is
     * neither formatted nor sent and leaves `loading` alone; otherwise exactly one request is
     * sent and `loading` ends false. The fields are not touched.
     */
    method HandleSubmit(reply: Reply)
      modifies this
      ensures Form() == old(Form())
      ensures alert == Some(SubmitNotice(old(Form()), reply))
      ensures !FormAccepted(old(Form())) ==> sent == old(sent) && loading == old(loading)
      ensures FormAccepted(old(Form())) ==>
        sent == old(sent) + [CreateReportRequest(Payload(old(Form())))] && !loading
    {
      var formData := Form();
      var validationErrors := ValidateReportData(formData);
      ValidationEmptyIffAccepted(formData);
      if |validationErrors| > 0 {
        alert := Some(InvalidForm(validationErrors));
        return;
      }
      Send(formData, reply);
    }

    /** The `try` block and its `finally`: format, send, and turn the answer into an alert. */
    method Send(formData: FormData, reply: Reply)
      modifies this
      ensures Form() == old(Form()) && !loading
      ensures alert == Some(AnswerNotice(reply))
      ensures sent == old(sent) + [CreateReportRequest(Payload(formData))]
    {
      loading := true;
      var reportData := FormatReportData(formData);
      sent := sent + [CreateReportRequest(reportData)];
      ShowAnswer(reply);
      loading := false;
    }

    /** The answer's branch of the `try` block, or its `catch` block. */
    method ShowAnswer(reply: Reply)
      modifies this
      ensures alert == Some(AnswerNotice(reply))
      ensures Form() == old(Form()) && loading == old(loading) && sent == old(sent)
    {
      match Settle(reply) {
        case Resolved(response) =>
          alert := Some(ResponseNotice(response));
        case Rejected(message) =>
          alert := Some(SubmitFailed(ClassifyFailure(message)));
      }
    }

    /** Pressing OK dismisses the alert, and resets the form when the alert says so. */
    method PressOk()
      requires alert.Some?
      modifies this
      ensures alert.None? && loading == old(loading) && sent == old(sent)
      ensures old(alert.value.resetOnOk()) ==> Blank()
      ensures !old(alert.value.resetOnOk()) ==> Form() == old(Form())
    {
      if alert.value.resetOnOk() {
        HandleReset();
      }
      alert := None;
    }

    /** `handleReset`: the six text fields back to empty and the three flags back to false. */
    method HandleReset()
      modifies this
      ensures Blank()
      ensures loading == old(loading) && alert == old(alert) && sent == old(sent)
    {
      phoneNumber := "";
      date := "";
      time := "";
      description := "";
      anonymous := false;
      reporterName := "";
      reporterContact := "";
      hasEvidence := false;
      termsAccepted := false;
    }
  }
}
