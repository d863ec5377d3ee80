/**
 * The report service's three API calls and its error mapping: each call reduced to the request
 * it builds and to how it settles, given what the HTTP client reported.
 */
module ReportsApi {
  import opened Wrappers
  import opened JsText
  import opened JsValue
  import opened ApiConfig
  import opened ReportsService

  /** A failed call as the HTTP client reports it. */
  datatype TransportError =
    | HttpError(status: int, data: Json)  // the server answered with an error status
    | NoResponse                          // the request went out and nothing came back
    | SetupError                          // the request could not be made

  // The fixed messages; the long ones are assembled from pieces.
  const ValidationTitle: string := "Error de validación"
  const ForThisAction: string := "para realizar esta acción"
  const TryLater: string := "Intente de nuevo más tarde"
  const BadRequestMessage: string := "Los datos enviados no son válidos"
  const UnauthorizedMessage: string := "No autorizado " + ForThisAction
  const ForbiddenMessage: string := "No tiene permisos " + ForThisAction
  const NotFoundMessage: string := "Reporte no encontrado"
  const TooManyRequestsMessage: string := "Demasiadas peticiones. " + "Intente de nuevo en unos minutos"
  const ServerErrorMessage: string := "Error interno del servidor. " + TryLater
  const UnavailableMessage: string := "Servicio temporalmente " + "no disponible. " + TryLater
  const ConnectionMessage: string := "Error de conexión." + " Verifique su conexión a internet"
  const AppErrorMessage: string := "Error interno de la aplicación"

  /** The statuses with a case of their own in the mapping. */
  const HandledStatuses: set<int> := {400, 401, 403, 404, 429, 500, 502, 503, 504}

  /**
   * The text one entry of a 400 response's `errors` array contributes: an object's truthy
   * `message`, a string as it is, `Error de validación` for anything else. Reading `message`
   * of a `null` entry throws, which is `None` here.
   */
  function EntryText(err: Json): (r: Option<string>)
    ensures r.None? <==> err.Null?
  {
    if err.Null? then None
    else if IsObject(err) && Truthy(Get(err, "message")) then Some(ToText(Get(err, "message")))
    else if err.Str? then Some(err.s)
    else Some(ValidationTitle)
  }

  /** `errors.map(...)`: every entry's text, or `None` as soon as one entry throws. */
  function EntryTexts(items: seq<Json>): (r: Option<seq<string>>)
    ensures r.None? <==> exists i :: 0 <= i < |items| && items[i].Null?
    ensures r.Some? ==> |r.value| == |items|
    ensures r.Some? ==> forall i :: 0 <= i < |items| ==> Some(r.value[i]) == EntryText(items[i])
  {
    if items == [] then Some([])
    else
      var rest := EntryTexts(items[1..]);
      assert forall i :: 1 <= i < |items| ==> items[i] == items[1..][i - 1];
      match EntryText(items[0])
      case None => None
      case Some(text) => if rest.None? then None else Some([text] + rest.value)
  }

  /** The `errors` array of a 400 response, when it is a non-empty array. */
  predicate HasErrorList(data: Json) {
    var errors := Get(data, "errors");
    errors.Arr? && |errors.items| > 0
  }

  /**
   * `_createUserFriendlyError`: `Success` with the message of the `Error` it returns, or
   * `Failure` with the message of the `TypeError` it throws on a `null` validation entry.
   */
  function FriendlyError(e: TransportError): (r: Result<string, string>)
    ensures r.Failure? <==> e.HttpError? && e.status == 400 && HasErrorList(e.data)
                            && exists i :: 0 <= i < |Get(e.data, "errors").items| && Get(e.data, "errors").items[i].Null?
    ensures r.Failure? ==> r.error == ReadErrorMessage("message", Null)
  {
    match e
    case HttpError(status, data) =>
      if status == 400 then
        if HasErrorList(data) then
          match EntryTexts(Get(data, "errors").items)
          case None => Failure(ReadErrorMessage("message", Null))
          case Some(texts) => Success(ValidationTitle + ":\n" + Join(texts, "\n"))
        else Success(ToText(Or(Get(data, "message"), Str(BadRequestMessage))))
      else if status == 401 then Success(UnauthorizedMessage)
      else if status == 403 then Success(ForbiddenMessage)
      else if status == 404 then Success(ToText(Or(Get(data, "message"), Str(NotFoundMessage))))
      else if status == 429 then Success(TooManyRequestsMessage)
      else if status == 500 then Success(ServerErrorMessage)
      else if status == 502 || status == 503 || status == 504 then Success(UnavailableMessage)
      else Success(ToText(Or(Get(data, "message"), Str("Error del servidor (" + IntToString(status) + ")"))))
    case NoResponse => Success(ConnectionMessage)
    case SetupError => Success(AppErrorMessage)
  }

  /** The message of whatever the failed call rejects with. */
  function FailureMessage(e: TransportError): string {
    match FriendlyError(e)
    case Success(m) => m
    case Failure(m) => m
  }

  lemma TooManyRequestsReported(data: Json)
    ensures FailureMessage(HttpError(429, data)) == TooManyRequestsMessage
  {
  }

  lemma ConnectionReported()
    ensures FailureMessage(NoResponse) == ConnectionMessage
  {
  }

  lemma ValidationTitleWord()
    ensures (ValidationTitle + ":\n")[9..19] == "validación"
  {
  }

  // Letters missing from two fixed messages, one fact per lemma; they show that a message
  // matches none of a classifier's keywords.
  lemma TooManyRequestsLacksL() ensures 'l' !in TooManyRequestsMessage {}
  lemma TooManyRequestsLacksW() ensures 'w' !in TooManyRequestsMessage {}
  lemma TooManyRequestsLacksH() ensures 'h' !in TooManyRequestsMessage {}
  lemma TooManyRequestsLacksT() ensures 'T' !in TooManyRequestsMessage {}
  lemma ConnectionLacksL() ensures 'l' !in ConnectionMessage {}
  lemma ConnectionLacksW() ensures 'w' !in ConnectionMessage {}
  lemma ConnectionLacksH() ensures 'h' !in ConnectionMessage {}
  lemma ConnectionLacksT() ensures 'T' !in ConnectionMessage {}

  /** The fixed-message statuses ignore the response body. */
  lemma FixedStatusIgnoresBody(status: int, d1: Json, d2: Json)
    requires status in {401, 403, 429, 500, 502, 503, 504}
    ensures FriendlyError(HttpError(status, d1)) == FriendlyError(HttpError(status, d2))
    ensures FriendlyError(HttpError(status, d1)).Success?
  {
  }

  /** Rate limiting is reported differently from every server failure. */
  lemma TooManyRequestsDistinct(status: int, d1: Json, d2: Json)
    requires status in {500, 502, 503, 504}
    ensures FailureMessage(HttpError(429, d1)) != FailureMessage(HttpError(status, d2))
  {
    assert TooManyRequestsMessage[0] == 'D';
    assert ServerErrorMessage[0] == 'E' && UnavailableMessage[0] == 'S';
  }

  /** A 404, and any status without a case of its own, shows the server's truthy `message`. */
  lemma ServerMessagePreferred(status: int, data: Json)
    requires status == 404 || status !in HandledStatuses
    requires Truthy(Get(data, "message"))
    ensures FriendlyError(HttpError(status, data)) == Success(ToText(Get(data, "message")))
  {
  }

  /** Without a truthy `message`, a 404 says the report was not found and other statuses name the status. */
  lemma ServerMessageFallback(status: int, data: Json)
    requires status == 404 || status !in HandledStatuses
    requires !Truthy(Get(data, "message"))
    ensures status == 404 ==> FailureMessage(HttpError(status, data)) == NotFoundMessage
    ensures status != 404 ==> FailureMessage(HttpError(status, data))
                              == "Error del servidor (" + IntToString(status) + ")"
  {
  }

  /**
   * A 400 with validation entries lists their texts one per line after the title, so the
   * lines can be read back when no text holds a line break.
   */
  lemma BadRequestLines(data: Json)
    requires HasErrorList(data)
    requires forall i :: 0 <= i < |Get(data, "errors").items| ==> !Get(data, "errors").items[i].Null?
    ensures var items := Get(data, "errors").items;
            var m := FailureMessage(HttpError(400, data));
            var prefix := ValidationTitle + ":\n";
            StartsWith(m, prefix)
            && ((forall i :: 0 <= i < |items| ==> '\n' !in EntryText(items[i]).value) ==>
                  Split(m[|prefix|..], '\n') == EntryTexts(items).value)
  {
    var items := Get(data, "errors").items;
    var texts := EntryTexts(items).value;
    var prefix := ValidationTitle + ":\n";
    var m := FailureMessage(HttpError(400, data));
    assert m == prefix + Join(texts, "\n");
    assert m[..|prefix|] == prefix && m[|prefix|..] == Join(texts, "\n");
    if forall i :: 0 <= i < |items| ==> '\n' !in EntryText(items[i]).value {
      assert forall k :: 0 <= k < |texts| ==> '\n' !in texts[k] by {
        forall k | 0 <= k < |texts| ensures '\n' !in texts[k] {
          assert Some(texts[k]) == EntryText(items[k]);
        }
      }
      SplitJoin(texts, '\n');
    }
  }

  // ---------------------------------------------------------------- the calls

  datatype Verb = HttpGet | HttpPost

  /** What a call sends: verb, URL, headers and, for a POST, the JSON body. */
  datatype Request = Request(verb: Verb, url: string, headers: Headers, body: Option<map<string, Json>>)

  /** What the HTTP client reports: the response body, or a failure. */
  datatype Reply = Responded(data: Json) | Failed(error: TransportError)

  /** How a call's promise settles: with the response body, or rejected with an error's message. */
  datatype Settled = Resolved(data: Json) | Rejected(message: string)

  /** The calls pass no query parameters, so the encoding is never applied. */
  function Plain(s: string): string {
    s
  }

  /** `createReport`: a POST of the cleaned data to the reports endpoint with the default headers. */
  function CreateReportRequest(reportData: map<string, Json>): (r: Request)
    ensures r.verb == HttpPost && r.url == BaseUrl + ReportsEndpoint && r.headers == DefaultHeaders
    ensures r.body == Some(Cleaned(reportData))
  {
    GetApiHeadersDefault();
    Request(HttpPost, BuildApiUrl(ReportsEndpoint, [], Plain), GetApiHeaders(map[]), Some(Cleaned(reportData)))
  }

  /** `getReportStatus`: a GET of the status endpoint followed by `/` and the id. */
  function StatusRequest(reportId: string): (r: Request)
    ensures r.verb == HttpGet && r.headers == DefaultHeaders && r.body.None?
    ensures r.url == BaseUrl + ReportStatusEndpoint + "/" + reportId
  {
    GetApiHeadersDefault();
    Request(HttpGet, BuildApiUrl(ReportStatusEndpoint + "/" + reportId, [], Plain), GetApiHeaders(map[]), None)
  }

  /** `getReportByCaseNumber`: a GET of the case endpoint followed by `/` and the case number. */
  function CaseRequest(caseNumber: string): (r: Request)
    ensures r.verb == HttpGet && r.headers == DefaultHeaders && r.body.None?
    ensures r.url == BaseUrl + ReportByCaseEndpoint + "/" + caseNumber
  {
    GetApiHeadersDefault();
    Request(HttpGet, BuildApiUrl(ReportByCaseEndpoint + "/" + caseNumber, [], Plain), GetApiHeaders(map[]), None)
  }

  /** Every call resolves with the response body, or rejects with the mapped message. */
  function Settle(reply: Reply): (s: Settled)
    ensures reply.Responded? <==> s.Resolved?
    ensures reply.Responded? ==> s.data == reply.data
    ensures reply.Failed? ==> s.message == FailureMessage(reply.error)
  {
    match reply
    case Responded(data) => Resolved(data)
    case Failed(e) => Rejected(FailureMessage(e))
  }

  /** The id a status lookup asks for can be read back from its URL. */
  lemma StatusRequestTarget(reportId: string)
    requires '?' !in reportId
    ensures ParseApiUrl(StatusRequest(reportId).url) == Some((ReportStatusEndpoint + "/" + reportId, ""))
  {
    var endpoint := ReportStatusEndpoint + "/" + reportId;
    assert '?' !in endpoint by {
      assert forall i :: 0 <= i < |endpoint| - |reportId| ==> endpoint[i] == (ReportStatusEndpoint + "/")[i];
      assert forall i :: |endpoint| - |reportId| <= i < |endpoint| ==> endpoint[i] == reportId[i - (|endpoint| - |reportId|)];
    }
    ParseBuildApiUrl(endpoint, [], Plain);
  }

  /** A status lookup and a case lookup never ask for the same URL, whatever they look up. */
  lemma LookupsDistinct(reportId: string, caseNumber: string)
    ensures StatusRequest(reportId).url != CaseRequest(caseNumber).url
  {
    var k := |BaseUrl| + 9;
    assert StatusRequest(reportId).url[k] == 's';
    assert CaseRequest(caseNumber).url[k] == 'c';
  }

  /** A validated form is sent as exactly its formatted payload: cleaning removes nothing. */
  lemma AcceptedFormSentWhole(f: FormData)
    requires FormAccepted(f)
    ensures CreateReportRequest(Payload(f)).body == Some(Payload(f))
  {
    AcceptedPayloadClean(f);
  }
}
