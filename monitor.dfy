/** The standalone monitor: the call built for an endpoint and the
    classification of its outcome into a logged label and at most one
    notification. */
module Monitor {
  import opened Json
  import opened Yarn
  import opened Notify
  import opened Http

  /** A request of the standalone monitor; its body is a JSON value, Null
      meaning no body. */
  datatype Request = Request(url: string, headers: ReqHash, httpMethod: ConfigMethod, body: Json)

  /** One monitored endpoint of the standalone monitor. */
  datatype Config = Config(
    name: string,
    request: Request,
    expectedStatus: nat,
    cronExpression: string,
    gnomeNotify: bool,
    notifyType: string,
    show: bool)

  /** The call made for `request`: POST exactly when the request says
      POST, and the body attached exactly when it is not Null. */
  function ApiConfig(request: Request): (call: Outbound<Json>)
    ensures call.verb == "POST" <==> request.httpMethod == POST
    ensures call.verb == "GET" <==> request.httpMethod != POST
    ensures call.body.Some? <==> request.body != Null
    ensures call.body.Some? ==> call.body.value == request.body
    ensures call.url == request.url && call.headers == request.headers
  {
    var body := if request.body != Null then Some(request.body) else None;
    Outbound(MethodBytes(request.httpMethod), request.url, request.headers, body)
  }

  /** What the call came back with: a transport error (no response), or
      the status code of the response. */
  datatype Outcome = TransportError | Status(code: nat)

  /** The word the log line reports for a verification. */
  datatype Label = OK | ERROR

  /** The logged label and the notifications emitted, in order. */
  datatype Verdict = Verdict(logged: Label, notes: seq<Notification>)

  const FailureMessage: string := "Parece que deu ruim da uma verificada na api"
  const SuccessMessage: string := "Tudo normal segue o jogo!"

  /** The notify type under which successes are not notified. */
  const ErrorOnly: string := "ERROR"

  function Failure(name: string): Notification
  {
    Notification(name, ErrorIcon, FailureMessage)
  }

  function Success(name: string): Notification
  {
    Notification(name, InfoIcon, SuccessMessage)
  }

  /** The classification as written: a transport error notifies a failure
      and stops, but its log line reports OK. */
  function VerifyApiAsWritten(name: string, outcome: Outcome, expectedStatus: nat, notifyType: string): (v: Verdict)
    ensures |v.notes| <= 1
    ensures outcome.TransportError? ==> v.notes == [Failure(name)]
  {
    match outcome
    case TransportError => Verdict(OK, [Failure(name)])
    case Status(status) =>
      if status == expectedStatus then
        Verdict(OK, if notifyType != ErrorOnly then [Success(name)] else [])
      else
        Verdict(ERROR, [Failure(name)])
  }

  /** As written, a failed call is logged as OK although it notifies a
      failure. */
  lemma TransportErrorLoggedOk(name: string, expectedStatus: nat, notifyType: string)
    ensures VerifyApiAsWritten(name, TransportError, expectedStatus, notifyType) == Verdict(OK, [Failure(name)])
  {
  }

  /** The classification: OK exactly when a response came back with the
      expected status; a transport error or another status is ERROR and
      always notifies one failure; an OK notifies one success unless the
      endpoint only wants errors. Never more than one notification. */
  function VerifyApi(name: string, outcome: Outcome, expectedStatus: nat, notifyType: string): (v: Verdict)
    ensures v.logged == OK <==> outcome == Status(expectedStatus)
    ensures v.logged == ERROR ==> v.notes == [Failure(name)]
    ensures v.logged == OK && notifyType != ErrorOnly ==> v.notes == [Success(name)]
    ensures v.logged == OK && notifyType == ErrorOnly ==> v.notes == []
    ensures |v.notes| <= 1
  {
    match outcome
    case TransportError => Verdict(ERROR, [Failure(name)])
    case Status(status) =>
      if status == expectedStatus then
        Verdict(OK, if notifyType != ErrorOnly then [Success(name)] else [])
      else
        Verdict(ERROR, [Failure(name)])
  }

  /** The corrected classification differs from the code as written only
      in the label of a transport error; the notifications are the same. */
  lemma CorrectionOnlyRelabels(name: string, outcome: Outcome, expectedStatus: nat, notifyType: string)
    ensures VerifyApi(name, outcome, expectedStatus, notifyType).notes
         == VerifyApiAsWritten(name, outcome, expectedStatus, notifyType).notes
    ensures outcome.Status? ==>
      VerifyApi(name, outcome, expectedStatus, notifyType) == VerifyApiAsWritten(name, outcome, expectedStatus, notifyType)
    ensures outcome.TransportError? ==>
      VerifyApi(name, outcome, expectedStatus, notifyType).logged == ERROR
      && VerifyApiAsWritten(name, outcome, expectedStatus, notifyType).logged == OK
  {
  }

  /** Verifying one configured endpoint, with the corrected
      classification: the call its request makes, and the verdict on the
      outcome of that call. */
  function VerifyConfig(config: Config, outcome: Outcome): (r: (Outbound<Json>, Verdict))
    ensures r.0 == ApiConfig(config.request)
    ensures r.1.logged == OK <==> outcome == Status(config.expectedStatus)
    ensures r.1.logged == ERROR ==> r.1.notes == [Failure(config.name)]
    ensures r.1.logged == OK ==> (r.1.notes == [Success(config.name)] <==> config.notifyType != ErrorOnly)
    ensures r.1.logged == OK && config.notifyType == ErrorOnly ==> r.1.notes == []
    ensures r.1.notes == VerifyApiAsWritten(config.name, outcome, config.expectedStatus, config.notifyType).notes
  {
    CorrectionOnlyRelabels(config.name, outcome, config.expectedStatus, config.notifyType);
    (ApiConfig(config.request), VerifyApi(config.name, outcome, config.expectedStatus, config.notifyType))
  }
}
