/**
 * The protocol transport (`WebDriver_Driver`): how one reply is classified
 * into a value or an exception, how the request body is shaped, and the
 * session it opens on construction and closes on destruction.
 */
module Driver {
  import opened Wrappers
  import opened Values
  import opened Command
  import opened Errors

  /** The protocol statuses the client has a description for (the PHP code's
      table in `checkResponse`). The entry for 6, which the protocol calls
      NoSuchDriver, is the only one whose description does not start with
      its name. */
  datatype KnownStatus =
    | NoSuchDriver | NoSuchElement | NoSuchFrame | UnknownCommand | StaleElementReference
    | ElementNotVisible | InvalidElementState | UnknownError | ElementIsNotSelectable
    | JavaScriptError | XPathLookupError | Timeout | NoSuchWindow | InvalidCookieDomain
    | UnableToSetCookie | UnexpectedAlertOpen | NoAlertOpenError | ScriptTimeout
    | InvalidElementCoordinates | IMENotAvailable | IMEEngineActivationFailed | InvalidSelector
    | SessionNotCreatedException | MoveTargetOutOfBounds
  {
    /** The description `checkResponse` puts in the exception. */
    function Description(): string {
      match this
      case NoSuchDriver => "A session is either terminated or not started"
      case NoSuchElement => "NoSuchElement - An element could not be located on the page using the given search parameters."
      case NoSuchFrame => "NoSuchFrame - A request to switch to a frame could not be satisfied because the frame could not be found."
      case UnknownCommand => "UnknownCommand - The requested resource could not be found, or a request was received using an HTTP method that is not supported by the mapped resource."
      case StaleElementReference => "StaleElementReference - An element command failed because the referenced element is no longer attached to the DOM."
      case ElementNotVisible => "ElementNotVisible - An element command could not be completed because the element is not visible on the page."
      case InvalidElementState => "InvalidElementState - An element command could not be completed because the element is in an invalid state (e.g. attempting to click a disabled element)."
      case UnknownError => "UnknownError - An unknown server-side error occurred while processing the command."
      case ElementIsNotSelectable => "ElementIsNotSelectable - An attempt was made to select an element that cannot be selected."
      case JavaScriptError => "JavaScriptError - An error occurred while executing user supplied JavaScript."
      case XPathLookupError => "XPathLookupError - An error occurred while searching for an element by XPath."
      case Timeout => "Timeout - An operation did not complete before its timeout expired."
      case NoSuchWindow => "NoSuchWindow - A request to switch to a different window could not be satisfied because the window could not be found."
      case InvalidCookieDomain => "InvalidCookieDomain - An illegal attempt was made to set a cookie under a different domain than the current page."
      case UnableToSetCookie => "UnableToSetCookie - A request to set a cookie's value could not be satisfied."
      case UnexpectedAlertOpen => "UnexpectedAlertOpen - A modal dialog was open, blocking this operation"
      case NoAlertOpenError => "NoAlertOpenError - An attempt was made to operate on a modal dialog when one was not open."
      case ScriptTimeout => "ScriptTimeout - A script did not complete before its timeout expired."
      case InvalidElementCoordinates => "InvalidElementCoordinates - The coordinates provided to an interactions operation are invalid."
      case IMENotAvailable => "IMENotAvailable - IME was not available."
      case IMEEngineActivationFailed => "IMEEngineActivationFailed - An IME engine could not be started."
      case InvalidSelector => "InvalidSelector - Argument was an invalid selector (e.g. XPath/CSS)."
      case SessionNotCreatedException => "SessionNotCreatedException - A new session could not be created."
      case MoveTargetOutOfBounds => "MoveTargetOutOfBounds - Target provided for a move action is out of bounds. "
    }

    /** The status code this entry is listed under. */
    function Code(): int {
      match this
      case NoSuchDriver => 6
      case NoSuchElement => 7
      case NoSuchFrame => 8
      case UnknownCommand => 9
      case StaleElementReference => 10
      case ElementNotVisible => 11
      case InvalidElementState => 12
      case UnknownError => 13
      case ElementIsNotSelectable => 15
      case JavaScriptError => 17
      case XPathLookupError => 19
      case Timeout => 21
      case NoSuchWindow => 23
      case InvalidCookieDomain => 24
      case UnableToSetCookie => 25
      case UnexpectedAlertOpen => 26
      case NoAlertOpenError => 27
      case ScriptTimeout => 28
      case InvalidElementCoordinates => 29
      case IMENotAvailable => 30
      case IMEEngineActivationFailed => 31
      case InvalidSelector => 32
      case SessionNotCreatedException => 33
      case MoveTargetOutOfBounds => 34
    }
  }

  /** The table's entry for a status code; status 0 means success and has none. */
  function Lookup(status: int): Option<KnownStatus> {
    match status
    case 6 => Some(NoSuchDriver)
    case 7 => Some(NoSuchElement)
    case 8 => Some(NoSuchFrame)
    case 9 => Some(UnknownCommand)
    case 10 => Some(StaleElementReference)
    case 11 => Some(ElementNotVisible)
    case 12 => Some(InvalidElementState)
    case 13 => Some(UnknownError)
    case 15 => Some(ElementIsNotSelectable)
    case 17 => Some(JavaScriptError)
    case 19 => Some(XPathLookupError)
    case 21 => Some(Timeout)
    case 23 => Some(NoSuchWindow)
    case 24 => Some(InvalidCookieDomain)
    case 25 => Some(UnableToSetCookie)
    case 26 => Some(UnexpectedAlertOpen)
    case 27 => Some(NoAlertOpenError)
    case 28 => Some(ScriptTimeout)
    case 29 => Some(InvalidElementCoordinates)
    case 30 => Some(IMENotAvailable)
    case 31 => Some(IMEEngineActivationFailed)
    case 32 => Some(InvalidSelector)
    case 33 => Some(SessionNotCreatedException)
    case 34 => Some(MoveTargetOutOfBounds)
    case _ => None
  }

  /** The message a failing status carries: the table's description, or a
      generic message that names the status in decimal. */
  function StatusMessage(status: int): (m: string)
    ensures Lookup(status).Some? ==> m == Lookup(status).value.Description()
    ensures Lookup(status).None? ==>
              && |m| > |UnknownStatusPrefix|
              && m[..|UnknownStatusPrefix|] == UnknownStatusPrefix
              && ParseLeadingInt(m[|UnknownStatusPrefix|..]) == status
  {
    match Lookup(status)
    case Some(known) => known.Description()
    case None =>
      var digits := IntToString(status);
      IntToStringRoundTrip(status);
      assert (UnknownStatusPrefix + digits)[|UnknownStatusPrefix|..] == digits;
      UnknownStatusPrefix + digits
  }

  const UnknownStatusPrefix: string := "Unknown error status: "

  /** `$json['status']` as the integer `checkResponse` compares with 0. */
  function StatusOf(json: Value): int {
    IntVal(Index(json, "status"))
  }

  /** `checkResponse`: None when the status is 0, otherwise the exception it throws. */
  function CheckResponse(json: Value): (r: Option<Error>)
    ensures r.None? <==> StatusOf(json) == 0
    ensures r.Some? ==> r.value.BadStatus? && r.value.Code() == StatusOf(json)
  {
    var status := StatusOf(json);
    if status != 0 then Some(BadStatus(status)) else None
  }

  /** `is_array($json) && array_key_exists('status', $json)`: only a keyed
      array can hold the string key `status`. */
  predicate HasStatusKey(json: Value) {
    json.Obj? && "status" in json.fields
  }

  /** The reply got past the transport checks: no curl error and an HTTP
      code other than 0, 404 and 500. */
  predicate Delivered(reply: Reply) {
    reply.errno == 0 && reply.httpCode != 0 && reply.httpCode != 404 && reply.httpCode != 500
  }

  /** The status check passes, or is not reached because there is no status key. */
  predicate StatusAccepted(body: Value) {
    !HasStatusKey(body) || StatusOf(body) == 0
  }

  /** The text of an HTTP 500 failure. */
  function ServerMessageOf(c: Cmd, body: Value): (m: ServerMessage)
    ensures m.Reported? <==> IsSet(Index(body, "value"), "message")
    ensures m.Reported? ==> m.text == ToStr(Index(Index(body, "value"), "message"))
    ensures m.Synthesized? ==> m.cmd == c && m.body == body
  {
    var value := Index(body, "value");
    if IsSet(value, "message") then Reported(ToStr(Index(value, "message"))) else Synthesized(c, body)
  }

  /** `curl`, after the exchange: classifies the reply into the decoded body
      or the exception, in the PHP code's order of checks. */
  function Curl(c: Cmd, reply: Reply): (r: Result<Value, Error>)
    ensures r.Ok? <==> Delivered(reply) && StatusAccepted(reply.body)
    ensures r.Ok? ==> r.value == reply.body
    ensures r.Err? ==> (r.error.NoSelenium() <==> reply.errno != 0 || reply.httpCode == 0)
    ensures r.Err? && r.error.BadStatus? <==> Delivered(reply) && !StatusAccepted(reply.body)
    ensures reply.errno != 0 ==> r.Err? && r.error.ConnectionFailed? && r.error.errno == reply.errno
    ensures reply.errno == 0 && reply.httpCode == 404 ==> r == Err(NotRecognized(c))
    ensures reply.errno == 0 && reply.httpCode == 500 ==> r.Err? && r.error.ServerFailure?
  {
    if reply.errno != 0 then Err(ConnectionFailed(reply.errno, reply.errorText, c))
    else if reply.httpCode == 0 then Err(NoResponse)
    else if reply.httpCode == 404 then Err(NotRecognized(c))
    else if reply.httpCode == 500 then Err(ServerFailure(ServerMessageOf(c, reply.body)))
    else if HasStatusKey(reply.body) then
      match CheckResponse(reply.body)
      case Some(e) => Err(e)
      case None => Ok(reply.body)
    else Ok(reply.body)
  }

  /** How curl is configured to carry a command. */
  datatype Transfer = PostJson(body: map<string, Value>) | PostEmpty | CustomDelete | PlainGet

  /** The request shape for a command: only a POST with a non-empty
      parameter array has a JSON body. */
  function TransferOf(c: Cmd): (t: Transfer)
    ensures t.PostJson? <==> c.verb == POST && |c.params| > 0
    ensures t.PostJson? ==> t.body == c.params
    ensures t.PostEmpty? <==> c.verb == POST && |c.params| == 0
    ensures t.CustomDelete? <==> c.verb == DELETE
    ensures t.PlainGet? <==> c.verb == GET
  {
    match c.verb
    case POST => if |c.params| > 0 then PostJson(c.params) else PostEmpty
    case DELETE => CustomDelete
    case GET => PlainGet
  }

  /** A call's outcome together with the command log after it. */
  datatype Sent<T> = Sent(res: Result<T, Error>, log: seq<Cmd>)

  /** One round trip: the command is appended to the log and the reply the
      server gives for it is classified. */
  function Send(srv: Server, log: seq<Cmd>, c: Cmd): (s: Sent<Value>)
    ensures s.log == log + [c]
    ensures s.res.Ok? <==> Delivered(srv(log, c)) && StatusAccepted(srv(log, c).body)
    ensures s.res.Ok? ==> s.res.value == srv(log, c).body
  {
    Sent(Curl(c, srv(log, c)), log + [c])
  }

  /** `$driver->curl($command)['value']`: the `value` field of a successful reply. */
  function SendForValue(srv: Server, log: seq<Cmd>, c: Cmd): (s: Sent<Value>)
    ensures s.log == log + [c]
    ensures s.res.Ok? <==> Delivered(srv(log, c)) && StatusAccepted(srv(log, c).body)
    ensures s.res.Ok? ==> s.res.value == Index(srv(log, c).body, "value")
    ensures s.res.Err? ==> s.res.error == Curl(c, srv(log, c)).error
  {
    var s := Send(srv, log, c);
    match s.res
    case Ok(body) => Sent(Ok(Index(body, "value")), s.log)
    case Err(e) => Sent(Err(e), s.log)
  }

  /** A command sent only for its effect: its value is dropped, its failure is not. */
  function SendForEffect(srv: Server, log: seq<Cmd>, c: Cmd): (s: Sent<()>)
    ensures s.log == log + [c]
    ensures s.res.Ok? <==> Delivered(srv(log, c)) && StatusAccepted(srv(log, c).body)
    ensures s.res.Err? ==> s.res.error == Curl(c, srv(log, c)).error
  {
    var s := Send(srv, log, c);
    match s.res
    case Ok(_) => Sent(Ok(()), s.log)
    case Err(e) => Sent(Err(e), s.log)
  }

  /** The transport's own state: where the server is, the session it talks
      to, and whether it created that session and so must close it. */
  datatype Session = Session(serverUrl: string, sessionId: Value, ownsSession: bool)

  const DesiredCapabilities: Value := Obj(map["browserName" := Str("firefox")])

  function ServerUrl(host: string, port: int): string {
    "http://" + host + ":" + IntToString(port) + "/wd/hub/"
  }

  function NewSessionCmd(): Cmd {
    Build("session", POST, map["desiredCapabilities" := DesiredCapabilities])
  }

  /** The teardown command addresses the session directly, so it bypasses
      the session prefix. */
  function DeleteSessionCmd(sessionId: Value): Cmd {
    WithoutSession(Build("session/" + ToStr(sessionId), DELETE, map[]))
  }

  /** The constructor: a falsy session id makes the client create a session
      and own it; a truthy one is adopted without any request. */
  function Open(srv: Server, host: string, port: int, sessionId: Value, log: seq<Cmd>): (r: Sent<Session>)
    ensures Truthy(sessionId) ==> r == Sent(Ok(Session(ServerUrl(host, port), sessionId, false)), log)
    ensures !Truthy(sessionId) ==> r.log == log + [NewSessionCmd()]
    ensures !Truthy(sessionId) ==>
              (r.res.Ok? <==> Curl(NewSessionCmd(), srv(log, NewSessionCmd())).Ok?)
    ensures !Truthy(sessionId) && r.res.Ok? ==>
              && r.res.value.ownsSession
              && r.res.value.sessionId == Index(srv(log, NewSessionCmd()).body, "sessionId")
  {
    var url := ServerUrl(host, port);
    if !Truthy(sessionId) then
      var s := Send(srv, log, NewSessionCmd());
      match s.res
      case Ok(result) => Sent(Ok(Session(url, Index(result, "sessionId"), true)), s.log)
      case Err(e) => Sent(Err(e), s.log)
    else
      Sent(Ok(Session(url, sessionId, false)), log)
  }

  /** The destructor: only an owned session with a truthy id is deleted. */
  function Close(srv: Server, s: Session, log: seq<Cmd>): (r: Sent<()>)
    ensures !(Truthy(s.sessionId) && s.ownsSession) ==> r == Sent(Ok(()), log)
    ensures Truthy(s.sessionId) && s.ownsSession ==>
              && r.log == log + [DeleteSessionCmd(s.sessionId)]
              && !r.log[|log|].sessionScoped
              && r.log[|log|].verb == DELETE
  {
    if Truthy(s.sessionId) && s.ownsSession then
      SendForEffect(srv, log, DeleteSessionCmd(s.sessionId))
    else
      Sent(Ok(()), log)
  }

  /** The status table covers exactly the codes 6-13, 15, 17, 19, 21 and 23-34. */
  lemma StatusTableDomain(status: int)
    ensures Lookup(status).Some? <==>
              (6 <= status <= 13 || status == 15 || status == 17 || status == 19 || status == 21
               || 23 <= status <= 34)
  {
    match status
    case 6 =>
    case 7 =>
    case 8 =>
    case 9 =>
    case 10 =>
    case 11 =>
    case 12 =>
    case 13 =>
    case 15 =>
    case 17 =>
    case 19 =>
    case 21 =>
    case 23 =>
    case 24 =>
    case 25 =>
    case 26 =>
    case 27 =>
    case 28 =>
    case 29 =>
    case 30 =>
    case 31 =>
    case 32 =>
    case 33 =>
    case 34 =>
    case _ =>
  }

  /** The table is keyed by each entry's own code: looking up an entry's
      code finds that entry, and a code that finds an entry is that entry's. */
  lemma LookupRoundTrip(k: KnownStatus, status: int)
    ensures Lookup(k.Code()) == Some(k)
    ensures Lookup(status).Some? ==> Lookup(status).value.Code() == status
  {
  }

  /** A status the table lacks still fails, with the status as code and a
      message that names it. */
  lemma UnknownStatusFails(json: Value)
    requires StatusOf(json) in {1, 2, 3, 4, 5, 14, 16, 18, 20, 22}
    ensures CheckResponse(json) == Some(BadStatus(StatusOf(json)))
    ensures StatusMessage(StatusOf(json)) == UnknownStatusPrefix + IntToString(StatusOf(json))
  {
    StatusTableDomain(StatusOf(json));
  }

  /** With HTTP 500 the status field is never consulted: two bodies that
      differ only in their status give the same failure. */
  lemma ServerErrorIgnoresStatus(c: Cmd, errorText: string, fields: map<string, Value>, s1: Value, s2: Value)
    requires IsSet(Index(Obj(fields), "value"), "message")
    ensures Curl(c, Reply(0, errorText, 500, Obj(fields["status" := s1]))) ==
            Curl(c, Reply(0, errorText, 500, Obj(fields["status" := s2])))
    ensures Curl(c, Reply(0, errorText, 500, Obj(fields["status" := s1]))) ==
            Err(ServerFailure(Reported(ToStr(Index(Index(Obj(fields), "value"), "message")))))
  {
    assert "value" != "status";
  }

  /** Without a `status` key the decoded body is returned as it is, whatever
      it holds. */
  lemma NoStatusKeyPassesThrough(c: Cmd, reply: Reply)
    requires Delivered(reply) && !HasStatusKey(reply.body)
    ensures Curl(c, reply) == Ok(reply.body)
  {
  }

  /** A creating client and an adopting client differ in what they send over
      their lifetime: the creator sends a session request and, if the server
      named a session, the matching delete; the adopter sends nothing. */
  lemma SessionLifecycle(srv: Server, host: string, port: int, sessionId: Value, log: seq<Cmd>)
    ensures var o := Open(srv, host, port, sessionId, log);
            o.res.Ok? ==>
              var c := Close(srv, o.res.value, o.log);
              if Truthy(sessionId) then c.log == log
              else if Truthy(o.res.value.sessionId) then
                c.log == log + [NewSessionCmd(), DeleteSessionCmd(o.res.value.sessionId)]
              else c.log == log + [NewSessionCmd()]
  {
  }
}
