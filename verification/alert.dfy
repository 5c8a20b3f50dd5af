/**
 * The alert facade (`WebDriver_Object_Alert`): one command per call, except
 * that `write` may chain an accept.
 */
module Alerts {
  import opened Wrappers
  import opened Values
  import opened Command
  import opened Errors
  import opened Driver

  function TextCmd(): Cmd {
    Build("alert_text", GET, map[])
  }

  function WriteCmd(text: Value): Cmd {
    Build("alert_text", POST, map["text" := Str(ToStr(text))])
  }

  function AcceptCmd(): Cmd {
    Build("accept_alert", POST, map[])
  }

  function DismissCmd(): Cmd {
    Build("dismiss_alert", POST, map[])
  }

  /** `text`: the value of one `GET alert_text`. */
  function Text(srv: Server, log: seq<Cmd>): (r: Sent<Value>)
    ensures r.log == log + [TextCmd()]
    ensures r.res.Ok? <==> Curl(TextCmd(), srv(log, TextCmd())).Ok?
    ensures r.res.Ok? ==> r.res.value == Index(srv(log, TextCmd()).body, "value")
  {
    SendForValue(srv, log, TextCmd())
  }

  /** `accept`: one `POST accept_alert`. */
  function Accept(srv: Server, log: seq<Cmd>): (r: Sent<Value>)
    ensures r.log == log + [AcceptCmd()]
    ensures r.res.Ok? ==> r.res.value == Index(srv(log, AcceptCmd()).body, "value")
  {
    SendForValue(srv, log, AcceptCmd())
  }

  /** `dismiss`: one `POST dismiss_alert`. */
  function Dismiss(srv: Server, log: seq<Cmd>): (r: Sent<Value>)
    ensures r.log == log + [DismissCmd()]
    ensures r.res.Ok? ==> r.res.value == Index(srv(log, DismissCmd()).body, "value")
  {
    SendForValue(srv, log, DismissCmd())
  }

  /** `write`: types the text into the prompt, then accepts it when asked
      to; the result is the reply to the typing, not to the accept. */
  function Write(srv: Server, log: seq<Cmd>, text: Value, isAccept: bool): (r: Sent<Value>)
    ensures isAccept && r.res.Ok? ==> r.log == log + [WriteCmd(text), AcceptCmd()]
    ensures !isAccept ==> r.log == log + [WriteCmd(text)]
    ensures r.res.Ok? ==> r.res.value == Index(srv(log, WriteCmd(text)).body, "value")
    ensures Curl(WriteCmd(text), srv(log, WriteCmd(text))).Err? ==> r.log == log + [WriteCmd(text)] && r.res.Err?
  {
    var typed := SendForValue(srv, log, WriteCmd(text));
    if typed.res.Err? || !isAccept then typed
    else
      var accepted := Accept(srv, typed.log);
      match accepted.res
      case Ok(_) => Sent(typed.res, accepted.log)
      case Err(e) => Sent(Err(e), accepted.log)
  }

  /** Writing with accept sends exactly two commands when the typing
      succeeds, and the accept always comes second. */
  lemma WriteThenAccept(srv: Server, log: seq<Cmd>, text: Value)
    requires Curl(WriteCmd(text), srv(log, WriteCmd(text))).Ok?
    ensures var r := Write(srv, log, text, true);
            && r.log == log + [WriteCmd(text), AcceptCmd()]
            && r.log[|log|].path == "alert_text" && r.log[|log|].verb == POST
            && r.log[|log| + 1].path == "accept_alert"
  {
  }
}
