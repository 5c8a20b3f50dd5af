/**
 * Commands as the client builds them, and the server they are sent to.
 *
 * The class that turns a command into a URL (session prefix, `:id`
 * substitution) is not part of this model, so a command is kept as the
 * record the client hands to it: the path template, the HTTP method, the
 * request parameters, the element id bound with `->param(['id' => …])`, and
 * whether the session prefix applies.
 */
module Command {
  import opened Wrappers
  import opened Values

  datatype Method = GET | POST | DELETE

  datatype Cmd = Cmd(
    path: string,
    verb: Method,
    params: map<string, Value>,
    boundId: Option<int>,
    sessionScoped: bool)

  /** `$driver->factoryCommand($path, $method, $params)`: a session-scoped
      command with no element id bound. */
  function Build(path: string, verb: Method, params: map<string, Value>): Cmd {
    Cmd(path, verb, params, None, true)
  }

  /** `->param(['id' => $id])`. */
  function BindId(c: Cmd, id: int): Cmd {
    c.(boundId := Some(id))
  }

  /** `->withoutSession()`. */
  function WithoutSession(c: Cmd): Cmd {
    c.(sessionScoped := false)
  }

  /** What one HTTP exchange produced: curl's error number and text, the HTTP
      status code, and the decoded JSON body (null when it did not decode). */
  datatype Reply = Reply(errno: int, errorText: string, httpCode: int, body: Value)

  /** The remote end, as an uninterpreted oracle: its reply may depend on
      every command sent before. */
  type Server = (seq<Cmd>, Cmd) -> Reply
}
