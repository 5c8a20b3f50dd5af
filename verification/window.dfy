/**
 * The window facade (`WebDriver_Object_Window`): a settable window handle
 * and the commands that address it.
 */
module Windows {
  import opened Wrappers
  import opened Values
  import opened Command
  import opened Errors
  import opened Driver

  datatype Window = Window(handle: string)

  /** The handle the protocol reads as "the current window". */
  const CurrentHandle: string := "current"

  function NewWindow(): Window {
    Window(CurrentHandle)
  }

  /** `setWindowHandle`: every later window command addresses the new handle. */
  function SetWindowHandle(w: Window, handle: string): (r: Window)
    ensures forall op :: HandlePath(r, op) == "window/" + handle + "/" + op
  {
    w.(handle := handle)
  }

  /** `window/<handle>/<op>`. */
  function HandlePath(w: Window, op: string): string {
    "window/" + w.handle + "/" + op
  }

  datatype Size = Size(height: Value, width: Value)

  datatype Position = Position(left: Value, top: Value)

  function FocusCmd(name: Value): Cmd {
    Build("window", POST, map["name" := name])
  }

  function CloseCmd(): Cmd {
    Build("window", POST, map[])
  }

  function GetSizeCmd(w: Window): Cmd {
    Build(HandlePath(w, "size"), GET, map[])
  }

  function SetSizeCmd(w: Window, width: Value, height: Value): Cmd {
    Build(HandlePath(w, "size"), POST, map["width" := Int(IntVal(width)), "height" := Int(IntVal(height))])
  }

  function MaximizeCmd(w: Window): Cmd {
    Build(HandlePath(w, "maximize"), POST, map[])
  }

  function GetPositionCmd(w: Window): Cmd {
    Build(HandlePath(w, "position"), GET, map[])
  }

  function SetPositionCmd(w: Window, left: Value, top: Value): Cmd {
    Build(HandlePath(w, "position"), POST, map["x" := Int(IntVal(left)), "y" := Int(IntVal(top))])
  }

  /** `focus`: one `POST window` naming the target window. */
  function Focus(srv: Server, log: seq<Cmd>, name: Value): (r: Sent<()>)
    ensures r.log == log + [FocusCmd(name)]
    ensures r.log[|log|].params == map["name" := name] && r.log[|log|].verb == POST
  {
    SendForEffect(srv, log, FocusCmd(name))
  }

  /** `close`: one `POST window` with no parameters. */
  function Close(srv: Server, log: seq<Cmd>): (r: Sent<Value>)
    ensures r.log == log + [CloseCmd()]
    ensures |r.log[|log|].params| == 0 && r.log[|log|].verb == POST
  {
    SendForValue(srv, log, CloseCmd())
  }

  /** `getSize`: exactly the reply's height and width. */
  function GetSize(srv: Server, w: Window, log: seq<Cmd>): (r: Sent<Size>)
    ensures r.log == log + [GetSizeCmd(w)]
    ensures r.res.Ok? ==>
              var value := Index(srv(log, GetSizeCmd(w)).body, "value");
              r.res.value == Size(Index(value, "height"), Index(value, "width"))
  {
    var s := SendForValue(srv, log, GetSizeCmd(w));
    match s.res
    case Ok(value) => Sent(Ok(Size(Index(value, "height"), Index(value, "width"))), s.log)
    case Err(e) => Sent(Err(e), s.log)
  }

  /** `setSize`: width and height are sent as integers. */
  function SetSize(srv: Server, w: Window, log: seq<Cmd>, width: Value, height: Value): (r: Sent<Value>)
    ensures r.log == log + [SetSizeCmd(w, width, height)]
    ensures r.log[|log|].params["width"] == Int(IntVal(width))
    ensures r.log[|log|].params["height"] == Int(IntVal(height))
  {
    SendForValue(srv, log, SetSizeCmd(w, width, height))
  }

  /** `maximize`. */
  function Maximize(srv: Server, w: Window, log: seq<Cmd>): (r: Sent<Value>)
    ensures r.log == log + [MaximizeCmd(w)]
  {
    SendForValue(srv, log, MaximizeCmd(w))
  }

  /** `getPosition`: the reply's `x` and `y` become `left` and `top`. */
  function GetPosition(srv: Server, w: Window, log: seq<Cmd>): (r: Sent<Position>)
    ensures r.log == log + [GetPositionCmd(w)]
    ensures r.res.Ok? ==>
              var value := Index(srv(log, GetPositionCmd(w)).body, "value");
              r.res.value.left == Index(value, "x") && r.res.value.top == Index(value, "y")
  {
    var s := SendForValue(srv, log, GetPositionCmd(w));
    match s.res
    case Ok(value) => Sent(Ok(Position(Index(value, "x"), Index(value, "y"))), s.log)
    case Err(e) => Sent(Err(e), s.log)
  }

  /** `setPosition`: `left` and `top` are sent as the integers `x` and `y`. */
  function SetPosition(srv: Server, w: Window, log: seq<Cmd>, left: Value, top: Value): (r: Sent<Value>)
    ensures r.log == log + [SetPositionCmd(w, left, top)]
    ensures r.log[|log|].params == map["x" := Int(IntVal(left)), "y" := Int(IntVal(top))]
  {
    SendForValue(srv, log, SetPositionCmd(w, left, top))
  }

  /** After `setWindowHandle(h)` every size, position and maximize request
      addresses `window/h/…`; a new facade addresses `window/current/…`. */
  lemma HandleRouting(srv: Server, w: Window, h: string, log: seq<Cmd>, a: Value, b: Value)
    ensures var w' := SetWindowHandle(w, h);
            var prefix := "window/" + h + "/";
            && prefix <= GetSize(srv, w', log).log[|log|].path
            && prefix <= SetSize(srv, w', log, a, b).log[|log|].path
            && prefix <= Maximize(srv, w', log).log[|log|].path
            && prefix <= GetPosition(srv, w', log).log[|log|].path
            && prefix <= SetPosition(srv, w', log, a, b).log[|log|].path
    ensures "window/current/" <= GetSize(srv, NewWindow(), log).log[|log|].path
  {
  }
}
