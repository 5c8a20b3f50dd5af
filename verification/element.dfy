/**
 * The element handle (`WebDriver_Element`): a locator, an optional parent
 * id, and client-side state filled in lazily — the server's element id,
 * the lower-cased tag name and the last mouse button pressed on it.
 *
 * Every operation takes the element and the command log and returns the
 * element's new state, the outcome and the extended log; the state returned
 * on failure is the state PHP leaves behind when the exception is thrown.
 */
module Elements {
  import opened Wrappers
  import opened Values
  import opened Command
  import opened Errors
  import opened Driver
  import opened Locators

  datatype Element = Element(
    locator: string,
    parentId: Option<int>,
    elementId: Option<int>,
    tagName: Option<string>,
    buttonDown: Value)

  /** The constructor: nothing is resolved or cached yet. */
  function New(locator: string, parentId: Option<int>): (e: Element)
    ensures e.locator == locator && e.parentId == parentId
    ensures e.elementId.None? && e.tagName.None? && !Truthy(e.buttonDown)
  {
    Element(locator, parentId, None, None, Null)
  }

  /** An element operation's outcome. */
  datatype Out<T> = Out(el: Element, res: Result<T, Error>, log: seq<Cmd>)

  /** What no operation changes: the locator and parent never change, and a
      resolved id is never dropped or replaced. */
  predicate Evolves(before: Element, after: Element) {
    && after.locator == before.locator
    && after.parentId == before.parentId
    && (before.elementId.Some? ==> after.elementId == before.elementId)
  }

  /** `element`, or `element/<parentId>/element` under a parent. */
  function FindPath(parentId: Option<int>): string {
    match parentId
    case None => "element"
    case Some(p) => "element/" + IntToString(p) + "/element"
  }

  function FindCmd(parentId: Option<int>, l: Locator): Cmd {
    Build(FindPath(parentId), POST, map["using" := Str(l.using), "value" := Str(l.value)])
  }

  /** An element-scoped command: the element's id is bound to `:id`. */
  function ElementCmd(path: string, verb: Method, params: map<string, Value>, id: int): Cmd {
    BindId(Build(path, verb, params), id)
  }

  /** `isset($result['value']['ELEMENT'])`. */
  predicate HasElementId(body: Value) {
    IsSet(Index(body, "value"), "ELEMENT")
  }

  /** `(int)$result['value']['ELEMENT']`. */
  function ElementIdOf(body: Value): int {
    IntVal(Index(Index(body, "value"), "ELEMENT"))
  }

  /** `getElementId`: a resolved element answers from its cache; otherwise
      the locator is parsed, before anything is sent, and one find command
      is issued whose reply must carry `value.ELEMENT`. */
  function Resolve(srv: Server, el: Element, log: seq<Cmd>): (o: Out<int>)
    ensures Evolves(el, o.el) && o.el == el.(elementId := o.el.elementId)
    ensures o.res.Ok? <==> o.el.elementId.Some?
    ensures o.res.Ok? ==> o.el.elementId == Some(o.res.value)
    ensures el.elementId.Some? ==> o == Out(el, Ok(el.elementId.value), log)
    ensures el.elementId.None? && Parse(el.locator).Err? ==> o == Out(el, Err(Parse(el.locator).error), log)
    ensures el.elementId.None? && Parse(el.locator).Ok? ==>
              var c := FindCmd(el.parentId, Parse(el.locator).value);
              var reply := srv(log, c);
              && o.log == log + [c]
              && (o.res.Ok? <==> Curl(c, reply).Ok? && HasElementId(reply.body))
              && (o.res.Ok? ==> o.res.value == ElementIdOf(reply.body))
              && (Curl(c, reply).Ok? && !HasElementId(reply.body) ==> o.res == Err(ElementNotFound(el.locator)))
  {
    if el.elementId.Some? then Out(el, Ok(el.elementId.value), log)
    else
      match Parse(el.locator)
      case Err(e) => Out(el, Err(e), log)
      case Ok(l) =>
        var s := Send(srv, log, FindCmd(el.parentId, l));
        match s.res
        case Err(e) => Out(el, Err(e), s.log)
        case Ok(result) =>
          if !HasElementId(result) then Out(el, Err(ElementNotFound(el.locator)), s.log)
          else
            var id := ElementIdOf(result);
            Out(el.(elementId := Some(id)), Ok(id), s.log)
  }

  /** `sendCommand`: resolves the element if needed, then sends the command
      with the element's id bound. */
  function SendCommand(srv: Server, el: Element, log: seq<Cmd>, path: string, verb: Method,
                       params: map<string, Value>): (o: Out<Value>)
    ensures Evolves(el, o.el) && o.el == el.(elementId := o.el.elementId)
    ensures log <= o.log && |o.log| <= |log| + 2
    ensures el.elementId.Some? ==>
              && o.el == el
              && o.log == log + [ElementCmd(path, verb, params, el.elementId.value)]
    ensures o.res.Ok? ==>
              && o.el.elementId.Some?
              && |o.log| > |log|
              && o.log[|o.log| - 1] == ElementCmd(path, verb, params, o.el.elementId.value)
              && o.res.value == srv(o.log[..|o.log| - 1], o.log[|o.log| - 1]).body
    ensures el.elementId.Some? ==>
              var c := ElementCmd(path, verb, params, el.elementId.value);
              && (o.res.Ok? <==> Curl(c, srv(log, c)).Ok?)
              && (o.res.Err? ==> o.res.error == Curl(c, srv(log, c)).error)
  {
    var r := Resolve(srv, el, log);
    match r.res
    case Err(e) => Out(r.el, Err(e), r.log)
    case Ok(id) =>
      var c := ElementCmd(path, verb, params, id);
      var s := Send(srv, r.log, c);
      assert s.log[..|s.log| - 1] == r.log;
      Out(r.el, s.res, s.log)
  }

  /** `$this->sendCommand(...)['value']`. */
  function SendForValue(srv: Server, el: Element, log: seq<Cmd>, path: string, verb: Method): (o: Out<Value>)
    ensures Evolves(el, o.el) && o.el == el.(elementId := o.el.elementId)
    ensures log <= o.log && |o.log| <= |log| + 2
    ensures el.elementId.Some? ==> o.el == el && o.log == log + [ElementCmd(path, verb, map[], el.elementId.value)]
    ensures o.res.Ok? ==>
              && o.el.elementId.Some?
              && |o.log| > |log|
              && o.log[|o.log| - 1] == ElementCmd(path, verb, map[], o.el.elementId.value)
              && o.res.value == Index(srv(o.log[..|o.log| - 1], o.log[|o.log| - 1]).body, "value")
    ensures el.elementId.Some? ==>
              var c := ElementCmd(path, verb, map[], el.elementId.value);
              && (o.res.Ok? <==> Curl(c, srv(log, c)).Ok?)
              && (o.res.Err? ==> o.res.error == Curl(c, srv(log, c)).error)
  {
    var s := SendCommand(srv, el, log, path, verb, map[]);
    match s.res
    case Ok(result) => Out(s.el, Ok(Index(result, "value")), s.log)
    case Err(e) => Out(s.el, Err(e), s.log)
  }

  /** A command sent only for its effect. */
  function SendForEffect(srv: Server, el: Element, log: seq<Cmd>, path: string, verb: Method,
                         params: map<string, Value>): (o: Out<()>)
    ensures Evolves(el, o.el) && o.el == el.(elementId := o.el.elementId)
    ensures log <= o.log && |o.log| <= |log| + 2
    ensures el.elementId.Some? ==> o.el == el && o.log == log + [ElementCmd(path, verb, params, el.elementId.value)]
    ensures o.res.Ok? ==>
              && o.el.elementId.Some?
              && |o.log| > |log|
              && o.log[|o.log| - 1] == ElementCmd(path, verb, params, o.el.elementId.value)
    ensures el.elementId.Some? ==>
              var c := ElementCmd(path, verb, params, el.elementId.value);
              && (o.res.Ok? <==> Curl(c, srv(log, c)).Ok?)
              && (o.res.Err? ==> o.res.error == Curl(c, srv(log, c)).error)
  {
    var s := SendCommand(srv, el, log, path, verb, params);
    match s.res
    case Ok(_) => Out(s.el, Ok(()), s.log)
    case Err(e) => Out(s.el, Err(e), s.log)
  }

  const ClickPath: string := "element/:id/click"
  const SubmitPath: string := "element/:id/submit"
  const TextPath: string := "element/:id/text"
  const NamePath: string := "element/:id/name"
  const EnabledPath: string := "element/:id/enabled"
  const SizePath: string := "element/:id/size"
  const LocationPath: string := "element/:id/location"
  const DisplayedPath: string := "element/:id/displayed"

  function AttributePath(name: string): string {
    "element/:id/attribute/" + name
  }

  /** `click`. */
  function Click(srv: Server, el: Element, log: seq<Cmd>): (o: Out<()>)
    ensures Evolves(el, o.el)
    ensures el.elementId.Some? ==> o.el == el && o.log == log + [ElementCmd(ClickPath, POST, map[], el.elementId.value)]
  {
    SendForEffect(srv, el, log, ClickPath, POST, map[])
  }

  /** `submit`. */
  function Submit(srv: Server, el: Element, log: seq<Cmd>): (o: Out<()>)
    ensures Evolves(el, o.el)
    ensures el.elementId.Some? ==> o.el == el && o.log == log + [ElementCmd(SubmitPath, POST, map[], el.elementId.value)]
  {
    SendForEffect(srv, el, log, SubmitPath, POST, map[])
  }

  /** `text`. */
  function Text(srv: Server, el: Element, log: seq<Cmd>): (o: Out<Value>)
    ensures Evolves(el, o.el)
    ensures el.elementId.Some? ==> o.el == el && o.log == log + [ElementCmd(TextPath, GET, map[], el.elementId.value)]
    ensures o.res.Ok? ==>
              && o.el.elementId.Some?
              && |o.log| > |log|
              && o.log[|o.log| - 1] == ElementCmd(TextPath, GET, map[], o.el.elementId.value)
              && o.res.value == Index(srv(o.log[..|o.log| - 1], o.log[|o.log| - 1]).body, "value")
  {
    SendForValue(srv, el, log, TextPath, GET)
  }

  /** `attribute($name)`. */
  function Attribute(srv: Server, el: Element, log: seq<Cmd>, name: string): (o: Out<Value>)
    ensures Evolves(el, o.el)
    ensures el.elementId.Some? ==>
              o.el == el && o.log == log + [ElementCmd(AttributePath(name), GET, map[], el.elementId.value)]
    ensures o.res.Ok? ==>
              && o.el.elementId.Some?
              && |o.log| > |log|
              && o.log[|o.log| - 1] == ElementCmd(AttributePath(name), GET, map[], o.el.elementId.value)
              && o.res.value == Index(srv(o.log[..|o.log| - 1], o.log[|o.log| - 1]).body, "value")
  {
    SendForValue(srv, el, log, AttributePath(name), GET)
  }

  /** `enabled`: the reply's value as a PHP boolean. */
  function Enabled(srv: Server, el: Element, log: seq<Cmd>): (o: Out<bool>)
    ensures Evolves(el, o.el)
    ensures o.log == SendForValue(srv, el, log, EnabledPath, GET).log
    ensures o.res.Ok? <==> SendForValue(srv, el, log, EnabledPath, GET).res.Ok?
    ensures o.res.Ok? ==> o.res.value == Truthy(SendForValue(srv, el, log, EnabledPath, GET).res.value)
  {
    var s := SendForValue(srv, el, log, EnabledPath, GET);
    match s.res
    case Ok(v) => Out(s.el, Ok(Truthy(v)), s.log)
    case Err(e) => Out(s.el, Err(e), s.log)
  }

  /** `isDisplayed`: the reply's value as a PHP boolean. */
  function IsDisplayed(srv: Server, el: Element, log: seq<Cmd>): (o: Out<bool>)
    ensures Evolves(el, o.el) && o.el == el.(elementId := o.el.elementId)
    ensures log <= o.log && |o.log| <= |log| + 2
    ensures el.elementId.Some? ==> o.el == el && o.log == log + [ElementCmd(DisplayedPath, GET, map[], el.elementId.value)]
    ensures o.res.Ok? ==>
              && o.el.elementId.Some?
              && |o.log| > |log|
              && o.log[|o.log| - 1] == ElementCmd(DisplayedPath, GET, map[], o.el.elementId.value)
              && (o.res.value <==> Truthy(Index(srv(o.log[..|o.log| - 1], o.log[|o.log| - 1]).body, "value")))
  {
    var s := SendForValue(srv, el, log, DisplayedPath, GET);
    match s.res
    case Ok(v) => Out(s.el, Ok(Truthy(v)), s.log)
    case Err(e) => Out(s.el, Err(e), s.log)
  }

  datatype Dimensions = Dimensions(width: Value, height: Value)

  datatype Point = Point(x: Value, y: Value)

  /** `size`: the reply's width and height. */
  function Size(srv: Server, el: Element, log: seq<Cmd>): (o: Out<Dimensions>)
    ensures Evolves(el, o.el) && o.el == el.(elementId := o.el.elementId)
    ensures log <= o.log && |o.log| <= |log| + 2
    ensures el.elementId.Some? ==> o.el == el && o.log == log + [ElementCmd(SizePath, GET, map[], el.elementId.value)]
    ensures o.res.Ok? ==> |o.log| > |log|
    ensures o.res.Ok? ==>
              var value := Index(srv(o.log[..|o.log| - 1], o.log[|o.log| - 1]).body, "value");
              o.res.value == Dimensions(Index(value, "width"), Index(value, "height"))
  {
    var s := SendForValue(srv, el, log, SizePath, GET);
    match s.res
    case Ok(v) => Out(s.el, Ok(Dimensions(Index(v, "width"), Index(v, "height"))), s.log)
    case Err(e) => Out(s.el, Err(e), s.log)
  }

  /** `location`: the reply's x and y. */
  function Location(srv: Server, el: Element, log: seq<Cmd>): (o: Out<Point>)
    ensures Evolves(el, o.el)
    ensures el.elementId.Some? ==> o.el == el && o.log == log + [ElementCmd(LocationPath, GET, map[], el.elementId.value)]
    ensures o.res.Ok? ==> |o.log| > |log|
    ensures o.res.Ok? ==>
              var value := Index(srv(o.log[..|o.log| - 1], o.log[|o.log| - 1]).body, "value");
              o.res.value == Point(Index(value, "x"), Index(value, "y"))
  {
    var s := SendForValue(srv, el, log, LocationPath, GET);
    match s.res
    case Ok(v) => Out(s.el, Ok(Point(Index(v, "x"), Index(v, "y"))), s.log)
    case Err(e) => Out(s.el, Err(e), s.log)
  }

  /** `child`: the parent is resolved first and the child is created under
      its id, unresolved; no command is sent for the child itself. */
  function Child(srv: Server, el: Element, log: seq<Cmd>, locator: string): (o: Out<Element>)
    ensures Evolves(el, o.el) && o.el == el.(elementId := o.el.elementId)
    ensures o.log == Resolve(srv, el, log).log
    ensures el.elementId.Some? ==> o.log == log && o.res == Ok(New(locator, el.elementId))
    ensures o.res.Ok? <==> o.el.elementId.Some?
    ensures o.res.Ok? ==> o.res.value == New(locator, o.el.elementId)
  {
    var r := Resolve(srv, el, log);
    match r.res
    case Err(e) => Out(r.el, Err(e), r.log)
    case Ok(id) => Out(r.el, Ok(New(locator, Some(id))), r.log)
  }

  /** `isPresent`: never fails; true exactly when the element resolves. */
  function IsPresent(srv: Server, el: Element, log: seq<Cmd>): (o: Out<bool>)
    ensures o.res.Ok?
    ensures o.res.value <==> Resolve(srv, el, log).res.Ok?
    ensures o.res.value <==> o.el.elementId.Some?
    ensures o.el == Resolve(srv, el, log).el && o.log == Resolve(srv, el, log).log
  {
    var r := Resolve(srv, el, log);
    Out(r.el, Ok(r.res.Ok?), r.log)
  }

  /** `waitPresent`: resolution, with its failure passed on. */
  function WaitPresent(srv: Server, el: Element, log: seq<Cmd>): (o: Out<()>)
    ensures o.res.Ok? <==> Resolve(srv, el, log).res.Ok?
    ensures o.res.Err? ==> o.res.error == Resolve(srv, el, log).res.error
    ensures o.el == Resolve(srv, el, log).el && o.log == Resolve(srv, el, log).log
  {
    var r := Resolve(srv, el, log);
    match r.res
    case Ok(_) => Out(r.el, Ok(()), r.log)
    case Err(e) => Out(r.el, Err(e), r.log)
  }

  /** Once an element has resolved, a further element command sends that
      command alone: no second find, and the id stays the same. */
  lemma NoSecondFind(srv: Server, el: Element, log: seq<Cmd>, path1: string, verb1: Method,
                     params1: map<string, Value>, path2: string, verb2: Method, params2: map<string, Value>)
    ensures var first := SendCommand(srv, el, log, path1, verb1, params1);
            first.el.elementId.Some? ==>
              var second := SendCommand(srv, first.el, first.log, path2, verb2, params2);
              && second.el == first.el
              && second.log == first.log + [ElementCmd(path2, verb2, params2, first.el.elementId.value)]
  {
  }

  /** A malformed locator fails before anything is sent, whatever the
      operation, and leaves the element unresolved. */
  lemma MalformedLocatorSendsNothing(srv: Server, el: Element, log: seq<Cmd>, path: string, verb: Method,
                                     params: map<string, Value>)
    requires el.elementId.None? && Parse(el.locator).Err?
    ensures SendCommand(srv, el, log, path, verb, params) == Out(el, Err(Parse(el.locator).error), log)
    ensures IsPresent(srv, el, log) == Out(el, Ok(false), log)
  {
  }

  /** A child resolves under its parent's id: its find command is addressed
      to `element/<parentId>/element`. */
  lemma ChildFindsUnderParent(srv: Server, el: Element, log: seq<Cmd>, locator: string)
    requires Parse(locator).Ok?
    ensures var c := Child(srv, el, log, locator);
            c.res.Ok? ==>
              var r := Resolve(srv, c.res.value, c.log);
              r.log == c.log + [FindCmd(c.el.elementId, Parse(locator).value)]
              && r.log[|c.log|].path == "element/" + IntToString(c.el.elementId.value) + "/element"
  {
  }
}
