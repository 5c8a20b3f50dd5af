/**
 * Mouse gestures on an element (`moveto`, `buttonDown`, `buttonUp`,
 * `dragAndDrop`) and the session-wide button commands they issue
 * (`WebDriver::buttonDown`, `WebDriver::buttonUp`).
 *
 * The element remembers the last button it pressed; releasing without
 * naming a button releases that one.
 */
module Gestures {
  import opened Wrappers
  import opened Values
  import opened Command
  import opened Errors
  import opened Driver
  import opened Locators
  import opened Elements

  /** The protocol's button numbers. */
  const ButtonLeft: Value := Int(0)
  const ButtonRight: Value := Int(2)

  const MoveToPath: string := "moveto"

  function ButtonDownCmd(btn: Value): Cmd {
    Build("buttondown", POST, map["button" := btn])
  }

  function ButtonUpCmd(btn: Value): Cmd {
    Build("buttonup", POST, map["button" := btn])
  }

  /** The `moveto` parameters: the target's id as a decimal string, and the
      offsets as integers when an x offset is given (a missing y offset is 0). */
  function MoveParams(targetId: int, xoffset: Value, yoffset: Value): (p: map<string, Value>)
    ensures xoffset == Null ==> p.Keys == {"element"}
    ensures xoffset != Null ==>
              && p.Keys == {"element", "xoffset", "yoffset"}
              && p["xoffset"] == Int(IntVal(xoffset))
              && p["yoffset"] == Int(IntVal(yoffset))
    ensures yoffset == Null && xoffset != Null ==> p["yoffset"] == Int(0)
    ensures p["element"].Str? && IntVal(p["element"]) == targetId
  {
    IntToStringRoundTrip(targetId);
    var p := map["element" := Str(IntToString(targetId))];
    if xoffset == Null then p
    else p["xoffset" := Int(IntVal(xoffset))]["yoffset" := Int(IntVal(yoffset))]
  }

  /** The `moveto` command element `id` sends towards target `targetId`. */
  function MoveCmd(id: int, targetId: int, xoffset: Value, yoffset: Value): Cmd {
    ElementCmd(MoveToPath, POST, MoveParams(targetId, xoffset, yoffset), id)
  }

  /** The outcome of a gesture that may involve a second element. */
  datatype Moved = Moved(el: Element, target: Option<Element>, res: Result<(), Error>, log: seq<Cmd>)

  /** `moveto`: the target (this element when none is given) is resolved
      first, for its id; then `moveto` is sent as this element's command. */
  function MoveTo(srv: Server, el: Element, target: Option<Element>, log: seq<Cmd>,
                  xoffset: Value, yoffset: Value): (o: Moved)
    ensures Evolves(el, o.el) && o.el == el.(elementId := o.el.elementId)
    ensures o.target.Some? <==> target.Some?
    ensures target.Some? ==> Evolves(target.value, o.target.value)
                             && o.target.value == target.value.(elementId := o.target.value.elementId)
    ensures o.res.Ok? ==> o.el.elementId.Some? && (target.Some? ==> o.target.value.elementId.Some?)
    ensures el.elementId.Some? && target.None? ==>
              && o.el == el
              && o.log == log + [MoveCmd(el.elementId.value, el.elementId.value, xoffset, yoffset)]
    ensures el.elementId.Some? && target.Some? && target.value.elementId.Some? ==>
              && o.el == el
              && o.target == target
              && o.log == log + [MoveCmd(el.elementId.value, target.value.elementId.value, xoffset, yoffset)]
  {
    match target
    case Some(t) =>
      var r := Resolve(srv, t, log);
      (match r.res
       case Err(e) => Moved(el, Some(r.el), Err(e), r.log)
       case Ok(targetId) =>
         var s := Elements.SendForEffect(srv, el, r.log, MoveToPath, POST, MoveParams(targetId, xoffset, yoffset));
         Moved(s.el, Some(r.el), s.res, s.log))
    case None =>
      var r := Resolve(srv, el, log);
      match r.res
      case Err(e) => Moved(r.el, None, Err(e), r.log)
      case Ok(id) =>
        var s := Elements.SendForEffect(srv, r.el, r.log, MoveToPath, POST, MoveParams(id, xoffset, yoffset));
        Moved(s.el, None, s.res, s.log)
  }

  /** The element `moveto` resolves for the target id: the target when one
      is given, otherwise this element. */
  function MoveTarget(el: Element, target: Option<Element>): Element {
    if target.Some? then target.value else el
  }

  /** `moveto` resolves its target before it sends anything on this
      element's behalf. A failed resolution ends the call with that error
      and nothing more sent (and, with a separate target, this element
      untouched); a successful call ends with the `moveto` command from this
      element naming the id the resolution produced. */
  lemma MoveToResolvesFirst(srv: Server, el: Element, target: Option<Element>, log: seq<Cmd>,
                            xoffset: Value, yoffset: Value)
    ensures var r := Resolve(srv, MoveTarget(el, target), log);
            var o := MoveTo(srv, el, target, log, xoffset, yoffset);
            && r.log <= o.log
            && (target.Some? ==> o.target == Some(r.el))
            && (r.res.Err? ==> && o.res == Err(r.res.error)
                               && o.log == r.log
                               && (target.Some? ==> o.el == el))
            && (o.res.Ok? ==> && r.res.Ok?
                              && o.el.elementId.Some?
                              && |o.log| > |r.log|
                              && o.log[|o.log| - 1] == MoveCmd(o.el.elementId.value, r.res.value, xoffset, yoffset))
  {
  }

  /** `buttonDown`: the element's size is read, the mouse is moved onto the
      element, the button is pressed, and only then is it remembered. */
  function ButtonDown(srv: Server, el: Element, log: seq<Cmd>, btn: Value): (o: Out<()>)
    ensures Evolves(el, o.el) && o.el.tagName == el.tagName
    ensures o.res.Ok? ==> o.el.buttonDown == btn && o.el.elementId.Some?
    ensures o.res.Err? ==> o.el.buttonDown == el.buttonDown
  {
    var z := Size(srv, el, log);
    match z.res
    case Err(e) => Out(z.el, Err(e), z.log)
    case Ok(_) =>
      var m := MoveTo(srv, z.el, None, z.log, Null, Null);
      match m.res
      case Err(e) => Out(m.el, Err(e), m.log)
      case Ok(_) =>
        var d := Driver.SendForEffect(srv, m.log, ButtonDownCmd(btn));
        match d.res
        case Err(e) => Out(m.el, Err(e), d.log)
        case Ok(_) => Out(m.el.(buttonDown := btn), Ok(()), d.log)
  }

  /** The button `buttonUp` releases: the one named when it is PHP-truthy,
      otherwise the one remembered. */
  function ReleasedButton(el: Element, btn: Value): (r: Value)
    ensures r == btn || r == el.buttonDown
    ensures Truthy(btn) ==> r == btn
    ensures btn == ButtonLeft || btn == Null ==> r == el.buttonDown
  {
    if Truthy(btn) then btn else el.buttonDown
  }

  /** `buttonUp`: one `buttonup` command for the released button; on success
      the element forgets its pressed button. Nothing is resolved. */
  function ButtonUp(srv: Server, el: Element, log: seq<Cmd>, btn: Value): (o: Out<()>)
    ensures o.el == el.(buttonDown := o.el.buttonDown)
    ensures o.log == log + [ButtonUpCmd(ReleasedButton(el, btn))]
    ensures o.res.Ok? ==> o.el.buttonDown == Null
    ensures o.res.Err? ==> o.el == el
    ensures Truthy(btn) ==> o.log[|log|].params["button"] == btn
    ensures !Truthy(btn) ==> o.log[|log|].params["button"] == el.buttonDown
  {
    var d := Driver.SendForEffect(srv, log, ButtonUpCmd(ReleasedButton(el, btn)));
    match d.res
    case Err(e) => Out(el, Err(e), d.log)
    case Ok(_) => Out(el.(buttonDown := Null), Ok(()), d.log)
  }

  /** `ceil($w / 2)` for an integer `w`: the least integer whose double is
      at least `w`. */
  function CeilHalf(w: int): (r: int)
    ensures 2 * r >= w && 2 * r <= w + 1
  {
    (w + 1) / 2
  }

  /** The drop point along one axis: the offset from the target's centre,
      the centre rounded up as `ceil($extent / 2)` rounds it. */
  function DropOffset(offset: int, extent: Value): Value {
    Int(offset + CeilHalf(IntVal(extent)))
  }

  /** The second half of `dragAndDrop`: press the left button on this
      element, move to the drop point relative to the target (this element
      when none is given), release. */
  function PressMoveRelease(srv: Server, el: Element, target: Option<Element>, log: seq<Cmd>,
                            dx: Value, dy: Value): (o: Moved)
    ensures Evolves(el, o.el)
    ensures o.target.Some? <==> target.Some?
    ensures target.Some? ==> Evolves(target.value, o.target.value)
    ensures o.res.Ok? ==> o.el.buttonDown == Null && o.el.elementId.Some?
    ensures o.res.Ok? && target.Some? ==> o.target.value.elementId.Some?
  {
    var d := ButtonDown(srv, el, log, ButtonLeft);
    match d.res
    case Err(e) => Moved(d.el, target, Err(e), d.log)
    case Ok(_) =>
      var m := MoveTo(srv, d.el, target, d.log, dx, dy);
      match m.res
      case Err(e) => Moved(m.el, m.target, Err(e), m.log)
      case Ok(_) =>
        var u := ButtonUp(srv, m.el, m.log, Null);
        Moved(u.el, m.target, u.res, u.log)
  }

  /** Press, move and release are three separate calls, and the first
      failure stops the sequence. A failed press leaves the outcome of
      `buttonDown`; a failed move after a successful press leaves the left
      button remembered as pressed, and no `buttonup` is sent. */
  lemma PressMoveReleaseStops(srv: Server, el: Element, target: Option<Element>, log: seq<Cmd>,
                              dx: Value, dy: Value)
    ensures var d := ButtonDown(srv, el, log, ButtonLeft);
            var o := PressMoveRelease(srv, el, target, log, dx, dy);
            && (d.res.Err? ==> o.res == Err(d.res.error) && o.el == d.el && o.log == d.log)
            && (d.res.Ok? ==>
                  var m := MoveTo(srv, d.el, target, d.log, dx, dy);
                  m.res.Err? ==> && o.res == Err(m.res.error)
                                 && o.el.buttonDown == ButtonLeft
                                 && o.log == m.log)
  {
  }

  /** `dragAndDrop`: the size of the drop target (this element when none is
      given) is read first; then the left button is pressed on this element,
      the mouse moves to the offsets from the target's centre, and the button
      is released. */
  function DragAndDrop(srv: Server, el: Element, target: Option<Element>, log: seq<Cmd>,
                       xoffset: int, yoffset: int): (o: Moved)
    ensures Evolves(el, o.el)
    ensures o.target.Some? <==> target.Some?
    ensures target.Some? ==> Evolves(target.value, o.target.value)
    ensures o.res.Ok? ==> o.el.buttonDown == Null && o.el.elementId.Some?
    ensures o.res.Ok? && target.Some? ==> o.target.value.elementId.Some?
  {
    match target
    case None =>
      var z := Size(srv, el, log);
      (match z.res
       case Err(e) => Moved(z.el, None, Err(e), z.log)
       case Ok(size) =>
         PressMoveRelease(srv, z.el, None, z.log, DropOffset(xoffset, size.width), DropOffset(yoffset, size.height)))
    case Some(t) =>
      var z := Size(srv, t, log);
      match z.res
      case Err(e) => Moved(el, Some(z.el), Err(e), z.log)
      case Ok(size) =>
        PressMoveRelease(srv, el, Some(z.el), z.log, DropOffset(xoffset, size.width), DropOffset(yoffset, size.height))
  }

  /** A release without a button releases the button last pressed on the
      element. */
  lemma {:induction false} PressThenRelease(srv: Server, el: Element, log: seq<Cmd>, btn: Value)
    ensures var d := ButtonDown(srv, el, log, btn);
            d.res.Ok? ==>
              var u := ButtonUp(srv, d.el, d.log, Null);
              && u.log == d.log + [ButtonUpCmd(btn)]
              && (u.res.Ok? ==> u.el.buttonDown == Null)
  {
  }

  /** `WebDriver::BUTTON_LEFT` is 0, which PHP reads as false: releasing the
      left button by name releases the remembered button instead. */
  lemma LeftButtonByNameIsIgnored(srv: Server, el: Element, log: seq<Cmd>)
    ensures ButtonUp(srv, el, log, ButtonLeft) == ButtonUp(srv, el, log, Null)
    ensures el.buttonDown == ButtonRight ==>
              ButtonUp(srv, el, log, ButtonLeft).log == log + [ButtonUpCmd(ButtonRight)]
  {
  }

  /** Dragging a resolved element by an offset from its own centre sends
      exactly: size (for the centre), size and a bare `moveto` (from the
      press), `buttondown 0`, `moveto` with the offsets, `buttonup 0`. */
  lemma DragOnSelf(srv: Server, el: Element, log: seq<Cmd>, xoffset: int, yoffset: int)
    requires el.elementId.Some?
    ensures var o := DragAndDrop(srv, el, None, log, xoffset, yoffset);
            var id := el.elementId.value;
            var sizeCmd := ElementCmd(SizePath, GET, map[], id);
            var value := Index(srv(log, sizeCmd).body, "value");
            var dx := DropOffset(xoffset, Index(value, "width"));
            var dy := DropOffset(yoffset, Index(value, "height"));
            o.res.Ok? ==>
              && o.el == el.(buttonDown := Null)
              && o.log == log + [sizeCmd, sizeCmd, MoveCmd(id, id, Null, Null), ButtonDownCmd(ButtonLeft),
                                 MoveCmd(id, id, dx, dy), ButtonUpCmd(ButtonLeft)]
  {
    var id := el.elementId.value;
    var sizeCmd := ElementCmd(SizePath, GET, map[], id);
    var z := Size(srv, el, log);
    assert z.el == el && z.log == log + [sizeCmd];
    assert z.log[..|z.log| - 1] == log && z.log[|z.log| - 1] == sizeCmd;
    if z.res.Ok? {
      var dx := DropOffset(xoffset, z.res.value.width);
      var dy := DropOffset(yoffset, z.res.value.height);
      PressMoveReleaseOnSelf(srv, el, z.log, dx, dy);
      var p := PressMoveRelease(srv, el, None, z.log, dx, dy);
      if p.res.Ok? {
        AppendSteps(log, sizeCmd, sizeCmd, MoveCmd(id, id, Null, Null), ButtonDownCmd(ButtonLeft),
                    MoveCmd(id, id, dx, dy), ButtonUpCmd(ButtonLeft));
      }
    }
  }

  /** Press, move and release on a resolved element, without a target. */
  lemma PressMoveReleaseOnSelf(srv: Server, el: Element, log: seq<Cmd>, dx: Value, dy: Value)
    requires el.elementId.Some?
    ensures var o := PressMoveRelease(srv, el, None, log, dx, dy);
            var id := el.elementId.value;
            o.res.Ok? ==>
              && o.el == el.(buttonDown := Null)
              && o.log == log + [ElementCmd(SizePath, GET, map[], id), MoveCmd(id, id, Null, Null),
                                 ButtonDownCmd(ButtonLeft)] + [MoveCmd(id, id, dx, dy)] + [ButtonUpCmd(ButtonLeft)]
  {
    PressOnResolved(srv, el, log, ButtonLeft);
  }

  /** Dragging a resolved element onto a resolved target reads the
      target's size for the drop point, and the final `moveto` names the
      target while it is still sent as the dragged element's command. */
  lemma DragOntoTarget(srv: Server, el: Element, target: Element, log: seq<Cmd>, xoffset: int, yoffset: int)
    requires el.elementId.Some? && target.elementId.Some?
    ensures var o := DragAndDrop(srv, el, Some(target), log, xoffset, yoffset);
            var id := el.elementId.value;
            var tid := target.elementId.value;
            var sizeCmd := ElementCmd(SizePath, GET, map[], tid);
            var value := Index(srv(log, sizeCmd).body, "value");
            var dx := DropOffset(xoffset, Index(value, "width"));
            var dy := DropOffset(yoffset, Index(value, "height"));
            o.res.Ok? ==>
              && o.el == el.(buttonDown := Null)
              && o.target == Some(target)
              && o.log == log + [sizeCmd, ElementCmd(SizePath, GET, map[], id), MoveCmd(id, id, Null, Null),
                                 ButtonDownCmd(ButtonLeft), MoveCmd(id, tid, dx, dy), ButtonUpCmd(ButtonLeft)]
  {
    var id := el.elementId.value;
    var tid := target.elementId.value;
    var sizeCmd := ElementCmd(SizePath, GET, map[], tid);
    var z := Size(srv, target, log);
    assert z.el == target && z.log == log + [sizeCmd];
    assert z.log[..|z.log| - 1] == log && z.log[|z.log| - 1] == sizeCmd;
    if z.res.Ok? {
      var dx := DropOffset(xoffset, z.res.value.width);
      var dy := DropOffset(yoffset, z.res.value.height);
      PressMoveReleaseOnto(srv, el, target, z.log, dx, dy);
      var p := PressMoveRelease(srv, el, Some(target), z.log, dx, dy);
      if p.res.Ok? {
        AppendSteps(log, sizeCmd, ElementCmd(SizePath, GET, map[], id), MoveCmd(id, id, Null, Null),
                    ButtonDownCmd(ButtonLeft), MoveCmd(id, tid, dx, dy), ButtonUpCmd(ButtonLeft));
      }
    }
  }

  /** Press, move and release on a resolved element towards a resolved target. */
  lemma PressMoveReleaseOnto(srv: Server, el: Element, target: Element, log: seq<Cmd>, dx: Value, dy: Value)
    requires el.elementId.Some? && target.elementId.Some?
    ensures var o := PressMoveRelease(srv, el, Some(target), log, dx, dy);
            var id := el.elementId.value;
            o.res.Ok? ==>
              && o.el == el.(buttonDown := Null)
              && o.target == Some(target)
              && o.log == log + [ElementCmd(SizePath, GET, map[], id), MoveCmd(id, id, Null, Null),
                                 ButtonDownCmd(ButtonLeft)] + [MoveCmd(id, target.elementId.value, dx, dy)]
                          + [ButtonUpCmd(ButtonLeft)]
  {
    PressOnResolved(srv, el, log, ButtonLeft);
  }

  /** Pressing on a resolved element sends exactly its size request, a
      bare `moveto` onto it, and the button press. */
  lemma PressOnResolved(srv: Server, el: Element, log: seq<Cmd>, btn: Value)
    requires el.elementId.Some?
    ensures var o := ButtonDown(srv, el, log, btn);
            var id := el.elementId.value;
            o.res.Ok? ==>
              && o.el == el.(buttonDown := btn)
              && o.log == log + [ElementCmd(SizePath, GET, map[], id), MoveCmd(id, id, Null, Null), ButtonDownCmd(btn)]
  {
  }

  /** Steps appended one after another form one contiguous run. */
  lemma AppendSteps<T>(log: seq<T>, a: T, b: T, c: T, d: T, e: T, f: T)
    ensures log + [a] + [b, c, d] + [e] + [f] == log + [a, b, c, d, e, f]
  {
  }
}
