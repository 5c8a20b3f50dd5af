/**
 * Tag-dependent behaviour of an element (`WebDriver_Element::tagName`,
 * `value`, `clear`): the tag name is fetched once and cached in lower case,
 * and writing, reading and clearing dispatch on it over a closed set of
 * kinds.
 */
module ElementValues {
  import opened Wrappers
  import opened Values
  import opened Command
  import opened Errors
  import opened Driver
  import opened Locators
  import opened Elements

  /** The tag name is cached when it is set and PHP-truthy; a cached "" or
      "0" reads as not cached, and is fetched again. */
  predicate TagCached(el: Element) {
    el.tagName.Some? && Truthy(Str(el.tagName.value))
  }

  /** `tagName`: the cached name, or one `element/:id/name` request whose
      reply is lower-cased and stored. */
  function TagName(srv: Server, el: Element, log: seq<Cmd>): (o: Out<string>)
    ensures Evolves(el, o.el) && o.el.buttonDown == el.buttonDown
    ensures log <= o.log && |o.log| <= |log| + 2
    ensures TagCached(el) ==> o == Out(el, Ok(el.tagName.value), log)
    ensures !TagCached(el) && el.elementId.Some? ==>
              o.log == log + [ElementCmd(NamePath, GET, map[], el.elementId.value)]
    ensures !TagCached(el) && o.res.Ok? ==>
              && o.el.elementId.Some?
              && |o.log| > |log|
              && o.log[|o.log| - 1] == ElementCmd(NamePath, GET, map[], o.el.elementId.value)
              && o.res.value == Lower(ToStr(Index(srv(o.log[..|o.log| - 1], o.log[|o.log| - 1]).body, "value")))
    ensures !TagCached(el) && o.res.Ok? ==>
              && o.el.tagName == Some(o.res.value)
              && Lower(o.res.value) == o.res.value
              && o.el.elementId.Some?
    ensures o.res.Err? ==> o.el.tagName == el.tagName
  {
    if TagCached(el) then Out(el, Ok(el.tagName.value), log)
    else
      var s := Elements.SendForValue(srv, el, log, NamePath, GET);
      match s.res
      case Err(e) => Out(s.el, Err(e), s.log)
      case Ok(name) =>
        var tag := Lower(ToStr(name));
        LowerIdempotent(ToStr(name));
        Out(s.el.(tagName := Some(tag)), Ok(tag), s.log)
  }

  /** The three behaviours the tag selects. */
  datatype TagKind = TextField | SelectBox | OtherTag

  function KindOf(tag: string): TagKind {
    if tag == "input" || tag == "textarea" then TextField
    else if tag == "select" then SelectBox
    else OtherTag
  }

  const ValuePath: string := "element/:id/value"
  const ClearPath: string := "element/:id/clear"

  /** The locator of the option whose value attribute is `v`. */
  function OptionWithValue(v: string): string {
    "xpath=descendant::option[@value='" + v + "']"
  }

  const FirstOption: string := "xpath=descendant::option[1]"

  /** The parameters that type `v` into a text field: its string form as a
      one-element key sequence. */
  function TypeParams(v: Value): map<string, Value> {
    map["value" := List([Str(ToStr(v))])]
  }

  /** Clicks the child of `el` that `locator` selects; the child itself is
      not kept. */
  function ClickChild(srv: Server, el: Element, log: seq<Cmd>, locator: string): (o: Out<()>)
    ensures Evolves(el, o.el) && o.el == el.(elementId := o.el.elementId)
    ensures log <= o.log
    ensures el.elementId.Some? && Parse(locator).Ok? ==>
              var find := FindCmd(el.elementId, Parse(locator).value);
              && o.el == el
              && |log| < |o.log| <= |log| + 2
              && o.log[|log|] == find
              && (o.res.Ok? ==>
                    && |o.log| == |log| + 2
                    && o.log[|log| + 1] == ElementCmd(ClickPath, POST, map[], ElementIdOf(srv(log, find).body)))
  {
    var c := Child(srv, el, log, locator);
    match c.res
    case Err(e) => Out(c.el, Err(e), c.log)
    case Ok(option) =>
      var k := Click(srv, option, c.log);
      Out(c.el, k.res, k.log)
  }

  /** `value($v)` for a non-null `$v` (None: the element itself is returned),
      and `value()` (Some: the value read). */
  function ValueOp(srv: Server, el: Element, log: seq<Cmd>, v: Value): (o: Out<Option<Value>>)
    ensures Evolves(el, o.el)
    ensures log <= o.log
    ensures o.res.Ok? ==> (o.res.value.None? <==> v != Null)
  {
    var t := TagName(srv, el, log);
    match t.res
    case Err(e) => Out(t.el, Err(e), t.log)
    case Ok(tag) =>
      if v != Null then
        match KindOf(tag)
        case TextField =>
          var s := Elements.SendForEffect(srv, t.el, t.log, ValuePath, POST, TypeParams(v));
          Out(s.el, if s.res.Ok? then Ok(None) else Err(s.res.error), s.log)
        case SelectBox =>
          var s := ClickChild(srv, t.el, t.log, OptionWithValue(ToStr(v)));
          Out(s.el, if s.res.Ok? then Ok(None) else Err(s.res.error), s.log)
        case OtherTag => Out(t.el, Ok(None), t.log)
      else
        match KindOf(tag)
        case TextField =>
          var s := Attribute(srv, t.el, t.log, "value");
          Out(s.el, if s.res.Ok? then Ok(Some(s.res.value)) else Err(s.res.error), s.log)
        case SelectBox =>
          var s := ReadSelected(srv, t.el, t.log);
          Out(s.el, if s.res.Ok? then Ok(Some(s.res.value)) else Err(s.res.error), s.log)
        case OtherTag =>
          var s := Text(srv, t.el, t.log);
          Out(s.el, if s.res.Ok? then Ok(Some(s.res.value)) else Err(s.res.error), s.log)
  }

  /** The read branch for a select: a find sent as an element command with
      the select's own locator, then the `value` attribute of the element
      id that reply names. */
  function ReadSelected(srv: Server, el: Element, log: seq<Cmd>): (o: Out<Value>)
    ensures Evolves(el, o.el)
    ensures log <= o.log && |o.log| <= |log| + 3
    ensures el.elementId.Some? && Parse(el.locator).Ok? ==>
              var l := Parse(el.locator).value;
              var find := ElementCmd("element", POST, map["using" := Str(l.using), "value" := Str(l.value)],
                                     el.elementId.value);
              && |o.log| > |log|
              && o.log[|log|] == find
              && (o.res.Ok? ==>
                    var optionId := ElementIdOf(srv(log, find).body);
                    o.log == log + [find, ElementCmd("element/" + IntToString(optionId) + "/attribute/value",
                                                     GET, map[], el.elementId.value)])
  {
    match Parse(el.locator)
    case Err(e) => Out(el, Err(e), log)
    case Ok(l) =>
      var s := SendCommand(srv, el, log, "element", POST, map["using" := Str(l.using), "value" := Str(l.value)]);
      match s.res
      case Err(e) => Out(s.el, Err(e), s.log)
      case Ok(result) =>
        var optionId := ElementIdOf(result);
        Elements.SendForValue(srv, s.el, s.log, "element/" + IntToString(optionId) + "/attribute/value", GET)
  }

  /** `clear`: text fields get the clear command, a select gets its first
      option clicked, any other tag is left alone. */
  function Clear(srv: Server, el: Element, log: seq<Cmd>): (o: Out<()>)
    ensures Evolves(el, o.el)
    ensures log <= o.log
  {
    var t := TagName(srv, el, log);
    match t.res
    case Err(e) => Out(t.el, Err(e), t.log)
    case Ok(tag) =>
      match KindOf(tag)
      case TextField => Elements.SendForEffect(srv, t.el, t.log, ClearPath, POST, map[])
      case SelectBox => ClickChild(srv, t.el, t.log, FirstOption)
      case OtherTag => Out(t.el, Ok(()), t.log)
  }

  /** The option locator for a value is well formed: an XPath locator whose
      search text is everything after `xpath=`. */
  lemma OptionWithValueParses(v: string)
    ensures Parse(OptionWithValue(v)) == Ok(Locator("xpath", "descendant::option[@value='" + v + "']"))
  {
    var search := "descendant::option[@value='" + v + "']";
    assert "xpath=descendant::option[@value='" == "xpath" + "=" + "descendant::option[@value='";
    assert OptionWithValue(v) == "xpath" + "=" + search;
    ParseRoundTrip("xpath", search);
  }

  /** The first-option locator is well formed in the same way. */
  lemma FirstOptionParses()
    ensures Parse(FirstOption) == Ok(Locator("xpath", "descendant::option[1]"))
  {
    assert FirstOption == "xpath" + "=" + "descendant::option[1]";
    ParseRoundTrip("xpath", "descendant::option[1]");
  }

  /** The tag is fetched at most once: after a successful fetch of a
      non-empty name, asking again sends nothing and answers the same. */
  lemma TagNameCachedOnce(srv: Server, el: Element, log: seq<Cmd>)
    ensures var first := TagName(srv, el, log);
            first.res.Ok? && Truthy(Str(first.res.value)) ==>
              TagName(srv, first.el, first.log) == Out(first.el, first.res, first.log)
  {
  }

  /** Writing dispatches on the tag of a resolved element: a text field
      gets one `value` command carrying the text, a select gets a find for
      the option with that value under the select's id, any other tag gets
      nothing. */
  lemma WriteDispatch(srv: Server, el: Element, log: seq<Cmd>, v: Value)
    requires el.elementId.Some? && TagCached(el) && v != Null
    ensures var o := ValueOp(srv, el, log, v);
            var id := el.elementId.value;
            && (KindOf(el.tagName.value) == TextField ==>
                  && o.el == el
                  && o.log == log + [ElementCmd(ValuePath, POST, map["value" := List([Str(ToStr(v))])], id)])
            && (KindOf(el.tagName.value) == SelectBox ==>
                  && o.el == el
                  && |o.log| > |log|
                  && o.log[|log|] == FindCmd(el.elementId,
                                              Locator("xpath", "descendant::option[@value='" + ToStr(v) + "']")))
            && (KindOf(el.tagName.value) == OtherTag ==> o == Out(el, Ok(None), log))
  {
    OptionWithValueParses(ToStr(v));
  }

  /** Reading dispatches the same way: a text field's `value` attribute, the
      selected option's value for a select, the text of anything else. */
  lemma ReadDispatch(srv: Server, el: Element, log: seq<Cmd>)
    requires el.elementId.Some? && TagCached(el)
    ensures var o := ValueOp(srv, el, log, Null);
            var id := el.elementId.value;
            && (KindOf(el.tagName.value) == TextField ==>
                  o.log == log + [ElementCmd(AttributePath("value"), GET, map[], id)])
            && (KindOf(el.tagName.value) == OtherTag ==>
                  o.log == log + [ElementCmd(TextPath, GET, map[], id)])
            && (KindOf(el.tagName.value) == SelectBox && Parse(el.locator).Ok? ==>
                  o.log[|log|].path == "element" && o.log[|log|].boundId == Some(id))
            && (o.res.Ok? ==> o.res.value.Some?)
  {
  }

  /** Clearing: the clear command for a text field, a click on the first
      option for a select, nothing for any other tag. */
  lemma ClearDispatch(srv: Server, el: Element, log: seq<Cmd>)
    requires el.elementId.Some? && TagCached(el)
    ensures var o := Clear(srv, el, log);
            var id := el.elementId.value;
            && (KindOf(el.tagName.value) == TextField ==>
                  o.el == el && o.log == log + [ElementCmd(ClearPath, POST, map[], id)])
            && (KindOf(el.tagName.value) == SelectBox ==>
                  && o.el == el
                  && |o.log| > |log|
                  && o.log[|log|] == FindCmd(el.elementId, Locator("xpath", "descendant::option[1]")))
            && (KindOf(el.tagName.value) == OtherTag ==> o == Out(el, Ok(()), log))
  {
    FirstOptionParses();
  }
}
