/**
 * `WebDriver_Element::waitDisplayed`: ask whether the element is displayed,
 * up to 30 times, and give up with an exception when it never is. The
 * one-second pause between attempts is not modelled; the server's history
 * argument is what lets its answer change from one attempt to the next.
 */
module Polling {
  import opened Wrappers
  import opened Values
  import opened Command
  import opened Errors
  import opened Driver
  import opened Locators
  import opened Elements

  /** The number of attempts the PHP code's loop makes. */
  const MaxPolls: nat := 30

  /** How many `displayed` queries a log holds. */
  function Displays(log: seq<Cmd>): nat {
    if |log| == 0 then 0
    else Displays(log[..|log| - 1]) + (if log[|log| - 1].path == DisplayedPath then 1 else 0)
  }

  lemma DisplaysAppend(log: seq<Cmd>, c: Cmd)
    ensures Displays(log + [c]) == Displays(log) + (if c.path == DisplayedPath then 1 else 0)
  {
    assert (log + [c])[..|log|] == log;
  }

  /** A find request is never mistaken for a `displayed` query: the find
      paths end in `element`, the query path in `displayed`. */
  lemma FindIsNotDisplayed(parentId: Option<int>)
    ensures FindPath(parentId) != DisplayedPath
  {
    var p := FindPath(parentId);
    assert p[|p| - 1] == 't';
    assert DisplayedPath[|DisplayedPath| - 1] == 'd';
  }

  /** One `isDisplayed` call asks at most one `displayed` query, asks exactly
      one when it succeeds, and sends at most one find before it. It never
      fails with the timeout error. */
  lemma OneQuery(srv: Server, el: Element, log: seq<Cmd>)
    ensures var d := IsDisplayed(srv, el, log);
            && Displays(log) <= Displays(d.log) <= Displays(log) + 1
            && (d.res.Ok? ==> Displays(d.log) == Displays(log) + 1)
            && |d.log| <= |log| + (if el.elementId.Some? then 1 else 2)
            && (d.res.Err? ==> !d.res.error.NotDisplayed?)
  {
    var d := IsDisplayed(srv, el, log);
    var r := Resolve(srv, el, log);
    if el.elementId.Some? {
      DisplaysAppend(log, ElementCmd(DisplayedPath, GET, map[], el.elementId.value));
    } else if Parse(el.locator).Ok? {
      var find := FindCmd(el.parentId, Parse(el.locator).value);
      FindIsNotDisplayed(el.parentId);
      DisplaysAppend(log, find);
      if r.res.Ok? {
        var c := ElementCmd(DisplayedPath, GET, map[], r.res.value);
        assert d.log == r.log + [c];
        DisplaysAppend(r.log, c);
      } else {
        assert d.log == r.log;
      }
    } else {
      assert d.log == log;
    }
  }

  /** The last command of `log` asked whether element `id` is displayed,
      and the server answered with a truthy value. */
  predicate ShownLast(srv: Server, id: int, log: seq<Cmd>) {
    && |log| > 0
    && log[|log| - 1] == ElementCmd(DisplayedPath, GET, map[], id)
    && Truthy(Index(srv(log[..|log| - 1], log[|log| - 1]).body, "value"))
  }

  /** When the first `isDisplayed` answers true, the outcome is that
      answer's, with nothing more sent. */
  predicate StopsWhenShown(srv: Server, el: Element, log: seq<Cmd>, o: Out<()>) {
    var d := IsDisplayed(srv, el, log);
    d.res == Ok(true) ==> o == Out(d.el, Ok(()), d.log)
  }

  /** The loop of `waitDisplayed` with `attempts` rounds left: an error from
      the query ends it, a truthy answer ends it successfully, and running
      out of rounds ends it with the timeout error. */
  function Poll(srv: Server, el: Element, log: seq<Cmd>, attempts: nat): (o: Out<()>)
    ensures Evolves(el, o.el) && o.el == el.(elementId := o.el.elementId)
    ensures Displays(log) <= Displays(o.log) <= Displays(log) + attempts
    ensures |o.log| <= |log| + attempts + (if el.elementId.Some? then 0 else 1)
    ensures o.res.Err? && o.res.error.NotDisplayed? ==>
              && o.res.error == NotDisplayed(el.locator)
              && Displays(o.log) == Displays(log) + attempts
    ensures o.res.Ok? ==>
              && attempts > 0
              && o.el.elementId.Some?
              && |o.log| > |log|
              && ShownLast(srv, o.el.elementId.value, o.log)
    ensures attempts > 0 ==> StopsWhenShown(srv, el, log, o)
    decreases attempts
  {
    if attempts == 0 then Out(el, Err(NotDisplayed(el.locator)), log)
    else
      OneQuery(srv, el, log);
      var d := IsDisplayed(srv, el, log);
      match d.res
      case Err(e) => Out(d.el, Err(e), d.log)
      case Ok(shown) =>
        if shown then Out(d.el, Ok(()), d.log)
        else Poll(srv, d.el, d.log, attempts - 1)
  }

  /** `waitDisplayed`. */
  function WaitDisplayed(srv: Server, el: Element, log: seq<Cmd>): (o: Out<()>)
    ensures Displays(o.log) <= Displays(log) + MaxPolls
    ensures o.res.Err? && o.res.error.NotDisplayed? ==> Displays(o.log) == Displays(log) + MaxPolls
    ensures IsDisplayed(srv, el, log).res == Ok(true) ==>
              o == Out(IsDisplayed(srv, el, log).el, Ok(()), IsDisplayed(srv, el, log).log)
  {
    Poll(srv, el, log, MaxPolls)
  }

  /** `waitDisplayed` as the PHP code writes it: a counted loop that returns on
      the first truthy answer, lets an exception through, and throws the
      timeout error after the last round. */
  method WaitDisplayedLoop(srv: Server, el: Element, log: seq<Cmd>) returns (o: Out<()>)
    ensures o == WaitDisplayed(srv, el, log)
  {
    var cur := el;
    var curLog := log;
    var i := 0;
    while i < MaxPolls
      invariant 0 <= i <= MaxPolls
      invariant Poll(srv, cur, curLog, MaxPolls - i) == Poll(srv, el, log, MaxPolls)
    {
      var d := IsDisplayed(srv, cur, curLog);
      if d.res.Err? {
        return Out(d.el, Err(d.res.error), d.log);
      }
      if d.res.value {
        return Out(d.el, Ok(()), d.log);
      }
      cur, curLog := d.el, d.log;
      i := i + 1;
    }
    return Out(cur, Err(NotDisplayed(cur.locator)), curLog);
  }

  /** The server keeps answering that the element is hidden, whatever has
      been sent before. */
  predicate HiddenAfter(srv: Server, history: seq<Cmd>, c: Cmd) {
    Curl(c, srv(history, c)).Ok? && !Truthy(Index(srv(history, c).body, "value"))
  }

  /** `n` copies of one command. */
  function Repeat(c: Cmd, n: nat): (r: seq<Cmd>)
    ensures |r| == n && forall i :: 0 <= i < n ==> r[i] == c
  {
    if n == 0 then [] else Repeat(c, n - 1) + [c]
  }

  lemma RepeatCons(c: Cmd, n: nat)
    requires n > 0
    ensures [c] + Repeat(c, n - 1) == Repeat(c, n)
  {
  }

  /** One round against a hidden resolved element: the query is sent, the
      answer is falsy, and the next round starts from the longer log. */
  lemma HiddenRound(srv: Server, el: Element, log: seq<Cmd>, n: nat)
    requires el.elementId.Some? && n > 0
    requires HiddenAfter(srv, log, ElementCmd(DisplayedPath, GET, map[], el.elementId.value))
    ensures Poll(srv, el, log, n) ==
              Poll(srv, el, log + [ElementCmd(DisplayedPath, GET, map[], el.elementId.value)], n - 1)
  {
    var d := IsDisplayed(srv, el, log);
    assert d.res == Ok(false);
  }

  /** Against a server that never shows a resolved element, `n` rounds send
      exactly `n` identical queries and end with the timeout error. */
  lemma {:induction false} HiddenExhaustsRounds(srv: Server, el: Element, log: seq<Cmd>, n: nat)
    requires el.elementId.Some?
    requires forall h: seq<Cmd> :: HiddenAfter(srv, h, ElementCmd(DisplayedPath, GET, map[], el.elementId.value))
    ensures Poll(srv, el, log, n) ==
              Out(el, Err(NotDisplayed(el.locator)),
                  log + Repeat(ElementCmd(DisplayedPath, GET, map[], el.elementId.value), n))
    decreases n
  {
    var c := ElementCmd(DisplayedPath, GET, map[], el.elementId.value);
    if n > 0 {
      HiddenExhaustsRounds(srv, el, log + [c], n - 1);
      HiddenStep(srv, el, log, n);
    }
  }

  /** One more hidden round in front of rounds that time out. */
  lemma HiddenStep(srv: Server, el: Element, log: seq<Cmd>, n: nat)
    requires el.elementId.Some? && n > 0
    requires var c := ElementCmd(DisplayedPath, GET, map[], el.elementId.value);
             && HiddenAfter(srv, log, c)
             && Poll(srv, el, log + [c], n - 1) == Out(el, Err(NotDisplayed(el.locator)), log + [c] + Repeat(c, n - 1))
    ensures Poll(srv, el, log, n) ==
              Out(el, Err(NotDisplayed(el.locator)),
                  log + Repeat(ElementCmd(DisplayedPath, GET, map[], el.elementId.value), n))
  {
    var c := ElementCmd(DisplayedPath, GET, map[], el.elementId.value);
    HiddenRound(srv, el, log, n);
    RepeatShift(log, c, n - 1);
  }

  /** The server answers that the element is shown. */
  predicate ShownAfter(srv: Server, history: seq<Cmd>, c: Cmd) {
    Curl(c, srv(history, c)).Ok? && Truthy(Index(srv(history, c).body, "value"))
  }

  lemma RepeatShift(log: seq<Cmd>, c: Cmd, j: nat)
    ensures log + [c] + Repeat(c, j) == log + Repeat(c, j + 1)
  {
    RepeatCons(c, j + 1);
    assert log + [c] + Repeat(c, j) == log + ([c] + Repeat(c, j));
  }

  /** One round against a resolved element the server shows: the query is
      sent and the loop stops with success. */
  lemma ShownRound(srv: Server, el: Element, log: seq<Cmd>, n: nat)
    requires el.elementId.Some? && n > 0
    requires ShownAfter(srv, log, ElementCmd(DisplayedPath, GET, map[], el.elementId.value))
    ensures Poll(srv, el, log, n) ==
              Out(el, Ok(()), log + [ElementCmd(DisplayedPath, GET, map[], el.elementId.value)])
  {
    var d := IsDisplayed(srv, el, log);
    assert d.res == Ok(true);
  }

  /** Hidden rounds counted from one query later. */
  lemma HiddenShift(srv: Server, log: seq<Cmd>, c: Cmd, k: nat)
    requires k > 0
    requires forall j :: 0 <= j < k ==> HiddenAfter(srv, log + Repeat(c, j), c)
    ensures HiddenAfter(srv, log, c)
    ensures forall j :: 0 <= j < k - 1 ==> HiddenAfter(srv, log + [c] + Repeat(c, j), c)
  {
    assert log + Repeat(c, 0) == log;
    forall j | 0 <= j < k - 1
      ensures HiddenAfter(srv, log + [c] + Repeat(c, j), c)
    {
      RepeatShift(log, c, j);
    }
  }

  /** A resolved element that the server hides for the first `k` rounds and
      shows in round `k + 1`: polling with more than `k` rounds left stops
      right after that round, with success and exactly `k + 1` queries. */
  lemma {:induction false} ShownAfterRounds(srv: Server, el: Element, log: seq<Cmd>, k: nat, n: nat)
    requires el.elementId.Some? && k < n
    requires var c := ElementCmd(DisplayedPath, GET, map[], el.elementId.value);
             forall j :: 0 <= j < k ==> HiddenAfter(srv, log + Repeat(c, j), c)
    requires var c := ElementCmd(DisplayedPath, GET, map[], el.elementId.value);
             ShownAfter(srv, log + Repeat(c, k), c)
    ensures Poll(srv, el, log, n) ==
              Out(el, Ok(()), log + Repeat(ElementCmd(DisplayedPath, GET, map[], el.elementId.value), k + 1))
    decreases k
  {
    var c := ElementCmd(DisplayedPath, GET, map[], el.elementId.value);
    if k == 0 {
      ShownFirst(srv, el, log, n);
    } else {
      HiddenShift(srv, log, c, k);
      RepeatShift(log, c, k - 1);
      ShownAfterRounds(srv, el, log + [c], k - 1, n - 1);
      ShownStep(srv, el, log, k, n);
    }
  }

  /** A truthy first answer, with the log written as `k = 0` rounds. */
  lemma ShownFirst(srv: Server, el: Element, log: seq<Cmd>, n: nat)
    requires el.elementId.Some? && n > 0
    requires var c := ElementCmd(DisplayedPath, GET, map[], el.elementId.value);
             ShownAfter(srv, log + Repeat(c, 0), c)
    ensures Poll(srv, el, log, n) ==
              Out(el, Ok(()), log + Repeat(ElementCmd(DisplayedPath, GET, map[], el.elementId.value), 1))
  {
    var c := ElementCmd(DisplayedPath, GET, map[], el.elementId.value);
    assert log + Repeat(c, 0) == log;
    RepeatShift(log, c, 0);
    ShownRound(srv, el, log, n);
  }

  /** One hidden round in front of rounds that end shown. */
  lemma ShownStep(srv: Server, el: Element, log: seq<Cmd>, k: nat, n: nat)
    requires el.elementId.Some? && 0 < k < n
    requires var c := ElementCmd(DisplayedPath, GET, map[], el.elementId.value);
             && HiddenAfter(srv, log, c)
             && Poll(srv, el, log + [c], n - 1) == Out(el, Ok(()), log + [c] + Repeat(c, k))
    ensures Poll(srv, el, log, n) ==
              Out(el, Ok(()), log + Repeat(ElementCmd(DisplayedPath, GET, map[], el.elementId.value), k + 1))
  {
    var c := ElementCmd(DisplayedPath, GET, map[], el.elementId.value);
    HiddenRound(srv, el, log, n);
    RepeatShift(log, c, k);
  }

  /** So `waitDisplayed` returns on the first round whose answer is truthy. */
  lemma ShownInRound(srv: Server, el: Element, log: seq<Cmd>, k: nat)
    requires el.elementId.Some? && k < MaxPolls
    requires var c := ElementCmd(DisplayedPath, GET, map[], el.elementId.value);
             forall j :: 0 <= j < k ==> HiddenAfter(srv, log + Repeat(c, j), c)
    requires var c := ElementCmd(DisplayedPath, GET, map[], el.elementId.value);
             ShownAfter(srv, log + Repeat(c, k), c)
    ensures WaitDisplayed(srv, el, log).res == Ok(())
    ensures |WaitDisplayed(srv, el, log).log| == |log| + k + 1
  {
    ShownAfterRounds(srv, el, log, k, MaxPolls);
  }

  /** So `waitDisplayed` on a never-shown element gives up after exactly 30
      queries. */
  lemma HiddenTimesOut(srv: Server, el: Element, log: seq<Cmd>)
    requires el.elementId.Some?
    requires forall h: seq<Cmd> :: HiddenAfter(srv, h, ElementCmd(DisplayedPath, GET, map[], el.elementId.value))
    ensures WaitDisplayed(srv, el, log).res == Err(NotDisplayed(el.locator))
    ensures |WaitDisplayed(srv, el, log).log| == |log| + MaxPolls
  {
    HiddenExhaustsRounds(srv, el, log, MaxPolls);
  }
}
