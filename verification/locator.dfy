/**
 * Locator strings `<strategy>=<search>` and the find-element parameters
 * they become (`WebDriver_Element::parseLocator`).
 *
 * The PHP code builds a table from the client's short strategy names to the
 * protocol's strategy names, checks the prefix against it, and then sends
 * the short name anyway. `ParseAsWritten` is that code; `Parse` applies the
 * table, and is the parser the element model uses.
 */
module Locators {
  import opened Wrappers
  import opened Errors

  /** The find-element parameters `{using, value}`. */
  datatype Locator = Locator(using: string, value: string)

  /** Short strategy names accepted in a locator, and the protocol's name for each. */
  const StrategyNames: map<string, string> := map[
    "class" := "class name",
    "css" := "css selector",
    "id" := "id",
    "name" := "name",
    "link" := "link text",
    "partial_link" := "partial link text",
    "tag" := "tag name",
    "xpath" := "xpath"
  ]

  /** The position of the first occurrence of `c` in `s`. */
  function FirstIndexOf(s: string, c: char): (r: Option<nat>)
    ensures r.Some? ==> r.value < |s| && s[r.value] == c && forall j :: 0 <= j < r.value ==> s[j] != c
    ensures r.None? ==> forall j :: 0 <= j < |s| ==> s[j] != c
    decreases |s|
  {
    if |s| == 0 then None
    else if s[0] == c then Some(0)
    else match FirstIndexOf(s[1..], c)
      case Some(i) => Some(i + 1)
      case None => None
  }

  /** `explode('=', $locator, 2)` when it yields two parts: the text before
      the first `=` and everything after it. */
  function SplitAtFirstEquals(locator: string): (r: Option<(string, string)>)
    ensures r.None? <==> '=' !in locator
    ensures r.Some? ==> '=' !in r.value.0 && r.value.0 + "=" + r.value.1 == locator
  {
    match FirstIndexOf(locator, '=')
    case None => None
    case Some(i) =>
      assert locator == locator[..i] + "=" + locator[i + 1..];
      assert forall k :: 0 <= k < |locator[..i]| ==> locator[..i][k] == locator[k];
      Some((locator[..i], locator[i + 1..]))
  }

  /** `parseLocator` as the PHP code writes it: `using` is the short name. */
  function ParseAsWritten(locator: string): (r: Result<Locator, Error>)
    ensures '=' !in locator ==> r == Err(BadLocatorFormat(locator))
    ensures r.Ok? ==> && r.value.using in StrategyNames
                      && '=' !in r.value.using
                      && r.value.using + "=" + r.value.value == locator
    ensures r.Err? && '=' in locator ==>
              && r.error.UnknownStrategy?
              && r.error.locator == locator
              && r.error.strategy !in StrategyNames
              && '=' !in r.error.strategy
              && r.error.strategy + "=" <= locator
  {
    match SplitAtFirstEquals(locator)
    case None => Err(BadLocatorFormat(locator))
    case Some((strategy, search)) =>
      assert strategy + "=" <= locator by {
        assert locator == (strategy + "=") + search;
      }
      if strategy !in StrategyNames then Err(UnknownStrategy(strategy, locator))
      else Ok(Locator(strategy, search))
  }

  /** `parseLocator` with the strategy table applied: `using` is the
      protocol's name for the strategy. */
  function Parse(locator: string): (r: Result<Locator, Error>)
    ensures r.Ok? <==> ParseAsWritten(locator).Ok?
    ensures r.Err? ==> r == ParseAsWritten(locator)
    ensures r.Ok? ==> && r.value.using == StrategyNames[ParseAsWritten(locator).value.using]
                      && r.value.value == ParseAsWritten(locator).value.value
  {
    match ParseAsWritten(locator)
    case Err(e) => Err(e)
    case Ok(l) => Ok(Locator(StrategyNames[l.using], l.value))
  }

  /** The split is exact: any accepted strategy followed by `=` and any
      search text, later `=` included, parses back to those two parts. */
  lemma ParseAsWrittenRoundTrip(strategy: string, search: string)
    requires strategy in StrategyNames
    ensures ParseAsWritten(strategy + "=" + search) == Ok(Locator(strategy, search))
  {
    var locator := strategy + "=" + search;
    assert '=' !in strategy;
    assert locator[|strategy|] == '=';
    var split := SplitAtFirstEquals(locator);
    assert split.Some?;
    var (p, q) := split.value;
    assert p == strategy;
    assert q == search;
  }

  /** The corrected parser sends the protocol's strategy name, and the
      locator is recovered from the short name it stands for. */
  lemma ParseRoundTrip(strategy: string, search: string)
    requires strategy in StrategyNames
    ensures Parse(strategy + "=" + search) == Ok(Locator(StrategyNames[strategy], search))
    ensures Parse(strategy + "=" + search).value.using in StrategyNames.Values
  {
    ParseAsWrittenRoundTrip(strategy, search);
  }

  /** The strategies whose short name is already the protocol's name. */
  const SharedNames: set<string> := {"id", "name", "xpath"}

  /** The two parsers give the same answer exactly when the locator is
      rejected or its strategy is one whose short name is the protocol's
      name; for every other strategy only `using` differs. */
  lemma ParsersAgreeOnSharedNames(locator: string)
    ensures Parse(locator) == ParseAsWritten(locator) <==>
              ParseAsWritten(locator).Err? || ParseAsWritten(locator).value.using in SharedNames
  {
    var w := ParseAsWritten(locator);
    if w.Ok? {
      SharedNameIsProtocolName(w.value.using);
      assert Parse(locator) == Ok(Locator(StrategyNames[w.value.using], w.value.value));
    }
  }

  lemma SharedNameIsProtocolName(k: string)
    requires k in StrategyNames
    ensures StrategyNames[k] == k <==> k in SharedNames
  {
    if k == "class" {
    } else if k == "css" {
    } else if k == "link" {
    } else if k == "partial_link" {
    } else if k == "tag" {
    }
  }

  /** The PHP code's parser sends short names the protocol does not define:
      `css=.menu` asks the server for strategy `css`, which is not among the
      protocol's strategy names. */
  lemma AsWrittenSendsShortName()
    ensures ParseAsWritten("css=.menu") == Ok(Locator("css", ".menu"))
    ensures "css" !in StrategyNames.Values
  {
    ParseAsWrittenRoundTrip("css", ".menu");
    assert "css" + "=" + ".menu" == "css=.menu";
    forall k | k in StrategyNames
      ensures StrategyNames[k] != "css"
    {
    }
  }
}
