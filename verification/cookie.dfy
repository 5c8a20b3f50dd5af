/**
 * The cookie facade (`WebDriver_Object_Cookie`): reading is one request plus
 * a client-side filter; writing and deleting are one request each.
 */
module Cookies {
  import opened Wrappers
  import opened Values
  import opened Command
  import opened Errors
  import opened Driver

  function ListCmd(): Cmd {
    Build("cookie", GET, map[])
  }

  function SetCmd(name: Value, value: Value): Cmd {
    Build("cookie", POST,
          map["cookie" := Obj(map["name" := name, "value" := Str(ToStr(value)), "secure" := Bool(false)])])
  }

  function DeleteCmd(name: Value): Cmd {
    Build("cookie/" + ToStr(name), DELETE, map[])
  }

  function ClearAllCmd(): Cmd {
    Build("cookie", DELETE, map[])
  }

  /** The filter's test `$item['name'] == $name`. */
  predicate Named(item: Value, name: Value) {
    Index(item, "name") == Str(ToStr(name))
  }

  /** The first cookie, in server order, that has the name. */
  function FirstNamed(items: seq<Value>, name: Value): (r: Option<Value>)
    decreases |items|
  {
    if |items| == 0 then None
    else if Named(items[0], name) then Some(items[0])
    else FirstNamed(items[1..], name)
  }

  /** `array_values(array_filter(...))[0]`, or null when nothing matches. */
  function Pick(value: Value, name: Value): Value {
    if value.List? then
      match FirstNamed(value.items, name)
      case Some(c) => c
      case None => Null
    else Null
  }

  /** `get`: the whole list for a falsy name, otherwise the first cookie
      with that name, or null. */
  function Get(srv: Server, log: seq<Cmd>, name: Value): (r: Sent<Value>)
    ensures r.log == log + [ListCmd()]
    ensures r.res.Ok? <==> Curl(ListCmd(), srv(log, ListCmd())).Ok?
    ensures r.res.Ok? && !Truthy(name) ==> r.res.value == Index(srv(log, ListCmd()).body, "value")
    ensures r.res.Ok? && Truthy(name) ==> r.res.value == Pick(Index(srv(log, ListCmd()).body, "value"), name)
  {
    var s := SendForValue(srv, log, ListCmd());
    match s.res
    case Err(e) => s
    case Ok(value) => if Truthy(name) then Sent(Ok(Pick(value, name)), s.log) else s
  }

  /** `set`: one `POST cookie` carrying the name, the value as a string and
      `secure` false. */
  function Set(srv: Server, log: seq<Cmd>, name: Value, value: Value): (r: Sent<()>)
    ensures r.log == log + [SetCmd(name, value)]
    ensures r.log[|log|].params["cookie"] ==
              Obj(map["name" := name, "value" := Str(ToStr(value)), "secure" := Bool(false)])
    ensures r.res.Ok? <==> Curl(SetCmd(name, value), srv(log, SetCmd(name, value))).Ok?
  {
    SendForEffect(srv, log, SetCmd(name, value))
  }

  /** `delete`: one `DELETE cookie/<name>`. */
  function Delete(srv: Server, log: seq<Cmd>, name: Value): (r: Sent<()>)
    ensures r.log == log + [DeleteCmd(name)]
    ensures r.log[|log|].verb == DELETE && r.log[|log|].path == "cookie/" + ToStr(name)
  {
    SendForEffect(srv, log, DeleteCmd(name))
  }

  /** `clearAll`: one `DELETE cookie`. */
  function ClearAll(srv: Server, log: seq<Cmd>): (r: Sent<()>)
    ensures r.log == log + [ClearAllCmd()]
    ensures r.log[|log|].verb == DELETE && r.log[|log|].path == "cookie"
  {
    SendForEffect(srv, log, ClearAllCmd())
  }

  /** `FirstNamed` finds a cookie exactly when one has the name, and the one
      it finds is the earliest. */
  lemma {:induction false} FirstNamedIsFirstMatch(items: seq<Value>, name: Value)
    ensures FirstNamed(items, name).None? <==> forall i :: 0 <= i < |items| ==> !Named(items[i], name)
    ensures FirstNamed(items, name).Some? ==>
              exists i :: 0 <= i < |items| && items[i] == FirstNamed(items, name).value
                          && Named(items[i], name)
                          && forall j :: 0 <= j < i ==> !Named(items[j], name)
    decreases |items|
  {
    if |items| > 0 && !Named(items[0], name) {
      FirstNamedIsFirstMatch(items[1..], name);
      if FirstNamed(items[1..], name).Some? {
        var i :| 0 <= i < |items[1..]| && items[1..][i] == FirstNamed(items[1..], name).value
                 && Named(items[1..][i], name)
                 && forall j :: 0 <= j < i ==> !Named(items[1..][j], name);
        assert items[i + 1] == items[1..][i];
        forall j | 0 <= j < i + 1
          ensures !Named(items[j], name)
        {
          if j > 0 { assert items[j] == items[1..][j - 1]; }
        }
      } else {
        forall i | 0 <= i < |items|
          ensures !Named(items[i], name)
        {
          if i > 0 { assert items[i] == items[1..][i - 1]; }
        }
      }
    }
  }

  /** Names PHP treats as false (`""`, `"0"`, null) read the whole list,
      just as no name does. */
  lemma FalsyNameReadsAll(srv: Server, log: seq<Cmd>, name: Value)
    requires name == Str("") || name == Str("0") || name == Null
    ensures Get(srv, log, name) == Get(srv, log, Null)
  {
  }

  /** A named read over a list yields a cookie with that name, and the
      earliest one, or null when the list has none. */
  lemma NamedReadPicksFirst(items: seq<Value>, name: Value)
    ensures Pick(List(items), name) == Null <==> forall i :: 0 <= i < |items| ==> !Named(items[i], name)
    ensures Pick(List(items), name) != Null ==>
              exists i :: 0 <= i < |items| && items[i] == Pick(List(items), name) && Named(items[i], name)
                          && forall j :: 0 <= j < i ==> !Named(items[j], name)
  {
    FirstNamedIsFirstMatch(items, name);
  }
}
