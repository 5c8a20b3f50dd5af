/**
 * The client's settings store (`WebDriver_Config`): a keyed array that
 * starts with one default and rejects reads of keys that are not set.
 */
module Configuration {
  import opened Wrappers
  import opened Values
  import opened Errors

  datatype Config = Config(entries: map<string, Value>)

  /** Whether `WebDriver_Element::value()` trims text node values. */
  const TrimTextNodeValue: string := "trim_text_node_value"

  /** A fresh store, holding only the trim flag, set to true. */
  function Fresh(): (c: Config)
    ensures c.entries.Keys == {TrimTextNodeValue}
    ensures Get(c, TrimTextNodeValue) == Ok(Bool(true))
  {
    Config(map[TrimTextNodeValue := Bool(true)])
  }

  /** `get`: PHP's `isset` makes a key whose value is null count as unset. */
  function Get(c: Config, name: string): (r: Result<Value, Error>)
    ensures r.Ok? <==> name in c.entries && c.entries[name] != Null
    ensures r.Ok? ==> r.value == c.entries[name]
    ensures r.Err? ==> r.error == UnknownConfigParameter(name)
  {
    if name in c.entries && c.entries[name] != Null then Ok(c.entries[name])
    else Err(UnknownConfigParameter(name))
  }

  /** `set`: stores any value, null included. */
  function Set(c: Config, name: string, v: Value): (c': Config)
    ensures c'.entries.Keys == c.entries.Keys + {name}
    ensures c'.entries[name] == v
  {
    Config(c.entries[name := v])
  }

  /** A non-null value that was set is read back. */
  lemma GetAfterSet(c: Config, name: string, v: Value)
    requires v != Null
    ensures Get(Set(c, name, v), name) == Ok(v)
  {
  }

  /** Setting null makes the key unreadable, as if it had never been set. */
  lemma SetNullHidesKey(c: Config, name: string)
    ensures Get(Set(c, name, Null), name) == Err(UnknownConfigParameter(name))
  {
  }

  /** Setting one key leaves every other key's read as it was. */
  lemma SetLeavesOthers(c: Config, name: string, v: Value, other: string)
    requires other != name
    ensures Get(Set(c, name, v), other) == Get(c, other)
  {
  }

  /** A fresh store knows no key but the trim flag. */
  lemma FreshRejectsOthers(name: string)
    requires name != TrimTextNodeValue
    ensures Get(Fresh(), name) == Err(UnknownConfigParameter(name))
  {
  }
}
