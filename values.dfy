/** Values that flow through a transaction: optional arguments, the entries
    of its `meta` mapping, and the arguments handed to callbacks. */
module Values {

  /** An optional argument; `None` is an argument left at its default. */
  datatype Option<+T> = None | Some(value: T)

  /** A value stored in a `meta` mapping or passed to a callback; `Nil` is
      the language's `None`. */
  datatype Value = Nil | Str(s: string) | Int(i: int) | Bool(b: bool)

  /** Truthiness of an optional string argument: `None` and `""` are false. */
  predicate Truthy(s: Option<string>): (b: bool)
    ensures b <==> s != None && s != Some("")
  {
    s.Some? && s.value != ""
  }

  /** A trace identifier as the registry's keys carry it: never empty. */
  type TraceIdText = s: string | s != "" witness "0"

  /** `dict.get(key, default)`: never fails, falls back to `default`. */
  function Get(m: map<string, Value>, key: string, default: Value): (v: Value)
    ensures key in m ==> v == m[key]
    ensures key !in m ==> v == default
  {
    if key in m then m[key] else default
  }

  /** A write followed by a read of the same key yields the written value;
      a read of any other key is unaffected by the write. */
  lemma GetAfterUpdate(m: map<string, Value>, key: string, value: Value, other: string, default: Value)
    ensures Get(m[key := value], key, default) == value
    ensures other != key ==> Get(m[key := value], other, default) == Get(m, other, default)
  {
  }
}
