/** The optional value used wherever the source returns `None` on failure, and `dict.get` with a default. */
module Wrappers {

  datatype Option<+T> = None | Some(value: T)

  /** `d.get(key, default)`: the stored value, or the default when the key is absent. */
  function GetOr<K, V>(d: map<K, V>, key: K, default: V): (v: V)
    ensures key in d ==> v == d[key]
    ensures key !in d ==> v == default
  {
    if key in d then d[key] else default
  }

}
