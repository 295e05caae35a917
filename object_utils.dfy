/** `objectHasElements`: whether an error object, possibly null or undefined,
    has any key. */
module ObjectUtils {

  /** A value that JavaScript may leave `null` or `undefined` (both `None`). */
  datatype Option<T> = None | Some(value: T)

  /** False for a missing object; otherwise whether `Object.keys` is non-empty. */
  function ObjectHasElements<V>(obj: Option<map<string, V>>): (b: bool)
    ensures obj.None? ==> !b
    ensures b <==> obj.Some? && exists k :: k in obj.value
    ensures obj.Some? ==> (b <==> obj.value != map[])
  {
    if obj.None? then false else |obj.value.Keys| > 0
  }

  /** Giving an object one more key makes it non-empty, whatever it held. */
  lemma AddedKeyHasElements<V>(m: map<string, V>, k: string, v: V)
    ensures ObjectHasElements(Some(m[k := v]))
  {
  }
}
