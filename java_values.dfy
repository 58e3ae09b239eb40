/** The loosely typed values found in the `Map<String, Object>` bags that the
    workers and configurations receive. */
module JavaValues {

  /** The range of a Java `int`. */
  type Int32 = x: int | -0x8000_0000 <= x < 0x8000_0000

  /** The range of a Java `long`. */
  type Int64 = x: int | -0x8000_0000_0000_0000 <= x < 0x8000_0000_0000_0000

  /** A Java `Object` as it may appear as a map value: `null`, a `String`, a boxed
      `Integer` or `Long`, a nested `Map<String, Object>`, or any other object
      (a `Double`, a `Boolean`, a `List`, ...). */
  datatype Value =
    | Null
    | Str(s: string)
    | Int(i: Int32)
    | Long(l: Int64)
    | Obj(m: map<string, Value>)
    | Other

  /** What `map.get(key)` yields: `null` for an absent key. */
  function Get(bag: map<string, Value>, key: string): (v: Value)
    ensures key !in bag ==> v == Null
    ensures key in bag ==> v == bag[key]
  {
    if key in bag then bag[key] else Null
  }
}
