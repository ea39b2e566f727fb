/** Already-decoded JSON values, as the JSON codec hands them to this module.
    Numbers are kept as their literal text: no claim is made here about how the
    codec or the decimal converter reads them. `JNull` is Python's `None`. */
module Json {

  datatype Json =
    | JNull
    | JBool(b: bool)
    | JNum(literal: string)
    | JStr(s: string)
    | JArr(items: seq<Json>)
    | JObj(fields: map<string, Json>)

  /** `m.get(k) is not None`: the guard in front of every rewrite and every copy. */
  predicate IsSet(m: map<string, Json>, k: string)
  {
    k in m && !m[k].JNull?
  }
}
