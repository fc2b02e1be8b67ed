/** Values that the three services keep in their in-memory records and read
    from parsed JSON request bodies. */
module Values {

  datatype Option<+T> = None | Some(value: T)

  /** A primitive JavaScript value. `Undefined` is what reading a missing
      property yields; it is also what a record stores under a key that was
      copied from a request body that lacked it. */
  datatype Value = Undefined | Null | Bool(b: bool) | Num(n: int) | Str(s: string)

  /** A plain object: property names to values. */
  type Record = map<string, Value>

  /** Property access `r.key`. */
  function Get(r: Record, key: string): Value
  {
    if key in r then r[key] else Undefined
  }

  /** Object spread `{ ...base, ...patch }`: the keys of both, where a key of
      the patch overrides the same key of the base. */
  function Merge(base: Record, patch: Record): (r: Record)
    ensures r.Keys == base.Keys + patch.Keys
    ensures forall k :: k in patch ==> Get(r, k) == Get(patch, k)
    ensures forall k :: k !in patch ==> Get(r, k) == Get(base, k)
  {
    base + patch
  }
}
