/** Shared vocabulary: optional values and the 32-bit integers of the API types. */
module Base {
  datatype Option<+T> = None | Some(value: T)

  const MIN_INT32: int := -0x8000_0000
  const MAX_INT32: int := 0x7fff_ffff

  type int32 = x: int | -0x8000_0000 <= x <= 0x7fff_ffff

  /** Two's complement truncation to 32 bits, as Go applies to int32 arithmetic. */
  function Wrap32(x: int): (r: int32)
    ensures MIN_INT32 <= x <= MAX_INT32 ==> r == x
    ensures (r - x) % 0x1_0000_0000 == 0
  {
    (x + 0x8000_0000) % 0x1_0000_0000 - 0x8000_0000
  }

  /** A map lookup that may miss. */
  function Look<K(==), V>(m: map<K, V>, k: K): Option<V> {
    if k in m then Some(m[k]) else None
  }

  /** Stores or removes the value of one key. */
  function Place<K(==,!new), V>(m: map<K, V>, k: K, v: Option<V>): (r: map<K, V>)
    ensures forall j :: Look(r, j) == if j == k then v else Look(m, j)
  {
    match v
    case Some(x) => m[k := x]
    case None => map j | j in m && j != k :: m[j]
  }
}
