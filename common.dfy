/**
 * Shared vocabulary of the claim registry model: identifiers, chunk
 * coordinates and an optional value standing in for Java's null.
 */
module Common {

  /** A player, party or other UUID. Only equality is ever used on them. */
  type Uuid = nat

  /** A chunk coordinate (chunkX, chunkZ) inside one dimension. */
  type Coord = (int, int)

  /** The absence of a value, where the source returns or stores null. */
  datatype Option<+T> = None | Some(value: T)

  /** Java's `Map.getOrDefault(k, d)`. */
  function GetOrDefault<K, V>(m: map<K, V>, k: K, d: V): (r: V)
    ensures k in m ==> r == m[k]
    ensures k !in m ==> r == d
  {
    if k in m then m[k] else d
  }
}
