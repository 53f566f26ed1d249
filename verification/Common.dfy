/** Values shared by every component: optional values and log entries. */
module Common {

  datatype Option<+T> = None | Some(value: T)

  function Lookup<K, V>(m: map<K, V>, k: K): (r: Option<V>)
    ensures r.Some? <==> k in m
    ensures r.Some? ==> r.value == m[k]
  {
    if k in m then Some(m[k]) else None
  }

  function Max(a: nat, b: nat): (r: nat)
    ensures a <= r && b <= r && (r == a || r == b)
  {
    if a < b then b else a
  }

  lemma {:induction false} SubsetSize<T>(a: set<T>, b: set<T>)
    requires a <= b
    ensures |a| <= |b|
  {
    if a != {} {
      var x :| x in a;
      SubsetSize(a - {x}, b - {x});
    }
  }

  /** The value persisted for cursor `n` under an optional floor. */
  function Capped(n: nat, floor: Option<nat>): (r: nat)
    ensures r <= n
    ensures floor.Some? ==> r <= floor.value
    ensures r == n || (floor.Some? && r == floor.value)
  {
    if floor.Some? && floor.value < n then floor.value else n
  }

  /** Canonical primary-key bytes, the grouping key of an event. */
  type Key = string

  /** One entry of a partition: `sn` is its sequence number. */
  datatype Entry = Entry(sn: nat, key: Key, partition: nat)
}
