/** The Redis commands the three services issue, on a key-value map whose entries may expire.
    Time is a logical clock; a store is kept purged, so every entry present is live. */
module TtlStore {

  datatype Option<+T> = None | Some(value: T)

  datatype Cell<V> = Cell(value: V, expiry: Option<nat>)

  type Store<K(==), V> = map<K, Cell<V>>

  predicate LiveAt<V>(cell: Cell<V>, now: nat)
  {
    cell.expiry.Some? ==> now < cell.expiry.value
  }

  /** go-redis sends no expiry option for a zero duration. */
  function Deadline(now: nat, ttl: nat): Option<nat>
  {
    if ttl == 0 then None else Some(now + ttl)
  }

  function Purge<K(==), V>(s: Store<K, V>, now: nat): Store<K, V>
  {
    map k | k in s && LiveAt(s[k], now) :: s[k]
  }

  /** SET key value [PX ttl] */
  function Set<K(==), V>(s: Store<K, V>, k: K, v: V, now: nat, ttl: nat): Store<K, V>
  {
    s[k := Cell(v, Deadline(now, ttl))]
  }

  /** SET key value [PX ttl] NX: the flag returned by the server is `k !in s`. */
  function SetNX<K(==), V>(s: Store<K, V>, k: K, v: V, now: nat, ttl: nat): Store<K, V>
  {
    if k in s then s else Set(s, k, v, now, ttl)
  }

  /** DEL key */
  function Del<K(==), V>(s: Store<K, V>, k: K): Store<K, V>
  {
    s - {k}
  }

  /** INCR key: an absent key counts from zero and has no expiry; a present one keeps its expiry. */
  function Incr<K(==)>(s: Store<K, int>, k: K): Store<K, int>
  {
    if k in s then s[k := Cell(s[k].value + 1, s[k].expiry)] else s[k := Cell(1, None)]
  }

  /** EXPIRE key d: ignored for an absent key; a zero delay deletes. */
  function Expire<K(==), V>(s: Store<K, V>, k: K, now: nat, d: nat): Store<K, V>
  {
    if k !in s then s else if d == 0 then s - {k} else s[k := Cell(s[k].value, Some(now + d))]
  }
}
