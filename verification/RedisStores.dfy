/** The two repositories that live in Redis, over a client of the shared database. A ghost view of the database
    as three separate stores says what each call means; by SharedRedis every command keeps the view exact. */
module RedisStores {
  import opened Replies
  import opened TtlStore
  import opened SharedRedis
  import CacheAside

  /** go-redis, one atomic command per call. */
  class RedisClient {
    var db: Flat
    ghost var view: Stores

    ghost predicate Valid()
      reads this
    {
      Holds(db, view)
    }

    constructor ()
      ensures Valid() && db == Flat(0, map[]) && view == Stores(0, map[], map[], map[])
    {
      db, view := Flat(0, map[]), Stores(0, map[], map[], map[]);
    }

    method Exists(key: string, fails: bool) returns (count: nat, err: bool)
      ensures err <==> fails
      ensures !err ==> count == (if key in db.store then 1 else 0)
    {
      err := fails;
      count := if !err && key in db.store then 1 else 0;
    }

    /** None stands for redis.Nil. */
    method Get(key: string, fails: bool) returns (value: Option<Value>, err: bool)
      ensures err <==> fails
      ensures !err ==> value == (if key in db.store then Some(db.store[key].value) else None)
    {
      err := fails;
      value := if !err && key in db.store then Some(db.store[key].value) else None;
    }

    method Set(key: string, value: Value, ttl: nat, o: Reply)
      modifies this`db
      ensures db == if Applied(o) then old(db).(store := TtlStore.Set(old(db).store, key, value, old(db).now, ttl))
        else old(db)
    {
      if Applied(o) { db := db.(store := TtlStore.Set(db.store, key, value, db.now, ttl)); }
    }

    method SetNX(key: string, value: Value, ttl: nat, o: Reply) returns (ok: bool)
      modifies this`db
      ensures db == if Applied(o) then old(db).(store := TtlStore.SetNX(old(db).store, key, value, old(db).now, ttl))
        else old(db)
      ensures o.Done? ==> ok == (key !in old(db).store)
    {
      ok := o.Done? && key !in db.store;
      if Applied(o) { db := db.(store := TtlStore.SetNX(db.store, key, value, db.now, ttl)); }
    }

    method Del(key: string, o: Reply)
      modifies this`db
      ensures db == if Applied(o) then old(db).(store := TtlStore.Del(old(db).store, key)) else old(db)
    {
      if Applied(o) { db := db.(store := TtlStore.Del(db.store, key)); }
    }
  }

  class RedisIdempotencyStore {
    const client: RedisClient
    const ttl: nat

    constructor (client: RedisClient, ttl: nat)
      ensures this.client == client && this.ttl == ttl
    {
      this.client, this.ttl := client, ttl;
    }

    /** EXISTS on the shared database finds exactly the marks of this store. */
    method IsDuplicate(paymentId: string, fails: bool) returns (dup: bool, err: bool)
      requires client.Valid()
      ensures err <==> fails
      ensures dup <==> !fails && paymentId in client.view.marks
    {
      var count;
      count, err := client.Exists(MarkKey(paymentId), fails);
      assert Entry(client.db.store, MarkKey(paymentId)) == AsMark(Entry(client.view.marks, paymentId));
      dup := !err && count > 0;
    }

    /** The first mark starts the interval; a losing SET NX reports success and leaves its expiry as it was.
        The orders and counters in the same database are untouched. */
    method MarkProcessed(paymentId: string, o: Reply) returns (err: bool)
      requires client.Valid()
      modifies client
      ensures client.Valid() && (err <==> o.Failed?)
      ensures !Applied(o) ==> client.view == old(client.view)
      ensures client.view == old(client.view).(marks := client.view.marks)
      ensures Applied(o) ==> client.view.marks.Keys == old(client.view).marks.Keys + {paymentId}
      ensures forall e :: e in old(client.view).marks ==>
        e in client.view.marks && client.view.marks[e] == old(client.view).marks[e]
      ensures Applied(o) && paymentId !in old(client.view).marks ==>
        && client.view.marks[paymentId].value == "1"
        && client.view.marks[paymentId].expiry == if ttl == 0 then None else Some(old(client.db).now + ttl)
    {
      var ok := client.SetNX(MarkKey(paymentId), Number(1), ttl, o);
      MarkOpRefines(old(client.db), old(client.view), MarkSetNX(paymentId, ttl));
      if Applied(o) { client.view := SplitApply(client.view, MarkSetNX(paymentId, ttl)).0; }
      err := o.Failed?;
    }
  }

  datatype Lookup = CacheMiss | CacheHit(order: CacheAside.Order) | CacheError

  class OrderCache {
    const client: RedisClient
    const ttl: nat

    constructor (client: RedisClient, ttl: nat)
      ensures this.client == client && this.ttl == ttl
    {
      this.client, this.ttl := client, ttl;
    }

    /** A miss is told from an error; whatever is found under the key is an order that Set stored: the
        unmarshalling cannot fail. */
    method Get(id: int, fails: bool) returns (r: Lookup)
      requires client.Valid()
      ensures r == CacheError <==> fails
      ensures !fails && id in client.view.cache ==> r == CacheHit(client.view.cache[id].value)
      ensures !fails && id !in client.view.cache ==> r == CacheMiss
    {
      var value, failed := client.Get(CacheKey(id), fails);
      if failed { return CacheError; }
      assert Entry(client.db.store, CacheKey(id)) == AsDocument(Entry(client.view.cache, id));
      match value
      case None => return CacheMiss;
      case Some(Document(order)) => return CacheHit(order);
      case Some(Number(_)) => return CacheError;
    }

    /** Stores the order under its own id with a fresh expiry. */
    method Set(order: CacheAside.Order, o: Reply) returns (err: bool)
      requires client.Valid()
      modifies client
      ensures client.Valid() && (err <==> o.Failed?)
      ensures !Applied(o) ==> client.view == old(client.view)
      ensures Applied(o) ==> client.view == old(client.view).(cache := client.view.cache)
      ensures Applied(o) ==>
        order.id in client.view.cache
        && client.view.cache == old(client.view).cache[order.id := client.view.cache[order.id]]
      ensures Applied(o) ==> client.view.cache[order.id].value == order
      ensures Applied(o) ==>
        client.view.cache[order.id].expiry == if ttl == 0 then None else Some(old(client.db).now + ttl)
    {
      client.Set(CacheKey(order.id), Document(order), ttl, o);
      CacheOpRefines(old(client.db), old(client.view), CacheSet(order, ttl));
      if Applied(o) { client.view := SplitApply(client.view, CacheSet(order, ttl)).0; }
      err := o.Failed?;
    }

    method Delete(id: int, o: Reply) returns (err: bool)
      requires client.Valid()
      modifies client
      ensures client.Valid() && (err <==> o.Failed?)
      ensures !Applied(o) ==> client.view == old(client.view)
      ensures Applied(o) ==> client.view == old(client.view).(cache := old(client.view).cache - {id})
    {
      client.Del(CacheKey(id), o);
      CacheOpRefines(old(client.db), old(client.view), CacheDel(id));
      if Applied(o) { client.view := SplitApply(client.view, CacheDel(id)).0; }
      err := o.Failed?;
    }
  }
}
