/** All services use one Redis database. Here it is one map from strings, and the three stores of the services
    live in it side by side under `order:<id>`, `rate:<ip>` and `notif:processed:<event id>`. */
module SharedRedis {
  import opened Arithmetic
  import opened TtlStore
  import opened CacheAside

  // ---- keys ----

  function Digit(d: nat): char
    requires d < 10
  {
    "0123456789"[d]
  }

  function Digits(n: nat): (s: string)
    ensures |s| > 0 && (|s| == 1 <==> n < 10)
  {
    if n < 10 then [Digit(n)] else Digits(n / 10) + [Digit(n % 10)]
  }

  /** %d */
  function Decimal(n: int): string {
    if n < 0 then "-" + Digits(-n) else Digits(n)
  }

  function CacheKey(id: int): string { "order:" + Decimal(id) }
  function RateKey(ip: string): string { "rate:" + ip }
  function MarkKey(e: string): string { "notif:processed:" + e }

  function DigitValue(c: char): nat {
    if '0' <= c <= '9' then (c - '0') as nat else 0
  }

  /** The number that a string of digits, or of a sign and digits, stands for. */
  function Value10(s: string): nat {
    if s == "" then 0 else Value10(s[..|s| - 1]) * 10 + DigitValue(s[|s| - 1])
  }

  function ReadBack(s: string): int {
    if s != "" && s[0] == '-' then 0 - Value10(s[1..]) else Value10(s)
  }

  lemma {:induction false} DigitsReadBack(n: nat)
    ensures Value10(Digits(n)) == n
  {
    var s := Digits(n);
    assert s[|s| - 1] == Digit(n % 10) && DigitValue(Digit(n % 10)) == n % 10;
    if n >= 10 {
      DigitsReadBack(n / 10);
      assert s[..|s| - 1] == Digits(n / 10);
    } else {
      assert s[..|s| - 1] == "";
    }
  }

  lemma {:induction false} DigitsAreDigits(n: nat)
    ensures '0' <= Digits(n)[0] <= '9'
  {
    if n >= 10 { DigitsAreDigits(n / 10); }
  }

  lemma SignReadsBack(s: string)
    ensures ReadBack("-" + s) == 0 - Value10(s)
  {
    assert ("-" + s)[1..] == s;
  }

  /** Printing a number and reading it gives the number back. */
  lemma DecimalReadsBack(n: int)
    ensures ReadBack(Decimal(n)) == n
  {
    if n < 0 {
      SignReadsBack(Digits(-n));
      DigitsReadBack(-n);
    } else {
      DigitsAreDigits(n);
      DigitsReadBack(n);
    }
  }

  lemma DecimalInjective(m: int, n: int)
    requires Decimal(m) == Decimal(n)
    ensures m == n
  {
    DecimalReadsBack(m);
    DecimalReadsBack(n);
  }

  /** The keys as the services format them. */
  lemma KeyFormats(id: int, ip: string, e: string)
    ensures CacheKey(id)[..6] == "order:" && ReadBack(CacheKey(id)[6..]) == id
    ensures RateKey(ip)[..5] == "rate:" && RateKey(ip)[5..] == ip
    ensures MarkKey(e)[..16] == "notif:processed:" && MarkKey(e)[16..] == e
  {
    DecimalReadsBack(id);
    assert CacheKey(id)[6..] == Decimal(id);
  }

  lemma CacheKeyInjective(i: int, j: int)
    requires CacheKey(i) == CacheKey(j)
    ensures i == j
  {
    assert CacheKey(i)[6..] == Decimal(i) && CacheKey(j)[6..] == Decimal(j);
    DecimalInjective(i, j);
  }

  lemma RateKeyInjective(a: string, b: string)
    requires RateKey(a) == RateKey(b)
    ensures a == b
  {
    assert RateKey(a)[5..] == a && RateKey(b)[5..] == b;
  }

  lemma MarkKeyInjective(a: string, b: string)
    requires MarkKey(a) == MarkKey(b)
    ensures a == b
  {
    assert MarkKey(a)[16..] == a && MarkKey(b)[16..] == b;
  }

  lemma Initials(i: int, a: string)
    ensures CacheKey(i)[0] == 'o' && RateKey(a)[0] == 'r' && MarkKey(a)[0] == 'n'
  {
  }

  /** The three families of keys are injective and pairwise disjoint. */
  lemma KeysApart()
    ensures forall i, j :: CacheKey(i) == CacheKey(j) ==> i == j
    ensures forall a, b :: RateKey(a) == RateKey(b) ==> a == b
    ensures forall a, b :: MarkKey(a) == MarkKey(b) ==> a == b
    ensures forall i, a :: CacheKey(i) != RateKey(a)
    ensures forall i, a :: CacheKey(i) != MarkKey(a)
    ensures forall a, b :: RateKey(a) != MarkKey(b)
  {
    forall i, j | CacheKey(i) == CacheKey(j) ensures i == j { CacheKeyInjective(i, j); }
    forall a, b | RateKey(a) == RateKey(b) ensures a == b { RateKeyInjective(a, b); }
    forall a, b | MarkKey(a) == MarkKey(b) ensures a == b { MarkKeyInjective(a, b); }
    forall i, a ensures CacheKey(i) != RateKey(a) { Initials(i, a); }
    forall i, a ensures CacheKey(i) != MarkKey(a) { Initials(i, a); }
    forall a, b ensures RateKey(a) != MarkKey(b) { Initials(0, a); Initials(0, b); }
  }

  // ---- the flat database and the three stores ----

  /** A stored string: a JSON document of an order, or a decimal number. */
  datatype Value = Document(order: Order) | Number(n: int)

  datatype Flat = Flat(now: nat, store: Store<string, Value>)

  datatype Stores = Stores(
    now: nat,
    cache: Store<int, Order>,
    counters: Store<string, int>,
    marks: Store<string, string>
  )

  datatype Op =
    | Pass(d: nat)
    | CacheGet(id: int)
    | CacheSet(order: Order, ttl: nat)
    | CacheDel(id: int)
    | RateIncr(ip: string)
    | RateExpire(ip: string, window: nat)
    | MarkExists(e: string)
    | MarkSetNX(e: string, ttl: nat)

  datatype Answer = Ok | Miss | Hit(order: Order) | Count(n: int) | Flag(b: bool) | TypeError

  /** INCR on the flat database fails on a value that is not a number. */
  function FlatIncr(s: Store<string, Value>, k: string): (Store<string, Value>, Answer) {
    if k !in s then (s[k := Cell(Number(1), None)], Count(1))
    else match s[k].value
      case Number(n) => (s[k := Cell(Number(n + 1), s[k].expiry)], Count(n + 1))
      case Document(_) => (s, TypeError)
  }

  /** GET and json.Unmarshal. */
  function FlatGet(s: Store<string, Value>, k: string): Answer {
    if k !in s then Miss else match s[k].value case Document(o) => Hit(o) case Number(_) => TypeError
  }

  function FlatApply(f: Flat, op: Op): (Flat, Answer) {
    match op
    case Pass(d) => (Flat(f.now + d, Purge(f.store, f.now + d)), Ok)
    case CacheGet(id) => (f, FlatGet(f.store, CacheKey(id)))
    case CacheSet(o, ttl) => (f.(store := Set(f.store, CacheKey(o.id), Document(o), f.now, ttl)), Ok)
    case CacheDel(id) => (f.(store := Del(f.store, CacheKey(id))), Ok)
    case RateIncr(ip) => var (s, a) := FlatIncr(f.store, RateKey(ip)); (f.(store := s), a)
    case RateExpire(ip, w) => (f.(store := Expire(f.store, RateKey(ip), f.now, w)), Ok)
    case MarkExists(e) => (f, Flag(MarkKey(e) in f.store))
    case MarkSetNX(e, ttl) =>
      (f.(store := SetNX(f.store, MarkKey(e), Number(1), f.now, ttl)), Flag(MarkKey(e) !in f.store))
  }

  function SplitApply(s: Stores, op: Op): (Stores, Answer) {
    match op
    case Pass(d) =>
      (Stores(s.now + d, Purge(s.cache, s.now + d), Purge(s.counters, s.now + d), Purge(s.marks, s.now + d)), Ok)
    case CacheGet(id) => (s, if id in s.cache then Hit(s.cache[id].value) else Miss)
    case CacheSet(o, ttl) => (s.(cache := Set(s.cache, o.id, o, s.now, ttl)), Ok)
    case CacheDel(id) => (s.(cache := Del(s.cache, id)), Ok)
    case RateIncr(ip) => (s.(counters := Incr(s.counters, ip)), Count(Incr(s.counters, ip)[ip].value))
    case RateExpire(ip, w) => (s.(counters := Expire(s.counters, ip, s.now, w)), Ok)
    case MarkExists(e) => (s, Flag(e in s.marks))
    case MarkSetNX(e, ttl) => (s.(marks := SetNX(s.marks, e, "1", s.now, ttl)), Flag(e !in s.marks))
  }

  function Entry<K, V>(s: Store<K, V>, k: K): Option<Cell<V>> { if k in s then Some(s[k]) else None }

  function AsDocument(c: Option<Cell<Order>>): Option<Cell<Value>> {
    if c.None? then None else Some(Cell(Document(c.value.value), c.value.expiry))
  }
  function AsNumber(c: Option<Cell<int>>): Option<Cell<Value>> {
    if c.None? then None else Some(Cell(Number(c.value.value), c.value.expiry))
  }
  function AsMark(c: Option<Cell<string>>): Option<Cell<Value>> {
    if c.None? then None else Some(Cell(Number(1), c.value.expiry))
  }

  /** The flat database holds exactly the three stores, each under its own keys. */
  ghost predicate Holds(f: Flat, s: Stores) {
    && f.now == s.now
    && (forall id :: Entry(f.store, CacheKey(id)) == AsDocument(Entry(s.cache, id)))
    && (forall ip :: Entry(f.store, RateKey(ip)) == AsNumber(Entry(s.counters, ip)))
    && (forall e :: Entry(f.store, MarkKey(e)) == AsMark(Entry(s.marks, e)))
  }

  lemma EntryPurge<K, V>(s: Store<K, V>, now: nat, k: K)
    ensures Entry(Purge(s, now), k) == if k in s && LiveAt(s[k], now) then Some(s[k]) else None
  {
  }

  lemma PassRefines(f: Flat, s: Stores, d: nat)
    requires Holds(f, s)
    ensures Holds(FlatApply(f, Pass(d)).0, SplitApply(s, Pass(d)).0)
  {
    var now := f.now + d;
    forall id ensures Entry(Purge(f.store, now), CacheKey(id)) == AsDocument(Entry(Purge(s.cache, now), id)) {
      assert Entry(f.store, CacheKey(id)) == AsDocument(Entry(s.cache, id));
      EntryPurge(f.store, now, CacheKey(id));
      EntryPurge(s.cache, now, id);
    }
    forall ip ensures Entry(Purge(f.store, now), RateKey(ip)) == AsNumber(Entry(Purge(s.counters, now), ip)) {
      assert Entry(f.store, RateKey(ip)) == AsNumber(Entry(s.counters, ip));
      EntryPurge(f.store, now, RateKey(ip));
      EntryPurge(s.counters, now, ip);
    }
    forall e ensures Entry(Purge(f.store, now), MarkKey(e)) == AsMark(Entry(Purge(s.marks, now), e)) {
      assert Entry(f.store, MarkKey(e)) == AsMark(Entry(s.marks, e));
      EntryPurge(f.store, now, MarkKey(e));
      EntryPurge(s.marks, now, e);
    }
  }

  /** The flat store after a change of the entry `k` alone. */
  ghost predicate OnlyChanges(before: Store<string, Value>, after: Store<string, Value>, k: string) {
    forall j :: j != k ==> Entry(after, j) == Entry(before, j)
  }

  lemma CacheOpRefines(f: Flat, s: Stores, op: Op)
    requires Holds(f, s) && (op.CacheGet? || op.CacheSet? || op.CacheDel?)
    ensures Holds(FlatApply(f, op).0, SplitApply(s, op).0) && FlatApply(f, op).1 == SplitApply(s, op).1
  {
    KeysApart();
    var id := if op.CacheSet? then op.order.id else op.id;
    var f', s' := FlatApply(f, op).0, SplitApply(s, op).0;
    assert Entry(f.store, CacheKey(id)) == AsDocument(Entry(s.cache, id));
    assert OnlyChanges(f.store, f'.store, CacheKey(id));
    forall i ensures Entry(f'.store, CacheKey(i)) == AsDocument(Entry(s'.cache, i)) {
      assert Entry(f.store, CacheKey(i)) == AsDocument(Entry(s.cache, i));
    }
  }

  lemma RateOpRefines(f: Flat, s: Stores, op: Op)
    requires Holds(f, s) && (op.RateIncr? || op.RateExpire?)
    ensures Holds(FlatApply(f, op).0, SplitApply(s, op).0) && FlatApply(f, op).1 == SplitApply(s, op).1
  {
    KeysApart();
    var f', s' := FlatApply(f, op).0, SplitApply(s, op).0;
    assert Entry(f.store, RateKey(op.ip)) == AsNumber(Entry(s.counters, op.ip));
    assert OnlyChanges(f.store, f'.store, RateKey(op.ip));
    forall i ensures Entry(f'.store, RateKey(i)) == AsNumber(Entry(s'.counters, i)) {
      assert Entry(f.store, RateKey(i)) == AsNumber(Entry(s.counters, i));
    }
  }

  lemma MarkOpRefines(f: Flat, s: Stores, op: Op)
    requires Holds(f, s) && (op.MarkExists? || op.MarkSetNX?)
    ensures Holds(FlatApply(f, op).0, SplitApply(s, op).0) && FlatApply(f, op).1 == SplitApply(s, op).1
  {
    KeysApart();
    var f', s' := FlatApply(f, op).0, SplitApply(s, op).0;
    assert Entry(f.store, MarkKey(op.e)) == AsMark(Entry(s.marks, op.e));
    assert OnlyChanges(f.store, f'.store, MarkKey(op.e));
    forall i ensures Entry(f'.store, MarkKey(i)) == AsMark(Entry(s'.marks, i)) {
      assert Entry(f.store, MarkKey(i)) == AsMark(Entry(s.marks, i));
    }
  }

  function FlatRun(f: Flat, ops: seq<Op>): (Flat, seq<Answer>)
    decreases |ops|
  {
    if ops == [] then (f, [])
    else
      var (f1, a) := FlatApply(f, ops[0]);
      var (f2, rest) := FlatRun(f1, ops[1..]);
      (f2, [a] + rest)
  }

  function SplitRun(s: Stores, ops: seq<Op>): (Stores, seq<Answer>)
    decreases |ops|
  {
    if ops == [] then (s, [])
    else
      var (s1, a) := SplitApply(s, ops[0]);
      var (s2, rest) := SplitRun(s1, ops[1..]);
      (s2, [a] + rest)
  }

  /** Over every sequence of commands the one database answers as three separate stores would. */
  lemma {:induction false} SharedRefinesSeparate(f: Flat, s: Stores, ops: seq<Op>)
    requires Holds(f, s)
    ensures FlatRun(f, ops).1 == SplitRun(s, ops).1 && Holds(FlatRun(f, ops).0, SplitRun(s, ops).0)
    decreases |ops|
  {
    if ops != [] {
      var op := ops[0];
      if op.Pass? {
        PassRefines(f, s, op.d);
      } else if op.CacheGet? || op.CacheSet? || op.CacheDel? {
        CacheOpRefines(f, s, op);
      } else if op.RateIncr? || op.RateExpire? {
        RateOpRefines(f, s, op);
      } else {
        MarkOpRefines(f, s, op);
      }
      SharedRefinesSeparate(FlatApply(f, op).0, SplitApply(s, op).0, ops[1..]);
    }
  }
}
