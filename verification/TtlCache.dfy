/** The bounded memory cache with a time-to-live, over a dictionary that remembers insertion order. */
module TtlCache {
  import opened Results

  datatype Key = Key(name: string)

  /** A cached object, only ever handed back. */
  datatype Value = Value(identity: nat)

  datatype Entry = Entry(key: Key, expiresAt: int, value: Value)

  datatype Config = Config(ttl: int, maxsize: int)

  // The dictionary: entries in insertion order ------------------------------------------------------------------

  ghost predicate DistinctKeys(store: seq<Entry>) {
    forall i, j :: 0 <= i < j < |store| ==> store[i].key != store[j].key
  }

  function Find(store: seq<Entry>, key: Key): (i: int)
    ensures -1 <= i < |store|
    ensures i >= 0 ==> store[i].key == key
    ensures i < 0 ==> forall j :: 0 <= j < |store| ==> store[j].key != key
  {
    if store == [] then -1
    else if store[|store| - 1].key == key then |store| - 1
    else Find(store[..|store| - 1], key)
  }

  function Without(store: seq<Entry>, key: Key): seq<Entry> {
    var i := Find(store, key);
    if i < 0 then store else store[..i] + store[i + 1..]
  }

  /** Assigning to an existing key keeps its place. */
  function Put(store: seq<Entry>, entry: Entry): seq<Entry> {
    var i := Find(store, entry.key);
    if i < 0 then store + [entry] else store[i := entry]
  }

  function Live(store: seq<Entry>, now: int): (live: seq<Entry>)
    ensures |live| <= |store|
  {
    if store == [] then []
    else
      var last := store[|store| - 1];
      Live(store[..|store| - 1], now) + if now <= last.expiresAt then [last] else []
  }

  lemma {:induction false} LiveEntries(store: seq<Entry>, now: int)
    ensures forall e :: e in Live(store, now) <==> e in store && now <= e.expiresAt
  {
    if store != [] {
      LiveEntries(store[..|store| - 1], now);
    }
  }

  lemma {:induction false} LiveKeepsDistinct(store: seq<Entry>, now: int)
    requires DistinctKeys(store)
    ensures DistinctKeys(Live(store, now))
  {
    if store != [] {
      LiveKeepsDistinct(store[..|store| - 1], now);
      LiveEntries(store[..|store| - 1], now);
      var before := Live(store[..|store| - 1], now);
      forall i | 0 <= i < |before|
        ensures before[i].key != store[|store| - 1].key
      {
        assert before[i] in before;
        var j :| 0 <= j < |store| - 1 && store[j] == before[i];
      }
    }
  }

  // The operations ------------------------------------------------------------------------------------------------

  function AfterGet(store: seq<Entry>, key: Key, now: int): seq<Entry> {
    var i := Find(store, key);
    if i >= 0 && now > store[i].expiresAt then Without(store, key) else store
  }

  function Got(store: seq<Entry>, key: Key, now: int): Option<Value> {
    var i := Find(store, key);
    if i < 0 || now > store[i].expiresAt then None else Some(store[i].value)
  }

  function Evicted(c: Config, store: seq<Entry>, now: int): seq<Entry> {
    if |store| >= c.maxsize then Live(store, now) else store
  }

  /** With no room at all there is no oldest key to drop, and the call raises after the eviction. */
  predicate CanSet(c: Config, store: seq<Entry>, evictAt: int) {
    |Evicted(c, store, evictAt)| < c.maxsize || Evicted(c, store, evictAt) != []
  }

  function Room(c: Config, evicted: seq<Entry>): seq<Entry>
    requires |evicted| < c.maxsize || evicted != []
  {
    if |evicted| >= c.maxsize then evicted[1..] else evicted
  }

  function AfterSet(c: Config, store: seq<Entry>, key: Key, value: Value, evictAt: int, now: int): seq<Entry> {
    var evicted := Evicted(c, store, evictAt);
    if !CanSet(c, store, evictAt) then evicted
    else
      Put(Room(c, evicted), Entry(key, now + c.ttl, value))
  }

  class TTLMemoryCache {
    const config: Config
    var store: seq<Entry>

    constructor (config: Config)
      ensures this.config == config && store == []
    {
      this.config, store := config, [];
    }

    method Get(key: Key, now: int) returns (r: Option<Value>)
      modifies this
      ensures r == Got(old(store), key, now)
      ensures store == AfterGet(old(store), key, now)
    {
      var i := Find(store, key);
      if i < 0 {
        return None;
      }
      var entry := store[i];
      if now > entry.expiresAt {
        store := store[..i] + store[i + 1..];
        return None;
      }
      r := Some(entry.value);
    }

    /** The clock is read once for the eviction and once for the new entry. */
    method Set(key: Key, value: Value, evictAt: int, now: int) returns (ok: bool)
      modifies this
      ensures ok <==> CanSet(config, old(store), evictAt)
      ensures store == AfterSet(config, old(store), key, value, evictAt, now)
    {
      if |store| >= config.maxsize {
        EvictExpired(evictAt);
      }
      if |store| >= config.maxsize {
        if store == [] {
          return false;
        }
        store := store[1..];
      }
      store := Put(store, Entry(key, now + config.ttl, value));
      ok := true;
    }

    method Delete(key: Key)
      modifies this
      ensures store == Without(old(store), key)
    {
      store := Without(store, key);
    }

    method Clear()
      modifies this
      ensures store == []
    {
      store := [];
    }

    method EvictExpired(now: int)
      modifies this
      ensures store == Live(old(store), now)
    {
      var kept := [];
      for i := 0 to |store|
        invariant store == old(store)
        invariant kept == Live(store[..i], now)
      {
        assert store[..i + 1][..i] == store[..i];
        if now <= store[i].expiresAt {
          kept := kept + [store[i]];
        }
      }
      assert store[..|store|] == store;
      store := kept;
    }
  }

  // Whole runs against an unbounded map ---------------------------------------------------------------------------

  datatype Op =
    | OpGet(key: Key, now: int)
    | OpSet(key: Key, value: Value, evictAt: int, now: int)
    | OpDelete(key: Key, now: int)
    | OpClear(now: int)

  function Step(c: Config, store: seq<Entry>, op: Op): seq<Entry> {
    match op
    case OpGet(key, now) => AfterGet(store, key, now)
    case OpSet(key, value, evictAt, now) => AfterSet(c, store, key, value, evictAt, now)
    case OpDelete(key, _) => Without(store, key)
    case OpClear(_) => []
  }

  function Run(c: Config, ops: seq<Op>): seq<Entry> {
    if ops == [] then [] else Step(c, Run(c, ops[..|ops| - 1]), ops[|ops| - 1])
  }

  function IdealStep(c: Config, ideal: map<Key, Entry>, op: Op): map<Key, Entry> {
    match op
    case OpGet(_, _) => ideal
    case OpSet(key, value, _, now) => ideal[key := Entry(key, now + c.ttl, value)]
    case OpDelete(key, _) => ideal - {key}
    case OpClear(_) => map[]
  }

  /** The ideal: every key's last entry, kept for ever. */
  function Ideal(c: Config, ops: seq<Op>): map<Key, Entry> {
    if ops == [] then map[] else IdealStep(c, Ideal(c, ops[..|ops| - 1]), ops[|ops| - 1])
  }

  function IdealGot(ideal: map<Key, Entry>, key: Key, now: int): Option<Value> {
    if key in ideal && now <= ideal[key].expiresAt then Some(ideal[key].value) else None
  }

  ghost predicate ClockRuns(ops: seq<Op>) {
    && (forall i, j :: 0 <= i < j < |ops| ==> ops[i].now <= ops[j].now)
    && (forall i :: 0 <= i < |ops| && ops[i].OpSet? ==>
          ops[i].evictAt <= ops[i].now && forall j :: 0 <= j < i ==> ops[j].now <= ops[i].evictAt)
  }

  function Capacity(c: Config): int {
    if c.maxsize >= 0 then c.maxsize else 0
  }

  ghost predicate Backed(store: seq<Entry>, ideal: map<Key, Entry>) {
    forall e :: e in store ==> e.key in ideal && ideal[e.key] == e
  }

  lemma PutKeepsDistinct(store: seq<Entry>, entry: Entry)
    requires DistinctKeys(store)
    ensures DistinctKeys(Put(store, entry))
    ensures forall e :: e in Put(store, entry) <==> e == entry || (e in store && e.key != entry.key)
  {
    var after := Put(store, entry);
    var i := Find(store, entry.key);
    forall e | e in after
      ensures e == entry || (e in store && e.key != entry.key)
    {
      var j :| 0 <= j < |after| && after[j] == e;
    }
    forall e | e == entry || (e in store && e.key != entry.key)
      ensures e in after
    {
      if e == entry {
        assert after[if i < 0 then |store| else i] == entry;
      } else {
        var j :| 0 <= j < |store| && store[j] == e;
        assert after[j] == e;
      }
    }
  }

  lemma WithoutKeepsDistinct(store: seq<Entry>, key: Key)
    requires DistinctKeys(store)
    ensures DistinctKeys(Without(store, key))
    ensures |Without(store, key)| <= |store|
    ensures forall e :: e in Without(store, key) <==> e in store && e.key != key
  {
    var after := Without(store, key);
    var i := Find(store, key);
    if i >= 0 {
      forall e | e in after
        ensures e in store && e.key != key
      {
        var j :| 0 <= j < |after| && after[j] == e;
        assert e == store[if j < i then j else j + 1];
      }
      forall e | e in store && e.key != key
        ensures e in after
      {
        var j :| 0 <= j < |store| && store[j] == e;
        assert e == after[if j < i then j else j - 1];
      }
    }
  }

  lemma EvictedIsPart(c: Config, store: seq<Entry>, evictAt: int)
    requires DistinctKeys(store)
    ensures var evicted := Evicted(c, store, evictAt);
            && DistinctKeys(evicted) && |evicted| <= |store|
            && (forall e :: e in evicted ==> e in store)
            && (|store| < c.maxsize ==> evicted == store)
  {
    LiveKeepsDistinct(store, evictAt);
    LiveEntries(store, evictAt);
  }

  lemma RoomIsPart(c: Config, evicted: seq<Entry>)
    requires DistinctKeys(evicted) && (|evicted| < c.maxsize || evicted != [])
    ensures DistinctKeys(Room(c, evicted))
    ensures forall e :: e in Room(c, evicted) ==> e in evicted
    ensures |evicted| <= c.maxsize ==> |Room(c, evicted)| < c.maxsize
  {
  }

  lemma SetKeepsStore(c: Config, store: seq<Entry>, key: Key, value: Value, evictAt: int, now: int)
    requires DistinctKeys(store) && |store| <= Capacity(c)
    ensures var after := AfterSet(c, store, key, value, evictAt, now);
            && DistinctKeys(after) && |after| <= Capacity(c)
            && (forall e :: e in after ==> e == Entry(key, now + c.ttl, value) || (e in store && e.key != key))
            && (|store| < c.maxsize ==> forall e :: e in store && e.key != key ==> e in after)
            && (c.maxsize >= 1 ==> Entry(key, now + c.ttl, value) in after)
  {
    EvictedIsPart(c, store, evictAt);
    if CanSet(c, store, evictAt) {
      RoomIsPart(c, Evicted(c, store, evictAt));
      PutKeepsDistinct(Room(c, Evicted(c, store, evictAt)), Entry(key, now + c.ttl, value));
    }
  }

  /** In every run the cache stays within its size and holds only what the ideal map holds. */
  /** A get drops the entry of its key when that has expired, and nothing else. */
  lemma GetDropsItsExpired(store: seq<Entry>, key: Key, now: int)
    requires DistinctKeys(store)
    ensures forall e :: e in AfterGet(store, key, now) <==> e in store && (e.key != key || now <= e.expiresAt)
  {
    WithoutKeepsDistinct(store, key);
    var i := Find(store, key);
    forall e | e in store && e.key == key
      ensures i >= 0 && e == store[i]
    {
      var j :| 0 <= j < |store| && store[j] == e;
      assert i == j;
    }
  }

  lemma PutLeavesOthers(store: seq<Entry>, entry: Entry, e: Entry)
    requires DistinctKeys(store) && e.key != entry.key
    ensures e in Put(store, entry) <==> e in store
  {
    PutKeepsDistinct(store, entry);
  }

  /**
    What a set does to the other keys. With room nothing is lost. In a full cache every expired entry goes, and if
    that made room every live one stays; only when all are live, the oldest goes alone.
   */
  lemma SetEvictsExpiredFirst(c: Config, store: seq<Entry>, key: Key, value: Value, evictAt: int, now: int, e: Entry)
    requires DistinctKeys(store) && CanSet(c, store, evictAt) && e.key != key
    ensures var after, live := AfterSet(c, store, key, value, evictAt, now), Live(store, evictAt);
            && (|store| < c.maxsize ==> (e in after <==> e in store))
            && (|live| < c.maxsize <= |store| ==> (e in after <==> e in store && evictAt <= e.expiresAt))
            && (|live| >= c.maxsize && |store| >= c.maxsize ==> live != [] && (e in after <==> e in live[1..]))
  {
    LiveEntries(store, evictAt);
    LiveKeepsDistinct(store, evictAt);
    var room := Room(c, Evicted(c, store, evictAt));
    PutLeavesOthers(room, Entry(key, now + c.ttl, value), e);
  }

  lemma {:induction false} StoreIsBounded(c: Config, ops: seq<Op>)
    ensures DistinctKeys(Run(c, ops)) && |Run(c, ops)| <= Capacity(c)
    ensures Backed(Run(c, ops), Ideal(c, ops))
  {
    if ops != [] {
      var before := Run(c, ops[..|ops| - 1]);
      StoreIsBounded(c, ops[..|ops| - 1]);
      match ops[|ops| - 1] {
        case OpGet(key, now) => WithoutKeepsDistinct(before, key);
        case OpSet(key, value, evictAt, now) => SetKeepsStore(c, before, key, value, evictAt, now);
        case OpDelete(key, _) => WithoutKeepsDistinct(before, key);
        case OpClear(_) =>
      }
    }
  }

  /** A get returns nothing, or the last value set for its key, which is within its time-to-live. */
  lemma GetIsNoneOrLastSet(c: Config, ops: seq<Op>, key: Key, now: int)
    ensures Got(Run(c, ops), key, now).Some? ==> Got(Run(c, ops), key, now) == IdealGot(Ideal(c, ops), key, now)
  {
    StoreIsBounded(c, ops);
    var i := Find(Run(c, ops), key);
    if i >= 0 {
      assert Run(c, ops)[i] in Run(c, ops);
    }
  }

  // When the cache is the ideal map -------------------------------------------------------------------------------

  ghost predicate SetsWithin(ops: seq<Op>, keys: set<Key>) {
    forall i :: 0 <= i < |ops| && ops[i].OpSet? ==> ops[i].key in keys
  }

  /** What the ideal map has and the cache does not has expired. */
  ghost predicate Complete(store: seq<Entry>, ideal: map<Key, Entry>, now: int) {
    forall k :: k in ideal ==> ideal[k].key == k && (ideal[k] in store || ideal[k].expiresAt < now)
  }

  function LastTime(ops: seq<Op>, now: int): int {
    if ops == [] then now else ops[|ops| - 1].now
  }

  lemma {:induction false} KeysBoundSize(store: seq<Entry>, keys: set<Key>)
    requires DistinctKeys(store) && forall e :: e in store ==> e.key in keys
    ensures |store| <= |keys|
  {
    if store != [] {
      var n := |store| - 1;
      forall e | e in store[..n]
        ensures e.key in keys - {store[n].key}
      {
        var i :| 0 <= i < n && store[i] == e;
      }
      assert store[n] in store;
      KeysBoundSize(store[..n], keys - {store[n].key});
    }
  }

  ghost predicate Follows(c: Config, ops: seq<Op>, keys: set<Key>) {
    && Complete(Run(c, ops), Ideal(c, ops), LastTime(ops, 0))
    && (forall e :: e in Run(c, ops) ==> e.key in keys)
  }

  lemma RemovalFollows(store: seq<Entry>, ideal: map<Key, Entry>, past: int, now: int, key: Key)
    requires DistinctKeys(store) && Backed(store, ideal) && Complete(store, ideal, past) && past <= now
    ensures Complete(Without(store, key), ideal - {key}, now)
    ensures key in ideal && ideal[key].expiresAt < now ==> Complete(Without(store, key), ideal, now)
    ensures Complete(store, ideal, now)
    ensures forall e :: e in Without(store, key) ==> e in store
  {
    WithoutKeepsDistinct(store, key);
  }

  lemma SetFollows(c: Config, store: seq<Entry>, ideal: map<Key, Entry>, past: int, key: Key, value: Value,
                   evictAt: int, now: int)
    requires DistinctKeys(store) && |store| < c.maxsize && Complete(store, ideal, past) && past <= now
    ensures Complete(AfterSet(c, store, key, value, evictAt, now), ideal[key := Entry(key, now + c.ttl, value)], now)
    ensures forall e :: e in AfterSet(c, store, key, value, evictAt, now) ==> e in store || e.key == key
  {
    SetKeepsStore(c, store, key, value, evictAt, now);
  }

  lemma StepFollows(c: Config, store: seq<Entry>, ideal: map<Key, Entry>, past: int, op: Op)
    requires DistinctKeys(store) && Backed(store, ideal) && Complete(store, ideal, past) && past <= op.now
    requires op.OpSet? ==> |store| < c.maxsize
    ensures Complete(Step(c, store, op), IdealStep(c, ideal, op), op.now)
    ensures forall e :: e in Step(c, store, op) ==> e in store || (op.OpSet? && e.key == op.key)
  {
    match op {
      case OpGet(key, now) =>
        RemovalFollows(store, ideal, past, now, key);
        var i := Find(store, key);
        if i >= 0 {
          assert store[i] in store;
        }
      case OpSet(key, value, evictAt, now) => SetFollows(c, store, ideal, past, key, value, evictAt, now);
      case OpDelete(key, now) => RemovalFollows(store, ideal, past, now, key);
      case OpClear(_) =>
    }
  }

  lemma OpKeepsFollowing(c: Config, ops: seq<Op>, keys: set<Key>)
    requires ops != [] && SetsWithin(ops, keys) && ClockRuns(ops)
    requires Follows(c, ops[..|ops| - 1], keys)
    requires ops[|ops| - 1].OpSet? ==> |Run(c, ops[..|ops| - 1])| < c.maxsize
    ensures Follows(c, ops, keys)
  {
    var n := |ops| - 1;
    var past := if n > 0 then ops[n - 1].now else ops[n].now;
    StoreIsBounded(c, ops[..n]);
    StepFollows(c, Run(c, ops[..n]), Ideal(c, ops[..n]), past, ops[n]);
  }

  lemma {:induction false} FewKeysFollow(c: Config, ops: seq<Op>, keys: set<Key>)
    requires SetsWithin(ops, keys) && ClockRuns(ops) && |keys| < c.maxsize
    ensures Follows(c, ops, keys)
  {
    if ops != [] {
      var most := ops[..|ops| - 1];
      FewKeysFollow(c, most, keys);
      StoreIsBounded(c, most);
      KeysBoundSize(Run(c, most), keys);
      OpKeepsFollowing(c, ops, keys);
    }
  }

  /** With one key the only entry ever dropped is the one being replaced. */
  lemma {:induction false} OneKeyFollows(c: Config, ops: seq<Op>, keys: set<Key>)
    requires SetsWithin(ops, keys) && ClockRuns(ops) && |keys| <= 1 && c.maxsize >= 1
    ensures Follows(c, ops, keys)
  {
    if ops != [] {
      var n := |ops| - 1;
      var before := Run(c, ops[..n]);
      OneKeyFollows(c, ops[..n], keys);
      StoreIsBounded(c, ops[..n]);
      if ops[n].OpSet? && |before| >= c.maxsize {
        forall k | k in keys
          ensures k == ops[n].key
        {
          if k != ops[n].key {
            SubsetIsNoLarger({k, ops[n].key}, keys);
          }
        }
        OneKeySetFollows(c, ops, keys);
      } else {
        OpKeepsFollowing(c, ops, keys);
      }
    }
  }

  lemma OnlyKeySetFollows(c: Config, store: seq<Entry>, ideal: map<Key, Entry>, past: int, key: Key, value: Value,
                          evictAt: int, now: int)
    requires DistinctKeys(store) && |store| <= Capacity(c) && Complete(store, ideal, past) && past <= now
             && c.maxsize >= 1
    requires forall e :: e in store ==> e.key == key
    ensures Complete(AfterSet(c, store, key, value, evictAt, now), ideal[key := Entry(key, now + c.ttl, value)], now)
    ensures forall e :: e in AfterSet(c, store, key, value, evictAt, now) ==> e.key == key
  {
    SetKeepsStore(c, store, key, value, evictAt, now);
  }

  lemma OneKeySetFollows(c: Config, ops: seq<Op>, keys: set<Key>)
    requires ops != [] && ops[|ops| - 1].OpSet? && ClockRuns(ops) && c.maxsize >= 1
    requires Follows(c, ops[..|ops| - 1], keys) && ops[|ops| - 1].key in keys
    requires forall k :: k in keys ==> k == ops[|ops| - 1].key
    ensures Follows(c, ops, keys)
  {
    var n := |ops| - 1;
    var past := if n > 0 then ops[n - 1].now else ops[n].now;
    StoreIsBounded(c, ops[..n]);
    OnlyKeySetFollows(c, Run(c, ops[..n]), Ideal(c, ops[..n]), past, ops[n].key, ops[n].value, ops[n].evictAt,
                      ops[n].now);
  }

  lemma SubsetIsNoLarger(a: set<Key>, b: set<Key>)
    requires a <= b
    ensures |a| <= |b|
  {
    assert b == a + (b - a);
  }

  ghost predicate AgreesWithIdeal(c: Config, ops: seq<Op>, key: Key, now: int) {
    Got(Run(c, ops), key, now) == IdealGot(Ideal(c, ops), key, now)
  }

  lemma FollowingAgrees(c: Config, ops: seq<Op>, keys: set<Key>, key: Key, now: int)
    requires Follows(c, ops, keys) && LastTime(ops, now) <= now
    ensures AgreesWithIdeal(c, ops, key, now)
  {
    StoreIsBounded(c, ops);
    var i := Find(Run(c, ops), key);
    if i >= 0 {
      assert Run(c, ops)[i] in Run(c, ops);
    }
  }

  ghost predicate AlwaysAgrees(c: Config, keys: set<Key>) {
    forall ops: seq<Op>, key: Key, now: int ::
      SetsWithin(ops, keys) && ClockRuns(ops) && LastTime(ops, now) <= now ==> AgreesWithIdeal(c, ops, key, now)
  }

  function FillOps(ks: seq<Key>, value: Value): (ops: seq<Op>)
    ensures |ops| == |ks|
    ensures forall i :: 0 <= i < |ks| ==> ops[i] == OpSet(ks[i], value, 0, 0)
  {
    if ks == [] then [] else FillOps(ks[..|ks| - 1], value) + [OpSet(ks[|ks| - 1], value, 0, 0)]
  }

  function FillEntries(c: Config, ks: seq<Key>, value: Value): (entries: seq<Entry>)
    ensures |entries| == |ks|
    ensures forall i :: 0 <= i < |ks| ==> entries[i] == Entry(ks[i], c.ttl, value)
  {
    if ks == [] then [] else FillEntries(c, ks[..|ks| - 1], value) + [Entry(ks[|ks| - 1], c.ttl, value)]
  }

  ghost predicate DistinctSeq(ks: seq<Key>) {
    forall i, j :: 0 <= i < j < |ks| ==> ks[i] != ks[j]
  }

  lemma {:induction false} AbsentIsNotFound(store: seq<Entry>, key: Key)
    requires forall i :: 0 <= i < |store| ==> store[i].key != key
    ensures Find(store, key) == -1
  {
  }

  lemma SetAppends(c: Config, store: seq<Entry>, key: Key, value: Value)
    requires |store| < c.maxsize && forall i :: 0 <= i < |store| ==> store[i].key != key
    ensures AfterSet(c, store, key, value, 0, 0) == store + [Entry(key, c.ttl, value)]
  {
    AbsentIsNotFound(store, key);
  }

  lemma {:induction false} FillingKeepsOrder(c: Config, ks: seq<Key>, value: Value)
    requires DistinctSeq(ks) && |ks| <= c.maxsize
    ensures Run(c, FillOps(ks, value)) == FillEntries(c, ks, value)
  {
    if ks != [] {
      var n := |ks| - 1;
      FillingKeepsOrder(c, ks[..n], value);
      assert FillOps(ks, value)[..n] == FillOps(ks[..n], value);
      SetAppends(c, FillEntries(c, ks[..n], value), ks[n], value);
    }
  }

  lemma {:induction false} FillingIsIdeal(c: Config, ks: seq<Key>, value: Value, k: Key)
    requires k in ks
    ensures k in Ideal(c, FillOps(ks, value)) && Ideal(c, FillOps(ks, value))[k] == Entry(k, c.ttl, value)
  {
    var n := |ks| - 1;
    assert FillOps(ks, value)[..n] == FillOps(ks[..n], value);
    if k != ks[n] {
      FillingIsIdeal(c, ks[..n], value, k);
    }
  }

  lemma {:induction false} PickDistinct(keys: set<Key>, n: nat) returns (ks: seq<Key>)
    requires n <= |keys|
    ensures |ks| == n && DistinctSeq(ks) && forall k :: k in ks ==> k in keys
    decreases n
  {
    if n == 0 {
      ks := [];
    } else {
      var k :| k in keys;
      var rest := PickDistinct(keys - {k}, n - 1);
      ks := [k] + rest;
    }
  }

  lemma {:induction false} AllLive(c: Config, ks: seq<Key>, value: Value)
    requires c.ttl >= 0
    ensures Live(FillEntries(c, ks, value), 0) == FillEntries(c, ks, value)
  {
    if ks != [] {
      AllLive(c, ks[..|ks| - 1], value);
      assert FillEntries(c, ks, value)[..|ks| - 1] == FillEntries(c, ks[..|ks| - 1], value);
    }
  }

  lemma FullSetDropsOldest(c: Config, store: seq<Entry>, x: Key, value: Value)
    requires DistinctKeys(store) && c.maxsize == |store| >= 1 && Live(store, 0) == store && x != store[0].key
    ensures Got(AfterSet(c, store, x, value, 0, 0), store[0].key, 0) == None
  {
    var room := store[1..];
    assert AfterSet(c, store, x, value, 0, 0) == Put(room, Entry(x, c.ttl, value));
    PutKeepsDistinct(room, Entry(x, c.ttl, value));
    var after := Put(room, Entry(x, c.ttl, value));
    forall e | e in after
      ensures e.key != store[0].key
    {
      if e in room {
        var j :| 0 <= j < |room| && room[j] == e;
      }
    }
    AbsentIsNotFound(after, store[0].key);
  }

  lemma OneMore(c: Config, ops: seq<Op>, op: Op)
    ensures Run(c, ops + [op]) == Step(c, Run(c, ops), op)
    ensures Ideal(c, ops + [op]) == IdealStep(c, Ideal(c, ops), op)
  {
    assert (ops + [op])[..|ops|] == ops;
  }

  lemma FillingTakesNoTime(ks: seq<Key>, x: Key, value: Value)
    ensures ClockRuns(FillOps(ks, value) + [OpSet(x, value, 0, 0)])
  {
  }

  /**
    A full cache set once more drops its oldest entry, even when the key set is already there and all entries are
    live.
   */
  lemma {:induction false} FullCacheForgets(c: Config, ks: seq<Key>, x: Key, value: Value)
    requires c.ttl >= 0 && c.maxsize == |ks| >= 1 && DistinctSeq(ks) && x != ks[0]
    ensures !AgreesWithIdeal(c, FillOps(ks, value) + [OpSet(x, value, 0, 0)], ks[0], 0)
  {
    var store, ideal := Run(c, FillOps(ks, value)), Ideal(c, FillOps(ks, value));
    OneMore(c, FillOps(ks, value), OpSet(x, value, 0, 0));
    assert Got(AfterSet(c, store, x, value, 0, 0), ks[0], 0) == None by {
      FillingKeepsOrder(c, ks, value);
      AllLive(c, ks, value);
      FullSetDropsOldest(c, FillEntries(c, ks, value), x, value);
    }
    FillingIsIdeal(c, ks, value, ks[0]);
    assert IdealGot(IdealStep(c, ideal, OpSet(x, value, 0, 0)), ks[0], 0) == Some(value);
  }

  /**
    Over a set of keys the cache is indistinguishable from the unbounded map exactly when there are fewer keys than
    places, or there is at most one key.
   */
  lemma CacheIsIdealIffRoomToSpare(c: Config, keys: set<Key>)
    requires c.maxsize >= 1 && c.ttl >= 0
    ensures AlwaysAgrees(c, keys) <==> |keys| < c.maxsize || |keys| <= 1
  {
    if |keys| < c.maxsize || |keys| <= 1 {
      forall ops: seq<Op>, key: Key, now: int | SetsWithin(ops, keys) && ClockRuns(ops) && LastTime(ops, now) <= now
        ensures AgreesWithIdeal(c, ops, key, now)
      {
        if |keys| < c.maxsize {
          FewKeysFollow(c, ops, keys);
        } else {
          OneKeyFollows(c, ops, keys);
        }
        FollowingAgrees(c, ops, keys, key, now);
      }
    } else {
      var ks := PickDistinct(keys, c.maxsize);
      assert ks[0] in keys;
      assert |keys - {ks[0]}| == |keys| - 1;
      var x :| x in keys - {ks[0]};
      FullCacheForgets(c, ks, x, Value(0));
      FillingTakesNoTime(ks, x, Value(0));
      var ops := FillOps(ks, Value(0)) + [OpSet(x, Value(0), 0, 0)];
      assert SetsWithin(ops, keys);
      assert LastTime(ops, 0) <= 0;
      assert !AgreesWithIdeal(c, ops, ks[0], 0);
    }
  }
}
