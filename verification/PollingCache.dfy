/**
  The stale-while-refresh cache behind the polling endpoints: a fresh entry is answered at once; otherwise one caller
  per key refreshes while the others answer with the stale entry they saw, or wait when they saw none.
 */
module PollingCache {
  import opened Results

  datatype Key = Key(name: string)

  /** A cached object, only ever handed back. */
  datatype Value = Value(identity: nat)

  datatype Entry = Entry(expiresAt: int, value: Value)

  datatype Outcome = Returned(value: Value) | Threw

  type Entries = map<Key, Entry>

  /** A key's lock, once created, is free or held by one caller. */
  type Locks = map<Key, Option<nat>>

  function EntryOf(entries: Entries, key: Key): Option<Entry> {
    if key in entries then Some(entries[key]) else None
  }

  predicate IsFresh(seen: Option<Entry>, now: int) {
    seen.Some? && seen.value.expiresAt > now
  }

  function Created(locks: Locks, key: Key): Locks {
    if key in locks then locks else locks[key := None]
  }

  /** What the first lock attempt answers when a refresh raises: the stale entry if one was seen. */
  function Fallback(seen: Option<Entry>): Outcome {
    if seen.Some? then Returned(seen.value.value) else Threw
  }

  /** An uninterrupted call: the entries and locks it leaves, and how it ends. */
  function Alone(ttl: int, entries: Entries, locks: Locks, key: Key, now: int, refreshed: Outcome,
                 storedAt: int): (Entries, Locks, Outcome)
    requires key in locks && locks[key].Some? ==> key in entries
  {
    var seen := EntryOf(entries, key);
    if IsFresh(seen, now) || (key in locks && locks[key].Some?) then (entries, locks, Returned(seen.value.value))
    else
      match refreshed
      case Returned(value) => (entries[key := Entry(storedAt + ttl, value)], locks[key := None], refreshed)
      case Threw => (entries, locks[key := None], Fallback(seen))
  }

  /**
    An entry is answered as it is until the instant it expires. From then on, or without one, whoever finds the lock
    free refreshes: what the refresh returns is the answer and stays for the time-to-live, and when it raises the
    expired entry is the answer if there is one. Whoever finds the lock taken answers the expired entry.
   */
  lemma AloneMeans(ttl: int, entries: Entries, locks: Locks, key: Key, now: int, refreshed: Outcome, storedAt: int)
    requires key in locks && locks[key].Some? ==> key in entries
    ensures var (entries', locks', r) := Alone(ttl, entries, locks, key, now, refreshed, storedAt);
            var expired := key in entries ==> entries[key].expiresAt <= now;
            var taken := key in locks && locks[key] != None;
            && (!expired ==> r == Returned(entries[key].value) && entries' == entries && locks' == locks)
            && (expired && taken ==> r == Returned(entries[key].value) && entries' == entries && locks' == locks)
            && (expired && !taken ==> locks' == locks[key := None])
            && (expired && !taken && refreshed.Returned? ==>
                  r == refreshed && entries' == entries[key := Entry(storedAt + ttl, refreshed.value)])
            && (expired && !taken && refreshed.Threw? ==>
                  r == (if key in entries then Returned(entries[key].value) else Threw) && entries' == entries)
  {
  }

  /**
    What a refresh stored is answered without another refresh for less than the time-to-live, and refreshed from then
    on.
   */
  lemma StoredForTheTimeToLive(ttl: int, entries: Entries, locks: Locks, key: Key, now: int, value: Value,
                               storedAt: int, later: int, again: Value, storedAgain: int)
    requires key in entries ==> entries[key].expiresAt <= now
    requires key in locks ==> locks[key] == None
    ensures var (entries', locks', _) := Alone(ttl, entries, locks, key, now, Returned(value), storedAt);
            var (_, _, r) := Alone(ttl, entries', locks', key, later, Returned(again), storedAgain);
            r == Returned(if later < storedAt + ttl then value else again)
  {
  }

  class Cache {
    const ttl: int
    var entries: Entries
    var locks: Locks

    constructor (ttl: int)
      ensures this.ttl == ttl && entries == map[] && locks == map[]
    {
      this.ttl, entries, locks := ttl, map[], map[];
    }

    method LockFor(key: Key)
      modifies this`locks
      ensures locks == Created(old(locks), key)
    {
      if key !in locks {
        locks := locks[key := None];
      }
    }

    method TryAcquire(key: Key, caller: nat) returns (acquired: bool)
      requires key in locks
      modifies this`locks
      ensures acquired <==> old(locks)[key].None?
      ensures locks == if acquired then old(locks)[key := Some(caller)] else old(locks)
    {
      acquired := locks[key].None?;
      if acquired {
        locks := locks[key := Some(caller)];
      }
    }

    method Release(key: Key)
      requires key in locks
      modifies this`locks
      ensures locks == old(locks)[key := None]
    {
      locks := locks[key := None];
    }

    method Clear()
      modifies this`entries
      ensures entries == map[]
    {
      entries := map[];
    }

    /**
      A call nothing interleaves with; `refreshed` is what the refresh would do. It cannot end while another caller
      holds the lock and there is no entry to fall back on.
     */
    method GetOrRefresh(key: Key, caller: nat, now: int, refreshed: Outcome, storedAt: int) returns (r: Outcome)
      requires key in locks && locks[key].Some? ==> key in entries
      modifies this
      ensures Alone(ttl, old(entries), old(locks), key, now, refreshed, storedAt) == (entries, locks, r)
      ensures key in old(entries) && now < old(entries)[key].expiresAt ==>
                r == Returned(old(entries)[key].value) && entries == old(entries) && locks == old(locks)
      ensures (key in old(entries) ==> old(entries)[key].expiresAt <= now)
              && (key in old(locks) ==> old(locks)[key] == None) && refreshed.Returned? ==>
                r == refreshed && entries == old(entries)[key := Entry(storedAt + ttl, refreshed.value)]
    {
      var entry := EntryOf(entries, key);
      if entry.Some? && entry.value.expiresAt > now {
        return Returned(entry.value.value);
      }
      LockFor(key);
      var acquired := TryAcquire(key, caller);
      if !acquired {
        return Returned(entry.value.value);
      }
      match refreshed {
        case Returned(value) =>
          entries := entries[key := Entry(storedAt + ttl, value)];
          r := Returned(value);
        case Threw =>
          r := Fallback(entry);
      }
      Release(key);
      assert locks == old(locks)[key := None];
    }
  }
}
