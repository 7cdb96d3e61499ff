/** The scheduler's tables: job locks, runs and daily snapshots. Each method is one committed transaction. */
module PaperLedgerStore {
  import opened Results

  datatype JobKey = JobKey(market: string, day: int)

  datatype Status = Running | Success | Failed | Skipped

  datatype RunSource = Auto | Manual | Backfill

  datatype LockRow = LockRow(status: Status, owner: nat, lockedAt: int, expiresAt: int)

  datatype RunRow = RunRow(key: JobKey, source: RunSource, status: Status)

  datatype StoreError = MultipleRows | NoSuchRun

  type Locks = map<JobKey, LockRow>

  type Runs = map<nat, RunRow>

  function Lease(owner: nat, now: int, ttl: int): LockRow {
    LockRow(Running, owner, now, now + ttl)
  }

  /**
    The update behind a failed insert touches the row only when it is still running and its lease had run out at
    `now`.
   */
  predicate CanTakeOver(locks: Locks, key: JobKey, now: int) {
    key in locks && locks[key].status.Running? && locks[key].expiresAt <= now
  }

  predicate Blocks(run: RunRow, key: JobKey, source: RunSource) {
    run.key == key && run.source == source && !run.status.Failed?
  }

  function BlockingRuns(runs: Runs, key: JobKey, source: RunSource): set<nat> {
    set id | id in runs && Blocks(runs[id], key, source)
  }

  /** The single-row lookup over the blocking rows; two of them are an error, not an answer. */
  function Lookup(runs: Runs, key: JobKey, source: RunSource): Result<bool, StoreError> {
    match |BlockingRuns(runs, key, source)|
    case 0 => Ok(false)
    case 1 => Ok(true)
    case _ => Raised(MultipleRows)
  }

  lemma CountsElements(s: set<nat>, one: nat, other: nat)
    requires one in s
    ensures |s| >= 1 && (|s| == 1 <==> s == {one})
    ensures other in s && other != one ==> |s| >= 2
  {
    var rest := s - {one};
    assert s == rest + {one} && |s| == |rest| + 1;
    assert s == {one} ==> rest == {};
    assert other in s && other != one ==> other in rest;
  }

  /**
    One row of the day and source that is running, successful or skipped is found, two of them raise, and without any,
    whatever has failed, the answer is no.
   */
  lemma StandingRowsAreFound(runs: Runs, key: JobKey, source: RunSource)
    ensures Lookup(runs, key, source) == Ok(false) <==>
            forall i :: i in runs && runs[i].key == key && runs[i].source == source ==> runs[i].status == Failed
    ensures Lookup(runs, key, source) == Ok(true) <==>
            exists i :: i in runs && runs[i].key == key && runs[i].source == source
              && (runs[i].status == Running || runs[i].status == Success || runs[i].status == Skipped)
              && forall j :: j in runs && j != i && runs[j].key == key && runs[j].source == source ==>
                   runs[j].status == Failed
    ensures Lookup(runs, key, source) == Raised(MultipleRows) <==>
            exists i, j :: i in runs && j in runs && i != j && runs[i].key == runs[j].key == key
              && runs[i].source == runs[j].source == source && runs[i].status != Failed && runs[j].status != Failed
  {
    var rows := BlockingRuns(runs, key, source);
    if rows == {} {
      forall i | i in runs && runs[i].key == key && runs[i].source == source
        ensures runs[i].status == Failed
      {
        assert i !in rows;
      }
    } else {
      var i :| i in rows;
      CountsElements(rows, i, i);
      if j :| j in rows && j != i {
        CountsElements(rows, i, j);
      } else {
        assert rows == {i};
        forall j | j in runs && j != i && runs[j].key == key && runs[j].source == source
          ensures runs[j].status == Failed
        {
          assert j !in rows;
        }
      }
    }
  }

  class Store {
    var locks: Locks
    var runs: Runs
    var navs: map<JobKey, real>

    constructor ()
      ensures locks == map[] && runs == map[] && navs == map[]
    {
      locks, runs, navs := map[], map[], map[];
    }

    /** The insert is rejected when the key exists. */
    method InsertLock(key: JobKey, owner: nat, now: int, ttl: int) returns (inserted: bool)
      modifies this`locks
      ensures inserted <==> key !in old(locks)
      ensures locks == if inserted then old(locks)[key := Lease(owner, now, ttl)] else old(locks)
    {
      inserted := key !in locks;
      if inserted {
        locks := locks[key := Lease(owner, now, ttl)];
      }
    }

    method TakeOverLock(key: JobKey, owner: nat, now: int, ttl: int) returns (taken: bool)
      modifies this`locks
      ensures taken <==> CanTakeOver(old(locks), key, now)
      ensures locks == if taken then old(locks)[key := Lease(owner, now, ttl)] else old(locks)
    {
      taken := key in locks && locks[key].status.Running? && locks[key].expiresAt <= now;
      if taken {
        locks := locks[key := locks[key].(owner := owner, lockedAt := now, expiresAt := now + ttl)];
      }
    }

    /** Without interference: the lock is won exactly when the key is new, or running on a lease that has run out. */
    method AcquireJobLock(key: JobKey, owner: nat, now: int, ttl: int) returns (acquired: bool)
      modifies this`locks
      ensures acquired <==> key !in old(locks) || CanTakeOver(old(locks), key, now)
      ensures locks == if acquired then old(locks)[key := Lease(owner, now, ttl)] else old(locks)
    {
      acquired := InsertLock(key, owner, now, ttl);
      if !acquired {
        acquired := TakeOverLock(key, owner, now, ttl);
      }
    }

    /** Nobody's ownership is checked here; a missing key is ignored. */
    method FinishJobLock(key: JobKey, status: Status)
      modifies this`locks
      ensures locks == Finished(old(locks), key, status)
    {
      if key in locks {
        locks := locks[key := locks[key].(status := status)];
      }
    }

    /** Two blocking rows are an error of the single-row lookup, not an answer. */
    method CheckRunExists(key: JobKey, source: RunSource) returns (r: Result<bool, StoreError>)
      ensures r == Lookup(runs, key, source)
    {
      var rows := BlockingRuns(runs, key, source);
      if |rows| > 1 {
        return Raised(MultipleRows);
      }
      r := Ok(|rows| == 1);
    }

    method CreateRun(id: nat, key: JobKey, source: RunSource)
      requires id !in runs
      modifies this`runs
      ensures runs == old(runs)[id := RunRow(key, source, Running)]
    {
      runs := runs[id := RunRow(key, source, Running)];
    }

    method UpdateRunStatus(id: nat, status: Status) returns (r: Result<(), StoreError>)
      modifies this`runs
      ensures r.Ok? <==> id in old(runs)
      ensures runs == if id in old(runs) then Marked(old(runs), id, status) else old(runs)
    {
      if id !in runs {
        return Raised(NoSuchRun);
      }
      runs := runs[id := runs[id].(status := status)];
      r := Ok(());
    }

    /** The first snapshot of a day stays; a later one is answered with it. */
    method CreateNavSnapshot(key: JobKey, nav: real) returns (stored: real)
      modifies this`navs
      ensures navs == Snapped(old(navs), key, nav)
      ensures stored == navs[key]
    {
      navs, stored := InsertSnapshot(navs, key, nav);
    }
  }

  function Finished(locks: Locks, key: JobKey, status: Status): Locks {
    if key in locks then locks[key := locks[key].(status := status)] else locks
  }

  function Marked(runs: Runs, id: nat, status: Status): Runs
    requires id in runs
  {
    runs[id := runs[id].(status := status)]
  }

  /** A row goes in under a key that is new; under a taken key the first row stays. */
  function Snapped<K, V>(rows: map<K, V>, key: K, row: V): (after: map<K, V>)
    ensures key in after
  {
    if key in rows then rows else rows[key := row]
  }

  /** The insert is refused for a taken key, and the row found there is answered instead. */
  method InsertSnapshot<K(==), V>(rows: map<K, V>, key: K, row: V) returns (after: map<K, V>, stored: V)
    ensures after == Snapped(rows, key, row) && stored == after[key]
  {
    after := rows;
    if key !in after {
      after := after[key := row];
    }
    stored := after[key];
  }
}
