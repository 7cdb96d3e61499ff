/**
  The daily job run by many workers on shared tables. Every step is one committed transaction, one clock reading, a
  raised exception or a crash; steps of different workers interleave in any order. The clock never runs backwards.
 */
module DailyJobProtocol {
  import opened PaperLedgerStore
  import opened Results

  const TTL_SECONDS := 2 * 60 * 60

  /**
    Where a worker is in the job. `FinishingRun` closes the lock after the run; the two last ones are the exception
    handler.
   */
  datatype Stage =
    | Idle
    | ReadClock
    | InsertRefused
    | Locked
    | Checked
    | Trading
    | FinishingRun(outcome: Status)
    | MarkingFailed
    | FinishingFailed
    | Done

  datatype Worker = Worker(stage: Stage, key: JobKey, now: int, leaseEnd: int, run: Option<nat>)

  datatype System = System(clock: int, locks: Locks, runs: Runs, navs: map<JobKey, real>, workers: map<nat, Worker>)

  datatype Action =
    | Tick(seconds: nat)
    | OtherRun(id: nat, key: JobKey, source: RunSource)
    | OtherUpdate(id: nat, status: Status)
    | Begin(w: nat, key: JobKey)
    | Insert(w: nat)
    | TakeOver(w: nat)
    | Check(w: nat)
    | Create(w: nat, id: nat)
    | Snapshot(w: nat, nav: real)
    | EndTrading(w: nat, outcome: Status)
    | FinishLock(w: nat)
    | Raise(w: nat)
    | MarkFailed(w: nat)
    | Crash(w: nat)

  /** Stages that come after the lock was won; the worker counts as holding it until its lease ends. */
  predicate HasLease(stage: Stage) {
    stage.Locked? || stage.Checked? || stage.Trading? || stage.FinishingRun? || stage.MarkingFailed?
      || stage.FinishingFailed?
  }

  predicate At(s: System, w: nat, stage: Stage) {
    w in s.workers && s.workers[w].stage == stage
  }

  predicate Enabled(s: System, a: Action) {
    match a
    case Tick(_) => true
    case OtherRun(id, _, source) => id !in s.runs && !source.Auto?
    case OtherUpdate(id, _) => id in s.runs && !s.runs[id].source.Auto?
    case Begin(w, _) => w !in s.workers
    case Insert(w) => At(s, w, ReadClock)
    case TakeOver(w) => At(s, w, InsertRefused)
    case Check(w) => At(s, w, Locked)
    case Create(w, id) => At(s, w, Checked) && id !in s.runs
    case Snapshot(w, _) => At(s, w, Trading)
    case EndTrading(w, outcome) => At(s, w, Trading) && (outcome.Success? || outcome.Skipped?) && s.workers[w].run.Some?
                                   && s.workers[w].run.value in s.runs
    case FinishLock(w) => w in s.workers && (s.workers[w].stage.FinishingRun? || s.workers[w].stage.FinishingFailed?)
    case Raise(w) => w in s.workers && !s.workers[w].stage.Done? && !s.workers[w].stage.MarkingFailed?
      && !s.workers[w].stage.FinishingFailed?
    case MarkFailed(w) => At(s, w, MarkingFailed) && (s.workers[w].run.Some? ==> s.workers[w].run.value in s.runs)
    case Crash(w) => w in s.workers
  }

  function Goto(s: System, w: nat, worker: Worker): System {
    s.(workers := s.workers[w := worker])
  }

  function CheckedStage(rows: nat): Stage {
    match rows
    case 0 => Checked
    case 1 => FinishingRun(Skipped)
    case _ => MarkingFailed
  }

  function Perform(s: System, a: Action): System
    requires Enabled(s, a)
  {
    match a
    case Tick(seconds) => s.(clock := s.clock + seconds)
    case OtherRun(id, key, source) => s.(runs := s.runs[id := RunRow(key, source, Running)])
    case OtherUpdate(id, status) => s.(runs := Marked(s.runs, id, status))
    case Begin(w, key) => Goto(s, w, Worker(ReadClock, key, s.clock, 0, None))
    case Insert(w) =>
      var me := s.workers[w];
      if me.key !in s.locks then Goto(Leased(s, w, me), w, me.(stage := Locked, leaseEnd := me.now + TTL_SECONDS))
      else Goto(s, w, me.(stage := InsertRefused))
    case TakeOver(w) =>
      var me := s.workers[w];
      if CanTakeOver(s.locks, me.key, me.now)
        then Goto(Leased(s, w, me), w, me.(stage := Locked, leaseEnd := me.now + TTL_SECONDS))
      else Goto(s, w, me.(stage := Done))
    case Check(w) =>
      Goto(s, w, s.workers[w].(stage := CheckedStage(|BlockingRuns(s.runs, s.workers[w].key, Auto)|)))
    case Create(w, id) =>
      Goto(s.(runs := s.runs[id := RunRow(s.workers[w].key, Auto, Running)]), w,
           s.workers[w].(stage := Trading, run := Some(id)))
    case Snapshot(w, nav) => s.(navs := Snapped(s.navs, s.workers[w].key, nav))
    case EndTrading(w, outcome) =>
      Goto(s.(runs := Marked(s.runs, s.workers[w].run.value, outcome)), w,
           s.workers[w].(stage := FinishingRun(outcome)))
    case FinishLock(w) =>
      var stage := s.workers[w].stage;
      Goto(s.(locks := Finished(s.locks, s.workers[w].key, if stage.FinishingRun? then stage.outcome else Failed)),
           w, s.workers[w].(stage := Done))
    case Raise(w) => Goto(s, w, s.workers[w].(stage := if HasLease(s.workers[w].stage) then MarkingFailed else Done))
    case MarkFailed(w) =>
      var me := s.workers[w];
      Goto(if me.run.Some? then s.(runs := Marked(s.runs, me.run.value, Failed))
           else s, w, me.(stage := FinishingFailed))
    case Crash(w) => Goto(s, w, s.workers[w].(stage := Done))
  }

  function Leased(s: System, w: nat, me: Worker): System {
    s.(locks := s.locks[me.key := Lease(w, me.now, TTL_SECONDS)])
  }

  // Runs of the system --------------------------------------------------------------------------------------------

  predicate Possible(s: System, actions: seq<Action>)
    decreases |actions|
  {
    actions == [] || (Enabled(s, actions[0]) && Possible(Perform(s, actions[0]), actions[1..]))
  }

  function After(s: System, actions: seq<Action>): System
    requires Possible(s, actions)
    decreases |actions|
  {
    if actions == [] then s else After(Perform(s, actions[0]), actions[1..])
  }

  function Start(clock: int): System {
    System(clock, map[], map[], map[], map[])
  }

  // Leases --------------------------------------------------------------------------------------------------------

  /** Either the lock row is still this worker's lease, or the lease had ended before the row was leased again. */
  ghost predicate LeaseOk(clock: int, locks: Locks, w: nat, me: Worker) {
    && (me.stage.ReadClock? || me.stage.InsertRefused? ==>
          me.now <= clock && forall k :: k in locks ==> locks[k].owner != w)
    && (me.stage.InsertRefused? ==> me.key in locks)
    && (HasLease(me.stage) ==>
          && me.key in locks
          && if locks[me.key].owner == w then locks[me.key].expiresAt == me.leaseEnd
             else me.leaseEnd <= locks[me.key].lockedAt)
  }

  ghost predicate LocksOk(s: System) {
    forall k :: k in s.locks ==>
      && s.locks[k].lockedAt <= s.clock && s.locks[k].expiresAt == s.locks[k].lockedAt + TTL_SECONDS
      && s.locks[k].owner in s.workers
  }

  ghost predicate LeasesAccounted(s: System) {
    LocksOk(s) && forall w :: w in s.workers ==> LeaseOk(s.clock, s.locks, w, s.workers[w])
  }

  predicate HoldsUnexpired(s: System, w: nat, key: JobKey) {
    w in s.workers && HasLease(s.workers[w].stage) && s.workers[w].key == key && s.clock < s.workers[w].leaseEnd
  }

  /**
    Leasing a key to `v`, which is allowed when the key is new or its last lease had run out, keeps the others
    accounted for.
   */
  lemma LeasingKeepsOthers(s: System, w: nat, v: nat)
    requires LeasesAccounted(s) && w in s.workers && v in s.workers && v != w
    requires s.workers[v].key !in s.locks || CanTakeOver(s.locks, s.workers[v].key, s.workers[v].now)
    ensures LeaseOk(s.clock, Leased(s, v, s.workers[v]).locks, w, s.workers[w])
  {
    assert LeaseOk(s.clock, s.locks, w, s.workers[w]);
  }

  lemma InsertKeepsLease(s: System, a: Action, t: System, w: nat)
    requires LeasesAccounted(s) && Enabled(s, a) && t == Perform(s, a) && w in t.workers && a.Insert?
    ensures LeaseOk(t.clock, t.locks, w, t.workers[w])
  {
    assert LeaseOk(s.clock, s.locks, w, s.workers[w]);
    if a.w != w && s.workers[a.w].key !in s.locks {
      LeasingKeepsOthers(s, w, a.w);
    }
  }

  lemma TakeOverKeepsLease(s: System, a: Action, t: System, w: nat)
    requires LeasesAccounted(s) && Enabled(s, a) && t == Perform(s, a) && w in t.workers && a.TakeOver?
    ensures LeaseOk(t.clock, t.locks, w, t.workers[w])
  {
    assert LeaseOk(s.clock, s.locks, w, s.workers[w]);
    if a.w != w && CanTakeOver(s.locks, s.workers[a.w].key, s.workers[a.w].now) {
      LeasingKeepsOthers(s, w, a.w);
    }
  }

  lemma StepKeepsLease(s: System, a: Action, t: System, w: nat)
    requires LeasesAccounted(s) && Enabled(s, a) && t == Perform(s, a) && w in t.workers
    ensures LeaseOk(t.clock, t.locks, w, t.workers[w])
  {
    if a.Insert? {
      InsertKeepsLease(s, a, t, w);
    } else if a.TakeOver? {
      TakeOverKeepsLease(s, a, t, w);
    } else if a.FinishLock? {
      FinishKeepsLease(s, a, t, w);
    } else {
      QuietStepKeepsLease(s, a, t, w);
    }
  }

  lemma FinishKeepsLease(s: System, a: Action, t: System, w: nat)
    requires LeasesAccounted(s) && Enabled(s, a) && t == Perform(s, a) && w in t.workers && a.FinishLock?
    ensures LeaseOk(t.clock, t.locks, w, t.workers[w])
  {
    assert LeaseOk(s.clock, s.locks, w, s.workers[w]);
  }

  lemma QuietStepKeepsLease(s: System, a: Action, t: System, w: nat)
    requires LeasesAccounted(s) && Enabled(s, a) && t == Perform(s, a) && w in t.workers
    requires !a.Insert? && !a.TakeOver? && !a.FinishLock?
    ensures LeaseOk(t.clock, t.locks, w, t.workers[w])
  {
    assert t.locks == s.locks && t.clock >= s.clock;
    if w in s.workers {
      assert LeaseOk(s.clock, s.locks, w, s.workers[w]);
    }
  }

  lemma LeasingKeepsLocks(s: System, w: nat)
    requires LeasesAccounted(s) && w in s.workers && s.workers[w].now <= s.clock
    ensures LocksOk(Leased(s, w, s.workers[w]))
  {
  }

  lemma StepKeepsLocks(s: System, a: Action, t: System)
    requires LeasesAccounted(s) && Enabled(s, a) && t == Perform(s, a)
    ensures LocksOk(t)
  {
    if a.Insert? || a.TakeOver? {
      assert LeaseOk(s.clock, s.locks, a.w, s.workers[a.w]);
      LeasingKeepsLocks(s, a.w);
    } else {
      QuietStepKeepsLocks(s, a, t);
    }
  }

  lemma QuietStepKeepsLocks(s: System, a: Action, t: System)
    requires LocksOk(s) && Enabled(s, a) && t == Perform(s, a) && !a.Insert? && !a.TakeOver?
    ensures LocksOk(t)
  {
    assert t.clock >= s.clock;
  }

  lemma StepKeepsLeases(s: System, a: Action)
    requires LeasesAccounted(s) && Enabled(s, a)
    ensures LeasesAccounted(Perform(s, a))
  {
    var t := Perform(s, a);
    StepKeepsLocks(s, a, t);
    forall w | w in t.workers
      ensures LeaseOk(t.clock, t.locks, w, t.workers[w])
    {
      StepKeepsLease(s, a, t, w);
    }
  }

  lemma {:induction false} RunKeepsLeases(s: System, actions: seq<Action>)
    requires LeasesAccounted(s) && Possible(s, actions)
    ensures LeasesAccounted(After(s, actions))
    decreases |actions|
  {
    if actions != [] {
      StepKeepsLeases(s, actions[0]);
      RunKeepsLeases(Perform(s, actions[0]), actions[1..]);
    }
  }

  /** In every reachable state two different workers never both hold an unexpired lease on one key. */
  lemma LeasesExcludeEachOther(clock: int, actions: seq<Action>, v: nat, w: nat, key: JobKey)
    requires Possible(Start(clock), actions)
    requires HoldsUnexpired(After(Start(clock), actions), v, key)
             && HoldsUnexpired(After(Start(clock), actions), w, key)
    ensures v == w
  {
    var s := After(Start(clock), actions);
    RunKeepsLeases(Start(clock), actions);
    assert LeaseOk(s.clock, s.locks, v, s.workers[v]) && LeaseOk(s.clock, s.locks, w, s.workers[w]);
  }

  /** Winning a key leases it to the winner from the instant it read its clock, for two hours. */
  lemma LeaseLastsTwoHours(s: System, w: nat)
    requires Enabled(s, Insert(w)) && s.workers[w].key !in s.locks
    ensures var t, me := Perform(s, Insert(w)), s.workers[w];
            && t.locks == s.locks[me.key := LockRow(Running, w, me.now, me.now + 7200)]
            && t.workers[w].stage == Locked && t.workers[w].leaseEnd == me.now + 7200
  {
  }

  // Finished keys and taken snapshots are final -------------------------------------------------------------------

  predicate Closed(s: System, key: JobKey) {
    key in s.locks && !s.locks[key].status.Running?
  }

  ghost predicate NotLeasedAgain(s: System, t: System, key: JobKey)
    requires key in s.locks
  {
    && Closed(t, key)
    && t.locks[key].owner == s.locks[key].owner && t.locks[key].lockedAt == s.locks[key].lockedAt
    && forall w :: w in t.workers && HasLease(t.workers[w].stage) && t.workers[w].key == key ==>
         w in s.workers && HasLease(s.workers[w].stage) && s.workers[w].key == key
  }

  ghost predicate SoundStages(s: System) {
    forall w :: w in s.workers && s.workers[w].stage.FinishingRun? ==> !s.workers[w].stage.outcome.Running?
  }

  lemma StepKeepsSoundStages(s: System, a: Action, t: System)
    requires SoundStages(s) && Enabled(s, a) && t == Perform(s, a)
    ensures SoundStages(t)
  {
  }

  lemma StepKeepsClosedRow(s: System, a: Action, t: System, key: JobKey)
    requires SoundStages(s) && Closed(s, key) && Enabled(s, a) && t == Perform(s, a)
    ensures Closed(t, key) && t.locks[key].owner == s.locks[key].owner && t.locks[key].lockedAt == s.locks[key].lockedAt
  {
  }

  lemma StepWinsNoClosedKey(s: System, a: Action, t: System, key: JobKey, w: nat)
    requires Closed(s, key) && Enabled(s, a) && t == Perform(s, a)
    requires w in t.workers && HasLease(t.workers[w].stage) && t.workers[w].key == key
    ensures w in s.workers && HasLease(s.workers[w].stage) && s.workers[w].key == key
  {
  }

  lemma StepKeepsFinished(s: System, a: Action, key: JobKey)
    requires SoundStages(s) && Closed(s, key) && Enabled(s, a)
    ensures NotLeasedAgain(s, Perform(s, a), key)
  {
    var t := Perform(s, a);
    StepKeepsClosedRow(s, a, t, key);
    forall w | w in t.workers && HasLease(t.workers[w].stage) && t.workers[w].key == key
      ensures w in s.workers && HasLease(s.workers[w].stage) && s.workers[w].key == key
    {
      StepWinsNoClosedKey(s, a, t, key, w);
    }
  }

  /** Once a key is finished nobody wins its lock again, whatever happens later. */
  lemma {:induction false} FinishedKeyStaysFinished(s: System, actions: seq<Action>, key: JobKey)
    requires SoundStages(s) && Closed(s, key) && Possible(s, actions)
    ensures NotLeasedAgain(s, After(s, actions), key)
    decreases |actions|
  {
    if actions != [] {
      var t := Perform(s, actions[0]);
      StepKeepsFinished(s, actions[0], key);
      StepKeepsSoundStages(s, actions[0], t);
      FinishedKeyStaysFinished(t, actions[1..], key);
    }
  }

  lemma {:induction false} StagesStaySound(s: System, actions: seq<Action>)
    requires SoundStages(s) && Possible(s, actions)
    ensures SoundStages(After(s, actions))
    decreases |actions|
  {
    if actions != [] {
      StepKeepsSoundStages(s, actions[0], Perform(s, actions[0]));
      StagesStaySound(Perform(s, actions[0]), actions[1..]);
    }
  }

  /** In every run: after a key is finished, at whatever moment, its lock is never won again. */
  lemma FinishedKeyIsNeverLeasedAgain(clock: int, sofar: seq<Action>, later: seq<Action>, key: JobKey)
    requires Possible(Start(clock), sofar) && Possible(After(Start(clock), sofar), later)
    requires Closed(After(Start(clock), sofar), key)
    ensures NotLeasedAgain(After(Start(clock), sofar), After(After(Start(clock), sofar), later), key)
  {
    StagesStaySound(Start(clock), sofar);
    FinishedKeyStaysFinished(After(Start(clock), sofar), later, key);
  }

  /** The snapshot recorded first for a day is the one every later state still has. */
  lemma {:induction false} FirstSnapshotStays(s: System, actions: seq<Action>, key: JobKey)
    requires key in s.navs && Possible(s, actions)
    ensures key in After(s, actions).navs && After(s, actions).navs[key] == s.navs[key]
    decreases |actions|
  {
    if actions != [] {
      FirstSnapshotStays(Perform(s, actions[0]), actions[1..], key);
    }
  }

  // Composing runs ------------------------------------------------------------------------------------------------

  lemma {:induction false} AfterBoth(s: System, first: seq<Action>, second: seq<Action>)
    requires Possible(s, first) && Possible(After(s, first), second)
    ensures Possible(s, first + second) && After(s, first + second) == After(After(s, first), second)
    decreases |first|
  {
    if first == [] {
      assert first + second == second;
    } else {
      AfterBoth(Perform(s, first[0]), first[1..], second);
      assert (first + second)[1..] == first[1..] + second;
    }
  }

  lemma Unfold(s: System, actions: seq<Action>)
    requires actions != [] && Enabled(s, actions[0])
    ensures Possible(s, actions) <==> Possible(Perform(s, actions[0]), actions[1..])
    ensures Possible(s, actions) ==> After(s, actions) == After(Perform(s, actions[0]), actions[1..])
  {
  }

  /**
    Once a running lease is over any new worker can win the lock row. What it can do with it is told by the runs
    table.
   */
  lemma ExpiredLeaseCanBeTakenOver(s: System, w: nat, key: JobKey)
    requires w !in s.workers && key in s.locks && s.locks[key].status.Running? && s.locks[key].expiresAt <= s.clock
    ensures Possible(s, [Begin(w, key), Insert(w), TakeOver(w)])
    ensures HoldsUnexpired(After(s, [Begin(w, key), Insert(w), TakeOver(w)]), w, key)
  {
    var actions := [Begin(w, key), Insert(w), TakeOver(w)];
    var s1 := Perform(s, actions[0]);
    var s2 := Perform(s1, actions[1]);
    Unfold(s2, actions[2..]);
    Unfold(s1, actions[1..]);
    Unfold(s, actions);
    assert actions[2..][1..] == [];
  }
}
