/**
  The runs table under the daily job: when a market and day can have two blocking runs, and when a lost day can be
  recovered.
 */
module DailyJobRuns {
  import opened DailyJobProtocol
  import opened PaperLedgerStore
  import opened Results

  ghost predicate NothingBlocks(runs: Runs, key: JobKey) {
    forall i :: i in runs ==> !Blocks(runs[i], key, Auto)
  }

  ghost predicate AtMostOneBlocks(runs: Runs) {
    forall i, j ::
      i in runs && j in runs && Blocks(runs[i], runs[i].key, Auto) && Blocks(runs[j], runs[i].key, Auto) ==> i == j
  }

  lemma NoRowsNothingBlocks(runs: Runs, key: JobKey)
    ensures |BlockingRuns(runs, key, Auto)| == 0 <==> NothingBlocks(runs, key)
  {
    if NothingBlocks(runs, key) {
      assert BlockingRuns(runs, key, Auto) == {};
    } else {
      var i :| i in runs && Blocks(runs[i], key, Auto);
      assert i in BlockingRuns(runs, key, Auto);
    }
  }

  lemma AtMostOneRow(runs: Runs, key: JobKey)
    requires AtMostOneBlocks(runs)
    ensures |BlockingRuns(runs, key, Auto)| <= 1
  {
    var blocking := BlockingRuns(runs, key, Auto);
    if i :| i in blocking {
      assert forall j :: j in blocking ==> j == i;
      assert blocking == {i};
    }
  }

  // What the check lets pass --------------------------------------------------------------------------------------

  /** In any state a check passes if and only if every automatic run of the day has failed. */
  lemma CheckPassesIff(s: System, w: nat)
    requires Enabled(s, Check(w))
    ensures var me := Perform(s, Check(w)).workers[w];
            me.stage == Checked <==>
              forall i :: i in s.runs && s.runs[i].key == me.key && s.runs[i].source == Auto ==>
                s.runs[i].status == Failed
  {
    StandingRowsAreFound(s.runs, s.workers[w].key, Auto);
  }

  /** The day has an automatic run that ended well, and no live worker owns it or is about to create another. */
  ghost predicate Settled(s: System, key: JobKey, id: nat) {
    && id in s.runs && s.runs[id].key == key && s.runs[id].source == Auto
    && (s.runs[id].status == Success || s.runs[id].status == Skipped)
    && forall w :: w in s.workers ==>
         && (s.workers[w].run == Some(id) ==> s.workers[w].stage == Done)
         && (s.workers[w].key == key ==> s.workers[w].stage != Checked)
  }

  /** Every automatic run of the day was one before. */
  ghost predicate NoNewRun(before: Runs, after: Runs, key: JobKey) {
    forall i :: i in after && after[i].key == key && after[i].source == Auto ==>
      i in before && before[i].key == key && before[i].source == Auto
  }

  lemma StepKeepsSettledRun(s: System, a: Action, t: System, key: JobKey, id: nat)
    requires Settled(s, key, id) && Enabled(s, a) && t == Perform(s, a)
    ensures id in t.runs && t.runs[id] == s.runs[id]
  {
  }

  lemma StepAddsNoRun(s: System, a: Action, t: System, key: JobKey, id: nat)
    requires Settled(s, key, id) && Enabled(s, a) && t == Perform(s, a)
    ensures NoNewRun(s.runs, t.runs, key)
  {
    if a.Create? {
      CreateAddsNoRun(s, a, t, key, id);
    } else if a.EndTrading? || a.MarkFailed? {
      MarkingAddsNoRun(s, a, t, key);
    }
  }

  lemma CreateAddsNoRun(s: System, a: Action, t: System, key: JobKey, id: nat)
    requires Settled(s, key, id) && Enabled(s, a) && t == Perform(s, a) && a.Create?
    ensures NoNewRun(s.runs, t.runs, key)
  {
  }

  lemma MarkingAddsNoRun(s: System, a: Action, t: System, key: JobKey)
    requires Enabled(s, a) && t == Perform(s, a) && (a.EndTrading? || a.MarkFailed?)
    ensures NoNewRun(s.runs, t.runs, key)
  {
  }

  lemma StepKeepsSettledWorker(s: System, a: Action, t: System, key: JobKey, id: nat, w: nat)
    requires Settled(s, key, id) && Enabled(s, a) && t == Perform(s, a) && w in t.workers
    ensures t.workers[w].run == Some(id) ==> t.workers[w].stage == Done
    ensures t.workers[w].key == key ==> t.workers[w].stage != Checked
  {
    if a.Check? {
      CheckPassesIff(s, a.w);
    }
  }

  lemma StepKeepsSettled(s: System, a: Action, t: System, key: JobKey, id: nat)
    requires Settled(s, key, id) && Enabled(s, a) && t == Perform(s, a)
    ensures Settled(t, key, id)
  {
    StepKeepsSettledRun(s, a, t, key, id);
    forall w | w in t.workers
      ensures t.workers[w].run == Some(id) ==> t.workers[w].stage == Done
      ensures t.workers[w].key == key ==> t.workers[w].stage != Checked
    {
      StepKeepsSettledWorker(s, a, t, key, id, w);
    }
  }

  /**
    A day that ended well is traded once: whatever any workers do later, its run stays as it is and no further automatic
    run of the day is created.
   */
  lemma {:induction false} SettledDayIsNotTradedAgain(s: System, actions: seq<Action>, key: JobKey, id: nat)
    requires Settled(s, key, id) && Possible(s, actions)
    ensures var t := After(s, actions);
            && Settled(t, key, id) && t.runs[id] == s.runs[id]
            && NoNewRun(s.runs, t.runs, key)
    decreases |actions|
  {
    if actions != [] {
      var t := Perform(s, actions[0]);
      StepKeepsSettledRun(s, actions[0], t, key, id);
      StepAddsNoRun(s, actions[0], t, key, id);
      StepKeepsSettled(s, actions[0], t, key, id);
      SettledDayIsNotTradedAgain(t, actions[1..], key, id);
    }
  }

  // Exactly when two runs block one day ---------------------------------------------------------------------------

  /** At its creation no run blocks the day: what asking `check_run_exists` once more right before would test. */
  ghost predicate CreatesUnblocked(s: System, a: Action) {
    a.Create? && At(s, a.w, Checked) ==> NothingBlocks(s.runs, s.workers[a.w].key)
  }

  ghost predicate AllCreateUnblocked(s: System, actions: seq<Action>)
    requires Possible(s, actions)
    decreases |actions|
  {
    actions == [] || (CreatesUnblocked(s, actions[0]) && AllCreateUnblocked(Perform(s, actions[0]), actions[1..]))
  }

  ghost predicate AlwaysAtMostOne(s: System, actions: seq<Action>)
    requires Possible(s, actions)
    decreases |actions|
  {
    AtMostOneBlocks(s.runs) && (actions == [] || AlwaysAtMostOne(Perform(s, actions[0]), actions[1..]))
  }

  /** A worker's run is an automatic one of its own key, running while it trades; before it creates one it has none. */
  ghost predicate RunOk(runs: Runs, me: Worker) {
    && (me.run.Some? ==> me.run.value in runs && runs[me.run.value].source.Auto? && runs[me.run.value].key == me.key)
    && (me.stage.Trading? ==> me.run.Some? && runs[me.run.value].status.Running?)
    && (me.stage.ReadClock? || me.stage.InsertRefused? || me.stage.Locked? || me.stage.Checked? ==> me.run.None?)
  }

  ghost predicate RunsApart(s: System) {
    forall v, w ::
      v in s.workers && w in s.workers && s.workers[v].run.Some? && s.workers[v].run == s.workers[w].run ==> v == w
  }

  ghost predicate RunsAccounted(s: System) {
    (forall w :: w in s.workers ==> RunOk(s.runs, s.workers[w])) && RunsApart(s)
  }

  lemma MarkingKeepsRun(s: System, a: Action, t: System, w: nat)
    requires RunsAccounted(s) && Enabled(s, a) && t == Perform(s, a) && w in t.workers
    requires a.EndTrading? || a.MarkFailed?
    ensures RunOk(t.runs, t.workers[w])
  {
    assert RunOk(s.runs, s.workers[w]) && RunOk(s.runs, s.workers[a.w]);
  }

  lemma StepKeepsRun(s: System, a: Action, t: System, w: nat)
    requires RunsAccounted(s) && Enabled(s, a) && t == Perform(s, a) && w in t.workers
    ensures RunOk(t.runs, t.workers[w])
  {
    if a.EndTrading? || a.MarkFailed? {
      MarkingKeepsRun(s, a, t, w);
    } else if w in s.workers {
      assert RunOk(s.runs, s.workers[w]);
    }
  }

  lemma OnlyCreateGivesRuns(s: System, a: Action, t: System, w: nat)
    requires Enabled(s, a) && t == Perform(s, a) && !a.Create? && w in t.workers && t.workers[w].run.Some?
    ensures w in s.workers && s.workers[w].run == t.workers[w].run
  {
  }

  lemma CreateKeepsRunsApart(s: System, a: Action, t: System)
    requires RunsAccounted(s) && Enabled(s, a) && t == Perform(s, a) && a.Create?
    ensures RunsApart(t)
  {
    forall v, w | v in t.workers && w in t.workers && t.workers[v].run.Some? && t.workers[v].run == t.workers[w].run
      ensures v == w
    {
      assert RunOk(s.runs, s.workers[v]) && RunOk(s.runs, s.workers[w]);
    }
  }

  lemma StepKeepsRuns(s: System, a: Action)
    requires RunsAccounted(s) && Enabled(s, a)
    ensures RunsAccounted(Perform(s, a))
  {
    var t := Perform(s, a);
    forall w | w in t.workers
      ensures RunOk(t.runs, t.workers[w])
    {
      StepKeepsRun(s, a, t, w);
    }
    if a.Create? {
      CreateKeepsRunsApart(s, a, t);
    } else {
      forall v, w | v in t.workers && w in t.workers && t.workers[v].run.Some? && t.workers[v].run == t.workers[w].run
        ensures v == w
      {
        OnlyCreateGivesRuns(s, a, t, v);
        OnlyCreateGivesRuns(s, a, t, w);
      }
    }
  }

  /** What already blocked is the only thing that blocks after a step that creates no run. */
  lemma OnlyCreateBlocks(s: System, a: Action, t: System, i: nat)
    requires RunsAccounted(s) && Enabled(s, a) && t == Perform(s, a) && !a.Create?
    requires i in t.runs && Blocks(t.runs[i], t.runs[i].key, Auto)
    ensures i in s.runs && s.runs[i].key == t.runs[i].key && Blocks(s.runs[i], s.runs[i].key, Auto)
  {
    if a.EndTrading? {
      assert RunOk(s.runs, s.workers[a.w]);
    }
  }

  lemma UnblockedCreateKeepsOne(s: System, a: Action, t: System)
    requires AtMostOneBlocks(s.runs) && Enabled(s, a) && t == Perform(s, a) && a.Create? && CreatesUnblocked(s, a)
    ensures AtMostOneBlocks(t.runs)
  {
  }

  lemma BlockedCreateMakesTwo(s: System, a: Action, t: System)
    requires Enabled(s, a) && t == Perform(s, a) && !CreatesUnblocked(s, a)
    ensures !AtMostOneBlocks(t.runs)
  {
    var key := s.workers[a.w].key;
    var i :| i in s.runs && Blocks(s.runs[i], key, Auto);
    assert Blocks(t.runs[i], t.runs[i].key, Auto) && Blocks(t.runs[a.id], t.runs[i].key, Auto);
  }

  /**
    One step from a state with at most one blocking run per day leaves at most one exactly when it creates none behind
    another.
   */
  lemma StepKeepsOneIff(s: System, a: Action, t: System)
    requires RunsAccounted(s) && AtMostOneBlocks(s.runs) && Enabled(s, a) && t == Perform(s, a)
    ensures AtMostOneBlocks(t.runs) <==> CreatesUnblocked(s, a)
  {
    if !CreatesUnblocked(s, a) {
      BlockedCreateMakesTwo(s, a, t);
    } else if a.Create? {
      UnblockedCreateKeepsOne(s, a, t);
    } else {
      forall i, j | i in t.runs && j in t.runs && Blocks(t.runs[i], t.runs[i].key, Auto)
        && Blocks(t.runs[j], t.runs[i].key, Auto)
        ensures i == j
      {
        OnlyCreateBlocks(s, a, t, i);
        OnlyCreateBlocks(s, a, t, j);
      }
    }
  }

  lemma {:induction false} AlwaysOneIff(s: System, actions: seq<Action>)
    requires RunsAccounted(s) && AtMostOneBlocks(s.runs) && Possible(s, actions)
    ensures AlwaysAtMostOne(s, actions) <==> AllCreateUnblocked(s, actions)
    decreases |actions|
  {
    if actions != [] {
      var t := Perform(s, actions[0]);
      StepKeepsOneIff(s, actions[0], t);
      StepKeepsRuns(s, actions[0]);
      if CreatesUnblocked(s, actions[0]) {
        AlwaysOneIff(t, actions[1..]);
      }
    }
  }

  /**
    In every run: each day has at most one blocking run at every moment if and only if every run is created while none
    blocks.
   */
  lemma OneBlockingRunIffCreatedUnblocked(clock: int, actions: seq<Action>)
    requires Possible(Start(clock), actions)
    ensures AlwaysAtMostOne(Start(clock), actions) <==> AllCreateUnblocked(Start(clock), actions)
  {
    AlwaysOneIff(Start(clock), actions);
  }

  lemma {:induction false} AlwaysMeansInTheEnd(s: System, actions: seq<Action>)
    requires Possible(s, actions) && AlwaysAtMostOne(s, actions)
    ensures AtMostOneBlocks(After(s, actions).runs)
    decreases |actions|
  {
    if actions != [] {
      AlwaysMeansInTheEnd(Perform(s, actions[0]), actions[1..]);
    }
  }

  // Two ways to be sure of it -------------------------------------------------------------------------------------

  /** A run is created by the worker that leased the lock last: nobody has taken the lock over since. */
  predicate CreatesAsOwner(s: System, a: Action) {
    a.Create? && At(s, a.w, Checked) ==> s.workers[a.w].key in s.locks && s.locks[s.workers[a.w].key].owner == a.w
  }

  predicate CreatesInTime(s: System, a: Action) {
    a.Create? && At(s, a.w, Checked) ==> s.clock < s.workers[a.w].leaseEnd
  }

  predicate AllCreateAsOwner(s: System, actions: seq<Action>)
    requires Possible(s, actions)
    decreases |actions|
  {
    actions == [] || (CreatesAsOwner(s, actions[0]) && AllCreateAsOwner(Perform(s, actions[0]), actions[1..]))
  }

  predicate AllCreateInTime(s: System, actions: seq<Action>)
    requires Possible(s, actions)
    decreases |actions|
  {
    actions == [] || (CreatesInTime(s, actions[0]) && AllCreateInTime(Perform(s, actions[0]), actions[1..]))
  }

  /** Creating within the lease is creating as owner: an unexpired lease cannot have been taken over. */
  lemma {:induction false} InTimeIsAsOwner(s: System, actions: seq<Action>)
    requires LeasesAccounted(s) && Possible(s, actions) && AllCreateInTime(s, actions)
    ensures AllCreateAsOwner(s, actions)
    decreases |actions|
  {
    if actions != [] {
      var a := actions[0];
      if a.Create? {
        assert LeaseOk(s.clock, s.locks, a.w, s.workers[a.w]);
      }
      StepKeepsLeases(s, a);
      InTimeIsAsOwner(Perform(s, a), actions[1..]);
    }
  }

  /** What an owner's check found still holds when it creates. */
  ghost predicate OwnerClear(locks: Locks, runs: Runs, w: nat, me: Worker) {
    me.stage.Checked? && me.key in locks && locks[me.key].owner == w ==> NothingBlocks(runs, me.key)
  }

  ghost predicate OwnersClear(s: System) {
    forall w :: w in s.workers ==> OwnerClear(s.locks, s.runs, w, s.workers[w])
  }

  ghost predicate OwnerSteps(s: System, a: Action, t: System) {
    LeasesAccounted(s) && RunsAccounted(s) && OwnersClear(s) && Enabled(s, a) && CreatesAsOwner(s, a)
      && t == Perform(s, a)
  }

  lemma CreateKeepsClear(s: System, a: Action, t: System, w: nat)
    requires OwnerSteps(s, a, t) && a.Create? && w in t.workers
    ensures OwnerClear(t.locks, t.runs, w, t.workers[w])
  {
    assert OwnerClear(s.locks, s.runs, w, s.workers[w]);
  }

  lemma CheckKeepsClear(s: System, a: Action, t: System, w: nat)
    requires OwnerSteps(s, a, t) && a.Check? && w in t.workers
    ensures OwnerClear(t.locks, t.runs, w, t.workers[w])
  {
    assert OwnerClear(s.locks, s.runs, w, s.workers[w]);
    NoRowsNothingBlocks(s.runs, s.workers[a.w].key);
  }

  lemma QuietStepKeepsNothing(s: System, a: Action, t: System, key: JobKey)
    requires RunsAccounted(s) && Enabled(s, a) && t == Perform(s, a) && !a.Create? && NothingBlocks(s.runs, key)
    ensures NothingBlocks(t.runs, key)
  {
    forall i | i in t.runs
      ensures !Blocks(t.runs[i], key, Auto)
    {
      if Blocks(t.runs[i], key, Auto) {
        OnlyCreateBlocks(s, a, t, i);
      }
    }
  }

  lemma QuietStepKeepsClear(s: System, a: Action, t: System, w: nat)
    requires OwnerSteps(s, a, t) && !a.Create? && !a.Check? && w in t.workers
    ensures OwnerClear(t.locks, t.runs, w, t.workers[w])
  {
    if t.workers[w].stage.Checked? {
      WasChecked(s, a, t, w);
      if OwnerHere(s, w) {
        assert OwnerClear(s.locks, s.runs, w, s.workers[w]);
        QuietStepKeepsNothing(s, a, t, s.workers[w].key);
      }
    }
  }

  predicate OwnerHere(s: System, w: nat)
    requires w in s.workers
  {
    s.workers[w].key in s.locks && s.locks[s.workers[w].key].owner == w
  }

  lemma WasChecked(s: System, a: Action, t: System, w: nat)
    requires LeasesAccounted(s) && Enabled(s, a) && t == Perform(s, a) && !a.Check? && w in t.workers
             && t.workers[w].stage.Checked?
    ensures w in s.workers && s.workers[w] == t.workers[w]
    ensures OwnerHere(t, w) ==> OwnerHere(s, w)
  {
    ThatWasChecked(s, a, t, w);
    if OwnerHere(t, w) {
      OwnerWasHere(s, a, t, w);
    }
  }

  lemma ThatWasChecked(s: System, a: Action, t: System, w: nat)
    requires Enabled(s, a) && t == Perform(s, a) && !a.Check? && w in t.workers && t.workers[w].stage.Checked?
    ensures w in s.workers && s.workers[w] == t.workers[w]
  {
  }

  lemma OwnerWasHere(s: System, a: Action, t: System, w: nat)
    requires Enabled(s, a) && t == Perform(s, a) && w in s.workers && s.workers[w] == t.workers[w]
    requires t.workers[w].stage.Checked? && OwnerHere(t, w)
    ensures OwnerHere(s, w)
  {
  }

  lemma StepKeepsClear(s: System, a: Action, t: System)
    requires OwnerSteps(s, a, t)
    ensures OwnersClear(t)
  {
    forall w | w in t.workers
      ensures OwnerClear(t.locks, t.runs, w, t.workers[w])
    {
      if a.Create? {
        CreateKeepsClear(s, a, t, w);
      } else if a.Check? {
        CheckKeepsClear(s, a, t, w);
      } else {
        QuietStepKeepsClear(s, a, t, w);
      }
    }
  }

  /** An owner's creation is unblocked. */
  lemma {:induction false} AsOwnerIsUnblocked(s: System, actions: seq<Action>)
    requires LeasesAccounted(s) && RunsAccounted(s) && OwnersClear(s) && Possible(s, actions)
             && AllCreateAsOwner(s, actions)
    ensures AllCreateUnblocked(s, actions)
    decreases |actions|
  {
    if actions != [] {
      var a := actions[0];
      if a.Create? {
        assert OwnerClear(s.locks, s.runs, a.w, s.workers[a.w]);
      }
      StepKeepsClear(s, a, Perform(s, a));
      StepKeepsLeases(s, a);
      StepKeepsRuns(s, a);
      AsOwnerIsUnblocked(Perform(s, a), actions[1..]);
    }
  }

  /**
    When every worker creates its run within its lease, or at least before its lock is taken over, each market and day
    has at most one automatic run that is running, successful or skipped: the single-row lookup never meets two.
   */
  lemma OneBlockingRunPerDay(clock: int, actions: seq<Action>, key: JobKey)
    requires Possible(Start(clock), actions)
    requires AllCreateInTime(Start(clock), actions) || AllCreateAsOwner(Start(clock), actions)
    ensures AllCreateUnblocked(Start(clock), actions)
    ensures |BlockingRuns(After(Start(clock), actions).runs, key, Auto)| <= 1
  {
    if AllCreateInTime(Start(clock), actions) {
      InTimeIsAsOwner(Start(clock), actions);
    }
    AsOwnerIsUnblocked(Start(clock), actions);
    OneBlockingRunIffCreatedUnblocked(clock, actions);
    AlwaysMeansInTheEnd(Start(clock), actions);
    AtMostOneRow(After(Start(clock), actions).runs, key);
  }

  // A stalled worker doubles the run ------------------------------------------------------------------------------

  function Stalled(key: JobKey, clock: int): System {
    System(clock, map[key := Lease(1, 0, TTL_SECONDS)], map[], map[],
           map[1 := Worker(Checked, key, 0, TTL_SECONDS, None)])
  }

  function Overtaken(key: JobKey): System {
    var later := Worker(Locked, key, TTL_SECONDS, 2 * TTL_SECONDS, None);
    Stalled(key, TTL_SECONDS).(locks := map[key := Lease(2, TTL_SECONDS, TTL_SECONDS)],
                               workers := Stalled(key, 0).workers[2 := later])
  }

  lemma ReachStalled(key: JobKey)
    ensures var actions := [Begin(1, key), Insert(1), Check(1)];
            Possible(Start(0), actions) && After(Start(0), actions) == Stalled(key, 0)
  {
    var actions := [Begin(1, key), Insert(1), Check(1)];
    var s1 := Perform(Start(0), actions[0]);
    var s2 := Perform(s1, actions[1]);
    assert BlockingRuns(s2.runs, key, Auto) == {};
    assert Perform(s2, actions[2]).workers == Stalled(key, 0).workers;
    Unfold(s2, actions[2..]);
    Unfold(s1, actions[1..]);
    assert actions[2..][1..] == [];
  }

  lemma ReachOvertaken(key: JobKey)
    ensures var actions := [Tick(TTL_SECONDS), Begin(2, key), Insert(2), TakeOver(2)];
            Possible(Stalled(key, 0), actions) && After(Stalled(key, 0), actions) == Overtaken(key)
  {
    var actions := [Tick(TTL_SECONDS), Begin(2, key), Insert(2), TakeOver(2)];
    var s1 := Stalled(key, TTL_SECONDS);
    var s2 := Perform(s1, actions[1]);
    var s3 := Perform(s2, actions[2]);
    assert Perform(s3, actions[3]) == Overtaken(key);
    Unfold(s3, actions[3..]);
    Unfold(s2, actions[2..]);
    Unfold(s1, actions[1..]);
    assert actions[3..][1..] == [];
  }

  lemma ReachDoubled(key: JobKey)
    ensures var actions := [Check(2), Create(2, 0), Create(1, 1)];
            Possible(Overtaken(key), actions) && |BlockingRuns(After(Overtaken(key), actions).runs, key, Auto)| == 2
  {
    var actions := [Check(2), Create(2, 0), Create(1, 1)];
    assert BlockingRuns(Overtaken(key).runs, key, Auto) == {};
    var s1 := Perform(Overtaken(key), actions[0]);
    var s2 := Perform(s1, actions[1]);
    var s3 := Perform(s2, actions[2]);
    assert BlockingRuns(s3.runs, key, Auto) == {0, 1};
    Unfold(s2, actions[2..]);
    Unfold(s1, actions[1..]);
    assert actions[2..][1..] == [];
  }

  /** A worker that stalls between its check and its creation until its lease has been taken over breaks this. */
  lemma LateCreationDoublesTheRun(key: JobKey)
    ensures exists actions ::
              Possible(Start(0), actions) && |BlockingRuns(After(Start(0), actions).runs, key, Auto)| == 2
  {
    var first := [Begin(1, key), Insert(1), Check(1)];
    var second := [Tick(TTL_SECONDS), Begin(2, key), Insert(2), TakeOver(2)];
    var third := [Check(2), Create(2, 0), Create(1, 1)];
    ReachStalled(key);
    ReachOvertaken(key);
    ReachDoubled(key);
    AfterBoth(Start(0), first, second);
    AfterBoth(Start(0), first + second, third);
  }

  // Recovering a lost day -----------------------------------------------------------------------------------------

  predicate IsOwnStep(a: Action, w: nat) {
    match a
    case Tick(_) => true
    case OtherRun(_, _, _) => false
    case OtherUpdate(_, _) => false
    case _ => a.w == w
  }

  /** Nobody but `w` and the clock moves. */
  ghost predicate Alone(actions: seq<Action>, w: nat) {
    forall i :: 0 <= i < |actions| ==> IsOwnStep(actions[i], w)
  }

  /** As long as `w` has no run the runs are those it met, and it passes its check only if none of them blocked. */
  ghost predicate MetRuns(s: System, met: Runs, w: nat, key: JobKey) {
    && w in s.workers && s.workers[w].key == key
    && RunOk(s.runs, s.workers[w])
    && (s.workers[w].run.None? ==> s.runs == met)
    && (s.workers[w].stage.Checked? ==> |BlockingRuns(met, key, Auto)| == 0)
  }

  lemma OwnStepKeepsMet(s: System, a: Action, t: System, met: Runs, w: nat, key: JobKey)
    requires MetRuns(s, met, w, key) && Enabled(s, a) && t == Perform(s, a) && IsOwnStep(a, w)
    ensures MetRuns(t, met, w, key)
  {
  }

  lemma {:induction false} AloneKeepsMet(s: System, actions: seq<Action>, met: Runs, w: nat, key: JobKey)
    requires MetRuns(s, met, w, key) && Possible(s, actions) && Alone(actions, w)
    ensures MetRuns(After(s, actions), met, w, key)
    decreases |actions|
  {
    if actions != [] {
      OwnStepKeepsMet(s, actions[0], Perform(s, actions[0]), met, w, key);
      AloneKeepsMet(Perform(s, actions[0]), actions[1..], met, w, key);
    }
  }

  lemma {:induction false} SomeIdIsFree(ids: set<nat>) returns (id: nat)
    ensures forall i :: i in ids ==> i < id
    decreases |ids|
  {
    if ids == {} {
      id := 0;
    } else {
      var i :| i in ids;
      assert forall j :: j in ids ==> j == i || j in ids - {i};
      id := SomeIdIsFree(ids - {i});
      id := if id > i then id else i + 1;
    }
  }

  /** Running alone from its start, a worker can reach the creation of its run. */
  ghost predicate CanReachCreate(s: System, w: nat, key: JobKey)
    requires w !in s.workers
  {
    exists actions, id :: Alone(actions, w) && Possible(Perform(s, Begin(w, key)), actions)
                          && Enabled(After(Perform(s, Begin(w, key)), actions), Create(w, id))
  }

  lemma TakesOverAndChecks(s: System, w: nat, key: JobKey) returns (actions: seq<Action>)
    requires w !in s.workers && key in s.locks && s.locks[key].status.Running? && s.locks[key].expiresAt <= s.clock
    ensures actions == [Insert(w), TakeOver(w), Check(w)] && Possible(Perform(s, Begin(w, key)), actions)
    ensures var t := After(Perform(s, Begin(w, key)), actions);
            && At(t, w, CheckedStage(|BlockingRuns(s.runs, key, Auto)|)) && t.workers[w].key == key
            && t.runs == s.runs && key in t.locks
  {
    actions := [Insert(w), TakeOver(w), Check(w)];
    var s0 := Perform(s, Begin(w, key));
    var s1 := Perform(s0, actions[0]);
    var s2 := Perform(s1, actions[1]);
    Unfold(s2, actions[2..]);
    Unfold(s1, actions[1..]);
    Unfold(s0, actions);
    assert actions[2..][1..] == [];
  }

  /**
    After a lease has run out, a new worker running alone gets to trade exactly when no run blocks the day. So a
    worker that crashed before creating its run costs the day nothing, and one that crashed while trading costs the
    day.
   */
  lemma DayIsRecoverableIff(s: System, w: nat, key: JobKey)
    requires w !in s.workers && key in s.locks && s.locks[key].status.Running? && s.locks[key].expiresAt <= s.clock
    ensures CanReachCreate(s, w, key) <==> |BlockingRuns(s.runs, key, Auto)| == 0
  {
    var begun := Perform(s, Begin(w, key));
    if |BlockingRuns(s.runs, key, Auto)| == 0 {
      var actions := TakesOverAndChecks(s, w, key);
      var id := SomeIdIsFree(s.runs.Keys);
      assert Alone(actions, w) && Enabled(After(begun, actions), Create(w, id));
    } else if CanReachCreate(s, w, key) {
      var actions, id :| Alone(actions, w) && Possible(begun, actions) && Enabled(After(begun, actions), Create(w, id));
      AloneKeepsMet(begun, actions, s.runs, w, key);
      assert false;
    }
  }

  function Orphaned(key: JobKey, clock: int): System {
    System(clock, map[key := Lease(1, 0, TTL_SECONDS)], map[0 := RunRow(key, Auto, Running)], map[],
           map[1 := Worker(Done, key, 0, TTL_SECONDS, Some(0))])
  }

  lemma ReachOrphaned(key: JobKey)
    ensures var actions := [Create(1, 0), Crash(1)];
            Possible(Stalled(key, 0), actions) && After(Stalled(key, 0), actions) == Orphaned(key, 0)
  {
    var actions := [Create(1, 0), Crash(1)];
    var s1 := Perform(Stalled(key, 0), actions[0]);
    assert Perform(s1, actions[1]) == Orphaned(key, 0);
    Unfold(s1, actions[1..]);
    assert actions[1..][1..] == [];
  }

  lemma ReachSkipped(key: JobKey) returns (actions: seq<Action>)
    ensures Possible(Orphaned(key, 0), actions)
    ensures var t := After(Orphaned(key, 0), actions);
            t.runs == Orphaned(key, 0).runs && key in t.locks && t.locks[key].status == Skipped
  {
    var expired := Orphaned(key, TTL_SECONDS);
    assert BlockingRuns(expired.runs, key, Auto) == {0};
    var checks := TakesOverAndChecks(expired, 2, key);
    var s0 := Perform(expired, Begin(2, key));
    var s1 := After(s0, checks);
    Unfold(s1, [FinishLock(2)]);
    assert [FinishLock(2)][1..] == [];
    AfterBoth(s0, checks, [FinishLock(2)]);
    var later := checks + [FinishLock(2)];
    assert ([Begin(2, key)] + later)[1..] == later;
    actions := [Tick(TTL_SECONDS)] + ([Begin(2, key)] + later);
    assert actions[1..] == [Begin(2, key)] + later;
  }

  /**
    A crash while trading: the run stays running, the worker that takes over skips the day, and from then on nobody
    ever wins its lock again.
   */
  lemma CrashWhileTradingLosesTheDay(key: JobKey) returns (actions: seq<Action>)
    ensures Possible(Start(0), actions)
    ensures var s := After(Start(0), actions);
            && Closed(s, key) && s.locks[key].status == Skipped
            && s.runs == map[0 := RunRow(key, Auto, Running)]
            && forall later :: Possible(s, later) ==> NotLeasedAgain(s, After(s, later), key)
  {
    var first := [Begin(1, key), Insert(1), Check(1)];
    var second := [Create(1, 0), Crash(1)];
    ReachStalled(key);
    ReachOrphaned(key);
    var third := ReachSkipped(key);
    AfterBoth(Start(0), first, second);
    AfterBoth(Start(0), first + second, third);
    actions := first + second + third;
    forall later | Possible(After(Start(0), actions), later)
      ensures NotLeasedAgain(After(Start(0), actions), After(After(Start(0), actions), later), key)
    {
      FinishedKeyIsNeverLeasedAgain(0, actions, later, key);
    }
  }
}
