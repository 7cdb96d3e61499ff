/**
  The polling cache under any number of concurrent callers and `clear` calls: every access to the shared dictionaries,
  every lock operation and every end of a refresh is one step, and steps interleave in any order.
 */
module PollingProtocol {
  import opened PollingCache
  import opened Results

  datatype Stage =
    | Arrived
    | Looking
    | Trying
    | Waiting
    | Rechecking
    | Refreshing(waited: bool)
    | Storing(fetched: Value)
    | Releasing(outcome: Outcome)
    | Finished(outcome: Outcome)

  datatype Caller = Caller(stage: Stage, key: Key, seen: Option<Entry>)

  /** `completed` records every refresh that returned. */
  datatype System = System(entries: Entries, locks: Locks, callers: map<nat, Caller>, completed: set<(Key, Value)>)

  datatype Action =
    | Arrive(c: nat, key: Key)
    | Read(c: nat, now: int)
    | FindLock(c: nat)
    | TryLock(c: nat)
    | WaitEnds(c: nat)
    | Recheck(c: nat)
    | RefreshReturns(c: nat, value: Value)
    | RefreshRaises(c: nat, caught: bool)
    | Store(c: nat, expiresAt: int)
    | Release(c: nat)
    | Clear

  predicate At(s: System, c: nat, stage: Stage) {
    c in s.callers && s.callers[c].stage == stage
  }

  predicate LockFree(s: System, key: Key) {
    key in s.locks && s.locks[key].None?
  }

  /** Stages between acquiring a key's lock and releasing it. */
  predicate Holds(stage: Stage) {
    stage.Rechecking? || stage.Refreshing? || stage.Storing? || stage.Releasing?
  }

  predicate Enabled(s: System, a: Action) {
    match a
    case Arrive(c, _) => c !in s.callers
    case Read(c, _) => At(s, c, Arrived)
    case FindLock(c) => At(s, c, Looking)
    case TryLock(c) => At(s, c, Trying) && s.callers[c].key in s.locks
    case WaitEnds(c) => At(s, c, Waiting) && LockFree(s, s.callers[c].key)
    case Recheck(c) => At(s, c, Rechecking)
    case RefreshReturns(c, _) => c in s.callers && s.callers[c].stage.Refreshing?
    case RefreshRaises(c, _) => c in s.callers && s.callers[c].stage.Refreshing?
    case Store(c, _) => c in s.callers && s.callers[c].stage.Storing?
    case Release(c) => c in s.callers && s.callers[c].stage.Releasing?
    case Clear => true
  }

  function Goto(s: System, c: nat, stage: Stage): System
    requires c in s.callers
  {
    s.(callers := s.callers[c := s.callers[c].(stage := stage)])
  }

  /** Only `except Exception` in the non-waiting branch falls back on the seen entry. */
  function RaisedOutcome(me: Caller, caught: bool): Outcome
    requires me.stage.Refreshing?
  {
    if me.stage.waited || !caught then Threw else Fallback(me.seen)
  }

  function Perform(s: System, a: Action): System
    requires Enabled(s, a)
  {
    match a
    case Arrive(c, key) => s.(callers := s.callers[c := Caller(Arrived, key, None)])
    case Read(c, now) =>
      var me := s.callers[c];
      var seen := EntryOf(s.entries, me.key);
      s.(callers := s.callers[c := me.(seen := seen, stage := if IsFresh(seen, now)
                                       then Finished(Returned(seen.value.value)) else Looking)])
    case FindLock(c) => Goto(s.(locks := Created(s.locks, s.callers[c].key)), c, Trying)
    case TryLock(c) =>
      var me := s.callers[c];
      if s.locks[me.key].None? then Goto(s.(locks := s.locks[me.key := Some(c)]), c, Refreshing(false))
      else if me.seen.Some? then Goto(s, c, Finished(Returned(me.seen.value.value)))
      else Goto(s, c, Waiting)
    case WaitEnds(c) => Goto(s.(locks := s.locks[s.callers[c].key := Some(c)]), c, Rechecking)
    case Recheck(c) =>
      var key := s.callers[c].key;
      Goto(s, c, if key in s.entries then Releasing(Returned(s.entries[key].value)) else Refreshing(true))
    case RefreshReturns(c, value) =>
      Goto(s.(completed := s.completed + {(s.callers[c].key, value)}), c, Storing(value))
    case RefreshRaises(c, caught) => Goto(s, c, Releasing(RaisedOutcome(s.callers[c], caught)))
    case Store(c, expiresAt) =>
      var value := s.callers[c].stage.fetched;
      Goto(s.(entries := s.entries[s.callers[c].key := Entry(expiresAt, value)]), c, Releasing(Returned(value)))
    case Release(c) => Goto(s.(locks := s.locks[s.callers[c].key := None]), c, Finished(s.callers[c].stage.outcome))
    case Clear => s.(entries := map[])
  }

  predicate Possible(s: System, actions: seq<Action>)
    decreases |actions|
  {
    actions == [] || (Enabled(s, actions[0]) && Possible(Perform(s, actions[0]), actions[1..]))
  }

  function After(s: System, actions: seq<Action>): System
    requires Possible(s, actions)
    decreases |actions|
  {
    if actions == [] then s else After(Perform(s, actions[0]), actions[1..])
  }

  const START := System(map[], map[], map[], {})

  // The invariant -------------------------------------------------------------------------------------------------

  ghost predicate HoldersHaveLocks(s: System) {
    forall c :: c in s.callers && Holds(s.callers[c].stage) ==>
      s.callers[c].key in s.locks && s.locks[s.callers[c].key] == Some(c)
  }

  ghost predicate LocksHaveHolders(s: System) {
    forall k :: k in s.locks && s.locks[k].Some? ==>
      s.locks[k].value in s.callers && Holds(s.callers[s.locks[k].value].stage) && s.callers[s.locks[k].value].key == k
  }

  ghost predicate LocksExist(s: System) {
    forall c :: c in s.callers && (s.callers[c].stage.Trying? || s.callers[c].stage.Waiting?) ==>
      s.callers[c].key in s.locks
  }

  /** A lock is held by exactly the one caller whose stage says so. */
  ghost predicate LocksMatch(s: System) {
    HoldersHaveLocks(s) && LocksHaveHolders(s) && LocksExist(s)
  }

  predicate FromRefresh(completed: set<(Key, Value)>, key: Key, outcome: Outcome) {
    outcome.Returned? ==> (key, outcome.value) in completed
  }

  ghost predicate CallerSound(me: Caller, completed: set<(Key, Value)>) {
    && (me.seen.Some? ==> (me.key, me.seen.value.value) in completed)
    && (me.stage.Storing? ==> (me.key, me.stage.fetched) in completed)
    && (me.stage.Releasing? ==> FromRefresh(completed, me.key, me.stage.outcome))
    && (me.stage.Finished? ==> FromRefresh(completed, me.key, me.stage.outcome))
    && (me.stage.Waiting? || me.stage.Rechecking? || (me.stage.Refreshing? && me.stage.waited) ==> me.seen.None?)
  }

  ghost predicate ValuesSound(s: System) {
    && (forall k :: k in s.entries ==> (k, s.entries[k].value) in s.completed)
    && (forall c :: c in s.callers ==> CallerSound(s.callers[c], s.completed))
  }

  ghost predicate Inv(s: System) {
    LocksMatch(s) && ValuesSound(s)
  }

  lemma StepKeepsHolders(s: System, a: Action, t: System)
    requires LocksMatch(s) && Enabled(s, a) && t == Perform(s, a)
    ensures HoldersHaveLocks(t)
  {
    forall c | c in t.callers && Holds(t.callers[c].stage)
      ensures t.callers[c].key in t.locks && t.locks[t.callers[c].key] == Some(c)
    {
      HolderKeepsLock(s, a, t, c);
    }
  }

  lemma HolderKeepsLock(s: System, a: Action, t: System, c: nat)
    requires LocksMatch(s) && Enabled(s, a) && t == Perform(s, a)
    requires c in t.callers && Holds(t.callers[c].stage)
    ensures t.callers[c].key in t.locks && t.locks[t.callers[c].key] == Some(c)
  {
    if a.Release? {
      ReleaseKeepsLock(s, a, t, c);
    }
  }

  lemma ReleaseKeepsLock(s: System, a: Action, t: System, c: nat)
    requires LocksMatch(s) && Enabled(s, a) && t == Perform(s, a) && a.Release?
    requires c in t.callers && Holds(t.callers[c].stage)
    ensures t.callers[c].key in t.locks && t.locks[t.callers[c].key] == Some(c)
  {
    assert c != a.c && t.callers[c] == s.callers[c];
  }

  lemma StepKeepsHeld(s: System, a: Action, t: System)
    requires LocksMatch(s) && Enabled(s, a) && t == Perform(s, a)
    ensures LocksHaveHolders(t)
  {
    if a.TryLock? || a.WaitEnds? {
      AcquiringKeepsHeld(s, a, t);
    } else if a.Release? {
      ReleaseKeepsHeld(s, a, t);
    } else {
      OtherStepKeepsHeld(s, a, t);
    }
  }

  lemma AcquiringKeepsHeld(s: System, a: Action, t: System)
    requires LocksMatch(s) && Enabled(s, a) && t == Perform(s, a) && (a.TryLock? || a.WaitEnds?)
    ensures LocksHaveHolders(t)
  {
  }

  lemma ReleaseKeepsHeld(s: System, a: Action, t: System)
    requires LocksMatch(s) && Enabled(s, a) && t == Perform(s, a) && a.Release?
    ensures LocksHaveHolders(t)
  {
  }

  lemma OtherStepKeepsHeld(s: System, a: Action, t: System)
    requires LocksMatch(s) && Enabled(s, a) && t == Perform(s, a) && !a.TryLock? && !a.WaitEnds? && !a.Release?
    ensures LocksHaveHolders(t)
  {
  }

  lemma StepKeepsExisting(s: System, a: Action, t: System)
    requires LocksExist(s) && Enabled(s, a) && t == Perform(s, a)
    ensures LocksExist(t)
  {
  }

  lemma StepKeepsValues(s: System, a: Action, t: System)
    requires ValuesSound(s) && Enabled(s, a) && t == Perform(s, a)
    ensures ValuesSound(t)
  {
    forall k | k in t.entries
      ensures (k, t.entries[k].value) in t.completed
    {
      StepKeepsEntry(s, a, t, k);
    }
    forall c | c in t.callers
      ensures CallerSound(t.callers[c], t.completed)
    {
      StepKeepsCaller(s, a, t, c);
    }
  }

  lemma StepKeepsEntry(s: System, a: Action, t: System, k: Key)
    requires ValuesSound(s) && Enabled(s, a) && t == Perform(s, a) && k in t.entries
    ensures (k, t.entries[k].value) in t.completed
  {
    if a.Store? {
      assert CallerSound(s.callers[a.c], s.completed);
    }
  }

  lemma StepKeepsCaller(s: System, a: Action, t: System, c: nat)
    requires ValuesSound(s) && Enabled(s, a) && t == Perform(s, a) && c in t.callers
    ensures CallerSound(t.callers[c], t.completed)
  {
    assert c in s.callers ==> CallerSound(s.callers[c], s.completed);
  }

  lemma {:induction false} RunKeepsInv(s: System, actions: seq<Action>)
    requires Inv(s) && Possible(s, actions)
    ensures Inv(After(s, actions))
    decreases |actions|
  {
    if actions != [] {
      var t := Perform(s, actions[0]);
      StepKeepsHolders(s, actions[0], t);
      StepKeepsHeld(s, actions[0], t);
      StepKeepsExisting(s, actions[0], t);
      StepKeepsValues(s, actions[0], t);
      RunKeepsInv(t, actions[1..]);
    }
  }

  /**
    Reading the dictionary ends a call if and only if the entry has not expired, with that entry's value; otherwise the
    caller remembers what it saw and goes on to the lock. Nothing else changes.
   */
  lemma ReadEndsIffUnexpired(s: System, c: nat, now: int)
    requires Enabled(s, Read(c, now))
    ensures var t, key := Perform(s, Read(c, now)), s.callers[c].key;
            && t.entries == s.entries && t.locks == s.locks && t.callers.Keys == s.callers.Keys
            && (t.callers[c].stage.Finished? <==> key in s.entries && now < s.entries[key].expiresAt)
            && (key in s.entries && now < s.entries[key].expiresAt ==>
                  t.callers[c].stage.outcome == Returned(s.entries[key].value))
            && (!(key in s.entries && now < s.entries[key].expiresAt) ==> t.callers[c].stage == Looking)
            && (t.callers[c].seen.Some? <==> key in s.entries)
            && (key in s.entries ==> t.callers[c].seen.value == s.entries[key])
  {
  }

  /** `clear` forgets every entry and disturbs nobody. */
  lemma ClearForgetsEntries(s: System)
    ensures Perform(s, Clear) == System(map[], s.locks, s.callers, s.completed)
  {
  }

  /** A waiter that gets the freed lock answers what was cached meanwhile and frees the lock again. */
  lemma WaiterAnswersWhatWasCached(s: System, c: nat)
    requires Enabled(s, WaitEnds(c)) && s.callers[c].key in s.entries
    ensures var actions, key := [WaitEnds(c), Recheck(c), Release(c)], s.callers[c].key;
            && Possible(s, actions)
            && var t := After(s, actions);
               && c in t.callers && t.callers[c].stage == Finished(Returned(s.entries[key].value))
               && t.entries == s.entries && t.locks == s.locks && t.completed == s.completed
  {
    var actions := [WaitEnds(c), Recheck(c), Release(c)];
    var s1 := Perform(s, actions[0]);
    var s2 := Perform(s1, actions[1]);
    var s3 := Perform(s2, actions[2]);
    Unfold(s, actions);
    Unfold(s1, actions[1..]);
    Unfold(s2, actions[2..]);
    assert actions[1..][1..] == actions[2..] && actions[2..][1..] == [];
    assert s3.locks == s.locks;
  }

  /**
    Whoever waited for the lock and then finds an entry, expired or not, answers it and does not refresh; without one it
    refreshes in turn.
   */
  lemma WaiterTakesWhatItFinds(s: System, c: nat)
    requires Enabled(s, Recheck(c))
    ensures var t, key := Perform(s, Recheck(c)), s.callers[c].key;
            && t.entries == s.entries && t.locks == s.locks
            && t.callers[c].stage
                 == if key in s.entries then Releasing(Returned(s.entries[key].value)) else Refreshing(true)
  {
  }

  /**
    When a refresh raises, only a caller that did not wait falls back on the entry it saw, and only for an exception it
    catches; everyone else passes the exception on.
   */
  lemma RaisingFallsBackIff(s: System, c: nat, caught: bool)
    requires Enabled(s, RefreshRaises(c, caught))
    ensures var t, me := Perform(s, RefreshRaises(c, caught)), s.callers[c];
            && t.entries == s.entries && t.locks == s.locks
            && t.callers[c].stage
                 == Releasing(if me.stage == Refreshing(false) && caught && me.seen != None
                              then Returned(me.seen.value.value) else Threw)
  {
  }

  // What every interleaving guarantees ----------------------------------------------------------------------------

  /** Two callers inside `refresh` for one key are the same caller. */
  lemma OneRefreshPerKey(actions: seq<Action>, b: nat, c: nat)
    requires Possible(START, actions)
    requires var s := After(START, actions);
             && b in s.callers && c in s.callers && s.callers[b].stage.Refreshing? && s.callers[c].stage.Refreshing?
             && s.callers[b].key == s.callers[c].key
    ensures b == c
  {
    RunKeepsInv(START, actions);
  }

  /** However a call ended, by value or by exception, it holds no lock afterwards. */
  lemma FinishedCallersHoldNothing(actions: seq<Action>, c: nat, key: Key)
    requires Possible(START, actions)
    requires var s := After(START, actions); c in s.callers && s.callers[c].stage.Finished? && key in s.locks
    ensures After(START, actions).locks[key] != Some(c)
  {
    RunKeepsInv(START, actions);
  }

  /** Once every call has ended every lock is free. */
  lemma AllLocksAreFreedInTheEnd(actions: seq<Action>)
    requires Possible(START, actions)
    requires forall c :: c in After(START, actions).callers ==> After(START, actions).callers[c].stage.Finished?
    ensures forall k :: k in After(START, actions).locks ==> After(START, actions).locks[k].None?
  {
    RunKeepsInv(START, actions);
  }

  /** A caller that saw an entry is never waiting for the lock, nor ever gets it by waiting. */
  lemma WhoSawAnEntryNeverWaits(actions: seq<Action>, c: nat)
    requires Possible(START, actions)
    requires c in After(START, actions).callers && After(START, actions).callers[c].seen.Some?
    ensures var stage := After(START, actions).callers[c].stage;
            !stage.Waiting? && !stage.Rechecking? && !(stage.Refreshing? && stage.waited)
  {
    RunKeepsInv(START, actions);
    assert CallerSound(After(START, actions).callers[c], After(START, actions).completed);
  }

  /** Every value a call returns, and every cached value, was returned by a completed refresh of that very key. */
  lemma ValuesComeFromRefreshes(actions: seq<Action>, c: nat)
    requires Possible(START, actions)
    requires c in After(START, actions).callers && After(START, actions).callers[c].stage.Finished?
    ensures var s := After(START, actions);
            && FromRefresh(s.completed, s.callers[c].key, s.callers[c].stage.outcome)
            && forall k :: k in s.entries ==> (k, s.entries[k].value) in s.completed
  {
    RunKeepsInv(START, actions);
    assert CallerSound(After(START, actions).callers[c], After(START, actions).completed);
  }

  /** The callers whose next step is a store of a finished refresh for `key`. */
  predicate NothingToStore(s: System, key: Key) {
    forall c :: c in s.callers && s.callers[c].key == key ==> !s.callers[c].stage.Storing?
  }

  predicate Renews(s: System, a: Action, key: Key) {
    a.Clear? || (a.RefreshReturns? && a.c in s.callers && s.callers[a.c].key == key)
  }

  predicate NeverRenewed(s: System, actions: seq<Action>, key: Key)
    requires Possible(s, actions)
    decreases |actions|
  {
    actions == [] || (!Renews(s, actions[0], key) && NeverRenewed(Perform(s, actions[0]), actions[1..], key))
  }

  lemma StepWithoutRenewal(s: System, a: Action, t: System, key: Key)
    requires Enabled(s, a) && t == Perform(s, a) && NothingToStore(s, key) && !Renews(s, a, key)
    ensures NothingToStore(t, key) && EntryOf(t.entries, key) == EntryOf(s.entries, key)
  {
  }

  /**
    As long as no refresh of a key returns and nobody clears, however many refreshes fail, its entry is what it was.
   */
  lemma {:induction false} FailedRefreshesChangeNothing(s: System, actions: seq<Action>, key: Key)
    requires Possible(s, actions) && NothingToStore(s, key) && NeverRenewed(s, actions, key)
    ensures EntryOf(After(s, actions).entries, key) == EntryOf(s.entries, key)
    decreases |actions|
  {
    if actions != [] {
      StepWithoutRenewal(s, actions[0], Perform(s, actions[0]), key);
      FailedRefreshesChangeNothing(Perform(s, actions[0]), actions[1..], key);
    }
  }

  /**
    However many callers come and however many refreshes fail in between: as long as nobody renews the entry, exactly
    the readers before its expiry are answered with it at once, and all later ones go on to the lock.
   */
  lemma {:induction false} EntryAnswersUntilItExpires(s: System, actions: seq<Action>, key: Key, c: nat, now: int)
    requires key in s.entries && Possible(s, actions) && NothingToStore(s, key) && NeverRenewed(s, actions, key)
    requires At(After(s, actions), c, Arrived) && After(s, actions).callers[c].key == key
    ensures Perform(After(s, actions), Read(c, now)).callers[c].stage
         == if now < s.entries[key].expiresAt then Finished(Returned(s.entries[key].value)) else Looking
  {
    FailedRefreshesChangeNothing(s, actions, key);
    ReadEndsIffUnexpired(After(s, actions), c, now);
  }

  /** The step a caller can take whatever the others do; a waiting caller has one when the lock is free. */
  function NextAction(c: nat, stage: Stage): Action {
    match stage
    case Arrived => Read(c, 0)
    case Looking => FindLock(c)
    case Trying => TryLock(c)
    case Waiting => WaitEnds(c)
    case Rechecking => Recheck(c)
    case Refreshing(_) => RefreshRaises(c, true)
    case Storing(_) => Store(c, 0)
    case Releasing(_) => Release(c)
    case Finished(_) => Clear
  }

  /** No deadlock: while a call has not ended, it or the holder of the lock it waits for can take a step. */
  lemma SomeoneCanAlwaysMove(actions: seq<Action>, c: nat)
    requires Possible(START, actions)
    requires c in After(START, actions).callers && !After(START, actions).callers[c].stage.Finished?
    ensures var s := After(START, actions);
            var me := s.callers[c];
            || Enabled(s, NextAction(c, me.stage))
            || (&& me.stage.Waiting? && me.key in s.locks && s.locks[me.key].Some? && s.locks[me.key].value != c
                && s.locks[me.key].value in s.callers
                && Enabled(s, NextAction(s.locks[me.key].value, s.callers[s.locks[me.key].value].stage)))
  {
    RunKeepsInv(START, actions);
  }

  // A call nobody interleaves with --------------------------------------------------------------------------------

  lemma Unfold(s: System, actions: seq<Action>)
    requires actions != [] && Enabled(s, actions[0])
    ensures Possible(s, actions) <==> Possible(Perform(s, actions[0]), actions[1..])
    ensures Possible(s, actions) ==> After(s, actions) == After(Perform(s, actions[0]), actions[1..])
  {
  }

  /** A caller that has arrived and read the entry. */
  function HasRead(s: System, c: nat, key: Key, now: int): System
    requires c !in s.callers
  {
    Perform(Perform(s, Arrive(c, key)), Read(c, now))
  }

  lemma ReadAlone(s: System, c: nat, key: Key, now: int, rest: seq<Action>)
    requires c !in s.callers && Possible(HasRead(s, c, key, now), rest)
    ensures Possible(s, [Arrive(c, key), Read(c, now)] + rest)
    ensures After(s, [Arrive(c, key), Read(c, now)] + rest) == After(HasRead(s, c, key, now), rest)
  {
    var actions := [Arrive(c, key), Read(c, now)] + rest;
    Unfold(s, actions);
    Unfold(Perform(s, actions[0]), actions[1..]);
    assert actions[1..][1..] == rest;
  }

  lemma BusyAlone(s: System, c: nat)
    requires c in s.callers && s.callers[c].stage.Looking? && s.callers[c].seen.Some?
    requires s.callers[c].key in s.locks && s.locks[s.callers[c].key].Some?
    ensures Possible(s, [FindLock(c), TryLock(c)])
    ensures var t := After(s, [FindLock(c), TryLock(c)]);
            && t.entries == s.entries && t.locks == s.locks
            && c in t.callers && t.callers[c].stage == Finished(Returned(s.callers[c].seen.value.value))
  {
    TryAlone(s, c, [FindLock(c), TryLock(c)]);
    assert [FindLock(c), TryLock(c)][2..] == [];
  }

  /** The steps of a caller that gets the lock, from the refresh on. */
  function RefreshSteps(c: nat, refreshed: Outcome, expiresAt: int): seq<Action> {
    if refreshed.Threw? then [RefreshRaises(c, true), Release(c)]
    else [RefreshReturns(c, refreshed.value), Store(c, expiresAt), Release(c)]
  }

  lemma LockAlone(s: System, c: nat, refreshed: Outcome, expiresAt: int)
    requires c in s.callers && s.callers[c].stage.Looking?
    requires s.callers[c].key in s.locks ==> s.locks[s.callers[c].key].None?
    ensures var actions := [FindLock(c), TryLock(c)] + RefreshSteps(c, refreshed, expiresAt);
            && Possible(s, actions)
            && var t := After(s, actions);
               var me := s.callers[c];
               && c in t.callers && t.locks == s.locks[me.key := None]
               && t.entries == (if refreshed.Returned? then s.entries[me.key := Entry(expiresAt, refreshed.value)]
                                else s.entries)
               && t.callers[c].stage == Finished(if refreshed.Returned? then refreshed else Fallback(me.seen))
  {
    var actions := [FindLock(c), TryLock(c)] + RefreshSteps(c, refreshed, expiresAt);
    var s4 := Perform(Perform(s, FindLock(c)), TryLock(c));
    TryAlone(s, c, actions);
    assert actions[2..] == RefreshSteps(c, refreshed, expiresAt);
    RefreshAlone(s4, c, RefreshSteps(c, refreshed, expiresAt));
    assert s4.locks[s.callers[c].key := None] == s.locks[s.callers[c].key := None];
  }

  /** The call of `c` has ended, and entries, locks and outcome are those of an uninterrupted call on `s`. */
  ghost predicate EndsAlone(ttl: int, s: System, t: System, c: nat, key: Key, now: int, refreshed: Outcome,
                            storedAt: int)
    requires key in s.locks && s.locks[key].Some? ==> key in s.entries
  {
    && c in t.callers && t.callers[c].stage.Finished?
    && Alone(ttl, s.entries, s.locks, key, now, refreshed, storedAt) == (t.entries, t.locks, t.callers[c].stage.outcome)
  }

  lemma FreshAlone(ttl: int, s: System, c: nat, key: Key, now: int, refreshed: Outcome, storedAt: int)
      returns (actions: seq<Action>)
    requires c !in s.callers && IsFresh(EntryOf(s.entries, key), now)
    ensures Possible(s, actions) && EndsAlone(ttl, s, After(s, actions), c, key, now, refreshed, storedAt)
  {
    ReadAlone(s, c, key, now, []);
    actions := [Arrive(c, key), Read(c, now)] + [];
  }

  lemma LockedOutAlone(ttl: int, s: System, c: nat, key: Key, now: int, refreshed: Outcome, storedAt: int)
      returns (actions: seq<Action>)
    requires c !in s.callers && !IsFresh(EntryOf(s.entries, key), now)
    requires key in s.locks && s.locks[key].Some? && key in s.entries
    ensures Possible(s, actions) && EndsAlone(ttl, s, After(s, actions), c, key, now, refreshed, storedAt)
  {
    BusyAlone(HasRead(s, c, key, now), c);
    ReadAlone(s, c, key, now, [FindLock(c), TryLock(c)]);
    actions := [Arrive(c, key), Read(c, now)] + [FindLock(c), TryLock(c)];
  }

  lemma RefreshingAlone(ttl: int, s: System, c: nat, key: Key, now: int, refreshed: Outcome, storedAt: int)
      returns (actions: seq<Action>)
    requires c !in s.callers && !IsFresh(EntryOf(s.entries, key), now)
    requires key in s.locks ==> s.locks[key].None?
    ensures Possible(s, actions) && EndsAlone(ttl, s, After(s, actions), c, key, now, refreshed, storedAt)
  {
    var steps := [FindLock(c), TryLock(c)] + RefreshSteps(c, refreshed, storedAt + ttl);
    LockAlone(HasRead(s, c, key, now), c, refreshed, storedAt + ttl);
    ReadAlone(s, c, key, now, steps);
    actions := [Arrive(c, key), Read(c, now)] + steps;
  }

  /** Run without interruption, the steps of the protocol do what `GetOrRefresh` promises. */
  lemma AloneIsGetOrRefresh(ttl: int, s: System, c: nat, key: Key, now: int, refreshed: Outcome, storedAt: int)
      returns (actions: seq<Action>)
    requires c !in s.callers
    requires key in s.locks && s.locks[key].Some? ==> key in s.entries
    ensures Possible(s, actions) && EndsAlone(ttl, s, After(s, actions), c, key, now, refreshed, storedAt)
  {
    if IsFresh(EntryOf(s.entries, key), now) {
      actions := FreshAlone(ttl, s, c, key, now, refreshed, storedAt);
    } else if key in s.locks && s.locks[key].Some? {
      actions := LockedOutAlone(ttl, s, c, key, now, refreshed, storedAt);
    } else {
      actions := RefreshingAlone(ttl, s, c, key, now, refreshed, storedAt);
    }
  }

  lemma TryAlone(s: System, c: nat, actions: seq<Action>)
    requires c in s.callers && s.callers[c].stage.Looking? && |actions| >= 2 && actions[0] == FindLock(c)
             && actions[1] == TryLock(c)
    ensures var t := Perform(Perform(s, FindLock(c)), TryLock(c));
            Possible(s, actions) == Possible(t, actions[2..])
              && (Possible(s, actions) ==> After(s, actions) == After(t, actions[2..]))
  {
    Unfold(s, actions);
    Unfold(Perform(s, FindLock(c)), actions[1..]);
    assert actions[1..][1..] == actions[2..];
  }

  lemma RefreshAlone(s: System, c: nat, actions: seq<Action>)
    requires c in s.callers && s.callers[c].stage == Refreshing(false)
    requires (|actions| == 2 && actions == [RefreshRaises(c, true), Release(c)])
          || (|actions| == 3 && actions[0].RefreshReturns? && actions[0].c == c && actions[1].Store?
              && actions[1].c == c && actions[2] == Release(c))
    ensures Possible(s, actions)
    ensures var t := After(s, actions);
            var me := s.callers[c];
            && c in t.callers && t.locks == s.locks[me.key := None]
            && if |actions| == 2 then t.entries == s.entries && t.callers[c].stage == Finished(Fallback(me.seen))
               else t.entries == s.entries[me.key := Entry(actions[1].expiresAt, actions[0].value)]
                    && t.callers[c].stage == Finished(Returned(actions[0].value))
  {
    var s1 := Perform(s, actions[0]);
    var s2 := Perform(s1, actions[1]);
    Unfold(s, actions);
    Unfold(s1, actions[1..]);
    if |actions| == 2 {
      assert actions[1..][1..] == [];
    } else {
      Unfold(s2, actions[2..]);
      assert actions[2..][1..] == [];
    }
  }
}
