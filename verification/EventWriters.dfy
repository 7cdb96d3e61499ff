/**
  Appends to the event table by any number of writers when reading the greatest number and inserting the row are two
  steps. A writer's transaction remembers the number it took and how long its log was at that moment.
 */
module EventWriters {
  import opened EventLog

  datatype Pending = Pending(row: Event, lengthRead: nat)

  datatype System = System(rows: seq<Event>, writers: map<nat, Pending>)

  datatype Action =
    | Read(w: nat, userId: nat, runContextId: nat, eventType: EventType, body: string)
    | Insert(w: nat)
    | Abort(w: nat)

  function LogFor(s: System, row: Event): seq<Event> {
    LogOf(s.rows, row.userId, row.runContextId)
  }

  predicate Enabled(s: System, a: Action) {
    match a
    case Read(w, _, _, _, _) => w !in s.writers
    case Insert(w) => w in s.writers
    case Abort(w) => w in s.writers
  }

  function Perform(s: System, a: Action): System
    requires Enabled(s, a)
  {
    match a
    case Read(w, userId, runContextId, eventType, body) =>
      var log := LogOf(s.rows, userId, runContextId);
      s.(writers := s.writers[w := Pending(Event(userId, runContextId, NextSeq(log), eventType, body), |log|)])
    case Insert(w) => System(s.rows + [s.writers[w].row], s.writers - {w})
    case Abort(w) => s.(writers := s.writers - {w})
  }

  predicate Possible(s: System, actions: seq<Action>)
    decreases |actions|
  {
    actions == [] || (Enabled(s, actions[0]) && Possible(Perform(s, actions[0]), actions[1..]))
  }

  const START := System([], map[])

  /** Nothing was inserted into the writer's own log since it read. */
  predicate InsertsUndisturbed(s: System, a: Action) {
    a.Insert? && a.w in s.writers ==> |LogFor(s, s.writers[a.w].row)| == s.writers[a.w].lengthRead
  }

  predicate AllUndisturbed(s: System, actions: seq<Action>)
    requires Possible(s, actions)
    decreases |actions|
  {
    actions == [] || (InsertsUndisturbed(s, actions[0]) && AllUndisturbed(Perform(s, actions[0]), actions[1..]))
  }

  ghost predicate AlwaysNumbered(s: System, actions: seq<Action>)
    requires Possible(s, actions)
    decreases |actions|
  {
    AllNumbered(s.rows) && (actions == [] || AlwaysNumbered(Perform(s, actions[0]), actions[1..]))
  }

  /** A pending number is the next one of the log as its writer read it, which the log still starts with. */
  ghost predicate PendingOk(s: System, p: Pending) {
    p.lengthRead <= |LogFor(s, p.row)| && p.row.number == NextSeq(LogFor(s, p.row)[..p.lengthRead])
  }

  ghost predicate WritersOk(s: System) {
    forall w :: w in s.writers ==> PendingOk(s, s.writers[w])
  }

  lemma InsertKeepsPending(s: System, row: Event, p: Pending)
    requires PendingOk(s, p)
    ensures PendingOk(s.(rows := s.rows + [row]), p)
  {
    LogOfAppended(s.rows, row, p.row.userId, p.row.runContextId);
    var log := LogFor(s, p.row);
    var more := if row.userId == p.row.userId && row.runContextId == p.row.runContextId then [row] else [];
    assert (log + more)[..p.lengthRead] == log[..p.lengthRead];
  }

  lemma ReadIsOk(s: System, a: Action)
    requires a.Read? && Enabled(s, a)
    ensures PendingOk(s, Perform(s, a).writers[a.w])
  {
    var log := LogOf(s.rows, a.userId, a.runContextId);
    assert log[..|log|] == log;
  }

  lemma StepKeepsWriters(s: System, a: Action)
    requires WritersOk(s) && Enabled(s, a)
    ensures WritersOk(Perform(s, a))
  {
    var t := Perform(s, a);
    forall w | w in t.writers
      ensures PendingOk(t, t.writers[w])
    {
      if a.Read? && a.w == w {
        ReadIsOk(s, a);
      } else {
        assert PendingOk(s, s.writers[w]);
        if a.Insert? {
          InsertKeepsPending(s, s.writers[a.w].row, s.writers[w]);
        }
      }
    }
  }

  /**
    One insert into a numbered table keeps every log of it numbered exactly when its own log was not touched since the
    read.
   */
  lemma InsertNumbersIff(s: System, w: nat)
    requires w in s.writers && PendingOk(s, s.writers[w]) && AllNumbered(s.rows)
    ensures AllNumbered(s.rows + [s.writers[w].row]) <==> |LogFor(s, s.writers[w].row)| == s.writers[w].lengthRead
  {
    var p := s.writers[w];
    var log := LogFor(s, p.row);
    var read, between := log[..p.lengthRead], log[p.lengthRead..];
    assert read + between == log && Numbered(log);
    SplitAppendNumbersIff(read, between, p.row);
    LogOfAppended(s.rows, p.row, p.row.userId, p.row.runContextId);
    if between == [] {
      assert read == log;
      AppendKeepsNumbering(s.rows, p.row);
    } else {
      assert !Numbered(LogOf(s.rows + [p.row], p.row.userId, p.row.runContextId));
    }
  }

  lemma {:induction false} AlwaysNumberedIff(s: System, actions: seq<Action>)
    requires WritersOk(s) && AllNumbered(s.rows) && Possible(s, actions)
    ensures AlwaysNumbered(s, actions) <==> AllUndisturbed(s, actions)
    decreases |actions|
  {
    if actions != [] {
      var a := actions[0];
      var t := Perform(s, a);
      StepKeepsWriters(s, a);
      if a.Insert? {
        InsertNumbersIff(s, a.w);
      }
      if InsertsUndisturbed(s, a) {
        AlwaysNumberedIff(t, actions[1..]);
      }
    }
  }

  /**
    In every interleaving of reads and inserts on an empty table: all logs stay numbered 1..n at every moment if and
    only if no row is inserted into a log between another append's read of that log and its insert.
   */
  lemma NumberedIffUndisturbed(actions: seq<Action>)
    requires Possible(START, actions)
    ensures AlwaysNumbered(START, actions) <==> AllUndisturbed(START, actions)
  {
    AlwaysNumberedIff(START, actions);
  }

  /** Two writers of one log can both read before either inserts, from any state; the numbering does not survive it. */
  lemma TwoWritersCanRace(s: System, v: nat, w: nat, one: Action, other: Action)
    requires AllNumbered(s.rows) && v !in s.writers && w !in s.writers && v != w
    requires one.Read? && one.w == v && other.Read? && other.w == w
    requires one.userId == other.userId && one.runContextId == other.runContextId
    ensures Possible(s, [one, other, Insert(v), Insert(w)])
    ensures !AlwaysNumbered(s, [one, other, Insert(v), Insert(w)])
  {
    var s1 := Perform(s, one);
    var s2 := Perform(s1, other);
    var s3 := Perform(s2, Insert(v));
    var first, second := s2.writers[v].row, s2.writers[w].row;
    Unfold(s3, Insert(w), []);
    Unfold(s2, Insert(v), [Insert(w)]);
    Unfold(s1, other, [Insert(v), Insert(w)]);
    Unfold(s, one, [other, Insert(v), Insert(w)]);
    assert [Insert(w)] + [] == [Insert(w)] && [Insert(v)] + [Insert(w)] == [Insert(v), Insert(w)];
    assert [other] + [Insert(v), Insert(w)] == [other, Insert(v), Insert(w)];
    assert [one] + [other, Insert(v), Insert(w)] == [one, other, Insert(v), Insert(w)];
    BothGetOneNumber(s.rows, first, second);
  }

  lemma Unfold(s: System, a: Action, later: seq<Action>)
    requires Enabled(s, a) && Possible(Perform(s, a), later)
    ensures Possible(s, [a] + later)
    ensures AlwaysNumbered(s, [a] + later) ==> AlwaysNumbered(Perform(s, a), later)
  {
    assert ([a] + later)[1..] == later;
  }

  lemma BothGetOneNumber(rows: seq<Event>, first: Event, second: Event)
    requires first.userId == second.userId && first.runContextId == second.runContextId && AllNumbered(rows)
    requires first.number == second.number == NextSeq(LogOf(rows, first.userId, first.runContextId))
    ensures !AllNumbered(rows + [first] + [second])
  {
    var log := LogOf(rows, first.userId, first.runContextId);
    LogOfAppended(rows, first, first.userId, first.runContextId);
    LogOfAppended(rows + [first], second, first.userId, first.runContextId);
    assert Numbered(log);
    RacingAppendsHideAnEvent(log, first, second);
    assert !Numbered(LogOf(rows + [first] + [second], first.userId, first.runContextId));
  }
}
