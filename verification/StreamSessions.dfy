/**
  Whole sessions of the dashboard event stream: one browser and however many connections it makes, interleaved with
  appends, summary changes and the passing of time. A connection may drop at any moment and then loses what is on the
  wire.
 */
module StreamSessions {
  import opened EventLog
  import opened EventStream
  import opened Results

  datatype Stage = Polling | Sending | Ended(byEvent: bool)

  /**
    `batch` is polled but not yet sent, `wire` sent but not yet received. `atPoll` records how long the log was then.
   */
  datatype Connection = Connection(
    stage: Stage,
    lastSeq: int,
    batch: seq<Event>,
    wire: seq<Event>,
    terminalEventSeen: bool,
    summarySeenAt: Option<real>,
    atPoll: nat)

  datatype System = System(log: seq<Event>, summaryTerminal: bool, now: real, conn: Option<Connection>,
                           received: seq<Event>)

  datatype Action =
    | Append(event: Event)
    | SetSummary(terminal: bool)
    | Wait(seconds: real)
    | Connect
    | Poll
    | Yield
    | Deliver
    | Check
    | Drop

  predicate In(s: System, stage: Stage) {
    s.conn.Some? && s.conn.value.stage == stage
  }

  predicate Enabled(s: System, a: Action) {
    match a
    case Append(event) => event.number == NextSeq(s.log)
    case SetSummary(_) => true
    case Wait(seconds) => seconds >= 0.0
    case Connect => s.conn.None?
    case Poll => In(s, Polling)
    case Yield => In(s, Sending) && s.conn.value.batch != []
    case Deliver => s.conn.Some? && s.conn.value.wire != []
    case Check => In(s, Sending) && s.conn.value.batch == []
    case Drop => s.conn.Some?
  }

  /** The Last-Event-ID the browser sends: the id of the last event it got, if any. */
  function LastEventId(received: seq<Event>): Option<int> {
    if received == [] then None else Some(received[|received| - 1].number)
  }

  function Perform(s: System, a: Action): System
    requires Enabled(s, a)
  {
    match a
    case Append(event) => s.(log := s.log + [event])
    case SetSummary(terminal) => s.(summaryTerminal := terminal)
    case Wait(seconds) => s.(now := s.now + seconds)
    case Connect =>
      s.(conn := Some(Connection(Polling, AfterSeq(LastEventId(s.received)), [], [], false, None, |s.received|)))
    case Poll =>
      var c := s.conn.value;
      s.(conn := Some(c.(stage := Sending, batch := Listed(s.log, c.lastSeq), atPoll := |s.log|)))
    case Yield =>
      var c := s.conn.value;
      var event := c.batch[0];
      s.(conn := Some(c.(lastSeq := event.number, batch := c.batch[1..], wire := c.wire + [event],
                         terminalEventSeen := c.terminalEventSeen || IsTerminal(event))))
    case Deliver =>
      var c := s.conn.value;
      s.(received := s.received + [c.wire[0]], conn := Some(c.(wire := c.wire[1..])))
    case Check =>
      var c := s.conn.value;
      (match Judge(c.terminalEventSeen, s.summaryTerminal, s.now, c.summarySeenAt)
       case Stop => s.(conn := Some(c.(stage := Ended(c.terminalEventSeen))))
       case GoOn(at) => s.(conn := Some(c.(stage := Polling, summarySeenAt := at))))
    case Drop => s.(conn := None)
  }

  predicate Possible(s: System, actions: seq<Action>)
    decreases |actions|
  {
    actions == [] || (Enabled(s, actions[0]) && Possible(Perform(s, actions[0]), actions[1..]))
  }

  function After(s: System, actions: seq<Action>): System
    requires Possible(s, actions)
    decreases |actions|
  {
    if actions == [] then s else After(Perform(s, actions[0]), actions[1..])
  }

  const START := System([], false, 0.0, None, [])

  // The invariant -------------------------------------------------------------------------------------------------

  /** Received, on the wire and polled events line up to the log as it was polled. */
  ghost predicate LinesUp(log: seq<Event>, received: seq<Event>, c: Connection) {
    && c.atPoll <= |log|
    && received + c.wire + c.batch == log[..c.atPoll]
    && c.lastSeq == |received| + |c.wire|
    && (c.stage != Sending ==> c.batch == [])
    && (c.terminalEventSeen ==> AnyTerminal(received + c.wire))
    && (c.stage.Ended? && c.stage.byEvent ==> c.terminalEventSeen)
  }

  ghost predicate IsPrefix(received: seq<Event>, log: seq<Event>) {
    |received| <= |log| && received == log[..|received|]
  }

  ghost predicate Consistent(s: System) {
    && Numbered(s.log)
    && IsPrefix(s.received, s.log)
    && (s.conn.Some? ==> LinesUp(s.log, s.received, s.conn.value))
  }

  lemma AppendKeeps(s: System, event: Event)
    requires Consistent(s) && event.number == NextSeq(s.log)
    ensures Consistent(s.(log := s.log + [event]))
  {
    NextSeqOfNumbered(s.log);
    if s.conn.Some? {
      assert (s.log + [event])[..s.conn.value.atPoll] == s.log[..s.conn.value.atPoll];
    }
    assert (s.log + [event])[..|s.received|] == s.log[..|s.received|];
  }

  lemma ConnectKeeps(s: System, t: System)
    requires Consistent(s) && Enabled(s, Connect) && t == Perform(s, Connect)
    ensures Consistent(t)
  {
    assert s.received + [] + [] == s.received;
  }

  /** What was sent and the tail after it make up the log. */
  lemma SentAndTail(log: seq<Event>, sent: seq<Event>, lastSeq: int)
    requires lastSeq == |sent| <= |log| && sent == log[..lastSeq]
    ensures sent + Tail(log, lastSeq) == log
  {
  }

  lemma PollKeeps(s: System, t: System)
    requires Consistent(s) && Enabled(s, Poll) && t == Perform(s, Poll)
    ensures Consistent(t) && s.received + t.conn.value.wire + t.conn.value.batch == t.log
  {
    var c := s.conn.value;
    var sent := s.received + c.wire;
    ListedIsTail(s.log, c.lastSeq);
    assert sent + [] == sent;
    SentAndTail(s.log, sent, c.lastSeq);
    assert s.log[..|s.log|] == s.log;
  }

  lemma YieldKeeps(s: System, t: System)
    requires Consistent(s) && Enabled(s, Yield) && t == Perform(s, Yield)
    ensures Consistent(t)
  {
    var c := s.conn.value;
    var sent := s.received + c.wire;
    assert c.batch[0] == (sent + c.batch)[|sent|] == s.log[..c.atPoll][|sent|] == s.log[|sent|];
    assert sent + c.batch == s.received + (c.wire + [c.batch[0]]) + c.batch[1..];
    assert s.received + (c.wire + [c.batch[0]]) == sent + [c.batch[0]];
    AnyTerminalOfBoth(sent, [c.batch[0]]);
  }

  lemma DeliverKeeps(s: System, t: System)
    requires Consistent(s) && Enabled(s, Deliver) && t == Perform(s, Deliver)
    ensures Consistent(t)
  {
    var c := s.conn.value;
    var sent := s.received + c.wire;
    assert sent == s.received + [c.wire[0]] + c.wire[1..];
    assert t.received == (sent + c.batch)[..|s.received| + 1] == s.log[..c.atPoll][..|s.received| + 1];
  }

  lemma StepKeepsConsistent(s: System, a: Action)
    requires Consistent(s) && Enabled(s, a)
    ensures Consistent(Perform(s, a))
  {
    match a
    case Append(event) => AppendKeeps(s, event);
    case SetSummary(_) =>
    case Wait(_) =>
    case Connect => ConnectKeeps(s, Perform(s, a));
    case Poll => PollKeeps(s, Perform(s, a));
    case Yield => YieldKeeps(s, Perform(s, a));
    case Deliver => DeliverKeeps(s, Perform(s, a));
    case Check =>
    case Drop =>
  }

  lemma {:induction false} RunsKeepConsistent(s: System, actions: seq<Action>)
    requires Consistent(s) && Possible(s, actions)
    ensures Consistent(After(s, actions))
    decreases |actions|
  {
    if actions != [] {
      StepKeepsConsistent(s, actions[0]);
      RunsKeepConsistent(Perform(s, actions[0]), actions[1..]);
    }
  }

  // What every session gives the browser --------------------------------------------------------------------------

  /**
    In every run, what the browser has got over all its connections is a prefix of the log: in order, no gap, no
    repeat.
   */
  lemma ReceivedIsPrefixOfLog(actions: seq<Action>)
    requires Possible(START, actions)
    ensures Numbered(After(START, actions).log)
    ensures IsPrefix(After(START, actions).received, After(START, actions).log)
    ensures forall i :: 0 <= i < |After(START, actions).received| ==> After(START, actions).received[i].number == i + 1
  {
    RunsKeepConsistent(START, actions);
  }

  /**
    A stream that ends by itself has sent everything its last poll saw. One that ends on a terminal event has sent that
    event, and so the whole log when nothing follows a terminal event.
   */
  lemma EndedStreamIsComplete(actions: seq<Action>)
    requires Possible(START, actions)
    ensures var s := After(START, actions);
            s.conn.Some? && s.conn.value.stage.Ended? ==>
              && s.conn.value.atPoll <= |s.log|
              && s.received + s.conn.value.wire == s.log[..s.conn.value.atPoll]
              && (s.conn.value.stage.byEvent ==> AnyTerminal(s.received + s.conn.value.wire))
              && (s.conn.value.stage.byEvent && NothingAfterTerminal(s.log) ==> s.received + s.conn.value.wire == s.log)
  {
    RunsKeepConsistent(START, actions);
    var s := After(START, actions);
    if s.conn.Some? && s.conn.value.stage.Ended? {
      var sent := s.received + s.conn.value.wire;
      assert sent + [] == sent;
      if s.conn.value.stage.byEvent && NothingAfterTerminal(s.log) {
        var i :| 0 <= i < |sent| && IsTerminal(sent[i]);
        assert s.log[i] == sent[i];
        assert s.log[..|s.log|] == s.log;
      }
    }
  }

  ghost predicate NothingAfterTerminal(log: seq<Event>) {
    forall i :: 0 <= i < |log| - 1 ==> !IsTerminal(log[i])
  }

  // When the server ends a stream ---------------------------------------------------------------------------------

  /** The steps that send a polled batch and close its round. */
  function RoundSteps(n: nat): seq<Action> {
    if n == 0 then [Check] else [Yield] + RoundSteps(n - 1)
  }

  predicate CompletesOrFails(events: seq<Event>) {
    exists i :: 0 <= i < |events| && (events[i].eventType == RunCompleted || events[i].eventType == RunFailed)
  }

  lemma CompletesLater(events: seq<Event>)
    requires events != []
    ensures CompletesOrFails(events) <==>
            events[0].eventType == RunCompleted || events[0].eventType == RunFailed || CompletesOrFails(events[1..])
  {
    var rest := events[1..];
    if i :| 0 <= i < |rest| && (rest[i].eventType == RunCompleted || rest[i].eventType == RunFailed) {
      assert rest[i] == events[i + 1];
    }
    if i :| 0 <= i < |events| && (events[i].eventType == RunCompleted || events[i].eventType == RunFailed) {
      assert i > 0 ==> events[1..][i - 1] == events[i];
    }
  }

  /**
    A round that sends a completion or a failure, or that follows one, ends the stream on that event. Any other round
    ends it only if the summary is terminal and has been remembered as such for three seconds; else the stream polls
    on.
   */
  lemma {:induction false} RoundEndsOnTerminalEvent(s: System)
    requires In(s, Sending)
    ensures var c := s.conn.value;
            var steps := RoundSteps(|c.batch|);
            && Possible(s, steps)
            && var t := After(s, steps);
               && t.conn.Some? && t.log == s.log && t.received == s.received && t.conn.value.wire == c.wire + c.batch
               && (c.terminalEventSeen || CompletesOrFails(c.batch) ==> t.conn.value.stage == Ended(true))
               && (!c.terminalEventSeen && !CompletesOrFails(c.batch) ==>
                     if s.summaryTerminal && c.summarySeenAt != None && s.now - c.summarySeenAt.value >= 3.0
                     then t.conn.value.stage == Ended(false)
                     else t.conn.value.stage == Polling)
    decreases |s.conn.value.batch|
  {
    var c := s.conn.value;
    if c.batch == [] {
      assert RoundSteps(0)[1..] == [];
      assert c.wire + c.batch == c.wire;
    } else {
      var t := Perform(s, Yield);
      CompletesLater(c.batch);
      RoundEndsOnTerminalEvent(t);
      assert RoundSteps(|c.batch|)[1..] == RoundSteps(|c.batch| - 1);
      assert c.wire + [c.batch[0]] + c.batch[1..] == c.wire + c.batch;
    }
  }

  // The browser can always catch up -------------------------------------------------------------------------------

  lemma DeliverMovesOne(received: seq<Event>, wire: seq<Event>)
    requires wire != []
    ensures received + [wire[0]] + wire[1..] == received + wire
  {
  }

  lemma {:induction false} DrainWire(s: System) returns (actions: seq<Action>)
    requires Consistent(s) && s.conn.Some? && s.conn.value.batch == [] && s.received + s.conn.value.wire == s.log
    ensures Possible(s, actions) && After(s, actions).received == s.log == After(s, actions).log
    decreases |s.conn.value.wire|
  {
    if s.conn.value.wire == [] {
      actions := [];
      assert s.received + [] == s.received;
    } else {
      var t := Perform(s, Deliver);
      DeliverKeeps(s, t);
      DeliverMovesOne(s.received, s.conn.value.wire);
      var later := DrainWire(t);
      actions := [Deliver] + later;
      assert actions[1..] == later;
    }
  }

  lemma {:induction false} DrainBatch(s: System) returns (actions: seq<Action>)
    requires Consistent(s) && In(s, Sending) && s.received + s.conn.value.wire + s.conn.value.batch == s.log
    ensures Possible(s, actions) && After(s, actions).received == s.log == After(s, actions).log
    decreases |s.conn.value.batch|
  {
    if s.conn.value.batch == [] {
      assert s.received + s.conn.value.wire + [] == s.received + s.conn.value.wire;
      actions := DrainWire(s);
    } else {
      var t := Perform(s, Yield);
      YieldKeeps(s, t);
      assert s.received + s.conn.value.wire + s.conn.value.batch == t.received + t.conn.value.wire + t.conn.value.batch;
      var later := DrainBatch(t);
      actions := [Yield] + later;
      assert actions[1..] == later;
    }
  }

  lemma CatchUpOffline(s: System) returns (actions: seq<Action>)
    requires Consistent(s) && s.conn.None?
    ensures Possible(s, actions) && After(s, actions).received == s.log == After(s, actions).log
  {
    var connected := Perform(s, Connect);
    ConnectKeeps(s, connected);
    var polled := Perform(connected, Poll);
    PollKeeps(connected, polled);
    var later := DrainBatch(polled);
    assert ([Poll] + later)[1..] == later;
    actions := [Connect] + ([Poll] + later);
    assert actions[1..] == [Poll] + later;
  }

  /** From wherever a session stands, a reconnect and one poll can bring the browser the whole log as it is now. */
  lemma BrowserCanCatchUp(sofar: seq<Action>) returns (actions: seq<Action>)
    requires Possible(START, sofar)
    ensures Possible(After(START, sofar), actions)
    ensures After(After(START, sofar), actions).received == After(START, sofar).log
            == After(After(START, sofar), actions).log
  {
    RunsKeepConsistent(START, sofar);
    var s := After(START, sofar);
    if s.conn.None? {
      actions := CatchUpOffline(s);
    } else {
      var later := CatchUpOffline(Perform(s, Drop));
      actions := [Drop] + later;
      assert actions[1..] == later;
    }
  }

  lemma {:induction false} AfterBoth(s: System, first: seq<Action>, second: seq<Action>)
    requires Possible(s, first) && Possible(After(s, first), second)
    ensures Possible(s, first + second) && After(s, first + second) == After(After(s, first), second)
    decreases |first|
  {
    if first == [] {
      assert first + second == second;
    } else {
      AfterBoth(Perform(s, first[0]), first[1..], second);
      assert (first + second)[1..] == first[1..] + second;
    }
  }

  lemma {:induction false} AnyLogCanBeWritten(log: seq<Event>) returns (actions: seq<Action>)
    requires Numbered(log)
    ensures Possible(START, actions) && After(START, actions) == START.(log := log)
  {
    if log == [] {
      actions := [];
    } else {
      var most, last := log[..|log| - 1], log[|log| - 1];
      var earlier := AnyLogCanBeWritten(most);
      NextSeqOfNumbered(most);
      var s := After(START, earlier);
      assert most + [last] == log;
      assert [Append(last)][1..] == [];
      AfterBoth(START, earlier, [Append(last)]);
      actions := earlier + [Append(last)];
    }
  }

  /** Every numbered log can be written and received whole: the sessions leave none out. */
  lemma AnyLogCanBeReceived(log: seq<Event>) returns (actions: seq<Action>)
    requires Numbered(log)
    ensures Possible(START, actions) && After(START, actions).received == log == After(START, actions).log
  {
    var written := AnyLogCanBeWritten(log);
    var read := BrowserCanCatchUp(written);
    AfterBoth(START, written, read);
    actions := written + read;
  }

  /** A stream without news ends once its summary has been terminal for three seconds between two checks. */
  lemma QuietStreamEndsAfterThreeSeconds(s: System, seconds: real)
    requires In(s, Polling) && !s.conn.value.terminalEventSeen && s.conn.value.summarySeenAt == None
    requires Listed(s.log, s.conn.value.lastSeq) == [] && seconds >= 0.0
    ensures var actions := [SetSummary(true), Poll, Check, Wait(seconds), Poll, Check];
            && Possible(s, actions)
            && After(s, actions).conn.Some?
            && After(s, actions).conn.value.stage == if seconds >= 3.0 then Ended(false) else Polling
  {
    var first, second := [SetSummary(true), Poll, Check], [Wait(seconds), Poll, Check];
    var s1 := Perform(s, SetSummary(true));
    var s2 := Perform(s1, Poll);
    var s3 := Perform(s2, Check);
    var s4 := Perform(s3, Wait(seconds));
    var s5 := Perform(s4, Poll);
    assert first[1..] == [Poll, Check] && first[1..][1..] == [Check] && [Check][1..] == [];
    assert second[1..] == [Poll, Check] && second[1..][1..] == [Check];
    assert After(s, first) == s3;
    AfterBoth(s, first, second);
    assert first + second == [SetSummary(true), Poll, Check, Wait(seconds), Poll, Check];
  }
}
