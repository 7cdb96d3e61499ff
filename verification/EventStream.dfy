/**
  The polling event stream of one dashboard run and the browser at its other end. The server polls the log, puts the
  events on the wire one by one and closes after a terminal event or when the run summary has stayed terminal for
  three seconds. Connections may drop at any moment and lose what is on the wire; the browser reconnects with the id
  of the last event it got. Appends by other parties interleave with everything.
 */
module EventStream {
  import opened EventLog
  import opened Results

  predicate IsTerminal(event: Event) {
    event.eventType == RunCompleted || event.eventType == RunFailed
  }

  /** The position a Last-Event-ID header asks to resume from. Ids on the wire are decimal numbers. */
  function AfterSeq(lastEventId: Option<int>): (after: nat)
    ensures lastEventId != None && lastEventId.value >= 0 ==> after == lastEventId.value
    ensures lastEventId == None || lastEventId.value < 0 ==> after == 0
  {
    if lastEventId.Some? && lastEventId.value >= 0 then lastEventId.value else 0
  }

  datatype Verdict = Stop | GoOn(summarySeenAt: Option<real>)

  /** The end of a round: stop, or go on remembering since when the summary has been terminal. */
  function Judge(terminalEventSeen: bool, summaryTerminal: bool, now: real, summarySeenAt: Option<real>): Verdict {
    if terminalEventSeen then Stop
    else if !summaryTerminal then GoOn(None)
    else if summarySeenAt.None? then GoOn(Some(now))
    else if now - summarySeenAt.value >= 3.0 then Stop
    else GoOn(summarySeenAt)
  }

  // The generator -------------------------------------------------------------------------------------------------

  /** What one round finds: the log when it polls, the summary and the clock when it checks them. */
  datatype Round = Round(log: seq<Event>, summaryTerminal: bool, checkedAt: real)

  ghost predicate LogsGrow(rounds: seq<Round>) {
    && (forall i :: 0 <= i < |rounds| ==> Numbered(rounds[i].log))
    && (forall i, j :: 0 <= i < j < |rounds| ==> rounds[i].log <= rounds[j].log)
  }

  predicate AnyTerminal(events: seq<Event>) {
    exists i :: 0 <= i < |events| && IsTerminal(events[i])
  }

  lemma AnyTerminalOfBoth(a: seq<Event>, b: seq<Event>)
    ensures AnyTerminal(a + b) <==> AnyTerminal(a) || AnyTerminal(b)
  {
    if i :| 0 <= i < |a| && IsTerminal(a[i]) {
      assert (a + b)[i] == a[i];
    }
    if i :| 0 <= i < |b| && IsTerminal(b[i]) {
      assert (a + b)[|a| + i] == b[i];
    }
  }

  /** Yields one poll's events. */
  method YieldAll(events: seq<Event>, lastSeq0: int, terminalEventSeen0: bool)
      returns (lastSeq: int, terminalEventSeen: bool, frames: seq<Event>)
    ensures frames == events
    ensures lastSeq == if events == [] then lastSeq0 else events[|events| - 1].number
    ensures terminalEventSeen <==> terminalEventSeen0 || AnyTerminal(events)
  {
    lastSeq, terminalEventSeen, frames := lastSeq0, terminalEventSeen0, [];
    for k := 0 to |events|
      invariant frames == events[..k]
      invariant lastSeq == if k == 0 then lastSeq0 else events[k - 1].number
      invariant terminalEventSeen <==> terminalEventSeen0 || exists i :: 0 <= i < k && IsTerminal(events[i])
    {
      lastSeq := events[k].number;
      if IsTerminal(events[k]) {
        terminalEventSeen := true;
      }
      frames := frames + [events[k]];
    }
  }

  /** The frames so far are what `log` holds after the resume point, and `lastSeq` is where they end. */
  ghost predicate SentAll(log: seq<Event>, after: nat, lastSeq: int, frames: seq<Event>) {
    lastSeq == (if |log| > after then |log| else after) && frames == Tail(log, after)
  }

  /** A poll from where the previous one ended continues what has been sent. */
  lemma PollsJoinUp(earlier: seq<Event>, log: seq<Event>, after: nat, lastSeq: int, frames: seq<Event>,
                    events: seq<Event>)
    requires Numbered(log) && earlier <= log && SentAll(earlier, after, lastSeq, frames)
    requires events == Listed(log, lastSeq)
    ensures SentAll(log, after, if events == [] then lastSeq else events[|events| - 1].number, frames + events)
  {
    ListedIsTail(log, lastSeq);
  }

  /**
    The instant of the first check in the unbroken row of terminal ones that ends with the n-th round, if there is
    one.
   */
  function SeenSince(rounds: seq<Round>, n: nat): Option<real>
    requires n <= |rounds|
  {
    if n == 0 || !rounds[n - 1].summaryTerminal then None
    else if SeenSince(rounds, n - 1).None? then Some(rounds[n - 1].checkedAt)
    else SeenSince(rounds, n - 1)
  }

  /** Over the last of the first n rounds, three seconds or more, every check found the summary terminal. */
  ghost predicate Lingered(rounds: seq<Round>, n: nat)
    requires n <= |rounds|
  {
    exists i :: 0 <= i < n && rounds[n - 1].checkedAt - rounds[i].checkedAt >= 3.0 && AllSummariesTerminal(rounds, i, n)
  }

  /** The summary was terminal at every check from round `lo` up to, not including, round `hi`. */
  predicate AllSummariesTerminal(rounds: seq<Round>, lo: int, hi: int) {
    forall i :: 0 <= lo <= i < hi <= |rounds| ==> rounds[i].summaryTerminal
  }

  ghost predicate ClockRuns(rounds: seq<Round>) {
    forall i, j :: 0 <= i <= j < |rounds| ==> rounds[i].checkedAt <= rounds[j].checkedAt
  }

  /** The remembered instant is that of the first check in the current unbroken row of terminal ones. */
  lemma {:induction false} SeenSinceStartsTheRow(rounds: seq<Round>, n: nat) returns (start: nat)
    requires n <= |rounds|
    ensures start <= n && AllSummariesTerminal(rounds, start, n)
    ensures start > 0 ==> !rounds[start - 1].summaryTerminal
    ensures SeenSince(rounds, n) == if start == n then None else Some(rounds[start].checkedAt)
  {
    if n == 0 || !rounds[n - 1].summaryTerminal {
      start := n;
    } else {
      start := SeenSinceStartsTheRow(rounds, n - 1);
    }
  }

  lemma LingeredMeans(rounds: seq<Round>, n: nat)
    requires 0 < n <= |rounds| && ClockRuns(rounds)
    ensures Lingered(rounds, n) <==>
            SeenSince(rounds, n).Some? && rounds[n - 1].checkedAt - SeenSince(rounds, n).value >= 3.0
  {
    var start := SeenSinceStartsTheRow(rounds, n);
    forall i | 0 <= i < start
      ensures !AllSummariesTerminal(rounds, i, n)
    {
      assert !rounds[start - 1].summaryTerminal;
    }
  }

  /** The stream is due to stop after its n-th round: it has sent a terminal event, or the summary has lingered. */
  ghost predicate Due(rounds: seq<Round>, after: int, n: nat)
    requires 0 < n <= |rounds|
  {
    AnyTerminal(Tail(rounds[n - 1].log, after)) || Lingered(rounds, n)
  }

  /** It was due to stop after some round up to the n-th. */
  ghost predicate DueBy(rounds: seq<Round>, after: int, n: nat)
    requires n <= |rounds|
  {
    n > 0 && (Due(rounds, after, n) || DueBy(rounds, after, n - 1))
  }

  /**
    Due means: a completion or a failure was among the events, or for three seconds every check found the summary
    terminal.
   */
  lemma DueMeans(rounds: seq<Round>, after: int, n: nat)
    requires 0 < n <= |rounds|
    ensures var sent := Tail(rounds[n - 1].log, after);
            Due(rounds, after, n) <==>
              || (exists i :: 0 <= i < |sent| && (sent[i].eventType == RunCompleted || sent[i].eventType == RunFailed))
              || (exists i :: 0 <= i < n && rounds[n - 1].checkedAt - rounds[i].checkedAt >= 3.0
                              && forall k :: i <= k < n ==> rounds[k].summaryTerminal)
  {
    var sent := Tail(rounds[n - 1].log, after);
    if AnyTerminal(sent) {
      var i :| 0 <= i < |sent| && IsTerminal(sent[i]);
      assert sent[i].eventType == RunCompleted || sent[i].eventType == RunFailed;
    }
    if i :| 0 <= i < |sent| && (sent[i].eventType == RunCompleted || sent[i].eventType == RunFailed) {
      assert IsTerminal(sent[i]);
    }
  }

  lemma JudgeStopsWhenDue(rounds: seq<Round>, after: int, n: nat, terminalEventSeen: bool)
    requires n < |rounds| && ClockRuns(rounds)
    requires terminalEventSeen <==> AnyTerminal(Tail(rounds[n].log, after))
    ensures var verdict := Judge(terminalEventSeen, rounds[n].summaryTerminal, rounds[n].checkedAt,
                                 SeenSince(rounds, n));
            && (verdict == Stop <==> Due(rounds, after, n + 1))
            && (verdict.GoOn? ==> verdict.summarySeenAt == SeenSince(rounds, n + 1))
  {
    LingeredMeans(rounds, n + 1);
  }

  function LogBefore(rounds: seq<Round>, n: nat): seq<Event>
    requires n <= |rounds|
  {
    if n == 0 then [] else rounds[n - 1].log
  }

  lemma RoundsJoinUp(rounds: seq<Round>, n: nat)
    requires LogsGrow(rounds) && n < |rounds|
    ensures Numbered(rounds[n].log) && LogBefore(rounds, n) <= rounds[n].log
  {
  }

  /** One turn of the loop. */
  method PollOnce(rounds: seq<Round>, after: nat, n: nat, lastSeq0: int, terminalEventSeen0: bool, seenAt: Option<real>,
                  frames0: seq<Event>)
    returns (lastSeq: int, terminalEventSeen: bool, verdict: Verdict, frames: seq<Event>)
    requires LogsGrow(rounds) && ClockRuns(rounds) && n < |rounds|
    requires SentAll(LogBefore(rounds, n), after, lastSeq0, frames0)
    requires terminalEventSeen0 <==> AnyTerminal(frames0)
    requires seenAt == SeenSince(rounds, n)
    ensures SentAll(rounds[n].log, after, lastSeq, frames)
    ensures terminalEventSeen <==> AnyTerminal(frames)
    ensures verdict == Stop <==> Due(rounds, after, n + 1)
    ensures verdict.GoOn? ==> verdict.summarySeenAt == SeenSince(rounds, n + 1)
  {
    var events := Listed(rounds[n].log, lastSeq0);
    RoundsJoinUp(rounds, n);
    PollsJoinUp(LogBefore(rounds, n), rounds[n].log, after, lastSeq0, frames0, events);
    AnyTerminalOfBoth(frames0, events);
    var sent;
    lastSeq, terminalEventSeen, sent := YieldAll(events, lastSeq0, terminalEventSeen0);
    frames := frames0 + sent;
    JudgeStopsWhenDue(rounds, after, n, terminalEventSeen);
    verdict := Judge(terminalEventSeen, rounds[n].summaryTerminal, rounds[n].checkedAt, seenAt);
  }

  /**
    One connection that nobody drops, for the rounds it lives through. Its frames are what the last polled log holds
    after the resume point. It stops at the first round by which a terminal event has been sent or the summary has
    lingered.
   */
  method EventIter(lastEventId: Option<int>, rounds: seq<Round>)
      returns (frames: seq<Event>, polled: nat, stopped: bool)
    requires LogsGrow(rounds) && ClockRuns(rounds) && rounds != []
    ensures 1 <= polled <= |rounds| && (!stopped ==> polled == |rounds|)
    ensures frames == Tail(rounds[polled - 1].log, AfterSeq(lastEventId))
    ensures stopped <==> Due(rounds, AfterSeq(lastEventId), polled)
    ensures !DueBy(rounds, AfterSeq(lastEventId), polled - 1)
  {
    var lastSeq := AfterSeq(lastEventId);
    var terminalEventSeen := false;
    var terminalSummarySeenAt := None;
    frames, polled, stopped := [], 0, false;
    while polled < |rounds| && !stopped
      invariant polled <= |rounds|
      invariant SentAll(LogBefore(rounds, polled), AfterSeq(lastEventId), lastSeq, frames)
      invariant terminalEventSeen <==> AnyTerminal(frames)
      invariant !stopped ==> terminalSummarySeenAt == SeenSince(rounds, polled)
      invariant stopped ==> polled > 0 && Due(rounds, AfterSeq(lastEventId), polled)
      invariant !DueBy(rounds, AfterSeq(lastEventId), if stopped then polled - 1 else polled)
      decreases |rounds| - polled
    {
      var verdict;
      lastSeq, terminalEventSeen, verdict, frames :=
        PollOnce(rounds, AfterSeq(lastEventId), polled, lastSeq, terminalEventSeen, terminalSummarySeenAt, frames);
      match verdict {
        case Stop => stopped := true;
        case GoOn(at) => terminalSummarySeenAt := at;
      }
      polled := polled + 1;
    }
  }
}
