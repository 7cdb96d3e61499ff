/**
  The append-only table of dashboard run events. Each user's run has its own log, numbered by its `seq` column (here
  `number`); one table holds them all. Each append is one transaction.
 */
module EventLog {
  import opened Results

  datatype EventType = RunCompleted | RunFailed | OtherEvent(name: string)

  /** `body` stands for the stage, the status and the payload. */
  datatype Event = Event(userId: nat, runContextId: nat, number: int, eventType: EventType, body: string)

  function LogOf(rows: seq<Event>, userId: nat, runContextId: nat): (log: seq<Event>)
    ensures |log| <= |rows|
  {
    if rows == [] then []
    else
      var row := rows[|rows| - 1];
      var earlier := LogOf(rows[..|rows| - 1], userId, runContextId);
      if row.userId == userId && row.runContextId == runContextId then earlier + [row] else earlier
  }

  /** SQL's max(seq): no value without rows. */
  function MaxSeq(log: seq<Event>): Option<int> {
    if log == [] then None
    else
      var row, earlier := log[|log| - 1], MaxSeq(log[..|log| - 1]);
      if earlier.Some? && earlier.value >= row.number then earlier else Some(row.number)
  }

  function NextSeq(log: seq<Event>): int {
    (if MaxSeq(log).Some? then MaxSeq(log).value else 0) + 1
  }

  function Since(log: seq<Event>, after: int): seq<Event> {
    if log == [] then []
    else
      var row, earlier := log[|log| - 1], Since(log[..|log| - 1], after);
      if row.number > after then earlier + [row] else earlier
  }

  function Inserted(list: seq<Event>, row: Event): seq<Event> {
    if list == [] || list[|list| - 1].number <= row.number then list + [row]
    else Inserted(list[..|list| - 1], row) + [list[|list| - 1]]
  }

  /** ORDER BY seq ASC. */
  function Ordered(list: seq<Event>): seq<Event> {
    if list == [] then [] else Inserted(Ordered(list[..|list| - 1]), list[|list| - 1])
  }

  function Listed(log: seq<Event>, after: int): seq<Event> {
    Ordered(Since(log, after))
  }

  /** The greatest number of any log, numbered in order or not. */
  lemma {:induction false} MaxSeqIsGreatest(log: seq<Event>)
    ensures MaxSeq(log) == None <==> log == []
    ensures log != [] ==> exists i :: 0 <= i < |log| && log[i].number == MaxSeq(log).value
    ensures forall i :: 0 <= i < |log| ==> log[i].number <= MaxSeq(log).value
  {
    if log != [] {
      var most := log[..|log| - 1];
      MaxSeqIsGreatest(most);
      if most != [] && MaxSeq(most).value >= log[|log| - 1].number {
        var i :| 0 <= i < |most| && most[i].number == MaxSeq(most).value;
        assert log[i].number == MaxSeq(log).value;
      } else {
        assert log[|log| - 1].number == MaxSeq(log).value;
      }
    }
  }

  ghost predicate AscendsByNumber(list: seq<Event>) {
    forall i, j :: 0 <= i < j < |list| ==> list[i].number <= list[j].number
  }

  lemma {:induction false} InsertedAddsTheRow(list: seq<Event>, row: Event)
    ensures multiset(Inserted(list, row)) == multiset(list) + multiset{row}
  {
    if list != [] && list[|list| - 1].number > row.number {
      var most, last := list[..|list| - 1], list[|list| - 1];
      assert list == most + [last];
      InsertedAddsTheRow(most, row);
    }
  }

  lemma AscendingAndLast(list: seq<Event>, last: Event)
    requires AscendsByNumber(list) && forall e :: e in list ==> e.number <= last.number
    ensures AscendsByNumber(list + [last])
  {
  }

  lemma NoneAbove(list: seq<Event>, row: Event, number: int)
    requires row.number <= number && forall e :: e in list ==> e.number <= number
    ensures forall e :: e in Inserted(list, row) ==> e.number <= number
  {
    InsertedAddsTheRow(list, row);
    forall e | e in Inserted(list, row)
      ensures e.number <= number
    {
      assert e in multiset(list) + multiset{row};
    }
  }

  lemma {:induction false} InsertedStaysAscending(list: seq<Event>, row: Event)
    requires AscendsByNumber(list)
    ensures AscendsByNumber(Inserted(list, row))
  {
    if list != [] && list[|list| - 1].number > row.number {
      var most, last := list[..|list| - 1], list[|list| - 1];
      InsertedStaysAscending(most, row);
      NoneAbove(most, row, last.number);
      AscendingAndLast(Inserted(most, row), last);
    } else {
      assert forall e :: e in list ==> e.number <= row.number;
      AscendingAndLast(list, row);
    }
  }

  /** Any rows come out ascending by number, each as often as it went in. */
  lemma {:induction false} OrderedIsSorted(list: seq<Event>)
    ensures AscendsByNumber(Ordered(list)) && multiset(Ordered(list)) == multiset(list)
  {
    if list != [] {
      OrderedIsSorted(list[..|list| - 1]);
      InsertedStaysAscending(Ordered(list[..|list| - 1]), list[|list| - 1]);
      InsertedAddsTheRow(Ordered(list[..|list| - 1]), list[|list| - 1]);
      assert list == list[..|list| - 1] + [list[|list| - 1]];
    }
  }

  // The numbering -------------------------------------------------------------------------------------------------

  ghost predicate Numbered(log: seq<Event>) {
    forall i :: 0 <= i < |log| ==> log[i].number == i + 1
  }

  ghost predicate AllNumbered(rows: seq<Event>) {
    forall userId: nat, runContextId: nat :: Numbered(LogOf(rows, userId, runContextId))
  }

  lemma {:induction false} NextSeqOfNumbered(log: seq<Event>)
    requires Numbered(log)
    ensures NextSeq(log) == |log| + 1
  {
    if log != [] {
      var earlier := log[..|log| - 1];
      NextSeqOfNumbered(earlier);
      assert log[|log| - 1].number == |log|;
      assert earlier != [] ==> MaxSeq(earlier).Some?;
    }
  }

  lemma LogOfAppended(rows: seq<Event>, row: Event, userId: nat, runContextId: nat)
    ensures LogOf(rows + [row], userId, runContextId)
         == LogOf(rows, userId, runContextId) + if row.userId == userId && row.runContextId == runContextId
           then [row] else []
  {
    assert (rows + [row])[..|rows|] == rows;
    assert LogOf(rows, userId, runContextId) + [] == LogOf(rows, userId, runContextId);
  }

  /** An append numbered by `NextSeq` of its own log keeps every log of the table numbered 1..n. */
  lemma AppendKeepsNumbering(rows: seq<Event>, row: Event)
    requires AllNumbered(rows) && row.number == NextSeq(LogOf(rows, row.userId, row.runContextId))
    ensures AllNumbered(rows + [row])
    ensures LogOf(rows + [row], row.userId, row.runContextId) == LogOf(rows, row.userId, row.runContextId) + [row]
    ensures row.number == |LogOf(rows + [row], row.userId, row.runContextId)|
  {
    NextSeqOfNumbered(LogOf(rows, row.userId, row.runContextId));
    forall userId: nat, runContextId: nat
      ensures Numbered(LogOf(rows + [row], userId, runContextId))
    {
      LogOfAppended(rows, row, userId, runContextId);
      assert Numbered(LogOf(rows, userId, runContextId));
    }
    LogOfAppended(rows, row, row.userId, row.runContextId);
  }

  /** What a log holds after position `after`; everything lies after a negative one. */
  function Tail(log: seq<Event>, after: int): seq<Event> {
    if after < 0 then log else if after > |log| then [] else log[after..]
  }

  lemma TailOfAppended(log: seq<Event>, row: Event, after: int)
    ensures Tail(log + [row], after) == Tail(log, after) + if after <= |log| then [row] else []
  {
    if 0 <= after <= |log| {
      assert (log + [row])[after..] == log[after..] + [row];
    } else if after > |log| {
      assert Tail(log + [row], after) == [];
    }
  }

  lemma {:induction false} SinceIsTail(log: seq<Event>, after: int)
    requires Numbered(log)
    ensures Since(log, after) == Tail(log, after)
  {
    if log != [] {
      var earlier := log[..|log| - 1];
      var last := log[|log| - 1];
      SinceIsTail(earlier, after);
      assert last.number == |log|;
      assert log == earlier + [last];
      TailOfAppended(earlier, last, after);
    }
  }

  lemma {:induction false} AscendingIsOrdered(list: seq<Event>)
    requires forall i, j :: 0 <= i < j < |list| ==> list[i].number <= list[j].number
    ensures Ordered(list) == list
  {
    if list != [] {
      AscendingIsOrdered(list[..|list| - 1]);
      assert list == list[..|list| - 1] + [list[|list| - 1]];
    }
  }

  /** Of a numbered log, a reader gets exactly what lies after its position, in order. */
  lemma ListedIsTail(log: seq<Event>, after: int)
    requires Numbered(log)
    ensures Listed(log, after) == Tail(log, after)
  {
    SinceIsTail(log, after);
    AscendingIsOrdered(Tail(log, after));
  }

  /**
    An append whose read and insert are apart: a row numbered by the log as it was read, behind further rows of that
    log, continues the numbering exactly when there are no such rows.
   */
  lemma SplitAppendNumbersIff(read: seq<Event>, between: seq<Event>, row: Event)
    requires Numbered(read + between) && row.number == NextSeq(read)
    ensures Numbered(read + between + [row]) <==> between == []
  {
    assert Numbered(read) by {
      forall i | 0 <= i < |read|
        ensures read[i].number == i + 1
      {
        assert (read + between)[i] == read[i];
      }
    }
    NextSeqOfNumbered(read);
    assert (read + between + [row])[|read + between|] == row;
    if between == [] {
      assert forall i :: 0 <= i < |read| ==> (read + between + [row])[i] == (read + between)[i];
    }
  }

  /**
    The numbering needs the append to be atomic. Two writers that both read the maximum before either inserts give out
    the same number, and a reader that polls in between never gets the second event.
   */
  lemma RacingAppendsHideAnEvent(log: seq<Event>, first: Event, second: Event)
    requires Numbered(log) && first.number == NextSeq(log) && second.number == NextSeq(log)
    ensures Listed(log + [first], |log|) == [first]
    ensures !Numbered(log + [first] + [second])
    ensures Listed(log + [first] + [second], first.number) == []
  {
    NextSeqOfNumbered(log);
    ListedIsTail(log + [first], |log|);
    SinceIsTail(log + [first], first.number);
    assert Since(log + [first], first.number) == [];
    assert (log + [first] + [second])[..|log| + 1] == log + [first];
    assert (log + [first] + [second])[|log| + 1] == second;
  }

  // The store -----------------------------------------------------------------------------------------------------

  class EventTable {
    var rows: seq<Event>

    constructor ()
      ensures rows == [] && AllNumbered(rows)
    {
      rows := [];
    }
  }

  class RuntimeStore {
    const table: EventTable
    const userId: nat

    constructor (table: EventTable, userId: nat)
      ensures this.table == table && this.userId == userId
    {
      this.table, this.userId := table, userId;
    }

    method AppendDashboardRunEvent(runContextId: nat, eventType: EventType, body: string) returns (nextSeq: int)
      modifies table
      ensures table.rows == old(table.rows) + [Event(userId, runContextId, nextSeq, eventType, body)]
      ensures nextSeq == NextSeq(LogOf(old(table.rows), userId, runContextId))
      ensures old(AllNumbered(table.rows)) ==>
              AllNumbered(table.rows) && nextSeq == |LogOf(table.rows, userId, runContextId)|
    {
      var currentSeq := MaxSeq(LogOf(table.rows, userId, runContextId));
      nextSeq := (if currentSeq.Some? then currentSeq.value else 0) + 1;
      var row := Event(userId, runContextId, nextSeq, eventType, body);
      if AllNumbered(table.rows) {
        AppendKeepsNumbering(table.rows, row);
      }
      table.rows := table.rows + [row];
    }

    method ListDashboardRunEvents(runContextId: nat, afterSeq: int) returns (events: seq<Event>)
      ensures events == Listed(LogOf(table.rows, userId, runContextId), afterSeq)
      ensures AllNumbered(table.rows) ==> events == Tail(LogOf(table.rows, userId, runContextId), afterSeq)
    {
      var stmt := Since(LogOf(table.rows, userId, runContextId), afterSeq);
      events := Ordered(stmt);
      if AllNumbered(table.rows) {
        assert Numbered(LogOf(table.rows, userId, runContextId));
        ListedIsTail(LogOf(table.rows, userId, runContextId), afterSeq);
      }
    }
  }
}
