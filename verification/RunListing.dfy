/**
  Keyset pagination over the analysis runs of one user, newest first. A run id is modelled by its rank in the database's
  order of ids, a symbol by whether it ends in ".US".
 */
module RunListing {
  import opened Numbers
  import opened Results

  datatype Status = Status(name: string)

  datatype Row = Row(user: nat, usSymbol: bool, status: Status, createdAt: int)

  /** The table, keyed by run id. */
  type Table = map<int, Row>

  /** A listed run: its id and the instant it sorts by. Its other columns are the table's. */
  datatype Run = Run(createdAt: int, runId: int)

  /** `market` is Some(true) for "us", Some(false) for "a"; anything else does not filter. */
  datatype Filter = Filter(market: Option<bool>, status: Option<Status>)

  datatype Page = Page(items: seq<Run>, nextCursor: Option<int>)

  predicate Passes(f: Filter, user: nat, row: Row) {
    && row.user == user
    && (f.market.Some? ==> row.usSymbol == f.market.value)
    && (f.status.Some? ==> row.status == f.status.value)
  }

  predicate IsRunOf(rows: Table, run: Run) {
    run.runId in rows && rows[run.runId].createdAt == run.createdAt
  }

  function Runs(rows: Table): (runs: set<Run>)
    ensures forall r :: r in runs <==> IsRunOf(rows, r)
  {
    set id | id in rows :: Run(rows[id].createdAt, id)
  }

  /** `a` is listed before `b`: created later, or at the same instant under a greater id. */
  predicate Above(a: Run, b: Run) {
    a.createdAt > b.createdAt || (a.createdAt == b.createdAt && a.runId > b.runId)
  }

  // ORDER BY created_at DESC, run_id DESC -------------------------------------------------------------------------

  predicate OnTop(runs: set<Run>, top: Run) {
    top in runs && forall x :: x in runs && x != top ==> Above(top, x)
  }

  lemma {:induction false} SomeRunIsOnTop(runs: set<Run>)
    requires runs != {}
    ensures exists top :: OnTop(runs, top)
    decreases |runs|
  {
    var one :| one in runs;
    var rest := runs - {one};
    assert forall x :: x in runs ==> x == one || x in rest;
    if rest == {} {
      assert OnTop(runs, one);
    } else {
      SomeRunIsOnTop(rest);
      var best :| OnTop(rest, best);
      if Above(best, one) {
        assert OnTop(runs, best);
      } else {
        assert best in runs && one in runs && best != one;
        assert OnTop(runs, one);
      }
    }
  }

  function Top(runs: set<Run>): (top: Run)
    requires runs != {}
    ensures OnTop(runs, top)
  {
    SomeRunIsOnTop(runs);
    var top :| OnTop(runs, top);
    top
  }

  function Sorted(runs: set<Run>): (list: seq<Run>)
    ensures |list| == |runs|
    decreases |runs|
  {
    if runs == {} then [] else [Top(runs)] + Sorted(runs - {Top(runs)})
  }

  ghost predicate Descending(list: seq<Run>) {
    forall i, j :: 0 <= i < j < |list| ==> Above(list[i], list[j])
  }

  lemma {:induction false} SortedLists(runs: set<Run>)
    ensures Descending(Sorted(runs))
    ensures forall r :: r in Sorted(runs) <==> r in runs
    decreases |runs|
  {
    if runs != {} {
      SortedLists(runs - {Top(runs)});
      var rest := Sorted(runs - {Top(runs)});
      forall j | 0 <= j < |rest|
        ensures Above(Top(runs), rest[j])
      {
        assert rest[j] in rest;
      }
    }
  }

  /** `list` is the runs of `runs`, newest first, each once. */
  ghost predicate Lists(list: seq<Run>, runs: set<Run>) {
    Descending(list) && forall r :: r in list <==> r in runs
  }

  lemma HeadIsTop(list: seq<Run>, runs: set<Run>)
    requires Lists(list, runs) && list != []
    ensures runs != {} && Top(runs) == list[0]
  {
    assert list[0] in runs;
    var top := Top(runs);
    assert top in list;
  }

  lemma TailLists(list: seq<Run>, runs: set<Run>)
    requires Lists(list, runs) && list != []
    ensures Lists(list[1..], runs - {list[0]})
  {
    forall r
      ensures r in list[1..] <==> r in runs - {list[0]}
    {
      if r in list[1..] {
        assert r in list;
      } else if r in runs {
        assert r in list;
        assert list == [list[0]] + list[1..];
      }
    }
  }

  lemma NothingIsListed(runs: set<Run>)
    requires Lists([], runs)
    ensures runs == {}
  {
  }

  lemma SortedUnfolds(runs: set<Run>, top: Run)
    requires runs != {} && Top(runs) == top
    ensures Sorted(runs) == [top] + Sorted(runs - {top})
  {
  }

  /** A listing is determined by its runs. */
  lemma {:induction false} ListingIsSorted(list: seq<Run>, runs: set<Run>)
    requires Lists(list, runs)
    ensures list == Sorted(runs)
    decreases |list|
  {
    if list == [] {
      NothingIsListed(runs);
    } else {
      HeadIsTop(list, runs);
      TailLists(list, runs);
      ListingIsSorted(list[1..], runs - {list[0]});
      SortedUnfolds(runs, list[0]);
      assert list == [list[0]] + list[1..];
    }
  }

  // The query -----------------------------------------------------------------------------------------------------

  function Clamped(limit: int): (capped: int)
    ensures 1 <= capped <= 100 && (1 <= limit <= 100 ==> capped == limit)
  {
    if limit > 100 then 100 else if limit < 1 then 1 else limit
  }

  /** The run a cursor names, if the user has it. */
  function CursorRun(rows: Table, user: nat, cursor: Option<int>): Option<Run> {
    if cursor.Some? && cursor.value in rows && rows[cursor.value].user == user then
      Some(Run(rows[cursor.value].createdAt, cursor.value))
    else None
  }

  predicate Matches(rows: Table, user: nat, f: Filter, after: Option<Run>, run: Run) {
    IsRunOf(rows, run) && Passes(f, user, rows[run.runId]) && (after.Some? ==> Above(after.value, run))
  }

  function Matching(rows: Table, user: nat, f: Filter, after: Option<Run>): (matching: set<Run>)
    ensures forall r :: r in matching <==> Matches(rows, user, f, after, r)
  {
    set r | r in Runs(rows) && Matches(rows, user, f, after, r)
  }

  /**
    What the filters and the cursor keep: runs of the user, of the market and status asked for, older than the
    cursor's.
   */
  lemma FiltersKeep(rows: Table, user: nat, f: Filter, after: Option<Run>, r: Run)
    ensures r in Matching(rows, user, f, after) <==>
            && r.runId in rows && rows[r.runId].createdAt == r.createdAt && rows[r.runId].user == user
            && (f.market == Some(true) ==> rows[r.runId].usSymbol)
            && (f.market == Some(false) ==> !rows[r.runId].usSymbol)
            && (f.status != None ==> f.status == Some(rows[r.runId].status))
            && (after != None ==> r.createdAt < after.value.createdAt
                                  || (r.createdAt == after.value.createdAt && r.runId < after.value.runId))
  {
  }

  /** The two markets split every listing between them. */
  lemma MarketsSplitTheListing(rows: Table, user: nat, status: Option<Status>, after: Option<Run>)
    ensures var us := Matching(rows, user, Filter(Some(true), status), after);
            var others := Matching(rows, user, Filter(Some(false), status), after);
            us !! others && us + others == Matching(rows, user, Filter(None, status), after)
  {
    forall r
      ensures r in Matching(rows, user, Filter(None, status), after) <==>
              r in Matching(rows, user, Filter(Some(true), status), after)
              || r in Matching(rows, user, Filter(Some(false), status), after)
    {
      FiltersKeep(rows, user, Filter(None, status), after, r);
      FiltersKeep(rows, user, Filter(Some(true), status), after, r);
      FiltersKeep(rows, user, Filter(Some(false), status), after, r);
    }
  }

  function PageOf(list: seq<Run>, limit: int): Page
    requires limit >= 1
  {
    Page(list[..Min(|list|, limit)], if |list| > limit then Some(list[limit - 1].runId) else None)
  }

  /** The page a request answers over the table. */
  function Answer(rows: Table, user: nat, f: Filter, limit: int, cursor: Option<int>): Page
  {
    PageOf(Sorted(Matching(rows, user, f, CursorRun(rows, user, cursor))), Clamped(limit))
  }

  /**
    A page holds the newest of what matches, at most as many as the limit between 1 and 100, newest first, ids deciding
    between runs of one instant; everything it leaves out is older.
   */
  lemma PageIsNewest(rows: Table, user: nat, f: Filter, limit: int, cursor: Option<int>)
    ensures var items := Answer(rows, user, f, limit, cursor).items;
            var all := Matching(rows, user, f, CursorRun(rows, user, cursor));
            && |items| == Min(|all|, if limit > 100 then 100 else if limit < 1 then 1 else limit)
            && (forall i, j :: 0 <= i < j < |items| ==> Older(items[j], items[i]))
            && (forall i :: 0 <= i < |items| ==> items[i] in all)
            && (forall r, i :: r in all && r !in items && 0 <= i < |items| ==> Older(r, items[i]))
  {
    var all := Matching(rows, user, f, CursorRun(rows, user, cursor));
    var list, limit' := Sorted(all), Clamped(limit);
    SortedLists(all);
    var items := list[..Min(|list|, limit')];
    forall i | 0 <= i < |items|
      ensures items[i] in all
    {
      assert list[i] in list;
    }
    assert forall k :: 0 <= k < |items| ==> list[k] == items[k];
    forall r, i | r in all && r !in items && 0 <= i < |items|
      ensures Older(r, items[i])
    {
      assert r in list;
      var k :| 0 <= k < |list| && list[k] == r;
      assert k >= |items|;
      assert Above(list[i], list[k]);
    }
  }

  /** Created earlier, or at the same instant under a smaller id. */
  predicate Older(a: Run, b: Run) {
    a.createdAt < b.createdAt || (a.createdAt == b.createdAt && a.runId < b.runId)
  }

  /** A cursor counts only if it names a run of the user's own. */
  lemma CursorOfOthersIsIgnored(rows: Table, user: nat, f: Filter, limit: int, cursor: int)
    requires cursor in rows ==> rows[cursor].user != user
    ensures Answer(rows, user, f, limit, Some(cursor)) == Answer(rows, user, f, limit, None)
  {
  }

  /** Fetching one row too many and dropping it again. */
  method TakePage(ordered: seq<Run>, limit: int) returns (page: Page)
    requires limit >= 1
    ensures page == PageOf(ordered, limit)
  {
    var fetched := ordered[..Min(|ordered|, limit + 1)];
    var hasMore := |fetched| > limit;
    var items := fetched[..Min(|fetched|, limit)];
    page := Page(items, if hasMore && items != [] then Some(items[|items| - 1].runId) else None);
  }

  class AnalysisRunStore {
    const user: nat
    var rows: Table

    constructor (user: nat)
      ensures this.user == user && rows == map[]
    {
      this.user, rows := user, map[];
    }

    method Select(market: Option<bool>, statusFilter: Option<Status>, after: Option<Run>) returns (stmt: set<Run>)
      ensures stmt == Matching(rows, user, Filter(market, statusFilter), after)
    {
      stmt := set r | r in Runs(rows) && rows[r.runId].user == user;
      if market == Some(true) {
        stmt := set r | r in stmt && rows[r.runId].usSymbol;
      } else if market == Some(false) {
        stmt := set r | r in stmt && !rows[r.runId].usSymbol;
      }
      assert stmt == Matching(rows, user, Filter(market, None), None);
      if statusFilter.Some? {
        stmt := set r | r in stmt && rows[r.runId].status == statusFilter.value;
      }
      assert stmt == Matching(rows, user, Filter(market, statusFilter), None);
      if after.Some? {
        stmt := set r | r in stmt && Above(after.value, r);
      }
    }

    /** A cursor that names no run of the user is ignored and the listing starts from the top. */
    method ListRuns(market: Option<bool>, statusFilter: Option<Status>, limit: int, cursorRunId: Option<int>)
        returns (page: Page)
      ensures page == Answer(rows, user, Filter(market, statusFilter), limit, cursorRunId)
    {
      var capped := if limit > 100 then 100 else if limit < 1 then 1 else limit;
      var cursorRun := CursorRun(rows, user, cursorRunId);
      var stmt := Select(market, statusFilter, cursorRun);
      page := TakePage(Sorted(stmt), capped);
    }
  }

  // Following the cursor ------------------------------------------------------------------------------------------

  /** In a listing, the rows below the k-th are those at the later places. */
  lemma BelowIsSuffix(list: seq<Run>, all: set<Run>, below: set<Run>, k: nat)
    requires Lists(list, all) && k < |list|
    requires forall r :: r in below <==> r in all && Above(list[k], r)
    ensures Sorted(below) == list[k + 1..]
  {
    forall r | r in below
      ensures r in list[k + 1..]
    {
      assert r in list;
      var j :| 0 <= j < |list| && list[j] == r;
      assert j > k;
      assert r == list[k + 1..][j - k - 1];
    }
    forall r | r in list[k + 1..]
      ensures r in below
    {
      assert r in list;
    }
    ListingIsSorted(list[k + 1..], below);
  }

  /** Where a cursor stands in a listing: nothing seen yet, or at the row it names. */
  ghost predicate StandsAt(list: seq<Run>, cursor: Option<int>, done: nat) {
    && done <= |list|
    && (done == 0 ==> cursor == None)
    && (done > 0 ==> cursor == Some(list[done - 1].runId))
  }

  /** A request whose cursor stands at a place of the full listing answers the page from that place. */
  lemma AnswerFrom(rows: Table, user: nat, f: Filter, limit: int, cursor: Option<int>, done: nat, list: seq<Run>)
    requires list == Sorted(Matching(rows, user, f, None)) && StandsAt(list, cursor, done)
    ensures Answer(rows, user, f, limit, cursor) == PageOf(list[done..], Clamped(limit))
  {
    if done == 0 {
      assert list[0..] == list;
    } else {
      var all := Matching(rows, user, f, None);
      var last := list[done - 1];
      SortedLists(all);
      assert last in list;
      assert Matches(rows, user, f, None, last);
      BelowIsSuffix(list, all, Matching(rows, user, f, Some(last)), done - 1);
    }
  }

  /** What a store answers to each cursor, for fixed filters and limit. */
  type Server = Option<int> -> Page

  function ServerOf(rows: Table, user: nat, f: Filter, limit: int): Server {
    cursor => Answer(rows, user, f, limit, cursor)
  }

  /** The pages met by following `next_cursor` for up to `fuel` requests. */
  ghost function Follow(ask: Server, cursor: Option<int>, fuel: nat): seq<Page>
    decreases fuel
  {
    if fuel == 0 then []
    else if ask(cursor).nextCursor.None? then [ask(cursor)]
    else [ask(cursor)] + Follow(ask, ask(cursor).nextCursor, fuel - 1)
  }

  function Items(pages: seq<Page>): seq<Run> {
    if pages == [] then [] else pages[0].items + Items(pages[1..])
  }

  /** Requests needed to list n rows: one even when there are none. */
  function PagesFor(n: nat, limit: int): (pages: nat)
    requires limit >= 1
    ensures pages >= 1
    decreases n
  {
    if n <= limit then 1 else 1 + PagesFor(n - limit, limit)
  }

  lemma {:induction false} PagesForIsCeiling(n: nat, limit: int)
    requires limit >= 1
    ensures n > 0 ==> (PagesFor(n, limit) - 1) * limit < n <= PagesFor(n, limit) * limit
    ensures n == 0 ==> PagesFor(n, limit) == 1
    decreases n
  {
    if n > limit {
      PagesForIsCeiling(n - limit, limit);
      var p := PagesFor(n - limit, limit);
      assert (p + 1) * limit == p * limit + limit;
      assert (p - 1) * limit == p * limit - limit;
    }
  }

  /** The pages that list `rest` in full and then stop. */
  ghost predicate ListOut(pages: seq<Page>, rest: seq<Run>, limit: int)
    requires limit >= 1
  {
    && |pages| == PagesFor(|rest|, limit)
    && Items(pages) == rest
    && pages[|pages| - 1].nextCursor.None?
  }

  lemma LastPageListsOut(rest: seq<Run>, limit: int)
    requires limit >= 1 && |rest| <= limit
    ensures ListOut([PageOf(rest, limit)], rest, limit)
  {
    var page := PageOf(rest, limit);
    assert page.items == rest;
    assert [page][1..] == [];
    assert Items([page]) == rest + [];
  }

  lemma OneMorePageListsOut(rest: seq<Run>, limit: int, later: seq<Page>)
    requires 1 <= limit < |rest| && ListOut(later, rest[limit..], limit)
    ensures ListOut([PageOf(rest, limit)] + later, rest, limit)
  {
    var page := PageOf(rest, limit);
    assert ([page] + later)[1..] == later;
    assert rest == rest[..limit] + rest[limit..];
  }

  /** Every cursor that stands at a place of the listing is answered by the page from that place. */
  ghost predicate Serves(ask: Server, list: seq<Run>, limit: int)
    requires limit >= 1
  {
    forall cursor, done: nat :: StandsAt(list, cursor, done) ==> ask(cursor) == PageOf(list[done..], limit)
  }

  lemma {:induction false} FollowFrom(ask: Server, list: seq<Run>, limit: int, cursor: Option<int>,
                                      done: nat, fuel: nat)
    requires limit >= 1 && Serves(ask, list, limit) && StandsAt(list, cursor, done)
             && fuel >= PagesFor(|list| - done, limit)
    ensures ListOut(Follow(ask, cursor, fuel), list[done..], limit)
    decreases fuel
  {
    var rest := list[done..];
    assert ask(cursor) == PageOf(rest, limit);
    if |rest| > limit {
      var next := Some(rest[limit - 1].runId);
      FollowFrom(ask, list, limit, next, done + limit, fuel - 1);
      assert rest[limit..] == list[done + limit..];
      OneMorePageListsOut(rest, limit, Follow(ask, next, fuel - 1));
    } else {
      LastPageListsOut(rest, limit);
    }
  }

  lemma StoreServesItsListing(rows: Table, user: nat, f: Filter, limit: int)
    ensures Serves(ServerOf(rows, user, f, limit), Sorted(Matching(rows, user, f, None)), Clamped(limit))
  {
    var list := Sorted(Matching(rows, user, f, None));
    forall cursor, done: nat | StandsAt(list, cursor, done)
      ensures ServerOf(rows, user, f, limit)(cursor) == PageOf(list[done..], Clamped(limit))
    {
      AnswerFrom(rows, user, f, limit, cursor, done, list);
    }
  }

  /** The pages list each run of `all` exactly once, newest first, and the last page says it is the last. */
  ghost predicate ListOnce(pages: seq<Page>, all: set<Run>) {
    && pages != []
    && pages[|pages| - 1].nextCursor.None?
    && Lists(Items(pages), all)
    && |Items(pages)| == |all|
  }

  lemma ListedOutIsListedOnce(pages: seq<Page>, all: set<Run>, limit: int)
    requires limit >= 1 && ListOut(pages, Sorted(all)[0..], limit)
    ensures ListOnce(pages, all) && |pages| == PagesFor(|all|, limit)
  {
    assert Sorted(all)[0..] == Sorted(all);
    SortedLists(all);
  }

  /**
    Over a fixed table, following the cursor from the start lists every matching run exactly once, newest first, and
    stops by itself after ceil(n / limit) requests (one when nothing matches).
   */
  lemma FollowingListsEverythingOnce(rows: Table, user: nat, f: Filter, limit: int, fuel: nat)
    requires fuel >= PagesFor(|Matching(rows, user, f, None)|, Clamped(limit))
    ensures var pages := Follow(ServerOf(rows, user, f, limit), None, fuel);
            ListOnce(pages, Matching(rows, user, f, None))
              && |pages| == PagesFor(|Matching(rows, user, f, None)|, Clamped(limit))
  {
    var all := Matching(rows, user, f, None);
    var ask := ServerOf(rows, user, f, limit);
    StoreServesItsListing(rows, user, f, limit);
    FollowFrom(ask, Sorted(all), Clamped(limit), None, 0, fuel);
    ListedOutIsListedOnce(Follow(ask, None, fuel), all, Clamped(limit));
  }

  /** `grown` is `rows` with runs added above the run a cursor names. */
  ghost predicate GrownAbove(rows: Table, grown: Table, cursor: Run) {
    && (forall id :: id in rows ==> id in grown && grown[id] == rows[id])
    && (forall id :: id in grown && id !in rows ==> Above(Run(grown[id].createdAt, id), cursor))
  }

  /** A request whose cursor lies below the added runs does not see them. */
  lemma NewerRunsChangeNoAnswer(rows: Table, grown: Table, user: nat, f: Filter, limit: int, cursor: Run)
    requires IsRunOf(rows, cursor) && rows[cursor.runId].user == user && GrownAbove(rows, grown, cursor)
    ensures Answer(grown, user, f, limit, Some(cursor.runId)) == Answer(rows, user, f, limit, Some(cursor.runId))
    ensures Answer(rows, user, f, limit, Some(cursor.runId))
            == PageOf(Sorted(Matching(rows, user, f, Some(cursor))), Clamped(limit))
  {
    assert CursorRun(rows, user, Some(cursor.runId)) == Some(cursor) == CursorRun(grown, user, Some(cursor.runId));
    forall r
      ensures Matches(grown, user, f, Some(cursor), r) == Matches(rows, user, f, Some(cursor), r)
    {
    }
    assert Matching(grown, user, f, Some(cursor)) == Matching(rows, user, f, Some(cursor));
  }

  /** The run a page's next cursor names comes after the page's own cursor. */
  lemma NextCursorIsBelow(rows: Table, user: nat, f: Filter, limit: int, cursor: Run)
    ensures var page := PageOf(Sorted(Matching(rows, user, f, Some(cursor))), Clamped(limit));
            page.nextCursor.Some? ==>
              && page.nextCursor.value in rows && rows[page.nextCursor.value].user == user
              && Above(cursor, Run(rows[page.nextCursor.value].createdAt, page.nextCursor.value))
  {
    var below := Matching(rows, user, f, Some(cursor));
    SortedLists(below);
    if |below| > Clamped(limit) {
      var next := Sorted(below)[Clamped(limit) - 1];
      assert next in Sorted(below);
      assert Matches(rows, user, f, Some(cursor), next);
    }
  }

  /** Two servers that agree on a set of cursors closed under `next_cursor` are followed alike from there. */
  lemma {:induction false} FollowedAlike(one: Server, other: Server, cursors: set<int>, from: int, fuel: nat)
    requires forall id :: id in cursors ==> one(Some(id)) == other(Some(id))
    requires forall id :: id in cursors && one(Some(id)).nextCursor.Some? ==> one(Some(id)).nextCursor.value in cursors
    requires from in cursors
    ensures Follow(one, Some(from), fuel) == Follow(other, Some(from), fuel)
    decreases fuel
  {
    if fuel > 0 {
      var page := one(Some(from));
      assert page == other(Some(from));
      if page.nextCursor.Some? {
        FollowedAlike(one, other, cursors, page.nextCursor.value, fuel - 1);
      }
    }
  }

  /** Runs that arrive above a cursor change no page from that cursor on. */
  lemma NewerRunsChangeNoLaterPage(rows: Table, grown: Table, user: nat, f: Filter, limit: int, cursor: Run, fuel: nat)
    requires IsRunOf(rows, cursor) && rows[cursor.runId].user == user && GrownAbove(rows, grown, cursor)
    ensures Follow(ServerOf(grown, user, f, limit), Some(cursor.runId), fuel)
         == Follow(ServerOf(rows, user, f, limit), Some(cursor.runId), fuel)
  {
    var one, other := ServerOf(rows, user, f, limit), ServerOf(grown, user, f, limit);
    var cursors := set id | id in rows && rows[id].user == user && !Above(Run(rows[id].createdAt, id), cursor);
    forall id | id in cursors
      ensures one(Some(id)) == other(Some(id))
      ensures one(Some(id)).nextCursor.Some? ==> one(Some(id)).nextCursor.value in cursors
    {
      var run := Run(rows[id].createdAt, id);
      NewerRunsChangeNoAnswer(rows, grown, user, f, limit, run);
      NextCursorIsBelow(rows, user, f, limit, run);
    }
    FollowedAlike(one, other, cursors, cursor.runId, fuel);
  }

  // A session over a growing table --------------------------------------------------------------------------------

  /** `Follow` where each request is answered from the table as it then is. */
  ghost function FollowEach(tables: seq<Table>, user: nat, f: Filter, limit: int, cursor: Option<int>): seq<Page> {
    if tables == [] then []
    else
      var page := Answer(tables[0], user, f, limit, cursor);
      [page] + if page.nextCursor.None? then [] else FollowEach(tables[1..], user, f, limit, page.nextCursor)
  }

  /** Between a page and the request for the next, runs are added only above the cursor that page handed out. */
  ghost predicate GrowsAboveCursor(tables: seq<Table>, user: nat, f: Filter, limit: int, cursor: Option<int>) {
    |tables| > 1 ==>
      var next := Answer(tables[0], user, f, limit, cursor).nextCursor;
      next.Some? && next.value in tables[0] ==>
        && GrownAbove(tables[0], tables[1], Run(tables[0][next.value].createdAt, next.value))
        && GrowsAboveCursor(tables[1..], user, f, limit, next)
  }

  /** A page's next cursor names a run of the user's. */
  lemma NextCursorIsOwn(rows: Table, user: nat, f: Filter, limit: int, cursor: Option<int>)
    ensures var next := Answer(rows, user, f, limit, cursor).nextCursor;
            next.Some? ==> next.value in rows && rows[next.value].user == user
  {
    var matching := Matching(rows, user, f, CursorRun(rows, user, cursor));
    SortedLists(matching);
    if |matching| > Clamped(limit) {
      var next := Sorted(matching)[Clamped(limit) - 1];
      assert next in Sorted(matching);
      assert Matches(rows, user, f, CursorRun(rows, user, cursor), next);
    }
  }

  lemma NextPagesAgree(rows: Table, grown: Table, user: nat, f: Filter, limit: int, cursor: Option<int>,
                       next: int, fuel: nat)
    requires Answer(rows, user, f, limit, cursor).nextCursor == Some(next)
    requires next in rows ==> GrownAbove(rows, grown, Run(rows[next].createdAt, next))
    ensures Follow(ServerOf(grown, user, f, limit), Some(next), fuel)
            == Follow(ServerOf(rows, user, f, limit), Some(next), fuel)
  {
    NextCursorIsOwn(rows, user, f, limit, cursor);
    NewerRunsChangeNoLaterPage(rows, grown, user, f, limit, Run(rows[next].createdAt, next), fuel);
  }

  lemma FollowsOn(rows: Table, user: nat, f: Filter, limit: int, cursor: Option<int>, fuel: nat)
    requires fuel > 0
    ensures var page := Answer(rows, user, f, limit, cursor);
            Follow(ServerOf(rows, user, f, limit), cursor, fuel)
              == [page] + if page.nextCursor.None? then []
                else Follow(ServerOf(rows, user, f, limit), page.nextCursor, fuel - 1)
  {
    assert ServerOf(rows, user, f, limit)(cursor) == Answer(rows, user, f, limit, cursor);
  }

  /** A session sees the table as it was at its first request. */
  lemma {:induction false} SessionSeesFirstTable(tables: seq<Table>, user: nat, f: Filter, limit: int,
                                                 cursor: Option<int>)
    requires tables != [] && GrowsAboveCursor(tables, user, f, limit, cursor)
    ensures FollowEach(tables, user, f, limit, cursor) == Follow(ServerOf(tables[0], user, f, limit), cursor, |tables|)
    decreases |tables|
  {
    var next := Answer(tables[0], user, f, limit, cursor).nextCursor;
    FollowsOn(tables[0], user, f, limit, cursor, |tables|);
    if |tables| > 1 && next.Some? {
      NextCursorIsOwn(tables[0], user, f, limit, cursor);
      SessionSeesFirstTable(tables[1..], user, f, limit, next);
      NextPagesAgree(tables[0], tables[1], user, f, limit, cursor, next.value, |tables| - 1);
    } else if next.Some? {
      assert tables[1..] == [];
    }
  }

  /**
    However many runs arrive above the cursor between two requests, a session from the start lists each run that
    matched at its first request exactly once, newest first, and stops by itself after as many requests as the first
    table needs.
   */
  lemma SessionListsEverythingOnce(tables: seq<Table>, user: nat, f: Filter, limit: int)
    requires tables != [] && GrowsAboveCursor(tables, user, f, limit, None)
    requires |tables| >= PagesFor(|Matching(tables[0], user, f, None)|, Clamped(limit))
    ensures var pages, all := FollowEach(tables, user, f, limit, None), Matching(tables[0], user, f, None);
            ListOnce(pages, all) && |pages| == PagesFor(|all|, Clamped(limit))
  {
    SessionSeesFirstTable(tables, user, f, limit, None);
    FollowingListsEverythingOnce(tables[0], user, f, limit, |tables|);
  }
}
