/**
 * The batch loop of the scheduled cleanup: candidates are read in (time, id) order, one bounded page
 * after another, each page starting after the last row visited. Rows that fail stay in the table and
 * other requests may delete rows meanwhile; the cursor alone must keep the walk from looping or skipping.
 */
module CleanupBatches {
  import opened Bytes

  datatype Row = Row(at: int, id: nat)

  predicate Less(a: Row, b: Row) {
    a.at < b.at || (a.at == b.at && a.id < b.id)
  }

  predicate After(row: Row, cursor: Option<Row>) {
    cursor.None? || Less(cursor.value, row)
  }

  /** The cursor after a page: its last row, or the cursor before it when it is empty. */
  function LastOr(page: seq<Row>, cursor: Option<Row>): Option<Row> {
    if page == [] then cursor else Some(page[|page| - 1])
  }

  /** A table as its index presents it: strictly ascending. */
  ghost predicate Ascending(table: seq<Row>) {
    forall i, j :: 0 <= i < j < |table| ==> Less(table[i], table[j])
  }

  /** `WHERE (at, id) > cursor ORDER BY at, id`. */
  function Above(table: seq<Row>, cursor: Option<Row>): seq<Row> {
    if |table| == 0 || After(table[0], cursor) then table else Above(table[1..], cursor)
  }

  lemma {:induction false} AboveIsSuffix(table: seq<Row>, cursor: Option<Row>)
    ensures |Above(table, cursor)| <= |table|
    ensures Above(table, cursor) == table[|table| - |Above(table, cursor)|..]
  {
    if |table| > 0 && !After(table[0], cursor) {
      AboveIsSuffix(table[1..], cursor);
    }
  }

  function Without(table: seq<Row>, gone: set<Row>): (left: seq<Row>)
    ensures forall r :: r in left <==> r in table && r !in gone
  {
    if |table| == 0 then []
    else if table[0] in gone then Without(table[1..], gone)
    else [table[0]] + Without(table[1..], gone)
  }

  lemma {:induction false} WithoutAscends(table: seq<Row>, gone: set<Row>)
    requires Ascending(table)
    ensures Ascending(Without(table, gone))
  {
    if |table| > 0 {
      WithoutAscends(table[1..], gone);
      var left := Without(table[1..], gone);
      forall r | r in left
        ensures Less(table[0], r)
      {
        var i :| 0 <= i < |table[1..]| && table[1..][i] == r;
        assert table[i + 1] == r;
      }
    }
  }

  /** The page query returns exactly the rows beyond the cursor. */
  lemma {:induction false} AboveMembers(table: seq<Row>, cursor: Option<Row>, r: Row)
    requires Ascending(table)
    ensures r in Above(table, cursor) <==> r in table && After(r, cursor)
  {
    if |table| > 0 {
      if After(table[0], cursor) {
        if r in table {
          var i :| 0 <= i < |table| && table[i] == r;
          assert i > 0 ==> Less(table[0], table[i]);
        }
      } else {
        AboveMembers(table[1..], cursor, r);
        assert r in table <==> r == table[0] || r in table[1..];
      }
    }
  }

  /** Moving the cursor to a row of the page leaves the rows behind it. */
  lemma {:induction false} AboveAdvances(table: seq<Row>, cursor: Option<Row>, k: nat)
    requires Ascending(table) && k < |Above(table, cursor)|
    ensures Above(table, Some(Above(table, cursor)[k])) == Above(table, cursor)[k + 1..]
  {
    AboveIsSuffix(table, cursor);
    var rest := Above(table, cursor);
    var start := |table| - |rest|;
    AboveFrom(table, start + k);
    assert rest[k] == table[start + k];
    assert table[start + k + 1..] == rest[k + 1..];
  }

  lemma CursorMoves(table: seq<Row>, cursor: Option<Row>, rest: seq<Row>, j: nat)
    requires Ascending(table) && j < |rest| && Above(table, cursor) == rest[j..]
    ensures Above(table, Some(rest[j])) == rest[j + 1..]
  {
    AboveAdvances(table, cursor, 0);
    assert rest[j..][0] == rest[j] && rest[j..][1..] == rest[j + 1..];
  }

  lemma {:induction false} AboveFrom(table: seq<Row>, i: nat)
    requires Ascending(table) && i < |table|
    ensures Above(table, Some(table[i])) == table[i + 1..]
    decreases i
  {
    var cursor := Some(table[i]);
    assert !After(table[0], cursor);
    assert Above(table, cursor) == Above(table[1..], cursor);
    if i == 0 {
      assert |table| > 1 ==> After(table[1..][0], cursor);
    } else {
      AboveFrom(table[1..], i - 1);
      assert table[1..][i..] == table[i + 1..];
    }
  }

  /** Deleting rows at or before the cursor does not disturb the rows beyond it. */
  lemma {:induction false} AboveIgnoresVisited(table: seq<Row>, cursor: Option<Row>, row: Row)
    requires Ascending(table) && !After(row, cursor)
    ensures Above(Without(table, {row}), cursor) == Above(table, cursor)
  {
    if |table| > 0 {
      if After(table[0], cursor) {
        forall i | 0 <= i < |table|
          ensures table[i] != row
        {
          assert i > 0 ==> Less(table[0], table[i]);
        }
        WithoutAbsent(table, row);
      } else {
        AboveIgnoresVisited(table[1..], cursor, row);
        if table[0] != row {
          assert Without(table, {row})[1..] == Without(table[1..], {row});
        }
      }
    }
  }

  lemma {:induction false} WithoutAbsent(table: seq<Row>, row: Row)
    requires row !in table
    ensures Without(table, {row}) == table
  {
    if |table| > 0 {
      WithoutAbsent(table[1..], row);
    }
  }

  lemma {:induction false} WithoutNone(table: seq<Row>)
    ensures Without(table, {}) == table
  {
    if |table| > 0 {
      WithoutNone(table[1..]);
    }
  }

  // ---- The loop ----

  datatype Fetch = Fine | FetchWorkLimit | FetchFails

  /** What handling a row does: it may throw before or after the row is gone. */
  datatype Handling = Deletes | Throws(deleted: bool) | HitsWorkLimit

  /** What the run meets: rows other requests delete before each page, and how each call goes. */
  datatype World = World(deletedByOthers: nat -> set<Row>, fetch: nat -> Fetch, handle: Row -> Handling) {
    ghost predicate Quiet() {
      && (forall b :: deletedByOthers(b) == {})
      && (forall b :: fetch(b).Fine?)
      && (forall r :: !handle(r).HitsWorkLimit?)
    }
  }

  /** Handling the row removes it, whether or not it throws afterwards. */
  predicate Removes(world: World, row: Row) {
    world.handle(row).Deletes? || (world.handle(row).Throws? && world.handle(row).deleted)
  }

  /** Among the first `n` rows, those whose handling succeeds. */
  function Handled(world: World, rows: seq<Row>, n: nat): nat
    requires n <= |rows|
  {
    if n == 0 then 0 else Handled(world, rows, n - 1) + if world.handle(rows[n - 1]).Deletes? then 1 else 0
  }

  /** Among the first `n` rows, those whose handling throws. */
  function Threw(world: World, rows: seq<Row>, n: nat): nat
    requires n <= |rows|
  {
    if n == 0 then 0 else Threw(world, rows, n - 1) + if world.handle(rows[n - 1]).Throws? then 1 else 0
  }

  function Members(rows: seq<Row>): set<Row> {
    set r | r in rows
  }

  /** The visited rows that their handling removes; a dry run removes none. */
  function RemovedBy(world: World, dryRun: bool, visited: seq<Row>): set<Row> {
    if dryRun then {} else set r | r in visited && Removes(world, r)
  }

  lemma RemovedBySnoc(world: World, visited: seq<Row>, row: Row)
    ensures RemovedBy(world, false, visited + [row])
            == RemovedBy(world, false, visited) + if Removes(world, row) then {row} else {}
  {
  }

  lemma {:induction false} SameCounts(world: World, a: seq<Row>, b: seq<Row>, n: nat)
    requires n <= |a| && n <= |b| && forall k :: 0 <= k < n ==> a[k] == b[k]
    ensures Handled(world, a, n) == Handled(world, b, n) && Threw(world, a, n) == Threw(world, b, n)
  {
    if n > 0 {
      SameCounts(world, a, b, n - 1);
    }
  }

  lemma MinusMore<T>(a: set<T>, b: set<T>, c: set<T>)
    ensures a - b - c == a - (b + c)
  {
  }

  lemma {:induction false} CountsAppend(world: World, a: seq<Row>, b: seq<Row>, k: nat)
    requires k <= |b|
    ensures Handled(world, a + b, |a| + k) == Handled(world, a, |a|) + Handled(world, b, k)
    ensures Threw(world, a + b, |a| + k) == Threw(world, a, |a|) + Threw(world, b, k)
  {
    if k == 0 {
      SameCounts(world, a + b, a, |a|);
    } else {
      CountsAppend(world, a, b, k - 1);
    }
  }

  datatype Options = Options(queryLimit: int, maxBatches: int, dryRun: bool) {
    predicate Valid() {
      1 <= queryLimit <= 100 && 1 <= maxBatches <= 10
    }
  }

  datatype CleanupResult =
    | InvalidLimits
    | FetchThrew
    | Finished(processed: nat, failed: nat, candidates: nat, reachedBatchLimit: bool, workLimitReached: bool)

  class Cleaner {
    var table: seq<Row>

    constructor (table: seq<Row>)
      ensures this.table == table
    {
      this.table := table;
    }

    /** A handled row leaves the table; the rows beyond it are as before. */
    method DeleteVisited(row: Row)
      requires Ascending(table)
      modifies this
      ensures Ascending(table) && Members(table) == Members(old(table)) - {row}
      ensures Above(table, Some(row)) == Above(old(table), Some(row))
    {
      AboveIgnoresVisited(table, Some(row), row);
      WithoutAscends(table, {row});
      table := Without(table, {row});
    }

    /** One row of a page: handled, thrown over, or refused by the work limit. */
    method VisitRow(world: World, row: Row) returns (processed: nat, failed: nat, stop: bool)
      requires Ascending(table)
      modifies this
      ensures Ascending(table) && Members(table) == Members(old(table)) - if Removes(world, row) then {row} else {}
      ensures Above(table, Some(row)) == Above(old(table), Some(row))
      ensures processed == if world.handle(row).Deletes? then 1 else 0
      ensures failed == if world.handle(row).Throws? then 1 else 0
      ensures stop <==> world.handle(row).HitsWorkLimit?
    {
      processed, failed, stop := 0, 0, false;
      var outcome := world.handle(row);
      if outcome.HitsWorkLimit? {
        stop := true;
        return;
      }
      if outcome.Deletes? || outcome.deleted {
        DeleteVisited(row);
      }
      if outcome.Deletes? {
        processed := 1;
      } else {
        failed := 1;
      }
    }

    /** One page of the loop; `stop` when the work limit is hit. */
    method VisitPage(world: World, dryRun: bool, fetched: seq<Row>, ghost rest: seq<Row>, ghost cursor: Option<Row>)
      returns (visited: seq<Row>, processed: nat, failed: nat, candidates: nat, stop: bool)
      requires Ascending(table) && rest == Above(table, cursor) && fetched <= rest && |fetched| > 0
      modifies this
      ensures Ascending(table)
      ensures visited <= fetched && |visited| > 0 && (!stop ==> visited == fetched)
      ensures Above(table, Some(visited[|visited| - 1])) == rest[|visited|..]
      ensures stop ==> exists r :: world.handle(r).HitsWorkLimit?
      ensures dryRun ==> processed == failed == 0 && candidates == |visited| && !stop && table == old(table)
      ensures !dryRun ==> candidates == 0
      ensures !dryRun ==> processed == Handled(world, fetched, |visited|) && failed == Threw(world, fetched, |visited|)
      ensures !dryRun ==> processed + failed == |visited| - (if stop then 1 else 0)
      ensures Members(table) == Members(old(table)) - RemovedBy(world, dryRun, visited)
    {
      visited, processed, failed, candidates, stop := [], 0, 0, 0, false;
      var j := 0;
      while j < |fetched|
        invariant 0 <= j <= |fetched| && visited == fetched[..j]
        invariant Ascending(table)
        invariant Above(table, if j == 0 then cursor else Some(fetched[j - 1])) == rest[j..]
        invariant dryRun ==> processed == failed == 0 && candidates == j && table == old(table)
        invariant !dryRun ==> candidates == 0 && processed + failed == j
        invariant !dryRun ==> processed == Handled(world, fetched, j) && failed == Threw(world, fetched, j)
        invariant Members(table) == Members(old(table)) - RemovedBy(world, dryRun, visited)
      {
        var row := fetched[j];
        assert fetched[..j + 1] == fetched[..j] + [row];
        RemovedBySnoc(world, visited, row);
        MinusMore(Members(old(table)), RemovedBy(world, false, visited), {row});
        CursorMoves(table, if j == 0 then cursor else Some(fetched[j - 1]), rest, j);
        visited := visited + [row];
        j := j + 1;
        if dryRun {
          candidates := candidates + 1;
        } else {
          var p, f;
          p, f, stop := VisitRow(world, row);
          processed, failed := processed + p, failed + f;
          if stop {
            return;
          }
        }
      }
    }

    /** Visits the page that a query returned, and what that means for the walk so far. */
    method WalkPage(world: World, options: Options, cursor: Option<Row>, ghost visited: seq<Row>, ghost all: seq<Row>)
      returns (page: seq<Row>, processed: nat, failed: nat, candidates: nat, stop: bool)
      requires options.Valid() && WalkedTo(table, cursor, visited, all) && |Above(table, cursor)| > 0
      modifies this
      ensures 0 < |page| <= options.queryLimit
      ensures WalkedTo(table, Some(page[|page| - 1]), visited + page, all)
      ensures |page| < options.queryLimit && !stop ==> forall row :: row in table ==> row in visited + page
      ensures !stop ==> processed + failed + candidates == |page|
      ensures Counted(world, options, page, processed, failed, candidates)
      ensures options.dryRun ==> table == old(table)
      ensures Members(table) == Members(old(table)) - RemovedBy(world, options.dryRun, page)
      ensures stop ==> exists r :: world.handle(r).HitsWorkLimit?
      ensures !stop && AtFront(old(table), cursor, visited, all) ==>
                && |page| == Min(options.queryLimit, |all| - |visited|)
                && AtFront(table, Some(page[|page| - 1]), visited + page, all)
    {
      ghost var before := table;
      var rest := Above(table, cursor);
      var fetched := rest[..Min(options.queryLimit, |rest|)];
      page, processed, failed, candidates, stop := VisitPage(world, options.dryRun, fetched, rest, cursor);
      assert forall r :: r in table ==> r in Members(table);
      SameCounts(world, page, fetched, |page|);
      PageExtends(before, table, cursor, visited, page, all);
      if AtFront(before, cursor, visited, all) {
        FrontMoves(before, table, cursor, visited, page, all);
      }
    }

    /** Reads and visits the next page; `page` is empty when there was none to read. */
    method NextPage(world: World, options: Options, batch: nat, cursor: Option<Row>, ghost visited: seq<Row>,
                    ghost all: seq<Row>)
      returns (page: seq<Row>, processed: nat, failed: nat, candidates: nat, stop: bool)
      requires options.Valid() && WalkedTo(table, cursor, visited, all)
      modifies this
      ensures |page| <= options.queryLimit
      ensures WalkedTo(table, LastOr(page, cursor), visited + page, all)
      ensures |page| < options.queryLimit && !stop && world.fetch(batch).Fine? ==>
                forall row :: row in table ==> row in visited + page
      ensures Counted(world, options, page, processed, failed, candidates)
      ensures !stop ==> processed + failed + candidates == |page|
      ensures Members(table)
              == Members(old(table)) - world.deletedByOthers(batch) - RemovedBy(world, options.dryRun, page)
      ensures world.fetch(batch).Fine? || page == []
      ensures page == [] ==> !stop
      ensures options.dryRun && world.Quiet() ==> table == old(table)
      ensures world.Quiet() && AtFront(old(table), cursor, visited, all) ==>
                && !stop && |page| == Min(options.queryLimit, |all| - |visited|)
                && AtFront(table, LastOr(page, cursor), visited + page, all)
    {
      page, processed, failed, candidates, stop := [], 0, 0, 0, false;
      OthersDelete(world.deletedByOthers(batch));
      assert visited + page == visited;
      if !world.fetch(batch).Fine? {
        return;
      }
      if |Above(table, cursor)| == 0 {
        NothingBeyond(table, cursor);
        return;
      }
      page, processed, failed, candidates, stop := WalkPage(world, options, cursor, visited, all);
    }

    /**
     * The whole run. Rows are visited in ascending order, so none twice; never more than pages times
     * page size; and unless the limit is reported reached, no candidate is left in the table that was
     * not visited, however many rows failed.
     */
    method RunCleanupBatches(options: Options, world: World) returns (r: CleanupResult, visited: seq<Row>)
      requires Ascending(table)
      modifies this
      ensures r.InvalidLimits? <==> !options.Valid()
      ensures r.InvalidLimits? ==> visited == [] && table == old(table)
      ensures Ascending(visited) && Members(visited) <= Members(old(table))
      ensures options.Valid() ==> WithinLimit(options, |visited|)
      ensures r.Finished? && !r.reachedBatchLimit ==> Members(table) <= Members(visited)
      ensures r.Finished? && !r.workLimitReached ==> r.processed + r.failed + r.candidates == |visited|
      ensures r.Finished? ==> Counted(world, options, visited, r.processed, r.failed, r.candidates)
      ensures options.Valid() && world.Quiet() ==>
                r.Finished? && !r.workLimitReached && VisitsFront(options, old(table), visited, r.reachedBatchLimit)
      ensures options.dryRun && world.Quiet() ==> table == old(table)
    {
      visited := [];
      if !options.Valid() {
        return InvalidLimits, [];
      }
      var processed, failed, candidates := 0, 0, 0;
      var reachedBatchLimit, workLimitReached := false, false;
      var cursor: Option<Row> := None;
      ghost var all := table;
      assert AtFront(table, cursor, [], all);
      NothingVisited(options);
      var batch := 0;
      while batch < options.maxBatches
        invariant 0 <= batch <= options.maxBatches
        invariant WalkedTo(table, cursor, visited, all)
        invariant WithinPages(options, |visited|, batch)
        invariant processed + failed + candidates == |visited|
        invariant Counted(world, options, visited, processed, failed, candidates)
        invariant reachedBatchLimit <==> batch == options.maxBatches
        invariant !workLimitReached
        invariant world.Quiet() ==> FullPages(options, |visited|, batch) && AtFront(table, cursor, visited, all)
        invariant world.Quiet() && reachedBatchLimit ==> VisitsFront(options, all, visited, true)
        invariant world.Quiet() && options.dryRun ==> table == all
      {
        var page, p, f, c, stop := NextPage(world, options, batch, cursor, visited, all);
        PageFits(options, |visited|, batch, |page|);
        assert world.fetch(batch).FetchFails? ==> visited + page == visited;
        if world.fetch(batch).FetchFails? {
          return FetchThrew, visited;
        }
        CountedTogether(world, options, visited, page, processed, failed, candidates, p, f, c);
        if world.Quiet() {
          QuietPage(options, all, visited, page, batch);
        }
        visited := visited + page;
        processed, failed, candidates := processed + p, failed + f, candidates + c;
        if world.fetch(batch).FetchWorkLimit? {
          reachedBatchLimit, workLimitReached := true, true;
          break;
        }
        cursor := LastOr(page, cursor);
        if stop {
          reachedBatchLimit, workLimitReached := true, true;
          break;
        }
        if |page| < options.queryLimit {  // perhaps none at all
          break;
        }
        if batch == options.maxBatches - 1 {
          reachedBatchLimit := true;
        }
        batch := batch + 1;
      }
      r := Finished(processed, failed, candidates, reachedBatchLimit, workLimitReached);
    }

    method OthersDelete(gone: set<Row>)
      requires Ascending(table)
      modifies this
      ensures table == Without(old(table), gone) && Ascending(table)
      ensures Members(table) == Members(old(table)) - gone
      ensures gone == {} ==> table == old(table)
    {
      WithoutAscends(table, gone);
      if gone == {} {
        WithoutNone(table);
      }
      table := Without(table, gone);
    }
  }

  /** Never more than page size times number of pages. */
  predicate WithinLimit(options: Options, n: nat) {
    n <= options.queryLimit * options.maxBatches
  }

  /** Exactly the front of the table is visited, up to the limit, which is reported exactly when the table fills it. */
  predicate VisitsFront(options: Options, all: seq<Row>, visited: seq<Row>, reached: bool)
    requires options.Valid()
  {
    var n, limit := |all|, options.queryLimit * options.maxBatches;
    limit >= 0 && visited == all[..Min(n, limit)] && (reached <==> n >= limit)
  }

  predicate FullPages(options: Options, n: nat, batches: nat)
    requires options.Valid()
  {
    n == Times(options.queryLimit, batches)
  }

  /** What the batches so far may have visited, and what one more page may add, stay within the limit. */
  predicate WithinPages(options: Options, n: nat, batches: nat)
    requires options.Valid()
  {
    n <= Times(options.queryLimit, batches) && WithinLimit(options, n)
  }

  lemma NothingVisited(options: Options)
    requires options.Valid()
    ensures WithinPages(options, 0, 0) && FullPages(options, 0, 0)
  {
    TimesIs(options.queryLimit, options.maxBatches);
  }

  lemma PageFits(options: Options, n: nat, batch: nat, page: nat)
    requires options.Valid() && batch < options.maxBatches && page <= options.queryLimit
    requires WithinPages(options, n, batch)
    ensures WithinPages(options, n + page, batch + 1)
  {
    PagesFit(options.queryLimit, batch, options.maxBatches);
    TimesIs(options.queryLimit, options.maxBatches);
  }

  /** One page of an undisturbed run: a full one goes on, or fills the limit; a shorter one was the last. */
  lemma QuietPage(options: Options, all: seq<Row>, visited: seq<Row>, page: seq<Row>, batch: nat)
    requires options.Valid() && batch < options.maxBatches && FullPages(options, |visited|, batch)
    requires visited + page <= all && |page| == Min(options.queryLimit, |all| - |visited|)
    ensures |page| == options.queryLimit ==> FullPages(options, |visited + page|, batch + 1)
    ensures |page| == options.queryLimit && batch == options.maxBatches - 1 ==>
              VisitsFront(options, all, visited + page, true)
    ensures |page| < options.queryLimit ==> VisitsFront(options, all, visited + page, false)
  {
    PagesFit(options.queryLimit, batch, options.maxBatches);
    TimesIs(options.queryLimit, options.maxBatches);
  }

  /** A dry run counts candidates only; any other counts the rows handled and those that threw. */
  predicate Counted(world: World, options: Options, rows: seq<Row>, processed: nat, failed: nat, candidates: nat) {
    if options.dryRun then processed == failed == 0 && candidates == |rows|
    else processed == Handled(world, rows, |rows|) && failed == Threw(world, rows, |rows|) && candidates == 0
  }

  lemma CountedTogether(world: World, options: Options, a: seq<Row>, b: seq<Row>, processed: nat, failed: nat,
                        candidates: nat, p: nat, f: nat, c: nat)
    requires Counted(world, options, a, processed, failed, candidates) && Counted(world, options, b, p, f, c)
    ensures Counted(world, options, a + b, processed + p, failed + f, candidates + c)
  {
    CountsAppend(world, a, b, |b|);
  }

  /** `q * k`, by repeated addition. */
  function Times(q: nat, k: nat): nat {
    if k == 0 then 0 else Times(q, k - 1) + q
  }

  lemma {:induction false} TimesIs(q: nat, k: nat)
    ensures Times(q, k) == q * k
  {
    if k > 0 {
      TimesIs(q, k - 1);
      assert q * k == q * (k - 1) + q;
    }
  }

  lemma {:induction false} PagesFit(q: nat, batch: nat, maxBatches: nat)
    requires batch < maxBatches
    ensures Times(q, batch) + q == Times(q, batch + 1) <= Times(q, maxBatches)
    decreases maxBatches - batch
  {
    if batch + 1 < maxBatches {
      PagesFit(q, batch + 1, maxBatches);
    }
  }

  /** With nobody interfering, the visited rows are the front of the original table and the page query sees the rest. */
  ghost predicate AtFront(table: seq<Row>, cursor: Option<Row>, visited: seq<Row>, all: seq<Row>) {
    visited <= all && Above(table, cursor) == all[|visited|..]
  }

  /** The cursor is the last row visited, and every row left at or before it has been visited. */
  ghost predicate WalkedTo(table: seq<Row>, cursor: Option<Row>, visited: seq<Row>, all: seq<Row>) {
    && Ascending(table) && (forall row :: row in table ==> row in all)
    && Ascending(visited) && (forall row :: row in visited ==> row in all)
    && (if visited == [] then cursor == None else cursor == Some(visited[|visited| - 1]))
    && (forall row :: row in table && !After(row, cursor) ==> row in visited)
  }

  lemma FrontMoves(before: seq<Row>, after: seq<Row>, cursor: Option<Row>, visited: seq<Row>, page: seq<Row>,
                   all: seq<Row>)
    requires AtFront(before, cursor, visited, all) && page <= Above(before, cursor) && |page| > 0
    requires Above(after, Some(page[|page| - 1])) == Above(before, cursor)[|page|..]
    ensures AtFront(after, Some(page[|page| - 1]), visited + page, all)
  {
    assert all == visited + all[|visited|..];
    assert all[|visited|..][|page|..] == all[|visited + page|..];
  }

  lemma NothingBeyond(table: seq<Row>, cursor: Option<Row>)
    requires Ascending(table)
    requires |Above(table, cursor)| == 0
    ensures forall r :: r in table ==> !After(r, cursor)
  {
    forall r | r in table
      ensures !After(r, cursor)
    {
      AboveMembers(table, cursor, r);
    }
  }

  lemma PageAscends(visited: seq<Row>, cursor: Option<Row>, page: seq<Row>)
    requires Ascending(visited) && Ascending(page) && (forall r :: r in page ==> After(r, cursor))
    requires if visited == [] then cursor == None else cursor == Some(visited[|visited| - 1])
    ensures Ascending(visited + page)
  {
    forall i, j | 0 <= i < j < |visited + page|
      ensures Less((visited + page)[i], (visited + page)[j])
    {
      if i < |visited| <= j {
        assert page[j - |visited|] in page;
        assert i < |visited| - 1 ==> Less(visited[i], visited[|visited| - 1]);
      }
    }
  }

  /** Visiting a page moves the walk to the page's last row; a page that was all there was leaves nothing unvisited. */
  lemma PageExtends(before: seq<Row>, after: seq<Row>, cursor: Option<Row>, visited: seq<Row>, page: seq<Row>,
                    all: seq<Row>)
    requires WalkedTo(before, cursor, visited, all) && Ascending(after) && (forall r :: r in after ==> r in before)
    requires page <= Above(before, cursor) && |page| > 0
    requires Above(after, Some(page[|page| - 1])) == Above(before, cursor)[|page|..]
    ensures WalkedTo(after, Some(page[|page| - 1]), visited + page, all)
    ensures page == Above(before, cursor) ==> forall r :: r in after ==> r in visited + page
  {
    forall r | r in page
      ensures r in before && After(r, cursor)
    {
      PageRow(before, cursor, page, r);
    }
    AboveAscends(before, cursor, page);
    PageAscends(visited, cursor, page);
    forall r | r in after && (!After(r, Some(page[|page| - 1])) || page == Above(before, cursor))
      ensures r in visited + page
    {
      PageCovers(before, after, cursor, visited, page, r);
    }
  }

  lemma PageRow(table: seq<Row>, cursor: Option<Row>, page: seq<Row>, r: Row)
    requires Ascending(table) && page <= Above(table, cursor) && r in page
    ensures r in table && After(r, cursor)
  {
    var i :| 0 <= i < |page| && page[i] == r;
    assert Above(table, cursor)[i] == r;
    AboveMembers(table, cursor, r);
  }

  lemma AboveAscends(table: seq<Row>, cursor: Option<Row>, page: seq<Row>)
    requires Ascending(table) && page <= Above(table, cursor)
    ensures Ascending(page)
  {
    AboveIsSuffix(table, cursor);
  }

  lemma PageCovers(before: seq<Row>, after: seq<Row>, cursor: Option<Row>, visited: seq<Row>, page: seq<Row>, r: Row)
    requires Ascending(before) && Ascending(after) && r in after && r in before
    requires !After(r, cursor) ==> r in visited
    requires page <= Above(before, cursor) && |page| > 0
    requires Above(after, Some(page[|page| - 1])) == Above(before, cursor)[|page|..]
    requires !After(r, Some(page[|page| - 1])) || page == Above(before, cursor)
    ensures r in visited + page
  {
    var rest := Above(before, cursor);
    AboveMembers(before, cursor, r);
    AboveMembers(after, Some(page[|page| - 1]), r);
    assert rest == page + rest[|page|..];
  }
}
