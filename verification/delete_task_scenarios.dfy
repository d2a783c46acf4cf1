/**
 * Two concrete runs of the task, worked out through the model: a run over two
 * databases whose updates all succeed, and a run over one database whose
 * second update fails.
 */
module DeleteTaskScenarios {
  import opened Common
  import NotionDatabases
  import opened DeleteTask
  import opened DeleteTaskSummary
  import opened DeleteTaskProperties

  /** A single last page holding the given items. */
  function LastPage(items: seq<PageItem>): (answers: seq<QueryAnswer>)
    ensures Ends(answers) && StopIndex(answers) == 0
  {
    [Answered(QueryResponse(items, false, None))]
  }

  /** A database served one last page processes exactly that page's items, and its query does not fail. */
  lemma LastPageFacts(name: string, items: seq<PageItem>)
    ensures Items(LastPage(items)) == items
    ensures AbortMessages(name, LastPage(items)) == []
  {
  }

  /** A one-database run is that database's traversal. */
  lemma SingleDatabase(s: State, db: DatabaseRef, answers: seq<QueryAnswer>, dryRun: bool, archiveInstead: bool)
    requires Ends(answers)
    ensures Covers([answers], 1)
    ensures TraverseAll(s, [db], [answers], dryRun, archiveInstead) == Traverse(s, db, answers, dryRun, archiveInstead)
  {
    assert Covers([answers], 1);
    TraverseAllUnfold(s, [db], [answers], dryRun, archiveInstead);
    assert [db][1..] == [];
  }

  /** The counts and messages of two items. */
  lemma PairCounts(name: string, x: PageItem, y: PageItem)
    ensures ArchivedCount([x, y]) == ArchivedCount([x]) + ArchivedCount([y])
    ensures FailedCount([x, y]) == FailedCount([x]) + FailedCount([y])
    ensures FailureMessages(name, [x, y]) == FailureMessages(name, [x]) + FailureMessages(name, [y])
  {
    assert [x, y] == [x] + [y];
    CountsAppend(name, [x], [y]);
  }

  /** What one traversal of a single last page leaves in a state that has no entry yet. */
  lemma LastPageTraversal(s: State, db: DatabaseRef, items: seq<PageItem>, dryRun: bool, archiveInstead: bool)
    ensures var t := Traverse(s, db, LastPage(items), dryRun, archiveInstead).result;
      && t.databaseResults == s.result.databaseResults[db.name :=
           DatabaseResult(db.name, |items|, Succeeded(items, dryRun), Failed(items, dryRun))]
      && t.totalProcessed == s.result.totalProcessed + |items|
      && t.successful == s.result.successful + Succeeded(items, dryRun)
      && t.failed == s.result.failed + Failed(items, dryRun)
      && t.errors == s.result.errors + Messages(db.name, items, dryRun)
  {
    LastPageFacts(db.name, items);
    TraverseTotals(s, db, LastPage(items), dryRun, archiveInstead);
    TraverseEntries(s, db, LastPage(items), dryRun, archiveInstead);
    TraverseErrors(s, db, LastPage(items), dryRun, archiveInstead);
  }

  lemma ResolveTwo(a: string, b: string)
    ensures Resolve(Some([a, b])) == [DatabaseRef(NotionDatabases.Lookup(a), a), DatabaseRef(NotionDatabases.Lookup(b), b)]
  {
    var r := Resolve(Some([a, b]));
    assert r[0] == DatabaseRef(NotionDatabases.Lookup(a), a) && r[1] == DatabaseRef(NotionDatabases.Lookup(b), b);
  }

  /** A two-database run is the second database's traversal after the first's. */
  lemma TwoDatabases(s: State, d1: DatabaseRef, d2: DatabaseRef, a1: seq<QueryAnswer>, a2: seq<QueryAnswer>,
                     dryRun: bool, archiveInstead: bool)
    requires Ends(a1) && Ends(a2)
    ensures Covers([a1, a2], 2)
    ensures TraverseAll(s, [d1, d2], [a1, a2], dryRun, archiveInstead)
         == Traverse(Traverse(s, d1, a1, dryRun, archiveInstead), d2, a2, dryRun, archiveInstead)
  {
    assert Covers([a1, a2], 2);
    TraverseAllUnfold(s, [d1, d2], [a1, a2], dryRun, archiveInstead);
    assert [d1, d2][1..] == [d2] && [a1, a2][1..] == [a2];
    SingleDatabase(Traverse(s, d1, a1, dryRun, archiveInstead), d2, a2, dryRun, archiveInstead);
  }

  lemma ThreeRequests(x: PageItem, y: PageItem, z: PageItem, archiveInstead: bool)
    ensures Requests([x, y, z], archiveInstead)
         == [RequestFor(x.id, archiveInstead), RequestFor(y.id, archiveInstead), RequestFor(z.id, archiveInstead)]
  {
    var r := Requests([x, y, z], archiveInstead);
    assert r[0] == RequestFor(x.id, archiveInstead) && r[1] == RequestFor(y.id, archiveInstead)
        && r[2] == RequestFor(z.id, archiveInstead);
  }

  /** The counts and messages of three items. */
  lemma TripleCounts(name: string, x: PageItem, y: PageItem, z: PageItem)
    ensures ArchivedCount([x, y, z]) == ArchivedCount([x]) + ArchivedCount([y]) + ArchivedCount([z])
    ensures FailedCount([x, y, z]) == FailedCount([x]) + FailedCount([y]) + FailedCount([z])
  {
    assert [x, y, z] == [x] + [y, z];
    CountsAppend(name, [x], [y, z]);
    PairCounts(name, y, z);
  }

  /**
   * Two databases, the first with three records on one page, the second with
   * none; not dry, archiving to the trash; every update succeeds.
   */
  lemma AllArchivedRun(a: string, b: string)
    requires a != b
    ensures var payload := Payload("token", Some([a, b]), Some(false), Some(true));
      var store := [LastPage([PageItem("p1", Archived), PageItem("p2", Archived), PageItem("p3", Archived)]), LastPage([])];
      && Covers(store, |Resolve(payload.databases)|)
      && var t := Outcome(payload, store);
      && t.result.totalProcessed == 3 && t.result.successful == 3 && t.result.failed == 0
      && t.result.errors == []
      && t.result.databaseResults == map[a := DatabaseResult(a, 3, 3, 0), b := DatabaseResult(b, 0, 0, 0)]
  {
    var x, y, z := PageItem("p1", Archived), PageItem("p2", Archived), PageItem("p3", Archived);
    var payload := Payload("token", Some([a, b]), Some(false), Some(true));
    var page1, page2 := LastPage([x, y, z]), LastPage([]);
    var da, db := DatabaseRef(NotionDatabases.Lookup(a), a), DatabaseRef(NotionDatabases.Lookup(b), b);
    ResolveTwo(a, b);
    assert Succeeded([x, y, z], false) == 3 && Failed([x, y, z], false) == 0 by {
      TripleCounts(a, x, y, z);
      SingleCounts(a, x);
      SingleCounts(a, y);
      SingleCounts(a, z);
    }
    assert Messages(a, [x, y, z], false) == [] by {
      assert |FailureMessages(a, [x, y, z])| == FailedCount([x, y, z]);
    }
    var s1 := Traverse(Initial(), da, page1, false, true);
    assert Outcome(payload, [page1, page2]) == Traverse(s1, db, page2, false, true) by {
      TwoDatabases(Initial(), da, db, page1, page2, false, true);
    }
    LastPageTraversal(Initial(), da, [x, y, z], false, true);
    LastPageTraversal(s1, db, [], false, true);
  }

  /** The same run sends one update per record of the first database, in order, each moving the page to the trash. */
  lemma AllArchivedRequests(a: string, b: string)
    ensures var payload := Payload("token", Some([a, b]), Some(false), Some(true));
      var store := [LastPage([PageItem("p1", Archived), PageItem("p2", Archived), PageItem("p3", Archived)]), LastPage([])];
      && Covers(store, |Resolve(payload.databases)|)
      && Updates(Outcome(payload, store).calls) == [RequestFor("p1", true), RequestFor("p2", true), RequestFor("p3", true)]
  {
    var x, y, z := PageItem("p1", Archived), PageItem("p2", Archived), PageItem("p3", Archived);
    var payload := Payload("token", Some([a, b]), Some(false), Some(true));
    var page1, page2 := LastPage([x, y, z]), LastPage([]);
    var da, db := DatabaseRef(NotionDatabases.Lookup(a), a), DatabaseRef(NotionDatabases.Lookup(b), b);
    ResolveTwo(a, b);
    var s1 := Traverse(Initial(), da, page1, false, true);
    assert Outcome(payload, [page1, page2]) == Traverse(s1, db, page2, false, true) by {
      TwoDatabases(Initial(), da, db, page1, page2, false, true);
    }
    assert Updates(s1.calls) == Requests([x, y, z], true) by {
      TraverseUpdates(Initial(), da, page1, false, true);
      LastPageFacts(a, [x, y, z]);
    }
    assert Updates(Traverse(s1, db, page2, false, true).calls) == Updates(s1.calls) by {
      TraverseUpdates(s1, db, page2, false, true);
      LastPageFacts(b, []);
    }
    ThreeRequests(x, y, z, true);
  }

  /** The same run waits 350 ms after each of its three successful updates. */
  lemma AllArchivedPauses(a: string, b: string)
    requires a != b
    ensures var payload := Payload("token", Some([a, b]), Some(false), Some(true));
      var store := [LastPage([PageItem("p1", Archived), PageItem("p2", Archived), PageItem("p3", Archived)]), LastPage([])];
      && Covers(store, |Resolve(payload.databases)|)
      && Pauses(Outcome(payload, store).calls) == 3
      && Paced(Outcome(payload, store).calls)
  {
    var payload := Payload("token", Some([a, b]), Some(false), Some(true));
    var store := [LastPage([PageItem("p1", Archived), PageItem("p2", Archived), PageItem("p3", Archived)]), LastPage([])];
    AllArchivedRun(a, b);
    RunPauses(payload, store);
  }

  /**
   * One database with two records, not dry; the first update succeeds and the
   * second fails: one success, one failure, and a single message naming the
   * second record and the database.
   */
  lemma OneFailureRun(name: string, message: string)
    ensures var payload := Payload("token", Some([name]), Some(false), None);
      var store := [LastPage([PageItem("first", Archived), PageItem("second", UpdateFailed(message))])];
      && Covers(store, |Resolve(payload.databases)|)
      && var t := Outcome(payload, store).result;
      && t.totalProcessed == 2 && t.successful == 1 && t.failed == 1
      && t.errors == [ArchiveFailure("second", name, message)]
      && t.databaseResults == map[name := DatabaseResult(name, 2, 1, 1)]
  {
    var x, y := PageItem("first", Archived), PageItem("second", UpdateFailed(message));
    var payload := Payload("token", Some([name]), Some(false), None);
    var page := LastPage([x, y]);
    var db := DatabaseRef(NotionDatabases.Lookup(name), name);
    assert Resolve(payload.databases) == [db] by {
      assert Resolve(payload.databases)[0] == db;
    }
    assert Succeeded([x, y], false) == 1 && Failed([x, y], false) == 1
        && Messages(name, [x, y], false) == [ArchiveFailure("second", name, message)] by {
      PairCounts(name, x, y);
      SingleCounts(name, x);
      SingleCounts(name, y);
    }
    assert Outcome(payload, [page]) == Traverse(Initial(), db, page, false, false) by {
      SingleDatabase(Initial(), db, page, false, false);
    }
    LastPageTraversal(Initial(), db, [x, y], false, false);
  }
}
