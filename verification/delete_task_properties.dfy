/**
 * What a whole run of the task promises: how databases are resolved, that
 * pagination sends the expected queries, that a dry run changes nothing,
 * that every record is tallied exactly once, and how `errors` is made up.
 */
module DeleteTaskProperties {
  import opened Common
  import NotionDatabases
  import opened DeleteTask
  import opened DeleteTaskSummary

  /** The number of records the first n traversals are served. */
  function ProcessedCount(store: seq<seq<QueryAnswer>>, n: nat): nat
    requires Covers(store, n)
    decreases n
  {
    if n == 0 then 0 else |Items(store[0])| + ProcessedCount(store[1..], n - 1)
  }

  /** The number of the first n traversals that end on a failed query. */
  function AbortCount(store: seq<seq<QueryAnswer>>, n: nat): (k: nat)
    requires Covers(store, n)
    ensures k <= n
    decreases n
  {
    if n == 0 then 0 else (if Aborted(store[0]) then 1 else 0) + AbortCount(store[1..], n - 1)
  }

  /** The queries of all traversals, database after database. */
  function AllQueries(dbs: seq<DatabaseRef>, store: seq<seq<QueryAnswer>>): seq<Call>
    requires Covers(store, |dbs|)
    decreases |dbs|
  {
    if dbs == [] then [] else QueryLog(dbs[0].id, store[0], None) + AllQueries(dbs[1..], store[1..])
  }

  /** The update requests of all traversals, database after database. */
  function AllSent(store: seq<seq<QueryAnswer>>, n: nat, dryRun: bool, archiveInstead: bool): seq<UpdateRequest>
    requires Covers(store, n)
    decreases n
  {
    if n == 0 then [] else Sent(Items(store[0]), dryRun, archiveInstead) + AllSent(store[1..], n - 1, dryRun, archiveInstead)
  }

  lemma {:induction false} TraverseAllProcessed(s: State, dbs: seq<DatabaseRef>, store: seq<seq<QueryAnswer>>,
                                                dryRun: bool, archiveInstead: bool)
    requires Covers(store, |dbs|)
    ensures TraverseAll(s, dbs, store, dryRun, archiveInstead).result.totalProcessed
         == s.result.totalProcessed + ProcessedCount(store, |dbs|)
    decreases |dbs|
  {
    if dbs != [] {
      var s1 := Traverse(s, dbs[0], store[0], dryRun, archiveInstead);
      TraverseAllUnfold(s, dbs, store, dryRun, archiveInstead);
      TraverseTotals(s, dbs[0], store[0], dryRun, archiveInstead);
      TraverseAllProcessed(s1, dbs[1..], store[1..], dryRun, archiveInstead);
    }
  }

  lemma {:induction false} TraverseAllErrors(s: State, dbs: seq<DatabaseRef>, store: seq<seq<QueryAnswer>>,
                                             dryRun: bool, archiveInstead: bool)
    requires Covers(store, |dbs|)
    ensures var t := TraverseAll(s, dbs, store, dryRun, archiveInstead);
      |t.result.errors| + s.result.failed == |s.result.errors| + t.result.failed + AbortCount(store, |dbs|)
    decreases |dbs|
  {
    if dbs != [] {
      var s1 := Traverse(s, dbs[0], store[0], dryRun, archiveInstead);
      TraverseAllUnfold(s, dbs, store, dryRun, archiveInstead);
      TraverseErrors(s, dbs[0], store[0], dryRun, archiveInstead);
      TraverseTotals(s, dbs[0], store[0], dryRun, archiveInstead);
      TraverseAllErrors(s1, dbs[1..], store[1..], dryRun, archiveInstead);
      var items := Items(store[0]);
      assert |Messages(dbs[0].name, items, dryRun)| == Failed(items, dryRun);
      assert |s1.result.errors| == |s.result.errors| + Failed(items, dryRun) + |AbortMessages(dbs[0].name, store[0])|;
      assert AbortCount(store, |dbs|) == |AbortMessages(dbs[0].name, store[0])| + AbortCount(store[1..], |dbs| - 1);
    }
  }

  lemma {:induction false} TraverseAllQueries(s: State, dbs: seq<DatabaseRef>, store: seq<seq<QueryAnswer>>,
                                              dryRun: bool, archiveInstead: bool)
    requires Covers(store, |dbs|)
    ensures Queries(TraverseAll(s, dbs, store, dryRun, archiveInstead).calls) == Queries(s.calls) + AllQueries(dbs, store)
    decreases |dbs|
  {
    if dbs != [] {
      assert Covers(store[1..], |dbs| - 1);
      var s1 := Traverse(s, dbs[0], store[0], dryRun, archiveInstead);
      var q0, log, more := Queries(s.calls), QueryLog(dbs[0].id, store[0], None), AllQueries(dbs[1..], store[1..]);
      assert Queries(TraverseAll(s, dbs, store, dryRun, archiveInstead).calls)
          == Queries(TraverseAll(s1, dbs[1..], store[1..], dryRun, archiveInstead).calls) by {
        TraverseAllUnfold(s, dbs, store, dryRun, archiveInstead);
      }
      assert Queries(TraverseAll(s1, dbs[1..], store[1..], dryRun, archiveInstead).calls) == Queries(s1.calls) + more by {
        TraverseAllQueries(s1, dbs[1..], store[1..], dryRun, archiveInstead);
      }
      assert Queries(s1.calls) == q0 + log by {
        TraverseQueries(s, dbs[0], store[0], dryRun, archiveInstead);
      }
      assert AllQueries(dbs, store) == log + more;
      assert q0 + log + more == q0 + (log + more);
    }
  }

  lemma {:induction false} TraverseAllUpdates(s: State, dbs: seq<DatabaseRef>, store: seq<seq<QueryAnswer>>,
                                              dryRun: bool, archiveInstead: bool)
    requires Covers(store, |dbs|)
    ensures Updates(TraverseAll(s, dbs, store, dryRun, archiveInstead).calls)
         == Updates(s.calls) + AllSent(store, |dbs|, dryRun, archiveInstead)
    decreases |dbs|
  {
    if dbs != [] {
      assert Covers(store[1..], |dbs| - 1);
      var s1 := Traverse(s, dbs[0], store[0], dryRun, archiveInstead);
      var u0, sent, more := Updates(s.calls), Sent(Items(store[0]), dryRun, archiveInstead),
                            AllSent(store[1..], |dbs| - 1, dryRun, archiveInstead);
      calc {
        Updates(TraverseAll(s, dbs, store, dryRun, archiveInstead).calls);
        { TraverseAllUnfold(s, dbs, store, dryRun, archiveInstead); }
        Updates(TraverseAll(s1, dbs[1..], store[1..], dryRun, archiveInstead).calls);
        { TraverseAllUpdates(s1, dbs[1..], store[1..], dryRun, archiveInstead); }
        Updates(s1.calls) + more;
        { TraverseUpdates(s, dbs[0], store[0], dryRun, archiveInstead); }
        u0 + sent + more;
        u0 + (sent + more);
        u0 + AllSent(store, |dbs|, dryRun, archiveInstead);
      }
    }
  }

  /** Every record processed outside a dry run was counted as exactly one of successful and failed. */
  predicate Balanced(r: TaskResult)
  {
    && r.totalProcessed == r.successful + r.failed
    && forall name :: name in r.databaseResults ==>
         r.databaseResults[name].processed == r.databaseResults[name].successful + r.databaseResults[name].failed
  }

  /** No record has been counted as successful or failed. */
  predicate Untouched(r: TaskResult)
  {
    && r.successful == 0 && r.failed == 0
    && forall name :: name in r.databaseResults ==>
         r.databaseResults[name].successful == 0 && r.databaseResults[name].failed == 0
  }

  lemma {:induction false} TraverseAllKeeps(s: State, dbs: seq<DatabaseRef>, store: seq<seq<QueryAnswer>>,
                                            dryRun: bool, archiveInstead: bool)
    requires Covers(store, |dbs|)
    ensures !dryRun && Balanced(s.result) ==> Balanced(TraverseAll(s, dbs, store, dryRun, archiveInstead).result)
    ensures dryRun && Untouched(s.result) ==> Untouched(TraverseAll(s, dbs, store, dryRun, archiveInstead).result)
    decreases |dbs|
  {
    if dbs != [] {
      var s1 := Traverse(s, dbs[0], store[0], dryRun, archiveInstead);
      TraverseAllUnfold(s, dbs, store, dryRun, archiveInstead);
      TraverseTotals(s, dbs[0], store[0], dryRun, archiveInstead);
      TraverseEntries(s, dbs[0], store[0], dryRun, archiveInstead);
      assert FailedCount(Items(store[0])) + ArchivedCount(Items(store[0])) == |Items(store[0])|;
      TraverseAllKeeps(s1, dbs[1..], store[1..], dryRun, archiveInstead);
    }
  }

  /** The calls every update request of a run is made with. */
  predicate WellShaped(requests: seq<UpdateRequest>, archiveInstead: bool)
  {
    forall i :: 0 <= i < |requests| ==>
      && requests[i].archived
      && (requests[i].inTrash.Some? <==> archiveInstead)
      && requests[i].inTrash != Some(false)
  }

  lemma {:induction false} AllSentShape(store: seq<seq<QueryAnswer>>, n: nat, dryRun: bool, archiveInstead: bool)
    requires Covers(store, n)
    ensures WellShaped(AllSent(store, n, dryRun, archiveInstead), archiveInstead)
    ensures dryRun ==> AllSent(store, n, dryRun, archiveInstead) == []
    decreases n
  {
    if n > 0 {
      AllSentShape(store[1..], n - 1, dryRun, archiveInstead);
      var head: seq<UpdateRequest> := Sent(Items(store[0]), dryRun, archiveInstead);
      var tail: seq<UpdateRequest> := AllSent(store[1..], n - 1, dryRun, archiveInstead);
      var all := head + tail;
      forall i | 0 <= i < |all|
        ensures all[i].archived && (all[i].inTrash.Some? <==> archiveInstead) && all[i].inTrash != Some(false)
      {
        if i >= |head| {
          assert all[i] == tail[i - |head|];
        }
      }
    }
  }

  /** Dry-run safety: no update call is made and nothing counts as successful or failed, yet every record is processed. */
  lemma DryRunSafety(payload: Payload, store: seq<seq<QueryAnswer>>)
    requires Covers(store, |Resolve(payload.databases)|)
    requires Truthy(payload.dryRun)
    ensures var t := Outcome(payload, store);
      && Updates(t.calls) == []
      && Untouched(t.result)
      && t.result.totalProcessed == ProcessedCount(store, |Resolve(payload.databases)|)
  {
    var dbs := Resolve(payload.databases);
    TraverseAllUpdates(Initial(), dbs, store, true, Truthy(payload.archiveInstead));
    TraverseAllKeeps(Initial(), dbs, store, true, Truthy(payload.archiveInstead));
    TraverseAllProcessed(Initial(), dbs, store, true, Truthy(payload.archiveInstead));
    AllSentShape(store, |dbs|, true, Truthy(payload.archiveInstead));
  }

  /** Outside a dry run, every processed record is either successful or failed, per database and in total. */
  lemma PerRecordTally(payload: Payload, store: seq<seq<QueryAnswer>>)
    requires Covers(store, |Resolve(payload.databases)|)
    requires !Truthy(payload.dryRun)
    ensures Balanced(Outcome(payload, store).result)
  {
    var dbs := Resolve(payload.databases);
    var archiveInstead := Truthy(payload.archiveInstead);
    assert Outcome(payload, store) == TraverseAll(Initial(), dbs, store, false, archiveInstead);
    assert Balanced(Initial().result);
    TraverseAllKeeps(Initial(), dbs, store, false, archiveInstead);
  }

  /** Every record the store returns is processed, and `errors` holds one message per failed update and per aborted database. */
  lemma RunTotals(payload: Payload, store: seq<seq<QueryAnswer>>)
    requires Covers(store, |Resolve(payload.databases)|)
    ensures var t := Outcome(payload, store); var n := |Resolve(payload.databases)|;
      && t.result.totalProcessed == ProcessedCount(store, n)
      && |t.result.errors| == t.result.failed + AbortCount(store, n)
  {
    TraverseAllProcessed(Initial(), Resolve(payload.databases), store, Truthy(payload.dryRun), Truthy(payload.archiveInstead));
    TraverseAllErrors(Initial(), Resolve(payload.databases), store, Truthy(payload.dryRun), Truthy(payload.archiveInstead));
  }

  /**
   * The queries of a run: for each database in turn, one query per page up to
   * and including the one that ends its loop, the first without a cursor and
   * each later one with the previous answer's `next_cursor`.
   */
  lemma RunQueries(payload: Payload, store: seq<seq<QueryAnswer>>)
    requires Covers(store, |Resolve(payload.databases)|)
    ensures Queries(Outcome(payload, store).calls) == AllQueries(Resolve(payload.databases), store)
  {
    TraverseAllQueries(Initial(), Resolve(payload.databases), store, Truthy(payload.dryRun), Truthy(payload.archiveInstead));
  }

  /** Across databases, the trace gains one pause per record counted as successful. */
  lemma {:induction false} TraverseAllPauses(s: State, dbs: seq<DatabaseRef>, store: seq<seq<QueryAnswer>>,
                                             dryRun: bool, archiveInstead: bool)
    requires Covers(store, |dbs|)
    ensures var t := TraverseAll(s, dbs, store, dryRun, archiveInstead);
      Pauses(t.calls) - Pauses(s.calls) == t.result.successful - s.result.successful
    decreases |dbs|
  {
    if dbs != [] {
      var s1 := Traverse(s, dbs[0], store[0], dryRun, archiveInstead);
      TraverseAllUnfold(s, dbs, store, dryRun, archiveInstead);
      TraverseTotals(s, dbs[0], store[0], dryRun, archiveInstead);
      TraversePauses(s, dbs[0], store[0], dryRun, archiveInstead);
      TraverseAllPauses(s1, dbs[1..], store[1..], dryRun, archiveInstead);
    }
  }

  /** Across databases, every pause still comes right after an update request. */
  lemma {:induction false} TraverseAllPaced(s: State, dbs: seq<DatabaseRef>, store: seq<seq<QueryAnswer>>,
                                            dryRun: bool, archiveInstead: bool)
    requires Covers(store, |dbs|) && Paced(s.calls)
    ensures Paced(TraverseAll(s, dbs, store, dryRun, archiveInstead).calls)
    decreases |dbs|
  {
    if dbs != [] {
      var s1 := Traverse(s, dbs[0], store[0], dryRun, archiveInstead);
      TraverseAllUnfold(s, dbs, store, dryRun, archiveInstead);
      TraversePaced(s, dbs[0], store[0], dryRun, archiveInstead);
      TraverseAllPaced(s1, dbs[1..], store[1..], dryRun, archiveInstead);
    }
  }

  /**
   * The rate-limit delay of a run: a 350 ms pause right after an update
   * request, once for every page counted as successful, and none in a dry run.
   */
  lemma RunPauses(payload: Payload, store: seq<seq<QueryAnswer>>)
    requires Covers(store, |Resolve(payload.databases)|)
    ensures var t := Outcome(payload, store);
      && Pauses(t.calls) == t.result.successful
      && Paced(t.calls)
      && (Truthy(payload.dryRun) ==> Pauses(t.calls) == 0)
  {
    var dbs := Resolve(payload.databases);
    var dryRun, archiveInstead := Truthy(payload.dryRun), Truthy(payload.archiveInstead);
    assert Outcome(payload, store) == TraverseAll(Initial(), dbs, store, dryRun, archiveInstead);
    TraverseAllPauses(Initial(), dbs, store, dryRun, archiveInstead);
    TraverseAllPaced(Initial(), dbs, store, dryRun, archiveInstead);
    if dryRun {
      assert Untouched(Initial().result);
      TraverseAllKeeps(Initial(), dbs, store, dryRun, archiveInstead);
    }
  }

  /** A pagination log: as many queries as answers up to the stopping one, chained by cursor. */
  lemma QueryLogChained(id: Option<string>, answers: seq<QueryAnswer>)
    requires Ends(answers)
    ensures |QueryLog(id, answers, None)| == StopIndex(answers) + 1
    ensures QueryLog(id, answers, None)[0] == QueryCall(id, None)
    ensures forall j :: 0 < j <= StopIndex(answers) ==>
      answers[j - 1].Answered? && answers[j - 1].response.hasMore &&
      QueryLog(id, answers, None)[j] == QueryCall(id, answers[j - 1].response.nextCursor)
  {
    forall j | 0 <= j < StopIndex(answers)
      ensures answers[j].Answered? && answers[j].response.hasMore
    {
      assert !Stops(answers[j]);
    }
  }

  /** Every update request sets `archived` and sets `in_trash: true` exactly when `archiveInstead` is truthy. */
  lemma UpdateRequestShape(payload: Payload, store: seq<seq<QueryAnswer>>)
    requires Covers(store, |Resolve(payload.databases)|)
    ensures WellShaped(Updates(Outcome(payload, store).calls), Truthy(payload.archiveInstead))
  {
    var dbs := Resolve(payload.databases);
    TraverseAllUpdates(Initial(), dbs, store, Truthy(payload.dryRun), Truthy(payload.archiveInstead));
    AllSentShape(store, |dbs|, Truthy(payload.dryRun), Truthy(payload.archiveInstead));
  }

  datatype Counter = ProcessedCounter | SuccessfulCounter | FailedCounter

  function Field(e: DatabaseResult, c: Counter): nat
  {
    match c
    case ProcessedCounter => e.processed
    case SuccessfulCounter => e.successful
    case FailedCounter => e.failed
  }

  function Total(r: TaskResult, c: Counter): nat
  {
    match c
    case ProcessedCounter => r.totalProcessed
    case SuccessfulCounter => r.successful
    case FailedCounter => r.failed
  }

  /** The sum of one counter over the entries of the given names. */
  function EntrySum(m: map<string, DatabaseResult>, names: seq<string>, c: Counter): nat
    decreases |names|
  {
    if names == [] then 0
    else
      var last := names[|names| - 1];
      EntrySum(m, names[..|names| - 1], c) + (if last in m then Field(m[last], c) else 0)
  }

  function Names(dbs: seq<DatabaseRef>): (names: seq<string>)
    ensures |names| == |dbs|
    ensures forall i :: 0 <= i < |dbs| ==> names[i] == dbs[i].name
  {
    seq(|dbs|, i requires 0 <= i < |dbs| => dbs[i].name)
  }

  predicate Distinct(names: seq<string>)
  {
    forall i, j :: 0 <= i < j < |names| ==> names[i] != names[j]
  }

  lemma {:induction false} EntrySumFrame(m: map<string, DatabaseResult>, names: seq<string>, name: string,
                                         e: DatabaseResult, c: Counter)
    requires name !in names
    ensures EntrySum(m[name := e], names, c) == EntrySum(m, names, c)
    decreases |names|
  {
    if names != [] {
      EntrySumFrame(m, names[..|names| - 1], name, e, c);
    }
  }

  lemma {:induction false} TraverseAllSums(s: State, dbs: seq<DatabaseRef>, store: seq<seq<QueryAnswer>>,
                                           dryRun: bool, archiveInstead: bool, previous: seq<string>)
    requires Covers(store, |dbs|)
    requires Distinct(previous + Names(dbs))
    requires forall c :: Total(s.result, c) == EntrySum(s.result.databaseResults, previous, c)
    ensures forall c :: Total(TraverseAll(s, dbs, store, dryRun, archiveInstead).result, c)
                     == EntrySum(TraverseAll(s, dbs, store, dryRun, archiveInstead).result.databaseResults, previous + Names(dbs), c)
    decreases |dbs|
  {
    if dbs == [] {
      assert previous + Names(dbs) == previous;
    } else {
      var name := dbs[0].name;
      var s1 := Traverse(s, dbs[0], store[0], dryRun, archiveInstead);
      TraverseAllUnfold(s, dbs, store, dryRun, archiveInstead);
      TraverseTotals(s, dbs[0], store[0], dryRun, archiveInstead);
      TraverseEntries(s, dbs[0], store[0], dryRun, archiveInstead);
      var all := previous + Names(dbs);
      assert name == all[|previous|];
      assert name !in previous by {
        forall i | 0 <= i < |previous| ensures previous[i] != name {
          assert previous[i] == all[i];
        }
      }
      var previous1 := previous + [name];
      assert previous1[..|previous1| - 1] == previous;
      forall c ensures Total(s1.result, c) == EntrySum(s1.result.databaseResults, previous1, c) {
        EntrySumFrame(s.result.databaseResults, previous, name, s1.result.databaseResults[name], c);
      }
      assert previous1 + Names(dbs[1..]) == all;
      TraverseAllSums(s1, dbs[1..], store[1..], dryRun, archiveInstead, previous1);
    }
  }

  /** With distinct resolved names, each total is the sum of that counter over the databases' entries. */
  lemma DistinctNamesTotals(payload: Payload, store: seq<seq<QueryAnswer>>)
    requires Covers(store, |Resolve(payload.databases)|)
    requires Distinct(Names(Resolve(payload.databases)))
    ensures forall c :: Total(Outcome(payload, store).result, c)
                     == EntrySum(Outcome(payload, store).result.databaseResults, Names(Resolve(payload.databases)), c)
  {
    var dbs := Resolve(payload.databases);
    assert [] + Names(dbs) == Names(dbs);
    TraverseAllSums(Initial(), dbs, store, Truthy(payload.dryRun), Truthy(payload.archiveInstead), []);
  }

  /** A traversal of several databases adds an entry for each of their names and no other. */
  lemma {:induction false} TraverseAllKeys(s: State, dbs: seq<DatabaseRef>, store: seq<seq<QueryAnswer>>,
                                           dryRun: bool, archiveInstead: bool)
    requires Covers(store, |dbs|)
    ensures forall k :: k in TraverseAll(s, dbs, store, dryRun, archiveInstead).result.databaseResults
                        <==> k in s.result.databaseResults || k in Names(dbs)
    decreases |dbs|
  {
    if dbs != [] {
      var s1 := Traverse(s, dbs[0], store[0], dryRun, archiveInstead);
      TraverseAllUnfold(s, dbs, store, dryRun, archiveInstead);
      TraverseEntries(s, dbs[0], store[0], dryRun, archiveInstead);
      TraverseAllKeys(s1, dbs[1..], store[1..], dryRun, archiveInstead);
      assert Names(dbs) == [dbs[0].name] + Names(dbs[1..]);
    }
  }

  /** The returned `databaseResults` has an entry for exactly the resolved names. */
  lemma RunKeys(payload: Payload, store: seq<seq<QueryAnswer>>)
    requires Covers(store, |Resolve(payload.databases)|)
    ensures forall k :: k in Outcome(payload, store).result.databaseResults <==> k in Names(Resolve(payload.databases))
  {
    var dbs := Resolve(payload.databases);
    var dryRun, archiveInstead := Truthy(payload.dryRun), Truthy(payload.archiveInstead);
    assert Outcome(payload, store) == TraverseAll(Initial(), dbs, store, dryRun, archiveInstead);
    TraverseAllKeys(Initial(), dbs, store, dryRun, archiveInstead);
  }

  /** The default resolution has distinct names, so the totals of a run without `databases` are always the sums. */
  lemma DefaultRunTotals(payload: Payload, store: seq<seq<QueryAnswer>>)
    requires payload.databases.None?
    requires Covers(store, |NotionDatabases.Table|)
    ensures Covers(store, |Resolve(payload.databases)|)
    ensures forall c :: Total(Outcome(payload, store).result, c)
                     == EntrySum(Outcome(payload, store).result.databaseResults, NotionDatabases.Keys(), c)
  {
    NotionDatabases.TableKeysDistinct();
    assert Names(Resolve(payload.databases)) == NotionDatabases.Keys();
    DistinctNamesTotals(payload, store);
  }

  /**
   * A name given twice: its entry holds only the second traversal's counts,
   * while the totals count both traversals.
   */
  lemma RepeatedNameReset(payload: Payload, store: seq<seq<QueryAnswer>>, name: string)
    requires payload.databases == Some([name, name])
    requires Covers(store, 2)
    ensures Covers(store, |Resolve(payload.databases)|)
    ensures var t := Outcome(payload, store).result;
      && t.databaseResults.Keys == {name}
      && t.databaseResults[name].processed == |Items(store[1])|
      && t.totalProcessed == |Items(store[0])| + |Items(store[1])|
  {
    var dbs := Resolve(payload.databases);
    var dry, arch := Truthy(payload.dryRun), Truthy(payload.archiveInstead);
    var s1 := Traverse(Initial(), dbs[0], store[0], dry, arch);
    TraverseAllUnfold(Initial(), dbs, store, dry, arch);
    TraverseAllUnfold(s1, dbs[1..], store[1..], dry, arch);
    assert dbs[1..][1..] == [];
    TraverseTotals(Initial(), dbs[0], store[0], dry, arch);
    TraverseEntries(Initial(), dbs[0], store[0], dry, arch);
    TraverseTotals(s1, dbs[1], store[1], dry, arch);
    TraverseEntries(s1, dbs[1], store[1], dry, arch);
  }
}
