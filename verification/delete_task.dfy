/**
 * The `run` body of the `deleteNotionItems` task: resolve the databases to
 * process, page through each one with a cursor, archive every returned page
 * unless the run is a dry run, and tally the outcome.
 *
 * The Notion store is abstracted as the answers it gives. `store[i]` is the
 * sequence of answers the i-th database traversal receives to its successive
 * query calls; every returned page item carries the answer its update call
 * would receive. The trace `calls` records every query and update request the
 * task issues, and the pause it takes after each archived page, so that what
 * is sent to the store, and at what pace, can be stated.
 *
 * The functions from `Reset` to `Outcome` are the specification of the run;
 * the class `TaskRun` and the method `DeleteNotionItems` perform it step by
 * step with the source's own loops and counters and are proved to agree.
 */
module DeleteTask {
  import opened Common
  import NotionDatabases

  /** DeleteNotionItemsPayload; `filter` is passed through untouched and left out. */
  datatype Payload = Payload(
    notionToken: string,
    databases: Option<seq<string>>,
    dryRun: Option<bool>,
    archiveInstead: Option<bool>)

  /** A boolean flag read as a JavaScript condition: an absent flag is falsy. */
  predicate Truthy(flag: Option<bool>): (b: bool)
    ensures b ==> flag.Some?
    ensures flag.None? || flag == Some(false) ==> !b
  {
    flag == Some(true)
  }

  /** One entry of `databasesToProcess`; the id is `undefined` for a name outside the table. */
  datatype DatabaseRef = DatabaseRef(id: Option<string>, name: string)

  /** The answer the store gives to one `pages.update` call. */
  datatype UpdateAnswer = Archived | UpdateFailed(message: string)

  /** One element of `response.results`, with the answer its update call receives. */
  datatype PageItem = PageItem(id: string, answer: UpdateAnswer)

  datatype QueryResponse = QueryResponse(results: seq<PageItem>, hasMore: bool, nextCursor: Option<string>)

  /** The outcome of one `databases.query` call, after the client's retries. */
  datatype QueryAnswer = Answered(response: QueryResponse) | QueryFailed(message: string)

  /** The arguments of `pages.update`; `inTrash` is absent unless requested. */
  datatype UpdateRequest = UpdateRequest(pageId: string, archived: bool, inTrash: Option<bool>)

  /** A call the task makes to the store, or a `setTimeout` wait between two calls. */
  datatype Call =
    | QueryCall(databaseId: Option<string>, startCursor: Option<string>)
    | UpdateCall(request: UpdateRequest)
    | Pause(milliseconds: nat)

  /** The delay taken after every successful update, to respect Notion's rate limit. */
  const UpdatePauseMillis: nat := 350

  /** `results.databaseResults[name]`. */
  datatype DatabaseResult = DatabaseResult(name: string, processed: nat, successful: nat, failed: nat)

  /** The task's return value `results`. */
  datatype TaskResult = TaskResult(
    totalProcessed: nat,
    successful: nat,
    failed: nat,
    errors: seq<string>,
    databaseResults: map<string, DatabaseResult>)

  /** The results so far together with the calls issued so far. */
  datatype State = State(result: TaskResult, calls: seq<Call>)

  /** `databasesToProcess`: a supplied list (even an empty one) is mapped name by name, otherwise every table entry. */
  function Resolve(databases: Option<seq<string>>): (refs: seq<DatabaseRef>)
    ensures databases == Some([]) ==> refs == []
    ensures databases.None? ==>
      |refs| == |NotionDatabases.Table| &&
      forall i :: 0 <= i < |NotionDatabases.Table| ==>
        refs[i] == DatabaseRef(Some(NotionDatabases.Table[i].1), NotionDatabases.Table[i].0)
    ensures databases.Some? ==>
      |refs| == |databases.value| &&
      forall i :: 0 <= i < |databases.value| ==>
        && refs[i] == DatabaseRef(NotionDatabases.Lookup(databases.value[i]), databases.value[i])
        && refs[i].name == databases.value[i]
        && (refs[i].id.None? <==> databases.value[i] !in NotionDatabases.Keys())
        && forall j :: 0 <= j < |NotionDatabases.Table| && NotionDatabases.Table[j].0 == databases.value[i] ==>
             refs[i].id == Some(NotionDatabases.Table[j].1)
  {
    match databases
    case Some(names) =>
      seq(|names|, i requires 0 <= i < |names| => DatabaseRef(NotionDatabases.Lookup(names[i]), names[i]))
    case None =>
      seq(|NotionDatabases.Table|, i requires 0 <= i < |NotionDatabases.Table| =>
        DatabaseRef(Some(NotionDatabases.Table[i].1), NotionDatabases.Table[i].0))
  }

  /** An answer that ends the `while (hasMore)` loop: a failed query or a last page. */
  predicate Stops(answer: QueryAnswer)
  {
    answer.QueryFailed? || !answer.response.hasMore
  }

  /** Some answer in the sequence ends the pagination loop. */
  predicate Ends(answers: seq<QueryAnswer>)
    decreases |answers|
  {
    |answers| > 0 && (Stops(answers[0]) || Ends(answers[1..]))
  }

  /** Every one of the first n traversals is given answers that end. */
  predicate Covers(store: seq<seq<QueryAnswer>>, n: nat)
  {
    n <= |store| && forall i :: 0 <= i < n ==> Ends(store[i])
  }

  /** The message recorded for a failed update: it names the page and the database and ends with the cause. */
  function ArchiveFailure(pageId: string, name: string, message: string): (m: string)
    ensures |m| >= |message| && m[|m| - |message|..] == message
    ensures "Failed to archive page " + pageId + " from " + name <= m
  {
    "Failed to archive page " + pageId + " from " + name + ": " + message
  }

  /** The message recorded for a failed query: it names the database and ends with the cause. */
  function DatabaseFailure(name: string, message: string): (m: string)
    ensures |m| >= |message| && m[|m| - |message|..] == message
    ensures "Failed to process database " + name <= m
  {
    "Failed to process database " + name + ": " + message
  }

  /** `{ page_id, archived: true, ...(archiveInstead ? { in_trash: true } : {}) }`. */
  function RequestFor(pageId: string, archiveInstead: bool): (r: UpdateRequest)
    ensures r.pageId == pageId && r.archived
    ensures r.inTrash.Some? <==> archiveInstead
    ensures r.inTrash != Some(false)
  {
    UpdateRequest(pageId, true, if archiveInstead then Some(true) else None)
  }

  function Initial(): State
  {
    State(TaskResult(0, 0, 0, [], map[]), [])
  }

  /** Line 98: the database's entry is (re)set to zero counters. */
  function Reset(s: State, name: string): (t: State)
    ensures t.calls == s.calls
    ensures t.result.databaseResults == s.result.databaseResults[name := DatabaseResult(name, 0, 0, 0)]
    ensures t.result.totalProcessed == s.result.totalProcessed && t.result.errors == s.result.errors
    ensures t.result.successful == s.result.successful && t.result.failed == s.result.failed
  {
    s.(result := s.result.(databaseResults := s.result.databaseResults[name := DatabaseResult(name, 0, 0, 0)]))
  }

  /** One pass of the innermost `for` loop: count the item and, unless dry, update it, count the answer and pause after a success. */
  function Tally(s: State, name: string, item: PageItem, dryRun: bool, archiveInstead: bool): (t: State)
    requires name in s.result.databaseResults
    ensures t.result.databaseResults.Keys == s.result.databaseResults.Keys
  {
    var r := s.result;
    var e := r.databaseResults[name].(processed := r.databaseResults[name].processed + 1);
    var counted := r.(totalProcessed := r.totalProcessed + 1, databaseResults := r.databaseResults[name := e]);
    if dryRun then
      State(counted, s.calls)
    else
      var calls := s.calls + [UpdateCall(RequestFor(item.id, archiveInstead))];
      match item.answer
      case Archived =>
        State(counted.(successful := counted.successful + 1,
                       databaseResults := counted.databaseResults[name := e.(successful := e.successful + 1)]),
              calls + [Pause(UpdatePauseMillis)])
      case UpdateFailed(message) =>
        State(counted.(failed := counted.failed + 1,
                       errors := counted.errors + [ArchiveFailure(item.id, name, message)],
                       databaseResults := counted.databaseResults[name := e.(failed := e.failed + 1)]),
              calls)
  }

  /** The innermost `for` loop over `response.results`. */
  function TallyAll(s: State, name: string, items: seq<PageItem>, dryRun: bool, archiveInstead: bool): (t: State)
    requires name in s.result.databaseResults
    ensures t.result.databaseResults.Keys == s.result.databaseResults.Keys
    decreases |items|
  {
    if items == [] then s
    else TallyAll(Tally(s, name, items[0], dryRun, archiveInstead), name, items[1..], dryRun, archiveInstead)
  }

  /**
   * The `while (hasMore)` loop from a query with `cursor` on; a failed query
   * leaves the loop and is recorded by the database's `catch`.
   */
  function Paginate(s: State, db: DatabaseRef, answers: seq<QueryAnswer>, cursor: Option<string>,
                    dryRun: bool, archiveInstead: bool): State
    requires db.name in s.result.databaseResults
    requires Ends(answers)
    decreases |answers|
  {
    var queried := s.(calls := s.calls + [QueryCall(db.id, cursor)]);
    match answers[0]
    case QueryFailed(message) =>
      queried.(result := queried.result.(errors := queried.result.errors + [DatabaseFailure(db.name, message)]))
    case Answered(response) =>
      var tallied := TallyAll(queried, db.name, response.results, dryRun, archiveInstead);
      if response.hasMore then Paginate(tallied, db, answers[1..], response.nextCursor, dryRun, archiveInstead)
      else tallied
  }

  /** One pass of the loop over `databasesToProcess`. */
  function Traverse(s: State, db: DatabaseRef, answers: seq<QueryAnswer>, dryRun: bool, archiveInstead: bool): State
    requires Ends(answers)
  {
    Paginate(Reset(s, db.name), db, answers, None, dryRun, archiveInstead)
  }

  /** The loop over `databasesToProcess`, the i-th traversal answered by `store[i]`. */
  function TraverseAll(s: State, dbs: seq<DatabaseRef>, store: seq<seq<QueryAnswer>>,
                       dryRun: bool, archiveInstead: bool): State
    requires Covers(store, |dbs|)
    decreases |dbs|
  {
    if dbs == [] then s
    else
    TraverseAll(Traverse(s, dbs[0], store[0], dryRun, archiveInstead), dbs[1..], store[1..], dryRun, archiveInstead)
  }

  /** A pagination loop whose first query is answered: that page's items, then the rest of the loop if there is more. */
  lemma PaginateAnswered(s: State, db: DatabaseRef, answers: seq<QueryAnswer>, cursor: Option<string>,
                         dryRun: bool, archiveInstead: bool)
    requires db.name in s.result.databaseResults
    requires Ends(answers) && answers[0].Answered?
    ensures answers[0].response.hasMore ==> Ends(answers[1..])
    ensures var queried := s.(calls := s.calls + [QueryCall(db.id, cursor)]);
      var tallied := TallyAll(queried, db.name, answers[0].response.results, dryRun, archiveInstead);
      Paginate(s, db, answers, cursor, dryRun, archiveInstead)
      == if answers[0].response.hasMore
         then Paginate(tallied, db, answers[1..], answers[0].response.nextCursor, dryRun, archiveInstead)
         else tallied
  {
  }

  /** The first traversal, then the rest. */
  lemma TraverseAllUnfold(s: State, dbs: seq<DatabaseRef>, store: seq<seq<QueryAnswer>>, dryRun: bool, archiveInstead: bool)
    requires Covers(store, |dbs|) && dbs != []
    ensures Covers(store[1..], |dbs| - 1)
    ensures TraverseAll(s, dbs, store, dryRun, archiveInstead)
         == TraverseAll(Traverse(s, dbs[0], store[0], dryRun, archiveInstead), dbs[1..], store[1..], dryRun, archiveInstead)
  {
  }

  /** The whole run: the returned `results` and the calls made on the way. */
  function Outcome(payload: Payload, store: seq<seq<QueryAnswer>>): State
    requires Covers(store, |Resolve(payload.databases)|)
  {
    TraverseAll(Initial(), Resolve(payload.databases), store, Truthy(payload.dryRun), Truthy(payload.archiveInstead))
  }

  /** The mutable `results` object of one run, with the trace of calls the run has made. */
  class TaskRun {
    var totalProcessed: nat
    var successful: nat
    var failed: nat
    var errors: seq<string>
    var databaseResults: map<string, DatabaseResult>
    var calls: seq<Call>

    function Snapshot(): State
      reads this
    {
      State(TaskResult(totalProcessed, successful, failed, errors, databaseResults), calls)
    }

    constructor ()
      ensures Snapshot() == Initial()
    {
      totalProcessed, successful, failed := 0, 0, 0;
      errors, databaseResults, calls := [], map[], [];
    }

    /** Lines 115-139 for one returned page. */
    method ProcessRecord(name: string, item: PageItem, dryRun: bool, archiveInstead: bool)
      requires name in databaseResults
      modifies this
      ensures Snapshot() == Tally(old(Snapshot()), name, item, dryRun, archiveInstead)
    {
      var entry := databaseResults[name].(processed := databaseResults[name].processed + 1);
      totalProcessed := totalProcessed + 1;
      databaseResults := databaseResults[name := entry];
      if !dryRun {
        calls := calls + [UpdateCall(RequestFor(item.id, archiveInstead))];
        match item.answer {
          case Archived =>
            successful := successful + 1;
            databaseResults := databaseResults[name := entry.(successful := entry.successful + 1)];
            calls := calls + [Pause(UpdatePauseMillis)];
          case UpdateFailed(message) =>
            failed := failed + 1;
            databaseResults := databaseResults[name := entry.(failed := entry.failed + 1)];
            errors := errors + [ArchiveFailure(item.id, name, message)];
        }
      }
    }

    /** Lines 114-140: the loop over one page's `response.results`. */
    method ProcessPage(name: string, results: seq<PageItem>, dryRun: bool, archiveInstead: bool)
      requires name in databaseResults
      modifies this
      ensures Snapshot() == TallyAll(old(Snapshot()), name, results, dryRun, archiveInstead)
    {
      ghost var goal := TallyAll(Snapshot(), name, results, dryRun, archiveInstead);
      for i := 0 to |results|
        invariant name in databaseResults
        invariant TallyAll(Snapshot(), name, results[i..], dryRun, archiveInstead) == goal
      {
        assert results[i..][1..] == results[i + 1..];
        ProcessRecord(name, results[i], dryRun, archiveInstead);
      }
      assert results[|results|..] == [];
    }

    /** Lines 93-152 for one database: reset its entry, page through it, catch a failed query. */
    method ProcessDatabase(db: DatabaseRef, answers: seq<QueryAnswer>, dryRun: bool, archiveInstead: bool)
      requires Ends(answers)
      modifies this
      ensures Snapshot() == Traverse(old(Snapshot()), db, answers, dryRun, archiveInstead)
    {
      ghost var goal := Traverse(Snapshot(), db, answers, dryRun, archiveInstead);
      var name := db.name;
      var hasMore := true;
      var startCursor: Option<string> := None;
      var failure: Option<string> := None;
      databaseResults := databaseResults[name := DatabaseResult(name, 0, 0, 0)];
      var k := 0;
      while hasMore
        invariant 0 <= k <= |answers|
        invariant name in databaseResults
        invariant hasMore ==> failure.None? && k < |answers| && Ends(answers[k..])
        invariant hasMore ==> Paginate(Snapshot(), db, answers[k..], startCursor, dryRun, archiveInstead) == goal
        invariant !hasMore && failure.None? ==> Snapshot() == goal
        invariant !hasMore && failure.Some? ==>
          Snapshot().(result := Snapshot().result.(errors := errors + [DatabaseFailure(name, failure.value)])) == goal
        decreases |answers| - k
      {
        ghost var before := Snapshot();
        var answer := answers[k];
        calls := calls + [QueryCall(db.id, startCursor)];
        match answer {
          case QueryFailed(message) =>
            failure := Some(message);
            hasMore := false;
          case Answered(response) =>
            PaginateAnswered(before, db, answers[k..], startCursor, dryRun, archiveInstead);
            ghost var queried := Snapshot();
            ProcessPage(name, response.results, dryRun, archiveInstead);
            ghost var tallied := Snapshot();
            assert tallied == TallyAll(queried, name, response.results, dryRun, archiveInstead);
            hasMore := response.hasMore;
            startCursor := response.nextCursor;
            if hasMore {
              assert answers[k..][1..] == answers[k + 1..];
              assert Paginate(tallied, db, answers[k + 1..], startCursor, dryRun, archiveInstead) == goal;
            } else {
              assert tallied == goal;
            }
        }
        k := k + 1;
      }
      if failure.Some? {
        errors := errors + [DatabaseFailure(name, failure.value)];
      }
    }

    /** The loop over `databasesToProcess`, the i-th database traversed with the answers `store[i]`. */
    method ProcessAll(databasesToProcess: seq<DatabaseRef>, store: seq<seq<QueryAnswer>>, dryRun: bool, archiveInstead: bool)
      requires Covers(store, |databasesToProcess|)
      modifies this
      ensures Snapshot() == TraverseAll(old(Snapshot()), databasesToProcess, store, dryRun, archiveInstead)
    {
      ghost var goal := TraverseAll(Snapshot(), databasesToProcess, store, dryRun, archiveInstead);
      for i := 0 to |databasesToProcess|
        invariant Covers(store[i..], |databasesToProcess| - i)
        invariant TraverseAll(Snapshot(), databasesToProcess[i..], store[i..], dryRun, archiveInstead) == goal
      {
        ghost var before := Snapshot();
        assert TraverseAll(before, databasesToProcess[i..], store[i..], dryRun, archiveInstead)
            == TraverseAll(Traverse(before, databasesToProcess[i], store[i], dryRun, archiveInstead),
                           databasesToProcess[i + 1..], store[i + 1..], dryRun, archiveInstead) by {
          TraverseAllUnfold(before, databasesToProcess[i..], store[i..], dryRun, archiveInstead);
          assert databasesToProcess[i..][1..] == databasesToProcess[i + 1..];
          assert store[i..][1..] == store[i + 1..];
        }
        ProcessDatabase(databasesToProcess[i], store[i], dryRun, archiveInstead);
      }
      assert databasesToProcess[|databasesToProcess|..] == [];
    }
  }

  /** The task's `run`: a fresh `results`, every resolved database in turn, then `return results`. */
  method DeleteNotionItems(payload: Payload, store: seq<seq<QueryAnswer>>) returns (result: TaskResult, calls: seq<Call>)
    requires Covers(store, |Resolve(payload.databases)|)
    ensures State(result, calls) == Outcome(payload, store)
  {
    var run := new TaskRun();
    var databasesToProcess := Resolve(payload.databases);
    var dryRun := Truthy(payload.dryRun);
    var archiveInstead := Truthy(payload.archiveInstead);
    run.ProcessAll(databasesToProcess, store, dryRun, archiveInstead);
    result := run.Snapshot().result;
    calls := run.calls;
  }
}
