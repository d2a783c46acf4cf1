/**
 * What one database traversal does, stated without the step-by-step state:
 * which pages it is served, which items it processes, which messages it adds
 * to `errors`, which queries and updates it sends, and how its counters move.
 */
module DeleteTaskSummary {
  import opened Common
  import opened DeleteTask

  /** The position of the answer that ends the pagination loop: the last query made. */
  function StopIndex(answers: seq<QueryAnswer>): (k: nat)
    requires Ends(answers)
    ensures k < |answers| && Stops(answers[k])
    ensures forall j :: 0 <= j < k ==> !Stops(answers[j])
    decreases |answers|
  {
    if Stops(answers[0]) then 0
    else
      var k := StopIndex(answers[1..]);
      assert forall j :: 1 <= j <= k ==> answers[j] == answers[1..][j - 1];
      1 + k
  }

  /** The traversal ended on a failed query rather than on a last page. */
  predicate Aborted(answers: seq<QueryAnswer>)
    requires Ends(answers)
  {
    answers[StopIndex(answers)].QueryFailed?
  }

  /** The message the database's `catch` adds, if the traversal was aborted. */
  function AbortMessages(name: string, answers: seq<QueryAnswer>): (msgs: seq<string>)
    requires Ends(answers)
    ensures |msgs| == if Aborted(answers) then 1 else 0
  {
    var last := answers[StopIndex(answers)];
    if last.QueryFailed? then [DatabaseFailure(name, last.message)] else []
  }

  /** Every item of every page served before the loop ends, in order. */
  function Items(answers: seq<QueryAnswer>): seq<PageItem>
    requires Ends(answers)
    decreases |answers|
  {
    match answers[0]
    case QueryFailed(_) => []
    case Answered(response) => response.results + (if response.hasMore then Items(answers[1..]) else [])
  }

  /** The cursor a page's answer hands to the next query. */
  function CursorAfter(answer: QueryAnswer): Option<string>
  {
    if answer.Answered? then answer.response.nextCursor else None
  }

  /**
   * The queries a traversal starting at `cursor` sends: one per answer up to
   * and including the one that stops the loop, the first with `cursor` and
   * each later one with the cursor of the answer before it.
   */
  function QueryLog(id: Option<string>, answers: seq<QueryAnswer>, cursor: Option<string>): (log: seq<Call>)
    requires Ends(answers)
    ensures |log| == StopIndex(answers) + 1
  {
    seq(StopIndex(answers) + 1, j requires 0 <= j <= StopIndex(answers) =>
      QueryCall(id, if j == 0 then cursor else CursorAfter(answers[j - 1])))
  }

  function ArchivedCount(items: seq<PageItem>): (n: nat)
    ensures n <= |items|
    decreases |items|
  {
    if items == [] then 0 else (if items[0].answer.Archived? then 1 else 0) + ArchivedCount(items[1..])
  }

  function FailedCount(items: seq<PageItem>): (n: nat)
    ensures n + ArchivedCount(items) == |items|
    decreases |items|
  {
    if items == [] then 0 else (if items[0].answer.UpdateFailed? then 1 else 0) + FailedCount(items[1..])
  }

  /** The "Failed to archive page" messages of the items whose update fails. */
  function FailureMessages(name: string, items: seq<PageItem>): (msgs: seq<string>)
    ensures |msgs| == FailedCount(items)
    decreases |items|
  {
    if items == [] then []
    else
      (match items[0].answer
       case Archived => []
       case UpdateFailed(message) => [ArchiveFailure(items[0].id, name, message)])
      + FailureMessages(name, items[1..])
  }

  /** One update request per item, in order. */
  function Requests(items: seq<PageItem>, archiveInstead: bool): (reqs: seq<UpdateRequest>)
    ensures |reqs| == |items|
    ensures forall i :: 0 <= i < |items| ==> reqs[i] == RequestFor(items[i].id, archiveInstead)
  {
    seq(|items|, i requires 0 <= i < |items| => RequestFor(items[i].id, archiveInstead))
  }

  /** Counters and messages a set of items contributes, which is nothing in a dry run. */
  function Succeeded(items: seq<PageItem>, dryRun: bool): nat
  {
    if dryRun then 0 else ArchivedCount(items)
  }

  function Failed(items: seq<PageItem>, dryRun: bool): nat
  {
    if dryRun then 0 else FailedCount(items)
  }

  function Messages(name: string, items: seq<PageItem>, dryRun: bool): seq<string>
  {
    if dryRun then [] else FailureMessages(name, items)
  }

  function Sent(items: seq<PageItem>, dryRun: bool, archiveInstead: bool): seq<UpdateRequest>
  {
    if dryRun then [] else Requests(items, archiveInstead)
  }

  /** The query calls of a trace, in order. */
  function Queries(calls: seq<Call>): seq<Call>
    decreases |calls|
  {
    if calls == [] then []
    else Queries(calls[..|calls| - 1]) + (if calls[|calls| - 1].QueryCall? then [calls[|calls| - 1]] else [])
  }

  /** The update requests of a trace, in order. */
  function Updates(calls: seq<Call>): seq<UpdateRequest>
    decreases |calls|
  {
    if calls == [] then []
    else Updates(calls[..|calls| - 1]) + (if calls[|calls| - 1].UpdateCall? then [calls[|calls| - 1].request] else [])
  }

  /** The number of pauses in a trace. */
  function Pauses(calls: seq<Call>): nat
    decreases |calls|
  {
    if calls == [] then 0
    else Pauses(calls[..|calls| - 1]) + (if calls[|calls| - 1].Pause? then 1 else 0)
  }

  /** Every pause in the trace lasts 350 ms and comes right after an update request. */
  predicate Paced(calls: seq<Call>)
  {
    forall i :: 0 <= i < |calls| && calls[i].Pause? ==>
      0 < i && calls[i - 1].UpdateCall? && calls[i].milliseconds == UpdatePauseMillis
  }

  /** Add n processed, ok successful and bad failed records to the totals and to `name`'s entry, and append msgs. */
  function Bump(r: TaskResult, name: string, n: nat, ok: nat, bad: nat, msgs: seq<string>): TaskResult
    requires name in r.databaseResults
  {
    var e := r.databaseResults[name];
    r.(totalProcessed := r.totalProcessed + n, successful := r.successful + ok, failed := r.failed + bad,
       errors := r.errors + msgs,
       databaseResults := r.databaseResults[name := e.(processed := e.processed + n, successful := e.successful + ok,
                                                        failed := e.failed + bad)])
  }

  /** Two bumps of the same entry are one bump by the sums. */
  lemma BumpTwice(r: TaskResult, name: string, n1: nat, ok1: nat, bad1: nat, m1: seq<string>,
                  n2: nat, ok2: nat, bad2: nat, m2: seq<string>, n: nat, ok: nat, bad: nat, m: seq<string>)
    requires name in r.databaseResults
    requires n == n1 + n2 && ok == ok1 + ok2 && bad == bad1 + bad2 && m == m1 + m2
    ensures Bump(Bump(r, name, n1, ok1, bad1, m1), name, n2, ok2, bad2, m2) == Bump(r, name, n, ok, bad, m)
  {
  }

  lemma BumpNothing(r: TaskResult, name: string)
    requires name in r.databaseResults
    ensures Bump(r, name, 0, 0, 0, []) == r
  {
    assert r.databaseResults[name := r.databaseResults[name]] == r.databaseResults;
  }

  lemma QueriesSnoc(calls: seq<Call>, c: Call)
    ensures Queries(calls + [c]) == Queries(calls) + (if c.QueryCall? then [c] else [])
    ensures Updates(calls + [c]) == Updates(calls) + (if c.UpdateCall? then [c.request] else [])
    ensures Pauses(calls + [c]) == Pauses(calls) + (if c.Pause? then 1 else 0)
  {
    assert (calls + [c])[..|calls|] == calls;
  }

  lemma {:induction false} ArchivedAppend(a: seq<PageItem>, b: seq<PageItem>)
    ensures ArchivedCount(a + b) == ArchivedCount(a) + ArchivedCount(b)
    decreases |a|
  {
    if a == [] {
      assert a + b == b;
    } else {
      assert (a + b)[0] == a[0] && (a + b)[1..] == a[1..] + b;
      ArchivedAppend(a[1..], b);
    }
  }

  lemma {:induction false} FailedAppend(a: seq<PageItem>, b: seq<PageItem>)
    ensures FailedCount(a + b) == FailedCount(a) + FailedCount(b)
    decreases |a|
  {
    if a == [] {
      assert a + b == b;
    } else {
      assert (a + b)[0] == a[0] && (a + b)[1..] == a[1..] + b;
      FailedAppend(a[1..], b);
    }
  }

  lemma {:induction false} MessagesAppend(name: string, a: seq<PageItem>, b: seq<PageItem>)
    ensures FailureMessages(name, a + b) == FailureMessages(name, a) + FailureMessages(name, b)
    decreases |a|
  {
    if a == [] {
      assert a + b == b;
    } else {
      assert (a + b)[0] == a[0] && (a + b)[1..] == a[1..] + b;
      MessagesAppend(name, a[1..], b);
    }
  }

  /** Counts and messages of a concatenation are those of its parts, added. */
  lemma CountsAppend(name: string, a: seq<PageItem>, b: seq<PageItem>)
    ensures ArchivedCount(a + b) == ArchivedCount(a) + ArchivedCount(b)
    ensures FailedCount(a + b) == FailedCount(a) + FailedCount(b)
    ensures FailureMessages(name, a + b) == FailureMessages(name, a) + FailureMessages(name, b)
  {
    ArchivedAppend(a, b);
    FailedAppend(a, b);
    MessagesAppend(name, a, b);
  }

  lemma CountsCons(name: string, items: seq<PageItem>)
    requires items != []
    ensures ArchivedCount(items) == ArchivedCount([items[0]]) + ArchivedCount(items[1..])
    ensures FailedCount(items) == FailedCount([items[0]]) + FailedCount(items[1..])
    ensures FailureMessages(name, items) == FailureMessages(name, [items[0]]) + FailureMessages(name, items[1..])
  {
    assert items == [items[0]] + items[1..];
    CountsAppend(name, [items[0]], items[1..]);
  }

  lemma RequestsAppend(a: seq<PageItem>, b: seq<PageItem>, archiveInstead: bool)
    ensures Requests(a + b, archiveInstead) == Requests(a, archiveInstead) + Requests(b, archiveInstead)
  {
    var l, r := Requests(a + b, archiveInstead), Requests(a, archiveInstead) + Requests(b, archiveInstead);
    assert |l| == |r|;
    forall i | 0 <= i < |l| ensures l[i] == r[i] {
      if i >= |a| {
        assert (a + b)[i] == b[i - |a|];
      }
    }
  }

  /** The counts and messages of a single item. */
  lemma SingleCounts(name: string, item: PageItem)
    ensures ArchivedCount([item]) == if item.answer.Archived? then 1 else 0
    ensures FailedCount([item]) == if item.answer.Archived? then 0 else 1
    ensures FailureMessages(name, [item])
         == if item.answer.Archived? then [] else [ArchiveFailure(item.id, name, item.answer.message)]
    ensures Requests([item], true) == [RequestFor(item.id, true)]
    ensures Requests([item], false) == [RequestFor(item.id, false)]
  {
    assert [item][1..] == [];
  }

  /** One record moves the counters by one. */
  lemma TallyResult(s: State, name: string, item: PageItem, dryRun: bool, archiveInstead: bool)
    requires name in s.result.databaseResults
    ensures Tally(s, name, item, dryRun, archiveInstead).result
         == Bump(s.result, name, 1, Succeeded([item], dryRun), Failed([item], dryRun), Messages(name, [item], dryRun))
  {
    SingleCounts(name, item);
  }

  /** One record sends at most one update and no query, and pauses once if its update succeeds. */
  lemma TallyCalls(s: State, name: string, item: PageItem, dryRun: bool, archiveInstead: bool)
    requires name in s.result.databaseResults
    ensures Queries(Tally(s, name, item, dryRun, archiveInstead).calls) == Queries(s.calls)
    ensures Updates(Tally(s, name, item, dryRun, archiveInstead).calls) == Updates(s.calls) + Sent([item], dryRun, archiveInstead)
    ensures Pauses(Tally(s, name, item, dryRun, archiveInstead).calls) == Pauses(s.calls) + Succeeded([item], dryRun)
  {
    SingleCounts(name, item);
    if !dryRun {
      var update := UpdateCall(RequestFor(item.id, archiveInstead));
      QueriesSnoc(s.calls, update);
      if item.answer.Archived? {
        QueriesSnoc(s.calls + [update], Pause(UpdatePauseMillis));
      }
    }
  }

  /** Appending a call that is not a pause, or an update followed by its pause, keeps a trace paced. */
  lemma PacedSnoc(calls: seq<Call>, c: Call)
    requires Paced(calls)
    ensures !c.Pause? ==> Paced(calls + [c])
    ensures c.UpdateCall? ==> Paced(calls + [c] + [Pause(UpdatePauseMillis)])
  {
    if c.UpdateCall? {
      var t := calls + [c] + [Pause(UpdatePauseMillis)];
      forall i | 0 <= i < |t| && t[i].Pause?
        ensures 0 < i && t[i - 1].UpdateCall? && t[i].milliseconds == UpdatePauseMillis
      {
        if i < |calls| {
          assert t[i] == calls[i];
        }
      }
    }
  }

  /** One record keeps the trace paced. */
  lemma TallyPaced(s: State, name: string, item: PageItem, dryRun: bool, archiveInstead: bool)
    requires name in s.result.databaseResults
    requires Paced(s.calls)
    ensures Paced(Tally(s, name, item, dryRun, archiveInstead).calls)
  {
    PacedSnoc(s.calls, UpdateCall(RequestFor(item.id, archiveInstead)));
  }

  /** A unfolding step of the innermost loop. */
  lemma TallyAllUnfold(s: State, name: string, items: seq<PageItem>, dryRun: bool, archiveInstead: bool)
    requires name in s.result.databaseResults && items != []
    ensures name in Tally(s, name, items[0], dryRun, archiveInstead).result.databaseResults
    ensures TallyAll(s, name, items, dryRun, archiveInstead)
         == TallyAll(Tally(s, name, items[0], dryRun, archiveInstead), name, items[1..], dryRun, archiveInstead)
  {
  }

  lemma {:induction false} TallyAllResult(s: State, name: string, items: seq<PageItem>, dryRun: bool, archiveInstead: bool)
    requires name in s.result.databaseResults
    ensures TallyAll(s, name, items, dryRun, archiveInstead).result
         == Bump(s.result, name, |items|, Succeeded(items, dryRun), Failed(items, dryRun), Messages(name, items, dryRun))
    decreases |items|
  {
    if items == [] {
      assert Succeeded(items, dryRun) == 0 && Failed(items, dryRun) == 0 && Messages(name, items, dryRun) == [];
      BumpNothing(s.result, name);
    } else {
      var head, tail := [items[0]], items[1..];
      var s1 := Tally(s, name, items[0], dryRun, archiveInstead);
      var ok1, bad1, m1 := Succeeded(head, dryRun), Failed(head, dryRun), Messages(name, head, dryRun);
      var ok2, bad2, m2 := Succeeded(tail, dryRun), Failed(tail, dryRun), Messages(name, tail, dryRun);
      assert Succeeded(items, dryRun) == ok1 + ok2 && Failed(items, dryRun) == bad1 + bad2
          && Messages(name, items, dryRun) == m1 + m2 by {
        CountsCons(name, items);
      }
      var r1 := TallyAll(s1, name, tail, dryRun, archiveInstead).result;
      assert TallyAll(s, name, items, dryRun, archiveInstead).result == r1 by {
        TallyAllUnfold(s, name, items, dryRun, archiveInstead);
      }
      var b1 := Bump(s.result, name, 1, ok1, bad1, m1);
      assert s1.result == b1 by {
        TallyResult(s, name, items[0], dryRun, archiveInstead);
      }
      assert r1 == Bump(b1, name, |tail|, ok2, bad2, m2) by {
        TallyAllResult(s1, name, tail, dryRun, archiveInstead);
      }
      BumpTwice(s.result, name, 1, ok1, bad1, m1, |tail|, ok2, bad2, m2,
                |items|, Succeeded(items, dryRun), Failed(items, dryRun), Messages(name, items, dryRun));
    }
  }

  /** The innermost loop sends no query. */
  lemma {:induction false} TallyAllQueries(s: State, name: string, items: seq<PageItem>, dryRun: bool, archiveInstead: bool)
    requires name in s.result.databaseResults
    ensures Queries(TallyAll(s, name, items, dryRun, archiveInstead).calls) == Queries(s.calls)
    decreases |items|
  {
    if items != [] {
      var s1 := Tally(s, name, items[0], dryRun, archiveInstead);
      calc {
        Queries(TallyAll(s, name, items, dryRun, archiveInstead).calls);
        { TallyAllUnfold(s, name, items, dryRun, archiveInstead); }
        Queries(TallyAll(s1, name, items[1..], dryRun, archiveInstead).calls);
        { TallyAllQueries(s1, name, items[1..], dryRun, archiveInstead); }
        Queries(s1.calls);
        { TallyCalls(s, name, items[0], dryRun, archiveInstead); }
        Queries(s.calls);
      }
    }
  }

  /** The innermost loop sends one update request per item, in order, unless dry. */
  lemma {:induction false} TallyAllUpdates(s: State, name: string, items: seq<PageItem>, dryRun: bool, archiveInstead: bool)
    requires name in s.result.databaseResults
    ensures Updates(TallyAll(s, name, items, dryRun, archiveInstead).calls) == Updates(s.calls) + Sent(items, dryRun, archiveInstead)
    decreases |items|
  {
    if items != [] {
      var head, tail := [items[0]], items[1..];
      var s1 := Tally(s, name, items[0], dryRun, archiveInstead);
      var sent1, sent2 := Sent(head, dryRun, archiveInstead), Sent(tail, dryRun, archiveInstead);
      calc {
        Updates(TallyAll(s, name, items, dryRun, archiveInstead).calls);
        { TallyAllUnfold(s, name, items, dryRun, archiveInstead); }
        Updates(TallyAll(s1, name, tail, dryRun, archiveInstead).calls);
        { TallyAllUpdates(s1, name, tail, dryRun, archiveInstead); }
        Updates(s1.calls) + sent2;
        { TallyCalls(s, name, items[0], dryRun, archiveInstead); }
        Updates(s.calls) + sent1 + sent2;
        Updates(s.calls) + (sent1 + sent2);
        { assert items == head + tail;
          if !dryRun { RequestsAppend(head, tail, archiveInstead); } }
        Updates(s.calls) + Sent(items, dryRun, archiveInstead);
      }
    }
  }

  /** The innermost loop pauses once per successful update, which is never in a dry run. */
  lemma {:induction false} TallyAllPauses(s: State, name: string, items: seq<PageItem>, dryRun: bool, archiveInstead: bool)
    requires name in s.result.databaseResults
    ensures Pauses(TallyAll(s, name, items, dryRun, archiveInstead).calls) == Pauses(s.calls) + Succeeded(items, dryRun)
    decreases |items|
  {
    if items != [] {
      var head, tail := [items[0]], items[1..];
      var s1 := Tally(s, name, items[0], dryRun, archiveInstead);
      TallyAllUnfold(s, name, items, dryRun, archiveInstead);
      TallyAllPauses(s1, name, tail, dryRun, archiveInstead);
      TallyCalls(s, name, items[0], dryRun, archiveInstead);
      assert items == head + tail;
      ArchivedAppend(head, tail);
    }
  }

  /** The innermost loop keeps the trace paced. */
  lemma {:induction false} TallyAllPaced(s: State, name: string, items: seq<PageItem>, dryRun: bool, archiveInstead: bool)
    requires name in s.result.databaseResults
    requires Paced(s.calls)
    ensures Paced(TallyAll(s, name, items, dryRun, archiveInstead).calls)
    decreases |items|
  {
    if items != [] {
      var s1 := Tally(s, name, items[0], dryRun, archiveInstead);
      TallyAllUnfold(s, name, items, dryRun, archiveInstead);
      TallyPaced(s, name, items[0], dryRun, archiveInstead);
      TallyAllPaced(s1, name, items[1..], dryRun, archiveInstead);
    }
  }

  /** A traversal that goes on past its first answer: the log is that query followed by the rest's. */
  lemma QueryLogUnfold(id: Option<string>, answers: seq<QueryAnswer>, cursor: Option<string>)
    requires Ends(answers) && !Stops(answers[0])
    ensures Ends(answers[1..])
    ensures StopIndex(answers) == 1 + StopIndex(answers[1..])
    ensures QueryLog(id, answers, cursor) == [QueryCall(id, cursor)] + QueryLog(id, answers[1..], CursorAfter(answers[0]))
  {
    var rest := answers[1..];
    var a := QueryLog(id, answers, cursor);
    var b := [QueryCall(id, cursor)] + QueryLog(id, rest, CursorAfter(answers[0]));
    assert |a| == |b|;
    forall j | 0 <= j < |a| ensures a[j] == b[j] {
      if j > 1 {
        assert answers[j - 1] == rest[j - 2];
      }
    }
  }

  lemma AbortMessagesUnfold(name: string, answers: seq<QueryAnswer>)
    requires Ends(answers) && !Stops(answers[0])
    ensures Ends(answers[1..])
    ensures AbortMessages(name, answers) == AbortMessages(name, answers[1..])
  {
    assert answers[1 + StopIndex(answers[1..])] == answers[1..][StopIndex(answers[1..])];
  }

  /** A pagination loop that goes past its first answer: the first page's items, then the rest of the loop. */
  lemma PaginateStep(s: State, db: DatabaseRef, answers: seq<QueryAnswer>, cursor: Option<string>,
                     dryRun: bool, archiveInstead: bool)
    requires db.name in s.result.databaseResults
    requires Ends(answers) && !Stops(answers[0])
    ensures Ends(answers[1..])
    ensures var queried := s.(calls := s.calls + [QueryCall(db.id, cursor)]);
      var tallied := TallyAll(queried, db.name, answers[0].response.results, dryRun, archiveInstead);
      Paginate(s, db, answers, cursor, dryRun, archiveInstead)
      == Paginate(tallied, db, answers[1..], answers[0].response.nextCursor, dryRun, archiveInstead)
    ensures Items(answers) == answers[0].response.results + Items(answers[1..])
  {
  }

  /** A pagination loop that stops at its first answer. */
  lemma PaginateLast(s: State, db: DatabaseRef, answers: seq<QueryAnswer>, cursor: Option<string>,
                     dryRun: bool, archiveInstead: bool)
    requires db.name in s.result.databaseResults
    requires Ends(answers) && Stops(answers[0])
    ensures StopIndex(answers) == 0
    ensures QueryLog(db.id, answers, cursor) == [QueryCall(db.id, cursor)]
    ensures var queried := s.(calls := s.calls + [QueryCall(db.id, cursor)]);
      Paginate(s, db, answers, cursor, dryRun, archiveInstead)
      == if answers[0].QueryFailed?
         then queried.(result := queried.result.(errors := queried.result.errors + [DatabaseFailure(db.name, answers[0].message)]))
         else TallyAll(queried, db.name, answers[0].response.results, dryRun, archiveInstead)
    ensures Items(answers) == if answers[0].QueryFailed? then [] else answers[0].response.results
  {
    assert QueryLog(db.id, answers, cursor)[0] == QueryCall(db.id, cursor);
  }

  /** The counters and messages of a pagination loop are those of the items it is served, then the abort message. */
  lemma {:induction false} PaginateResult(s: State, db: DatabaseRef, answers: seq<QueryAnswer>, cursor: Option<string>,
                                          dryRun: bool, archiveInstead: bool)
    requires db.name in s.result.databaseResults
    requires Ends(answers)
    ensures var items := Items(answers);
      Paginate(s, db, answers, cursor, dryRun, archiveInstead).result
      == Bump(s.result, db.name, |items|, Succeeded(items, dryRun), Failed(items, dryRun),
              Messages(db.name, items, dryRun) + AbortMessages(db.name, answers))
    decreases |answers|
  {
    var name := db.name;
    var queried := s.(calls := s.calls + [QueryCall(db.id, cursor)]);
    if Stops(answers[0]) {
      PaginateLast(s, db, answers, cursor, dryRun, archiveInstead);
      if answers[0].QueryFailed? {
        assert s.result.databaseResults[name := s.result.databaseResults[name]] == s.result.databaseResults;
      } else {
        TallyAllResult(queried, name, answers[0].response.results, dryRun, archiveInstead);
      }
    } else {
      var results := answers[0].response.results;
      var rest := answers[1..];
      assert Ends(rest);
      var tallied := TallyAll(queried, name, results, dryRun, archiveInstead);
      var abort := AbortMessages(name, rest);
      calc {
        Paginate(s, db, answers, cursor, dryRun, archiveInstead).result;
        { PaginateStep(s, db, answers, cursor, dryRun, archiveInstead); }
        Paginate(tallied, db, rest, answers[0].response.nextCursor, dryRun, archiveInstead).result;
        { PaginateResult(tallied, db, rest, answers[0].response.nextCursor, dryRun, archiveInstead); }
        Bump(tallied.result, name, |Items(rest)|, Succeeded(Items(rest), dryRun), Failed(Items(rest), dryRun),
             Messages(name, Items(rest), dryRun) + abort);
        { TallyAllResult(queried, name, results, dryRun, archiveInstead); }
        Bump(Bump(s.result, name, |results|, Succeeded(results, dryRun), Failed(results, dryRun), Messages(name, results, dryRun)),
             name, |Items(rest)|, Succeeded(Items(rest), dryRun), Failed(Items(rest), dryRun),
             Messages(name, Items(rest), dryRun) + abort);
        { PaginateResultCombine(s.result, name, results, Items(rest), abort, dryRun); }
        Bump(s.result, name, |results + Items(rest)|, Succeeded(results + Items(rest), dryRun),
             Failed(results + Items(rest), dryRun), Messages(name, results + Items(rest), dryRun) + abort);
        { PaginateStep(s, db, answers, cursor, dryRun, archiveInstead);
          AbortMessagesUnfold(name, answers); }
        Bump(s.result, name, |Items(answers)|, Succeeded(Items(answers), dryRun), Failed(Items(answers), dryRun),
             Messages(name, Items(answers), dryRun) + AbortMessages(name, answers));
      }
    }
  }

  lemma PaginateResultCombine(r: TaskResult, name: string, a: seq<PageItem>, b: seq<PageItem>, abort: seq<string>, dryRun: bool)
    requires name in r.databaseResults
    ensures Bump(Bump(r, name, |a|, Succeeded(a, dryRun), Failed(a, dryRun), Messages(name, a, dryRun)),
                 name, |b|, Succeeded(b, dryRun), Failed(b, dryRun), Messages(name, b, dryRun) + abort)
         == Bump(r, name, |a + b|, Succeeded(a + b, dryRun), Failed(a + b, dryRun), Messages(name, a + b, dryRun) + abort)
  {
    var ok1, bad1, m1 := Succeeded(a, dryRun), Failed(a, dryRun), Messages(name, a, dryRun);
    var ok2, bad2, m2 := Succeeded(b, dryRun), Failed(b, dryRun), Messages(name, b, dryRun);
    assert Succeeded(a + b, dryRun) == ok1 + ok2 && Failed(a + b, dryRun) == bad1 + bad2
        && Messages(name, a + b, dryRun) + abort == m1 + (m2 + abort) by {
      CountsAppend(name, a, b);
    }
    BumpTwice(r, name, |a|, ok1, bad1, m1, |b|, ok2, bad2, m2 + abort,
              |a + b|, Succeeded(a + b, dryRun), Failed(a + b, dryRun), Messages(name, a + b, dryRun) + abort);
  }

  /** A pagination loop sends exactly the queries of `QueryLog`. */
  lemma {:induction false} PaginateQueries(s: State, db: DatabaseRef, answers: seq<QueryAnswer>, cursor: Option<string>,
                                           dryRun: bool, archiveInstead: bool)
    requires db.name in s.result.databaseResults
    requires Ends(answers)
    ensures Queries(Paginate(s, db, answers, cursor, dryRun, archiveInstead).calls)
         == Queries(s.calls) + QueryLog(db.id, answers, cursor)
    decreases |answers|
  {
    var queried := s.(calls := s.calls + [QueryCall(db.id, cursor)]);
    var first := [QueryCall(db.id, cursor)];
    assert Queries(queried.calls) == Queries(s.calls) + first by {
      QueriesSnoc(s.calls, QueryCall(db.id, cursor));
    }
    if Stops(answers[0]) {
      PaginateLast(s, db, answers, cursor, dryRun, archiveInstead);
      if answers[0].Answered? {
        TallyAllQueries(queried, db.name, answers[0].response.results, dryRun, archiveInstead);
      }
    } else {
      var next := answers[0].response.nextCursor;
      var rest := answers[1..];
      assert Ends(rest);
      var tallied := TallyAll(queried, db.name, answers[0].response.results, dryRun, archiveInstead);
      var log := QueryLog(db.id, rest, next);
      calc {
        Queries(Paginate(s, db, answers, cursor, dryRun, archiveInstead).calls);
        { PaginateStep(s, db, answers, cursor, dryRun, archiveInstead); }
        Queries(Paginate(tallied, db, rest, next, dryRun, archiveInstead).calls);
        { PaginateQueries(tallied, db, rest, next, dryRun, archiveInstead); }
        Queries(tallied.calls) + log;
        { TallyAllQueries(queried, db.name, answers[0].response.results, dryRun, archiveInstead); }
        Queries(s.calls) + first + log;
        Queries(s.calls) + (first + log);
        { QueryLogUnfold(db.id, answers, cursor); }
        Queries(s.calls) + QueryLog(db.id, answers, cursor);
      }
    }
  }

  /** A pagination loop sends one update request per item it is served, in order, unless dry. */
  lemma {:induction false} PaginateUpdates(s: State, db: DatabaseRef, answers: seq<QueryAnswer>, cursor: Option<string>,
                                           dryRun: bool, archiveInstead: bool)
    requires db.name in s.result.databaseResults
    requires Ends(answers)
    ensures Updates(Paginate(s, db, answers, cursor, dryRun, archiveInstead).calls)
         == Updates(s.calls) + Sent(Items(answers), dryRun, archiveInstead)
    decreases |answers|
  {
    var queried := s.(calls := s.calls + [QueryCall(db.id, cursor)]);
    assert Updates(queried.calls) == Updates(s.calls) by {
      QueriesSnoc(s.calls, QueryCall(db.id, cursor));
    }
    if Stops(answers[0]) {
      PaginateLast(s, db, answers, cursor, dryRun, archiveInstead);
      if answers[0].Answered? {
        TallyAllUpdates(queried, db.name, answers[0].response.results, dryRun, archiveInstead);
      }
    } else {
      var results := answers[0].response.results;
      var next := answers[0].response.nextCursor;
      var rest := answers[1..];
      assert Ends(rest);
      var tallied := TallyAll(queried, db.name, results, dryRun, archiveInstead);
      var sent1, sent2 := Sent(results, dryRun, archiveInstead), Sent(Items(rest), dryRun, archiveInstead);
      calc {
        Updates(Paginate(s, db, answers, cursor, dryRun, archiveInstead).calls);
        { PaginateStep(s, db, answers, cursor, dryRun, archiveInstead); }
        Updates(Paginate(tallied, db, rest, next, dryRun, archiveInstead).calls);
        { PaginateUpdates(tallied, db, rest, next, dryRun, archiveInstead); }
        Updates(tallied.calls) + sent2;
        { TallyAllUpdates(queried, db.name, results, dryRun, archiveInstead); }
        Updates(s.calls) + sent1 + sent2;
        Updates(s.calls) + (sent1 + sent2);
        { if !dryRun { RequestsAppend(results, Items(rest), archiveInstead); }
          PaginateStep(s, db, answers, cursor, dryRun, archiveInstead); }
        Updates(s.calls) + Sent(Items(answers), dryRun, archiveInstead);
      }
    }
  }

  /** A pagination loop pauses once per successful update of the items it is served. */
  lemma {:induction false} PaginatePauses(s: State, db: DatabaseRef, answers: seq<QueryAnswer>, cursor: Option<string>,
                                          dryRun: bool, archiveInstead: bool)
    requires db.name in s.result.databaseResults
    requires Ends(answers)
    ensures Pauses(Paginate(s, db, answers, cursor, dryRun, archiveInstead).calls)
         == Pauses(s.calls) + Succeeded(Items(answers), dryRun)
    decreases |answers|
  {
    var queried := s.(calls := s.calls + [QueryCall(db.id, cursor)]);
    QueriesSnoc(s.calls, QueryCall(db.id, cursor));
    if Stops(answers[0]) {
      PaginateLast(s, db, answers, cursor, dryRun, archiveInstead);
      if answers[0].Answered? {
        TallyAllPauses(queried, db.name, answers[0].response.results, dryRun, archiveInstead);
      }
    } else {
      var results := answers[0].response.results;
      var rest := answers[1..];
      PaginateStep(s, db, answers, cursor, dryRun, archiveInstead);
      var tallied := TallyAll(queried, db.name, results, dryRun, archiveInstead);
      TallyAllPauses(queried, db.name, results, dryRun, archiveInstead);
      PaginatePauses(tallied, db, rest, answers[0].response.nextCursor, dryRun, archiveInstead);
      ArchivedAppend(results, Items(rest));
    }
  }

  /** A pagination loop keeps the trace paced. */
  lemma {:induction false} PaginatePaced(s: State, db: DatabaseRef, answers: seq<QueryAnswer>, cursor: Option<string>,
                                         dryRun: bool, archiveInstead: bool)
    requires db.name in s.result.databaseResults
    requires Ends(answers) && Paced(s.calls)
    ensures Paced(Paginate(s, db, answers, cursor, dryRun, archiveInstead).calls)
    decreases |answers|
  {
    var queried := s.(calls := s.calls + [QueryCall(db.id, cursor)]);
    PacedSnoc(s.calls, QueryCall(db.id, cursor));
    if Stops(answers[0]) {
      PaginateLast(s, db, answers, cursor, dryRun, archiveInstead);
      if answers[0].Answered? {
        TallyAllPaced(queried, db.name, answers[0].response.results, dryRun, archiveInstead);
      }
    } else {
      PaginateStep(s, db, answers, cursor, dryRun, archiveInstead);
      var tallied := TallyAll(queried, db.name, answers[0].response.results, dryRun, archiveInstead);
      TallyAllPaced(queried, db.name, answers[0].response.results, dryRun, archiveInstead);
      PaginatePaced(tallied, db, answers[1..], answers[0].response.nextCursor, dryRun, archiveInstead);
    }
  }

  /** The counters one traversal adds to the totals. */
  lemma TraverseTotals(s: State, db: DatabaseRef, answers: seq<QueryAnswer>, dryRun: bool, archiveInstead: bool)
    requires Ends(answers)
    ensures var t := Traverse(s, db, answers, dryRun, archiveInstead).result; var items := Items(answers);
      && t.totalProcessed == s.result.totalProcessed + |items|
      && t.successful == s.result.successful + Succeeded(items, dryRun)
      && t.failed == s.result.failed + Failed(items, dryRun)
  {
    PaginateResult(Reset(s, db.name), db, answers, None, dryRun, archiveInstead);
  }

  /** One traversal replaces its database's entry with its own counts and leaves the other entries alone. */
  lemma TraverseEntries(s: State, db: DatabaseRef, answers: seq<QueryAnswer>, dryRun: bool, archiveInstead: bool)
    requires Ends(answers)
    ensures var items := Items(answers);
      Traverse(s, db, answers, dryRun, archiveInstead).result.databaseResults
      == s.result.databaseResults[db.name := DatabaseResult(db.name, |items|, Succeeded(items, dryRun), Failed(items, dryRun))]
  {
    PaginateResult(Reset(s, db.name), db, answers, None, dryRun, archiveInstead);
  }

  /** One traversal appends the failure messages of its items, then the abort message if its query failed. */
  lemma TraverseErrors(s: State, db: DatabaseRef, answers: seq<QueryAnswer>, dryRun: bool, archiveInstead: bool)
    requires Ends(answers)
    ensures Traverse(s, db, answers, dryRun, archiveInstead).result.errors
         == s.result.errors + Messages(db.name, Items(answers), dryRun) + AbortMessages(db.name, answers)
  {
    PaginateResult(Reset(s, db.name), db, answers, None, dryRun, archiveInstead);
  }

  /** One traversal's queries. */
  lemma TraverseQueries(s: State, db: DatabaseRef, answers: seq<QueryAnswer>, dryRun: bool, archiveInstead: bool)
    requires Ends(answers)
    ensures Queries(Traverse(s, db, answers, dryRun, archiveInstead).calls) == Queries(s.calls) + QueryLog(db.id, answers, None)
  {
    PaginateQueries(Reset(s, db.name), db, answers, None, dryRun, archiveInstead);
  }

  /** One traversal's update requests. */
  lemma TraverseUpdates(s: State, db: DatabaseRef, answers: seq<QueryAnswer>, dryRun: bool, archiveInstead: bool)
    requires Ends(answers)
    ensures Updates(Traverse(s, db, answers, dryRun, archiveInstead).calls)
         == Updates(s.calls) + Sent(Items(answers), dryRun, archiveInstead)
  {
    PaginateUpdates(Reset(s, db.name), db, answers, None, dryRun, archiveInstead);
  }

  /** One traversal pauses once per successful update of the items it is served, which is never in a dry run. */
  lemma TraversePauses(s: State, db: DatabaseRef, answers: seq<QueryAnswer>, dryRun: bool, archiveInstead: bool)
    requires Ends(answers)
    ensures Pauses(Traverse(s, db, answers, dryRun, archiveInstead).calls) == Pauses(s.calls) + Succeeded(Items(answers), dryRun)
  {
    PaginatePauses(Reset(s, db.name), db, answers, None, dryRun, archiveInstead);
  }

  /** One traversal keeps the trace paced. */
  lemma TraversePaced(s: State, db: DatabaseRef, answers: seq<QueryAnswer>, dryRun: bool, archiveInstead: bool)
    requires Ends(answers) && Paced(s.calls)
    ensures Paced(Traverse(s, db, answers, dryRun, archiveInstead).calls)
  {
    PaginatePaced(Reset(s, db.name), db, answers, None, dryRun, archiveInstead);
  }

  /**
   * One database traversal: its entry holds exactly the counts of this
   * traversal (an earlier entry of the same name is discarded), the totals
   * grow by the same counts, `errors` grows by the items' failure messages
   * and then the abort message, nothing else in `databaseResults` changes,
   * and it pauses once after every successful update.
   */
  lemma TraverseEffect(s: State, db: DatabaseRef, answers: seq<QueryAnswer>, dryRun: bool, archiveInstead: bool)
    requires Ends(answers)
    ensures var t := Traverse(s, db, answers, dryRun, archiveInstead); var items := Items(answers);
      && t.result.databaseResults
         == s.result.databaseResults[db.name := DatabaseResult(db.name, |items|, Succeeded(items, dryRun), Failed(items, dryRun))]
      && t.result.totalProcessed == s.result.totalProcessed + |items|
      && t.result.successful == s.result.successful + Succeeded(items, dryRun)
      && t.result.failed == s.result.failed + Failed(items, dryRun)
      && t.result.errors == s.result.errors + Messages(db.name, items, dryRun) + AbortMessages(db.name, answers)
      && Queries(t.calls) == Queries(s.calls) + QueryLog(db.id, answers, None)
      && Updates(t.calls) == Updates(s.calls) + Sent(items, dryRun, archiveInstead)
      && Pauses(t.calls) == Pauses(s.calls) + Succeeded(items, dryRun)
  {
    TraverseTotals(s, db, answers, dryRun, archiveInstead);
    TraverseEntries(s, db, answers, dryRun, archiveInstead);
    TraverseErrors(s, db, answers, dryRun, archiveInstead);
    TraverseQueries(s, db, answers, dryRun, archiveInstead);
    TraverseUpdates(s, db, answers, dryRun, archiveInstead);
    TraversePauses(s, db, answers, dryRun, archiveInstead);
  }
}
