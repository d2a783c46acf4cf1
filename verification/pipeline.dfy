/**
 * The route and the task together: what a request to the delete endpoint
 * makes the task do once the forwarded payload reaches it.
 */
module Pipeline {
  import opened Common
  import NotionDatabases
  import DeleteRoute
  import opened DeleteTask
  import DeleteTaskSummary
  import DeleteTaskProperties

  /** The task payload the trigger API delivers: every defaulted field is present. */
  function TaskPayload(p: DeleteRoute.TriggerPayload): (q: Payload)
    requires p.notionToken.Some?
    ensures q.databases == Some(p.databases)
    ensures Truthy(q.dryRun) == p.dryRun && Truthy(q.archiveInstead) == p.archiveInstead
  {
    Payload(p.notionToken.value, Some(p.databases), Some(p.dryRun), Some(p.archiveInstead))
  }

  /** The route's default list of databases resolves exactly as the task's own default does. */
  lemma DefaultDatabasesAgree()
    ensures Resolve(Some(NotionDatabases.Keys())) == Resolve(None)
  {
    var keys, table := NotionDatabases.Keys(), NotionDatabases.Table;
    var a, b := Resolve(Some(keys)), Resolve(None);
    assert |a| == |b|;
    forall i | 0 <= i < |a| ensures a[i] == b[i] {
      assert keys[i] == table[i].0;
      assert NotionDatabases.Lookup(keys[i]) == Some(table[i].1);
    }
  }

  /**
   * A request that leaves `dryRun` out is a dry run end to end: the task it
   * starts makes no update call and counts nothing as successful or failed.
   */
  lemma OmittedDryRunIsSafe(body: DeleteRoute.DeleteRequest, envToken: Option<string>, reply: DeleteRoute.TriggerReply,
                            store: seq<seq<QueryAnswer>>)
    requires DeleteRoute.HasToken(body.notionToken) && body.dryRun.None?
    requires Covers(store, |body.databases.GetOr(NotionDatabases.Keys())|)
    ensures var x := DeleteRoute.Post(DeleteRoute.Parsed(body), envToken, reply);
      && x.forwarded.Some?
      && x.forwarded.value.notionToken.Some?
      && var q := TaskPayload(x.forwarded.value);
         && Covers(store, |Resolve(q.databases)|)
         && DeleteTaskSummary.Updates(Outcome(q, store).calls) == []
         && DeleteTaskProperties.Untouched(Outcome(q, store).result)
  {
    var x := DeleteRoute.Post(DeleteRoute.Parsed(body), envToken, reply);
    var q := TaskPayload(x.forwarded.value);
    DeleteTaskProperties.DryRunSafety(q, store);
  }

  /**
   * The same request sent with `dryRun: false` reaches the task as a real run:
   * every record processed is successful or failed.
   */
  lemma ExplicitRunTallies(body: DeleteRoute.DeleteRequest, envToken: Option<string>, reply: DeleteRoute.TriggerReply,
                           store: seq<seq<QueryAnswer>>)
    requires DeleteRoute.HasToken(body.notionToken) && body.dryRun == Some(false)
    requires Covers(store, |body.databases.GetOr(NotionDatabases.Keys())|)
    ensures var x := DeleteRoute.Post(DeleteRoute.Parsed(body), envToken, reply);
      && x.forwarded.Some?
      && x.forwarded.value.notionToken.Some?
      && var q := TaskPayload(x.forwarded.value);
         && Covers(store, |Resolve(q.databases)|)
         && !Truthy(q.dryRun)
         && DeleteTaskProperties.Balanced(Outcome(q, store).result)
  {
    var x := DeleteRoute.Post(DeleteRoute.Parsed(body), envToken, reply);
    var q := TaskPayload(x.forwarded.value);
    DeleteTaskProperties.PerRecordTally(q, store);
  }
}
