/**
 * The `POST` handler of the delete endpoint: it checks that a token was
 * given, fills in the defaults of the task payload, asks the task runner to
 * start the task, and answers with what was started.
 *
 * `request.json()`, `process.env` and `fetch` are abstracted: the parsed body
 * (or the parse error), the configured fallback token, and the trigger API's
 * reply are inputs. The result records the payload handed to `fetch`, if any,
 * together with the HTTP response.
 */
module DeleteRoute {
  import opened Common
  import NotionDatabases

  /** DeleteRequest; `filter` is passed through untouched and left out. */
  datatype DeleteRequest = DeleteRequest(
    notionToken: Option<string>,
    databases: Option<seq<string>>,
    dryRun: Option<bool>,
    archiveInstead: Option<bool>)

  /** What `await request.json()` produces: the body, or the message of the error it throws. */
  datatype ParsedBody = Parsed(body: DeleteRequest) | Unparsable(message: string)

  /** The `payload` sent to the trigger API. */
  datatype TriggerPayload = TriggerPayload(
    notionToken: Option<string>,
    databases: seq<string>,
    dryRun: bool,
    archiveInstead: bool)

  /** A value thrown inside the handler: an `Error` with its message, or anything else. */
  datatype Thrown = ErrorValue(message: string) | OtherValue

  /** How the trigger request ends: an ok response with the task id, a non-ok response with its text, or a throw. */
  datatype TriggerReply = Accepted(taskId: string) | Rejected(text: string) | Threw(thrown: Thrown)

  datatype ResponseBody =
    | ErrorBody(error: string)
    | TriggeredBody(message: string, taskId: string, dryRun: bool, databases: seq<string>, action: string)

  datatype Response = Response(status: nat, body: ResponseBody)

  /** The payload handed to `fetch`, if the handler got that far, and the response returned. */
  datatype Exchange = Exchange(forwarded: Option<TriggerPayload>, response: Response)

  /** `!body.notionToken` is false: the token is present and not empty. */
  predicate HasToken(token: Option<string>): (b: bool)
    ensures token.None? || token == Some("") ==> !b
    ensures b ==> |token.value| > 0
  {
    token.Some? && token.value != ""
  }

  /** The body of the response the `catch` block builds. */
  function ErrorMessage(thrown: Thrown): (message: string)
    ensures thrown.ErrorValue? ==> message == thrown.message
    ensures thrown.OtherValue? ==> message == "Internal server error"
  {
    match thrown
    case ErrorValue(message) => message
    case OtherValue => "Internal server error"
  }

  function SuccessMessage(archiving: bool): (message: string)
    ensures archiving ==> message == "Task triggered successfully (archiving items)"
    ensures !archiving ==> message == "Task triggered successfully (deleting items)"
  {
    "Task triggered successfully (" + (if archiving then "archiving" else "deleting") + " items)"
  }

  /** The `action` field of a successful response. */
  function Action(archiving: bool): (action: string)
    ensures action == "archive" <==> archiving
    ensures action == "delete" <==> !archiving
  {
    if archiving then "archive" else "delete"
  }

  /** The payload of lines 52-58: the token (or the configured one), and the defaulted fields. */
  function ForwardedPayload(body: DeleteRequest, envToken: Option<string>): (p: TriggerPayload)
    ensures HasToken(body.notionToken) ==> p.notionToken == body.notionToken
    ensures p.databases == if body.databases.Some? then body.databases.value else NotionDatabases.Keys()
    ensures p.dryRun <==> body.dryRun != Some(false)
    ensures p.archiveInstead <==> body.archiveInstead != Some(false)
  {
    TriggerPayload(
      if HasToken(body.notionToken) then body.notionToken else envToken,
      if body.databases.Some? then body.databases.value else NotionDatabases.Keys(),
      body.dryRun.GetOr(true),
      body.archiveInstead.GetOr(true))
  }

  /** `POST(request)`. */
  function Post(parsed: ParsedBody, envToken: Option<string>, reply: TriggerReply): (x: Exchange)
    ensures parsed.Unparsable? ==> x == Exchange(None, Response(500, ErrorBody(parsed.message)))
    ensures parsed.Parsed? && !HasToken(parsed.body.notionToken) ==>
      x == Exchange(None, Response(400, ErrorBody("notionToken is required")))
    ensures x.forwarded.Some? <==> parsed.Parsed? && HasToken(parsed.body.notionToken)
    ensures x.forwarded.Some? ==> x.forwarded.value == ForwardedPayload(parsed.body, envToken)
    ensures x.response.status == 200 <==> x.forwarded.Some? && reply.Accepted?
    ensures x.forwarded.Some? && reply.Rejected? ==>
      x.response == Response(500, ErrorBody("Failed to trigger task: " + reply.text))
    ensures x.forwarded.Some? && reply.Threw? ==> x.response == Response(500, ErrorBody(ErrorMessage(reply.thrown)))
    ensures x.response.status == 200 ==>
      var p := x.forwarded.value;
      && x.response.body.TriggeredBody?
      && x.response.body.taskId == reply.taskId
      && x.response.body.dryRun == p.dryRun
      && x.response.body.databases == p.databases
      && (x.response.body.action == "archive" <==> p.archiveInstead)
      && (x.response.body.action == "delete" <==> !p.archiveInstead)
      && x.response.body.message == SuccessMessage(p.archiveInstead)
  {
    match parsed
    case Unparsable(message) => Exchange(None, Response(500, ErrorBody(message)))
    case Parsed(body) =>
      if !HasToken(body.notionToken) then
        Exchange(None, Response(400, ErrorBody("notionToken is required")))
      else
        var payload := ForwardedPayload(body, envToken);
        match reply
        case Rejected(text) => Exchange(Some(payload), Response(500, ErrorBody("Failed to trigger task: " + text)))
        case Threw(thrown) => Exchange(Some(payload), Response(500, ErrorBody(ErrorMessage(thrown))))
        case Accepted(taskId) =>
          var archiving := body.archiveInstead.GetOr(true);
          Exchange(Some(payload), Response(200, TriggeredBody(
            SuccessMessage(archiving),
            taskId,
            body.dryRun.GetOr(true),
            if body.databases.Some? then body.databases.value else NotionDatabases.Keys(),
            Action(archiving))))
  }

  /** The configured fallback token never matters: a missing token is rejected before it could be used. */
  lemma FallbackTokenUnused(parsed: ParsedBody, env1: Option<string>, env2: Option<string>, reply: TriggerReply)
    ensures Post(parsed, env1, reply) == Post(parsed, env2, reply)
    ensures Post(parsed, env1, reply).forwarded.Some? ==>
      Post(parsed, env1, reply).forwarded.value.notionToken == parsed.body.notionToken
  {
  }
}
