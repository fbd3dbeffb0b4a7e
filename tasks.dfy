/** Deployment constants of the background-task endpoint, shared by the task
    builder and the request validator. */
module TaskConfig {
  const PROJECT_ID := "XXXXXXX"
  const SERVICE_ACCOUNT_EMAIL := "xxxxxxxxxxxxxxx"
  /** The URL Cloud Tasks posts to, which is also the audience of its OIDC token. */
  const TRIGGER_URL := "xxxxxxxxxxxxx"
}

/** Background tasks of the story bot: `run_as_background_task` builds the
    Cloud Tasks request that carries one unit of deferred work, and
    `process_background_task` validates the queue's call, recovers the user
    and space from the thread id, resolves the API key and picks the story
    action to run. */
module Tasks {

  import opened Wrappers
  import opened Strings
  import opened Cards
  import opened TaskConfig
  import opened Messages
  import Auth
  import Events
  import Models
  import Datastore
  import Story

  /** The JSON values a task payload holds. */
  datatype Json = JNull | JBool(b: bool) | JString(s: string)

  type Payload = map<string, Json>

  const LOCATION := "us-central1"
  const QUEUE := "story-queue"
  /** The shared fallback key used when the key lookup raises. */
  const MY_API_KEY := "sk-xxxxxxxxxxxxxxxxxxx"

  const PAYLOAD_KEYS := {"background_task", "action", "thread_id", "user_text", "message_id_to_update"}

  /** The payload of a task: the four arguments under their own names, and a
      marker that it is a background task. */
  function MakePayload(action: Json, threadId: Json, userText: Json, messageIdToUpdate: Json): (p: Payload)
    ensures p.Keys == PAYLOAD_KEYS
    ensures p["background_task"] == JBool(true)
  {
    map["background_task" := JBool(true),
        "action" := action,
        "thread_id" := threadId,
        "user_text" := userText,
        "message_id_to_update" := messageIdToUpdate]
  }

  /** `dict.get(key)`: the value, or `None` when absent. */
  function Get(data: Payload, key: string): (v: Json)
    ensures key !in data ==> v == JNull
  {
    if key in data then data[key] else JNull
  }

  /** What the worker reads back from a payload is what was put in. */
  lemma PayloadRoundTrip(action: Json, threadId: Json, userText: Json, messageIdToUpdate: Json)
    ensures var p := MakePayload(action, threadId, userText, messageIdToUpdate);
      && Get(p, "action") == action
      && Get(p, "thread_id") == threadId
      && Get(p, "user_text") == userText
      && Get(p, "message_id_to_update") == messageIdToUpdate
  {
  }

  datatype HttpMethod = POST

  datatype OidcToken = OidcToken(serviceAccountEmail: string, audience: string)

  /** The task's `http_request`; the body is the payload, whose JSON encoding
      is not modelled. */
  datatype HttpRequest = HttpRequest(
    httpMethod: HttpMethod,
    url: string,
    headers: map<string, string>,
    oidcToken: OidcToken,
    body: Payload)

  /** `tasks_client.queue_path(PROJECT_ID, LOCATION, QUEUE)` */
  datatype QueuePath = QueuePath(project: string, location: string, queue: string)

  /** The argument of `tasks_client.create_task`. */
  datatype CreateTask = CreateTask(parent: QueuePath, task: HttpRequest)

  /** `run_as_background_task(action, thread_id, user_text, message_id_to_update)`:
      the request it submits to the queue. */
  function RunAsBackgroundTask(action: Json, threadId: Json, userText: Json, messageIdToUpdate: Json): (req: CreateTask)
    ensures req.parent == QueuePath(PROJECT_ID, "us-central1", "story-queue")
    ensures req.task.httpMethod == POST && req.task.url == TRIGGER_URL
    ensures req.task.oidcToken == OidcToken(SERVICE_ACCOUNT_EMAIL, req.task.url)
    ensures req.task.headers == map["Content-type" := "application/json"]
    ensures req.task.body == MakePayload(action, threadId, userText, messageIdToUpdate)
  {
    var payload := MakePayload(action, threadId, userText, messageIdToUpdate);
    CreateTask(
      QueuePath(PROJECT_ID, LOCATION, QUEUE),
      HttpRequest(POST, TRIGGER_URL, map["Content-type" := "application/json"],
                  OidcToken(SERVICE_ACCOUNT_EMAIL, TRIGGER_URL), payload))
  }

  /** `thread_id.split("-")`: the user id (first piece) and the space name
      (`spaces/` + second piece). `AttributeError` when the thread id is not a
      string, `IndexError` when it has no `-`. */
  function SplitThreadId(threadId: Json): (r: Outcome<(string, string)>)
    ensures r.Ok? <==> threadId.JString? && '-' in threadId.s
    ensures r.Ok? ==>
      && r.value.0 == threadId.s[..IndexOf(threadId.s, '-')]
      && r.value.1 == "spaces/" + Split(threadId.s, '-')[1]
  {
    match threadId
    case JString(s) =>
      var parts := Split(s, '-');
      if |parts| < 2 then Raised("IndexError: list index out of range")
      else Ok((parts[0], "spaces/" + parts[1]))
    case _ => Raised("AttributeError: object has no attribute 'split'")
  }

  /** Splitting a thread id built for a direct message recovers the user id
      and the space name, provided neither id contains `-`. */
  lemma {:induction false} ThreadIdRoundTrip(userId: string, spaceId: string)
    requires '-' !in userId && '-' !in spaceId
    ensures Events.ThreadId(userId, spaceId, "DIRECT_MESSAGE") == Some(userId + "-" + spaceId)
    ensures SplitThreadId(JString(userId + "-" + spaceId)) == Ok((userId, "spaces/" + spaceId))
  {
    assert Join([userId, spaceId][1..], '-') == spaceId;
    assert Join([userId, spaceId], '-') == userId + "-" + spaceId;
    SplitJoin([userId, spaceId], '-');
  }

  /** The proviso is needed: whenever the user id or the space id contains
      `-`, splitting the thread id does not recover the pair. A dash in the
      user id shortens the user piece; with a dash-free user id, a dash in the
      space id cuts the space piece short. */
  lemma {:induction false} RoundTripOnlyIfDashFree(userId: string, spaceId: string)
    requires '-' in userId || '-' in spaceId
    ensures SplitThreadId(JString(userId + "-" + spaceId)) != Ok((userId, "spaces/" + spaceId))
  {
    var id := userId + "-" + spaceId;
    assert id[|userId|] == '-';
    var i := IndexOf(id, '-');
    var r := SplitThreadId(JString(id));
    assert r.Ok? && r.value.0 == id[..i];
    if '-' in userId {
      var k :| 0 <= k < |userId| && userId[k] == '-';
      assert id[k] == '-';
      IndexOfAtMost(id, '-', k);
      assert |r.value.0| < |userId|;
    } else {
      IndexOfAtMost(id, '-', |userId|);
      assert forall j :: 0 <= j < |userId| ==> id[j] == userId[j];
      assert i == |userId|;
      assert id[i + 1..] == spaceId;
      var rest := Split(spaceId, '-');
      assert Split(id, '-') == [id[..i]] + rest;
      assert r.value.1 == "spaces/" + rest[0];
      assert '-' !in rest[0] && rest[0] != spaceId;
      assert ("spaces/" + rest[0])[|"spaces/"|..] == rest[0];
      assert ("spaces/" + spaceId)[|"spaces/"|..] == spaceId;
    }
  }

  /** An instance: a user id `a-b` in space `c` comes back as user `a` in
      space `spaces/b`. */
  lemma DashInUserIdBreaksRoundTrip()
    ensures SplitThreadId(JString("a-b" + "-" + "c")) == Ok(("a", "spaces/b"))
  {
    var parts := ["a", "b", "c"];
    assert Join(["c"], '-') == "c";
    JoinCons("b", ["c"], '-');
    JoinCons("a", ["b", "c"], '-');
    assert ["a"] + ["b", "c"] == parts;
    assert Join(parts, '-') == "a-b" + "-" + "c";
    SplitJoin(parts, '-');
    var id := "a-b" + "-" + "c";
    assert Split(id, '-') == parts;
    assert "spaces/" + parts[1] == "spaces/b";
    assert SplitThreadId(JString(id)) == Ok((parts[0], "spaces/" + parts[1]));
  }

  /** The story operation a validated task runs, with the arguments it gets. */
  datatype StoryAction =
    | ProcessStoryMessage(threadId: Json, userText: Json, messages: seq<Message>)
    | HandleStoryCommand(userText: Json, threadId: Json)
    | NoAction

  /** The two action tags that start story work. */
  const STORY_ACTIONS := {JString("process_story_message"), JString("handle_story_command")}

  /** What `process_story_message` makes of the value the dispatcher hands it
      as its message list, before it has any effect: it takes `len(messages)`
      (story_util.py:109) and then calls `messages.append(...)`
      (story_util.py:112). The dispatcher passes `message_id_to_update`, a JSON
      scalar: `len` rejects `None` and booleans with `TypeError`, and a string
      has a length but no `append`. */
  function StoryHistoryAsWritten(messages: Json): (r: Outcome<seq<Message>>)
    ensures r.Raised?
    ensures r.error == "AttributeError: 'str' object has no attribute 'append'" <==> messages.JString?
  {
    match messages
    case JNull => Raised("TypeError: object of type 'NoneType' has no len()")
    case JBool(_) => Raised("TypeError: object of type 'bool' has no len()")
    case JString(_) => Raised("AttributeError: 'str' object has no attribute 'append'")
  }

  /** The list a continuation is evidently meant to receive: the history stored
      for the thread by `handle_story_command` and the earlier continuations.
      A thread without a record fails as `get_thread(...).get_messages()` would. */
  function StoryHistory(threads: map<string, Models.Thread>, threadId: string): (r: Outcome<seq<Message>>)
    ensures Datastore.LookupThread(threads, Some(threadId)).None? ==> r.Raised?
    ensures Datastore.LookupThread(threads, Some(threadId)).Some? ==>
      r == Models.GetMessages(Datastore.LookupThread(threads, Some(threadId)).value)
  {
    match Datastore.LookupThread(threads, Some(threadId))
    case None => Raised("AttributeError: 'NoneType' object has no attribute 'get_messages'")
    case Some(t) => Models.GetMessages(t)
  }

  /** The corrected dispatch on the action tag: `handle_story_command` gets its
      two parameters in their declared order, and `process_story_message` gets
      the thread's stored history as its message list. */
  function Dispatch(action: Json, threadId: Json, userText: Json, threads: map<string, Models.Thread>)
    : (r: Outcome<StoryAction>)
    ensures action == JString("handle_story_command") ==> r == Ok(HandleStoryCommand(userText, threadId))
    ensures action == JString("process_story_message") && threadId.JString? ==>
      && (r.Ok? <==> StoryHistory(threads, threadId.s).Ok?)
      && (r.Ok? ==> r.value == ProcessStoryMessage(threadId, userText, StoryHistory(threads, threadId.s).value))
    ensures action !in STORY_ACTIONS ==> r == Ok(NoAction)
  {
    if action == JString("process_story_message") then
      match threadId
      case JString(id) =>
        (match StoryHistory(threads, id)
         case Raised(e) => Raised(e)
         case Ok(history) => Ok(ProcessStoryMessage(threadId, userText, history)))
      case _ => Raised("AttributeError: object has no attribute 'split'")
    else if action == JString("handle_story_command") then Ok(HandleStoryCommand(userText, threadId))
    else Ok(NoAction)
  }

  /** The dispatch as written: the `handle_story_command` branch passes three
      positional arguments to a function of two parameters, which Python
      rejects with `TypeError` before the function runs; the
      `process_story_message` branch passes `message_id_to_update` as the
      message list, on which that function fails before any effect. */
  function DispatchAsWritten(action: Json, threadId: Json, userText: Json, messageIdToUpdate: Json)
    : (r: Outcome<StoryAction>)
    ensures r.Raised? <==> action in STORY_ACTIONS
    ensures r.Ok? ==> r.value == NoAction
  {
    if action == JString("process_story_message") then
      match StoryHistoryAsWritten(messageIdToUpdate)
      case Raised(e) => Raised(e)
      case Ok(messages) => Ok(ProcessStoryMessage(threadId, userText, messages))
    else if action == JString("handle_story_command") then
      Raised("TypeError: handle_story_command() takes 2 positional arguments but 3 were given")
    else Ok(NoAction)
  }

  /** Every `handle_story_command` task fails in the dispatcher as written,
      whatever its arguments; the corrected dispatch starts the story. */
  lemma HandleStoryCommandNeverRuns(threadId: Json, userText: Json, messageIdToUpdate: Json,
                                    threads: map<string, Models.Thread>)
    ensures DispatchAsWritten(JString("handle_story_command"), threadId, userText, messageIdToUpdate).Raised?
    ensures Dispatch(JString("handle_story_command"), threadId, userText, threads)
         == Ok(HandleStoryCommand(userText, threadId))
  {
  }

  /** Every `process_story_message` task fails as written, whatever message id
      it carries; with the corrected dispatch, the continuation of a story that
      `handle_story_command` started receives the two stored messages, so it is
      continuation 1 of `Story.EndsOnFourthContinuation`. */
  lemma ContinuationReadsStartedStory(threads: map<string, Models.Thread>, clock: int, userText: string, id: string,
                                      chat: seq<Outcome<string>>, images: seq<Outcome<string>>,
                                      nextText: Json, messageIdToUpdate: Json)
    requires id != ""
    requires Story.HandleStoryCommandSpec(threads, clock, userText, Some(id), chat, images).reply.Ok?
    ensures DispatchAsWritten(JString("process_story_message"), JString(id), nextText, messageIdToUpdate).Raised?
    ensures var e := Story.HandleStoryCommandSpec(threads, clock, userText, Some(id), chat, images);
      && |e.messages| == 2
      && StoryHistory(e.threads, id) == Ok(e.messages)
      && Dispatch(JString("process_story_message"), JString(id), nextText, e.threads)
           == Ok(ProcessStoryMessage(JString(id), nextText, e.messages))
  {
    Story.NewStoryStartsFresh(threads, threads, clock, userText, Some(id), chat, images);
  }

  /** What a background invocation did: rejected the caller, or (after
      validation) chose the user, the space, the API key and the action. */
  datatype WorkerResult =
    | Rejected
    | Done(userId: string, spaceName: string, apiKey: Option<string>, action: StoryAction)

  /** The HTTP response of an invocation that returns: `"Unauthorized
      request"` for a rejected caller, `{}` for a task that completed. */
  function Response(w: WorkerResult): (reply: Reply)
    ensures w.Rejected? <==> reply == Plain(Events.UNAUTHORIZED)
    ensures w.Done? <==> reply == EmptyObject
  {
    if w.Rejected? then Plain(Events.UNAUTHORIZED) else EmptyObject
  }

  /** `get_api_key(user_id)` against the store, which may raise. */
  type KeyLookup = string -> Outcome<Option<string>>

  /** The key the worker installs: the looked-up value, even `None`, unless
      the lookup raised, in which case the shared fallback key. */
  function ResolveApiKey(lookup: Outcome<Option<string>>): (key: Option<string>)
    ensures lookup.Ok? ==> key == lookup.value
    ensures lookup.Raised? ==> key == Some(MY_API_KEY)
  {
    match lookup
    case Ok(k) => k
    case Raised(_) => Some(MY_API_KEY)
  }

  /** `process_background_task(request)` as written. A validated task returns
      only when its action is neither story action: both story branches raise. */
  function ProcessBackgroundTask(header: Option<string>, fetch: Auth.CertFetcher, decode: Auth.JwtDecoder,
                                 taskData: Payload, lookupKey: KeyLookup): (r: Outcome<WorkerResult>)
    ensures !Auth.IsBackgroundRequestValid(header, fetch, decode) <==> r == Ok(Rejected)
    ensures Auth.IsBackgroundRequestValid(header, fetch, decode) ==>
      (r.Ok? <==> SplitThreadId(Get(taskData, "thread_id")).Ok? && Get(taskData, "action") !in STORY_ACTIONS)
    ensures r.Ok? && r.value.Done? ==>
      var ids := SplitThreadId(Get(taskData, "thread_id")).value;
      && r.value.userId == ids.0 && r.value.spaceName == ids.1
      && r.value.apiKey == ResolveApiKey(lookupKey(ids.0))
      && r.value.action == NoAction
  {
    if !Auth.IsBackgroundRequestValid(header, fetch, decode) then Ok(Rejected)
    else
      var action := Get(taskData, "action");
      var threadId := Get(taskData, "thread_id");
      var userText := Get(taskData, "user_text");
      var messageIdToUpdate := Get(taskData, "message_id_to_update");
      match SplitThreadId(threadId)
      case Raised(e) => Raised(e)
      case Ok(ids) =>
        var apiKey := ResolveApiKey(lookupKey(ids.0));
        match DispatchAsWritten(action, threadId, userText, messageIdToUpdate)
        case Raised(e) => Raised(e)
        case Ok(a) => Ok(Done(ids.0, ids.1, apiKey, a))
  }

  /** `process_background_task(request)` with the corrected dispatch, reading
      the continuation's history from the thread records. */
  function CorrectedProcessBackgroundTask(header: Option<string>, fetch: Auth.CertFetcher, decode: Auth.JwtDecoder,
                                          taskData: Payload, lookupKey: KeyLookup,
                                          threads: map<string, Models.Thread>): (r: Outcome<WorkerResult>)
    ensures !Auth.IsBackgroundRequestValid(header, fetch, decode) <==> r == Ok(Rejected)
    ensures Auth.IsBackgroundRequestValid(header, fetch, decode) ==>
      (r.Ok? <==> SplitThreadId(Get(taskData, "thread_id")).Ok?
                  && Dispatch(Get(taskData, "action"), Get(taskData, "thread_id"), Get(taskData, "user_text"), threads).Ok?)
    ensures r.Ok? && r.value.Done? ==>
      var ids := SplitThreadId(Get(taskData, "thread_id")).value;
      && r.value.userId == ids.0 && r.value.spaceName == ids.1
      && r.value.apiKey == ResolveApiKey(lookupKey(ids.0))
      && Ok(r.value.action) == Dispatch(Get(taskData, "action"), Get(taskData, "thread_id"), Get(taskData, "user_text"), threads)
  {
    if !Auth.IsBackgroundRequestValid(header, fetch, decode) then Ok(Rejected)
    else
      var action := Get(taskData, "action");
      var threadId := Get(taskData, "thread_id");
      var userText := Get(taskData, "user_text");
      match SplitThreadId(threadId)
      case Raised(e) => Raised(e)
      case Ok(ids) =>
        var apiKey := ResolveApiKey(lookupKey(ids.0));
        match Dispatch(action, threadId, userText, threads)
        case Raised(e) => Raised(e)
        case Ok(a) => Ok(Done(ids.0, ids.1, apiKey, a))
  }

  /** End to end, as written: a task enqueued for a direct-message thread and
      delivered with a token that decodes for the task's own OIDC audience with
      the Cloud Tasks issuer is accepted, and fails exactly when its action is
      a story action; otherwise it recovers the user and space the thread id
      was built from and does nothing more. */
  lemma EnqueuedStoryTaskFailsAsWritten(action: string, userId: string, spaceId: string, userText: Json,
                                        messageIdToUpdate: Json, scheme: string, token: string,
                                        fetch: Auth.CertFetcher, decode: Auth.JwtDecoder, lookupKey: KeyLookup)
    requires '-' !in userId && '-' !in spaceId
    requires ' ' !in scheme && ' ' !in token
    requires fetch(Auth.CERTS_PATH).Ok?
    requires var req := RunAsBackgroundTask(JString(action), JString(userId + "-" + spaceId), userText, messageIdToUpdate);
      var claims := decode(token, fetch(Auth.CERTS_PATH).value, req.task.oidcToken.audience);
      claims.Ok? && Auth.IssuedBy(claims.value, Auth.TASK_ISSUER)
    ensures var req := RunAsBackgroundTask(JString(action), JString(userId + "-" + spaceId), userText, messageIdToUpdate);
      var r := ProcessBackgroundTask(Some(scheme + " " + token), fetch, decode, req.task.body, lookupKey);
      && (r.Raised? <==> JString(action) in STORY_ACTIONS)
      && (r.Ok? ==> r == Ok(Done(userId, "spaces/" + spaceId, ResolveApiKey(lookupKey(userId)), NoAction)))
  {
    var threadId := JString(userId + "-" + spaceId);
    var req := RunAsBackgroundTask(JString(action), threadId, userText, messageIdToUpdate);
    Auth.TaskTokenAcceptedExactly(scheme, token, fetch, decode);
    assert Auth.IsBackgroundRequestValid(Some(scheme + " " + token), fetch, decode);
    PayloadRoundTrip(JString(action), threadId, userText, messageIdToUpdate);
    assert Get(req.task.body, "action") == JString(action) && Get(req.task.body, "thread_id") == threadId;
    ThreadIdRoundTrip(userId, spaceId);
  }

  /** End to end, corrected: the same task is accepted, recovers the user and
      space the thread id was built from, and runs the action it was enqueued
      with, a continuation receiving the thread's stored history. */
  lemma EnqueuedTaskRunsAsEnqueued(action: string, userId: string, spaceId: string, userText: Json,
                                   messageIdToUpdate: Json, scheme: string, token: string,
                                   fetch: Auth.CertFetcher, decode: Auth.JwtDecoder, lookupKey: KeyLookup,
                                   threads: map<string, Models.Thread>)
    requires '-' !in userId && '-' !in spaceId
    requires ' ' !in scheme && ' ' !in token
    requires fetch(Auth.CERTS_PATH).Ok?
    requires var req := RunAsBackgroundTask(JString(action), JString(userId + "-" + spaceId), userText, messageIdToUpdate);
      var claims := decode(token, fetch(Auth.CERTS_PATH).value, req.task.oidcToken.audience);
      claims.Ok? && Auth.IssuedBy(claims.value, Auth.TASK_ISSUER)
    ensures var req := RunAsBackgroundTask(JString(action), JString(userId + "-" + spaceId), userText, messageIdToUpdate);
      var r := CorrectedProcessBackgroundTask(Some(scheme + " " + token), fetch, decode, req.task.body, lookupKey, threads);
      var d := Dispatch(JString(action), JString(userId + "-" + spaceId), userText, threads);
      && (d.Raised? ==> r == Raised(d.error))
      && (d.Ok? ==> r == Ok(Done(userId, "spaces/" + spaceId, ResolveApiKey(lookupKey(userId)), d.value)))
  {
    var threadId := JString(userId + "-" + spaceId);
    var req := RunAsBackgroundTask(JString(action), threadId, userText, messageIdToUpdate);
    Auth.TaskTokenAcceptedExactly(scheme, token, fetch, decode);
    assert Auth.IsBackgroundRequestValid(Some(scheme + " " + token), fetch, decode);
    PayloadRoundTrip(JString(action), threadId, userText, messageIdToUpdate);
    assert Get(req.task.body, "action") == JString(action) && Get(req.task.body, "thread_id") == threadId;
    ThreadIdRoundTrip(userId, spaceId);
  }
}
