/** The first bot that remembers: `handle_chat` and `process_message_event` of
    the datastore variant. A direct message continues the thread stored under
    `user_id-space_id`; a new thread, and every message outside a direct
    message, starts from the cheerful guidance. The request's validation
    verdict is a parameter, since this variant's `auth_util` is not part of
    this model; its thread store is the image bot's `ThreadStore`, whose
    `store_messages` and `get_thread` it calls. */
module DatastoreBot {

  import opened Wrappers
  import opened Messages
  import opened Cards
  import opened Events
  import opened Oracles
  import Models
  import Datastore
  import ImageDatastore

  const GUIDANCE := "You are helpful assistant who has a cheerful attitude"

  /** Everything one handler invocation does. */
  datatype Effects = Effects(reply: Outcome<Reply>, threads: map<string, Models.Thread>, chatRequests: seq<seq<Message>>)

  /** The list sent to the model: the stored history of the thread if there is
      one, otherwise the guidance alone; then the user's text. */
  function SentMessages(threads: map<string, Models.Thread>, threadId: Option<string>, userText: string)
    : (r: Outcome<seq<Message>>)
    ensures Datastore.LookupThread(threads, threadId).None? ==>
      r == Ok([Message(System, GUIDANCE), Message(Role.User, userText)])
    ensures var t := Datastore.LookupThread(threads, threadId);
      t.Some? && Models.GetMessages(t.value).Ok? ==> r == Ok(Models.GetMessages(t.value).value + [Message(Role.User, userText)])
    ensures r.Ok? ==> |r.value| >= 1 && r.value[|r.value| - 1] == Message(Role.User, userText)
  {
    match Datastore.LookupThread(threads, threadId)
    case None => Ok([Message(System, GUIDANCE), Message(Role.User, userText)])
    case Some(t) =>
      match Models.GetMessages(t)
      case Raised(e) => Raised(e)
      case Ok(history) => Ok(history + [Message(Role.User, userText)])
  }

  function ProcessMessageEventSpec(threads: map<string, Models.Thread>, clock: int, event: Event,
                                   chat: seq<Outcome<string>>): (e: Effects)
    ensures e.reply.Ok? ==> e.reply.value.Text?
    ensures |e.chatRequests| <= 1
  {
    match ParseIds(event)
    case Raised(err) => Effects(Raised(err), threads, [])
    case Ok(ids) =>
      match SentMessages(threads, ids.threadId, UserText(event))
      case Raised(err) => Effects(Raised(err), threads, [])
      case Ok(sent) =>
        match Nth(chat, 0)
        case Raised(err) => Effects(Ok(Text(err)), threads, [sent])
        case Ok(answer) =>
          var stored := if Datastore.Truthy(ids.threadId)
            then Datastore.PutThread(threads, ids.threadId, sent + [Message(Assistant, answer)], "", clock)
            else threads;
          Effects(Ok(Text(answer)), stored, [sent])
  }

  function HandleChatSpec(valid: bool, event: Event, threads: map<string, Models.Thread>, clock: int,
                          chat: seq<Outcome<string>>): (e: Effects)
    ensures !valid ==> e == Effects(Ok(Plain(UNAUTHORIZED)), threads, [])
    ensures valid && event.eventType != "MESSAGE" ==> e == Effects(Ok(Classify(event).reply), threads, [])
  {
    if !valid then Effects(Ok(Plain(UNAUTHORIZED)), threads, [])
    else
      match Classify(event)
      case Answer(reply) => Effects(Ok(reply), threads, [])
      case ProcessMessage => ProcessMessageEventSpec(threads, clock, event, chat)
  }

  // ---------------------------------------------------------------------------
  // The handler itself

  /** `handle_chat(request)`; `valid` is what `is_request_valid(request)` decided. */
  method HandleChat(valid: bool, event: Event, store: ImageDatastore.ThreadStore, gpt: Gpt)
      returns (r: Outcome<Reply>)
    modifies store`threads, gpt
    ensures var e := HandleChatSpec(valid, event, old(store.threads), store.clock, old(gpt.Chat()));
      && r == e.reply && store.threads == e.threads
      && gpt.chatLog == old(gpt.chatLog) + e.chatRequests && gpt.imageLog == old(gpt.imageLog)
  {
    if !valid {
      return Ok(Plain(UNAUTHORIZED));
    }
    match Classify(event)
    case Answer(reply) =>
      r := Ok(reply);
    case ProcessMessage =>
      r := ProcessMessageEvent(event, store, gpt);
  }

  /** `process_message_event(event_data)` */
  method ProcessMessageEvent(event: Event, store: ImageDatastore.ThreadStore, gpt: Gpt) returns (r: Outcome<Reply>)
    modifies store`threads, gpt
    ensures var e := ProcessMessageEventSpec(old(store.threads), store.clock, event, old(gpt.Chat()));
      && r == e.reply && store.threads == e.threads
      && gpt.chatLog == old(gpt.chatLog) + e.chatRequests && gpt.imageLog == old(gpt.imageLog)
  {
    var userText := UserText(event);
    var ids := ParseIds(event);
    if ids.Raised? {
      return Raised(ids.error);
    }
    var threadId := ids.value.threadId;

    var messages: seq<Message> := [];
    var threadObj := store.GetThread(threadId);
    if threadObj.Some? {
      var history := Models.GetMessages(threadObj.value);
      if history.Raised? {
        return Raised(history.error);
      }
      messages := history.value;
    } else {
      messages := messages + [Message(System, GUIDANCE)];
      assert messages == [Message(System, GUIDANCE)];
    }
    messages := messages + [Message(Role.User, userText)];
    assert threadObj.None? ==> messages == [Message(System, GUIDANCE), Message(Role.User, userText)];
    assert Ok(messages) == SentMessages(store.threads, threadId, userText);

    var gptResponse := gpt.GetGptResponse(messages);
    if gptResponse.Raised? {
      return Ok(Text(gptResponse.error));
    }

    if Datastore.Truthy(threadId) {
      messages := messages + [Message(Assistant, gptResponse.value)];
      store.StoreMessages(threadId, messages);
    }
    r := Ok(Text(gptResponse.value));
  }

  // ---------------------------------------------------------------------------
  // Properties of the handler

  /** A request that fails validation is answered `"Unauthorized request"`
      whatever its body, with no store write and no model call. */
  lemma UnauthorizedRequestHasNoEffect(event1: Event, event2: Event, threads: map<string, Models.Thread>, clock: int,
                                       chat: seq<Outcome<string>>)
    ensures HandleChatSpec(false, event1, threads, clock, chat) == HandleChatSpec(false, event2, threads, clock, chat)
    ensures HandleChatSpec(false, event1, threads, clock, chat).reply == Ok(Plain(UNAUTHORIZED))
  {
  }

  /** A message event's turn: the list sent is the stored history (or the
      guidance) and the user's text; on success the reply is the answer and a
      thread, if there is one, then holds that list and the answer; a failed
      generation replies with the error text and stores nothing. */
  lemma TurnOutcome(threads: map<string, Models.Thread>, clock: int, event: Event, chat: seq<Outcome<string>>)
    requires ParseIds(event).Ok?
    requires SentMessages(threads, ParseIds(event).value.threadId, UserText(event)).Ok?
    ensures var threadId := ParseIds(event).value.threadId;
      var sent := SentMessages(threads, threadId, UserText(event)).value;
      var e := ProcessMessageEventSpec(threads, clock, event, chat);
      && e.chatRequests == [sent]
      && (Nth(chat, 0).Raised? ==> e.reply == Ok(Text(Nth(chat, 0).error)) && e.threads == threads)
      && (Nth(chat, 0).Ok? ==> e.reply == Ok(Text(Nth(chat, 0).value)))
      && (Nth(chat, 0).Ok? && Datastore.Truthy(threadId) ==>
            var t := Datastore.LookupThread(e.threads, threadId);
            && t.Some? && Models.GetMessages(t.value) == Ok(sent + [Message(Assistant, Nth(chat, 0).value)]))
  {
    var threadId := ParseIds(event).value.threadId;
    var sent := SentMessages(threads, threadId, UserText(event)).value;
    if Nth(chat, 0).Ok? && Datastore.Truthy(threadId) {
      Datastore.GetThreadAfterStore(threads, threadId, sent + [Message(Assistant, Nth(chat, 0).value)], "", clock);
    }
  }

  /** Outside a direct message there is no thread: every message is sent as
      the guidance and the user's text alone, and nothing is stored. */
  lemma NonDirectMessagesAreStateless(threads: map<string, Models.Thread>, clock: int, event: Event,
                                      chat: seq<Outcome<string>>)
    requires ParseIds(event).Ok? && event.space.spaceType != "DIRECT_MESSAGE"
    ensures var e := ProcessMessageEventSpec(threads, clock, event, chat);
      && e.threads == threads
      && e.chatRequests == [[Message(System, GUIDANCE), Message(Role.User, UserText(event))]]
  {
  }

  /** The guidance is sent only once per thread: after a first successful turn
      the stored history begins with it, and the second turn sends that
      history followed by the new text, without a second system message. */
  lemma {:induction false} GuidanceOnlyForNewThread(threads: map<string, Models.Thread>, clock: int, event1: Event,
                                                   event2: Event, answer1: string, answer2: string)
    requires ParseIds(event1).Ok? && ParseIds(event2).Ok?
    requires ParseIds(event1).value.threadId == ParseIds(event2).value.threadId
    requires Datastore.Truthy(ParseIds(event1).value.threadId)
    requires Datastore.LookupThread(threads, ParseIds(event1).value.threadId).None?
    ensures var e1 := ProcessMessageEventSpec(threads, clock, event1, [Ok(answer1)]);
      var e2 := ProcessMessageEventSpec(e1.threads, clock, event2, [Ok(answer2)]);
      var first := [Message(System, GUIDANCE), Message(Role.User, UserText(event1)), Message(Assistant, answer1)];
      && e1.chatRequests == [first[..2]]
      && e2.chatRequests == [first + [Message(Role.User, UserText(event2))]]
      && Models.GetMessages(e2.threads[ParseIds(event1).value.threadId.value])
           == Ok(first + [Message(Role.User, UserText(event2)), Message(Assistant, answer2)])
  {
    var threadId := ParseIds(event1).value.threadId;
    var first := [Message(System, GUIDANCE), Message(Role.User, UserText(event1)), Message(Assistant, answer1)];
    var sent1 := [Message(System, GUIDANCE), Message(Role.User, UserText(event1))];
    assert sent1 + [Message(Assistant, answer1)] == first;
    var e1 := ProcessMessageEventSpec(threads, clock, event1, [Ok(answer1)]);
    assert e1.threads == Datastore.PutThread(threads, threadId, first, "", clock);
    Datastore.GetThreadAfterStore(threads, threadId, first, "", clock);
    var sent2 := first + [Message(Role.User, UserText(event2))];
    assert SentMessages(e1.threads, threadId, UserText(event2)) == Ok(sent2);
    var both := sent2 + [Message(Assistant, answer2)];
    assert both == first + [Message(Role.User, UserText(event2)), Message(Assistant, answer2)];
    Datastore.GetThreadAfterStore(e1.threads, threadId, both, "", clock);
  }
}
