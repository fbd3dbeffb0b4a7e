/** The API-key bot's request handler: `handle_chat`, `process_message_event`,
    `process_chat_message` and `handle_image_command`. Each method is proved
    against a specification function of the same name plus `Spec`, which
    gives the reply, the two store maps afterwards and the requests sent to
    the language model, from the store before, the event and the model's
    answers still to come. */
module ApiKeyBot {

  import opened Wrappers
  import opened Messages
  import opened Cards
  import opened Events
  import opened Oracles
  import Models
  import Auth
  import Datastore

  const NEW_GUIDANCE := "You are helpful assistant who has a cheerful attitude"
  const SNARK_GUIDANCE := "You are a snarky know-it-all that replies to any content by telling the actual truth of the matter. You usually start your reply with 'Actually...'"
  const POET_GUIDANCE := "You are an esteemed poet that replies to any request using a rhyming poem"
  const KEY_STORED := "Your API key has been stored"
  const KEY_MISSING := "You must enter your OpenAI API key before using this bot"
  const IMAGE_TITLE_PROMPT := "The following prompt was given to DALL-E to create an image. Please come up with a witty title for the image. It should be no longer than 8 words: "
  const ALT_TEXT_SUFFIX := " - Generated by DALL-E"
  /** `string.ascii_letters + string.digits` */
  const ALPHANUMERIC := "abcdefghijklmnopqrstuvwxyzABCDEFGHIJKLMNOPQRSTUVWXYZ0123456789"
  const CARD_ID_LENGTH := 25

  /** The slash commands: `/api_key` (5), `/new` (1), `/snark` (2), `/poet` (3),
      `/image` (4); anything else, or no command, is a plain chat turn. */
  datatype Command = StoreKey | ChatWith(guidance: Option<string>) | MakeImage

  function CommandFor(commandId: Option<int>): (c: Command)
    ensures c == StoreKey <==> commandId == Some(5)
    ensures c == MakeImage <==> commandId == Some(4)
    ensures c.ChatWith? && c.guidance.Some? <==> commandId in {Some(1), Some(2), Some(3)}
    ensures c.ChatWith? && c.guidance.Some? ==> c.guidance.value != ""
  {
    if commandId == Some(5) then StoreKey
    else if commandId == Some(1) then ChatWith(Some(NEW_GUIDANCE))
    else if commandId == Some(2) then ChatWith(Some(SNARK_GUIDANCE))
    else if commandId == Some(3) then ChatWith(Some(POET_GUIDANCE))
    else if commandId == Some(4) then MakeImage
    else ChatWith(None)
  }

  /** Everything one handler invocation does. */
  datatype Effects = Effects(
    reply: Outcome<Reply>,
    threads: map<string, Models.Thread>,
    users: map<string, Models.User>,
    chatRequests: seq<seq<Message>>,
    imageRequests: seq<string>)

  /** The list `process_chat_message` sends: `[system, user]` with guidance;
      otherwise the stored history (or nothing) and then `user`. */
  function ChatHistory(threads: map<string, Models.Thread>, threadId: Option<string>,
                       guidance: Option<string>, userText: string): (r: Outcome<seq<Message>>)
    ensures Datastore.Truthy(guidance) ==>
      r == Ok([Message(System, guidance.value), Message(Role.User, userText)])
    ensures !Datastore.Truthy(guidance) && Datastore.LookupThread(threads, threadId).None? ==>
      r == Ok([Message(Role.User, userText)])
    ensures r.Ok? ==> |r.value| >= 1 && r.value[|r.value| - 1] == Message(Role.User, userText)
  {
    if Datastore.Truthy(guidance) then Ok([Message(System, guidance.value), Message(Role.User, userText)])
    else
      match Datastore.LookupThread(threads, threadId)
      case None => Ok([Message(Role.User, userText)])
      case Some(t) =>
        match Models.GetMessages(t)
        case Raised(e) => Raised(e)
        case Ok(history) => Ok(history + [Message(Role.User, userText)])
  }

  function ProcessChatMessageSpec(threads: map<string, Models.Thread>, users: map<string, Models.User>, clock: int,
                                  userText: string, threadId: Option<string>, guidance: Option<string>,
                                  chat: seq<Outcome<string>>): (e: Effects)
    ensures e.users == users && e.imageRequests == []
  {
    match ChatHistory(threads, threadId, guidance, userText)
    case Raised(err) => Effects(Raised(err), threads, users, [], [])
    case Ok(sent) =>
      match Nth(chat, 0)
      case Raised(err) => Effects(Ok(Text(err)), threads, users, [sent], [])
      case Ok(answer) =>
        var stored := if Datastore.Truthy(threadId)
          then Datastore.PutThread(threads, threadId, sent + [Message(Assistant, answer)], "", clock)
          else threads;
        Effects(Ok(Text(answer)), stored, users, [sent], [])
  }

  /** `"".join(random.choice(ALPHANUMERIC) for i in range(25))`, where draw `i`
      of the random source picks the `i`-th character. */
  function CardId(draw: nat -> nat): (id: string)
    ensures |id| == CARD_ID_LENGTH
    ensures forall i :: 0 <= i < |id| ==> id[i] in ALPHANUMERIC
  {
    seq(CARD_ID_LENGTH, i requires 0 <= i => ALPHANUMERIC[draw(i) % |ALPHANUMERIC|])
  }

  /** The image card: one section headed by the title, with one image widget
      that links to its own URL. */
  function ImageCard(imageUrl: string, title: string, cardId: string): (card: CardV2)
  {
    CardV2(cardId, [Section(Some(title), [Image(imageUrl, imageUrl, title + ALT_TEXT_SUFFIX)])])
  }

  function HandleImageCommandSpec(threads: map<string, Models.Thread>, users: map<string, Models.User>,
                                  imagePrompt: string, chat: seq<Outcome<string>>, images: seq<Outcome<string>>,
                                  draw: nat -> nat): (e: Effects)
    ensures e.threads == threads && e.users == users && e.imageRequests == [imagePrompt]
  {
    match Nth(images, 0)
    case Raised(err) => Effects(Ok(Text(err)), threads, users, [], [imagePrompt])
    case Ok(imageUrl) =>
      var titleRequest := [Message(Role.User, IMAGE_TITLE_PROMPT + imagePrompt)];
      match Nth(chat, 0)
      case Raised(err) => Effects(Raised(err), threads, users, [titleRequest], [imagePrompt])
      case Ok(title) =>
        Effects(Ok(Cards([ImageCard(imageUrl, title, CardId(draw))])), threads, users, [titleRequest], [imagePrompt])
  }

  function ProcessMessageEventSpec(threads: map<string, Models.Thread>, users: map<string, Models.User>, clock: int,
                                   event: Event, chat: seq<Outcome<string>>, images: seq<Outcome<string>>,
                                   draw: nat -> nat): (e: Effects)
  {
    match ParseIds(event)
    case Raised(err) => Effects(Raised(err), threads, users, [], [])
    case Ok(ids) =>
      var userText := UserText(event);
      var command := CommandFor(CommandId(event));
      if command == StoreKey then
        Effects(Ok(Text(KEY_STORED)), threads, Datastore.PutApiKey(users, ids.userId, userText), [], [])
      else if !Datastore.Truthy(Datastore.LookupApiKey(users, ids.userId)) then
        Effects(Ok(Text(KEY_MISSING)), threads, users, [], [])
      else if command == MakeImage then
        HandleImageCommandSpec(threads, users, userText, chat, images, draw)
      else
        ProcessChatMessageSpec(threads, users, clock, userText, ids.threadId, command.guidance, chat)
  }

  function HandleChatSpec(header: Option<string>, verify: Auth.ChatVerifier, event: Event,
                          threads: map<string, Models.Thread>, users: map<string, Models.User>, clock: int,
                          chat: seq<Outcome<string>>, images: seq<Outcome<string>>, draw: nat -> nat): (e: Effects)
  {
    if !Auth.IsRequestValid(header, verify) then Effects(Ok(Plain(UNAUTHORIZED)), threads, users, [], [])
    else
      match Classify(event)
      case Answer(reply) => Effects(Ok(reply), threads, users, [], [])
      case ProcessMessage => ProcessMessageEventSpec(threads, users, clock, event, chat, images, draw)
  }

  // ---------------------------------------------------------------------------
  // The handler itself

  /** `handle_chat(request)`: the request is its Authorization header and its
      JSON event. */
  method HandleChat(header: Option<string>, verify: Auth.ChatVerifier, event: Event,
                    store: Datastore.Datastore, gpt: Gpt, draw: nat -> nat) returns (r: Outcome<Reply>)
    modifies store`threads, store`users, gpt
    ensures var e := HandleChatSpec(header, verify, event, old(store.threads), old(store.users), store.clock,
                                    old(gpt.Chat()), old(gpt.Images()), draw);
      && r == e.reply && store.threads == e.threads && store.users == e.users
      && gpt.chatLog == old(gpt.chatLog) + e.chatRequests && gpt.imageLog == old(gpt.imageLog) + e.imageRequests
  {
    if !Auth.IsRequestValid(header, verify) {
      return Ok(Plain(UNAUTHORIZED));
    }
    match Classify(event)
    case Answer(reply) =>
      r := Ok(reply);
    case ProcessMessage =>
      r := ProcessMessageEvent(event, store, gpt, draw);
  }

  /** `process_message_event(event_data)` */
  method ProcessMessageEvent(event: Event, store: Datastore.Datastore, gpt: Gpt, draw: nat -> nat)
      returns (r: Outcome<Reply>)
    modifies store`threads, store`users, gpt
    ensures var e := ProcessMessageEventSpec(old(store.threads), old(store.users), store.clock, event,
                                             old(gpt.Chat()), old(gpt.Images()), draw);
      && r == e.reply && store.threads == e.threads && store.users == e.users
      && gpt.chatLog == old(gpt.chatLog) + e.chatRequests && gpt.imageLog == old(gpt.imageLog) + e.imageRequests
  {
    var userText := UserText(event);
    var ids := ParseIds(event);
    if ids.Raised? {
      return Raised(ids.error);
    }
    var userId := ids.value.userId;
    var threadId := ids.value.threadId;
    var commandId := CommandId(event);

    if commandId == Some(5) {
      store.StoreApiKey(userId, userText);
      return Ok(Text(KEY_STORED));
    }

    var apiKey := store.GetApiKey(userId);
    if !Datastore.Truthy(apiKey) {
      return Ok(Text(KEY_MISSING));
    }

    if commandId == Some(1) {
      r := ProcessChatMessage(userText, threadId, Some(NEW_GUIDANCE), store, gpt);
    } else if commandId == Some(2) {
      r := ProcessChatMessage(userText, threadId, Some(SNARK_GUIDANCE), store, gpt);
    } else if commandId == Some(3) {
      r := ProcessChatMessage(userText, threadId, Some(POET_GUIDANCE), store, gpt);
    } else if commandId == Some(4) {
      r := HandleImageCommand(userText, gpt, draw);
    } else {
      r := ProcessChatMessage(userText, threadId, None, store, gpt);
    }
  }

  /** `process_chat_message(user_text, thread_id, guidance=None)` */
  method ProcessChatMessage(userText: string, threadId: Option<string>, guidance: Option<string>,
                            store: Datastore.Datastore, gpt: Gpt) returns (r: Outcome<Reply>)
    modifies store`threads, gpt
    ensures var e := ProcessChatMessageSpec(old(store.threads), old(store.users), store.clock,
                                            userText, threadId, guidance, old(gpt.Chat()));
      && r == e.reply && store.threads == e.threads
      && gpt.chatLog == old(gpt.chatLog) + e.chatRequests && gpt.imageLog == old(gpt.imageLog)
  {
    var messages: seq<Message> := [];
    if Datastore.Truthy(guidance) {
      messages := messages + [Message(System, guidance.value)];
      assert messages == [Message(System, guidance.value)];
    } else {
      var threadObj := store.GetThread(threadId);
      if threadObj.Some? {
        var history := Models.GetMessages(threadObj.value);
        if history.Raised? {
          return Raised(history.error);
        }
        messages := history.value;
      }
    }
    messages := messages + [Message(Role.User, userText)];
    assert Datastore.Truthy(guidance) ==> messages == [Message(System, guidance.value), Message(Role.User, userText)];
    assert !Datastore.Truthy(guidance) && Datastore.LookupThread(store.threads, threadId).None? ==> messages == [Message(Role.User, userText)];
    assert Ok(messages) == ChatHistory(store.threads, threadId, guidance, userText);

    var gptResponse := gpt.GetGptResponse(messages);
    if gptResponse.Raised? {
      return Ok(Text(gptResponse.error));
    }

    if Datastore.Truthy(threadId) {
      messages := messages + [Message(Assistant, gptResponse.value)];
      store.StoreMessages(threadId, messages);
    }
    r := Ok(Text(gptResponse.value));
  }

  /** `handle_image_command(image_prompt)` */
  method HandleImageCommand(imagePrompt: string, gpt: Gpt, draw: nat -> nat) returns (r: Outcome<Reply>)
    modifies gpt
    ensures var e := HandleImageCommandSpec(map[], map[], imagePrompt, old(gpt.Chat()), old(gpt.Images()), draw);
      && r == e.reply
      && gpt.chatLog == old(gpt.chatLog) + e.chatRequests && gpt.imageLog == old(gpt.imageLog) + e.imageRequests
  {
    var imageUrl := gpt.CreateImageWithPrompt(imagePrompt);
    if imageUrl.Raised? {
      return Ok(Text(imageUrl.error));
    }
    var titlePrompt := IMAGE_TITLE_PROMPT + imagePrompt;
    var imageTitle := gpt.GetGptResponse([Message(Role.User, titlePrompt)]);
    if imageTitle.Raised? {
      return Raised(imageTitle.error);
    }
    var altText := imageTitle.value + ALT_TEXT_SUFFIX;
    var cardId := CardId(draw);
    var card := CardV2(cardId, [Section(Some(imageTitle.value), [Image(imageUrl.value, imageUrl.value, altText)])]);
    r := Ok(Cards([card]));
  }

  // ---------------------------------------------------------------------------
  // Properties of the handler

  /** A request that fails validation is answered `"Unauthorized request"`
      whatever its body, with no store write and no model call. */
  lemma UnauthorizedRequestHasNoEffect(header: Option<string>, verify: Auth.ChatVerifier, event1: Event, event2: Event,
                                       threads: map<string, Models.Thread>, users: map<string, Models.User>, clock: int,
                                       chat: seq<Outcome<string>>, images: seq<Outcome<string>>, draw: nat -> nat)
    requires !Auth.IsRequestValid(header, verify)
    ensures HandleChatSpec(header, verify, event1, threads, users, clock, chat, images, draw)
         == HandleChatSpec(header, verify, event2, threads, users, clock, chat, images, draw)
         == Effects(Ok(Plain(UNAUTHORIZED)), threads, users, [], [])
  {
  }

  /** Membership events are answered from `Classify` alone, with no effect. */
  lemma MembershipEventsOnlyAnswer(header: Option<string>, verify: Auth.ChatVerifier, event: Event,
                                   threads: map<string, Models.Thread>, users: map<string, Models.User>, clock: int,
                                   chat: seq<Outcome<string>>, images: seq<Outcome<string>>, draw: nat -> nat)
    requires Auth.IsRequestValid(header, verify) && event.eventType != "MESSAGE"
    ensures var e := HandleChatSpec(header, verify, event, threads, users, clock, chat, images, draw);
      && e == Effects(Ok(Classify(event).reply), threads, users, [], [])
      && (event.eventType == "REMOVED_FROM_SPACE" ==> e.reply == Ok(EmptyObject))
  {
  }

  /** `/api_key` stores the argument text as the user's key and confirms,
      without calling the model or touching any thread. */
  lemma ApiKeyCommandStoresKey(event: Event, threads: map<string, Models.Thread>, users: map<string, Models.User>,
                               clock: int, chat: seq<Outcome<string>>, images: seq<Outcome<string>>, draw: nat -> nat)
    requires ParseIds(event).Ok? && CommandId(event) == Some(5)
    ensures var e := ProcessMessageEventSpec(threads, users, clock, event, chat, images, draw);
      && e.reply == Ok(Text(KEY_STORED))
      && e.users == Datastore.PutApiKey(users, ParseIds(event).value.userId, UserText(event))
      && Datastore.LookupApiKey(e.users, ParseIds(event).value.userId) == Some(UserText(event))
      && e.threads == threads && e.chatRequests == [] && e.imageRequests == []
  {
    Datastore.GetApiKeyAfterStore(users, ParseIds(event).value.userId, UserText(event), "");
  }

  /** Any other message from a user whose stored key is absent or empty gets
      the provisioning prompt and has no other effect. */
  lemma UnprovisionedUserIsPrompted(event: Event, threads: map<string, Models.Thread>, users: map<string, Models.User>,
                                    clock: int, chat: seq<Outcome<string>>, images: seq<Outcome<string>>, draw: nat -> nat)
    requires ParseIds(event).Ok? && CommandId(event) != Some(5)
    requires !Datastore.Truthy(Datastore.LookupApiKey(users, ParseIds(event).value.userId))
    ensures ProcessMessageEventSpec(threads, users, clock, event, chat, images, draw)
         == Effects(Ok(Text(KEY_MISSING)), threads, users, [], [])
  {
  }

  /** Storing an empty key through `/api_key` leaves the user blocked: their
      next message of any other kind is answered with the provisioning prompt. */
  lemma EmptyKeyLeavesUserBlocked(first: Event, next: Event,
                                  threads: map<string, Models.Thread>, users: map<string, Models.User>, clock: int,
                                  chat: seq<Outcome<string>>, images: seq<Outcome<string>>, draw: nat -> nat)
    requires ParseIds(first).Ok? && CommandId(first) == Some(5) && UserText(first) == ""
    requires ParseIds(next).Ok? && ParseIds(next).value.userId == ParseIds(first).value.userId
    requires CommandId(next) != Some(5)
    ensures var after := ProcessMessageEventSpec(threads, users, clock, first, chat, images, draw);
      ProcessMessageEventSpec(after.threads, after.users, clock, next, chat, images, draw).reply == Ok(Text(KEY_MISSING))
  {
    var after := ProcessMessageEventSpec(threads, users, clock, first, chat, images, draw);
    ApiKeyCommandStoresKey(first, threads, users, clock, chat, images, draw);
    assert Datastore.LookupApiKey(after.users, ParseIds(next).value.userId) == Some("");
  }

  /** `/new`, `/snark` and `/poet` start afresh: the model receives exactly the
      command's guidance and the user's text, whatever history is stored. */
  lemma GuidedCommandsIgnoreHistory(event: Event, threads: map<string, Models.Thread>, users: map<string, Models.User>,
                                    clock: int, chat: seq<Outcome<string>>, images: seq<Outcome<string>>, draw: nat -> nat)
    requires ParseIds(event).Ok? && CommandId(event) in {Some(1), Some(2), Some(3)}
    requires Datastore.Truthy(Datastore.LookupApiKey(users, ParseIds(event).value.userId))
    ensures var g := CommandFor(CommandId(event)).guidance.value;
      ProcessMessageEventSpec(threads, users, clock, event, chat, images, draw).chatRequests
        == [[Message(System, g), Message(Role.User, UserText(event))]]
  {
  }

  /** Without a guided command the model receives the stored history of the
      thread followed by the user's text. */
  lemma PlainMessageContinuesHistory(event: Event, threads: map<string, Models.Thread>, users: map<string, Models.User>,
                                     clock: int, chat: seq<Outcome<string>>, images: seq<Outcome<string>>,
                                     draw: nat -> nat, history: seq<Message>)
    requires ParseIds(event).Ok? && CommandId(event) !in {Some(1), Some(2), Some(3), Some(4), Some(5)}
    requires Datastore.Truthy(Datastore.LookupApiKey(users, ParseIds(event).value.userId))
    requires var t := Datastore.LookupThread(threads, ParseIds(event).value.threadId);
      t.Some? && Models.GetMessages(t.value) == Ok(history)
    ensures ProcessMessageEventSpec(threads, users, clock, event, chat, images, draw).chatRequests
         == [history + [Message(Role.User, UserText(event))]]
  {
  }

  /** A successful turn on a thread stores exactly the list sent plus the
      answer (type `""`), and replies with the answer; a failed generation
      replies with the error text and stores nothing. */
  lemma ChatTurnOutcome(threads: map<string, Models.Thread>, users: map<string, Models.User>, clock: int,
                        userText: string, threadId: Option<string>, guidance: Option<string>,
                        chat: seq<Outcome<string>>)
    requires ChatHistory(threads, threadId, guidance, userText).Ok?
    ensures var sent := ChatHistory(threads, threadId, guidance, userText).value;
      var e := ProcessChatMessageSpec(threads, users, clock, userText, threadId, guidance, chat);
      && e.chatRequests == [sent]
      && (Nth(chat, 0).Raised? ==> e.reply == Ok(Text(Nth(chat, 0).error)) && e.threads == threads)
      && (Nth(chat, 0).Ok? ==> e.reply == Ok(Text(Nth(chat, 0).value)))
      && (Nth(chat, 0).Ok? && Datastore.Truthy(threadId) ==>
            var t := Datastore.LookupThread(e.threads, threadId);
            && t.Some?
            && Models.GetMessages(t.value) == Ok(sent + [Message(Assistant, Nth(chat, 0).value)])
            && t.value.threadType == "")
      && (!Datastore.Truthy(threadId) ==> e.threads == threads)
  {
    var sent := ChatHistory(threads, threadId, guidance, userText).value;
    if Nth(chat, 0).Ok? && Datastore.Truthy(threadId) {
      Datastore.GetThreadAfterStore(threads, threadId, sent + [Message(Assistant, Nth(chat, 0).value)], "", clock);
    }
  }

  /** Two consecutive plain turns on a thread leave it holding both exchanges
      in order. */
  lemma {:induction false} TwoTurnsAccumulate(threads: map<string, Models.Thread>, users: map<string, Models.User>,
                                              clock: int, threadId: Option<string>, text1: string, text2: string,
                                              answer1: string, answer2: string)
    requires Datastore.Truthy(threadId) && Datastore.LookupThread(threads, threadId).None?
    ensures var e1 := ProcessChatMessageSpec(threads, users, clock, text1, threadId, None, [Ok(answer1)]);
      var e2 := ProcessChatMessageSpec(e1.threads, e1.users, clock, text2, threadId, None, [Ok(answer2)]);
      && e2.reply == Ok(Text(answer2))
      && Models.GetMessages(e2.threads[threadId.value]) ==
           Ok([Message(Role.User, text1), Message(Assistant, answer1), Message(Role.User, text2), Message(Assistant, answer2)])
  {
    var e1 := ProcessChatMessageSpec(threads, users, clock, text1, threadId, None, [Ok(answer1)]);
    var first := [Message(Role.User, text1), Message(Assistant, answer1)];
    assert e1.threads == Datastore.PutThread(threads, threadId, [Message(Role.User, text1)] + [Message(Assistant, answer1)], "", clock);
    assert [Message(Role.User, text1)] + [Message(Assistant, answer1)] == first;
    Datastore.GetThreadAfterStore(threads, threadId, first, "", clock);
    assert ChatHistory(e1.threads, threadId, None, text2) == Ok(first + [Message(Role.User, text2)]);
    var both := first + [Message(Role.User, text2)] + [Message(Assistant, answer2)];
    assert both == [Message(Role.User, text1), Message(Assistant, answer1), Message(Role.User, text2), Message(Assistant, answer2)];
    Datastore.GetThreadAfterStore(e1.threads, threadId, both, "", clock);
  }

  /** In a space that is not a direct message there is no thread id, so no
      turn is ever persisted. */
  lemma NoThreadOutsideDirectMessages(event: Event, threads: map<string, Models.Thread>, users: map<string, Models.User>,
                                      clock: int, chat: seq<Outcome<string>>, images: seq<Outcome<string>>, draw: nat -> nat)
    requires event.space.spaceType != "DIRECT_MESSAGE"
    ensures ProcessMessageEventSpec(threads, users, clock, event, chat, images, draw).threads == threads
  {
  }

  /** The image card: its image and its link are the same URL, the alt text is
      the title followed by the DALL-E credit, and the card id is 25 letters
      and digits. */
  lemma ImageCardFields(threads: map<string, Models.Thread>, users: map<string, Models.User>, imagePrompt: string,
                        chat: seq<Outcome<string>>, images: seq<Outcome<string>>, draw: nat -> nat)
    requires Nth(images, 0).Ok? && Nth(chat, 0).Ok?
    ensures var e := HandleImageCommandSpec(threads, users, imagePrompt, chat, images, draw);
      && e.reply.Ok? && e.reply.value.Cards? && |e.reply.value.cards| == 1
      && var card := e.reply.value.cards[0];
      && |card.sections| == 1 && card.sections[0].header == Some(Nth(chat, 0).value)
      && |card.sections[0].widgets| == 1
      && var w := card.sections[0].widgets[0];
      && w.Image? && w.imageUrl == w.openLinkUrl == Nth(images, 0).value
      && w.altText == Nth(chat, 0).value + " - Generated by DALL-E"
      && |card.cardId| == 25
      && (forall i :: 0 <= i < |card.cardId| ==> card.cardId[i] in ALPHANUMERIC)
  {
  }

  /** A direct message "Hello" with no slash command, from a provisioned user
      with no stored thread, is answered with the model's reply, and the
      thread then holds the user's message and the answer. */
  lemma FirstDirectMessage(event: Event, u: string, s: string, threads: map<string, Models.Thread>,
                           users: map<string, Models.User>, clock: int, answer: string,
                           images: seq<Outcome<string>>, draw: nat -> nat)
    requires '/' !in u && '/' !in s
    requires event.user.name == "users/" + u && event.space.name == "spaces/" + s
    requires event.space.spaceType == "DIRECT_MESSAGE"
    requires event.message == Some(IncomingMessage(Some("Hello"), None))
    requires Datastore.Truthy(Datastore.LookupApiKey(users, u))
    requires u + "-" + s !in threads
    ensures var e := ProcessMessageEventSpec(threads, users, clock, event, [Ok(answer)], images, draw);
      && e.reply == Ok(Text(answer))
      && Datastore.LookupThread(e.threads, Some(u + "-" + s)).Some?
      && Models.GetMessages(e.threads[u + "-" + s]) == Ok([Message(Role.User, "Hello"), Message(Assistant, answer)])
  {
    ParseIdsOf(event, u, s);
    var sent := [Message(Role.User, "Hello")];
    assert sent + [Message(Assistant, answer)] == [Message(Role.User, "Hello"), Message(Assistant, answer)];
    Datastore.GetThreadAfterStore(threads, Some(u + "-" + s), sent + [Message(Assistant, answer)], "", clock);
  }
}
