/** The Google Chat event envelope and the parts of `handle_chat` and
    `process_message_event` that every variant of the bot shares: the
    dispatch on the event type, the defaulting of the message text, and the
    ids taken from the user and space names. */
module Events {

  import opened Wrappers
  import opened Strings
  import opened Cards

  /** `space`: `type` is the legacy ROOM/DM kind, `spaceType` the current one. */
  datatype Space = Space(kind: string, spaceType: string, name: string)

  datatype ChatUser = ChatUser(name: string, displayName: string)

  /** `slashCommand.commandId`, already converted by `int(...)`. */
  datatype SlashCommand = SlashCommand(commandId: int)

  /** `message`: `argumentText` and `slashCommand` may each be absent. */
  datatype IncomingMessage = IncomingMessage(argumentText: Option<string>, slashCommand: Option<SlashCommand>)

  datatype Event = Event(eventType: string, space: Space, user: ChatUser, message: Option<IncomingMessage>)

  const UNAUTHORIZED := "Unauthorized request"
  const ROOM_GREETING := "Thanks for adding me to the room. Mention me in a conversation whenever you need help."
  const DM_GREETING_START := "Hi "
  const DM_GREETING_END := "! I'm here to help whenever you need it."

  function DmGreeting(displayName: string): (greeting: string)
    ensures |greeting| == |DM_GREETING_START| + |displayName| + |DM_GREETING_END|
    ensures greeting[..|DM_GREETING_START|] == DM_GREETING_START
    ensures greeting[|DM_GREETING_START|..|DM_GREETING_START| + |displayName|] == displayName
    ensures greeting[|DM_GREETING_START| + |displayName|..] == DM_GREETING_END
  {
    DM_GREETING_START + displayName + DM_GREETING_END
  }

  /** What `handle_chat` does with a verified event: answer it directly, or
      hand it to `process_message_event`. */
  datatype Dispatch = Answer(reply: Reply) | ProcessMessage

  /** The event-type dispatch of `handle_chat`. An unlisted event type, and an
      unlisted space kind on `ADDED_TO_SPACE`, reach the end of the handler,
      which returns `None`. */
  function Classify(event: Event): (d: Dispatch)
    ensures d == ProcessMessage <==> event.eventType == "MESSAGE"
    ensures event.eventType == "REMOVED_FROM_SPACE" ==> d == Answer(EmptyObject)
    ensures event.eventType == "ADDED_TO_SPACE" && event.space.kind == "ROOM" ==>
              d == Answer(Text(ROOM_GREETING))
    ensures event.eventType == "ADDED_TO_SPACE" && event.space.kind == "DM" ==>
              d == Answer(Text(DmGreeting(event.user.displayName)))
    ensures event.eventType == "ADDED_TO_SPACE" && event.space.kind != "ROOM" && event.space.kind != "DM" ==>
              d == Answer(NoneReturned)
    ensures event.eventType !in {"ADDED_TO_SPACE", "REMOVED_FROM_SPACE", "MESSAGE"} ==>
              d == Answer(NoneReturned)
  {
    if event.eventType == "ADDED_TO_SPACE" then
      if event.space.kind == "ROOM" then Answer(Text(ROOM_GREETING))
      else if event.space.kind == "DM" then Answer(Text(DmGreeting(event.user.displayName)))
      else Answer(NoneReturned)
    else if event.eventType == "REMOVED_FROM_SPACE" then Answer(EmptyObject)
    else if event.eventType == "MESSAGE" then ProcessMessage
    else Answer(NoneReturned)
  }

  /** `event_data.get('message', {}).get('argumentText', "")` */
  function UserText(event: Event): (text: string)
    ensures event.message.None? ==> text == ""
    ensures event.message.Some? && event.message.value.argumentText.None? ==> text == ""
    ensures event.message.Some? && event.message.value.argumentText.Some? ==>
              text == event.message.value.argumentText.value
  {
    match event.message
    case None => ""
    case Some(m) => if m.argumentText.Some? then m.argumentText.value else ""
  }

  /** The slash-command id, if the message carries one. */
  function CommandId(event: Event): (id: Option<int>)
    ensures id.Some? <==> event.message.Some? && event.message.value.slashCommand.Some?
  {
    if event.message.Some? && event.message.value.slashCommand.Some? then
      Some(event.message.value.slashCommand.value.commandId)
    else None
  }

  /** `name.split("/")[1]`, raising `IndexError` when there is no `/`. */
  function SecondSegment(name: string): (r: Outcome<string>)
    ensures r.Ok? <==> '/' in name
    ensures r.Ok? ==> '/' !in r.value
  {
    var parts := Split(name, '/');
    if |parts| < 2 then Raised("IndexError: list index out of range") else Ok(parts[1])
  }

  /** A resource name `collection/id` yields `id`, when `id` has no `/`. */
  lemma {:induction false} SecondSegmentOf(collection: string, id: string)
    requires '/' !in collection && '/' !in id
    ensures SecondSegment(collection + "/" + id) == Ok(id)
  {
    assert Join([collection, id][1..], '/') == id;
    assert Join([collection, id], '/') == collection + "/" + id;
    SplitJoin([collection, id], '/');
  }

  /** The thread id built only for direct messages: `"%s-%s" % (user_id, space_id)`. */
  function ThreadId(userId: string, spaceId: string, spaceType: string): (threadId: Option<string>)
    ensures threadId.Some? <==> spaceType == "DIRECT_MESSAGE"
    ensures threadId.Some? ==> threadId.value == userId + "-" + spaceId
  {
    if spaceType == "DIRECT_MESSAGE" then Some(userId + "-" + spaceId) else None
  }

  datatype Ids = Ids(userId: string, spaceId: string, threadId: Option<string>)

  /** The user id, space id and thread id of a message event; `IndexError`
      when a name has no `/`. */
  function ParseIds(event: Event): (r: Outcome<Ids>)
    ensures r.Ok? <==> '/' in event.user.name && '/' in event.space.name
    ensures r.Ok? ==>
      && Ok(r.value.userId) == SecondSegment(event.user.name)
      && Ok(r.value.spaceId) == SecondSegment(event.space.name)
      && r.value.threadId == ThreadId(r.value.userId, r.value.spaceId, event.space.spaceType)
  {
    match SecondSegment(event.user.name)
    case Raised(e) => Raised(e)
    case Ok(userId) =>
      match SecondSegment(event.space.name)
      case Raised(e) => Raised(e)
      case Ok(spaceId) => Ok(Ids(userId, spaceId, ThreadId(userId, spaceId, event.space.spaceType)))
  }

  /** For names `users/<u>` and `spaces/<s>` the thread id is `u-s` in a
      direct message and absent elsewhere. */
  lemma ParseIdsOf(event: Event, u: string, s: string)
    requires '/' !in u && '/' !in s
    requires event.user.name == "users/" + u && event.space.name == "spaces/" + s
    ensures ParseIds(event) == Ok(Ids(u, s, ThreadId(u, s, event.space.spaceType)))
    ensures event.space.spaceType == "DIRECT_MESSAGE" <==> ParseIds(event).value.threadId == Some(u + "-" + s)
  {
    SecondSegmentOf("users", u);
    SecondSegmentOf("spaces", s);
  }
}
