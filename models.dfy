/** The datastore entities of the story bot: a `Thread` keeps a conversation's
    message history as the JSON object `{"messages": [...]}`, the time it was
    created and a thread type; a `User` keeps one API key. */
module Models {

  import opened Wrappers
  import opened Messages

  const MESSAGES_KEY := "messages"

  /** A JSON object whose values are message lists. */
  type MessageHistory = map<string, seq<Message>>

  datatype Thread = Thread(messageHistory: MessageHistory, timestamp: int, threadType: string)

  datatype User = User(apiKey: string)

  /** The value written into `message_history`: `{"messages": messages}`. */
  function WrapHistory(messages: seq<Message>): (h: MessageHistory)
    ensures h.Keys == {MESSAGES_KEY}
  {
    map[MESSAGES_KEY := messages]
  }

  /** `Thread.get_messages()`: `message_history['messages']`, which raises
      `KeyError` when the history has no such entry. */
  function GetMessages(t: Thread): (r: Outcome<seq<Message>>)
    ensures r.Ok? <==> MESSAGES_KEY in t.messageHistory
    ensures r.Ok? ==> r.value == t.messageHistory[MESSAGES_KEY]
  {
    if MESSAGES_KEY in t.messageHistory then Ok(t.messageHistory[MESSAGES_KEY])
    else Raised("KeyError: 'messages'")
  }

  /** A freshly created entity (`auto_now_add` stamps it with the clock) before
      any of its other properties are assigned. */
  function NewThread(clock: int): (t: Thread)
    ensures t.timestamp == clock && GetMessages(t).Raised?
  {
    Thread(map[], clock, "")
  }

  /** Reading back what was written returns exactly the written list. */
  lemma GetMessagesAfterWrap(t: Thread, messages: seq<Message>)
    requires t.messageHistory == WrapHistory(messages)
    ensures GetMessages(t) == Ok(messages)
  {
  }
}
