/** The datastore entity of the slash-command bot: a `Thread` with a message
    history and a creation time and no thread type. */
module CommandsModels {

  import opened Wrappers
  import opened Messages
  import Models

  datatype Thread = Thread(messageHistory: Models.MessageHistory, timestamp: int)

  /** `Thread.get_messages()`: `message_history['messages']`, or `KeyError`. */
  function GetMessages(t: Thread): (r: Outcome<seq<Message>>)
    ensures r.Ok? <==> Models.MESSAGES_KEY in t.messageHistory
    ensures r.Ok? ==> r.value == t.messageHistory[Models.MESSAGES_KEY]
  {
    if Models.MESSAGES_KEY in t.messageHistory then Ok(t.messageHistory[Models.MESSAGES_KEY])
    else Raised("KeyError: 'messages'")
  }

  /** Reading back what was written returns exactly the written list. */
  lemma GetMessagesAfterWrap(t: Thread, messages: seq<Message>)
    requires t.messageHistory == Models.WrapHistory(messages)
    ensures GetMessages(t) == Ok(messages)
  {
  }
}
