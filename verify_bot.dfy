/** The first bot that checks where its requests come from: `handle_chat` and
    `process_message_event` of the verification variant. It keeps no history:
    every message is sent to the model as the cheerful guidance followed by
    the user's text. The validation verdict is a parameter, since this
    variant's `auth_util` is not part of this model, and the language model
    is a function from the list sent to its answer or error. */
module VerifyBot {

  import opened Wrappers
  import opened Messages
  import opened Cards
  import opened Events

  const GUIDANCE := "You are helpful assistant who has a cheerful attitude"

  /** The one request of a message event: the guidance, then the user's text. */
  function Request(event: Event): (messages: seq<Message>)
    ensures |messages| == 2
    ensures messages[0] == Message(System, GUIDANCE)
    ensures messages[1] == Message(Role.User, UserText(event))
  {
    [Message(System, GUIDANCE), Message(Role.User, UserText(event))]
  }

  /** `get_gpt_response(messages)`: the language model's answer to the list
      sent, or the error it raised. */
  type ChatModel = seq<Message> -> Outcome<string>

  /** `process_message_event(event_data)`: the model is asked `Request(event)`
      and the reply is its answer, or the error's text. */
  function ProcessMessageEvent(event: Event, ask: ChatModel): (r: Reply)
    ensures r.Text?
    ensures ask(Request(event)).Ok? ==> r.text == ask(Request(event)).value
    ensures ask(Request(event)).Raised? ==> r.text == ask(Request(event)).error
  {
    match ask(Request(event))
    case Ok(response) => Text(response)
    case Raised(err) => Text(err)
  }

  /** `handle_chat(request)`; `valid` is what `is_request_valid(request)` decided. */
  function HandleChat(valid: bool, event: Event, ask: ChatModel): (r: Reply)
    ensures !valid ==> r == Plain(UNAUTHORIZED)
    ensures valid && event.eventType == "MESSAGE" ==> r == ProcessMessageEvent(event, ask)
    ensures valid && event.eventType != "MESSAGE" ==> r == Classify(event).reply
  {
    if !valid then Plain(UNAUTHORIZED)
    else
      match Classify(event)
      case Answer(reply) => reply
      case ProcessMessage => ProcessMessageEvent(event, ask)
  }

  /** The request depends on nothing but the message text: two events with the
      same text, from any user in any space, send the same list and so get the
      same reply, and a message with no text sends an empty user turn. */
  lemma RequestIsStateless(event1: Event, event2: Event, ask: ChatModel)
    requires UserText(event1) == UserText(event2)
    ensures Request(event1) == Request(event2)
    ensures ProcessMessageEvent(event1, ask) == ProcessMessageEvent(event2, ask)
    ensures event1.message.None? ==> Request(event1)[1] == Message(Role.User, "")
  {
  }

  /** A rejected request gets the same bare-string answer whatever its body
      and whatever the model would have said. */
  lemma UnauthorizedIgnoresBody(event1: Event, event2: Event, ask1: ChatModel, ask2: ChatModel)
    ensures HandleChat(false, event1, ask1) == HandleChat(false, event2, ask2) == Plain(UNAUTHORIZED)
  {
  }
}
