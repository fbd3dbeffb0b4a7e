/** The first bot: `handle_chat` with no request validation, answering a
    message by echoing its text. */
module EchoBot {

  import opened Cards
  import opened Events

  const ECHO_PREFIX := "You said: "

  /** `process_message_event(event_data)` */
  function ProcessMessageEvent(event: Event): (r: Reply)
    ensures r.Text? && |r.text| == |ECHO_PREFIX| + |UserText(event)|
    ensures r.text[..|ECHO_PREFIX|] == ECHO_PREFIX
    ensures r.text[|ECHO_PREFIX|..] == UserText(event)
  {
    Text(ECHO_PREFIX + UserText(event))
  }

  /** `handle_chat(request)`: every event is dispatched, none is rejected. */
  function HandleChat(event: Event): (r: Reply)
    ensures event.eventType == "MESSAGE" ==> r == ProcessMessageEvent(event)
    ensures event.eventType != "MESSAGE" ==> r == Classify(event).reply
  {
    match Classify(event)
    case Answer(reply) => reply
    case ProcessMessage => ProcessMessageEvent(event)
  }

  /** The echo is faithful: two message events get the same reply exactly when
      their texts are equal, and a message without text is answered with the
      bare prefix. */
  lemma {:induction false} EchoDeterminesText(event1: Event, event2: Event)
    requires event1.eventType == "MESSAGE" && event2.eventType == "MESSAGE"
    ensures HandleChat(event1) == HandleChat(event2) <==> UserText(event1) == UserText(event2)
    ensures event1.message.None? ==> HandleChat(event1) == Text(ECHO_PREFIX)
  {
    var r1 := HandleChat(event1);
    var r2 := HandleChat(event2);
    if r1 == r2 {
      assert UserText(event1) == r1.text[|ECHO_PREFIX|..] == r2.text[|ECHO_PREFIX|..] == UserText(event2);
    }
    if event1.message.None? {
      assert ECHO_PREFIX + "" == ECHO_PREFIX;
    }
  }

  /** Without validation, no event is ever answered `"Unauthorized request"`. */
  lemma NeverRejects(event: Event)
    ensures HandleChat(event) != Plain(UNAUTHORIZED)
  {
  }
}
