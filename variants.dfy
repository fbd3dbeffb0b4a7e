/** How the bot variants relate: they share the event dispatch of
    `handle_chat`, and the datastore bot, outside a direct message, behaves
    like the stateless verification bot. */
module Variants {

  import opened Wrappers
  import opened Messages
  import opened Cards
  import opened Events
  import opened Oracles
  import Models
  import EchoBot
  import VerifyBot
  import DatastoreBot
  import ApiKeyBot
  import Auth

  /** An accepted membership event (anything but `MESSAGE`) is answered the
      same way by every variant, with no store write and no model call. */
  lemma {:induction false} MembershipDispatchIsShared(event: Event, header: Option<string>, verify: Auth.ChatVerifier,
                                                     threads: map<string, Models.Thread>, users: map<string, Models.User>,
                                                     clock: int, ask: VerifyBot.ChatModel, chat: seq<Outcome<string>>,
                                                     images: seq<Outcome<string>>, draw: nat -> nat)
    requires event.eventType != "MESSAGE" && Auth.IsRequestValid(header, verify)
    ensures var reply := EchoBot.HandleChat(event);
      && VerifyBot.HandleChat(true, event, ask) == reply
      && DatastoreBot.HandleChatSpec(true, event, threads, clock, chat) == DatastoreBot.Effects(Ok(reply), threads, [])
      && ApiKeyBot.HandleChatSpec(header, verify, event, threads, users, clock, chat, images, draw)
           == ApiKeyBot.Effects(Ok(reply), threads, users, [], [])
  {
    ApiKeyBot.MembershipEventsOnlyAnswer(header, verify, event, threads, users, clock, chat, images, draw);
  }

  /** Outside a direct message the datastore bot sends what the verification
      bot sends, replies what it replies given a model that answers that list
      with the datastore bot's next scripted answer, and stores nothing. */
  lemma {:induction false} DatastoreBotOutsideDmIsStateless(event: Event, threads: map<string, Models.Thread>,
                                                           clock: int, chat: seq<Outcome<string>>,
                                                           ask: VerifyBot.ChatModel)
    requires event.eventType == "MESSAGE" && ParseIds(event).Ok?
    requires event.space.spaceType != "DIRECT_MESSAGE"
    requires ask(VerifyBot.Request(event)) == Nth(chat, 0)
    ensures var e := DatastoreBot.HandleChatSpec(true, event, threads, clock, chat);
      && e.chatRequests == [VerifyBot.Request(event)]
      && e.reply == Ok(VerifyBot.HandleChat(true, event, ask))
      && e.threads == threads
  {
    DatastoreBot.NonDirectMessagesAreStateless(threads, clock, event, chat);
  }
}
