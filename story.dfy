/** The illustrated choose-your-own-adventure story: `handle_story_command`
    starts a story, `process_story_message` continues it one chapter per
    call, `create_story_chapter` asks the model for the next chapter and an
    illustration, and `create_story_title` for a title. The story is wrapped
    up by a turn-count rule: the user's choice is prefixed with an
    end-the-story instruction when the history holds 8 messages, and the
    chapter that brings it to 10 carries a "The End" widget. */
module Story {

  import opened Wrappers
  import opened Messages
  import opened Cards
  import opened Oracles
  import Models
  import Datastore

  const STORY_PROMPT := "Write the first section of a story in the style of a 'choose your own adventure book'. Each section should be 3 paragraphs, and then offer 3 choices for the reader to continue. The story should be based on the following suggestion: "
  const TITLE_PROMPT := "The following text was given as the topic of a story. Please come up with a witty title for the story. It should be no longer than 8 words: "
  const IMAGE_PROMPT := "Write a prompt with a maximum of 30 words to create an illustrated image for this most recent part of the story:\r\n "
  const IMAGE_STYLE := ". This should be an illustration for a children's book in the style of an acrylic painting."
  const END_PREFIX := "End the story with this option: "
  const STORY_CARD_ID := "story-card"
  const STORY_TYPE := "story"
  /** History length at which the user's choice asks the model to end the story. */
  const END_REQUEST_LENGTH := 8
  /** History length, after the chapter is added, at which "The End" is shown. */
  const THE_END_LENGTH := 10
  /** The closing widget; it sets no `wrapText`. */
  const THE_END := DecoratedText("<b>The End</b>", false, Some("BOOKMARK"))

  /** The bold, wrapped title widget. */
  function TitleWidget(title: string): (w: Widget)
  {
    DecoratedText("<b>" + title + "</b>", true, None)
  }

  /** The widgets of one chapter: the illustration, the text, and "The End"
      when the history (with the chapter) has exactly 10 messages. */
  function ChapterWidgets(imageUrl: string, chapterText: string, historyLength: nat): (ws: seq<Widget>)
    ensures |ws| >= 2 && ws[0] == StoryImage(imageUrl) && ws[1] == TextParagraph(chapterText)
    ensures THE_END in ws <==> historyLength == THE_END_LENGTH
    ensures |ws| == (if historyLength == THE_END_LENGTH then 3 else 2)
  {
    var ws := [StoryImage(imageUrl), TextParagraph(chapterText)];
    if historyLength == THE_END_LENGTH then ws + [THE_END] else ws
  }

  /** A story card: one section holding the given widgets. */
  function StoryCard(widgets: seq<Widget>): (card: CardV2)
  {
    CardV2(STORY_CARD_ID, [Section(None, widgets)])
  }

  /** The text sent for the user's choice, given the history length before it. */
  function ChoiceText(userText: string, historyLength: nat): (t: string)
    ensures historyLength == END_REQUEST_LENGTH ==> t == END_PREFIX + userText
    ensures historyLength != END_REQUEST_LENGTH ==> t == userText
  {
    if historyLength == END_REQUEST_LENGTH then END_PREFIX + userText else userText
  }

  /** What `create_story_chapter` did: its widgets (or the exception that
      escaped it), the caller's list afterwards, and the requests it sent. */
  datatype Chapter = Chapter(
    widgets: Outcome<seq<Widget>>,
    messages: seq<Message>,
    chatRequests: seq<seq<Message>>,
    imageRequests: seq<string>)

  function CreateStoryChapterSpec(history: seq<Message>, chat: seq<Outcome<string>>,
                                  images: seq<Outcome<string>>): (c: Chapter)
    ensures |c.chatRequests| >= 1 && c.chatRequests[0] == history
    ensures Nth(chat, 0).Raised? ==> c.messages == history && c.widgets.Raised?
    ensures Nth(chat, 0).Ok? ==> c.messages == history + [Message(Assistant, Nth(chat, 0).value)]
  {
    match Nth(chat, 0)
    case Raised(e) => Chapter(Raised(e), history, [history], [])
    case Ok(chapterText) =>
      var messages := history + [Message(Assistant, chapterText)];
      var imageMessages := messages + [Message(Role.User, IMAGE_PROMPT + chapterText)];
      match Nth(chat, 1)
      case Raised(e) => Chapter(Raised(e), messages, [history, imageMessages], [])
      case Ok(imagePrompt) =>
        var prompt := imagePrompt + IMAGE_STYLE;
        match Nth(images, 0)
        case Raised(e) => Chapter(Raised(e), messages, [history, imageMessages], [prompt])
        case Ok(imageUrl) =>
          Chapter(Ok(ChapterWidgets(imageUrl, chapterText, |messages|)), messages, [history, imageMessages], [prompt])
  }

  /** What a story handler did. */
  datatype Effects = Effects(
    reply: Outcome<Reply>,
    threads: map<string, Models.Thread>,
    messages: seq<Message>,
    chatRequests: seq<seq<Message>>,
    imageRequests: seq<string>)

  function HandleStoryCommandSpec(threads: map<string, Models.Thread>, clock: int, userText: string,
                                  threadId: Option<string>, chat: seq<Outcome<string>>,
                                  images: seq<Outcome<string>>): (e: Effects)
  {
    var titleRequest := [Message(Role.User, TITLE_PROMPT + userText)];
    match Nth(chat, 0)
    case Raised(err) => Effects(Raised(err), threads, [], [titleRequest], [])
    case Ok(title) =>
      var c := CreateStoryChapterSpec([Message(Role.User, STORY_PROMPT + userText)], Upcoming(chat, 1), images);
      match c.widgets
      case Raised(err) => Effects(Raised(err), threads, c.messages, [titleRequest] + c.chatRequests, c.imageRequests)
      case Ok(chapterWidgets) =>
        Effects(Ok(Cards([StoryCard([TitleWidget(title)] + chapterWidgets)])),
                Datastore.PutThread(threads, threadId, c.messages, STORY_TYPE, clock),
                c.messages, [titleRequest] + c.chatRequests, c.imageRequests)
  }

  function ProcessStoryMessageSpec(threads: map<string, Models.Thread>, clock: int, threadId: Option<string>,
                                   userText: string, history: seq<Message>, chat: seq<Outcome<string>>,
                                   images: seq<Outcome<string>>): (e: Effects)
  {
    var messages := history + [Message(Role.User, ChoiceText(userText, |history|))];
    var c := CreateStoryChapterSpec(messages, chat, images);
    match c.widgets
    case Raised(err) => Effects(Raised(err), threads, c.messages, c.chatRequests, c.imageRequests)
    case Ok(chapterWidgets) =>
      Effects(Ok(Cards([StoryCard(chapterWidgets)])),
              Datastore.PutThread(threads, threadId, c.messages, STORY_TYPE, clock),
              c.messages, c.chatRequests, c.imageRequests)
  }

  // ---------------------------------------------------------------------------
  // The operations, acting on the caller's list in place

  /** `handle_story_command(user_text, thread_id)` */
  method HandleStoryCommand(userText: string, threadId: Option<string>, gpt: Gpt, store: Datastore.Datastore)
      returns (r: Outcome<Reply>)
    modifies gpt, store`threads
    ensures var e := HandleStoryCommandSpec(old(store.threads), store.clock, userText, threadId,
                                            old(gpt.Chat()), old(gpt.Images()));
      && r == e.reply && store.threads == e.threads
      && gpt.chatLog == old(gpt.chatLog) + e.chatRequests && gpt.imageLog == old(gpt.imageLog) + e.imageRequests
  {
    var titleWidget := CreateStoryTitle(userText, gpt);
    if titleWidget.Raised? {
      return Raised(titleWidget.error);
    }
    var storyPrompt := STORY_PROMPT + userText;
    var messages := new MessageList([Message(Role.User, storyPrompt)]);
    var chapterWidgets;
    chapterWidgets, messages := CreateStoryChapter(messages, gpt);
    if chapterWidgets.Raised? {
      return Raised(chapterWidgets.error);
    }
    store.StoreMessages(threadId, messages.items, STORY_TYPE);
    var allWidgets := [titleWidget.value];
    allWidgets := allWidgets + chapterWidgets.value;
    r := Ok(Cards([CardV2(STORY_CARD_ID, [Section(None, allWidgets)])]));
  }

  /** `create_story_title(user_text)` */
  method CreateStoryTitle(userText: string, gpt: Gpt) returns (r: Outcome<Widget>)
    modifies gpt
    ensures gpt.chatLog == old(gpt.chatLog) + [[Message(Role.User, TITLE_PROMPT + userText)]]
    ensures gpt.imageLog == old(gpt.imageLog)
    ensures r == match Nth(old(gpt.Chat()), 0)
                 case Ok(title) => Ok(TitleWidget(title))
                 case Raised(e) => Raised(e)
  {
    var prompt := TITLE_PROMPT + userText;
    var storyTitle := gpt.GetGptResponse([Message(Role.User, prompt)]);
    if storyTitle.Raised? {
      return Raised(storyTitle.error);
    }
    r := Ok(DecoratedText("<b>" + storyTitle.value + "</b>", true, None));
  }

  /** `create_story_chapter(messages)`: appends the chapter to the caller's
      list and returns that same list with the chapter's widgets. */
  method CreateStoryChapter(messages: MessageList, gpt: Gpt) returns (widgets: Outcome<seq<Widget>>, same: MessageList)
    modifies messages, gpt
    ensures same == messages
    ensures var c := CreateStoryChapterSpec(old(messages.items), old(gpt.Chat()), old(gpt.Images()));
      && widgets == c.widgets && messages.items == c.messages
      && gpt.chatLog == old(gpt.chatLog) + c.chatRequests && gpt.imageLog == old(gpt.imageLog) + c.imageRequests
  {
    same := messages;
    var chapterText := gpt.GetGptResponse(messages.items);
    if chapterText.Raised? {
      return Raised(chapterText.error), same;
    }
    var chapterWidget := TextParagraph(chapterText.value);

    messages.Append(Message(Assistant, chapterText.value));

    var imageMessages := messages.Copy();
    var prompt := IMAGE_PROMPT + chapterText.value;
    imageMessages.Append(Message(Role.User, prompt));
    var imagePrompt := gpt.GetGptResponse(imageMessages.items);
    if imagePrompt.Raised? {
      return Raised(imagePrompt.error), same;
    }
    var styledPrompt := imagePrompt.value + IMAGE_STYLE;

    var imageUrl := gpt.CreateImageWithPrompt(styledPrompt);
    if imageUrl.Raised? {
      return Raised(imageUrl.error), same;
    }
    var imageWidget := StoryImage(imageUrl.value);

    var ws := [imageWidget, chapterWidget];
    if |messages.items| == THE_END_LENGTH {
      ws := ws + [THE_END];
    }
    widgets := Ok(ws);
  }

  /** `process_story_message(thread_id, user_text, messages)` */
  method ProcessStoryMessage(threadId: Option<string>, userText: string, messages: MessageList,
                             gpt: Gpt, store: Datastore.Datastore) returns (r: Outcome<Reply>)
    modifies messages, gpt, store`threads
    ensures var e := ProcessStoryMessageSpec(old(store.threads), store.clock, threadId, userText,
                                             old(messages.items), old(gpt.Chat()), old(gpt.Images()));
      && r == e.reply && store.threads == e.threads && messages.items == e.messages
      && gpt.chatLog == old(gpt.chatLog) + e.chatRequests && gpt.imageLog == old(gpt.imageLog) + e.imageRequests
  {
    var text := userText;
    if |messages.items| == END_REQUEST_LENGTH {
      text := END_PREFIX + userText;
    }
    messages.Append(Message(Role.User, text));
    var chapterWidgets, same := CreateStoryChapter(messages, gpt);
    if chapterWidgets.Raised? {
      return Raised(chapterWidgets.error);
    }
    store.StoreMessages(threadId, same.items, STORY_TYPE);
    r := Ok(Cards([CardV2(STORY_CARD_ID, [Section(None, chapterWidgets.value)])]));
  }

  // ---------------------------------------------------------------------------
  // Properties of the story rules

  /** A chapter adds exactly one message to the caller's list, the assistant's
      chapter text; the image-prompt request goes to a copy one message
      longer, which is not kept. */
  lemma ChapterAppendsOnlyTheChapter(history: seq<Message>, chat: seq<Outcome<string>>, images: seq<Outcome<string>>)
    requires Nth(chat, 0).Ok? && Nth(chat, 1).Ok?
    ensures var c := CreateStoryChapterSpec(history, chat, images);
      var text := Nth(chat, 0).value;
      && c.messages == history + [Message(Assistant, text)]
      && c.chatRequests == [history, c.messages + [Message(Role.User, IMAGE_PROMPT + text)]]
      && |c.messages| == |history| + 1
  {
  }

  /** "The End" closes a chapter exactly when the history, with the chapter,
      holds 10 messages; the widgets are always the image, then the text. */
  lemma TheEndExactlyAtTen(history: seq<Message>, chat: seq<Outcome<string>>, images: seq<Outcome<string>>)
    requires CreateStoryChapterSpec(history, chat, images).widgets.Ok?
    ensures var ws := CreateStoryChapterSpec(history, chat, images).widgets.value;
      && ws[..2] == [StoryImage(Nth(images, 0).value), TextParagraph(Nth(chat, 0).value)]
      && (THE_END in ws <==> |history| + 1 == THE_END_LENGTH)
  {
  }

  /** A choice is sent with the end-the-story instruction exactly when the
      incoming history holds 8 messages. */
  lemma EndInstructionExactlyAtEight(threads: map<string, Models.Thread>, clock: int, threadId: Option<string>,
                                     userText: string, history: seq<Message>,
                                     chat: seq<Outcome<string>>, images: seq<Outcome<string>>)
    ensures var e := ProcessStoryMessageSpec(threads, clock, threadId, userText, history, chat, images);
      && e.chatRequests[0] == history + [Message(Role.User, ChoiceText(userText, |history|))]
      && (ChoiceText(userText, |history|) == END_PREFIX + userText <==> |history| == END_REQUEST_LENGTH)
  {
    if |history| != END_REQUEST_LENGTH {
      assert |END_PREFIX + userText| != |userText|;
    }
  }

  /** A successful continuation grows the history by exactly two messages, the
      user's choice and then the chapter, and stores it tagged "story". */
  lemma ContinuationGrowsByTwo(threads: map<string, Models.Thread>, clock: int, threadId: Option<string>,
                               userText: string, history: seq<Message>,
                               chat: seq<Outcome<string>>, images: seq<Outcome<string>>)
    requires Datastore.Truthy(threadId)
    requires ProcessStoryMessageSpec(threads, clock, threadId, userText, history, chat, images).reply.Ok?
    ensures var e := ProcessStoryMessageSpec(threads, clock, threadId, userText, history, chat, images);
      var grown := history + [Message(Role.User, ChoiceText(userText, |history|)), Message(Assistant, Nth(chat, 0).value)];
      && e.messages == grown && |e.messages| == |history| + 2
      && var t := Datastore.LookupThread(e.threads, threadId);
      && t.Some? && Models.GetMessages(t.value) == Ok(grown) && t.value.threadType == STORY_TYPE
  {
    var e := ProcessStoryMessageSpec(threads, clock, threadId, userText, history, chat, images);
    var m := history + [Message(Role.User, ChoiceText(userText, |history|))];
    assert m + [Message(Assistant, Nth(chat, 0).value)]
        == history + [Message(Role.User, ChoiceText(userText, |history|)), Message(Assistant, Nth(chat, 0).value)];
    Datastore.GetThreadAfterStore(threads, threadId, e.messages, STORY_TYPE, clock);
  }

  /** A new story ignores any earlier thread: the chapter request is the one
      story prompt, the stored history is that prompt and the chapter, tagged
      "story", and the card shows the title first, then the chapter. */
  lemma NewStoryStartsFresh(threads: map<string, Models.Thread>, other: map<string, Models.Thread>, clock: int,
                            userText: string, threadId: Option<string>,
                            chat: seq<Outcome<string>>, images: seq<Outcome<string>>)
    requires Datastore.Truthy(threadId)
    ensures var e := HandleStoryCommandSpec(threads, clock, userText, threadId, chat, images);
      && e.reply == HandleStoryCommandSpec(other, clock, userText, threadId, chat, images).reply
      && e.chatRequests == HandleStoryCommandSpec(other, clock, userText, threadId, chat, images).chatRequests
      && (Nth(chat, 0).Ok? ==> e.chatRequests[1] == [Message(Role.User, STORY_PROMPT + userText)])
    ensures var e := HandleStoryCommandSpec(threads, clock, userText, threadId, chat, images);
      e.reply.Ok? ==>
        var story := [Message(Role.User, STORY_PROMPT + userText), Message(Assistant, Nth(chat, 1).value)];
        && e.messages == story
        && var t := Datastore.LookupThread(e.threads, threadId);
        && t.Some? && Models.GetMessages(t.value) == Ok(story) && t.value.threadType == STORY_TYPE
        && e.reply.value.Cards? && |e.reply.value.cards| == 1
        && e.reply.value.cards[0].cardId == STORY_CARD_ID
        && var ws := e.reply.value.cards[0].sections[0].widgets;
        && ws[0] == TitleWidget(Nth(chat, 0).value)
        && ws[1..] == ChapterWidgets(Nth(images, 0).value, Nth(chat, 1).value, 2)
        && THE_END !in ws
  {
    var e := HandleStoryCommandSpec(threads, clock, userText, threadId, chat, images);
    if e.reply.Ok? {
      var story := [Message(Role.User, STORY_PROMPT + userText), Message(Assistant, Nth(chat, 1).value)];
      assert Nth(Upcoming(chat, 1), 0) == Nth(chat, 1);
      assert [Message(Role.User, STORY_PROMPT + userText)] + [Message(Assistant, Nth(chat, 1).value)] == story;
      Datastore.GetThreadAfterStore(threads, threadId, story, STORY_TYPE, clock);
      var ws := e.reply.value.cards[0].sections[0].widgets;
      assert ws == [TitleWidget(Nth(chat, 0).value)] + ChapterWidgets(Nth(images, 0).value, Nth(chat, 1).value, 2);
    }
  }

  /** The k-th continuation of a story begun by `handle_story_command` (whose
      history then holds 2k messages) is asked to end the story, and shows
      "The End", exactly when k is 4; a story continued past that is never
      closed again. */
  lemma EndsOnFourthContinuation(threads: map<string, Models.Thread>, clock: int, threadId: Option<string>,
                                 userText: string, history: seq<Message>, k: nat,
                                 chat: seq<Outcome<string>>, images: seq<Outcome<string>>)
    requires k >= 1 && |history| == 2 * k
    requires ProcessStoryMessageSpec(threads, clock, threadId, userText, history, chat, images).reply.Ok?
    ensures var e := ProcessStoryMessageSpec(threads, clock, threadId, userText, history, chat, images);
      && |e.messages| == 2 * k + 2
      && (e.chatRequests[0][2 * k] == Message(Role.User, END_PREFIX + userText) <==> k == 4)
      && var ws := e.reply.value.cards[0].sections[0].widgets;
      && (THE_END in ws <==> k == 4)
  {
    var e := ProcessStoryMessageSpec(threads, clock, threadId, userText, history, chat, images);
    var m := history + [Message(Role.User, ChoiceText(userText, |history|))];
    TheEndExactlyAtTen(m, chat, images);
    EndInstructionExactlyAtEight(threads, clock, threadId, userText, history, chat, images);
    assert e.chatRequests[0][2 * k] == Message(Role.User, ChoiceText(userText, |history|));
  }
}
