/** The JSON replies a handler returns to Google Chat, reduced to the fields the
    bot fills in: plain text, cards made of widgets, the empty object, a bare
    string, and Python's `None` (no return statement reached). */
module Cards {

  import opened Wrappers

  datatype Widget =
    | Image(imageUrl: string, openLinkUrl: string, altText: string)
    | StoryImage(imageUrl: string)
    | TextParagraph(text: string)
    | DecoratedText(text: string, wrapText: bool, startIcon: Option<string>)

  datatype Section = Section(header: Option<string>, widgets: seq<Widget>)

  datatype CardV2 = CardV2(cardId: string, sections: seq<Section>)

  datatype Reply =
    | Text(text: string)          // {"text": text}
    | Cards(cards: seq<CardV2>)   // {"cardsV2": cards}
    | EmptyObject                 // {}
    | Plain(body: string)         // a bare string body
    | NoneReturned                // the handler fell off its end
}
