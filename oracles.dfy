/** The OpenAI calls, seen from the bot: each call either answers or raises
    `openai.error.OpenAIError`. The oracle answers the k-th chat call with the
    k-th entry of a script fixed in advance (and the k-th image call likewise);
    a call past the end of its script fails. Every request is logged, so that
    contracts can say what was sent and that nothing was sent. */
module Oracles {

  import opened Wrappers
  import opened Messages

  const EXHAUSTED := "no answer left in the oracle script"

  /** The answer to call number `k` of a script. */
  function Nth(script: seq<Outcome<string>>, k: nat): Outcome<string>
  {
    if k < |script| then script[k] else Raised(EXHAUSTED)
  }

  /** The answers still to come after `n` calls. */
  function Upcoming(script: seq<Outcome<string>>, n: nat): (rest: seq<Outcome<string>>)
    ensures forall k: nat :: Nth(rest, k) == Nth(script, n + k)
  {
    if n <= |script| then script[n..] else []
  }

  class Gpt {
    const chatScript: seq<Outcome<string>>
    const imageScript: seq<Outcome<string>>
    /** Every message list sent to `get_gpt_response`, in order. */
    var chatLog: seq<seq<Message>>
    /** Every prompt sent to `create_image_with_prompt`, in order. */
    var imageLog: seq<string>

    constructor (chatScript: seq<Outcome<string>>, imageScript: seq<Outcome<string>>)
      ensures this.chatScript == chatScript && this.imageScript == imageScript
      ensures chatLog == [] && imageLog == []
    {
      this.chatScript := chatScript;
      this.imageScript := imageScript;
      chatLog := [];
      imageLog := [];
    }

    /** The chat answers not yet given. */
    function Chat(): seq<Outcome<string>>
      reads this
    {
      Upcoming(chatScript, |chatLog|)
    }

    /** The image answers not yet given. */
    function Images(): seq<Outcome<string>>
      reads this
    {
      Upcoming(imageScript, |imageLog|)
    }

    /** `gpt_util.get_gpt_response(messages)` */
    method GetGptResponse(messages: seq<Message>) returns (r: Outcome<string>)
      modifies this
      ensures chatLog == old(chatLog) + [messages] && imageLog == old(imageLog)
      ensures r == Nth(old(Chat()), 0)
    {
      r := Nth(chatScript, |chatLog|);
      chatLog := chatLog + [messages];
    }

    /** `gpt_util.create_image_with_prompt(prompt)` */
    method CreateImageWithPrompt(prompt: string) returns (r: Outcome<string>)
      modifies this
      ensures imageLog == old(imageLog) + [prompt] && chatLog == old(chatLog)
      ensures r == Nth(old(Images()), 0)
    {
      r := Nth(imageScript, |imageLog|);
      imageLog := imageLog + [prompt];
    }
  }
}
