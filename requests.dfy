/**
 * The chat-completion request and response records the conversion engine
 * passes around (the dict-shaped `chat_kwargs`, `input` entries and
 * response dicts of tools/datasets/convert_datasets.py).
 */
module Requests {
  import opened Wrappers

  /** One chat message: a role ("system", "user", ...) and its text. */
  datatype Message = Message(role: string, content: string)

  /**
   * The message list of a request. Every request the engine builds is
   * obtained from `chat_kwargs` by overwriting `messages[-1]`, so the list
   * is never empty.
   */
  type Conversation = m: seq<Message> | |m| > 0 witness [Message("user", "")]

  /** A request: model identifier, sampling temperature (never inspected), messages. */
  datatype Request = Request(model: string, temperature: int, messages: Conversation)

  /**
   * A raw response. The engine reads only `choices[0].message.content`,
   * which the service may leave null; the rest of the record is stored
   * verbatim and never inspected.
   */
  datatype Response = Response(content: Option<string>)

  /** The smaller-context model and the larger-context model it is upgraded to. */
  const Turbo: string := "gpt-3.5-turbo"
  const Turbo16k: string := "gpt-3.5-turbo-16k"

  /** `request["messages"][-1]["content"]` */
  function LastContent(r: Request): string
  {
    r.messages[|r.messages| - 1].content
  }

  /** The request with the content of its last message replaced; nothing else changes. */
  function WithLastContent(r: Request, text: string): (r': Request)
    ensures r'.model == r.model && r'.temperature == r.temperature
    ensures |r'.messages| == |r.messages|
    ensures r'.messages[..|r.messages| - 1] == r.messages[..|r.messages| - 1]
    ensures r'.messages[|r.messages| - 1].role == r.messages[|r.messages| - 1].role
    ensures LastContent(r') == text
  {
    var n := |r.messages|;
    r.(messages := r.messages[..n - 1] + [r.messages[n - 1].(content := text)])
  }

  /**
   * Overwriting the last content twice is the same as overwriting it once
   * with the second text: the in-place update of `chat_kwargs` in the
   * materialisation loop leaves no trace of earlier iterations.
   */
  lemma WithLastContentTwice(r: Request, a: string, b: string)
    ensures WithLastContent(WithLastContent(r, a), b) == WithLastContent(r, b)
  {
    var r1 := WithLastContent(r, a);
    var x := WithLastContent(r1, b);
    var y := WithLastContent(r, b);
    var n := |r.messages|;
    assert x.messages[..n - 1] == y.messages[..n - 1];
    assert x.messages[n - 1] == y.messages[n - 1];
    assert x.messages == x.messages[..n - 1] + [x.messages[n - 1]];
    assert y.messages == y.messages[..n - 1] + [y.messages[n - 1]];
  }

  /**
   * The requests materialised from `lins`: one per linearisation, in
   * order, each the template `chat` with its last message content replaced
   * by `prompt` rendered with that linearisation.
   */
  function Materialise(chat: Request, prompt: string, render: (string, string) -> string, lins: seq<string>): (reqs: seq<Request>)
    ensures |reqs| == |lins|
  {
    seq(|lins|, i requires 0 <= i < |lins| => WithLastContent(chat, render(prompt, lins[i])))
  }

  /**
   * Each materialised request equals `chat_kwargs` except that its last
   * message content is the prompt rendered with its own linearisation.
   */
  lemma MaterialiseShape(chat: Request, prompt: string, render: (string, string) -> string, lins: seq<string>)
    ensures |Materialise(chat, prompt, render, lins)| == |lins|
    ensures forall i :: 0 <= i < |lins| ==>
      var r := Materialise(chat, prompt, render, lins)[i];
      && r.model == chat.model && r.temperature == chat.temperature
      && |r.messages| == |chat.messages|
      && r.messages[..|chat.messages| - 1] == chat.messages[..|chat.messages| - 1]
      && LastContent(r) == render(prompt, lins[i])
  {
    forall i | 0 <= i < |lins|
      ensures Materialise(chat, prompt, render, lins)[i] == WithLastContent(chat, render(prompt, lins[i]))
    {
    }
  }
}
