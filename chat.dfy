/**
 * The chat-completion vocabulary both bots share: turns of a conversation and what the
 * hosted language-model call can come back with. The call itself is not modelled; a
 * `Model` stands for it, mapping the turn list that is sent to the outcome.
 */
module Chat {
  import opened Text
  import opened Wrappers

  datatype Role = System | User | Assistant

  /** One `{ role, content }` entry of a chat-completion request or history. */
  datatype Message = Message(role: Role, content: string)

  /** The outcome of `chat.completions.create`: a first choice with message content
    * (before trimming), a response without any, or a thrown error. */
  datatype Completion = Content(raw: string) | NoContent | Failure

  /** The hosted model, seen from the caller: the turns sent determine the outcome. */
  type Model = seq<Message> -> Completion

  /** `completion.choices?.[0]?.message?.content?.trim()`, kept only when it is not empty:
    * present exactly for content that is not blank, and then the trimmed content. */
  function ReplyText(c: Completion): (r: Option<string>)
    ensures r.Some? <==> c.Content? && Trim(c.raw) != []
    ensures r.Some? ==> r.value == Trim(c.raw) && OccursIn(r.value, c.raw)
  {
    match c
    case Content(raw) =>
      var t := Trim(raw);
      if t == [] then None else Some(t)
    case NoContent => None
    case Failure => None
  }

  /** Content that is blank after trimming counts as no reply at all. */
  lemma BlankContentIsNoReply(raw: string)
    requires forall k :: 0 <= k < |raw| ==> IsJsWhitespace(raw[k])
    ensures ReplyText(Content(raw)) == None
  {
    TrimBlank(raw);
  }
}
