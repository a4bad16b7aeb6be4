/**
 * The voice bot: a table of call sessions keyed by call identifier, driven by the
 * events of a ConversationRelay WebSocket. Each socket remembers the identifier it
 * was set up with. JavaScript lets `undefined` be a key of a `Map`, so a key is an
 * `Option<string>` in which `None` is `undefined`.
 */
module VoiceBot {
  import opened Wrappers
  import opened Text
  import opened Chat

  /** The call persona instruction; its wording is not modelled. */
  const CallPersona: string := "<voice-call persona instruction>"

  /** The first turn of every stored conversation. */
  const SystemTurn: Message := Message(System, CallPersona)

  /** Returned when the model answers without usable content. */
  const NoContentFallback: string := "Sorry, I didn't catch that. Can you say that again?"

  /** Returned when the model call throws. */
  const CallErrorFallback: string := "Eh sorry, got connection issue. Can you repeat that?"

  /** `generateAIResponse`: the trimmed content when there is some, otherwise one of the
    * two fallbacks; in every case a non-empty text. */
  function GenerateAIResponse(messages: seq<Message>, model: Model): (r: string)
    ensures r != []
    ensures ReplyText(model(messages)).Some? ==> r == Trim(model(messages).raw)
    ensures model(messages).Failure? ==> r == CallErrorFallback
    ensures model(messages).NoContent? ==> r == NoContentFallback
    ensures model(messages).Content? && Trim(model(messages).raw) == [] ==> r == NoContentFallback
  {
    var outcome := model(messages);
    if outcome.Failure? then CallErrorFallback else ReplyText(outcome).GetOr(NoContentFallback)
  }

  /** The shape of every stored conversation: the system turn, then user and assistant
    * turns in alternation, ending with an assistant turn (so the length is 1 + 2k). */
  ghost predicate IsCallHistory(h: seq<Message>) {
    && |h| % 2 == 1
    && h[0] == SystemTurn
    && forall i :: 1 <= i < |h| ==> h[i].role == (if i % 2 == 1 then User else Assistant)
  }

  /** One `prompt` exchange on a conversation: the caller's words as a user turn, then
    * the reply to the conversation so far as an assistant turn. */
  function Answered(conversation: seq<Message>, userText: string, model: Model): (r: seq<Message>)
    ensures |r| == |conversation| + 2 && r[..|conversation|] == conversation
    ensures r[|conversation|] == Message(User, userText)
    ensures r[|conversation| + 1] == Message(Assistant, GenerateAIResponse(conversation + [Message(User, userText)], model))
  {
    var asked := conversation + [Message(User, userText)];
    asked + [Message(Assistant, GenerateAIResponse(asked, model))]
  }

  /** An exchange keeps a conversation well shaped. */
  lemma AnsweredKeepsShape(conversation: seq<Message>, userText: string, model: Model)
    requires IsCallHistory(conversation)
    ensures IsCallHistory(Answered(conversation, userText, model))
  {
  }

  /** A conversation after a sequence of prompts, one exchange per prompt. */
  function Converse(conversation: seq<Message>, prompts: seq<string>, model: Model): seq<Message>
    decreases |prompts|
  {
    if prompts == [] then conversation
    else Converse(Answered(conversation, prompts[0], model), prompts[1..], model)
  }

  /** Any number of exchanges keeps a conversation well shaped. */
  lemma {:induction false} ConverseKeepsShape(conversation: seq<Message>, prompts: seq<string>, model: Model)
    requires IsCallHistory(conversation)
    ensures IsCallHistory(Converse(conversation, prompts, model))
    decreases |prompts|
  {
    if prompts != [] {
      AnsweredKeepsShape(conversation, prompts[0], model);
      ConverseKeepsShape(Answered(conversation, prompts[0], model), prompts[1..], model);
    }
  }

  /** Prompts extend a conversation by two turns each and keep what was there. */
  lemma {:induction false} ConverseExtends(conversation: seq<Message>, prompts: seq<string>, model: Model)
    ensures var r := Converse(conversation, prompts, model);
      |r| == |conversation| + 2 * |prompts| && r[..|conversation|] == conversation
    decreases |prompts|
  {
    if prompts != [] {
      var next := Answered(conversation, prompts[0], model);
      ConverseExtends(next, prompts[1..], model);
      var r := Converse(next, prompts[1..], model);
      assert r[..|conversation|] == r[..|next|][..|conversation|];
    }
  }

  /** The i-th prompt is the user turn at index |conversation| + 2i. */
  lemma {:induction false} ConversePromptAt(conversation: seq<Message>, prompts: seq<string>, model: Model, i: nat)
    requires i < |prompts|
    ensures var r := Converse(conversation, prompts, model);
      |conversation| + 2 * i < |r| && r[|conversation| + 2 * i] == Message(User, prompts[i])
    decreases i
  {
    var next := Answered(conversation, prompts[0], model);
    var r := Converse(next, prompts[1..], model);
    assert Converse(conversation, prompts, model) == r;
    ConverseExtends(next, prompts[1..], model);
    if i == 0 {
      assert r[|conversation|] == r[..|next|][|conversation|];
    } else {
      ConversePromptAt(next, prompts[1..], model, i - 1);
      assert prompts[1..][i - 1] == prompts[i];
    }
  }

  /** After k prompts a conversation has grown by 2k turns, keeps its old turns, and
    * holds the i-th prompt as the user turn at index |conversation| + 2i; for a fresh
    * call (only the system turn) that is index 2i + 1. */
  lemma ConverseLayout(conversation: seq<Message>, prompts: seq<string>, model: Model)
    ensures var r := Converse(conversation, prompts, model);
      && |r| == |conversation| + 2 * |prompts|
      && r[..|conversation|] == conversation
      && forall i :: 0 <= i < |prompts| ==> r[|conversation| + 2 * i] == Message(User, prompts[i])
  {
    ConverseExtends(conversation, prompts, model);
    forall i | 0 <= i < |prompts|
      ensures Converse(conversation, prompts, model)[|conversation| + 2 * i] == Message(User, prompts[i])
    {
      ConversePromptAt(conversation, prompts, model, i);
    }
  }

  /** The events a ConversationRelay socket delivers, with a frame that is not valid
    * JSON as its own case. */
  datatype Event =
    | Setup(callSid: Option<string>)
    | Prompt(voicePrompt: string)
    | Interrupt
    | Dtmf(digit: string)
    | RelayError
    | Unknown(kind: string)
    | Unparsable

  /** `if (socket.callSid)`: an identifier that is present and not empty. */
  predicate Truthy(key: Option<string>) {
    key.Some? && key.value != ""
  }

  /** One ConversationRelay WebSocket and the call identifier it was set up with. */
  class Socket {
    var callSid: Option<string>

    constructor ()
      ensures callSid == None
    {
      callSid := None;
    }
  }

  /** The process-wide `sessions` map. */
  class VoiceServer {
    var sessions: map<Option<string>, seq<Message>>

    ghost predicate Valid()
      reads this
    {
      forall key :: key in sessions ==> IsCallHistory(sessions[key])
    }

    constructor ()
      ensures Valid() && sessions == map[]
    {
      sessions := map[];
    }

    /** The conversation a prompt continues: the stored one, or a fresh one holding
      * only the system turn. */
    function Conversation(key: Option<string>): (c: seq<Message>)
      reads this
      requires Valid()
      ensures IsCallHistory(c)
      ensures key !in sessions ==> c == [SystemTurn]
    {
      if key in sessions then sessions[key] else [SystemTurn]
    }

    /** The socket's `message` handler. */
    method OnMessage(socket: Socket, event: Event, model: Model)
      requires Valid()
      modifies this, socket
      ensures Valid()
      ensures event.Setup? ==>
        socket.callSid == event.callSid
        && sessions == old(sessions)[event.callSid := [SystemTurn]]
      ensures event.Prompt? ==>
        socket.callSid == old(socket.callSid)
        && sessions == old(sessions)[socket.callSid := Answered(old(Conversation(socket.callSid)), event.voicePrompt, model)]
      ensures !event.Setup? && !event.Prompt? ==>
        socket.callSid == old(socket.callSid) && sessions == old(sessions)
    {
      match event
      case Setup(callSid) =>
        socket.callSid := callSid;
        sessions := sessions[callSid := [SystemTurn]];
      case Prompt(userText) =>
        var conversation := Conversation(socket.callSid);
        conversation := conversation + [Message(User, userText)];
        var response := GenerateAIResponse(conversation, model);
        conversation := conversation + [Message(Assistant, response)];
        AnsweredKeepsShape(Conversation(socket.callSid), userText, model);
        sessions := sessions[socket.callSid := conversation];
      case Interrupt =>
      case Dtmf(_) =>
      case RelayError =>
      case Unknown(_) =>
      case Unparsable =>
    }

    /** The socket's `close` handler: forgets this socket's call, and nothing else. */
    method OnClose(socket: Socket)
      requires Valid()
      modifies this
      ensures Valid()
      ensures Truthy(socket.callSid) ==> sessions == old(sessions) - {socket.callSid}
      ensures !Truthy(socket.callSid) ==> sessions == old(sessions)
    {
      if Truthy(socket.callSid) {
        sessions := sessions - {socket.callSid};
      }
    }
  }
}
