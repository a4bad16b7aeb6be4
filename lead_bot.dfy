/**
 * The WhatsApp bot: one process-wide lead record, the `reset` and `stop` commands,
 * and the normal path through reply generation and reclassification.
 * Timestamps are abstract instants supplied by the caller; the hosted model is a `Model`.
 */
module LeadBot {
  import opened Wrappers
  import opened Text
  import opened Chat
  import opened Classifier

  datatype Stage = Greeting | Discovery | FollowUp

  /** Position of a stage in the conversation; stages are only ever entered in this order. */
  function StageRank(s: Stage): nat {
    match s
    case Greeting => 0
    case Discovery => 1
    case FollowUp => 2
  }

  /** The stage a normal inbound message leaves the lead in: the greeting gives way to
    * discovery, and no stage is ever left for an earlier one. */
  function AdvancedStage(s: Stage): (r: Stage)
    ensures StageRank(s) <= StageRank(r)
    ensures r != Greeting
    ensures s != Greeting ==> r == s
  {
    if s == Greeting then Discovery else s
  }

  /** The persona instruction sent first on every request; its wording is not modelled. */
  const Persona: string := "<text-channel persona instruction>"

  const FollowUpInstruction: string :=
    "[Generate a short, friendly follow-up message based on the conversation history and lead status. Keep it to 1-2 sentences.]"

  /** Returned when the model answers without usable content. */
  const EmptyReplyFallback: string := "Eh sorry, connection issue kejap. Apa you cakap tadi?"

  /** Returned when the model call throws. */
  const ErrorFallback: string := "Hey! Sorry, had a quick tech hiccup on my end. What were you saying? \U{1F60A}"

  const ResetGreeting: string :=
    "Fresh start! \U{1F44B} Hey there! I'm Sarah from SecureLife. Looking for the right insurance coverage? I'd love to help - what's most important to you right now, protecting your family or building savings?"

  const StopAcknowledgement: string :=
    "No problem at all! I've noted that down. If you ever need insurance advice in the future, just text me anytime. Take care! \U{1F44B}"

  /** How many of the latest history turns go into a request (`slice(-10)`). */
  const ContextWindow: nat := 10

  /** How many characters of the last message the notes keep. */
  const NotesLimit: nat := 50

  const NotesPrefix: string := "Last msg: \""

  function Min(a: nat, b: nat): nat {
    if a <= b then a else b
  }

  /** `category.toUpperCase()`. */
  function CategoryLabel(c: Category): string {
    match c
    case Hot => "HOT"
    case Warm => "WARM"
    case Cold => "COLD"
  }

  function StageName(s: Stage): string {
    match s
    case Greeting => "greeting"
    case Discovery => "discovery"
    case FollowUp => "followup"
  }

  /** The opening of the status note. */
  const StatusHeader: string := "[INTERNAL CONTEXT - Current lead status: "

  /** The labels in front of the stage and the notes. */
  const StageLabel: string := ", Stage: "
  const NotesLabel: string := ", Notes: "

  /** What the status note adds for a follow-up. */
  const FollowUpMarker: string := ", This is a FOLLOW-UP message"

  /** The second system turn: the lead's status as the model is told it. It opens with
    * the header and the upper-cased category, and closes with the notes (or `none`
    * when there are none), the follow-up marker for a follow-up only, and `]`. */
  function ContextNote(category: Category, stage: Stage, notes: string, isFollowUp: bool): string
  {
    StatusHeader + CategoryLabel(category) + StageLabel + StageName(stage) + NotesLabel
    + ShownNotes(notes) + FollowUpTail(isFollowUp) + "]"
  }

  /** `state.notes || 'none'`: empty notes are shown as `none`. */
  function ShownNotes(notes: string): string {
    if |notes| == 0 then "none" else notes
  }

  function FollowUpTail(isFollowUp: bool): string {
    if isFollowUp then FollowUpMarker else ""
  }

  /** Where the parts of the status note sit: the header, the upper-cased category,
    * `, Stage: `, the stage, `, Notes: `, the notes (or `none`), the follow-up marker
    * for a follow-up only, and the closing `]`, each right after the one before. */
  lemma ContextNoteLayout(category: Category, stage: Stage, notes: string, isFollowUp: bool)
    ensures var r := ContextNote(category, stage, notes, isFollowUp);
      var upper := CategoryLabel(category);
      var shown := ShownNotes(notes);
      var atStage := |StatusHeader| + |upper| + |StageLabel|;
      var atShown := atStage + |StageName(stage)| + |NotesLabel|;
      && OccursAt(StatusHeader, r, 0)
      && OccursAt(upper, r, |StatusHeader|)
      && OccursAt(StageLabel, r, |StatusHeader| + |upper|)
      && OccursAt(StageName(stage), r, atStage)
      && OccursAt(NotesLabel, r, atStage + |StageName(stage)|)
      && OccursAt(shown, r, atShown)
      && r[atShown + |shown|..|r| - 1] == FollowUpTail(isFollowUp)
      && r[|r| - 1] == ']'
  {
    EightPieces(StatusHeader, CategoryLabel(category), StageLabel, StageName(stage), NotesLabel,
                ShownNotes(notes), FollowUpTail(isFollowUp), "]");
  }

  /** In a left-to-right join of eight pieces, each piece sits right after the ones before it. */
  lemma EightPieces(p1: string, p2: string, p3: string, p4: string, p5: string, p6: string, p7: string, p8: string)
    ensures var r := p1 + p2 + p3 + p4 + p5 + p6 + p7 + p8;
      var a := |p1| + |p2| + |p3|;
      var b := a + |p4| + |p5|;
      && OccursAt(p1, r, 0)
      && OccursAt(p2, r, |p1|)
      && OccursAt(p3, r, |p1| + |p2|)
      && OccursAt(p4, r, a)
      && OccursAt(p5, r, a + |p4|)
      && OccursAt(p6, r, b)
      && r[b + |p6|..|r| - |p8|] == p7
      && r[|r| - |p8|..] == p8
  {
    var front := p1 + p2 + p3 + p4;
    var r := front + p5 + p6 + p7 + p8;
    FrontPieces(p1, p2, p3, p4);
    BackPieces(front, p5, p6, p7, p8);
    OccursInLonger(p1, front, r, 0);
    OccursInLonger(p2, front, r, |p1|);
    OccursInLonger(p3, front, r, |p1| + |p2|);
    OccursInLonger(p4, front, r, |p1| + |p2| + |p3|);
  }

  /** Each of four joined pieces sits right after the ones before it. */
  lemma FrontPieces(p1: string, p2: string, p3: string, p4: string)
    ensures var q := p1 + p2 + p3 + p4;
      && OccursAt(p1, q, 0)
      && OccursAt(p2, q, |p1|)
      && OccursAt(p3, q, |p1| + |p2|)
      && OccursAt(p4, q, |p1| + |p2| + |p3|)
  {
    var q2 := p1 + p2;
    var q3 := q2 + p3;
    var q := q3 + p4;
    assert q[..|q3|] == q3;
    assert q3[..|q2|] == q2;
    assert q[..|p1|] == q2[..|p1|];
    assert q[|p1|..|q2|] == q2[|p1|..];
    assert q[|q2|..|q3|] == q3[|q2|..];
  }

  /** After any front, the next four pieces of a join are in place and the front is kept. */
  lemma BackPieces(front: string, p5: string, p6: string, p7: string, p8: string)
    ensures var r := front + p5 + p6 + p7 + p8;
      && r[..|front|] == front
      && OccursAt(p5, r, |front|)
      && OccursAt(p6, r, |front| + |p5|)
      && r[|front| + |p5| + |p6|..|r| - |p8|] == p7
      && r[|r| - |p8|..] == p8
  {
    var q5 := front + p5;
    var q6 := q5 + p6;
    var q7 := q6 + p7;
    var r := q7 + p8;
    assert r[..|q7|] == q7;
    assert q7[..|q6|] == q6;
    assert q6[..|q5|] == q5;
    assert r[..|front|] == q5[..|front|];
    assert r[|front|..|q5|] == q5[|front|..];
    assert r[|q5|..|q6|] == q6[|q5|..];
    assert r[|q6|..|q7|] == q7[|q6|..];
  }

  /** A piece of a prefix is a piece of the whole, at the same index. */
  lemma OccursInLonger(piece: string, q: string, r: string, i: int)
    requires |q| <= |r| && r[..|q|] == q && OccursAt(piece, q, i)
    ensures OccursAt(piece, r, i)
  {
    assert r[i..i + |piece|] == r[..|q|][i..i + |piece|];
  }

  /** `history.slice(-10)`: the latest min(10, |history|) turns, in order. */
  function Recent(history: seq<Message>): (r: seq<Message>)
    ensures |r| == Min(ContextWindow, |history|)
    ensures r == history[|history| - |r|..]
  {
    if |history| <= ContextWindow then history else history[|history| - ContextWindow..]
  }

  /** The turn list sent to the model: the persona, the status note, the recent history
    * and, for a follow-up only, the instruction to write one. */
  function ContextMessages(category: Category, stage: Stage, notes: string, history: seq<Message>, isFollowUp: bool): seq<Message>
  {
    var opening := [Message(System, Persona), Message(System, ContextNote(category, stage, notes, isFollowUp))];
    if isFollowUp then opening + Recent(history) + [Message(User, FollowUpInstruction)] else opening + Recent(history)
  }

  /** The request holds the two system turns, the latest min(10, n) history turns in
    * order, and the follow-up instruction last exactly for a follow-up. */
  lemma ContextMessagesLayout(category: Category, stage: Stage, notes: string, history: seq<Message>, isFollowUp: bool)
    ensures var r := ContextMessages(category, stage, notes, history, isFollowUp);
      var n := Min(ContextWindow, |history|);
      && |r| == 2 + n + (if isFollowUp then 1 else 0)
      && r[0] == Message(System, Persona)
      && r[1] == Message(System, ContextNote(category, stage, notes, isFollowUp))
      && r[2..2 + n] == history[|history| - n..]
      && (isFollowUp ==> r[|r| - 1] == Message(User, FollowUpInstruction))
  {
    OpeningThenRecent(Message(System, Persona), Message(System, ContextNote(category, stage, notes, isFollowUp)),
                      Recent(history), Message(User, FollowUpInstruction), isFollowUp);
  }

  /** Two opening turns, then `recent`, then `last` when asked for: each part in its place. */
  lemma OpeningThenRecent(first: Message, second: Message, recent: seq<Message>, last: Message, withLast: bool)
    ensures var r := if withLast then [first, second] + recent + [last] else [first, second] + recent;
      && |r| == 2 + |recent| + (if withLast then 1 else 0)
      && r[0] == first && r[1] == second
      && r[2..2 + |recent|] == recent
      && (withLast ==> r[|r| - 1] == last)
  {
    assert ([first, second] + recent)[2..] == recent;
  }

  /** The notes written after a normal message: the quoted first 50 characters, with
    * an ellipsis inside the quotes exactly when the message was longer than that. */
  function LastMessageNote(message: string): (r: string)
    ensures var n := Min(NotesLimit, |message|);
      |r| == |NotesPrefix| + n + (if |message| > NotesLimit then 3 else 0) + 1
      && r[|NotesPrefix|..|NotesPrefix| + n] == message[..n]
      && r[|NotesPrefix| + n..|r| - 1] == (if |message| > NotesLimit then "..." else "")
    ensures |r| <= |NotesPrefix| + NotesLimit + 4
    ensures r[..|NotesPrefix|] == NotesPrefix && r[|r| - 1] == '"'
  {
    var n := Min(NotesLimit, |message|);
    var marker := if |message| > NotesLimit then "..." else "";
    var r := NotesPrefix + message[..n] + marker + "\"";
    assert r[|NotesPrefix|..|NotesPrefix| + n] == message[..n];
    assert r[|NotesPrefix| + n..|r| - 1] == marker;
    r
  }

  /** A 60-character message keeps its first 50 characters plus the marker; a
    * 40-character message is kept whole. */
  lemma NoteTruncationExamples(long: string, short: string)
    requires |long| == 60 && |short| == 40
    ensures LastMessageNote(long) == NotesPrefix + long[..50] + "...\""
    ensures LastMessageNote(short) == NotesPrefix + short + "\""
  {
  }

  /** What `generateResponse` leaves behind: the new history, the new category and
    * the text returned to the sender. */
  datatype Exchange = Exchange(history: seq<Message>, category: Category, reply: string)

  /** The history as `generateResponse` sends it: a direct reply records the user's turn first. */
  function WithUserTurn(history: seq<Message>, userMessage: string, isFollowUp: bool): seq<Message> {
    if isFollowUp then history else history + [Message(User, userMessage)]
  }

  /** `generateResponse` on a lead with the given history, category, stage and notes:
    * the model sees the history with the user's turn; a usable reply is recorded and
    * triggers reclassification; a thrown call or an empty answer yields a fallback
    * and touches neither the recorded turns nor the category. */
  function Respond(history: seq<Message>, category: Category, stage: Stage, notes: string,
                   userMessage: string, isFollowUp: bool, model: Model): (e: Exchange)
  {
    var asked := WithUserTurn(history, userMessage, isFollowUp);
    Settle(asked, category, userMessage, model(ContextMessages(category, stage, notes, asked, isFollowUp)))
  }

  /** What `generateResponse` makes of the model's outcome, once the asked history is recorded. */
  function Settle(asked: seq<Message>, category: Category, userMessage: string, outcome: Completion): Exchange {
    match ReplyText(outcome)
    case Some(text) => Exchange(asked + [Message(Assistant, text)], Classify(category, userMessage), text)
    case None => Exchange(asked, category, if outcome.Failure? then ErrorFallback else EmptyReplyFallback)
  }

  /** History is only ever appended to: the old turns stay, in order, at the front. */
  lemma RespondAppendOnly(history: seq<Message>, category: Category, stage: Stage, notes: string,
                          userMessage: string, isFollowUp: bool, model: Model)
    ensures var e := Respond(history, category, stage, notes, userMessage, isFollowUp, model);
      |history| <= |e.history| && e.history[..|history|] == history
  {
  }

  /** The text sent back is never empty: a usable reply is not blank, and both
    * fallbacks are fixed non-empty texts. */
  lemma RespondNeverEmpty(history: seq<Message>, category: Category, stage: Stage, notes: string,
                          userMessage: string, isFollowUp: bool, model: Model)
    ensures Respond(history, category, stage, notes, userMessage, isFollowUp, model).reply != []
  {
  }

  /** A direct reply records the user's turn right after the old history, whatever
    * the model does. */
  lemma RespondRecordsUserTurn(history: seq<Message>, category: Category, stage: Stage, notes: string,
                               userMessage: string, model: Model)
    ensures var e := Respond(history, category, stage, notes, userMessage, false, model);
      |history| < |e.history| && e.history[|history|] == Message(User, userMessage)
  {
  }

  /** With a usable reply, exactly one assistant turn holding it follows the asked
    * history, and the category is reclassified from the user's message. */
  lemma RespondOnReply(history: seq<Message>, category: Category, stage: Stage, notes: string,
                       userMessage: string, isFollowUp: bool, model: Model)
    requires var asked := WithUserTurn(history, userMessage, isFollowUp);
      ReplyText(model(ContextMessages(category, stage, notes, asked, isFollowUp))).Some?
    ensures var e := Respond(history, category, stage, notes, userMessage, isFollowUp, model);
      |e.history| == |history| + (if isFollowUp then 1 else 2)
      && e.history[|e.history| - 1] == Message(Assistant, e.reply)
      && e.category == Classify(category, userMessage)
      && Some(e.reply) == ReplyText(model(ContextMessages(category, stage, notes,
                                          WithUserTurn(history, userMessage, isFollowUp), isFollowUp)))
  {
  }

  /** With an empty answer or a thrown call, no assistant turn is recorded, the category
    * stays, and the reply is the matching fallback. */
  lemma RespondOnFailure(history: seq<Message>, category: Category, stage: Stage, notes: string,
                         userMessage: string, isFollowUp: bool, model: Model)
    requires var asked := WithUserTurn(history, userMessage, isFollowUp);
      ReplyText(model(ContextMessages(category, stage, notes, asked, isFollowUp))).None?
    ensures var e := Respond(history, category, stage, notes, userMessage, isFollowUp, model);
      |e.history| == |history| + (if isFollowUp then 0 else 1)
      && e.category == category
      && e.reply == (if model(ContextMessages(category, stage, notes, WithUserTurn(history, userMessage, isFollowUp),
                                              isFollowUp)).Failure?
                     then ErrorFallback else EmptyReplyFallback)
  {
  }

  /** `req.body.Body?.trim() || ''`: a missing body reads as the empty text. */
  function IncomingText(body: Option<string>): (r: string)
    ensures body.None? ==> r == []
  {
    match body
    case Some(b) => Trim(b)
    case None => ""
  }

  /** `incomingMsg.toLowerCase()`: the text the `reset` and `stop` commands are matched against. */
  function CommandText(body: Option<string>): string {
    Lower(IncomingText(body))
  }

  /** The webhook's text is empty exactly when the body is missing or only whitespace. */
  lemma IncomingTextEmptyIff(body: Option<string>)
    ensures IncomingText(body) == [] <==>
      (body.None? || forall k :: 0 <= k < |body.value| ==> IsJsWhitespace(body.value[k]))
  {
    if body.Some? {
      var s := body.value;
      if forall k :: 0 <= k < |s| ==> IsJsWhitespace(s[k]) {
        TrimBlank(s);
      }
      if Trim(s) == [] {
        var i :| OccursAt(Trim(s), s, i) && TrimmedAround(s, i, i + |Trim(s)|);
        assert forall k :: 0 <= k < |s| ==> IsJsWhitespace(s[k]) by {
          forall k | 0 <= k < |s| ensures IsJsWhitespace(s[k]) {
            if k >= i { assert i + |Trim(s)| <= k; }
          }
        }
      }
    }
  }

  /** The single lead record of the WhatsApp bot. */
  class Lead {
    var lastInboundAt: Option<nat>
    var lastOutboundAt: Option<nat>
    var category: Category
    var stage: Stage
    var notes: string
    var dncFlag: bool
    var followUpCount: nat
    var conversationHistory: seq<Message>

    /** The record the process starts with and `reset` restores. */
    predicate IsFresh()
      reads this
    {
      && lastInboundAt == None && lastOutboundAt == None
      && category == Warm && stage == Greeting && notes == ""
      && !dncFlag && followUpCount == 0 && conversationHistory == []
    }

    constructor ()
      ensures IsFresh()
    {
      lastInboundAt, lastOutboundAt := None, None;
      category, stage, notes := Warm, Greeting, "";
      dncFlag, followUpCount, conversationHistory := false, 0, [];
    }

    /** `resetState`: every field back to its default. */
    method ResetState()
      modifies this
      ensures IsFresh()
    {
      lastInboundAt, lastOutboundAt := None, None;
      category, stage, notes := Warm, Greeting, "";
      dncFlag, followUpCount, conversationHistory := false, 0, [];
    }

    /** `analyzeAndUpdateCategory`: the first keyword tier that matches decides. */
    method AnalyzeAndUpdateCategory(userMessage: string)
      modifies this`category
      ensures category == Classify(old(category), userMessage)
    {
      var lowerMsg := Lower(userMessage);
      if AnyMatch(lowerMsg, HotKeywords) {
        if category != Hot {
          category := Hot;
        }
        return;
      }
      if AnyMatch(lowerMsg, ColdKeywords) {
        if category != Cold {
          category := Cold;
        }
        return;
      }
      if AnyMatch(lowerMsg, WarmKeywords) {
        if category == Cold {
          category := Warm;
        }
      }
    }

    /** `generateResponse`: records the user's turn (unless this is a follow-up), asks
      * the model, and on a usable reply records it and reclassifies. */
    method GenerateResponse(userMessage: string, isFollowUp: bool, model: Model) returns (reply: string)
      modifies this`conversationHistory, this`category
      ensures Exchange(conversationHistory, category, reply)
        == Respond(old(conversationHistory), old(category), old(stage), old(notes), userMessage, isFollowUp, model)
    {
      if !isFollowUp {
        conversationHistory := conversationHistory + [Message(User, userMessage)];
      }
      var messages := ContextMessages(category, stage, notes, conversationHistory, isFollowUp);
      var completion := model(messages);
      if completion.Failure? {
        return ErrorFallback;
      }
      var text := ReplyText(completion);
      if text.None? {
        return EmptyReplyFallback;
      }
      conversationHistory := conversationHistory + [Message(Assistant, text.value)];
      AnalyzeAndUpdateCategory(userMessage);
      reply := text.value;
    }

    /** The `/whatsapp` webhook: `reset`, `stop`, or a normal message. */
    method HandleWhatsApp(body: Option<string>, receivedAt: nat, repliedAt: nat, model: Model) returns (reply: string)
      modifies this
      ensures CommandText(body) == "reset" ==>
          && category == Warm && stage == Greeting && notes == ""
          && !dncFlag && followUpCount == 0 && conversationHistory == []
          && lastInboundAt == Some(receivedAt) && lastOutboundAt == Some(repliedAt)
          && reply == ResetGreeting
      ensures CommandText(body) == "stop" ==>
          && dncFlag
          && category == old(category) && stage == old(stage) && notes == old(notes)
          && followUpCount == old(followUpCount) && conversationHistory == old(conversationHistory)
          && lastInboundAt == old(lastInboundAt) && lastOutboundAt == old(lastOutboundAt)
          && reply == StopAcknowledgement
      ensures var message := IncomingText(body);
        CommandText(body) != "reset" && CommandText(body) != "stop" ==>
          && !dncFlag
          && stage == AdvancedStage(old(stage))
          && notes == LastMessageNote(message)
          && followUpCount == old(followUpCount)
          && lastInboundAt == Some(receivedAt) && lastOutboundAt == Some(repliedAt)
          && Exchange(conversationHistory, category, reply)
             == Respond(old(conversationHistory), old(category), AdvancedStage(old(stage)), old(notes), message, false, model)
      ensures CommandText(body) != "reset" ==> StageRank(old(stage)) <= StageRank(stage)
    {
      var incomingMsg := IncomingText(body);
      var lowerMsg := CommandText(body);

      if lowerMsg == "reset" {
        reply := ResetCommand(receivedAt, repliedAt);
        return;
      }

      if lowerMsg == "stop" {
        reply := StopCommand();
        return;
      }

      reply := ReceiveMessage(incomingMsg, receivedAt, repliedAt, model);
    }

    /** The `reset` command: the defaults, with both timestamps set, and the greeting. */
    method ResetCommand(receivedAt: nat, repliedAt: nat) returns (reply: string)
      modifies this
      ensures category == Warm && stage == Greeting && notes == ""
      ensures !dncFlag && followUpCount == 0 && conversationHistory == []
      ensures lastInboundAt == Some(receivedAt) && lastOutboundAt == Some(repliedAt)
      ensures reply == ResetGreeting
    {
      ResetState();
      lastInboundAt := Some(receivedAt);
      lastOutboundAt := Some(repliedAt);
      reply := ResetGreeting;
    }

    /** The `stop` command: the opt-out is recorded and nothing else changes. */
    method StopCommand() returns (reply: string)
      modifies this`dncFlag
      ensures dncFlag
      ensures reply == StopAcknowledgement
    {
      dncFlag := true;
      reply := StopAcknowledgement;
    }

    /** The webhook's normal path for text that is neither command: record the
      * arrival, clear the opt-out, advance the stage, reply, and rewrite the notes. */
    method ReceiveMessage(incomingMsg: string, receivedAt: nat, repliedAt: nat, model: Model) returns (reply: string)
      modifies this
      ensures !dncFlag
      ensures stage == AdvancedStage(old(stage))
      ensures notes == LastMessageNote(incomingMsg)
      ensures followUpCount == old(followUpCount)
      ensures lastInboundAt == Some(receivedAt) && lastOutboundAt == Some(repliedAt)
      ensures Exchange(conversationHistory, category, reply)
        == Respond(old(conversationHistory), old(category), AdvancedStage(old(stage)), old(notes), incomingMsg, false, model)
    {
      lastInboundAt := Some(receivedAt);
      dncFlag := false;

      if stage == Greeting {
        stage := Discovery;
      }

      reply := GenerateResponse(incomingMsg, false, model);

      notes := LastMessageNote(incomingMsg);

      lastOutboundAt := Some(repliedAt);
    }
  }
}
