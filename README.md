# Lead state and call sessions of a WhatsApp / voice sales bot

This project models the two sequential cores of a demo insurance-sales assistant and
proves properties of them in Dafny.

- **The WhatsApp bot (`index.js`).** It keeps one in-memory lead record with these
  fields: category (hot / warm / cold), stage (greeting / discovery / followup), notes,
  a do-not-contact flag, a follow-up counter, the conversation history and two
  timestamps. Each inbound webhook call does one of three things:
  - The text `reset` restores the defaults and stamps both timestamps.
  - The text `stop` sets the do-not-contact flag.
  - Any other text clears the do-not-contact flag, moves the greeting to discovery
    and records the user's turn. It then asks the language model, records the
    assistant's turn on a usable reply, reclassifies the lead with a tiered keyword
    match, and rewrites the notes.
- **The voice bot (`voice-server.js`).** It keeps a table from call identifiers to
  conversations, and ConversationRelay WebSocket events change it:
  - `setup` starts a conversation that holds only the system turn.
  - `prompt` appends the caller's words and the model's reply.
  - `close` forgets the socket's call.
  - Every other event leaves the table alone.

The hosted language model is a function parameter, `Chat.Model`. It maps the turn list
sent to one of three outcomes: content (before trimming), a response without content,
or a thrown error. Timestamps are abstract natural numbers supplied by the caller.

Files:
- `wrappers.dfy`: `Option`.
- `text.dfy`: JavaScript `trim`, ASCII `toLowerCase`, and `includes`. `includes` is a
  left-to-right scan, proved equal to the reference definition "occurs at some index".
- `chat.dfy`: turns, model outcomes, and the `?.content?.trim()` selection.
- `classifier.dfy`: the keyword tiers and their precedence.
- `lead_bot.dfy`: the lead record as a class, with the webhook, `resetState`,
  `generateResponse` and `analyzeAndUpdateCategory`. The function `Respond` is the
  specification of `generateResponse` (index.js:105-159): the new history, category and
  reply as values. The method `GenerateResponse` is proved equal to it, and the
  `Respond…` lemmas state what it promises.
- `voice_bot.dfy`: the session table as a class over a `map`, the socket's call
  identifier, and `generateAIResponse`.

Consequences of the code as written that the lemmas make explicit:
- The hot keyword `ready` occurs inside the cold keyword `already have`. So every
  message that says "already have" is hot, and removing `already have` from the cold
  tier changes no outcome (`Classifier.AlreadyHaveIsHot`,
  `Classifier.AlreadyHaveNeverDecides`).
- JavaScript's `Map` accepts `undefined` as a key. A `prompt` that arrives before any
  `setup` on its socket therefore stores a conversation under `undefined`, and `close`
  never deletes it, because `if (socket.callSid)` is false. The same holds for an
  empty call identifier. The model keys the table by `Option<string>` so that these
  entries exist in it too.
- The follow-up limits (index.js:58-62) and `FOLLOWUP_MINUTES` (index.js:12) are
  declared but never read. No code calls `generateResponse` with `isFollowUp` set,
  and nothing increments `followUpCount`. So the model has no follow-up eligibility
  policy, and `followUpCount` only ever returns to 0 on `reset`.

## Model

| member | source | states |
|---|---|---|
| `Text.Trim` | index.js:218 | the result is a contiguous piece of the input, everything cut off on either side is whitespace, and the result neither starts nor ends with whitespace (the ECMAScript whitespace and line-terminator set) |
| `Text.TrimIdempotent` | index.js:218 | trimming an already trimmed text changes nothing |
| `Text.Lower` | index.js:162 | same length, and each ASCII capital becomes the letter 32 code points above it (`A` to `a`) while every other character is kept |
| `Text.ContainsIff` | index.js:166 | the `includes` scan succeeds exactly when the keyword occurs at some index of the text |
| `Text.LowerKeepsOccurrence` | index.js:162-166 | a piece of the text written in any letter case shows up as its lower-cased form in the lower-cased text, so a keyword matches whatever case the sender used |
| `Chat.ReplyText` | index.js:138-140 | a reply is present exactly when the model gave content that is not blank after trimming, and it is that trimmed content |
| `Chat.BlankContentIsNoReply` | index.js:138-143 | content made only of whitespace counts as no reply |
| `Classifier.AnyMatchIff` | index.js:166 | `keywords.some(kw => text.includes(kw))`, some keyword found by the scan, holds exactly when some keyword of the list occurs at some index of the text |
| `Classifier.Classify` | index.js:161-192 | the new category is warm only when the old one was warm or cold (warm never replaces hot) |
| `Classifier.HotWins` | index.js:164-172 | if a hot keyword occurs in the lower-cased message, the category becomes hot, whatever it was |
| `Classifier.ColdWhenNotHot` | index.js:174-182 | if no hot keyword occurs but a cold one does, the category becomes cold, whatever it was |
| `Classifier.WarmOnlyLiftsCold` | index.js:184-191 | if only warm keywords occur, a cold lead becomes warm and any other category is unchanged |
| `Classifier.NoKeywordKeepsCategory` | index.js:161-192 | if no keyword of any tier occurs, the category is unchanged |
| `Classifier.HotIff` | index.js:161-192 | the result is hot exactly when a hot keyword occurs, or the lead was hot and no cold keyword occurs |
| `Classifier.ColdIff` | index.js:161-192 | the result is cold exactly when no hot keyword occurs and either a cold keyword occurs, or the lead was cold and no warm keyword occurs |
| `Classifier.AlreadyHaveIsHot` | index.js:165-175 | every message whose lower-cased text contains "already have" is classified hot, because the hot keyword "ready" occurs inside it |
| `Classifier.AlreadyHaveNeverDecides` | index.js:165-182 | classifying with the cold tier minus "already have" gives the same category for every message and every previous category |
| `Classifier.IgnoresCase` | index.js:162 | classifying the lower-cased message gives the same result as classifying the message |
| `Classifier.ShortMessageKeepsCategory` | index.js:165-186 | every keyword has at least three characters, so a message shorter than three characters keeps the category |
| `Classifier.PriceQuestionIsHot` | index.js:164-172 | "how much is the premium" makes a cold lead hot |
| `Classifier.HotInAnyCase` | index.js:162-172 | a hot keyword written in any letter case ("HOW MUCH", "Price") makes the lead hot, whatever it was |
| `LeadBot.AdvancedStage` | index.js:247-250 | after a normal message the stage is never earlier than before, is never greeting, and any stage other than greeting is kept |
| `LeadBot.Recent` | index.js:121 | `slice(-10)` is the last min(10, n) turns of the history, in order |
| `LeadBot.ContextNoteLayout` | index.js:116 | every character of the status note is placed: the header, the upper-cased category, `, Stage: `, the stage name, `, Notes: `, the notes (or `none` when empty), the follow-up marker for a follow-up only, and `]`, each right after the one before |
| `LeadBot.ContextMessagesLayout` | index.js:115-129 | the request holds 2 + min(10, n) turns, plus 1 for a follow-up: the persona, the status note, the latest min(10, n) history turns in order, and, for a follow-up, the instruction last |
| `LeadBot.LastMessageNote` | index.js:256 | the notes are `Last msg: "`, then the first min(50, n) characters of the message, then `...` exactly when the message is longer than 50, then `"`; never more than 65 characters |
| `LeadBot.NoteTruncationExamples` | index.js:256 | a 60-character message keeps its first 50 characters plus `...`; a 40-character one is kept whole |
| `LeadBot.RespondNeverEmpty` | index.js:105-159 | `generateResponse` never returns an empty text: a usable reply is not blank and both fallbacks are non-empty |
| `LeadBot.RespondAppendOnly` | index.js:105-159 | the old history is a prefix of the new one: turns are only ever appended |
| `LeadBot.RespondRecordsUserTurn` | index.js:107-113 | a direct reply records the user's turn right after the old history, whatever the model does |
| `LeadBot.RespondOnReply` | index.js:138-154 | on a usable reply: exactly one assistant turn holding the reply ends the history (n + 2 turns, n + 1 for a follow-up), the category is reclassified from the message, and the trimmed content is returned |
| `LeadBot.RespondOnFailure` | index.js:138-158 | on an empty answer or a thrown call: no assistant turn is added (n + 1 turns, n for a follow-up), the category is unchanged, and the "tech hiccup" fallback is returned when the call threw, the "connection issue kejap" fallback when the answer was missing or blank |
| `LeadBot.IncomingText` | index.js:218 | a missing body reads as the empty text |
| `LeadBot.IncomingTextEmptyIff` | index.js:218 | the webhook's text is empty exactly when the body is missing or holds only whitespace |
| `LeadBot.Lead.constructor` | index.js:32-41 | the process starts with the default record: warm, greeting, empty notes and history, no opt-out, no follow-ups, no timestamps |
| `LeadBot.Lead.ResetState` | index.js:43-55 | every field is back to its default |
| `LeadBot.Lead.AnalyzeAndUpdateCategory` | index.js:161-192 | the category becomes the classification of the message from the old category; no other field changes |
| `LeadBot.Lead.GenerateResponse` | index.js:105-159 | the new history, the new category and the returned text are those of `Respond` on the old state and the model; stage, notes, flags and timestamps are untouched |
| `LeadBot.Lead.HandleWhatsApp` | index.js:217-268 | `reset` (whole trimmed text, any case) gives the defaults with both timestamps set and the greeting. `stop` sets the opt-out and changes nothing else. Any other text gives the normal path, and the stage never goes back except on `reset` |
| `LeadBot.Lead.ResetCommand` | index.js:226-233 | every field is back to its default, then both timestamps are set, and the reset greeting is returned |
| `LeadBot.Lead.StopCommand` | index.js:235-241 | the opt-out flag is set, nothing else changes, and the acknowledgement is returned |
| `LeadBot.Lead.ReceiveMessage` | index.js:243-262 | opt-out cleared, stage advanced, the inbound timestamp and then the outbound timestamp set, the reply generated with the old notes and the advanced stage, then the notes rewritten from the message; follow-up count unchanged |
| `VoiceBot.GenerateAIResponse` | voice-server.js:84-99 | never empty: the trimmed content when it is not blank, the "didn't catch that" fallback for missing or blank content, the "connection issue" fallback for a thrown call |
| `VoiceBot.Answered` | voice-server.js:217-225 | a prompt adds exactly two turns after the old conversation: the caller's words as a user turn, then the reply to the conversation including those words as an assistant turn |
| `VoiceBot.AnsweredKeepsShape` | voice-server.js:213-228 | a conversation that starts with the system turn and alternates user and assistant turns (odd length) keeps that shape after a prompt |
| `VoiceBot.ConverseKeepsShape` | voice-server.js:213-228 | any number of prompts keeps the system-first, alternating shape |
| `VoiceBot.ConverseLayout` | voice-server.js:207-228 | k prompts add 2k turns after the old ones, which are kept, with the i-th prompt as the user turn at index n + 2i, n being the old length (2i + 1 for a fresh call) |
| `VoiceBot.Socket.constructor` | voice-server.js:186-199 | a new socket has no call identifier until `setup` gives it one |
| `VoiceBot.VoiceServer.constructor` | voice-server.js:72 | the session table starts empty |
| `VoiceBot.VoiceServer.Conversation` | voice-server.js:212-215 | a prompt continues the stored conversation, or one holding only the system turn when the key has none, and either is well shaped |
| `VoiceBot.VoiceServer.OnMessage` | voice-server.js:190-260 | `setup` remembers the identifier on the socket and replaces that key's entry with just the system turn. `prompt` replaces the socket's entry with the answered conversation. Every other event, and a frame that is not JSON, changes nothing. Every stored conversation stays well shaped |
| `VoiceBot.VoiceServer.OnClose` | voice-server.js:262-267 | with a non-empty identifier only that key is removed; with none or an empty one nothing changes |

## Left out

- HTTP and WebSocket servers, routing, TwiML documents, the `text/xml` responses and the JSON frames sent back over the socket. These are I/O; the model returns the reply text instead.
- The outbound-call endpoint `/call` and its configuration checks (voice-server.js:143-183), and every Twilio client call. These are foreign calls.
- The chat-completion request itself: model names, `max_tokens`, `temperature` and the base URL. The whole call is the `Model` parameter.
- Configuration loading, console logging, startup banners and `process.exit`.
- The wording of the two persona prompts. They are placeholder constants; the fallbacks, the command replies and the follow-up instruction are the literal strings.
- The voice welcome greeting. It appears only in the TwiML document that starts a call, which is left out with the other TwiML.
- Health endpoints. The voice bot's `sessions.size` is the number of keys of the modelled map; the lead snapshot is a read of fields.
- Follow-up eligibility, the per-category limits, the follow-up interval and increments of `followUpCount`. The code declares the limits and the interval but never reads them, and no caller sends a follow-up.
- Concurrency. Each webhook call and each socket event is one sequential step. In the source a `prompt` handler awaits the model between reading and writing the session, so a `close` arriving meanwhile would be undone by the write. The model does not capture that interleaving.
- Real clock values. Each `new Date()` is an abstract instant passed in: `receivedAt` for the inbound stamp and `repliedAt` for the outbound one, also on `reset`.
- Text.Lower: lower-cases ASCII letters only, where `toLowerCase` folds all of Unicode.
- LeadBot.LastMessageNote: characters are Unicode code points, whereas `substring(0, 50)` and `length` count UTF-16 code units. The two agree on text without characters outside the Basic Multilingual Plane.
- Payloads of other JavaScript types. The model takes a call identifier as absent or a string, a prompt as a string, and a WhatsApp body as absent or a string. It does not cover:
  - a numeric `callSid` or an absent `voicePrompt`;
  - a JSON `null` `callSid`, which is a different `Map` key from an absent one; both are `None` here;
  - a WhatsApp `Body` that is not a string, such as an array from a repeated form field, where `trim` throws out of the handler.
