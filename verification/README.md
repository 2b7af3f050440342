# Workplace-accident quiz simulator, modelled in Dafny

The repository is a training activity shaped like a WhatsApp phone screen. A co-worker,
Nico, has cut his hand at work. He asks the learner what to do in ten chat questions.
Each answer the learner taps sets off a timed choreography:

- Nico reacts, and may send a sticker or an attachment.
- The boss ("LA JEFA") may comment in her own chat, behind a banner that hides again
  after 5 s.
- A feedback line awards 0, 1 or 2 points. A 2-point answer bursts confetti.
- Nico types the next question.

After the last question, the game ends. A third chat, "Evaluación", receives the final
evaluation:

- the score out of 18;
- a level: "En proceso" below 50 %, "Logro parcial" below 80 %, "Logro esperado" otherwise;
- "Curso Aprobado" from 14 points up, "Curso Reprobado" below.

Nico then sends a contact card that leads there. A passing score posts one completion
signal to the host page. The evaluation chat offers "Reintentar" (reset) and "Terminar"
(terminate).

A second, generic mock-up (`src/script.ts`) lists four bot chats. It answers every sent
message with a canned reply 1.5 s later.

## How the model is organised

- `Wrappers`: `Option`.
- `Evaluation`: the level tier, the evaluation text, the pass/fail verdict and the
  progress bar.
- `Script`: the ten questions and their options, as data. Lemmas show the script is
  well formed and that its best answers add up to the 18 points the evaluation divides by.
- `Chats`: messages, per-channel histories and the chat list. Covers what posting one
  message does to them (`addMessage`).
- `Engine`: the whole component state as a value (`Session`). Defines the state updates
  a timer callback performs (`Event`), a fold `Run` over updates, and an abstraction
  `Observed` of what the quiz changes.
- `Quiz`: the messages the engine builds and the timers an answer starts.
  - Each timer is a due time plus a batch of updates.
  - `AnswerOutcome` is a closed form of the observed state once every timer has fired.
  - `AnswerEffects` proves that running the timers produces that closed form.
- `Game`: the handlers as functions on `Session`: an answer, the intro, reset, terminate,
  navigation, the banner click and the options on offer. Also whole games played
  question by question.
- `Simulator`: the component as a class.
  - Its fields are the React state, updated in place, plus the list of pending timers.
  - Each handler is a method proved to produce exactly the `Game` function of the old
    state.
  - `Fire` runs the first due timer.
  - `PlayAnswer` taps an option and fires the answer's timers in order; it ends in
    `Answered`.
  - The confetti loop is a method.
- `MockChat`: the generic mock-up as a class.
  - Covers the send guard (`trim`), the canned replies, sending, and the reply timer.
  - Has the reply timer both as written and corrected (see Findings).

Timers are explicit. A handler appends its timers, with their due times, to `pending`.
`Fire(i)` runs timer `i` once no pending timer is due earlier. Among timers due at the
same time, the one started first runs first. Clock readings (`Date.now()`) and formatted
clock labels are method parameters, and so are the random draws of the confetti.

## Model

| member | source | states |
|---|---|---|
| Evaluation.LevelOf | dist/script.js:296-301 | the tier is "En proceso" exactly when score·100 < 50·18, "Logro parcial" exactly when 50·18 ≤ score·100 < 80·18, "Logro esperado" exactly when score·100 ≥ 80·18 |
| Evaluation.EvaluationVerdict | dist/script.js:291-310 | the evaluation text starts with the title and ends in "Curso Aprobado" if and only if score ≥ 14, in "Curso Reprobado" if and only if score < 14 |
| Evaluation.VerdictBoundary | dist/script.js:291-306 | 14 points is "Logro parcial" and passes; 13 is "Logro parcial" and fails; 8 is the last "En proceso" score and 15 the first "Logro esperado" score |
| Evaluation.LevelMonotonic | dist/script.js:298-306 | a higher score never gives a lower tier and never turns a pass into a fail |
| Evaluation.ProgressCurrent | dist/script.js:342-343 | `min(step + 1, total)`: never above the total or above step + 1, and equal to one of them |
| Evaluation.ActiveSegmentsIsProgress | dist/script.js:342-355 | the number of bar segments drawn active (`i <= step` over `total` segments) is exactly `min(step + 1, total)` |
| Script.BestScoreIsMax | dist/script.js:52-289 | the best option score of a question bounds every option's score and is reached by one option |
| Script.ScriptWellFormed | dist/script.js:52-289 | the script has ten questions; each offers at least one option; every option scores 0, 1 or 2; the best answers add up to the total of 18 the evaluation divides by |
| Script.PlayScoreBounds | dist/script.js:52-289 | over a script whose options score 0–2, any play scores between 0 and the sum of the best scores |
| Script.FullPlayScore | dist/script.js:52-294 | any play of the whole script scores between 0 and 18 |
| Script.BestPlayReachesMax | dist/script.js:52-289 | some play collects exactly the best total |
| Chats.AppendHistory | dist/script.js:541-545 | posting to channel c appends the message to c's history (an absent channel counts as empty), leaves every other channel's history alone and adds c to the channels |
| Chats.Preview | dist/script.js:552-555 | images, audio and stickers preview as "📷 Foto", "🎤 Audio" and "💟 Sticker"; every other kind previews as its content |
| Chats.ListTime | dist/script.js:556 | a reaction's list time is "Ahora"; every other timestamp is kept |
| Chats.RefreshEntries | dist/script.js:549-559 | the list keeps its length; entries for c get the new preview and time; all others are unchanged |
| Chats.NewEntry | dist/script.js:560-568 | a first message to a channel makes an entry named "Evaluación" with the evaluation avatar exactly for the evaluation channel, "Chat" and the default avatar otherwise, showing the raw content at "Ahora" |
| Chats.PostToListedChat | dist/script.js:547-559 | a post to a listed channel keeps the channels and their order, and the channel's entries preview the new message |
| Chats.PostToNewChat | dist/script.js:560-569 | a first post to a channel puts its new entry at the top, ahead of the unchanged list |
| Engine.RunHistory | dist/script.js:541-545 | a run of updates appends to each channel's history exactly the messages it posts there, in order |
| Engine.RunObserved | dist/script.js:593-780 | a run of updates changes the observed state as the effects fold says, and never the view, the open chat or the intro flag |
| Engine.RunConcat | dist/script.js:593-780 | running two batches in turn is running their concatenation |
| Quiz.PromptTime | dist/script.js:724 | a question sent after an attachment shows "Ahora"; otherwise its own time if it contains ':', else "12:00" |
| Quiz.NicoReplyEffects | dist/script.js:607-649 | Nico's reply timers stop the typing indicator and post the reaction, then the sticker and the attachment when the option has them |
| Quiz.BossEffects | dist/script.js:651-673 | with a boss message, the boss chat receives the quoted question and the message, and the banner shows it under "LA JEFA"; without one, nothing changes |
| Quiz.BossHideEffects | dist/script.js:675 | the boss banner's hide timer leaves the banner hidden, without title or icon, when the answer raised one |
| Quiz.FeedbackEffects | dist/script.js:680-698 | the feedback timer posts the feedback line, sets the score to the click-time score plus the option's, bursts confetti for 2 points and moves to the next step when one exists |
| Quiz.NextQuestionEffects | dist/script.js:699-730 | before the next question Nico types, then posts its attachment (if any) and its text, and the typing indicator ends off |
| Quiz.ClosingEffects | dist/script.js:731-778 | after the last feedback the game finishes, the evaluation of the final score goes to the evaluation chat, Nico posts the note and the contact link, the results banner shows and hides again, and completion is signalled once exactly when the score passes |
| Quiz.AnswerEffects | dist/script.js:593-780 | once every timer of an answer has fired, the observed state is exactly the closed form `AnswerOutcome` |
| Game.ChooseEffects | dist/script.js:593-606 | a tap on a finished game changes nothing; otherwise the learner's message is posted to Nico's chat and the typing indicator comes on, and nothing else changes |
| Game.AnswerResolution | dist/script.js:593-780 | an answer's synchronous part followed by all its timers changes the observed state as `AnswerOutcome` says, and not the view, the open chat or the intro flag |
| Game.AnswerProgress | dist/script.js:680-778 | the score grows by the option's score. With a next question, the step advances, the game stays unfinished and no completion is signalled. On the last question, the step stays, the game finishes, and completion is signalled once exactly when the final score is ≥ 14. Confetti bursts once for a 2-point answer; the typing indicator ends off; the banner ends hidden |
| Game.AnswerMessages | dist/script.js:596-778 | Nico's chat gains the learner's message, the replies, the feedback, then the next question or the note and the link. The boss chat gains the quoted question and the boss message, if any. The evaluation chat gains the evaluation only after the last question |
| Game.NothingOfferedAfterClick | dist/script.js:927-930 | right after a tap no option is offered (the chat ends with the learner's own message) |
| Game.OfferedAfterAnswer | dist/script.js:927-930 | once an answer has played out in Nico's chat, the next question's options are offered; after the last question none are |
| Game.PlayIntro | dist/script.js:782-784 | pressing play marks the intro as played and changes nothing else; a played intro is left as it is |
| Game.IntroStarted | dist/script.js:782-811 | the first press starts two timers, in firing order; a later press starts none |
| Game.IntroPlaysOnce | dist/script.js:782-784 | a second press changes nothing and starts no timer |
| Game.IntroEffects | dist/script.js:786-810 | the intro timers post the injury photo, then the first question, to Nico's chat and change nothing else |
| Game.OfferedAfterIntro | dist/script.js:927-930 | once the intro has played in Nico's chat, the first question's options are offered |
| Game.Reset | dist/script.js:573-581 | the game, intro flag, histories and list return to their initial values with Nico's chat selected; the view, banner, typing flag and counters are kept |
| Game.ResetIdempotent | dist/script.js:573-581 | resetting twice is resetting once; after a reset the intro can play again and the game is not terminated |
| Game.TerminateEffects | dist/script.js:583-591 | terminating hides the evaluation chat's buttons, marks only `isTerminated`, and appends the closing message to the evaluation chat and no other |
| Game.OpenChat | dist/script.js:526-529 | `handleChatSelect` and `navigateToChat` (dist/script.js:813-816): the chat view opens on c and nothing the quiz changes is touched |
| Game.Back | dist/script.js:531-533 | back to the list, with the selected chat kept |
| Game.BackThenOpen | dist/script.js:526-533 | going back and reopening the same chat restores the screen |
| Game.NotificationClick | dist/script.js:535-539 | the banner is hidden and the chat view opens: on the evaluation chat if and only if the banner's title was "Evaluación", on the boss chat otherwise |
| Game.BannerTargets | dist/script.js:535-539 | the results banner leads to the evaluation chat, a boss banner and an already hidden banner to the boss chat |
| Game.ScoreSoFarSplits | dist/script.js:689-691 | a play's score is the score accumulated over its first k answers plus that of the rest |
| Game.PlayFromFacts | dist/script.js:593-780 | answering questions k… of an unfinished game in turn ends on the last question, finished, with the accumulated score, signalling completion once exactly when it passes |
| Game.FullGame | dist/script.js:593-780 | a whole game from the initial state ends finished on the last question with exactly the play's score, and completion is signalled once exactly when that score is ≥ 14 |
| Simulator.AnswerTimelineSteps | dist/script.js:697-699 | an answer's timers only ever move the step to an existing question |
| Simulator.AnswerTimelineOrder | dist/script.js:608-780 | an answer's timers are listed in the order their delays make them fire |
| Simulator.FirstOfOrdered | dist/script.js:593-780 | in a list in firing order the head is the first due and the rest stays in order |
| Simulator.ConfettiPieces | dist/script.js:512-524 | eight pieces with ids now…now+7, each placed at 10 % + 80 %·draw (inside [10, 90)) and showing the emoji its draw picks from the four |
| Simulator.WhatsAppSimulator.constructor | dist/script.js:464-496 | the initial state: list view, Nico's chat selected, step 0 and score 0, the voice note and the boss's reminder, two list entries, no timers, the ten-question script |
| Simulator.WhatsAppSimulator.AddMessage | dist/script.js:541-571 | the state becomes `addMessage` of the old one; no timer changes |
| Simulator.WhatsAppSimulator.Perform | dist/script.js:593-811 | performing one update makes the state exactly the fold's next state |
| Simulator.WhatsAppSimulator.Fire | dist/script.js:593-811 | the first due timer leaves the pending list, its updates are applied in order, and the step still indexes a question |
| Simulator.WhatsAppSimulator.HandleGameChoice | dist/script.js:593-606 | the state becomes `Choose` of the old one; for an unfinished game the answer's timers, built from the step and score seen at the tap, join the pending ones |
| Simulator.WhatsAppSimulator.PlayAnswer | dist/script.js:593-780 | a tap on an option followed by every timer it starts, each fired when the event loop would run it, ends in `Answered` of the old state with no timer left; a tap on a finished game changes nothing |
| Simulator.WhatsAppSimulator.HandleIntroPlay | dist/script.js:782-811 | the state becomes `PlayIntro` of the old one, and the intro's timers are started only on the first press |
| Simulator.WhatsAppSimulator.ResetGame | dist/script.js:573-581 | the state becomes `Reset` of the old one; pending timers are kept |
| Simulator.WhatsAppSimulator.TerminateGame | dist/script.js:583-591 | the state becomes `Terminate` of the old one |
| Simulator.WhatsAppSimulator.OpenChatAt | dist/script.js:526-529 | the state becomes `OpenChat` of the old one |
| Simulator.WhatsAppSimulator.HandleBack | dist/script.js:531-533 | the state becomes `Back` of the old one |
| Simulator.WhatsAppSimulator.HandleNotificationClick | dist/script.js:535-539 | the state becomes `NotificationClick` of the old one |
| MockChat.TrimStart | src/script.ts:165 | the result is a suffix of the input that does not start with white space, and what it drops is all white space |
| MockChat.TrimEnd | src/script.ts:165 | the result is a prefix of the input that does not end with white space, and what it drops is all white space |
| MockChat.TrimEmptyIffBlank | src/script.ts:165 | the input trims to nothing if and only if every character is ECMAScript white space or a line terminator |
| MockChat.ResponseFor | src/script.ts:152-157 | a chat with an entry in the reply table gets that reply; any other chat, or none, gets the default reply |
| MockChat.AnalysisGetsDefault | src/script.ts:152-157 | the listed "analysis" chat has no reply of its own and gets the default; "marketing" gets its own |
| MockChat.ReplyCorrected | src/script.ts:179-189 | the corrected reply keeps the current conversation as a prefix, appending the reply only while the sending chat view is still on screen |
| MockChat.QuickSendsLoseAReply | src/script.ts:174-187 | sending "hola" and then "otra" 0.2 s later in one chat view: as written, the first reply shows [hola, reply1] without "otra", and the second shows [hola, otra, reply2] without reply1 |
| MockChat.QuickSendsKeepBothReplies | src/script.ts:174-187 | corrected, the same two sends end with all four messages, [hola, otra, reply1, reply2] |
| MockChat.ReplyLeaksIntoNextChat | src/script.ts:53-189 | as written, sending "hola" in "marketing", going back and opening "summarize" before the reply is due shows marketing's conversation and reply in the summarize view |
| MockChat.ReplyDroppedInNextChat | src/script.ts:53-189 | corrected, the same run leaves the summarize view empty |
| MockChat.ReplyDroppedOnList | src/script.ts:53-189 | corrected, a reply due while the list is on screen is dropped and the conversation keeps only the sent message |
| MockChat.ReplyAppendedInSameChat | src/script.ts:53-189 | corrected, with the chat left open the reply follows the sent message and the typing indicator stops |
| MockChat.WhatsAppSimulator.constructor | src/script.ts:41-43 | list view, no chat open, no messages, empty input, no typing |
| MockChat.WhatsAppSimulator.HandleChatSelect | src/script.ts:53-58 | opens chat c with an empty conversation and a fresh view (empty input, no typing); pending replies are kept |
| MockChat.WhatsAppSimulator.HandleBack | src/script.ts:60-63 | back to the list with no chat open; the conversation and pending replies are kept |
| MockChat.WhatsAppSimulator.SetInput | src/script.ts:245 | the box holds the typed text; nothing else changes |
| MockChat.WhatsAppSimulator.HandleSend | src/script.ts:164-178 | a blank input changes nothing. Otherwise the untrimmed input is appended as the user's message, the box is cleared, typing shows, and a reply is queued with the chat and the conversation as they now are |
| MockChat.WhatsAppSimulator.DeliverReplyAsWritten | src/script.ts:179-189 | the oldest reply replaces the conversation by its send-time snapshot plus the reply, and stops the typing indicator of the view that sent it if that view is still open |
| MockChat.WhatsAppSimulator.DeliverReply | src/script.ts:179-189 | corrected: no message is ever lost (the old conversation is a prefix of the new one), and the reply is appended only while the chat view that sent it is still on screen (not after going back to the list or opening another chat) |

## Left out

- Rendering, styling, scrolling, the splash screen and its loading timers
  (dist/script.js:472-480, 577-579), the audio bubble's playback, sound effects and
  vibration. None of them changes the quiz state.
- `window.parent.postMessage` is modelled as a counter of completion signals; the host
  page is not part of this model.
- Confetti on screen is a counter of bursts. `ConfettiPieces` models the loop that builds
  one burst, with `Math.random()` draws as parameters; the 2 s timer that clears it is
  display only.
- `Date.now()` and `toLocaleTimeString` are parameters: a millisecond reading and a
  formatted label. Message ids keep the engine's offsets (`+1`, `+2`, …) from the clock
  reading at which the callback runs. The model takes that reading to be the timer's
  nominal due time, ignoring event-loop lateness.
- Ordering among timers: `Fire` runs the earliest due timer and, among timers due at the
  same time, the one started first. Nothing stronger about browser timer ordering is
  modelled.
- Tie order follows the tap, not the moment the source creates each timer: a handler
  appends all the timers of its chain at once, while the source starts nested timers
  inside their parent's callback (the results timers, for instance, about 2.5 s after
  the tap; dist/script.js:757-800). When two answer chains or a reset overlap and two
  timers fall due at exactly the same time, the source may run them in another order.
- Reading `gameState` from a stale render is modelled as the step and score the tap sees.
  A tap in a render older than the last state update is not modelled.
- Game.PlayFrom: skips an answer when the step is out of range, a case `FullGame` shows
  never arises.
- JavaScript truthiness of empty strings: an option's sticker, media and boss message
  are `Option` values; an empty string present in the script would be `Some("")` here.
  The script has none.
- The typing indicator shows only in Nico's chat (dist/script.js:857). The model keeps
  the flag and does not model where it is drawn.
- The service worker (dist/service-worker.js) is not part of this model.
- Reset does not cancel timers still pending, as in the source. Their later updates are
  part of the model (`ResetGame` keeps `pending`). No property about a reset in the
  middle of an answer is stated.
- MockChat message ids: `Date.now().toString()` is a number here. React's warning about
  updating an unmounted component has no state effect and is not modelled.

## Findings

| source | as written | input that shows it | evidently intended | confidence | as-written member | corrected member |
|---|---|---|---|---|---|---|
| src/script.ts:174-187 | the reply timer sets the conversation to the snapshot taken at send time plus the reply | send "hola", then "otra" 0.2 s later: the first reply shows [hola, reply1], hiding "otra"; the second shows [hola, otra, reply2], losing reply1 | append the reply to the conversation as it is when the timer fires | not executed | MockChat.WhatsAppSimulator.DeliverReplyAsWritten, MockChat.QuickSendsLoseAReply | MockChat.WhatsAppSimulator.DeliverReply, MockChat.QuickSendsKeepBothReplies |
| src/script.ts:53-189 | the reply timer outlives the chat view that set it and still writes the parent's conversation | send "hola" in "marketing", go back and open "summarize" within 1.5 s: the empty summarize view shows [hola, marketing's reply] | a reply for a chat that has been left is dropped | not executed | MockChat.WhatsAppSimulator.DeliverReplyAsWritten, MockChat.ReplyLeaksIntoNextChat | MockChat.WhatsAppSimulator.DeliverReply, MockChat.ReplyDroppedInNextChat |
