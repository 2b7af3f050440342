/** The simulator's handlers on the whole session: the state it starts in, an answer and
    the intro, the two end-of-game buttons, navigation and the banner, what Nico's chat
    offers to answer, and what a whole game adds up to. */
module Game {
  import opened Wrappers
  import opened Chats
  import opened Engine
  import opened Script
  import opened Quiz
  import Evaluation

  // ---- The initial state ----

  const InitialGame := GameState(0, 0, false, false)

  /** Nico's voice note, the one message his chat starts with. */
  const IntroAudio := Message(Named("audio-1"), Audio, Some(AudioMessageSrc), "08:10", duration := Some("0:12"))

  const BossReminder := Message(Named("init-j"), Ai,
    Some("Habla con el Nico" + " y recuerda" + " enviar el" + " informe de" + " incidentes."), "Ayer")

  const InitialHistory: Histories := map[Nico := [IntroAudio], Jefe := [BossReminder], Eval := []]

  const InitialChatList := [
    ChatEntry(Nico, "Nico (Compa)", Some("🎤 Audio (0:12)"), "08:12", "nico"),
    ChatEntry(Jefe, "Jefatura", Some("Habla con el Nico" + " y recuerda" + " enviar el..."), "Ayer", "jefe")]

  /** The banner starts hidden, with the boss's title and icon. */
  const InitialBanner := Notification(false, "", Some(BossTitle), Some(BossIcon))

  const InitialSession := Session(ListView, Nico, InitialGame, false, InitialHistory, InitialChatList,
    InitialBanner, false, 0, 0)

  // ---- An answer ----

  /** What a click on option `o` changes at once in the observed part: the learner's
      message is appended to Nico's chat and the typing indicator comes on. */
  function Chosen(f: Effects, o: ScriptOption, clock: int, time: string): Effects {
    f.(nico := f.nico + [UserMessage(o, clock, time)], typing := true)
  }

  /** `handleGameChoice`, its synchronous part: ignored once the game is finished;
      otherwise the learner's message goes to Nico's chat and Nico starts typing. */
  function Choose(s: Session, o: ScriptOption, clock: int, time: string): Session {
    if s.game.isFinished then s else Run(s, [Post(Nico, UserMessage(o, clock, time)), SetTyping(true)])
  }

  /** The session once every timer of the answer has fired, with no other update in
      between. The timers are computed from the step and score the click saw. */
  function Answered(s: Session, script: seq<ScriptNode>, o: ScriptOption, clock: int, time: string): Session
    requires s.game.step < |script|
  {
    if s.game.isFinished then s
    else Run(Choose(s, o, clock, time), Events(AnswerTimeline(script, s.game.step, s.game.score, o, clock)))
  }

  /** A click on a finished game changes nothing; otherwise it changes the observed part
      as `Chosen` says and keeps the game state, view, open chat and intro flag. */
  lemma ChooseEffects(s: Session, o: ScriptOption, clock: int, time: string)
    ensures s.game.isFinished ==> Choose(s, o, clock, time) == s
    ensures !s.game.isFinished ==> Observed(Choose(s, o, clock, time)) == Chosen(Observed(s), o, clock, time)
    ensures Choose(s, o, clock, time).game == s.game
    ensures Choose(s, o, clock, time).view == s.view && Choose(s, o, clock, time).activeChat == s.activeChat
    ensures Choose(s, o, clock, time).introPlayed == s.introPlayed
  {
    if !s.game.isFinished {
      hide UserMessage, Next;
      var es := [Post(Nico, UserMessage(o, clock, time)), SetTyping(true)];
      RunObserved(s, es);
      AfterTwo(Observed(s), es[0], es[1]);
      ChannelsDistinct();
    }
  }

  /** Once all its timers have fired, an answer to an unfinished game has changed the
      observed part of the session as `AnswerOutcome` says, starting from the state the
      click left, and has left the view, the open chat and the intro flag alone. */
  lemma AnswerResolution(s: Session, script: seq<ScriptNode>, o: ScriptOption, clock: int, time: string)
    requires s.game.step < |script| && !s.game.isFinished
    ensures Observed(Answered(s, script, o, clock, time))
         == AnswerOutcome(script, s.game.step, s.game.score, o, clock, Chosen(Observed(s), o, clock, time))
    ensures Answered(s, script, o, clock, time).view == s.view
    ensures Answered(s, script, o, clock, time).activeChat == s.activeChat
    ensures Answered(s, script, o, clock, time).introPlayed == s.introPlayed
  {
    hide AnswerTimeline, Events, AnswerOutcome, After, Run, Apply, Observed, Chosen, Choose, Next;
    var c := Choose(s, o, clock, time);
    ChooseEffects(s, o, clock, time);
    var es := Events(AnswerTimeline(script, s.game.step, s.game.score, o, clock));
    RunObserved(c, es);
    AnswerEffects(script, s.game.step, s.game.score, o, clock, Observed(c));
  }

  /** What an answer does to the game: the score grows by the option's score; the game
      moves to the next question, or finishes on the last one and then signals completion
      exactly when the final score passes; a 2-point answer bursts confetti once; the
      typing indicator ends off; a boss banner is hidden again. */
  lemma AnswerProgress(s: Session, script: seq<ScriptNode>, o: ScriptOption, clock: int, time: string)
    requires s.game.step < |script| && !s.game.isFinished
    ensures var r := Answered(s, script, o, clock, time);
      && r.game.score == s.game.score + o.score
      && r.game.isTerminated == s.game.isTerminated
      && (HasNext(script, s.game.step) ==>
            r.game.step == s.game.step + 1 && !r.game.isFinished && r.completions == s.completions
            && r.notification == AfterBossHide(o, s.notification))
      && (!HasNext(script, s.game.step) ==>
            r.game.step == s.game.step && r.game.isFinished && r.notification == Hidden
            && r.completions == s.completions + (if s.game.score + o.score >= Evaluation.PassingScore then 1 else 0))
      && r.confettiBursts == s.confettiBursts + (if o.score == 2 then 1 else 0)
      && !r.isTyping
  {
    hide AnswerTimeline, Events, After, Run, Apply, Choose, Next, NicoReplies, BossPosts, QuestionPosts, FeedbackMessage, EvaluationResult;
    AnswerResolution(s, script, o, clock, time);
  }

  /** The messages an answer posts: to Nico's chat the learner's message, Nico's replies,
      the feedback and then the next question, or on the last question the note and the
      link; to the boss the quoted question and message, if any; to the evaluation
      channel the evaluation of the final score, on the last question only. */
  lemma AnswerMessages(s: Session, script: seq<ScriptNode>, o: ScriptOption, clock: int, time: string)
    requires s.game.step < |script| && !s.game.isFinished
    ensures var r, step := Answered(s, script, o, clock, time), s.game.step;
      var before := History(s.chatHistory, Nico) + [UserMessage(o, clock, time)]
        + NicoReplies(o, ReactionTime(clock)) + [FeedbackMessage(o, FeedbackTime(clock))];
      && History(r.chatHistory, Nico) == before
           + (if HasNext(script, step) then QuestionPosts(script[step + 1], FeedbackTime(clock) + NextPreDelay + NextTypingDelay)
              else [PreContactMessage, EvaluationLink])
      && History(r.chatHistory, Jefe) == History(s.chatHistory, Jefe) + BossPosts(script[step].text, o, ReactionTime(clock))
      && History(r.chatHistory, Eval) == History(s.chatHistory, Eval)
           + (if HasNext(script, step) then [] else [EvaluationResult(s.game.score + o.score)])
  {
    hide AnswerTimeline, Events, After, Run, Apply, Choose, Next, NicoReplies, BossPosts, QuestionPosts, FeedbackMessage, EvaluationResult, UserMessage;
    AnswerResolution(s, script, o, clock, time);
    var step := s.game.step;
    if HasNext(script, step) {
      assert History(s.chatHistory, Eval) + [] == History(s.chatHistory, Eval);
    }
  }

  // ---- What Nico's chat offers ----

  /** The options shown under the open chat: only in Nico's chat, while the game is not
      finished, and when the chat's last message is Nico's and is not a reaction; then
      the options of the current question. */
  function Offered(s: Session, script: seq<ScriptNode>): seq<ScriptOption>
    requires s.game.step < |script|
  {
    var msgs := History(s.chatHistory, s.activeChat);
    if s.view == ChatView && s.activeChat == Nico && !s.game.isFinished
       && |msgs| > 0 && msgs[|msgs| - 1].kind == Ai && !msgs[|msgs| - 1].isReaction
    then script[s.game.step].options
    else []
  }

  /** Nico's chat is on screen. */
  predicate InNicoChat(s: Session) {
    s.view == ChatView && s.activeChat == Nico
  }

  /** Right after a click no option is offered: the chat now ends with the learner's
      own message. */
  lemma NothingOfferedAfterClick(s: Session, script: seq<ScriptNode>, o: ScriptOption, clock: int, time: string)
    requires s.game.step < |script| && !s.game.isFinished
    ensures Choose(s, o, clock, time).game.step < |script|
    ensures Offered(Choose(s, o, clock, time), script) == []
  {
    hide Run;
    ChooseEffects(s, o, clock, time);
  }

  lemma EndsWithPrompt(pre: seq<Message>, node: ScriptNode, t2: int)
    ensures var n := pre + QuestionPosts(node, t2); |n| > 0 && n[|n| - 1] == PromptMessage(node, t2)
  {
    var md := if node.media.Some? then [MediaMessage(node.media.value, Stamp(t2 + 2))] else [];
    assert pre + QuestionPosts(node, t2) == (pre + md) + [PromptMessage(node, t2)];
  }

  /** Once an answer has played out in Nico's chat, the options of the next question are
      offered; after the last question, none. */
  lemma OfferedAfterAnswer(s: Session, script: seq<ScriptNode>, o: ScriptOption, clock: int, time: string)
    requires s.game.step < |script| && !s.game.isFinished && InNicoChat(s)
    ensures Answered(s, script, o, clock, time).game.step < |script|
    ensures HasNext(script, s.game.step) ==> Offered(Answered(s, script, o, clock, time), script) == script[s.game.step + 1].options
    ensures !HasNext(script, s.game.step) ==> Offered(Answered(s, script, o, clock, time), script) == []
  {
    hide AnswerTimeline, Events, After, Run, Apply, Choose, Next, NicoReplies, BossPosts, QuestionPosts, FeedbackMessage, EvaluationResult, UserMessage;
    AnswerResolution(s, script, o, clock, time);
    var step := s.game.step;
    if HasNext(script, step) {
      var before := History(s.chatHistory, Nico) + [UserMessage(o, clock, time)]
        + NicoReplies(o, ReactionTime(clock)) + [FeedbackMessage(o, FeedbackTime(clock))];
      EndsWithPrompt(before, script[step + 1], FeedbackTime(clock) + NextPreDelay + NextTypingDelay);
    }
  }

  // ---- The intro ----

  /** The timers the intro starts: the photo after 5 s, the first question after 12 s. */
  function IntroTimeline(script: seq<ScriptNode>, clock: int): seq<Timer>
    requires |script| > 0
  {
    [Timer(clock + 5000, [Post(Nico, IntroImage)]), Timer(clock + 12000, [Post(Nico, IntroText(script[0]))])]
  }

  /** `handleIntroPlay`, its synchronous part: the intro is marked as played. The timers
      are started only when it had not been played before. */
  function PlayIntro(s: Session): (r: Session)
    ensures r.introPlayed
    ensures s.introPlayed ==> r == s
    ensures r == s.(introPlayed := true)
  {
    s.(introPlayed := true)
  }

  /** The timers a press of play starts: the intro's, unless it was already played. */
  function IntroStarted(s: Session, script: seq<ScriptNode>, clock: int): (ts: seq<Timer>)
    requires |script| > 0
    ensures s.introPlayed ==> ts == []
    ensures !s.introPlayed ==> |ts| == 2 && InFiringOrder(ts)
  {
    if s.introPlayed then [] else IntroTimeline(script, clock)
  }

  /** A second press of play does nothing: no state change and no timers. */
  lemma IntroPlaysOnce(s: Session, script: seq<ScriptNode>, clock: int)
    requires |script| > 0
    ensures PlayIntro(PlayIntro(s)) == PlayIntro(s)
    ensures IntroStarted(PlayIntro(s), script, clock) == []
  {
  }

  /** The intro posts the photo and then the first question to Nico's chat and changes
      nothing else that is observed. */
  lemma IntroEffects(script: seq<ScriptNode>, clock: int, f: Effects)
    requires |script| > 0
    ensures After(f, Events(IntroTimeline(script, clock))) == f.(nico := f.nico + [IntroImage, IntroText(script[0])])
  {
    hide After, IntroText;
    var a, b := Timer(clock + 5000, [Post(Nico, IntroImage)]), Timer(clock + 12000, [Post(Nico, IntroText(script[0]))]);
    assert IntroTimeline(script, clock) == [a] + [b];
    EventsCons(a, [b]);
    EventsOne(b);
    AfterConcat(f, a.batch, b.batch);
    PostNico(f, IntroImage);
    PostNico(f.(nico := f.nico + [IntroImage]), IntroText(script[0]));
  }

  /** Once the intro has played in Nico's chat, the first question's options are
      offered. */
  lemma OfferedAfterIntro(s: Session, script: seq<ScriptNode>, clock: int)
    requires |script| > 0 && s.game.step == 0 && !s.game.isFinished && InNicoChat(s)
    ensures Run(s, Events(IntroTimeline(script, clock))).game.step == 0
    ensures Offered(Run(s, Events(IntroTimeline(script, clock))), script) == script[0].options
  {
    hide After, Events, Run, Apply, IntroTimeline, Next;
    RunObserved(s, Events(IntroTimeline(script, clock)));
    IntroEffects(script, clock, Observed(s));
    var n := History(s.chatHistory, Nico) + [IntroImage, IntroText(script[0])];
    assert n[|n| - 1] == IntroText(script[0]);
  }

  // ---- The evaluation channel's buttons ----

  /** The evaluation channel shows "Reintentar" and "Terminar" while the session is not
      terminated. */
  predicate EvalControls(s: Session) {
    s.view == ChatView && s.activeChat == Eval && !s.game.isTerminated
  }

  /** `resetGame`: the game, the intro flag, the histories and the list go back to their
      initial values and Nico's chat is selected; the view, the banner, the typing flag
      and the counters are kept. */
  function Reset(s: Session): (r: Session)
    ensures r.view == s.view && r.notification == s.notification && r.isTyping == s.isTyping
    ensures r.confettiBursts == s.confettiBursts && r.completions == s.completions
    ensures r.(view := ListView, notification := InitialBanner, isTyping := false, confettiBursts := 0, completions := 0)
         == InitialSession
  {
    s.(game := InitialGame, introPlayed := false, chatHistory := InitialHistory, chatList := InitialChatList, activeChat := Nico)
  }

  /** Resetting twice is resetting once, and after a reset the intro can be played again
      and the buttons of the evaluation channel would show. */
  lemma ResetIdempotent(s: Session)
    ensures Reset(Reset(s)) == Reset(s)
    ensures !Reset(s).introPlayed && !Reset(s).game.isTerminated && Reset(s).game.step == 0
  {
  }

  /** `terminateGame`: the session is marked terminated and the closing message is
      posted to the evaluation channel. */
  function Terminate(s: Session): Session {
    AddMessage(s.(game := s.game.(isTerminated := true)), Eval, ClosingMessage)
  }

  /** Terminating hides the evaluation channel's buttons for good, appends the closing
      message to that channel only, and keeps the rest of the game state. */
  lemma TerminateEffects(s: Session)
    ensures !EvalControls(Terminate(s))
    ensures Terminate(s).game == s.game.(isTerminated := true)
    ensures History(Terminate(s).chatHistory, Eval) == History(s.chatHistory, Eval) + [ClosingMessage]
    ensures History(Terminate(s).chatHistory, Nico) == History(s.chatHistory, Nico)
    ensures History(Terminate(s).chatHistory, Jefe) == History(s.chatHistory, Jefe)
    ensures Terminate(s).completions == s.completions && Terminate(s).view == s.view
  {
    ChannelsDistinct();
  }

  // ---- Navigation and the banner ----

  /** `handleChatSelect` and `navigateToChat`: open chat `c`. Nothing the choreography
      writes changes. */
  function OpenChat(s: Session, c: string): (r: Session)
    ensures r.view == ChatView && r.activeChat == c
    ensures Observed(r) == Observed(s) && r.chatList == s.chatList && r.introPlayed == s.introPlayed
  {
    s.(view := ChatView, activeChat := c)
  }

  /** `handleBack`: back to the list; the selected chat is kept. */
  function Back(s: Session): (r: Session)
    ensures r.view == ListView && r.activeChat == s.activeChat
    ensures Observed(r) == Observed(s) && r.chatList == s.chatList && r.introPlayed == s.introPlayed
  {
    s.(view := ListView)
  }

  /** Going back and opening the same chat again restores the screen. */
  lemma BackThenOpen(s: Session)
    requires s.view == ChatView
    ensures OpenChat(Back(s), s.activeChat) == s
  {
  }

  /** `handleNotificationClick`: the banner is hidden (losing its title and icon) and the
      evaluation channel opens when the banner's title was "Evaluación", the boss's
      channel otherwise. */
  function NotificationClick(s: Session): (r: Session)
    ensures r.notification == Hidden && r.view == ChatView
    ensures s.notification.title == Some("Evaluación") ==> r.activeChat == Eval
    ensures s.notification.title != Some("Evaluación") ==> r.activeChat == Jefe
    ensures Observed(r) == Observed(s).(banner := Hidden)
  {
    s.(notification := Hidden, activeChat := if s.notification.title == Some("Evaluación") then Eval else Jefe, view := ChatView)
  }

  /** The results banner leads to the evaluation and a boss banner to the boss; a banner
      that has hidden itself has lost its title, so a click on it leads to the boss. */
  lemma BannerTargets(s: Session, o: ScriptOption)
    ensures NotificationClick(s.(notification := ResultsBanner)).activeChat == Eval
    ensures o.bossMessage.Some? ==> NotificationClick(s.(notification := BossBanner(o, s.notification))).activeChat == Jefe
    ensures NotificationClick(s.(notification := Hidden)).activeChat == Jefe
  {
    assert "Evaluación"[0] == 'E' && BossTitle[0] == 'L';
  }

  // ---- A whole game ----

  /** The score of the first `k` choices of `play`. */
  function ScoreSoFar(script: seq<ScriptNode>, play: seq<nat>, k: nat): int
    requires IsPlay(script, play) && k <= |play|
  {
    if k == 0 then 0 else ScoreSoFar(script, play, k - 1) + script[k - 1].options[play[k - 1]].score
  }

  /** The score of a play, summed from the front, is `PlayScore`. */
  lemma {:induction false} ScoreSoFarSplits(script: seq<ScriptNode>, play: seq<nat>, k: nat)
    requires IsPlay(script, play) && k <= |play|
    ensures IsPlay(script[k..], play[k..])
    ensures PlayScore(script, play) == ScoreSoFar(script, play, k) + PlayScore(script[k..], play[k..])
    decreases k
  {
    if k > 0 {
      ScoreSoFarSplits(script, play, k - 1);
      var tail, ptail := script[k - 1..], play[k - 1..];
      assert tail[1..] == script[k..] && ptail[1..] == play[k..];
      assert tail[0] == script[k - 1] && ptail[0] == play[k - 1];
    }
  }

  /** The session after answering questions `k`, `k + 1`, … with the choices of `play`,
      the answer to question `i` clicked at `clocks[i]`, each answer's timers all firing
      before the next click. (The step guard never fails: see `FullGame`.) */
  function PlayFrom(s: Session, script: seq<ScriptNode>, play: seq<nat>, clocks: seq<int>, times: seq<string>, k: nat): Session
    requires IsPlay(script, play) && |clocks| == |play| && |times| == |play| && k <= |play|
    decreases |play| - k
  {
    if k == |play| then s
    else
      var o := script[k].options[play[k]];
      var next := if s.game.step < |script| then Answered(s, script, o, clocks[k], times[k]) else s;
      PlayFrom(next, script, play, clocks, times, k + 1)
  }

  lemma {:induction false} PlayFromFacts(s: Session, script: seq<ScriptNode>, play: seq<nat>, clocks: seq<int>, times: seq<string>, k: nat)
    requires IsPlay(script, play) && |clocks| == |play| && |times| == |play| && k < |play|
    requires s.game.step == k && s.game.score == ScoreSoFar(script, play, k) && !s.game.isFinished
    ensures var r := PlayFrom(s, script, play, clocks, times, k);
      && r.game == GameState(|script| - 1, ScoreSoFar(script, play, |script|), true, s.game.isTerminated)
      && r.completions == s.completions + (if ScoreSoFar(script, play, |script|) >= Evaluation.PassingScore then 1 else 0)
    decreases |play| - k
  {
    hide Answered;
    var o := script[k].options[play[k]];
    var a := Answered(s, script, o, clocks[k], times[k]);
    AnswerProgress(s, script, o, clocks[k], times[k]);
    assert ScoreSoFar(script, play, k + 1) == ScoreSoFar(script, play, k) + o.score;
    if k + 1 < |play| {
      PlayFromFacts(a, script, play, clocks, times, k + 1);
    }
  }

  /** Played from the start, a game that answers every question with the choices of
      `play` ends finished on the last question with exactly the score of the play, and
      signals completion once exactly when that score passes. */
  lemma FullGame(s: Session, script: seq<ScriptNode>, play: seq<nat>, clocks: seq<int>, times: seq<string>)
    requires IsPlay(script, play) && |script| > 0 && |clocks| == |play| && |times| == |play|
    requires s.game == InitialGame
    ensures var r := PlayFrom(s, script, play, clocks, times, 0);
      && r.game == GameState(|script| - 1, PlayScore(script, play), true, false)
      && r.completions == s.completions + (if PlayScore(script, play) >= Evaluation.PassingScore then 1 else 0)
  {
    PlayFromFacts(s, script, play, clocks, times, 0);
    ScoreSoFarSplits(script, play, |play|);
    assert script[|play|..] == [];
  }
}
