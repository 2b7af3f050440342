/** The simulator component as an object: the state the handlers update in place, the
    timers they leave pending, and the firing of a timer. Each handler is proved against
    the function on `Session` values that specifies it. */
module Simulator {
  import opened Wrappers
  import opened Chats
  import opened Engine
  import opened Script
  import opened Quiz
  import opened Game
  import Evaluation

  // ---- Steps the pending timers move to ----

  /** Every step `batch` moves the game to is below `n`. */
  predicate BatchStepsBelow(batch: seq<Event>, n: nat) {
    forall j :: 0 <= j < |batch| && batch[j].SetStep? ==> batch[j].step < n
  }

  predicate StepsBelow(ts: seq<Timer>, n: nat) {
    forall i :: 0 <= i < |ts| ==> BatchStepsBelow(ts[i].batch, n)
  }

  lemma BatchStepsConcat(a: seq<Event>, b: seq<Event>, n: nat)
    requires BatchStepsBelow(a, n) && BatchStepsBelow(b, n)
    ensures BatchStepsBelow(a + b, n)
  {
    forall j | 0 <= j < |a + b| && (a + b)[j].SetStep?
      ensures (a + b)[j].step < n
    {
      if j >= |a| {
        assert (a + b)[j] == b[j - |a|];
      }
    }
  }

  lemma StepsBelowConcat(a: seq<Timer>, b: seq<Timer>, n: nat)
    ensures StepsBelow(a + b, n) <==> StepsBelow(a, n) && StepsBelow(b, n)
  {
    if StepsBelow(a, n) && StepsBelow(b, n) {
      forall i | 0 <= i < |a + b|
        ensures BatchStepsBelow((a + b)[i].batch, n)
      {
        if i >= |a| {
          assert (a + b)[i] == b[i - |a|];
        }
      }
    }
    if StepsBelow(a + b, n) {
      forall i | 0 <= i < |a|
        ensures BatchStepsBelow(a[i].batch, n)
      {
        assert (a + b)[i] == a[i];
      }
      forall i | 0 <= i < |b|
        ensures BatchStepsBelow(b[i].batch, n)
      {
        assert (a + b)[|a| + i] == b[i];
      }
    }
  }

  /** Removing a timer keeps every remaining one's steps below `n`. */
  lemma StepsBelowRemove(ts: seq<Timer>, i: nat, n: nat)
    requires i < |ts| && StepsBelow(ts, n)
    ensures StepsBelow(ts[..i] + ts[i + 1..], n)
  {
    StepsBelowConcat(ts[..i], ts[i + 1..], n);
    assert StepsBelow(ts[..i], n) by {
      forall k | 0 <= k < i
        ensures BatchStepsBelow(ts[..i][k].batch, n)
      {
        assert ts[..i][k] == ts[k];
      }
    }
    var rest := ts[i + 1..];
    assert StepsBelow(rest, n) by {
      forall k | 0 <= k < |rest|
        ensures BatchStepsBelow(rest[k].batch, n)
      {
        assert rest[k] == ts[i + 1 + k];
      }
    }
  }

  lemma OneTimerSteps(t: Timer, n: nat)
    requires BatchStepsBelow(t.batch, n)
    ensures StepsBelow([t], n)
  {
  }

  lemma WhenSteps(b: bool, t: Timer, n: nat)
    requires BatchStepsBelow(t.batch, n)
    ensures StepsBelow(When(b, t), n)
  {
  }

  lemma NicoReplySteps(o: ScriptOption, t0: int, n: nat)
    ensures StepsBelow(NicoReplyTimers(o, t0), n)
  {
    hide When;
    var r := ReactionTimer(o, t0);
    var st := Timer(t0 + StickerDelay, [Post(Nico, StickerMessage(if o.sticker.Some? then o.sticker.value else "", t0 + StickerDelay))]);
    var md := Timer(t0 + MediaDelay,
      [Post(Nico, MediaMessage(if o.media.Some? then o.media.value else Media(ImageMedia, ""), Stamp(t0 + MediaDelay + 6)))]);
    OneTimerSteps(r, n);
    WhenSteps(o.sticker.Some?, st, n);
    WhenSteps(o.media.Some?, md, n);
    StepsBelowConcat([r], StickerTimers(o, t0), n);
    StepsBelowConcat([r] + StickerTimers(o, t0), MediaTimers(o, t0), n);
  }

  lemma BossSteps(question: string, o: ScriptOption, t0: int, n: nat)
    ensures StepsBelow(BossTimers(question, o, t0), n)
    ensures StepsBelow(BossHide(o, t0), n)
  {
  }

  lemma FeedbackSteps(script: seq<ScriptNode>, step: nat, score: int, o: ScriptOption, clock: int)
    ensures BatchStepsBelow(FeedbackTimer(script, step, score, o, clock).batch, |script|)
  {
    var t1 := FeedbackTime(clock);
    var next := NextStep(script, step);
    var head: seq<Event> := [Post(Nico, FeedbackMessage(o, t1)), SetScore(score + o.score)];
    var conf: seq<Event> := if o.score == 2 then [Confetti] else [];
    var adv: seq<Event> := if next.Some? then [SetStep(next.value)] else [];
    BatchStepsConcat(head, conf, |script|);
    BatchStepsConcat(head + conf, adv, |script|);
  }

  lemma NextQuestionSteps(node: ScriptNode, o: ScriptOption, t0: int, t1: int, n: nat)
    ensures StepsBelow(NextQuestionTimers(node, o, t0, t1), n)
  {
    hide BossHide, MediaMessage, PromptMessage;
    var t2 := t1 + NextPreDelay + NextTypingDelay;
    var md: seq<Event> := if node.media.Some? then [Post(Nico, MediaMessage(node.media.value, Stamp(t2 + 2)))] else [];
    BatchStepsConcat([SetTyping(false)], md, n);
    BatchStepsConcat([SetTyping(false)] + md, [Post(Nico, PromptMessage(node, t2))], n);
    BossSteps("", o, t0, n);
    var ta := Timer(t1 + NextPreDelay, [SetTyping(true)]);
    StepsBelowConcat([ta], BossHide(o, t0), n);
    StepsBelowConcat([ta] + BossHide(o, t0), [Timer(t2, QuestionBatch(node, t2))], n);
  }

  lemma ClosingSteps(newScore: int, o: ScriptOption, t0: int, t1: int, n: nat)
    ensures StepsBelow(ClosingTimers(newScore, o, t0, t1), n)
  {
    hide BossHide, EvaluationResult;
    var c: seq<Event> := if newScore >= Evaluation.PassingScore then [Complete] else [];
    BatchStepsConcat([Post(Nico, EvaluationLink), ShowBanner(ResultsReady, "Evaluación", "✅")], c, n);
    assert StepsBelow(ResultTimers(newScore, t1), n);
    BossSteps("", o, t0, n);
    StepsBelowConcat(ResultTimers(newScore, t1), BossHide(o, t0), n);
    StepsBelowConcat(ResultTimers(newScore, t1) + BossHide(o, t0), [ResultsHideTimer(t1)], n);
  }

  /** An answer's timers only ever move the game to an existing question: the feedback
      moves to `step + 1` only when that question exists, and nothing else moves it. */
  lemma AnswerTimelineSteps(script: seq<ScriptNode>, step: nat, score: int, o: ScriptOption, clock: int)
    requires step < |script|
    ensures StepsBelow(AnswerTimeline(script, step, score, o, clock), |script|)
  {
    hide NicoReplyTimers, BossTimers, FeedbackTimer, NextQuestionTimers, ClosingTimers, StepsBelow;
    var t0, t1 := ReactionTime(clock), FeedbackTime(clock);
    var nico, boss := NicoReplyTimers(o, t0), BossTimers(script[step].text, o, t0);
    var fb, follow := FeedbackTimer(script, step, score, o, clock), FollowUpTimers(script, step, score, o, clock);
    var n := |script|;
    NicoReplySteps(o, t0, n);
    BossSteps(script[step].text, o, t0, n);
    FeedbackSteps(script, step, score, o, clock);
    OneTimerSteps(fb, n);
    if HasNext(script, step) {
      NextQuestionSteps(script[step + 1], o, t0, t1, n);
    } else {
      ClosingSteps(score + o.score, o, t0, t1, n);
    }
    StepsBelowConcat(nico, boss, n);
    StepsBelowConcat(nico + boss, [fb], n);
    StepsBelowConcat(nico + boss + [fb], follow, n);
  }

  // ---- The order timers fire in ----

  /** Timer `i` is the one the event loop runs next: none is due earlier, and none listed
      before it (started earlier) is due at the same time. */
  predicate FirstDue(ts: seq<Timer>, i: nat) {
    && i < |ts|
    && (forall j :: 0 <= j < |ts| ==> ts[i].due <= ts[j].due)
    && (forall j :: 0 <= j < i ==> ts[i].due < ts[j].due)
  }

  /** In a list in firing order the head fires first, and what remains is still in
      firing order. */
  lemma FirstOfOrdered(ts: seq<Timer>)
    requires ts != [] && InFiringOrder(ts)
    ensures FirstDue(ts, 0) && InFiringOrder(ts[1..])
  {
  }

  lemma OrderedSuffix(ts: seq<Timer>, k: nat)
    requires InFiringOrder(ts) && k <= |ts|
    ensures InFiringOrder(ts[k..])
  {
  }

  lemma NoTimersRun(s: Session)
    ensures Run(s, Events([])) == s
  {
  }

  lemma EventsSnoc(ts: seq<Timer>, k: nat)
    requires k < |ts|
    ensures Events(ts[..k + 1]) == Events(ts[..k]) + ts[k].batch
  {
    assert ts[..k + 1] == ts[..k] + [ts[k]];
    EventsConcat(ts[..k], [ts[k]]);
    EventsOne(ts[k]);
  }

  /** Timers in firing order, all due between `lo` and `hi`. */
  predicate OrderedWithin(ts: seq<Timer>, lo: int, hi: int) {
    InFiringOrder(ts) && forall i :: 0 <= i < |ts| ==> lo <= ts[i].due <= hi
  }

  lemma OrderedConcat(a: seq<Timer>, b: seq<Timer>, lo: int, mid: int, hi: int)
    requires lo <= mid <= hi && OrderedWithin(a, lo, mid) && OrderedWithin(b, mid, hi)
    ensures OrderedWithin(a + b, lo, hi)
  {
    forall i, j | 0 <= i < j < |a + b|
      ensures (a + b)[i].due <= (a + b)[j].due
    {
      if j < |a| {
        assert (a + b)[i] == a[i] && (a + b)[j] == a[j];
      } else if i >= |a| {
        assert (a + b)[i] == b[i - |a|] && (a + b)[j] == b[j - |a|];
      } else {
        assert (a + b)[i] == a[i] && (a + b)[j] == b[j - |a|];
      }
    }
    forall i | 0 <= i < |a + b|
      ensures lo <= (a + b)[i].due <= hi
    {
      if i < |a| {
        assert (a + b)[i] == a[i];
      } else {
        assert (a + b)[i] == b[i - |a|];
      }
    }
  }

  lemma NicoReplyOrder(o: ScriptOption, t0: int)
    ensures OrderedWithin(NicoReplyTimers(o, t0), t0, t0 + MediaDelay)
  {
    hide ReactionMessage, MediaMessage, StickerMessage;
    OrderedConcat([ReactionTimer(o, t0)], StickerTimers(o, t0), t0, t0, t0 + StickerDelay);
    OrderedConcat([ReactionTimer(o, t0)] + StickerTimers(o, t0), MediaTimers(o, t0), t0, t0 + StickerDelay, t0 + MediaDelay);
  }

  lemma NextQuestionOrder(node: ScriptNode, o: ScriptOption, t0: int, t1: int)
    requires t1 == t0 + FeedbackDelay
    ensures OrderedWithin(NextQuestionTimers(node, o, t0, t1), t1 + NextPreDelay, t1 + NextPreDelay + NextTypingDelay)
  {
    hide QuestionBatch;
    var t2 := t1 + NextPreDelay + NextTypingDelay;
    var ta := Timer(t1 + NextPreDelay, [SetTyping(true)]);
    OrderedConcat([ta], BossHide(o, t0), t1 + NextPreDelay, t1 + NextPreDelay, t2);
    OrderedConcat([ta] + BossHide(o, t0), [Timer(t2, QuestionBatch(node, t2))], t1 + NextPreDelay, t2, t2);
  }

  lemma ClosingOrder(newScore: int, o: ScriptOption, t0: int, t1: int)
    requires t1 == t0 + FeedbackDelay
    ensures OrderedWithin(ClosingTimers(newScore, o, t0, t1), t1 + FinishDelay, t1 + FinishDelay + EvaluationDelay + LinkDelay + BannerDuration)
  {
    hide EvaluationResult;
    var lo, hi := t1 + FinishDelay, t1 + FinishDelay + EvaluationDelay + LinkDelay + BannerDuration;
    var link := t1 + FinishDelay + EvaluationDelay + LinkDelay;
    var rs := ResultTimers(newScore, t1);
    assert OrderedWithin(rs, lo, link);
    assert OrderedWithin(BossHide(o, t0), link, link + 500);
    OrderedConcat(rs, BossHide(o, t0), lo, link, link + 500);
    OrderedConcat(rs + BossHide(o, t0), [ResultsHideTimer(t1)], lo, link + 500, hi);
  }

  lemma BossOrder(question: string, o: ScriptOption, t0: int)
    ensures OrderedWithin(BossTimers(question, o, t0), t0 + BossDelay, t0 + BossDelay)
  {
  }

  lemma OrderedWeaken(ts: seq<Timer>, lo: int, hi: int, lo': int, hi': int)
    requires OrderedWithin(ts, lo, hi) && lo' <= lo && hi <= hi'
    ensures OrderedWithin(ts, lo', hi')
  {
  }

  /** The timers of an answer are listed in the order they fire: Nico's replies, the boss
      message, the feedback, then the next question or the results. */
  lemma AnswerTimelineOrder(script: seq<ScriptNode>, step: nat, score: int, o: ScriptOption, clock: int)
    requires step < |script|
    ensures InFiringOrder(AnswerTimeline(script, step, score, o, clock))
  {
    hide NicoReplyTimers, BossTimers, NextQuestionTimers, ClosingTimers, FeedbackBatch;
    var t0, t1 := ReactionTime(clock), FeedbackTime(clock);
    var nico, boss := NicoReplyTimers(o, t0), BossTimers(script[step].text, o, t0);
    var fb, follow := FeedbackTimer(script, step, score, o, clock), FollowUpTimers(script, step, score, o, clock);
    NicoReplyOrder(o, t0);
    BossOrder(script[step].text, o, t0);
    var end := t1 + FinishDelay + EvaluationDelay + LinkDelay + BannerDuration;
    if HasNext(script, step) {
      NextQuestionOrder(script[step + 1], o, t0, t1);
      OrderedWeaken(follow, t1 + NextPreDelay, t1 + NextPreDelay + NextTypingDelay, t1, end);
    } else {
      ClosingOrder(score + o.score, o, t0, t1);
      OrderedWeaken(follow, t1 + FinishDelay, end, t1, end);
    }
    OrderedConcat(nico, boss, t0, t0 + MediaDelay, t0 + BossDelay);
    OrderedConcat(nico + boss, [fb], t0, t1, t1);
    OrderedConcat(nico + boss + [fb], follow, t0, t1, end);
  }

  // ---- Confetti ----

  /** One floating emoji of a burst: its id, its horizontal position in percent and the
      emoji. */
  datatype Piece = Piece(id: int, x: real, emoji: string)

  const ConfettiEmojis := ["🎉", "✅", "🌟", "👏"]

  /** `triggerConfetti`'s loop: eight pieces with ids `now`, `now + 1`, …, each placed at
      `80 * r + 10` percent for its first random draw `r` and showing the emoji its
      second draw picks. The draws are parameters in [0, 1). */
  method ConfettiPieces(now: int, xDraws: seq<real>, emojiDraws: seq<real>) returns (pieces: seq<Piece>)
    requires |xDraws| == 8 && |emojiDraws| == 8
    requires forall i :: 0 <= i < 8 ==> 0.0 <= xDraws[i] < 1.0 && 0.0 <= emojiDraws[i] < 1.0
    ensures |pieces| == 8
    ensures forall i :: 0 <= i < 8 ==> pieces[i].id == now + i
    ensures forall i :: 0 <= i < 8 ==> pieces[i].x == xDraws[i] * 80.0 + 10.0
    ensures forall i :: 0 <= i < 8 ==> 10.0 <= pieces[i].x < 90.0 && pieces[i].emoji in ConfettiEmojis
    ensures forall i :: 0 <= i < 8 ==> pieces[i].emoji == ConfettiEmojis[(emojiDraws[i] * 4.0).Floor]
  {
    pieces := [];
    for i := 0 to 8
      invariant |pieces| == i
      invariant forall k :: 0 <= k < i ==> pieces[k].id == now + k
      invariant forall k :: 0 <= k < i ==> pieces[k].x == xDraws[k] * 80.0 + 10.0
      invariant forall k :: 0 <= k < i ==> 10.0 <= pieces[k].x < 90.0 && pieces[k].emoji in ConfettiEmojis
      invariant forall k :: 0 <= k < i ==>
        0 <= (emojiDraws[k] * 4.0).Floor < 4 && pieces[k].emoji == ConfettiEmojis[(emojiDraws[k] * 4.0).Floor]
    {
      var pick := (emojiDraws[i] * 4.0).Floor;
      assert 0 <= pick < 4;
      pieces := pieces + [Piece(now + i, xDraws[i] * 80.0 + 10.0, ConfettiEmojis[pick])];
    }
  }

  // ---- The component ----

  /** The component's state, its pending timers (in the order they were started), and
      the script it plays. */
  class WhatsAppSimulator {
    var view: View
    var activeChat: string
    var game: GameState
    var introPlayed: bool
    var chatHistory: Histories
    var chatList: seq<ChatEntry>
    var notification: Notification
    var isTyping: bool
    var confettiBursts: nat
    var completions: nat
    var pending: seq<Timer>
    const script: seq<ScriptNode>

    /** The state as a value. */
    function State(): Session
      reads this
    {
      Session(view, activeChat, game, introPlayed, chatHistory, chatList, notification, isTyping, confettiBursts, completions)
    }

    /** The script is well formed and the current step, and every step a pending timer
        will move to, index a question of it. */
    predicate Valid()
      reads this
    {
      WellFormedScript(script) && |script| > 0 && game.step < |script| && StepsBelow(pending, |script|)
    }

    /** The component as first rendered: the initial state, the ten-question script, no
        timers. */
    constructor()
      ensures Valid() && State() == InitialSession && pending == [] && script == GameScript
    {
      hide GameScript;
      view, activeChat, game, introPlayed := ListView, Nico, InitialGame, false;
      chatHistory, chatList, notification := InitialHistory, InitialChatList, InitialBanner;
      isTyping, confettiBursts, completions := false, 0, 0;
      pending := [];
      script := GameScript;
      ScriptWellFormed();
    }

    /** `addMessage`: post `m` to channel `c`. */
    method AddMessage(c: string, m: Message)
      modifies this
      ensures State() == Engine.AddMessage(old(State()), c, m)
      ensures pending == old(pending)
    {
      hide Next, AppendHistory, UpdatedList;
      NextPost(State(), c, m);
      chatHistory := AppendHistory(chatHistory, c, m);
      chatList := UpdatedList(chatList, c, m);
    }

    /** One update a timer callback performs. */
    method Perform(e: Event)
      modifies this
      ensures State() == Next(old(State()), e)
      ensures pending == old(pending)
    {
      hide Next;
      NextCases(State(), e);
      match e
      case Post(c, m) => AddMessage(c, m);
      case SetTyping(on) => isTyping := on;
      case ShowBanner(message, title, icon) => notification := Notification(true, message, Some(title), Some(icon));
      case HideBanner => notification := Hidden;
      case Confetti => confettiBursts := confettiBursts + 1;
      case SetScore(v) => game := game.(score := v);
      case SetStep(k) => game := game.(step := k);
      case Finish => game := game.(isFinished := true);
      case Complete => completions := completions + 1;
    }

    /** The event loop runs timer `i`, the first one due: it leaves the pending list and
        its updates are performed in order. */
    method Fire(i: nat)
      requires Valid() && FirstDue(pending, i)
      modifies this
      ensures Valid()
      ensures State() == Run(old(State()), old(pending[i].batch))
      ensures pending == old(pending[..i] + pending[i + 1..])
    {
      hide Next;
      var batch := pending[i].batch;
      assert BatchStepsBelow(batch, |script|);
      StepsBelowRemove(pending, i, |script|);
      pending := pending[..i] + pending[i + 1..];
      for j := 0 to |batch|
        invariant State() == Run(old(State()), batch[..j])
        invariant pending == old(pending[..i] + pending[i + 1..])
        invariant game.step < |script|
      {
        NextStepField(State(), batch[j]);
        Perform(batch[j]);
        RunSnoc(old(State()), batch[..j], batch[j]);
        assert batch[..j + 1] == batch[..j] + [batch[j]];
      }
      assert batch[..|batch|] == batch;
    }

    /** `handleGameChoice`: once the game is finished nothing happens; otherwise the
        learner's message is posted, Nico starts typing, and the answer's timers, computed
        from the step and score seen now, join the pending ones. */
    method HandleGameChoice(o: ScriptOption, clock: int, time: string)
      requires Valid()
      modifies this
      ensures Valid()
      ensures State() == Choose(old(State()), o, clock, time)
      ensures old(game.isFinished) ==> pending == old(pending)
      ensures !old(game.isFinished) ==> pending == old(pending) + AnswerTimeline(script, old(game.step), old(game.score), o, clock)
    {
      hide Run, Next, AnswerTimeline, StepsBelow;
      if game.isFinished {
        return;
      }
      var s0 := State();
      var user := Post(Nico, UserMessage(o, clock, time));
      var timeline := AnswerTimeline(script, game.step, game.score, o, clock);
      AnswerTimelineSteps(script, game.step, game.score, o, clock);
      StepsBelowConcat(pending, timeline, |script|);
      NextPost(s0, Nico, UserMessage(o, clock, time));
      AddMessage(Nico, UserMessage(o, clock, time));
      NextTyping(State(), true);
      isTyping := true;
      pending := pending + timeline;
      RunTwo(s0, user, SetTyping(true));
    }

    /** A click on an option, then every timer it starts, fired in the order the event
        loop runs them with nothing else pending: the session ends as `Answered` says and
        no timer is left. */
    method PlayAnswer(o: ScriptOption, clock: int, time: string)
      requires Valid() && pending == []
      modifies this
      ensures Valid() && pending == []
      ensures State() == Answered(old(State()), script, o, clock, time)
    {
      hide Run, Next, Events, Choose, AnswerTimeline, StepsBelow;
      if game.isFinished {
        ChooseEffects(State(), o, clock, time);
        HandleGameChoice(o, clock, time);
        return;
      }
      var timeline := AnswerTimeline(script, game.step, game.score, o, clock);
      AnswerTimelineOrder(script, game.step, game.score, o, clock);
      HandleGameChoice(o, clock, time);
      assert pending == timeline;
      var chosen := State();
      var k := 0;
      NoTimersRun(chosen);
      assert timeline[..0] == [];
      while pending != []
        invariant Valid() && k <= |timeline|
        invariant InFiringOrder(timeline)
        invariant pending == timeline[k..]
        invariant State() == Run(chosen, Events(timeline[..k]))
        decreases |pending|
      {
        OrderedSuffix(timeline, k);
        FirstOfOrdered(pending);
        Fire(0);
        assert pending == timeline[k + 1..];
        RunConcat(chosen, Events(timeline[..k]), timeline[k].batch);
        EventsSnoc(timeline, k);
        k := k + 1;
      }
      assert timeline[..k] == timeline;
    }

    /** `handleIntroPlay`: the first press marks the intro as played and starts its two
        timers; later presses do nothing. */
    method HandleIntroPlay(clock: int)
      requires Valid()
      modifies this
      ensures Valid()
      ensures State() == PlayIntro(old(State()))
      ensures pending == old(pending) + IntroStarted(old(State()), script, clock)
    {
      if introPlayed {
        assert pending + [] == pending;
        return;
      }
      var intro := IntroTimeline(script, clock);
      assert StepsBelow(intro, |script|);
      StepsBelowConcat(pending, intro, |script|);
      introPlayed := true;
      pending := pending + intro;
    }

    /** `resetGame`: back to the initial game, histories and list with Nico's chat
        selected. Timers already started stay pending. */
    method ResetGame()
      requires Valid()
      modifies this
      ensures Valid()
      ensures State() == Reset(old(State()))
      ensures pending == old(pending)
    {
      hide InitialHistory, InitialChatList, InitialSession, InitialBanner;
      game, introPlayed, chatHistory, chatList, activeChat := InitialGame, false, InitialHistory, InitialChatList, Nico;
    }

    /** `terminateGame`: the session is marked terminated and the closing message posted. */
    method TerminateGame()
      requires Valid()
      modifies this
      ensures Valid()
      ensures State() == Terminate(old(State()))
      ensures pending == old(pending)
    {
      game := game.(isTerminated := true);
      AddMessage(Eval, ClosingMessage);
    }

    /** `handleChatSelect` and `navigateToChat`. */
    method OpenChatAt(c: string)
      requires Valid()
      modifies this
      ensures Valid()
      ensures State() == OpenChat(old(State()), c)
      ensures pending == old(pending)
    {
      activeChat, view := c, ChatView;
    }

    /** `handleBack`. */
    method HandleBack()
      requires Valid()
      modifies this
      ensures Valid()
      ensures State() == Back(old(State()))
      ensures pending == old(pending)
    {
      view := ListView;
    }

    /** `handleNotificationClick`. */
    method HandleNotificationClick()
      requires Valid()
      modifies this
      ensures Valid()
      ensures State() == NotificationClick(old(State()))
      ensures pending == old(pending)
    {
      var target := if notification.title == Some("Evaluación") then Eval else Jefe;
      notification := Hidden;
      activeChat := target;
      view := ChatView;
    }
  }
}
