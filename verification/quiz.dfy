/** The quiz choreography: the messages the engine builds, the timers an answer and the
    intro start, and what those timers do to the session once they have all fired. */
module Quiz {
  import opened Wrappers
  import opened Chats
  import opened Engine
  import opened Script
  import Evaluation

  /** A pending timer callback: it fires at clock reading `due` and performs `batch`. */
  datatype Timer = Timer(due: int, batch: seq<Event>)

  /** The updates of `ts`, timer after timer. */
  function Events(ts: seq<Timer>): seq<Event>
    decreases |ts|
  {
    if ts == [] then [] else ts[0].batch + Events(ts[1..])
  }

  lemma {:induction false} EventsConcat(a: seq<Timer>, b: seq<Timer>)
    ensures Events(a + b) == Events(a) + Events(b)
    decreases |a|
  {
    if a == [] {
      assert a + b == b;
    } else {
      assert (a + b)[0] == a[0] && (a + b)[1..] == a[1..] + b;
      EventsConcat(a[1..], b);
    }
  }

  /** Timers in the order they fire: due times never decrease. */
  predicate InFiringOrder(ts: seq<Timer>) {
    forall i, j :: 0 <= i < j < |ts| ==> ts[i].due <= ts[j].due
  }

  // ---- Delays of the answer choreography, in milliseconds ----

  const ReactionDelay := 1500
  const StickerDelay := 600
  const MediaDelay := 800
  const BossDelay := 1500
  const BannerDuration := 5000
  const FeedbackDelay := 2500
  const NextPreDelay := 2000
  const NextTypingDelay := 2000
  const FinishDelay := 1000
  const EvaluationDelay := 1500
  const LinkDelay := 1000

  // ---- Messages ----

  /** The learner's answer, stamped with the click's clock reading. */
  function UserMessage(o: ScriptOption, clock: int, time: string): Message {
    Message(Stamp(clock), User, Some(o.text), time)
  }

  function ReactionMessage(o: ScriptOption, t: int): Message {
    Message(Stamp(t + 1), Ai, Some(o.reaction), "React", isReaction := true)
  }

  function StickerMessage(sticker: string, t: int): Message {
    Message(Stamp(t + 5), Sticker, Some(sticker), "Ahora")
  }

  function MediaKindOf(k: MediaKind): Kind {
    match k
    case ImageMedia => Image
    case DocumentMedia => Document
  }

  /** An attachment as a message: its kind, content, file name and page label. */
  function MediaMessage(media: Media, id: MsgId): Message {
    Message(id, MediaKindOf(media.kind), Some(media.content), "Ahora", fileName := media.fileName, pages := media.pages)
  }

  /** The question an answer was given to, quoted for the boss channel. */
  function ContextMessage(question: string, t: int): Message {
    Message(Stamp(t + 5), System, Some("❓ Contexto: \"" + question + "\""), "Ahora")
  }

  function BossMessage(text: string, t: int): Message {
    Message(Stamp(t + 10), Ai, Some(text), "Ahora")
  }

  /** The feedback line; an option without feedback posts a message without content. */
  function FeedbackMessage(o: ScriptOption, t: int): Message {
    Message(Stamp(t + 2), System, o.feedback, "System")
  }

  /** The clock label of a question: "Ahora" after an attachment, otherwise the node's
      time when it contains ':' and "12:00" when it does not. */
  function PromptTime(node: ScriptNode): (shown: string)
    ensures node.media.Some? ==> shown == "Ahora"
    ensures node.media.None? && (':' in node.time) ==> shown == node.time
    ensures node.media.None? && (':' !in node.time) ==> shown == "12:00"
  {
    if node.media.Some? then "Ahora" else if ':' in node.time then node.time else "12:00"
  }

  function PromptMessage(node: ScriptNode, t: int): Message {
    Message(Stamp(t + 3), Ai, Some(node.text), PromptTime(node))
  }

  function EvaluationResult(score: int): Message {
    Message(Named("eval-1"), System, Some(Evaluation.EvaluationMessage(score)), "Ahora")
  }

  const PreContactMessage := Message(Named("pre-contact"), Ai, Some("Toma, te mando este" + " contacto, revisa" + " el mensaje"), "Ahora")
  const EvaluationLink := Message(Named("eval-link"), ContactLink, Some("Evaluación"), "Ahora", actionLabel := Some("Ver mensaje"))
  const ClosingMessage := Message(Named("term"), System, Some("Gracias por" + " participar." + " Puedes cerrar" + " esta ventana."), "Fin")
  const IntroImage := Message(Named("img-1"), Image, Some(InjuryImage), "08:11")

  function IntroText(node: ScriptNode): Message {
    Message(Named("init-1"), Ai, Some(node.text), node.time)
  }

  const BossTitle := "LA JEFA"
  const BossIcon := "👩‍💼"
  const ResultsReady := "Tus resultados" + " están listos."

  // ---- Timers started by an answer ----

  /** `[t]` when `b`, else nothing. */
  function When(b: bool, t: Timer): seq<Timer> {
    if b then [t] else []
  }

  /** The updates of the feedback timer: the feedback line, the new score (the score the
      click saw plus the option's), a confetti burst for a 2-point answer, and the move to
      the next question when there is one. */
  function FeedbackBatch(o: ScriptOption, newScore: int, t: int, next: Option<nat>): seq<Event> {
    [Post(Nico, FeedbackMessage(o, t)), SetScore(newScore)]
      + (if o.score == 2 then [Confetti] else [])
      + (if next.Some? then [SetStep(next.value)] else [])
  }

  /** Nico's reaction: the typing indicator stops and the reaction is posted. */
  function ReactionTimer(o: ScriptOption, t0: int): Timer {
    Timer(t0, [SetTyping(false), Post(Nico, ReactionMessage(o, t0))])
  }

  /** The sticker the option carries, if any. */
  function StickerTimers(o: ScriptOption, t0: int): seq<Timer> {
    When(o.sticker.Some?, Timer(t0 + StickerDelay,
      [Post(Nico, StickerMessage(if o.sticker.Some? then o.sticker.value else "", t0 + StickerDelay))]))
  }

  /** The attachment the option carries, if any. */
  function MediaTimers(o: ScriptOption, t0: int): seq<Timer> {
    When(o.media.Some?, Timer(t0 + MediaDelay,
      [Post(Nico, MediaMessage(if o.media.Some? then o.media.value else Media(ImageMedia, ""), Stamp(t0 + MediaDelay + 6)))]))
  }

  /** Nico's answer to the learner's choice: the reaction, then the optional sticker and
      the optional attachment. */
  function NicoReplyTimers(o: ScriptOption, t0: int): seq<Timer> {
    [ReactionTimer(o, t0)] + StickerTimers(o, t0) + MediaTimers(o, t0)
  }

  /** The boss notification about the question `question`, when the option has a boss
      message: the quoted question and the message in the boss channel, and the banner. */
  function BossTimers(question: string, o: ScriptOption, t0: int): seq<Timer> {
    var bm := if o.bossMessage.Some? then o.bossMessage.value else "";
    When(o.bossMessage.Some?, Timer(t0 + BossDelay,
      [ Post(Jefe, ContextMessage(question, t0 + BossDelay)),
        Post(Jefe, BossMessage(bm, t0 + BossDelay)),
        ShowBanner(bm, BossTitle, BossIcon)]))
  }

  /** The timer that hides the boss banner, when the answer raised one. */
  function BossHide(o: ScriptOption, t0: int): seq<Timer> {
    When(o.bossMessage.Some?, Timer(t0 + BossDelay + BannerDuration, [HideBanner]))
  }

  /** The updates that bring the next question: its optional attachment, then its text. */
  function QuestionBatch(node: ScriptNode, t2: int): seq<Event> {
    [SetTyping(false)]
    + (if node.media.Some? then [Post(Nico, MediaMessage(node.media.value, Stamp(t2 + 2)))] else [])
    + [Post(Nico, PromptMessage(node, t2))]
  }

  /** The timers after the feedback when a next question `node` exists. */
  function NextQuestionTimers(node: ScriptNode, o: ScriptOption, t0: int, t1: int): seq<Timer> {
    [Timer(t1 + NextPreDelay, [SetTyping(true)])]
    + BossHide(o, t0)
    + [Timer(t1 + NextPreDelay + NextTypingDelay, QuestionBatch(node, t1 + NextPreDelay + NextTypingDelay))]
  }

  /** The game ends a second after the last feedback. */
  function FinishTimer(t1: int): Timer {
    Timer(t1 + FinishDelay, [Finish])
  }

  /** The evaluation is posted to its channel and Nico announces the contact. */
  function EvaluationTimer(newScore: int, t1: int): Timer {
    Timer(t1 + FinishDelay + EvaluationDelay, [Post(Eval, EvaluationResult(newScore)), Post(Nico, PreContactMessage)])
  }

  /** The link to the evaluation, the results banner and, when the new score passes, the
      completion signal. */
  function LinkTimer(newScore: int, t1: int): Timer {
    Timer(t1 + FinishDelay + EvaluationDelay + LinkDelay,
      [Post(Nico, EvaluationLink), ShowBanner(ResultsReady, "Evaluación", "✅")]
      + (if newScore >= Evaluation.PassingScore then [Complete] else []))
  }

  /** The hide of the results banner. */
  function ResultsHideTimer(t1: int): Timer {
    Timer(t1 + FinishDelay + EvaluationDelay + LinkDelay + BannerDuration, [HideBanner])
  }

  /** The results: the game ends, the evaluation is posted, the link follows. */
  function ResultTimers(newScore: int, t1: int): seq<Timer> {
    [FinishTimer(t1), EvaluationTimer(newScore, t1), LinkTimer(newScore, t1)]
  }

  /** The timers after the feedback of the last question: the results, then the hide of
      the boss banner (if one was raised) and of the results banner. */
  function ClosingTimers(newScore: int, o: ScriptOption, t0: int, t1: int): seq<Timer> {
    ResultTimers(newScore, t1)
    + BossHide(o, t0)
    + [ResultsHideTimer(t1)]
  }

  /** The delays of the choreography after the click: Nico's reaction comes at `t0`, the
      feedback at `t1`. */
  function ReactionTime(clock: int): int { clock + ReactionDelay }
  function FeedbackTime(clock: int): int { clock + ReactionDelay + FeedbackDelay }

  /** Whether the question at `step` has a successor. */
  predicate HasNext(script: seq<ScriptNode>, step: nat) {
    step + 1 < |script|
  }

  /** The step the feedback moves to, when there is a next question. */
  function NextStep(script: seq<ScriptNode>, step: nat): Option<nat> {
    if HasNext(script, step) then Some(step + 1) else None
  }

  /** The feedback timer of an answer to the question at `step`, given the score the
      click saw. */
  function FeedbackTimer(script: seq<ScriptNode>, step: nat, score: int, o: ScriptOption, clock: int): Timer {
    Timer(FeedbackTime(clock), FeedbackBatch(o, score + o.score, FeedbackTime(clock), NextStep(script, step)))
  }

  /** The timers after the feedback: the next question, or the close of the game. */
  function FollowUpTimers(script: seq<ScriptNode>, step: nat, score: int, o: ScriptOption, clock: int): seq<Timer> {
    if HasNext(script, step) then NextQuestionTimers(script[step + 1], o, ReactionTime(clock), FeedbackTime(clock))
    else ClosingTimers(score + o.score, o, ReactionTime(clock), FeedbackTime(clock))
  }

  /** The timers an answer starts, in firing order. `step` and `score` are the game state
      the click saw; `clock` is its clock reading. */
  function AnswerTimeline(script: seq<ScriptNode>, step: nat, score: int, o: ScriptOption, clock: int): seq<Timer>
    requires step < |script|
  {
    NicoReplyTimers(o, ReactionTime(clock))
    + BossTimers(script[step].text, o, ReactionTime(clock))
    + [FeedbackTimer(script, step, score, o, clock)]
    + FollowUpTimers(script, step, score, o, clock)
  }

  // ---- What the answer timers do ----

  lemma EventsCons(t: Timer, rest: seq<Timer>)
    ensures Events([t] + rest) == t.batch + Events(rest)
  {
    assert ([t] + rest)[0] == t && ([t] + rest)[1..] == rest;
  }

  lemma EventsOne(t: Timer)
    ensures Events([t]) == t.batch
  {
    EventsCons(t, []);
    assert [t] + [] == [t];
  }

  /** The updates of a timer that may not be started. */
  lemma EventsWhen(b: bool, t: Timer)
    ensures Events(When(b, t)) == if b then t.batch else []
  {
    if b {
      EventsOne(t);
    }
  }

  /** The updates of three runs of timers, in order. */
  lemma EventsThree(a: seq<Timer>, b: seq<Timer>, c: seq<Timer>)
    ensures Events(a + b + c) == Events(a) + Events(b) + Events(c)
  {
    EventsConcat(a + b, c);
    EventsConcat(a, b);
  }

  /** Three batches in a row, each with known effects. */
  lemma AfterThree(f: Effects, a: seq<Event>, b: seq<Event>, c: seq<Event>, fa: Effects, fb: Effects, fc: Effects)
    requires After(f, a) == fa && After(fa, b) == fb && After(fb, c) == fc
    ensures After(f, a + b + c) == fc
  {
    AfterConcat(f, a + b, c);
    AfterConcat(f, a, b);
  }

  /** The effects of two updates in a row. */
  lemma AfterTwo(f: Effects, e0: Event, e1: Event)
    ensures After(f, [e0, e1]) == Apply(Apply(f, e0), e1)
  {
    assert [e0, e1] == [e0] + [e1];
    AfterCons(f, e0, [e1]);
    AfterOne(Apply(f, e0), e1);
  }

  /** A post to Nico's chat appends its message there and changes nothing else. */
  lemma PostNico(f: Effects, m: Message)
    ensures After(f, [Post(Nico, m)]) == f.(nico := f.nico + [m])
  {
    ChannelsDistinct();
    AfterOne(f, Post(Nico, m));
  }

  lemma PostJefe(f: Effects, m: Message)
    ensures Apply(f, Post(Jefe, m)) == f.(jefe := f.jefe + [m])
  {
    ChannelsDistinct();
  }

  lemma PostEval(f: Effects, m: Message)
    ensures Apply(f, Post(Eval, m)) == f.(eval := f.eval + [m])
  {
    ChannelsDistinct();
  }

  /** `(a + b) + c == a + (b + c)` for message sequences. */
  lemma AppendAssoc(a: seq<Message>, b: seq<Message>, c: seq<Message>)
    ensures a + b + c == a + (b + c)
  {
  }

  // Nico's replies

  /** Nico's replies before the feedback: the reaction, then the sticker and the
      attachment the option carries. */
  function NicoReplies(o: ScriptOption, t0: int): seq<Message> {
    [ReactionMessage(o, t0)] + StickerPosts(o, t0) + MediaPosts(o, t0)
  }

  function StickerPosts(o: ScriptOption, t0: int): seq<Message> {
    if o.sticker.Some? then [StickerMessage(o.sticker.value, t0 + StickerDelay)] else []
  }

  function MediaPosts(o: ScriptOption, t0: int): seq<Message> {
    if o.media.Some? then [MediaMessage(o.media.value, Stamp(t0 + MediaDelay + 6))] else []
  }

  lemma ReactionEffects(o: ScriptOption, t0: int, f: Effects)
    ensures After(f, ReactionTimer(o, t0).batch) == f.(nico := f.nico + [ReactionMessage(o, t0)], typing := false)
  {
    hide After, ReactionMessage;
    ChannelsDistinct();
    AfterTwo(f, SetTyping(false), Post(Nico, ReactionMessage(o, t0)));
  }

  lemma StickerEffects(o: ScriptOption, t0: int, f: Effects)
    ensures After(f, Events(StickerTimers(o, t0))) == f.(nico := f.nico + StickerPosts(o, t0))
  {
    EventsWhen(o.sticker.Some?, Timer(t0 + StickerDelay,
      [Post(Nico, StickerMessage(if o.sticker.Some? then o.sticker.value else "", t0 + StickerDelay))]));
    if o.sticker.Some? {
      PostNico(f, StickerMessage(o.sticker.value, t0 + StickerDelay));
    } else {
      assert f.nico + [] == f.nico;
    }
  }

  lemma MediaEffects(o: ScriptOption, t0: int, f: Effects)
    ensures After(f, Events(MediaTimers(o, t0))) == f.(nico := f.nico + MediaPosts(o, t0))
  {
    EventsWhen(o.media.Some?, Timer(t0 + MediaDelay,
      [Post(Nico, MediaMessage(if o.media.Some? then o.media.value else Media(ImageMedia, ""), Stamp(t0 + MediaDelay + 6)))]));
    if o.media.Some? {
      PostNico(f, MediaMessage(o.media.value, Stamp(t0 + MediaDelay + 6)));
    } else {
      assert f.nico + [] == f.nico;
    }
  }

  /** Nico's replies post the reaction, sticker and attachment to Nico's chat, stop the
      typing indicator and change nothing else. */
  lemma NicoReplyEffects(o: ScriptOption, t0: int, f: Effects)
    ensures After(f, Events(NicoReplyTimers(o, t0))) == f.(nico := f.nico + NicoReplies(o, t0), typing := false)
  {
    hide ReactionTimer, StickerTimers, MediaTimers, StickerPosts, MediaPosts, ReactionMessage, Events, After, Apply;
    var r, st, md := ReactionTimer(o, t0), StickerTimers(o, t0), MediaTimers(o, t0);
    EventsThree([r], st, md);
    EventsOne(r);
    var f1 := f.(nico := f.nico + [ReactionMessage(o, t0)], typing := false);
    var f2 := f1.(nico := f1.nico + StickerPosts(o, t0));
    var f3 := f2.(nico := f2.nico + MediaPosts(o, t0));
    ReactionEffects(o, t0, f);
    StickerEffects(o, t0, f1);
    MediaEffects(o, t0, f2);
    AfterThree(f, r.batch, Events(st), Events(md), f1, f2, f3);
    AppendAssoc(f.nico, [ReactionMessage(o, t0)], StickerPosts(o, t0));
    AppendAssoc(f.nico, [ReactionMessage(o, t0)] + StickerPosts(o, t0), MediaPosts(o, t0));
  }

  // The boss

  /** The boss banner an answer raises, if any. */
  function BossBanner(o: ScriptOption, n: Notification): Notification {
    if o.bossMessage.Some? then Notification(true, o.bossMessage.value, Some(BossTitle), Some(BossIcon)) else n
  }

  /** What the boss channel receives: the quoted question and the boss message, when the
      option has one. */
  function BossPosts(question: string, o: ScriptOption, t0: int): seq<Message> {
    if o.bossMessage.Some? then [ContextMessage(question, t0 + BossDelay), BossMessage(o.bossMessage.value, t0 + BossDelay)]
    else []
  }

  lemma BossBatchEffects(m0: Message, m1: Message, bm: string, f: Effects)
    ensures After(f, [Post(Jefe, m0), Post(Jefe, m1), ShowBanner(bm, BossTitle, BossIcon)])
         == f.(jefe := f.jefe + [m0, m1], banner := Notification(true, bm, Some(BossTitle), Some(BossIcon)))
  {
    hide After, ContextMessage, BossMessage;
    var e0, e1, e2 := Post(Jefe, m0), Post(Jefe, m1), ShowBanner(bm, BossTitle, BossIcon);
    assert [e0, e1, e2] == [e0, e1] + [e2];
    AfterConcat(f, [e0, e1], [e2]);
    AfterTwo(f, e0, e1);
    PostJefe(f, m0);
    PostJefe(Apply(f, e0), m1);
    assert f.jefe + [m0] + [m1] == f.jefe + [m0, m1];
    AfterOne(Apply(Apply(f, e0), e1), e2);
  }

  /** The boss timers post the quoted question and the boss message to the boss channel
      and raise the banner, when the option has a boss message; otherwise nothing. */
  lemma BossEffects(question: string, o: ScriptOption, t0: int, f: Effects)
    ensures After(f, Events(BossTimers(question, o, t0)))
         == f.(jefe := f.jefe + BossPosts(question, o, t0), banner := BossBanner(o, f.banner))
  {
    hide Apply, ContextMessage, BossMessage;
    var bm := if o.bossMessage.Some? then o.bossMessage.value else "";
    var m0, m1 := ContextMessage(question, t0 + BossDelay), BossMessage(bm, t0 + BossDelay);
    EventsWhen(o.bossMessage.Some?, Timer(t0 + BossDelay, [Post(Jefe, m0), Post(Jefe, m1), ShowBanner(bm, BossTitle, BossIcon)]));
    if o.bossMessage.Some? {
      BossBatchEffects(m0, m1, bm, f);
    } else {
      assert f.jefe + [] == f.jefe;
    }
  }

  /** What the banner looks like after the boss banner's hide timer, if there is one. */
  function AfterBossHide(o: ScriptOption, n: Notification): Notification {
    if o.bossMessage.Some? then Hidden else n
  }

  lemma BossHideEffects(o: ScriptOption, t0: int, f: Effects)
    ensures After(f, Events(BossHide(o, t0))) == f.(banner := AfterBossHide(o, f.banner))
  {
    EventsWhen(o.bossMessage.Some?, Timer(t0 + BossDelay + BannerDuration, [HideBanner]));
    AfterOne(f, HideBanner);
  }

  // The feedback

  lemma FeedbackLineEffects(o: ScriptOption, newScore: int, t1: int, f: Effects)
    ensures After(f, [Post(Nico, FeedbackMessage(o, t1)), SetScore(newScore)])
         == f.(nico := f.nico + [FeedbackMessage(o, t1)], game := f.game.(score := newScore))
  {
    hide After, FeedbackMessage;
    ChannelsDistinct();
    AfterTwo(f, Post(Nico, FeedbackMessage(o, t1)), SetScore(newScore));
  }

  lemma ConfettiEffects(o: ScriptOption, f: Effects)
    ensures After(f, if o.score == 2 then [Confetti] else []) == f.(confetti := f.confetti + if o.score == 2 then 1 else 0)
  {
    if o.score == 2 {
      AfterOne(f, Confetti);
    }
  }

  lemma AdvanceEffects(next: Option<nat>, f: Effects)
    ensures After(f, if next.Some? then [SetStep(next.value)] else [])
         == f.(game := f.game.(step := if next.Some? then next.value else f.game.step))
  {
    if next.Some? {
      AfterOne(f, SetStep(next.value));
    }
  }

  /** The feedback timer posts the feedback line, sets the score, counts a burst of
      confetti for a 2-point answer and moves to the next question when there is one. */
  lemma FeedbackEffects(o: ScriptOption, newScore: int, t1: int, next: Option<nat>, f: Effects)
    ensures After(f, FeedbackBatch(o, newScore, t1, next))
         == f.(nico := f.nico + [FeedbackMessage(o, t1)],
               game := f.game.(score := newScore, step := if next.Some? then next.value else f.game.step),
               confetti := f.confetti + if o.score == 2 then 1 else 0)
  {
    hide After, Apply, Events, FeedbackMessage;
    var f1 := f.(nico := f.nico + [FeedbackMessage(o, t1)], game := f.game.(score := newScore));
    var f2 := f1.(confetti := f.confetti + if o.score == 2 then 1 else 0);
    FeedbackLineEffects(o, newScore, t1, f);
    ConfettiEffects(o, f1);
    AdvanceEffects(next, f2);
    AfterThree(f, [Post(Nico, FeedbackMessage(o, t1)), SetScore(newScore)], if o.score == 2 then [Confetti] else [],
      if next.Some? then [SetStep(next.value)] else [], f1, f2,
      f2.(game := f2.game.(step := if next.Some? then next.value else f2.game.step)));
  }

  // The next question

  /** The messages that bring a question: its attachment, if any, then its text. */
  function QuestionPosts(node: ScriptNode, t2: int): seq<Message> {
    (if node.media.Some? then [MediaMessage(node.media.value, Stamp(t2 + 2))] else [])
    + [PromptMessage(node, t2)]
  }

  lemma QuestionMediaEffects(node: ScriptNode, t2: int, f: Effects)
    ensures After(f, if node.media.Some? then [Post(Nico, MediaMessage(node.media.value, Stamp(t2 + 2)))] else [])
         == f.(nico := f.nico + if node.media.Some? then [MediaMessage(node.media.value, Stamp(t2 + 2))] else [])
  {
    if node.media.Some? {
      PostNico(f, MediaMessage(node.media.value, Stamp(t2 + 2)));
    } else {
      assert f.nico + [] == f.nico;
    }
  }

  lemma QuestionBatchEffects(node: ScriptNode, t2: int, f: Effects)
    ensures After(f, QuestionBatch(node, t2)) == f.(nico := f.nico + QuestionPosts(node, t2), typing := false)
  {
    hide After, PromptMessage, MediaMessage;
    var md := if node.media.Some? then [MediaMessage(node.media.value, Stamp(t2 + 2))] else [];
    var f1 := f.(typing := false);
    var f2 := f1.(nico := f.nico + md);
    AfterOne(f, SetTyping(false));
    QuestionMediaEffects(node, t2, f1);
    PostNico(f2, PromptMessage(node, t2));
    AfterThree(f, [SetTyping(false)], if node.media.Some? then [Post(Nico, MediaMessage(node.media.value, Stamp(t2 + 2)))] else [],
      [Post(Nico, PromptMessage(node, t2))], f1, f2, f2.(nico := f2.nico + [PromptMessage(node, t2)]));
    AppendAssoc(f.nico, md, [PromptMessage(node, t2)]);
  }

  /** When a next question exists, the timers after the feedback show the typing
      indicator, post the question, stop the indicator and hide the boss banner. */
  lemma NextQuestionEffects(node: ScriptNode, o: ScriptOption, t0: int, t1: int, f: Effects)
    ensures After(f, Events(NextQuestionTimers(node, o, t0, t1)))
         == f.(nico := f.nico + QuestionPosts(node, t1 + NextPreDelay + NextTypingDelay), typing := false,
               banner := AfterBossHide(o, f.banner))
  {
    hide After, QuestionBatch, BossHide, QuestionPosts, AfterBossHide;
    var t2 := t1 + NextPreDelay + NextTypingDelay;
    var ta, tq := Timer(t1 + NextPreDelay, [SetTyping(true)]), Timer(t2, QuestionBatch(node, t2));
    EventsThree([ta], BossHide(o, t0), [tq]);
    EventsOne(ta);
    EventsOne(tq);
    var f1 := f.(typing := true);
    var f2 := f1.(banner := AfterBossHide(o, f.banner));
    AfterOne(f, SetTyping(true));
    BossHideEffects(o, t0, f1);
    QuestionBatchEffects(node, t2, f2);
    AfterThree(f, ta.batch, Events(BossHide(o, t0)), tq.batch, f1, f2,
      f2.(nico := f2.nico + QuestionPosts(node, t2), typing := false));
  }

  // The close of the game

  /** The banner announcing the results. */
  const ResultsBanner := Notification(true, ResultsReady, Some("Evaluación"), Some("✅"))

  /** 1 when `newScore` passes the course, else 0. */
  function Passes(newScore: int): nat {
    if newScore >= Evaluation.PassingScore then 1 else 0
  }

  lemma EvaluationEffects(newScore: int, t1: int, f: Effects)
    ensures After(f, EvaluationTimer(newScore, t1).batch)
         == f.(nico := f.nico + [PreContactMessage], eval := f.eval + [EvaluationResult(newScore)])
  {
    hide After, EvaluationResult;
    ChannelsDistinct();
    AfterTwo(f, Post(Eval, EvaluationResult(newScore)), Post(Nico, PreContactMessage));
    PostEval(f, EvaluationResult(newScore));
  }

  lemma LinkEffects(newScore: int, t1: int, f: Effects)
    ensures After(f, LinkTimer(newScore, t1).batch)
         == f.(nico := f.nico + [EvaluationLink], banner := ResultsBanner, completions := f.completions + Passes(newScore))
  {
    hide After;
    ChannelsDistinct();
    var e0, e1 := Post(Nico, EvaluationLink), ShowBanner(ResultsReady, "Evaluación", "✅");
    var c: seq<Event> := if newScore >= Evaluation.PassingScore then [Complete] else [];
    AfterConcat(f, [e0, e1], c);
    AfterTwo(f, e0, e1);
    var f2 := f.(nico := f.nico + [EvaluationLink], banner := ResultsBanner);
    if newScore >= Evaluation.PassingScore {
      AfterOne(f2, Complete);
    } else {
      AfterNone(f2);
    }
  }

  lemma ResultEvents(newScore: int, t1: int)
    ensures Events(ResultTimers(newScore, t1))
         == FinishTimer(t1).batch + EvaluationTimer(newScore, t1).batch + LinkTimer(newScore, t1).batch
  {
    hide Events;
    var a, b, c := FinishTimer(t1), EvaluationTimer(newScore, t1), LinkTimer(newScore, t1);
    assert [a, b, c] == [a] + [b] + [c];
    EventsThree([a], [b], [c]);
    EventsOne(a);
    EventsOne(b);
    EventsOne(c);
  }

  lemma ResultEffects(newScore: int, t1: int, f: Effects)
    ensures After(f, Events(ResultTimers(newScore, t1)))
         == f.(nico := f.nico + [PreContactMessage, EvaluationLink], eval := f.eval + [EvaluationResult(newScore)],
               game := f.game.(isFinished := true), banner := ResultsBanner, completions := f.completions + Passes(newScore))
  {
    hide After, Events, EvaluationResult, EvaluationTimer, LinkTimer, ResultTimers;
    ResultEvents(newScore, t1);
    var f1 := f.(game := f.game.(isFinished := true));
    var f2 := f1.(nico := f.nico + [PreContactMessage], eval := f.eval + [EvaluationResult(newScore)]);
    AfterOne(f, Finish);
    EvaluationEffects(newScore, t1, f1);
    LinkEffects(newScore, t1, f2);
    AfterThree(f, FinishTimer(t1).batch, EvaluationTimer(newScore, t1).batch, LinkTimer(newScore, t1).batch, f1, f2,
      f2.(nico := f2.nico + [EvaluationLink], banner := ResultsBanner, completions := f.completions + Passes(newScore)));
    assert f.nico + [PreContactMessage] + [EvaluationLink] == f.nico + [PreContactMessage, EvaluationLink];
  }

  /** After the last question's feedback: the game finishes, the evaluation is posted,
      Nico sends the note and the link, the banner ends hidden, and completion is
      signalled exactly when the new score passes. */
  lemma ClosingEffects(newScore: int, o: ScriptOption, t0: int, t1: int, f: Effects)
    ensures After(f, Events(ClosingTimers(newScore, o, t0, t1)))
         == f.(nico := f.nico + [PreContactMessage, EvaluationLink], eval := f.eval + [EvaluationResult(newScore)],
               game := f.game.(isFinished := true), banner := Hidden, completions := f.completions + Passes(newScore))
  {
    hide After, ResultTimers, BossHide, EvaluationResult, Events;
    var rs := ResultTimers(newScore, t1);
    EventsThree(rs, BossHide(o, t0), [ResultsHideTimer(t1)]);
    EventsOne(ResultsHideTimer(t1));
    var f1 := f.(nico := f.nico + [PreContactMessage, EvaluationLink], eval := f.eval + [EvaluationResult(newScore)],
               game := f.game.(isFinished := true), banner := ResultsBanner, completions := f.completions + Passes(newScore));
    ResultEffects(newScore, t1, f);
    BossHideEffects(o, t0, f1);
    AfterOne(f1.(banner := AfterBossHide(o, ResultsBanner)), HideBanner);
    AfterThree(f, Events(rs), Events(BossHide(o, t0)), [HideBanner], f1, f1.(banner := AfterBossHide(o, ResultsBanner)),
      f1.(banner := Hidden));
  }

  // The whole answer

  /** Everything an answer changes once its timers have all fired: Nico's chat gets the
      replies, the feedback and then the next question or the note and the link; the boss
      channel gets the boss posts; the evaluation channel gets the evaluation after the
      last question; the score becomes the click-time score plus the option's, the game
      moves to the next question or finishes; the typing indicator is off; a boss banner
      is hidden again; a 2-point answer bursts confetti; and a passing final score
      signals completion once. */
  function AnswerOutcome(script: seq<ScriptNode>, step: nat, score: int, o: ScriptOption, clock: int, f: Effects): Effects
    requires step < |script|
  {
    var t0, t1 := ReactionTime(clock), FeedbackTime(clock);
    var newScore := score + o.score;
    var early := f.nico + NicoReplies(o, t0) + [FeedbackMessage(o, t1)];
    Effects(
      if HasNext(script, step) then early + QuestionPosts(script[step + 1], t1 + NextPreDelay + NextTypingDelay)
      else early + [PreContactMessage, EvaluationLink],
      f.jefe + BossPosts(script[step].text, o, t0),
      if HasNext(script, step) then f.eval else f.eval + [EvaluationResult(newScore)],
      if HasNext(script, step) then f.game.(score := newScore, step := step + 1)
      else f.game.(score := newScore, isFinished := true),
      false,
      if HasNext(script, step) then AfterBossHide(o, f.banner) else Hidden,
      f.confetti + (if o.score == 2 then 1 else 0),
      if HasNext(script, step) then f.completions else f.completions + Passes(newScore))
  }

  lemma AnswerEvents(script: seq<ScriptNode>, step: nat, score: int, o: ScriptOption, clock: int)
    requires step < |script|
    ensures Events(AnswerTimeline(script, step, score, o, clock))
         == (Events(NicoReplyTimers(o, ReactionTime(clock))) + Events(BossTimers(script[step].text, o, ReactionTime(clock)))
             + FeedbackBatch(o, score + o.score, FeedbackTime(clock), NextStep(script, step)))
            + Events(FollowUpTimers(script, step, score, o, clock))
  {
    hide NicoReplyTimers, BossTimers, FeedbackBatch, FollowUpTimers, Events;
    EventsFour(NicoReplyTimers(o, ReactionTime(clock)), BossTimers(script[step].text, o, ReactionTime(clock)),
      FeedbackTimer(script, step, score, o, clock), FollowUpTimers(script, step, score, o, clock));
  }

  lemma EventsFour(a: seq<Timer>, b: seq<Timer>, c: Timer, d: seq<Timer>)
    ensures Events(a + b + [c] + d) == (Events(a) + Events(b) + c.batch) + Events(d)
  {
    EventsConcat(a + b + [c], d);
    EventsThree(a, b, [c]);
    EventsOne(c);
  }

  /** Up to the feedback: Nico's replies, the boss, and the feedback itself. */
  lemma EarlyAnswerEffects(question: string, o: ScriptOption, newScore: int, t0: int, t1: int, next: Option<nat>, f: Effects)
    ensures After(f, Events(NicoReplyTimers(o, t0)) + Events(BossTimers(question, o, t0)) + FeedbackBatch(o, newScore, t1, next))
         == f.(nico := f.nico + NicoReplies(o, t0) + [FeedbackMessage(o, t1)],
               jefe := f.jefe + BossPosts(question, o, t0),
               game := f.game.(score := newScore, step := if next.Some? then next.value else f.game.step),
               typing := false, banner := BossBanner(o, f.banner),
               confetti := f.confetti + if o.score == 2 then 1 else 0)
  {
    hide NicoReplyTimers, BossTimers, FeedbackBatch, After, Events, Apply, NicoReplies, BossPosts, BossBanner, FeedbackMessage;
    var f1 := f.(nico := f.nico + NicoReplies(o, t0), typing := false);
    var f2 := f1.(jefe := f.jefe + BossPosts(question, o, t0), banner := BossBanner(o, f.banner));
    NicoReplyEffects(o, t0, f);
    BossEffects(question, o, t0, f1);
    FeedbackEffects(o, newScore, t1, next, f2);
    AfterThree(f, Events(NicoReplyTimers(o, t0)), Events(BossTimers(question, o, t0)), FeedbackBatch(o, newScore, t1, next),
      f1, f2, After(f2, FeedbackBatch(o, newScore, t1, next)));
  }

  /** Once all its timers have fired, an answer has changed the observed state exactly
      as `AnswerOutcome` says. */
  lemma AnswerEffects(script: seq<ScriptNode>, step: nat, score: int, o: ScriptOption, clock: int, f: Effects)
    requires step < |script|
    ensures After(f, Events(AnswerTimeline(script, step, score, o, clock))) == AnswerOutcome(script, step, score, o, clock, f)
  {
    hide NicoReplyTimers, BossTimers, FeedbackBatch, After, Events, Apply, NicoReplies, BossPosts, FeedbackMessage, NextQuestionTimers, ClosingTimers, QuestionPosts, EvaluationResult, AnswerTimeline;
    var t0, t1 := ReactionTime(clock), FeedbackTime(clock);
    var newScore := score + o.score;
    var next := NextStep(script, step);
    var question := script[step].text;
    var early := Events(NicoReplyTimers(o, t0)) + Events(BossTimers(question, o, t0)) + FeedbackBatch(o, newScore, t1, next);
    var rest := Events(FollowUpTimers(script, step, score, o, clock));
    assert Events(AnswerTimeline(script, step, score, o, clock)) == early + rest by {
      AnswerEvents(script, step, score, o, clock);
    }
    var f1 := f.(nico := f.nico + NicoReplies(o, t0) + [FeedbackMessage(o, t1)],
                 jefe := f.jefe + BossPosts(question, o, t0),
                 game := f.game.(score := newScore, step := if next.Some? then next.value else f.game.step),
                 typing := false, banner := BossBanner(o, f.banner),
                 confetti := f.confetti + if o.score == 2 then 1 else 0);
    assert After(f, early) == f1 by {
      EarlyAnswerEffects(question, o, newScore, t0, t1, next, f);
    }
    AfterConcat(f, early, rest);
    if HasNext(script, step) {
      assert After(f1, rest) == AnswerOutcome(script, step, score, o, clock, f) by {
        NextQuestionEffects(script[step + 1], o, t0, t1, f1);
      }
    } else {
      assert After(f1, rest) == AnswerOutcome(script, step, score, o, clock, f) by {
        ClosingEffects(newScore, o, t0, t1, f1);
      }
    }
  }
}
