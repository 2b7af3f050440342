/** The state of the quiz simulator as a value, the state updates its timers perform, and
    what a run of updates does to each part of the state. */
module Engine {
  import opened Wrappers
  import opened Chats

  datatype View = ListView | ChatView

  /** `gameState`: the current question, the score so far, and the two end flags. */
  datatype GameState = GameState(step: nat, score: int, isFinished: bool, isTerminated: bool)

  /** The banner. Hiding it writes an object without `title` and `icon`, so both become
      absent (`None`). */
  datatype Notification = Notification(show: bool, message: string, title: Option<string>, icon: Option<string>)

  /** What every hide of the banner writes. */
  const Hidden := Notification(false, "", None, None)

  /** One state update performed by a timer callback (or synchronously by a handler).
      `Confetti` stands for one burst of confetti and `Complete` for one completion
      message posted to the host page. */
  datatype Event =
    | Post(chat: string, msg: Message)
    | SetTyping(on: bool)
    | ShowBanner(message: string, title: string, icon: string)
    | HideBanner
    | Confetti
    | SetScore(score: int)
    | SetStep(step: nat)
    | Finish
    | Complete

  /** Everything the simulator keeps, as one value. `confettiBursts` and `completions`
      count the bursts shown and the completion messages posted so far. */
  datatype Session = Session(
    view: View,
    activeChat: string,
    game: GameState,
    introPlayed: bool,
    chatHistory: Histories,
    chatList: seq<ChatEntry>,
    notification: Notification,
    isTyping: bool,
    confettiBursts: nat,
    completions: nat)

  /** What one update does to the histories: a post appends its message to its channel. */
  function HistoryStep(h: Histories, e: Event): Histories {
    if e.Post? then AppendHistory(h, e.chat, e.msg) else h
  }

  /** What one update does to the chat list: a post refreshes or adds its channel's entry. */
  function ListStep(l: seq<ChatEntry>, e: Event): seq<ChatEntry> {
    if e.Post? then UpdatedList(l, e.chat, e.msg) else l
  }

  /** What one update does to the game state. */
  function GameStep(g: GameState, e: Event): GameState {
    match e
    case SetScore(v) => g.(score := v)
    case SetStep(k) => g.(step := k)
    case Finish => g.(isFinished := true)
    case _ => g
  }

  function TypingStep(t: bool, e: Event): bool {
    if e.SetTyping? then e.on else t
  }

  function BannerStep(n: Notification, e: Event): Notification {
    match e
    case ShowBanner(message, title, icon) => Notification(true, message, Some(title), Some(icon))
    case HideBanner => Hidden
    case _ => n
  }

  /** 1 if `e` is `f`, else 0. */
  function Tally(e: Event, f: Event): nat {
    if e == f then 1 else 0
  }

  /** The session after one update: each part moves as its step function says, and a
      confetti burst or a completion is counted. */
  function Next(s: Session, e: Event): Session {
    s.(
      chatHistory := HistoryStep(s.chatHistory, e),
      chatList := ListStep(s.chatList, e),
      game := GameStep(s.game, e),
      isTyping := TypingStep(s.isTyping, e),
      notification := BannerStep(s.notification, e),
      confettiBursts := s.confettiBursts + Tally(e, Confetti),
      completions := s.completions + Tally(e, Complete))
  }

  /** A post changes the histories and the list and nothing else. */
  lemma NextPost(s: Session, c: string, m: Message)
    ensures Next(s, Post(c, m)) == s.(chatHistory := AppendHistory(s.chatHistory, c, m), chatList := UpdatedList(s.chatList, c, m))
  {
  }

  /** Any other update leaves the histories and the list alone. */
  lemma NextOther(s: Session, e: Event)
    requires !e.Post?
    ensures Next(s, e) == s.(game := GameStep(s.game, e), isTyping := TypingStep(s.isTyping, e),
      notification := BannerStep(s.notification, e), confettiBursts := s.confettiBursts + Tally(e, Confetti),
      completions := s.completions + Tally(e, Complete))
  {
  }

  lemma NextTyping(s: Session, on: bool)
    ensures Next(s, SetTyping(on)) == s.(isTyping := on)
  {
  }

  /** What each kind of update other than a post changes: one field each. */
  lemma NextCases(s: Session, e: Event)
    ensures e.SetTyping? ==> Next(s, e) == s.(isTyping := e.on)
    ensures e.ShowBanner? ==> Next(s, e) == s.(notification := Notification(true, e.message, Some(e.title), Some(e.icon)))
    ensures e.HideBanner? ==> Next(s, e) == s.(notification := Hidden)
    ensures e.Confetti? ==> Next(s, e) == s.(confettiBursts := s.confettiBursts + 1)
    ensures e.SetScore? ==> Next(s, e) == s.(game := s.game.(score := e.score))
    ensures e.SetStep? ==> Next(s, e) == s.(game := s.game.(step := e.step))
    ensures e.Finish? ==> Next(s, e) == s.(game := s.game.(isFinished := true))
    ensures e.Complete? ==> Next(s, e) == s.(completions := s.completions + 1)
  {
  }

  /** Only a `SetStep` moves the step. */
  lemma NextStepField(s: Session, e: Event)
    ensures Next(s, e).game.step == if e.SetStep? then e.step else s.game.step
  {
  }

  /** `addMessage`: post `m` to channel `c`. */
  function AddMessage(s: Session, c: string, m: Message): Session {
    Next(s, Post(c, m))
  }

  /** The session after the updates `es`, in order. */
  function Run(s: Session, es: seq<Event>): Session
    decreases |es|
  {
    if es == [] then s else Run(Next(s, es[0]), es[1..])
  }

  // ---- What a run of updates does ----

  /** The messages `e` posts to channel `c`: its message if it is a post there, else none. */
  function PostedTo(e: Event, c: string): seq<Message> {
    if e.Post? && e.chat == c then [e.msg] else []
  }

  /** The messages `es` post to channel `c`, in order. */
  function PostsTo(es: seq<Event>, c: string): seq<Message>
    decreases |es|
  {
    if es == [] then [] else PostedTo(es[0], c) + PostsTo(es[1..], c)
  }

  /** One update appends its message to the channel it posts to and to no other. */
  lemma HistoryStepFacts(h: Histories, e: Event, c: string)
    ensures History(HistoryStep(h, e), c) == History(h, c) + PostedTo(e, c)
  {
  }

  /** A run of updates appends to each channel's history exactly what it posts there. */
  lemma {:induction false} RunHistory(s: Session, es: seq<Event>, c: string)
    ensures History(Run(s, es).chatHistory, c) == History(s.chatHistory, c) + PostsTo(es, c)
    decreases |es|
  {
    if es != [] {
      HistoryStepFacts(s.chatHistory, es[0], c);
      RunHistory(Next(s, es[0]), es[1..], c);
    }
  }

  /** What the quiz choreography changes, as one value: the histories of the three
      channels it posts to, the game state, the typing flag, the banner and the two
      counters. */
  datatype Effects = Effects(
    nico: seq<Message>, jefe: seq<Message>, eval: seq<Message>,
    game: GameState, typing: bool, banner: Notification, confetti: nat, completions: nat)

  function Observed(s: Session): Effects {
    Effects(History(s.chatHistory, Nico), History(s.chatHistory, Jefe), History(s.chatHistory, Eval),
      s.game, s.isTyping, s.notification, s.confettiBursts, s.completions)
  }

  /** What one update does to the observed part of the session. */
  function Apply(f: Effects, e: Event): Effects {
    Effects(
      if e.Post? && e.chat == Nico then f.nico + [e.msg] else f.nico,
      if e.Post? && e.chat == Jefe then f.jefe + [e.msg] else f.jefe,
      if e.Post? && e.chat == Eval then f.eval + [e.msg] else f.eval,
      GameStep(f.game, e), TypingStep(f.typing, e), BannerStep(f.banner, e),
      f.confetti + Tally(e, Confetti), f.completions + Tally(e, Complete))
  }

  /** The observed part after the updates `es`, in order. */
  function After(f: Effects, es: seq<Event>): Effects
    decreases |es|
  {
    if es == [] then f else After(Apply(f, es[0]), es[1..])
  }

  lemma ObservedStep(s: Session, e: Event)
    ensures Observed(Next(s, e)) == Apply(Observed(s), e)
  {
    var h := s.chatHistory;
    if e.Post? {
      assert History(HistoryStep(h, e), e.chat) == History(h, e.chat) + [e.msg];
    }
  }

  /** A run of updates changes the observed part of the session as `After` says, and
      leaves the view, the open chat and the intro flag alone. */
  lemma {:induction false} RunObserved(s: Session, es: seq<Event>)
    ensures Observed(Run(s, es)) == After(Observed(s), es)
    ensures Run(s, es).view == s.view && Run(s, es).activeChat == s.activeChat
    ensures Run(s, es).introPlayed == s.introPlayed
    decreases |es|
  {
    if es != [] {
      ObservedStep(s, es[0]);
      RunObserved(Next(s, es[0]), es[1..]);
    }
  }

  /** Running two batches one after the other is running their concatenation. */
  lemma {:induction false} RunConcat(s: Session, a: seq<Event>, b: seq<Event>)
    ensures Run(s, a + b) == Run(Run(s, a), b)
    decreases |a|
  {
    if a == [] {
      assert a + b == b;
    } else {
      assert (a + b)[0] == a[0] && (a + b)[1..] == a[1..] + b;
      RunConcat(Next(s, a[0]), a[1..], b);
    }
  }

  /** Running one more update after a run is running the longer sequence. */
  lemma RunSnoc(s: Session, a: seq<Event>, e: Event)
    ensures Run(s, a + [e]) == Next(Run(s, a), e)
  {
    RunConcat(s, a, [e]);
    assert [e][1..] == [];
  }

  lemma RunTwo(s: Session, a: Event, b: Event)
    ensures Run(s, [a, b]) == Next(Next(s, a), b)
  {
    RunSnoc(s, [], a);
    RunSnoc(s, [a], b);
    assert [] + [a] == [a] && [a] + [b] == [a, b];
  }

  lemma {:induction false} AfterConcat(f: Effects, a: seq<Event>, b: seq<Event>)
    ensures After(f, a + b) == After(After(f, a), b)
    decreases |a|
  {
    if a == [] {
      assert a + b == b;
    } else {
      assert (a + b)[0] == a[0] && (a + b)[1..] == a[1..] + b;
      AfterConcat(Apply(f, a[0]), a[1..], b);
    }
  }

  lemma AfterNone(f: Effects)
    ensures After(f, []) == f
  {
  }

  lemma AfterCons(f: Effects, e: Event, rest: seq<Event>)
    ensures After(f, [e] + rest) == After(Apply(f, e), rest)
  {
    assert ([e] + rest)[0] == e && ([e] + rest)[1..] == rest;
  }

  lemma AfterOne(f: Effects, e: Event)
    ensures After(f, [e]) == Apply(f, e)
  {
    AfterCons(f, e, []);
    assert [e] + [] == [e];
  }
}
