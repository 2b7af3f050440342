/** The generic chat mock-up: a list of four bot chats, one conversation at a time, and
    a send box whose every message gets a canned reply 1.5 s later. */
module MockChat {
  import opened Wrappers

  // ---- Blank input ----

  /** The characters `String.prototype.trim` removes: the ECMAScript white space and line
      terminators. */
  predicate IsJsSpace(c: char) {
    c in {'\t', '\n', '\U{000B}', '\U{000C}', '\r', ' ', '\U{00A0}', '\U{1680}', '\U{2028}',
          '\U{2029}', '\U{202F}', '\U{205F}', '\U{3000}', '\U{FEFF}'}
    || '\U{2000}' <= c <= '\U{200A}'
  }

  predicate IsBlank(s: string) {
    forall i :: 0 <= i < |s| ==> IsJsSpace(s[i])
  }

  /** `s` without its leading white space. */
  function TrimStart(s: string): (r: string)
    ensures |r| <= |s| && r == s[|s| - |r|..]
    ensures r == [] || !IsJsSpace(r[0])
    ensures IsBlank(s[..|s| - |r|])
  {
    if s != [] && IsJsSpace(s[0]) then
      var r := TrimStart(s[1..]);
      assert s[..|s| - |r|] == [s[0]] + s[1..][..|s[1..]| - |r|];
      r
    else s
  }

  /** `s` without its trailing white space. */
  function TrimEnd(s: string): (r: string)
    ensures |r| <= |s| && r == s[..|r|]
    ensures r == [] || !IsJsSpace(r[|r| - 1])
    ensures IsBlank(s[|r|..])
  {
    if s != [] && IsJsSpace(s[|s| - 1]) then
      var r := TrimEnd(s[..|s| - 1]);
      assert s[|r|..] == s[..|s| - 1][|r|..] + [s[|s| - 1]];
      r
    else s
  }

  /** `s.trim()`. */
  function Trim(s: string): string {
    TrimEnd(TrimStart(s))
  }

  /** The guard of a send: the input trims to nothing exactly when it is all white
      space (the empty input included). */
  lemma TrimEmptyIffBlank(s: string)
    ensures Trim(s) == "" <==> IsBlank(s)
  {
    if Trim(s) == "" {
      var t := TrimStart(s);
      assert IsBlank(t) by {
        assert t[0..] == t;
      }
      assert t == [];
      assert s[..|s| - |t|] == s;
    }
    if IsBlank(s) {
      BlankTrimStart(s);
    }
  }

  /** An all-white-space string loses everything at the front. */
  lemma {:induction false} BlankTrimStart(s: string)
    requires IsBlank(s)
    ensures TrimStart(s) == []
  {
    if s != [] {
      assert IsBlank(s[1..]) by {
        forall i | 0 <= i < |s[1..]|
          ensures IsJsSpace(s[1..][i])
        {
          assert s[1..][i] == s[i + 1];
        }
      }
      BlankTrimStart(s[1..]);
    }
  }

  // ---- Replies ----

  const DefaultResponse := "Usage: This is" + " a simulated" + " response."

  /** `mockResponses`: a canned reply for three of the four chats, plus "default". */
  const Responses: map<string, string> := map[
    "marketing" := "I'll review the" + " draft and get" + " back to you by" + " EOD.",
    "summarize" := "Sure, paste the" + " text here and" + " I'll summarize" + " it.",
    "checklist" := "Added to your" + " to-do list.",
    "default" := DefaultResponse]

  /** The reply for chat `chatId` (absent when no chat is open): its entry in the table,
      or the default one when it has none. */
  function ResponseFor(chatId: Option<string>): (reply: string)
    ensures chatId.Some? && chatId.value in Responses ==> reply == Responses[chatId.value]
    ensures chatId.None? || chatId.value !in Responses ==> reply == DefaultResponse
  {
    if chatId.Some? && chatId.value in Responses then Responses[chatId.value] else Responses["default"]
  }

  /** "analysis" is listed as a chat but has no reply of its own: it gets the default. */
  lemma AnalysisGetsDefault()
    ensures ResponseFor(Some("analysis")) == DefaultResponse
    ensures ResponseFor(Some("marketing")) != DefaultResponse
  {
    assert "analysis" !in Responses by {
      assert "analysis"[0] == 'a' && "marketing"[0] == 'm' && "summarize"[0] == 's';
      assert "checklist"[0] == 'c' && "default"[0] == 'd';
    }
    assert Responses["marketing"][0] == 'I' && DefaultResponse[0] == 'U';
  }

  // ---- Messages ----

  datatype Sender = UserSide | AiSide

  /** A message: its id (a clock reading), sender, text and clock label. */
  datatype ChatMsg = ChatMsg(id: int, sender: Sender, content: string, timestamp: string)

  datatype Screen = ListScreen | ChatScreen

  /** A reply waiting for its timer: the chat it answers, the conversation as the send
      left it, and which opening of the chat view sent it. */
  datatype PendingReply = PendingReply(chatId: Option<string>, base: seq<ChatMsg>, opening: nat)

  function ReplyMessage(chatId: Option<string>, now: int, time: string): ChatMsg {
    ChatMsg(now + 1, AiSide, ResponseFor(chatId), time)
  }

  /** What the reply timer writes: the conversation the send left, plus the reply. */
  function ReplyAsWritten(base: seq<ChatMsg>, reply: ChatMsg): seq<ChatMsg> {
    base + [reply]
  }

  /** The reply appended to the conversation as it is when the timer fires, as long as
      the same chat view is still open; otherwise the conversation is left alone. */
  function ReplyCorrected(current: seq<ChatMsg>, sameView: bool, reply: ChatMsg): (r: seq<ChatMsg>)
    ensures current <= r
    ensures sameView ==> r == current + [reply]
    ensures !sameView ==> r == current
  {
    if sameView then current + [reply] else current
  }

  // ---- The component ----

  /** The mock-up: the screen, the open chat and its conversation, and the open chat
      view's own input and typing flag. `opening` counts the openings of a chat view
      (each opening starts a fresh view with an empty input and no typing indicator);
      `pending` holds the replies not yet delivered, in the order they were sent. */
  class WhatsAppSimulator {
    var view: Screen
    var activeChat: Option<string>
    var messages: seq<ChatMsg>
    var input: string
    var isTyping: bool
    var opening: nat
    var pending: seq<PendingReply>

    constructor()
      ensures view == ListScreen && activeChat == None && messages == [] && input == "" && !isTyping
      ensures pending == []
    {
      view, activeChat, messages := ListScreen, None, [];
      input, isTyping, opening, pending := "", false, 0, [];
    }

    /** `handleChatSelect`: open chat `c` with an empty conversation; the new chat view
        starts with an empty input and no typing indicator. */
    method HandleChatSelect(c: string)
      modifies this
      ensures view == ChatScreen && activeChat == Some(c) && messages == []
      ensures input == "" && !isTyping && opening == old(opening) + 1
      ensures pending == old(pending)
    {
      activeChat, view, messages := Some(c), ChatScreen, [];
      input, isTyping, opening := "", false, opening + 1;
    }

    /** `handleBack`: back to the list with no chat open. Replies already pending stay
        pending. */
    method HandleBack()
      modifies this
      ensures view == ListScreen && activeChat == None
      ensures messages == old(messages) && pending == old(pending) && opening == old(opening)
    {
      view, activeChat := ListScreen, None;
    }

    /** Typing into the send box. */
    method SetInput(text: string)
      modifies this
      ensures input == text
      ensures view == old(view) && activeChat == old(activeChat) && messages == old(messages)
      ensures isTyping == old(isTyping) && opening == old(opening) && pending == old(pending)
    {
      input := text;
    }

    /** `handleSend`: a blank input changes nothing; otherwise the untrimmed input is sent
        as the learner's message, the box is cleared, the typing indicator comes on and a
        reply is scheduled with the conversation as it now is. */
    method HandleSend(now: int, time: string)
      modifies this
      ensures Trim(old(input)) == "" ==>
        messages == old(messages) && input == old(input) && isTyping == old(isTyping) && pending == old(pending)
      ensures Trim(old(input)) != "" ==>
        && messages == old(messages) + [ChatMsg(now, UserSide, old(input), time)]
        && input == "" && isTyping
        && pending == old(pending) + [PendingReply(activeChat, messages, opening)]
      ensures view == old(view) && activeChat == old(activeChat) && opening == old(opening)
    {
      if Trim(input) == "" {
        return;
      }
      var newMsgs := messages + [ChatMsg(now, UserSide, input, time)];
      messages := newMsgs;
      input := "";
      isTyping := true;
      pending := pending + [PendingReply(activeChat, newMsgs, opening)];
    }

    /** Whether the chat view that queued `r` is still on screen: the chat screen shows
        the same opening of the view. */
    predicate SendingViewOpen(r: PendingReply)
      reads this
    {
      view == ChatScreen && r.opening == opening
    }

    /** The reply timer as written: the oldest pending reply replaces the conversation by
        the one its send saw plus the reply, and stops the typing indicator of the view
        that sent it if that view is still open. */
    method DeliverReplyAsWritten(now: int, time: string)
      requires pending != []
      modifies this
      ensures messages == ReplyAsWritten(old(pending[0].base), ReplyMessage(old(pending[0].chatId), now, time))
      ensures isTyping == (if old(SendingViewOpen(pending[0])) then false else old(isTyping))
      ensures pending == old(pending[1..])
      ensures view == old(view) && activeChat == old(activeChat) && input == old(input) && opening == old(opening)
    {
      var r := pending[0];
      var same := SendingViewOpen(r);
      messages := ReplyAsWritten(r.base, ReplyMessage(r.chatId, now, time));
      if same {
        isTyping := false;
      }
      pending := pending[1..];
    }

    /** The reply timer as evidently intended: the reply is appended to the conversation
        as it is now, and only while the view that sent it is still open; no message is
        ever lost. */
    method DeliverReply(now: int, time: string)
      requires pending != []
      modifies this
      ensures old(messages) <= messages
      ensures messages == ReplyCorrected(old(messages), old(SendingViewOpen(pending[0])),
        ReplyMessage(old(pending[0].chatId), now, time))
      ensures isTyping == (if old(SendingViewOpen(pending[0])) then false else old(isTyping))
      ensures pending == old(pending[1..])
      ensures view == old(view) && activeChat == old(activeChat) && input == old(input) && opening == old(opening)
    {
      var r := pending[0];
      var same := SendingViewOpen(r);
      messages := ReplyCorrected(messages, same, ReplyMessage(r.chatId, now, time));
      if same {
        isTyping := false;
      }
      pending := pending[1..];
    }
  }

  // ---- Two findings, shown on concrete runs ----

  const Hello := ChatMsg(1000, UserSide, "hola", "14:20")
  const Again := ChatMsg(1200, UserSide, "otra", "14:20")

  lemma HolaIsNotBlank()
    ensures Trim("hola") != ""
  {
    TrimEmptyIffBlank("hola");
    assert !IsJsSpace("hola"[0]);
  }

  lemma OtraIsNotBlank()
    ensures Trim("otra") != ""
  {
    TrimEmptyIffBlank("otra");
    assert !IsJsSpace("otra"[0]);
  }

  /** Two sends 0.2 s apart, as written: each reply timer writes the conversation its own
      send saw. The first reply hides the second message, and the second reply then
      erases the first reply. */
  method QuickSendsLoseAReply() returns (afterFirst: seq<ChatMsg>, afterSecond: seq<ChatMsg>)
    ensures var r1 := ReplyMessage(Some("marketing"), 2500, "14:20");
      afterFirst == [Hello, r1] && Again !in afterFirst
    ensures var r1, r2 := ReplyMessage(Some("marketing"), 2500, "14:20"), ReplyMessage(Some("marketing"), 2700, "14:20");
      afterSecond == [Hello, Again, r2] && r1 !in afterSecond
  {
    hide Trim, TrimStart, TrimEnd, IsJsSpace, ResponseFor;
    var app := new WhatsAppSimulator();
    app.HandleChatSelect("marketing");
    app.SetInput("hola");
    HolaIsNotBlank();
    app.HandleSend(1000, "14:20");
    app.SetInput("otra");
    OtraIsNotBlank();
    app.HandleSend(1200, "14:20");
    app.DeliverReplyAsWritten(2500, "14:20");
    afterFirst := app.messages;
    app.DeliverReplyAsWritten(2700, "14:20");
    afterSecond := app.messages;
    assert ReplyMessage(Some("marketing"), 2500, "14:20").id != Again.id;
  }

  /** The same sends with the corrected reply timer: both replies follow both messages. */
  method QuickSendsKeepBothReplies() returns (shown: seq<ChatMsg>)
    ensures shown == [Hello, Again, ReplyMessage(Some("marketing"), 2500, "14:20"), ReplyMessage(Some("marketing"), 2700, "14:20")]
  {
    hide Trim, TrimStart, TrimEnd, IsJsSpace, ResponseFor;
    var app := new WhatsAppSimulator();
    app.HandleChatSelect("marketing");
    app.SetInput("hola");
    HolaIsNotBlank();
    app.HandleSend(1000, "14:20");
    app.SetInput("otra");
    OtraIsNotBlank();
    app.HandleSend(1200, "14:20");
    app.DeliverReply(2500, "14:20");
    app.DeliverReply(2700, "14:20");
    shown := app.messages;
  }

  /** A send in "marketing", back to the list and into "summarize" within 1.5 s: as
      written, the reply timer writes the marketing conversation, with the marketing
      reply, into the freshly emptied summarize view. */
  method ReplyLeaksIntoNextChat() returns (open: Option<string>, shown: seq<ChatMsg>)
    ensures open == Some("summarize")
    ensures shown == [Hello, ReplyMessage(Some("marketing"), 2500, "14:20")]
  {
    hide Trim, TrimStart, TrimEnd, IsJsSpace, ResponseFor;
    var app := new WhatsAppSimulator();
    app.HandleChatSelect("marketing");
    app.SetInput("hola");
    HolaIsNotBlank();
    app.HandleSend(1000, "14:20");
    app.HandleBack();
    app.HandleChatSelect("summarize");
    app.DeliverReplyAsWritten(2500, "14:20");
    open, shown := app.activeChat, app.messages;
  }

  /** The same run with the corrected reply timer: the reply for the closed marketing
      view is dropped and the summarize view stays empty. */
  method ReplyDroppedInNextChat() returns (open: Option<string>, shown: seq<ChatMsg>)
    ensures open == Some("summarize") && shown == []
  {
    hide Trim, TrimStart, TrimEnd, IsJsSpace, ResponseFor;
    var app := new WhatsAppSimulator();
    app.HandleChatSelect("marketing");
    app.SetInput("hola");
    HolaIsNotBlank();
    app.HandleSend(1000, "14:20");
    app.HandleBack();
    app.HandleChatSelect("summarize");
    app.DeliverReply(2500, "14:20");
    open, shown := app.activeChat, app.messages;
  }

  /** With the corrected reply timer, a reply arriving while the list is on screen is
      dropped too: the conversation keeps only the sent message. */
  method ReplyDroppedOnList() returns (screen: Screen, kept: seq<ChatMsg>)
    ensures screen == ListScreen && kept == [Hello]
  {
    hide Trim, TrimStart, TrimEnd, IsJsSpace, ResponseFor;
    var app := new WhatsAppSimulator();
    app.HandleChatSelect("marketing");
    app.SetInput("hola");
    HolaIsNotBlank();
    app.HandleSend(1000, "14:20");
    app.HandleBack();
    app.DeliverReply(2500, "14:20");
    screen, kept := app.view, app.messages;
  }

  /** With the corrected reply timer and the chat left open, the reply follows the sent
      message and the typing indicator stops. */
  method ReplyAppendedInSameChat() returns (shown: seq<ChatMsg>, typing: bool)
    ensures shown == [Hello, ReplyMessage(Some("marketing"), 2500, "14:20")] && !typing
  {
    hide Trim, TrimStart, TrimEnd, IsJsSpace, ResponseFor;
    var app := new WhatsAppSimulator();
    app.HandleChatSelect("marketing");
    app.SetInput("hola");
    HolaIsNotBlank();
    app.HandleSend(1000, "14:20");
    app.DeliverReply(2500, "14:20");
    shown, typing := app.messages, app.isTyping;
  }
}
