/** Chat histories and the chat list of the quiz simulator: what posting one message to a
    channel does to the channel's history and to the list entry that previews it. */
module Chats {
  import opened Wrappers

  /** The channels the quiz engine posts to. */
  const Nico := "nico"
  const Jefe := "jefe"
  const Eval := "eval"

  lemma ChannelsDistinct()
    ensures Nico != Jefe && Nico != Eval && Jefe != Eval
  {
    assert Nico[0] == 'n' && Jefe[0] == 'j' && Eval[0] == 'e';
  }

  /** The `type` of a message. */
  datatype Kind = User | Ai | System | Image | Document | Audio | Sticker | ContactLink

  /** A message id: a millisecond clock reading (with the small offset the engine adds
      already included) or a fixed name such as "eval-1". */
  datatype MsgId = Stamp(ms: int) | Named(name: string)

  /** A chat message. Properties a message object does not carry are `None`; `content` is
      `None` where the engine copies an absent script property (an option without
      feedback). */
  datatype Message = Message(
    id: MsgId,
    kind: Kind,
    content: Option<string>,
    timestamp: string,
    isReaction: bool := false,
    fileName: Option<string> := None,
    pages: Option<string> := None,
    duration: Option<string> := None,
    actionLabel: Option<string> := None)

  /** One row of the chat list. */
  datatype ChatEntry = ChatEntry(id: string, name: string, lastMsg: Option<string>, time: string, avatar: string)

  type Histories = map<string, seq<Message>>

  /** The history of channel `c`; a channel never posted to has an empty one. */
  function History(h: Histories, c: string): seq<Message> {
    if c in h then h[c] else []
  }

  /** The histories after `m` is posted to `c`. */
  function AppendHistory(h: Histories, c: string, m: Message): (r: Histories)
    ensures History(r, c) == History(h, c) + [m]
    ensures forall d :: d != c ==> History(r, d) == History(h, d)
    ensures r.Keys == h.Keys + {c}
  {
    h[c := History(h, c) + [m]]
  }

  /** The preview text of a message in the chat list: media kinds get a fixed label,
      everything else shows its content. */
  function Preview(m: Message): (p: Option<string>)
    ensures m.kind !in {Image, Audio, Sticker} ==> p == m.content
    ensures m.kind == Image ==> p == Some("📷 Foto")
    ensures m.kind == Audio ==> p == Some("🎤 Audio")
    ensures m.kind == Sticker ==> p == Some("💟 Sticker")
  {
    match m.kind
    case Image => Some("📷 Foto")
    case Audio => Some("🎤 Audio")
    case Sticker => Some("💟 Sticker")
    case _ => m.content
  }

  /** The clock label a list entry shows for a message: reactions show "Ahora". */
  function ListTime(timestamp: string): (t: string)
    ensures timestamp != "React" ==> t == timestamp
    ensures timestamp == "React" ==> t == "Ahora"
    ensures t != "React"
  {
    if timestamp == "React" then "Ahora" else timestamp
  }

  /** Whether the list has an entry for `c`. */
  predicate Listed(l: seq<ChatEntry>, c: string) {
    exists i :: 0 <= i < |l| && l[i].id == c
  }

  /** The ids of the listed channels, in list order. */
  function Ids(l: seq<ChatEntry>): seq<string> {
    if l == [] then [] else [l[0].id] + Ids(l[1..])
  }

  /** The list after `m` is posted to listed channel `c`: every entry for `c` shows the
      message's preview and list time, all other entries stay as they were. */
  function RefreshEntries(l: seq<ChatEntry>, c: string, m: Message): (r: seq<ChatEntry>)
    ensures |r| == |l|
    ensures forall i :: 0 <= i < |l| && l[i].id != c ==> r[i] == l[i]
    ensures forall i :: 0 <= i < |l| && l[i].id == c ==>
      r[i] == l[i].(lastMsg := Preview(m), time := ListTime(m.timestamp))
  {
    if l == [] then []
    else
      var head := if l[0].id == c then l[0].(lastMsg := Preview(m), time := ListTime(m.timestamp)) else l[0];
      [head] + RefreshEntries(l[1..], c, m)
  }

  /** The entry a first message to an unlisted channel creates: named "Evaluación" with
      the evaluation avatar for the evaluation channel, "Chat" otherwise; it shows the raw
      content (no media label) and the time "Ahora". */
  function NewEntry(c: string, m: Message): (e: ChatEntry)
    ensures e.id == c && e.lastMsg == m.content && e.time == "Ahora"
    ensures c == Eval <==> e.name == "Evaluación"
    ensures c == Eval <==> e.avatar == "eval"
    ensures c != Eval ==> e.name == "Chat" && e.avatar == "default"
  {
    ChatEntry(c, if c == Eval then "Evaluación" else "Chat", m.content, "Ahora", if c == Eval then "eval" else "default")
  }

  /** The chat list after `m` is posted to `c`. */
  function UpdatedList(l: seq<ChatEntry>, c: string, m: Message): seq<ChatEntry> {
    if Listed(l, c) then RefreshEntries(l, c, m) else [NewEntry(c, m)] + l
  }

  lemma {:induction false} IdsOfRefresh(l: seq<ChatEntry>, c: string, m: Message)
    ensures Ids(RefreshEntries(l, c, m)) == Ids(l)
  {
    if l != [] {
      IdsOfRefresh(l[1..], c, m);
      assert RefreshEntries(l, c, m)[1..] == RefreshEntries(l[1..], c, m);
    }
  }

  /** A post to a listed channel keeps the channels and their order, and every entry for
      the channel then previews the new message with its list time. */
  lemma PostToListedChat(l: seq<ChatEntry>, c: string, m: Message)
    requires Listed(l, c)
    ensures Ids(UpdatedList(l, c, m)) == Ids(l)
    ensures Listed(UpdatedList(l, c, m), c)
    ensures forall i :: 0 <= i < |UpdatedList(l, c, m)| && UpdatedList(l, c, m)[i].id == c ==>
      UpdatedList(l, c, m)[i].lastMsg == Preview(m) && UpdatedList(l, c, m)[i].time == ListTime(m.timestamp)
  {
    IdsOfRefresh(l, c, m);
    var k :| 0 <= k < |l| && l[k].id == c;
    assert UpdatedList(l, c, m)[k].id == c;
  }

  /** A first post to a channel puts one new entry for it at the top of the list, ahead
      of the unchanged old list. */
  lemma PostToNewChat(l: seq<ChatEntry>, c: string, m: Message)
    requires !Listed(l, c)
    ensures Ids(UpdatedList(l, c, m)) == [c] + Ids(l)
    ensures UpdatedList(l, c, m) == [NewEntry(c, m)] + l
    ensures Listed(UpdatedList(l, c, m), c)
  {
    var r := [NewEntry(c, m)] + l;
    assert r[1..] == l;
    assert r[0].id == c;
  }
}
