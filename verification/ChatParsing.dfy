/**
 The chat server as one process: two threads, their text buffers, and the one position `strtok` saves.

 Both server threads take their frames apart with `strtok`, which writes terminators into the buffer and
 keeps, in one variable for the whole process, where it stopped.  Here every call is a step that reads
 and writes that place; a call with a null argument goes on wherever the last call of either thread
 stopped.  A null token handed to `strcmp`, `strlen` or `atoi`, and a write before the member array, end
 the server (`fault`).
*/
module ChatParsing {
  import opened ChatCodec
  import opened ChatServer
  import opened ChatClient
  import opened ChatMirror
  import I = ChatInterleaved

  const NUL: char := '\0'

  // ---------------------------------------------------------------- strings in buffers

  /** The C string that starts at `p`; the buffer ends it where no terminator does. */
  function TextAt(b: string, p: nat): string
    decreases |b| - p
  {
    if p >= |b| || b[p] == NUL then "" else [b[p]] + TextAt(b, p + 1)
  }

  /** `s` stands at `p`, up to a terminator or the end of the buffer. */
  ghost predicate Stands(b: string, p: nat, s: string) {
    && p + |s| <= |b| && b[p..p + |s|] == s && NUL !in s
    && (p + |s| < |b| ==> b[p + |s|] == NUL)
  }

  lemma {:induction false} TextAtIs(b: string, p: nat)
    requires p <= |b|
    ensures Stands(b, p, TextAt(b, p)) && p + |TextAt(b, p)| <= |b|
    decreases |b| - p
  {
    if p < |b| && b[p] != NUL {
      TextAtIs(b, p + 1);
      var e := p + 1 + |TextAt(b, p + 1)|;
      assert b[p..e] == [b[p]] + b[p + 1..e];
    }
  }

  lemma {:induction false} TextAtUnique(b: string, p: nat, s: string)
    requires Stands(b, p, s)
    ensures TextAt(b, p) == s
    decreases |s|
  {
    if s != "" {
      assert b[p] == b[p..p + |s|][0] == s[0] && s[0] in s;
      assert b[p + 1..p + |s|] == b[p..p + |s|][1..] == s[1..];
      TextAtUnique(b, p + 1, s[1..]);
      assert s == [s[0]] + s[1..];
    }
  }

  /** `strcpy`: the text and its terminator over the front of the buffer. */
  function Over(b: string, text: string): string {
    text + [NUL] + if |text| + 1 <= |b| then b[|text| + 1..] else ""
  }

  lemma TextOver(text: string, tail: string)
    requires NUL !in text
    ensures TextAt(text + [NUL] + tail, 0) == text
    ensures TextAt(text + [NUL] + tail, |text|) == ""
  {
    var b := text + [NUL] + tail;
    assert b[0..|text|] == text && b[|text|] == NUL;
    TextAtUnique(b, 0, text);
  }

  /** The outcome of a call of `strtok` on the string at `p`: the token, the buffer, where it stopped. */
  datatype Call = Call(token: Token, buf: string, pos: nat)

  function CallAt(b: string, p: nat, d: char): Call {
    var s := TextAt(b, p);
    match Strtok(s, d)
    case NoToken => Call(NoToken, b, p + |s|)
    case Token(text, rest) =>
      var end := p + |s| - |SkipDelims(s, d)| + |text|;
      Call(Token(text, rest), if end < |b| then b[end := NUL] else b, p + |s| - |rest|)
  }

  /** The call returns the token of `Strtok` and leaves its remainder where it stopped. */
  lemma CallIs(b: string, p: nat, d: char)
    requires p <= |b| && d != NUL
    ensures var s, c := TextAt(b, p), CallAt(b, p, d);
            && c.token == Strtok(s, d) && |c.buf| == |b| && c.pos <= |b|
            && (c.token.Token? ==> TextAt(c.buf, c.pos) == c.token.rest && c.pos + |c.token.rest| == p + |s|)
  {
    hide Strtok, SkipDelims, TextAt, Stands, RestIs, CallAt;
    var s := TextAt(b, p);
    TextAtIs(b, p);
    if Strtok(s, d).Token? {
      var j := |s| - |SkipDelims(s, d)| + |Strtok(s, d).text|;
      StrtokCut(s, d);
      CallCuts(b, p, d, j);
      RestAt(b, CallAt(b, p, d).buf, p, s, j, Strtok(s, d).rest);
    } else {
      CallFails(b, p, d);
    }
  }

  lemma CallFails(b: string, p: nat, d: char)
    requires Strtok(TextAt(b, p), d).NoToken?
    ensures CallAt(b, p, d) == Call(NoToken, b, p + |TextAt(b, p)|)
  {
    hide Strtok, SkipDelims, TextAt;
  }

  lemma CallCuts(b: string, p: nat, d: char, j: nat)
    requires Strtok(TextAt(b, p), d).Token?
    requires j == |TextAt(b, p)| - |SkipDelims(TextAt(b, p), d)| + |Strtok(TextAt(b, p), d).text|
    ensures var c, t := CallAt(b, p, d), Strtok(TextAt(b, p), d);
            && c.token == t && c.pos == p + |TextAt(b, p)| - |t.rest|
            && c.buf == if p + j < |b| then b[p + j := NUL] else b
  {
    hide Strtok, SkipDelims, TextAt;
  }

  /** The remainder of a string's token follows the character that ends the token. */
  lemma StrtokCut(s: string, d: char)
    ensures Strtok(s, d).Token? ==>
              var j := |s| - |SkipDelims(s, d)| + |Strtok(s, d).text|;
              RestIs(s, j, Strtok(s, d).rest) && j >= 0
  {
    StrtokPlace(s, d);
    hide Strtok, SkipDelims;
  }

  ghost predicate RestIs(s: string, j: int, rest: string) {
    0 <= j <= |s| && rest == if j == |s| then "" else s[j + 1..]
  }

  lemma RestAt(b: string, b': string, p: nat, s: string, j: nat, rest: string)
    requires Stands(b, p, s) && RestIs(s, j, rest)
    requires b' == if p + j < |b| then b[p + j := NUL] else b
    ensures |b'| == |b| && |rest| <= |s| && TextAt(b', p + |s| - |rest|) == rest
  {
    var q := p + |s| - |rest|;
    RestStands(b, p, s, j, rest);
    hide Stands, RestIs;
    TextAtUnique(b', q, rest);
  }

  lemma RestStands(b: string, p: nat, s: string, j: nat, rest: string)
    requires Stands(b, p, s) && RestIs(s, j, rest)
    ensures |rest| <= |s|
    ensures Stands(if p + j < |b| then b[p + j := NUL] else b, p + |s| - |rest|, rest)
  {
    if j < |s| {
      var b', q := b[p + j := NUL], p + j + 1;
      assert |rest| == |s| - j - 1;
      forall k | 0 <= k < |rest| ensures b'[q + k] == rest[k] {
        assert rest[k] == s[j + 1 + k] == b[p..p + |s|][j + 1 + k] == b[q + k];
      }
      assert b'[q..q + |rest|] == rest;
      assert forall c :: c in rest ==> c in s;
    }
  }

  // ---------------------------------------------------------------- the machine

  /** The membership thread; the three calls of `strtok` are `First`, `Second` and `Third`. */
  datatype MembersPc =
    | Wait
    | Lock
    | First
    | Second(leave: bool)
    | Third(leave: bool, nick: string)
    | Apply(leave: bool, nick: string, num: string)
    | ShareMembers(nick: string, id: int, i: nat)
    | ShareHistory(nick: string, id: int, j: nat)
    | Register(nick: string, id: int, replayed: nat)
    | Restore
    | Announce(i: nat)
    | TestOnline
    | ClearMembers
    | RaiseFlag
    | Closed

  /** The message thread; the three calls are `Head`, `LineCall` and `PidCall`. */
  datatype MessagesPc =
    | TestFlag
    | Listen
    | Head
    | PollTest
    | Broadcast(i: nat)
    | LineCall
    | PidCall(line: string)
    | Append(line: string, num: string)
    | Ended

  /** The received frame, which is parsed in place, and its copy. */
  datatype MembersThread = MembersThread(pc: MembersPc, buf: string, copy: string)

  /** The received frame, and the buffer its copy is parsed in. */
  datatype MessagesThread = MessagesThread(pc: MessagesPc, text: string, buf: string)

  /** `windows` is a history variable, as in the machine with private parses. */
  datatype Lists = Lists(members: seq<Member>, messages: seq<Message>, online: int, exitFlag: bool,
                         windows: map<int, I.Window>)

  datatype Net = Net(memberTexts: seq<string>, chatTexts: seq<string>, inbox: map<int, seq<I.Item>>,
                     peers: map<int, I.Peer>, nicks: map<int, string>)

  /** Where `strtok` stopped last: in which thread's buffer, and at which index. */
  datatype Place = Place(inMembers: bool, pos: nat)

  /**
   `taken` is a history variable: whether the parse of a member frame has begun since the message thread
   last began one.
  */
  datatype State = State(lists: Lists, net: Net, m: MembersThread, c: MessagesThread,
                         saved: Place, taken: bool, fault: bool)

  /** `junk` is what `msgrcv` delivers behind the text of a frame: the sender's whole buffer travels. */
  datatype Action =
    | Start(p: int, nick: string)
    | Say(p: int, line: string)
    | Quit(p: int)
    | SendLeave(p: int)
    | SendPoll(p: int)
    | Receive(p: int)
    | MembersStep(junk: string)
    | MessagesStep

  ghost predicate Init(s: State) {
    && s.lists == Lists([], [], 0, false, map[])
    && s.net == Net([], [], map[], map[], map[])
    && s.m.pc == Wait && s.c.pc == TestFlag && !s.taken && !s.fault
  }

  predicate Reads(net: Net, p: int, phase: Phase) {
    p in net.peers && net.peers[p].phase == phase && p in net.nicks
  }

  function InboxOf(net: Net, p: int): seq<I.Item> {
    if p in net.inbox then net.inbox[p] else []
  }

  function Post(net: Net, p: int, item: I.Item): Net {
    net.(inbox := net.inbox[p := InboxOf(net, p) + [item]])
  }

  /** What a client's reader, a process of its own, makes of a text. */
  function ItemOf(text: string, live: bool): I.Item {
    var f := ParseClient(text);
    if f.Chat? then I.Line(Message(f.line, f.id), live) else I.Note(f)
  }

  /** Client inputs are C strings that a frame can carry. */
  predicate Enabled(s: State, a: Action) {
    match a
    case Start(p, nick) => p !in s.net.peers && p > 2 && GoodNick(nick) && NUL !in nick
    case Say(p, line) => Reads(s.net, p, Reading) && GoodLine(line) && line != EXIT_LINE && NUL !in line
    case Quit(p) => Reads(s.net, p, Reading)
    case SendLeave(p) => Reads(s.net, p, Silent)
    case SendPoll(p) => Reads(s.net, p, Left)
    case Receive(p) => Reads(s.net, p, Reading) && InboxOf(s.net, p) != []
    case MembersStep(_) => !s.fault && s.m.pc != Closed && (s.m.pc == Wait ==> s.net.memberTexts != [])
    case MessagesStep =>
      && !s.fault && s.c.pc != Ended && (s.c.pc == Listen ==> s.net.chatTexts != [])
      && (s.c.pc == PollTest ==> s.m.pc in {Wait, Lock, ClearMembers, RaiseFlag, Closed})
  }

  function Do(s: State, a: Action): State
    requires Enabled(s, a)
  {
    match a
    case MembersStep(junk) => DoMembers(s, junk)
    case MessagesStep => DoMessages(s)
    case _ => s.(net := DoClient(s.net, a))
  }

  function SetPhase(net: Net, p: int, phase: Phase): Net
    requires p in net.peers
  {
    net.(peers := net.peers[p := net.peers[p].(phase := phase)])
  }

  function DoClient(net: Net, a: Action): Net
    requires !a.MembersStep? && !a.MessagesStep?
    requires a.Start? || (a.p in net.peers && a.p in net.nicks)
    requires a.Receive? ==> InboxOf(net, a.p) != []
  {
    match a
    case Start(p, nick) =>
      net.(peers := net.peers[p := I.Peer(Reading, [], [])], nicks := net.nicks[p := nick],
           memberTexts := net.memberTexts + [SendMessageText(nick, 1, 1, p)])
    case Say(p, line) => net.(chatTexts := net.chatTexts + [SendMessageText(line, 2, 3, p)])
    case Quit(p) => SetPhase(net, p, Silent)
    case SendLeave(p) =>
      SetPhase(net, p, Left).(memberTexts := net.memberTexts + [SendMessageText(net.nicks[p], 1, 0, p)])
    case SendPoll(p) =>
      SetPhase(net, p, Gone).(chatTexts := net.chatTexts + [SendMessageText(net.nicks[p], 2, 4, p)])
    case Receive(p) =>
      var item, peer := InboxOf(net, p)[0], net.peers[p];
      net.(inbox := net.inbox[p := net.inbox[p][1..]],
           peers := net.peers[p := peer.(received := peer.received + I.OnlyLines([item]),
                                         noted := peer.noted + I.OnlyNotes([item]))])
  }

  /** `strtok` with a null first argument. */
  function NextCall(s: State, d: char): Call {
    CallAt(if s.saved.inMembers then s.m.buf else s.c.buf, s.saved.pos, d)
  }

  /** The buffers and the saved place after such a call. */
  function AfterCall(s: State, c: Call): State {
    if s.saved.inMembers then s.(m := s.m.(buf := c.buf), saved := Place(true, c.pos))
    else s.(c := s.c.(buf := c.buf), saved := Place(false, c.pos))
  }

  function DoMembers(s: State, junk: string): State
    requires Enabled(s, MembersStep(junk))
  {
    match s.m.pc
    case Wait =>
      s.(m := s.m.(pc := Lock, buf := s.net.memberTexts[0] + [NUL] + junk),
         net := s.net.(memberTexts := s.net.memberTexts[1..]))
    case Lock => s.(m := s.m.(pc := First, copy := TextAt(s.m.buf, 0)))
    case First => MembersFirst(s)
    case Second(leave) => MembersSecond(s, leave)
    case Third(leave, nick) => MembersThird(s, leave, nick)
    case Apply(leave, nick, num) => MembersApply(s, leave, nick, num)
    case Restore => s.(m := s.m.(pc := Announce(0), buf := Over(s.m.buf, s.m.copy)))
    case _ => MembersLoops(s)
  }

  /** `strtok` on the frame itself. */
  function MembersFirst(s: State): State {
    var c := CallAt(s.m.buf, 0, ' ');
    if c.token.NoToken? then s.(fault := true)
    else s.(m := s.m.(pc := Second(c.token.text == "0"), buf := c.buf), saved := Place(true, c.pos), taken := true)
  }

  /** A join reads its nickname; a leave skips a token, null or not. */
  function MembersSecond(s: State, leave: bool): State {
    var c := NextCall(s, ' ');
    if c.token.NoToken? && !leave then s.(fault := true)
    else
      var s := AfterCall(s, c);
      s.(m := s.m.(pc := Third(leave, if leave then "" else c.token.text)))
  }

  function MembersThird(s: State, leave: bool, nick: string): State {
    var c := NextCall(s, ' ');
    if c.token.NoToken? then s.(fault := true)
    else
      var s := AfterCall(s, c);
      s.(m := s.m.(pc := Apply(leave, nick, c.token.text)))
  }

  function MembersApply(s: State, leave: bool, nick: string, num: string): State {
    if leave then
      var k := Find(s.lists.members, Atoi(num));
      if k < 0 then s.(fault := true)
      else s.(m := s.m.(pc := Restore),
              lists := s.lists.(members := s.lists.members[k := s.lists.members[k].(online := false)],
                                online := s.lists.online - 1))
    else s.(m := s.m.(pc := ShareMembers(nick, Atoi(num), 0)))
  }

  function MembersGo(s: State, pc: MembersPc): State {
    s.(m := s.m.(pc := pc))
  }

  /** Sharing, registering, announcing and closing, as in the machine with private parses. */
  function MembersLoops(s: State): State {
    var ms := s.lists.members;
    match s.m.pc
    case ShareMembers(nick, id, i) =>
      if i < |ms| then
        MembersGo(if ms[i].online then s.(net := Post(s.net, id, ItemOf(MemberText(1, ms[i].nick, ms[i].id), false)))
                  else s, ShareMembers(nick, id, i + 1))
      else MembersGo(s, ShareHistory(nick, id, 0))
    case ShareHistory(nick, id, j) =>
      if j < |s.lists.messages| then
        var message := s.lists.messages[j];
        MembersGo(s.(net := Post(s.net, id, ItemOf(ChatText(3, message.line, message.id), false))),
                  ShareHistory(nick, id, j + 1))
      else MembersGo(s, Register(nick, id, j))
    case Register(nick, id, replayed) =>
      MembersGo(s.(lists := s.lists.(members := ms + [Member(nick, id, true)], online := s.lists.online + 1,
                                     windows := s.lists.windows[id := I.Window(replayed, Sent(s))])), Restore)
    case Announce(i) =>
      if i < |ms| then MembersGo(s.(net := Post(s.net, ms[i].id, ItemOf(TextAt(s.m.buf, 0), false))), Announce(i + 1))
      else MembersGo(s, TestOnline)
    case TestOnline => MembersGo(s, if s.lists.online <= 0 then ClearMembers else Wait)
    case ClearMembers => MembersGo(s.(lists := s.lists.(members := [])), RaiseFlag)
    case RaiseFlag => MembersGo(s.(lists := s.lists.(exitFlag := true)), Closed)
    case _ => s
  }

  /** The messages listed, and the one that everybody has been sent and that is not listed yet. */
  function Sent(s: State): nat {
    |s.lists.messages| + if s.c.pc.LineCall? || s.c.pc.PidCall? || s.c.pc.Append? then 1 else 0
  }

  function MessagesGo(s: State, pc: MessagesPc): State {
    s.(c := s.c.(pc := pc))
  }

  function DoMessages(s: State): State
    requires Enabled(s, MessagesStep)
  {
    match s.c.pc
    case TestFlag => MessagesGo(s, if s.lists.exitFlag then Ended else Listen)
    case Listen =>
      var text := s.net.chatTexts[0];
      s.(c := MessagesThread(Head, text, Over(s.c.buf, text)),
         net := s.net.(chatTexts := s.net.chatTexts[1..]))
    case Head => MessagesHead(s)
    case PollTest => MessagesGo(s, if |s.lists.members| <= 0 then Ended else TestFlag)
    case Broadcast(i) =>
      if i < |s.lists.members| then
        MessagesGo(s.(net := Post(s.net, s.lists.members[i].id, ItemOf(s.c.text, true))), Broadcast(i + 1))
      else MessagesGo(s, LineCall)
    case LineCall => MessagesLine(s)
    case PidCall(line) => MessagesPid(s, line)
    case Append(line, num) =>
      MessagesGo(s.(lists := s.lists.(messages := s.lists.messages + [Message(line, Atoi(num))])), TestFlag)
  }

  /** `strtok` on the copy of the frame. */
  function MessagesHead(s: State): State {
    var c := CallAt(s.c.buf, 0, ' ');
    if c.token.NoToken? then s.(fault := true)
    else s.(c := s.c.(pc := if c.token.text == "4" then PollTest else Broadcast(0), buf := c.buf),
            saved := Place(false, c.pos), taken := false)
  }

  function MessagesLine(s: State): State {
    var c := NextCall(s, '>');
    if c.token.NoToken? then s.(fault := true) else MessagesGo(AfterCall(s, c), PidCall(c.token.text))
  }

  function MessagesPid(s: State, line: string): State {
    var c := NextCall(s, ' ');
    if c.token.NoToken? then s.(fault := true) else MessagesGo(AfterCall(s, c), Append(line, c.token.text))
  }

  ghost predicate Next(s: State, s': State) {
    exists a :: Enabled(s, a) && s' == Do(s, a)
  }

  /** Every interleaving of the threads and clients. */
  ghost predicate Behavior(t: seq<State>) {
    t != [] && Init(t[0]) && forall i :: 0 <= i < |t| - 1 ==> Next(t[i], t[i + 1])
  }
}
