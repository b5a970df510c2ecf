/**
 A run in which the membership thread's second and third call fall between the message thread's first and
 second: the newcomer is registered under two words of somebody's line, everybody is told its right name,
 and the line is listed without these words.
*/
module ChatMixedTokens {
  import opened ChatCodec
  import opened ChatServer
  import opened ChatClient
  import opened ChatMirror
  import opened ChatParsing
  import opened ChatTexts
  import I = ChatInterleaved
  import P = ChatSeparateParses
  import R = ChatRosters

  /** A word of a line: a token at spaces and at `>`. */
  ghost predicate Word(u: string) {
    u != "" && ' ' !in u && '>' !in u && NUL !in u
  }

  ghost predicate Nick(nick: string) {
    GoodNick(nick) && NUL !in nick
  }

  // ---------------------------------------------------------------- building a run

  function Last(t: seq<State>): State
    requires t != []
  {
    t[|t| - 1]
  }

  lemma Extend(t: seq<State>, a: Action) returns (t': seq<State>)
    requires Behavior(t) && t != [] && Enabled(Last(t), a)
    ensures Behavior(t') && t' != [] && Last(t') == Do(Last(t), a)
  {
    hide Do, Enabled, Init;
    var s' := Do(Last(t), a);
    assert Next(Last(t), s');
    t' := t + [s'];
  }

  /** A step of the membership thread, from `pc` on. */
  lemma MembersTurn(t: seq<State>) returns (t': seq<State>)
    requires Behavior(t) && t != [] && Enabled(Last(t), Action.MembersStep(""))
    ensures Behavior(t') && t' != [] && Last(t') == DoMembers(Last(t), "")
  {
    hide Behavior, Enabled, DoMembers, DoMessages, DoClient;
    t' := Extend(t, Action.MembersStep(""));
  }

  lemma MessagesTurn(t: seq<State>) returns (t': seq<State>)
    requires Behavior(t) && t != [] && Enabled(Last(t), Action.MessagesStep)
    ensures Behavior(t') && t' != [] && Last(t') == DoMessages(Last(t))
  {
    hide Behavior, Enabled, DoMembers, DoMessages, DoClient;
    t' := Extend(t, Action.MessagesStep);
  }

  /** The lists, the queues and the two program counters. */
  ghost predicate At(s: State, lists: Lists, net: Net, mpc: MembersPc, cpc: MessagesPc) {
    s.lists == lists && s.net == net && s.m.pc == mpc && s.c.pc == cpc && !s.fault
  }

  // ---------------------------------------------------------------- single turns of the membership thread

  /** `msgrcv`, the lock, and the copy. */
  lemma FrameReceived(t: seq<State>, text: string, rest: seq<string>) returns (t': seq<State>)
    requires Behavior(t) && t != [] && Last(t).m.pc == Wait && !Last(t).fault && GoodMemberText(text)
    requires Last(t).net.memberTexts == [text] + rest
    ensures Behavior(t') && t' != []
    ensures At(Last(t'), Last(t).lists, Last(t).net.(memberTexts := rest), First, Last(t).c.pc)
    ensures Last(t').m.copy == text && MembersInHand(Last(t')) && Last(t').c == Last(t).c
    ensures Last(t').saved == Last(t).saved
  {
    hide Behavior, TextAt, GoodMemberText, MembersFirst, MembersSecond, MembersThird, MembersApply, MembersLoops, Over;
    GoodHasNoNul(text);
    TextOver(text, "");
    var s := Last(t);
    assert ([text] + rest)[0] == text && ([text] + rest)[1..] == rest;
    t' := MembersTurn(t);
    assert Last(t').m.buf == text + [NUL] + "";
    t' := MembersTurn(t');
  }

  /** One undisturbed call for a frame. */
  lemma TokenTaken(t: seq<State>) returns (t': seq<State>)
    requires Behavior(t) && t != [] && (Last(t).m.pc == First || MembersInside(Last(t))) && !Last(t).fault
    requires TextsOk(Last(t).net) && MembersInHand(Last(t))
    ensures Behavior(t') && t' != []
    ensures var s, s' := Last(t), Last(t');
            && s'.lists == s.lists && s'.net == s.net && s'.c == s.c && s'.m.copy == s.m.copy && !s'.fault
            && MembersInHand(s')
            && (s.m.pc == First ==> s'.m.pc.Second?) && (s.m.pc.Second? ==> s'.m.pc.Third?)
            && (s.m.pc.Third? ==> s'.m.pc.Apply?)
  {
    hide Behavior, TextsOk, MembersInHand, CallAt, TextAt, DoMembers;
    var s := Last(t);
    t' := MembersTurn(t);
    MembersStepInHand(s, "");
    P.ParsedFields(s, "");
    CallPcs(s);
  }

  lemma CallPcs(s: State)
    requires Enabled(s, Action.MembersStep("")) && !DoMembers(s, "").fault
    ensures var s' := DoMembers(s, "");
            && (s.m.pc == First ==> s'.m.pc.Second?) && (s.m.pc.Second? ==> s'.m.pc.Third?)
            && (s.m.pc.Third? ==> s'.m.pc.Apply?)
  {
    hide CallAt, TextAt, MembersApply, MembersLoops, Over;
  }

  /** The decision on a join. */
  lemma JoinApplied(t: seq<State>, nick: string, num: string) returns (t': seq<State>)
    requires Behavior(t) && t != [] && Last(t).m.pc == Apply(false, nick, num) && !Last(t).fault
    ensures Behavior(t') && t' != []
    ensures At(Last(t'), Last(t).lists, Last(t).net, ShareMembers(nick, Atoi(num), 0), Last(t).c.pc)
    ensures SameBuffers(Last(t), Last(t'))
  {
    hide Behavior, Atoi, Find, TextAt, Over, DoMembers;
    t' := MembersTurn(t);
    P.ApplyIs(Last(t), "");
  }

  /** Buffers, copies and the saved place are as they were. */
  ghost predicate SameBuffers(s: State, s': State) {
    s'.m.buf == s.m.buf && s'.m.copy == s.m.copy && s'.c == s.c && s'.saved == s.saved
  }

  lemma LoopTurn(t: seq<State>) returns (t': seq<State>)
    requires Behavior(t) && t != [] && !Last(t).fault
    requires Last(t).m.pc.ShareMembers? || Last(t).m.pc.ShareHistory? || Last(t).m.pc.Register?
             || Last(t).m.pc.Announce? || Last(t).m.pc == TestOnline
    ensures Behavior(t') && t' != [] && Last(t') == MembersLoops(Last(t)) && SameBuffers(Last(t), Last(t'))
  {
    hide Behavior, DoMembers, ItemOf, Post, TextAt, Sent, MemberText, ChatText;
    t' := MembersTurn(t);
    P.LoopsAre(Last(t), "");
  }

  lemma CopyRestored(t: seq<State>) returns (t': seq<State>)
    requires Behavior(t) && t != [] && !Last(t).fault && Last(t).m.pc == Restore && GoodMemberText(Last(t).m.copy)
    ensures Behavior(t') && t' != []
    ensures At(Last(t'), Last(t).lists, Last(t).net, Announce(0), Last(t).c.pc)
    ensures TextAt(Last(t').m.buf, 0) == Last(t').m.copy == Last(t).m.copy
    ensures Last(t').c == Last(t).c && Last(t').saved == Last(t).saved
  {
    hide Behavior, TextAt, Over, GoodMemberText, MembersFirst, MembersSecond, MembersThird, MembersApply, MembersLoops;
    RestoredBuf(Last(t));
    t' := MembersTurn(t);
  }

  // ---------------------------------------------------------------- joining

  /** From the reception of a join to its decision, undisturbed. */
  lemma JoinParsed(t: seq<State>, nick: string, id: int) returns (t': seq<State>)
    requires Behavior(t) && t != [] && Nick(nick) && Last(t).m.pc == Wait && !Last(t).fault
    requires TextsOk(Last(t).net) && Last(t).net.memberTexts == [SendMessageText(nick, 1, 1, id)]
    ensures Behavior(t') && t' != []
    ensures At(Last(t'), Last(t).lists, Last(t).net.(memberTexts := []), ShareMembers(nick, id, 0), Last(t).c.pc)
    ensures Last(t').m.copy == SendMessageText(nick, 1, 1, id)
  {
    hide Behavior, MembersInHand, GoodMemberText, GoodChatText, SendMessageText, ParseMember, GoodNick;
    var text := SendMessageText(nick, 1, 1, id);
    ClientMemberText(1, nick, id);
    var r := FrameReceived(t, text, []);
    r := TokenTaken(r);
    r := TokenTaken(r);
    r := TokenTaken(r);
    P.AppliedFrame(Last(r));
    t' := JoinApplied(r, nick, Last(r).m.pc.num);
  }

  /** Sharing with the first newcomer, registering it, and announcing it to itself. */
  lemma FirstRegistered(t: seq<State>, nick: string, id: int) returns (t': seq<State>)
    requires Behavior(t) && t != [] && Nick(nick) && Last(t).m.pc == ShareMembers(nick, id, 0) && !Last(t).fault
    requires Last(t).lists == Lists([], [], 0, false, map[]) && Last(t).m.copy == SendMessageText(nick, 1, 1, id)
    ensures Behavior(t') && t' != []
    ensures Last(t').lists.members == [Member(nick, id, true)] && Last(t').lists.messages == []
    ensures Last(t').lists.online == 1 && !Last(t').lists.exitFlag
    ensures Last(t').net == Post(Last(t).net, id, I.Note(Join(nick, id)))
    ensures Last(t').m.pc == Wait && Last(t').c.pc == Last(t).c.pc && !Last(t').fault
  {
    hide Behavior, SendMessageText, ParseMember, GoodMemberText, GoodNick, TextAt, Post, ItemOf;
    ClientMemberText(1, nick, id);
    P.MemberItem(SendMessageText(nick, 1, 1, id));
    var r := NothingShared(t, nick, id);
    r := CopyRestored(r);
    t' := AnnouncedToOne(r, Member(nick, id, true), I.Note(Join(nick, id)));
  }

  lemma NothingShared(t: seq<State>, nick: string, id: int) returns (t': seq<State>)
    requires Behavior(t) && t != [] && Last(t).m.pc == ShareMembers(nick, id, 0) && !Last(t).fault
    requires Last(t).lists == Lists([], [], 0, false, map[])
    ensures Behavior(t') && t' != [] && SameBuffers(Last(t), Last(t'))
    ensures Last(t').lists.members == [Member(nick, id, true)] && Last(t').lists.messages == []
    ensures Last(t').lists.online == 1 && !Last(t').lists.exitFlag
    ensures Last(t').net == Last(t).net && Last(t').m.pc == Restore && Last(t').c.pc == Last(t).c.pc && !Last(t').fault
  {
    hide Behavior, TextAt, Post, ItemOf, Sent, MemberText, ChatText;
    var r := LoopTurn(t);
    r := LoopTurn(r);
    t' := LoopTurn(r);
  }

  lemma AnnouncedToOne(t: seq<State>, m0: Member, f: I.Item) returns (t': seq<State>)
    requires Behavior(t) && t != [] && Last(t).m.pc == Announce(0) && !Last(t).fault
    requires Last(t).lists.members == [m0] && Last(t).lists.online > 0
    requires ItemOf(TextAt(Last(t).m.buf, 0), false) == f
    ensures Behavior(t') && t' != [] && SameBuffers(Last(t), Last(t'))
    ensures At(Last(t'), Last(t).lists, Post(Last(t).net, m0.id, f), Wait, Last(t).c.pc)
  {
    hide Behavior, TextAt, Post, ItemOf, Sent, MemberText, ChatText;
    var r := LoopTurn(t);
    r := LoopTurn(r);
    t' := LoopTurn(r);
  }

  /** Sharing with the second newcomer, under whatever name, registering it, and announcing the frame. */
  lemma SecondRegistered(t: seq<State>, m0: Member, u: string, v: int, nick: string, id: int) returns (t': seq<State>)
    requires Behavior(t) && t != [] && Nick(nick) && Last(t).m.pc == ShareMembers(u, v, 0) && !Last(t).fault
    requires Last(t).lists.members == [m0] && m0.online && GoodNick(m0.nick) && Last(t).lists.messages == []
    requires Last(t).lists.online == 1 && !Last(t).lists.exitFlag && Last(t).m.copy == SendMessageText(nick, 1, 1, id)
    ensures Behavior(t') && t' != []
    ensures Last(t').lists.members == [m0, Member(u, v, true)] && Last(t').lists.messages == []
    ensures !Last(t').lists.exitFlag
    ensures var f := I.Note(Join(nick, id));
            Last(t').net == Post(Post(Post(Last(t).net, v, I.Note(Join(m0.nick, m0.id))), m0.id, f), v, f)
    ensures Last(t').m.pc == Wait && Last(t').c == Last(t).c && Last(t').saved == Last(t).saved && !Last(t').fault
  {
    hide Behavior, SendMessageText, ParseMember, GoodMemberText, GoodNick, TextAt, Post, ItemOf;
    ClientMemberText(1, nick, id);
    P.MemberItem(SendMessageText(nick, 1, 1, id));
    var r := OneShared(t, m0, u, v);
    r := CopyRestored(r);
    t' := AnnouncedToTwo(r, m0, Member(u, v, true), I.Note(Join(nick, id)));
  }

  lemma OneShared(t: seq<State>, m0: Member, u: string, v: int) returns (t': seq<State>)
    requires Behavior(t) && t != [] && Last(t).m.pc == ShareMembers(u, v, 0) && !Last(t).fault
    requires Last(t).lists.members == [m0] && m0.online && GoodNick(m0.nick) && Last(t).lists.messages == []
    requires Last(t).lists.online == 1 && !Last(t).lists.exitFlag
    ensures Behavior(t') && t' != [] && SameBuffers(Last(t), Last(t'))
    ensures Last(t').lists.members == [m0, Member(u, v, true)] && Last(t').lists.messages == []
    ensures Last(t').lists.online == 2 && !Last(t').lists.exitFlag
    ensures Last(t').net == Post(Last(t).net, v, I.Note(Join(m0.nick, m0.id)))
    ensures Last(t').m.pc == Restore && Last(t').c.pc == Last(t).c.pc && !Last(t').fault
  {
    hide Behavior, GoodNick, TextAt, Post, ItemOf, Sent, MemberText, ChatText;
    P.JoinItem(m0.nick, m0.id, false);
    var r := LoopTurn(t);
    r := LoopTurn(r);
    r := LoopTurn(r);
    t' := LoopTurn(r);
  }

  lemma AnnouncedToTwo(t: seq<State>, m0: Member, m1: Member, f: I.Item) returns (t': seq<State>)
    requires Behavior(t) && t != [] && Last(t).m.pc == Announce(0) && !Last(t).fault
    requires Last(t).lists.members == [m0, m1] && Last(t).lists.online > 0
    requires ItemOf(TextAt(Last(t).m.buf, 0), false) == f
    ensures Behavior(t') && t' != [] && SameBuffers(Last(t), Last(t'))
    ensures At(Last(t'), Last(t).lists, Post(Post(Last(t).net, m0.id, f), m1.id, f), Wait, Last(t).c.pc)
  {
    hide Behavior, TextAt, Post, ItemOf, Sent;
    var r := LoopTurn(t);
    r := LoopTurn(r);
    r := LoopTurn(r);
    t' := LoopTurn(r);
  }

  // ---------------------------------------------------------------- single turns of the message thread

  lemma LineReceived(t: seq<State>, text: string) returns (t': seq<State>)
    requires Behavior(t) && t != [] && Last(t).c.pc == TestFlag && !Last(t).fault && GoodChatText(text)
    requires !Last(t).lists.exitFlag && Last(t).net.chatTexts == [text]
    ensures Behavior(t') && t' != []
    ensures At(Last(t'), Last(t).lists, Last(t).net.(chatTexts := []), Last(t).m.pc, Head)
    ensures Last(t').c.text == text && MessagesInHand(Last(t')) && Last(t').m == Last(t).m
    ensures Last(t').saved == Last(t).saved
  {
    hide Behavior, TextAt, GoodChatText, MessagesHead, MessagesLine, MessagesPid, Post, ItemOf;
    GoodHasNoNul(text);
    assert [text][1..] == [];
    t' := MessagesTurn(t);
    var buf := Last(t').c.buf;
    TextOver(text, if |text| + 1 <= |buf| then buf[|text| + 1..] else "");
    t' := MessagesTurn(t');
    TextOver(text, if |text| + 1 <= |buf| then buf[|text| + 1..] else "");
  }

  /** The first token of a line; the rest is where the next call of either thread goes on. */
  lemma HeadTaken(t: seq<State>, rest: string) returns (t': seq<State>)
    requires Behavior(t) && t != [] && Last(t).c.pc == Head && !Last(t).fault && MessagesInHand(Last(t))
    requires TextsOk(Last(t).net) && Tok1(Last(t).c.text) == Token("3", rest)
    ensures Behavior(t') && t' != []
    ensures At(Last(t'), Last(t).lists, Last(t).net, Last(t).m.pc, Broadcast(0))
    ensures Last(t').c.text == Last(t).c.text && Last(t').m == Last(t).m && ChatPending(Last(t'), rest)
  {
    hide Behavior, TextsOk, Tok1, CallAt, TextAt, GoodChatText, ChatPending, Over, MessagesLine, MessagesPid, Post;
    var s := Last(t);
    t' := MessagesTurn(t);
    MessagesStepInHand(s);
    P.HeadKind(s);
  }

  /** A call that goes on in the line takes its next word. */
  lemma WordFromLine(s: State, d: char, tok: string, rest: string)
    requires ChatPending(s, tok + [d] + rest) && tok != "" && d !in tok && d != NUL
    ensures NextCall(s, d).token == Token(tok, rest)
    ensures ChatPending(AfterCall(s, NextCall(s, d)), rest)
  {
    hide Strtok, TextAt, CallAt;
    CallIs(s.c.buf, s.saved.pos, d);
    StrtokStop(tok, d, rest);
  }

  /** The membership thread's second call takes a word of the line for the nickname. */
  lemma NickFromLine(t: seq<State>, tok: string, rest: string) returns (t': seq<State>)
    requires Behavior(t) && t != [] && Last(t).m.pc == Second(false) && !Last(t).fault
    requires ChatPending(Last(t), tok + [' '] + rest) && tok != "" && ' ' !in tok
    ensures Behavior(t') && t' != []
    ensures At(Last(t'), Last(t).lists, Last(t).net, Third(false, tok), Last(t).c.pc)
    ensures Last(t').m.copy == Last(t).m.copy && Last(t').c.text == Last(t).c.text && ChatPending(Last(t'), rest)
  {
    hide Behavior, CallAt, TextAt, MembersFirst, MembersThird, MembersApply, MembersLoops, Over;
    WordFromLine(Last(t), ' ', tok, rest);
    t' := MembersTurn(t);
  }

  lemma PidFromLine(t: seq<State>, nick: string, tok: string, rest: string) returns (t': seq<State>)
    requires Behavior(t) && t != [] && Last(t).m.pc == Third(false, nick) && !Last(t).fault
    requires ChatPending(Last(t), tok + [' '] + rest) && tok != "" && ' ' !in tok
    ensures Behavior(t') && t' != []
    ensures At(Last(t'), Last(t).lists, Last(t).net, Apply(false, nick, tok), Last(t).c.pc)
    ensures Last(t').m.copy == Last(t).m.copy && Last(t').c.text == Last(t).c.text && ChatPending(Last(t'), rest)
  {
    hide Behavior, CallAt, TextAt, MembersFirst, MembersSecond, MembersApply, MembersLoops, Over;
    WordFromLine(Last(t), ' ', tok, rest);
    t' := MembersTurn(t);
  }

  lemma SentToTwo(t: seq<State>, m0: Member, m1: Member, item: I.Item) returns (t': seq<State>)
    requires Behavior(t) && t != [] && Last(t).c.pc == Broadcast(0) && !Last(t).fault
    requires Last(t).lists.members == [m0, m1] && ItemOf(Last(t).c.text, true) == item
    ensures Behavior(t') && t' != []
    ensures At(Last(t'), Last(t).lists, Post(Post(Last(t).net, m0.id, item), m1.id, item), Last(t).m.pc, LineCall)
    ensures Last(t').m == Last(t).m && Last(t').saved == Last(t).saved && Last(t').c.buf == Last(t).c.buf
  {
    hide Behavior, Post, ItemOf, MessagesHead, MessagesLine, MessagesPid, Over;
    var r := MessagesTurn(t);
    r := MessagesTurn(r);
    t' := MessagesTurn(r);
  }

  /** The last word of the line and the pid are appended. */
  lemma RestAppended(t: seq<State>, w: string, num: string) returns (t': seq<State>)
    requires Behavior(t) && t != [] && Last(t).c.pc == LineCall && !Last(t).fault
    requires ChatPending(Last(t), w + ['>'] + num) && w != "" && '>' !in w && num != "" && ' ' !in num
    ensures Behavior(t') && t' != []
    ensures Last(t').lists == Last(t).lists.(messages := Last(t).lists.messages + [Message(w, Atoi(num))])
    ensures Last(t').net == Last(t).net && Last(t').m == Last(t).m && Last(t').c.pc == TestFlag && !Last(t').fault
  {
    hide Behavior, CallAt, TextAt, Over, Post, ItemOf, Atoi, Strtok, MessagesHead;
    WordFromLine(Last(t), '>', w, num);
    var r := MessagesTurn(t);
    CallIs(Last(r).c.buf, Last(r).saved.pos, ' ');
    StrtokStop(num, ' ', "");
    r := MessagesTurn(r);
    t' := MessagesTurn(r);
  }

  // ---------------------------------------------------------------- the run

  /** One member, alone in the chat, with its own announcement pending. */
  ghost predicate Alone(s: State, nick0: string, id0: int) {
    && s.lists.members == [Member(nick0, id0, true)] && s.lists.messages == [] && s.lists.online == 1
    && !s.lists.exitFlag && s.m.pc == Wait && s.c.pc == TestFlag && !s.fault
    && s.net == Net([], [], map[id0 := [I.Note(Join(nick0, id0))]], map[id0 := I.Peer(Reading, [], [])],
                    map[id0 := nick0])
  }

  lemma FirstJoins(nick0: string, id0: int) returns (t: seq<State>)
    requires Nick(nick0) && id0 > 2
    ensures Behavior(t) && t != [] && Alone(Last(t), nick0, id0)
  {
    hide Behavior, SendMessageText, GoodNick, TextsOk, Post;
    t := FirstStarts(nick0, id0);
    OneTextOk(Last(t).net, 1, nick0, id0);
    t := JoinParsed(t, nick0, id0);
    var net := Last(t).net;
    t := FirstRegistered(t, nick0, id0);
    FirstBox(net, id0, I.Note(Join(nick0, id0)));
  }

  lemma FirstBox(net: Net, p: int, item: I.Item)
    requires net.inbox == map[]
    ensures Post(net, p, item) == net.(inbox := map[p := [item]])
  {
    assert [] + [item] == [item];
  }

  lemma OneTextOk(net: Net, marker: nat, nick: string, id: int)
    requires marker < 2 && Nick(nick)
    requires net.memberTexts == [SendMessageText(nick, 1, marker, id)] && net.chatTexts == []
    requires forall p :: p in net.nicks ==> Nick(net.nicks[p])
    ensures TextsOk(net)
  {
    hide GoodMemberText, GoodChatText, SendMessageText, GoodNick;
    ClientMemberText(marker, nick, id);
  }

  lemma FirstStarts(nick0: string, id0: int) returns (t: seq<State>)
    requires Nick(nick0) && id0 > 2
    ensures Behavior(t) && t != []
    ensures At(Last(t), Lists([], [], 0, false, map[]),
               Net([SendMessageText(nick0, 1, 1, id0)], [], map[], map[id0 := I.Peer(Reading, [], [])],
                   map[id0 := nick0]), Wait, TestFlag)
  {
    hide SendMessageText, GoodNick;
    var s := State(Lists([], [], 0, false, map[]), Net([], [], map[], map[], map[]), MembersThread(Wait, "", ""),
                   MessagesThread(TestFlag, "", ""), Place(true, 0), false, false);
    t := [s];
    t := Extend(t, Action.Start(id0, nick0));
    assert [] + [SendMessageText(nick0, 1, 1, id0)] == [SendMessageText(nick0, 1, 1, id0)];
  }

  function LineOfWords(u: string, v: string, w: string): string {
    u + " " + v + " " + w
  }

  /** Another client has joined and the member has written a line; neither has been taken yet. */
  ghost predicate BothPending(s: State, nick0: string, id0: int, nick: string, id: int, line: string) {
    && s.lists.members == [Member(nick0, id0, true)] && s.lists.messages == [] && s.lists.online == 1
    && !s.lists.exitFlag && s.m.pc == Wait && s.c.pc == TestFlag && !s.fault
    && s.net == Net([SendMessageText(nick, 1, 1, id)], [SendMessageText(line, 2, 3, id0)],
                    map[id0 := [I.Note(Join(nick0, id0))]],
                    map[id0 := I.Peer(Reading, [], []), id := I.Peer(Reading, [], [])],
                    map[id0 := nick0, id := nick])
  }

  lemma BothSend(nick0: string, id0: int, nick: string, id: int, line: string) returns (t: seq<State>)
    requires Nick(nick0) && Nick(nick) && id0 > 2 && id > 2 && id != id0
    requires GoodLine(line) && line != EXIT_LINE && NUL !in line
    ensures Behavior(t) && t != [] && BothPending(Last(t), nick0, id0, nick, id, line)
  {
    hide SendMessageText, GoodNick, GoodLine;
    t := FirstJoins(nick0, id0);
    hide Behavior;
    t := Extend(t, Action.Start(id, nick));
    t := Extend(t, Action.Say(id0, line));
    assert [] + [SendMessageText(nick, 1, 1, id)] == [SendMessageText(nick, 1, 1, id)];
    assert [] + [SendMessageText(line, 2, 3, id0)] == [SendMessageText(line, 2, 3, id0)];
  }

  lemma WordsAreALine(u: string, v: string, w: string)
    requires Word(u) && Word(v) && Word(w)
    ensures var line := LineOfWords(u, v, w);
            GoodLine(line) && line != EXIT_LINE && NUL !in line && |line| > |w|
  {
    var line := LineOfWords(u, v, w);
    assert line[|u|] == ' ' && forall k :: 0 <= k < |EXIT_LINE| ==> EXIT_LINE[k] != ' ';
  }

  /** What the mixed-up server believes, and what everybody has been told. */
  ghost predicate Mixed(s: State, nick0: string, id0: int, nick: string, id: int, u: string, v: int, line: string,
                        w: string) {
    && s.lists.members == [Member(nick0, id0, true), Member(u, v, true)]
    && s.lists.messages == [Message(w, id0)]
    && s.m.pc == Wait && s.c.pc == TestFlag && !s.fault && s.net.memberTexts == [] && s.net.chatTexts == []
    && s.net.peers == map[id0 := I.Peer(Reading, [], []), id := I.Peer(Reading, [], [])]
    && s.net.nicks == map[id0 := nick0, id := nick]
    && InboxOf(s.net, id0) ==
       [I.Note(Join(nick0, id0)), I.Note(Join(nick, id)), I.Line(Message(line, id0), true)]
  }

  /** First call for the frame, first call for the line, second and third call for the frame. */
  lemma MixCalls(t: seq<State>, nick: string, id: int, u: string, v: string, rest: string) returns (t': seq<State>)
    requires Behavior(t) && t != [] && Last(t).m.pc == First && Last(t).c.pc == Head && !Last(t).fault && Nick(nick)
    requires MembersInHand(Last(t)) && MessagesInHand(Last(t)) && TextsOk(Last(t).net)
    requires Last(t).m.copy == SendMessageText(nick, 1, 1, id) && u != "" && ' ' !in u && v != "" && ' ' !in v
    requires Tok1(Last(t).c.text) == Token("3", u + [' '] + (v + [' '] + rest))
    ensures Behavior(t') && t' != []
    ensures At(Last(t'), Last(t).lists, Last(t).net, ShareMembers(u, Atoi(v), 0), Broadcast(0))
    ensures Last(t').m.copy == Last(t).m.copy && Last(t').c.text == Last(t).c.text && ChatPending(Last(t'), rest)
  {
    hide Behavior, MessagesInHand, TextsOk, ChatPending, Atoi, Tok1, SendMessageText, GoodMemberText, GoodChatText;
    var r := TokenTaken(t);
    JoinNotLeave(Last(r), nick, id);
    assert MessagesInHand(Last(r)) by { HeadKeeps(Last(t), Last(r)); }
    hide MembersInHand;
    r := HeadTaken(r, u + [' '] + (v + [' '] + rest));
    r := NickFromLine(r, u, v + [' '] + rest);
    r := PidFromLine(r, u, v, rest);
    t' := JoinApplied(r, u, v);
    assert ChatPending(Last(t'), rest) by { PendingKept(Last(r), Last(t'), rest); }
  }

  lemma PendingKept(s: State, s': State, rest: string)
    requires ChatPending(s, rest) && SameBuffers(s, s')
    ensures ChatPending(s', rest)
  {
    hide TextAt;
  }

  lemma HeadKeeps(s: State, s': State)
    requires MessagesInHand(s) && s.c.pc == Head && s'.c == s.c
    ensures MessagesInHand(s')
  {
    hide TextAt, GoodChatText;
  }

  lemma JoinNotLeave(s: State, nick: string, id: int)
    requires s.m.pc.Second? && MembersInHand(s) && Nick(nick) && s.m.copy == SendMessageText(nick, 1, 1, id)
    ensures s.m.pc == Second(false)
  {
    ClientMemberText(1, nick, id);
    ParsedMember(s.m.copy);
    hide ParseMember, Tok1, Tok2, Tok3, GoodMemberText, SendMessageText, Atoi;
  }

  /** The calls of the two frames, interleaved. */
  lemma CallsInterleaved(nick0: string, id0: int, nick: string, id: int, u: string, v: string, w: string)
    returns (t: seq<State>)
    requires Nick(nick0) && Nick(nick) && id0 > 2 && id > 2 && id != id0 && Word(u) && Word(v) && Word(w)
    ensures Behavior(t) && t != []
    ensures var s := Last(t);
            && s.lists.members == [Member(nick0, id0, true)] && s.lists.messages == [] && s.lists.online == 1
            && !s.lists.exitFlag && s.m.pc == ShareMembers(u, Atoi(v), 0) && s.c.pc == Broadcast(0) && !s.fault
            && s.m.copy == SendMessageText(nick, 1, 1, id)
            && s.c.text == SendMessageText(LineOfWords(u, v, w), 2, 3, id0)
            && ChatPending(s, w + ['>'] + Decimal(id0))
            && s.net == Net([], [], map[id0 := [I.Note(Join(nick0, id0))]],
                            map[id0 := I.Peer(Reading, [], []), id := I.Peer(Reading, [], [])],
                            map[id0 := nick0, id := nick])
  {
    hide SendMessageText, Decimal, Behavior, MembersInHand, MessagesInHand, TextsOk, ChatPending, Atoi, LineOfWords,
      Tok1, GoodNick, BothTaken;
    t := BothReceived(nick0, id0, nick, id, u, v, w);
    var r := t;
    TakenParts(Last(r), nick0, id0, nick, id, u, v, w);
    t := MixCalls(r, nick, id, u, v, w + ['>'] + Decimal(id0));
    TakenFields(Last(r), nick0, id0, nick, id, u, v, w);
  }

  /** Both frames have been received, and no token has been taken. */
  ghost predicate BothTaken(s: State, nick0: string, id0: int, nick: string, id: int, u: string, v: string, w: string) {
    && s.lists.members == [Member(nick0, id0, true)] && s.lists.messages == [] && s.lists.online == 1
    && !s.lists.exitFlag && s.m.pc == First && s.c.pc == Head && !s.fault
    && s.m.copy == SendMessageText(nick, 1, 1, id) && s.c.text == SendMessageText(LineOfWords(u, v, w), 2, 3, id0)
    && MembersInHand(s) && MessagesInHand(s) && TextsOk(s.net)
    && s.net == Net([], [], map[id0 := [I.Note(Join(nick0, id0))]],
                    map[id0 := I.Peer(Reading, [], []), id := I.Peer(Reading, [], [])],
                    map[id0 := nick0, id := nick])
  }

  lemma TakenParts(s: State, nick0: string, id0: int, nick: string, id: int, u: string, v: string, w: string)
    requires BothTaken(s, nick0, id0, nick, id, u, v, w) && Word(u) && Word(v) && Word(w)
    ensures s.m.pc == First && s.c.pc == Head && !s.fault && MembersInHand(s) && MessagesInHand(s) && TextsOk(s.net)
    ensures s.m.copy == SendMessageText(nick, 1, 1, id)
    ensures Tok1(s.c.text) == Token("3", u + [' '] + (v + [' '] + (w + ['>'] + Decimal(id0))))
  {
    hide SendMessageText, Decimal, Strtok, LineOfWords, MembersInHand, MessagesInHand, TextsOk;
    ChatTokens(LineOfWords(u, v, w), id0);
    assert Marker(3) == "3";
    WordsInLine(u, v, w, Decimal(id0));
  }

  lemma TakenFields(s: State, nick0: string, id0: int, nick: string, id: int, u: string, v: string, w: string)
    requires BothTaken(s, nick0, id0, nick, id, u, v, w)
    ensures s.lists.members == [Member(nick0, id0, true)] && s.lists.messages == [] && s.lists.online == 1
    ensures !s.lists.exitFlag && s.c.text == SendMessageText(LineOfWords(u, v, w), 2, 3, id0)
    ensures s.net == Net([], [], map[id0 := [I.Note(Join(nick0, id0))]],
                         map[id0 := I.Peer(Reading, [], []), id := I.Peer(Reading, [], [])],
                         map[id0 := nick0, id := nick])
  {
    hide SendMessageText, LineOfWords, MembersInHand, MessagesInHand, TextsOk;
  }

  lemma BothReceived(nick0: string, id0: int, nick: string, id: int, u: string, v: string, w: string)
    returns (t: seq<State>)
    requires Nick(nick0) && Nick(nick) && id0 > 2 && id > 2 && id != id0 && Word(u) && Word(v) && Word(w)
    ensures Behavior(t) && t != [] && BothTaken(Last(t), nick0, id0, nick, id, u, v, w)
  {
    hide SendMessageText, Behavior, MessagesInHand, GoodMemberText, GoodChatText, ParseMember, ParseChat, LineOfWords,
      GoodLine, TextAt;
    var line := LineOfWords(u, v, w);
    WordsAreALine(u, v, w);
    ClientMemberText(1, nick, id);
    ClientChatText(line, id0);
    hide Word, GoodNick;
    t := BothSend(nick0, id0, nick, id, line);
    t := FrameReceived(t, SendMessageText(nick, 1, 1, id), []);
    var r := t;
    t := LineReceived(r, SendMessageText(line, 2, 3, id0));
    FirstKeeps(Last(r), Last(t));
  }

  lemma FirstKeeps(s: State, s': State)
    requires MembersInHand(s) && s.m.pc == First && s'.m == s.m
    ensures MembersInHand(s')
  {
    hide TextAt, GoodMemberText;
  }

  lemma WordsInLine(u: string, v: string, w: string, num: string)
    ensures LineOfWords(u, v, w) + ">" + num == u + [' '] + (v + [' '] + (w + ['>'] + num))
  {
  }

  /**
   The run: the newcomer `nick` is registered as `u` with the number `v`, everybody is told of `nick`; the
   line "u v w" is sent to everybody and listed as "w".
  */
  lemma TokensCanMix(nick0: string, id0: int, nick: string, id: int, u: string, v: string, w: string)
    returns (t: seq<State>)
    requires Nick(nick0) && Nick(nick) && id0 > 2 && id > 2 && id != id0 && Word(u) && Word(v) && Word(w)
    requires Atoi(v) != id0
    ensures Behavior(t) && t != []
    ensures Mixed(Last(t), nick0, id0, nick, id, u, Atoi(v), LineOfWords(u, v, w), w)
  {
    var m0, m1, line := Member(nick0, id0, true), Member(u, Atoi(v), true), LineOfWords(u, v, w);
    WordsAreALine(u, v, w);
    LineItemOf(line, id0);
    AtoiDecimal(id0);
    hide Word, GoodLine, SendMessageText, Decimal, Behavior, GoodNick, ChatPending, Atoi, LineOfWords, Post, ItemOf;
    t := CallsInterleaved(nick0, id0, nick, id, u, v, w);
    var r := t;
    t := SecondRegistered(t, m0, u, Atoi(v), nick, id);
    var rest := w + ['>'] + Decimal(id0);
    assert ChatPending(Last(t), rest) by { PendingStays(Last(r), Last(t), rest); }
    var q := t;
    t := SentToTwo(t, m0, m1, I.Line(Message(line, id0), true));
    assert ChatPending(Last(t), rest) by { PendingThrough(Last(q), Last(t), rest); }
    t := RestAppended(t, w, Decimal(id0));
    PostedBoxes(Last(r).net, id0, Atoi(v), I.Note(Join(nick0, id0)), I.Note(Join(nick, id)),
                I.Line(Message(line, id0), true));
  }

  lemma LineItemOf(line: string, id: int)
    requires GoodLine(line) && line != EXIT_LINE && NUL !in line
    ensures ItemOf(SendMessageText(line, 2, 3, id), true) == I.Line(Message(line, id), true)
  {
    ChatRoundTrip(line, id);
    hide ParseClient, SendMessageText;
  }

  lemma PendingStays(s: State, s': State, rest: string)
    requires ChatPending(s, rest) && s'.c == s.c && s'.saved == s.saved
    ensures ChatPending(s', rest)
  {
    hide TextAt;
  }

  lemma PendingThrough(s: State, s': State, rest: string)
    requires ChatPending(s, rest) && s'.c.buf == s.c.buf && s'.saved == s.saved
    ensures ChatPending(s', rest)
  {
    hide TextAt;
  }

  lemma PostedBoxes(net: Net, id0: int, v: int, j0: I.Item, f: I.Item, line: I.Item)
    requires v != id0 && InboxOf(net, id0) == [j0]
    ensures var net' := Post(Post(Post(Post(Post(net, v, j0), id0, f), v, f), id0, line), v, line);
            && InboxOf(net', id0) == [j0, f, line] && net'.peers == net.peers && net'.nicks == net.nicks
            && net'.memberTexts == net.memberTexts && net'.chatTexts == net.chatTexts
  {
    var n1 := Post(Post(net, v, j0), id0, f);
    assert InboxOf(n1, id0) == [j0] + [f] == [j0, f];
    var n2 := Post(Post(n1, v, f), id0, line);
    assert InboxOf(n2, id0) == [j0, f] + [line] == [j0, f, line];
  }

  // ---------------------------------------------------------------- what is wrong then

  /** The member has been told of somebody the server does not list. */
  lemma RosterIsWrong(s: State, nick0: string, id0: int, nick: string, id: int, u: string, v: int, line: string,
      w: string)
    requires Mixed(s, nick0, id0, nick, id, u, v, line, w) && id != id0 && (v != id || u != nick)
    ensures id0 in P.View(s).peers && s.m.pc == Wait
    ensures var r := R.HearAll(R.Notes(P.View(s), id0));
            Online(r.members) == [Member(nick0, id0, true), Member(nick, id, true)] != Online(s.lists.members)
  {
    hide ParseMember, ParseChat, TextAt, P.DecodedMembers, P.DecodedChats;
    var j0, j1 := Join(nick0, id0), Join(nick, id);
    assert I.Inbox(P.View(s), id0) == InboxOf(s.net, id0);
    ItemsSplit(j0, j1, I.Line(Message(line, id0), true));
    assert R.Notes(P.View(s), id0) == [] + [j0, j1] == [j0, j1];
    TwoJoins(j0, j1);
    TwoOnline(Member(nick0, id0, true), Member(nick, id, true));
    TwoOnline(Member(nick0, id0, true), Member(u, v, true));
  }

  lemma ItemsSplit(j0: Frame, j1: Frame, line: I.Item)
    requires line.Line?
    ensures I.OnlyNotes([I.Note(j0), I.Note(j1), line]) == [j0, j1]
    ensures I.OnlyLines([I.Note(j0), I.Note(j1), line]) == [line]
  {
    var a, b := [I.Note(j0)], [I.Note(j0), I.Note(j1)];
    assert a[..0] == [] && b[..1] == a && (b + [line])[..2] == b && b + [line] == [I.Note(j0), I.Note(j1), line];
    assert I.OnlyNotes(a) == [j0] && I.OnlyLines(a) == [];
    assert I.OnlyNotes(b) == [j0, j1] && I.OnlyLines(b) == [];
  }

  lemma TwoJoins(j0: Frame, j1: Frame)
    requires j0.Join? && j1.Join?
    ensures R.HearAll([j0, j1]) == R.Roster([Member(j0.nick, j0.id, true), Member(j1.nick, j1.id, true)], false)
  {
    assert [j0, j1][..1] == [j0] && [j0][..0] == [];
    assert R.HearAll([j0]) == R.Roster([Member(j0.nick, j0.id, true)], false);
  }

  lemma TwoOnline(a: Member, b: Member)
    requires a.online && b.online
    ensures Online([a, b]) == [a, b]
  {
    assert [a, b][..1] == [a] && [a][..0] == [];
    assert Online([a]) == [a];
  }

  /** The member has seen a line that the server does not list. */
  lemma ViewIsWrong(s: State, nick0: string, id0: int, nick: string, id: int, u: string, v: int, line: string,
      w: string)
    requires Mixed(s, nick0, id0, nick, id, u, v, line, w) && line != w
    ensures id0 in P.View(s).peers
    ensures I.Seen(P.View(s), id0) == [I.Line(Message(line, id0), true)] && I.Log(P.View(s)) == [Message(w, id0)]
    ensures !exists at :: I.Embeds(I.Seen(P.View(s), id0), I.Log(P.View(s)), at)
  {
    hide ParseMember, ParseChat, TextAt, P.DecodedMembers, P.DecodedChats;
    assert I.Inbox(P.View(s), id0) == InboxOf(s.net, id0);
    ItemsSplit(Join(nick0, id0), Join(nick, id), I.Line(Message(line, id0), true));
    hide I.OnlyLines;
    assert I.Seen(P.View(s), id0) == [] + [I.Line(Message(line, id0), true)] == [I.Line(Message(line, id0), true)];
    assert I.Log(P.View(s)) == [Message(w, id0)] + [] == [Message(w, id0)];
    NotEmbedded(Message(line, id0), Message(w, id0));
  }

  lemma NotEmbedded(seen: Message, listed: Message)
    requires seen != listed
    ensures !exists at :: I.Embeds([I.Line(seen, true)], [listed], at)
  {
    var items := [I.Line(seen, true)];
    assert items[0].message == seen;
    forall at ensures !I.Embeds(items, [listed], at) {
    }
  }

  /** When parses overlap neither the roster nor the view need be right. */
  lemma OverlapBreaksBoth(nick0: string, id0: int, nick: string, id: int, u: string, v: string, w: string)
    returns (t: seq<State>)
    requires Nick(nick0) && Nick(nick) && id0 > 2 && id > 2 && id != id0 && Word(u) && Word(v) && Word(w)
    requires Atoi(v) != id0 && (Atoi(v) != id || u != nick)
    ensures Behavior(t) && t != []
    ensures var s := Last(t);
            && s.lists.members == [Member(nick0, id0, true), Member(u, Atoi(v), true)]
            && id0 in P.View(s).peers
            && Online(R.HearAll(R.Notes(P.View(s), id0)).members) != Online(s.lists.members)
            && !exists at :: I.Embeds(I.Seen(P.View(s), id0), I.Log(P.View(s)), at)
  {
    WordsAreALine(u, v, w);
    hide Word, Behavior, GoodNick, Atoi, LineOfWords, P.View, R.HearAll, R.Notes, I.Seen, I.Log, Online;
    t := TokensCanMix(nick0, id0, nick, id, u, v, w);
    RosterIsWrong(Last(t), nick0, id0, nick, id, u, Atoi(v), LineOfWords(u, v, w), w);
    ViewIsWrong(Last(t), nick0, id0, nick, id, u, Atoi(v), LineOfWords(u, v, w), w);
  }

  /** The leave frame of the client registered under another number finds no member. */
  lemma LeaveCanMiss(nick0: string, id0: int, nick: string, id: int, u: string, v: string, w: string)
    returns (t: seq<State>)
    requires Nick(nick0) && Nick(nick) && id0 > 2 && id > 2 && id != id0 && Word(u) && Word(v) && Word(w)
    requires Atoi(v) != id0 && Atoi(v) != id
    ensures Behavior(t) && t != [] && Last(t).fault
    ensures Last(t).m.pc.Apply? && Last(t).m.pc.leave && Atoi(Last(t).m.pc.num) == id
    ensures Find(Last(t).lists.members, id) < 0
  {
    hide Word, Behavior, SendMessageText, LineOfWords, Atoi, Find, Nick, TextsOk;
    t := TokensCanMix(nick0, id0, nick, id, u, v, w);
    NobodyThere(Last(t).lists.members, id);
    t := Leaves(t, nick, id);
    OneTextOk(Last(t).net, 0, nick, id);
    t := LeaveParsed(t, nick, id);
    t := LeaverMissed(t, id);
  }

  /** From the reception of a leave frame to its last token, undisturbed. */
  lemma LeaveParsed(t: seq<State>, nick: string, id: int) returns (t': seq<State>)
    requires Behavior(t) && t != [] && Nick(nick) && Last(t).m.pc == Wait && !Last(t).fault
    requires TextsOk(Last(t).net) && Last(t).net.memberTexts == [SendMessageText(nick, 1, 0, id)]
    ensures Behavior(t') && t' != [] && Last(t').lists == Last(t).lists && !Last(t').fault
    ensures Last(t').m.pc.Apply? && Last(t').m.pc.leave && Atoi(Last(t').m.pc.num) == id
  {
    hide Behavior, MembersInHand, GoodMemberText, GoodChatText, SendMessageText, ParseMember, GoodNick, Atoi;
    ClientMemberText(0, nick, id);
    var r := FrameReceived(t, SendMessageText(nick, 1, 0, id), []);
    r := TokenTaken(r);
    r := TokenTaken(r);
    t' := TokenTaken(r);
    P.AppliedFrame(Last(t'));
  }

  lemma NobodyThere(ms: seq<Member>, id: int)
    requires forall k :: 0 <= k < |ms| ==> ms[k].id != id
    ensures Find(ms, id) < 0
  {
  }

  /** The client ends and its leave frame is queued. */
  lemma Leaves(t: seq<State>, nick: string, id: int) returns (t': seq<State>)
    requires Behavior(t) && t != [] && Reads(Last(t).net, id, Reading) && Last(t).net.nicks[id] == nick
    requires Last(t).net.memberTexts == []
    ensures Behavior(t') && t' != [] && Last(t').lists == Last(t).lists && Last(t').m == Last(t).m
    ensures Last(t').c == Last(t).c && Last(t').saved == Last(t).saved && Last(t').fault == Last(t).fault
    ensures Last(t').net.memberTexts == [SendMessageText(nick, 1, 0, id)]
    ensures Last(t').net.chatTexts == Last(t).net.chatTexts && Last(t').net.nicks == Last(t).net.nicks
  {
    hide Behavior, SendMessageText;
    t' := Extend(t, Action.Quit(id));
    t' := Extend(t', Action.SendLeave(id));
  }

  lemma LeaverMissed(t: seq<State>, id: int) returns (t': seq<State>)
    requires Behavior(t) && t != [] && !Last(t).fault && Last(t).m.pc.Apply? && Last(t).m.pc.leave
    requires Atoi(Last(t).m.pc.num) == id && Find(Last(t).lists.members, id) < 0
    ensures Behavior(t') && t' != [] && Last(t').fault && Last(t').m.pc == Last(t).m.pc
    ensures Last(t').lists == Last(t).lists
  {
    hide Behavior, Atoi, Find, DoMembers;
    t' := MembersTurn(t);
    P.ApplyIs(Last(t), "");
  }
}
