/**
 Runs of the server in which no call of `strtok` by one thread falls between the first and the last call
 of the other thread's frame.

 Up to steps that change nothing there, every such run is a run of the machine in which each frame is
 parsed in private, so all that is proved of that machine holds of it; in particular it never faults.
*/
module ChatSeparateParses {
  import opened ChatCodec
  import opened ChatServer
  import opened ChatClient
  import opened ChatMirror
  import opened ChatParsing
  import opened ChatTexts
  import I = ChatInterleaved
  import R = ChatRosters

  /** No call falls into the other thread's parse. */
  predicate Separate(s: State, a: Action) {
    && (a.MembersStep? && (s.m.pc == First || MembersInside(s)) ==> !MessagesInside(s))
    && (a.MessagesStep? && (s.c.pc == Head || s.c.pc == LineCall || s.c.pc.PidCall?) ==> !MembersInside(s))
  }

  ghost predicate SeparateNext(s: State, s': State) {
    exists a :: Enabled(s, a) && Separate(s, a) && s' == Do(s, a)
  }

  ghost predicate SeparateRun(t: seq<State>) {
    t != [] && Init(t[0]) && forall i :: 0 <= i < |t| - 1 ==> SeparateNext(t[i], t[i + 1])
  }

  // ---------------------------------------------------------------- the machine with private parses

  function DecodedMembers(texts: seq<string>): (r: seq<Frame>)
    ensures |r| == |texts| && forall k :: 0 <= k < |r| ==> r[k] == ParseMember(texts[k])
  {
    seq(|texts|, k requires 0 <= k < |texts| => ParseMember(texts[k]))
  }

  function DecodedChats(texts: seq<string>): (r: seq<Frame>)
    ensures |r| == |texts| && forall k :: 0 <= k < |r| ==> r[k] == ParseChat(texts[k])
  {
    seq(|texts|, k requires 0 <= k < |texts| => ParseChat(texts[k]))
  }

  /** The frame a thread has received and not acted on yet. */
  function MemberInHand(m: MembersThread): seq<Frame> {
    match m.pc
    case Lock => [ParseMember(TextAt(m.buf, 0))]
    case First => [ParseMember(m.copy)]
    case Second(_) => [ParseMember(m.copy)]
    case Third(_, _) => [ParseMember(m.copy)]
    case Apply(_, _, _) => [ParseMember(m.copy)]
    case _ => []
  }

  function ChatInHand(c: MessagesThread): seq<Frame> {
    if c.pc == Head || c.pc == PollTest then [ParseChat(c.text)] else []
  }

  function LineOf(text: string): Message {
    var f := ParseChat(text);
    if f.Chat? then Message(f.line, f.id) else Message("", 0)
  }

  function MembersView(m: MembersThread): I.MembersPc {
    match m.pc
    case ShareMembers(nick, id, i) => I.MembersPc.ShareMembers(nick, id, i)
    case ShareHistory(nick, id, j) => I.MembersPc.ShareHistory(nick, id, j)
    case Register(nick, id, replayed) => I.MembersPc.Register(nick, id, replayed)
    case Restore => I.MembersPc.Announce(ParseMember(m.copy), 0)
    case Announce(i) => I.MembersPc.Announce(ParseMember(m.copy), i)
    case TestOnline => I.MembersPc.TestOnline
    case ClearMembers => I.MembersPc.ClearMembers
    case RaiseFlag => I.MembersPc.RaiseFlag
    case Closed => I.MembersPc.MembersDone
    case _ => I.MembersPc.Wait
  }

  function MessagesView(c: MessagesThread): I.MessagesPc {
    match c.pc
    case TestFlag => I.MessagesPc.TestFlag
    case Broadcast(i) => I.MessagesPc.Broadcast(LineOf(c.text), i)
    case LineCall => I.MessagesPc.Append(LineOf(c.text))
    case PidCall(_) => I.MessagesPc.Append(LineOf(c.text))
    case Append(_, _) => I.MessagesPc.Append(LineOf(c.text))
    case Ended => I.MessagesPc.MessagesDone
    case _ => I.MessagesPc.Listen
  }

  /** The lists, queues and clients as they are; texts decoded; the threads between their actions. */
  function View(s: State): I.State {
    I.State(s.lists.members, s.lists.messages, s.lists.online, s.lists.exitFlag,
            MembersView(s.m), MessagesView(s.c),
            MemberInHand(s.m) + DecodedMembers(s.net.memberTexts),
            ChatInHand(s.c) + DecodedChats(s.net.chatTexts),
            s.net.inbox, s.net.peers, s.lists.windows)
  }

  /** What is stored is what frames can carry. */
  ghost predicate EntriesOk(lists: Lists) {
    && (forall k :: 0 <= k < |lists.members| ==> GoodNick(lists.members[k].nick))
    && (forall k :: 0 <= k < |lists.messages| ==>
          GoodLine(lists.messages[k].line) && lists.messages[k].line != EXIT_LINE)
  }

  ghost predicate LocalOk(s: State) {
    && !s.fault && TextsOk(s.net) && MembersInHand(s) && MessagesInHand(s) && EntriesOk(s.lists)
    && (MessagesInside(s) ==> !s.taken && !MembersInside(s))
  }

  ghost predicate SeparateInv(s: State) {
    LocalOk(s) && R.RostersOk(View(s))
  }

  lemma InitInv(s: State)
    requires Init(s)
    ensures SeparateInv(s) && I.Init(View(s))
  {
    hide R.RostersOk, TextAt;
    assert DecodedMembers([]) == [] && DecodedChats([]) == [];
    R.ReachableRosters([View(s)], 0);
  }

  // ---------------------------------------------------------------- items

  lemma JoinItem(nick: string, id: int, live: bool)
    requires GoodNick(nick)
    ensures ItemOf(MemberText(1, nick, id), live) == I.Note(Join(nick, id))
  {
    JoinRoundTrip(nick, id);
    hide ParseClient, MemberText;
  }

  lemma HistoryItem(line: string, id: int, live: bool)
    requires GoodLine(line) && line != EXIT_LINE
    ensures ItemOf(ChatText(3, line, id), live) == I.Line(Message(line, id), live)
  {
    ChatRoundTrip(line, id);
    hide ParseClient, ChatText;
  }

  lemma MemberItem(text: string)
    requires GoodMemberText(text)
    ensures ItemOf(text, false) == I.Note(ParseMember(text))
  {
    ParsedMember(text);
    hide ParseClient, ParseMember, Tok1, Tok2, Tok3, Atoi;
  }

  lemma LineItem(text: string)
    requires GoodLineText(text)
    ensures ItemOf(text, true) == I.Line(LineOf(text), true)
    ensures ParseChat(text).Chat? && LineOf(text) == Message(LineTok(text).text, Atoi(PidTok(text).text))
  {
    ParsedChat(text);
    hide ParseClient, ParseChat, Tok1, LineTok, PidTok, Atoi;
  }

  // ---------------------------------------------------------------- steps of the clients

  function ClientAction(a: Action): I.Action
    requires !a.MembersStep? && !a.MessagesStep?
  {
    match a
    case Start(p, nick) => I.Action.Start(p, nick)
    case Say(p, line) => I.Action.Say(p, line)
    case Quit(p) => I.Action.Quit(p)
    case SendLeave(p) => I.Action.SendLeave(p)
    case SendPoll(p) => I.Action.SendPoll(p)
    case Receive(p) => I.Action.Receive(p)
  }

  lemma DecodedSnoc(texts: seq<string>, text: string)
    ensures DecodedMembers(texts + [text]) == DecodedMembers(texts) + [ParseMember(text)]
    ensures DecodedChats(texts + [text]) == DecodedChats(texts) + [ParseChat(text)]
  {
    hide ParseMember, ParseChat;
  }

  lemma ClientView(s: State, a: Action)
    requires !a.MembersStep? && !a.MessagesStep? && Enabled(s, a) && TextsOk(s.net)
    ensures I.Enabled(View(s), ClientAction(a)) && View(Do(s, a)) == I.Do(View(s), ClientAction(a))
  {
    hide ParseMember, ParseChat, SendMessageText, GoodMemberText, GoodChatText, I.OnlyLines, I.OnlyNotes,
      DecodedMembers, DecodedChats, MemberInHand, ChatInHand, MembersView, MessagesView, I.DoMembers, I.DoMessages,
      DoMembers, DoMessages;
    if a.Start? || a.SendLeave? {
      MemberSent(s, a);
    } else if a.Say? || a.SendPoll? {
      ChatSent(s, a);
    }
  }

  /** What a client sends decodes to what the other machine queues. */
  lemma MemberSent(s: State, a: Action)
    requires (a.Start? || a.SendLeave?) && Enabled(s, a) && TextsOk(s.net)
    ensures DecodedMembers(Do(s, a).net.memberTexts) ==
            DecodedMembers(s.net.memberTexts) + [if a.Start? then Join(a.nick, a.p) else Frame.Leave(a.p)]
  {
    hide ParseMember, SendMessageText, GoodMemberText, GoodChatText, DecodedMembers, DoMembers, DoMessages;
    var nick, marker := if a.Start? then a.nick else s.net.nicks[a.p], if a.Start? then 1 else 0;
    ClientMemberText(marker, nick, a.p);
    DecodedSnoc(s.net.memberTexts, SendMessageText(nick, 1, marker, a.p));
  }

  lemma ChatSent(s: State, a: Action)
    requires (a.Say? || a.SendPoll?) && Enabled(s, a) && TextsOk(s.net)
    ensures DecodedChats(Do(s, a).net.chatTexts) ==
            DecodedChats(s.net.chatTexts) + [if a.Say? then Chat(a.line, a.p) else Poll]
  {
    hide ParseChat, SendMessageText, GoodMemberText, GoodChatText, DecodedChats, DoMembers, DoMessages;
    if a.Say? {
      ClientChatText(a.line, a.p);
      DecodedSnoc(s.net.chatTexts, SendMessageText(a.line, 2, 3, a.p));
    } else {
      ClientPollText(s.net.nicks[a.p], a.p);
      DecodedSnoc(s.net.chatTexts, SendMessageText(s.net.nicks[a.p], 2, 4, a.p));
    }
  }

  // ---------------------------------------------------------------- steps of the membership thread

  lemma DecodedFirst(texts: seq<string>)
    requires texts != []
    ensures DecodedMembers(texts) == [ParseMember(texts[0])] + DecodedMembers(texts[1..])
    ensures DecodedChats(texts) == [ParseChat(texts[0])] + DecodedChats(texts[1..])
  {
    hide ParseMember, ParseChat;
  }

  /** Taking tokens changes nothing in the view. */
  lemma ParsingView(s: State, junk: string)
    requires Enabled(s, Action.MembersStep(junk)) && LocalOk(s) && !MessagesInside(s)
    requires s.m.pc in {First} || MembersInside(s)
    ensures View(DoMembers(s, junk)) == View(s)
  {
    hide TextsOk, EntriesOk, MessagesInHand, MembersInHand, DoMembers, View, MembersStepOk;
    MembersStepInHand(s, junk);
    ParsedFields(s, junk);
    SameView(s, DoMembers(s, junk));
  }

  lemma ParsedFields(s: State, junk: string)
    requires Enabled(s, Action.MembersStep(junk)) && (s.m.pc in {First} || MembersInside(s))
    requires MembersStepOk(s, DoMembers(s, junk))
    ensures var s' := DoMembers(s, junk);
            && s'.lists == s.lists && s'.net == s.net && s'.c == s.c && s'.m.copy == s.m.copy
            && (MembersInside(s') || s'.m.pc.Apply?)
  {
    hide TextsOk, MembersInHand, CallAt, TextAt, MembersApply, MembersLoops, Over;
  }

  lemma SameView(s: State, s': State)
    requires s'.lists == s.lists && s'.net == s.net && s'.c == s.c && s'.m.copy == s.m.copy
    requires s.m.pc == First || MembersInside(s) || s.m.pc.Apply?
    requires s'.m.pc == First || MembersInside(s') || s'.m.pc.Apply?
    ensures View(s') == View(s)
  {
    hide ParseMember, DecodedMembers, DecodedChats, ChatInHand, MessagesView, TextAt;
  }

  lemma ReceivingView(s: State, junk: string)
    requires Enabled(s, Action.MembersStep(junk)) && LocalOk(s) && s.m.pc in {Wait, Lock, Restore}
    ensures View(DoMembers(s, junk)) == View(s)
  {
    hide EntriesOk, MembersInHand, MessagesInHand, ParseMember, ParseChat, TextAt, DecodedMembers, DecodedChats,
      MembersFirst, MembersSecond, MembersThird, MembersApply, MembersLoops, GoodMemberText, GoodChatText, Over,
      MessagesView, ChatInHand;
    if s.m.pc == Wait {
      var text := s.net.memberTexts[0];
      assert GoodMemberText(text);
      GoodHasNoNul(text);
      TextOver(text, junk);
      DecodedFirst(s.net.memberTexts);
      assert [] + DecodedMembers(s.net.memberTexts) == DecodedMembers(s.net.memberTexts);
    }
  }

  /** Acting on a parsed frame is what the other machine does when it takes the frame. */
  lemma ApplyView(s: State, junk: string)
    requires Enabled(s, Action.MembersStep(junk)) && SeparateInv(s) && s.m.pc.Apply?
    ensures I.Enabled(View(s), I.Action.MembersStep) && View(DoMembers(s, junk)) == I.TakeMemberFrame(View(s))
    ensures I.DoMembers(View(s)) == I.TakeMemberFrame(View(s)) && !DoMembers(s, junk).fault
  {
    hide TextsOk, MessagesInHand, EntriesOk, ParseMember, View, R.RostersOk, I.TakeMemberFrame, I.DoMembers, I.Enabled,
      DoMembers, MembersApply, Find, Atoi, IsOnline, MembersInHand;
    AppliedFrame(s);
    if s.m.pc.leave {
      AppliedLeaver(s);
    }
    ApplyIs(s, junk);
    AppliedFields(s, s.m.pc.leave, s.m.pc.nick, s.m.pc.num);
    ApplyWaits(s);
  }

  lemma ApplyIs(s: State, junk: string)
    requires Enabled(s, Action.MembersStep(junk)) && s.m.pc.Apply?
    ensures DoMembers(s, junk) == MembersApply(s, s.m.pc.leave, s.m.pc.nick, s.m.pc.num)
  {
    hide MembersApply, MembersFirst, MembersSecond, MembersThird, MembersLoops, TextAt, Over;
  }

  lemma ApplyWaits(s: State)
    requires s.m.pc.Apply? && View(s).memberFrames != []
    ensures I.Enabled(View(s), I.Action.MembersStep) && I.DoMembers(View(s)) == I.TakeMemberFrame(View(s))
  {
    hide ParseMember, ParseChat, TextAt, DecodedMembers, DecodedChats, MessagesView, ChatInHand, I.TakeMemberFrame;
  }

  lemma FrameToApply(s: State)
    requires s.m.pc.Apply? && MembersInHand(s)
    ensures GoodMemberText(s.m.copy) && s.m.pc.leave == (Tok1(s.m.copy).text == "0")
    ensures (!s.m.pc.leave ==> s.m.pc.nick == Tok2(s.m.copy).text) && s.m.pc.num == Tok3(s.m.copy).text
  {
    hide GoodMemberText, Strtok, TextAt;
  }

  /** The tokens in hand are the frame. */
  lemma AppliedFrame(s: State)
    requires s.m.pc.Apply? && MembersInHand(s)
    ensures ParseMember(s.m.copy) ==
            if s.m.pc.leave then Frame.Leave(Atoi(s.m.pc.num)) else Join(s.m.pc.nick, Atoi(s.m.pc.num))
  {
    hide ParseMember, GoodMemberText, Tok1, Tok2, Tok3, Atoi, MembersInHand;
    FrameToApply(s);
    ParsedMember(s.m.copy);
  }

  lemma AppliedLeaver(s: State)
    requires R.RostersOk(View(s)) && s.m.pc.Apply? && ParseMember(s.m.copy) == Frame.Leave(Atoi(s.m.pc.num))
    requires s.m.pc.leave
    ensures IsOnline(s.lists.members, Atoi(s.m.pc.num)) && Find(s.lists.members, Atoi(s.m.pc.num)) >= 0
  {
    hide ParseMember, ParseChat, TextAt, DecodedMembers, DecodedChats, MessagesView, ChatInHand, Atoi, Find,
      I.Inv, R.NotesOk, R.LeavesOk, Online;
    R.LeaverIsOnline(View(s));
  }

  lemma AppliedFields(s: State, leave: bool, nick: string, num: string)
    requires s.m.pc == Apply(leave, nick, num) && !s.fault
    requires ParseMember(s.m.copy) == if leave then Frame.Leave(Atoi(num)) else Join(nick, Atoi(num))
    requires leave ==> Find(s.lists.members, Atoi(num)) >= 0
    ensures View(s).memberFrames != [] && View(MembersApply(s, leave, nick, num)) == I.TakeMemberFrame(View(s))
    ensures !MembersApply(s, leave, nick, num).fault
  {
    hide ParseMember, ParseChat, TextAt, DecodedMembers, DecodedChats, Atoi, Find, MessagesView, ChatInHand;
    var frames := DecodedMembers(s.net.memberTexts);
    assert ([ParseMember(s.m.copy)] + frames)[1..] == frames == [] + frames;
  }

  // ---------------------------------------------------------------- posting and moving on, in the view

  lemma MembersPosts(s: State, p: int, item: I.Item, pc: MembersPc)
    requires MemberInHand(s.m) == MemberInHand(s.m.(pc := pc))
    ensures View(MembersGo(s.(net := Post(s.net, p, item)), pc)) ==
            I.Put(View(s), p, item).(mpc := MembersView(s.m.(pc := pc)))
    ensures View(MembersGo(s, pc)) == View(s).(mpc := MembersView(s.m.(pc := pc)))
  {
    hide DecodedMembers, DecodedChats, MemberInHand, ChatInHand, MembersView, MessagesView;
  }

  lemma MessagesPosts(s: State, p: int, item: I.Item, pc: MessagesPc)
    requires ChatInHand(s.c) == ChatInHand(s.c.(pc := pc))
    ensures View(MessagesGo(s.(net := Post(s.net, p, item)), pc)) ==
            I.Put(View(s), p, item).(cpc := MessagesView(s.c.(pc := pc)))
    ensures View(MessagesGo(s, pc)) == View(s).(cpc := MessagesView(s.c.(pc := pc)))
  {
    hide DecodedMembers, DecodedChats, MemberInHand, ChatInHand, MembersView, MessagesView;
  }

  lemma ViewFields(s: State)
    ensures var v := View(s);
            && v.members == s.lists.members && v.messages == s.lists.messages && v.online == s.lists.online
            && v.exitFlag == s.lists.exitFlag && v.mpc == MembersView(s.m) && v.cpc == MessagesView(s.c)
  {
  }

  // the same turns in the machine with private parses

  lemma AnnounceTurn(v: I.State, f: Frame, i: nat)
    requires v.mpc == I.MembersPc.Announce(f, i)
    ensures I.Enabled(v, I.Action.MembersStep)
    ensures I.DoMembers(v) ==
            if i < |v.members| then I.Put(v, v.members[i].id, I.Note(f)).(mpc := I.MembersPc.Announce(f, i + 1))
            else v.(mpc := I.MembersPc.TestOnline)
  {
    hide I.Put, I.TakeMemberFrame, I.RegisterMember, I.ShareMember;
  }

  lemma HistoryTurn(v: I.State, nick: string, id: int, j: nat)
    requires v.mpc == I.MembersPc.ShareHistory(nick, id, j)
    ensures I.Enabled(v, I.Action.MembersStep)
    ensures I.DoMembers(v) ==
            if j < |v.messages|
            then I.Put(v, id, I.Line(v.messages[j], false)).(mpc := I.MembersPc.ShareHistory(nick, id, j + 1))
            else v.(mpc := I.MembersPc.Register(nick, id, j))
  {
    hide I.Put, I.TakeMemberFrame, I.RegisterMember, I.ShareMember;
  }

  lemma MemberTurn(v: I.State, nick: string, id: int, i: nat)
    requires v.mpc == I.MembersPc.ShareMembers(nick, id, i)
    ensures I.Enabled(v, I.Action.MembersStep)
    ensures I.DoMembers(v) ==
            if i >= |v.members| then v.(mpc := I.MembersPc.ShareHistory(nick, id, 0))
            else if v.members[i].online
            then I.Put(v, id, I.Note(Join(v.members[i].nick, v.members[i].id)))
                 .(mpc := I.MembersPc.ShareMembers(nick, id, i + 1))
            else v.(mpc := I.MembersPc.ShareMembers(nick, id, i + 1))
  {
    hide I.Put, I.TakeMemberFrame, I.RegisterMember;
  }

  lemma BroadcastTurn(v: I.State, m: Message, i: nat)
    requires v.cpc == I.MessagesPc.Broadcast(m, i)
    ensures I.Enabled(v, I.Action.MessagesStep)
    ensures I.DoMessages(v) ==
            if i < |v.members| then I.Put(v, v.members[i].id, I.Line(m, true)).(cpc := I.MessagesPc.Broadcast(m, i + 1))
            else v.(cpc := I.MessagesPc.Append(m))
  {
    hide I.Put, I.TakeChatFrame;
  }

  lemma MembersLoop(s: State, nick: string, id: int, i: nat)
    requires s.m.pc == ShareMembers(nick, id, i)
    ensures var ms := s.lists.members;
            MembersLoops(s) ==
            if i >= |ms| then MembersGo(s, ShareHistory(nick, id, 0))
            else if ms[i].online
            then MembersGo(s.(net := Post(s.net, id, ItemOf(MemberText(1, ms[i].nick, ms[i].id), false))),
                           ShareMembers(nick, id, i + 1))
            else MembersGo(s, ShareMembers(nick, id, i + 1))
  {
    hide ItemOf, MemberText, ChatText, Post, MembersGo, Sent;
  }

  /** The frame in hand does not depend on how far the sharing has come. */
  lemma SharingPcs(m: MembersThread, nick: string, id: int, i: nat)
    requires m.pc == ShareMembers(nick, id, i)
    ensures MembersView(m) == I.MembersPc.ShareMembers(nick, id, i)
    ensures MembersView(m.(pc := ShareMembers(nick, id, i + 1))) == I.MembersPc.ShareMembers(nick, id, i + 1)
    ensures MembersView(m.(pc := ShareHistory(nick, id, 0))) == I.MembersPc.ShareHistory(nick, id, 0)
    ensures MemberInHand(m) == MemberInHand(m.(pc := ShareMembers(nick, id, i + 1)))
            == MemberInHand(m.(pc := ShareHistory(nick, id, 0)))
  {
  }

  lemma ShareMembersView(s: State, junk: string)
    requires EntriesOk(s.lists) && s.m.pc.ShareMembers?
    ensures I.Enabled(View(s), I.Action.MembersStep) && View(MembersLoops(s)) == I.DoMembers(View(s))
  {
    hide ItemOf, MemberText, I.Put, I.DoMembers, I.Enabled, Post, MembersGo, MembersLoops, View, MembersView,
      MemberInHand, GoodNick, GoodLine;
    var nick, id, i, ms := s.m.pc.nick, s.m.pc.id, s.m.pc.i, s.lists.members;
    ViewFields(s);
    SharingPcs(s.m, nick, id, i);
    MemberTurn(View(s), nick, id, i);
    MembersLoop(s, nick, id, i);
    if i < |ms| {
      JoinItem(ms[i].nick, ms[i].id, false);
      MembersPosts(s, id, I.Note(Join(ms[i].nick, ms[i].id)), ShareMembers(nick, id, i + 1));
    } else {
      MembersPosts(s, id, I.Note(Poll), ShareHistory(nick, id, 0));
    }
  }

  /** While sharing and registering no received frame is kept back. */
  lemma SharingInHand(s: State, s': State)
    requires s.m.pc.ShareMembers? || s.m.pc.ShareHistory? || s.m.pc.Register? || s.m.pc.Announce? || Closing(s.m.pc)
    requires s'.m.pc.ShareMembers? || s'.m.pc.ShareHistory? || s'.m.pc.Register? || s'.m.pc.Restore?
             || s'.m.pc.Announce?
             || Closing(s'.m.pc) || s'.m.pc == Wait
    ensures MemberInHand(s.m) == MemberInHand(s'.m) == []
  {
  }

  predicate Closing(pc: MembersPc) {
    pc in {TestOnline, ClearMembers, RaiseFlag, Closed}
  }

  lemma HistoryLoop(s: State, nick: string, id: int, j: nat)
    requires s.m.pc == ShareHistory(nick, id, j)
    ensures MembersLoops(s) ==
            if j < |s.lists.messages|
            then MembersGo(s.(net := Post(s.net, id, ItemOf(ChatText(3, s.lists.messages[j].line,
                                                                     s.lists.messages[j].id), false))),
                           ShareHistory(nick, id, j + 1))
            else MembersGo(s, Register(nick, id, j))
  {
    hide ItemOf, ChatText, Post, MembersGo, Sent;
  }

  lemma HistoryPcs(m: MembersThread, nick: string, id: int, j: nat)
    requires m.pc == ShareHistory(nick, id, j)
    ensures MembersView(m) == I.MembersPc.ShareHistory(nick, id, j)
    ensures MembersView(m.(pc := ShareHistory(nick, id, j + 1))) == I.MembersPc.ShareHistory(nick, id, j + 1)
    ensures MembersView(m.(pc := Register(nick, id, j))) == I.MembersPc.Register(nick, id, j)
    ensures MemberInHand(m) == MemberInHand(m.(pc := ShareHistory(nick, id, j + 1)))
            == MemberInHand(m.(pc := Register(nick, id, j)))
  {
  }

  lemma ShareHistoryView(s: State, junk: string)
    requires EntriesOk(s.lists) && s.m.pc.ShareHistory?
    ensures I.Enabled(View(s), I.Action.MembersStep) && View(MembersLoops(s)) == I.DoMembers(View(s))
  {
    hide ItemOf, ChatText, I.Put, I.DoMembers, I.Enabled, Post, MembersGo, MembersLoops, View, MembersView,
      MemberInHand, GoodNick, GoodLine;
    var nick, id, j, ms := s.m.pc.nick, s.m.pc.id, s.m.pc.j, s.lists.messages;
    ViewFields(s);
    HistoryPcs(s.m, nick, id, j);
    HistoryTurn(View(s), nick, id, j);
    HistoryLoop(s, nick, id, j);
    if j < |ms| {
      HistoryItem(ms[j].line, ms[j].id, false);
      MembersPosts(s, id, I.Line(ms[j], false), ShareHistory(nick, id, j + 1));
    } else {
      MembersPosts(s, id, I.Note(Poll), Register(nick, id, j));
    }
  }

  lemma RegisterView(s: State, junk: string)
    requires SeparateInv(s) && s.m.pc.Register?
    ensures I.Enabled(View(s), I.Action.MembersStep) && View(MembersLoops(s)) == I.DoMembers(View(s))
  {
    hide ParseMember, MembersLoops, Sent, I.Due, I.RegisterMember, I.DoMembers, I.Enabled, GoodMemberText, TextsOk,
      EntriesOk, MessagesInHand, R.NotesOk, R.CountOk;
    var nick, id, replayed := s.m.pc.nick, s.m.pc.id, s.m.pc.replayed;
    RegisteringFrame(s);
    assert I.BroadcastOk(View(s));
    SentIsDue(s);
    RegisteredView(s, nick, id, replayed);
    hide LocalOk, R.RostersOk;
    assert View(s).mpc == I.MembersPc.Register(nick, id, replayed);
    hide View;
    RegisterTurn(View(s), nick, id, replayed);
  }

  lemma RegisteringFrame(s: State)
    requires s.m.pc.Register? && MembersInHand(s)
    ensures ParseMember(s.m.copy) == Join(s.m.pc.nick, s.m.pc.id)
  {
    assert Joining(s.m.copy, s.m.pc.nick, s.m.pc.id);
    ParsedMember(s.m.copy);
    hide ParseMember, GoodMemberText, Tok1, Tok2, Tok3, Atoi;
  }

  lemma RegisterTurn(v: I.State, nick: string, id: int, replayed: nat)
    requires v.mpc == I.MembersPc.Register(nick, id, replayed)
    ensures I.Enabled(v, I.Action.MembersStep) && I.DoMembers(v) == I.RegisterMember(v, nick, id, replayed)
  {
    hide I.Put, I.TakeMemberFrame, I.RegisterMember, I.ShareMember;
  }

  lemma SentIsDue(s: State)
    requires I.BroadcastOk(View(s)) && s.m.pc.Register?
    ensures I.Due(View(s), |s.lists.members|) == Sent(s)
  {
    hide DecodedMembers, DecodedChats, MemberInHand, ChatInHand, LineOf;
  }

  lemma RegisteredView(s: State, nick: string, id: int, replayed: nat)
    requires s.m.pc == Register(nick, id, replayed) && I.Due(View(s), |s.lists.members|) == Sent(s)
    requires ParseMember(s.m.copy) == Join(nick, id)
    ensures View(MembersLoops(s)) == I.RegisterMember(View(s), nick, id, replayed)
  {
    hide DecodedMembers, DecodedChats, ChatInHand, MessagesView, Sent, I.Due, ParseMember;
  }

  lemma AnnounceLoop(s: State, i: nat)
    requires s.m.pc == Announce(i)
    ensures MembersLoops(s) ==
            if i < |s.lists.members|
            then MembersGo(s.(net := Post(s.net, s.lists.members[i].id, ItemOf(TextAt(s.m.buf, 0), false))),
                           Announce(i + 1))
            else MembersGo(s, TestOnline)
  {
    hide ItemOf, TextAt, Post, MembersGo, Sent;
  }

  lemma AnnounceView(s: State, junk: string)
    requires MembersInHand(s) && s.m.pc.Announce?
    ensures I.Enabled(View(s), I.Action.MembersStep) && View(MembersLoops(s)) == I.DoMembers(View(s))
  {
    hide ParseMember, TextAt, ItemOf, MembersInHand, GoodMemberText, I.Put, I.DoMembers, I.Enabled, Post, MembersGo,
      MembersLoops, View, MembersView, MemberInHand;
    var i := s.m.pc.i;
    AnnouncedText(s);
    AnnouncePcs(s.m, i);
    ViewFields(s);
    var f := ParseMember(s.m.copy);
    AnnounceTurn(View(s), f, i);
    AnnounceLoop(s, i);
    if i < |s.lists.members| {
      MembersPosts(s, s.lists.members[i].id, I.Note(f), Announce(i + 1));
    } else {
      MembersPosts(s, 0, I.Note(f), TestOnline);
    }
  }

  lemma AnnouncePcs(m: MembersThread, i: nat)
    requires m.pc == Announce(i)
    ensures MembersView(m) == I.MembersPc.Announce(ParseMember(m.copy), i)
    ensures MembersView(m.(pc := Announce(i + 1))) == I.MembersPc.Announce(ParseMember(m.copy), i + 1)
    ensures MembersView(m.(pc := TestOnline)) == I.MembersPc.TestOnline
    ensures MemberInHand(m) == MemberInHand(m.(pc := Announce(i + 1))) == MemberInHand(m.(pc := TestOnline)) == []
  {
    hide ParseMember, TextAt;
  }

  lemma AnnouncedText(s: State)
    requires MembersInHand(s) && s.m.pc.Announce?
    ensures ItemOf(TextAt(s.m.buf, 0), false) == I.Note(ParseMember(s.m.copy))
  {
    assert GoodMemberText(s.m.copy) && TextAt(s.m.buf, 0) == s.m.copy;
    MemberItem(s.m.copy);
  }

  lemma ClosingView(s: State, junk: string)
    requires Enabled(s, Action.MembersStep(junk)) && Closing(s.m.pc)
    ensures I.Enabled(View(s), I.Action.MembersStep) && View(MembersLoops(s)) == I.DoMembers(View(s))
  {
    hide ParseMember, ParseChat, TextAt, DecodedMembers, DecodedChats, MemberInHand, ChatInHand, MessagesView,
      ItemOf, I.TakeMemberFrame, I.RegisterMember, I.ShareMember, Sent;
    SharingInHand(s, MembersLoops(s));
  }

  /** In the view a step of the thread is a step of its like, or none. */
  ghost predicate Follows(s: State, s': State) {
    View(s') == View(s) || I.Next(View(s), View(s'))
  }

  lemma LoopsAre(s: State, junk: string)
    requires Enabled(s, Action.MembersStep(junk))
    requires !(s.m.pc in {Wait, Lock, First, Restore}) && !s.m.pc.Apply? && !MembersInside(s)
    ensures DoMembers(s, junk) == MembersLoops(s)
  {
    hide MembersLoops, MembersFirst, MembersSecond, MembersThird, MembersApply, TextAt, Over;
  }

  lemma MembersFollows(s: State, junk: string)
    requires Enabled(s, Action.MembersStep(junk)) && SeparateInv(s) && Separate(s, Action.MembersStep(junk))
    ensures Follows(s, DoMembers(s, junk)) && !DoMembers(s, junk).fault
    ensures EntriesOk(DoMembers(s, junk).lists)
  {
    assert MembersStepOk(s, DoMembers(s, junk)) by { MembersStepInHand(s, junk); }
    assert EntriesOk(DoMembers(s, junk).lists) by { MembersEntries(s, junk); }
    hide View, I.Enabled, I.DoMembers, R.RostersOk, LocalOk, DoMembers, MembersLoops, MembersStepOk, EntriesOk;
    match s.m.pc
    case Wait => ReceivingView(s, junk); FaultFree(s, junk);
    case Lock => ReceivingView(s, junk); FaultFree(s, junk);
    case Restore => ReceivingView(s, junk); FaultFree(s, junk);
    case First => ParsingView(s, junk); FaultFree(s, junk);
    case Second(_) => ParsingView(s, junk); FaultFree(s, junk);
    case Third(_, _) => ParsingView(s, junk); FaultFree(s, junk);
    case Apply(_, _, _) => ApplyView(s, junk); ViewStep(s, DoMembers(s, junk));
    case ShareMembers(_, _, _) => LoopsAre(s, junk); ShareMembersView(s, junk); LoopsFollow(s, junk);
    case ShareHistory(_, _, _) => LoopsAre(s, junk); ShareHistoryView(s, junk); LoopsFollow(s, junk);
    case Register(_, _, _) => LoopsAre(s, junk); RegisterView(s, junk); LoopsFollow(s, junk);
    case Announce(_) => LoopsAre(s, junk); AnnounceView(s, junk); LoopsFollow(s, junk);
    case _ => LoopsAre(s, junk); ClosingView(s, junk); LoopsFollow(s, junk);
  }

  lemma FaultFree(s: State, junk: string)
    requires Enabled(s, Action.MembersStep(junk)) && MembersStepOk(s, DoMembers(s, junk)) && !s.m.pc.Apply?
    ensures !DoMembers(s, junk).fault
  {
    hide DoMembers, MembersInHand, TextsOk;
  }

  lemma LoopsFollow(s: State, junk: string)
    requires Enabled(s, Action.MembersStep(junk)) && DoMembers(s, junk) == MembersLoops(s) && !s.m.pc.Apply?
    requires MembersStepOk(s, DoMembers(s, junk))
    requires I.Enabled(View(s), I.Action.MembersStep) && View(MembersLoops(s)) == I.DoMembers(View(s))
    ensures Follows(s, DoMembers(s, junk)) && !DoMembers(s, junk).fault
  {
    FaultFree(s, junk);
    hide View, I.Enabled, I.DoMembers, DoMembers, MembersLoops;
    ViewStep(s, DoMembers(s, junk));
  }

  lemma ViewStep(s: State, s': State)
    requires I.Enabled(View(s), I.Action.MembersStep) && View(s') == I.DoMembers(View(s))
    ensures Follows(s, s')
  {
    hide View, I.Enabled, I.DoMembers;
    I.DoIs(View(s), I.Action.MembersStep);
    assert View(s') == I.Do(View(s), I.Action.MembersStep);
  }

  lemma MembersEntries(s: State, junk: string)
    requires Enabled(s, Action.MembersStep(junk)) && LocalOk(s)
    ensures EntriesOk(DoMembers(s, junk).lists)
  {
    hide TextsOk, MessagesInHand, EntriesOk, MembersApply, MembersLoops;
    if s.m.pc.Apply? {
      ApplyIs(s, junk);
      hide DoMembers;
      ApplyEntries(s, s.m.pc.leave, s.m.pc.nick, s.m.pc.num);
    } else if s.m.pc in {Wait, Lock, First, Restore} || MembersInside(s) {
      ParsingLists(s, junk);
      hide DoMembers;
    } else {
      LoopsAre(s, junk);
      hide DoMembers;
      LoopsEntries(s);
    }
  }

  lemma ParsingLists(s: State, junk: string)
    requires Enabled(s, Action.MembersStep(junk)) && (s.m.pc in {Wait, Lock, First, Restore} || MembersInside(s))
    ensures DoMembers(s, junk).lists == s.lists
  {
    hide MembersApply, MembersLoops, TextAt, Over, CallAt;
  }

  lemma ApplyEntries(s: State, leave: bool, nick: string, num: string)
    requires EntriesOk(s.lists)
    ensures EntriesOk(MembersApply(s, leave, nick, num).lists)
  {
    hide Find, Atoi, GoodNick, GoodLine;
  }

  lemma LoopsEntries(s: State)
    requires EntriesOk(s.lists) && MembersInHand(s)
    ensures EntriesOk(MembersLoops(s).lists)
  {
    hide GoodNick, GoodLine, MembersLoops, MembersInHand;
    LoopsLists(s);
    if s.m.pc.Register? {
      RegisteringNick(s);
    }
  }

  lemma LoopsLists(s: State)
    ensures var lists := MembersLoops(s).lists;
            && lists.messages == s.lists.messages
            && (s.m.pc.Register? ==> lists.members == s.lists.members + [Member(s.m.pc.nick, s.m.pc.id, true)])
            && (!s.m.pc.Register? ==> lists.members == s.lists.members || lists.members == [])
  {
    hide ItemOf, Sent, TextAt, Post, MemberText, ChatText;
  }

  lemma RegisteringNick(s: State)
    requires s.m.pc.Register? && MembersInHand(s)
    ensures GoodNick(s.m.pc.nick)
  {
    assert Joining(s.m.copy, s.m.pc.nick, s.m.pc.id);
  }

  // ---------------------------------------------------------------- steps of the message thread

  lemma ListeningView(s: State)
    requires Enabled(s, Action.MessagesStep) && LocalOk(s) && s.c.pc == Listen
    ensures View(DoMessages(s)) == View(s)
  {
    hide LocalOk, ParseMember, ParseChat, TextAt, DecodedMembers, DecodedChats, MembersView, MemberInHand, Over;
    DecodedFirst(s.net.chatTexts);
    assert [] + DecodedChats(s.net.chatTexts) == DecodedChats(s.net.chatTexts);
  }

  /** Taking the tokens of a line changes nothing in the view. */
  lemma LineTakingView(s: State)
    requires Enabled(s, Action.MessagesStep) && LocalOk(s) && (s.c.pc == LineCall || s.c.pc.PidCall?)
    ensures View(DoMessages(s)) == View(s)
  {
    MessagesStepInHand(s);
    hide LocalOk, MessagesInHand, TextsOk, ParseMember, ParseChat, CallAt, TextAt, DecodedMembers, DecodedChats, LineOf,
      MessagesHead, Over;
  }

  lemma HeadView(s: State)
    requires Enabled(s, Action.MessagesStep) && LocalOk(s) && s.c.pc == Head
    ensures var s' := DoMessages(s);
            View(s') == View(s) ||
            (I.Enabled(View(s), I.Action.MessagesStep) && View(s') == I.DoMessages(View(s)))
  {
    assert GoodChatText(s.c.text);
    ParsedChat(s.c.text);
    HeadKind(s);
    hide LocalOk, ParseChat, GoodChatText, CallAt, Tok1, LineTok, PidTok, Atoi;
    if Tok1(s.c.text).text == "4" {
      HeadSilent(s);
    } else {
      HeadTakes(s);
    }
  }

  lemma HeadSilent(s: State)
    requires Enabled(s, Action.MessagesStep) && s.c.pc == Head
    requires CallAt(s.c.buf, 0, ' ').token.Token? && CallAt(s.c.buf, 0, ' ').token.text == "4"
    ensures View(DoMessages(s)) == View(s)
  {
    hide ParseChat, CallAt, DecodedMembers, DecodedChats, MembersView, MemberInHand, MessagesLine, MessagesPid, Over;
  }

  lemma HeadTakes(s: State)
    requires Enabled(s, Action.MessagesStep) && s.c.pc == Head && ParseChat(s.c.text).Chat?
    requires CallAt(s.c.buf, 0, ' ').token.Token? && CallAt(s.c.buf, 0, ' ').token.text != "4"
    ensures I.Enabled(View(s), I.Action.MessagesStep) && View(DoMessages(s)) == I.DoMessages(View(s))
  {
    hide ParseChat, CallAt, DecodedMembers, DecodedChats, MembersView, MemberInHand, MessagesLine, MessagesPid, Over,
      I.Put;
    var frames := DecodedChats(s.net.chatTexts);
    assert ([ParseChat(s.c.text)] + frames)[1..] == frames == [] + frames;
  }

  lemma HeadKind(s: State)
    requires s.c.pc == Head && MessagesInHand(s) && !s.fault
    ensures CallAt(s.c.buf, 0, ' ').token == Tok1(s.c.text) && Tok1(s.c.text).Token?
  {
    CallIs(s.c.buf, 0, ' ');
    hide CallAt, Strtok, TextAt;
  }

  lemma PollView(s: State)
    requires Enabled(s, Action.MessagesStep) && LocalOk(s) && s.c.pc == PollTest
    ensures I.Enabled(View(s), I.Action.MessagesStep) && View(DoMessages(s)) == I.DoMessages(View(s))
  {
    assert GoodChatText(s.c.text) && Tok1(s.c.text).text == "4";
    ParsedChat(s.c.text);
    hide LocalOk, ParseMember, ParseChat, CallAt, TextAt, DecodedMembers, DecodedChats, MemberInHand, GoodChatText,
      MessagesHead, MessagesLine, MessagesPid, Over, Tok1, LineTok, PidTok, Atoi;
    var frames := DecodedChats(s.net.chatTexts);
    assert ([ParseChat(s.c.text)] + frames)[1..] == frames == [] + frames;
  }

  lemma FlagView(s: State)
    requires Enabled(s, Action.MessagesStep) && s.c.pc == TestFlag
    ensures I.Enabled(View(s), I.Action.MessagesStep) && View(DoMessages(s)) == I.DoMessages(View(s))
  {
    hide EntriesOk, MembersInHand, MessagesInHand, TextsOk, ParseMember, ParseChat, CallAt, TextAt, DecodedMembers,
      DecodedChats, MemberInHand, MembersView, GoodLineText, MessagesHead, MessagesLine, MessagesPid, Over, LineTok,
      PidTok, Tok1, Atoi, ItemOf, LineOf, I.TakeChatFrame, I.Put;
  }

  lemma BroadcastLoop(s: State, i: nat)
    requires Enabled(s, Action.MessagesStep) && s.c.pc == Broadcast(i)
    ensures DoMessages(s) ==
            if i < |s.lists.members|
            then MessagesGo(s.(net := Post(s.net, s.lists.members[i].id, ItemOf(s.c.text, true))), Broadcast(i + 1))
            else MessagesGo(s, LineCall)
  {
    hide ItemOf, Post, MessagesGo, MessagesHead, MessagesLine, MessagesPid, Over;
  }

  lemma BroadcastPcs(c: MessagesThread, i: nat)
    requires c.pc == Broadcast(i)
    ensures MessagesView(c) == I.MessagesPc.Broadcast(LineOf(c.text), i)
    ensures MessagesView(c.(pc := Broadcast(i + 1))) == I.MessagesPc.Broadcast(LineOf(c.text), i + 1)
    ensures MessagesView(c.(pc := LineCall)) == I.MessagesPc.Append(LineOf(c.text))
    ensures ChatInHand(c) == ChatInHand(c.(pc := Broadcast(i + 1))) == ChatInHand(c.(pc := LineCall))
  {
    hide LineOf, ParseChat;
  }

  lemma SendingGoodLine(s: State)
    requires MessagesInHand(s) && s.c.pc.Broadcast?
    ensures GoodLineText(s.c.text)
  {
    hide GoodLineText, TextAt;
  }

  lemma BroadcastView(s: State)
    requires Enabled(s, Action.MessagesStep) && GoodLineText(s.c.text) && s.c.pc.Broadcast?
    ensures I.Enabled(View(s), I.Action.MessagesStep) && View(DoMessages(s)) == I.DoMessages(View(s))
  {
    hide ParseChat, ItemOf, LineOf, GoodLineText, I.Put, I.DoMessages, I.Enabled, Post, MessagesGo, DoMessages, View,
      MessagesView, ChatInHand, Enabled;
    var i := s.c.pc.i;
    LineItem(s.c.text);
    ViewFields(s);
    BroadcastPcs(s.c, i);
    var m := LineOf(s.c.text);
    BroadcastTurn(View(s), m, i);
    BroadcastLoop(s, i);
    if i < |s.lists.members| {
      MessagesPosts(s, s.lists.members[i].id, I.Line(m, true), Broadcast(i + 1));
    } else {
      MessagesPosts(s, 0, I.Line(m, true), LineCall);
    }
  }

  lemma AppendView(s: State)
    requires Enabled(s, Action.MessagesStep) && MessagesInHand(s) && s.c.pc.Append?
    ensures I.Enabled(View(s), I.Action.MessagesStep) && View(DoMessages(s)) == I.DoMessages(View(s))
  {
    AppendedLine(s);
    hide MessagesInHand, ParseChat, TextAt, DecodedMembers, DecodedChats, MemberInHand, MembersView, MessagesHead,
      MessagesLine, MessagesPid, Over, Atoi, ItemOf, LineOf, I.TakeChatFrame, I.Put, Post;
  }

  lemma AppendedLine(s: State)
    requires MessagesInHand(s) && s.c.pc.Append?
    ensures LineOf(s.c.text) == Message(s.c.pc.line, Atoi(s.c.pc.num))
  {
    assert GoodLineText(s.c.text) && s.c.pc.line == LineTok(s.c.text).text && s.c.pc.num == PidTok(s.c.text).text;
    LineItem(s.c.text);
  }

  lemma MessagesFollows(s: State)
    requires Enabled(s, Action.MessagesStep) && LocalOk(s)
    ensures Follows(s, DoMessages(s))
  {
    hide View, I.Enabled, I.DoMessages, DoMessages, TextsOk, MembersInHand, MessagesInHand, EntriesOk, I.Next;
    if s.c.pc == Listen {
      ListeningView(s);
    } else if s.c.pc == LineCall || s.c.pc.PidCall? {
      LineTakingView(s);
    } else {
      if s.c.pc == Head {
        HeadView(s);
      } else if s.c.pc == PollTest {
        PollView(s);
      } else if s.c.pc == TestFlag {
        FlagView(s);
      } else if s.c.pc.Broadcast? {
        SendingGoodLine(s);
        BroadcastView(s);
      } else {
        AppendView(s);
      }
      if View(DoMessages(s)) != View(s) {
        MessagesViewStep(s, DoMessages(s));
      }
    }
  }

  lemma MessagesViewStep(s: State, s': State)
    requires I.Enabled(View(s), I.Action.MessagesStep) && View(s') == I.DoMessages(View(s))
    ensures I.Next(View(s), View(s'))
  {
    hide View, I.Enabled, I.DoMessages;
    I.DoIs(View(s), I.Action.MessagesStep);
    assert View(s') == I.Do(View(s), I.Action.MessagesStep);
  }

  lemma MessagesEntries(s: State)
    requires Enabled(s, Action.MessagesStep) && LocalOk(s)
    ensures EntriesOk(DoMessages(s).lists)
  {
    hide TextsOk, GoodNick, GoodLine, DoMessages;
    if s.c.pc.Append? {
      assert GoodLineText(s.c.text) && s.c.pc.line == LineTok(s.c.text).text;
      assert GoodLine(s.c.pc.line) && s.c.pc.line != EXIT_LINE;
    }
    hide MembersInHand, MessagesInHand;
    MessagesLists(s);
  }

  lemma MessagesLists(s: State)
    requires Enabled(s, Action.MessagesStep)
    ensures DoMessages(s).lists ==
            if s.c.pc.Append?
            then s.lists.(messages := s.lists.messages + [Message(s.c.pc.line, Atoi(s.c.pc.num))])
            else s.lists
  {
    hide CallAt, ItemOf, Atoi, Post, Over;
  }

  // ---------------------------------------------------------------- every step, every run

  lemma ClientFollows(s: State, a: Action)
    requires !a.MembersStep? && !a.MessagesStep? && Enabled(s, a) && TextsOk(s.net)
    ensures Follows(s, Do(s, a)) && TextsOk(Do(s, a).net)
  {
    ClientView(s, a);
    ClientTexts(s.net, a);
    hide View, I.Enabled, I.Do, TextsOk, DoClient;
    assert I.Next(View(s), View(Do(s, a)));
  }

  lemma FollowsRosters(s: State, s': State)
    requires R.RostersOk(View(s)) && Follows(s, s')
    ensures R.RostersOk(View(s'))
  {
    hide View, I.Enabled, I.Do, R.RostersOk;
    if View(s') != View(s) {
      var a :| I.Enabled(View(s), a) && View(s') == I.Do(View(s), a);
      R.StepRosters(View(s), a);
    }
  }

  lemma MembersLocal(s: State, junk: string)
    requires SeparateInv(s) && Enabled(s, Action.MembersStep(junk)) && Separate(s, Action.MembersStep(junk))
    ensures LocalOk(DoMembers(s, junk)) && Follows(s, DoMembers(s, junk))
  {
    var s' := DoMembers(s, junk);
    MembersFollows(s, junk);
    MembersStepInHand(s, junk);
    hide R.RostersOk, View, DoMembers, Follows, EntriesOk, TextsOk, MembersInHand, MessagesInHand;
    MembersStepOther(s, s');
    MembersPcs(s, junk);
  }

  /** A parse is entered by its first call and by nothing else. */
  lemma MembersPcs(s: State, junk: string)
    requires Enabled(s, Action.MembersStep(junk))
    ensures MembersInside(DoMembers(s, junk)) ==> s.m.pc == First || MembersInside(s)
  {
    hide TextAt, CallAt, Over, ItemOf, Find, Atoi, Post, Sent;
    if !(s.m.pc in {Wait, Lock, First, Restore}) && !s.m.pc.Apply? && !MembersInside(s) {
      hide MembersFirst, MembersSecond, MembersThird, MembersApply;
    } else {
      hide MembersLoops;
    }
  }

  lemma MessagesLocal(s: State)
    requires SeparateInv(s) && Enabled(s, Action.MessagesStep) && Separate(s, Action.MessagesStep)
    ensures LocalOk(DoMessages(s)) && Follows(s, DoMessages(s))
  {
    var s' := DoMessages(s);
    MessagesFollows(s);
    MessagesEntries(s);
    MessagesStepInHand(s);
    hide R.RostersOk, View, Follows, EntriesOk, TextsOk, MembersInHand, MessagesInHand;
    MessagesStepOther(s, s');
    MessagesPcs(s);
    hide DoMessages;
  }

  lemma MessagesPcs(s: State)
    requires Enabled(s, Action.MessagesStep)
    ensures MessagesInside(DoMessages(s)) ==> s.c.pc == Head || MessagesInside(s)
  {
    hide TextAt, CallAt, Over, ItemOf, Atoi, Post;
  }

  /** Every separate step is a step of the machine with private parses, or none, and keeps the invariant. */
  lemma StepSeparate(s: State, a: Action)
    requires SeparateInv(s) && Enabled(s, a) && Separate(s, a)
    ensures SeparateInv(Do(s, a)) && Follows(s, Do(s, a))
  {
    match a
    case MembersStep(junk) =>
      MembersLocal(s, junk);
      FollowsRosters(s, DoMembers(s, junk));
    case MessagesStep =>
      MessagesLocal(s);
      FollowsRosters(s, DoMessages(s));
    case _ =>
      ClientFollows(s, a);
      hide R.RostersOk, View, Follows, DoClient, TextsOk, EntriesOk;
      FollowsRosters(s, Do(s, a));
      ClientLocal(s, Do(s, a));
  }

  lemma ClientLocal(s: State, s': State)
    requires LocalOk(s) && s' == s.(net := s'.net) && TextsOk(s'.net)
    ensures LocalOk(s')
  {
    hide TextsOk, EntriesOk, TextAt, GoodMemberText, GoodChatText;
  }

  lemma {:induction false} ReachableSeparate(t: seq<State>, i: nat)
    requires SeparateRun(t) && i < |t|
    ensures SeparateInv(t[i])
  {
    hide SeparateInv, Do, Enabled, Separate, Init;
    if i == 0 {
      InitInv(t[0]);
    } else {
      ReachableSeparate(t, i - 1);
      assert SeparateNext(t[i - 1], t[i]);
      var a :| Enabled(t[i - 1], a) && Separate(t[i - 1], a) && t[i] == Do(t[i - 1], a);
      StepSeparate(t[i - 1], a);
    }
  }
}
