/**
 The chat with the two server threads interleaved at single sends and single list appends.

 The message thread broadcasts a line before it appends it to the list and takes no lock, and the
 membership thread replays the list to a newcomer before it registers it.  The main result says
 exactly what that costs: a registered client has seen, as history, the messages before the end of
 its replay and, live, the messages after its registration.  What lies between is missed, nothing is
 seen twice and nothing out of order.

 In this machine each thread takes its frames apart in private.  The server's threads share the place
 where `strtok` stopped: `ChatParsing` models that, `ChatSeparateRuns` proves for which of its runs these
 results hold, and `ChatMixedTokens` that they fail for others.
*/
module ChatInterleaved {
  import opened ChatCodec
  import opened ChatServer
  import opened ChatClient
  import opened ChatMirror

  /** What waits in a client's queue: a member frame, or a chat line replayed or sent live. */
  datatype Item = Note(frame: Frame) | Line(message: Message, live: bool)

  /** `received` and `noted` are the chat lines and the member frames the reader has taken, oldest first. */
  datatype Peer = Peer(phase: Phase, received: seq<Item>, noted: seq<Frame>)

  /** The membership thread: the step it takes next. */
  datatype MembersPc =
    | Wait
    | ShareMembers(nick: string, id: int, i: nat)
    | ShareHistory(nick: string, id: int, j: nat)
    | Register(nick: string, id: int, replayed: nat)
    | Announce(frame: Frame, i: nat)
    | TestOnline
    | ClearMembers
    | RaiseFlag
    | MembersDone

  /** The message thread: the step it takes next. */
  datatype MessagesPc =
    | TestFlag
    | Listen
    | Broadcast(message: Message, i: nat)
    | Append(message: Message)
    | MessagesDone

  /** The messages before `replayed` went out as history, those from `live` on go out live. */
  datatype Window = Window(replayed: nat, live: nat)

  /** `windows` is a history variable: it records each registration and no step reads it. */
  datatype State = State(
    members: seq<Member>, messages: seq<Message>, online: int, exitFlag: bool,
    mpc: MembersPc, cpc: MessagesPc,
    memberFrames: seq<Frame>, chatFrames: seq<Frame>, inbox: map<int, seq<Item>>,
    peers: map<int, Peer>, windows: map<int, Window>)

  datatype Action =
    | Start(p: int, nick: string)
    | Say(p: int, line: string)
    | Quit(p: int)
    | SendLeave(p: int)
    | SendPoll(p: int)
    | Receive(p: int)
    | MembersStep
    | MessagesStep

  ghost predicate Init(s: State) {
    s == State([], [], 0, false, Wait, TestFlag, [], [], map[], map[], map[])
  }

  function Inbox(s: State, p: int): seq<Item> {
    if p in s.inbox then s.inbox[p] else []
  }

  function Put(s: State, p: int, item: Item): State {
    s.(inbox := s.inbox[p := Inbox(s, p) + [item]])
  }

  predicate InPhase(s: State, p: int, phase: Phase) {
    p in s.peers && s.peers[p].phase == phase
  }

  /** `members_mutex` is held from the reception of a member frame to the test of the counter. */
  predicate MutexFree(s: State) {
    s.mpc in {Wait, ClearMembers, RaiseFlag, MembersDone}
  }

  predicate Enabled(s: State, a: Action) {
    match a
    case Start(p, nick) => p !in s.peers && p > 2
    case Say(p, line) => InPhase(s, p, Reading)
    case Quit(p) => InPhase(s, p, Reading)
    case SendLeave(p) => InPhase(s, p, Silent)
    case SendPoll(p) => InPhase(s, p, Left)
    case Receive(p) => InPhase(s, p, Reading) && Inbox(s, p) != []
    case MembersStep => s.mpc != MembersDone && (s.mpc == Wait ==> s.memberFrames != [])
    case MessagesStep =>
      && s.cpc != MessagesDone
      && (s.cpc == Listen ==> s.chatFrames != [] && (s.chatFrames[0].Poll? ==> MutexFree(s)))
  }

  function SetPhase(s: State, p: int, phase: Phase): State
    requires p in s.peers
  {
    s.(peers := s.peers[p := s.peers[p].(phase := phase)])
  }

  function Do(s: State, a: Action): State
    requires Enabled(s, a)
  {
    match a
    case Start(p, nick) =>
      s.(peers := s.peers[p := Peer(Reading, [], [])], memberFrames := s.memberFrames + [Join(nick, p)])
    case Say(p, line) => s.(chatFrames := s.chatFrames + [Chat(line, p)])
    case Quit(p) => SetPhase(s, p, Silent)
    case SendLeave(p) => SetPhase(s, p, Left).(memberFrames := s.memberFrames + [Frame.Leave(p)])
    case SendPoll(p) => SetPhase(s, p, Gone).(chatFrames := s.chatFrames + [Poll])
    case Receive(p) =>
      var item := Inbox(s, p)[0];
      var peer := s.peers[p];
      s.(inbox := s.inbox[p := s.inbox[p][1..]],
         peers := s.peers[p := peer.(received := peer.received + OnlyLines([item]),
                                     noted := peer.noted + OnlyNotes([item]))])
    case MembersStep => DoMembers(s)
    case MessagesStep => DoMessages(s)
  }

  /**
   `msgrcv` and the parsing of a member frame, in private.  That a leaving member is then always found is a
   theorem (`ChatRosters.LeaveFindsItsMember`); in C a missing one would be a write before the array.
  */
  function TakeMemberFrame(s: State): State
    requires s.memberFrames != []
  {
    var f := s.memberFrames[0];
    match f
    case Join(nick, id) => s.(memberFrames := s.memberFrames[1..], mpc := ShareMembers(nick, id, 0))
    case Leave(id) =>
      var k := Find(s.members, id);
      s.(memberFrames := s.memberFrames[1..],
         members := if k < 0 then s.members else s.members[k := s.members[k].(online := false)],
         online := s.online - 1, mpc := Announce(f, 0))
    case _ => s.(memberFrames := s.memberFrames[1..])
  }

  /** One turn of the first loop of `shair_database`. */
  function ShareMember(s: State, nick: string, id: int, i: nat): State
    requires i < |s.members|
  {
    var m, next := s.members[i], ShareMembers(nick, id, i + 1);
    if m.online then Put(s, id, Note(Join(m.nick, m.id))).(mpc := next) else s.(mpc := next)
  }

  /** `data_add` for the newcomer. */
  function RegisterMember(s: State, nick: string, id: int, replayed: nat): State {
    s.(members := s.members + [Member(nick, id, true)], online := s.online + 1,
       windows := s.windows[id := Window(replayed, Due(s, |s.members|))],
       mpc := Announce(Join(nick, id), 0))
  }

  function DoMembers(s: State): State
    requires Enabled(s, MembersStep)
  {
    match s.mpc
    case Wait => TakeMemberFrame(s)
    case ShareMembers(nick, id, i) =>
      if i < |s.members| then ShareMember(s, nick, id, i) else s.(mpc := ShareHistory(nick, id, 0))
    case ShareHistory(nick, id, j) =>
      if j < |s.messages| then Put(s, id, Line(s.messages[j], false)).(mpc := ShareHistory(nick, id, j + 1))
      else s.(mpc := Register(nick, id, j))
    case Register(nick, id, replayed) => RegisterMember(s, nick, id, replayed)
    case Announce(f, i) =>
      if i < |s.members| then Put(s, s.members[i].id, Note(f)).(mpc := Announce(f, i + 1))
      else s.(mpc := TestOnline)
    case TestOnline => s.(mpc := if s.online <= 0 then ClearMembers else Wait)
    case ClearMembers => s.(members := [], mpc := RaiseFlag)
    case RaiseFlag => s.(exitFlag := true, mpc := MembersDone)
  }

  /** `msgrcv` and the first token of a chat frame. */
  function TakeChatFrame(s: State): State
    requires s.chatFrames != []
  {
    s.(chatFrames := s.chatFrames[1..], cpc := AfterFrame(s, s.chatFrames[0]))
  }

  function AfterFrame(s: State, f: Frame): MessagesPc {
    match f
    case Poll => if |s.members| <= 0 then MessagesDone else TestFlag
    case Chat(line, id) => Broadcast(Message(line, id), 0)
    case _ => s.cpc
  }

  function DoMessages(s: State): State
    requires Enabled(s, MessagesStep)
  {
    match s.cpc
    case TestFlag => s.(cpc := if s.exitFlag then MessagesDone else Listen)
    case Listen => TakeChatFrame(s)
    case Broadcast(m, i) =>
      if i < |s.members| then Put(s, s.members[i].id, Line(m, true)).(cpc := Broadcast(m, i + 1))
      else s.(cpc := Append(m))
    case Append(m) => s.(messages := s.messages + [m], cpc := TestFlag)
  }

  ghost predicate Next(s: State, s': State) {
    exists a :: Enabled(s, a) && s' == Do(s, a)
  }

  ghost predicate Behavior(t: seq<State>) {
    t != [] && Init(t[0]) && forall i :: 0 <= i < |t| - 1 ==> Next(t[i], t[i + 1])
  }

  // ---------------------------------------------------------------- what a client has seen

  function OnlyLines(q: seq<Item>): seq<Item> {
    if q == [] then []
    else OnlyLines(q[..|q| - 1]) + if q[|q| - 1].Line? then [q[|q| - 1]] else []
  }

  function OnlyNotes(q: seq<Item>): seq<Frame> {
    if q == [] then []
    else OnlyNotes(q[..|q| - 1]) + if q[|q| - 1].Note? then [q[|q| - 1].frame] else []
  }

  lemma OnlyLinesSnoc(q: seq<Item>, item: Item)
    ensures OnlyLines(q + [item]) == OnlyLines(q) + if item.Line? then [item] else []
  {
    assert (q + [item])[..|q|] == q;
  }

  lemma {:induction false} OnlyLinesConcat(a: seq<Item>, b: seq<Item>)
    ensures OnlyLines(a + b) == OnlyLines(a) + OnlyLines(b)
  {
    if b == [] {
      assert a + b == a;
    } else {
      assert (a + b)[..|a + b| - 1] == a + b[..|b| - 1];
      OnlyLinesConcat(a, b[..|b| - 1]);
    }
  }

  /** The chat lines a client received, followed by those pending in its queue. */
  function Seen(s: State, p: int): seq<Item>
    requires p in s.peers
  {
    s.peers[p].received + OnlyLines(Inbox(s, p))
  }

  function Lines(ms: seq<Message>, live: bool): (r: seq<Item>)
    ensures |r| == |ms| && forall i :: 0 <= i < |ms| ==> r[i] == Line(ms[i], live)
  {
    seq(|ms|, i requires 0 <= i < |ms| => Line(ms[i], live))
  }

  /** The server's message list, followed by the one message in flight, if any. */
  function Log(s: State): seq<Message> {
    s.messages + if s.cpc.Broadcast? || s.cpc.Append? then [s.cpc.message] else []
  }

  /** How much of the log the member at index `x` has had its turn for. */
  function Due(s: State, x: int): (n: nat)
    ensures n <= |Log(s)|
  {
    |s.messages| + if s.cpc.Append? || (s.cpc.Broadcast? && x < s.cpc.i) then 1 else 0
  }

  // ---------------------------------------------------------------- the invariant

  /** The newcomer the membership thread is sharing the database with, if any. */
  predicate IsNewcomer(s: State, p: int) {
    (s.mpc.ShareMembers? || s.mpc.ShareHistory? || s.mpc.Register?) && s.mpc.id == p
  }

  ghost predicate NewcomerSeen(s: State, p: int)
    requires p in s.peers
  {
    if !IsNewcomer(s, p) || s.mpc.ShareMembers? then Seen(s, p) == []
    else if s.mpc.ShareHistory? then s.mpc.j <= |s.messages| && Seen(s, p) == Lines(s.messages[..s.mpc.j], false)
    else s.mpc.replayed <= |s.messages| && Seen(s, p) == Lines(s.messages[..s.mpc.replayed], false)
  }

  ghost predicate MemberSeen(s: State, x: nat)
    requires x < |s.members|
  {
    var p := s.members[x].id;
    && p in s.peers && p in s.windows
    && var w := s.windows[p];
    && w.replayed <= w.live <= Due(s, x)
    && Seen(s, p) == Lines(Log(s)[..w.replayed], false) + Lines(Log(s)[w.live..Due(s, x)], true)
  }

  ghost predicate FramesOk(s: State) {
    && (forall k :: 0 <= k < |s.memberFrames| && s.memberFrames[k].Join? ==>
          var p := s.memberFrames[k].id;
          p in s.peers && p !in s.windows && !IsNewcomer(s, p))
    && (forall k, l :: 0 <= k < l < |s.memberFrames| && s.memberFrames[k].Join? && s.memberFrames[l].Join? ==>
          s.memberFrames[k].id != s.memberFrames[l].id)
    && (forall p :: IsNewcomer(s, p) ==> p in s.peers && p !in s.windows)
  }

  predicate BroadcastOk(s: State) {
    s.cpc.Broadcast? ==> s.cpc.i <= |s.members| || s.mpc in {RaiseFlag, MembersDone}
  }

  ghost predicate Inv(s: State) {
    && Distinct(s.members)
    && FramesOk(s)
    && BroadcastOk(s)
    && (forall p :: p in s.peers && p !in s.windows ==> NewcomerSeen(s, p))
    && (forall x :: 0 <= x < |s.members| ==> MemberSeen(s, x))
    && (forall p :: p !in s.peers ==> Inbox(s, p) == [])
    && (forall p :: p in s.windows ==> p in s.peers)
  }

  lemma InitInv(s: State)
    requires Init(s)
    ensures Inv(s)
  {
  }

  // ---------------------------------------------------------------- steps

  lemma PutSeen(s: State, p: int, item: Item, q: int)
    requires q in s.peers
    ensures Seen(Put(s, p, item), q) == Seen(s, q) + if q == p && item.Line? then [item] else []
  {
    OnlyLinesSnoc(Inbox(s, p), item);
    hide OnlyLines;
    if q == p {
      var last := if item.Line? then [item] else [];
      assert Inbox(Put(s, p, item), q) == Inbox(s, q) + [item];
      assert s.peers[q].received + (OnlyLines(Inbox(s, q)) + last) == Seen(s, q) + last;
    }
  }

  /** Taking a frame from the queue moves a line from "pending" to "received". */
  lemma ReceiveSeen(s: State, p: int, q: int)
    requires Enabled(s, Receive(p)) && q in s.peers
    ensures Seen(Do(s, Receive(p)), q) == Seen(s, q)
  {
    hide DoMembers, DoMessages;
    var box := Inbox(s, p);
    OnlyLinesConcat(box[..1], box[1..]);
    hide OnlyLines;
    if q == p {
      assert box == box[..1] + box[1..] && box[..1] == [box[0]];
      assert s.peers[p].received + (OnlyLines([box[0]]) + OnlyLines(box[1..])) ==
             s.peers[p].received + OnlyLines([box[0]]) + OnlyLines(box[1..]);
    }
  }

  lemma NothingSeen(s: State, p: int)
    requires p in s.peers && s.peers[p].received == [] && Inbox(s, p) == []
    ensures Seen(s, p) == []
  {
  }

  lemma SeenSame(s: State, s': State)
    requires s'.peers == s.peers && s'.inbox == s.inbox
    ensures forall q :: q in s.peers ==> Seen(s', q) == Seen(s, q)
  {
    hide OnlyLines;
  }

  /** A step that lets no member see anything new and leaves the log and what was due alone. */
  lemma MembersQuiet(s: State, s': State)
    requires Inv(s)
    requires forall p :: p in s.peers ==> p in s'.peers && Seen(s', p) == Seen(s, p)
    requires forall p :: p in s.windows ==> p in s'.windows && s'.windows[p] == s.windows[p]
    requires |s'.members| == |s.members| && forall x :: 0 <= x < |s.members| ==> s'.members[x].id == s.members[x].id
    requires Log(s) <= Log(s') && forall x :: 0 <= x < |s.members| ==> Due(s', x) == Due(s, x)
    ensures Distinct(s'.members)
    ensures forall x :: 0 <= x < |s'.members| ==> MemberSeen(s', x)
  {
    hide Seen, Lines, Log, Due, NewcomerSeen, FramesOk;
    forall x | 0 <= x < |s'.members| ensures MemberSeen(s', x) {
      assert MemberSeen(s, x);
      var w := s.windows[s.members[x].id];
      assert Log(s')[..w.replayed] == Log(s)[..w.replayed];
      assert Log(s')[w.live..Due(s, x)] == Log(s)[w.live..Due(s, x)];
    }
  }

  /** A step that lets no newcomer see anything new and does not advance the replay. */
  lemma NewcomersQuiet(s: State, s': State)
    requires Inv(s)
    requires s'.peers.Keys == s.peers.Keys && s'.windows.Keys == s.windows.Keys
    requires forall p :: p in s.peers ==> Seen(s', p) == Seen(s, p)
    requires s.messages <= s'.messages
    requires s'.mpc == s.mpc || !(s.mpc.ShareMembers? || s.mpc.ShareHistory? || s.mpc.Register?)
    requires s'.mpc == s.mpc || !(s'.mpc.ShareHistory? || s'.mpc.Register?)
    ensures forall p :: p in s'.peers && p !in s'.windows ==> NewcomerSeen(s', p)
  {
    hide Seen, Lines, MemberSeen, FramesOk, Distinct;
    forall p | p in s'.peers && p !in s'.windows ensures NewcomerSeen(s', p) {
      assert NewcomerSeen(s, p);
      if IsNewcomer(s, p) && s.mpc.ShareHistory? {
        assert s'.messages[..s.mpc.j] == s.messages[..s.mpc.j];
      } else if IsNewcomer(s, p) && s.mpc.Register? {
        assert s'.messages[..s.mpc.replayed] == s.messages[..s.mpc.replayed];
      }
    }
  }

  lemma FramesSame(s: State, s': State)
    requires FramesOk(s) && s'.memberFrames == s.memberFrames && s'.windows == s.windows
    requires s'.peers.Keys == s.peers.Keys
    requires forall p :: IsNewcomer(s', p) ==> IsNewcomer(s, p)
    ensures FramesOk(s')
  {
  }

  /** Nobody sees anything new. */
  ghost predicate NothingNew(s: State, s': State) {
    && s'.peers.Keys == s.peers.Keys && s'.windows == s.windows
    && (forall p :: p in s.peers ==> Seen(s', p) == Seen(s, p))
    && (forall p :: p !in s'.peers ==> Inbox(s', p) == [])
  }

  predicate SameLog(s: State, s': State) {
    s'.messages == s.messages && s'.cpc == s.cpc
  }

  predicate SameIds(ms: seq<Member>, ms': seq<Member>) {
    |ms'| == |ms| && forall x :: 0 <= x < |ms| ==> ms'[x].id == ms[x].id
  }

  lemma LogSame(s: State, s': State)
    requires SameLog(s, s')
    ensures Log(s') == Log(s) && forall x :: Due(s', x) == Due(s, x)
  {
  }

  /** What quiet steps need for the registered members. */
  lemma QuietMembers(s: State, s': State)
    requires Inv(s) && NothingNew(s, s') && SameLog(s, s') && SameIds(s.members, s'.members)
    ensures Distinct(s'.members)
    ensures forall x :: 0 <= x < |s'.members| ==> MemberSeen(s', x)
  {
    hide Seen, Lines, Log, Due, NewcomerSeen, FramesOk, MemberSeen, Distinct, OnlyLines, Inbox;
    LogSame(s, s');
    MembersQuiet(s, s');
  }

  /** A step after which everybody has seen what they had seen, and no newcomer's replay has moved. */
  lemma QuietStep(s: State, s': State)
    requires Inv(s) && NothingNew(s, s') && SameLog(s, s') && SameIds(s.members, s'.members)
    requires s'.mpc == s.mpc || !(s.mpc.ShareMembers? || s.mpc.ShareHistory? || s.mpc.Register?)
    requires s'.mpc == s.mpc || !(s'.mpc.ShareHistory? || s'.mpc.Register?)
    requires FramesOk(s') && BroadcastOk(s')
    ensures Inv(s')
  {
    hide Seen, Lines, Log, Due, NewcomerSeen, FramesOk, MemberSeen, Distinct, OnlyLines, BroadcastOk;
    QuietMembers(s, s');
    hide Inbox;
    NewcomersQuiet(s, s');
  }

  /** The clients' own steps change nothing anybody has seen. */
  lemma ClientStepInv(s: State, a: Action)
    requires Inv(s) && Enabled(s, a) && !a.MembersStep? && !a.MessagesStep? && !a.Start?
    ensures Inv(Do(s, a))
  {
    ClientNothingNew(s, a);
    ClientFrames(s, a);
    hide DoMembers, DoMessages, OnlyLines, OnlyNotes, MemberSeen, NewcomerSeen, FramesOk, NothingNew, Distinct;
    QuietStep(s, Do(s, a));
  }

  lemma ClientNothingNew(s: State, a: Action)
    requires Inv(s) && Enabled(s, a) && !a.MembersStep? && !a.MessagesStep? && !a.Start?
    ensures NothingNew(s, Do(s, a))
  {
    hide DoMembers, DoMessages, OnlyLines, OnlyNotes, Lines, Distinct, MemberSeen, NewcomerSeen, FramesOk, BroadcastOk;
    var s' := Do(s, a);
    forall q | q in s.peers ensures Seen(s', q) == Seen(s, q) {
      if a.Receive? {
        ReceiveSeen(s, a.p, q);
      }
    }
    hide Seen;
  }

  lemma ClientFrames(s: State, a: Action)
    requires FramesOk(s) && Enabled(s, a) && !a.MembersStep? && !a.MessagesStep? && !a.Start?
    ensures FramesOk(Do(s, a))
  {
    hide DoMembers, DoMessages, OnlyLines, OnlyNotes;
  }

  lemma StartFrames(s: State, p: int, nick: string)
    requires Inv(s) && Enabled(s, Start(p, nick))
    ensures FramesOk(Do(s, Start(p, nick)))
  {
    hide DoMembers, DoMessages, Distinct, MemberSeen, NewcomerSeen;
  }

  lemma StartInv(s: State, p: int, nick: string)
    requires Inv(s) && Enabled(s, Start(p, nick))
    ensures Inv(Do(s, Start(p, nick)))
  {
    StartFrames(s, p, nick);
    hide DoMembers, DoMessages, OnlyLines, Lines, Distinct, MemberSeen;
    var s' := Do(s, Start(p, nick));
    assert p !in s.windows && !IsNewcomer(s, p);
    hide FramesOk;
    StartSeen(s, s', p);
    hide Seen;
    LogSame(s, s');
    hide Log, Due;
    MembersQuiet(s, s');
    forall q | q in s'.peers && q !in s'.windows ensures NewcomerSeen(s', q) {
      if q != p {
        assert NewcomerSeen(s, q);
        SameNewcomer(s, s', q);
      }
    }
  }

  lemma StartSeen(s: State, s': State, p: int)
    requires p !in s.peers && Inbox(s, p) == []
    requires s'.inbox == s.inbox && s'.peers == s.peers[p := Peer(Reading, [], [])]
    ensures Seen(s', p) == [] && forall q :: q in s.peers ==> Seen(s', q) == Seen(s, q)
  {
    NothingSeen(s', p);
    hide OnlyLines;
  }

  /** Taking the oldest member frame; a join makes its sender the newcomer. */
  lemma WaitFrames(s: State, s': State)
    requires FramesOk(s) && s.memberFrames != [] && s.mpc == Wait
    requires s'.memberFrames == s.memberFrames[1..] && s'.peers == s.peers && s'.windows == s.windows
    requires forall p :: IsNewcomer(s', p) ==> s.memberFrames[0].Join? && s.memberFrames[0].id == p
    ensures FramesOk(s')
  {
    assert forall k :: 0 <= k < |s'.memberFrames| ==> s'.memberFrames[k] == s.memberFrames[k + 1];
  }

  lemma WaitInv(s: State)
    requires Inv(s) && Enabled(s, MembersStep) && s.mpc == Wait
    ensures Inv(Do(s, MembersStep))
  {
    hide ShareMember, RegisterMember;
    hide FramesOk, DoMessages, OnlyLines, Lines, Find, MemberSeen, Distinct, NewcomerSeen, Log, Due;
    var s' := Do(s, MembersStep);
    WaitFrames(s, s');
    SilentMembersStep(s, s');
    assert SameIds(s.members, s'.members);
    hide SameIds, NothingNew;
    QuietStep(s, s');
  }

  /** A step of the membership thread that sends nothing. */
  lemma SilentMembersStep(s: State, s': State)
    requires Inv(s) && s'.peers == s.peers && s'.inbox == s.inbox && s'.windows == s.windows
    ensures NothingNew(s, s')
  {
    SeenSame(s, s');
    hide Seen, FramesOk, MemberSeen, Distinct, NewcomerSeen, BroadcastOk;
  }

  /** A step of the membership thread that sends somebody a member frame. */
  lemma NotingMembersStep(s: State, s': State, p: int, frame: Frame)
    requires Inv(s) && p in s.peers && s'.peers == s.peers && s'.windows == s.windows
    requires s'.inbox == Put(s, p, Note(frame)).inbox
    ensures NothingNew(s, s')
  {
    forall q | q in s.peers ensures Seen(s', q) == Seen(s, q) {
      PutSeen(s, p, Note(frame), q);
      assert Seen(s', q) == Seen(Put(s, p, Note(frame)), q);
    }
    hide Seen, FramesOk, MemberSeen, Distinct, NewcomerSeen, BroadcastOk;
  }

  lemma ShareMembersInv(s: State)
    requires Inv(s) && s.mpc.ShareMembers?
    ensures Inv(Do(s, MembersStep))
  {
    hide TakeMemberFrame, RegisterMember;
    hide DoMessages, OnlyLines, Lines, Find, MemberSeen, Distinct, Seen, NothingNew, Log, Due, NewcomerSeen;
    var s' := Do(s, MembersStep);
    assert IsNewcomer(s, s.mpc.id) && s.mpc.id in s.peers;
    FramesSame(s, s');
    hide FramesOk;
    if s.mpc.i < |s.members| && s.members[s.mpc.i].online {
      var m := s.members[s.mpc.i];
      NotingMembersStep(s, s', s.mpc.id, Join(m.nick, m.id));
    } else {
      SilentMembersStep(s, s');
    }
    QuietMembers(s, s');
    SharedMembersSeen(s, s');
    hide Inbox, Put, IsNewcomer, SameIds;
  }

  lemma SharedMembersSeen(s: State, s': State)
    requires Inv(s) && s.mpc.ShareMembers? && NothingNew(s, s') && s'.messages == s.messages
    requires || s'.mpc == ShareMembers(s.mpc.nick, s.mpc.id, s.mpc.i + 1)
             || s'.mpc == ShareHistory(s.mpc.nick, s.mpc.id, 0)
    ensures forall p :: p in s'.peers && p !in s'.windows ==> NewcomerSeen(s', p)
    ensures forall p :: p !in s'.peers ==> Inbox(s', p) == []
    ensures forall p :: p in s'.windows ==> p in s'.peers
  {
    hide Seen, FramesOk, MemberSeen, Distinct, Inbox;
    forall p | p in s'.peers && p !in s'.windows ensures NewcomerSeen(s', p) {
      assert NewcomerSeen(s, p);
      assert Lines(s.messages[..0], false) == [];
    }
  }

  /** The replay loop sends one message and moves on. */
  lemma ReplayInv(s: State)
    requires Inv(s) && s.mpc.ShareHistory? && s.mpc.j < |s.messages|
    ensures Inv(Do(s, MembersStep))
  {
    hide TakeMemberFrame, ShareMember, RegisterMember;
    hide DoMessages, OnlyLines, Find, MemberSeen, Distinct, Lines, NewcomerSeen;
    var s' := Do(s, MembersStep);
    var id, j := s.mpc.id, s.mpc.j;
    var item := Line(s.messages[j], false);
    assert IsNewcomer(s, id) && id in s.peers && id !in s.windows;
    FramesSame(s, s');
    hide FramesOk;
    ReplaySends(s, s');
    assert forall q :: q !in s'.peers ==> Inbox(s', q) == [];
    hide Seen, Inbox, Put;
    ReplayMembers(s, s');
    forall p | p in s'.peers && p !in s'.windows ensures NewcomerSeen(s', p) {
      ReplayedSeen(s, s', p);
    }
  }

  lemma ReplayMembers(s: State, s': State)
    requires Inv(s) && (s.mpc.ShareHistory? && s'.members == s.members) && SameLog(s, s')
    requires s'.peers == s.peers && s'.windows == s.windows
    requires forall q :: q in s.peers && q != s.mpc.id ==> Seen(s', q) == Seen(s, q)
    ensures forall x :: 0 <= x < |s'.members| ==> MemberSeen(s', x)
  {
    LogSame(s, s');
    hide Log, Due, Seen, MemberSeen, NewcomerSeen, Distinct, FramesOk;
    forall x | 0 <= x < |s'.members| ensures MemberSeen(s', x) {
      SameView(s, s', x);
    }
  }

  lemma ReplaySends(s: State, s': State)
    requires s.mpc.ShareHistory? && s.mpc.j < |s.messages| && s'.peers == s.peers
    requires s'.inbox == Put(s, s.mpc.id, Line(s.messages[s.mpc.j], false)).inbox
    ensures forall q :: q in s.peers ==>
              Seen(s', q) == Seen(s, q) + if q == s.mpc.id then [Line(s.messages[s.mpc.j], false)] else []
  {
    hide OnlyLines;
    var item := Line(s.messages[s.mpc.j], false);
    forall q | q in s.peers ensures Seen(s', q) == Seen(s, q) + if q == s.mpc.id then [item] else [] {
      PutSeen(s, s.mpc.id, item, q);
      assert Seen(s', q) == Seen(Put(s, s.mpc.id, item), q);
    }
  }

  lemma ReplayedSeen(s: State, s': State, p: int)
    requires Inv(s) && s.mpc.ShareHistory? && s.mpc.j < |s.messages| && p in s.peers && p !in s.windows && p in s'.peers
    requires s'.mpc == s.mpc.(j := s.mpc.j + 1) && s'.messages == s.messages
    requires Seen(s', p) == Seen(s, p) + if p == s.mpc.id then [Line(s.messages[s.mpc.j], false)] else []
    ensures NewcomerSeen(s', p)
  {
    hide Seen, FramesOk, MemberSeen, Distinct, BroadcastOk, Log, Due;
    assert NewcomerSeen(s, p);
    var j := s.mpc.j;
    assert s.messages[..j + 1] == s.messages[..j] + [s.messages[j]];
    assert Lines(s.messages[..j + 1], false) == Lines(s.messages[..j], false) + [Line(s.messages[j], false)];
  }

  /** One member's view is untouched. */
  lemma SameView(s: State, s': State, x: nat)
    requires Inv(s) && x < |s.members| && s'.members == s.members && s'.peers == s.peers && s'.windows == s.windows
    requires var p := s.members[x].id; IsNewcomer(s, p) || (p in s.peers ==> Seen(s', p) == Seen(s, p))
    requires Log(s') == Log(s) && Due(s', x) == Due(s, x)
    ensures MemberSeen(s', x)
  {
    hide Lines, Seen, NewcomerSeen, Distinct;
    assert MemberSeen(s, x);
  }

  lemma ShareHistoryInv(s: State)
    requires Inv(s) && s.mpc.ShareHistory?
    ensures Inv(Do(s, MembersStep))
  {
    if s.mpc.j < |s.messages| {
      ReplayInv(s);
    } else {
      ReplayEndInv(s);
    }
  }

  lemma ReplayEndInv(s: State)
    requires Inv(s) && s.mpc.ShareHistory? && s.mpc.j >= |s.messages|
    ensures Inv(Do(s, MembersStep))
  {
    hide TakeMemberFrame, ShareMember, RegisterMember;
    hide DoMessages, OnlyLines, Find, MemberSeen, Distinct, Lines, Seen, NothingNew, Log, Due;
    var s' := Do(s, MembersStep);
    FramesSame(s, s');
    hide FramesOk;
    SilentMembersStep(s, s');
    QuietMembers(s, s');
    SeenSame(s, s');
    forall p | p in s'.peers && p !in s'.windows ensures NewcomerSeen(s', p) {
      assert NewcomerSeen(s, p);
    }
  }

  lemma RegisterFrames(s: State, s': State)
    requires FramesOk(s) && s.mpc.Register? && s'.mpc.Announce?
    requires s'.memberFrames == s.memberFrames && s'.peers == s.peers
    requires forall p :: p in s'.windows ==> p in s.windows || p == s.mpc.id
    ensures FramesOk(s')
  {
    assert IsNewcomer(s, s.mpc.id);
  }

  lemma RegisterInv(s: State)
    requires Inv(s) && s.mpc.Register?
    ensures Inv(Do(s, MembersStep))
  {
    hide TakeMemberFrame, ShareMember;
    hide DoMessages, OnlyLines, FramesOk, Seen, Find, NewcomerSeen, MemberSeen, Lines, Log, Due;
    var s' := Do(s, MembersStep);
    NewcomerIsNew(s);
    RegisterFrames(s, s');
    SeenSame(s, s');
    RegisteredSeen(s, s');
    forall x | 0 <= x < |s.members| ensures MemberSeen(s', x) && s.members[x].id != s.mpc.id {
      EarlierSeen(s, s', x);
    }
    forall p | p in s'.peers && p !in s'.windows ensures NewcomerSeen(s', p) {
      StillUnseen(s, s', p);
    }
  }

  lemma EarlierSeen(s: State, s': State, x: nat)
    requires x < |s.members| && MemberSeen(s, x) && s.mpc.Register? && s.mpc.id !in s.windows
    requires SameLog(s, s') && s'.peers == s.peers && s'.members[..] == s.members + [Member(s.mpc.nick, s.mpc.id, true)]
    requires forall p :: p in s.windows ==> p in s'.windows && s'.windows[p] == s.windows[p]
    requires forall q :: q in s.peers ==> Seen(s', q) == Seen(s, q)
    ensures MemberSeen(s', x) && s.members[x].id != s.mpc.id
  {
    LogSame(s, s');
    hide Seen, Lines, Log, Due;
    assert s'.members[x] == s.members[x];
  }

  lemma NewcomerIsNew(s: State)
    requires FramesOk(s) && s.mpc.Register?
    ensures IsNewcomer(s, s.mpc.id) && s.mpc.id in s.peers && s.mpc.id !in s.windows
  {
    assert IsNewcomer(s, s.mpc.id);
  }

  lemma StillUnseen(s: State, s': State, p: int)
    requires p in s.peers && p in s'.peers && NewcomerSeen(s, p) && !IsNewcomer(s, p)
    requires !IsNewcomer(s', p) && Seen(s', p) == Seen(s, p)
    ensures NewcomerSeen(s', p)
  {
    hide Seen, Lines;
  }

  /** At registration the replay becomes the history part of the newcomer's view; its live part is empty. */
  lemma RegisteredSeen(s: State, s': State)
    requires Inv(s) && s.mpc.Register? && s' == Do(s, MembersStep)
    ensures MemberSeen(s', |s.members|)
  {
    hide DoMessages, OnlyLines, Find, Distinct;
    NewcomerIsNew(s);
    hide FramesOk;
    assert NewcomerSeen(s, s.mpc.id);
    var n := |s.members|;
    SeenSame(s, s');
    hide Seen;
    assert Log(s')[..s.mpc.replayed] == s.messages[..s.mpc.replayed];
    assert Lines(Log(s')[Due(s', n)..Due(s', n)], true) == [];
  }

  lemma AnnounceInv(s: State)
    requires Inv(s) && s.mpc.Announce?
    ensures Inv(Do(s, MembersStep))
  {
    hide TakeMemberFrame, ShareMember, RegisterMember;
    hide DoMessages, OnlyLines, Find, Distinct, Lines, Seen, NothingNew, Log, Due, NewcomerSeen;
    var s' := Do(s, MembersStep);
    FramesSame(s, s');
    hide FramesOk;
    if s.mpc.i < |s.members| {
      assert MemberSeen(s, s.mpc.i);
      hide MemberSeen;
      NotingMembersStep(s, s', s.members[s.mpc.i].id, s.mpc.frame);
      QuietStep(s, s');
    } else {
      hide MemberSeen;
      SilentMembersStep(s, s');
      QuietStep(s, s');
    }
  }

  lemma ClosingInv(s: State)
    requires Inv(s) && s.mpc in {TestOnline, ClearMembers, RaiseFlag}
    ensures Inv(Do(s, MembersStep))
  {
    hide TakeMemberFrame, ShareMember, RegisterMember;
    hide DoMessages, OnlyLines, Find, Lines, Seen, NothingNew, Log, Due, NewcomerSeen, MemberSeen;
    var s' := Do(s, MembersStep);
    FramesSame(s, s');
    hide FramesOk;
    SilentMembersStep(s, s');
    if s.mpc == ClearMembers {
      SeenSame(s, s');
      NewcomersQuiet(s, s');
    } else {
      QuietStep(s, s');
    }
  }

  /** A step of the message thread that sends nothing. */
  lemma SilentStep(s: State, s': State)
    requires Inv(s)
    requires s'.members == s.members && s'.peers == s.peers && s'.inbox == s.inbox && s'.windows == s.windows
    requires s'.mpc == s.mpc && s'.memberFrames == s.memberFrames
    requires s.messages <= s'.messages && Log(s) <= Log(s')
    requires forall x :: 0 <= x < |s.members| ==> Due(s', x) == Due(s, x)
    requires s'.cpc.Broadcast? ==> s'.cpc.i == 0
    ensures Inv(s')
  {
    hide Seen, Lines, Log, Due, NewcomerSeen, FramesOk, MemberSeen, Distinct;
    SeenSame(s, s');
    FramesSame(s, s');
    MembersQuiet(s, s');
    NewcomersQuiet(s, s');
  }

  /** The message in flight becomes the last of the list. */
  lemma AppendInv(s: State)
    requires Inv(s) && s.cpc.Append?
    ensures Inv(DoMessages(s))
  {
    hide TakeChatFrame;
    hide Inv, MutexFree;
    SilentStep(s, DoMessages(s));
  }

  lemma BroadcastEndInv(s: State)
    requires Inv(s) && s.cpc.Broadcast? && s.cpc.i >= |s.members|
    ensures Inv(DoMessages(s))
  {
    hide TakeChatFrame;
    hide Inv, MutexFree;
    SilentStep(s, DoMessages(s));
  }

  lemma TestFlagInv(s: State)
    requires Inv(s) && s.cpc.TestFlag?
    ensures Inv(DoMessages(s))
  {
    hide TakeChatFrame;
    hide Inv, MutexFree;
    SilentStep(s, DoMessages(s));
  }

  lemma ListenInv(s: State)
    requires Inv(s) && s.cpc.Listen? && s.chatFrames != []
    ensures Inv(TakeChatFrame(s))
  {
    ListenLog(s);
    var s' := TakeChatFrame(s);
    assert s'.cpc.Broadcast? ==> s'.cpc.i == 0;
    hide Inv, Log, Due, Inbox, AfterFrame;
    SilentStep(s, s');
  }

  /** A received message is in flight, and not due to anybody yet. */
  lemma ListenLog(s: State)
    requires s.cpc.Listen? && s.chatFrames != []
    ensures Log(s) <= Log(TakeChatFrame(s)) && forall x: nat :: Due(TakeChatFrame(s), x) == Due(s, x)
  {
    var s' := TakeChatFrame(s);
    assert s'.messages == s.messages && !s'.cpc.Append? && (s'.cpc.Broadcast? ==> s'.cpc.i == 0);
    hide TakeChatFrame;
    forall x: nat ensures Due(s', x) == Due(s, x) {
    }
  }

  /** Testing the flag, receiving a frame, giving up a finished broadcast, and appending the message. */
  lemma MessagesQuietInv(s: State)
    requires Inv(s) && Enabled(s, MessagesStep) && (s.cpc.Broadcast? ==> s.cpc.i >= |s.members|)
    ensures Inv(Do(s, MessagesStep))
  {
    hide DoMembers, Inv, TakeChatFrame, Put, MutexFree;
    match s.cpc
    case Append(_) => AppendInv(s);
    case Broadcast(_, _) => BroadcastEndInv(s);
    case TestFlag => TestFlagInv(s);
    case Listen => ListenInv(s);
  }

  /** A live send lets exactly one member see the message in flight. */
  lemma LiveSendInv(s: State)
    requires Inv(s) && s.cpc.Broadcast? && s.cpc.i < |s.members|
    ensures Inv(Do(s, MessagesStep))
  {
    hide TakeChatFrame;
    hide DoMembers, OnlyLines, Find, Seen, FramesOk, Lines, NewcomerSeen;
    var s' := Do(s, MessagesStep);
    var m, i := s.cpc.message, s.cpc.i;
    assert MemberSeen(s, i);
    var id := s.members[i].id;
    SeenSame(Put(s, id, Line(m, true)), s');
    forall q | q in s.peers ensures Seen(s', q) == Seen(s, q) + if q == id then [Line(m, true)] else [] {
      PutSeen(s, id, Line(m, true), q);
    }
    FramesSame(s, s');
    LiveMemberSeen(s, s', i);
    forall x | 0 <= x < |s'.members| && x != i ensures MemberSeen(s', x) {
      assert s.members[x].id != id;
      hide Distinct, MemberSeen;
      SameView(s, s', x);
    }
    hide MemberSeen, Distinct;
    forall p | p in s'.peers && p !in s'.windows ensures NewcomerSeen(s', p) {
      SameNewcomer(s, s', p);
    }
  }

  lemma LiveMemberSeen(s: State, s': State, i: nat)
    requires i < |s.members| && MemberSeen(s, i) && s.cpc.Broadcast? && s.cpc.i == i
    requires s'.members == s.members && s'.peers == s.peers && s'.windows == s.windows && s'.messages == s.messages
    requires s'.cpc == s.cpc.(i := i + 1)
    requires Seen(s', s.members[i].id) == Seen(s, s.members[i].id) + [Line(s.cpc.message, true)]
    ensures MemberSeen(s', i)
  {
    hide Seen;
    var w := s.windows[s.members[i].id];
    var m := s.cpc.message;
    assert Log(s)[w.live..Due(s, i) + 1] == Log(s)[w.live..Due(s, i)] + [m];
    assert Lines(Log(s)[w.live..Due(s, i) + 1], true) == Lines(Log(s)[w.live..Due(s, i)], true) + [Line(m, true)];
  }

  lemma SameNewcomer(s: State, s': State, p: int)
    requires p in s.peers && p in s'.peers && NewcomerSeen(s, p) && Seen(s', p) == Seen(s, p)
    requires s'.mpc == s.mpc && s'.messages == s.messages
    ensures NewcomerSeen(s', p)
  {
    hide Seen, Lines;
  }

  lemma StepInv(s: State, a: Action)
    requires Inv(s) && Enabled(s, a)
    ensures Inv(Do(s, a))
  {
    hide Inv, Do;
    if a.MembersStep? {
      match s.mpc
      case Wait => WaitInv(s);
      case ShareMembers(_, _, _) => ShareMembersInv(s);
      case ShareHistory(_, _, _) => ShareHistoryInv(s);
      case Register(_, _, _) => RegisterInv(s);
      case Announce(_, _) => AnnounceInv(s);
      case _ => ClosingInv(s);
    } else if a.MessagesStep? {
      if s.cpc.Broadcast? && s.cpc.i < |s.members| {
        LiveSendInv(s);
      } else {
        MessagesQuietInv(s);
      }
    } else if a.Start? {
      StartInv(s, a.p, a.nick);
    } else {
      ClientStepInv(s, a);
    }
  }

  lemma {:induction false} ReachableInv(t: seq<State>, i: nat)
    requires Behavior(t) && i < |t|
    ensures Inv(t[i])
  {
    hide Inv, Do, Enabled, Init;
    if i == 0 {
      InitInv(t[0]);
    } else {
      ReachableInv(t, i - 1);
      assert Next(t[i - 1], t[i]);
      var a :| Enabled(t[i - 1], a) && t[i] == Do(t[i - 1], a);
      StepInv(t[i - 1], a);
    }
  }

  // ---------------------------------------------------------------- main results

  /**
   In every reachable state, what a registered client has received and will find in its queue is: as
   history, the messages before the end of its replay; then, live, the messages from its registration
   on, up to the last one it has had its turn for.  The two ranges do not overlap.
  */
  lemma SeenIsHistoryThenLive(t: seq<State>, i: nat, x: nat)
    requires Behavior(t) && i < |t| && x < |t[i].members|
    ensures var s, p := t[i], t[i].members[x].id;
            && p in s.peers && p in s.windows
            && s.windows[p].replayed <= s.windows[p].live <= Due(s, x) <= |s.messages| + 1
            && Seen(s, p) == Lines(Log(s)[..s.windows[p].replayed], false)
                             + Lines(Log(s)[s.windows[p].live..Due(s, x)], true)
  {
    hide Do, Enabled, NewcomerSeen, FramesOk, Distinct, Seen;
    ReachableInv(t, i);
    assert MemberSeen(t[i], x);
  }

  /** `at` maps each entry of `a` to a position of `b` that holds the same message, in strictly increasing order. */
  ghost predicate Embeds(a: seq<Item>, b: seq<Message>, at: seq<nat>) {
    && |at| == |a|
    && (forall k :: 0 <= k < |a| ==> at[k] < |b| && a[k].Line? && a[k].message == b[at[k]])
    && (forall k, l :: 0 <= k < l < |a| ==> at[k] < at[l])
  }

  lemma TwoRangesEmbed(log: seq<Message>, a: nat, b: nat, c: nat) returns (at: seq<nat>)
    requires a <= b <= c <= |log|
    ensures Embeds(Lines(log[..a], false) + Lines(log[b..c], true), log, at)
  {
    hide Lines;
    at := seq(a, k requires 0 <= k < a => k) + seq(c - b, k requires 0 <= k < c - b => b + k);
    var seen := Lines(log[..a], false) + Lines(log[b..c], true);
    forall k | 0 <= k < |seen| ensures seen[k].Line? && at[k] < |log| && seen[k].message == log[at[k]] {
      if k < a {
        assert seen[k] == Line(log[..a][k], false);
      } else {
        assert seen[k] == Line(log[b..c][k - a], true);
      }
    }
  }

  /** Nothing is seen twice or out of order: the view embeds into the list plus the message in flight. */
  lemma SeenIsASubsequence(t: seq<State>, i: nat, x: nat) returns (at: seq<nat>)
    requires Behavior(t) && i < |t| && x < |t[i].members|
    ensures t[i].members[x].id in t[i].peers
    ensures Embeds(Seen(t[i], t[i].members[x].id), Log(t[i]), at)
  {
    hide Seen, Do, Enabled, Lines, Embeds, Log, Due, Behavior;
    SeenIsHistoryThenLive(t, i, x);
    var s := t[i];
    var w := s.windows[s.members[x].id];
    at := TwoRangesEmbed(Log(s), w.replayed, w.live, Due(s, x));
  }

  // ---------------------------------------------------------------- the windows in terms of the run

  /** Step `k` of the run appends a message to the list. */
  predicate Appends(t: seq<State>, k: nat)
    requires k + 1 < |t|
  {
    t[k].cpc.Append? && !t[k + 1].cpc.Append?
  }

  lemma OneStepAppends(s: State, s': State)
    requires Next(s, s')
    ensures |s'.messages| == |s.messages| + if s.cpc.Append? && !s'.cpc.Append? then 1 else 0
  {
    hide DoMembers, DoMessages, Do, Enabled;
    var a :| Enabled(s, a) && s' == Do(s, a);
    if a.MembersStep? {
      assert Do(s, a) == DoMembers(s) by { DoIs(s, a); }
      MembersKeepLog(s);
    } else if a.MessagesStep? {
      assert Do(s, a) == DoMessages(s) by { DoIs(s, a); }
      MessagesStepAppends(s);
    } else {
      ClientsKeepLog(s, a);
    }
  }

  lemma DoIs(s: State, a: Action)
    requires Enabled(s, a)
    ensures a.MembersStep? ==> Do(s, a) == DoMembers(s)
    ensures a.MessagesStep? ==> Do(s, a) == DoMessages(s)
  {
    hide DoMembers, DoMessages, OnlyLines, OnlyNotes;
  }

  lemma ClientsKeepLog(s: State, a: Action)
    requires Enabled(s, a) && !a.MembersStep? && !a.MessagesStep?
    ensures SameLog(s, Do(s, a))
  {
    hide DoMembers, DoMessages, OnlyLines, OnlyNotes, Inbox;
  }

  lemma MembersKeepLog(s: State)
    requires Enabled(s, MembersStep)
    ensures SameLog(s, DoMembers(s))
  {
    hide Find, Due, Inbox;
    forall p, item ensures SameLog(s, Put(s, p, item)) {
    }
    hide Put;
    match s.mpc
    case Wait => hide ShareMember, RegisterMember;
    case ShareMembers(_, _, _) => hide TakeMemberFrame, RegisterMember;
    case _ => hide TakeMemberFrame, ShareMember;
  }

  lemma MessagesStepAppends(s: State)
    requires Enabled(s, MessagesStep)
    ensures |DoMessages(s).messages| == |s.messages| + if s.cpc.Append? then 1 else 0
    ensures s.cpc.Append? ==> !DoMessages(s).cpc.Append?
  {
  }

  lemma {:induction false} MessagesGrow(t: seq<State>, a: nat, b: nat)
    requires Behavior(t) && a <= b < |t|
    ensures |t[a].messages| <= |t[b].messages|
    ensures |t[a].messages| == |t[b].messages| <==> forall k :: a <= k < b ==> !Appends(t, k)
    decreases b
  {
    hide Next;
    if a < b {
      MessagesGrow(t, a, b - 1);
      assert Next(t[b - 1], t[b]);
      OneStepAppends(t[b - 1], t[b]);
      assert |t[b].messages| == |t[b - 1].messages| + if Appends(t, b - 1) then 1 else 0;
      hide Appends;
    }
  }

  /** The step that ends a replay finds nothing more to send, and registration waits for its turn since then. */
  ghost predicate EndsReplay(t: seq<State>, a: nat, b: nat)
    requires a < b < |t|
  {
    && t[a].mpc.ShareHistory? && t[a].mpc.j == |t[a].messages|
    && t[b].mpc == Register(t[a].mpc.nick, t[a].mpc.id, |t[a].messages|)
    && forall k :: a < k <= b ==> t[k].mpc == t[b].mpc
  }

  /** Only the membership thread moves its own program counter and records windows. */
  lemma OthersKeepMembersPc(s: State, a: Action)
    requires Enabled(s, a) && !a.MembersStep?
    ensures Do(s, a).mpc == s.mpc && Do(s, a).windows == s.windows
  {
    hide DoMembers, OnlyLines, OnlyNotes;
    if a.MessagesStep? {
      MessagesKeepMembersPc(s);
    } else {
      hide DoMessages;
    }
  }

  lemma MessagesKeepMembersPc(s: State)
    requires Enabled(s, MessagesStep)
    ensures DoMessages(s).mpc == s.mpc && DoMessages(s).windows == s.windows
  {
    hide Inbox, MutexFree;
    match s.cpc
    case Listen => hide Put;
    case _ => hide TakeChatFrame;
  }

  lemma WaitingForRegister(s: State)
    requires Enabled(s, MembersStep) && !s.mpc.ShareHistory?
    ensures !DoMembers(s).mpc.Register?
  {
    hide Find, Due, Put, Inbox, Log;
    match s.mpc
    case Wait => hide ShareMember, RegisterMember;
    case ShareMembers(_, _, _) => hide TakeMemberFrame, RegisterMember;
    case _ => hide TakeMemberFrame, ShareMember;
  }

  lemma StepToRegister(s: State)
    requires Enabled(s, MembersStep) && s.mpc.ShareHistory? && DoMembers(s).mpc.Register?
    ensures s.mpc.j >= |s.messages|
    ensures DoMembers(s).mpc == Register(s.mpc.nick, s.mpc.id, s.mpc.j)
  {
    hide Find, Due, Put, Inbox, Log;
  }

  lemma OneStepToRegister(s: State, s': State)
    requires Inv(s) && Next(s, s') && s'.mpc.Register? && s.mpc != s'.mpc
    ensures s.mpc.ShareHistory? && s.mpc.j == |s.messages|
    ensures s'.mpc == Register(s.mpc.nick, s.mpc.id, |s.messages|)
  {
    hide DoMembers, DoMessages, Inv, Enabled;
    var a :| Enabled(s, a) && s' == Do(s, a);
    if a.MembersStep? {
      if !s.mpc.ShareHistory? {
        WaitingForRegister(s);
      }
      StepToRegister(s);
      NewcomerReplay(s);
    } else {
      OthersKeepMembersPc(s, a);
    }
  }

  lemma NewcomerReplay(s: State)
    requires Inv(s) && s.mpc.ShareHistory?
    ensures s.mpc.j <= |s.messages|
  {
    hide Seen, MemberSeen, Distinct, Lines;
    assert IsNewcomer(s, s.mpc.id);
    assert NewcomerSeen(s, s.mpc.id);
  }

  lemma {:induction false} ReplayEnd(t: seq<State>, b: nat) returns (a: nat)
    requires Behavior(t) && b < |t| && t[b].mpc.Register?
    ensures a < b && EndsReplay(t, a, b)
  {
    hide Next, Inv;
    assert b > 0;
    assert Next(t[b - 1], t[b]);
    if t[b - 1].mpc == t[b].mpc {
      a := ReplayEnd(t, b - 1);
    } else {
      ReachableInv(t, b - 1);
      OneStepToRegister(t[b - 1], t[b]);
      a := b - 1;
    }
  }

  /** Step `b` registers `p` with the window it is recorded with. */
  ghost predicate Registers(t: seq<State>, b: nat, p: int, w: Window)
    requires b + 1 < |t|
  {
    && t[b].mpc.Register? && t[b].mpc.id == p && t[b + 1].mpc == Announce(Join(t[b].mpc.nick, p), 0)
    && w == Window(t[b].mpc.replayed, |t[b].messages| + if t[b].cpc.Append? then 1 else 0)
  }

  lemma StepToWindow(s: State)
    requires Enabled(s, MembersStep) && BroadcastOk(s)
    ensures !s.mpc.Register? ==> DoMembers(s).windows == s.windows
    ensures s.mpc.Register? ==>
              && DoMembers(s).mpc == Announce(Join(s.mpc.nick, s.mpc.id), 0)
              && DoMembers(s).windows == s.windows[s.mpc.id :=
                   Window(s.mpc.replayed, |s.messages| + if s.cpc.Append? then 1 else 0)]
  {
    hide Find, Inbox;
    if s.mpc.Register? {
      hide Put;
    } else {
      hide Due;
      forall p, item ensures Put(s, p, item).windows == s.windows {
      }
      hide Put;
    }
  }

  lemma OneStepToWindow(s: State, s': State, p: int)
    requires Inv(s) && Next(s, s') && p in s'.windows && !(p in s.windows && s.windows[p] == s'.windows[p])
    ensures s.mpc.Register? && s.mpc.id == p && s'.mpc == Announce(Join(s.mpc.nick, p), 0)
    ensures s'.windows[p] == Window(s.mpc.replayed, |s.messages| + if s.cpc.Append? then 1 else 0)
  {
    assert BroadcastOk(s);
    hide DoMembers, DoMessages, Inv, Enabled;
    var a :| Enabled(s, a) && s' == Do(s, a);
    if a.MembersStep? {
      StepToWindow(s);
    } else {
      OthersKeepMembersPc(s, a);
    }
  }

  lemma {:induction false} Registration(t: seq<State>, i: nat, p: int) returns (b: nat)
    requires Behavior(t) && i < |t| && p in t[i].windows
    ensures b < i && Registers(t, b, p, t[i].windows[p])
  {
    hide Next, Inv;
    assert i > 0;
    assert Next(t[i - 1], t[i]);
    if p in t[i - 1].windows && t[i - 1].windows[p] == t[i].windows[p] {
      b := Registration(t, i - 1, p);
    } else {
      ReachableInv(t, i - 1);
      OneStepToWindow(t[i - 1], t[i], p);
      b := i - 1;
    }
  }

  /**
   A client has seen everything it is due exactly when, from the step that ended its replay to the step
   that registered it, no message was appended, and at its registration none had been sent to everybody
   and not yet appended.
  */
  lemma CompleteIffNothingFellBetween(t: seq<State>, i: nat, x: nat) returns (a: nat, b: nat)
    requires Behavior(t) && i < |t| && x < |t[i].members|
    ensures a < b < i && EndsReplay(t, a, b) && t[a].mpc.id == t[i].members[x].id && t[b + 1].mpc.Announce?
    ensures var s, p := t[i], t[i].members[x].id;
            && p in s.peers
            && (|Seen(s, p)| == Due(s, x) <==> (forall k :: a <= k < b ==> !Appends(t, k)) && !t[b].cpc.Append?)
            && (|Seen(s, p)| == Due(s, x) ==>
                  forall k :: 0 <= k < Due(s, x) ==>
                    k < |Seen(s, p)| && Seen(s, p)[k].Line? && Seen(s, p)[k].message == Log(s)[k])
  {
    hide Seen, Log, Due, Lines, Behavior, EndsReplay;
    SeenIsHistoryThenLive(t, i, x);
    var s, p := t[i], t[i].members[x].id;
    b := Registration(t, i, p);
    a := ReplayEnd(t, b);
    ReplayOf(t, a, b);
    MessagesGrow(t, a, b);
    RangesCover(Log(s), s.windows[p].replayed, s.windows[p].live, Due(s, x));
  }

  lemma ReplayOf(t: seq<State>, a: nat, b: nat)
    requires a < b < |t| && EndsReplay(t, a, b)
    ensures t[b].mpc.Register? && t[a].mpc.ShareHistory? && t[a].mpc.id == t[b].mpc.id
    ensures t[b].mpc.replayed == |t[a].messages|
  {
  }

  lemma RangesCover(log: seq<Message>, a: nat, b: nat, c: nat)
    requires a <= b <= c <= |log|
    ensures var seen := Lines(log[..a], false) + Lines(log[b..c], true);
            && (|seen| == c <==> a == b)
            && (a == b ==> forall k :: 0 <= k < c ==> seen[k].Line? && seen[k].message == log[k])
  {
    hide Lines;
  }

  /** The state in which pid 7 has been replayed the empty list but is not registered yet. */
  function AfterReplay(nick: string): State {
    State([], [], 0, false, Register(nick, 7, 0), TestFlag, [], [], map[], map[7 := Peer(Reading, [], [])], map[])
  }

  lemma ReplayOfNothing(nick: string) returns (t: seq<State>)
    ensures Behavior(t) && t != [] && t[|t| - 1] == AfterReplay(nick)
  {
    var s0 := State([], [], 0, false, Wait, TestFlag, [], [], map[], map[], map[]);
    var s1 := Do(s0, Start(7, nick));
    var s2 := Do(s1, MembersStep);
    var s3 := Do(s2, MembersStep);
    var s4 := Do(s3, MembersStep);
    assert s4 == AfterReplay(nick);
    t := [s0, s1, s2, s3, s4];
    assert Next(s0, s1) && Next(s1, s2) && Next(s2, s3) && Next(s3, s4);
  }

  lemma Extend(t: seq<State>, a: Action) returns (t': seq<State>)
    requires Behavior(t) && t != [] && Enabled(t[|t| - 1], a)
    ensures Behavior(t') && t' != [] && t'[|t'| - 1] == Do(t[|t| - 1], a)
  {
    hide Do, Enabled, Init;
    var s' := Do(t[|t| - 1], a);
    assert Next(t[|t| - 1], s');
    t' := t + [s'];
  }

  /**
   The loss is real: a client can be registered and reading, with nothing pending and nothing in flight,
   and still lack a message that is in the server's list.
  */
  lemma AMessageCanBeMissed(nick: string, line: string) returns (t: seq<State>)
    ensures Behavior(t) && t != []
    ensures var s := t[|t| - 1];
            && |s.members| == 1 && s.members[0].id == 7 && InPhase(s, 7, Reading)
            && s.messages == [Message(line, 7)] && Log(s) == s.messages && Due(s, 0) == 1
            && Seen(s, 7) == []
  {
    var r := ReplayOfNothing(nick);
    hide Behavior;
    r := Extend(r, Say(7, line));
    r := Extend(r, MessagesStep);
    r := Extend(r, MessagesStep);
    r := Extend(r, MessagesStep);
    assert r[|r| - 1] == AfterReplay(nick).(cpc := Append(Message(line, 7)));
    r := Extend(r, MembersStep);
    t := Extend(r, MessagesStep);
    assert t[|t| - 1].messages == [Message(line, 7)];
    NothingSeen(t[|t| - 1], 7);
  }
}
