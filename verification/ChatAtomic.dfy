/**
 The chat as a transition system in which every handler body is one step.

 Main result: whatever the interleaving of these steps, the replica of a registered client that still reads,
 once its pending frames are absorbed, holds exactly the server's messages and the server's
 online members, in order; no leave frame ever misses its target.
 Pids are distinct (a pid starts at most once) and greater than 2, the two reserved types.
*/
module ChatAtomic {
  import opened ChatCodec
  import opened ChatServer
  import opened ChatClient
  import opened ChatMirror

  datatype Peer = Peer(nick: string, phase: Phase, replica: Replica)

  /** The message thread: about to test `exit_flag`, blocked in `msgrcv`, or ended. */
  datatype Listener = Testing | Receiving | Ended

  datatype World = World(core: Core, listener: Listener, peers: map<int, Peer>)

  datatype Action =
    | Start(p: int, nick: string)
    | Say(p: int, line: string)
    | Quit(p: int)
    | SendLeave(p: int)
    | SendPoll(p: int)
    | Receive(p: int)
    | ServeMember
    | TestFlag
    | ServeMessage

  ghost predicate Init(w: World) {
    w == World(Core([], [], 0, true, false, false, map[]), Testing, map[])
  }

  predicate InPhase(w: World, p: int, phase: Phase) {
    p in w.peers && w.peers[p].phase == phase
  }

  predicate Enabled(w: World, a: Action) {
    match a
    case Start(p, nick) => p !in w.peers && p > 2 && GoodNick(nick)
    case Say(p, line) => InPhase(w, p, Reading) && GoodLine(line) && line != EXIT_LINE
    case Quit(p) => InPhase(w, p, Reading)
    case SendLeave(p) => InPhase(w, p, Silent)
    case SendPoll(p) => InPhase(w, p, Left)
    case Receive(p) => InPhase(w, p, Reading) && Box(w.core.mq, p) != []
    case ServeMember => w.core.running && !w.core.fault && Box(w.core.mq, 1) != []
    case TestFlag => w.listener == Testing
    case ServeMessage => w.listener == Receiving && !w.core.fault && Box(w.core.mq, 2) != []
  }

  function Post(w: World, mtype: int, text: string): World {
    w.(core := w.core.(mq := Send(w.core.mq, mtype, text)))
  }

  function SetPhase(w: World, p: int, phase: Phase): World
    requires p in w.peers
  {
    w.(peers := w.peers[p := w.peers[p].(phase := phase)])
  }

  function Do(w: World, a: Action): World
    requires Enabled(w, a)
  {
    match a
    case Start(p, nick) =>
      Post(w.(peers := w.peers[p := Peer(nick, Reading, EMPTY)]), 1, SendMessageText(nick, 1, 1, p))
    case Say(p, line) => Post(w, 2, SendMessageText(line, 2, 3, p))
    case Quit(p) => Post(SetPhase(w, p, Silent), p, SendMessageText(EXIT_LINE, p, 3, p))
    case SendLeave(p) => Post(SetPhase(w, p, Left), 1, SendMessageText(w.peers[p].nick, 1, 0, p))
    case SendPoll(p) => Post(SetPhase(w, p, Gone), 2, SendMessageText(w.peers[p].nick, 2, 4, p))
    case Receive(p) =>
      var peer := w.peers[p];
      World(w.core.(mq := Pop(w.core.mq, p)), w.listener,
            w.peers[p := peer.(replica := Absorb(peer.replica, Box(w.core.mq, p)[0]))])
    case ServeMember => w.(core := HandleMember(w.core.(mq := Pop(w.core.mq, 1)), Box(w.core.mq, 1)[0]))
    case TestFlag => w.(listener := if w.core.exitFlag then Ended else Receiving)
    case ServeMessage =>
      var text := Box(w.core.mq, 2)[0];
      World(HandleMessage(w.core.(mq := Pop(w.core.mq, 2)), text),
            if ParseChat(text).Poll? && |w.core.members| <= 0 then Ended else Testing,
            w.peers)
  }

  ghost predicate Next(w: World, w': World) {
    exists a :: Enabled(w, a) && w' == Do(w, a)
  }

  ghost predicate Behavior(t: seq<World>) {
    t != [] && Init(t[0]) && forall i :: 0 <= i < |t| - 1 ==> Next(t[i], t[i + 1])
  }

  // ---------------------------------------------------------------- the invariant

  /** What the peer's replica will be when it has absorbed everything pending. */
  ghost function Drained(w: World, p: int): Replica
    requires p in w.peers
  {
    AbsorbAll(w.peers[p].replica, Box(w.core.mq, p))
  }

  predicate Announced(peer: Peer) {
    peer.phase == Reading || peer.phase == Silent
  }

  ghost predicate PeersMatch(ms: seq<Member>, peers: map<int, Peer>) {
    && (forall p :: Has(ms, p) <==> p in peers)
    && (forall p :: p in peers ==> (IsOnline(ms, p) <==> Announced(peers[p])))
  }

  /**
   The server's list is well formed, the counter counts, and the pending announcements turn it into
   the list of all peers.
  */
  ghost predicate MembersOk(w: World) {
    if w.core.running then
      && Distinct(w.core.members)
      && (forall k :: 0 <= k < |w.core.members| ==> w.core.members[k].id > 2 && GoodNick(w.core.members[k].nick))
      && w.core.online == |Online(w.core.members)|
      && QueueOk(w.core.members, Box(w.core.mq, 1))
      && PeersMatch(AdmitAll(w.core.members, Box(w.core.mq, 1)), w.peers)
    else
      w.core.members == []
  }

  ghost predicate MessageOk(m: Message) {
    GoodLine(m.line) && m.line != EXIT_LINE
  }

  ghost predicate ChatTextOk(text: string) {
    var f := ParseChat(text);
    f.Poll? || (f.Chat? && MessageOk(Message(f.line, f.id)) && ParseClient(text) == f)
  }

  ghost predicate MessagesOk(w: World) {
    && (forall k :: 0 <= k < |w.core.messages| ==> MessageOk(w.core.messages[k]))
    && (forall text :: text in Box(w.core.mq, 2) ==> ChatTextOk(text))
  }

  ghost predicate PeerOk(w: World, p: int)
    requires p in w.peers
  {
    && p > 2
    && GoodNick(w.peers[p].nick)
    && w.peers[p].replica.status == Running
    && (w.peers[p].phase == Reading ==>
          if Has(w.core.members, p) then Mirrors(Drained(w, p), w.core.members, w.core.messages)
          else Box(w.core.mq, p) == [] && w.peers[p].replica == EMPTY)
  }

  ghost predicate Inv(w: World) {
    && !w.core.fault
    && MembersOk(w)
    && MessagesOk(w)
    && (forall p :: p in w.peers ==> PeerOk(w, p))
    && (forall t :: t > 2 && t !in w.peers ==> Box(w.core.mq, t) == [])
  }

  /** Every registered member is a peer; a registered peer that has not announced its leave is online. */
  lemma RegisteredArePeers(w: World, p: int)
    requires MembersOk(w) && Has(w.core.members, p)
    ensures p in w.peers
    ensures Announced(w.peers[p]) ==> IsOnline(w.core.members, p)
  {
    hide Find, FrameOk, Admit;
    if w.core.running {
      OnlineBackwards(w.core.members, Box(w.core.mq, 1));
    }
  }

  lemma InitInv(w: World)
    requires Init(w)
    ensures Inv(w)
  {
  }

  // ---------------------------------------------------------------- the clients' own steps

  /** A peer that is not touched stays good when its box and the server's lists stay the same. */
  lemma Untouched(w: World, w': World, p: int)
    requires p in w.peers && PeerOk(w, p) && p in w'.peers && w'.peers[p] == w.peers[p]
    requires Box(w'.core.mq, p) == Box(w.core.mq, p)
    requires w'.core.members == w.core.members && w'.core.messages == w.core.messages
    ensures PeerOk(w', p)
  {
    hide Mirrors, AbsorbAll, Has, GoodNick;
  }

  /** Posting one announcement that can be handled when its turn comes. */
  lemma AnnouncementOk(w: World, w': World, text: string)
    requires MembersOk(w)
    requires w'.core == w.core.(mq := Send(w.core.mq, 1, text))
    requires var ms := AdmitAll(w.core.members, Box(w.core.mq, 1));
             w.core.running ==> FrameOk(ms, text) && PeersMatch(Admit(ms, text), w'.peers)
    ensures MembersOk(w')
  {
    hide Online, FrameOk, Admit, PeersMatch, GoodNick;
    if w.core.running {
      QueueSnoc(w.core.members, Box(w.core.mq, 1), text);
    }
  }

  lemma StartInv(w: World, p: int, nick: string)
    requires Inv(w) && Enabled(w, Start(p, nick))
    ensures Inv(Do(w, Start(p, nick)))
  {
    hide ParseMember, ParseClient, ParseChat, SendMessageText, Online, Mirrors, FrameOk, Admit, Find, AbsorbAll,
      PeersMatch, Has, QueueOk, AdmitAll;
    var w' := Do(w, Start(p, nick));
    if w.core.running {
      StartPeers(AdmitAll(w.core.members, Box(w.core.mq, 1)), w.peers, w'.peers, p, nick);
    }
    AnnouncementOk(w, w', SendMessageText(nick, 1, 1, p));
    if Has(w.core.members, p) {
      RegisteredArePeers(w, p);
    }
    hide MembersOk;
    forall r | r in w'.peers && r != p ensures PeerOk(w', r) {
      Untouched(w, w', r);
    }
  }

  /** A new peer and its announcement keep the pending list in step with the peers. */
  lemma StartPeers(ms: seq<Member>, peers: map<int, Peer>, peers': map<int, Peer>, p: int, nick: string)
    requires PeersMatch(ms, peers) && p !in peers && p > 2 && GoodNick(nick)
    requires peers' == peers[p := Peer(nick, Reading, EMPTY)]
    ensures FrameOk(ms, SendMessageText(nick, 1, 1, p))
    ensures PeersMatch(Admit(ms, SendMessageText(nick, 1, 1, p)), peers')
  {
    hide SendMessageText, Has, IsOnline, FrameOk, Admit;
    NewcomerFrame(ms, nick, p);
    forall r ensures Has(ms + [Member(nick, p, true)], r) <==> r in peers' {
      HasSnoc(ms, Member(nick, p, true), r);
    }
    forall r | r in peers' ensures IsOnline(ms + [Member(nick, p, true)], r) <==> Announced(peers'[r]) {
      OnlineSnoc(ms, Member(nick, p, true), r);
    }
  }

  lemma NewcomerFrame(ms: seq<Member>, nick: string, p: int)
    requires !Has(ms, p) && p > 2 && GoodNick(nick)
    ensures FrameOk(ms, SendMessageText(nick, 1, 1, p))
    ensures Admit(ms, SendMessageText(nick, 1, 1, p)) == ms + [Member(nick, p, true)]
  {
    hide ParseMember, MemberText;
    JoinRoundTrip(nick, p);
  }

  lemma OnlineAfterOff(ms: seq<Member>, k: nat, id: int)
    requires Distinct(ms) && k < |ms|
    ensures IsOnline(ms[k := ms[k].(online := false)], id) <==> IsOnline(ms, id) && id != ms[k].id
  {
    hide Find;
    var ms' := ms[k := ms[k].(online := false)];
    assert forall j :: 0 <= j < |ms| ==> ms'[j].id == ms[j].id;
  }

  lemma SayInv(w: World, p: int, line: string)
    requires Inv(w) && Enabled(w, Say(p, line))
    ensures Inv(Do(w, Say(p, line)))
  {
    hide ParseMember, ParseClient, ParseChat, SendMessageText, Online, Mirrors, FrameOk, Admit, Find, AbsorbAll,
      Distinct, PeersMatch, QueueOk, AdmitAll;
    var w' := Do(w, Say(p, line));
    ChatRoundTrip(line, p);
    forall r | r in w'.peers ensures PeerOk(w', r) {
      Untouched(w, w', r);
    }
  }

  lemma QuitInv(w: World, p: int)
    requires Inv(w) && Enabled(w, Quit(p))
    ensures Inv(Do(w, Quit(p)))
  {
    hide ParseMember, ParseClient, ParseChat, SendMessageText, Online, Mirrors, FrameOk, Admit, Find, AbsorbAll,
      Distinct, QueueOk, AdmitAll;
    var w' := Do(w, Quit(p));
    assert PeerOk(w, p);
    forall r | r in w'.peers && r != p ensures PeerOk(w', r) {
      Untouched(w, w', r);
    }
  }

  lemma SendLeaveInv(w: World, p: int)
    requires Inv(w) && Enabled(w, SendLeave(p))
    ensures Inv(Do(w, SendLeave(p)))
  {
    hide ParseMember, ParseClient, ParseChat, SendMessageText, Online, Mirrors, Find, AbsorbAll, AdmitAll, QueueOk;
    var w' := Do(w, SendLeave(p));
    var text := SendMessageText(w.peers[p].nick, 1, 0, p);
    assert PeerOk(w, p);
    LeaveRoundTrip(w.peers[p].nick, p);
    if w.core.running {
      var ms := AdmitAll(w.core.members, Box(w.core.mq, 1));
      OnlineBackwards(w.core.members, Box(w.core.mq, 1));
      forall r ensures Has(Admit(ms, text), r) <==> Has(ms, r) {
        HasAfterLeave(ms, Find(ms, p), r);
      }
      forall r ensures IsOnline(Admit(ms, text), r) <==> IsOnline(ms, r) && r != p {
        OnlineAfterOff(ms, Find(ms, p), r);
      }
    }
    AnnouncementOk(w, w', text);
    forall r | r in w'.peers && r != p ensures PeerOk(w', r) {
      Untouched(w, w', r);
    }
  }

  lemma SendPollInv(w: World, p: int)
    requires Inv(w) && Enabled(w, SendPoll(p))
    ensures Inv(Do(w, SendPoll(p)))
  {
    hide ParseMember, ParseClient, ParseChat, SendMessageText, Online, Mirrors, FrameOk, Admit, Find, AbsorbAll,
      Distinct, QueueOk, AdmitAll;
    var w' := Do(w, SendPoll(p));
    assert PeerOk(w, p);
    PollRoundTrip(w.peers[p].nick, p);
    forall r | r in w'.peers && r != p ensures PeerOk(w', r) {
      Untouched(w, w', r);
    }
  }

  lemma ReceiveInv(w: World, p: int)
    requires Inv(w) && Enabled(w, Receive(p))
    ensures Inv(Do(w, Receive(p)))
  {
    hide ParseMember, ParseClient, ParseChat, Online, FrameOk, Admit, Find, AbsorbAll, Absorb, Distinct, QueueOk,
      AdmitAll;
    var w' := Do(w, Receive(p));
    assert PeerOk(w, p);
    AbsorbFirst(w.peers[p].replica, Box(w.core.mq, p));
    StillRunning(w.peers[p].replica, Box(w.core.mq, p));
    forall r | r in w'.peers && r != p ensures PeerOk(w', r) {
      Untouched(w, w', r);
    }
  }

  // ---------------------------------------------------------------- the server's steps

  /** Appending one text to a drained box absorbs that text last. */
  lemma DrainedSnoc(w: World, w': World, p: int, text: string)
    requires p in w.peers && p in w'.peers && w'.peers[p] == w.peers[p]
    requires Box(w'.core.mq, p) == Box(w.core.mq, p) + [text]
    ensures Drained(w', p) == Absorb(Drained(w, p), text)
  {
    hide Absorb;
    assert (Box(w.core.mq, p) + [text])[..|Box(w.core.mq, p)|] == Box(w.core.mq, p);
  }

  /** The reserved types are no member's pid, so a broadcast leaves the server's own queues alone. */
  lemma ReservedBoxes(w: World, t: int)
    requires MembersOk(w) && t <= 2
    ensures !Has(w.core.members, t)
  {
    hide FrameOk, Admit, AdmitAll, QueueOk, Online, PeersMatch, GoodNick;
  }

  lemma SameMembersOk(w: World, w': World)
    requires MembersOk(w) && w'.peers == w.peers && Box(w'.core.mq, 1) == Box(w.core.mq, 1)
    requires w'.core.members == w.core.members && w'.core.online == w.core.online && w'.core.running == w.core.running
    ensures MembersOk(w')
  {
    hide Distinct, Online, GoodNick, QueueOk, AdmitAll, PeersMatch;
  }

  lemma MoreMessagesOk(w: World, w': World, text: string)
    requires MessagesOk(w) && ChatTextOk(text) && ParseChat(text).Chat?
    requires w'.core.messages == w.core.messages + [Message(ParseChat(text).line, ParseChat(text).id)]
    requires forall x :: x in Box(w'.core.mq, 2) ==> x in Box(w.core.mq, 2)
    ensures MessagesOk(w')
  {
    hide MessageOk, ParseChat, ParseClient;
  }

  lemma ServeMessageInv(w: World)
    requires Inv(w) && Enabled(w, ServeMessage)
    ensures Inv(Do(w, ServeMessage))
  {
    hide ParseMember, ParseClient, ParseChat, Online, FrameOk, Admit, Find, AbsorbAll, QueueOk, AdmitAll, Broadcast,
      GoodLine, GoodNick, Has, Mirrors, PeersMatch, Absorb;
    var w' := Do(w, ServeMessage);
    var text := Box(w.core.mq, 2)[0];
    assert ChatTextOk(text);
    if ParseChat(text).Chat? {
      ServeChatInv(w, w', text);
    } else {
      forall p | p in w'.peers ensures PeerOk(w', p) {
        Untouched(w, w', p);
      }
    }
  }

  lemma ServeChatInv(w: World, w': World, text: string)
    requires Inv(w) && Box(w.core.mq, 2) != [] && text == Box(w.core.mq, 2)[0]
    requires ChatTextOk(text) && ParseChat(text).Chat? && w'.peers == w.peers
    requires w'.core == w.core.(mq := Broadcast(Pop(w.core.mq, 2), w.core.members, text),
                                messages := w.core.messages + [Message(ParseChat(text).line, ParseChat(text).id)])
    ensures Inv(w')
  {
    hide ParseMember, ParseClient, ParseChat, Online, FrameOk, Admit, Find, AbsorbAll, QueueOk, AdmitAll, Broadcast,
      GoodLine, GoodNick, Has, Mirrors, PeersMatch, Absorb;
    ChatBoxes(w, text);
    hide Pop;
    forall p | p in w'.peers ensures PeerOk(w', p) {
      MessagePeer(w, w', text, p);
    }
    hide PeerOk;
    SameMembersOk(w, w');
    MoreMessagesOk(w, w', text);
    forall t | Has(w.core.members, t) ensures t in w.peers {
      RegisteredArePeers(w, t);
    }
  }

  /** A served line goes to the registered members' queues and changes no other but its own. */
  lemma ChatBoxes(w: World, text: string)
    requires Inv(w) && Box(w.core.mq, 2) != []
    ensures var mq' := Broadcast(Pop(w.core.mq, 2), w.core.members, text);
            && Box(mq', 1) == Box(w.core.mq, 1)
            && Box(mq', 2) == Box(w.core.mq, 2)[1..]
            && forall t :: t > 2 ==> Box(mq', t) == Box(w.core.mq, t) + if Has(w.core.members, t) then [text] else []
  {
    hide Broadcast, Has, PeerOk, MessagesOk, Online, GoodNick, QueueOk, AdmitAll, PeersMatch;
    assert Distinct(w.core.members);
    var mq := Pop(w.core.mq, 2);
    var mq' := Broadcast(mq, w.core.members, text);
    forall t ensures Box(mq', t) == Box(mq, t) + if Has(w.core.members, t) then [text] else [] {
      BroadcastBox(mq, w.core.members, text, t);
    }
    ReservedBoxes(w, 1);
    ReservedBoxes(w, 2);
    hide MembersOk;
    assert forall t :: t != 2 ==> Box(mq, t) == Box(w.core.mq, t);
  }

  lemma MessagePeer(w: World, w': World, text: string, p: int)
    requires p in w.peers && PeerOk(w, p) && w'.peers == w.peers && w'.core.members == w.core.members
    requires ParseClient(text).Chat?
    requires w'.core.messages == w.core.messages + [Message(ParseClient(text).line, ParseClient(text).id)]
    requires Box(w'.core.mq, p) == Box(w.core.mq, p) + if Has(w.core.members, p) then [text] else []
    ensures PeerOk(w', p)
  {
    hide ParseClient, Online, Find, AbsorbAll, GoodNick, Has;
    if w.peers[p].phase == Reading && Has(w.core.members, p) {
      DrainedSnoc(w, w', p, text);
    }
  }

  lemma TestFlagInv(w: World)
    requires Inv(w) && Enabled(w, TestFlag)
    ensures Inv(Do(w, TestFlag))
  {
    hide ParseMember, ParseClient, ParseChat, Online, FrameOk, Admit, Find, AbsorbAll, QueueOk, AdmitAll, Mirrors;
    var w' := Do(w, TestFlag);
    forall p | p in w'.peers ensures PeerOk(w', p) {
      Untouched(w, w', p);
    }
  }

  /** Where each text lands when a newcomer is announced. */
  lemma JoinBoxes(mq: Mq, ms: seq<Member>, msgs: seq<Message>, m: Member, text: string, t: int)
    requires Distinct(ms) && !Has(ms, m.id)
    ensures Box(Broadcast(Share(mq, m.id, ms, msgs), ms + [m], text), t) ==
            Box(mq, t) +
            if t == m.id then OnlineTexts(ms) + HistoryTexts(msgs) + [text]
            else if Has(ms, t) then [text] else []
  {
    hide Find, Broadcast, SendAll, OnlineTexts, HistoryTexts;
    var mq1 := SendAll(mq, m.id, OnlineTexts(ms));
    SendAllBox(mq, m.id, OnlineTexts(ms), t);
    SendAllBox(mq1, m.id, HistoryTexts(msgs), t);
    BroadcastBox(Share(mq, m.id, ms, msgs), ms + [m], text, t);
    HasSnoc(ms, m, t);
  }

  function AfterJoin(w: World, nick: string, id: int): World
    requires Box(w.core.mq, 1) != []
  {
    var ms, m := w.core.members, Member(nick, id, true);
    w.(core := w.core.(
         mq := Broadcast(Share(Pop(w.core.mq, 1), id, ms, w.core.messages), ms + [m], Box(w.core.mq, 1)[0]),
         members := ms + [m], online := w.core.online + 1))
  }

  lemma ServeJoinInv(w: World, nick: string, id: int)
    requires Inv(w) && Enabled(w, ServeMember)
    requires ParseMember(Box(w.core.mq, 1)[0]) == Join(nick, id)
    ensures Do(w, ServeMember) == AfterJoin(w, nick, id)
    ensures Inv(Do(w, ServeMember))
  {
    hide ParseMember, Online, Find, Broadcast, Share, Inv;
    InvParts(w);
    assert Do(w, ServeMember) == AfterJoin(w, nick, id);
    AfterJoinInv(w, nick, id);
  }

  lemma InvParts(w: World)
    requires Inv(w)
    ensures MembersOk(w) && MessagesOk(w) && !w.core.fault
  {
    hide MembersOk, MessagesOk, PeerOk;
  }

  lemma AfterJoinInv(w: World, nick: string, id: int)
    requires Inv(w) && w.core.running && Box(w.core.mq, 1) != []
    requires ParseMember(Box(w.core.mq, 1)[0]) == Join(nick, id)
    ensures Inv(AfterJoin(w, nick, id))
  {
    hide ParseMember, ParseClient, ParseChat, Online, Find, AbsorbAll, AdmitAll, Broadcast, Share, Absorb,
      GoodLine, GoodNick, Mirrors, MemberText, PeersMatch, OnlineTexts, HistoryTexts, Has;
    var w' := AfterJoin(w, nick, id);
    var text := Box(w.core.mq, 1)[0];
    var ms, m := w.core.members, Member(nick, id, true);
    assert FrameOk(ms, text);
    forall t ensures Box(w'.core.mq, t) == Box(Pop(w.core.mq, 1), t) +
                     if t == id then OnlineTexts(ms) + HistoryTexts(w.core.messages) + [text]
                     else if Has(ms, t) then [text] else [] {
      JoinBoxes(Pop(w.core.mq, 1), ms, w.core.messages, m, text, t);
    }
    ReservedBoxes(w, 1);
    ReservedBoxes(w, 2);
    assert Box(w'.core.mq, 1) == Box(w.core.mq, 1)[1..];
    assert Box(w'.core.mq, 2) == Box(w.core.mq, 2);
    JoinBookkeeping(w, w', m, text);
    forall p | p in w'.peers ensures PeerOk(w', p) {
      JoinPeer(w, w', m, text, p);
    }
    forall t | t > 2 && t !in w'.peers ensures Box(w'.core.mq, t) == [] {
      HasSnoc(ms, m, t);
      if Has(ms + [m], t) {
        RegisteredArePeers(w', t);
      }
    }
  }

  lemma JoinBookkeeping(w: World, w': World, m: Member, text: string)
    requires MembersOk(w) && w.core.running && m.online
    requires Box(w.core.mq, 1) != [] && Box(w.core.mq, 1)[0] == text
    requires ParseMember(text) == Join(m.nick, m.id)
    requires Box(w'.core.mq, 1) == Box(w.core.mq, 1)[1..]
    requires w'.core.members == w.core.members + [m] && w'.core.online == w.core.online + 1 && w'.core.running
    requires w'.peers == w.peers
    ensures MembersOk(w')
  {
    hide ParseMember, ParseClient, Online, Find, PeersMatch, GoodNick, MemberText;
    assert FrameOk(w.core.members, text);
    OnlineAfterJoin(w.core.members, m);
    AdmitKeeps(w.core.members, text);
  }

  lemma JoinPeer(w: World, w': World, m: Member, text: string, p: int)
    requires MembersOk(w) && MessagesOk(w) && MembersOk(w') && w.core.running
    requires p in w.peers && PeerOk(w, p) && w'.peers == w.peers && FrameOk(w.core.members, text)
    requires m.online && ParseMember(text) == Join(m.nick, m.id)
    requires w'.core.members == w.core.members + [m] && w'.core.messages == w.core.messages
    requires Box(w'.core.mq, p) == Box(w.core.mq, p) +
             if p == m.id then OnlineTexts(w.core.members) + HistoryTexts(w.core.messages) + [text]
             else if Has(w.core.members, p) then [text] else []
    ensures PeerOk(w', p)
  {
    hide ParseMember, ParseClient, ParseChat, Online, Find, AbsorbAll, AdmitAll, QueueOk, Absorb,
      GoodLine, GoodNick, Mirrors, MemberText, Has, PeersMatch, OnlineTexts, HistoryTexts;
    HasSnoc(w.core.members, m, p);
    if w.peers[p].phase == Reading {
      if p == m.id {
        MirrorsNewcomer(w.core.members, w.core.messages, m.nick, m.id);
        assert [] + (OnlineTexts(w.core.members) + HistoryTexts(w.core.messages) + [text])
            == OnlineTexts(w.core.members) + HistoryTexts(w.core.messages) + [text];
      } else if Has(w.core.members, p) {
        DrainedSnoc(w, w', p, text);
        MirrorsJoin(Drained(w, p), w.core.members, w.core.messages, m.nick, m.id);
      }
    }
  }

  /** When the last online member has left, no registered peer is still reading. */
  lemma ShutdownInv(w: World, w': World)
    requires Inv(w) && w.core.running && w.core.online <= 0
    requires w' == w.(core := w.core.(members := [], exitFlag := true, running := false))
    ensures Inv(w')
    ensures forall p :: Has(w.core.members, p) ==> p in w.peers && !Announced(w.peers[p])
  {
    hide ParseMember, ParseClient, ParseChat, Online, Find, AbsorbAll, AdmitAll, QueueOk, GoodLine, GoodNick, Mirrors,
      PeersMatch;
    forall p | Has(w.core.members, p) ensures p in w.peers && !Announced(w.peers[p]) {
      RegisteredArePeers(w, p);
      OnlineById(w.core.members, p);
    }
    forall p | p in w'.peers ensures PeerOk(w', p) {
      assert PeerOk(w, p);
    }
  }

  /** The world after a leave frame has been handled, before the counter is tested. */
  function AfterLeave(w: World, id: int): World
    requires Box(w.core.mq, 1) != [] && Has(w.core.members, id)
  {
    var k := Find(w.core.members, id);
    var ms' := w.core.members[k := w.core.members[k].(online := false)];
    w.(core := w.core.(members := ms', online := w.core.online - 1,
                       mq := Broadcast(Pop(w.core.mq, 1), ms', Box(w.core.mq, 1)[0])))
  }

  lemma AfterLeaveInv(w: World, id: int)
    requires Inv(w) && w.core.running && Box(w.core.mq, 1) != []
    requires ParseMember(Box(w.core.mq, 1)[0]) == Leave(id)
    ensures IsOnline(w.core.members, id)
    ensures Inv(AfterLeave(w, id))
  {
    hide ParseMember, ParseClient, ParseChat, Online, Find, AbsorbAll, AdmitAll, Broadcast, Absorb,
      GoodLine, GoodNick, Mirrors, MemberText, PeersMatch;
    var text := Box(w.core.mq, 1)[0];
    var ms := w.core.members;
    assert FrameOk(ms, text);
    var w' := AfterLeave(w, id);
    AdmitKeeps(ms, text);
    LeaveBoxes(w, id);
    hide Pop;
    LeaveBookkeeping(w, w', id, text);
    forall p | p in w'.peers ensures PeerOk(w', p) {
      assert PeerOk(w, p);
      LeavePeer(w, w', id, text, p);
    }
    hide PeerOk, MembersOk;
    forall t | t > 2 && t !in w'.peers ensures Box(w'.core.mq, t) == [] {
      if Has(ms, t) {
        RegisteredArePeers(w, t);
      }
    }
  }

  /** A served leave frame goes to every registered member and changes no other queue but its own. */
  lemma LeaveBoxes(w: World, id: int)
    requires Inv(w) && Box(w.core.mq, 1) != [] && Has(w.core.members, id)
    requires Distinct(AfterLeave(w, id).core.members)
    ensures var mq', text := AfterLeave(w, id).core.mq, Box(w.core.mq, 1)[0];
            && Box(mq', 1) == Box(w.core.mq, 1)[1..]
            && Box(mq', 2) == Box(w.core.mq, 2)
            && forall t :: t > 2 ==> Box(mq', t) == Box(w.core.mq, t) + if Has(w.core.members, t) then [text] else []
  {
    hide Find, Broadcast, PeerOk, MessagesOk, Online, GoodNick, QueueOk, AdmitAll, PeersMatch;
    var mq, w', text := Pop(w.core.mq, 1), AfterLeave(w, id), Box(w.core.mq, 1)[0];
    forall t ensures Box(w'.core.mq, t) == Box(mq, t) + if Has(w.core.members, t) then [text] else [] {
      BroadcastBox(mq, w'.core.members, text, t);
      HasAfterLeave(w.core.members, Find(w.core.members, id), t);
    }
    ReservedBoxes(w, 1);
    ReservedBoxes(w, 2);
    hide MembersOk;
    assert forall t :: t != 1 ==> Box(mq, t) == Box(w.core.mq, t);
  }

  lemma ServeLeaveInv(w: World, id: int)
    requires Inv(w) && Enabled(w, ServeMember)
    requires ParseMember(Box(w.core.mq, 1)[0]) == Leave(id)
    ensures Inv(Do(w, ServeMember))
    ensures !Do(w, ServeMember).core.running ==>
            forall p :: Has(w.core.members, p) ==> p in w.peers && !Announced(w.peers[p])
  {
    hide ParseMember, Find, Broadcast, Inv;
    AfterLeaveInv(w, id);
    var w' := AfterLeave(w, id);
    if w'.core.online <= 0 {
      ShutdownInv(w', Do(w, ServeMember));
      forall p | Has(w.core.members, p) ensures p in w.peers && !Announced(w.peers[p]) {
        HasAfterLeave(w.core.members, Find(w.core.members, id), p);
      }
    } else {
      assert Do(w, ServeMember) == w';
    }
  }

  lemma LeaveBookkeeping(w: World, w': World, id: int, text: string)
    requires MembersOk(w) && w.core.running
    requires Box(w.core.mq, 1) != [] && Box(w.core.mq, 1)[0] == text && ParseMember(text) == Leave(id)
    requires Box(w'.core.mq, 1) == Box(w.core.mq, 1)[1..]
    requires IsOnline(w.core.members, id) && w'.core.running && w'.peers == w.peers
    requires var k := Find(w.core.members, id);
             w'.core.members == w.core.members[k := w.core.members[k].(online := false)]
    requires w'.core.online == w.core.online - 1
    ensures MembersOk(w')
  {
    hide ParseMember, ParseClient, Online, Find, PeersMatch, GoodNick, MemberText;
    assert FrameOk(w.core.members, text);
    OnlineAfterLeave(w.core.members, Find(w.core.members, id));
    AdmitKeeps(w.core.members, text);
  }

  lemma LeavePeer(w: World, w': World, id: int, text: string, p: int)
    requires Distinct(w.core.members)
    requires p in w.peers && PeerOk(w, p) && w'.peers == w.peers && w'.core.messages == w.core.messages
    requires IsOnline(w.core.members, id) && ParseClient(text) == Leave(id)
    requires var k := Find(w.core.members, id);
             w'.core.members == w.core.members[k := w.core.members[k].(online := false)]
    requires Box(w'.core.mq, p) == Box(w.core.mq, p) + if Has(w.core.members, p) then [text] else []
    ensures PeerOk(w', p)
  {
    hide ParseMember, ParseClient, ParseChat, Online, Find, AbsorbAll, Absorb, GoodNick, Mirrors;
    HasAfterLeave(w.core.members, Find(w.core.members, id), p);
    if w.peers[p].phase == Reading && Has(w.core.members, p) {
      DrainedSnoc(w, w', p, text);
      MirrorsLeave(Drained(w, p), w.core.members, w.core.messages, id, text);
    }
  }

  lemma ServeMemberInv(w: World)
    requires Inv(w) && Enabled(w, ServeMember)
    ensures Inv(Do(w, ServeMember))
  {
    hide ParseMember, Do, PeersMatch, Find, Online;
    var f := ParseMember(Box(w.core.mq, 1)[0]);
    assert FrameOk(w.core.members, Box(w.core.mq, 1)[0]);
    if f.Join? {
      ServeJoinInv(w, f.nick, f.id);
    } else {
      ServeLeaveInv(w, f.id);
    }
  }

  // ---------------------------------------------------------------- main results

  /** Every step keeps the invariant. */
  lemma StepInv(w: World, a: Action)
    requires Inv(w) && Enabled(w, a)
    ensures Inv(Do(w, a))
  {
    hide Inv, Do, Enabled;
    match a
    case Start(p, nick) => StartInv(w, p, nick);
    case Say(p, line) => SayInv(w, p, line);
    case Quit(p) => QuitInv(w, p);
    case SendLeave(p) => SendLeaveInv(w, p);
    case SendPoll(p) => SendPollInv(w, p);
    case Receive(p) => ReceiveInv(w, p);
    case ServeMember => ServeMemberInv(w);
    case TestFlag => TestFlagInv(w);
    case ServeMessage => ServeMessageInv(w);
  }

  lemma {:induction false} ReachableInv(t: seq<World>, i: nat)
    requires Behavior(t) && i < |t|
    ensures Inv(t[i])
  {
    hide Inv, Do, Enabled, Init;
    if i == 0 {
      InitInv(t[0]);
    } else {
      ReachableInv(t, i - 1);
      assert Next(t[i - 1], t[i]);
      var a :| Enabled(t[i - 1], a) && t[i] == Do(t[i - 1], a);
      StepInv(t[i - 1], a);
    }
  }

  /**
   In every reachable state, the message list of each registered client that still reads, followed by
   the chat lines pending in its queue, is the server's whole message list, however late it joined.
  */
  lemma ReplicaPlusPendingIsTheLog(t: seq<World>, i: nat, p: int)
    requires Behavior(t) && i < |t|
    requires InPhase(t[i], p, Reading) && Has(t[i].core.members, p)
    ensures t[i].peers[p].replica.messages + ChatLines(Box(t[i].core.mq, p)) == t[i].core.messages
  {
    hide ParseMember, ParseClient, ParseChat, Find, AbsorbAll, ChatLines, MembersOk, MessagesOk, Do, Enabled;
    ReachableInv(t, i);
    assert PeerOk(t[i], p);
    DrainedMessages(t[i].peers[p].replica, Box(t[i].core.mq, p));
  }

  /**
   A client that has drained its queue shows the server's messages and the server's online members,
   in the server's order.
  */
  lemma DrainedReplicaIsExact(t: seq<World>, i: nat, p: int)
    requires Behavior(t) && i < |t|
    requires InPhase(t[i], p, Reading) && Has(t[i].core.members, p) && Box(t[i].core.mq, p) == []
    ensures t[i].peers[p].replica.messages == t[i].core.messages
    ensures Online(t[i].peers[p].replica.members) == Online(t[i].core.members)
  {
    hide ParseMember, ParseClient, ParseChat, Find, Online, MembersOk, MessagesOk, Do, Enabled;
    ReachableInv(t, i);
    assert PeerOk(t[i], p);
  }

  /** No handler ever dereferences a missing entry: every frame parses and every leave frame has its target. */
  lemma NoFault(t: seq<World>, i: nat)
    requires Behavior(t) && i < |t|
    ensures !t[i].core.fault
    ensures forall p :: p in t[i].peers ==> t[i].peers[p].replica.status == Running
  {
    hide MembersOk, MessagesOk, Do, Enabled, Find, Mirrors;
    ReachableInv(t, i);
    forall p | p in t[i].peers ensures t[i].peers[p].replica.status == Running {
      assert PeerOk(t[i], p);
    }
  }

  /** `members_online` counts the online entries for as long as the membership loop runs. */
  lemma CounterCounts(t: seq<World>, i: nat)
    requires Behavior(t) && i < |t| && t[i].core.running
    ensures t[i].core.online == |Online(t[i].core.members)|
  {
    hide MessagesOk, Do, Enabled, Find, Mirrors, Online;
    ReachableInv(t, i);
  }

  /**
   The membership loop stops in a step exactly when that step takes the last online member away, and
   then every registered client has announced its leave: nobody who still reads is cut off.
  */
  lemma StopsWithTheLastMember(t: seq<World>, i: nat)
    requires Behavior(t) && i < |t| && Enabled(t[i], ServeMember)
    ensures Do(t[i], ServeMember).core.running <==>
            Online(AdmitAll(t[i].core.members, Box(t[i].core.mq, 1)[..1])) != []
    ensures !Do(t[i], ServeMember).core.running ==>
            forall p :: Has(t[i].core.members, p) ==> p in t[i].peers && !Announced(t[i].peers[p])
  {
    ReachableInv(t, i);
    hide ParseMember, ParseClient, Find, Online, Broadcast, PeersMatch, GoodNick, MemberText, Mirrors, MessagesOk;
    var w := t[i];
    var text := Box(w.core.mq, 1)[0];
    assert FrameOk(w.core.members, text);
    assert Box(w.core.mq, 1)[..1] == [text] && [text][1..] == [];
    assert AdmitAll(w.core.members, [text]) == Admit(w.core.members, text);
    var f := ParseMember(text);
    if f.Join? {
      OnlineAfterJoin(w.core.members, Member(f.nick, f.id, true));
    } else {
      OnlineAfterLeave(w.core.members, Find(w.core.members, f.id));
      ServeLeaveInv(w, f.id);
    }
  }
}
