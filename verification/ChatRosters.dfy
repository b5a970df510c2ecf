/**
 The member lists of the chat with the two server threads interleaved at single sends.

 The membership thread changes its list and then announces the change to one member after the other.
 Member frames are sent by this thread alone, so unlike the chat lines none can be missed: whatever a
 registered client has taken and has pending rebuilds the server's online members, up to the one
 announcement that has not reached it yet.

 Here too each frame is taken apart in private; see `ChatSeparateRuns` and `ChatMixedTokens` for the server,
 whose threads share the place where `strtok` stopped.
*/
module ChatRosters {
  import opened ChatCodec
  import opened ChatServer
  import opened ChatClient
  import opened ChatMirror
  import opened ChatInterleaved

  // ---------------------------------------------------------------- what a client makes of its frames

  /** `missed` is set when a leave frame finds no target. */
  datatype Roster = Roster(members: seq<Member>, missed: bool)

  function Hear(r: Roster, f: Frame): Roster {
    match f
    case Join(nick, id) => r.(members := r.members + [Member(nick, id, true)])
    case Leave(id) =>
      var k := Find(r.members, id);
      if k < 0 then r.(missed := true) else r.(members := r.members[k := r.members[k].(online := false)])
    case _ => r
  }

  function HearAll(frames: seq<Frame>): Roster {
    if frames == [] then Roster([], false) else Hear(HearAll(frames[..|frames| - 1]), frames[|frames| - 1])
  }

  lemma HearSnoc(frames: seq<Frame>, f: Frame)
    ensures HearAll(frames + [f]) == Hear(HearAll(frames), f)
  {
    assert (frames + [f])[..|frames|] == frames;
  }

  /** No target was missed, and the online members are the server's, in its order. */
  ghost predicate Copies(r: Roster, ms: seq<Member>) {
    && !r.missed
    && Online(r.members) == Online(ms)
    && Distinct(r.members)
    && forall k :: 0 <= k < |r.members| ==> Has(ms, r.members[k].id)
  }

  lemma CopiesJoin(r: Roster, ms: seq<Member>, nick: string, id: int)
    requires Copies(r, ms) && !Has(ms, id)
    ensures Copies(Hear(r, Join(nick, id)), ms + [Member(nick, id, true)])
  {
    hide Find, Online, Has;
    var m := Member(nick, id, true);
    OnlineAfterJoin(ms, m);
    OnlineAfterJoin(r.members, m);
    forall k | 0 <= k < |r.members + [m]| ensures Has(ms + [m], (r.members + [m])[k].id) {
      HasSnoc(ms, m, (r.members + [m])[k].id);
    }
  }

  lemma CopiesLeave(r: Roster, ms: seq<Member>, id: int)
    requires Distinct(ms) && Copies(r, ms) && IsOnline(ms, id)
    ensures Copies(Hear(r, Frame.Leave(id)), ms[Find(ms, id) := ms[Find(ms, id)].(online := false)])
  {
    hide Find, Online;
    OnlineById(ms, id);
    OnlineById(r.members, id);
    OnlineAfterLeave(ms, Find(ms, id));
    OnlineAfterLeave(r.members, Find(r.members, id));
    forall j | 0 <= j < |r.members|
      ensures Has(ms[Find(ms, id) := ms[Find(ms, id)].(online := false)], r.members[j].id)
    {
      HasAfterLeave(ms, Find(ms, id), r.members[j].id);
    }
  }

  lemma CopiesOnline(ms: seq<Member>)
    requires Distinct(ms)
    ensures Copies(Roster(Online(ms), false), ms)
  {
    hide Find, Online, Has;
    forall m | m in Online(ms) ensures m.online {
      OnlineIn(ms, m);
    }
    OnlineAll(Online(ms));
    OnlineDistinct(ms);
  }

  // ---------------------------------------------------------------- the invariant on the frames sent

  /** The member frames a client has taken, followed by those pending in its queue. */
  function Notes(s: State, p: int): seq<Frame>
    requires p in s.peers
  {
    s.peers[p].noted + OnlyNotes(Inbox(s, p))
  }

  /** The notes of the member at index `x`, with the announcement that has not reached it yet, if any. */
  function DueNotes(s: State, x: nat): seq<Frame>
    requires x < |s.members| && s.members[x].id in s.peers
  {
    Notes(s, s.members[x].id) + if s.mpc.Announce? && x >= s.mpc.i then [s.mpc.frame] else []
  }

  ghost predicate MemberNotes(s: State, x: nat)
    requires x < |s.members|
  {
    s.members[x].id in s.peers && Copies(HearAll(DueNotes(s, x)), s.members)
  }

  ghost predicate NewcomerNotes(s: State, p: int)
    requires p in s.peers
  {
    if !IsNewcomer(s, p) then Notes(s, p) == []
    else if s.mpc.ShareMembers? then
      s.mpc.i <= |s.members| && HearAll(Notes(s, p)) == Roster(Online(s.members[..s.mpc.i]), false)
    else HearAll(Notes(s, p)) == Roster(Online(s.members), false)
  }

  ghost predicate NotesOk(s: State) {
    && (forall x :: 0 <= x < |s.members| ==> MemberNotes(s, x))
    && (forall p :: p in s.peers && p !in s.windows ==> NewcomerNotes(s, p))
  }

  lemma {:induction false} OnlyNotesConcat(a: seq<Item>, b: seq<Item>)
    ensures OnlyNotes(a + b) == OnlyNotes(a) + OnlyNotes(b)
  {
    if b == [] {
      assert a + b == a;
    } else {
      assert (a + b)[..|a + b| - 1] == a + b[..|b| - 1];
      OnlyNotesConcat(a, b[..|b| - 1]);
    }
  }

  lemma OneNote(item: Item)
    ensures OnlyNotes([item]) == if item.Note? then [item.frame] else []
  {
    assert [item][..0] == [];
  }

  lemma PutNotes(s: State, p: int, item: Item, q: int)
    requires q in s.peers
    ensures Notes(Put(s, p, item), q) == Notes(s, q) + if q == p && item.Note? then [item.frame] else []
  {
    OnlyNotesConcat(Inbox(s, p), [item]);
    OneNote(item);
    hide OnlyNotes;
    if q == p {
      assert Inbox(Put(s, p, item), q) == Inbox(s, q) + [item];
      var last := if item.Note? then [item.frame] else [];
      assert s.peers[q].noted + (OnlyNotes(Inbox(s, q)) + last) == Notes(s, q) + last;
    }
  }

  lemma ReceiveNotes(s: State, p: int, q: int)
    requires Enabled(s, Receive(p)) && q in s.peers
    ensures Notes(Do(s, Receive(p)), q) == Notes(s, q)
  {
    hide DoMembers, DoMessages, OnlyLines;
    var box := Inbox(s, p);
    OnlyNotesConcat(box[..1], box[1..]);
    hide OnlyNotes;
    if q == p {
      assert box == box[..1] + box[1..] && box[..1] == [box[0]];
      assert s.peers[p].noted + (OnlyNotes([box[0]]) + OnlyNotes(box[1..])) ==
             s.peers[p].noted + OnlyNotes([box[0]]) + OnlyNotes(box[1..]);
    }
  }

  /** Nobody gets a member frame. */
  ghost predicate SameNotes(s: State, s': State) {
    (forall p :: p in s.peers ==> p in s'.peers && Notes(s', p) == Notes(s, p)) && s'.peers.Keys == s.peers.Keys
  }

  lemma NotesSame(s: State, s': State)
    requires s'.peers == s.peers && s'.inbox == s.inbox
    ensures SameNotes(s, s')
  {
    hide OnlyNotes;
  }

  lemma LineNotes(s: State, s': State, p: int, item: Item)
    requires item.Line? && s'.peers == s.peers && s'.inbox == Put(s, p, item).inbox
    ensures SameNotes(s, s')
  {
    hide OnlyNotes;
    forall q | q in s.peers ensures Notes(s', q) == Notes(s, q) {
      PutNotes(s, p, item, q);
      assert Notes(s', q) == Notes(Put(s, p, item), q);
    }
  }

  /** A step that sends no member frame, with the membership thread where it was. */
  lemma QuietNotes(s: State, s': State)
    requires NotesOk(s) && SameNotes(s, s') && s'.members == s.members && s'.windows == s.windows && s'.mpc == s.mpc
    ensures NotesOk(s')
  {
    hide Notes, Copies, HearAll, Online;
    forall x | 0 <= x < |s'.members| ensures MemberNotes(s', x) {
      assert MemberNotes(s, x);
    }
    forall p | p in s'.peers && p !in s'.windows ensures NewcomerNotes(s', p) {
      assert NewcomerNotes(s, p);
    }
  }

  /** The same for the registered members when the membership thread has nothing to announce. */
  lemma QuietMemberNotes(s: State, s': State)
    requires NotesOk(s) && SameNotes(s, s') && s'.members == s.members
    requires !s'.mpc.Announce? && (s.mpc.Announce? ==> s.mpc.i >= |s.members|)
    ensures forall x :: 0 <= x < |s'.members| ==> MemberNotes(s', x)
  {
    hide Notes, Copies, HearAll, Online, NewcomerNotes;
    forall x | 0 <= x < |s'.members| ensures MemberNotes(s', x) {
      assert MemberNotes(s, x);
    }
  }

  // ---------------------------------------------------------------- steps of the clients and the message thread

  lemma ClientNotes(s: State, a: Action)
    requires NotesOk(s) && Enabled(s, a) && !a.MembersStep? && !a.MessagesStep? && !a.Start?
    ensures NotesOk(Do(s, a))
  {
    hide DoMembers, DoMessages, OnlyLines, OnlyNotes, NotesOk;
    var s' := Do(s, a);
    forall q | q in s.peers ensures q in s'.peers && Notes(s', q) == Notes(s, q) {
      if a.Receive? {
        ReceiveNotes(s, a.p, q);
      }
    }
    hide Notes;
    QuietNotes(s, s');
  }

  lemma StartNotes(s: State, p: int, nick: string)
    requires Inv(s) && NotesOk(s) && Enabled(s, Start(p, nick))
    ensures NotesOk(Do(s, Start(p, nick)))
  {
    hide DoMembers, DoMessages, OnlyLines, MemberSeen, NewcomerSeen, Distinct, Copies, HearAll, Online;
    var s' := Do(s, Start(p, nick));
    assert p !in s.windows && !IsNewcomer(s, p);
    hide FramesOk;
    assert Notes(s', p) == [];
    hide OnlyNotes;
    assert forall q :: q in s.peers ==> Notes(s', q) == Notes(s, q);
    hide Notes;
    forall x | 0 <= x < |s'.members| ensures MemberNotes(s', x) {
      assert MemberNotes(s, x);
    }
    forall q | q in s'.peers && q !in s'.windows ensures NewcomerNotes(s', q) {
      if q != p {
        assert NewcomerNotes(s, q);
      }
    }
  }

  lemma MessagesNotes(s: State)
    requires NotesOk(s) && Enabled(s, MessagesStep)
    ensures NotesOk(DoMessages(s))
  {
    var s' := DoMessages(s);
    MessagesSameNotes(s);
    MessagesKeepMembers(s);
    hide DoMessages, NotesOk, SameNotes;
    QuietNotes(s, s');
  }

  lemma MessagesSameNotes(s: State)
    requires Enabled(s, MessagesStep)
    ensures SameNotes(s, DoMessages(s))
  {
    hide SameNotes, MutexFree, Inbox;
    var s' := DoMessages(s);
    if s.cpc.Listen? {
      hide Put;
      NotesSame(s, s');
      return;
    }
    hide TakeChatFrame;
    if s.cpc.Broadcast? && s.cpc.i < |s.members| {
      LineNotes(s, s', s.members[s.cpc.i].id, Line(s.cpc.message, true));
    } else {
      hide Put;
      NotesSame(s, s');
    }
  }

  /** What the membership thread works on is as it was. */
  ghost predicate SameMembersSide(s: State, s': State) {
    && s'.members == s.members && s'.online == s.online && s'.memberFrames == s.memberFrames
    && s'.peers == s.peers && s'.windows == s.windows && s'.mpc == s.mpc
  }

  lemma MessagesKeepMembers(s: State)
    requires Enabled(s, MessagesStep)
    ensures SameMembersSide(s, DoMessages(s))
  {
    hide Put, TakeChatFrame, MutexFree;
    match s.cpc
    case Listen => ListenKeepsMembers(s);
    case Broadcast(m, i) =>
      if i < |s.members| {
        SendKeepsMembers(s, s.members[i].id, Line(m, true), MessagesPc.Broadcast(m, i + 1));
      }
    case _ =>
  }

  lemma ListenKeepsMembers(s: State)
    requires s.chatFrames != []
    ensures SameMembersSide(s, TakeChatFrame(s))
  {
  }

  lemma SendKeepsMembers(s: State, p: int, item: Item, pc: MessagesPc)
    ensures SameMembersSide(s, Put(s, p, item).(cpc := pc))
  {
    hide Inbox;
  }

  // ---------------------------------------------------------------- steps of the membership thread

  lemma JoinTakenNotes(s: State)
    requires Inv(s) && NotesOk(s) && s.mpc == Wait && s.memberFrames != [] && s.memberFrames[0].Join?
    ensures NotesOk(TakeMemberFrame(s))
  {
    hide MemberSeen, NewcomerSeen, Distinct, Find, Copies, BroadcastOk;
    var s' := TakeMemberFrame(s);
    var id := s.memberFrames[0].id;
    assert id in s.peers && id !in s.windows;
    hide FramesOk;
    NotesSame(s, s');
    hide Notes;
    QuietMemberNotes(s, s');
    forall p | p in s'.peers && p !in s'.windows ensures NewcomerNotes(s', p) {
      assert NewcomerNotes(s, p);
      assert s.members[..0] == [];
    }
  }

  lemma LeaveTakenNotes(s: State)
    requires Inv(s) && NotesOk(s) && s.mpc == Wait && s.memberFrames != []
    requires s.memberFrames[0].Leave? && IsOnline(s.members, s.memberFrames[0].id)
    ensures NotesOk(TakeMemberFrame(s))
  {
    assert Distinct(s.members);
    var s', f := TakeMemberFrame(s), s.memberFrames[0];
    hide Inv, Find, NotesOk, Distinct, SameNotes;
    NotesSame(s, s');
    var k := Find(s.members, f.id);
    assert s'.members == s.members[k := s.members[k].(online := false)];
    hide IsOnline, TakeMemberFrame;
    LeaverRosters(s, s');
  }

  lemma LeaverRosters(s: State, s': State)
    requires NotesOk(s) && SameNotes(s, s') && Distinct(s.members) && s.mpc == Wait && s'.windows == s.windows
    requires s'.mpc.Announce? && s'.mpc.i == 0 && s'.mpc.frame.Leave? && IsOnline(s.members, s'.mpc.frame.id)
    requires var k := Find(s.members, s'.mpc.frame.id); s'.members == s.members[k := s.members[k].(online := false)]
    ensures NotesOk(s')
  {
    hide Notes, Distinct, MemberNotes, HearAll, Online, Find;
    assert |s'.members| == |s.members|;
    hide IsOnline;
    forall x | 0 <= x < |s'.members| ensures MemberNotes(s', x) {
      LeaverNoted(s, s', x);
    }
    forall p | p in s'.peers && p !in s'.windows ensures NewcomerNotes(s', p) {
      assert NewcomerNotes(s, p);
    }
  }

  lemma LeaverNoted(s: State, s': State, x: nat)
    requires Distinct(s.members) && x < |s.members| && MemberNotes(s, x) && SameNotes(s, s') && s.mpc == Wait
    requires s'.mpc.Announce? && s'.mpc.i == 0 && s'.mpc.frame.Leave? && IsOnline(s.members, s'.mpc.frame.id)
    requires var k := Find(s.members, s'.mpc.frame.id); s'.members == s.members[k := s.members[k].(online := false)]
    ensures MemberNotes(s', x)
  {
    hide Find, Copies, HearAll, Hear, Online, Distinct, Notes;
    var notes, f := Notes(s, s.members[x].id), s'.mpc.frame;
    assert notes + [] == notes;
    HearSnoc(notes, f);
    CopiesLeave(HearAll(notes), s.members, f.id);
  }

  /** One note more for the newcomer, who is not registered. */
  lemma ShareMemberNotes(s: State)
    requires Inv(s) && NotesOk(s) && s.mpc.ShareMembers? && s.mpc.i < |s.members|
    ensures NotesOk(ShareMember(s, s.mpc.nick, s.mpc.id, s.mpc.i))
  {
    var s', id := ShareMember(s, s.mpc.nick, s.mpc.id, s.mpc.i), s.mpc.id;
    forall q | q in s.peers {
      SharedNote(s, q);
    }
    hide Inv, NotesOk, Notes, Inbox;
    NewcomerUnregistered(s);
    OthersNotes(s, s', id);
    SharedRoster(s, s');
  }

  lemma NewcomerUnregistered(s: State)
    requires Inv(s) && (s.mpc.ShareMembers? || s.mpc.ShareHistory? || s.mpc.Register?)
    ensures IsNewcomer(s, s.mpc.id) && s.mpc.id in s.peers && s.mpc.id !in s.windows && !Has(s.members, s.mpc.id)
    ensures forall x :: 0 <= x < |s.members| ==> s.members[x].id != s.mpc.id
  {
    hide MemberSeen, NewcomerSeen, BroadcastOk, Distinct, Has;
    assert IsNewcomer(s, s.mpc.id);
    hide FramesOk;
    UnregisteredIsNew(s, s.mpc.id);
  }

  /** The registered members' notes are as they were. */
  lemma OthersNotes(s: State, s': State, id: int)
    requires NotesOk(s) && s'.peers.Keys == s.peers.Keys && s'.members == s.members
    requires !s.mpc.Announce? && !s'.mpc.Announce?
    requires forall q :: q in s.peers && q != id ==> Notes(s', q) == Notes(s, q)
    requires forall x :: 0 <= x < |s.members| ==> s.members[x].id != id
    ensures forall x :: 0 <= x < |s'.members| ==> MemberNotes(s', x)
  {
    hide Notes, Copies, HearAll, NewcomerNotes;
    forall x | 0 <= x < |s'.members| ensures MemberNotes(s', x) {
      assert MemberNotes(s, x);
    }
  }

  lemma SharedNote(s: State, q: int)
    requires s.mpc.ShareMembers? && s.mpc.i < |s.members| && q in s.peers
    ensures var s', m := ShareMember(s, s.mpc.nick, s.mpc.id, s.mpc.i), s.members[s.mpc.i];
            Notes(s', q) == Notes(s, q) + if q == s.mpc.id && m.online then [Join(m.nick, m.id)] else []
  {
    var m, id := s.members[s.mpc.i], s.mpc.id;
    PutNotes(s, id, Note(Join(m.nick, m.id)), q);
    hide OnlyNotes;
    if m.online {
      assert Notes(ShareMember(s, s.mpc.nick, id, s.mpc.i), q) == Notes(Put(s, id, Note(Join(m.nick, m.id))), q);
    } else {
      assert Notes(s, q) + [] == Notes(s, q);
    }
  }

  lemma SharedRoster(s: State, s': State)
    requires NotesOk(s) && s.mpc.ShareMembers? && s.mpc.i < |s.members|
    requires s'.mpc == ShareMembers(s.mpc.nick, s.mpc.id, s.mpc.i + 1)
    requires s'.members == s.members && s'.windows == s.windows
    requires s'.peers.Keys == s.peers.Keys
    requires var m := s.members[s.mpc.i];
             forall q :: q in s.peers ==>
               Notes(s', q) == Notes(s, q) + if q == s.mpc.id && m.online then [Join(m.nick, m.id)] else []
    ensures forall p :: p in s'.peers && p !in s'.windows ==> NewcomerNotes(s', p)
  {
    hide Notes, MemberNotes, Online, HearAll;
    var i, m := s.mpc.i, s.members[s.mpc.i];
    assert s.members[..i + 1] == s.members[..i] + [m];
    OnlineAfterJoin(s.members[..i], m);
    forall p | p in s'.peers && p !in s'.windows ensures NewcomerNotes(s', p) {
      assert NewcomerNotes(s, p);
      HearSnoc(Notes(s, p), Join(m.nick, m.id));
      assert Notes(s, p) + [] == Notes(s, p);
      assert Online(s.members[..i]) + [] == Online(s.members[..i]);
    }
  }

  /** The loops of `shair_database` give way to each other; history lines are no member frames. */
  lemma SharedNotes(s: State)
    requires NotesOk(s) && Enabled(s, MembersStep)
    requires s.mpc.ShareHistory? || (s.mpc.ShareMembers? && s.mpc.i >= |s.members|)
    ensures NotesOk(DoMembers(s))
  {
    hide TakeMemberFrame, ShareMember, RegisterMember, NotesOk, SameNotes;
    var s' := DoMembers(s);
    if s.mpc.ShareHistory? && s.mpc.j < |s.messages| {
      LineNotes(s, s', s.mpc.id, Line(s.messages[s.mpc.j], false));
    } else {
      NotesSame(s, s');
    }
    hide Put;
    SharedNewcomer(s, s');
  }

  lemma SharedNewcomer(s: State, s': State)
    requires NotesOk(s) && SameNotes(s, s') && s'.members == s.members && s'.windows == s.windows
    requires s.mpc.ShareHistory? || (s.mpc.ShareMembers? && s.mpc.i >= |s.members|)
    requires (s'.mpc.ShareHistory? || s'.mpc.Register?) && s'.mpc.id == s.mpc.id
    ensures NotesOk(s')
  {
    QuietMemberNotes(s, s');
    hide Notes, MemberNotes, Online, HearAll;
    forall p | p in s'.peers && p !in s'.windows ensures NewcomerNotes(s', p) {
      assert NewcomerNotes(s, p);
      assert s.members[..|s.members|] == s.members;
    }
  }

  lemma RegisterNotes(s: State)
    requires Inv(s) && NotesOk(s) && s.mpc.Register?
    ensures NotesOk(RegisterMember(s, s.mpc.nick, s.mpc.id, s.mpc.replayed))
  {
    NewcomerUnregistered(s);
    var s' := RegisterMember(s, s.mpc.nick, s.mpc.id, s.mpc.replayed);
    NotesSame(s, s');
    assert Distinct(s.members);
    hide Inv, Notes, Has, Distinct, Due, NotesOk, IsNewcomer;
    RegisteredMembers(s, s');
    RegisteredNewcomers(s, s');
    assert NotesOk(s') by { NotesParts(s'); }
  }

  lemma NotesParts(s: State)
    requires forall x :: 0 <= x < |s.members| ==> MemberNotes(s, x)
    requires forall p :: p in s.peers && p !in s.windows ==> NewcomerNotes(s, p)
    ensures NotesOk(s)
  {
    hide MemberNotes, NewcomerNotes;
  }

  /** The announcement due to everybody adds the new member to every roster, the newcomer's included. */
  lemma RegisteredMembers(s: State, s': State)
    requires NotesOk(s) && SameNotes(s, s') && Distinct(s.members) && s.mpc.Register? && IsNewcomer(s, s.mpc.id)
    requires s.mpc.id in s.peers && s.mpc.id !in s.windows && !Has(s.members, s.mpc.id)
    requires s'.members == s.members + [Member(s.mpc.nick, s.mpc.id, true)]
    requires s'.mpc == MembersPc.Announce(Join(s.mpc.nick, s.mpc.id), 0)
    ensures forall x :: 0 <= x < |s'.members| ==> MemberNotes(s', x)
  {
    hide Notes, Has, HearAll, Distinct, Copies, IsNewcomer, MemberNotes, NewcomerNotes;
    forall x | 0 <= x < |s'.members| ensures MemberNotes(s', x) {
      if x < |s.members| {
        RegisteredMember(s, s', x);
      } else {
        RegisteredSelf(s, s');
      }
    }
  }

  lemma RegisteredMember(s: State, s': State, x: nat)
    requires x < |s.members| && MemberNotes(s, x) && SameNotes(s, s') && s.mpc.Register? && !Has(s.members, s.mpc.id)
    requires s'.members == s.members + [Member(s.mpc.nick, s.mpc.id, true)]
    requires s'.mpc == MembersPc.Announce(Join(s.mpc.nick, s.mpc.id), 0)
    ensures MemberNotes(s', x)
  {
    hide Notes, Has, HearAll, Copies;
    assert s'.members[x] == s.members[x];
    HeardJoin(Notes(s, s.members[x].id), s.members, s'.mpc.frame);
  }

  lemma RegisteredSelf(s: State, s': State)
    requires SameNotes(s, s') && Distinct(s.members) && s.mpc.Register? && IsNewcomer(s, s.mpc.id)
    requires s.mpc.id in s.peers && NewcomerNotes(s, s.mpc.id) && !Has(s.members, s.mpc.id)
    requires s'.members == s.members + [Member(s.mpc.nick, s.mpc.id, true)]
    requires s'.mpc == MembersPc.Announce(Join(s.mpc.nick, s.mpc.id), 0)
    ensures MemberNotes(s', |s.members|)
  {
    CopiesOnline(s.members);
    hide Notes, Has, HearAll, Copies, Online, Distinct;
    var notes := Notes(s, s.mpc.id);
    assert HearAll(notes) == Roster(Online(s.members), false);
    hide IsNewcomer, NewcomerNotes;
    assert notes + [] == notes;
    HeardJoin(notes, s.members, s'.mpc.frame);
    assert s'.members[|s.members|].id == s.mpc.id;
    assert DueNotes(s', |s.members|) == notes + [s'.mpc.frame];
  }

  lemma RegisteredNewcomers(s: State, s': State)
    requires NotesOk(s) && SameNotes(s, s') && s.mpc.Register? && s'.mpc.Announce?
    requires forall p :: p in s.windows || p == s.mpc.id ==> p in s'.windows
    ensures forall p :: p in s'.peers && p !in s'.windows ==> NewcomerNotes(s', p)
  {
    hide Notes, MemberNotes, HearAll, Online;
    forall p | p in s'.peers && p !in s'.windows ensures NewcomerNotes(s', p) {
      assert NewcomerNotes(s, p);
    }
  }

  lemma HeardJoin(notes: seq<Frame>, ms: seq<Member>, f: Frame)
    requires f.Join? && Copies(HearAll(notes + []), ms) && !Has(ms, f.id)
    ensures Copies(HearAll(notes + [f]), ms + [Member(f.nick, f.id, true)])
  {
    hide Copies, Has, HearAll, Hear;
    assert notes + [] == notes;
    HearSnoc(notes, f);
    CopiesJoin(HearAll(notes), ms, f.nick, f.id);
  }

  lemma UnregisteredIsNew(s: State, id: int)
    requires Inv(s) && id !in s.windows
    ensures !Has(s.members, id) && forall x :: 0 <= x < |s.members| ==> s.members[x].id != id
  {
    hide NewcomerSeen, FramesOk, BroadcastOk, Lines, Log, Due, Seen;
    forall x | 0 <= x < |s.members| ensures s.members[x].id != id {
      assert MemberSeen(s, x);
    }
  }

  /** A turn of the announcing loop: what was due to one member is now among its notes. */
  lemma AnnouncedNotes(s: State)
    requires Inv(s) && NotesOk(s) && Enabled(s, MembersStep) && s.mpc.Announce? && s.mpc.i < |s.members|
    ensures NotesOk(DoMembers(s))
  {
    hide TakeMemberFrame, ShareMember, RegisterMember, NotesOk;
    var s' := DoMembers(s);
    forall q | q in s.peers
      ensures Notes(s', q) == Notes(s, q) + if q == s.members[s.mpc.i].id then [s.mpc.frame] else []
    {
      AnnouncedNote(s, q);
    }
    hide Notes, Put, Inbox;
    assert MemberSeen(s, s.mpc.i);
    AnnouncedRosters(s, s');
  }

  lemma AnnouncedNote(s: State, q: int)
    requires Enabled(s, MembersStep) && s.mpc.Announce? && s.mpc.i < |s.members| && q in s.peers
    ensures q in DoMembers(s).peers
    ensures Notes(DoMembers(s), q) == Notes(s, q) + if q == s.members[s.mpc.i].id then [s.mpc.frame] else []
  {
    hide TakeMemberFrame, ShareMember, RegisterMember, OnlyNotes;
    var id, f := s.members[s.mpc.i].id, s.mpc.frame;
    PutNotes(s, id, Note(f), q);
    assert Notes(DoMembers(s), q) == Notes(Put(s, id, Note(f)), q);
  }

  lemma AnnouncedRosters(s: State, s': State)
    requires Distinct(s.members) && NotesOk(s) && s.mpc.Announce? && s.mpc.i < |s.members|
    requires s.members[s.mpc.i].id in s.windows && s'.windows == s.windows && s'.peers.Keys == s.peers.Keys
    requires s'.members == s.members && s'.mpc == MembersPc.Announce(s.mpc.frame, s.mpc.i + 1)
    requires forall q :: q in s.peers ==>
               Notes(s', q) == Notes(s, q) + if q == s.members[s.mpc.i].id then [s.mpc.frame] else []
    ensures NotesOk(s')
  {
    hide Notes, Online, HearAll, Copies;
    forall x | 0 <= x < |s'.members| ensures MemberNotes(s', x) {
      assert MemberNotes(s, x);
      SameDue(Notes(s, s.members[x].id), s.mpc.frame);
      assert x == s.mpc.i <==> s.members[x].id == s.members[s.mpc.i].id;
    }
    hide MemberNotes, Distinct;
    forall p | p in s'.peers && p !in s'.windows ensures NewcomerNotes(s', p) {
      assert NewcomerNotes(s, p);
      assert Notes(s, p) + [] == Notes(s, p);
    }
  }

  lemma SameDue(notes: seq<Frame>, f: Frame)
    ensures notes + [f] + [] == notes + [f] && notes + [] + [f] == notes + [f] && notes + [] + [] == notes + []
  {
  }

  lemma ClosingNotes(s: State)
    requires NotesOk(s) && Enabled(s, MembersStep)
    requires s.mpc in {TestOnline, ClearMembers, RaiseFlag} || (s.mpc.Announce? && s.mpc.i >= |s.members|)
    ensures NotesOk(DoMembers(s))
  {
    hide TakeMemberFrame, ShareMember, RegisterMember, Put, Copies, HearAll, Online;
    var s' := DoMembers(s);
    NotesSame(s, s');
    hide Notes;
    if s.mpc != ClearMembers {
      QuietMemberNotes(s, s');
    }
    forall p | p in s'.peers && p !in s'.windows ensures NewcomerNotes(s', p) {
      assert NewcomerNotes(s, p);
    }
  }

  // ---------------------------------------------------------------- who leaves

  /** `p` will be online when the first `k` pending member frames are served, or is so now. */
  ghost predicate Here(s: State, p: int, k: nat)
    requires k <= |s.memberFrames|
  {
    || JoinPending(s.memberFrames, p, k)
    || IsNewcomer(s, p)
    || IsOnline(s.members, p)
  }

  ghost predicate JoinPending(frames: seq<Frame>, p: int, k: nat)
    requires k <= |frames|
  {
    exists j :: 0 <= j < k && frames[j].Join? && frames[j].id == p
  }

  predicate Staying(peer: Peer) {
    peer.phase == Reading || peer.phase == Silent
  }

  ghost predicate LeavesOk(s: State) {
    && (forall p :: p in s.peers && Staying(s.peers[p]) ==> Here(s, p, |s.memberFrames|))
    && (forall k :: 0 <= k < |s.memberFrames| && s.memberFrames[k].Leave? ==>
          var p := s.memberFrames[k].id;
          p in s.peers && !Staying(s.peers[p]) && Here(s, p, k))
    && (forall k, l :: 0 <= k < l < |s.memberFrames| && s.memberFrames[k].Leave? && s.memberFrames[l].Leave? ==>
          s.memberFrames[k].id != s.memberFrames[l].id)
  }

  /** Once the member list has been given up nothing is taken from the queue any more. */
  predicate Over(s: State) {
    s.mpc in {RaiseFlag, MembersPc.MembersDone}
  }

  ghost predicate CountOk(s: State) {
    !Over(s) ==> LeavesOk(s) && s.online == |Online(s.members)|
  }

  /** Member frames pending and online members are as they were. */
  lemma SameLeaves(s: State, s': State)
    requires LeavesOk(s) && s'.memberFrames == s.memberFrames && s'.peers.Keys == s.peers.Keys
    requires forall p :: p in s.peers ==> Staying(s'.peers[p]) == Staying(s.peers[p])
    requires forall p :: (IsNewcomer(s, p) || IsOnline(s.members, p)) ==> (IsNewcomer(s', p) || IsOnline(s'.members, p))
    ensures LeavesOk(s')
  {
    hide IsNewcomer, IsOnline, JoinPending;
    forall p, k: nat | k <= |s.memberFrames| && Here(s, p, k) ensures Here(s', p, k) {
    }
  }

  lemma JoinPendingSnoc(frames: seq<Frame>, f: Frame, p: int, k: nat)
    requires k <= |frames|
    ensures JoinPending(frames + [f], p, k) <==> JoinPending(frames, p, k)
    ensures JoinPending(frames + [f], p, |frames| + 1) <==> JoinPending(frames, p, |frames|) || (f.Join? && f.id == p)
  {
    var more := frames + [f];
    assert forall j :: 0 <= j < |frames| ==> more[j] == frames[j];
    assert more[|frames|] == f;
    if JoinPending(frames, p, |frames|) {
      var j :| 0 <= j < |frames| && frames[j].Join? && frames[j].id == p;
      assert more[j].Join?;
    }
    if JoinPending(frames, p, k) {
      var j :| 0 <= j < k && frames[j].Join? && frames[j].id == p;
      assert more[j].Join?;
    }
  }

  /** A frame more at the end of the queue. */
  lemma HereSnoc(s: State, s': State, f: Frame)
    requires s'.memberFrames == s.memberFrames + [f] && s'.members == s.members && s'.mpc == s.mpc
    ensures forall p, k: nat :: k <= |s.memberFrames| && Here(s, p, k) ==> Here(s', p, k)
    ensures forall p :: Here(s, p, |s.memberFrames|) || (f.Join? && f.id == p) ==> Here(s', p, |s'.memberFrames|)
  {
    hide JoinPending, IsOnline;
    forall p, k: nat | k <= |s.memberFrames| && Here(s, p, k) ensures Here(s', p, k) {
      JoinPendingSnoc(s.memberFrames, f, p, k);
    }
    forall p | Here(s, p, |s.memberFrames|) || (f.Join? && f.id == p) ensures Here(s', p, |s'.memberFrames|) {
      JoinPendingSnoc(s.memberFrames, f, p, 0);
    }
  }

  lemma StartLeaves(s: State, p: int, nick: string)
    requires LeavesOk(s) && Enabled(s, Start(p, nick))
    ensures LeavesOk(Do(s, Start(p, nick)))
  {
    hide DoMembers, DoMessages, OnlyLines, OnlyNotes, Here;
    HereSnoc(s, Do(s, Start(p, nick)), Join(nick, p));
  }

  lemma SendLeaveLeaves(s: State, p: int)
    requires LeavesOk(s) && Enabled(s, SendLeave(p))
    ensures LeavesOk(Do(s, SendLeave(p)))
  {
    hide DoMembers, DoMessages, OnlyLines, OnlyNotes, Here;
    HereSnoc(s, Do(s, SendLeave(p)), Frame.Leave(p));
    assert Here(s, p, |s.memberFrames|);
    assert forall k :: 0 <= k < |s.memberFrames| && s.memberFrames[k].Leave? ==> s.memberFrames[k].id != p;
  }

  lemma ClientLeaves(s: State, a: Action)
    requires CountOk(s) && Enabled(s, a) && !a.MembersStep? && !a.MessagesStep?
    ensures CountOk(Do(s, a))
  {
    hide DoMembers, DoMessages, OnlyLines, OnlyNotes, LeavesOk, Online, IsOnline;
    if !Over(s) {
      if a.Start? {
        StartLeaves(s, a.p, a.nick);
      } else if a.SendLeave? {
        SendLeaveLeaves(s, a.p);
      } else {
        SameLeaves(s, Do(s, a));
      }
    }
  }

  lemma MessagesLeaves(s: State)
    requires CountOk(s) && Enabled(s, MessagesStep)
    ensures CountOk(DoMessages(s))
  {
    MessagesKeepMembers(s);
    hide DoMessages, LeavesOk, Online, IsOnline;
    if !Over(s) {
      SameLeaves(s, DoMessages(s));
    }
  }

  lemma JoinPendingTail(frames: seq<Frame>, p: int, k: nat)
    requires 0 < k <= |frames|
    ensures JoinPending(frames, p, k) <==> JoinPending(frames[1..], p, k - 1) || (frames[0].Join? && frames[0].id == p)
  {
    var rest := frames[1..];
    assert forall j :: 0 <= j < |rest| ==> rest[j] == frames[j + 1];
    if JoinPending(frames, p, k) {
      var j :| 0 <= j < k && frames[j].Join? && frames[j].id == p;
      if j > 0 {
        assert rest[j - 1].Join?;
      }
    }
    if JoinPending(rest, p, k - 1) {
      var j :| 0 <= j < k - 1 && rest[j].Join? && rest[j].id == p;
      assert frames[j + 1].Join?;
    }
  }

  /** The oldest frame has no frame before it: a leaver among them is online. */
  lemma LeaverIsOnline(s: State)
    requires LeavesOk(s) && s.mpc == Wait && s.memberFrames != [] && s.memberFrames[0].Leave?
    ensures IsOnline(s.members, s.memberFrames[0].id)
  {
    hide IsOnline;
    assert Here(s, s.memberFrames[0].id, 0);
  }

  lemma TakenLeaves(s: State)
    requires Inv(s) && CountOk(s) && s.mpc == Wait && s.memberFrames != []
    ensures CountOk(TakeMemberFrame(s))
  {
    var s', f := TakeMemberFrame(s), s.memberFrames[0];
    hide MemberSeen, NewcomerSeen, FramesOk, BroadcastOk, Distinct;
    if f.Leave? {
      LeaverIsOnline(s);
      OnlineAfterLeave(s.members, Find(s.members, f.id));
    }
    forall p | f.Leave? ==> p != f.id ensures IsOnline(s'.members, p) <==> IsOnline(s.members, p) {
      if f.Leave? {
        StillOnline(s.members, f.id, p);
      }
    }
    hide Online, Find, IsOnline, JoinPending;
    forall p, k: nat | 0 < k <= |s.memberFrames| {
      JoinPendingTail(s.memberFrames, p, k);
    }
    forall k | 0 <= k < |s'.memberFrames| ensures s'.memberFrames[k] == s.memberFrames[k + 1] {
    }
    TakenHere(s, s');
  }

  lemma StillOnline(ms: seq<Member>, id: int, p: int)
    requires Distinct(ms) && IsOnline(ms, id) && p != id
    ensures IsOnline(ms[Find(ms, id) := ms[Find(ms, id)].(online := false)], p) <==> IsOnline(ms, p)
  {
    hide Find;
    var ms' := ms[Find(ms, id) := ms[Find(ms, id)].(online := false)];
    assert forall k :: 0 <= k < |ms| ==> ms'[k].id == ms[k].id;
    assert Find(ms', p) == Find(ms, p);
  }

  lemma TakenHere(s: State, s': State)
    requires LeavesOk(s) && s.mpc == Wait && s.memberFrames != [] && s'.peers == s.peers
    requires s'.memberFrames == s.memberFrames[1..]
    requires forall k :: 0 <= k < |s'.memberFrames| ==> s'.memberFrames[k] == s.memberFrames[k + 1]
    requires forall p :: s.memberFrames[0].Join? && s.memberFrames[0].id == p ==> IsNewcomer(s', p)
    requires forall p :: !(s.memberFrames[0].Leave? && s.memberFrames[0].id == p) && IsOnline(s.members, p) ==>
               IsOnline(s'.members, p)
    ensures LeavesOk(s')
  {
    hide IsOnline, JoinPending;
    var f := s.memberFrames[0];
    forall p, k: nat | 0 < k <= |s.memberFrames| && Here(s, p, k) && !(f.Leave? && f.id == p)
      ensures Here(s', p, k - 1)
    {
      JoinPendingTail(s.memberFrames, p, k);
    }
    forall k | 0 <= k < |s'.memberFrames| && s'.memberFrames[k].Leave?
      ensures var p := s'.memberFrames[k].id; p in s'.peers && !Staying(s'.peers[p]) && Here(s', p, k)
    {
      assert s.memberFrames[k + 1].Leave?;
    }
    forall p | p in s'.peers && Staying(s'.peers[p]) ensures Here(s', p, |s'.memberFrames|) {
      assert Here(s, p, |s.memberFrames|);
    }
  }

  /** Registration makes the newcomer an online member; no other step of the thread takes a member away. */
  lemma MembersLeaves(s: State)
    requires Inv(s) && CountOk(s) && Enabled(s, MembersStep) && s.mpc != Wait
    ensures CountOk(DoMembers(s))
  {
    var s' := DoMembers(s);
    if s.mpc.Register? {
      RegisteredLeaves(s);
    } else if !Over(s') {
      MembersKeepMembers(s);
      hide DoMembers, LeavesOk, Online, IsOnline, Inv;
      SameLeaves(s, s');
    }
  }

  lemma MembersKeepMembers(s: State)
    requires Enabled(s, MembersStep) && s.mpc != Wait && !s.mpc.Register? && !Over(DoMembers(s))
    ensures var s' := DoMembers(s);
            && s'.members == s.members && s'.online == s.online
            && s'.memberFrames == s.memberFrames && s'.peers == s.peers
            && (forall p :: IsNewcomer(s, p) ==> IsNewcomer(s', p)) && !Over(s)
  {
    hide TakeMemberFrame, RegisterMember, Inbox;
    forall p, item
      ensures var s' := Put(s, p, item);
              && s'.members == s.members && s'.online == s.online
              && s'.memberFrames == s.memberFrames && s'.peers == s.peers
    {
    }
    hide Put;
  }

  lemma RegisteredLeaves(s: State)
    requires Inv(s) && CountOk(s) && s.mpc.Register?
    ensures CountOk(RegisterMember(s, s.mpc.nick, s.mpc.id, s.mpc.replayed))
  {
    var s', m := RegisterMember(s, s.mpc.nick, s.mpc.id, s.mpc.replayed), Member(s.mpc.nick, s.mpc.id, true);
    OnlineAfterJoin(s.members, m);
    hide NewcomerSeen, BroadcastOk, Distinct, Online, Due, LeavesOk;
    assert IsNewcomer(s, m.id) && m.id !in s.windows;
    UnregisteredIsNew(s, m.id);
    hide Inv;
    forall p ensures IsOnline(s'.members, p) <==> IsOnline(s.members, p) || p == m.id {
      OnlineSnoc(s.members, m, p);
    }
    hide IsOnline;
    SameLeaves(s, s');
  }

  // ---------------------------------------------------------------- every step, every run

  ghost predicate RostersOk(s: State) {
    Inv(s) && NotesOk(s) && CountOk(s)
  }

  lemma MembersNotes(s: State)
    requires RostersOk(s) && Enabled(s, MembersStep)
    ensures NotesOk(DoMembers(s))
  {
    hide Inv, NotesOk;
    match s.mpc
    case Wait => TakenNotes(s);
    case ShareMembers(_, _, i) => if i < |s.members| { ShareMemberNotes(s); } else { SharedNotes(s); }
    case ShareHistory(_, _, _) => SharedNotes(s);
    case Register(_, _, _) => RegisterNotes(s);
    case Announce(_, i) => if i < |s.members| { AnnouncedNotes(s); } else { ClosingNotes(s); }
    case _ => ClosingNotes(s);
  }

  lemma TakenNotes(s: State)
    requires RostersOk(s) && s.mpc == Wait && s.memberFrames != []
    ensures NotesOk(TakeMemberFrame(s))
  {
    hide Inv, NotesOk;
    if s.memberFrames[0].Join? {
      JoinTakenNotes(s);
    } else if s.memberFrames[0].Leave? {
      LeaverIsOnline(s);
      LeaveTakenNotes(s);
    } else {
      OtherTakenNotes(s);
    }
  }

  lemma OtherTakenNotes(s: State)
    requires NotesOk(s) && s.mpc == Wait && s.memberFrames != []
    requires !s.memberFrames[0].Join? && !s.memberFrames[0].Leave?
    ensures NotesOk(TakeMemberFrame(s))
  {
    hide NotesOk, SameNotes;
    NotesSame(s, TakeMemberFrame(s));
    QuietNotes(s, TakeMemberFrame(s));
  }

  /** Every step of every thread and client keeps what the main results state. */
  lemma StepRosters(s: State, a: Action)
    requires RostersOk(s) && Enabled(s, a)
    ensures RostersOk(Do(s, a))
  {
    hide Inv, NotesOk, CountOk, DoMembers, DoMessages;
    StepInv(s, a);
    DoIs(s, a);
    if a.MembersStep? {
      MembersNotes(s);
      if s.mpc == Wait {
        TakenLeaves(s);
        assert DoMembers(s) == TakeMemberFrame(s) by { WaitTakes(s); }
      } else {
        MembersLeaves(s);
      }
    } else if a.MessagesStep? {
      MessagesNotes(s);
      MessagesLeaves(s);
    } else {
      hide Do;
      ClientLeaves(s, a);
      if a.Start? {
        StartNotes(s, a.p, a.nick);
      } else {
        ClientNotes(s, a);
      }
    }
  }

  lemma WaitTakes(s: State)
    requires Enabled(s, MembersStep) && s.mpc == Wait
    ensures DoMembers(s) == TakeMemberFrame(s)
  {
  }

  lemma {:induction false} ReachableRosters(t: seq<State>, i: nat)
    requires Behavior(t) && i < |t|
    ensures RostersOk(t[i])
  {
    if i == 0 {
      InitInv(t[0]);
    } else {
      hide RostersOk, Do, Enabled, Init;
      ReachableRosters(t, i - 1);
      assert Next(t[i - 1], t[i]);
      var a :| Enabled(t[i - 1], a) && t[i] == Do(t[i - 1], a);
      StepRosters(t[i - 1], a);
    }
  }

  // ---------------------------------------------------------------- main results

  /**
   In every reachable state, what a registered client has taken and has pending, with the one announcement
   that may still be due to it, rebuilds the server's online members in order; no leave frame misses its target.
  */
  lemma RosterIsExact(t: seq<State>, i: nat, x: nat)
    requires Behavior(t) && i < |t| && x < |t[i].members|
    ensures t[i].members[x].id in t[i].peers
    ensures var r := HearAll(DueNotes(t[i], x)); !r.missed && Online(r.members) == Online(t[i].members)
    ensures t[i].mpc == Wait ==> DueNotes(t[i], x) == Notes(t[i], t[i].members[x].id)
  {
    hide Inv, CountOk, HearAll, Notes, Online;
    ReachableRosters(t, i);
    assert MemberNotes(t[i], x);
  }

  /** A leave frame the membership thread takes from the queue has an online member to switch off. */
  lemma LeaveFindsItsMember(t: seq<State>, i: nat)
    requires Behavior(t) && i < |t| && t[i].mpc == Wait && t[i].memberFrames != [] && t[i].memberFrames[0].Leave?
    ensures var k := Find(t[i].members, t[i].memberFrames[0].id); k >= 0 && t[i].members[k].online
  {
    hide Inv, NotesOk, LeavesOk, Online;
    ReachableRosters(t, i);
    LeaverIsOnline(t[i]);
  }

  /** The counter is the number of online members, so the thread closes the list exactly when nobody is left. */
  lemma ClosesWhenNobodyIsLeft(t: seq<State>, i: nat)
    requires Behavior(t) && i < |t| && t[i].mpc == TestOnline
    ensures t[i].online == |Online(t[i].members)|
    ensures DoMembers(t[i]).mpc == ClearMembers <==> Online(t[i].members) == []
  {
    hide Inv, NotesOk, LeavesOk, Online;
    ReachableRosters(t, i);
  }
}
