/**
 What overlapping parses cost.

 At the granularity of whole parses the message thread dies on the line it has sent out exactly when the
 parse of a member frame has begun since it looked at the line's first token.  At the granularity of
 single calls the tokens of one frame can end up in the other's lists.
*/
module ChatOverlappingParses {
  import opened ChatCodec
  import opened ChatServer
  import opened ChatClient
  import opened ChatMirror
  import opened ChatParsing
  import opened ChatTexts
  import I = ChatInterleaved
  import P = ChatSeparateParses
  import R = ChatRosters

  // ---------------------------------------------------------------- whole parses

  /** From the reception of a member frame to the last call for it. */
  predicate MembersBlock(s: State) {
    s.m.pc == Lock || s.m.pc == First || MembersInside(s)
  }

  /** From the reception of a chat frame to the call for its first token, and between its last two calls. */
  predicate MessagesBlock(s: State) {
    s.c.pc == Head || s.c.pc.PidCall?
  }

  /** Neither server thread steps while the other is in a block. */
  predicate Whole(s: State, a: Action) {
    (a.MembersStep? ==> !MessagesBlock(s)) && (a.MessagesStep? ==> !MembersBlock(s))
  }

  ghost predicate WholeNext(s: State, s': State) {
    exists a :: Enabled(s, a) && Whole(s, a) && s' == Do(s, a)
  }

  ghost predicate WholeRun(t: seq<State>) {
    t != [] && Init(t[0]) && forall i :: 0 <= i < |t| - 1 ==> WholeNext(t[i], t[i + 1])
  }

  /** After a whole parse of a member frame the saved place is at the end of that frame. */
  ghost predicate TakenOk(s: State) {
    (s.c.pc.Broadcast? || s.c.pc == LineCall) && s.taken && !MembersBlock(s) ==> AtEnd(s)
  }

  ghost predicate WholeOk(s: State) {
    && TextsOk(s.net) && MembersInHand(s) && MessagesInHand(s) && TakenOk(s)
    && !(MembersBlock(s) && MessagesBlock(s))
    && (MembersInside(s) && MessagesInside(s) ==> s.taken)
  }

  ghost predicate WholeInv(s: State) {
    s.fault || WholeOk(s)
  }

  /** A step outside a block leaves the place where it is, and starts a block or keeps it at the end. */
  lemma OutsideAtEnd(s: State, junk: string)
    requires Enabled(s, Action.MembersStep(junk)) && AtEnd(s) && MembersInHand(s) && !MembersBlock(s)
    ensures MembersBlock(DoMembers(s, junk)) || AtEnd(DoMembers(s, junk))
  {
    hide TextAt, Over, MembersInHand, MembersApply, MembersLoops, DoMembers;
    if s.m.pc == Restore {
      RestoreEnd(s, junk);
    } else if s.m.pc.Apply? {
      P.ApplyIs(s, junk);
      ApplyBuf(s, s.m.pc.leave, s.m.pc.nick, s.m.pc.num);
    } else if s.m.pc == Wait {
      WaitBlock(s, junk);
    } else {
      P.LoopsAre(s, junk);
      LoopsBuf(s);
    }
  }

  lemma RestoreEnd(s: State, junk: string)
    requires Enabled(s, Action.MembersStep(junk)) && s.m.pc == Restore && AtEnd(s) && MembersInHand(s)
    ensures AtEnd(DoMembers(s, junk))
  {
    assert GoodMemberText(s.m.copy);
    hide TextAt, Over, MembersInHand, GoodMemberText, MembersFirst, MembersSecond, MembersThird, MembersApply,
      MembersLoops;
    RestoredBuf(s);
  }

  lemma WaitBlock(s: State, junk: string)
    requires Enabled(s, Action.MembersStep(junk)) && s.m.pc == Wait
    ensures MembersBlock(DoMembers(s, junk))
  {
    hide TextAt, Over, MembersFirst, MembersSecond, MembersThird, MembersApply, MembersLoops;
  }

  lemma ApplyBuf(s: State, leave: bool, nick: string, num: string)
    ensures var s' := MembersApply(s, leave, nick, num);
            s'.m.buf == s.m.buf && s'.m.copy == s.m.copy && s'.saved == s.saved
  {
    hide Find, Atoi;
  }

  lemma LoopsBuf(s: State)
    ensures var s' := MembersLoops(s); s'.m.buf == s.m.buf && s'.m.copy == s.m.copy && s'.saved == s.saved
  {
    hide ItemOf, TextAt, Post, Sent, MemberText, ChatText;
  }

  /** A block is begun by a reception, and left by its last call. */
  lemma BlockEdges(s: State, junk: string)
    requires Enabled(s, Action.MembersStep(junk))
    ensures MembersBlock(s) && !MembersBlock(DoMembers(s, junk)) ==> s.m.pc.Third?
    ensures MembersBlock(DoMembers(s, junk)) ==> MembersBlock(s) || s.m.pc == Wait
  {
    hide TextAt, CallAt, Over, ItemOf, Find, Atoi, Post, Sent;
    if MembersBlock(s) {
      hide MembersLoops, MembersApply;
    } else if s.m.pc.Apply? {
      hide MembersLoops;
    } else {
      hide MembersApply;
    }
  }

  lemma WholeMembers(s: State, junk: string)
    requires WholeOk(s) && Enabled(s, Action.MembersStep(junk)) && Whole(s, Action.MembersStep(junk))
    ensures WholeInv(DoMembers(s, junk))
  {
    hide TextsOk, MembersInHand, MessagesInHand, AtEnd, DoMembers;
    var s' := DoMembers(s, junk);
    MembersStepInHand(s, junk);
    P.MembersPcs(s, junk);
    BlockEdges(s, junk);
    if (s.c.pc.Broadcast? || s.c.pc == LineCall) && s.taken && !MembersBlock(s) {
      OutsideAtEnd(s, junk);
    }
    MembersStepOther(s, s');
  }

  /** With the saved place at the end of a member frame the line's next token is null. */
  lemma LineCallFails(s: State)
    requires Enabled(s, Action.MessagesStep) && s.c.pc == LineCall && AtEnd(s)
    ensures DoMessages(s).fault
  {
    hide MessagesHead, MessagesPid, Over, Post;
  }

  lemma WholeMessages(s: State)
    requires WholeOk(s) && Enabled(s, Action.MessagesStep) && Whole(s, Action.MessagesStep)
    ensures WholeInv(DoMessages(s))
  {
    hide TextsOk, MembersInHand, MessagesInHand, AtEnd, DoMessages;
    if s.c.pc == LineCall && s.taken {
      LineCallFails(s);
    } else {
      var s' := DoMessages(s);
      MessagesStepInHand(s);
      MessagesStepOther(s, s');
      P.MessagesPcs(s);
      MessagesKeepEnd(s);
    }
  }

  lemma MessagesKeepEnd(s: State)
    requires WholeOk(s) && Enabled(s, Action.MessagesStep) && Whole(s, Action.MessagesStep)
    requires MessagesStepOk(s, DoMessages(s)) && (s.c.pc == LineCall ==> !s.taken)
    ensures TakenOk(DoMessages(s))
  {
    hide TextsOk, MembersInHand, MessagesInHand, CallAt, TextAt, ItemOf, Post, Over, Atoi;
  }

  lemma WholeClient(s: State, a: Action)
    requires WholeInv(s) && Enabled(s, a) && !a.MembersStep? && !a.MessagesStep?
    ensures WholeInv(Do(s, a))
  {
    if !s.fault {
      ClientTexts(s.net, a);
    }
    hide TextsOk, DoClient, WholeOk;
    ClientKeeps(s, Do(s, a));
  }

  lemma ClientKeeps(s: State, s': State)
    requires WholeInv(s) && s' == s.(net := s'.net) && (!s.fault ==> TextsOk(s'.net))
    ensures WholeInv(s')
  {
    hide TextsOk, TextAt, GoodMemberText, GoodChatText;
  }

  lemma {:induction false} ReachableWhole(t: seq<State>, i: nat)
    requires WholeRun(t) && i < |t|
    ensures WholeInv(t[i])
  {
    if i == 0 {
      hide TextAt;
    } else {
      ReachableWhole(t, i - 1);
      assert WholeNext(t[i - 1], t[i]);
      hide WholeOk, WholeRun, WholeNext, DoMembers, DoMessages, Whole, DoClient;
      var a :| Enabled(t[i - 1], a) && Whole(t[i - 1], a) && t[i] == Do(t[i - 1], a);
      match a
      case MembersStep(junk) => WholeMembers(t[i - 1], junk);
      case MessagesStep => WholeMessages(t[i - 1]);
      case _ => WholeClient(t[i - 1], a);
    }
  }

  /**
   At this granularity the call for the line, once the line has been sent to everybody, gets a null token
   and ends the server exactly when `taken` is set; otherwise it gets the line.
  */
  lemma FaultsIffFrameTaken(t: seq<State>, i: nat)
    requires WholeRun(t) && i < |t| && t[i].c.pc == LineCall
    requires Enabled(t[i], Action.MessagesStep) && Whole(t[i], Action.MessagesStep)
    ensures DoMessages(t[i]).fault <==> t[i].taken
    ensures var token := LineTok(t[i].c.text);
            !t[i].taken ==> token.Token? && DoMessages(t[i]).c.pc == PidCall(token.text)
  {
    hide TextsOk, MembersInHand, MessagesInHand, AtEnd, DoMessages, WholeRun;
    ReachableWhole(t, i);
    var s := t[i];
    if s.taken {
      LineCallFails(s);
    } else {
      MessagesStepInHand(s);
      LineCallMoves(s);
    }
  }

  lemma LineCallMoves(s: State)
    requires Enabled(s, Action.MessagesStep) && s.c.pc == LineCall && MessagesInHand(s)
    requires MessagesStepOk(s, DoMessages(s))
    ensures LineTok(s.c.text).Token? && DoMessages(s).c.pc == PidCall(LineTok(s.c.text).text)
  {
    hide TextsOk, CallAt, TextAt, ItemOf, Post, Over, Atoi;
  }

  /** A message that is appended at this granularity is the one that was sent. */
  lemma AppendsWhatWasSent(t: seq<State>, i: nat)
    requires WholeRun(t) && i < |t| && t[i].c.pc.Append? && !t[i].fault
    ensures ParseChat(t[i].c.text) == Chat(t[i].c.pc.line, Atoi(t[i].c.pc.num))
  {
    hide TextsOk, MembersInHand, TakenOk, WholeRun, ParseChat, Atoi;
    ReachableWhole(t, i);
    assert GoodLineText(t[i].c.text);
    ParsedChat(t[i].c.text);
  }

  // ---------------------------------------------------------------- what `taken` records

  /** Step `k` is the first call for a member frame. */
  predicate BeginsFrame(t: seq<State>, k: nat)
    requires k + 1 < |t|
  {
    t[k].m.pc == First && t[k + 1].m.pc.Second?
  }

  lemma OneStepTaken(s: State, s': State)
    requires Next(s, s')
    ensures s.c.pc == Head && s'.c.pc.Broadcast? ==> !s'.taken
    ensures s.c.pc != Head ==> (s'.taken <==> s.taken || (s.m.pc == First && s'.m.pc.Second?))
  {
    var a :| Enabled(s, a) && s' == Do(s, a);
    hide CallAt, TextAt, Over, ItemOf, Post, Atoi, Find, Sent;
    match a
    case MembersStep(junk) =>
      hide DoMessages, DoClient;
      MembersStepTaken(s, junk);
      hide DoMembers;
    case MessagesStep =>
      hide DoMembers, DoClient;
      MessagesStepTaken(s);
      hide DoMessages;
    case _ =>
      hide DoMembers, DoMessages, DoClient;
  }

  lemma MembersStepTaken(s: State, junk: string)
    requires Enabled(s, Action.MembersStep(junk))
    ensures var s' := DoMembers(s, junk);
            s'.c.pc == s.c.pc && (s'.taken <==> s.taken || (s.m.pc == First && s'.m.pc.Second?))
  {
    hide CallAt, TextAt, Over, ItemOf, Post, Atoi, Find, Sent;
    if MembersBlock(s) || s.m.pc in {Wait, Restore} || s.m.pc.Apply? {
      hide MembersLoops;
    } else {
      P.LoopsAre(s, junk);
      hide DoMembers;
    }
  }

  lemma MessagesStepTaken(s: State)
    requires Enabled(s, Action.MessagesStep)
    ensures var s' := DoMessages(s);
            && s'.m.pc == s.m.pc && (s.c.pc != Head ==> s'.taken == s.taken)
            && (s'.c.pc.Broadcast? && s.c.pc == Head ==> !s'.taken)
  {
    hide CallAt, TextAt, Over, ItemOf, Post, Atoi;
  }

  /** From the call for a line's first token on, `taken` says whether a member frame has been begun since. */
  lemma {:induction false} TakenMeans(t: seq<State>, a: nat, i: nat)
    requires Behavior(t) && a < i < |t| && t[a].c.pc == Head && t[a + 1].c.pc.Broadcast?
    requires forall k :: a < k <= i ==> t[k].c.pc != Head
    ensures t[i].taken <==> exists k :: a < k < i && BeginsFrame(t, k)
    decreases i
  {
    hide Next;
    if i == a + 1 {
      assert Next(t[a], t[a + 1]);
      OneStepTaken(t[a], t[a + 1]);
    } else {
      TakenMeans(t, a, i - 1);
      assert Next(t[i - 1], t[i]);
      OneStepTaken(t[i - 1], t[i]);
      assert t[i].taken <==> t[i - 1].taken || BeginsFrame(t, i - 1);
      hide BeginsFrame;
    }
  }

  lemma WholeRunsAreRuns(t: seq<State>)
    requires WholeRun(t)
    ensures Behavior(t)
  {
    hide Init, Enabled, Do, Whole;
    forall i | 0 <= i < |t| - 1 ensures Next(t[i], t[i + 1]) {
      assert WholeNext(t[i], t[i + 1]);
    }
  }

  /**
   So the server ends on a line it has sent to everybody exactly when it has begun to parse a member frame
   since it took the line's first token; with whole parses, that is since it received the line.
  */
  lemma LineIsLostIffFrameBegun(t: seq<State>, a: nat, i: nat)
    requires WholeRun(t) && a < i < |t| && t[a].c.pc == Head && t[a + 1].c.pc.Broadcast?
    requires forall k :: a < k <= i ==> t[k].c.pc != Head
    requires t[i].c.pc == LineCall && Enabled(t[i], Action.MessagesStep) && Whole(t[i], Action.MessagesStep)
    ensures DoMessages(t[i]).fault <==> exists k :: a < k < i && BeginsFrame(t, k)
  {
    hide DoMessages, WholeRun, Behavior, BeginsFrame;
    WholeRunsAreRuns(t);
    FaultsIffFrameTaken(t, i);
    TakenMeans(t, a, i);
  }
}
