/**
 What holds in every run in which the server's two threads parse one after the other.

 Such a run is, step by step, a run of the machine with private parses, so what is proved there of views
 and member lists holds here; besides, no null token is ever used.
*/
module ChatSeparateRuns {
  import opened ChatCodec
  import opened ChatServer
  import opened ChatClient
  import opened ChatMirror
  import opened ChatParsing
  import opened ChatTexts
  import opened ChatSeparateParses
  import I = ChatInterleaved
  import R = ChatRosters

  // ---------------------------------------------------------------- main results

  ghost predicate Shows(t: seq<State>, u: seq<I.State>, at: seq<nat>, k: nat)
    requires k < |t| && k < |at|
  {
    at[k] < |u| && u[at[k]] == View(t[k])
  }

  predicate AtMostOne(at: seq<nat>, k: nat)
    requires k + 1 < |at|
  {
    at[k] <= at[k + 1] <= at[k] + 1
  }

  /** Each step of `t` up to `i` is a step of `u` or none. */
  ghost predicate Follow(t: seq<State>, u: seq<I.State>, at: seq<nat>, i: nat)
    requires i < |t|
  {
    && |at| == i + 1 && at[0] == 0 && at[i] + 1 == |u|
    && (forall k :: 0 <= k <= i ==> Shows(t, u, at, k))
    && (forall k :: 0 <= k < i ==> AtMostOne(at, k))
  }

  lemma FollowFirst(t: seq<State>)
    requires t != []
    ensures Follow(t, [View(t[0])], [0], 0)
  {
    hide View;
  }

  lemma FollowOn(t: seq<State>, u: seq<I.State>, at: seq<nat>, i: nat)
    requires 0 < i < |t| && Follow(t, u, at, i - 1)
    ensures View(t[i]) == View(t[i - 1]) ==> Follow(t, u, at + [|u| - 1], i)
    ensures Follow(t, u + [View(t[i])], at + [|u|], i)
  {
    hide View;
    var at0, at1, u1 := at + [|u| - 1], at + [|u|], u + [View(t[i])];
    assert Shows(t, u, at, i - 1);
    forall k | 0 <= k < i
      ensures Shows(t, u, at0, k) && Shows(t, u1, at1, k) && AtMostOne(at0, k) && AtMostOne(at1, k)
    {
      assert Shows(t, u, at, k);
      if k < i - 1 {
        assert AtMostOne(at, k);
      }
    }
  }

  /**
   Up to steps that do nothing there, a separate run is a run of the machine with private parses; `at` says
   where each of its states is found in that run.
  */
  lemma {:induction false} SeparateRunsRefine(t: seq<State>, i: nat) returns (u: seq<I.State>, at: seq<nat>)
    requires SeparateRun(t) && i < |t|
    ensures I.Behavior(u) && Follow(t, u, at, i) && u != [] && u[|u| - 1] == View(t[i])
  {
    hide SeparateInv, Do, Enabled, Separate, Init, View, I.Next, I.Init, Follow;
    if i == 0 {
      InitInv(t[0]);
      u, at := [View(t[0])], [0];
      FollowFirst(t);
    } else {
      u, at := SeparateRunsRefine(t, i - 1);
      ReachableSeparate(t, i - 1);
      assert SeparateNext(t[i - 1], t[i]);
      var a :| Enabled(t[i - 1], a) && Separate(t[i - 1], a) && t[i] == Do(t[i - 1], a);
      StepSeparate(t[i - 1], a);
      FollowOn(t, u, at, i);
      at := at + [if View(t[i]) == View(t[i - 1]) then |u| - 1 else |u|];
      if View(t[i]) != View(t[i - 1]) {
        u := u + [View(t[i])];
      }
    }
  }

  /** No null token reaches `strcmp`, `strlen` or `atoi`, and every leave frame has its member. */
  lemma NoFaultWhenSeparate(t: seq<State>, i: nat)
    requires SeparateRun(t) && i < |t|
    ensures !t[i].fault
  {
    hide R.RostersOk;
    ReachableSeparate(t, i);
  }

  /** What is registered and appended is what the frame in hand says. */
  lemma TokensAreTheFrame(t: seq<State>, i: nat)
    requires SeparateRun(t) && i < |t|
    ensures t[i].m.pc.Apply? ==>
              ParseMember(t[i].m.copy) == if t[i].m.pc.leave then Frame.Leave(Atoi(t[i].m.pc.num))
                                          else Join(t[i].m.pc.nick, Atoi(t[i].m.pc.num))
    ensures t[i].c.pc.Append? ==> ParseChat(t[i].c.text) == Chat(t[i].c.pc.line, Atoi(t[i].c.pc.num))
  {
    hide R.RostersOk, ParseMember, ParseChat, TextsOk;
    ReachableSeparate(t, i);
    if t[i].m.pc.Apply? {
      AppliedFrame(t[i]);
    }
    if t[i].c.pc.Append? {
      assert GoodLineText(t[i].c.text);
      ParsedChat(t[i].c.text);
    }
  }

  /**
   What a registered client has received and has pending is, as history, the messages before the end of its
   replay and then, live, the messages from its registration on, the one in flight included once its turn
   has come.
  */
  lemma SeenIsHistoryThenLive(t: seq<State>, i: nat, x: nat)
    requires SeparateRun(t) && i < |t| && x < |t[i].lists.members|
    ensures var v, p := View(t[i]), t[i].lists.members[x].id;
            && p in v.peers && p in v.windows
            && v.windows[p].replayed <= v.windows[p].live <= I.Due(v, x) <= |t[i].lists.messages| + 1
            && I.Seen(v, p) == I.Lines(I.Log(v)[..v.windows[p].replayed], false)
                               + I.Lines(I.Log(v)[v.windows[p].live..I.Due(v, x)], true)
  {
    hide I.Seen, I.Behavior, I.Lines;
    var u, at' := SeparateRunsRefine(t, i);
    ViewFields(t[i]);
    hide View;
    I.SeenIsHistoryThenLive(u, |u| - 1, x);
  }

  /** Nothing is seen twice or out of order. */
  lemma SeenIsASubsequence(t: seq<State>, i: nat, x: nat) returns (at: seq<nat>)
    requires SeparateRun(t) && i < |t| && x < |t[i].lists.members|
    ensures t[i].lists.members[x].id in t[i].net.peers
    ensures I.Embeds(I.Seen(View(t[i]), t[i].lists.members[x].id), I.Log(View(t[i])), at)
  {
    hide I.Seen, I.Behavior, I.Log, I.Embeds;
    var u, at' := SeparateRunsRefine(t, i);
    ViewFields(t[i]);
    at := I.SeenIsASubsequence(u, |u| - 1, x);
  }

  /** Step `k` puts a line on the list. */
  predicate ListsLine(t: seq<State>, k: nat)
    requires k + 1 < |t|
  {
    |t[k + 1].lists.messages| > |t[k].lists.messages|
  }

  /** The step that ends a replay finds nothing more to send, and registration waits for its turn since then. */
  ghost predicate EndsReplay(t: seq<State>, a: nat, b: nat)
    requires a < b < |t|
  {
    && t[a].m.pc.ShareHistory? && t[a].m.pc.j == |t[a].lists.messages|
    && t[b].m.pc == Register(t[a].m.pc.nick, t[a].m.pc.id, |t[a].lists.messages|)
    && forall k :: a < k <= b ==> t[k].m.pc == t[b].m.pc
  }

  /** The step of `t` that is step `b` of `u`. */
  lemma FollowedStep(at: seq<nat>, b: nat) returns (k: nat)
    requires |at| > 0 && at[0] == 0 && b < at[|at| - 1]
    requires forall k :: 0 <= k < |at| - 1 ==> AtMostOne(at, k)
    ensures k + 1 < |at| && at[k] == b && at[k + 1] == b + 1
  {
    hide AtMostOne;
    k := 0;
    while at[k + 1] <= b
      invariant k + 1 < |at| && at[k] <= b
      decreases |at| - k
    {
      k := k + 1;
    }
    assert AtMostOne(at, k);
    NextIndex(at, k, b);
  }

  lemma NextIndex(at: seq<nat>, k: nat, b: nat)
    requires k + 1 < |at| && AtMostOne(at, k) && at[k] <= b < at[k + 1]
    ensures at[k] == b && at[k + 1] == b + 1
  {
  }

  lemma {:induction false} FollowsInOrder(at: seq<nat>, j: nat, k: nat)
    requires j <= k < |at|
    requires forall k :: 0 <= k < |at| - 1 ==> AtMostOne(at, k)
    ensures at[j] <= at[k]
    decreases k
  {
    if j < k {
      FollowsInOrder(at, j, k - 1);
      assert AtMostOne(at, k - 1);
    }
  }

  /** A step of `t` puts a line on the list exactly when it is a step of `u` that does. */
  lemma ListsWhenAppends(t: seq<State>, u: seq<I.State>, at: seq<nat>, i: nat, k: nat)
    requires i < |t| && I.Behavior(u) && Follow(t, u, at, i) && k < i
    ensures ListsLine(t, k) <==> at[k + 1] == at[k] + 1 && at[k + 1] < |u| && I.Appends(u, at[k])
  {
    assert Shows(t, u, at, k) && Shows(t, u, at, k + 1) && AtMostOne(at, k);
    if at[k + 1] == at[k] + 1 {
      OneMore(u, at[k]);
    }
    hide I.Next, I.Init, I.Appends, View, I.Behavior, Follow;
    ViewFields(t[k]);
    ViewFields(t[k + 1]);
  }

  lemma OneMore(u: seq<I.State>, k: nat)
    requires I.Behavior(u) && k + 1 < |u|
    ensures |u[k + 1].messages| == |u[k].messages| + if I.Appends(u, k) then 1 else 0
  {
    hide I.Next, I.Init;
    assert I.Next(u[k], u[k + 1]);
    I.OneStepAppends(u[k], u[k + 1]);
  }

  lemma SameAppends(t: seq<State>, u: seq<I.State>, at: seq<nat>, i: nat, a: nat, b: nat)
    requires i < |t| && I.Behavior(u) && Follow(t, u, at, i) && a <= b <= i
    ensures at[b] < |u|
    ensures (forall k :: a <= k < b ==> !ListsLine(t, k)) <==> (forall k :: at[a] <= k < at[b] ==> !I.Appends(u, k))
  {
    hide I.Behavior, I.Appends, ListsLine, Shows, AtMostOne;
    FollowsInOrder(at, b, i);
    if k :| a <= k < b && ListsLine(t, k) {
      ListsWhenAppends(t, u, at, i, k);
      FollowsInOrder(at, a, k);
      FollowsInOrder(at, k + 1, b);
    }
    if k' :| at[a] <= k' < at[b] && I.Appends(u, k') {
      var k := FollowedStep(at, k');
      ListsWhenAppends(t, u, at, i, k);
      StepsBetween(at, a, b, k);
    }
  }

  lemma StepsBetween(at: seq<nat>, a: nat, b: nat, k: nat)
    requires a <= b < |at| && k + 1 < |at| && at[a] <= at[k] < at[b] && at[k + 1] == at[k] + 1
    requires forall k :: 0 <= k < |at| - 1 ==> AtMostOne(at, k)
    ensures a <= k < b
  {
    hide AtMostOne;
    if k < a {
      FollowsInOrder(at, k + 1, a);
    }
    if b <= k {
      FollowsInOrder(at, b, k);
    }
  }

  /**
   A client has seen everything it is due exactly when, from the step that ended its replay to the step
   that registered it, no line was put on the list, and at its registration none had been sent to everybody
   and not yet listed.
  */
  lemma CompleteIffNothingFellBetween(t: seq<State>, i: nat, x: nat) returns (a: nat, b: nat)
    requires SeparateRun(t) && i < |t| && x < |t[i].lists.members|
    ensures a < b < i && EndsReplay(t, a, b) && t[a].m.pc.id == t[i].lists.members[x].id
    ensures t[b + 1].m.pc == Restore
    ensures var v, p := View(t[i]), t[i].lists.members[x].id;
            && p in v.peers
            && (|I.Seen(v, p)| == I.Due(v, x) <==>
                  (forall k :: a <= k < b ==> !ListsLine(t, k)) && Sent(t[b]) == |t[b].lists.messages|)
            && (|I.Seen(v, p)| == I.Due(v, x) ==>
                  forall k :: 0 <= k < I.Due(v, x) ==>
                    && k < |I.Seen(v, p)| && I.Seen(v, p)[k].Line?
                    && I.Seen(v, p)[k].message == I.Log(v)[k])
  {
    hide I.Seen, I.Due, I.Log, I.Behavior, ListsLine, I.Appends, I.EndsReplay, View, EndsReplay, Sent, SeparateNext,
      AtMostOne, Shows;
    var u, at := SeparateRunsRefine(t, i);
    ViewFields(t[i]);
    var a', b' := I.CompleteIffNothingFellBetween(u, |u| - 1, x);
    a := FollowedStep(at, a');
    b := FollowedStep(at, b');
    if b <= a {
      FollowsInOrder(at, b, a);
    }
    SameAppends(t, u, at, i, a, b);
    SameReplay(t, u, at, i, a, b);
    NextShown(t, u, at, i, b);
    assert SeparateNext(t[b], t[b + 1]);
    RegisterRestores(t[b], t[b + 1]);
  }

  lemma NextShown(t: seq<State>, u: seq<I.State>, at: seq<nat>, i: nat, b: nat)
    requires i < |t| && Follow(t, u, at, i) && b < i
    ensures at[b + 1] < |u| && View(t[b + 1]) == u[at[b + 1]]
  {
    hide View;
    assert Shows(t, u, at, b + 1);
  }

  lemma RegisterRestores(s: State, s': State)
    requires SeparateNext(s, s') && s.m.pc.Register? && View(s').mpc.Announce?
    ensures s'.m.pc == Restore
  {
    hide Separate, Sent, DoMessages, DoClient;
    var a :| Enabled(s, a) && Separate(s, a) && s' == Do(s, a);
    match a
    case MembersStep(junk) =>
      LoopsAre(s, junk);
      hide DoMembers;
    case MessagesStep =>
      hide DoMembers;
      MessagesKeepPc(s);
    case _ =>
      hide DoMembers;
  }

  lemma MessagesKeepPc(s: State)
    requires Enabled(s, Action.MessagesStep)
    ensures DoMessages(s).m.pc == s.m.pc
  {
    hide CallAt, TextAt, ItemOf, Atoi, Post, Over;
  }

  lemma SameReplay(t: seq<State>, u: seq<I.State>, at: seq<nat>, i: nat, a: nat, b: nat)
    requires i < |t| && Follow(t, u, at, i) && a < b <= i && at[a] < at[b] < |u|
    requires at[a + 1] == at[a] + 1 && I.EndsReplay(u, at[a], at[b])
    ensures EndsReplay(t, a, b) && t[a].m.pc.id == u[at[a]].mpc.id && t[b].m.pc.Register?
    ensures Sent(t[b]) == |t[b].lists.messages| <==> !u[at[b]].cpc.Append?
  {
    hide AtMostOne, View;
    assert Shows(t, u, at, a) && Shows(t, u, at, b);
    var pc := u[at[b]].mpc;
    forall k | a < k <= b ensures View(t[k]).mpc == pc {
      FollowsInOrder(at, a + 1, k);
      FollowsInOrder(at, k, b);
      assert Shows(t, u, at, k);
    }
    hide Follow, Shows;
    RegisterView(t[b]);
    forall k | a < k <= b ensures t[k].m.pc == t[b].m.pc {
      RegisterView(t[k]);
    }
    ReplayView(t[a]);
  }

  lemma RegisterView(s: State)
    ensures View(s).mpc.Register? ==>
              s.m.pc == Register(View(s).mpc.nick, View(s).mpc.id, View(s).mpc.replayed)
    ensures Sent(s) == |s.lists.messages| <==> !View(s).cpc.Append?
  {
    hide LineOf, ParseMember, ParseChat, TextAt, DecodedMembers, DecodedChats;
  }

  lemma ReplayView(s: State)
    requires View(s).mpc.ShareHistory?
    ensures s.m.pc == ShareHistory(View(s).mpc.nick, View(s).mpc.id, View(s).mpc.j)
    ensures View(s).messages == s.lists.messages
  {
    hide LineOf, ParseMember, ParseChat, TextAt, DecodedMembers, DecodedChats;
  }

  lemma WaitingView(s: State)
    ensures View(s).peers == s.net.peers && (s.m.pc == Wait ==> View(s).mpc == I.MembersPc.Wait)
  {
  }

  /** What a client took and has pending, with the one announcement due to it, rebuilds the online members. */
  lemma RosterIsExact(t: seq<State>, i: nat, x: nat)
    requires SeparateRun(t) && i < |t| && x < |t[i].lists.members|
    ensures t[i].lists.members[x].id in t[i].net.peers
    ensures var r := R.HearAll(R.DueNotes(View(t[i]), x)); !r.missed && Online(r.members) == Online(t[i].lists.members)
    ensures t[i].m.pc == Wait ==> R.DueNotes(View(t[i]), x) == R.Notes(View(t[i]), t[i].lists.members[x].id)
  {
    hide R.HearAll, R.DueNotes, R.Notes, I.Behavior, Online, Follow, SeparateRun, View;
    var u, at' := SeparateRunsRefine(t, i);
    ViewFields(t[i]);
    WaitingView(t[i]);
    R.RosterIsExact(u, |u| - 1, x);
  }

  /** A leave frame acted on has an online member to switch off. */
  lemma LeaveFindsItsMember(t: seq<State>, i: nat)
    requires SeparateRun(t) && i < |t| && t[i].m.pc.Apply? && t[i].m.pc.leave
    ensures IsOnline(t[i].lists.members, Atoi(t[i].m.pc.num))
  {
    hide R.RostersOk, ParseMember, TextsOk, MessagesInHand, View;
    ReachableSeparate(t, i);
    AppliedFrame(t[i]);
    AppliedLeaver(t[i]);
  }

  /** The list is given up exactly when nobody is online. */
  lemma ClosesWhenNobodyIsLeft(t: seq<State>, i: nat)
    requires SeparateRun(t) && i < |t| && t[i].m.pc == TestOnline
    ensures t[i].lists.online == |Online(t[i].lists.members)|
    ensures MembersLoops(t[i]).m.pc == ClearMembers <==> Online(t[i].lists.members) == []
  {
    hide R.LeavesOk, I.Inv, R.NotesOk, Online, LocalOk;
    ReachableSeparate(t, i);
  }
}
