/**
 When a client's replica mirrors the server, and what each kind of frame does to a mirror.
*/
module ChatMirror {
  import opened ChatCodec
  import opened ChatServer
  import opened ChatClient

  // ---------------------------------------------------------------- member lists

  predicate Distinct(ms: seq<Member>) {
    forall i, j :: 0 <= i < j < |ms| ==> ms[i].id != ms[j].id
  }

  predicate Has(ms: seq<Member>, id: int) {
    Find(ms, id) >= 0
  }

  predicate IsOnline(ms: seq<Member>, id: int) {
    Find(ms, id) >= 0 && ms[Find(ms, id)].online
  }

  function WithoutId(ms: seq<Member>, id: int): seq<Member> {
    if ms == [] then []
    else
      var last := ms[|ms| - 1];
      WithoutId(ms[..|ms| - 1], id) + if last.id == id then [] else [last]
  }

  lemma {:induction false} OnlineIn(ms: seq<Member>, m: Member)
    ensures m in Online(ms) <==> m in ms && m.online
  {
    if ms != [] {
      OnlineIn(ms[..|ms| - 1], m);
      assert ms == ms[..|ms| - 1] + [ms[|ms| - 1]];
    }
  }

  lemma {:induction false} WithoutAbsent(ms: seq<Member>, id: int)
    requires forall k :: 0 <= k < |ms| ==> ms[k].id != id
    ensures WithoutId(ms, id) == ms
  {
    if ms != [] {
      WithoutAbsent(ms[..|ms| - 1], id);
    }
  }

  lemma OnlineSplit(ms: seq<Member>)
    requires ms != []
    ensures var n := |ms| - 1; Online(ms) == Online(ms[..n]) + if ms[n].online then [ms[n]] else []
  {
  }

  /** Taking one member offline removes exactly that one from the online list. */
  lemma {:induction false} OnlineAfterLeave(ms: seq<Member>, k: nat)
    requires Distinct(ms) && k < |ms|
    ensures Online(ms[k := ms[k].(online := false)]) == WithoutId(Online(ms), ms[k].id)
    ensures |Online(ms[k := ms[k].(online := false)])| == |Online(ms)| - if ms[k].online then 1 else 0
  {
    hide Online, WithoutId;
    var n := |ms| - 1;
    var ms' := ms[k := ms[k].(online := false)];
    OnlineSplit(ms);
    OnlineSplit(ms');
    WithoutSnoc(Online(ms[..n]), if ms[n].online then [ms[n]] else [], ms[k].id);
    if k == n {
      assert ms'[..n] == ms[..n];
      LeaverAbsent(ms);
    } else {
      assert ms'[..n] == ms[..n][k := ms[k].(online := false)];
      OnlineAfterLeave(ms[..n], k);
    }
  }

  lemma LeaverAbsent(ms: seq<Member>)
    requires Distinct(ms) && ms != []
    ensures var n := |ms| - 1;
            WithoutId(Online(ms[..n]), ms[n].id) == Online(ms[..n])
  {
    hide Online;
    var front := ms[..|ms| - 1];
    forall j | 0 <= j < |Online(front)| ensures Online(front)[j].id != ms[|ms| - 1].id {
      OnlineIn(front, Online(front)[j]);
    }
    WithoutAbsent(Online(front), ms[|ms| - 1].id);
  }

  lemma WithoutSnoc(ms: seq<Member>, last: seq<Member>, id: int)
    requires |last| <= 1
    ensures WithoutId(ms + last, id) == WithoutId(ms, id) + if last == [] || last[0].id == id then [] else last
  {
    if last == [] {
      assert ms + last == ms;
    } else {
      assert (ms + last)[..|ms|] == ms;
    }
  }

  lemma OnlineAfterJoin(ms: seq<Member>, m: Member)
    ensures Online(ms + [m]) == Online(ms) + if m.online then [m] else []
  {
    assert (ms + [m])[..|ms|] == ms;
  }

  lemma FindUnique(ms: seq<Member>, k: nat)
    requires Distinct(ms) && k < |ms|
    ensures Find(ms, ms[k].id) == k
  {
  }

  lemma OnlineById(ms: seq<Member>, id: int)
    requires Distinct(ms)
    ensures IsOnline(ms, id) <==> exists k :: 0 <= k < |Online(ms)| && Online(ms)[k].id == id
  {
    if IsOnline(ms, id) {
      OnlineIn(ms, ms[Find(ms, id)]);
    }
    forall k | 0 <= k < |Online(ms)| && Online(ms)[k].id == id ensures IsOnline(ms, id) {
      OnlineIn(ms, Online(ms)[k]);
      var j :| 0 <= j < |ms| && ms[j] == Online(ms)[k];
      FindUnique(ms, j);
    }
  }

  // ---------------------------------------------------------------- the queue of member frames

  /** The server's member list after one announcement, ignoring the shutdown at zero. */
  function Admit(ms: seq<Member>, text: string): seq<Member> {
    match ParseMember(text)
    case Leave(id) =>
      var k := Find(ms, id);
      if k < 0 then ms else ms[k := ms[k].(online := false)]
    case Join(nick, id) => ms + [Member(nick, id, true)]
    case _ => ms
  }

  function AdmitAll(ms: seq<Member>, q: seq<string>): seq<Member>
    decreases |q|
  {
    if q == [] then ms else AdmitAll(Admit(ms, q[0]), q[1..])
  }

  /** A frame the membership thread can handle now: a newcomer joins, or somebody online leaves. */
  ghost predicate FrameOk(ms: seq<Member>, text: string) {
    match ParseMember(text)
    case Join(nick, id) => id > 2 && GoodNick(nick) && !Has(ms, id) && text == MemberText(1, nick, id)
    case Leave(id) => IsOnline(ms, id) && ParseClient(text) == Leave(id)
    case _ => false
  }

  ghost predicate QueueOk(ms: seq<Member>, q: seq<string>)
    decreases |q|
  {
    q == [] || (FrameOk(ms, q[0]) && QueueOk(Admit(ms, q[0]), q[1..]))
  }

  lemma {:induction false} QueueSnoc(ms: seq<Member>, q: seq<string>, text: string)
    requires QueueOk(ms, q)
    ensures AdmitAll(ms, q + [text]) == Admit(AdmitAll(ms, q), text)
    ensures QueueOk(ms, q + [text]) == FrameOk(AdmitAll(ms, q), text)
    decreases |q|
  {
    hide Admit, FrameOk;
    if q == [] {
      assert (q + [text])[1..] == [];
    } else {
      assert (q + [text])[1..] == q[1..] + [text];
      QueueSnoc(Admit(ms, q[0]), q[1..], text);
    }
  }

  lemma AdmitKeeps(ms: seq<Member>, text: string)
    requires Distinct(ms) && FrameOk(ms, text)
    ensures Distinct(Admit(ms, text))
    ensures forall id :: Has(ms, id) ==> Has(Admit(ms, text), id)
    ensures forall id :: Has(ms, id) && IsOnline(Admit(ms, text), id) ==> IsOnline(ms, id)
  {
    hide ParseMember, ParseClient;
  }

  /** Nobody comes back online: a member that will be online after the queue is online now. */
  lemma {:induction false} OnlineBackwards(ms: seq<Member>, q: seq<string>)
    requires Distinct(ms) && QueueOk(ms, q)
    ensures Distinct(AdmitAll(ms, q))
    ensures forall id :: Has(ms, id) ==> Has(AdmitAll(ms, q), id)
    ensures forall id :: Has(ms, id) && IsOnline(AdmitAll(ms, q), id) ==> IsOnline(ms, id)
    decreases |q|
  {
    hide Admit, FrameOk, IsOnline, Has;
    if q != [] {
      AdmitKeeps(ms, q[0]);
      OnlineBackwards(Admit(ms, q[0]), q[1..]);
    }
  }

  // ---------------------------------------------------------------- what a send does to one box

  lemma {:induction false} BroadcastBox(mq: Mq, ms: seq<Member>, text: string, t: int)
    requires Distinct(ms)
    ensures Box(Broadcast(mq, ms, text), t) == Box(mq, t) + if Has(ms, t) then [text] else []
  {
    hide Find, Has;
    if ms == [] {
      assert !Has(ms, t) by { NobodyThere(t); }
    } else {
      var n := |ms| - 1;
      BroadcastBox(mq, ms[..n], text, t);
      assert ms == ms[..n] + [ms[n]];
      HasSnoc(ms[..n], ms[n], t);
      LastIsNew(ms);
    }
  }

  lemma NobodyThere(id: int)
    ensures !Has([], id)
  {
  }

  lemma LastIsNew(ms: seq<Member>)
    requires Distinct(ms) && ms != []
    ensures !Has(ms[..|ms| - 1], ms[|ms| - 1].id)
  {
  }

  lemma {:induction false} SendAllBox(mq: Mq, mtype: int, texts: seq<string>, t: int)
    ensures Box(SendAll(mq, mtype, texts), t) == Box(mq, t) + if t == mtype then texts else []
  {
    if texts != [] {
      SendAllBox(mq, mtype, texts[..|texts| - 1], t);
      assert texts == texts[..|texts| - 1] + [texts[|texts| - 1]];
    }
  }

  // ---------------------------------------------------------------- replicas

  /** A replica that agrees with the server: same messages, same online members in the same order. */
  ghost predicate Mirrors(r: Replica, ms: seq<Member>, msgs: seq<Message>) {
    && r.status == Running
    && r.messages == msgs
    && Online(r.members) == Online(ms)
    && Distinct(r.members)
    && forall k :: 0 <= k < |r.members| ==> Has(ms, r.members[k].id)
  }

  lemma MirrorsJoin(r: Replica, ms: seq<Member>, msgs: seq<Message>, nick: string, id: int)
    requires Distinct(ms) && Mirrors(r, ms, msgs) && !Has(ms, id) && GoodNick(nick)
    ensures Mirrors(Absorb(r, MemberText(1, nick, id)), ms + [Member(nick, id, true)], msgs)
  {
    hide MemberText, ParseMember, ParseClient, Find, Online;
    MemberTokens(1, nick, id);
    var m := Member(nick, id, true);
    OnlineAfterJoin(ms, m);
    OnlineAfterJoin(r.members, m);
    forall k | 0 <= k < |r.members + [m]| ensures Has(ms + [m], (r.members + [m])[k].id) {
      HasSnoc(ms, m, (r.members + [m])[k].id);
    }
  }

  lemma HasSnoc(ms: seq<Member>, m: Member, id: int)
    ensures Has(ms + [m], id) <==> Has(ms, id) || m.id == id
  {
    hide Find;
    if Has(ms, id) {
      assert (ms + [m])[Find(ms, id)].id == id;
    }
    assert (ms + [m])[|ms|] == m;
    assert forall k :: 0 <= k < |ms| ==> (ms + [m])[k] == ms[k];
  }

  lemma OnlineSnoc(ms: seq<Member>, m: Member, id: int)
    requires !Has(ms, m.id)
    ensures IsOnline(ms + [m], id) <==> IsOnline(ms, id) || (m.id == id && m.online)
  {
    hide Find;
    if Has(ms, id) {
      assert (ms + [m])[Find(ms, id)].id == id;
    }
    assert (ms + [m])[|ms|] == m;
    assert forall k :: 0 <= k < |ms| ==> (ms + [m])[k] == ms[k];
  }

  lemma HasAfterLeave(ms: seq<Member>, k: nat, id: int)
    requires k < |ms|
    ensures Has(ms[k := ms[k].(online := false)], id) <==> Has(ms, id)
  {
    hide Find;
    var ms' := ms[k := ms[k].(online := false)];
    assert forall j :: 0 <= j < |ms| ==> ms'[j].id == ms[j].id;
  }

  /** A member that leaves is online at the server, hence known to every replica. */
  lemma MirrorsLeave(r: Replica, ms: seq<Member>, msgs: seq<Message>, id: int, text: string)
    requires Distinct(ms) && Mirrors(r, ms, msgs) && IsOnline(ms, id) && ParseClient(text) == Leave(id)
    ensures Has(r.members, id)
    ensures Mirrors(Absorb(r, text), ms[Find(ms, id) := ms[Find(ms, id)].(online := false)], msgs)
  {
    hide ParseClient, Find, Online;
    OnlineById(ms, id);
    OnlineById(r.members, id);
    OnlineAfterLeave(ms, Find(ms, id));
    OnlineAfterLeave(r.members, Find(r.members, id));
    forall j | 0 <= j < |r.members|
      ensures Has(ms[Find(ms, id) := ms[Find(ms, id)].(online := false)], r.members[j].id)
    {
      HasAfterLeave(ms, Find(ms, id), r.members[j].id);
    }
  }

  lemma {:induction false} AbsorbOnline(r: Replica, ms: seq<Member>)
    requires r.status == Running && forall k :: 0 <= k < |ms| ==> GoodNick(ms[k].nick)
    ensures AbsorbAll(r, OnlineTexts(ms)) == r.(members := r.members + Online(ms))
  {
    hide MemberText, ParseMember, ParseClient, Find, GoodNick;
    if ms == [] {
      assert r.members + [] == r.members;
    } else {
      hide Online, OnlineTexts;
      var n := |ms| - 1;
      OnlineSplit(ms);
      AbsorbOnline(r, ms[..n]);
      OnlineTextsNext(ms, n);
      assert ms[..n + 1] == ms;
      MemberTokens(1, ms[n].nick, ms[n].id);
      assert r.members + Online(ms) == r.members + Online(ms[..n]) + if ms[n].online then [ms[n]] else [];
    }
  }

  lemma {:induction false} AbsorbHistory(r: Replica, msgs: seq<Message>)
    requires r.status == Running
    requires forall k :: 0 <= k < |msgs| ==> GoodLine(msgs[k].line) && msgs[k].line != EXIT_LINE
    ensures AbsorbAll(r, HistoryTexts(msgs)) == r.(messages := r.messages + msgs)
  {
    hide ChatText, ParseChat, ParseClient;
    if msgs == [] {
      assert r.messages + [] == r.messages;
    } else {
      var n := |msgs| - 1;
      AbsorbHistory(r, msgs[..n]);
      ChatRoundTrip(msgs[n].line, msgs[n].id);
      HistoryTextsNext(msgs, n);
      assert msgs[..n + 1] == msgs && msgs[..n] + [msgs[n]] == msgs;
    }
  }

  /** A newcomer's queue after `shair_database` and its own announcement drains to a mirror of the server. */
  lemma MirrorsNewcomer(ms: seq<Member>, msgs: seq<Message>, nick: string, id: int)
    requires Distinct(ms) && !Has(ms, id) && GoodNick(nick)
    requires forall k :: 0 <= k < |ms| ==> GoodNick(ms[k].nick)
    requires forall k :: 0 <= k < |msgs| ==> GoodLine(msgs[k].line) && msgs[k].line != EXIT_LINE
    ensures Mirrors(AbsorbAll(EMPTY, OnlineTexts(ms) + HistoryTexts(msgs) + [MemberText(1, nick, id)]),
                    ms + [Member(nick, id, true)], msgs)
  {
    hide MemberText, ParseMember, ParseClient, Find, Online, OnlineTexts, HistoryTexts, GoodLine, GoodNick;
    AbsorbConcat(EMPTY, OnlineTexts(ms), HistoryTexts(msgs));
    AbsorbOnline(EMPTY, ms);
    var r := Replica(Online(ms), [], Running);
    assert [] + Online(ms) == Online(ms) && [] + msgs == msgs;
    AbsorbHistory(r, msgs);
    var r' := Replica(Online(ms), msgs, Running);
    var q := OnlineTexts(ms) + HistoryTexts(msgs);
    assert (q + [MemberText(1, nick, id)])[..|q|] == q;
    OnlineDistinct(ms);
    forall m | m in Online(ms) ensures m.online {
      OnlineIn(ms, m);
    }
    OnlineAll(Online(ms));
    MirrorsJoin(r', ms, msgs, nick, id);
  }

  lemma {:induction false} OnlineAll(ms: seq<Member>)
    requires forall m :: m in ms ==> m.online
    ensures Online(ms) == ms
  {
    if ms != [] {
      OnlineAll(ms[..|ms| - 1]);
      assert ms[|ms| - 1] in ms;
    }
  }

  lemma {:induction false} OnlineDistinct(ms: seq<Member>)
    requires Distinct(ms)
    ensures Distinct(Online(ms))
    ensures forall m :: m in Online(ms) ==> Has(ms, m.id)
  {
    forall m | m in Online(ms) ensures m in ms {
      OnlineIn(ms, m);
    }
    if ms != [] {
      OnlineDistinct(ms[..|ms| - 1]);
      var front := ms[..|ms| - 1];
      forall m | m in Online(front) ensures m in front {
        OnlineIn(front, m);
      }
    }
  }
}
