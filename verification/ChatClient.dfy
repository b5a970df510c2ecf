/**
 A chat client's replica: the member list and message list its reader thread rebuilds
 from the frames the server sends it.
 */
module ChatClient {
  import opened ChatCodec
  import opened ChatServer

  datatype Status = Running | Exited | Fault

  datatype Replica = Replica(members: seq<Member>, messages: seq<Message>, status: Status)

  /** Where a client's process is: reading, stopped by "!exit", leave frame sent, poll frame sent. */
  datatype Phase = Reading | Silent | Left | Gone

  const EMPTY: Replica := Replica([], [], Running)

  /** One iteration of the reader thread; a leave frame without a target and a broken frame are faults. */
  function Absorb(r: Replica, text: string): Replica {
    if r.status != Running then r else
    match ParseClient(text)
    case Leave(id) =>
      var k := Find(r.members, id);
      if k < 0 then r.(status := Fault) else r.(members := r.members[k := r.members[k].(online := false)])
    case Join(nick, id) => r.(members := r.members + [Member(nick, id, true)])
    case Chat(line, id) => r.(messages := r.messages + [Message(line, id)])
    case Exit => r.(status := Exited)
    case _ => r.(status := Fault)
  }

  function AbsorbAll(r: Replica, texts: seq<string>): Replica {
    if texts == [] then r else Absorb(AbsorbAll(r, texts[..|texts| - 1]), texts[|texts| - 1])
  }

  /** The chat frames among texts, decoded. */
  function ChatLines(texts: seq<string>): seq<Message> {
    if texts == [] then []
    else
      var f := ParseClient(texts[|texts| - 1]);
      ChatLines(texts[..|texts| - 1]) + if f.Chat? then [Message(f.line, f.id)] else []
  }

  lemma {:induction false} AbsorbFirst(r: Replica, texts: seq<string>)
    requires texts != []
    ensures AbsorbAll(r, texts) == AbsorbAll(Absorb(r, texts[0]), texts[1..])
  {
    var n := |texts| - 1;
    if n > 0 {
      AbsorbFirst(r, texts[..n]);
      assert texts[..n][1..] == texts[1..][..n - 1];
    } else {
      assert texts[..n] == [] && texts[1..] == [];
    }
  }

  lemma {:induction false} AbsorbConcat(r: Replica, a: seq<string>, b: seq<string>)
    ensures AbsorbAll(r, a + b) == AbsorbAll(AbsorbAll(r, a), b)
  {
    if b == [] {
      assert a + b == a;
    } else {
      var n := |b| - 1;
      assert (a + b)[..|a + b| - 1] == a + b[..n];
      AbsorbConcat(r, a, b[..n]);
    }
  }

  /** A fault or an exit is final, so a drained replica that still runs never met one on the way. */
  lemma {:induction false} StillRunning(r: Replica, texts: seq<string>)
    requires AbsorbAll(r, texts).status == Running
    ensures r.status == Running
    ensures texts != [] ==> Absorb(r, texts[0]).status == Running
    decreases |texts|
  {
    hide ParseClient;
    if texts != [] {
      AbsorbFirst(r, texts);
      StillRunning(Absorb(r, texts[0]), texts[1..]);
    }
  }

  /** Draining appends exactly the pending chat lines, in order. */
  lemma {:induction false} DrainedMessages(r: Replica, texts: seq<string>)
    requires AbsorbAll(r, texts).status == Running
    ensures AbsorbAll(r, texts).messages == r.messages + ChatLines(texts)
  {
    if texts != [] {
      DrainedMessages(r, texts[..|texts| - 1]);
    }
  }

  // ---------------------------------------------------------------- the loop

  class Client {
    var members: seq<Member>
    var messages: seq<Message>
    var status: Status
    var mq: Mq

    function View(): Replica
      reads this
    {
      Replica(members, messages, status)
    }

    /** `send_message`: fills a frame and puts it on the queue; the server reads it as what was meant. */
    method SendMessage(line: string, prio: int, marker: nat, pid: int) returns (ghost sent: string)
      modifies this`mq
      ensures mq == Send(old(mq), prio, sent) && sent == SendMessageText(line, prio, marker, pid)
      ensures prio == 2 && marker == 3 && GoodLine(line) ==> ParseChat(sent) == Chat(line, pid)
      ensures prio == 2 && marker == 4 ==> ParseChat(sent) == Poll
      ensures prio == 1 && marker == 1 && GoodNick(line) ==> ParseMember(sent) == Join(line, pid)
      ensures prio == 1 && marker == 0 && GoodNick(line) ==> ParseMember(sent) == Leave(pid)
    {
      hide ParseChat, ParseMember;
      ChatRoundTrip(line, pid);
      PollRoundTrip(line, pid);
      JoinRoundTrip(line, pid);
      LeaveRoundTrip(line, pid);
      var mtext;
      if prio == 2 {
        mtext := Decimal(marker) + " " + line + ">" + Decimal(pid);
      } else {
        mtext := Decimal(marker) + " " + line + " " + Decimal(pid);
      }
      mq := Send(mq, prio, mtext);
      sent := mtext;
    }

    /** `message_handler` run until its queue is empty or it stops. */
    method Drain(pid: int)
      modifies this
      ensures View() == AbsorbAll(old(View()), old(Box(mq, pid)))
      ensures status == Running ==> Box(mq, pid) == []
      ensures forall t :: t != pid ==> Box(mq, t) == old(Box(mq, t))
    {
      hide ParseClient;
      while status == Running && Box(mq, pid) != []
        invariant AbsorbAll(View(), Box(mq, pid)) == AbsorbAll(old(View()), old(Box(mq, pid)))
        invariant forall t :: t != pid ==> Box(mq, t) == old(Box(mq, t))
        decreases |Box(mq, pid)|
      {
        var text := mq[pid][0];
        AbsorbFirst(View(), mq[pid]);
        mq := Pop(mq, pid);
        var f := ParseClient(text);
        if f.Leave? {
          var k := Find(members, f.id);
          if k < 0 { status := Fault; } else { members := members[k := members[k].(online := false)]; }
        } else if f.Join? {
          members := members + [Member(f.nick, f.id, true)];
        } else if f.Chat? {
          messages := messages + [Message(f.line, f.id)];
        } else {
          status := if f.Exit? then Exited else Fault;
        }
      }
      if status != Running {
        StoppedIgnores(View(), Box(mq, pid));
      }
    }
  }

  lemma {:induction false} StoppedIgnores(r: Replica, texts: seq<string>)
    requires r.status != Running
    ensures AbsorbAll(r, texts) == r
  {
    if texts != [] {
      StoppedIgnores(r, texts[..|texts| - 1]);
    }
  }
}
