/**
 The chat server: member list, message list, and the System V queue.

 The queue is a map from message type to the texts of that type, oldest first, because
 `msgrcv` with a positive type takes the oldest message of that type.  The functions say
 what one handler body does to the state; the class runs the loops of the source.
 */
module ChatServer {
  import opened ChatCodec
  import opened Sequences

  type Mq = map<int, seq<string>>

  function Box(mq: Mq, mtype: int): seq<string> {
    if mtype in mq then mq[mtype] else []
  }

  function Send(mq: Mq, mtype: int, text: string): Mq {
    mq[mtype := Box(mq, mtype) + [text]]
  }

  function Pop(mq: Mq, mtype: int): Mq
    requires Box(mq, mtype) != []
  {
    mq[mtype := mq[mtype][1..]]
  }

  function Ids(ms: seq<Member>): (ids: seq<int>)
    ensures |ids| == |ms| && forall k {:trigger ids[k]} {:trigger ms[k]} :: 0 <= k < |ms| ==> ids[k] == ms[k].id
  {
    seq(|ms|, k requires 0 <= k < |ms| => ms[k].id)
  }

  /** `data_find`: the first index with that id, or -1. */
  function Find(ms: seq<Member>, id: int): (r: int)
    ensures -1 <= r < |ms|
    ensures r >= 0 ==> ms[r].id == id && forall k :: 0 <= k < r ==> ms[k].id != id
    ensures r < 0 ==> forall k :: 0 <= k < |ms| ==> ms[k].id != id
  {
    IndexOfMeans(Ids(ms), id, 0);
    IndexOf(Ids(ms), id, 0)
  }

  function Online(ms: seq<Member>): seq<Member> {
    if ms == [] then []
    else
      var last := ms[|ms| - 1];
      Online(ms[..|ms| - 1]) + if last.online then [last] else []
  }

  /** What `shair_database` sends for the members: one join frame for each one online. */
  function OnlineTexts(ms: seq<Member>): seq<string> {
    if ms == [] then []
    else
      var last := ms[|ms| - 1];
      OnlineTexts(ms[..|ms| - 1]) + if last.online then [MemberText(1, last.nick, last.id)] else []
  }

  /** What `shair_database` sends for the messages: all of them. */
  function HistoryTexts(msgs: seq<Message>): seq<string> {
    if msgs == [] then []
    else
      var last := msgs[|msgs| - 1];
      HistoryTexts(msgs[..|msgs| - 1]) + [ChatText(3, last.line, last.id)]
  }

  function SendAll(mq: Mq, mtype: int, texts: seq<string>): Mq {
    if texts == [] then mq
    else Send(SendAll(mq, mtype, texts[..|texts| - 1]), mtype, texts[|texts| - 1])
  }

  /** `shair_database`: the online members, then every message. */
  function Share(mq: Mq, pid: int, ms: seq<Member>, msgs: seq<Message>): Mq {
    SendAll(SendAll(mq, pid, OnlineTexts(ms)), pid, HistoryTexts(msgs))
  }

  /** One copy for each registered member, online or not. */
  function Broadcast(mq: Mq, ms: seq<Member>, text: string): Mq {
    if ms == [] then mq
    else Send(Broadcast(mq, ms[..|ms| - 1], text), ms[|ms| - 1].id, text)
  }

  datatype Core = Core(members: seq<Member>, messages: seq<Message>, online: int,
                       running: bool, exitFlag: bool, fault: bool, mq: Mq)

  /** The membership thread's loop body, from the received text to the end of the iteration. */
  function HandleMember(c: Core, text: string): Core {
    match ParseMember(text)
    case Leave(id) =>
      var k := Find(c.members, id);
      if k < 0 then c.(fault := true)
      else Announce(c.(members := c.members[k := c.members[k].(online := false)], online := c.online - 1), text)
    case Join(nick, id) =>
      Announce(c.(mq := Share(c.mq, id, c.members, c.messages),
                  members := c.members + [Member(nick, id, true)],
                  online := c.online + 1), text)
    case _ => c.(fault := true)
  }

  function Announce(c: Core, text: string): Core {
    var c := c.(mq := Broadcast(c.mq, c.members, text));
    if c.online <= 0 then c.(members := [], exitFlag := true, running := false) else c
  }

  /**
   The message thread's loop body; a poll changes nothing here, a frame without a line goes out before it
   is parsed.
  */
  function HandleMessage(c: Core, text: string): Core {
    match ParseChat(text)
    case Poll => c
    case Chat(line, id) =>
      c.(mq := Broadcast(c.mq, c.members, text), messages := c.messages + [Message(line, id)])
    case _ =>
      c.(mq := if Strtok(text, ' ').Token? then Broadcast(c.mq, c.members, text) else c.mq, fault := true)
  }

  lemma OnlineTextsNext(ms: seq<Member>, i: nat)
    requires i < |ms|
    ensures var next := OnlineTexts(ms[..i + 1]);
            if ms[i].online
            then next != [] && next[..|next| - 1] == OnlineTexts(ms[..i])
                 && next[|next| - 1] == MemberText(1, ms[i].nick, ms[i].id)
            else next == OnlineTexts(ms[..i])
  {
    hide MemberText;
    assert ms[..i + 1][..i] == ms[..i];
  }

  lemma HistoryTextsNext(msgs: seq<Message>, i: nat)
    requires i < |msgs|
    ensures var next := HistoryTexts(msgs[..i + 1]);
            next != [] && next[..|next| - 1] == HistoryTexts(msgs[..i])
            && next[|next| - 1] == ChatText(3, msgs[i].line, msgs[i].id)
  {
    hide ChatText;
    assert msgs[..i + 1][..i] == msgs[..i];
  }

  lemma NothingShared(mq: Mq, mtype: int)
    ensures SendAll(mq, mtype, OnlineTexts([])) == SendAll(mq, mtype, HistoryTexts([])) == mq
  {
  }

  lemma SendAllNext(mq: Mq, mtype: int, texts: seq<string>)
    requires texts != []
    ensures SendAll(mq, mtype, texts) == Send(SendAll(mq, mtype, texts[..|texts| - 1]), mtype, texts[|texts| - 1])
  {
  }

  lemma BrokenFrame(text: string)
    ensures Strtok(text, ' ').NoToken? ==> ParseChat(text) == Broken
    ensures !ParseChat(text).Poll? && !ParseChat(text).Chat? ==> ParseChat(text) == Broken
  {
  }

  // ---------------------------------------------------------------- the loops

  class Server {
    var members: seq<Member>
    var messages: seq<Message>
    var membersOnline: int
    var running: bool
    var exitFlag: bool
    var fault: bool
    var mq: Mq

    function View(): Core
      reads this
    {
      Core(members, messages, membersOnline, running, exitFlag, fault, mq)
    }

    method BroadcastText(text: string)
      modifies this`mq
      ensures mq == Broadcast(old(mq), members, text)
    {
      var i := 0;
      while i < |members|
        invariant i <= |members|
        invariant mq == Broadcast(old(mq), members[..i], text)
      {
        assert members[..i + 1][..i] == members[..i];
        mq := Send(mq, members[i].id, text);
        i := i + 1;
      }
      assert members[..i] == members;
    }

    /** The first loop of `shair_database`. */
    method ShareMembers(pid: int)
      modifies this`mq
      ensures mq == SendAll(old(mq), pid, OnlineTexts(members))
    {
      hide MemberText, OnlineTexts, SendAll;
      NothingShared(mq, pid);
      var i := 0;
      while i < |members|
        invariant i <= |members|
        invariant mq == SendAll(old(mq), pid, OnlineTexts(members[..i]))
      {
        OnlineTextsNext(members, i);
        if members[i].online {
          SendAllNext(old(mq), pid, OnlineTexts(members[..i + 1]));
          mq := Send(mq, pid, MemberText(1, members[i].nick, members[i].id));
        }
        i := i + 1;
      }
      assert members[..i] == members;
    }

    /** The second loop of `shair_database`. */
    method ShareHistory(pid: int)
      modifies this`mq
      ensures mq == SendAll(old(mq), pid, HistoryTexts(messages))
    {
      hide ChatText, HistoryTexts, SendAll;
      NothingShared(mq, pid);
      var i := 0;
      while i < |messages|
        invariant i <= |messages|
        invariant mq == SendAll(old(mq), pid, HistoryTexts(messages[..i]))
      {
        HistoryTextsNext(messages, i);
        SendAllNext(old(mq), pid, HistoryTexts(messages[..i + 1]));
        mq := Send(mq, pid, ChatText(3, messages[i].line, messages[i].id));
        i := i + 1;
      }
      assert messages[..i] == messages;
    }

    method ShareDatabase(pid: int)
      modifies this`mq
      ensures mq == Share(old(mq), pid, members, messages)
    {
      ShareMembers(pid);
      ShareHistory(pid);
    }

    /** One iteration of `members_handler` after `msgrcv` delivered `text`. */
    method MembersHandler(text: string)
      modifies this
      ensures View() == HandleMember(old(View()), text)
    {
      hide ParseMember, Share, Broadcast, Find;
      var f := ParseMember(text);
      if f.Leave? {
        var k := Find(members, f.id);
        if k < 0 {
          fault := true;
          return;
        }
        members := members[k := members[k].(online := false)];
        membersOnline := membersOnline - 1;
      } else if f.Join? {
        ShareDatabase(f.id);
        members := members + [Member(f.nick, f.id, true)];
        membersOnline := membersOnline + 1;
      } else {
        fault := true;
        return;
      }
      BroadcastText(text);
      if membersOnline <= 0 {
        members := [];
        exitFlag := true;
        running := false;
      }
    }

    /** One iteration of `message_hendler` after `msgrcv` delivered `text`. */
    method MessageHandler(text: string) returns (stop: bool)
      modifies this
      ensures View() == HandleMessage(old(View()), text)
      ensures stop <==> ParseChat(text).Poll? && |members| <= 0
    {
      BrokenFrame(text);
      hide ParseChat, Strtok;
      stop := false;
      if Strtok(text, ' ').NoToken? {
        fault := true;
        return;
      }
      var f := ParseChat(text);
      if f.Poll? {
        stop := |members| <= 0;
        return;
      }
      BroadcastText(text);
      if f.Chat? {
        messages := messages + [Message(f.line, f.id)];
      } else {
        fault := true;
      }
    }
  }
}
