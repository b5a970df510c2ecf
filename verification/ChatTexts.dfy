/**
 What the two server threads have in hand while they take frames apart: the claims about their buffers
 and the saved place that hold as long as neither reads over the other's text.
*/
module ChatTexts {
  import opened ChatCodec
  import opened ChatServer
  import opened ChatMirror
  import opened ChatParsing

  // ---------------------------------------------------------------- the tokens of a frame

  function RestOf(t: Token): string {
    if t.Token? then t.rest else ""
  }

  function Tok1(text: string): Token {
    Strtok(text, ' ')
  }

  function Tok2(text: string): Token {
    Strtok(RestOf(Tok1(text)), ' ')
  }

  function Tok3(text: string): Token {
    Strtok(RestOf(Tok2(text)), ' ')
  }

  function LineTok(text: string): Token {
    Strtok(RestOf(Tok1(text)), '>')
  }

  function PidTok(text: string): Token {
    Strtok(RestOf(LineTok(text)), ' ')
  }

  /** A member frame as clients send it. */
  ghost predicate GoodMemberText(text: string) {
    && NUL !in text
    && Tok1(text).Token? && Tok2(text).Token? && Tok3(text).Token? && Tok3(text).rest == ""
    && (Tok1(text).text != "0" ==> GoodNick(Tok2(text).text))
    && ParseClient(text) == ParseMember(text)
  }

  /** A chat frame as clients send it. */
  ghost predicate GoodChatText(text: string) {
    && NUL !in text && Tok1(text).Token?
    && (Tok1(text).text != "4" ==>
          && LineTok(text).Token? && PidTok(text).Token?
          && GoodLine(LineTok(text).text) && LineTok(text).text != EXIT_LINE
          && ParseClient(text) == ParseChat(text))
  }

  lemma ParsedMember(text: string)
    requires GoodMemberText(text)
    ensures ParseMember(text) ==
            if Tok1(text).text == "0" then Frame.Leave(Atoi(Tok3(text).text))
            else Join(Tok2(text).text, Atoi(Tok3(text).text))
  {
    hide Strtok, Atoi, ParseClient;
  }

  lemma ParsedChat(text: string)
    requires GoodChatText(text)
    ensures ParseChat(text) ==
            if Tok1(text).text == "4" then Poll else Chat(LineTok(text).text, Atoi(PidTok(text).text))
  {
    hide Strtok, Atoi, ParseClient;
  }

  lemma NoNul(n: int)
    ensures NUL !in Decimal(n)
  {
    var d := Digits(if n < 0 then -n else n);
    assert forall c :: c in d ==> c != NUL;
  }

  lemma NoNulIn(a: string, x: string, b: string, y: string, c: string)
    requires NUL !in a && NUL !in x && NUL !in b && NUL !in y && NUL !in c
    ensures NUL !in a + x + b + y + c
  {
  }

  lemma ClientMemberText(marker: nat, nick: string, pid: int)
    requires marker < 2 && GoodNick(nick) && NUL !in nick
    ensures var text := SendMessageText(nick, 1, marker, pid);
            GoodMemberText(text) && ParseMember(text) == if marker == 0 then Frame.Leave(pid) else Join(nick, pid)
  {
    var text, num := MemberText(marker, nick, pid), Decimal(pid);
    var tail := nick + [' '] + num;
    assert text == Decimal(marker) + " " + tail;
    MemberTokens(marker, nick, pid);
    NoNul(marker);
    NoNul(pid);
    NoNulIn(Decimal(marker), " ", nick, " ", num);
    assert NUL !in text;
    assert Tok1(text) == Token(Marker(marker), tail) by { MarkerToken(marker, tail); }
    assert Tok2(text) == Token(nick, num) by { StrtokStop(nick, ' ', num); }
    assert Tok3(text) == Token(num, "") by { PidToken(pid); }
    hide Strtok, ParseClient, ParseMember, Decimal, MemberText, Tok1, Tok2, Tok3;
  }

  lemma ClientChatText(line: string, pid: int)
    requires GoodLine(line) && line != EXIT_LINE && NUL !in line
    ensures var text := SendMessageText(line, 2, 3, pid); GoodChatText(text) && ParseChat(text) == Chat(line, pid)
  {
    ChatTokens(line, pid);
    PidToken(pid);
    ChatRoundTrip(line, pid);
    NoNul(3);
    NoNul(pid);
    NoNulIn(Decimal(3), " ", line, ">", Decimal(pid));
    hide Strtok, ParseClient, ParseChat, Decimal;
  }

  lemma ClientPollText(nick: string, pid: int)
    requires NUL !in nick
    ensures var text := SendMessageText(nick, 2, 4, pid); GoodChatText(text) && ParseChat(text) == Poll
  {
    var tail := nick + ">" + Decimal(pid);
    assert SendMessageText(nick, 2, 4, pid) == Decimal(4) + " " + tail;
    MarkerToken(4, tail);
    PollRoundTrip(nick, pid);
    NoNul(4);
    NoNul(pid);
    NoNulIn(Decimal(4), " ", nick, ">", Decimal(pid));
    hide Strtok, ParseClient, ParseChat, Decimal;
  }

  // ---------------------------------------------------------------- texts under way

  /** Every text under way is one that clients send. */
  ghost predicate TextsOk(net: Net) {
    && (forall k :: 0 <= k < |net.memberTexts| ==> GoodMemberText(net.memberTexts[k]))
    && (forall k :: 0 <= k < |net.chatTexts| ==> GoodChatText(net.chatTexts[k]))
    && (forall p :: p in net.nicks ==> GoodNick(net.nicks[p]) && NUL !in net.nicks[p])
  }

  /** The rest of the member frame is where the next call goes on; `copy` ends where it ends. */
  ghost predicate MemberPending(s: State, rest: string) {
    && s.saved.inMembers && s.saved.pos + |rest| == |s.m.copy| <= |s.m.buf|
    && TextAt(s.m.buf, s.saved.pos) == rest
  }

  ghost predicate ChatPending(s: State, rest: string) {
    !s.saved.inMembers && s.saved.pos <= |s.c.buf| && TextAt(s.c.buf, s.saved.pos) == rest
  }

  /** What the membership thread has in hand. */
  ghost predicate MembersInHand(s: State) {
    var copy := s.m.copy;
    match s.m.pc
    case Lock => GoodMemberText(TextAt(s.m.buf, 0))
    case First => GoodMemberText(copy) && TextAt(s.m.buf, 0) == copy
    case Second(leave) =>
      GoodMemberText(copy) && leave == (Tok1(copy).text == "0") && MemberPending(s, RestOf(Tok1(copy)))
    case Third(leave, nick) =>
      && GoodMemberText(copy) && leave == (Tok1(copy).text == "0") && (!leave ==> nick == Tok2(copy).text)
      && MemberPending(s, RestOf(Tok2(copy)))
    case Apply(leave, nick, num) =>
      && GoodMemberText(copy) && leave == (Tok1(copy).text == "0") && (!leave ==> nick == Tok2(copy).text)
      && num == Tok3(copy).text
    case ShareMembers(nick, id, _) => Joining(copy, nick, id)
    case ShareHistory(nick, id, _) => Joining(copy, nick, id)
    case Register(nick, id, _) => Joining(copy, nick, id)
    case Restore => GoodMemberText(copy)
    case Announce(_) => GoodMemberText(copy) && TextAt(s.m.buf, 0) == copy
    case _ => true
  }

  ghost predicate Joining(copy: string, nick: string, id: int) {
    GoodMemberText(copy) && Tok1(copy).text != "0" && nick == Tok2(copy).text && id == Atoi(Tok3(copy).text)
  }

  /** What the message thread has in hand; a member frame begun since takes the rest of the line away. */
  ghost predicate MessagesInHand(s: State) {
    var text := s.c.text;
    match s.c.pc
    case Head => GoodChatText(text) && TextAt(s.c.buf, 0) == text
    case PollTest => GoodChatText(text) && Tok1(text).text == "4"
    case Broadcast(_) => GoodLineText(text) && (!s.taken ==> ChatPending(s, RestOf(Tok1(text))))
    case LineCall => GoodLineText(text) && (!s.taken ==> ChatPending(s, RestOf(Tok1(text))))
    case PidCall(line) =>
      && GoodLineText(text) && !s.taken && line == LineTok(text).text && ChatPending(s, RestOf(LineTok(text)))
    case Append(line, num) => GoodLineText(text) && line == LineTok(text).text && num == PidTok(text).text
    case _ => true
  }

  ghost predicate GoodLineText(text: string) {
    GoodChatText(text) && Tok1(text).text != "4"
  }

  /** Inside the parse of a member frame, between its first call and its last. */
  predicate MembersInside(s: State) {
    s.m.pc.Second? || s.m.pc.Third?
  }

  /** Inside the parse of a chat frame. */
  predicate MessagesInside(s: State) {
    s.c.pc.Broadcast? || s.c.pc.LineCall? || s.c.pc.PidCall?
  }

  // ---------------------------------------------------------------- steps of the clients

  lemma ClientTexts(net: Net, a: Action)
    requires TextsOk(net) && !a.MembersStep? && !a.MessagesStep?
    requires a.Start? || (a.p in net.peers && a.p in net.nicks)
    requires a.Receive? ==> InboxOf(net, a.p) != []
    requires a.Start? ==> GoodNick(a.nick) && NUL !in a.nick
    requires a.Say? ==> GoodLine(a.line) && a.line != EXIT_LINE && NUL !in a.line
    ensures TextsOk(DoClient(net, a))
  {
    hide GoodMemberText, GoodChatText, SendMessageText, I.OnlyLines, I.OnlyNotes;
    match a
    case Start(p, nick) => ClientMemberText(1, nick, p);
    case Say(p, line) => ClientChatText(line, p);
    case SendLeave(p) => ClientMemberText(0, net.nicks[p], p);
    case SendPoll(p) => ClientPollText(net.nicks[p], p);
    case _ =>
  }

  // ---------------------------------------------------------------- steps of the membership thread

  /** A step of the thread keeps what it has in hand, touches nothing of the other thread's, and ends in a
   fault only where a leaver is not found. */
  ghost predicate MembersStepOk(s: State, s': State) {
    && MembersInHand(s') && TextsOk(s'.net) && s'.c == s.c
    && (if s.m.pc == First || MembersInside(s) then s'.saved.inMembers else s'.saved == s.saved)
    && (s'.taken <==> s.taken || s.m.pc == First)
    && (s'.fault ==> s.m.pc.Apply? && s.m.pc.leave)
    && (s.m.pc.Third? ==> AtEnd(s'))
  }

  /** The frame's last call leaves the saved place at the frame's end. */
  ghost predicate AtEnd(s: State) {
    s.saved == Place(true, |s.m.copy|) && TextAt(s.m.buf, |s.m.copy|) == ""
  }

  lemma FirstInHand(s: State)
    requires s.m.pc == First && MembersInHand(s) && TextsOk(s.net) && !s.fault
    ensures MembersStepOk(s, MembersFirst(s))
  {
    hide Strtok, SkipDelims, ParseClient, ParseMember, TextAt, TextsOk;
    CallIs(s.m.buf, 0, ' ');
    hide CallAt;
    TextAtIs(s.m.buf, 0);
  }

  lemma SecondInHand(s: State, leave: bool)
    requires s.m.pc == Second(leave) && MembersInHand(s) && TextsOk(s.net) && !s.fault
    ensures MembersStepOk(s, MembersSecond(s, leave))
  {
    hide Strtok, SkipDelims, ParseClient, ParseMember, TextAt, TextsOk;
    CallIs(s.m.buf, s.saved.pos, ' ');
    hide CallAt;
  }

  lemma ThirdInHand(s: State, leave: bool, nick: string)
    requires s.m.pc == Third(leave, nick) && MembersInHand(s) && TextsOk(s.net) && !s.fault
    ensures MembersStepOk(s, MembersThird(s, leave, nick))
  {
    hide Strtok, SkipDelims, ParseClient, ParseMember, TextAt, TextsOk;
    CallIs(s.m.buf, s.saved.pos, ' ');
    hide CallAt;
  }

  /** Received, locked and copied. */
  lemma ReceivedInHand(s: State, junk: string)
    requires s.m.pc in {Wait, Lock} && TextsOk(s.net) && MembersInHand(s) && Enabled(s, Action.MembersStep(junk))
    ensures MembersStepOk(s, DoMembers(s, junk))
  {
    hide GoodMemberText, GoodChatText, TextAt;
    if s.m.pc == Wait {
      assert GoodMemberText(s.net.memberTexts[0]);
      GoodHasNoNul(s.net.memberTexts[0]);
      TextOver(s.net.memberTexts[0], junk);
    }
  }

  lemma GoodHasNoNul(text: string)
    ensures GoodMemberText(text) || GoodChatText(text) ==> NUL !in text
  {
  }

  lemma RestoredBuf(s: State)
    requires GoodMemberText(s.m.copy)
    ensures var buf := Over(s.m.buf, s.m.copy); TextAt(buf, 0) == s.m.copy && TextAt(buf, |s.m.copy|) == ""
  {
    GoodHasNoNul(s.m.copy);
    TextOver(s.m.copy, if |s.m.copy| + 1 <= |s.m.buf| then s.m.buf[|s.m.copy| + 1..] else "");
  }

  lemma RestoredInHand(s: State, junk: string)
    requires s.m.pc == Restore && Enabled(s, Action.MembersStep(junk)) && TextsOk(s.net) && MembersInHand(s)
    ensures MembersStepOk(s, DoMembers(s, junk))
  {
    hide TextAt, GoodMemberText, Over, TextsOk, MembersFirst, MembersSecond, MembersThird, MembersApply, MembersLoops,
      MembersStepOk;
    assert GoodMemberText(s.m.copy);
    hide MembersInHand;
    RestoredBuf(s);
    AnnouncingInHand(s, DoMembers(s, junk));
  }

  lemma AnnouncingInHand(s: State, s': State)
    requires s.m.pc == Restore && s'.m.pc == Announce(0) && s'.m.copy == s.m.copy && GoodMemberText(s.m.copy)
    requires TextAt(s'.m.buf, 0) == s.m.copy && s'.net == s.net && TextsOk(s.net)
    requires s'.c == s.c && s'.saved == s.saved && s'.taken == s.taken && !s'.fault
    ensures MembersStepOk(s, s')
  {
    hide TextAt, GoodMemberText, TextsOk;
  }

  lemma AppliedInHand(s: State, leave: bool, nick: string, num: string)
    requires s.m.pc == Apply(leave, nick, num) && TextsOk(s.net) && MembersInHand(s) && !s.fault
    ensures MembersStepOk(s, MembersApply(s, leave, nick, num))
  {
    hide TextAt, TextsOk, Find, Atoi, GoodMemberText, Tok1, Tok2, Tok3, MemberPending;
  }

  lemma LoopsInHand(s: State)
    requires TextsOk(s.net) && MembersInHand(s) && !s.fault
    requires !(s.m.pc in {Wait, Lock, First, Restore}) && !s.m.pc.Apply? && !MembersInside(s)
    ensures MembersStepOk(s, MembersLoops(s))
  {
    hide TextAt, GoodMemberText, GoodChatText, ItemOf, Sent, Tok1, Tok2, Tok3, Atoi;
  }

  lemma MembersStepInHand(s: State, junk: string)
    requires Enabled(s, Action.MembersStep(junk)) && TextsOk(s.net) && MembersInHand(s)
    ensures MembersStepOk(s, DoMembers(s, junk))
  {
    hide MembersStepOk, MembersInHand, TextsOk, MembersFirst, MembersSecond, MembersThird, MembersApply, MembersLoops,
      TextAt, Over;
    match s.m.pc
    case Wait => ReceivedInHand(s, junk);
    case Lock => ReceivedInHand(s, junk);
    case First => FirstInHand(s);
    case Second(leave) => SecondInHand(s, leave);
    case Third(leave, nick) => ThirdInHand(s, leave, nick);
    case Restore => RestoredInHand(s, junk);
    case Apply(leave, nick, num) => AppliedInHand(s, leave, nick, num);
    case _ => LoopsInHand(s);
  }

  /** What the other thread has in hand survives, unless a frame is begun while the pid of a line is awaited. */
  lemma MembersStepOther(s: State, s': State)
    requires MembersStepOk(s, s') && MessagesInHand(s)
    requires MembersInside(s) && MessagesInside(s) ==> s.taken && !s.c.pc.PidCall?
    requires s.m.pc == First ==> !s.c.pc.PidCall?
    ensures MessagesInHand(s')
  {
    hide MembersInHand, TextsOk, GoodChatText, TextAt, AtEnd;
  }

  // ---------------------------------------------------------------- steps of the message thread

  /** A step keeps what the thread has in hand, touches nothing of the other thread's, and does not fault. */
  ghost predicate MessagesStepOk(s: State, s': State) {
    && MessagesInHand(s') && TextsOk(s'.net) && s'.m == s.m && !s'.fault
    && (if s.c.pc == Head || s.c.pc == LineCall || s.c.pc.PidCall? then !s'.saved.inMembers else s'.saved == s.saved)
    && (s'.taken <==> s.taken && s.c.pc != Head)
  }

  lemma HeadInHand(s: State)
    requires s.c.pc == Head && MessagesInHand(s) && TextsOk(s.net) && !s.fault
    ensures MessagesStepOk(s, MessagesHead(s))
  {
    hide Strtok, SkipDelims, ParseClient, ParseChat, TextAt, TextsOk;
    CallIs(s.c.buf, 0, ' ');
    hide CallAt;
    TextAtIs(s.c.buf, 0);
  }

  lemma LineInHand(s: State)
    requires s.c.pc == LineCall && !s.taken && MessagesInHand(s) && TextsOk(s.net) && !s.fault
    ensures MessagesStepOk(s, MessagesLine(s))
  {
    hide Strtok, SkipDelims, ParseClient, ParseChat, TextAt, TextsOk;
    CallIs(s.c.buf, s.saved.pos, '>');
    hide CallAt;
  }

  lemma PidInHand(s: State, line: string)
    requires s.c.pc == PidCall(line) && MessagesInHand(s) && TextsOk(s.net) && !s.fault
    ensures MessagesStepOk(s, MessagesPid(s, line))
  {
    hide Strtok, SkipDelims, ParseClient, ParseChat, TextAt, TextsOk;
    CallIs(s.c.buf, s.saved.pos, ' ');
    hide CallAt;
  }

  lemma ListenedInHand(s: State)
    requires s.c.pc == Listen && Enabled(s, Action.MessagesStep) && MessagesInHand(s) && TextsOk(s.net)
    ensures MessagesStepOk(s, DoMessages(s))
  {
    hide GoodMemberText, GoodChatText, TextAt;
    var text := s.net.chatTexts[0];
    assert GoodChatText(text);
    GoodHasNoNul(text);
    TextOver(text, if |text| + 1 <= |s.c.buf| then s.c.buf[|text| + 1..] else "");
  }

  lemma OtherMessagesInHand(s: State)
    requires Enabled(s, Action.MessagesStep) && MessagesInHand(s) && TextsOk(s.net)
    requires !(s.c.pc in {Listen, Head, LineCall}) && !s.c.pc.PidCall?
    ensures MessagesStepOk(s, DoMessages(s))
  {
    hide GoodMemberText, GoodChatText, TextAt, ItemOf, Atoi, MessagesHead, MessagesLine, MessagesPid, Over;
  }

  lemma MessagesStepInHand(s: State)
    requires Enabled(s, Action.MessagesStep) && MessagesInHand(s) && TextsOk(s.net) && (s.c.pc == LineCall ==> !s.taken)
    ensures MessagesStepOk(s, DoMessages(s))
  {
    hide MessagesStepOk, MessagesInHand, TextsOk, MessagesHead, MessagesLine, MessagesPid, Over;
    match s.c.pc
    case Listen => ListenedInHand(s);
    case Head => HeadInHand(s);
    case LineCall => LineInHand(s);
    case PidCall(line) => PidInHand(s, line);
    case _ => OtherMessagesInHand(s);
  }

  /** What the membership thread has in hand survives a call made while it is not inside a parse. */
  lemma MessagesStepOther(s: State, s': State)
    requires MessagesStepOk(s, s') && MembersInHand(s)
    requires MembersInside(s) ==> s.c.pc != Head && s.c.pc != LineCall && !s.c.pc.PidCall?
    ensures MembersInHand(s')
  {
    hide MessagesInHand, TextsOk, GoodMemberText, TextAt;
  }
}
