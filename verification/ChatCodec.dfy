/**
 The text frames of the message-queue chat.

 A frame is what `sprintf` writes into `mtext`: a marker, a space, and then either
 "nick pid" (markers 0 and 1, and the exit frame a client sends itself) or "line>pid"
 (markers 3 and 4 on the chat queue).  The readers take a frame apart with `strtok`
 and `atoi`.  Strings are C strings without their terminator.
 */
module ChatCodec {

  datatype Member = Member(nick: string, id: int, online: bool)

  datatype Message = Message(line: string, id: int)

  datatype Frame =
    | Leave(id: int)
    | Join(nick: string, id: int)
    | Chat(line: string, id: int)
    | Poll
    | Exit
    | Broken   // the reader hands a null token to strcmp, strlen or atoi

  const EXIT_LINE: string := "!exit"

  // ---------------------------------------------------------------- strtok

  datatype Token = NoToken | Token(text: string, rest: string)

  function SkipDelims(s: string, d: char): (r: string)
    ensures r != "" ==> r[0] != d
    ensures |r| <= |s|
  {
    if s != "" && s[0] == d then SkipDelims(s[1..], d) else s
  }

  /** The length of the longest prefix without the delimiter (`strcspn`). */
  function Span(s: string, d: char): (k: nat)
    ensures k <= |s|
    ensures d !in s[..k]
    ensures k < |s| ==> s[k] == d
  {
    if s == "" || s[0] == d then 0 else 1 + Span(s[1..], d)
  }

  /** One call of `strtok` with a one-character delimiter set. */
  function Strtok(s: string, d: char): (t: Token)
    ensures t.Token? ==> t.text != "" && d !in t.text
    ensures t.Token? ==> |t.text| + |t.rest| <= |s|
  {
    var u := SkipDelims(s, d);
    if u == "" then NoToken
    else
      var k := Span(u, d);
      Token(u[..k], if k < |u| then u[k + 1..] else "")
  }

  lemma {:induction false} SkipsDelims(s: string, d: char)
    ensures var n := |s| - |SkipDelims(s, d)|;
            0 <= n <= |s| && s[n..] == SkipDelims(s, d) && forall k :: 0 <= k < n ==> s[k] == d
  {
    if s != "" && s[0] == d {
      SkipsDelims(s[1..], d);
      assert forall k :: 0 < k <= |s| ==> s[1..][k - 1..] == s[k..];
    }
  }

  /**
   A token is the first longest stretch of the input without the delimiter, and the remainder is what
   comes behind the delimiter that ends it; there is none exactly when the input has nothing else.
  */
  lemma StrtokPlace(s: string, d: char)
    ensures match Strtok(s, d)
            case NoToken => forall k :: 0 <= k < |s| ==> s[k] == d
            case Token(text, rest) =>
              var i := |s| - |SkipDelims(s, d)|;
              var j := i + |text|;
              && 0 <= i < j <= |s| && (forall k :: 0 <= k < i ==> s[k] == d)
              && text == s[i..j] && d !in text
              && if j == |s| then rest == "" else s[j] == d && rest == s[j + 1..]
  {
    SkipsDelims(s, d);
    hide SkipDelims, Span;
    var u := SkipDelims(s, d);
    var i := |s| - |u|;
    if u == "" {
      assert Strtok(s, d) == NoToken && i == |s|;
    } else {
      var k := Span(u, d);
      assert Strtok(s, d) == Token(u[..k], if k < |u| then u[k + 1..] else "");
      assert k > 0;
      hide Strtok;
      SliceBehind(s, i, k);
      assert s[i..] == u;
    }
  }

  lemma SliceBehind(s: string, i: nat, k: nat)
    requires i + k <= |s|
    ensures s[i..][..k] == s[i..i + k]
    ensures i + k < |s| ==> s[i..][k + 1..] == s[i + k + 1..] && s[i..][k] == s[i + k]
  {
  }

  lemma {:induction false} SkipSuffix(s: string, d: char, b: string)
    ensures SkipDelims(s + [d] + b, d) ==
            if SkipDelims(s, d) == "" then SkipDelims(b, d) else SkipDelims(s, d) + [d] + b
  {
    var long := s + [d] + b;
    if s == "" {
      assert long[1..] == b;
    } else if s[0] == d {
      assert long[1..] == s[1..] + [d] + b;
      SkipSuffix(s[1..], d, b);
    }
  }

  lemma {:induction false} SpanSuffix(s: string, d: char, b: string)
    ensures Span(s + [d] + b, d) == Span(s, d)
  {
    if s != "" && s[0] != d {
      assert (s + [d] + b)[1..] == s[1..] + [d] + b;
      SpanSuffix(s[1..], d, b);
    }
  }

  /** Tokens come out of a string one after the other; only then does what is written behind it. */
  lemma StrtokSuffix(s: string, d: char, b: string)
    ensures Strtok(s, d).NoToken? ==> Strtok(s + [d] + b, d) == Strtok(b, d)
    ensures Strtok(s, d).Token? ==>
              var t, u := Strtok(s, d), Strtok(s + [d] + b, d);
              u.Token? && u.text == t.text && Strtok(u.rest, d) == Strtok(t.rest + [d] + b, d)
  {
    SkipSuffix(s, d, b);
    var v := SkipDelims(s, d);
    var w := v + [d] + b;
    hide SkipDelims, Span;
    if v != "" {
      SpanSuffix(v, d, b);
      LeadingDelim(d, b);
      var k := Span(v, d);
      var t, u := Strtok(s, d), Strtok(s + [d] + b, d);
      assert u == Token(w[..k], w[k + 1..]);
      assert t == Token(v[..k], if k < |v| then v[k + 1..] else "");
      hide Strtok;
      CutSuffix(v, d, b, k);
    }
  }

  lemma CutSuffix(v: string, d: char, b: string, k: nat)
    requires k <= |v|
    ensures (v + [d] + b)[..k] == v[..k]
    ensures (v + [d] + b)[k + 1..] == if k < |v| then v[k + 1..] + [d] + b else b
  {
  }

  lemma LeadingDelim(d: char, b: string)
    ensures Strtok("" + [d] + b, d) == Strtok(b, d)
  {
    assert ([d] + b)[1..] == b && "" + [d] + b == [d] + b;
  }

  lemma {:induction false} SpanStop(a: string, d: char, b: string)
    requires d !in a
    ensures Span(a + [d] + b, d) == |a|
    ensures Span(a, d) == |a|
  {
    if a != "" {
      SpanStop(a[1..], d, b);
      assert (a + [d] + b)[1..] == a[1..] + [d] + b;
    }
  }

  lemma StrtokStop(a: string, d: char, b: string)
    requires a != "" && d !in a
    ensures Strtok(a + [d] + b, d) == Token(a, b)
    ensures Strtok(a, d) == Token(a, "")
  {
    SpanStop(a, d, b);
    var s := a + [d] + b;
    assert s[0] == a[0] && a[0] in a;
    assert s[..|a|] == a && s[|a| + 1..] == b && a[..|a|] == a;
  }

  // ---------------------------------------------------------------- %d and atoi

  function Digit(k: int): (c: char)
    requires 0 <= k < 10
    ensures '0' <= c <= '9' && c as int == '0' as int + k
  {
    ('0' as int + k) as char
  }

  function Digits(n: nat): (s: string)
    ensures s != ""
    ensures forall c :: c in s ==> '0' <= c <= '9'
  {
    if n < 10 then [Digit(n)] else Digits(n / 10) + [Digit(n % 10)]
  }

  /** What `%d` prints. */
  function Decimal(n: int): (s: string)
    ensures s != "" && ' ' !in s && '>' !in s
  {
    if n < 0 then "-" + Digits(-n) else Digits(n)
  }

  function AtoiDigits(s: string, acc: int): int {
    if s != "" && '0' <= s[0] <= '9' then AtoiDigits(s[1..], acc * 10 + (s[0] as int - '0' as int)) else acc
  }

  predicate IsSpace(c: char) {
    c == ' ' || '\t' <= c <= '\r'
  }

  function SkipSpaces(s: string): string {
    if s != "" && IsSpace(s[0]) then SkipSpaces(s[1..]) else s
  }

  function Atoi(s: string): int {
    var u := SkipSpaces(s);
    if u != "" && u[0] == '-' then -AtoiDigits(u[1..], 0)
    else if u != "" && u[0] == '+' then AtoiDigits(u[1..], 0)
    else AtoiDigits(u, 0)
  }

  lemma {:induction false} AtoiDigitsSnoc(a: string, k: int, acc: int)
    requires 0 <= k < 10
    requires forall c :: c in a ==> '0' <= c <= '9'
    ensures AtoiDigits(a + [Digit(k)], acc) == AtoiDigits(a, acc) * 10 + k
  {
    var s := a + [Digit(k)];
    if a == "" {
      assert s == [Digit(k)];
      assert s[1..] == "";
    } else {
      assert a[0] in a && forall c :: c in a[1..] ==> c in a;
      assert s[1..] == a[1..] + [Digit(k)];
      AtoiDigitsSnoc(a[1..], k, acc * 10 + (a[0] as int - '0' as int));
    }
  }

  lemma {:induction false} AtoiDigitsDigits(n: nat)
    ensures AtoiDigits(Digits(n), 0) == n
  {
    if n < 10 {
      AtoiDigitsSnoc("", n, 0);
      assert "" + [Digit(n)] == Digits(n);
    } else {
      AtoiDigitsDigits(n / 10);
      AtoiDigitsSnoc(Digits(n / 10), n % 10, 0);
    }
  }

  /** `atoi` undoes `%d`. */
  lemma AtoiDecimal(n: int)
    ensures Atoi(Decimal(n)) == n
  {
    var d := Digits(if n < 0 then -n else n);
    AtoiDigitsDigits(if n < 0 then -n else n);
    assert d[0] in d;
    if n < 0 {
      assert Decimal(n)[1..] == d;
    }
  }

  // ---------------------------------------------------------------- encoders

  /** A frame with spaces between marker, nickname and pid. */
  function MemberText(marker: nat, nick: string, pid: int): string {
    Decimal(marker) + " " + nick + " " + Decimal(pid)
  }

  /** A frame with a space behind the marker and '>' between line and pid. */
  function ChatText(marker: nat, line: string, pid: int): string {
    Decimal(marker) + " " + line + ">" + Decimal(pid)
  }

  /** The text `send_message` puts on the queue: the priority decides the separator. */
  function SendMessageText(line: string, prio: int, marker: nat, pid: int): string {
    if prio == 2 then ChatText(marker, line, pid) else MemberText(marker, line, pid)
  }

  // ---------------------------------------------------------------- decoders

  /** The membership thread of the server: any first token but "0" announces a join. */
  function ParseMember(text: string): Frame {
    match Strtok(text, ' ')
    case NoToken => Broken
    case Token(kind, rest) =>
      match Strtok(rest, ' ')
      case NoToken => Broken
      case Token(nick, rest') =>
        match Strtok(rest', ' ')
        case NoToken => Broken
        case Token(num, _) => if kind == "0" then Leave(Atoi(num)) else Join(nick, Atoi(num))
  }

  /** The message thread of the server: any first token but "4" carries a line. */
  function ParseChat(text: string): Frame {
    match Strtok(text, ' ')
    case NoToken => Broken
    case Token(kind, rest) =>
      if kind == "4" then Poll else
      match Strtok(rest, '>')
      case NoToken => Broken
      case Token(line, rest') =>
        match Strtok(rest', ' ')
        case NoToken => Broken
        case Token(num, _) => Chat(line, Atoi(num))
  }

  /** The reader thread of a client. */
  function ParseClient(text: string): Frame {
    match Strtok(text, ' ')
    case NoToken => Broken
    case Token(kind, rest) =>
      if kind == "0" || kind == "1" then ParseMember(text) else
      match Strtok(rest, '>')
      case NoToken => Broken
      case Token(line, rest') =>
        if line == EXIT_LINE then Exit else
        match Strtok(rest', ' ')
        case NoToken => Broken
        case Token(num, _) => Chat(line, Atoi(num))
  }

  // ---------------------------------------------------------------- round trips

  predicate GoodNick(nick: string) {
    nick != "" && ' ' !in nick
  }

  predicate GoodLine(line: string) {
    line != "" && '>' !in line
  }

  /** The first token of every frame is its marker. */
  lemma MarkerToken(marker: nat, tail: string)
    requires marker in {0, 1, 3, 4}
    ensures Strtok(Decimal(marker) + " " + tail, ' ') == Token(Marker(marker), tail)
  {
    assert Decimal(marker) == Marker(marker);
    StrtokStop(Marker(marker), ' ', tail);
  }

  function Marker(marker: nat): (s: string)
    requires marker in {0, 1, 3, 4}
    ensures s == "0" <==> marker == 0
    ensures s == "1" <==> marker == 1
    ensures s == "4" <==> marker == 4
    ensures s != "" && ' ' !in s
  {
    [Digit(marker)]
  }

  /** The pid is the last token and `atoi` reads it back. */
  lemma PidToken(pid: int)
    ensures Strtok(Decimal(pid), ' ') == Token(Decimal(pid), "")
    ensures Atoi(Decimal(pid)) == pid
  {
    StrtokStop(Decimal(pid), ' ', "");
    AtoiDecimal(pid);
  }

  /** Server and client read a member frame alike; its nickname is one token if it has no space. */
  lemma MemberTokens(marker: nat, nick: string, pid: int)
    requires marker < 2
    ensures ParseClient(MemberText(marker, nick, pid)) == ParseMember(MemberText(marker, nick, pid))
    ensures GoodNick(nick) ==>
              ParseMember(MemberText(marker, nick, pid)) == if marker == 0 then Leave(pid) else Join(nick, pid)
  {
    var text := MemberText(marker, nick, pid);
    var tail := nick + " " + Decimal(pid);
    assert text == Decimal(marker) + " " + tail;
    MarkerToken(marker, tail);
    if GoodNick(nick) {
      StrtokStop(nick, ' ', Decimal(pid));
      assert Strtok(tail, ' ') == Token(nick, Decimal(pid));
      PidToken(pid);
    }
  }

  /** A join frame gives nickname and pid back exactly when the nickname is non-empty and has no space. */
  lemma JoinRoundTrip(nick: string, pid: int)
    ensures ParseMember(SendMessageText(nick, 1, 1, pid)) == Join(nick, pid) <==> GoodNick(nick)
    ensures ParseClient(SendMessageText(nick, 1, 1, pid)) == Join(nick, pid) <==> GoodNick(nick)
  {
    var text := MemberText(1, nick, pid);
    var tail := nick + " " + Decimal(pid);
    assert text == Decimal(1) + " " + tail;
    MarkerToken(1, tail);
    if GoodNick(nick) {
      MemberTokens(1, nick, pid);
    }
  }

  /** The nickname is one word between spaces, or its second word happens to read as the pid. */
  predicate LeaveReads(nick: string, pid: int) {
    var first := Strtok(nick, ' ');
    && first.Token?
    && var second := Strtok(first.rest, ' '); second.Token? ==> Atoi(second.text) == pid
  }

  /** A leave frame gives the pid back exactly under that condition, which a good nickname meets. */
  lemma LeaveRoundTrip(nick: string, pid: int)
    ensures ParseMember(SendMessageText(nick, 1, 0, pid)) == Leave(pid) <==> LeaveReads(nick, pid)
    ensures ParseClient(SendMessageText(nick, 1, 0, pid)) == Leave(pid) <==> LeaveReads(nick, pid)
    ensures GoodNick(nick) ==> LeaveReads(nick, pid)
  {
    var num := Decimal(pid);
    var tail := nick + [' '] + num;
    assert MemberText(0, nick, pid) == Decimal(0) + " " + tail;
    MarkerToken(0, tail);
    MemberTokens(0, nick, pid);
    PidToken(pid);
    NothingLeft(' ');
    StrtokSuffix(nick, ' ', num);
    var first := Strtok(nick, ' ');
    if first.Token? {
      StrtokSuffix(first.rest, ' ', num);
    }
    if GoodNick(nick) {
      StrtokStop(nick, ' ', num);
    }
  }

  lemma NothingLeft(d: char)
    ensures Strtok("", d) == NoToken
  {
  }

  /** A chat frame's marker token, and the tokens after it when the line is good. */
  lemma ChatTokens(line: string, pid: int)
    ensures Strtok(SendMessageText(line, 2, 3, pid), ' ') == Token(Marker(3), line + ">" + Decimal(pid))
    ensures GoodLine(line) ==> Strtok(line + ">" + Decimal(pid), '>') == Token(line, Decimal(pid))
  {
    var tail := line + ">" + Decimal(pid);
    assert SendMessageText(line, 2, 3, pid) == Decimal(3) + " " + tail;
    MarkerToken(3, tail);
    if GoodLine(line) {
      StrtokStop(line, '>', Decimal(pid));
    }
  }

  /**
   A chat frame gives line and pid back to the server exactly when the line is non-empty and has no '>';
   a client reads the same unless the line is the exit word.
  */
  lemma ChatRoundTrip(line: string, pid: int)
    ensures ParseChat(SendMessageText(line, 2, 3, pid)) == Chat(line, pid) <==> GoodLine(line)
    ensures ParseClient(SendMessageText(line, 2, 3, pid)) == Chat(line, pid) <==> GoodLine(line) && line != EXIT_LINE
  {
    ChatTokens(line, pid);
    PidToken(pid);
  }

  /** The frame a client sends to the chat queue when it is gone is read as a poll, whatever the nickname. */
  lemma PollRoundTrip(nick: string, pid: int)
    ensures ParseChat(SendMessageText(nick, 2, 4, pid)) == Poll
  {
    var tail := nick + ">" + Decimal(pid);
    var text := SendMessageText(nick, 2, 4, pid);
    assert text == Decimal(4) + " " + tail;
    MarkerToken(4, tail);
    assert Strtok(text, ' ') == Token(Marker(4), tail);
  }

  /**
   The replay a joiner gets from the server is character for character the frame that was sent:
   decoding a frame and printing it the way `shair_database` does gives the text back.
  */
  lemma ReplayText(nick: string, line: string, pid: int)
    requires GoodNick(nick) && GoodLine(line)
    ensures var f := ParseMember(SendMessageText(nick, 1, 1, pid));
            f.Join? && MemberText(1, f.nick, f.id) == SendMessageText(nick, 1, 1, pid)
    ensures var f := ParseChat(SendMessageText(line, 2, 3, pid));
            f.Chat? && ChatText(3, f.line, f.id) == SendMessageText(line, 2, 3, pid)
  {
    JoinRoundTrip(nick, pid);
    ChatRoundTrip(line, pid);
  }

  /**
   "!exit" is recognised exactly in a frame of priority 2, which is printed with '>'.  The frame a client
   addresses to itself has its pid as priority and is printed with a space: no pid token is left for the
   reader and `atoi` gets a null pointer.
  */
  lemma SelfExitFrameIsNotAnExit(prio: int, pid: int)
    ensures ParseClient(SendMessageText(EXIT_LINE, prio, 3, pid)) == if prio == 2 then Exit else Broken
  {
    hide Strtok, Decimal;
    if prio == 2 {
      ChatTokens(EXIT_LINE, pid);
    } else {
      var tail := EXIT_LINE + " " + Decimal(pid);
      assert SendMessageText(EXIT_LINE, prio, 3, pid) == Decimal(3) + " " + tail;
      MarkerToken(3, tail);
      StrtokStop(tail, '>', "");
      assert |tail| > |EXIT_LINE|;
      NothingLeft(' ');
    }
  }
}
