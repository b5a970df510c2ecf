/**
 `parse`: the shell's tokeniser, which overwrites its input buffer.

 Two nested `strtok_r` scans run over the same characters: the outer one cuts the line at '|', the
 inner one cuts each piece at spaces.  Every cut is a terminator written into the buffer.
*/
module Tokeniser {
  import opened PipelineSyntax

  /** A C string occupies `b[i..e]`: no terminator inside, one at `e`. */
  ghost predicate IsStr(b: seq<char>, i: int, e: int) {
    0 <= i <= e < |b| && b[e] == NUL && NUL !in b[i..e]
  }

  /** The line in a buffer: everything before the first newline or terminator. */
  function LineOf(b: seq<char>): string {
    if b == [] || b[0] == NUL || b[0] == '\n' then "" else [b[0]] + LineOf(b[1..])
  }

  lemma {:induction false} LineIs(b: seq<char>, p: nat)
    requires p < |b| && (b[p] == NUL || b[p] == '\n')
    requires forall k :: 0 <= k < p ==> b[k] != NUL && b[k] != '\n'
    ensures LineOf(b) == b[..p]
  {
    if p > 0 {
      LineIs(b[1..], p - 1);
      assert b[..p] == [b[0]] + b[1..][..p - 1];
    }
  }

  /** What the tokens at spaces, or at bars, contribute. */
  ghost predicate Contributes(d: char, all: string, token: string, rest: string) {
    && (d == ' ' ==> Words(all) == [token] + Words(rest))
    && (d == '|' ==> Meaning(all) == CommandOf(token) + Meaning(rest))
  }

  ghost predicate ContributesNothing(d: char, all: string) {
    && (d == ' ' ==> Words(all) == [])
    && (d == '|' ==> Meaning(all) == [])
  }

  /**
   `strtok_r` on the string at `s` (the buffer itself, or where the previous call stopped).  The token is
   `b[tok..te]`, the scan goes on at `save`, and the only write is the terminator behind the token.
  */
  method StrtokR(b: array<char>, s: int, ghost e: int, d: char) returns (tok: int, save: int, ghost te: int)
    requires IsStr(b[..], s, e) && d != NUL
    modifies b
    ensures tok < 0 ==> tok == -1 && b[..] == old(b[..]) && ContributesNothing(d, old(b[s..e]))
    ensures tok >= 0 ==> s <= tok < te <= save <= e && b[..] == old(b[..])[te := NUL]
                         && IsStr(b[..], tok, te) && IsStr(b[..], save, e)
                         && b[save..e] == old(b[save..e])
                         && Contributes(d, old(b[s..e]), b[tok..te], b[save..e])
  {
    hide Contributes, ContributesNothing;
    var p := s;
    while b[p] != NUL && b[p] == d
      invariant s <= p <= e
      invariant forall k :: s <= k < p ==> b[k] == d
      invariant b[..] == old(b[..])
      decreases e - p
    {
      p := p + 1;
    }
    te := p;
    if b[p] == NUL {
      NothingFound(b[..], s, e, d);
      return -1, p, p;
    }
    var q := p;
    while b[q] != NUL && b[q] != d
      invariant p <= q <= e
      invariant forall k :: p <= k < q ==> b[k] != d
      invariant b[..] == old(b[..])
      decreases e - q
    {
      q := q + 1;
    }
    FoundStrings(b[..], s, e, d, p, q);
    if b[q] == NUL {
      assert b[..][q := NUL] == b[..];
      return p, q, q;
    }
    b[q] := NUL;
    return p, q + 1, q;
  }

  /** The two strings a cut at `te` leaves behind. */
  lemma FoundStrings(b: seq<char>, s: int, e: int, d: char, tok: int, te: int)
    requires IsStr(b, s, e) && s <= tok < te <= e
    requires forall k :: s <= k < tok ==> b[k] == d
    requires forall k :: tok <= k < te ==> b[k] != d
    requires te < e ==> b[te] == d
    ensures var b', save := b[te := NUL], if te < e then te + 1 else e;
            && IsStr(b', tok, te) && IsStr(b', save, e) && b'[save..e] == b[save..e]
            && Contributes(d, b[s..e], b'[tok..te], b'[save..e])
  {
    hide Contributes;
    var b', save := b[te := NUL], if te < e then te + 1 else e;
    CutStrings(b, s, e, tok, te, save);
    hide IsStr;
    SliceOfSlice(b, s, e, tok - s, te - s);
    SliceOfSlice(b, s, e, save - s, e - s);
    assert b[s..e][save - s..] == b[s..e][save - s..e - s];
    Contribution(b[s..e], d, tok - s, te - s);
  }

  /** Cutting at `te` makes two strings out of one. */
  lemma CutStrings(b: seq<char>, s: int, e: int, tok: int, te: int, save: int)
    requires IsStr(b, s, e) && s <= tok < te <= save <= e && (te < save || te == e)
    ensures 0 <= s && e < |b|
    ensures var b' := b[te := NUL];
            && IsStr(b', tok, te) && IsStr(b', save, e) && b'[save..e] == b[save..e] && b'[tok..te] == b[tok..te]
  {
    assert forall k :: s <= k < e ==> b[k] == b[s..e][k - s];
  }

  lemma SliceOfSlice(b: seq<char>, s: nat, e: nat, i: nat, j: nat)
    requires s <= e <= |b| && i <= j <= e - s
    ensures b[s..e][i..j] == b[s + i..s + j]
  {
    assert |b[s..e][i..j]| == j - i;
    assert forall k :: 0 <= k < j - i ==> b[s..e][i..j][k] == b[s + i + k];
  }

  lemma Contribution(t: string, d: char, i: nat, j: nat)
    requires i < j <= |t| && (forall k :: 0 <= k < i ==> t[k] == d) && forall k :: i <= k < j ==> t[k] != d
    requires j < |t| ==> t[j] == d
    ensures Contributes(d, t, t[i..j], if j < |t| then t[j + 1..] else "")
  {
    hide Words, Meaning, CommandOf;
    if d == ' ' { WordsToken(t, i, j); }
    if d == '|' { MeaningToken(t, i, j); }
  }

  lemma NothingFound(b: seq<char>, s: int, e: int, d: char)
    requires IsStr(b, s, e) && forall k :: s <= k < e ==> b[k] == d
    ensures ContributesNothing(d, b[s..e])
  {
    hide Words, Meaning;
    NoToken(b[s..e], d);
  }

  /** `strdup` */
  method Strdup(b: array<char>, s: int, ghost e: int) returns (copy: string)
    requires IsStr(b[..], s, e)
    ensures copy == b[s..e]
  {
    copy := "";
    var p := s;
    while b[p] != NUL
      invariant s <= p <= e && copy == b[s..p]
      decreases e - p
    {
      copy := copy + [b[p]];
      p := p + 1;
    }
  }

  /** Moves the start of the piece over its leading spaces. */
  method SkipLeading(b: array<char>, com: int, ghost te: int) returns (start: int)
    requires IsStr(b[..], com, te)
    ensures com <= start <= te && b[start..te] == LTrim(b[com..te])
  {
    start := com;
    while b[start] == ' '
      invariant com <= start <= te && LTrim(b[start..te]) == LTrim(b[com..te])
      decreases te - start
    {
      assert b[start..te][1..] == b[start + 1..te];
      start := start + 1;
    }
  }

  /** Finds the last character of the piece that is not a space; the first one is kept in any case. */
  method SkipTrailing(b: array<char>, com: int, ghost te: int) returns (end: int)
    requires IsStr(b[..], com, te) && b[com] != ' '
    ensures com - 1 <= end < te && b[com..end + 1] == RTrim(b[com..te])
  {
    var piece := Strdup(b, com, te);
    end := com + |piece| - 1;
    while end > com && b[end] == ' '
      invariant com - 1 <= end < te && (com < te ==> com <= end)
      invariant RTrim(b[com..end + 1]) == RTrim(piece)
    {
      assert b[com..end + 1][..end - com] == b[com..end];
      end := end - 1;
    }
  }

  /**
   Trims the piece at `com`: moves its start over leading spaces and writes a terminator over the first
   trailing one.  Nothing from the piece's own terminator on changes.
  */
  method TrimPiece(b: array<char>, com: int, ghost te: int) returns (start: int, stop: int)
    requires IsStr(b[..], com, te)
    modifies b
    ensures com <= start <= stop <= te && IsStr(b[..], start, stop)
    ensures b[start..stop] == Trim(old(b[com..te]))
    ensures b[te..] == old(b[te..])
  {
    hide LTrim, RTrim;
    start := SkipLeading(b, com, te);
    var end := SkipTrailing(b, start, te);
    ghost var trimmed := b[start..end + 1];
    b[end + 1] := NUL;
    stop := end + 1;
    assert b[start..stop] == trimmed;
  }

  /** The inner scan: the words of the trimmed piece, at most 15 of them. */
  method SplitArgs(b: array<char>, com: int, ghost e: int) returns (args: seq<string>)
    requires IsStr(b[..], com, e)
    modifies b
    ensures args == Keep(Words(old(b[com..e])))
    ensures b[e..] == old(b[e..])
  {
    hide Words, Meaning, CommandOf;
    ghost var words := Words(b[com..e]);
    args := [];
    var arg, save; ghost var te;
    arg, save, te := StrtokR(b, com, e, ' ');
    while arg >= 0
      invariant |args| < MAX_ARGS - 1 && b[e..] == old(b[e..])
      invariant arg < 0 ==> args == words
      invariant arg >= 0 ==> IsStr(b[..], arg, te) && IsStr(b[..], save, e) && arg < te <= save
                             && words == args + [b[arg..te]] + Words(b[save..e])
      decreases if arg >= 0 then e - arg + 1 else 0
    {
      var word := Strdup(b, arg, te);
      args := args + [word];
      if |args| >= MAX_ARGS - 1 {
        assert words[..|args|] == args;
        break;
      }
      arg, save, te := StrtokR(b, save, e, ' ');
    }
  }

  /** A trimmed piece is blank or has a first word. */
  lemma PieceCommand(piece: string, words: seq<string>)
    requires words == Keep(Words(Trim(piece)))
    ensures Trim(piece) == "" ==> CommandOf(piece) == []
    ensures Trim(piece) != "" ==> words != [] && CommandOf(piece) == [Command(words[0], words)]
  {
    if Trim(piece) != "" {
      FirstWord(Trim(piece));
      hide Trim, Words;
      assert Keep(Words(Trim(piece)))[0] == Words(Trim(piece))[0];
    }
  }

  lemma {:induction false} MeaningWellFormed(pieces: seq<string>)
    ensures forall k :: 0 <= k < |Commands(pieces)| ==>
              var c := Commands(pieces)[k]; 1 <= |c.args| <= MAX_ARGS - 1 && c.path == c.args[0]
  {
    if pieces != [] {
      MeaningWellFormed(pieces[1..]);
      PieceCommand(pieces[0], Keep(Words(Trim(pieces[0]))));
    }
  }

  /** What the inner pass did to a piece leaves the terminator of the piece and everything behind it alone. */
  lemma RestKept(b: seq<char>, b': seq<char>, te: int, save: int, e: int)
    requires IsStr(b, save, e) && 0 <= te <= save && |b'| == |b| && b'[te..] == b[te..]
    ensures IsStr(b', save, e) && b'[save..e] == b[save..e]
  {
    assert forall k :: te <= k < |b| ==> b'[k] == b'[te..][k - te] == b[te..][k - te] == b[k];
  }

  /** `realloc` to one element more. */
  method Enlarge(commands: array<Command>) returns (bigger: array<Command>)
    ensures fresh(bigger) && bigger.Length == commands.Length + 1 && bigger[..commands.Length] == commands[..]
  {
    bigger := new Command[commands.Length + 1](i requires 0 <= i < commands.Length + 1 reads commands =>
      if i < commands.Length then commands[i] else Command("", []));
  }

  /** Stores a command at index `count` and makes room for the next one. */
  method Append(commands: array<Command>, count: nat, size: nat, args: seq<string>)
    returns (commands': array<Command>, size': nat)
    requires args != [] && count < size == commands.Length
    modifies commands
    ensures commands' == commands || fresh(commands')
    ensures size' == commands'.Length == if count + 1 >= size then size + 1 else size
    ensures commands'[..count + 1] == old(commands[..count]) + [Command(args[0], args)]
  {
    commands[count] := Command(args[0], args);
    commands', size' := commands, size;
    if count + 1 >= size {
      commands' := Enlarge(commands);
      size' := size + 1;
    }
    assert commands'[..count + 1] == commands[..count + 1];
  }

  /** Trims one piece, splits it, and says what command it is, if any. */
  method ParsePiece(b: array<char>, com: int, ghost te: int) returns (args: seq<string>)
    requires IsStr(b[..], com, te)
    modifies b
    ensures b[te..] == old(b[te..])
    ensures CommandOf(old(b[com..te])) == if args == [] then [] else [Command(args[0], args)]
  {
    hide Words, Trim, CommandOf;
    ghost var piece := b[com..te];
    var start, stop := TrimPiece(b, com, te);
    if b[start] == NUL {
      args := [];
      PieceCommand(piece, Keep(Words(Trim(piece))));
      return;
    }
    ghost var trimmed := b[..];
    args := SplitArgs(b, start, stop);
    PieceCommand(piece, args);
    assert b[te..] == b[stop..][te - stop..] == trimmed[stop..][te - stop..];
  }

  /** One piece, with the rest of the line kept for the outer scan. */
  method NextPiece(b: array<char>, com: int, ghost te: int, ghost save: int, ghost e: int) returns (args: seq<string>)
    requires IsStr(b[..], com, te) && IsStr(b[..], save, e) && te <= save
    modifies b
    ensures IsStr(b[..], save, e) && b[save..e] == old(b[save..e])
    ensures CommandOf(old(b[com..te])) == if args == [] then [] else [Command(args[0], args)]
  {
    hide CommandOf;
    ghost var before := b[..];
    args := ParsePiece(b, com, te);
    RestKept(before, b[..], te, save, e);
  }

  /** Ends the line at its newline, or where it ended already. */
  method CutLine(str: array<char>) returns (e: int)
    requires NUL in str[..]
    modifies str
    ensures IsStr(str[..], 0, e) && str[0..e] == LineOf(old(str[..]))
  {
    e := 0;
    while str[e] != NUL && str[e] != '\n'
      invariant 0 <= e < str.Length && (forall k :: 0 <= k < e ==> str[k] != NUL && str[k] != '\n')
      invariant exists k :: e <= k < str.Length && str[k] == NUL
      invariant str[..] == old(str[..])
      decreases str.Length - e
    {
      e := e + 1;
    }
    LineIs(str[..], e);
    ghost var line := str[..e];
    str[e] := NUL;
    assert str[0..e] == line;
  }

  /**
   `parse`: whatever the buffer holds, the commands are the meaning of its line, every command has its
   first word as path, and the array is always longer than what is in use.
  */
  method Parse(str: array<char>) returns (commands: array<Command>, count: nat)
    requires NUL in str[..]
    modifies str
    ensures fresh(commands) && count < commands.Length
    ensures commands[..count] == Meaning(LineOf(old(str[..])))
  {
    hide Meaning, CommandOf, LineOf, Words;
    ghost var line := LineOf(str[..]);
    var e := CutLine(str);
    commands := new Command[1](_ => Command("", []));
    count := 0;
    var size := 1;
    var com, save; ghost var te;
    com, save, te := StrtokR(str, 0, e, '|');
    while com >= 0
      invariant fresh(commands) && size == commands.Length == count + 1
      invariant com < 0 ==> commands[..count] == Meaning(line)
      invariant com >= 0 ==> IsStr(str[..], com, te) && IsStr(str[..], save, e) && com < te <= save
      invariant com >= 0 ==> Meaning(line) == commands[..count] + CommandOf(str[com..te]) + Meaning(str[save..e])
      decreases if com >= 0 then e - com + 1 else 0
    {
      var args := NextPiece(str, com, te, save, e);
      if args != [] {
        commands, size := Append(commands, count, size, args);
        count := count + 1;
      }
      assert Meaning(line) == commands[..count] + Meaning(str[save..e]);
      com, save, te := StrtokR(str, save, e, '|');
    }
  }

  /** Typing a written pipeline, newline included, parses to the pipeline. */
  lemma TypedPipeline(cs: seq<Command>)
    requires GoodPipeline(cs)
    ensures Meaning(LineOf(Render(cs) + ['\n', NUL])) == cs
  {
    hide Render, Meaning, GoodPipeline;
    RenderRoundTrip(cs);
    var b, p := Render(cs) + ['\n', NUL], |Render(cs)|;
    assert forall k :: 0 <= k < p ==> b[k] == Render(cs)[k] && b[k] in Render(cs);
    LineIs(b, p);
    assert b[..p] == Render(cs);
  }
}
