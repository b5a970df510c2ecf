/**
 What a command line of the shell means: split on '|', trim, drop empties, split on spaces, keep at
 most 15 words, and how such a line is written down.
*/
module PipelineSyntax {

  const NUL: char := '\0'
  const MAX_ARGS: nat := 16

  datatype Command = Command(path: string, args: seq<string>)

  /** The pieces between the delimiters, empty ones included. */
  function Split(s: string, d: char): (r: seq<string>)
    ensures r != []
  {
    if s == "" then [""]
    else
      var rest := Split(s[1..], d);
      if s[0] == d then [""] + rest else [[s[0]] + rest[0]] + rest[1..]
  }

  function NonEmpty(ss: seq<string>): seq<string> {
    if ss == [] then [] else (if ss[0] == "" then [] else [ss[0]]) + NonEmpty(ss[1..])
  }

  function Words(s: string): seq<string> {
    NonEmpty(Split(s, ' '))
  }

  function LTrim(s: string): (r: string)
    ensures r != "" ==> r[0] != ' '
  {
    if s != "" && s[0] == ' ' then LTrim(s[1..]) else s
  }

  function RTrim(s: string): (r: string)
    ensures |r| <= |s| && r == s[..|r|]
    ensures s != "" && s[0] != ' ' ==> r != ""
  {
    if s != "" && s[|s| - 1] == ' ' then
      var r := RTrim(s[..|s| - 1]);
      assert s[..|s| - 1][..|r|] == s[..|r|];
      r
    else
      assert s[..|s|] == s;
      s
  }

  function Trim(s: string): (r: string)
    ensures r != "" ==> r[0] != ' '
  {
    RTrim(LTrim(s))
  }

  function Keep(ws: seq<string>): seq<string> {
    if |ws| <= MAX_ARGS - 1 then ws else ws[..MAX_ARGS - 1]
  }

  /** The command of one piece between bars; none if the piece is blank. */
  function CommandOf(piece: string): seq<Command> {
    var t := Trim(piece);
    if t == "" then []
    else
      FirstWord(t);
      [Command(Words(t)[0], Keep(Words(t)))]
  }

  function Commands(pieces: seq<string>): seq<Command> {
    if pieces == [] then [] else CommandOf(pieces[0]) + Commands(pieces[1..])
  }

  /** The meaning of a line without its newline. */
  function Meaning(line: string): seq<Command> {
    Commands(Split(line, '|'))
  }

  lemma FirstWord(t: string)
    requires t != "" && t[0] != ' '
    ensures Words(t) != [] && Words(t)[0] != ""
  {
  }

  // ---------------------------------------------------------------- laws of splitting

  function Blanks(n: nat): seq<string> {
    if n == 0 then [] else [""] + Blanks(n - 1)
  }

  lemma {:induction false} SplitWhole(t: string, d: char)
    requires d !in t
    ensures Split(t, d) == [t]
  {
    if t != "" {
      SplitWhole(t[1..], d);
      assert [t[0]] + t[1..] == t;
    }
  }

  lemma {:induction false} SplitAt(t: string, d: char, rest: string)
    requires d !in t
    ensures Split(t + [d] + rest, d) == [t] + Split(rest, d)
  {
    var s := t + [d] + rest;
    if t == "" {
      assert s[1..] == rest;
    } else {
      assert s[1..] == t[1..] + [d] + rest;
      SplitAt(t[1..], d, rest);
      assert [t[0]] + t[1..] == t;
    }
  }

  /** The decomposition one call of `strtok_r` finds: leading delimiters, a token, the rest. */
  lemma {:induction false} SplitToken(s: string, d: char, i: nat, j: nat)
    requires i <= j <= |s| && (forall k :: 0 <= k < i ==> s[k] == d) && d !in s[i..j]
    requires j < |s| ==> s[j] == d
    ensures Split(s, d) == Blanks(i) + [s[i..j]] + if j < |s| then Split(s[j + 1..], d) else []
    decreases i
  {
    hide Split;
    if i == 0 {
      SplitNow(s, d, j);
    } else {
      var u := s[1..];
      assert u[i - 1..j - 1] == s[i..j];
      assert forall k :: 0 <= k < i - 1 ==> u[k] == s[k + 1];
      SplitToken(u, d, i - 1, j - 1);
      assert j < |s| ==> u[j..] == s[j + 1..];
      SplitFirst(s, d);
      assert Blanks(i) == [""] + Blanks(i - 1);
    }
  }

  lemma SplitFirst(s: string, d: char)
    requires s != "" && s[0] == d
    ensures Split(s, d) == [""] + Split(s[1..], d)
  {
  }

  lemma SplitNow(s: string, d: char, j: nat)
    requires j <= |s| && d !in s[0..j]
    requires j < |s| ==> s[j] == d
    ensures Split(s, d) == Blanks(0) + [s[0..j]] + if j < |s| then Split(s[j + 1..], d) else []
  {
    hide Split;
    if j < |s| {
      assert s == s[0..j] + [d] + s[j + 1..];
      SplitAt(s[0..j], d, s[j + 1..]);
    } else {
      assert s[0..j] == s;
      SplitWhole(s, d);
    }
  }

  lemma {:induction false} NonEmptyConcat(a: seq<string>, b: seq<string>)
    ensures NonEmpty(a + b) == NonEmpty(a) + NonEmpty(b)
  {
    if a == [] {
      assert a + b == b;
    } else {
      assert (a + b)[1..] == a[1..] + b;
      NonEmptyConcat(a[1..], b);
    }
  }

  lemma {:induction false} CommandsConcat(a: seq<string>, b: seq<string>)
    ensures Commands(a + b) == Commands(a) + Commands(b)
  {
    hide CommandOf;
    if a == [] {
      assert a + b == b;
    } else {
      assert (a + b)[1..] == a[1..] + b;
      CommandsConcat(a[1..], b);
    }
  }

  lemma {:induction false} BlanksMeanNothing(n: nat)
    ensures NonEmpty(Blanks(n)) == [] && Commands(Blanks(n)) == []
  {
    if n > 0 {
      BlanksMeanNothing(n - 1);
      assert Blanks(n)[1..] == Blanks(n - 1);
    }
  }

  lemma NonEmptyPieces(n: nat, t: string, rest: seq<string>)
    requires t != ""
    ensures NonEmpty(Blanks(n) + [t] + rest) == [t] + NonEmpty(rest)
  {
    hide Blanks;
    NonEmptyConcat(Blanks(n) + [t], rest);
    NonEmptyConcat(Blanks(n), [t]);
    BlanksMeanNothing(n);
    assert [t][1..] == [];
  }

  lemma CommandsPieces(n: nat, t: string, rest: seq<string>)
    ensures Commands(Blanks(n) + [t] + rest) == CommandOf(t) + Commands(rest)
  {
    hide Blanks, CommandOf;
    CommandsConcat(Blanks(n) + [t], rest);
    CommandsConcat(Blanks(n), [t]);
    BlanksMeanNothing(n);
    assert [t][1..] == [];
  }

  lemma NothingIsNothing()
    ensures Words("") == [] && Meaning("") == [] && NonEmpty([]) == [] && Commands([]) == []
  {
    assert [""][1..] == [];
  }

  /** What a token found in `s` contributes to the words of `s`. */
  lemma WordsToken(s: string, i: nat, j: nat)
    requires i < j <= |s| && (forall k :: 0 <= k < i ==> s[k] == ' ') && ' ' !in s[i..j]
    requires j < |s| ==> s[j] == ' '
    ensures Words(s) == [s[i..j]] + Words(if j < |s| then s[j + 1..] else "")
  {
    NothingIsNothing();
    hide Split, Blanks, NonEmpty;
    SplitToken(s, ' ', i, j);
    NonEmptyPieces(i, s[i..j], if j < |s| then Split(s[j + 1..], ' ') else []);
  }

  /** What a token found in `s` contributes to the commands of `s`. */
  lemma MeaningToken(s: string, i: nat, j: nat)
    requires i < j <= |s| && (forall k :: 0 <= k < i ==> s[k] == '|') && '|' !in s[i..j]
    requires j < |s| ==> s[j] == '|'
    ensures Meaning(s) == CommandOf(s[i..j]) + Meaning(if j < |s| then s[j + 1..] else "")
  {
    NothingIsNothing();
    hide Split, Blanks, Commands, CommandOf;
    SplitToken(s, '|', i, j);
    CommandsPieces(i, s[i..j], if j < |s| then Split(s[j + 1..], '|') else []);
  }

  /** A string of delimiters only has no token and means nothing. */
  lemma NoToken(s: string, d: char)
    requires forall k :: 0 <= k < |s| ==> s[k] == d
    ensures d == ' ' ==> Words(s) == []
    ensures d == '|' ==> Meaning(s) == []
  {
    SplitToken(s, d, |s|, |s|);
    hide Split;
    var blank := [s[|s|..|s|]];
    assert blank == Blanks(1) by { assert Blanks(1) == [""] + Blanks(0); }
    NonEmptyConcat(Blanks(|s|), blank);
    CommandsConcat(Blanks(|s|), blank);
    BlanksMeanNothing(|s|);
    BlanksMeanNothing(1);
    assert Blanks(|s|) + blank + [] == Blanks(|s|) + blank;
  }

  // ---------------------------------------------------------------- writing a pipeline down

  predicate GoodWord(w: string) {
    w != "" && ' ' !in w && '|' !in w && '\n' !in w && NUL !in w
  }

  predicate GoodCommand(c: Command) {
    1 <= |c.args| <= MAX_ARGS - 1 && c.path == c.args[0] && forall w :: w in c.args ==> GoodWord(w)
  }

  predicate GoodPipeline(cs: seq<Command>) {
    forall k :: 0 <= k < |cs| ==> GoodCommand(cs[k])
  }

  function RenderArgs(ws: seq<string>): string
    requires ws != []
  {
    if |ws| == 1 then ws[0] else ws[0] + [' '] + RenderArgs(ws[1..])
  }

  function Render(cs: seq<Command>): string
    requires GoodPipeline(cs)
  {
    if cs == [] then ""
    else if |cs| == 1 then RenderArgs(cs[0].args)
    else RenderArgs(cs[0].args) + " | " + Render(cs[1..])
  }

  lemma {:induction false} RenderedArgs(ws: seq<string>)
    requires ws != [] && forall w :: w in ws ==> GoodWord(w)
    ensures Words(RenderArgs(ws)) == ws
    ensures var s := RenderArgs(ws); s != "" && s[0] != ' ' && s[|s| - 1] != ' ' && '|' !in s && '\n' !in s && NUL !in s
  {
    assert GoodWord(ws[0]);
    if |ws| == 1 {
      SplitWhole(ws[0], ' ');
      assert [ws[0]][1..] == [];
      assert NonEmpty([ws[0]]) == [ws[0]] + NonEmpty([]);
      assert ws[0][0] in ws[0] && ws[0][|ws[0]| - 1] in ws[0];
    } else {
      RenderedArgs(ws[1..]);
      hide Split;
      SplitAt(ws[0], ' ', RenderArgs(ws[1..]));
      assert ws[0][0] in ws[0];
      assert ([ws[0]] + Split(RenderArgs(ws[1..]), ' '))[1..] == Split(RenderArgs(ws[1..]), ' ');
    }
  }

  lemma TrimmedAlready(s: string)
    requires s != "" && s[0] != ' ' && s[|s| - 1] != ' '
    ensures Trim(s) == s && Trim(s + " ") == s
  {
    assert LTrim(s + " ") == s + " ";
    assert (s + " ")[..|s|] == s;
  }

  lemma LeadingSpace(s: string)
    ensures Trim(" " + s) == Trim(s)
    ensures Meaning(" " + s) == Meaning(s)
  {
    LeadingSpaceTrim(s);
    var pieces := Split(s, '|');
    assert (" " + s)[1..] == s;
    assert Split(" " + s, '|') == [" " + pieces[0]] + pieces[1..];
    LeadingSpaceTrim(pieces[0]);
    hide Split, Trim;
    assert ([" " + pieces[0]] + pieces[1..])[1..] == pieces[1..];
  }

  lemma LeadingSpaceTrim(s: string)
    ensures Trim(" " + s) == Trim(s)
  {
    assert (" " + s)[1..] == s;
  }

  lemma RenderedCommand(c: Command)
    requires GoodCommand(c)
    ensures CommandOf(RenderArgs(c.args)) == [c]
    ensures CommandOf(RenderArgs(c.args) + " ") == [c]
  {
    hide Trim, Words, RenderArgs;
    RenderedArgs(c.args);
    TrimmedAlready(RenderArgs(c.args));
  }

  /** Reading a written pipeline gives the pipeline back. */
  lemma {:induction false} RenderRoundTrip(cs: seq<Command>)
    requires GoodPipeline(cs)
    ensures Meaning(Render(cs)) == cs
    ensures '\n' !in Render(cs) && NUL !in Render(cs)
  {
    hide Split, Trim, Words, RenderArgs, CommandOf;
    if cs == [] {
      NothingIsNothing();
    } else {
      var c, s := cs[0], RenderArgs(cs[0].args);
      RenderedArgs(c.args);
      RenderedCommand(c);
      if |cs| == 1 {
        SplitWhole(s, '|');
        assert [s][1..] == [];
        NothingIsNothing();
        assert Commands([s]) == [c];
        assert cs == [c];
      } else {
        var rest := Render(cs[1..]);
        RenderRoundTrip(cs[1..]);
        assert s + " | " + rest == (s + " ") + ['|'] + (" " + rest);
        SplitAt(s + " ", '|', " " + rest);
        LeadingSpace(rest);
        var pieces := [s + " "] + Split(" " + rest, '|');
        assert pieces[1..] == Split(" " + rest, '|');
        assert Commands(pieces) == [c] + Meaning(" " + rest);
        assert cs == [c] + cs[1..];
      }
    }
  }
}
