/** Text as the backlog code sees it: JavaScript's `trim`, and a document as the lines that
    `split("\n")` gives and `join("\n")` puts back (src/text/text.ts). Trimming a joined text and
    trimming the blank lines around its lines are related here once, so that everything else speaks
    of lines only. White space is the set JavaScript's `trim` removes, line terminators included,
    and a blank line is one that trims to nothing. */
module Text {

  /** The characters JavaScript's `trim` removes: white space and line terminators. */
  predicate IsSpace(c: char) {
    var n := c as int;
    || 0x9 <= n <= 0xD || n == 0x20 || n == 0xA0 || n == 0x1680 || 0x2000 <= n <= 0x200A
    || n == 0x2028 || n == 0x2029 || n == 0x202F || n == 0x205F || n == 0x3000 || n == 0xFEFF
  }

  predicate AllSpace(s: string) {
    forall i | 0 <= i < |s| :: IsSpace(s[i])
  }

  function TrimStart(s: string): string {
    if s != "" && IsSpace(s[0]) then TrimStart(s[1..]) else s
  }

  function TrimEnd(s: string): string {
    if s != "" && IsSpace(s[|s| - 1]) then TrimEnd(s[..|s| - 1]) else s
  }

  function Trim(s: string): string {
    TrimEnd(TrimStart(s))
  }

  /** `s.replace(/\s+/g, " ")`: every run of white space as one space. */
  function Collapse(s: string): string {
    if s == "" then ""
    else if !IsSpace(s[0]) then [s[0]] + Collapse(s[1..])
    else if |s| > 1 && IsSpace(s[1]) then Collapse(s[1..])
    else " " + Collapse(s[1..])
  }

  function CollapseWhitespace(s: string): string {
    Trim(Collapse(s))
  }

  /** The words of a text: its runs of visible characters. */
  function Words(s: string): (ws: seq<string>)
    ensures s != "" && !IsSpace(s[0]) ==> ws != []
  {
    if s == "" then []
    else if IsSpace(s[0]) then Words(s[1..])
    else if |s| == 1 || IsSpace(s[1]) then [[s[0]]] + Words(s[1..])
    else [[s[0]] + Words(s[1..])[0]] + Words(s[1..])[1..]
  }

  function WithSpaces(ws: seq<string>): string {
    if |ws| == 0 then "" else if |ws| == 1 then ws[0] else ws[0] + " " + WithSpaces(ws[1..])
  }

  /** A line with nothing but white space on it. */
  predicate Blank(line: string) {
    Trim(line) == ""
  }

  lemma {:induction false} TrimStartSpace(p: string, s: string)
    requires AllSpace(p)
    ensures TrimStart(p + s) == TrimStart(s)
  {
    if p == "" {
      assert p + s == s;
    } else {
      assert (p + s)[1..] == p[1..] + s;
      TrimStartSpace(p[1..], s);
    }
  }

  lemma {:induction false} TrimEndSpace(s: string, q: string)
    requires AllSpace(q)
    ensures TrimEnd(s + q) == TrimEnd(s)
  {
    if q == "" {
      assert s + q == s;
    } else {
      assert (s + q)[..|s + q| - 1] == s + q[..|q| - 1];
      TrimEndSpace(s, q[..|q| - 1]);
    }
  }

  lemma {:induction false} TrimStartKeepsTail(s: string, q: string)
    requires !AllSpace(s)
    ensures TrimStart(s + q) == TrimStart(s) + q
  {
    if IsSpace(s[0]) {
      assert (s + q)[1..] == s[1..] + q;
      TrimStartKeepsTail(s[1..], q);
    }
  }

  /** White space around a text is invisible to `trim`. */
  lemma TrimPadded(p: string, s: string, q: string)
    requires AllSpace(p) && AllSpace(q)
    ensures Trim(p + s + q) == Trim(s)
  {
    assert p + s + q == p + (s + q);
    TrimStartSpace(p, s + q);
    if AllSpace(s) {
      TrimStartSpace(s, q);
      TrimStartSpace(q, "");
      TrimStartSpace(s, "");
      assert q + "" == q && s + "" == s;
    } else {
      TrimStartKeepsTail(s, q);
      TrimEndSpace(TrimStart(s), q);
    }
  }

  lemma BlankIsAllSpace(line: string)
    ensures Blank(line) <==> AllSpace(line)
  {
    if AllSpace(line) {
      TrimStartSpace(line, "");
      assert line + "" == line;
    } else {
      TrimStartKeepsTail(line, "");
      TrimStartFirst(line);
      TrimEndNonEmpty(TrimStart(line));
    }
  }

  lemma {:induction false} TrimStartFirst(s: string)
    requires !AllSpace(s)
    ensures TrimStart(s) != "" && !IsSpace(TrimStart(s)[0])
  {
    if IsSpace(s[0]) {
      TrimStartFirst(s[1..]);
    }
  }

  lemma {:induction false} TrimEndNonEmpty(s: string)
    requires s != "" && !IsSpace(s[0])
    ensures TrimEnd(s) != "" && TrimEnd(s)[0] == s[0]
  {
    if IsSpace(s[|s| - 1]) {
      TrimEndNonEmpty(s[..|s| - 1]);
    }
  }

  /** Collapsing white space leaves the words, one space apart. */
  lemma {:induction false} CollapsedWords(s: string)
    ensures CollapseWhitespace(s) == WithSpaces(Words(s))
  {
    if s == "" {
    } else if IsSpace(s[0]) {
      CollapsedWords(s[1..]);
      if |s| == 1 || !IsSpace(s[1]) {
        var y := Collapse(s[1..]);
        assert " " + y + "" == " " + y;
        TrimPadded(" ", y, "");
      }
    } else {
      CollapsedWords(s[1..]);
      var y := Collapse(s[1..]);
      TrimVisibleStart(s[0], y);
      if |s| == 1 {
        assert [s[0]] + y == [s[0]];
      } else if !IsSpace(s[1]) {
        WithSpacesPrefix(s[0], Words(s[1..]));
      } else {
        CollapsedRest(s[0], s[1..]);
      }
    }
  }

  lemma TrimVisibleStart(c: char, y: string)
    requires !IsSpace(c)
    ensures Trim([c] + y) == [c] + TrimEnd(y)
    ensures y != "" && !IsSpace(y[0]) ==> Trim(y) == TrimEnd(y)
  {
    TrimEndKeeps(c, y);
  }

  lemma {:induction false} TrimEndKeeps(c: char, y: string)
    requires !IsSpace(c)
    ensures TrimEnd([c] + y) == [c] + TrimEnd(y)
  {
    if y == "" {
      assert [c] + y == [c];
    } else if IsSpace(y[|y| - 1]) {
      assert ([c] + y)[..|y|] == [c] + y[..|y| - 1];
      TrimEndKeeps(c, y[..|y| - 1]);
    }
  }

  lemma WithSpacesPrefix(c: char, ws: seq<string>)
    requires ws != []
    ensures WithSpaces([[c] + ws[0]] + ws[1..]) == [c] + WithSpaces(ws)
  {
    var all := [[c] + ws[0]] + ws[1..];
    assert all[1..] == ws[1..];
    if |ws| > 1 {
      assert [c] + ws[0] + " " + WithSpaces(ws[1..]) == [c] + (ws[0] + " " + WithSpaces(ws[1..]));
    }
  }

  /** White space behind a word: one space, or nothing at the end. */
  lemma {:induction false} CollapsedRest(c: char, s: string)
    requires s != "" && IsSpace(s[0]) && CollapseWhitespace(s) == WithSpaces(Words(s))
    ensures [c] + TrimEnd(Collapse(s)) == WithSpaces([[c]] + Words(s))
  {
    var z := BehindSpace(s);
    var ws := Words(s);
    assert ([[c]] + ws)[1..] == ws;
    var y := " " + z;
    assert " " + z + "" == y;
    TrimPadded(" ", z, "");
    if z == "" {
      assert TrimStart("") == "" && Trim("") == "";
      assert [c] + "" == [c];
      NoWords(ws);
    } else {
      TrimVisibleStart(z[0], z[1..]);
      assert z == [z[0]] + z[1..];
      TrimEndSpaceFirst(z);
      assert [c] + (" " + TrimEnd(z)) == [c] + " " + TrimEnd(z);
    }
  }

  lemma {:induction false} BehindSpace(s: string) returns (z: string)
    requires s != "" && IsSpace(s[0])
    ensures Collapse(s) == " " + z && (z != "" ==> !IsSpace(z[0]))
    ensures (z == "" <==> Words(s) == [])
  {
    if |s| > 1 && IsSpace(s[1]) {
      z := BehindSpace(s[1..]);
    } else {
      z := Collapse(s[1..]);
    }
  }

  lemma NoWords(ws: seq<string>)
    requires ws == []
    ensures WithSpaces(ws) == ""
  {
  }

  lemma {:induction false} TrimEndSpaceFirst(z: string)
    requires z != "" && !IsSpace(z[0])
    ensures TrimEnd(" " + z) == " " + TrimEnd(z)
  {
    if IsSpace(z[|z| - 1]) {
      assert (" " + z)[..|z|] == " " + z[..|z| - 1];
      TrimEndSpaceFirst(z[..|z| - 1]);
    }
  }

  /** The first visible character survives `trim`. */
  lemma TrimFirst(s: string, i: nat)
    requires i < |s| && AllSpace(s[..i]) && !IsSpace(s[i])
    ensures Trim(s) != "" && Trim(s)[0] == s[i]
  {
    assert s == s[..i] + s[i..];
    TrimStartSpace(s[..i], s[i..]);
    TrimEndNonEmpty(s[i..]);
  }

  /** `lines.join("\n")`. */
  function Join(lines: seq<string>): string {
    if |lines| == 0 then "" else if |lines| == 1 then lines[0] else lines[0] + "\n" + Join(lines[1..])
  }

  /** `text.split("\n")`. */
  function Split(text: string): (lines: seq<string>)
    ensures |lines| >= 1
    ensures forall l | l in lines :: '\n' !in l
  {
    if text == "" then [""]
    else if text[0] == '\n' then [""] + Split(text[1..])
    else
      var rest := Split(text[1..]);
      [[text[0]] + rest[0]] + rest[1..]
  }

  lemma {:induction false} JoinSplit(text: string)
    ensures Join(Split(text)) == text
  {
    if text != "" {
      var rest := Split(text[1..]);
      JoinSplit(text[1..]);
      if text[0] == '\n' {
        assert Split(text)[1..] == rest;
      } else {
        assert Split(text)[1..] == rest[1..];
      }
    }
  }

  lemma {:induction false} SplitLine(line: string)
    requires '\n' !in line
    ensures Split(line) == [line]
  {
    if line != "" {
      SplitLine(line[1..]);
      assert [line[0]] + line[1..] == line;
    }
  }

  lemma {:induction false} SplitConcat(a: string, b: string)
    ensures Split(a + "\n" + b) == Split(a) + Split(b)
  {
    if a == "" {
      assert (a + "\n" + b)[1..] == b;
    } else {
      assert (a + "\n" + b)[1..] == a[1..] + "\n" + b;
      SplitConcat(a[1..], b);
    }
  }

  /** Writing lines and reading them back: a written document is its lines, provided no line
      holds a newline. */
  lemma {:induction false} SplitJoin(lines: seq<string>)
    requires lines != [] && forall l | l in lines :: '\n' !in l
    ensures Split(Join(lines)) == lines
  {
    SplitLine(lines[0]);
    if |lines| > 1 {
      SplitJoin(lines[1..]);
      SplitConcat(lines[0], Join(lines[1..]));
    }
  }

  lemma {:induction false} JoinConcat(a: seq<string>, b: seq<string>)
    requires a != [] && b != []
    ensures Join(a + b) == Join(a) + "\n" + Join(b)
  {
    if |a| == 1 {
      assert (a + b)[1..] == b;
    } else {
      assert (a + b)[1..] == a[1..] + b;
      JoinConcat(a[1..], b);
    }
  }

  lemma {:induction false} JoinBlank(lines: seq<string>)
    requires forall l | l in lines :: Blank(l)
    ensures AllSpace(Join(lines))
  {
    if lines != [] {
      BlankIsAllSpace(lines[0]);
      JoinBlank(lines[1..]);
    }
  }

  lemma JoinPaddedRight(s: seq<string>, q: seq<string>)
    requires forall l | l in q :: Blank(l)
    ensures Trim(Join(s + q)) == Trim(Join(s))
  {
    JoinBlank(q);
    if s == [] {
      assert s + q == q;
      BlankIsAllSpace(Join(q));
    } else if q == [] {
      assert s + q == s;
    } else {
      JoinConcat(s, q);
      var pad := "\n" + Join(q);
      assert "" + Join(s) + pad == Join(s) + "\n" + Join(q);
      TrimPadded("", Join(s), pad);
    }
  }

  /** A blank line in front of a text is trimmed off. */
  lemma JoinAfterBlank(s: seq<string>)
    ensures Trim(Join([""] + s)) == Trim(Join(s))
  {
    if s != [] {
      JoinConcat([""], s);
      assert Join([""]) == "" && "\n" + Join(s) == "\n" + Join(s) + "";
      TrimPadded("\n", Join(s), "");
    }
  }

  /** How many visible characters a text has. */
  function Ink(s: string): nat {
    if s == "" then 0 else (if IsSpace(s[0]) then 0 else 1) + Ink(s[1..])
  }

  lemma {:induction false} InkConcat(a: string, b: string)
    ensures Ink(a + b) == Ink(a) + Ink(b)
  {
    if a == "" {
      assert a + b == b;
    } else {
      assert (a + b)[1..] == a[1..] + b;
      InkConcat(a[1..], b);
    }
  }

  lemma {:induction false} InkIsVisible(s: string)
    ensures Ink(s) == 0 <==> Blank(s)
  {
    BlankIsAllSpace(s);
    if s != "" {
      BlankIsAllSpace(s[1..]);
      InkIsVisible(s[1..]);
      assert s == [s[0]] + s[1..];
    }
  }

  /** `trim` takes no visible character. */
  lemma InkTrimmed(s: string)
    ensures Ink(Trim(s)) == Ink(s)
  {
    InkTrimmedStart(s);
    InkTrimmedEnd(TrimStart(s));
  }

  lemma {:induction false} InkTrimmedStart(s: string)
    ensures Ink(TrimStart(s)) == Ink(s)
  {
    if s != "" && IsSpace(s[0]) {
      InkTrimmedStart(s[1..]);
    }
  }

  lemma {:induction false} InkTrimmedEnd(s: string)
    ensures Ink(TrimEnd(s)) == Ink(s)
  {
    if s != "" && IsSpace(s[|s| - 1]) {
      var n := |s| - 1;
      assert s == s[..n] + [s[n]] && [s[n]][1..] == "";
      InkConcat(s[..n], [s[n]]);
      InkTrimmedEnd(s[..n]);
    }
  }

  lemma InkJoined(a: seq<string>, b: seq<string>)
    ensures Ink(Join(a + b)) == Ink(Join(a)) + Ink(Join(b))
  {
    if a == [] {
      assert a + b == b;
    } else if b == [] {
      assert a + b == a;
    } else {
      JoinConcat(a, b);
      InkConcat(Join(a) + "\n", Join(b));
      InkConcat(Join(a), "\n");
      assert "\n"[1..] == "";
    }
  }

  /** The lines left once the leading blank lines are gone. */
  function DropLeading(lines: seq<string>): (r: seq<string>)
    ensures |r| <= |lines| && r == lines[|lines| - |r|..]
    ensures forall l | l in lines[..|lines| - |r|] :: Blank(l)
    ensures r == [] || !Blank(r[0])
  {
    if lines != [] && Blank(lines[0]) then
      var r := DropLeading(lines[1..]);
      assert lines[..|lines| - |r|] == [lines[0]] + lines[1..][..|lines[1..]| - |r|];
      r
    else lines
  }

  /** The lines left once the trailing blank lines are gone. */
  function DropTrailing(lines: seq<string>): (r: seq<string>)
    ensures r <= lines
    ensures forall l | l in lines[|r|..] :: Blank(l)
    ensures r == [] || !Blank(r[|r| - 1])
  {
    if lines != [] && Blank(lines[|lines| - 1]) then
      var r := DropTrailing(lines[..|lines| - 1]);
      assert lines[|r|..] == lines[..|lines| - 1][|r|..] + [lines[|lines| - 1]];
      r
    else lines
  }

  /** `trimLeadingBlankLines` on a line array. */
  method TrimLeadingBlankLines(lines: seq<string>) returns (r: seq<string>)
    ensures r == DropLeading(lines)
  {
    r := lines;
    while |r| > 0 && Blank(r[0])
      invariant DropLeading(r) == DropLeading(lines)
      decreases |r|
    {
      r := r[1..];
    }
  }

  /** `trimTrailingBlankLines` on a line array. */
  method TrimTrailingBlankLines(lines: seq<string>) returns (r: seq<string>)
    ensures r == DropTrailing(lines)
  {
    r := lines;
    while |r| > 0 && Blank(r[|r| - 1])
      invariant DropTrailing(r) == DropTrailing(lines)
      decreases |r|
    {
      r := r[..|r| - 1];
    }
  }

  lemma EmptyIsBlank()
    ensures Blank("")
  {
  }
}
