/** The fenced-code state machine every backlog reader shares (src/backlog/backlog-md.ts), after
    section 4.5 of the CommonMark specification. A run of the tracker over lines is a fold, so a fence
    state carries across any split of a document; a line that marks no fence leaves the state alone,
    and an open fence closes exactly on a bare run of its own character that is long enough. */
module Fences {
  import opened Text

  /** The tracker's state: outside any fence, or inside one opened by `len` times `ch`. */
  datatype Fence = Closed | Open(ch: char, len: nat)

  /** A fence line's leading run: at most three spaces, then three or more of one marker character. */
  datatype MarkerRun = NoRun | Run(indent: nat, ch: char, len: nat)

  function LeadingSpaces(line: string): (n: nat)
    ensures n <= |line|
  {
    if line != "" && line[0] == ' ' then 1 + LeadingSpaces(line[1..]) else 0
  }

  function Repeats(line: string, c: char): (n: nat)
    ensures n <= |line|
  {
    if line != "" && line[0] == c then Repeats(line[1..], c) + 1 else 0
  }

  function FenceMarkerRun(line: string): MarkerRun {
    var n := LeadingSpaces(line);
    if n <= 3 && n < |line| && line[n] in "`~" then
      var len := Repeats(line[n..], line[n]);
      if len >= 3 then Run(n, line[n], len) else NoRun
    else NoRun
  }

  /** The fence a line opens when none is open. A backtick fence's info string holds no backtick. */
  function FenceOpener(line: string): Fence {
    match FenceMarkerRun(line)
    case NoRun => Closed
    case Run(n, ch, len) =>
      if ch == '`' && n + len <= |line| && '`' in line[n + len..] then Closed else Open(ch, len)
  }

  /** A bare run of the fence's own character, at least as long as its opener. */
  predicate ClosesFence(line: string, fence: Fence)
    requires fence.Open?
  {
    match FenceMarkerRun(line)
    case NoRun => false
    case Run(n, ch, len) =>
      ch == fence.ch && len >= fence.len && n + len <= |line| && Trim(line) == line[n..n + len]
  }

  /** The tracker's state after one line. */
  function Next(f: Fence, line: string): Fence {
    if f == Closed then FenceOpener(line)
    else if ClosesFence(line, f) then Closed
    else f
  }

  /** Whether the tracker reports the line as fence syntax or fenced content. */
  predicate Inside(f: Fence, line: string) {
    f != Closed || FenceOpener(line) != Closed
  }

  /** The state after a run of lines. */
  function After(f: Fence, lines: seq<string>): Fence
    decreases |lines|
  {
    if lines == [] then f else After(Next(f, lines[0]), lines[1..])
  }

  lemma {:induction false} AfterConcat(f: Fence, a: seq<string>, b: seq<string>)
    ensures After(f, a + b) == After(After(f, a), b)
    decreases |a|
  {
    if a == [] {
      assert a + b == b;
    } else {
      assert (a + b)[1..] == a[1..] + b;
      AfterConcat(Next(f, a[0]), a[1..], b);
    }
  }

  /** The tracker object: `fence` is the closed-over variable of `fenceTracker()`. */
  class FenceTracker {
    var fence: Fence

    constructor ()
      ensures fence == Closed
    {
      fence := Closed;
    }

    /** Feed one line; true when it is fence syntax or fenced content. */
    method Feed(line: string) returns (inside: bool)
      modifies this
      ensures inside == Inside(old(fence), line)
      ensures fence == Next(old(fence), line)
    {
      if fence == Closed {
        fence := FenceOpener(line);
        return fence != Closed;
      }
      if ClosesFence(line, fence) {
        fence := Closed;
      }
      return true;
    }

    /** The trimmed title of an unfenced heading line at the given level. */
    method HeadingTitle(line: string, prefix: string) returns (r: Heading)
      requires prefix == "## " || prefix == "### "
      modifies this
      ensures fence == Next(old(fence), line)
      ensures r == if !Inside(old(fence), line) && prefix <= line then Titled(Trim(line[|prefix|..])) else NoTitle
    {
      var inside := Feed(line);
      r := if !inside && prefix <= line then Titled(Trim(line[|prefix|..])) else NoTitle;
    }
  }

  datatype Heading = NoTitle | Titled(title: string)

  /** Feeding a line the tracker reported as outside any fence again changes nothing: such a line
      opens no fence. */
  lemma RefeedIsNoOp(f: Fence, line: string)
    requires !Inside(f, line)
    ensures Next(f, line) == f && Next(Next(f, line), line) == f
  {
  }

  /** A line whose first visible character is no fence character is never fence syntax. */
  lemma NotAMarker(line: string)
    requires Trim(line) == "" || Trim(line)[0] !in "`~"
    ensures FenceMarkerRun(line) == NoRun
    ensures FenceOpener(line) == Closed
    ensures forall f: Fence :: Next(f, line) == f
  {
    var n := LeadingSpaces(line);
    if n < |line| && line[n] in "`~" {
      LeadingSpacesSplit(line);
      SpacesAreSpace(line[..n]);
      TrimFirst(line, n);
    }
  }

  /** Heading lines start with `#`, so inside or outside they leave the state alone. */
  lemma HashIsNotAMarker(line: string)
    requires line != "" && line[0] == '#'
    ensures forall f: Fence :: Next(f, line) == f
    ensures !Inside(Closed, line)
  {
    TrimFirst(line, 0);
    NotAMarker(line);
  }

  predicate Only(s: string, c: char) {
    forall i | 0 <= i < |s| :: s[i] == c
  }

  /** A bare fence line: up to three spaces, `k` times `c`, then only white space. */
  ghost predicate IsBareRun(line: string, c: char, n: nat, k: nat) {
    && n <= 3 && n + k <= |line|
    && Only(line[..n], ' ') && Only(line[n..n + k], c) && AllSpace(line[n + k..])
  }

  /** Section 4.5 of CommonMark 0.31.2: an open fence is closed by exactly the bare runs of its own
      character that are at least as long as its opener; every other line is content. */
  lemma OpenFenceClosesOnBareRuns(f: Fence, line: string)
    requires f.Open? && f.ch in "`~" && f.len >= 3
    ensures Next(f, line) == Closed <==> exists n: nat, k: nat :: k >= f.len && IsBareRun(line, f.ch, n, k)
  {
    if Next(f, line) == Closed {
      CloserIsBareRun(f, line);
    }
    if n: nat, k: nat :| k >= f.len && IsBareRun(line, f.ch, n, k) {
      BareRunCloses(f, line, n, k);
    }
  }

  /** A fence's opening line: up to three spaces, `k` times the marker `c` and no more, then an info
      string, which holds no backtick when the marker is one. */
  ghost predicate OpensWith(line: string, c: char, n: nat, k: nat) {
    && c in "`~" && n <= 3 && k >= 3 && n + k <= |line|
    && Only(line[..n], ' ') && Only(line[n..n + k], c) && (n + k < |line| ==> line[n + k] != c)
    && (c == '`' ==> '`' !in line[n + k..])
  }

  /** Section 4.5 of CommonMark 0.31.2: with no fence open, a line opens one of that marker and length
      exactly when it is such a line. */
  lemma FenceOpensOnRuns(line: string, c: char, k: nat)
    ensures Next(Closed, line) == Open(c, k) <==> exists n: nat :: OpensWith(line, c, n, k)
  {
    if Next(Closed, line) == Open(c, k) {
      OpenerOpens(line, c, k);
    }
    if n: nat :| OpensWith(line, c, n, k) {
      assert line[n..] == line[n..n + k] + line[n + k..] && line[n..][0] == line[n..n + k][0] == c;
      assert line == line[..n] + line[n..];
      LeadingSpacesAre(line[..n], line[n..]);
      RepeatsMaximal(line[n..n + k], line[n + k..], c);
    }
  }

  lemma OpenerOpens(line: string, c: char, k: nat)
    requires FenceOpener(line) == Open(c, k)
    ensures exists n: nat :: OpensWith(line, c, n, k)
  {
    var n := LeadingSpaces(line);
    LeadingSpacesSplit(line);
    RepeatsIsRun(line[n..], c);
    RepeatsStops(line[n..], c);
    assert line[n..][..k] == line[n..n + k];
    assert OpensWith(line, c, n, k);
  }

  lemma {:induction false} RepeatsStops(s: string, c: char)
    ensures Repeats(s, c) < |s| ==> s[Repeats(s, c)] != c
  {
    if s != "" && s[0] == c {
      RepeatsStops(s[1..], c);
    }
  }

  lemma CloserIsBareRun(f: Fence, line: string)
    requires f.Open? && Next(f, line) == Closed
    ensures exists n: nat, k: nat :: k >= f.len && IsBareRun(line, f.ch, n, k)
  {
    var n, k := CloserFacts(f, line);
    hide *;
    var rest := line[n..];
    assert line == line[..n] + rest && rest[..k] == line[n..n + k] && rest[k..] == line[n + k..];
    LeadingSpacesSplit(line);
    TrimAfterSpaces(line[..n], rest);
    RestOfBareRun(rest, f.ch, k);
    BareRunIs(line, f.ch, n, k);
  }

  lemma BareRunIs(line: string, c: char, n: nat, k: nat)
    requires n <= 3 && n + k <= |line|
    requires Only(line[..n], ' ') && Only(line[n..n + k], c) && AllSpace(line[n + k..])
    ensures IsBareRun(line, c, n, k)
  {
  }

  lemma CloserFacts(f: Fence, line: string) returns (n: nat, k: nat)
    requires f.Open? && Next(f, line) == Closed
    ensures n == LeadingSpaces(line) <= 3 && n + k <= |line| && k >= f.len
    ensures n < |line| && line[n] == f.ch && !IsSpace(f.ch)
    ensures k == Repeats(line[n..], f.ch) && Trim(line) == line[n..n + k]
  {
    n, k := LeadingSpaces(line), FenceMarkerRun(line).len;
  }

  lemma RestOfBareRun(rest: string, c: char, k: nat)
    requires k == Repeats(rest, c) && TrimEnd(rest) == rest[..k]
    ensures Only(rest[..k], c) && AllSpace(rest[k..])
  {
    TrimEndCuts(rest);
    RepeatsIsRun(rest, c);
  }

  lemma SpacesAreSpace(s: string)
    requires Only(s, ' ')
    ensures AllSpace(s)
  {
  }

  lemma TrimAfterSpaces(spaces: string, rest: string)
    requires Only(spaces, ' ')
    requires rest != "" && !IsSpace(rest[0])
    ensures Trim(spaces + rest) == TrimEnd(rest)
  {
    SpacesAreSpace(spaces);
    TrimStartSpace(spaces, rest);
  }

  lemma BareRunCloses(f: Fence, line: string, n: nat, k: nat)
    requires f.Open? && f.ch in "`~" && f.len >= 3 && k >= f.len && IsBareRun(line, f.ch, n, k)
    ensures Next(f, line) == Closed
  {
    var run, tail := line[n..n + k], line[n + k..];
    assert line[n..] == run + tail && run[0] == f.ch;
    assert line == line[..n] + line[n..];
    LeadingSpacesAre(line[..n], line[n..]);
    RepeatsMaximal(run, tail, f.ch);
    assert line == line[..n] + run + tail;
    BareRunTrims(line[..n], run, tail, f.ch);
  }

  lemma {:induction false} LeadingSpacesSplit(line: string)
    ensures Only(line[..LeadingSpaces(line)], ' ')
  {
    if line != "" && line[0] == ' ' {
      LeadingSpacesSplit(line[1..]);
      assert line[..LeadingSpaces(line)] == [' '] + line[1..][..LeadingSpaces(line[1..])];
    }
  }

  lemma {:induction false} LeadingSpacesAre(spaces: string, rest: string)
    requires Only(spaces, ' ') && rest != "" && rest[0] != ' '
    ensures LeadingSpaces(spaces + rest) == |spaces|
  {
    if spaces == "" {
      assert spaces + rest == rest;
    } else {
      assert (spaces + rest)[1..] == spaces[1..] + rest;
      LeadingSpacesAre(spaces[1..], rest);
    }
  }

  lemma BareRunTrims(before: string, run: string, after: string, c: char)
    requires Only(before, ' ') && AllSpace(after)
    requires c in "`~" && run != "" && Only(run, c)
    ensures Trim(before + run + after) == run
  {
    TrimPadded(before, run, after);
    assert run[0] == c && run[|run| - 1] == c;
    TrimVisible(run);
  }

  lemma {:induction false} RepeatsIsRun(s: string, c: char)
    ensures Only(s[..Repeats(s, c)], c)
  {
    if s != "" && s[0] == c {
      RepeatsIsRun(s[1..], c);
      assert s[..Repeats(s, c)] == [c] + s[1..][..Repeats(s[1..], c)];
    }
  }

  lemma {:induction false} RepeatsMaximal(run: string, tail: string, c: char)
    requires Only(run, c) && (tail == "" || tail[0] != c)
    ensures Repeats(run + tail, c) == |run|
  {
    if run == "" {
      assert run + tail == tail;
    } else {
      assert (run + tail)[1..] == run[1..] + tail;
      RepeatsMaximal(run[1..], tail, c);
    }
  }

  lemma {:induction false} TrimEndCuts(s: string)
    ensures TrimEnd(s) <= s && AllSpace(s[|TrimEnd(s)|..])
  {
    if s != "" && IsSpace(s[|s| - 1]) {
      var cut := s[..|s| - 1];
      TrimEndCuts(cut);
      assert s[|TrimEnd(cut)|..] == cut[|TrimEnd(cut)|..] + [s[|s| - 1]];
    }
  }

  lemma TrimVisible(s: string)
    requires s != "" && !IsSpace(s[0]) && !IsSpace(s[|s| - 1])
    ensures Trim(s) == s
  {
  }
}
