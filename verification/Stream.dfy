/** The native stream's line splitter (src/agent/agent-stream.ts): a bounded buffer fed chunk by chunk
    that agrees with splitting the whole text, but for lines a chunk boundary cuts past the cap. */
module Stream {
  import opened Text

  /** The largest native line the runner buffers. */
  const MAX_NATIVE_LINE_CHARS: nat := 16 * 1024 * 1024

  // ---------------------------------------------------------------- lines of a growing text

  /** The lines of `text` that a newline ends. */
  function Complete(text: string): seq<string> {
    Split(text)[..|Split(text)| - 1]
  }

  /** What follows the last newline. */
  function Open(text: string): string {
    Split(text)[|Split(text)| - 1]
  }

  /** The lines a reader of the finished text expects: a trailing newline ends the last one. */
  function Flushed(text: string): seq<string> {
    if Open(text) == "" then Complete(text) else Split(text)
  }

  /** A boundary, not past `stop`, more than the cap into the line that starts at `start`. */
  predicate Cut(start: nat, stop: nat, ends: seq<nat>) {
    exists b | b in ends :: start + MAX_NATIVE_LINE_CHARS < b <= stop
  }

  /** The lines, the first at offset `at`, that no boundary cuts. */
  function Survive(lines: seq<string>, at: nat, ends: seq<nat>): seq<string> {
    if lines == [] then []
    else (if Cut(at, at + |lines[0]|, ends) then [] else [lines[0]]) + Survive(lines[1..], at + |lines[0]| + 1, ends)
  }

  function Span(lines: seq<string>): nat {
    if lines == [] then 0 else |lines[0]| + 1 + Span(lines[1..])
  }

  lemma {:induction false} SpanConcat(a: seq<string>, b: seq<string>)
    ensures Span(a + b) == Span(a) + Span(b)
  {
    if a == [] {
      assert a + b == b;
    } else {
      assert (a + b)[1..] == a[1..] + b;
      SpanConcat(a[1..], b);
    }
  }

  lemma {:induction false} SurviveConcat(a: seq<string>, b: seq<string>, at: nat, ends: seq<nat>)
    ensures Survive(a + b, at, ends) == Survive(a, at, ends) + Survive(b, at + Span(a), ends)
  {
    hide Cut;
    if a == [] {
      assert a + b == b;
    } else {
      assert (a + b)[1..] == a[1..] + b;
      SurviveConcat(a[1..], b, at + |a[0]| + 1, ends);
    }
  }

  /** Lines no boundary lies more than the cap into all survive. */
  lemma {:induction false} AllSurvive(lines: seq<string>, at: nat, ends: seq<nat>)
    requires forall b | b in ends :: b <= at + MAX_NATIVE_LINE_CHARS
    ensures Survive(lines, at, ends) == lines
  {
    if lines != [] {
      AllSurvive(lines[1..], at + |lines[0]| + 1, ends);
    }
  }

  /** A boundary past the lines cuts none of them. */
  lemma {:induction false} LaterEnd(lines: seq<string>, at: nat, ends: seq<nat>, b: nat)
    requires at + Span(lines) <= b
    ensures Survive(lines, at, ends + [b]) == Survive(lines, at, ends)
  {
    if lines != [] {
      LaterEnd(lines[1..], at + |lines[0]| + 1, ends, b);
      CutLater(at, at + |lines[0]|, ends, b);
    }
  }

  lemma CutLater(start: nat, stop: nat, ends: seq<nat>, b: nat)
    requires stop < b
    ensures Cut(start, stop, ends + [b]) <==> Cut(start, stop, ends)
  {
    assert forall x :: x in ends + [b] <==> x in ends || x == b;
  }

  lemma SplitCons(c: char, t: string)
    ensures Split([c] + t) == if c == '\n' then [""] + Split(t) else [[c] + Split(t)[0]] + Split(t)[1..]
  {
    assert ([c] + t)[1..] == t;
  }

  lemma CompleteAndOpen(t: string)
    ensures Split(t) == Complete(t) + [Open(t)]
  {
    hide Split;
  }

  lemma {:induction false} SplitAppend(a: string, b: string)
    ensures Split(a + b) == Complete(a) + [Open(a) + Split(b)[0]] + Split(b)[1..]
  {
    hide *;
    var pieces := Split(b);
    if a == "" {
      assert a + b == b && '\n' !in a && "" + pieces[0] == pieces[0];
      NoLine(a);
      assert pieces == [pieces[0]] + pieces[1..];
    } else {
      var c, t := a[0], a[1..];
      assert a == [c] + t && a + b == [c] + (t + b);
      SplitAppend(t, b);
      SplitCons(c, t);
      SplitCons(c, t + b);
      CompleteAndOpen(t);
      CompleteAndOpen(a);
      PrependChar(c, Complete(t), Open(t), Complete(a), Open(a), pieces, Split(t), Split(a), Split(t + b), Split(a + b));
    }
  }

  lemma PrependChar(c: char, init: seq<string>, last: string, init': seq<string>, last': string, pieces: seq<string>,
                    rest: seq<string>, all: seq<string>, restB: seq<string>, allB: seq<string>)
    requires pieces != [] && rest == init + [last] && all == init' + [last'] && restB == init + [last + pieces[0]] + pieces[1..]
    requires all == if c == '\n' then [""] + rest else [[c] + rest[0]] + rest[1..]
    requires allB == if c == '\n' then [""] + restB else [[c] + restB[0]] + restB[1..]
    ensures allB == init' + [last' + pieces[0]] + pieces[1..]
  {
    var tail := [last + pieces[0]] + pieces[1..];
    if c == '\n' {
      assert all == ([""] + init) + [last];
      assert init' == all[..|all| - 1] == [""] + init && last' == all[|all| - 1] == last;
      assert allB == [""] + init + [last + pieces[0]] + pieces[1..];
    } else if init == [] {
      assert rest == [last] && restB == tail;
      assert all == [[c] + last] && init' == all[..0] && last' == all[0];
      assert restB[1..] == pieces[1..] && [c] + (last + pieces[0]) == [c] + last + pieces[0];
    } else {
      var first := [[c] + init[0]] + init[1..];
      assert rest[1..] == init[1..] + [last] && restB[1..] == init[1..] + [last + pieces[0]] + pieces[1..];
      assert all == first + [last];
      assert init' == all[..|all| - 1] == first && last' == all[|all| - 1] == last;
      assert allB == first + [last + pieces[0]] + pieces[1..];
    }
  }

  /** How a text's lines grow with more text: the open line takes the first piece. */
  lemma Grow(a: string, b: string)
    ensures Complete(a + b) == Complete(a) + Complete(Open(a) + b) && Open(a + b) == Open(Open(a) + b)
  {
    hide *;
    SplitAppend(a, b);
    SplitAppend(Open(a), b);
    OpenHasNoNewline(a);
    NoLine(Open(a));
    CompleteAndOpen(a + b);
    CompleteAndOpen(Open(a) + b);
    CompleteAndOpen(a);
    var pieces := Split(b);
    var last := [Open(a) + pieces[0]] + pieces[1..];
    assert Split(a + b) == Complete(a) + last;
    assert Split(Open(a) + b) == last;
    assert last == last[..|last| - 1] + [last[|last| - 1]];
    SameEnds(Complete(a + b), Open(a + b), Complete(a) + last[..|last| - 1], last[|last| - 1]);
    SameEnds(Complete(Open(a) + b), Open(Open(a) + b), last[..|last| - 1], last[|last| - 1]);
  }

  lemma SameEnds(a: seq<string>, x: string, b: seq<string>, y: string)
    requires a + [x] == b + [y]
    ensures a == b && x == y
  {
    assert (a + [x])[..|a|] == a && (a + [x])[|a|] == x;
    assert (b + [y])[..|b|] == b && (b + [y])[|b|] == y;
  }

  lemma OpenHasNoNewline(a: string)
    ensures '\n' !in Open(a)
  {
    assert Open(a) in Split(a);
  }

  lemma {:induction false} SpanIs(a: string)
    ensures Span(Complete(a)) + |Open(a)| == |a|
  {
    if a == "" {
      assert Split(a)[..0] == [];
    } else {
      SpanIs(a[1..]);
      var rest := Split(a[1..]);
      if a[0] == '\n' {
        assert Split(a)[..|rest|] == [""] + rest[..|rest| - 1];
        assert ([""] + rest[..|rest| - 1])[1..] == rest[..|rest| - 1];
      } else if |rest| > 1 {
        assert Split(a)[..|rest| - 1] == [[a[0]] + rest[0]] + rest[1..|rest| - 1];
        assert Complete(a)[1..] == Complete(a[1..])[1..];
      } else {
        assert Split(a)[..0] == [] && Split(a[1..])[..0] == [];
      }
    }
  }

  /** The line of `text` up to its first newline, when there is one. */
  lemma FirstLine(text: string, nl: nat)
    requires nl < |text| && text[nl] == '\n' && '\n' !in text[..nl]
    ensures Complete(text) == [text[..nl]] + Complete(text[nl + 1..]) && Open(text) == Open(text[nl + 1..])
  {
    assert text == text[..nl] + "\n" + text[nl + 1..];
    SplitConcat(text[..nl], text[nl + 1..]);
    SplitLine(text[..nl]);
    var rest := Split(text[nl + 1..]);
    assert ([text[..nl]] + rest)[..|rest|] == [text[..nl]] + rest[..|rest| - 1];
  }

  lemma NoLine(text: string)
    requires '\n' !in text
    ensures Complete(text) == [] && Open(text) == text
  {
    SplitLine(text);
  }

  // ---------------------------------------------------------------- what a call does to the state

  /** The buffer holds the open line, uncut so far, and all surviving lines are out. */
  ghost predicate Buffered(whole: string, ends: seq<nat>, tail: string, emitted: seq<string>) {
    && emitted == Survive(Complete(whole), 0, ends) && tail == Open(whole)
    && forall b | b in ends :: b <= |whole| && b <= |whole| - |tail| + MAX_NATIVE_LINE_CHARS
  }

  /** The open line was cut: it is skipped to its newline. */
  ghost predicate Skipping(whole: string, ends: seq<nat>, emitted: seq<string>) {
    && emitted == Survive(Complete(whole), 0, ends)
    && (forall b | b in ends :: b <= |whole|)
    && |Open(whole)| <= |whole| && Cut(|whole| - |Open(whole)|, |whole|, ends)
  }

  /** Every line completed by more text survives, for the boundaries so far. */
  lemma MoreText(whole: string, ends: seq<nat>, tail: string, emitted: seq<string>, text: string)
    requires Buffered(whole, ends, tail, emitted)
    ensures emitted + Complete(tail + text) == Survive(Complete(whole + text), 0, ends)
    ensures Open(whole + text) == Open(tail + text)
    ensures |Open(whole + text)| <= |whole + text|
    ensures forall b | b in ends :: b <= |whole + text| - |Open(whole + text)| + MAX_NATIVE_LINE_CHARS
  {
    hide Survive, Cut, Complete, Open, Span;
    Grow(whole, text);
    SurviveConcat(Complete(whole), Complete(tail + text), 0, ends);
    SpanIs(whole);
    SpanIs(whole + text);
    SpanConcat(Complete(whole), Complete(tail + text));
    AllSurvive(Complete(tail + text), Span(Complete(whole)), ends);
  }

  /** The call ends: its boundary cuts the open line when more than the cap is buffered. */
  lemma CallEnds(whole: string, ends: seq<nat>, tail: string, emitted: seq<string>)
    requires emitted == Survive(Complete(whole), 0, ends) && tail == Open(whole) && |tail| <= |whole|
    requires forall b | b in ends :: b <= |whole| && b <= |whole| - |tail| + MAX_NATIVE_LINE_CHARS
    ensures |tail| <= MAX_NATIVE_LINE_CHARS ==> Buffered(whole, ends + [|whole|], tail, emitted)
    ensures |tail| > MAX_NATIVE_LINE_CHARS ==> Skipping(whole, ends + [|whole|], emitted)
  {
    hide Survive, Complete, Open, Span;
    SpanIs(whole);
    LaterEnd(Complete(whole), 0, ends, |whole|);
    assert |whole| in ends + [|whole|];
  }

  /** The last call: what is buffered is the last line. */
  lemma LastCall(whole: string, ends: seq<nat>, tail: string, emitted: seq<string>)
    requires |tail| <= MAX_NATIVE_LINE_CHARS ==> Buffered(whole, ends, tail, emitted)
    requires |tail| > MAX_NATIVE_LINE_CHARS ==> Skipping(whole, ends, emitted) && tail == Open(whole)
    ensures Survive(Flushed(whole), 0, ends) == emitted + (if tail != "" && |tail| <= MAX_NATIVE_LINE_CHARS then [tail] else [])
  {
    hide Survive, Cut, Span;
    SpanIs(whole);
    if tail != "" {
      assert Split(whole) == Complete(whole) + [tail];
      SurviveConcat(Complete(whole), [tail], 0, ends);
      SurviveOne(tail, Span(Complete(whole)), ends);
      if |tail| <= MAX_NATIVE_LINE_CHARS {
        NotCut(Span(Complete(whole)), |whole|, ends);
      }
    } else {
      assert emitted + [] == emitted;
    }
  }

  lemma SurviveOne(line: string, at: nat, ends: seq<nat>)
    ensures Survive([line], at, ends) == if Cut(at, at + |line|, ends) then [] else [line]
  {
    hide Cut;
    assert [line][1..] == [];
  }

  lemma NotCut(start: nat, stop: nat, ends: seq<nat>)
    requires forall b | b in ends :: b <= start + MAX_NATIVE_LINE_CHARS
    ensures !Cut(start, stop, ends)
  {
  }

  /** More of a line that is being skipped. */
  lemma StillSkipping(whole: string, ends: seq<nat>, emitted: seq<string>, text: string)
    requires Skipping(whole, ends, emitted) && '\n' !in text
    ensures Skipping(whole + text, ends + [|whole + text|], emitted)
  {
    hide Survive, Complete, Open, Span;
    OpenHasNoNewline(whole);
    Grow(whole, text);
    NoLine(Open(whole) + text);
    assert Complete(whole) + [] == Complete(whole);
    SpanIs(whole);
    SpanIs(whole + text);
    LaterEnd(Complete(whole), 0, ends, |whole + text|);
    var b :| b in ends && |whole| - |Open(whole)| + MAX_NATIVE_LINE_CHARS < b <= |whole|;
    assert b in ends + [|whole + text|];
  }

  /** The skipped line's newline arrives: the buffer starts afresh behind it. */
  lemma Resynchronized(whole: string, ends: seq<nat>, emitted: seq<string>, text: string, nl: nat)
    requires Skipping(whole, ends, emitted) && nl < |text| && text[nl] == '\n' && '\n' !in text[..nl]
    ensures Buffered(whole + text[..nl + 1], ends, "", emitted)
    ensures whole + text == (whole + text[..nl + 1]) + text[nl + 1..]
    ensures |Complete(whole + text[..nl + 1])| == |Complete(whole)| + 1
  {
    hide Survive, Cut, Complete, Open, Span;
    var line := Open(whole) + text[..nl];
    var head := Open(whole) + text[..nl + 1];
    OpenHasNoNewline(whole);
    Grow(whole, text[..nl + 1]);
    assert head == line + "\n" && head[..|line|] == line && head[|line| + 1..] == "";
    FirstLine(head, |line|);
    NoLine("");
    SurviveConcat(Complete(whole), [line], 0, ends);
    SpanIs(whole);
    SurviveOne(line, Span(Complete(whole)), ends);
    CutFurther(Span(Complete(whole)), |whole|, Span(Complete(whole)) + |line|, ends);
    assert [line] + [] == [line] && emitted + [] == emitted;
  }

  lemma CutFurther(start: nat, stop: nat, further: nat, ends: seq<nat>)
    requires Cut(start, stop, ends) && stop <= further
    ensures Cut(start, further, ends)
  {
  }

  // ---------------------------------------------------------------- feedCanonical

  function IndexOf(s: string, c: char, from: nat): (i: nat)
    requires from <= |s|
    ensures from <= i <= |s| && c !in s[from..i] && (i < |s| ==> s[i] == c)
    decreases |s| - from
  {
    if from == |s| || s[from] == c then from
    else
      var i := IndexOf(s, c, from + 1);
      assert s[from..i] == [s[from]] + s[from + 1..i];
      i
  }

  class NativeStream {
    var nativeTail: string
    var nativeOverflow: bool
    var emitted: seq<string>
    var warnings: nat
    ghost var whole: string
    ghost var ends: seq<nat>

    /** Between calls the buffer holds no newline and at most the cap, and one warning was given per
        line skipped. */
    ghost predicate Valid()
      reads this
    {
      && (if nativeOverflow then nativeTail == "" && Skipping(whole, ends, emitted) else Buffered(whole, ends, nativeTail, emitted))
      && |nativeTail| <= MAX_NATIVE_LINE_CHARS && '\n' !in nativeTail
      && warnings + |emitted| == |Complete(whole)| + if nativeOverflow then 1 else 0
    }

    constructor ()
      ensures Valid() && whole == "" && ends == []
    {
      nativeTail, nativeOverflow, emitted, warnings := "", false, [], 0;
      whole, ends := "", [];
      new;
      NoLine("");
    }

    /** The loop over the buffer's newlines: every line it completes is emitted. */
    method EmitLines(text: string)
      modifies this`nativeTail, this`emitted
      ensures emitted == old(emitted) + Complete(old(nativeTail) + text)
      ensures nativeTail == Open(old(nativeTail) + text)
    {
      hide Split, Complete, Open;
      nativeTail := nativeTail + text;
      ghost var all := nativeTail;
      var start := 0;
      assert all[0..] == all;
      while true
        invariant 0 <= start <= |nativeTail| && nativeTail == all
        invariant emitted + Complete(all[start..]) == old(emitted) + Complete(all)
        invariant Open(all[start..]) == Open(all)
        decreases |all| - start
      {
        var nl := IndexOf(nativeTail, '\n', start);
        if nl == |nativeTail| {
          assert all[start..nl] == all[start..];
          NoLine(all[start..]);
          break;
        }
        ghost var rest := all[start..];
        assert rest[..nl - start] == all[start..nl] && rest[nl - start + 1..] == all[nl + 1..];
        FirstLine(rest, nl - start);
        emitted := emitted + [nativeTail[start..nl]];
        start := nl + 1;
      }
      if start > 0 {
        nativeTail := nativeTail[start..];
      }
    }

    method FeedCanonical(text: string, final: bool)
      requires Valid()
      modifies this
      ensures whole == old(whole) + text && ends == old(ends) + [|whole|]
      ensures !final ==> Valid()
      ensures final ==> emitted == Survive(Flushed(whole), 0, ends)
    {
      hide Split, Complete, Open, Survive, Cut, Flushed, Buffered, Skipping;
      var rest := text;
      ghost var seen := whole;
      if nativeOverflow {
        var nl := IndexOf(text, '\n', 0);
        if nl == |text| {
          assert text[0..nl] == text;
          StillSkipping(whole, ends, emitted, text);
          SkipGrows(seen, text);
          whole := whole + text;
          ends := ends + [|whole|];
          SkippedLast(whole, ends, emitted);
          return;
        }
        assert text[0..nl] == text[..nl];
        Resynchronized(whole, ends, emitted, text, nl);
        nativeOverflow := false;
        seen := whole + text[..nl + 1];
        rest := text[nl + 1..];
      }
      MoreText(seen, ends, nativeTail, emitted, rest);
      Counted(seen, nativeTail, rest, ends, emitted);
      EmitLines(rest);
      assert old(whole) + text == seen + rest;
      EndsIn(seen, ends, old(nativeTail), old(emitted), rest);
      whole := whole + text;
      CallEnds(whole, ends, nativeTail, emitted);
      ends := ends + [|whole|];
      LastCall(whole, ends, nativeTail, emitted);
      OpenHasNoNewline(whole);
      if |nativeTail| > MAX_NATIVE_LINE_CHARS {
        nativeTail := "";
        if !final {
          nativeOverflow := true;
          warnings := warnings + 1;
        }
      } else if final && nativeTail != "" {
        emitted := emitted + [nativeTail];
        nativeTail := "";
      }
    }
  }

  lemma EndsIn(seen: string, ends: seq<nat>, tail: string, emitted: seq<string>, text: string)
    requires Buffered(seen, ends, tail, emitted)
    ensures forall b | b in ends :: b <= |seen + text|
  {
    hide Survive, Complete, Open;
  }

  /** No line is completed while one is being skipped. */
  lemma SkipGrows(whole: string, text: string)
    requires '\n' !in text
    ensures |Complete(whole + text)| == |Complete(whole)|
  {
    hide Complete, Open;
    OpenHasNoNewline(whole);
    Grow(whole, text);
    NoLine(Open(whole) + text);
  }

  lemma Counted(seen: string, tail: string, text: string, ends: seq<nat>, emitted: seq<string>)
    requires Buffered(seen, ends, tail, emitted)
    ensures |Complete(seen + text)| == |Complete(seen)| + |Complete(tail + text)|
  {
    hide Complete, Open, Survive;
    Grow(seen, text);
  }

  /** A line still being skipped at the end is left out. */
  lemma SkippedLast(whole: string, ends: seq<nat>, emitted: seq<string>)
    requires Skipping(whole, ends, emitted)
    ensures Survive(Flushed(whole), 0, ends) == emitted
  {
    hide Survive, Span;
    SpanIs(whole);
    var tail := Open(whole);
    assert Split(whole) == Complete(whole) + [tail];
    SurviveConcat(Complete(whole), [tail], 0, ends);
    SurviveOne(tail, Span(Complete(whole)), ends);
    assert emitted + [] == emitted;
  }

  // ---------------------------------------------------------------- a whole run

  function Concat(chunks: seq<string>): string {
    if chunks == [] then "" else chunks[0] + Concat(chunks[1..])
  }

  /** Where the calls end in the whole text. */
  function Ends(chunks: seq<string>, at: nat): seq<nat> {
    if chunks == [] then [] else [at + |chunks[0]|] + Ends(chunks[1..], at + |chunks[0]|)
  }

  lemma {:induction false} ConcatSnoc(chunks: seq<string>, c: string)
    ensures Concat(chunks + [c]) == Concat(chunks) + c
  {
    if chunks == [] {
      assert chunks + [c] == [c] && [c][1..] == [];
    } else {
      assert (chunks + [c])[1..] == chunks[1..] + [c];
      ConcatSnoc(chunks[1..], c);
    }
  }

  lemma {:induction false} EndsSnoc(chunks: seq<string>, c: string, at: nat)
    ensures Ends(chunks + [c], at) == Ends(chunks, at) + [at + |Concat(chunks + [c])|]
  {
    ConcatSnoc(chunks, c);
    if chunks == [] {
      assert chunks + [c] == [c] && [c][1..] == [];
    } else {
      assert (chunks + [c])[1..] == chunks[1..] + [c];
      EndsSnoc(chunks[1..], c, at + |chunks[0]|);
      ConcatSnoc(chunks[1..], c);
    }
  }

  /** A run's chunks and its final flush: the lines that come out are the whole text's lines that no
      chunk boundary cut. */
  method RunStream(chunks: seq<string>, last: string) returns (emitted: seq<string>)
    ensures emitted == Survive(Flushed(Concat(chunks + [last])), 0, Ends(chunks + [last], 0))
  {
    hide *;
    var stream := new NativeStream();
    NoChunks();
    for i := 0 to |chunks|
      invariant stream.Valid() && fresh(stream)
      invariant stream.whole == Concat(chunks[..i]) && stream.ends == Ends(chunks[..i], 0)
    {
      assert chunks[..i + 1] == chunks[..i] + [chunks[i]];
      ConcatSnoc(chunks[..i], chunks[i]);
      EndsSnoc(chunks[..i], chunks[i], 0);
      stream.FeedCanonical(chunks[i], false);
    }
    assert chunks[..|chunks|] == chunks;
    ConcatSnoc(chunks, last);
    EndsSnoc(chunks, last, 0);
    stream.FeedCanonical(last, true);
    return stream.emitted;
  }

  lemma NoChunks()
    ensures Concat([]) == "" && Ends([], 0) == []
  {
  }

  /** `out` is `lines`, in order, without some lines longer than the cap. */
  ghost predicate OmitsOnlyLong(out: seq<string>, lines: seq<string>)
    decreases |lines|
  {
    if lines == [] then out == []
    else
      || (out != [] && out[0] == lines[0] && OmitsOnlyLong(out[1..], lines[1..]))
      || (|lines[0]| > MAX_NATIVE_LINE_CHARS && OmitsOnlyLong(out, lines[1..]))
  }

  /** Whatever the chunking, the lines come out in order, whole, and only lines over the cap are left out. */
  lemma {:induction false} SurvivorsInOrder(lines: seq<string>, at: nat, ends: seq<nat>)
    ensures OmitsOnlyLong(Survive(lines, at, ends), lines)
  {
    hide Cut;
    if lines != [] {
      var rest := Survive(lines[1..], at + |lines[0]| + 1, ends);
      SurvivorsInOrder(lines[1..], at + |lines[0]| + 1, ends);
      if Cut(at, at + |lines[0]|, ends) {
        CutIsLong(at, at + |lines[0]|, ends);
        assert [] + rest == rest;
      } else {
        assert ([lines[0]] + rest)[1..] == rest;
      }
    }
  }

  lemma CutIsLong(start: nat, stop: nat, ends: seq<nat>)
    requires Cut(start, stop, ends)
    ensures stop - start > MAX_NATIVE_LINE_CHARS
  {
  }

  /** With no line over the cap the chunking does not matter: two runs over one text emit the same lines. */
  lemma {:induction false} ChunkingIrrelevant(chunks: seq<string>, other: seq<string>)
    requires Concat(chunks) == Concat(other)
    requires forall l | l in Flushed(Concat(chunks)) :: |l| <= MAX_NATIVE_LINE_CHARS
    ensures Survive(Flushed(Concat(chunks)), 0, Ends(chunks, 0)) == Survive(Flushed(Concat(other)), 0, Ends(other, 0)) == Flushed(Concat(chunks))
  {
    hide *;
    ShortSurvive(Flushed(Concat(chunks)), 0, Ends(chunks, 0));
    ShortSurvive(Flushed(Concat(chunks)), 0, Ends(other, 0));
  }

  lemma {:induction false} ShortSurvive(lines: seq<string>, at: nat, ends: seq<nat>)
    requires forall l | l in lines :: |l| <= MAX_NATIVE_LINE_CHARS
    ensures Survive(lines, at, ends) == lines
  {
    hide *;
    SurviveCons(lines, at, ends);
    if lines != [] {
      assert lines[0] in lines && forall l | l in lines[1..] :: l in lines;
      ShortSurvive(lines[1..], at + |lines[0]| + 1, ends);
      if Cut(at, at + |lines[0]|, ends) {
        CutIsLong(at, at + |lines[0]|, ends);
      }
    }
  }

  lemma SurviveCons(lines: seq<string>, at: nat, ends: seq<nat>)
    ensures lines == [] ==> Survive(lines, at, ends) == []
    ensures lines != [] && !Cut(at, at + |lines[0]|, ends) ==> Survive(lines, at, ends) == [lines[0]] + Survive(lines[1..], at + |lines[0]| + 1, ends)
    ensures lines != [] ==> lines == [lines[0]] + lines[1..]
  {
    hide Cut;
  }

  /** A line comes out exactly when no chunk ended more than the cap into it before its newline. */
  lemma {:induction false} LineEmittedIff(lines: seq<string>, i: nat, at: nat, ends: seq<nat>)
    requires i < |lines|
    ensures Survive(lines, at, ends) == Survive(lines[..i], at, ends)
              + (if Cut(at + Span(lines[..i]), at + Span(lines[..i]) + |lines[i]|, ends) then [] else [lines[i]])
              + Survive(lines[i + 1..], at + Span(lines[..i]) + |lines[i]| + 1, ends)
  {
    hide Cut;
    assert lines == lines[..i] + ([lines[i]] + lines[i + 1..]);
    SurviveConcat(lines[..i], [lines[i]] + lines[i + 1..], at, ends);
    assert ([lines[i]] + lines[i + 1..])[1..] == lines[i + 1..];
  }
}
