/** Two ways of counting lines.  Baseline windows are cut from `splitlines(True)` (evaluator/repository.py),
    which breaks text at many characters; excerpts count LF lines only (evaluator/source_payload.py).
    Both are stated here over the UTF-8 bytes of the text, in which no break character can be
    mistaken for part of another character. */
module LineBreaks {
  import opened SourcePayload

  const CR: Byte := 13

  /** Length of the line break at the front of `f`, 0 when there is none: CR LF, one of the control
      characters that break lines, or the UTF-8 of U+0085, U+2028 or U+2029. */
  function BreakLength(f: seq<Byte>): (n: nat)
    ensures n <= |f|
  {
    if f == [] then 0
    else if f[0] == CR && |f| > 1 && f[1] == LF then 2
    else if 10 <= f[0] <= 13 || 28 <= f[0] <= 30 then 1
    else if |f| > 1 && f[0] == 0xC2 && f[1] == 0x85 then 2
    else if |f| > 2 && f[0] == 0xE2 && f[1] == 0x80 && (f[2] == 0xA8 || f[2] == 0xA9) then 3
    else 0
  }

  /** Index just past the first line break, or the end of the text. */
  function BreakEnd(f: seq<Byte>): (n: nat)
    requires f != []
    ensures 0 < n <= |f|
  {
    if BreakLength(f) > 0 then BreakLength(f)
    else if |f| == 1 then 1
    else 1 + BreakEnd(f[1..])
  }

  /** `splitlines(True)`. */
  function SplitLines(f: seq<Byte>): seq<seq<Byte>>
    decreases |f|
  {
    if f == [] then [] else [f[..BreakEnd(f)]] + SplitLines(f[BreakEnd(f)..])
  }

  /** A line break other than LF or CR LF, with more text after it. */
  predicate StrayBreak(f: seq<Byte>, i: nat) {
    i < |f| && BreakLength(f[i..]) > 0 && f[i + BreakLength(f[i..]) - 1] != LF && i + BreakLength(f[i..]) < |f|
  }

  /** LF and CR LF are the only breaks, but for one at the very end. */
  predicate PlainBreaks(f: seq<Byte>) { forall i :: 0 <= i < |f| ==> !StrayBreak(f, i) }

  /** The first line is an LF line unless a stray break ends it. */
  lemma {:induction false} FirstBreak(f: seq<Byte>)
    requires f != []
    ensures BreakEnd(f) <= LineEnd(f, 0)
    ensures BreakEnd(f) == LineEnd(f, 0) <==> BreakEnd(f) == |f| || f[BreakEnd(f) - 1] == LF
  {
    if BreakLength(f) == 0 && |f| > 1 {
      FirstBreak(f[1..]);
      LineShift(f, 1, 0);
    } else if BreakLength(f) == 2 {
      LineShift(f, 1, 0);
    } else if BreakLength(f) == 3 {
      LineShift(f, 2, 0);
    }
  }

  /** The breaks of a text are the one that ends its first line, and those after it. */
  lemma {:induction false} BreaksByLine(f: seq<Byte>)
    requires f != []
    ensures PlainBreaks(f) <==> (BreakEnd(f) == |f| || f[BreakEnd(f) - 1] == LF) && PlainBreaks(f[BreakEnd(f)..])
  {
    var n := BreakEnd(f);
    forall i | n <= i < |f| ensures StrayBreak(f, i) <==> StrayBreak(f[n..], i - n) {
      assert f[i..] == f[n..][i - n..];
    }
    forall i | 0 <= i < n && StrayBreak(f, i) ensures n < |f| && f[n - 1] != LF { BreakInFirstLine(f, i); }
    if n < |f| && f[n - 1] != LF { FirstLineBreaks(f); }
    if PlainBreaks(f) {
      forall i | 0 <= i < |f[n..]| ensures !StrayBreak(f[n..], i) { assert !StrayBreak(f, n + i); }
    }
  }

  lemma {:induction false} BreakInFirstLine(f: seq<Byte>, i: nat)
    requires f != [] && i < BreakEnd(f) && StrayBreak(f, i)
    ensures i + BreakLength(f[i..]) == BreakEnd(f)
  {
    if i == 0 {
      assert f[0..] == f;
    } else if BreakLength(f) == 0 {
      assert f[i..] == f[1..][i - 1..];
      BreakInFirstLine(f[1..], i - 1);
    }
  }

  lemma {:induction false} FirstLineBreaks(f: seq<Byte>)
    requires f != [] && BreakEnd(f) < |f| && f[BreakEnd(f) - 1] != LF
    ensures exists i :: 0 <= i < BreakEnd(f) && StrayBreak(f, i)
  {
    if BreakLength(f) > 0 {
      assert f[0..] == f;
      assert StrayBreak(f, 0);
    } else {
      FirstLineBreaks(f[1..]);
      var i :| 0 <= i < BreakEnd(f[1..]) && StrayBreak(f[1..], i);
      assert f[1..][i..] == f[i + 1..];
      assert StrayBreak(f, i + 1);
    }
  }

  lemma {:induction false} SplitLinesAreTheText(f: seq<Byte>)
    ensures Flatten(SplitLines(f)) == f
    decreases |f|
  {
    if f != [] { SplitLinesAreTheText(f[BreakEnd(f)..]); }
  }

  /** The first line of both kinds is the same, and so are the rest. */
  lemma SameFirstLine(f: seq<Byte>, rest: seq<Byte>)
    requires f != [] && BreakEnd(f) == LineEnd(f, 0) && rest == f[BreakEnd(f)..]
    ensures |SplitLines(f)| == 1 + |SplitLines(rest)| && |Lines(f)| == 1 + |Lines(rest)|
    ensures SplitLines(f) == Lines(f) <==> SplitLines(rest) == Lines(rest)
  {
    var first := f[..BreakEnd(f)];
    assert SplitLines(f) == [first] + SplitLines(rest) && Lines(f) == [first] + Lines(rest);
    assert ([first] + SplitLines(rest))[1..] == SplitLines(rest) && ([first] + Lines(rest))[1..] == Lines(rest);
  }

  lemma {:induction false} LineEndFrom(f: seq<Byte>, n: nat)
    requires n < LineEnd(f, 0)
    ensures LineEnd(f, n) == LineEnd(f, 0)
  {
    if n > 0 { LineEndFrom(f, n - 1); }
  }

  /** A stray break cuts the first LF line in two. */
  lemma ShorterFirstLine(f: seq<Byte>, n: nat, e: nat, rest: seq<Byte>)
    requires f != [] && n == BreakEnd(f) < e == LineEnd(f, 0) && rest == f[n..]
    ensures |SplitLines(f)| == 1 + |SplitLines(rest)| && |Lines(f)| == |Lines(rest)|
  {
    LineEndFrom(f, n);
    LineShift(f, n, 0);
    DropTwice(f, n, e);
    assert LineEnd(rest, 0) == e - n;
  }

  /** Splitting never finds fewer lines than there are LF lines.  The two counts agree exactly when every
      break but LF and CR LF stands at the very end, and then the lines themselves are the same. */
  lemma {:induction false} CountsAgree(f: seq<Byte>)
    ensures |SplitLines(f)| >= |Lines(f)|
    ensures |SplitLines(f)| == |Lines(f)| <==> PlainBreaks(f)
    ensures SplitLines(f) == Lines(f) <==> PlainBreaks(f)
    decreases |f|
  {
    if f != [] {
      var rest := f[BreakEnd(f)..];
      FirstBreak(f);
      BreaksByLine(f);
      CountsAgree(rest);
      if BreakEnd(f) < LineEnd(f, 0) {
        ShorterFirstLine(f, BreakEnd(f), LineEnd(f, 0), rest);
      } else {
        SameFirstLine(f, rest);
      }
    }
  }

  /** A carriage return between two letters: two lines to the one count, one to the other. */
  lemma BareReturnIsCountedTwice()
    ensures ValidUtf8([97, 13, 98]) && |SplitLines([97, 13, 98])| == 2 && |Lines([97, 13, 98])| == 1
    ensures Excerpt([97, 13, 98], 1, 2) == Obstructed(SpanOutOfBounds)
  {
    var f: seq<Byte> := [97, 13, 98];
    assert f[1..] == [13, 98] && f[2..] == [98];
    assert BreakEnd([13, 98]) == 1 && BreakEnd(f) == 2;
    assert LineEnd(f, 3) == 3 && LineEnd(f, 2) == 3 && LineEnd(f, 1) == 3 && LineEnd(f, 0) == 3;
    assert f[..3] == f && f[3..] == [] && [98][..1] == [98] && [98][1..] == [];
    assert Lines(f) == [f] + Lines(f[3..]);
    assert SplitLines(f) == [f[..2]] + SplitLines(f[2..]);
    assert SplitLines([98]) == [[98]] + SplitLines([98][1..]);
    assert CharLength(f) == 1 && CharLength(f[1..]) == 1 && CharLength([98]) == 1;
    assert ValidUtf8([98]) && ValidUtf8([13, 98]);
  }
}
