/** Exact source excerpts (evaluator/source_payload.py). */
module SourcePayload {

  type Byte = x: int | 0 <= x < 256

  const LF: Byte := 10

  // ---- UTF-8, by the grammar of section 4 of RFC 3629 ----------------------------------

  predicate Tail(b: seq<Byte>, k: nat) { k < |b| && 0x80 <= b[k] <= 0xBF }

  /** Length of the UTF8-char at the front of `b`; 0 when there is none. */
  function CharLength(b: seq<Byte>): (n: nat)
    ensures n <= |b| && n <= 4
  {
    if b == [] then 0
    else if b[0] <= 0x7F then 1
    else if 0xC2 <= b[0] <= 0xDF && Tail(b, 1) then 2
    else if (|| (b[0] == 0xE0 && Tail(b, 1) && 0xA0 <= b[1])
             || (0xE1 <= b[0] <= 0xEC && Tail(b, 1))
             || (b[0] == 0xED && Tail(b, 1) && b[1] <= 0x9F)
             || (0xEE <= b[0] <= 0xEF && Tail(b, 1))) && Tail(b, 2) then 3
    else if (|| (b[0] == 0xF0 && Tail(b, 1) && 0x90 <= b[1])
             || (0xF1 <= b[0] <= 0xF3 && Tail(b, 1))
             || (b[0] == 0xF4 && Tail(b, 1) && b[1] <= 0x8F)) && Tail(b, 2) && Tail(b, 3) then 4
    else 0
  }

  predicate ValidUtf8(b: seq<Byte>) {
    b == [] || (CharLength(b) > 0 && ValidUtf8(b[CharLength(b)..]))
  }

  /** A cut after an LF never splits a character: only single-byte characters are below 0x80. */
  lemma {:induction false} CutAfterLf(a: seq<Byte>, b: seq<Byte>)
    requires ValidUtf8(a + b) && (a == [] || a[|a| - 1] == LF)
    ensures ValidUtf8(a) && ValidUtf8(b)
    decreases |a|
  {
    if a == [] {
      assert a + b == b;
    } else {
      var n := CharLength(a + b);
      assert (a + b)[|a| - 1] == LF;
      assert n <= |a| && CharLength(a) == n;
      assert (a + b)[n..] == a[n..] + b;
      CutAfterLf(a[n..], b);
    }
  }

  // ---- Plain LF lines: the reference the fast form is measured against -----------------

  /** Index just past the first LF at or after `from`, or the end of the file. */
  function LineEnd(f: seq<Byte>, from: nat): (e: nat)
    requires from <= |f|
    ensures from <= e <= |f| && (from < |f| ==> from < e)
    ensures e < |f| ==> f[e - 1] == LF
    ensures forall k :: from <= k < e - 1 ==> f[k] != LF
    decreases |f| - from
  {
    if from == |f| then from
    else if f[from] == LF then from + 1
    else LineEnd(f, from + 1)
  }

  /** The file cut after every LF. */
  function Lines(f: seq<Byte>): seq<seq<Byte>>
    decreases |f|
  {
    if f == [] then [] else [f[..LineEnd(f, 0)]] + Lines(f[LineEnd(f, 0)..])
  }

  function Flatten(lines: seq<seq<Byte>>): seq<Byte> {
    if lines == [] then [] else lines[0] + Flatten(lines[1..])
  }

  lemma FlattenAppend(a: seq<seq<Byte>>, b: seq<seq<Byte>>)
    ensures Flatten(a + b) == Flatten(a) + Flatten(b)
  {
    FlattenParts(a + b, a, b);
  }

  lemma {:induction false} FlattenParts(all: seq<seq<Byte>>, a: seq<seq<Byte>>, b: seq<seq<Byte>>)
    requires all == a + b
    ensures Flatten(all) == Flatten(a) + Flatten(b)
    decreases |a|
  {
    if a == [] {
      assert all == b;
    } else {
      FlattenParts(all[1..], a[1..], b);
      assert all[0] == a[0];
    }
  }

  lemma {:induction false} LinesAreTheFile(f: seq<Byte>)
    ensures Flatten(Lines(f)) == f
    decreases |f|
  {
    if f != [] {
      LinesAreTheFile(f[LineEnd(f, 0)..]);
    }
  }

  /** Byte offset at which line number k + 1 begins. */
  function Offset(f: seq<Byte>, k: nat): nat
    requires k <= |Lines(f)|
  {
    |Flatten(Lines(f)[..k])|
  }

  lemma OffsetCuts(f: seq<Byte>, k: nat)
    requires k <= |Lines(f)|
    ensures Offset(f, k) <= |f|
    ensures f[..Offset(f, k)] == Flatten(Lines(f)[..k])
    ensures f[Offset(f, k)..] == Flatten(Lines(f)[k..])
  {
    LinesAreTheFile(f);
    FlattenAppend(Lines(f)[..k], Lines(f)[k..]);
    assert Lines(f) == Lines(f)[..k] + Lines(f)[k..];
  }

  lemma DropTwice(f: seq<Byte>, n: nat, e: nat)
    requires n <= e <= |f|
    ensures f[n..][e - n..] == f[e..]
  {
  }

  lemma {:induction false} LineShift(f: seq<Byte>, d: nat, from: nat)
    requires d <= |f| && from <= |f| - d
    ensures LineEnd(f, d + from) == d + LineEnd(f[d..], from)
    decreases |f| - d - from
  {
    if d + from < |f| && f[d + from] != LF {
      LineShift(f, d, from + 1);
    }
  }

  /** Each line runs from its offset to just past the next LF. */
  lemma {:induction false} OffsetStep(f: seq<Byte>, k: nat)
    requires k < |Lines(f)|
    ensures Offset(f, k) < Offset(f, k + 1) <= |f|
    ensures LineEnd(f, Offset(f, k)) == Offset(f, k + 1)
    decreases |f|
  {
    var e := LineEnd(f, 0);
    var rest := f[e..];
    OffsetCuts(f, k + 1);
    if k == 0 {
      assert Lines(f)[..1] == [f[..e]];
    } else {
      OffsetStep(rest, k - 1);
      assert Lines(f)[..k] == [f[..e]] + Lines(rest)[..k - 1];
      assert Lines(f)[..k + 1] == [f[..e]] + Lines(rest)[..k];
      OffsetCuts(rest, k - 1);
      LineShift(f, e, Offset(rest, k - 1));
    }
  }

  // ---- EXTRACT --------------------------------------------------------------------------

  datatype Obstruction = SpanInvalid | NonUtf8Source | SpanOutOfBounds

  datatype Extracted = Payload(bytes: seq<Byte>) | Obstructed(kind: Obstruction)

  function Excerpt(f: seq<Byte>, startLine: int, endLine: int): Extracted {
    if startLine < 1 || endLine < startLine then Obstructed(SpanInvalid)
    else if !ValidUtf8(f) then Obstructed(NonUtf8Source)
    else if |Lines(f)| < endLine then Obstructed(SpanOutOfBounds)
    else Payload(Flatten(Lines(f)[startLine - 1..endLine]))
  }

  /** `starts` after the first i bytes have been scanned. */
  function Starts(f: seq<Byte>, i: nat): (s: seq<nat>)
    requires i <= |f|
    ensures |s| > 0
  {
    if i == 0 then [0]
    else Starts(f, i - 1) + (if f[i - 1] == LF && i < |f| then [i] else [])
  }

  /** Byte i lies in line k + 1, or is the end of the last line. */
  predicate InLine(f: seq<Byte>, i: nat, k: nat) {
    && k < |Lines(f)|
    && Offset(f, k) <= i <= |f|
    && (i < Offset(f, k + 1) || (k + 1 == |Lines(f)| && i == |f|))
  }

  predicate StartsUpTo(f: seq<Byte>, starts: seq<nat>, k: nat)
    requires k < |Lines(f)|
  {
    |starts| == k + 1 && forall j :: 0 <= j <= k ==> starts[j] == Offset(f, j)
  }

  lemma PreviousByte(f: seq<Byte>, i: nat, k: nat)
    requires InLine(f, i, k) && i > 0
    ensures if i == Offset(f, k) then k > 0 && InLine(f, i - 1, k - 1) && f[i - 1] == LF && i < |f|
            else InLine(f, i - 1, k) && !(f[i - 1] == LF && i < |f|)
  {
    OffsetStep(f, k);
    LineStartFollowsLf(f, k);
    LineStartFollowsLf(f, k + 1);
    if i == Offset(f, k) {
      OffsetStep(f, k - 1);
    }
  }

  lemma FirstLine(f: seq<Byte>, k: nat)
    requires k < |Lines(f)|
    ensures Offset(f, k) == 0 <==> k == 0
  {
    LineStartFollowsLf(f, 0);
    if k > 0 { OffsetStep(f, k - 1); }
  }

  /** Before the end of line k + 1 exactly k + 1 starts have been found. */
  lemma {:induction false} StartsAreOffsets(f: seq<Byte>, i: nat, k: nat)
    requires InLine(f, i, k)
    ensures StartsUpTo(f, Starts(f, i), k)
    decreases i
  {
    FirstLine(f, k);
    if i > 0 {
      PreviousByte(f, i, k);
      StartsAreOffsets(f, i - 1, if i == Offset(f, k) then k - 1 else k);
    }
  }

  lemma LineCount(f: seq<Byte>)
    requires f != []
    ensures |Lines(f)| > 0 && StartsUpTo(f, Starts(f, |f|), |Lines(f)| - 1)
  {
    var n := |Lines(f)|;
    LineStartFollowsLf(f, n);
    OffsetStep(f, n - 1);
    StartsAreOffsets(f, |f|, n - 1);
  }

  lemma ExcerptIsSlice(f: seq<Byte>, a: nat, b: nat)
    requires a <= b <= |Lines(f)|
    ensures Offset(f, a) <= Offset(f, b) <= |f|
    ensures Flatten(Lines(f)[a..b]) == f[Offset(f, a)..Offset(f, b)]
  {
    OffsetCuts(f, a);
    OffsetCuts(f, b);
    FlattenAppend(Lines(f)[..a], Lines(f)[a..b]);
    assert Lines(f)[..b] == Lines(f)[..a] + Lines(f)[a..b];
    assert f[..Offset(f, b)] == f[..Offset(f, a)] + Flatten(Lines(f)[a..b]);
  }

  /** `starts` and `line_count`: one pass over the bytes. */
  method ScanStarts(f: seq<Byte>) returns (starts: seq<nat>, lineCount: nat)
    ensures lineCount == |Lines(f)|
    ensures f != [] ==> |starts| == lineCount
    ensures forall k :: 0 <= k < lineCount ==> starts[k] == Offset(f, k)
  {
    starts := [0];
    for index := 0 to |f|
      invariant starts == Starts(f, index)
    {
      if f[index] == LF && index + 1 < |f| {
        starts := starts + [index + 1];
      }
    }
    if f != [] { LineCount(f); }
    lineCount := if f == [] then 0 else |starts|;
  }

  /** `find(b"\n", start)`, and just past it. */
  method FindLineEnd(f: seq<Byte>, start: nat) returns (end: nat)
    requires start <= |f|
    ensures end == LineEnd(f, start)
  {
    end := start;
    while end < |f| && f[end] != LF
      invariant start <= end <= |f| && LineEnd(f, end) == LineEnd(f, start)
    {
      end := end + 1;
    }
    end := if end == |f| then |f| else end + 1;
  }

  /** The excerpt cut between two scanned offsets is the plain slice of LF lines. */
  method Extract(f: seq<Byte>, startLine: int, endLine: int) returns (r: Extracted)
    ensures r == Excerpt(f, startLine, endLine)
  {
    if startLine < 1 || endLine < startLine {
      return Obstructed(SpanInvalid);
    }
    if !ValidUtf8(f) {
      return Obstructed(NonUtf8Source);
    }
    var starts, lineCount := ScanStarts(f);
    if startLine > lineCount || endLine > lineCount {
      return Obstructed(SpanOutOfBounds);
    }
    var start := starts[startLine - 1];
    ExcerptIsSlice(f, startLine - 1, endLine);
    OffsetStep(f, endLine - 1);
    var end := FindLineEnd(f, starts[endLine - 1]);
    return Payload(f[start..end]);
  }

  // ---- What the excerpts promise --------------------------------------------------------

  lemma CutDecodes(f: seq<Byte>, i: nat)
    requires ValidUtf8(f) && i <= |f| && (i == 0 || f[i - 1] == LF)
    ensures ValidUtf8(f[..i]) && ValidUtf8(f[i..])
  {
    assert f == f[..i] + f[i..];
    CutAfterLf(f[..i], f[i..]);
  }

  lemma SliceDecodes(f: seq<Byte>, i: nat, j: nat)
    requires ValidUtf8(f) && i < j <= |f|
    requires i == 0 || f[i - 1] == LF
    requires j == |f| || f[j - 1] == LF
    ensures ValidUtf8(f[i..j])
  {
    CutDecodes(f, i);
    assert f[i..j] == f[i..][..j - i];
    if j < |f| {
      assert f[i..][j - i - 1] == LF;
      CutDecodes(f[i..], j - i);
    } else {
      assert f[i..][..j - i] == f[i..];
    }
  }

  /** Decoding the excerpt cannot fail, and it is never empty. */
  lemma ExcerptDecodes(f: seq<Byte>, s: int, e: int)
    ensures Excerpt(f, s, e).Payload? <==> 1 <= s <= e <= |Lines(f)| && ValidUtf8(f)
    ensures Excerpt(f, s, e).Payload? ==> ValidUtf8(Excerpt(f, s, e).bytes) && |Excerpt(f, s, e).bytes| >= 1
  {
    if Excerpt(f, s, e).Payload? {
      SpanIsCut(f, s - 1, e);
      ExcerptIsSlice(f, s - 1, e);
      SliceDecodes(f, Offset(f, s - 1), Offset(f, e));
    }
  }

  lemma LineStartFollowsLf(f: seq<Byte>, k: nat)
    requires k <= |Lines(f)|
    ensures Offset(f, k) <= |f|
    ensures 0 < Offset(f, k) < |f| ==> f[Offset(f, k) - 1] == LF
    ensures k == |Lines(f)| ==> Offset(f, k) == |f|
    ensures Offset(f, 0) == 0
  {
    if k > 0 { OffsetStep(f, k - 1); }
    if k == |Lines(f)| {
      LinesAreTheFile(f);
      assert Lines(f)[..k] == Lines(f);
    }
    if Offset(f, k) < |f| && k > 0 {
      assert f[LineEnd(f, Offset(f, k - 1)) - 1] == LF;
    }
  }

  lemma SpanIsCut(f: seq<Byte>, a: nat, b: nat)
    requires a < b <= |Lines(f)|
    ensures Offset(f, a) < Offset(f, b) <= |f|
    ensures Offset(f, a) == 0 || f[Offset(f, a) - 1] == LF
    ensures Offset(f, b) == |f| || f[Offset(f, b) - 1] == LF
  {
    ExcerptIsSlice(f, a, b - 1);
    OffsetStep(f, b - 1);
    LineStartFollowsLf(f, a);
    LineStartFollowsLf(f, b);
  }

  /** Adjacent excerpts concatenate to the excerpt of their union, so byte lengths add. */
  lemma AdjacentExcerptsConcatenate(f: seq<Byte>, s: int, m: int, e: int)
    requires s <= m < e && Excerpt(f, s, e).Payload?
    ensures Excerpt(f, s, m).Payload? && Excerpt(f, m + 1, e).Payload?
    ensures Excerpt(f, s, e).bytes == Excerpt(f, s, m).bytes + Excerpt(f, m + 1, e).bytes
  {
    assert Lines(f)[s - 1..e] == Lines(f)[s - 1..m] + Lines(f)[m..e];
    FlattenAppend(Lines(f)[s - 1..m], Lines(f)[m..e]);
  }

  /** Lines 1 to n are the whole file. */
  lemma AllLinesAreTheFile(f: seq<Byte>)
    requires f != [] && ValidUtf8(f)
    ensures Excerpt(f, 1, |Lines(f)|) == Payload(f)
  {
    LinesAreTheFile(f);
    assert Lines(f)[0..|Lines(f)|] == Lines(f);
  }

  /** A wider span of the same file never has fewer bytes, and is harder to extract. */
  lemma WiderExcerptIsLonger(f: seq<Byte>, s: int, e: int, s': int, e': int)
    requires s' <= s <= e <= e' && Excerpt(f, s', e').Payload?
    ensures Excerpt(f, s, e).Payload?
    ensures |Excerpt(f, s, e).bytes| <= |Excerpt(f, s', e').bytes|
  {
    if s' < s { AdjacentExcerptsConcatenate(f, s', s - 1, e'); }
    if e < e' { AdjacentExcerptsConcatenate(f, s, e, e'); }
  }
}
