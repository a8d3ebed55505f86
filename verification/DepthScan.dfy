/** The nesting scan in front of the JSON parser (evaluator/model_boundary.py `_depth`),
    measured against the JSON grammar of RFC 8259. */
module DepthScan {
  import opened Wrappers
  import opened Ordering
  import opened SourcePayload

  const MAX_MODEL_DEPTH := 32

  const QUOTE: Byte := 0x22
  const BACKSLASH: Byte := 0x5C
  const LBRACKET: Byte := 0x5B
  const RBRACKET: Byte := 0x5D
  const LBRACE: Byte := 0x7B
  const RBRACE: Byte := 0x7D

  datatype Rejection = DepthExceeded | Framing

  /** `depth`, `in_string`, `escaped`; or the rejection that ended the scan. */
  datatype State = Scanning(depth: nat, inString: bool, escaped: bool) | Rejected(code: Rejection)

  function Step(s: State, b: Byte): State {
    match s
    case Rejected(_) => s
    case Scanning(depth, inString, escaped) =>
      if inString then
        if escaped then s.(escaped := false)
        else if b == BACKSLASH then s.(escaped := true)
        else if b == QUOTE then s.(inString := false)
        else s
      else if b == QUOTE then s.(inString := true)
      else if b == LBRACE || b == LBRACKET then
        if depth + 1 > MAX_MODEL_DEPTH then Rejected(DepthExceeded) else s.(depth := depth + 1)
      else if b == RBRACE || b == RBRACKET then
        if depth == 0 then Rejected(Framing) else s.(depth := depth - 1)
      else s
  }

  function Run(s: State, bytes: seq<Byte>): State
    decreases |bytes|
  {
    if bytes == [] then s else Run(Step(s, bytes[0]), bytes[1..])
  }

  const Start := Scanning(0, false, false)

  /** `_depth`: one pass over the bytes, returning at the first rejection. */
  method Depth(raw: seq<Byte>) returns (rejection: Option<Rejection>)
    ensures rejection == match Run(Start, raw) case Rejected(code) => Some(code) case Scanning(_, _, _) => None
  {
    var depth, inString, escaped := 0, false, false;
    assert raw[0..] == raw;
    for i := 0 to |raw|
      invariant depth >= 0
      invariant Run(Scanning(depth, inString, escaped), raw[i..]) == Run(Start, raw)
    {
      var b := raw[i];
      assert raw[i..][1..] == raw[i + 1..];
      if inString {
        if escaped {
          escaped := false;
        } else if b == BACKSLASH {
          escaped := true;
        } else if b == QUOTE {
          inString := false;
        }
      } else if b == QUOTE {
        inString := true;
      } else if b == LBRACE || b == LBRACKET {
        depth := depth + 1;
        if depth > MAX_MODEL_DEPTH {
          RejectedForever(DepthExceeded, raw[i + 1..]);
          return Some(DepthExceeded);
        }
      } else if b == RBRACE || b == RBRACKET {
        depth := depth - 1;
        if depth < 0 {
          RejectedForever(Framing, raw[i + 1..]);
          return Some(Framing);
        }
      }
    }
    return None;
  }

  lemma {:induction false} RejectedForever(code: Rejection, bytes: seq<Byte>)
    ensures Run(Rejected(code), bytes) == Rejected(code)
    decreases |bytes|
  {
    if bytes != [] { RejectedForever(code, bytes[1..]); }
  }

  lemma {:induction false} RunAppend(s: State, a: seq<Byte>, b: seq<Byte>)
    ensures Run(s, a + b) == Run(Run(s, a), b)
    decreases |a|
  {
    if a == [] {
      assert a + b == b;
    } else {
      assert (a + b)[1..] == a[1..] + b;
      RunAppend(Step(s, a[0]), a[1..], b);
    }
  }

  // ---- JSON text, by the grammar of RFC 8259 -------------------------------------------------

  /** Insignificant whitespace (section 2). */
  predicate IsWs(ws: seq<Byte>) { forall b :: b in ws ==> b == 0x20 || b == 0x09 || b == 0x0A || b == 0x0D }

  predicate IsDigits(ds: seq<Byte>) { ds != [] && forall d :: d in ds ==> 0x30 <= d <= 0x39 }

  predicate IsHex(b: Byte) { 0x30 <= b <= 0x39 || 0x41 <= b <= 0x46 || 0x61 <= b <= 0x66 }

  /** Numbers (section 6): sign, int, frac, exp. */
  datatype Exponent = Exponent(letter: Byte, sign: Option<Byte>, digits: seq<Byte>)

  /** Characters of a string (section 7). */
  datatype Unit = Unescaped(utf8: seq<Byte>) | Escaped(short: Byte) | Hex(digits: seq<Byte>)

  datatype Value =
    | True | False | Null
    | Number(negative: bool, whole: seq<Byte>, fraction: Option<seq<Byte>>, exponent: Option<Exponent>)
    | Text(units: seq<Unit>)
    | EmptyArray(gap: seq<Byte>)
    | Array(items: seq<Item>)
    | EmptyObject(gap: seq<Byte>)
    | Object(members: seq<Member>)

  datatype Item = Item(before: seq<Byte>, value: Value, after: seq<Byte>)

  datatype Member = Member(before: seq<Byte>, name: seq<Unit>, beforeColon: seq<Byte>, value: Item)

  predicate ValidUnit(u: Unit) {
    match u
    case Unescaped(utf8) => utf8 != [] && CharLength(utf8) == |utf8| && utf8[0] >= 0x20 && utf8[0] != QUOTE && utf8[0] != BACKSLASH
    case Escaped(c) => c in [QUOTE, BACKSLASH, 0x2F, 0x62, 0x66, 0x6E, 0x72, 0x74]
    case Hex(digits) => |digits| == 4 && forall d :: d in digits ==> IsHex(d)
  }

  predicate ValidText(units: seq<Unit>) { forall u :: u in units ==> ValidUnit(u) }

  predicate ValidNumber(whole: seq<Byte>, fraction: Option<seq<Byte>>, exponent: Option<Exponent>) {
    && IsDigits(whole) && (|whole| > 1 ==> whole[0] != 0x30)
    && (fraction.Some? ==> IsDigits(fraction.value))
    && (exponent.Some? ==>
          && (exponent.value.letter == 0x45 || exponent.value.letter == 0x65)
          && (exponent.value.sign.Some? ==> exponent.value.sign.value == 0x2B || exponent.value.sign.value == 0x2D)
          && IsDigits(exponent.value.digits))
  }

  predicate Valid(v: Value)
    decreases v
  {
    match v
    case Number(_, whole, fraction, exponent) => ValidNumber(whole, fraction, exponent)
    case Text(units) => ValidText(units)
    case EmptyArray(gap) => IsWs(gap)
    case Array(items) => items != [] && forall i :: i in items ==> ValidItem(i)
    case EmptyObject(gap) => IsWs(gap)
    case Object(members) => members != [] && forall m :: m in members ==> IsWs(m.before) && ValidText(m.name) && IsWs(m.beforeColon) && ValidItem(m.value)
    case _ => true
  }

  predicate ValidItem(i: Item)
    decreases i
  {
    IsWs(i.before) && Valid(i.value) && IsWs(i.after)
  }

  function RenderUnit(u: Unit): seq<Byte> {
    match u
    case Unescaped(utf8) => utf8
    case Escaped(c) => [BACKSLASH, c]
    case Hex(digits) => [BACKSLASH, 0x75] + digits
  }

  function RenderUnits(units: seq<Unit>): seq<Byte> {
    if units == [] then [] else RenderUnit(units[0]) + RenderUnits(units[1..])
  }

  function RenderText(units: seq<Unit>): seq<Byte> { [QUOTE] + RenderUnits(units) + [QUOTE] }

  function RenderNumber(negative: bool, whole: seq<Byte>, fraction: Option<seq<Byte>>, exponent: Option<Exponent>): seq<Byte> {
    (if negative then [0x2D] else []) + whole
    + (if fraction.Some? then [0x2E] + fraction.value else [])
    + (if exponent.Some? then [exponent.value.letter] + (if exponent.value.sign.Some? then [exponent.value.sign.value] else []) + exponent.value.digits else [])
  }

  function Render(v: Value): seq<Byte>
    decreases v, 0
  {
    match v
    case True => [0x74, 0x72, 0x75, 0x65]
    case False => [0x66, 0x61, 0x6C, 0x73, 0x65]
    case Null => [0x6E, 0x75, 0x6C, 0x6C]
    case Number(negative, whole, fraction, exponent) => RenderNumber(negative, whole, fraction, exponent)
    case Text(units) => RenderText(units)
    case EmptyArray(gap) => [LBRACKET] + gap + [RBRACKET]
    case Array(items) => [LBRACKET] + RenderItems(items) + [RBRACKET]
    case EmptyObject(gap) => [LBRACE] + gap + [RBRACE]
    case Object(members) => [LBRACE] + RenderMembers(members) + [RBRACE]
  }

  function RenderItem(i: Item): seq<Byte>
    decreases i, 0
  {
    i.before + Render(i.value) + i.after
  }

  /** Values with a comma between neighbours. */
  function RenderItems(items: seq<Item>): seq<Byte>
    decreases items, 0
  {
    if items == [] then []
    else RenderItem(items[0]) + (if |items| > 1 then [0x2C] else []) + RenderItems(items[1..])
  }

  function RenderMember(m: Member): seq<Byte>
    decreases m, 0
  {
    m.before + RenderText(m.name) + m.beforeColon + [0x3A] + RenderItem(m.value)
  }

  function RenderMembers(members: seq<Member>): seq<Byte>
    decreases members, 0
  {
    if members == [] then []
    else RenderMember(members[0]) + (if |members| > 1 then [0x2C] else []) + RenderMembers(members[1..])
  }

  /** How deep arrays and objects nest. */
  function Nesting(v: Value): nat
    decreases v, 0
  {
    match v
    case EmptyArray(_) => 1
    case Array(items) => 1 + NestingItems(items)
    case EmptyObject(_) => 1
    case Object(members) => 1 + NestingMembers(members)
    case _ => 0
  }

  function NestingItems(items: seq<Item>): nat
    decreases items, 0
  {
    if items == [] then 0 else Max(Nesting(items[0].value), NestingItems(items[1..]))
  }

  function NestingMembers(members: seq<Member>): nat
    decreases members, 0
  {
    if members == [] then 0 else Max(Nesting(members[0].value.value), NestingMembers(members[1..]))
  }

  // ---- The scan over JSON text -----------------------------------------------------------------

  /** Bytes the scan passes over outside strings. */
  predicate Plain(bytes: seq<Byte>) {
    forall b :: b in bytes ==> b != QUOTE && b != LBRACE && b != RBRACE && b != LBRACKET && b != RBRACKET
  }

  function Out(depth: nat): State { Scanning(depth, false, false) }

  lemma {:induction false} PlainIsSkipped(d: nat, bytes: seq<Byte>)
    requires Plain(bytes)
    ensures Run(Out(d), bytes) == Out(d)
    decreases |bytes|
  {
    if bytes != [] {
      assert bytes[0] in bytes;
      forall b | b in bytes[1..] ensures b in bytes {}
      PlainIsSkipped(d, bytes[1..]);
    }
  }

  lemma NumberIsPlain(negative: bool, whole: seq<Byte>, fraction: Option<seq<Byte>>, exponent: Option<Exponent>)
    requires ValidNumber(whole, fraction, exponent)
    ensures Plain(RenderNumber(negative, whole, fraction, exponent))
  {}

  /** Every byte after the first of a multi-byte character is at least 0x80. */
  lemma TailBytesAreHigh(utf8: seq<Byte>)
    requires utf8 != [] && CharLength(utf8) == |utf8|
    ensures forall k :: 0 < k < |utf8| ==> utf8[k] >= 0x80
  {}

  lemma {:induction false} InStringSkips(d: nat, bytes: seq<Byte>)
    requires QUOTE !in bytes && BACKSLASH !in bytes
    ensures Run(Scanning(d, true, false), bytes) == Scanning(d, true, false)
    decreases |bytes|
  {
    if bytes != [] {
      assert bytes[0] in bytes;
      InStringSkips(d, bytes[1..]);
    }
  }

  lemma UnitStaysInString(d: nat, u: Unit)
    requires ValidUnit(u)
    ensures Run(Scanning(d, true, false), RenderUnit(u)) == Scanning(d, true, false)
  {
    var inside := Scanning(d, true, false);
    match u {
      case Unescaped(utf8) =>
        TailBytesAreHigh(utf8);
        InStringSkips(d, utf8);
      case Escaped(c) =>
        assert [BACKSLASH, c][1..] == [c] && [c][1..] == [];
        assert Run(inside, [BACKSLASH, c]) == Run(Step(inside, BACKSLASH), [c]);
      case Hex(digits) =>
        assert ([BACKSLASH, 0x75] + digits)[1..] == [0x75] + digits && ([0x75] + digits)[1..] == digits;
        assert Run(inside, [BACKSLASH, 0x75] + digits) == Run(Step(inside, BACKSLASH), [0x75] + digits);
        InStringSkips(d, digits);
    }
  }

  lemma {:induction false} UnitsStayInString(d: nat, units: seq<Unit>)
    requires ValidText(units)
    ensures Run(Scanning(d, true, false), RenderUnits(units)) == Scanning(d, true, false)
  {
    if units != [] {
      assert units[0] in units;
      RunAppend(Scanning(d, true, false), RenderUnit(units[0]), RenderUnits(units[1..]));
      UnitStaysInString(d, units[0]);
      UnitsStayInString(d, units[1..]);
    }
  }

  lemma RunOne(s: State, b: Byte)
    ensures Run(s, [b]) == Step(s, b)
  {
    assert [b][1..] == [];
  }

  /** A string leaves the depth alone, whatever quotes, escapes and brackets it holds. */
  lemma StringIsSkipped(d: nat, units: seq<Unit>)
    requires ValidText(units)
    ensures Run(Out(d), RenderText(units)) == Out(d)
  {
    RunAppend(Out(d), [QUOTE] + RenderUnits(units), [QUOTE]);
    RunAppend(Out(d), [QUOTE], RenderUnits(units));
    RunOne(Out(d), QUOTE);
    UnitsStayInString(d, units);
    RunOne(Scanning(d, true, false), QUOTE);
  }

  /** What scanning a piece of text nested `n` deep does at depth `d`. */
  function After(d: nat, n: nat): State {
    if d + n <= MAX_MODEL_DEPTH then Out(d) else Rejected(DepthExceeded)
  }

  lemma AfterThen(d: nat, n: nat, a: seq<Byte>, m: nat, b: seq<Byte>)
    requires d <= MAX_MODEL_DEPTH
    requires Run(Out(d), a) == After(d, n) && Run(Out(d), b) == After(d, m)
    ensures Run(Out(d), a + b) == After(d, Max(n, m))
  {
    RunAppend(Out(d), a, b);
    if d + n > MAX_MODEL_DEPTH { RejectedForever(DepthExceeded, b); }
  }

  lemma Bracketed(d: nat, open: Byte, inner: seq<Byte>, n: nat, close: Byte)
    requires d <= MAX_MODEL_DEPTH && (open == LBRACE || open == LBRACKET) && (close == RBRACE || close == RBRACKET)
    requires d < MAX_MODEL_DEPTH ==> Run(Out(d + 1), inner) == After(d + 1, n)
    ensures Run(Out(d), [open] + inner + [close]) == After(d, 1 + n)
  {
    RunAppend(Out(d), [open] + inner, [close]);
    RunAppend(Out(d), [open], inner);
    RunOne(Out(d), open);
    if d == MAX_MODEL_DEPTH {
      RejectedForever(DepthExceeded, inner);
    } else {
      RunOne(Out(d + 1), close);
    }
    RejectedForever(DepthExceeded, [close]);
  }

  lemma {:induction false} ScanValue(d: nat, v: Value)
    requires Valid(v) && d <= MAX_MODEL_DEPTH
    ensures Run(Out(d), Render(v)) == After(d, Nesting(v))
    decreases v, 0
  {
    match v {
      case True => PlainIsSkipped(d, Render(v));
      case False => PlainIsSkipped(d, Render(v));
      case Null => PlainIsSkipped(d, Render(v));
      case Number(negative, whole, fraction, exponent) =>
        NumberIsPlain(negative, whole, fraction, exponent);
        PlainIsSkipped(d, Render(v));
      case Text(units) => StringIsSkipped(d, units);
      case EmptyArray(gap) =>
        PlainIsSkipped(d + 1, gap);
        Bracketed(d, LBRACKET, gap, 0, RBRACKET);
      case Array(items) =>
        if d < MAX_MODEL_DEPTH { ScanItems(d + 1, items); }
        Bracketed(d, LBRACKET, RenderItems(items), NestingItems(items), RBRACKET);
      case EmptyObject(gap) =>
        PlainIsSkipped(d + 1, gap);
        Bracketed(d, LBRACE, gap, 0, RBRACE);
      case Object(members) =>
        if d < MAX_MODEL_DEPTH { ScanMembers(d + 1, members); }
        Bracketed(d, LBRACE, RenderMembers(members), NestingMembers(members), RBRACE);
    }
  }

  lemma {:induction false} ScanItem(d: nat, i: Item)
    requires ValidItem(i) && d <= MAX_MODEL_DEPTH
    ensures Run(Out(d), RenderItem(i)) == After(d, Nesting(i.value))
    decreases i, 0
  {
    PlainIsSkipped(d, i.before);
    ScanValue(d, i.value);
    PlainIsSkipped(d, i.after);
    AfterThen(d, 0, i.before, Nesting(i.value), Render(i.value));
    AfterThen(d, Nesting(i.value), i.before + Render(i.value), 0, i.after);
  }

  lemma {:induction false} ScanItems(d: nat, items: seq<Item>)
    requires (forall i :: i in items ==> ValidItem(i)) && d <= MAX_MODEL_DEPTH
    ensures Run(Out(d), RenderItems(items)) == After(d, NestingItems(items))
    decreases items, 0
  {
    if items != [] {
      var comma := if |items| > 1 then [0x2C] else [];
      assert items[0] in items;
      ScanItem(d, items[0]);
      PlainIsSkipped(d, comma);
      ScanItems(d, items[1..]);
      AfterThen(d, Nesting(items[0].value), RenderItem(items[0]), 0, comma);
      AfterThen(d, Nesting(items[0].value), RenderItem(items[0]) + comma, NestingItems(items[1..]), RenderItems(items[1..]));
    }
  }

  lemma {:induction false} ScanMember(d: nat, m: Member)
    requires IsWs(m.before) && ValidText(m.name) && IsWs(m.beforeColon) && ValidItem(m.value) && d <= MAX_MODEL_DEPTH
    ensures Run(Out(d), RenderMember(m)) == After(d, Nesting(m.value.value))
    decreases m, 0
  {
    PlainIsSkipped(d, m.before);
    StringIsSkipped(d, m.name);
    PlainIsSkipped(d, m.beforeColon);
    PlainIsSkipped(d, [0x3A]);
    ScanItem(d, m.value);
    var n := Nesting(m.value.value);
    AfterThen(d, 0, m.before, 0, RenderText(m.name));
    AfterThen(d, 0, m.before + RenderText(m.name), 0, m.beforeColon);
    AfterThen(d, 0, m.before + RenderText(m.name) + m.beforeColon, 0, [0x3A]);
    AfterThen(d, 0, m.before + RenderText(m.name) + m.beforeColon + [0x3A], n, RenderItem(m.value));
  }

  lemma {:induction false} ScanMembers(d: nat, members: seq<Member>)
    requires forall m :: m in members ==> IsWs(m.before) && ValidText(m.name) && IsWs(m.beforeColon) && ValidItem(m.value)
    requires d <= MAX_MODEL_DEPTH
    ensures Run(Out(d), RenderMembers(members)) == After(d, NestingMembers(members))
    decreases members, 0
  {
    if members != [] {
      var comma := if |members| > 1 then [0x2C] else [];
      assert members[0] in members;
      ScanMember(d, members[0]);
      PlainIsSkipped(d, comma);
      ScanMembers(d, members[1..]);
      var n := Nesting(members[0].value.value);
      AfterThen(d, n, RenderMember(members[0]), 0, comma);
      AfterThen(d, n, RenderMember(members[0]) + comma, NestingMembers(members[1..]), RenderMembers(members[1..]));
    }
  }

  /** Over every JSON text the scan accepts exactly when arrays and objects nest at most 32
      deep, ends outside every string and bracket, and otherwise rejects for depth. */
  lemma ScanMeasuresNesting(text: Item)
    requires ValidItem(text)
    ensures Nesting(text.value) <= MAX_MODEL_DEPTH ==> Run(Start, RenderItem(text)) == Start
    ensures Nesting(text.value) > MAX_MODEL_DEPTH ==> Run(Start, RenderItem(text)) == Rejected(DepthExceeded)
  {
    ScanItem(0, text);
  }

  /** Brackets inside strings never count: a text whose only nesting is in its strings passes. */
  lemma BracketsInStringsNeverCount(before: seq<Byte>, units: seq<Unit>, after: seq<Byte>)
    requires IsWs(before) && ValidText(units) && IsWs(after)
    ensures Run(Start, before + RenderText(units) + after) == Start
  {
    ScanMeasuresNesting(Item(before, Text(units), after));
    assert RenderItem(Item(before, Text(units), after)) == before + RenderText(units) + after;
  }
}
