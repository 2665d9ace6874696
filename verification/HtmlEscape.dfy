/** Escaping and unescaping of HTML text (xnet/html/escape.go). */
module HtmlEscape {
  import opened Frames

  type Text = seq<Byte>

  const AMP: Byte := 38
  const HASH: Byte := 35
  const SEMICOLON: Byte := 59
  const LT: Byte := 60
  const GT: Byte := 62
  const EQUALS: Byte := 61
  const QUOTE: Byte := 34
  const APOSTROPHE: Byte := 39
  const CR: Byte := 13

  predicate Digit(c: Byte) { 48 <= c <= 57 }

  predicate Alphanumeric(c: Byte) { 97 <= c <= 122 || 65 <= c <= 90 || Digit(c) }

  /** The value of a hexadecimal digit. */
  function HexValue(c: Byte): Option<nat> {
    if Digit(c) then Some(c - 48)
    else if 97 <= c <= 102 then Some(c - 97 + 10)
    else if 65 <= c <= 70 then Some(c - 65 + 10)
    else None
  }

  /** utf8.EncodeRune; what is no character becomes U+FFFD. */
  function EncodeRune(r: int): (b: Text)
    ensures 1 <= |b| <= 4
    ensures 0 <= r < 0x80 ==> b == [r]
  {
    if 0 <= r < 0x80 then [r]
    else if 0x80 <= r < 0x800 then [0xC0 + r / 0x40, 0x80 + r % 0x40]
    else if r < 0 || r > 0x10FFFF || 0xD800 <= r < 0xE000 then [0xEF, 0xBF, 0xBD]
    else if r < 0x1_0000 then [0xE0 + r / 0x1000, 0x80 + r / 0x40 % 0x40, 0x80 + r % 0x40]
    else [0xF0 + r / 0x4_0000, 0x80 + r / 0x1000 % 0x40, 0x80 + r / 0x40 % 0x40, 0x80 + r % 0x40]
  }

  /** The named character references: those of one rune and those of two. */
  datatype Entities = Entities(one: map<Text, int>, two: map<Text, (int, int)>)

  const AMP_NAME: Text := [97, 109, 112, 59]
  const LT_NAME: Text := [108, 116, 59]
  const GT_NAME: Text := [103, 116, 59]

  /** What the tables of the package provide: the names that the escaper uses,
      and replacements that are no wider than what they replace. */
  ghost predicate Fits(t: Entities) {
    && AMP_NAME in t.one && t.one[AMP_NAME] == AMP && LT_NAME in t.one && t.one[LT_NAME] == LT
    && GT_NAME in t.one && t.one[GT_NAME] == GT
    && (forall name :: name in t.one && name != [] ==> |EncodeRune(t.one[name])| <= |name| + 1)
    && (forall name ::
         name in t.two && name != [] ==> |EncodeRune(t.two[name].0)| + |EncodeRune(t.two[name].1)| <= |name| + 1)
  }

  /** The replacements of the Windows-1252 range. */
  const REPLACEMENTS: seq<int> :=
    [0x20AC, 0x81, 0x201A, 0x192, 0x201E, 0x2026, 0x2020, 0x2021, 0x2C6, 0x2030, 0x160, 0x2039, 0x152, 0x8D, 0x17D,
      0x8F,
     0x90, 0x2018, 0x2019, 0x201C, 0x201D, 0x2022, 0x2013, 0x2014, 0x2DC, 0x2122, 0x161, 0x203A, 0x153, 0x9D, 0x17E,
       0x178]

  function NumericRune(x: int): int {
    if 0x80 <= x <= 0x9F then REPLACEMENTS[x - 0x80]
    else if x == 0 || 0xD800 <= x <= 0xDFFF || x > 0x10FFFF then 0xFFFD
    else x
  }

  /** The digits of a numeric reference from s[i] on: their value and the index
      after them and after a semicolon that follows. */
  function Number(s: Text, i: nat, hex: bool, x: int): (r: (int, nat))
    requires i <= |s|
    ensures i <= r.1 <= |s|
    decreases |s| - i
  {
    if i == |s| then (x, i)
    else if hex && HexValue(s[i]).Some? then Number(s, i + 1, hex, Wrap32(16 * x + HexValue(s[i]).value))
    else if !hex && Digit(s[i]) then Number(s, i + 1, hex, Wrap32(10 * x + (s[i] - 48)))
    else (x, if s[i] == SEMICOLON then i + 1 else i)
  }

  /** The index after the name at s[i] and after a semicolon that follows. */
  function NameEnd(s: Text, i: nat): (j: nat)
    requires i <= |s|
    ensures i <= j <= |s|
    decreases |s| - i
  {
    if i == |s| then i
    else if Alphanumeric(s[i]) then NameEnd(s, i + 1)
    else if s[i] == SEMICOLON then i + 1
    else i
  }

  /** The longest proper prefix of a name, of at most j bytes, that is a
      reference; 0 if there is none longer than one byte. */
  function PrefixMatch(t: Entities, name: Text, j: nat): (k: nat)
    requires j <= |name|
    ensures k == 0 || (1 < k <= j && name[..k] in t.one && t.one[name[..k]] != 0)
  {
    if j <= 1 then 0
    else if name[..j] in t.one && t.one[name[..j]] != 0 then j
    else PrefixMatch(t, name, j - 1)
  }

  const LONGEST_WITHOUT_SEMICOLON: nat := 6

  /** What a reference becomes, and how many bytes of s it takes. */
  datatype Piece = Piece(out: Text, taken: nat)

  function NumericPiece(s: Text): (p: Piece)
    requires |s| > 3
    ensures 1 <= p.taken <= |s| && 1 <= |p.out| <= p.taken
  {
    var hex := s[2] == 120 || s[2] == 88;
    var (x, i) := Number(s, if hex then 3 else 2, hex, 0);
    if i <= 3 then Piece(s[..1], 1) else Piece(EncodeRune(NumericRune(x)), i)
  }

  /** What a name of so many bytes in front of next stands for, if anything. */
  function NamedPiece(t: Entities, name: Text, equalsNext: bool, attribute: bool): (p: Option<Piece>)
    ensures p.Some? ==> name != [] && 1 <= p.value.taken <= |name| + 1
  {
    if name == [] then None
    else if attribute && name[|name| - 1] != SEMICOLON && equalsNext then None
    else if name in t.one && t.one[name] != 0 then Some(Piece(EncodeRune(t.one[name]), |name| + 1))
    else if name in t.two && t.two[name].0 != 0 then
      Some(Piece(EncodeRune(t.two[name].0) + EncodeRune(t.two[name].1), |name| + 1))
    else if attribute then None
    else
      var maxLen := if |name| - 1 > LONGEST_WITHOUT_SEMICOLON then LONGEST_WITHOUT_SEMICOLON else |name| - 1;
      var j := PrefixMatch(t, name, maxLen);
      if j == 0 then None else Some(Piece(EncodeRune(t.one[name[..j]]), j + 1))
  }

  /** What the reference at the start of s becomes. */
  function EntityPiece(t: Entities, s: Text, attribute: bool): (p: Piece)
    requires s != [] && s[0] == AMP
    ensures 1 <= p.taken <= |s|
  {
    if |s| <= 1 then Piece(s[..1], 1)
    else if s[1] == HASH then (if |s| <= 3 then Piece(s[..1], 1) else NumericPiece(s))
    else
      var i := NameEnd(s, 1);
      match NamedPiece(t, s[1..i], i < |s| && s[i] == EQUALS, attribute)
      case Some(p) => p
      case None => Piece(s[..i], i)
  }

  function Unescaped(t: Entities, s: Text, attribute: bool): (r: Text)
    decreases |s|
  {
    if s == [] then []
    else if s[0] != AMP then [s[0]] + Unescaped(t, s[1..], attribute)
    else
      var p := EntityPiece(t, s, attribute);
      p.out + Unescaped(t, s[p.taken..], attribute)
  }

  /** A reference never becomes longer, so that it can be replaced in place. */
  lemma PieceFits(t: Entities, s: Text, attribute: bool)
    requires Fits(t) && s != [] && s[0] == AMP
    ensures 1 <= |EntityPiece(t, s, attribute).out| <= EntityPiece(t, s, attribute).taken
  {
    hide EncodeRune, NumericRune, Number;
  }

  // ---- escaping ----

  function EscapedByte(c: Byte): (e: Text) {
    if c == AMP then [AMP] + AMP_NAME
    else if c == APOSTROPHE then [AMP, HASH, 51, 57, SEMICOLON]
    else if c == LT then [AMP] + LT_NAME
    else if c == GT then [AMP] + GT_NAME
    else if c == QUOTE then [AMP, HASH, 51, 52, SEMICOLON]
    else if c == CR then [AMP, HASH, 49, 51, SEMICOLON]
    else [c]
  }

  predicate NeedsEscape(c: Byte) { c in {AMP, APOSTROPHE, LT, GT, QUOTE, CR} }

  function Escaped(s: Text): (r: Text) {
    if s == [] then [] else EscapedByte(s[0]) + Escaped(s[1..])
  }

  const DASH: Byte := 45
  const BANG: Byte := 33

  /** Whether the '>' at s[j] would end a comment if it were not escaped. */
  predicate EndsComment(s: Text, j: nat)
    requires j < |s|
  {
    s[j] == GT && (j == 0 || s[j - 1] == BANG || s[j - 1] == DASH)
  }

  function CommentByte(s: Text, j: nat): Text
    requires j < |s|
  {
    if s[j] == AMP then [AMP] + AMP_NAME else if EndsComment(s, j) then [AMP] + GT_NAME else [s[j]]
  }

  /** escapeComment of s[j..], with s[j - 1] in view. */
  function EscapedComment(s: Text, j: nat): (r: Text)
    requires j <= |s|
    decreases |s| - j
  {
    if j == |s| then [] else CommentByte(s, j) + EscapedComment(s, j + 1)
  }

  // ---- unescaping undoes escaping ----

  lemma NameEndAt(s: Text, i: nat, j: nat)
    requires i <= j < |s| && s[j] == SEMICOLON && forall k :: i <= k < j ==> Alphanumeric(s[k])
    ensures NameEnd(s, i) == j + 1
    decreases j - i
  {
  }

  /** A name of the table is replaced, whatever follows. */
  lemma NamedUndone(t: Entities, name: Text, c: Byte, rest: Text, attribute: bool)
    requires |name| >= 2 && name[|name| - 1] == SEMICOLON && (forall k :: 0 <= k < |name| - 1 ==> Alphanumeric(name[k]))
    requires name in t.one && t.one[name] == c && 0 < c < 0x80
    ensures EntityPiece(t, [AMP] + name + rest, attribute) == Piece([c], |name| + 1)
  {
    var s := [AMP] + name + rest;
    NameEndAt(s, 1, |name|);
    assert s[1..|name| + 1] == name;
    assert s[1] != HASH by { assert s[1] == name[0]; }
  }

  lemma NumericUndone(t: Entities, a: Byte, b: Byte, rest: Text, attribute: bool)
    requires Digit(a) && Digit(b)
    requires var x := 10 * (a - 48) + (b - 48); 0 < x < 0x80
    ensures EntityPiece(t, [AMP, HASH, a, b, SEMICOLON] + rest, attribute) == Piece([10 * (a - 48) + (b - 48)], 5)
  {
    var s := [AMP, HASH, a, b, SEMICOLON] + rest;
    assert Number(s, 4, false, 10 * (a - 48) + (b - 48)) == (10 * (a - 48) + (b - 48), 5);
    assert Number(s, 3, false, a - 48) == Number(s, 4, false, 10 * (a - 48) + (b - 48));
    assert Number(s, 2, false, 0) == Number(s, 3, false, a - 48);
  }

  lemma ByteUndone(t: Entities, c: Byte, rest: Text, attribute: bool)
    requires Fits(t)
    ensures Unescaped(t, EscapedByte(c) + rest, attribute) == [c] + Unescaped(t, rest, attribute)
  {
    hide NamedPiece, EncodeRune, NameEnd, Number;
    var e := EscapedByte(c);
    var s := e + rest;
    if c == AMP {
      NamedUndone(t, AMP_NAME, AMP, rest, attribute);
    } else if c == LT {
      NamedUndone(t, LT_NAME, LT, rest, attribute);
    } else if c == GT {
      NamedUndone(t, GT_NAME, GT, rest, attribute);
    } else if c == APOSTROPHE {
      NumericUndone(t, 51, 57, rest, attribute);
    } else if c == QUOTE {
      NumericUndone(t, 51, 52, rest, attribute);
    } else if c == CR {
      NumericUndone(t, 49, 51, rest, attribute);
    }
    assert s[|e|..] == rest;
  }

  /** UnescapeString(EscapeString(s)) == s, in text and in attribute values. */
  lemma {:induction false} EscapeRoundTrip(t: Entities, s: Text, attribute: bool)
    requires Fits(t)
    ensures Unescaped(t, Escaped(s), attribute) == s
  {
    if s != [] {
      ByteUndone(t, s[0], Escaped(s[1..]), attribute);
      EscapeRoundTrip(t, s[1..], attribute);
    }
  }

  lemma CommentByteUndone(t: Entities, s: Text, j: nat, rest: Text)
    requires Fits(t) && j < |s|
    ensures Unescaped(t, CommentByte(s, j) + rest, false) == [s[j]] + Unescaped(t, rest, false)
  {
    hide EntityPiece, Fits;
    if s[j] == AMP || EndsComment(s, j) {
      ByteUndone(t, s[j], rest, false);
    } else {
      assert ([s[j]] + rest)[1..] == rest;
    }
  }

  lemma {:induction false} CommentRoundTrip(t: Entities, s: Text, j: nat)
    requires Fits(t) && j <= |s|
    ensures Unescaped(t, EscapedComment(s, j), false) == s[j..]
    decreases |s| - j
  {
    hide Unescaped, Fits, CommentByte;
    if j < |s| {
      CommentByteUndone(t, s, j, EscapedComment(s, j + 1));
      CommentRoundTrip(t, s, j + 1);
    } else {
      UnescapedNothing(t, false);
    }
  }

  // ---- the package's loops ----

  /** The premise on the tables can be met. */
  lemma SomeTableFits()
    ensures Fits(Entities(map[AMP_NAME := AMP, LT_NAME := LT, GT_NAME := GT], map[]))
  {
  }

  method ScanNumber(s: Text, start: nat, hex: bool) returns (x: int, i: nat)
    requires start <= |s|
    ensures (x, i) == Number(s, start, hex, 0) && i <= |s|
  {
    x, i := 0, start;
    while i < |s|
      invariant i <= |s| && Number(s, start, hex, 0) == Number(s, i, hex, x)
    {
      var c := s[i];
      i := i + 1;
      if hex {
        var h := HexValue(c);
        if h.Some? {
          x := Wrap32(16 * x + h.value);
          continue;
        }
      } else if Digit(c) {
        x := Wrap32(10 * x + (c - 48));
        continue;
      }
      if c != SEMICOLON {
        i := i - 1;
      }
      return;
    }
  }

  method ScanName(s: Text) returns (i: nat)
    requires |s| >= 1
    ensures i == NameEnd(s, 1) && 1 <= i <= |s|
  {
    i := 1;
    while i < |s|
      invariant 1 <= i <= |s| && NameEnd(s, 1) == NameEnd(s, i)
    {
      var c := s[i];
      i := i + 1;
      if Alphanumeric(c) {
        continue;
      }
      if c != SEMICOLON {
        i := i - 1;
      }
      return;
    }
  }

  method FindPrefix(t: Entities, name: Text, maxLen: nat) returns (k: nat)
    requires maxLen <= |name|
    ensures k == PrefixMatch(t, name, maxLen)
  {
    var j := maxLen;
    while j > 1
      invariant 0 <= j <= |name| && PrefixMatch(t, name, maxLen) == PrefixMatch(t, name, j)
    {
      if name[..j] in t.one && t.one[name[..j]] != 0 {
        return j;
      }
      j := j - 1;
    }
    return 0;
  }

  /** What the name stands for, and how many bytes after the '&' it takes. */
  method LookUp(t: Entities, name: Text, equalsNext: bool, attribute: bool) returns (out: Text, taken: Option<nat>)
    ensures NamedPiece(t, name, equalsNext, attribute) == if taken.Some? then Some(Piece(out, taken.value)) else None
  {
    hide EncodeRune;
    out, taken := [], None;
    if name == [] {
    } else if attribute && name[|name| - 1] != SEMICOLON && equalsNext {
    } else if name in t.one && t.one[name] != 0 {
      return EncodeRune(t.one[name]), Some(|name| + 1);
    } else if name in t.two && t.two[name].0 != 0 {
      return EncodeRune(t.two[name].0) + EncodeRune(t.two[name].1), Some(|name| + 1);
    } else if !attribute {
      var maxLen := |name| - 1;
      if maxLen > LONGEST_WITHOUT_SEMICOLON {
        maxLen := LONGEST_WITHOUT_SEMICOLON;
      }
      var j := FindPrefix(t, name, maxLen);
      if j > 0 {
        return EncodeRune(t.one[name[..j]]), Some(j + 1);
      }
    }
  }

  /** Write out at b[dst]. */
  method Put(b: array<Byte>, dst: nat, out: Text)
    requires dst + |out| <= b.Length
    modifies b
    ensures b[dst..dst + |out|] == out
    ensures forall k :: 0 <= k < dst || dst + |out| <= k < b.Length ==> b[k] == old(b[k])
  {
    for k := 0 to |out|
      invariant forall l :: 0 <= l < k ==> b[dst + l] == out[l]
      invariant forall l :: 0 <= l < dst || dst + |out| <= l < b.Length ==> b[l] == old(b[l])
    {
      b[dst + k] := out[k];
    }
  }

  /** unescapeEntity up to its writes: the replacement of the reference at the
      start of s. */
  method ReadEntity(t: Entities, s: Text, attribute: bool) returns (out: Text, taken: nat)
    requires s != [] && s[0] == AMP
    ensures EntityPiece(t, s, attribute) == Piece(out, taken)
  {
    hide EncodeRune, NumericRune, Number, NamedPiece;
    if |s| <= 1 {
      return s[..1], 1;
    }
    if s[1] == HASH {
      if |s| <= 3 {
        return s[..1], 1;
      }
      var hex := s[2] == 120 || s[2] == 88;
      var x, i := ScanNumber(s, if hex then 3 else 2, hex);
      if i <= 3 {
        return s[..1], 1;
      }
      return EncodeRune(NumericRune(x)), i;
    }
    var i := ScanName(s);
    var o, n := LookUp(t, s[1..i], i < |s| && s[i] == EQUALS, attribute);
    if n.Some? {
      return o, n.value;
    }
    return s[..i], i;
  }

  /** unescapeEntity: the write cursor dst never passes the read cursor src. */
  method UnescapeEntity(t: Entities, b: array<Byte>, dst: nat, src: nat, attribute: bool) returns (dst1: nat, src1: nat)
    requires Fits(t) && dst <= src < b.Length && b[src] == AMP
    modifies b
    ensures dst < dst1 <= src1 <= b.Length && src < src1
    ensures var p := EntityPiece(t, old(b[src..]), attribute); src1 == src + p.taken && b[dst..dst1] == p.out
    ensures forall k :: 0 <= k < dst || src1 <= k < b.Length ==> b[k] == old(b[k])
  {
    hide EntityPiece, Fits;
    PieceFits(t, b[src..], attribute);
    var out, taken := ReadEntity(t, b[src..], attribute);
    dst1, src1 := dst + |out|, src + taken;
    Put(b, dst, out);
  }

  /** unescape, in place. */
  method Unescape(t: Entities, b: array<Byte>, attribute: bool) returns (n: nat)
    requires Fits(t)
    modifies b
    ensures n <= b.Length && b[..n] == Unescaped(t, old(b[..]), attribute)
  {
    hide Unescaped, Fits;
    ghost var was := b[..];
    var dst, src := 0, 0;
    while src < b.Length
      invariant 0 <= dst <= src <= b.Length && Halfway(t, was, attribute, b[..dst], b[src..], src)
    {
      dst, src := UnescapeStep(t, b, dst, src, attribute, was);
    }
    UnescapedNothing(t, attribute);
    return dst;
  }

  /** done is the outcome for was[..src], and rest the input after it. */
  ghost predicate Halfway(t: Entities, was: Text, attribute: bool, done: Text, rest: Text, src: nat) {
    src <= |was| && rest == was[src..] && Unescaped(t, was, attribute) == done + Unescaped(t, rest, attribute)
  }

  lemma UnescapedNothing(t: Entities, attribute: bool)
    ensures Unescaped(t, [], attribute) == []
  {
  }

  /** One turn of the loop of unescape. */
  method UnescapeStep(t: Entities, b: array<Byte>, dst: nat, src: nat, attribute: bool, ghost was: Text)
    returns (dst1: nat, src1: nat)
    requires Fits(t) && dst <= src < b.Length && Halfway(t, was, attribute, b[..dst], b[src..], src)
    modifies b
    ensures dst1 <= src1 <= b.Length && src < src1 && Halfway(t, was, attribute, b[..dst1], b[src1..], src1)
  {
    hide EntityPiece, Fits, Halfway;
    ghost var done, all := b[..dst], b[..];
    AtSource(t, was, attribute, done, b[src..], src);
    assert forall k :: src <= k < b.Length ==> all[k] == was[k];
    if b[src] == AMP {
      ReferenceDone(t, was, attribute, done, src);
      dst1, src1 := UnescapeEntity(t, b, dst, src, attribute);
      assert b[..dst1] == done + b[dst..dst1];
    } else {
      PlainDone(t, was, attribute, done, src);
      b[dst] := b[src];
      dst1, src1 := dst + 1, src + 1;
      assert b[..dst1] == done + [was[src]];
    }
    assert |b[src1..]| == |was[src1..]|;
    forall i | 0 <= i < b.Length - src1 ensures b[src1..][i] == was[src1..][i] {
      assert b[src1 + i] == all[src1 + i] == was[src1 + i];
    }
    assert b[src1..] == was[src1..];
  }

  lemma AtSource(t: Entities, was: Text, attribute: bool, done: Text, rest: Text, src: nat)
    requires Halfway(t, was, attribute, done, rest, src)
    ensures src <= |was| && rest == was[src..] && (rest != [] ==> rest[0] == was[src])
  {
  }

  lemma ReferenceDone(t: Entities, was: Text, attribute: bool, done: Text, src: nat)
    requires src < |was| && was[src] == AMP && Halfway(t, was, attribute, done, was[src..], src)
    ensures var p := EntityPiece(t, was[src..], attribute);
            src + p.taken <= |was| && Halfway(t, was, attribute, done + p.out, was[src + p.taken..], src + p.taken)
  {
    hide EntityPiece;
    Piecewise(t, was, src, attribute);
    hide Unescaped;
  }

  lemma PlainDone(t: Entities, was: Text, attribute: bool, done: Text, src: nat)
    requires src < |was| && was[src] != AMP && Halfway(t, was, attribute, done, was[src..], src)
    ensures Halfway(t, was, attribute, done + [was[src]], was[src + 1..], src + 1)
  {
    Plain(t, was, src, attribute);
    hide Unescaped;
  }

  lemma Plain(t: Entities, s: Text, src: nat, attribute: bool)
    requires src < |s| && s[src] != AMP
    ensures Unescaped(t, s[src..], attribute) == [s[src]] + Unescaped(t, s[src + 1..], attribute)
  {
    assert s[src..][1..] == s[src + 1..];
  }

  lemma Piecewise(t: Entities, s: Text, src: nat, attribute: bool)
    requires src < |s| && s[src] == AMP
    ensures var p := EntityPiece(t, s[src..], attribute);
            src + p.taken <= |s|
              && Unescaped(t, s[src..], attribute) == p.out + Unescaped(t, s[src + p.taken..], attribute)
  {
    hide EntityPiece;
    assert s[src..][EntityPiece(t, s[src..], attribute).taken..]
      == s[src + EntityPiece(t, s[src..], attribute).taken..];
  }

  /** escape: its output. */
  method Escape(s: Text) returns (w: Text)
    ensures w == Escaped(s)
  {
    hide Escaped, EscapedByte, NeedsEscape;
    w := [];
    var rest := s;
    var i := IndexAny(rest);
    while i < |rest|
      invariant 0 <= i <= |rest| && (forall k :: 0 <= k < i ==> !NeedsEscape(rest[k]))
                && (i < |rest| ==> NeedsEscape(rest[i]))
      invariant Escaped(s) == w + Escaped(rest)
      decreases |rest|
    {
      EscapedUpTo(rest, i);
      Regroup(w, rest[..i], EscapedByte(rest[i]), Escaped(rest[i + 1..]));
      w := w + rest[..i] + EscapedByte(rest[i]);
      rest := rest[i + 1..];
      i := IndexAny(rest);
    }
    EscapedAllPlain(rest);
    w := w + rest;
  }

  lemma EscapedUpTo(s: Text, i: nat)
    requires i < |s| && forall k :: 0 <= k < i ==> !NeedsEscape(s[k])
    ensures Escaped(s) == s[..i] + (EscapedByte(s[i]) + Escaped(s[i + 1..]))
  {
    EscapedPlain(s, i);
    assert s[i..][1..] == s[i + 1..];
  }

  lemma EscapedAllPlain(s: Text)
    requires forall k :: 0 <= k < |s| ==> !NeedsEscape(s[k])
    ensures Escaped(s) == s
  {
    EscapedPlain(s, |s|);
    assert s[..|s|] == s && Escaped(s[|s|..]) == [];
  }

  /** strings.IndexAny(s, escapedChars); |s| if there is none. */
  method IndexAny(s: Text) returns (i: nat)
    ensures i <= |s| && (forall k :: 0 <= k < i ==> !NeedsEscape(s[k])) && (i < |s| ==> NeedsEscape(s[i]))
  {
    i := 0;
    while i < |s| && !NeedsEscape(s[i])
      invariant i <= |s| && forall k :: 0 <= k < i ==> !NeedsEscape(s[k])
    {
      i := i + 1;
    }
  }

  lemma {:induction false} EscapedPlain(s: Text, i: nat)
    requires i <= |s| && forall k :: 0 <= k < i ==> !NeedsEscape(s[k])
    ensures Escaped(s) == s[..i] + Escaped(s[i..])
  {
    if i == 0 {
      assert s[0..] == s && s[..0] == [];
    } else {
      EscapedHead(s);
      hide Escaped;
      EscapedPlain(s[1..], i - 1);
      assert s[1..][i - 1..] == s[i..] && s[..i] == [s[0]] + s[1..][..i - 1];
      Regroup([], [s[0]], s[1..][..i - 1], Escaped(s[i..]));
    }
  }

  lemma EscapedHead(s: Text)
    requires s != [] && !NeedsEscape(s[0])
    ensures Escaped(s) == [s[0]] + Escaped(s[1..])
  {
    PlainByte(s[0]);
    hide EscapedByte;
  }

  lemma PlainByte(c: Byte)
    requires !NeedsEscape(c)
    ensures EscapedByte(c) == [c]
  {
  }

  lemma CommentEnd(s: Text)
    ensures EscapedComment(s, |s|) == []
  {
  }

  lemma CommentStep(s: Text, j: nat)
    requires j < |s|
    ensures EscapedComment(s, j) == CommentByte(s, j) + EscapedComment(s, j + 1)
  {
  }

  lemma Regroup(w: Text, a: Text, b: Text, c: Text)
    ensures w + a + (b + c) == w + (a + b) + c == ((w + a) + b) + [] + c
    ensures a + (b + c) == (a + b) + c && (a == [] ==> w + a == w)
  {
  }

  /** escapeComment: its output. */
  method EscapeComment(s: Text) returns (w: Text)
    ensures w == EscapedComment(s, 0)
  {
    hide EscapedComment;
    w := [];
    var i := 0;
    CommentEnd(s);
    for j := 0 to |s|
      invariant i <= j && EscapedComment(s, 0) == w + s[i..j] + EscapedComment(s, j)
    {
      CommentStep(s, j);
      Regroup(w, s[i..j], CommentByte(s, j), EscapedComment(s, j + 1));
      var escaped: Text := [];
      if s[j] == AMP {
        escaped := [AMP] + AMP_NAME;
      } else if s[j] == GT && (j == 0 || s[j - 1] == BANG || s[j - 1] == DASH) {
        escaped := [AMP] + GT_NAME;
      } else {
        assert s[i..j + 1] == s[i..j] + CommentByte(s, j);
        continue;
      }
      assert escaped == CommentByte(s, j) && s[j + 1..j + 1] == [];
      if i < j {
        w := w + s[i..j];
      }
      w := w + escaped;
      i := j + 1;
    }
    if i < |s| {
      w := w + s[i..];
    }
  }
}
