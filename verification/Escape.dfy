/**
 The escape notation of the command line tools (toolbox/kctl/util.c): unprintable bytes are printed as
 \xHH, and read back.
 */
module Escape {
  import opened Common
  import opened Vectors

  const BACKSLASH: Byte := 0x5c
  const LETTER_X: Byte := 0x78

  // isprint in the C locale
  predicate Printable(b: Byte) {
    0x20 <= b < 0x7f
  }

  function HexDigit(n: nat): Byte
    requires n < 16
  {
    if n < 10 then 0x30 + n else 0x41 + n - 10
  }

  function HexValue(b: Byte): Option<nat> {
    if 0x30 <= b <= 0x39 then Some(b - 0x30)
    else if 0x41 <= b <= 0x46 then Some(b - 0x41 + 10)
    else if 0x61 <= b <= 0x66 then Some(b - 0x61 + 10)
    else None
  }

  predicate Space(b: Byte) {
    b == 0x20 || 0x09 <= b <= 0x0d
  }

  // strtol in base 16 on two characters with a NUL behind them, as a char; None where it leaves the end
  // pointer before the NUL. A NUL in the first place makes the string empty, which passes for 0.
  function Strtol(a: Byte, b: Byte): (r: Option<Byte>)
    ensures r.Some? ==> r.value < 256
  {
    if a == 0 then Some(0)
    else if HexValue(a).Some? then
      if b == 0 then Some(HexValue(a).value)
      else if HexValue(b).Some? then Some(16 * HexValue(a).value + HexValue(b).value)
      else None
    else if HexValue(b).None? then None
    else if Space(a) || a == 0x2b then Some(HexValue(b).value)
    else if a == 0x2d then Some((256 - HexValue(b).value) % 256)
    else None
  }

  function Escaped(b: Byte): Bytes {
    if Printable(b) then [b] else [BACKSLASH, LETTER_X, HexDigit(b / 16), HexDigit(b % 16)]
  }

  function Dumped(data: Bytes): Bytes {
    if data == [] then [] else Escaped(data[0]) + Dumped(data[1..])
  }

  // The text ends in a NUL, as the arguments of a program do.
  function At(text: Bytes, i: nat): Byte {
    if i < |text| then text[i] else 0
  }

  // What is left of the text after its first i bytes
  function Past(text: Bytes, i: nat): Bytes {
    text[if i < |text| then i else |text|..]
  }

  predicate EscapeAt(text: Bytes, i: nat) {
    At(text, i) == BACKSLASH && At(text, i + 1) == LETTER_X
  }

  function Decoded(text: Bytes): (r: Option<Bytes>)
    ensures r.Some? ==> |r.value| <= |text|
  {
    if text == [] then Some([])
    else if EscapeAt(text, 0) then
      match Strtol(At(text, 2), At(text, 3))
      case None => None
      case Some(b) => Front(b, Decoded(Past(text, 4)))
    else Front(text[0], Decoded(text[1..]))
  }

  function Front(b: Byte, rest: Option<Bytes>): Option<Bytes> {
    match rest
    case None => None
    case Some(r) => Some([b] + r)
  }

  // asciidump
  method AsciiDump(data: Bytes) returns (out: Bytes)
    ensures out == Dumped(data)
  {
    hide Dumped;
    assert data[0..] == data;
    out := [];
    for i := 0 to |data|
      invariant out + Dumped(data[i..]) == Dumped(data)
    {
      DumpedNext(data, i, out);
      if Printable(data[i]) {
        out := out + [data[i]];
      } else {
        out := out + [BACKSLASH, LETTER_X, HexDigit(data[i] / 16), HexDigit(data[i] % 16)];
      }
    }
    NothingDumped(data);
  }

  lemma NothingDumped(data: Bytes)
    ensures Dumped(data[|data|..]) == []
  {
  }

  lemma DumpedNext(data: Bytes, i: nat, out: Bytes)
    requires i < |data|
    ensures out + Dumped(data[i..]) == out + Escaped(data[i]) + Dumped(data[i + 1..])
  {
    hide Escaped;
    assert data[i..][1..] == data[i + 1..];
  }

  // The place the decoder stands at when it stores each byte: at a plain character, or at the last of the
  // four that make an escape. A byte that turns out not to be one is stored before that is noticed.
  function ReadPlaces(data: Bytes, i: nat): seq<nat>
    decreases |data| - i
  {
    if i >= |data| then []
    else if !EscapeAt(data, i) then [i] + ReadPlaces(data, i + 1)
    else if Strtol(At(data, i + 2), At(data, i + 3)) == None then [i + 3]
    else [i + 3] + ReadPlaces(data, i + 4)
  }

  // The k-th byte is stored at place k, and read no further back than that.
  lemma {:induction false} NeverPast(data: Bytes, i: nat, k: nat)
    requires k < |ReadPlaces(data, i)|
    ensures i + k <= ReadPlaces(data, i)[k]
    decreases |data| - i
  {
    if k > 0 {
      NeverPast(data, if EscapeAt(data, i) then i + 4 else i + 1, k - 1);
    }
  }

  // So much has been decoded, at these places, and the rest will follow.
  ghost predicate Decoding(data: Bytes, i: nat, front: Bytes, readAt: seq<nat>) {
    && |front| == |readAt| <= i
    && ReadPlaces(data, 0) == readAt + ReadPlaces(data, i)
    && Decoded(data) == Prefixed(front, Decoded(Past(data, i)))
  }

  lemma DecodingStarts(data: Bytes)
    ensures Decoding(data, 0, [], [])
  {
    assert Past(data, 0) == data;
    NothingBefore(Decoded(data));
    assert [] + ReadPlaces(data, 0) == ReadPlaces(data, 0);
  }

  // What DecodeByte yields takes the decoding one byte further, or ends it.
  lemma DecodingGoesOn(data: Bytes, i: nat, front: Bytes, readAt: seq<nat>, b: Option<Byte>, next: nat)
    requires i < |data| && Decoding(data, i, front, readAt)
    requires b == if EscapeAt(data, i) then Strtol(At(data, i + 2), At(data, i + 3)) else Some(data[i])
    requires next == if EscapeAt(data, i) then i + 3 else i
    ensures b.Some? ==> Decoding(data, next + 1, front + [b.value], readAt + [next])
    ensures b.None? ==> Decoded(data) == None && ReadPlaces(data, 0) == readAt + [next]
  {
    hide ReadPlaces, Decoded, Strtol, Prefixed, Past, EscapeAt, At;
    DecodedStep(data, i, front, b, next);
    PlacesStep(data, i, readAt, b, next);
  }

  lemma DecodingEnds(data: Bytes, i: nat, front: Bytes, readAt: seq<nat>)
    requires i >= |data| && Decoding(data, i, front, readAt)
    ensures Decoded(data) == Some(front) && ReadPlaces(data, 0) == readAt && |readAt| == |front|
  {
    DecodedEnd(data, i, front);
    assert readAt + ReadPlaces(data, i) == readAt;
  }

  // asciidecode; the buffer has room for as many bytes as the text and a NUL
  method AsciiDecode(data: Bytes) returns (raw: Option<Bytes>, ghost readAt: seq<nat>)
    ensures raw == Decoded(data)
    ensures raw.Some? ==> |readAt| == |raw.value| <= |data|
    ensures readAt == ReadPlaces(data, 0)
    ensures forall k :: 0 <= k < |readAt| ==> k <= readAt[k]
  {
    var buf := new Byte[|data| + 1](_ => 0);
    var i, j := 0, 0;
    readAt := [];
    ghost var front: Bytes := [];
    forall k | 0 <= k < |ReadPlaces(data, 0)| ensures k <= ReadPlaces(data, 0)[k] {
      NeverPast(data, 0, k);
    }
    DecodingStarts(data);
    hide Decoding, ReadPlaces, Decoded, Strtol, EscapeAt, At;
    while i < |data|
      invariant j <= i && j <= |data| && buf[..j] == front
      invariant Decoding(data, i, front, readAt)
      decreases |data| - i
    {
      var b, next := DecodeByte(data, i);
      DecodingGoesOn(data, i, front, readAt, b, next);
      readAt := readAt + [next];
      if b.None? {
        raw := None;
        return;
      }
      buf[j] := b.value;
      front := front + [b.value];
      i, j := next + 1, j + 1;
    }
    DecodingEnds(data, i, front, readAt);
    raw := Some(buf[..j]);
    buf[j] := 0;
  }

  lemma PlacesStep(data: Bytes, i: nat, readAt: seq<nat>, b: Option<Byte>, next: nat)
    requires i < |data|
    requires b == if EscapeAt(data, i) then Strtol(At(data, i + 2), At(data, i + 3)) else Some(data[i])
    requires next == if EscapeAt(data, i) then i + 3 else i
    ensures b.Some? ==> readAt + ReadPlaces(data, i) == readAt + [next] + ReadPlaces(data, next + 1)
    ensures b.None? ==> readAt + ReadPlaces(data, i) == readAt + [next]
  {
    hide ReadPlaces, EscapeAt, Strtol, At;
    PlacesFrom(data, i, b, next);
    if b.Some? {
      OneBehind(readAt, next, ReadPlaces(data, next + 1));
    }
  }

  lemma OneBehind(a: seq<nat>, x: nat, b: seq<nat>)
    ensures a + ([x] + b) == a + [x] + b
  {
  }

  lemma PlacesFrom(data: Bytes, i: nat, b: Option<Byte>, next: nat)
    requires i < |data|
    requires b == if EscapeAt(data, i) then Strtol(At(data, i + 2), At(data, i + 3)) else Some(data[i])
    requires next == if EscapeAt(data, i) then i + 3 else i
    ensures ReadPlaces(data, i) == if b.Some? then [next] + ReadPlaces(data, next + 1) else [next]
  {
    hide EscapeAt, Strtol, At;
  }

  // One byte: the character, or the two behind an escape; next is the last place read
  method DecodeByte(data: Bytes, i: nat) returns (b: Option<Byte>, next: nat)
    requires i < |data|
    ensures b == if EscapeAt(data, i) then Strtol(At(data, i + 2), At(data, i + 3)) else Some(data[i])
    ensures next == if EscapeAt(data, i) then i + 3 else i
  {
    next := i;
    if EscapeAt(data, i) {
      next := next + 2;
      var s0 := At(data, next);
      next := next + 1;
      var s1 := At(data, next);
      b := Strtol(s0, s1);
    } else {
      b := Some(data[next]);
    }
  }

  lemma DecodedStep(data: Bytes, i: nat, front: Bytes, b: Option<Byte>, next: nat)
    requires i < |data|
    requires b == if EscapeAt(data, i) then Strtol(At(data, i + 2), At(data, i + 3)) else Some(data[i])
    requires next == if EscapeAt(data, i) then i + 3 else i
    ensures b.Some? ==>
      Prefixed(front, Decoded(Past(data, i))) == Prefixed(front + [b.value], Decoded(Past(data, next + 1)))
    ensures b.None? ==> Prefixed(front, Decoded(Past(data, i))) == None
  {
    var rest := Past(data, i);
    assert forall k: nat :: At(rest, k) == At(data, i + k);
    assert Past(rest, 4) == Past(data, i + 4) && rest[1..] == Past(data, i + 1);
    hide Strtol, Prefixed;
    if b.Some? {
      PrefixMore(front, b.value, Decoded(Past(data, next + 1)));
    } else {
      assert Decoded(rest) == None;
    }
  }

  lemma DecodedEnd(data: Bytes, i: nat, front: Bytes)
    requires i >= |data|
    ensures Prefixed(front, Decoded(Past(data, i))) == Some(front)
  {
    assert Past(data, i) == [] && front + [] == front;
  }

  function Prefixed(front: Bytes, rest: Option<Bytes>): Option<Bytes> {
    match rest
    case None => None
    case Some(r) => Some(front + r)
  }

  lemma NothingBefore(rest: Option<Bytes>)
    ensures Prefixed([], rest) == rest
  {
    if rest.Some? {
      assert [] + rest.value == rest.value;
    }
  }

  lemma PrefixMore(front: Bytes, b: Byte, rest: Option<Bytes>)
    ensures Prefixed(front, Front(b, rest)) == Prefixed(front + [b], rest)
  {
    if rest.Some? {
      assert front + ([b] + rest.value) == front + [b] + rest.value;
    }
  }

  // --- round trip ---

  lemma HexRoundTrip(b: Byte)
    ensures Strtol(HexDigit(b / 16), HexDigit(b % 16)) == Some(b)
  {
  }

  // A backslash with an x right behind it
  predicate LooksEscaped(data: Bytes) {
    exists i :: 0 <= i < |data| - 1 && data[i] == BACKSLASH && data[i + 1] == LETTER_X
  }

  // What decoding the printed bytes gives, one byte at a time
  lemma DumpedUnprintable(data: Bytes)
    requires data != [] && !Printable(data[0])
    ensures Decoded(Dumped(data)) == Front(data[0], Decoded(Dumped(data[1..])))
  {
    var text := Dumped(data);
    HexRoundTrip(data[0]);
    assert At(text, 0) == BACKSLASH && At(text, 1) == LETTER_X;
    assert At(text, 2) == HexDigit(data[0] / 16) && At(text, 3) == HexDigit(data[0] % 16);
    assert text[4..] == Dumped(data[1..]);
  }

  lemma DumpedPlain(data: Bytes)
    requires data != [] && Printable(data[0])
    requires !(data[0] == BACKSLASH && |data| > 1 && data[1] == LETTER_X)
    ensures Decoded(Dumped(data)) == Front(data[0], Decoded(Dumped(data[1..])))
  {
    var text := Dumped(data);
    assert text[1..] == Dumped(data[1..]);
    assert At(text, 1) == At(Dumped(data[1..]), 0);
    FirstPrinted(data[1..]);
  }

  lemma FirstPrinted(data: Bytes)
    ensures At(Dumped(data), 0) == if data == [] then 0 else if Printable(data[0]) then data[0] else BACKSLASH
  {
  }

  // A literal \x swallows what follows it: the decoder either fails or comes out short.
  lemma DumpedLiteral(data: Bytes)
    requires |data| >= 2 && data[0] == BACKSLASH && data[1] == LETTER_X
    ensures Decoded(Dumped(data)).Some? ==>
      && Decoded(Dumped(Past(data, 4))).Some?
      && |Decoded(Dumped(data)).value| == 1 + |Decoded(Dumped(Past(data, 4))).value|
  {
    var text, e := Dumped(data), data[2..];
    assert Dumped(data[1..]) == [LETTER_X] + Dumped(e) by {
      assert data[1..][1..] == e;
    }
    assert text == [BACKSLASH] + ([LETTER_X] + Dumped(e));
    LiteralText(data, e, text);
    hide Dumped, Strtol;
  }

  lemma LiteralText(data: Bytes, e: Bytes, text: Bytes)
    requires |data| >= 2 && e == data[2..] && text == [BACKSLASH] + ([LETTER_X] + Dumped(e))
    ensures EscapeAt(text, 0)
    ensures Strtol(At(text, 2), At(text, 3)) == None || Past(text, 4) == Dumped(Past(data, 4))
  {
    assert At(text, 2) == At(Dumped(e), 0) && At(text, 3) == At(Dumped(e), 1);
    FirstPrinted(e);
    if e != [] && Printable(e[0]) {
      assert Dumped(e) == [e[0]] + Dumped(e[1..]);
      assert At(Dumped(e), 1) == At(Dumped(e[1..]), 0);
      FirstPrinted(e[1..]);
      if |e| > 1 && Printable(e[1]) {
        assert Dumped(e[1..]) == [e[1]] + Dumped(e[1..][1..]);
        assert e[1..][1..] == data[4..];
        assert text[4..] == Dumped(data[4..]);
      } else if |e| == 1 {
        assert Dumped(e[1..]) == [] && Past(data, 4) == [];
      }
    } else if e == [] {
      assert Past(data, 4) == [] && Dumped(e) == [];
    }
  }

  lemma LooksEscapedTail(data: Bytes)
    requires data != []
    ensures LooksEscaped(data) <==>
      (|data| > 1 && data[0] == BACKSLASH && data[1] == LETTER_X) || LooksEscaped(data[1..])
  {
    var tail := data[1..];
    forall i | 0 <= i < |data| - 1 && data[i] == BACKSLASH && data[i + 1] == LETTER_X && i > 0
      ensures LooksEscaped(tail)
    {
      assert tail[i - 1] == BACKSLASH && tail[i] == LETTER_X;
    }
    if LooksEscaped(tail) {
      var i :| 0 <= i < |tail| - 1 && tail[i] == BACKSLASH && tail[i + 1] == LETTER_X;
      assert data[i + 1] == BACKSLASH && data[i + 2] == LETTER_X;
    }
  }

  lemma {:induction false} DecodedDumped(data: Bytes)
    ensures !LooksEscaped(data) ==> Decoded(Dumped(data)) == Some(data)
    ensures Decoded(Dumped(data)).Some? ==>
      |Decoded(Dumped(data)).value| <= |data| && (LooksEscaped(data) ==> |Decoded(Dumped(data)).value| < |data|)
    decreases |data|
  {
    if data != [] {
      LooksEscapedTail(data);
      if |data| > 1 && data[0] == BACKSLASH && data[1] == LETTER_X {
        DumpedLiteral(data);
        DecodedDumped(Past(data, 4));
      } else {
        if Printable(data[0]) {
          DumpedPlain(data);
        } else {
          DumpedUnprintable(data);
        }
        DecodedDumped(data[1..]);
        assert data == [data[0]] + data[1..];
      }
    }
  }

  // Decoding what the printer prints gives the data back exactly when the data has no backslash with an
  // x right behind it.
  lemma {:induction false} RoundTripIff(data: Bytes)
    ensures Decoded(Dumped(data)) == Some(data) <==> !LooksEscaped(data)
  {
    DecodedDumped(data);
  }

  // --- the notation itself ---

  const UPPER: Bytes := [48, 49, 50, 51, 52, 53, 54, 55, 56, 57, 65, 66, 67, 68, 69, 70]
  const LOWER: Bytes := [48, 49, 50, 51, 52, 53, 54, 55, 56, 57, 97, 98, 99, 100, 101, 102]

  // From space to tilde a byte stands for itself; any other is a backslash, an x and two upper-case digits.
  lemma EscapedIs(b: Byte)
    ensures Escaped(b) == if 32 <= b <= 126 then [b] else [92, 120, UPPER[b / 16], UPPER[b % 16]]
  {
  }

  predicate IsDigit(c: Byte, v: nat)
    requires v < 16
  {
    c == UPPER[v] || c == LOWER[v]
  }

  lemma HexValueIs(c: Byte, v: nat)
    requires v < 16
    ensures IsDigit(c, v) <==> HexValue(c) == Some(v)
  {
  }

  // Two digits of either case behind a backslash and an x are read back as the byte they write.
  lemma EitherCaseReads(a: Byte, v: nat, b: Byte, w: nat, rest: Bytes)
    requires v < 16 && w < 16 && IsDigit(a, v) && IsDigit(b, w)
    ensures Decoded([92, 120, a, b] + rest) == match Decoded(rest)
      case None => None
      case Some(r) => Some([16 * v + w] + r)
  {
    HexValueIs(a, v);
    HexValueIs(b, w);
    var text := [92, 120, a, b] + rest;
    assert text[4..] == rest;
  }

  // So does strtol read other pairs to their end: nothing in front of a NUL is 0, one digit in front of a NUL is
  // its value, as is one behind white space or a plus, and one behind a minus is the byte that many below 256.
  lemma OddPairsRead(a: Byte, b: Byte, v: nat, rest: Bytes)
    requires v < 16
    requires a == 0 || (IsDigit(a, v) && b == 0) || ((9 <= a <= 13 || a == 32 || a == 43 || a == 45) && IsDigit(b, v))
    ensures Decoded([92, 120, a, b] + rest) == match Decoded(rest)
      case None => None
      case Some(r) => Some([if a == 0 then 0 else if a == 45 && v != 0 then 256 - v else v] + r)
  {
    HexValueIs(a, v);
    HexValueIs(b, v);
    var text := [92, 120, a, b] + rest;
    assert text[4..] == rest;
  }

  // What is taken for an escape and is none ends the decoding: two characters that strtol does not read to
  // their end, which is so unless the first is a NUL, or a digit followed by a digit or a NUL, or white space
  // or a sign followed by a digit.
  lemma NoNumberFails(text: Bytes)
    requires |text| >= 4 && text[0] == 92 && text[1] == 120
    requires text[2] != 0
    requires !((text[2] in UPPER || text[2] in LOWER) && (text[3] == 0 || text[3] in UPPER || text[3] in LOWER))
    requires !((9 <= text[2] <= 13 || text[2] == 32 || text[2] == 43 || text[2] == 45)
               && (text[3] in UPPER || text[3] in LOWER))
    ensures Decoded(text) == None
  {
    HexValueNone(text[2]);
    HexValueNone(text[3]);
  }

  lemma HexValueNone(c: Byte)
    ensures HexValue(c).Some? <==> c in UPPER || c in LOWER
  {
    if HexValue(c).Some? {
      var v := HexValue(c).value;
      HexValueIs(c, v);
    }
  }
}
