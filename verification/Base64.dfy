/**
 base64_decode (src/libltfs/base64.c): section 4 of RFC 4648, except that whitespace is ignored.
 */
module Base64 {
  import opened Bytes

  const NONE: nat := 255
  const PAD: byte := 61

  /** The character that stands for a six-bit value. */
  function CharOf(v: nat): byte
    requires v < 64
  {
    if v < 26 then 65 + v
    else if v < 52 then 97 + v - 26
    else if v < 62 then 48 + v - 52
    else if v == 62 then 43 else 47
  }

  /** The value of a character in the decode map, NONE if it has none. */
  function Value(c: byte): nat {
    if 65 <= c <= 90 then c - 65
    else if 97 <= c <= 122 then c - 97 + 26
    else if 48 <= c <= 57 then c - 48 + 52
    else if c == 43 then 62
    else if c == 47 then 63
    else NONE
  }

  predicate Whitespace(c: byte) {
    c == 13 || c == 10 || c == 32 || c == 9
  }

  lemma CharValue(v: nat)
    requires v < 64
    ensures Value(CharOf(v)) == v && !Whitespace(CharOf(v)) && CharOf(v) != PAD
  {
  }

  // ---- The encoding of RFC 4648 ----

  function Encode(b: seq<byte>): seq<byte> {
    if b == [] then []
    else if |b| == 1 then [CharOf(b[0] / 4), CharOf(b[0] % 4 * 16), PAD, PAD]
    else if |b| == 2 then
      [CharOf(b[0] / 4), CharOf(b[0] % 4 * 16 + b[1] / 16), CharOf(b[1] % 16 * 4), PAD]
    else
      [CharOf(b[0] / 4), CharOf(b[0] % 4 * 16 + b[1] / 16), CharOf(b[1] % 16 * 4 + b[2] / 64), CharOf(b[2] % 64)]
      + Encode(b[3..])
  }

  // ---- What the decoder accepts and computes ----

  function Strip(s: seq<byte>): seq<byte> {
    if s == [] then []
    else if Whitespace(s[0]) then Strip(s[1..])
    else [s[0]] + Strip(s[1..])
  }

  /** The number of padding characters at the very end of the input. */
  function Pads(s: seq<byte>): nat {
    if |s| >= 2 && s[|s| - 2] == PAD && s[|s| - 1] == PAD then 2
    else if |s| >= 1 && s[|s| - 1] == PAD then 1
    else 0
  }

  /** Everything before the padding is whitespace or has a value. */
  predicate WellPlaced(s: seq<byte>) {
    forall i :: 0 <= i < |s| - Pads(s) ==> Whitespace(s[i]) || Value(s[i]) != NONE
  }

  predicate Accepts(s: seq<byte>) {
    s != [] && WellPlaced(s) && |Strip(s)| % 4 == 0
  }

  /** The bytes of one quad; a quad without a third or fourth value gives fewer. */
  function Quad(a: nat, b: nat, c: nat, d: nat): seq<byte> {
    [a * 4 % 256 + b / 16 % 4] +
    if c == NONE then []
    else [b % 16 * 16 + c / 4 % 16] + if d == NONE then [] else [c % 4 * 64 + d % 64]
  }

  function Quads(s: seq<byte>): seq<byte>
    requires |s| % 4 == 0
  {
    if s == [] then []
    else Quad(Value(s[0]), Value(s[1]), Value(s[2]), Value(s[3])) + Quads(s[4..])
  }

  /** The decoder's result; the empty sequence when it rejects. */
  function Decoded(s: seq<byte>): seq<byte> {
    if Accepts(s) then Quads(Strip(s)) else []
  }

  // ---- Decoding undoes encoding ----

  lemma {:induction false} EncodeLength(b: seq<byte>)
    ensures |Encode(b)| == (|b| + 2) / 3 * 4
  {
    if |b| >= 3 {
      EncodeLength(b[3..]);
    }
  }

  lemma FirstByte(x: byte, y: byte)
    ensures x / 4 < 64 && x % 4 * 16 + y / 16 < 64
    ensures x / 4 * 4 % 256 + (x % 4 * 16 + y / 16) / 16 % 4 == x
  {
  }

  lemma SecondByte(x: byte, y: byte, z: byte)
    ensures y % 16 * 4 + z / 64 < 64
    ensures (x % 4 * 16 + y / 16) % 16 * 16 + (y % 16 * 4 + z / 64) / 4 % 16 == y
  {
  }

  lemma ThirdByte(y: byte, z: byte)
    ensures z % 64 < 64 && (y % 16 * 4 + z / 64) % 4 * 64 + z % 64 % 64 == z
  {
  }

  lemma QuadOfThree(x: byte, y: byte, z: byte)
    ensures x / 4 < 64 && x % 4 * 16 + y / 16 < 64 && y % 16 * 4 + z / 64 < 64 && z % 64 < 64
    ensures Quad(x / 4, x % 4 * 16 + y / 16, y % 16 * 4 + z / 64, z % 64) == [x, y, z]
  {
    FirstByte(x, y);
    SecondByte(x, y, z);
    ThirdByte(y, z);
  }

  lemma QuadOfTwo(x: byte, y: byte)
    ensures x / 4 < 64 && x % 4 * 16 + y / 16 < 64 && y % 16 * 4 < 64
    ensures Quad(x / 4, x % 4 * 16 + y / 16, y % 16 * 4, NONE) == [x, y]
  {
    FirstByte(x, y);
    SecondByte(x, y, 0);
  }

  lemma QuadOfOne(x: byte)
    ensures x / 4 < 64 && x % 4 * 16 < 64
    ensures Quad(x / 4, x % 4 * 16, NONE, NONE) == [x]
  {
    FirstByte(x, 0);
  }

  /** One quad in front of others. */
  lemma QuadsCons(q: seq<byte>, s: seq<byte>)
    requires |q| == 4 && |s| % 4 == 0
    ensures |q + s| % 4 == 0
    ensures Quads(q + s) == Quad(Value(q[0]), Value(q[1]), Value(q[2]), Value(q[3])) + Quads(s)
  {
    assert (q + s)[4..] == s;
  }

  lemma QuadsShort(b: seq<byte>)
    requires |b| == 1 || |b| == 2
    ensures |Encode(b)| == 4 && Quads(Encode(b)) == b
  {
    if |b| == 1 {
      QuadOfOne(b[0]);
      CharValue(b[0] / 4);
      CharValue(b[0] % 4 * 16);
    } else {
      QuadOfTwo(b[0], b[1]);
      CharValue(b[0] / 4);
      CharValue(b[0] % 4 * 16 + b[1] / 16);
      CharValue(b[1] % 16 * 4);
    }
    QuadsCons(Encode(b), []);
    assert Encode(b) + [] == Encode(b);
  }

  lemma QuadsLong(b: seq<byte>)
    requires |b| > 2 && |Encode(b[3..])| % 4 == 0
    ensures |Encode(b)| % 4 == 0 && Quads(Encode(b)) == b[..3] + Quads(Encode(b[3..]))
  {
    QuadOfThree(b[0], b[1], b[2]);
    CharValue(b[0] / 4);
    CharValue(b[0] % 4 * 16 + b[1] / 16);
    CharValue(b[1] % 16 * 4 + b[2] / 64);
    CharValue(b[2] % 64);
    QuadsCons(Encode(b)[..4], Encode(b[3..]));
  }

  lemma {:induction false} QuadsEncode(b: seq<byte>)
    ensures |Encode(b)| % 4 == 0 && Quads(Encode(b)) == b
  {
    if |b| == 0 {
    } else if |b| <= 2 {
      QuadsShort(b);
    } else {
      QuadsEncode(b[3..]);
      QuadsLong(b);
      assert b == b[..3] + b[3..];
    }
  }

  // ---- Whitespace ----

  lemma {:induction false} StripConcat(a: seq<byte>, b: seq<byte>)
    ensures Strip(a + b) == Strip(a) + Strip(b)
  {
    if a == [] {
      assert a + b == b;
    } else {
      assert (a + b)[1..] == a[1..] + b;
      StripConcat(a[1..], b);
    }
  }

  predicate AllValues(s: seq<byte>) {
    forall i :: 0 <= i < |s| ==> Value(s[i]) != NONE
  }

  lemma FullQuad(x: byte, y: byte, z: byte)
    ensures x / 4 < 64 && x % 4 * 16 + y / 16 < 64 && y % 16 * 4 + z / 64 < 64 && z % 64 < 64
    ensures AllValues([CharOf(x / 4), CharOf(x % 4 * 16 + y / 16), CharOf(y % 16 * 4 + z / 64), CharOf(z % 64)])
  {
    QuadOfThree(x, y, z);
    CharValue(x / 4);
    CharValue(x % 4 * 16 + y / 16);
    CharValue(y % 16 * 4 + z / 64);
    CharValue(z % 64);
  }

  /** The padding of an encoding of `n` bytes. */
  function Padding(n: nat): seq<byte> {
    if n % 3 == 1 then [PAD, PAD] else if n % 3 == 2 then [PAD] else []
  }

  lemma ShortShape(b: seq<byte>) returns (body: seq<byte>)
    requires |b| == 1 || |b| == 2
    ensures Encode(b) == body + Padding(|b|) && AllValues(body) && body != []
  {
    if |b| == 1 {
      FullQuad(b[0], 0, 0);
      body := [CharOf(b[0] / 4), CharOf(b[0] % 4 * 16)];
    } else {
      FullQuad(b[0], b[1], 0);
      body := [CharOf(b[0] / 4), CharOf(b[0] % 4 * 16 + b[1] / 16), CharOf(b[1] % 16 * 4)];
    }
  }

  lemma AllValuesJoin(a: seq<byte>, b: seq<byte>)
    requires AllValues(a) && AllValues(b)
    ensures AllValues(a + b)
  {
  }

  /** The encoding is characters with a value, then at most two padding characters. */
  lemma {:induction false} EncodeShape(b: seq<byte>) returns (body: seq<byte>)
    ensures Encode(b) == body + Padding(|b|) && AllValues(body) && (b != [] ==> body != [])
  {
    if b == [] {
      body := [];
    } else if |b| <= 2 {
      body := ShortShape(b);
    } else {
      var rest := EncodeShape(b[3..]);
      var quad := LongShape(b);
      AllValuesJoin(quad, rest);
      body := quad + rest;
      assert quad + (rest + Padding(|b|)) == body + Padding(|b|);
    }
  }

  lemma LongShape(b: seq<byte>) returns (quad: seq<byte>)
    requires |b| >= 3
    ensures AllValues(quad) && quad != [] && Encode(b) == quad + Encode(b[3..])
  {
    FullQuad(b[0], b[1], b[2]);
    quad := [CharOf(b[0] / 4), CharOf(b[0] % 4 * 16 + b[1] / 16), CharOf(b[1] % 16 * 4 + b[2] / 64), CharOf(b[2] % 64)];
  }

  lemma {:induction false} StripMembers(s: seq<byte>, c: byte)
    ensures c in Strip(s) <==> c in s && !Whitespace(c)
  {
    if s != [] {
      StripMembers(s[1..], c);
      assert c in s <==> c == s[0] || c in s[1..];
    }
  }

  /** Everything in `s` is whitespace or has a value, if what is left after stripping has. */
  lemma StripValues(s: seq<byte>)
    requires AllValues(Strip(s))
    ensures forall i :: 0 <= i < |s| ==> Whitespace(s[i]) || Value(s[i]) != NONE
  {
    forall i | 0 <= i < |s| && !Whitespace(s[i]) ensures Value(s[i]) != NONE {
      StripMembers(s, s[i]);
      var k :| 0 <= k < |Strip(s)| && Strip(s)[k] == s[i];
    }
  }

  lemma PaddedWellPlaced(s: seq<byte>, pad: seq<byte>)
    requires s != [] && s[|s| - 1] != PAD && (pad == [] || pad == [PAD] || pad == [PAD, PAD])
    requires forall i :: 0 <= i < |s| ==> Whitespace(s[i]) || Value(s[i]) != NONE
    ensures Pads(s + pad) == |pad| && WellPlaced(s + pad)
  {
  }

  /**
   Decoding the encoding of any non-empty byte string, with whitespace put anywhere before the
   padding, gives that string back.
   */
  lemma DecodeEncode(b: seq<byte>, s: seq<byte>)
    requires b != [] && Strip(s) + Padding(|b|) == Encode(b)
    ensures Decoded(s + Padding(|b|)) == b
  {
    var pad := Padding(|b|);
    var body := EncodeShape(b);
    assert (Strip(s) + pad)[..|Encode(b)| - |pad|] == Strip(s) && (body + pad)[..|Encode(b)| - |pad|] == body;
    PaddedAccepted(s, pad);
    QuadsEncode(b);
  }

  lemma PaddedAccepted(s: seq<byte>, pad: seq<byte>)
    requires AllValues(Strip(s)) && Strip(s) != [] && (pad == [] || pad == [PAD] || pad == [PAD, PAD])
    ensures WellPlaced(s + pad) && Strip(s + pad) == Strip(s) + pad && s + pad != []
  {
    StripValues(s);
    LastIsNoPad(s);
    PadStrip(pad);
    StripConcat(s, pad);
    PaddedWellPlaced(s, pad);
  }

  lemma LastIsNoPad(s: seq<byte>)
    requires Strip(s) != [] && forall i :: 0 <= i < |s| ==> Whitespace(s[i]) || Value(s[i]) != NONE
    ensures s != [] && s[|s| - 1] != PAD
  {
  }

  lemma PadStrip(pad: seq<byte>)
    requires pad == [] || pad == [PAD] || pad == [PAD, PAD]
    ensures Strip(pad) == pad
  {
    assert pad != [] ==> Strip(pad) == [PAD] + Strip(pad[1..]);
    assert |pad| == 2 ==> pad[1..][1..] == [] && Strip(pad[1..]) == [PAD] + Strip(pad[1..][1..]);
    assert |pad| == 1 ==> pad[1..] == [];
  }

  // ---- What acceptance means ----

  /** `t` is characters with a value, then `p` padding characters. */
  predicate Padded(t: seq<byte>, p: nat) {
    p <= 2 && p <= |t| && AllValues(t[..|t| - p]) && forall i :: |t| - p <= i < |t| ==> t[i] == PAD
  }

  /** Accepted input is, whitespace apart, characters with a value and then the padding. */
  lemma AcceptedShape(s: seq<byte>)
    requires WellPlaced(s)
    ensures Padded(Strip(s), Pads(s))
  {
    var front, pad := SplitPadding(s);
    JoinedShape(front, pad);
  }

  lemma SplitPadding(s: seq<byte>) returns (front: seq<byte>, pad: seq<byte>)
    requires WellPlaced(s)
    ensures s == front + pad && |pad| == Pads(s) && (pad == [] || pad == [PAD] || pad == [PAD, PAD])
    ensures forall i :: 0 <= i < |front| ==> Whitespace(front[i]) || Value(front[i]) != NONE
  {
    front, pad := s[..|s| - Pads(s)], s[|s| - Pads(s)..];
  }

  lemma JoinedShape(front: seq<byte>, pad: seq<byte>)
    requires pad == [] || pad == [PAD] || pad == [PAD, PAD]
    requires forall i :: 0 <= i < |front| ==> Whitespace(front[i]) || Value(front[i]) != NONE
    ensures Padded(Strip(front + pad), |pad|)
  {
    StripConcat(front, pad);
    PadStrip(pad);
    StrippedValues(front);
    PaddedJoin(Strip(front), pad);
  }

  lemma StrippedValues(s: seq<byte>)
    requires forall i :: 0 <= i < |s| ==> Whitespace(s[i]) || Value(s[i]) != NONE
    ensures AllValues(Strip(s))
  {
    forall i | 0 <= i < |Strip(s)| ensures Value(Strip(s)[i]) != NONE {
      StripMembers(s, Strip(s)[i]);
    }
  }

  lemma PaddedJoin(t: seq<byte>, pad: seq<byte>)
    requires AllValues(t) && (pad == [] || pad == [PAD] || pad == [PAD, PAD])
    ensures Padded(t + pad, |pad|)
  {
    assert (t + pad)[..|t + pad| - |pad|] == t;
  }

  lemma {:induction false} QuadsAppend(a: seq<byte>, q: seq<byte>)
    requires |a| % 4 == 0 && |q| == 4
    ensures |a + q| % 4 == 0
    ensures Quads(a + q) == Quads(a) + Quad(Value(q[0]), Value(q[1]), Value(q[2]), Value(q[3]))
  {
    if a == [] {
      QuadsCons(q, []);
      assert a + q == q + [];
    } else {
      QuadsAppend(a[4..], q);
      assert a + q == a[..4] + (a[4..] + q);
      QuadsCons(a[..4], a[4..] + q);
    }
  }

  lemma {:induction false} ValuesLength(a: seq<byte>)
    requires |a| % 4 == 0 && AllValues(a)
    ensures |Quads(a)| == 3 * (|a| / 4)
  {
    if a != [] {
      ValuesLength(a[4..]);
    }
  }

  /** The output has three bytes for each quad, less one for each padding character. */
  lemma PaddedLength(t: seq<byte>, p: nat)
    requires |t| % 4 == 0 && Padded(t, p)
    ensures |Quads(t)| == 3 * (|t| / 4) - p
  {
    if t != [] {
      var a, q := t[..|t| - 4], t[|t| - 4..];
      assert forall i :: 0 <= i < |a| ==> a[i] == t[..|t| - p][i];
      assert forall i :: 0 <= i < 4 - p ==> q[i] == t[..|t| - p][|a| + i];
      ValuesLength(a);
      QuadsAppend(a, q);
      assert t == a + q;
      assert forall i :: 4 - p <= i < 4 ==> q[i] == t[|a| + i];
    }
  }

  lemma DecodedLength(s: seq<byte>)
    requires Accepts(s)
    ensures |Decoded(s)| == 3 * (|Strip(s)| / 4) - Pads(s)
  {
    AcceptedShape(s);
    PaddedLength(Strip(s), Pads(s));
  }

  // ---- Encoding undoes decoding, on canonical input ----

  /** The bits of the last character that no output byte uses are zero. */
  predicate SpareBitsClear(t: seq<byte>)
    requires |t| % 4 == 0
  {
    t == [] ||
    (if Value(t[|t| - 2]) == NONE then Value(t[|t| - 3]) % 16 == 0
     else Value(t[|t| - 1]) == NONE ==> Value(t[|t| - 2]) % 4 == 0)
  }

  lemma ValueChar(c: byte)
    requires Value(c) != NONE
    ensures Value(c) < 64 && CharOf(Value(c)) == c
  {
  }

  /** A quad, with its spare bits clear, is the encoding of its bytes; otherwise it is not. */
  lemma QuadBack(a: nat, b: nat, c: nat, d: nat)
    requires a < 64 && b < 64 && (c == NONE ==> d == NONE) && (c < 64 || c == NONE) && (d < 64 || d == NONE)
    ensures var q := Quad(a, b, c, d);
      && q[0] / 4 == a
      && q[0] % 4 * 16 + (if |q| > 1 then q[1] / 16 else 0) == (if c == NONE then b / 16 * 16 else b)
      && (c != NONE ==> q[1] % 16 * 4 + (if |q| > 2 then q[2] / 64 else 0) == (if d == NONE then c / 4 * 4 else c))
      && (d != NONE ==> q[2] % 64 == d)
  {
  }

  lemma LastQuadBack(t: seq<byte>, p: nat)
    requires |t| == 4 && Padded(t, p)
    ensures Encode(Quad(Value(t[0]), Value(t[1]), Value(t[2]), Value(t[3]))) == t <==> SpareBitsClear(t)
  {
    var a, b, c, d := Value(t[0]), Value(t[1]), Value(t[2]), Value(t[3]);
    PaddedQuad(t, p);
    QuadBack(a, b, c, d);
    ValueChar(t[0]);
    ValueChar(t[1]);
    SameChar(if c == NONE then b / 16 * 16 else b, t[1]);
    if c != NONE {
      ValueChar(t[2]);
      SameChar(if d == NONE then c / 4 * 4 else c, t[2]);
      if d != NONE {
        ValueChar(t[3]);
      }
    }
  }

  lemma PaddedQuad(t: seq<byte>, p: nat)
    requires |t| == 4 && Padded(t, p)
    ensures Value(t[0]) != NONE && Value(t[1]) != NONE
    ensures if Value(t[2]) == NONE then t[2] == PAD && t[3] == PAD else Value(t[3]) == NONE ==> t[3] == PAD
  {
    assert forall i :: 0 <= i < 4 - p ==> t[i] == t[..|t| - p][i];
  }

  lemma SameChar(v: nat, c: byte)
    requires v < 64 && Value(c) != NONE
    ensures CharOf(v) == c <==> v == Value(c)
  {
  }

  lemma FirstQuadBack(t: seq<byte>, p: nat, rest: seq<byte>)
    requires |t| > 4 && |t| % 4 == 0 && Padded(t, p)
    ensures Encode(Quad(Value(t[0]), Value(t[1]), Value(t[2]), Value(t[3])) + rest) == t[..4] + Encode(rest)
  {
    assert forall i :: 0 <= i < 4 ==> t[i] == t[..|t| - p][i];
    var q := Quad(Value(t[0]), Value(t[1]), Value(t[2]), Value(t[3]));
    ValueChar(t[0]);
    ValueChar(t[1]);
    ValueChar(t[2]);
    ValueChar(t[3]);
    QuadBack(Value(t[0]), Value(t[1]), Value(t[2]), Value(t[3]));
    assert (q + rest)[3..] == rest;
  }

  lemma LongBack(t: seq<byte>, p: nat, rest: seq<byte>)
    requires |t| > 4 && |t| % 4 == 0 && Padded(t, p) && rest == t[4..]
    ensures Encode(Quads(t)) == t <==> Encode(Quads(rest)) == rest
  {
    FirstQuadBack(t, p, Quads(rest));
    var again := Encode(Quads(rest));
    assert Encode(Quads(t)) == t[..4] + again;
    assert t == t[..4] + rest;
    assert (t[..4] + again)[4..] == again && (t[..4] + rest)[4..] == rest;
  }

  lemma PaddedTail(t: seq<byte>, p: nat, rest: seq<byte>)
    requires |t| > 4 && |t| % 4 == 0 && Padded(t, p) && rest == t[4..]
    ensures |rest| % 4 == 0 && Padded(rest, p) && (SpareBitsClear(rest) <==> SpareBitsClear(t))
  {
    assert rest[..|rest| - p] == t[..|t| - p][4..];
  }

  /** A padded text is the encoding of what it decodes to exactly when its spare bits are clear. */
  lemma {:induction false} EncodeDecode(t: seq<byte>, p: nat)
    requires |t| % 4 == 0 && Padded(t, p)
    ensures Encode(Quads(t)) == t <==> SpareBitsClear(t)
  {
    if t == [] {
    } else if |t| == 4 {
      LastQuadBack(t, p);
      QuadsCons(t, []);
      assert t + [] == t;
    } else {
      PaddedTail(t, p, t[4..]);
      EncodeDecode(t[4..], p);
      LongBack(t, p, t[4..]);
    }
  }

  // ---- The decoder ----

  /** The decode map: every character's value, 255 for the characters that have none. */
  method DecodeMap() returns (map_: array<nat>)
    ensures fresh(map_) && map_.Length == 256
    ensures forall c: byte :: map_[c] == Value(c)
  {
    map_ := new nat[256](_ => NONE);
    var i := 0;
    while i < 64
      invariant 0 <= i <= 64
      invariant forall c: byte :: map_[c] == if Value(c) < i then Value(c) else NONE
    {
      map_[CharOf(i)] := i;
      i := i + 1;
    }
  }

  lemma StripNext(s: seq<byte>, i: nat)
    requires i < |s|
    ensures Strip(s[..i + 1]) == Strip(s[..i]) + if Whitespace(s[i]) then [] else [s[i]]
  {
    assert s[..i + 1] == s[..i] + [s[i]];
    StripConcat(s[..i], [s[i]]);
    assert [s[i]][1..] == [];
  }

  /**
   The checks before anything is allocated. `before` is the byte in memory in front of the input,
   which the last-character test reads when the input is one byte long.
   */
  method Validate(enc: seq<byte>, before: byte, map_: array<nat>) returns (valid: bool, real_: nat, nequal: nat)
    requires enc != [] && map_.Length == 256 && forall c: byte :: map_[c] == Value(c)
    ensures valid <==> Accepts(enc)
    ensures valid ==> real_ == |Strip(enc)| && nequal == Pads(enc)
  {
    var n := |enc|;
    nequal, real_ := 0, n;
    var i := 0;
    while i < n
      invariant 0 <= i <= n
      invariant real_ == n - i + |Strip(enc[..i])|
      invariant forall k :: 0 <= k < i && k < n - Pads(enc) ==> Whitespace(enc[k]) || Value(enc[k]) != NONE
      invariant n > 1 ==> nequal == if i > n - Pads(enc) then Pads(enc) else 0
      invariant n == 1 && i == 1 ==> if enc[0] == PAD then real_ == 1 else nequal == 0
      invariant n == 1 && i == 0 ==> nequal == 0
    {
      StripNext(enc, i);
      if i == n - 2 && enc[i] == PAD && enc[i + 1] == PAD {
        nequal := 2;
      } else if i == n - 1 && enc[i] == PAD {
        if (if i == 0 then before else enc[i - 1]) != PAD {
          nequal := 1;
        }
      } else if Whitespace(enc[i]) {
        real_ := real_ - 1;
      } else if map_[enc[i]] == NONE {
        return false, 0, 0;
      }
      i := i + 1;
    }
    assert enc[..n] == enc;
    valid := real_ % 4 == 0;
  }

  /** The first `m` characters' quads are already in the output. */
  ghost predicate Written(d: seq<byte>, t: seq<byte>, m: nat) {
    m % 4 == 0 && m <= |t| && Quads(t[..m]) <= d
  }

  /** The first `i` characters of the input strip to the first `r` of the whole. */
  ghost predicate Reached(enc: seq<byte>, i: nat, r: nat) {
    i <= |enc| && r <= |Strip(enc)| && Strip(enc[..i]) == Strip(enc)[..r]
  }

  lemma ReachedNext(enc: seq<byte>, i: nat, r: nat)
    requires Reached(enc, i, r) && i < |enc|
    ensures Reached(enc, i + 1, if Whitespace(enc[i]) then r else r + 1)
    ensures !Whitespace(enc[i]) ==> r < |Strip(enc)| && Strip(enc)[r] == enc[i]
  {
    StripNext(enc, i);
    StripConcat(enc[..i + 1], enc[i + 1..]);
    assert enc == enc[..i + 1] + enc[i + 1..];
  }

  lemma ReachedEnd(enc: seq<byte>, r: nat)
    requires Reached(enc, |enc|, r)
    ensures r == |Strip(enc)|
  {
    assert enc[..|enc|] == enc;
  }

  lemma WrittenEnd(d: seq<byte>, t: seq<byte>, m: nat)
    requires Written(d, t, m) && |t| % 4 == 0 && |t| - m < 4 && |d| == |Quads(t)|
    ensures d == Quads(t)
  {
    assert m == |t|;
    PrefixOfSameLength(Quads(t[..m]), d);
    assert t[..m] == t;
  }

  lemma PrefixOfSameLength(a: seq<byte>, b: seq<byte>)
    requires a <= b
    ensures |a| == |b| ==> a == b
  {
  }

  lemma NextQuad(t: seq<byte>, p: nat, m: nat)
    requires Padded(t, p) && |t| % 4 == 0 && m % 4 == 0 && m + 4 <= |t|
    ensures |Quads(t[..m])| == 3 * (m / 4)
    ensures Quads(t[..m + 4])
         == Quads(t[..m]) + Quad(Value(t[m]), Value(t[m + 1]), Value(t[m + 2]), Value(t[m + 3]))
    ensures |Quads(t[..m + 4])| <= 3 * (|t| / 4) - p
  {
    assert forall i :: 0 <= i < m ==> t[..m][i] == t[..|t| - p][i];
    ValuesLength(t[..m]);
    QuadsAppend(t[..m], t[m..m + 4]);
    assert t[..m] + t[m..m + 4] == t[..m + 4];
    if m + 4 == |t| {
      assert t[..m + 4] == t;
      PaddedLength(t, p);
    }
  }

  /** The stores for one full quad. */
  method StoreQuad(dec: array<byte>, outPos: nat, quad: array<nat>)
    requires quad.Length == 4 && outPos + |Quad(quad[0], quad[1], quad[2], quad[3])| <= dec.Length
    modifies dec
    ensures dec[..outPos] == old(dec[..outPos])
    ensures Quad(quad[0], quad[1], quad[2], quad[3]) <= dec[outPos..]
  {
    dec[outPos] := quad[0] * 4 % 256 + quad[1] / 16 % 4;
    if quad[2] != NONE {
      dec[outPos + 1] := quad[1] % 16 * 16 + quad[2] / 4 % 16;
      if quad[3] != NONE {
        dec[outPos + 2] := quad[2] % 4 * 64 + quad[3] % 64;
      }
    }
  }

  lemma WrittenNext(was: seq<byte>, d: seq<byte>, t: seq<byte>, m: nat, q: seq<byte>)
    requires Written(was, t, m) && m + 4 <= |t| && Quads(t[..m + 4]) == Quads(t[..m]) + q
    requires |Quads(t[..m])| <= |d| && was[..|Quads(t[..m])|] == d[..|Quads(t[..m])|] && q <= d[|Quads(t[..m])|..]
    ensures Written(d, t, m + 4)
  {
  }

  /** The first `c` slots of the quad are the values of the characters from `m` on. */
  ghost predicate Holding(quad: seq<nat>, c: nat, t: seq<byte>, m: nat) {
    c <= |quad| && m + c <= |t| && forall k :: 0 <= k < c ==> quad[k] == Value(t[m + k])
  }

  lemma HoldingNext(quad: seq<nat>, c: nat, t: seq<byte>, m: nat)
    requires Holding(quad, c, t, m) && c < |quad| && m + c < |t|
    ensures Holding(quad[c := Value(t[m + c])], c + 1, t, m)
  {
  }

  /** A full quad, the one that starts at character `m` of what is to be decoded. */
  method EmitQuad(dec: array<byte>, outPos: nat, quad: array<nat>, ghost t: seq<byte>, ghost p: nat, ghost m: nat)
    requires Padded(t, p) && |t| % 4 == 0 && dec.Length == 3 * (|t| / 4) - p
    requires Written(dec[..], t, m) && m + 4 <= |t| && outPos == 3 * (m / 4)
    requires quad.Length == 4 && Holding(quad[..], 4, t, m)
    modifies dec
    ensures Written(dec[..], t, m + 4)
  {
    NextQuad(t, p, m);
    ghost var was, q := dec[..], Quad(quad[0], quad[1], quad[2], quad[3]);
    assert forall k :: 0 <= k < 4 ==> quad[k] == quad[..][k] == Value(t[m + k]);
    assert q == Quad(Value(t[m]), Value(t[m + 1]), Value(t[m + 2]), Value(t[m + 3]));
    StoreQuad(dec, outPos, quad);
    assert dec[..outPos] == was[..outPos];
    WrittenNext(was, dec[..], t, m, q);
  }

  /**
   base64_decode: no output on rejection, otherwise a buffer that holds exactly the decoded bytes,
   every store being inside it.
   */
  method Base64Decode(enc: seq<byte>, before: byte) returns (nout: nat, dec: array?<byte>)
    ensures dec == null <==> !Accepts(enc)
    ensures dec != null ==> fresh(dec) && dec[..] == Decoded(enc)
    ensures nout == |Decoded(enc)|
  {
    if |enc| == 0 {
      return 0, null;
    }
    var map_ := DecodeMap();
    var valid, real_, nequal := Validate(enc, before, map_);
    if !valid {
      return 0, null;
    }
    DecodedLength(enc);
    AcceptedShape(enc);
    nout := 3 * (real_ / 4) - nequal;
    dec := new byte[nout];
    DecodeQuads(enc, map_, dec, nequal);
  }

  /** The loop that generates the output. */
  method DecodeQuads(enc: seq<byte>, map_: array<nat>, dec: array<byte>, ghost p: nat)
    requires map_.Length == 256 && forall c: byte :: map_[c] == Value(c)
    requires Padded(Strip(enc), p) && |Strip(enc)| % 4 == 0 && dec.Length == 3 * (|Strip(enc)| / 4) - p
    requires dec.Length == |Quads(Strip(enc))|
    modifies dec
    ensures dec[..] == Quads(Strip(enc))
  {
    var quad := new nat[4];
    ghost var t, done := Strip(enc), 0;
    var quadCount, outPos, i := 0, 0, 0;
    while i < |enc|
      invariant 0 <= i <= |enc| && 0 <= quadCount < 4 && Reached(enc, i, done + quadCount)
      invariant done % 4 == 0 && outPos == 3 * (done / 4) && Written(dec[..], t, done)
      invariant Holding(quad[..], quadCount, t, done)
    {
      ReachedNext(enc, i, done + quadCount);
      if !Whitespace(enc[i]) {
        HoldingNext(quad[..], quadCount, t, done);
        quad[quadCount] := map_[enc[i]];
        quadCount := quadCount + 1;
        assert Holding(quad[..], quadCount, t, done);
        if quadCount == 4 {
          quadCount := 0;
          EmitQuad(dec, outPos, quad, t, p, done);
          outPos := outPos + 3;
          done := done + 4;
        }
      }
      i := i + 1;
    }
    ReachedEnd(enc, done + quadCount);
    WrittenEnd(dec[..], t, done);
  }
}
