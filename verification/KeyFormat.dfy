/**
 The key list parser (src/kmi/key_format_ltfs.c): the fixed-width text form of a list of data keys
 and their aliases, what is accepted of it, and what an accepted text parses to.
 */
module KeyFormat {
  import opened Bytes
  import opened Base64

  const DK_LENGTH := 32
  const DKI_LENGTH := 12
  const DKI_ASCII_LENGTH := 3
  const KEY_TEXT := 44
  const ALIAS_TEXT := 21
  const PAIR_TEXT := 66
  const COLON: byte := 58

  /** A data key and its identifier (struct key). */
  datatype Key = Key(dk: seq<byte>, dki: seq<byte>)

  // ---- Character classes ----

  predicate KeyChar(c: byte) {
    48 <= c <= 57 || 65 <= c <= 90 || 97 <= c <= 122 || c == 43 || c == 47
  }

  predicate Printable(c: byte) {
    32 <= c <= 126
  }

  predicate HexChar(c: byte) {
    48 <= c <= 57 || 65 <= c <= 70 || 97 <= c <= 102
  }

  predicate UpperHex(c: byte) {
    65 <= c <= 70
  }

  function HexValue(c: byte): nat
    requires HexChar(c)
  {
    if c <= 57 then c - 48 else if c <= 70 then c - 55 else c - 87
  }

  function HexDigit(v: nat): byte
    requires v < 16
  {
    if v < 10 then 48 + v else 87 + v
  }

  /** The low byte of what strtoul makes of two characters in base 16, whatever they are. */
  function TwoDigits(a: byte, b: byte): byte {
    if HexChar(a) then (if HexChar(b) then HexValue(a) * 16 + HexValue(b) else HexValue(a))
    else if !HexChar(b) then 0
    else if a == 45 then (256 - HexValue(b)) % 256
    else if a == 43 || a == 32 || 9 <= a <= 13 then HexValue(b)
    else 0
  }

  // ---- The text form ----

  predicate KeyText(t: seq<byte>) {
    |t| == KEY_TEXT && (forall i :: 0 <= i < KEY_TEXT - 1 ==> KeyChar(t[i])) && t[KEY_TEXT - 1] == PAD
  }

  predicate AliasText(t: seq<byte>) {
    && |t| == ALIAS_TEXT
    && (forall i :: 0 <= i < DKI_ASCII_LENGTH ==> Printable(t[i]))
    && (forall i :: DKI_ASCII_LENGTH <= i < ALIAS_TEXT ==> HexChar(t[i]))
  }

  predicate PairText(e: seq<byte>) {
    |e| == PAIR_TEXT && KeyText(e[..KEY_TEXT]) && e[KEY_TEXT] == COLON && AliasText(e[KEY_TEXT + 1..])
  }

  function PairAt(s: seq<byte>, k: nat): (e: seq<byte>)
    requires 67 * k + PAIR_TEXT <= |s|
    ensures |e| == PAIR_TEXT
  {
    s[67 * k..67 * k + PAIR_TEXT]
  }

  /** The first `n` pairs of `s` have the right form, and so have the separators between them. */
  predicate PairsOk(s: seq<byte>, n: nat) {
    && 67 * n <= |s| + 1
    && (forall k {:trigger PairAt(s, k)} :: 0 <= k < n ==> PairText(PairAt(s, k)))
    && (forall k :: 1 <= k < n ==> s[67 * k - 1] == SLASH)
  }

  /** `s` is a list of `n` pairs and nothing else. */
  predicate ListText(s: seq<byte>, n: nat) {
    n >= 1 && |s| + 1 == 67 * n && PairsOk(s, n)
  }

  function AliasBytes(t: seq<byte>): (b: seq<byte>)
    requires |t| >= ALIAS_TEXT
    ensures |b| == DKI_LENGTH
  {
    t[..DKI_ASCII_LENGTH] + seq(9, i requires 0 <= i < 9 => TwoDigits(t[3 + 2 * i], t[4 + 2 * i]))
  }

  function ParsePair(e: seq<byte>): Key
    requires |e| == PAIR_TEXT
  {
    Key(Decoded(e[..KEY_TEXT]), AliasBytes(e[KEY_TEXT + 1..]))
  }

  /** The keys of a list of `n` pairs. */
  function Parse(s: seq<byte>, n: nat): seq<Key>
    requires 67 * n <= |s| + 1
  {
    seq(n, k requires 0 <= k < n => ParsePair(PairAt(s, k)))
  }

  // ---- Writing keys down ----

  predicate Writable(k: Key) {
    |k.dk| == DK_LENGTH && |k.dki| == DKI_LENGTH && forall i :: 0 <= i < DKI_ASCII_LENGTH ==> Printable(k.dki[i])
  }

  predicate AllWritable(keys: seq<Key>) {
    forall k :: 0 <= k < |keys| ==> Writable(keys[k])
  }

  function AliasWritten(d: seq<byte>): (t: seq<byte>)
    requires |d| == DKI_LENGTH
    ensures |t| == ALIAS_TEXT
  {
    d[..DKI_ASCII_LENGTH]
    + seq(18, i requires 0 <= i < 18 => HexDigit(if i % 2 == 0 then d[3 + i / 2] / 16 else d[3 + i / 2] % 16))
  }

  function WritePair(k: Key): seq<byte>
    requires Writable(k)
  {
    Encode(k.dk) + [COLON] + AliasWritten(k.dki)
  }

  function Write(keys: seq<Key>): seq<byte>
    requires AllWritable(keys)
  {
    if keys == [] then []
    else if |keys| == 1 then WritePair(keys[0])
    else WritePair(keys[0]) + [SLASH] + Write(keys[1..])
  }

  // ---- What is written parses back ----

  lemma KeyCharValue(c: byte)
    ensures KeyChar(c) <==> Value(c) != NONE
  {
  }

  lemma {:induction false} StripPlain(s: seq<byte>)
    requires AllValues(s)
    ensures Strip(s) == s
  {
    if s != [] {
      assert !Whitespace(s[0]);
      StripPlain(s[1..]);
    }
  }

  /** A 32-byte key is written as a key text, which decodes to it. */
  lemma KeyWritten(dk: seq<byte>)
    requires |dk| == DK_LENGTH
    ensures KeyText(Encode(dk)) && Decoded(Encode(dk)) == dk
  {
    EncodeLength(dk);
    var body := EncodeShape(dk);
    BodyIsKey(body, Encode(dk));
    BodyDecodes(dk, body);
  }

  lemma BodyDecodes(dk: seq<byte>, body: seq<byte>)
    requires |dk| == DK_LENGTH && AllValues(body) && Encode(dk) == body + [PAD]
    ensures Decoded(Encode(dk)) == dk
  {
    StripPlain(body);
    DecodeEncode(dk, body);
  }

  lemma BodyIsKey(body: seq<byte>, t: seq<byte>)
    requires AllValues(body) && t == body + [PAD] && |t| == KEY_TEXT
    ensures KeyText(t)
  {
    forall i | 0 <= i < KEY_TEXT - 1 ensures KeyChar(t[i]) {
      KeyCharValue(body[i]);
    }
  }

  lemma DigitsBack(x: byte)
    ensures HexChar(HexDigit(x / 16)) && HexChar(HexDigit(x % 16))
    ensures TwoDigits(HexDigit(x / 16), HexDigit(x % 16)) == x
  {
  }

  lemma AliasWrittenBack(d: seq<byte>)
    requires |d| == DKI_LENGTH && forall i :: 0 <= i < DKI_ASCII_LENGTH ==> Printable(d[i])
    ensures AliasText(AliasWritten(d)) && AliasBytes(AliasWritten(d)) == d
  {
    var t := AliasWritten(d);
    forall i | 3 <= i < ALIAS_TEXT ensures HexChar(t[i]) {
      DigitsBack(d[3 + (i - 3) / 2]);
    }
    forall i | 0 <= i < 9 ensures TwoDigits(t[3 + 2 * i], t[4 + 2 * i]) == d[3 + i] {
      DigitsBack(d[3 + i]);
    }
  }

  lemma PairWritten(k: Key)
    requires Writable(k)
    ensures PairText(WritePair(k)) && ParsePair(WritePair(k)) == k
  {
    KeyWritten(k.dk);
    AliasWrittenBack(k.dki);
    var e := WritePair(k);
    assert e[..KEY_TEXT] == Encode(k.dk) && e[KEY_TEXT + 1..] == AliasWritten(k.dki);
  }

  /**
   A list of keys in its written form has exactly as many pairs, and parses back to that list.
   */
  lemma {:induction false} WrittenParses(keys: seq<Key>)
    requires keys != [] && AllWritable(keys)
    ensures ListText(Write(keys), |keys|) && Parse(Write(keys), |keys|) == keys
  {
    PairWritten(keys[0]);
    if |keys| == 1 {
      OnePair(WritePair(keys[0]), keys[0]);
    } else {
      WrittenParses(keys[1..]);
      MorePairs(WritePair(keys[0]), Write(keys[1..]), |keys|);
      ParseCons(WritePair(keys[0]), Write(keys[1..]), |keys|);
    }
  }

  lemma OnePair(e: seq<byte>, k: Key)
    requires PairText(e) && ParsePair(e) == k
    ensures ListText(e, 1) && Parse(e, 1) == [k]
  {
    assert PairAt(e, 0) == e;
  }

  /** The pairs after the first are those of the rest. */
  lemma PairAtTail(e: seq<byte>, rest: seq<byte>, k: nat)
    requires |e| == PAIR_TEXT && k >= 1 && 67 * k <= |rest| + 1
    ensures PairAt(e + [SLASH] + rest, k) == PairAt(rest, k - 1)
    ensures (e + [SLASH] + rest)[67 * k - 1] == if k == 1 then SLASH else rest[67 * (k - 1) - 1]
  {
  }

  lemma PairAtHead(e: seq<byte>, rest: seq<byte>)
    requires |e| == PAIR_TEXT
    ensures PairAt(e + [SLASH] + rest, 0) == e
  {
  }

  lemma MorePairs(e: seq<byte>, rest: seq<byte>, n: nat)
    requires n > 1 && PairText(e) && ListText(rest, n - 1)
    ensures ListText(e + [SLASH] + rest, n)
  {
    var s := e + [SLASH] + rest;
    PairAtHead(e, rest);
    forall k | 0 <= k < n ensures PairText(PairAt(s, k)) {
      if k > 0 {
        PairAtTail(e, rest, k);
      }
    }
    forall k | 1 <= k < n ensures s[67 * k - 1] == SLASH {
      PairAtTail(e, rest, k);
    }
    assert PairsOk(s, n);
  }

  /** Parsing takes the first pair, then the rest. */
  lemma ParseCons(e: seq<byte>, rest: seq<byte>, n: nat)
    requires n > 1 && |e| == PAIR_TEXT && 67 * (n - 1) <= |rest| + 1
    ensures Parse(e + [SLASH] + rest, n) == [ParsePair(e)] + Parse(rest, n - 1)
  {
    var s := e + [SLASH] + rest;
    PairAtHead(e, rest);
    forall k | 1 <= k < n ensures Parse(s, n)[k] == Parse(rest, n - 1)[k - 1] {
      PairAtTail(e, rest, k);
    }
  }

  // ---- What is accepted ----

  /** After validation the decoder never fails: a key text decodes to 32 bytes. */
  lemma KeyTextDecodes(t: seq<byte>)
    requires KeyText(t)
    ensures Accepts(t) && |Decoded(t)| == DK_LENGTH && Strip(t) == t && Padded(t, 1)
  {
    var body := t[..KEY_TEXT - 1];
    forall i | 0 <= i < KEY_TEXT - 1 ensures Value(t[i]) != NONE {
      KeyCharValue(t[i]);
    }
    assert t == body + [PAD];
    StripPlain(body);
    StripConcat(body, [PAD]);
    PadStrip([PAD]);
    KeyCharValue(t[KEY_TEXT - 2]);
    assert Pads(t) == 1;
    DecodedLength(t);
  }

  /** Lower-case digits, and zero in the two bits of the key's last character that no byte uses. */
  predicate Canonical(e: seq<byte>)
    requires |e| == PAIR_TEXT
  {
    Value(e[KEY_TEXT - 2]) % 4 == 0 && forall i :: KEY_TEXT + 4 <= i < PAIR_TEXT ==> !UpperHex(e[i])
  }

  lemma DigitBack(a: byte, b: byte)
    requires HexChar(a) && HexChar(b)
    ensures HexDigit(TwoDigits(a, b) / 16) == a <==> !UpperHex(a)
    ensures HexDigit(TwoDigits(a, b) % 16) == b <==> !UpperHex(b)
  {
  }

  predicate LowerCase(t: seq<byte>)
    requires |t| == ALIAS_TEXT
  {
    forall i :: DKI_ASCII_LENGTH <= i < ALIAS_TEXT ==> !UpperHex(t[i])
  }

  lemma AliasBack(t: seq<byte>)
    requires AliasText(t)
    ensures AliasWritten(AliasBytes(t)) == t <==> LowerCase(t)
  {
    var w := AliasWritten(AliasBytes(t));
    forall i | DKI_ASCII_LENGTH <= i < ALIAS_TEXT ensures w[i] == t[i] <==> !UpperHex(t[i]) {
      var j := (i - 3) / 2;
      DigitBack(t[3 + 2 * j], t[4 + 2 * j]);
    }
  }

  lemma CanonicalParts(e: seq<byte>, t: seq<byte>, a: seq<byte>)
    requires |e| == PAIR_TEXT && t == e[..KEY_TEXT] && a == e[KEY_TEXT + 1..]
    ensures Canonical(e) <==> Value(t[KEY_TEXT - 2]) % 4 == 0 && LowerCase(a)
  {
    assert forall i :: 3 <= i < ALIAS_TEXT ==> a[i] == e[i + 45];
    assert forall i :: KEY_TEXT + 4 <= i < PAIR_TEXT ==> e[i] == a[i - 45];
  }

  lemma PartsEqual(t: seq<byte>, a: seq<byte>, t': seq<byte>, a': seq<byte>)
    requires |t| == |t'|
    ensures t + [COLON] + a == t' + [COLON] + a' <==> t == t' && a == a'
  {
    assert (t + [COLON] + a)[..|t|] == t && (t' + [COLON] + a')[..|t|] == t';
    assert (t + [COLON] + a)[|t| + 1..] == a && (t' + [COLON] + a')[|t| + 1..] == a';
  }

  lemma KeyBack(t: seq<byte>)
    requires KeyText(t)
    ensures |Decoded(t)| == DK_LENGTH && |Encode(Decoded(t))| == KEY_TEXT
    ensures Encode(Decoded(t)) == t <==> Value(t[KEY_TEXT - 2]) % 4 == 0
  {
    KeyTextDecodes(t);
    DecodedPlain(t);
    TextBack(t, Decoded(t));
    KeySpareBits(t);
  }

  lemma DecodedPlain(t: seq<byte>)
    requires Accepts(t) && Strip(t) == t
    ensures |t| % 4 == 0 && Decoded(t) == Quads(t)
  {
  }

  lemma TextBack(t: seq<byte>, b: seq<byte>)
    requires |t| % 4 == 0 && Padded(t, 1) && b == Quads(t) && |b| == DK_LENGTH
    ensures |Encode(b)| == KEY_TEXT && (Encode(b) == t <==> SpareBitsClear(t))
  {
    EncodeDecode(t, 1);
    EncodeLength(b);
  }

  lemma KeySpareBits(t: seq<byte>)
    requires KeyText(t)
    ensures SpareBitsClear(t) <==> Value(t[KEY_TEXT - 2]) % 4 == 0
  {
    KeyCharValue(t[KEY_TEXT - 2]);
  }

  /** An accepted pair is a writable key, and is its written form exactly when it is canonical. */
  lemma PairAccepted(e: seq<byte>)
    requires PairText(e)
    ensures Writable(ParsePair(e))
    ensures WritePair(ParsePair(e)) == e <==> Canonical(e)
  {
    var t, a := e[..KEY_TEXT], e[KEY_TEXT + 1..];
    KeyBack(t);
    AliasBack(a);
    CanonicalParts(e, t, a);
    assert forall i :: 0 <= i < DKI_ASCII_LENGTH ==> AliasBytes(a)[i] == a[i];
    PartsEqual(Encode(Decoded(t)), AliasWritten(AliasBytes(a)), t, a);
    assert e == t + [COLON] + a;
  }

  predicate AllCanonical(s: seq<byte>, n: nat)
    requires 67 * n <= |s| + 1
  {
    forall k {:trigger PairAt(s, k)} :: 0 <= k < n ==> Canonical(PairAt(s, k))
  }

  lemma ListTail(s: seq<byte>, n: nat, rest: seq<byte>)
    requires ListText(s, n) && n > 1 && rest == s[67..]
    ensures s == PairAt(s, 0) + [SLASH] + rest && ListText(rest, n - 1)
    ensures AllCanonical(s, n) <==> Canonical(PairAt(s, 0)) && AllCanonical(rest, n - 1)
  {
    var e := PairAt(s, 0);
    assert s[67 * 1 - 1] == SLASH;
    assert s == e + [SLASH] + rest;
    forall k | 0 <= k < n - 1 ensures PairAt(rest, k) == PairAt(s, k + 1) && PairText(PairAt(rest, k)) {
      PairAtTail(e, rest, k + 1);
      assert PairText(PairAt(s, k + 1));
    }
    forall k | 1 <= k < n - 1 ensures rest[67 * k - 1] == SLASH {
      assert s[67 * (k + 1) - 1] == SLASH;
    }
    assert PairsOk(rest, n - 1);
    forall k | 1 <= k < n ensures PairAt(s, k) == PairAt(rest, k - 1) {
      assert PairAt(rest, k - 1) == PairAt(s, k - 1 + 1);
    }
  }

  lemma OneAccepted(s: seq<byte>)
    requires ListText(s, 1)
    ensures AllWritable(Parse(s, 1)) && (Write(Parse(s, 1)) == s <==> AllCanonical(s, 1))
  {
    assert PairAt(s, 0) == s;
    PairAccepted(s);
    assert Parse(s, 1) == [ParsePair(s)];
  }

  lemma MoreAccepted(k: Key, keys: seq<Key>, e: seq<byte>, rest: seq<byte>)
    requires Writable(k) && AllWritable(keys) && keys != [] && |e| == PAIR_TEXT
    ensures AllWritable([k] + keys)
    ensures Write([k] + keys) == e + [SLASH] + rest <==> WritePair(k) == e && Write(keys) == rest
  {
    PairWritten(k);
    WriteCons(k, keys);
    WrittenJoin(WritePair(k), Write(keys), e, rest);
  }

  lemma AcceptedStep(e: seq<byte>, rest: seq<byte>, n: nat)
    requires n > 1 && PairText(e) && 67 * (n - 1) <= |rest| + 1 && AllWritable(Parse(rest, n - 1))
    ensures AllWritable(Parse(e + [SLASH] + rest, n))
    ensures Write(Parse(e + [SLASH] + rest, n)) == e + [SLASH] + rest
       <==> Canonical(e) && Write(Parse(rest, n - 1)) == rest
  {
    ParseCons(e, rest, n);
    PairAccepted(e);
    MoreAccepted(ParsePair(e), Parse(rest, n - 1), e, rest);
  }

  lemma AcceptedMore(s: seq<byte>, n: nat, e: seq<byte>, rest: seq<byte>)
    requires n > 1 && PairText(e) && 67 * (n - 1) <= |rest| + 1 && 67 * n <= |s| + 1 && s == e + [SLASH] + rest
    requires AllWritable(Parse(rest, n - 1)) && (Write(Parse(rest, n - 1)) == rest <==> AllCanonical(rest, n - 1))
    requires AllCanonical(s, n) <==> Canonical(e) && AllCanonical(rest, n - 1)
    ensures AllWritable(Parse(s, n)) && (Write(Parse(s, n)) == s <==> AllCanonical(s, n))
  {
    AcceptedStep(e, rest, n);
  }

  /**
   Conversely an accepted list is a list of writable keys, and is the written form of what it
   parses to exactly when every pair of it is canonical.
   */
  lemma {:induction false} AcceptedIsWritten(s: seq<byte>, n: nat)
    requires ListText(s, n)
    ensures AllWritable(Parse(s, n))
    ensures Write(Parse(s, n)) == s <==> AllCanonical(s, n)
    decreases n
  {
    if n == 1 {
      OneAccepted(s);
    } else {
      var e, rest := PairAt(s, 0), s[67..];
      ListTail(s, n, rest);
      AcceptedIsWritten(rest, n - 1);
      assert PairText(PairAt(s, 0));
      AcceptedMore(s, n, e, rest);
    }
  }

  lemma WriteCons(k: Key, keys: seq<Key>)
    requires Writable(k) && AllWritable(keys) && keys != []
    ensures AllWritable([k] + keys) && Write([k] + keys) == WritePair(k) + [SLASH] + Write(keys)
  {
    assert ([k] + keys)[1..] == keys;
  }

  lemma WrittenJoin(a: seq<byte>, b: seq<byte>, e: seq<byte>, rest: seq<byte>)
    requires |a| == |e|
    ensures a + [SLASH] + b == e + [SLASH] + rest <==> a == e && b == rest
  {
    assert (a + [SLASH] + b)[..|a|] == a && (e + [SLASH] + rest)[..|a|] == e;
    assert (a + [SLASH] + b)[|a| + 1..] == b && (e + [SLASH] + rest)[|a| + 1..] == rest;
  }

  // ---- The checks ----

  method IsKey(s: seq<byte>, at: nat) returns (ok: bool)
    requires at + KEY_TEXT <= |s|
    ensures ok <==> KeyText(s[at..at + KEY_TEXT])
  {
    ghost var t := s[at..at + KEY_TEXT];
    var i := 0;
    while i < (DK_LENGTH * 8 + 5) / 6
      invariant 0 <= i <= 43 && forall k :: 0 <= k < i ==> KeyChar(t[k])
    {
      assert s[at + i] == t[i];
      if !KeyChar(s[at + i]) {
        return false;
      }
      i := i + 1;
    }
    while i % 4 != 0
      invariant i == 43 || (i == 44 && t[43] == PAD)
      decreases 44 - i
    {
      assert s[at + i] == t[i];
      if s[at + i] != PAD {
        return false;
      }
      i := i + 1;
    }
    return true;
  }

  method IsKeyAlias(s: seq<byte>, at: nat) returns (ok: bool)
    requires at + ALIAS_TEXT <= |s|
    ensures ok <==> AliasText(s[at..at + ALIAS_TEXT])
  {
    ghost var t := s[at..at + ALIAS_TEXT];
    var i := 0;
    while i < DKI_ASCII_LENGTH
      invariant 0 <= i <= 3 && forall k :: 0 <= k < i ==> Printable(t[k])
    {
      assert s[at + i] == t[i];
      if !Printable(s[at + i]) {
        return false;
      }
      i := i + 1;
    }
    while i < DKI_ASCII_LENGTH + (DKI_LENGTH - DKI_ASCII_LENGTH) * 2
      invariant 3 <= i <= 21 && forall k :: 3 <= k < i ==> HexChar(t[k])
    {
      assert s[at + i] == t[i];
      if !HexChar(s[at + i]) {
        return false;
      }
      i := i + 1;
    }
    return true;
  }

  /** The pair that starts at `at`: key, separator, alias. */
  method IsPair(s: seq<byte>, at: nat) returns (ok: bool)
    requires at + PAIR_TEXT <= |s|
    ensures ok <==> PairText(s[at..at + PAIR_TEXT])
  {
    ghost var e := s[at..at + PAIR_TEXT];
    assert e[..KEY_TEXT] == s[at..at + KEY_TEXT];
    assert e[KEY_TEXT + 1..] == s[at + KEY_TEXT + 1..at + KEY_TEXT + 1 + ALIAS_TEXT];
    ok := IsKey(s, at);
    if ok && s[at + KEY_TEXT] != COLON {
      ok := false;
    }
    if ok {
      ok := IsKeyAlias(s, at + KEY_TEXT + 1);
    }
  }

  /** The number of keys `s` is accepted with: none if it is shorter than one pair. */
  function Accepted(s: seq<byte>): Option<nat> {
    if |s| < PAIR_TEXT then Some(0)
    else if (|s| + 1) % 67 == 0 && ListText(s, (|s| + 1) / 67) then Some((|s| + 1) / 67)
    else None
  }

  lemma NextPair(s: seq<byte>, n: nat)
    requires PairsOk(s, n) && 67 * n + PAIR_TEXT <= |s| && (n > 0 ==> s[67 * n - 1] == SLASH)
    ensures PairsOk(s, n + 1) <==> PairText(PairAt(s, n))
  {
    if PairsOk(s, n + 1) {
      assert PairText(PairAt(s, n));
    }
  }

  lemma BadPair(s: seq<byte>, n: nat)
    requires 67 * n + PAIR_TEXT <= |s| && !PairText(PairAt(s, n))
    ensures Accepted(s) == None
  {
  }

  /** The loop stopped before the end: no list of pairs has this length and these separators. */
  lemma StoppedShort(s: seq<byte>, n: nat)
    requires n >= 1 && 67 * n - 1 < |s| && (67 * n + PAIR_TEXT > |s| || s[67 * n - 1] != SLASH)
    ensures Accepted(s) == None
  {
  }

  method GetNumOfKeys(s: seq<byte>) returns (n: Option<nat>)
    ensures n == Accepted(s)
  {
    var num := 0;
    if PAIR_TEXT <= |s| {
      var i, more := 0, true;
      while more
        invariant PairsOk(s, num) && i == (if num == 0 then 0 else 67 * num - 1) && i <= |s|
        invariant more ==> i + (if num == 0 then 0 else 1) + PAIR_TEXT <= |s| && (num > 0 ==> s[i] == SLASH)
        invariant !more ==> num >= 1 && (i + 1 + PAIR_TEXT > |s| || s[i] != SLASH)
        decreases |s| - i
      {
        if num != 0 {
          i := i + 1;
        }
        NextPair(s, num);
        var ok := IsPair(s, i);
        if !ok {
          BadPair(s, num);
          return None;
        }
        i := i + PAIR_TEXT;
        num := num + 1;
        more := i + 1 + PAIR_TEXT <= |s| && s[i] == SLASH;
      }
      if i != |s| {
        StoppedShort(s, num);
        return None;
      }
    }
    return Some(num);
  }

  // ---- The conversions ----

  /** A key slot holds zeros before, and afterwards the decoded bytes if there are exactly 32. */
  method ConvertKey(enc: seq<byte>, before: byte) returns (key: seq<byte>)
    ensures key == if |Decoded(enc)| == DK_LENGTH then Decoded(enc) else Zeros(DK_LENGTH)
  {
    key := Zeros(DK_LENGTH);
    var size, dec := Base64Decode(enc, before);
    if size == DK_LENGTH && dec != null {
      key := dec[..];
    }
  }

  method ConvertKeyAlias(text: seq<byte>) returns (bin: array<byte>)
    requires |text| >= ALIAS_TEXT
    ensures fresh(bin) && bin[..] == AliasBytes(text)
  {
    bin := new byte[DKI_LENGTH];
    forall k | 0 <= k < DKI_ASCII_LENGTH {
      bin[k] := text[k];
    }
    var i := 0;
    while i < DKI_LENGTH - DKI_ASCII_LENGTH
      invariant 0 <= i <= 9
      invariant forall k :: 0 <= k < 3 + i ==> bin[k] == AliasBytes(text)[k]
    {
      bin[DKI_ASCII_LENGTH + i] :=
        TwoDigits(text[DKI_ASCII_LENGTH + i * 2], text[DKI_ASCII_LENGTH + i * 2 + 1]);
      i := i + 1;
    }
  }

  // ---- The lifecycle ----

  datatype Life = Uninitialized | Initialized | Set | Cleared | Destroyed

  datatype Error = NullArg | BadArg | InvalidSequence | KeyNotFound

  /** The keys a list argument stands for; an absent list has none. */
  function KeysOf(text: Option<seq<byte>>): Option<seq<Key>> {
    if text.None? then Some([])
    else
      var n := Accepted(text.value);
      if n.None? then None else Some(Parse(text.value, n.value))
  }

  function FirstKey(keys: seq<Key>, alias: seq<byte>): Option<seq<byte>> {
    if keys == [] then None
    else if keys[0].dki == alias then Some(keys[0].dk)
    else FirstKey(keys[1..], alias)
  }

  /** `alias` has the key of the first pair that names it. */
  lemma {:induction false} FirstKeyFinds(keys: seq<Key>, alias: seq<byte>, i: nat)
    requires i < |keys| && keys[i].dki == alias && forall j :: 0 <= j < i ==> keys[j].dki != alias
    ensures FirstKey(keys, alias) == Some(keys[i].dk)
  {
    if i > 0 {
      FirstKeyFinds(keys[1..], alias, i - 1);
    }
  }

  lemma {:induction false} FirstKeyMisses(keys: seq<Key>, alias: seq<byte>)
    requires forall j :: 0 <= j < |keys| ==> keys[j].dki != alias
    ensures FirstKey(keys, alias) == None
  {
    if keys != [] {
      FirstKeyMisses(keys[1..], alias);
    }
  }

  /** Asking for the alias of a key that was written down, and not before under that alias, gives the key. */
  lemma WrittenKeyIsFound(keys: seq<Key>, i: nat)
    requires i < |keys| && AllWritable(keys) && forall j :: 0 <= j < i ==> keys[j].dki != keys[i].dki
    ensures KeysOf(Some(Write(keys))) == Some(keys)
    ensures FirstKey(keys, keys[i].dki) == Some(keys[i].dk)
  {
    WrittenParses(keys);
    ListAccepted(Write(keys), |keys|);
    FirstKeyFinds(keys, keys[i].dki, i);
  }

  lemma ListAccepted(s: seq<byte>, n: nat)
    requires ListText(s, n)
    ensures Accepted(s) == Some(n) && KeysOf(Some(s)) == Some(Parse(s, n))
  {
    assert 67 * n / 67 == n;
  }

  class KeyManager {
    var state: Life
    var numOfKeys: nat
    var dkList: array?<Key>

    constructor ()
      ensures state == Uninitialized && Idle()
    {
      state, numOfKeys, dkList := Uninitialized, 0, null;
    }

    /** Between calls no key is kept. */
    ghost predicate Idle()
      reads this
    {
      dkList == null && numOfKeys == 0 && state != Set
    }

    ghost predicate Loaded(keys: seq<Key>)
      reads this, dkList
    {
      && numOfKeys == |keys|
      && (if keys == [] then dkList == null else dkList != null && dkList[..] == keys)
    }

    method Init() returns (ok: bool)
      requires Idle()
      modifies this
      ensures Idle() && (ok <==> old(state) == Uninitialized)
      ensures state == if ok then Initialized else old(state)
    {
      if state != Uninitialized {
        return false;
      }
      numOfKeys, dkList, state := 0, null, Initialized;
      return true;
    }

    method Destroy()
      requires Idle()
      modifies this
      ensures Idle() && state == Destroyed
    {
      state := Destroyed;
    }

    method SetDkList(text: Option<seq<byte>>) returns (error: Option<Error>)
      requires Idle()
      modifies this
      ensures old(state) !in {Initialized, Cleared} ==> error == Some(InvalidSequence) && unchanged(this)
      ensures old(state) in {Initialized, Cleared} && KeysOf(text).None? ==> error == Some(BadArg) && unchanged(this)
      ensures old(state) in {Initialized, Cleared} && KeysOf(text).Some? ==>
        error == None && state == Set && Loaded(KeysOf(text).value) && (dkList != null ==> fresh(dkList))
    {
      if state != Initialized && state != Cleared {
        return Some(InvalidSequence);
      }
      var n := 0;
      if text.Some? {
        var num := GetNumOfKeys(text.value);
        if num.None? {
          return Some(BadArg);
        }
        n := num.value;
      }
      if n > 0 {
        dkList := ReadKeys(text.value, n);
        numOfKeys := n;
      }
      state := Set;
      return None;
    }

    method GetFrom(keyalias: Option<seq<byte>>, dkiForFormat: Option<seq<byte>>, ghost keys: seq<Key>)
      returns (error: Option<Error>, alias: Option<seq<byte>>, key: Option<seq<byte>>)
      requires Loaded(keys) && (dkiForFormat.Some? ==> |dkiForFormat.value| >= ALIAS_TEXT)
      ensures alias == Asked(keyalias, dkiForFormat)
      ensures key == if alias.None? then None else FirstKey(keys, alias.value)
      ensures error == if alias.Some? && key.None? then Some(KeyNotFound) else None
    {
      key, alias := None, keyalias;
      if alias.None? {
        if dkiForFormat.None? {
          return None, None, None;
        }
        var bin := ConvertKeyAlias(dkiForFormat.value);
        alias := Some(bin[..]);
      }
      var i := 0;
      while i < numOfKeys
        invariant 0 <= i <= numOfKeys && forall j :: 0 <= j < i ==> keys[j].dki != alias.value
      {
        assert dkList[i] == dkList[..][i];
        if alias.value == dkList[i].dki {
          FirstKeyFinds(keys, alias.value, i);
          return None, alias, Some(dkList[i].dk);
        }
        i := i + 1;
      }
      FirstKeyMisses(keys, alias.value);
      return Some(KeyNotFound), alias, None;
    }

    /** Clear: the key array is overwritten with zeros before it is let go. */
    method Clear()
      requires dkList != null ==> dkList.Length == numOfKeys
      modifies this, dkList
      ensures dkList == null && numOfKeys == 0 && state == if old(state) == Set then Cleared else old(state)
      ensures old(dkList) != null ==>
        forall k :: 0 <= k < old(dkList).Length ==> old(dkList)[k] == Key(Zeros(DK_LENGTH), Zeros(DKI_LENGTH))
    {
      if dkList != null {
        forall k | 0 <= k < numOfKeys {
          dkList[k] := Key(Zeros(DK_LENGTH), Zeros(DKI_LENGTH));
        }
        dkList := null;
      }
      numOfKeys := 0;
      if state == Set {
        state := Cleared;
      }
    }

    /**
     One request for a key. Whatever it answers it keeps no key, and what it answers depends on its
     own arguments only: a rejected list leaves the state as it was, any other call clears it.
     */
    method GetKey(keyalias: Option<seq<byte>>, text: Option<seq<byte>>, dkiForFormat: Option<seq<byte>>)
      returns (error: Option<Error>, alias: Option<seq<byte>>, key: Option<seq<byte>>)
      requires Idle() && (dkiForFormat.Some? ==> |dkiForFormat.value| >= ALIAS_TEXT)
      modifies this
      ensures Idle()
      ensures old(state) !in {Initialized, Cleared} ==> error == Some(InvalidSequence) && unchanged(this)
      ensures old(state) in {Initialized, Cleared} && KeysOf(text).None? ==> error == Some(BadArg) && unchanged(this)
      ensures old(state) in {Initialized, Cleared} && KeysOf(text).Some? ==>
        && state == Cleared
        && alias == Asked(keyalias, dkiForFormat)
        && key == (if alias.None? then None else FirstKey(KeysOf(text).value, alias.value))
        && error == if alias.Some? && key.None? then Some(KeyNotFound) else None
    {
      alias, key := keyalias, None;
      error := SetDkList(text);
      if error.Some? {
        return;
      }
      error, alias, key := GetFrom(keyalias, dkiForFormat, KeysOf(text).value);
      Clear();
    }
  }

  /** The alias a request is about: its own, or else the one for formatting, if there is any. */
  function Asked(keyalias: Option<seq<byte>>, dkiForFormat: Option<seq<byte>>): Option<seq<byte>>
    requires dkiForFormat.Some? ==> |dkiForFormat.value| >= ALIAS_TEXT
  {
    if keyalias.Some? then keyalias
    else if dkiForFormat.Some? then Some(AliasBytes(dkiForFormat.value)) else None
  }

  /** The loop of set_dk_list that fills the key array, one pair after another. */
  method ReadKeys(s: seq<byte>, n: nat) returns (list: array<Key>)
    requires ListText(s, n)
    ensures fresh(list) && list[..] == Parse(s, n)
  {
    list := new Key[n](_ => Key(Zeros(DK_LENGTH), Zeros(DKI_LENGTH)));
    var i, offset := 0, 0;
    while i < n
      invariant 0 <= i <= n && offset == 67 * i
      invariant forall k :: 0 <= k < i ==> list[k] == Parse(s, n)[k]
    {
      assert PairText(PairAt(s, i));
      list[i] := ReadPair(s, offset);
      offset := offset + KEY_TEXT + 1 + ALIAS_TEXT + 1;
      i := i + 1;
    }
  }

  method ReadPair(s: seq<byte>, offset: nat) returns (k: Key)
    requires offset + PAIR_TEXT <= |s| && PairText(s[offset..offset + PAIR_TEXT])
    ensures k == ParsePair(s[offset..offset + PAIR_TEXT])
  {
    ghost var e := s[offset..offset + PAIR_TEXT];
    var text, alias := s[offset..offset + KEY_TEXT], s[offset + KEY_TEXT + 1..offset + KEY_TEXT + 1 + ALIAS_TEXT];
    assert text == e[..KEY_TEXT] && alias == e[KEY_TEXT + 1..];
    KeyTextDecodes(text);
    var dk := ConvertKey(text, 0);
    var dki := ConvertKeyAlias(alias);
    k := Key(dk, dki[..]);
  }
}
