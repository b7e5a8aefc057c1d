/**
 The characters of a key list (src/kmi/key_format_ltfs.c): which ones are accepted where, what number two
 characters of an alias stand for, and that the case of its digits does not matter.
 */
module KeyDigits {
  import opened Bytes
  import Base64
  import opened KeyFormat

  const LOWER := "0123456789abcdef"
  const UPPER := "0123456789ABCDEF"

  // ---- One digit, and two ----

  /** The value of a digit is its place in the row of digits, in either case; nothing else is a digit. */
  lemma DigitIs(c: byte, v: nat)
    requires v < 16
    ensures HexChar(c) && HexValue(c) == v <==> c == LOWER[v] as int || c == UPPER[v] as int
  {
  }

  lemma DigitBelow(c: byte)
    requires HexChar(c)
    ensures HexValue(c) < 16
  {
  }

  /** What strtoul counts together in base 16: the digits up to the first character that is none. */
  function Digits(s: seq<byte>, v: int): int {
    if s == [] || !HexChar(s[0]) then v else Digits(s[1..], v * 16 + HexValue(s[0]))
  }

  /** The number strtoul reads in base 16, before it is taken as unsigned: blanks, a sign, digits. */
  function Strtoul(s: seq<byte>): int {
    if s == [] then 0
    else if s[0] == 32 || 9 <= s[0] <= 13 then Strtoul(s[1..])
    else if s[0] == 45 then -Digits(s[1..], 0)
    else if s[0] == 43 then Digits(s[1..], 0)
    else Digits(s, 0)
  }

  lemma DigitsOfOne(b: byte)
    ensures Digits([b], 0) == if HexChar(b) then HexValue(b) else 0
  {
    assert [b][1..] == [];
  }

  lemma DigitsOfTwo(a: byte, b: byte)
    requires HexChar(a)
    ensures Digits([a, b], 0) == if HexChar(b) then HexValue(a) * 16 + HexValue(b) else HexValue(a)
  {
    assert [a, b][1..] == [b] && [b][1..] == [];
    assert Digits([a, b], 0) == Digits([b], HexValue(a));
  }

  lemma StrtoulOfOne(b: byte)
    ensures Strtoul([b]) == if HexChar(b) then HexValue(b) else 0
  {
    DigitsOfOne(b);
    assert [b][1..] == [];
  }

  /** The byte made of two characters is the low byte of what strtoul reads, whatever they are. */
  lemma TwoDigitsRead(a: byte, b: byte)
    ensures TwoDigits(a, b) == Strtoul([a, b]) % 256
  {
    assert [a, b][1..] == [b];
    DigitsOfOne(b);
    StrtoulOfOne(b);
    if HexChar(a) {
      DigitBelow(a);
      DigitsOfTwo(a, b);
    }
    if HexChar(b) {
      DigitBelow(b);
    }
  }

  // ---- Case ----

  function LowerDigit(c: byte): (r: byte)
    ensures r == if exists v :: 0 <= v < 16 && c == UPPER[v] as int && 65 <= c then c + 32 else c
  {
    if 65 <= c <= 70 then
      assert c == UPPER[c - 55] as int;
      c + 32
    else c
  }

  lemma LowerDigitSame(c: byte)
    ensures HexChar(LowerDigit(c)) <==> HexChar(c)
    ensures HexChar(c) ==> HexValue(LowerDigit(c)) == HexValue(c)
    ensures !UpperHex(LowerDigit(c))
  {
  }

  /** An alias with its digits in lower case. */
  function Lowered(t: seq<byte>): (r: seq<byte>)
    ensures |r| == |t|
  {
    seq(|t|, i requires 0 <= i < |t| => if i < 3 then t[i] else LowerDigit(t[i]))
  }

  lemma SameAliasText(t: seq<byte>)
    requires |t| == ALIAS_TEXT
    ensures AliasText(Lowered(t)) <==> AliasText(t)
    ensures LowerCase(Lowered(t))
  {
    forall i | 0 <= i < ALIAS_TEXT ensures HexChar(LowerDigit(t[i])) <==> HexChar(t[i]) {
      LowerDigitSame(t[i]);
    }
    var r := Lowered(t);
    if AliasText(r) {
      forall i | 3 <= i < ALIAS_TEXT ensures HexChar(t[i]) {
        assert r[i] == LowerDigit(t[i]);
      }
      forall i | 0 <= i < 3 ensures Printable(t[i]) {
        assert r[i] == t[i];
      }
    }
  }

  /** The alias stands for the same bytes whatever the case of its digits. */
  lemma SameAliasBytes(t: seq<byte>)
    requires AliasText(t)
    ensures AliasBytes(Lowered(t)) == AliasBytes(t)
  {
    var r := Lowered(t);
    assert r[..3] == t[..3];
    forall i | 0 <= i < 9 ensures TwoDigits(r[3 + 2 * i], r[4 + 2 * i]) == TwoDigits(t[3 + 2 * i], t[4 + 2 * i]) {
      LowerDigitSame(t[3 + 2 * i]);
      LowerDigitSame(t[4 + 2 * i]);
    }
  }

  // ---- Whole lists ----

  /** A list with the digits of its aliases, characters 48 to 65 of every 67, in lower case. */
  function LoweredList(s: seq<byte>): (r: seq<byte>)
    ensures |r| == |s|
  {
    seq(|s|, i requires 0 <= i < |s| => if 48 <= i % 67 <= 65 then LowerDigit(s[i]) else s[i])
  }

  lemma PlaceInPair(k: nat, i: nat)
    requires i < 67
    ensures (67 * k + i) % 67 == i
  {
  }

  lemma PairLowered(s: seq<byte>, k: nat)
    requires 67 * k + PAIR_TEXT <= |s|
    ensures var e, r := PairAt(s, k), PairAt(LoweredList(s), k);
      r[..KEY_TEXT] == e[..KEY_TEXT] && r[KEY_TEXT] == e[KEY_TEXT] && r[KEY_TEXT + 1..] == Lowered(e[KEY_TEXT + 1..])
  {
    forall i | 0 <= i < PAIR_TEXT
      ensures PairAt(LoweredList(s), k)[i] == if 48 <= i then LowerDigit(PairAt(s, k)[i]) else PairAt(s, k)[i]
    {
      PlaceInPair(k, i);
    }
  }

  lemma SamePair(s: seq<byte>, k: nat)
    requires 67 * k + PAIR_TEXT <= |s|
    ensures PairText(PairAt(LoweredList(s), k)) <==> PairText(PairAt(s, k))
    ensures PairText(PairAt(s, k)) ==> ParsePair(PairAt(LoweredList(s), k)) == ParsePair(PairAt(s, k))
    ensures Canonical(PairAt(LoweredList(s), k)) <==> Base64.Value(PairAt(s, k)[KEY_TEXT - 2]) % 4 == 0
  {
    var e, r := PairAt(s, k), PairAt(LoweredList(s), k);
    PairLowered(s, k);
    SameAliasText(e[KEY_TEXT + 1..]);
    if PairText(e) {
      SameAliasBytes(e[KEY_TEXT + 1..]);
    }
    CanonicalParts(r, r[..KEY_TEXT], r[KEY_TEXT + 1..]);
    assert r[KEY_TEXT - 2] == r[..KEY_TEXT][KEY_TEXT - 2] == e[..KEY_TEXT][KEY_TEXT - 2];
  }

  lemma SamePairs(s: seq<byte>, n: nat)
    requires 67 * n <= |s| + 1
    ensures PairsOk(LoweredList(s), n) <==> PairsOk(s, n)
  {
    forall k | 0 <= k < n ensures PairText(PairAt(LoweredList(s), k)) <==> PairText(PairAt(s, k)) {
      SamePair(s, k);
    }
    forall k | 1 <= k < n ensures LoweredList(s)[67 * k - 1] == s[67 * k - 1] {
      PlaceInPair(k - 1, 66);
    }
  }

  /** A list is accepted, and gives the same keys, whatever the case of the digits of its aliases. */
  lemma CaseDoesNotMatter(s: seq<byte>, n: nat)
    requires 67 * n <= |s| + 1
    ensures ListText(LoweredList(s), n) <==> ListText(s, n)
    ensures ListText(s, n) ==> Parse(LoweredList(s), n) == Parse(s, n)
  {
    SamePairs(s, n);
    if ListText(s, n) {
      forall k | 0 <= k < n ensures Parse(LoweredList(s), n)[k] == Parse(s, n)[k] {
        SamePair(s, k);
        assert PairText(PairAt(s, k));
      }
    }
  }

  /** No bit of a key's last character is lost. */
  predicate NoSpareBits(s: seq<byte>, n: nat)
    requires 67 * n <= |s| + 1
  {
    forall k {:trigger PairAt(s, k)} :: 0 <= k < n ==> Base64.Value(PairAt(s, k)[KEY_TEXT - 2]) % 4 == 0
  }

  /** What an accepted list is written back as is the list in lower case, unless a key has spare bits. */
  lemma WrittenInLowerCase(s: seq<byte>, n: nat)
    requires ListText(s, n)
    ensures AllWritable(Parse(s, n)) && (Write(Parse(s, n)) == LoweredList(s) <==> NoSpareBits(s, n))
  {
    CaseDoesNotMatter(s, n);
    AcceptedIsWritten(LoweredList(s), n);
    forall k | 0 <= k < n
      ensures Canonical(PairAt(LoweredList(s), k)) <==> Base64.Value(PairAt(s, k)[KEY_TEXT - 2]) % 4 == 0
    {
      SamePair(s, k);
    }
  }

  // ---- Which characters are accepted where ----

  /** A pair, character by character: 43 of a key and an equals sign, a colon, 3 printable ones, 18 digits. */
  lemma PairIs(e: seq<byte>)
    requires |e| == 66
    ensures PairText(e) <==>
      && (forall i :: 0 <= i < 43 ==> Base64.Value(e[i]) < 64)
      && e[43] == '=' as int && e[44] == ':' as int
      && (forall i :: 45 <= i < 48 ==> ' ' as int <= e[i] <= '~' as int)
      && forall i :: 48 <= i < 66 ==> HexChar(e[i])
  {
    var t, a := e[..KEY_TEXT], e[KEY_TEXT + 1..];
    assert forall i :: 0 <= i < KEY_TEXT ==> t[i] == e[i];
    assert forall i :: 0 <= i < ALIAS_TEXT ==> a[i] == e[45 + i];
    assert forall i :: 45 <= i < PAIR_TEXT ==> e[i] == a[i - 45];
    forall i | 0 <= i < 43 ensures KeyChar(e[i]) <==> Base64.Value(e[i]) < 64 {
      KeyCharValue(e[i]);
    }
  }

  lemma PairLeft(s: seq<byte>, r: seq<byte>, k: nat)
    requires 67 * k + PAIR_TEXT <= |s|
    ensures PairAt(s + r, k) == PairAt(s, k)
  {
  }

  lemma PairRight(s: seq<byte>, r: seq<byte>, m: nat, k: nat)
    requires |s| == 67 * m && m <= k && 67 * (k - m) + PAIR_TEXT <= |r|
    ensures PairAt(s + r, k) == PairAt(r, k - m)
  {
    assert (s + r)[67 * k..67 * k + PAIR_TEXT] == r[67 * (k - m)..67 * (k - m) + PAIR_TEXT];
  }

  /** The pairs of two lists with one character between them are those of the first and then of the second. */
  lemma PairOfBoth(s: seq<byte>, m: nat, c: byte, r: seq<byte>, n: nat, k: nat)
    requires |s| + 1 == 67 * m && |r| + 1 == 67 * n && k < m + n
    ensures PairAt(s + [c] + r, k) == if k < m then PairAt(s, k) else PairAt(r, k - m)
  {
    if k < m {
      PairLeft(s, [c] + r, k);
      assert s + [c] + r == s + ([c] + r);
    } else {
      PairRight(s + [c], r, m, k);
    }
  }

  lemma JoinedPairs(s: seq<byte>, m: nat, r: seq<byte>, n: nat, l: seq<byte>)
    requires ListText(s, m) && ListText(r, n) && l == s + [SLASH] + r
    ensures ListText(l, m + n)
  {
    forall k | 0 <= k < m + n ensures PairText(PairAt(l, k)) {
      PairOfBoth(s, m, SLASH, r, n, k);
      assert k < m ==> PairText(PairAt(s, k));
      assert k >= m ==> PairText(PairAt(r, k - m));
    }
    forall k | 1 <= k < m + n ensures l[67 * k - 1] == SLASH {
      if k < m {
        assert l[67 * k - 1] == s[67 * k - 1];
      } else if k > m {
        assert l[67 * k - 1] == r[67 * (k - m) - 1];
      }
    }
    assert PairsOk(l, m + n);
  }

  lemma JoinedParse(s: seq<byte>, m: nat, c: byte, r: seq<byte>, n: nat, l: seq<byte>)
    requires |s| + 1 == 67 * m && |r| + 1 == 67 * n && l == s + [c] + r
    ensures Parse(l, m + n) == Parse(s, m) + Parse(r, n)
  {
    forall k | 0 <= k < m + n ensures Parse(l, m + n)[k] == (Parse(s, m) + Parse(r, n))[k] {
      PairOfBoth(s, m, c, r, n, k);
    }
  }

  /** Two lists make one list exactly with a slash between them. */
  lemma ListsJoin(s: seq<byte>, m: nat, c: byte, r: seq<byte>, n: nat)
    requires ListText(s, m) && ListText(r, n)
    ensures ListText(s + [c] + r, m + n) <==> c == '/' as int
    ensures c == '/' as int ==> Parse(s + [c] + r, m + n) == Parse(s, m) + Parse(r, n)
  {
    assert (s + [c] + r)[67 * m - 1] == c;
    if c == SLASH {
      JoinedPairs(s, m, r, n, s + [c] + r);
      JoinedParse(s, m, c, r, n, s + [c] + r);
    }
  }

  /** A text too short for a pair is a list without keys; any other accepted text has 67 characters a key, less one. */
  lemma LengthOfList(s: seq<byte>)
    ensures |s| < 66 ==> KeysOf(Some(s)) == Some([])
    ensures |s| >= 66 && KeysOf(Some(s)).Some? ==> |s| + 1 == 67 * |KeysOf(Some(s)).value|
  {
  }
}
