/**
 The characters of base64 text (src/libltfs/base64.c): the alphabet of section 4 of RFC 4648, the four
 characters that are skipped, and the number a quad stands for.
 */
module Base64Text {
  import opened Bytes
  import opened Base64

  const CAPITALS := "ABCDEFGHIJKLMNOPQRSTUVWXYZ"
  const SMALL := "abcdefghijklmnopqrstuvwxyz"
  const ALPHABET := CAPITALS + SMALL + "0123456789" + "+/"

  lemma LettersInOrder(v: nat)
    requires v < 26
    ensures |CAPITALS| == |SMALL| == 26 && CAPITALS[v] as int == 65 + v && SMALL[v] as int == 97 + v
  {
  }

  lemma FiguresInOrder(v: nat)
    requires v < 10
    ensures "0123456789"[v] as int == 48 + v
  {
  }

  lemma AlphabetParts(a: string, b: string, c: string, d: string, v: nat)
    requires |a| == |b| == 26 && |c| == 10 && |d| == 2 && v < 64
    ensures (a + b + c + d)[v] ==
      if v < 26 then a[v] else if v < 52 then b[v - 26] else if v < 62 then c[v - 52] else d[v - 62]
  {
  }

  lemma CharIsPlace(v: nat)
    requires v < 64
    ensures |ALPHABET| == 64 && CharOf(v) == ALPHABET[v] as int
  {
    LettersInOrder(0);
    AlphabetParts(CAPITALS, SMALL, "0123456789", "+/", v);
    if v < 26 {
      LettersInOrder(v);
    } else if v < 52 {
      LettersInOrder(v - 26);
    } else if v < 62 {
      FiguresInOrder(v - 52);
    }
  }

  /** A character's value is its place in the alphabet; what is not there has none. */
  lemma ValueIsPlace(c: byte, v: nat)
    requires v < 64
    ensures |ALPHABET| == 64 && (Value(c) == v <==> c == ALPHABET[v] as int)
    ensures Value(c) < 64 || Value(c) == NONE
  {
    CharIsPlace(v);
    CharValue(v);
    if Value(c) == v {
      ValueChar(c);
    }
  }

  /** Tab, line feed, carriage return and blank, and no other character, are as good as not there. */
  lemma Skipped(a: seq<byte>, c: byte, b: seq<byte>)
    ensures Strip(a + [c] + b) == Strip(a) + (if c in {9, 10, 13, 32} then [] else [c]) + Strip(b)
  {
    StripConcat(a + [c], b);
    StripConcat(a, [c]);
    assert [c][1..] == [];
  }

  /** Wherever it is, a character that is neither skipped, nor in the alphabet, nor an equals sign is refused. */
  lemma Refused(a: seq<byte>, c: byte, b: seq<byte>)
    requires c !in {9, 10, 13, 32, '=' as int} && forall v :: 0 <= v < 64 ==> c != ALPHABET[v] as int
    ensures !Accepts(a + [c] + b)
  {
    var s := a + [c] + b;
    assert s[|a|] == c;
    if Value(c) != NONE {
      ValueIsPlace(c, Value(c));
      assert false;
    }
  }

  /** Equals signs are refused but at the end, where at most two of them are taken for padding. */
  lemma PadRefused(a: seq<byte>, b: seq<byte>)
    requires b != [] && b != ['=' as int]
    ensures !Accepts(a + ['=' as int] + b)
  {
    var s := a + [PAD] + b;
    assert s[|a|] == PAD && s[|s| - 1] == b[|b| - 1] && |a| < |s| - Pads(s);
  }

  /** The three bytes of a full quad and its four values are the same number. */
  lemma QuadIsNumber(a: nat, b: nat, c: nat, d: nat)
    requires a < 64 && b < 64 && c < 64 && d < 64
    ensures var q := Quad(a, b, c, d);
      |q| == 3 && (q[0] as int) * 65536 + (q[1] as int) * 256 + q[2] as int == a * 262144 + b * 4096 + c * 64 + d
  {
    assert a * 4 % 256 == a * 4 && b / 16 % 4 == b / 16;
    assert b % 16 * 16 + c / 4 % 16 == b % 16 * 16 + c / 4;
    assert b == b / 16 * 16 + b % 16 && c == c / 4 * 4 + c % 4;
  }

  /** The bytes of a padded quad are the first ones of the same quad with zeros for the missing values. */
  lemma PaddedQuadIsFirst(a: nat, b: nat, c: nat)
    requires a < 64 && b < 64 && c < 64
    ensures Quad(a, b, NONE, NONE) == Quad(a, b, 0, 0)[..1]
    ensures Quad(a, b, c, NONE) == Quad(a, b, c, 0)[..2]
  {
  }
}
