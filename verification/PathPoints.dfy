/**
 The length of a name as the tree counts it (src/libltfs/pathname.c: pathname_strlen): the code points
 of its UTF-8 text, section 3 of RFC 3629, of which 255 are allowed.
 */
module PathPoints {
  import opened Bytes
  import opened Paths
  import DentryTree

  /** The bytes of one code point. */
  function Utf8(p: nat): (b: seq<byte>)
    requires p < 0x11_0000
    ensures 1 <= |b| <= 4
  {
    if p < 0x80 then [p]
    else if p < 0x800 then [0xc0 + p / 64, 0x80 + p % 64]
    else if p < 0x1_0000 then [0xe0 + p / 4096, 0x80 + p / 64 % 64, 0x80 + p % 64]
    else [0xf0 + p / 262144, 0x80 + p / 4096 % 64, 0x80 + p / 64 % 64, 0x80 + p % 64]
  }

  predicate CodePoints(t: seq<nat>) {
    forall i :: 0 <= i < |t| ==> t[i] < 0x11_0000
  }

  function Utf8Text(t: seq<nat>): seq<byte>
    requires CodePoints(t)
  {
    if t == [] then [] else Utf8(t[0]) + Utf8Text(t[1..])
  }

  lemma {:induction false} PointsConcat(a: seq<byte>, b: seq<byte>)
    ensures Points(a + b) == Points(a) + Points(b)
  {
    if a == [] {
      assert a + b == b;
    } else {
      assert (a + b)[1..] == a[1..] + b;
      PointsConcat(a[1..], b);
    }
  }

  lemma Continuation(b: seq<byte>)
    requires b != [] && (b[0] < 0x80 || 0xc0 <= b[0]) && forall i :: 1 <= i < |b| ==> 0x80 <= b[i] < 0xc0
    requires |b| <= 4
    ensures Points(b) == 1
  {
    assert Points(b[1..]) == 0 by {
      NoPoints(b[1..]);
    }
  }

  lemma {:induction false} NoPoints(b: seq<byte>)
    requires forall i :: 0 <= i < |b| ==> 0x80 <= b[i] < 0xc0
    ensures Points(b) == 0
  {
    if b != [] {
      NoPoints(b[1..]);
    }
  }

  /** A name's length is the number of code points it is the text of. */
  lemma {:induction false} PointsCount(t: seq<nat>)
    requires CodePoints(t)
    ensures Points(Utf8Text(t)) == |t|
  {
    if t != [] {
      Continuation(Utf8(t[0]));
      PointsCount(t[1..]);
      PointsConcat(Utf8(t[0]), Utf8Text(t[1..]));
    }
  }

  /** Any bytes, well-formed or not: every byte counts but those from 0x80 to 0xbf. */
  lemma PointsOfByte(a: seq<byte>, c: byte, b: seq<byte>)
    ensures Points(a + [c] + b) == Points(a + b) + if 0x80 <= c <= 0xbf then 0 else 1
  {
    PointsConcat(a + [c], b);
    PointsConcat(a, [c]);
    PointsConcat(a, b);
    assert [c][1..] == [];
  }

  /** Whatever is in the directory, a name is too long from 256 code points on, however many bytes it has. */
  lemma TooLongFrom256(children: map<seq<byte>, DentryTree.Dentry>, t: seq<nat>)
    requires CodePoints(t)
    ensures DentryTree.Look(children, Utf8Text(t)) == DentryTree.TooLong <==> |t| >= 256
  {
    PointsCount(t);
  }

  /** Paths are cut at the character '/' and nowhere else. */
  lemma CutAtSlash(a: seq<byte>, b: seq<byte>)
    requires forall i :: 0 <= i < |a| ==> a[i] != '/' as int
    ensures Split(a) == [a] && Split(a + ['/' as int] + b) == [a] + Split(b)
  {
    SplitOne(a);
    SplitCons(a, b);
  }
}
