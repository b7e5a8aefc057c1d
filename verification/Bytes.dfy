/**
 Bytes, options, small numeric helpers and the plain byte-array file.
 A plain file is what the I/O scheduler must be indistinguishable from: `Overlay` is a write,
 `Resize` a truncate or an extension with zeros, and `Slice` a read that stops at end of file.
 */
module Bytes {

  type byte = x: int | 0 <= x < 256

  const SLASH: byte := 47

  datatype Option<+T> = None | Some(value: T)

  function One(b: bool): (n: int)
    ensures 0 <= n <= 1
  {
    if b then 1 else 0
  }

  function Min(a: int, b: int): (m: int)
    ensures m <= a && m <= b && (m == a || m == b)
  {
    if a <= b then a else b
  }

  function Max(a: int, b: int): (m: int)
    ensures m >= a && m >= b && (m == a || m == b)
  {
    if a >= b then a else b
  }

  function Zeros(n: nat): seq<byte> {
    seq(n, _ => 0)
  }

  /** The file `f` after writing `d` at offset `o`; a gap before `o` reads as zeros. */
  function Overlay(f: seq<byte>, o: nat, d: seq<byte>): (r: seq<byte>)
    ensures |r| == if d == [] then |f| else Max(|f|, o + |d|)
    ensures forall x :: 0 <= x < |r| ==>
      r[x] == if o <= x < o + |d| then d[x - o] else if x < |f| then f[x] else 0
  {
    if d == [] then f
    else
      var g := if |f| < o then f + Zeros(o - |f|) else f;
      g[..o] + d + (if o + |d| < |g| then g[o + |d|..] else [])
  }

  /** The file `f` cut or zero-extended to `n` bytes. */
  function Resize(f: seq<byte>, n: nat): (r: seq<byte>)
    ensures |r| == n
    ensures forall x :: 0 <= x < n ==> r[x] == if x < |f| then f[x] else 0
  {
    if n <= |f| then f[..n] else f + Zeros(n - |f|)
  }

  /** What reading `n` bytes at offset `o` returns. */
  function Slice(f: seq<byte>, o: nat, n: nat): (r: seq<byte>)
    ensures |r| == Min(n, Max(0, |f| - o))
    ensures forall x :: 0 <= x < |r| ==> r[x] == f[o + x]
  {
    if o >= |f| then [] else f[o..Min(|f|, o + n)]
  }

  /** Writing two adjacent pieces is writing them joined. */
  lemma OverlayJoin(f: seq<byte>, o: nat, d: seq<byte>, e: seq<byte>)
    ensures Overlay(Overlay(f, o, d), o + |d|, e) == Overlay(f, o, d + e)
  {
    if d == [] {
      assert d + e == e;
    } else if e == [] {
      assert d + e == d;
    }
    assert |Overlay(Overlay(f, o, d), o + |d|, e)| == |Overlay(f, o, d + e)|;
  }
}
