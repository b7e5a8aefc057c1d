/**
 unified_read in place (src/iosched/unified.c): the caller's buffer is filled from the requests first,
 with the holes before a request noted down, and from tape afterwards.
 */
module SchedulerRead {
  import opened Bytes
  import opened Requests
  import opened UnifiedRead
  import opened UnifiedDrain
  import opened SchedulerState

  /** A tape read that has to be made for `count` bytes of the buffer from `pos` on. */
  datatype ReadRequest = ReadRequest(pos: nat, offset: nat, count: nat)
  {
    function End(): nat { pos + count }
  }

  /** The queued tape reads: in order, inside the part of the buffer dealt with, where no request has bytes. */
  ghost predicate Queued(holes: seq<ReadRequest>, l: seq<Request>, offset: nat, ret: nat) {
    && (forall j :: 0 <= j < |holes| ==> holes[j].offset == offset + holes[j].pos && holes[j].End() <= ret)
    && (forall j, k :: 0 <= j < k < |holes| ==> holes[j].End() <= holes[k].pos)
    && (forall j :: 0 <= j < |holes| ==> Free(holes[j], l))
  }

  ghost predicate Free(h: ReadRequest, l: seq<Request>) {
    forall x: nat :: h.offset <= x < h.offset + h.count ==> Lookup(l, x) == None
  }

  predicate InHole(h: ReadRequest, k: nat) {
    h.pos <= k < h.End()
  }

  /** Byte `k` of the buffer waits for a tape read. */
  ghost predicate Waiting(holes: seq<ReadRequest>, from: nat, k: nat) {
    exists j :: from <= j < |holes| && InHole(holes[j], k)
  }

  /** Every byte dealt with is right, or waits for one of the tape reads from `from` on. */
  ghost predicate Settled(b: seq<byte>, l: seq<Request>, tape: seq<byte>, offset: nat, ret: nat,
    holes: seq<ReadRequest>, from: nat)
  {
    ret <= |b| && forall k :: 0 <= k < ret && !Waiting(holes, from, k) ==> b[k] == At(l, tape, offset + k)
  }

  /** What one tape read leaves in its part of the buffer: the tape's bytes, then zeros. */
  function OffTape(tape: seq<byte>, x: nat): byte {
    if x < |tape| then tape[x] else 0
  }

  lemma AddHole(b: seq<byte>, l: seq<Request>, tape: seq<byte>, offset: nat, ret: nat, holes: seq<ReadRequest>, n: nat)
    requires Queued(holes, l, offset, ret) && Settled(b, l, tape, offset, ret, holes, 0) && ret + n <= |b|
    requires Free(ReadRequest(ret, offset + ret, n), l)
    ensures var more := holes + [ReadRequest(ret, offset + ret, n)];
      Queued(more, l, offset, ret + n) && Settled(b, l, tape, offset, ret + n, more, 0)
  {
    var h := ReadRequest(ret, offset + ret, n);
    var more := holes + [h];
    forall k | 0 <= k < ret + n && !Waiting(more, 0, k) ensures b[k] == At(l, tape, offset + k) {
      assert !InHole(more[|holes|], k);
      forall j | 0 <= j < |holes| ensures !InHole(holes[j], k) {
        assert more[j] == holes[j];
      }
    }
  }

  /** Bytes before request `i` and after all earlier ones belong to no request. */
  lemma GapIsFree(l: seq<Request>, i: nat, pos: nat, off: nat, n: nat)
    requires Disjoint(l) && i < |l| && off + n <= l[i].offset && forall j :: 0 <= j < i ==> l[j].End() <= off
    ensures Free(ReadRequest(pos, off, n), l)
  {
    forall x: nat | off <= x < off + n ensures Lookup(l, x) == None {
      forall j | 0 <= j < |l| ensures !l[j].Covers(x) {
        assert j > i ==> l[i].End() <= l[j].offset;
      }
      LookupNone(l, x);
    }
  }

  method CopyOut(buf: array<byte>, ret: nat, r: Request, off: nat, n: nat)
    requires ret + n <= buf.Length && r.offset <= off && off + n <= r.End()
    modifies buf
    ensures forall k :: 0 <= k < buf.Length ==>
      buf[k] == if ret <= k < ret + n then r.data[off - r.offset + (k - ret)] else old(buf[k])
  {
    var k := 0;
    while k < n
      invariant 0 <= k <= n
      invariant forall m :: 0 <= m < buf.Length ==>
        buf[m] == if ret <= m < ret + k then r.data[off - r.offset + (m - ret)] else old(buf[m])
    {
      buf[ret + k] := r.data[off - r.offset + k];
      k := k + 1;
    }
  }

  /** Bytes of a request are the file's bytes. */
  lemma CopySettles(b: seq<byte>, b': seq<byte>, l: seq<Request>, i: nat, tape: seq<byte>, offset: nat, ret: nat,
    holes: seq<ReadRequest>, n: nat)
    requires Disjoint(l) && i < |l| && Queued(holes, l, offset, ret) && Settled(b, l, tape, offset, ret, holes, 0)
    requires |b'| == |b| && ret + n <= |b| && l[i].offset <= offset + ret && offset + ret + n <= l[i].End()
    requires forall k :: 0 <= k < |b| ==>
      b'[k] == if ret <= k < ret + n then l[i].data[offset + ret - l[i].offset + (k - ret)] else b[k]
    ensures Queued(holes, l, offset, ret + n) && Settled(b', l, tape, offset, ret + n, holes, 0)
  {
    forall k | 0 <= k < ret + n && !Waiting(holes, 0, k) ensures b'[k] == At(l, tape, offset + k) {
      if k >= ret {
        LookupCovered(l, i, offset + k);
      }
    }
  }

  /** How far the read got. */
  datatype Progress = Progress(ret: nat, off: nat, left: nat, holes: seq<ReadRequest>)

  ghost predicate Scanned(b: seq<byte>, l: seq<Request>, tape: seq<byte>, offset: nat, size: nat, p: Progress) {
    && p.ret + p.left == size && p.off == offset + p.ret
    && (p.ret == 0 || p.off <= Size(l, tape))
    && Queued(p.holes, l, offset, p.ret) && Settled(b, l, tape, offset, p.ret, p.holes, 0)
  }

  /** The hole before a request, or as much of it as was asked for. */
  method ScanGap(l: seq<Request>, i: nat, p: Progress, ghost b: seq<byte>, ghost tape: seq<byte>,
    ghost offset: nat, ghost size: nat) returns (v: Progress)
    requires Disjoint(l) && i < |l| && size <= |b| && p.left > 0 && p.off < l[i].offset
    requires Scanned(b, l, tape, offset, size, p) && forall j :: 0 <= j < i ==> l[j].End() <= p.off
    ensures Scanned(b, l, tape, offset, size, v) && v.off >= p.off && (v.left > 0 ==> v.off == l[i].offset)
  {
    SizeBound(l, tape);
    var n := Min(l[i].offset - p.off, p.left);
    GapIsFree(l, i, p.ret, p.off, n);
    AddHole(b, l, tape, offset, p.ret, p.holes, n);
    v := Progress(p.ret + n, p.off + n, p.left - n, p.holes + [ReadRequest(p.ret, p.off, n)]);
  }

  /** The bytes of a request, or as many as were asked for. */
  method ScanBytes(l: seq<Request>, i: nat, buf: array<byte>, p: Progress, ghost tape: seq<byte>,
    ghost offset: nat, ghost size: nat) returns (v: Progress)
    requires Disjoint(l) && i < |l| && size <= buf.Length && p.left > 0 && l[i].Covers(p.off)
    requires Scanned(buf[..], l, tape, offset, size, p)
    modifies buf
    ensures Scanned(buf[..], l, tape, offset, size, v) && v.off >= p.off && (v.left > 0 ==> v.off == l[i].End())
  {
    SizeBound(l, tape);
    var n := Min(l[i].End() - p.off, p.left);
    ghost var b := buf[..];
    CopyOut(buf, p.ret, l[i], p.off, n);
    CopySettles(b, buf[..], l, i, tape, offset, p.ret, p.holes, n);
    v := Progress(p.ret + n, p.off + n, p.left - n, p.holes);
  }

  /** One request of the loop. */
  method ScanRequest(l: seq<Request>, i: nat, buf: array<byte>, p: Progress,
    ghost tape: seq<byte>, ghost offset: nat, ghost size: nat) returns (v: Progress)
    requires Disjoint(l) && i < |l| && size <= buf.Length && p.left > 0
    requires Scanned(buf[..], l, tape, offset, size, p) && forall j :: 0 <= j < i ==> l[j].End() <= p.off
    modifies buf
    ensures Scanned(buf[..], l, tape, offset, size, v)
    ensures v.left > 0 ==> forall j :: 0 <= j < i + 1 ==> l[j].End() <= v.off
  {
    v := p;
    if v.off < l[i].offset {
      v := ScanGap(l, i, v, buf[..], tape, offset, size);
      if v.left == 0 {
        return;
      }
    }
    if v.off < l[i].End() {
      v := ScanBytes(l, i, buf, v, tape, offset, size);
    }
  }

  /** One tape read, or none once an earlier one came up short; what it does not give is zeros. */
  method FillHole(tape: seq<byte>, buf: array<byte>, h: ReadRequest, pastEof: bool) returns (short: bool)
    requires h.End() <= buf.Length && (pastEof ==> |tape| <= h.offset)
    modifies buf
    ensures forall k :: 0 <= k < buf.Length ==>
      buf[k] == if InHole(h, k) then OffTape(tape, h.offset + (k - h.pos)) else old(buf[k])
    ensures short ==> |tape| <= h.offset + h.count
  {
    var got := if pastEof then [] else Slice(tape, h.offset, h.count);
    short := pastEof || |got| < h.count;
    var k := 0;
    while k < h.count
      invariant 0 <= k <= h.count
      invariant forall m :: 0 <= m < buf.Length ==>
        buf[m] == if h.pos <= m < h.pos + k then OffTape(tape, h.offset + (m - h.pos)) else old(buf[m])
    {
      buf[h.pos + k] := if k < |got| then got[k] else 0;
      k := k + 1;
    }
  }

  lemma FillSettles(b: seq<byte>, b': seq<byte>, l: seq<Request>, tape: seq<byte>, offset: nat, ret: nat,
    holes: seq<ReadRequest>, j: nat)
    requires Queued(holes, l, offset, ret) && Settled(b, l, tape, offset, ret, holes, j) && j < |holes| && |b'| == |b|
    requires forall k :: 0 <= k < |b| ==>
      b'[k] == if InHole(holes[j], k) then OffTape(tape, holes[j].offset + (k - holes[j].pos)) else b[k]
    ensures Settled(b', l, tape, offset, ret, holes, j + 1)
  {
    forall k | 0 <= k < ret && !Waiting(holes, j + 1, k) ensures b'[k] == At(l, tape, offset + k) {
      if InHole(holes[j], k) {
        assert Free(holes[j], l);
      } else {
        assert !Waiting(holes, j, k);
      }
    }
  }

  method FillHoles(l: seq<Request>, tape: seq<byte>, buf: array<byte>, holes: seq<ReadRequest>,
    ghost offset: nat, ghost ret: nat)
    requires Queued(holes, l, offset, ret) && Settled(buf[..], l, tape, offset, ret, holes, 0)
    modifies buf
    ensures Settled(buf[..], l, tape, offset, ret, holes, |holes|)
  {
    var j, pastEof := 0, false;
    while j < |holes|
      invariant 0 <= j <= |holes| && Settled(buf[..], l, tape, offset, ret, holes, j)
      invariant pastEof && j < |holes| ==> |tape| <= holes[j].offset
    {
      ghost var b := buf[..];
      pastEof := FillHole(tape, buf, holes[j], pastEof);
      FillSettles(b, buf[..], l, tape, offset, ret, holes, j);
      j := j + 1;
    }
  }

  /** The bytes dealt with and those the tape has after them are all the file has. */
  lemma ReadLength(l: seq<Request>, tape: seq<byte>, offset: nat, size: nat, p: Progress)
    requires p.ret + p.left == size && p.off == offset + p.ret && (p.ret == 0 || p.off <= Size(l, tape))
    requires p.left > 0 ==> forall j :: 0 <= j < |l| ==> l[j].End() <= p.off
    ensures |Slice(View(l, tape), offset, size)| == p.ret + |Slice(tape, p.off, p.left)|
  {
    SizeBound(l, tape);
    if p.left > 0 {
      SizeAtMost(l, tape, Max(|tape|, p.off));
    }
  }

  /** Past the last request the file is the tape file. */
  lemma TailIsTape(l: seq<Request>, tape: seq<byte>, x: nat)
    requires x < |tape| && forall j :: 0 <= j < |l| ==> l[j].End() <= x
    ensures At(l, tape, x) == tape[x]
  {
    LookupNone(l, x);
  }

  lemma TailSettles(b: seq<byte>, l: seq<Request>, tape: seq<byte>, offset: nat, size: nat, p: Progress, n: nat)
    requires p.ret + p.left == size && p.off == offset + p.ret && (p.ret == 0 || p.off <= Size(l, tape))
    requires p.left > 0 ==> forall j :: 0 <= j < |l| ==> l[j].End() <= p.off
    requires Settled(b, l, tape, offset, p.ret, p.holes, |p.holes|)
    requires n == |Slice(tape, p.off, p.left)| && p.ret + n <= |b|
    requires forall m :: p.ret <= m < p.ret + n ==> b[m] == tape[offset + m]
    ensures b[..p.ret + n] == Slice(View(l, tape), offset, size)
  {
    ReadLength(l, tape, offset, size, p);
    var s := Slice(View(l, tape), offset, size);
    forall k | 0 <= k < p.ret + n ensures b[k] == s[k] {
      assert s[k] == At(l, tape, offset + k);
      if k < p.ret {
        assert !Waiting(p.holes, |p.holes|, k);
      } else {
        TailIsTape(l, tape, offset + k);
      }
    }
  }

  /**
   unified_read: the bytes returned are exactly those of the file from `offset` on, at most `size` of
   them, stopping where the file ends.
   */
  method ReadHere(f: DentryPriv, buf: array<byte>, size: nat, offset: nat) returns (ret: nat)
    requires Disjoint(f.requests) && size <= buf.Length
    modifies buf
    ensures ret <= size && buf[..ret] == Slice(View(f.requests, f.tape), offset, size)
  {
    var l := f.requests;
    var p := Progress(0, offset, size, []);
    var i := 0;
    while i < |l| && p.left > 0
      invariant 0 <= i <= |l| && Scanned(buf[..], l, f.tape, offset, size, p)
      invariant p.left > 0 ==> forall j :: 0 <= j < i ==> l[j].End() <= p.off
    {
      p := ScanRequest(l, i, buf, p, f.tape, offset, size);
      i := i + 1;
    }
    FillHoles(l, f.tape, buf, p.holes, offset, p.ret);
    var got := Slice(f.tape, p.off, p.left);
    ghost var b := buf[..];
    var k := 0;
    while k < |got|
      invariant 0 <= k <= |got|
      invariant forall m :: 0 <= m < buf.Length ==>
        buf[m] == if p.ret <= m < p.ret + k then f.tape[offset + m] else b[m]
    {
      buf[p.ret + k] := got[k];
      k := k + 1;
    }
    TailSettles(buf[..], l, f.tape, offset, size, p, |got|);
    ret := p.ret + |got|;
  }
}
