/**
 The three primitive changes to a request list: _unified_insert_new_request,
 _unified_update_request and _unified_merge_requests (src/iosched/unified.c).
 `c` is the cache block size throughout.
 */
module RequestOps {
  import opened Bytes
  import opened Requests

  function Remove(l: seq<Request>, i: nat): seq<Request>
    requires i < |l|
  {
    l[..i] + l[i + 1..]
  }

  function InsertAt(l: seq<Request>, i: nat, r: Request): seq<Request>
    requires i <= |l|
  {
    l[..i] + [r] + l[i..]
  }

  /** A fresh request for the first block of `d`; the rest of `d` is not stored. */
  function NewRequest(o: nat, d: seq<byte>, c: nat): Request {
    var copy := d[..Min(|d|, c)];
    Request(o, copy, if |copy| == c then DP else Partial)
  }

  function PromoteOne(r: Request, o: nat): Request {
    if r.state == Partial && r.offset <= o then r.(state := DP) else r
  }

  /** Every partial request that starts at or before `o` becomes ready for the data partition. */
  function Promote(l: seq<Request>, o: nat): (m: seq<Request>)
    ensures |m| == |l|
    ensures forall j :: 0 <= j < |l| ==> m[j] == PromoteOne(l[j], o)
  {
    seq(|l|, j requires 0 <= j < |l| => PromoteOne(l[j], o))
  }

  /** How many bytes written at `o` fit into the cache block of `r`. */
  function Room(r: Request, o: nat, c: nat): nat
    requires r.offset <= o <= r.offset + c
  {
    r.offset + c - o
  }

  function Patch(data: seq<byte>, at: nat, d: seq<byte>): (r: seq<byte>)
    requires at <= |data|
    ensures |r| == Max(|data|, at + |d|)
    ensures forall x :: 0 <= x < |r| ==> r[x] == if at <= x < at + |d| then d[x - at] else data[x]
  {
    data[..at] + d + (if at + |d| < |data| then data[at + |d|..] else [])
  }

  /** Request `l[i]` after copying into it as much of `d`, at offset `o`, as fits. */
  function Updated(r: Request, o: nat, d: seq<byte>, c: nat): Request
    requires r.offset <= o <= r.End() <= r.offset + c
  {
    r.(data := Patch(r.data, o - r.offset, d[..Min(Room(r, o, c), |d|)]))
  }

  /** _unified_update_request on the whole list: the copy, then the promotion if it filled a block. */
  function Update(l: seq<Request>, i: nat, o: nat, d: seq<byte>, c: nat): (m: seq<Request>)
    requires i < |l| && l[i].offset <= o <= l[i].End() <= l[i].offset + c
    ensures |m| == |l|
    ensures forall j :: 0 <= j < |l| && j != i ==> m[j].offset == l[j].offset && m[j].data == l[j].data
    ensures m[i].offset == l[i].offset && m[i].data == Updated(l[i], o, d, c).data
    ensures forall j :: 0 <= j < |l| ==> (m[j].state == IP <==> l[j].state == IP)
  {
    var r := Updated(l[i], o, d, c);
    if d != [] && l[i].state == Partial && |r.data| == c then Promote(l[i := r], o) else l[i := r]
  }

  /** How many bytes _unified_update_request consumes. */
  function Taken(r: Request, o: nat, d: seq<byte>, c: nat): (k: nat)
    requires r.offset <= o <= r.offset + c
    ensures k <= |d|
  {
    Min(Room(r, o, c), |d|)
  }

  /** Bytes move only between requests for the same partition, and only if there is room. */
  predicate MayMove(dest: Request, src: Request, c: nat)
    requires src.offset <= dest.End()
  {
    && !(dest.state != src.state && (dest.state == IP || src.state == IP))
    && |dest.data| < c
    && |src.data| > dest.End() - src.offset
  }

  /** The source bytes past the destination's end that move into the destination. */
  function Moved(dest: Request, src: Request, c: nat): (d: seq<byte>)
    requires src.offset <= dest.End()
    ensures |dest.data| <= c ==> |dest.data + d| <= c
    ensures d != [] ==> dest.End() - src.offset + |d| <= |src.data|
  {
    if MayMove(dest, src, c) then
      var rest := src.data[dest.End() - src.offset..];
      rest[..Min(c - |dest.data|, |rest|)]
    else []
  }

  function AfterMove(l: seq<Request>, p: nat, i: nat, c: nat): (m: seq<Request>)
    requires p < i < |l| && |l[p].data| <= c && l[i].offset <= l[p].End()
    ensures |m| == |l|
    ensures m[p].offset == l[p].offset && m[p].data == l[p].data + Moved(l[p], l[i], c)
    ensures forall j :: 0 <= j < |l| && j != p ==> m[j].offset == l[j].offset && m[j].data == l[j].data
    ensures forall j :: 0 <= j < |l| ==> (m[j].state == IP <==> l[j].state == IP)
  {
    if MayMove(l[p], l[i], c) then
      Update(l, p, l[p].End(), l[i].data[l[p].End() - l[i].offset..], c)
    else l
  }

  datatype Merge = Merge(list: seq<Request>, result: int)

  /** Drops the first `g` bytes of request `i`, or the whole request. */
  function CutFront(l: seq<Request>, i: nat, g: nat): Merge
    requires i < |l|
  {
    var src := l[i];
    if g == 0 then Merge(l, 0)
    else if g < |src.data| then
      Merge(l[i := Request(src.offset + g, src.data[g..], if src.state == DP then Partial else src.state)], 1)
    else Merge(Remove(l, i), 2)
  }

  /**
   _unified_merge_requests of source `l[i]` into destination `l[p]`. The result is 2 if the
   source is gone, 1 if it was cut, 0 if it was left alone.
   */
  function MergeAt(l: seq<Request>, p: nat, i: nat, c: nat): (m: Merge)
    requires p < i < |l| && |l[p].data| <= c
  {
    if l[i].offset > l[p].End() then Merge(l, 0)
    else CutFront(AfterMove(l, p, i, c), i, l[p].End() - l[i].offset + |Moved(l[p], l[i], c)|)
  }

  // ---- What they do to the file ----

  lemma {:induction false} LookupSameData(l: seq<Request>, m: seq<Request>, x: nat)
    requires |l| == |m|
    requires forall j :: 0 <= j < |l| ==> l[j].offset == m[j].offset && l[j].data == m[j].data
    ensures Lookup(l, x) == Lookup(m, x)
  {
    if l != [] {
      LookupSameData(l[1..], m[1..], x);
    }
  }

  /** An update at `o` overlays the bytes it takes, when no earlier request reaches past `o`. */
  lemma LookupUpdate(l: seq<Request>, i: nat, o: nat, d: seq<byte>, c: nat, x: nat)
    requires i < |l| && l[i].offset <= o <= l[i].End() <= l[i].offset + c
    requires forall j :: 0 <= j < i ==> l[j].End() <= o
    ensures var k := Taken(l[i], o, d, c);
      Lookup(Update(l, i, o, d, c), x) == if o <= x < o + k then Some(d[x - o]) else Lookup(l, x)
  {
    var m := Update(l, i, o, d, c);
    LookupAt(l, i, x);
    LookupAt(m, i, x);
    LookupSameData(l[..i], m[..i], x);
    LookupSameData(l[i + 1..], m[i + 1..], x);
    if o <= x {
      LookupNone(l[..i], x);
    }
  }

  lemma LookupInsert(l: seq<Request>, i: nat, r: Request, x: nat)
    requires i <= |l|
    requires forall j :: 0 <= j < i ==> l[j].End() <= r.offset
    ensures Lookup(InsertAt(l, i, r), x) ==
      if r.Covers(x) then Some(r.data[x - r.offset]) else Lookup(l, x)
  {
    var m := InsertAt(l, i, r);
    LookupAt(m, i, x);
    assert m[..i] == l[..i] && m[i + 1..] == l[i..];
    LookupConcat(l[..i], l[i..], x);
    assert l == l[..i] + l[i..];
    if r.Covers(x) {
      LookupNone(l[..i], x);
    }
  }

  lemma LookupCut(l: seq<Request>, i: nat, g: nat, x: nat)
    requires i < |l|
    requires forall y: nat :: l[i].offset <= y < l[i].offset + g ==> Lookup(l[..i], y).Some?
    ensures Lookup(CutFront(l, i, g).list, x) == Lookup(l, x)
  {
    var m := CutFront(l, i, g).list;
    LookupAt(l, i, x);
    if 0 < g {
      if g < |l[i].data| {
        LookupAt(m, i, x);
        assert m[..i] == l[..i] && m[i + 1..] == l[i + 1..];
      } else {
        LookupConcat(l[..i], l[i + 1..], x);
      }
    }
  }

  lemma LookupMove(l: seq<Request>, i: nat, c: nat, x: nat)
    requires 0 < i < |l| && |l[i - 1].data| <= c
    requires l[i - 1].offset <= l[i].offset <= l[i - 1].End()
    ensures Lookup(AfterMove(l, i - 1, i, c), x) == Lookup(l, x)
  {
    var m := AfterMove(l, i - 1, i, c);
    LookupAt(l, i - 1, x);
    LookupAt(m, i - 1, x);
    LookupSameData(l[..i - 1], m[..i - 1], x);
    LookupSameData(l[i..], m[i..], x);
    LookupAt(l[i..], 0, x);
  }

  /** Merging a request into its immediate predecessor never changes what the list holds. */
  lemma LookupMerge(l: seq<Request>, i: nat, c: nat, x: nat)
    requires 0 < i < |l| && Sized(l, c)
    requires l[i - 1].offset <= l[i].offset
    ensures Lookup(MergeAt(l, i - 1, i, c).list, x) == Lookup(l, x)
  {
    if l[i].offset <= l[i - 1].End() {
      var m := AfterMove(l, i - 1, i, c);
      LookupMove(l, i, c, x);
      var g := l[i - 1].End() - l[i].offset + |Moved(l[i - 1], l[i], c)|;
      forall y: nat | l[i].offset <= y < l[i].offset + g ensures Lookup(m[..i], y).Some? {
        assert m[..i][i - 1] == m[i - 1];
        LookupAt(m[..i], i - 1, y);
      }
      LookupCut(m, i, g, x);
    }
  }

  /** Request `a` has the place and the bytes of `b`, whatever their states. */
  predicate SameBytes(a: Request, b: Request) {
    a.offset == b.offset && a.data == b.data
  }

  /**
   What a merge leaves behind. The source is gone, or it starts at or after the destination's
   end and keeps its own end; the destination keeps its offset and never shrinks; no third
   request changes its bytes; the bounds on every request are kept.
   */
  ghost predicate Merged(l: seq<Request>, p: nat, i: nat, c: nat, m: Merge)
    requires p < i < |l|
  {
    && m.result in {0, 1, 2}
    && |m.list| == (if m.result == 2 then |l| - 1 else |l|)
    && m.list[p].offset == l[p].offset
    && m.list[p].End() >= l[p].End()
    && (m.list[p].End() == l[p].End() || m.list[p].End() <= l[i].End())
    && (m.result == 2 ==> l[i].End() <= m.list[p].End())
    && (m.result != 2 ==> m.list[p].End() <= m.list[i].offset
                          && m.list[i].offset >= l[i].offset
                          && m.list[i].End() == l[i].End())
    && (forall j :: 0 <= j < i && j != p ==> SameBytes(m.list[j], l[j]))
    && (m.result == 2 ==> forall j :: i <= j < |m.list| ==> SameBytes(m.list[j], l[j + 1]))
    && (m.result != 2 ==> forall j :: i < j < |l| ==> SameBytes(m.list[j], l[j]))
    && Sized(m.list, c)
  }

  /** Once the destination has taken what it can, cutting what it covers off the source is all that is left. */
  lemma CutIsMerged(l: seq<Request>, n: seq<Request>, p: nat, i: nat, c: nat, g: nat)
    requires p < i < |l| == |n| && Sized(n, c) && l[i].offset + g == n[p].End()
    requires n[p].offset == l[p].offset && n[p].End() >= l[p].End()
    requires n[p].End() == l[p].End() || n[p].End() <= l[i].End()
    requires forall j :: 0 <= j < |l| && j != p ==> SameBytes(n[j], l[j])
    ensures Merged(l, p, i, c, CutFront(n, i, g))
  {
  }

  lemma MergeIsMerged(l: seq<Request>, p: nat, i: nat, c: nat)
    requires p < i < |l| && Sized(l, c)
    ensures Merged(l, p, i, c, MergeAt(l, p, i, c))
  {
    if l[i].offset <= l[p].End() {
      var n := AfterMove(l, p, i, c);
      assert Sized(n, c);
      CutIsMerged(l, n, p, i, c, l[p].End() - l[i].offset + |Moved(l[p], l[i], c)|);
    }
  }

  lemma MergeNoFull(l: seq<Request>, p: nat, i: nat, c: nat)
    requires p < i < |l| && Sized(l, c) && NoFullPartial(l, c)
    ensures NoFullPartial(MergeAt(l, p, i, c).list, c)
  {
    if l[i].offset <= l[p].End() {
      var m := AfterMove(l, p, i, c);
      assert NoFullPartial(m, c);
    }
  }

  lemma UpdateNoFull(l: seq<Request>, i: nat, o: nat, d: seq<byte>, c: nat)
    requires i < |l| && l[i].offset <= o <= l[i].End() <= l[i].offset + c
    requires Sized(l, c) && NoFullPartial(l, c)
    ensures Sized(Update(l, i, o, d, c), c) && NoFullPartial(Update(l, i, o, d, c), c)
  {
    assert d == [] ==> Updated(l[i], o, d, c).data == l[i].data;
  }

  /** A request made of two adjacent pieces of tape is on tape, and so is any piece of one. */
  lemma OnTapeJoin(r: Request, d: seq<byte>, tape: seq<byte>)
    requires OnTape(r, tape) && r.End() + |d| <= |tape| && tape[r.End()..r.End() + |d|] == d
    ensures OnTape(r.(data := r.data + d), tape)
  {
    assert tape[r.offset..r.End() + |d|] == tape[r.offset..r.End()] + tape[r.End()..r.End() + |d|];
  }

  lemma SliceOfSlice(s: seq<byte>, lo: nat, hi: nat, a: nat, b: nat)
    requires lo <= hi <= |s| && a <= b <= hi - lo
    ensures s[lo..hi][a..b] == s[lo + a..lo + b]
  {
    var x, y := s[lo..hi][a..b], s[lo + a..lo + b];
    forall k | 0 <= k < |x| ensures x[k] == y[k] {
      assert x[k] == s[lo..hi][a + k] == s[lo + a + k];
    }
    assert x == y;
  }

  lemma OnTapePart(r: Request, a: nat, b: nat, tape: seq<byte>)
    requires OnTape(r, tape) && a <= b <= |r.data|
    ensures r.offset + b <= |tape| && tape[r.offset + a..r.offset + b] == r.data[a..b]
  {
    SliceOfSlice(tape, r.offset, r.End(), a, b);
  }

  lemma MoveIPAgree(l: seq<Request>, p: nat, i: nat, c: nat, tape: seq<byte>)
    requires p < i < |l| && |l[p].data| <= c && l[i].offset <= l[p].End() && IPAgree(l, tape)
    ensures IPAgree(AfterMove(l, p, i, c), tape)
  {
    var dest, src := l[p], l[i];
    var m := AfterMove(l, p, i, c);
    var d := Moved(dest, src, c);
    assert m[p].data == dest.data + d;
    if m[p].state == IP {
      if d != [] {
        var overlap := dest.End() - src.offset;
        assert src.data[overlap..overlap + |d|] == d;
        OnTapePart(src, overlap, overlap + |d|, tape);
        OnTapeJoin(dest, d, tape);
      } else {
        assert dest.data + [] == dest.data;
      }
    }
    assert forall j :: 0 <= j < |l| && j != p ==> SameBytes(m[j], l[j]);
  }

  lemma CutIPAgree(l: seq<Request>, i: nat, g: nat, tape: seq<byte>)
    requires i < |l| && IPAgree(l, tape)
    ensures IPAgree(CutFront(l, i, g).list, tape)
  {
    if l[i].state == IP && g < |l[i].data| {
      OnTapePart(l[i], g, |l[i].data|, tape);
    }
  }

  /** Merging keeps index-partition requests in agreement with the data partition. */
  lemma MergeIPAgree(l: seq<Request>, p: nat, i: nat, c: nat, tape: seq<byte>)
    requires p < i < |l| && |l[p].data| <= c && IPAgree(l, tape)
    ensures IPAgree(MergeAt(l, p, i, c).list, tape)
  {
    if l[i].offset <= l[p].End() {
      MoveIPAgree(l, p, i, c, tape);
      CutIPAgree(AfterMove(l, p, i, c), i, l[p].End() - l[i].offset + |Moved(l[p], l[i], c)|, tape);
    }
  }

  /** A cut source starts where the destination ends, and a full destination takes nothing. */
  lemma MergeEnds(l: seq<Request>, p: nat, i: nat, c: nat)
    requires p < i < |l| && Sized(l, c)
    ensures var m := MergeAt(l, p, i, c);
      && (m.result == 1 ==> m.list[i].offset == m.list[p].End())
      && (|l[p].data| == c ==> m.list[p] == l[p])
  {
  }
}
