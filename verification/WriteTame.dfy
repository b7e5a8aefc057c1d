/**
 A condition a caller can check before calling unified_write: tame writes are clean. With it, the
 write that shows the condition is needed.
 */
module WriteTame {
  import opened Bytes
  import opened Requests
  import opened RequestOps
  import opened WriteWalk
  import opened WriteTidy
  import opened UnifiedWrite
  import opened WriteExact

  /** Two index-partition requests touch at `o`, and the first has room for bytes of the second. */
  predicate Seam(a: Request, b: Request, o: nat, c: nat) {
    a.state == IP && b.state == IP && a.End() == o == b.offset && |a.data| < c
  }

  /**
   The write fits into one block, every request behind the first one it meets reaches at least
   to its end, and it does not start at the seam of two index-partition requests.
   */
  predicate Tame(l: seq<Request>, o: nat, n: nat, c: nat) {
    && n <= c
    && (forall j, k :: 0 <= j < k < |l| && l[j].End() >= o ==> l[k].End() >= o + n)
    && (forall k :: 0 < k < |l| ==> !Seam(l[k - 1], l[k], o, c))
  }

  /** The requests not yet visited reach to the end `e` of the write, once one was settled. */
  ghost predicate TameAhead(w: Walk, e: nat, c: nat) {
    && w.i <= |w.l| && w.p < w.i && w.o + |w.d| == e && |w.d| <= c
    && (w.p >= 0 ==> forall k :: w.i <= k < |w.l| ==> w.l[k].End() >= e)
    && (w.p < 0 ==> forall j, k :: w.i <= j < k < |w.l| && w.l[j].End() >= w.o ==> w.l[k].End() >= e)
    && (w.d != [] && w.p >= 0 ==>
          w.l[w.p].End() == w.o && (w.l[w.p].state == IP || FullHere(w, c)))
    && (w.d != [] && w.p >= 0 && !FullHere(w, c) && w.i < |w.l| ==>
          w.l[w.i].offset >= w.o && !Seam(w.l[w.p], w.l[w.i], w.o, c))
    && (w.d != [] ==> forall k :: w.i < k < |w.l| ==> !Seam(w.l[k - 1], w.l[k], w.o, c))
  }

  lemma TameMerge(w: Walk, c: nat, e: nat)
    requires Tidy(w, c) && TameAhead(w, e, c) && w.i < |w.l| && w.d != [] && w.p >= 0
    ensures var m := MergeAt(w.l, w.p, w.i, c);
      && m.list[w.p] == w.l[w.p]
      && (m.result == 2 || m.list[w.i].offset <= Max(w.o, w.l[w.i].offset))
      && (m.result == 2 && !FullHere(w, c) ==> false)
  {
  }

  lemma TameIsClean(w: Walk, c: nat, e: nat)
    requires Tidy(w, c) && TameAhead(w, e, c) && w.i < |w.l|
    ensures CleanStep(w, c)
  {
    if w.p >= 0 && w.d != [] {
      TameMerge(w, c, e);
      MergeIsMerged(w.l, w.p, w.i, c);
    }
  }

  lemma TameSettle(w: Walk, c: nat, e: nat)
    requires Tidy(w, c) && TameAhead(w, e, c) && w.i < |w.l| && w.status == Running
    requires w.l[w.i].End() >= w.o
    ensures TameAhead(Settle(w, c), e, c)
  {
    if w.p >= 0 {
      MergeIsMerged(w.l, w.p, w.i, c);
      if w.d != [] {
        TameMerge(w, c, e);
      }
    }
  }

  /** Once the whole write is placed, only the reach of the requests ahead matters. */
  lemma TamePlaced(w: Walk, c: nat, e: nat)
    requires Sane(w, c) && w.d == [] && w.o == e && w.p >= 0 && w.i < |w.l| && w.status == Running
    requires forall k :: w.i < k < |w.l| ==> w.l[k].End() >= e
    ensures TameAhead(Settle(w, c), e, c)
  {
    MergeIsMerged(w.l, w.p, w.i, c);
    var m := MergeAt(w.l, w.p, w.i, c);
    var s := if m.result == 2 then 1 else 0;
    forall k | w.i + 1 - s <= k < |m.list| ensures m.list[k].End() >= e {
      assert SameBytes(m.list[k], w.l[k + s]);
    }
  }

  lemma TameReplace(w: Walk, c: nat, e: nat)
    requires Sane(w, c) && w.i < |w.l| && w.d != [] && w.o < w.l[w.i].offset && 1 <= c && w.status == Running
    requires |w.d| <= c && w.o + |w.d| == e
    requires forall k :: w.i < k < |w.l| ==> w.l[k].End() >= e
    ensures var v := Replace(w, c); v.status != Stalled ==> TameAhead(v, e, c)
  {
    if w.blocks > 0 {
      TamePlaced(InsertBefore(w, c), c, e);
    }
  }

  /** What lies behind the visited request once the write reaches it. */
  ghost predicate TameBehind(w: Walk, e: nat, c: nat) {
    && w.i < |w.l| && w.d != [] && w.o + |w.d| == e && |w.d| <= c && w.p < w.i
    && w.l[w.i].offset <= w.o <= w.l[w.i].End()
    && (forall k :: w.i < k < |w.l| ==> w.l[w.i].End() <= w.l[k].offset && w.l[k].End() >= e)
    && (forall k :: w.i < k < |w.l| ==> !Seam(w.l[k - 1], w.l[k], w.o, c))
    && (w.p >= 0 ==> w.l[w.p].End() == w.o && (w.l[w.p].state == IP || FullHere(w, c)))
  }

  lemma TameUpdate(w: Walk, c: nat, e: nat)
    requires Sane(w, c) && TameBehind(w, e, c) && w.l[w.i].state != IP
    ensures var k := Taken(w.l[w.i], w.o, w.d, c);
      TameAhead(w.(l := Update(w.l, w.i, w.o, w.d, c), p := w.i, i := w.i + 1, o := w.o + k, d := w.d[k..]), e, c)
  {
    var k := Taken(w.l[w.i], w.o, w.d, c);
    var m := Update(w.l, w.i, w.o, w.d, c);
    var v := w.(l := m, p := w.i, i := w.i + 1, o := w.o + k, d := w.d[k..]);
    assert v.d != [] ==> FullHere(v, c);
    forall j | w.i + 1 <= j < |m| && v.d != [] ensures !Seam(m[j - 1], m[j], v.o, c) {
      if j == w.i + 1 {
        assert m[j - 1].state != IP;
      } else {
        SeamLater(w, c, e, j);
      }
    }
  }

  /** No request boundary further down coincides with a position the write has reached in `l[i]`. */
  lemma SeamLater(w: Walk, c: nat, e: nat, j: nat)
    requires Sane(w, c) && TameBehind(w, e, c) && w.i + 1 < j < |w.l|
    ensures w.l[j - 1].End() >= e
  {
  }

  lemma TameRemove(w: Walk, c: nat, e: nat)
    requires Sane(w, c) && TameBehind(w, e, c) && w.l[w.i].Covers(w.o)
    ensures TameAhead(w.(l := Remove(w.l, w.i), blocks := w.blocks + 1), e, c)
  {
    var m := Remove(w.l, w.i);
    forall k | w.i < k < |m| ensures !Seam(m[k - 1], m[k], w.o, c) {
      assert !Seam(w.l[k], w.l[k + 1], w.o, c);
    }
  }

  lemma TameTrim(w: Walk, c: nat, e: nat)
    requires Sane(w, c) && TameBehind(w, e, c) && w.l[w.i].state == IP
    requires w.l[w.i].offset < w.o < w.l[w.i].End()
    ensures var r := w.l[w.i];
      TameAhead(w.(l := w.l[w.i := r.(data := r.data[..w.o - r.offset])], p := w.i, i := w.i + 1), e, c)
  {
  }

  lemma TameTouch(w: Walk, c: nat, e: nat)
    requires Sane(w, c) && TameBehind(w, e, c) && w.o == w.l[w.i].End()
    requires w.l[w.i].state == IP || |w.l[w.i].data| == c
    ensures TameAhead(w.(p := w.i, i := w.i + 1), e, c)
  {
  }

  lemma TameCarve(w: Walk, c: nat, e: nat)
    requires Tidy(w.(p := -1), c) && Sane(w, c) && TameBehind(w, e, c) && w.status == Running && 1 <= c
    requires w.l[w.i].state == IP && w.o + |w.d| < w.l[w.i].End()
    ensures var v := CutIP(w, c); v.status != Stalled ==> TameAhead(v, e, c)
  {
    var v := Carve(w);
    CarveTidy(w, c);
    if v.status != Stalled {
      TameReplace(v, c, e);
    }
  }

  lemma TamePlace(w: Walk, c: nat, e: nat)
    requires Tidy(w.(p := -1), c) && Sane(w, c) && TameBehind(w, e, c) && w.status == Running && 1 <= c
    ensures var v := Place(w, c); v.status != Stalled ==> TameAhead(v, e, c)
  {
    var r := w.l[w.i];
    if r.state != IP && (w.o < r.End() || |r.data| < c) {
      TameUpdate(w, c, e);
    } else if r.state == IP && w.o < r.End() {
      assert Place(w, c) == CutIP(w, c);
      TameCutIP(w, c, e);
    } else {
      TameTouch(w, c, e);
    }
  }

  lemma TameCutIP(w: Walk, c: nat, e: nat)
    requires Tidy(w.(p := -1), c) && Sane(w, c) && TameBehind(w, e, c) && w.status == Running && 1 <= c
    requires w.l[w.i].state == IP && w.o < w.l[w.i].End()
    ensures var v := CutIP(w, c); v.status != Stalled ==> TameAhead(v, e, c)
  {
    var r := w.l[w.i];
    if w.o + |w.d| < r.End() {
      TameCarve(w, c, e);
    } else if w.o == r.offset {
      TameRemove(w, c, e);
    } else {
      TameTrim(w, c, e);
    }
  }

  lemma TameIsBehind(w: Walk, c: nat, e: nat)
    requires Tidy(w, c) && TameAhead(w, e, c) && w.i < |w.l| && w.d != []
    requires w.l[w.i].offset <= w.o <= w.l[w.i].End()
    ensures TameBehind(w, e, c)
  {
    forall k | w.i < k < |w.l| ensures w.l[w.i].End() <= w.l[k].offset && w.l[k].End() >= e {
      assert Apart(w.l, w.p, w.i, w.i, k);
    }
  }

  lemma TameVisit(w: Walk, c: nat, e: nat)
    requires Tidy(w, c) && TameAhead(w, e, c) && w.i < |w.l| && w.status == Running && 1 <= c
    requires w.l[w.i].End() >= w.o && (w.d != [] ==> w.l[w.i].offset <= w.o)
    ensures var v := Visit(w, c); v.status != Stalled ==> TameAhead(v, e, c)
  {
    TameSettle(w, c, e);
    SettleTidy(w, c);
    SettleSettled(w, c);
    SettleSane(w, c);
    TameIsClean(w, c, e);
    var v := Settle(w, c);
    if w.d != [] && |v.l| == |w.l| {
      TameIsBehind(v, c, e);
      ForgetTidy(v, c);
      TamePlace(v, c, e);
      assert Visit(w, c) == Place(v, c);
    } else {
      assert Visit(w, c) == v;
    }
  }

  lemma TameStep(w: Walk, c: nat, e: nat)
    requires Tidy(w, c) && TameAhead(w, e, c) && w.i < |w.l| && w.status == Running && 1 <= c
    ensures var v := Step(w, c); v.status != Stalled ==> TameAhead(v, e, c)
  {
    if w.o > w.l[w.i].End() {
    } else if w.d == [] || w.o >= w.l[w.i].offset {
      TameVisit(w, c, e);
      assert Step(w, c) == Visit(w, c);
    } else if w.blocks > 0 {
      TamePlaced(InsertBefore(w, c), c, e);
      assert Step(w, c) == Settle(InsertBefore(w, c), c);
    }
  }

  lemma {:induction false} TamePass(w: Walk, c: nat, e: nat)
    requires Tidy(w, c) && TameAhead(w, e, c) && w.status == Running && 1 <= c
    ensures CleanPass(w, c) && TidyOrStalled(Pass(w, c), c)
    ensures var v := Pass(w, c); v.status != Stalled ==> TameAhead(v, e, c)
    decreases |w.l| - w.i
  {
    if w.i < |w.l| {
      TameIsClean(w, c, e);
      StepSane(w, c);
      StepTidy(w, c);
      TameStep(w, c, e);
      if Step(w, c).status == Running {
        TamePass(Step(w, c), c, e);
      }
    }
  }

  lemma TameStart(l: seq<Request>, o: nat, d: seq<byte>, c: nat, blocks: nat)
    requires d != [] && Tame(l, o, |d|, c)
    ensures TameAhead(Start(l, o, d, blocks), o + |d|, c)
  {
  }

  /** A tame write is clean. */
  lemma TameWriteIsClean(l: seq<Request>, o: nat, d: seq<byte>, c: nat, blocks: nat)
    requires WellFormed(l, c) && 1 <= c && Tame(l, o, |d|, c)
    ensures Clean(l, o, d, c, blocks)
  {
    if d != [] && !AtEnd(l, o) {
      var w := Start(l, o, d, blocks);
      StartTidy(l, o, d, c, blocks);
      TameStart(l, o, d, c, blocks);
      TamePass(w, c, o + |d|);
      PassEnds(l, o, d, c, blocks);
      var v := Pass(w, c);
      if v.status == Running && v.d != [] {
        assert AtEnd(v.l, v.o);
      }
    }
  }

  /**
   Read your writes: after a tame write with two blocks to be had, the list is sorted and disjoint
   with no full partial request, and the file is the old one with the whole write over it.
   */
  lemma TameWrite(l: seq<Request>, tape: seq<byte>, o: nat, d: seq<byte>, c: nat, blocks: nat)
    requires WellFormed(l, c) && 1 <= c && IPAgree(l, tape) && Tame(l, o, |d|, c) && blocks >= 2
    ensures var r := Attempt(l, o, d, c, blocks);
      && r.d == [] && WellFormed(r.l, c) && IPAgree(r.l, tape)
      && View(r.l, tape) == Overlay(View(l, tape), o, d)
  {
    TameWriteIsClean(l, o, d, c, blocks);
    CleanWrite(l, tape, o, d, c, blocks);
    CleanCompletes(l, o, d, c, blocks);
    assert d[..|d|] == d;
  }

  /** The list queued in the counterexample: ten bytes at 0 and ten at 20. */
  function TwoApart(): seq<Request> {
    [Request(0, Zeros(10), Partial), Request(20, Zeros(10), Partial)]
  }

  lemma UntameAttempt(d: seq<byte>)
    requires |d| == 55
    ensures Attempt(TwoApart(), 5, d, 64, 2).l == Update(TwoApart(), 0, 5, d, 64)
  {
    var w := Start(TwoApart(), 5, d, 2);
    var v := Step(w, 64);
    assert v == Walk(Update(TwoApart(), 0, 5, d, 64), 1, 0, 60, [], 2, Running);
    var u := Step(v, 64);
    assert u == v.(i := 2);
    assert Pass(u, 64) == u;
    assert Pass(v, 64) == Pass(u, 64);
    assert Pass(w, 64) == Pass(v, 64);
  }

  /**
   Writing [5, 60) over queued [0, 10) and [20, 30) leaves the second request, with its old
   bytes, behind a first one that covers it and holds the new ones.
   */
  lemma UntameWriteLeavesStaleBytes(d: seq<byte>)
    requires |d| == 55
    ensures WellFormed(TwoApart(), 64) && !Tame(TwoApart(), 5, 55, 64)
    ensures var l := Attempt(TwoApart(), 5, d, 64, 2).l;
      |l| == 2 && l[0].offset == 0 && l[0].End() == 60 && l[1] == TwoApart()[1] && l[0].state != IP
      && l[0].data[5..] == d && !Disjoint(l)
  {
    UntameAttempt(d);
    assert TwoApart()[0].End() > 5 && TwoApart()[1].End() < 60;
  }
}
