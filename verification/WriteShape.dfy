/**
 Whether a write is clean does not depend on any byte, neither of the write nor of the requests it
 meets: the loop of unified_write only compares offsets, counts and states.
 */
module WriteShape {
  import opened Bytes
  import opened Requests
  import opened RequestOps
  import opened WriteWalk
  import opened UnifiedWrite

  /** The requests have the same places and states. */
  predicate LikeOne(r: Request, s: Request) {
    r.offset == s.offset && |r.data| == |s.data| && r.state == s.state
  }

  ghost predicate LikeList(l: seq<Request>, m: seq<Request>) {
    |l| == |m| && forall j :: 0 <= j < |l| ==> LikeOne(l[j], m[j])
  }

  /** Two walks over such lists are at the same point of writes of the same length. */
  ghost predicate Alike(w: Walk, x: Walk) {
    && LikeList(w.l, x.l) && w.i == x.i && w.p == x.p && w.o == x.o && |w.d| == |x.d|
    && w.blocks == x.blocks && w.status == x.status
  }

  lemma UpdateLike(l: seq<Request>, m: seq<Request>, i: nat, o: nat, d: seq<byte>, e: seq<byte>, c: nat)
    requires LikeList(l, m) && |d| == |e| && i < |l| && l[i].offset <= o <= l[i].End() <= l[i].offset + c
    ensures LikeList(Update(l, i, o, d, c), Update(m, i, o, e, c)) && Taken(l[i], o, d, c) == Taken(m[i], o, e, c)
  {
    assert LikeOne(l[i], m[i]);
    var r, s := Updated(l[i], o, d, c), Updated(m[i], o, e, c);
    assert LikeOne(r, s);
    forall j | 0 <= j < |l| ensures LikeOne(Update(l, i, o, d, c)[j], Update(m, i, o, e, c)[j]) {
      assert LikeOne(l[j], m[j]);
    }
  }

  lemma MoveLike(l: seq<Request>, m: seq<Request>, p: nat, i: nat, c: nat)
    requires LikeList(l, m) && p < i < |l| && |l[p].data| <= c && l[i].offset <= l[p].End()
    ensures LikeList(AfterMove(l, p, i, c), AfterMove(m, p, i, c)) && |Moved(l[p], l[i], c)| == |Moved(m[p], m[i], c)|
  {
    assert LikeOne(l[p], m[p]) && LikeOne(l[i], m[i]);
    if MayMove(l[p], l[i], c) {
      var k := l[p].End() - l[i].offset;
      UpdateLike(l, m, p, l[p].End(), l[i].data[k..], m[i].data[k..], c);
    }
  }

  lemma CutLike(l: seq<Request>, m: seq<Request>, i: nat, g: nat)
    requires LikeList(l, m) && i < |l|
    ensures LikeList(CutFront(l, i, g).list, CutFront(m, i, g).list)
    ensures CutFront(l, i, g).result == CutFront(m, i, g).result
  {
    assert LikeOne(l[i], m[i]);
    if 0 < g < |l[i].data| {
      var r, s := CutFront(l, i, g).list, CutFront(m, i, g).list;
      forall j | 0 <= j < |r| ensures LikeOne(r[j], s[j]) {
        assert LikeOne(l[j], m[j]);
      }
    } else if g > 0 {
      RemoveLike(l, m, i);
    }
  }

  lemma RemoveLike(l: seq<Request>, m: seq<Request>, i: nat)
    requires LikeList(l, m) && i < |l|
    ensures LikeList(Remove(l, i), Remove(m, i))
  {
    forall j | 0 <= j < |l| - 1 ensures LikeOne(Remove(l, i)[j], Remove(m, i)[j]) {
      assert LikeOne(l[if j < i then j else j + 1], m[if j < i then j else j + 1]);
    }
  }

  lemma MergeLike(l: seq<Request>, m: seq<Request>, p: nat, i: nat, c: nat)
    requires LikeList(l, m) && p < i < |l| && |l[p].data| <= c
    ensures |m[p].data| <= c
    ensures LikeList(MergeAt(l, p, i, c).list, MergeAt(m, p, i, c).list)
    ensures MergeAt(l, p, i, c).result == MergeAt(m, p, i, c).result
  {
    assert LikeOne(l[p], m[p]) && LikeOne(l[i], m[i]);
    if l[i].offset <= l[p].End() {
      MoveLike(l, m, p, i, c);
      CutLike(AfterMove(l, p, i, c), AfterMove(m, p, i, c), i, l[p].End() - l[i].offset + |Moved(l[p], l[i], c)|);
    }
  }

  lemma SaneLike(w: Walk, x: Walk, c: nat)
    requires Alike(w, x) && Sane(w, c)
    ensures Sane(x, c) && forall j :: 0 <= j < |w.l| ==> LikeOne(w.l[j], x.l[j])
  {
    forall j | 0 <= j < |x.l| ensures 1 <= |x.l[j].data| <= c {
      assert LikeOne(w.l[j], x.l[j]);
    }
  }

  lemma SettleLike(w: Walk, x: Walk, c: nat)
    requires Alike(w, x) && Sane(w, c) && w.i < |w.l|
    ensures Sane(x, c) && Alike(Settle(w, c), Settle(x, c))
  {
    SaneLike(w, x, c);
    if w.p >= 0 {
      MergeLike(w.l, x.l, w.p, w.i, c);
    }
  }

  lemma InsertLike(w: Walk, x: Walk, c: nat)
    requires Alike(w, x) && Sane(w, c) && w.i < |w.l|
    ensures Alike(InsertBefore(w, c), InsertBefore(x, c))
  {
    assert LikeOne(w.l[w.i], x.l[w.i]);
    if w.d != [] && w.o < w.l[w.i].offset && w.blocks > 0 {
      PutLike(w.l, x.l, w.i, NewRequest(w.o, w.d, c), NewRequest(x.o, x.d, c));
    }
  }

  lemma PutLike(l: seq<Request>, m: seq<Request>, i: nat, r: Request, s: Request)
    requires LikeList(l, m) && i <= |l| && LikeOne(r, s)
    ensures LikeList(InsertAt(l, i, r), InsertAt(m, i, s))
  {
    forall j | 0 <= j < |l| + 1 ensures LikeOne(InsertAt(l, i, r)[j], InsertAt(m, i, s)[j]) {
      if j != i {
        assert LikeOne(l[if j < i then j else j - 1], m[if j < i then j else j - 1]);
      }
    }
  }

  lemma SetLike(l: seq<Request>, m: seq<Request>, i: nat, r: Request, s: Request)
    requires LikeList(l, m) && i < |l| && LikeOne(r, s)
    ensures LikeList(l[i := r], m[i := s])
  {
    var a, b := l[i := r], m[i := s];
    forall j | 0 <= j < |a| ensures LikeOne(a[j], b[j]) {
      assert LikeOne(l[j], m[j]);
    }
  }

  lemma ReplaceLike(w: Walk, x: Walk, c: nat)
    requires Alike(w, x) && Sane(w, c) && w.i < |w.l| && w.d != [] && w.o < w.l[w.i].offset && 1 <= c
    ensures Sane(x, c) && x.o < x.l[x.i].offset && Alike(Replace(w, c), Replace(x, c))
  {
    SaneLike(w, x, c);
    InsertLike(w, x, c);
    if w.blocks > 0 {
      SettleLike(InsertBefore(w, c), InsertBefore(x, c), c);
    }
  }

  lemma CarveLike(w: Walk, x: Walk)
    requires Alike(w, x) && w.i < |w.l| && w.l[w.i].offset <= w.o && w.o + |w.d| < w.l[w.i].End()
    ensures x.l[x.i].offset <= x.o && x.o + |x.d| < x.l[x.i].End() && Alike(Carve(w), Carve(x))
  {
    var r, s := w.l[w.i], x.l[x.i];
    assert LikeOne(r, s);
    var k, n := w.o - r.offset, |w.d|;
    if k == 0 {
      SetLike(w.l, x.l, w.i, Request(r.offset + n, r.data[n..], r.state), Request(s.offset + n, s.data[n..], s.state));
    } else if w.blocks > 0 {
      SplitLike(w.l, x.l, w.i, k, k + n, w.o + n);
    }
  }

  lemma SplitLike(l: seq<Request>, m: seq<Request>, i: nat, k: nat, t: nat, o: nat)
    requires LikeList(l, m) && i < |l| && k <= t <= |l[i].data|
    ensures |m[i].data| == |l[i].data|
    ensures LikeList(InsertAt(l[i := l[i].(data := l[i].data[..k])], i + 1, Request(o, l[i].data[t..], IP)),
                     InsertAt(m[i := m[i].(data := m[i].data[..k])], i + 1, Request(o, m[i].data[t..], IP)))
  {
    assert LikeOne(l[i], m[i]);
    var a, b := l[i].(data := l[i].data[..k]), m[i].(data := m[i].data[..k]);
    SetLike(l, m, i, a, b);
    PutLike(l[i := a], m[i := b], i + 1, Request(o, l[i].data[t..], IP), Request(o, m[i].data[t..], IP));
  }

  lemma CutIPLike(w: Walk, x: Walk, c: nat)
    requires Alike(w, x) && Sane(w, c) && w.i < |w.l| && w.d != [] && w.l[w.i].Covers(w.o) && 1 <= c
    ensures Sane(x, c) && x.l[x.i].Covers(x.o) && Alike(CutIP(w, c), CutIP(x, c))
  {
    SaneLike(w, x, c);
    var r, s := w.l[w.i], x.l[x.i];
    assert LikeOne(r, s);
    if w.o + |w.d| < r.End() {
      CarveLike(w, x);
      if Carve(w).status != Stalled {
        ReplaceLike(Carve(w), Carve(x), c);
      }
    } else if w.o == r.offset {
      RemoveLike(w.l, x.l, w.i);
    } else {
      var k := w.o - r.offset;
      SetLike(w.l, x.l, w.i, r.(data := r.data[..k]), s.(data := s.data[..k]));
    }
  }

  lemma PlaceLike(w: Walk, x: Walk, c: nat)
    requires Alike(w, x) && Sane(w, c) && w.i < |w.l| && w.d != [] && w.o <= w.l[w.i].End() && 1 <= c
    ensures Sane(x, c) && x.o <= x.l[x.i].End() && Alike(Place(w, c), Place(x, c))
  {
    SaneLike(w, x, c);
    var r := w.l[w.i];
    assert LikeOne(r, x.l[x.i]);
    if w.o < r.offset {
      ReplaceLike(w, x, c);
    } else if r.state != IP && (w.o < r.End() || |r.data| < c) {
      UpdateLike(w.l, x.l, w.i, w.o, w.d, x.d, c);
    } else if r.state == IP && w.o < r.End() {
      CutIPLike(w, x, c);
    }
  }

  lemma VisitLike(w: Walk, x: Walk, c: nat)
    requires Alike(w, x) && Sane(w, c) && w.i < |w.l| && 1 <= c && w.status == Running
    requires w.d != [] ==> w.o <= w.l[w.i].End()
    ensures Sane(x, c) && (x.d != [] ==> x.o <= x.l[x.i].End()) && Alike(Visit(w, c), Visit(x, c))
  {
    SaneLike(w, x, c);
    assert LikeOne(w.l[w.i], x.l[x.i]);
    SettleSane(w, c);
    SettleSane(x, c);
    SettleLike(w, x, c);
    var v, y := Settle(w, c), Settle(x, c);
    if w.d != [] && |v.l| >= |w.l| {
      PlaceLike(v, y, c);
      assert Visit(w, c) == Place(v, c) && Visit(x, c) == Place(y, c);
    } else {
      assert Visit(w, c) == v && Visit(x, c) == y;
    }
  }

  lemma StepLike(w: Walk, x: Walk, c: nat)
    requires Alike(w, x) && Sane(w, c) && w.i < |w.l| && 1 <= c && w.status == Running
    ensures Sane(x, c) && Alike(Step(w, c), Step(x, c)) && (CleanStep(w, c) <==> CleanStep(x, c))
  {
    SaneLike(w, x, c);
    CleanStepLike(w, x, c);
    assert LikeOne(w.l[w.i], x.l[x.i]);
    if w.o <= w.l[w.i].End() {
      InsertLike(w, x, c);
      var v, y := InsertBefore(w, c), InsertBefore(x, c);
      if v.status != Stalled {
        VisitLike(v, y, c);
        assert Step(w, c) == Visit(v, c) && Step(x, c) == Visit(y, c);
      }
    }
  }

  lemma CleanStepLike(w: Walk, x: Walk, c: nat)
    requires Alike(w, x) && Sane(w, c) && Sane(x, c) && w.i < |w.l|
    ensures CleanStep(w, c) <==> CleanStep(x, c)
  {
    assert LikeOne(w.l[w.i], x.l[x.i]);
    if w.p >= 0 {
      assert LikeOne(w.l[w.p], x.l[w.p]);
    }
    SettleLike(w, x, c);
    var v, y := Settle(w, c), Settle(x, c);
    if w.i < |v.l| {
      assert LikeOne(v.l[w.i], y.l[w.i]);
    }
  }

  lemma {:induction false} PassLike(w: Walk, x: Walk, c: nat)
    requires Alike(w, x) && Sane(w, c) && 1 <= c
    ensures Sane(x, c) && Alike(Pass(w, c), Pass(x, c)) && (CleanPass(w, c) <==> CleanPass(x, c))
    decreases if w.status == Stalled then 0 else 1, |w.l| - w.i
  {
    SaneLike(w, x, c);
    if w.status == Running && w.i < |w.l| {
      StepLike(w, x, c);
      StepSane(w, c);
      StepSane(x, c);
      PassLike(Step(w, c), Step(x, c), c);
    }
  }

  lemma GrownLike(l: seq<Request>, m: seq<Request>, o: nat, d: seq<byte>, e: seq<byte>, c: nat)
    requires LikeList(l, m) && |d| == |e| && Sized(l, c) && Sized(m, c)
    ensures (AtEnd(l, o) <==> AtEnd(m, o)) && Grown(l, o, d, c) == Grown(m, o, e, c)
  {
    if l != [] {
      assert LikeOne(l[|l| - 1], m[|l| - 1]);
    }
  }

  /** On lists of the same shape writes of the same length are both clean or neither is. */
  lemma {:induction false} CleanLike(l: seq<Request>, m: seq<Request>, o: nat, d: seq<byte>, e: seq<byte>,
    c: nat, blocks: nat)
    requires LikeList(l, m) && |d| == |e| && Sized(l, c) && 1 <= c
    ensures Sized(m, c) && (Clean(l, o, d, c, blocks) <==> Clean(m, o, e, c, blocks))
    decreases |l|, if AtEnd(l, o) then 0 else 1
  {
    var w, x := Start(l, o, d, blocks), Start(m, o, e, blocks);
    SaneLike(w, x, c);
    GrownLike(l, m, o, d, e, c);
    if d != [] && !AtEnd(l, o) {
      PassLike(w, x, c);
      PassEnds(l, o, d, c, blocks);
      PassEnds(m, o, e, c, blocks);
      var v, y := Pass(w, c), Pass(x, c);
      if v.status == Running && v.d != [] {
        CleanLike(v.l, y.l, v.o, v.d, y.d, c, v.blocks);
      }
    }
  }

  /** So cleanness of a write is a matter of its place and length. */
  lemma CleanByLength(l: seq<Request>, o: nat, d: seq<byte>, e: seq<byte>, c: nat, blocks: nat)
    requires Sized(l, c) && 1 <= c && |d| == |e|
    ensures Clean(l, o, d, c, blocks) <==> Clean(l, o, e, c, blocks)
  {
    CleanLike(l, l, o, d, e, c, blocks);
  }
}
