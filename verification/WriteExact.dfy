/**
 unified_write writes a plain file exactly when it is clean. A step that is not clean leaves two
 overlapping requests, or drops bytes of the write; nothing later in the walk repairs either.
 */
module WriteExact {
  import opened Bytes
  import opened Requests
  import opened RequestOps
  import opened WriteWalk
  import opened WriteTidy
  import opened UnifiedWrite
  import opened WriteShape

  // ---- Visited requests keep their start and never shrink ----

  ghost predicate Kept(w: Walk, v: Walk) {
    && w.i <= v.i && w.i <= |w.l| && v.i <= |v.l|
    && forall j :: 0 <= j < w.i ==> v.l[j].offset == w.l[j].offset && v.l[j].End() >= w.l[j].End()
  }

  lemma SettleKept(w: Walk, c: nat)
    requires Sane(w, c) && w.i < |w.l|
    ensures Kept(w, Settle(w, c))
  {
    if w.p >= 0 {
      MergeIsMerged(w.l, w.p, w.i, c);
    }
  }

  lemma ReplaceKept(w: Walk, c: nat)
    requires Sane(w, c) && w.i < |w.l| && w.d != [] && w.o < w.l[w.i].offset && 1 <= c && w.status == Running
    ensures Kept(w, Replace(w, c))
  {
    if w.blocks > 0 {
      SettleKept(InsertBefore(w, c), c);
    }
  }

  lemma PlaceKept(w: Walk, c: nat)
    requires Sane(w, c) && w.i < |w.l| && w.d != [] && w.o <= w.l[w.i].End() && 1 <= c && w.status == Running
    ensures Kept(w, Place(w, c))
  {
    var r := w.l[w.i];
    if w.o < r.offset {
      ReplaceKept(w, c);
    } else if r.state == IP && w.o < r.End() && w.o + |w.d| < r.End() {
      var v := Carve(w);
      assert Sane(v, c) && Kept(w, v);
      if v.status != Stalled {
        ReplaceKept(v, c);
      }
    }
  }

  lemma StepKept(w: Walk, c: nat)
    requires Sane(w, c) && w.i < |w.l| && 1 <= c && w.status == Running
    ensures Kept(w, Step(w, c))
  {
    if w.o <= w.l[w.i].End() {
      var u := InsertBefore(w, c);
      if u.status != Stalled {
        SettleSane(u, c);
        SettleKept(u, c);
        var v := Settle(u, c);
        if u.d != [] && |v.l| >= |u.l| {
          PlaceKept(v, c);
        }
      }
    }
  }

  lemma {:induction false} PassKept(w: Walk, c: nat)
    requires Sane(w, c) && 1 <= c
    ensures Kept(w, Pass(w, c))
    decreases if w.status == Stalled then 0 else 1, |w.l| - w.i
  {
    if w.status == Running && w.i < |w.l| {
      StepSane(w, c);
      StepKept(w, c);
      PassKept(Step(w, c), c);
    }
  }

  // ---- Where the settled request ends ----

  /** The settled request is a full one for the data partition, ending at the write position. */
  predicate FullHere(w: Walk, c: nat) {
    0 <= w.p < |w.l| && w.l[w.p].state != IP && |w.l[w.p].data| == c && w.l[w.p].End() == w.o
  }

  /**
   In a clean walk, the settled request reaches the end of a fully placed write; before that it
   is full and ends at the write position, or everything ahead starts at or after the position.
   */
  ghost predicate Steady(w: Walk, c: nat) {
    0 <= w.p < |w.l| ==>
      if w.d == [] then w.l[w.p].End() >= w.o
      else FullHere(w, c) || forall k :: w.i <= k < |w.l| ==> w.l[k].offset >= w.o
  }

  lemma SettleSteady(w: Walk, c: nat)
    requires Sane(w, c) && w.i < |w.l| && w.status == Running && Steady(w, c)
    requires (w.p >= 0 && w.d == []) || w.o <= w.l[w.i].End()
    ensures Steady(Settle(w, c), c)
  {
    if w.p >= 0 {
      MergeIsMerged(w.l, w.p, w.i, c);
      MergeEnds(w.l, w.p, w.i, c);
      var m := MergeAt(w.l, w.p, w.i, c);
      if w.d != [] && !FullHere(w, c) {
        var s := if m.result == 2 then 1 else 0;
        forall k | w.i <= k < |m.list| ensures m.list[k].offset >= w.o {
          assert w.l[k + s].offset >= w.o;
        }
      }
    }
  }

  lemma ReplaceSteady(w: Walk, c: nat)
    requires Sane(w, c) && w.i < |w.l| && w.d != [] && w.o < w.l[w.i].offset && 1 <= c && w.status == Running
    requires |w.d| <= c
    ensures var v := Replace(w, c); v.status == Running ==> Steady(v, c)
  {
    if w.blocks > 0 {
      SettleSteady(InsertBefore(w, c), c);
    }
  }

  lemma PlaceSteady(w: Walk, c: nat)
    requires Tidy(w, c) && w.status == Running && 1 <= c && Steady(w, c)
    requires w.i < |w.l| && Settled(w) && w.d != [] && w.l[w.i].offset <= w.o <= w.l[w.i].End()
    ensures var v := Place(w, c); v.status == Running ==> Steady(v, c)
  {
    var r := w.l[w.i];
    forall k | w.i < k < |w.l| ensures w.l[k].offset >= w.o {
      assert Apart(w.l, w.p, w.i, w.i, k);
    }
    if r.state == IP && w.o < r.End() && w.o + |w.d| < r.End() {
      ForgetTidy(w, c);
      CarveTidy(w, c);
      var v := Carve(w);
      if v.status != Stalled {
        ReplaceSteady(v, c);
      }
    }
  }

  lemma VisitSteady(w: Walk, c: nat)
    requires Tidy(w, c) && w.status == Running && w.i < |w.l| && 1 <= c && Steady(w, c)
    requires (w.p >= 0 && w.d == []) || w.l[w.i].offset <= w.o <= w.l[w.i].End()
    requires var v := Settle(w, c); w.d != [] && |v.l| == |w.l| ==> v.l[w.i].offset <= w.o
    ensures var v := Visit(w, c); v.status == Running ==> Steady(v, c)
  {
    SettleSteady(w, c);
    SettleTidy(w, c);
    SettleSettled(w, c);
    var v := Settle(w, c);
    if w.d != [] && |v.l| == |w.l| {
      PlaceSteady(v, c);
      assert Visit(w, c) == Place(v, c);
    } else {
      assert Visit(w, c) == v;
    }
  }

  lemma StepSteady(w: Walk, c: nat)
    requires Tidy(w, c) && w.status == Running && w.i < |w.l| && 1 <= c && CleanStep(w, c) && Steady(w, c)
    ensures var v := Step(w, c); v.status == Running ==> Steady(v, c)
  {
    if w.o <= w.l[w.i].End() {
      if w.d == [] || w.o >= w.l[w.i].offset {
        VisitSteady(w, c);
        assert Step(w, c) == Visit(w, c);
      } else if w.blocks > 0 {
        InsertTidy(w, c);
        VisitSteady(InsertBefore(w, c), c);
        assert Step(w, c) == Visit(InsertBefore(w, c), c);
      }
    }
  }

  // ---- Broken lists stay broken ----

  ghost predicate Overlaps(l: seq<Request>, a: nat, b: nat) {
    a < b < |l| && l[a].End() > l[b].offset
  }

  /** Two visited requests overlap. */
  ghost predicate Crossed(w: Walk) {
    w.i <= |w.l| && exists a: nat, b: nat :: b < w.i && Overlaps(w.l, a, b)
  }

  /** Two visited requests overlap, and the rest of the walk will not start over. */
  ghost predicate Broken(w: Walk, c: nat) {
    && Crossed(w)
    && (w.d != [] ==> FullHere(w, c) && forall j :: 0 <= j < w.i <= |w.l| ==> w.l[j].End() <= w.o)
  }

  lemma KeptCrossed(w: Walk, v: Walk)
    requires Crossed(w) && Kept(w, v)
    ensures Crossed(v)
  {
    var a: nat, b: nat :| b < w.i && Overlaps(w.l, a, b);
    assert Overlaps(v.l, a, b);
  }

  lemma SettleFull(w: Walk, c: nat)
    requires Sane(w, c) && w.i < |w.l| && w.status == Running && w.d != []
    requires FullHere(w, c) && forall j :: 0 <= j < w.i ==> w.l[j].End() <= w.o
    ensures var v := Settle(w, c);
      && FullHere(v, c) && v.i == w.i
      && (forall j :: 0 <= j < w.i ==> v.l[j].End() <= w.o)
      && (|v.l| < |w.l| || v.l[w.i].offset >= w.o)
  {
    MergeIsMerged(w.l, w.p, w.i, c);
    MergeEnds(w.l, w.p, w.i, c);
  }

  lemma PlaceFull(w: Walk, c: nat)
    requires Sane(w, c) && w.i < |w.l| && w.status == Running && w.d != [] && 1 <= c
    requires FullHere(w, c) && forall j :: 0 <= j < w.i ==> w.l[j].End() <= w.o
    requires w.l[w.i].offset >= w.o
    ensures var v := Place(w, c);
      v.status == Running && v.d != [] ==>
        FullHere(v, c) && forall j :: 0 <= j < v.i <= |v.l| ==> v.l[j].End() <= v.o
  {
    var r := w.l[w.i];
    if w.o < r.offset {
      ReplaceSane(w, c);
    } else if r.state == IP && w.o + |w.d| < r.End() {
      var v := Carve(w);
      assert Sane(v, c);
      ReplaceSane(v, c);
    }
  }

  lemma StepFull(w: Walk, c: nat)
    requires Sane(w, c) && w.i < |w.l| && 1 <= c && w.status == Running && w.d != []
    requires FullHere(w, c) && forall j :: 0 <= j < w.i ==> w.l[j].End() <= w.o
    ensures var v := Step(w, c);
      v.status == Running && v.d != [] ==>
        FullHere(v, c) && forall j :: 0 <= j < v.i <= |v.l| ==> v.l[j].End() <= v.o
  {
    if w.o < w.l[w.i].offset {
      if w.blocks > 0 {
        SettleSane(InsertBefore(w, c), c);
      }
    } else if w.o <= w.l[w.i].End() {
      SettleFull(w, c);
      SettleSane(w, c);
      var v := Settle(w, c);
      if |v.l| == |w.l| {
        PlaceFull(v, c);
        assert Step(w, c) == Place(v, c);
      } else {
        assert Step(w, c) == v;
      }
    }
  }

  lemma StepDone(w: Walk, c: nat)
    requires Sane(w, c) && w.i < |w.l| && 1 <= c && w.d == [] && w.status == Running
    ensures Step(w, c).d == [] && Step(w, c).status != Stalled
  {
    SettleSane(w, c);
  }

  lemma StepBroken(w: Walk, c: nat)
    requires Sane(w, c) && w.i < |w.l| && 1 <= c && w.status == Running && Broken(w, c)
    ensures var v := Step(w, c); Crossed(v) && (v.status == Running ==> Broken(v, c))
  {
    StepKept(w, c);
    KeptCrossed(w, Step(w, c));
    if w.d == [] {
      StepDone(w, c);
    } else {
      StepFull(w, c);
    }
  }

  lemma {:induction false} PassBroken(w: Walk, c: nat)
    requires Sane(w, c) && 1 <= c && Crossed(w) && (w.status == Running ==> Broken(w, c))
    ensures var v := Pass(w, c); Crossed(v) && (v.status == Running ==> Broken(v, c))
    decreases if w.status == Stalled then 0 else 1, |w.l| - w.i
  {
    if w.status == Running && w.i < |w.l| {
      StepSane(w, c);
      StepBroken(w, c);
      PassBroken(Step(w, c), c);
    }
  }

  lemma SkipCrosses(w: Walk, c: nat)
    requires Tidy(w, c) && Steady(w, c) && w.status == Running && w.i < |w.l| && 1 <= c
    requires w.o > w.l[w.i].End() && w.p >= 0
    ensures Broken(w.(i := w.i + 1), c)
  {
    assert Overlaps(w.l, w.p, w.i);
  }

  /** Inserting over the settled request crosses the two. */
  lemma InsertCrosses(w: Walk, c: nat)
    requires Sane(w, c) && w.status == Running && w.i < |w.l| && 1 <= c && w.d != [] && w.blocks > 0
    requires w.p >= 0 && w.l[w.p].End() > w.o && w.o < w.l[w.i].offset
    ensures var v := Settle(InsertBefore(w, c), c); Crossed(v) && v.d == []
  {
    var u := InsertBefore(w, c);
    assert Overlaps(u.l, w.p, w.i);
    SettleKept(u, c);
    SettleSane(u, c);
    KeptCrossed(u, Settle(u, c));
  }

  /** The merge pushed the visited request behind the write position: then it grew over it. */
  lemma PushedOver(w: Walk, c: nat)
    requires Sane(w, c) && w.status == Running && w.i < |w.l| && w.d != []
    requires w.l[w.i].offset <= w.o <= w.l[w.i].End()
    requires var v := Settle(w, c); |v.l| == |w.l| && v.l[w.i].offset > w.o
    ensures var v := Settle(w, c); v.p == w.p >= 0 && v.i == w.i && v.l[v.p].End() > v.o
  {
    MergeIsMerged(w.l, w.p, w.i, c);
    MergeEnds(w.l, w.p, w.i, c);
  }

  lemma PushedStep(w: Walk, c: nat, v: Walk, u: Walk)
    requires Sane(w, c) && w.status == Running && w.i < |w.l| && w.d != [] && 1 <= c && w.blocks > 0
    requires w.l[w.i].offset <= w.o <= w.l[w.i].End()
    requires v == Settle(w, c) && |v.l| == |w.l| && v.i == w.i && v.d == w.d && v.l[v.i].offset > v.o
    requires Sane(v, c) && v.status == Running && v.blocks > 0 && v.o == w.o && v.o <= v.l[v.i].End()
    requires u == InsertBefore(v, c) && Sane(u, c) && u.i < |u.l| && u.status == Running
    ensures Step(w, c) == Settle(u, c)
  {
    assert Step(w, c) == Place(v, c);
    assert Place(v, c) == Replace(v, c);
  }

  /** The first step that is not clean crosses two requests, or inserts only part of the write. */
  lemma UncleanStep(w: Walk, c: nat)
    requires Tidy(w, c) && Steady(w, c) && w.status == Running && w.i < |w.l| && 1 <= c
    requires !CleanStep(w, c) && (w.d != [] ==> w.blocks > 0)
    requires !(w.d != [] && w.o < w.l[w.i].offset && |w.d| > c)
    ensures var v := Step(w, c); Crossed(v) && (v.status == Running ==> Broken(v, c))
  {
    if w.o > w.l[w.i].End() {
      SkipCrosses(w, c);
    } else if w.o < w.l[w.i].offset {
      InsertCrosses(w, c);
      assert Step(w, c) == Settle(InsertBefore(w, c), c);
    } else {
      PushedStepCrosses(w, c);
    }
  }

  lemma PushedStepCrosses(w: Walk, c: nat)
    requires Sane(w, c) && w.status == Running && w.i < |w.l| && 1 <= c && w.d != [] && w.blocks > 0
    requires w.l[w.i].offset <= w.o <= w.l[w.i].End() && !CleanStep(w, c)
    ensures Crossed(Step(w, c)) && Step(w, c).d == []
  {
    SettleSane(w, c);
    PushedOver(w, c);
    PushedCrosses(w, c, Settle(w, c));
  }

  lemma InsertedSane(v: Walk, c: nat)
    requires Sane(v, c) && v.status == Running && v.i < |v.l| && v.d != [] && v.o < v.l[v.i].offset && v.blocks > 0
    requires 1 <= c
    ensures var u := InsertBefore(v, c); Sane(u, c) && u.i < |u.l| && u.status == Running
  {
  }

  lemma PushedCrosses(w: Walk, c: nat, v: Walk)
    requires Sane(w, c) && w.status == Running && w.i < |w.l| && w.d != [] && 1 <= c && w.blocks > 0
    requires w.l[w.i].offset <= w.o <= w.l[w.i].End()
    requires v == Settle(w, c) && v == w.(l := v.l) && |v.l| == |w.l| && v.l[v.i].offset > v.o && v.o <= v.l[v.i].End()
    requires Sane(v, c) && v.p >= 0 && v.l[v.p].End() > v.o
    ensures Crossed(Step(w, c)) && Step(w, c).d == []
  {
    InsertCrosses(v, c);
    InsertedSane(v, c);
    PushedStep(w, c, v, InsertBefore(v, c));
  }

  // ---- Two writes that differ in their last byte ----

  predicate Twin(d: seq<byte>, e: seq<byte>) {
    |d| == |e| && d != [] && d[..|d| - 1] == e[..|d| - 1]
  }

  /** The walk `x` of a twin `e` of the write is where `v` is, with the same part of it left. */
  predicate Alongside(v: Walk, e: seq<byte>, x: Walk) {
    v.d != [] && |v.d| <= |e| && x == v.(d := e[|e| - |v.d|..]) && Twin(v.d, e[|e| - |v.d|..])
  }

  lemma TwinSuffix(d: seq<byte>, e: seq<byte>, k: nat)
    requires Twin(d, e) && k < |d|
    ensures d[..k] == e[..k] && Twin(d[k..], e[k..]) && e[|e| - |d[k..]|..] == e[k..]
  {
    var n := |d| - 1;
    assert d[..k] == d[..n][..k] && e[..k] == e[..n][..k];
    assert d[k..][..n - k] == d[..n][k..] && e[k..][..n - k] == e[..n][k..];
  }

  lemma AlongsideTwice(v: Walk, e: seq<byte>, x: Walk, u: Walk, y: Walk)
    requires Alongside(v, e, x) && Alongside(u, x.d, y)
    ensures Alongside(u, e, y)
  {
    assert x.d[|x.d| - |u.d|..] == e[|e| - |u.d|..];
  }

  /** As long as part of the write is left, the last byte has had no influence. */
  lemma PlaceTwin(w: Walk, e: seq<byte>, c: nat)
    requires Sane(w, c) && w.i < |w.l| && w.d != [] && w.o <= w.l[w.i].End() && 1 <= c && w.status == Running
    requires Twin(w.d, e) && w.l[w.i].offset <= w.o
    ensures var v := Place(w, c);
      v.d != [] && v.status != Stalled ==> Alongside(v, e, Place(w.(d := e), c)) && v.blocks >= w.blocks
    ensures w.blocks >= 2 ==> Place(w, c).status != Stalled
  {
    var r := w.l[w.i];
    if r.state != IP && (w.o < r.End() || |r.data| < c) {
      UpdateTwin(w, e, c);
    } else if r.state == IP && w.o < r.End() && w.o + |w.d| < r.End() {
      var v := Carve(w);
      if v.status != Stalled {
        assert Sane(v, c);
        ReplaceSane(v, c);
        if v.blocks > 0 {
          ReplaceRuns(v, c);
        }
      }
    } else {
      assert e[0..] == e;
    }
  }

  lemma UpdateTwin(w: Walk, e: seq<byte>, c: nat)
    requires Sane(w, c) && w.i < |w.l| && w.d != [] && Twin(w.d, e)
    requires w.l[w.i].offset <= w.o <= w.l[w.i].End()
    ensures var k := Taken(w.l[w.i], w.o, w.d, c);
      k < |w.d| ==>
        && Twin(w.d[k..], e[k..]) && e[|e| - |w.d[k..]|..] == e[k..]
        && Update(w.l, w.i, w.o, e, c) == Update(w.l, w.i, w.o, w.d, c)
  {
    var k := Taken(w.l[w.i], w.o, w.d, c);
    if k < |w.d| {
      TwinSuffix(w.d, e, k);
    }
  }

  lemma ReplaceRuns(w: Walk, c: nat)
    requires Sane(w, c) && w.i < |w.l| && w.d != [] && w.o < w.l[w.i].offset && 1 <= c && w.status == Running
    requires w.blocks > 0
    ensures Replace(w, c).status != Stalled
  {
    SettleSane(InsertBefore(w, c), c);
  }

  lemma StepTwin(w: Walk, e: seq<byte>, c: nat)
    requires Sane(w, c) && w.i < |w.l| && w.d != [] && 1 <= c && w.status == Running && CleanStep(w, c)
    requires Twin(w.d, e)
    ensures var v := Step(w, c);
      v.d != [] && v.status != Stalled ==> Alongside(v, e, Step(w.(d := e), c)) && v.blocks >= w.blocks
    ensures w.blocks >= 2 ==> Step(w, c).status != Stalled
  {
    if w.o > w.l[w.i].End() {
      assert e[0..] == e;
    } else if w.o < w.l[w.i].offset {
      if w.blocks > 0 {
        SettleSane(InsertBefore(w, c), c);
      }
    } else {
      var v := Settle(w, c);
      SettleSane(w, c);
      assert Settle(w.(d := e), c) == v.(d := e);
      if |v.l| < |w.l| {
        assert e[0..] == e;
        assert Step(w, c) == v;
        assert Step(w.(d := e), c) == v.(d := e);
      } else {
        PlaceTwin(v, e, c);
        assert Step(w, c) == Place(v, c);
        assert Step(w.(d := e), c) == Place(v.(d := e), c);
      }
    }
  }

  /** Inserting only part of the write ignores the rest of it. */
  lemma LostStep(w: Walk, e: seq<byte>, c: nat)
    requires Sane(w, c) && w.i < |w.l| && 1 <= c && w.status == Running && w.blocks > 0
    requires Twin(w.d, e) && w.o < w.l[w.i].offset && |w.d| > c
    ensures Step(w.(d := e), c) == Step(w, c) && Step(w, c).d == [] && Step(w, c).status != Stalled
  {
    assert w.d[..c] == w.d[..|e| - 1][..c] == e[..c];
    assert InsertBefore(w.(d := e), c) == InsertBefore(w, c);
    SettleSane(InsertBefore(w, c), c);
  }

  /**
   A pass with an unclean step ends with two overlapping requests, or the bytes of the write it
   stored do not depend on its last byte.
   */
  lemma {:induction false} UncleanPass(w: Walk, e: seq<byte>, c: nat)
    requires Tidy(w, c) && Steady(w, c) && w.status == Running && 1 <= c && !CleanPass(w, c)
    requires w.d != [] ==> w.blocks >= 2 && Twin(w.d, e)
    ensures var v := Pass(w, c);
      || (Crossed(v) && (v.status == Running ==> Broken(v, c)))
      || (w.d != [] && v.d == [] && Pass(w.(d := e), c) == v)
    decreases |w.l| - w.i
  {
    PassOn(w, c);
    var v := Step(w, c);
    if CleanStep(w, c) {
      StepSane(w, c);
      StepTidy(w, c);
      StepSteady(w, c);
      if w.d == [] {
        StepDone(w, c);
        UncleanPass(v, e, c);
      } else {
        StepTwin(w, e, c);
        var f := if v.d == [] then [] else e[|e| - |v.d|..];
        UncleanPass(v, f, c);
        PassOn(w.(d := e), c);
        assert v.d != [] ==> Step(w.(d := e), c) == v.(d := f);
      }
    } else if w.d != [] && w.o < w.l[w.i].offset && |w.d| > c {
      LostStep(w, e, c);
      PassOn(w.(d := e), c);
      PassDone(v, c);
    } else {
      UncleanStep(w, c);
      PassBroken(v, c);
    }
  }

  lemma {:induction false} PassDone(w: Walk, c: nat)
    requires Sane(w, c) && 1 <= c && w.d == []
    ensures Pass(w, c).d == []
    decreases if w.status == Stalled then 0 else 1, |w.l| - w.i
  {
    if w.status == Running && w.i < |w.l| {
      StepSane(w, c);
      StepDone(w, c);
      PassDone(Step(w, c), c);
    }
  }

  /** A clean pass that leaves part of the write has not yet looked at the last byte. */
  lemma {:induction false} CleanPassTwin(w: Walk, e: seq<byte>, c: nat)
    requires Tidy(w, c) && w.status == Running && 1 <= c && CleanPass(w, c)
    requires w.d != [] && w.blocks >= 2 && Twin(w.d, e)
    ensures var v := Pass(w, c);
      v.status != Stalled && (v.d != [] ==> Alongside(v, e, Pass(w.(d := e), c)) && v.blocks >= 2)
    decreases |w.l| - w.i
  {
    assert e[0..] == e;
    if w.i < |w.l| {
      StepSane(w, c);
      StepTidy(w, c);
      StepTwin(w, e, c);
      var v := Step(w, c);
      PassOn(w, c);
      if v.d == [] {
        PassNoStall(v, c);
      } else {
        var x := Step(w.(d := e), c);
        FinishedPlaced(w, c);
        assert CleanPass(v, c);
        CleanPassTwin(v, x.d, c);
        PassOn(w.(d := e), c);
        if Pass(v, c).d != [] {
          AlongsideTwice(v, e, x, Pass(v, c), Pass(x, c));
        }
      }
    }
  }

  lemma PassOn(w: Walk, c: nat)
    requires Sane(w, c) && w.status == Running && w.i < |w.l| && 1 <= c
    ensures Sane(Step(w, c), c) && Pass(w, c) == Pass(Step(w, c), c)
  {
    StepSane(w, c);
  }

  lemma {:induction false} PassNoStall(w: Walk, c: nat)
    requires Sane(w, c) && 1 <= c && w.d == [] && w.status != Stalled
    ensures Pass(w, c).d == [] && Pass(w, c).status != Stalled
    decreases |w.l| - w.i
  {
    if w.status == Running && w.i < |w.l| {
      StepSane(w, c);
      StepDone(w, c);
      PassNoStall(Step(w, c), c);
    }
  }

  lemma FinishedPlaced(w: Walk, c: nat)
    requires Tidy(w, c) && w.status == Running && w.i < |w.l| && 1 <= c && CleanStep(w, c)
    ensures Step(w, c).status == Finished ==> Step(w, c).d == []
  {
    StepTidy(w, c);
  }

  // ---- The theorem ----

  lemma GrowKeeps(l: seq<Request>, o: nat, d: seq<byte>, c: nat, blocks: nat, a: nat, b: nat)
    requires Sized(l, c) && AtEnd(l, o) && Overlaps(l, a, b) && 1 <= c
    ensures Overlaps(Append(l, o, d, c, blocks).l, a, b)
  {
  }

  lemma AppendTwin(l: seq<Request>, o: nat, d: seq<byte>, e: seq<byte>, c: nat, blocks: nat)
    requires Sized(l, c) && AtEnd(l, o) && 1 <= c && blocks > 0 && Twin(d, e) && !CleanAppend(l, o, d, c)
    ensures Append(l, o, e, c, blocks).l == Append(l, o, d, c, blocks).l
  {
    var k := Grown(l, o, d, c);
    assert d[..k] == d[..|d| - 1][..k] == e[..k];
    assert d[k..][..c] == d[..|d| - 1][k..k + c] == e[k..][..c];
  }

  /** A write that is not clean leaves overlapping requests, or ignores its own last byte. */
  lemma {:induction false} UncleanWrite(
    l: seq<Request>, o: nat, d: seq<byte>, e: seq<byte>, c: nat, blocks: nat)
    requires WellFormed(l, c) && 1 <= c && blocks >= 2 && Twin(d, e) && !Clean(l, o, d, c, blocks)
    ensures || !Disjoint(Attempt(l, o, d, c, blocks).l)
            || Attempt(l, o, d, c, blocks).l == Attempt(l, o, e, c, blocks).l
    decreases |l|, if AtEnd(l, o) then 0 else 1
  {
    if AtEnd(l, o) {
      AppendTwin(l, o, d, e, c, blocks);
    } else {
      var w := Start(l, o, d, blocks);
      var v := Pass(w, c);
      StartTidy(l, o, d, c, blocks);
      PassEnds(l, o, d, c, blocks);
      PassEnds(l, o, e, c, blocks);
      if CleanPass(w, c) {
        CleanPassTwin(w, e, c);
        CleanPassTidy(w, c);
        OverDisjoint(v, c);
        UncleanWrite(v.l, v.o, v.d, e[|e| - |v.d|..], c, v.blocks);
      } else {
        UncleanPass(w, e, c);
        if Crossed(v) {
          var a: nat, b: nat :| b < v.i && Overlaps(v.l, a, b);
          if v.status == Running && v.d != [] && Broken(v, c) {
            GrowKeeps(v.l, v.o, v.d, c, v.blocks, a, b);
          }
        }
      }
    }
  }

  lemma {:induction false} CleanPassTidy(w: Walk, c: nat)
    requires Tidy(w, c) && w.status == Running && 1 <= c && CleanPass(w, c)
    ensures TidyOrStalled(Pass(w, c), c)
    decreases |w.l| - w.i
  {
    if w.i < |w.l| {
      StepSane(w, c);
      StepTidy(w, c);
      if Step(w, c).status == Running {
        CleanPassTidy(Step(w, c), c);
      }
    }
  }

  /** With two blocks to be had a clean write never stalls. */
  lemma {:induction false} CleanCompletes(l: seq<Request>, o: nat, d: seq<byte>, c: nat, blocks: nat)
    requires WellFormed(l, c) && 1 <= c && blocks >= 2 && Clean(l, o, d, c, blocks)
    ensures Attempt(l, o, d, c, blocks).d == []
    decreases |l|, if AtEnd(l, o) then 0 else 1
  {
    if d != [] && !AtEnd(l, o) {
      var w := Start(l, o, d, blocks);
      StartTidy(l, o, d, c, blocks);
      PassEnds(l, o, d, c, blocks);
      CleanPassTwin(w, d, c);
      CleanPassTidy(w, c);
      var v := Pass(w, c);
      OverDisjoint(v, c);
      if v.status == Running && v.d != [] {
        CleanCompletes(v.l, v.o, v.d, c, v.blocks);
      }
    }
  }

  /** The write did what a write to a plain file does, and left the list in order. */
  ghost predicate Correct(l: seq<Request>, tape: seq<byte>, o: nat, d: seq<byte>, c: nat, blocks: nat)
    requires Sized(l, c) && 1 <= c
  {
    var r := Attempt(l, o, d, c, blocks);
    r.d == [] && Disjoint(r.l) && LookOverlay(l, r.l, tape, o, d)
  }

  lemma CorrectLast(l: seq<Request>, tape: seq<byte>, o: nat, d: seq<byte>, c: nat, blocks: nat)
    requires Sized(l, c) && 1 <= c && d != [] && Correct(l, tape, o, d, c, blocks)
    ensures Look(Attempt(l, o, d, c, blocks).l, tape, o + |d| - 1) == Some(d[|d| - 1])
  {
  }

  /**
   On a list in order, with two cache blocks to be had: every write of this length at this place is
   correct, whatever its bytes, if and only if this one is clean.
   */
  lemma CorrectExactlyWhenClean(l: seq<Request>, tape: seq<byte>, o: nat, d: seq<byte>, c: nat, blocks: nat)
    requires WellFormed(l, c) && 1 <= c && IPAgree(l, tape) && blocks >= 2
    ensures Clean(l, o, d, c, blocks) <==> forall e :: |e| == |d| ==> Correct(l, tape, o, e, c, blocks)
  {
    if Clean(l, o, d, c, blocks) {
      forall e | |e| == |d| ensures Correct(l, tape, o, e, c, blocks) {
        CleanByLength(l, o, d, e, c, blocks);
        CleanWrite(l, tape, o, e, c, blocks);
        CleanCompletes(l, o, e, c, blocks);
        assert e[..|e|] == e;
      }
    } else {
      var e := d[|d| - 1 := if d[|d| - 1] == 0 then 1 else 0];
      UncleanWrite(l, o, d, e, c, blocks);
      if Correct(l, tape, o, d, c, blocks) {
        CorrectLast(l, tape, o, d, c, blocks);
      }
      if Correct(l, tape, o, e, c, blocks) {
        CorrectLast(l, tape, o, e, c, blocks);
      }
      assert |e| == |d|;
    }
  }
}
