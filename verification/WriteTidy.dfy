/**
 The shape of the request list during a clean walk of unified_write (src/iosched/unified.c):
 sorted, and disjoint except for the settled request, whose overhang the next merges resolve.
 */
module WriteTidy {
  import opened Requests
  import opened RequestOps
  import opened WriteWalk

  /** Requests `j` and `k` of the list do not overlap, unless `j` is settled and `k` not yet visited. */
  predicate Apart(l: seq<Request>, p: int, i: nat, j: nat, k: nat)
    requires j < k < |l|
  {
    && l[j].offset < l[k].offset
    && (l[j].End() <= l[k].offset || (j == p && k >= i))
  }

  /** The shape of the list during a clean walk: only the settled request may reach too far. */
  ghost predicate Tidy(w: Walk, c: nat) {
    && Sane(w, c) && NoFullPartial(w.l, c)
    && (w.p == -1 || w.p == w.i - 1)
    && (forall j, k :: 0 <= j < k < |w.l| ==> Apart(w.l, w.p, w.i, j, k))
    && (w.d != [] ==> forall j :: 0 <= j < w.i && j != w.p ==> w.l[j].End() <= w.o)
    && (w.d != [] && w.p >= 0 && w.l[w.p].End() > w.o ==> w.i < |w.l| ==> w.o < w.l[w.i].offset)
    && (w.d == [] ==> w.p >= 0)
  }

  lemma InsertTidy(w: Walk, c: nat)
    requires Tidy(w, c) && w.i < |w.l| && 1 <= c && w.d != [] && w.o < w.l[w.i].offset && w.blocks > 0
    requires InsertOk(w, c)
    ensures Tidy(InsertBefore(w, c), c)
  {
    var v := InsertBefore(w, c);
    forall j, k | 0 <= j < k < |v.l| ensures Apart(v.l, v.p, v.i, j, k) {
      InsertApart(w, c, j, k);
    }
  }

  lemma InsertApart(w: Walk, c: nat, j: nat, k: nat)
    requires Tidy(w, c) && w.i < |w.l| && 1 <= c && w.d != [] && w.o < w.l[w.i].offset && w.blocks > 0
    requires InsertOk(w, c) && j < k <= |w.l|
    ensures Apart(InsertAt(w.l, w.i, NewRequest(w.o, w.d, c)), w.i, w.i + 1, j, k)
  {
    if k < w.i {
      assert Apart(w.l, w.p, w.i, j, k);
    } else if k == w.i {
      assert Apart(w.l, w.p, w.i, j, w.i);
    } else if j == w.i {
      assert w.i < k - 1 ==> Apart(w.l, w.p, w.i, w.i, k - 1);
    } else {
      assert Apart(w.l, w.p, w.i, if j > w.i then j - 1 else j, k - 1);
    }
  }

  lemma MergedTidy(w: Walk, c: nat, m: Merge)
    requires Tidy(w, c) && 0 <= w.p && w.i < |w.l|
    requires Merged(w.l, w.p, w.i, c, m) && NoFullPartial(m.list, c)
    ensures Tidy(w.(l := m.list), c)
  {
    var s := if m.result == 2 then 1 else 0;
    assert w.i + 1 < |w.l| ==> Apart(w.l, w.p, w.i, w.i, w.i + 1);
    var v := w.(l := m.list);
    forall j, k | 0 <= j < k < |v.l| ensures Apart(v.l, v.p, v.i, j, k) {
      var j', k' := if j >= w.i then j + s else j, if k >= w.i then k + s else k;
      assert Apart(w.l, w.p, w.i, j', k');
    }
  }

  /** Once the visited request is out of the settled one's way, nothing overlaps. */
  lemma MergedApart(w: Walk, c: nat, m: Merge)
    requires Tidy(w, c) && 0 <= w.p && w.i < |w.l|
    requires Merged(w.l, w.p, w.i, c, m) && m.result != 2
    ensures forall j, k :: 0 <= j < k < |m.list| ==> Apart(m.list, -1, 0, j, k)
  {
    forall j, k | 0 <= j < k < |m.list| ensures Apart(m.list, -1, 0, j, k) {
      assert Apart(w.l, w.p, w.i, j, k);
      assert k > w.i ==> Apart(w.l, w.p, w.i, w.i, k);
    }
  }

  lemma ApartDisjoint(l: seq<Request>)
    requires forall j, k :: 0 <= j < k < |l| ==> Apart(l, -1, 0, j, k)
    ensures Disjoint(l)
  {
    forall j, k | 0 <= j < k < |l| ensures l[j].End() <= l[k].offset {
      assert Apart(l, -1, 0, j, k);
    }
  }

  lemma MoveOnTidy(w: Walk, c: nat, m: Merge)
    requires Tidy(w, c) && 0 <= w.p && w.i < |w.l|
    requires Merged(w.l, w.p, w.i, c, m) && m.result != 2 && NoFullPartial(m.list, c)
    ensures Disjoint(m.list)
    ensures Tidy(w.(l := m.list, p := w.i, i := w.i + 1, d := []), c)
  {
    MergedApart(w, c, m);
    ApartDisjoint(m.list);
    var p, i := w.i, w.i + 1;
    forall j, k | 0 <= j < k < |m.list| ensures Apart(m.list, p, i, j, k) {
      assert Apart(m.list, -1, 0, j, k);
    }
  }

  /**
   What a step may leave: a tidy walk, a stalled one whose list is already in order, or a
   finished one.
   */
  ghost predicate TidyOrStalled(v: Walk, c: nat) {
    if v.status == Stalled then v.d != [] && Tidy(v.(p := -1), c)
    else Tidy(v, c) && (v.status == Finished ==> v.d == [] && Disjoint(v.l))
  }

  lemma SettleTidy(w: Walk, c: nat)
    requires Tidy(w, c) && w.i < |w.l| && w.status == Running
    ensures Tidy(Settle(w, c), c) && TidyOrStalled(Settle(w, c), c)
  {
    if w.p >= 0 {
      MergeIsMerged(w.l, w.p, w.i, c);
      MergeNoFull(w.l, w.p, w.i, c);
      var m := MergeAt(w.l, w.p, w.i, c);
      MergedTidy(w, c, m);
      if m.result != 2 && w.d == [] {
        MoveOnTidy(w, c, m);
      }
    }
  }

  /** The settled request ends before the visited one starts. */
  predicate Settled(w: Walk)
    requires w.i < |w.l| && w.p < |w.l|
  {
    w.p < 0 || w.l[w.p].End() <= w.l[w.i].offset
  }

  lemma SettleSettled(w: Walk, c: nat)
    requires Tidy(w, c) && w.i < |w.l|
    ensures var v := Settle(w, c); |v.l| == |w.l| && w.d != [] ==> Settled(v)
  {
    if w.p >= 0 {
      MergeIsMerged(w.l, w.p, w.i, c);
    }
  }

  /** In a tidy list with nothing overhanging, the settled request can be forgotten. */
  lemma ForgetTidy(w: Walk, c: nat)
    requires Tidy(w, c) && w.d != []
    requires w.i < |w.l| ==> Settled(w)
    requires w.p >= 0 ==> w.l[w.p].End() <= w.o
    ensures Tidy(w.(p := -1), c)
  {
    forall j, k | 0 <= j < k < |w.l| ensures Apart(w.l, -1, w.i, j, k) {
      assert Apart(w.l, w.p, w.i, j, k);
      assert k > w.i ==> Apart(w.l, w.p, w.i, w.i, k);
    }
  }

  lemma ReplaceTidy(w: Walk, c: nat)
    requires Tidy(w.(p := -1), c) && Sane(w, c)
    requires w.i < |w.l| && w.d != [] && w.o < w.l[w.i].offset && 1 <= c && |w.d| <= c
    requires w.status == Running
    ensures TidyOrStalled(Replace(w, c), c)
  {
    if w.blocks > 0 {
      assert InsertBefore(w, c) == InsertBefore(w.(p := -1), c);
      InsertTidy(w.(p := -1), c);
      SettleTidy(InsertBefore(w, c), c);
    }
  }

  lemma UpdateTidy(w: Walk, c: nat)
    requires Tidy(w.(p := -1), c) && w.i < |w.l| && w.d != []
    requires w.l[w.i].offset <= w.o <= w.l[w.i].End() && w.l[w.i].state != IP
    ensures var k := Taken(w.l[w.i], w.o, w.d, c);
      Tidy(w.(l := Update(w.l, w.i, w.o, w.d, c), p := w.i, i := w.i + 1, o := w.o + k, d := w.d[k..]), c)
  {
    var m := Update(w.l, w.i, w.o, w.d, c);
    UpdateNoFull(w.l, w.i, w.o, w.d, c);
    var next := w.i + 1;
    forall j, k | 0 <= j < k < |m| ensures Apart(m, w.i, next, j, k) {
      assert Apart(w.l, -1, w.i, j, k);
    }
  }

  lemma RemoveTidy(w: Walk, c: nat)
    requires Tidy(w, c) && w.i < |w.l| && w.d != [] && w.l[w.i].Covers(w.o)
    requires w.p >= 0 ==> w.l[w.p].End() <= w.o
    ensures Tidy(w.(l := Remove(w.l, w.i), blocks := w.blocks + 1), c)
  {
    var m := Remove(w.l, w.i);
    forall j, k | 0 <= j < k < |m| ensures Apart(m, w.p, w.i, j, k) {
      var j', k' := if j >= w.i then j + 1 else j, if k >= w.i then k + 1 else k;
      assert Apart(w.l, w.p, w.i, j', k');
    }
  }

  /** Trimming the visited request in place keeps everything apart. */
  lemma TrimTidy(w: Walk, c: nat, r: Request)
    requires Tidy(w.(p := -1), c) && w.i < |w.l| && w.d != []
    requires r.state == IP && 1 <= |r.data| <= c
    requires w.l[w.i].offset <= r.offset && r.End() <= w.l[w.i].End()
    ensures Tidy(w.(l := w.l[w.i := r], p := -1), c)
    ensures r.End() <= w.o ==> Tidy(w.(l := w.l[w.i := r], p := w.i, i := w.i + 1), c)
    ensures r.End() <= w.o ==> Tidy(w.(l := w.l[w.i := r], p := -1, i := w.i + 1), c)
  {
    var m := w.l[w.i := r];
    var next := w.i + 1;
    forall j, k | 0 <= j < k < |m|
      ensures Apart(m, -1, w.i, j, k) && Apart(m, w.i, next, j, k) && Apart(m, -1, next, j, k)
    {
      assert Apart(w.l, -1, w.i, j, k);
    }
  }

  lemma SplitTidy(w: Walk, c: nat, tail: Request)
    requires Tidy(w.(p := -1), c) && 0 < w.i <= |w.l| && w.d != []
    requires tail.state == IP && 1 <= |tail.data| <= c && w.l[w.i - 1].End() <= w.o < tail.offset
    requires w.i < |w.l| ==> tail.End() <= w.l[w.i].offset
    ensures Tidy(w.(l := InsertAt(w.l, w.i, tail), p := -1), c)
  {
    var m := InsertAt(w.l, w.i, tail);
    forall j, k | 0 <= j < k < |m| ensures Apart(m, -1, w.i, j, k) {
      var j', k' := if j > w.i then j - 1 else j, if k > w.i then k - 1 else k;
      assert j' < k' < |w.l| ==> Apart(w.l, -1, w.i, j', k');
      assert k == w.i && j < w.i - 1 ==> Apart(w.l, -1, w.i, j, w.i - 1);
      assert j == w.i && w.i < k' ==> Apart(w.l, -1, w.i, w.i, k');
    }
  }

  lemma CarveTidy(w: Walk, c: nat)
    requires Tidy(w.(p := -1), c) && Sane(w, c) && w.status == Running && w.d != []
    requires w.i < |w.l| && w.l[w.i].offset <= w.o && w.o + |w.d| < w.l[w.i].End()
    requires w.l[w.i].state == IP
    ensures var v := Carve(w);
      && Tidy(v.(p := -1), c) && Sane(v, c) && v.d == w.d && v.o == w.o
      && (v.status == Running ==> v.i < |v.l| && v.o < v.l[v.i].offset)
  {
    var r := w.l[w.i];
    if w.o == r.offset {
      var rest := Request(r.offset + |w.d|, r.data[|w.d|..], IP);
      assert Carve(w) == w.(l := w.l[w.i := rest]);
      CarveFrontTidy(w, c, rest);
    } else if w.blocks > 0 {
      var k := w.o - r.offset;
      var head, tail := r.(data := r.data[..k]), Request(w.o + |w.d|, r.data[k + |w.d|..], IP);
      assert Carve(w) == w.(l := InsertAt(w.l[w.i := head], w.i + 1, tail), i := w.i + 1, blocks := w.blocks - 1);
      CarveSplitTidy(w, c, k);
    } else {
      assert Carve(w) == w.(status := Stalled);
    }
  }

  lemma CarveFrontTidy(w: Walk, c: nat, r: Request)
    requires Tidy(w.(p := -1), c) && Sane(w, c) && w.d != [] && w.i < |w.l|
    requires r.state == IP && 1 <= |r.data| <= c && w.l[w.i].offset <= r.offset && r.End() <= w.l[w.i].End()
    ensures Tidy(w.(l := w.l[w.i := r], p := -1), c) && Sane(w.(l := w.l[w.i := r]), c)
  {
    TrimTidy(w, c, r);
  }

  lemma CarveSplitTidy(w: Walk, c: nat, k: nat)
    requires Tidy(w.(p := -1), c) && Sane(w, c) && w.d != []
    requires w.i < |w.l| && w.o == w.l[w.i].offset + k && 0 < k && k + |w.d| < |w.l[w.i].data|
    requires w.l[w.i].state == IP
    ensures var r := w.l[w.i];
      Tidy(w.(l := InsertAt(w.l[w.i := r.(data := r.data[..k])], w.i + 1,
                            Request(w.o + |w.d|, r.data[k + |w.d|..], IP)),
              p := -1, i := w.i + 1), c)
  {
    var r := w.l[w.i];
    var head := r.(data := r.data[..k]);
    var tail := Request(w.o + |w.d|, r.data[k + |w.d|..], IP);
    TrimTidy(w, c, head);
    assert w.i + 1 < |w.l| ==> Apart(w.l, -1, w.i, w.i, w.i + 1);
    SplitTidy(w.(l := w.l[w.i := head], p := -1, i := w.i + 1), c, tail);
  }

  lemma CutIPTidy(w: Walk, c: nat)
    requires Tidy(w, c) && Tidy(w.(p := -1), c) && w.status == Running
    requires w.i < |w.l| && w.d != [] && w.l[w.i].Covers(w.o) && 1 <= c && w.l[w.i].state == IP
    requires w.p >= 0 ==> w.l[w.p].End() <= w.o
    ensures TidyOrStalled(CutIP(w, c), c)
  {
    var r := w.l[w.i];
    if w.o + |w.d| < r.End() {
      CarveTidy(w, c);
      if Carve(w).status == Running {
        ReplaceTidy(Carve(w), c);
      }
    } else if w.o == r.offset {
      RemoveTidy(w, c);
    } else {
      TrimTidy(w, c, r.(data := r.data[..w.o - r.offset]));
    }
  }

  lemma PlaceTidy(w: Walk, c: nat)
    requires Tidy(w, c) && w.status == Running && 1 <= c
    requires w.i < |w.l| && Settled(w) && w.d != [] && w.l[w.i].offset <= w.o <= w.l[w.i].End()
    ensures TidyOrStalled(Place(w, c), c)
  {
    ForgetTidy(w, c);
    var r := w.l[w.i];
    if r.state != IP && (w.o < r.End() || |r.data| < c) {
      UpdateTidy(w, c);
    } else if r.state == IP && w.o < r.End() {
      CutIPTidy(w, c);
    } else {
      var next := w.i + 1;
      forall j, k | 0 <= j < k < |w.l| ensures Apart(w.l, w.i, next, j, k) {
        assert Apart(w.l, -1, w.i, j, k);
      }
    }
  }

  lemma VisitTidy(w: Walk, c: nat)
    requires Tidy(w, c) && w.status == Running && w.i < |w.l| && 1 <= c
    requires w.d != [] ==> w.l[w.i].offset <= w.o <= w.l[w.i].End()
    requires var v := Settle(w, c); w.d != [] && |v.l| == |w.l| ==> v.l[w.i].offset <= w.o
    ensures TidyOrStalled(Visit(w, c), c)
  {
    SettleTidy(w, c);
    SettleSettled(w, c);
    var v := Settle(w, c);
    if w.d != [] && |v.l| == |w.l| {
      PlaceTidy(v, c);
    }
  }

  /** A clean step keeps the walk tidy. */
  lemma StepTidy(w: Walk, c: nat)
    requires Tidy(w, c) && w.status == Running && w.i < |w.l| && 1 <= c && CleanStep(w, c)
    ensures TidyOrStalled(Step(w, c), c)
  {
    if w.o > w.l[w.i].End() {
      var next := w.i + 1;
      forall j, k | 0 <= j < k < |w.l| ensures Apart(w.l, w.p, next, j, k) {
        assert Apart(w.l, w.p, w.i, j, k);
      }
    } else if w.d == [] || w.o >= w.l[w.i].offset {
      VisitTidy(w, c);
    } else if w.blocks > 0 {
      InsertTidy(w, c);
      VisitTidy(InsertBefore(w, c), c);
    } else {
      ForgetTidy(w, c);
    }
  }
}
