/**
 How far a write reaches (src/iosched/unified.c: unified_write, which breaks off once the bytes are placed and
 a request did not merge into the one before): behind a gap that lies past the end of the write nothing changes.
 */
module WriteLocal {
  import opened Bytes
  import opened Requests
  import opened RequestOps
  import opened WriteWalk
  import opened UnifiedWrite

  /**
   The list goes on with `rest` behind its first `k` requests, which end before `g`, where `rest` starts.
   */
  ghost predicate GapAt(l: seq<Request>, k: nat, rest: seq<Request>, g: nat) {
    && k <= |l| && l[k..] == rest && rest != [] && rest[0].offset == g
    && forall j :: 0 <= j < k ==> l[j].End() < g
  }

  /** The walk is not past the gap yet, and neither is the write. */
  ghost predicate Before(w: Walk, rest: seq<Request>, g: nat) {
    w.i + |rest| <= |w.l| && GapAt(w.l, |w.l| - |rest|, rest, g) && w.o + |w.d| < g
  }

  /** What a step leaves: a walk that goes on before the gap, or one that is over with the gap still there. */
  ghost predicate Short(v: Walk, rest: seq<Request>, g: nat) {
    && |rest| <= |v.l| && GapAt(v.l, |v.l| - |rest|, rest, g) && v.o + |v.d| < g
    && (v.status == Running ==> v.i + |rest| <= |v.l|)
  }

  lemma UpdateGap(l: seq<Request>, i: nat, o: nat, d: seq<byte>, c: nat, k: nat, rest: seq<Request>, g: nat)
    requires GapAt(l, k, rest, g) && Increasing(rest) && i < k && l[i].offset <= o <= l[i].End() <= l[i].offset + c
    requires o + Min(Room(l[i], o, c), |d|) < g
    ensures GapAt(Update(l, i, o, d, c), k, rest, g)
  {
    var m := Update(l, i, o, d, c);
    forall j | 0 <= j < |rest| ensures m[k + j] == rest[j] {
      assert l[k..][j] == rest[j] && rest[j].offset >= g;
    }
    assert m[k..] == rest;
  }

  /** The requests behind the gap start in order. */
  ghost predicate Increasing(rest: seq<Request>) {
    forall j :: 0 <= j < |rest| ==> rest[0].offset <= rest[j].offset
  }

  lemma MoveGap(l: seq<Request>, p: nat, i: nat, c: nat, k: nat, rest: seq<Request>, g: nat)
    requires GapAt(l, k, rest, g) && Increasing(rest) && p < i < k && |l[p].data| <= c && l[i].offset <= l[p].End()
    ensures GapAt(AfterMove(l, p, i, c), k, rest, g)
  {
    if MayMove(l[p], l[i], c) {
      UpdateGap(l, p, l[p].End(), l[i].data[l[p].End() - l[i].offset..], c, k, rest, g);
    }
  }

  /** The gap is still there after a merge before it. */
  ghost predicate StillGap(l: seq<Request>, m: Merge, k: nat, rest: seq<Request>, g: nat) {
    && 0 < k && |m.list| == |l| - One(m.result == 2)
    && GapAt(m.list, k - One(m.result == 2), rest, g)
  }

  lemma CutGap(l: seq<Request>, i: nat, n: nat, k: nat, rest: seq<Request>, g: nat)
    requires GapAt(l, k, rest, g) && i < k
    ensures var m := CutFront(l, i, n); StillGap(l, m, k, rest, g)
  {
    var m := CutFront(l, i, n);
    assert m.list[k - One(m.result == 2)..] == l[k..];
  }

  lemma MergeGap(l: seq<Request>, p: nat, i: nat, c: nat, k: nat, rest: seq<Request>, g: nat)
    requires GapAt(l, k, rest, g) && Increasing(rest) && p < i < k && |l[p].data| <= c
    ensures var m := MergeAt(l, p, i, c); StillGap(l, m, k, rest, g)
  {
    if l[i].offset <= l[p].End() {
      MoveGap(l, p, i, c, k, rest, g);
      CutGap(AfterMove(l, p, i, c), i, l[p].End() - l[i].offset + |Moved(l[p], l[i], c)|, k, rest, g);
    }
  }

  /** At the gap nothing merges, and a walk with nothing left to place is over. */
  lemma SettleAtGap(w: Walk, c: nat, rest: seq<Request>, g: nat)
    requires Sane(w, c) && w.i < |w.l| && w.d == [] && GapAt(w.l, w.i, rest, g)
    ensures var v := Settle(w, c); v.l == w.l && v.status == Finished && v.o == w.o && v.d == w.d
  {
  }

  lemma SettleBefore(w: Walk, c: nat, rest: seq<Request>, g: nat)
    requires Sane(w, c) && Before(w, rest, g) && Increasing(rest) && w.i + |rest| < |w.l|
    ensures Short(Settle(w, c), rest, g)
  {
    if w.p >= 0 {
      MergeGap(w.l, w.p, w.i, c, |w.l| - |rest|, rest, g);
    }
  }

  lemma InsertGap(l: seq<Request>, i: nat, r: Request, k: nat, rest: seq<Request>, g: nat)
    requires GapAt(l, k, rest, g) && i <= k && r.End() < g
    ensures GapAt(InsertAt(l, i, r), k + 1, rest, g)
  {
    assert InsertAt(l, i, r)[k + 1..] == l[k..];
  }

  lemma InsertShort(w: Walk, c: nat, rest: seq<Request>, g: nat)
    requires Before(w, rest, g) && w.d != [] && w.o < w.l[w.i].offset && w.blocks > 0
    ensures Before(InsertBefore(w, c), rest, g)
  {
    InsertGap(w.l, w.i, NewRequest(w.o, w.d, c), |w.l| - |rest|, rest, g);
  }

  lemma SettleShort(w: Walk, c: nat, rest: seq<Request>, g: nat)
    requires Sane(w, c) && Before(w, rest, g) && Increasing(rest) && w.d == [] && w.status == Running
    ensures w.i < |w.l| && Short(Settle(w, c), rest, g)
  {
    if w.i + |rest| == |w.l| {
      SettleAtGap(w, c, rest, g);
    } else {
      SettleBefore(w, c, rest, g);
    }
  }

  lemma ReplaceShort(w: Walk, c: nat, rest: seq<Request>, g: nat)
    requires Sane(w, c) && Before(w, rest, g) && Increasing(rest) && w.status == Running && 1 <= c
    requires w.d != [] && w.o < w.l[w.i].offset
    ensures Short(Replace(w, c), rest, g)
  {
    if w.blocks > 0 {
      InsertShort(w, c, rest, g);
      SettleShort(InsertBefore(w, c), c, rest, g);
    }
  }

  lemma SetGap(l: seq<Request>, i: nat, r: Request, k: nat, rest: seq<Request>, g: nat)
    requires GapAt(l, k, rest, g) && i < k && r.End() < g
    ensures GapAt(l[i := r], k, rest, g)
  {
    assert l[i := r][k..] == l[k..];
  }

  lemma SplitGap(l: seq<Request>, i: nat, r: Request, q: Request, k: nat, rest: seq<Request>, g: nat)
    requires GapAt(l, k, rest, g) && i < k && r.End() < g && q.End() < g
    ensures GapAt(InsertAt(l[i := r], i + 1, q), k + 1, rest, g)
  {
    SetGap(l, i, r, k, rest, g);
    InsertGap(l[i := r], i + 1, q, k, rest, g);
  }

  lemma CarveGap(w: Walk, n: nat, rest: seq<Request>, g: nat)
    requires w.i < n && GapAt(w.l, n, rest, g) && w.l[w.i].offset <= w.o && w.o + |w.d| < w.l[w.i].End()
    ensures var v := Carve(w); GapAt(v.l, n + |v.l| - |w.l|, rest, g)
  {
    var r := w.l[w.i];
    var k := w.o - r.offset;
    if k == 0 {
      SetGap(w.l, w.i, Request(r.offset + |w.d|, r.data[|w.d|..], r.state), n, rest, g);
    } else if w.blocks > 0 {
      SplitGap(w.l, w.i, r.(data := r.data[..k]), Request(w.o + |w.d|, r.data[k + |w.d|..], IP), n, rest, g);
    }
  }

  lemma CarveShort(w: Walk, rest: seq<Request>, g: nat)
    requires Before(w, rest, g) && w.i + |rest| < |w.l| && w.l[w.i].offset <= w.o && w.o + |w.d| < w.l[w.i].End()
    ensures var v := Carve(w); |rest| <= |v.l| && Before(v, rest, g)
  {
    CarveGap(w, |w.l| - |rest|, rest, g);
  }

  lemma CutWithinShort(w: Walk, c: nat, rest: seq<Request>, g: nat)
    requires Sane(w, c) && Before(w, rest, g) && Increasing(rest) && w.status == Running && 1 <= c
    requires w.i + |rest| < |w.l| && w.d != [] && w.l[w.i].Covers(w.o) && w.o + |w.d| < w.l[w.i].End()
    ensures Short(CutIP(w, c), rest, g)
  {
    CarveShort(w, rest, g);
    var v := Carve(w);
    assert Sane(v, c);
    if v.status != Stalled {
      ReplaceShort(v, c, rest, g);
    }
  }

  lemma CutIPShort(w: Walk, c: nat, rest: seq<Request>, g: nat)
    requires Sane(w, c) && Before(w, rest, g) && Increasing(rest) && w.status == Running && 1 <= c
    requires w.i + |rest| < |w.l| && w.d != [] && w.l[w.i].Covers(w.o)
    ensures Short(CutIP(w, c), rest, g)
  {
    var r, n := w.l[w.i], |w.l| - |rest|;
    if w.o + |w.d| < r.End() {
      CutWithinShort(w, c, rest, g);
    } else if w.o == r.offset {
      assert Remove(w.l, w.i)[n - 1..] == w.l[n..];
    } else {
      SetGap(w.l, w.i, r.(data := r.data[..w.o - r.offset]), n, rest, g);
    }
  }

  lemma UpdateShort(w: Walk, c: nat, rest: seq<Request>, g: nat)
    requires Before(w, rest, g) && Increasing(rest) && w.i + |rest| < |w.l|
    requires w.l[w.i].offset <= w.o <= w.l[w.i].End() <= w.l[w.i].offset + c
    ensures var k := Taken(w.l[w.i], w.o, w.d, c);
      Short(w.(l := Update(w.l, w.i, w.o, w.d, c), p := w.i, i := w.i + 1, o := w.o + k, d := w.d[k..]), rest, g)
  {
    UpdateGap(w.l, w.i, w.o, w.d, c, |w.l| - |rest|, rest, g);
  }

  lemma PlaceShort(w: Walk, c: nat, rest: seq<Request>, g: nat)
    requires Sane(w, c) && Before(w, rest, g) && Increasing(rest) && w.status == Running && 1 <= c
    requires w.i + |rest| < |w.l| && w.d != [] && w.o <= w.l[w.i].End()
    ensures Short(Place(w, c), rest, g)
  {
    var r := w.l[w.i];
    if w.o < r.offset {
      ReplaceShort(w, c, rest, g);
    } else if r.state != IP && (w.o < r.End() || |r.data| < c) {
      UpdateShort(w, c, rest, g);
    } else if r.state == IP && w.o < r.End() {
      CutIPShort(w, c, rest, g);
    }
  }

  lemma VisitShort(w: Walk, c: nat, rest: seq<Request>, g: nat)
    requires Sane(w, c) && Before(w, rest, g) && Increasing(rest) && w.status == Running && 1 <= c
    requires w.i < |w.l| && (w.d != [] ==> w.o <= w.l[w.i].End() && w.i + |rest| < |w.l|)
    ensures Short(Visit(w, c), rest, g)
  {
    if w.d == [] {
      SettleShort(w, c, rest, g);
    } else {
      SettleBefore(w, c, rest, g);
      SettleSane(w, c);
      var v := Settle(w, c);
      if |v.l| >= |w.l| {
        PlaceShort(v, c, rest, g);
      }
    }
  }

  lemma StepShort(w: Walk, c: nat, rest: seq<Request>, g: nat)
    requires Sane(w, c) && Before(w, rest, g) && Increasing(rest) && w.status == Running && 1 <= c
    ensures w.i < |w.l| && Short(Step(w, c), rest, g)
  {
    if w.o <= w.l[w.i].End() {
      var u := InsertBefore(w, c);
      if w.d != [] && w.o < w.l[w.i].offset && w.blocks > 0 {
        InsertShort(w, c, rest, g);
        VisitShort(u, c, rest, g);
      } else if u.status != Stalled {
        VisitShort(u, c, rest, g);
      }
    }
  }

  lemma {:induction false} PassShort(w: Walk, c: nat, rest: seq<Request>, g: nat)
    requires Sane(w, c) && Before(w, rest, g) && Increasing(rest) && w.status == Running && 1 <= c
    ensures var v := Pass(w, c); v.status != Running && Short(v, rest, g)
    decreases |w.l| - w.i
  {
    StepShort(w, c, rest, g);
    StepSane(w, c);
    var v := Step(w, c);
    if v.status == Running {
      PassShort(v, c, rest, g);
    } else {
      assert Pass(v, c) == v;
    }
  }

  /**
   For every list and every write, clean or not: if all requests before the `k`-th end before it starts, and
   the write ends before it starts as well, the `k`-th request and all behind it are still there as they were.
   */
  lemma WriteStopsAtGap(l: seq<Request>, o: nat, d: seq<byte>, c: nat, blocks: nat, k: nat)
    requires Sized(l, c) && 1 <= c && k < |l| && o + |d| < l[k].offset
    requires (forall j :: 0 <= j < k ==> l[j].End() < l[k].offset) && Increasing(l[k..])
    ensures var m := Attempt(l, o, d, c, blocks).l; |m| >= |l| - k && m[|m| - (|l| - k)..] == l[k..]
  {
    if d != [] {
      assert l[k..][0] == l[k] && l[k..][|l| - 1 - k] == l[|l| - 1];
      PassShort(Start(l, o, d, blocks), c, l[k..], l[k].offset);
    }
  }
}
