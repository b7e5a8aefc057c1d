/**
 Which partition the queued bytes are for (src/iosched/unified.c: unified_write). With every byte of every
 request painted in the colour of its partition a write paints what it places in the data partition's
 colour, and nothing else changes its colour.
 */
module WritePaint {
  import opened Bytes
  import opened Requests
  import opened RequestOps
  import opened WriteWalk
  import opened UnifiedWrite
  import opened WriteShape
  import opened WriteQueue

  /** The colour of a request: 1 for the index partition, 0 for the data partition. */
  function Colour(r: Request): byte {
    One(r.state == IP)
  }

  predicate Plainly(d: seq<byte>, b: byte) {
    forall x :: 0 <= x < |d| ==> d[x] == b
  }

  function Paint(r: Request): (p: Request)
    ensures p.offset == r.offset && p.state == r.state && |p.data| == |r.data| && Plainly(p.data, Colour(r))
  {
    r.(data := seq(|r.data|, _ => Colour(r)))
  }

  lemma PaintIs(r: Request, q: Request)
    requires q.offset == r.offset && q.state == r.state && |q.data| == |r.data| && Plainly(q.data, Colour(r))
    ensures q == Paint(r)
  {
    assert q.data == Paint(r).data;
  }

  function Painted(l: seq<Request>): (m: seq<Request>)
    ensures |m| == |l| && forall j :: 0 <= j < |l| ==> m[j] == Paint(l[j])
  {
    seq(|l|, j requires 0 <= j < |l| => Paint(l[j]))
  }

  function PaintedWalk(w: Walk): Walk {
    w.(l := Painted(w.l), d := Zeros(|w.d|))
  }

  lemma PaintSized(l: seq<Request>, c: nat)
    requires Sized(l, c)
    ensures Sized(Painted(l), c)
  {
  }

  // ---- Each step paints as it goes ----

  lemma PaintUpdated(r: Request, o: nat, d: seq<byte>, e: seq<byte>, c: nat)
    requires r.offset <= o <= r.End() <= r.offset + c && |e| == |d| && Plainly(e, Colour(r))
    ensures Paint(r).End() == r.End() && Updated(Paint(r), o, e, c) == Paint(Updated(r, o, d, c))
  {
    PaintIs(Updated(r, o, d, c), Updated(Paint(r), o, e, c));
  }

  lemma PaintUpdate(l: seq<Request>, i: nat, o: nat, d: seq<byte>, e: seq<byte>, c: nat)
    requires i < |l| && l[i].offset <= o <= l[i].End() <= l[i].offset + c
    requires |e| == |d| && Plainly(e, Colour(l[i]))
    ensures Update(Painted(l), i, o, e, c) == Painted(Update(l, i, o, d, c))
  {
    PaintUpdated(l[i], o, d, e, c);
    assert Painted(l)[i := Updated(Paint(l[i]), o, e, c)] == Painted(l[i := Updated(l[i], o, d, c)]);
    PaintPromote(l[i := Updated(l[i], o, d, c)], o);
  }

  lemma PaintPromote(l: seq<Request>, o: nat)
    ensures Promote(Painted(l), o) == Painted(Promote(l, o))
  {
    forall j | 0 <= j < |l| ensures PromoteOne(Paint(l[j]), o) == Paint(PromoteOne(l[j], o)) {
      PaintIs(PromoteOne(l[j], o), PromoteOne(Paint(l[j]), o));
    }
  }

  lemma PaintMove(l: seq<Request>, p: nat, i: nat, c: nat)
    requires p < i < |l| && |l[p].data| <= c && l[i].offset <= l[p].End()
    ensures AfterMove(Painted(l), p, i, c) == Painted(AfterMove(l, p, i, c))
    ensures |Moved(Paint(l[p]), Paint(l[i]), c)| == |Moved(l[p], l[i], c)|
  {
    if MayMove(l[p], l[i], c) {
      var g := l[p].End() - l[i].offset;
      PaintUpdate(l, p, l[p].End(), l[i].data[g..], Paint(l[i]).data[g..], c);
    }
  }

  lemma PaintCut(l: seq<Request>, i: nat, g: nat)
    requires i < |l|
    ensures var m := CutFront(l, i, g); CutFront(Painted(l), i, g) == Merge(Painted(m.list), m.result)
  {
    var r := l[i];
    if 0 < g < |r.data| {
      var q := Request(r.offset + g, r.data[g..], if r.state == DP then Partial else r.state);
      PaintIs(q, Request(r.offset + g, Paint(r).data[g..], q.state));
      assert Painted(l)[i := Paint(q)] == Painted(l[i := q]);
    } else if g > 0 {
      assert Remove(Painted(l), i) == Painted(Remove(l, i));
    } else {
      assert Painted(l) == Painted(l);
    }
  }

  lemma PaintMerge(l: seq<Request>, p: nat, i: nat, c: nat)
    requires p < i < |l| && |l[p].data| <= c
    ensures var m := MergeAt(l, p, i, c); MergeAt(Painted(l), p, i, c) == Merge(Painted(m.list), m.result)
  {
    if l[i].offset <= l[p].End() {
      PaintMove(l, p, i, c);
      PaintCut(AfterMove(l, p, i, c), i, l[p].End() - l[i].offset + |Moved(l[p], l[i], c)|);
    }
  }

  lemma PaintNew(o: nat, d: seq<byte>, c: nat)
    ensures NewRequest(o, Zeros(|d|), c) == Paint(NewRequest(o, d, c))
  {
    PaintIs(NewRequest(o, d, c), NewRequest(o, Zeros(|d|), c));
  }

  lemma PaintInsert(l: seq<Request>, i: nat, r: Request)
    requires i <= |l|
    ensures InsertAt(Painted(l), i, Paint(r)) == Painted(InsertAt(l, i, r))
  {
  }

  lemma PaintInsertBefore(w: Walk, c: nat)
    requires w.i < |w.l|
    ensures InsertBefore(PaintedWalk(w), c) == PaintedWalk(InsertBefore(w, c))
  {
    assert w.d == [] <==> Zeros(|w.d|) == [];
    if w.d != [] && w.o < w.l[w.i].offset && w.blocks > 0 {
      PaintNew(w.o, w.d, c);
      PaintInsert(w.l, w.i, NewRequest(w.o, w.d, c));
      assert Zeros(0) == [];
    }
  }

  lemma PaintSettle(w: Walk, c: nat)
    requires Sane(w, c) && w.i < |w.l|
    ensures Sane(PaintedWalk(w), c) && Settle(PaintedWalk(w), c) == PaintedWalk(Settle(w, c))
  {
    PaintSized(w.l, c);
    assert w.d == [] <==> Zeros(|w.d|) == [];
    if w.p >= 0 {
      PaintMerge(w.l, w.p, w.i, c);
    }
  }

  lemma PaintReplace(w: Walk, c: nat)
    requires Sane(w, c) && w.i < |w.l| && w.d != [] && w.o < w.l[w.i].offset && 1 <= c
    ensures Sane(PaintedWalk(w), c) && Replace(PaintedWalk(w), c) == PaintedWalk(Replace(w, c))
  {
    PaintSized(w.l, c);
    PaintInsertBefore(w, c);
    var u := InsertBefore(w, c);
    if u.status != Stalled {
      PaintSettle(u, c);
    }
  }

  /** `q` is `r` in its colour: put into the painted list it is `r` put into the list, painted. */
  lemma PaintSet(l: seq<Request>, i: nat, r: Request, q: Request)
    requires i < |l| && q.offset == r.offset && q.state == r.state && |q.data| == |r.data|
    requires Plainly(q.data, Colour(r))
    ensures q == Paint(r) && Painted(l)[i := q] == Painted(l[i := r])
  {
    PaintIs(r, q);
  }

  lemma PaintCarveFront(w: Walk, n: nat)
    requires w.i < |w.l| && n == |w.d| < |w.l[w.i].data| && w.l[w.i].offset == w.o
    ensures Carve(PaintedWalk(w)) == PaintedWalk(Carve(w))
  {
    var r, p := w.l[w.i], Paint(w.l[w.i]);
    PaintSet(w.l, w.i, Request(r.offset + n, r.data[n..], r.state), Request(r.offset + n, p.data[n..], r.state));
  }

  lemma PaintSplit(l: seq<Request>, i: nat, k: nat, o: nat, m: nat)
    requires i < |l| && l[i].state == IP && k <= m <= |l[i].data|
    ensures var r, p := l[i], Paint(l[i]);
      InsertAt(Painted(l)[i := p.(data := p.data[..k])], i + 1, Request(o, p.data[m..], IP))
        == Painted(InsertAt(l[i := r.(data := r.data[..k])], i + 1, Request(o, r.data[m..], IP)))
  {
    var r, p := l[i], Paint(l[i]);
    var head, tail := r.(data := r.data[..k]), Request(o, r.data[m..], IP);
    PaintSet(l, i, head, p.(data := p.data[..k]));
    PaintIs(tail, Request(o, p.data[m..], IP));
    PaintInsert(l[i := head], i + 1, tail);
  }

  lemma PaintCarve(w: Walk)
    requires w.i < |w.l| && w.l[w.i].offset <= w.o && w.o + |w.d| < w.l[w.i].End() && w.l[w.i].state == IP
    ensures Carve(PaintedWalk(w)) == PaintedWalk(Carve(w))
  {
    var k := w.o - w.l[w.i].offset;
    if k == 0 {
      PaintCarveFront(w, |w.d|);
    } else if w.blocks > 0 {
      PaintSplit(w.l, w.i, k, w.o + |w.d|, k + |w.d|);
    }
  }

  lemma PaintCutWithin(w: Walk, c: nat)
    requires Sane(w, c) && w.i < |w.l| && w.d != [] && w.l[w.i].Covers(w.o) && 1 <= c && w.l[w.i].state == IP
    requires Sane(PaintedWalk(w), c) && w.o + |w.d| < w.l[w.i].End()
    ensures CutIP(PaintedWalk(w), c) == PaintedWalk(CutIP(w, c))
  {
    PaintCarve(w);
    var v := Carve(w);
    if v.status != Stalled {
      PaintReplace(v, c);
    }
  }

  lemma PaintCutTail(w: Walk, c: nat)
    requires Sane(w, c) && w.i < |w.l| && w.d != [] && w.l[w.i].Covers(w.o) && 1 <= c
    requires Sane(PaintedWalk(w), c) && w.o + |w.d| >= w.l[w.i].End()
    ensures CutIP(PaintedWalk(w), c) == PaintedWalk(CutIP(w, c))
  {
    var r, p := w.l[w.i], Paint(w.l[w.i]);
    var k := w.o - r.offset;
    if k == 0 {
      assert Remove(Painted(w.l), w.i) == Painted(Remove(w.l, w.i));
    } else {
      PaintSet(w.l, w.i, r.(data := r.data[..k]), p.(data := p.data[..k]));
    }
  }

  lemma PaintCutIP(w: Walk, c: nat)
    requires Sane(w, c) && w.i < |w.l| && w.d != [] && w.l[w.i].Covers(w.o) && 1 <= c && w.l[w.i].state == IP
    ensures Sane(PaintedWalk(w), c) && CutIP(PaintedWalk(w), c) == PaintedWalk(CutIP(w, c))
  {
    PaintSized(w.l, c);
    if w.o + |w.d| < w.l[w.i].End() {
      PaintCutWithin(w, c);
    } else {
      PaintCutTail(w, c);
    }
  }

  lemma PaintPlace(w: Walk, c: nat)
    requires Sane(w, c) && w.i < |w.l| && w.d != [] && w.o <= w.l[w.i].End() && 1 <= c
    ensures Sane(PaintedWalk(w), c) && Place(PaintedWalk(w), c) == PaintedWalk(Place(w, c))
  {
    PaintSized(w.l, c);
    var r := w.l[w.i];
    if w.o < r.offset {
      PaintReplace(w, c);
    } else if r.state != IP && (w.o < r.End() || |r.data| < c) {
      PaintUpdate(w.l, w.i, w.o, w.d, Zeros(|w.d|), c);
      var k := Taken(r, w.o, w.d, c);
      assert Zeros(|w.d|)[k..] == Zeros(|w.d[k..]|);
    } else if r.state == IP && w.o < r.End() {
      PaintCutIP(w, c);
    }
  }

  lemma PaintVisit(w: Walk, c: nat)
    requires Sane(w, c) && w.i < |w.l| && 1 <= c && w.status == Running && (w.d != [] ==> w.o <= w.l[w.i].End())
    ensures Sane(PaintedWalk(w), c) && Visit(PaintedWalk(w), c) == PaintedWalk(Visit(w, c))
  {
    PaintSettle(w, c);
    SettleSane(w, c);
    var v := Settle(w, c);
    assert w.d == [] <==> Zeros(|w.d|) == [];
    if w.d != [] && |v.l| >= |w.l| {
      PaintPlace(v, c);
    }
  }

  /** A step on the painted list is the step, painted. */
  lemma PaintStep(w: Walk, c: nat)
    requires Sane(w, c) && w.i < |w.l| && 1 <= c && w.status == Running
    ensures Sane(PaintedWalk(w), c) && Step(PaintedWalk(w), c) == PaintedWalk(Step(w, c))
  {
    PaintSized(w.l, c);
    if w.o <= w.l[w.i].End() {
      PaintInsertBefore(w, c);
      var u := InsertBefore(w, c);
      if u.status != Stalled {
        PaintVisit(u, c);
      }
    }
  }

  lemma {:induction false} PaintPass(w: Walk, c: nat)
    requires Sane(w, c) && 1 <= c
    ensures Sane(PaintedWalk(w), c) && Pass(PaintedWalk(w), c) == PaintedWalk(Pass(w, c))
    decreases if w.status == Stalled then 0 else 1, |w.l| - w.i
  {
    PaintSized(w.l, c);
    if w.status == Running && w.i < |w.l| {
      PaintStep(w, c);
      StepSane(w, c);
      PaintPass(Step(w, c), c);
    }
  }

  function PaintedOutcome(r: Outcome): Outcome {
    Outcome(Painted(r.l), r.o, Zeros(|r.d|), r.blocks)
  }

  lemma PaintGrow(l: seq<Request>, o: nat, d: seq<byte>, c: nat)
    requires Sized(l, c)
    ensures Sized(Painted(l), c) && Grow(Painted(l), o, Zeros(|d|), c) == Painted(Grow(l, o, d, c))
    ensures Grown(Painted(l), o, Zeros(|d|), c) == Grown(l, o, d, c)
  {
    PaintSized(l, c);
    if CanGrow(l, o, c) {
      PaintUpdate(l, |l| - 1, o, d, Zeros(|d|), c);
    }
  }

  lemma PaintInsertEnd(l: seq<Request>, o: nat, d: seq<byte>, c: nat, blocks: nat)
    ensures InsertEnd(Painted(l), o, Zeros(|d|), c, blocks) == PaintedOutcome(InsertEnd(l, o, d, c, blocks))
  {
    assert d == [] <==> Zeros(|d|) == [];
    PaintNew(o, d, c);
    assert Painted(l) + [NewRequest(o, Zeros(|d|), c)] == Painted(l + [NewRequest(o, d, c)]);
    assert Zeros(0) == [];
  }

  lemma PaintRest(m: seq<Request>, o: nat, d: seq<byte>, k: nat, c: nat, blocks: nat)
    requires k <= |d|
    ensures InsertEnd(Painted(m), o + k, Zeros(|d|)[k..], c, blocks)
         == PaintedOutcome(InsertEnd(m, o + k, d[k..], c, blocks))
  {
    assert Zeros(|d|)[k..] == Zeros(|d[k..]|);
    PaintInsertEnd(m, o + k, d[k..], c, blocks);
  }

  lemma PaintAppend(l: seq<Request>, o: nat, d: seq<byte>, c: nat, blocks: nat)
    requires Sized(l, c) && AtEnd(l, o)
    ensures Sized(Painted(l), c) && AtEnd(Painted(l), o)
    ensures Append(Painted(l), o, Zeros(|d|), c, blocks) == PaintedOutcome(Append(l, o, d, c, blocks))
  {
    PaintGrow(l, o, d, c);
    PaintRest(Grow(l, o, d, c), o, d, Grown(l, o, d, c), c, blocks);
  }

  /** An attempt on the painted list is the attempt, painted: its colours are those of the states. */
  lemma {:induction false} PaintAttempt(l: seq<Request>, o: nat, d: seq<byte>, c: nat, blocks: nat)
    requires Sized(l, c) && 1 <= c
    ensures Sized(Painted(l), c)
    ensures Attempt(Painted(l), o, Zeros(|d|), c, blocks) == PaintedOutcome(Attempt(l, o, d, c, blocks))
    decreases |l|, if AtEnd(l, o) then 0 else 1
  {
    PaintSized(l, c);
    assert d == [] <==> Zeros(|d|) == [];
    if d != [] && AtEnd(l, o) {
      PaintAppend(l, o, d, c, blocks);
    } else if d != [] {
      PaintPass(Start(l, o, d, blocks), c);
      PassEnds(l, o, d, c, blocks);
      var v := Pass(Start(l, o, d, blocks), c);
      if v.status == Running && v.d != [] {
        PaintAttempt(v.l, v.o, v.d, c, v.blocks);
      }
    }
  }

  // ---- What the colours say ----

  /** The partition the byte at `x` is queued for, if it is queued. */
  function QueuedFor(l: seq<Request>, x: nat): Option<byte> {
    Lookup(Painted(l), x)
  }

  /** It is the partition of the first request that has the byte. */
  lemma {:induction false} QueuedForFirst(l: seq<Request>, x: nat)
    ensures QueuedFor(l, x) == if l == [] then None
                               else if l[0].Covers(x) then Some(Colour(l[0])) else QueuedFor(l[1..], x)
  {
    if l != [] {
      assert Painted(l)[1..] == Painted(l[1..]);
    }
  }

  lemma PaintedWellFormed(l: seq<Request>, o: nat, d: seq<byte>, c: nat, blocks: nat)
    requires WellFormed(l, c) && 1 <= c && Clean(l, o, d, c, blocks)
    ensures WellFormed(Painted(l), c) && Clean(Painted(l), o, Zeros(|d|), c, blocks)
  {
    CleanLike(l, Painted(l), o, d, Zeros(|d|), c, blocks);
  }

  /**
   After a clean attempt what it has placed is queued for the data partition. Every byte outside of the write
   is queued for the partition it was queued for, or not queued as before.
   */
  lemma CleanWriteKeepsPartitions(l: seq<Request>, o: nat, d: seq<byte>, c: nat, blocks: nat, x: nat)
    requires WellFormed(l, c) && 1 <= c && Clean(l, o, d, c, blocks)
    ensures var r := Attempt(l, o, d, c, blocks);
      && (o <= x < r.o ==> QueuedFor(r.l, x) == Some(0))
      && (!(o <= x < o + |d|) ==> QueuedFor(r.l, x) == QueuedFor(l, x))
  {
    PaintedWellFormed(l, o, d, c, blocks);
    PaintAttempt(l, o, d, c, blocks);
    CleanWriteQueues(Painted(l), o, Zeros(|d|), c, blocks, x);
    assert |PaintedOutcome(Attempt(l, o, d, c, blocks)).d| == |Attempt(l, o, d, c, blocks).d|;
  }
}
