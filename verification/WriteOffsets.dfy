/**
 Exactly when a write to a list without index-partition requests is clean, as a condition on offsets
 and block size that can be checked before the call, for writes of any length.
 */
module WriteOffsets {
  import opened Bytes
  import opened Requests
  import opened RequestOps
  import opened WriteWalk
  import opened WriteTidy
  import opened UnifiedWrite
  import opened WriteExact
  import opened WriteTame

  /** The first request that reaches `o`: the first one the loop does not pass over. */
  function FirstReach(l: seq<Request>, o: nat): (i: nat)
    ensures i <= |l| && (forall j :: 0 <= j < i ==> l[j].End() < o) && (i < |l| ==> l[i].End() >= o)
  {
    if l == [] || l[0].End() >= o then 0 else 1 + FirstReach(l[1..], o)
  }

  /** The next request reaches to `e`, if there is one. */
  predicate NextReaches(l: seq<Request>, i: nat, e: nat) {
    i < |l| ==> l[i].End() >= e
  }

  /**
   A write goes on at `b` behind a full request and ends at `e`; `m` are the requests ahead. None ends before
   `b`; those that end there are dropped. If the rest fits one block, the next request takes it or comes
   behind it, and the one after that reaches to the end of the write. If it does not, the next request must
   start by `b`; it is filled from `b` on, and the write goes on one block later.
   */
  predicate GoesThrough(m: seq<Request>, b: nat, e: nat, c: nat) {
    if m == [] then e - b <= c
    else if m[0].End() <= b then m[0].End() == b && GoesThrough(m[1..], b, e, c)
    else if e - b <= c then NextReaches(m, 1, e)
    else m[0].offset <= b && GoesThrough(m[1..], b + c, e, c)
  }

  /** A write of [o, e) meets request `r` first, with the requests `m` behind it. */
  predicate Meets(r: Request, m: seq<Request>, o: nat, e: nat, c: nat) {
    var b := Min(e, r.offset + c);
    if o < r.offset then e - o <= c && NextReaches(m, 0, e)
    else if b == e then NextReaches(m, 0, e)
    else GoesThrough(m, b, e, c)
  }

  predicate CleanPlace(l: seq<Request>, o: nat, n: nat, c: nat) {
    var i := FirstReach(l, o);
    if i < |l| then Meets(l[i], l[i + 1..], o, o + n, c) else n <= c
  }

  // ---- After the whole write was placed ----

  /** The requests from `i` on are in order. */
  ghost predicate InOrderFrom(l: seq<Request>, i: nat) {
    forall j, k :: i <= j < k < |l| ==> l[j].End() < l[k].End()
  }

  lemma TidyInOrder(w: Walk, c: nat)
    requires Tidy(w, c)
    ensures InOrderFrom(w.l, w.i)
  {
    forall j, k | w.i <= j < k < |w.l| ensures w.l[j].End() < w.l[k].End() {
      assert Apart(w.l, w.p, w.i, j, k);
    }
  }

  /** The loop goes on cleanly after a placed write exactly if the next request reaches to its end. */
  lemma PlacedClean(w: Walk, c: nat)
    requires Tidy(w, c) && w.status == Running && 1 <= c && w.d == []
    ensures CleanPass(w, c) <==> NextReaches(w.l, w.i, w.o)
    ensures Pass(w, c).d == []
  {
    PassNoStall(w, c);
    if w.i < |w.l| && w.l[w.i].End() >= w.o {
      TidyInOrder(w, c);
      assert TameAhead(w, w.o, c);
      TamePass(w, c, w.o);
    }
  }

  // ---- The rest of the write is inserted ----

  lemma SettledNext(u: Walk, c: nat)
    requires Tidy(u, c) && u.status == Running && u.i < |u.l| && u.d == [] && u.l[u.p].End() == u.o
    ensures var v := Settle(u, c);
      if v.status == Finished then NextReaches(u.l, u.i + 1, u.o)
      else v.status == Running && (NextReaches(v.l, v.i, u.o) <==> NextReaches(u.l, u.i + 1, u.o))
  {
    MergeIsMerged(u.l, u.p, u.i, c);
    TidyInOrder(u, c);
  }

  lemma InsertClean(w: Walk, c: nat)
    requires Tidy(w, c) && w.status == Running && 1 <= c && w.i < |w.l| && w.d != [] && w.blocks > 0
    requires w.o < w.l[w.i].offset && InsertOk(w, c)
    ensures CleanPass(w, c) <==> NextReaches(w.l, w.i + 1, w.o + |w.d|)
    ensures Pass(w, c).d == []
  {
    var u := InsertBefore(w, c);
    InsertTidy(w, c);
    SettledNext(u, c);
    SettleTidy(u, c);
    var v := Settle(u, c);
    assert Step(w, c) == v;
    StepSane(w, c);
    StepTidy(w, c);
    if v.status == Running {
      PlacedClean(v, c);
    } else {
      assert Pass(v, c) == v && CleanPass(v, c);
    }
    assert NextReaches(u.l, u.i + 1, u.o) <==> NextReaches(w.l, w.i + 1, w.o + |w.d|);
  }

  // ---- The rest of the write behind a full request ----

  /** The settled request is full and ends where the write goes on. */
  ghost predicate Behind(w: Walk, c: nat) {
    && Tidy(w, c) && w.status == Running && 1 <= |w.d| && 1 <= c && w.blocks > 0 && NoIP(w.l)
    && w.p == w.i - 1 && FullHere(w, c)
  }

  /** From `i` on the requests of both lists have the same places. */
  ghost predicate SamePlaces(l: seq<Request>, m: seq<Request>, i: nat) {
    |l| == |m| && forall k :: i <= k < |l| ==> l[k].offset == m[k].offset && l[k].End() == m[k].End()
  }

  /** Request `i` takes what fits of `d`; if not all does it is full then. */
  lemma UpdatedPlaces(l: seq<Request>, i: nat, o: nat, d: seq<byte>, c: nat)
    requires i < |l| && Sized(l, c) && NoIP(l) && l[i].offset <= o <= l[i].End()
    ensures var m, k := Update(l, i, o, d, c), Taken(l[i], o, d, c);
      NoIP(m) && SamePlaces(l, m, i + 1) && (k < |d| ==> |m[i].data| == c && m[i].End() == o + k)
  {
    var m := Update(l, i, o, d, c);
    assert |Updated(l[i], o, d, c).data| == Max(|l[i].data|, o - l[i].offset + Taken(l[i], o, d, c));
  }

  /** `v` is behind request `w.i`, which took `k` bytes of the write and is full if that is not all. */
  ghost predicate Took(w: Walk, v: Walk, k: nat, c: nat) {
    && k <= |w.d| && w.i < |w.l| && v == w.(l := v.l, p := w.i, i := w.i + 1, o := w.o + k, d := w.d[k..])
    && NoIP(v.l) && SamePlaces(w.l, v.l, w.i + 1) && (k < |w.d| ==> FullHere(v, c))
  }

  /** The loop body at a request that has room. */
  lemma TakesWhatFits(w: Walk, c: nat)
    requires Sane(w, c) && w.status == Running && w.i < |w.l| && 1 <= c && w.d != [] && NoIP(w.l)
    requires w.l[w.i].offset <= w.o <= w.l[w.i].End() && (w.o < w.l[w.i].End() || |w.l[w.i].data| < c)
    ensures Took(w, Place(w, c), Taken(w.l[w.i], w.o, w.d, c), c)
  {
    UpdatedPlaces(w.l, w.i, w.o, w.d, c);
  }

  /** Behind a full request nothing moves: of the one that overlaps it only what lies behind it is left. */
  lemma CutBehind(w: Walk, c: nat)
    requires Behind(w, c) && w.i < |w.l| && w.l[w.i].offset <= w.o < w.l[w.i].End()
    ensures var v := Settle(w, c);
      && Sane(v, c) && v == w.(l := v.l) && |v.l| == |w.l| && v.l[w.i].offset == w.o < v.l[w.i].End()
      && NoIP(v.l) && SamePlaces(w.l, v.l, w.i + 1)
  {
    MergeIsMerged(w.l, w.p, w.i, c);
    MergeEnds(w.l, w.p, w.i, c);
  }

  /**
   Of a request that reaches over the write position only what lies behind it is left, and that takes what
   fits of the rest.
   */
  lemma CutThenUpdated(w: Walk, c: nat)
    requires Behind(w, c) && w.i < |w.l| && w.l[w.i].offset <= w.o < w.l[w.i].End()
    ensures var v, k := Step(w, c), Min(c, |w.d|);
      && CleanStep(w, c) && v.status == Running && v.d == w.d[k..] && v.o == w.o + k && v.i == w.i + 1 && v.p == w.i
      && v.blocks == w.blocks && SamePlaces(w.l, v.l, w.i + 1) && NoIP(v.l) && (k < |w.d| ==> FullHere(v, c))
  {
    CutBehind(w, c);
    TakesWhatFits(Settle(w, c), c);
    assert Step(w, c) == Place(Settle(w, c), c);
  }

  /** A request that ends at the write position is gone. */
  lemma Swallowed(w: Walk, c: nat)
    requires Behind(w, c) && w.i < |w.l| && w.l[w.i].offset <= w.o == w.l[w.i].End()
    ensures var v := Step(w, c);
      CleanStep(w, c) && v == w.(l := Remove(w.l, w.i), blocks := w.blocks + 1) && Behind(v, c)
  {
    var v := Settle(w, c);
    assert v == w.(l := Remove(w.l, w.i), blocks := w.blocks + 1);
    assert Step(w, c) == v;
    StepTidy(w, c);
  }

  lemma {:induction false} ThroughSame(l: seq<Request>, m: seq<Request>, b: nat, e: nat, c: nat)
    requires SamePlaces(l, m, 0)
    ensures GoesThrough(l, b, e, c) <==> GoesThrough(m, b, e, c)
  {
    if l != [] {
      assert SamePlaces(l[1..], m[1..], 0);
      ThroughSame(l[1..], m[1..], b, e, c);
      ThroughSame(l[1..], m[1..], b + c, e, c);
    }
  }

  /** What the loop leaves over of the write goes to the end of the list, in new blocks. */
  ghost predicate RestAtEnd(v: Walk, c: nat) {
    v.status == Running && v.d != [] ==> AtEnd(v.l, v.o) && !CanGrow(v.l, v.o, c)
  }

  /** And one block is enough for it. */
  predicate RestFits(v: Walk, c: nat) {
    v.status == Running && v.d != [] ==> |v.d| <= c
  }

  /** The visited request is filled, and part of the write is left. */
  lemma FilledClean(w: Walk, c: nat)
    requires Behind(w, c) && w.i < |w.l| && w.l[w.i].offset <= w.o < w.l[w.i].End() && |w.d| > c
    ensures var v := Step(w, c); CleanStep(w, c) && Behind(v, c) && v.i == w.i + 1 && |v.l| == |w.l|
    ensures var v := Step(w, c);
      GoesThrough(v.l[v.i..], v.o, v.o + |v.d|, c) == GoesThrough(w.l[w.i..], w.o, w.o + |w.d|, c)
  {
    CutThenUpdated(w, c);
    StepTidy(w, c);
    var v, m := Step(w, c), w.l[w.i..];
    assert m[0] == w.l[w.i] && m[1..] == w.l[w.i + 1..];
    assert SamePlaces(m[1..], v.l[v.i..], 0);
    ThroughSame(m[1..], v.l[v.i..], v.o, v.o + |v.d|, c);
  }

  /** The visited request reaches over the write position, and takes the rest. */
  lemma OvertakenClean(w: Walk, c: nat)
    requires Behind(w, c) && w.i < |w.l| && w.l[w.i].End() > w.o && |w.d| <= c
    ensures CleanPass(w, c) <==> NextReaches(w.l, w.i + 1, w.o + |w.d|)
    ensures Pass(w, c).d == []
  {
    if w.o < w.l[w.i].offset {
      InsertClean(w, c);
    } else {
      CutThenUpdated(w, c);
      StepSane(w, c);
      StepTidy(w, c);
      PlacedClean(Step(w, c), c);
    }
  }

  /** The loop is clean from here on, and one block is enough for what it leaves over, exactly if `ok`. */
  ghost predicate CleanIf(w: Walk, c: nat, ok: bool)
    requires Sane(w, c) && 1 <= c
  {
    && (CleanPass(w, c) && RestFits(Pass(w, c), c) <==> ok)
    && (CleanPass(w, c) ==> RestAtEnd(Pass(w, c), c))
  }

  /** Before a clean step all is as behind it. */
  lemma BeforeStep(w: Walk, c: nat, ok: bool)
    requires Sane(w, c) && 1 <= c && w.status == Running && w.i < |w.l| && CleanStep(w, c)
    requires Sane(Step(w, c), c) && CleanIf(Step(w, c), c, ok)
    ensures CleanIf(w, c, ok)
  {
    StepSane(w, c);
  }

  lemma RestOvertaken(w: Walk, c: nat, ok: bool)
    requires Behind(w, c) && w.i < |w.l| && w.l[w.i].End() > w.o && |w.d| <= c
    requires ok == NextReaches(w.l, w.i + 1, w.o + |w.d|)
    ensures CleanIf(w, c, ok)
  {
    OvertakenClean(w, c);
  }

  /** The requests ahead: the first and the others. */
  lemma Ahead(w: Walk)
    requires w.i < |w.l|
    ensures var m := w.l[w.i..];
      m != [] && m[0] == w.l[w.i] && m[1..] == w.l[w.i + 1..] == Remove(w.l, w.i)[w.i..]
      && forall e :: NextReaches(m, 1, e) <==> NextReaches(w.l, w.i + 1, e)
  {
  }

  lemma SwallowedThrough(w: Walk, c: nat)
    requires w.i < |w.l| && w.l[w.i].End() == w.o
    ensures GoesThrough(Remove(w.l, w.i)[w.i..], w.o, w.o + |w.d|, c) == GoesThrough(w.l[w.i..], w.o, w.o + |w.d|, c)
  {
    Ahead(w);
  }

  lemma RestStuck(w: Walk, c: nat)
    requires Behind(w, c) && w.i < |w.l|
    requires w.l[w.i].End() < w.o || (w.o < w.l[w.i].offset && |w.d| > c)
    ensures CleanIf(w, c, false)
  {
    assert !CleanStep(w, c);
  }

  /** The rest of the write is placed cleanly exactly if it goes through. */
  lemma {:induction false} RestClean(w: Walk, c: nat, ok: bool)
    requires Behind(w, c) && ok == GoesThrough(w.l[w.i..], w.o, w.o + |w.d|, c)
    ensures CleanIf(w, c, ok)
    decreases |w.l| - w.i, 1
  {
    if w.i < |w.l| {
      var r := w.l[w.i];
      Ahead(w);
      if r.End() == w.o {
        RestPast(w, c, ok);
      } else if r.End() > w.o && |w.d| <= c {
        RestOvertaken(w, c, ok);
      } else if r.End() > w.o && r.offset <= w.o {
        RestFilled(w, c, ok);
      } else {
        RestStuck(w, c);
      }
    }
  }

  lemma {:induction false} RestPast(w: Walk, c: nat, ok: bool)
    requires Behind(w, c) && w.i < |w.l| && w.l[w.i].offset <= w.o == w.l[w.i].End()
    requires ok == GoesThrough(w.l[w.i..], w.o, w.o + |w.d|, c)
    ensures CleanIf(w, c, ok)
    decreases |w.l| - w.i, 0
  {
    Swallowed(w, c);
    SwallowedThrough(w, c);
    RestClean(Step(w, c), c, ok);
    BeforeStep(w, c, ok);
  }

  lemma {:induction false} RestFilled(w: Walk, c: nat, ok: bool)
    requires Behind(w, c) && w.i < |w.l| && w.l[w.i].offset <= w.o < w.l[w.i].End() && |w.d| > c
    requires ok == GoesThrough(w.l[w.i..], w.o, w.o + |w.d|, c)
    ensures CleanIf(w, c, ok)
    decreases |w.l| - w.i, 0
  {
    FilledClean(w, c);
    RestClean(Step(w, c), c, ok);
    BeforeStep(w, c, ok);
  }

  // ---- The first request met ----

  /** The loop passes over the requests that end before the write. */
  lemma {:induction false} SkipClean(w: Walk, c: nat, i: nat)
    requires Tidy(w, c) && w.status == Running && 1 <= c && w.p == -1 && w.i <= i <= |w.l|
    requires forall j :: w.i <= j < i ==> w.l[j].End() < w.o
    ensures var v := w.(i := i);
      Tidy(v, c) && (CleanPass(w, c) <==> CleanPass(v, c)) && Pass(w, c) == Pass(v, c)
    decreases i - w.i
  {
    if w.i < i {
      assert Step(w, c) == w.(i := w.i + 1) && CleanStep(w, c);
      StepTidy(w, c);
      SkipClean(w.(i := w.i + 1), c, i);
    }
  }

  lemma PassedFull(w: Walk, c: nat)
    requires Sane(w, c) && w.status == Running && w.d != [] && 1 <= c && NoIP(w.l)
    requires w.i < |w.l| && w.o == w.l[w.i].End() && |w.l[w.i].data| == c
    ensures Took(w, Place(w, c), 0, c)
  {
    assert w.d[0..] == w.d;
  }

  lemma NotYetSettled(w: Walk, c: nat)
    requires Sane(w, c) && w.status == Running && w.d != [] && 1 <= c && w.p == -1
    requires w.i < |w.l| && w.l[w.i].offset <= w.o <= w.l[w.i].End()
    ensures CleanStep(w, c) && Step(w, c) == Place(w, c)
  {
    assert Settle(w, c) == w;
  }

  /** The step at the first request met, when it starts at or before the write. */
  lemma FirstStep(w: Walk, c: nat) returns (k: nat)
    requires Sane(w, c) && w.status == Running && 1 <= |w.d| && 1 <= c && NoIP(w.l) && w.p == -1
    requires w.i < |w.l| && w.l[w.i].offset <= w.o <= w.l[w.i].End()
    ensures CleanStep(w, c) && Took(w, Step(w, c), k, c) && w.o + k == Min(w.o + |w.d|, w.l[w.i].offset + c)
  {
    NotYetSettled(w, c);
    if w.o < w.l[w.i].End() || |w.l[w.i].data| < c {
      k := Taken(w.l[w.i], w.o, w.d, c);
      TakesWhatFits(w, c);
    } else {
      k := 0;
      PassedFull(w, c);
    }
  }

  lemma PlacedIf(w: Walk, c: nat, ok: bool)
    requires Tidy(w, c) && w.status == Running && 1 <= c && w.d == [] && ok == NextReaches(w.l, w.i, w.o)
    ensures CleanIf(w, c, ok)
  {
    PlacedClean(w, c);
  }

  lemma RestBehind(w: Walk, v: Walk, c: nat, ok: bool)
    requires Behind(v, c) && SamePlaces(w.l, v.l, v.i) && v.i <= |w.l|
    requires ok == GoesThrough(w.l[v.i..], v.o, v.o + |v.d|, c)
    ensures CleanIf(v, c, ok)
  {
    ThroughSame(w.l[v.i..], v.l[v.i..], v.o, v.o + |v.d|, c);
    RestClean(v, c, ok);
  }

  lemma TakenClean(w: Walk, c: nat, ok: bool)
    requires Tidy(w, c) && w.status == Running && 1 <= |w.d| && 1 <= c && w.blocks > 0 && NoIP(w.l) && w.p == -1
    requires w.i < |w.l| && w.l[w.i].offset <= w.o <= w.l[w.i].End()
    requires ok == Meets(w.l[w.i], w.l[w.i + 1..], w.o, w.o + |w.d|, c)
    ensures CleanIf(w, c, ok)
  {
    var k := FirstStep(w, c);
    StepSane(w, c);
    StepTidy(w, c);
    var v := Step(w, c);
    if v.d == [] {
      assert NextReaches(w.l[w.i + 1..], 0, v.o) <==> NextReaches(v.l, v.i, v.o);
      PlacedIf(v, c, ok);
    } else {
      RestBehind(w, v, c, ok);
    }
    BeforeStep(w, c, ok);
  }

  lemma InsertedIf(w: Walk, c: nat, ok: bool)
    requires Tidy(w, c) && w.status == Running && 1 <= |w.d| && 1 <= c && w.blocks > 0 && w.p == -1
    requires w.i < |w.l| && w.o < w.l[w.i].offset
    requires ok == (|w.d| <= c && NextReaches(w.l, w.i + 1, w.o + |w.d|))
    ensures CleanIf(w, c, ok)
  {
    if |w.d| <= c {
      InsertClean(w, c);
    }
  }

  /** What becomes of a write at the first request it meets, and at those behind it. */
  lemma MetClean(w: Walk, m: seq<Request>, c: nat, ok: bool)
    requires Tidy(w, c) && w.status == Running && 1 <= |w.d| && 1 <= c && w.blocks > 0 && NoIP(w.l) && w.p == -1
    requires w.i < |w.l| && w.o <= w.l[w.i].End()
    requires m == w.l[w.i + 1..] && ok == Meets(w.l[w.i], m, w.o, w.o + |w.d|, c)
    ensures CleanIf(w, c, ok)
  {
    if w.o >= w.l[w.i].offset {
      TakenClean(w, c, ok);
    } else {
      assert NextReaches(m, 0, w.o + |w.d|) <==> NextReaches(w.l, w.i + 1, w.o + |w.d|);
      InsertedIf(w, c, ok);
    }
  }

  // ---- The theorem ----

  /** At or behind the end of the list the last request may grow, and one new block must do for what is left. */
  lemma EndIsClean(l: seq<Request>, o: nat, d: seq<byte>, c: nat)
    requires WellFormed(l, c) && NoIP(l) && 1 <= c && AtEnd(l, o) && d != []
    ensures CleanAppend(l, o, d, c) <==> CleanPlace(l, o, |d|, c)
  {
    forall j | 0 <= j < |l| - 1 ensures l[j].End() < o {
      assert l[j].End() <= l[|l| - 1].offset;
    }
    if l != [] && FirstReach(l, o) < |l| {
      assert FirstReach(l, o) == |l| - 1 && l[|l|..] == [];
    }
  }

  /** A write that is not an append is clean exactly if its loop is and what that leaves over fits a block. */
  lemma LoopDecides(l: seq<Request>, o: nat, d: seq<byte>, c: nat, blocks: nat, ok: bool)
    requires Sized(l, c) && 1 <= c && d != [] && !AtEnd(l, o) && CleanIf(Start(l, o, d, blocks), c, ok)
    ensures Clean(l, o, d, c, blocks) <==> ok
  {
    PassEnds(l, o, d, c, blocks);
    var v := Pass(Start(l, o, d, blocks), c);
    if v.status == Running && v.d != [] && AtEnd(v.l, v.o) && !CanGrow(v.l, v.o, c) {
      assert CleanAppend(v.l, v.o, v.d, c) <==> |v.d| <= c;
      assert Clean(v.l, v.o, v.d, c, v.blocks) <==> CleanAppend(v.l, v.o, v.d, c);
    }
  }

  /** The requests that are passed over do not matter. */
  lemma Skipped(w: Walk, v: Walk, c: nat)
    requires Tidy(w, c) && w.status == Running && 1 <= c && w.p == -1 && w.i <= v.i <= |w.l| && v == w.(i := v.i)
    requires forall j :: w.i <= j < v.i ==> w.l[j].End() < w.o
    ensures Tidy(v, c) && (CleanPass(w, c) <==> CleanPass(v, c)) && Pass(w, c) == Pass(v, c)
  {
    SkipClean(w, c, v.i);
  }

  lemma MetFrom(w: Walk, v: Walk, m: seq<Request>, c: nat, ok: bool)
    requires Tidy(w, c) && w.status == Running && 1 <= |w.d| && 1 <= c && w.blocks > 0 && NoIP(w.l) && w.p == -1
    requires w.i <= v.i < |w.l| && v == w.(i := v.i) && v.o <= v.l[v.i].End()
    requires forall j :: w.i <= j < v.i ==> w.l[j].End() < w.o
    requires m == v.l[v.i + 1..] && ok == Meets(v.l[v.i], m, v.o, v.o + |v.d|, c)
    ensures CleanIf(w, c, ok)
  {
    Skipped(w, v, c);
    MetClean(v, m, c, ok);
  }

  lemma SomeReach(l: seq<Request>, o: nat)
    requires !AtEnd(l, o)
    ensures FirstReach(l, o) < |l|
  {
    assert l[|l| - 1].End() > o;
  }

  /** The loop from its start. */
  lemma LoopClean(l: seq<Request>, o: nat, d: seq<byte>, c: nat, blocks: nat, ok: bool)
    requires WellFormed(l, c) && NoIP(l) && 1 <= |d| && 1 <= c && blocks >= 1 && !AtEnd(l, o)
    requires ok == CleanPlace(l, o, |d|, c)
    ensures CleanIf(Start(l, o, d, blocks), c, ok)
  {
    SomeReach(l, o);
    StartTidy(l, o, d, c, blocks);
    var w, i := Start(l, o, d, blocks), FirstReach(l, o);
    MetFrom(w, w.(i := i), l[i + 1..], c, ok);
  }

  /**
   On a list in order without index-partition requests, with a block to be had, a write of any length is
   clean if and only if the requests from the first one it meets on are placed so that it goes through.
   */
  lemma CleanExactly(l: seq<Request>, o: nat, d: seq<byte>, c: nat, blocks: nat)
    requires WellFormed(l, c) && NoIP(l) && 1 <= c && blocks >= 1
    ensures Clean(l, o, d, c, blocks) <==> d == [] || CleanPlace(l, o, |d|, c)
  {
    if d == [] {
    } else if AtEnd(l, o) {
      EndIsClean(l, o, d, c);
    } else {
      LoopClean(l, o, d, c, blocks, CleanPlace(l, o, |d|, c));
      LoopDecides(l, o, d, c, blocks, CleanPlace(l, o, |d|, c));
    }
  }

  /**
   So for such a list and any length every write at `o` is correct, whatever its bytes, if and only if
   the offsets meet that condition.
   */
  lemma CorrectExactlyByOffsets(l: seq<Request>, tape: seq<byte>, o: nat, n: nat, c: nat, blocks: nat)
    requires WellFormed(l, c) && NoIP(l) && 1 <= n && 1 <= c && blocks >= 2
    ensures CleanPlace(l, o, n, c) <==> forall e :: |e| == n ==> Correct(l, tape, o, e, c, blocks)
  {
    CorrectExactlyWhenClean(l, tape, o, Zeros(n), c, blocks);
    CleanExactly(l, o, Zeros(n), c, blocks);
  }
}
