/**
 The whole of unified_write (src/iosched/unified.c): append past the end of the list, or walk
 the list, or both in turn; with the theorem that a clean write is a write to a plain file.
 */
module UnifiedWrite {
  import opened Bytes
  import opened Requests
  import opened RequestOps
  import opened WriteWalk
  import opened WriteTidy
  import opened WriteMeaning

  // ---- The loop over the list ends ----

  lemma SettleSane(w: Walk, c: nat)
    requires Sane(w, c) && w.i < |w.l| && w.status == Running
    ensures var v := Settle(w, c);
      && Sane(v, c) && v.status != Stalled
      && (w.d == [] || |v.l| < |w.l| ==> |v.l| - v.i < |w.l| - w.i)
      && (w.d != [] && |v.l| >= |w.l| ==>
            v == w.(l := v.l) && |v.l| == |w.l| && v.l[w.i].End() == w.l[w.i].End())
  {
    if w.p >= 0 {
      MergeIsMerged(w.l, w.p, w.i, c);
    }
  }

  lemma ReplaceSane(w: Walk, c: nat)
    requires Sane(w, c) && w.i < |w.l| && w.d != [] && w.o < w.l[w.i].offset && 1 <= c && w.status == Running
    ensures var v := Replace(w, c);
      Sane(v, c) && (v.status != Stalled ==> v.d == [] && |v.l| - v.i < |w.l| - w.i)
  {
    if w.blocks > 0 {
      SettleSane(InsertBefore(w, c), c);
    }
  }

  lemma PlaceSane(w: Walk, c: nat)
    requires Sane(w, c) && w.i < |w.l| && w.d != [] && w.o <= w.l[w.i].End() && 1 <= c && w.status == Running
    ensures var v := Place(w, c);
      Sane(v, c) && (v.status != Stalled ==> |v.l| - v.i < |w.l| - w.i)
  {
    var r := w.l[w.i];
    if w.o < r.offset {
      ReplaceSane(w, c);
    } else if r.state == IP && w.o < r.End() && w.o + |w.d| < r.End() {
      var v := Carve(w);
      assert Sane(v, c);
      if v.status != Stalled {
        ReplaceSane(v, c);
      }
    }
  }

  lemma StepSane(w: Walk, c: nat)
    requires Sane(w, c) && w.i < |w.l| && 1 <= c && w.status == Running
    ensures var v := Step(w, c);
      Sane(v, c) && (v.status != Stalled ==> |v.l| - v.i < |w.l| - w.i)
  {
    if w.o <= w.l[w.i].End() {
      var u := InsertBefore(w, c);
      if u.status != Stalled {
        SettleSane(u, c);
        var v := Settle(u, c);
        if u.d != [] && |v.l| >= |u.l| {
          PlaceSane(v, c);
        }
      }
    }
  }

  /** The loop over the requests, until it breaks off or the list ends. */
  function Pass(w: Walk, c: nat): (v: Walk)
    requires Sane(w, c) && 1 <= c
    ensures Sane(v, c) && (v.status == Running ==> v.i == |v.l|)
    decreases if w.status == Stalled then 0 else 1, |w.l| - w.i
  {
    if w.status != Running || w.i == |w.l| then w
    else
      StepSane(w, c);
      Pass(Step(w, c), c)
  }

  /**
   While part of the write is left, everything visited ends at or before the write position,
   unless a request was removed from a list of `n` requests.
   */
  ghost predicate Behind(w: Walk, n: nat)
    requires w.i <= |w.l|
  {
    w.d != [] ==> |w.l| <= n && (|w.l| == n ==> forall j :: 0 <= j < w.i ==> w.l[j].End() <= w.o)
  }

  lemma PlaceBehind(w: Walk, c: nat, n: nat)
    requires Sane(w, c) && w.i < |w.l| && w.d != [] && w.o <= w.l[w.i].End() && 1 <= c && w.status == Running
    requires Behind(w, n) || (w.o < w.l[w.i].offset && |w.l| <= n)
    ensures var v := Place(w, c); v.status == Running ==> v.i <= |v.l| && Behind(v, n)
  {
    var r := w.l[w.i];
    if w.o < r.offset {
      ReplaceSane(w, c);
    } else if r.state == IP && w.o < r.End() && w.o + |w.d| < r.End() {
      var v := Carve(w);
      assert Sane(v, c);
      if v.status != Stalled {
        ReplaceSane(v, c);
      }
    }
  }

  lemma StepBehind(w: Walk, c: nat, n: nat)
    requires Sane(w, c) && w.i < |w.l| && 1 <= c && w.status == Running && Behind(w, n)
    ensures var v := Step(w, c); v.status == Running ==> v.i <= |v.l| && Behind(v, n)
  {
    StepSane(w, c);
    if w.o <= w.l[w.i].End() && (w.d == [] || w.o >= w.l[w.i].offset) {
      SettleSane(w, c);
      var v := Settle(w, c);
      if w.d != [] && |v.l| >= |w.l| {
        if w.p >= 0 {
          MergeIsMerged(w.l, w.p, w.i, c);
        }
        PlaceBehind(v, c, n);
      }
    }
  }

  lemma {:induction false} PassBehind(w: Walk, c: nat, n: nat)
    requires Sane(w, c) && 1 <= c && Behind(w, n)
    ensures var v := Pass(w, c); v.status == Running ==> Behind(v, n)
    decreases if w.status == Stalled then 0 else 1, |w.l| - w.i
  {
    if w.status == Running && w.i < |w.l| {
      StepSane(w, c);
      StepBehind(w, c, n);
      if Step(w, c).status != Running {
        assert Pass(Step(w, c), c) == Step(w, c);
      } else {
        PassBehind(Step(w, c), c, n);
      }
    }
  }

  // ---- The write ----

  /**
   What one attempt at a write leaves: the list, and the part of the write not yet placed. If
   that is not empty the attempt stalled for want of a cache block.
   */
  datatype Outcome = Outcome(l: seq<Request>, o: nat, d: seq<byte>, blocks: nat)

  predicate AtEnd(l: seq<Request>, o: nat) {
    l == [] || o >= l[|l| - 1].End()
  }

  /** The last request can take more bytes at `o`. */
  predicate CanGrow(l: seq<Request>, o: nat, c: nat) {
    l != [] && |l[|l| - 1].data| < c && o == l[|l| - 1].End() && l[|l| - 1].state != IP
  }

  function Grow(l: seq<Request>, o: nat, d: seq<byte>, c: nat): seq<Request>
    requires Sized(l, c)
  {
    if CanGrow(l, o, c) then Update(l, |l| - 1, o, d, c) else l
  }

  function Grown(l: seq<Request>, o: nat, d: seq<byte>, c: nat): (k: nat)
    requires Sized(l, c)
    ensures k <= |d|
  {
    if CanGrow(l, o, c) then Taken(l[|l| - 1], o, d, c) else 0
  }

  function InsertEnd(l: seq<Request>, o: nat, d: seq<byte>, c: nat, blocks: nat): Outcome {
    if d == [] || blocks == 0 then Outcome(l, o, d, blocks)
    else Outcome(l + [NewRequest(o, d, c)], o + |d|, [], blocks - 1)
  }

  /** Writing at or past the end of the list. */
  function Append(l: seq<Request>, o: nat, d: seq<byte>, c: nat, blocks: nat): Outcome
    requires Sized(l, c) && AtEnd(l, o)
  {
    var k := Grown(l, o, d, c);
    InsertEnd(Grow(l, o, d, c), o + k, d[k..], c, blocks)
  }

  function Start(l: seq<Request>, o: nat, d: seq<byte>, blocks: nat): Walk {
    Walk(l, 0, -1, o, d, blocks, Running)
  }

  /** If the loop leaves part of the write over, what is left is an append or the list shrank. */
  lemma PassEnds(l: seq<Request>, o: nat, d: seq<byte>, c: nat, blocks: nat)
    requires Sized(l, c) && 1 <= c && d != [] && !AtEnd(l, o)
    ensures var v := Pass(Start(l, o, d, blocks), c);
      v.status == Running && v.d != [] ==> |v.l| < |l| || (|v.l| == |l| && AtEnd(v.l, v.o))
  {
    PassBehind(Start(l, o, d, blocks), c, |l|);
  }

  /** One attempt at writing `d` at offset `o`, with `blocks` cache blocks to be had. */
  function Attempt(l: seq<Request>, o: nat, d: seq<byte>, c: nat, blocks: nat): Outcome
    requires Sized(l, c) && 1 <= c
    decreases |l|, if AtEnd(l, o) then 0 else 1
  {
    if d == [] then Outcome(l, o, d, blocks)
    else if AtEnd(l, o) then Append(l, o, d, c, blocks)
    else
      var v := Pass(Start(l, o, d, blocks), c);
      PassEnds(l, o, d, c, blocks);
      if v.status == Running && v.d != [] then Attempt(v.l, v.o, v.d, c, v.blocks)
      else Outcome(v.l, v.o, v.d, v.blocks)
  }

  lemma {:induction false} AttemptSized(l: seq<Request>, o: nat, d: seq<byte>, c: nat, blocks: nat)
    requires Sized(l, c) && 1 <= c
    ensures Sized(Attempt(l, o, d, c, blocks).l, c)
    decreases |l|, if AtEnd(l, o) then 0 else 1
  {
    if d != [] && !AtEnd(l, o) {
      var v := Pass(Start(l, o, d, blocks), c);
      PassEnds(l, o, d, c, blocks);
      if v.status == Running && v.d != [] {
        AttemptSized(v.l, v.o, v.d, c, v.blocks);
      }
    }
  }

  // ---- Clean writes ----

  /** Every step of the loop is clean. */
  predicate CleanPass(w: Walk, c: nat)
    requires Sane(w, c) && 1 <= c
    decreases if w.status == Stalled then 0 else 1, |w.l| - w.i
  {
    w.status == Running && w.i < |w.l| ==>
      CleanStep(w, c) && (StepSane(w, c); CleanPass(Step(w, c), c))
  }

  /** What is left for an appended request fits into one cache block. */
  predicate CleanAppend(l: seq<Request>, o: nat, d: seq<byte>, c: nat)
    requires Sized(l, c)
  {
    |d| - Grown(l, o, d, c) <= c
  }

  /**
   The write passes over no request after settling one, and every request it inserts holds all
   that is left of it and overlaps nothing settled.
   */
  predicate Clean(l: seq<Request>, o: nat, d: seq<byte>, c: nat, blocks: nat)
    requires Sized(l, c) && 1 <= c
    decreases |l|, if AtEnd(l, o) then 0 else 1
  {
    if d == [] then true
    else if AtEnd(l, o) then CleanAppend(l, o, d, c)
    else
      var w := Start(l, o, d, blocks);
      var v := Pass(w, c);
      && CleanPass(w, c)
      && (PassEnds(l, o, d, c, blocks);
          v.status == Running && v.d != [] ==> Clean(v.l, v.o, v.d, c, v.blocks))
  }

  lemma {:induction false} CleanPassHolds(
    w: Walk, c: nat, l0: seq<Request>, tape: seq<byte>, o0: nat, d0: seq<byte>)
    requires Tidy(w, c) && w.status == Running && 1 <= c && CleanPass(w, c) && Holds(w, l0, tape, o0, d0)
    ensures var v := Pass(w, c); TidyOrStalled(v, c) && Holds(v, l0, tape, o0, d0)
    ensures var v := Pass(w, c); v.status == Finished ==> v.d == [] && Disjoint(v.l)
    decreases |w.l| - w.i
  {
    if w.i < |w.l| {
      StepSane(w, c);
      StepTidy(w, c);
      StepHolds(w, c, l0, tape, o0, d0);
      var v := Step(w, c);
      if v.status == Running {
        CleanPassHolds(v, c, l0, tape, o0, d0);
      } else {
        assert Pass(v, c) == v;
      }
    }
  }

  lemma StartTidy(l: seq<Request>, o: nat, d: seq<byte>, c: nat, blocks: nat)
    requires WellFormed(l, c) && d != []
    ensures Tidy(Start(l, o, d, blocks), c)
  {
    forall j, k | 0 <= j < k < |l| ensures Apart(l, -1, 0, j, k) {
      assert l[j].End() <= l[k].offset;
    }
  }

  /** A walk that is over leaves a list in order. */
  lemma OverDisjoint(v: Walk, c: nat)
    requires TidyOrStalled(v, c) && (v.status == Running ==> v.i == |v.l|)
    ensures WellFormed(v.l, c)
  {
    if v.status != Finished {
      var p := if v.status == Stalled then -1 else v.p;
      forall j, k | 0 <= j < k < |v.l| ensures v.l[j].End() <= v.l[k].offset {
        assert Apart(v.l, p, v.i, j, k);
      }
    }
  }

  lemma GrowHolds(l: seq<Request>, o: nat, d: seq<byte>, c: nat,
    l0: seq<Request>, tape: seq<byte>, o0: nat, d0: seq<byte>)
    requires WellFormed(l, c) && AtEnd(l, o) && d != [] && HoldsFile(l, o, d, l0, tape, o0, d0)
    ensures var m, k := Grow(l, o, d, c), Grown(l, o, d, c);
      && WellFormed(m, c) && AtEnd(m, o + k)
      && HoldsFile(m, o + k, d[k..], l0, tape, o0, d0)
  {
    if CanGrow(l, o, c) {
      var w := Start(l, o, d, 0).(i := |l| - 1);
      UpdateNoFull(l, |l| - 1, o, d, c);
      UpdateHolds(w, c, l0, tape, o0, d0);
    } else {
      assert d[0..] == d;
    }
  }

  lemma InsertEndHolds(l: seq<Request>, o: nat, d: seq<byte>, c: nat,
    l0: seq<Request>, tape: seq<byte>, o0: nat, d0: seq<byte>)
    requires WellFormed(l, c) && AtEnd(l, o) && 1 <= |d| <= c && HoldsFile(l, o, d, l0, tape, o0, d0)
    ensures HoldsFile(l + [NewRequest(o, d, c)], o + |d|, [], l0, tape, o0, d0)
  {
    var r := NewRequest(o, d, c);
    var m := l + [r];
    assert r.data == d && InsertAt(l, |l|, r) == m;
    assert d0[..|d0|] == d0 && o0 + |d0| == o + |d|;
    var placed := d0[..o - o0];
    forall x: nat
      ensures Look(m, tape, x) ==
        if o0 <= x < o0 + |d0| then Some(d0[x - o0]) else Look(l0, tape, x)
    {
      LookupInsert(l, |l|, r, x);
      assert Look(l, tape, x) == if o0 <= x < o0 + |placed| then Some(placed[x - o0]) else Look(l0, tape, x);
    }
  }

  lemma InsertEndWellFormed(l: seq<Request>, o: nat, d: seq<byte>, c: nat)
    requires WellFormed(l, c) && AtEnd(l, o) && 1 <= |d| && 1 <= c
    ensures WellFormed(l + [NewRequest(o, d, c)], c)
  {
  }

  lemma RestHolds(l: seq<Request>, o: nat, d: seq<byte>, c: nat, blocks: nat,
    l0: seq<Request>, tape: seq<byte>, o0: nat, d0: seq<byte>)
    requires WellFormed(l, c) && AtEnd(l, o) && 1 <= c && |d| <= c
    requires HoldsFile(l, o, d, l0, tape, o0, d0)
    ensures var r := InsertEnd(l, o, d, c, blocks);
      WellFormed(r.l, c) && HoldsFile(r.l, r.o, r.d, l0, tape, o0, d0)
  {
    if d != [] && blocks > 0 {
      InsertEndHolds(l, o, d, c, l0, tape, o0, d0);
      InsertEndWellFormed(l, o, d, c);
    }
  }

  lemma AppendHolds(l: seq<Request>, o: nat, d: seq<byte>, c: nat, blocks: nat,
    l0: seq<Request>, tape: seq<byte>, o0: nat, d0: seq<byte>)
    requires WellFormed(l, c) && AtEnd(l, o) && d != [] && 1 <= c && HoldsFile(l, o, d, l0, tape, o0, d0)
    requires CleanAppend(l, o, d, c)
    ensures var r := Append(l, o, d, c, blocks);
      WellFormed(r.l, c) && HoldsFile(r.l, r.o, r.d, l0, tape, o0, d0)
  {
    GrowHolds(l, o, d, c, l0, tape, o0, d0);
    var m, k := Grow(l, o, d, c), Grown(l, o, d, c);
    AppendRest(l, o, d, c, blocks, m, o + k, d[k..], l0, tape, o0, d0);
  }

  lemma AppendRest(l: seq<Request>, o: nat, d: seq<byte>, c: nat, blocks: nat, m: seq<Request>, o': nat, d': seq<byte>,
    l0: seq<Request>, tape: seq<byte>, o0: nat, d0: seq<byte>)
    requires Sized(l, c) && AtEnd(l, o) && Append(l, o, d, c, blocks) == InsertEnd(m, o', d', c, blocks)
    requires WellFormed(m, c) && AtEnd(m, o') && 1 <= c && |d'| <= c
    requires HoldsFile(m, o', d', l0, tape, o0, d0)
    ensures var r := Append(l, o, d, c, blocks);
      WellFormed(r.l, c) && HoldsFile(r.l, r.o, r.d, l0, tape, o0, d0)
  {
    RestHolds(m, o', d', c, blocks, l0, tape, o0, d0);
  }

  lemma {:induction false} AttemptHolds(l: seq<Request>, o: nat, d: seq<byte>, c: nat, blocks: nat,
    l0: seq<Request>, tape: seq<byte>, o0: nat, d0: seq<byte>)
    requires WellFormed(l, c) && 1 <= c && Clean(l, o, d, c, blocks)
    requires HoldsFile(l, o, d, l0, tape, o0, d0)
    ensures var r := Attempt(l, o, d, c, blocks);
      WellFormed(r.l, c) && HoldsFile(r.l, r.o, r.d, l0, tape, o0, d0)
    decreases |l|, if AtEnd(l, o) then 0 else 1
  {
    if d == [] {
    } else if AtEnd(l, o) {
      AppendHolds(l, o, d, c, blocks, l0, tape, o0, d0);
    } else {
      var w := Start(l, o, d, blocks);
      StartTidy(l, o, d, c, blocks);
      CleanPassHolds(w, c, l0, tape, o0, d0);
      PassEnds(l, o, d, c, blocks);
      var v := Pass(w, c);
      OverDisjoint(v, c);
      if v.status == Running && v.d != [] {
        AttemptHolds(v.l, v.o, v.d, c, v.blocks, l0, tape, o0, d0);
      }
    }
  }

  /**
   A clean write, as far as it got, is a write to a plain file: the list stays sorted and
   disjoint, index-partition requests still agree with the data partition, and the file is the
   old file overlaid with the placed part `d[..r.o - o]`. Only a stalled attempt leaves a rest.
   */
  lemma CleanWrite(l: seq<Request>, tape: seq<byte>, o: nat, d: seq<byte>, c: nat, blocks: nat)
    requires WellFormed(l, c) && 1 <= c && IPAgree(l, tape) && Clean(l, o, d, c, blocks)
    ensures var r := Attempt(l, o, d, c, blocks);
      && WellFormed(r.l, c) && IPAgree(r.l, tape)
      && o <= r.o && r.o - o + |r.d| == |d| && r.d == d[r.o - o..]
      && LookOverlay(l, r.l, tape, o, d[..r.o - o])
      && View(r.l, tape) == Overlay(View(l, tape), o, d[..r.o - o])
  {
    assert d[..0] == [] && d[0..] == d;
    AttemptHolds(l, o, d, c, blocks, l, tape, o, d);
    var r := Attempt(l, o, d, c, blocks);
    ViewOverlay(l, r.l, tape, o, d[..r.o - o]);
  }
}
