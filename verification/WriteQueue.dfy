/**
 Which bytes a clean attempt at a write has in the request list (src/iosched/unified.c: unified_write): what
 it has placed, and outside of the write exactly what was there, byte by byte, so that nothing else enters or
 leaves the list. Under the part it has not placed yet old requests may be gone.
 */
module WriteQueue {
  import opened Bytes
  import opened Requests
  import opened RequestOps
  import opened WriteWalk
  import opened WriteTidy
  import opened UnifiedWrite

  /** What the list has for offset `x`: of the write `d0` at `o0` the first `k` bytes are placed. */
  predicate Queues(l: seq<Request>, x: nat, k: nat, l0: seq<Request>, o0: nat, d0: seq<byte>)
    requires k <= |d0|
  {
    if o0 <= x < o0 + k then Lookup(l, x) == Some(d0[x - o0])
    else Lookup(l, x) == Lookup(l0, x) || (o0 + k <= x < o0 + |d0| && Lookup(l, x) == None)
  }

  /** From `l` to `m` the first `k` bytes of the rest are placed, and only under the rest bytes are gone. */
  ghost predicate Advanced(l: seq<Request>, m: seq<Request>, o: nat, d: seq<byte>, k: nat)
    requires k <= |d|
  {
    forall x: nat :: Queues(m, x, k, l, o, d)
  }

  /** The step from `w` to `v` places some of the rest and loses bytes under the rest only. */
  ghost predicate Goes(w: Walk, v: Walk) {
    v.o >= w.o && v.o - w.o <= |w.d| && v.d == w.d[v.o - w.o..] && Advanced(w.l, v.l, w.o, w.d, v.o - w.o)
  }

  lemma GoesOn(w: Walk, u: Walk, v: Walk)
    requires Goes(w, u) && Goes(u, v)
    ensures Goes(w, v)
  {
    var a, b, e := u.o - w.o, v.o - u.o, v.o - w.o;
    forall x: nat ensures Queues(v.l, x, e, w.l, w.o, w.d) {
      assert Queues(u.l, x, a, w.l, w.o, w.d) && Queues(v.l, x, b, u.l, u.o, u.d);
    }
  }

  lemma Stays(w: Walk, v: Walk)
    requires v.l == w.l && v.o == w.o && v.d == w.d
    ensures Goes(w, v)
  {
  }

  lemma InsertGoes(w: Walk, c: nat)
    requires w.i < |w.l| && w.d != [] && w.o < w.l[w.i].offset && w.blocks > 0 && |w.d| <= c
    requires forall j :: 0 <= j < w.i ==> w.l[j].End() <= w.o
    ensures Goes(w, InsertBefore(w, c))
  {
    var r := NewRequest(w.o, w.d, c);
    assert r.data == w.d;
    forall x: nat ensures Queues(InsertAt(w.l, w.i, r), x, |w.d|, w.l, w.o, w.d) {
      LookupInsert(w.l, w.i, r, x);
    }
  }

  lemma SettleGoes(w: Walk, c: nat)
    requires Tidy(w, c) && w.i < |w.l|
    ensures Goes(w, Settle(w, c))
  {
    var v := Settle(w, c);
    forall x: nat ensures Queues(v.l, x, 0, w.l, w.o, w.d) {
      if w.p >= 0 {
        assert Apart(w.l, w.p, w.i, w.p, w.i);
        LookupMerge(w.l, w.i, c, x);
      }
    }
  }

  lemma UpdateGoes(w: Walk, c: nat)
    requires w.i < |w.l| && w.l[w.i].offset <= w.o <= w.l[w.i].End() <= w.l[w.i].offset + c
    requires forall j :: 0 <= j < w.i ==> w.l[j].End() <= w.o
    ensures var k := Taken(w.l[w.i], w.o, w.d, c);
      Goes(w, w.(l := Update(w.l, w.i, w.o, w.d, c), p := w.i, i := w.i + 1, o := w.o + k, d := w.d[k..]))
  {
    forall x: nat
      ensures Queues(Update(w.l, w.i, w.o, w.d, c), x, Taken(w.l[w.i], w.o, w.d, c), w.l, w.o, w.d)
    {
      LookupUpdate(w.l, w.i, w.o, w.d, c, x);
    }
  }

  /** `q` is a piece of `r`. */
  predicate Piece(q: Request, r: Request) {
    && r.offset <= q.offset && q.End() <= r.End() && q.data == r.data[q.offset - r.offset..q.End() - r.offset]
  }

  lemma LookupPiece(r: Request, s: seq<Request>, x: nat)
    requires r.Covers(x) && forall q :: 0 <= q < |s| ==> Piece(s[q], r)
    ensures Lookup(s, x) == None || Lookup(s, x) == Some(r.data[x - r.offset])
  {
    if Lookup(s, x).Some? {
      var q := LookupSome(s, x);
      assert Piece(s[q], r);
    }
  }

  lemma LookupNoPiece(r: Request, s: seq<Request>, x: nat)
    requires !r.Covers(x) && forall q :: 0 <= q < |s| ==> Piece(s[q], r)
    ensures Lookup(s, x) == None
  {
    forall q | 0 <= q < |s| ensures !s[q].Covers(x) {
      assert Piece(s[q], r);
    }
    LookupNone(s, x);
  }

  /** Replacing a request by pieces of it loses exactly the bytes that are in none of them. */
  lemma LookupPieces(l: seq<Request>, i: nat, s: seq<Request>, x: nat)
    requires i < |l| && (forall q :: 0 <= q < |s| ==> Piece(s[q], l[i]))
    requires forall j :: i < j < |l| ==> l[i].End() <= l[j].offset
    ensures var a := Lookup(l[..i] + s + l[i + 1..], x);
      a == Lookup(l, x) || (a == None && l[i].Covers(x) && Lookup(s, x) == None)
  {
    LookupConcat(l[..i] + s, l[i + 1..], x);
    LookupConcat(l[..i], s, x);
    LookupAt(l, i, x);
    if l[i].Covers(x) {
      LookupNone(l[i + 1..], x);
      LookupPiece(l[i], s, x);
    } else {
      LookupNoPiece(l[i], s, x);
    }
  }

  /** The pieces have every byte of the request that is not under the rest of the write. */
  ghost predicate OnlyRestGone(r: Request, s: seq<Request>, o: nat, n: nat) {
    forall x: nat :: r.Covers(x) && !(o <= x < o + n) ==> Lookup(s, x).Some?
  }

  lemma PiecesGo(w: Walk, v: Walk, s: seq<Request>, c: nat)
    requires w.i < |w.l| && Tidy(w.(p := -1), c) && v.o == w.o && v.d == w.d
    requires v.l == w.l[..w.i] + s + w.l[w.i + 1..]
    requires (forall q :: 0 <= q < |s| ==> Piece(s[q], w.l[w.i])) && OnlyRestGone(w.l[w.i], s, w.o, |w.d|)
    ensures Goes(w, v)
  {
    forall j | w.i < j < |w.l| ensures w.l[w.i].End() <= w.l[j].offset {
      assert Apart(w.l, -1, w.i, w.i, j);
    }
    forall x: nat ensures Queues(v.l, x, 0, w.l, w.o, w.d) {
      LookupPieces(w.l, w.i, s, x);
    }
  }

  lemma CarveGoes(w: Walk, c: nat)
    requires w.i < |w.l| && w.l[w.i].state == IP && w.d != [] && Tidy(w.(p := -1), c)
    requires w.l[w.i].offset <= w.o && w.o + |w.d| < w.l[w.i].End()
    ensures Goes(w, Carve(w))
  {
    var r := w.l[w.i];
    var k := w.o - r.offset;
    if k == 0 {
      var s := [Request(r.offset + |w.d|, r.data[|w.d|..], r.state)];
      forall x: nat | r.Covers(x) && !(w.o <= x < w.o + |w.d|) ensures Lookup(s, x).Some? {
        assert s[0].Covers(x);
      }
      PiecesGo(w, Carve(w), s, c);
    } else if w.blocks > 0 {
      var tail := Request(w.o + |w.d|, r.data[k + |w.d|..], IP);
      var s := [r.(data := r.data[..k]), tail];
      TwoPieces(s, r, w.o, |w.d|);
      assert Carve(w).l == w.l[..w.i] + s + w.l[w.i + 1..];
      PiecesGo(w, Carve(w), s, c);
    }
  }

  lemma TwoPieces(s: seq<Request>, r: Request, o: nat, n: nat)
    requires |s| == 2 && s[0].offset == r.offset && s[0].End() == o
    requires s[1].offset == o + n && s[1].End() == r.End()
    ensures OnlyRestGone(r, s, o, n)
  {
    forall x: nat | r.Covers(x) && !(o <= x < o + n) ensures Lookup(s, x).Some? {
      LookupAt(s, 1, x);
      LookupAt(s, 0, x);
    }
  }

  lemma ReplaceGoes(w: Walk, c: nat)
    requires Tidy(w.(p := -1), c) && Sane(w, c) && w.status == Running
    requires w.i < |w.l| && w.d != [] && w.o < w.l[w.i].offset && 1 <= c && |w.d| <= c
    ensures Goes(w, Replace(w, c))
  {
    if w.blocks > 0 {
      InsertGoes(w, c);
      assert InsertBefore(w, c) == InsertBefore(w.(p := -1), c);
      InsertTidy(w.(p := -1), c);
      SettleGoes(InsertBefore(w, c), c);
      GoesOn(w, InsertBefore(w, c), Replace(w, c));
    } else {
      Stays(w, Replace(w, c));
    }
  }

  lemma CutIPGoes(w: Walk, c: nat)
    requires Tidy(w.(p := -1), c) && Sane(w, c) && w.status == Running
    requires w.i < |w.l| && w.d != [] && w.l[w.i].Covers(w.o) && 1 <= c && w.l[w.i].state == IP
    ensures Goes(w, CutIP(w, c))
  {
    var r := w.l[w.i];
    if w.o + |w.d| < r.End() {
      CarveTidy(w, c);
      CarveGoes(w, c);
      if Carve(w).status == Running {
        ReplaceGoes(Carve(w), c);
        GoesOn(w, Carve(w), CutIP(w, c));
      }
    } else if w.o == r.offset {
      PiecesGo(w, CutIP(w, c), [], c);
    } else {
      var k := w.o - r.offset;
      var s := [r.(data := r.data[..k])];
      forall x: nat | r.Covers(x) && !(w.o <= x < w.o + |w.d|) ensures Lookup(s, x).Some? {
        assert s[0].Covers(x);
      }
      PiecesGo(w, CutIP(w, c), s, c);
    }
  }

  lemma PlaceGoes(w: Walk, c: nat)
    requires Tidy(w, c) && w.status == Running && 1 <= c
    requires w.i < |w.l| && Settled(w) && w.d != [] && w.l[w.i].offset <= w.o <= w.l[w.i].End()
    ensures Goes(w, Place(w, c))
  {
    ForgetTidy(w, c);
    var r := w.l[w.i];
    if r.state != IP && (w.o < r.End() || |r.data| < c) {
      UpdateGoes(w, c);
    } else if r.state == IP && w.o < r.End() {
      CutIPGoes(w, c);
    } else {
      Stays(w, Place(w, c));
    }
  }

  lemma VisitGoes(w: Walk, c: nat)
    requires Tidy(w, c) && w.status == Running && w.i < |w.l| && 1 <= c
    requires w.d != [] ==> w.l[w.i].offset <= w.o <= w.l[w.i].End()
    requires var v := Settle(w, c); w.d != [] && |v.l| == |w.l| ==> v.l[w.i].offset <= w.o
    ensures Goes(w, Visit(w, c))
  {
    SettleGoes(w, c);
    SettleTidy(w, c);
    SettleSettled(w, c);
    var v := Settle(w, c);
    if w.d != [] && |v.l| == |w.l| {
      PlaceGoes(v, c);
      GoesOn(w, v, Visit(w, c));
    }
  }

  lemma InsertStepGoes(w: Walk, c: nat, v: Walk)
    requires Tidy(w, c) && w.status == Running && w.i < |w.l| && 1 <= c && InsertOk(w, c)
    requires w.d != [] && w.o < w.l[w.i].offset && w.blocks > 0 && v == InsertBefore(w, c)
    ensures Sane(v, c) && v.i < |v.l| && v.d == [] && Goes(w, Visit(v, c))
  {
    InsertGoes(w, c);
    InsertTidy(w, c);
    VisitGoes(v, c);
    GoesOn(w, v, Visit(v, c));
  }

  /** A clean step places some of the rest, and every byte outside of the write stays or stays away. */
  lemma StepGoes(w: Walk, c: nat)
    requires Tidy(w, c) && w.status == Running && w.i < |w.l| && 1 <= c && CleanStep(w, c)
    ensures Goes(w, Step(w, c))
  {
    if w.o > w.l[w.i].End() {
      Stays(w, Step(w, c));
    } else if w.d == [] || w.o >= w.l[w.i].offset {
      VisitGoes(w, c);
    } else if w.blocks > 0 {
      InsertStepGoes(w, c, InsertBefore(w, c));
    } else {
      Stays(w, Step(w, c));
    }
  }

  lemma {:induction false} PassGoes(w: Walk, c: nat)
    requires Tidy(w, c) && w.status == Running && 1 <= c && CleanPass(w, c)
    ensures Goes(w, Pass(w, c)) && TidyOrStalled(Pass(w, c), c)
    decreases |w.l| - w.i
  {
    if w.i < |w.l| {
      StepSane(w, c);
      StepTidy(w, c);
      StepGoes(w, c);
      var v := Step(w, c);
      if v.status == Running {
        PassGoes(v, c);
        GoesOn(w, v, Pass(w, c));
      } else {
        assert Pass(v, c) == v;
      }
    } else {
      Stays(w, Pass(w, c));
    }
  }

  // ---- The whole attempt ----

  lemma GrowGoes(l: seq<Request>, o: nat, d: seq<byte>, c: nat)
    requires WellFormed(l, c) && AtEnd(l, o)
    ensures Advanced(l, Grow(l, o, d, c), o, d, Grown(l, o, d, c))
  {
    if CanGrow(l, o, c) {
      UpdateGoes(Start(l, o, d, 0).(i := |l| - 1), c);
    }
  }

  lemma InsertEndGoes(l: seq<Request>, o: nat, d: seq<byte>, c: nat)
    requires WellFormed(l, c) && AtEnd(l, o) && 1 <= |d| <= c
    ensures Advanced(l, l + [NewRequest(o, d, c)], o, d, |d|)
  {
    var r := NewRequest(o, d, c);
    assert r.data == d && InsertAt(l, |l|, r) == l + [r];
    var n := |d|;
    forall x: nat ensures Queues(l + [r], x, n, l, o, d) {
      LookupInsert(l, |l|, r, x);
    }
  }

  /** Placing first `k` bytes of the rest, then `k'` of what is left of it. */
  lemma AdvancedOn(l: seq<Request>, m: seq<Request>, n: seq<Request>, o: nat, d: seq<byte>, k: nat, k': nat)
    requires k + k' <= |d| && Advanced(l, m, o, d, k) && Advanced(m, n, o + k, d[k..], k')
    ensures Advanced(l, n, o, d, k + k')
  {
    var w := Walk(l, 0, -1, o, d, 0, Running);
    var u, v := w.(l := m, o := o + k, d := d[k..]), w.(l := n, o := o + k + k', d := d[k + k'..]);
    GoesOn(w, u, v);
  }

  /** What an outcome leaves over is the end of the write, and the bytes before it are placed. */
  ghost predicate Leaves(l: seq<Request>, o: nat, d: seq<byte>, r: Outcome) {
    o <= r.o <= o + |d| && r.d == d[r.o - o..] && Advanced(l, r.l, o, d, r.o - o)
  }

  lemma AppendGoes(l: seq<Request>, o: nat, d: seq<byte>, c: nat, blocks: nat)
    requires WellFormed(l, c) && AtEnd(l, o) && 1 <= c && d != [] && CleanAppend(l, o, d, c)
    ensures Leaves(l, o, d, Append(l, o, d, c, blocks))
  {
    GrowGoes(l, o, d, c);
    GrownInOrder(l, o, d, c);
    var m, k := Grow(l, o, d, c), Grown(l, o, d, c);
    if d[k..] != [] && blocks > 0 {
      InsertEndGoes(m, o + k, d[k..], c);
      AdvancedOn(l, m, m + [NewRequest(o + k, d[k..], c)], o, d, k, |d[k..]|);
    }
  }

  lemma GrownInOrder(l: seq<Request>, o: nat, d: seq<byte>, c: nat)
    requires WellFormed(l, c) && AtEnd(l, o)
    ensures WellFormed(Grow(l, o, d, c), c) && AtEnd(Grow(l, o, d, c), o + Grown(l, o, d, c))
  {
    if CanGrow(l, o, c) {
      UpdateNoFull(l, |l| - 1, o, d, c);
    }
  }

  lemma LeavesOn(w: Walk, v: Walk, r: Outcome)
    requires Goes(w, v) && Leaves(v.l, v.o, v.d, r)
    ensures Leaves(w.l, w.o, w.d, r)
  {
    AdvancedOn(w.l, v.l, r.l, w.o, w.d, v.o - w.o, r.o - v.o);
  }

  lemma PassLeaves(w: Walk, v: Walk)
    requires Goes(w, v)
    ensures Leaves(w.l, w.o, w.d, Outcome(v.l, v.o, v.d, v.blocks))
  {
  }

  lemma NothingLeft(l: seq<Request>, o: nat, blocks: nat)
    ensures Leaves(l, o, [], Outcome(l, o, [], blocks))
  {
  }

  lemma {:induction false} AttemptGoes(l: seq<Request>, o: nat, d: seq<byte>, c: nat, blocks: nat)
    requires WellFormed(l, c) && 1 <= c && Clean(l, o, d, c, blocks)
    ensures Leaves(l, o, d, Attempt(l, o, d, c, blocks))
    decreases |l|, if AtEnd(l, o) then 0 else 1
  {
    if d == [] {
      NothingLeft(l, o, blocks);
    } else if AtEnd(l, o) {
      AppendGoes(l, o, d, c, blocks);
    } else {
      var w := Start(l, o, d, blocks);
      StartTidy(l, o, d, c, blocks);
      PassGoes(w, c);
      PassEnds(l, o, d, c, blocks);
      var v := Pass(w, c);
      if v.status == Running && v.d != [] {
        OverDisjoint(v, c);
        AttemptGoes(v.l, v.o, v.d, c, v.blocks);
        LeavesOn(w, v, Attempt(v.l, v.o, v.d, c, v.blocks));
      } else {
        PassLeaves(w, v);
      }
    }
  }

  lemma LeavesAt(l: seq<Request>, o: nat, d: seq<byte>, r: Outcome, x: nat)
    requires Leaves(l, o, d, r)
    ensures o <= r.o && r.o + |r.d| == o + |d|
    ensures if o <= x < r.o then Lookup(r.l, x) == Some(d[x - o])
            else Lookup(r.l, x) == Lookup(l, x) || (r.o <= x < r.o + |r.d| && Lookup(r.l, x) == None)
  {
    var k := r.o - o;
    assert Queues(r.l, x, k, l, o, d);
  }

  /**
   After a clean attempt the list has the placed bytes, and outside of the write the bytes it had, whether
   they are on tape as well or not; under a part that is left over it has no other bytes than before.
   */
  lemma CleanWriteQueues(l: seq<Request>, o: nat, d: seq<byte>, c: nat, blocks: nat, x: nat)
    requires WellFormed(l, c) && 1 <= c && Clean(l, o, d, c, blocks)
    ensures var r := Attempt(l, o, d, c, blocks);
      && o <= r.o && r.o + |r.d| == o + |d|
      && if o <= x < r.o then Lookup(r.l, x) == Some(d[x - o])
         else Lookup(r.l, x) == Lookup(l, x) || (r.o <= x < r.o + |r.d| && Lookup(r.l, x) == None)
  {
    AttemptGoes(l, o, d, c, blocks);
    LeavesAt(l, o, d, Attempt(l, o, d, c, blocks), x);
  }
}
