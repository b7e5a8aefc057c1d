/**
 What a clean walk of unified_write (src/iosched/unified.c) does to the file: after every step
 the list and the tape hold the old file with the placed part of the write on top.
 */
module WriteMeaning {
  import opened Bytes
  import opened Requests
  import opened RequestOps
  import opened WriteWalk
  import opened WriteTidy

  /**
   The list `l` holds the file of list `l0` with the placed part of the write `d0` at `o0` on
   top; `d` at `o` is the rest of the write.
   */
  ghost predicate HoldsFile(l: seq<Request>, o: nat, d: seq<byte>,
    l0: seq<Request>, tape: seq<byte>, o0: nat, d0: seq<byte>)
  {
    && o0 <= o && o - o0 + |d| == |d0| && d == d0[o - o0..]
    && LookOverlay(l0, l, tape, o0, d0[..o - o0])
    && IPAgree(l, tape)
  }

  ghost predicate Holds(w: Walk, l0: seq<Request>, tape: seq<byte>, o0: nat, d0: seq<byte>) {
    HoldsFile(w.l, w.o, w.d, l0, tape, o0, d0)
  }

  lemma InsertHolds(w: Walk, c: nat, l0: seq<Request>, tape: seq<byte>, o0: nat, d0: seq<byte>)
    requires Holds(w, l0, tape, o0, d0) && w.i < |w.l|
    requires w.d != [] && w.o < w.l[w.i].offset && w.blocks > 0 && |w.d| <= c
    requires forall j :: 0 <= j < w.i ==> w.l[j].End() <= w.o
    ensures Holds(InsertBefore(w, c), l0, tape, o0, d0)
  {
    var r := NewRequest(w.o, w.d, c);
    assert r.data == w.d;
    assert d0[..|d0|] == d0;
    forall x: nat
      ensures Look(InsertAt(w.l, w.i, r), tape, x) ==
        if o0 <= x < o0 + |d0| then Some(d0[x - o0]) else Look(l0, tape, x)
    {
      LookupInsert(w.l, w.i, r, x);
      var placed := d0[..w.o - o0];
      assert Look(w.l, tape, x) == if o0 <= x < o0 + |placed| then Some(placed[x - o0]) else Look(l0, tape, x);
    }
    assert o0 + |d0| == w.o + |w.d|;
  }

  lemma SettleHolds(w: Walk, c: nat, l0: seq<Request>, tape: seq<byte>, o0: nat, d0: seq<byte>)
    requires Holds(w, l0, tape, o0, d0) && Tidy(w, c) && w.i < |w.l|
    ensures Holds(Settle(w, c), l0, tape, o0, d0)
  {
    if w.p >= 0 {
      MergeIPAgree(w.l, w.p, w.i, c, tape);
      assert Apart(w.l, w.p, w.i, w.p, w.i);
      forall x: nat ensures Look(MergeAt(w.l, w.p, w.i, c).list, tape, x) == Look(w.l, tape, x) {
        LookupMerge(w.l, w.i, c, x);
      }
    }
  }

  lemma UpdateHolds(w: Walk, c: nat, l0: seq<Request>, tape: seq<byte>, o0: nat, d0: seq<byte>)
    requires Holds(w, l0, tape, o0, d0) && w.i < |w.l| && w.d != []
    requires w.l[w.i].offset <= w.o <= w.l[w.i].End() <= w.l[w.i].offset + c && w.l[w.i].state != IP
    requires forall j :: 0 <= j < w.i ==> w.l[j].End() <= w.o
    ensures var k := Taken(w.l[w.i], w.o, w.d, c);
      Holds(w.(l := Update(w.l, w.i, w.o, w.d, c), p := w.i, i := w.i + 1, o := w.o + k, d := w.d[k..]),
            l0, tape, o0, d0)
  {
    var k := Taken(w.l[w.i], w.o, w.d, c);
    var m := Update(w.l, w.i, w.o, w.d, c);
    assert w.d[k..] == d0[w.o + k - o0..];
    forall x: nat
      ensures Look(m, tape, x) ==
        if o0 <= x < w.o + k then Some(d0[x - o0]) else Look(l0, tape, x)
    {
      LookupUpdate(w.l, w.i, w.o, w.d, c, x);
      var placed := d0[..w.o - o0];
      assert Look(w.l, tape, x) == if o0 <= x < o0 + |placed| then Some(placed[x - o0]) else Look(l0, tape, x);
    }
    assert d0[..w.o + k - o0] == d0[..w.o - o0] + w.d[..k];
  }

  /** Replacing an on-tape request by on-tape pieces of it leaves the file as it was. */
  lemma LookPieces(l: seq<Request>, i: nat, s: seq<Request>, tape: seq<byte>, x: nat)
    requires i < |l| && OnTape(l[i], tape)
    requires forall q :: 0 <= q < |s| ==>
      OnTape(s[q], tape) && l[i].offset <= s[q].offset && s[q].End() <= l[i].End()
    requires forall j :: i < j < |l| ==> l[i].End() <= l[j].offset
    ensures Look(l[..i] + s + l[i + 1..], tape, x) == Look(l, tape, x)
  {
    LookupConcat(l[..i] + s, l[i + 1..], x);
    LookupConcat(l[..i], s, x);
    LookupAt(l, i, x);
    if l[i].Covers(x) {
      LookupNone(l[i + 1..], x);
      OnTapePart(l[i], x - l[i].offset, x - l[i].offset + 1, tape);
      assert tape[x..x + 1][0] == tape[x];
      if Lookup(s, x).Some? {
        var q := LookupSome(s, x);
        OnTapePart(s[q], x - s[q].offset, x - s[q].offset + 1, tape);
      }
    } else {
      LookupNone(s, x);
    }
  }

  lemma PiecesHold(w: Walk, v: Walk, s: seq<Request>, c: nat, l0: seq<Request>, tape: seq<byte>, o0: nat, d0: seq<byte>)
    requires Holds(w, l0, tape, o0, d0) && w.i < |w.l| && w.l[w.i].state == IP
    requires Tidy(w.(p := -1), c) && v.o == w.o && v.d == w.d
    requires v.l == w.l[..w.i] + s + w.l[w.i + 1..]
    requires forall q :: 0 <= q < |s| ==>
      OnTape(s[q], tape) && w.l[w.i].offset <= s[q].offset && s[q].End() <= w.l[w.i].End()
    ensures Holds(v, l0, tape, o0, d0)
  {
    forall j | w.i < j < |w.l| ensures w.l[w.i].End() <= w.l[j].offset {
      assert Apart(w.l, -1, w.i, w.i, j);
    }
    forall x: nat ensures Look(v.l, tape, x) == Look(w.l, tape, x) {
      LookPieces(w.l, w.i, s, tape, x);
    }
  }

  lemma CarveHolds(w: Walk, c: nat, l0: seq<Request>, tape: seq<byte>, o0: nat, d0: seq<byte>)
    requires Holds(w, l0, tape, o0, d0) && w.i < |w.l| && w.l[w.i].state == IP && w.d != []
    requires Tidy(w.(p := -1), c)
    requires w.l[w.i].offset <= w.o && w.o + |w.d| < w.l[w.i].End()
    ensures Holds(Carve(w), l0, tape, o0, d0)
  {
    var r := w.l[w.i];
    var k := w.o - r.offset;
    OnTapePart(r, k + |w.d|, |r.data|, tape);
    OnTapePart(r, 0, k, tape);
    if k == 0 {
      PiecesHold(w, Carve(w), [Request(r.offset + |w.d|, r.data[|w.d|..], r.state)], c, l0, tape, o0, d0);
    } else if w.blocks > 0 {
      var tail := Request(w.o + |w.d|, r.data[k + |w.d|..], IP);
      var s := [r.(data := r.data[..k]), tail];
      assert Carve(w).l == w.l[..w.i] + s + w.l[w.i + 1..];
      PiecesHold(w, Carve(w), s, c, l0, tape, o0, d0);
    }
  }

  lemma ReplaceHolds(w: Walk, c: nat, l0: seq<Request>, tape: seq<byte>, o0: nat, d0: seq<byte>)
    requires Holds(w, l0, tape, o0, d0) && Tidy(w.(p := -1), c) && Sane(w, c) && w.status == Running
    requires w.i < |w.l| && w.d != [] && w.o < w.l[w.i].offset && 1 <= c && |w.d| <= c
    ensures Holds(Replace(w, c), l0, tape, o0, d0)
  {
    if w.blocks > 0 {
      InsertHolds(w, c, l0, tape, o0, d0);
      assert InsertBefore(w, c) == InsertBefore(w.(p := -1), c);
      InsertTidy(w.(p := -1), c);
      SettleHolds(InsertBefore(w, c), c, l0, tape, o0, d0);
    }
  }

  lemma CutIPHolds(w: Walk, c: nat, l0: seq<Request>, tape: seq<byte>, o0: nat, d0: seq<byte>)
    requires Holds(w, l0, tape, o0, d0) && Tidy(w.(p := -1), c) && Sane(w, c) && w.status == Running
    requires w.i < |w.l| && w.d != [] && w.l[w.i].Covers(w.o) && 1 <= c && w.l[w.i].state == IP
    ensures Holds(CutIP(w, c), l0, tape, o0, d0)
  {
    var r := w.l[w.i];
    if w.o + |w.d| < r.End() {
      CarveTidy(w, c);
      CarveHolds(w, c, l0, tape, o0, d0);
      if Carve(w).status == Running {
        ReplaceHolds(Carve(w), c, l0, tape, o0, d0);
      }
    } else if w.o == r.offset {
      PiecesHold(w, CutIP(w, c), [], c, l0, tape, o0, d0);
    } else {
      var k := w.o - r.offset;
      OnTapePart(r, 0, k, tape);
      PiecesHold(w, CutIP(w, c), [r.(data := r.data[..k])], c, l0, tape, o0, d0);
    }
  }

  lemma PlaceHolds(w: Walk, c: nat, l0: seq<Request>, tape: seq<byte>, o0: nat, d0: seq<byte>)
    requires Holds(w, l0, tape, o0, d0) && Tidy(w, c) && w.status == Running && 1 <= c
    requires w.i < |w.l| && Settled(w) && w.d != [] && w.l[w.i].offset <= w.o <= w.l[w.i].End()
    ensures Holds(Place(w, c), l0, tape, o0, d0)
  {
    ForgetTidy(w, c);
    var r := w.l[w.i];
    if r.state != IP && (w.o < r.End() || |r.data| < c) {
      UpdateHolds(w, c, l0, tape, o0, d0);
    } else if r.state == IP && w.o < r.End() {
      CutIPHolds(w, c, l0, tape, o0, d0);
    }
  }

  lemma VisitHolds(w: Walk, c: nat, l0: seq<Request>, tape: seq<byte>, o0: nat, d0: seq<byte>)
    requires Holds(w, l0, tape, o0, d0) && Tidy(w, c) && w.status == Running && w.i < |w.l| && 1 <= c
    requires w.d != [] ==> w.l[w.i].offset <= w.o <= w.l[w.i].End()
    requires var v := Settle(w, c); w.d != [] && |v.l| == |w.l| ==> v.l[w.i].offset <= w.o
    ensures Holds(Visit(w, c), l0, tape, o0, d0)
  {
    SettleHolds(w, c, l0, tape, o0, d0);
    SettleTidy(w, c);
    SettleSettled(w, c);
    var v := Settle(w, c);
    if w.d != [] && |v.l| == |w.l| {
      PlaceHolds(v, c, l0, tape, o0, d0);
    }
  }

  /** A clean step keeps the file: old bytes everywhere but under the placed part of the write. */
  lemma StepHolds(w: Walk, c: nat, l0: seq<Request>, tape: seq<byte>, o0: nat, d0: seq<byte>)
    requires Holds(w, l0, tape, o0, d0) && Tidy(w, c) && w.status == Running && w.i < |w.l| && 1 <= c
    requires CleanStep(w, c)
    ensures Holds(Step(w, c), l0, tape, o0, d0)
  {
    if w.o > w.l[w.i].End() {
    } else if w.d == [] || w.o >= w.l[w.i].offset {
      VisitHolds(w, c, l0, tape, o0, d0);
    } else if w.blocks > 0 {
      InsertHolds(w, c, l0, tape, o0, d0);
      InsertTidy(w, c);
      VisitHolds(InsertBefore(w, c), c, l0, tape, o0, d0);
    }
  }
}
