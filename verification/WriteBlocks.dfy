/**
 The cache blocks of a write (src/iosched/unified.c: unified_write, _unified_insert_new_request,
 _unified_merge_requests): every block is in the list or still to be had, whatever the list and the write,
 and a write stalls only when none is left.
 */
module WriteBlocks {
  import opened Bytes
  import opened Requests
  import opened RequestOps
  import opened WriteWalk
  import opened UnifiedWrite

  /** The blocks in the list and those still to be had. */
  function Blocks(w: Walk): nat {
    |w.l| + w.blocks
  }

  /** A step neither gains nor loses a block, and stalls or stops early only for a reason. */
  ghost predicate Accounted(w: Walk, v: Walk) {
    && Blocks(v) == Blocks(w)
    && (v.status == Stalled ==> v.blocks == 0) && (v.status == Finished ==> v.d == [])
  }

  lemma SettleBlocks(w: Walk, c: nat)
    requires Sane(w, c) && w.i < |w.l| && w.status == Running
    ensures Accounted(w, Settle(w, c))
  {
    if w.p >= 0 {
      MergeIsMerged(w.l, w.p, w.i, c);
    }
  }

  lemma ReplaceBlocks(w: Walk, c: nat)
    requires Sane(w, c) && w.i < |w.l| && w.d != [] && w.o < w.l[w.i].offset && 1 <= c && w.status == Running
    ensures Accounted(w, Replace(w, c))
  {
    var u := InsertBefore(w, c);
    if u.status != Stalled {
      SettleBlocks(u, c);
    }
  }

  lemma CutIPBlocks(w: Walk, c: nat)
    requires Sane(w, c) && w.i < |w.l| && w.d != [] && w.l[w.i].Covers(w.o) && 1 <= c && w.status == Running
    ensures Accounted(w, CutIP(w, c))
  {
    if w.o + |w.d| < w.l[w.i].End() {
      var v := Carve(w);
      assert Sane(v, c);
      if v.status != Stalled {
        ReplaceBlocks(v, c);
      }
    }
  }

  lemma PlaceBlocks(w: Walk, c: nat)
    requires Sane(w, c) && w.i < |w.l| && w.d != [] && w.o <= w.l[w.i].End() && 1 <= c && w.status == Running
    ensures Accounted(w, Place(w, c))
  {
    if w.o < w.l[w.i].offset {
      ReplaceBlocks(w, c);
    } else if w.l[w.i].state == IP && w.o < w.l[w.i].End() {
      CutIPBlocks(w, c);
    }
  }

  lemma StepBlocks(w: Walk, c: nat)
    requires Sane(w, c) && w.i < |w.l| && 1 <= c && w.status == Running
    ensures Accounted(w, Step(w, c))
  {
    if w.o <= w.l[w.i].End() {
      var u := InsertBefore(w, c);
      if u.status != Stalled {
        SettleBlocks(u, c);
        SettleSane(u, c);
        var v := Settle(u, c);
        if u.d != [] && |v.l| >= |u.l| {
          PlaceBlocks(v, c);
        }
      }
    }
  }

  lemma {:induction false} PassBlocks(w: Walk, c: nat)
    requires Sane(w, c) && 1 <= c && w.status == Running
    ensures Accounted(w, Pass(w, c))
    decreases |w.l| - w.i
  {
    if w.i < |w.l| {
      StepSane(w, c);
      StepBlocks(w, c);
      var v := Step(w, c);
      if v.status == Running {
        PassBlocks(v, c);
      } else {
        assert Pass(v, c) == v;
      }
    }
  }

  /**
   For every list and every write, clean or not: the blocks that hold requests and those still to be had are
   as many as before, and part of the write is left over only if there is no block to be had any more.
   */
  lemma {:induction false} AttemptBlocks(l: seq<Request>, o: nat, d: seq<byte>, c: nat, blocks: nat)
    requires Sized(l, c) && 1 <= c
    ensures var r := Attempt(l, o, d, c, blocks);
      |r.l| + r.blocks == |l| + blocks && (r.d != [] ==> r.blocks == 0)
    decreases |l|, if AtEnd(l, o) then 0 else 1
  {
    if d != [] && !AtEnd(l, o) {
      var w := Start(l, o, d, blocks);
      PassEnds(l, o, d, c, blocks);
      PassBlocks(w, c);
      var v := Pass(w, c);
      if v.status == Running && v.d != [] {
        AttemptBlocks(v.l, v.o, v.d, c, v.blocks);
      }
    }
  }

  /**
   Overwriting a request for the index partition whole needs no block to be had: its own is used for the
   new bytes.
   */
  lemma OverwritingNeedsNoBlock(r: Request, d: seq<byte>, c: nat)
    requires r.state == IP && 1 <= |r.data| == |d| <= c
    ensures Attempt([r], r.offset, d, c, 0) == Outcome([NewRequest(r.offset, d, c)], r.offset + |d|, [], 0)
  {
    var w := Start([r], r.offset, d, 0);
    var v := w.(l := [], blocks := 1);
    assert Remove([r], 0) == [];
    assert Settle(w, c) == w && Step(w, c) == v;
    assert Pass(v, c) == v && Pass(w, c) == v;
    assert d[0..] == d && [] + [NewRequest(r.offset, d, c)] == [NewRequest(r.offset, d, c)];
    assert Attempt([], r.offset, d, c, 1) == Append([], r.offset, d, c, 1);
  }
}
