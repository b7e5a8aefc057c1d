/**
 How far a request is filled, and with it its state (src/iosched/unified.c: _unified_insert_new_request,
 _unified_update_request, _unified_merge_requests): a full block waits for the data partition and takes
 along every partial one that starts before it; a merge fills the block of the first request as far as
 the second has bytes for it.
 */
module RequestStates {
  import opened Bytes
  import opened Requests
  import opened RequestOps

  /** A new request takes a block's worth at most, and waits for the data partition exactly when it is full. */
  lemma NewIsFull(o: nat, d: seq<byte>, c: nat)
    ensures var r := NewRequest(o, d, c);
      && r.offset == o && r.data <= d && (|r.data| == |d| || |r.data| == c) && |r.data| <= c
      && r.state != IP && (r.state == DP <==> |r.data| == c)
  {
  }

  /** The partial request `a` has become `b`, whose block is full. */
  predicate Filled(a: Request, b: Request, c: nat) {
    a.state == Partial && |b.data| == c
  }

  /**
   A request whose block an update fills is partial no longer, and neither is any that starts at or before
   the write position; all others, and all when no block is filled, stay in their queues.
   */
  lemma UpdatePromotes(l: seq<Request>, i: nat, o: nat, d: seq<byte>, c: nat, j: nat)
    requires i < |l| && j < |l| && l[i].offset <= o <= l[i].End() <= l[i].offset + c
    requires l[i].state == Partial ==> |l[i].data| < c
    ensures var m := Update(l, i, o, d, c);
      && (Filled(l[i], m[i], c) && l[j].state == Partial && l[j].offset <= o ==> m[j].state == DP)
      && (m[j].state != l[j].state ==> Filled(l[i], m[i], c) && l[j].state == Partial && l[j].offset <= o)
  {
    var r := Updated(l[i], o, d, c);
    if d == [] {
      assert r.data == l[i].data;
    }
  }

  /** Requests of the same side: both for the index partition, or both not. */
  predicate SameSide(a: Request, b: Request) {
    a.state == IP <==> b.state == IP
  }

  /**
   Merging a request into an earlier one it touches or overlaps: of the same side they share the first
   one's block until it is full, of different sides nothing moves; the second goes exactly when the first
   covers it to its end.
   */
  lemma MergeReaches(l: seq<Request>, p: nat, i: nat, c: nat)
    requires p < i < |l| && Sized(l, c) && l[i].offset <= l[p].End()
    ensures var m, full := MergeAt(l, p, i, c), l[p].offset + c;
      && m.list[p].End() == (if SameSide(l[p], l[i]) then Max(l[p].End(), Min(full, l[i].End())) else l[p].End())
      && (m.result == 2 <==> l[i].End() <= m.list[p].End())
      && (m.result == 0 <==> m.list[p].End() == l[i].offset)
  {
    MergeIsMerged(l, p, i, c);
  }

  /** So of two touching requests of the same side the first is full afterwards, or the second is gone. */
  lemma MergeFills(l: seq<Request>, p: nat, i: nat, c: nat)
    requires p < i < |l| && Sized(l, c) && l[i].offset <= l[p].End() && SameSide(l[p], l[i])
    ensures var m := MergeAt(l, p, i, c); |m.list[p].data| == c || m.result == 2
  {
    MergeReaches(l, p, i, c);
  }

  /** What is left of the second request is not full, so unless it is for the index partition it is partial. */
  lemma CutIsPartial(l: seq<Request>, p: nat, i: nat, c: nat)
    requires p < i < |l| && Sized(l, c) && l[i].offset <= l[p].End()
    ensures var m := MergeAt(l, p, i, c);
      m.result == 1 ==> m.list[i].state == if l[i].state == IP then IP else Partial
  {
  }

  /** Two requests that do not meet stay as they are. */
  lemma NothingToMerge(l: seq<Request>, p: nat, i: nat, c: nat)
    requires p < i < |l| && Sized(l, c) && l[i].offset > l[p].End()
    ensures MergeAt(l, p, i, c) == Merge(l, 0)
  {
  }
}
