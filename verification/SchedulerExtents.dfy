/**
 The list of alternate extents of one file in place (src/iosched/unified.c:
 _unified_update_alt_extentlist, _unified_clear_alt_extentlist, the trimming in unified_truncate).
 */
module SchedulerExtents {
  import opened AltExtents
  import opened SchedulerState

  /** The comment on the queue of records with extents: a record is in it exactly while it has some. */
  ghost predicate QueuedForExtents(f: DentryPriv)
    reads f
  {
    f.inExtQueue <==> f.extents != []
  }

  /** _unified_update_alt_extentlist. */
  method UpdateAltExtentlist(f: DentryPriv, bs: nat, n: Extent)
    requires bs > 0 && n.count > 0
    modifies f`extents, f`inExtQueue
    ensures f.extents == Add(old(f.extents), n, false, bs)
    ensures f.inExtQueue == (old(f.inExtQueue) || old(f.extents) == [])
  {
    if f.extents == [] {
      f.inExtQueue := true;
      f.extents := [n];
      return;
    }
    Splice(f, bs, n);
  }

  /** The walk over the list that puts the new extent in and cuts the entries it covers. */
  method Splice(f: DentryPriv, bs: nat, n: Extent)
    requires bs > 0 && n.count > 0
    modifies f`extents
    ensures f.extents == Add(old(f.extents), n, false, bs)
  {
    ghost var done: seq<Extent>, rest := [], f.extents;
    var i, used := 0, false;
    while i < |f.extents|
      invariant f.extents == done + rest && i == |done|
      invariant done + Add(rest, n, used, bs) == Add(old(f.extents), n, false, bs)
      decreases |rest|
    {
      var e := f.extents[i];
      assert e == rest[0];
      AddFirst(done, rest, n, used, bs);
      if !used && n.file <= e.file {
        f.extents := f.extents[..i] + [n] + f.extents[i..];
        i := i + 1;
        used := true;
        done := done + [n];
      } else {
        assert done + [] == done;
      }
      assert f.extents == done + rest && i == |done|;
      var taken, stop, next := CutEntry(f, bs, i, n);
      if stop {
        break;
      }
      used := used || taken;
      i := next;
      assert f.extents == done + Adjust(e, n, bs) + rest[1..];
      done, rest := done + Adjust(e, n, bs), rest[1..];
    }
    if !used {
      f.extents := f.extents + [n];
    }
  }

  /** One entry against the new extent: append to it, skip, cut or delete it, or stop there. */
  method CutEntry(f: DentryPriv, bs: nat, i: nat, n: Extent) returns (taken: bool, stop: bool, next: nat)
    requires bs > 0 && i < |f.extents|
    modifies f`extents
    ensures var e := old(f.extents[i]);
      && stop == (PastEnd(e, n))
      && (stop ==> f.extents == old(f.extents))
      && (!stop ==>
            && taken == Follows(n, e, bs)
            && next == i + |Adjust(e, n, bs)|
            && f.extents == old(f.extents[..i]) + Adjust(e, n, bs) + old(f.extents[i + 1..]))
  {
    var e := f.extents[i];
    taken, stop, next := false, false, i + 1;
    if e.End() < n.file {
      // the new extent goes farther down the list
    } else if e.End() == n.file {
      if Follows(n, e, bs) {
        f.extents := f.extents[i := e.(count := e.count + n.count)];
        taken := true;
      }
    } else if e.file < n.file {
      if e.End() <= n.End() {
        f.extents := f.extents[i := e.(count := n.file - e.file)];
      }
    } else if e.End() <= n.End() {
      f.extents := f.extents[..i] + f.extents[i + 1..];
      next := i;
    } else if e.file < n.End() {
      f.extents := f.extents[i := TrimFront(e, n.End() - e.file, bs)];
    } else {
      stop := true;
    }
  }

  /**
   The part of unified_truncate that concerns the extents. It leaves the queue alone; so a record that
   is queued exactly because it has extents stays so exactly if it had none or one of them starts
   before the new size.
   */
  method TrimExtents(f: DentryPriv, size: nat)
    modifies f`extents
    ensures f.extents == TrimTo(old(f.extents), size)
    ensures old(QueuedForExtents(f)) ==>
      (QueuedForExtents(f) <==> old(f.extents) == [] || exists e :: e in old(f.extents) && e.file < size)
  {
    TrimToEmpty(f.extents, size);
    TrimLoop(f, size);
  }

  method TrimLoop(f: DentryPriv, size: nat)
    modifies f`extents
    ensures f.extents == TrimTo(old(f.extents), size)
  {
    ghost var result := TrimTo(f.extents, size);
    var i := 0;
    while i < |f.extents|
      invariant i <= |f.extents|
      invariant f.extents[..i] + TrimTo(f.extents[i..], size) == result
      decreases |f.extents| - i
    {
      var e := f.extents[i];
      ghost var before, rest := f.extents[..i], f.extents[i..];
      assert rest[0] == e && rest[1..] == f.extents[i + 1..];
      if e.file >= size {
        f.extents := f.extents[..i] + f.extents[i + 1..];
        assert f.extents[..i] == before && f.extents[i..] == rest[1..];
      } else {
        if e.End() > size {
          f.extents := f.extents[i := e.(count := size - e.file)];
        }
        i := i + 1;
        assert f.extents[..i] == before + [f.extents[i - 1]] && f.extents[i..] == rest[1..];
      }
    }
    assert f.extents[..i] == f.extents && f.extents[i..] == [];
    assert f.extents == result;
  }

  /** _unified_clear_alt_extentlist, the extents being discarded. */
  method ClearAltExtentlist(f: DentryPriv)
    modifies f`extents, f`inExtQueue
    ensures f.extents == [] && f.inExtQueue == (old(f.inExtQueue) && old(f.extents) == [])
  {
    if f.extents != [] {
      f.extents := [];
      f.inExtQueue := false;
    }
  }

  /** One extent, at the start of the file. */
  function OneExtent(): seq<Extent> {
    [Extent(0, 0, 10, 0)]
  }

  /** A record with one extent, truncated to nothing, has none left and stays in the queue. */
  method TruncationLeavesQueued(f: DentryPriv)
    requires f.extents == OneExtent() && f.inExtQueue
    modifies f`extents
    ensures f.extents == [] && f.inExtQueue && old(QueuedForExtents(f)) && !QueuedForExtents(f)
  {
    TrimExtents(f, 0);
  }
}
