/**
 Placement and truncation in place (src/iosched/unified.c: _unified_set_write_ip,
 _unified_unset_write_ip, unified_truncate).
 */
module SchedulerPlace {
  import opened Bytes
  import opened Requests
  import opened RequestOps
  import opened UnifiedDrain
  import opened Counts
  import opened FileRun
  import opened AltExtents
  import opened SchedulerState
  import opened SchedulerExtents
  import opened SchedulerRequests
  import opened SchedulerWrite

  /** The file as a value. */
  ghost function FileOf(f: DentryPriv): File
    reads f`requests, f`tape, f`writeIp
  {
    File(f.requests, f.tape, f.writeIp)
  }

  /** Only a file placed on the index partition has requests for it. */
  ghost predicate InPlace(f: DentryPriv)
    reads f`requests, f`writeIp
  {
    !f.writeIp ==> NoIP(f.requests)
  }

  // ---- Taking the index-partition requests out ----

  lemma DropIPNext(l: seq<Request>, i: nat)
    requires i < |l|
    ensures l[i].state == IP ==> Remove(l, i)[..i] == l[..i] && DropIP(Remove(l, i)[i..]) == DropIP(l[i..])
    ensures l[i].state != IP ==> l[..i + 1] + DropIP(l[i + 1..]) == l[..i] + DropIP(l[i..])
  {
    assert l[i..][1..] == l[i + 1..];
    if l[i].state == IP {
      assert Remove(l, i)[i..] == l[i + 1..];
    } else {
      assert l[..i + 1] == l[..i] + [l[i]];
    }
  }

  lemma {:induction false} DropIPCounts(l: seq<Request>)
    ensures var m := DropIP(l);
      Count(m, Partial) == Count(l, Partial) && Count(m, DP) == Count(l, DP) && Count(m, IP) == 0
  {
    if l != [] {
      DropIPCounts(l[1..]);
    }
  }

  /** Requests inside the tape file can go without changing how far the file reaches. */
  lemma {:induction false} DropIPReaches(l: seq<Request>, tape: seq<byte>, size: nat)
    ensures Reaches(l, tape, size) ==> Reaches(DropIP(l), tape, size)
  {
    if Reaches(l, tape, size) && l != [] {
      DropIPReaches(l[1..], tape, Size(l[1..], tape));
      SizeBound(DropIP(l[1..]), tape);
    }
  }

  lemma {:induction false} NoneToDrop(l: seq<Request>)
    requires Count(l, IP) == 0
    ensures DropIP(l) == l
  {
    if l != [] {
      NoneToDrop(l[1..]);
    }
  }

  /** The loop that takes every index-partition request out, without touching the counters. */
  method RemoveIP(f: DentryPriv)
    modifies f`requests
    ensures f.requests == DropIP(old(f.requests))
  {
    var i := 0;
    while i < |f.requests|
      invariant i <= |f.requests| && f.requests[..i] + DropIP(f.requests[i..]) == DropIP(old(f.requests))
      decreases |f.requests| - i
    {
      DropIPNext(f.requests, i);
      if f.requests[i].state == IP {
        f.requests := Remove(f.requests, i);
      } else {
        i := i + 1;
      }
    }
    assert f.requests[..i] == f.requests;
  }

  /** The file moves to the index partition: its full requests stop counting as blocks that can be freed. */
  method SetWriteIp(f: DentryPriv, q: UnifiedData)
    requires Linked(f, q) && !f.writeIp
    modifies f`writeIp, q`dpRequestCount
    ensures Linked(f, q) && Others(f, q) == old(Others(f, q)) && f.writeIp
  {
    f.writeIp := true;
    if f.inDpQueue > 0 {
      q.dpRequestCount := q.dpRequestCount - f.inDpQueue;
    }
  }

  /**
   The file goes back: its index-partition requests are dropped, its full requests count again, and its
   alternate extents are discarded.
   */
  method UnsetWriteIp(f: DentryPriv, q: UnifiedData)
    requires Linked(f, q) && LeadOf(f) == Lead(0, 0, 0) && f.writeIp
    modifies f`writeIp, f`requests, f`inWorkingSet, f`inDpQueue, f`inIpQueue, f`extents, f`inExtQueue, q
    ensures Linked(f, q) && LeadOf(f) == Lead(0, 0, 0) && Others(f, q) == old(Others(f, q))
    ensures FileOf(f) == Unset(old(FileOf(f)))
    ensures f.extents == [] && f.inExtQueue == (old(f.inExtQueue) && old(f.extents) == [])
  {
    UnsetRequests(f, q);
    ClearAltExtentlist(f);
  }

  method UnsetRequests(f: DentryPriv, q: UnifiedData)
    requires Linked(f, q) && LeadOf(f) == Lead(0, 0, 0) && f.writeIp
    modifies f`writeIp, f`requests, f`inWorkingSet, f`inDpQueue, f`inIpQueue, q
    ensures Linked(f, q) && LeadOf(f) == Lead(0, 0, 0) && Others(f, q) == old(Others(f, q))
    ensures FileOf(f) == Unset(old(FileOf(f)))
  {
    f.writeIp := false;
    DropIPCounts(f.requests);
    UnlinkIP(f, q);
    if f.inDpQueue > 0 {
      q.dpRequestCount := q.dpRequestCount + f.inDpQueue;
    }
  }

  method UnlinkIP(f: DentryPriv, q: UnifiedData)
    requires Linked(f, q) && f.inIpQueue == Count(f.requests, IP)
    modifies f`requests, f`inWorkingSet, f`inDpQueue, f`inIpQueue, q
    ensures Linked(f, q) && Others(f, q) == old(Others(f, q)) && f.requests == DropIP(old(f.requests))
    ensures f.inWorkingSet == old(f.inWorkingSet) && f.inDpQueue == old(f.inDpQueue) && f.inIpQueue == 0
  {
    if f.inIpQueue > 0 {
      RemoveIP(f);
      UpdateQueueMembership(f, q, false, true, IP);
    } else {
      NoneToDrop(f.requests);
    }
  }

  // ---- Truncation ----

  /** One turn of the loop: request `i` goes, is cut, or ends in time. */
  lemma TrimNext(l: seq<Request>, i: nat, n: nat)
    requires i < |l|
    ensures var was, r := Trim(l[..i + 1], n) + l[i + 1..], l[i];
      if r.offset >= n then was == Trim(Remove(l, i)[..i], n) + Remove(l, i)[i..]
      else if r.End() > n then
        var m := l[i := r.(data := r.data[..n - r.offset])];
        was == Trim(m[..i], n) + m[i..]
      else was == l
  {
    var r := l[i];
    assert l[..i + 1][..i] == l[..i];
    if r.offset >= n {
      assert Remove(l, i)[..i] == l[..i] && Remove(l, i)[i..] == l[i + 1..];
    } else if r.End() > n {
      var cut := r.(data := r.data[..n - r.offset]);
      var m := l[i := cut];
      assert m[..i] == l[..i] && m[i..] == [cut] + l[i + 1..];
    } else {
      assert l[..i + 1] + l[i + 1..] == l;
    }
  }

  /** The loop of unified_truncate, from the last request back to the first that ends in time. */
  method TrimRequests(f: DentryPriv, q: UnifiedData, n: nat)
    requires Linked(f, q) && LeadOf(f) == Lead(0, 0, 0)
    modifies f`requests, f`inWorkingSet, f`inDpQueue, f`inIpQueue, q
    ensures Linked(f, q) && LeadOf(f) == Lead(0, 0, 0) && Others(f, q) == old(Others(f, q))
    ensures f.requests == Trim(old(f.requests), n)
  {
    var i := |f.requests|;
    ghost var goal := Trim(f.requests, n);
    assert f.requests[..i] == f.requests;
    while i > 0
      invariant 0 <= i <= |f.requests|
      invariant Linked(f, q) && LeadOf(f) == Lead(0, 0, 0) && Others(f, q) == old(Others(f, q))
      invariant Trim(f.requests[..i], n) + f.requests[i..] == goal
    {
      i := i - 1;
      TrimNext(f.requests, i, n);
      var more := TrimOne(f, q, i, n);
      if !more {
        return;
      }
    }
    assert f.requests[0..] == f.requests;
  }

  method TrimOne(f: DentryPriv, q: UnifiedData, i: nat, n: nat) returns (more: bool)
    requires Linked(f, q) && LeadOf(f) == Lead(0, 0, 0) && i < |f.requests|
    modifies f`requests, f`inWorkingSet, f`inDpQueue, f`inIpQueue, q
    ensures Linked(f, q) && LeadOf(f) == Lead(0, 0, 0) && Others(f, q) == old(Others(f, q))
    ensures var l, r := old(f.requests), old(f.requests)[i];
      && f.requests == (if r.offset >= n then Remove(l, i)
                        else if r.End() > n then l[i := r.(data := r.data[..n - r.offset])] else l)
      && (more <==> r.End() > n || r.offset >= n)
  {
    var r := f.requests[i];
    if r.offset >= n {
      UnlinkRequest(f, q, i);
    } else if r.End() > n {
      SetData(f, i, r.(data := r.data[..n - r.offset]));
    } else {
      return false;
    }
    return true;
  }

  lemma {:induction false} DropEndsBy(l: seq<Request>, n: nat)
    ensures EndsBy(DropIP(l), n, false) <==> EndsBy(l, n, true)
  {
    if EndsBy(l, n, true) {
      forall j | 0 <= j < |DropIP(l)| ensures DropIP(l)[j].End() <= n {
        DropIPMember(l, DropIP(l)[j]);
      }
    }
    if EndsBy(DropIP(l), n, false) {
      forall j | 0 <= j < |l| && l[j].state != IP ensures l[j].End() <= n {
        DropIPMember(l, l[j]);
        var k :| 0 <= k < |DropIP(l)| && DropIP(l)[k] == l[j];
      }
    }
  }

  /** The list after unified_truncate, with its index-partition requests dropped or not. */
  function CutList(l: seq<Request>, size: nat, n: nat, drop: bool): seq<Request> {
    if drop then DropIP(Truncated(l, size, n)) else Truncated(l, size, n)
  }

  /**
   When file_size, which a truncation to `n` makes `n`, is right afterwards: if the list was trimmed
   the loop must not have stopped before a request that reaches over `n`, and if it was not there must
   be no such request.
   */
  ghost predicate CutsRight(l: seq<Request>, size: nat, n: nat, drop: bool) {
    if n < size then StopsInTime(l, n, drop) else EndsBy(l, n, drop)
  }

  lemma CutReaches(l: seq<Request>, size: nat, tape: seq<byte>, n: nat, drop: bool)
    requires forall j :: 0 <= j < |l| ==> |l[j].data| > 0
    ensures Reaches(CutList(l, size, n, drop), Resize(tape, n), n) <==> CutsRight(l, size, n, drop)
  {
    TrimEndsBy(l, n, drop);
    DropEndsBy(Truncated(l, size, n), n);
    SizeEndsBy(CutList(l, size, n, drop), Resize(tape, n));
  }

  /**
   From a right file_size, on any list: a truncation to `n` leaves it right if and only if the file
   does not get shorter or no request ending by `n` comes after one that does not, index-partition
   requests that are dropped not counting.
   */
  lemma SizeRightAfterTruncation(l: seq<Request>, tape: seq<byte>, size: nat, n: nat, c: nat, drop: bool)
    requires Sized(l, c) && Reaches(l, tape, size)
    ensures Reaches(CutList(l, size, n, drop), Resize(tape, n), n) <==> n >= size || StopsInTime(l, n, drop)
  {
    SizeBound(l, tape);
    CutReaches(l, size, tape, n, drop);
  }

  /** The placement decision of a truncation: to the index partition only for a complete rewrite. */
  method DecidePlacement(f: DentryPriv, q: UnifiedData, n: nat, maxSize: nat, matches: bool, deleted: bool)
    requires Linked(f, q) && LeadOf(f) == Lead(0, 0, 0)
    modifies f`writeIp, f`requests, f`inWorkingSet, f`inDpQueue, f`inIpQueue, f`extents, f`inExtQueue, q
    ensures Linked(f, q) && LeadOf(f) == Lead(0, 0, 0) && Others(f, q) == old(Others(f, q))
    ensures var g := old(FileOf(f));
      FileOf(f) == if !g.writeIp && maxSize > 0 && n == 0 && matches && !deleted then g.(writeIp := true)
                   else if g.writeIp && (n > maxSize || !matches || deleted) then Unset(g) else g
    ensures f.extents == if old(f.writeIp) && !f.writeIp then [] else old(f.extents)
  {
    if !f.writeIp && maxSize > 0 && n == 0 && matches && !deleted {
      SetWriteIp(f, q);
    } else if f.writeIp && (n > maxSize || !matches || deleted) {
      UnsetWriteIp(f, q);
    }
  }

  method CutDown(f: DentryPriv, q: UnifiedData, n: nat)
    requires Linked(f, q) && LeadOf(f) == Lead(0, 0, 0)
    modifies f`requests, f`fileSize, f`inWorkingSet, f`inDpQueue, f`inIpQueue, f`extents, q
    ensures Linked(f, q) && LeadOf(f) == Lead(0, 0, 0) && Others(f, q) == old(Others(f, q)) && f.fileSize == n
    ensures f.requests == Truncated(old(f.requests), old(f.fileSize), n)
    ensures f.extents == if n < old(f.fileSize) then TrimTo(old(f.extents), n) else old(f.extents)
  {
    if n < f.fileSize {
      TrimRequests(f, q, n);
      TrimExtents(f, n);
    }
    f.fileSize := n;
  }

  lemma CutNoIP(l: seq<Request>, size: nat, n: nat, drop: bool)
    requires drop || NoIP(l)
    ensures NoIP(CutList(l, size, n, drop))
  {
    if drop {
      DropIPLeavesNone(Truncated(l, size, n));
    } else {
      TrimNoIP(l, n);
    }
  }

  lemma TruncateLemmas(l: seq<Request>, tape: seq<byte>, size: nat, n: nat, c: nat, drop: bool)
    requires Sized(l, c)
    ensures Sized(CutList(l, size, n, drop), c) && (drop || NoIP(l) ==> NoIP(CutList(l, size, n, drop)))
    ensures Reaches(CutList(l, size, n, drop), Resize(tape, n), n) <==> CutsRight(l, size, n, drop)
    ensures Reaches(l, tape, size) ==>
      (Reaches(CutList(l, size, n, drop), Resize(tape, n), n) <==> n >= size || StopsInTime(l, n, drop))
  {
    TrimSized(l, n, c);
    if drop || NoIP(l) {
      CutNoIP(l, size, n, drop);
    }
    DropIPSized(Truncated(l, size, n), c);
    CutReaches(l, size, tape, n, drop);
    if Reaches(l, tape, size) {
      SizeRightAfterTruncation(l, tape, size, n, c, drop);
    }
  }

  /** The alternate extents after unified_truncate. */
  function CutExtents(l: seq<Extent>, size: nat, n: nat, drop: bool): seq<Extent> {
    if drop then [] else if n < size then TrimTo(l, n) else l
  }

  /** What a truncation does before the tape file is cut. */
  method CutAndPlace(f: DentryPriv, q: UnifiedData, n: nat, maxSize: nat, matches: bool, deleted: bool)
    requires Linked(f, q) && LeadOf(f) == Lead(0, 0, 0)
    modifies f`requests, f`fileSize, f`writeIp, f`inWorkingSet, f`inDpQueue, f`inIpQueue, f`extents, f`inExtQueue, q
    ensures Linked(f, q) && LeadOf(f) == Lead(0, 0, 0) && Others(f, q) == old(Others(f, q)) && f.fileSize == n
    ensures f.extents == CutExtents(old(f.extents), old(f.fileSize), n, old(f.writeIp) && !f.writeIp)
    ensures old(f.writeIp) && !f.writeIp <==> old(f.writeIp) && (n > maxSize || !matches || deleted)
    ensures f.requests == CutList(old(f.requests), old(f.fileSize), n, old(f.writeIp) && !f.writeIp)
    ensures File(f.requests, Resize(f.tape, n), f.writeIp)
         == TruncatingAt(old(FileOf(f)), old(f.fileSize), Volume(q.cacheSize, maxSize), n, matches, deleted)
  {
    CutDown(f, q, n);
    DecidePlacement(f, q, f.fileSize, maxSize, matches, deleted);
  }

  /**
   unified_truncate, on any list. file_size becomes `n`, which is right afterwards exactly when the
   loop over the requests does not stop too early.
   */
  method TruncateHere(f: DentryPriv, q: UnifiedData, n: nat, maxSize: nat, matches: bool, deleted: bool)
    requires Tallied(f, q)
    modifies f`requests, f`fileSize, f`tape, f`writeIp, f`inWorkingSet, f`inDpQueue, f`inIpQueue
    modifies f`extents, f`inExtQueue, q
    ensures Tallied(f, q) && Others(f, q) == old(Others(f, q)) && f.fileSize == n && (old(InPlace(f)) ==> InPlace(f))
    ensures FileOf(f)
         == TruncatingAt(old(FileOf(f)), old(f.fileSize), Volume(q.cacheSize, maxSize), n, matches, deleted)
    ensures f.writeIp <==> n <= maxSize && matches && !deleted && (old(f.writeIp) || (maxSize > 0 && n == 0))
    ensures f.extents == CutExtents(old(f.extents), old(f.fileSize), n, old(f.writeIp) && !f.writeIp)
    ensures var drop := old(f.writeIp) && !f.writeIp;
      && (SizeRight(f) <==> CutsRight(old(f.requests), old(f.fileSize), n, drop))
      && (old(SizeRight(f)) ==> (SizeRight(f) <==> n >= old(f.fileSize) || StopsInTime(old(f.requests), n, drop)))
  {
    ghost var l, tape, size := f.requests, f.tape, f.fileSize;
    ghost var drop := f.writeIp && (n > maxSize || !matches || deleted);
    TruncateLemmas(l, tape, size, n, q.cacheSize, drop);
    CutAndPlace(f, q, n, maxSize, matches, deleted);
    f.tape := Resize(f.tape, n);
    assert SizeRight(f) == Reaches(CutList(l, size, n, drop), Resize(tape, n), n);
  }

  /** unified_update_data_placement, and the placement check of unified_write. */
  method PlaceHere(f: DentryPriv, q: UnifiedData, maxSize: nat, matches: bool, deleted: bool)
    requires Tallied(f, q)
    modifies f`writeIp, f`requests, f`inWorkingSet, f`inDpQueue, f`inIpQueue, f`extents, f`inExtQueue, q
    ensures f.extents == if old(f.writeIp) && !f.writeIp then [] else old(f.extents)
    ensures Tallied(f, q) && Others(f, q) == old(Others(f, q)) && (old(SizeRight(f)) ==> SizeRight(f))
    ensures old(InPlace(f)) ==> InPlace(f)
    ensures f.writeIp <==> f.fileSize <= maxSize && matches && !deleted && (old(f.writeIp) || maxSize > 0)
    ensures FileOf(f) == PlacingAt(old(FileOf(f)), f.fileSize, Volume(q.cacheSize, maxSize), matches, deleted)
  {
    DropIPSized(f.requests, q.cacheSize);
    DropIPLeavesNone(f.requests);
    DropIPReaches(f.requests, f.tape, f.fileSize);
    if !f.writeIp && maxSize > 0 && f.fileSize <= maxSize && matches && !deleted {
      SetWriteIp(f, q);
    } else if f.writeIp && (f.fileSize > maxSize || !matches || deleted) {
      UnsetWriteIp(f, q);
    }
  }
}
