/**
 The three primitive changes to a file's request list, in place (src/iosched/unified.c:
 _unified_insert_new_request, _unified_update_request, _unified_merge_requests). Each changes the
 list as its function in RequestOps says, and keeps the counters in step with the list.
 */
module SchedulerRequests {
  import opened Bytes
  import opened Requests
  import opened RequestOps
  import opened Counts
  import opened SchedulerState

  /** By how much each counter is ahead of the number of requests it counts. */
  datatype Lead = Lead(ws: int, dp: int, ip: int)

  ghost function LeadOf(f: DentryPriv): Lead
    reads f`requests, f`inWorkingSet, f`inDpQueue, f`inIpQueue
  {
    Lead(f.inWorkingSet - Count(f.requests, Partial), f.inDpQueue - Count(f.requests, DP),
         f.inIpQueue - Count(f.requests, IP))
  }

  method InsertNewRequest(f: DentryPriv, q: UnifiedData, i: nat, o: nat, d: seq<byte>, ipState: bool)
    requires Linked(f, q) && i <= |f.requests|
    modifies f`requests, f`fileSize, f`inWorkingSet, f`inDpQueue, f`inIpQueue, q
    ensures Linked(f, q) && Others(f, q) == old(Others(f, q)) && LeadOf(f) == old(LeadOf(f))
    ensures var r := NewRequest(o, d, q.cacheSize);
      && f.requests == InsertAt(old(f.requests), i, if ipState then r.(state := IP) else r)
      && f.fileSize == Max(old(f.fileSize), r.End())
  {
    var copy := d[..Min(|d|, q.cacheSize)];
    var r := Request(o, copy, if ipState then IP else if |copy| == q.cacheSize then DP else Partial);
    LinkRequest(f, q, i, r);
    if r.End() > f.fileSize {
      f.fileSize := r.End();
    }
  }

  method LinkRequest(f: DentryPriv, q: UnifiedData, i: nat, r: Request)
    requires Linked(f, q) && i <= |f.requests|
    modifies f`requests, f`inWorkingSet, f`inDpQueue, f`inIpQueue, q
    ensures Linked(f, q) && Others(f, q) == old(Others(f, q)) && LeadOf(f) == old(LeadOf(f))
    ensures f.requests == InsertAt(old(f.requests), i, r)
  {
    CountInsert(f.requests, i, r, Partial);
    CountInsert(f.requests, i, r, DP);
    CountInsert(f.requests, i, r, IP);
    f.requests := InsertAt(f.requests, i, r);
    UpdateQueueMembership(f, q, true, false, r.state);
  }

  method UnlinkRequest(f: DentryPriv, q: UnifiedData, i: nat)
    requires Linked(f, q) && i < |f.requests| && Ahead(f, f.requests[i].state)
    modifies f`requests, f`inWorkingSet, f`inDpQueue, f`inIpQueue, q
    ensures Linked(f, q) && Others(f, q) == old(Others(f, q)) && LeadOf(f) == old(LeadOf(f))
    ensures f.requests == Remove(old(f.requests), i)
  {
    var r := f.requests[i];
    CountSplit(f.requests, i, r.state);
    CountRemove(f.requests, i, Partial);
    CountRemove(f.requests, i, DP);
    CountRemove(f.requests, i, IP);
    f.requests := Remove(f.requests, i);
    UpdateQueueMembership(f, q, false, false, r.state);
  }

  /** The counter for a state is not behind the requests in it. */
  ghost predicate Ahead(f: DentryPriv, s: State)
    reads f`requests, f`inWorkingSet, f`inDpQueue, f`inIpQueue
  {
    match s
    case Partial => LeadOf(f).ws >= 0
    case DP => LeadOf(f).dp >= 0
    case IP => LeadOf(f).ip >= 0
  }

  /** The loop of _unified_update_request over the list once a block is full. */
  method PromoteRequests(f: DentryPriv, q: UnifiedData, o: nat)
    requires Linked(f, q) && LeadOf(f).ws >= 0
    modifies f`requests, f`inWorkingSet, f`inDpQueue, f`inIpQueue, q
    ensures Linked(f, q) && Others(f, q) == old(Others(f, q)) && LeadOf(f) == old(LeadOf(f))
    ensures f.requests == Promote(old(f.requests), o)
  {
    var j := 0;
    while j < |f.requests|
      invariant 0 <= j <= |f.requests| == |old(f.requests)|
      invariant Linked(f, q) && Others(f, q) == old(Others(f, q)) && LeadOf(f) == old(LeadOf(f))
      invariant f.requests == Promote(old(f.requests), o)[..j] + old(f.requests)[j..]
    {
      PromoteNext(f.requests, old(f.requests), o, j);
      if f.requests[j].state == Partial && f.requests[j].offset <= o {
        PromoteAt(f, q, j);
      }
      j := j + 1;
    }
  }

  lemma PromoteNext(l: seq<Request>, l0: seq<Request>, o: nat, j: nat)
    requires j < |l0| && l == Promote(l0, o)[..j] + l0[j..]
    ensures l[j] == l0[j] && l[j := PromoteOne(l[j], o)] == Promote(l0, o)[..j + 1] + l0[j + 1..]
    ensures l[j := l[j]] == l
  {
  }

  /** One partial request becomes ready for the data partition. */
  method PromoteAt(f: DentryPriv, q: UnifiedData, j: nat)
    requires Linked(f, q) && LeadOf(f).ws >= 0 && j < |f.requests| && f.requests[j].state == Partial
    modifies f`requests, f`inWorkingSet, f`inDpQueue, f`inIpQueue, q
    ensures Linked(f, q) && Others(f, q) == old(Others(f, q)) && LeadOf(f) == old(LeadOf(f))
    ensures f.requests == old(f.requests)[j := old(f.requests)[j].(state := DP)]
  {
    var r := f.requests[j].(state := DP);
    CountSplit(f.requests, j, Partial);
    CountSet(f.requests, j, r, Partial);
    CountSet(f.requests, j, r, DP);
    CountSet(f.requests, j, r, IP);
    UpdateQueueMembership(f, q, false, false, Partial);
    f.requests := f.requests[j := r];
    UpdateQueueMembership(f, q, true, false, DP);
  }

  method UpdateRequest(f: DentryPriv, q: UnifiedData, i: nat, o: nat, d: seq<byte>) returns (k: nat)
    requires Linked(f, q) && i < |f.requests| && (f.requests[i].state == Partial ==> Ahead(f, Partial))
    requires f.requests[i].offset <= o <= f.requests[i].End() <= f.requests[i].offset + q.cacheSize
    modifies f`requests, f`fileSize, f`inWorkingSet, f`inDpQueue, f`inIpQueue, q
    ensures Linked(f, q) && Others(f, q) == old(Others(f, q)) && LeadOf(f) == old(LeadOf(f))
    ensures f.requests == Update(old(f.requests), i, o, d, q.cacheSize)
    ensures k == Taken(old(f.requests)[i], o, d, q.cacheSize)
    ensures f.fileSize == if d == [] then old(f.fileSize) else Max(old(f.fileSize), f.requests[i].End())
  {
    if |d| == 0 {
      assert Patch(f.requests[i].data, o - f.requests[i].offset, []) == f.requests[i].data;
      return 0;
    }
    var r := f.requests[i];
    k := r.offset + q.cacheSize - o;
    if k > |d| {
      k := |d|;
    }
    CopyInto(f, q, i, o, d[..k]);
    r := f.requests[i];
    if r.End() > f.fileSize {
      f.fileSize := r.End();
    }
  }

  /** The copy, and the promotion if it filled the block of a partial request. */
  method CopyInto(f: DentryPriv, q: UnifiedData, i: nat, o: nat, d: seq<byte>)
    requires Linked(f, q) && i < |f.requests| && (f.requests[i].state == Partial ==> Ahead(f, Partial))
    requires f.requests[i].offset <= o <= f.requests[i].End() && o + |d| <= f.requests[i].offset + q.cacheSize
    modifies f`requests, f`inWorkingSet, f`inDpQueue, f`inIpQueue, q
    ensures Linked(f, q) && Others(f, q) == old(Others(f, q)) && LeadOf(f) == old(LeadOf(f))
    ensures var l := old(f.requests); var r := l[i].(data := Patch(l[i].data, o - l[i].offset, d));
      f.requests == if l[i].state == Partial && |r.data| == q.cacheSize then Promote(l[i := r], o) else l[i := r]
  {
    var r := f.requests[i];
    r := r.(data := Patch(r.data, o - r.offset, d));
    SetData(f, i, r);
    if r.state == Partial && |r.data| == q.cacheSize {
      PromoteRequests(f, q, o);
    }
  }

  /** New bytes in a request change no count. */
  method SetData(f: DentryPriv, i: nat, r: Request)
    requires i < |f.requests| && r.state == f.requests[i].state
    modifies f`requests
    ensures f.requests == old(f.requests)[i := r] && LeadOf(f) == old(LeadOf(f))
  {
    CountSet(f.requests, i, r, Partial);
    CountSet(f.requests, i, r, DP);
    CountSet(f.requests, i, r, IP);
    f.requests := f.requests[i := r];
  }

  /** The front of the source, or all of it, is dropped. */
  method CutRequest(f: DentryPriv, q: UnifiedData, i: nat, g: nat) returns (result: int)
    requires Linked(f, q) && i < |f.requests| && Ahead(f, f.requests[i].state)
    modifies f`requests, f`inWorkingSet, f`inDpQueue, f`inIpQueue, q
    ensures Linked(f, q) && Others(f, q) == old(Others(f, q)) && LeadOf(f) == old(LeadOf(f))
    ensures Merge(f.requests, result) == CutFront(old(f.requests), i, g)
  {
    var src := f.requests[i];
    if g == 0 {
      return 0;
    }
    if g < |src.data| {
      if src.state == DP {
        UnlinkState(f, q, i, Request(src.offset + g, src.data[g..], Partial));
      } else {
        SetData(f, i, Request(src.offset + g, src.data[g..], src.state));
      }
      return 1;
    }
    UnlinkRequest(f, q, i);
    return 2;
  }

  /** A request that was full has lost bytes and is partial again. */
  method UnlinkState(f: DentryPriv, q: UnifiedData, i: nat, r: Request)
    requires Linked(f, q) && i < |f.requests| && f.requests[i].state == DP && r.state == Partial && Ahead(f, DP)
    modifies f`requests, f`inWorkingSet, f`inDpQueue, f`inIpQueue, q
    ensures Linked(f, q) && Others(f, q) == old(Others(f, q)) && LeadOf(f) == old(LeadOf(f))
    ensures f.requests == old(f.requests)[i := r]
  {
    CountSplit(f.requests, i, DP);
    CountSet(f.requests, i, r, Partial);
    CountSet(f.requests, i, r, DP);
    CountSet(f.requests, i, r, IP);
    UpdateQueueMembership(f, q, false, false, DP);
    f.requests := f.requests[i := r];
    UpdateQueueMembership(f, q, true, false, Partial);
  }

  /** The bytes of the source that follow the destination's move into it if they may. */
  method MoveBytes(f: DentryPriv, q: UnifiedData, p: nat, i: nat) returns (k: nat)
    requires Linked(f, q) && p < i < |f.requests| && Mergeable(f, q, p, i)
    requires f.requests[i].offset <= f.requests[p].End()
    modifies f`requests, f`fileSize, f`inWorkingSet, f`inDpQueue, f`inIpQueue, q
    ensures Linked(f, q) && Others(f, q) == old(Others(f, q)) && LeadOf(f) == old(LeadOf(f))
    ensures f.requests == AfterMove(old(f.requests), p, i, q.cacheSize)
    ensures k == |Moved(old(f.requests)[p], old(f.requests)[i], q.cacheSize)|
    ensures f.fileSize == MergedSize(old(f.requests), p, i, q.cacheSize, old(f.fileSize))
  {
    var dest, src := f.requests[p], f.requests[i];
    var overlap := dest.End() - src.offset;
    MovedIs(dest, src, q.cacheSize);
    if dest.state != src.state && (dest.state == IP || src.state == IP) {
      k := 0;
    } else if |dest.data| < q.cacheSize && |src.data| > overlap {
      k := UpdateRequest(f, q, p, src.offset + overlap, src.data[overlap..]);
    } else {
      k := 0;
    }
  }

  /** How many bytes move is how many an update takes. */
  lemma MovedIs(dest: Request, src: Request, c: nat)
    requires src.offset <= dest.End() && |dest.data| <= c
    ensures var rest := src.data[Min(dest.End() - src.offset, |src.data|)..];
      |Moved(dest, src, c)| == if MayMove(dest, src, c) then Taken(dest, dest.End(), rest, c) else 0
  {
  }

  /** Two requests of a file whose counters can follow a merge. */
  ghost predicate Mergeable(f: DentryPriv, q: UnifiedData, p: nat, i: nat)
    reads f
    requires p < i < |f.requests|
  {
    && |f.requests[p].data| <= q.cacheSize
    && (if f.requests[i].state == IP then Ahead(f, IP) else Ahead(f, Partial) && Ahead(f, DP))
  }

  method MergeRequests(f: DentryPriv, q: UnifiedData, p: int, i: nat) returns (result: int)
    requires Linked(f, q) && p < i < |f.requests| && (p >= 0 ==> Mergeable(f, q, p, i))
    modifies f`requests, f`fileSize, f`inWorkingSet, f`inDpQueue, f`inIpQueue, q
    ensures Linked(f, q) && Others(f, q) == old(Others(f, q)) && LeadOf(f) == old(LeadOf(f))
    ensures f.fileSize
         == if p < 0 then old(f.fileSize) else MergedSize(old(f.requests), p, i, q.cacheSize, old(f.fileSize))
    ensures Merge(f.requests, result) ==
      if p < 0 then Merge(old(f.requests), 0) else MergeAt(old(f.requests), p, i, q.cacheSize)
  {
    if p < 0 || f.requests[i].offset > f.requests[p].End() {
      return 0;
    }
    var g := f.requests[p].End() - f.requests[i].offset;
    var k := MoveBytes(f, q, p, i);
    result := CutRequest(f, q, i, g + k);
  }
}
