/**
 unified_write in place (src/iosched/unified.c): the loop over a file's requests that WriteWalk
 describes, keeping the queue counters, the queue links and file_size right at every step.
 */
module SchedulerWrite {
  import opened Bytes
  import opened Requests
  import opened RequestOps
  import opened Counts
  import opened WriteBlocks
  import opened WriteWalk
  import opened UnifiedWrite
  import opened SchedulerState
  import opened SchedulerRequests

  /**
   What holds of every file whenever its lock is free: every counter equals the number of requests in
   its state, and the file is linked exactly where it has requests.
   */
  ghost predicate Tallied(f: DentryPriv, q: UnifiedData)
    reads f`requests, f`inWorkingSet, f`inDpQueue, f`inIpQueue, q
  {
    q.cacheSize >= 1 && Linked(f, q) && LeadOf(f) == Lead(0, 0, 0) && Sized(f.requests, q.cacheSize)
  }

  /**
   file_size is the larger of the tape file's size and the greatest request end. Every operation but
   a truncation keeps this.
   */
  ghost predicate SizeRight(f: DentryPriv)
    reads f`requests, f`tape, f`fileSize
  {
    Reaches(f.requests, f.tape, f.fileSize)
  }

  /** Where the walk is; the list it walks is the file's. */
  datatype Cursor = Cursor(i: nat, p: int, o: nat, d: seq<byte>, blocks: nat, status: Status)

  ghost function WalkAt(f: DentryPriv, w: Cursor): Walk
    reads f`requests
  {
    Walk(f.requests, w.i, w.p, w.o, w.d, w.blocks, w.status)
  }

  ghost predicate Ready(f: DentryPriv, q: UnifiedData, w: Cursor)
    reads f, q
  {
    Tallied(f, q) && Sane(WalkAt(f, w), q.cacheSize) && w.status == Running
  }

  method InsertHere(f: DentryPriv, q: UnifiedData, w: Cursor) returns (v: Cursor)
    requires Ready(f, q, w) && w.i < |f.requests|
    modifies f`requests, f`fileSize, f`inWorkingSet, f`inDpQueue, f`inIpQueue, q
    ensures Tallied(f, q) && Others(f, q) == old(Others(f, q)) && (old(SizeRight(f)) ==> SizeRight(f))
    ensures WalkAt(f, v) == InsertBefore(old(WalkAt(f, w)), q.cacheSize)
  {
    v := w;
    if |w.d| > 0 && w.o < f.requests[w.i].offset {
      if w.blocks == 0 {
        v := w.(status := Stalled);
        return;
      }
      InsertReaches(f.requests, w.i, NewRequest(w.o, w.d, q.cacheSize), f.tape, f.fileSize);
      InsertNewRequest(f, q, w.i, w.o, w.d, false);
      v := w.(i := w.i + 1, p := w.i, o := w.o + |w.d|, d := [], blocks := w.blocks - 1);
    }
  }

  method MergeSettled(f: DentryPriv, q: UnifiedData, p: int, i: nat) returns (result: int)
    requires Tallied(f, q) && -1 <= p < i < |f.requests|
    modifies f`requests, f`fileSize, f`inWorkingSet, f`inDpQueue, f`inIpQueue, q
    ensures Tallied(f, q) && Others(f, q) == old(Others(f, q)) && (old(SizeRight(f)) ==> SizeRight(f))
    ensures Merge(f.requests, result) ==
      if p < 0 then Merge(old(f.requests), 0) else MergeAt(old(f.requests), p, i, q.cacheSize)
  {
    if p >= 0 {
      MergeReaches(f.requests, p, i, q.cacheSize, f.tape, f.fileSize);
      MergeKeepsSized(f.requests, p, i, q.cacheSize);
    }
    result := MergeRequests(f, q, p, i);
  }

  lemma MergeKeepsSized(l: seq<Request>, p: nat, i: nat, c: nat)
    requires p < i < |l| && Sized(l, c)
    ensures Sized(MergeAt(l, p, i, c).list, c)
  {
    MergeIsMerged(l, p, i, c);
  }

  method SettleHere(f: DentryPriv, q: UnifiedData, w: Cursor) returns (v: Cursor)
    requires Ready(f, q, w) && w.i < |f.requests|
    modifies f`requests, f`fileSize, f`inWorkingSet, f`inDpQueue, f`inIpQueue, q
    ensures Tallied(f, q) && Others(f, q) == old(Others(f, q)) && (old(SizeRight(f)) ==> SizeRight(f))
    ensures WalkAt(f, v) == Settle(old(WalkAt(f, w)), q.cacheSize)
  {
    SettleSane(WalkAt(f, w), q.cacheSize);
    var result := MergeSettled(f, q, w.p, w.i);
    v := w;
    if result == 2 {
      v := w.(blocks := w.blocks + 1);
    } else if |w.d| == 0 {
      v := w.(p := w.i, i := w.i + 1, status := if result == 0 then Finished else Running);
    }
  }

  /** The list with request `i` cut down, under the counters it had. */
  method ShrinkHere(f: DentryPriv, q: UnifiedData, i: nat, r: Request)
    requires Tallied(f, q) && i < |f.requests| && f.requests[i].state == IP && r.state == IP
    requires 1 <= |r.data| <= q.cacheSize && r.End() <= f.requests[i].End()
    modifies f`requests
    ensures Tallied(f, q) && Others(f, q) == old(Others(f, q)) && (old(SizeRight(f)) ==> SizeRight(f))
    ensures f.requests == old(f.requests)[i := r]
  {
    ShrinkIP(f.requests, i, r, f.tape, f.fileSize);
    SetData(f, i, r);
  }

  method ReplaceHere(f: DentryPriv, q: UnifiedData, w: Cursor) returns (v: Cursor)
    requires Ready(f, q, w) && w.i < |f.requests| && w.d != [] && w.o < f.requests[w.i].offset
    modifies f`requests, f`fileSize, f`inWorkingSet, f`inDpQueue, f`inIpQueue, q
    ensures Tallied(f, q) && Others(f, q) == old(Others(f, q)) && (old(SizeRight(f)) ==> SizeRight(f))
    ensures WalkAt(f, v) == Replace(old(WalkAt(f, w)), q.cacheSize)
  {
    v := InsertHere(f, q, w);
    if v.status != Stalled {
      v := SettleHere(f, q, v);
    }
  }

  /** The write ends inside an index-partition request: its front is cut off, or it is split. */
  method CarveHere(f: DentryPriv, q: UnifiedData, w: Cursor) returns (v: Cursor)
    requires Ready(f, q, w) && w.i < |f.requests| && w.d != [] && f.requests[w.i].state == IP
    requires f.requests[w.i].offset <= w.o && w.o + |w.d| < f.requests[w.i].End()
    modifies f`requests, f`fileSize, f`inWorkingSet, f`inDpQueue, f`inIpQueue, q
    ensures Tallied(f, q) && Others(f, q) == old(Others(f, q)) && (old(SizeRight(f)) ==> SizeRight(f))
    ensures WalkAt(f, v) == Carve(old(WalkAt(f, w)))
  {
    var r := f.requests[w.i];
    v := w;
    if w.o == r.offset {
      ShrinkHere(f, q, w.i, Request(r.offset + |w.d|, r.data[|w.d|..], r.state));
      return;
    }
    if w.blocks == 0 {
      v := w.(status := Stalled);
      return;
    }
    SplitHere(f, q, w.i, w.o - r.offset, w.o - r.offset + |w.d|);
    v := w.(i := w.i + 1, blocks := w.blocks - 1);
  }

  /** The bytes from `at` on go to a request of their own, and the request keeps its first `k`. */
  method SplitHere(f: DentryPriv, q: UnifiedData, i: nat, k: nat, at: nat)
    requires Tallied(f, q) && i < |f.requests| && f.requests[i].state == IP && 0 < k <= at < |f.requests[i].data|
    modifies f`requests, f`fileSize, f`inWorkingSet, f`inDpQueue, f`inIpQueue, q
    ensures Tallied(f, q) && Others(f, q) == old(Others(f, q)) && (old(SizeRight(f)) ==> SizeRight(f))
    ensures var r := old(f.requests)[i];
      f.requests == InsertAt(old(f.requests)[i := r.(data := r.data[..k])], i + 1,
                             Request(r.offset + at, r.data[at..], IP))
  {
    var r := f.requests[i];
    TailInserted(f.requests, i, at, q.cacheSize, f.tape, f.fileSize);
    InsertNewRequest(f, q, i + 1, r.offset + at, r.data[at..], true);
    ShrinkHere(f, q, i, r.(data := r.data[..k]));
    CutAfterInsert(old(f.requests), i, r.(data := r.data[..k]), Request(r.offset + at, r.data[at..], IP));
  }

  lemma CutAfterInsert(l: seq<Request>, i: nat, r: Request, tail: Request)
    requires i < |l|
    ensures InsertAt(l, i + 1, tail)[i := r] == InsertAt(l[i := r], i + 1, tail)
  {
  }

  /** The second half of a split request is a request of its own, inside the tape file. */
  lemma TailInserted(l: seq<Request>, i: nat, at: nat, c: nat, tape: seq<byte>, size: nat)
    requires i < |l| && Sized(l, c) && l[i].state == IP && at < |l[i].data|
    ensures var tail := NewRequest(l[i].offset + at, l[i].data[at..], c).(state := IP);
      && tail == Request(l[i].offset + at, l[i].data[at..], IP)
      && var m := InsertAt(l, i + 1, tail);
         m[i] == l[i] && Sized(m, c) && (Reaches(l, tape, size) ==> tail.End() <= size && Reaches(m, tape, size))
  {
    var tail := Request(l[i].offset + at, l[i].data[at..], IP);
    SizeInsert(l, i + 1, tail, tape);
    SizeBound(l, tape);
  }

  method CutIPHere(f: DentryPriv, q: UnifiedData, w: Cursor) returns (v: Cursor)
    requires Ready(f, q, w) && w.i < |f.requests| && w.d != []
    requires f.requests[w.i].state == IP && f.requests[w.i].Covers(w.o)
    modifies f`requests, f`fileSize, f`inWorkingSet, f`inDpQueue, f`inIpQueue, q
    ensures Tallied(f, q) && Others(f, q) == old(Others(f, q)) && (old(SizeRight(f)) ==> SizeRight(f))
    ensures WalkAt(f, v) == CutIP(old(WalkAt(f, w)), q.cacheSize)
  {
    var r := f.requests[w.i];
    if w.o + |w.d| < r.End() {
      v := CarveHere(f, q, w);
      if v.status != Stalled {
        v := ReplaceHere(f, q, v);
      }
    } else if w.o == r.offset {
      RemoveIPReaches(f.requests, w.i, f.tape, f.fileSize);
      UnlinkRequest(f, q, w.i);
      v := w.(blocks := w.blocks + 1);
    } else {
      ShrinkHere(f, q, w.i, r.(data := r.data[..w.o - r.offset]));
      v := w.(p := w.i, i := w.i + 1);
    }
  }

  method UpdateHere(f: DentryPriv, q: UnifiedData, w: Cursor) returns (v: Cursor)
    requires Ready(f, q, w) && w.i < |f.requests| && w.d != [] && f.requests[w.i].state != IP
    requires f.requests[w.i].offset <= w.o <= f.requests[w.i].End()
    modifies f`requests, f`fileSize, f`inWorkingSet, f`inDpQueue, f`inIpQueue, q
    ensures Tallied(f, q) && Others(f, q) == old(Others(f, q)) && (old(SizeRight(f)) ==> SizeRight(f))
    ensures f.requests == Update(old(f.requests), w.i, w.o, w.d, q.cacheSize)
    ensures var k := Taken(old(f.requests)[w.i], w.o, w.d, q.cacheSize);
      v == w.(p := w.i, i := w.i + 1, o := w.o + k, d := w.d[k..])
  {
    UpdateReaches(f.requests, w.i, w.o, w.d, q.cacheSize, f.tape, f.fileSize);
    var k := UpdateRequest(f, q, w.i, w.o, w.d);
    v := w.(p := w.i, i := w.i + 1, o := w.o + k, d := w.d[k..]);
  }

  method PlaceHere(f: DentryPriv, q: UnifiedData, w: Cursor) returns (v: Cursor)
    requires Ready(f, q, w) && w.i < |f.requests| && w.d != [] && w.o <= f.requests[w.i].End()
    modifies f`requests, f`fileSize, f`inWorkingSet, f`inDpQueue, f`inIpQueue, q
    ensures Tallied(f, q) && Others(f, q) == old(Others(f, q)) && (old(SizeRight(f)) ==> SizeRight(f))
    ensures WalkAt(f, v) == Place(old(WalkAt(f, w)), q.cacheSize)
  {
    var r := f.requests[w.i];
    if w.o < r.offset {
      v := ReplaceHere(f, q, w);
    } else if r.state != IP && (w.o < r.End() || |r.data| < q.cacheSize) {
      v := UpdateHere(f, q, w);
    } else if r.state == IP && w.o < r.End() {
      v := CutIPHere(f, q, w);
    } else {
      v := w.(p := w.i, i := w.i + 1);
    }
  }

  /** The body of the loop over the requests. */
  method StepHere(f: DentryPriv, q: UnifiedData, w: Cursor) returns (v: Cursor)
    requires Ready(f, q, w) && w.i < |f.requests|
    modifies f`requests, f`fileSize, f`inWorkingSet, f`inDpQueue, f`inIpQueue, q
    ensures Tallied(f, q) && Others(f, q) == old(Others(f, q)) && (old(SizeRight(f)) ==> SizeRight(f))
    ensures WalkAt(f, v) == Step(old(WalkAt(f, w)), q.cacheSize)
  {
    if w.o > f.requests[w.i].End() {
      v := w.(i := w.i + 1);
      return;
    }
    v := InsertHere(f, q, w);
    if v.status == Stalled {
      return;
    }
    v := VisitHere(f, q, v);
  }

  method VisitHere(f: DentryPriv, q: UnifiedData, w: Cursor) returns (v: Cursor)
    requires Ready(f, q, w) && w.i < |f.requests| && (w.d != [] ==> w.o <= f.requests[w.i].End())
    modifies f`requests, f`fileSize, f`inWorkingSet, f`inDpQueue, f`inIpQueue, q
    ensures Tallied(f, q) && Others(f, q) == old(Others(f, q)) && (old(SizeRight(f)) ==> SizeRight(f))
    ensures WalkAt(f, v) == Visit(old(WalkAt(f, w)), q.cacheSize)
  {
    SettleSane(WalkAt(f, w), q.cacheSize);
    var length := |f.requests|;
    v := SettleHere(f, q, w);
    if |w.d| > 0 && |f.requests| >= length {
      v := PlaceHere(f, q, v);
    }
  }

  /** The loop over the requests. */
  method PassHere(f: DentryPriv, q: UnifiedData, o: nat, d: seq<byte>, blocks: nat) returns (w: Cursor)
    requires Tallied(f, q)
    modifies f`requests, f`fileSize, f`inWorkingSet, f`inDpQueue, f`inIpQueue, q
    ensures Tallied(f, q) && Others(f, q) == old(Others(f, q)) && (old(SizeRight(f)) ==> SizeRight(f))
    ensures WalkAt(f, w) == Pass(Start(old(f.requests), o, d, blocks), q.cacheSize)
  {
    w := Cursor(0, -1, o, d, blocks, Running);
    while w.status == Running && w.i < |f.requests|
      invariant Tallied(f, q) && Others(f, q) == old(Others(f, q)) && (old(SizeRight(f)) ==> SizeRight(f))
      invariant Sane(WalkAt(f, w), q.cacheSize)
      invariant Pass(WalkAt(f, w), q.cacheSize) == Pass(Start(old(f.requests), o, d, blocks), q.cacheSize)
      decreases if w.status == Stalled then 0 else 1, |f.requests| - w.i
    {
      StepSane(WalkAt(f, w), q.cacheSize);
      w := StepHere(f, q, w);
    }
  }

  /** Writing at or past the end of the list: the last request grows, then a new one follows it. */
  method AppendHere(f: DentryPriv, q: UnifiedData, o: nat, d: seq<byte>, blocks: nat) returns (r: Outcome)
    requires Tallied(f, q) && d != [] && AtEnd(f.requests, o)
    modifies f`requests, f`fileSize, f`inWorkingSet, f`inDpQueue, f`inIpQueue, q
    ensures Tallied(f, q) && Others(f, q) == old(Others(f, q)) && (old(SizeRight(f)) ==> SizeRight(f))
    ensures r == Append(old(f.requests), o, d, q.cacheSize, blocks) && r.l == f.requests
  {
    var k := GrowHere(f, q, o, d);
    AppendIs(old(f.requests), o, d, q.cacheSize, blocks, f.requests, k);
    r := InsertEndHere(f, q, o + k, d[k..], blocks);
  }

  lemma AppendIs(l: seq<Request>, o: nat, d: seq<byte>, c: nat, blocks: nat, m: seq<Request>, k: nat)
    requires Sized(l, c) && AtEnd(l, o) && m == Grow(l, o, d, c) && k == Grown(l, o, d, c)
    ensures Append(l, o, d, c, blocks) == InsertEnd(m, o + k, d[k..], c, blocks)
  {
  }

  method GrowHere(f: DentryPriv, q: UnifiedData, o: nat, d: seq<byte>) returns (k: nat)
    requires Tallied(f, q) && d != [] && AtEnd(f.requests, o)
    modifies f`requests, f`fileSize, f`inWorkingSet, f`inDpQueue, f`inIpQueue, q
    ensures Tallied(f, q) && Others(f, q) == old(Others(f, q)) && (old(SizeRight(f)) ==> SizeRight(f))
    ensures f.requests == Grow(old(f.requests), o, d, q.cacheSize)
    ensures k == Grown(old(f.requests), o, d, q.cacheSize)
  {
    k := 0;
    if |f.requests| > 0 && CanGrow(f.requests, o, q.cacheSize) {
      var v := UpdateHere(f, q, Cursor(|f.requests| - 1, -1, o, d, 0, Running));
      k := v.o - o;
    }
  }

  method InsertEndHere(f: DentryPriv, q: UnifiedData, o: nat, d: seq<byte>, blocks: nat) returns (r: Outcome)
    requires Tallied(f, q)
    modifies f`requests, f`fileSize, f`inWorkingSet, f`inDpQueue, f`inIpQueue, q
    ensures Tallied(f, q) && Others(f, q) == old(Others(f, q)) && (old(SizeRight(f)) ==> SizeRight(f))
    ensures r == InsertEnd(old(f.requests), o, d, q.cacheSize, blocks) && r.l == f.requests
  {
    if |d| == 0 || blocks == 0 {
      return Outcome(f.requests, o, d, blocks);
    }
    InsertReaches(f.requests, |f.requests|, NewRequest(o, d, q.cacheSize), f.tape, f.fileSize);
    InsertNewRequest(f, q, |f.requests|, o, d, false);
    r := Outcome(f.requests, o + |d|, [], blocks - 1);
  }

  /**
   One attempt at a write: whatever the list and whatever the write, the counters and the queue links
   are right when the lock is let go, and a right file_size stays right.
   */
  method WriteHere(f: DentryPriv, q: UnifiedData, o: nat, d: seq<byte>, blocks: nat) returns (r: Outcome)
    requires Tallied(f, q)
    modifies f`requests, f`fileSize, f`inWorkingSet, f`inDpQueue, f`inIpQueue, q
    ensures Tallied(f, q) && Others(f, q) == old(Others(f, q)) && (old(SizeRight(f)) ==> SizeRight(f))
    ensures r == Attempt(old(f.requests), o, d, q.cacheSize, blocks) && r.l == f.requests
    ensures |f.requests| + r.blocks == |old(f.requests)| + blocks && (r.d != [] ==> r.blocks == 0)
  {
    AttemptBlocks(f.requests, o, d, q.cacheSize, blocks);
    r := Outcome(f.requests, o, d, blocks);
    while |r.d| > 0 && !AtEnd(f.requests, r.o)
      invariant Tallied(f, q) && Others(f, q) == old(Others(f, q)) && (old(SizeRight(f)) ==> SizeRight(f))
      invariant r.l == f.requests
      invariant Attempt(f.requests, r.o, r.d, q.cacheSize, r.blocks)
           == Attempt(old(f.requests), o, d, q.cacheSize, blocks)
      decreases |f.requests|, if AtEnd(f.requests, r.o) then 0 else 1
    {
      PassEnds(f.requests, r.o, r.d, q.cacheSize, r.blocks);
      var w := PassHere(f, q, r.o, r.d, r.blocks);
      r := Outcome(f.requests, w.o, w.d, w.blocks);
      if w.status != Running || |w.d| == 0 {
        return;
      }
    }
    if |r.d| > 0 {
      r := AppendHere(f, q, r.o, r.d, r.blocks);
    }
  }
}
