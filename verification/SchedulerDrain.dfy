/**
 Draining in place (src/iosched/unified.c: _unified_flush_unlocked, the part of
 _unified_process_data_queue and _unified_process_index_queue that deals with one file,
 _unified_handle_write_error and unified_close). Tape writes can fail: `budget` is the number that will
 succeed.
 */
module SchedulerDrain {
  import opened Bytes
  import opened Requests
  import opened RequestOps
  import opened UnifiedDrain
  import opened UnifiedSweep
  import opened WriteErrors
  import opened Counts
  import opened FileRun
  import opened AltExtents
  import opened IndexPass
  import opened SweepCounts
  import opened SchedulerState
  import opened SchedulerExtents
  import opened SchedulerRequests
  import opened SchedulerWrite
  import opened SchedulerPlace

  // ---- Write errors ----

  lemma KeptShape(l: seq<Request>, clearDp: bool, clearIp: bool, tape: seq<byte>, c: nat)
    requires Sized(l, c)
    ensures Sized(Kept(l, clearDp, clearIp), c)
    ensures IPInside(l, tape) ==> IPInside(Kept(l, clearDp, clearIp), tape)
  {
    var m := Kept(l, clearDp, clearIp);
    forall j | 0 <= j < |m| ensures m[j] in l {
      KeptMember(l, clearDp, clearIp, m[j]);
    }
  }

  lemma {:induction false} KeptCount(l: seq<Request>, clearDp: bool, clearIp: bool, s: State)
    ensures Count(Kept(l, clearDp, clearIp), s) == if (if s == IP then clearIp else clearDp) then 0 else Count(l, s)
  {
    if l != [] {
      KeptCount(l[1..], clearDp, clearIp, s);
      var rest := Kept(l[1..], clearDp, clearIp);
      if Gone(l[0], clearDp, clearIp) {
        assert Kept(l, clearDp, clearIp) == rest;
      } else {
        assert Kept(l, clearDp, clearIp) == [l[0]] + rest;
        CountCons(l[0], rest, s);
      }
    }
  }

  lemma KeptNext(l: seq<Request>, i: nat, clearDp: bool, clearIp: bool)
    requires i < |l|
    ensures
      if Gone(l[i], clearDp, clearIp) then
        Remove(l, i)[..i] == l[..i] && Kept(Remove(l, i)[i..], clearDp, clearIp) == Kept(l[i..], clearDp, clearIp)
      else l[..i + 1] + Kept(l[i + 1..], clearDp, clearIp) == l[..i] + Kept(l[i..], clearDp, clearIp)
  {
    assert l[i..][1..] == l[i + 1..];
    if Gone(l[i], clearDp, clearIp) {
      assert Remove(l, i)[i..] == l[i + 1..];
    } else {
      assert l[..i + 1] == l[..i] + [l[i]];
    }
  }

  lemma SizePrefix(l: seq<Request>, i: nat, tape: seq<byte>)
    requires i < |l|
    ensures Size(l[..i + 1], tape) == Max(Size(l[..i], tape), l[i].End())
  {
    assert l[..i + 1] == InsertAt(l[..i], i, l[i]);
    SizeInsert(l[..i], i, l[i], tape);
  }

  /** The last loop of the error handler: requests go, or count towards the size. */
  method ClearRequests(f: DentryPriv, clearDp: bool, clearIp: bool)
    requires f.fileSize == |f.tape|
    modifies f`requests, f`fileSize
    ensures f.requests == Kept(old(f.requests), clearDp, clearIp)
    ensures f.fileSize == Size(f.requests, f.tape)
  {
    var i := 0;
    while i < |f.requests|
      invariant i <= |f.requests| && f.fileSize == Size(f.requests[..i], f.tape)
      invariant f.requests[..i] + Kept(f.requests[i..], clearDp, clearIp) == Kept(old(f.requests), clearDp, clearIp)
      decreases |f.requests| - i
    {
      KeptNext(f.requests, i, clearDp, clearIp);
      SizePrefix(f.requests, i, f.tape);
      var r := f.requests[i];
      if Gone(r, clearDp, clearIp) {
        f.requests := Remove(f.requests, i);
      } else {
        if r.End() > f.fileSize {
          f.fileSize := r.End();
        }
        i := i + 1;
      }
    }
    assert f.requests[..i] == f.requests;
  }

  /** A counter is right, or its requests are about to be cleared. */
  ghost predicate Clearable(f: DentryPriv, clearDp: bool, clearIp: bool)
    reads f`requests, f`inWorkingSet, f`inDpQueue, f`inIpQueue
  {
    && (clearDp || (LeadOf(f).ws == 0 && LeadOf(f).dp == 0))
    && (clearIp || LeadOf(f).ip == 0)
    && (f.requests == [] ==> LeadOf(f) == Lead(0, 0, 0))
  }

  method ClearCounters(f: DentryPriv, q: UnifiedData, clearDp: bool, clearIp: bool)
    requires Linked(f, q)
    modifies f`inWorkingSet, f`inDpQueue, f`inIpQueue, q
    ensures Linked(f, q) && Others(f, q) == old(Others(f, q))
    ensures f.inWorkingSet == (if clearDp then 0 else old(f.inWorkingSet))
    ensures f.inDpQueue == (if clearDp then 0 else old(f.inDpQueue))
    ensures f.inIpQueue == (if clearIp then 0 else old(f.inIpQueue))
  {
    if clearDp {
      UpdateQueueMembership(f, q, false, true, DP);
      UpdateQueueMembership(f, q, false, true, Partial);
    }
    if clearIp {
      UpdateQueueMembership(f, q, false, true, IP);
    }
  }

  /** The first error is kept until it is asked for; a value of zero is none. */
  method KeepError(f: DentryPriv, failedIp: bool, code: Code)
    modifies f`writeError
    ensures f.writeError == (old(f.writeError) || KeepsError(failedIp, code))
  {
    if !(failedIp && code == Full) {
      if !f.writeError {
        f.writeError := code != Zero;
      }
    }
  }

  /**
   _unified_handle_write_error: an error is kept for the caller if the value given is one, unless the
   index partition is merely full; hopeless requests are cleared; and the file's size and counters are
   right again.
   */
  method HandleWriteError(f: DentryPriv, q: UnifiedData, failedIp: bool, code: Code, otherReadonly: bool)
    requires Linked(f, q) && q.cacheSize >= 1 && Sized(f.requests, q.cacheSize)
    requires Clearable(f, ClearsDp(failedIp, code, otherReadonly), ClearsIp(failedIp, code, otherReadonly))
    modifies f`requests, f`fileSize, f`writeError, f`inWorkingSet, f`inDpQueue, f`inIpQueue, q
    ensures Tallied(f, q) && Others(f, q) == old(Others(f, q))
    ensures f.fileSize == Size(f.requests, f.tape) && (old(IPInside(f.requests, f.tape)) ==> SizeRight(f))
    ensures f.requests
         == Kept(old(f.requests), ClearsDp(failedIp, code, otherReadonly), ClearsIp(failedIp, code, otherReadonly))
    ensures f.writeError == (old(f.writeError) || KeepsError(failedIp, code))
  {
    KeepError(f, failedIp, code);
    f.fileSize := |f.tape|;
    ClearAny(f, q, ClearsDp(failedIp, code, otherReadonly), ClearsIp(failedIp, code, otherReadonly));
  }

  method ClearAny(f: DentryPriv, q: UnifiedData, clearDp: bool, clearIp: bool)
    requires Linked(f, q) && q.cacheSize >= 1 && Sized(f.requests, q.cacheSize)
    requires Clearable(f, clearDp, clearIp) && f.fileSize == |f.tape|
    modifies f`requests, f`fileSize, f`inWorkingSet, f`inDpQueue, f`inIpQueue, q
    ensures Tallied(f, q) && Others(f, q) == old(Others(f, q))
    ensures f.fileSize == Size(f.requests, f.tape) && (old(IPInside(f.requests, f.tape)) ==> SizeRight(f))
    ensures f.requests == Kept(old(f.requests), clearDp, clearIp)
  {
    KeptShape(f.requests, clearDp, clearIp, f.tape, q.cacheSize);
    if |f.requests| > 0 {
      ClearBoth(f, q, clearDp, clearIp);
    }
  }

  lemma KeptCounts(l: seq<Request>, clearDp: bool, clearIp: bool)
    ensures var m := Kept(l, clearDp, clearIp);
      && Count(m, Partial) == (if clearDp then 0 else Count(l, Partial))
      && Count(m, DP) == (if clearDp then 0 else Count(l, DP))
      && Count(m, IP) == (if clearIp then 0 else Count(l, IP))
  {
    KeptCount(l, clearDp, clearIp, Partial);
    KeptCount(l, clearDp, clearIp, DP);
    KeptCount(l, clearDp, clearIp, IP);
  }

  /** The counters become those of the requests that will be left. */
  method CountKept(f: DentryPriv, q: UnifiedData, clearDp: bool, clearIp: bool)
    requires Linked(f, q) && Clearable(f, clearDp, clearIp)
    modifies f`inWorkingSet, f`inDpQueue, f`inIpQueue, q
    ensures Linked(f, q) && Others(f, q) == old(Others(f, q))
    ensures var m := Kept(f.requests, clearDp, clearIp);
      f.inWorkingSet == Count(m, Partial) && f.inDpQueue == Count(m, DP) && f.inIpQueue == Count(m, IP)
  {
    KeptCounts(f.requests, clearDp, clearIp);
    ClearCounters(f, q, clearDp, clearIp);
  }

  method ClearBoth(f: DentryPriv, q: UnifiedData, clearDp: bool, clearIp: bool)
    requires Linked(f, q) && Clearable(f, clearDp, clearIp) && f.fileSize == |f.tape|
    modifies f`requests, f`fileSize, f`inWorkingSet, f`inDpQueue, f`inIpQueue, q
    ensures Linked(f, q) && Others(f, q) == old(Others(f, q)) && LeadOf(f) == Lead(0, 0, 0)
    ensures f.requests == Kept(old(f.requests), clearDp, clearIp) && f.fileSize == Size(f.requests, f.tape)
  {
    CountKept(f, q, clearDp, clearIp);
    ClearRequests(f, clearDp, clearIp);
  }

  // ---- One file's requests on their way to tape ----

  /**
   While a file is drained: it is out of the queues being served, so those counters are zero while
   requests for them are still in the list; the others are right.
   */
  ghost predicate Draining(f: DentryPriv, q: UnifiedData, all: bool)
    reads f, q
  {
    && q.cacheSize >= 1 && Linked(f, q) && Sized(f.requests, q.cacheSize)
    && f.inDpQueue == 0 && f.inWorkingSet == (if all then 0 else Count(f.requests, Partial))
    && f.inIpQueue == Count(f.requests, IP)
  }

  /** What may be known of a file when its draining starts: that its size is right, that it is in order, or in place. */
  datatype Known = Known(right: bool, good: bool, placed: bool)

  /** What was known at the start still holds, counting the detached requests. */
  ghost predicate Holding(l: seq<Request>, local: seq<Request>, tape: seq<byte>, size: nat, writeIp: bool,
    c: nat, k: Known) {
    && (k.right ==> IPInside(l, tape) && size == Size(l + local, tape))
    && (k.good ==> UnifiedSweep.Ready(l, tape, local, writeIp, c))
    && (k.placed ==> writeIp || NoIP(l))
  }

  ghost predicate InOrder(f: DentryPriv, c: nat)
    reads f`requests, f`tape, f`writeIp
  {
    Good(FileOf(f), Volume(c, 0))
  }

  lemma HoldingAtStart(f: DentryPriv, c: nat)
    ensures Holding(f.requests, [], f.tape, f.fileSize, f.writeIp, c, Known(SizeRight(f), InOrder(f, c), InPlace(f)))
  {
    assert f.requests + [] == f.requests;
    if InOrder(f, c) {
      DisjointClear(f.requests);
    }
  }

  function MergedBackSize(l: seq<Request>, i: nat, c: nat, size: nat): nat
    requires i < |l|
  {
    if i == 0 then size else MergedSize(l, i - 1, i, c, size)
  }

  lemma MergeBackReaches(l: seq<Request>, i: nat, c: nat, local: seq<Request>, tape: seq<byte>, size: nat)
    requires i < |l| && Sized(l, c) && IPInside(l, tape) && size == Size(l + local, tape)
    ensures var m := MergeBack(l, i, c).list;
      IPInside(m, tape) && MergedBackSize(l, i, c, size) == size == Size(m + local, tape)
  {
    SizeConcat(l, local, tape);
    if i > 0 {
      MergeReaches(l, i - 1, i, c, tape, Size(l, tape));
      SizeConcat(MergeBack(l, i, c).list, local, tape);
      SizeBound(l, tape);
    }
  }

  lemma MergeHolds(l: seq<Request>, i: nat, local: seq<Request>, tape: seq<byte>, size: nat, writeIp: bool,
    c: nat, k: Known)
    requires i < |l| && Sized(l, c) && l[i].state == IP && Holding(l, local, tape, size, writeIp, c, k)
    ensures Holding(MergeBack(l, i, c).list, local, tape, MergedBackSize(l, i, c, size), writeIp, c, k)
  {
    if k.right {
      MergeBackReaches(l, i, c, local, tape, size);
    }
    if k.good {
      KeepReady(l, i, tape, c);
    }
  }

  /** A request is merged into its predecessor, if it has one. */
  method MergeBackHere(f: DentryPriv, q: UnifiedData, i: nat) returns (next: nat)
    requires Linked(f, q) && Sized(f.requests, q.cacheSize)
    requires i < |f.requests| && f.requests[i].state == IP && Ahead(f, IP)
    modifies f`requests, f`fileSize, f`inWorkingSet, f`inDpQueue, f`inIpQueue, q
    ensures Linked(f, q) && Others(f, q) == old(Others(f, q)) && LeadOf(f) == old(LeadOf(f))
    ensures var m := MergeBack(old(f.requests), i, q.cacheSize);
      f.requests == m.list && next == if m.result == 2 then i else i + 1
    ensures f.fileSize == MergedBackSize(old(f.requests), i, q.cacheSize, old(f.fileSize))
  {
    var result := MergeRequests(f, q, i - 1, i);
    next := if result == 2 then i else i + 1;
  }

  /** An index-partition request is merged into its predecessor; `next` is where the loop goes on. */
  method MergeHere(f: DentryPriv, q: UnifiedData, i: nat, all: bool, ghost local: seq<Request>, ghost k: Known)
    returns (next: nat)
    requires Draining(f, q, all) && Holding(f.requests, local, f.tape, f.fileSize, f.writeIp, q.cacheSize, k)
    requires i < |f.requests| && f.requests[i].state == IP
    modifies f`requests, f`fileSize, f`inWorkingSet, f`inDpQueue, f`inIpQueue, q
    ensures Draining(f, q, all) && Holding(f.requests, local, f.tape, f.fileSize, f.writeIp, q.cacheSize, k)
    ensures Others(f, q) == old(Others(f, q))
    ensures var m := MergeBack(old(f.requests), i, q.cacheSize);
      f.requests == m.list && next == if m.result == 2 then i else i + 1
  {
    MergeHolds(f.requests, i, local, f.tape, f.fileSize, f.writeIp, q.cacheSize, k);
    MergeBackSized(f.requests, i, q.cacheSize);
    MergeBackCount(f.requests, i, q.cacheSize, Partial);
    MergeBackCount(f.requests, i, q.cacheSize, DP);
    next := MergeBackHere(f, q, i);
  }

  lemma StoreReaches(l: seq<Request>, i: nat, tape: seq<byte>, size: nat, c: nat)
    requires i < |l| && Sized(l, c)
    ensures Reaches(l, tape, size) ==> Reaches(ToIP(l, i), Overlay(tape, l[i].offset, l[i].data), size)
  {
    StoreSize(l, i, tape);
  }

  lemma StoreHolds(l: seq<Request>, i: nat, tape: seq<byte>, size: nat, c: nat, k: Known)
    requires i < |l| && Sized(l, c) && Holding(l, [], tape, size, true, c, k)
    ensures Holding(ToIP(l, i), [], Overlay(tape, l[i].offset, l[i].data), size, true, c, k)
  {
    assert l + [] == l && ToIP(l, i) + [] == ToIP(l, i);
    StoreReaches(l, i, tape, size, c);
    if k.good {
      StoreReady(l, i, tape, c);
    }
  }

  /** A request on its way to the index partition: on tape already, it stays in the list. */
  method StoreHere(f: DentryPriv, q: UnifiedData, i: nat, all: bool, ghost k: Known)
    requires Draining(f, q, all) && Holding(f.requests, [], f.tape, f.fileSize, true, q.cacheSize, k) && f.writeIp
    requires i < |f.requests| && Selected(f.requests[i], all)
    modifies f`requests, f`tape, f`inWorkingSet, f`inDpQueue, f`inIpQueue, q
    ensures Draining(f, q, all) && Holding(f.requests, [], f.tape, f.fileSize, true, q.cacheSize, k)
    ensures Others(f, q) == old(Others(f, q))
    ensures var r := old(f.requests)[i];
      f.requests == ToIP(old(f.requests), i) && f.tape == Overlay(old(f.tape), r.offset, r.data)
  {
    var r := f.requests[i];
    StoreHolds(f.requests, i, f.tape, f.fileSize, q.cacheSize, k);
    CountSet(f.requests, i, r.(state := IP), Partial);
    CountSet(f.requests, i, r.(state := IP), IP);
    f.tape := Overlay(f.tape, r.offset, r.data);
    f.requests := ToIP(f.requests, i);
    UpdateQueueMembership(f, q, true, false, IP);
  }

  lemma SentReaches(l: seq<Request>, i: nat, tape: seq<byte>, size: nat, c: nat, m: seq<Request>, s: seq<byte>)
    requires i < |l| && Sized(l, c)
    requires m == Remove(l, i) && s == Overlay(tape, l[i].offset, l[i].data)
    ensures Reaches(l, tape, size) ==> Reaches(m, s, size)
  {
    StoreReaches(l, i, tape, size, c);
    RemoveIPReaches(ToIP(l, i), i, s, size);
    assert Remove(ToIP(l, i), i) == m;
  }

  lemma SentHolds(l: seq<Request>, i: nat, tape: seq<byte>, size: nat, c: nat, k: Known, m: seq<Request>, s: seq<byte>)
    requires i < |l| && Sized(l, c) && Holding(l, [], tape, size, false, c, k)
    requires m == Remove(l, i) && s == Overlay(tape, l[i].offset, l[i].data)
    ensures Sized(m, c) && Holding(m, [], s, size, false, c, k)
  {
    assert l + [] == l && m + [] == m;
    SentReaches(l, i, tape, size, c, m, s);
    if k.good {
      RemoveWellFormed(l, i, c);
      DisjointClear(m);
    }
  }

  lemma SentCounts(l: seq<Request>, i: nat, all: bool, m: seq<Request>)
    requires i < |l| && Selected(l[i], all) && m == Remove(l, i)
    ensures Count(m, IP) == Count(l, IP) && (!all ==> Count(m, Partial) == Count(l, Partial))
  {
    CountRemove(l, i, Partial);
    CountRemove(l, i, IP);
  }

  /** A request for the data partition only: written, and gone. */
  method SendHere(f: DentryPriv, q: UnifiedData, i: nat, all: bool, ghost k: Known)
    requires Draining(f, q, all) && Holding(f.requests, [], f.tape, f.fileSize, false, q.cacheSize, k) && !f.writeIp
    requires i < |f.requests| && Selected(f.requests[i], all)
    modifies f`requests, f`tape
    ensures Draining(f, q, all) && Holding(f.requests, [], f.tape, f.fileSize, false, q.cacheSize, k)
    ensures Others(f, q) == old(Others(f, q))
    ensures var r := old(f.requests)[i];
      f.requests == Remove(old(f.requests), i) && f.tape == Overlay(old(f.tape), r.offset, r.data)
  {
    var r := f.requests[i];
    ghost var m, s := Remove(f.requests, i), Overlay(f.tape, r.offset, r.data);
    SentHolds(f.requests, i, f.tape, f.fileSize, q.cacheSize, k, m, s);
    SentCounts(f.requests, i, all, m);
    f.tape := Overlay(f.tape, r.offset, r.data);
    f.requests := Remove(f.requests, i);
    assert f.requests == m && f.tape == s;
  }

  lemma {:induction false} WriteAllSnoc(local: seq<Request>, r: Request, tape: seq<byte>)
    ensures WriteAll(local + [r], tape) == Overlay(WriteAll(local, tape), r.offset, r.data)
  {
    if local == [] {
      assert local + [r] == [r] && [r][1..] == [];
    } else {
      assert (local + [r])[1..] == local[1..] + [r];
      WriteAllSnoc(local[1..], r, Overlay(tape, local[0].offset, local[0].data));
    }
  }

  /** The loop is on its way to `goal`, with `local` written and `t` the tape without it. */
  ghost predicate OnTheWay(f: DentryPriv, i: nat, t: seq<byte>, local: seq<Request>, all: bool, c: nat, goal: Swept)
    reads f`requests, f`writeIp
  {
    Sized(f.requests, c) && i <= |f.requests| && Sweep(f.requests, i, t, local, all, f.writeIp, c) == goal
  }

  /** Counters that were zeroed are right again once nothing they count is left. */
  lemma Drained0(f: DentryPriv, q: UnifiedData, all: bool)
    requires Draining(f, q, all) && NoneSelected(f.requests, |f.requests|, all)
    ensures Tallied(f, q)
  {
    CountZero(f.requests, DP);
    CountZero(f.requests, Partial);
    assert forall j :: 0 <= j < |f.requests| ==> !Selected(f.requests[j], all);
  }

  /** What a failed write to the data partition leaves of a file's requests: at most those on tape. */
  ghost predicate ShowsTape(f: DentryPriv)
    reads f
  {
    OnlyIP(f.requests) && f.fileSize == Size(f.requests, f.tape)
  }

  /** The state at the head of the loop of _unified_flush_unlocked. */
  ghost predicate Flushing(f: DentryPriv, q: UnifiedData, i: nat, t: seq<byte>, local: seq<Request>,
    goal: Swept, k: Known)
    reads f, q
  {
    && Draining(f, q, true) && Holding(f.requests, [], f.tape, f.fileSize, f.writeIp, q.cacheSize, k)
    && OnTheWay(f, i, t, local, true, q.cacheSize, goal)
    && f.tape == WriteAll(local, t) && (f.writeIp ==> local == [])
  }

  /** One request that can be written, or need not be. */
  method FlushStep(f: DentryPriv, q: UnifiedData, i: nat, ghost t: seq<byte>, ghost local: seq<Request>,
    ghost goal: Swept,
    ghost k: Known)
    returns (next: nat, ghost t': seq<byte>, ghost local': seq<Request>)
    requires Flushing(f, q, i, t, local, goal, k) && i < |f.requests|
    modifies f`requests, f`fileSize, f`tape, f`inWorkingSet, f`inDpQueue, f`inIpQueue, q
    ensures Flushing(f, q, next, t', local', goal, k) && Others(f, q) == old(Others(f, q))
    ensures |f.requests| - next == |old(f.requests)| - i - 1
  {
    t', local' := t, local;
    var r := f.requests[i];
    if r.state == IP {
      MergeBackSized(f.requests, i, q.cacheSize);
      next := MergeHere(f, q, i, true, [], k);
    } else if f.writeIp {
      StoreHere(f, q, i, true, k);
      t' := f.tape;
      MergeBackSized(f.requests, i, q.cacheSize);
      next := MergeHere(f, q, i, true, [], k);
    } else {
      SendHere(f, q, i, true, k);
      WriteAllSnoc(local, r, t);
      local' := local + [r];
      next := i;
    }
  }

  /** What is left of a file after a failed write to the data partition. */
  ghost predicate Cleared(f: DentryPriv, l: seq<Request>, e: Failure)
    reads f
  {
    && f.requests == Kept(l, true, e.cause != NoSpace || e.otherReadonly) && f.writeError && ShowsTape(f)
    && (IPAgree(l, f.tape) ==> View(f.requests, f.tape) == f.tape) && (NoIP(l) ==> f.requests == [])
  }

  lemma KeptShows(l: seq<Request>, tape: seq<byte>, e: Failure)
    ensures var m := Kept(l, true, e.cause != NoSpace || e.otherReadonly);
      OnlyIP(m) && (IPAgree(l, tape) ==> View(m, tape) == tape) && (NoIP(l) ==> m == [])
  {
    if IPAgree(l, tape) {
      FailedWriteShowsTape(l, tape, false, WriteCode(e), e.otherReadonly);
    }
    KeptOnlyIP(l, e.cause != NoSpace || e.otherReadonly);
  }

  /** The error handler after a failed write to the data partition. */
  method GiveUp(f: DentryPriv, q: UnifiedData, e: Failure)
    requires Linked(f, q) && q.cacheSize >= 1 && Sized(f.requests, q.cacheSize)
    requires Clearable(f, true, e.cause != NoSpace || e.otherReadonly)
    modifies f`requests, f`fileSize, f`writeError, f`inWorkingSet, f`inDpQueue, f`inIpQueue, q
    ensures Tallied(f, q) && Others(f, q) == old(Others(f, q))
    ensures Cleared(f, old(f.requests), e) && (old(IPInside(f.requests, f.tape)) ==> SizeRight(f))
  {
    KeptShows(f.requests, f.tape, e);
    HandleWriteError(f, q, false, WriteCode(e), e.otherReadonly);
  }

  /** A failed write to the data partition in the middle of a loop. */
  method FailHere(f: DentryPriv, q: UnifiedData, all: bool, e: Failure, ghost local: seq<Request>, ghost k: Known)
    requires Draining(f, q, all) && Holding(f.requests, local, f.tape, f.fileSize, f.writeIp, q.cacheSize, k)
    modifies f`requests, f`fileSize, f`writeError, f`inWorkingSet, f`inDpQueue, f`inIpQueue, q
    ensures Tallied(f, q) && Others(f, q) == old(Others(f, q)) && (k.right ==> SizeRight(f))
    ensures (k.placed ==> InPlace(f))
    ensures f.writeError && ShowsTape(f) && (k.good ==> View(f.requests, f.tape) == f.tape)
  {
    ghost var l := f.requests;
    assert k.good ==> IPAgree(l, f.tape);
    GiveUp(f, q, e);
    assert k.placed ==> f.writeIp || f.requests == [];
  }

  lemma FlushedAll(f: DentryPriv, q: UnifiedData, i: nat, t: seq<byte>, local: seq<Request>, goal: Swept, k: Known)
    requires Flushing(f, q, i, t, local, goal, k) && i == |f.requests| && NoneSelected(goal.l, |goal.l|, true)
    ensures Tallied(f, q) && f.requests == goal.l && f.tape == WriteAll(goal.local, goal.tape)
    ensures k.right ==> SizeRight(f)
    ensures OnlyIP(f.requests)
  {
    Drained0(f, q, true);
    assert f.requests + [] == f.requests;
    assert forall j :: 0 <= j < |f.requests| ==> !Selected(f.requests[j], true);
  }

  /** The loop of _unified_flush_unlocked, up to the end or to the first write that fails. */
  method FlushLoop(f: DentryPriv, q: UnifiedData, budget: nat, ghost goal: Swept, ghost k: Known)
    returns (i: nat, ghost t: seq<byte>, ghost local: seq<Request>)
    requires Flushing(f, q, 0, f.tape, [], goal, k)
    modifies f`requests, f`fileSize, f`tape, f`inWorkingSet, f`inDpQueue, f`inIpQueue, q
    ensures Flushing(f, q, i, t, local, goal, k) && Others(f, q) == old(Others(f, q))
    ensures i < |f.requests| ==> budget < |old(f.requests)|
  {
    t, local := f.tape, [];
    i := 0;
    var left := budget;
    while i < |f.requests| && (f.requests[i].state == IP || left > 0)
      invariant Flushing(f, q, i, t, local, goal, k) && Others(f, q) == old(Others(f, q))
      invariant left >= 0 && left - (|f.requests| - i) >= budget - |old(f.requests)|
      decreases |f.requests| - i
    {
      if f.requests[i].state != IP {
        left := left - 1;
      }
      i, t, local := FlushStep(f, q, i, t, local, goal, k);
    }
  }

  /** What follows the loop: nothing, unless a write failed. */
  method FlushEnds(f: DentryPriv, q: UnifiedData, i: nat, e: Failure,
    ghost t: seq<byte>, ghost local: seq<Request>, ghost goal: Swept, ghost k: Known) returns (failed: bool)
    requires Flushing(f, q, i, t, local, goal, k) && NoneSelected(goal.l, |goal.l|, true)
    modifies f`requests, f`fileSize, f`writeError, f`inWorkingSet, f`inDpQueue, f`inIpQueue, q
    ensures Tallied(f, q) && Others(f, q) == old(Others(f, q)) && (k.right ==> SizeRight(f))
    ensures (k.placed ==> InPlace(f))
    ensures OnlyIP(f.requests) && (failed <==> i < old(|f.requests|))
    ensures !failed ==> f.writeError == old(f.writeError)
    ensures !failed ==> f.requests == goal.l && f.tape == WriteAll(goal.local, goal.tape)
    ensures failed ==> f.writeError && ShowsTape(f) && (k.good ==> View(f.requests, f.tape) == f.tape)
  {
    failed := i < |f.requests|;
    if failed {
      FailHere(f, q, true, e, [], k);
    } else {
      FlushedAll(f, q, i, t, local, goal, k);
    }
  }

  /** The loop and what follows it. */
  method FlushTo(f: DentryPriv, q: UnifiedData, budget: nat, e: Failure, ghost goal: Swept, ghost k: Known)
    returns (failed: bool)
    requires Flushing(f, q, 0, f.tape, [], goal, k) && NoneSelected(goal.l, |goal.l|, true)
    modifies f`requests, f`fileSize, f`tape, f`writeError, f`inWorkingSet, f`inDpQueue, f`inIpQueue, q
    ensures Tallied(f, q) && Others(f, q) == old(Others(f, q)) && (k.right ==> SizeRight(f))
    ensures (k.placed ==> InPlace(f))
    ensures OnlyIP(f.requests)
    ensures !failed ==> f.writeError == old(f.writeError)
    ensures !failed ==> f.requests == goal.l && f.tape == WriteAll(goal.local, goal.tape)
    ensures failed ==> f.writeError && budget < |old(f.requests)|
    ensures failed && k.good ==> View(f.requests, f.tape) == f.tape
  {
    var i, t, local := FlushLoop(f, q, budget, goal, k);
    failed := FlushEnds(f, q, i, e, t, local, goal, k);
  }

  /** The error of an earlier write in the background is reported once. */
  method GetWriteError(f: DentryPriv) returns (error: bool)
    modifies f`writeError
    ensures error == old(f.writeError) && !f.writeError
  {
    error := f.writeError;
    f.writeError := false;
  }

  /** The flush proper: out of the queues, and the loop. */
  method FlushQueued(f: DentryPriv, q: UnifiedData, budget: nat, e: Failure) returns (failed: bool)
    requires Tallied(f, q)
    modifies f`requests, f`fileSize, f`tape, f`writeError, f`inWorkingSet, f`inDpQueue, f`inIpQueue, q
    ensures Tallied(f, q) && Others(f, q) == old(Others(f, q)) && (old(SizeRight(f)) ==> SizeRight(f))
    ensures f.writeError == (old(f.writeError) || failed) && (failed ==> budget < |old(f.requests)|)
    ensures !failed ==> FileOf(f) == Drained(old(FileOf(f)), true, q.cacheSize)
    ensures OnlyIP(f.requests) && (failed && old(InOrder(f, q.cacheSize)) ==> View(f.requests, f.tape) == f.tape)
    ensures old(InPlace(f)) ==> InPlace(f)
  {
    ghost var k := Known(SizeRight(f), InOrder(f, q.cacheSize), InPlace(f));
    ghost var goal := Sweep(f.requests, 0, f.tape, [], true, f.writeIp, q.cacheSize);
    HoldingAtStart(f, q.cacheSize);
    SweepLeaves(f.requests, 0, f.tape, [], true, f.writeIp, q.cacheSize);
    LeaveQueues(f, q, true);
    failed := FlushTo(f, q, budget, e, goal, k);
  }

  /**
   _unified_flush_unlocked. It fails at once if an earlier write failed; otherwise, if enough tape
   writes succeed, the file is what a pass over all its requests makes of it. If one fails the file of
   a list in order is exactly the tape file. Whatever happens counters, links and size are right and
   nothing is left for the data partition.
   */
  method FlushHere(f: DentryPriv, q: UnifiedData, budget: nat, e: Failure) returns (ok: bool)
    requires Tallied(f, q)
    modifies f`requests, f`fileSize, f`tape, f`writeError, f`inWorkingSet, f`inDpQueue, f`inIpQueue, q
    ensures Tallied(f, q) && Others(f, q) == old(Others(f, q)) && (old(SizeRight(f)) ==> SizeRight(f)) && !f.writeError
    ensures old(f.writeError) ==> !ok && FileOf(f) == old(FileOf(f))
    ensures !old(f.writeError) && budget >= |old(f.requests)| ==> ok
    ensures ok ==> FileOf(f) == Drained(old(FileOf(f)), true, q.cacheSize)
    ensures !old(f.writeError) ==> OnlyIP(f.requests)
    ensures !old(f.writeError) && !ok && old(InOrder(f, q.cacheSize)) ==> View(f.requests, f.tape) == f.tape
    ensures old(InPlace(f)) ==> InPlace(f)
  {
    var error := GetWriteError(f);
    if error {
      return false;
    }
    if |f.requests| == 0 {
      return true;
    }
    var failed := FlushQueued(f, q, budget, e);
    error := GetWriteError(f);
    ok := !error;
  }

  // ---- The background pass over one file ----

  /** The state at the head of the loop of _unified_process_data_queue over one file. */
  ghost predicate Passing(f: DentryPriv, q: UnifiedData, i: nat, local: seq<Request>, all: bool, goal: Swept, k: Known)
    reads f, q
  {
    && Draining(f, q, all) && Sized(local, q.cacheSize)
    && Holding(f.requests, local, f.tape, f.fileSize, f.writeIp, q.cacheSize, k)
    && OnTheWay(f, i, f.tape, local, all, q.cacheSize, goal) && (f.writeIp ==> local == [])
  }

  lemma DetachedSize(l: seq<Request>, i: nat, local: seq<Request>, tape: seq<byte>)
    requires i < |l|
    ensures Size(Remove(l, i) + (local + [l[i]]), tape) == Size(l + local, tape)
  {
    var a, b := l + local, Remove(l, i) + (local + [l[i]]);
    SizeBound(a, tape);
    SizeBound(b, tape);
    forall j | 0 <= j < |a| ensures a[j].End() <= Size(b, tape) {
      assert a[j] == b[if j < i then j else if j == i then |b| - 1 else j - 1];
    }
    forall j | 0 <= j < |b| ensures b[j].End() <= Size(a, tape) {
      assert b[j] == a[if j < i then j else if j == |b| - 1 then i else j + 1];
    }
    SizeReach(a, b, tape);
  }

  lemma DetachHolds(l: seq<Request>, i: nat, local: seq<Request>, tape: seq<byte>, size: nat, c: nat, k: Known)
    requires i < |l| && Holding(l, local, tape, size, false, c, k)
    ensures Holding(Remove(l, i), local + [l[i]], tape, size, false, c, k)
  {
    DetachedSize(l, i, local, tape);
    if k.good {
      DetachReady(l, i, tape, local, c);
    }
  }

  /** A selected request leaves the list for the private one. */
  method DetachHere(f: DentryPriv, q: UnifiedData, i: nat, local: seq<Request>, all: bool, ghost k: Known)
    returns (local': seq<Request>)
    requires Draining(f, q, all) && Sized(local, q.cacheSize) && !f.writeIp
    requires Holding(f.requests, local, f.tape, f.fileSize, false, q.cacheSize, k)
    requires i < |f.requests| && Selected(f.requests[i], all)
    modifies f`requests
    ensures Draining(f, q, all) && Sized(local', q.cacheSize) && Others(f, q) == old(Others(f, q))
    ensures Holding(f.requests, local', f.tape, f.fileSize, false, q.cacheSize, k)
    ensures f.requests == Remove(old(f.requests), i) && local' == local + [old(f.requests)[i]]
  {
    DetachHolds(f.requests, i, local, f.tape, f.fileSize, q.cacheSize, k);
    SentCounts(f.requests, i, all, Remove(f.requests, i));
    local' := local + [f.requests[i]];
    f.requests := Remove(f.requests, i);
  }

  method PassStep(f: DentryPriv, q: UnifiedData, i: nat, local: seq<Request>, all: bool, ghost goal: Swept,
    ghost k: Known)
    returns (next: nat, local': seq<Request>)
    requires Passing(f, q, i, local, all, goal, k) && i < |f.requests|
    modifies f`requests, f`fileSize, f`tape, f`inWorkingSet, f`inDpQueue, f`inIpQueue, q
    ensures Passing(f, q, next, local', all, goal, k) && Others(f, q) == old(Others(f, q))
    ensures |f.requests| - next == |old(f.requests)| - i - 1
    ensures |local'| == |local| + One(Selected(old(f.requests)[i], all) && !f.writeIp)
  {
    local' := local;
    if f.requests[i].state == IP {
      next := PassMerge(f, q, i, local, all, goal, k);
    } else if !Selected(f.requests[i], all) {
      next := i + 1;
    } else if f.writeIp {
      next := PassStore(f, q, i, all, goal, k);
    } else {
      local' := DetachHere(f, q, i, local, all, k);
      next := i;
    }
  }

  method PassMerge(f: DentryPriv, q: UnifiedData, i: nat, ghost local: seq<Request>, all: bool, ghost goal: Swept,
    ghost k: Known)
    returns (next: nat)
    requires Passing(f, q, i, local, all, goal, k) && i < |f.requests| && f.requests[i].state == IP
    modifies f`requests, f`fileSize, f`inWorkingSet, f`inDpQueue, f`inIpQueue, q
    ensures Passing(f, q, next, local, all, goal, k) && Others(f, q) == old(Others(f, q))
    ensures |f.requests| - next == |old(f.requests)| - i - 1
  {
    MergeBackSized(f.requests, i, q.cacheSize);
    next := MergeHere(f, q, i, all, local, k);
  }

  method PassStore(f: DentryPriv, q: UnifiedData, i: nat, all: bool, ghost goal: Swept, ghost k: Known)
    returns (next: nat)
    requires Passing(f, q, i, [], all, goal, k) && i < |f.requests| && Selected(f.requests[i], all) && f.writeIp
    modifies f`requests, f`fileSize, f`tape, f`inWorkingSet, f`inDpQueue, f`inIpQueue, q
    ensures Passing(f, q, next, [], all, goal, k) && Others(f, q) == old(Others(f, q))
    ensures |f.requests| - next == |old(f.requests)| - i - 1
  {
    StoreHere(f, q, i, all, k);
    MergeBackSized(f.requests, i, q.cacheSize);
    next := MergeHere(f, q, i, all, [], k);
  }

  /** The loop that takes the selected requests out, or stores them at once. */
  method PassLoop(f: DentryPriv, q: UnifiedData, all: bool, budget: nat, e: Failure, ghost k: Known)
    returns (failed: bool, local: seq<Request>, left: nat)
    requires Draining(f, q, all) && Holding(f.requests, [], f.tape, f.fileSize, f.writeIp, q.cacheSize, k)
    modifies f`requests, f`fileSize, f`tape, f`writeError, f`inWorkingSet, f`inDpQueue, f`inIpQueue, q
    ensures Others(f, q) == old(Others(f, q))
    ensures failed ==> Tallied(f, q) && f.writeError && budget < |old(f.requests)| && ShowsTape(f)
    ensures failed ==> (k.right ==> SizeRight(f)) && (k.good ==> View(f.requests, f.tape) == f.tape)
    ensures k.placed ==> InPlace(f)
    ensures !failed ==> f.writeError == old(f.writeError)
    ensures !failed ==>
      Passing(f, q, |f.requests|, local, all,
              Sweep(old(f.requests), 0, old(f.tape), [], all, f.writeIp, q.cacheSize), k)
    ensures !failed && budget >= |old(f.requests)| ==> left >= |local|
  {
    ghost var goal := Sweep(f.requests, 0, f.tape, [], all, f.writeIp, q.cacheSize);
    var i := 0;
    local, left, failed := [], budget, false;
    while i < |f.requests|
      invariant 0 <= i && Passing(f, q, i, local, all, goal, k) && Others(f, q) == old(Others(f, q))
      invariant left - |local| - (|f.requests| - i) >= budget - |old(f.requests)|
      invariant f.writeError == old(f.writeError)
      decreases |f.requests| - i
    {
      if Selected(f.requests[i], all) && f.writeIp {
        if left == 0 {
          FailHere(f, q, all, e, local, k);
          failed := true;
          return;
        }
        left := left - 1;
      }
      i, local := PassStep(f, q, i, local, all, goal, k);
    }
  }

  /** The file leaves the queues that are served. */
  method LeaveQueues(f: DentryPriv, q: UnifiedData, all: bool)
    requires Tallied(f, q)
    modifies f`inWorkingSet, f`inDpQueue, f`inIpQueue, q
    ensures Draining(f, q, all) && Others(f, q) == old(Others(f, q))
  {
    UpdateQueueMembership(f, q, false, true, if all then Partial else DP);
    if all {
      UpdateQueueMembership(f, q, false, true, DP);
    }
  }

  lemma Taken0(f: DentryPriv, q: UnifiedData, all: bool, local: seq<Request>, goal: Swept, k: Known)
    requires Passing(f, q, |f.requests|, local, all, goal, k) && NoneSelected(goal.l, |goal.l|, all)
    ensures Tallied(f, q) && goal == Swept(f.requests, f.tape, local)
  {
    Drained0(f, q, all);
  }

  /** file_size while requests of the file are detached from its list: it counts them too. */
  ghost predicate SizeWith(f: DentryPriv, local: seq<Request>)
    reads f
  {
    IPInside(f.requests, f.tape) && f.fileSize == Size(f.requests + local, f.tape)
  }

  /**
   The first part of what _unified_process_data_queue does to one file, up to where it lets go of the
   file's lock: the selected requests are detached, or stored at once. Counters and links are right
   then, and file_size counts the detached requests.
   */
  method TakeRequests(f: DentryPriv, q: UnifiedData, all: bool, budget: nat, e: Failure)
    returns (failed: bool, local: seq<Request>, left: nat)
    requires Tallied(f, q)
    modifies f`requests, f`fileSize, f`tape, f`writeError, f`inWorkingSet, f`inDpQueue, f`inIpQueue, q
    ensures Tallied(f, q) && Others(f, q) == old(Others(f, q)) && NoneSelected(f.requests, |f.requests|, all)
    ensures failed ==>
      f.writeError && budget < |old(f.requests)| && ShowsTape(f) && (old(SizeRight(f)) ==> SizeRight(f))
    ensures failed && old(InOrder(f, q.cacheSize)) ==> View(f.requests, f.tape) == f.tape
    ensures !failed ==> f.writeError == old(f.writeError) && Sized(local, q.cacheSize)
    ensures !failed ==>
      Swept(f.requests, f.tape, local) == Sweep(old(f.requests), 0, old(f.tape), [], all, f.writeIp, q.cacheSize)
    ensures !failed && old(SizeRight(f)) ==> SizeWith(f, local)
    ensures !failed && old(InOrder(f, q.cacheSize)) ==>
      UnifiedSweep.Ready(f.requests, f.tape, local, f.writeIp, q.cacheSize)
    ensures !failed && budget >= |old(f.requests)| ==> left >= |local|
    ensures old(InPlace(f)) ==> InPlace(f)
  {
    ghost var k := Known(SizeRight(f), InOrder(f, q.cacheSize), InPlace(f));
    ghost var goal := Sweep(f.requests, 0, f.tape, [], all, f.writeIp, q.cacheSize);
    HoldingAtStart(f, q.cacheSize);
    LeaveQueues(f, q, all);
    SweepLeaves(f.requests, 0, f.tape, [], all, f.writeIp, q.cacheSize);
    failed, local, left := PassLoop(f, q, all, budget, e, k);
    if !failed {
      Taken0(f, q, all, local, goal, k);
    }
  }

  /** The tape after the first `n` detached requests were written. */
  lemma WriteSome(detached: seq<Request>, n: nat, tape: seq<byte>)
    requires n < |detached|
    ensures WriteAll(detached[..n + 1], tape)
         == Overlay(WriteAll(detached[..n], tape), detached[n].offset, detached[n].data)
  {
    WriteAllSnoc(detached[..n], detached[n], tape);
    assert detached[..n + 1] == detached[..n] + [detached[n]];
  }

  lemma SendOneSize(l: seq<Request>, local: seq<Request>, tape: seq<byte>)
    requires local != [] && |local[0].data| > 0
    ensures Size(l + local[1..], Overlay(tape, local[0].offset, local[0].data)) == Size(l + local, tape)
    ensures IPInside(l, tape) ==> IPInside(l, Overlay(tape, local[0].offset, local[0].data))
  {
    assert l + [local[0]] + local[1..] == l + local;
    WriteOneSize(l, local[0], local[1..], tape);
  }

  /** The first request of the private list is written. */
  method SendOne(f: DentryPriv, local: seq<Request>)
    requires local != [] && |local[0].data| > 0
    modifies f`tape
    ensures f.tape == Overlay(old(f.tape), local[0].offset, local[0].data)
    ensures old(SizeWith(f, local)) ==> SizeWith(f, local[1..])
  {
    var r := local[0];
    SendOneSize(f.requests, local, f.tape);
    f.tape := Overlay(f.tape, r.offset, r.data);
  }

  /**
   A failed write of detached requests, the file's lock being held again: the rest of them is given up,
   and the file's requests for the data partition are cleared. If the record was given back meanwhile
   there is nothing to clear, and nowhere to keep the error.
   */
  method SendFails(f: DentryPriv, q: UnifiedData, e: Failure)
    requires Tallied(f, q)
    modifies f`requests, f`fileSize, f`writeError, f`inWorkingSet, f`inDpQueue, f`inIpQueue, q
    ensures Tallied(f, q) && Others(f, q) == old(Others(f, q))
    ensures f.freed ==> f.requests == old(f.requests) && f.writeError == old(f.writeError)
    ensures !f.freed ==> Cleared(f, old(f.requests), e) && (old(IPInside(f.requests, f.tape)) ==> SizeRight(f))
  {
    if !f.freed {
      GiveUp(f, q, e);
    }
  }

  /** The loop that sends the private list to tape, until a write fails; the requests that are left. */
  method SendLoop(f: DentryPriv, detached: seq<Request>, budget: nat, c: nat) returns (local: seq<Request>)
    requires Sized(detached, c)
    modifies f`tape
    ensures local == detached[Min(budget, |detached|)..]
    ensures f.tape == WriteAll(detached[..Min(budget, |detached|)], old(f.tape))
    ensures old(SizeWith(f, detached)) ==> SizeWith(f, local)
  {
    var left := budget;
    local := detached;
    ghost var n := 0;
    assert detached[..0] == [];
    while |local| > 0
      invariant n <= |detached| && local == detached[n..] && left == budget - n >= 0
      invariant old(SizeWith(f, detached)) ==> SizeWith(f, local)
      invariant f.tape == WriteAll(detached[..n], old(f.tape))
    {
      if left == 0 {
        return;
      }
      WriteSome(detached, n, old(f.tape));
      SendOne(f, local);
      local, left, n := local[1..], left - 1, n + 1;
    }
  }

  /** What follows the loop: nothing, unless a write failed. */
  method AfterSending(f: DentryPriv, q: UnifiedData, local: seq<Request>, e: Failure)
    requires Tallied(f, q)
    modifies f`requests, f`fileSize, f`writeError, f`inWorkingSet, f`inDpQueue, f`inIpQueue, q
    ensures Tallied(f, q) && Others(f, q) == old(Others(f, q))
    ensures local == [] || f.freed ==> f.requests == old(f.requests) && f.writeError == old(f.writeError)
    ensures local != [] && !f.freed ==> Cleared(f, old(f.requests), e)
    ensures old(SizeWith(f, local)) && (local == [] || !f.freed) ==> SizeRight(f)
    ensures old(InPlace(f)) ==> InPlace(f)
  {
    if |local| > 0 {
      SendFails(f, q, e);
    } else {
      assert f.requests + [] == f.requests;
    }
  }

  /**
   The second part: the detached requests are written, without the file's lock, so whatever keeps
   counters and links right may have happened to the file since they were detached. A failure clears
   what the file has queued by then.
   */
  method SendRequests(f: DentryPriv, q: UnifiedData, detached: seq<Request>, budget: nat, e: Failure)
    returns (failed: bool)
    requires Tallied(f, q) && Sized(detached, q.cacheSize)
    modifies f`requests, f`fileSize, f`tape, f`writeError, f`inWorkingSet, f`inDpQueue, f`inIpQueue, q
    ensures Tallied(f, q) && Others(f, q) == old(Others(f, q)) && (failed <==> budget < |detached|)
    ensures f.tape == WriteAll(detached[..Min(budget, |detached|)], old(f.tape))
    ensures !failed || f.freed ==> f.requests == old(f.requests) && f.writeError == old(f.writeError)
    ensures failed && !f.freed ==> Cleared(f, old(f.requests), e)
    ensures old(SizeWith(f, detached)) && !(failed && f.freed) ==> SizeRight(f)
    ensures old(InPlace(f)) ==> InPlace(f)
  {
    var local := SendLoop(f, detached, budget, q.cacheSize);
    failed := |local| > 0;
    AfterSending(f, q, local, e);
  }

  /**
   What _unified_process_data_queue does to one file when nothing happens to it in between. If enough
   tape writes succeed the file is what the pass makes of it; if one fails the file of a list in order
   is exactly the tape file; whatever happens counters, links and size are right afterwards.
   */
  method DrainHere(f: DentryPriv, q: UnifiedData, all: bool, budget: nat, e: Failure) returns (failed: bool)
    requires Tallied(f, q) && !f.freed
    modifies f`requests, f`fileSize, f`tape, f`writeError, f`inWorkingSet, f`inDpQueue, f`inIpQueue, q
    ensures Tallied(f, q) && Others(f, q) == old(Others(f, q)) && (old(SizeRight(f)) ==> SizeRight(f))
    ensures NoneSelected(f.requests, |f.requests|, all)
    ensures failed ==> f.writeError && budget < |old(f.requests)|
    ensures failed && old(InOrder(f, q.cacheSize)) ==> View(f.requests, f.tape) == f.tape
    ensures !failed ==> FileOf(f) == Drained(old(FileOf(f)), all, q.cacheSize) && f.writeError == old(f.writeError)
    ensures old(InPlace(f)) ==> InPlace(f)
  {
    var local, left;
    failed, local, left := TakeRequests(f, q, all, budget, e);
    if !failed {
      ReadyStaysAgreed(f.requests, f.tape, local, left, f.writeIp, q.cacheSize);
      assert local[..|local|] == local;
      failed := SendRequests(f, q, local, left, e);
    }
  }

  /** Index-partition requests agree with the tape as far as the detached ones get. */
  lemma ReadyStaysAgreed(l: seq<Request>, tape: seq<byte>, local: seq<Request>, left: nat, writeIp: bool, c: nat)
    ensures UnifiedSweep.Ready(l, tape, local, writeIp, c) ==> IPAgree(l, WriteAll(local[..Min(left, |local|)], tape))
  {
  }

  // ---- The index-partition pass over one file ----

  /** While the index-partition requests are written: out of that queue, right in the others. */
  ghost predicate Indexing(f: DentryPriv, q: UnifiedData)
    reads f, q
  {
    && q.cacheSize >= 1 && Linked(f, q) && Sized(f.requests, q.cacheSize)
    && f.inIpQueue == 0 && f.inDpQueue == Count(f.requests, DP) && f.inWorkingSet == Count(f.requests, Partial)
  }

  lemma IndexNext(l: seq<Request>, i: nat)
    requires i < |l| && l[i].state == IP
    ensures var m := Remove(l, i);
      Count(m, DP) == Count(l, DP) && Count(m, Partial) == Count(l, Partial) && Count(m, IP) + 1 == Count(l, IP)
  {
    CountRemove(l, i, DP);
    CountRemove(l, i, Partial);
    CountRemove(l, i, IP);
  }

  lemma {:induction false} DropIPConcat(a: seq<Request>, b: seq<Request>)
    ensures DropIP(a + b) == DropIP(a) + DropIP(b)
  {
    if a == [] {
      assert a + b == b;
    } else {
      assert (a + b)[1..] == a[1..] + b;
      DropIPConcat(a[1..], b);
    }
  }

  lemma {:induction false} DropIPAgain(l: seq<Request>)
    ensures DropIP(DropIP(l)) == DropIP(l)
  {
    if l != [] {
      DropIPAgain(l[1..]);
      if l[0].state != IP {
        assert DropIP(l)[1..] == DropIP(l[1..]);
      }
    }
  }

  /** The part of the list that was dealt with has no index-partition request left. */
  lemma DropIPMidway(l: seq<Request>, i: nat, goal: seq<Request>)
    requires i <= |l| && l[..i] + DropIP(l[i..]) == goal && DropIP(goal) == goal
    ensures DropIP(l) == goal
  {
    DropIPConcat(l[..i], DropIP(l[i..]));
    DropIPConcat(l[..i], l[i..]);
    DropIPAgain(l[i..]);
    assert l == l[..i] + l[i..];
  }

  /** The state at the head of the loop. */
  ghost predicate Dropping(f: DentryPriv, q: UnifiedData, i: nat, goal: seq<Request>, right: bool)
    reads f, q
  {
    && Indexing(f, q) && (right ==> SizeRight(f))
    && i <= |f.requests| && f.requests[..i] + DropIP(f.requests[i..]) == goal
  }

  /**
   A failed write to the index partition: only its requests go if it is merely full and the data
   partition can still be written, otherwise all of them.
   */
  method IndexFails(f: DentryPriv, q: UnifiedData, e: Failure, ghost i: nat, ghost goal: seq<Request>,
    ghost right: bool)
    requires Dropping(f, q, i, goal, right) && f.requests != [] && DropIP(goal) == goal
    modifies f`requests, f`fileSize, f`writeError, f`inWorkingSet, f`inDpQueue, f`inIpQueue, q
    ensures Tallied(f, q) && Others(f, q) == old(Others(f, q)) && Count(f.requests, IP) == 0
    ensures f.fileSize == Size(f.requests, f.tape) && (right ==> SizeRight(f))
    ensures f.requests == if e.cause == NoSpace && !e.otherReadonly then goal else []
    ensures f.writeError == (old(f.writeError) || KeepsError(true, IndexCode(e)))
  {
    var code := IndexCode(e);
    ghost var l := f.requests;
    KeptCount(l, ClearsDp(true, code, e.otherReadonly), ClearsIp(true, code, e.otherReadonly), IP);
    HandleWriteError(f, q, true, code, e.otherReadonly);
    if e.cause == NoSpace && !e.otherReadonly {
      KeptIsDropIP(l);
      DropIPMidway(l, i, goal);
    } else {
      KeptNone(l);
    }
  }

  /** The extents of a file and what is on the index partition. */
  ghost function IndexOf(f: DentryPriv, p: IndexPartition): Index
    reads f`extents, p
  {
    Index(f.extents, p.bytes, p.block)
  }

  /** The extents and the partition are on their way to `done`, with `left` more writes to succeed. */
  ghost predicate Storing(f: DentryPriv, p: IndexPartition, i: nat, left: nat, done: Index)
    reads f, p
  {
    p.blockSize > 0 && i <= |f.requests| && Stored(IndexOf(f, p), f.requests[i..], left, p.blockSize) == done
  }

  lemma StoringNext(x: Index, l: seq<Request>, i: nat, left: nat, bs: nat)
    requires i < |l| && bs > 0
    ensures l[i].state != IP ==> Stored(x, l[i..], left, bs) == Stored(x, l[i + 1..], left, bs)
    ensures l[i].state == IP && left == 0 ==> Stored(x, l[i..], left, bs) == x
    ensures l[i].state == IP && left > 0 ==>
      Stored(x, l[i..], left, bs) == Stored(StoreOne(x, l[i], bs), Remove(l, i)[i..], left - 1, bs)
  {
    assert l[i..][1..] == l[i + 1..] && Remove(l, i)[i..] == l[i + 1..];
  }

  /** A request is stored behind everything on the partition, and an extent says where. */
  method StoreExtent(f: DentryPriv, p: IndexPartition, r: Request)
    requires p.blockSize > 0 && |r.data| > 0
    modifies f`extents, f`inExtQueue, p
    ensures IndexOf(f, p) == StoreOne(old(IndexOf(f, p)), r, p.blockSize)
  {
    UpdateAltExtentlist(f, p.blockSize, ExtentOf(r, p.block));
    var k := BlocksFor(|r.data|, p.blockSize);
    p.bytes := p.bytes + r.data + Zeros(k * p.blockSize - |r.data|);
    p.block := p.block + k;
  }

  /** One index-partition request is written and goes. */
  method IndexOne(f: DentryPriv, q: UnifiedData, i: nat, ghost goal: seq<Request>, ghost right: bool)
    requires Dropping(f, q, i, goal, right) && i < |f.requests| && f.requests[i].state == IP
    requires q.partition.blockSize > 0
    modifies f`requests, f`extents, f`inExtQueue, q.partition
    ensures Dropping(f, q, i, goal, right) && Others(f, q) == old(Others(f, q))
    ensures f.requests == Remove(old(f.requests), i) && Count(f.requests, IP) == Count(old(f.requests), IP) - 1
    ensures IndexOf(f, q.partition) == StoreOne(old(IndexOf(f, q.partition)), old(f.requests)[i], q.partition.blockSize)
  {
    StoreExtent(f, q.partition, f.requests[i]);
    DropIPNext(f.requests, i);
    IndexNext(f.requests, i);
    RemoveIPReaches(f.requests, i, f.tape, f.fileSize);
    f.requests := Remove(f.requests, i);
  }

  ghost predicate HalfIndexed(f: DentryPriv, q: UnifiedData, i: nat, left: nat, goal: seq<Request>,
    right: bool, done: Index)
    reads f, q, q.partition
  {
    Dropping(f, q, i, goal, right) && Storing(f, q.partition, i, left, done)
  }

  /** One turn of the loop, with a write that succeeds or none. */
  method IndexTurn(f: DentryPriv, q: UnifiedData, i: nat, left: nat,
    ghost goal: seq<Request>, ghost right: bool, ghost done: Index) returns (next: nat, left': nat)
    requires HalfIndexed(f, q, i, left, goal, right, done)
    requires i < |f.requests| && (f.requests[i].state == IP ==> left > 0)
    modifies f`requests, f`extents, f`inExtQueue, q.partition
    ensures HalfIndexed(f, q, next, left', goal, right, done) && Others(f, q) == old(Others(f, q))
    ensures |f.requests| - next == |old(f.requests)| - i - 1
    ensures left' - Count(f.requests, IP) == left - Count(old(f.requests), IP)
  {
    next, left' := i, left;
    StoringNext(IndexOf(f, q.partition), f.requests, i, left, q.partition.blockSize);
    if f.requests[i].state == IP {
      IndexOne(f, q, i, goal, right);
      left' := left - 1;
    } else {
      DropIPNext(f.requests, i);
      next := i + 1;
    }
  }

  lemma DroppedAll(f: DentryPriv, q: UnifiedData, l: seq<Request>, right: bool)
    requires Dropping(f, q, |f.requests|, DropIP(l), right)
    ensures Tallied(f, q) && f.requests == DropIP(l) && Count(f.requests, IP) == 0 && (right ==> SizeRight(f))
  {
    assert f.requests[..|f.requests|] == f.requests && f.requests[|f.requests|..] == [];
    assert f.requests == DropIP(l);
    DropIPCounts(l);
    assert Count(f.requests, IP) == 0;
  }

  /** What the loop has stored when it stops, and why it stopped. */
  lemma HalfWay(f: DentryPriv, q: UnifiedData, i: nat, left: nat, goal: seq<Request>, right: bool, done: Index)
    requires HalfIndexed(f, q, i, left, goal, right, done)
    requires i < |f.requests| ==> f.requests[i].state == IP && left == 0
    ensures IndexOf(f, q.partition) == done
    ensures i < |f.requests| ==> Count(f.requests, IP) > 0
    ensures i == |f.requests| ==> Dropping(f, q, |f.requests|, goal, right)
  {
    if i < |f.requests| {
      StoringNext(IndexOf(f, q.partition), f.requests, i, left, q.partition.blockSize);
      CountSplit(f.requests, i, IP);
    } else {
      assert f.requests[i..] == [];
    }
  }

  /** The requests the pass leaves: none after an error that gives up the data partition too. */
  function IndexLeaves(l: seq<Request>, failed: bool, e: Failure): seq<Request> {
    if failed && !(e.cause == NoSpace && !e.otherReadonly) then [] else DropIP(l)
  }

  /** What follows the loop: nothing, unless a write failed. */
  method IndexEnds(f: DentryPriv, q: UnifiedData, i: nat, left: nat, e: Failure,
    ghost l: seq<Request>, ghost right: bool, ghost done: Index) returns (failed: bool)
    requires HalfIndexed(f, q, i, left, DropIP(l), right, done)
    requires i < |f.requests| ==> f.requests[i].state == IP && left == 0
    modifies f`requests, f`fileSize, f`writeError, f`inWorkingSet, f`inDpQueue, f`inIpQueue, q
    ensures Tallied(f, q) && Others(f, q) == old(Others(f, q)) && Count(f.requests, IP) == 0 && (right ==> SizeRight(f))
    ensures failed <==> left < old(Count(f.requests, IP))
    ensures f.requests == IndexLeaves(l, failed, e) && IndexOf(f, q.partition) == done
    ensures f.writeError == (old(f.writeError) || (failed && KeepsError(true, IndexCode(e))))
  {
    failed := i < |f.requests|;
    HalfWay(f, q, i, left, DropIP(l), right, done);
    if failed {
      DropIPAgain(l);
      IndexFails(f, q, e, i, DropIP(l), right);
    } else {
      DroppedAll(f, q, l, right);
    }
  }

  /** The loop that writes and drops the index-partition requests. */
  method IndexLoop(f: DentryPriv, q: UnifiedData, budget: nat, e: Failure, ghost right: bool) returns (failed: bool)
    requires Indexing(f, q) && (right ==> SizeRight(f)) && q.partition.blockSize > 0
    modifies f`requests, f`fileSize, f`writeError, f`inWorkingSet, f`inDpQueue, f`inIpQueue
    modifies f`extents, f`inExtQueue, q, q.partition
    ensures Tallied(f, q) && Others(f, q) == old(Others(f, q)) && Count(f.requests, IP) == 0 && (right ==> SizeRight(f))
    ensures failed <==> budget < Count(old(f.requests), IP)
    ensures f.requests == IndexLeaves(old(f.requests), failed, e)
    ensures f.writeError == (old(f.writeError) || (failed && KeepsError(true, IndexCode(e))))
    ensures IndexOf(f, q.partition)
         == Stored(old(IndexOf(f, q.partition)), old(f.requests), budget, q.partition.blockSize)
  {
    ghost var l := f.requests;
    ghost var done := Stored(IndexOf(f, q.partition), f.requests, budget, q.partition.blockSize);
    assert f.requests[0..] == f.requests;
    var i, left := 0, budget;
    while i < |f.requests| && !(f.requests[i].state == IP && left == 0)
      invariant 0 <= i && left >= 0 && Others(f, q) == old(Others(f, q)) && f.writeError == old(f.writeError)
      invariant HalfIndexed(f, q, i, left, DropIP(l), right, done)
      invariant left - Count(f.requests, IP) == budget - Count(l, IP)
      decreases |f.requests| - i
    {
      i, left := IndexTurn(f, q, i, left, DropIP(l), right, done);
    }
    failed := IndexEnds(f, q, i, left, e, l, right, done);
  }

  /** The file the pass leaves. */
  function IndexShows(f: File, failed: bool, e: Failure): seq<byte> {
    if failed && !(e.cause == NoSpace && !e.otherReadonly) then f.tape else View(f.l, f.tape)
  }

  lemma IndexedView(f: File, c: nat, failed: bool, e: Failure)
    ensures Good(f, Volume(c, 0)) ==> View(IndexLeaves(f.l, failed, e), f.tape) == IndexShows(f, failed, e)
  {
    assert View([], f.tape) == f.tape;
    if Good(f, Volume(c, 0)) {
      DropIPView(f.l, f.tape, c);
    }
  }

  /**
   _unified_free_dentry_priv_conditional: the record is given back if the dentry has no more handles than
   that and the record neither requests nor extents. An error that is still kept in it goes with it.
   */
  method FreeConditional(f: DentryPriv, target: nat)
    requires !f.freed
    modifies f`freed, f`handles
    ensures f.freed <==> old(f.handles) <= target && f.requests == [] && f.extents == []
    ensures f.handles == if f.freed && old(f.handles) > 0 then old(f.handles) - 1 else old(f.handles)
  {
    if f.handles <= target && |f.requests| == 0 && |f.extents| == 0 {
      f.freed := true;
      if f.handles > 0 {
        f.handles := f.handles - 1;
      }
    }
  }

  /**
   What the loop of _unified_process_index_queue does to the requests of one file. It fails exactly if a
   tape write does. Then an error is kept unless the index partition was merely full, or the error was
   permanent and the lock status could be set; and the list is empty, unless the index partition was
   merely full and the data partition can still be written. Otherwise exactly the index-partition requests
   are gone, and either way the extents find those that were stored.
   */
  method IndexRequests(f: DentryPriv, q: UnifiedData, budget: nat, e: Failure) returns (failed: bool)
    requires Tallied(f, q) && q.partition.blockSize > 0
    modifies f`requests, f`fileSize, f`writeError, f`inWorkingSet, f`inDpQueue, f`inIpQueue
    modifies f`extents, f`inExtQueue, q, q.partition
    ensures Tallied(f, q) && Others(f, q) == old(Others(f, q)) && (old(SizeRight(f)) ==> SizeRight(f))
    ensures Count(f.requests, IP) == 0 && (failed <==> budget < Count(old(f.requests), IP))
    ensures f.requests == IndexLeaves(old(f.requests), failed, e)
    ensures f.writeError ==
      (old(f.writeError) || (failed && e.cause != NoSpace && !(e.cause == Permanent && e.lockSet)))
    ensures IndexOf(f, q.partition)
         == Stored(old(IndexOf(f, q.partition)), old(f.requests), budget, q.partition.blockSize)
  {
    UpdateQueueMembership(f, q, false, true, IP);
    failed := IndexLoop(f, q, budget, e, old(SizeRight(f)));
  }

  lemma NoneCounted(l: seq<Request>)
    requires Count(l, IP) == 0
    ensures NoIP(l)
  {
    CountZero(l, IP);
  }

  /** Then the record is given back if nothing holds it. */
  method IndexAndFree(f: DentryPriv, q: UnifiedData, budget: nat, e: Failure) returns (failed: bool)
    requires Tallied(f, q) && q.partition.blockSize > 0 && !f.freed
    modifies f`requests, f`fileSize, f`writeError, f`inWorkingSet, f`inDpQueue, f`inIpQueue
    modifies f`extents, f`inExtQueue, f`freed, f`handles, q, q.partition
    ensures Tallied(f, q) && Others(f, q) == old(Others(f, q)) && (old(SizeRight(f)) ==> SizeRight(f))
    ensures Count(f.requests, IP) == 0 && (failed <==> budget < Count(old(f.requests), IP))
    ensures f.requests == IndexLeaves(old(f.requests), failed, e)
    ensures f.writeError ==
      (old(f.writeError) || (failed && e.cause != NoSpace && !(e.cause == Permanent && e.lockSet)))
    ensures f.freed <==> old(f.handles) <= 2 && f.requests == [] && f.extents == []
    ensures IndexOf(f, q.partition)
         == Stored(old(IndexOf(f, q.partition)), old(f.requests), budget, q.partition.blockSize)
  {
    failed := IndexRequests(f, q, budget, e);
    FreeConditional(f, 2);
  }

  /**
   What _unified_process_index_queue does to one file: its requests as IndexRequests says, and then the
   record is given back if nothing holds it. With it goes the error, an earlier one or the one just kept.
   */
  method IndexHere(f: DentryPriv, q: UnifiedData, budget: nat, e: Failure) returns (failed: bool)
    requires Tallied(f, q) && q.partition.blockSize > 0 && !f.freed
    modifies f`requests, f`fileSize, f`writeError, f`inWorkingSet, f`inDpQueue, f`inIpQueue
    modifies f`extents, f`inExtQueue, f`freed, f`handles, q, q.partition
    ensures Tallied(f, q) && Others(f, q) == old(Others(f, q)) && (old(SizeRight(f)) ==> SizeRight(f))
    ensures Count(f.requests, IP) == 0 && InPlace(f) && (failed <==> budget < Count(old(f.requests), IP))
    ensures f.requests == IndexLeaves(old(f.requests), failed, e)
    ensures f.writeError ==
      (old(f.writeError) || (failed && e.cause != NoSpace && !(e.cause == Permanent && e.lockSet)))
    ensures f.freed <==> old(f.handles) <= 2 && f.requests == [] && f.extents == []
    ensures IndexOf(f, q.partition)
         == Stored(old(IndexOf(f, q.partition)), old(f.requests), budget, q.partition.blockSize)
    ensures old(InOrder(f, q.cacheSize)) ==> View(f.requests, f.tape) == IndexShows(old(FileOf(f)), failed, e)
  {
    ghost var g := FileOf(f);
    failed := IndexAndFree(f, q, budget, e);
    IndexedView(g, q.cacheSize, failed, e);
    NoneCounted(f.requests);
  }

  // ---- Closing a file ----

  /** The flush of a file that is closed, if one is asked for, and the error to return. */
  method FlushAndReport(f: DentryPriv, q: UnifiedData, flush: bool, budget: nat, e: Failure) returns (error: bool)
    requires Tallied(f, q)
    modifies f`requests, f`fileSize, f`tape, f`writeError, f`inWorkingSet, f`inDpQueue, f`inIpQueue, q
    ensures Tallied(f, q) && Others(f, q) == old(Others(f, q)) && (old(SizeRight(f)) ==> SizeRight(f))
    ensures (old(InPlace(f)) ==> InPlace(f)) && !f.writeError
    ensures old(f.writeError) ==> error
    ensures !old(f.writeError) && (!flush || budget >= |old(f.requests)|) ==> !error
    ensures old(f.writeError) || !flush ==> FileOf(f) == old(FileOf(f))
    ensures flush && !error ==> FileOf(f) == Drained(old(FileOf(f)), true, q.cacheSize)
    ensures flush && error && !old(f.writeError) && old(InOrder(f, q.cacheSize)) ==> View(f.requests, f.tape) == f.tape
  {
    var ok := true;
    if flush {
      ok := FlushHere(f, q, budget, e);
    }
    var writeError := GetWriteError(f);
    error := !ok || writeError;
  }

  /**
   unified_close, when the background thread is not at the file: an error of an earlier write or of the
   flush is returned, and the record is given back with the last open handle if it holds nothing. No error
   is left in a record that is given back.
   */
  method CloseHere(f: DentryPriv, q: UnifiedData, flush: bool, budget: nat, e: Failure) returns (error: bool)
    requires Tallied(f, q) && !f.freed && f.handles > 0
    modifies f`requests, f`fileSize, f`tape, f`writeError, f`inWorkingSet, f`inDpQueue, f`inIpQueue
    modifies f`freed, f`handles, q
    ensures Tallied(f, q) && Others(f, q) == old(Others(f, q)) && (old(SizeRight(f)) ==> SizeRight(f))
    ensures (old(InPlace(f)) ==> InPlace(f)) && !f.writeError
    ensures old(f.writeError) ==> error
    ensures !old(f.writeError) && (!flush || budget >= |old(f.requests)|) ==> !error
    ensures old(f.writeError) || !flush ==> FileOf(f) == old(FileOf(f))
    ensures flush && !error ==> FileOf(f) == Drained(old(FileOf(f)), true, q.cacheSize)
    ensures flush && error && !old(f.writeError) && old(InOrder(f, q.cacheSize)) ==> View(f.requests, f.tape) == f.tape
    ensures f.freed <==> old(f.handles) <= 3 && f.requests == [] && f.extents == []
  {
    error := FlushAndReport(f, q, flush, budget, e);
    FreeConditional(f, 3);
    if f.handles > 0 {
      f.handles := f.handles - 1;
    }
  }
}
