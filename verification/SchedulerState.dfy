/**
 The scheduler's state as it is changed in place (src/iosched/unified.c): the record kept for each
 file (struct dentry_priv) and the queues and counters shared by all files (struct unified_data).
 */
module SchedulerState {
  import opened Bytes
  import opened Requests
  import opened AltExtents

  class DentryPriv {
    var requests: seq<Request>
    var fileSize: nat
    var writeIp: bool
    var writeError: bool
    var inWorkingSet: nat
    var inDpQueue: nat
    var inIpQueue: nat
    /** The alternate extents, and whether the record is linked in the queue of records that have some. */
    var extents: seq<Extent>
    var inExtQueue: bool
    /** The handles to the dentry: its link, those that opened it, and this record's. */
    var handles: nat
    /** Whether the record was given back: the dentry has no record then. */
    var freed: bool
    /** The file as it is on tape, below ltfs_fsraw_read, ltfs_fsraw_write and ltfs_fsraw_truncate. */
    var tape: seq<byte>

    /** _unified_get_dentry_priv: the record of a file that has none yet. */
    constructor (tape: seq<byte>, handles: nat, matches: bool, maxSize: nat)
      ensures requests == [] && this.tape == tape && fileSize == |tape| && !writeError
      ensures inWorkingSet == inDpQueue == inIpQueue == 0
      ensures extents == [] && !inExtQueue && !freed && this.handles == handles + 1
      ensures writeIp <==> matches && maxSize > 0 && |tape| <= maxSize
    {
      requests, this.tape, writeError := [], tape, false;
      inWorkingSet, inDpQueue, inIpQueue := 0, 0, 0;
      extents, inExtQueue, freed, this.handles := [], false, false, handles + 1;
      fileSize := |tape|;
      writeIp := matches && maxSize > 0 && |tape| <= maxSize;
    }
  }

  /** What is stored on the index partition, in blocks of `blockSize` bytes, and the block written next. */
  class IndexPartition {
    const blockSize: nat
    var bytes: seq<byte>
    var block: nat

    constructor (blockSize: nat)
      requires blockSize > 0
      ensures this.blockSize == blockSize && bytes == [] && block == 0
    {
      this.blockSize, bytes, block := blockSize, [], 0;
    }
  }

  class UnifiedData {
    /** The size of a cache block. */
    const cacheSize: nat
    const partition: IndexPartition
    var workingSet: seq<DentryPriv>
    var dpQueue: seq<DentryPriv>
    var ipQueue: seq<DentryPriv>
    var wsCount: nat
    var dpCount: nat
    var ipCount: nat
    var wsRequestCount: int
    var dpRequestCount: int
    var ipRequestCount: int

    constructor (cacheSize: nat, partition: IndexPartition)
      requires cacheSize > 0
      ensures this.cacheSize == cacheSize && this.partition == partition
      ensures workingSet == [] && dpQueue == [] && ipQueue == []
      ensures wsCount == dpCount == ipCount == 0 && wsRequestCount == dpRequestCount == ipRequestCount == 0
    {
      this.cacheSize, this.partition := cacheSize, partition;
      workingSet, dpQueue, ipQueue := [], [], [];
      wsCount, dpCount, ipCount := 0, 0, 0;
      wsRequestCount, dpRequestCount, ipRequestCount := 0, 0, 0;
    }
  }

  // ---- Queues as lists of files ----

  ghost predicate Distinct(s: seq<DentryPriv>) {
    forall j, k :: 0 <= j < k < |s| ==> s[j] != s[k]
  }

  function Without(s: seq<DentryPriv>, f: DentryPriv): seq<DentryPriv> {
    if s == [] then [] else (if s[0] == f then [] else [s[0]]) + Without(s[1..], f)
  }

  lemma {:induction false} WithoutMember(s: seq<DentryPriv>, f: DentryPriv)
    ensures forall g :: g in Without(s, f) <==> g in s && g != f
  {
    if s != [] {
      WithoutMember(s[1..], f);
    }
  }

  lemma {:induction false} WithoutAbsent(s: seq<DentryPriv>, f: DentryPriv)
    requires f !in s
    ensures Without(s, f) == s && Without(s + [f], f) == s
  {
    if s == [] {
      assert Without([f], f) == [] + Without([f][1..], f);
    } else {
      assert (s + [f])[1..] == s[1..] + [f];
      WithoutAbsent(s[1..], f);
    }
  }

  lemma {:induction false} WithoutDistinct(s: seq<DentryPriv>, f: DentryPriv)
    requires Distinct(s)
    ensures Distinct(Without(s, f)) && |Without(s, f)| == |s| - One(f in s)
  {
    if s != [] {
      WithoutDistinct(s[1..], f);
      WithoutMember(s[1..], f);
      if s[0] == f {
        WithoutAbsent(s[1..], f);
      } else {
        assert forall k :: 0 < k < |s| ==> s[k] == s[1..][k - 1];
        PrependDistinct(s[0], Without(s[1..], f));
      }
    }
  }

  lemma PrependDistinct(g: DentryPriv, s: seq<DentryPriv>)
    requires Distinct(s) && g !in s
    ensures Distinct([g] + s)
  {
  }

  /** Linking a file at the end of a queue it is not in, or taking it out. */
  lemma Relinked(s: seq<DentryPriv>, f: DentryPriv)
    requires Distinct(s)
    ensures Distinct(Without(s, f)) && f !in Without(s, f) && Without(Without(s, f), f) == Without(s, f)
    ensures |Without(s, f)| == |s| - One(f in s)
    ensures f !in s ==> Distinct(s + [f]) && Without(s + [f], f) == Without(s, f)
  {
    WithoutDistinct(s, f);
    WithoutMember(s, f);
    WithoutAbsent(Without(s, f), f);
    if f !in s {
      WithoutAbsent(s, f);
    }
  }

  // ---- What every method keeps ----

  /** A queue with its length, and a file's counter for it: linked exactly when that is positive. */
  ghost predicate Links(queue: seq<DentryPriv>, count: nat, f: DentryPriv, n: nat) {
    Distinct(queue) && |queue| == count && (f in queue <==> n > 0)
  }

  ghost predicate Linked(f: DentryPriv, q: UnifiedData)
    reads f`inWorkingSet, f`inDpQueue, f`inIpQueue, q
  {
    && Links(q.workingSet, q.wsCount, f, f.inWorkingSet)
    && Links(q.dpQueue, q.dpCount, f, f.inDpQueue)
    && Links(q.ipQueue, q.ipCount, f, f.inIpQueue)
  }

  /** A file's share of the count of requests whose block is free once they are on the data partition. */
  ghost function Visible(f: DentryPriv): nat
    reads f`writeIp, f`inDpQueue
  {
    if f.writeIp then 0 else f.inDpQueue
  }

  /** The shared state but for one file's part in it. */
  datatype Share = Share(
    ws: int, dp: int, ip: int, wsQueue: seq<DentryPriv>, dpQueue: seq<DentryPriv>, ipQueue: seq<DentryPriv>)

  ghost function Others(f: DentryPriv, q: UnifiedData): Share
    reads f`writeIp, f`inWorkingSet, f`inDpQueue, f`inIpQueue, q
  {
    Share(q.wsRequestCount - f.inWorkingSet, q.dpRequestCount - Visible(f), q.ipRequestCount - f.inIpQueue,
          Without(q.workingSet, f), Without(q.dpQueue, f), Without(q.ipQueue, f))
  }

  function Counter(add: bool, all: bool, n: nat): nat {
    if add then n + 1 else if all || n == 0 then 0 else n - 1
  }

  method UpdateWorkingSet(f: DentryPriv, q: UnifiedData, add: bool, all: bool)
    requires Links(q.workingSet, q.wsCount, f, f.inWorkingSet)
    modifies f`inWorkingSet, q`workingSet, q`wsCount, q`wsRequestCount
    ensures Links(q.workingSet, q.wsCount, f, f.inWorkingSet)
    ensures Without(q.workingSet, f) == old(Without(q.workingSet, f))
    ensures q.wsRequestCount - f.inWorkingSet == old(q.wsRequestCount - f.inWorkingSet)
    ensures f.inWorkingSet == Counter(add, all, old(f.inWorkingSet))
  {
    Relinked(q.workingSet, f);
    if add {
      if f.inWorkingSet == 0 {
        q.workingSet := q.workingSet + [f];
        q.wsCount := q.wsCount + 1;
      }
      f.inWorkingSet := f.inWorkingSet + 1;
      q.wsRequestCount := q.wsRequestCount + 1;
    } else {
      if (all && f.inWorkingSet > 0) || f.inWorkingSet == 1 {
        q.workingSet := Without(q.workingSet, f);
        q.wsCount := q.wsCount - 1;
      }
      if all {
        q.wsRequestCount := q.wsRequestCount - f.inWorkingSet;
        f.inWorkingSet := 0;
      } else if f.inWorkingSet > 0 {
        q.wsRequestCount := q.wsRequestCount - 1;
        f.inWorkingSet := f.inWorkingSet - 1;
      }
    }
  }

  method UpdateDpQueue(f: DentryPriv, q: UnifiedData, add: bool, all: bool)
    requires Links(q.dpQueue, q.dpCount, f, f.inDpQueue)
    modifies f`inDpQueue, q`dpQueue, q`dpCount, q`dpRequestCount
    ensures Links(q.dpQueue, q.dpCount, f, f.inDpQueue)
    ensures Without(q.dpQueue, f) == old(Without(q.dpQueue, f))
    ensures q.dpRequestCount - Visible(f) == old(q.dpRequestCount - Visible(f))
    ensures f.inDpQueue == Counter(add, all, old(f.inDpQueue))
  {
    Relinked(q.dpQueue, f);
    if add {
      if f.inDpQueue == 0 {
        q.dpQueue := q.dpQueue + [f];
        q.dpCount := q.dpCount + 1;
      }
      if !f.writeIp {
        q.dpRequestCount := q.dpRequestCount + 1;
      }
      f.inDpQueue := f.inDpQueue + 1;
    } else {
      if (all && f.inDpQueue > 0) || f.inDpQueue == 1 {
        q.dpQueue := Without(q.dpQueue, f);
        q.dpCount := q.dpCount - 1;
      }
      if all {
        if !f.writeIp {
          q.dpRequestCount := q.dpRequestCount - f.inDpQueue;
        }
        f.inDpQueue := 0;
      } else if f.inDpQueue > 0 {
        if !f.writeIp {
          q.dpRequestCount := q.dpRequestCount - 1;
        }
        f.inDpQueue := f.inDpQueue - 1;
      }
    }
  }

  method UpdateIpQueue(f: DentryPriv, q: UnifiedData, add: bool, all: bool)
    requires Links(q.ipQueue, q.ipCount, f, f.inIpQueue)
    modifies f`inIpQueue, q`ipQueue, q`ipCount, q`ipRequestCount
    ensures Links(q.ipQueue, q.ipCount, f, f.inIpQueue)
    ensures Without(q.ipQueue, f) == old(Without(q.ipQueue, f))
    ensures q.ipRequestCount - f.inIpQueue == old(q.ipRequestCount - f.inIpQueue)
    ensures f.inIpQueue == Counter(add, all, old(f.inIpQueue))
  {
    Relinked(q.ipQueue, f);
    if add {
      if f.inIpQueue == 0 {
        q.ipQueue := q.ipQueue + [f];
        q.ipCount := q.ipCount + 1;
      }
      f.inIpQueue := f.inIpQueue + 1;
      q.ipRequestCount := q.ipRequestCount + 1;
    } else {
      if (all && f.inIpQueue > 0) || f.inIpQueue == 1 {
        q.ipQueue := Without(q.ipQueue, f);
        q.ipCount := q.ipCount - 1;
      }
      if all {
        q.ipRequestCount := q.ipRequestCount - f.inIpQueue;
        f.inIpQueue := 0;
      } else if f.inIpQueue > 0 {
        f.inIpQueue := f.inIpQueue - 1;
        q.ipRequestCount := q.ipRequestCount - 1;
      }
    }
  }

  /**
   _unified_update_queue_membership: the file's counter for the queue goes up, down or to zero, it is
   linked or taken out when the counter leaves or reaches zero, and the shared counters follow.
   */
  method UpdateQueueMembership(f: DentryPriv, q: UnifiedData, add: bool, all: bool, queue: State)
    requires Linked(f, q)
    modifies f`inWorkingSet, f`inDpQueue, f`inIpQueue, q
    ensures Linked(f, q) && Others(f, q) == old(Others(f, q))
    ensures f.inWorkingSet == if queue == Partial then Counter(add, all, old(f.inWorkingSet)) else old(f.inWorkingSet)
    ensures f.inDpQueue == if queue == DP then Counter(add, all, old(f.inDpQueue)) else old(f.inDpQueue)
    ensures f.inIpQueue == if queue == IP then Counter(add, all, old(f.inIpQueue)) else old(f.inIpQueue)
  {
    match queue
    case Partial => UpdateWorkingSet(f, q, add, all);
    case DP => UpdateDpQueue(f, q, add, all);
    case IP => UpdateIpQueue(f, q, add, all);
  }
}
