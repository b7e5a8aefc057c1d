/**
 All files under one scheduler (src/iosched/unified.c): the shared counters are the sums over the
 files from the start and after every operation, and a turn of the background thread is the pass of Progress.
 */
module Scheduler {
  import opened Bytes
  import opened Requests
  import opened UnifiedWrite
  import opened UnifiedDrain
  import opened UnifiedSweep
  import opened WriteErrors
  import opened Counts
  import opened FileRun
  import opened AltExtents
  import opened IndexPass
  import opened Progress
  import opened SchedulerState
  import opened SchedulerRequests
  import opened SchedulerWrite
  import opened SchedulerPlace
  import opened SchedulerDrain

  /** The files as values. */
  ghost function FilesOf(files: seq<DentryPriv>): (r: seq<File>)
    reads files
    ensures |r| == |files| && forall j :: 0 <= j < |files| ==> r[j] == FileOf(files[j])
  {
    if files == [] then [] else [FileOf(files[0])] + FilesOf(files[1..])
  }

  /** The extents are in order below position `top` of the index partition. */
  ghost predicate ExtentsFit(f: DentryPriv, top: nat, bs: nat)
    reads f`extents
  {
    AltExtents.InOrder(f.extents, top, bs)
  }

  /** Only a file placed on the index partition has requests for it, and a record given back has none at all. */
  ghost predicate Settled(f: DentryPriv)
    reads f`requests, f`writeIp, f`freed
  {
    InPlace(f) && (f.freed ==> f.requests == [])
  }

  /** What is on the index partition fills its blocks. */
  ghost predicate Blockwise(p: IndexPartition)
    reads p
  {
    p.blockSize > 0 && |p.bytes| == p.block * p.blockSize
  }

  /** One file of a scheduler in order. */
  ghost predicate Sound(f: DentryPriv, q: UnifiedData)
    reads f, q, q.partition
  {
    Tallied(f, q) && Settled(f) && ExtentsFit(f, |q.partition.bytes|, q.partition.blockSize)
  }

  /**
   Every file's counters, links and placement are right and its extents in order, every queue holds files
   of this scheduler, and the shared counters are the numbers of partial requests, of full requests that
   are not on their way to the index partition, and of index-partition requests.
   */
  ghost predicate Coherent(files: seq<DentryPriv>, q: UnifiedData)
    reads files, q, q.partition
  {
    && q.cacheSize >= 1 && Blockwise(q.partition) && Distinct(files) && (forall f :: f in files ==> Sound(f, q))
    && Distinct(q.workingSet) && Distinct(q.dpQueue) && Distinct(q.ipQueue)
    && q.wsCount == |q.workingSet| && q.dpCount == |q.dpQueue| && q.ipCount == |q.ipQueue|
    && (forall g :: g in q.workingSet ==> g in files)
    && (forall g :: g in q.dpQueue ==> g in files)
    && (forall g :: g in q.ipQueue ==> g in files)
    && q.wsRequestCount == TotalPartial(FilesOf(files))
    && q.dpRequestCount == FreeableDP(FilesOf(files))
    && q.ipRequestCount == TotalIP(FilesOf(files))
  }

  // ---- One file changes ----

  function Partials(f: File): nat { Count(f.l, Partial) }
  function Freeables(f: File): nat { if f.writeIp then 0 else Count(f.l, DP) }
  function IPs(f: File): nat { Count(f.l, IP) }

  /** Changing one entry changes each sum by what changed in that entry. */
  lemma {:induction false} SumsChange(a: seq<File>, b: seq<File>, k: nat)
    requires |a| == |b| && k < |a| && forall j :: 0 <= j < |a| && j != k ==> a[j] == b[j]
    ensures TotalPartial(b) - Partials(b[k]) == TotalPartial(a) - Partials(a[k])
    ensures FreeableDP(b) - Freeables(b[k]) == FreeableDP(a) - Freeables(a[k])
    ensures TotalIP(b) - IPs(b[k]) == TotalIP(a) - IPs(a[k])
  {
    if k == 0 {
      assert a[1..] == b[1..];
    } else {
      SumsChange(a[1..], b[1..], k - 1);
    }
  }

  /** The shared state, the files and how far the index partition is filled at one moment. */
  datatype Snapshot = Snapshot(files: seq<File>, share: Share, top: nat)

  ghost function Moment(files: seq<DentryPriv>, q: UnifiedData): Snapshot
    reads files, q, q.partition
  {
    Snapshot(FilesOf(files),
             Share(q.wsRequestCount, q.dpRequestCount, q.ipRequestCount, q.workingSet, q.dpQueue, q.ipQueue),
             |q.partition.bytes|)
  }

  /** File `j` is in order and is what it was at that moment. */
  ghost predicate AsThen(g: DentryPriv, j: nat, s: Snapshot, q: UnifiedData)
    reads g
  {
    && j < |s.files| && FileOf(g) == s.files[j]
    && q.cacheSize >= 1 && LeadOf(g) == Lead(0, 0, 0) && Sized(g.requests, q.cacheSize)
    && Settled(g) && ExtentsFit(g, s.top, q.partition.blockSize)
    && (g in s.share.wsQueue <==> g.inWorkingSet > 0)
    && (g in s.share.dpQueue <==> g.inDpQueue > 0)
    && (g in s.share.ipQueue <==> g.inIpQueue > 0)
  }

  /** The queues and sums at that moment were right. */
  ghost predicate RightThen(files: seq<DentryPriv>, s: Snapshot) {
    && Distinct(files) && |s.files| == |files|
    && (forall g :: g in s.share.wsQueue ==> g in files)
    && (forall g :: g in s.share.dpQueue ==> g in files)
    && (forall g :: g in s.share.ipQueue ==> g in files)
    && s.share.ws == TotalPartial(s.files) && s.share.dp == FreeableDP(s.files) && s.share.ip == TotalIP(s.files)
  }

  /** Every file but `f` is what it was at that moment. */
  ghost predicate RestThen(files: seq<DentryPriv>, f: DentryPriv, s: Snapshot, q: UnifiedData)
    reads set g | g in files && g != f
  {
    forall j :: 0 <= j < |files| && files[j] != f ==> AsThen(files[j], j, s, q)
  }

  lemma TakeMoment(files: seq<DentryPriv>, k: nat, q: UnifiedData)
    requires Coherent(files, q) && k < |files|
    ensures var s := Moment(files, q);
      RightThen(files, s) && RestThen(files, files[k], s, q) && SharedStays(files[k], q, s.files[k], s)
  {
    var s := Moment(files, q);
    forall j | 0 <= j < |files| ensures AsThen(files[j], j, s, q) {
      assert Sound(files[j], q);
    }
    assert Sound(files[k], q);
  }

  /** The queues still hold files of this scheduler only. */
  lemma MembersStay(files: seq<DentryPriv>, was: seq<DentryPriv>, now: seq<DentryPriv>, f: DentryPriv)
    requires f in files && Without(now, f) == Without(was, f) && forall g :: g in was ==> g in files
    ensures forall g :: g in now ==> g in files
    ensures forall g :: g in files && g != f ==> (g in now <==> g in was)
  {
    WithoutMember(was, f);
    WithoutMember(now, f);
    forall g | g in now ensures g in files {
      if g != f {
        assert g in Without(now, f);
      }
    }
    forall g | g in files && g != f ensures g in now <==> g in was {
      assert g in now <==> g in Without(now, f);
      assert g in was <==> g in Without(was, f);
    }
  }

  /** The shared state at that moment but for a file's part in it, given its part. */
  ghost predicate SharedStays(f: DentryPriv, q: UnifiedData, was: File, s: Snapshot)
    reads f, q
  {
    Others(f, q) == Share(
      s.share.ws - Partials(was), s.share.dp - Freeables(was), s.share.ip - IPs(was),
      Without(s.share.wsQueue, f), Without(s.share.dpQueue, f), Without(s.share.ipQueue, f))
  }

  /**
   Whatever one operation did to one file, if it left that file in order and the rest of the shared
   state as it was, everything is in order.
   */
  lemma StaysCoherent(files: seq<DentryPriv>, k: nat, q: UnifiedData, s: Snapshot)
    requires RightThen(files, s) && k < |files| && Blockwise(q.partition) && |q.partition.bytes| >= s.top
    requires RestThen(files, files[k], s, q)
    requires Sound(files[k], q) && SharedStays(files[k], q, s.files[k], s)
    ensures Coherent(files, q)
  {
    OthersInOrder(files, k, q, s);
    SumsFollow(files, k, q, s);
  }

  lemma OthersInOrder(files: seq<DentryPriv>, k: nat, q: UnifiedData, s: Snapshot)
    requires RightThen(files, s) && k < |files| && Blockwise(q.partition) && |q.partition.bytes| >= s.top
    requires RestThen(files, files[k], s, q)
    requires Sound(files[k], q) && SharedStays(files[k], q, s.files[k], s)
    ensures forall g :: g in files ==> Sound(g, q)
    ensures forall g :: g in q.workingSet ==> g in files
    ensures forall g :: g in q.dpQueue ==> g in files
    ensures forall g :: g in q.ipQueue ==> g in files
  {
    var f := files[k];
    MembersStay(files, s.share.wsQueue, q.workingSet, f);
    MembersStay(files, s.share.dpQueue, q.dpQueue, f);
    MembersStay(files, s.share.ipQueue, q.ipQueue, f);
    forall j | 0 <= j < |files| ensures Sound(files[j], q) {
      if j != k {
        StillInOrder(files[j], j, q, s);
      }
    }
  }

  lemma StillInOrder(g: DentryPriv, j: nat, q: UnifiedData, s: Snapshot)
    requires AsThen(g, j, s, q) && |q.partition.bytes| >= s.top
    requires Distinct(q.workingSet) && |q.workingSet| == q.wsCount && (g in q.workingSet <==> g in s.share.wsQueue)
    requires Distinct(q.dpQueue) && |q.dpQueue| == q.dpCount && (g in q.dpQueue <==> g in s.share.dpQueue)
    requires Distinct(q.ipQueue) && |q.ipQueue| == q.ipCount && (g in q.ipQueue <==> g in s.share.ipQueue)
    ensures Sound(g, q)
  {
    InOrderLater(g.extents, s.top, |q.partition.bytes|, q.partition.blockSize);
  }

  lemma SumsFollow(files: seq<DentryPriv>, k: nat, q: UnifiedData, s: Snapshot)
    requires RightThen(files, s) && k < |files|
    requires RestThen(files, files[k], s, q)
    requires Sound(files[k], q) && SharedStays(files[k], q, s.files[k], s)
    ensures q.wsRequestCount == TotalPartial(FilesOf(files))
    ensures q.dpRequestCount == FreeableDP(FilesOf(files))
    ensures q.ipRequestCount == TotalIP(FilesOf(files))
  {
    var b := FilesOf(files);
    assert forall j :: 0 <= j < |files| && j != k ==> s.files[j] == b[j];
    SumsChange(s.files, b, k);
  }

  // ---- The start ----

  /** A scheduler without queued requests. */
  ghost predicate Idle(files: seq<DentryPriv>, q: UnifiedData)
    reads files, q, q.partition
  {
    && q.workingSet == [] && q.dpQueue == [] && q.ipQueue == []
    && q.wsCount == 0 && q.dpCount == 0 && q.ipCount == 0
    && q.wsRequestCount == 0 && q.dpRequestCount == 0 && q.ipRequestCount == 0
    && Blockwise(q.partition) && forall j :: 0 <= j < |files| ==> Untouched(files[j])
  }

  ghost predicate Untouched(f: DentryPriv)
    reads f
  {
    f.requests == [] && f.extents == [] && f.inWorkingSet == 0 && f.inDpQueue == 0 && f.inIpQueue == 0
  }

  lemma {:induction false} NothingToSum(fs: seq<File>)
    requires forall j :: 0 <= j < |fs| ==> fs[j].l == []
    ensures TotalPartial(fs) == 0 && FreeableDP(fs) == 0 && TotalIP(fs) == 0
  {
    if fs != [] {
      NothingToSum(fs[1..]);
    }
  }

  /** Every run starts coherent. */
  lemma IdleIsCoherent(files: seq<DentryPriv>, q: UnifiedData)
    requires Distinct(files) && q.cacheSize >= 1 && Idle(files, q)
    ensures Coherent(files, q)
  {
    NothingToSum(FilesOf(files));
    forall f | f in files ensures Sound(f, q) {
      var j :| 0 <= j < |files| && files[j] == f;
      assert Untouched(files[j]);
    }
  }

  lemma {:induction false} SumsAppend(fs: seq<File>, g: File)
    requires g.l == []
    ensures TotalPartial(fs + [g]) == TotalPartial(fs) && FreeableDP(fs + [g]) == FreeableDP(fs)
    ensures TotalIP(fs + [g]) == TotalIP(fs)
  {
    if fs == [] {
      assert [g][1..] == [];
    } else {
      assert (fs + [g])[1..] == fs[1..] + [g];
      SumsAppend(fs[1..], g);
    }
  }

  /** A file the scheduler has no record of yet. */
  lemma NewIsCoherent(files: seq<DentryPriv>, q: UnifiedData, f: DentryPriv)
    requires Coherent(files, q) && f !in files && Untouched(f)
    ensures Coherent(files + [f], q)
  {
    var all := files + [f];
    assert FilesOf(all) == FilesOf(files) + [FileOf(f)];
    SumsAppend(FilesOf(files), FileOf(f));
    assert f !in q.workingSet && f !in q.dpQueue && f !in q.ipQueue;
    assert Sound(f, q);
    forall g | g in all ensures Sound(g, q) {
      assert g in files || g == f;
    }
  }

  /** _unified_get_dentry_priv for a file that has no record: the scheduler has one more file, in order. */
  method NewFile(ghost files: seq<DentryPriv>, q: UnifiedData, tape: seq<byte>, handles: nat, matches: bool,
    maxSize: nat)
    returns (f: DentryPriv)
    requires Coherent(files, q)
    ensures fresh(f) && Coherent(files + [f], q) && SizeRight(f) && SchedulerDrain.InOrder(f, q.cacheSize)
    ensures !f.freed && f.handles == handles + 1 && f.extents == [] && !f.inExtQueue
    ensures FileOf(f) == File([], tape, matches && maxSize > 0 && |tape| <= maxSize)
    ensures FileOf(f) == PlacingAt(File([], tape, false), |tape|, Volume(q.cacheSize, maxSize), matches, false)
  {
    f := new DentryPriv(tape, handles, matches, maxSize);
    NewIsCoherent(files, q, f);
  }

  // ---- The operations ----

  /** `f` is file `k` of a scheduler in order, and so is in order itself. */
  ghost predicate Lists(files: seq<DentryPriv>, q: UnifiedData, f: DentryPriv, k: nat)
    reads files, q, f, q.partition
  {
    Coherent(files, q) && k < |files| && files[k] == f && Sound(f, q)
  }

  /** The same, with a record that was not given back. */
  ghost predicate Manages(files: seq<DentryPriv>, q: UnifiedData, f: DentryPriv, k: nat)
    reads files, q, f, q.partition
  {
    Lists(files, q, f, k) && !f.freed
  }

  /** What a write comes back with: an error of an earlier write, a read-only medium, or one attempt. */
  datatype Written = EarlierError | ReadOnly | Attempted(outcome: Outcome)

  /** unified_write: an earlier error is reported instead, and once; otherwise one attempt is made. */
  method WriteFile(ghost files: seq<DentryPriv>, q: UnifiedData, f: DentryPriv, ghost k: nat,
    o: nat, d: seq<byte>, blocks: nat, maxSize: nat, ipFull: bool, readonly: bool) returns (r: Written)
    requires Manages(files, q, f, k)
    modifies f, q
    ensures Coherent(files, q) && (old(SizeRight(f)) ==> SizeRight(f))
    ensures f.extents == if old(f.writeIp) && !f.writeIp then [] else old(f.extents)
    ensures r.EarlierError? <==> d != [] && old(f.writeError)
    ensures r.ReadOnly? <==> d != [] && !old(f.writeError) && readonly
    ensures f.writeError == (d == [] && old(f.writeError))
    ensures !r.Attempted? ==> FileOf(f) == old(FileOf(f))
    ensures r.Attempted? ==>
      FileOf(f) == After(old(FileOf(f)), WriteOp(o, d, blocks, ipFull), Volume(q.cacheSize, maxSize))
    ensures var l := BeforeWrite(old(FileOf(f)), Volume(q.cacheSize, maxSize), o, d, ipFull).l;
      Sized(l, q.cacheSize) && (r.Attempted? ==> r.outcome == Attempt(l, o, d, q.cacheSize, blocks))
  {
    ghost var s := Moment(files, q);
    TakeMoment(files, k, q);
    r := WriteSound(f, q, o, d, blocks, maxSize, ipFull, readonly);
    StaysCoherent(files, k, q, s);
  }

  /** Writing nothing changes nothing. */
  lemma EmptyWrite(x: File, v: Volume, o: nat, d: seq<byte>, blocks: nat, ipFull: bool)
    requires Sized(x.l, v.c) && 1 <= v.c && d == []
    ensures After(x, WriteOp(o, d, blocks, ipFull), v) == x && BeforeWrite(x, v, o, d, ipFull) == x
    ensures Attempt(x.l, o, d, v.c, blocks) == Outcome(x.l, o, d, blocks)
  {
    DropIPSized(x.l, v.c);
  }

  method WriteSound(f: DentryPriv, q: UnifiedData, o: nat, d: seq<byte>, blocks: nat, maxSize: nat, ipFull: bool,
    readonly: bool) returns (r: Written)
    requires Sound(f, q) && !f.freed
    modifies f`requests, f`fileSize, f`writeIp, f`writeError, f`inWorkingSet, f`inDpQueue, f`inIpQueue
    modifies f`extents, f`inExtQueue, q
    ensures Sound(f, q) && Others(f, q) == old(Others(f, q)) && (old(SizeRight(f)) ==> SizeRight(f))
    ensures f.extents == if old(f.writeIp) && !f.writeIp then [] else old(f.extents)
    ensures r.EarlierError? <==> d != [] && old(f.writeError)
    ensures r.ReadOnly? <==> d != [] && !old(f.writeError) && readonly
    ensures f.writeError == (d == [] && old(f.writeError))
    ensures !r.Attempted? ==> FileOf(f) == old(FileOf(f))
    ensures r.Attempted? ==>
      FileOf(f) == After(old(FileOf(f)), WriteOp(o, d, blocks, ipFull), Volume(q.cacheSize, maxSize))
    ensures var l := BeforeWrite(old(FileOf(f)), Volume(q.cacheSize, maxSize), o, d, ipFull).l;
      Sized(l, q.cacheSize) && (r.Attempted? ==> r.outcome == Attempt(l, o, d, q.cacheSize, blocks))
  {
    DropIPSized(f.requests, q.cacheSize);
    if |d| == 0 {
      EmptyWrite(FileOf(f), Volume(q.cacheSize, maxSize), o, d, blocks, ipFull);
      return Attempted(Outcome(f.requests, o, d, blocks));
    }
    var error := GetWriteError(f);
    if error {
      r := EarlierError;
    } else if readonly {
      r := ReadOnly;
    } else {
      var outcome := AttemptSound(f, q, o, d, blocks, maxSize, ipFull);
      r := Attempted(outcome);
    }
  }

  method AttemptSound(f: DentryPriv, q: UnifiedData, o: nat, d: seq<byte>, blocks: nat, maxSize: nat, ipFull: bool)
    returns (r: Outcome)
    requires Sound(f, q) && !f.freed && d != [] && !f.writeError
    modifies f`requests, f`fileSize, f`writeIp, f`inWorkingSet, f`inDpQueue, f`inIpQueue, f`extents, f`inExtQueue, q
    ensures Sound(f, q) && Others(f, q) == old(Others(f, q)) && (old(SizeRight(f)) ==> SizeRight(f))
    ensures f.extents == (if old(f.writeIp) && !f.writeIp then [] else old(f.extents))
    ensures FileOf(f) == After(old(FileOf(f)), WriteOp(o, d, blocks, ipFull), Volume(q.cacheSize, maxSize))
    ensures var l := BeforeWrite(old(FileOf(f)), Volume(q.cacheSize, maxSize), o, d, ipFull).l;
      Sized(l, q.cacheSize) && r == Attempt(l, o, d, q.cacheSize, blocks)
  {
    r := WriteAfterPlacement(f, q, o, d, blocks, maxSize, ipFull);
  }

  method WriteAfterPlacement(f: DentryPriv, q: UnifiedData, o: nat, d: seq<byte>, blocks: nat, maxSize: nat,
    ipFull: bool)
    returns (r: Outcome)
    requires Tallied(f, q) && d != [] && !f.writeError
    modifies f`requests, f`fileSize, f`writeIp, f`inWorkingSet, f`inDpQueue, f`inIpQueue, f`extents, f`inExtQueue, q
    ensures Tallied(f, q) && Others(f, q) == old(Others(f, q)) && (old(SizeRight(f)) ==> SizeRight(f))
    ensures f.extents == (if old(f.writeIp) && !f.writeIp then [] else old(f.extents))
    ensures (old(InPlace(f)) ==> InPlace(f))
    ensures FileOf(f) == After(old(FileOf(f)), WriteOp(o, d, blocks, ipFull), Volume(q.cacheSize, maxSize))
    ensures var l := BeforeWrite(old(FileOf(f)), Volume(q.cacheSize, maxSize), o, d, ipFull).l;
      Sized(l, q.cacheSize) && r == Attempt(l, o, d, q.cacheSize, blocks)
  {
    DropIPSized(f.requests, q.cacheSize);
    DropIPReaches(f.requests, f.tape, f.fileSize);
    DropIPLeavesNone(f.requests);
    if f.writeIp && (o + |d| > maxSize || ipFull) {
      UnsetWriteIp(f, q);
    }
    if InPlace(f) && !f.writeIp {
      AttemptNoIP(f.requests, o, d, q.cacheSize, blocks);
    }
    r := WriteHere(f, q, o, d, blocks);
  }

  /** When the truncation leaves file_size right. */
  ghost predicate StaysRight(l: seq<Request>, size: nat, n: nat, drop: bool, before: bool, after: bool) {
    && (after <==> CutsRight(l, size, n, drop))
    && (before ==> (after <==> n >= size || StopsInTime(l, n, drop)))
  }

  method TruncateWritable(ghost files: seq<DentryPriv>, q: UnifiedData, f: DentryPriv, ghost k: nat,
    n: nat, maxSize: nat, matches: bool, deleted: bool)
    requires Manages(files, q, f, k)
    modifies f, q
    ensures Coherent(files, q) && f.writeError == old(f.writeError) && f.fileSize == n
    ensures FileOf(f)
         == TruncatingAt(old(FileOf(f)), old(f.fileSize), Volume(q.cacheSize, maxSize), n, matches, deleted)
    ensures
      StaysRight(old(f.requests), old(f.fileSize), n, old(f.writeIp) && !f.writeIp, old(SizeRight(f)), SizeRight(f))
    ensures f.extents == CutExtents(old(f.extents), old(f.fileSize), n, old(f.writeIp) && !f.writeIp)
  {
    ghost var s := Moment(files, q);
    TakeMoment(files, k, q);
    TruncateSound(f, q, n, maxSize, matches, deleted);
    assert Coherent(files, q) by {
      StaysCoherent(files, k, q, s);
    }
  }

  method TruncateSound(f: DentryPriv, q: UnifiedData, n: nat, maxSize: nat, matches: bool, deleted: bool)
    requires Sound(f, q) && !f.freed
    modifies f`requests, f`fileSize, f`tape, f`writeIp, f`inWorkingSet, f`inDpQueue, f`inIpQueue
    modifies f`extents, f`inExtQueue, q
    ensures Sound(f, q) && Others(f, q) == old(Others(f, q)) && f.fileSize == n
    ensures FileOf(f)
         == TruncatingAt(old(FileOf(f)), old(f.fileSize), Volume(q.cacheSize, maxSize), n, matches, deleted)
    ensures
      StaysRight(old(f.requests), old(f.fileSize), n, old(f.writeIp) && !f.writeIp, old(SizeRight(f)), SizeRight(f))
    ensures f.extents == CutExtents(old(f.extents), old(f.fileSize), n, old(f.writeIp) && !f.writeIp)
  {
    TrimToValid(f.extents, n, |q.partition.bytes|, q.partition.blockSize);
    TruncateHere(f, q, n, maxSize, matches, deleted);
  }

  /**
   unified_truncate, unless the medium is read-only. What it does to the file depends on the size the
   scheduler has for it; that size is right afterwards exactly when the loop over the requests does not
   stop too early.
   */
  method TruncateFile(ghost files: seq<DentryPriv>, q: UnifiedData, f: DentryPriv, ghost k: nat,
    n: nat, maxSize: nat, matches: bool, deleted: bool, readonly: bool) returns (ok: bool)
    requires Manages(files, q, f, k)
    modifies f, q
    ensures Coherent(files, q) && (ok <==> !readonly) && f.writeError == old(f.writeError)
    ensures f.fileSize == if ok then n else old(f.fileSize)
    ensures FileOf(f) ==
      if ok then TruncatingAt(old(FileOf(f)), old(f.fileSize), Volume(q.cacheSize, maxSize), n, matches, deleted)
      else old(FileOf(f))
    ensures ok && old(SizeRight(f)) ==>
      FileOf(f) == After(old(FileOf(f)), TruncateOp(n, matches, deleted), Volume(q.cacheSize, maxSize))
    ensures f.extents ==
      if ok then CutExtents(old(f.extents), old(f.fileSize), n, old(f.writeIp) && !f.writeIp) else old(f.extents)
    ensures ok ==>
      StaysRight(old(f.requests), old(f.fileSize), n, old(f.writeIp) && !f.writeIp, old(SizeRight(f)), SizeRight(f))
  {
    if readonly {
      return false;
    }
    TruncateWritable(files, q, f, k, n, maxSize, matches, deleted);
    return true;
  }

  method UpdateDataPlacement(ghost files: seq<DentryPriv>, q: UnifiedData, f: DentryPriv, ghost k: nat,
    maxSize: nat, matches: bool, deleted: bool)
    requires Manages(files, q, f, k)
    modifies f, q
    ensures Coherent(files, q) && (old(SizeRight(f)) ==> SizeRight(f))
    ensures FileOf(f) == PlacingAt(old(FileOf(f)), old(f.fileSize), Volume(q.cacheSize, maxSize), matches, deleted)
    ensures old(SizeRight(f)) ==>
      FileOf(f) == After(old(FileOf(f)), PlaceOp(matches, deleted), Volume(q.cacheSize, maxSize))
    ensures f.writeIp <==> old(f.fileSize) <= maxSize && matches && !deleted && (old(f.writeIp) || maxSize > 0)
    ensures f.extents == if old(f.writeIp) && !f.writeIp then [] else old(f.extents)
  {
    ghost var s := Moment(files, q);
    TakeMoment(files, k, q);
    PlaceSound(f, q, maxSize, matches, deleted);
    StaysCoherent(files, k, q, s);
  }

  method PlaceSound(f: DentryPriv, q: UnifiedData, maxSize: nat, matches: bool, deleted: bool)
    requires Sound(f, q) && !f.freed
    modifies f`writeIp, f`requests, f`inWorkingSet, f`inDpQueue, f`inIpQueue, f`extents, f`inExtQueue, q
    ensures Sound(f, q) && Others(f, q) == old(Others(f, q)) && (old(SizeRight(f)) ==> SizeRight(f))
    ensures FileOf(f) == PlacingAt(old(FileOf(f)), f.fileSize, Volume(q.cacheSize, maxSize), matches, deleted)
    ensures f.writeIp <==> f.fileSize <= maxSize && matches && !deleted && (old(f.writeIp) || maxSize > 0)
    ensures f.extents == if old(f.writeIp) && !f.writeIp then [] else old(f.extents)
  {
    SchedulerPlace.PlaceHere(f, q, maxSize, matches, deleted);
  }

  method FlushFile(ghost files: seq<DentryPriv>, q: UnifiedData, f: DentryPriv, ghost k: nat, budget: nat, e: Failure)
    returns (ok: bool)
    requires Manages(files, q, f, k)
    modifies f, q
    ensures Coherent(files, q) && (old(SizeRight(f)) ==> SizeRight(f))
    ensures !old(f.writeError) && budget >= |old(f.requests)| ==> ok
    ensures ok ==> FileOf(f) == After(old(FileOf(f)), FlushOp, Volume(q.cacheSize, 0))
    ensures old(f.writeError) ==> !ok && FileOf(f) == old(FileOf(f))
    ensures !f.writeError && (!old(f.writeError) ==> OnlyIP(f.requests))
    ensures !old(f.writeError) && !ok && old(SchedulerDrain.InOrder(f, q.cacheSize)) ==>
      View(f.requests, f.tape) == f.tape
    ensures Without(q.dpQueue, f) == old(Without(q.dpQueue, f))
    ensures Without(q.workingSet, f) == old(Without(q.workingSet, f))
  {
    ghost var s := Moment(files, q);
    TakeMoment(files, k, q);
    ok := FlushSound(f, q, budget, e);
    StaysCoherent(files, k, q, s);
  }

  method FlushSound(f: DentryPriv, q: UnifiedData, budget: nat, e: Failure) returns (ok: bool)
    requires Sound(f, q) && !f.freed
    modifies f`requests, f`fileSize, f`tape, f`writeError, f`inWorkingSet, f`inDpQueue, f`inIpQueue, q
    ensures Sound(f, q) && Others(f, q) == old(Others(f, q)) && (old(SizeRight(f)) ==> SizeRight(f))
    ensures !old(f.writeError) && budget >= |old(f.requests)| ==> ok
    ensures ok ==> FileOf(f) == After(old(FileOf(f)), FlushOp, Volume(q.cacheSize, 0))
    ensures old(f.writeError) ==> !ok && FileOf(f) == old(FileOf(f))
    ensures !f.writeError && (!old(f.writeError) ==> OnlyIP(f.requests))
    ensures !old(f.writeError) && !ok && old(SchedulerDrain.InOrder(f, q.cacheSize)) ==>
      View(f.requests, f.tape) == f.tape
  {
    ok := FlushHere(f, q, budget, e);
  }

  /**
   unified_close, when the background thread is not at the file. An error kept for the file is returned,
   and none is left behind; the record is given back if this is the last open handle and it holds nothing.
   */
  method CloseFile(ghost files: seq<DentryPriv>, q: UnifiedData, f: DentryPriv, ghost k: nat, flush: bool,
    budget: nat, e: Failure) returns (error: bool)
    requires Manages(files, q, f, k) && f.handles > 0
    modifies f, q
    ensures Coherent(files, q) && (old(SizeRight(f)) ==> SizeRight(f)) && !f.writeError
    ensures old(f.writeError) ==> error
    ensures !old(f.writeError) && (!flush || budget >= |old(f.requests)|) ==> !error
    ensures old(f.writeError) || !flush ==> FileOf(f) == old(FileOf(f))
    ensures flush && !error ==> FileOf(f) == After(old(FileOf(f)), FlushOp, Volume(q.cacheSize, 0))
    ensures f.freed <==> old(f.handles) <= 3 && f.requests == [] && f.extents == []
  {
    ghost var s := Moment(files, q);
    TakeMoment(files, k, q);
    error := CloseSound(f, q, flush, budget, e);
    StaysCoherent(files, k, q, s);
  }

  method CloseSound(f: DentryPriv, q: UnifiedData, flush: bool, budget: nat, e: Failure) returns (error: bool)
    requires Sound(f, q) && !f.freed && f.handles > 0
    modifies f`requests, f`fileSize, f`tape, f`writeError, f`inWorkingSet, f`inDpQueue, f`inIpQueue
    modifies f`freed, f`handles, q
    ensures Sound(f, q) && Others(f, q) == old(Others(f, q)) && (old(SizeRight(f)) ==> SizeRight(f))
    ensures !f.writeError && (old(f.writeError) ==> error)
    ensures !old(f.writeError) && (!flush || budget >= |old(f.requests)|) ==> !error
    ensures old(f.writeError) || !flush ==> FileOf(f) == old(FileOf(f))
    ensures flush && !error ==> FileOf(f) == After(old(FileOf(f)), FlushOp, Volume(q.cacheSize, 0))
    ensures f.freed <==> old(f.handles) <= 3 && f.requests == [] && f.extents == []
  {
    error := CloseHere(f, q, flush, budget, e);
  }

  // ---- The background passes ----

  /** A queue after the file at its head was served. */
  lemma QueueShrinks(was: seq<DentryPriv>, now: seq<DentryPriv>, f: DentryPriv)
    requires Distinct(was) && f !in now && Without(now, f) == Without(was, f)
    ensures |now| == |was| - One(f in was) && forall g :: g in now <==> g in was && g != f
  {
    WithoutDistinct(was, f);
    WithoutAbsent(now, f);
    WithoutMember(was, f);
  }

  /** Whether a pass serves the file. */
  predicate Serves(x: File, all: bool) {
    Count(x.l, DP) > 0 || (all && Count(x.l, Partial) > 0)
  }

  /** One file served: it is out of the queues being served, which are shorter for it. */
  method PassFile(ghost files: seq<DentryPriv>, q: UnifiedData, f: DentryPriv, ghost k: nat,
    all: bool, budget: nat, e: Failure)
    requires Manages(files, q, f, k)
    modifies f, q
    ensures Coherent(files, q) && !Serves(FileOf(f), all) && (old(SizeRight(f)) ==> SizeRight(f))
    ensures |q.dpQueue| == old(|q.dpQueue|) - One(f in old(q.dpQueue))
    ensures all ==> |q.workingSet| == old(|q.workingSet|) - One(f in old(q.workingSet))
    ensures old(f.writeError) ==> f.writeError
    ensures !f.writeError || budget >= |old(f.requests)| ==> FileOf(f) == Drained(old(FileOf(f)), all, q.cacheSize)
    ensures budget >= |old(f.requests)| ==> f.writeError == old(f.writeError)
  {
    ghost var s := Moment(files, q);
    TakeMoment(files, k, q);
    var failed := DrainHere(f, q, all, budget, e);
    NoneLeft(f, all);
    QueueShrinks(old(q.dpQueue), q.dpQueue, f);
    if all {
      QueueShrinks(old(q.workingSet), q.workingSet, f);
    }
    StaysCoherent(files, k, q, s);
  }

  /**
   The background thread lets go of the file's lock once it has detached what it is going to write: every
   counter is right then, and file_size counts the detached requests.
   */
  method DetachFile(ghost files: seq<DentryPriv>, q: UnifiedData, f: DentryPriv, ghost k: nat,
    all: bool, budget: nat, e: Failure) returns (failed: bool, local: seq<Request>, left: nat)
    requires Manages(files, q, f, k)
    modifies f, q
    ensures Manages(files, q, f, k) && NoneSelected(f.requests, |f.requests|, all)
    ensures failed ==> f.writeError && budget < |old(f.requests)| && (old(SizeRight(f)) ==> SizeRight(f))
    ensures !failed ==> f.writeError == old(f.writeError) && Sized(local, q.cacheSize)
    ensures !failed ==>
      Swept(f.requests, f.tape, local) == Sweep(old(f.requests), 0, old(f.tape), [], all, f.writeIp, q.cacheSize)
    ensures !failed && old(SizeRight(f)) ==> SizeWith(f, local)
  {
    ghost var s := Moment(files, q);
    TakeMoment(files, k, q);
    failed, local, left := TakeRequests(f, q, all, budget, e);
    StaysCoherent(files, k, q, s);
  }

  /**
   It then writes the detached requests, whatever was done to this file and the others meanwhile, and takes
   the file's lock again only if a write fails. If the record is gone by then no error can be kept.
   */
  method SendFile(ghost files: seq<DentryPriv>, q: UnifiedData, f: DentryPriv, ghost k: nat,
    detached: seq<Request>, budget: nat, e: Failure) returns (failed: bool)
    requires Lists(files, q, f, k) && Sized(detached, q.cacheSize)
    modifies f, q
    ensures Lists(files, q, f, k) && (failed <==> budget < |detached|)
    ensures f.tape == WriteAll(detached[..Min(budget, |detached|)], old(f.tape))
    ensures !failed || f.freed ==> f.requests == old(f.requests) && f.writeError == old(f.writeError)
    ensures failed && !f.freed ==> Cleared(f, old(f.requests), e)
    ensures old(SizeWith(f, detached)) && !(failed && f.freed) ==> SizeRight(f)
  {
    ghost var s := Moment(files, q);
    TakeMoment(files, k, q);
    failed := SendRequests(f, q, detached, budget, e);
    StaysCoherent(files, k, q, s);
  }

  lemma NoneLeft(f: DentryPriv, all: bool)
    requires NoneSelected(f.requests, |f.requests|, all)
    ensures Count(f.requests, DP) == 0 && (all ==> Count(f.requests, Partial) == 0)
  {
    CountZero(f.requests, DP);
    CountZero(f.requests, Partial);
    assert forall j :: 0 <= j < |f.requests| ==> !Selected(f.requests[j], all);
  }

  /** During a pass, unless a write failed: a file is as it was, or it was served. */
  ghost predicate Progressed(x: File, y: File, all: bool, c: nat) {
    y == x || (Serves(x, all) && !Serves(y, all) && Sized(x.l, c) && y == Drained(x, all, c))
  }

  /** At the end of a pass. */
  lemma PassedFile(x: File, y: File, all: bool, c: nat)
    requires Progressed(x, y, all, c) && !Serves(y, all) && Sized(x.l, c)
    ensures y == ServeOne(x, if all then Partial else DP, c)
  {
  }

  /** Files in no queue being served have nothing to serve. */
  lemma NothingQueued(files: seq<DentryPriv>, q: UnifiedData, all: bool)
    requires Coherent(files, q) && q.dpQueue == [] && (all ==> q.workingSet == [])
    ensures forall j :: 0 <= j < |files| ==> !Serves(FileOf(files[j]), all)
  {
    forall j | 0 <= j < |files| ensures !Serves(FileOf(files[j]), all) {
      assert Sound(files[j], q);
    }
  }

  /** The entries a pass may have to serve. */
  function Entries(q: UnifiedData, all: bool): nat
    reads q
  {
    |q.dpQueue| + if all then |q.workingSet| else 0
  }

  /** The file at the head of a queue is one of the files, in order, with something to serve. */
  lemma HeadIsServed(files: seq<DentryPriv>, q: UnifiedData, f: DentryPriv, all: bool) returns (k: nat)
    requires Coherent(files, q) && (f in q.dpQueue || (all && f in q.workingSet))
    ensures Manages(files, q, f, k) && Serves(FileOf(f), all)
  {
    k :| 0 <= k < |files| && files[k] == f;
    assert Sound(f, q);
  }

  ghost predicate Enough(files: seq<DentryPriv>, budget: nat)
    reads files
  {
    forall j :: 0 <= j < |files| ==> budget >= |files[j].requests|
  }

  /**
   A file when a pass starts: its value, whether its size is right, whether an error is kept, the handles,
   whether it has extents, and whether its record was given back.
   */
  datatype Start = Start(file: File, right: bool, error: bool, handles: nat, extents: bool, freed: bool)

  ghost function StartOf(f: DentryPriv): Start
    reads f
  {
    Start(FileOf(f), SizeRight(f), f.writeError, f.handles, f.extents != [], f.freed)
  }

  ghost function Starts(files: seq<DentryPriv>): (r: seq<Start>)
    reads files
    ensures |r| == |files| && forall j :: 0 <= j < |files| ==> r[j] == StartOf(files[j])
  {
    if files == [] then [] else [StartOf(files[0])] + Starts(files[1..])
  }

  /** What a pass has made of a file so far: an error is kept for it, or it is as it was, or served. */
  ghost predicate PassedOrFailed(x: Start, f: DentryPriv, all: bool, c: nat, enough: bool)
    reads f
  {
    (!f.writeError || enough ==> Progressed(x.file, FileOf(f), all, c)) && (x.right ==> SizeRight(f))
  }

  ghost predicate MidPass(files: seq<DentryPriv>, a: seq<Start>, all: bool, c: nat, enough: bool)
    reads files
  {
    |a| == |files| && forall j :: 0 <= j < |files| ==> PassedOrFailed(a[j], files[j], all, c, enough)
  }

  lemma CoherentIsSized(files: seq<DentryPriv>, q: UnifiedData)
    requires Coherent(files, q)
    ensures forall j :: 0 <= j < |files| ==> Sized(files[j].requests, q.cacheSize)
  {
    forall j | 0 <= j < |files| ensures Sized(files[j].requests, q.cacheSize) {
      assert Sound(files[j], q);
    }
  }

  /** A file the pass has not served yet is served: `y` it was, `z` it is, errors kept then and now. */
  lemma PassedOn(x: File, y: File, z: File, was: bool, now: bool, all: bool, c: nat, enough: bool, budget: nat)
    requires (!was || enough ==> Progressed(x, y, all, c)) && (was ==> now) && (enough ==> budget >= |x.l|)
    requires Sized(y.l, c) && Serves(y, all) && !Serves(z, all)
    requires !now || budget >= |y.l| ==> z == Drained(y, all, c)
    ensures !now || enough ==> Progressed(x, z, all, c)
  {
  }

  method PassOne(ghost files: seq<DentryPriv>, q: UnifiedData, f: DentryPriv, ghost k: nat, all: bool, budget: nat,
    e: Failure, ghost x: Start, ghost enough: bool)
    requires Manages(files, q, f, k) && Serves(FileOf(f), all) && PassedOrFailed(x, f, all, q.cacheSize, enough)
    requires enough ==> budget >= |x.file.l|
    modifies f, q
    ensures Coherent(files, q) && PassedOrFailed(x, f, all, q.cacheSize, enough)
    ensures |q.dpQueue| == old(|q.dpQueue|) - One(f in old(q.dpQueue))
    ensures all ==> |q.workingSet| == old(|q.workingSet|) - One(f in old(q.workingSet))
  {
    ghost var y, was := FileOf(f), f.writeError;
    PassFile(files, q, f, k, all, budget, e);
    PassedOn(x.file, y, FileOf(f), was, f.writeError, all, q.cacheSize, enough, budget);
  }

  /** The file at the head of a queue is served. */
  method PassHead(ghost files: seq<DentryPriv>, q: UnifiedData, f: DentryPriv, all: bool, budget: nat, e: Failure,
    ghost a: seq<Start>, ghost enough: bool)
    requires Coherent(files, q) && f in files && (f in q.dpQueue || (all && f in q.workingSet))
    requires MidPass(files, a, all, q.cacheSize, enough)
    requires enough ==> forall j :: 0 <= j < |a| ==> budget >= |a[j].file.l|
    modifies f, q
    ensures Coherent(files, q) && MidPass(files, a, all, q.cacheSize, enough) && Entries(q, all) < old(Entries(q, all))
  {
    ghost var k := HeadIsServed(files, q, f, all);
    assert PassedOrFailed(a[k], files[k], all, q.cacheSize, enough);
    PassOne(files, q, f, k, all, budget, e, a[k], enough);
    assert forall j :: 0 <= j < |files| && j != k ==> files[j] != f;
  }

  /**
   _unified_process_data_queue: as many turns as there were entries empty the queues being served, and
   every file is what a pass makes of it unless a write failed, and then its error is kept.
   */
  method ProcessDataQueue(ghost files: seq<DentryPriv>, q: UnifiedData, all: bool, budget: nat, e: Failure)
    requires Coherent(files, q)
    modifies files, q
    ensures Coherent(files, q) && q.dpQueue == [] && (all ==> q.workingSet == [])
    ensures forall j :: 0 <= j < |files| ==> Sized(old(FileOf(files[j])).l, q.cacheSize)
    ensures forall j :: 0 <= j < |files| && (!files[j].writeError || old(Enough(files, budget))) ==>
      FileOf(files[j]) == ServeOne(old(FileOf(files[j])), if all then Partial else DP, q.cacheSize)
    ensures forall j :: 0 <= j < |files| && old(SizeRight(files[j])) ==> SizeRight(files[j])
  {
    ghost var a, enough := Starts(files), Enough(files, budget);
    CoherentIsSized(files, q);
    var count := q.dpCount + if all then q.wsCount else 0;
    var i := 0;
    while i < count
      invariant 0 <= i <= count && Coherent(files, q) && Entries(q, all) <= count - i
      invariant MidPass(files, a, all, q.cacheSize, enough)
    {
      var f: DentryPriv;
      if |q.dpQueue| > 0 {
        f := q.dpQueue[0];
      } else if all && |q.workingSet| > 0 {
        f := q.workingSet[0];
      } else {
        break;
      }
      assert f in files;
      PassHead(files, q, f, all, budget, e, a, enough);
      i := i + 1;
    }
    NothingQueued(files, q, all);
    forall j | 0 <= j < |files| && (!files[j].writeError || enough)
      ensures FileOf(files[j]) == ServeOne(a[j].file, if all then Partial else DP, q.cacheSize)
    {
      assert PassedOrFailed(a[j], files[j], all, q.cacheSize, enough);
      PassedFile(a[j].file, FileOf(files[j]), all, q.cacheSize);
    }
    assert forall j :: 0 <= j < |files| ==> PassedOrFailed(a[j], files[j], all, q.cacheSize, enough);
  }

  /** What the index-partition pass makes of a file when `budget` of its tape writes succeed. */
  function IndexResult(x: File, budget: nat, e: Failure): File {
    x.(l := if budget < Count(x.l, IP) && !(e.cause == NoSpace && !e.otherReadonly) then [] else DropIP(x.l))
  }

  /** Whether it keeps an error. */
  predicate IndexReports(x: File, budget: nat, e: Failure) {
    budget < Count(x.l, IP) && e.cause != NoSpace && !(e.cause == Permanent && e.lockSet)
  }

  /** Whether it gives a file's record back: nothing holds it, and no extent was added. */
  predicate IndexFrees(x: Start, budget: nat, e: Failure) {
    Count(x.file.l, IP) > 0 && x.handles <= 2 && IndexResult(x.file, budget, e).l == [] && !x.extents && budget == 0
  }

  /** One file's index-partition requests written and dropped. */
  method IndexFile(ghost files: seq<DentryPriv>, q: UnifiedData, f: DentryPriv, ghost k: nat, budget: nat, e: Failure)
    requires Manages(files, q, f, k) && Count(f.requests, IP) > 0
    modifies f, q, q.partition
    ensures Coherent(files, q) && Count(f.requests, IP) == 0 && (old(SizeRight(f)) ==> SizeRight(f))
    ensures |q.ipQueue| == old(|q.ipQueue|) - One(f in old(q.ipQueue))
    ensures IndexDone(old(StartOf(f)), f, budget, e)
    ensures IndexOf(f, q.partition)
         == Stored(old(IndexOf(f, q.partition)), old(f.requests), budget, q.partition.blockSize)
  {
    ghost var s := Moment(files, q);
    TakeMoment(files, k, q);
    IndexSound(f, q, budget, e);
    QueueShrinks(old(q.ipQueue), q.ipQueue, f);
    StaysCoherent(files, k, q, s);
  }

  /** The extents and the partition after the pass over one file, as the extents and the partition before it tell. */
  lemma StoredSound(x: Index, l: seq<Request>, budget: nat, c: nat, bs: nat)
    requires Fit(x, bs) && Sized(l, c) && Count(l, IP) > 0
    ensures var y := Stored(x, l, budget, bs);
      Fit(y, bs) && |x.ip| <= |y.ip| && (y.extents == [] <==> x.extents == [] && budget == 0)
  {
    StoredFit(x, l, budget, c, bs);
    StoredEmpty(x, l, budget, c, bs);
  }

  method IndexSound(f: DentryPriv, q: UnifiedData, budget: nat, e: Failure)
    requires Sound(f, q) && Blockwise(q.partition) && !f.freed && Count(f.requests, IP) > 0
    modifies f`requests, f`fileSize, f`writeError, f`inWorkingSet, f`inDpQueue, f`inIpQueue
    modifies f`extents, f`inExtQueue, f`freed, f`handles, q, q.partition
    ensures Sound(f, q) && Others(f, q) == old(Others(f, q)) && (old(SizeRight(f)) ==> SizeRight(f))
    ensures Blockwise(q.partition) && |q.partition.bytes| >= old(|q.partition.bytes|)
    ensures Count(f.requests, IP) == 0 && IndexDone(old(StartOf(f)), f, budget, e)
    ensures IndexOf(f, q.partition)
         == Stored(old(IndexOf(f, q.partition)), old(f.requests), budget, q.partition.blockSize)
  {
    ghost var x := StartOf(f);
    StoredSound(IndexOf(f, q.partition), f.requests, budget, q.cacheSize, q.partition.blockSize);
    var failed := IndexHere(f, q, budget, e);
    DoneOf(x, FileOf(f), f.writeError, f.freed, f.extents != [], failed, budget, e);
  }

  /** The file, the error kept for it and whether its record is given back, from what the pass did to each. */
  lemma DoneOf(x: Start, y: File, now: bool, freed: bool, extents: bool, failed: bool, budget: nat, e: Failure)
    requires Count(x.file.l, IP) > 0 && !x.freed && (failed <==> budget < Count(x.file.l, IP))
    requires y == x.file.(l := IndexLeaves(x.file.l, failed, e)) && (extents <==> x.extents || budget > 0)
    requires now <==> x.error || (failed && e.cause != NoSpace && !(e.cause == Permanent && e.lockSet))
    requires freed <==> x.handles <= 2 && y.l == [] && !extents
    ensures y == IndexResult(x.file, budget, e) && now == (x.error || IndexReports(x.file, budget, e))
    ensures freed == (x.freed || IndexFrees(x, budget, e))
  {
  }

  /** What became of a file the pass dealt with. */
  ghost predicate IndexDone(x: Start, f: DentryPriv, budget: nat, e: Failure)
    reads f
  {
    && FileOf(f) == IndexResult(x.file, budget, e)
    && f.writeError == (x.error || IndexReports(x.file, budget, e))
    && f.freed == (x.freed || IndexFrees(x, budget, e))
  }

  /** During the pass: a file is as it was, or it was dealt with. */
  ghost predicate Indexed(x: Start, f: DentryPriv, budget: nat, e: Failure)
    reads f
  {
    && (x.right ==> SizeRight(f))
    && (StartOf(f) == x || (Count(f.requests, IP) == 0 && IndexDone(x, f, budget, e)))
  }

  lemma IndexedFile(x: Start, f: DentryPriv, budget: nat, e: Failure)
    requires Indexed(x, f, budget, e) && Count(f.requests, IP) == 0
    ensures IndexDone(x, f, budget, e)
  {
    if StartOf(f) == x {
      NoneToDrop(x.file.l);
    }
  }

  ghost predicate MidIndex(files: seq<DentryPriv>, a: seq<Start>, budget: nat, e: Failure)
    reads files
  {
    |a| == |files| && forall j :: 0 <= j < |files| ==> Indexed(a[j], files[j], budget, e)
  }

  lemma HeadIsIndexed(files: seq<DentryPriv>, q: UnifiedData, f: DentryPriv) returns (k: nat)
    requires Coherent(files, q) && f in q.ipQueue
    ensures Manages(files, q, f, k) && Count(f.requests, IP) > 0
  {
    assert f in files;
    k :| 0 <= k < |files| && files[k] == f;
    assert Sound(f, q);
  }

  /** The file at the head of the index queue is dealt with. */
  method IndexHead(ghost files: seq<DentryPriv>, q: UnifiedData, f: DentryPriv, budget: nat, e: Failure,
    ghost a: seq<Start>)
    requires Coherent(files, q) && f in files && f in q.ipQueue && MidIndex(files, a, budget, e)
    modifies f, q, q.partition
    ensures Coherent(files, q) && MidIndex(files, a, budget, e) && |q.ipQueue| < old(|q.ipQueue|)
  {
    ghost var k := HeadIsIndexed(files, q, f);
    assert Indexed(a[k], f, budget, e);
    IndexFile(files, q, f, k, budget, e);
    assert Indexed(a[k], f, budget, e);
    assert forall j :: 0 <= j < |files| && j != k ==> files[j] != f;
  }

  /** What became of every file. */
  ghost predicate AllIndexed(files: seq<DentryPriv>, a: seq<Start>, budget: nat, e: Failure)
    reads files
  {
    |a| == |files| && forall j :: 0 <= j < |files| ==>
      IndexDone(a[j], files[j], budget, e) && (a[j].right ==> SizeRight(files[j]))
  }

  /** At the end no file has index-partition requests. */
  lemma NoneIndexed(files: seq<DentryPriv>, q: UnifiedData, a: seq<Start>, budget: nat, e: Failure)
    requires Coherent(files, q) && q.ipQueue == [] && MidIndex(files, a, budget, e)
    ensures AllIndexed(files, a, budget, e)
  {
    forall j | 0 <= j < |files| ensures IndexDone(a[j], files[j], budget, e) && (a[j].right ==> SizeRight(files[j])) {
      assert Sound(files[j], q) && Indexed(a[j], files[j], budget, e);
      IndexedFile(a[j], files[j], budget, e);
    }
  }

  /**
   _unified_process_index_queue over all files: the queue is emptied, and what becomes of every file, of
   the error kept for it and of its record follows from the writes that failed. An error that is kept in a
   record which is given back is not heard of.
   */
  method ProcessIndexQueue(ghost files: seq<DentryPriv>, q: UnifiedData, budget: nat, e: Failure)
    requires Coherent(files, q)
    modifies files, q, q.partition
    ensures Coherent(files, q) && q.ipQueue == [] && AllIndexed(files, old(Starts(files)), budget, e)
  {
    ghost var a := Starts(files);
    while |q.ipQueue| > 0
      invariant Coherent(files, q) && MidIndex(files, a, budget, e)
      decreases |q.ipQueue|
    {
      var f := q.ipQueue[0];
      assert f in files;
      IndexHead(files, q, f, budget, e, a);
    }
    NoneIndexed(files, q, a, budget, e);
  }

  // ---- Flushing every file ----

  /** During a flush of all files: a file is as it was, or it was flushed, and no error has been met. */
  ghost predicate Flushed(x: Start, f: DentryPriv, c: nat)
    reads f
  {
    Progressed(x.file, FileOf(f), true, c) && (x.right ==> SizeRight(f)) && (!x.error ==> !f.writeError)
  }

  ghost predicate MidFlush(files: seq<DentryPriv>, a: seq<Start>, c: nat)
    reads files
  {
    |a| == |files| && forall j :: 0 <= j < |files| ==> Flushed(a[j], files[j], c)
  }

  ghost predicate SizesKept(files: seq<DentryPriv>, a: seq<Start>)
    reads files
  {
    |a| == |files| && forall j :: 0 <= j < |files| && a[j].right ==> SizeRight(files[j])
  }

  /** A flush takes the file out of the queues it is in for the data partition. */
  method FlushServed(ghost files: seq<DentryPriv>, q: UnifiedData, f: DentryPriv, ghost k: nat, budget: nat, e: Failure)
    returns (ok: bool)
    requires Manages(files, q, f, k)
    modifies f, q
    ensures Coherent(files, q) && (old(SizeRight(f)) ==> SizeRight(f)) && !f.writeError
    ensures !old(f.writeError) && budget >= |old(f.requests)| ==> ok
    ensures ok ==> !Serves(FileOf(f), true) && FileOf(f) == Drained(old(FileOf(f)), true, q.cacheSize)
    ensures ok ==> |q.dpQueue| == old(|q.dpQueue|) - One(f in old(q.dpQueue))
    ensures ok ==> |q.workingSet| == old(|q.workingSet|) - One(f in old(q.workingSet))
  {
    ok := FlushFile(files, q, f, k, budget, e);
    if ok {
      OnlyIPServed(f);
      assert Sound(f, q);
      QueueShrinks(old(q.dpQueue), q.dpQueue, f);
      QueueShrinks(old(q.workingSet), q.workingSet, f);
    }
  }

  /** A file the flush has not come to yet is flushed. */
  method FlushOne(ghost files: seq<DentryPriv>, q: UnifiedData, f: DentryPriv, ghost k: nat, budget: nat, e: Failure,
    ghost x: Start)
    returns (ok: bool)
    requires Manages(files, q, f, k) && Serves(FileOf(f), true) && Flushed(x, f, q.cacheSize)
    modifies f, q
    ensures Coherent(files, q) && (x.right ==> SizeRight(f)) && (ok ==> Flushed(x, f, q.cacheSize))
    ensures !x.error && budget >= |x.file.l| ==> ok
    ensures ok ==> |q.dpQueue| == old(|q.dpQueue|) - One(f in old(q.dpQueue))
    ensures ok ==> |q.workingSet| == old(|q.workingSet|) - One(f in old(q.workingSet))
  {
    ok := FlushServed(files, q, f, k, budget, e);
  }

  /** The file at the head of a queue is flushed. */
  method FlushHead(ghost files: seq<DentryPriv>, q: UnifiedData, f: DentryPriv, budget: nat, e: Failure,
    ghost a: seq<Start>)
    returns (ok: bool)
    requires Coherent(files, q) && f in files && (f in q.dpQueue || f in q.workingSet)
    requires MidFlush(files, a, q.cacheSize)
    modifies f, q
    ensures Coherent(files, q) && SizesKept(files, a)
    ensures ok ==> MidFlush(files, a, q.cacheSize)
    ensures ok ==> |q.dpQueue| == old(|q.dpQueue|) - One(f in old(q.dpQueue))
    ensures ok ==> |q.workingSet| == old(|q.workingSet|) - One(f in old(q.workingSet))
    ensures Calm(a, budget) ==> ok
  {
    ghost var k := HeadIsServed(files, q, f, true);
    assert Flushed(a[k], files[k], q.cacheSize);
    ok := FlushOne(files, q, f, k, budget, e, a[k]);
    forall j | 0 <= j < |files| && j != k ensures Flushed(a[j], files[j], q.cacheSize) {
      assert files[j] != f;
    }
    FlushedOne(files, k, a, q.cacheSize, ok);
  }

  lemma FlushedOne(files: seq<DentryPriv>, k: nat, a: seq<Start>, c: nat, ok: bool)
    requires |a| == |files| && k < |files| && forall j :: 0 <= j < |files| && j != k ==> Flushed(a[j], files[j], c)
    requires a[k].right ==> SizeRight(files[k])
    requires ok ==> Flushed(a[k], files[k], c)
    ensures SizesKept(files, a) && (ok ==> MidFlush(files, a, c))
  {
  }

  /** No file has an earlier error to report, and enough tape writes will succeed. */
  predicate Calm(a: seq<Start>, budget: nat) {
    forall j :: 0 <= j < |a| ==> !a[j].error && budget >= |a[j].file.l|
  }

  lemma OnlyIPServed(f: DentryPriv)
    ensures OnlyIP(f.requests) <==> !Serves(FileOf(f), true)
  {
    CountZero(f.requests, DP);
    CountZero(f.requests, Partial);
  }

  lemma AllFlushed(files: seq<DentryPriv>, q: UnifiedData, a: seq<Start>)
    requires Coherent(files, q) && q.dpQueue == [] && q.workingSet == [] && MidFlush(files, a, q.cacheSize)
    requires forall j :: 0 <= j < |a| ==> Sized(a[j].file.l, q.cacheSize)
    ensures forall j :: 0 <= j < |files| ==>
      OnlyIP(files[j].requests) && FileOf(files[j]) == ServeOne(a[j].file, Partial, q.cacheSize)
  {
    NothingQueued(files, q, true);
    forall j | 0 <= j < |files|
      ensures OnlyIP(files[j].requests) && FileOf(files[j]) == ServeOne(a[j].file, Partial, q.cacheSize)
    {
      assert Flushed(a[j], files[j], q.cacheSize);
      OnlyIPServed(files[j]);
      PassedFile(a[j].file, FileOf(files[j]), true, q.cacheSize);
    }
  }

  /** The loop over the files with full requests. */
  method FlushFull(ghost files: seq<DentryPriv>, q: UnifiedData, budget: nat, e: Failure, ghost a: seq<Start>)
    returns (ok: bool)
    requires Coherent(files, q) && MidFlush(files, a, q.cacheSize)
    modifies files, q
    ensures Coherent(files, q) && SizesKept(files, a) && (Calm(a, budget) ==> ok)
    ensures ok ==> MidFlush(files, a, q.cacheSize) && q.dpQueue == []
  {
    ok := true;
    while |q.dpQueue| > 0
      invariant ok && Coherent(files, q) && MidFlush(files, a, q.cacheSize)
      decreases |q.dpQueue|
    {
      var f := q.dpQueue[0];
      assert f in files;
      ok := FlushHead(files, q, f, budget, e, a);
      if !ok {
        return;
      }
    }
    MidFlushSizes(files, a, q.cacheSize);
  }

  lemma MidFlushSizes(files: seq<DentryPriv>, a: seq<Start>, c: nat)
    requires MidFlush(files, a, c)
    ensures SizesKept(files, a)
  {
    assert forall j :: 0 <= j < |files| ==> Flushed(a[j], files[j], c);
  }

  /** The loop over the files with partial requests. */
  method FlushPartial(ghost files: seq<DentryPriv>, q: UnifiedData, budget: nat, e: Failure, ghost a: seq<Start>)
    returns (ok: bool)
    requires Coherent(files, q) && MidFlush(files, a, q.cacheSize) && q.dpQueue == []
    modifies files, q
    ensures Coherent(files, q) && SizesKept(files, a) && (Calm(a, budget) ==> ok)
    ensures ok ==> MidFlush(files, a, q.cacheSize) && q.dpQueue == [] && q.workingSet == []
  {
    ok := true;
    while |q.workingSet| > 0
      invariant ok && Coherent(files, q) && MidFlush(files, a, q.cacheSize) && q.dpQueue == []
      decreases |q.workingSet|
    {
      var f := q.workingSet[0];
      assert f in files;
      ok := FlushHead(files, q, f, budget, e, a);
      if !ok {
        return;
      }
    }
    MidFlushSizes(files, a, q.cacheSize);
  }

  /** No file has anything left for the data partition, and each is what a full pass makes of it. */
  ghost predicate AllServed(files: seq<DentryPriv>, a: seq<Start>, c: nat)
    reads files
  {
    |a| == |files| && forall j :: 0 <= j < |files| ==>
      Sized(a[j].file.l, c) && OnlyIP(files[j].requests) && FileOf(files[j]) == ServeOne(a[j].file, Partial, c)
  }

  /**
   _unified_flush_all: files with full requests, then files with partial ones, until a flush fails. After
   success no file has anything left for the data partition, and each is what a full pass makes of it.
   */
  method FlushAll(ghost files: seq<DentryPriv>, q: UnifiedData, budget: nat, e: Failure) returns (ok: bool)
    requires Coherent(files, q)
    modifies files, q
    ensures Coherent(files, q) && SizesKept(files, old(Starts(files)))
    ensures ok ==> q.dpQueue == [] && q.workingSet == [] && AllServed(files, old(Starts(files)), q.cacheSize)
    ensures Calm(old(Starts(files)), budget) ==> ok
  {
    ghost var a := Starts(files);
    CoherentIsSized(files, q);
    ok := FlushFull(files, q, budget, e, a);
    if ok {
      ok := FlushPartial(files, q, budget, e, a);
    }
    if ok {
      AllFlushed(files, q, a);
    }
  }

  // ---- The background thread ----

  lemma {:induction false} ServeByFile(a: seq<File>, b: seq<File>, queue: State, c: nat)
    requires |a| == |b| && (forall j :: 0 <= j < |a| ==> Sized(a[j].l, c))
    requires forall j :: 0 <= j < |a| ==> b[j] == ServeOne(a[j], queue, c)
    ensures b == Serve(a, queue, c)
  {
    if a != [] {
      ServeByFile(a[1..], b[1..], queue, c);
      assert b == [b[0]] + b[1..];
    }
  }

  /** If no write fails the index-partition pass drops exactly the index-partition requests. */
  lemma EnoughIndexed(a: seq<File>, budget: nat, e: Failure)
    ensures forall j :: 0 <= j < |a| && budget >= |a[j].l| ==>
      IndexResult(a[j], budget, e) == a[j].(l := DropIP(a[j].l))
  {
  }

  /**
   One turn of _unified_writer_thread with `waiting` writers waiting for one of the `m` cache blocks. The
   shared counters decide which queue is served, and they decide as the requests themselves would.
   */
  method WriterTurn(ghost files: seq<DentryPriv>, q: UnifiedData, m: nat, waiting: nat, budget: nat, e: Failure)
    requires Coherent(files, q)
    requires forall j :: 0 <= j < |files| ==> Sized(files[j].requests, q.cacheSize)
    modifies files, q, q.partition
    ensures Coherent(files, q)
    ensures old(Enough(files, budget)) ==>
      FilesOf(files) == Serve(old(FilesOf(files)), Choice(old(FilesOf(files)), m, waiting), q.cacheSize)
  {
    ghost var a := FilesOf(files);
    if waiting == 0 || q.dpRequestCount > 2 * waiting {
      ProcessDataQueue(files, q, false, budget, e);
    } else if q.ipRequestCount < Watermark(m) {
      ProcessDataQueue(files, q, true, budget, e);
    } else {
      ProcessIndexQueue(files, q, budget, e);
    }
    if old(Enough(files, budget)) {
      EnoughIndexed(a, budget, e);
      ServeByFile(a, FilesOf(files), Choice(a, m, waiting), q.cacheSize);
    }
  }

  /** A flushed file has its contents on tape, so its index-partition requests can go. */
  lemma ServedTape(x: File, c: nat)
    requires Good(x, Volume(c, 0))
    ensures ServeOne(x, Partial, c).tape == Contents(x)
  {
    if Serves(x, true) {
      if x.writeIp {
        FlushForIndexPartition(x, Volume(c, 0), 0);
      } else {
        FlushForDataPartition(x, Volume(c, 0));
      }
    } else {
      NothingServed(x.l);
      AllIPDropped(x.l);
      DropIPView(x.l, x.tape, c);
      assert View([], x.tape) == x.tape;
    }
  }

  lemma NothingServed(l: seq<Request>)
    requires Count(l, DP) == 0 && Count(l, Partial) == 0
    ensures OnlyIP(l)
  {
    CountZero(l, DP);
    CountZero(l, Partial);
  }

  /** What a flush of all files and the index-partition pass after it leave of a file. */
  ghost predicate Emptied(x: Start, f: DentryPriv, c: nat)
    reads f
  {
    f.requests == [] && (Good(x.file, Volume(c, 0)) ==> f.tape == Contents(x.file))
  }

  lemma EmptiedByBoth(x: Start, y: File, budget: nat, e: Failure, c: nat)
    requires Sized(x.file.l, c) && y == ServeOne(x.file, Partial, c) && OnlyIP(y.l)
    ensures var z := IndexResult(y, budget, e);
      z.l == [] && (Good(x.file, Volume(c, 0)) ==> z.tape == Contents(x.file))
  {
    AllIPDropped(y.l);
    if Good(x.file, Volume(c, 0)) {
      ServedTape(x.file, c);
    }
  }

  /**
   The last turn, when the thread is to stop: everything is flushed, then the index partition is written.
   Unless a flush fails no file has a request left, and the tape file of a file in order is the file, even if
   writes to the index partition fail.
   */
  method WriterStops(ghost files: seq<DentryPriv>, q: UnifiedData, budget: nat, e: Failure) returns (ok: bool)
    requires Coherent(files, q)
    modifies files, q, q.partition
    ensures Coherent(files, q) && q.ipQueue == [] && (Calm(old(Starts(files)), budget) ==> ok)
    ensures ok ==> forall j :: 0 <= j < |files| ==> Emptied(old(StartOf(files[j])), files[j], q.cacheSize)
  {
    ghost var a, c := Starts(files), q.cacheSize;
    ok := FlushAll(files, q, budget, e);
    ghost var b := Starts(files);
    ProcessIndexQueue(files, q, budget, e);
    if ok {
      forall j | 0 <= j < |files| ensures Emptied(a[j], files[j], c) {
        EmptiedByBoth(a[j], b[j].file, budget, e, c);
        assert IndexDone(b[j], files[j], budget, e);
      }
    }
  }

  lemma {:induction false} HeldBounds(files: seq<DentryPriv>)
    ensures forall j :: 0 <= j < |files| ==> |files[j].requests| <= Held(FilesOf(files))
  {
    if files != [] {
      HeldBounds(files[1..]);
      assert FilesOf(files)[1..] == FilesOf(files[1..]);
      forall j | 0 <= j < |files| ensures |files[j].requests| <= Held(FilesOf(files)) {
        assert j > 0 ==> files[j] == files[1..][j - 1];
      }
    }
  }

  lemma CoherentIsServable(files: seq<DentryPriv>, q: UnifiedData)
    requires Coherent(files, q)
    ensures AllServable(FilesOf(files), q.cacheSize)
  {
    forall j | 0 <= j < |files| ensures Servable(FilesOf(files)[j], q.cacheSize) {
      assert Sound(files[j], q);
    }
  }

  /**
   The loop of the background thread, two turns of it: if queued requests hold every block of a pool of
   at least two, writers wait, and no tape write fails, a block is free afterwards. Nothing is asked of
   the files, whatever was written to them and in whatever order their requests are.
   */
  method TwoTurns(ghost files: seq<DentryPriv>, q: UnifiedData, m: nat, waiting: nat, later: nat, budget: nat,
    e: Failure)
    requires Coherent(files, q)
    requires Held(FilesOf(files)) == m && m >= 2 && waiting > 0 && later > 0 && budget >= m
    modifies files, q, q.partition
    ensures Coherent(files, q) && Held(FilesOf(files)) < m
  {
    ghost var a, c := FilesOf(files), q.cacheSize;
    CoherentIsServable(files, q);
    TwoPassesFreeABlock(a, c, m, waiting, later);
    ServeShrinks(a, Choice(a, m, waiting), c);
    CoherentIsSized(files, q);
    HeldBounds(files);
    WriterTurn(files, q, m, waiting, budget, e);
    ghost var b := FilesOf(files);
    assert b == Serve(a, Choice(a, m, waiting), c);
    ServeShrinks(b, Choice(b, m, later), c);
    CoherentIsSized(files, q);
    HeldBounds(files);
    WriterTurn(files, q, m, later, budget, e);
  }
}
