/**
 Why a writer waiting for a cache block gets one: the choice of queue by _unified_writer_thread
 (src/iosched/unified.c) frees a block within two passes.
 */
module Progress {
  import opened Bytes
  import opened Requests
  import opened RequestOps
  import opened UnifiedDrain
  import opened UnifiedSweep
  import opened Counts
  import opened FileRun

  /** The number of cache blocks held by queued requests. */
  function Held(files: seq<File>): nat {
    if files == [] then 0 else |files[0].l| + Held(files[1..])
  }

  /** Full requests whose block is free once they are written. */
  function FreeableDP(files: seq<File>): nat {
    if files == [] then 0
    else (if files[0].writeIp then 0 else Count(files[0].l, DP)) + FreeableDP(files[1..])
  }

  function TotalPartial(files: seq<File>): nat {
    if files == [] then 0 else Count(files[0].l, Partial) + TotalPartial(files[1..])
  }

  function TotalIP(files: seq<File>): nat {
    if files == [] then 0 else Count(files[0].l, IP) + TotalIP(files[1..])
  }

  /** IP_HIGH_WATERMARK of the pool, six tenths of its `m` blocks rounded down. */
  function Watermark(m: nat): nat { m * 6 / 10 }

  /** Which queue the writer thread serves while `waiting` writers wait for a block, full requests if none does. */
  function Choice(files: seq<File>, m: nat, waiting: nat): State {
    if waiting == 0 || FreeableDP(files) > 2 * waiting then DP
    else if TotalIP(files) < Watermark(m) then Partial
    else IP
  }

  /** One pass over one file: only files linked in a served queue are touched. */
  function ServeOne(f: File, queue: State, c: nat): File
    requires Sized(f.l, c)
  {
    if queue == IP then f.(l := DropIP(f.l))
    else if Count(f.l, DP) > 0 || (queue == Partial && Count(f.l, Partial) > 0) then
      Drained(f, queue == Partial, c)
    else f
  }

  /**
   What every operation keeps of a file, whatever the order of its list: requests hold between one byte
   and one block, and only a file placed on the index partition has requests for it.
   */
  ghost predicate Servable(f: File, c: nat) {
    1 <= c && Sized(f.l, c) && (!f.writeIp ==> NoIP(f.l))
  }

  ghost predicate AllServable(files: seq<File>, c: nat) {
    forall j :: 0 <= j < |files| ==> Servable(files[j], c)
  }

  /** One pass of the writer thread over all files. */
  function Serve(files: seq<File>, queue: State, c: nat): seq<File>
    requires forall j :: 0 <= j < |files| ==> Sized(files[j].l, c)
  {
    if files == [] then [] else [ServeOne(files[0], queue, c)] + Serve(files[1..], queue, c)
  }

  ghost predicate SomeSelected(l: seq<Request>, i: nat, all: bool) {
    exists j :: i <= j < |l| && Selected(l[j], all)
  }

  /** A merge of an index-partition request keeps the requests that are selected behind it. */
  lemma SomeStay(l: seq<Request>, i: nat, all: bool, c: nat)
    requires i < |l| && Sized(l, c) && l[i].state == IP && SomeSelected(l, i, all)
    ensures var m := MergeBack(l, i, c); SomeSelected(m.list, if m.result == 2 then i else i + 1, all)
  {
    var m := MergeBack(l, i, c);
    MergeBackSized(l, i, c);
    MergeBackStates(l, i, c);
    var j :| i <= j < |l| && Selected(l[j], all);
    assert Selected(m.list[if m.result == 2 then j - 1 else j], all);
  }

  /** One turn never queues more than there was; it detaches a request, or leaves the selected ones ahead. */
  lemma SweepOnceShrinks(m: Midway, all: bool, writeIp: bool, c: nat)
    requires m.i < |m.l| && Sized(m.l, c)
    ensures var n := SweepOnce(m, all, writeIp, c);
      |n.l| <= |m.l| && (!writeIp && SomeSelected(m.l, m.i, all) ==> |n.l| < |m.l| || SomeSelected(n.l, n.i, all))
  {
    if m.l[m.i].state == IP {
      MergeBackSized(m.l, m.i, c);
      if SomeSelected(m.l, m.i, all) {
        SomeStay(m.l, m.i, all, c);
      }
    } else if !Selected(m.l[m.i], all) {
      assert SomeSelected(m.l, m.i, all) ==> SomeSelected(m.l, m.i + 1, all);
    } else if writeIp {
      MergeBackSized(ToIP(m.l, m.i), m.i, c);
    }
  }

  /** A pass never queues more than there was; a file it detaches from gets shorter. */
  lemma {:induction false} SweepShrinks(l: seq<Request>, i: nat, tape: seq<byte>, local: seq<Request>,
    all: bool, writeIp: bool, c: nat)
    requires i <= |l| && Sized(l, c)
    ensures var s := Sweep(l, i, tape, local, all, writeIp, c);
      |s.l| <= |l| && (!writeIp && SomeSelected(l, i, all) ==> |s.l| < |l|)
    decreases |l| - i
  {
    if i < |l| {
      var m := Midway(l, i, tape, local);
      SweepByTurns(m, all, writeIp, c);
      SweepOnceShrinks(m, all, writeIp, c);
      var n := SweepOnce(m, all, writeIp, c);
      SweepShrinks(n.l, n.i, n.tape, n.local, all, writeIp, c);
    }
  }

  lemma {:induction false} DropIPLength(l: seq<Request>)
    ensures |DropIP(l)| == |l| - Count(l, IP)
  {
    if l != [] {
      DropIPLength(l[1..]);
    }
  }

  lemma ServeOneServable(f: File, queue: State, c: nat)
    requires Servable(f, c)
    ensures Servable(ServeOne(f, queue, c), c) && ServeOne(f, queue, c).writeIp == f.writeIp
  {
    DropIPSized(f.l, c);
    if !f.writeIp {
      NoIPKept(f.l);
      SweepNoIP(f.l, 0, f.tape, [], queue == Partial, c);
    }
    SweepSized(f.l, 0, f.tape, [], queue == Partial, f.writeIp, c);
  }

  /** A served file holds no more blocks than before, and fewer if it had any to give. */
  lemma ServeOneShrinks(f: File, queue: State, c: nat)
    requires Servable(f, c)
    ensures var g := ServeOne(f, queue, c);
      && |g.l| <= |f.l|
      && (queue == IP && Count(f.l, IP) > 0 ==> |g.l| < |f.l|)
      && (queue != IP && !f.writeIp && Count(f.l, DP) > 0 ==> |g.l| < |f.l|)
      && (queue == Partial && !f.writeIp && f.l != [] ==> |g.l| < |f.l|)
  {
    var all := queue == Partial;
    CountZero(f.l, IP);
    CountZero(f.l, DP);
    CountZero(f.l, Partial);
    DropIPLength(f.l);
    SweepShrinks(f.l, 0, f.tape, [], all, f.writeIp, c);
    if Count(f.l, DP) > 0 {
      var j :| 0 <= j < |f.l| && f.l[j].state == DP;
      assert Selected(f.l[j], all);
    }
    if all && !f.writeIp && f.l != [] {
      assert Selected(f.l[0], all);
    }
  }

  /** Some file holds requests whose blocks are free once they are written. */
  ghost predicate SomeFreeable(files: seq<File>) {
    exists j :: 0 <= j < |files| && !files[j].writeIp && files[j].l != []
  }

  lemma {:induction false} ServeShrinks(files: seq<File>, queue: State, c: nat)
    requires AllServable(files, c)
    ensures var g := Serve(files, queue, c);
      && AllServable(g, c) && |g| == |files| && Held(g) <= Held(files)
      && (queue == IP && TotalIP(files) > 0 ==> Held(g) < Held(files))
      && (queue == DP && FreeableDP(files) > 0 ==> Held(g) < Held(files))
      && (queue == Partial && SomeFreeable(files) ==> Held(g) < Held(files))
  {
    if files != [] {
      ServeOneServable(files[0], queue, c);
      ServeOneShrinks(files[0], queue, c);
      assert AllServable(files[1..], c);
      ServeShrinks(files[1..], queue, c);
      var h := Serve(files[1..], queue, c);
      forall j | 0 <= j < |h| + 1 ensures Servable(([ServeOne(files[0], queue, c)] + h)[j], c) {
        assert j > 0 ==> Servable(h[j - 1], c);
      }
      if j :| 0 <= j < |files| && !files[j].writeIp && files[j].l != [] && j > 0 {
        assert files[1..][j - 1] == files[j];
      }
    }
  }

  lemma ServedPartial(f: File, c: nat)
    requires Servable(f, c)
    ensures OnlyIP(ServeOne(f, Partial, c).l)
  {
    CountZero(f.l, DP);
    CountZero(f.l, Partial);
    DrainedOnlyIP(f, c);
  }

  lemma {:induction false} AllServedPartial(files: seq<File>, c: nat)
    requires AllServable(files, c) && forall j :: 0 <= j < |files| ==> files[j].writeIp || files[j].l == []
    ensures var g := Serve(files, Partial, c); TotalIP(g) == Held(g) && FreeableDP(g) == 0
  {
    if files != [] {
      AllServedPartial(files[1..], c);
      ServedPartial(files[0], c);
      ServeOneShrinks(files[0], Partial, c);
      ServeOneServable(files[0], Partial, c);
      var f := ServeOne(files[0], Partial, c);
      CountZero(f.l, IP);
      CountZero(f.l, DP);
    }
  }

  /**
   If every block of a pool of at least two is held by queued requests, a writer waits, and no
   tape write fails, two passes of the writer thread free at least one block.
   */
  lemma TwoPassesFreeABlock(files: seq<File>, c: nat, m: nat, waiting: nat, later: nat)
    requires AllServable(files, c) && Held(files) == m && m >= 2 && waiting >= 1 && later >= 1
    ensures var g := Serve(files, Choice(files, m, waiting), c);
      AllServable(g, c) && (Held(g) < m || Held(Serve(g, Choice(g, m, later), c)) < m)
  {
    var queue := Choice(files, m, waiting);
    ServeShrinks(files, queue, c);
    var g := Serve(files, queue, c);
    if queue == Partial && Held(g) == m {
      AllServedPartial(files, c);
      ServeShrinks(g, IP, c);
    }
  }

  // ---- Exactly when a block is freed ----

  /** The turns of the writer thread, `waits` being the numbers of writers that wait at each. */
  ghost function Turns(files: seq<File>, m: nat, waits: seq<nat>, c: nat): (g: seq<File>)
    requires AllServable(files, c)
    ensures AllServable(g, c) && Held(g) <= Held(files)
    decreases |waits|
  {
    if waits == [] then files
    else
      ServeShrinks(files, Choice(files, m, waits[0]), c);
      Turns(Serve(files, Choice(files, m, waits[0]), c), m, waits[1..], c)
  }

  lemma {:induction false} CountsWithin(files: seq<File>)
    ensures FreeableDP(files) + TotalIP(files) <= Held(files)
  {
    if files != [] {
      CountsWithin(files[1..]);
      CountTwo(files[0].l);
    }
  }

  lemma {:induction false} CountTwo(l: seq<Request>)
    ensures Count(l, DP) + Count(l, IP) <= |l|
  {
    if l != [] {
      CountTwo(l[1..]);
    }
  }

  /** The index-partition pass frees exactly the blocks of index-partition requests. */
  lemma {:induction false} IndexPassFrees(files: seq<File>, c: nat)
    requires forall j :: 0 <= j < |files| ==> Sized(files[j].l, c)
    ensures var g := Serve(files, IP, c); Held(g) == Held(files) - TotalIP(files) && TotalIP(g) == 0
  {
    if files != [] {
      IndexPassFrees(files[1..], c);
      DropIPLength(files[0].l);
      NoneCounted(files[0].l);
    }
  }

  lemma {:induction false} NoneCounted(l: seq<Request>)
    ensures Count(DropIP(l), IP) == 0
  {
    if l != [] {
      NoneCounted(l[1..]);
    }
  }

  /** With a pool of one block the high watermark rounds down to zero: only index-partition requests are served. */
  lemma OneBlockChoice(files: seq<File>, waiting: nat)
    requires Held(files) <= 1 && waiting >= 1
    ensures Choice(files, 1, waiting) == IP
  {
    CountsWithin(files);
  }

  /** So a block held by any other request is never freed, however many turns are taken. */
  lemma {:induction false} NeverFreed(files: seq<File>, c: nat, waits: seq<nat>)
    requires AllServable(files, c) && Held(files) == 1 && TotalIP(files) == 0
    requires forall k :: 0 <= k < |waits| ==> waits[k] >= 1
    ensures Held(Turns(files, 1, waits, c)) == 1
    decreases |waits|
  {
    if waits != [] {
      ServeShrinks(files, Choice(files, 1, waits[0]), c);
      OneBlockChoice(files, waits[0]);
      IndexPassFrees(files, c);
      NeverFreed(Serve(files, IP, c), c, waits[1..]);
    }
  }

  /**
   When every block is held by queued requests, writers keep waiting and no tape write fails, a block
   is freed in two or more turns if and only if the pool has at least two blocks or the request that
   holds its only one is an index-partition request.
   */
  lemma BlockFreedExactly(files: seq<File>, c: nat, m: nat, waits: seq<nat>)
    requires AllServable(files, c) && Held(files) == m && m >= 1
    requires |waits| >= 2 && forall k :: 0 <= k < |waits| ==> waits[k] >= 1
    ensures Held(Turns(files, m, waits, c)) < m <==> m >= 2 || TotalIP(files) == 1
  {
    var g := Serve(files, Choice(files, m, waits[0]), c);
    ServeShrinks(files, Choice(files, m, waits[0]), c);
    CountsWithin(files);
    if m >= 2 {
      TwoPassesFreeABlock(files, c, m, waits[0], waits[1]);
      ServeShrinks(g, Choice(g, m, waits[1]), c);
      assert Turns(files, m, waits, c) == Turns(Serve(g, Choice(g, m, waits[1]), c), m, waits[2..], c) by {
        assert waits[1..][1..] == waits[2..] && waits[1..][0] == waits[1];
      }
    } else if TotalIP(files) == 1 {
      OneBlockChoice(files, waits[0]);
      assert Turns(files, m, waits, c) == Turns(g, m, waits[1..], c);
    } else {
      NeverFreed(files, c, waits);
    }
  }
}
