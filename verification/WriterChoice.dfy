/**
 What a turn of the background thread does for the writers that wait (src/iosched/unified.c:
 _unified_writer_thread): which requests it goes for, stated by what is gone afterwards and what is still
 there, so that both thresholds are settled.
 */
module WriterChoice {
  import opened Requests
  import opened UnifiedDrain
  import opened UnifiedSweep
  import opened Counts
  import opened SweepCounts
  import opened FileRun
  import opened Progress

  /** The high watermark is the greatest number of blocks that is no more than six tenths of the pool. */
  lemma MarkIsSixTenths(m: nat)
    ensures 5 * Watermark(m) <= 3 * m < 5 * (Watermark(m) + 1)
  {
  }

  /** A pass over one file's full requests: each that is for the data partition alone gives its block back. */
  lemma ServeOneFull(f: File, c: nat)
    requires Servable(f, c)
    ensures var g := ServeOne(f, DP, c);
      && Count(g.l, Partial) == Count(f.l, Partial)
      && |g.l| + (if f.writeIp then 0 else Count(f.l, DP)) <= |f.l|
  {
    PassKeepsPartial(f.l, 0, f.tape, [], f.writeIp, c);
    SweepShrinks(f.l, 0, f.tape, [], false, f.writeIp, c);
    if !f.writeIp {
      PassTakesFull(f.l, 0, f.tape, [], c);
      assert f.l[0..] == f.l && f.l[..0] == [];
      OnlyCount(f.l, Partial);
      CountThree(f.l);
    }
  }

  lemma {:induction false} CountThree(l: seq<Request>)
    ensures Count(l, Partial) + Count(l, DP) + Count(l, IP) == |l|
  {
    if l != [] {
      CountThree(l[1..]);
    }
  }

  lemma {:induction false} ServeFull(files: seq<File>, c: nat)
    requires AllServable(files, c)
    ensures var g := Serve(files, DP, c);
      Held(g) + FreeableDP(files) <= Held(files) && TotalPartial(g) == TotalPartial(files)
  {
    if files != [] {
      ServeOneFull(files[0], c);
      assert AllServable(files[1..], c);
      ServeFull(files[1..], c);
    }
  }

  lemma {:induction false} ServeIndex(files: seq<File>, c: nat)
    requires AllServable(files, c)
    ensures var g := Serve(files, IP, c);
      TotalPartial(g) == TotalPartial(files) && FreeableDP(g) == FreeableDP(files)
  {
    if files != [] {
      DropKeepsOthers(files[0].l, Partial);
      DropKeepsOthers(files[0].l, DP);
      assert AllServable(files[1..], c);
      ServeIndex(files[1..], c);
    }
  }

  lemma {:induction false} DropKeepsOthers(l: seq<Request>, q: State)
    requires q != IP
    ensures Count(DropIP(l), q) == Count(l, q)
  {
    if l != [] {
      DropKeepsOthers(l[1..], q);
      if l[0].state != IP {
        CountCons(l[0], DropIP(l[1..]), q);
      }
    }
  }

  /** With no writer waiting a turn gives back every full request's block it may, and takes no partial request. */
  lemma NoneWaits(files: seq<File>, c: nat, m: nat)
    requires AllServable(files, c)
    ensures var g := Serve(files, Choice(files, m, 0), c);
      Held(g) + FreeableDP(files) <= Held(files) && TotalPartial(g) == TotalPartial(files)
  {
    ServeFull(files, c);
  }

  /**
   With more than two full requests for each writer that waits, a turn gives back more than two blocks for
   each, and no partial request is taken for it.
   */
  lemma FullRequestsFirst(files: seq<File>, c: nat, m: nat, waiting: nat)
    requires AllServable(files, c) && FreeableDP(files) > 2 * waiting
    ensures var g := Serve(files, Choice(files, m, waiting), c);
      Held(g) + 2 * waiting < Held(files) && TotalPartial(g) == TotalPartial(files)
  {
    ServeFull(files, c);
  }

  /**
   Otherwise, once index-partition requests hold six tenths of the pool, a turn takes all of those, and
   nothing else.
   */
  lemma IndexRequestsAtTheMark(files: seq<File>, c: nat, m: nat, waiting: nat)
    requires AllServable(files, c) && 0 < waiting && FreeableDP(files) <= 2 * waiting
    requires 5 * (TotalIP(files) + 1) > 3 * m
    ensures var g := Serve(files, Choice(files, m, waiting), c);
      && TotalIP(g) == 0 && Held(g) == Held(files) - TotalIP(files)
      && TotalPartial(g) == TotalPartial(files) && FreeableDP(g) == FreeableDP(files)
  {
    MarkIsSixTenths(m);
    IndexPassFrees(files, c);
    ServeIndex(files, c);
  }

  /** And below that mark a turn leaves no file a request for the data partition, partial ones included. */
  lemma AllRequestsBelowTheMark(files: seq<File>, c: nat, m: nat, waiting: nat)
    requires AllServable(files, c) && 0 < waiting && FreeableDP(files) <= 2 * waiting
    requires 5 * (TotalIP(files) + 1) <= 3 * m
    ensures var g := Serve(files, Choice(files, m, waiting), c);
      |g| == |files| && forall j :: 0 <= j < |g| ==> OnlyIP(g[j].l)
  {
    MarkIsSixTenths(m);
    ServePartial(files, c);
  }

  lemma {:induction false} ServePartial(files: seq<File>, c: nat)
    requires AllServable(files, c)
    ensures var g := Serve(files, Partial, c); |g| == |files| && forall j :: 0 <= j < |g| ==> OnlyIP(g[j].l)
  {
    if files != [] {
      assert AllServable(files[1..], c);
      ServePartial(files[1..], c);
      ServedPartial(files[0], c);
    }
  }
}
