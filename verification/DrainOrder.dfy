/**
 What a flush puts on tape when the list is out of order, as a write that is not clean leaves it
 (src/iosched/unified.c: unified_read, _unified_flush_unlocked): a read takes a byte from the first
 request that has it, but on tape the last one wins.
 */
module DrainOrder {
  import opened Bytes
  import opened Requests
  import opened RequestOps
  import opened UnifiedDrain
  import opened UnifiedSweep
  import opened UnifiedWrite
  import opened WriteTame
  import opened FileRun

  /** The byte the last request covering `x` holds for it. */
  function LookupLast(l: seq<Request>, x: nat): Option<byte> {
    if l == [] then None
    else
      var r := LookupLast(l[1..], x);
      if r.Some? then r
      else if l[0].Covers(x) then Some(l[0].data[x - l[0].offset])
      else None
  }

  /** A flush of a file for the data partition takes every request out, in the order of the list. */
  lemma {:induction false} SweepTakesAll(l: seq<Request>, tape: seq<byte>, local: seq<Request>, c: nat)
    requires Sized(l, c) && NoIP(l)
    ensures Sweep(l, 0, tape, local, true, false, c) == Swept([], tape, local + l)
    decreases |l|
  {
    if l == [] {
      assert local + l == local;
    } else {
      assert Remove(l, 0) == l[1..] && Selected(l[0], true);
      SweepTakesAll(l[1..], tape, local + [l[0]], c);
      assert local + [l[0]] + l[1..] == local + l;
    }
  }

  lemma {:induction false} LastWins(l: seq<Request>, tape: seq<byte>, c: nat)
    requires Sized(l, c)
    ensures |WriteAll(l, tape)| == Size(l, tape)
    ensures forall x: nat :: x < Size(l, tape) ==>
      WriteAll(l, tape)[x] ==
        if LookupLast(l, x).Some? then LookupLast(l, x).value else if x < |tape| then tape[x] else 0
  {
    if l != [] {
      var t := Overlay(tape, l[0].offset, l[0].data);
      LastWins(l[1..], t, c);
      SizeTape(l[1..], tape, t);
      SizeBound(l[1..], t);
      SizeBound(l[1..], tape);
    }
  }

  /** For every byte the first request that has it and the last one agree. */
  ghost predicate EndsAgree(l: seq<Request>) {
    forall x: nat :: LookupLast(l, x) == Lookup(l, x)
  }

  lemma {:induction false} LastAndFirst(l: seq<Request>, x: nat)
    ensures LookupLast(l, x).Some? <==> Lookup(l, x).Some?
  {
    if l != [] {
      LastAndFirst(l[1..], x);
    }
  }

  lemma FileOrTape(l: seq<Request>, tape: seq<byte>, x: nat)
    requires x < Size(l, tape)
    ensures View(l, tape)[x] == if Lookup(l, x).Some? then Lookup(l, x).value else if x < |tape| then tape[x] else 0
  {
  }

  /**
   On any list for the data partition, whatever its order, a flush puts on tape what reads of the file
   return if and only if for every byte the first request that has it and the last one agree.
   */
  lemma FlushKeepsFileExactly(f: File, c: nat)
    requires Sized(f.l, c) && NoIP(f.l) && !f.writeIp
    ensures Drained(f, true, c).l == []
    ensures Drained(f, true, c).tape == View(f.l, f.tape) <==> EndsAgree(f.l)
  {
    SweepTakesAll(f.l, f.tape, [], c);
    assert [] + f.l == f.l;
    LastWins(f.l, f.tape, c);
    var t := WriteAll(f.l, f.tape);
    if t == View(f.l, f.tape) {
      forall x: nat ensures LookupLast(f.l, x) == Lookup(f.l, x) {
        LastAndFirst(f.l, x);
        if Lookup(f.l, x).Some? {
          var j := LookupSome(f.l, x);
          SizeBound(f.l, f.tape);
          FileOrTape(f.l, f.tape, x);
        }
      }
    }
    if EndsAgree(f.l) {
      forall x: nat | x < |t| ensures t[x] == View(f.l, f.tape)[x] {
        FileOrTape(f.l, f.tape, x);
      }
    }
  }

  /** Ten old bytes in the middle of sixty. */
  lemma OneInside(l: seq<Request>, x: nat)
    requires |l| == 2 && l[0].offset == 0 && |l[0].data| == 60 && l[1] == TwoApart()[1] && 20 <= x < 30
    ensures Size(l, []) == 60 && View(l, [])[x] == l[0].data[x] && LookupLast(l, x) == Some(0)
  {
    assert l[1..] == [l[1]] && l[1..][1..] == [];
    assert Size(l, []) == Max(60, Size(l[1..], []));
    assert LookupLast(l[1..], x) == Some(0);
  }

  /**
   The write that leaves stale bytes behind, followed by a flush: the old bytes of [20, 30) are on tape
   in place of those that were written and that a read before the flush returned.
   */
  lemma StaleBytesReachTape(d: seq<byte>, x: nat)
    requires |d| == 55 && 20 <= x < 30
    ensures var f := File(Attempt(TwoApart(), 5, d, 64, 2).l, [], false);
      && Sized(f.l, 64) && |Drained(f, true, 64).tape| == 60 == |View(f.l, [])|
      && View(f.l, [])[x] == d[x - 5] && Drained(f, true, 64).tape[x] == 0
  {
    UntameWriteLeavesStaleBytes(d);
    AttemptSized(TwoApart(), 5, d, 64, 2);
    var l := Attempt(TwoApart(), 5, d, 64, 2).l;
    SweepTakesAll(l, [], [], 64);
    assert [] + l == l;
    LastWins(l, [], 64);
    OneInside(l, x);
    assert l[0].data[5..][x - 5] == l[0].data[x];
  }
}
