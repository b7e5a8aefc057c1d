/**
 What a pass leaves in the list of a file that is placed on the index partition (src/iosched/unified.c:
 _unified_flush_unlocked, _unified_process_data_queue): every byte that was there, those the pass has put on
 tape now queued for the index partition, in requests joined as far as their blocks allow.
 */
module SweepQueue {
  import opened Bytes
  import opened Requests
  import opened RequestOps
  import opened RequestStates
  import opened UnifiedSweep
  import opened WritePaint

  // ---- Every byte stays ----

  lemma ToIPWellFormed(l: seq<Request>, i: nat, c: nat)
    requires i < |l| && WellFormed(l, c)
    ensures WellFormed(ToIP(l, i), c)
  {
  }

  lemma MergeBackLookup(l: seq<Request>, i: nat, c: nat, x: nat)
    requires i < |l| && WellFormed(l, c)
    ensures Lookup(MergeBack(l, i, c).list, x) == Lookup(l, x)
  {
    if i > 0 {
      LookupMerge(l, i, c, x);
    }
  }

  lemma OnceKeepsOrder(m: Midway, all: bool, c: nat)
    requires m.i < |m.l| && WellFormed(m.l, c)
    ensures WellFormed(SweepOnce(m, all, true, c).l, c)
  {
    if m.l[m.i].state == IP {
      MergeBackWellFormed(m.l, m.i, c);
    } else if Selected(m.l[m.i], all) {
      ToIPWellFormed(m.l, m.i, c);
      MergeBackWellFormed(ToIP(m.l, m.i), m.i, c);
    }
  }

  lemma OnceKeepsByte(m: Midway, all: bool, c: nat, x: nat)
    requires m.i < |m.l| && WellFormed(m.l, c)
    ensures Lookup(SweepOnce(m, all, true, c).l, x) == Lookup(m.l, x)
  {
    if m.l[m.i].state == IP {
      MergeBackLookup(m.l, m.i, c, x);
    } else if Selected(m.l[m.i], all) {
      ToIPWellFormed(m.l, m.i, c);
      MergeBackLookup(ToIP(m.l, m.i), m.i, c, x);
      LookupSameData(m.l, ToIP(m.l, m.i), x);
    }
  }

  /** The requests from `i` on that the pass takes, for the index partition. */
  function ToIPFrom(l: seq<Request>, i: nat, all: bool): (m: seq<Request>)
    ensures |m| == |l|
  {
    seq(|l|, j requires 0 <= j < |l| => if i <= j && Selected(l[j], all) then l[j].(state := IP) else l[j])
  }

  /** Where the loop goes on after a merge at `i`. */
  function GoesOnAt(m: Merge, i: nat): nat {
    if m.result == 2 then i else i + 1
  }

  /** The lists are `m` up to `i`, and go on with `rest` and `rest'`. */
  predicate Fork(m: seq<Request>, n: seq<Request>, i: nat, rest: seq<Request>, rest': seq<Request>) {
    i <= |m| && i <= |n| && m[..i] == n[..i] && m[i..] == rest && n[i..] == rest'
  }

  /** Bytes of a request for the index partition move to another such request, and no state changes. */
  lemma MoveElsewhere(l: seq<Request>, i: nat, c: nat)
    requires 0 < i < |l| && |l[i - 1].data| <= c && l[i].offset <= l[i - 1].End() && l[i].state == IP
    ensures AfterMove(l, i - 1, i, c)
         == l[i - 1 := l[i - 1].(data := l[i - 1].data + Moved(l[i - 1], l[i], c))]
  {
    var r := l[i - 1].(data := l[i - 1].data + Moved(l[i - 1], l[i], c));
    assert AfterMove(l, i - 1, i, c)[i - 1].data == r.data;
    assert !MayMove(l[i - 1], l[i], c) ==> r == l[i - 1];
  }

  lemma CutElsewhere(l: seq<Request>, k: seq<Request>, i: nat, g: nat)
    requires i < |l| == |k| && l[..i + 1] == k[..i + 1]
    ensures var m, n := CutFront(l, i, g), CutFront(k, i, g);
      n.result == m.result && Fork(m.list, n.list, GoesOnAt(m, i), l[i + 1..], k[i + 1..])
  {
    assert forall j :: 0 <= j <= i ==> l[j] == l[..i + 1][j] == k[..i + 1][j] == k[j];
  }

  lemma MoveFork(l: seq<Request>, k: seq<Request>, i: nat, c: nat)
    requires 0 < i < |l| == |k| && |l[i - 1].data| <= c && l[i].offset <= l[i - 1].End() && l[i].state == IP
    requires l[i - 1] == k[i - 1] && l[i] == k[i] && l[..i + 1] == k[..i + 1]
    ensures var a, b := AfterMove(l, i - 1, i, c), AfterMove(k, i - 1, i, c);
      |a| == |b| == |l| && a[..i + 1] == b[..i + 1] && a[i + 1..] == l[i + 1..] && b[i + 1..] == k[i + 1..]
  {
    MoveElsewhere(l, i, c);
    MoveElsewhere(k, i, c);
    assert forall j :: 0 <= j <= i ==> l[j] == l[..i + 1][j] == k[..i + 1][j] == k[j];
  }

  /** A merge looks at two requests only. */
  lemma MergeBackElsewhere(l: seq<Request>, k: seq<Request>, i: nat, c: nat)
    requires i < |l| == |k| && Sized(l, c) && Sized(k, c) && l[..i + 1] == k[..i + 1] && l[i].state == IP
    ensures var m, n := MergeBack(l, i, c), MergeBack(k, i, c);
      n.result == m.result && Fork(m.list, n.list, GoesOnAt(m, i), l[i + 1..], k[i + 1..])
  {
    assert l[i] == l[..i + 1][i] == k[..i + 1][i] == k[i];
    if i > 0 {
      assert l[i - 1] == l[..i + 1][i - 1] == k[..i + 1][i - 1] == k[i - 1];
      if l[i].offset <= l[i - 1].End() {
        MoveFork(l, k, i, c);
        CutElsewhere(AfterMove(l, i - 1, i, c), AfterMove(k, i - 1, i, c), i,
                     l[i - 1].End() - l[i].offset + |Moved(l[i - 1], l[i], c)|);
      }
    }
  }

  lemma ToIPFromSized(l: seq<Request>, i: nat, all: bool, c: nat)
    ensures Sized(l, c) ==> Sized(ToIPFrom(l, i, all), c)
    ensures WellFormed(l, c) ==> WellFormed(ToIPFrom(l, i, all), c)
  {
  }

  /** Taking the rest of a list on after a merge is merging the list whose rest is taken. */
  lemma MergeBackTaken(l: seq<Request>, i: nat, all: bool, c: nat)
    requires i < |l| && Sized(l, c) && l[i].state == IP
    ensures Sized(ToIPFrom(l, i, all), c)
    ensures var m := MergeBack(l, i, c);
      ToIPFrom(m.list, GoesOnAt(m, i), all) == MergeBack(ToIPFrom(l, i, all), i, c).list
  {
    var k := ToIPFrom(l, i, all);
    ToIPFromSized(l, i, all, c);
    assert l[..i + 1] == k[..i + 1];
    MergeBackElsewhere(l, k, i, c);
    assert k[i + 1..] == ToIPFrom(l[i + 1..], 0, all);
    ForkTaken(MergeBack(l, i, c), MergeBack(k, i, c), i, l[i + 1..], all);
  }

  lemma ForkTaken(m: Merge, n: Merge, i: nat, rest: seq<Request>, all: bool)
    requires Fork(m.list, n.list, GoesOnAt(m, i), rest, ToIPFrom(rest, 0, all))
    ensures ToIPFrom(m.list, GoesOnAt(m, i), all) == n.list
  {
    TakenParts(m.list, n.list, GoesOnAt(m, i), rest, all);
  }

  lemma TakenParts(m: seq<Request>, n: seq<Request>, i: nat, rest: seq<Request>, all: bool)
    requires Fork(m, n, i, rest, ToIPFrom(rest, 0, all))
    ensures ToIPFrom(m, i, all) == n
  {
    assert |m| == i + |rest| == |n|;
    forall j | 0 <= j < |m| ensures ToIPFrom(m, i, all)[j] == n[j] {
      if j < i {
        assert m[..i][j] == n[..i][j];
      } else {
        assert m[i..][j - i] == m[j] && n[i..][j - i] == n[j];
      }
    }
  }

  lemma MergeBackQueuedFor(l: seq<Request>, i: nat, c: nat, x: nat)
    requires i < |l| && WellFormed(l, c)
    ensures QueuedFor(MergeBack(l, i, c).list, x) == QueuedFor(l, x)
  {
    if i > 0 {
      PaintMerge(l, i - 1, i, c);
      PaintSized(l, c);
      LookupMerge(Painted(l), i, c, x);
    }
  }

  lemma MergedQueuedFor(l: seq<Request>, i: nat, all: bool, c: nat, x: nat)
    requires i < |l| && WellFormed(l, c) && l[i].state == IP
    ensures var m := MergeBack(l, i, c);
      QueuedFor(ToIPFrom(m.list, GoesOnAt(m, i), all), x) == QueuedFor(ToIPFrom(l, i, all), x)
  {
    MergeBackTaken(l, i, all, c);
    ToIPFromSized(l, i, all, c);
    MergeBackQueuedFor(ToIPFrom(l, i, all), i, c, x);
  }

  lemma StoredQueuedFor(l: seq<Request>, i: nat, all: bool, c: nat, x: nat)
    requires i < |l| && WellFormed(l, c) && Selected(l[i], all)
    ensures var m := MergeBack(ToIP(l, i), i, c);
      QueuedFor(ToIPFrom(m.list, GoesOnAt(m, i), all), x) == QueuedFor(ToIPFrom(l, i, all), x)
  {
    ToIPWellFormed(l, i, c);
    MergedQueuedFor(ToIP(l, i), i, all, c, x);
    assert ToIPFrom(ToIP(l, i), i, all) == ToIPFrom(l, i, all);
  }

  lemma OnceQueuedFor(m: Midway, all: bool, c: nat, x: nat)
    requires m.i < |m.l| && WellFormed(m.l, c)
    ensures var n := SweepOnce(m, all, true, c);
      QueuedFor(ToIPFrom(n.l, n.i, all), x) == QueuedFor(ToIPFrom(m.l, m.i, all), x)
  {
    var r := m.l[m.i];
    if r.state == IP {
      MergedQueuedFor(m.l, m.i, all, c, x);
    } else if Selected(r, all) {
      StoredQueuedFor(m.l, m.i, all, c, x);
    } else {
      assert ToIPFrom(m.l, m.i + 1, all) == ToIPFrom(m.l, m.i, all);
    }
  }

  /**
   The pass loses no byte of the list and adds none. What it takes is queued for the index partition
   afterwards, and everything else for the partition it was queued for.
   */
  lemma {:induction false} SweepKeepsQueue(l: seq<Request>, i: nat, tape: seq<byte>, local: seq<Request>,
    all: bool, c: nat, x: nat)
    requires i <= |l| && WellFormed(l, c)
    ensures var s := Sweep(l, i, tape, local, all, true, c);
      && Lookup(s.l, x) == Lookup(l, x) && QueuedFor(s.l, x) == QueuedFor(ToIPFrom(l, i, all), x)
      && s.local == local
    decreases |l| - i
  {
    if i < |l| {
      var m := Midway(l, i, tape, local);
      SweepByTurns(m, all, true, c);
      OnceKeepsOrder(m, all, c);
      OnceKeepsByte(m, all, c, x);
      OnceQueuedFor(m, all, c, x);
      var n := SweepOnce(m, all, true, c);
      SweepKeepsQueue(n.l, n.i, n.tape, n.local, all, c, x);
    } else {
      assert ToIPFrom(l, i, all) == l;
    }
  }

  // ---- Neighbours are joined ----

  /** Of two touching requests for the index partition, before `i`, the first is full. */
  ghost predicate Joined(l: seq<Request>, i: nat, c: nat) {
    i <= |l| && forall j :: 0 <= j < i - 1 ==> JoinedAt(l, j, c)
  }

  predicate JoinedAt(l: seq<Request>, j: nat, c: nat)
    requires j + 1 < |l|
  {
    l[j].state == IP && l[j + 1].state == IP && l[j].End() == l[j + 1].offset ==> |l[j].data| == c
  }

  lemma LastJoins(l: seq<Request>, i: nat, c: nat)
    requires 0 < i < |l| && Sized(l, c) && l[i].state == IP
    ensures var m := MergeAt(l, i - 1, i, c); m.result != 2 ==> |m.list| == |l| && JoinedAt(m.list, i - 1, c)
  {
    MergeIsMerged(l, i - 1, i, c);
    MergeBackStates(l, i, c);
    if l[i].offset > l[i - 1].End() {
      NothingToMerge(l, i - 1, i, c);
    } else if l[i - 1].state == IP {
      MergeFills(l, i - 1, i, c);
    }
  }

  lemma JoinsKept(l: seq<Request>, m: seq<Request>, i: nat, c: nat)
    requires 0 < i <= |l| && i <= |m| && Joined(l, i, c) && m[i - 1].offset == l[i - 1].offset
    requires forall j :: 0 <= j < i - 1 ==> SameBytes(m[j], l[j])
    requires forall j :: 0 <= j < i ==> m[j].state == l[j].state
    ensures Joined(m, i, c)
  {
    forall j | 0 <= j < i - 1 ensures JoinedAt(m, j, c) {
      assert JoinedAt(l, j, c);
    }
  }

  lemma MergedOnceJoins(l: seq<Request>, i: nat, c: nat)
    requires i < |l| && Sized(l, c) && l[i].state == IP && Joined(l, i, c)
    ensures var m := MergeBack(l, i, c); Joined(m.list, GoesOnAt(m, i), c)
  {
    MergeBackSized(l, i, c);
    MergeBackStates(l, i, c);
    if i > 0 {
      var m := MergeAt(l, i - 1, i, c);
      MergeIsMerged(l, i - 1, i, c);
      LastJoins(l, i, c);
      JoinsKept(l, m.list, i, c);
    }
  }

  lemma OnceJoins(m: Midway, all: bool, writeIp: bool, c: nat)
    requires m.i < |m.l| && Sized(m.l, c) && Joined(m.l, m.i, c)
    ensures var n := SweepOnce(m, all, writeIp, c); Joined(n.l, n.i, c)
  {
    var r := m.l[m.i];
    if r.state == IP {
      MergedOnceJoins(m.l, m.i, c);
    } else if Selected(r, all) && writeIp {
      forall j | 0 <= j < m.i - 1 ensures JoinedAt(ToIP(m.l, m.i), j, c) {
        assert JoinedAt(m.l, j, c);
      }
      MergedOnceJoins(ToIP(m.l, m.i), m.i, c);
    } else if Selected(r, all) {
      forall j | 0 <= j < m.i - 1 ensures JoinedAt(Remove(m.l, m.i), j, c) {
        assert JoinedAt(m.l, j, c);
      }
    }
  }

  /** After a pass requests for the index partition that touch are joined as far as blocks allow. */
  lemma {:induction false} SweepJoins(l: seq<Request>, i: nat, tape: seq<byte>, local: seq<Request>,
    all: bool, writeIp: bool, c: nat)
    requires i <= |l| && Sized(l, c) && Joined(l, i, c)
    ensures var s := Sweep(l, i, tape, local, all, writeIp, c); Joined(s.l, |s.l|, c)
    decreases |l| - i
  {
    if i < |l| {
      var m := Midway(l, i, tape, local);
      SweepByTurns(m, all, writeIp, c);
      OnceJoins(m, all, writeIp, c);
      var n := SweepOnce(m, all, writeIp, c);
      SweepJoins(n.l, n.i, n.tape, n.local, all, writeIp, c);
    }
  }
}
