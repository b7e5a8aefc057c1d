/**
 The loop shared by _unified_flush_unlocked and _unified_process_data_queue
 (src/iosched/unified.c) over the requests of one file. Selected requests are detached, to be
 written to tape afterwards; if the file goes to the index partition they are written at once,
 stay in the list as index-partition requests, and are merged with their predecessors.
 */
module UnifiedSweep {
  import opened Bytes
  import opened Requests
  import opened RequestOps
  import opened UnifiedRead
  import opened UnifiedDrain

  datatype Swept = Swept(l: seq<Request>, tape: seq<byte>, local: seq<Request>)

  function MergeBack(l: seq<Request>, i: nat, c: nat): Merge
    requires i < |l| && Sized(l, c)
  {
    if i == 0 then Merge(l, 0) else MergeAt(l, i - 1, i, c)
  }

  lemma MergeBackSized(l: seq<Request>, i: nat, c: nat)
    requires i < |l| && Sized(l, c)
    ensures MergeLengths(l, MergeBack(l, i, c), c)
  {
    if i > 0 {
      MergeIsMerged(l, i - 1, i, c);
      MergedLength(l, i - 1, i, c, MergeAt(l, i - 1, i, c));
    }
  }

  /** What a merge leaves is one request shorter if its result says so, and no request is too long or empty. */
  ghost predicate MergeLengths(l: seq<Request>, m: Merge, c: nat) {
    m.result in {0, 1, 2} && Sized(m.list, c) && |m.list| == if m.result == 2 then |l| - 1 else |l|
  }

  lemma MergedLength(l: seq<Request>, p: nat, i: nat, c: nat, m: Merge)
    requires p < i < |l| && Merged(l, p, i, c, m)
    ensures MergeLengths(l, m, c)
  {
  }

  function ToIP(l: seq<Request>, i: nat): seq<Request>
    requires i < |l|
  {
    l[i := l[i].(state := IP)]
  }

  /** Whether a pass takes a request: every pass takes full ones, some take partial ones too. */
  predicate Selected(r: Request, all: bool) {
    r.state == DP || (r.state == Partial && all)
  }

  /** The rest of the loop, from request `i` on. */
  function Sweep(l: seq<Request>, i: nat, tape: seq<byte>, local: seq<Request>,
    all: bool, writeIp: bool, c: nat): Swept
    requires Sized(l, c) && i <= |l|
    decreases |l| - i
  {
    if i == |l| then Swept(l, tape, local)
    else if l[i].state == IP then
      MergeBackSized(l, i, c);
      var m := MergeBack(l, i, c);
      Sweep(m.list, if m.result == 2 then i else i + 1, tape, local, all, writeIp, c)
    else if !Selected(l[i], all) then Sweep(l, i + 1, tape, local, all, writeIp, c)
    else if writeIp then
      MergeBackSized(ToIP(l, i), i, c);
      var m := MergeBack(ToIP(l, i), i, c);
      Sweep(m.list, if m.result == 2 then i else i + 1, Overlay(tape, l[i].offset, l[i].data), local,
            all, writeIp, c)
    else Sweep(Remove(l, i), i, tape, local + [l[i]], all, writeIp, c)
  }

  // ---- The file does not change ----

  lemma MergeBackWellFormed(l: seq<Request>, i: nat, c: nat)
    requires i < |l| && WellFormed(l, c)
    ensures WellFormed(MergeBack(l, i, c).list, c)
  {
    if i > 0 {
      MergeIsMerged(l, i - 1, i, c);
      MergeNoFull(l, i - 1, i, c);
      var m := MergeAt(l, i - 1, i, c);
      var s := if m.result == 2 then 1 else 0;
      forall j, k | 0 <= j < k < |m.list| ensures m.list[j].End() <= m.list[k].offset {
        var j', k' := if j >= i then j + s else j, if k >= i then k + s else k;
        assert l[j'].End() <= l[k'].offset;
        assert k' > i ==> l[i].End() <= l[k'].offset;
      }
    }
  }

  lemma {:induction false} SizeSame(l: seq<Request>, m: seq<Request>, tape: seq<byte>)
    requires forall j :: 0 <= j < |l| ==> |l[j].data| >= 1
    requires forall j :: 0 <= j < |m| ==> |m[j].data| >= 1
    requires forall x: nat :: Look(l, tape, x) == Look(m, tape, x)
    ensures Size(l, tape) == Size(m, tape) && View(l, tape) == View(m, tape)
  {
    assert LookOverlay(l, m, tape, 0, []);
    SizeOverlay(l, m, tape, 0, []);
  }

  lemma MergeBackView(l: seq<Request>, i: nat, c: nat, local: seq<Request>, tape: seq<byte>)
    requires i < |l| && WellFormed(l, c) && forall j :: 0 <= j < |local| ==> |local[j].data| > 0
    ensures View(MergeBack(l, i, c).list + local, tape) == View(l + local, tape)
  {
    var m := MergeBack(l, i, c).list;
    MergeBackSized(l, i, c);
    forall x: nat ensures Look(m + local, tape, x) == Look(l + local, tape, x) {
      if i > 0 {
        LookupMerge(l, i, c, x);
      }
      LookupConcat(l, local, x);
      LookupConcat(m, local, x);
    }
    SizeSame(m + local, l + local, tape);
  }

  lemma CoversApart(l: seq<Request>, j: nat, q: nat, x: nat)
    requires AllClear(l) && j < q < |l|
    ensures !(l[j].Covers(x) && l[q].Covers(x))
  {
    assert Clear(l[j], l[q]);
  }

  lemma OneCovers(l: seq<Request>, j: nat, q: nat, x: nat)
    requires AllClear(l) && j < |l| && q < |l| && l[j].Covers(x) && l[q].Covers(x)
    ensures j == q
  {
    if j < q {
      CoversApart(l, j, q, x);
    } else if q < j {
      CoversApart(l, q, j, x);
    }
  }

  /** In a list without overlaps, any covering request answers. */
  lemma LookupClear(l: seq<Request>, q: nat, x: nat)
    requires AllClear(l) && q < |l| && l[q].Covers(x)
    ensures Lookup(l, x) == Some(l[q].data[x - l[q].offset])
  {
    LookupAt(l, q, x);
    var j := LookupSome(l, x);
    OneCovers(l, j, q, x);
  }

  /** Lists of the same requests, none overlapping another, hold the same bytes in any order. */
  lemma LookupReorder(l: seq<Request>, m: seq<Request>, x: nat)
    requires AllClear(l) && AllClear(m)
    requires forall r :: r in m <==> r in l
    ensures Lookup(m, x) == Lookup(l, x)
  {
    if Lookup(l, x).Some? {
      var j := LookupSome(l, x);
      assert l[j] in m;
      var q :| 0 <= q < |m| && m[q] == l[j];
      LookupClear(m, q, x);
    } else if Lookup(m, x).Some? {
      var k := LookupSome(m, x);
      assert m[k] in l;
      var q :| 0 <= q < |l| && l[q] == m[k];
      LookupClear(l, q, x);
    }
  }

  lemma ReorderView(a: seq<Request>, b: seq<Request>, tape: seq<byte>)
    requires AllClear(a) && AllClear(b) && forall r :: r in b <==> r in a
    requires forall j :: 0 <= j < |a| ==> |a[j].data| > 0
    requires forall j :: 0 <= j < |b| ==> |b[j].data| > 0
    ensures View(a, tape) == View(b, tape)
  {
    forall x: nat ensures Look(b, tape, x) == Look(a, tape, x) {
      LookupReorder(a, b, x);
    }
    SizeSame(a, b, tape);
  }

  function MoveToEnd(a: seq<Request>, i: nat): seq<Request>
    requires i < |a|
  {
    Remove(a, i) + [a[i]]
  }

  lemma MoveToEndClear(a: seq<Request>, i: nat)
    requires i < |a| && AllClear(a)
    ensures AllClear(MoveToEnd(a, i))
    ensures forall r :: r in MoveToEnd(a, i) <==> r in a
  {
    var b := MoveToEnd(a, i);
    forall j, k | 0 <= j < k < |b| ensures Clear(b[j], b[k]) {
      var j' := if j < i then j else j + 1;
      if k == |b| - 1 {
        assert j' < i ==> Clear(a[j'], a[i]);
        assert j' > i ==> Clear(a[i], a[j']);
      } else {
        assert Clear(a[j'], a[if k < i then k else k + 1]);
      }
    }
    assert a == a[..i] + [a[i]] + a[i + 1..];
  }

  /** A detached request is still part of the file. */
  lemma DetachView(l: seq<Request>, i: nat, local: seq<Request>, tape: seq<byte>)
    requires i < |l| && AllClear(l + local)
    requires forall j :: 0 <= j < |l + local| ==> |(l + local)[j].data| > 0
    ensures View(Remove(l, i) + (local + [l[i]]), tape) == View(l + local, tape)
    ensures AllClear(Remove(l, i) + (local + [l[i]]))
  {
    var a, b := l + local, Remove(l, i) + (local + [l[i]]);
    assert b == MoveToEnd(a, i);
    MoveToEndClear(a, i);
    ReorderView(a, b, tape);
  }

  /** Writing a queued request to tape and keeping it leaves the file as it was. */
  lemma StoreView(l: seq<Request>, i: nat, tape: seq<byte>, c: nat)
    requires i < |l| && WellFormed(l, c)
    ensures View(ToIP(l, i), Overlay(tape, l[i].offset, l[i].data)) == View(l, tape)
  {
    var r := l[i];
    var m, s := ToIP(l, i), Overlay(tape, r.offset, r.data);
    StoreSize(l, i, tape);
    forall x: nat ensures At(m, s, x) == At(l, tape, x) {
      LookupSameData(l, m, x);
      if r.Covers(x) {
        LookupCovered(l, i, x);
      }
    }
    SameView(m, s, l, tape);
  }

  lemma {:induction false} SizeSameData(l: seq<Request>, m: seq<Request>, tape: seq<byte>)
    requires |l| == |m|
    requires forall j :: 0 <= j < |l| ==> l[j].offset == m[j].offset && l[j].data == m[j].data
    ensures Size(l, tape) == Size(m, tape)
  {
    if l != [] {
      SizeSameData(l[1..], m[1..], tape);
    }
  }

  lemma StoreSize(l: seq<Request>, i: nat, tape: seq<byte>)
    requires i < |l| && |l[i].data| > 0
    ensures Size(ToIP(l, i), Overlay(tape, l[i].offset, l[i].data)) == Size(l, tape)
  {
    var s := Overlay(tape, l[i].offset, l[i].data);
    SizeSameData(l, ToIP(l, i), s);
    SizeTape(l, tape, s);
    SizeBound(l, tape);
    SizeBound(l, s);
  }

  lemma StoreIPAgree(l: seq<Request>, i: nat, tape: seq<byte>, c: nat)
    requires i < |l| && WellFormed(l, c) && IPAgree(l, tape)
    ensures IPAgree(ToIP(l, i), Overlay(tape, l[i].offset, l[i].data))
  {
    var r := l[i];
    var m, s := ToIP(l, i), Overlay(tape, r.offset, r.data);
    forall j | 0 <= j < |m| && m[j].state == IP ensures OnTape(m[j], s) {
      if j != i {
        assert s[m[j].offset..m[j].End()] == tape[m[j].offset..m[j].End()];
      }
    }
  }

  lemma DisjointClear(l: seq<Request>)
    requires Disjoint(l)
    ensures AllClear(l)
  {
    forall j, k | 0 <= j < k < |l| ensures Clear(l[j], l[k]) {
      assert l[j].End() <= l[k].offset;
    }
  }

  lemma RemoveWellFormed(l: seq<Request>, i: nat, c: nat)
    requires i < |l| && WellFormed(l, c)
    ensures WellFormed(Remove(l, i), c)
  {
  }

  ghost predicate Filled(l: seq<Request>) {
    forall j :: 0 <= j < |l| ==> |l[j].data| > 0
  }

  /** What holds of a file's requests and of those detached from it. */
  ghost predicate Ready(l: seq<Request>, tape: seq<byte>, local: seq<Request>, writeIp: bool, c: nat) {
    && WellFormed(l, c) && IPAgree(l, tape)
    && Filled(local) && AllClear(l + local)
    && (if writeIp then local == [] else NoIP(l))
  }

  lemma KeepReady(l: seq<Request>, i: nat, tape: seq<byte>, c: nat)
    requires i < |l| && Ready(l, tape, [], true, c)
    ensures var m := MergeBack(l, i, c).list;
      Ready(m, tape, [], true, c) && View(m, tape) == View(l, tape)
  {
    var m := MergeBack(l, i, c).list;
    MergeBackWellFormed(l, i, c);
    if i > 0 {
      MergeIPAgree(l, i - 1, i, c, tape);
    }
    DisjointClear(m);
    MergeBackView(l, i, c, [], tape);
    assert m + [] == m && l + [] == l;
  }

  lemma StoreReady(l: seq<Request>, i: nat, tape: seq<byte>, c: nat)
    requires i < |l| && Ready(l, tape, [], true, c)
    ensures var s := Overlay(tape, l[i].offset, l[i].data);
      Ready(ToIP(l, i), s, [], true, c) && View(ToIP(l, i), s) == View(l, tape)
  {
    StoreView(l, i, tape, c);
    StoreIPAgree(l, i, tape, c);
    DisjointClear(ToIP(l, i));
    assert ToIP(l, i) + [] == ToIP(l, i);
  }

  lemma DetachReady(l: seq<Request>, i: nat, tape: seq<byte>, local: seq<Request>, c: nat)
    requires i < |l| && Ready(l, tape, local, false, c)
    ensures Ready(Remove(l, i), tape, local + [l[i]], false, c)
    ensures View(Remove(l, i) + (local + [l[i]]), tape) == View(l + local, tape)
  {
    RemoveWellFormed(l, i, c);
    DetachView(l, i, local, tape);
  }

  // ---- The loop one turn at a time ----

  /** The loop between two turns. */
  datatype Midway = Midway(l: seq<Request>, i: nat, tape: seq<byte>, local: seq<Request>)

  function MergedOnce(l: seq<Request>, i: nat, tape: seq<byte>, local: seq<Request>, c: nat): Midway
    requires i < |l| && Sized(l, c)
  {
    var m := MergeBack(l, i, c);
    Midway(m.list, if m.result == 2 then i else i + 1, tape, local)
  }

  /** One turn: request `i` is merged, passed over, stored or detached. */
  function SweepOnce(m: Midway, all: bool, writeIp: bool, c: nat): Midway
    requires m.i < |m.l| && Sized(m.l, c)
  {
    var r := m.l[m.i];
    if r.state == IP then MergedOnce(m.l, m.i, m.tape, m.local, c)
    else if !Selected(r, all) then m.(i := m.i + 1)
    else if writeIp then MergedOnce(ToIP(m.l, m.i), m.i, Overlay(m.tape, r.offset, r.data), m.local, c)
    else m.(l := Remove(m.l, m.i), local := m.local + [r])
  }

  /** The pass is made of these turns. */
  lemma SweepByTurns(m: Midway, all: bool, writeIp: bool, c: nat)
    requires m.i < |m.l| && Sized(m.l, c)
    ensures var n := SweepOnce(m, all, writeIp, c);
      && Sized(n.l, c) && n.i <= |n.l| && |n.l| - n.i == |m.l| - m.i - 1
      && Sweep(m.l, m.i, m.tape, m.local, all, writeIp, c) == Sweep(n.l, n.i, n.tape, n.local, all, writeIp, c)
  {
    if m.l[m.i].state == IP {
      MergeBackSized(m.l, m.i, c);
    } else if Selected(m.l[m.i], all) && writeIp {
      MergeBackSized(ToIP(m.l, m.i), m.i, c);
    }
  }

  /** One turn leaves the file as it was, counting the requests it detached. */
  lemma SweepOnceKeepsFile(m: Midway, all: bool, writeIp: bool, c: nat)
    requires m.i < |m.l| && Ready(m.l, m.tape, m.local, writeIp, c)
    ensures var n := SweepOnce(m, all, writeIp, c);
      && Ready(n.l, n.tape, n.local, writeIp, c) && n.i <= |n.l|
      && View(n.l + n.local, n.tape) == View(m.l + m.local, m.tape)
      && (!writeIp ==> n.tape == m.tape)
  {
    SweepByTurns(m, all, writeIp, c);
    var r := m.l[m.i];
    if r.state == IP {
      KeepReady(m.l, m.i, m.tape, c);
      assert m.l + [] == m.l && MergeBack(m.l, m.i, c).list + [] == MergeBack(m.l, m.i, c).list;
    } else if Selected(r, all) && writeIp {
      var l, s := ToIP(m.l, m.i), Overlay(m.tape, r.offset, r.data);
      StoreReady(m.l, m.i, m.tape, c);
      KeepReady(l, m.i, s, c);
      assert m.l + [] == m.l && MergeBack(l, m.i, c).list + [] == MergeBack(l, m.i, c).list;
    } else if Selected(r, all) {
      DetachReady(m.l, m.i, m.tape, m.local, c);
    }
  }

  /** The loop leaves the file as it was, counting the requests it detached. */
  lemma {:induction false} SweepKeepsFile(l: seq<Request>, i: nat, tape: seq<byte>, local: seq<Request>,
    all: bool, writeIp: bool, c: nat)
    requires i <= |l| && Ready(l, tape, local, writeIp, c)
    ensures var s := Sweep(l, i, tape, local, all, writeIp, c);
      && Ready(s.l, s.tape, s.local, writeIp, c)
      && View(s.l + s.local, s.tape) == View(l + local, tape)
      && (!writeIp ==> s.tape == tape)
    decreases |l| - i
  {
    if i < |l| {
      var m := Midway(l, i, tape, local);
      SweepByTurns(m, all, writeIp, c);
      SweepOnceKeepsFile(m, all, writeIp, c);
      var n := SweepOnce(m, all, writeIp, c);
      SweepKeepsFile(n.l, n.i, n.tape, n.local, all, writeIp, c);
    }
  }

  /** A pass over a file that is not placed on the index partition makes no request for it. */
  lemma {:induction false} SweepNoIP(l: seq<Request>, i: nat, tape: seq<byte>, local: seq<Request>, all: bool, c: nat)
    requires i <= |l| && Sized(l, c)
    ensures NoIP(l) ==> NoIP(Sweep(l, i, tape, local, all, false, c).l)
    decreases |l| - i
  {
    if i < |l| {
      var m := Midway(l, i, tape, local);
      SweepByTurns(m, all, false, c);
      var n := SweepOnce(m, all, false, c);
      SweepNoIP(n.l, n.i, n.tape, n.local, all, c);
    }
  }

  lemma {:induction false} SweepSized(l: seq<Request>, i: nat, tape: seq<byte>, local: seq<Request>,
    all: bool, writeIp: bool, c: nat)
    requires i <= |l| && Sized(l, c)
    ensures Sized(Sweep(l, i, tape, local, all, writeIp, c).l, c)
    decreases |l| - i
  {
    if i < |l| {
      var m := Midway(l, i, tape, local);
      SweepByTurns(m, all, writeIp, c);
      var n := SweepOnce(m, all, writeIp, c);
      SweepSized(n.l, n.i, n.tape, n.local, all, writeIp, c);
    }
  }

  // ---- No selected request is left ----

  lemma MergeBackStates(l: seq<Request>, i: nat, c: nat)
    requires i < |l| && Sized(l, c) && l[i].state == IP
    ensures var m := MergeBack(l, i, c);
      && (forall j :: 0 <= j < i ==> m.list[j].state == l[j].state)
      && (m.result == 2 ==> forall j :: i <= j < |m.list| ==> m.list[j].state == l[j + 1].state)
      && (m.result != 2 ==> forall j :: i <= j < |l| ==> m.list[j].state == l[j].state)
  {
    MergeBackSized(l, i, c);
    if i > 0 && l[i].offset <= l[i - 1].End() {
      var n := AfterMove(l, i - 1, i, c);
      assert forall j :: 0 <= j < |l| ==> n[j].state == l[j].state;
    }
  }

  ghost predicate NoneSelected(l: seq<Request>, i: nat, all: bool) {
    i <= |l| && forall j :: 0 <= j < i ==> !Selected(l[j], all)
  }

  /** One turn leaves nothing selected behind it. */
  lemma SweepOnceLeaves(m: Midway, all: bool, writeIp: bool, c: nat)
    requires m.i < |m.l| && Sized(m.l, c) && NoneSelected(m.l, m.i, all)
    ensures var n := SweepOnce(m, all, writeIp, c); NoneSelected(n.l, n.i, all)
  {
    var r := m.l[m.i];
    if r.state == IP {
      MergedOnceLeaves(m.l, m.i, all, c);
    } else if Selected(r, all) && writeIp {
      MergedOnceLeaves(ToIP(m.l, m.i), m.i, all, c);
    }
  }

  lemma MergedOnceLeaves(l: seq<Request>, i: nat, all: bool, c: nat)
    requires i < |l| && Sized(l, c) && l[i].state == IP && NoneSelected(l, i, all)
    ensures var m := MergeBack(l, i, c); NoneSelected(m.list, if m.result == 2 then i else i + 1, all)
  {
    MergeBackSized(l, i, c);
    MergeBackStates(l, i, c);
  }

  /** Nothing the pass selects is still queued; after a full pass only index-partition requests are. */
  lemma {:induction false} SweepLeaves(l: seq<Request>, i: nat, tape: seq<byte>, local: seq<Request>,
    all: bool, writeIp: bool, c: nat)
    requires i <= |l| && Sized(l, c)
    requires NoneSelected(l, i, all)
    ensures var s := Sweep(l, i, tape, local, all, writeIp, c); NoneSelected(s.l, |s.l|, all)
    decreases |l| - i
  {
    if i < |l| {
      var m := Midway(l, i, tape, local);
      SweepByTurns(m, all, writeIp, c);
      SweepOnceLeaves(m, all, writeIp, c);
      var n := SweepOnce(m, all, writeIp, c);
      SweepLeaves(n.l, n.i, n.tape, n.local, all, writeIp, c);
    }
  }
}
