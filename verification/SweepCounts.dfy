/**
 What a background pass takes of a list and what it leaves (src/iosched/unified.c:
 _unified_process_data_queue), counted by state.
 */
module SweepCounts {
  import opened Bytes
  import opened Requests
  import opened RequestOps
  import opened UnifiedSweep
  import opened Counts

  lemma MergeBackCount(l: seq<Request>, i: nat, c: nat, s: State)
    requires i < |l| && Sized(l, c) && l[i].state == IP && s != IP
    ensures Count(MergeBack(l, i, c).list, s) == Count(l, s)
  {
    var m := MergeBack(l, i, c);
    MergeBackSized(l, i, c);
    MergeBackStates(l, i, c);
    if m.result == 2 {
      CountRemove(l, i, s);
      CountSame(m.list, Remove(l, i), s);
    } else {
      CountSame(m.list, l, s);
    }
  }

  /** The requests of one state, in order. */
  function Only(l: seq<Request>, q: State): seq<Request> {
    if l == [] then [] else (if l[0].state == q then [l[0]] else []) + Only(l[1..], q)
  }

  lemma {:induction false} OnlyCount(l: seq<Request>, q: State)
    ensures |Only(l, q)| == Count(l, q)
  {
    if l != [] {
      OnlyCount(l[1..], q);
    }
  }

  /** A pass over full requests leaves as many partial ones as there were, on any list. */
  lemma {:induction false} PassKeepsPartial(l: seq<Request>, i: nat, tape: seq<byte>, local: seq<Request>,
    writeIp: bool, c: nat)
    requires i <= |l| && Sized(l, c)
    ensures Count(Sweep(l, i, tape, local, false, writeIp, c).l, Partial) == Count(l, Partial)
    decreases |l| - i
  {
    if i < |l| {
      var m := Midway(l, i, tape, local);
      SweepByTurns(m, false, writeIp, c);
      OnceKeepsPartial(m, writeIp, c);
      var n := SweepOnce(m, false, writeIp, c);
      PassKeepsPartial(n.l, n.i, n.tape, n.local, writeIp, c);
    }
  }

  lemma OnceKeepsPartial(m: Midway, writeIp: bool, c: nat)
    requires m.i < |m.l| && Sized(m.l, c)
    ensures Count(SweepOnce(m, false, writeIp, c).l, Partial) == Count(m.l, Partial)
  {
    var r := m.l[m.i];
    if r.state == IP {
      MergeBackCount(m.l, m.i, c, Partial);
    } else if Selected(r, false) && writeIp {
      CountSet(m.l, m.i, r.(state := IP), Partial);
      MergeBackCount(ToIP(m.l, m.i), m.i, c, Partial);
    } else if Selected(r, false) {
      CountRemove(m.l, m.i, Partial);
    }
  }

  /**
   Of a file for the data partition a pass over full requests takes exactly those, in their order, and
   leaves the partial ones in theirs; nothing is on tape yet.
   */
  lemma {:induction false} PassTakesFull(l: seq<Request>, i: nat, tape: seq<byte>, local: seq<Request>, c: nat)
    requires i <= |l| && Sized(l, c) && NoIP(l)
    ensures Sweep(l, i, tape, local, false, false, c)
         == Swept(l[..i] + Only(l[i..], Partial), tape, local + Only(l[i..], DP))
    decreases |l| - i
  {
    if i < |l| {
      assert l[i..][0] == l[i] && l[i..][1..] == l[i + 1..];
      if Selected(l[i], false) {
        var m := Remove(l, i);
        assert m[..i] == l[..i] && m[i..] == l[i + 1..];
        PassTakesFull(m, i, tape, local + [l[i]], c);
        assert local + [l[i]] + Only(l[i + 1..], DP) == local + Only(l[i..], DP);
      } else {
        PassTakesFull(l, i + 1, tape, local, c);
        assert l[..i + 1] == l[..i] + [l[i]];
        assert l[..i + 1] + Only(l[i + 1..], Partial) == l[..i] + Only(l[i..], Partial);
      }
    } else {
      assert l[i..] == [] && l[..i] + [] == l && local + [] == local;
    }
  }
}
