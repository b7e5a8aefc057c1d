/**
 When a read goes to tape (src/iosched/unified.c: unified_read): exactly when a byte asked for is not in the
 request list.
 */
module ReadPlan {
  import opened Bytes
  import opened Requests
  import opened UnifiedRead
  import opened Threads

  /** All bytes asked for are in the list. */
  ghost predicate AllQueued(l: seq<Request>, o: nat, n: nat) {
    forall x: nat :: o <= x < o + n ==> Lookup(l, x).Some?
  }

  lemma ConsNeeds(p: Piece, q: Plan)
    ensures NeedsTape(Cons(p, q)) <==> p.Hole? || NeedsTape(q)
  {
    var r := Cons(p, q);
    assert r.pieces[0] == p && r.pieces[1..] == q.pieces;
    if j :| 0 <= j < |q.pieces| && q.pieces[j].Hole? {
      assert r.pieces[j + 1].Hole?;
    }
    if j :| 0 <= j < |r.pieces| && r.pieces[j].Hole? {
      assert j > 0 ==> q.pieces[j - 1].Hole?;
    }
  }

  lemma DisjointTail(l: seq<Request>)
    requires l != [] && Disjoint(l)
    ensures Disjoint(l[1..])
  {
    forall j, k | 0 <= j < k < |l| - 1 ensures l[1..][j].End() <= l[1..][k].offset {
      assert l[j + 1].End() <= l[k + 1].offset;
    }
  }

  /** The read starts behind the first request. */
  lemma QueuedBehind(l: seq<Request>, o: nat, n: nat)
    requires l != [] && l[0].End() <= o
    ensures AllQueued(l, o, n) <==> AllQueued(l[1..], o, n)
  {
    forall x: nat | o <= x < o + n ensures Lookup(l, x) == Lookup(l[1..], x) {
    }
  }

  /** The read starts in the first request. */
  lemma QueuedFrom(l: seq<Request>, o: nat, n: nat, k: nat)
    requires l != [] && l[0].Covers(o) && k == Min(l[0].End() - o, n)
    ensures AllQueued(l, o, n) <==> AllQueued(l[1..], o + k, n - k)
  {
    forall x: nat | o <= x < o + k ensures Lookup(l, x).Some? {
    }
    forall x: nat | o + k <= x < o + n ensures Lookup(l, x) == Lookup(l[1..], x) {
    }
    if AllQueued(l, o, n) {
      forall x: nat | o + k <= x < o + k + (n - k) ensures Lookup(l[1..], x).Some? {
        assert Lookup(l, x).Some?;
      }
    }
  }

  /** A read needs the tape exactly when one of its bytes is not queued. */
  lemma {:induction false} TapeIfNotQueued(l: seq<Request>, o: nat, n: nat, c: nat)
    requires Sized(l, c) && Disjoint(l)
    ensures NeedsTape(MakePlan(l, o, n)) <==> !AllQueued(l, o, n)
    decreases |l|
  {
    if l == [] || n == 0 {
      if n > 0 {
        assert Lookup(l, o) == None;
      }
    } else if o < l[0].offset {
      var h := Min(l[0].offset - o, n);
      ConsNeeds(Hole(o, h), MakePlan(l, o + h, n - h));
      NotQueuedBefore(l, o);
    } else {
      DisjointTail(l);
      if l[0].Covers(o) {
        var k := Min(l[0].End() - o, n);
        var at := o - l[0].offset;
        TapeIfNotQueued(l[1..], o + k, n - k, c);
        ConsNeeds(Cached(l[0].data[at..at + k]), MakePlan(l[1..], o + k, n - k));
        QueuedFrom(l, o, n, k);
      } else {
        TapeIfNotQueued(l[1..], o, n, c);
        QueuedBehind(l, o, n);
      }
    }
  }

  lemma NotQueuedBefore(l: seq<Request>, o: nat)
    requires l != [] && Disjoint(l) && o < l[0].offset
    ensures Lookup(l, o) == None
  {
    forall j | 0 <= j < |l| ensures !l[j].Covers(o) {
      assert j > 0 ==> l[0].End() <= l[j].offset;
    }
    LookupNone(l, o);
  }
}
