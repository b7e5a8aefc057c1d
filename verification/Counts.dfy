/**
 Counting requests by state, and how the primitive changes to a list change the counts and the
 file's size: what the queue counters and file_size of struct dentry_priv have to keep up with.
 */
module Counts {
  import opened Bytes
  import opened Requests
  import opened RequestOps
  import opened UnifiedDrain

  /** The number of requests in a state. */
  function Count(l: seq<Request>, q: State): (n: nat)
    ensures n <= |l|
  {
    if l == [] then 0 else One(l[0].state == q) + Count(l[1..], q)
  }

  lemma {:induction false} CountConcat(a: seq<Request>, b: seq<Request>, q: State)
    ensures Count(a + b, q) == Count(a, q) + Count(b, q)
  {
    if a == [] {
      assert a + b == b;
    } else {
      assert (a + b)[1..] == a[1..] + b;
      CountConcat(a[1..], b, q);
    }
  }

  lemma CountCons(r: Request, l: seq<Request>, q: State)
    ensures Count([r] + l, q) == One(r.state == q) + Count(l, q)
  {
    assert ([r] + l)[1..] == l;
  }

  lemma CountSplit(l: seq<Request>, i: nat, q: State)
    requires i < |l|
    ensures Count(l, q) == Count(l[..i], q) + One(l[i].state == q) + Count(l[i + 1..], q)
  {
    assert l == l[..i] + l[i..];
    CountConcat(l[..i], l[i..], q);
    assert l[i..][1..] == l[i + 1..];
  }

  lemma CountSet(l: seq<Request>, i: nat, r: Request, q: State)
    requires i < |l|
    ensures Count(l[i := r], q) + One(l[i].state == q) == Count(l, q) + One(r.state == q)
  {
    var m := l[i := r];
    CountSplit(l, i, q);
    CountSplit(m, i, q);
    assert m[..i] == l[..i] && m[i + 1..] == l[i + 1..];
  }

  lemma CountInsert(l: seq<Request>, i: nat, r: Request, q: State)
    requires i <= |l|
    ensures Count(InsertAt(l, i, r), q) == Count(l, q) + One(r.state == q)
  {
    var m := InsertAt(l, i, r);
    CountSplit(m, i, q);
    assert m[..i] == l[..i] && m[i + 1..] == l[i..];
    CountConcat(l[..i], l[i..], q);
    assert l == l[..i] + l[i..];
  }

  lemma CountRemove(l: seq<Request>, i: nat, q: State)
    requires i < |l|
    ensures Count(Remove(l, i), q) + One(l[i].state == q) == Count(l, q)
  {
    CountSplit(l, i, q);
    CountConcat(l[..i], l[i + 1..], q);
  }

  lemma {:induction false} CountSame(l: seq<Request>, m: seq<Request>, q: State)
    requires |l| == |m| && forall j :: 0 <= j < |l| ==> l[j].state == m[j].state
    ensures Count(l, q) == Count(m, q)
  {
    if l != [] {
      CountSame(l[1..], m[1..], q);
    }
  }

  lemma {:induction false} CountZero(l: seq<Request>, q: State)
    ensures Count(l, q) == 0 <==> forall j :: 0 <= j < |l| ==> l[j].state != q
    ensures Count(l, q) == |l| <==> forall j :: 0 <= j < |l| ==> l[j].state == q
  {
    if l != [] {
      CountZero(l[1..], q);
      assert forall j :: 0 < j < |l| ==> l[j] == l[1..][j - 1];
      assert Count(l[1..], q) == 0 <==> forall j :: 1 <= j < |l| ==> l[j].state != q;
    }
  }

  // ---- Size ----

  /** Every index-partition request lies inside the tape file. */
  ghost predicate IPInside(l: seq<Request>, tape: seq<byte>) {
    forall j :: 0 <= j < |l| && l[j].state == IP ==> l[j].End() <= |tape|
  }

  /** `size` is how far the list and the tape file reach, which is what file_size is to be. */
  ghost predicate Reaches(l: seq<Request>, tape: seq<byte>, size: nat) {
    IPInside(l, tape) && size == Size(l, tape)
  }

  /** Lists that reach equally far have equal size. */
  lemma SizeReach(l: seq<Request>, m: seq<Request>, tape: seq<byte>)
    requires forall j :: 0 <= j < |l| ==> l[j].End() <= Size(m, tape)
    requires forall j :: 0 <= j < |m| ==> m[j].End() <= Size(l, tape)
    ensures Size(l, tape) == Size(m, tape)
  {
    SizeBound(l, tape);
    SizeBound(m, tape);
    SizeAtMost(l, tape, Size(m, tape));
    SizeAtMost(m, tape, Size(l, tape));
  }

  /** A new request pushes the size to its own end. */
  lemma SizeInsert(l: seq<Request>, i: nat, r: Request, tape: seq<byte>)
    requires i <= |l|
    ensures Size(InsertAt(l, i, r), tape) == Max(Size(l, tape), r.End())
  {
    SizeConcat(l[..i], [r] + l[i..], tape);
    SizeConcat([r], l[i..], tape);
    SizeConcat(l[..i], l[i..], tape);
    assert l == l[..i] + l[i..] && InsertAt(l, i, r) == l[..i] + ([r] + l[i..]);
    SizeBound(l, tape);
  }

  /** A request inside the tape file, or within another one's reach, does not count. */
  lemma SizeRemove(l: seq<Request>, i: nat, tape: seq<byte>)
    requires i < |l|
    requires l[i].End() <= |tape| || exists j :: 0 <= j < |l| && j != i && l[i].End() <= l[j].End()
    ensures Size(Remove(l, i), tape) == Size(l, tape)
  {
    var m := Remove(l, i);
    SizeBound(l, tape);
    SizeBound(m, tape);
    forall j | 0 <= j < |l| ensures l[j].End() <= Size(m, tape) {
      if j != i {
        assert m[if j < i then j else j - 1] == l[j];
      } else if l[i].End() > |tape| {
        var k :| 0 <= k < |l| && k != i && l[i].End() <= l[k].End();
        assert m[if k < i then k else k - 1] == l[k];
      }
    }
    SizeReach(l, m, tape);
  }

  // ---- What the primitive changes do to the size and to index-partition requests ----

  lemma UpdateSize(l: seq<Request>, i: nat, o: nat, d: seq<byte>, c: nat, tape: seq<byte>)
    requires i < |l| && l[i].offset <= o <= l[i].End() <= l[i].offset + c
    ensures var m := Update(l, i, o, d, c);
      Size(m, tape) == if d == [] then Size(l, tape) else Max(Size(l, tape), m[i].End())
  {
    var m := Update(l, i, o, d, c);
    SizeBound(l, tape);
    SizeBound(m, tape);
    assert forall j :: 0 <= j < |l| && j != i ==> m[j].End() == l[j].End();
    SizeAtMost(m, tape, Max(Size(l, tape), m[i].End()));
    SizeAtMost(l, tape, Size(m, tape));
  }

  lemma UpdateReaches(l: seq<Request>, i: nat, o: nat, d: seq<byte>, c: nat, tape: seq<byte>, size: nat)
    requires i < |l| && l[i].offset <= o <= l[i].End() <= l[i].offset + c && l[i].state != IP
    ensures var m := Update(l, i, o, d, c);
      Reaches(l, tape, size) ==> Reaches(m, tape, if d == [] then size else Max(size, m[i].End()))
  {
    UpdateSize(l, i, o, d, c, tape);
    assert forall j :: 0 <= j < |l| && j != i ==> Update(l, i, o, d, c)[j].End() == l[j].End();
  }

  /** A merge never changes how far the list reaches. */
  lemma MergeSize(l: seq<Request>, p: nat, i: nat, c: nat, tape: seq<byte>)
    requires p < i < |l| && Sized(l, c)
    ensures Size(MergeAt(l, p, i, c).list, tape) == Size(l, tape)
  {
    var m := MergeAt(l, p, i, c);
    MergeIsMerged(l, p, i, c);
    SizeBound(l, tape);
    SizeBound(m.list, tape);
    forall j | 0 <= j < |l| ensures l[j].End() <= Size(m.list, tape) {
      var k := if m.result == 2 && j > i then j - 1 else if m.result == 2 && j == i then p else j;
      assert j != p && j != i ==> SameBytes(m.list[k], l[j]);
      assert l[j].End() <= m.list[k].End();
    }
    forall k | 0 <= k < |m.list| ensures m.list[k].End() <= Size(l, tape) {
      var j := if m.result == 2 && k >= i then k + 1 else k;
      assert j != p && j != i ==> SameBytes(m.list[k], l[j]);
    }
    SizeReach(l, m.list, tape);
  }

  lemma MoveIPInside(l: seq<Request>, p: nat, i: nat, c: nat, tape: seq<byte>)
    requires p < i < |l| && |l[p].data| <= c && l[i].offset <= l[p].End() && IPInside(l, tape)
    ensures IPInside(AfterMove(l, p, i, c), tape)
  {
    var m := AfterMove(l, p, i, c);
    assert forall j :: 0 <= j < |l| && j != p ==> m[j].End() == l[j].End();
    assert l[p].state == IP && Moved(l[p], l[i], c) != [] ==> l[i].state == IP;
  }

  /** file_size after a merge: the update of the destination may have raised it. */
  function MergedSize(l: seq<Request>, p: nat, i: nat, c: nat, size: nat): nat
    requires p < i < |l|
  {
    if l[i].offset <= l[p].End() && Moved(l[p], l[i], c) != [] then
      Max(size, l[p].End() + |Moved(l[p], l[i], c)|)
    else size
  }

  /** A size that is right stays what it is, and stays right. */
  lemma MergeReaches(l: seq<Request>, p: nat, i: nat, c: nat, tape: seq<byte>, size: nat)
    requires p < i < |l| && Sized(l, c)
    ensures Reaches(l, tape, size) ==>
      MergedSize(l, p, i, c, size) == size && Reaches(MergeAt(l, p, i, c).list, tape, size)
  {
    if Reaches(l, tape, size) {
      SizeBound(l, tape);
      MergeSize(l, p, i, c, tape);
      if l[i].offset <= l[p].End() {
        MoveIPInside(l, p, i, c, tape);
      }
    }
  }

  /** An index-partition request can give up bytes: they are all inside the tape file. */
  lemma ShrinkIP(l: seq<Request>, i: nat, r: Request, tape: seq<byte>, size: nat)
    requires i < |l| && l[i].state == IP && r.state == IP && r.End() <= l[i].End()
    ensures Reaches(l, tape, size) ==> Reaches(l[i := r], tape, size)
  {
    if Reaches(l, tape, size) {
      var m := l[i := r];
      SizeBound(l, tape);
      SizeBound(m, tape);
      forall j | 0 <= j < |l| ensures l[j].End() <= Size(m, tape) && m[j].End() <= Size(l, tape) {
        assert j != i ==> m[j] == l[j];
      }
      SizeReach(l, m, tape);
    }
  }

  /** And it can go altogether. */
  lemma RemoveIPReaches(l: seq<Request>, i: nat, tape: seq<byte>, size: nat)
    requires i < |l| && l[i].state == IP
    ensures Reaches(l, tape, size) ==> Reaches(Remove(l, i), tape, size)
  {
    if Reaches(l, tape, size) {
      SizeRemove(l, i, tape);
    }
  }

  lemma InsertReaches(l: seq<Request>, i: nat, r: Request, tape: seq<byte>, size: nat)
    requires i <= |l| && r.state != IP
    ensures Reaches(l, tape, size) ==> Reaches(InsertAt(l, i, r), tape, Max(size, r.End()))
  {
    SizeInsert(l, i, r, tape);
  }
}
