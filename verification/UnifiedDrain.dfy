/**
 How requests leave the list: truncation, flushing and the background passes
 (src/iosched/unified.c: unified_truncate, _unified_flush_unlocked, _unified_process_data_queue,
 _unified_process_index_queue, _unified_unset_write_ip), and why the file does not change.
 */
module UnifiedDrain {
  import opened Bytes
  import opened Requests
  import opened RequestOps
  import opened UnifiedRead

  /** The same file: the same size and the same byte everywhere. */
  lemma SameView(l: seq<Request>, tape: seq<byte>, m: seq<Request>, s: seq<byte>)
    requires Size(l, tape) == Size(m, s)
    requires forall x: nat :: x < Size(l, tape) ==> At(l, tape, x) == At(m, s, x)
    ensures View(l, tape) == View(m, s)
  {
    forall x: nat | x < Size(l, tape) ensures View(l, tape)[x] == View(m, s)[x] {
      assert At(l, tape, x) == At(m, s, x);
    }
  }

  lemma {:induction false} SizeConcat(a: seq<Request>, b: seq<Request>, tape: seq<byte>)
    ensures Size(a + b, tape) == Max(Size(a, tape), Size(b, tape))
  {
    SizeBound(b, tape);
    if a == [] {
      assert a + b == b;
    } else {
      assert (a + b)[1..] == a[1..] + b;
      SizeConcat(a[1..], b, tape);
    }
  }

  lemma {:induction false} SizeTape(l: seq<Request>, tape: seq<byte>, s: seq<byte>)
    ensures Max(Size(l, tape), |s|) == Max(Size(l, s), |tape|)
  {
    if l != [] {
      SizeTape(l[1..], tape, s);
    }
  }

  // ---- Requests written to tape ----

  /** No byte belongs to both requests. */
  predicate Clear(a: Request, b: Request) {
    a.End() <= b.offset || b.End() <= a.offset
  }

  /**
   Writing the first detached request to tape leaves the file as it was, whatever was queued
   over it meanwhile, when the other detached requests stay clear of it.
   */
  lemma WriteOne(l: seq<Request>, r: Request, rest: seq<Request>, tape: seq<byte>)
    requires |r.data| > 0
    requires forall j :: 0 <= j < |rest| ==> Clear(r, rest[j])
    ensures View(l + rest, Overlay(tape, r.offset, r.data)) == View(l + [r] + rest, tape)
  {
    var s := Overlay(tape, r.offset, r.data);
    WriteOneSize(l, r, rest, tape);
    forall x: nat ensures At(l + rest, s, x) == At(l + [r] + rest, tape, x) {
      LookupConcat(l, rest, x);
      LookupConcat(l + [r], rest, x);
      LookupConcat(l, [r], x);
      if r.Covers(x) {
        LookupNone(rest, x);
      }
    }
    SameView(l + rest, s, l + [r] + rest, tape);
  }

  lemma WriteOneSize(l: seq<Request>, r: Request, rest: seq<Request>, tape: seq<byte>)
    requires |r.data| > 0
    ensures Size(l + rest, Overlay(tape, r.offset, r.data)) == Size(l + [r] + rest, tape)
  {
    var s := Overlay(tape, r.offset, r.data);
    SizeConcat(l, rest, s);
    SizeConcat(l + [r], rest, tape);
    SizeConcat(l, [r], tape);
    SizeTape(l, tape, s);
    SizeTape(rest, tape, s);
    SizeBound(l, tape);
    SizeBound(l, s);
    SizeBound(rest, tape);
    SizeBound(rest, s);
    assert Size([r], tape) == Max(r.End(), |tape|);
  }

  function WriteAll(local: seq<Request>, tape: seq<byte>): seq<byte> {
    if local == [] then tape else WriteAll(local[1..], Overlay(tape, local[0].offset, local[0].data))
  }

  ghost predicate AllClear(l: seq<Request>) {
    forall j, k :: 0 <= j < k < |l| ==> Clear(l[j], l[k])
  }

  /** Writing all detached requests, in order, leaves the file as it was. */
  lemma {:induction false} WriteAllView(l: seq<Request>, local: seq<Request>, tape: seq<byte>)
    requires AllClear(local) && forall j :: 0 <= j < |local| ==> |local[j].data| > 0
    ensures View(l, WriteAll(local, tape)) == View(l + local, tape)
  {
    if local == [] {
      assert l + local == l;
    } else {
      var s := Overlay(tape, local[0].offset, local[0].data);
      WriteAllView(l, local[1..], s);
      WriteOne(l, local[0], local[1..], tape);
      assert l + [local[0]] + local[1..] == l + local;
    }
  }

  // ---- Truncation ----

  /** The loop of unified_truncate, from the end of the list back. */
  function Trim(l: seq<Request>, n: nat): seq<Request> {
    if l == [] then []
    else
      var r, rest := l[|l| - 1], l[..|l| - 1];
      if r.offset >= n then Trim(rest, n)
      else if r.End() > n then Trim(rest, n) + [r.(data := r.data[..n - r.offset])]
      else l
  }

  /** `a` is what is left of `b` before `n`. */
  predicate Cut(a: Request, b: Request, n: nat) {
    && a.offset == b.offset && a.state == b.state && a.End() <= n
    && 0 < |a.data| <= |b.data| && a.data == b.data[..|a.data|]
  }

  lemma {:induction false} TrimCut(l: seq<Request>, n: nat)
    requires Disjoint(l) && forall j :: 0 <= j < |l| ==> |l[j].data| > 0
    ensures |Trim(l, n)| <= |l| && forall j :: 0 <= j < |Trim(l, n)| ==> Cut(Trim(l, n)[j], l[j], n)
  {
    if l != [] {
      var r, rest := l[|l| - 1], l[..|l| - 1];
      if r.offset >= n {
        TrimCut(rest, n);
      } else if r.End() > n {
        TrimCut(rest, n);
        TrimAll(rest, n);
      } else {
        forall j | 0 <= j < |l| ensures Cut(l[j], l[j], n) {
          assert j < |l| - 1 ==> l[j].End() <= r.offset;
        }
      }
    }
  }

  /** Requests that end by `n` all stay. */
  lemma TrimAll(l: seq<Request>, n: nat)
    requires Disjoint(l) && (l != [] ==> l[|l| - 1].End() <= n)
    requires forall j :: 0 <= j < |l| ==> |l[j].data| > 0
    ensures Trim(l, n) == l
  {
  }

  /** Trimming changes no byte before `n`, whatever the order of the list. */
  lemma {:induction false} TrimLookup(l: seq<Request>, n: nat, x: nat)
    requires x < n
    ensures Lookup(Trim(l, n), x) == Lookup(l, x)
  {
    if l != [] {
      var r, rest := l[|l| - 1], l[..|l| - 1];
      LookupLast(l, x);
      if r.offset >= n {
        TrimLookup(rest, n, x);
      } else if r.End() > n {
        TrimLookup(rest, n, x);
        var m := Trim(rest, n) + [r.(data := r.data[..n - r.offset])];
        assert m[..|m| - 1] == Trim(rest, n);
        LookupLast(m, x);
      }
    }
  }

  /** The last request answers if no earlier one does. */
  lemma LookupLast(l: seq<Request>, x: nat)
    requires l != []
    ensures var r, rest := l[|l| - 1], l[..|l| - 1];
      Lookup(l, x) ==
        if Lookup(rest, x).Some? then Lookup(rest, x)
        else if r.Covers(x) then Some(r.data[x - r.offset]) else None
  {
    LookupAt(l, |l| - 1, x);
    assert l[|l|..] == [];
  }

  lemma CutWellFormed(l: seq<Request>, m: seq<Request>, n: nat, c: nat)
    requires WellFormed(l, c) && |m| <= |l| && forall j :: 0 <= j < |m| ==> Cut(m[j], l[j], n)
    ensures WellFormed(m, c)
  {
    forall j, k | 0 <= j < k < |m| ensures m[j].End() <= m[k].offset {
      assert Cut(m[j], l[j], n) && Cut(m[k], l[k], n) && l[j].End() <= l[k].offset;
    }
  }

  lemma {:induction false} SizeAtMost(l: seq<Request>, tape: seq<byte>, n: nat)
    requires |tape| <= n && forall j :: 0 <= j < |l| ==> l[j].End() <= n
    ensures Size(l, tape) <= n
  {
    if l != [] {
      SizeAtMost(l[1..], tape, n);
    }
  }

  /**
   unified_truncate to `n` bytes: requests are trimmed only if the file gets shorter than `size`,
   the size the scheduler keeps for it.
   */
  function Truncated(l: seq<Request>, size: nat, n: nat): seq<Request> {
    if n < size then Trim(l, n) else l
  }

  /** Every request ends by `n`; with `drop`, index-partition requests need not. */
  ghost predicate EndsBy(l: seq<Request>, n: nat, drop: bool) {
    forall j :: 0 <= j < |l| && !(drop && l[j].state == IP) ==> l[j].End() <= n
  }

  /** No request that ends by `n`, at which the loop stops, comes after one that does not. */
  ghost predicate StopsInTime(l: seq<Request>, n: nat, drop: bool) {
    forall j, k :: 0 <= j < k < |l| && l[k].End() <= n && !(drop && l[j].state == IP) ==> l[j].End() <= n
  }

  /** The loop gets to every request that has to be cut exactly when it does not stop before one. */
  lemma {:induction false} TrimEndsBy(l: seq<Request>, n: nat, drop: bool)
    requires forall j :: 0 <= j < |l| ==> |l[j].data| > 0
    ensures EndsBy(Trim(l, n), n, drop) <==> StopsInTime(l, n, drop)
  {
    if l != [] {
      var r, rest := l[|l| - 1], l[..|l| - 1];
      if r.offset >= n {
        TrimEndsBy(rest, n, drop);
        StopsBefore(l, n, drop);
      } else if r.End() > n {
        TrimEndsBy(rest, n, drop);
        StopsBefore(l, n, drop);
        EndsByLast(Trim(rest, n), r.(data := r.data[..n - r.offset]), n, drop);
      } else {
        StopsAtLast(l, n, drop);
      }
    }
  }

  lemma EndsByLast(m: seq<Request>, r: Request, n: nat, drop: bool)
    requires r.End() <= n
    ensures EndsBy(m + [r], n, drop) <==> EndsBy(m, n, drop)
  {
    assert forall j :: 0 <= j < |m| ==> (m + [r])[j] == m[j];
  }

  lemma StopsBefore(l: seq<Request>, n: nat, drop: bool)
    requires l != [] && l[|l| - 1].End() > n
    ensures StopsInTime(l[..|l| - 1], n, drop) <==> StopsInTime(l, n, drop)
  {
    var rest := l[..|l| - 1];
    assert forall j :: 0 <= j < |rest| ==> rest[j] == l[j];
  }

  lemma StopsAtLast(l: seq<Request>, n: nat, drop: bool)
    requires l != [] && l[|l| - 1].End() <= n
    ensures EndsBy(l, n, drop) <==> StopsInTime(l, n, drop)
  {
    if StopsInTime(l, n, drop) {
      forall j | 0 <= j < |l| && !(drop && l[j].state == IP) ensures l[j].End() <= n {
        assert j < |l| - 1 ==> l[|l| - 1].End() <= n;
      }
    }
  }

  /** The size is `n` exactly when every request ends by it, on a tape file of `n` bytes. */
  lemma SizeEndsBy(l: seq<Request>, tape: seq<byte>)
    ensures Size(l, tape) == |tape| <==> EndsBy(l, |tape|, false)
  {
    SizeBound(l, tape);
    if EndsBy(l, |tape|, false) {
      SizeAtMost(l, tape, |tape|);
    }
  }

  lemma CutOnTape(a: Request, b: Request, tape: seq<byte>, n: nat)
    requires Cut(a, b, n) && OnTape(b, tape)
    ensures OnTape(a, Resize(tape, n))
  {
    OnTapePart(b, 0, |a.data|, tape);
    var s := Resize(tape, n);
    assert s[a.offset..a.End()] == tape[a.offset..a.End()];
  }

  lemma {:induction false} TrimNoIP(l: seq<Request>, n: nat)
    requires NoIP(l)
    ensures NoIP(Trim(l, n))
  {
    if l != [] {
      TrimNoIP(l[..|l| - 1], n);
    }
  }

  lemma {:induction false} TrimSized(l: seq<Request>, n: nat, c: nat)
    requires Sized(l, c)
    ensures Sized(Trim(l, n), c)
  {
    if l != [] {
      TrimSized(l[..|l| - 1], n, c);
    }
  }

  lemma TruncatedCut(l: seq<Request>, size: nat, n: nat, c: nat)
    requires WellFormed(l, c) && forall j :: 0 <= j < |l| ==> l[j].End() <= size
    ensures var m := Truncated(l, size, n);
      && |m| <= |l| && (forall j :: 0 <= j < |m| ==> Cut(m[j], l[j], n))
      && forall x: nat :: x < n ==> Lookup(m, x) == Lookup(l, x)
  {
    TrimCut(l, n);
    forall x: nat | x < n ensures Lookup(Trim(l, n), x) == Lookup(l, x) {
      TrimLookup(l, n, x);
    }
  }

  lemma CutView(l: seq<Request>, m: seq<Request>, tape: seq<byte>, n: nat)
    requires forall x: nat :: x < n ==> Lookup(m, x) == Lookup(l, x)
    ensures n <= Size(m, Resize(tape, n))
    ensures forall x: nat :: x < n ==> View(m, Resize(tape, n))[x] == Resize(View(l, tape), n)[x]
    ensures View(m, Resize(tape, n)) == Resize(View(l, tape), n) <==> EndsBy(m, n, false)
  {
    var s := Resize(tape, n);
    SizeEndsBy(m, s);
    SizeBound(m, s);
    SizeBound(l, tape);
    forall x: nat | x < n ensures View(m, s)[x] == Resize(View(l, tape), n)[x] {
      assert Lookup(m, x) == Lookup(l, x);
      if x >= Size(l, tape) {
        LookupNone(l, x);
      }
    }
  }

  /**
   Truncation never changes a byte before `n`, and it resizes the file exactly when the file does not
   get shorter or the loop does not stop before a request that has to be cut.
   */
  lemma TruncateResizes(l: seq<Request>, tape: seq<byte>, n: nat, c: nat)
    requires Sized(l, c)
    ensures var m, s := Truncated(l, Size(l, tape), n), Resize(tape, n);
      && n <= Size(m, s) && (forall x: nat :: x < n ==> View(m, s)[x] == Resize(View(l, tape), n)[x])
      && (View(m, s) == Resize(View(l, tape), n) <==> n >= Size(l, tape) || StopsInTime(l, n, false))
  {
    SizeBound(l, tape);
    TrimEndsBy(l, n, false);
    forall x: nat | x < n ensures Lookup(Trim(l, n), x) == Lookup(l, x) {
      TrimLookup(l, n, x);
    }
    CutView(l, Truncated(l, Size(l, tape), n), tape, n);
  }

  /** A list in order is resized, and its requests stay in order and in agreement with tape. */
  lemma TruncateKeepsOrder(l: seq<Request>, tape: seq<byte>, n: nat, c: nat)
    requires WellFormed(l, c)
    ensures StopsInTime(l, n, false)
    ensures var m := Truncated(l, Size(l, tape), n);
      && WellFormed(m, c)
      && View(m, Resize(tape, n)) == Resize(View(l, tape), n)
      && (IPAgree(l, tape) ==> IPAgree(m, Resize(tape, n)))
      && (NoIP(l) ==> NoIP(m))
  {
    var m := Truncated(l, Size(l, tape), n);
    TruncateResizes(l, tape, n, c);
    SizeBound(l, tape);
    TruncatedCut(l, Size(l, tape), n, c);
    CutWellFormed(l, m, n, c);
    if IPAgree(l, tape) {
      forall j | 0 <= j < |m| && m[j].state == IP ensures OnTape(m[j], Resize(tape, n)) {
        CutOnTape(m[j], l[j], tape, n);
      }
    }
  }

  // ---- Dropping the index-partition requests ----

  function DropIP(l: seq<Request>): seq<Request> {
    if l == [] then []
    else if l[0].state == IP then DropIP(l[1..])
    else [l[0]] + DropIP(l[1..])
  }

  lemma {:induction false} DropIPMember(l: seq<Request>, r: Request)
    ensures r in DropIP(l) <==> r in l && r.state != IP
  {
    if l != [] {
      DropIPMember(l[1..], r);
      assert r in l <==> r == l[0] || r in l[1..];
    }
  }

  lemma DropIPLeavesNone(l: seq<Request>)
    ensures NoIP(DropIP(l))
  {
    forall j | 0 <= j < |DropIP(l)| ensures DropIP(l)[j].state != IP {
      DropIPMember(l, DropIP(l)[j]);
    }
  }

  lemma {:induction false} DropIPDisjoint(l: seq<Request>)
    requires Disjoint(l)
    ensures Disjoint(DropIP(l))
  {
    if l != [] {
      DropIPDisjoint(l[1..]);
      var m := DropIP(l[1..]);
      forall j | 0 <= j < |m| ensures l[0].End() <= m[j].offset {
        DropIPMember(l[1..], m[j]);
      }
    }
  }

  lemma DropIPKeepsOrder(l: seq<Request>, c: nat)
    requires WellFormed(l, c)
    ensures WellFormed(DropIP(l), c) && NoIP(DropIP(l))
  {
    DropIPDisjoint(l);
    var m := DropIP(l);
    forall j | 0 <= j < |m| ensures m[j] in l && m[j].state != IP {
      DropIPMember(l, m[j]);
    }
  }

  lemma {:induction false} DropIPLook(l: seq<Request>, tape: seq<byte>, x: nat, c: nat)
    requires WellFormed(l, c) && IPAgree(l, tape)
    ensures Look(DropIP(l), tape, x) == Look(l, tape, x)
  {
    if l != [] {
      DropIPLook(l[1..], tape, x, c);
      if l[0].state == IP {
        if l[0].Covers(x) {
          LookupNone(l[1..], x);
          OnTapeByte(l[0], tape, x);
        }
      } else {
        assert DropIP(l)[1..] == DropIP(l[1..]);
      }
    }
  }

  lemma OnTapeByte(r: Request, tape: seq<byte>, x: nat)
    requires OnTape(r, tape) && r.Covers(x)
    ensures x < |tape| && tape[x] == r.data[x - r.offset]
  {
    assert tape[r.offset..r.End()][x - r.offset] == tape[x];
  }

  /** Dropping every index-partition request loses no byte of the file. */
  lemma DropIPView(l: seq<Request>, tape: seq<byte>, c: nat)
    requires WellFormed(l, c) && IPAgree(l, tape)
    ensures View(DropIP(l), tape) == View(l, tape) && WellFormed(DropIP(l), c) && NoIP(DropIP(l))
  {
    DropIPKeepsOrder(l, c);
    forall x: nat ensures Look(DropIP(l), tape, x) == Look(l, tape, x) {
      DropIPLook(l, tape, x, c);
    }
    assert LookOverlay(l, DropIP(l), tape, 0, []);
    ViewOverlay(l, DropIP(l), tape, 0, []);
  }
}
