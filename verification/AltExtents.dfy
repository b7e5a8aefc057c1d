/**
 The list of index-partition extents of one file (src/iosched/unified.c: the alt_extentlist,
 _unified_update_alt_extentlist and the trimming in unified_truncate).

 When the file is closed the extents are handed to the file system one after the other, so where
 two of them cover the same file offset the later one wins.
 */
module AltExtents {
  import opened Bytes

  /**
   `count` bytes of the file from `file` on, stored from byte `offset` of tape block `block` on.
   All extents are in the index partition.
   */
  datatype Extent = Extent(block: nat, offset: nat, count: nat, file: nat) {
    function End(): nat { file + count }

    predicate Covers(x: nat) { file <= x < End() }
  }

  /** The position of an extent's first byte, counting the bytes of the partition from 0. */
  function Address(e: Extent, bs: nat): nat {
    e.block * bs + e.offset
  }

  function EndAddress(e: Extent, bs: nat): nat {
    Address(e, bs) + e.count
  }

  /** Where on tape byte `x` of the file is. */
  function Resolve(l: seq<Extent>, x: nat, bs: nat): Option<nat> {
    if l == [] then None
    else
      var r := Resolve(l[1..], x, bs);
      if r.Some? then r
      else if l[0].Covers(x) then Some(Address(l[0], bs) + x - l[0].file)
      else None
  }

  /** The new extent follows entry `e` directly, in the file and on tape, at a block boundary. */
  predicate Follows(n: Extent, e: Extent, bs: nat)
    requires bs > 0
  {
    var end := e.offset + e.count;
    e.End() == n.file && n.offset == 0 && end % bs == 0 && e.block + end / bs == n.block
  }

  /** Entry `e` without its first `k` bytes: whole blocks are carried into the block number. */
  function TrimFront(e: Extent, k: nat, bs: nat): Extent
    requires bs > 0 && k <= e.count
  {
    var to := k + e.offset;
    Extent(e.block + to / bs, to % bs, e.count - k, e.file + k)
  }

  /**
   What becomes of an entry that does not lie wholly past the new extent: it takes the new
   extent's bytes, stays, is cut at its end or at its front, or goes. An entry that reaches past
   both ends of the new extent is not split: the new one goes in after it.
   */
  function Adjust(e: Extent, n: Extent, bs: nat): seq<Extent>
    requires bs > 0
  {
    if e.End() < n.file then [e]
    else if e.End() == n.file then [if Follows(n, e, bs) then e.(count := e.count + n.count) else e]
    else if e.file < n.file then [if e.End() <= n.End() then e.(count := n.file - e.file) else e]
    else if e.End() <= n.End() then []
    else if e.file < n.End() then [TrimFront(e, n.End() - e.file, bs)]
    else [e]
  }

  /** The entry lies wholly behind the new extent. */
  predicate PastEnd(e: Extent, n: Extent) {
    e.End() > n.End() && e.file >= n.End()
  }

  /** The loop over the entries, with `used` set once the new extent is in the list. */
  function Add(l: seq<Extent>, n: Extent, used: bool, bs: nat): seq<Extent>
    requires bs > 0
  {
    if l == [] then (if used then [] else [n])
    else
      var e := l[0];
      var head := if !used && n.file <= e.file then [n] else [];
      if PastEnd(e, n) then head + l
      else head + Adjust(e, n, bs) + Add(l[1..], n, used || n.file <= e.file || Follows(n, e, bs), bs)
  }

  /** Sorted by file offset, no entry empty. */
  ghost predicate Sorted(l: seq<Extent>) {
    && (forall j :: 0 <= j < |l| ==> l[j].count > 0)
    && (forall j, k :: 0 <= j < k < |l| ==> l[j].file <= l[k].file)
  }

  /** No later entry reaches over the end of this one. */
  ghost predicate Topmost(l: seq<Extent>, i: nat)
    requires i < |l|
  {
    forall j :: i < j < |l| ==> l[j].End() <= l[i].End() || l[i].End() <= l[j].file
  }

  /**
   Everything stored ends at or before tape position `top`, and an entry that ends there, to
   which the next extent might be appended, is topmost.
   */
  ghost predicate Below(l: seq<Extent>, top: nat, bs: nat) {
    forall i :: 0 <= i < |l| ==>
      EndAddress(l[i], bs) <= top && (EndAddress(l[i], bs) == top ==> Topmost(l, i))
  }

  lemma DivMod(a: nat, bs: nat)
    requires bs > 0
    ensures (a / bs) * bs + a % bs == a
  {
  }

  lemma Carry(block: nat, a: nat, bs: nat)
    requires bs > 0
    ensures (block + a / bs) * bs + a % bs == block * bs + a
  {
    DivMod(a, bs);
    assert (block + a / bs) * bs == block * bs + (a / bs) * bs;
  }

  lemma TrimFrontAddress(e: Extent, k: nat, bs: nat)
    requires bs > 0 && k <= e.count
    ensures Address(TrimFront(e, k, bs), bs) == Address(e, bs) + k
    ensures TrimFront(e, k, bs).End() == e.End()
  {
    Carry(e.block, k + e.offset, bs);
  }

  lemma FollowsAddress(n: Extent, e: Extent, bs: nat)
    requires bs > 0 && Follows(n, e, bs)
    ensures Address(n, bs) == EndAddress(e, bs)
  {
    Carry(e.block, e.offset + e.count, bs);
  }

  // ---- Adding an extent overlays it ----

  /** Once the new extent is in the list, no entry ahead reaches from before it into it. */
  ghost predicate NoneAcross(l: seq<Extent>, n: Extent) {
    forall j :: 0 <= j < |l| ==> l[j].file >= n.file || l[j].End() <= n.file
  }

  lemma BelowTail(l: seq<Extent>, top: nat, bs: nat)
    requires l != [] && Sorted(l) && Below(l, top, bs)
    ensures Sorted(l[1..]) && Below(l[1..], top, bs)
  {
    var t := l[1..];
    forall i | 0 <= i < |t| && EndAddress(t[i], bs) == top ensures Topmost(t, i) {
      assert Topmost(l, i + 1);
      assert forall j :: i < j < |t| ==> t[j] == l[j + 1];
    }
  }

  lemma FollowedNoneAcross(l: seq<Extent>, n: Extent, top: nat, bs: nat)
    requires bs > 0 && l != [] && Sorted(l) && Below(l, top, bs) && top <= Address(n, bs) && Follows(n, l[0], bs)
    ensures NoneAcross(l[1..], n)
  {
    FollowsAddress(n, l[0], bs);
    assert Topmost(l, 0);
    forall j | 0 <= j < |l[1..]| ensures l[1..][j].file >= n.file || l[1..][j].End() <= n.file {
      assert l[1..][j] == l[j + 1];
    }
  }

  lemma {:induction false} ResolveConcat(a: seq<Extent>, b: seq<Extent>, x: nat, bs: nat)
    ensures Resolve(a + b, x, bs) == if Resolve(b, x, bs).Some? then Resolve(b, x, bs) else Resolve(a, x, bs)
  {
    if a == [] {
      assert a + b == b;
    } else {
      assert (a + b)[1..] == a[1..] + b;
      ResolveConcat(a[1..], b, x, bs);
    }
  }

  /** The byte as the new extent has it. */
  function New(n: Extent, x: nat, bs: nat): Option<nat>
    requires n.Covers(x)
  {
    Some(Address(n, bs) + x - n.file)
  }

  /** Outside the new extent an adjusted entry resolves as before; inside, only an appended one does. */
  lemma AdjustResolves(e: Extent, n: Extent, x: nat, bs: nat)
    requires bs > 0 && n.count > 0 && e.count > 0
    ensures !n.Covers(x) ==> Resolve(Adjust(e, n, bs), x, bs) == Resolve([e], x, bs)
    ensures n.Covers(x) ==>
      if Follows(n, e, bs) then Resolve(Adjust(e, n, bs), x, bs) == New(n, x, bs)
      else (e.file < n.file && e.End() > n.End()) || Resolve(Adjust(e, n, bs), x, bs) == None
  {
    if Follows(n, e, bs) {
      FollowsAddress(n, e, bs);
    }
    if n.file <= e.file < n.End() < e.End() {
      TrimFrontAddress(e, n.End() - e.file, bs);
    }
  }

  /** Byte `x` of a result `r`: new inside the new extent, unless that is in the list already. */
  ghost predicate Overlaid(r: Option<nat>, l: seq<Extent>, n: Extent, used: bool, x: nat, bs: nat) {
    if n.Covers(x) then r == New(n, x, bs) || (used && r == None) else r == Resolve(l, x, bs)
  }

  lemma AddStep(l: seq<Extent>, tail: seq<Extent>, n: Extent, used: bool, x: nat, bs: nat)
    requires bs > 0 && n.count > 0 && l != [] && l[0].count > 0
    requires used ==> l[0].file >= n.file || l[0].End() <= n.file
    requires Overlaid(Resolve(tail, x, bs), l[1..], n,
                      used || n.file <= l[0].file || Follows(n, l[0], bs), x, bs)
    ensures var head := if !used && n.file <= l[0].file then [n] else [];
      Overlaid(Resolve(head + Adjust(l[0], n, bs) + tail, x, bs), l, n, used, x, bs)
  {
    var e := l[0];
    var head := if !used && n.file <= e.file then [n] else [];
    AdjustResolves(e, n, x, bs);
    ResolveConcat(head + Adjust(e, n, bs), tail, x, bs);
    ResolveConcat(head, Adjust(e, n, bs), x, bs);
    ResolveConcat([e], l[1..], x, bs);
    assert [e] + l[1..] == l;
  }

  lemma PastEndResolves(l: seq<Extent>, n: Extent, used: bool, x: nat, bs: nat)
    requires bs > 0 && n.count > 0 && Sorted(l) && l != [] && PastEnd(l[0], n)
    ensures Overlaid(Resolve(Add(l, n, used, bs), x, bs), l, n, used, x, bs)
  {
    NoneCover(l, n, x, bs);
    ResolveConcat(if !used && n.file <= l[0].file then [n] else [], l, x, bs);
  }

  /** What the rest of the loop does to byte `x`, given what it does with the rest of the list. */
  lemma {:induction false} AddResolves(l: seq<Extent>, n: Extent, used: bool, top: nat, x: nat, bs: nat)
    requires bs > 0 && n.count > 0 && Sorted(l) && Below(l, top, bs) && top <= Address(n, bs)
    requires used ==> NoneAcross(l, n)
    ensures Overlaid(Resolve(Add(l, n, used, bs), x, bs), l, n, used, x, bs)
  {
    if l != [] {
      var e, rest := l[0], l[1..];
      if PastEnd(e, n) {
        PastEndResolves(l, n, used, x, bs);
      } else {
        var now := used || n.file <= e.file || Follows(n, e, bs);
        BelowTail(l, top, bs);
        if Follows(n, e, bs) {
          FollowedNoneAcross(l, n, top, bs);
        }
        assert now ==> NoneAcross(rest, n);
        AddResolves(rest, n, now, top, x, bs);
        AddStep(l, Add(rest, n, now, bs), n, used, x, bs);
      }
    }
  }

  lemma {:induction false} NoneCover(l: seq<Extent>, n: Extent, x: nat, bs: nat)
    requires forall j :: 0 <= j < |l| ==> l[j].file >= n.End()
    ensures n.Covers(x) ==> Resolve(l, x, bs) == None
  {
    if l != [] {
      NoneCover(l[1..], n, x, bs);
    }
  }

  // ---- The list stays in order ----

  ghost predicate From(l: seq<Extent>, lo: nat) {
    forall j :: 0 <= j < |l| ==> l[j].count > 0 && l[j].file >= lo
  }

  lemma SortedConcat(a: seq<Extent>, b: seq<Extent>, mid: nat)
    requires Sorted(a) && Sorted(b) && From(b, mid)
    requires forall j :: 0 <= j < |a| ==> a[j].file <= mid
    ensures Sorted(a + b)
  {
  }

  lemma FromConcat(a: seq<Extent>, b: seq<Extent>, lo: nat)
    requires From(a, lo) && From(b, lo)
    ensures From(a + b, lo)
  {
  }

  /** Nothing the loop leaves starts before `lo`; once the new extent is in, nothing overlaps it. */
  lemma {:induction false} AddFrom(l: seq<Extent>, n: Extent, used: bool, lo: nat, bs: nat)
    requires bs > 0 && n.count > 0 && From(l, lo) && Sorted(l) && (used || lo <= n.file)
    ensures From(Add(l, n, used, bs), lo)
    ensures used && lo >= n.file ==> From(Add(l, n, used, bs), n.End())
  {
    if l != [] {
      var e, rest := l[0], l[1..];
      var head := if !used && n.file <= e.file then [n] else [];
      var now := used || n.file <= e.file || Follows(n, e, bs);
      assert From(rest, e.file) && Sorted(rest) && From(rest, lo);
      if !(PastEnd(e, n)) {
        AddFrom(rest, n, now, lo, bs);
      }
    }
  }

  lemma {:induction false} AddSorted(l: seq<Extent>, n: Extent, used: bool, bs: nat)
    requires bs > 0 && n.count > 0 && Sorted(l)
    ensures Sorted(Add(l, n, used, bs))
  {
    if l != [] {
      var e, rest := l[0], l[1..];
      var head := if !used && n.file <= e.file then [n] else [];
      var now := used || n.file <= e.file || Follows(n, e, bs);
      assert From(rest, e.file) && Sorted(rest);
      if PastEnd(e, n) {
        SortedConcat(head, l, e.file);
      } else {
        AddSorted(rest, n, now, bs);
        var tail := Add(rest, n, now, bs);
        AddFrom(rest, n, now, e.file, bs);
        if e.file >= n.file {
          SortedConcat(Adjust(e, n, bs), tail, n.End());
          FromConcat(Adjust(e, n, bs), tail, n.End());
          SortedConcat(head, Adjust(e, n, bs) + tail, n.End());
          assert head + Adjust(e, n, bs) + tail == head + (Adjust(e, n, bs) + tail);
        } else {
          SortedConcat(Adjust(e, n, bs), tail, e.file);
          assert head + Adjust(e, n, bs) + tail == Adjust(e, n, bs) + tail;
        }
      }
    }
  }

  /** No entry reaches over the end of the new extent. */
  ghost predicate NoneOver(l: seq<Extent>, n: Extent) {
    forall j :: 0 <= j < |l| ==> l[j].End() <= n.End() || n.End() <= l[j].file
  }

  lemma {:induction false} AddNoneOver(l: seq<Extent>, n: Extent, bs: nat)
    requires bs > 0 && n.count > 0 && Sorted(l) && NoneAcross(l, n)
    ensures NoneOver(Add(l, n, true, bs), n)
  {
    if l != [] {
      var e, rest := l[0], l[1..];
      assert Sorted(rest) && NoneAcross(rest, n);
      if PastEnd(e, n) {
        assert forall j :: 0 <= j < |l| ==> l[j].file >= n.End();
      } else {
        AddNoneOver(rest, n, bs);
        if n.file <= e.file < n.End() < e.End() {
          TrimFrontAddress(e, n.End() - e.file, bs);
        }
      }
    }
  }

  lemma BelowCons(e: Extent, l: seq<Extent>, top: nat, bs: nat)
    requires Below(l, top, bs) && EndAddress(e, bs) <= top
    requires EndAddress(e, bs) == top ==> NoneOver(l, e)
    ensures Below([e] + l, top, bs)
  {
    var m := [e] + l;
    forall i | 0 <= i < |m|
      ensures EndAddress(m[i], bs) <= top && (EndAddress(m[i], bs) == top ==> Topmost(m, i))
    {
      if i > 0 {
        assert EndAddress(l[i - 1], bs) == top ==> Topmost(l, i - 1);
        assert forall j :: i < j < |m| ==> m[j] == l[j - 1];
      }
    }
  }

  /** Everything below a position is below any later one, where nothing ends any more. */
  lemma BelowLater(l: seq<Extent>, top: nat, later: nat, bs: nat)
    requires Below(l, top, bs) && top < later
    ensures Below(l, later, bs)
  {
  }

  lemma AdjustBelow(e: Extent, n: Extent, top: nat, bs: nat, tail: seq<Extent>)
    requires bs > 0 && n.count > 0 && e.count > 0 && EndAddress(e, bs) <= top <= Address(n, bs)
    requires Below(tail, Address(n, bs) + n.count, bs) && (Follows(n, e, bs) ==> NoneOver(tail, n))
    ensures Below(Adjust(e, n, bs) + tail, Address(n, bs) + n.count, bs)
  {
    var adj := Adjust(e, n, bs);
    if Follows(n, e, bs) {
      FollowsAddress(n, e, bs);
      assert adj[0].End() == n.End();
    }
    if n.file <= e.file < n.End() < e.End() {
      TrimFrontAddress(e, n.End() - e.file, bs);
    }
    if adj == [] {
      assert adj + tail == tail;
    } else {
      BelowCons(adj[0], tail, Address(n, bs) + n.count, bs);
      assert adj == [adj[0]];
    }
  }

  lemma {:induction false} AddBelow(l: seq<Extent>, n: Extent, used: bool, top: nat, bs: nat)
    requires bs > 0 && n.count > 0 && Sorted(l) && Below(l, top, bs) && top <= Address(n, bs)
    requires used ==> NoneAcross(l, n)
    ensures Below(Add(l, n, used, bs), Address(n, bs) + n.count, bs)
  {
    var later := Address(n, bs) + n.count;
    if l == [] {
      BelowCons(n, [], later, bs);
    } else {
      BelowTail(l, top, bs);
      if PastEnd(l[0], n) {
        BelowLater(l, top, later, bs);
        BelowCons(n, l, later, bs);
      } else {
        var now := UsedBy(l, n, used, bs);
        UsedNoneAcross(l, n, used, top, bs);
        AddBelow(l[1..], n, now, top, bs);
        if now {
          AddNoneOver(l[1..], n, bs);
        }
        AdjustedBelow(l[0], n, used, now, top, bs, Add(l[1..], n, now, bs));
        AddUnfolds(l, n, used, bs);
      }
    }
  }

  /** Whether the new extent is in the list once its first entry was dealt with. */
  predicate UsedBy(l: seq<Extent>, n: Extent, used: bool, bs: nat)
    requires bs > 0 && l != []
  {
    used || n.file <= l[0].file || Follows(n, l[0], bs)
  }

  lemma UsedNoneAcross(l: seq<Extent>, n: Extent, used: bool, top: nat, bs: nat)
    requires bs > 0 && n.count > 0 && Sorted(l) && Below(l, top, bs) && top <= Address(n, bs) && l != []
    requires used ==> NoneAcross(l, n)
    ensures Sorted(l[1..]) && (UsedBy(l, n, used, bs) ==> NoneAcross(l[1..], n))
  {
    if Follows(n, l[0], bs) {
      FollowedNoneAcross(l, n, top, bs);
    }
  }

  /** The first entry adjusted, in front of what became of the others. */
  lemma AdjustedBelow(e: Extent, n: Extent, used: bool, now: bool, top: nat, bs: nat, tail: seq<Extent>)
    requires bs > 0 && n.count > 0 && e.count > 0 && !PastEnd(e, n)
    requires EndAddress(e, bs) <= top <= Address(n, bs)
    requires Below(tail, Address(n, bs) + n.count, bs) && (now ==> NoneOver(tail, n))
    requires now == (used || n.file <= e.file || Follows(n, e, bs))
    ensures Below(Behind(e, n, used, tail, bs), Address(n, bs) + n.count, bs)
  {
    AdjustBelow(e, n, top, bs, tail);
    if !used && n.file <= e.file {
      HeadBelow(e, n, tail, bs);
    }
  }

  /** The new extent if it belongs there, the adjusted entry, and what follows. */
  function Behind(e: Extent, n: Extent, used: bool, tail: seq<Extent>, bs: nat): seq<Extent>
    requires bs > 0
  {
    if !used && n.file <= e.file then [n] + (Adjust(e, n, bs) + tail) else Adjust(e, n, bs) + tail
  }

  lemma AddUnfolds(l: seq<Extent>, n: Extent, used: bool, bs: nat)
    requires bs > 0 && l != [] && !PastEnd(l[0], n)
    ensures Add(l, n, used, bs) == Behind(l[0], n, used, Add(l[1..], n, UsedBy(l, n, used, bs), bs), bs)
  {
    var tail := Add(l[1..], n, UsedBy(l, n, used, bs), bs);
    var head := if !used && n.file <= l[0].file then [n] else [];
    assert head + Adjust(l[0], n, bs) + tail == head + (Adjust(l[0], n, bs) + tail);
  }

  /** The new extent in front of what it left of the others. */
  lemma HeadBelow(e: Extent, n: Extent, tail: seq<Extent>, bs: nat)
    requires bs > 0 && n.count > 0 && e.count > 0 && n.file <= e.file && !PastEnd(e, n)
    requires Below(Adjust(e, n, bs) + tail, Address(n, bs) + n.count, bs) && NoneOver(tail, n)
    ensures Below([n] + (Adjust(e, n, bs) + tail), Address(n, bs) + n.count, bs)
  {
    assert NoneOver(Adjust(e, n, bs) + tail, n);
    BelowCons(n, Adjust(e, n, bs) + tail, Address(n, bs) + n.count, bs);
  }

  /** The list as the scheduler keeps it, with everything stored so far before tape position `top`. */
  ghost predicate InOrder(l: seq<Extent>, top: nat, bs: nat) {
    bs > 0 && Sorted(l) && Below(l, top, bs)
  }

  /**
   Adding an extent on fresh tape blocks leaves every byte of the file resolved as before, except
   those of the new extent, which resolve to it; and keeps the list fit for the next extent.
   */
  lemma AddOverlays(l: seq<Extent>, n: Extent, top: nat, bs: nat)
    requires InOrder(l, top, bs) && n.count > 0 && top <= Address(n, bs)
    ensures var m := Add(l, n, false, bs);
      && InOrder(m, Address(n, bs) + n.count, bs)
      && forall x: nat :: Resolve(m, x, bs) == if n.Covers(x) then New(n, x, bs) else Resolve(l, x, bs)
  {
    AddSorted(l, n, false, bs);
    AddBelow(l, n, false, top, bs);
    forall x: nat
      ensures Resolve(Add(l, n, false, bs), x, bs) == if n.Covers(x) then New(n, x, bs) else Resolve(l, x, bs)
    {
      AddResolves(l, n, false, top, x, bs);
    }
  }

  // ---- Truncation ----

  /** The loop of unified_truncate over the extents. */
  function TrimTo(l: seq<Extent>, size: nat): seq<Extent> {
    if l == [] then []
    else if l[0].file >= size then TrimTo(l[1..], size)
    else if l[0].End() > size then [l[0].(count := size - l[0].file)] + TrimTo(l[1..], size)
    else [l[0]] + TrimTo(l[1..], size)
  }

  lemma {:induction false} TrimToResolves(l: seq<Extent>, size: nat, x: nat, bs: nat)
    ensures Resolve(TrimTo(l, size), x, bs) == if x < size then Resolve(l, x, bs) else None
  {
    if l != [] {
      TrimToResolves(l[1..], size, x, bs);
    }
  }

  lemma {:induction false} TrimToFrom(l: seq<Extent>, size: nat, lo: nat, hi: nat)
    requires From(l, lo) && forall j :: 0 <= j < |l| ==> l[j].End() <= hi || hi <= l[j].file
    ensures var m := TrimTo(l, size);
      From(m, lo) && forall j :: 0 <= j < |m| ==> m[j].End() <= hi || hi <= m[j].file
  {
    if l != [] {
      TrimToFrom(l[1..], size, lo, hi);
    }
  }

  lemma {:induction false} TrimToValid(l: seq<Extent>, size: nat, top: nat, bs: nat)
    requires InOrder(l, top, bs)
    ensures InOrder(TrimTo(l, size), top, bs)
  {
    if l != [] {
      var e, rest := l[0], l[1..];
      BelowTail(l, top, bs);
      TrimToValid(rest, size, top, bs);
      var m := TrimTo(rest, size);
      assert From(rest, e.file);
      TrimToFrom(rest, size, e.file, 0);
      if e.file < size {
        if EndAddress(e, bs) == top && e.End() <= size {
          assert Topmost(l, 0);
          TrimToFrom(rest, size, e.file, e.End());
        }
        var f := if e.End() > size then e.(count := size - e.file) else e;
        BelowCons(f, m, top, bs);
        SortedConcat([f], m, e.file);
      }
    }
  }

  /** One turn of the loop, with what is already done in front. */
  lemma AddFirst(done: seq<Extent>, l: seq<Extent>, n: Extent, used: bool, bs: nat)
    requires bs > 0 && l != []
    ensures var e := l[0];
      var head := if !used && n.file <= e.file then [n] else [];
      done + Add(l, n, used, bs) ==
        if PastEnd(e, n) then done + head + l
        else done + head + Adjust(e, n, bs) +
             Add(l[1..], n, used || n.file <= e.file || Follows(n, e, bs), bs)
  {
  }

  // ---- Emptying the list ----

  /** A truncation leaves the list empty exactly when no extent starts before the new size. */
  lemma {:induction false} TrimToEmpty(l: seq<Extent>, size: nat)
    ensures TrimTo(l, size) == [] <==> forall j :: 0 <= j < |l| ==> l[j].file >= size
  {
    if l != [] {
      TrimToEmpty(l[1..], size);
      if l[0].file >= size {
        assert forall j :: 0 < j < |l| ==> l[j] == l[1..][j - 1];
      }
    }
  }

  /** Adding an extent never leaves the list empty. */
  lemma AddNotEmpty(l: seq<Extent>, n: Extent, bs: nat)
    requires bs > 0 && n.count > 0 && forall j :: 0 <= j < |l| ==> l[j].count > 0
    ensures Add(l, n, false, bs) != []
  {
  }
}
