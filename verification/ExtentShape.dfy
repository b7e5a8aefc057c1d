/**
 The shape of the extent list (src/iosched/unified.c: _unified_update_alt_extentlist): when the new extent
 lengthens the entry it follows instead of becoming an entry of its own, and when the entries stay apart.
 */
module ExtentShape {
  import opened Bytes
  import opened AltExtents

  // ---- Extents that continue each other ----

  lemma AtLeastOne(k: int, bs: nat)
    requires k >= 1
    ensures k * bs >= bs && -k * bs + bs <= 0
  {
    assert (k - 1) * bs >= 0;
  }

  lemma LessThanOne(k: int, bs: nat, r: nat)
    requires k * bs == r < bs
    ensures k == 0
  {
    if k >= 1 {
      AtLeastOne(k, bs);
    } else if k <= -1 {
      AtLeastOne(-k, bs);
    }
  }

  lemma Times(a: int, b: int, c: int, bs: nat)
    ensures (b - a - c) * bs == b * bs - a * bs - c * bs
  {
  }

  lemma Cancel(a: nat, b: nat, end: nat, bs: nat)
    requires bs > 0 && a * bs + end == b * bs
    ensures end % bs == 0 && a + end / bs == b
  {
    DivMod(end, bs);
    Times(a, b, end / bs, bs);
    LessThanOne(b - a - end / bs, bs, end % bs);
  }

  /** The new extent follows an entry exactly when it goes on where it ends, in the file and on tape, with a block. */
  lemma FollowsExactly(n: Extent, e: Extent, bs: nat)
    requires bs > 0
    ensures Follows(n, e, bs) <==> n.file == e.End() && n.offset == 0 && Address(n, bs) == EndAddress(e, bs)
  {
    if Follows(n, e, bs) {
      FollowsAddress(n, e, bs);
    } else if n.offset == 0 && Address(n, bs) == EndAddress(e, bs) {
      assert Address(n, bs) == n.block * bs;
      Cancel(e.block, n.block, e.offset + e.count, bs);
    }
  }

  /**
   An extent at the end of the file that goes on where the last entry ends on tape lengthens that entry;
   any other becomes an entry of its own.
   */
  lemma {:induction false} AddAtEnd(l: seq<Extent>, e: Extent, n: Extent, bs: nat)
    requires bs > 0 && n.count > 0 && e.count > 0 && e.End() == n.file
    requires forall j :: 0 <= j < |l| ==> l[j].End() <= e.file
    ensures Add(l + [e], n, false, bs)
         == l + (if n.offset == 0 && Address(n, bs) == EndAddress(e, bs) then [e.(count := e.count + n.count)]
                 else [e, n])
  {
    FollowsExactly(n, e, bs);
    if l == [] {
      assert l + [e] == [e] && [e][1..] == [];
    } else {
      assert (l + [e])[0] == l[0] && (l + [e])[1..] == l[1..] + [e];
      AddAtEnd(l[1..], e, n, bs);
      assert l == [l[0]] + l[1..];
    }
  }

  // ---- Entries that stay apart ----

  /** The entries are in order, none empty, none reaching into the next, from `lo` on. */
  predicate Spread(l: seq<Extent>, lo: nat) {
    l == [] || (l[0].count > 0 && l[0].file >= lo && Spread(l[1..], l[0].End()))
  }

  /** The entry reaches past both ends of the new extent. */
  predicate Straddles(e: Extent, n: Extent) {
    e.file < n.file && n.End() < e.End()
  }

  lemma SpreadLower(l: seq<Extent>, lo: nat, lower: nat)
    requires Spread(l, lo) && lower <= lo
    ensures Spread(l, lower)
  {
  }

  lemma SpreadCons(e: Extent, l: seq<Extent>, lo: nat)
    requires e.count > 0 && e.file >= lo && Spread(l, e.End())
    ensures Spread([e] + l, lo)
  {
    assert ([e] + l)[1..] == l;
  }

  /** The rest of the list once the new extent is in. */
  lemma {:induction false} AddBehind(l: seq<Extent>, n: Extent, lo: nat, bs: nat)
    requires bs > 0 && n.count > 0 && Spread(l, lo) && lo >= n.file
    ensures Spread(Add(l, n, true, bs), Max(lo, n.End()))
  {
    if l != [] {
      var e := l[0];
      if PastEnd(e, n) {
        assert [] + l == l;
      } else {
        AddBehind(l[1..], n, e.End(), bs);
        var rest := Add(l[1..], n, true, bs);
        if e.End() <= n.End() {
          SpreadLower(rest, Max(e.End(), n.End()), Max(lo, n.End()));
          assert [] + [] + rest == rest;
        } else {
          TrimFrontAddress(e, n.End() - e.file, bs);
          var f := TrimFront(e, n.End() - e.file, bs);
          SpreadCons(f, rest, Max(lo, n.End()));
          assert [] + [f] + rest == [f] + rest;
        }
      }
    }
  }

  lemma AddHere(l: seq<Extent>, n: Extent, lo: nat, bs: nat)
    requires bs > 0 && n.count > 0 && l != [] && Spread(l, lo) && lo <= n.file <= l[0].file
    ensures Spread(Add(l, n, false, bs), lo)
  {
    AddBehind(l, n, n.file, bs);
    if PastEnd(l[0], n) {
      SpreadLower(l, l[0].file, n.End());
      SpreadCons(n, l, lo);
    } else {
      var rest := Adjust(l[0], n, bs) + Add(l[1..], n, true, bs);
      assert Add(l, n, true, bs) == [] + Adjust(l[0], n, bs) + Add(l[1..], n, true, bs) == rest;
      SpreadCons(n, rest, lo);
      assert Add(l, n, false, bs) == [n] + Adjust(l[0], n, bs) + Add(l[1..], n, true, bs) == [n] + rest;
    }
  }

  lemma AddAfter(l: seq<Extent>, n: Extent, lo: nat, bs: nat)
    requires bs > 0 && n.count > 0 && l != [] && Spread(l, lo) && l[0].file < n.file && !Straddles(l[0], n)
    requires !Follows(n, l[0], bs) ==> Spread(Add(l[1..], n, false, bs), Min(l[0].End(), n.file))
    ensures Spread(Add(l, n, false, bs), lo)
  {
    var e, used := l[0], Follows(n, l[0], bs);
    var rest := Add(l[1..], n, used, bs);
    var f := Adjust(e, n, bs)[0];
    if used {
      AddBehind(l[1..], n, e.End(), bs);
    }
    SpreadCons(f, rest, lo);
    assert Add(l, n, false, bs) == [] + Adjust(e, n, bs) + rest == [f] + rest;
  }

  /** If no entry reaches past both ends of the new extent the entries stay apart. */
  lemma {:induction false} AddKeepsApart(l: seq<Extent>, n: Extent, lo: nat, bs: nat)
    requires bs > 0 && n.count > 0 && Spread(l, lo) && lo <= n.file
    requires forall j :: 0 <= j < |l| ==> !Straddles(l[j], n)
    ensures Spread(Add(l, n, false, bs), lo)
  {
    if l == [] {
    } else if n.file <= l[0].file {
      AddHere(l, n, lo, bs);
    } else {
      SpreadLower(l[1..], l[0].End(), Min(l[0].End(), n.file));
      AddKeepsApart(l[1..], n, Min(l[0].End(), n.file), bs);
      AddAfter(l, n, lo, bs);
    }
  }

  lemma AddOverFirst(e: Extent, l: seq<Extent>, n: Extent, bs: nat)
    requires bs > 0 && n.count > 0 && Straddles(e, n) && Spread(l, e.End())
    ensures Add(l, n, false, bs) == [n] + l
  {
    assert l != [] ==> PastEnd(l[0], n);
  }

  /** If one does, it stays whole and the new extent lies over it. */
  lemma {:induction false} AddOverOne(l: seq<Extent>, j: nat, n: Extent, lo: nat, bs: nat)
    requires bs > 0 && n.count > 0 && Spread(l, lo) && j < |l| && Straddles(l[j], n)
    ensures Add(l, n, false, bs) == l[..j + 1] + [n] + l[j + 1..] && !Spread(Add(l, n, false, bs), lo)
  {
    if j == 0 {
      AddOverFirst(l[0], l[1..], n, bs);
      assert Add(l, n, false, bs) == [] + [l[0]] + Add(l[1..], n, false, bs) == [l[0]] + ([n] + l[1..]);
    } else {
      StraddledLater(l, j, n, lo);
      AddOverOne(l[1..], j - 1, n, l[0].End(), bs);
      assert Add(l, n, false, bs) == [] + [l[0]] + Add(l[1..], n, false, bs);
      assert Add(l, n, false, bs)[1..] == Add(l[1..], n, false, bs);
    }
  }

  lemma {:induction false} StraddledLater(l: seq<Extent>, j: nat, n: Extent, lo: nat)
    requires Spread(l, lo) && 0 < j < |l| && Straddles(l[j], n)
    ensures l[0].End() < n.file
  {
    if j > 1 {
      StraddledLater(l[1..], j - 1, n, l[0].End());
    }
  }

  /** So entries apart stay apart exactly when none of them reaches past both ends of the new extent. */
  lemma ApartExactly(l: seq<Extent>, n: Extent, bs: nat)
    requires bs > 0 && n.count > 0 && Spread(l, 0)
    ensures Spread(Add(l, n, false, bs), 0) <==> forall j :: 0 <= j < |l| ==> !Straddles(l[j], n)
  {
    if j :| 0 <= j < |l| && Straddles(l[j], n) {
      AddOverOne(l, j, n, 0, bs);
    } else {
      AddKeepsApart(l, n, 0, bs);
    }
  }

  // ---- Entries that start within their block ----

  ghost predicate Within(l: seq<Extent>, bs: nat) {
    forall j :: 0 <= j < |l| ==> l[j].offset < bs
  }

  lemma AdjustWithin(e: Extent, n: Extent, bs: nat)
    requires bs > 0 && e.offset < bs
    ensures Within(Adjust(e, n, bs), bs)
  {
  }

  lemma WithinConcat(a: seq<Extent>, b: seq<Extent>, bs: nat)
    requires Within(a, bs) && Within(b, bs)
    ensures Within(a + b, bs)
  {
  }

  /** Entries keep starting within their block: an entry cut at its front counts the blocks it has lost. */
  lemma {:induction false} AddWithin(l: seq<Extent>, n: Extent, used: bool, bs: nat)
    requires bs > 0 && n.offset < bs && Within(l, bs)
    ensures Within(Add(l, n, used, bs), bs)
  {
    if l != [] {
      var e := l[0];
      var head := if !used && n.file <= e.file then [n] else [];
      var now := used || n.file <= e.file || Follows(n, e, bs);
      AddWithin(l[1..], n, now, bs);
      AdjustWithin(e, n, bs);
      WithinConcat(head, l, bs);
      WithinConcat(head, Adjust(e, n, bs), bs);
      WithinConcat(head + Adjust(e, n, bs), Add(l[1..], n, now, bs), bs);
    }
  }
}
