/**
 What the index-partition pass leaves behind for one file (src/iosched/unified.c:
 _unified_process_index_queue): its requests for that partition are stored on fresh tape blocks, one
 extent each, and the list of alternate extents finds every byte of them again.
 */
module IndexPass {
  import opened Bytes
  import opened Requests
  import opened UnifiedDrain
  import opened Counts
  import opened SweepCounts
  import opened AltExtents

  /** How many tape blocks of `bs` bytes `n` bytes take up. */
  function BlocksFor(n: nat, bs: nat): (k: nat)
    requires bs > 0
    ensures (k - 1) * bs < n <= k * bs
  {
    if n == 0 then 0 else if n <= bs then 1 else 1 + BlocksFor(n - bs, bs)
  }

  /**
   The extents of a file, what is stored on the index partition, in blocks of `bs` bytes the last of
   which is filled up, and the block that is written next.
   */
  datatype Index = Index(extents: seq<Extent>, ip: seq<byte>, block: nat)

  /** The extent of a request that is stored behind everything on the partition. */
  function ExtentOf(r: Request, block: nat): Extent {
    Extent(block, 0, |r.data|, r.offset)
  }

  function StoreOne(x: Index, r: Request, bs: nat): Index
    requires bs > 0
  {
    var k := BlocksFor(|r.data|, bs);
    Index(Add(x.extents, ExtentOf(r, x.block), false, bs), x.ip + r.data + Zeros(k * bs - |r.data|), x.block + k)
  }

  /** The first `budget` index-partition requests of the list, in order. */
  function Stored(x: Index, l: seq<Request>, budget: nat, bs: nat): Index
    requires bs > 0
    decreases |l|
  {
    if l == [] then x
    else if l[0].state != IP then Stored(x, l[1..], budget, bs)
    else if budget == 0 then x
    else Stored(StoreOne(x, l[0], bs), l[1..], budget - 1, bs)
  }

  /** The extents are fit for more, and all they point at is on the partition. */
  ghost predicate Fit(x: Index, bs: nat) {
    bs > 0 && |x.ip| == x.block * bs && InOrder(x.extents, |x.ip|, bs)
  }

  /** The byte the extents give for offset `o` of the file. */
  function Found(x: Index, o: nat, bs: nat): Option<byte> {
    var a := Resolve(x.extents, o, bs);
    if a.Some? && a.value < |x.ip| then Some(x.ip[a.value]) else None
  }

  lemma InOrderLater(l: seq<Extent>, top: nat, later: nat, bs: nat)
    requires InOrder(l, top, bs) && top <= later
    ensures InOrder(l, later, bs)
  {
    if top < later {
      assert forall i :: 0 <= i < |l| ==> EndAddress(l[i], bs) <= top;
    }
  }

  /** What an extent list resolves to lies before the position behind all that is stored. */
  lemma {:induction false} ResolvedWithin(l: seq<Extent>, o: nat, top: nat, bs: nat)
    requires forall i :: 0 <= i < |l| ==> EndAddress(l[i], bs) <= top
    ensures Resolve(l, o, bs).Some? ==> Resolve(l, o, bs).value < top
  {
    if l != [] {
      ResolvedWithin(l[1..], o, top, bs);
    }
  }

  /** Storing one request: its bytes are found in their place, and every other byte as before. */
  lemma StoreOneFinds(x: Index, r: Request, bs: nat)
    requires Fit(x, bs) && |r.data| > 0
    ensures Fit(StoreOne(x, r, bs), bs)
    ensures forall o: nat ::
      Found(StoreOne(x, r, bs), o, bs) == if r.Covers(o) then Some(r.data[o - r.offset]) else Found(x, o, bs)
  {
    var n, y := ExtentOf(r, x.block), StoreOne(x, r, bs);
    assert |y.ip| == x.block * bs + BlocksFor(|r.data|, bs) * bs == y.block * bs;
    AddOverlays(x.extents, n, |x.ip|, bs);
    InOrderLater(y.extents, |x.ip| + |r.data|, |y.ip|, bs);
    forall o: nat ensures Found(y, o, bs) == if r.Covers(o) then Some(r.data[o - r.offset]) else Found(x, o, bs) {
      ResolvedWithin(x.extents, o, |x.ip|, bs);
      assert n.Covers(o) <==> r.Covers(o);
    }
  }

  /** The requests the pass has stored. */
  function Written(l: seq<Request>, budget: nat): seq<Request> {
    if l == [] then []
    else if l[0].state != IP then Written(l[1..], budget)
    else if budget == 0 then []
    else [l[0]] + Written(l[1..], budget - 1)
  }

  /** Those are the first `budget` of all requests for the index partition, or all of them, in order. */
  lemma {:induction false} WrittenIs(l: seq<Request>, budget: nat)
    ensures |Only(l, IP)| == Count(l, IP) && Written(l, budget) == Only(l, IP)[..Min(budget, Count(l, IP))]
  {
    OnlyCount(l, IP);
    if l != [] {
      if l[0].state != IP {
        WrittenIs(l[1..], budget);
        assert Only(l, IP) == Only(l[1..], IP);
      } else if budget > 0 {
        WrittenIs(l[1..], budget - 1);
        assert Only(l, IP) == [l[0]] + Only(l[1..], IP);
      }
    }
  }

  lemma {:induction false} WrittenMembers(l: seq<Request>, budget: nat)
    ensures forall r :: r in Written(l, budget) ==> r in l && r.state == IP
    ensures |Written(l, budget)| == Min(budget, Count(l, IP))
  {
    if l != [] {
      if l[0].state != IP {
        WrittenMembers(l[1..], budget);
      } else if budget > 0 {
        WrittenMembers(l[1..], budget - 1);
      }
    }
  }

  /** In `y` every byte of the requests `l` is found, and every other byte as in `x`. */
  ghost predicate Finds(x: Index, y: Index, l: seq<Request>, bs: nat) {
    forall o: nat :: Found(y, o, bs) == if Lookup(l, o).Some? then Lookup(l, o) else Found(x, o, bs)
  }

  /** One request stored, and then others that stay clear of it. */
  lemma FoundThrough(x: Index, y: Index, z: Index, r: Request, rest: seq<Request>, bs: nat)
    requires forall o: nat :: Found(y, o, bs) == if r.Covers(o) then Some(r.data[o - r.offset]) else Found(x, o, bs)
    requires Finds(y, z, rest, bs) && forall j :: 0 <= j < |rest| ==> r.End() <= rest[j].offset
    ensures Finds(x, z, [r] + rest, bs)
  {
    assert ([r] + rest)[1..] == rest;
    forall o: nat | r.Covers(o) ensures Lookup(rest, o) == None {
      LookupNone(rest, o);
    }
  }

  /** The first request of the list stored, and then what the pass stores of the others. */
  lemma FoundFirst(x: Index, z: Index, l: seq<Request>, budget: nat, c: nat, bs: nat)
    requires Fit(x, bs) && Sized(l, c) && Disjoint(l) && l != [] && l[0].state == IP && budget > 0
    requires Finds(StoreOne(x, l[0], bs), z, Written(l[1..], budget - 1), bs)
    ensures Finds(x, z, Written(l, budget), bs)
  {
    StoreOneFinds(x, l[0], bs);
    WrittenMembers(l[1..], budget - 1);
    FoundThrough(x, StoreOne(x, l[0], bs), z, l[0], Written(l[1..], budget - 1), bs);
  }

  /**
   After the pass every byte of a request it stored is found where the extents say, on the index
   partition, and every other byte is found as before; and the extents are fit for the next pass.
   */
  lemma {:induction false} StoredFinds(x: Index, l: seq<Request>, budget: nat, c: nat, bs: nat)
    requires Fit(x, bs) && Sized(l, c) && Disjoint(l)
    ensures Fit(Stored(x, l, budget, bs), bs) && Finds(x, Stored(x, l, budget, bs), Written(l, budget), bs)
    decreases |l|
  {
    if l != [] {
      if l[0].state != IP {
        StoredFinds(x, l[1..], budget, c, bs);
      } else if budget > 0 {
        StoreOneFinds(x, l[0], bs);
        StoredFinds(StoreOne(x, l[0], bs), l[1..], budget - 1, c, bs);
        FoundFirst(x, Stored(x, l, budget, bs), l, budget, c, bs);
      }
    }
  }

  /** The extents stay fit whatever the order of the list. */
  lemma {:induction false} StoredFit(x: Index, l: seq<Request>, budget: nat, c: nat, bs: nat)
    requires Fit(x, bs) && Sized(l, c)
    ensures Fit(Stored(x, l, budget, bs), bs) && |x.ip| <= |Stored(x, l, budget, bs).ip|
    decreases |l|
  {
    if l != [] {
      if l[0].state != IP {
        StoredFit(x, l[1..], budget, c, bs);
      } else if budget > 0 {
        StoreOneFinds(x, l[0], bs);
        StoredFit(StoreOne(x, l[0], bs), l[1..], budget - 1, c, bs);
      }
    }
  }

  lemma StoreOneNotEmpty(x: Index, r: Request, bs: nat)
    requires Fit(x, bs) && |r.data| > 0
    ensures StoreOne(x, r, bs).extents != []
  {
    AddNotEmpty(x.extents, ExtentOf(r, x.block), bs);
  }

  /** The pass leaves no extent exactly if there was none and it stored no request. */
  lemma {:induction false} StoredEmpty(x: Index, l: seq<Request>, budget: nat, c: nat, bs: nat)
    requires Fit(x, bs) && Sized(l, c)
    ensures Stored(x, l, budget, bs).extents == [] <==> x.extents == [] && (budget == 0 || Count(l, IP) == 0)
    decreases |l|
  {
    if l != [] {
      if l[0].state != IP {
        StoredEmpty(x, l[1..], budget, c, bs);
      } else if budget > 0 {
        StoreOneFinds(x, l[0], bs);
        StoreOneNotEmpty(x, l[0], bs);
        StoredEmpty(StoreOne(x, l[0], bs), l[1..], budget - 1, c, bs);
      }
    }
  }

  /**
   What is stored for a file in order is what its tape file holds in the same place: the index partition
   has a copy of those bytes.
   */
  lemma StoredIsTape(x: Index, l: seq<Request>, tape: seq<byte>, budget: nat, c: nat, bs: nat)
    requires Fit(x, bs) && Sized(l, c) && Disjoint(l) && IPAgree(l, tape)
    ensures forall o: nat :: Lookup(Written(l, budget), o).Some? ==>
      o < |tape| && Found(Stored(x, l, budget, bs), o, bs) == Some(tape[o])
  {
    StoredFinds(x, l, budget, c, bs);
    WrittenMembers(l, budget);
    forall o: nat | Lookup(Written(l, budget), o).Some?
      ensures o < |tape| && Lookup(Written(l, budget), o) == Some(tape[o])
    {
      var j := LookupSome(Written(l, budget), o);
      assert Written(l, budget)[j] in l;
      OnTapeByte(Written(l, budget)[j], tape, o);
    }
  }
}
