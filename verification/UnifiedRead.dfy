/**
 unified_read (src/iosched/unified.c). Under the file's lock the read copies what the requests
 hold and queues a tape read for every hole before a request; the tape is read afterwards.
 */
module UnifiedRead {
  import opened Bytes
  import opened Requests

  /** Bytes copied from a request, or a hole to be filled from tape. */
  datatype Piece = Cached(bytes: seq<byte>) | Hole(offset: nat, count: nat)

  /** The pieces found along the list, and the part of the read that lies past its end. */
  datatype Plan = Plan(pieces: seq<Piece>, o: nat, n: nat)

  function Cons(p: Piece, q: Plan): Plan {
    q.(pieces := [p] + q.pieces)
  }

  /** The loop over the requests, for a read of `n` bytes at `o`. */
  function MakePlan(l: seq<Request>, o: nat, n: nat): Plan
    decreases |l|, n
  {
    if l == [] || n == 0 then Plan([], o, n)
    else if o < l[0].offset then
      var h := Min(l[0].offset - o, n);
      Cons(Hole(o, h), MakePlan(l, o + h, n - h))
    else if l[0].Covers(o) then
      var k := Min(l[0].End() - o, n);
      var at := o - l[0].offset;
      Cons(Cached(l[0].data[at..at + k]), MakePlan(l[1..], o + k, n - k))
    else MakePlan(l[1..], o, n)
  }

  /** Filling the holes in order; after a short tape read the rest are zeros without reading. */
  function Fill(pieces: seq<Piece>, tape: seq<byte>, pastEof: bool): seq<byte> {
    if pieces == [] then []
    else match pieces[0]
      case Cached(bytes) => bytes + Fill(pieces[1..], tape, pastEof)
      case Hole(o, n) =>
        var got := if pastEof then [] else Slice(tape, o, n);
        got + Zeros(n - |got|) + Fill(pieces[1..], tape, pastEof || |got| < n)
  }

  /** What the read returns once its plan is carried out against `tape`. */
  function CarryOut(p: Plan, tape: seq<byte>): seq<byte> {
    Fill(p.pieces, tape, false) + Slice(tape, p.o, p.n)
  }

  // ---- Correctness ----

  /** A piece filled by itself. */
  function FillOne(p: Piece, tape: seq<byte>): seq<byte> {
    match p
    case Cached(bytes) => bytes
    case Hole(o, n) => var got := Slice(tape, o, n); got + Zeros(n - |got|)
  }

  function FillEach(pieces: seq<Piece>, tape: seq<byte>): seq<byte> {
    if pieces == [] then [] else FillOne(pieces[0], tape) + FillEach(pieces[1..], tape)
  }

  /** The holes follow each other, from `o` on. */
  predicate Increasing(pieces: seq<Piece>, o: nat) {
    pieces == [] ||
    match pieces[0]
    case Cached(_) => Increasing(pieces[1..], o)
    case Hole(h, n) => h >= o && Increasing(pieces[1..], h + n)
  }

  /** Not reading past a short read changes nothing: all later holes lie past the tape's end. */
  lemma {:induction false} FillIsFillEach(pieces: seq<Piece>, tape: seq<byte>, pastEof: bool, o: nat)
    requires Increasing(pieces, o) && (pastEof ==> o >= |tape|)
    ensures Fill(pieces, tape, pastEof) == FillEach(pieces, tape)
  {
    if pieces != [] {
      match pieces[0]
      case Cached(_) => FillIsFillEach(pieces[1..], tape, pastEof, o);
      case Hole(h, n) =>
        FillIsFillEach(pieces[1..], tape, pastEof || |Slice(tape, h, n)| < n, h + n);
    }
  }

  lemma {:induction false} PlanIncreasing(l: seq<Request>, o: nat, n: nat)
    ensures Increasing(MakePlan(l, o, n).pieces, o)
    decreases |l|, n
  {
    if l == [] || n == 0 {
    } else if o < l[0].offset {
      var h := Min(l[0].offset - o, n);
      PlanIncreasing(l, o + h, n - h);
    } else if l[0].Covers(o) {
      var k := Min(l[0].End() - o, n);
      PlanIncreasing(l[1..], o + k, n - k);
      IncreasingFrom(MakePlan(l[1..], o + k, n - k).pieces, o, o + k);
    } else {
      PlanIncreasing(l[1..], o, n);
    }
  }

  lemma {:induction false} IncreasingFrom(b: seq<Piece>, o: nat, m: nat)
    requires Increasing(b, m) && o <= m
    ensures Increasing(b, o)
  {
    if b != [] && b[0].Cached? {
      IncreasingFrom(b[1..], o, m);
    }
  }

  function At(l: seq<Request>, tape: seq<byte>, x: nat): byte {
    var b := Look(l, tape, x);
    if b.Some? then b.value else 0
  }

  /** `a` is what reading `n` bytes at `o` must return. */
  ghost predicate Reads(a: seq<byte>, l: seq<Request>, tape: seq<byte>, o: nat, n: nat) {
    && |a| == Min(n, Max(0, Size(l, tape) - o))
    && forall x :: 0 <= x < |a| ==> a[x] == At(l, tape, o + x)
  }

  lemma HoleReads(l: seq<Request>, tape: seq<byte>, o: nat, n: nat, h: nat, b: seq<byte>)
    requires Disjoint(l) && l != [] && h == Min(l[0].offset - o, n) && o < l[0].offset
    requires Reads(b, l, tape, o + h, n - h)
    ensures Reads(FillOne(Hole(o, h), tape) + b, l, tape, o, n)
  {
    var a := FillOne(Hole(o, h), tape);
    forall x | 0 <= x < |a + b| ensures (a + b)[x] == At(l, tape, o + x) {
      if x < h {
        LookupNone(l, o + x);
      } else {
        assert At(l, tape, o + h + (x - h)) == b[x - h];
      }
    }
  }

  lemma CachedReads(l: seq<Request>, tape: seq<byte>, o: nat, n: nat, k: nat, b: seq<byte>)
    requires Disjoint(l) && l != [] && l[0].Covers(o) && k == Min(l[0].End() - o, n)
    requires Reads(b, l[1..], tape, o + k, n - k)
    ensures Reads(l[0].data[o - l[0].offset..o - l[0].offset + k] + b, l, tape, o, n)
  {
    var a := l[0].data[o - l[0].offset..o - l[0].offset + k];
    forall x | 0 <= x < |a + b| ensures (a + b)[x] == At(l, tape, o + x) {
      if x >= k {
        assert At(l[1..], tape, o + k + (x - k)) == b[x - k];
      }
    }
  }

  lemma SkipReads(l: seq<Request>, tape: seq<byte>, o: nat, n: nat, b: seq<byte>)
    requires Disjoint(l) && l != [] && o >= l[0].End()
    requires Reads(b, l[1..], tape, o, n)
    ensures Reads(b, l, tape, o, n)
  {
  }

  function Carried(p: Plan, tape: seq<byte>): seq<byte> {
    FillEach(p.pieces, tape) + Slice(tape, p.o, p.n)
  }

  lemma CarriedCons(x: Piece, p: Plan, tape: seq<byte>)
    ensures Carried(Cons(x, p), tape) == FillOne(x, tape) + Carried(p, tape)
  {
    assert Cons(x, p).pieces[1..] == p.pieces;
  }

  lemma BaseReads(l: seq<Request>, tape: seq<byte>, o: nat, n: nat)
    requires l == [] || n == 0
    ensures Reads(Carried(Plan([], o, n), tape), l, tape, o, n)
  {
    assert FillEach([], tape) + Slice(tape, o, n) == Slice(tape, o, n);
  }

  lemma PlanHole(l: seq<Request>, tape: seq<byte>, o: nat, n: nat, h: nat)
    requires Disjoint(l) && l != [] && n > 0 && o < l[0].offset && h == Min(l[0].offset - o, n)
    requires Reads(Carried(MakePlan(l, o + h, n - h), tape), l, tape, o + h, n - h)
    ensures Reads(Carried(MakePlan(l, o, n), tape), l, tape, o, n)
  {
    var q := MakePlan(l, o + h, n - h);
    HoleReads(l, tape, o, n, h, Carried(q, tape));
    CarriedCons(Hole(o, h), q, tape);
    assert MakePlan(l, o, n) == Cons(Hole(o, h), q);
  }

  lemma PlanCached(l: seq<Request>, tape: seq<byte>, o: nat, n: nat, k: nat)
    requires Disjoint(l) && l != [] && n > 0 && l[0].Covers(o) && k == Min(l[0].End() - o, n)
    requires Reads(Carried(MakePlan(l[1..], o + k, n - k), tape), l[1..], tape, o + k, n - k)
    ensures Reads(Carried(MakePlan(l, o, n), tape), l, tape, o, n)
  {
    var q := MakePlan(l[1..], o + k, n - k);
    var piece := Cached(l[0].data[o - l[0].offset..o - l[0].offset + k]);
    CachedReads(l, tape, o, n, k, Carried(q, tape));
    CarriedCons(piece, q, tape);
    assert MakePlan(l, o, n) == Cons(piece, q);
  }

  lemma {:induction false} PlanReads(l: seq<Request>, tape: seq<byte>, o: nat, n: nat)
    requires Disjoint(l)
    ensures Reads(Carried(MakePlan(l, o, n), tape), l, tape, o, n)
    decreases |l|, n
  {
    if l == [] || n == 0 {
      BaseReads(l, tape, o, n);
    } else if o < l[0].offset {
      var h := Min(l[0].offset - o, n);
      PlanReads(l, tape, o + h, n - h);
      PlanHole(l, tape, o, n, h);
    } else if l[0].Covers(o) {
      var k := Min(l[0].End() - o, n);
      PlanReads(l[1..], tape, o + k, n - k);
      PlanCached(l, tape, o, n, k);
    } else {
      PlanReads(l[1..], tape, o, n);
      SkipReads(l, tape, o, n, Carried(MakePlan(l[1..], o, n), tape));
    }
  }

  /**
   The read returns exactly the bytes of the file from `o`, stopping at its end, which is the
   larger of the tape file's size and the last request's end.
   */
  lemma ReadIsSlice(l: seq<Request>, tape: seq<byte>, o: nat, n: nat)
    requires Disjoint(l)
    ensures CarryOut(MakePlan(l, o, n), tape) == Slice(View(l, tape), o, n)
  {
    var p := MakePlan(l, o, n);
    PlanIncreasing(l, o, n);
    FillIsFillEach(p.pieces, tape, false, o);
    PlanReads(l, tape, o, n);
    var a := CarryOut(p, tape);
    forall x | 0 <= x < |a| ensures a[x] == Slice(View(l, tape), o, n)[x] {
      assert a[x] == At(l, tape, o + x);
    }
  }
}
