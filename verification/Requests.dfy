/**
 The list of outstanding write requests of one file (struct write_request and the `requests`
 list of struct dentry_priv), and what such a list means on top of the file on tape.
 */
module Requests {
  import opened Bytes

  /** A partly filled request, a full one, or one already on the data partition. */
  datatype State = Partial | DP | IP

  /** A request holds the bytes of its cache block that are in use; its count is `|data|`. */
  datatype Request = Request(offset: nat, data: seq<byte>, state: State) {
    function End(): nat { offset + |data| }
    predicate Covers(x: nat) { offset <= x < End() }
  }

  /** Each request holds between one byte and one cache block of `c` bytes. */
  ghost predicate Sized(l: seq<Request>, c: nat) {
    forall j :: 0 <= j < |l| ==> 1 <= |l[j].data| <= c
  }

  /** Sorted by offset, and no two requests share a byte. */
  ghost predicate Disjoint(l: seq<Request>) {
    forall j, k :: 0 <= j < k < |l| ==> l[j].End() <= l[k].offset
  }

  /** A partial request always has room left. */
  ghost predicate NoFullPartial(l: seq<Request>, c: nat) {
    forall j :: 0 <= j < |l| && l[j].state == Partial ==> |l[j].data| < c
  }

  ghost predicate WellFormed(l: seq<Request>, c: nat) {
    Sized(l, c) && Disjoint(l) && NoFullPartial(l, c)
  }

  /** The request's bytes are exactly the tape's bytes at the same place. */
  predicate OnTape(r: Request, tape: seq<byte>) {
    r.End() <= |tape| && tape[r.offset..r.End()] == r.data
  }

  /** Every index-partition request agrees with the data partition. */
  ghost predicate IPAgree(l: seq<Request>, tape: seq<byte>) {
    forall j :: 0 <= j < |l| && l[j].state == IP ==> OnTape(l[j], tape)
  }

  ghost predicate NoIP(l: seq<Request>) {
    forall j :: 0 <= j < |l| ==> l[j].state != IP
  }

  ghost predicate OnlyIP(l: seq<Request>) {
    forall j :: 0 <= j < |l| ==> l[j].state == IP
  }

  /** The byte the first request covering `x` holds for it. */
  function Lookup(l: seq<Request>, x: nat): Option<byte> {
    if l == [] then None
    else if l[0].Covers(x) then Some(l[0].data[x - l[0].offset])
    else Lookup(l[1..], x)
  }

  /** The byte at `x` in the file: first request wins, then the tape; None in a hole or past the end. */
  function Look(l: seq<Request>, tape: seq<byte>, x: nat): Option<byte> {
    var r := Lookup(l, x);
    if r.Some? then r else if x < |tape| then Some(tape[x]) else None
  }

  /** The larger of the tape file's size and the greatest request end. */
  function Size(l: seq<Request>, tape: seq<byte>): nat {
    if l == [] then |tape| else Max(l[0].End(), Size(l[1..], tape))
  }

  /** The file a user sees: requests over tape, zeros in the holes. */
  function View(l: seq<Request>, tape: seq<byte>): (v: seq<byte>)
    ensures |v| == Size(l, tape)
  {
    seq(Size(l, tape), x requires 0 <= x < Size(l, tape) =>
      var b := Look(l, tape, x); if b.Some? then b.value else 0)
  }

  // ---- Lookup under concatenation ----

  lemma {:induction false} LookupConcat(a: seq<Request>, b: seq<Request>, x: nat)
    ensures Lookup(a + b, x) == if Lookup(a, x).Some? then Lookup(a, x) else Lookup(b, x)
  {
    if a == [] {
      assert a + b == b;
    } else {
      assert (a + b)[1..] == a[1..] + b;
      LookupConcat(a[1..], b, x);
    }
  }

  /** Splitting a list at index `i`. */
  lemma LookupAt(l: seq<Request>, i: nat, x: nat)
    requires i < |l|
    ensures Lookup(l, x) ==
      if Lookup(l[..i], x).Some? then Lookup(l[..i], x)
      else if l[i].Covers(x) then Some(l[i].data[x - l[i].offset])
      else Lookup(l[i + 1..], x)
  {
    assert l == l[..i] + l[i..];
    LookupConcat(l[..i], l[i..], x);
    assert l[i..][1..] == l[i + 1..];
  }

  lemma {:induction false} LookupNone(l: seq<Request>, x: nat)
    requires forall j :: 0 <= j < |l| ==> !l[j].Covers(x)
    ensures Lookup(l, x) == None
  {
    if l != [] {
      LookupNone(l[1..], x);
    }
  }

  lemma {:induction false} LookupSome(l: seq<Request>, x: nat) returns (j: nat)
    requires Lookup(l, x).Some?
    ensures j < |l| && l[j].Covers(x) && Lookup(l, x) == Some(l[j].data[x - l[j].offset])
    ensures forall k :: 0 <= k < j ==> !l[k].Covers(x)
  {
    if l[0].Covers(x) {
      j := 0;
    } else {
      var k := LookupSome(l[1..], x);
      j := k + 1;
    }
  }

  /** In a disjoint list the covering request is the one that answers. */
  lemma LookupCovered(l: seq<Request>, j: nat, x: nat)
    requires Disjoint(l) && j < |l| && l[j].Covers(x)
    ensures Lookup(l, x) == Some(l[j].data[x - l[j].offset])
  {
    LookupAt(l, j, x);
    LookupNone(l[..j], x);
  }

  // ---- Size ----

  lemma {:induction false} SizeBound(l: seq<Request>, tape: seq<byte>)
    ensures Size(l, tape) >= |tape|
    ensures forall j :: 0 <= j < |l| ==> l[j].End() <= Size(l, tape)
  {
    if l != [] {
      SizeBound(l[1..], tape);
      forall j | 0 <= j < |l| ensures l[j].End() <= Size(l, tape) {
        if j > 0 { assert l[1..][j - 1] == l[j]; }
      }
    }
  }

  lemma {:induction false} SizeAttained(l: seq<Request>, tape: seq<byte>)
    ensures Size(l, tape) == |tape| || exists j :: 0 <= j < |l| && l[j].End() == Size(l, tape)
  {
    if l != [] {
      SizeAttained(l[1..], tape);
      if Size(l, tape) != l[0].End() && Size(l, tape) != |tape| {
        var j :| 0 <= j < |l[1..]| && l[1..][j].End() == Size(l[1..], tape);
        assert l[j + 1].End() == Size(l, tape);
      }
    }
  }

  /** `Size` is the number of bytes before the first offset from which nothing is present. */
  lemma SizeLook(l: seq<Request>, tape: seq<byte>)
    requires forall j :: 0 <= j < |l| ==> |l[j].data| >= 1
    ensures forall x: nat :: x >= Size(l, tape) ==> Look(l, tape, x) == None
    ensures Size(l, tape) > 0 ==> Look(l, tape, Size(l, tape) - 1).Some?
  {
    var n := Size(l, tape);
    SizeBound(l, tape);
    forall x: nat | x >= n ensures Look(l, tape, x) == None {
      LookupNone(l, x);
    }
    if n > 0 {
      SizeAttained(l, tape);
      if n > |tape| {
        var j :| 0 <= j < |l| && l[j].End() == n;
        assert l[j].Covers(n - 1);
        LookupAt(l, j, n - 1);
      }
    }
  }

  // ---- From equal lookups to equal files ----

  /** The lookups of list `m` are those of `l` with `d` written at `o`. */
  ghost predicate LookOverlay(l: seq<Request>, m: seq<Request>, tape: seq<byte>, o: nat, d: seq<byte>) {
    forall x: nat ::
      Look(m, tape, x) == if o <= x < o + |d| then Some(d[x - o]) else Look(l, tape, x)
  }

  lemma SizeOverlay(l: seq<Request>, m: seq<Request>, tape: seq<byte>, o: nat, d: seq<byte>)
    requires forall j :: 0 <= j < |l| ==> |l[j].data| >= 1
    requires forall j :: 0 <= j < |m| ==> |m[j].data| >= 1
    requires LookOverlay(l, m, tape, o, d)
    ensures Size(m, tape) == if d == [] then Size(l, tape) else Max(Size(l, tape), o + |d|)
  {
    SizeLook(l, tape);
    SizeLook(m, tape);
    var n := if d == [] then Size(l, tape) else Max(Size(l, tape), o + |d|);
    assert n > 0 ==> Look(m, tape, n - 1).Some?;
    assert Size(m, tape) > 0 ==> Look(m, tape, Size(m, tape) - 1).Some?;
  }

  lemma ViewOverlay(l: seq<Request>, m: seq<Request>, tape: seq<byte>, o: nat, d: seq<byte>)
    requires forall j :: 0 <= j < |l| ==> |l[j].data| >= 1
    requires forall j :: 0 <= j < |m| ==> |m[j].data| >= 1
    requires LookOverlay(l, m, tape, o, d)
    ensures View(m, tape) == Overlay(View(l, tape), o, d)
  {
    SizeOverlay(l, m, tape, o, d);
    SizeLook(l, tape);
  }
}
