/**
 While every write is clean and no truncation is overtaken, the requests, the detached ones and the tape
 together hold the users' file, step by step.
 */
module ThreadFile {
  import opened Bytes
  import opened Requests
  import opened RequestOps
  import opened UnifiedWrite
  import opened UnifiedRead
  import opened UnifiedDrain
  import opened UnifiedSweep
  import opened WriteErrors
  import opened FileRun
  import opened Threads
  import opened ThreadLocks

  /** Requests are in order; those for the index partition repeat the tape, and none is queued beside detached ones. */
  ghost predicate ListInOrder(s: FileState, c: nat) {
    && 1 <= c && WellFormed(s.l, c) && IPAgree(s.l, s.tape) && (s.writeIp || NoIP(s.l))
    && Filled(s.local) && AllClear(s.local) && (s.local != [] ==> NoIP(s.l))
    && (s.background.Sweeping? ==> AllClear(s.l + s.local))
  }

  /** The size the record has is right, or too large while lost bytes are not accounted for yet. */
  predicate SizeHeld(s: FileState) {
    s.record ==> if Recovering(s) then s.size >= |s.plain| else s.size == |s.plain|
  }

  /** The requests, the detached ones and the tape together hold the users' file. */
  ghost predicate HoldsPlain(s: FileState, c: nat) {
    && ListInOrder(s, c) && SizeHeld(s)
    && match s.cut
       case None => View(s.l + s.local, s.tape) == s.plain
       case Some(n) =>
         && Resize(View(s.l + s.local, s.tape), n) == s.plain
         && forall j :: 0 <= j < |s.l| ==> s.l[j].End() <= n
  }

  /** Both invariants. */
  ghost predicate Exact(s: FileState, c: nat) {
    Core(s, c) && HoldsPlain(s, c)
  }

  // ---- Steps on the list ----

  lemma {:induction false} LookupFilled(l: seq<Request>, m: seq<Request>, local: seq<Request>,
    tape: seq<byte>, o: nat, d: seq<byte>)
    requires LookOverlay(l, m, [], o, d)
    ensures LookOverlay(l + local, m + local, tape, o, d)
  {
    forall x: nat
      ensures Look(m + local, tape, x) ==
        if o <= x < o + |d| then Some(d[x - o]) else Look(l + local, tape, x)
    {
      LookupConcat(m, local, x);
      LookupConcat(l, local, x);
      assert Look(m, [], x) == if o <= x < o + |d| then Some(d[x - o]) else Look(l, [], x);
    }
  }

  /** A placement decision changes no byte. */
  lemma PlacedHolds(l: seq<Request>, local: seq<Request>, tape: seq<byte>, was: bool, now: bool, c: nat)
    requires WellFormed(l, c) && IPAgree(l, tape) && (was || NoIP(l)) && (local != [] ==> NoIP(l))
    ensures var m := Placed(l, was, now);
      && WellFormed(m, c) && IPAgree(m, tape) && (now || NoIP(m)) && (NoIP(l) ==> m == l)
      && View(m + local, tape) == View(l + local, tape)
  {
    if was && !now {
      DropHolds(l, local, tape, c);
    }
  }

  lemma DropHolds(l: seq<Request>, local: seq<Request>, tape: seq<byte>, c: nat)
    requires WellFormed(l, c) && IPAgree(l, tape) && (local != [] ==> NoIP(l))
    ensures WellFormed(DropIP(l), c) && NoIP(DropIP(l)) && (NoIP(l) ==> DropIP(l) == l)
    ensures View(DropIP(l) + local, tape) == View(l + local, tape)
  {
    DropIPKeepsOrder(l, c);
    if NoIP(l) {
      NoIPKept(l);
    } else {
      DropIPView(l, tape, c);
      assert l + [] == l && DropIP(l) + [] == DropIP(l);
    }
  }

  /** What a clean write leaves of the list, and how much of it was placed. */
  lemma WrittenAlone(l: seq<Request>, tape: seq<byte>, o: nat, d: seq<byte>, c: nat, blocks: nat, r: Outcome)
    requires WellFormed(l, c) && 1 <= c && IPAgree(l, tape) && Clean(l, o, d, c, blocks)
    requires r == Attempt(l, o, d, c, blocks)
    ensures WellFormed(r.l, c) && IPAgree(r.l, tape) && (NoIP(l) ==> NoIP(r.l)) && |r.d| <= |d|
    ensures LookOverlay(l, r.l, tape, o, d[..|d| - |r.d|])
    ensures View(r.l, tape) == Overlay(View(l, tape), o, d[..|d| - |r.d|])
  {
    CleanWrite(l, tape, o, d, c, blocks);
    assert |d| - |r.d| == r.o - o;
    if NoIP(l) {
      AttemptNoIP(l, o, d, c, blocks);
    }
  }

  /** A clean write beside detached requests. */
  lemma WrittenBeside(l: seq<Request>, local: seq<Request>, tape: seq<byte>,
    o: nat, d: seq<byte>, c: nat, blocks: nat, r: Outcome)
    requires WellFormed(l, c) && 1 <= c && NoIP(l) && Filled(local) && Clean(l, o, d, c, blocks)
    requires r == Attempt(l, o, d, c, blocks) && WellFormed(r.l, c) && |r.d| <= |d|
    ensures View(r.l + local, tape) == Overlay(View(l + local, tape), o, d[..|d| - |r.d|])
  {
    var placed := d[..|d| - |r.d|];
    WrittenAlone(l, [], o, d, c, blocks, r);
    LookupFilled(l, r.l, local, tape, o, placed);
    ViewOverlay(l + local, r.l + local, tape, o, placed);
  }

  lemma WrittenOver(l: seq<Request>, local: seq<Request>, tape: seq<byte>, o: nat, d: seq<byte>, c: nat,
    blocks: nat, r: Outcome)
    requires WellFormed(l, c) && 1 <= c && IPAgree(l, tape) && (local != [] ==> NoIP(l))
    requires Filled(local) && Clean(l, o, d, c, blocks) && r == Attempt(l, o, d, c, blocks)
    ensures WellFormed(r.l, c) && IPAgree(r.l, tape) && (NoIP(l) ==> NoIP(r.l)) && |r.d| <= |d|
    ensures View(r.l + local, tape) == Overlay(View(l + local, tape), o, d[..|d| - |r.d|])
  {
    WrittenAlone(l, tape, o, d, c, blocks, r);
    if local == [] {
      assert l + local == l && r.l + local == r.l;
    } else {
      WrittenBeside(l, local, tape, o, d, c, blocks, r);
    }
  }

  /** A state in which `l` holds what the write left of the list, the rest of the write not being placed. */
  lemma WrittenHolds(s: FileState, u: FileState, l: seq<Request>, now: bool, o: nat, placed: seq<byte>, c: nat)
    requires HoldsPlain(s, c) && s.cut == None && !s.background.Sweeping?
    requires WellFormed(l, c) && IPAgree(l, s.tape) && (now || NoIP(l)) && (NoIP(s.l) ==> NoIP(l))
    requires View(l + s.local, s.tape) == Overlay(View(s.l + s.local, s.tape), o, placed)
    requires u == s.(l := l, writeIp := now, plain := Overlay(s.plain, o, placed), exact := u.exact,
                     size := if placed == [] then s.size else Max(s.size, o + |placed|))
    ensures HoldsPlain(u, c)
  {
  }

  /** The placement decision and the write, on what the scheduler holds of the file. */
  lemma PlacedWritten(l: seq<Request>, local: seq<Request>, tape: seq<byte>, was: bool, now: bool,
    o: nat, d: seq<byte>, c: nat, blocks: nat, r: Outcome, placed: seq<byte>)
    requires WellFormed(l, c) && 1 <= c && IPAgree(l, tape) && (was || NoIP(l)) && (local != [] ==> NoIP(l))
    requires Filled(local)
    requires Sized(Placed(l, was, now), c) && Clean(Placed(l, was, now), o, d, c, blocks)
    requires r == Attempt(Placed(l, was, now), o, d, c, blocks) && placed == d[..Max(0, |d| - |r.d|)]
    ensures WellFormed(r.l, c) && IPAgree(r.l, tape) && (now || NoIP(r.l)) && (NoIP(l) ==> NoIP(r.l))
    ensures View(r.l + local, tape) == Overlay(View(l + local, tape), o, placed)
  {
    PlacedHolds(l, local, tape, was, now, c);
    WrittenOver(Placed(l, was, now), local, tape, o, d, c, blocks, r);
    assert |d| - |r.d| >= 0;
  }

  lemma WriteKeeps(s: FileState, e: Step, c: nat)
    requires Exact(s, c) && e.Write? && Enabled(s, e) && AfterWrite(s, e.o, e.d, e.blocks, e.unset, c).exact
    ensures HoldsPlain(AfterWrite(s, e.o, e.d, e.blocks, e.unset, c), c)
  {
    PlacedSized(s.l, s.writeIp, s.writeIp && !e.unset, c);
    var now := s.writeIp && !e.unset;
    var r := Attempt(Found(s, e.unset), e.o, e.d, c, e.blocks);
    var placed := e.d[..Max(0, |e.d| - |r.d|)];
    PlacedWritten(s.l, s.local, s.tape, s.writeIp, now, e.o, e.d, c, e.blocks, r, placed);
    WrittenHolds(s, AfterWrite(s, e.o, e.d, e.blocks, e.unset, c), r.l, now, e.o, placed, c);
  }

  lemma PlaceKeeps(s: FileState, e: Step, c: nat)
    requires Exact(s, c) && e.Place? && Enabled(s, e)
    ensures HoldsPlain(Change(s, e, c), c)
  {
    PlacedHolds(s.l, s.local, s.tape, s.writeIp, e.writeIp, c);
  }

  lemma AtPastEnd(l: seq<Request>, tape: seq<byte>, x: nat)
    requires x >= Size(l, tape)
    ensures At(l, tape, x) == 0
  {
    SizeBound(l, tape);
    LookupNone(l, x);
  }

  lemma SameBelow(l: seq<Request>, m: seq<Request>, tape: seq<byte>, n: nat)
    requires forall x: nat :: x < n ==> At(m, tape, x) == At(l, tape, x)
    ensures Resize(View(m, tape), n) == Resize(View(l, tape), n)
  {
    forall x: nat | x < n ensures Resize(View(m, tape), n)[x] == Resize(View(l, tape), n)[x] {
      assert At(m, tape, x) == At(l, tape, x);
      if x >= Size(l, tape) {
        AtPastEnd(l, tape, x);
      }
      if x >= Size(m, tape) {
        AtPastEnd(m, tape, x);
      }
    }
  }

  lemma EndsBySize(s: FileState)
    requires View(s.l + s.local, s.tape) == s.plain && s.size >= |s.plain|
    ensures forall j :: 0 <= j < |s.l| ==> s.l[j].End() <= s.size
  {
    SizeBound(s.l + s.local, s.tape);
    forall j | 0 <= j < |s.l| ensures s.l[j].End() <= s.size {
      assert (s.l + s.local)[j] == s.l[j];
    }
  }

  /** What is left of an index-partition request before `n` repeats the tape as the request did. */
  lemma CutAgrees(l: seq<Request>, m: seq<Request>, tape: seq<byte>, n: nat)
    requires IPAgree(l, tape) && |m| <= |l| && forall j :: 0 <= j < |m| ==> Cut(m[j], l[j], n)
    ensures IPAgree(m, tape)
  {
    forall j | 0 <= j < |m| && m[j].state == IP ensures OnTape(m[j], tape) {
      OnTapePart(l[j], 0, |m[j].data|, tape);
    }
  }

  /** The list trimmed, before the placement decision. */
  lemma TrimKeeps(s: FileState, n: nat, c: nat)
    requires ListInOrder(s, c) && s.cut == None && s.size >= |s.plain|
    requires View(s.l + s.local, s.tape) == s.plain
    ensures var m := Truncated(s.l, s.size, n);
      && WellFormed(m, c) && IPAgree(m, s.tape) && (NoIP(s.l) ==> NoIP(m))
      && (forall j :: 0 <= j < |m| ==> m[j].End() <= n)
      && Resize(View(m + s.local, s.tape), n) == Resize(s.plain, n)
  {
    var m := Truncated(s.l, s.size, n);
    EndsBySize(s);
    TruncatedCut(s.l, s.size, n, c);
    CutWellFormed(s.l, m, n, c);
    CutAgrees(s.l, m, s.tape, n);
    forall x: nat | x < n ensures At(m + s.local, s.tape, x) == At(s.l + s.local, s.tape, x) {
      LookupConcat(m, s.local, x);
      LookupConcat(s.l, s.local, x);
      assert Lookup(m, x) == Lookup(s.l, x);
    }
    SameBelow(s.l + s.local, m + s.local, s.tape, n);
  }

  lemma CutListKeeps(s: FileState, e: Step, c: nat)
    requires Exact(s, c) && e.CutList? && Enabled(s, e)
    ensures HoldsPlain(CutFile(s, e), c)
  {
    TrimKeeps(s, e.n, c);
    var u := s.(l := Truncated(s.l, s.size, e.n));
    PlacedHolds(u.l, s.local, s.tape, s.writeIp, e.writeIp, c);
    PlacedWithin(u.l, u.writeIp, e.writeIp, e.n);
    SameResize(Placed(u.l, u.writeIp, e.writeIp) + s.local, u.l + s.local, s.tape, e.n);
  }

  lemma PlacedWithin(l: seq<Request>, was: bool, now: bool, n: nat)
    requires forall j :: 0 <= j < |l| ==> l[j].End() <= n
    ensures forall j :: 0 <= j < |Placed(l, was, now)| ==> Placed(l, was, now)[j].End() <= n
  {
    var m := Placed(l, was, now);
    forall j | 0 <= j < |m| ensures m[j].End() <= n {
      DropIPMember(l, m[j]);
    }
  }

  lemma SameResize(l: seq<Request>, m: seq<Request>, tape: seq<byte>, n: nat)
    requires View(l, tape) == View(m, tape)
    ensures Resize(View(l, tape), n) == Resize(View(m, tape), n)
  {
  }

  lemma CutTapeKeeps(s: FileState, e: Step, c: nat)
    requires Exact(s, c) && e.CutTape? && Enabled(s, e)
    ensures HoldsPlain(CutFile(s, e), c)
  {
    var n, t := s.cut.value, Resize(s.tape, s.cut.value);
    assert s.l + [] == s.l;
    CutView(s.l, s.l, s.tape, n);
    forall j | 0 <= j < |s.l| && s.l[j].state == IP ensures OnTape(s.l[j], t) {
      CutOnTape(s.l[j], s.l[j], s.tape, n);
    }
  }

  lemma NothingQueued(s: FileState, c: nat)
    requires Exact(s, c) && !s.record
    ensures s.l == [] && s.local == [] && s.tape == s.plain
  {
    assert s.l + s.local == [] && View([], s.tape) == s.tape;
  }

  /** Without a record the tape is the file, and a truncation of the one is a truncation of the other. */
  lemma BareCutKeeps(s: FileState, e: Step, c: nat)
    requires Exact(s, c) && e.BareCut? && Enabled(s, e) && CutFile(s, e).exact && s.exact
    ensures HoldsPlain(CutFile(s, e), c)
  {
    NothingQueued(s, c);
    assert View([], Resize(s.tape, s.bare[e.k])) == Resize(s.tape, s.bare[e.k]);
    NothingHeld(CutFile(s, e), c);
  }

  lemma NothingHeld(u: FileState, c: nat)
    requires 1 <= c && !u.record && u.l == [] && u.local == [] && u.cut == None && u.tape == u.plain
    ensures HoldsPlain(u, c)
  {
    assert u.l + u.local == [] && View([], u.tape) == u.tape;
  }

  lemma NewRecordKeeps(s: FileState, e: Step, c: nat)
    requires Exact(s, c) && e.NewRecord? && Enabled(s, e)
    ensures HoldsPlain(MoveLocks(s, e), c)
  {
    NothingQueued(s, c);
  }

  lemma BeginSweepKeeps(s: FileState, e: Step, c: nat)
    requires Exact(s, c) && e.BeginSweep? && Enabled(s, e)
    ensures HoldsPlain(MoveLocks(s, e), c)
  {
    DisjointClear(s.l);
    assert s.l + [] == s.l;
  }

  lemma LocalClear(l: seq<Request>, local: seq<Request>)
    requires AllClear(l + local)
    ensures AllClear(local)
  {
    forall j, k | 0 <= j < k < |local| ensures Clear(local[j], local[k]) {
      assert (l + local)[|l| + j] == local[j] && (l + local)[|l| + k] == local[k];
    }
  }

  lemma SweepOneKeeps(s: FileState, e: Step, c: nat)
    requires Exact(s, c) && e.SweepOne? && Enabled(s, e)
    ensures HoldsPlain(Drain(s, e, c), c)
  {
    var m := Midway(s.l, s.background.i, s.tape, s.local);
    SweepOnceKeepsFile(m, s.background.all, s.writeIp, c);
    var n := SweepOnce(m, s.background.all, s.writeIp, c);
    LocalClear(n.l, n.local);
  }

  lemma FlushOneKeeps(s: FileState, e: Step, c: nat)
    requires Exact(s, c) && e.FlushOne? && Enabled(s, e)
    ensures HoldsPlain(Drain(s, e, c), c)
  {
    var m := Midway(s.l, s.flush.value, s.tape, []);
    DisjointClear(s.l);
    assert s.l + [] == s.l;
    SweepOnceKeepsFile(m, true, s.writeIp, c);
    var n := SweepOnce(m, true, s.writeIp, c);
    LocalClear(n.l, n.local);
    WriteAllView(n.l, n.local, n.tape);
    assert n.l + [] == n.l;
  }

  lemma TailClear(local: seq<Request>)
    requires Filled(local) && AllClear(local) && local != []
    ensures Filled(local[1..]) && AllClear(local[1..])
  {
    forall j, k | 0 <= j < k < |local[1..]| ensures Clear(local[1..][j], local[1..][k]) {
      assert Clear(local[j + 1], local[k + 1]);
    }
  }

  lemma DetachedView(l: seq<Request>, local: seq<Request>, tape: seq<byte>)
    requires Filled(local) && AllClear(local) && local != []
    ensures View(l + local[1..], Overlay(tape, local[0].offset, local[0].data)) == View(l + local, tape)
  {
    forall j | 0 <= j < |local[1..]| ensures Clear(local[0], local[1..][j]) {
      assert Clear(local[0], local[j + 1]);
    }
    WriteOne(l, local[0], local[1..], tape);
    assert l + [local[0]] + local[1..] == l + local;
  }

  lemma WriteDetachedKeeps(s: FileState, e: Step, c: nat)
    requires Exact(s, c) && e.WriteDetached? && Enabled(s, e)
    ensures HoldsPlain(Drain(s, e, c), c)
  {
    TailClear(s.local);
    DetachedView(s.l, s.local, s.tape);
    assert !s.background.Sweeping? && NoIP(s.l);
  }

  /** A failed write of detached requests takes exactly those with it that were not written yet. */
  lemma WriteFailsKeeps(s: FileState, e: Step, c: nat)
    requires Exact(s, c) && e.WriteFails? && Enabled(s, e)
    ensures HoldsPlain(Drain(s, e, c), c)
  {
    assert s.l + [] == s.l;
    SizeConcat(s.l, s.local, s.tape);
  }

  /** A state with the list after a failed write, cleared of what cannot reach the tape. */
  lemma GivenUpHolds(s: FileState, l: seq<Request>, u: FileState, c: nat)
    requires ListInOrder(s, c) && s.local == [] && s.cut == None
    requires WellFormed(l, c) && IPAgree(l, s.tape) && (NoIP(s.l) ==> NoIP(l))
    requires u.l == l && u.size == Size(l, s.tape) && u.plain == View(l, s.tape)
    requires u.tape == s.tape && u.local == [] && u.cut == None && u.writeIp == s.writeIp && !u.background.Sweeping?
    ensures HoldsPlain(u, c)
  {
    assert l + [] == l;
  }

  /** After a failed write to the data partition the users are left with the tape file. */
  lemma SpareKeeps(s: FileState, f: Failure, c: nat)
    requires ListInOrder(s, c)
    ensures var l := SpareIP(s.l, f);
      WellFormed(l, c) && IPAgree(l, s.tape) && (NoIP(s.l) ==> NoIP(l)) && View(l, s.tape) == s.tape
  {
    KeptInOrder(s.l, true, ClearsIp(false, WriteCode(f), f.otherReadonly), s.tape, c);
    FailedWriteShowsTape(s.l, s.tape, false, WriteCode(f), f.otherReadonly);
  }

  lemma FailKeeps(s: FileState, e: Step, c: nat)
    requires Exact(s, c) && Enabled(s, e) && (e.FlushFails? || e.SweepFails? || (e.Repair? && s.record))
    ensures HoldsPlain(Drain(s, e, c), c)
  {
    var f := if e.FlushFails? then e.e else if e.SweepFails? then e.e else s.background.e;
    SpareKeeps(s, f, c);
    GivenUpHolds(s, SpareIP(s.l, f), Drain(s, e, c), c);
  }

  lemma IndexKeeps(s: FileState, e: Step, c: nat)
    requires Exact(s, c) && Enabled(s, e) && (e.IndexPass? || e.IndexFails?)
    ensures HoldsPlain(Change(s, e, c), c)
  {
    if e.IndexPass? {
      DropIPView(s.l, s.tape, c);
      assert s.l + [] == s.l && DropIP(s.l) + [] == DropIP(s.l);
    } else {
      var code := IndexCode(e.e);
      KeptInOrder(s.l, ClearsDp(true, code, e.e.otherReadonly), ClearsIp(true, code, e.e.otherReadonly), s.tape, c);
      GivenUpHolds(s, AfterIndexFailure(s.l, e.e), Change(s, e, c), c);
    }
  }

  /** Two states with the same file in them. */
  ghost predicate SameFile(s: FileState, u: FileState) {
    && u.l == s.l && u.tape == s.tape && u.local == s.local && u.plain == s.plain
    && u.cut == s.cut && u.writeIp == s.writeIp && u.exact == s.exact
    && (u.background == s.background || !u.background.Sweeping?)
    && (u.record ==> s.record && u.size == s.size && (Recovering(s) ==> Recovering(u)))
  }

  lemma SameFileHolds(s: FileState, u: FileState, c: nat)
    requires HoldsPlain(s, c) && SameFile(s, u)
    ensures HoldsPlain(u, c)
  {
  }

  lemma UserSame(s: FileState, e: Step, c: nat)
    requires Core(s, c) && Enabled(s, e) && (e.ReportError? || e.BeginFlush? || e.EndFlush? || e.BeginRead?)
    ensures SameFile(s, MoveLocks(s, e))
  {
  }

  lemma CloseSame(s: FileState, e: Step, c: nat)
    requires Core(s, c) && Enabled(s, e) && (e.BeginClose? || e.LockToFlush? || e.EndClose?)
    ensures SameFile(s, MoveLocks(s, e))
  {
  }

  lemma BackgroundSame(s: FileState, e: Step, c: nat)
    requires Core(s, c) && Enabled(s, e) && (e.Take? || e.EndSweep? || e.TakeAgain? || e.Done?)
    ensures SameFile(s, MoveLocks(s, e))
  {
  }

  lemma LockKeeps(s: FileState, e: Step, c: nat)
    requires Exact(s, c) && Enabled(s, e) && LockStep(e)
    ensures HoldsPlain(MoveLocks(s, e), c)
  {
    if e.NewRecord? {
      NewRecordKeeps(s, e, c);
    } else if e.BeginSweep? {
      BeginSweepKeeps(s, e, c);
    } else {
      if e.Take? || e.EndSweep? || e.TakeAgain? || e.Done? {
        BackgroundSame(s, e, c);
      } else if e.BeginClose? || e.LockToFlush? || e.EndClose? {
        CloseSame(s, e, c);
      } else {
        UserSame(s, e, c);
      }
      SameFileHolds(s, MoveLocks(s, e), c);
    }
  }

  lemma ServedSame(s: FileState, t: nat, r: Returned)
    ensures SameFile(s, Served(s.(file := Free), t, r))
  {
  }

  lemma WaitingSame(s: FileState, readers: map<nat, Reading>)
    ensures SameFile(s, s.(readers := readers))
  {
  }

  lemma PlanOnSame(s: FileState, t: nat, p: Plan, o: nat, n: nat)
    ensures SameFile(s, PlanOn(s, t, p, o, n))
  {
    if NeedsTape(p) {
      WaitingSame(s, s.readers[t := Planned(p, o, n)]);
    } else {
      ServedSame(s, t, Returned(Fill(p.pieces, [], false), Slice(s.plain, o, n), false, s.exact));
    }
  }

  lemma PlanSame(s: FileState, e: Step)
    requires Enabled(s, e) && e.PlanRead?
    ensures SameFile(s, ReadOn(s, e))
  {
    var Planning(o, n) := s.readers[e.t];
    PlanOnSame(s, e.t, MakePlan(s.l, o, n), o, n);
  }

  lemma ReadSame(s: FileState, e: Step)
    requires Enabled(s, e) && ReadStep(e) && !e.PlanRead?
    ensures SameFile(s, ReadOn(s, e))
  {
  }

  lemma ReadKeeps(s: FileState, e: Step, c: nat)
    requires Exact(s, c) && Enabled(s, e) && ReadStep(e)
    ensures HoldsPlain(ReadOn(s, e), c)
  {
    if e.PlanRead? {
      PlanSame(s, e);
    } else {
      ReadSame(s, e);
    }
    SameFileHolds(s, ReadOn(s, e), c);
  }

  lemma UnkeptKeeps(s: FileState, e: Step, c: nat)
    requires Exact(s, c) && Enabled(s, e) && e.Repair? && !s.record
    ensures HoldsPlain(Drain(s, e, c), c)
  {
    SameFileHolds(s, Drain(s, e, c), c);
  }

  lemma DrainKeeps(s: FileState, e: Step, c: nat)
    requires Exact(s, c) && Enabled(s, e) && DrainStep(e)
    ensures HoldsPlain(Drain(s, e, c), c)
  {
    if e.FlushOne? {
      FlushOneKeeps(s, e, c);
    } else if e.SweepOne? {
      SweepOneKeeps(s, e, c);
    } else if e.WriteDetached? {
      WriteDetachedKeeps(s, e, c);
    } else if e.WriteFails? {
      WriteFailsKeeps(s, e, c);
    } else if e.Repair? && !s.record {
      UnkeptKeeps(s, e, c);
    } else {
      FailKeeps(s, e, c);
    }
  }

  lemma CutKeeps(s: FileState, e: Step, c: nat)
    requires Exact(s, c) && Enabled(s, e) && CutStep(e) && s.exact && CutFile(s, e).exact
    ensures HoldsPlain(CutFile(s, e), c)
  {
    if e.CutList? {
      CutListKeeps(s, e, c);
    } else if e.CutTape? {
      CutTapeKeeps(s, e, c);
    } else if e.BareCut? {
      BareCutKeeps(s, e, c);
    } else {
      SameFileHolds(s, CutFile(s, e), c);
    }
  }

  lemma ChangeKeeps(s: FileState, e: Step, c: nat)
    requires Exact(s, c) && Enabled(s, e) && ChangeStep(e) && Change(s, e, c).exact
    ensures HoldsPlain(Change(s, e, c), c)
  {
    if e.Write? {
      WriteKeeps(s, e, c);
    } else if e.Place? {
      PlaceKeeps(s, e, c);
    } else {
      IndexKeeps(s, e, c);
    }
  }

  /** A step that leaves the run exact keeps the users' file. */
  lemma MoveKeeps(s: FileState, e: Step, c: nat)
    requires Exact(s, c) && Enabled(s, e) && s.exact && Move(s, e, c).exact
    ensures Exact(Move(s, e, c), c)
  {
    MoveCore(s, e, c);
    if ReadStep(e) {
      IsReadStep(s, e, c);
      ReadKeeps(s, e, c);
    } else if DrainStep(e) {
      IsDrainStep(s, e, c);
      DrainKeeps(s, e, c);
    } else if LockStep(e) {
      IsLockStep(s, e, c);
      LockKeeps(s, e, c);
    } else if CutStep(e) {
      IsCutStep(s, e, c);
      CutKeeps(s, e, c);
    } else {
      IsChange(s, e, c);
      ChangeKeeps(s, e, c);
    }
  }
}
