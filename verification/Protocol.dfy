/**
 What holds of every run of the threads that share one file: a read returns the file, no lost byte goes
 unreported but in the ways listed here, and no thread waits for ever.
 */
module Protocol {
  import opened Bytes
  import opened Requests
  import opened UnifiedWrite
  import opened UnifiedRead
  import opened UnifiedDrain
  import opened UnifiedSweep
  import opened WriteErrors
  import opened FileRun
  import opened Threads
  import opened ThreadLocks
  import opened ThreadFile

  // ---- Reads ----

  /** What a read under way will return is what it owes, if it is sure. */
  ghost predicate ReadOk(s: FileState, r: Reading) {
    match r
    case Planning(_, _) => true
    case Planned(p, o, n) => p == MakePlan(s.l, o, n)
    case AtTape(todo, pastEof, o, n, got, due, sure, cuts) =>
      cuts <= s.cuts && (sure && cuts == s.cuts ==> got + Fill(todo, s.tape, pastEof) + Slice(s.tape, o, n) == due)
    case Bare(o, n, was, due, sure) => sure ==> due == Slice(was, o, n)
  }

  ghost predicate ReadsOk(s: FileState) {
    && (forall t :: t in s.readers ==> ReadOk(s, s.readers[t]))
    && (forall k :: 0 <= k < |s.log| ==> ReturnedOk(s.log[k]))
  }

  predicate ReturnedOk(r: Returned) {
    r.sure ==> r.got == r.due
  }

  predicate Sure(r: Reading) {
    match r
    case AtTape(_, _, _, _, _, _, sure, cuts) => sure && cuts == 0
    case Bare(_, _, _, _, sure) => sure
    case _ => true
  }

  /** While the run is exact every read that finds a record is sure. */
  ghost predicate ReadsSure(s: FileState) {
    s.exact ==>
      && s.cuts == 0 && (forall t :: t in s.readers ==> Sure(s.readers[t]))
      && (forall k :: 0 <= k < |s.log| ==> s.log[k].bare || s.log[k].sure)
  }

  /** Given-up requests have left an error, or the background thread is about to leave one. */
  predicate LossTold(s: FileState) {
    (s.lost && !s.silent ==> s.error || Recovering(s)) && (Recovering(s) ==> s.lost)
  }

  /** What the invariant says but for losses. */
  ghost predicate AllKept(s: FileState, c: nat) {
    Core(s, c) && (s.exact ==> HoldsPlain(s, c)) && ReadsOk(s) && ReadsSure(s)
  }

  ghost predicate Inv(s: FileState, c: nat) {
    AllKept(s, c) && LossTold(s)
  }

  lemma {:induction false} FillWithoutHoles(pieces: seq<Piece>, tape: seq<byte>, other: seq<byte>)
    requires forall j :: 0 <= j < |pieces| ==> !pieces[j].Hole?
    ensures Fill(pieces, tape, false) == Fill(pieces, other, false)
  {
    if pieces != [] {
      FillWithoutHoles(pieces[1..], tape, other);
    }
  }

  /** A read served from requests alone returns the file even while detached requests are in flight. */
  lemma CachedRead(s: FileState, o: nat, n: nat, c: nat)
    requires HoldsPlain(s, c) && s.cut.None? && !NeedsTape(MakePlan(s.l, o, n))
    ensures Fill(MakePlan(s.l, o, n).pieces, [], false) == Slice(s.plain, o, n)
  {
    var p := MakePlan(s.l, o, n);
    var tape := WriteAll(s.local, s.tape);
    WriteAllView(s.l, s.local, s.tape);
    ReadIsSlice(s.l, tape, o, n);
    FillWithoutHoles(p.pieces, [], tape);
    assert Slice(tape, p.o, 0) == [];
  }

  /** A step of one reader that leaves every other alone. */
  ghost predicate ReaderStep(s: FileState, u: FileState, t: nat) {
    && u.l == s.l && u.tape == s.tape && u.cuts == s.cuts && u.exact == s.exact
    && (forall k :: k in u.readers && k != t ==> k in s.readers && u.readers[k] == s.readers[k])
    && (u.log == s.log || (|u.log| == |s.log| + 1 && u.log[..|s.log|] == s.log))
  }

  lemma ReaderGoesOn(s: FileState, u: FileState, t: nat)
    requires ReadsOk(s) && ReadsSure(s) && ReaderStep(s, u, t)
    requires t in u.readers ==> ReadOk(u, u.readers[t]) && (u.exact ==> Sure(u.readers[t]))
    requires u.log != s.log ==>
      var r := u.log[|s.log|]; ReturnedOk(r) && (u.exact ==> r.bare || r.sure)
    ensures ReadsOk(u) && ReadsSure(u)
  {
    forall k | k in u.readers && k != t ensures ReadOk(u, u.readers[k]) && (u.exact ==> Sure(u.readers[k])) {
      assert ReadOk(s, s.readers[k]);
    }
    forall k | 0 <= k < |u.log| ensures ReturnedOk(u.log[k]) && (u.exact ==> u.log[k].bare || u.log[k].sure) {
      if k < |s.log| {
        assert u.log[k] == s.log[k];
      }
    }
  }

  lemma PlanOnReads(s: FileState, t: nat, o: nat, n: nat, c: nat)
    requires ReadsOk(s) && ReadsSure(s) && s.cut == None && (s.exact ==> HoldsPlain(s, c))
    ensures ReadsOk(PlanOn(s, t, MakePlan(s.l, o, n), o, n)) && ReadsSure(PlanOn(s, t, MakePlan(s.l, o, n), o, n))
  {
    var p := MakePlan(s.l, o, n);
    if NeedsTape(p) {
      ReaderGoesOn(s, s.(readers := s.readers[t := Planned(p, o, n)]), t);
    } else {
      var r := Returned(Fill(p.pieces, [], false), Slice(s.plain, o, n), false, s.exact);
      if s.exact {
        CachedRead(s, o, n, c);
      }
      ServedReads(s, s.(file := Free), t, r);
    }
  }

  lemma ServedReads(s: FileState, v: FileState, t: nat, r: Returned)
    requires ReadsOk(s) && ReadsSure(s) && ReturnedOk(r) && (s.exact ==> r.bare || r.sure)
    requires v == s.(file := v.file, io := v.io)
    ensures ReadsOk(Served(v, t, r)) && ReadsSure(Served(v, t, r))
  {
    ReaderGoesOn(s, Served(v, t, r), t);
  }

  /** Without a record the tape is the file. */
  lemma BareReads(s: FileState, t: nat, o: nat, n: nat, c: nat)
    requires Inv(s, c) && !s.record
    ensures var u := s.(readers := s.readers[t := Bare(o, n, s.tape, Slice(s.plain, o, n), s.exact)], file := Free);
      ReadsOk(u) && ReadsSure(u)
  {
    if s.exact {
      NothingQueued(s, c);
    }
    ReaderGoesOn(s, s.(readers := s.readers[t := Bare(o, n, s.tape, Slice(s.plain, o, n), s.exact)], file := Free), t);
  }

  lemma PlanReads(s: FileState, e: Step, c: nat)
    requires Inv(s, c) && e.PlanRead? && Enabled(s, e)
    ensures ReadsOk(ReadOn(s, e)) && ReadsSure(ReadOn(s, e))
  {
    var Planning(o, n) := s.readers[e.t];
    assert ReaderHolds(s, e.t);
    if s.record {
      PlanOnReads(s, e.t, o, n, c);
    } else {
      BareReads(s, e.t, o, n, c);
    }
  }

  lemma LockTapeReads(s: FileState, e: Step, c: nat)
    requires Inv(s, c) && e.LockTape? && Enabled(s, e)
    ensures ReadsOk(ReadOn(s, e)) && ReadsSure(ReadOn(s, e))
  {
    var Planned(p, o, n) := s.readers[e.t];
    assert ReadOk(s, s.readers[e.t]) && ReaderHolds(s, e.t);
    if s.exact {
      assert s.l + [] == s.l;
      ReadIsSlice(s.l, s.tape, o, n);
      assert [] + Fill(p.pieces, s.tape, false) == Fill(p.pieces, s.tape, false);
    }
    ReaderGoesOn(s, ReadOn(s, e), e.t);
  }

  lemma AdvanceDue(r: Reading, tape: seq<byte>)
    requires r.AtTape? && r.todo != []
    ensures var q := Advance(r, tape);
      q.got + Fill(q.todo, tape, q.pastEof) == r.got + Fill(r.todo, tape, r.pastEof)
  {
  }

  lemma ReadPieceReads(s: FileState, e: Step, c: nat)
    requires Inv(s, c) && e.ReadPiece? && Enabled(s, e)
    ensures ReadsOk(ReadOn(s, e)) && ReadsSure(ReadOn(s, e))
  {
    var r := s.readers[e.t];
    assert ReadOk(s, r);
    AdvanceDue(r, s.tape);
    ReaderGoesOn(s, s.(readers := s.readers[e.t := Advance(r, s.tape)]), e.t);
  }

  lemma EndReadReads(s: FileState, e: Step, c: nat)
    requires Inv(s, c) && e.EndRead? && Enabled(s, e)
    ensures ReadsOk(ReadOn(s, e)) && ReadsSure(ReadOn(s, e))
  {
    var r := s.readers[e.t];
    assert ReadOk(s, r);
    assert r.got + Fill([], s.tape, r.pastEof) == r.got;
    assert s.exact ==> Sure(r);
    ServedReads(s, s.(io := Free), e.t,
                Returned(r.got + Slice(s.tape, r.o, r.n), r.due, false, r.sure && r.cuts == s.cuts));
  }

  lemma ReadBareReads(s: FileState, e: Step, c: nat)
    requires Inv(s, c) && e.ReadBare? && Enabled(s, e)
    ensures ReadsOk(ReadOn(s, e)) && ReadsSure(ReadOn(s, e))
  {
    var r := s.readers[e.t];
    assert ReadOk(s, r);
    ServedReads(s, s, e.t, Returned(Slice(s.tape, r.o, r.n), r.due, true, r.sure && r.was == s.tape));
  }

  lemma ReadReads(s: FileState, e: Step, c: nat)
    requires Inv(s, c) && ReadStep(e) && Enabled(s, e)
    ensures ReadsOk(Move(s, e, c)) && ReadsSure(Move(s, e, c))
  {
    IsReadStep(s, e, c);
    if e.PlanRead? {
      PlanReads(s, e, c);
    } else if e.LockTape? {
      LockTapeReads(s, e, c);
    } else if e.ReadPiece? {
      ReadPieceReads(s, e, c);
    } else if e.EndRead? {
      EndReadReads(s, e, c);
    } else {
      ReadBareReads(s, e, c);
    }
  }

  /**
   Nothing a read depends on changes: the list not while one holds the file lock, the tape not while one
   holds the io lock, unless a truncation was overtaken.
   */
  ghost predicate Undisturbed(s: FileState, u: FileState) {
    && u.log == s.log && (u.exact ==> s.exact && u.cuts == s.cuts)
    && (forall t :: t in u.readers ==> u.readers[t].Planning? || (t in s.readers && u.readers[t] == s.readers[t]))
    && (u.l == s.l || !s.file.Reader?) && u.cuts >= s.cuts
    && (u.tape == s.tape || !s.io.Reader? || u.cuts > s.cuts)
  }

  lemma UndisturbedReads(s: FileState, u: FileState)
    requires LocksHeld(s) && ReadsOk(s) && ReadsSure(s) && Undisturbed(s, u)
    ensures ReadsOk(u) && ReadsSure(u)
  {
    forall t | t in u.readers ensures ReadOk(u, u.readers[t]) && (u.exact ==> Sure(u.readers[t])) {
      if !u.readers[t].Planning? {
        assert ReadOk(s, s.readers[t]) && ReaderHolds(s, t);
      }
    }
  }

  lemma TakingMoves(s: FileState, e: Step, c: nat)
    requires Core(s, c) && Enabled(s, e) && (e.Take? || e.BeginSweep? || e.TakeAgain?)
    ensures Undisturbed(s, MoveLocks(s, e))
  {
  }

  lemma BackgroundMoves(s: FileState, e: Step, c: nat)
    requires Core(s, c) && Enabled(s, e)
    requires e.Take? || e.BeginSweep? || e.EndSweep? || e.TakeAgain? || e.Done?
    ensures Undisturbed(s, MoveLocks(s, e))
  {
    if e.Take? || e.BeginSweep? || e.TakeAgain? {
      TakingMoves(s, e, c);
    }
  }

  lemma BeginReadMoves(s: FileState, e: Step, c: nat)
    requires Core(s, c) && Enabled(s, e) && e.BeginRead?
    ensures Undisturbed(s, MoveLocks(s, e))
  {
  }

  lemma UserMoves(s: FileState, e: Step, c: nat)
    requires Core(s, c) && Enabled(s, e) && (e.NewRecord? || e.ReportError? || e.BeginRead?)
    ensures Undisturbed(s, MoveLocks(s, e))
  {
    if e.BeginRead? {
      BeginReadMoves(s, e, c);
    }
  }

  lemma FlushMoves(s: FileState, e: Step, c: nat)
    requires Core(s, c) && Enabled(s, e)
    requires e.BeginFlush? || e.EndFlush? || e.BeginClose? || e.LockToFlush? || e.EndClose?
    ensures Undisturbed(s, MoveLocks(s, e))
  {
  }

  lemma CutMoves(s: FileState, e: Step, c: nat)
    requires Core(s, c) && Enabled(s, e) && CutStep(e)
    ensures Undisturbed(s, CutFile(s, e))
  {
  }

  lemma SweepMoves(s: FileState, e: Step, c: nat)
    requires Core(s, c) && Enabled(s, e) && (e.FlushOne? || e.SweepOne? || e.WriteDetached?)
    ensures Undisturbed(s, Drain(s, e, c))
  {
  }

  lemma FailMoves(s: FileState, e: Step, c: nat)
    requires Core(s, c) && Enabled(s, e) && (e.FlushFails? || e.SweepFails?)
    ensures Undisturbed(s, Drain(s, e, c))
  {
  }

  lemma WriteFailsMoves(s: FileState, e: Step, c: nat)
    requires Core(s, c) && Enabled(s, e) && e.WriteFails?
    ensures Undisturbed(s, Drain(s, e, c))
  {
  }

  /** No reader moves, and the tape stays as it is. */
  lemma ReadersStay(s: FileState, u: FileState)
    requires u.readers == s.readers && u.log == s.log && u.cuts == s.cuts && u.tape == s.tape
    requires (u.exact ==> s.exact) && (u.l == s.l || !s.file.Reader?)
    ensures Undisturbed(s, u)
  {
  }

  lemma RepairMoves(s: FileState, e: Step, c: nat)
    requires Core(s, c) && Enabled(s, e) && e.Repair?
    ensures Undisturbed(s, Drain(s, e, c))
  {
    assert s.file == Background;
    ReadersStay(s, Drain(s, e, c));
  }

  lemma ChangeMoves(s: FileState, e: Step, c: nat)
    requires Core(s, c) && Enabled(s, e) && ChangeStep(e)
    ensures Undisturbed(s, Change(s, e, c))
  {
  }

  lemma LockMoves(s: FileState, e: Step, c: nat)
    requires Core(s, c) && Enabled(s, e) && LockStep(e)
    ensures Undisturbed(s, MoveLocks(s, e))
  {
    if e.Take? || e.BeginSweep? || e.EndSweep? || e.TakeAgain? || e.Done? {
      BackgroundMoves(s, e, c);
    } else if e.NewRecord? || e.ReportError? || e.BeginRead? {
      UserMoves(s, e, c);
    } else {
      FlushMoves(s, e, c);
    }
  }

  lemma DrainMoves(s: FileState, e: Step, c: nat)
    requires Core(s, c) && Enabled(s, e) && DrainStep(e)
    ensures Undisturbed(s, Drain(s, e, c))
  {
    if e.FlushOne? || e.SweepOne? || e.WriteDetached? {
      SweepMoves(s, e, c);
    } else if e.FlushFails? || e.SweepFails? {
      FailMoves(s, e, c);
    } else if e.WriteFails? {
      WriteFailsMoves(s, e, c);
    } else {
      RepairMoves(s, e, c);
    }
  }

  lemma OthersMove(s: FileState, e: Step, c: nat)
    requires Core(s, c) && Enabled(s, e) && !ReadStep(e)
    ensures Undisturbed(s, Move(s, e, c))
  {
    if LockStep(e) {
      IsLockStep(s, e, c);
      LockMoves(s, e, c);
    } else if CutStep(e) {
      IsCutStep(s, e, c);
      CutMoves(s, e, c);
    } else if DrainStep(e) {
      IsDrainStep(s, e, c);
      DrainMoves(s, e, c);
    } else {
      IsChange(s, e, c);
      ChangeMoves(s, e, c);
    }
  }

  lemma MoveReads(s: FileState, e: Step, c: nat)
    requires Inv(s, c) && Enabled(s, e)
    ensures ReadsOk(Move(s, e, c)) && ReadsSure(Move(s, e, c)) && (Move(s, e, c).exact ==> s.exact)
  {
    if ReadStep(e) {
      ReadReads(s, e, c);
      ReadExact(s, e, c);
    } else {
      OthersMove(s, e, c);
      UndisturbedReads(s, Move(s, e, c));
    }
  }

  lemma ReadExact(s: FileState, e: Step, c: nat)
    requires Sized(s.l, c) && 1 <= c && Enabled(s, e) && ReadStep(e)
    ensures Move(s, e, c).exact == s.exact
  {
    IsReadStep(s, e, c);
    if e.PlanRead? {
      PlanSame(s, e);
    } else {
      ReadSame(s, e);
    }
  }

  // ---- Losses ----

  /**
   The ways in which given-up requests go unreported. The index-partition pass fails, with requests queued
   that are not on tape and no error kept yet, because that partition is full while the data partition is
   read-only or full, or for good and the lock status can be set; or it fails, and the record goes with
   the error in it; or the background thread fails and a close has given the record back meanwhile.
   */
  predicate Swallows(s: FileState, e: Step) {
    || (e.IndexFails? && GivesUp(s.l, e.e) && !s.error
        && ((e.e.cause == NoSpace && e.e.otherReadonly) || (e.e.cause == Permanent && e.e.lockSet)))
    || (e.IndexFails? && e.frees && (GivesUp(s.l, e.e) || s.lost))
    || (e.Repair? && !s.record)
  }

  /** What a step does to what is known of losses. */
  ghost predicate Tells(s: FileState, u: FileState, swallows: bool) {
    && (Recovering(u) ==> u.lost)
    && (LossTold(s) && !s.silent ==> (u.lost && !u.error && !Recovering(u) <==> swallows))
  }

  lemma LockTells(s: FileState, e: Step, c: nat)
    requires Core(s, c) && Enabled(s, e) && LockStep(e) && LossTold(s)
    ensures Tells(s, MoveLocks(s, e), Swallows(s, e))
  {
  }

  lemma CutTells(s: FileState, e: Step, c: nat)
    requires Core(s, c) && Enabled(s, e) && CutStep(e) && LossTold(s)
    ensures Tells(s, CutFile(s, e), Swallows(s, e))
  {
  }

  lemma ReadTells(s: FileState, e: Step, c: nat)
    requires Core(s, c) && Enabled(s, e) && ReadStep(e) && LossTold(s)
    ensures Tells(s, ReadOn(s, e), Swallows(s, e))
  {
  }

  lemma DrainTells(s: FileState, e: Step, c: nat)
    requires Core(s, c) && Enabled(s, e) && DrainStep(e) && LossTold(s)
    ensures Tells(s, Drain(s, e, c), Swallows(s, e))
  {
  }

  lemma ChangeTells(s: FileState, e: Step, c: nat)
    requires Core(s, c) && Enabled(s, e) && ChangeStep(e) && LossTold(s)
    ensures Tells(s, Change(s, e, c), Swallows(s, e))
  {
  }

  lemma MoveTells(s: FileState, e: Step, c: nat)
    requires Core(s, c) && Enabled(s, e) && LossTold(s)
    ensures Tells(s, Move(s, e, c), Swallows(s, e))
  {
    if LockStep(e) {
      IsLockStep(s, e, c);
      LockTells(s, e, c);
    } else if CutStep(e) {
      IsCutStep(s, e, c);
      CutTells(s, e, c);
    } else if ReadStep(e) {
      IsReadStep(s, e, c);
      ReadTells(s, e, c);
    } else if DrainStep(e) {
      IsDrainStep(s, e, c);
      DrainTells(s, e, c);
    } else {
      IsChange(s, e, c);
      ChangeTells(s, e, c);
    }
  }

  lemma HushedTold(s: FileState, u: FileState, swallows: bool)
    requires LossTold(s) && Tells(s, u, swallows)
    ensures var v := u.(silent := s.silent || (u.lost && !u.error && !Recovering(u)));
      LossTold(v) && (v.silent <==> s.silent || swallows)
  {
  }

  /** A step leaves given-up requests with nothing to tell of them exactly if it swallows the error. */
  lemma NextTold(s: FileState, e: Step, c: nat)
    requires Core(s, c) && Enabled(s, e) && LossTold(s)
    ensures LossTold(Next(s, e, c))
    ensures Next(s, e, c).silent <==> s.silent || Swallows(s, e)
  {
    MoveTells(s, e, c);
    HushedTold(s, Move(s, e, c), Swallows(s, e));
  }

  // ---- Runs ----

  /** A file nobody is using yet. */
  ghost predicate Init(s: FileState, c: nat) {
    && 1 <= c && !s.record && s.l == [] && s.local == [] && s.tape == s.plain && s.cut == None && s.bare == []
    && s.flush == None && s.closing == Open && Alone(s) && s.log == [] && s.exact && s.cuts == 0
    && !s.error && !s.lost && !s.silent
  }

  lemma MoveKept(s: FileState, e: Step, c: nat)
    requires Inv(s, c) && Enabled(s, e)
    ensures AllKept(Move(s, e, c), c)
  {
    MoveCore(s, e, c);
    MoveReads(s, e, c);
    if Move(s, e, c).exact {
      MoveKeeps(s, e, c);
    }
  }

  /** It does not depend on what is silent. */
  lemma Hushed(u: FileState, silent: bool, c: nat)
    requires AllKept(u, c)
    ensures AllKept(u.(silent := silent), c)
  {
  }

  lemma NextInv(s: FileState, e: Step, c: nat)
    requires Inv(s, c) && Enabled(s, e)
    ensures Inv(Next(s, e, c), c)
  {
    MoveKept(s, e, c);
    Hushed(Move(s, e, c), Next(s, e, c).silent, c);
    NextTold(s, e, c);
  }

  lemma InitInv(s: FileState, c: nat)
    requires Init(s, c)
    ensures Inv(s, c)
  {
    assert s.l + s.local == [] && View([], s.tape) == s.tape;
  }

  /** `s` becomes `u` by the steps `es`, each enabled when it is taken. */
  ghost predicate Runs(s: FileState, es: seq<Step>, u: FileState, c: nat)
    decreases |es|
  {
    if es == [] then s == u
    else Sized(s.l, c) && 1 <= c && Enabled(s, es[0]) && Runs(Next(s, es[0], c), es[1..], u, c)
  }

  lemma {:induction false} RunInv(s: FileState, es: seq<Step>, u: FileState, c: nat)
    requires Inv(s, c) && Runs(s, es, u, c)
    ensures Inv(u, c)
    decreases |es|
  {
    if es != [] {
      NextInv(s, es[0], c);
      RunInv(Next(s, es[0], c), es[1..], u, c);
    }
  }

  /**
   However the threads interleave: as long as every write is clean and no truncation is overtaken by a new
   record, every read that found a record gave the bytes the file had when it took effect, at the moment
   it got the io lock or, served from requests alone, when it let go of the file lock; and a read that
   found none gave the bytes the file had then unless the tape has changed since. Later writes
   and truncations take nothing from reads that returned.
   */
  lemma InterleavedReadsSeeTheFile(s: FileState, es: seq<Step>, u: FileState, c: nat)
    requires Init(s, c) && Runs(s, es, u, c)
    ensures forall k :: 0 <= k < |u.log| && u.log[k].sure ==> u.log[k].got == u.log[k].due
    ensures u.exact ==> forall k :: 0 <= k < |u.log| && !u.log[k].bare ==> u.log[k].got == u.log[k].due
    ensures u.exact && u.cut == None ==> View(u.l + u.local, u.tape) == u.plain && SizeHeld(u)
  {
    InitInv(s, c);
    RunInv(s, es, u, c);
    forall k | 0 <= k < |u.log| ensures u.log[k].sure ==> u.log[k].got == u.log[k].due {
      assert ReturnedOk(u.log[k]);
    }
  }

  /** A failed index-partition write that gives up nothing but what is on tape loses nothing. */
  lemma GivesUpNothing(l: seq<Request>, tape: seq<byte>, f: Failure, c: nat)
    requires WellFormed(l, c) && IPAgree(l, tape) && !GivesUp(l, f)
    ensures View(AfterIndexFailure(l, f), tape) == View(l, tape)
  {
    if f.cause == NoSpace && !f.otherReadonly {
      FullIndexLosesNothing(l, tape, c);
    } else {
      FailedWriteShowsTape(l, tape, true, IndexCode(f), f.otherReadonly);
      OnTapeView(l, tape);
    }
  }

  lemma IndexNoted(s: FileState, e: Step, c: nat)
    requires Inv(s, c) && s.exact && Enabled(s, e) && e.IndexFails?
    ensures Change(s, e, c).plain != s.plain ==> Change(s, e, c).lost
  {
    if !GivesUp(s.l, e.e) {
      GivesUpNothing(s.l, s.tape, e.e, c);
      assert s.l + s.local == s.l;
    }
  }

  lemma SweepNoted(s: FileState, e: Step, c: nat)
    requires Sized(s.l, c) && 1 <= c && Enabled(s, e) && (e.FlushOne? || e.SweepOne? || e.WriteDetached?)
    ensures Drain(s, e, c).plain == s.plain
  {
  }

  lemma FailNoted(s: FileState, e: Step, c: nat)
    requires Sized(s.l, c) && 1 <= c && Enabled(s, e) && (e.SweepFails? || e.WriteFails? || e.Repair?)
    ensures Drain(s, e, c).plain == s.plain || Drain(s, e, c).lost
  {
  }

  lemma OthersNoted(s: FileState, e: Step)
    requires Enabled(s, e)
    ensures LockStep(e) ==> MoveLocks(s, e).plain == s.plain
    ensures e.CutTape? || e.BeginBareCut? ==> CutFile(s, e).plain == s.plain
  {
  }

  /**
   Only users change the file: whenever another step does, requests were given up and that is noted, or the
   flush that gives them up returns the error itself.
   */
  lemma LossIsNoted(s: FileState, e: Step, c: nat)
    requires Inv(s, c) && s.exact && Enabled(s, e) && !e.Write? && !e.CutList? && !e.BareCut?
    ensures Next(s, e, c).plain != s.plain ==> e.FlushFails? || Next(s, e, c).lost
  {
    if ReadStep(e) {
      IsReadStep(s, e, c);
      if e.PlanRead? {
        PlanSame(s, e);
      } else {
        ReadSame(s, e);
      }
    } else if DrainStep(e) {
      IsDrainStep(s, e, c);
      if e.FlushOne? || e.SweepOne? || e.WriteDetached? {
        SweepNoted(s, e, c);
      } else if !e.FlushFails? {
        FailNoted(s, e, c);
      }
    } else if ChangeStep(e) {
      IsChange(s, e, c);
      if e.IndexFails? {
        IndexNoted(s, e, c);
      }
    } else {
      OthersNoted(s, e);
      if LockStep(e) {
        IsLockStep(s, e, c);
      } else {
        IsCutStep(s, e, c);
      }
    }
  }

  /** Some step of the run swallows an error. */
  ghost predicate Swallowed(s: FileState, es: seq<Step>, c: nat)
    decreases |es|
  {
    && es != [] && Sized(s.l, c) && 1 <= c && Enabled(s, es[0])
    && (Swallows(s, es[0]) || Swallowed(Next(s, es[0], c), es[1..], c))
  }

  lemma {:induction false} RunSilent(s: FileState, es: seq<Step>, u: FileState, c: nat)
    requires Inv(s, c) && Runs(s, es, u, c)
    ensures u.silent <==> s.silent || Swallowed(s, es, c)
    decreases |es|
  {
    if es != [] {
      NextInv(s, es[0], c);
      NextTold(s, es[0], c);
      RunSilent(Next(s, es[0], c), es[1..], u, c);
    }
  }

  /**
   Over every run, whatever is written and whatever fails: when requests were given up and no caller has
   heard of it since, the next write, flush or close will, or the background thread is about to see to
   that, or the loss is silent; and it is silent exactly if a step of the run swallowed the error.
   */
  lemma LossIsReported(s: FileState, es: seq<Step>, u: FileState, c: nat)
    requires Init(s, c) && Runs(s, es, u, c)
    ensures u.lost ==> (u.error && u.record) || Recovering(u) || u.silent
    ensures u.silent <==> Swallowed(s, es, c)
  {
    InitInv(s, c);
    RunInv(s, es, u, c);
    RunSilent(s, es, u, c);
  }

  /** A step that carries on what some thread has begun. */
  predicate Continues(e: Step) {
    || ReadStep(e) || e.CutTape? || e.FlushOne? || e.EndFlush? || e.LockToFlush? || e.EndClose? || e.BeginSweep?
    || e.SweepOne? || e.EndSweep? || e.WriteDetached? || e.Repair? || e.Done?
  }

  /** Who holds the io lock can carry on. */
  lemma TapeGoesOn(s: FileState, c: nat)
    requires Core(s, c) && s.io != Free
    ensures exists e: Step :: Enabled(s, e) && Continues(e)
  {
    if s.io == Background {
      var e := if s.background.Sweeping? then (if s.background.i < |s.l| then SweepOne else EndSweep)
               else if s.local != [] then WriteDetached else Done;
      assert Enabled(s, e) && Continues(e);
    } else if s.io.Reader? {
      var t := s.io.t;
      var e := if s.readers[t].todo != [] then ReadPiece(t) else EndRead(t);
      assert Enabled(s, e) && Continues(e);
    } else {
      var e := if s.flush.value < |s.l| then FlushOne else EndFlush;
      assert Enabled(s, e) && Continues(e);
    }
  }

  /** The threads never block each other for good: while a lock is held, some thread can carry on. */
  lemma NoDeadlock(s: FileState, c: nat)
    requires Core(s, c) && (s.file != Free || s.io != Free)
    ensures exists e: Step :: Enabled(s, e) && Continues(e)
  {
    if s.io != Free {
      TapeGoesOn(s, c);
    } else if s.file == Background {
      var e := if s.background.Locked? then BeginSweep else Repair;
      assert Enabled(s, e) && Continues(e);
    } else if s.file == Truncater {
      assert Enabled(s, CutTape) && Continues(CutTape);
    } else if s.file == Closer {
      var e := if s.closing == Waiting then LockToFlush else EndClose(s.l == []);
      assert Enabled(s, e) && Continues(e);
    } else {
      var t := s.file.t;
      var e := if s.readers[t].Planning? then PlanRead(t) else LockTape(t);
      assert Enabled(s, e) && Continues(e);
    }
  }
}
