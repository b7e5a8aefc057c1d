/**
 What every step of the threads keeps, whatever is written and whatever fails: each lock is held by the
 one thread whose state says so, and nothing is left behind when a record is given back.
 */
module ThreadLocks {
  import opened Bytes
  import opened Requests
  import opened UnifiedWrite
  import opened UnifiedRead
  import opened UnifiedDrain
  import opened UnifiedSweep
  import opened WriteErrors
  import opened FileRun
  import opened Threads

  /** Each lock is held by the one thread whose state says so. */
  ghost predicate LocksHeld(s: FileState) {
    && (s.file == Background <==> s.background.Locked? || s.background.Sweeping? || s.background.Repairing?)
    && (s.io == Background <==> s.background.Sweeping? || s.background == Writing)
    && (s.file == Truncater <==> s.cut.Some?) && s.io != Truncater
    && (s.file == Closer <==> s.closing != Open) && (s.io == Closer <==> s.closing == Flushing)
    && (s.file == Flusher <==> s.io == Flusher) && (s.flush.Some? <==> s.io == Flusher || s.io == Closer)
    && (forall t :: t in s.readers ==> ReaderHolds(s, t))
    && (s.file.Reader? ==> s.file.t in s.readers && (s.readers[s.file.t].Planning? || s.readers[s.file.t].Planned?))
    && (s.io.Reader? ==> s.io.t in s.readers && s.readers[s.io.t].AtTape?)
  }

  ghost predicate ReaderHolds(s: FileState, t: nat)
    requires t in s.readers
  {
    match s.readers[t]
    case Planning(_, _) => s.file == Reader(t)
    case Planned(_, _, _) => s.file == Reader(t)
    case AtTape(_, _, _, _, _, _, _, _) => s.io == Reader(t)
    case Bare(_, _, _, _, _) => true
  }

  /** Without a record nothing is queued, no error is kept, and nobody is at the lock in it. */
  ghost predicate RecordHeld(s: FileState) {
    !s.record ==>
      && s.l == [] && !s.error && s.io == Free && s.cut == None && s.closing == Open && !s.background.Locked?
      && (s.file.Reader? && s.file.t in s.readers ==> !s.readers[s.file.t].Planned?)
  }

  /** What every step keeps, whatever is written and whatever fails. */
  ghost predicate Core(s: FileState, c: nat) {
    && LocksHeld(s) && RecordHeld(s) && 1 <= c && Sized(s.l, c)
    && (s.background.Sweeping? ==> s.background.i <= |s.l|) && (s.flush.Some? ==> s.flush.value <= |s.l|)
    && (s.local != [] ==> s.background.Sweeping? || s.background == Writing)
    && (s.background.Sweeping? && s.writeIp ==> s.local == [])
    && (s.closing != Open ==> !s.error)
  }

  lemma KeptSized(l: seq<Request>, clearDp: bool, clearIp: bool, c: nat)
    requires Sized(l, c)
    ensures Sized(Kept(l, clearDp, clearIp), c)
  {
    var m := Kept(l, clearDp, clearIp);
    forall j | 0 <= j < |m| ensures m[j] in l {
      KeptMember(l, clearDp, clearIp, m[j]);
    }
  }

  lemma PlacedSized(l: seq<Request>, was: bool, now: bool, c: nat)
    requires Sized(l, c)
    ensures Sized(Placed(l, was, now), c)
  {
    DropIPSized(l, c);
  }

  lemma IsLockStep(s: FileState, e: Step, c: nat)
    requires Sized(s.l, c) && 1 <= c && Enabled(s, e) && LockStep(e)
    ensures Move(s, e, c) == MoveLocks(s, e)
  {
  }

  lemma IsCutStep(s: FileState, e: Step, c: nat)
    requires Sized(s.l, c) && 1 <= c && Enabled(s, e) && CutStep(e)
    ensures Move(s, e, c) == CutFile(s, e)
  {
  }

  lemma IsDrainStep(s: FileState, e: Step, c: nat)
    requires Sized(s.l, c) && 1 <= c && Enabled(s, e) && DrainStep(e)
    ensures Move(s, e, c) == Drain(s, e, c)
  {
  }

  lemma IsReadStep(s: FileState, e: Step, c: nat)
    requires Sized(s.l, c) && 1 <= c && Enabled(s, e) && ReadStep(e)
    ensures Move(s, e, c) == ReadOn(s, e)
  {
  }

  lemma IsChange(s: FileState, e: Step, c: nat)
    requires Sized(s.l, c) && 1 <= c && Enabled(s, e) && ChangeStep(e)
    ensures Move(s, e, c) == Change(s, e, c)
  {
  }

  lemma LockCore(s: FileState, e: Step, c: nat)
    requires Core(s, c) && Enabled(s, e) && LockStep(e)
    ensures Core(Move(s, e, c), c)
  {
    IsLockStep(s, e, c);
    if e.NewRecord? || e.BeginFlush? || e.EndFlush? || e.BeginRead? || e.ReportError? {
      UserLocks(s, e, c);
    } else if e.BeginClose? || e.LockToFlush? || e.EndClose? {
      CloseLocks(s, e, c);
    } else {
      BackgroundLocks(s, e, c);
    }
  }

  lemma UserLocks(s: FileState, e: Step, c: nat)
    requires Core(s, c) && Enabled(s, e)
    requires (e.NewRecord? || e.BeginFlush? || e.EndFlush? || e.BeginRead? || e.ReportError?)
    ensures Core(MoveLocks(s, e), c)
  {
  }

  lemma CloseLocks(s: FileState, e: Step, c: nat)
    requires Core(s, c) && Enabled(s, e) && (e.BeginClose? || e.LockToFlush? || e.EndClose?)
    ensures Core(MoveLocks(s, e), c)
  {
  }

  lemma BackgroundLocks(s: FileState, e: Step, c: nat)
    requires Core(s, c) && Enabled(s, e)
    requires e.Take? || e.BeginSweep? || e.EndSweep? || e.TakeAgain? || e.Done?
    ensures Core(MoveLocks(s, e), c)
  {
  }

  lemma CutCore(s: FileState, e: Step, c: nat)
    requires Core(s, c) && Enabled(s, e) && CutStep(e)
    ensures Core(Move(s, e, c), c)
  {
    IsCutStep(s, e, c);
    if e.CutList? {
      CutListCore(s, e, c);
    } else if e.CutTape? {
      CutTapeCore(s, e, c);
    } else {
      BareCutCore(s, e, c);
    }
  }

  lemma CutListCore(s: FileState, e: Step, c: nat)
    requires Core(s, c) && Enabled(s, e) && e.CutList?
    ensures Core(CutFile(s, e), c)
  {
    TrimSized(s.l, e.n, c);
    PlacedSized(Truncated(s.l, s.size, e.n), s.writeIp, e.writeIp, c);
  }

  lemma CutTapeCore(s: FileState, e: Step, c: nat)
    requires Core(s, c) && Enabled(s, e) && e.CutTape?
    ensures Core(CutFile(s, e), c)
  {
  }

  /** Nothing but the tape and what is noted about it is different. */
  lemma TapeOnlyCore(s: FileState, u: FileState, c: nat)
    requires Core(s, c)
    requires u == s.(bare := u.bare, tape := u.tape, plain := u.plain, exact := u.exact, cuts := u.cuts)
    ensures Core(u, c)
  {
    assert LocksHeld(u) by {
      forall t | t in u.readers ensures ReaderHolds(u, t) {
        assert ReaderHolds(s, t);
      }
    }
    assert RecordHeld(u);
  }

  lemma BareCutCore(s: FileState, e: Step, c: nat)
    requires Core(s, c) && Enabled(s, e) && (e.BeginBareCut? || e.BareCut?)
    ensures Core(CutFile(s, e), c)
  {
    var u := CutFile(s, e);
    assert u == s.(bare := u.bare, tape := u.tape, plain := u.plain, exact := u.exact, cuts := u.cuts);
    TapeOnlyCore(s, u, c);
  }

  lemma SweepCore(s: FileState, e: Step, c: nat)
    requires Core(s, c) && Enabled(s, e) && (e.FlushOne? || e.SweepOne?)
    ensures Core(Drain(s, e, c), c)
  {
    if e.FlushOne? {
      SweepByTurns(Midway(s.l, s.flush.value, s.tape, []), true, s.writeIp, c);
    } else {
      SweepByTurns(Midway(s.l, s.background.i, s.tape, s.local), s.background.all, s.writeIp, c);
    }
  }

  lemma FlushFailsCore(s: FileState, e: Step, c: nat)
    requires Core(s, c) && Enabled(s, e) && e.FlushFails?
    ensures Core(Drain(s, e, c), c)
  {
    KeptSized(s.l, true, ClearsIp(false, WriteCode(e.e), e.e.otherReadonly), c);
  }

  lemma SpareCore(s: FileState, e: Step, c: nat)
    requires Core(s, c) && Enabled(s, e) && (e.SweepFails? || e.Repair?)
    ensures Core(Drain(s, e, c), c)
  {
    var f := if e.SweepFails? then e.e else s.background.e;
    KeptSized(s.l, true, ClearsIp(false, WriteCode(f), f.otherReadonly), c);
  }

  lemma DetachedCore(s: FileState, e: Step, c: nat)
    requires Core(s, c) && Enabled(s, e) && (e.WriteDetached? || e.WriteFails?)
    ensures Core(Drain(s, e, c), c)
  {
  }

  lemma DrainCore(s: FileState, e: Step, c: nat)
    requires Core(s, c) && Enabled(s, e) && DrainStep(e)
    ensures Core(Move(s, e, c), c)
  {
    IsDrainStep(s, e, c);
    if e.FlushOne? || e.SweepOne? {
      SweepCore(s, e, c);
    } else if e.WriteDetached? || e.WriteFails? {
      DetachedCore(s, e, c);
    } else if e.FlushFails? {
      FlushFailsCore(s, e, c);
    } else {
      SpareCore(s, e, c);
    }
  }

  /** Only one reader and the locks it holds change. */
  ghost predicate ReaderMoves(s: FileState, u: FileState, t: nat) {
    && u == s.(readers := u.readers, file := u.file, io := u.io, log := u.log)
    && (forall k :: k in u.readers && k != t ==> k in s.readers && u.readers[k] == s.readers[k])
    && (forall k :: k in s.readers && k != t ==> k in u.readers)
  }

  /** A reader takes the io lock before it lets go of the file lock. */
  lemma ReaderLocks(s: FileState, u: FileState, t: nat, c: nat)
    requires Core(s, c) && t in s.readers && ReaderMoves(s, u, t)
    requires
      if t in u.readers && u.readers[t].AtTape? then
        if s.readers[t].AtTape? then u.io == s.io && u.file == s.file
        else s.readers[t].Planned? && s.io == Free && u.io == Reader(t) && u.file == Free
      else if t in u.readers && !u.readers[t].Bare? then
        u.readers[t].Planned? && s.readers[t].Planning? && s.record && u.file == s.file && u.io == s.io
      else
        && u.file == (if s.readers[t].Planning? then Free else s.file)
        && u.io == (if s.readers[t].AtTape? then Free else s.io)
        && !s.readers[t].Planned?
    ensures Core(u, c)
  {
    assert ReaderHolds(s, t);
    forall k | k in u.readers ensures ReaderHolds(u, k) {
      if k != t {
        assert ReaderHolds(s, k);
      }
    }
  }

  lemma WaitingCore(s: FileState, t: nat, p: Plan, o: nat, n: nat, c: nat)
    requires Core(s, c) && s.record && t in s.readers && s.readers[t].Planning?
    ensures Core(s.(readers := s.readers[t := Planned(p, o, n)]), c)
  {
    ReaderLocks(s, s.(readers := s.readers[t := Planned(p, o, n)]), t, c);
  }

  lemma ServedCore(s: FileState, t: nat, r: Returned, c: nat)
    requires Core(s, c) && t in s.readers && s.readers[t].Planning?
    ensures Core(Served(s.(file := Free), t, r), c)
  {
    ReaderLocks(s, Served(s.(file := Free), t, r), t, c);
  }

  lemma PlanOnCore(s: FileState, t: nat, p: Plan, o: nat, n: nat, c: nat)
    requires Core(s, c) && s.record && t in s.readers && s.readers[t].Planning?
    ensures Core(PlanOn(s, t, p, o, n), c)
  {
    if NeedsTape(p) {
      WaitingCore(s, t, p, o, n, c);
    } else {
      ServedCore(s, t, Returned(Fill(p.pieces, [], false), Slice(s.plain, o, n), false, s.exact), c);
    }
  }

  lemma PlanCore(s: FileState, e: Step, c: nat)
    requires Core(s, c) && Enabled(s, e) && e.PlanRead?
    ensures Core(ReadOn(s, e), c)
  {
    var Planning(o, n) := s.readers[e.t];
    if s.record {
      PlanOnCore(s, e.t, MakePlan(s.l, o, n), o, n, c);
    } else {
      ReaderLocks(s, ReadOn(s, e), e.t, c);
    }
  }

  lemma TapeCore(s: FileState, e: Step, c: nat)
    requires Core(s, c) && Enabled(s, e) && (e.LockTape? || e.ReadPiece?)
    ensures Core(ReadOn(s, e), c)
  {
    ReaderLocks(s, ReadOn(s, e), e.t, c);
  }

  lemma ReadEndsCore(s: FileState, e: Step, c: nat)
    requires Core(s, c) && Enabled(s, e) && (e.EndRead? || e.ReadBare?)
    ensures Core(ReadOn(s, e), c)
  {
    ReaderLocks(s, ReadOn(s, e), e.t, c);
  }

  lemma ReadCore(s: FileState, e: Step, c: nat)
    requires Core(s, c) && Enabled(s, e) && ReadStep(e)
    ensures Core(Move(s, e, c), c)
  {
    IsReadStep(s, e, c);
    if e.PlanRead? {
      PlanCore(s, e, c);
    } else if e.LockTape? || e.ReadPiece? {
      TapeCore(s, e, c);
    } else {
      ReadEndsCore(s, e, c);
    }
  }

  /** A step under the file lock that lets go of it again, and changes the list alone. */
  lemma ListCore(s: FileState, u: FileState, c: nat)
    requires Core(s, c) && s.file == Free && s.record && Sized(u.l, c)
    requires u == s.(l := u.l, size := u.size, writeIp := u.writeIp, plain := u.plain, exact := u.exact)
    ensures Core(u, c)
  {
  }

  lemma WriteCore(s: FileState, e: Step, c: nat)
    requires Core(s, c) && Enabled(s, e) && (e.Write? || e.Place?)
    ensures Core(Change(s, e, c), c)
  {
    if e.Write? {
      PlacedSized(s.l, s.writeIp, s.writeIp && !e.unset, c);
      AttemptSized(Found(s, e.unset), e.o, e.d, c, e.blocks);
    } else {
      PlacedSized(s.l, s.writeIp, e.writeIp, c);
    }
    ListCore(s, Change(s, e, c), c);
  }

  lemma IndexPassCore(s: FileState, c: nat)
    requires Core(s, c) && Enabled(s, IndexPass)
    ensures Core(Change(s, IndexPass, c), c)
  {
    DropIPSized(s.l, c);
  }

  lemma IndexFailsCore(s: FileState, e: Step, c: nat)
    requires Core(s, c) && Enabled(s, e) && e.IndexFails?
    ensures Core(Change(s, e, c), c)
  {
    var code := IndexCode(e.e);
    KeptSized(s.l, ClearsDp(true, code, e.e.otherReadonly), ClearsIp(true, code, e.e.otherReadonly), c);
  }

  lemma ChangeCore(s: FileState, e: Step, c: nat)
    requires Core(s, c) && Enabled(s, e) && ChangeStep(e)
    ensures Core(Move(s, e, c), c)
  {
    IsChange(s, e, c);
    if e.Write? || e.Place? {
      WriteCore(s, e, c);
    } else if e.IndexPass? {
      IndexPassCore(s, c);
    } else {
      IndexFailsCore(s, e, c);
    }
  }

  lemma MoveCore(s: FileState, e: Step, c: nat)
    requires Core(s, c) && Enabled(s, e)
    ensures Core(Move(s, e, c), c)
  {
    if ReadStep(e) {
      ReadCore(s, e, c);
    } else if DrainStep(e) {
      DrainCore(s, e, c);
    } else if LockStep(e) {
      LockCore(s, e, c);
    } else if CutStep(e) {
      CutCore(s, e, c);
    } else {
      ChangeCore(s, e, c);
    }
  }
}
