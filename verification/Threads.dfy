/**
 The threads that share one file, step by step (src/iosched/unified.c), whether the file is placed on
 the index partition or not, whether its list is in order or not, whether the scheduler has a record of
 it or not, and whether tape writes succeed or not.

 Two locks protect the file: `file` (the dentry's iosched_lock) covers the record and its request list,
 `io` (the io_lock in the record) covers the tape. Both are taken in that order. The background pass
 detaches requests under both, lets go of the file lock, and writes the detached requests to tape under
 the io lock alone; a read plans under the file lock and takes the io lock before letting go of it. A
 flush and the index-partition pass hold the scheduler's own lock for writing, so they meet no other
 thread. A close holds that lock for reading only: it meets the background thread between the detaching
 and the writing, and may give the record back while the background thread waits to keep an error in it.

 Where there is no record there is no io lock: a read then reads tape without it, still under the
 scheduler's lock for reading; a truncation cuts the tape under no lock of the scheduler at all.
 */
module Threads {
  import opened Bytes
  import opened Requests
  import opened UnifiedWrite
  import opened UnifiedRead
  import opened UnifiedDrain
  import opened UnifiedSweep
  import opened WriteErrors
  import opened FileRun

  datatype Owner = Free | Background | Truncater | Flusher | Closer | Reader(t: nat)

  /**
   The background thread: idle; holding the file lock; going over the list under both locks; writing
   what it detached under the io lock; or, after a failed write, waiting for the file lock and then
   for the io lock to clear the list.
   */
  datatype Background =
    | Idle
    | Locked(all: bool)
    | Sweeping(all: bool, i: nat)
    | Writing
    | Failing(e: Failure)
    | Repairing(e: Failure)

  /** A close: not begun; waiting for the io lock to flush; flushing; or about to let go of the record. */
  datatype Closing = Open | Waiting | Flushing | Freeing

  /**
   A read: planning under the file lock; planned, still under it, waiting for the io lock; reading tape
   under the io lock, with what it has read and what it has to return; or, without a record, about to
   read tape under no lock of the file, with the tape as it was. `sure` and `cuts` say whether the list was in
   order when the read took effect, and how many truncations had been overtaken by then.
   */
  datatype Reading =
    | Planning(o: nat, n: nat)
    | Planned(plan: Plan, o: nat, n: nat)
    | AtTape(todo: seq<Piece>, pastEof: bool, o: nat, n: nat, got: seq<byte>, due: seq<byte>, sure: bool, cuts: nat)
    | Bare(o: nat, n: nat, was: seq<byte>, due: seq<byte>, sure: bool)

  /**
   A read that returned: its bytes, the bytes of the file when it took effect, whether it found no record,
   and whether nothing that may come between was met: a write that was not clean, an overtaken truncation,
   or, without a record, a change of the tape.
   */
  datatype Returned = Returned(got: seq<byte>, due: seq<byte>, bare: bool, sure: bool)

  /**
   `record`, `l`, `tape`, `size`, `writeIp` and `error` are the scheduler's; `local` holds the background
   thread's detached requests, `cut` a truncation that has trimmed the list but not yet the tape, `bare`
   the truncations that found no record and have yet to cut the tape, `flush` how far a flush has come.
   `plain` is the byte-array file the users believe in: a failed tape write takes from it what did not
   reach the tape. `exact` says that every write was clean and no truncation was overtaken by a new
   record, `cuts` how many were. `lost` says that requests were given up before they reached the tape and
   no caller was told since, `silent` that this came to a state in which nothing is left to tell one.
   */
  datatype FileState = FileState(
    record: bool, l: seq<Request>, tape: seq<byte>, size: nat, writeIp: bool, error: bool, local: seq<Request>,
    cut: Option<nat>, bare: seq<nat>, flush: Option<nat>, closing: Closing, file: Owner, io: Owner,
    background: Background, readers: map<nat, Reading>, plain: seq<byte>, exact: bool, cuts: nat,
    lost: bool, silent: bool, log: seq<Returned>)

  /**
   `writeIp` of a step is the placement the policy decides on; `unset` says that a write finds the file
   too large, or the index partition full, for its placement; `frees` that a record without requests is
   given back, which the handles to the file and its extents decide.
   */
  datatype Step =
    | NewRecord(writeIp: bool)
    | Write(o: nat, d: seq<byte>, blocks: nat, unset: bool)
    | ReportError
    | Place(writeIp: bool)
    | CutList(n: nat, writeIp: bool)
    | CutTape
    | BeginBareCut(n: nat)
    | BareCut(k: nat)
    | BeginFlush
    | FlushOne
    | FlushFails(e: Failure)
    | EndFlush
    | BeginClose(flush: bool)
    | LockToFlush
    | EndClose(frees: bool)
    | Take(all: bool)
    | BeginSweep
    | SweepOne
    | SweepFails(e: Failure)
    | EndSweep
    | WriteDetached
    | WriteFails(e: Failure)
    | TakeAgain
    | Repair
    | Done
    | IndexPass
    | IndexFails(e: Failure, frees: bool)
    | BeginRead(t: nat, o: nat, n: nat)
    | PlanRead(t: nat)
    | LockTape(t: nat)
    | ReadPiece(t: nat)
    | EndRead(t: nat)
    | ReadBare(t: nat)

  predicate NeedsTape(p: Plan) {
    p.n > 0 || exists j :: 0 <= j < |p.pieces| && p.pieces[j].Hole?
  }

  /** The list after a placement decision: a file taken off the index partition loses those requests. */
  function Placed(l: seq<Request>, was: bool, now: bool): seq<Request> {
    if was && !now then DropIP(l) else l
  }

  /** Nobody else is in the scheduler. */
  predicate Alone(s: FileState) {
    s.file == Free && s.io == Free && s.background == Idle && s.readers == map[]
  }

  predicate HasIP(l: seq<Request>) {
    exists j :: 0 <= j < |l| && l[j].state == IP
  }

  /** Whether the next request of the loop is written to tape at once. */
  predicate Stores(s: FileState, i: nat, all: bool) {
    i < |s.l| && Selected(s.l[i], all) && (s.flush.Some? || s.writeIp)
  }

  /** The list a write finds after its placement decision. */
  function Found(s: FileState, unset: bool): seq<Request> {
    Placed(s.l, s.writeIp, s.writeIp && !unset)
  }

  predicate Enabled(s: FileState, e: Step) {
    match e
    case NewRecord(_) => s.file == Free && !s.record
    case Write(_, d, _, _) => s.file == Free && s.record && !s.error && d != []
    case ReportError => s.file == Free && s.error
    case Place(_) => s.file == Free && s.record
    case CutList(_, _) => s.file == Free && s.record
    case CutTape => s.cut.Some? && s.io == Free
    case BeginBareCut(_) => s.file == Free && !s.record
    case BareCut(k) => k < |s.bare|
    case BeginFlush => Alone(s) && s.record && !s.error
    case FlushOne => s.flush.Some? && s.flush.value < |s.l|
    case FlushFails(_) => s.flush.Some? && Stores(s, s.flush.value, true)
    case EndFlush => s.flush == Some(|s.l|)
    case BeginClose(_) => s.file == Free && s.record
    case LockToFlush => s.closing == Waiting && s.io == Free
    case EndClose(frees) => s.closing == Freeing && (frees ==> s.l == [] && s.io == Free)
    case Take(_) => s.background == Idle && s.file == Free && s.record
    case BeginSweep => s.background.Locked? && s.io == Free
    case SweepOne => s.background.Sweeping? && s.background.i < |s.l|
    case SweepFails(_) => s.background.Sweeping? && Stores(s, s.background.i, s.background.all)
    case EndSweep => s.background.Sweeping? && s.background.i == |s.l|
    case WriteDetached => s.background == Writing && s.local != []
    case WriteFails(_) => s.background == Writing && s.local != []
    case TakeAgain => s.background.Failing? && s.file == Free
    case Repair => s.background.Repairing? && s.io == Free
    case Done => s.background == Writing && s.local == []
    case IndexPass => Alone(s) && HasIP(s.l)
    case IndexFails(f, frees) => Alone(s) && HasIP(s.l) && (frees ==> AfterIndexFailure(s.l, f) == [])
    case BeginRead(t, o, n) => s.file == Free && t !in s.readers
    case PlanRead(t) => t in s.readers && s.readers[t].Planning?
    case LockTape(t) => t in s.readers && s.readers[t].Planned? && s.io == Free
    case ReadPiece(t) => t in s.readers && s.readers[t].AtTape? && s.readers[t].todo != []
    case EndRead(t) => t in s.readers && s.readers[t].AtTape? && s.readers[t].todo == []
    case ReadBare(t) => t in s.readers && s.readers[t].Bare?
  }

  predicate ReadStep(e: Step) {
    e.PlanRead? || e.LockTape? || e.ReadPiece? || e.EndRead? || e.ReadBare?
  }

  predicate DrainStep(e: Step) {
    || e.FlushOne? || e.FlushFails? || e.SweepOne? || e.SweepFails? || e.WriteDetached? || e.WriteFails? || e.Repair?
  }

  predicate ChangeStep(e: Step) {
    e.Write? || e.Place? || e.IndexPass? || e.IndexFails?
  }

  predicate CutStep(e: Step) {
    e.CutList? || e.CutTape? || e.BeginBareCut? || e.BareCut?
  }

  predicate LockStep(e: Step) {
    || e.NewRecord? || e.BeginFlush? || e.EndFlush? || e.BeginClose? || e.LockToFlush? || e.EndClose?
    || e.Take? || e.BeginSweep? || e.EndSweep? || e.TakeAgain? || e.Done? || e.BeginRead? || e.ReportError?
  }

  /** What reading one piece gives: its bytes, and whether the tape's end was met. */
  function Advance(r: Reading, tape: seq<byte>): Reading
    requires r.AtTape? && r.todo != []
  {
    match r.todo[0]
    case Cached(bytes) => r.(todo := r.todo[1..], got := r.got + bytes)
    case Hole(o, n) =>
      var a := if r.pastEof then [] else Slice(tape, o, n);
      r.(todo := r.todo[1..], got := r.got + a + Zeros(n - |a|), pastEof := r.pastEof || |a| < n)
  }

  /** Whether requests were given up for which the background thread has yet to keep an error. */
  predicate Recovering(s: FileState) {
    s.background.Failing? || s.background.Repairing?
  }

  /** After a failed write: the requests that stay, the size they give, and what the users are left with. */
  function GivenUp(s: FileState, l: seq<Request>): FileState {
    s.(l := l, size := Size(l, s.tape), plain := View(l, s.tape))
  }

  function SpareIP(l: seq<Request>, e: Failure): seq<Request> {
    Kept(l, true, ClearsIp(false, WriteCode(e), e.otherReadonly))
  }

  /** Whether a failed write to the index partition gives up requests that are not on tape. */
  predicate GivesUp(l: seq<Request>, e: Failure) {
    !(e.cause == NoSpace && !e.otherReadonly) && exists j :: 0 <= j < |l| && l[j].state != IP
  }

  function AfterWrite(s: FileState, o: nat, d: seq<byte>, blocks: nat, unset: bool, c: nat): FileState
    requires Sized(s.l, c) && 1 <= c
  {
    DropIPSized(s.l, c);
    var r := Attempt(Found(s, unset), o, d, c, blocks);
    var placed := d[..Max(0, |d| - |r.d|)];
    s.(l := r.l, writeIp := s.writeIp && !unset, size := if placed == [] then s.size else Max(s.size, o + |placed|),
       plain := Overlay(s.plain, o, placed), exact := s.exact && Clean(Found(s, unset), o, d, c, blocks))
  }

  /** The flush that is under way is over: that of a close goes on to the record. */
  function Flushed(s: FileState): FileState {
    if s.closing == Flushing then s.(flush := None, io := Free, closing := Freeing)
    else s.(flush := None, io := Free, file := Free)
  }

  /** The steps of a flush and of the background pass, one request at a time. */
  function Drain(s: FileState, e: Step, c: nat): FileState
    requires Sized(s.l, c) && 1 <= c && Enabled(s, e)
  {
    match e
    case FlushOne =>
      var m := SweepOnce(Midway(s.l, s.flush.value, s.tape, []), true, s.writeIp, c);
      s.(l := m.l, flush := Some(m.i), tape := WriteAll(m.local, m.tape))
    case FlushFails(f) => Flushed(GivenUp(s, SpareIP(s.l, f)))
    case SweepOne =>
      var m := SweepOnce(Midway(s.l, s.background.i, s.tape, s.local), s.background.all, s.writeIp, c);
      s.(l := m.l, tape := m.tape, local := m.local, background := Sweeping(s.background.all, m.i))
    case SweepFails(f) =>
      GivenUp(s, SpareIP(s.l, f)).(background := Idle, file := Free, io := Free, error := true, lost := true)
    case WriteDetached =>
      s.(tape := Overlay(s.tape, s.local[0].offset, s.local[0].data), local := s.local[1..])
    case WriteFails(f) =>
      var left := View(s.l, s.tape);
      s.(local := [], background := Failing(f), io := Free, lost := true,
         plain := if s.cut.Some? then Resize(left, s.cut.value) else left)
    case Repair =>
      if s.record then
        GivenUp(s, SpareIP(s.l, s.background.e)).(background := Idle, file := Free, error := true, lost := true)
      else s.(background := Idle, file := Free)
    case _ => s
  }

  function Served(s: FileState, t: nat, r: Returned): FileState {
    s.(readers := s.readers - {t}, log := s.log + [r])
  }

  /** A read that is planned waits for the io lock, unless requests hold all of it. */
  function PlanOn(s: FileState, t: nat, p: Plan, o: nat, n: nat): FileState {
    if NeedsTape(p) then s.(readers := s.readers[t := Planned(p, o, n)])
    else Served(s.(file := Free), t, Returned(Fill(p.pieces, [], false), Slice(s.plain, o, n), false, s.exact))
  }

  /** The steps of a read that has begun. */
  function ReadOn(s: FileState, e: Step): FileState
    requires Enabled(s, e)
  {
    match e
    case PlanRead(t) =>
      var Planning(o, n) := s.readers[t];
      if s.record then PlanOn(s, t, MakePlan(s.l, o, n), o, n)
      else
        s.(readers := s.readers[t := Bare(o, n, s.tape, Slice(s.plain, o, n), s.exact)], file := Free)
    case LockTape(t) =>
      var Planned(p, o, n) := s.readers[t];
      s.(readers := s.readers[t := AtTape(p.pieces, false, p.o, p.n, [], Slice(s.plain, o, n), s.exact, s.cuts)],
         io := Reader(t), file := Free)
    case ReadPiece(t) => s.(readers := s.readers[t := Advance(s.readers[t], s.tape)])
    case EndRead(t) =>
      var r := s.readers[t];
      Served(s, t, Returned(r.got + Slice(s.tape, r.o, r.n), r.due, false, r.sure && r.cuts == s.cuts)).(io := Free)
    case ReadBare(t) =>
      var r := s.readers[t];
      Served(s, t, Returned(Slice(s.tape, r.o, r.n), r.due, true, r.sure && r.was == s.tape))
    case _ => s
  }

  /** The steps that take a lock or let go of one. */
  function MoveLocks(s: FileState, e: Step): FileState
    requires Enabled(s, e)
  {
    match e
    case NewRecord(now) => s.(record := true, size := |s.tape|, writeIp := now)
    case ReportError => s.(error := false, lost := Recovering(s))
    case BeginFlush => s.(flush := Some(0), file := Flusher, io := Flusher)
    case EndFlush => Flushed(s)
    case BeginClose(flush) =>
      s.(error := false, lost := if s.error then Recovering(s) else s.lost, file := Closer,
         closing := if flush && !s.error && s.l != [] then Waiting else Freeing)
    case LockToFlush => s.(flush := Some(0), closing := Flushing, io := Closer)
    case EndClose(frees) => s.(record := !frees, closing := Open, file := Free)
    case Take(all) => s.(background := Locked(all), file := Background)
    case BeginSweep => s.(background := Sweeping(s.background.all, 0), io := Background)
    case EndSweep => s.(background := Writing, file := Free)
    case TakeAgain => s.(background := Repairing(s.background.e), file := Background)
    case Done => s.(background := Idle, io := Free)
    case BeginRead(t, o, n) => s.(readers := s.readers[t := Planning(o, n)], file := Reader(t))
    case _ => s
  }

  /** The two halves of a truncation, with a record and without. */
  function CutFile(s: FileState, e: Step): FileState
    requires Enabled(s, e)
  {
    match e
    case CutList(n, now) =>
      s.(l := Placed(Truncated(s.l, s.size, n), s.writeIp, now), writeIp := now, size := n, cut := Some(n),
         file := Truncater, plain := Resize(s.plain, n))
    case CutTape => s.(tape := Resize(s.tape, s.cut.value), cut := None, file := Free)
    case BeginBareCut(n) => s.(bare := s.bare + [n])
    case BareCut(k) =>
      var n := s.bare[k];
      var u := s.(bare := s.bare[..k] + s.bare[k + 1..], tape := Resize(s.tape, n), plain := Resize(s.plain, n));
      if s.record then u.(exact := false, cuts := s.cuts + 1) else u
    case _ => s
  }

  /** The steps that change the list alone, and the index-partition pass. */
  function Change(s: FileState, e: Step, c: nat): FileState
    requires Sized(s.l, c) && 1 <= c && Enabled(s, e)
  {
    match e
    case Write(o, d, blocks, unset) => AfterWrite(s, o, d, blocks, unset, c)
    case Place(now) => s.(l := Placed(s.l, s.writeIp, now), writeIp := now)
    case IndexPass => s.(l := DropIP(s.l))
    case IndexFails(f, frees) =>
      GivenUp(s, AfterIndexFailure(s.l, f)).(
        record := !frees, error := !frees && (s.error || KeepsError(true, IndexCode(f))),
        lost := s.lost || GivesUp(s.l, f))
    case _ => s
  }

  function Move(s: FileState, e: Step, c: nat): FileState
    requires Sized(s.l, c) && 1 <= c && Enabled(s, e)
  {
    if ReadStep(e) then ReadOn(s, e)
    else if DrainStep(e) then Drain(s, e, c)
    else if LockStep(e) then MoveLocks(s, e)
    else if CutStep(e) then CutFile(s, e)
    else Change(s, e, c)
  }

  /** One step; with it a loss becomes silent if no error is kept and none will be. */
  function Next(s: FileState, e: Step, c: nat): FileState
    requires Sized(s.l, c) && 1 <= c && Enabled(s, e)
  {
    var u := Move(s, e, c);
    u.(silent := s.silent || (u.lost && !u.error && !Recovering(u)))
  }
}
