/**
 Three runs of the threads in which a caller gets less than it was promised, with what tells each from
 the runs that keep the promise.
 */
module ProtocolRuns {
  import opened Bytes
  import opened Requests
  import opened RequestOps
  import opened WriteWalk
  import opened UnifiedWrite
  import opened UnifiedRead
  import opened UnifiedSweep
  import opened WriteErrors
  import opened FileRun
  import opened Threads
  import opened ThreadLocks
  import opened ThreadFile
  import opened Protocol

  /** A file that nobody is using, with these bytes on tape. */
  function Fresh(tape: seq<byte>): FileState {
    FileState(false, [], tape, 0, false, false, [], None, [], None, Open, Free, Free, Idle, map[], tape, true, 0,
              false, false, [])
  }

  lemma FreshInit(tape: seq<byte>)
    ensures Init(Fresh(tape), 1)
  {
  }

  /** The step `e` can be taken in `u`, and leads to `v`. */
  ghost predicate Leads(u: FileState, e: Step, v: FileState, c: nat) {
    Sized(u.l, c) && 1 <= c && Enabled(u, e) && v == Next(u, e, c)
  }

  lemma RunCons(s: FileState, e: Step, v: FileState, es: seq<Step>, u: FileState, c: nat)
    requires Leads(s, e, v, c) && Runs(v, es, u, c)
    ensures Runs(s, [e] + es, u, c)
  {
    assert ([e] + es)[0] == e && ([e] + es)[1..] == es;
  }

  lemma RunHead(s: FileState, es: seq<Step>, u: FileState, c: nat) returns (w: FileState)
    requires Runs(s, es, u, c) && es != []
    ensures Leads(s, es[0], w, c) && Runs(w, es[1..], u, c)
  {
    w := Next(s, es[0], c);
  }

  lemma RunOne(s: FileState, e: Step, v: FileState, c: nat)
    requires Leads(s, e, v, c)
    ensures Runs(s, [e], v, c)
  {
    assert [e][1..] == [];
  }

  lemma {:induction false} RunSnoc(s: FileState, es: seq<Step>, u: FileState, e: Step, v: FileState, c: nat)
    requires Runs(s, es, u, c) && Leads(u, e, v, c)
    ensures Runs(s, es + [e], v, c)
    decreases |es|
  {
    if es == [] {
      RunOne(s, e, v, c);
      assert es + [e] == [e];
    } else {
      var w := RunHead(s, es, u, c);
      RunSnoc(w, es[1..], u, e, v, c);
      RunCons(s, es[0], w, es[1..] + [e], v, c);
      assert es + [e] == [es[0]] + (es[1..] + [e]);
    }
  }

  /** A state that some run comes to, with blocks of one byte. */
  ghost predicate Reachable(u: FileState) {
    exists s: FileState, es: seq<Step> :: Init(s, 1) && Runs(s, es, u, 1)
  }

  lemma LocksLead(u: FileState, e: Step, v: FileState, c: nat)
    requires Sized(u.l, c) && 1 <= c && Enabled(u, e) && LockStep(e)
    requires v == MoveLocks(u, e).(silent := u.silent || (v.lost && !v.error && !Recovering(v)))
    ensures Leads(u, e, v, c)
  {
    IsLockStep(u, e, c);
  }

  lemma CutLeads(u: FileState, e: Step, v: FileState, c: nat)
    requires Sized(u.l, c) && 1 <= c && Enabled(u, e) && CutStep(e)
    requires v == CutFile(u, e).(silent := u.silent || (v.lost && !v.error && !Recovering(v)))
    ensures Leads(u, e, v, c)
  {
    IsCutStep(u, e, c);
  }

  lemma Begin(tape: seq<byte>)
    ensures Reachable(Fresh(tape))
  {
    FreshInit(tape);
    assert Runs(Fresh(tape), [], Fresh(tape), 1);
  }

  lemma GoOn(u: FileState, e: Step, v: FileState)
    requires Reachable(u) && Leads(u, e, v, 1)
    ensures Reachable(v)
  {
    var s: FileState, es: seq<Step> :| Init(s, 1) && Runs(s, es, u, 1);
    RunSnoc(s, es, u, e, v, 1);
  }

  /** A byte written to a file without queued requests, with blocks of one byte. */
  lemma OneByte(s: FileState, o: nat, b: byte)
    requires s.l == [] && !s.writeIp && s.exact
    ensures AfterWrite(s, o, [b], 1, false, 1)
         == s.(l := [Request(o, [b], DP)], size := Max(s.size, o + 1), plain := Overlay(s.plain, o, [b]))
  {
    var r := Attempt([], o, [b], 1, 1);
    assert Grown([], o, [b], 1) == 0 && [b][0..] == [b];
    assert r == InsertEnd([], o, [b], 1, 1);
    assert NewRequest(o, [b], 1) == Request(o, [b], DP);
    assert r.l == [] + [Request(o, [b], DP)] && r.d == [];
    assert [b][..1] == [b];
    assert CleanAppend([], o, [b], 1) && Clean([], o, [b], 1, 1);
  }

  // ---- A loss that no caller hears of ----

  /** A record was made. */
  function Recorded(): FileState {
    Fresh([]).(record := true)
  }

  /** A byte is written. */
  function Written(): FileState {
    Recorded().(l := [Request(0, [7], DP)], size := 1, plain := [7])
  }

  /** The background thread has the file. */
  function Taken(): FileState {
    Written().(background := Locked(false), file := Background)
  }

  /** It goes over the list. */
  function Swept(i: nat): FileState {
    Written().(background := Sweeping(false, i), file := Background, io := Background)
  }

  /** The byte is taken out of it. */
  function TakenOut(): FileState {
    Swept(0).(l := [], local := [Request(0, [7], DP)])
  }

  /** The background thread lets go of the file. */
  function Detached(): FileState {
    TakenOut().(background := Writing, file := Free)
  }

  lemma WriteLeads()
    ensures Leads(Recorded(), Write(0, [7], 1, false), Written(), 1)
  {
    OneByte(Recorded(), 0, 7);
    assert Overlay([], 0, [7]) == [7];
    IsChange(Recorded(), Write(0, [7], 1, false), 1);
  }

  lemma SweepLeads()
    ensures Leads(Swept(0), SweepOne, TakenOut(), 1)
  {
    var u := Swept(0);
    var m := Midway(u.l, 0, [], []);
    assert Remove(u.l, 0) == [] && [] + [u.l[0]] == u.l;
    assert SweepOnce(m, false, false, 1) == m.(l := [], local := u.l);
    IsDrainStep(u, SweepOne, 1);
  }

  lemma ReachWritten()
    ensures Reachable(Written())
  {
    Begin([]);
    LocksLead(Fresh([]), NewRecord(false), Recorded(), 1);
    GoOn(Fresh([]), NewRecord(false), Recorded());
    WriteLeads();
    GoOn(Recorded(), Write(0, [7], 1, false), Written());
  }

  lemma TakeLeads()
    ensures Leads(Written(), Take(false), Taken(), 1) && Leads(Taken(), BeginSweep, Swept(0), 1)
    ensures Leads(TakenOut(), EndSweep, Detached(), 1)
  {
    LocksLead(Written(), Take(false), Taken(), 1);
    LocksLead(Taken(), BeginSweep, Swept(0), 1);
    LocksLead(TakenOut(), EndSweep, Detached(), 1);
  }

  lemma ReachDetached()
    ensures Reachable(Detached())
  {
    ReachWritten();
    TakeLeads();
    GoOn(Written(), Take(false), Taken());
    GoOn(Taken(), BeginSweep, Swept(0));
    SweepLeads();
    GoOn(Swept(0), SweepOne, TakenOut());
    GoOn(TakenOut(), EndSweep, Detached());
  }

  /** What a close and then a failing background write make of a file with nothing queued, step by step. */
  function Closing(s: FileState): FileState { s.(closing := Freeing, file := Closer) }
  function Failed(s: FileState, f: Failure): FileState {
    Closing(s).(local := [], background := Failing(f), io := Free, lost := true, plain := s.tape)
  }
  function Gone(s: FileState, f: Failure): FileState { Failed(s, f).(record := false, closing := Open, file := Free) }
  function Late(s: FileState, f: Failure): FileState { Gone(s, f).(background := Repairing(f), file := Background) }
  function ClosedLost(s: FileState, f: Failure): FileState { Gone(s, f).(background := Idle, silent := true) }

  /** The background thread is writing what it detached, and nothing else is queued. */
  predicate AtWork(s: FileState) {
    && s.record && s.l == [] && !s.error && s.file == Free && s.closing == Open && s.cut == None
    && s.background == Writing && s.io == Background && s.local != [] && !s.lost
  }

  lemma ClosesFirst(s: FileState, flush: bool, c: nat)
    requires AtWork(s) && 1 <= c
    ensures Leads(s, BeginClose(flush), Closing(s), c)
  {
    LocksLead(s, BeginClose(flush), Closing(s), c);
  }

  lemma FailsThen(s: FileState, f: Failure, c: nat)
    requires AtWork(s) && 1 <= c
    ensures Leads(Closing(s), WriteFails(f), Failed(s, f), c)
  {
    assert View([], s.tape) == s.tape;
    IsDrainStep(Closing(s), WriteFails(f), c);
  }

  lemma GivesBack(s: FileState, f: Failure, c: nat)
    requires AtWork(s) && 1 <= c
    ensures Leads(Failed(s, f), EndClose(true), Gone(s, f), c) && Leads(Gone(s, f), TakeAgain, Late(s, f), c)
  {
    LocksLead(Failed(s, f), EndClose(true), Gone(s, f), c);
    LocksLead(Gone(s, f), TakeAgain, Late(s, f), c);
  }

  lemma FindsNoRecord(s: FileState, f: Failure, c: nat)
    requires AtWork(s) && 1 <= c
    ensures Leads(Late(s, f), Repair, ClosedLost(s, f), c)
  {
    IsDrainStep(Late(s, f), Repair, c);
  }

  /**
   Whenever the background thread is writing what it detached and nothing else is queued, the file may be
   closed, and the tape write fail. The close finds neither a request nor an error, returns none, and takes
   the record with it; so there is nowhere to keep the error, and what was detached is gone.
   */
  lemma LostAtClose(s: FileState, f: Failure, flush: bool, c: nat)
    requires AtWork(s) && 1 <= c
    ensures Leads(s, BeginClose(flush), Closing(s), c) && Leads(Closing(s), WriteFails(f), Failed(s, f), c)
    ensures Leads(Failed(s, f), EndClose(true), Gone(s, f), c) && Leads(Gone(s, f), TakeAgain, Late(s, f), c)
    ensures Leads(Late(s, f), Repair, ClosedLost(s, f), c)
  {
    ClosesFirst(s, flush, c);
    FailsThen(s, f, c);
    GivesBack(s, f, c);
    FindsNoRecord(s, f, c);
  }

  /** And this comes about: a byte written is lost, and no error is left in any record. */
  lemma ByteLostAtClose(f: Failure)
    ensures Reachable(Detached()) && Detached().plain == [7]
    ensures Reachable(ClosedLost(Detached(), f)) && ClosedLost(Detached(), f).plain == []
  {
    ReachDetached();
    var s := Detached();
    LostAtClose(s, f, true, 1);
    GoOn(s, BeginClose(true), Closing(s));
    GoOn(Closing(s), WriteFails(f), Failed(s, f));
    GoOn(Failed(s, f), EndClose(true), Gone(s, f));
    GoOn(Gone(s, f), TakeAgain, Late(s, f));
    GoOn(Late(s, f), Repair, ClosedLost(s, f));
  }

  // ---- A read that finds no record ----

  /** Three bytes on tape. */
  function Three(): FileState {
    Fresh([1, 1, 1])
  }

  /** A read of them has found no record and is about to read tape. */
  function Reading0(): FileState {
    Three().(readers := map[][0 := Planning(0, 3)], file := Reader(0))
  }
  function AboutToRead(): FileState {
    Three().(readers := Reading0().readers[0 := Bare(0, 3, [1, 1, 1], [1, 1, 1], true)])
  }

  /** The last byte and then the first one are written anew. */
  function LastWritten(): FileState {
    AboutToRead().(record := true, size := 3, l := [Request(2, [4], DP)], plain := [1, 1, 4])
  }
  function BothWritten(): FileState {
    LastWritten().(l := [Request(0, [3], DP), Request(2, [4], DP)], plain := [3, 1, 4])
  }

  /** The background thread detaches both requests, and has written the first of them. */
  function BothTaken(): FileState {
    BothWritten().(background := Locked(false), file := Background)
  }
  function BothSwept(n: nat): FileState
    requires n <= 2
  {
    var l := BothWritten().l;
    BothTaken().(background := Sweeping(false, 0), io := Background, l := l[n..], local := l[..n])
  }
  function BothDetached(): FileState {
    BothSwept(2).(background := Threads.Writing, file := Free)
  }
  function HalfOnTape(): FileState {
    BothDetached().(tape := [3, 1, 1], local := BothWritten().l[1..])
  }

  /** And now the read returns. */
  function ReadTorn(): FileState {
    HalfOnTape().(readers := AboutToRead().readers - {0}, log := [Returned([3, 1, 1], [1, 1, 1], true, false)])
  }

  lemma PlanLeads()
    ensures Leads(Three(), BeginRead(0, 0, 3), Reading0(), 1) && Leads(Reading0(), PlanRead(0), AboutToRead(), 1)
  {
    LocksLead(Three(), BeginRead(0, 0, 3), Reading0(), 1);
    IsReadStep(Reading0(), PlanRead(0), 1);
    assert Slice([1, 1, 1], 0, 3) == [1, 1, 1];
  }

  lemma LastLeads()
    ensures Leads(AboutToRead().(record := true, size := 3), Write(2, [4], 1, false), LastWritten(), 1)
  {
    var s := AboutToRead().(record := true, size := 3);
    OneByte(s, 2, 4);
    assert Overlay([1, 1, 1], 2, [4]) == [1, 1, 4];
    IsChange(s, Write(2, [4], 1, false), 1);
  }

  /** A byte written before the only request, and apart from it. */
  lemma ByteBefore()
    ensures var l := LastWritten().l; Attempt(l, 0, [3], 1, 1).l == BothWritten().l && Attempt(l, 0, [3], 1, 1).d == []
    ensures Clean(LastWritten().l, 0, [3], 1, 1)
  {
    var l, both := LastWritten().l, BothWritten().l;
    var w := Start(l, 0, [3], 1);
    assert NewRequest(0, [3], 1) == both[0] && InsertAt(l, 0, both[0]) == both;
    var v := InsertBefore(w, 1);
    assert v == Walk(both, 1, 0, 1, [], 0, Running);
    assert MergeAt(both, 0, 1, 1) == Merge(both, 0);
    var x := Settle(v, 1);
    assert x == Walk(both, 2, 1, 1, [], 0, Finished) && WriteWalk.Step(w, 1) == x;
    assert UnifiedWrite.Pass(x, 1) == x && UnifiedWrite.Pass(w, 1) == x;
    assert CleanPass(x, 1) && CleanPass(w, 1);
  }

  lemma FirstLeads()
    ensures Leads(LastWritten(), Write(0, [3], 1, false), BothWritten(), 1)
  {
    ByteBefore();
    assert [3][..1] == [3] && Overlay([1, 1, 4], 0, [3]) == [3, 1, 4];
    IsChange(LastWritten(), Write(0, [3], 1, false), 1);
  }

  lemma BothLead()
    ensures Leads(BothWritten(), Take(false), BothTaken(), 1) && Leads(BothTaken(), BeginSweep, BothSwept(0), 1)
    ensures Leads(BothSwept(2), EndSweep, BothDetached(), 1)
  {
    var l := BothWritten().l;
    assert l[0..] == l && l[..0] == [] && l[2..] == [] && l[..2] == l;
    LocksLead(BothWritten(), Take(false), BothTaken(), 1);
    LocksLead(BothTaken(), BeginSweep, BothSwept(0), 1);
    LocksLead(BothSwept(2), EndSweep, BothDetached(), 1);
  }

  lemma BothSweepLeads(n: nat)
    requires n < 2
    ensures Leads(BothSwept(n), SweepOne, BothSwept(n + 1), 1)
  {
    var u, l := BothSwept(n), BothWritten().l;
    assert Remove(u.l, 0) == l[n + 1..] && u.local + [u.l[0]] == l[..n + 1];
    IsDrainStep(u, SweepOne, 1);
  }

  lemma HalfLeads()
    ensures Leads(BothDetached(), WriteDetached, HalfOnTape(), 1)
  {
    var l := BothWritten().l;
    assert l[..2] == l && Overlay([1, 1, 1], 0, [3]) == [3, 1, 1];
    IsDrainStep(BothDetached(), WriteDetached, 1);
  }

  lemma BareReadLeads(s: FileState, t: nat, v: FileState, c: nat)
    requires Sized(s.l, c) && 1 <= c && Enabled(s, ReadBare(t)) && v == ReadOn(s, ReadBare(t)) && !s.lost
    ensures Leads(s, ReadBare(t), v, c)
  {
    IsReadStep(s, ReadBare(t), c);
  }

  lemma TornLeads()
    ensures Leads(HalfOnTape(), ReadBare(0), ReadTorn(), 1)
  {
    assert Slice([3, 1, 1], 0, 3) == [3, 1, 1];
    assert ReadOn(HalfOnTape(), ReadBare(0)) == ReadTorn();
    BareReadLeads(HalfOnTape(), 0, ReadTorn(), 1);
  }

  lemma ReachLastWritten()
    ensures Reachable(LastWritten())
  {
    Begin([1, 1, 1]);
    PlanLeads();
    GoOn(Three(), BeginRead(0, 0, 3), Reading0());
    GoOn(Reading0(), PlanRead(0), AboutToRead());
    var s := AboutToRead().(record := true, size := 3);
    LocksLead(AboutToRead(), NewRecord(false), s, 1);
    GoOn(AboutToRead(), NewRecord(false), s);
    LastLeads();
    GoOn(s, Write(2, [4], 1, false), LastWritten());
  }

  lemma ReachBothSwept()
    ensures Reachable(BothSwept(0))
  {
    ReachLastWritten();
    FirstLeads();
    GoOn(LastWritten(), Write(0, [3], 1, false), BothWritten());
    BothLead();
    GoOn(BothWritten(), Take(false), BothTaken());
    GoOn(BothTaken(), BeginSweep, BothSwept(0));
  }

  lemma ReachBothDetached()
    ensures Reachable(BothDetached())
  {
    ReachBothSwept();
    BothSweepLeads(0);
    GoOn(BothSwept(0), SweepOne, BothSwept(1));
    BothSweepLeads(1);
    GoOn(BothSwept(1), SweepOne, BothSwept(2));
    BothLead();
    GoOn(BothSwept(2), EndSweep, BothDetached());
  }

  /**
   A read that finds no record takes no lock of the file. Here it returns bytes that were never the file's:
   every write of the run is clean, the file goes from 1 1 1 by 1 1 4 to 3 1 4, and the read gets 3 1 1.
   */
  lemma TornRead()
    ensures Reachable(ReadTorn()) && ReadTorn().exact && ReadTorn().log == [Returned([3, 1, 1], [1, 1, 1], true, false)]
    ensures Three().plain == [1, 1, 1] && LastWritten().plain == [1, 1, 4] && BothWritten().plain == [3, 1, 4]
    ensures ReadTorn().plain == [3, 1, 4]
  {
    ReachBothDetached();
    HalfLeads();
    TornLeads();
    GoOn(BothDetached(), WriteDetached, HalfOnTape());
    GoOn(HalfOnTape(), ReadBare(0), ReadTorn());
  }

  // ---- A truncation that is overtaken ----

  /** The tape can be cut behind the record's back; when the size of the record is right all the same. */
  lemma OvertakenSize(l: seq<Request>, tape: seq<byte>, size: nat, n: nat)
    requires size == Size(l, tape)
    ensures Size(l, Resize(tape, n)) == size <==>
      n == size || (n < size && exists j :: 0 <= j < |l| && l[j].End() == size)
  {
    SizeBound(l, tape);
    SizeBound(l, Resize(tape, n));
    SizeAttained(l, Resize(tape, n));
    SizeAttained(l, tape);
  }

  lemma {:induction false} SizeAttained(l: seq<Request>, tape: seq<byte>)
    ensures Size(l, tape) == |tape| || exists j :: 0 <= j < |l| && l[j].End() == Size(l, tape)
  {
    if l != [] {
      SizeAttained(l[1..], tape);
      if Size(l[1..], tape) != |tape| {
        var j :| 0 <= j < |l[1..]| && l[1..][j].End() == Size(l[1..], tape);
        assert l[j + 1].End() == Size(l[1..], tape);
      }
    }
  }

  /**
   A truncation that found no record cuts the tape under no lock. If a record was made meanwhile, its size is
   right afterwards if and only if the truncation was to that size, or to less while a request reaches that
   far.
   */
  lemma OvertakenTruncation(s: FileState, e: Step, c: nat)
    requires Exact(s, c) && s.record && s.cut == None && !Recovering(s) && e.BareCut? && Enabled(s, e)
    ensures var u, n := Next(s, e, c), s.bare[e.k];
      u.size == Size(u.l + u.local, u.tape) <==>
      n == s.size || (n < s.size && exists j :: 0 <= j < |s.l + s.local| && (s.l + s.local)[j].End() == s.size)
  {
    IsCutStep(s, e, c);
    OvertakenSize(s.l + s.local, s.tape, s.size, s.bare[e.k]);
  }

  /** A file of two bytes that is truncated to nothing, the record being made in between. */
  function TwoBytes(): FileState {
    Fresh([5, 5]).(bare := [0])
  }
  function Overtaken(): FileState {
    TwoBytes().(bare := [], record := true, size := 2, tape := [], plain := [], exact := false, cuts := 1)
  }

  lemma BeginBareCutLeads()
    ensures Leads(Fresh([5, 5]), BeginBareCut(0), TwoBytes(), 1)
  {
    assert [] + [0] == [0];
    CutLeads(Fresh([5, 5]), BeginBareCut(0), TwoBytes(), 1);
  }

  lemma BareCutLeads()
    ensures Leads(TwoBytes().(record := true, size := 2), BareCut(0), Overtaken(), 1)
  {
    assert [0][..0] + [0][1..] == [] && Resize([5, 5], 0) == [];
    CutLeads(TwoBytes().(record := true, size := 2), BareCut(0), Overtaken(), 1);
  }

  lemma ReachTwoBytes()
    ensures Reachable(TwoBytes().(record := true, size := 2))
  {
    var s, u := TwoBytes(), TwoBytes().(record := true, size := 2);
    Begin([5, 5]);
    BeginBareCutLeads();
    GoOn(Fresh([5, 5]), BeginBareCut(0), s);
    LocksLead(s, NewRecord(false), u, 1);
    GoOn(s, NewRecord(false), u);
  }

  /** The record goes on giving two bytes as the size of the empty file. */
  lemma OvertakenRun()
    ensures Reachable(Overtaken()) && Overtaken().size == 2
    ensures View(Overtaken().l + Overtaken().local, Overtaken().tape) == []
  {
    ReachTwoBytes();
    BareCutLeads();
    GoOn(TwoBytes().(record := true, size := 2), BareCut(0), Overtaken());
  }
}
