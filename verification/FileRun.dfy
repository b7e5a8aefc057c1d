/**
 One file under the scheduler, through any run of writes, reads, truncates, flushes, background
 passes and placement changes: it cannot be told from a plain byte-array file.
 */
module FileRun {
  import opened Bytes
  import opened Requests
  import opened RequestOps
  import opened WriteWalk
  import opened UnifiedWrite
  import opened WriteExact
  import opened WriteTame
  import opened UnifiedRead
  import opened UnifiedDrain
  import opened UnifiedSweep

  // ---- A write creates no index-partition request out of none ----

  lemma MergeNoIP(l: seq<Request>, p: nat, i: nat, c: nat)
    requires p < i < |l| && Sized(l, c) && NoIP(l)
    ensures NoIP(MergeAt(l, p, i, c).list)
  {
    if l[i].offset <= l[p].End() {
      var n := AfterMove(l, p, i, c);
      assert NoIP(n);
    }
  }

  lemma SettleNoIP(w: Walk, c: nat)
    requires Sane(w, c) && w.i < |w.l| && NoIP(w.l)
    ensures NoIP(Settle(w, c).l)
  {
    if w.p >= 0 {
      MergeNoIP(w.l, w.p, w.i, c);
    }
  }

  lemma PlaceNoIP(w: Walk, c: nat)
    requires Sane(w, c) && w.i < |w.l| && w.d != [] && w.o <= w.l[w.i].End() && 1 <= c && w.status == Running
    requires NoIP(w.l)
    ensures NoIP(Place(w, c).l)
  {
    if w.o < w.l[w.i].offset && w.blocks > 0 {
      SettleNoIP(InsertBefore(w, c), c);
    }
  }

  lemma StepNoIP(w: Walk, c: nat)
    requires Sane(w, c) && w.i < |w.l| && 1 <= c && w.status == Running && NoIP(w.l)
    ensures NoIP(Step(w, c).l)
  {
    var u := InsertBefore(w, c);
    if w.o <= w.l[w.i].End() && u.status != Stalled {
      assert NoIP(u.l);
      SettleSane(u, c);
      SettleNoIP(u, c);
      var v := Settle(u, c);
      if u.d != [] && |v.l| >= |u.l| {
        PlaceNoIP(v, c);
        assert Step(w, c) == Place(v, c);
      } else {
        assert Step(w, c) == v;
      }
    }
  }

  lemma {:induction false} PassNoIP(w: Walk, c: nat)
    requires Sane(w, c) && 1 <= c && NoIP(w.l)
    ensures NoIP(Pass(w, c).l)
    decreases if w.status == Stalled then 0 else 1, |w.l| - w.i
  {
    if w.status == Running && w.i < |w.l| {
      StepSane(w, c);
      StepNoIP(w, c);
      PassNoIP(Step(w, c), c);
    }
  }

  lemma {:induction false} AttemptNoIP(l: seq<Request>, o: nat, d: seq<byte>, c: nat, blocks: nat)
    requires Sized(l, c) && 1 <= c && NoIP(l)
    ensures NoIP(Attempt(l, o, d, c, blocks).l)
    decreases |l|, if AtEnd(l, o) then 0 else 1
  {
    if d != [] && !AtEnd(l, o) {
      var w := Start(l, o, d, blocks);
      PassNoIP(w, c);
      PassEnds(l, o, d, c, blocks);
      var v := Pass(w, c);
      if v.status == Running && v.d != [] {
        AttemptNoIP(v.l, v.o, v.d, c, v.blocks);
      }
    }
  }

  // ---- Runs ----

  /** The scheduler's state for one file: queued requests, the file on tape, the placement flag. */
  datatype File = File(l: seq<Request>, tape: seq<byte>, writeIp: bool)

  /** The volume: cache block size and the largest file kept on the index partition (0: none). */
  datatype Volume = Volume(c: nat, maxSize: nat)

  /**
   What can happen to the file. WriteOp: one attempt, with the cache blocks to be had and whether
   the index partition is full. TruncateOp and PlaceOp carry what the dentry says at that time:
   whether its name matches the placement criteria and whether it is deleted. PassOp is the
   background pass over full, or over full and partial, requests, and IndexOp the one over
   index-partition requests.
   */
  datatype Op =
    | WriteOp(o: nat, d: seq<byte>, blocks: nat, ipFull: bool)
    | ReadOp(o: nat, n: nat)
    | TruncateOp(n: nat, matches: bool, deleted: bool)
    | PlaceOp(matches: bool, deleted: bool)
    | FlushOp
    | PassOp(all: bool)
    | IndexOp

  ghost predicate Good(f: File, v: Volume) {
    && 1 <= v.c && WellFormed(f.l, v.c) && IPAgree(f.l, f.tape)
    && (!f.writeIp ==> NoIP(f.l))
  }

  function Contents(f: File): seq<byte> {
    View(f.l, f.tape)
  }

  function Unset(f: File): File {
    f.(l := DropIP(f.l), writeIp := false)
  }

  /** The file when unified_write gets to its request list. */
  function BeforeWrite(f: File, v: Volume, o: nat, d: seq<byte>, ipFull: bool): File {
    if d != [] && f.writeIp && (o + |d| > v.maxSize || ipFull) then Unset(f) else f
  }

  function Drained(f: File, all: bool, c: nat): File
    requires Sized(f.l, c)
  {
    var s := Sweep(f.l, 0, f.tape, [], all, f.writeIp, c);
    f.(l := s.l, tape := WriteAll(s.local, s.tape))
  }

  /** unified_truncate when `size` is what the scheduler has as the file's size. */
  function TruncatingAt(f: File, size: nat, v: Volume, n: nat, matches: bool, deleted: bool): File {
    var g := File(Truncated(f.l, size, n), Resize(f.tape, n), f.writeIp);
    if !g.writeIp && v.maxSize > 0 && n == 0 && matches && !deleted then g.(writeIp := true)
    else if g.writeIp && (n > v.maxSize || !matches || deleted) then Unset(g)
    else g
  }

  function Truncating(f: File, v: Volume, n: nat, matches: bool, deleted: bool): File {
    TruncatingAt(f, Size(f.l, f.tape), v, n, matches, deleted)
  }

  function PlacingAt(f: File, size: nat, v: Volume, matches: bool, deleted: bool): File {
    if !f.writeIp && v.maxSize > 0 && size <= v.maxSize && matches && !deleted then f.(writeIp := true)
    else if f.writeIp && (size > v.maxSize || !matches || deleted) then Unset(f)
    else f
  }

  function Placing(f: File, v: Volume, matches: bool, deleted: bool): File {
    PlacingAt(f, Size(f.l, f.tape), v, matches, deleted)
  }

  function After(f: File, op: Op, v: Volume): File
    requires Sized(f.l, v.c) && 1 <= v.c
  {
    match op
    case WriteOp(o, d, blocks, ipFull) =>
      var g := BeforeWrite(f, v, o, d, ipFull);
      (DropIPSized(f.l, v.c); g.(l := Attempt(g.l, o, d, v.c, blocks).l))
    case ReadOp(_, _) => f
    case TruncateOp(n, matches, deleted) => Truncating(f, v, n, matches, deleted)
    case PlaceOp(matches, deleted) => Placing(f, v, matches, deleted)
    case FlushOp => Drained(f, true, v.c)
    case PassOp(all) => Drained(f, all, v.c)
    case IndexOp => f.(l := DropIP(f.l))
  }

  /** What the operation returns to its caller: the bytes of a read. */
  function Output(f: File, op: Op): seq<byte> {
    match op
    case ReadOp(o, n) => CarryOut(MakePlan(f.l, o, n), f.tape)
    case _ => []
  }

  lemma {:induction false} DropIPSized(l: seq<Request>, c: nat)
    requires Sized(l, c)
    ensures Sized(DropIP(l), c)
  {
    forall j | 0 <= j < |DropIP(l)| ensures 1 <= |DropIP(l)[j].data| <= c {
      DropIPMember(l, DropIP(l)[j]);
    }
  }

  // ---- The plain file ----

  /** What an operation is to a plain file. */
  datatype Plain = PlainWrite(o: nat, d: seq<byte>) | PlainRead(o: nat, n: nat) | PlainTruncate(n: nat) | Nothing

  /** The operation as the plain file sees it: a stalled write wrote what it placed. */
  function Effect(f: File, op: Op, v: Volume): Plain
    requires Sized(f.l, v.c) && 1 <= v.c
  {
    match op
    case WriteOp(o, d, blocks, ipFull) =>
      (DropIPSized(f.l, v.c);
       var rest := Attempt(BeforeWrite(f, v, o, d, ipFull).l, o, d, v.c, blocks).d;
       if |rest| <= |d| then PlainWrite(o, d[..|d| - |rest|]) else Nothing)
    case ReadOp(o, n) => PlainRead(o, n)
    case TruncateOp(n, _, _) => PlainTruncate(n)
    case _ => Nothing
  }

  function PlainAfter(f: seq<byte>, p: Plain): seq<byte> {
    match p
    case PlainWrite(o, d) => Overlay(f, o, d)
    case PlainTruncate(n) => Resize(f, n)
    case _ => f
  }

  function PlainOutput(f: seq<byte>, p: Plain): seq<byte> {
    match p
    case PlainRead(o, n) => Slice(f, o, n)
    case _ => []
  }

  /** A write must be clean on the list it finds. */
  predicate CleanOp(f: File, op: Op, v: Volume)
    requires Sized(f.l, v.c) && 1 <= v.c
  {
    op.WriteOp? ==>
      (DropIPSized(f.l, v.c);
       Clean(BeforeWrite(f, v, op.o, op.d, op.ipFull).l, op.o, op.d, v.c, op.blocks))
  }

  lemma UnsetGood(f: File, v: Volume)
    requires Good(f, v)
    ensures Good(Unset(f), v) && Contents(Unset(f)) == Contents(f)
  {
    DropIPView(f.l, f.tape, v.c);
  }

  lemma WriteGood(f: File, v: Volume, op: Op)
    requires Good(f, v) && op.WriteOp? && CleanOp(f, op, v)
    ensures Good(After(f, op, v), v)
    ensures Effect(f, op, v).PlainWrite?
    ensures Contents(After(f, op, v)) == PlainAfter(Contents(f), Effect(f, op, v))
  {
    var g := BeforeWrite(f, v, op.o, op.d, op.ipFull);
    UnsetGood(f, v);
    CleanWrite(g.l, g.tape, op.o, op.d, v.c, op.blocks);
    var r := Attempt(g.l, op.o, op.d, v.c, op.blocks);
    if !g.writeIp {
      AttemptNoIP(g.l, op.o, op.d, v.c, op.blocks);
    }
    assert |op.d| - |r.d| == r.o - op.o;
  }

  lemma DrainedGood(f: File, v: Volume, all: bool)
    requires Good(f, v)
    ensures Good(Drained(f, all, v.c), v) && Contents(Drained(f, all, v.c)) == Contents(f)
  {
    DisjointClear(f.l);
    assert f.l + [] == f.l;
    SweepKeepsFile(f.l, 0, f.tape, [], all, f.writeIp, v.c);
    var s := Sweep(f.l, 0, f.tape, [], all, f.writeIp, v.c);
    forall j, k | 0 <= j < k < |s.local| ensures Clear(s.local[j], s.local[k]) {
      var a := s.l + s.local;
      assert a[|s.l| + j] == s.local[j] && a[|s.l| + k] == s.local[k];
    }
    WriteAllView(s.l, s.local, s.tape);
  }

  lemma TruncateGood(f: File, v: Volume, n: nat, matches: bool, deleted: bool)
    requires Good(f, v)
    ensures var g := Truncating(f, v, n, matches, deleted);
      Good(g, v) && Contents(g) == Resize(Contents(f), n)
  {
    TruncateKeepsOrder(f.l, f.tape, n, v.c);
    var g := File(Truncated(f.l, Size(f.l, f.tape), n), Resize(f.tape, n), f.writeIp);
    UnsetGood(g, v);
  }

  /** One operation keeps the file in step with the plain one. */
  lemma StepRefines(f: File, op: Op, v: Volume)
    requires Good(f, v) && CleanOp(f, op, v)
    ensures Good(After(f, op, v), v)
    ensures Contents(After(f, op, v)) == PlainAfter(Contents(f), Effect(f, op, v))
    ensures Output(f, op) == PlainOutput(Contents(f), Effect(f, op, v))
  {
    match op
    case WriteOp(_, _, _, _) => WriteGood(f, v, op);
    case ReadOp(o, n) => ReadIsSlice(f.l, f.tape, o, n);
    case TruncateOp(n, matches, deleted) => TruncateGood(f, v, n, matches, deleted);
    case PlaceOp(_, _) => UnsetGood(f, v);
    case FlushOp => DrainedGood(f, v, true);
    case PassOp(all) => DrainedGood(f, v, all);
    case IndexOp => DropIPView(f.l, f.tape, v.c);
  }

  /** Every write of the run is clean on the list it finds. */
  ghost predicate CleanRun(f: File, ops: seq<Op>, v: Volume)
    requires Good(f, v)
    decreases |ops|
  {
    ops != [] ==>
      CleanOp(f, ops[0], v) && (StepRefines(f, ops[0], v); CleanRun(After(f, ops[0], v), ops[1..], v))
  }

  ghost function Run(f: File, ops: seq<Op>, v: Volume): (g: File)
    requires Good(f, v) && CleanRun(f, ops, v)
    ensures Good(g, v)
    decreases |ops|
  {
    if ops == [] then f
    else
      StepRefines(f, ops[0], v);
      Run(After(f, ops[0], v), ops[1..], v)
  }

  /** What the run returns to its callers, operation by operation. */
  ghost function Outputs(f: File, ops: seq<Op>, v: Volume): seq<seq<byte>>
    requires Good(f, v) && CleanRun(f, ops, v)
    decreases |ops|
  {
    if ops == [] then []
    else
      StepRefines(f, ops[0], v);
      [Output(f, ops[0])] + Outputs(After(f, ops[0], v), ops[1..], v)
  }

  ghost function Effects(f: File, ops: seq<Op>, v: Volume): seq<Plain>
    requires Good(f, v) && CleanRun(f, ops, v)
    decreases |ops|
  {
    if ops == [] then []
    else
      StepRefines(f, ops[0], v);
      [Effect(f, ops[0], v)] + Effects(After(f, ops[0], v), ops[1..], v)
  }

  function PlainRun(f: seq<byte>, ps: seq<Plain>): seq<byte>
    decreases |ps|
  {
    if ps == [] then f else PlainRun(PlainAfter(f, ps[0]), ps[1..])
  }

  function PlainOutputs(f: seq<byte>, ps: seq<Plain>): seq<seq<byte>>
    decreases |ps|
  {
    if ps == [] then [] else [PlainOutput(f, ps[0])] + PlainOutputs(PlainAfter(f, ps[0]), ps[1..])
  }

  /**
   For every run of clean writes, reads, truncates, flushes, background passes and placement
   changes, each read returns what a plain byte-array file would, and the file ends up the same.
   */
  lemma {:induction false} RunRefinesPlainFile(f: File, ops: seq<Op>, v: Volume)
    requires Good(f, v) && CleanRun(f, ops, v)
    ensures Outputs(f, ops, v) == PlainOutputs(Contents(f), Effects(f, ops, v))
    ensures Contents(Run(f, ops, v)) == PlainRun(Contents(f), Effects(f, ops, v))
    decreases |ops|
  {
    if ops != [] {
      StepRefines(f, ops[0], v);
      RunRefinesPlainFile(After(f, ops[0], v), ops[1..], v);
    }
  }

  // ---- Tame runs ----

  /** A condition on offsets, for a write that comes to the list as it is then. */
  predicate TameOp(f: File, op: Op, v: Volume) {
    op.WriteOp? ==> Tame(BeforeWrite(f, v, op.o, op.d, op.ipFull).l, op.o, |op.d|, v.c)
  }

  lemma TameOpIsClean(f: File, op: Op, v: Volume)
    requires Good(f, v) && TameOp(f, op, v)
    ensures CleanOp(f, op, v)
  {
    if op.WriteOp? {
      UnsetGood(f, v);
      TameWriteIsClean(BeforeWrite(f, v, op.o, op.d, op.ipFull).l, op.o, op.d, v.c, op.blocks);
    }
  }

  /** Every write of the run is tame on the list it finds. */
  ghost predicate TameRun(f: File, ops: seq<Op>, v: Volume)
    requires Good(f, v)
    decreases |ops|
  {
    ops != [] ==>
      && TameOp(f, ops[0], v)
      && (TameOpIsClean(f, ops[0], v); StepRefines(f, ops[0], v); TameRun(After(f, ops[0], v), ops[1..], v))
  }

  /** In a run of tame writes every read returns what a plain byte-array file would. */
  lemma {:induction false} TameRunRefinesPlainFile(f: File, ops: seq<Op>, v: Volume)
    requires Good(f, v) && TameRun(f, ops, v)
    ensures CleanRun(f, ops, v)
    ensures Outputs(f, ops, v) == PlainOutputs(Contents(f), Effects(f, ops, v))
    ensures Contents(Run(f, ops, v)) == PlainRun(Contents(f), Effects(f, ops, v))
    decreases |ops|
  {
    TameRunIsClean(f, ops, v);
    RunRefinesPlainFile(f, ops, v);
  }

  lemma {:induction false} TameRunIsClean(f: File, ops: seq<Op>, v: Volume)
    requires Good(f, v) && TameRun(f, ops, v)
    ensures CleanRun(f, ops, v)
    decreases |ops|
  {
    if ops != [] {
      TameOpIsClean(f, ops[0], v);
      StepRefines(f, ops[0], v);
      TameRunIsClean(After(f, ops[0], v), ops[1..], v);
    }
  }

  // ---- Writes that stall are finished by later attempts ----

  /** An attempt with two blocks to be had writes everything. */
  lemma UnhinderedWrite(f: File, v: Volume, op: Op)
    requires Good(f, v) && op.WriteOp? && op.blocks >= 2 && CleanOp(f, op, v)
    ensures Effect(f, op, v) == PlainWrite(op.o, op.d)
  {
    var g := BeforeWrite(f, v, op.o, op.d, op.ipFull);
    UnsetGood(f, v);
    CleanCompletes(g.l, op.o, op.d, v.c, op.blocks);
    assert op.d[..|op.d|] == op.d;
  }

  /** The attempt that resumes a write, with what the first one left; the index partition may have filled up. */
  ghost function Rest(f: File, v: Volume, op: Op, blocks: nat, ipFull: bool): Op
    requires Good(f, v) && op.WriteOp?
  {
    UnsetGood(f, v);
    var r := Attempt(BeforeWrite(f, v, op.o, op.d, op.ipFull).l, op.o, op.d, v.c, op.blocks);
    WriteOp(r.o, r.d, blocks, ipFull)
  }

  lemma RestOf(f: File, v: Volume, op: Op, blocks: nat, ipFull: bool)
    requires Good(f, v) && op.WriteOp? && CleanOp(f, op, v)
    ensures var rest := Rest(f, v, op, blocks, ipFull);
      && op.o <= rest.o && rest.o - op.o + |rest.d| == |op.d|
      && Effect(f, op, v) == PlainWrite(op.o, op.d[..rest.o - op.o])
      && op.d[..rest.o - op.o] + rest.d == op.d
  {
    var g := BeforeWrite(f, v, op.o, op.d, op.ipFull);
    UnsetGood(f, v);
    CleanWrite(g.l, g.tape, op.o, op.d, v.c, op.blocks);
    var rest := Rest(f, v, op, blocks, ipFull);
    assert rest.d == op.d[rest.o - op.o..];
  }

  /** Operations that write nothing and cut nothing: reads, flushes, background passes, placement changes. */
  predicate Quiet(ops: seq<Op>) {
    forall k :: 0 <= k < |ops| ==> !ops[k].WriteOp? && !ops[k].TruncateOp?
  }

  lemma {:induction false} QuietRun(f: File, ops: seq<Op>, v: Volume)
    requires Good(f, v) && Quiet(ops)
    ensures CleanRun(f, ops, v) && Contents(Run(f, ops, v)) == Contents(f)
    decreases |ops|
  {
    if ops != [] {
      StepRefines(f, ops[0], v);
      QuietRun(After(f, ops[0], v), ops[1..], v);
    }
  }

  /**
   A write that stalled gave up the file's lock. Whatever other than writes and truncations was done to
   the file before the attempt that resumes it with what was left, the two write what one uninterrupted
   write does.
   */
  lemma ResumedWrite(f: File, v: Volume, op: Op, between: seq<Op>, blocks: nat, ipFull: bool)
    requires Good(f, v) && op.WriteOp? && CleanOp(f, op, v) && blocks >= 2 && Quiet(between)
    ensures Good(After(f, op, v), v) && CleanRun(After(f, op, v), between, v)
    ensures var h, rest := Run(After(f, op, v), between, v), Rest(f, v, op, blocks, ipFull);
      CleanOp(h, rest, v) ==> Contents(After(h, rest, v)) == Overlay(Contents(f), op.o, op.d)
  {
    WriteGood(f, v, op);
    QuietRun(After(f, op, v), between, v);
    var h, rest := Run(After(f, op, v), between, v), Rest(f, v, op, blocks, ipFull);
    if CleanOp(h, rest, v) {
      RestOf(f, v, op, blocks, ipFull);
      WholeWrite(h, v, rest);
      OverlayJoin(Contents(f), op.o, op.d[..rest.o - op.o], rest.d);
    }
  }

  lemma WholeWrite(f: File, v: Volume, op: Op)
    requires Good(f, v) && op.WriteOp? && op.blocks >= 2 && CleanOp(f, op, v)
    ensures Contents(After(f, op, v)) == Overlay(Contents(f), op.o, op.d)
  {
    WriteGood(f, v, op);
    UnhinderedWrite(f, v, op);
  }

  // ---- Truncation out of order ----

  /**
   After the write of UntameWriteLeavesStaleBytes a truncation to 40 stops at once, at [20, 30), and
   keeps [0, 60): the file is still 60 bytes long, and so is the tape file after the next flush.
   */
  lemma TruncationStopsShort(d: seq<byte>)
    requires |d| == 55
    ensures var l := Attempt(TwoApart(), 5, d, 64, 2).l;
      && Size(l, []) == 60 && Truncated(l, 60, 40) == l && !StopsInTime(l, 40, false)
      && |View(l, Resize([], 40))| == 60 && Sized(l, 64)
      && |Drained(File(l, Resize([], 40), false), true, 64).tape| == 60
  {
    UntameWriteLeavesStaleBytes(d);
    StopsShort(Attempt(TwoApart(), 5, d, 64, 2).l);
  }

  lemma StopsShort(l: seq<Request>)
    requires |l| == 2 && l[0].offset == 0 && l[0].End() == 60 && l[1] == TwoApart()[1] && l[0].state != IP
    ensures Size(l, []) == 60 && Truncated(l, 60, 40) == l && !StopsInTime(l, 40, false)
    ensures |View(l, Resize([], 40))| == 60 && Sized(l, 64)
    ensures |Drained(File(l, Resize([], 40), false), true, 64).tape| == 60
  {
    SizeOfTwo(l, []);
    SizeOfTwo(l, Resize([], 40));
    assert l[1].End() == 30 && l[1].End() <= 40 < l[0].End();
    DrainTwo(l, Resize([], 40), 64);
  }

  lemma SizeOfTwo(l: seq<Request>, tape: seq<byte>)
    requires |l| == 2
    ensures Size(l, tape) == Max(l[0].End(), Max(l[1].End(), |tape|))
  {
    assert Size(l[1..], tape) == Max(l[1].End(), Size(l[1..][1..], tape));
  }

  lemma WriteTwo(a: Request, b: Request, tape: seq<byte>)
    ensures WriteAll([a, b], tape) == Overlay(Overlay(tape, a.offset, a.data), b.offset, b.data)
  {
    assert [a, b][1..] == [b] && [b][1..] == [];
    assert WriteAll([b], Overlay(tape, a.offset, a.data))
        == WriteAll([], Overlay(Overlay(tape, a.offset, a.data), b.offset, b.data));
  }

  lemma SweepTwo(a: Request, b: Request, tape: seq<byte>, c: nat)
    requires Sized([a, b], c) && a.state != IP && b.state != IP
    ensures Sweep([a, b], 0, tape, [], true, false, c) == Swept([], tape, [a, b])
  {
    assert Remove([a, b], 0) == [b] && Remove([b], 0) == [] && [] + [a] == [a] && [a] + [b] == [a, b];
    assert Sized([b], c);
    assert Sweep([a, b], 0, tape, [], true, false, c) == Sweep([b], 0, tape, [a], true, false, c);
    assert Sweep([b], 0, tape, [a], true, false, c) == Sweep([], 0, tape, [a, b], true, false, c);
  }

  lemma DrainTwo(l: seq<Request>, tape: seq<byte>, c: nat)
    requires Sized(l, c) && |l| == 2 && l[0].state != IP && l[1].state != IP
    ensures |Drained(File(l, tape, false), true, c).tape| == Size(l, tape)
  {
    assert l == [l[0], l[1]];
    SweepTwo(l[0], l[1], tape, c);
    WriteTwo(l[0], l[1], tape);
    SizeOfTwo(l, tape);
  }

  // ---- Placement on the index partition ----

  /**
   After a flush of a file placed on the index partition, only index-partition requests are
   left and they agree with tape; trimming them and dropping them all lose no byte.
   */
  lemma FlushForIndexPartition(f: File, v: Volume, n: nat)
    requires Good(f, v) && f.writeIp
    ensures var g := Drained(f, true, v.c);
      && Good(g, v) && Contents(g) == Contents(f)
      && OnlyIP(g.l) && IPAgree(g.l, g.tape)
      && DropIP(g.l) == [] && g.tape == Contents(f)
      && var t := Truncated(g.l, Size(g.l, g.tape), n);
         View(t, Resize(g.tape, n)) == Resize(Contents(f), n)
         && View(DropIP(t), Resize(g.tape, n)) == Resize(Contents(f), n)
  {
    var g := Drained(f, true, v.c);
    DrainedGood(f, v, true);
    SweepLeaves(f.l, 0, f.tape, [], true, true, v.c);
    DrainedOnlyIP(f, v.c);
    DropIPView(g.l, g.tape, v.c);
    AllIPDropped(g.l);
    TruncateKeepsOrder(g.l, g.tape, n, v.c);
    DropIPView(Truncated(g.l, Size(g.l, g.tape), n), Resize(g.tape, n), v.c);
    assert View([], g.tape) == g.tape;
  }

  lemma DrainedOnlyIP(f: File, c: nat)
    requires Sized(f.l, c)
    ensures OnlyIP(Drained(f, true, c).l)
  {
    SweepLeaves(f.l, 0, f.tape, [], true, f.writeIp, c);
    var s := Sweep(f.l, 0, f.tape, [], true, f.writeIp, c);
    forall j | 0 <= j < |s.l| ensures s.l[j].state == IP {
      assert !Selected(s.l[j], true);
    }
  }

  lemma {:induction false} AllIPDropped(l: seq<Request>)
    requires OnlyIP(l)
    ensures DropIP(l) == []
  {
    if l != [] {
      AllIPDropped(l[1..]);
    }
  }

  lemma {:induction false} NoIPKept(l: seq<Request>)
    requires NoIP(l)
    ensures DropIP(l) == l
  {
    if l != [] {
      NoIPKept(l[1..]);
    }
  }

  /** After a flush of a file not so placed, nothing is queued and the tape is the file. */
  lemma FlushForDataPartition(f: File, v: Volume)
    requires Good(f, v) && !f.writeIp
    ensures var g := Drained(f, true, v.c); g.l == [] && g.tape == Contents(f)
  {
    var g := Drained(f, true, v.c);
    DrainedGood(f, v, true);
    DrainedOnlyIP(f, v.c);
    AllIPDropped(g.l);
    NoIPKept(g.l);
    assert View([], g.tape) == g.tape;
  }
}
