/**
 Which files are placed on the index partition (src/iosched/unified.c: unified_update_data_placement,
 unified_truncate, unified_write, _unified_get_dentry_priv): the rule itself, one operation at a time and
 over runs.
 */
module Placement {
  import opened Bytes
  import opened Requests
  import opened UnifiedDrain
  import opened UnifiedSweep
  import opened UnifiedWrite
  import opened FileRun

  // ---- One operation ----

  /**
   After a placement operation a file is on the index partition if and only if it is no larger than the
   rule allows, its name matches, it is not deleted, and it was there before or the rule is on.
   */
  lemma PlacedExactly(f: File, size: nat, v: Volume, matches: bool, deleted: bool)
    ensures var g := PlacingAt(f, size, v, matches, deleted);
      && (g.writeIp <==> size <= v.maxSize && matches && !deleted && (f.writeIp || v.maxSize > 0))
      && g.tape == f.tape && g.l == if f.writeIp && !g.writeIp then DropIP(f.l) else f.l
  {
  }

  /** The placement of a file that gets its record. */
  predicate PlacedAtFirst(size: nat, maxSize: nat, matches: bool) {
    matches && maxSize > 0 && size <= maxSize
  }

  /** A file that is not deleted and has nothing queued yet is placed as if its record were made now. */
  lemma PlacedAsNew(tape: seq<byte>, v: Volume, matches: bool)
    ensures PlacingAt(File([], tape, false), |tape|, v, matches, false)
         == File([], tape, PlacedAtFirst(|tape|, v.maxSize, matches))
  {
  }

  /** A truncation puts a file there only when it empties it, and takes it off by the same rule. */
  lemma TruncatedExactly(f: File, size: nat, v: Volume, n: nat, matches: bool, deleted: bool)
    ensures var g := TruncatingAt(f, size, v, n, matches, deleted);
      && (g.writeIp <==> n <= v.maxSize && matches && !deleted && (f.writeIp || (v.maxSize > 0 && n == 0)))
      && g.tape == Resize(f.tape, n)
      && g.l == if f.writeIp && !g.writeIp then DropIP(Truncated(f.l, size, n)) else Truncated(f.l, size, n)
  {
  }

  /** A write takes a file off if it would reach past the allowed size or the index partition is full. */
  lemma WrittenExactly(f: File, v: Volume, o: nat, d: seq<byte>, ipFull: bool)
    ensures var g := BeforeWrite(f, v, o, d, ipFull);
      && (g.writeIp <==> f.writeIp && (d == [] || (o + |d| <= v.maxSize && !ipFull)))
      && g.tape == f.tape && g.l == if f.writeIp && !g.writeIp then DropIP(f.l) else f.l
  {
  }

  /** No other operation places a file anywhere else. */
  lemma OthersDoNotPlace(f: File, op: Op, v: Volume)
    requires Sized(f.l, v.c) && 1 <= v.c && !op.PlaceOp? && !op.TruncateOp? && !op.WriteOp?
    ensures After(f, op, v).writeIp == f.writeIp
  {
  }

  // ---- Runs ----

  /** The operation decides on the placement, and the file is deleted or its name does not match. */
  predicate Declines(op: Op) {
    (op.PlaceOp? || op.TruncateOp?) && (!op.matches || op.deleted)
  }

  predicate Decides(op: Op) {
    op.PlaceOp? || op.TruncateOp?
  }

  /** `f` becomes `g` by these operations, whatever is written. */
  ghost predicate Becomes(f: File, ops: seq<Op>, g: File, v: Volume)
    decreases |ops|
  {
    if ops == [] then f == g
    else Sized(f.l, v.c) && 1 <= v.c && Becomes(After(f, ops[0], v), ops[1..], g, v)
  }

  /** Only a file placed on the index partition has requests for it. */
  ghost predicate OnlyThere(f: File) {
    !f.writeIp ==> NoIP(f.l)
  }

  /** An operation that declines takes the file off; one that does not decide never puts it there. */
  lemma OffAfter(f: File, op: Op, v: Volume)
    requires Sized(f.l, v.c) && 1 <= v.c && OnlyThere(f)
    ensures OnlyThere(After(f, op, v))
    ensures Declines(op) || (!Decides(op) && !f.writeIp) ==> !After(f, op, v).writeIp
  {
    DropIPLeavesNone(f.l);
    match op
    case WriteOp(o, d, blocks, ipFull) =>
      DropIPSized(f.l, v.c);
      var g := BeforeWrite(f, v, o, d, ipFull);
      if NoIP(g.l) {
        AttemptNoIP(g.l, o, d, v.c, blocks);
      }
    case TruncateOp(n, matches, deleted) =>
      var l := Truncated(f.l, Size(f.l, f.tape), n);
      DropIPLeavesNone(l);
      if NoIP(f.l) {
        TrimNoIP(f.l, n);
      }
    case FlushOp => PassOff(f, true, v.c);
    case PassOp(all) => PassOff(f, all, v.c);
    case _ =>
  }

  lemma PassOff(f: File, all: bool, c: nat)
    requires Sized(f.l, c) && OnlyThere(f)
    ensures OnlyThere(Drained(f, all, c))
  {
    if !f.writeIp {
      SweepNoIP(f.l, 0, f.tape, [], all, c);
    }
  }

  /** Some operation declines, and no later one decides otherwise. */
  predicate DeclinedLast(ops: seq<Op>) {
    exists k :: 0 <= k < |ops| && Declines(ops[k]) && NoneAllows(ops[k + 1..])
  }

  predicate NoneAllows(ops: seq<Op>) {
    forall j :: 0 <= j < |ops| && Decides(ops[j]) ==> Declines(ops[j])
  }

  lemma {:induction false} StaysOff(f: File, ops: seq<Op>, g: File, v: Volume)
    requires Becomes(f, ops, g, v) && OnlyThere(f) && !f.writeIp && NoneAllows(ops)
    ensures !g.writeIp && NoIP(g.l)
    decreases |ops|
  {
    if ops != [] {
      OffAfter(f, ops[0], v);
      assert NoneAllows(ops[1..]);
      StaysOff(After(f, ops[0], v), ops[1..], g, v);
    }
  }

  /**
   Over every run of operations, whatever is written: if the last of those that decide on the placement
   found the file deleted or its name not matching, it is not on the index partition and has nothing queued
   for it.
   */
  lemma {:induction false} DeclinedStaysOff(f: File, ops: seq<Op>, g: File, v: Volume)
    requires Becomes(f, ops, g, v) && OnlyThere(f) && DeclinedLast(ops)
    ensures !g.writeIp && NoIP(g.l)
    decreases |ops|
  {
    var k :| 0 <= k < |ops| && Declines(ops[k]) && NoneAllows(ops[k + 1..]);
    OffAfter(f, ops[0], v);
    var h := After(f, ops[0], v);
    if k == 0 {
      StaysOff(h, ops[1..], g, v);
    } else {
      assert ops[1..][k - 1] == ops[k] && ops[1..][k..] == ops[k + 1..];
      DeclinedStaysOff(h, ops[1..], g, v);
    }
  }

  /** A file too large for the rule, or any file while the rule is off, is never put there. */
  lemma TooLargeStaysOff(f: File, op: Op, v: Volume)
    requires Sized(f.l, v.c) && 1 <= v.c && !f.writeIp && After(f, op, v).writeIp
    ensures Decides(op) && op.matches && !op.deleted && v.maxSize > 0
    ensures if op.PlaceOp? then Size(f.l, f.tape) <= v.maxSize else op.n == 0
  {
  }
}
