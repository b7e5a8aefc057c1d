/**
 What a failed tape write does to a file's requests (src/iosched/unified.c: _unified_handle_write_error
 and the places that call it), and which bytes and which errors are lost.
 */
module WriteErrors {
  import opened Bytes
  import opened Requests
  import opened UnifiedDrain

  /** Why a write failed: no space left, a permanent write error, or anything else. */
  datatype Cause = NoSpace | Permanent | Otherwise

  /**
   A failed write: its cause, whether the lock status that a permanent error on the index partition
   asks for is set in the end (tape_set_cart_volume_lock_status returns 0), and whether the other
   partition cannot be written either, being read-only or out of space.
   */
  datatype Failure = Failure(cause: Cause, lockSet: bool, otherReadonly: bool)

  /** The value _unified_handle_write_error gets: zero, no space left, or another error. */
  datatype Code = Zero | Full | Error

  /** What ltfs_fsraw_write and ltfs_fsraw_write_data return. */
  function WriteCode(e: Failure): Code {
    if e.cause == NoSpace then Full else Error
  }

  /** The index-partition pass puts the result of setting the lock status over a permanent error. */
  function IndexCode(e: Failure): Code {
    if e.cause == Permanent && e.lockSet then Zero else WriteCode(e)
  }

  /** Whether the handler leaves an error for the caller. */
  predicate KeepsError(failedIp: bool, code: Code) {
    code == Error || (code == Full && !failedIp)
  }

  predicate ClearsDp(failedIp: bool, code: Code, otherReadonly: bool) {
    !failedIp || code != Full || otherReadonly
  }

  predicate ClearsIp(failedIp: bool, code: Code, otherReadonly: bool) {
    failedIp || code != Full || otherReadonly
  }

  /** Whether a request is for a partition that is given up. */
  predicate Gone(r: Request, clearDp: bool, clearIp: bool) {
    if r.state == IP then clearIp else clearDp
  }

  /** The requests that stay: none of the partition that failed, nor of the other if that is hopeless. */
  function Kept(l: seq<Request>, clearDp: bool, clearIp: bool): seq<Request> {
    if l == [] then []
    else (if Gone(l[0], clearDp, clearIp) then [] else [l[0]]) + Kept(l[1..], clearDp, clearIp)
  }

  lemma {:induction false} KeptMember(l: seq<Request>, clearDp: bool, clearIp: bool, r: Request)
    ensures r in Kept(l, clearDp, clearIp) <==> r in l && !Gone(r, clearDp, clearIp)
  {
    if l != [] {
      KeptMember(l[1..], clearDp, clearIp, r);
      assert r in l <==> r == l[0] || r in l[1..];
    }
  }

  /** With the data partition given up only index-partition requests stay. */
  lemma {:induction false} KeptOnlyIP(l: seq<Request>, clearIp: bool)
    ensures OnlyIP(Kept(l, true, clearIp)) && (NoIP(l) ==> Kept(l, true, clearIp) == [])
  {
    if l != [] {
      KeptOnlyIP(l[1..], clearIp);
    }
  }

  lemma {:induction false} KeptDisjoint(l: seq<Request>, clearDp: bool, clearIp: bool)
    requires Disjoint(l)
    ensures Disjoint(Kept(l, clearDp, clearIp))
  {
    if l != [] {
      KeptDisjoint(l[1..], clearDp, clearIp);
      var m := Kept(l[1..], clearDp, clearIp);
      forall j | 0 <= j < |m| ensures l[0].End() <= m[j].offset {
        KeptMember(l[1..], clearDp, clearIp, m[j]);
      }
    }
  }

  /** What stays of a list in order is in order, and agrees with tape as before. */
  lemma KeptInOrder(l: seq<Request>, clearDp: bool, clearIp: bool, tape: seq<byte>, c: nat)
    requires WellFormed(l, c) && IPAgree(l, tape)
    ensures var m := Kept(l, clearDp, clearIp);
      WellFormed(m, c) && IPAgree(m, tape) && (NoIP(l) ==> NoIP(m)) && (NoIP(l) && clearDp ==> m == [])
  {
    var m := Kept(l, clearDp, clearIp);
    KeptDisjoint(l, clearDp, clearIp);
    forall j | 0 <= j < |m| ensures m[j] in l && !Gone(m[j], clearDp, clearIp) {
      KeptMember(l, clearDp, clearIp, m[j]);
    }
  }

  // ---- What a file is after a write error ----

  lemma {:induction false} KeptIsDropIP(l: seq<Request>)
    ensures Kept(l, false, true) == DropIP(l)
  {
    if l != [] {
      KeptIsDropIP(l[1..]);
    }
  }

  /**
   When the index partition is full and the data partition is not, only index-partition requests go,
   and the file is what it was.
   */
  lemma FullIndexLosesNothing(l: seq<Request>, tape: seq<byte>, c: nat)
    requires WellFormed(l, c) && IPAgree(l, tape)
    ensures Kept(l, ClearsDp(true, Full, false), ClearsIp(true, Full, false)) == DropIP(l)
    ensures View(DropIP(l), tape) == View(l, tape)
  {
    KeptIsDropIP(l);
    DropIPView(l, tape, c);
  }

  /**
   After any other error the file is the tape file: no byte is shown that is not on the medium,
   whether index-partition requests are kept or not.
   */
  lemma FailedWriteShowsTape(l: seq<Request>, tape: seq<byte>, failedIp: bool, code: Code, otherReadonly: bool)
    requires IPAgree(l, tape) && ClearsDp(failedIp, code, otherReadonly)
    ensures View(Kept(l, true, ClearsIp(failedIp, code, otherReadonly)), tape) == tape
  {
    var clearIp := ClearsIp(failedIp, code, otherReadonly);
    var m := Kept(l, true, clearIp);
    forall j | 0 <= j < |m| ensures OnTape(m[j], tape) {
      KeptMember(l, true, clearIp, m[j]);
      var k :| 0 <= k < |l| && l[k] == m[j];
    }
    OnTapeView(m, tape);
  }

  /** The requests after an index-partition write failed. */
  function AfterIndexFailure(l: seq<Request>, e: Failure): seq<Request> {
    Kept(l, ClearsDp(true, IndexCode(e), e.otherReadonly), ClearsIp(true, IndexCode(e), e.otherReadonly))
  }

  /** No byte of any file is lost in a failed write to the index partition without an error being kept. */
  ghost predicate NoSilentLoss(e: Failure, c: nat) {
    forall l, tape :: WellFormed(l, c) && IPAgree(l, tape) ==> LossReported(l, tape, e)
  }

  ghost predicate LossReported(l: seq<Request>, tape: seq<byte>, e: Failure) {
    View(AfterIndexFailure(l, e), tape) == View(l, tape) || KeepsError(true, IndexCode(e))
  }

  /** One byte on its way to the index partition, and one, behind it, not yet on tape at all. */
  function OneOfEach(c: nat): seq<Request> {
    [Request(0, [7], IP), Request(1, [9], if c == 1 then DP else Partial)]
  }

  /**
   A failed write to the index partition takes the bytes that are not on tape yet with it. The caller
   hears of that unless the index partition was full while the data partition was read-only or full, or
   the error was permanent and the lock status could be set: that puts 0 over the error code.
   */
  lemma SilentLossExactly(e: Failure, c: nat)
    requires c >= 1
    ensures NoSilentLoss(e, c) <==> !(e.cause == NoSpace && e.otherReadonly) && !(e.cause == Permanent && e.lockSet)
  {
    if e.cause == NoSpace && !e.otherReadonly {
      forall l, tape | WellFormed(l, c) && IPAgree(l, tape) ensures LossReported(l, tape, e) {
        FullIndexLosesNothing(l, tape, c);
      }
    } else if !KeepsError(true, IndexCode(e)) {
      LostWrite(e, c);
      assert !LossReported(OneOfEach(c), [7], e);
    }
  }

  /** The write that is lost: its byte was in the file, and is not in it any more. */
  lemma LostWrite(e: Failure, c: nat)
    requires c >= 1 && !(e.cause == NoSpace && !e.otherReadonly)
    ensures WellFormed(OneOfEach(c), c) && IPAgree(OneOfEach(c), [7])
    ensures View(OneOfEach(c), [7]) == [7, 9] && AfterIndexFailure(OneOfEach(c), e) == []
    ensures View(AfterIndexFailure(OneOfEach(c), e), [7]) == [7]
  {
    var l := OneOfEach(c);
    assert l[1..] == [l[1]] && l[1..][1..] == [];
    assert Kept(l[1..], true, true) == Kept(l[1..][1..], true, true);
    assert Lookup(l, 1) == Lookup(l[1..], 1);
    assert Size(l, [7]) == Max(l[0].End(), Max(l[1].End(), Size(l[1..][1..], [7])));
    assert View([], [7]) == [7];
  }

  /** Requests that only repeat the tape show the tape. */
  lemma OnTapeView(m: seq<Request>, tape: seq<byte>)
    requires forall j :: 0 <= j < |m| ==> OnTape(m[j], tape)
    ensures View(m, tape) == tape
  {
    SizeAtMost(m, tape, |tape|);
    SizeBound(m, tape);
    forall x: nat | x < |tape| ensures View(m, tape)[x] == tape[x] {
      if Lookup(m, x).Some? {
        var j := LookupSome(m, x);
        OnTapeByte(m[j], tape, x);
      }
    }
  }

  lemma {:induction false} KeptNone(l: seq<Request>)
    ensures Kept(l, true, true) == []
  {
    if l != [] {
      KeptNone(l[1..]);
    }
  }
}
