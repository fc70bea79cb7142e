/**
 Conservation of operations: what was accepted is in exactly one slot, or was reported
 exactly once, or was lost to a power cut; and the event counter counts pending slots.
 */
module NfcLedger {
  import opened NfcTypes
  import opened NfcModel
  import opened NfcTimeline

  // ---------------------------------------------------------------- pending slots

  function PendingCount(ops: seq<Op>): nat
  {
    if ops == [] then 0
    else PendingCount(ops[..|ops| - 1]) + (if ops[|ops| - 1].state.EventPending? then 1 else 0)
  }

  function Pending(op: Op): nat { if op.state.EventPending? then 1 else 0 }

  lemma {:induction false} PendingUpdate(ops: seq<Op>, i: nat, op: Op)
    requires i < |ops|
    ensures PendingCount(ops[i := op]) == PendingCount(ops) - Pending(ops[i]) + Pending(op)
  {
    var n := |ops| - 1;
    if i == n {
      assert ops[i := op][..n] == ops[..n];
    } else {
      assert ops[i := op][..n] == ops[..n][i := op];
      PendingUpdate(ops[..n], i, op);
    }
  }

  lemma {:induction false} PendingAlike(ops: seq<Op>, ops': seq<Op>)
    requires |ops| == |ops'| && forall i :: 0 <= i < |ops| ==> Pending(ops[i]) == Pending(ops'[i])
    ensures PendingCount(ops) == PendingCount(ops')
  {
    if ops != [] {
      var n := |ops| - 1;
      PendingAlike(ops[..n], ops'[..n]);
      assert Pending(ops[n]) == Pending(ops'[n]);
    }
  }

  /** While another slot is not pending there is room for one more event. */
  lemma {:induction false} PendingBound(ops: seq<Op>, i: nat)
    requires i < |ops| && !ops[i].state.EventPending?
    ensures PendingCount(ops) < |ops|
  {
    var n := |ops| - 1;
    if i < n {
      PendingBound(ops[..n], i);
    } else {
      PendingAtMost(ops[..n]);
    }
  }

  lemma {:induction false} PendingAtMost(ops: seq<Op>)
    ensures PendingCount(ops) <= |ops|
  {
    if ops != [] {
      PendingAtMost(ops[..|ops| - 1]);
    }
  }

  lemma {:induction false} NonePending(ops: seq<Op>)
    requires forall i :: 0 <= i < |ops| ==> !ops[i].state.EventPending?
    ensures PendingCount(ops) == 0
  {
    if ops != [] {
      NonePending(ops[..|ops| - 1]);
    }
  }

  // ---------------------------------------------------------------- the ledger

  predicate Holds(op: Op, sequence: nat) { Live(op) && op.submitSequence == sequence }

  ghost predicate InSlot(ops: seq<Op>, sequence: nat)
  {
    exists i :: 0 <= i < |ops| && Holds(ops[i], sequence)
  }

  predicate ReportOf(c: Completion, sequence: nat) { c.submitSequence == sequence }

  ghost predicate WasReported(reports: seq<Completion>, sequence: nat)
  {
    exists k :: 0 <= k < |reports| && ReportOf(reports[k], sequence)
  }

  ghost predicate SlotLedger(s: Model, op: Op)
  {
    Live(op) ==>
      && op.submitSequence in s.hist.accepted
      && s.hist.accepted[op.submitSequence].request == op.request
      && op.submitSequence !in s.hist.lost
      && forall k :: 0 <= k < |s.hist.reports| ==> !ReportOf(s.hist.reports[k], op.submitSequence)
  }

  ghost predicate ReportLedger(s: Model, c: Completion)
  {
    && c.submitSequence in s.hist.accepted
    && s.hist.accepted[c.submitSequence].request.operation == c.operation
    && c.submitSequence !in s.hist.lost
  }

  /** Reports name distinct operations. */
  ghost predicate ReportsDistinct(reports: seq<Completion>)
  {
    forall k, l :: 0 <= k < l < |reports| ==> reports[k].submitSequence != reports[l].submitSequence
  }

  ghost predicate Accounted(s: Model, sequence: nat)
  {
    InSlot(s.ops, sequence) || WasReported(s.hist.reports, sequence) || sequence in s.hist.lost
  }

  /** Later acceptances carry larger operation uids. */
  ghost predicate UidsIncrease(s: Model)
  {
    && (forall a :: a in s.hist.accepted ==> a < s.nextSubmit && Uid(s, a) < s.nextUid)
    && forall a, b :: a in s.hist.accepted && b in s.hist.accepted && a < b ==> Uid(s, a) < Uid(s, b)
  }

  ghost function Uid(s: Model, sequence: nat): nat
    requires sequence in s.hist.accepted
  {
    s.hist.accepted[sequence].request.operation.operationUid
  }

  ghost predicate Ledger(s: Model)
  {
    && (forall i :: 0 <= i < |s.ops| ==> SlotLedger(s, s.ops[i]))
    && (forall k :: 0 <= k < |s.hist.reports| ==> ReportLedger(s, s.hist.reports[k]))
    && ReportsDistinct(s.hist.reports)
    && s.hist.lost <= s.hist.accepted.Keys
    && (forall a :: a in s.hist.accepted ==> Accounted(s, a))
    && UidsIncrease(s)
  }

  // ---------------------------------------------------------------- relations

  ghost predicate SameBooks(s: Model, t: Model)
  {
    && t.hist.accepted == s.hist.accepted && t.hist.lost == s.hist.lost && t.hist.reports == s.hist.reports
    && t.nextSubmit >= s.nextSubmit && t.nextUid == s.nextUid
  }

  /** Every slot holds what it held. */
  ghost predicate BooksKept(s: Model, t: Model)
  {
    && SameBooks(s, t) && |t.ops| == |s.ops|
    && forall i :: 0 <= i < |s.ops| ==>
         Live(t.ops[i]) == Live(s.ops[i])
         && (Live(s.ops[i]) ==> t.ops[i].submitSequence == s.ops[i].submitSequence
                                && t.ops[i].request == s.ops[i].request)
  }

  ghost predicate BooksEntered(s: Model, t: Model, i: nat, entry: Acceptance)
  {
    && SlotOnly(s, t, i) && s.ops[i].state.Free? && Holds(t.ops[i], s.nextSubmit)
    && t.ops[i].request == entry.request
    && t.hist.accepted == s.hist.accepted[s.nextSubmit := entry]
    && t.hist.lost == s.hist.lost && t.hist.reports == s.hist.reports
    && t.nextSubmit == s.nextSubmit + 1
    && s.nextUid <= entry.request.operation.operationUid < t.nextUid
  }

  ghost predicate BooksReported(s: Model, t: Model, i: nat)
  {
    && SlotOnly(s, t, i) && Live(s.ops[i]) && t.ops[i].state.Free?
    && t.hist.accepted == s.hist.accepted && t.hist.lost == s.hist.lost
    && t.hist.reports == s.hist.reports + [s.ops[i].completion]
    && s.ops[i].completion.submitSequence == s.ops[i].submitSequence
    && s.ops[i].completion.operation == s.ops[i].request.operation
    && t.nextSubmit == s.nextSubmit && t.nextUid == s.nextUid
  }

  ghost predicate BooksLost(s: Model, t: Model, i: nat)
  {
    && SlotOnly(s, t, i) && Live(s.ops[i]) && t.ops[i].state.Free?
    && t.hist.accepted == s.hist.accepted && t.hist.reports == s.hist.reports
    && t.hist.lost == s.hist.lost + {s.ops[i].submitSequence}
    && t.nextSubmit == s.nextSubmit && t.nextUid == s.nextUid
  }

  // ---------------------------------------------------------------- preservation

  lemma KeptKeeps(s: Model, t: Model)
    requires Ledger(s) && BooksKept(s, t)
    ensures Ledger(t)
  {
    forall i | 0 <= i < |t.ops| ensures SlotLedger(t, t.ops[i]) {
      assert SlotLedger(s, s.ops[i]);
    }
    forall a | a in t.hist.accepted ensures Accounted(t, a) {
      assert Accounted(s, a);
      if InSlot(s.ops, a) {
        var i :| 0 <= i < |s.ops| && Holds(s.ops[i], a);
        assert Holds(t.ops[i], a);
      }
    }
    forall k | 0 <= k < |t.hist.reports| ensures ReportLedger(t, t.hist.reports[k]) {
      assert ReportLedger(s, s.hist.reports[k]);
    }
    UidsKept(s, t);
  }

  lemma UidsKept(s: Model, t: Model)
    requires UidsIncrease(s) && t.hist.accepted == s.hist.accepted
    requires t.nextSubmit >= s.nextSubmit && t.nextUid >= s.nextUid
    ensures UidsIncrease(t)
  {
    forall a | a in t.hist.accepted ensures a < t.nextSubmit && Uid(t, a) < t.nextUid {
      assert Uid(s, a) < s.nextUid;
    }
    forall a, b | a in t.hist.accepted && b in t.hist.accepted && a < b ensures Uid(t, a) < Uid(t, b) {
      assert Uid(s, a) < Uid(s, b);
    }
  }

  /** Slots other than `i` still hold what they held. */
  lemma HeldElsewhere(s: Model, t: Model, i: nat, a: nat)
    requires SlotOnly(s, t, i) && InSlot(s.ops, a)
    ensures InSlot(t.ops, a) || Holds(s.ops[i], a)
  {
    var j :| 0 <= j < |s.ops| && Holds(s.ops[j], a);
    if j != i {
      assert Holds(t.ops[j], a);
    }
  }

  lemma EnteredKeeps(s: Model, t: Model, i: nat, entry: Acceptance)
    requires Ledger(s) && BooksEntered(s, t, i, entry)
    ensures Ledger(t)
  {
    var entered := s.nextSubmit;
    assert entered !in s.hist.accepted;
    forall j | 0 <= j < |t.ops| ensures SlotLedger(t, t.ops[j]) {
      if j == i {
        forall k | 0 <= k < |t.hist.reports| ensures !ReportOf(t.hist.reports[k], entered) {
          assert ReportLedger(s, s.hist.reports[k]);
        }
      } else {
        assert SlotLedger(s, s.ops[j]);
      }
    }
    forall k | 0 <= k < |t.hist.reports| ensures ReportLedger(t, t.hist.reports[k]) {
      assert ReportLedger(s, s.hist.reports[k]);
    }
    forall a | a in t.hist.accepted ensures Accounted(t, a) {
      if a == entered {
        assert Holds(t.ops[i], a);
      } else {
        assert Accounted(s, a);
        if InSlot(s.ops, a) {
          HeldElsewhere(s, t, i, a);
        }
      }
    }
    EnteredUids(s, t, i, entry);
  }

  lemma EnteredUids(s: Model, t: Model, i: nat, entry: Acceptance)
    requires UidsIncrease(s) && BooksEntered(s, t, i, entry)
    ensures UidsIncrease(t)
  {
    forall a | a in t.hist.accepted ensures a < t.nextSubmit && Uid(t, a) < t.nextUid {
      if a != s.nextSubmit {
        assert Uid(s, a) < s.nextUid && Uid(t, a) == Uid(s, a);
      }
    }
    forall a, b | a in t.hist.accepted && b in t.hist.accepted && a < b ensures Uid(t, a) < Uid(t, b) {
      assert a in s.hist.accepted && Uid(t, a) == Uid(s, a) < s.nextUid;
      if b != s.nextSubmit {
        assert Uid(s, a) < Uid(s, b) == Uid(t, b);
      }
    }
  }

  /** Slots that stay live are not the one whose operation leaves. */
  lemma LeavingAlone(s: Model, t: Model, i: nat, j: nat)
    requires PairsOrdered(s) && SlotOnly(s, t, i) && Live(s.ops[i]) && j < |s.ops| && j != i && Live(s.ops[j])
    ensures s.ops[j].submitSequence != s.ops[i].submitSequence
  {
    assert PairOrdered(s.ops[i], s.ops[j]);
  }

  lemma ReportedKeeps(s: Model, t: Model, i: nat)
    requires Ledger(s) && PairsOrdered(s) && BooksReported(s, t, i)
    ensures Ledger(t)
  {
    var gone := s.ops[i].submitSequence;
    assert SlotLedger(s, s.ops[i]);
    forall j | 0 <= j < |t.ops| ensures SlotLedger(t, t.ops[j]) {
      assert SlotLedger(s, s.ops[j]);
      if j != i && Live(s.ops[j]) {
        LeavingAlone(s, t, i, j);
      }
    }
    forall k | 0 <= k < |t.hist.reports| ensures ReportLedger(t, t.hist.reports[k]) {
      if k < |s.hist.reports| {
        assert ReportLedger(s, s.hist.reports[k]);
      }
    }
    forall k, l | 0 <= k < l < |t.hist.reports|
      ensures t.hist.reports[k].submitSequence != t.hist.reports[l].submitSequence
    {
      assert !ReportOf(s.hist.reports[k], gone);
    }
    forall a | a in t.hist.accepted ensures Accounted(t, a) {
      assert Accounted(s, a);
      LeavingAccounted(s, t, i, a);
    }
    UidsKept(s, t);
  }

  lemma LeavingAccounted(s: Model, t: Model, i: nat, a: nat)
    requires Accounted(s, a) && SlotOnly(s, t, i)
    requires s.hist.reports <= t.hist.reports && s.hist.lost <= t.hist.lost
    requires Holds(s.ops[i], a) ==>
      a in t.hist.lost || (t.hist.reports != [] && ReportOf(t.hist.reports[|t.hist.reports| - 1], a))
    ensures Accounted(t, a)
  {
    if InSlot(s.ops, a) {
      HeldElsewhere(s, t, i, a);
    } else if WasReported(s.hist.reports, a) {
      var k :| 0 <= k < |s.hist.reports| && ReportOf(s.hist.reports[k], a);
      assert ReportOf(t.hist.reports[k], a);
    }
  }

  lemma LostKeeps(s: Model, t: Model, i: nat)
    requires Ledger(s) && PairsOrdered(s) && BooksLost(s, t, i)
    ensures Ledger(t)
  {
    assert SlotLedger(s, s.ops[i]);
    forall j | 0 <= j < |t.ops| ensures SlotLedger(t, t.ops[j]) {
      assert SlotLedger(s, s.ops[j]);
      if j != i && Live(s.ops[j]) {
        LeavingAlone(s, t, i, j);
      }
    }
    forall k | 0 <= k < |t.hist.reports| ensures ReportLedger(t, t.hist.reports[k]) {
      assert ReportLedger(s, s.hist.reports[k]) && !ReportOf(s.hist.reports[k], s.ops[i].submitSequence);
    }
    forall a | a in t.hist.accepted ensures Accounted(t, a) {
      LeavingAccounted(s, t, i, a);
    }
    UidsKept(s, t);
  }
}
