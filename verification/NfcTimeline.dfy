/**
 The virtual clock and the order of completions.  Each relation below says what one
 kind of transition does to the fields that carry time and order; the invariant is
 kept by every relation, and every transition of the model is one of them.
 */
module NfcTimeline {
  import opened NfcTypes
  import opened NfcModel

  predicate Live(op: Op) { !op.state.Free? }
  predicate Busy(op: Op) { op.state.Scheduled? || op.state.Running? }

  /** Lexicographic order on (tick, submit sequence). */
  predicate KeyLess(tick: nat, sequence: nat, tick': nat, sequence': nat)
  {
    tick < tick' || (tick == tick' && sequence < sequence')
  }

  // ---------------------------------------------------------------- unit ticks

  /** The last unit is due exactly at the finish, every unit after the start and no later. */
  lemma UnitTickBounds(start: nat, finish: nat, index: nat, count: nat)
    requires start <= finish && index < count
    ensures start <= UnitTick(start, finish, index, count) <= finish
    ensures start < finish ==> start < UnitTick(start, finish, index, count)
    ensures index + 1 == count ==> UnitTick(start, finish, index, count) == finish
  {
    var d := finish - start;
    var n := d * (index + 1) + count - 1;
    assert d * (index + 1) <= d * count;
    assert n <= d * count + (count - 1);
    assert n / count <= d by { DivideBelow(n, d, count); }
    if index + 1 == count {
      DivideExact(d, count);
    }
    if start < finish {
      assert 1 <= d * (index + 1);
      assert count <= n;
      DivideAbove(n, 1, count);
    }
  }

  lemma DivideBelow(n: nat, d: nat, c: nat)
    requires 0 < c && n <= d * c + (c - 1)
    ensures n / c <= d
  {
    var q := n / c;
    assert q >= d + 1 ==> q * c >= (d + 1) * c;
  }

  lemma DivideAbove(n: nat, d: nat, c: nat)
    requires 0 < c && d * c <= n
    ensures d <= n / c
  {
    var q := n / c;
    assert q + 1 <= d ==> (q + 1) * c <= d * c;
  }

  lemma DivideExact(d: nat, c: nat)
    requires 0 < c
    ensures (d * c + c - 1) / c == d
  {
    DivideBelow(d * c + c - 1, d, c);
    DivideAbove(d * c + c - 1, d, c);
  }

  /** Units fall due in order. */
  lemma UnitTickMonotone(start: nat, finish: nat, index: nat, count: nat)
    requires start <= finish && 0 < count
    ensures UnitTick(start, finish, index, count) <= UnitTick(start, finish, index + 1, count)
  {
    var d := finish - start;
    var n := d * (index + 1) + count - 1;
    var m := d * (index + 2) + count - 1;
    assert d * (index + 1) <= d * (index + 2);
    DivideAbove(m, n / count, count);
  }

  // ---------------------------------------------------------------- the invariant

  /** The unit a running operation waits for; the last one if none is left. */
  function DueIndex(op: Op): nat
    requires 0 < op.unitCount
  {
    if op.unitIndex < op.unitCount then op.unitIndex else op.unitCount - 1
  }

  predicate RunningTimed(op: Op, now: nat)
  {
    && op.startTick < op.finishTick && 0 < op.unitCount && op.unitIndex <= op.unitCount
    && op.startTick <= now <= op.nextTick
    && op.nextTick == UnitTick(op.startTick, op.finishTick, DueIndex(op), op.unitCount)
    && op.completion.beginTick == op.startTick
  }

  predicate PendingTimed(op: Op, now: nat)
  {
    && op.completion.statusTick == op.completion.outcomeTick == op.finishTick <= now
    && op.completion.beginTick == op.startTick < op.finishTick
  }

  predicate SlotTimed(op: Op, now: nat, nextSubmit: nat)
  {
    && (Live(op) ==> op.submitSequence < nextSubmit && op.completion.submitSequence == op.submitSequence
                     && op.completion.operation == op.request.operation)
    && (op.state.Queued? ==> op.nextTick == 0)
    && (op.state.Scheduled? ==> now <= op.startTick == op.nextTick && op.startTick < op.finishTick)
    && (op.state.Running? ==> RunningTimed(op, now))
    && (op.state.EventPending? ==> PendingTimed(op, now))
  }

  /** Distinct sequences; what is pending comes before whatever is still to finish. */
  predicate PairOrdered(a: Op, b: Op)
  {
    && (Live(a) && Live(b) ==> a.submitSequence != b.submitSequence)
    && (a.state.EventPending? && Busy(b) ==> KeyLess(a.finishTick, a.submitSequence, b.nextTick, b.submitSequence))
    && (a.state.EventPending? && b.state.Queued? ==> a.submitSequence < b.submitSequence)
  }

  /** A completion already reported comes before everything the slot can still report. */
  predicate ReportBefore(c: Completion, op: Op)
  {
    && (op.state.EventPending? ==> KeyLess(c.statusTick, c.submitSequence, op.finishTick, op.submitSequence))
    && (Busy(op) ==> KeyLess(c.statusTick, c.submitSequence, op.nextTick, op.submitSequence))
    && (op.state.Queued? ==> c.submitSequence < op.submitSequence)
  }

  predicate ReportLess(c: Completion, d: Completion)
  {
    KeyLess(c.statusTick, c.submitSequence, d.statusTick, d.submitSequence)
  }

  ghost predicate SlotsTimed(s: Model)
  {
    forall i :: 0 <= i < |s.ops| ==> SlotTimed(s.ops[i], s.now, s.nextSubmit)
  }

  ghost predicate PairsOrdered(s: Model)
  {
    forall i, j :: 0 <= i < |s.ops| && 0 <= j < |s.ops| && i != j ==> PairOrdered(s.ops[i], s.ops[j])
  }

  ghost predicate ReportsFirst(s: Model)
  {
    && (forall k :: 0 <= k < |s.hist.reports| ==>
          s.hist.reports[k].statusTick <= s.now && s.hist.reports[k].submitSequence < s.nextSubmit)
    && (forall k, i :: 0 <= k < |s.hist.reports| && 0 <= i < |s.ops| ==> ReportBefore(s.hist.reports[k], s.ops[i]))
  }

  /** The stream of reports is strictly increasing in (status tick, submit sequence). */
  ghost predicate ReportsIncreasing(reports: seq<Completion>)
  {
    forall k, l :: 0 <= k < l < |reports| ==> ReportLess(reports[k], reports[l])
  }

  ghost predicate Timeline(s: Model)
  {
    SlotsTimed(s) && PairsOrdered(s) && ReportsFirst(s) && ReportsIncreasing(s.hist.reports)
  }

  // ---------------------------------------------------------------- relations

  ghost predicate SlotOnly(s: Model, t: Model, i: nat)
  {
    i < |s.ops| == |t.ops| && t.ops == s.ops[i := t.ops[i]]
  }

  ghost predicate SameReports(s: Model, t: Model)
  {
    t.hist.reports == s.hist.reports
  }

  /** Nothing that carries time or order changes in the slot. */
  predicate TimedAlike(a: Op, b: Op)
  {
    && a.state == b.state && a.submitSequence == b.submitSequence
    && a.startTick == b.startTick && a.nextTick == b.nextTick && a.finishTick == b.finishTick
    && a.unitIndex == b.unitIndex && a.unitCount == b.unitCount
    && a.completion.submitSequence == b.completion.submitSequence
    && a.completion.operation == b.completion.operation && a.request == b.request
    && (a.state.Running? ==> a.completion.beginTick == b.completion.beginTick)
    && (a.state.EventPending? ==> a.completion == b.completion)
  }

  ghost predicate Quiet(s: Model, t: Model)
  {
    && t.now == s.now && t.nextSubmit >= s.nextSubmit && SameReports(s, t) && |t.ops| == |s.ops|
    && forall i :: 0 <= i < |s.ops| ==> BothFree(s.ops[i], t.ops[i]) || TimedAlike(s.ops[i], t.ops[i])
  }

  predicate BothFree(a: Op, b: Op) { a.state.Free? && b.state.Free? }

  ghost predicate Accepts(s: Model, t: Model, i: nat)
  {
    && SlotOnly(s, t, i) && t.now == s.now && t.nextSubmit == s.nextSubmit + 1 && SameReports(s, t)
    && var o := t.ops[i];
       o.state.Queued? && o.submitSequence == s.nextSubmit == o.completion.submitSequence
       && o.completion.operation == o.request.operation && o.nextTick == 0
  }

  ghost predicate Frees(s: Model, t: Model, i: nat)
  {
    && SlotOnly(s, t, i) && t.now == s.now && t.nextSubmit == s.nextSubmit && SameReports(s, t)
    && t.ops[i].state.Free?
  }

  ghost predicate Ticks(s: Model, t: Model, i: nat)
  {
    && i < |s.ops| && t.ops == s.ops && t.nextSubmit == s.nextSubmit && SameReports(s, t)
    && Foremost(s.ops, |s.ops|, i) && s.now < s.ops[i].nextTick == t.now
  }

  ghost predicate Schedules(s: Model, t: Model, i: nat)
  {
    && SlotOnly(s, t, i) && t.now == s.now && t.nextSubmit == s.nextSubmit && SameReports(s, t)
    && var a, b := s.ops[i], t.ops[i];
       a.state.Queued? && b.state.Scheduled? && b.submitSequence == a.submitSequence
       && b.completion == a.completion && b.request == a.request
       && s.now <= b.startTick == b.nextTick && b.startTick < b.finishTick
  }

  ghost predicate Begins(s: Model, t: Model, i: nat)
  {
    && SlotOnly(s, t, i) && t.now == s.now && t.nextSubmit == s.nextSubmit && SameReports(s, t)
    && var a, b := s.ops[i], t.ops[i];
       a.state.Scheduled? && a.nextTick <= s.now
       && b.state.Running? && b.submitSequence == a.submitSequence && b.request == a.request
       && b.completion.submitSequence == a.completion.submitSequence
       && b.completion.operation == a.completion.operation
       && b.startTick == a.startTick <= b.finishTick == a.finishTick && b.unitIndex == 0 < b.unitCount
       && b.nextTick == UnitTick(b.startTick, b.finishTick, 0, b.unitCount)
       && b.completion.beginTick == s.now
  }

  ghost predicate SameRun(a: Op, b: Op)
  {
    && b.submitSequence == a.submitSequence && b.request == a.request && b.unitCount == a.unitCount
    && b.startTick == a.startTick <= b.finishTick == a.finishTick
    && b.completion.submitSequence == a.completion.submitSequence
    && b.completion.operation == a.completion.operation
    && b.completion.beginTick == a.completion.beginTick
  }

  ghost predicate Continues(s: Model, t: Model, i: nat)
  {
    && SlotOnly(s, t, i) && t.now == s.now && t.nextSubmit == s.nextSubmit && SameReports(s, t)
    && var a, b := s.ops[i], t.ops[i];
       a.state.Running? && b.state.Running? && SameRun(a, b)
       && b.unitIndex == a.unitIndex + 1 < b.unitCount && b.nextTick == UnitDeadline(b)
  }

  /** The last unit of the foremost operation: it finishes, or the model halts on it. */
  ghost predicate Ends(s: Model, t: Model, i: nat)
  {
    && SlotOnly(s, t, i) && t.nextSubmit == s.nextSubmit && SameReports(s, t)
    && Foremost(s.ops, |s.ops|, i)
    && var a, b := s.ops[i], t.ops[i];
       a.state.Running? && SameRun(a, b) && a.nextTick <= s.now && a.unitIndex + 1 == a.unitCount
       && t.now == a.finishTick
       && ((b.state.EventPending? && b.completion.statusTick == b.completion.outcomeTick == t.now)
           || (b.state.Running? && b.unitIndex == b.unitCount && b.nextTick == a.nextTick))
  }

  ghost predicate Reports(s: Model, t: Model, i: nat)
  {
    && SlotOnly(s, t, i) && t.now == s.now && t.nextSubmit == s.nextSubmit
    && s.ops[i].state.EventPending? && t.ops[i].state.Free?
    && t.hist.reports == s.hist.reports + [s.ops[i].completion]
    && forall j :: 0 <= j < |s.ops| && j != i && s.ops[j].state.EventPending? ==>
                   EventLess(s.ops[i], i, s.ops[j], j)
  }

  // ---------------------------------------------------------------- preservation

  lemma QuietKeeps(s: Model, t: Model)
    requires Timeline(s) && Quiet(s, t)
    ensures Timeline(t)
  {
    forall i | 0 <= i < |t.ops| ensures SlotTimed(t.ops[i], t.now, t.nextSubmit) {
      assert SlotTimed(s.ops[i], s.now, s.nextSubmit);
    }
    forall i, j | 0 <= i < |t.ops| && 0 <= j < |t.ops| && i != j ensures PairOrdered(t.ops[i], t.ops[j]) {
      assert PairOrdered(s.ops[i], s.ops[j]);
    }
    forall k, i | 0 <= k < |t.hist.reports| && 0 <= i < |t.ops| ensures ReportBefore(t.hist.reports[k], t.ops[i]) {
      assert ReportBefore(s.hist.reports[k], s.ops[i]);
    }
  }

  /** One slot changes: what has to be checked of it against the others. */
  lemma SlotKeeps(s: Model, t: Model, i: nat)
    requires Timeline(s) && SlotOnly(s, t, i) && SameReports(s, t)
    requires s.now <= t.now && s.nextSubmit <= t.nextSubmit
    requires SlotTimed(t.ops[i], t.now, t.nextSubmit)
    requires t.now == s.now || forall j :: 0 <= j < |s.ops| && j != i ==> SlotTimed(s.ops[j], t.now, s.nextSubmit)
    requires forall j :: 0 <= j < |s.ops| && j != i ==>
      PairOrdered(t.ops[i], s.ops[j]) && PairOrdered(s.ops[j], t.ops[i])
    requires forall k :: 0 <= k < |s.hist.reports| ==> ReportBefore(s.hist.reports[k], t.ops[i])
    ensures Timeline(t)
  {
    forall j | 0 <= j < |t.ops| ensures SlotTimed(t.ops[j], t.now, t.nextSubmit) {
      assert SlotTimed(s.ops[j], s.now, s.nextSubmit);
    }
    forall j, k | 0 <= j < |t.ops| && 0 <= k < |t.ops| && j != k ensures PairOrdered(t.ops[j], t.ops[k]) {
      if j != i && k != i {
        assert PairOrdered(s.ops[j], s.ops[k]);
      }
    }
    forall k, j | 0 <= k < |t.hist.reports| && 0 <= j < |t.ops| ensures ReportBefore(t.hist.reports[k], t.ops[j]) {
      if j != i {
        assert ReportBefore(s.hist.reports[k], s.ops[j]);
      }
    }
  }

  lemma AcceptKeeps(s: Model, t: Model, i: nat)
    requires Timeline(s) && Accepts(s, t, i)
    ensures Timeline(t)
  {
    forall j | 0 <= j < |s.ops| && j != i
      ensures PairOrdered(t.ops[i], s.ops[j]) && PairOrdered(s.ops[j], t.ops[i])
    {
      assert SlotTimed(s.ops[j], s.now, s.nextSubmit);
    }
    SlotKeeps(s, t, i);
  }

  lemma FreeKeeps(s: Model, t: Model, i: nat)
    requires Timeline(s) && Frees(s, t, i)
    ensures Timeline(t)
  {
    SlotKeeps(s, t, i);
  }

  /** The foremost busy operation is due before every other, and nothing is queued. */
  lemma ForemostDue(s: Model, i: nat, j: nat)
    requires Timeline(s) && Foremost(s.ops, |s.ops|, i) && Busy(s.ops[i])
    requires j < |s.ops| && j != i
    ensures !s.ops[j].state.Queued?
    ensures Busy(s.ops[j]) ==>
      KeyLess(s.ops[i].nextTick, s.ops[i].submitSequence, s.ops[j].nextTick, s.ops[j].submitSequence)
  {
    assert PairOrdered(s.ops[i], s.ops[j]);
    if Candidate(s.ops[j]) {
      assert OperationLess(s.ops[i], i, s.ops[j], j);
    }
  }

  lemma TickKeeps(s: Model, t: Model, i: nat)
    requires Timeline(s) && Ticks(s, t, i)
    ensures Timeline(t)
  {
    assert SlotTimed(s.ops[i], s.now, s.nextSubmit);
    forall j | 0 <= j < |s.ops| ensures SlotTimed(t.ops[j], t.now, t.nextSubmit) {
      assert SlotTimed(s.ops[j], s.now, s.nextSubmit);
      if j != i {
        ForemostDue(s, i, j);
      }
    }
  }

  lemma ScheduleKeeps(s: Model, t: Model, i: nat)
    requires Timeline(s) && Schedules(s, t, i)
    ensures Timeline(t)
  {
    assert SlotTimed(s.ops[i], s.now, s.nextSubmit);
    forall j | 0 <= j < |s.ops| && j != i
      ensures PairOrdered(t.ops[i], s.ops[j]) && PairOrdered(s.ops[j], t.ops[i])
    {
      assert PairOrdered(s.ops[i], s.ops[j]) && PairOrdered(s.ops[j], s.ops[i]);
      assert SlotTimed(s.ops[j], s.now, s.nextSubmit);
    }
    forall k | 0 <= k < |s.hist.reports| ensures ReportBefore(s.hist.reports[k], t.ops[i]) {
      assert ReportBefore(s.hist.reports[k], s.ops[i]);
    }
    SlotKeeps(s, t, i);
  }

  /** A busy slot that stays busy and is not due earlier keeps its place. */
  lemma BusyKeeps(s: Model, t: Model, i: nat)
    requires Timeline(s) && SlotOnly(s, t, i) && SameReports(s, t) && t.now == s.now && t.nextSubmit == s.nextSubmit
    requires Busy(s.ops[i]) && Busy(t.ops[i]) && t.ops[i].submitSequence == s.ops[i].submitSequence
    requires s.ops[i].nextTick <= t.ops[i].nextTick
    requires SlotTimed(t.ops[i], t.now, t.nextSubmit)
    ensures Timeline(t)
  {
    forall j | 0 <= j < |s.ops| && j != i
      ensures PairOrdered(t.ops[i], s.ops[j]) && PairOrdered(s.ops[j], t.ops[i])
    {
      assert PairOrdered(s.ops[i], s.ops[j]) && PairOrdered(s.ops[j], s.ops[i]);
    }
    forall k | 0 <= k < |s.hist.reports| ensures ReportBefore(s.hist.reports[k], t.ops[i]) {
      assert ReportBefore(s.hist.reports[k], s.ops[i]);
    }
    SlotKeeps(s, t, i);
  }

  lemma BeginKeeps(s: Model, t: Model, i: nat)
    requires Timeline(s) && Begins(s, t, i)
    ensures Timeline(t)
    ensures s.now == s.ops[i].startTick
  {
    var a, b := s.ops[i], t.ops[i];
    assert SlotTimed(a, s.now, s.nextSubmit);
    UnitTickBounds(b.startTick, b.finishTick, 0, b.unitCount);
    BusyKeeps(s, t, i);
  }

  lemma ContinueKeeps(s: Model, t: Model, i: nat)
    requires Timeline(s) && Continues(s, t, i)
    ensures Timeline(t)
  {
    var a, b := s.ops[i], t.ops[i];
    assert SlotTimed(a, s.now, s.nextSubmit);
    UnitTickBounds(b.startTick, b.finishTick, b.unitIndex, b.unitCount);
    UnitTickMonotone(a.startTick, a.finishTick, a.unitIndex, a.unitCount);
    BusyKeeps(s, t, i);
  }

  lemma EndKeeps(s: Model, t: Model, i: nat)
    requires Timeline(s) && Ends(s, t, i)
    ensures Timeline(t) && t.now == s.now
  {
    var a, b := s.ops[i], t.ops[i];
    assert SlotTimed(a, s.now, s.nextSubmit);
    UnitTickBounds(a.startTick, a.finishTick, a.unitIndex, a.unitCount);
    assert t.now == s.now;
    if b.state.Running? {
      BusyKeeps(s, t, i);
    } else {
      forall j | 0 <= j < |s.ops| && j != i
        ensures PairOrdered(t.ops[i], s.ops[j]) && PairOrdered(s.ops[j], t.ops[i])
      {
        assert PairOrdered(s.ops[i], s.ops[j]) && PairOrdered(s.ops[j], s.ops[i]);
        ForemostDue(s, i, j);
      }
      forall k | 0 <= k < |s.hist.reports| ensures ReportBefore(s.hist.reports[k], t.ops[i]) {
        assert ReportBefore(s.hist.reports[k], s.ops[i]);
      }
      SlotKeeps(s, t, i);
    }
  }

  lemma ReportKeeps(s: Model, t: Model, i: nat)
    requires Timeline(s) && Reports(s, t, i)
    ensures Timeline(t)
  {
    var c := s.ops[i].completion;
    assert SlotTimed(s.ops[i], s.now, s.nextSubmit);
    forall k | 0 <= k < |s.hist.reports| ensures ReportLess(s.hist.reports[k], c) {
      assert ReportBefore(s.hist.reports[k], s.ops[i]);
    }
    forall k, j | 0 <= k < |t.hist.reports| && 0 <= j < |t.ops| ensures ReportBefore(t.hist.reports[k], t.ops[j]) {
      if j != i {
        if k < |s.hist.reports| {
          assert ReportBefore(s.hist.reports[k], s.ops[j]);
        } else {
          assert PairOrdered(s.ops[i], s.ops[j]) && SlotTimed(s.ops[j], s.now, s.nextSubmit);
        }
      }
    }
    forall j, k | 0 <= j < |t.ops| && 0 <= k < |t.ops| && j != k ensures PairOrdered(t.ops[j], t.ops[k]) {
      if j != i && k != i {
        assert PairOrdered(s.ops[j], s.ops[k]);
      }
    }
  }
}
