/**
 Exclusive use of planes, channels and array lanes.  Every reservation the scheduler
 made is kept; two that share a resource never overlap.
 */
module NfcExclusion {
  import opened NfcTypes
  import opened NfcModel
  import opened NfcTimeline

  // ---------------------------------------------------------------- addressing

  /** Distinct plane addresses have distinct indices. */
  lemma PlaneIndexInjective(g: Geometry, p: Ppa, q: Ppa)
    requires PpaValid(g, p) && PpaValid(g, q) && PlaneIndex(g, p) == PlaneIndex(g, q)
    ensures p.channel == q.channel && p.lun == q.lun && p.plane == q.plane
  {
    RadixInjective(LunIndex(g, p), p.plane, LunIndex(g, q), q.plane, g.planesPerLun);
    RadixInjective(p.channel, p.lun, q.channel, q.lun, g.lunsPerChannel);
  }

  lemma RadixInjective(high: nat, low: nat, high': nat, low': nat, radix: nat)
    requires low < radix && low' < radix && high * radix + low == high' * radix + low'
    ensures high == high' && low == low'
  {
    assert high < high' ==> (high + 1) * radix <= high' * radix;
    assert high' < high ==> (high' + 1) * radix <= high * radix;
  }

  // ---------------------------------------------------------------- the invariant

  predicate Disjoint(a: Reservation, b: Reservation)
  {
    a.finish <= b.start || b.finish <= a.start
  }

  predicate Compatible(a: Reservation, b: Reservation)
  {
    && (a.plane == b.plane ==> Disjoint(a, b))
    && (a.channel == b.channel && a.transfer && b.transfer ==> Disjoint(a, b))
    && (a.lane == b.lane && !a.transfer && !b.transfer ==> Disjoint(a, b))
  }

  /** A reservation names resources of the geometry and lies inside the tick limit. */
  ghost predicate WellPlaced(s: Model, v: Reservation)
  {
    && v.start < v.finish
    && v.plane < |s.cacheTail| && v.channel < |s.channelTail| && v.lane < |s.arrayTail|
    && v.lun * s.cfg.geometry.parallelism <= v.lane < (v.lun + 1) * s.cfg.geometry.parallelism
    && (LimitHolds(s.cfg) ==> v.finish <= s.cfg.capacity.virtualTickLimit)
  }

  /** Every configured duration fits below the tick limit. */
  ghost predicate LimitHolds(cfg: Config)
  {
    forall r: Request :: r.kind <= STATUS && r.regionMask < 4 ==> Duration(cfg, r) <= cfg.capacity.virtualTickLimit
  }

  ghost predicate OnPlane(s: Model, op: Op, plane: nat)
  {
    PpaValid(s.cfg.geometry, op.request.ppa) && PlaneIndex(s.cfg.geometry, op.request.ppa) == plane
  }

  /** A slot agrees with the reservation made for it; a queued one has none yet. */
  ghost predicate SlotReserved(s: Model, op: Op)
  {
    && (op.state.Queued? ==> op.submitSequence !in s.hist.reserved)
    && (Busy(op) || op.state.EventPending? ==>
          && op.submitSequence in s.hist.reserved
          && var v := s.hist.reserved[op.submitSequence];
             v.start == op.startTick && v.finish == op.finishTick && OnPlane(s, op, v.plane))
  }

  /** Two operations run on one plane only if the later one in time was submitted first. */
  predicate OverlapInverted(a: Op, b: Op)
  {
    a.state.Running? && b.state.Running? && a.finishTick <= b.startTick ==> b.submitSequence < a.submitSequence
  }

  ghost predicate OverlapsInverted(s: Model)
  {
    forall i, j :: 0 <= i < |s.ops| && 0 <= j < |s.ops| && i != j && SamePlane(s, s.ops[i], s.ops[j]) ==>
                   OverlapInverted(s.ops[i], s.ops[j])
  }

  ghost predicate SamePlane(s: Model, a: Op, b: Op)
  {
    && a.submitSequence in s.hist.reserved && b.submitSequence in s.hist.reserved
    && s.hist.reserved[a.submitSequence].plane == s.hist.reserved[b.submitSequence].plane
  }

  /** Busy intervals on one plane, one channel or one array lane are pairwise disjoint. */
  ghost predicate NoConflict(reserved: map<nat, Reservation>)
  {
    forall a, b :: a in reserved && b in reserved && a != b ==> Compatible(reserved[a], reserved[b])
  }

  ghost predicate Exclusion(s: Model)
  {
    && (forall a :: a in s.hist.reserved ==> a < s.nextSubmit && WellPlaced(s, s.hist.reserved[a]))
    && NoConflict(s.hist.reserved)
    && (forall i :: 0 <= i < |s.ops| ==> SlotReserved(s, s.ops[i]))
    && OverlapsInverted(s)
    && ReportsPlaced(s)
  }

  /** A reported completion began at the start of its reservation and ended at its finish. */
  ghost predicate ReportPlaced(s: Model, c: Completion)
  {
    && c.submitSequence in s.hist.reserved
    && var v := s.hist.reserved[c.submitSequence];
       c.beginTick == v.start && c.outcomeTick == c.statusTick == v.finish
  }

  ghost predicate ReportsPlaced(s: Model)
  {
    forall k :: 0 <= k < |s.hist.reports| ==> ReportPlaced(s, s.hist.reports[k])
  }

  /** No reservation is withdrawn, and new reports are of slots that are pending. */
  lemma ReportsPlacedKeeps(s: Model, t: Model)
    requires ReportsPlaced(s) && s.hist.reports <= t.hist.reports
    requires forall a :: a in s.hist.reserved ==> a in t.hist.reserved && t.hist.reserved[a] == s.hist.reserved[a]
    requires forall k :: |s.hist.reports| <= k < |t.hist.reports| ==> ReportPlaced(s, t.hist.reports[k])
    ensures ReportsPlaced(t)
  {
    forall k | 0 <= k < |t.hist.reports| ensures ReportPlaced(t, t.hist.reports[k]) {
      if k < |s.hist.reports| {
        assert ReportPlaced(s, s.hist.reports[k]) && s.hist.reports[k] == t.hist.reports[k];
      }
    }
  }

  ghost predicate CoveredBy(s: Model, v: Reservation)
  {
    && (v.plane < |s.cacheTail| ==> v.finish <= s.cacheTail[v.plane])
    && (v.transfer && v.channel < |s.channelTail| ==> v.finish <= s.channelTail[v.channel])
    && (!v.transfer && v.lane < |s.arrayTail| ==> v.finish <= s.arrayTail[v.lane])
  }

  /** The tails are past every reservation; true until a power cut clears them. */
  ghost predicate Covered(s: Model)
  {
    forall a :: a in s.hist.reserved ==> CoveredBy(s, s.hist.reserved[a])
  }

  // ---------------------------------------------------------------- relations

  ghost predicate SameFrame(s: Model, t: Model)
  {
    && t.cfg == s.cfg && t.nextSubmit >= s.nextSubmit && |t.ops| == |s.ops|
    && |t.cacheTail| == |s.cacheTail| && |t.channelTail| == |s.channelTail| && |t.arrayTail| == |s.arrayTail|
  }

  /** The slot is emptied, or keeps its interval and does not start to run. */
  predicate IntervalKept(a: Op, b: Op)
  {
    || b.state.Free?
    || (&& !a.state.Free? && b.submitSequence == a.submitSequence && b.request == a.request
        && b.startTick == a.startTick && b.finishTick == a.finishTick
        && (b.state.Queued? <==> a.state.Queued?) && (b.state.Running? ==> a.state.Running?))
  }

  ghost predicate PlanKept(s: Model, t: Model)
  {
    && SameFrame(s, t) && t.hist.reserved == s.hist.reserved && ReportsFollow(s, t)
    && forall i :: 0 <= i < |s.ops| ==> IntervalKept(s.ops[i], t.ops[i])
  }

  ghost predicate ReportsFollow(s: Model, t: Model)
  {
    && s.hist.reports <= t.hist.reports
    && forall k :: |s.hist.reports| <= k < |t.hist.reports| ==> ReportPlaced(s, t.hist.reports[k])
  }

  ghost predicate SameTails(s: Model, t: Model)
  {
    t.cacheTail == s.cacheTail && t.channelTail == s.channelTail && t.arrayTail == s.arrayTail
  }

  ghost predicate PlanAccepts(s: Model, t: Model, i: nat)
  {
    && SameFrame(s, t) && SlotOnly(s, t, i) && t.hist.reserved == s.hist.reserved && SameReports(s, t)
    && t.ops[i].state.Queued? && t.ops[i].submitSequence == s.nextSubmit < t.nextSubmit
  }

  ghost predicate PlanReserves(s: Model, t: Model, i: nat, v: Reservation)
  {
    && SameFrame(s, t) && SlotOnly(s, t, i) && SameReports(s, t)
    && t.hist.reserved == s.hist.reserved[s.ops[i].submitSequence := v]
    && WellPlaced(s, v) && s.ops[i].submitSequence < s.nextSubmit
    && var a, b := s.ops[i], t.ops[i];
       a.state.Queued? && b.state.Scheduled? && b.submitSequence == a.submitSequence && b.request == a.request
       && b.startTick == v.start && b.finishTick == v.finish && OnPlane(s, b, v.plane)
  }

  ghost predicate TailsReserve(s: Model, t: Model, v: Reservation)
  {
    && WellPlaced(s, v)
    && s.cacheTail[v.plane] <= v.start && t.cacheTail == s.cacheTail[v.plane := v.finish]
    && (if v.transfer then
          s.channelTail[v.channel] <= v.start && t.channelTail == s.channelTail[v.channel := v.finish]
          && t.arrayTail == s.arrayTail
        else
          s.arrayTail[v.lane] <= v.start && t.arrayTail == s.arrayTail[v.lane := v.finish]
          && t.channelTail == s.channelTail)
  }

  // ---------------------------------------------------------------- preservation

  lemma PlacedKept(s: Model, t: Model, v: Reservation)
    requires SameFrame(s, t) && WellPlaced(s, v)
    ensures WellPlaced(t, v)
  {
  }

  lemma PlanKeptKeeps(s: Model, t: Model)
    requires Exclusion(s) && PlanKept(s, t)
    ensures Exclusion(t)
  {
    ReportsPlacedKeeps(s, t);
    forall a | a in t.hist.reserved ensures a < t.nextSubmit && WellPlaced(t, t.hist.reserved[a]) {
      PlacedKept(s, t, s.hist.reserved[a]);
    }
    forall i | 0 <= i < |t.ops| ensures SlotReserved(t, t.ops[i]) {
      assert SlotReserved(s, s.ops[i]) && IntervalKept(s.ops[i], t.ops[i]);
    }
    forall i, j | 0 <= i < |t.ops| && 0 <= j < |t.ops| && i != j && SamePlane(t, t.ops[i], t.ops[j])
      ensures OverlapInverted(t.ops[i], t.ops[j])
    {
      assert IntervalKept(s.ops[i], t.ops[i]) && IntervalKept(s.ops[j], t.ops[j]);
      if t.ops[i].state.Running? && t.ops[j].state.Running? {
        assert SamePlane(s, s.ops[i], s.ops[j]) && OverlapInverted(s.ops[i], s.ops[j]);
      }
    }
  }

  lemma CoveredKeeps(s: Model, t: Model)
    requires Covered(s) && t.hist.reserved == s.hist.reserved && SameTails(s, t)
    ensures Covered(t)
  {
    forall a | a in t.hist.reserved ensures CoveredBy(t, t.hist.reserved[a]) {
      assert CoveredBy(s, s.hist.reserved[a]);
    }
  }

  lemma PlanAcceptKeeps(s: Model, t: Model, i: nat)
    requires Exclusion(s) && PlanAccepts(s, t, i)
    ensures Exclusion(t)
  {
    ReportsPlacedKeeps(s, t);
    forall a | a in t.hist.reserved ensures a < t.nextSubmit && WellPlaced(t, t.hist.reserved[a]) {
      PlacedKept(s, t, s.hist.reserved[a]);
    }
    forall j | 0 <= j < |t.ops| ensures SlotReserved(t, t.ops[j]) {
      assert SlotReserved(s, s.ops[j]);
    }
    forall j, k | 0 <= j < |t.ops| && 0 <= k < |t.ops| && j != k && SamePlane(t, t.ops[j], t.ops[k])
      ensures OverlapInverted(t.ops[j], t.ops[k])
    {
      if j != i && k != i {
        assert SamePlane(s, s.ops[j], s.ops[k]) && OverlapInverted(s.ops[j], s.ops[k]);
      }
    }
  }

  lemma PlanReserveKeeps(s: Model, t: Model, i: nat, v: Reservation)
    requires Exclusion(s) && Covered(s) && PairsOrdered(s) && PlanReserves(s, t, i, v) && TailsReserve(s, t, v)
    ensures Exclusion(t) && Covered(t)
  {
    var n := s.ops[i].submitSequence;
    assert SlotReserved(s, s.ops[i]);
    assert n !in s.hist.reserved;
    forall a | a in t.hist.reserved
      ensures a < t.nextSubmit && WellPlaced(t, t.hist.reserved[a]) && CoveredBy(t, t.hist.reserved[a])
    {
      PlacedKept(s, t, t.hist.reserved[a]);
      if a != n {
        assert CoveredBy(s, s.hist.reserved[a]);
      }
    }
    forall a, b | a in t.hist.reserved && b in t.hist.reserved && a != b
      ensures Compatible(t.hist.reserved[a], t.hist.reserved[b])
    {
      if a == n {
        assert CoveredBy(s, s.hist.reserved[b]);
      } else if b == n {
        assert CoveredBy(s, s.hist.reserved[a]);
      } else {
        assert Compatible(s.hist.reserved[a], s.hist.reserved[b]);
      }
    }
    ReserveSlots(s, t, i, v);
    ReportsPlacedKeeps(s, t);
  }

  lemma ReserveSlots(s: Model, t: Model, i: nat, v: Reservation)
    requires Exclusion(s) && PairsOrdered(s) && PlanReserves(s, t, i, v)
    requires s.ops[i].submitSequence !in s.hist.reserved
    ensures forall j :: 0 <= j < |t.ops| ==> SlotReserved(t, t.ops[j])
    ensures OverlapsInverted(t)
  {
    forall j | 0 <= j < |t.ops| ensures SlotReserved(t, t.ops[j]) {
      assert SlotReserved(s, s.ops[j]);
      if j != i {
        assert PairOrdered(s.ops[i], s.ops[j]);
      }
    }
    forall j, k | 0 <= j < |t.ops| && 0 <= k < |t.ops| && j != k && SamePlane(t, t.ops[j], t.ops[k])
      ensures OverlapInverted(t.ops[j], t.ops[k])
    {
      if t.ops[j].state.Running? && t.ops[k].state.Running? {
        assert SlotReserved(s, s.ops[j]) && SlotReserved(s, s.ops[k]);
        assert SamePlane(s, s.ops[j], s.ops[k]) && OverlapInverted(s.ops[j], s.ops[k]);
      }
    }
  }

  /** Where an operation begins while another still runs on the plane, it overtook it. */
  lemma PlanBeginKeeps(s: Model, t: Model, i: nat)
    requires Exclusion(s) && Timeline(s) && SameFrame(s, t) && t.hist.reserved == s.hist.reserved
    requires Begins(s, t, i) && Foremost(s.ops, |s.ops|, i)
    ensures Exclusion(t)
  {
    ReportsPlacedKeeps(s, t);
    forall a | a in t.hist.reserved ensures a < t.nextSubmit && WellPlaced(t, t.hist.reserved[a]) {
      PlacedKept(s, t, s.hist.reserved[a]);
    }
    forall j | 0 <= j < |t.ops| ensures SlotReserved(t, t.ops[j]) {
      assert SlotReserved(s, s.ops[j]);
    }
    forall j, k | 0 <= j < |t.ops| && 0 <= k < |t.ops| && j != k && SamePlane(t, t.ops[j], t.ops[k])
      ensures OverlapInverted(t.ops[j], t.ops[k])
    {
      assert SamePlane(s, s.ops[j], s.ops[k]);
      if j == i {
        BeginOvertakes(s, i, k);
      } else if k == i {
        BeginOvertakes(s, i, j);
      } else {
        assert OverlapInverted(s.ops[j], s.ops[k]);
      }
    }
  }

  lemma BeginOvertakes(s: Model, i: nat, j: nat)
    requires Exclusion(s) && Timeline(s) && Foremost(s.ops, |s.ops|, i) && i < |s.ops| && j < |s.ops| && i != j
    requires s.ops[i].state.Scheduled? && s.ops[i].nextTick <= s.now && SamePlane(s, s.ops[i], s.ops[j])
    ensures s.ops[j].state.Running? ==>
      && s.ops[i].submitSequence < s.ops[j].submitSequence
      && s.ops[j].finishTick <= s.ops[i].startTick && s.ops[i].startTick < s.ops[i].finishTick
      && s.ops[j].startTick < s.ops[j].finishTick
  {
    var a, b := s.ops[i], s.ops[j];
    if b.state.Running? {
      assert SlotTimed(a, s.now, s.nextSubmit) && SlotTimed(b, s.now, s.nextSubmit);
      assert SlotReserved(s, a) && SlotReserved(s, b) && PairOrdered(a, b);
      assert Compatible(s.hist.reserved[a.submitSequence], s.hist.reserved[b.submitSequence]);
      UnitTickBounds(b.startTick, b.finishTick, DueIndex(b), b.unitCount);
      ForemostDue(s, i, j);
    }
  }

  // ---------------------------------------------------------------- consequences

  /** Running operations that share a plane share one boundary tick, in inverted order. */
  lemma OverlapAtBoundary(s: Model, i: nat, j: nat)
    requires Exclusion(s) && Timeline(s) && i < |s.ops| && j < |s.ops| && i != j
    requires s.ops[i].state.Running? && s.ops[j].state.Running? && SamePlane(s, s.ops[i], s.ops[j])
    ensures || (s.ops[i].finishTick == s.now == s.ops[j].startTick && s.ops[j].submitSequence < s.ops[i].submitSequence)
            || (s.ops[j].finishTick == s.now == s.ops[i].startTick && s.ops[i].submitSequence < s.ops[j].submitSequence)
  {
    var a, b := s.ops[i], s.ops[j];
    assert SlotTimed(a, s.now, s.nextSubmit) && SlotTimed(b, s.now, s.nextSubmit);
    assert SlotReserved(s, a) && SlotReserved(s, b) && PairOrdered(a, b);
    assert Compatible(s.hist.reserved[a.submitSequence], s.hist.reserved[b.submitSequence]);
    UnitTickBounds(a.startTick, a.finishTick, DueIndex(a), a.unitCount);
    UnitTickBounds(b.startTick, b.finishTick, DueIndex(b), b.unitCount);
    assert OverlapInverted(a, b) && OverlapInverted(b, a) && SamePlane(s, b, a);
  }

  /** The array operations of a LUN that are active at a tick. */
  ghost function ActiveInLun(reserved: map<nat, Reservation>, lun: nat, tick: nat): set<nat>
  {
    set a | a in reserved && ActiveAt(reserved[a], lun, tick)
  }

  predicate ActiveAt(v: Reservation, lun: nat, tick: nat)
  {
    !v.transfer && v.lun == lun && v.start <= tick < v.finish
  }

  /** At any tick at most `parallelism` array operations are active in a LUN. */
  lemma LaneOfLun(s: Model, v: Reservation)
    requires WellPlaced(s, v)
    ensures var width := s.cfg.geometry.parallelism; v.lun * width <= v.lane < v.lun * width + width
  {
    var width := s.cfg.geometry.parallelism;
    assert (v.lun + 1) * width == v.lun * width + width;
  }

  lemma LunParallelism(s: Model, lun: nat, tick: nat)
    requires Exclusion(s)
    ensures |ActiveInLun(s.hist.reserved, lun, tick)| <= s.cfg.geometry.parallelism
  {
    var width := s.cfg.geometry.parallelism;
    var active := ActiveInLun(s.hist.reserved, lun, tick);
    forall a | a in active ensures lun * width <= s.hist.reserved[a].lane < lun * width + width {
      LaneOfLun(s, s.hist.reserved[a]);
    }
    forall a, b | a in active && b in active && a != b
      ensures s.hist.reserved[a].lane != s.hist.reserved[b].lane
    {
      assert Compatible(s.hist.reserved[a], s.hist.reserved[b]);
    }
    LanesBound(s.hist.reserved, active, lun * width, width);
  }

  lemma {:induction false} LanesBound(reserved: map<nat, Reservation>, keys: set<nat>, base: nat, width: nat)
    requires forall a :: a in keys ==> a in reserved && base <= reserved[a].lane < base + width
    requires forall a, b :: a in keys && b in keys && a != b ==> reserved[a].lane != reserved[b].lane
    ensures |keys| <= width
    decreases width
  {
    if keys != {} {
      var a :| a in keys;
      var top := base + width - 1;
      if exists b :: b in keys && reserved[b].lane == top {
        var b :| b in keys && reserved[b].lane == top;
        LanesBound(reserved, keys - {b}, base, width - 1);
      } else {
        LanesBound(reserved, keys, base, width - 1);
      }
    }
  }
}
