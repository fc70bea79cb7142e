/**
 Runs whose priorities do not invert submission order, either between any two operations or only
 between programs that carry one token.  Between related operations the scheduler then follows
 submission order, and two of them never run on one plane at once.
 */
module NfcInOrder {
  import opened NfcTypes
  import opened NfcModel
  import opened NfcTimeline
  import opened NfcLedger
  import opened NfcExclusion
  import opened NfcData

  /** Two programs of one cache token. */
  predicate SameToken(r: Request, q: Request)
  {
    r.kind == PROGRAM_EXECUTE && q.kind == PROGRAM_EXECUTE && r.cache == q.cache
  }

  /** The pairs whose order is watched: all of them, or only programs of one token. */
  predicate Related(all: bool, r: Request, q: Request) { all || SameToken(r, q) }

  predicate PriorityKept(all: bool, a: Op, b: Op)
  {
    a.state.Queued? && b.state.Queued? && a.submitSequence < b.submitSequence && Related(all, a.request, b.request) ==>
      a.request.priority <= b.request.priority
  }

  ghost predicate QueueSorted(s: Model, all: bool)
  {
    forall i, j :: 0 <= i < |s.ops| && 0 <= j < |s.ops| ==> PriorityKept(all, s.ops[i], s.ops[j])
  }

  ghost predicate RelatedTo(s: Model, all: bool, sequence: nat, r: Request)
  {
    sequence in s.hist.accepted && Related(all, s.hist.accepted[sequence].request, r)
  }

  /** What is queued was submitted after everything related that is already scheduled. */
  ghost predicate QueueLast(s: Model, all: bool)
  {
    forall i, a ::
      (0 <= i < |s.ops| && s.ops[i].state.Queued? && a in s.hist.reserved && RelatedTo(s, all, a, s.ops[i].request)) ==>
        a < s.ops[i].submitSequence
  }

  predicate Precedes(a: Reservation, b: Reservation) { a.plane == b.plane && a.finish <= b.start }

  /** On each plane related reservations follow submission order. */
  ghost predicate PlanesInOrder(s: Model, all: bool)
  {
    forall a, b ::
      (a in s.hist.reserved && b in s.hist.reserved && a != b && b in s.hist.accepted
       && RelatedTo(s, all, a, s.hist.accepted[b].request)
       && Precedes(s.hist.reserved[a], s.hist.reserved[b])) ==> a < b
  }

  ghost predicate Sorted(s: Model, all: bool)
  {
    QueueSorted(s, all) && QueueLast(s, all) && PlanesInOrder(s, all)
  }

  /** The condition on a submission: nothing related waits in the queue with a larger priority number. */
  ghost predicate NotInverting(s: Model, all: bool, r: Request)
  {
    forall i :: 0 <= i < |s.ops| && s.ops[i].state.Queued? && Related(all, s.ops[i].request, r) ==>
                s.ops[i].request.priority <= r.priority
  }

  ghost predicate SortedQuiet(s: Model, t: Model)
  {
    && |t.ops| == |s.ops| && t.hist.reserved == s.hist.reserved && t.hist.accepted == s.hist.accepted
    && forall i :: 0 <= i < |s.ops| && t.ops[i].state.Queued? ==>
         s.ops[i].state.Queued? && t.ops[i].submitSequence == s.ops[i].submitSequence
         && t.ops[i].request == s.ops[i].request
  }

  lemma SortedQuietKeeps(s: Model, t: Model, all: bool)
    requires Sorted(s, all) && SortedQuiet(s, t)
    ensures Sorted(t, all)
  {
    forall i, j | 0 <= i < |t.ops| && 0 <= j < |t.ops| ensures PriorityKept(all, t.ops[i], t.ops[j]) {
      assert PriorityKept(all, s.ops[i], s.ops[j]);
    }
    forall i, a | 0 <= i < |t.ops| && t.ops[i].state.Queued? && a in t.hist.reserved
      && RelatedTo(t, all, a, t.ops[i].request)
      ensures a < t.ops[i].submitSequence
    {
      assert RelatedTo(s, all, a, s.ops[i].request);
    }
    forall a, b | a in t.hist.reserved && b in t.hist.reserved && a != b && b in t.hist.accepted
                  && RelatedTo(t, all, a, t.hist.accepted[b].request)
                  && Precedes(t.hist.reserved[a], t.hist.reserved[b])
      ensures a < b
    {
      assert RelatedTo(s, all, a, s.hist.accepted[b].request);
    }
  }

  lemma SortedAcceptKeeps(s: Model, t: Model, i: nat, all: bool, entry: Acceptance)
    requires Sorted(s, all) && Exclusion(s) && SlotsTimed(s) && PlanAccepts(s, t, i)
    requires NotInverting(s, all, t.ops[i].request)
    requires t.hist.accepted == s.hist.accepted[s.nextSubmit := entry]
    ensures Sorted(t, all)
  {
    forall j, k | 0 <= j < |t.ops| && 0 <= k < |t.ops| ensures PriorityKept(all, t.ops[j], t.ops[k]) {
      assert PriorityKept(all, s.ops[j], s.ops[k]);
      assert SlotTimed(s.ops[j], s.now, s.nextSubmit) && SlotTimed(s.ops[k], s.now, s.nextSubmit);
    }
    forall j, a | 0 <= j < |t.ops| && t.ops[j].state.Queued? && a in t.hist.reserved
      && RelatedTo(t, all, a, t.ops[j].request)
      ensures a < t.ops[j].submitSequence
    {
      assert a < s.nextSubmit;
      assert j != i ==> RelatedTo(s, all, a, s.ops[j].request);
    }
    forall a, b | a in t.hist.reserved && b in t.hist.reserved && a != b && b in t.hist.accepted
                  && RelatedTo(t, all, a, t.hist.accepted[b].request)
                  && Precedes(t.hist.reserved[a], t.hist.reserved[b])
      ensures a < b
    {
      assert a < s.nextSubmit && b < s.nextSubmit;
      assert RelatedTo(s, all, a, s.hist.accepted[b].request);
    }
  }

  /** Among related operations the foremost queued one is the oldest. */
  lemma ForemostOldest(s: Model, i: nat, j: nat, all: bool)
    requires Sorted(s, all) && PairsOrdered(s) && Foremost(s.ops, |s.ops|, i) && i < |s.ops| && j < |s.ops| && i != j
    requires s.ops[i].state.Queued? && s.ops[j].state.Queued? && Related(all, s.ops[i].request, s.ops[j].request)
    ensures s.ops[i].submitSequence < s.ops[j].submitSequence
  {
    assert OperationLess(s.ops[i], i, s.ops[j], j) && PairOrdered(s.ops[i], s.ops[j]);
    assert PriorityKept(all, s.ops[j], s.ops[i]);
  }

  lemma SortedReserveKeeps(s: Model, t: Model, i: nat, v: Reservation, all: bool)
    requires Sorted(s, all) && Exclusion(s) && Covered(s) && PairsOrdered(s) && t.hist.accepted == s.hist.accepted
    requires Foremost(s.ops, |s.ops|, i) && PlanReserves(s, t, i, v) && TailsReserve(s, t, v)
    requires SlotLedger(s, s.ops[i])
    ensures Sorted(t, all)
  {
    var n := s.ops[i].submitSequence;
    forall j, k | 0 <= j < |t.ops| && 0 <= k < |t.ops| ensures PriorityKept(all, t.ops[j], t.ops[k]) {
      assert PriorityKept(all, s.ops[j], s.ops[k]);
    }
    forall j, a | 0 <= j < |t.ops| && t.ops[j].state.Queued? && a in t.hist.reserved
      && RelatedTo(t, all, a, t.ops[j].request)
      ensures a < t.ops[j].submitSequence
    {
      if a == n { ForemostOldest(s, i, j, all); } else { assert RelatedTo(s, all, a, s.ops[j].request); }
    }
    forall b | b in s.hist.reserved ensures !Precedes(v, s.hist.reserved[b]) {
      assert CoveredBy(s, s.hist.reserved[b]) && WellPlaced(s, s.hist.reserved[b]);
    }
    ReservedInOrder(s, t, i, v, all);
  }

  lemma ReservedInOrder(s: Model, t: Model, i: nat, v: Reservation, all: bool)
    requires QueueLast(s, all) && PlanesInOrder(s, all) && i < |s.ops| && s.ops[i].state.Queued?
    requires SlotLedger(s, s.ops[i])
    requires t.hist.reserved == s.hist.reserved[s.ops[i].submitSequence := v] && t.hist.accepted == s.hist.accepted
    requires forall b :: b in s.hist.reserved ==> !Precedes(v, s.hist.reserved[b])
    ensures PlanesInOrder(t, all)
  {
    var n := s.ops[i].submitSequence;
    forall a, b | a in t.hist.reserved && b in t.hist.reserved && a != b && b in t.hist.accepted
                  && RelatedTo(t, all, a, t.hist.accepted[b].request)
                  && Precedes(t.hist.reserved[a], t.hist.reserved[b])
      ensures a < b
    {
      assert RelatedTo(s, all, a, s.hist.accepted[b].request);
      assert b == n ==> RelatedTo(s, all, a, s.ops[i].request);
    }
  }

  /** Two related operations never run on one plane. */
  ghost predicate RunApart(s: Model, all: bool)
  {
    forall i, j :: 0 <= i < |s.ops| && 0 <= j < |s.ops| && i != j && s.ops[i].state.Running? && s.ops[j].state.Running?
                   && Related(all, s.ops[i].request, s.ops[j].request) ==>
                   !(&& PpaValid(s.cfg.geometry, s.ops[i].request.ppa) && PpaValid(s.cfg.geometry, s.ops[j].request.ppa)
                     && PlaneIndex(s.cfg.geometry, s.ops[i].request.ppa)
                       == PlaneIndex(s.cfg.geometry, s.ops[j].request.ppa))
  }

  /** In order, no two related operations run on one plane. */
  lemma InOrderRunApart(s: Model, all: bool)
    requires Sorted(s, all) && Exclusion(s) && Timeline(s) && Ledger(s)
    ensures RunApart(s, all)
  {
    forall i, j | 0 <= i < |s.ops| && 0 <= j < |s.ops| && i != j && s.ops[i].state.Running? && s.ops[j].state.Running?
                  && Related(all, s.ops[i].request, s.ops[j].request)
                  && PpaValid(s.cfg.geometry, s.ops[i].request.ppa) && PpaValid(s.cfg.geometry, s.ops[j].request.ppa)
      ensures PlaneIndex(s.cfg.geometry, s.ops[i].request.ppa) != PlaneIndex(s.cfg.geometry, s.ops[j].request.ppa)
    {
      var a, b := s.ops[i], s.ops[j];
      assert SlotReserved(s, a) && SlotReserved(s, b) && PairOrdered(a, b) && SlotLedger(s, a) && SlotLedger(s, b);
      assert RelatedTo(s, all, a.submitSequence, b.request) && RelatedTo(s, all, b.submitSequence, a.request);
      var v, w := s.hist.reserved[a.submitSequence], s.hist.reserved[b.submitSequence];
      assert Precedes(v, w) ==> a.submitSequence < b.submitSequence;
      assert Precedes(w, v) ==> b.submitSequence < a.submitSequence;
      if PlaneIndex(s.cfg.geometry, a.request.ppa) == PlaneIndex(s.cfg.geometry, b.request.ppa) {
        OverlapAtBoundary(s, i, j);
      }
    }
  }

  // ---------------------------------------------------------------- tokens

  /** Two legal programs of one plane and generation carry the same token. */
  lemma OneToken(s: Model, a: Op, b: Op)
    requires SlotData(s, a) && SlotData(s, b) && LegalProgram(a) && LegalProgram(b)
    requires PlaneIndex(s.cfg.geometry, a.request.ppa) == PlaneIndex(s.cfg.geometry, b.request.ppa)
    requires a.request.cache.generation == b.request.cache.generation
    ensures SameToken(a.request, b.request)
  {
  }

  lemma OnceEffectKeeps(s: Model, t: Model, i: nat, e: Effect, all: bool)
    requires Once(s) && RunApart(s, all) && OnceEffect(s, t, i, e)
    requires forall j :: 0 <= j < |s.ops| ==> SlotData(s, s.ops[j])
    ensures Once(t)
  {
    assert SlotUnspent(s, s.ops[i]) && SlotData(s, s.ops[i]);
    forall j | 0 <= j < |t.ops| ensures SlotUnspent(t, t.ops[j]) {
      assert SlotUnspent(s, s.ops[j]) && SlotData(s, s.ops[j]);
      if j != i && LegalProgram(t.ops[j]) {
        OtherToken(s, i, j, e, all);
      }
    }
  }

  lemma OtherToken(s: Model, i: nat, j: nat, e: Effect, all: bool)
    requires RunApart(s, all) && i < |s.ops| && j < |s.ops| && i != j && SlotData(s, s.ops[i]) && SlotData(s, s.ops[j])
    requires LegalProgram(s.ops[j]) && s.ops[i].state.Running? && PpaValid(s.cfg.geometry, s.ops[i].request.ppa)
    requires UsesToken(e) ==> e.plane == PlaneIndex(s.cfg.geometry, s.ops[i].request.ppa)
    requires e.Programmed? ==> LegalProgram(s.ops[i]) && e.generation == s.ops[i].request.cache.generation
    requires e.Delivered? ==> MintedRead(s, e.plane, e.generation)
    ensures !Uses(e, PlaneIndex(s.cfg.geometry, s.ops[j].request.ppa), s.ops[j].request.cache.generation)
  {
    if Uses(e, PlaneIndex(s.cfg.geometry, s.ops[j].request.ppa), s.ops[j].request.cache.generation) {
      if e.Programmed? { OneToken(s, s.ops[i], s.ops[j]); }
    }
  }
}
