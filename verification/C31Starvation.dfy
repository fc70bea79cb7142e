/**
 Work that no scan comes to.  With two commands in the core the second scan at the latest finds the work
 there is; with a third one a run leads to a core whose scan returns to its start forever.
 */
module C31Starvation {
  import opened Bytes
  import opened C31Types
  import opened C31Model
  import opened C31Invariant
  import opened C31Theorems
  import opened C31Reach
  import opened C31Scan

  /** What the first of up to `more + 1` scans that finds anything finds. */
  function Scans(slots: seq<Slot>, cursor: nat, more: nat): Option<nat>
    decreases more
  {
    var (next, found) := Scan(slots, cursor, 0);
    if found.Some? || more == 0 then found else Scans(slots, next, more - 1)
  }

  /** If there is work some number of scans finds some. */
  ghost predicate Served(s: Core)
  {
    HasWork(s.slots) ==> exists more :: Scans(s.slots, s.commandCursor, more).Some?
  }

  /** That is so in every reachable core. */
  ghost predicate NeverStarves(cap: Capacity)
    requires CapacityValid(cap)
  {
    forall nonce, hasDma, hasNfc, run :: Served(Exec(Initial(cap, nonce, hasDma, hasNfc), run))
  }

  // ---------------------------------------------------------------- two commands

  /** No slots but these two are in use. */
  predicate OnlyThese(slots: seq<Slot>, i: nat, a: nat)
  {
    forall j :: 0 <= j < |slots| && slots[j].inUse ==> j == i || j == a
  }

  /** A scan that finds nothing saw only free slots, or leaves the cursor behind the slot without work. */
  lemma {:induction false} ScanLeaves(slots: seq<Slot>, cursor: nat, scanned: nat, i: nat, a: nat)
    requires scanned <= |slots| && i < |slots| && a < |slots| && Workable(slots[i]) && OnlyThese(slots, i, a)
    requires Scan(slots, cursor, scanned).1.None?
    ensures || Scan(slots, cursor, scanned).0 == Wrap(a + 1, |slots|)
            || (forall d :: scanned <= d < |slots| ==> !Probed(slots, cursor, d).inUse)
    ensures cursor == Wrap(a + 1, |slots|) ==> Scan(slots, cursor, scanned).0 == cursor
    decreases |slots| - scanned
  {
    if scanned < |slots| {
      var index := Wrap(cursor + scanned, |slots|);
      if slots[index].inUse {
        ScanLeaves(slots, Wrap(index + 1, |slots|), scanned + 1, i, a);
      } else {
        ScanLeaves(slots, cursor, scanned + 1, i, a);
      }
    }
  }

  /** From behind the slot without work the scan comes to the other one over free slots alone. */
  lemma FoundFromBehind(slots: seq<Slot>, i: nat, a: nat)
    requires i < |slots| && a < |slots| && i != a && Workable(slots[i]) && OnlyThese(slots, i, a)
    ensures Scan(slots, Wrap(a + 1, |slots|), 0).1 == Some(i)
  {
    var n := |slots|;
    var c := Wrap(a + 1, n);
    var d := Reaches(c, n, i);
    assert Wrap(c + (n - 1), n) == a;
    forall e | 0 <= e < d ensures !Probed(slots, c, e).inUse {
      Distinct(c, e, d, n);
      Distinct(c, e, n - 1, n);
    }
    ScanFindsNext(slots, c, 0, d);
  }

  /** Of two commands the second scan at the latest finds one with work. */
  lemma SecondScanFinds(slots: seq<Slot>, cursor: nat, i: nat, a: nat)
    requires i < |slots| && a < |slots| && i != a && Workable(slots[i]) && OnlyThese(slots, i, a)
    ensures Scans(slots, cursor, 1).Some?
  {
    var (next, found) := Scan(slots, cursor, 0);
    if found.None? {
      ScanLeaves(slots, cursor, 0, i, a);
      var d := Reaches(cursor, |slots|, i);
      assert Probed(slots, cursor, d) == slots[i];
      FoundFromBehind(slots, i, a);
      assert Scans(slots, cursor, 1) == Scans(slots, next, 0);
    }
  }

  lemma AtMostTwo(s: Core, i: nat, j: nat, k: nat)
    requires Inv(s) && (s.cap.commands <= 2 || s.cap.commandUidLimit <= 2)
    requires i < |s.slots| && j < |s.slots| && k < |s.slots| && s.slots[i].inUse && s.slots[j].inUse && s.slots[k].inUse
    ensures i == j || j == k || i == k
  {
    assert Owns(s, i) && Owns(s, j) && Owns(s, k);
  }

  /** A core that can hold no more than two commands finds its work with the second scan at the latest. */
  lemma TwoServe(s: Core)
    requires Inv(s) && (s.cap.commands <= 2 || s.cap.commandUidLimit <= 2) && HasWork(s.slots)
    ensures Scans(s.slots, s.commandCursor, 1).Some?
  {
    var i :| 0 <= i < |s.slots| && Workable(s.slots[i]);
    if exists a :: 0 <= a < |s.slots| && a != i && s.slots[a].inUse {
      var a :| 0 <= a < |s.slots| && a != i && s.slots[a].inUse;
      forall j | 0 <= j < |s.slots| && s.slots[j].inUse ensures j == i || j == a { AtMostTwo(s, i, a, j); }
      SecondScanFinds(s.slots, s.commandCursor, i, a);
    } else {
      LoneFound(s.slots, s.commandCursor, i);
    }
  }

  // ---------------------------------------------------------------- the third command

  /** The first two commands run, the third has work, the rest are free. */
  predicate Passing(slots: seq<Slot>)
  {
    && 3 <= |slots| && slots[0].inUse && slots[0].state.Running? && slots[1].inUse && slots[1].state.Running?
    && Workable(slots[2]) && forall k :: 3 <= k < |slots| ==> !slots[k].inUse
  }

  /** A scan from the second slot goes past the third, comes to the first twice and returns to its start. */
  lemma ScanReturns(slots: seq<Slot>)
    requires Passing(slots)
    ensures Scan(slots, 1, 0) == (1, None)
  {
    assert Wrap(1 + 0, |slots|) == 1 && Wrap(1 + 1, |slots|) == 2;
    assert Scan(slots, 1, 0) == Scan(slots, 2, 1);
    PassesOn(slots, 1);
  }

  lemma {:induction false} PassesOn(slots: seq<Slot>, scanned: nat)
    requires Passing(slots) && 1 <= scanned <= |slots| - 2
    ensures Scan(slots, 2, scanned) == (1, None)
    decreases |slots| - scanned
  {
    var n := |slots|;
    if scanned < n - 2 {
      assert Wrap(2 + scanned, n) == 2 + scanned;
      PassesOn(slots, scanned + 1);
    } else {
      assert Wrap(2 + scanned, n) == 0 && Wrap(0 + 1, n) == 1 && Wrap(1 + (n - 1), n) == 0;
      assert Scan(slots, 2, scanned) == Scan(slots, 1, n - 1);
      assert Scan(slots, 1, n - 1) == Scan(slots, 1, n);
    }
  }

  ghost predicate Starving(s: Core)
  {
    Shaped(s) && s.phase.Ready? && s.commandCursor == 1 && Passing(s.slots)
  }

  lemma {:induction false} ScansStarve(slots: seq<Slot>, more: nat)
    requires Passing(slots)
    ensures Scans(slots, 1, more).None?
    decreases more
  {
    ScanReturns(slots);
    if more > 0 { ScansStarve(slots, more - 1); }
  }

  predicate NoReport(answers: seq<UnitAnswer>)
  {
    forall k :: 0 <= k < |answers| ==> answers[k].poll.ok && answers[k].poll.count == 0
  }

  /** A unit in which no provider reports leaves every command where it is. */
  lemma UnitStarves(s: Core, answer: UnitAnswer)
    requires Starving(s) && answer.poll.ok && answer.poll.count == 0
    ensures StepUnit(s, answer) == Turned(s)
  {
    ScanReturns(s.slots);
    assert PollProvider(Turned(s), TurnKind(s), answer.poll) == (Turned(s), Ok, false);
    assert Progress(Turned(s), answer) == (Turned(s), false);
  }

  lemma {:induction false} StepStarves(s: Core, answers: seq<UnitAnswer>)
    requires Starving(s) && NoReport(answers)
    ensures Starving(StepLoop(s, answers)) && StepLoop(s, answers).slots == s.slots
    decreases |answers|
  {
    if answers != [] {
      UnitStarves(s, answers[0]);
      StepStarves(Turned(s), answers[1..]);
    }
  }

  // ---------------------------------------------------------------- the run

  /** A calm unit whose scan finds nothing only moves the cursor. */
  lemma IdleNext(o: Core, s: Core, cap: Capacity, uid: nat, log: nat, cursor: nat, next: nat) returns (t: Core)
    requires CapacityValid(cap) && Shaped(o) && Leads(o, s) && Bench(s, cap, uid, log, cursor)
    requires Scan(s.slots, cursor, 0) == (next, None)
    ensures Leads(o, t) && Bench(t, cap, uid, log, next) && t.slots == s.slots
  {
    CalmUnit(s);
    LeadsOn(o, s, DoStep([CALM]));
    t := Progress(Turned(s), CALM).0;
  }

  lemma RunIntoStarvation(cap: Capacity, d: Descriptor, nonce: nat) returns (s: Core)
    requires Dma(d) && CapacityValid(cap) && 3 <= cap.commands && 3 <= cap.commandUidLimit
    ensures Leads(Initial(cap, nonce, true, false), s) && Starving(s)
  {
    var o := Initial(cap, nonce, true, false);
    LeadsHere(o);
    s := SubmitNext(o, o, cap, d, 0, 1, 0);
    s := FirstRuns(o, s, cap, d);
    s := SecondRuns(o, s, cap, d);
    s := ThirdWaits(o, s, cap, d);
  }

  /** The second command is dispatched, skipped once, and taken by its provider. */
  lemma SecondRuns(o: Core, s: Core, cap: Capacity, d: Descriptor) returns (t: Core)
    requires Dma(d) && CapacityValid(cap) && 3 <= cap.commands && 2 <= cap.commandUidLimit && Shaped(o) && Leads(o, s)
    requires Bench(s, cap, 1, 6, 1) && InState(s.slots[0], d, Running) && FreshFrom(s.slots, 1)
    ensures Leads(o, t) && Bench(t, cap, 2, 11, 2) && FreshFrom(t.slots, 2)
    ensures InState(t.slots[0], d, Running) && InState(t.slots[1], d, Running)
  {
    var u := SubmitNext(o, s, cap, d, 1, 6, 1);
    assert u.slots[..1][0] == s.slots[..1][0];
    ScanFindsNext(u.slots, 1, 0, 0);
    var v := UnitNext(o, u, cap, d, 1, 2, 7, 1, 2, Accepted);
    ScanSkips(v.slots);
    var w := IdleNext(o, v, cap, 2, 9, 2, 1);
    ScanFindsNext(w.slots, 1, 0, 0);
    t := UnitNext(o, w, cap, d, 1, 2, 9, 1, 2, Dispatched);
  }

  /** One more unit puts the cursor behind the first slot; whatever is submitted then waits for good. */
  lemma ThirdWaits(o: Core, s: Core, cap: Capacity, d: Descriptor) returns (t: Core)
    requires Dma(d) && CapacityValid(cap) && 3 <= cap.commands && 3 <= cap.commandUidLimit && Shaped(o) && Leads(o, s)
    requires Bench(s, cap, 2, 11, 2) && FreshFrom(s.slots, 2)
    requires InState(s.slots[0], d, Running) && InState(s.slots[1], d, Running)
    ensures Leads(o, t) && Starving(t)
  {
    ScanSkips(s.slots);
    var u := IdleNext(o, s, cap, 2, 11, 2, 1);
    t := SubmitNext(o, u, cap, d, 2, 11, 1);
    assert t.slots[..2][0] == u.slots[..2][0] && t.slots[..2][1] == u.slots[..2][1];
  }

  // ---------------------------------------------------------------- exactly when

  /** Whatever is answered, short of a report, a step of any length leaves every command as it is. */
  ghost predicate Stuck(s: Core)
    requires Shaped(s)
  {
    forall answers :: NoReport(answers) ==> Act(s, DoStep(answers)).slots == s.slots
  }

  /** Where three commands fit a run leads to a core with work that no number of units without a report ever does. */
  lemma ScanStarves(cap: Capacity, nonce: nat)
    requires CapacityValid(cap) && 3 <= cap.commands && 3 <= cap.commandUidLimit
    ensures exists run ::
      var s := Exec(Initial(cap, nonce, true, false), run); HasWork(s.slots) && Stuck(s) && !Served(s)
  {
    var s := RunIntoStarvation(cap, TRANSFER, nonce);
    forall answers | NoReport(answers) ensures Act(s, DoStep(answers)).slots == s.slots { StepStarves(s, answers); }
    forall more ensures Scans(s.slots, s.commandCursor, more).None? { ScansStarve(s.slots, more); }
    assert Workable(s.slots[2]) && Stuck(s) && !Served(s);
    var run :| s == Exec(Initial(cap, nonce, true, false), run);
    assert HasWork(Exec(Initial(cap, nonce, true, false), run).slots);
  }

  /** No reachable core starves exactly when the core can never hold three commands. */
  lemma NeverStarvesExactly(cap: Capacity)
    requires CapacityValid(cap)
    ensures NeverStarves(cap) <==> cap.commands <= 2 || cap.commandUidLimit <= 2
  {
    if cap.commands <= 2 || cap.commandUidLimit <= 2 {
      forall nonce, hasDma, hasNfc, run ensures Served(Exec(Initial(cap, nonce, hasDma, hasNfc), run)) {
        RunServes(cap, nonce, hasDma, hasNfc, run);
      }
    } else {
      ScanStarves(cap, 1);
      var run :| !Served(Exec(Initial(cap, 1, true, false), run));
    }
  }

  lemma RunServes(cap: Capacity, nonce: nat, hasDma: bool, hasNfc: bool, run: seq<Action>)
    requires CapacityValid(cap) && (cap.commands <= 2 || cap.commandUidLimit <= 2)
    ensures Served(Exec(Initial(cap, nonce, hasDma, hasNfc), run))
  {
    var o := Initial(cap, nonce, hasDma, hasNfc);
    InitialInv(cap, nonce, hasDma, hasNfc);
    RunKeeps(o, run);
    if HasWork(Exec(o, run).slots) { TwoServe(Exec(o, run)); }
  }
}
