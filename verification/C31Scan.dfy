/** The scan for work counts from a cursor that it moves: when it finds the work there is, and when it does not. */
module C31Scan {
  import opened Bytes
  import opened C31Types
  import opened C31Model
  import opened C31Invariant
  import opened C31Steps
  import opened C31Theorems
  import opened C31Reach

  predicate Workable(slot: Slot) { slot.inUse && Actionable(slot) }

  predicate HasWork(slots: seq<Slot>) { exists i :: 0 <= i < |slots| && Workable(slots[i]) }

  function Probed(slots: seq<Slot>, start: nat, d: nat): Slot
    requires |slots| > 0
  {
    slots[Wrap(start + d, |slots|)]
  }

  // ---------------------------------------------------------------- a saved start

  /** A scan from a saved start, which the probes count from throughout. */
  function SavedScan(slots: seq<Slot>, start: nat, scanned: nat): (r: Option<nat>)
    requires scanned <= |slots|
    decreases |slots| - scanned
  {
    if scanned == |slots| then None
    else
      var index := Wrap(start + scanned, |slots|);
      if Workable(slots[index]) then Some(index) else SavedScan(slots, start, scanned + 1)
  }

  /** Every slot is some number of places behind any start. */
  lemma Reaches(start: nat, n: nat, i: nat) returns (d: nat)
    requires i < n
    ensures d < n && Wrap(start + d, n) == i
  {
    var q, c := start / n, start % n;
    d := if c <= i then i - c else i - c + n;
    var turns := if c <= i then q else q + 1;
    assert turns * n == q * n + if c <= i then 0 else n;
    UniqueRemainder(start + d, n, turns, i);
  }

  /** Two probes of one round are different places. */
  lemma Distinct(start: nat, d: nat, e: nat, n: nat)
    requires d < e < n
    ensures Wrap(start + d, n) != Wrap(start + e, n)
  {
    var q, p := (start + d) / n, (start + e) / n;
    var turns := p - q;
    assert e - d == turns * n + ((start + e) % n - (start + d) % n);
    assert turns >= 1 ==> turns * n >= n;
    assert turns <= 0 ==> turns * n <= 0;
  }

  /** Such a scan would miss no work. */
  lemma SavedScanConserves(slots: seq<Slot>, start: nat)
    requires |slots| > 0
    ensures SavedScan(slots, start, 0).Some? <==> HasWork(slots)
  {
    SavedScanFinds(slots, start, 0);
    if HasWork(slots) {
      var i :| 0 <= i < |slots| && Workable(slots[i]);
      var d := Reaches(start, |slots|, i);
      assert Probed(slots, start, d) == slots[i];
    }
  }

  lemma {:induction false} SavedScanFinds(slots: seq<Slot>, start: nat, scanned: nat)
    requires scanned <= |slots|
    ensures var r := SavedScan(slots, start, scanned);
      if r.Some? then r.value < |slots| && Workable(slots[r.value])
      else forall d :: scanned <= d < |slots| ==> !Workable(Probed(slots, start, d))
    decreases |slots| - scanned
  {
    if scanned < |slots| {
      SavedScanFinds(slots, start, scanned + 1);
      assert Probed(slots, start, scanned) == slots[Wrap(start + scanned, |slots|)];
    }
  }

  // ---------------------------------------------------------------- the moving start

  /** A scan that reaches a slot in use over free slots alone takes its work, and leaves the cursor behind it. */
  lemma {:induction false} ScanFindsNext(slots: seq<Slot>, cursor: nat, scanned: nat, d: nat)
    requires scanned <= d < |slots|
    requires forall e :: scanned <= e < d ==> !Probed(slots, cursor, e).inUse
    requires Probed(slots, cursor, d).inUse
    ensures Actionable(Probed(slots, cursor, d)) ==>
              var i := Wrap(cursor + d, |slots|); Scan(slots, cursor, scanned) == (Wrap(i + 1, |slots|), Some(i))
    decreases d - scanned
  {
    assert Probed(slots, cursor, scanned) == slots[Wrap(cursor + scanned, |slots|)];
    if scanned < d { ScanFindsNext(slots, cursor, scanned + 1, d); }
  }

  /** Only the first slot is in use besides the second, and it has nothing to do. */
  predicate Passed(slots: seq<Slot>)
  {
    && |slots| >= 2 && slots[0].inUse && !Actionable(slots[0])
    && forall k :: 2 <= k < |slots| ==> !slots[k].inUse
  }

  /** Then a scan that starts behind the second slot comes to the first twice, to the second never, and stops there. */
  lemma ScanSkips(slots: seq<Slot>)
    requires Passed(slots)
    ensures Scan(slots, Wrap(2, |slots|), 0) == (1, None)
  {
    var n := |slots|;
    if n == 2 {
      assert Wrap(0 + 0, 2) == 0 && Wrap(0 + 1, 2) == 1 && Wrap(1 + 1, 2) == 0;
      assert Scan(slots, 0, 0) == Scan(slots, 1, 1);
      assert Scan(slots, 1, 1) == Scan(slots, 1, 2);
    } else {
      SkipsOn(slots, 0);
    }
  }

  lemma {:induction false} SkipsOn(slots: seq<Slot>, scanned: nat)
    requires Passed(slots) && 2 < |slots| && scanned <= |slots| - 2
    ensures Scan(slots, 2, scanned) == (1, None)
    decreases |slots| - scanned
  {
    var n := |slots|;
    if scanned < n - 2 {
      assert Wrap(2 + scanned, n) == 2 + scanned;
      SkipsOn(slots, scanned + 1);
    } else {
      assert Wrap(2 + scanned, n) == 0 && Wrap(0 + 1, n) == 1 && Wrap(1 + (n - 1), n) == 0;
      assert Scan(slots, 2, scanned) == Scan(slots, 1, n - 1);
      assert Scan(slots, 1, n - 1) == Scan(slots, 1, n);
    }
  }

  // ---------------------------------------------------------------- a run into a skip

  /** A transfer for the first provider. */
  const TRANSFER: Descriptor := Descriptor(
    CONTRACT_VERSION, DESCRIPTOR_SIZE, 0, Words(1, 0), 0, Words(1, 0), Words(1, 0), 0, 0, 0, 1,
    PROVIDER_DMA, DMA_TO_CONTROLLER, 0, 0, 0)

  predicate Dma(d: Descriptor) { ValidateDescriptor(d) == Ok && d.providerKind == PROVIDER_DMA }

  ghost predicate Bench(s: Core, cap: Capacity, uid: nat, log: nat, cursor: nat)
  {
    && Shaped(s) && s.cap == cap && s.phase.Ready? && s.hasDma && s.nextUid == uid && |s.log| <= log
    && s.commandCursor == cursor && 2 <= |s.slots|
  }

  predicate InState(slot: Slot, d: Descriptor, state: CmdState)
  {
    slot.inUse && slot.state == state && slot.descriptor == d && slot.owned == state.Running?
  }

  predicate FreshFrom(slots: seq<Slot>, k: nat)
  {
    forall i :: k <= i < |slots| ==>
      !slots[i].inUse && slots[i].slotGeneration == 0 && slots[i].operationGeneration == 0
  }

  predicate UsedBefore(slots: seq<Slot>, k: nat)
    requires k <= |slots|
  {
    forall i :: 0 <= i < k ==> slots[i].inUse
  }

  lemma SubmitNext(o: Core, s: Core, cap: Capacity, d: Descriptor, k: nat, log: nat, cursor: nat) returns (t: Core)
    requires Dma(d) && CapacityValid(cap) && Shaped(o) && Leads(o, s) && Bench(s, cap, k, log, cursor) && log < 100
    requires k < |s.slots| && k < cap.commandUidLimit && FreshFrom(s.slots, k) && UsedBefore(s.slots, k)
    ensures Leads(o, t) && Bench(t, cap, k + 1, log + 1, cursor) && InState(t.slots[k], d, Accepted)
    ensures FreshFrom(t.slots, k + 1) && t.slots[..k] == s.slots[..k]
  {
    SubmitIs(s, cap, d, k, log, cursor);
    LeadsOn(o, s, DoSubmit(d));
    t := Submit(s, d).0;
  }

  lemma SubmitIs(s: Core, cap: Capacity, d: Descriptor, k: nat, log: nat, cursor: nat)
    requires Dma(d) && CapacityValid(cap) && Bench(s, cap, k, log, cursor) && log < 100
    requires k < |s.slots| && k < cap.commandUidLimit && FreshFrom(s.slots, k) && UsedBefore(s.slots, k)
    ensures var t := Submit(s, d).0;
      && Bench(t, cap, k + 1, log + 1, cursor) && InState(t.slots[k], d, Accepted)
      && FreshFrom(t.slots, k + 1) && t.slots[..k] == s.slots[..k]
  {
    FirstFits(s.slots, cap, k, 0);
    assert Submit(s, d) == (Fill(s, k, d), Ok, NewHandle(s, k));
    FillNext(s, d, k);
  }

  lemma {:induction false} FirstFits(slots: seq<Slot>, cap: Capacity, k: nat, from: nat)
    requires CapacityValid(cap) && from <= k < |slots| && FreshFrom(slots, k) && UsedBefore(slots, k)
    ensures FreeSlot(slots, cap, PROVIDER_DMA, from) == Some(k)
    decreases k - from
  {
    if from < k { FirstFits(slots, cap, k, from + 1); }
  }

  lemma FillNext(s: Core, d: Descriptor, k: nat)
    requires k < |s.slots| && |s.log| < TRACE_LIMIT
    ensures var t := Fill(s, k, d);
      && t == s.(slots := s.slots[k := t.slots[k]], nextUid := s.nextUid + 1, log := t.log, hist := t.hist)
      && |t.log| == |s.log| + 1 && InState(t.slots[k], d, Accepted)
  {
  }

  /** One calm unit moves the slot the scan stops at one state on. */
  lemma UnitNext(o: Core, s: Core, cap: Capacity, d: Descriptor, i: nat, uid: nat, log: nat, cursor: nat, next: nat,
                 state: CmdState)
    returns (t: Core)
    requires Dma(d) && CapacityValid(cap) && Shaped(o) && Leads(o, s) && Bench(s, cap, uid, log, cursor) && log < 100
    requires i < |s.slots| && Scan(s.slots, cursor, 0) == (next, Some(i)) && InState(s.slots[i], d, state)
    requires state == Accepted || state == Dispatched
    ensures Leads(o, t) && Bench(t, cap, uid, log + 2, next)
    ensures t.slots == s.slots[i := t.slots[i]] && |t.slots| == |s.slots|
    ensures InState(t.slots[i], d, if state == Accepted then Dispatched else Running)
  {
    CalmUnit(s);
    LeadsOn(o, s, DoStep([CALM]));
    t := Progress(Turned(s), CALM).0;
  }

  /** One command runs, the next was dispatched, and the cursor stands behind them. */
  lemma RunIntoSkip(cap: Capacity, d: Descriptor, nonce: nat) returns (s: Core)
    requires Dma(d) && CapacityValid(cap) && 2 <= cap.commands && 2 <= cap.commandUidLimit
    ensures Leads(Initial(cap, nonce, true, false), s)
    ensures |s.slots| == cap.commands && Passed(s.slots) && Workable(s.slots[1])
    ensures s.commandCursor == Wrap(2, |s.slots|)
  {
    var o := Initial(cap, nonce, true, false);
    LeadsHere(o);
    s := SubmitNext(o, o, cap, d, 0, 1, 0);
    s := FirstRuns(o, s, cap, d);
    var u := SubmitNext(o, s, cap, d, 1, 6, 1);
    assert u.slots[0] == s.slots[0] by { assert u.slots[..1][0] == s.slots[..1][0]; }
    ScanFindsNext(u.slots, 1, 0, 0);
    s := UnitNext(o, u, cap, d, 1, 2, 7, 1, Wrap(2, |u.slots|), Accepted);
  }

  lemma FirstRuns(o: Core, s: Core, cap: Capacity, d: Descriptor) returns (t: Core)
    requires Dma(d) && CapacityValid(cap) && Shaped(o) && Leads(o, s) && Bench(s, cap, 1, 2, 0)
    requires InState(s.slots[0], d, Accepted) && FreshFrom(s.slots, 1)
    ensures Leads(o, t) && Bench(t, cap, 1, 6, 1) && InState(t.slots[0], d, Running) && FreshFrom(t.slots, 1)
  {
    var n := |s.slots|;
    ScanFindsNext(s.slots, 0, 0, 0);
    var u := UnitNext(o, s, cap, d, 0, 1, 2, 0, 1, Accepted);
    assert forall e :: 0 <= e < n - 1 ==> Probed(u.slots, 1, e) == u.slots[1 + e];
    assert Probed(u.slots, 1, n - 1) == u.slots[0];
    ScanFindsNext(u.slots, 1, 0, n - 1);
    t := UnitNext(o, u, cap, d, 0, 1, 4, 1, 1, Dispatched);
  }

  // ---------------------------------------------------------------- when one scan is enough

  /** In every reachable core one call of the scan finds work exactly when there is some. */
  ghost predicate ScanConserves(cap: Capacity)
    requires CapacityValid(cap)
  {
    forall nonce, hasDma, hasNfc, run ::
      var s := Exec(Initial(cap, nonce, hasDma, hasNfc), run);
      Scan(s.slots, s.commandCursor, 0).1.Some? <==> HasWork(s.slots)
  }

  /** That is so exactly when the core can never hold two commands. */
  lemma ScanConservesExactly(cap: Capacity)
    requires CapacityValid(cap)
    ensures ScanConserves(cap) <==> cap.commands == 1 || cap.commandUidLimit == 1
  {
    if cap.commands == 1 || cap.commandUidLimit == 1 {
      forall nonce, hasDma, hasNfc, run
        ensures var s := Exec(Initial(cap, nonce, hasDma, hasNfc), run);
          Scan(s.slots, s.commandCursor, 0).1.Some? <==> HasWork(s.slots)
      {
        var o := Initial(cap, nonce, hasDma, hasNfc);
        InitialInv(cap, nonce, hasDma, hasNfc);
        RunKeeps(o, run);
        LoneScan(Exec(o, run));
      }
    } else {
      var s := RunIntoSkip(cap, TRANSFER, 1);
      ScanSkips(s.slots);
      var run :| s == Exec(Initial(cap, 1, true, false), run);
      assert HasWork(Exec(Initial(cap, 1, true, false), run).slots);
    }
  }

  /** A core with room for one command at a time. */
  lemma LoneScan(s: Core)
    requires Inv(s) && (s.cap.commands == 1 || s.cap.commandUidLimit == 1)
    ensures Scan(s.slots, s.commandCursor, 0).1.Some? <==> HasWork(s.slots)
  {
    var (_, found) := Scan(s.slots, s.commandCursor, 0);
    if found.Some? { assert Workable(s.slots[found.value]); }
    if HasWork(s.slots) {
      var i :| 0 <= i < |s.slots| && Workable(s.slots[i]);
      forall j | 0 <= j < |s.slots| && s.slots[j].inUse ensures j == i { OnlyOne(s, i, j); }
      LoneFound(s.slots, s.commandCursor, i);
    }
  }

  lemma LoneFound(slots: seq<Slot>, cursor: nat, i: nat)
    requires i < |slots| && Workable(slots[i]) && forall j :: 0 <= j < |slots| && slots[j].inUse ==> j == i
    ensures Scan(slots, cursor, 0).1 == Some(i)
  {
    var n := |slots|;
    var d := Reaches(cursor, n, i);
    forall e | 0 <= e < d ensures !Probed(slots, cursor, e).inUse {
      Distinct(cursor, e, d, n);
    }
    ScanFindsNext(slots, cursor, 0, d);
  }

  lemma OnlyOne(s: Core, i: nat, j: nat)
    requires Inv(s) && (s.cap.commands == 1 || s.cap.commandUidLimit == 1) && i < |s.slots| && j < |s.slots|
    ensures s.slots[i].inUse && s.slots[j].inUse ==> i == j
  {
    if s.slots[i].inUse && s.slots[j].inUse { assert Owns(s, i) && Owns(s, j); }
  }
}
