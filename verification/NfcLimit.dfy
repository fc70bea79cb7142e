/** The tick limit over whole runs: it holds of every reservation exactly when every duration fits below it. */
module NfcLimit {
  import opened NfcTypes
  import opened NfcModel
  import opened NfcExclusion
  import opened NfcInvariant
  import opened NfcTheorems
  import opened NfcReach

  /** The longest request of a kind that submission accepts. */
  function Longest(cfg: Config, nonce: nat, kind: nat): Request
  {
    var g := cfg.geometry;
    var buffered := kind == READ_TRANSFER || kind == PROGRAM_TRANSFER;
    var cached := kind == READ_TRANSFER || kind == PROGRAM_EXECUTE;
    Request(CONTRACT_VERSION, REQUEST_SIZE, 0, OperationToken(nonce, 1, 1, 1), HOME,
            if buffered then BufferRef(1, 0, g.mainBytes, 0) else ZERO_BUFFER,
            if buffered then BufferRef(1, 0, g.oobBytes, 0) else ZERO_BUFFER,
            if cached then CacheToken(nonce, 1, 1, 0, 0, 0, 0) else ZERO_CACHE_TOKEN,
            0, 0, 0, 0, kind, if kind == ERASE || kind == STATUS then 0 else 3, 0, 0, 0, 0, 0, 0)
  }

  lemma LongestAccepted(cfg: Config, nonce: nat, kind: nat)
    requires ConfigValid(cfg) && kind <= STATUS
    ensures RequestShapeValid(cfg, nonce, 1, Longest(cfg, nonce, kind))
  {
    Home(cfg);
  }

  lemma LongestIs(cfg: Config, nonce: nat, r: Request)
    requires r.kind <= STATUS && r.regionMask < 4
    ensures Duration(cfg, r) <= Duration(cfg, Longest(cfg, nonce, r.kind))
  {
    assert RegionCount(3) == 2 && RegionCount(r.regionMask) <= 2;
    assert RegionCount(r.regionMask) * cfg.timing.transferPerUnit <= 2 * cfg.timing.transferPerUnit;
    assert RegionCount(r.regionMask) * cfg.timing.programPerUnit <= 2 * cfg.timing.programPerUnit;
  }

  lemma DurationBelow(cfg: Config, r: Request)
    requires ConfigValid(cfg) && r.kind <= STATUS && r.regionMask < 4
    ensures 0 < Duration(cfg, r) < U64
  {
    var t, units := cfg.timing, RegionCount(r.regionMask);
    Product(units, t.transferPerUnit, 2, MAX_DURATION_TICKS);
    Product(units, t.programPerUnit, 2, MAX_DURATION_TICKS);
    Product(cfg.geometry.pagesPerBlock, t.erasePerPage, 64, MAX_DURATION_TICKS);
  }

  lemma Product(a: nat, b: nat, x: nat, y: nat)
    requires a <= x && b <= y
    ensures 0 <= a * b <= x * y
  {
    assert a * b <= x * b <= x * y;
  }

  /** The first operation of a controller is scheduled at tick zero even when it is longer than the limit. */
  lemma TooLongScheduled(cfg: Config, nonce: nat, kind: nat) returns (s: Model)
    requires ConfigValid(cfg) && kind <= STATUS
    requires Duration(cfg, Longest(cfg, nonce, kind)) > cfg.capacity.virtualTickLimit
    ensures Leads(Initial(cfg, nonce), s) && 1 in s.hist.reserved
    ensures s.hist.reserved[1].finish > cfg.capacity.virtualTickLimit
  {
    var o, r := Initial(cfg, nonce), Longest(cfg, nonce, kind);
    assert Exec(o, []) == o;
    LongestAccepted(cfg, nonce, kind);
    DurationBelow(cfg, r);
    FirstSubmitted(cfg, nonce, r, FullBuffers(cfg.geometry));
    LeadsOn(o, o, Submit(r, FullBuffers(cfg.geometry)));
    s := FirstScheduled(o, Accept(o, 0, r, FullBuffers(cfg.geometry)), r);
  }

  lemma FirstScheduled(o: Model, s: Model, r: Request) returns (t: Model)
    requires Shaped(o) && Shaped(s) && Leads(o, s) && s.phase.Ready? && s.now == 0 && s.ops[0].request == r
    requires s.ops[0].state.Queued? && s.ops[0].submitSequence == 1 && s.ops[0].nextTick == 0
    requires forall k :: 1 <= k < |s.ops| ==> s.ops[k].state.Free?
    requires RequestPlaced(s.cfg, r) && Duration(s.cfg, r) > s.cfg.capacity.virtualTickLimit && Duration(s.cfg, r) < U64
    requires StartTick(s, r) == 0
    ensures Leads(o, t) && 1 in t.hist.reserved && t.hist.reserved[1].finish > s.cfg.capacity.virtualTickLimit
  {
    Chosen(s.ops, 0);
    assert !Unschedulable(s, r);
    var answer := SoundAnswer(s.cfg.geometry);
    assert StepUnit(s, answer) == (Schedule(s, 0), Used);
    UnitLeads(o, s, answer);
    t := Schedule(s, 0);
  }

  ghost predicate AllEndInTime(cfg: Config)
    requires ConfigValid(cfg)
  {
    forall nonce, run, a :: a in Exec(Initial(cfg, nonce), run).hist.reserved ==>
      Exec(Initial(cfg, nonce), run).hist.reserved[a].finish <= cfg.capacity.virtualTickLimit
  }

  /** Every reservation of every run ends by the limit if and only if every duration fits below the limit. */
  lemma LimitTheorem(cfg: Config)
    requires ConfigValid(cfg)
    ensures AllEndInTime(cfg) <==> LimitHolds(cfg)
  {
    if LimitHolds(cfg) {
      forall nonce, run, a | a in Exec(Initial(cfg, nonce), run).hist.reserved
        ensures Exec(Initial(cfg, nonce), run).hist.reserved[a].finish <= cfg.capacity.virtualTickLimit
      {
        InTime(cfg, nonce, run, a);
      }
    } else {
      var r: Request :| r.kind <= STATUS && r.regionMask < 4 && Duration(cfg, r) > cfg.capacity.virtualTickLimit;
      LongestIs(cfg, 1, r);
      var s := TooLongScheduled(cfg, 1, r.kind);
      var run :| s == Exec(Initial(cfg, 1), run);
      assert 1 in Exec(Initial(cfg, 1), run).hist.reserved;
    }
  }

  lemma InTime(cfg: Config, nonce: nat, run: seq<Action>, a: nat)
    requires ConfigValid(cfg) && LimitHolds(cfg) && a in Exec(Initial(cfg, nonce), run).hist.reserved
    ensures Exec(Initial(cfg, nonce), run).hist.reserved[a].finish <= cfg.capacity.virtualTickLimit
  {
    InitialInv(cfg, nonce);
    RunKeeps(Initial(cfg, nonce), run);
    RunLater(Initial(cfg, nonce), run);
    assert WellPlaced(Exec(Initial(cfg, nonce), run), Exec(Initial(cfg, nonce), run).hist.reserved[a]);
  }
}
