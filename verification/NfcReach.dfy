/** States that a run reaches, and the first steps of a controller. */
module NfcReach {
  import opened NfcTypes
  import opened NfcModel
  import opened NfcTheorems

  // ---------------------------------------------------------------- reaching states

  ghost predicate Leads(s: Model, t: Model)
    requires Shaped(s)
  {
    exists run :: t == Exec(s, run)
  }

  lemma LeadsOn(s: Model, t: Model, a: Action)
    requires Shaped(s) && Shaped(t) && Leads(s, t)
    ensures Leads(s, Act(t, a))
  {
    var run :| t == Exec(s, run);
    ExecOn(s, run, a);
  }

  /** One unit of work, taken by a call of its own. */
  lemma UnitLeads(s: Model, t: Model, answer: MediaAnswer)
    requires Shaped(s) && Shaped(t) && Leads(s, t) && t.phase.Ready? && StepUnit(t, answer).1.Used?
    ensures Leads(s, StepUnit(t, answer).0)
  {
    LeadsOn(s, t, Advance([answer]));
    var (u, progress) := StepUnit(t, answer);
    assert [answer][1..] == [] && [answer][0] == answer;
    assert StepLoop(u, []) == (u, Ok);
    assert StepLoop(t, [answer]) == (u, Ok);
  }

  // ---------------------------------------------------------------- answers and addresses

  const HOME: Ppa := Ppa(0, 0, 0, 0, 0, 0)

  /** The media finds the page erased, injects no fault and does what it is told. */
  function SoundAnswer(g: Geometry): MediaAnswer
  {
    MediaAnswer(true, Page(seq(g.mainBytes, _ => 0xff), seq(g.oobBytes, _ => 0xff)), true, false, 0, 0, BLOCK_GOOD,
                false, 0, 0, 0, Clean, 0, 0, true, PHYS_APPLIED, INTEGRITY_COMPLETE, 3, 0, 0, BLOCK_GOOD, 0)
  }

  /** Both buffers are read in full. */
  function FullBuffers(g: Geometry): BufferAnswer
  {
    BufferAnswer(true, seq(g.mainBytes, _ => 0), true, seq(g.oobBytes, _ => 0))
  }

  lemma Home(cfg: Config)
    requires ConfigValid(cfg)
    ensures PpaValid(cfg.geometry, HOME) && PlaneIndex(cfg.geometry, HOME) == 0 && LaneIndex(cfg.geometry, HOME) == 0
    ensures Planes(cfg.geometry) > 0 && Lanes(cfg.geometry) > 0
  {
    assert PlaneIndex(cfg.geometry, HOME) < Planes(cfg.geometry) && LaneIndex(cfg.geometry, HOME) < Lanes(cfg.geometry);
  }

  // ---------------------------------------------------------------- choosing

  /** A candidate that precedes all others is the one that is served. */
  lemma Chosen(ops: seq<Op>, i: nat)
    requires i < |ops| && Candidate(ops[i])
    requires forall k :: 0 <= k < |ops| && k != i && Candidate(ops[k]) ==> OperationLess(ops[i], i, ops[k], k)
    ensures NextOperation(ops, |ops|) == Some(i)
  {
    var r := NextOperation(ops, |ops|);
    assert r.Some? && Candidate(ops[r.value]);
  }

  // ---------------------------------------------------------------- the first submission

  /** A well-shaped request with the first number is accepted into the first slot of a fresh controller. */
  lemma FirstSubmitted(cfg: Config, nonce: nat, r: Request, buffers: BufferAnswer)
    requires ConfigValid(cfg) && RequestShapeValid(cfg, nonce, 1, r) && r.operation.operationUid == 1
    requires !CaptureFails(r, buffers)
    ensures var s := Initial(cfg, nonce);
      TrySubmit(s, r, buffers) == (Accept(s, 0, r, buffers), SubmitResult.Accepted)
  {
    var s := Initial(cfg, nonce);
    assert forall k :: 0 <= k < |s.ops| ==> s.ops[k] == FREE_OP;
    assert FindOperation(s.ops, r.operation, 0).None?;
    assert FreeOperation(s.ops, 0) == Some(0);
  }
}
