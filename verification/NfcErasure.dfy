/**
 The completion that the controller's own codec refuses is reached under every configuration: a run that
 submits an erase and steps it to its end, with media that does what it is told.
 */
module NfcErasure {
  import opened NfcTypes
  import opened NfcModel
  import opened NfcTheorems
  import opened NfcReach
  import opened NfcEncodable
  import L = NfcLimit
  import C = NfcCodec

  function Erase(nonce: nat): Request
  {
    Request(CONTRACT_VERSION, REQUEST_SIZE, 0, OperationToken(nonce, 1, 1, 1), HOME, ZERO_BUFFER, ZERO_BUFFER,
            ZERO_CACHE_TOKEN, 0, 0, 0, 0, ERASE, 0, 0, 0, 0, 0, 0, 0)
  }

  /** The media erases the block it is asked to erase. */
  function Erases(g: Geometry): MediaAnswer { SoundAnswer(g).(finalEraseGeneration := 1) }

  predicate Obeys(answer: MediaAnswer)
  {
    && answer.readOk && answer.health == BLOCK_GOOD && answer.successfulErases == 0 && answer.faultClass.Clean?
    && answer.callOk && answer.physicalOutcome == PHYS_APPLIED && answer.integrity == INTEGRITY_COMPLETE
  }

  /** The erase is alone in the first slot and nothing is pending. */
  ghost predicate Holding(s: Model, cfg: Config, nonce: nat, state: OpState)
  {
    && Shaped(s) && s.cfg == cfg && s.eventCount == 0 && s.nextArray == 1
    && (forall k :: 1 <= k < |s.ops| ==> s.ops[k].state.Free?)
    && var op := s.ops[0];
       && op.state == state && op.request == Erase(nonce) && op.legality == 0 && !op.cancelRequested
       && op.completion.version == CONTRACT_VERSION && op.completion.operationKind == ERASE
       && op.completion.requestedRegionMask == 0 && op.faultClass.Clean?
  }

  ghost predicate Erasing(s: Model, cfg: Config, nonce: nat)
  {
    && Holding(s.(nextArray := 1), cfg, nonce, Running)
    && s.ops[0].unitIndex < s.ops[0].unitCount == cfg.geometry.pagesPerBlock
  }

  /** The erase succeeded and waits to be reported, and the codec refuses its completion. */
  ghost predicate Refused(s: Model)
  {
    && 0 < |s.ops| && s.ops[0].state.EventPending? && s.ops[0].completion.operationKind == ERASE
    && s.ops[0].completion.terminal == TERMINAL_SUCCESS
    && C.CompletionValid(s.ops[0].completion) == C.InvalidContract
    && forall k :: 1 <= k < |s.ops| ==> s.ops[k].state.Free?
  }

  // ---------------------------------------------------------------- single units

  lemma EraseSubmitted(cfg: Config, nonce: nat)
    requires ConfigValid(cfg)
    ensures var t := TrySubmit(Initial(cfg, nonce), Erase(nonce), FullBuffers(cfg.geometry)).0;
      Holding(t, cfg, nonce, Queued) && t.phase.Ready? && t.ops[0].nextTick <= t.now && StartTick(t, Erase(nonce)) == 0
  {
    Home(cfg);
    assert RequestShapeValid(cfg, nonce, 1, Erase(nonce));
    FirstSubmitted(cfg, nonce, Erase(nonce), FullBuffers(cfg.geometry));
  }

  /** An erase that starts at tick zero is scheduled, be it longer than the tick limit or not. */
  lemma EraseScheduled(s: Model, cfg: Config, nonce: nat, answer: MediaAnswer)
    requires Holding(s, cfg, nonce, Queued) && s.ops[0].nextTick <= s.now && StartTick(s, Erase(nonce)) == 0
    ensures var (t, progress) := StepUnit(s, answer);
      progress.Used? && Holding(t, cfg, nonce, Scheduled) && t.ops[0].nextTick == 0
  {
    Chosen(s.ops, 0);
    L.DurationBelow(cfg, Erase(nonce));
    assert !Unschedulable(s, Erase(nonce));
  }

  lemma EraseBegins(s: Model, cfg: Config, nonce: nat, answer: MediaAnswer)
    requires Holding(s, cfg, nonce, Scheduled) && s.ops[0].nextTick <= s.now && Obeys(answer)
    ensures var (t, progress) := StepUnit(s, answer); progress.Used? && Erasing(t, cfg, nonce)
  {
    Chosen(s.ops, 0);
  }

  /** Units that are still to be counted or waited for. */
  function Left(s: Model): int
    requires 0 < |s.ops|
  {
    2 * (s.ops[0].unitCount - s.ops[0].unitIndex) - if s.ops[0].nextTick <= s.now then 1 else 0
  }

  lemma EraseGoesOn(s: Model, cfg: Config, nonce: nat, answer: MediaAnswer)
    requires Erasing(s, cfg, nonce)
    requires s.ops[0].nextTick > s.now || s.ops[0].unitIndex + 1 < s.ops[0].unitCount
    ensures var (t, progress) := StepUnit(s, answer); progress.Used? && Erasing(t, cfg, nonce) && Left(t) < Left(s)
  {
    Chosen(s.ops, 0);
  }

  lemma EraseEnds(s: Model, cfg: Config, nonce: nat, answer: MediaAnswer)
    requires Erasing(s, cfg, nonce) && Obeys(answer)
    requires s.ops[0].nextTick <= s.now && s.ops[0].unitIndex + 1 == s.ops[0].unitCount
    ensures var (t, progress) := StepUnit(s, answer); progress.Used? && Refused(t)
  {
    Chosen(s.ops, 0);
  }

  // ---------------------------------------------------------------- the run

  ghost predicate AllObey(answers: seq<MediaAnswer>) { forall k :: 0 <= k < |answers| ==> Obeys(answers[k]) }

  lemma RefusedStays(s: Model, answers: seq<MediaAnswer>)
    requires Shaped(s) && Refused(s)
    ensures StepLoop(s, answers).0 == s
  {
  }

  lemma {:induction false} EraseRuns(s: Model, cfg: Config, nonce: nat, answers: seq<MediaAnswer>)
    requires Erasing(s, cfg, nonce) && AllObey(answers) && Left(s) <= |answers|
    ensures Refused(StepLoop(s, answers).0)
    decreases |answers|
  {
    var t := StepUnit(s, answers[0]).0;
    if s.ops[0].nextTick > s.now || s.ops[0].unitIndex + 1 < s.ops[0].unitCount {
      EraseGoesOn(s, cfg, nonce, answers[0]);
      EraseRuns(t, cfg, nonce, answers[1..]);
    } else {
      EraseEnds(s, cfg, nonce, answers[0]);
      RefusedStays(t, answers[1..]);
    }
  }

  lemma EraseServed(s: Model, cfg: Config, nonce: nat, answers: seq<MediaAnswer>)
    requires Holding(s, cfg, nonce, Queued) && s.ops[0].nextTick <= s.now && StartTick(s, Erase(nonce)) == 0
    requires AllObey(answers) && 2 * cfg.geometry.pagesPerBlock + 2 <= |answers|
    ensures Refused(StepLoop(s, answers).0)
  {
    EraseScheduled(s, cfg, nonce, answers[0]);
    var t := StepUnit(s, answers[0]).0;
    EraseBegun(t, cfg, nonce, answers[1..]);
  }

  lemma EraseBegun(s: Model, cfg: Config, nonce: nat, answers: seq<MediaAnswer>)
    requires Holding(s, cfg, nonce, Scheduled) && s.ops[0].nextTick <= s.now
    requires AllObey(answers) && 2 * cfg.geometry.pagesPerBlock + 1 <= |answers|
    ensures Refused(StepLoop(s, answers).0)
  {
    EraseBegins(s, cfg, nonce, answers[0]);
    EraseRuns(StepUnit(s, answers[0]).0, cfg, nonce, answers[1..]);
  }

  lemma ExecTwo(s: Model, a: Action, b: Action)
    requires Shaped(s)
    ensures Exec(s, [a, b]) == Act(Act(s, a), b)
  {
    assert [a, b][1..] == [b] && [b][1..] == [];
    assert Exec(Act(Act(s, a), b), []) == Act(Act(s, a), b);
    assert Exec(Act(s, a), [b]) == Exec(Act(Act(s, a), b), []);
  }

  lemma EraseStepped(cfg: Config, nonce: nat, answers: seq<MediaAnswer>)
    requires ConfigValid(cfg) && AllObey(answers) && 2 * cfg.geometry.pagesPerBlock + 2 <= |answers|
    ensures Refused(Exec(Initial(cfg, nonce), [Submit(Erase(nonce), FullBuffers(cfg.geometry)), Advance(answers)]))
  {
    var o, a := Initial(cfg, nonce), Submit(Erase(nonce), FullBuffers(cfg.geometry));
    EraseSubmitted(cfg, nonce);
    EraseServed(Act(o, a), cfg, nonce, answers);
    assert Act(Act(o, a), Advance(answers)) == StepLoop(Act(o, a), answers).0;
    ExecTwo(o, a, Advance(answers));
  }

  /** Under every configuration there is a run after which a completion is pending that the codec refuses. */
  lemma EraseRefused(cfg: Config, nonce: nat)
    requires ConfigValid(cfg)
    ensures exists run ::
      (forall k :: 0 <= k < |run| ==> ActionRanged(run[k])) && Refused(Exec(Initial(cfg, nonce), run))
  {
    var g := cfg.geometry;
    var answers := seq(2 * g.pagesPerBlock + 2, _ => Erases(g));
    var run := [Submit(Erase(nonce), FullBuffers(g)), Advance(answers)];
    EraseStepped(cfg, nonce, answers);
    assert Refused(Exec(Initial(cfg, nonce), run));
  }
}
