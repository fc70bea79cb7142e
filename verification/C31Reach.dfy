/** Cores that a run reaches, call by call. */
module C31Reach {
  import opened C31Types
  import opened C31Model
  import opened C31Theorems

  ghost predicate Leads(s: Core, t: Core)
    requires Shaped(s)
  {
    exists run :: t == Exec(s, run)
  }

  lemma {:induction false} ExecOn(s: Core, run: seq<Action>, a: Action)
    requires Shaped(s)
    ensures Exec(s, run + [a]) == Act(Exec(s, run), a)
    decreases |run|
  {
    if run == [] {
      assert (run + [a])[1..] == [];
    } else {
      assert (run + [a])[0] == run[0] && (run + [a])[1..] == run[1..] + [a];
      ExecOn(Act(s, run[0]), run[1..], a);
    }
  }

  lemma LeadsOn(s: Core, t: Core, a: Action)
    requires Shaped(s) && Shaped(t) && Leads(s, t)
    ensures Leads(s, Act(t, a))
  {
    var run :| t == Exec(s, run);
    ExecOn(s, run, a);
  }

  lemma LeadsHere(s: Core)
    requires Shaped(s)
    ensures Leads(s, s)
  {
    assert Exec(s, []) == s;
  }

  /** A unit in which no provider reports anything and the provider takes what it is given. */
  const CALM: UnitAnswer := UnitAnswer(
    PollAnswer(true, 0, Event(true, ZERO_TOKEN, ZERO_FAULT, 0)), SubmitAnswer(0, ZERO_FAULT), true,
    QuiescentAnswer(true, true, true, true))

  /** Such a unit of a ready core is one turn of the scan. */
  lemma CalmUnit(s: Core)
    requires Shaped(s) && s.phase.Ready?
    ensures StepUnit(s, CALM) == Progress(Turned(s), CALM).0
    ensures Act(s, DoStep([CALM])) == Progress(Turned(s), CALM).0
  {
    assert PollProvider(Turned(s), TurnKind(s), CALM.poll) == (Turned(s), Ok, false);
    ProgressPhase(Turned(s));
    assert [CALM][0] == CALM && [CALM][1..] == [];
    assert StepLoop(StepUnit(s, CALM), []) == StepUnit(s, CALM);
    assert StepLoop(s, [CALM]) == StepUnit(s, CALM);
  }

  lemma ProgressPhase(s: Core)
    requires Shaped(s) && s.phase.Ready?
    ensures var t := Progress(s, CALM).0; t.phase.Ready? || t.phase.Faulted?
  {
  }
}
