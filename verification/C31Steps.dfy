/** Every call of the core is made of the moves of the invariant, and no move takes anything back. */
module C31Steps {
  import opened C31Types
  import opened C31Model
  import opened C31Invariant

  // ---------------------------------------------------------------- what no move takes back

  /** A command numbered up to `uid` that is in the slot now was in it before, with the completion it had. */
  predicate CommandEvolves(a: Slot, b: Slot, uid: nat)
  {
    b.inUse && b.handle.uid <= uid ==>
      && a.inUse && a.handle == b.handle && a.descriptor == b.descriptor
      && (a.completionValid ==> b.completionValid && b.completion == a.completion)
  }

  /** A ticket slot that was not granted again keeps its ticket and an outcome it has settled on. */
  predicate TicketEvolves(a: AbortSlot, b: AbortSlot)
  {
    || b.generation > a.generation
    || (b.generation == a.generation && b.ticket == a.ticket && (b.used ==> a.used)
        && (!a.outcome.Pending? ==> b.outcome == a.outcome))
  }

  ghost predicate Evolves(s: Core, t: Core)
  {
    && Framed(s, t) && s.nextUid <= t.nextUid
    && (forall i :: 0 <= i < |s.slots| ==> CommandEvolves(s.slots[i], t.slots[i], s.nextUid))
    && (forall k :: 0 <= k < |s.aborts| ==> TicketEvolves(s.aborts[k], t.aborts[k]))
    && s.hist.acquired <= t.hist.acquired && s.hist.closed <= t.hist.closed
    && s.hist.consumed <= t.hist.consumed && s.hist.drained <= t.hist.drained
  }

  lemma EvolvesOnward(s: Core, t: Core, u: Core)
    requires Evolves(s, t) && Evolves(t, u)
    ensures Evolves(s, u)
  {
    forall i | 0 <= i < |s.slots| ensures CommandEvolves(s.slots[i], u.slots[i], s.nextUid) {
      assert CommandEvolves(s.slots[i], t.slots[i], s.nextUid) && CommandEvolves(t.slots[i], u.slots[i], t.nextUid);
    }
    forall k | 0 <= k < |s.aborts| ensures TicketEvolves(s.aborts[k], u.aborts[k]) {
      assert TicketEvolves(s.aborts[k], t.aborts[k]) && TicketEvolves(t.aborts[k], u.aborts[k]);
    }
  }

  lemma MoveEvolves(s: Core, t: Core, m: Move)
    requires Inv(s) && Moves(s, t, m)
    ensures Evolves(s, t)
  {
    if m.Filling? { assert s.nextUid + 1 !in s.hist.issued; }
    MoveEvolvesCommands(s, t, m);
  }

  lemma MoveEvolvesCommands(s: Core, t: Core, m: Move)
    requires Slots(s) && Moves(s, t, m)
    ensures |t.slots| == |s.slots|
    ensures forall i :: 0 <= i < |s.slots| ==> CommandEvolves(s.slots[i], t.slots[i], s.nextUid)
  {
    forall i | 0 <= i < |s.slots| ensures CommandEvolves(s.slots[i], t.slots[i], s.nextUid) {
      assert Flags(s.slots[i]);
      if m.Drains? { assert t.slots[i] == Drained(s.slots[i]); }
    }
  }

  /** No used ticket slot is given back or granted anew. */
  predicate TicketHeld(a: AbortSlot, b: AbortSlot)
  {
    a.used ==> b.used && b.ticket == a.ticket && b.generation == a.generation
  }

  ghost predicate TicketsHeld(s: Core, t: Core)
  {
    |t.aborts| == |s.aborts| && forall k :: 0 <= k < |s.aborts| ==> TicketHeld(s.aborts[k], t.aborts[k])
  }

  lemma MoveHoldsTickets(s: Core, t: Core, m: Move)
    requires Moves(s, t, m) && !m.Acking?
    ensures TicketsHeld(s, t)
  {
  }

  /** The later state is sound, took nothing back and gave no ticket back. */
  ghost predicate Kept(s: Core, t: Core) { Inv(t) && Evolves(s, t) && TicketsHeld(s, t) }

  /** The state after a move, and all there is to know about it. */
  lemma Moved(s: Core, t: Core, m: Move)
    requires Inv(s) && Moves(s, t, m)
    ensures Inv(t) && Evolves(s, t)
    ensures !m.Acking? ==> Kept(s, t)
  {
    MoveKeeps(s, t, m);
    MoveEvolves(s, t, m);
    if !m.Acking? { MoveHoldsTickets(s, t, m); }
  }

  lemma Onward(s: Core, t: Core, u: Core)
    requires Kept(s, t) && Kept(t, u)
    ensures Kept(s, u)
  {
    EvolvesOnward(s, t, u);
    forall k | 0 <= k < |s.aborts| ensures TicketHeld(s.aborts[k], u.aborts[k]) {
      assert TicketHeld(s.aborts[k], t.aborts[k]) && TicketHeld(t.aborts[k], u.aborts[k]);
    }
  }

  // ---------------------------------------------------------------- each call is a move

  lemma SubmitKeeps(s: Core, d: Descriptor)
    requires Inv(s)
    ensures Kept(s, Submit(s, d).0)
  {
    SubmitForm(s, d);
    Moved(s, Submit(s, d).0,
          if Submit(s, d).1.Ok? then Filling(FreeSlot(s.slots, s.cap, d.providerKind, 0).value, d) else Noted);
  }

  lemma SubmitForm(s: Core, d: Descriptor)
    requires Shaped(s)
    ensures var (t, result, handle) := Submit(s, d);
      if result.Ok? then
        && var free := FreeSlot(s.slots, s.cap, d.providerKind, 0);
           free.Some? && handle == NewHandle(s, free.value) && Filled(s, t, free.value, d)
      else Quiet(s, t)
  {
  }

  lemma AcquireKeeps(s: Core, command: Handle)
    requires Inv(s)
    ensures Kept(s, Acquire(s, command).0)
  {
    AcquireForm(s, command);
    Moved(s, Acquire(s, command).0, if Acquire(s, command).1.Ok? then Leasing(command.slot) else Noted);
  }

  lemma AcquireForm(s: Core, command: Handle)
    requires Shaped(s)
    ensures var (t, result, lease, intent) := Acquire(s, command);
      if result.Ok? then
        && Leased(s, t, command.slot) && lease.command == command
        && t.hist.acquired == s.hist.acquired + [Acquisition(lease, intent)]
      else Quiet(s, t)
  {
  }

  lemma ReleaseKeeps(s: Core, lease: Lease)
    requires Inv(s)
    ensures Kept(s, Release(s, lease).0)
  {
    ReleaseForm(s, lease);
    Moved(s, Release(s, lease).0, if Release(s, lease).1.Ok? then Releasing(lease.command.slot) else Noted);
  }

  lemma ReleaseForm(s: Core, lease: Lease)
    requires Shaped(s)
    ensures var (t, result) := Release(s, lease);
      if result.Ok? then Released(s, t, lease.command.slot) && t.hist.closed == s.hist.closed + [lease] else Quiet(s, t)
  {
  }

  lemma ConsumeKeeps(s: Core, lease: Lease)
    requires Inv(s)
    ensures Kept(s, Consume(s, lease).0)
  {
    ConsumeForm(s, lease);
    Moved(s, Consume(s, lease).0, if Consume(s, lease).1.Ok? then Leaving(lease.command.slot) else Noted);
  }

  lemma ConsumeForm(s: Core, lease: Lease)
    requires Shaped(s)
    ensures var (t, result) := Consume(s, lease);
      if result.Ok? then Left(s, t, lease.command.slot) && t.hist.closed == s.hist.closed + [lease] else Quiet(s, t)
  {
  }

  /** The command of a ready core has a state that can be aborted unless it already holds a ticket. */
  lemma Abortable(s: Core, command: Handle)
    requires Inv(s) && s.phase.Ready? && FindCommand(s, command).Some? && AbortFor(s.aborts, command, 0).None?
    ensures AbortOutcomeFor(s.slots[command.slot].state).Some?
  {
    var slot := s.slots[command.slot];
    assert Flags(slot) && PhaseAllows(s.phase, s.epoch, slot) && CancelBacked(s, slot);
  }

  lemma AbortRequestKeeps(s: Core, command: Handle)
    requires Inv(s)
    ensures Kept(s, AbortRequest(s, command).0)
  {
    var t := AbortRequest(s, command).0;
    if s.phase.Ready? && FindCommand(s, command).Some? && AbortFor(s.aborts, command, 0).None? {
      Abortable(s, command);
    }
    AbortRequestForm(s, command);
    var free := FreeAbort(s.aborts, s.cap.ticketGenerationLimit, 0);
    Moved(s, t, if Quiet(s, t) then Noted
                else Ticketing(command.slot, free.value, AbortOutcomeFor(s.slots[command.slot].state).value));
  }

  lemma AbortRequestForm(s: Core, command: Handle)
    requires Shaped(s)
    requires s.phase.Ready? && FindCommand(s, command).Some? && AbortFor(s.aborts, command, 0).None? ==>
               AbortOutcomeFor(s.slots[command.slot].state).Some?
    ensures var t, free := AbortRequest(s, command).0, FreeAbort(s.aborts, s.cap.ticketGenerationLimit, 0);
      Quiet(s, t)
      || (free.Some? && command.slot < |s.slots| && AbortOutcomeFor(s.slots[command.slot].state).Some?
          && Ticketed(s, t, command.slot, free.value, AbortOutcomeFor(s.slots[command.slot].state).value))
  {
    if s.phase.Ready? && FindCommand(s, command).Some? && AbortFor(s.aborts, command, 0).None? {
      var free := FreeAbort(s.aborts, s.cap.ticketGenerationLimit, 0);
      if free.Some? { GrantForm(s, command.slot, free.value, command); }
    }
  }

  lemma GrantForm(s: Core, i: nat, k: nat, command: Handle)
    requires Shaped(s) && s.phase.Ready? && FindCommand(s, command) == Some(i) && AbortFor(s.aborts, command, 0).None?
    requires k < |s.aborts| && !s.aborts[k].used && AbortOutcomeFor(s.slots[i].state).Some?
    ensures Ticketed(s, GrantAbort(s, i, k, command).0, i, k, AbortOutcomeFor(s.slots[i].state).value)
  {
    var outcome := AbortOutcomeFor(s.slots[i].state).value;
    if outcome.Terminal? {
      assert GrantAbort(s, i, k, command).0.slots[i]
          == Completed(s.slots[i].(abortIndex := k), COMPLETION_ABORTED, CANCELLED_FAULT);
    }
  }

  lemma AbortAckKeeps(s: Core, ticket: Ticket)
    requires Inv(s)
    ensures Inv(AbortAck(s, ticket).0) && Evolves(s, AbortAck(s, ticket).0)
  {
    Moved(s, AbortAck(s, ticket).0,
          if AbortAck(s, ticket).1.Ok? then Acking(FindAbort(s.aborts, ticket, 0).value) else Noted);
  }

  lemma ResetAckKeeps(s: Core)
    requires Inv(s)
    ensures Kept(s, ResetAck(s).0)
  {
    if s.phase.AckReset? { Emptiness(s); }
    Moved(s, ResetAck(s).0, Noted);
  }

  lemma TeardownAckKeeps(s: Core)
    requires Inv(s)
    ensures Kept(s, TeardownAck(s).0)
  {
    if s.phase.AckTeardown? { Emptiness(s); }
    Moved(s, TeardownAck(s).0, Noted);
  }

  /** Nothing is left in the phases that wait for an acknowledgement, and after it. */
  lemma Emptiness(s: Core)
    requires Inv(s) && (s.phase.AckReset? || s.phase.AckTeardown? || s.phase.Dead?)
    ensures NoCommands(s.slots) && NoTickets(s.aborts)
  {
    forall i | 0 <= i < |s.slots| ensures !s.slots[i].inUse { assert PhaseAllows(s.phase, s.epoch, s.slots[i]); }
  }

  // ---------------------------------------------------------------- drains

  /** `t` is `s` with the slots from `i` to before `n` drained. */
  ghost predicate DrainedBetween(s: Core, t: Core, i: nat, n: nat)
  {
    && |t.slots| == |s.slots| && i <= n <= |s.slots|
    && t == s.(slots := t.slots, log := t.log, phase := t.phase, hist := t.hist)
    && (t.phase == s.phase || t.phase.Faulted?)
    && (forall j :: 0 <= j < |s.slots| ==> t.slots[j] == if i <= j < n then Drained(s.slots[j]) else s.slots[j])
    && t.hist == s.hist.(drained := t.hist.drained)
    && (forall uid :: uid in t.hist.drained <==> uid in s.hist.drained || RetiredBetween(s.slots, i, n, uid))
  }

  ghost predicate RetiredBetween(slots: seq<Slot>, i: nat, n: nat, uid: nat)
    requires n <= |slots|
  {
    exists j :: i <= j < n && slots[j].inUse && !slots[j].owned && slots[j].handle.uid == uid
  }

  lemma DrainedAs(s: Core, t: Core, i: nat, retired: set<nat>)
    requires i < |s.slots|
    requires Traced(WithSlot(s, i, Drained(s.slots[i])).(hist := s.hist.(drained := s.hist.drained + retired)), t)
    requires retired == if s.slots[i].inUse && !s.slots[i].owned then {s.slots[i].handle.uid} else {}
    ensures DrainedBetween(s, t, i, i + 1)
  {
    forall uid ensures uid in retired <==> RetiredBetween(s.slots, i, i + 1, uid) {
      assert uid in retired ==> i <= i < i + 1 && s.slots[i].handle.uid == uid;
    }
  }

  lemma DrainOne(s: Core, i: nat)
    requires Shaped(s) && i < |s.slots|
    ensures DrainedBetween(s, DrainCommand(s, i), i, i + 1)
  {
    var slot := s.slots[i];
    DrainedAs(s, DrainCommand(s, i), i, if slot.inUse && !slot.owned then {slot.handle.uid} else {});
  }

  lemma DrainedOnward(s: Core, r: Core, t: Core, i: nat, n: nat)
    requires DrainedBetween(s, r, i, i + 1) && DrainedBetween(r, t, i + 1, n)
    ensures DrainedBetween(s, t, i, n)
  {
    forall uid ensures uid in t.hist.drained <==> uid in s.hist.drained || RetiredBetween(s.slots, i, n, uid) {
      assert RetiredBetween(s.slots, i, i + 1, uid)
        <==> s.slots[i].inUse && !s.slots[i].owned && s.slots[i].handle.uid == uid;
    }
  }

  lemma {:induction false} DrainCommandsEach(s: Core, i: nat)
    requires Shaped(s) && i <= |s.slots|
    ensures DrainedBetween(s, DrainCommands(s, i), i, |s.slots|)
    decreases |s.slots| - i
  {
    if i < |s.slots| {
      var r := DrainCommand(s, i);
      DrainOne(s, i);
      DrainCommandsEach(r, i + 1);
      DrainedOnward(s, r, DrainCommands(r, i + 1), i, |s.slots|);
    }
  }

  /** Once its tickets are superseded and its slots drained, the core has begun its drain. */
  lemma DrainsAll(s: Core, entered: Core, r: Core, q: QuiescentAnswer)
    requires s.epoch <= entered.epoch && (entered.phase.Faulted? || Draining(entered.phase))
    requires entered == s.(epoch := entered.epoch, drainEpoch := entered.drainEpoch, phase := entered.phase,
                           log := entered.log)
    requires DrainedBetween(entered.(aborts := SupersededAborts(entered.aborts)), r, 0, |s.slots|)
    ensures DrainBegun(s, CheckDrain(r, q))
  {
    assert r.hist.drained == s.hist.drained + Retirable(s.slots, |s.slots|);
  }

  lemma BeginDrainKeeps(s: Core, teardown: bool, answer: ResetAnswer)
    requires Inv(s)
    ensures Kept(s, BeginDrain(s, teardown, answer).0)
  {
    BeginDrainForm(s, teardown, answer);
    var result := BeginDrain(s, teardown, answer).1;
    Moved(s, BeginDrain(s, teardown, answer).0,
          if result.InvariantFailure? then DrainFails else if result.Ok? then Drains else Noted);
  }

  lemma BeginDrainForm(s: Core, teardown: bool, answer: ResetAnswer)
    requires Shaped(s)
    ensures var (t, result) := BeginDrain(s, teardown, answer);
      if result.InvariantFailure? then DrainFailed(s, t) else if result.Ok? then DrainBegun(s, t) else Quiet(s, t)
  {
    if BeginDrain(s, teardown, answer).1.Ok? {
      var entered := Enter(s, teardown);
      var r := entered.(aborts := SupersededAborts(entered.aborts));
      DrainCommandsEach(r, 0);
      DrainsAll(s, entered, DrainCommands(r, 0), answer.quiescent);
    }
  }

  // ---------------------------------------------------------------- the step loop

  /** A command that goes on, or completes, on its own. */
  lemma AdvancesAs(s: Core, t: Core, i: nat, b: Slot)
    requires i < |s.slots| && Traced(WithSlot(s, i, b), t) && Advances(s.slots[i], b)
    requires s.slots[i].state.CancelPending? == b.state.CancelPending?
    ensures Advanced(s, t, i)
  {
  }

  /** The slot's operation has ended, its ticket is settled, its completion is made: the command has ended. */
  lemma EndsAs(s: Core, r: Core, u: Core, t: Core, i: nat, e: Event, result: nat, outcome: AbortOutcome)
    requires i < |s.slots| && s.slots[i].inUse && !s.slots[i].completionValid && !s.slots[i].state.ResetDrain?
    requires outcome != Pending
    requires Traced(WithSlot(s, i, TerminalSlot(s.slots[i], e)), r)
    requires Traced(r.(aborts := SettledAborts(r.aborts, s.slots[i].handle, outcome)), u)
    requires Traced(WithSlot(u, i, Completed(u.slots[i], result, e.fault)), t)
    ensures Ended(s, t, i, outcome) && t.slots[i].completion == IntentOf(s.slots[i], result, e.fault)
  {
    assert t.slots[i] == Completed(TerminalSlot(s.slots[i], e), result, e.fault);
    assert forall k :: 0 <= k < |t.aborts| ==> t.aborts[k].used == s.aborts[k].used;
  }

  /** The slot's operation has ended and the slot is emptied: the command has left. */
  lemma LeavesAs(s: Core, r: Core, t: Core, i: nat, e: Event)
    requires i < |s.slots| && s.slots[i].inUse && s.slots[i].state.ResetDrain?
    requires Traced(WithSlot(s, i, TerminalSlot(s.slots[i], e)), r)
    requires Traced(WithSlot(r, i, Emptied(r.slots[i])).(
                      hist := r.hist.(drained := r.hist.drained + {r.slots[i].handle.uid})), t)
    ensures Left(s, t, i)
  {
  }

  /** A provider's event moves at most the command that waits for it. */
  lemma ApplyEventForm(s: Core, i: nat, kind: nat, e: Event)
    requires i < |s.slots| && Flags(s.slots[i]) && AwaitsEvent(s.slots[i], kind)
    requires PhaseAllows(s.phase, s.epoch, s.slots[i])
    ensures var t := ApplyEvent(s, i, kind, e);
      if s.slots[i].state.ResetDrain? then Left(s, t, i)
      else
        Ended(s, t, i, EventOutcome(e))
        && t.slots[i].completion == IntentOf(s.slots[i], EventResult(kind, e), e.fault)
  {
    var slot := s.slots[i];
    var r := Push(WithSlot(s, i, TerminalSlot(slot, e)), TRACE_PROVIDER_EVENT, slot.handle,
                  StateCode(slot.state), StateCode(slot.state), e.terminal);
    if slot.state.ResetDrain? {
      LeavesAs(s, r, DrainSlot(r, i), i, e);
    } else {
      var u := UpdateAbort(r, i, EventOutcome(e));
      EndsAs(s, r, u, MakeCompletion(u, i, EventResult(kind, e), e.fault), i, e, EventResult(kind, e), EventOutcome(e));
    }
  }

  lemma PollKeeps(s: Core, kind: nat, answer: PollAnswer)
    requires Inv(s)
    ensures Kept(s, PollProvider(s, kind, answer).0)
  {
    var m := Noted;
    if HasProvider(s, kind) && answer.ok && answer.count == 1 {
      m := EventMoves(s, kind, answer.event);
    }
    Moved(s, PollProvider(s, kind, answer).0, m);
  }

  lemma EventMoves(s: Core, kind: nat, e: Event) returns (m: Move)
    requires Inv(s)
    ensures Moves(s, ProcessEvent(s, kind, e).0, m)
    ensures !ProcessEvent(s, kind, e).1.Ok? ==> m.Noted?
    ensures !m.Acking?
  {
    m := Noted;
    if ProcessEvent(s, kind, e).1.Ok? {
      var i := e.operation.command.slot;
      assert Flags(s.slots[i]) && PhaseAllows(s.phase, s.epoch, s.slots[i]);
      ApplyEventForm(s, i, kind, e);
      m := if s.slots[i].state.ResetDrain? then Leaving(i) else Ending(i, EventOutcome(e));
    }
  }

  lemma SubmitProviderForm(s: Core, i: nat, answer: SubmitAnswer)
    requires i < |s.slots| && Flags(s.slots[i]) && (s.slots[i].state.Dispatched? || s.slots[i].state.Held?)
    ensures Quiet(s, SubmitProvider(s, i, answer)) || Advanced(s, SubmitProvider(s, i, answer), i)
  {
    var slot, t := s.slots[i], SubmitProvider(s, i, answer);
    if !HasProvider(s, slot.descriptor.providerKind) {
      AdvancesAs(s, t, i, Completed(slot, COMPLETION_UNSUPPORTED, ZERO_FAULT));
    } else if !SubmitAnswerBroken(answer, slot.descriptor.length) {
      AdvancesAs(s, t, i,
        if answer.disposition == 0 then slot.(owned := true, state := Running)
        else if answer.disposition == 1 then slot.(state := Held)
        else Completed(slot, ProviderFailure(slot.descriptor.providerKind), answer.fault));
    }
  }

  /** One slot's progress; a slot that drains is always still owned, so it is cancelled, not retired. */
  lemma ProgressSlotForm(s: Core, i: nat, answer: UnitAnswer)
    requires i < |s.slots| && Flags(s.slots[i]) && s.slots[i].inUse && Actionable(s.slots[i])
    ensures Quiet(s, ProgressSlot(s, i, answer)) || Advanced(s, ProgressSlot(s, i, answer), i)
  {
    var slot, t := s.slots[i], ProgressSlot(s, i, answer);
    if slot.state.Dispatched? || slot.state.Held? {
      SubmitProviderForm(s, i, answer.submit);
    } else if slot.state.Accepted? {
      AdvancesAs(s, t, i,
        if slot.descriptor.providerKind == PROVIDER_NONE then Completed(slot, COMPLETION_SUCCESS, ZERO_FAULT)
        else slot.(state := Dispatched));
    } else if HasProvider(s, slot.descriptor.providerKind) && answer.cancelOk {
      AdvancesAs(s, t, i, slot.(cancelSent := true));
    }
  }

  lemma ProgressSlotKeeps(s: Core, i: nat, answer: UnitAnswer)
    requires Inv(s) && i < |s.slots| && s.slots[i].inUse && Actionable(s.slots[i])
    ensures Kept(s, ProgressSlot(s, i, answer))
  {
    var t := ProgressSlot(s, i, answer);
    assert Flags(s.slots[i]);
    ProgressSlotForm(s, i, answer);
    Moved(s, t, if Advanced(s, t, i) then Advancing(i) else Noted);
  }

  lemma ProgressKeeps(s: Core, answer: UnitAnswer)
    requires Inv(s)
    ensures Kept(s, Progress(s, answer).0)
  {
    var (cursor, found) := Scan(s.slots, s.commandCursor, 0);
    var r := s.(commandCursor := cursor);
    Moved(s, r, Noted);
    if found.Some? {
      ProgressSlotKeeps(r, found.value, answer);
      Onward(s, r, ProgressSlot(r, found.value, answer));
    }
  }

  lemma StepUnitKeeps(s: Core, answer: UnitAnswer)
    requires Inv(s)
    ensures Kept(s, StepUnit(s, answer))
  {
    Moved(s, Turned(s), Noted);
    var (polled, _, event) := PollProvider(Turned(s), TurnKind(s), answer.poll);
    PollKeeps(Turned(s), TurnKind(s), answer.poll);
    Onward(s, Turned(s), polled);
    if !polled.phase.Faulted? {
      var moved := if event then polled else Progress(polled, answer).0;
      if !event { ProgressKeeps(polled, answer); Onward(s, polled, moved); }
      if !moved.phase.Faulted? {
        var t := CheckDrain(moved, answer.quiescent);
        Moved(moved, t, Noted);
        Onward(s, moved, t);
      }
    }
  }

  lemma {:induction false} StepLoopKeeps(s: Core, answers: seq<UnitAnswer>)
    requires Inv(s)
    ensures Kept(s, StepLoop(s, answers))
    decreases |answers|
  {
    if answers == [] || Resting(s.phase) {
      Moved(s, s, Noted);
    } else {
      var t := StepUnit(s, answers[0]);
      StepUnitKeeps(s, answers[0]);
      StepLoopKeeps(t, answers[1..]);
      Onward(s, t, StepLoop(t, answers[1..]));
    }
  }
}
