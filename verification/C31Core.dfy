/**
 The command lifecycle core as the program keeps it: command slots, abort slots and the trace ring
 updated in place.  Each method changes them the way the pure transition of the same name says.
 */
module C31Core {
  import opened C31Types
  import opened C31Model
  import opened C31Ring
  import M = C31Model

  class Controller {
    const cap: Capacity
    const nonce: nat
    const hasDma: bool
    const hasNfc: bool
    var phase: Phase
    var epoch: nat
    var drainEpoch: nat
    var nextUid: nat
    var commandCursor: nat
    var providerCursor: nat
    const slots: array<Slot>
    const aborts: array<AbortSlot>
    const ring: array<Entry>
    var traceHead: nat
    var traceCount: nat
    var traceSequence: nat
    ghost var log: seq<Entry>
    ghost var hist: History

    ghost function View(): Core
      reads this, slots, aborts
    {
      Core(cap, nonce, hasDma, hasNfc, phase, epoch, drainEpoch, nextUid, commandCursor, providerCursor,
           slots[..], aborts[..], log, hist)
    }

    ghost predicate Valid()
      reads this, slots, aborts, ring
    {
      Shaped(View()) && RingValid()
    }

    ghost predicate RingValid()
      reads this, ring
    {
      && ring.Length == cap.traceEntries
      && RingHolds(ring[..], traceHead, traceCount, log) && Numbered(log) && traceSequence == |log| <= TRACE_LIMIT
    }

    constructor (cap: Capacity, nonce: nat, hasDma: bool, hasNfc: bool)
      requires CapacityValid(cap)
      ensures Valid() && fresh(slots) && fresh(aborts) && fresh(ring)
      ensures View() == Initial(cap, nonce, hasDma, hasNfc)
    {
      this.cap, this.nonce, this.hasDma, this.hasNfc := cap, nonce, hasDma, hasNfc;
      phase, epoch, drainEpoch, nextUid, commandCursor, providerCursor := Ready, 1, 0, 0, 0, 0;
      slots := new Slot[cap.commands](_ => EMPTY_SLOT);
      aborts := new AbortSlot[cap.abortTickets](_ => EMPTY_ABORT);
      ring := new Entry[cap.traceEntries](_ => Entry(0, ZERO_HANDLE, 0, 0, 0, 0));
      traceHead, traceCount, traceSequence := 0, 0, 0;
      log, hist := [], History(map[], {}, {}, [], []);
      new;
      assert slots[..] == seq(cap.commands, _ => EMPTY_SLOT) && aborts[..] == seq(cap.abortTickets, _ => EMPTY_ABORT);
      Push(TRACE_INIT, ZERO_HANDLE, 0, PhaseCode(Ready), 0);
    }

    // -------------------------------------------------------------- the trace

    method Push(kind: nat, command: Handle, fromState: nat, toState: nat, detail: nat)
      requires Valid()
      modifies this`phase, this`traceHead, this`traceCount, this`traceSequence, this`log, ring
      ensures Valid()
      ensures View() == M.Push(old(View()), kind, command, fromState, toState, detail)
    {
      if traceSequence == TRACE_LIMIT {
        phase := Faulted;
        return;
      }
      var e := Entry(traceSequence + 1, command, kind, fromState, toState, detail);
      Append(e);
    }

    method Append(e: Entry)
      requires RingValid() && e.sequence == |log| + 1 <= TRACE_LIMIT
      modifies this`traceHead, this`traceCount, this`traceSequence, this`log, ring
      ensures RingValid() && log == old(log) + [e]
    {
      RingPush(ring[..], traceHead, traceCount, log, e);
      var index;
      if traceCount < cap.traceEntries {
        index := Wrap(traceHead + traceCount, cap.traceEntries);
        traceCount := traceCount + 1;
      } else {
        index := traceHead;
        traceHead := Wrap(traceHead + 1, cap.traceEntries);
      }
      ring[index] := e;
      traceSequence := traceSequence + 1;
      log := log + [e];
      assert ring[..] == old(ring[..])[index := e];
    }

    method TraceCount() returns (count: nat)
      requires Valid()
      ensures count == if |log| < cap.traceEntries then |log| else cap.traceEntries
    {
      count := traceCount;
    }

    /** The entry at an ordinal among the last ones, or nothing past their number. */
    method TraceRead(ordinal: nat) returns (entry: Option<Entry>)
      requires Valid()
      ensures var count := if |log| < cap.traceEntries then |log| else cap.traceEntries;
        if ordinal < count then
          && entry == Some(log[|log| - count + ordinal])
          && entry.value.sequence == |log| - count + ordinal + 1
        else entry.None?
    {
      if ordinal >= traceCount {
        return None;
      }
      WrapIsPlace(traceHead, ordinal, cap.traceEntries);
      assert RingAt(ring[..], traceHead, ordinal) == log[|log| - traceCount + ordinal];
      return Some(ring[Wrap(traceHead + ordinal, cap.traceEntries)]);
    }

    method InstanceFault(command: Handle, detail: nat)
      requires Valid()
      modifies this`phase, this`traceHead, this`traceCount, this`traceSequence, this`log, ring
      ensures Valid()
      ensures View() == RaiseFault(old(View()), command, detail)
    {
      var oldPhase := phase;
      phase := Faulted;
      Push(TRACE_FAULT, command, PhaseCode(oldPhase), PhaseCode(Faulted), detail);
    }

    // -------------------------------------------------------------- slots

    method Store(i: nat, slot: Slot)
      requires Valid() && i < slots.Length
      modifies slots
      ensures Valid()
      ensures View() == WithSlot(old(View()), i, slot)
    {
      slots[i] := slot;
      assert slots[..] == old(slots[..])[i := slot];
    }

    method SetState(i: nat, state: CmdState, detail: nat)
      requires Valid() && i < slots.Length
      modifies this`phase, this`traceHead, this`traceCount, this`traceSequence, this`log, ring, slots
      ensures Valid()
      ensures View() == M.SetState(old(View()), i, state, detail)
    {
      var oldState := slots[i].state;
      Store(i, slots[i].(state := state));
      Push(TRACE_STATE, slots[i].handle, StateCode(oldState), StateCode(state), detail);
    }

    method AbortForCommand(command: Handle) returns (r: Option<nat>)
      ensures r == AbortFor(aborts[..], command, 0)
    {
      for k := 0 to aborts.Length
        invariant AbortFor(aborts[..], command, 0) == AbortFor(aborts[..], command, k)
      {
        if aborts[k].used && aborts[k].ticket.command == command {
          return Some(k);
        }
      }
      return None;
    }

    method UpdateAbort(i: nat, outcome: AbortOutcome)
      requires Valid() && i < slots.Length && outcome != Pending
      modifies this`phase, this`traceHead, this`traceCount, this`traceSequence, this`log, ring, aborts
      ensures Valid()
      ensures View() == M.UpdateAbort(old(View()), i, outcome)
    {
      var k := AbortForCommand(slots[i].handle);
      if k.Some? && aborts[k.value].outcome.Pending? {
        aborts[k.value] := aborts[k.value].(outcome := outcome);
        assert aborts[..] == old(aborts[..])[k.value := aborts[k.value]];
        assert aborts[..] != old(aborts[..]) by { assert aborts[..][k.value] != old(aborts[..])[k.value]; }
        Push(TRACE_ABORT, slots[i].handle, OutcomeCode(Pending), OutcomeCode(outcome), 0);
      }
    }

    method Retire(i: nat)
      requires Valid() && i < slots.Length
      modifies this`phase, this`traceHead, this`traceCount, this`traceSequence, this`log, ring, slots
      ensures Valid()
      ensures View() == M.Retire(old(View()), i)
    {
      SetState(i, Retired, 0);
      Store(i, Emptied(slots[i]).(state := Retired));
      SetState(i, Free, 0);
    }

    method DrainSlot(i: nat)
      requires Valid() && i < slots.Length
      modifies this`phase, this`traceHead, this`traceCount, this`traceSequence, this`log, this`hist, ring, slots
      ensures Valid()
      ensures View() == M.DrainSlot(old(View()), i)
    {
      hist := hist.(drained := hist.drained + {slots[i].handle.uid});
      Retire(i);
    }

    method MakeCompletion(i: nat, result: nat, fault: Fault)
      requires Valid() && i < slots.Length
      modifies this`phase, this`traceHead, this`traceCount, this`traceSequence, this`log, ring, slots
      ensures Valid()
      ensures View() == M.MakeCompletion(old(View()), i, result, fault)
    {
      var slot := slots[i];
      Store(i, slot.(completion := IntentOf(slot, result, fault), completionValid := true, leaseActive := false));
      SetState(i, CompletionReady, result);
      Push(TRACE_COMPLETION, slots[i].handle, result, result, slots[i].completion.fault.reason);
    }

    // -------------------------------------------------------------- submission

    method Submit(d: Descriptor) returns (result: ApiResult, command: Handle)
      requires Valid()
      modifies this, slots, ring
      ensures Valid()
      ensures (View(), result, command) == M.Submit(old(View()), d)
    {
      command := ZERO_HANDLE;
      result := ValidateDescriptor(d);
      if result != Ok { return; }
      if phase != Ready { return WrongState, command; }
      if nextUid >= cap.commandUidLimit {
        InstanceFault(ZERO_HANDLE, API_COUNTER_EXHAUSTED);
        return CounterExhausted, command;
      }
      var slot, exhausted := PickSlot(d.providerKind);
      if slot.Some? {
        command := FillSlot(slot.value, d);
        return Ok, command;
      }
      if exhausted {
        InstanceFault(ZERO_HANDLE, API_COUNTER_EXHAUSTED);
        return CounterExhausted, command;
      }
      return NoCapacity, command;
    }

    /** The first slot the command fits in; when there is none, whether a free slot ran out of generations. */
    method PickSlot(kind: nat) returns (slot: Option<nat>, exhausted: bool)
      ensures slot == FreeSlot(slots[..], cap, kind, 0)
      ensures slot.None? ==> exhausted == AnyExhausted(slots[..], cap, kind)
    {
      exhausted := false;
      for index := 0 to slots.Length
        invariant FreeSlot(slots[..], cap, kind, 0) == FreeSlot(slots[..], cap, kind, index)
        invariant exhausted <==> AnyExhausted(slots[..index], cap, kind)
      {
        assert slots[..index + 1] == slots[..index] + [slots[index]];
        ExhaustedOnward(slots[..index], slots[index], kind);
        if !slots[index].inUse {
          if !SlotExhausted(slots[index], cap, kind) { return Some(index), exhausted; }
          exhausted := true;
        }
      }
      assert slots[..slots.Length] == slots[..];
      return None, exhausted;
    }

    lemma ExhaustedOnward(before: seq<Slot>, slot: Slot, kind: nat)
      ensures AnyExhausted(before + [slot], cap, kind)
              <==> AnyExhausted(before, cap, kind) || (!slot.inUse && SlotExhausted(slot, cap, kind))
    {
      if AnyExhausted(before, cap, kind) {
        var i :| 0 <= i < |before| && !before[i].inUse && SlotExhausted(before[i], cap, kind);
        assert (before + [slot])[i] == before[i];
      }
      assert (before + [slot])[|before|] == slot;
    }

    method FillSlot(i: nat, d: Descriptor) returns (command: Handle)
      requires Valid() && i < slots.Length
      modifies this`phase, this`traceHead, this`traceCount, this`traceSequence, this`log, this`hist, this`nextUid,
        ring, slots
      ensures Valid()
      ensures View() == Fill(old(View()), i, d) && command == NewHandle(old(View()), i)
    {
      var slot := slots[i];
      nextUid := nextUid + 1;
      command := Handle(nonce, nextUid, epoch, i, slot.slotGeneration + 1);
      Store(i, FilledSlot(slot, command, d));
      hist := hist.(issued := hist.issued[command.uid := command]);
      Push(TRACE_SUBMIT, command, StateCode(Free), StateCode(Accepted), d.providerKind);
    }

    // -------------------------------------------------------------- provider work

    predicate Provides(kind: nat) { (kind == PROVIDER_DMA && hasDma) || (kind == PROVIDER_NFC && hasNfc) }

    method SubmitProvider(i: nat, answer: SubmitAnswer)
      requires Valid() && i < slots.Length
      modifies this`phase, this`traceHead, this`traceCount, this`traceSequence, this`log, ring, slots
      ensures Valid()
      ensures View() == M.SubmitProvider(old(View()), i, answer)
    {
      var slot := slots[i];
      if !Provides(slot.descriptor.providerKind) {
        MakeCompletion(i, COMPLETION_UNSUPPORTED, ZERO_FAULT);
      } else if SubmitAnswerBroken(answer, slot.descriptor.length) {
        InstanceFault(slot.handle, REASON_INVARIANT);
      } else if answer.disposition == 0 {
        Store(i, slot.(owned := true));
        SetState(i, Running, 0);
        Push(TRACE_PROVIDER_ACCEPT, slot.handle, 0, 0, slot.descriptor.providerKind);
      } else if answer.disposition == 1 {
        SetState(i, Held, 0);
      } else {
        MakeCompletion(i, ProviderFailure(slot.descriptor.providerKind), answer.fault);
      }
    }

    method ApplyEvent(i: nat, kind: nat, e: Event)
      requires Valid() && i < slots.Length
      modifies this`phase, this`traceHead, this`traceCount, this`traceSequence, this`log, this`hist, ring, slots, aborts
      ensures Valid()
      ensures View() == M.ApplyEvent(old(View()), i, kind, e)
    {
      var slot := slots[i];
      Store(i, TerminalSlot(slot, e));
      Push(TRACE_PROVIDER_EVENT, slot.handle, StateCode(slot.state), StateCode(slot.state), e.terminal);
      if Draining(phase) || slot.state.ResetDrain? {
        DrainSlot(i);
      } else {
        UpdateAbort(i, EventOutcome(e));
        MakeCompletion(i, EventResult(kind, e), e.fault);
      }
    }

    method ProcessEvent(kind: nat, e: Event) returns (result: ApiResult)
      requires Valid()
      modifies this`phase, this`traceHead, this`traceCount, this`traceSequence, this`log, this`hist, ring, slots, aborts
      ensures Valid()
      ensures (View(), result) == M.ProcessEvent(old(View()), kind, e)
    {
      var command := e.operation.command;
      if !e.shapeValid || e.terminal > 2 || !FaultValid(e.fault, 0xffff_ffff) {
        InstanceFault(ZERO_HANDLE, REASON_INVARIANT);
        return InvariantFailure;
      }
      if command.nonce != nonce || command.slot >= slots.Length { return StaleToken; }
      var slot := slots[command.slot];
      if slot.lastTerminalValid && slot.lastTerminal == e.operation {
        InstanceFault(command, REASON_DUPLICATE_EVENT);
        return InvariantFailure;
      }
      if slot.handle != command || slot.operation != e.operation { return StaleToken; }
      if !AwaitsEvent(slot, kind) || EventBroken(e, slot.descriptor.length) {
        InstanceFault(command, REASON_INVARIANT);
        return InvariantFailure;
      }
      ApplyEvent(command.slot, kind, e);
      return Ok;
    }

    method PollProvider(kind: nat, answer: PollAnswer) returns (result: ApiResult, event: bool)
      requires Valid()
      modifies this`phase, this`traceHead, this`traceCount, this`traceSequence, this`log, this`hist, ring, slots, aborts
      ensures Valid()
      ensures (View(), result, event) == M.PollProvider(old(View()), kind, answer)
    {
      if !Provides(kind) { return Ok, false; }
      if !answer.ok || answer.count > 1 {
        InstanceFault(ZERO_HANDLE, REASON_INVARIANT);
        return InvariantFailure, false;
      }
      if answer.count == 1 {
        result := ProcessEvent(kind, answer.event);
        if result.InvariantFailure? { return result, false; }
        return Ok, true;
      }
      return Ok, false;
    }

    // -------------------------------------------------------------- the step loop

    method ProgressSlot(i: nat, answer: UnitAnswer)
      requires Valid() && i < slots.Length && Actionable(slots[i])
      modifies this`phase, this`traceHead, this`traceCount, this`traceSequence, this`log, this`hist, ring, slots
      ensures Valid()
      ensures View() == M.ProgressSlot(old(View()), i, answer)
    {
      var slot := slots[i];
      if slot.state.Accepted? {
        if slot.descriptor.providerKind == PROVIDER_NONE {
          MakeCompletion(i, COMPLETION_SUCCESS, ZERO_FAULT);
        } else {
          SetState(i, Dispatched, 0);
        }
      } else if slot.state.Dispatched? || slot.state.Held? {
        SubmitProvider(i, answer.submit);
      } else if !slot.owned {
        DrainSlot(i);
      } else if !Provides(slot.descriptor.providerKind) || !answer.cancelOk {
        InstanceFault(slot.handle, REASON_INVARIANT);
      } else {
        Store(i, slot.(cancelSent := true));
      }
    }

    /** The scan for work; the cursor moves while the scan counts from it. */
    method FindWork() returns (found: Option<nat>)
      modifies this`commandCursor
      ensures (commandCursor, found) == Scan(slots[..], old(commandCursor), 0)
    {
      for scanned := 0 to slots.Length
        invariant Scan(slots[..], commandCursor, scanned) == Scan(slots[..], old(commandCursor), 0)
      {
        var index := Wrap(commandCursor + scanned, slots.Length);
        if slots[index].inUse {
          commandCursor := Wrap(index + 1, slots.Length);
          if Actionable(slots[index]) { return Some(index); }
        }
      }
      return None;
    }

    method ProgressCommand(answer: UnitAnswer) returns (moved: bool)
      requires Valid()
      modifies this, ring, slots
      ensures Valid()
      ensures (View(), moved) == M.Progress(old(View()), answer)
    {
      var found := FindWork();
      if found.None? { return false; }
      ProgressSlot(found.value, answer);
      return true;
    }

    method AnyCommands() returns (any: bool)
      ensures any == !NoCommands(slots[..])
    {
      for i := 0 to slots.Length
        invariant forall j :: 0 <= j < i ==> !slots[j].inUse
      {
        if slots[i].inUse {
          assert slots[..][i].inUse;
          return true;
        }
      }
      return false;
    }

    method AnyTickets() returns (any: bool)
      ensures any == !NoTickets(aborts[..])
    {
      for k := 0 to aborts.Length
        invariant forall j :: 0 <= j < k ==> !aborts[j].used
      {
        if aborts[k].used {
          assert aborts[..][k].used;
          return true;
        }
      }
      return false;
    }

    method CheckDrain(q: QuiescentAnswer)
      requires Valid()
      modifies this`phase, this`traceHead, this`traceCount, this`traceSequence, this`log, ring
      ensures Valid()
      ensures View() == M.CheckDrain(old(View()), q)
    {
      if !Draining(phase) { return; }
      var commands := AnyCommands();
      var tickets := AnyTickets();
      if commands || tickets { return; }
      if (hasDma && !q.dmaOk) || (hasNfc && !q.nfcOk) {
        InstanceFault(ZERO_HANDLE, REASON_INVARIANT);
        return;
      }
      if (hasDma && !q.dma) || (hasNfc && !q.nfc) { return; }
      var next := if phase.DrainReset? then AckReset else AckTeardown;
      var kind := if phase.DrainReset? then TRACE_RESET else TRACE_TEARDOWN;
      Push(kind, ZERO_HANDLE, PhaseCode(phase), PhaseCode(next), 0);
      phase := next;
    }

    /** One unit of the loop. */
    method StepUnit(answer: UnitAnswer)
      requires Valid()
      modifies this, ring, slots, aborts
      ensures Valid()
      ensures View() == M.StepUnit(old(View()), answer)
    {
      var kind := if providerCursor == 0 then PROVIDER_DMA else PROVIDER_NFC;
      providerCursor := if providerCursor == 0 then 1 else 0;
      var _, event := PollProvider(kind, answer.poll);
      if phase.Faulted? { return; }
      if !event { var _ := ProgressCommand(answer); }
      if phase.Faulted? { return; }
      CheckDrain(answer.quiescent);
    }

    method Step(answers: seq<UnitAnswer>) returns (result: ApiResult)
      requires Valid()
      modifies this, ring, slots, aborts
      ensures Valid()
      ensures (View(), result) == M.Step(old(View()), answers)
    {
      if answers == [] { return InvalidContract; }
      if Resting(phase) { return WrongState; }
      var used := 0;
      while used < |answers| && !Resting(phase)
        invariant used <= |answers| && Valid()
        invariant StepLoop(View(), answers[used..]) == StepLoop(old(View()), answers)
      {
        assert answers[used..][0] == answers[used] && answers[used..][1..] == answers[used + 1..];
        StepUnit(answers[used]);
        used := used + 1;
      }
      return if phase.Faulted? then InvariantFailure else Ok;
    }

    // -------------------------------------------------------------- completion leases

    method FindCommand(command: Handle) returns (found: Option<nat>)
      ensures found == M.FindCommand(View(), command)
    {
      if command.nonce == nonce && command.slot < slots.Length && slots[command.slot].inUse
         && slots[command.slot].handle == command {
        return Some(command.slot);
      }
      return None;
    }

    method Acquire(command: Handle) returns (result: ApiResult, lease: Lease, intent: Intent)
      requires Valid()
      modifies this, ring, slots
      ensures Valid()
      ensures (View(), result, lease, intent) == M.Acquire(old(View()), command)
    {
      lease, intent := Lease(ZERO_HANDLE, 0, 0), ZERO_INTENT;
      if phase != Ready { return WrongState, lease, intent; }
      var found := FindCommand(command);
      if found.None? { return StaleToken, lease, intent; }
      var i := found.value;
      var slot := slots[i];
      if !slot.state.CompletionReady? || !slot.completionValid || slot.leaseActive { return WrongState, lease, intent; }
      if slot.leaseGeneration >= cap.leaseGenerationLimit {
        InstanceFault(slot.handle, API_COUNTER_EXHAUSTED);
        return CounterExhausted, lease, intent;
      }
      lease, intent := GrantLease(i);
      return Ok, lease, intent;
    }

    method GrantLease(i: nat) returns (lease: Lease, intent: Intent)
      requires Valid() && i < slots.Length
      modifies this, ring, slots
      ensures Valid()
      ensures (View(), lease, intent) == M.GrantLease(old(View()), i)
    {
      var slot := slots[i];
      lease, intent := Lease(slot.handle, slot.leaseGeneration + 1, 0), slot.completion;
      Store(i, slot.(leaseGeneration := slot.leaseGeneration + 1, leaseActive := true));
      hist := hist.(acquired := hist.acquired + [Acquisition(lease, intent)]);
      SetState(i, CompletionLeased, 0);
      Push(TRACE_LEASE, slot.handle, StateCode(CompletionReady), StateCode(CompletionLeased), lease.generation);
    }

    method ValidateLease(lease: Lease) returns (result: ApiResult, i: nat)
      ensures (result, i) == M.ValidateLease(View(), lease)
    {
      if lease.reserved != 0 { return InvalidContract, 0; }
      var found := FindCommand(lease.command);
      if found.None? { return StaleToken, 0; }
      var slot := slots[found.value];
      if slot.handle.epoch != epoch { return StaleToken, 0; }
      if !slot.state.CompletionLeased? || !slot.leaseActive || lease.generation != slot.leaseGeneration {
        return StaleToken, 0;
      }
      return Ok, found.value;
    }

    method Release(lease: Lease) returns (result: ApiResult)
      requires Valid()
      modifies this, ring, slots
      ensures Valid()
      ensures (View(), result) == M.Release(old(View()), lease)
    {
      if phase != Ready { return WrongState; }
      var i;
      result, i := ValidateLease(lease);
      if result != Ok { return; }
      Store(i, slots[i].(leaseActive := false));
      hist := hist.(closed := hist.closed + [lease]);
      SetState(i, CompletionReady, 0);
    }

    method Consume(lease: Lease) returns (result: ApiResult)
      requires Valid()
      modifies this, ring, slots
      ensures Valid()
      ensures (View(), result) == M.Consume(old(View()), lease)
    {
      if phase != Ready { return WrongState; }
      var i;
      result, i := ValidateLease(lease);
      if result != Ok { return; }
      hist := hist.(closed := hist.closed + [lease], consumed := hist.consumed + {slots[i].handle.uid});
      Store(i, slots[i].(leaseActive := false));
      Retire(i);
    }

    // -------------------------------------------------------------- aborts

    method AllocateAbort() returns (free: Option<nat>, exhausted: bool)
      ensures free == FreeAbort(aborts[..], cap.ticketGenerationLimit, 0)
      ensures free.None? ==> exhausted == AbortsExhausted(aborts[..], cap.ticketGenerationLimit)
    {
      exhausted := false;
      for k := 0 to aborts.Length
        invariant FreeAbort(aborts[..], cap.ticketGenerationLimit, 0)
          == FreeAbort(aborts[..], cap.ticketGenerationLimit, k)
        invariant exhausted <==>
                  exists j :: 0 <= j < k && !aborts[j].used && aborts[j].generation >= cap.ticketGenerationLimit
      {
        if !aborts[k].used {
          if aborts[k].generation < cap.ticketGenerationLimit { return Some(k), exhausted; }
          exhausted := true;
        }
      }
      assert forall j :: 0 <= j < aborts.Length ==> aborts[..][j] == aborts[j];
      return None, exhausted;
    }

    method AbortRequest(command: Handle) returns (result: ApiResult, ticket: Ticket, outcome: AbortOutcome)
      requires Valid()
      modifies this, ring, slots, aborts
      ensures Valid()
      ensures (View(), result, ticket, outcome) == M.AbortRequest(old(View()), command)
    {
      ticket, outcome := Ticket(ZERO_HANDLE, 0, 0), Pending;
      if phase != Ready { return WrongState, ticket, outcome; }
      var found := FindCommand(command);
      if found.None? { return StaleToken, ticket, outcome; }
      var known := AbortForCommand(command);
      if known.Some? { return Ok, aborts[known.value].ticket, aborts[known.value].outcome; }
      var free, exhausted := AllocateAbort();
      if free.None? {
        if exhausted {
          InstanceFault(command, API_COUNTER_EXHAUSTED);
          return CounterExhausted, ticket, outcome;
        }
        return NoCapacity, ticket, outcome;
      }
      result, ticket, outcome := GrantAbort(found.value, free.value, command);
    }

    method GrantAbort(i: nat, k: nat, command: Handle)
      returns (result: ApiResult, ticket: Ticket, outcome: AbortOutcome)
      requires Valid() && i < slots.Length && k < aborts.Length
      modifies this, ring, slots, aborts
      ensures Valid()
      ensures (View(), result, ticket, outcome) == M.GrantAbort(old(View()), i, k, command)
    {
      var abort := AllocatedAbort(aborts[k], command);
      var decided := AbortOutcomeFor(slots[i].state);
      if decided.None? {
        aborts[k] := abort.(used := false);
        assert aborts[..] == old(aborts[..])[k := aborts[k]];
        Store(i, slots[i].(abortIndex := NO_ABORT));
        return WrongState, Ticket(ZERO_HANDLE, 0, 0), Pending;
      }
      outcome := decided.value;
      aborts[k] := abort.(outcome := outcome);
      assert aborts[..] == old(aborts[..])[k := aborts[k]];
      Store(i, slots[i].(abortIndex := k));
      if outcome.Terminal? {
        MakeCompletion(i, COMPLETION_ABORTED, CANCELLED_FAULT);
      } else if outcome.Pending? {
        SetState(i, CancelPending, 0);
      }
      Push(TRACE_ABORT, command, OutcomeCode(Pending), OutcomeCode(outcome), 0);
      return Ok, abort.ticket, outcome;
    }

    method FindAbort(ticket: Ticket) returns (r: Option<nat>)
      ensures r == M.FindAbort(aborts[..], ticket, 0)
    {
      for k := 0 to aborts.Length
        invariant M.FindAbort(aborts[..], ticket, 0) == M.FindAbort(aborts[..], ticket, k)
      {
        if aborts[k].used && aborts[k].generation == ticket.generation && aborts[k].ticket.command == ticket.command {
          return Some(k);
        }
      }
      return None;
    }

    method AbortQuery(ticket: Ticket) returns (result: ApiResult, outcome: AbortOutcome)
      ensures (result, outcome) == M.AbortQuery(View(), ticket)
    {
      if ticket.reserved != 0 { return StaleToken, Pending; }
      var found := FindAbort(ticket);
      if found.None? { return StaleToken, Pending; }
      return Ok, aborts[found.value].outcome;
    }

    method AbortAck(ticket: Ticket) returns (result: ApiResult)
      requires Valid()
      modifies aborts
      ensures Valid()
      ensures (View(), result) == M.AbortAck(old(View()), ticket)
    {
      if ticket.reserved != 0 { return InvalidContract; }
      if phase.Dead? { return WrongState; }
      var found := FindAbort(ticket);
      if found.None? { return StaleToken; }
      var k := found.value;
      if aborts[k].outcome.Pending? { return WrongState; }
      aborts[k] := aborts[k].(used := false);
      assert aborts[..] == old(aborts[..])[k := aborts[k]];
      return Ok;
    }

    // -------------------------------------------------------------- reset and teardown

    method SupersedeAborts()
      requires Valid()
      modifies aborts
      ensures Valid()
      ensures View() == old(View()).(aborts := SupersededAborts(old(aborts[..])))
    {
      for k := 0 to aborts.Length
        invariant forall j :: 0 <= j < aborts.Length ==>
                    aborts[j] == if j < k then SupersededAbort(old(aborts[j])) else old(aborts[j])
      {
        if aborts[k].used && aborts[k].outcome.Pending? {
          aborts[k] := aborts[k].(outcome := ResetSuperseded);
        }
      }
      assert aborts[..] == SupersededAborts(old(aborts[..]));
    }

    method DrainCommand(i: nat)
      requires Valid() && i < slots.Length
      modifies this, ring, slots
      ensures Valid()
      ensures View() == M.DrainCommand(old(View()), i)
    {
      var slot := slots[i];
      if !slot.inUse { return; }
      var quiet := slot.(leaseActive := false, completionValid := false);
      if slot.owned {
        Store(i, quiet.(cancelSent := false));
        SetState(i, ResetDrain, 0);
      } else {
        Store(i, quiet);
        DrainSlot(i);
      }
    }

    method BeginDrain(teardown: bool, answer: ResetAnswer) returns (result: ApiResult)
      requires Valid()
      modifies this, ring, slots, aborts
      ensures Valid()
      ensures (View(), result) == M.BeginDrain(old(View()), teardown, answer)
    {
      if !phase.Ready? && !phase.Faulted? { return WrongState; }
      if !teardown && epoch >= cap.controllerEpochLimit {
        InstanceFault(ZERO_HANDLE, API_COUNTER_EXHAUSTED);
        return CounterExhausted;
      }
      Enter(teardown);
      if (hasDma && !answer.dmaOk) || (hasNfc && !answer.nfcOk) {
        InstanceFault(ZERO_HANDLE, REASON_INVARIANT);
        return InvariantFailure;
      }
      Drain(answer.quiescent);
      return Ok;
    }

    method Enter(teardown: bool)
      requires Valid()
      modifies this, ring
      ensures Valid()
      ensures View() == M.Enter(old(View()), teardown)
    {
      var oldEpoch, oldPhase := epoch, phase;
      if !teardown { epoch := epoch + 1; }
      drainEpoch := oldEpoch;
      phase := if teardown then DrainTeardown else DrainReset;
      var kind := if teardown then TRACE_TEARDOWN else TRACE_RESET;
      Push(kind, ZERO_HANDLE, PhaseCode(oldPhase), PhaseCode(phase), oldEpoch);
    }

    method Drain(q: QuiescentAnswer)
      requires Valid()
      modifies this, ring, slots, aborts
      ensures Valid()
      ensures View() == M.Drain(old(View()), q)
    {
      SupersedeAborts();
      DrainAll();
      CheckDrain(q);
    }

    method DrainAll()
      requires Valid()
      modifies this, ring, slots
      ensures Valid()
      ensures View() == DrainCommands(old(View()), 0)
    {
      for i := 0 to slots.Length
        invariant Valid()
        invariant DrainCommands(View(), i) == DrainCommands(old(View()), 0)
      {
        DrainCommand(i);
      }
    }

    method ResetAck() returns (result: ApiResult)
      requires Valid()
      modifies this, ring
      ensures Valid()
      ensures (View(), result) == M.ResetAck(old(View()))
    {
      if !phase.AckReset? { return WrongState; }
      Push(TRACE_RESET, ZERO_HANDLE, PhaseCode(AckReset), PhaseCode(Ready), epoch);
      phase := Ready;
      return Ok;
    }

    method TeardownAck() returns (result: ApiResult)
      requires Valid()
      modifies this, ring
      ensures Valid()
      ensures (View(), result) == M.TeardownAck(old(View()))
    {
      if !phase.AckTeardown? { return WrongState; }
      Push(TRACE_TEARDOWN, ZERO_HANDLE, PhaseCode(AckTeardown), PhaseCode(Dead), 0);
      phase := Dead;
      return Ok;
    }
  }
}
