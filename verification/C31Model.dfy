/**
 The command lifecycle core as a pure state machine.  Whatever a provider answers is an
 argument, so every lemma about these functions holds for every provider.
 */
module C31Model {
  import opened C31Types
  import Bytes

  // ---------------------------------------------------------------- values

  datatype CmdState =
    | Free | Accepted | Dispatched | Held | Running | CancelPending
    | CompletionReady | CompletionLeased | ResetDrain | Retired

  datatype Phase = Ready | DrainReset | AckReset | DrainTeardown | AckTeardown | Faulted | Dead

  datatype AbortOutcome = Pending | Terminal | TooLate | ResetSuperseded

  datatype Handle = Handle(nonce: nat, uid: nat, epoch: nat, slot: nat, generation: nat)
  datatype Token = Token(command: Handle, cookie: nat, generation: nat, reserved: nat)
  datatype Lease = Lease(command: Handle, generation: nat, reserved: nat)
  datatype Ticket = Ticket(command: Handle, generation: nat, reserved: nat)
  datatype Fault = Fault(domain: nat, retryClass: nat, effectClass: nat, reason: nat, prefixLength: nat, reserved: nat)
  datatype Intent = Intent(command: Handle, origin: Words, fault: Fault, traceCookie: nat, result: nat)

  const ZERO_HANDLE: Handle := Handle(0, 0, 0, 0, 0)
  const ZERO_TOKEN: Token := Token(ZERO_HANDLE, 0, 0, 0)
  const ZERO_FAULT: Fault := Fault(0, 0, 0, 0, 0, 0)
  const ZERO_INTENT: Intent := Intent(ZERO_HANDLE, ZERO_WORDS, ZERO_FAULT, 0, 0)
  const ZERO_DESCRIPTOR: Descriptor := Descriptor(
    0, 0, 0, ZERO_WORDS, 0, ZERO_WORDS, ZERO_WORDS, 0, 0, 0, 0, 0, 0, 0, 0, 0)
  const NO_ABORT: nat := 0xffff
  const TRACE_LIMIT: nat := 0xffff_ffff_ffff_ffff
  const WORD32: nat := 0xffff_ffff

  // Trace kinds, fault domains and reasons that the core writes.
  const TRACE_INIT: nat := 1
  const TRACE_SUBMIT: nat := 2
  const TRACE_STATE: nat := 3
  const TRACE_PROVIDER_ACCEPT: nat := 4
  const TRACE_PROVIDER_EVENT: nat := 5
  const TRACE_COMPLETION: nat := 6
  const TRACE_LEASE: nat := 7
  const TRACE_ABORT: nat := 8
  const TRACE_RESET: nat := 9
  const TRACE_TEARDOWN: nat := 10
  const TRACE_FAULT: nat := 11
  const REASON_NONE: nat := 0
  const REASON_CANCELLED: nat := 3
  const REASON_DUPLICATE_EVENT: nat := 8
  const REASON_INVARIANT: nat := 9
  const API_COUNTER_EXHAUSTED: nat := 6

  datatype Slot = Slot(
    handle: Handle, descriptor: Descriptor, operation: Token, lastTerminal: Token, completion: Intent,
    slotGeneration: nat, operationGeneration: nat, leaseGeneration: nat, abortIndex: nat,
    state: CmdState, inUse: bool, owned: bool, cancelSent: bool, completionValid: bool,
    leaseActive: bool, lastTerminalValid: bool)

  const EMPTY_SLOT: Slot := Slot(
    ZERO_HANDLE, ZERO_DESCRIPTOR, ZERO_TOKEN, ZERO_TOKEN, ZERO_INTENT, 0, 0, 0, NO_ABORT,
    Free, false, false, false, false, false, false)

  datatype AbortSlot = AbortSlot(ticket: Ticket, generation: nat, outcome: AbortOutcome, used: bool)

  const EMPTY_ABORT: AbortSlot := AbortSlot(Ticket(ZERO_HANDLE, 0, 0), 0, Pending, false)

  datatype Entry = Entry(sequence: nat, command: Handle, kind: nat, fromState: nat, toState: nat, detail: nat)

  datatype Capacity = Capacity(
    commands: nat, abortTickets: nat, traceEntries: nat, slotGenerationLimit: nat, operationGenerationLimit: nat,
    leaseGenerationLimit: nat, ticketGenerationLimit: nat, controllerEpochLimit: nat, commandUidLimit: nat)

  predicate CapacityValid(c: Capacity)
  {
    && 0 < c.commands <= 64 && 0 < c.abortTickets <= 64 && 0 < c.traceEntries <= 1024
    && 0 < c.slotGenerationLimit <= 0xffff && 0 < c.operationGenerationLimit <= WORD32
    && 0 < c.leaseGenerationLimit <= WORD32 && 0 < c.ticketGenerationLimit <= WORD32
    && 0 < c.controllerEpochLimit <= WORD32 && 0 < c.commandUidLimit <= TRACE_LIMIT
  }

  // What happened so far: handles by uid, uids by how they ended, leases handed out and closed.
  // Kept beside the state: no transition reads it.

  datatype Acquisition = Acquisition(lease: Lease, intent: Intent)

  datatype History = History(
    issued: map<nat, Handle>, consumed: set<nat>, drained: set<nat>,
    acquired: seq<Acquisition>, closed: seq<Lease>)

  datatype Core = Core(
    cap: Capacity, nonce: nat, hasDma: bool, hasNfc: bool, phase: Phase,
    epoch: nat, drainEpoch: nat, nextUid: nat, commandCursor: nat, providerCursor: nat,
    slots: seq<Slot>, aborts: seq<AbortSlot>, log: seq<Entry>, hist: History)

  predicate Shaped(s: Core)
  {
    && CapacityValid(s.cap) && |s.slots| == s.cap.commands && |s.aborts| == s.cap.abortTickets
  }

  // ---------------------------------------------------------------- provider answers

  datatype SubmitAnswer = SubmitAnswer(disposition: nat, fault: Fault)
  datatype Event = Event(shapeValid: bool, operation: Token, fault: Fault, terminal: nat)
  datatype PollAnswer = PollAnswer(ok: bool, count: nat, event: Event)
  datatype QuiescentAnswer = QuiescentAnswer(dmaOk: bool, dma: bool, nfcOk: bool, nfc: bool)
  datatype UnitAnswer = UnitAnswer(poll: PollAnswer, submit: SubmitAnswer, cancelOk: bool, quiescent: QuiescentAnswer)

  function Initial(cap: Capacity, nonce: nat, hasDma: bool, hasNfc: bool): (s: Core)
    requires CapacityValid(cap)
    ensures Shaped(s)
  {
    var s := Core(cap, nonce, hasDma, hasNfc, Ready, 1, 0, 0, 0, 0,
                  seq(cap.commands, _ => EMPTY_SLOT), seq(cap.abortTickets, _ => EMPTY_ABORT), [],
                  History(map[], {}, {}, [], []));
    Push(s, TRACE_INIT, ZERO_HANDLE, 0, PhaseCode(Ready), 0)
  }

  function PhaseCode(p: Phase): nat
  {
    match p
    case Ready => 0 case DrainReset => 1 case AckReset => 2 case DrainTeardown => 3
    case AckTeardown => 4 case Faulted => 5 case Dead => 6
  }

  function StateCode(c: CmdState): nat
  {
    match c
    case Free => 0 case Accepted => 1 case Dispatched => 2 case Held => 3 case Running => 4
    case CancelPending => 5 case CompletionReady => 6 case CompletionLeased => 7 case ResetDrain => 8
    case Retired => 9
  }

  function OutcomeCode(o: AbortOutcome): nat
  {
    match o case Pending => 0 case Terminal => 1 case TooLate => 2 case ResetSuperseded => 3
  }

  // ---------------------------------------------------------------- helpers

  /** The two states differ at most in the trace, and in a fault the full trace raised. */
  ghost predicate Traced(s: Core, t: Core)
  {
    && t == s.(log := t.log, phase := t.phase) && (t.phase == s.phase || t.phase.Faulted?)
  }

  /** One trace entry; at the last sequence number the entry is dropped and the core faults. */
  function Push(s: Core, kind: nat, command: Handle, fromState: nat, toState: nat, detail: nat): (t: Core)
    ensures Traced(s, t)
  {
    if |s.log| >= TRACE_LIMIT then s.(phase := Faulted)
    else s.(log := s.log + [Entry(|s.log| + 1, command, kind, fromState, toState, detail)])
  }

  function RaiseFault(s: Core, command: Handle, detail: nat): (t: Core)
    ensures Traced(s.(phase := Faulted), t)
  {
    Push(s.(phase := Faulted), TRACE_FAULT, command, PhaseCode(s.phase), PhaseCode(Faulted), detail)
  }

  function WithSlot(s: Core, i: nat, slot: Slot): (t: Core)
    requires i < |s.slots|
    ensures Shaped(s) ==> Shaped(t)
  {
    s.(slots := s.slots[i := slot])
  }

  function SetState(s: Core, i: nat, state: CmdState, detail: nat): (t: Core)
    requires i < |s.slots|
    ensures Traced(WithSlot(s, i, s.slots[i].(state := state)), t)
  {
    Push(WithSlot(s, i, s.slots[i].(state := state)), TRACE_STATE, s.slots[i].handle,
         StateCode(s.slots[i].state), StateCode(state), detail)
  }

  /** The first used ticket at or after `from` that names the command. */
  function AbortFor(aborts: seq<AbortSlot>, command: Handle, from: nat): (r: Option<nat>)
    requires from <= |aborts|
    ensures r.Some? ==> from <= r.value < |aborts| && aborts[r.value].used && aborts[r.value].ticket.command == command
    ensures r.None? ==> forall k :: from <= k < |aborts| && aborts[k].used ==> aborts[k].ticket.command != command
    decreases |aborts| - from
  {
    if from == |aborts| then None
    else if aborts[from].used && aborts[from].ticket.command == command then Some(from)
    else AbortFor(aborts, command, from + 1)
  }

  /** Settles the command's pending ticket, if it has one. */
  function SettledAborts(aborts: seq<AbortSlot>, command: Handle, outcome: AbortOutcome): (r: seq<AbortSlot>)
    ensures |r| == |aborts|
  {
    var k := AbortFor(aborts, command, 0);
    if k.Some? && aborts[k.value].outcome.Pending? then aborts[k.value := aborts[k.value].(outcome := outcome)]
    else aborts
  }

  function UpdateAbort(s: Core, i: nat, outcome: AbortOutcome): (t: Core)
    requires i < |s.slots|
    ensures Traced(s.(aborts := SettledAborts(s.aborts, s.slots[i].handle, outcome)), t)
  {
    var aborts := SettledAborts(s.aborts, s.slots[i].handle, outcome);
    if aborts == s.aborts then s
    else Push(s.(aborts := aborts), TRACE_ABORT, s.slots[i].handle, OutcomeCode(Pending), OutcomeCode(outcome), 0)
  }

  function Emptied(slot: Slot): Slot
  {
    slot.(state := Free, owned := false, cancelSent := false, completionValid := false, leaseActive := false,
          abortIndex := NO_ABORT, inUse := false)
  }

  function Retire(s: Core, i: nat): (t: Core)
    requires i < |s.slots|
    ensures Traced(WithSlot(s, i, Emptied(s.slots[i])), t)
  {
    var r := SetState(s, i, Retired, 0);
    SetState(WithSlot(r, i, Emptied(r.slots[i]).(state := Retired)), i, Free, 0)
  }

  function IntentOf(slot: Slot, result: nat, fault: Fault): Intent
  {
    Intent(slot.handle, slot.descriptor.origin, fault, slot.descriptor.traceCookie, result)
  }

  function Completed(slot: Slot, result: nat, fault: Fault): Slot
  {
    slot.(completion := IntentOf(slot, result, fault), completionValid := true, leaseActive := false,
          state := CompletionReady)
  }

  function MakeCompletion(s: Core, i: nat, result: nat, fault: Fault): (t: Core)
    requires i < |s.slots|
    ensures Traced(WithSlot(s, i, Completed(s.slots[i], result, fault)), t)
  {
    var slot := s.slots[i];
    var r := SetState(WithSlot(s, i, Completed(slot, result, fault).(state := slot.state)), i, CompletionReady, result);
    Push(r, TRACE_COMPLETION, slot.handle, result, result, fault.reason)
  }

  function ProviderFailure(kind: nat): nat
  {
    if kind == PROVIDER_DMA then COMPLETION_TRANSFER_FAILURE
    else if kind == PROVIDER_NFC then COMPLETION_MEDIA_FAILURE
    else COMPLETION_RESOURCE_FAILURE
  }

  predicate HasProvider(s: Core, kind: nat)
  {
    (kind == PROVIDER_DMA && s.hasDma) || (kind == PROVIDER_NFC && s.hasNfc)
  }

  predicate FaultValid(f: Fault, length: nat)
  {
    && f.reserved == 0 && f.domain <= 5 && f.retryClass <= 3 && f.effectClass <= 3
    && (f.effectClass == 2 || f.effectClass == 3 ==> f.prefixLength <= length)
    && (f.effectClass == 0 || f.effectClass == 1 ==> f.prefixLength == 0)
    && (f.domain == 0 ==> f.retryClass == 0 && f.reason == REASON_NONE)
  }

  predicate Named(f: Fault) { f.domain != 0 && f.reason != REASON_NONE }

  /** The slot a handle names, if the handle is live. */
  function FindCommand(s: Core, command: Handle): (r: Option<nat>)
    ensures r.Some? ==> r.value == command.slot < |s.slots| && s.slots[r.value].inUse
                        && s.slots[r.value].handle == command
  {
    if command.nonce == s.nonce && command.slot < |s.slots| && s.slots[command.slot].inUse
       && s.slots[command.slot].handle == command then Some(command.slot)
    else None
  }

  // ---------------------------------------------------------------- submission

  /** The first slot at or after `from` that can take the command. */
  function FreeSlot(slots: seq<Slot>, cap: Capacity, kind: nat, from: nat): (r: Option<nat>)
    requires from <= |slots|
    ensures r.Some? ==> from <= r.value < |slots| && !slots[r.value].inUse
                        && slots[r.value].slotGeneration < cap.slotGenerationLimit
    decreases |slots| - from
  {
    if from == |slots| then None
    else if !slots[from].inUse && !SlotExhausted(slots[from], cap, kind) then Some(from)
    else FreeSlot(slots, cap, kind, from + 1)
  }

  predicate SlotExhausted(slot: Slot, cap: Capacity, kind: nat)
  {
    slot.slotGeneration >= cap.slotGenerationLimit
    || (kind != PROVIDER_NONE && slot.operationGeneration >= cap.operationGenerationLimit)
  }

  predicate AnyExhausted(slots: seq<Slot>, cap: Capacity, kind: nat)
  {
    exists i :: 0 <= i < |slots| && !slots[i].inUse && SlotExhausted(slots[i], cap, kind)
  }

  function NewHandle(s: Core, i: nat): Handle
    requires i < |s.slots|
  {
    Handle(s.nonce, s.nextUid + 1, s.epoch, i, s.slots[i].slotGeneration + 1)
  }

  /** What a provider is asked to echo: the exclusive or of three words the caller chose. */
  function Cookie(d: Descriptor): nat
  {
    Bytes.Xor64(Bytes.Xor64(d.providerRequest.word0, d.providerRequest.word1), d.traceCookie)
  }

  function FilledSlot(slot: Slot, handle: Handle, d: Descriptor): Slot
  {
    var generation := slot.operationGeneration + if d.providerKind != PROVIDER_NONE then 1 else 0;
    slot.(slotGeneration := slot.slotGeneration + 1, operationGeneration := generation, inUse := true, owned := false,
          cancelSent := false, completionValid := false, leaseActive := false, lastTerminalValid := false,
          abortIndex := NO_ABORT, state := Accepted, descriptor := d, completion := ZERO_INTENT, handle := handle,
          operation := Token(handle, Cookie(d), generation, 0))
  }

  function Fill(s: Core, i: nat, d: Descriptor): (t: Core)
    requires i < |s.slots|
    ensures |t.slots| == |s.slots| && |t.aborts| == |s.aborts| && t.cap == s.cap
  {
    var handle := NewHandle(s, i);
    Push(WithSlot(s, i, FilledSlot(s.slots[i], handle, d)).(
           nextUid := s.nextUid + 1, hist := s.hist.(issued := s.hist.issued[handle.uid := handle])),
         TRACE_SUBMIT, handle, StateCode(Free), StateCode(Accepted), d.providerKind)
  }

  function Submit(s: Core, d: Descriptor): (out: (Core, ApiResult, Handle))
    requires Shaped(s)
    ensures Shaped(out.0)
  {
    if ValidateDescriptor(d) != Ok then (s, ValidateDescriptor(d), ZERO_HANDLE)
    else if s.phase != Ready then (s, WrongState, ZERO_HANDLE)
    else if s.nextUid >= s.cap.commandUidLimit then
      (RaiseFault(s, ZERO_HANDLE, API_COUNTER_EXHAUSTED), CounterExhausted, ZERO_HANDLE)
    else
      var slot := FreeSlot(s.slots, s.cap, d.providerKind, 0);
      if slot.Some? then (Fill(s, slot.value, d), Ok, NewHandle(s, slot.value))
      else if AnyExhausted(s.slots, s.cap, d.providerKind) then
        (RaiseFault(s, ZERO_HANDLE, API_COUNTER_EXHAUSTED), CounterExhausted, ZERO_HANDLE)
      else (s, NoCapacity, ZERO_HANDLE)
  }

  // ---------------------------------------------------------------- provider work

  predicate SubmitAnswerBroken(answer: SubmitAnswer, length: nat)
  {
    || answer.disposition > 2
    || !FaultValid(answer.fault, length)
    || (answer.disposition <= 1 && answer.fault != ZERO_FAULT)
    || (answer.disposition == 2 && !Named(answer.fault))
  }

  function SubmitProvider(s: Core, i: nat, answer: SubmitAnswer): (t: Core)
    requires i < |s.slots|
    ensures Shaped(s) ==> Shaped(t)
  {
    var slot := s.slots[i];
    if !HasProvider(s, slot.descriptor.providerKind) then MakeCompletion(s, i, COMPLETION_UNSUPPORTED, ZERO_FAULT)
    else if SubmitAnswerBroken(answer, slot.descriptor.length) then RaiseFault(s, slot.handle, REASON_INVARIANT)
    else if answer.disposition == 0 then
      Push(SetState(WithSlot(s, i, slot.(owned := true)), i, Running, 0),
           TRACE_PROVIDER_ACCEPT, slot.handle, 0, 0, slot.descriptor.providerKind)
    else if answer.disposition == 1 then SetState(s, i, Held, 0)
    else MakeCompletion(s, i, ProviderFailure(slot.descriptor.providerKind), answer.fault)
  }

  predicate EventBroken(e: Event, length: nat)
  {
    || !FaultValid(e.fault, length)
    || (e.terminal == 0 && e.fault.domain != 0)
    || (e.terminal != 0 && !Named(e.fault))
  }

  predicate AwaitsEvent(slot: Slot, kind: nat)
  {
    && slot.descriptor.providerKind == kind && slot.owned
    && (slot.state.Running? || slot.state.CancelPending? || slot.state.ResetDrain?)
  }

  /** The slot after its provider operation ended. */
  function TerminalSlot(slot: Slot, e: Event): Slot
  {
    slot.(owned := false, lastTerminal := e.operation, lastTerminalValid := true)
  }

  function DrainSlot(s: Core, i: nat): (t: Core)
    requires i < |s.slots|
    ensures var drained := s.hist.drained + {s.slots[i].handle.uid};
            Traced(WithSlot(s, i, Emptied(s.slots[i])).(hist := s.hist.(drained := drained)), t)
  {
    Retire(s.(hist := s.hist.(drained := s.hist.drained + {s.slots[i].handle.uid})), i)
  }

  function EventResult(kind: nat, e: Event): nat
  {
    if e.terminal == 0 then COMPLETION_SUCCESS
    else if e.terminal == 1 then COMPLETION_ABORTED
    else ProviderFailure(kind)
  }

  /** What a terminal event makes of the command's pending ticket. */
  function EventOutcome(e: Event): AbortOutcome { if e.terminal == 0 then TooLate else Terminal }

  /** What a well-formed terminal event does to the slot that waits for it. */
  function ApplyEvent(s: Core, i: nat, kind: nat, e: Event): (t: Core)
    requires i < |s.slots|
    ensures Shaped(s) ==> Shaped(t)
  {
    var slot := s.slots[i];
    var r := Push(WithSlot(s, i, TerminalSlot(slot, e)), TRACE_PROVIDER_EVENT, slot.handle,
                  StateCode(slot.state), StateCode(slot.state), e.terminal);
    if Draining(r.phase) || slot.state.ResetDrain? then DrainSlot(r, i)
    else
      MakeCompletion(UpdateAbort(r, i, EventOutcome(e)), i,
                     EventResult(kind, e), e.fault)
  }

  function ProcessEvent(s: Core, kind: nat, e: Event): (out: (Core, ApiResult))
    ensures Shaped(s) ==> Shaped(out.0)
  {
    var command := e.operation.command;
    if !e.shapeValid || e.terminal > 2 || !FaultValid(e.fault, 0xffff_ffff) then
      (RaiseFault(s, ZERO_HANDLE, REASON_INVARIANT), InvariantFailure)
    else if command.nonce != s.nonce || command.slot >= |s.slots| then (s, StaleToken)
    else
      var slot := s.slots[command.slot];
      if slot.lastTerminalValid && slot.lastTerminal == e.operation then
        (RaiseFault(s, command, REASON_DUPLICATE_EVENT), InvariantFailure)
      else if slot.handle != command || slot.operation != e.operation then (s, StaleToken)
      else if !AwaitsEvent(slot, kind) || EventBroken(e, slot.descriptor.length) then
        (RaiseFault(s, command, REASON_INVARIANT), InvariantFailure)
      else (ApplyEvent(s, command.slot, kind, e), Ok)
  }

  /** Polls one provider; the flag says whether an event was taken. */
  function PollProvider(s: Core, kind: nat, answer: PollAnswer): (out: (Core, ApiResult, bool))
    ensures Shaped(s) ==> Shaped(out.0)
  {
    if !HasProvider(s, kind) then (s, Ok, false)
    else if !answer.ok || answer.count > 1 then (RaiseFault(s, ZERO_HANDLE, REASON_INVARIANT), InvariantFailure, false)
    else if answer.count == 0 then (s, Ok, false)
    else
      var (t, result) := ProcessEvent(s, kind, answer.event);
      if result.InvariantFailure? then (t, result, false) else (t, Ok, true)
  }

  // ---------------------------------------------------------------- the step loop

  /** What the scan does with a slot in use, if anything. */
  predicate Actionable(slot: Slot)
  {
    || slot.state.Accepted? || slot.state.Dispatched? || slot.state.Held?
    || (slot.state.ResetDrain? && !slot.owned)
    || ((slot.state.CancelPending? || slot.state.ResetDrain?) && slot.owned && !slot.cancelSent)
  }

  function ProgressSlot(s: Core, i: nat, answer: UnitAnswer): (t: Core)
    requires i < |s.slots| && Actionable(s.slots[i])
    ensures Shaped(s) ==> Shaped(t)
  {
    var slot := s.slots[i];
    if slot.state.Accepted? then
      if slot.descriptor.providerKind == PROVIDER_NONE then MakeCompletion(s, i, COMPLETION_SUCCESS, ZERO_FAULT)
      else SetState(s, i, Dispatched, 0)
    else if slot.state.Dispatched? || slot.state.Held? then SubmitProvider(s, i, answer.submit)
    else if !slot.owned then DrainSlot(s, i)
    else if !HasProvider(s, slot.descriptor.providerKind) || !answer.cancelOk then
      RaiseFault(s, slot.handle, REASON_INVARIANT)
    else WithSlot(s, i, slot.(cancelSent := true))
  }

  /** An index reduced to a ring of `n` places. */
  function Wrap(i: nat, n: nat): (r: nat)
    requires n > 0
    ensures r < n && (i < n ==> r == i) && (n <= i < 2 * n ==> r == i - n)
  {
    i % n
  }

  /**
   The scan from its `scanned`-th probe on: the slot it stops at, and the cursor it leaves.  The
   cursor moves past every slot in use it sees, and the next probe counts from the moved cursor.
   */
  function Scan(slots: seq<Slot>, cursor: nat, scanned: nat): (out: (nat, Option<nat>))
    requires scanned <= |slots|
    ensures out.1.Some? ==> out.1.value < |slots| && slots[out.1.value].inUse && Actionable(slots[out.1.value])
    decreases |slots| - scanned
  {
    if scanned == |slots| then (cursor, None)
    else
      var index := Wrap(cursor + scanned, |slots|);
      if !slots[index].inUse then Scan(slots, cursor, scanned + 1)
      else if Actionable(slots[index]) then (Wrap(index + 1, |slots|), Some(index))
      else Scan(slots, Wrap(index + 1, |slots|), scanned + 1)
  }

  function Progress(s: Core, answer: UnitAnswer): (out: (Core, bool))
    ensures Shaped(s) ==> Shaped(out.0)
  {
    var (cursor, found) := Scan(s.slots, s.commandCursor, 0);
    var r := s.(commandCursor := cursor);
    if found.None? then (r, false) else (ProgressSlot(r, found.value, answer), true)
  }

  predicate NoCommands(slots: seq<Slot>) { forall i :: 0 <= i < |slots| ==> !slots[i].inUse }
  predicate NoTickets(aborts: seq<AbortSlot>) { forall k :: 0 <= k < |aborts| ==> !aborts[k].used }

  predicate Draining(p: Phase) { p.DrainReset? || p.DrainTeardown? }

  /** Leaves the drain once nothing is left and both providers are quiet. */
  function CheckDrain(s: Core, q: QuiescentAnswer): (t: Core)
    ensures t == s.(phase := t.phase, log := t.log)
  {
    if !Draining(s.phase) || !NoCommands(s.slots) || !NoTickets(s.aborts) then s
    else if (s.hasDma && !q.dmaOk) || (s.hasNfc && !q.nfcOk) then RaiseFault(s, ZERO_HANDLE, REASON_INVARIANT)
    else if (s.hasDma && !q.dma) || (s.hasNfc && !q.nfc) then s
    else if s.phase.DrainReset? then
      Push(s, TRACE_RESET, ZERO_HANDLE, PhaseCode(s.phase), PhaseCode(AckReset), 0).(phase := AckReset)
    else
      Push(s, TRACE_TEARDOWN, ZERO_HANDLE, PhaseCode(s.phase), PhaseCode(AckTeardown), 0).(phase := AckTeardown)
  }

  /** The phases in which the loop has nothing to do. */
  predicate Resting(p: Phase) { p.Dead? || p.AckReset? || p.AckTeardown? || p.Faulted? }

  function Turned(s: Core): Core { s.(providerCursor := if s.providerCursor == 0 then 1 else 0) }

  function TurnKind(s: Core): nat { if s.providerCursor == 0 then PROVIDER_DMA else PROVIDER_NFC }

  /** One unit: a bounded poll of one provider, then at most one transition, then the drain check. */
  function StepUnit(s: Core, answer: UnitAnswer): (t: Core)
    requires Shaped(s)
    ensures Shaped(t)
  {
    var (polled, result, event) := PollProvider(Turned(s), TurnKind(s), answer.poll);
    if polled.phase.Faulted? then polled
    else
      var moved := if event then polled else Progress(polled, answer).0;
      if moved.phase.Faulted? then moved else CheckDrain(moved, answer.quiescent)
  }

  function StepLoop(s: Core, answers: seq<UnitAnswer>): (t: Core)
    requires Shaped(s)
    ensures Shaped(t)
    decreases |answers|
  {
    if answers == [] || Resting(s.phase) then s else StepLoop(StepUnit(s, answers[0]), answers[1..])
  }

  function Step(s: Core, answers: seq<UnitAnswer>): (out: (Core, ApiResult))
    requires Shaped(s)
    ensures Shaped(out.0)
  {
    if answers == [] then (s, InvalidContract)
    else if Resting(s.phase) then (s, WrongState)
    else
      var t := StepLoop(s, answers);
      (t, if t.phase.Faulted? then InvariantFailure else Ok)
  }

  // ---------------------------------------------------------------- completion leases

  function LeasedSlot(slot: Slot): Slot
  {
    slot.(leaseGeneration := slot.leaseGeneration + 1, leaseActive := true, state := CompletionLeased)
  }

  function Acquire(s: Core, command: Handle): (out: (Core, ApiResult, Lease, Intent))
    requires Shaped(s)
    ensures Shaped(out.0)
  {
    var none := Lease(ZERO_HANDLE, 0, 0);
    if s.phase != Ready then (s, WrongState, none, ZERO_INTENT)
    else
      var found := FindCommand(s, command);
      if found.None? then (s, StaleToken, none, ZERO_INTENT)
      else
        var i := found.value;
        var slot := s.slots[i];
        if !slot.state.CompletionReady? || !slot.completionValid || slot.leaseActive then
          (s, WrongState, none, ZERO_INTENT)
        else if slot.leaseGeneration >= s.cap.leaseGenerationLimit then
          (RaiseFault(s, slot.handle, API_COUNTER_EXHAUSTED), CounterExhausted, none, ZERO_INTENT)
        else
          var (t, lease, intent) := GrantLease(s, i);
          (t, Ok, lease, intent)
  }

  /** A new lease on the completion in slot `i`. */
  function GrantLease(s: Core, i: nat): (out: (Core, Lease, Intent))
    requires i < |s.slots|
    ensures Shaped(s) ==> Shaped(out.0)
    ensures Traced(WithSlot(s, i, LeasedSlot(s.slots[i])).(
                     hist := s.hist.(acquired := s.hist.acquired + [Acquisition(out.1, out.2)])), out.0)
  {
    var slot := s.slots[i];
    var lease := Lease(slot.handle, slot.leaseGeneration + 1, 0);
    var r := SetState(WithSlot(s, i, LeasedSlot(slot).(state := slot.state)).(
                        hist := s.hist.(acquired := s.hist.acquired + [Acquisition(lease, slot.completion)])),
                      i, CompletionLeased, 0);
    (Push(r, TRACE_LEASE, slot.handle, StateCode(CompletionReady), StateCode(CompletionLeased), lease.generation),
     lease, slot.completion)
  }

  /** The slot a lease holds, or why it holds none. */
  function ValidateLease(s: Core, lease: Lease): (out: (ApiResult, nat))
    ensures out.0.Ok? ==> out.1 < |s.slots| && FindCommand(s, lease.command) == Some(out.1)
                          && s.slots[out.1].state.CompletionLeased? && s.slots[out.1].leaseActive
                          && s.slots[out.1].leaseGeneration == lease.generation
  {
    if lease.reserved != 0 then (InvalidContract, 0)
    else
      var found := FindCommand(s, lease.command);
      if found.None? then (StaleToken, 0)
      else
        var slot := s.slots[found.value];
        if slot.handle.epoch != s.epoch then (StaleToken, 0)
        else if !slot.state.CompletionLeased? || !slot.leaseActive || lease.generation != slot.leaseGeneration then
          (StaleToken, 0)
        else (Ok, found.value)
  }

  function Release(s: Core, lease: Lease): (out: (Core, ApiResult))
    requires Shaped(s)
    ensures Shaped(out.0)
  {
    if s.phase != Ready then (s, WrongState)
    else
      var (result, i) := ValidateLease(s, lease);
      if result != Ok then (s, result)
      else
        (SetState(WithSlot(s, i, s.slots[i].(leaseActive := false)).(
                    hist := s.hist.(closed := s.hist.closed + [lease])), i, CompletionReady, 0), Ok)
  }

  function Consume(s: Core, lease: Lease): (out: (Core, ApiResult))
    requires Shaped(s)
    ensures Shaped(out.0)
  {
    if s.phase != Ready then (s, WrongState)
    else
      var (result, i) := ValidateLease(s, lease);
      if result != Ok then (s, result)
      else
        (Retire(WithSlot(s, i, s.slots[i].(leaseActive := false)).(
                  hist := s.hist.(closed := s.hist.closed + [lease],
                                  consumed := s.hist.consumed + {s.slots[i].handle.uid})), i), Ok)
  }

  // ---------------------------------------------------------------- aborts

  /** The first ticket slot at or after `from` that can be allocated. */
  function FreeAbort(aborts: seq<AbortSlot>, limit: nat, from: nat): (r: Option<nat>)
    requires from <= |aborts|
    ensures r.Some? ==> from <= r.value < |aborts| && !aborts[r.value].used && aborts[r.value].generation < limit
    decreases |aborts| - from
  {
    if from == |aborts| then None
    else if !aborts[from].used && aborts[from].generation < limit then Some(from)
    else FreeAbort(aborts, limit, from + 1)
  }

  predicate AbortsExhausted(aborts: seq<AbortSlot>, limit: nat)
  {
    exists k :: 0 <= k < |aborts| && !aborts[k].used && aborts[k].generation >= limit
  }

  function AllocatedAbort(abort: AbortSlot, command: Handle): AbortSlot
  {
    AbortSlot(Ticket(command, abort.generation + 1, 0), abort.generation + 1, Pending, true)
  }

  const CANCELLED_FAULT: Fault := Fault(1, 3, 0, REASON_CANCELLED, 0, 0)

  /** The ticket's outcome by the state the command is in; none for a state that cannot be aborted. */
  function AbortOutcomeFor(state: CmdState): Option<AbortOutcome>
  {
    match state
    case Accepted => Some(Terminal) case Dispatched => Some(Terminal) case Held => Some(Terminal)
    case Running => Some(Pending)
    case CompletionReady => Some(TooLate) case CompletionLeased => Some(TooLate)
    case _ => None
  }

  function AbortRequest(s: Core, command: Handle): (out: (Core, ApiResult, Ticket, AbortOutcome))
    requires Shaped(s)
    ensures Shaped(out.0)
  {
    var none := Ticket(ZERO_HANDLE, 0, 0);
    if s.phase != Ready then (s, WrongState, none, Pending)
    else
      var found := FindCommand(s, command);
      if found.None? then (s, StaleToken, none, Pending)
      else
        var known := AbortFor(s.aborts, command, 0);
        if known.Some? then (s, Ok, s.aborts[known.value].ticket, s.aborts[known.value].outcome)
        else
          var free := FreeAbort(s.aborts, s.cap.ticketGenerationLimit, 0);
          if free.None? then
            if AbortsExhausted(s.aborts, s.cap.ticketGenerationLimit) then
              (RaiseFault(s, command, API_COUNTER_EXHAUSTED), CounterExhausted, none, Pending)
            else (s, NoCapacity, none, Pending)
          else GrantAbort(s, found.value, free.value, command)
  }

  /** Allocates ticket slot `k` for the command in slot `i` and acts on the command's state. */
  function GrantAbort(s: Core, i: nat, k: nat, command: Handle): (out: (Core, ApiResult, Ticket, AbortOutcome))
    requires Shaped(s) && i < |s.slots| && k < |s.aborts|
    ensures Shaped(out.0)
  {
    var abort := AllocatedAbort(s.aborts[k], command);
    var outcome := AbortOutcomeFor(s.slots[i].state);
    if outcome.None? then
      (s.(aborts := s.aborts[k := abort.(used := false)], slots := s.slots[i := s.slots[i].(abortIndex := NO_ABORT)]),
       WrongState, Ticket(ZERO_HANDLE, 0, 0), Pending)
    else
      var marked := WithSlot(s, i, s.slots[i].(abortIndex := k)).(
                      aborts := s.aborts[k := abort.(outcome := outcome.value)]);
      var r := if outcome.value.Terminal? then MakeCompletion(marked, i, COMPLETION_ABORTED, CANCELLED_FAULT)
               else if outcome.value.Pending? then SetState(marked, i, CancelPending, 0)
               else marked;
      (Push(r, TRACE_ABORT, command, OutcomeCode(Pending), OutcomeCode(outcome.value), 0), Ok, abort.ticket,
       outcome.value)
  }

  /** The first used ticket slot at or after `from` that the ticket names. */
  function FindAbort(aborts: seq<AbortSlot>, ticket: Ticket, from: nat): (r: Option<nat>)
    requires from <= |aborts|
    ensures r.Some? ==> from <= r.value < |aborts| && aborts[r.value].used
                        && aborts[r.value].generation == ticket.generation
                        && aborts[r.value].ticket.command == ticket.command
    decreases |aborts| - from
  {
    if from == |aborts| then None
    else if aborts[from].used && aborts[from].generation == ticket.generation
            && aborts[from].ticket.command == ticket.command then Some(from)
    else FindAbort(aborts, ticket, from + 1)
  }

  function AbortQuery(s: Core, ticket: Ticket): (ApiResult, AbortOutcome)
  {
    if ticket.reserved != 0 then (StaleToken, Pending)
    else
      var found := FindAbort(s.aborts, ticket, 0);
      if found.None? then (StaleToken, Pending) else (Ok, s.aborts[found.value].outcome)
  }

  function AbortAck(s: Core, ticket: Ticket): (out: (Core, ApiResult))
    requires Shaped(s)
    ensures Shaped(out.0)
  {
    if ticket.reserved != 0 then (s, InvalidContract)
    else if s.phase.Dead? then (s, WrongState)
    else
      var found := FindAbort(s.aborts, ticket, 0);
      if found.None? then (s, StaleToken)
      else if s.aborts[found.value].outcome.Pending? then (s, WrongState)
      else (s.(aborts := s.aborts[found.value := s.aborts[found.value].(used := false)]), Ok)
  }

  // ---------------------------------------------------------------- reset and teardown

  function SupersededAbort(abort: AbortSlot): AbortSlot
  {
    if abort.used && abort.outcome.Pending? then abort.(outcome := ResetSuperseded) else abort
  }

  function SupersededAborts(aborts: seq<AbortSlot>): (r: seq<AbortSlot>)
    ensures |r| == |aborts|
    ensures forall k :: 0 <= k < |r| ==> r[k] == SupersededAbort(aborts[k])
  {
    seq(|aborts|, k requires 0 <= k < |aborts| => SupersededAbort(aborts[k]))
  }

  /** What a drain does to the command in slot `i`. */
  function DrainCommand(s: Core, i: nat): (t: Core)
    requires Shaped(s) && i < |s.slots|
    ensures Shaped(t)
  {
    var slot := s.slots[i];
    if !slot.inUse then s
    else
      var quiet := slot.(leaseActive := false, completionValid := false);
      if slot.owned then SetState(WithSlot(s, i, quiet.(cancelSent := false)), i, ResetDrain, 0)
      else DrainSlot(WithSlot(s, i, quiet), i)
  }

  function DrainCommands(s: Core, i: nat): (t: Core)
    requires Shaped(s) && i <= |s.slots|
    ensures Shaped(t)
    decreases |s.slots| - i
  {
    if i == |s.slots| then s else DrainCommands(DrainCommand(s, i), i + 1)
  }

  /** What the providers answer when they are told to reset, in order. */
  datatype ResetAnswer = ResetAnswer(dmaOk: bool, nfcOk: bool, quiescent: QuiescentAnswer)

  /** The phase and the epochs of a drain, before anything is drained. */
  function Enter(s: Core, teardown: bool): (t: Core)
    ensures t == s.(epoch := t.epoch, drainEpoch := t.drainEpoch, phase := t.phase, log := t.log)
    ensures s.epoch <= t.epoch && (t.phase.Faulted? || Draining(t.phase))
  {
    var target := if teardown then DrainTeardown else DrainReset;
    Push(s.(epoch := if teardown then s.epoch else s.epoch + 1, drainEpoch := s.epoch, phase := target),
         if teardown then TRACE_TEARDOWN else TRACE_RESET, ZERO_HANDLE, PhaseCode(s.phase), PhaseCode(target), s.epoch)
  }

  /** Pending tickets are superseded, then every command is drained. */
  function Drain(s: Core, q: QuiescentAnswer): (t: Core)
    requires Shaped(s)
    ensures Shaped(t)
  {
    CheckDrain(DrainCommands(s.(aborts := SupersededAborts(s.aborts)), 0), q)
  }

  function BeginDrain(s: Core, teardown: bool, answer: ResetAnswer): (out: (Core, ApiResult))
    requires Shaped(s)
    ensures Shaped(out.0)
  {
    if !s.phase.Ready? && !s.phase.Faulted? then (s, WrongState)
    else if !teardown && s.epoch >= s.cap.controllerEpochLimit then
      (RaiseFault(s, ZERO_HANDLE, API_COUNTER_EXHAUSTED), CounterExhausted)
    else
      var entered := Enter(s, teardown);
      if (s.hasDma && !answer.dmaOk) || (s.hasNfc && !answer.nfcOk) then
        (RaiseFault(entered, ZERO_HANDLE, REASON_INVARIANT), InvariantFailure)
      else (Drain(entered, answer.quiescent), Ok)
  }

  function ResetAck(s: Core): (out: (Core, ApiResult))
    requires Shaped(s)
    ensures Shaped(out.0)
  {
    if !s.phase.AckReset? then (s, WrongState)
    else
      (Push(s, TRACE_RESET, ZERO_HANDLE, PhaseCode(AckReset), PhaseCode(Ready), s.epoch).(phase := Ready), Ok)
  }

  function TeardownAck(s: Core): (out: (Core, ApiResult))
    requires Shaped(s)
    ensures Shaped(out.0)
  {
    if !s.phase.AckTeardown? then (s, WrongState)
    else
      (Push(s, TRACE_TEARDOWN, ZERO_HANDLE, PhaseCode(AckTeardown), PhaseCode(Dead), 0).(phase := Dead), Ok)
  }
}
