/** What the command lifecycle core promises about whole runs, for every behaviour of its providers. */
module C31Theorems {
  import opened C31Types
  import opened C31Model
  import opened C31Invariant
  import opened C31Steps

  // ---------------------------------------------------------------- runs

  datatype Action =
    | DoSubmit(d: Descriptor)
    | DoStep(answers: seq<UnitAnswer>)
    | DoAcquire(command: Handle)
    | DoRelease(lease: Lease)
    | DoConsume(lease: Lease)
    | DoAbort(command: Handle)
    | DoAck(ticket: Ticket)
    | DoDrain(teardown: bool, reset: ResetAnswer)
    | DoResetAck
    | DoTeardownAck

  ghost function Act(s: Core, a: Action): (t: Core)
    requires Shaped(s)
    ensures Shaped(t)
  {
    match a
    case DoSubmit(d) => Submit(s, d).0
    case DoStep(answers) => Step(s, answers).0
    case DoAcquire(command) => Acquire(s, command).0
    case DoRelease(lease) => Release(s, lease).0
    case DoConsume(lease) => Consume(s, lease).0
    case DoAbort(command) => AbortRequest(s, command).0
    case DoAck(ticket) => AbortAck(s, ticket).0
    case DoDrain(teardown, reset) => BeginDrain(s, teardown, reset).0
    case DoResetAck => ResetAck(s).0
    case DoTeardownAck => TeardownAck(s).0
  }

  ghost function Exec(s: Core, run: seq<Action>): (t: Core)
    requires Shaped(s)
    ensures Shaped(t)
    decreases |run|
  {
    if run == [] then s else Exec(Act(s, run[0]), run[1..])
  }

  lemma InitialInv(cap: Capacity, nonce: nat, hasDma: bool, hasNfc: bool)
    requires CapacityValid(cap)
    ensures Inv(Initial(cap, nonce, hasDma, hasNfc))
  {
    var s := Initial(cap, nonce, hasDma, hasNfc);
    assert forall i :: 0 <= i < |s.slots| ==> s.slots[i] == EMPTY_SLOT;
    assert forall k :: 0 <= k < |s.aborts| ==> s.aborts[k] == EMPTY_ABORT;
  }

  /** A call keeps the invariant, takes nothing back, and only an acknowledgement gives a ticket back. */
  lemma ActKeeps(s: Core, a: Action)
    requires Inv(s)
    ensures Inv(Act(s, a)) && Evolves(s, Act(s, a)) && (!a.DoAck? ==> Kept(s, Act(s, a)))
  {
    match a
    case DoSubmit(d) => SubmitKeeps(s, d);
    case DoStep(answers) => StepKeeps(s, answers);
    case DoAcquire(command) => AcquireKeeps(s, command);
    case DoRelease(lease) => ReleaseKeeps(s, lease);
    case DoConsume(lease) => ConsumeKeeps(s, lease);
    case DoAbort(command) => AbortRequestKeeps(s, command);
    case DoAck(ticket) => AbortAckKeeps(s, ticket);
    case DoDrain(teardown, reset) => BeginDrainKeeps(s, teardown, reset);
    case DoResetAck => ResetAckKeeps(s);
    case DoTeardownAck => TeardownAckKeeps(s);
  }

  lemma StepKeeps(s: Core, answers: seq<UnitAnswer>)
    requires Inv(s)
    ensures Kept(s, Step(s, answers).0)
  {
    StepLoopKeeps(s, answers);
    Moved(s, s, Noted);
  }

  lemma {:induction false} RunKeeps(s: Core, run: seq<Action>)
    requires Inv(s)
    ensures Inv(Exec(s, run)) && Evolves(s, Exec(s, run))
    decreases |run|
  {
    if run == [] {
      Moved(s, s, Noted);
    } else {
      var t := Act(s, run[0]);
      ActKeeps(s, run[0]);
      RunKeeps(t, run[1..]);
      EvolvesOnward(s, t, Exec(t, run[1..]));
    }
  }

  ghost predicate Reachable(s: Core)
  {
    exists cap, nonce, hasDma, hasNfc, run ::
      CapacityValid(cap) && s == Exec(Initial(cap, nonce, hasDma, hasNfc), run)
  }

  lemma ReachableInv(s: Core)
    requires Reachable(s)
    ensures Inv(s)
  {
    var cap, nonce, hasDma, hasNfc, run :| CapacityValid(cap) && s == Exec(Initial(cap, nonce, hasDma, hasNfc), run);
    InitialInv(cap, nonce, hasDma, hasNfc);
    RunKeeps(Initial(cap, nonce, hasDma, hasNfc), run);
  }

  // ---------------------------------------------------------------- flags and phases

  /** Between calls a slot's state determines its flags. */
  lemma FlagsTheorem(s: Core)
    requires Reachable(s)
    ensures forall i :: 0 <= i < |s.slots| ==> Flags(s.slots[i])
  {
    ReachableInv(s);
  }

  /** What each phase says about the commands and tickets there are. */
  lemma PhaseTheorem(s: Core)
    requires Reachable(s)
    ensures Draining(s.phase) ==>
              forall i :: 0 <= i < |s.slots| && s.slots[i].inUse ==> s.slots[i].state.ResetDrain? && s.slots[i].owned
    ensures Draining(s.phase) ==> forall k :: 0 <= k < |s.aborts| && s.aborts[k].used ==> s.aborts[k].outcome != Pending
    ensures s.phase.AckReset? || s.phase.AckTeardown? || s.phase.Dead? ==> NoCommands(s.slots) && NoTickets(s.aborts)
    ensures s.phase.Ready? ==>
              forall i :: 0 <= i < |s.slots| && s.slots[i].inUse ==>
                          s.slots[i].handle.epoch == s.epoch && !s.slots[i].state.ResetDrain?
  {
    ReachableInv(s);
    forall i | 0 <= i < |s.slots| && s.slots[i].inUse
      ensures Draining(s.phase) ==> s.slots[i].state.ResetDrain? && s.slots[i].owned
      ensures s.phase.Ready? ==> s.slots[i].handle.epoch == s.epoch && !s.slots[i].state.ResetDrain?
    {
      assert Flags(s.slots[i]) && PhaseAllows(s.phase, s.epoch, s.slots[i]);
    }
    forall k | 0 <= k < |s.aborts| && s.aborts[k].used ensures Draining(s.phase) ==> s.aborts[k].outcome != Pending {
      assert TicketPlaced(s, s.aborts[k]);
    }
    if s.phase.AckReset? || s.phase.AckTeardown? || s.phase.Dead? { Emptiness(s); }
  }

  /** Lease validation without its epoch test. */
  function ValidateByGeneration(s: Core, lease: Lease): ApiResult
  {
    if lease.reserved != 0 then InvalidContract
    else
      var found := FindCommand(s, lease.command);
      if found.None? then StaleToken
      else
        var slot := s.slots[found.value];
        if slot.state.CompletionLeased? && slot.leaseActive && slot.leaseGeneration == lease.generation then Ok
        else StaleToken
  }

  /** The epoch test never decides: leases are looked at only in the ready phase. */
  lemma EpochTestIdle(s: Core, lease: Lease)
    requires Reachable(s) && s.phase.Ready?
    ensures ValidateLease(s, lease).0 == ValidateByGeneration(s, lease)
    ensures FindCommand(s, lease.command).Some? ==> lease.command.epoch == s.epoch
  {
    PhaseTheorem(s);
  }

  // ---------------------------------------------------------------- tickets

  /** Tickets name distinct commands; one is pending exactly while its command waits to be cancelled. */
  lemma TicketTheorem(s: Core)
    requires Reachable(s)
    ensures TicketsApart(s.aborts)
    ensures forall k :: 0 <= k < |s.aborts| && s.aborts[k].used ==>
                        (s.aborts[k].outcome.Pending? <==> Cancelling(s, s.aborts[k].ticket.command))
    ensures forall h :: Cancelling(s, h) ==> AbortFor(s.aborts, h, 0).Some?
  {
    ReachableInv(s);
    forall k | 0 <= k < |s.aborts| && s.aborts[k].used
      ensures s.aborts[k].outcome.Pending? <==> Cancelling(s, s.aborts[k].ticket.command)
    {
      var h := s.aborts[k].ticket.command;
      assert TicketPlaced(s, s.aborts[k]);
      if Cancelling(s, h) { assert CancelBacked(s, s.slots[h.slot]); }
    }
    forall h | Cancelling(s, h) ensures AbortFor(s.aborts, h, 0).Some? {
      assert CancelBacked(s, s.slots[h.slot]);
    }
  }

  ghost predicate Cancelling(s: Core, h: Handle) { Live(s, h) && s.slots[h.slot].state.CancelPending? }

  /** An abort request is refused for the command's state only when the core is not ready. */
  lemma AbortNeverDefaults(s: Core, command: Handle)
    requires Reachable(s)
    ensures AbortRequest(s, command).1.WrongState? <==> !s.phase.Ready?
  {
    ReachableInv(s);
    if s.phase.Ready? && FindCommand(s, command).Some? && AbortFor(s.aborts, command, 0).None? {
      Abortable(s, command);
    }
  }

  /** Only an acknowledgement of the ticket itself gives a used ticket slot back. */
  lemma UsedUntilAck(s: Core, a: Action, k: nat)
    requires Inv(s) && k < |s.aborts| && s.aborts[k].used
    requires a.DoAck? ==> a.ticket != s.aborts[k].ticket
    ensures var t := Act(s, a);
      |t.aborts| == |s.aborts| && t.aborts[k].used && t.aborts[k].ticket == s.aborts[k].ticket
      && t.aborts[k].generation == s.aborts[k].generation
  {
    ActKeeps(s, a);
    if a.DoAck? { assert TicketPlaced(s, s.aborts[k]); }
    else { assert TicketHeld(s.aborts[k], Act(s, a).aborts[k]); }
  }

  predicate Acknowledges(run: seq<Action>, ticket: Ticket) { exists j :: 0 <= j < |run| && run[j] == DoAck(ticket) }

  /** Until the ticket is acknowledged every query of it answers, with the outcome it settled on. */
  lemma {:induction false} QueryUntilAck(s: Core, run: seq<Action>, k: nat)
    requires Inv(s) && k < |s.aborts| && s.aborts[k].used && !Acknowledges(run, s.aborts[k].ticket)
    ensures var t := Exec(s, run);
      AbortQuery(t, s.aborts[k].ticket).0.Ok?
      && (!s.aborts[k].outcome.Pending? ==> AbortQuery(t, s.aborts[k].ticket).1 == s.aborts[k].outcome)
    decreases |run|
  {
    assert TicketPlaced(s, s.aborts[k]);
    if run == [] {
      FindAbortUnique(s, k);
    } else {
      var t := Act(s, run[0]);
      UsedUntilAck(s, run[0], k);
      ActKeeps(s, run[0]);
      assert TicketEvolves(s.aborts[k], t.aborts[k]);
      assert forall j :: 0 <= j < |run| - 1 ==> run[1..][j] == run[j + 1];
      QueryUntilAck(t, run[1..], k);
    }
  }

  /** So what a query answered once, for a settled ticket, every later query answers. */
  lemma SettledUntilAck(s: Core, run: seq<Action>, ticket: Ticket)
    requires Reachable(s) && AbortQuery(s, ticket).0.Ok? && AbortQuery(s, ticket).1 != Pending
    requires !Acknowledges(run, ticket)
    ensures AbortQuery(Exec(s, run), ticket) == AbortQuery(s, ticket)
  {
    ReachableInv(s);
    var k := FindAbort(s.aborts, ticket, 0).value;
    assert TicketPlaced(s, s.aborts[k]);
    QueryUntilAck(s, run, k);
  }

  lemma FindAbortUnique(s: Core, k: nat)
    requires Inv(s) && k < |s.aborts| && s.aborts[k].used
    ensures FindAbort(s.aborts, s.aborts[k].ticket, 0) == Some(k)
  {
    assert TicketPlaced(s, s.aborts[k]);
    FindAbortFrom(s.aborts, k, 0);
  }

  lemma {:induction false} FindAbortFrom(aborts: seq<AbortSlot>, k: nat, from: nat)
    requires TicketsApart(aborts) && from <= k < |aborts| && aborts[k].used
    requires aborts[k].ticket.generation == aborts[k].generation
    ensures FindAbort(aborts, aborts[k].ticket, from) == Some(k)
    decreases k - from
  {
    if from < k { FindAbortFrom(aborts, k, from + 1); }
  }

  // ---------------------------------------------------------------- handles

  /** A later submission never returns a handle an earlier one returned: numbers only grow. */
  lemma HandlesFresh(s: Core, d: Descriptor, run: seq<Action>, e: Descriptor)
    requires Reachable(s) && Submit(s, d).1.Ok? && Submit(Exec(Submit(s, d).0, run), e).1.Ok?
    ensures Submit(s, d).2.uid < Submit(Exec(Submit(s, d).0, run), e).2.uid
  {
    ReachableInv(s);
    var r := Act(s, DoSubmit(d));
    ActKeeps(s, DoSubmit(d));
    RunKeeps(r, run);
    SubmitForm(s, d);
    SubmitForm(Exec(r, run), e);
  }

  /** A handle that was issued and is no longer live stays stale, whatever follows. */
  lemma StaleForever(s: Core, run: seq<Action>, h: Handle)
    requires Reachable(s) && h.uid <= s.nextUid && !Live(s, h)
    ensures var t := Exec(s, run);
      && FindCommand(t, h).None?
      && (t.phase.Ready? ==> Acquire(t, h).1.StaleToken? && AbortRequest(t, h).1.StaleToken?)
      && (forall lease: Lease :: lease.command == h ==> !ValidateLease(t, lease).0.Ok?)
  {
    ReachableInv(s);
    RunKeeps(s, run);
    var t := Exec(s, run);
    if h.slot < |s.slots| { assert CommandEvolves(s.slots[h.slot], t.slots[h.slot], s.nextUid); }
  }

  /** The number of slots in use among the first `n`. */
  function LiveCount(slots: seq<Slot>, n: nat): nat
    requires n <= |slots|
  {
    if n == 0 then 0 else LiveCount(slots, n - 1) + if slots[n - 1].inUse then 1 else 0
  }

  ghost function LiveUids(s: Core, n: nat): set<nat>
    requires n <= |s.slots|
  {
    set i | 0 <= i < n && s.slots[i].inUse :: s.slots[i].handle.uid
  }

  lemma {:induction false} LiveUidsCounted(s: Core, n: nat)
    requires Slots(s) && n <= |s.slots|
    ensures |LiveUids(s, n)| == LiveCount(s.slots, n)
  {
    if n > 0 {
      LiveUidsCounted(s, n - 1);
      var last := s.slots[n - 1];
      if last.inUse {
        assert Owns(s, n - 1);
        forall i | 0 <= i < n - 1 && s.slots[i].inUse ensures s.slots[i].handle.uid != last.handle.uid {
          assert Owns(s, i);
        }
        assert LiveUids(s, n) == LiveUids(s, n - 1) + {last.handle.uid};
      } else {
        assert LiveUids(s, n) == LiveUids(s, n - 1);
      }
    }
  }

  /** Issued commands are the live, the consumed and the drained ones, each counted once. */
  lemma AccountsTheorem(s: Core)
    requires Reachable(s)
    ensures s.nextUid == LiveCount(s.slots, |s.slots|) + |s.hist.consumed| + |s.hist.drained|
    ensures s.hist.consumed !! s.hist.drained
  {
    ReachableInv(s);
    var live := LiveUids(s, |s.slots|);
    LiveUidsCounted(s, |s.slots|);
    forall uid ensures uid in s.hist.issued.Keys <==> uid in live + s.hist.consumed + s.hist.drained {
      if uid in live {
        var i :| 0 <= i < |s.slots| && s.slots[i].inUse && s.slots[i].handle.uid == uid;
        assert Owns(s, i);
      }
      if uid in s.hist.issued { assert Fate(s, uid); }
    }
    forall uid | uid in live ensures uid !in s.hist.consumed && uid !in s.hist.drained {
      var i :| 0 <= i < |s.slots| && s.slots[i].inUse && s.slots[i].handle.uid == uid;
      assert Owns(s, i) && Fate(s, uid) && Live(s, s.slots[i].handle);
    }
    assert s.hist.issued.Keys == live + s.hist.consumed + s.hist.drained;
    KeysCounted(s.hist.issued.Keys, s.nextUid);
  }

  lemma {:induction false} KeysCounted(keys: set<nat>, n: nat)
    requires forall uid :: uid in keys <==> 1 <= uid <= n
    ensures |keys| == n
  {
    if n == 0 {
      assert keys == {};
    } else {
      KeysCounted(keys - {n}, n - 1);
    }
  }

  // ---------------------------------------------------------------- completions

  /** Two acquires of one command, however far apart, show the same intent, under different leases. */
  lemma OneIntent(s: Core, h: Handle, run: seq<Action>)
    requires Reachable(s) && Acquire(s, h).1.Ok? && Acquire(Exec(Acquire(s, h).0, run), h).1.Ok?
    ensures Acquire(Exec(Acquire(s, h).0, run), h).3 == Acquire(s, h).3
    ensures Acquire(Exec(Acquire(s, h).0, run), h).2 != Acquire(s, h).2
  {
    ReachableInv(s);
    AcquireGrants(s, h);
    AcquireKeeps(s, h);
    var r := Acquire(s, h).0;
    RunGrants(r, run);
    var t := Exec(r, run);
    AcquireGrants(t, h);
    GrantsCompared(s.hist.acquired, t, Acquire(t, h).0, Acquisition(Acquire(s, h).2, Acquire(s, h).3),
                   Acquisition(Acquire(t, h).2, Acquire(t, h).3));
  }

  lemma AcquireGrants(s: Core, h: Handle)
    requires Inv(s) && Acquire(s, h).1.Ok?
    ensures var (t, _, lease, intent) := Acquire(s, h);
      Leases(t) && t.hist.acquired == s.hist.acquired + [Acquisition(lease, intent)]
  {
    AcquireKeeps(s, h);
    AcquireForm(s, h);
  }

  lemma RunGrants(s: Core, run: seq<Action>)
    requires Inv(s)
    ensures Inv(Exec(s, run)) && s.hist.acquired <= Exec(s, run).hist.acquired
  {
    RunKeeps(s, run);
  }

  lemma GrantsCompared(before: seq<Acquisition>, t: Core, u: Core, a: Acquisition, b: Acquisition)
    requires Leases(u) && before + [a] <= t.hist.acquired && u.hist.acquired == t.hist.acquired + [b]
    ensures GrantsAgree(a, b)
  {
    assert u.hist.acquired[|before|] == a && u.hist.acquired[|t.hist.acquired|] == b;
  }

  /** The intent of a command repeats the origin and the trace cookie it was submitted with. */
  lemma IntentEchoes(s: Core, d: Descriptor, run: seq<Action>)
    requires Reachable(s) && Submit(s, d).1.Ok?
    ensures var h := Submit(s, d).2;
      var (_, result, lease, intent) := Acquire(Exec(Submit(s, d).0, run), h);
      result.Ok? ==> lease.command == h && intent == Intent(h, d.origin, intent.fault, d.traceCookie, intent.result)
  {
    ReachableInv(s);
    var r, h := Act(s, DoSubmit(d)), Submit(s, d).2;
    SubmitForm(s, d);
    ActKeeps(s, DoSubmit(d));
    RunKeeps(r, run);
    var t := Exec(r, run);
    assert CommandEvolves(r.slots[h.slot], t.slots[h.slot], r.nextUid);
    if Acquire(t, h).1.Ok? { assert Owns(t, h.slot); }
  }

  /** A lease that a release or a consume has accepted is accepted by neither again. */
  lemma LeaseOnce(s: Core, lease: Lease, run: seq<Action>)
    requires Reachable(s) && lease in s.hist.closed
    ensures !Release(Exec(s, run), lease).1.Ok? && !Consume(Exec(s, run), lease).1.Ok?
  {
    ReachableInv(s);
    RunKeeps(s, run);
    var t := Exec(s, run);
    assert lease in t.hist.closed;
    var k :| 0 <= k < |t.hist.closed| && t.hist.closed[k] == lease;
    SpentRefused(t, t.hist.closed[k]);
  }

  lemma SpentRefused(s: Core, lease: Lease)
    requires Shaped(s) && Spent(s.slots, lease)
    ensures !Release(s, lease).1.Ok? && !Consume(s, lease).1.Ok?
  {
    assert !ValidateLease(s, lease).0.Ok?;
  }

  /** What a release or consume accepts is entered as closed, and was granted by an acquire. */
  lemma ClosedIsGranted(s: Core, lease: Lease)
    requires Reachable(s)
    ensures Release(s, lease).1.Ok? ==> lease in Release(s, lease).0.hist.closed && Granted(s, lease)
    ensures Consume(s, lease).1.Ok? ==> lease in Consume(s, lease).0.hist.closed && Granted(s, lease)
  {
    ReachableInv(s);
    ReleaseForm(s, lease);
    ConsumeForm(s, lease);
    var i := lease.command.slot;
    if ValidateLease(s, lease).0.Ok? {
      assert Granted(s, Lease(s.slots[i].handle, s.slots[i].leaseGeneration, 0));
    }
  }

  // ---------------------------------------------------------------- provider events

  /** An event that is not the awaited end of a live operation moves no command and settles no ticket. */
  lemma StrayEventMovesNothing(s: Core, kind: nat, e: Event)
    requires Reachable(s) && !ProcessEvent(s, kind, e).1.Ok?
    ensures var t := ProcessEvent(s, kind, e).0; t.slots == s.slots && t.aborts == s.aborts && t.hist == s.hist
  {
    ReachableInv(s);
    var _ := EventMoves(s, kind, e);
  }

  /** The command is complete with what the event says, and a ticket that was pending for it is settled. */
  ghost predicate CompletedBy(s: Core, t: Core, h: Handle, e: Event)
  {
    && Live(s, h) && Live(t, h) && t.slots[h.slot].state.CompletionReady?
    && var c := t.slots[h.slot].completion;
       && c.command == h && c.fault == e.fault
       && (c.result == COMPLETION_SUCCESS <==> e.terminal == 0)
       && (c.result == COMPLETION_ABORTED <==> e.terminal == 1)
       && forall k :: 0 <= k < |s.aborts| && s.aborts[k].used && s.aborts[k].ticket.command == h
                      && s.aborts[k].outcome.Pending? ==>
                        k < |t.aborts| && t.aborts[k].outcome == if e.terminal == 0 then TooLate else Terminal
  }

  /** What a provider reports is what the command completes with, and what its pending ticket settles on. */
  lemma EventCompletes(s: Core, kind: nat, e: Event)
    requires Reachable(s) && s.phase.Ready? && ProcessEvent(s, kind, e).1.Ok?
    ensures CompletedBy(s, ProcessEvent(s, kind, e).0, e.operation.command, e)
  {
    ReachableInv(s);
    var h := e.operation.command;
    assert Flags(s.slots[h.slot]) && PhaseAllows(s.phase, s.epoch, s.slots[h.slot]);
    ApplyEventForm(s, h.slot, kind, e);
    EndedIsCompleted(s, ProcessEvent(s, kind, e).0, h, kind, e);
  }

  lemma EndedIsCompleted(s: Core, t: Core, h: Handle, kind: nat, e: Event)
    requires TicketsApart(s.aborts) && Live(s, h) && Ended(s, t, h.slot, EventOutcome(e))
    requires e.terminal <= 2 && t.slots[h.slot].completion == IntentOf(s.slots[h.slot], EventResult(kind, e), e.fault)
    ensures CompletedBy(s, t, h, e)
  {
  }

  /** A provider operation is ended by at most one event, however often the provider repeats it. */
  lemma EventOnce(s: Core, kind: nat, e: Event, run: seq<Action>, again: nat, f: Event)
    requires Reachable(s) && ProcessEvent(s, kind, e).1.Ok? && f.operation == e.operation
    ensures Inv(ProcessEvent(s, kind, e).0)
    ensures !ProcessEvent(Exec(ProcessEvent(s, kind, e).0, run), again, f).1.Ok?
  {
    ReachableInv(s);
    var r, h := ProcessEvent(s, kind, e).0, e.operation.command;
    EventCloses(s, kind, e);
    RunKeeps(r, run);
    NotAwaitedAgain(r, Exec(r, run), h, again);
  }

  /** The event that ends an operation leaves its command completed or gone. */
  lemma EventCloses(s: Core, kind: nat, e: Event)
    requires Inv(s) && ProcessEvent(s, kind, e).1.Ok?
    ensures var r, h := ProcessEvent(s, kind, e).0, e.operation.command;
      && Inv(r) && h.slot < |r.slots| && h.uid <= r.nextUid && r.slots[h.slot].handle == h
      && (r.slots[h.slot].inUse ==> r.slots[h.slot].completionValid)
  {
    var h := e.operation.command;
    assert Flags(s.slots[h.slot]) && Owns(s, h.slot) && PhaseAllows(s.phase, s.epoch, s.slots[h.slot]);
    var m := EventMoves(s, kind, e);
    MoveKeeps(s, ProcessEvent(s, kind, e).0, m);
    ApplyEventForm(s, h.slot, kind, e);
  }

  lemma NotAwaitedAgain(r: Core, t: Core, h: Handle, kind: nat)
    requires Inv(r) && Inv(t) && Evolves(r, t) && h.slot < |r.slots| && h.uid <= r.nextUid
    requires r.slots[h.slot].handle == h && (r.slots[h.slot].inUse ==> r.slots[h.slot].completionValid)
    ensures t.slots[h.slot].handle == h ==> !AwaitsEvent(t.slots[h.slot], kind)
  {
    assert CommandEvolves(r.slots[h.slot], t.slots[h.slot], r.nextUid) && Flags(t.slots[h.slot]);
  }

  // ---------------------------------------------------------------- the step loop

  /** How a step budget is cut into calls does not matter. */
  lemma {:induction false} StepSlices(s: Core, a: seq<UnitAnswer>, b: seq<UnitAnswer>)
    requires Shaped(s)
    ensures StepLoop(s, a + b) == StepLoop(StepLoop(s, a), b)
    decreases |a|
  {
    if a == [] {
      assert a + b == b;
    } else if !Resting(s.phase) {
      assert (a + b)[0] == a[0] && (a + b)[1..] == a[1..] + b;
      StepSlices(StepUnit(s, a[0]), a[1..], b);
    }
  }
}
