/** What every call of the command lifecycle core keeps, whatever its providers answer. */
module C31Invariant {
  import opened C31Types
  import opened C31Model

  // ---------------------------------------------------------------- slots

  /** The four flags a lifecycle state determines; a retired command is never seen between calls. */
  predicate Flags(slot: Slot)
  {
    match slot.state
    case Free => !slot.inUse && !slot.owned && !slot.completionValid && !slot.leaseActive
    case Accepted => slot.inUse && !slot.owned && !slot.completionValid && !slot.leaseActive
    case Dispatched => slot.inUse && !slot.owned && !slot.completionValid && !slot.leaseActive
    case Held => slot.inUse && !slot.owned && !slot.completionValid && !slot.leaseActive
    case Running => slot.inUse && slot.owned && !slot.completionValid && !slot.leaseActive
    case CancelPending => slot.inUse && slot.owned && !slot.completionValid && !slot.leaseActive
    case ResetDrain => slot.inUse && slot.owned && !slot.completionValid && !slot.leaseActive
    case CompletionReady => slot.inUse && !slot.owned && slot.completionValid && !slot.leaseActive
    case CompletionLeased => slot.inUse && !slot.owned && slot.completionValid && slot.leaseActive
    case Retired => false
  }

  /** The completion names the command and repeats what its submitter attached to it. */
  predicate Echoes(slot: Slot) { slot.completion == IntentOf(slot, slot.completion.result, slot.completion.fault) }

  /** The handle in the slot is the one its submission issued, and it names this slot. */
  ghost predicate Owns(s: Core, i: nat)
    requires i < |s.slots|
  {
    var slot := s.slots[i];
    && slot.handle.slot == i && slot.handle.nonce == s.nonce && slot.handle.epoch <= s.epoch
    && slot.handle.generation == slot.slotGeneration
    && slot.handle.uid in s.hist.issued && s.hist.issued[slot.handle.uid] == slot.handle
    && (slot.completionValid ==> Echoes(slot))
  }

  ghost predicate Slots(s: Core)
  {
    forall i :: 0 <= i < |s.slots| ==> Flags(s.slots[i]) && (s.slots[i].inUse ==> Owns(s, i))
  }

  // ---------------------------------------------------------------- accounts

  ghost predicate Live(s: Core, h: Handle)
  {
    h.slot < |s.slots| && s.slots[h.slot].inUse && s.slots[h.slot].handle == h
  }

  /** An issued command is live, consumed or drained, and only one of these. */
  ghost predicate Fate(s: Core, uid: nat)
    requires uid in s.hist.issued
  {
    && s.hist.issued[uid].uid == uid
    && (Live(s, s.hist.issued[uid]) ==> uid !in s.hist.consumed && uid !in s.hist.drained)
    && (uid in s.hist.consumed ==> uid !in s.hist.drained)
    && (Live(s, s.hist.issued[uid]) || uid in s.hist.consumed || uid in s.hist.drained)
  }

  ghost predicate Accounts(s: Core)
  {
    && (forall uid :: uid in s.hist.issued <==> 1 <= uid <= s.nextUid)
    && (forall uid :: uid in s.hist.issued ==> Fate(s, uid))
    && s.hist.consumed <= s.hist.issued.Keys && s.hist.drained <= s.hist.issued.Keys
  }

  // ---------------------------------------------------------------- leases

  ghost predicate Granted(s: Core, lease: Lease)
  {
    exists k :: 0 <= k < |s.hist.acquired| && s.hist.acquired[k].lease == lease
  }

  /** A grant names an issued command; while that command lives its completion is the one granted. */
  ghost predicate GrantKept(s: Core, a: Acquisition)
  {
    && a.lease.command.slot < |s.slots| && a.lease.command.uid in s.hist.issued
    && s.hist.issued[a.lease.command.uid] == a.lease.command
    && a.intent.command == a.lease.command && a.lease.reserved == 0
    && a.lease.generation <= s.slots[a.lease.command.slot].leaseGeneration
    && (Live(s, a.lease.command) ==>
          s.slots[a.lease.command.slot].completionValid && s.slots[a.lease.command.slot].completion == a.intent)
  }

  /** Two grants are different leases, and grants of one command show one intent. */
  predicate GrantsAgree(a: Acquisition, b: Acquisition)
  {
    a.lease != b.lease && (a.lease.command == b.lease.command ==> a.intent == b.intent)
  }

  /** The slot's lease generation has moved past the lease, or its lease is no longer active. */
  predicate Spent(slots: seq<Slot>, lease: Lease)
  {
    && lease.command.slot < |slots|
    && (lease.generation < slots[lease.command.slot].leaseGeneration
        || (lease.generation == slots[lease.command.slot].leaseGeneration && !slots[lease.command.slot].leaseActive))
  }

  ghost predicate Leases(s: Core)
  {
    && (forall k :: 0 <= k < |s.hist.acquired| ==> GrantKept(s, s.hist.acquired[k]))
    && (forall j, k :: 0 <= j < k < |s.hist.acquired| ==> GrantsAgree(s.hist.acquired[j], s.hist.acquired[k]))
    && (forall i :: 0 <= i < |s.slots| && s.slots[i].leaseActive ==>
          Granted(s, Lease(s.slots[i].handle, s.slots[i].leaseGeneration, 0)))
    && (forall k :: 0 <= k < |s.hist.closed| ==> Spent(s.slots, s.hist.closed[k]) && Granted(s, s.hist.closed[k]))
    && (forall j, k :: 0 <= j < k < |s.hist.closed| ==> s.hist.closed[j] != s.hist.closed[k])
  }

  // ---------------------------------------------------------------- tickets

  /** A pending ticket's command is live and waits for its cancellation. */
  ghost predicate TicketPlaced(s: Core, a: AbortSlot)
  {
    a.used ==>
      && a.ticket.generation == a.generation && a.ticket.reserved == 0
      && (a.outcome.Pending? ==> Live(s, a.ticket.command) && s.slots[a.ticket.command.slot].state.CancelPending?)
  }

  /** A command that waits for its cancellation holds a pending ticket. */
  predicate CancelBacked(s: Core, slot: Slot)
  {
    slot.state.CancelPending? ==>
      && slot.abortIndex < |s.aborts| && s.aborts[slot.abortIndex].used
      && s.aborts[slot.abortIndex].outcome.Pending? && s.aborts[slot.abortIndex].ticket.command == slot.handle
  }

  predicate TicketsApart(aborts: seq<AbortSlot>)
  {
    forall j, k :: 0 <= j < k < |aborts| && aborts[j].used && aborts[k].used ==>
                   aborts[j].ticket.command != aborts[k].ticket.command
  }

  ghost predicate Tickets(s: Core)
  {
    && TicketsApart(s.aborts)
    && (forall k :: 0 <= k < |s.aborts| ==> TicketPlaced(s, s.aborts[k]))
    && (forall i :: 0 <= i < |s.slots| ==> CancelBacked(s, s.slots[i]))
  }

  // ---------------------------------------------------------------- phases

  predicate PhaseAllows(p: Phase, epoch: nat, slot: Slot)
  {
    slot.inUse ==>
      && (p.Ready? ==> slot.handle.epoch == epoch && !slot.state.ResetDrain?)
      && (Draining(p) ==> slot.state.ResetDrain?)
      && !p.AckReset? && !p.AckTeardown? && !p.Dead?
  }

  ghost predicate Phases(s: Core)
  {
    && (forall i :: 0 <= i < |s.slots| ==> PhaseAllows(s.phase, s.epoch, s.slots[i]))
    && (s.phase.AckReset? || s.phase.AckTeardown? || s.phase.Dead? ==> NoTickets(s.aborts))
  }

  ghost predicate Inv(s: Core)
  {
    Shaped(s) && Slots(s) && Accounts(s) && Leases(s) && Tickets(s) && Phases(s) && s.nextUid <= s.cap.commandUidLimit
  }

  // ---------------------------------------------------------------- how each part survives a transition

  /** The calls never change the identity or the size of the core, nor take an issue back. */
  ghost predicate Framed(s: Core, t: Core)
  {
    && t.cap == s.cap && t.nonce == s.nonce && s.epoch <= t.epoch
    && |t.slots| == |s.slots| && |t.aborts| == |s.aborts|
    && forall uid :: uid in s.hist.issued ==> uid in t.hist.issued && t.hist.issued[uid] == s.hist.issued[uid]
  }

  lemma SlotsKept(s: Core, t: Core)
    requires Slots(s) && Framed(s, t)
    requires forall i :: 0 <= i < |s.slots| && t.slots[i] != s.slots[i] ==>
                         Flags(t.slots[i]) && (t.slots[i].inUse ==> Owns(t, i))
    ensures Slots(t)
  {
    forall i | 0 <= i < |t.slots| ensures Flags(t.slots[i]) && (t.slots[i].inUse ==> Owns(t, i)) {
      if t.slots[i] == s.slots[i] { assert Flags(s.slots[i]) && (s.slots[i].inUse ==> Owns(s, i)); }
    }
  }

  predicate SameCommand(a: Slot, b: Slot) { a.inUse == b.inUse && a.handle == b.handle }

  lemma AccountsKept(s: Core, t: Core)
    requires Accounts(s) && |t.slots| == |s.slots| && t.nextUid == s.nextUid
    requires t.hist.issued == s.hist.issued && t.hist.consumed == s.hist.consumed && t.hist.drained == s.hist.drained
    requires forall i :: 0 <= i < |s.slots| ==> SameCommand(s.slots[i], t.slots[i])
    ensures Accounts(t)
  {
    forall uid | uid in t.hist.issued ensures Fate(t, uid) {
      assert Fate(s, uid);
      var h := s.hist.issued[uid];
      if h.slot < |s.slots| { assert SameCommand(s.slots[h.slot], t.slots[h.slot]); }
    }
  }

  /** The slot's lease generation stays, no lease becomes active, and a completion that stays is not rewritten. */
  predicate LeaseAlike(a: Slot, b: Slot, issued: map<nat, Handle>)
  {
    && b.leaseGeneration == a.leaseGeneration
    && (b.leaseActive ==> a.leaseActive && b.handle == a.handle)
    && (b.inUse ==>
          || b.handle.uid !in issued
          || (a.inUse && a.handle == b.handle
              && (a.completionValid ==> b.completionValid && b.completion == a.completion)))
  }

  lemma LeasesKept(s: Core, t: Core)
    requires Leases(s) && Framed(s, t) && t.hist.acquired == s.hist.acquired && t.hist.closed == s.hist.closed
    requires forall i :: 0 <= i < |s.slots| ==> LeaseAlike(s.slots[i], t.slots[i], s.hist.issued)
    ensures Leases(t)
  {
    GrantsKept(s, t);
    forall k | 0 <= k < |t.hist.closed| ensures Spent(t.slots, t.hist.closed[k]) && Granted(t, t.hist.closed[k]) {
      assert Spent(s.slots, s.hist.closed[k]) && Granted(s, s.hist.closed[k]);
      assert LeaseAlike(s.slots[s.hist.closed[k].command.slot], t.slots[s.hist.closed[k].command.slot], s.hist.issued);
    }
    forall i | 0 <= i < |t.slots| && t.slots[i].leaseActive
      ensures Granted(t, Lease(t.slots[i].handle, t.slots[i].leaseGeneration, 0))
    {
      assert LeaseAlike(s.slots[i], t.slots[i], s.hist.issued);
      assert Granted(s, Lease(s.slots[i].handle, s.slots[i].leaseGeneration, 0));
    }
  }

  lemma GrantsKept(s: Core, t: Core)
    requires Leases(s) && Framed(s, t)
    requires forall i :: 0 <= i < |s.slots| ==> LeaseAlike(s.slots[i], t.slots[i], s.hist.issued)
    ensures forall k :: 0 <= k < |s.hist.acquired| ==> GrantKept(t, s.hist.acquired[k])
  {
    forall k | 0 <= k < |s.hist.acquired| ensures GrantKept(t, s.hist.acquired[k]) {
      var a := s.hist.acquired[k];
      assert GrantKept(s, a);
      assert LeaseAlike(s.slots[a.lease.command.slot], t.slots[a.lease.command.slot], s.hist.issued);
    }
  }

  /** The slot waits for its cancellation before and after, under one ticket, or at neither time. */
  predicate CancelAlike(a: Slot, b: Slot)
  {
    && a.state.CancelPending? == b.state.CancelPending?
    && (a.state.CancelPending? ==> SameCommand(a, b) && a.abortIndex == b.abortIndex)
  }

  lemma TicketsKept(s: Core, t: Core)
    requires Tickets(s) && t.aborts == s.aborts && |t.slots| == |s.slots|
    requires forall i :: 0 <= i < |s.slots| ==> CancelAlike(s.slots[i], t.slots[i])
    ensures Tickets(t)
  {
    forall k | 0 <= k < |t.aborts| ensures TicketPlaced(t, t.aborts[k]) {
      var a := s.aborts[k];
      assert TicketPlaced(s, a);
      if a.used && a.outcome.Pending? {
        assert CancelAlike(s.slots[a.ticket.command.slot], t.slots[a.ticket.command.slot]);
      }
    }
    forall i | 0 <= i < |t.slots| ensures CancelBacked(t, t.slots[i]) {
      assert CancelBacked(s, s.slots[i]) && CancelAlike(s.slots[i], t.slots[i]);
    }
  }

  lemma PhasesKept(s: Core, t: Core)
    requires Phases(s) && (t.phase == s.phase || t.phase.Faulted?) && t.epoch == s.epoch && |t.slots| == |s.slots|
    requires forall i :: 0 <= i < |s.slots| && t.slots[i] != s.slots[i] ==> PhaseAllows(s.phase, s.epoch, t.slots[i])
    requires forall k :: 0 <= k < |t.aborts| && t.aborts[k].used ==> k < |s.aborts| && s.aborts[k].used
    ensures Phases(t)
  {
    forall i | 0 <= i < |t.slots| ensures PhaseAllows(t.phase, t.epoch, t.slots[i]) {
      assert PhaseAllows(s.phase, s.epoch, s.slots[i]);
    }
  }

  // ---------------------------------------------------------------- transitions that move no command

  /** Only the trace, the cursors and the phase differ. */
  ghost predicate Quiet(s: Core, t: Core)
  {
    && t == s.(log := t.log, phase := t.phase, commandCursor := t.commandCursor, providerCursor := t.providerCursor)
    && (t.phase == s.phase || t.phase.Faulted? || (NoCommands(s.slots) && NoTickets(s.aborts)))
  }

  lemma QuietKeeps(s: Core, t: Core)
    requires Inv(s) && Quiet(s, t)
    ensures Inv(t)
  {
    SlotsKept(s, t);
    AccountsKept(s, t);
    LeasesKept(s, t);
    TicketsKept(s, t);
    if t.phase == s.phase || t.phase.Faulted? { PhasesKept(s, t); }
  }

  // ---------------------------------------------------------------- one command moves

  /** Everything but the slot, the trace, the cursors and a fault is untouched. */
  ghost predicate AtSlot(s: Core, t: Core, i: nat)
  {
    && i < |s.slots| && |t.slots| == |s.slots|
    && t == s.(log := t.log, phase := t.phase, commandCursor := t.commandCursor, providerCursor := t.providerCursor,
               slots := t.slots, aborts := t.aborts, hist := t.hist)
    && (t.phase == s.phase || t.phase.Faulted?)
    && (forall j :: 0 <= j < |s.slots| && j != i ==> t.slots[j] == s.slots[j])
    && t.hist.issued == s.hist.issued && |t.aborts| == |s.aborts|
    && forall k :: 0 <= k < |t.aborts| && t.aborts[k].used && !s.aborts[k].used ==> s.phase.Ready?
  }

  /** A command that has no completion yet goes on, or completes. */
  predicate Advances(a: Slot, b: Slot)
  {
    && a.inUse && b.inUse && b.handle == a.handle && b.slotGeneration == a.slotGeneration
    && b.leaseGeneration == a.leaseGeneration && b.abortIndex == a.abortIndex && b.descriptor == a.descriptor
    && !a.completionValid && !b.leaseActive && Flags(b) && (b.completionValid ==> Echoes(b))
    && b.state.ResetDrain? == a.state.ResetDrain?
  }

  ghost predicate Advanced(s: Core, t: Core, i: nat)
  {
    && AtSlot(s, t, i) && t.aborts == s.aborts && t.hist == s.hist && Advances(s.slots[i], t.slots[i])
    && s.slots[i].state.CancelPending? == t.slots[i].state.CancelPending?
  }

  lemma AdvanceKeeps(s: Core, t: Core, i: nat)
    requires Inv(s) && Advanced(s, t, i)
    ensures Inv(t)
  {
    assert Owns(s, i) && Owns(t, i) && PhaseAllows(s.phase, s.epoch, s.slots[i]);
    SlotsKept(s, t);
    AccountsKept(s, t);
    LeasesKept(s, t);
    TicketsKept(s, t);
    PhasesKept(s, t);
  }

  /** A provider's answer ends the command: it completes and its pending ticket, if any, is settled. */
  ghost predicate Ended(s: Core, t: Core, i: nat, outcome: AbortOutcome)
  {
    && AtSlot(s, t, i) && t.hist == s.hist && outcome != Pending
    && Advances(s.slots[i], t.slots[i]) && t.slots[i].state.CompletionReady?
    && t.aborts == SettledAborts(s.aborts, s.slots[i].handle, outcome)
  }

  lemma EndKeeps(s: Core, t: Core, i: nat, outcome: AbortOutcome)
    requires Inv(s) && Ended(s, t, i, outcome)
    ensures Inv(t)
  {
    assert Owns(s, i) && Owns(t, i) && PhaseAllows(s.phase, s.epoch, s.slots[i]);
    assert LeaseAlike(s.slots[i], t.slots[i], s.hist.issued);
    SlotsKept(s, t);
    AccountsKept(s, t);
    LeasesKept(s, t);
    SettledTickets(s, t, i, outcome);
    PhasesKept(s, t);
  }

  lemma SettledTickets(s: Core, t: Core, i: nat, outcome: AbortOutcome)
    requires Inv(s) && AtSlot(s, t, i) && s.slots[i].inUse && outcome != Pending
    requires !t.slots[i].state.CancelPending? && t.aborts == SettledAborts(s.aborts, s.slots[i].handle, outcome)
    ensures Tickets(t)
  {
    assert Owns(s, i);
    forall k | 0 <= k < |t.aborts| ensures TicketPlaced(t, t.aborts[k]) {
      assert TicketPlaced(s, s.aborts[k]);
    }
    forall j | 0 <= j < |t.slots| ensures CancelBacked(t, t.slots[j]) {
      assert CancelBacked(s, s.slots[j]);
      if j != i && s.slots[j].state.CancelPending? { assert Flags(s.slots[j]) && Owns(s, j); }
    }
  }

  // ---------------------------------------------------------------- one command leaves

  /** The slot is emptied and its command is entered as consumed or drained. */
  ghost predicate Left(s: Core, t: Core, i: nat)
  {
    && AtSlot(s, t, i) && s.slots[i].inUse && !s.slots[i].state.CancelPending?
    && t.slots[i] == Emptied(s.slots[i]).(lastTerminal := t.slots[i].lastTerminal,
                                          lastTerminalValid := t.slots[i].lastTerminalValid)
    && t.aborts == s.aborts
    && t.hist == s.hist.(consumed := t.hist.consumed, drained := t.hist.drained, closed := t.hist.closed)
    && (|| (t.hist.consumed == s.hist.consumed + {s.slots[i].handle.uid} && t.hist.drained == s.hist.drained
            && s.slots[i].leaseActive
            && t.hist.closed == s.hist.closed + [Lease(s.slots[i].handle, s.slots[i].leaseGeneration, 0)])
        || (t.hist.drained == s.hist.drained + {s.slots[i].handle.uid} && t.hist.consumed == s.hist.consumed
            && t.hist.closed == s.hist.closed))
  }

  lemma LeaveKeeps(s: Core, t: Core, i: nat)
    requires Inv(s) && Left(s, t, i)
    ensures Inv(t)
  {
    assert Owns(s, i);
    SlotsKept(s, t);
    LeaveAccounts(s, t, i);
    CloseLeases(s, t, i);
    TicketsKept(s, t);
    PhasesKept(s, t);
  }

  lemma LeaveAccounts(s: Core, t: Core, i: nat)
    requires Slots(s) && Accounts(s) && AtSlot(s, t, i) && s.slots[i].inUse && !t.slots[i].inUse
    requires
      || (t.hist.consumed == s.hist.consumed + {s.slots[i].handle.uid} && t.hist.drained == s.hist.drained)
      || (t.hist.drained == s.hist.drained + {s.slots[i].handle.uid} && t.hist.consumed == s.hist.consumed)
    ensures Accounts(t)
  {
    assert Owns(s, i);
    forall uid | uid in t.hist.issued ensures Fate(t, uid) {
      assert Fate(s, uid);
      assert Live(s, s.slots[i].handle);
    }
  }

  /** At most the active lease of the slot is closed, and the slot keeps no active lease. */
  lemma CloseLeases(s: Core, t: Core, i: nat)
    requires Slots(s) && Leases(s) && AtSlot(s, t, i) && t.hist.acquired == s.hist.acquired
    requires LeaseAlike(s.slots[i], t.slots[i], s.hist.issued) && Owns(s, i) && !t.slots[i].leaseActive
    requires
      || t.hist.closed == s.hist.closed
      || (s.slots[i].leaseActive
          && t.hist.closed == s.hist.closed + [Lease(s.slots[i].handle, s.slots[i].leaseGeneration, 0)])
    ensures Leases(t)
  {
    forall j | 0 <= j < |s.slots| && j != i ensures LeaseAlike(s.slots[j], t.slots[j], s.hist.issued) {
      assert Flags(s.slots[j]);
    }
    LeasesKept(s, t.(hist := t.hist.(closed := s.hist.closed)));
    var u := t.(hist := t.hist.(closed := s.hist.closed));
    forall k | 0 <= k < |t.hist.acquired| ensures GrantKept(t, t.hist.acquired[k]) {
      assert GrantKept(u, u.hist.acquired[k]);
    }
    forall l ensures Granted(u, l) ==> Granted(t, l) { }
    forall l ensures Granted(s, l) ==> Granted(t, l) { }
    if t.hist.closed != s.hist.closed {
      assert Granted(s, Lease(s.slots[i].handle, s.slots[i].leaseGeneration, 0));
      forall k | 0 <= k < |s.hist.closed|
        ensures s.hist.closed[k] != Lease(s.slots[i].handle, s.slots[i].leaseGeneration, 0)
      {
        assert Spent(s.slots, s.hist.closed[k]);
      }
    }
  }

  // ---------------------------------------------------------------- leases

  ghost predicate Leased(s: Core, t: Core, i: nat)
  {
    && AtSlot(s, t, i) && s.slots[i].state.CompletionReady?
    && t.slots[i] == LeasedSlot(s.slots[i]) && t.aborts == s.aborts
    && t.hist == s.hist.(acquired := s.hist.acquired
           + [Acquisition(Lease(s.slots[i].handle, s.slots[i].leaseGeneration + 1, 0), s.slots[i].completion)])
  }

  lemma LeasingKeeps(s: Core, t: Core, i: nat)
    requires Inv(s) && Leased(s, t, i)
    ensures Inv(t)
  {
    assert Flags(s.slots[i]) && Owns(s, i) && Owns(t, i) && PhaseAllows(s.phase, s.epoch, s.slots[i]);
    SlotsKept(s, t);
    AccountsKept(s, t);
    NewGrant(s, t, i);
    TicketsKept(s, t);
    PhasesKept(s, t);
  }

  lemma NewGrant(s: Core, t: Core, i: nat)
    requires Slots(s) && Leases(s) && Leased(s, t, i)
    ensures Leases(t)
  {
    assert Flags(s.slots[i]) && Owns(s, i);
    var n := |s.hist.acquired|;
    var made := t.hist.acquired[n];
    forall k | 0 <= k < n
      ensures GrantKept(t, t.hist.acquired[k]) && GrantsAgree(t.hist.acquired[k], made)
    {
      assert GrantKept(s, s.hist.acquired[k]);
      assert Live(s, s.slots[i].handle);
    }
    forall l | Granted(s, l) ensures Granted(t, l) {
      var k :| 0 <= k < n && s.hist.acquired[k].lease == l;
      assert t.hist.acquired[k].lease == l;
    }
    assert Granted(t, made.lease);
    forall k | 0 <= k < |t.hist.closed| ensures Spent(t.slots, t.hist.closed[k]) {
      assert Spent(s.slots, s.hist.closed[k]);
    }
  }

  ghost predicate Released(s: Core, t: Core, i: nat)
  {
    && AtSlot(s, t, i) && s.slots[i].state.CompletionLeased?
    && t.slots[i] == s.slots[i].(leaseActive := false, state := CompletionReady) && t.aborts == s.aborts
    && t.hist == s.hist.(closed := s.hist.closed + [Lease(s.slots[i].handle, s.slots[i].leaseGeneration, 0)])
  }

  lemma ReleasingKeeps(s: Core, t: Core, i: nat)
    requires Inv(s) && Released(s, t, i)
    ensures Inv(t)
  {
    assert Flags(s.slots[i]) && Owns(s, i) && Owns(t, i) && PhaseAllows(s.phase, s.epoch, s.slots[i]);
    SlotsKept(s, t);
    AccountsKept(s, t);
    CloseLeases(s, t, i);
    TicketsKept(s, t);
    PhasesKept(s, t);
  }

  // ---------------------------------------------------------------- submission

  ghost predicate Filled(s: Core, t: Core, i: nat, d: Descriptor)
  {
    && i < |s.slots| && !s.slots[i].inUse && s.phase.Ready? && s.nextUid < s.cap.commandUidLimit
    && t == s.(log := t.log, phase := t.phase, nextUid := s.nextUid + 1,
               slots := s.slots[i := FilledSlot(s.slots[i], NewHandle(s, i), d)],
               hist := s.hist.(issued := s.hist.issued[s.nextUid + 1 := NewHandle(s, i)]))
    && (t.phase == s.phase || t.phase.Faulted?)
  }

  lemma FillKeeps(s: Core, t: Core, i: nat, d: Descriptor)
    requires Inv(s) && Filled(s, t, i, d)
    ensures Inv(t)
  {
    assert Flags(s.slots[i]) && Flags(t.slots[i]) && Owns(t, i);
    assert s.nextUid + 1 !in s.hist.issued;
    SlotsKept(s, t);
    FillAccounts(s, t, i, d);
    LeasesKept(s, t);
    TicketsKept(s, t);
    PhasesKept(s, t);
  }

  lemma FillAccounts(s: Core, t: Core, i: nat, d: Descriptor)
    requires Slots(s) && Accounts(s) && Filled(s, t, i, d)
    ensures Accounts(t)
  {
    assert s.nextUid + 1 !in s.hist.issued;
    forall uid | uid in t.hist.issued ensures Fate(t, uid) {
      if uid in s.hist.issued { assert Fate(s, uid); }
    }
    assert t.hist.issued.Keys == s.hist.issued.Keys + {s.nextUid + 1};
  }

  // ---------------------------------------------------------------- tickets

  /** The command in slot `i` gets ticket slot `k`, with the outcome its state calls for. */
  ghost predicate Ticketed(s: Core, t: Core, i: nat, k: nat, outcome: AbortOutcome)
  {
    && AtSlot(s, t, i) && s.phase.Ready? && t.hist == s.hist && s.slots[i].inUse && k < |s.aborts| && !s.aborts[k].used
    && AbortFor(s.aborts, s.slots[i].handle, 0).None?
    && t.aborts == s.aborts[k := AllocatedAbort(s.aborts[k], s.slots[i].handle).(outcome := outcome)]
    && AbortOutcomeFor(s.slots[i].state) == Some(outcome)
    && var marked := s.slots[i].(abortIndex := k);
       match outcome
       case Terminal => exists r, f :: t.slots[i] == Completed(marked, r, f)
       case Pending => t.slots[i] == marked.(state := CancelPending)
       case _ => t.slots[i] == marked
  }

  lemma TicketKeeps(s: Core, t: Core, i: nat, k: nat, outcome: AbortOutcome)
    requires Inv(s) && Ticketed(s, t, i, k, outcome)
    ensures Inv(t)
  {
    assert Flags(s.slots[i]) && Owns(s, i) && Flags(t.slots[i]) && Owns(t, i);
    assert PhaseAllows(s.phase, s.epoch, s.slots[i]);
    assert LeaseAlike(s.slots[i], t.slots[i], s.hist.issued);
    SlotsKept(s, t);
    AccountsKept(s, t);
    LeasesKept(s, t);
    TicketTickets(s, t, i, k, outcome);
    assert PhaseAllows(s.phase, s.epoch, t.slots[i]);
    forall j | 0 <= j < |t.slots| ensures PhaseAllows(t.phase, t.epoch, t.slots[j]) {
      assert PhaseAllows(s.phase, s.epoch, s.slots[j]);
    }
  }

  lemma TicketTickets(s: Core, t: Core, i: nat, k: nat, outcome: AbortOutcome)
    requires Slots(s) && Tickets(s) && Ticketed(s, t, i, k, outcome)
    ensures Tickets(t)
  {
    assert Flags(s.slots[i]) && Owns(s, i);
    forall j | 0 <= j < |t.aborts| ensures TicketPlaced(t, t.aborts[j]) {
      assert TicketPlaced(s, s.aborts[j]);
    }
    forall j | 0 <= j < |t.slots| ensures CancelBacked(t, t.slots[j]) {
      assert CancelBacked(s, s.slots[j]);
    }
  }

  /** A settled ticket is given back. */
  ghost predicate Acked(s: Core, t: Core, k: nat)
  {
    && k < |s.aborts| && s.aborts[k].used && !s.aborts[k].outcome.Pending?
    && t == s.(aborts := s.aborts[k := s.aborts[k].(used := false)])
  }

  lemma AckKeeps(s: Core, t: Core, k: nat)
    requires Inv(s) && Acked(s, t, k)
    ensures Inv(t)
  {
    SlotsKept(s, t);
    AccountsKept(s, t);
    LeasesKept(s, t);
    forall j | 0 <= j < |t.aborts| ensures TicketPlaced(t, t.aborts[j]) {
      assert TicketPlaced(s, s.aborts[j]);
    }
    forall j | 0 <= j < |t.slots| ensures CancelBacked(t, t.slots[j]) {
      assert CancelBacked(s, s.slots[j]);
    }
    PhasesKept(s, t);
  }

  // ---------------------------------------------------------------- drains

  /** What a drain leaves of a slot. */
  function Drained(slot: Slot): Slot
  {
    if !slot.inUse then slot
    else if slot.owned then
      slot.(leaseActive := false, completionValid := false, cancelSent := false, state := ResetDrain)
    else Emptied(slot)
  }

  /** The commands a drain retires at once: those no provider owns. */
  ghost function Retirable(slots: seq<Slot>, count: nat): set<nat>
    requires count <= |slots|
  {
    set i | 0 <= i < count && slots[i].inUse && !slots[i].owned :: slots[i].handle.uid
  }

  ghost predicate DrainBegun(s: Core, t: Core)
  {
    && Framed(s, t) && t.nextUid == s.nextUid && !t.phase.Ready?
    && (Draining(t.phase) || t.phase.Faulted? || (NoCommands(t.slots) && NoTickets(t.aborts)))
    && t.aborts == SupersededAborts(s.aborts)
    && (forall i :: 0 <= i < |s.slots| ==> t.slots[i] == Drained(s.slots[i]))
    && t.hist == s.hist.(drained := s.hist.drained + Retirable(s.slots, |s.slots|))
  }

  lemma DrainKeeps(s: Core, t: Core)
    requires Inv(s) && DrainBegun(s, t)
    ensures Inv(t)
  {
    forall i | 0 <= i < |s.slots|
      ensures Flags(t.slots[i]) && (t.slots[i].inUse ==> Owns(t, i))
      ensures LeaseAlike(s.slots[i], t.slots[i], s.hist.issued)
      ensures PhaseAllows(t.phase, t.epoch, t.slots[i]) && !t.slots[i].state.CancelPending?
    {
      assert t.slots[i] == Drained(s.slots[i]) && Flags(s.slots[i]) && (s.slots[i].inUse ==> Owns(s, i));
    }
    SlotsKept(s, t);
    DrainAccounts(s, t);
    LeasesKept(s, t);
    assert Tickets(t);
  }

  lemma DrainAccounts(s: Core, t: Core)
    requires Slots(s) && Accounts(s) && DrainBegun(s, t)
    ensures Accounts(t)
  {
    var n := |s.slots|;
    forall uid | uid in Retirable(s.slots, n) ensures uid in s.hist.issued {
      var i :| 0 <= i < n && s.slots[i].inUse && !s.slots[i].owned && s.slots[i].handle.uid == uid;
      assert Owns(s, i);
    }
    forall uid | uid in t.hist.issued ensures Fate(t, uid) {
      assert Fate(s, uid);
      var h := s.hist.issued[uid];
      if uid in Retirable(s.slots, n) {
        var i :| 0 <= i < n && s.slots[i].inUse && !s.slots[i].owned && s.slots[i].handle.uid == uid;
        assert Owns(s, i) && t.slots[i] == Drained(s.slots[i]);
      } else if Live(s, h) {
        assert t.slots[h.slot] == Drained(s.slots[h.slot]);
      } else {
        assert h.slot < n ==> t.slots[h.slot] == Drained(s.slots[h.slot]);
      }
    }
  }

  /** The controller moves to a new epoch and its providers refuse the reset: nothing else changes. */
  ghost predicate DrainFailed(s: Core, t: Core)
  {
    && t == s.(log := t.log, phase := Faulted, epoch := t.epoch, drainEpoch := t.drainEpoch) && s.epoch <= t.epoch
  }

  lemma DrainFailedKeeps(s: Core, t: Core)
    requires Inv(s) && DrainFailed(s, t)
    ensures Inv(t)
  {
    forall i | 0 <= i < |s.slots| ensures Flags(t.slots[i]) && (t.slots[i].inUse ==> Owns(t, i)) {
      assert Flags(s.slots[i]) && (s.slots[i].inUse ==> Owns(s, i));
    }
    AccountsKept(s, t);
    LeasesKept(s, t);
    TicketsKept(s, t);
  }

  // ---------------------------------------------------------------- all transitions

  /** The ways the core changes. */
  datatype Move =
    | Noted | Advancing(i: nat) | Ending(i: nat, outcome: AbortOutcome) | Leaving(i: nat)
    | Leasing(i: nat) | Releasing(i: nat) | Filling(i: nat, d: Descriptor)
    | Ticketing(i: nat, k: nat, outcome: AbortOutcome) | Acking(k: nat) | Drains | DrainFails

  ghost predicate Moves(s: Core, t: Core, m: Move)
  {
    match m
    case Noted => Quiet(s, t)
    case Advancing(i) => Advanced(s, t, i)
    case Ending(i, outcome) => Ended(s, t, i, outcome)
    case Leaving(i) => Left(s, t, i)
    case Leasing(i) => Leased(s, t, i)
    case Releasing(i) => Released(s, t, i)
    case Filling(i, d) => Filled(s, t, i, d)
    case Ticketing(i, k, outcome) => Ticketed(s, t, i, k, outcome)
    case Acking(k) => Acked(s, t, k)
    case Drains => DrainBegun(s, t)
    case DrainFails => DrainFailed(s, t)
  }

  lemma MoveKeeps(s: Core, t: Core, m: Move)
    requires Inv(s) && Moves(s, t, m)
    ensures Inv(t)
  {
    match m
    case Noted => QuietKeeps(s, t);
    case Advancing(i) => AdvanceKeeps(s, t, i);
    case Ending(i, outcome) => EndKeeps(s, t, i, outcome);
    case Leaving(i) => LeaveKeeps(s, t, i);
    case Leasing(i) => LeasingKeeps(s, t, i);
    case Releasing(i) => ReleasingKeeps(s, t, i);
    case Filling(i, d) => FillKeeps(s, t, i, d);
    case Ticketing(i, k, outcome) => TicketKeeps(s, t, i, k, outcome);
    case Acking(k) => AckKeeps(s, t, k);
    case Drains => DrainKeeps(s, t);
    case DrainFails => DrainFailedKeeps(s, t);
  }
}
