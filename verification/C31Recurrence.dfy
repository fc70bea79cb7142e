/**
 Whether a ticket value can be handed out twice.  Its generation counts per ticket slot and it names
 no slot, so a second slot repeats the values of the first; with one slot no value comes back.
 */
module C31Recurrence {
  import opened C31Types
  import opened C31Model
  import opened C31Invariant
  import opened C31Steps
  import opened C31Theorems
  import opened C31Reach

  /** The request is answered with a ticket that was not out before. */
  predicate Grants(s: Core, h: Handle)
    requires Shaped(s)
  {
    AbortRequest(s, h).1.Ok? && AbortFor(s.aborts, h, 0).None?
  }

  /** No two grants of one run hand out the same ticket. */
  ghost predicate TicketsFresh(cap: Capacity)
    requires CapacityValid(cap)
  {
    forall nonce, hasDma, hasNfc, before, h, run, g ::
      var s := Exec(Initial(cap, nonce, hasDma, hasNfc), before);
      var t := Exec(AbortRequest(s, h).0, run);
      Grants(s, h) && Grants(t, g) ==> AbortRequest(s, h).2 != AbortRequest(t, g).2
  }

  // ---------------------------------------------------------------- one ticket slot

  /** A grant raises the generation of the ticket slot it takes, and the ticket carries it. */
  lemma GrantRaises(s: Core, h: Handle)
    requires Inv(s) && |s.aborts| == 1 && Grants(s, h)
    ensures AbortRequest(s, h).2.generation == s.aborts[0].generation + 1
    ensures |AbortRequest(s, h).0.aborts| == 1
    ensures AbortRequest(s, h).0.aborts[0].generation == s.aborts[0].generation + 1
  {
    Abortable(s, h);
    var free := FreeAbort(s.aborts, s.cap.ticketGenerationLimit, 0);
    GrantForm(s, h.slot, free.value, h);
  }

  lemma OneSlotFresh(s: Core, h: Handle, run: seq<Action>, g: Handle)
    requires Inv(s) && |s.aborts| == 1 && Grants(s, h) && Grants(Exec(AbortRequest(s, h).0, run), g)
    ensures AbortRequest(s, h).2 != AbortRequest(Exec(AbortRequest(s, h).0, run), g).2
  {
    var r := AbortRequest(s, h).0;
    GrantRaises(s, h);
    AbortRequestKeeps(s, h);
    RunKeeps(r, run);
    assert TicketEvolves(r.aborts[0], Exec(r, run).aborts[0]);
    GrantRaises(Exec(r, run), g);
  }

  // ---------------------------------------------------------------- two ticket slots

  /** A command that needs no provider. */
  const ALONE: Descriptor := Descriptor(
    CONTRACT_VERSION, DESCRIPTOR_SIZE, 0, Words(1, 0), 0, ZERO_WORDS, ZERO_WORDS, 0, 0, 0, 0,
    PROVIDER_NONE, DMA_NONE, 0, 0, 0)

  /** The command in the first slot is complete; the first ticket slot was used `j` times, the others never. */
  ghost predicate Cycled(s: Core, cap: Capacity, h: Handle, j: nat)
  {
    && Shaped(s) && s.cap == cap && s.phase.Ready? && |s.log| <= 10 + j && 2 <= |s.aborts|
    && h.slot == 0 && FindCommand(s, h) == Some(0) && s.slots[0].state.CompletionReady?
    && NoTickets(s.aborts) && s.aborts[0].generation == j
    && forall k :: 1 <= k < |s.aborts| ==> s.aborts[k].generation == 0
  }

  predicate Lone(d: Descriptor) { ValidateDescriptor(d) == Ok && d.providerKind == PROVIDER_NONE }

  lemma Completes(cap: Capacity, d: Descriptor, nonce: nat) returns (s: Core, h: Handle)
    requires Lone(d) && CapacityValid(cap) && 2 <= cap.abortTickets
    ensures Leads(Initial(cap, nonce, false, false), s) && Cycled(s, cap, h, 0)
  {
    var o := Initial(cap, nonce, false, false);
    LeadsHere(o);
    FirstSubmitted(cap, d, nonce);
    LeadsOn(o, o, DoSubmit(d));
    var t := Submit(o, d).0;
    CalmUnit(t);
    LeadsOn(o, t, DoStep([CALM]));
    CompletesNow(t, d);
    h := t.slots[0].handle;
    s := Progress(Turned(t), CALM).0;
  }

  lemma FirstSubmitted(cap: Capacity, d: Descriptor, nonce: nat)
    requires Lone(d) && CapacityValid(cap)
    ensures var o := Initial(cap, nonce, false, false);
      var t := Submit(o, d).0;
      && Shaped(t) && t == o.(slots := o.slots[0 := t.slots[0]], nextUid := 1, log := t.log, hist := t.hist)
      && |t.log| == 2 && t.slots[0].inUse && t.slots[0].state.Accepted? && t.slots[0].descriptor == d
      && t.slots[0].handle.slot == 0 && t.slots[0].handle.nonce == t.nonce
  {
    var o := Initial(cap, nonce, false, false);
    assert o.slots[0] == EMPTY_SLOT && FreeSlot(o.slots, cap, PROVIDER_NONE, 0) == Some(0);
    assert Submit(o, d) == (Fill(o, 0, d), Ok, NewHandle(o, 0));
  }

  lemma CompletesNow(s: Core, d: Descriptor)
    requires Lone(d) && Shaped(s) && s.phase.Ready? && |s.log| <= 5 && s.commandCursor == 0
    requires s.slots[0].inUse && s.slots[0].state.Accepted? && s.slots[0].descriptor == d
    ensures var t := Progress(Turned(s), CALM).0;
      && Shaped(t) && t.cap == s.cap && t.nonce == s.nonce && t.phase.Ready? && |t.log| <= 7 && t.aborts == s.aborts
      && t.slots[0].inUse && t.slots[0].state.CompletionReady? && t.slots[0].handle == s.slots[0].handle
  {
    assert Wrap(0 + 0, |s.slots|) == 0;
    assert Scan(s.slots, 0, 0).1 == Some(0);
  }

  /** A ticket for the command is granted from slot `k`, as too late. */
  lemma TooLateRequest(s: Core, cap: Capacity, h: Handle, j: nat, k: nat)
    requires Cycled(s, cap, h, j) && j <= cap.ticketGenerationLimit <= WORD32
    requires FreeAbort(s.aborts, cap.ticketGenerationLimit, 0) == Some(k)
    ensures Grants(s, h)
    ensures var (t, _, ticket, _) := AbortRequest(s, h);
      && ticket == Ticket(h, s.aborts[k].generation + 1, 0) && t.phase.Ready? && |t.log| == |s.log| + 1
      && t.cap == s.cap
      && t.nonce == s.nonce && t.slots == s.slots[0 := s.slots[0].(abortIndex := k)]
      && t.aborts == s.aborts[k := AllocatedAbort(s.aborts[k], h).(outcome := TooLate)]
  {
  }

  /** Granted and acknowledged: once more around. */
  lemma Cycle(s: Core, cap: Capacity, h: Handle, j: nat)
    requires Cycled(s, cap, h, j) && j < cap.ticketGenerationLimit <= WORD32
    ensures Grants(s, h) && AbortRequest(s, h).2 == Ticket(h, j + 1, 0)
    ensures Cycled(AbortAck(AbortRequest(s, h).0, Ticket(h, j + 1, 0)).0, cap, h, j + 1)
  {
    assert FreeAbort(s.aborts, cap.ticketGenerationLimit, 0) == Some(0);
    TooLateRequest(s, cap, h, j, 0);
    var t := AbortRequest(s, h).0;
    assert FindAbort(t.aborts, Ticket(h, j + 1, 0), 0) == Some(0);
  }

  lemma {:induction false} Cycles(o: Core, s: Core, cap: Capacity, h: Handle, j: nat) returns (t: Core)
    requires Shaped(o) && Leads(o, s) && Cycled(s, cap, h, j) && j <= cap.ticketGenerationLimit <= WORD32
    ensures Leads(o, t) && Cycled(t, cap, h, cap.ticketGenerationLimit)
    decreases cap.ticketGenerationLimit - j
  {
    t := s;
    if j < cap.ticketGenerationLimit {
      Cycle(s, cap, h, j);
      LeadsOn(o, s, DoAbort(h));
      var u := AbortRequest(s, h).0;
      LeadsOn(o, u, DoAck(Ticket(h, j + 1, 0)));
      t := Cycles(o, AbortAck(u, Ticket(h, j + 1, 0)).0, cap, h, j + 1);
    }
  }

  /** The first slot is used up: the second one starts again from the first value. */
  lemma Repeats(s: Core, cap: Capacity, h: Handle)
    requires Cycled(s, cap, h, cap.ticketGenerationLimit) && 0 < cap.ticketGenerationLimit <= WORD32
    ensures Grants(s, h) && AbortRequest(s, h).2 == Ticket(h, 1, 0)
  {
    assert FreeAbort(s.aborts, cap.ticketGenerationLimit, 0) == FreeAbort(s.aborts, cap.ticketGenerationLimit, 1);
    TooLateRequest(s, cap, h, cap.ticketGenerationLimit, 1);
  }

  /** With a second ticket slot a run from the initial state hands out one ticket twice, acknowledged in between. */
  lemma AckedTicketRecurs(cap: Capacity, nonce: nat)
    requires CapacityValid(cap) && 2 <= cap.abortTickets
    ensures exists before, h, run ::
      var s := Exec(Initial(cap, nonce, false, false), before);
      var t := Exec(AbortRequest(s, h).0, run);
      Grants(s, h) && Grants(t, h) && AbortRequest(s, h).2 == AbortRequest(t, h).2
  {
    var s, h := Completes(cap, ALONE, nonce);
    var t := RecursFrom(s, cap, h);
    var before :| s == Exec(Initial(cap, nonce, false, false), before);
    var run :| t == Exec(AbortRequest(s, h).0, run);
    assert Grants(Exec(Initial(cap, nonce, false, false), before), h);
  }

  lemma RecursFrom(s: Core, cap: Capacity, h: Handle) returns (t: Core)
    requires CapacityValid(cap) && Cycled(s, cap, h, 0)
    ensures Leads(AbortRequest(s, h).0, t) && Shaped(t) && Grants(s, h) && Grants(t, h)
    ensures AbortRequest(s, h).2 == AbortRequest(t, h).2
  {
    Cycle(s, cap, h, 0);
    var r, ticket := AbortRequest(s, h).0, Ticket(h, 1, 0);
    LeadsHere(r);
    LeadsOn(r, r, DoAck(ticket));
    t := Cycles(r, AbortAck(r, ticket).0, cap, h, 1);
    Repeats(t, cap, h);
  }

  /** Ticket values never recur, in any run, exactly when there is one ticket slot. */
  lemma TicketsFreshExactly(cap: Capacity)
    requires CapacityValid(cap)
    ensures TicketsFresh(cap) <==> cap.abortTickets == 1
  {
    if cap.abortTickets == 1 {
      forall nonce, hasDma, hasNfc, before, h, run, g
        ensures var s := Exec(Initial(cap, nonce, hasDma, hasNfc), before);
          var t := Exec(AbortRequest(s, h).0, run);
          Grants(s, h) && Grants(t, g) ==> AbortRequest(s, h).2 != AbortRequest(t, g).2
      {
        FreshFrom(cap, nonce, hasDma, hasNfc, before, h, run, g);
      }
    } else {
      AckedTicketRecurs(cap, 1);
    }
  }

  lemma FreshFrom(cap: Capacity, nonce: nat, hasDma: bool, hasNfc: bool, before: seq<Action>, h: Handle,
                  run: seq<Action>, g: Handle)
    requires CapacityValid(cap) && cap.abortTickets == 1
    ensures var s := Exec(Initial(cap, nonce, hasDma, hasNfc), before);
      var t := Exec(AbortRequest(s, h).0, run);
      Grants(s, h) && Grants(t, g) ==> AbortRequest(s, h).2 != AbortRequest(t, g).2
  {
    var o := Initial(cap, nonce, hasDma, hasNfc);
    InitialInv(cap, nonce, hasDma, hasNfc);
    RunKeeps(o, before);
    var s := Exec(o, before);
    if Grants(s, h) && Grants(Exec(AbortRequest(s, h).0, run), g) { OneSlotFresh(s, h, run, g); }
  }
}
