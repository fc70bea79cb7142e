/**
 The persistence witness policy: whether the facts gathered about a command, or the obligations
 behind a fence, support a durable, a volatile or no completion.
 */
module Persistence {

  datatype Result = Ok | InvalidContract | UnsupportedVersion

  const VERSION: nat := 1
  const MAX_ATOMS: nat := 2

  // Native sizes of the records on the LP64 hosts the project builds for.
  const PROFILE_SIZE: nat := 16
  const REQUEST_SIZE: nat := 48
  const FACT_SIZE: nat := 48
  const ENVELOPE_SIZE: nat := 48
  const OBLIGATION_SIZE: nat := 48
  const WITNESS_SIZE: nat := 16

  const EVENT_RESET_AND_POWER: bv8 := 0x03
  const EVENT_MASK: bv8 := 0x0f

  const FACT_CAPTURED: bv32 := 0x0001
  const FACT_C_MAP: bv32 := 0x0010
  const FACT_LOGICAL_DURABLE: bv32 := 0x0020
  const FACT_PLP_ADMITTED: bv32 := 0x0040
  const FACT_PROVABLE_NO_COMMIT: bv32 := 0x0100
  const FACT_INDETERMINATE: bv32 := 0x0200
  const FACT_MASK: bv32 := 0x03ff

  const PLP_NONE: nat := 0
  const PLP_VALIDATED: nat := 1
  const PLP_REQUIRED_FLAGS: bv8 := 0x1f

  const REQUEST_DEFAULT: nat := 0
  const REQUEST_SELF_DURABLE: nat := 1
  const REQUEST_FENCE: nat := 2

  const MUTATION_CHECKPOINT: nat := 3

  const CLOSE_C_MAP: nat := 1
  const CLOSE_PLP: nat := 2
  const CLOSE_NO_COMMIT: nat := 3
  const CLOSE_INDETERMINATE: nat := 4

  const CLASS_NONE: nat := 0
  const CLASS_VOLATILE: nat := 1
  const CLASS_DURABLE: nat := 2
  const CLASS_FAILED: nat := 3

  const REASON_NONE: nat := 0
  const REASON_MISSING_ATOM: nat := 1
  const REASON_MISSING_DURABLE: nat := 2
  const REASON_INVALID_PLP: nat := 3
  const REASON_OPEN_OBLIGATION: nat := 5
  const REASON_INDETERMINATE: nat := 6

  datatype Token = Token(word0: nat, word1: nat)

  datatype Profile = Profile(
    version: nat, size: nat, reserved0: nat, cacheEnabled: nat, plpKind: nat, plpCredits: nat,
    survival: bv8, reserved1: nat)

  datatype Request = Request(
    version: nat, size: nat, kind: nat, atoms: bv8, reserved0: nat, token: Token, epoch: nat, scope: nat,
    sequence: nat, frontier: nat, reserved10: nat, reserved11: nat)

  datatype Fact = Fact(
    version: nat, size: nat, reserved0: nat, token: Token, epoch: nat, scope: nat, sequence: nat, mask: bv32,
    atom: nat, logicalVersion: nat, predecessorVersion: nat, mutationKind: nat, closure: nat,
    reserved10: nat, reserved11: nat, reserved12: nat)

  datatype Envelope = Envelope(
    version: nat, size: nat, reserved0: nat, token: Token, epoch: nat, sequence: nat, atoms: bv8,
    cost: nat, flags: bv8, survival: bv8, drained: bv8,
    reserved10: nat, reserved11: nat, reserved12: nat, persistentOrder: nat)

  datatype Obligation = Obligation(
    version: nat, size: nat, reserved0: nat, token: Token, epoch: nat, scope: nat, sequence: nat, mask: bv32,
    atoms: bv8, closure: nat, reserved10: nat, reserved11: nat)

  datatype Witness = Witness(
    version: nat, size: nat, class_: nat, required: bv8, satisfied: bv8, reserved0: nat, reason: nat, reserved1: nat)

  // ---------------------------------------------------------------- atoms as sets

  predicate Has(mask: bv32, flag: bv32) { mask & flag != 0 }

  /** The mask bit of an atom. */
  function Bit(atom: nat): bv8 { if atom == 0 then 1 else 2 }

  predicate HasAtom(mask: bv8, atom: nat) { mask & Bit(atom) != 0 }

  predicate AtomsOnly(mask: bv8) { mask & 0xfc == 0 }

  function MaskOf(first: bool, second: bool): bv8 { (if first then 1 else 0) | (if second then 2 else 0) }

  /** A mask of atoms is the set of atoms it has. */
  lemma MaskExtensional(m: bv8, first: bool, second: bool)
    requires AtomsOnly(m) && HasAtom(m, 0) == first && HasAtom(m, 1) == second
    ensures m == MaskOf(first, second)
  {
    assert m & 0xfc == 0 && (m & 1 != 0) == first && (m & 2 != 0) == second;
  }

  // ---------------------------------------------------------------- shapes

  function BitCount(v: bv8): nat
    decreases v
  {
    if v == 0 then 0 else (if v & 1 == 1 then 1 else 0) + BitCount(v >> 1)
  }

  method CountBits(v: bv8) returns (count: nat)
    ensures count == BitCount(v)
  {
    var value := v;
    count := 0;
    while value != 0
      invariant count + BitCount(value) == BitCount(v)
      decreases value
    {
      count := count + if value & 1 == 1 then 1 else 0;
      value := value >> 1;
    }
  }

  predicate ProfileShape(p: Profile)
  {
    && p.size == PROFILE_SIZE && p.reserved0 == 0 && p.reserved1 == 0 && p.cacheEnabled <= 1
    && p.survival & !EVENT_MASK == 0
    && (if p.plpKind == PLP_NONE then p.plpCredits == 0 && p.survival == 0
        else p.plpKind == PLP_VALIDATED && 0 < p.plpCredits <= MAX_ATOMS
             && p.survival & EVENT_RESET_AND_POWER == EVENT_RESET_AND_POWER)
  }

  function ValidateProfile(p: Profile): Result
  {
    if p.version != VERSION then UnsupportedVersion else if ProfileShape(p) then Ok else InvalidContract
  }

  predicate EnvelopeShape(p: Profile, e: Envelope)
  {
    && e.size == ENVELOPE_SIZE && e.reserved0 == 0 && e.reserved10 == 0 && e.reserved11 == 0 && e.reserved12 == 0
    && e.atoms != 0 && AtomsOnly(e.atoms) && e.cost == BitCount(e.atoms) && e.cost <= p.plpCredits
    && e.flags == PLP_REQUIRED_FLAGS
    && e.survival & p.survival == p.survival && e.survival & !EVENT_MASK == 0
    && e.drained & !e.atoms == 0
  }

  function ValidateEnvelope(p: Profile, e: Envelope): Result
  {
    if ValidateProfile(p) != Ok then ValidateProfile(p)
    else if e.version != VERSION then UnsupportedVersion
    else if p.plpKind == PLP_VALIDATED && EnvelopeShape(p, e) then Ok
    else InvalidContract
  }

  predicate RequestShape(r: Request)
  {
    && r.size == REQUEST_SIZE && r.reserved0 == 0 && r.reserved10 == 0 && r.reserved11 == 0 && r.epoch != 0
    && (if r.kind == REQUEST_FENCE then r.atoms == 0
        else (r.kind == REQUEST_DEFAULT || r.kind == REQUEST_SELF_DURABLE)
             && r.atoms != 0 && AtomsOnly(r.atoms) && r.frontier == 0)
  }

  predicate FactShape(f: Fact)
  {
    && f.version == VERSION && f.size == FACT_SIZE && f.reserved0 == 0
    && f.reserved10 == 0 && f.reserved11 == 0 && f.reserved12 == 0
    && f.atom < MAX_ATOMS && f.logicalVersion <= 3 && f.predecessorVersion <= 3
    && f.mutationKind <= MUTATION_CHECKPOINT && f.closure <= CLOSE_INDETERMINATE
    && f.mask & !FACT_MASK == 0
    && !(Has(f.mask, FACT_PROVABLE_NO_COMMIT) && Has(f.mask, FACT_INDETERMINATE))
    && (Has(f.mask, FACT_C_MAP) ==> Has(f.mask, FACT_LOGICAL_DURABLE))
  }

  predicate ObligationShape(o: Obligation)
  {
    && o.version == VERSION && o.size == OBLIGATION_SIZE && o.reserved0 == 0 && o.reserved10 == 0 && o.reserved11 == 0
    && o.atoms != 0 && AtomsOnly(o.atoms) && o.closure <= CLOSE_INDETERMINATE && o.mask & !FACT_MASK == 0
  }

  // ---------------------------------------------------------------- envelopes

  predicate Seals(e: Envelope, token: Token, epoch: nat, sequence: nat)
  {
    e.token == token && e.epoch == epoch && e.sequence == sequence
  }

  /** The first envelope that seals the mutation is valid and covers the atoms. */
  ghost predicate Sealed(p: Profile, token: Token, epoch: nat, sequence: nat, atoms: bv8, envelopes: seq<Envelope>)
  {
    exists i :: 0 <= i < |envelopes| && Seals(envelopes[i], token, epoch, sequence)
                && (forall j :: 0 <= j < i ==> !Seals(envelopes[j], token, epoch, sequence))
                && ValidateEnvelope(p, envelopes[i]) == Ok && envelopes[i].atoms & atoms == atoms
  }

  method FindEnvelope(token: Token, epoch: nat, sequence: nat, envelopes: seq<Envelope>) returns (found: int)
    ensures -1 <= found < |envelopes|
    ensures found >= 0 ==> Seals(envelopes[found], token, epoch, sequence)
                           && forall j :: 0 <= j < found ==> !Seals(envelopes[j], token, epoch, sequence)
    ensures found < 0 ==> forall j :: 0 <= j < |envelopes| ==> !Seals(envelopes[j], token, epoch, sequence)
  {
    for i := 0 to |envelopes|
      invariant forall j :: 0 <= j < i ==> !Seals(envelopes[j], token, epoch, sequence)
    {
      if Seals(envelopes[i], token, epoch, sequence) { return i; }
    }
    return -1;
  }

  method CheckSeal(p: Profile, token: Token, epoch: nat, sequence: nat, atoms: bv8, envelopes: seq<Envelope>)
    returns (ok: bool)
    ensures ok == Sealed(p, token, epoch, sequence, atoms, envelopes)
  {
    var found := FindEnvelope(token, epoch, sequence, envelopes);
    ok := found >= 0 && ValidateEnvelope(p, envelopes[found]) == Ok && envelopes[found].atoms & atoms == atoms;
    if found >= 0 && Sealed(p, token, epoch, sequence, atoms, envelopes) {
      var i :| 0 <= i < |envelopes| && Seals(envelopes[i], token, epoch, sequence)
               && (forall j :: 0 <= j < i ==> !Seals(envelopes[j], token, epoch, sequence))
               && ValidateEnvelope(p, envelopes[i]) == Ok && envelopes[i].atoms & atoms == atoms;
      assert i == found;
    }
  }

  // ---------------------------------------------------------------- what one fact says

  /** The fact is about the command and about one of its atoms. */
  predicate Concerns(r: Request, f: Fact)
  {
    && r.token == f.token && r.epoch == f.epoch && r.scope == f.scope && r.sequence == f.sequence
    && HasAtom(r.atoms, f.atom)
  }

  predicate Undecided(f: Fact) { Has(f.mask, FACT_INDETERMINATE) || f.closure == CLOSE_INDETERMINATE }

  ghost predicate MakesDurable(p: Profile, r: Request, f: Fact, envelopes: seq<Envelope>)
  {
    || (Has(f.mask, FACT_LOGICAL_DURABLE) && f.closure == CLOSE_C_MAP)
    || (Has(f.mask, FACT_PLP_ADMITTED) && f.closure == CLOSE_PLP && p.cacheEnabled != 0 && p.plpKind == PLP_VALIDATED
        && Sealed(p, f.token, f.epoch, f.sequence, r.atoms, envelopes))
  }

  /** A durable fact is held at least in volatile memory; a captured one is held there. */
  ghost predicate Holds(p: Profile, r: Request, f: Fact, envelopes: seq<Envelope>)
  {
    MakesDurable(p, r, f, envelopes) || Has(f.mask, FACT_CAPTURED)
  }

  // ---------------------------------------------------------------- the declarative verdict on a command

  ghost predicate SomeUndecided(r: Request, facts: seq<Fact>)
  {
    exists f :: f in facts && Concerns(r, f) && Undecided(f)
  }

  ghost predicate AtomDurable(p: Profile, r: Request, facts: seq<Fact>, envelopes: seq<Envelope>, atom: nat)
  {
    exists f :: f in facts && Concerns(r, f) && f.atom == atom && MakesDurable(p, r, f, envelopes)
  }

  ghost predicate AtomHeld(p: Profile, r: Request, facts: seq<Fact>, envelopes: seq<Envelope>, atom: nat)
  {
    exists f :: f in facts && Concerns(r, f) && f.atom == atom && Holds(p, r, f, envelopes)
  }

  ghost function DurableAtoms(p: Profile, r: Request, facts: seq<Fact>, envelopes: seq<Envelope>): bv8
  {
    MaskOf(AtomDurable(p, r, facts, envelopes, 0), AtomDurable(p, r, facts, envelopes, 1))
  }

  ghost function HeldAtoms(p: Profile, r: Request, facts: seq<Fact>, envelopes: seq<Envelope>): bv8
  {
    MaskOf(AtomHeld(p, r, facts, envelopes, 0), AtomHeld(p, r, facts, envelopes, 1))
  }

  ghost predicate AllDurable(p: Profile, r: Request, facts: seq<Fact>, envelopes: seq<Envelope>)
  {
    forall atom :: 0 <= atom < MAX_ATOMS && HasAtom(r.atoms, atom) ==> AtomDurable(p, r, facts, envelopes, atom)
  }

  ghost predicate AllHeld(p: Profile, r: Request, facts: seq<Fact>, envelopes: seq<Envelope>)
  {
    forall atom :: 0 <= atom < MAX_ATOMS && HasAtom(r.atoms, atom) ==> AtomHeld(p, r, facts, envelopes, atom)
  }

  predicate VolatileAllowed(p: Profile, r: Request)
  {
    r.kind == REQUEST_DEFAULT && p.cacheEnabled != 0 && p.plpKind == PLP_NONE
  }

  ghost function Verdict(p: Profile, r: Request, facts: seq<Fact>, envelopes: seq<Envelope>): Witness
  {
    var w := Fresh(r.atoms);
    if SomeUndecided(r, facts) then w.(class_ := CLASS_FAILED, reason := REASON_INDETERMINATE)
    else if AllDurable(p, r, facts, envelopes) then w.(class_ := CLASS_DURABLE, satisfied := r.atoms)
    else if VolatileAllowed(p, r) && AllHeld(p, r, facts, envelopes) then
      w.(class_ := CLASS_VOLATILE, satisfied := r.atoms)
    else w.(class_ := CLASS_NONE, satisfied := DurableAtoms(p, r, facts, envelopes),
            reason := if AllHeld(p, r, facts, envelopes) then REASON_MISSING_DURABLE else REASON_MISSING_ATOM)
  }

  function Fresh(required: bv8): Witness { Witness(VERSION, WITNESS_SIZE, CLASS_NONE, required, 0, 0, REASON_NONE, 0) }

  /** Why the command's inputs are refused before any fact is read. */
  function CommandRefusal(p: Profile, r: Request): Result
  {
    if ValidateProfile(p) != Ok then ValidateProfile(p)
    else if r.version != VERSION then UnsupportedVersion
    else if !RequestShape(r) || r.kind == REQUEST_FENCE then InvalidContract
    else Ok
  }

  predicate WellShaped(facts: seq<Fact>) { forall i :: 0 <= i < |facts| ==> FactShape(facts[i]) }

  /** A malformed fact is met while nothing before it is indeterminate for the command. */
  ghost predicate Malformed(r: Request, facts: seq<Fact>)
  {
    exists k :: 0 <= k < |facts| && !FactShape(facts[k])
                && forall j :: 0 <= j < k ==> FactShape(facts[j]) && !(Concerns(r, facts[j]) && Undecided(facts[j]))
  }

  lemma DurableAtomsOnward(p: Profile, r: Request, facts: seq<Fact>, f: Fact, envelopes: seq<Envelope>)
    requires f.atom < MAX_ATOMS
    ensures DurableAtoms(p, r, facts + [f], envelopes)
         == if Concerns(r, f) && MakesDurable(p, r, f, envelopes) then
              DurableAtoms(p, r, facts, envelopes) | Bit(f.atom)
            else DurableAtoms(p, r, facts, envelopes)
  {
    forall atom | 0 <= atom < MAX_ATOMS
      ensures AtomDurable(p, r, facts + [f], envelopes, atom)
              <==> AtomDurable(p, r, facts, envelopes, atom)
                   || (Concerns(r, f) && f.atom == atom && MakesDurable(p, r, f, envelopes))
    {
      assert forall g :: g in facts + [f] <==> g in facts || g == f;
    }
  }

  lemma HeldAtomsOnward(p: Profile, r: Request, facts: seq<Fact>, f: Fact, envelopes: seq<Envelope>)
    requires f.atom < MAX_ATOMS
    ensures HeldAtoms(p, r, facts + [f], envelopes)
         == if Concerns(r, f) && Holds(p, r, f, envelopes) then HeldAtoms(p, r, facts, envelopes) | Bit(f.atom)
            else HeldAtoms(p, r, facts, envelopes)
  {
    forall atom | 0 <= atom < MAX_ATOMS
      ensures AtomHeld(p, r, facts + [f], envelopes, atom)
              <==> AtomHeld(p, r, facts, envelopes, atom)
                   || (Concerns(r, f) && f.atom == atom && Holds(p, r, f, envelopes))
    {
      assert forall g :: g in facts + [f] <==> g in facts || g == f;
    }
  }

  /** The masks hold the atoms the facts make durable, and those they hold at all. */
  ghost predicate Collected(p: Profile, r: Request, facts: seq<Fact>, envelopes: seq<Envelope>, durable: bv8,
                            volatile: bv8)
  {
    durable == DurableAtoms(p, r, facts, envelopes) && volatile == HeldAtoms(p, r, facts, envelopes)
  }

  lemma CollectedOnward(
    p: Profile, r: Request, facts: seq<Fact>, f: Fact, envelopes: seq<Envelope>,
    d: bv8, v: bv8, durable: bv8, volatile: bv8)
    requires f.atom < MAX_ATOMS && Collected(p, r, facts, envelopes, d, v)
    requires durable == if Concerns(r, f) && MakesDurable(p, r, f, envelopes) then d | Bit(f.atom) else d
    requires volatile == if Concerns(r, f) && Holds(p, r, f, envelopes) then v | Bit(f.atom) else v
    ensures Collected(p, r, facts + [f], envelopes, durable, volatile)
  {
    DurableAtomsOnward(p, r, facts, f, envelopes);
    HeldAtomsOnward(p, r, facts, f, envelopes);
  }

  /** The mask of durable atoms is the whole request exactly when every requested atom is durable. */
  lemma WholeMask(p: Profile, r: Request, facts: seq<Fact>, envelopes: seq<Envelope>)
    requires AtomsOnly(r.atoms)
    ensures DurableAtoms(p, r, facts, envelopes) == r.atoms <==> AllDurable(p, r, facts, envelopes)
    ensures HeldAtoms(p, r, facts, envelopes) == r.atoms <==> AllHeld(p, r, facts, envelopes)
  {
    var a0, a1 := HasAtom(r.atoms, 0), HasAtom(r.atoms, 1);
    MaskExtensional(r.atoms, a0, a1);
    assert AtomDurable(p, r, facts, envelopes, 0) ==> a0;
    assert AtomDurable(p, r, facts, envelopes, 1) ==> a1;
    assert AtomHeld(p, r, facts, envelopes, 0) ==> a0;
    assert AtomHeld(p, r, facts, envelopes, 1) ==> a1;
  }

  method JudgeFact(p: Profile, r: Request, f: Fact, envelopes: seq<Envelope>) returns (durable: bool)
    ensures durable == MakesDurable(p, r, f, envelopes)
  {
    if Has(f.mask, FACT_LOGICAL_DURABLE) && f.closure == CLOSE_C_MAP { return true; }
    if Has(f.mask, FACT_PLP_ADMITTED) && f.closure == CLOSE_PLP && p.cacheEnabled != 0 && p.plpKind == PLP_VALIDATED {
      durable := CheckSeal(p, f.token, f.epoch, f.sequence, r.atoms, envelopes);
      return;
    }
    return false;
  }

  method CommandWitness(p: Profile, r: Request, facts: seq<Fact>, envelopes: seq<Envelope>, before: Witness)
    returns (result: Result, w: Witness)
    ensures CommandRefusal(p, r) != Ok ==> result == CommandRefusal(p, r) && w == before
    ensures CommandRefusal(p, r) == Ok ==>
              if Malformed(r, facts) then result == InvalidContract && w == Fresh(r.atoms)
              else result == Ok && w == Verdict(p, r, facts, envelopes)
  {
    result, w := CommandRefusal(p, r), before;
    if result != Ok { return; }
    w := Fresh(r.atoms);
    var volatile, durable: bv8 := 0, 0;
    for index := 0 to |facts|
      invariant WellShaped(facts[..index]) && !SomeUndecided(r, facts[..index])
      invariant Collected(p, r, facts[..index], envelopes, durable, volatile)
    {
      var fact := facts[index];
      ghost var seen := facts[..index];
      assert facts[..index + 1] == seen + [fact];
      assert forall j :: 0 <= j < index ==> seen[j] == facts[j] && seen[j] in seen;
      if !FactShape(fact) {
        assert Malformed(r, facts);
        return InvalidContract, w;
      }
      ghost var d, v := durable, volatile;
      if Concerns(r, fact) {
        if Undecided(fact) {
          assert fact in facts;
          w := w.(class_ := CLASS_FAILED, reason := REASON_INDETERMINATE);
          return;
        }
        var settled := JudgeFact(p, r, fact, envelopes);
        if settled {
          durable := durable | Bit(fact.atom);
          volatile := volatile | Bit(fact.atom);
        } else if Has(fact.mask, FACT_CAPTURED) {
          volatile := volatile | Bit(fact.atom);
        }
      }
      CollectedOnward(p, r, seen, fact, envelopes, d, v, durable, volatile);
    }
    assert facts[..|facts|] == facts;
    WholeMask(p, r, facts, envelopes);
    w := Settle(p, r, durable, volatile);
  }

  /** The class the collected masks support. */
  function Settle(p: Profile, r: Request, durable: bv8, volatile: bv8): Witness
  {
    var w := Fresh(r.atoms);
    if durable == r.atoms then w.(class_ := CLASS_DURABLE, satisfied := durable)
    else if VolatileAllowed(p, r) && volatile == r.atoms then w.(class_ := CLASS_VOLATILE, satisfied := volatile)
    else w.(class_ := CLASS_NONE, satisfied := durable,
            reason := if volatile == r.atoms then REASON_MISSING_DURABLE else REASON_MISSING_ATOM)
  }

  // ---------------------------------------------------------------- properties of the verdict

  /** Only which facts there are matters, not their order or how often they are repeated. */
  lemma VerdictOrderFree(p: Profile, r: Request, facts: seq<Fact>, others: seq<Fact>, envelopes: seq<Envelope>)
    requires forall f :: f in facts <==> f in others
    ensures Verdict(p, r, facts, envelopes) == Verdict(p, r, others, envelopes)
    ensures WellShaped(facts) ==> WellShaped(others) && !Malformed(r, others)
  {
    VerdictParts(p, r, facts, others, envelopes);
    VerdictParts(p, r, others, facts, envelopes);
    if WellShaped(facts) {
      forall i | 0 <= i < |others| ensures FactShape(others[i]) {
        assert others[i] in facts;
      }
    }
  }

  /** A well-formed fact that is about the command and undecided ends the scan before what follows it is looked at. */
  predicate Hides(r: Request, f: Fact) { FactShape(f) && Concerns(r, f) && Undecided(f) }

  ghost predicate SameFacts(facts: seq<Fact>, others: seq<Fact>) { forall f :: f in facts <==> f in others }

  ghost predicate Reordered(facts: seq<Fact>, others: seq<Fact>) { multiset(facts) == multiset(others) }

  /** Whether the list is refused does not depend on the order of its facts. */
  ghost predicate RefusalOrderFree(r: Request, facts: seq<Fact>)
  {
    forall others :: Reordered(facts, others) ==> (Malformed(r, others) <==> Malformed(r, facts))
  }

  /** Nor on how often they are repeated. */
  ghost predicate RefusalOfFacts(r: Request, facts: seq<Fact>)
  {
    forall others :: SameFacts(facts, others) ==> (Malformed(r, others) <==> Malformed(r, facts))
  }

  /** No fact is malformed, or no fact could hide one that is. */
  predicate NothingHidden(r: Request, facts: seq<Fact>)
  {
    WellShaped(facts) || forall f :: f in facts ==> !Hides(r, f)
  }

  /** Refusal is the same for every order of the facts exactly when nothing hides a malformed one. */
  lemma RefusalOrderFreeExactly(r: Request, facts: seq<Fact>)
    ensures RefusalOrderFree(r, facts) <==> NothingHidden(r, facts)
    ensures RefusalOfFacts(r, facts) <==> NothingHidden(r, facts)
  {
    forall others | Reordered(facts, others) ensures SameFacts(facts, others) { ReorderedSame(facts, others); }
    if NothingHidden(r, facts) {
      forall others | SameFacts(facts, others) ensures Malformed(r, others) <==> !WellShaped(facts) {
        RefusedIfMalformed(r, facts, others);
      }
      assert SameFacts(facts, facts);
    } else {
      var i :| 0 <= i < |facts| && !FactShape(facts[i]);
      var k :| 0 <= k < |facts| && Hides(r, facts[k]);
      ToFront(facts, i);
      ToFront(facts, k);
      assert Malformed(r, Front(facts, i)) by { assert Front(facts, i)[0] == facts[i]; }
      assert !Malformed(r, Front(facts, k)) by { assert Front(facts, k)[0] == facts[k]; }
    }
  }

  lemma ReorderedSame(facts: seq<Fact>, others: seq<Fact>)
    requires Reordered(facts, others)
    ensures SameFacts(facts, others)
  {
    forall f ensures f in facts <==> f in others {
      assert f in facts <==> f in multiset(facts);
      assert f in others <==> f in multiset(others);
    }
  }

  lemma RefusedIfMalformed(r: Request, facts: seq<Fact>, others: seq<Fact>)
    requires SameFacts(facts, others) && NothingHidden(r, facts)
    ensures Malformed(r, others) <==> !WellShaped(facts)
  {
    if WellShaped(facts) {
      forall i | 0 <= i < |others| ensures FactShape(others[i]) { assert others[i] in facts; }
    } else {
      var i :| 0 <= i < |facts| && !FactShape(facts[i]);
      assert facts[i] in others;
      NeverHidden(r, others);
    }
  }

  /** The same list with the fact at `i` moved to its head. */
  function Front(facts: seq<Fact>, i: nat): seq<Fact>
    requires i < |facts|
  {
    [facts[i]] + facts[..i] + facts[i + 1..]
  }

  lemma ToFront(facts: seq<Fact>, i: nat)
    requires i < |facts|
    ensures Reordered(facts, Front(facts, i)) && SameFacts(facts, Front(facts, i))
  {
    assert facts == facts[..i] + [facts[i]] + facts[i + 1..];
    ReorderedSame(facts, Front(facts, i));
  }

  /** Without a fact that hides others the first malformed one is met. */
  lemma NeverHidden(r: Request, facts: seq<Fact>)
    requires !WellShaped(facts) && forall f :: f in facts ==> !Hides(r, f)
    ensures Malformed(r, facts)
  {
    var k := FirstMalformed(facts, 0);
    forall j | 0 <= j < k ensures FactShape(facts[j]) && !(Concerns(r, facts[j]) && Undecided(facts[j])) {
      assert facts[j] in facts && !Hides(r, facts[j]);
    }
  }

  function FirstMalformed(facts: seq<Fact>, from: nat): (k: nat)
    requires from <= |facts| && exists i :: from <= i < |facts| && !FactShape(facts[i])
    ensures from <= k < |facts| && !FactShape(facts[k]) && forall j :: from <= j < k ==> FactShape(facts[j])
    decreases |facts| - from
  {
    if !FactShape(facts[from]) then from else FirstMalformed(facts, from + 1)
  }

  /** So with a malformed fact and one that hides it the order decides. */
  lemma MalformedOrderMatters(r: Request, bad: Fact, hiding: Fact)
    requires !FactShape(bad) && Hides(r, hiding)
    ensures Malformed(r, [bad, hiding]) && !Malformed(r, [hiding, bad]) && !RefusalOrderFree(r, [bad, hiding])
  {
    assert [bad, hiding][0] == bad && [hiding, bad][0] == hiding && [bad, hiding][1] == hiding;
    RefusalOrderFreeExactly(r, [bad, hiding]);
  }

  /** More facts support no less. */
  lemma VerdictParts(p: Profile, r: Request, facts: seq<Fact>, more: seq<Fact>, envelopes: seq<Envelope>)
    requires forall f :: f in facts ==> f in more
    ensures SomeUndecided(r, facts) ==> SomeUndecided(r, more)
    ensures forall atom :: AtomDurable(p, r, facts, envelopes, atom) ==> AtomDurable(p, r, more, envelopes, atom)
    ensures forall atom :: AtomHeld(p, r, facts, envelopes, atom) ==> AtomHeld(p, r, more, envelopes, atom)
  {
  }

  /** Adding facts, none of which leaves the command undecided, never lowers the class. */
  lemma VerdictMonotone(p: Profile, r: Request, facts: seq<Fact>, more: seq<Fact>, envelopes: seq<Envelope>)
    requires AtomsOnly(r.atoms) && !SomeUndecided(r, facts + more)
    ensures Verdict(p, r, facts, envelopes).class_ <= Verdict(p, r, facts + more, envelopes).class_
    ensures Verdict(p, r, facts, envelopes).class_ == CLASS_NONE ==>
              Verdict(p, r, facts, envelopes).satisfied & Verdict(p, r, facts + more, envelopes).satisfied
              == Verdict(p, r, facts, envelopes).satisfied
  {
    VerdictParts(p, r, facts, facts + more, envelopes);
    SatisfiedGrows(p, r, facts, facts + more, envelopes);
  }

  lemma SatisfiedGrows(p: Profile, r: Request, facts: seq<Fact>, more: seq<Fact>, envelopes: seq<Envelope>)
    requires forall f :: f in facts ==> f in more
    ensures DurableAtoms(p, r, facts, envelopes) & DurableAtoms(p, r, more, envelopes)
      == DurableAtoms(p, r, facts, envelopes)
    ensures AtomsOnly(r.atoms) ==>
      DurableAtoms(p, r, facts, envelopes) & r.atoms == DurableAtoms(p, r, facts, envelopes)
  {
    VerdictParts(p, r, facts, more, envelopes);
  }

  // ---------------------------------------------------------------- fences

  predicate Covered(fence: Request, o: Obligation)
  {
    o.epoch == fence.epoch && o.scope == fence.scope && o.sequence <= fence.frontier
  }

  predicate Unsettled(o: Obligation) { o.closure == CLOSE_INDETERMINATE || Has(o.mask, FACT_INDETERMINATE) }

  /** The obligation is discharged: nothing was committed, the map holds it, or a valid envelope does. */
  ghost predicate Closed(p: Profile, o: Obligation, envelopes: seq<Envelope>)
  {
    || (o.closure == CLOSE_NO_COMMIT && Has(o.mask, FACT_PROVABLE_NO_COMMIT))
    || (o.closure == CLOSE_C_MAP && Has(o.mask, FACT_LOGICAL_DURABLE))
    || (o.closure == CLOSE_PLP && Has(o.mask, FACT_PLP_ADMITTED)
        && Sealed(p, o.token, o.epoch, o.sequence, o.atoms, envelopes))
  }

  ghost predicate Passes(p: Profile, fence: Request, o: Obligation, envelopes: seq<Envelope>)
  {
    ObligationShape(o) && (Covered(fence, o) ==> !Unsettled(o) && Closed(p, o, envelopes))
  }

  /** Every obligation is well formed and every covered one is discharged. */
  ghost predicate AllPass(p: Profile, fence: Request, os: seq<Obligation>, envelopes: seq<Envelope>)
  {
    forall i :: 0 <= i < |os| ==> Passes(p, fence, os[i], envelopes)
  }

  ghost predicate CoversAtom(fence: Request, os: seq<Obligation>, atom: nat)
  {
    exists o :: o in os && Covered(fence, o) && HasAtom(o.atoms, atom)
  }

  ghost function CoveredAtoms(fence: Request, os: seq<Obligation>): bv8
  {
    MaskOf(CoversAtom(fence, os, 0), CoversAtom(fence, os, 1))
  }

  /** What the first obligation that does not pass makes of the fence. */
  ghost function Blocked(fence: Request, before: seq<Obligation>, o: Obligation): (Result, Witness)
  {
    if !ObligationShape(o) then (InvalidContract, Fresh(0))
    else if Unsettled(o) then (Ok, Fresh(0).(class_ := CLASS_FAILED, reason := REASON_INDETERMINATE))
    else (Ok, Fresh(0).(class_ := CLASS_NONE, required := CoveredAtoms(fence, before + [o]),
                        satisfied := CoveredAtoms(fence, before),
                        reason := if o.closure == CLOSE_PLP then REASON_INVALID_PLP else REASON_OPEN_OBLIGATION))
  }

  function FenceRefusal(p: Profile, fence: Request): Result
  {
    if ValidateProfile(p) != Ok then ValidateProfile(p)
    else if fence.version != VERSION then UnsupportedVersion
    else if !RequestShape(fence) || fence.kind != REQUEST_FENCE then InvalidContract
    else Ok
  }

  lemma CoveredAtomsOnward(fence: Request, os: seq<Obligation>, o: Obligation)
    requires ObligationShape(o)
    ensures CoveredAtoms(fence, os + [o]) == CoveredAtoms(fence, os) | (if Covered(fence, o) then o.atoms else 0)
  {
    forall atom | 0 <= atom < MAX_ATOMS
      ensures CoversAtom(fence, os + [o], atom)
              <==> CoversAtom(fence, os, atom) || (Covered(fence, o) && HasAtom(o.atoms, atom))
    {
      assert forall x :: x in os + [o] <==> x in os || x == o;
    }
    MaskExtensional(o.atoms, HasAtom(o.atoms, 0), HasAtom(o.atoms, 1));
  }

  method FenceWitness(p: Profile, fence: Request, os: seq<Obligation>, envelopes: seq<Envelope>, before: Witness)
    returns (result: Result, w: Witness)
    ensures FenceRefusal(p, fence) != Ok ==> result == FenceRefusal(p, fence) && w == before
    ensures FenceRefusal(p, fence) == Ok ==>
              if AllPass(p, fence, os, envelopes) then
                result == Ok && w == Fresh(CoveredAtoms(fence, os)).(
                  class_ := CLASS_DURABLE, satisfied := CoveredAtoms(fence, os))
              else exists k :: 0 <= k < |os| && AllPass(p, fence, os[..k], envelopes)
                               && !Passes(p, fence, os[k], envelopes)
                               && (result, w) == Blocked(fence, os[..k], os[k])
  {
    result, w := FenceRefusal(p, fence), before;
    if result != Ok { return; }
    w := Fresh(0);
    var covered, satisfied: bv8 := 0, 0;
    for index := 0 to |os|
      invariant AllPass(p, fence, os[..index], envelopes)
      invariant covered == CoveredAtoms(fence, os[..index]) && satisfied == covered
    {
      var o := os[index];
      ghost var seen := os[..index];
      assert os[..index + 1] == seen + [o];
      if !ObligationShape(o) { return InvalidContract, w; }
      CoveredAtomsOnward(fence, seen, o);
      if Covered(fence, o) {
        covered := covered | o.atoms;
        if Unsettled(o) {
          w := w.(class_ := CLASS_FAILED, reason := REASON_INDETERMINATE);
          return;
        }
        var closed := false;
        if o.closure == CLOSE_NO_COMMIT && Has(o.mask, FACT_PROVABLE_NO_COMMIT) {
          closed := true;
        } else if o.closure == CLOSE_C_MAP && Has(o.mask, FACT_LOGICAL_DURABLE) {
          closed := true;
        } else if o.closure == CLOSE_PLP && Has(o.mask, FACT_PLP_ADMITTED) {
          closed := CheckSeal(p, o.token, o.epoch, o.sequence, o.atoms, envelopes);
        }
        if !closed {
          w := w.(class_ := CLASS_NONE, required := covered, satisfied := satisfied,
                              reason := if o.closure == CLOSE_PLP then REASON_INVALID_PLP else REASON_OPEN_OBLIGATION);
          return;
        }
        satisfied := satisfied | o.atoms;
      }
    }
    assert os[..|os|] == os;
    w := w.(required := covered, satisfied := satisfied, class_ := CLASS_DURABLE);
  }

  /** A fence that passes two lists of obligations passes them together, and the other way round. */
  lemma FenceComposes(p: Profile, fence: Request, a: seq<Obligation>, b: seq<Obligation>, envelopes: seq<Envelope>)
    ensures AllPass(p, fence, a + b, envelopes) <==> AllPass(p, fence, a, envelopes) && AllPass(p, fence, b, envelopes)
    ensures CoveredAtoms(fence, a + b) == CoveredAtoms(fence, a) | CoveredAtoms(fence, b)
  {
    if AllPass(p, fence, a + b, envelopes) {
      forall i | 0 <= i < |a| ensures Passes(p, fence, a[i], envelopes) { assert (a + b)[i] == a[i]; }
      forall i | 0 <= i < |b| ensures Passes(p, fence, b[i], envelopes) { assert (a + b)[|a| + i] == b[i]; }
    }
    assert forall o :: o in a + b <==> o in a || o in b;
    assert forall atom :: CoversAtom(fence, a + b, atom) <==> CoversAtom(fence, a, atom) || CoversAtom(fence, b, atom);
  }

  lemma FenceOrderFree(p: Profile, fence: Request, os: seq<Obligation>, others: seq<Obligation>,
                       envelopes: seq<Envelope>)
    requires forall o :: o in os <==> o in others
    ensures AllPass(p, fence, os, envelopes) <==> AllPass(p, fence, others, envelopes)
    ensures CoveredAtoms(fence, os) == CoveredAtoms(fence, others)
  {
    assert AllPass(p, fence, os, envelopes) ==> forall o :: o in os ==> Passes(p, fence, o, envelopes);
    assert AllPass(p, fence, others, envelopes) ==> forall o :: o in others ==> Passes(p, fence, o, envelopes);
  }

  /** What a fence passes, an earlier frontier passes. */
  lemma FenceLowers(p: Profile, fence: Request, frontier: nat, os: seq<Obligation>, envelopes: seq<Envelope>)
    requires frontier <= fence.frontier && AllPass(p, fence, os, envelopes)
    ensures AllPass(p, fence.(frontier := frontier), os, envelopes)
    ensures FenceRefusal(p, fence.(frontier := frontier)) == Ok <==> FenceRefusal(p, fence) == Ok
  {
    forall i | 0 <= i < |os| ensures Passes(p, fence.(frontier := frontier), os[i], envelopes) {
      assert Passes(p, fence, os[i], envelopes);
    }
  }
}
