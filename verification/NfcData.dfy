/**
 Bytes, cache tokens and media calls.  A cache token names a plane and a generation;
 every token handed out is kept with the bytes behind it, and every call that moved
 bytes to the media or to a buffer is kept with what it moved.
 */
module NfcData {
  import opened NfcTypes
  import opened NfcModel
  import opened NfcTimeline
  import opened NfcLedger
  import opened NfcExclusion

  predicate Waiting(op: Op) { op.state.Queued? || op.state.Scheduled? }

  predicate LegalProgram(op: Op)
  {
    op.state.Running? && op.request.kind == PROGRAM_EXECUTE && op.legality == 0
  }

  ghost function EpochOf(op: Op): nat { op.request.operation.controllerEpoch }

  ghost predicate Entered(s: Model, op: Op)
  {
    op.submitSequence in s.hist.accepted && s.hist.accepted[op.submitSequence].request == op.request
  }

  // ---------------------------------------------------------------- what holds of slots

  /** A running operation is what it was when it began. */
  ghost predicate Frozen(s: Model, op: Op)
  {
    && op.submitSequence in s.hist.begun
    && var b := s.hist.begun[op.submitSequence];
       b.legality == op.legality && b.faultClass == op.faultClass && b.page == op.page
       && b.tick == op.startTick && (op.legality == 0 ==> b.epoch == EpochOf(op))
  }

  /** The token the request carries is the one of the plane it addresses and of the given generation. */
  ghost predicate Names(s: Model, r: Request, plane: nat, generation: nat)
  {
    && PpaValid(s.cfg.geometry, r.ppa) && PlaneIndex(s.cfg.geometry, r.ppa) == plane
    && r.cache == CacheToken(s.nonce, r.operation.controllerEpoch, generation, r.ppa.channel, r.ppa.lun, r.ppa.plane, 0)
  }

  /** The cache belongs to what the request asked for: its page, its regions and, for reads, its retry step. */
  predicate CacheHolds(c: PlaneCache, r: Request)
  {
    c.ppa == r.ppa && c.validRegionMask == r.regionMask && (c.kind.ReadCache? ==> c.retryStep == r.retryStep)
  }

  /** The token was minted in the request's epoch by an operation of the given kind on the request's own page. */
  ghost predicate MintedFor(s: Model, r: Request, plane: nat, generation: nat, kind: CacheKind, page: Page)
  {
    && (plane, generation) in s.hist.mints
    && var m := s.hist.mints[(plane, generation)];
       && m.kind == kind && m.page == page && m.epoch == r.operation.controllerEpoch
       && m.sequence in s.hist.accepted
       && var q := s.hist.accepted[m.sequence].request;
          && q.ppa == r.ppa && RegionWithin(r.regionMask, q.regionMask)
          && (kind.ProgramCache? ==> q.regionMask == r.regionMask)
          && (kind.ReadCache? ==> q.retryStep == r.retryStep)
  }

  ghost predicate SlotData(s: Model, op: Op)
  {
    && (Live(op) ==> Entered(s, op))
    && (Waiting(op) ==> op.submitSequence !in s.hist.begun)
    && (op.state.Running? ==> Frozen(s, op))
    && (op.state.Running? && op.request.kind == PROGRAM_TRANSFER && Entered(s, op) ==>
          op.page == s.hist.accepted[op.submitSequence].page)
    && (LegalProgram(op) ==>
          && PpaValid(s.cfg.geometry, op.request.ppa)
          && var p := PlaneIndex(s.cfg.geometry, op.request.ppa);
             p < |s.caches| && op.request.cache.generation <= s.caches[p].generation
             && Names(s, op.request, p, op.request.cache.generation)
             && MintedFor(s, op.request, p, op.request.cache.generation, ProgramCache, op.page))
  }

  /**
   An operation that no reset owns carries the current epoch; one that has not begun still holds
   the bytes captured for it, and is cancelled if a reset owns it.
   */
  ghost predicate SlotFresh(s: Model, op: Op)
  {
    && (Waiting(op) ==> op.legality == 0 && (Entered(s, op) ==> op.page == s.hist.accepted[op.submitSequence].page))
    && (Waiting(op) && op.resetOwned ==> op.cancelRequested)
    && ((Waiting(op) || op.state.Running?) && !op.resetOwned ==> EpochOf(op) == s.epoch)
  }

  ghost predicate Fresh(s: Model)
  {
    forall i :: 0 <= i < |s.ops| ==> SlotFresh(s, s.ops[i])
  }

  // ---------------------------------------------------------------- what holds of tokens and effects

  /** A plane's cache holds the bytes of the token that names its generation. */
  ghost predicate CacheBacked(s: Model, p: nat)
    requires p < |s.caches|
  {
    var c := s.caches[p];
    c.kind != NoCache ==>
      (p, c.generation) in s.hist.mints
      && var m := s.hist.mints[(p, c.generation)];
         && m == Mint(m.sequence, c.controllerEpoch, c.kind, c.page)
         && m.sequence in s.hist.accepted && CacheHolds(c, s.hist.accepted[m.sequence].request)
  }

  ghost predicate OnPage(s: Model, r: Request, plane: nat)
  {
    PpaValid(s.cfg.geometry, r.ppa) && PlaneIndex(s.cfg.geometry, r.ppa) == plane
  }

  /** A token stands for the bytes captured at submission, or for those its trigger read. */
  ghost predicate MintSound(s: Model, key: (nat, nat))
    requires key in s.hist.mints
  {
    var m := s.hist.mints[key];
    && key.0 < |s.caches| && key.1 <= s.caches[key.0].generation
    && m.sequence in s.hist.accepted && m.sequence in s.hist.begun
    && OnPage(s, s.hist.accepted[m.sequence].request, key.0)
    && var a, b := s.hist.accepted[m.sequence], s.hist.begun[m.sequence];
       b.legality == 0 && m.epoch == a.request.operation.controllerEpoch
       && ((m.kind.ProgramCache? && a.request.kind == PROGRAM_TRANSFER && m.page == a.page)
           || (m.kind.ReadCache? && a.request.kind == READ_TRIGGER && m.page == b.page))
  }

  /** The operation behind a media call had begun, legally, in the epoch it was accepted in. */
  ghost predicate BegunInEpoch(s: Model, sequence: nat)
  {
    && sequence in s.hist.begun && sequence in s.hist.accepted
    && s.hist.begun[sequence].legality == 0
    && s.hist.begun[sequence].epoch == s.hist.accepted[sequence].request.operation.controllerEpoch
  }

  /** The call comes from an operation of that kind, begun in its epoch, at the address it was asked for. */
  ghost predicate CallOfKind(s: Model, sequence: nat, kind: nat)
  {
    BegunInEpoch(s, sequence) && s.hist.accepted[sequence].request.kind == kind
  }

  /**
   A delivery is by a read transfer and moves the bytes its own token stands for, which a read of the
   same page read; a program is by a program execute and moves the bytes captured for the same page.
   */
  ghost predicate EffectSound(s: Model, e: Effect)
  {
    match e
    case Delivered(n, plane, generation, page) =>
      && CallOfKind(s, n, READ_TRANSFER)
      && var r := s.hist.accepted[n].request;
         Names(s, r, plane, generation) && MintedFor(s, r, plane, generation, ReadCache, page)
    case Programmed(n, ppa, plane, generation, page, main, oob, integrity) =>
      && CallOfKind(s, n, PROGRAM_EXECUTE) && s.hist.begun[n].page == page
      && var r := s.hist.accepted[n].request;
         && r.ppa == ppa && Names(s, r, plane, generation) && MintedFor(s, r, plane, generation, ProgramCache, page)
         && (integrity == INTEGRITY_COMPLETE ==>
               s.hist.begun[n].faultClass.Clean? && main == s.cfg.geometry.mainBytes && oob == s.cfg.geometry.oobBytes)
    case Erased(n, ppa, pages, integrity) =>
      && CallOfKind(s, n, ERASE) && s.hist.accepted[n].request.ppa == ppa
      && (integrity == INTEGRITY_COMPLETE ==>
            s.hist.begun[n].faultClass.Clean? && pages == s.cfg.geometry.pagesPerBlock)
    case MarkedBad(n, ppa) =>
      && (CallOfKind(s, n, PROGRAM_EXECUTE) || CallOfKind(s, n, ERASE)) && s.hist.accepted[n].request.ppa == ppa
      && s.hist.begun[n].faultClass.GrownBad?
  }

  /** Whatever was accepted had the shape a request must have in its epoch. */
  ghost predicate RequestsShaped(s: Model)
  {
    forall a :: a in s.hist.accepted ==>
      var r := s.hist.accepted[a].request; RequestShapeValid(s.cfg, s.nonce, r.operation.controllerEpoch, r)
  }

  ghost predicate Data(s: Model)
  {
    && (forall i :: 0 <= i < |s.ops| ==> SlotData(s, s.ops[i]))
    && (forall p :: 0 <= p < |s.caches| ==> CacheBacked(s, p))
    && (forall key :: key in s.hist.mints ==> MintSound(s, key))
    && (forall k :: 0 <= k < |s.hist.effects| ==> EffectSound(s, s.hist.effects[k]))
    && (forall a :: a in s.hist.begun ==> a < s.nextSubmit)
    && (forall a :: a in s.hist.accepted ==> a < s.nextSubmit)
    && RequestsShaped(s)
  }

  // ---------------------------------------------------------------- relations

  predicate DataAlike(a: Op, b: Op)
  {
    || b.state.Free?
    || (&& Live(a) && b.submitSequence == a.submitSequence && b.request == a.request
        && (|| b.state.EventPending?
            || (Waiting(a) && Waiting(b))
            || (a.state.Running? && b.state.Running? && b.legality == a.legality && b.faultClass == a.faultClass
                && b.page == a.page && b.startTick == a.startTick)))
  }

  /** The cache is untouched, or emptied, or moved on to an empty generation. */
  predicate CacheQuiet(c: PlaneCache, d: PlaneCache)
  {
    && c.generation <= d.generation
    && (d.kind != NoCache ==>
          && d.kind == c.kind && d.generation == c.generation && d.page == c.page
          && d.controllerEpoch == c.controllerEpoch
          && d.ppa == c.ppa && d.validRegionMask == c.validRegionMask && d.retryStep == c.retryStep)
  }

  ghost predicate SameRecords(s: Model, t: Model)
  {
    && t.cfg == s.cfg && t.nonce == s.nonce && |t.ops| == |s.ops| && |t.caches| == |s.caches|
    && t.nextSubmit >= s.nextSubmit
    && t.hist.accepted == s.hist.accepted && t.hist.begun == s.hist.begun && t.hist.mints == s.hist.mints
  }

  /** Slots, caches and effects move on; nothing new begins and no token is minted. */
  ghost predicate DataMoves(s: Model, t: Model)
  {
    && SameRecords(s, t)
    && (forall i :: 0 <= i < |s.ops| ==> DataAlike(s.ops[i], t.ops[i]))
    && (forall p :: 0 <= p < |s.caches| ==> CacheQuiet(s.caches[p], t.caches[p]))
    && s.hist.effects <= t.hist.effects
    && (forall k :: |s.hist.effects| <= k < |t.hist.effects| ==> EffectSound(s, t.hist.effects[k]))
  }

  ghost predicate SameStore(s: Model, t: Model)
  {
    && t.cfg == s.cfg && t.nonce == s.nonce && t.caches == s.caches
    && t.hist.mints == s.hist.mints && t.hist.effects == s.hist.effects
  }

  ghost predicate DataAccepts(s: Model, t: Model, i: nat, entry: Acceptance)
  {
    && SlotOnly(s, t, i) && SameStore(s, t) && t.hist.begun == s.hist.begun && t.nextSubmit == s.nextSubmit + 1
    && t.hist.accepted == s.hist.accepted[s.nextSubmit := entry]
    && t.ops[i].state.Queued? && t.ops[i].submitSequence == s.nextSubmit
    && t.ops[i].request == entry.request
    && RequestShapeValid(s.cfg, s.nonce, entry.request.operation.controllerEpoch, entry.request)
  }

  ghost predicate DataBegins(s: Model, t: Model, i: nat)
  {
    && SlotOnly(s, t, i) && SameStore(s, t) && t.hist.accepted == s.hist.accepted && t.nextSubmit == s.nextSubmit
    && var a, b := s.ops[i], t.ops[i];
       && a.state.Scheduled? && b.state.Running? && b.submitSequence == a.submitSequence && b.request == a.request
       && t.hist.begun == s.hist.begun[a.submitSequence :=
            Beginning(s.now, s.epoch, b.legality, b.faultClass, b.page)]
       && s.now == b.startTick
       && (b.legality == 0 ==> EpochOf(a) == s.epoch)
       && (b.request.kind == PROGRAM_TRANSFER && Entered(s, a) ==>
             b.page == s.hist.accepted[a.submitSequence].page)
       && (LegalProgram(b) ==>
             && PpaValid(s.cfg.geometry, b.request.ppa)
             && var p := PlaneIndex(s.cfg.geometry, b.request.ppa);
                p < |s.caches| && s.caches[p].page == b.page
                && TokenMatches(Site(s.cfg, s.nonce, s.epoch, s.now, s.caches[p]), b.request, ProgramCache))
  }

  /** Finishing a read trigger or a program transfer mints the plane's next token. */
  ghost predicate DataMints(s: Model, t: Model, i: nat, p: nat)
  {
    && SlotOnly(s, t, i) && t.cfg == s.cfg && t.nonce == s.nonce && t.nextSubmit == s.nextSubmit
    && t.hist.accepted == s.hist.accepted && t.hist.begun == s.hist.begun && t.hist.effects == s.hist.effects
    && p < |s.caches| == |t.caches| && t.caches == s.caches[p := t.caches[p]]
    && var a, c := s.ops[i], t.caches[p];
       && a.state.Running? && a.legality == 0 && EpochOf(a) == s.epoch && DataAlike(a, t.ops[i])
       && c.generation == s.caches[p].generation + 1 && c.controllerEpoch == s.epoch && c.page == a.page
       && CacheHolds(c, a.request) && OnPage(s, a.request, p)
       && t.hist.mints == s.hist.mints[(p, c.generation) := Mint(a.submitSequence, s.epoch, c.kind, c.page)]
       && ((c.kind.ReadCache? && a.request.kind == READ_TRIGGER)
           || (c.kind.ProgramCache? && a.request.kind == PROGRAM_TRANSFER))
  }

  // ---------------------------------------------------------------- preservation

  lemma MovesKeep(s: Model, t: Model)
    requires Data(s) && DataMoves(s, t)
    ensures Data(t)
  {
    forall i | 0 <= i < |t.ops| ensures SlotData(t, t.ops[i]) {
      assert SlotData(s, s.ops[i]) && DataAlike(s.ops[i], t.ops[i]);
      if LegalProgram(t.ops[i]) {
        var p := PlaneIndex(s.cfg.geometry, s.ops[i].request.ppa);
        assert CacheQuiet(s.caches[p], t.caches[p]);
      }
    }
    forall p | 0 <= p < |t.caches| ensures CacheBacked(t, p) {
      assert CacheBacked(s, p) && CacheQuiet(s.caches[p], t.caches[p]);
    }
    forall key | key in t.hist.mints ensures MintSound(t, key) {
      assert MintSound(s, key) && CacheQuiet(s.caches[key.0], t.caches[key.0]);
    }
    forall k | 0 <= k < |t.hist.effects| ensures EffectSound(t, t.hist.effects[k]) {
      if k < |s.hist.effects| {
        assert EffectSound(s, s.hist.effects[k]) && s.hist.effects[k] == t.hist.effects[k];
      }
      EffectKept(s, t, t.hist.effects[k]);
    }
  }

  /** Records are added, never rewritten. */
  ghost predicate RecordsGrow(s: Model, t: Model)
  {
    && t.cfg == s.cfg && t.nonce == s.nonce
    && (forall a :: a in s.hist.accepted ==> a in t.hist.accepted && t.hist.accepted[a] == s.hist.accepted[a])
    && (forall a :: a in s.hist.begun ==> a in t.hist.begun && t.hist.begun[a] == s.hist.begun[a])
    && (forall key :: key in s.hist.mints ==> key in t.hist.mints && t.hist.mints[key] == s.hist.mints[key])
  }

  lemma EffectKept(s: Model, t: Model, e: Effect)
    requires RecordsGrow(s, t) && EffectSound(s, e)
    ensures EffectSound(t, e)
  {
  }

  lemma EffectsKept(s: Model, t: Model)
    requires RecordsGrow(s, t) && t.hist.effects == s.hist.effects
    requires forall k :: 0 <= k < |s.hist.effects| ==> EffectSound(s, s.hist.effects[k])
    ensures forall k :: 0 <= k < |t.hist.effects| ==> EffectSound(t, t.hist.effects[k])
  {
    forall k | 0 <= k < |t.hist.effects| ensures EffectSound(t, t.hist.effects[k]) {
      EffectKept(s, t, s.hist.effects[k]);
    }
  }

  lemma SlotKept(s: Model, t: Model, op: Op)
    requires RecordsGrow(s, t) && SlotData(s, op) && |t.caches| == |s.caches|
    requires forall p :: 0 <= p < |s.caches| ==> s.caches[p].generation <= t.caches[p].generation
    requires Waiting(op) ==> op.submitSequence !in t.hist.begun
    ensures SlotData(t, op)
  {
  }

  lemma AcceptsKeep(s: Model, t: Model, i: nat, entry: Acceptance)
    requires Data(s) && DataAccepts(s, t, i, entry)
    ensures Data(t)
  {
    assert s.nextSubmit !in s.hist.accepted && s.nextSubmit !in s.hist.begun;
    EffectsKept(s, t);
    forall j | 0 <= j < |t.ops| ensures SlotData(t, t.ops[j]) {
      assert SlotData(s, s.ops[j]);
      if j != i { SlotKept(s, t, s.ops[j]); }
    }
    TokensKept(s, t);
  }

  lemma TokensKept(s: Model, t: Model)
    requires RecordsGrow(s, t) && t.caches == s.caches && t.hist.mints == s.hist.mints
    requires forall p :: 0 <= p < |s.caches| ==> CacheBacked(s, p)
    requires forall key :: key in s.hist.mints ==> MintSound(s, key)
    ensures forall p :: 0 <= p < |t.caches| ==> CacheBacked(t, p)
    ensures forall key :: key in t.hist.mints ==> MintSound(t, key)
  {
    forall p | 0 <= p < |t.caches| ensures CacheBacked(t, p) {
      assert CacheBacked(s, p);
    }
    forall key | key in t.hist.mints ensures MintSound(t, key) {
      assert MintSound(s, key);
    }
  }

  lemma BeginsKeep(s: Model, t: Model, i: nat)
    requires Data(s) && PairsOrdered(s) && DataBegins(s, t, i)
    requires s.ops[i].submitSequence < s.nextSubmit
    ensures Data(t)
  {
    var n := s.ops[i].submitSequence;
    assert SlotData(s, s.ops[i]);
    assert n !in s.hist.begun;
    EffectsKept(s, t);
    forall j | 0 <= j < |t.ops| ensures SlotData(t, t.ops[j]) {
      assert SlotData(s, s.ops[j]);
      if j != i {
        assert PairOrdered(s.ops[i], s.ops[j]);
        SlotKept(s, t, s.ops[j]);
      } else {
        BegunSlot(s, t, i);
      }
    }
    TokensKept(s, t);
  }

  lemma BegunSlot(s: Model, t: Model, i: nat)
    requires Data(s) && DataBegins(s, t, i)
    ensures SlotData(t, t.ops[i])
  {
    assert SlotData(s, s.ops[i]);
    var b := t.ops[i];
    if LegalProgram(b) {
      var p := PlaneIndex(s.cfg.geometry, b.request.ppa);
      assert CacheBacked(s, p);
    }
  }

  lemma MintsKeep(s: Model, t: Model, i: nat, p: nat)
    requires Data(s) && DataMints(s, t, i, p)
    ensures Data(t)
  {
    var c := t.caches[p];
    assert SlotData(s, s.ops[i]);
    forall key | key in s.hist.mints ensures key != (p, c.generation) {
      assert MintSound(s, key);
    }
    EffectsKept(s, t);
    forall j | 0 <= j < |t.ops| ensures SlotData(t, t.ops[j]) {
      assert SlotData(s, s.ops[j]);
      if j != i { SlotKept(s, t, s.ops[j]); } else { SlotKept(s, t, s.ops[i]); }
    }
    MintedTokens(s, t, i, p);
  }

  lemma MintedTokens(s: Model, t: Model, i: nat, p: nat)
    requires Data(s) && DataMints(s, t, i, p)
    ensures forall q :: 0 <= q < |t.caches| ==> CacheBacked(t, q)
    ensures forall key :: key in t.hist.mints ==> MintSound(t, key)
  {
    var c := t.caches[p];
    assert SlotData(s, s.ops[i]);
    forall q | 0 <= q < |t.caches| ensures CacheBacked(t, q) {
      assert CacheBacked(s, q);
    }
    forall key | key in t.hist.mints ensures MintSound(t, key) {
      if key != (p, c.generation) {
        assert MintSound(s, key);
      }
    }
  }

  // ---------------------------------------------------------------- tokens are used once

  /** The effect used up the token of the plane and generation. */
  predicate Uses(e: Effect, plane: nat, generation: nat)
  {
    || (e.Delivered? && e.plane == plane && e.generation == generation)
    || (e.Programmed? && e.plane == plane && e.generation == generation)
  }

  predicate UsesToken(e: Effect) { e.Delivered? || e.Programmed? }

  /** A used token can never be valid again on its plane. */
  ghost predicate SpentAt(caches: seq<PlaneCache>, e: Effect)
  {
    UsesToken(e) ==>
      e.plane < |caches|
      && (e.generation < caches[e.plane].generation
          || (e.generation == caches[e.plane].generation && caches[e.plane].kind.NoCache?))
  }

  ghost predicate AllSpent(s: Model)
  {
    forall k :: 0 <= k < |s.hist.effects| ==> SpentAt(s.caches, s.hist.effects[k])
  }

  /** No token leads to two deliveries, two programs, or one of each. */
  ghost predicate TokensOnce(effects: seq<Effect>)
  {
    forall k, l :: 0 <= k < l < |effects| && UsesToken(effects[k]) && UsesToken(effects[l]) ==>
                   !Uses(effects[k], effects[l].plane, effects[l].generation)
  }

  /** A program that may still reach the media has an unused token. */
  ghost predicate SlotUnspent(s: Model, op: Op)
  {
    LegalProgram(op) && PpaValid(s.cfg.geometry, op.request.ppa) ==>
      forall k :: 0 <= k < |s.hist.effects| ==>
        !Uses(s.hist.effects[k], PlaneIndex(s.cfg.geometry, op.request.ppa), op.request.cache.generation)
  }

  ghost predicate Unspent(s: Model)
  {
    forall i :: 0 <= i < |s.ops| ==> SlotUnspent(s, s.ops[i])
  }

  ghost predicate Once(s: Model) { TokensOnce(s.hist.effects) && Unspent(s) }

  /** No slot starts to run and no effect is added. */
  ghost predicate OnceQuiet(s: Model, t: Model)
  {
    && t.cfg == s.cfg && |t.ops| == |s.ops| && t.hist.effects == s.hist.effects
    && forall i :: 0 <= i < |s.ops| ==>
      (LegalProgram(t.ops[i]) ==> LegalProgram(s.ops[i]) && t.ops[i].request == s.ops[i].request)
  }

  lemma OnceQuietKeeps(s: Model, t: Model)
    requires Once(s) && OnceQuiet(s, t)
    ensures Once(t)
  {
    forall i | 0 <= i < |t.ops| ensures SlotUnspent(t, t.ops[i]) {
      assert SlotUnspent(s, s.ops[i]);
    }
  }

  lemma OnceBeginKeeps(s: Model, t: Model, i: nat)
    requires Once(s) && AllSpent(s) && DataBegins(s, t, i)
    ensures Once(t)
  {
    forall j | 0 <= j < |t.ops| ensures SlotUnspent(t, t.ops[j]) {
      assert SlotUnspent(s, s.ops[j]);
      if j == i && LegalProgram(t.ops[i]) {
        forall k | 0 <= k < |t.hist.effects|
          ensures !Uses(t.hist.effects[k], PlaneIndex(t.cfg.geometry, t.ops[i].request.ppa),
                        t.ops[i].request.cache.generation)
        {
          assert SpentAt(s.caches, s.hist.effects[k]);
        }
      }
    }
  }

  /** One more effect, by the operation in slot `i`, which leaves the running state. */
  ghost predicate OnceEffect(s: Model, t: Model, i: nat, e: Effect)
  {
    && SlotOnly(s, t, i) && t.cfg == s.cfg && t.hist.effects == s.hist.effects + [e]
    && s.ops[i].state.Running? && !LegalProgram(t.ops[i])
    && PpaValid(s.cfg.geometry, s.ops[i].request.ppa)
    && (UsesToken(e) ==> e.plane == PlaneIndex(s.cfg.geometry, s.ops[i].request.ppa))
    && (e.Programmed? ==> LegalProgram(s.ops[i]) && e.generation == s.ops[i].request.cache.generation)
    && (e.Delivered? ==>
          && MintedRead(s, e.plane, e.generation)
          && forall k :: 0 <= k < |s.hist.effects| ==> !Uses(s.hist.effects[k], e.plane, e.generation))
  }

  ghost predicate MintedRead(s: Model, plane: nat, generation: nat)
  {
    (plane, generation) in s.hist.mints && s.hist.mints[(plane, generation)].kind.ReadCache?
  }

  /** Deliveries alone need no ordering assumption: finishing a transfer checks its token again. */
  ghost predicate DeliveriesOnce(effects: seq<Effect>)
  {
    forall k, l :: 0 <= k < l < |effects| && effects[k].Delivered? && effects[l].Delivered? ==>
                   !Uses(effects[k], effects[l].plane, effects[l].generation)
  }

  lemma DeliveredOnce(s: Model, t: Model, e: Effect)
    requires DeliveriesOnce(s.hist.effects) && AllSpent(s) && t.hist.effects == s.hist.effects + [e]
    requires e.Delivered? ==>
      e.plane < |s.caches| && s.caches[e.plane].generation == e.generation && s.caches[e.plane].kind.ReadCache?
    ensures DeliveriesOnce(t.hist.effects)
    ensures e.Delivered? ==>
      forall k :: 0 <= k < |s.hist.effects| ==> !Uses(s.hist.effects[k], e.plane, e.generation)
  {
    forall k | 0 <= k < |s.hist.effects| && e.Delivered?
      ensures !Uses(s.hist.effects[k], e.plane, e.generation)
    {
      assert SpentAt(s.caches, s.hist.effects[k]);
    }
  }

  /** Caches only move on. */
  predicate CacheAdvances(c: PlaneCache, d: PlaneCache)
  {
    c.generation < d.generation || (c.generation == d.generation && (c.kind.NoCache? ==> d.kind.NoCache?))
  }

  lemma SpentKeeps(s: Model, t: Model)
    requires AllSpent(s) && |t.caches| == |s.caches|
    requires forall p :: 0 <= p < |s.caches| ==> CacheAdvances(s.caches[p], t.caches[p])
    requires s.hist.effects <= t.hist.effects
    requires forall k :: |s.hist.effects| <= k < |t.hist.effects| ==> SpentAt(t.caches, t.hist.effects[k])
    ensures AllSpent(t)
  {
    forall k | 0 <= k < |t.hist.effects| ensures SpentAt(t.caches, t.hist.effects[k]) {
      if k < |s.hist.effects| {
        var e := s.hist.effects[k];
        assert SpentAt(s.caches, e) && e == t.hist.effects[k];
        if UsesToken(e) {
          assert CacheAdvances(s.caches[e.plane], t.caches[e.plane]);
        }
      }
    }
  }
}
