/**
 Values shared by the NAND flash controller model and its byte codec.  Fields of
 fixed-width C types are natural numbers; the codec states their ranges where it
 needs them.  Wire-visible enumerations are the numbers the headers give them.
 */
module NfcTypes {
  import Bytes

  datatype Option<+T> = None | Some(value: T)

  const CONTRACT_VERSION: nat := 1
  const MAX_RETRY_STEP: nat := 7
  const MAX_DURATION_TICKS: nat := 1_000_000
  const MAX_OPERATIONS: nat := 32
  const MAX_TOTAL_PAGES: nat := 8192
  const MAX_MEDIA_BYTES: nat := 67_108_864

  // Native sizes of the records on the LP64 hosts the project builds for.
  const REQUEST_SIZE: nat := 144
  const COMPLETION_SIZE: nat := 168
  const TRACE_SIZE: nat := 80

  const U64: nat := 0x1_0000_0000_0000_0000

  // Operation kinds.
  const READ_TRIGGER: nat := 0
  const READ_TRANSFER: nat := 1
  const PROGRAM_TRANSFER: nat := 2
  const PROGRAM_EXECUTE: nat := 3
  const ERASE: nat := 4
  const STATUS: nat := 5

  // Terminal results, physical outcomes, integrity, ECC status and block health.
  const TERMINAL_SUCCESS: nat := 0
  const TERMINAL_CANCELLED: nat := 1
  const TERMINAL_FAILED: nat := 2
  const PHYS_NO_EFFECT: nat := 0
  const PHYS_APPLIED: nat := 1
  const INTEGRITY_NOT_APPLICABLE: nat := 0
  const INTEGRITY_COMPLETE: nat := 1
  const INTEGRITY_TORN: nat := 2
  const ECC_NOT_APPLICABLE: nat := 0
  const ECC_CLEAN: nat := 1
  const ECC_CORRECTED: nat := 2
  const ECC_UNCORRECTABLE: nat := 3
  const BLOCK_GOOD: nat := 0
  const BLOCK_RUNTIME_BAD: nat := 2

  // Reasons.
  const REASON_NONE: nat := 0
  const REASON_RANGE: nat := 1
  const REASON_STALE: nat := 2
  const REASON_BAD_BLOCK: nat := 3
  const REASON_NOT_ERASED: nat := 4
  const REASON_PROGRAM_ORDER: nat := 5
  const REASON_PROGRAM_FAILURE: nat := 6
  const REASON_ERASE_FAILURE: nat := 7
  const REASON_ECC_UNCORRECTABLE: nat := 8
  const REASON_WEAR_OUT: nat := 9
  const REASON_CANCELLED: nat := 10
  const REASON_RESET: nat := 11
  const REASON_INTERNAL: nat := 14

  type Byte = Bytes.Byte

  /** The main and out-of-band bytes of one page. */
  datatype Page = Page(main: seq<Byte>, oob: seq<Byte>)

  datatype OperationToken = OperationToken(
    instanceNonce: nat, operationUid: nat, controllerEpoch: nat, generation: nat)

  datatype Ppa = Ppa(channel: nat, lun: nat, plane: nat, block: nat, page: nat, reserved: nat)

  datatype BufferRef = BufferRef(controllerRegion: nat, offset: nat, length: nat, reserved: nat)

  datatype CacheToken = CacheToken(
    instanceNonce: nat, controllerEpoch: nat, generation: nat,
    channel: nat, lun: nat, plane: nat, reserved: nat)

  datatype Request = Request(
    version: nat, size: nat, reserved0: nat,
    operation: OperationToken, ppa: Ppa, main: BufferRef, oob: BufferRef, cache: CacheToken,
    cookie: nat, faultTag: nat, schedulingGroup: nat, priority: nat,
    kind: nat, regionMask: nat, retryStep: nat,
    reserved10: nat, reserved11: nat, reserved12: nat, reserved20: nat, reserved21: nat)

  datatype Completion = Completion(
    version: nat, size: nat, reserved0: nat,
    operation: OperationToken, ppa: Ppa, cache: CacheToken,
    cookie: nat, frozenFaultWord: nat, payloadDigest: nat,
    acceptedTick: nat, beginTick: nat, outcomeTick: nat, statusTick: nat,
    submitSequence: nat, arraySequence: nat,
    baseEraseGeneration: nat, finalEraseGeneration: nat,
    correctedMainBits: nat, correctedOobBits: nat,
    terminal: nat, physicalOutcome: nat, integrity: nat, reason: nat, eccStatus: nat,
    requestedRegionMask: nat, validRegionMask: nat, appliedRegionMask: nat,
    retryStep: nat, blockHealth: nat, operationKind: nat,
    reserved1: nat, reserved20: nat, reserved21: nat)

  datatype TraceEntry = TraceEntry(
    version: nat, size: nat, kind: nat, sequence: nat, virtualTick: nat,
    operation: OperationToken, ppa: Ppa,
    fromState: nat, toState: nat, detail: nat, reserved: nat)

  /** The main-region bit of a region mask. */
  predicate MainSelected(mask: nat) { mask % 2 == 1 }

  /** The out-of-band bit of a region mask. */
  predicate OobSelected(mask: nat) { (mask / 2) % 2 == 1 }

  /** Every region bit of `mask` is also in `other`; both lie in the two-bit region mask. */
  predicate RegionWithin(mask: nat, other: nat)
  {
    && mask < 4
    && (MainSelected(mask) ==> MainSelected(other))
    && (OobSelected(mask) ==> OobSelected(other))
  }

  function RegionCount(mask: nat): nat
  {
    (if MainSelected(mask) then 1 else 0) + (if OobSelected(mask) then 1 else 0)
  }
}
