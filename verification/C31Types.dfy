/** Values of the command lifecycle core and of its descriptor codec. */
module C31Types {

  datatype Option<+T> = None | Some(value: T)

  datatype ApiResult =
    | Ok | NoCapacity | InvalidContract | WrongState | StaleToken | UnsupportedVersion
    | CounterExhausted | InvariantFailure | NotFound

  const CONTRACT_VERSION: nat := 1

  // Provider kinds and DMA directions.
  const PROVIDER_NONE: nat := 0
  const PROVIDER_DMA: nat := 1
  const PROVIDER_NFC: nat := 2
  const DMA_NONE: nat := 0
  const DMA_TO_CONTROLLER: nat := 1
  const DMA_FROM_CONTROLLER: nat := 2

  // Completion results.
  const COMPLETION_SUCCESS: nat := 0
  const COMPLETION_UNSUPPORTED: nat := 2
  const COMPLETION_ABORTED: nat := 3
  const COMPLETION_TRANSFER_FAILURE: nat := 4
  const COMPLETION_MEDIA_FAILURE: nat := 5
  const COMPLETION_RESOURCE_FAILURE: nat := 6

  /** A pair of 64-bit words: origin, request and capability tokens have this shape. */
  datatype Words = Words(word0: nat, word1: nat)

  const ZERO_WORDS: Words := Words(0, 0)

  datatype Descriptor = Descriptor(
    version: nat, size: nat, reserved0: nat, origin: Words, traceCookie: nat,
    providerRequest: Words, capability: Words, capabilityOffset: nat, controllerRegion: nat,
    controllerOffset: nat, length: nat, providerKind: nat, dmaDirection: nat, orderingFlags: nat,
    reserved10: nat, reserved11: nat)

  /** The native size of a descriptor on the LP64 hosts the project builds for. */
  const DESCRIPTOR_SIZE: nat := 96

  /** The shape rules a descriptor must satisfy before it is accepted or encoded. */
  function ValidateDescriptor(d: Descriptor): ApiResult
  {
    if d.version != CONTRACT_VERSION then UnsupportedVersion
    else if d.size != DESCRIPTOR_SIZE then InvalidContract
    else if d.reserved0 != 0 || d.reserved10 != 0 || d.reserved11 != 0 || d.orderingFlags != 0 then InvalidContract
    else if d.origin == ZERO_WORDS then InvalidContract
    else if d.providerKind == PROVIDER_NONE then
      if d.dmaDirection != DMA_NONE || d.providerRequest != ZERO_WORDS || !NoTransfer(d) then InvalidContract else Ok
    else if d.providerKind == PROVIDER_DMA then
      if (d.dmaDirection != DMA_TO_CONTROLLER && d.dmaDirection != DMA_FROM_CONTROLLER)
         || d.providerRequest == ZERO_WORDS || d.capability == ZERO_WORDS || d.length == 0 then InvalidContract
      else Ok
    else if d.providerKind == PROVIDER_NFC then
      if d.dmaDirection != DMA_NONE || d.providerRequest == ZERO_WORDS || !NoTransfer(d) then InvalidContract else Ok
    else InvalidContract
  }

  predicate NoTransfer(d: Descriptor)
  {
    && d.capability == ZERO_WORDS && d.capabilityOffset == 0 && d.controllerRegion == 0
    && d.controllerOffset == 0 && d.length == 0
  }
}
