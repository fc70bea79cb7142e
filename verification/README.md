# Verified model of the firmware lab's core

This project models, in Dafny, the parts of the repository whose correctness is an argument over
whole runs, and proves what they promise:

- the **NAND flash controller model** (`nfc/`): a discrete-event scheduler with per-plane,
  per-channel and per-lane reservations, a virtual clock, cache tokens, reset epochs and power cuts;
- the **command lifecycle core** (`core/c31.c`): command slots with generations, provider ownership,
  completion leases, abort tickets, reset and teardown drains, and a trace ring;
- the **persistence witness policy** (`core/c32/c32_policy.c`);
- the **graph checks** of the claim models (`scripts/check_c42_claim_models.py`): a depth-first walk
  and a union-find with path halving;
- the **byte codecs** of both components and the **byte-fold hash** of the controller.

`dafny verify dfyconfig.toml` checks everything.

## How it is built

Each of the two state machines has a pure model (`NfcModel`, `C31Model`): a record of the state and
one function per call. Whatever a provider, the media or a buffer answers is an argument of the
call, so every theorem holds for every behaviour of them. A history beside the state (what was
accepted, reserved, begun, minted, called, issued, leased, closed) is written by the transitions
and never read by them. Invariants live in modules of their own, one concern each
(`NfcTimeline`, `NfcLedger`, `NfcExclusion`, `NfcData`, `NfcEffects`, `NfcInOrder`, `NfcSpans`; `C31Invariant`), are
shown to survive every transition (`NfcInvariant`, `NfcRuns`, `NfcOrderedRuns`; `C31Steps`), and become
statements about all reachable states and all runs in `NfcTheorems` and `C31Theorems`. Runs that show a
claim to fail are built call by call from the initial state (`NfcReach`, `NfcInversion`, `NfcLimit`,
`NfcErasure`; `C31Reach`, `C31Scan`, `C31Starvation`, `C31Recurrence`).

The program updates tables in place, so `NfcController` and `C31Core` hold classes with arrays,
cursors and loops; each method is proved to take the abstract state where the pure function takes it.
What every call of the NAND controller object relies on and keeps is that its tables are those of a state
that some run reaches, so whatever is proved of runs holds of the object.
The policy, the graph checks, the hash and the codecs are loops and objects in the source and are
methods and classes here, proved against declarative definitions.

Points where the code does less than one might read into it are stated as results:

- `LimitTheorem`: the tick-limit test wraps around; it bounds every run exactly when every duration
  fits below the limit.
- `TokensOnceExactly`, `TokenUsedTwice`: two programs of one token, the older with the larger priority
  number, meet at a boundary tick and use their token twice, in every configuration with two slots and
  room for three operations. A tick limit too short for them gives no protection once it is shorter than
  a program: the wrapped test lets such a program through. `TokenOnceTheorem` needs no more than that no
  such pair is queued.
- `CompletionsEncode`, `EraseRefused`: the codec refuses the completion of a successful erase, and only
  that one; every configuration has a run that reaches it.
- `ScanConservesExactly`: the scan for work moves the cursor it counts from; one scan finds the work
  there is in every reachable core only if the core cannot hold two commands.
- `NeverStarvesExactly`, `ScanStarves`: and with three commands the scan can return to its start over and
  over and never come to one of them while no provider reports.
- `TicketsFreshExactly`: an acknowledged abort ticket can be handed out again with the same value,
  unless there is a single ticket slot.
- `RefusalOrderFreeExactly`: with malformed facts the command witness can depend on their order.

Field widths are explicit where they matter (the hash, the tick-limit test, the trace sequence
number, the codecs); counters are otherwise bounded by the configured limits that the code checks.
A counter whose wrapped value zero means "used up" in the source is here simply past its last value.
Native record sizes are those of 64-bit hosts.

## Model

| member | source | states |
|---|---|---|
| `NfcTheorems.ClockTheorem` | `nfc/nfc_model.c:740-880` | In every reachable state, faulted or not, the clock is at most the next tick of every scheduled or running operation; a running one began at its start tick; every reported completion began, ended and was reported at the ticks of its reservation; finish ticks stay below the limit when every configured duration does |
| `NfcTheorems.RunLater` | `nfc/nfc_model.c:808-968` | Along any run the clock and the epoch never go back, acceptances are never rewritten and the stream of reported completions only grows at its end |
| `NfcLimit.LimitTheorem` | `nfc/nfc_scheduler.c:50-92` | Every reservation of every run of a configuration ends by the tick limit if and only if every duration fits below it: the test `start > limit - duration` wraps around in 64 bits and lets a longer first operation through at tick zero |
| `NfcTheorems.ReportOrderTheorem` | `nfc/nfc_model.c:882-968` | Over a whole run the completions returned by poll are strictly increasing in (status tick, submit sequence), for every interleaving, budget slicing and priority |
| `NfcTheorems.ConservationTheorem` | `nfc/nfc_model.c:628-717` | Every accepted operation is in exactly one slot, or was reported by exactly one poll, or was lost to a power cut, and only one of these |
| `NfcTheorems.NothingLost` | `nfc/nfc_model.c:930-968` | In a run without a power cut nothing is lost and every accepted operation is in a slot exactly when it was not reported, and was reported at most once |
| `NfcTheorems.IdentityTheorem` | `nfc/nfc_model.c:649-717` | Accepted operation uids strictly increase with the submit sequence, and a report carries the token of the request it answers |
| `NfcTheorems.EventCountTheorem` | `nfc/nfc_media.c:620-627` | Unless the model has faulted the event counter equals the number of pending slots, and it is below the terminal capacity while any operation runs: the capacity check never fires |
| `NfcTheorems.ExclusionTheorem` | `nfc/nfc_scheduler.c:50-92` | All busy intervals ever reserved are pairwise disjoint per plane, per channel among transfers and per array lane, so at any tick a LUN has at most its configured number of active array operations |
| `NfcExclusion.LunParallelism` | `nfc/nfc_scheduler.c:50-92` | The bound on active array operations of one LUN at one tick, from disjointness per lane by counting lanes |
| `NfcExclusion.PlaneIndexInjective` | `nfc/nfc_model.c:437-446` | The mixed-radix plane index tells planes apart |
| `NfcModel.PlaneIndex` | `nfc/nfc_model.c:437-446` | The plane index of a valid address is below the number of planes |
| `NfcModel.LaneIndex` | `nfc/nfc_scheduler.c:57-60` | The array lane of a valid address is below the number of lanes |
| `NfcTheorems.OverlapTheorem` | `nfc/nfc_model.c:740-770` | Two operations run on one plane at the same time only at the tick where one ends and the other, submitted earlier, starts |
| `NfcTheorems.TokenOnceTheorem` | `nfc/nfc_media.c:34-62` | In every run in which no program is accepted while a queued program of the same token has a larger priority number, each cache token leads to at most one delivered read or media-changing program, whatever all other priorities are |
| `NfcTheorems.OneRunningTheorem` | `nfc/nfc_model.c:740-795` | In runs whose priorities keep submission order altogether a plane runs one operation at a time |
| `NfcTheorems.DeliveredOnceTheorem` | `nfc/nfc_media.c:407-452` | In every run no cache token is delivered by two successful read transfers |
| `NfcTheorems.DeliveryTheorem` | `nfc/nfc_media.c:335-452` | A delivery is by a read transfer that began legally, carries the token delivered, and moves the bytes that the read trigger which minted it read, when it began, from the same page, with the same retry step and at least the same regions; among all successful read triggers and program transfers that trigger, and no other, has the token in its completion, unless a power cut took the completion away |
| `NfcTheorems.ProgramTheorem` | `nfc/nfc_media.c:183-373` | A program on the media is by a program execute, at its own address, under the token it carries, with the bytes captured at submission by a program transfer to the same page for the same regions in the same epoch; that transfer, and no other operation, handed the token to the host; a complete program writes the whole page and had no injected fault |
| `NfcTheorems.HandedTheorem` | `nfc/nfc_media.c:322-405` | The completion of a successful read trigger or program transfer carries the token of its own plane and epoch under the generation that this very operation minted; two operations never hand out the same token; every other completion repeats the token of its request |
| `NfcTheorems.EpochTheorem` | `nfc/nfc_model.c:970-1047` | A ready model holds only operations of the current epoch, a draining one only operations of the epoch before |
| `NfcTheorems.TokenTheorem` | `nfc/nfc_media.c:34-62` | A cache token that is accepted was minted in the current epoch and for the kind it is used as: none survives a reset |
| `NfcTheorems.MediaTheorem` | `nfc/nfc_media.c:579-619` | Every program, erase or bad-block mark comes from a program or erase that had begun, legally, in its own epoch, at the address it asked for; one not begun at a reset never touches the media |
| `NfcTheorems.CallTheorem` | `nfc/nfc_media.c:471-631` | An operation that waits or runs has made no call; one that ended, reported or not, has made exactly the media call its beginning fixed (complete, torn, bad-block mark or none), reset or not, or exactly one delivery of its token if it is a successful read transfer; a successful program or erase had no injected fault; no operation, lost to a power cut or not, makes two calls |
| `NfcTheorems.UnitsTheorem` | `nfc/nfc_model.c:808-880` | While the model works no running operation has used up its units, so no turn of the step loop is stuck, and each turn that does anything uses one unit and brings the work bound down |
| `NfcTheorems.FinishTheorem` | `nfc/nfc_model.c:808-880` | A step of as many units as the bound summed from the unit counts leaves every operation waiting to be collected, unless the model faults |
| `NfcProgress.UnitDecreases` | `nfc/nfc_model.c:808-880` | Every used unit strictly lowers the bound on the work left |
| `NfcProgress.StepSlices` | `nfc/nfc_model.c:808-880` | Without a fault, stepping by a and then by b is stepping by a + b: same state, same result |
| `NfcModel.NextOperation` | `nfc/nfc_model.c:740-795` | The scan picks the one candidate that no other candidate precedes in (tick, priority, sequence) order |
| `NfcModel.NextEvent` | `nfc/nfc_model.c:882-928` | The scan picks the pending event that no other precedes in (status tick, sequence) order |
| `NfcTimeline.UnitTickBounds` | `nfc/nfc_media.c:14-22` | Unit deadlines, rounded up, stay within the operation and the last one is its finish tick |
| `NfcInOrder.InOrderRunApart` | `nfc/nfc_model.c:740-795` | When reservations of related operations follow submission order, no two of them run on one plane at once |
| `NfcInOrder.OneToken` | `nfc/nfc_media.c:34-62` | Two legal programs of one plane and generation carry the same token |
| `NfcInversion.TokensOnceExactly` | `nfc/nfc_media.c:34-62` | For every valid configuration: no run uses a cache token twice if and only if there is a single operation slot, or fewer than three submit numbers or uids, or no time below the tick limit for a transfer and two programs of one region while a program of two regions fits below it |
| `NfcInversion.TokenUsedTwice` | `nfc/nfc_model.c:740-880` | Everywhere else a run from the initial state, a transfer and two programs of its token with the older one at the larger priority number, makes two programs of one token: of the main region where that fits, of both regions where their duration exceeds the limit and the test of the limit wraps around |
| `NfcSpans.CrampedOnce` | `nfc/nfc_scheduler.c:50-92` | Where there is no such room no reachable state has used a token twice |
| `NfcSpans.TwoProgramsFit` | `nfc/nfc_scheduler.c:50-92` | Two programs that used one token, and the transfer that minted it, have three numbers and uids and disjoint reservations behind that of the transfer, so the limits leave room for all three |
| `NfcSpans.ProgramSpan` | `nfc/nfc_scheduler.c:50-92` | The reservation of a program that used a token starts after a transfer has had its time, lasts the duration of its regions and ends by the limit if the longest program fits below it |
| `NfcSpans.RunSpanned` | `nfc/nfc_scheduler.c:50-92` | Over every run each reservation has its request's plane and duration, no token is minted before the reservation of its operation ends, and no legal program starts before its token is minted |
| `NfcInversion.EndIgnoresToken` | `nfc/nfc_media.c:471-528` | How a legal program ends does not depend on the cache it then finds |
| `NfcEncodable.CompletionsEncode` | `nfc/nfc_media.c:454-631` | In every run whose media answers stay inside their enumerations every completion, reported or waiting, passes the codec if and only if it is not that of a successful erase, whose valid regions exceed its requested ones |
| `NfcErasure.EraseRefused` | `nfc/nfc_media.c:530-577` | Such a completion is reached under every valid configuration: a run from the initial state submits an erase and steps it, with media that does what it is told, until its success is pending and the codec refuses it |
| `NfcErasure.EraseRuns` | `nfc/nfc_model.c:808-880` | One step of enough units brings a running erase to that end, however many pages it has, even past a full trace |
| `NfcEncodable.ConclusionEncodes` | `nfc/nfc_media.c:454-631` | The same for the end of one operation |
| `NfcEncodable.AcceptPrepares` | `nfc/nfc_model.c:697-715` | The completion prepared at acceptance meets what the codec asks of it |
| `NfcEncodable.BeginPrepares` | `nfc/nfc_media.c:260-320` | Beginning an operation keeps that |
| `NfcController.Controller.constructor` | `nfc/nfc_model.c:311-405` | The tables as they start, equal to the initial model state |
| `NfcController.Controller.NextOperation` | `nfc/nfc_model.c:772-795` | The loop over the slots computes the scan function |
| `NfcController.Controller.NextEvent` | `nfc/nfc_model.c:903-928` | The loop over the slots computes the event scan function |
| `NfcController.Controller.TrySubmit` | `nfc/nfc_model.c:628-717` | Refusals in order, capture, slot fill and sequence number, as the transition on the abstract state |
| `NfcController.Controller.Cancel` | `nfc/nfc_model.c:719-738` | Marks the operation and traces, or does nothing for an unknown token |
| `NfcController.Controller.ScheduleOperation` | `nfc/nfc_scheduler.c:50-92` | Reserves plane, channel or lane and moves exactly those tails, or refuses past the tick limit |
| `NfcController.Controller.BeginOperation` | `nfc/nfc_media.c:260-320` | Freezes legality, faults and bytes and starts the units, or faults on an exhausted array sequence |
| `NfcController.Controller.FinishOperation` | `nfc/nfc_media.c:579-631` | Completion, plane cache and effects of the end of an operation |
| `NfcController.Controller.Step` | `nfc/nfc_model.c:808-880` | The loop over the budget reaches the state and result of the step function |
| `NfcController.Controller.Poll` | `nfc/nfc_model.c:930-968` | The loop returns the next completions and frees their slots, and refuses a zero budget or capacity |
| `NfcController.Controller.ResetBegin` | `nfc/nfc_model.c:970-1016` | Advances the epoch, resets caches up to an exhausted one and hands live operations to the reset |
| `NfcController.Controller.Quiescent` | `nfc/nfc_model.c:1018-1047` | Answers whether an epoch has drained and, as a side effect, makes the model ready |
| `NfcController.Controller.InjectPowerLoss` | `nfc/nfc_model.c:1072-1121` | Commits the prefix of running media work, clears slots, caches and tails, and counts what was lost |
| `NfcFault.OneByteChangesHash` | `nfc/nfc_fault.c:6-19` | Two strings that differ in exactly one byte never have the same hash |
| `NfcFault.HashFromInjective` | `nfc/nfc_fault.c:6-30` | With the bytes fixed the hash is injective in its start value |
| `NfcFault.ScrambleInverts` | `nfc/nfc_fault.c:16-17` | Multiplication by the odd constant modulo 2^64 is undone by multiplication with its inverse |
| `NfcFault.DigestSeparates` | `nfc/nfc_media.c:109-129` | Pages whose main bytes differ in exactly one place, with the same out-of-band bytes and mask, never share a payload digest |
| `NfcFault.DigestOfOob` | `nfc/nfc_media.c:117-127` | With equal main bytes, digests with the out-of-band region selected agree exactly when the hashes of the out-of-band hashes do |
| `NfcFault.FaultWordSeparates` | `nfc/nfc_fault.c:32-61` | Changing one byte of one field of the fault word, and nothing else, always changes the word |
| `NfcFault.NarrowFieldSeparates` | `nfc/nfc_fault.c:32-61` | A one-byte field changes the fault word whenever it changes |
| `NfcFault.HashBytes` | `nfc/nfc_fault.c:6-19` | The loop computes the hash of the buffer, and zero for a missing buffer of positive length |
| `NfcFault.MixU64` | `nfc/nfc_fault.c:21-30` | The loop folds in the eight bytes of a value, lowest first |
| `NfcFault.FaultWord` | `nfc/nfc_fault.c:32-61` | The word is the hash of the bytes of its eighteen fields in order |
| `C31Theorems.FlagsTheorem` | `core/c31.c:290-372` | In every reachable state the lifecycle state of a slot determines whether it is in use, owned by a provider, complete and leased; no slot is left retired |
| `C31Theorems.PhaseTheorem` | `core/c31.c:1285-1392` | Draining: every live command is owned and in reset drain, and no ticket is pending. Acknowledging or dead: no command, no ticket. Ready: every live command has the current epoch |
| `C31Theorems.EpochTestIdle` | `core/c31.c:1017-1043` | The epoch test of lease validation never decides: validation without it gives the same answer |
| `C31Theorems.TicketTheorem` | `core/c31.c:304-335` | Used tickets name distinct commands; a ticket is pending exactly while its command is live and waits to be cancelled; every such command holds one |
| `C31Theorems.AbortNeverDefaults` | `core/c31.c:1161-1185` | An abort request answers wrong-state exactly when the core is not ready: the default branch is never taken |
| `C31Theorems.SettledUntilAck` | `core/c31.c:1193-1261` | In any run that does not acknowledge the ticket, every query of a settled ticket gives the outcome it settled on |
| `C31Theorems.QueryUntilAck` | `core/c31.c:1214-1231` | A used ticket can be queried until it is acknowledged, settled or not |
| `C31Theorems.UsedUntilAck` | `core/c31.c:1233-1261` | Only an acknowledgement of the ticket itself gives its slot back |
| `C31Recurrence.TicketsFreshExactly` | `core/c31.c:1091-1123` | No two grants of any run hand out the same ticket value if and only if there is a single ticket slot |
| `C31Recurrence.AckedTicketRecurs` | `core/c31.c:1091-1123` | With a second ticket slot a run from the initial state hands out one ticket value twice: the first slot is used up by acknowledged tickets and the second starts again |
| `C31Theorems.HandlesFresh` | `core/c31.c:810-892` | A later successful submit returns a larger uid than an earlier one, so no handle is returned twice |
| `C31Theorems.StaleForever` | `core/c31.c:246-266` | An issued handle that is no longer live is stale in every later state: it finds no command, and acquire, abort and lease validation refuse it |
| `C31Theorems.AccountsTheorem` | `core/c31.c:337-350` | Commands issued = live + consumed + retired by drain, with the last two disjoint |
| `C31Theorems.OneIntent` | `core/c31.c:973-1015` | Two acquires of one command, however far apart, return the same completion intent under different leases |
| `C31Theorems.IntentEchoes` | `core/c31.c:352-372` | What an acquire returns names the command and repeats the origin and trace cookie of its submission |
| `C31Theorems.LeaseOnce` | `core/c31.c:1045-1089` | A lease that a release or consume has accepted is accepted by neither again |
| `C31Theorems.ClosedIsGranted` | `core/c31.c:1017-1089` | A lease that is accepted was handed out by an acquire, and is then entered as closed |
| `C31Theorems.EventCompletes` | `core/c31.c:500-525` | The terminal event of a provider is what the command completes with, and settles its pending ticket as too late on success and as terminal otherwise |
| `C31Theorems.EventOnce` | `core/c31.c:451-525` | A provider operation is ended by at most one event in any run, however often it is repeated |
| `C31Theorems.StrayEventMovesNothing` | `core/c31.c:451-502` | An event that is not the awaited end of a live operation changes no slot, no ticket and no account |
| `C31Theorems.StepSlices` | `core/c31.c:894-951` | How a step budget is cut into calls does not matter |
| `C31Scan.ScanConservesExactly` | `core/c31.c:561-615` | In all reachable cores one scan finds work exactly when there is some, if and only if the core can never hold two commands: one slot, or one command number |
| `C31Scan.ScanSkips` | `core/c31.c:565-574` | With the first slot waiting, the second in any state and the others free, a scan that starts behind the second comes to the first twice and to the second never, and leaves the cursor at the second |
| `C31Scan.RunIntoSkip` | `core/c31.c:561-615` | A run from the initial state reaches that situation: two transfers submitted, the first taken by its provider, the second dispatched |
| `C31Starvation.NeverStarvesExactly` | `core/c31.c:561-615` | In all reachable cores with work some number of scans finds some, if and only if the core can never hold three commands: two slots, or two command numbers |
| `C31Starvation.ScanStarves` | `core/c31.c:561-615` | With three slots or more and three command numbers a run from the initial state reaches a core with an accepted command that no step of any length without a provider report moves |
| `C31Starvation.RunIntoStarvation` | `core/c31.c:561-615` | That run: two transfers are taken by their provider, one more unit puts the cursor behind the first, and the third transfer is submitted |
| `C31Starvation.StepStarves` | `core/c31.c:894-951` | From there units without a report change no slot and leave the cursor where it was |
| `C31Starvation.SecondScanFinds` | `core/c31.c:565-574` | With two slots in use the second scan at the latest finds work, from any cursor and for any number of slots |
| `C31Scan.SavedScanConserves` | `core/c31.c:561-615` | A scan that counted from a saved start would find work exactly when there is some |
| `C31Scan.ScanFindsNext` | `core/c31.c:561-574` | The scan takes work it reaches over free slots alone |
| `C31Invariant.MoveKeeps` | `core/c31.c:290-1392` | Every way the core changes (eleven moves) keeps the invariant behind the theorems |
| `C31Steps.MoveEvolves` | `core/c31.c:290-1392` | No move takes an issued handle, a completion, a settled ticket or an account entry back |
| `C31Steps.Abortable` | `core/c31.c:1161-1185` | A live command of a ready core without a ticket is in a state the abort switch handles |
| `C31Ring.RingPush` | `core/c31.c:135-150` | Writing at the computed index keeps the ring equal to the end of the unbounded log, full or not |
| `C31Core.Controller.constructor` | `core/c31.c:745-798` | The initial state with one trace entry |
| `C31Core.Controller.Push` | `core/c31.c:123-160` | One more log entry with the next sequence number, in the ring; at the last number the core faults and drops it |
| `C31Core.Controller.TraceCount` | `core/c31.c:1394-1400` | The smaller of the entries pushed and the capacity |
| `C31Core.Controller.TraceRead` | `core/c31.c:1402-1420` | The k-th of the last entries of the log, with consecutive sequence numbers; nothing past them |
| `C31Core.Controller.Submit` | `core/c31.c:810-892` | Refusals in order, first fitting slot, new handle and token, as the transition on the abstract state |
| `C31Core.Controller.SubmitProvider` | `core/c31.c:408-449` | Ownership, hold or completion by the provider's disposition; a fault for a malformed answer |
| `C31Core.Controller.ProcessEvent` | `core/c31.c:451-525` | Stale, duplicate, malformed and awaited events, as the transition on the abstract state |
| `C31Core.Controller.PollProvider` | `core/c31.c:527-559` | At most one event per poll; a provider that answers more faults the core |
| `C31Core.Controller.FindWork` | `core/c31.c:561-574` | The loop that moves the cursor it counts from computes the scan function |
| `C31Core.Controller.ProgressCommand` | `core/c31.c:561-615` | At most one transition, on the slot the scan stops at |
| `C31Core.Controller.CheckDrain` | `core/c31.c:670-694` | Leaves the drain once no command and no ticket is left and both providers are quiet |
| `C31Core.Controller.Step` | `core/c31.c:894-951` | The loop over the budget reaches the state and result of the step function |
| `C31Core.Controller.Acquire` | `core/c31.c:973-1015` | A new lease and the stored intent, or the refusal |
| `C31Core.Controller.ValidateLease` | `core/c31.c:1017-1043` | The slot a lease holds, or why it holds none |
| `C31Core.Controller.Release` | `core/c31.c:1045-1066` | Closes the lease and keeps the completion |
| `C31Core.Controller.Consume` | `core/c31.c:1068-1089` | Closes the lease and retires the command |
| `C31Core.Controller.AbortRequest` | `core/c31.c:1125-1191` | The known ticket, a new one with the outcome the command's state calls for, or the refusal |
| `C31Core.Controller.AbortQuery` | `core/c31.c:1214-1231` | The outcome of the first used ticket slot that matches |
| `C31Core.Controller.AbortAck` | `core/c31.c:1233-1261` | Gives a settled ticket slot back; refuses a pending one |
| `C31Core.Controller.BeginDrain` | `core/c31.c:1285-1344` | New epoch and phase, superseded tickets, then every command drained or left to its provider |
| `C31Core.Controller.ResetAck` | `core/c31.c:1354-1367` | From waiting to ready |
| `C31Core.Controller.TeardownAck` | `core/c31.c:1379-1392` | From waiting to dead |
| `Persistence.CommandWitness` | `core/c32/c32_policy.c:187-286` | The loop gives the declarative verdict (indeterminate, else durable per atom, else volatile, else none, with masks and reason), refuses bad inputs untouched and stops at a malformed fact met first |
| `Persistence.VerdictOrderFree` | `core/c32/c32_policy.c:187-286` | On well-formed facts only which facts there are matters, not their order or repetition |
| `Persistence.VerdictMonotone` | `core/c32/c32_policy.c:187-286` | Adding facts that leave nothing undecided never lowers the class and never loses a durable atom |
| `Persistence.RefusalOrderFreeExactly` | `core/c32/c32_policy.c:216-239` | Whether a list of facts is refused is the same for every order of its facts, and for every list of the same facts, if and only if all are well formed or none is well formed, about the command and undecided |
| `Persistence.MalformedOrderMatters` | `core/c32/c32_policy.c:216-239` | So with a malformed fact and one that hides it the order decides |
| `Persistence.FenceWitness` | `core/c32/c32_policy.c:288-382` | Durable, with the union of the covered atoms, exactly when every obligation is well formed and every covered one is settled and closed; otherwise what the first that fails calls for |
| `Persistence.FenceComposes` | `core/c32/c32_policy.c:317-382` | A fence passes two lists of obligations together exactly when it passes each |
| `Persistence.FenceOrderFree` | `core/c32/c32_policy.c:317-382` | Whether a fence passes does not depend on the order or repetition of obligations |
| `Persistence.FenceLowers` | `core/c32/c32_policy.c:332-336` | What a fence passes, a lower frontier passes |
| `Persistence.FindEnvelope` | `core/c32/c32_policy.c:156-174` | The first envelope with the token, epoch and sequence, or none |
| `Persistence.CheckSeal` | `core/c32/c32_policy.c:250-262` | Whether that first envelope is valid and covers the atoms |
| `Persistence.CountBits` | `core/c32/c32_policy.c:19-28` | The loop counts the one bits |
| `BuildGraph.Walk.Check` | `scripts/check_c42_claim_models.py:948-965` | Passes exactly when the child relation has no cycle and every node is reachable from the root |
| `BuildGraph.Walk.Visit` | `scripts/check_c42_claim_models.py:951-960` | Terminates on every finite graph; fails only if the graph has a cycle, otherwise finishes everything below the node and nothing else |
| `BuildGraph.RankedAcyclic` | `scripts/check_c42_claim_models.py:951-960` | What the walk has finished has no cycle and is closed under reachability |
| `IdentityClasses.Classes.Find` | `scripts/check_c42_claim_models.py:692-696` | Terminates and returns the representative; halving paths changes no class |
| `IdentityClasses.Classes.Union` | `scripts/check_c42_claim_models.py:698-702` | Afterwards two nodes have one representative exactly when the edges so far, with the new one, connect them |
| `IdentityClasses.Classes.Unite` | `scripts/check_c42_claim_models.py:704-707` | Accepts exactly the edge lists that stay inside domains, and then represents the equivalence they generate |
| `IdentityClasses.Classes.Independent` | `scripts/check_c42_claim_models.py:709-722` | An independence relation is accepted exactly by its nodes, kind and domains: the class test never rejects what the domain test let through |
| `IdentityClasses.MergeRepresents` | `scripts/check_c42_claim_models.py:698-702` | Merging two classes is exactly what one more edge does to the generated equivalence |
| `IdentityClasses.OneDomain` | `scripts/check_c42_claim_models.py:704-707` | Edges inside domains never connect two domains |
| `NfcCodec.RequestRoundTrip` | `nfc/nfc_codec.c:305-390` | Decoding an encoded valid request gives it back, at every wire size that holds it |
| `NfcCodec.RequestCanonical` | `nfc/nfc_codec.c:349-390` | An accepted request wire is byte for byte the encoding of what it is read as |
| `NfcCodec.CompletionRoundTrip` | `nfc/nfc_codec.c:392-503` | Decoding an encoded valid completion gives it back |
| `NfcCodec.CompletionCanonical` | `nfc/nfc_codec.c:449-503` | An accepted completion wire is the encoding of what it is read as |
| `NfcCodec.TraceRoundTrip` | `nfc/nfc_codec.c:505-572` | Decoding an encoded valid trace entry gives it back |
| `NfcCodec.TraceCanonical` | `nfc/nfc_codec.c:540-572` | An accepted trace wire is the encoding of what it is read as |
| `NfcCodec.RequestTotal` | `nfc/nfc_codec.c:322-346` | The fields fill 140 bytes, so the 160-byte wire holds them |
| `NfcCodecCalls.EncodeRequest` | `nfc/nfc_codec.c:305-347` | The puts write exactly the wire form, padded with zeros; a refusal leaves the buffer alone |
| `NfcCodecCalls.DecodeRequest` | `nfc/nfc_codec.c:349-390` | The gets, the magic, the padding and the validity test give exactly the decoding function |
| `NfcCodecCalls.EncodeCompletion` | `nfc/nfc_codec.c:392-447` | The same for completions |
| `NfcCodecCalls.DecodeCompletion` | `nfc/nfc_codec.c:449-503` | The same for completions |
| `NfcCodecCalls.EncodeTrace` | `nfc/nfc_codec.c:505-538` | The same for trace entries |
| `NfcCodecCalls.DecodeTrace` | `nfc/nfc_codec.c:540-572` | The same for trace entries |
| `Wire.Encoder.Put` | `nfc/nfc_codec.c:22-47` | Appends the bytes of a value, lowest first, or fails for good when they do not fit |
| `Wire.Decoder.Get` | `nfc/nfc_codec.c:49-80` | Reads the next bytes as a value, or fails for good past the end |
| `Wire.Decoder.PaddingZero` | `nfc/nfc_codec.c:290-303` | Whether nothing failed and every byte behind the cursor is zero |
| `Wire.UnpackPack` | `nfc/nfc_codec.c:22-101` | Reading packed values gives them back, when each fits its field |
| `Wire.PackUnpack` | `nfc/nfc_codec.c:22-101` | Packing what was read gives the bytes back |
| `C31Codec.DescriptorRoundTrip` | `core/c31_codec.c:139-244` | Decoding the encoding of a valid descriptor gives it back |
| `C31Codec.DescriptorCanonical` | `core/c31_codec.c:185-244` | An accepted 96-byte wire is byte for byte the encoding of what it is read as |
| `C31Codec.EncodeDescriptor` | `core/c31_codec.c:139-183` | Validity first, then the size, then every field at its offset and eight zero bytes |
| `C31Codec.DecodeDescriptor` | `core/c31_codec.c:185-244` | Magic, version, size, reserved bytes and descriptor rules, in this order, as the decoding function |

## Left out

- The contents of the controller's own trace: only its length is modelled, since a full trace faults the model (`nfc/nfc_model.c:555-588`).
- How a fault word is turned into a fault class and error counts (`nfc/nfc_fault.c:63-121`): each would be settled by reading one branch; the class, the word and the counts are arbitrary answers in the controller model.
- Bytes left in the buffers of free slots, and the record a failed decode leaves behind.
- NULL arguments and instance magic checks, apart from the missing buffer of the hash; arenas, alignment and memory layout.
- The concrete media, buffer, transfer and file providers: their answers are arguments.
- The pairing of the two state machines through `nfc/nfc_adapter.c` and through reset: the combined claims need discipline of the callers that the code does not enforce.
- State hashes, name tables, configuration of trace names, and the phase and state queries of the command core.
- The rest of `scripts/`: compiler runs, file hashing, pattern policies and repository checks; of `check_c42_claim_models.py` only the graph checks, and the recursion limit of the interpreter is not modelled.
- `core/c32/c32_canonical.c` and the headers of `core/c34` and `core/c4-nvme`: straight-line encodings and constants.
- `put_u16` to `put_u64` and their readers split a value in halves; here the bytes are written and read one by one, which gives the same bytes. The descriptor codec writes at fixed offsets; here a cursor passes those offsets, which are asserted.
- NfcFault.DigestSeparates: says nothing about pages that differ in more than one main byte, where the 64-bit hash can collide.
- NfcEncodable.CompletionsEncode: assumes that the media answers inside the enumerations of its contract, since the controller copies block health, outcome and reason from it.
- What the media holds after the calls made to it: the calls and their order are modelled, the stored pages are the provider's.
