# Quarters: a verified model

Quarters keeps per-space user state apart on one machine: it creates, freezes,
removes and recovers *spaces*, runs a private SSH agent for each, measures what
a command changed in a space, and serves an MCP endpoint. This project models
the protocols behind those features in Dafny and proves what they promise, over
every run and every input. `dafny verify dfyconfig.toml` checks all of it.

| files | what they model |
|---|---|
| `AgentRegistry`, `AgentProtocol`, `AgentSafety`, `AgentTheorems`, `AgentCleanup`, `AgentProgress`, `AgentOutcomes`, `AgentWitness` | the private SSH-agent lifecycle: start, stop and recover calls that share a lifecycle lock, a startup-owner lock, a compare-and-swap record and a socket |
| `Admission`, `Family`, `Transport` | MCP request admission, the two protocol families, and the receive loop of the stdio transport |
| `Classify`, `EntryKey`, `Tree`, `Scan`, `Snapshots`, `Discovery`, `Report` | the bounded metadata scan, its merge, the diff and the report |
| `StoreProtocol`, `StoreSafety`, `StoreTheorems`, `StoreReclaim`, `Recovery`, `PublishedNames`, `Leases` | creating, removing and recovering spaces; leases and freeze markers |
| `Identities`, `Adapter` | the SSH identities payload, and the OpenSSH argument scan and quoting |

## How it is modelled

Code that coordinates processes is a transition system. A process is at a
program counter between two externally visible operations; a step runs one of
them; crashes, process exits, PID reuse, socket changes and lease releases are
steps of the environment. `Run` is any finite interleaving of such steps, and
the theorems quantify over all runs. Objects that the program updates in place
(`RequestAdmission`, `ProtocolFamily`, `RegistryFile`, `Scanner`,
`PayloadCursor`, the recovered store) are classes whose methods are proved
against specification functions or stated properties. Loops are loops.

The scan is given the kernel's answers as functions of the path. The walk asks
each question about a path at most once, so a tree that changes during the scan
is covered. `Descendant` is the plain recursive listing the scan is compared
with. Names are octet strings; an octet is the character with the same code.

## What is assumed

- An advisory lock belongs to one open description; the kernel drops it when the
  process ends. A process that holds the store lock got it from
  `begin_mutation` or an observation guard, both exclusive.
- Random tokens and the suffixes of `unique_suffix` are fresh.
- The 256-bit digest of an entry key is an arbitrary function. That a complete
  scan is the plain listing is proved without any assumption on it, because
  collisions clear `complete`; only the converse and the meaning of a delta
  assume that it does not collide.
- Peer credentials name the process that listens on the connected socket, and
  that process gives the answer. A Linux process handle keeps naming the process
  it was opened for.
- Socket verifications in polls and status inspections, which only steer a call,
  may have any outcome; those that an activation or a shutdown relies on are
  modelled system call by system call.
- Clocks are arbitrary, apart from the delays `lock_bounded` sleeps.
- `*` in a disclosed pattern matches any octets of one component, a leading dot
  included.

## Results that differ from what one might expect

- The clean-up of a launcher that a start call gives up on signals by PID. It is
  safe if and only if no poll of that call had found the launcher exited
  (`CleanupIsSafeUnlessTheExitWasSeen`). Otherwise a process may be given the PID
  in time (`ReapedCleanupIsUnsafe`); `CleanupCanReachAStranger` is such a run.
- Verifying a socket compares the path with itself before and after, not with
  the connection. Something outside Quarters that swaps the path and swaps it
  back gets one socket recorded while another answered
  (`RecordedSocketMayNotBeTheOneThatAnswered`); what was last put at the path
  before the connect decides (`AnsweringSocketIsTheRecordedOne`).
- Handlers claim by request ID alone, so after a cancellation and a reuse of the
  ID a late handler can take the newer request's reservation
  (`LateClaimTakesTheNextReservation`, `OwnReservationWaitsExactlyWhile`).
- A recovery that works through its list does not by itself make every stale tree
  disappear: one that another recovery renamed meanwhile is left to that one
  (`FullRecoveryReclaims`, `TakenOverTreesAreLeftToTheOther`).
- Swapping two snapshots keeps `replaced` in total but not class by class, because
  an entry is counted under its later class. A class keeps its count if and only
  if as many replaced entries leave it as enter it
  (`ReplacedKeepsItsClassExactlyWhen`); a socket in place of a file is an example
  (`ReplacedChangesClass`).

## Model

| member | source | states |
|---|---|---|
| `AgentTheorems.StartupOwnership` | crates/quarters-core/src/agent/startup.rs:186-269 | In every run, while one call holds the startup-owner lock, no step of another start call changes the registry record |
| `AgentTheorems.ClaimIsNeverBlocked` | crates/quarters-core/src/agent/startup.rs:243-269 | When a start call comes to take the owner lock exclusively, nobody holds it in either mode, so the acquisition succeeds |
| `AgentTheorems.HelpersAreBounded` | crates/quarters-core/src/agent/startup.rs:271-411 | No start call ever has two live helpers, and none launches more than two |
| `AgentTheorems.RegistryGraph` | crates/quarters-core/src/agent/startup.rs:361-515 | Every step of every run keeps the record in its required shape and moves it only along none→Starting, Starting→Starting′, Starting→Active, Starting→Failed, Active→Stopping and any→none |
| `AgentTheorems.RecordNeverRegresses` | crates/quarters-core/src/agent/mod.rs:214-267 | Until it is removed, the record never returns to an earlier state, and from activation on its PID, token and socket identity are fixed |
| `AgentTheorems.ActivationIsVerified` | crates/quarters-core/src/agent/startup.rs:462-493 | A record becomes Active only if, in the critical section that publishes it, the path named exactly the recorded socket before and after a process with the recorded PID answered |
| `AgentTheorems.TrailOf` | crates/quarters-core/src/agent/protocol.rs:34-75 | Every verification that an activation or a shutdown relies on has its history: stat, connect to a live listener with the expected PID, that process answering, second stat, in this order and in one uninterrupted critical section |
| `AgentTheorems.AnsweringSocketIsTheRecordedOne` | crates/quarters-core/src/agent/protocol.rs:65-71 | The socket that answered is the one whose identity was verified, if and only if the last outside rebinding of the path between the first stat and the connect, if there was one, put that identity there; otherwise it was also put back before the second stat |
| `AgentTheorems.OnlyOutsidersMoveThePath` | crates/quarters-core/src/agent/protocol.rs:34-75 | While a call verifies, no call of any kind changes what the path names |
| `AgentWitness.RecordedSocketMayNotBeTheOneThatAnswered` | crates/quarters-core/src/agent/protocol.rs:65-71 | A run in which that condition fails: the path is swapped for the exchange and swapped back, and a socket that nobody listens on is recorded |
| `AgentTheorems.ShutdownReachesOnlyThePeer` | crates/quarters-core/src/agent/mod.rs:231-267 | Under arbitrary PID reuse a shutdown signal is delivered only to the process that answered under the recorded PID, between two sightings of the recorded socket, in the section that sends it |
| `AgentTheorems.StaleRecoverySignalsNobody` | crates/quarters-core/src/agent/mod.rs:171-204 | Once recovery finds that no process of the recorded generation exists, that call signals nobody for the rest of the run |
| `AgentCleanup.CleanupIsSafeUnlessTheExitWasSeen` | crates/quarters-core/src/agent/startup.rs:531-569 | At the final clean-up the helper is unreaped, and so the only process its PID can reach, if and only if no poll of that call had found it exited |
| `AgentCleanup.CleanupReachesItsOwnHelper` | crates/quarters-core/src/agent/startup.rs:361-411 | Every clean-up signal of every run, from the final clean-up or the retry, reaches the call's own helper, unless it is the final one and a poll had found the helper exited |
| `AgentCleanup.ReapedCleanupIsUnsafe` | crates/quarters-core/src/agent/process.rs:206-214 | Wherever a call is about to clean up a reaped helper whose PID is free, a new process may be given that PID, and the signal reaches it |
| `AgentCleanup.ReapedWasSeen` | crates/quarters-core/src/agent/startup.rs:290-335 | If a call still remembers a helper that is reaped, its own poll reaped it, and the call has given up since |
| `AgentWitness.CleanupCanReachAStranger` | crates/quarters-core/src/agent/process.rs:206-214 | A run from an empty world in which a stranger is signalled: the second launch was reaped, two lock deadlines passed, and its PID was reused |
| `AgentTheorems.SuccessIsInspected` | crates/quarters-core/src/agent/startup.rs:52-72 | A call reports an active agent only from an inspection of its own that finds the record active, a process of the recorded generation and the recorded socket |
| `AgentProgress.MatchesExactly` | crates/quarters-core/src/agent/process.rs:118-142 | A record with boot fingerprint and start time matches exactly the process that has its PID and both, one with the start time alone that PID and start time, one without generation the PID |
| `AgentProgress.HelpersMatchTheirRecords` | crates/quarters-core/src/agent/startup.rs:361-411 | At every point where a call remembers a helper and the record it has written for it, that record matches as long as the helper is unreaped |
| `AgentProgress.WrittenRecordsMatch` | crates/quarters-core/src/agent/process.rs:118-142 | And it does so for the rest of the run, whatever becomes of the call |
| `AgentProgress.ActiveAgentsAreFound` | crates/quarters-core/src/agent/startup.rs:186-236 | A start or recover call that looks at an active record whose process lives under the recorded generation, with the recorded socket verified, reports success and changes nothing |
| `AgentProgress.FreeLockIsTaken` | crates/quarters-core/src/agent/mod.rs:379-405 | A call at the lifecycle lock gets it if nobody holds it, and goes on to its look at the record |
| `AgentOutcomes.ActiveAgentIsKept` | crates/quarters-core/src/agent/mod.rs:103-130 | From its first step on: a start or a recovery of a space whose recorded agent serves succeeds without changing anything |
| `AgentOutcomes.StartLaunches` | crates/quarters-core/src/agent/startup.rs:243-269 | A start of a space without record and socket, alone and with nothing failing, launches one helper, records its PID and generation as starting and waits for it |
| `AgentOutcomes.StartReplacesFailure` | crates/quarters-core/src/agent/startup.rs:186-236 | A start over a failed record whose process is gone removes record and socket and launches anew |
| `AgentOutcomes.StartLeavesStaleRecords` | crates/quarters-core/src/agent/startup.rs:186-236 | Any other record whose process is gone stops a start without success or change |
| `AgentOutcomes.StartActivates` | crates/quarters-core/src/agent/startup.rs:462-493 | A start whose helper serves at the socket path ends in success, with the record active under the socket's identity and all else unchanged |
| `AgentOutcomes.OrphanIsAdopted` | crates/quarters-core/src/agent/startup.rs:108-161 | A serving helper whose launching call died is adopted by the next start or recovery, which succeeds |
| `AgentOutcomes.DeadOrphanIsRemoved` | crates/quarters-core/src/agent/startup.rs:108-161 | One that died without a socket has its record removed, and a start begins again |
| `AgentOutcomes.LiveOrphansAreWatched` | crates/quarters-core/src/agent/startup.rs:108-161 | One that lives but does not serve yet is watched further, and nothing changes |
| `AgentOutcomes.WatcherSucceeds` | crates/quarters-core/src/agent/startup.rs:75-106 | Watching somebody else's startup succeeds once that agent is active and serves |
| `AgentOutcomes.WatcherFollows` | crates/quarters-core/src/agent/startup.rs:75-106 | If it is launched again, the watch goes on with the new record |
| `AgentOutcomes.WatcherCleansUp` | crates/quarters-core/src/agent/startup.rs:163-174 | If it failed and its process is gone, or was removed, record and socket are gone and a start begins again |
| `AgentOutcomes.ProbesYieldToTheOwner` | crates/quarters-core/src/agent/startup.rs:610-620 | A call that finds the startup-owner lock held changes nothing and looks again |
| `AgentOutcomes.ExitedHelperIsRelaunched` | crates/quarters-core/src/agent/startup.rs:361-411 | A first helper that exits is reaped and a second one launched under a replaced record |
| `AgentOutcomes.SecondExitFails` | crates/quarters-core/src/agent/startup.rs:290-335 | When the second exits too, the record says so, and nobody is signalled |
| `AgentOutcomes.DeadlineCleansUp` | crates/quarters-core/src/agent/startup.rs:327-350 | A helper that never serves is signalled and gone at the deadline, and so is the socket; the record says startup timeout |
| `AgentOutcomes.RefusalCleansUp` | crates/quarters-core/src/agent/startup.rs:413-451 | So is one whose activation was refused; the record says protocol rejected |
| `AgentOutcomes.AbandonedHelpersHaveACause` | crates/quarters-core/src/agent/startup.rs:413-451 | In every run, a call that returns without success and leaves its helper running does so for one of the listed causes |
| `AgentOutcomes.LaunchesKeepToTheirRecord` | crates/quarters-core/src/agent/startup.rs:361-411 | A second launch, and an activation, begin only while the record is still the call's own |
| `AgentOutcomes.StopShutsDown` | crates/quarters-core/src/agent/mod.rs:223-267 | A stop of a serving active agent marks the record, signals that very process, and removes record and socket once it has exited |
| `AgentOutcomes.StopWaitsUntilTheDeadline` | crates/quarters-core/src/agent/mod.rs:231-267 | A signalled agent is waited for until it has exited or the deadline has passed; then its record stays |
| `AgentOutcomes.RecoveryFinishesAShutdown` | crates/quarters-core/src/agent/mod.rs:171-204 | A recovery completes a shutdown somebody else began |
| `AgentOutcomes.RecoveryRemovesStaleRecords` | crates/quarters-core/src/agent/mod.rs:171-222 | A recovery over a record whose process is gone removes record and socket, unless a socket other than the recorded one is there: then it leaves both |
| `AgentOutcomes.RecoverySparesTheLiving` | crates/quarters-core/src/agent/mod.rs:171-204 | A process that is there keeps its failed record, and its active one unless the socket refuses connections; nobody is signalled |
| `AgentSafety.InvRun` | crates/quarters-core/src/agent/startup.rs:21-73 | Lock ownership, record shape, helper counts and shutdown evidence hold in every state of every run of start, stop and recover calls with crashes, exits, PID reuse and socket changes |
| `AgentSafety.InvStep` | crates/quarters-core/src/agent/startup.rs:75-174 | Each single operation or environment step keeps that invariant |
| `AgentRegistry.RegistryFile.Create` | crates/quarters-core/src/agent/registry.rs:59-99 | Publishes only where no record exists; otherwise the stored record is unchanged |
| `AgentRegistry.RegistryFile.Replace` | crates/quarters-core/src/agent/registry.rs:48-57 | Compare-and-swap: the record changes only if it equals the one the caller saw |
| `AgentRegistry.RegistryFile.Remove` | crates/quarters-core/src/agent/registry.rs:110-121 | Removes only the record the caller saw |
| `AgentRegistry.EdgesNeverRegress` | crates/quarters-core/src/agent/registry.rs:131-162 | Any history along the allowed edges never regresses |
| `AgentRegistry.HexTokenInjective` | crates/quarters-core/src/agent/startup.rs:580-592 | Different random octets give different tokens |
| `Admission.RequestAdmission.constructor` | crates/quarters-mcp/src/lifecycle.rs:142-148 | A new table is empty and not in legacy mode |
| `Admission.RequestAdmission.Reserve` | crates/quarters-mcp/src/lifecycle.rs:150-174 | Result and new table are those of the reservation rule, in the order of its checks; capacity failure still uses up a legacy ID |
| `Admission.RequestAdmission.Claim` | crates/quarters-mcp/src/lifecycle.rs:176-210 | A reserved request becomes running once; an unknown one is admitted without transport ownership |
| `Admission.RequestAdmission.StartResponse` | crates/quarters-mcp/src/lifecycle.rs:212-216 | Marks only this request as being answered |
| `Admission.RequestAdmission.FinishResponse` | crates/quarters-mcp/src/lifecycle.rs:218-222 | Releases this slot and notifies waiters |
| `Admission.RequestAdmission.Close` | crates/quarters-mcp/src/lifecycle.rs:228-235 | Empties the table and notifies waiters |
| `Admission.RequestAdmission.Cancel` | crates/quarters-mcp/src/lifecycle.rs:237-251 | Releases a request that has no running handler and no started response, else marks it; notifies exactly on release |
| `Admission.RequestAdmission.EnterLegacy` | crates/quarters-mcp/src/lifecycle.rs:253-258 | Turns legacy mode on and remembers all live IDs |
| `Admission.RequestAdmission.FinishHandler` | crates/quarters-mcp/src/lifecycle.rs:260-274 | What dropping the guard does to the slot, and that it notifies exactly on release |
| `Admission.InvRun` | crates/quarters-mcp/src/lifecycle.rs:110-140 | In every reachable state at most 32 requests are live and 8192 IDs remembered, legacy mode remembers all live IDs, otherwise none, and cancelled or non-transport entries are Running or ResponseStarted |
| `Admission.OtherSlotsUntouched` | crates/quarters-mcp/src/lifecycle.rs:212-274 | No operation except close touches another request's slot |
| `Admission.TableIsAProductOfSlots` | crates/quarters-mcp/src/lifecycle.rs:150-274 | Under any interleaving a slot depends only on its own events and whether they admitted a request |
| `Admission.ReservedSlotIsHeldExactlyWhile` | crates/quarters-mcp/src/lifecycle.rs:237-274 | A reserved request holds its slot if and only if its response is not finished and it was not given up before a response started; its phase and flags tell what happened |
| `Admission.ClaimedSlotIsHeldExactlyWhile` | crates/quarters-mcp/src/lifecycle.rs:176-210 | A request claimed without reservation holds its slot if and only if its handler runs and its response is not finished |
| `Admission.SlotLeakFreedom` | crates/quarters-mcp/src/lifecycle.rs:150-274 | The same in the shared table, whatever other requests do in between |
| `Admission.OwnReservationWaitsExactlyWhile` | crates/quarters-mcp/src/lifecycle.rs:176-182 | A delivered request's own handler claims its slot, if and only if its claim is the first thing to happen to the ID since its reservation |
| `Admission.ClaimTakesTheWaitingReservation` | crates/quarters-mcp/src/lifecycle.rs:176-182 | A claim takes the waiting reservation, whoever makes it, and the next claim is refused as a duplicate |
| `Admission.LateClaimTakesTheNextReservation` | crates/quarters-mcp/src/lifecycle.rs:176-182 | Outside legacy sessions that condition can fail, from any state that admits the ID: after a cancellation the first handler's late claim takes the second request's reservation |
| `Admission.LegacyIdsAreNeverReused` | crates/quarters-mcp/src/lifecycle.rs:150-174 | In a legacy session an ID that was admitted, or refused for capacity alone, is refused as a duplicate until close |
| `Admission.LiveIdsAreUsedByLegacy` | crates/quarters-mcp/src/lifecycle.rs:253-258 | IDs live when legacy mode begins are used up too |
| `Family.ProtocolFamily.Validate` | crates/quarters-mcp/src/lifecycle.rs:357-382 | Refusal and new family are those of the automaton, and family and admission table enter legacy mode together |
| `Family.AcceptedLanguages` | crates/quarters-mcp/src/lifecycle.rs:357-425 | A request stream is accepted throughout if and only if it is one Initialize followed by neither Initialize nor modern-only methods, or has no Initialize, Ping, Subscribe or Unsubscribe, each in its version |
| `Family.AcceptedPartIsAccepted` | crates/quarters-mcp/src/lifecycle.rs:357-382 | Refused requests leave no trace: the accepted part of any stream is accepted on its own and ends in the same family |
| `Family.FamiliesStayDisjoint` | crates/quarters-mcp/src/lifecycle.rs:389-425 | Whatever is sent, what gets through is one family's language, and the state says which |
| `Family.RefusalsNameTheFamily` | crates/quarters-mcp/src/lifecycle.rs:389-425 | A refusal names the version the family speaks; a request in that version is not refused for its version, and an accepted one speaks it |
| `Family.OpenedForGood` | crates/quarters-mcp/src/lifecycle.rs:357-382 | Once opened, the family never changes |
| `Transport.PrepareMessage` | crates/quarters-mcp/src/transport.rs:178-205 | Verdict, table and notification for each decoded message: ignore, reject, close, wait for a cancelled ID, or deliver |
| `Transport.MetadataIsScreened` | crates/quarters-mcp/src/transport.rs:405-443 | Outside a legacy session a request other than Initialize and Ping is answered for its metadata if and only if that is incomplete, a Ping if and only if it is versioned, under its own ID and with the table unchanged; in a legacy session, and for Initialize, neither happens |
| `Transport.GoodRequestsAreDelivered` | crates/quarters-mcp/src/transport.rs:178-205 | A request refused for neither reason, with a new and valid ID and room, is delivered in the step that reads it, with its slot reserved |
| `Transport.OtherRequestsAreRefused` | crates/quarters-mcp/src/transport.rs:178-205 | What becomes of it otherwise: which refusal, a wait of 5000 milliseconds for the cancelled ID, or the end of the session |
| `Transport.OddFramesAreHandled` | crates/quarters-mcp/src/transport.rs:133-167 | Parse and protocol errors are answered, malformed notifications ignored, oversized and broken frames end the session, other messages are delivered |
| `Transport.WaitingRequestsAreRetried` | crates/quarters-mcp/src/transport.rs:236-259 | A retry of a waiting request delivers it as soon as its ID is free, and refuses it as still being cancelled only from its deadline on |
| `Transport.LoopHeadChooses` | crates/quarters-mcp/src/transport.rs:109-146 | The waiting request goes first, then the pending error, then the next frame; a failed writer ends the session |
| `Transport.PendingErrorsAreSent` | crates/quarters-mcp/src/transport.rs:132-146 | A permit sends the pending error, and the session ends if and only if that error is terminal |
| `Transport.TryAdmit` | crates/quarters-mcp/src/transport.rs:241-259 | Retrying a waiting request admits it, hands it back while its ID is held, or settles it after the deadline |
| `Transport.EveryFrameIsSettledOnceInOrder` | crates/quarters-mcp/src/transport.rs:109-167 | However often the receive future is dropped, the settled frames are a prefix of those read, in order, each with an outcome of its own; a pending error and a waiting request never coexist |
| `Transport.OutcomesAreFinal` | crates/quarters-mcp/src/transport.rs:109-167 | A settled frame is never settled again |
| `Transport.NoReleaseIsMissed` | crates/quarters-mcp/src/transport.rs:114-131 | If a waited-for ID is free while the loop is suspended, the wait can be woken, or the notification that wakes it is still to come |
| `Transport.WaitsAreBounded` | crates/quarters-mcp/src/transport.rs:236-259 | After its deadline a waiting request is settled by the next retry |
| `Transport.DeliveryIsAdmission` | crates/quarters-mcp/src/transport.rs:109-153 | A receive step hands a request to the service if and only if it reserved that request's slot |
| `Transport.NotificationsGetThrough` | crates/quarters-mcp/src/transport.rs:178-205 | Before the family is opened notifications are ignored without effect; afterwards they are delivered, and a cancellation is applied |
| `Transport.SessionEndsForACause` | crates/quarters-mcp/src/transport.rs:109-167 | The session ends only at end of input, on a broken or oversized frame, a duplicate ID, a failed writer, a closed channel, or a terminal admission error, and then for good |
| `Transport.DeliveriesOfOneIdAreApart` | crates/quarters-mcp/src/transport.rs:109-167 | Two request frames delivered under one ID have a release of that ID between them, and the earlier one was not delivered in legacy mode |
| `Transport.InvRun` | crates/quarters-mcp/src/transport.rs:109-167 | Frame accounting and wake-up evidence hold in every state of every run |
| `Classify.JoinedAsciiLowercase` | crates/quarters-core/src/discovery/classify.rs:168-177 | The loop yields the lower-cased components joined by slashes |
| `Classify.MatcherIsTheDisclosedList` | crates/quarters-core/src/discovery/classify.rs:9-79 | A path is credential-shaped if and only if one of the disclosed patterns matches it, with ASCII case folding and `**` as zero or more components |
| `Classify.MatcherByComponent` | crates/quarters-core/src/discovery/classify.rs:123-166 | The text-prefix matcher, read component by component |
| `Classify.CaseDoesNotMatter` | crates/quarters-core/src/discovery/classify.rs:168-181 | ASCII letter case never decides whether a path is credential-shaped |
| `Classify.FoldingIsAsciiCase` | crates/quarters-core/src/discovery/classify.rs:179-181 | Folding identifies ASCII letters with their other case, and nothing else |
| `Classify.SpecialClassesExactly` | crates/quarters-core/src/discovery/classify.rs:81-95 | Credential-shaped, socket and runtime entries: if and only if the path, the kind and the root say so, in this order |
| `Classify.HomeClassesExactly` | crates/quarters-core/src/discovery/classify.rs:81-110 | The other classes of the home directory: if and only if the entry lies where they say |
| `Classify.DescendantsInherit` | crates/quarters-core/src/discovery/classify.rs:123-166 | Everything below a credential-shaped path is credential-shaped |
| `Classify.AnywhereGlob` | crates/quarters-core/src/discovery/classify.rs:158-166 | A pattern that may start anywhere matches if and only if some component does |
| `EntryKey.Key` | crates/quarters-core/src/discovery/scan.rs:385-395 | The loop hashes exactly the pre-image of selector and path |
| `EntryKey.PreImageInjective` | crates/quarters-core/src/discovery/scan.rs:385-395 | Two entries with the same pre-image have the same selector and the same components |
| `Scan.StandardKeysDistinct` | crates/quarters-core/src/discovery/scan.rs:385-395 | With an injective digest no two entries of any roots share a key |
| `Scan.Scanner.ReadNames` | crates/quarters-core/src/discovery/scan.rs:149-195 | Names read and pending counts stay within the limits; if the scan is still complete, all names were read; a first name that comes after the deadline stops the reading; and with room, in time and undisturbed it stays complete |
| `Scan.Scanner.QueueName` | crates/quarters-core/src/discovery/scan.rs:170-193 | One more name is held if and only if the clock reading of this check is before the deadline, there is room for an entry, and its bytes fit |
| `Scan.Scanner.TimedOut` | crates/quarters-core/src/discovery/scan.rs:176 | Late if and only if this clock reading has reached the limit of the phase; each check reads the clock once |
| `Scan.Scanner.ReleasePendingName` | crates/quarters-core/src/discovery/scan.rs:197-202 | The saturating subtraction is exact: it never underflows |
| `Scan.Scanner.LimitReached` | crates/quarters-core/src/discovery/scan.rs:204-221 | Stops if and only if a bound was hit before, entries, depth or path length are at their limit, or this clock reading has reached the deadline; then marks the snapshot, else leaves it |
| `Scan.Scanner.Record` | crates/quarters-core/src/discovery/scan.rs:223-249 | Records the entry truthfully under its key; a collision is counted and clears `complete` |
| `Scan.Scanner.OpenDirectory` | crates/quarters-core/src/discovery/scan.rs:251-306 | A directory is entered if and only if it is readable, opens, is unchanged and local; every refusal clears `complete` and is counted under its own gap |
| `Scan.Scanner.MayTraverse` | crates/quarters-core/src/discovery/scan.rs:312-328 | A mount crossing is entered exactly when it is local; a refusal is counted as nonlocal or as an error |
| `Scan.Scanner.RecheckDirectory` | crates/quarters-core/src/discovery/scan.rs:330-342 | `complete` survives exactly if the directory did not change; else the gap is counted |
| `Scan.Scanner.VisitDirectory` | crates/quarters-core/src/discovery/scan.rs:251-310 | Adds exactly the descendants of the directory, or clears `complete` |
| `Scan.Scanner.VisitEntry` | crates/quarters-core/src/discovery/scan.rs:136-143 | Adds exactly the entry and what lies below it, or clears `complete` |
| `Scan.Scanner.VisitName` | crates/quarters-core/src/discovery/scan.rs:121-143 | One turn of the loop, including the paths that skip an entry |
| `Scan.Scanner.VisitNames` | crates/quarters-core/src/discovery/scan.rs:121-145 | The loop over the names of one directory |
| `Scan.Scanner.Walk` | crates/quarters-core/src/discovery/scan.rs:112-147 | Ends on any directory graph; keeps entries plus pending names and pending bytes within their limits; complete means exactly the descendants were added and every clock reading was in time; an undisturbed tree that fits finishes complete |
| `Scan.WalkRoot` | crates/quarters-core/src/discovery/scan.rs:39-43 | Walking an opened root and checking it afterwards: complete means the plain listing; with a clock past the deadline a root with any name is not complete, and out of bounds; an undisturbed root that fits is complete |
| `Scan.ScanRoot` | crates/quarters-core/src/discovery/scan.rs:38-54 | One root: fails exactly if the root is not a private directory of the user; complete means the entries are the plain recursive listing; a scan past its deadline is not complete; an undisturbed root that fits is complete |
| `Scan.DeepTreesAreNeverComplete` | crates/quarters-core/src/discovery/scan.rs:204-221 | A tree deeper than the limit, a cyclic one included, is never reported complete |
| `Scan.LogRepresents` | crates/quarters-core/src/discovery/scan.rs:223-249 | Without collisions the entries correspond one to one to the recorded paths |
| `Tree.DescendantIsThrough` | crates/quarters-core/src/discovery/scan.rs:112-147 | The descendants of a directory are its entries and what lies below them |
| `Tree.NamesAreTheListing` | crates/quarters-core/src/discovery/scan.rs:149-195 | The entries of a directory are exactly the names of its stream, the two dot entries apart |
| `Tree.PathBytesAreWritten` | crates/quarters-core/src/discovery/scan.rs:204-221 | The limited path length is that of the path as it is written |
| `Snapshots.MergeEntries` | crates/quarters-core/src/discovery/scan.rs:59-69 | The merged entries are the union, and collisions are counted exactly if keys overlap |
| `Snapshots.Merge` | crates/quarters-core/src/discovery/scan.rs:59-89 | `complete` survives exactly if both parts are complete and their keys are disjoint; bounds, gap counters and root maps accumulate |
| `Snapshots.MergedIsHonest` | crates/quarters-core/src/discovery/scan.rs:59-89 | After merging, `complete` still means no bound was hit and no gap was counted; every counter is the saturated sum |
| `Snapshots.ScanRoots` | crates/quarters-core/src/discovery/scan.rs:32-57 | All roots: complete means the entries are the listing of every root, one key per entry; with a clock past the deadline a root with any name makes the whole snapshot incomplete and out of bounds; undisturbed roots that fit are complete; root identities are those that were opened |
| `Snapshots.RootsAreListedAsOpened` | crates/quarters-core/src/discovery/scan.rs:352-375 | Each root is listed with the device, inode, kind and owners it had when it was opened |
| `Discovery.Increment` | crates/quarters-core/src/discovery/report.rs:28-40 | Adds one to this class only, saturating |
| `Discovery.Total` | crates/quarters-core/src/discovery/report.rs:42-51 | The chain of saturating additions is the capped sum |
| `Discovery.CountPost` | crates/quarters-core/src/discovery/mod.rs:297-304 | Every later entry is counted in the one cell it falls into |
| `Discovery.Diff` | crates/quarters-core/src/discovery/mod.rs:295-311 | Each cell of the delta is the capped number of entries that changed that way in that class |
| `Discovery.DiffConserves` | crates/quarters-core/src/discovery/mod.rs:295-311 | post = created + modified + replaced + unchanged, and pre = deleted + modified + replaced + unchanged |
| `Discovery.TotalsAreExact` | crates/quarters-core/src/discovery/report.rs:93-102 | Each reported total is the capped number of entries with that change |
| `Discovery.DiffMirrors` | crates/quarters-core/src/discovery/mod.rs:117-119 | Swapping the snapshots swaps created with deleted, and keeps modified where classes follow objects, class by class |
| `Discovery.ReplacedKeepsItsTotal` | crates/quarters-core/src/discovery/mod.rs:295-311 | Swapping keeps the total of replaced entries |
| `Discovery.ReplacedKeepsItsClassExactlyWhen` | crates/quarters-core/src/discovery/mod.rs:295-311 | Swapping keeps the count of replaced entries of a class if and only if as many of them leave the class as enter it, or the counter saturates both ways |
| `Discovery.ReplacedKeepsItsClassInBounds` | crates/quarters-core/src/discovery/mod.rs:295-311 | In snapshots that a 64-bit counter can count, if and only if as many leave as enter |
| `Report.ReplacedChangesClass` | crates/quarters-core/src/discovery/classify.rs:81-110 | So it is not kept wherever a socket takes the place of a regular file at a path that is not credential-shaped: one way it counts as a socket, the other way not |
| `Report.SocketsHaveTheirOwnClass` | crates/quarters-core/src/discovery/classify.rs:81-110 | At such a path a socket, and no regular file, is in the socket class |
| `Report.MakeReport` | crates/quarters-core/src/discovery/report.rs:266-306 | A delta, totals and the state `measured` are shown if and only if both scans were complete, in bounds and on unchanged roots; each other state says exactly what was wrong; the totals are exact |
| `Report.ComparableExactlyWhen` | crates/quarters-core/src/discovery/report.rs:266-306 | Two scans of one selection can be compared if and only if both are complete and every root is the same private directory in both |
| `Report.Stalled` | crates/quarters-core/src/discovery/mod.rs:187-202 | A stalled scan marks every root incomplete and out of bounds, and can never yield a delta |
| `Report.KeyMeansDescendant` | crates/quarters-core/src/discovery/scan.rs:223-249 | In a complete snapshot a key is present if and only if the path it stands for is a descendant |
| `Report.DeltaIsAboutPaths` | crates/quarters-core/src/discovery/mod.rs:295-311 | Between complete snapshots the change counted for a path is what really happened to it: created, deleted, unchanged, modified or replaced, in the class of its later state |
| `Report.FullSnapshotsMirror` | crates/quarters-core/src/discovery/classify.rs:81-110 | Between complete snapshots swapping keeps modified class by class, because class depends only on selector, path and kind |
| `Identities.ValidateIdentitiesPayload` | crates/quarters-core/src/agent/protocol.rs:122-134 | Accepts exactly when count pairs of strings fill the payload, in at most length/8 + 1 rounds whatever count is claimed |
| `Identities.AcceptedExactlyEncodings` | crates/quarters-core/src/agent/protocol.rs:122-134 | Accepted payloads are exactly the encodings of lists of (blob, comment) pairs, and each encodes one list only |
| `Identities.PayloadCursor.Take` | crates/quarters-core/src/agent/protocol.rs:157-164 | Takes exactly the asked-for prefix, or nothing |
| `Identities.PayloadCursor.ReadU32` | crates/quarters-core/src/agent/protocol.rs:144-147 | Reads a big-endian 32-bit number |
| `Identities.FromU32IsBigEndian` | crates/quarters-core/src/agent/protocol.rs:144-147 | The most significant octet comes first |
| `Identities.PayloadCursor.ReadString` | crates/quarters-core/src/agent/protocol.rs:149-155 | Skips one length-prefixed string, if it is all there |
| `Adapter.LeadingOptionsContainConfigOverride` | crates/quarters-cli/src/adapter.rs:224-246 | True if and only if a getopt reading of the leading arguments yields `-F` |
| `Adapter.OptionTables` | crates/quarters-cli/src/adapter.rs:248-255 | Which options of ssh, scp and sftp take a value |
| `Adapter.BundledConfigIsFound` | crates/quarters-cli/src/adapter.rs:224-255 | `-F` is found behind flags bundled with it, its value attached or not |
| `Adapter.ValuesAreSkipped` | crates/quarters-cli/src/adapter.rs:224-255 | The value of another option is never taken for an option |
| `Adapter.OperandsEndTheOptions` | crates/quarters-cli/src/adapter.rs:224-255 | An operand, a lone hyphen and a double hyphen end the options |
| `Adapter.ScanGroup` | crates/quarters-cli/src/adapter.rs:235-244 | One group of options: whether it holds `-F`, and whether its last option waits for a value |
| `Adapter.QuotedPathOption` | crates/quarters-cli/src/adapter.rs:84-103 | Refuses exactly the paths with a line break; otherwise quotes with every backslash and quote escaped |
| `Adapter.QuotedOptionRoundTrips` | crates/quarters-cli/src/adapter.rs:84-103 | The quoted option reads back as the very same path |
| `StoreTheorems.CreatorKeepsItsStaging` | crates/quarters-core/src/store/create.rs:49-67 | In every run a creator keeps its staging directory, with its own tree and its creation lock, until it publishes or gives up |
| `StoreTheorems.VerificationSucceeds` | crates/quarters-core/src/store/create.rs:64-73 | So the identity checks before publication never fail because of another process |
| `StoreTheorems.NewCreationLockIsFree` | crates/quarters-core/src/store/create.rs:118-136 | A new creation lock is never already held |
| `StoreTheorems.PublicationNeverOverwrites` | crates/quarters-core/src/store/create.rs:90-94 | When a space is published its name was free, and no other directory changes |
| `StoreTheorems.AtMostOneCreatorSucceeds` | crates/quarters-core/src/store/create.rs:138-147 | Two publications of one name have a removal of it in between |
| `StoreTheorems.SpaceStaysUntilRetired` | crates/quarters-core/src/store/remove.rs:69-89 | A published space keeps its name and tree until it is retired |
| `StoreTheorems.CreationGetsStarted` | crates/quarters-core/src/store/create.rs:36-72 | With nothing failing a creator makes and marks its own staging directory, waiting only for the store lock and giving up only if the name is taken |
| `StoreTheorems.CreationGoesThrough` | crates/quarters-core/src/store/create.rs:73-104 | And goes on from there to the rename: locked while it holds the store lock, populated without it, its lock file removed just before |
| `StoreTheorems.PublicationCompletes` | crates/quarters-core/src/store/create.rs:73-104 | The rename gives the space its name and its very tree, and both locks are free |
| `StoreTheorems.GivingUpCleansUp` | crates/quarters-core/src/store/create.rs:36-104 | A creator that gives up takes its own staging directory away and holds no lock afterwards |
| `StoreTheorems.OnlyOwnStagingsArePublished` | crates/quarters-core/src/store/create.rs:58-78 | Under any change of the directory, only the creator's own tree with its lock file is published, and only under a free name |
| `StoreTheorems.RemovalGoesThrough` | crates/quarters-core/src/store/remove.rs:69-89 | A removal retires the space's very tree under a fresh name, releases the store lock, and deletes that tree |
| `StoreTheorems.TreesHaveOneName` | crates/quarters-core/src/store_recovery.rs:272-284 | Every tree has at most one name at any time |
| `StoreTheorems.ResidueConverges` | crates/quarters-core/src/store_recovery.rs:249-300 | A residue tree is from then on under its original name, under a reclaiming name, or gone, wherever recoveries are cut off |
| `StoreTheorems.RecoveryLeavesProtectedAlone` | crates/quarters-core/src/store_recovery.rs:491-531 | No step of a recovery touches spaces, unknown names, stagings of live creators or leased alpha entries |
| `StoreTheorems.RecoveryGoesThrough` | crates/quarters-core/src/store_recovery.rs:158-193 | With nothing failing a recovery works through each of its lists to the end, and deletes with the store lock released |
| `StoreReclaim.FullRecoveryReclaims` | crates/quarters-core/src/store_recovery.rs:158-193 | Whatever other processes do, when a recovery with a complete listing and successful renames and deletions has worked through its list, every staging directory without a lock file or with a free creation lock, every retired or reclaiming tree, and every unleased alpha entry is gone, unless another recovery renamed it meanwhile |
| `StoreReclaim.UnclaimedEntriesAreReclaimed` | crates/quarters-core/src/store_recovery.rs:158-193 | So is every reserved entry that no process works on or leases when the store is listed |
| `StoreReclaim.UnclaimedIsUnlocked` | crates/quarters-core/src/store_recovery.rs:491-531 | Since at that point nobody but a live creator holds the lock of its staging directory |
| `StoreReclaim.TakenOverTreesAreLeftToTheOther` | crates/quarters-core/src/store_recovery.rs:178-185 | That exception is real: a rename just before the deletion leaves the tree to the other recovery |
| `StoreSafety.RecoverySpares` | crates/quarters-core/src/store_recovery.rs:491-531 | Classifying and renaming leave a live creator's directory, lock file and lock as they are |
| `StoreSafety.InvRun` | crates/quarters-core/src/store/create.rs:36-104 | What creators, recoveries and removals rely on holds in every state of every run with crashes |
| `Recovery.MatchingEntries` | crates/quarters-core/src/store_recovery.rs:545-565 | Returns all wanted entries, or fails exactly when there are too many to look at or to keep |
| `Recovery.ClassifyCreations` | crates/quarters-core/src/store_recovery.rs:491-531 | Returns exactly the stale creations and the number of active ones; fails exactly on bounds or unsafe entries |
| `Recovery.UnleasedPublishedEntries` | crates/quarters-core/src/store_recovery_published.rs:62-82 | Returns exactly the alpha entries nobody leases; fails exactly on bounds or unsafe entries |
| `Recovery.Store.Take` | crates/quarters-core/src/store_recovery.rs:279-284 | Moves one directory, whole, to a fresh reclaiming name; one that has vanished is passed over |
| `Recovery.Store.TakeAll` | crates/quarters-core/src/store_recovery.rs:272-284 | All candidates that are still there are moved, or none but candidates were touched |
| `Recovery.Store.DeleteAll` | crates/quarters-core/src/store_recovery.rs:178-185 | Deletes what was moved and nothing else, going on after a failure |
| `Recovery.Store.Collect` | crates/quarters-core/src/store_recovery.rs:249-270 | Collects exactly the stale creations and retirements, or fails exactly when the store is not recoverable |
| `Recovery.Store.Recover` | crates/quarters-core/src/store_recovery.rs:158-193 | On success every stale entry is gone and nothing else changed; nothing else changes on failure; with working renames and deletions it succeeds on every recoverable store |
| `Recovery.OnlyHeldEntriesRemain` | crates/quarters-core/src/store_recovery.rs:158-193 | After a successful recovery the only reserved entries left are held by somebody |
| `Recovery.RecoveryIsIdempotent` | crates/quarters-core/src/store_recovery.rs:158-193 | A second recovery finds nothing to do |
| `PublishedNames.ParsesExactlyPublishedNames` | crates/quarters-core/src/store_recovery_published.rs:26-36 | The parser accepts exactly NAME-PID-MILLIS with a valid space name, and returns that name |
| `PublishedNames.PublishedNamesAreVisible` | crates/quarters-core/src/store_recovery_published.rs:26-36 | It never claims a hidden name |
| `PublishedNames.ShortNamesArePublished` | crates/quarters-core/src/store_recovery_published.rs:26-36 | A name of letters and digits with its two numbers is parsed if and only if it has at most 32 characters |
| `Leases.FreezeBlocksGrants` | crates/quarters-core/src/store.rs:279-298 | No process or discovery lease is granted between a freeze and the next unfreeze |
| `Leases.NoGrantWhileMarked` | crates/quarters-core/src/store/freeze.rs:144-156 | A marker that is there, readable or not, admits maintenance leases only |
| `Leases.UnfreezeClearsTheMarker` | crates/quarters-core/src/store/freeze.rs:115-130 | A successful unfreeze of a space with a stable identity leaves no marker, whether it was valid or not; a successful freeze leaves a valid one; both release the store lock |
| `Leases.MarkerChangesOnlyThere` | crates/quarters-core/src/store/freeze.rs:77-139 | Nothing but these, and damage from outside, changes the marker |
| `Leases.FreezeGoesThrough` | crates/quarters-core/src/store/freeze.rs:77-101 | Under the store lock a freeze goes on to write its marker, exactly if the space has a stable identity and is unmarked |
| `Leases.UnmarkedSpacesLeaseOut` | crates/quarters-core/src/store/freeze.rs:144-156 | With nothing failing a lease request gets past the marker if and only if the space is unmarked, has no stable identity, or the lease is for maintenance |
| `Leases.LeasesAreGranted` | crates/quarters-core/src/store_lock.rs:159-164 | It is then granted exactly if no lease of another process excludes it, outlives the store lock, and ends with its guard |
| `Leases.FreeStoreLockIsTaken` | crates/quarters-core/src/store_lock.rs:56-91 | Whoever asks for a free store lock gets it and goes on |
| `Leases.LeasesSurvive` | crates/quarters-core/src/store/freeze.rs:77-101 | A lease ends only with its own process; freezing leaves it alone |
| `Leases.ExclusiveIsAlone` | crates/quarters-core/src/store_lock.rs:159-164 | A discovery lease never coexists with another lease |
| `Leases.ProbesNeverBlockGrants` | crates/quarters-core/src/store_lock.rs:109-125 | A grant finds the lock busy if and only if a real lease excludes it; the observer's transient lock never does |
| `Leases.ObserversSeeRealLeases` | crates/quarters-core/src/store_lock.rs:145-153 | An observer finds the lock free if and only if no real lease is held |
| `Leases.ObserversReport` | crates/quarters-core/src/store_lock.rs:145-153 | An observer under the store lock reports free exactly then |
| `Leases.InvRun` | crates/quarters-core/src/store.rs:279-308 | Each lock is held by exactly the processes whose position says so, in every run |
| `Leases.LockBounded` | crates/quarters-core/src/store_lock.rs:212-234 | Succeeds at the first free attempt, makes at most timeout + 1 attempts, and finds a lock that is free early enough |
| `Leases.RetryDelay` | crates/quarters-core/src/store_lock.rs:244-248 | Each delay is between 1 and 20 milliseconds |

## Left out

- Rollback, rename, artifact capture, bundles, clone, layout markers and host fork: other transactions on the same store; their targets appear only as checks that may fail.
- The CLI grammar, output formatting, man pages, shell snippets, doctor and status: rendering without state.
- Namespaces, mounts, Landlock and the system calls behind stat, open and flock: answers of the environment.
- The macOS process handle, which re-reads a start time instead of holding a descriptor.
- JSON framing, BOM and size handling of MCP frames, and the response encoder: a frame arrives already decoded, malformed, oversized or ignored.
- Wall-clock bounds on agent startup: the retry windows deliberately restart past the shared deadline.
- `unreadable_classes`, the per-root rows of a report and its fixed texts: they only repeat counts and flags that are modelled.
- Failure to allocate memory during a scan, which aborts it with an error.
- Recovery of artifacts, freeze-marker temporaries and alpha runtime directories: they follow the same classify, move and delete pattern.
- `ssh-add` argument checks and host tool resolution: easier members beside the option scan that is modelled.
- Partial deletion of a tree: a tree keeps its name until it is gone; that its lock file may disappear first is modelled.
- Scan.Scanner.ReadNames: requires a pending-byte limit below 2^64 - 1, since at exactly that limit the saturating sum can no longer exceed it; no directory listing in memory reaches it.
- Scan.Scanner.Walk: the depth argument is the length of the relative path, which the code passes separately and keeps equal.
- Recovery.Store.Recover: what other processes do meanwhile is the subject of StoreReclaim and StoreTheorems; here the store changes only through the recovery.
