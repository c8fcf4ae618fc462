# DPU service fabric: a verified model

The DPU service fabric runs placement of services on data processing units (DPUs). It takes a stream of
events (declarations, topology and health observations, intents, executor reports), journals each one, reduces
it into an accepted state, and rebuilds that state after a crash. This project models the part of it that has
to be right: the event runtime with its journal, snapshot and restart; fencing and ownership; the planner and
the dependency order; the binary and JSON codecs; store framing; and the streaming SHA-256.

Reading order:

| layer | files |
|---|---|
| identities, sorting, searching, records | `Base`, `Order`, `Model` |
| ownership grants and fence tokens | `Authority` |
| eligibility, dependency order, planner | `Eligibility`, `Dependency`, `Planner`, `PlannerSound`, `PlannerComplete`, `PlannerRun` |
| reducers, as values and as methods on a state object | `Reducers`, `ReducersRun`, `ReconcileRun`, `ApplyRun` |
| what every event keeps | `Lifecycle`, `Table`, `Invariant`, `Claims`, `Ownership`, `FenceTimes`, `Runs` |
| replay against the live run | `FreshBlind`, `Replay`, `TokenWeight`, `Forgetting`, `Reproduce`, `Reopening`, `GrantStamps` |
| the protocol: stage, release, journal, rotate, crash, reopen, refused reopening | `Delivery`, `Protocol`, `ExactlyOnce`, `NothingLost`, `SafeRotation`, `RefusedOpen`, `Restarts`, `StagingOrder` |
| concrete runs | `Deliveries`, `Scenario`, `Stranded`, `Rewound`, `Revived`, `Forgotten`, `Tangled` |
| the runtime as an object | `Runtime` |
| codecs, framing, hashing | `Bytes`, `Archive`, `ArchiveCodec`, `ArchiveStream`, `Store`, `Json`, `JsonCodec`, `JsonText`, `Sha256`, `Hasher` |

The protocol is a state machine whose steps are the durable steps of the runtime: replacing the snapshot and
emptying the journal are two steps, so are journaling an event and reducing it, and a crash may come between
any two. A run is any sequence of steps from the empty store, with any configuration at each reopening, and a
reopening may be refused. The object in `Runtime` is proved to follow that machine: each method's contract gives the exact steps it adds to the
run, and the object's fields are the machine's state after them. Everything proved of runs is therefore proved
of the object. Where the source changes state in a loop, the model has a method with that loop, proved against a
function that specifies it. The laws are proved about the function.

A run is orderly if every intent's reconciliation looks up present instances correctly; a plan that names
present instances before new ones always does. Unique identities, an issuer that holds exactly the last tokens, and
statements that name an instance by its identity depend on it. Everything else is proved of every run.

Identities are texts, the absent identity is the empty text, instants and counters are natural numbers with
saturation written out where the source saturates. The identity hash, the event digest and the store's frame
digest are parameters. So is whether the store's files load, the snapshot decodes and each record decodes
(`Reader`). How the store answers each append is a parameter of `Flush` and `Submit`, and how it answers the
checkpoint of a runtime being destroyed one of `TryOpen`.

## What the code does not keep

These statements of the design fail for the code as it is. Each has a failing input or family and the exact
condition under which the statement holds.

- **A rotation inside a release can lose an event.** The journal is filtered at reopening by the snapshot's
  watermark (src/engine/runtime.cpp:1495-1510). If a full journal is rotated between two released events of the
  same instant, the second is journaled behind a snapshot whose watermark already covers it and never comes back,
  against docs/PERSISTENCE.md:43-45. `LossIsReachable`, `UnguardedRotationLoses`; exact: `RecoveryLosesNothingExactly`;
  safe runs: `GuardedRunsLoseNothing`.
- **The clock of the placement projection is not replayed.** A live run moves the clock with every event, replay
  only with time events (src/engine/runtime.cpp:1366-1387). Run: `ProjectionLosesClock`; exact: `ProjectionReplayedExactly`.
- **A refused opening rewrites the store.** Once the store is attached, every refusal of `open` destroys the
  half-built runtime, and its destructor checkpoints whatever state it holds (src/engine/runtime.cpp:1408, 1459-1504,
  1941-1955): a store of another identity, or one that does not decode, is replaced by a fresh state and an empty
  journal, against docs/PERSISTENCE.md:67-68. `WipeIsReachable`; exact: `RefusedOpenKeepsExactly`, and
  `InterruptedKeepsExactly` for a crash between the two files. The boot incarnation goes back with it; exact:
  `WreckedBootExactly`.
- **A snapshot forgets issued tokens.** Loading one resets the issuer, so an acknowledgement or a report with a
  token from before the checkpoint is refused after it, a withdrawal no longer releases its device, and serials are
  issued again. `RestoreForgetsTokens`, `ForgottenWithdrawKeepsGrant`; at the deployment: `DeployedTokenForgotten`; run:
  `ReleasedGrantReturns`; exact, event by event and for every tail: `ApplyExactly`, `RestoredTailExactly`. The next
  coordinator change ends it: `CoordinatorHeals`.
- **Reconciliation can create an instance twice.** It searches by binary search while it appends, so a present
  instance is missed when a new one was appended before it. `ReconcileDoubles`; exact: `ReconcileUniqueExactly`.
- **A fence can move back in time**, against docs/PROOF.md:23. Events fence at their own instant, a reopening at the
  replayed clock (src/engine/runtime.cpp:1384-1401), and the two are not ordered.
  A reopening can fence too early: replay moves the clock only with time events, so a crash right after a deployment at
  instant 5 leaves the instance fenced at 0, and evidence from before it existed verifies it. Runs: `CrashRewindsFence`,
  `StaleEvidenceVerifies`. It can also fence too late, when time events ran ahead, and the next event moves the fence
  back. Run: `Rewound.FenceMovesBack`. Exact: `RowsAfter` and `FenceMovesExactly` for every event, `ReopeningExactly` for
  every store, `ReopenedAgainstLive` against the state before the crash; no other step touches a fence:
  `OtherStepsKeepFences`.
- **A rollback can grant a device that has left the topology.** Run: `RollbackStrands`; exact: `GrantsStayPlaced`.
- **Staging order can matter** for two different events with one release key, and when the buffer is full, against
  docs/PROOF.md:22. `FullBufferPicksFirst`; exact: `QueueOrderFreeExactly` for the release, `BatchOrderFreeExactly` for
  admission.
- **Recovery keeps grants**, while docs/PERSISTENCE.md:80 and docs/PROOF.md:16 say every grant is revoked. The model
  follows the code (src/engine/runtime.cpp:1519-1535). Run: `CrashRewindsFence`. Exact: a reopened process holds no grant
  exactly when the store stood for none, `ReopeningExactly` and `ReopenedAgainstLive`; the grants it keeps name an ended
  incarnation, `KeptGrantsNameEndedBoots`.
- **Headroom can wrap.** The permille multiplies in 64 bits. `RatioWraps`; exact: `RatioExact`.
- **Some values do not survive a codec.** Negative signed fields do not decode, and integers that print in more
  than nineteen characters do not parse. Exact: `ArchiveCodec.RoundTripExactly`, `PrintParseExactly`.

## Model

| member | source | states |
|---|---|---|
| ExactlyOnce.EveryRunExactlyOnce | src/engine/runtime.cpp:1408-1804 | Over every interleaving of staging, release, rotation, checkpoint, crash, reopening and refused reopening, the committed log and the running process's log hold each event at most once, in release order |
| ExactlyOnce.ActInv | src/engine/runtime.cpp:1408-1757 | Every single durable step, a crash included, keeps the relation between snapshot, journal, window, buffer and log that makes delivery happen at most once |
| ExactlyOnce.WreckedOk | src/engine/runtime.cpp:1459-1504 | A store rewritten by a refused opening, wholly or up to the snapshot, still holds each event at most once and in order |
| ExactlyOnce.DueExact | src/engine/runtime.cpp:1495-1510 | The records recovery does not skip are exactly those above the snapshot's watermark, in journal order |
| NothingLost.RecoveryLosesNothingExactly | src/engine/runtime.cpp:1495-1517 | Reopening brings back the committed log exactly when the snapshot's watermark cuts the journal where the snapshot was taken and no record repeats an origin position within the delivery window |
| NothingLost.HeldExactly | src/engine/runtime.cpp:1366-1387 | The delivery window lets a whole journal through exactly when no event repeats a position still in the window |
| NothingLost.SkippedExact | src/engine/runtime.cpp:1495-1510 | In a journal ordered in time, the watermark filter drops a prefix and nothing else |
| SafeRotation.GuardedRunsLoseNothing | src/engine/runtime.cpp:1408-1757 | In every run that rotates a full journal only for an event above the watermark, whose delivery window never grows from one opening to the next, and in which no refused opening saves over a store that holds events, what is committed at some point is part of what reopening brings back at any later point, and nothing else comes back |
| RefusedOpen.RefusedOpenKeepsExactly | src/engine/runtime.cpp:1408-1504 | A refused opening whose closing checkpoint goes through keeps the committed log exactly when no committed event is outside the snapshot and either, refused outright, the snapshot stands for no event, or, refused at an undecodable record, no record before that one lies above the snapshot's watermark; an outright refusal leaves nothing |
| RefusedOpen.InterruptedKeepsExactly | src/engine/runtime.cpp:1408-1504 | Stopped between snapshot and journal, a refused opening keeps the committed log exactly when, refused outright, the old snapshot stood for nothing but records still in the journal, and, refused at an undecodable record, the records before it that follow the snapshot are the ones above its watermark and none repeats a position within the window |
| RefusedOpen.WipeIsReachable | src/engine/runtime.cpp:1483-1485 | For any event and any two store identities: commit the event, stop, open under the other identity, and the event is gone and the store's own configuration is refused |
| SafeRotation.UnguardedRotationLoses | src/engine/runtime.cpp:1639-1660 | From any reachable state, an event journaled right after a rotation at the saved watermark is committed and never comes back |
| SafeRotation.LossIsReachable | src/engine/runtime.cpp:1639-1660 | Any two complete events of one instant make a run that commits both and recovers only the first |
| StagingOrder.QueueOrderFreeExactly | src/engine/runtime.cpp:1595-1607 | The released queue is the same for every staging order exactly when no two released events share a release key and differ |
| StagingOrder.StagingOrderFree | src/engine/runtime.cpp:1589-1757 | Two runs that staged the same events in different orders release them to the same answers and the same state, and keep the same events back |
| StagingOrder.BatchOrderFreeExactly | src/engine/runtime.cpp:1759-1785 | Which events of a batch are admitted is the same for every order of the batch exactly when its welcome events all fit the buffer, none does, or they are all the same event |
| StagingOrder.AdmittedIs | src/engine/runtime.cpp:1552-1587 | The admitted events of a batch are the first of those no check turns away, as many as the buffer has room for |
| StagingOrder.FullBufferPicksFirst | src/engine/runtime.cpp:1578-1585 | With room for one event, the order of the batch decides which of two is admitted |
| StagingOrder.SortFirst | src/engine/runtime.cpp:1605-1607 | The release sort is stable: among events of one key, the first staged is released first |
| StagingOrder.ActBlind | src/engine/runtime.cpp:1589-1757 | No step but staging and starting a release depends on the reorder buffer |
| Replay.ReplayMatchesLive | src/engine/runtime.cpp:1366-1387 | Replaying a journal reaches the live run's state in everything except the clock, the journal count and the health freshness the clock derives |
| Replay.ApplyAlike | src/engine/runtime.cpp:1317-1360 | Clock, journal count and derived freshness never influence what an event does to the rest of the state, nor its answer; only the answer to a time event depends on the clock |
| Replay.ProjectionReplayedExactly | src/engine/runtime.cpp:147-163 | Replay restores the placement projection up to its clock, and the clock too exactly when no event lies past every instant the time events name |
| Revived.ProjectionLosesClock | src/engine/runtime.cpp:147-163 | After the deployment the projection's clock is 5, and 0 in its replay, everything else being equal |
| Replay.ReplayClock | src/engine/runtime.cpp:1366-1387 | What clock, watermark and boot are after any replay |
| Replay.LiveClock | src/engine/runtime.cpp:1669-1679 | What clock, watermark and boot are after any live run |
| Replay.RestoreForgetsTokens | src/engine/runtime.cpp:1474-1493 | A report that decides an open attempt before the checkpoint is refused with a fence mismatch after loading it |
| Forgetting.ApplyExactly | src/engine/runtime.cpp:1317-1360 | Of two states that differ only in forgotten serials, an event keeps them alike exactly when it is no new acknowledgement and no deciding report for an instance whose serial was forgotten, and no intent that is carried out and gives such an instance a token |
| Forgetting.RestoredTailExactly | src/engine/runtime.cpp:1474-1517 | For every tail of events, replaying it on a loaded snapshot stays with the live run, tokens aside, exactly as long as no event of the tail uses a token from before the snapshot |
| Forgetting.CoordinatorHeals | src/engine/runtime.cpp:219-250 | After an accepted coordinator change, replay and live run agree for good, tokens included |
| Forgetting.ForgottenWithdrawKeepsGrant | src/engine/runtime.cpp:890-936 | A reported withdrawal that releases its device live is refused over the loaded snapshot, where the grant stays |
| Forgotten.DeployedTokenForgotten | src/engine/runtime.cpp:1474-1493 | The report on the deployed instance's attempt is decided in the running process and refused over the snapshot of its state |
| Forgotten.ReleasedGrantReturns | src/engine/runtime.cpp:890-936 | In every configuration: deploy, checkpoint, report the withdrawal; the running process holds no grant, its store still does |
| TokenWeight.ReconcileShadows | src/engine/runtime.cpp:952-1108 | Under an issuer that remembers fewer serials, reconciliation succeeds whenever it does under the other; if a token goes to an instance only the other remembers, the two tables differ |
| TokenWeight.ReconcileAgrees | src/engine/runtime.cpp:952-1108 | If no token goes to such an instance, both succeed or fail alike with the same table, and the issuers still agree |
| Reproduce.RunMirror | src/engine/runtime.cpp:1410-1757 | In every run the live state equals the replay of what the store holds, up to what the clock derives |
| Reproduce.RecoveryReproducesState | src/engine/runtime.cpp:1474-1517 | After any guarded run, at any point a caller can see and also between journaling and reducing an event, reopening replays exactly the journal since the snapshot; it reaches the state the store stands for if the snapshot holds no token, and otherwise stays with it, tokens aside, exactly as long as no record uses a token from before the snapshot |
| Reopening.ReopeningExactly | src/engine/runtime.cpp:1384-1401 | On every store, a reopening keeps the replayed grants and fences every instance at the replayed clock, so a fence moves back exactly when neither the saved clock nor a replayed time event reaches it |
| Reopening.ReopenedAgainstLive | src/engine/runtime.cpp:1384-1535 | After any guarded run whose journal reproduces the state, the reopened process holds exactly the grants the store stood for, and fences move back exactly where the latest instant told is earlier than the live fence |
| Reopening.OtherStepsKeepFences | src/engine/runtime.cpp:1552-1757 | Staging, releasing, journaling, rotating and checkpointing leave every fence as it was |
| GrantStamps.KeptGrantsNameEndedBoots | src/engine/runtime.cpp:1519-1535 | In every run, each grant a reopened process holds names an earlier boot incarnation than its own, unless the counter has run out |
| GrantStamps.RunStamped | src/engine/authority.cpp:24-59 | In every run no grant names a later boot incarnation than the state holding it |
| GrantStamps.ApplyFrom | src/engine/runtime.cpp:1317-1360 | Every grant after an event was there before or was just given under the boot in force |
| Revived.CrashRewindsFence | src/engine/runtime.cpp:1384-1401 | In every configuration that opens both stores: deploy, crash, open; the fence goes from 5 to 0, and the grant stays, naming the ended incarnation |
| Revived.StaleEvidenceVerifies | src/engine/runtime.cpp:850-936 | In every such configuration: after that restart an instance fenced at instant 5 is verified on evidence of instant 0 |
| FreshBlind.PlanBlind | src/engine/planner.cpp:98-482 | A plan does not depend on any device's freshness flag |
| Restarts.EveryRunKeepsInvariant | src/engine/runtime.cpp:1317-1550 | In every run, crashes and refused openings included, every instance is in order whenever the process is up, every open attempt is known to the issuer, and between calls every serving instance is justified by a verified attempt and a healthy device; in orderly runs identities are unique as well |
| Restarts.EveryRefusalLeavesNoTrace | src/engine/runtime.cpp:197-1360 | In no state of any run does a refused event change anything |
| Restarts.RestartOk | src/engine/runtime.cpp:1389-1401 | After recovery every instance is in order and none is open, verified or serving |
| Restarts.RestartAdvancesExactly | src/engine/runtime.cpp:1519-1526 | Reopening leaves the last boot incarnation behind exactly when the counter has not run out and, if only a journal survives, the configured boot has not gone back |
| Restarts.WreckedBootExactly | src/engine/runtime.cpp:1408-1526 | After an outright refusal rewrote the store, the next process is past the last boot incarnation exactly when the refused or the next configuration is |
| Restarts.SpentTokensStayDead | src/engine/authority.cpp:90-170 | In every run whose reopenings advance the boot incarnation, no token that was out when some process ended validates in any later process |
| Restarts.OldAuthorityStaysDead | src/engine/authority.cpp:96-170 | In every run whose reopenings advance the boot incarnation, a recorded token of an earlier epoch or boot incarnation than the one in force validates at no later point, whatever events, crashes and reopenings follow |
| Restarts.TokensBounded | src/engine/runtime.cpp:107-143 | Every token recorded in a state was issued under that boot incarnation or an earlier one |
| Invariant.ApplyKeeps | src/engine/runtime.cpp:1317-1360 | Every event keeps every instance in order (attempt numbers ascending, only the last attempt open, tokens no newer than the authority, verification justified), open attempts known to the issuer, grants and devices sorted, and never lowers the authority; with right lookups it also keeps identities unique and the issuer's serials equal to the last tokens |
| Invariant.RefusalLeavesNoTrace | src/engine/runtime.cpp:197-1360 | Refused events leave the whole state unchanged exactly when the issuer is not ahead of the accepted epoch, or there is no grant to lose |
| Invariant.RefusedUnchanged | src/engine/runtime.cpp:1110-1315 | In such a state any refused event, an intent that fails halfway included, leaves the state as it was |
| Invariant.CoordinatorKeeps | src/engine/runtime.cpp:219-250 | A coordinator change keeps the invariant and fences every instance |
| Invariant.TopologyKeeps | src/engine/runtime.cpp:455-543 | A new topology keeps the invariant, through fencing and releasing every removed device |
| Invariant.LostKeeps | src/engine/runtime.cpp:700-741 | Losing a device keeps the invariant |
| Invariant.EffectKeeps | src/engine/runtime.cpp:810-936 | A report keeps the invariant, whatever it decides |
| Invariant.IntentKeeps | src/engine/runtime.cpp:1110-1315 | An intent keeps the same, with the rows when its lookups are right |
| Invariant.ReportAccepted | src/engine/runtime.cpp:810-870 | A report that passes its checks names a present instance, its open last attempt, a validating token and fresh evidence not older than the fencing |
| Invariant.DecidedOk | src/engine/runtime.cpp:870-936 | Deciding a report keeps its instance in order and justifies a verified one |
| Lifecycle.FenceOk | src/engine/runtime.cpp:107-130 | Fencing closes every open attempt, withdraws verification and keeps the attempt history |
| Lifecycle.CancelKeeps | src/engine/runtime.cpp:132-143 | Cancelling closes what is open, changes no number or token, and keeps the history's length |
| Lifecycle.OpenOk | src/engine/runtime.cpp:1046-1066 | A new attempt with a fresh token keeps the history and is the only open one |
| Lifecycle.CloseOk | src/engine/runtime.cpp:870-936 | Closing the open attempt keeps numbers, tokens and earlier attempts |
| Lifecycle.LoseOk | src/engine/runtime.cpp:700-741 | What ran on a lost device is fenced and lost; nothing else changes |
| Lifecycle.QuiesceOk | src/engine/runtime.cpp:743-764 | A quiesced instance has nothing open and keeps its history |
| Lifecycle.AcknowledgeOk | src/engine/runtime.cpp:766-800 | An acknowledgement moves the open attempt's phase and nothing else |
| Table.ReconcileOk | src/engine/runtime.cpp:952-1108 | Reconciliation keeps every instance in order and every open attempt known; with right lookups also unique identities and an issuer in step |
| Table.ReconcileUniqueExactly | src/engine/runtime.cpp:952-1108 | Reconciliation leaves unique identities exactly when every lookup of a present instance was right |
| Table.ReconcileDoubles | src/engine/runtime.cpp:965-1010 | Group "g" runs "b" and plans "a" and "b": reconciliation succeeds and leaves two rows named i-g.b.0 |
| Table.EarlierHidesLater | src/engine/runtime.cpp:965-1010 | Whenever a planned name sorts before the only present one, appending it hides the present one from its lookup |
| Table.OldBeforeNewRight | src/engine/runtime.cpp:965-1010 | If a plan names present instances before new ones, every lookup is right |
| Table.NewOnlyRight | src/engine/runtime.cpp:965-1010 | Distinct new instances never disturb a lookup, in any order |
| Table.ReconcileSlotOk | src/engine/runtime.cpp:965-1070 | One planned replica is created, replaced, reattempted or kept without breaking an instance, and without breaking the rows if it is looked up right |
| Table.RetireFromOk | src/engine/runtime.cpp:1072-1099 | Retiring what a plan no longer covers keeps the table and its identities |
| Table.SortInstances | src/engine/runtime.cpp:72-74 | Sorting after reconciliation restores the strict order lookups need and keeps every instance |
| Runs.RunSteps | src/engine/runtime.cpp:1317-1360 | Over any run of events every instance stays in order and the authority only grows; over an orderly run the rows stay in order too |
| Runs.RunDescends | src/engine/runtime.cpp:107-143 | Over any run each instance survives as an instance whose attempt history extends the old one |
| Runs.ReportAcceptedExactly | src/engine/runtime.cpp:810-936 | A report decides something exactly when it addresses the open attempt of its instance, with that attempt's token, on conclusive evidence |
| Runs.AcknowledgedExactly | src/engine/runtime.cpp:766-800 | An acknowledgement is accepted exactly when it addresses an instance's open attempt with its token |
| Runs.NumbersDistinctExactly | src/engine/runtime.cpp:1030-1061 | Attempt numbers of an instance are all different exactly while the counter has not saturated |
| Runs.PastAttemptsStayRefused | src/engine/runtime.cpp:766-936 | Once an attempt is closed or superseded, no acknowledgement or report naming it is accepted after any later orderly run |
| Runs.ReverifiedAfresh | src/engine/runtime.cpp:810-936 | After any orderly run of events not older than its fence, a fenced instance is verified again only by a later attempt, on evidence observed at or after the fencing |
| FenceTimes.RowsAfter | src/engine/runtime.cpp:107-1315 | On every state and for every event, the rows it leaves were fenced at its instant exactly when it is an accepted coordinator change, the loss or removal of the row's device, a withdrawal decided for it or a plan that replaces it, and otherwise keep the instant they had |
| FenceTimes.FenceMovesExactly | src/engine/runtime.cpp:107-1315 | With unique rows and right lookups, an instance's fence moves back exactly when such an event is older than the fence |
| FenceTimes.ReplacedExactly | src/engine/runtime.cpp:1010-1045 | With right lookups a row is replaced exactly by a planned replica of its name that differs in device or version, or when the row had ended |
| Rewound.FenceMovesBack | src/engine/runtime.cpp:1389-1401 | In every configuration that opens both stores a run fences an instance at instant 1000 on reopening and at instant 7 one event later |
| Runs.ServingExactly | src/engine/runtime.cpp:78-105 | After a refresh an instance serves exactly when it is verified and its device is healthy on current evidence |
| Runs.ServingJustified | src/engine/runtime.cpp:78-105 | A serving instance has a verified last attempt on fresh evidence not older than its fencing, and a healthy device |
| Runs.RefreshTwice | src/engine/runtime.cpp:78-105 | A second refresh at the same clock changes nothing |
| Claims.PlannedClaimsSucceed | src/engine/runtime.cpp:1257-1275 | With grants on current devices, the registry accepts every claim of a plan exactly when every scope has a name, and then holds the planned devices under their scopes and no others |
| Claims.ClaimAllExact | src/engine/authority.cpp:24-59 | A sequence of claims that agree with each other and with the table is refused only for an unnamed scope |
| Ownership.GrantsStayPlaced | src/engine/runtime.cpp:1317-1360 | Grants stay on devices of the topology through an event, unless, and exactly when, a rollback that passes the checks, whose claims and reconciliation go through, claims a device that is gone |
| Stranded.RollbackStrands | src/engine/runtime.cpp:1195-1275 | In every configuration: deploy, lose the device from the topology, roll back, and a grant stands on a device that is not there |
| Ownership.IntentPlacedExactly | src/engine/runtime.cpp:1110-1315 | An accepted intent keeps grants on current devices exactly when every device its plan claims is current |
| Ownership.RemoveDevicesGrants | src/engine/runtime.cpp:509-535 | A new topology releases exactly the grants of removed devices |
| Ownership.RemovedExact | src/engine/runtime.cpp:509-520 | The removed devices are those of the old topology missing from the new one |
| Authority.OneOwner | src/engine/authority.cpp:11-22 | A device never has two grants |
| Authority.ClaimExact | src/engine/authority.cpp:24-59 | A claim fails exactly for a missing identity, a device owned by another scope, or a full table; otherwise it gives the device to the scope and touches no other grant |
| Authority.ReleaseExact | src/engine/authority.cpp:61-68 | A release removes exactly the named grant |
| Authority.ReleaseDeviceExact | src/engine/runtime.cpp:700-741 | Losing a device removes its grant and no other |
| Authority.IssueExact | src/engine/authority.cpp:130-170 | A newly issued token is the only one that validates for its instance; nothing changes for the others |
| Authority.AuthorityRegistry.OwnerOf | src/engine/authority.cpp:11-17 | Finds a device's grant exactly when there is one |
| Authority.AuthorityRegistry.ClaimDevice | src/engine/authority.cpp:24-59 | The registry after a claim is the specified one, or unchanged on a refusal |
| Authority.AuthorityRegistry.ReleaseGrant | src/engine/authority.cpp:61-68 | The registry after a release is the specified one, and it reports whether the scope owned the device |
| Authority.AuthorityRegistry.FenceAll | src/engine/authority.cpp:80-84 | Every grant goes, and their number is reported |
| Authority.FenceIssuer.AdvanceEpoch | src/engine/authority.cpp:96-105 | A lower epoch is refused without effect; any other starts afresh with no token valid |
| Authority.FenceIssuer.IssueToken | src/engine/authority.cpp:130-154 | The issuer's map from instance to serial is the specified one |
| Authority.FenceIssuer.Validate | src/engine/authority.cpp:164-170 | Says exactly whether a token is the instance's current one |
| Eligibility.EligibleExact | src/engine/eligibility.cpp:114-273 | A device is found eligible exactly when its state, evidence, profile, capabilities, scope and resources satisfy the service and the policy, and then nothing is unknown |
| Eligibility.EligibleIffSatisfied | src/engine/eligibility.cpp:252-273 | A verdict is eligible exactly when every finding is satisfied |
| Eligibility.RatioExact | src/core/resources.cpp:170-188 | The permille is exact exactly when the product fits 64 bits, and never too high |
| Eligibility.RatioWraps | src/core/resources.cpp:170-188 | With the widest capacity and one unit asked for the code computes 0 permille, where 999 are free |
| Eligibility.ComputePermille | src/core/resources.cpp:170-188 | The headroom of the scarcest resource, at most one thousand |
| Eligibility.Aggregate | src/engine/eligibility.cpp:252-273 | The loop over findings yields eligibility, the unknown flag and the first blocking reason |
| DependencyGraph.Graph.TopologicalOrder | src/engine/dependency.cpp:70-156 | Succeeds exactly on acyclic induced graphs, with the least of all valid orders; otherwise returns a path along real edges that runs into itself |
| DependencyGraph.Graph.Build | src/engine/dependency.cpp:9-40 | Succeeds exactly on a bounded number of complete edges between different services of which no two agree in source, target and kind; then it holds a permutation of them in ascending order, otherwise it answers the first reason and stays as it was |
| DependencyGraph.BuildGraphExactly | src/engine/dependency.cpp:9-40 | The same of the value, through the comparison being a strict weak order under which repeats stand next to each other |
| DependencyGraph.AdjacentFindsAll | src/engine/dependency.cpp:30-37 | In a sorted list the neighbour test finds a repeat whenever there is one anywhere |
| DependencyGraph.KahnExact | src/engine/dependency.cpp:98-120 | Repeated least choice yields an order in which every prefix respects the edges and every pick is the least possible, until nothing is free |
| DependencyGraph.KahnCanonical | src/engine/dependency.cpp:98-120 | A complete order is canonical and proves the graph acyclic |
| DependencyGraph.CanonicalOrder | src/engine/dependency.cpp:98-120 | The order found precedes every other valid order in dictionary order |
| DependencyGraph.OrderImpliesAcyclic | src/engine/dependency.cpp:98-120 | An order that respects all edges rules out every cycle |
| DependencyGraph.WitnessIsCycle | src/engine/dependency.cpp:122-153 | The reported path follows edges, and its repeated node shows a cycle |
| DependencyGraph.CycleWalk | src/engine/dependency.cpp:122-153 | The walk among unresolved nodes always ends on a node it has visited |
| DependencyGraph.InducedExact | src/engine/dependency.cpp:79-96 | The ordering edges are exactly the non-capability dependencies between the chosen services |
| DependencyGraph.Run | src/engine/dependency.cpp:98-120 | The worklist with in-degrees computes the repeated least choice |
| PlannerSound.FeasiblePlanSound | src/engine/planner.cpp:98-482 | A feasible plan gives every service its replicas on distinct eligible devices, within per-device and per-domain caps and all resources, never mixes owners, and its stages cover the rollout exactly |
| PlannerSound.OrderForExact | src/engine/planner.cpp:238-251 | The order services are placed in is the canonical dependency order of the intent |
| PlannerSound.StagesExact | src/engine/planner.cpp:433-460 | The stages concatenate to the rollout order, each of batch size but the last |
| PlannerSound.PlansSingleOwner | src/engine/planner.cpp:306-425 | No device is planned under two scopes, counting the scopes that already hold it |
| PlannerSound.CandidatesExact | src/engine/planner.cpp:332-362 | The candidates are exactly the selectable devices with their scores |
| PlannerComplete.GreedyComplete | src/engine/planner.cpp:306-425 | A valid single-service intent is refused for want of devices exactly when no selection of the desired size exists, whatever the scores |
| PlannerComplete.PlacementComplete | src/engine/planner.cpp:364-413 | From any usage earlier services left, greedy placement reaches the desired number exactly when a selection of that many devices exists beside what is placed already |
| PlannerComplete.RoomExactly | src/engine/planner.cpp:306-425 | A valid intent of any number of services is refused for want of devices exactly when some service, taken in dependency order, has no selection beside those before it |
| PlannerComplete.FirstPlacement | src/engine/planner.cpp:364-413 | With nothing placed, that is exactly when some selection exists at all |
| Tangled.GreedyMisses | src/engine/planner.cpp:322-425 | Two services with disjoint admissible selections within every rule are refused together, because the first takes the only device of the second |
| PlannerRun.BuildPlanByLoops | src/engine/planner.cpp:98-482 | The loops of the planner produce the specified outcome, and a sound plan when feasible |
| PlannerRun.Validate | src/engine/planner.cpp:135-292 | The checks before placement answer with the first failing one, or with the order and the wanted counts |
| PlannerRun.SortServices | src/engine/planner.cpp:238-251 | The graph's worklist gives the order the planner is specified with |
| PlannerRun.GreedyPlace | src/engine/planner.cpp:375-413 | The candidate loop places what the specification places |
| PlannerRun.TryPlace | src/engine/planner.cpp:375-413 | One candidate is skipped at a cap or for lack of room, otherwise every running total moves |
| PlannerRun.PlaceAll | src/engine/planner.cpp:322-425 | The service loop tries every service, keeps every plan, and answers with the code of the last service that failed |
| PlannerRun.MakeStages | src/engine/planner.cpp:433-460 | The batching loop, refused past the stage bound |
| PlannerRun.CollectOwners | src/engine/planner.cpp:309-314 | The planner's copy of ownership agrees with the registry |
| ApplyRun.ApplyEvent | src/engine/runtime.cpp:1317-1360 | The state object after any event is the specified state, with its code |
| ApplyRun.ApplyIntent | src/engine/runtime.cpp:1110-1315 | An intent installs plan, instances, tokens and grants together, or leaves the state untouched |
| ApplyRun.ApplyTopology | src/engine/runtime.cpp:455-543 | A topology is admitted whole or refused, and removed devices are fenced and released in turn |
| ApplyRun.ApplyEffect | src/engine/runtime.cpp:810-936 | A report's effect on the state object |
| ReconcileRun.Trial.Reconcile | src/engine/runtime.cpp:952-1108 | Working on a trial copy, reconciliation yields the specified table and issuer, every instance in order, and unique rows when lookups are right |
| ReconcileRun.Trial.PlaceReplica | src/engine/runtime.cpp:968-1069 | One planned replica: create, replace, reattempt or keep |
| ReconcileRun.Trial.RetireAll | src/engine/runtime.cpp:1072-1099 | Every uncovered instance of the group is quiesced |
| ReconcileRun.SearchColumn | src/engine/runtime.cpp:38-55 | The binary search over a column, sorted or not, ends where the specified halving ends |
| ReducersRun.AcceptedState.Refresh | src/engine/runtime.cpp:78-105 | The two refresh loops compute the specified health |
| ReducersRun.AcceptedState.Coordinator | src/engine/runtime.cpp:219-250 | A coordinator change on the state object |
| ReducersRun.AcceptedState.DeviceLostAt | src/engine/runtime.cpp:700-741 | A device loss on the state object |
| ReducersRun.AcceptedState.QuiesceService | src/engine/runtime.cpp:743-764 | A quiesce request on the state object |
| ReducersRun.AcceptedState.Remove | src/engine/runtime.cpp:509-535 | Removed devices are fenced and released one after the other |
| ReducersRun.AcceptedState.FenceEvery | src/engine/runtime.cpp:1389-1401 | Every instance is fenced |
| ReducersRun.Fence | src/engine/runtime.cpp:107-130 | Fencing one instance leaves it unverified and fenced at the instant |
| ReducersRun.CancelOpen | src/engine/runtime.cpp:132-143 | After cancelling no attempt is open |
| Runtime.FabricRuntime.Open | src/engine/runtime.cpp:1410-1550 | An opening that goes through, on any store a run left behind, restores, replays, fences and checkpoints: the object is where the protocol is |
| Runtime.FabricRuntime.TryOpen | src/engine/runtime.cpp:1408-1550 | Every answer of open: an object exactly when configuration and store are acceptable, nothing touched for a bad configuration, and otherwise the store as the destroyed runtime leaves it |
| Runtime.RefuseOpen | src/engine/runtime.cpp:1459-1504 | A refused opening does to the store exactly the protocol's refused reopening, whatever of its checkpoint the store accepts |
| Runtime.FabricRuntime.Stage | src/engine/runtime.cpp:1552-1587 | Exactly when each code is answered, the payload digest included, and that only an admitted event changes anything |
| Runtime.FabricRuntime.Release | src/engine/runtime.cpp:1610-1699 | One released event takes exactly the durable steps its window entry and the store's answer call for, and is answered accordingly |
| Runtime.FabricRuntime.Journal | src/engine/runtime.cpp:1650-1682 | An accepted append is followed by exactly one reduction, whose code is the answer |
| Runtime.FabricRuntime.ReleaseAll | src/engine/runtime.cpp:1610-1699 | The release loop adds the specified steps for the whole queue, and tallies one answer per event |
| Runtime.FabricRuntime.Flush | src/engine/runtime.cpp:1589-1757 | A flush is one specified stretch of a run; every released event is answered and counted once, the others stay buffered |
| Runtime.FabricRuntime.StageAll | src/engine/runtime.cpp:1763-1785 | The events admitted, suppressed and refused add up to the batch |
| Runtime.FabricRuntime.Submit | src/engine/runtime.cpp:1759-1804 | A batch is refused exactly when too large; otherwise every event of it and every event released with it is counted exactly once |
| Runtime.FabricRuntime.CheckpointNow | src/engine/runtime.cpp:1925-1939 | A checkpoint succeeds, is refused, or stops between snapshot and journal, and in no case changes what the state stands for |
| Runtime.FabricRuntime.ExactlyOnceHere | src/engine/runtime.cpp:1589-1757 | Between calls the object's log holds each event once, in release order, and is what its store has committed |
| Runtime.ReplayJournal | src/engine/runtime.cpp:1495-1517 | The replay loop skips, drops and reduces exactly the specified records |
| Runtime.RestartState | src/engine/runtime.cpp:1519-1535 | The new authority and the fencing of a recovered state |
| Runtime.TalliedTotal | src/engine/runtime.cpp:1628-1691 | Every answer falls into exactly one counter |
| Delivery.EventStrictWeak | src/model/model.cpp:164-180 | The release comparison is a strict weak order, as sorting needs |
| Delivery.PushBounded | include/dpu/fabric/core/bounded.hpp:79-127 | The bounded history keeps its newest entries and reports how many left |
| Delivery.PushedLast | include/dpu/fabric/core/bounded.hpp:79-127 | The window always is the end of everything delivered |
| Delivery.Lookup | src/engine/runtime.cpp:1562-1572 | The search finds the first receipt of an event's position, if any |
| Deliveries.ScriptRuns | src/engine/runtime.cpp:1552-1757 | Events delivered one per instant from an empty store are journaled in order and lead to the state their deliveries lead to one by one |
| Scenario.DeployedState | src/engine/runtime.cpp:197-1360 | In every acceptable configuration, five deliveries place one instance on one device, with its token and its grant |
| ArchiveCodec.RoundTripExactly | include/dpu/fabric/core/archive.hpp:374-532 | For every schema, a value comes back from its encoding exactly when it is in the domain |
| ArchiveCodec.DecodesOnlyEncodings | include/dpu/fabric/core/archive.hpp:374-532 | Bytes that decode are the encoding of what they decode to |
| ArchiveCodec.PrefixFree | include/dpu/fabric/core/archive.hpp:521-532 | No strict prefix or extension of bytes that decode also decodes |
| ArchiveCodec.EncodingInjective | include/dpu/fabric/core/archive.hpp:374-532 | Different values have different encodings, so digests of encodings tell values apart |
| ArchiveCodec.DecodeEncoded | src/core/archive.cpp:127-285 | Decoding an encoding followed by anything returns the value and leaves what follows |
| ArchiveStream.EncodeBinary | src/core/archive.cpp:14-122 | The writer object produces the specified bytes, which decode to the value |
| ArchiveStream.DecodeBinary | src/core/archive.cpp:127-285 | The reader object answers as the specified decoder, and accepts only encodings |
| ArchiveStream.BinaryReader.GetValue | include/dpu/fabric/core/archive.hpp:374-532 | Reading one value at a position moves exactly over its bytes, and once failed reads nothing more |
| ArchiveStream.BinaryWriter.PutValue | include/dpu/fabric/core/archive.hpp:374-532 | Writing one value appends exactly its encoding |
| Bytes.LittleOfNumber | src/core/archive.cpp:20-31 | Little-endian bytes are determined by the number they spell |
| Bytes.NumberOfLittle | src/core/archive.cpp:155-169 | Reading back written bytes gives the number modulo its width |
| Store.TornTailExact | src/persist/store.cpp:379-441 | Cutting a journal anywhere keeps exactly the records wholly before the cut, keeps the file to the last frame boundary, and reports a torn tail exactly when the cut is inside a frame |
| Store.LoadTwice | src/persist/store.cpp:379-441 | What a load keeps loads again cleanly, with the same records, whatever the bytes |
| Store.LoadAppend | src/persist/store.cpp:453-480 | Appending to a clean journal appends one record to what a load returns |
| Store.SnapshotWholeOrRefused | src/persist/store.cpp:332-377 | A snapshot file cut anywhere is refused, empty or whole, and never misread |
| Store.LoadJournal | src/persist/store.cpp:379-441 | The frame loop returns what the specification returns |
| Store.Files.Append | src/persist/store.cpp:453-480 | A record is added whole exactly when it fits record and journal bounds, otherwise nothing changes |
| Store.Files.ReplaceSnapshot | src/persist/store.cpp:482-509 | The new snapshot loads back as its payload, or the old one stays |
| Store.Files.Recover | src/persist/store.cpp:318-441 | After a crash in an append the object stands for what a load keeps, counting the bytes of the uncut file and no records; a refused load changes nothing |
| Hasher.HashChunks | src/core/digest.cpp:84-199 | However a message is cut into updates, the digest is the hash of the whole by sections 5.1.1 and 6.2 of FIPS 180-4 |
| Hasher.Hasher.Update | src/core/digest.cpp:135-152 | Everything is absorbed in order, however buffered, until the digest was taken; then nothing changes any more |
| Hasher.Hasher.Finish | src/core/digest.cpp:159-185 | Padding and length complete the message to the standard's digest; a second call gives the zero digest |
| Hasher.Hasher.CompressBuffer | src/core/digest.cpp:88-133 | Schedule and rounds are the standard's compression of the block |
| Hasher.Expand | src/core/digest.cpp:88-100 | The expanded words are the standard's message schedule |
| Hasher.LengthWraps | src/core/digest.cpp:135-180 | Counting bytes and bits in 64 bits loses nothing the length field keeps |
| Sha256.LengthFieldExact | src/core/digest.cpp:159-180 | The length field holds the bit length exactly while it fits 64 bits |
| Sha256.AbsorbSplits | src/core/digest.cpp:135-152 | Absorbing blocks in two parts is absorbing them at once |
| JsonCodec.PrintParseExactly | src/core/json.cpp:353-415 | A value comes back from its compact or pretty text exactly when it is printable (unique names, depth, integer width) and the text is within the bound |
| JsonCodec.Normalised | src/core/json.cpp:14-292 | Printing what was parsed and parsing it again changes nothing |
| JsonCodec.ParsedPrintable | src/core/json.cpp:14-292 | The parser accepts only printable values |
| JsonCodec.EscapeRound | src/core/json.cpp:324-351 | Every byte string comes back from its escaped form |
| JsonCodec.NumberRound | src/core/json.cpp:83-135 | Every 64-bit integer of at most nineteen characters comes back from its text |
| JsonText.ParseJson | src/core/json.cpp:412-415 | The parser object answers as the specified parser |
| JsonText.Parser.ReadValue | src/core/json.cpp:41-72 | Refuses past the nesting bound, dispatches on the first character, moves over what it read |
| JsonText.Parser.ReadArray | src/core/json.cpp:265-292 | The element loop |
| JsonText.Parser.ReadObject | src/core/json.cpp:221-263 | The member loop, refusing repeated names |
| JsonText.Parser.ReadBody | src/core/json.cpp:160-219 | The string loop with all escapes and surrogate pairs |
| JsonText.Parser.ReadNumber | src/core/json.cpp:83-135 | Digits, their count and their range |
| JsonText.ToText | src/core/json.cpp:353-410 | The writer's text parses back whenever the value is printable |
| JsonText.EscapeText | src/core/json.cpp:324-351 | The escaped text parses back to the bytes |

## Left out

- Byte-level contents of the store inside the protocol: `Protocol` works on decoded events and states, and takes from `Reader` which files load and decode; that frames, archives and torn tails give them back is proved separately in `Store` and `ArchiveCodec`.
- File locks, directory creation, `fsync` and real I/O errors; an append that fails after writing some bytes is treated like a crash, as a torn tail, and not as a refusal that leaves bytes behind.
- A runtime without a store directory, and the answers of calls after `close`. A `close` itself is a checkpoint followed by the end of the process, which runs contain.
- Decisions, explanations, the truncation ledger, recovery classifications and the state digests: they record what happened and decide nothing.
- Report details of `flush` and `submit`: the `primary` code and the sorting of merged outcomes; answers and counters are modelled.
- Mutexes and concurrent callers: every public call holds one lock for its whole length, so a run is a sequence of calls.
- The JSON archive visitors and their stacks (src/core/archive.cpp:291-735): they walk the schema the way the binary ones do.
- Transport, command line tools, examples and benchmarks: no behaviour beyond the calls modelled here.
- Policy and plan digests, and collisions of the identity hash or the event digest: the hashes are parameters, no injectivity is assumed, and two replicas with one identity count as one.
- A rollback intent without a target: reading the absent target is undefined in the source, so the model's rollback carries its target.
- Version comparison, firmware levels and validation of identity texts (src/core/resources.cpp:8-104): compared, never changed, by what is modelled.
- Runs.PastAttemptsStayRefused: requires attempt counters that have not saturated, the condition `Runs.NumbersDistinctExactly` shows to be exact, and an orderly run: it names an instance by its identity, and a second row of that identity starts counting at one again (`Table.ReconcileDoubles`).
- Runs.ReverifiedAfresh: an orderly run for the same reason, events not older than the fence, since `Rewound.FenceMovesBack` shows that older ones move it back, and one process, since `Revived.StaleEvidenceVerifies` shows what a restart lets through.
- Restarts.OldAuthorityStaysDead: requires the same advancing reopenings as the next line.
- Restarts.SpentTokensStayDead: requires reopenings that advance the boot incarnation, the condition `Restarts.RestartAdvancesExactly` and `Restarts.WreckedBootExactly` show to be exact.
- PlannerComplete.GreedyComplete: for intents with one service; `Tangled.GreedyMisses` shows that it does not hold for two, and `PlannerComplete.RoomExactly` says what does.
- FenceTimes.FenceMovesExactly: requires unique rows and right lookups, since it speaks of an instance by its identity; `FenceTimes.RowsAfter` is the form by rows, for every state. It is about events; reopenings are in `Reopening.ReopeningExactly`.
- Reopening.ReopenedAgainstLive: requires a journal that reproduces the state, the condition `Reproduce.RecoveryReproducesState` shows to be exact; `Reopening.ReopeningExactly` needs none.
- Runtime.FabricRuntime.Open: models the checkpoint that goes through; when it fails, `open` returns its error and the runtime is destroyed, which is a crash of the recovering process or one more checkpoint before it, and runs contain both.
