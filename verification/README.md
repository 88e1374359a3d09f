# A verified model of omatorrent-service

`omatorrent-service` mirrors a qBittorrent backend, lets clients subscribe to the mirror, runs
mutations against the backend and can switch backends while running. This project models its
state machines and its wire layer in Dafny 4.11 and proves what they are for. To verify it, use
`dafny verify dfyconfig.toml`.

## How it is built

Each lock-protected section of the Go code is a function on values (`SyncSpec`, `MutateSpec`,
`ConnectionSpec`, the functions in `Connections` and `MutationClient`). The objects that the
program updates in place are classes (`Syncing.Syncer`, `Mutating.Mutator`, `Managing.Manager`,
`Connections.ConnIO`, `Framing.Reader`, `MutationClient.Client`) whose methods, loops included,
are proved to do what those functions say. The run modules (`SyncRuns`, `MutateRuns`,
`ConfigureRuns`, `Delivery`) take the same functions as steps, interleave them freely with each
other, with backend calls and with unlocked reads, and prove properties of every reachable state
of every run. History variables (what a backend held when it answered, every event published,
every ring append, the log of accepted calls) exist only to state these properties. Three
theorems tie the readings together: stepping a cycle, a `Submit` or a `Configure` alone through
the interleaved machine ends exactly where the class method is proved to end
(`SyncRuns.UndisturbedCycle`, `SubmitRuns.UndisturbedSubmit`, `ConfigureRuns.UndisturbedConfigure`).

- **Syncer.** A backend answers with a field-level diff only when asked with its session's last
  rid, otherwise with a full update; replies get lost, payloads are garbled, backends restart,
  switches fall anywhere inside a cycle. The committed map is always the normalised full map the
  current epoch's backend held when it answered; a subscriber's snapshot with its events replayed
  is the committed map; generations and events obey one law; parking is final until a switch; the
  backend is shown as up exactly when the last cycle of the epoch committed.
- **Mutator.** A known ref never registers, so registrations of one ref lie more than RingSize
  appends apart, and so do their backend calls unless the older entry left the table before its
  call; the cap, the epoch of every entry, at most one result per mutation, what becomes of every
  registered mutation, which backend's state its validation and its settlement rest on, what a known
  ref is told again, and which map confirms which action.
- **Configure.** Any number of interleaved calls is a serial run of the accepted ones, each deciding
  for itself on what its predecessors left; a refused call is the identity; manager, syncer and
  mutator agree whenever the drain is free; every accepted request met the transport, secret and
  trust policy, and what is active is what the last one asked for.
- **Delivery.** `Delivery` runs on top of the whole syncer machine: channel, forwarder, snapshot
  sender, pump, queue and writer. What a client reads is a prefix of the ideal stream, nothing is
  lost before the queue is shut, each event boundary is a committed map, an open connection at rest
  is up to date, and the socket is closed after the last frame exactly when no write failed.
- **Wire.** Delta splitting and the shrinking encoders, with length formulas that are proved to be
  the byte lengths of the JSON texts, framed reading for any chunking, and the request grammar as
  one table and as one plain description of the requests there are.
- **Panel and dashboard.** Frame-order independence with its exact bound, rejected and replayed
  requests, and an aggregate with the exact condition under which map iteration order cannot show.

The reference functions carry the branches of the code. What they decide is stated a second time on
plain fields, in the methods' own contracts and over the runs (`CycleLeaves`, `AnswersKnown`,
`AnswersNew`, `PassLeaves`, `AnswersWhy`, `Understood`, `Fastest` and their like).

## Where a stronger claim fails

- A delta frame can be impossible where the snapshot frame of the same torrent is possible: the
  delta encoder has no name halving (`Encoders.DeltaCanFailWhereSnapshotFits`). `Deltas.EncodeDeltas`
  states exactly when it fails. The comment at
  omatorrent-service/internal/ipc/protocol.go:526-529 calls the halving of snapshot names pure
  defence and says that the worst case fits; `Encoders.HalvingIsNeeded` gives a torrent that does
  not fit whole. The model follows the code.
- A client is not always told that its stream ended. When a write fails the writer closes the queue
  and returns, and nothing on that path closes the socket
  (omatorrent-service/internal/ipc/server.go:819-833 and 867-876): the frames still queued are lost
  on an open socket. `WriterFates.SubscriberLeftHanging` is such a run and `WriterFates.WriterFate` says
  exactly when it happens.
- Saturating sums can depend on the order in which the map is ranged over
  (`Dashboards.NegativeSizesDependOnOrder`). `Saturation.TotalsNeverVaryExactly` gives the exact
  condition; non-negative sizes always meet it (`Saturation.NonNegativeIsHarmless`).
- The remaining bytes of a torrent whose completed count is the least 64-bit integer are counted as
  negative, because the negation at omatorrent-service/internal/state/dashboard.go:96 wraps there and
  only there (`Saturation.LeftTermIsTheDifference`).
- Sixteen new foreign result ids between an early result and its acceptance evict the result, and
  the overlay then stays; fewer never do (`MutationClient.ResultFirst` is an equivalence).
- The version probes read the backend field without the lock
  (omatorrent-service/internal/state/syncer.go:490-491). Committed versions are still always
  those of the current epoch, because the epoch is checked at the commit
  (`SyncRuns.VersionsAreOfThisEpoch`).
- An accepted mutation can end without any result. The section after a failed backend call deletes
  whatever is in flight under its ref (omatorrent-service/internal/mutate/mutator.go:425), and once
  the ring forgot the ref that can be a later attempt's entry.
  `ForgottenRef.AcceptedWithoutResult` is such a run for any limits;
  `MutationFates.AcceptedFate` says that this is the only way and needs more than RingSize appends
  since the failed call registered.
- Two backend calls under one ref can follow each other at once. A Submit that stalls between its
  registration and its call (omatorrent-service/internal/mutate/mutator.go:414-421) can find its
  entry settled and its ref forgotten meanwhile; a second Submit then calls, and the first one
  after it. `ForgottenRef.CalledTwiceAtOnce` is such a run for any limits;
  `CallDistances.CalledApart` says that calls are more than RingSize appends apart whenever the
  older registration's entry was still in the table at its call, and `CallDistances.CalledTooLate`
  what had become of it otherwise.
- A mutation can be validated against one backend and sent to another. `Submit` reads the committed
  state without the lock, and the drain check at its registration
  (omatorrent-service/internal/mutate/mutator.go:387-393) does not see a switch that began and
  ended in between, contrary to omatorrent-service/internal/mutate/mutator.go:220-223,
  omatorrent-service/internal/connection/manager.go:718-719 and docs/SECURITY.md:70.
  `MutationEpochs.SentToTheOther` is such a run for any limits and backend;
  `MutationEpochs.ValidatedOnItsOwn` is the exact condition: no syncer switch between the read and
  the registration.
- A mutation can be confirmed by a state of another backend. `reconcile` reads the committed state
  before its lock (omatorrent-service/internal/mutate/mutator.go:514-517), and the epoch check at
  line 520 compares the entry with the mutator, not with that state.
  `MutationEpochs.ConfirmedByTheOther` is such a run; `MutationEpochs.SettledOnItsOwn` is the exact
  condition: no syncer switch between the read and the locked section.

## Model

| member | source | states |
|---|---|---|
| `Torrents.ApplyPartial` | omatorrent-service/internal/state/syncer.go:626-661 | Each field of the result is the one the object carries, else the old one; state, eta and category are shown as `StateIs`, `EtaIs` and `CategoryIs` say of the carried value; this is the field merge. |
| `Torrents.MergeWhole` | omatorrent-service/internal/state/syncer.go:616-661 | A complete wire object merged into the zero torrent is exactly the normalised form of the backend object. |
| `Torrents.MergeExplains` | omatorrent-service/internal/state/syncer.go:626-661 | If a partial object carries every field that changed and only current values, merging it into the normalised old object gives the normalised new object: normalisation commutes with the diff. |
| `Torrents.MergeApplies` | omatorrent-service/internal/state/syncer.go:626-661 | The field merge, read field by field: no field takes another one's value, an eta above 8640000 shows as that, a category is cut at 128. |
| `Torrents.NormalizedStateIs` | omatorrent-service/internal/state/syncer.go:666-685 | Which of qBittorrent's state words each normalised state stands for, and that no other word gives it. |
| `SyncSpec.ApplyChangedIs` | omatorrent-service/internal/state/syncer.go:438-477 | Replaying changed items that agree with one target map overlays exactly their part of it, in whatever order they are listed. |
| `SyncSpec.ReplayAllAppend` | omatorrent-service/internal/state/syncer.go:600-613 | Replaying a concatenation of events is replaying one list after the other. |
| `Syncing.Syncer.constructor` | omatorrent-service/internal/state/syncer.go:178-191 | A new syncer has epoch 0, the loading state, no subscriber and rid 0. |
| `Syncing.Syncer.PublishToSubs` | omatorrent-service/internal/state/syncer.go:600-613 | One event reaches every subscriber whose 64-slot channel has room; the others are closed and forgotten, nobody else changes. |
| `Syncing.Syncer.SwitchBackend` | omatorrent-service/internal/state/syncer.go:213-246 | The whole new guarded state of a switch, field by field (down, empty, loading, counters and versions cleared, one epoch and one generation on), and an event that takes the old torrent map to the empty one (none only if it was empty already). |
| `Syncing.Syncer.Listed` | omatorrent-service/internal/state/syncer.go:215-218 | The removed list of a switch names exactly the hashes of the old map. |
| `Syncing.Syncer.Subscribe` | omatorrent-service/internal/state/syncer.go:266-284 | The snapshot is the committed state of the very moment of registration; the new channel is empty and new. |
| `Syncing.Syncer.Cancel` | omatorrent-service/internal/state/syncer.go:276-283 | Cancelling removes that subscriber and no other, and may be repeated. |
| `Syncing.Syncer.NoteAuthFailure` | omatorrent-service/internal/state/syncer.go:525-540 | Only the three credential faults count, by one each; the syncer parks exactly when the third is counted. |
| `Syncing.Syncer.CommitDegradedEpoch` | omatorrent-service/internal/state/syncer.go:566-583 | In its own epoch it shows the backend down, with the fault's class, no speeds and no free space, clears rid and probe flag and keeps the last good data; in a past epoch it changes nothing. |
| `Syncing.Syncer.CommitCycle` | omatorrent-service/internal/state/syncer.go:501-519 | A cycle of a past epoch changes nothing and publishes nothing; otherwise state and rid become the draft and the published event takes the old map to the new one. |
| `Syncing.Syncer.Cycle` | omatorrent-service/internal/state/syncer.go:358-520 | A whole undisturbed cycle: it succeeds exactly when not parked, logged in where needed, answered and readable. Failed: backend shown down, zero speeds, no free space, the ending fault's class, rid 0, last good data kept. Succeeded: each shown number from the answer or kept, versions as probed, rid of the answer, an event unless there is nothing to say. The auth count is that since the last login. |
| `SyncSpec.CycleShows` | omatorrent-service/internal/state/syncer.go:358-583 | The cycle's reference function does what `CycleLeaves` says on the fields, and succeeds exactly under the plain conditions. |
| `Syncing.Syncer.FinishCycle` | omatorrent-service/internal/state/syncer.go:407-519 | The part of a cycle after the answer: decodes all or nothing, merges the server state, probes versions when due, commits. |
| `Syncing.MergeServerState` | omatorrent-service/internal/state/syncer.go:465-485 | Only server fields present in the answer update the draft. |
| `Syncing.BuildNext` | omatorrent-service/internal/state/syncer.go:407-463 | From the payload both the next map and an event whose replay on the old map gives that next map; rejects exactly the undecodable payloads; on a full update the event is exactly the difference. |
| `Syncing.DecodeFull` | omatorrent-service/internal/state/syncer.go:413-427 | A full update rebuilds the map from scratch, or rejects the whole payload on one bad hash or object. |
| `Syncing.DecodeDelta` | omatorrent-service/internal/state/syncer.go:439-455 | A delta overlays its entries on the previous map, or rejects the whole payload. |
| `Syncing.DeleteListed` | omatorrent-service/internal/state/syncer.go:456-461 | Listed hashes that exist are deleted and reported, others are ignored. |
| `Syncing.Missing` | omatorrent-service/internal/state/syncer.go:428-432 | Exactly the hashes of the old map that the full update no longer has. |
| `Syncing.Differing` | omatorrent-service/internal/state/syncer.go:433-437 | Exactly the items of the full update that are new or differ. |
| `Syncing.DifferenceReplays` | omatorrent-service/internal/state/syncer.go:428-437 | The full-update event, replayed on the old map, is the rebuilt map. |
| `Syncing.DeltaReplays` | omatorrent-service/internal/state/syncer.go:440-461 | The delta event, replayed on the old map, is the patched map, whatever hash appears both as changed and removed. |
| `SyncRuns.DeltaIsFullFetch` | omatorrent-service/internal/state/syncer.go:440-461 | A field-level delta against the committed map yields the normalised current map of the backend. |
| `SyncRuns.FullIsFullFetch` | omatorrent-service/internal/state/syncer.go:415-429 | A full update yields the normalised current map. |
| `SyncRuns.AnswerIsFullFetch` | omatorrent-service/internal/state/syncer.go:407-461 | Any honest answer, full or delta, to the committed rid yields the normalised full map the backend holds. |
| `SyncRuns.InvStep` | omatorrent-service/internal/state/syncer.go:358-583 | Every step of every actor keeps the whole invariant: capture, session, draft, versions, auth, history, views. |
| `SyncRuns.DraftFromAnswer` | omatorrent-service/internal/state/syncer.go:358-520 | A cycle about to commit in its own epoch carries the map of its own answer, and no backend answered and nothing switched since. |
| `SyncRuns.CommittedIsAFullFetch` | omatorrent-service/internal/state/syncer.go:358-520 | In every reachable state the committed torrents are empty with rid 0, or the normalised full map this epoch's backend held when it answered a cycle of this epoch; the rid is that answer's or 0. |
| `SyncRuns.CommitEqualsFullFetch` | omatorrent-service/internal/state/syncer.go:501-519 | After each successful commit map and rid are those of the answer to that very cycle. |
| `SyncRuns.VersionsAreOfThisEpoch` | omatorrent-service/internal/state/syncer.go:486-499 | Versions shown were answered in the epoch that shows them, though the probe reads the backend field unlocked. |
| `SyncRuns.ReplayPast` | omatorrent-service/internal/state/syncer.go:600-613 | A stretch of published events leads from the map committed before it to the map committed after it. |
| `SyncRuns.SubscriberView` | omatorrent-service/internal/state/syncer.go:266-284 | Snapshot plus every event ever put in the channel is the current map while registered and an earlier committed map once dropped; what was not taken waits in the channel. |
| `SyncRuns.EventsInSequence` | omatorrent-service/internal/state/syncer.go:594-613 | A subscriber gets consecutive published events, and published numbers strictly increase over the run. |
| `SyncRuns.GenerationLaw` | omatorrent-service/internal/state/syncer.go:501-583 | The generation grows by one per switch and per commit that goes through, by nothing for a degraded or stale commit; only those publish; the epoch counts switches. |
| `SyncRuns.AtMostThreeAuthFailures` | omatorrent-service/internal/state/syncer.go:525-540 | Within an epoch, since the last successful login, at most three cycles ended in an auth-class failure. |
| `SyncRuns.ParkedIsQuiet` | omatorrent-service/internal/state/syncer.go:374-403 | Once parked no step calls a backend and nothing but a switch unparks. |
| `CycleEnds.ShowsLastEnding` | omatorrent-service/internal/state/syncer.go:501-583 | In every reachable state the backend is shown as up if and only if the last cycle that ended in this epoch committed; otherwise the shown fields tell the fault it ended with, or that none ended yet. |
| `CycleEnds.LoginUnlessCommitted` | omatorrent-service/internal/state/syncer.go:358-405 | An unparked cycle logs in first unless the last one of the epoch committed, and then asks with the rid of that very answer. |
| `SyncRuns.DecodedEventIsTaken` | omatorrent-service/internal/state/syncer.go:407-463 | Any event that describes an honest answer, as the decoded one does, is one the interleaved machine takes. |
| `SyncRuns.UndisturbedCycle` | omatorrent-service/internal/state/syncer.go:358-520 | Stepping the interleaved machine through one undisturbed cycle ends in the core state, the published event and the subscriber channels that the method Cycle is proved to leave: the two readings of the code agree. |
| `MutateSpec.AppendKeepsTail` | omatorrent-service/internal/mutate/mutator.go:612-619 | Appending to the ring keeps it the tail of the append history. |
| `MutateSpec.RingIsTail` | omatorrent-service/internal/mutate/mutator.go:612-619 | After any number of appends the ring is the last min(n, RingSize) records, oldest first. |
| `MutateSpec.ReconcilePartition` | omatorrent-service/internal/mutate/mutator.go:513-549 | The old in-flight table is the disjoint union of survivors and settled entries; survivors are current, unmet and in time; each settled entry has one result; confirmed implies a backend-OK state that meets the intent. |
| `MutateSpec.SubmitIsGuarded` | omatorrent-service/internal/mutate/mutator.go:333-421 | A request reaches a backend exactly when its ref is unknown, no drain is held, the table has room and the state validates it; then it is the current backend; a known ref changes nothing. |
| `MutateSpec.SubmitLeavesItsTrace` | omatorrent-service/internal/mutate/mutator.go:386-436 | An accepted call leaves one number and one entry, a refused one a number and no entry, a request that never got there neither. |
| `Mutating.Mutator.constructor` | omatorrent-service/internal/mutate/mutator.go:205-218 | A new mutator has epoch 0, nothing in flight and an empty ring. |
| `Mutating.Mutator.BeginSwitch` | omatorrent-service/internal/mutate/mutator.go:224-235 | A drain starts exactly when none is held and nothing is in flight; nothing else changes. |
| `Mutating.Mutator.CommitSwap` | omatorrent-service/internal/mutate/mutator.go:239-245 | The swap releases the drain, takes the backend and bumps the epoch by one. |
| `Mutating.Mutator.AbortSwitch` | omatorrent-service/internal/mutate/mutator.go:248-252 | Aborting only releases the drain. |
| `Mutating.Mutator.LookupRefLocked` | omatorrent-service/internal/mutate/mutator.go:307-327 | A known ref is answered: its acceptance while in flight, else what its oldest record says; a request with another action, delete flag or target (magnet for an add, hash otherwise) is a conflict. |
| `Mutating.Mutator.AppendRingLocked` | omatorrent-service/internal/mutate/mutator.go:612-619 | The in-place shift of the array leaves the ring without its oldest record and with the new one last. |
| `Mutating.Mutator.EarlyCheck` | omatorrent-service/internal/mutate/mutator.go:336-351 | A known ref or a full table answers at once and changes nothing. |
| `Mutating.Mutator.Register` | omatorrent-service/internal/mutate/mutator.go:386-414 | Drain, ref and cap are checked in the section that registers; the backend and epoch handed on are the current ones. |
| `Mutating.Mutator.RecordFailure` | omatorrent-service/internal/mutate/mutator.go:423-431 | A failed backend call removes the entry under its ref and records the rejection. |
| `Mutating.Mutator.Reject` | omatorrent-service/internal/mutate/mutator.go:481-487 | A stage-one rejection is recorded under its ref without looking it up again. |
| `Mutating.Mutator.Submit` | omatorrent-service/internal/mutate/mutator.go:333-436 | With nothing beside it, on the lower-cased hash: a known ref changes nothing and is answered from memory as `AnswersKnown` says; a new one is judged as `AnswersNew` says (busy, the reason it does not fit the state, the backend's refusal, or accepted with the next number), with the whole new table. |
| `MutateSpec.LoweredIs` | omatorrent-service/internal/mutate/mutator.go:334-334 | Lower-casing maps the letters A to Z and nothing else. |
| `MutateSpec.LookupAnswers` | omatorrent-service/internal/mutate/mutator.go:307-327 | The answer to a known ref, in terms of the request's fields and the oldest record of its ref. |
| `MutateSpec.ValidateIsFit` | omatorrent-service/internal/mutate/mutator.go:353-378 | A request passes exactly when the backend is up and the map has (or for an add lacks) its torrent; otherwise each reason is given exactly in its own case. |
| `MutateSpec.SubmitAnswers` | omatorrent-service/internal/mutate/mutator.go:333-436 | What Submit answers and keeps, for known and new refs. |
| `MutateSpec.SubmitTwice` | omatorrent-service/internal/mutate/mutator.go:307-436 | The same request sent once more gets the same answer, another wish under its ref a conflict; neither reaches the backend or changes the table. Only an answer of busy is not remembered. |
| `Mutating.Mutator.Judge` | omatorrent-service/internal/mutate/mutator.go:519-540 | One entry is confirmed exactly when it is of the epoch, the backend is up and the map shows its action done (paused, present and not paused, present, absent); else it times out exactly when orphaned or past its deadline. |
| `Mutating.Mutator.Reconcile` | omatorrent-service/internal/mutate/mutator.go:517-543 | For any iteration order: an entry leaves the table exactly when confirmed or timed out by `Confirms` and `TimesOut`, with that one result and one record; the others stay as they are. |
| `MutateSpec.IntentIsEvident` | omatorrent-service/internal/mutate/mutator.go:553-576 | The intent test action by action on the torrent map. |
| `MutateSpec.ReconcileLeaves` | omatorrent-service/internal/mutate/mutator.go:513-549 | One pass, entry by entry: who stays, who leaves, and with which result. |
| `MutateRuns.InvStep` | omatorrent-service/internal/mutate/mutator.go:333-549 | Every step of any number of submits, the reconciler, drains and state changes keeps the invariant. |
| `MutateRuns.AtMostOncePerRef` | omatorrent-service/internal/mutate/mutator.go:307-436 | No registration makes two calls, and the registrations of two calls under one ref lie more than RingSize ring appends apart; how far apart the calls themselves are is `CallDistances.CalledApart`. |
| `MutateRuns.KnownRefNeverRegisters` | omatorrent-service/internal/mutate/mutator.go:386-405 | The registration section never registers a ref that is in flight or in the ring. |
| `MutateRuns.RingIsHistoryTail` | omatorrent-service/internal/mutate/mutator.go:612-619 | In every reachable state the ring is the tail of everything ever appended. |
| `MutateRuns.InFlightSafety` | omatorrent-service/internal/mutate/mutator.go:386-421 | The cap holds, a drain excludes in-flight work, every entry is of the current epoch and backend, in-flight numbers are distinct and never reused. |
| `MutateRuns.OrphanBranchUnreachable` | omatorrent-service/internal/mutate/mutator.go:519-530 | What reconcile settles is never an orphan: it is confirmed or overdue. |
| `MutateRuns.OneResultPerMutation` | omatorrent-service/internal/mutate/mutator.go:545-549 | Each mutation number is published at most once. |
| `MutateRuns.ConfirmedIsJustified` | omatorrent-service/internal/mutate/mutator.go:553-576 | A confirmed result is justified by a committed backend-OK state that met the intent. |
| `MutateRuns.CallsUseCapturedBackend` | omatorrent-service/internal/mutate/mutator.go:406-421 | Each backend call goes to the backend captured at its registration. |
| `MutationFates.FailureTakesAnother` | omatorrent-service/internal/mutate/mutator.go:423-431 | The section after a failed call removes the entry of another mutation exactly when its ref is in flight under another number; that one is a later mutation, registered more than RingSize appends after the failed one. |
| `MutationFates.FateStep` | omatorrent-service/internal/mutate/mutator.go:333-549 | In one step a mutation in flight stays, is settled or is dropped; one that left the table never comes back and gets no other fate. |
| `MutationFates.Fate` | omatorrent-service/internal/mutate/mutator.go:333-549 | Every registered mutation is at every moment exactly one of: in flight, settled with its result, dropped by a failure section. |
| `MutationFates.AcceptedFate` | omatorrent-service/internal/mutate/mutator.go:423-436 | A mutation whose backend call succeeded is neither in flight nor given a result if and only if the failure section of an earlier call under its ref dropped it, more than RingSize appends after that call registered. |
| `MutationFates.GoneForGood` | omatorrent-service/internal/mutate/mutator.go:513-549 | What is neither in flight nor settled never gets a result. |
| `ForgottenRef.AcceptedWithoutResult` | omatorrent-service/internal/mutate/mutator.go:423-431 | For any limits a reachable run in which a client is told that a mutation is accepted and the mutation gets no result. |
| `CallDistances.CalledApart` | omatorrent-service/internal/mutate/mutator.go:386-436 | Of two backend calls under one ref the one registered first is made first and more than RingSize appends earlier, unless its entry had left the in-flight table before it was made. |
| `CallDistances.CalledTooLate` | omatorrent-service/internal/mutate/mutator.go:414-421 | A call made after its entry left the table belongs to a mutation already settled, or dropped by a failure section. |
| `ForgottenRef.CalledTwiceAtOnce` | omatorrent-service/internal/mutate/mutator.go:386-421 | For any limits a reachable run with two backend calls under one ref and no append between them: the ref was settled and forgotten before its first registration called. |
| `MutationEpochs.ValidatedOnItsOwn` | omatorrent-service/internal/mutate/mutator.go:355-414 | Every registered mutation passed validation against the committed state its own Submit read; that state is of the epoch and backend it runs on if and only if the syncer did not switch between the read and the registration. |
| `MutationEpochs.SettledOnItsOwn` | omatorrent-service/internal/mutate/mutator.go:513-549 | Every settlement, a confirmation included, rests on the state read at the start of its pass; that state is of the epoch and backend its mutation ran on if and only if the syncer did not switch between the read and the locked section. |
| `MutationEpochs.SentToTheOther` | omatorrent-service/internal/mutate/mutator.go:355-421 | For any limits and any new backend a reachable run in which a removal validated on the old backend is sent to the new one, which never showed the torrent, and answered as accepted. |
| `MutationEpochs.ConfirmedByTheOther` | omatorrent-service/internal/mutate/mutator.go:513-549 | For any limits and any new backend a reachable run in which a removal on the new backend is confirmed by the old backend's state while the new one still shows the torrent. |
| `SubmitRuns.UndisturbedSubmit` | omatorrent-service/internal/mutate/mutator.go:333-436 | Stepping the interleaved machine through one undisturbed submit gives the table, answer and call that the method Submit is proved to give. |
| `Answers.KnownRefIsToldAgain` | omatorrent-service/internal/mutate/mutator.go:307-405 | In every run, either section that finds a ref known answers by what became of the request that made it known: the same wish is told its number, its code or its own mutation's result again, another wish a conflict. |
| `Answers.ConfirmedWasShown` | omatorrent-service/internal/mutate/mutator.go:513-576 | A published confirmation is about its own request's action and torrent, and a committed state of a live backend showed that action done on the map. |
| `Answers.ShownIsConfirmed` | omatorrent-service/internal/mutate/mutator.go:513-549 | Conversely every entry a pass meets is confirmed in it if and only if the state read shows a live backend and the action done; else it times out if and only if its deadline passed. |
| `Managing.StoreFile.Write` | omatorrent-service/internal/connection/manager.go:694-697 | The profile file as one cell: a failed write changes nothing. |
| `Managing.SecretCell.Set` | omatorrent-service/internal/connection/manager.go:679-691 | The secret as one cell: a failed operation changes nothing. |
| `Managing.Manager.constructor` | omatorrent-service/internal/connection/manager.go:137-161 | The manager starts at epoch 0 over the given store, secret, syncer and mutator. |
| `Managing.Manager.Configure` | omatorrent-service/internal/connection/manager.go:550-758 | One call activates exactly under the conditions of `AnswersWhy`, which names for each refusal when it is the answer; activated means an admissible request (safe or acknowledged transport, known secret intent, legal trust), and the active and stored profile, certificate, secret, client and epochs are those it asked for; a refused call whose undo writes succeed leaves everything as it was. |
| `ConnectionSpec.PureIsAdmissible` | omatorrent-service/internal/connection/manager.go:555-576 | The checks on the request alone pass exactly the admissible requests; insecure HTTP is named exactly when another host is reached by plain HTTP without acknowledgement. |
| `ConnectionSpec.ObstacleSaysWhy` | omatorrent-service/internal/connection/manager.go:550-712 | For each answer the exact condition on request, state and failing operations. |
| `ConnectionSpec.DecisionReflects` | omatorrent-service/internal/connection/manager.go:474-646 | What a call decides on is what its request says, with the offered certificate of its fingerprint or the active profile's own. |
| `Managing.Manager.Activation` | omatorrent-service/internal/connection/manager.go:722-739 | The commit: syncer switched, manager fields set, mutator swapped, all to the same client and one epoch on. |
| `Managing.Manager.Prepare` | omatorrent-service/internal/connection/manager.go:604-711 | Snapshots, trust resolution, secret, file and client: the first failure decides the code, and is undone in full. |
| `Managing.Manager.Undo` | omatorrent-service/internal/connection/manager.go:777-814 | The rollbacks restore exactly what this call changed. |
| `ConfigureRuns.ExclusionStep` | omatorrent-service/internal/mutate/mutator.go:224-252 | Every step keeps at most one holder of the drain. |
| `ConfigureRuns.HolderStep` | omatorrent-service/internal/connection/manager.go:614-739 | Each step of the holder keeps an exact account of what it changed of the serial state and that its snapshots suffice to go back. |
| `ConfigureRuns.ReleaseStep` | omatorrent-service/internal/connection/manager.go:588-739 | Releasing by abort leaves the serial state, by commit the serial state and one more call. |
| `ConfigureRuns.InvStep` | omatorrent-service/internal/connection/manager.go:550-758 | Every step of any number of interleaved calls keeps the invariant. |
| `ConfigureRuns.Serialisable` | omatorrent-service/internal/connection/manager.go:550-758 | Whenever the drain is free, file, secret, profile, epoch and client are what the accepted calls, run one after another in release order and each deciding on the profile it then finds, leave; none of them is refused there. |
| `ConfigureRuns.DecidedUnderTheDrain` | omatorrent-service/internal/connection/manager.go:643-671 | Each accepted call read certificates and active profile at its own resolution step while holding the drain; that profile is the one its predecessors leave, and its decision on them is the one of the serial reading. |
| `ConfigureRuns.OneHolder` | omatorrent-service/internal/mutate/mutator.go:224-235 | At most one call is past BeginSwitch and before its release. |
| `ConfigureRuns.LogFrozen` | omatorrent-service/internal/connection/manager.go:550-758 | While one call holds the drain no other is accepted. |
| `ConfigureRuns.RejectedIsIdentity` | omatorrent-service/internal/connection/manager.go:604-711 | A call that got exclusivity and gave it up changed none of file, secret, profile, epochs and clients. |
| `ConfigureRuns.ThreeWayAgreement` | omatorrent-service/internal/connection/manager.go:713-739 | With the drain free, manager, syncer and mutator agree on epoch and client, the epoch counts accepted calls, and after the first the stored profile is the active one. |
| `ConfigureRuns.LoggedIsAdmissible` | omatorrent-service/internal/connection/manager.go:555-576 | Every accepted request of every run was admissible. |
| `ConfigureRuns.ActiveIsLastAsked` | omatorrent-service/internal/connection/manager.go:637-739 | With the drain free, profile, certificate, file, secret and client are those the last accepted request asked for. |
| `ConfigureRuns.RefusedForHttp` | omatorrent-service/internal/connection/manager.go:556-562 | A call is refused for plain HTTP exactly when its request needed consent, and goes on only if admissible. |
| `ConfigureRuns.NoFailureAfterSwitch` | omatorrent-service/internal/connection/manager.go:713-739 | After the syncer switch a call can only end accepted. |
| `ConfigureRuns.UndisturbedConfigure` | omatorrent-service/internal/connection/manager.go:550-758 | Stepping the interleaved machine through one undisturbed call is refused for exactly the obstacle the method Configure reports, changing nothing, or leaves what Configure is proved to leave. |
| `Deltas.StateWords` | omatorrent-service/internal/state/syncer.go:666-685 | Which word clients read for each of qBittorrent's own state words. |
| `Deltas.Flush` | omatorrent-service/internal/ipc/protocol.go:488-499 | Closing a frame never makes an empty one and loses nothing. |
| `Deltas.MakeRoom` | omatorrent-service/internal/ipc/protocol.go:500-519 | Before an addition that would overrun the budget the open frame is closed. |
| `Deltas.AddChanged` | omatorrent-service/internal/ipc/protocol.go:500-510 | The first loop fails exactly on an item that alone exceeds the budget; otherwise frames and open lists account for every changed item in order. |
| `Deltas.AddRemoved` | omatorrent-service/internal/ipc/protocol.go:511-521 | The second loop fails exactly on a hash over 64 bytes; removals follow in order, never before a later item. |
| `Deltas.EncodeDeltas` | omatorrent-service/internal/ipc/protocol.go:482-524 | It fails, emitting nothing, exactly when one capped item exceeds the budget or one hash 64 bytes; otherwise the frames concatenate to the event's lists in order, no item follows a removal, none is empty and each is within the accounted budget. |
| `Deltas.MeasuredFrameFits` | omatorrent-service/internal/ipc/protocol.go:482-524 | A frame within the accounted 3800 bytes is at most 4096 bytes on the wire with LF, commas and JSON overhead, for hexadecimal hashes. |
| `Deltas.AllFramesFit` | omatorrent-service/internal/ipc/protocol.go:482-524 | Every frame of every split fits the frame limit. |
| `Deltas.FramesReplay` | omatorrent-service/internal/ipc/protocol.go:482-524 | Replaying ordered frames is replaying their concatenation as one event. |
| `Deltas.SplitIsLossless` | omatorrent-service/internal/ipc/protocol.go:482-524 | On any view, replaying the frames is applying the event with capped names. |
| `Encoders.CapTruncates` | omatorrent-service/internal/ipc/protocol.go:546-552 | Capping keeps a string a whole one or a proper prefix with an ellipsis, of exactly the smaller length, also when repeated. |
| `Encoders.EncodeSnapshotItem` | omatorrent-service/internal/ipc/protocol.go:532-544 | Terminates; the frame fits and differs from the torrent only by a cut name and capped category, not cut when it fits whole; gives up only when even a name of at most 32 runes does not fit. |
| `Encoders.EncodeNormalItem` | omatorrent-service/internal/ipc/protocol.go:532-544 | For items the syncer normalised it never gives up. |
| `Encoders.ShortItemFits` | omatorrent-service/internal/ipc/protocol.go:532-544 | An item with a valid hash, capped category and 32-rune name fits at up to six bytes a character. |
| `Encoders.DeltaCanFailWhereSnapshotFits` | omatorrent-service/internal/ipc/protocol.go:500-507 | A normalised torrent exists whose change cannot be framed as a delta although its snapshot item fits once its name is cut: the delta encoder has no name halving. |
| `Encoders.HalvingIsNeeded` | omatorrent-service/internal/ipc/protocol.go:526-539 | A normalised torrent exists whose capped snapshot item does not fit whole, so the halving loop does run. |
| `Encoders.Shrink` | omatorrent-service/internal/ipc/protocol.go:338-388 | The live loop ends at the first attempt that fits among full lists at 48, 24 and 12 runes and then shorter lists; it never indexes past the shortened list and its last-resort branch is dead. |
| `Encoders.Refill` | omatorrent-service/internal/ipc/protocol.go:342-355 | The refill covers the current, possibly shortened, list only. |
| `Encoders.BaseFits` | omatorrent-service/internal/ipc/protocol.go:316-319 | With no active entries the live frame always fits. |
| `Encoders.DegradedFits` | omatorrent-service/internal/ipc/protocol.go:321-336 | The degraded frame always fits. |
| `Encoders.EncodeDashboardStatus` | omatorrent-service/internal/ipc/protocol.go:320-388 | Every response fits the frame limit, whatever strings the backend reported, and is the first fitting attempt or the degraded shape; a live frame says every number as it is with only versions, names and the tail of the list cut, a degraded one says exactly what was last known. |
| `Encoders.LiveShows` | omatorrent-service/internal/ipc/protocol.go:356-371 | What a live attempt says of the data. |
| `Encoders.DegradedShows` | omatorrent-service/internal/ipc/protocol.go:321-335 | What a degraded frame says of the last-known data. |
| `JsonSize.IntBound` | omatorrent-service/internal/ipc/protocol.go:601-608 | A 64-bit integer takes at most twenty bytes. |
| `JsonSize.PlainLen` | omatorrent-service/internal/ipc/protocol.go:601-608 | Plain alphanumeric strings cost one byte a character in JSON. |
| `JsonText.QuotedLen` | omatorrent-service/internal/ipc/protocol.go:601-608 | A string's length is that of its quoted text with the escapes of section 7 of RFC 8259 and Go's HTML-safe ones. |
| `JsonText.ItemLenIs` | omatorrent-service/internal/ipc/protocol.go:107-119 | The item length is the number of bytes of the item's JSON text. |
| `JsonText.FrameLenIs` | omatorrent-service/internal/ipc/protocol.go:151-157 | The delta frame length is the number of bytes of its JSON text. |
| `JsonText.SnapshotLenIs` | omatorrent-service/internal/ipc/protocol.go:137-143 | The snapshot item length is the number of bytes of its JSON text. |
| `JsonText.DashboardLenIs` | omatorrent-service/internal/ipc/protocol.go:202-277 | The dashboard length is the number of bytes of its JSON text in all three shapes. |
| `Connections.ConnIO.constructor` | omatorrent-service/internal/ipc/server.go:756-758 | A new connection is open with an empty queue. |
| `Connections.ConnIO.Send` | omatorrent-service/internal/ipc/server.go:768-787 | Enqueues or, finding 256 frames queued, closes; a frame is never dropped on a connection that stays open. |
| `Connections.ConnIO.TrySend` | omatorrent-service/internal/ipc/server.go:793-814 | One attempt of the blocking send: succeeds with room, fails when closed or late (closing it), else waits. |
| `Connections.ConnIO.Teardown` | omatorrent-service/internal/ipc/server.go:819-833 | Closes once, keeps what is queued, calls the cancel hook, closes the socket only if no writer runs. |
| `Connections.ConnIO.CancelSub` | omatorrent-service/internal/ipc/server.go:853-861 | The cancel hook runs at most once. |
| `Connections.ConnIO.StartWriter` | omatorrent-service/internal/ipc/server.go:520-524 | From here on the writer owns the socket and closing leaves it open. |
| `Connections.ConnIO.SetSubCancel` | omatorrent-service/internal/ipc/server.go:835-839 | The cancel hook of the subscription is installed. |
| `Connections.ConnIO.Writer` | omatorrent-service/internal/ipc/server.go:867-876 | Everything queued is written in order, and then the socket of a closed connection closes while an open one goes on waiting; a failed write loses that frame and the rest, closes the connection and leaves the socket as it is. |
| `Connections.ConnIO.MarkSubscribed` | omatorrent-service/internal/ipc/server.go:843-851 | Only the first subscription of a connection is granted. |
| `Snapshots.SnapshotItems` | omatorrent-service/cmd/omatorrent-service/main.go:197-202 | Every committed map has a snapshot list: each value once, by name, among equal names by hash, in the order that compares the first difference. |
| `Snapshots.SortItems` | omatorrent-service/internal/ipc/server.go:713-720 | Sorting keeps every item and orders by name, then hash. |
| `Delivery.HeadStep` | omatorrent-service/internal/ipc/server.go:652-686 | Every step keeps the head a prefix of subscribed, begin, items, end, complete before any event is taken. |
| `Delivery.FlowStep` | omatorrent-service/internal/ipc/server.go:688-710 | Every step keeps written plus queued plus pending equal to what is due while open, and written plus queued a prefix of it once shut. |
| `Delivery.FeedLine` | omatorrent-service/cmd/omatorrent-service/main.go:197-219 | Every step keeps batches, forwarder buffer and held event a gapless stretch of the subscriber's log. |
| `Delivery.ViewKept` | omatorrent-service/internal/state/syncer.go:600-613 | The rest of the daemon only ever appends to a subscriber's log. |
| `Delivery.InvStep` | omatorrent-service/internal/ipc/server.go:652-710 | Every step of the joint machine, syncer included, keeps the invariant. |
| `DeliveredViews.HeadView` | omatorrent-service/internal/ipc/server.go:652-686 | The whole head is the announcement, the count of the snapshot, its torrents in order and the end; after it the client holds the snapshot, names possibly cut. |
| `DeliveredViews.ReplayMirrors` | omatorrent-service/internal/ipc/server.go:688-710 | An event with capped names applied to a mirror of a map gives a mirror of the event applied to the map. |
| `DeliveredViews.BatchMirrors` | omatorrent-service/internal/ipc/server.go:688-710 | The frames of one event take a mirror of the map before to a mirror of the map after. |
| `DeliveredViews.WrittenIsAPrefix` | omatorrent-service/internal/ipc/server.go:652-710 | The subscription frames written are a prefix of subscribed, begin(n), items in order, end, then the frames of consecutive published events starting right after the snapshot. |
| `DeliveredViews.LostOnlyByClosing` | omatorrent-service/internal/ipc/server.go:768-833 | Until the queue is shut every due frame is written, queued or pending and every event is in a batch, the forwarder or the channel; the queues stay within 256 and 16. |
| `DeliveredViews.PumpEnds` | omatorrent-service/internal/ipc/server.go:688-710 | A pump that finds the queue shut, cannot frame an event or sees its source end leaves the connection shut and takes no event any more. |
| `WriterFates.WriterStep` | omatorrent-service/internal/ipc/server.go:867-876 | Every step keeps each frame ever queued written, lost or still queued, in that order, and the socket open until the writer ends without a failed write. |
| `WriterFates.WriterFate` | omatorrent-service/internal/ipc/server.go:867-876 | Once the writer ended the socket is closed if and only if no write failed, and then every queued frame was written; it stays open if and only if one failed, and then that frame and all behind it are lost. |
| `WriterFates.LeftOpenForGood` | omatorrent-service/internal/ipc/server.go:819-833 | After a failed write no step of the connection writes again or closes the socket. |
| `WriterFates.SubscriberLeftHanging` | omatorrent-service/internal/ipc/server.go:867-876 | A reachable run in which a subscriber has read nothing, nothing more will come and its socket is open. |
| `DeliveredViews.BoundaryView` | omatorrent-service/internal/ipc/server.go:688-710 | At each event boundary the client's view is the map committed right after that event, names possibly cut. |
| `DeliveredViews.AtRestIsCurrent` | omatorrent-service/cmd/omatorrent-service/main.go:197-219 | An open connection with nothing left in any queue has shown its client the current committed map. |
| `Framing.FindIs` | omatorrent-service/internal/ipc/server.go:884-885 | The first LF is the one with none before it. |
| `Framing.Reader.Fill` | omatorrent-service/internal/ipc/server.go:495-499 | One network read of any size keeps the stream and appends to the buffer. |
| `Framing.Reader.ReadSlice` | omatorrent-service/internal/ipc/server.go:884-890 | Cuts the stream after its first LF, after one full window without LF, or at its end, for every chunking. |
| `Framing.Reader.Grow` | omatorrent-service/internal/ipc/server.go:884-900 | The frame grown by one slice decides the verdict unless it is exactly one window without an LF. |
| `Framing.Reader.ReadFrame` | omatorrent-service/internal/ipc/server.go:881-904 | The verdict is a function of the stream alone; an accepted frame takes exactly payload and LF; at most 8192 bytes leave the stream. |
| `Framing.Reader.ReadAll` | omatorrent-service/internal/ipc/server.go:526-540 | The request loop delivers exactly the accepted payloads of the stream and ends with the verdict on what is left. |
| `Framing.ReadsWhatWasWritten` | omatorrent-service/internal/ipc/server.go:913-919 | Reading inverts writing: payloads written with LF come back, followed by the reading of whatever comes after. |
| `Framing.StreamIsAcceptedAndLeftover` | omatorrent-service/internal/ipc/server.go:881-904 | Every stream is the writing of its accepted payloads and a leftover that does not start with a frame of at most 4096 bytes. |
| `Framing.CleanExactlyWhenWhole` | omatorrent-service/internal/ipc/server.go:892-897 | A session ends cleanly exactly when the stream is a writing of frames. |
| `Grammar.FlagsAreTheTable` | omatorrent-service/internal/ipc/protocol.go:827-893 | The flag tests of the type switch are membership between required and allowed key sets of one table. |
| `Grammar.TestsAreTheGrammar` | omatorrent-service/internal/ipc/protocol.go:822-896 | Key tests and value tests together accept exactly the legal forms. |
| `Grammar.ParseFrame` | omatorrent-service/internal/ipc/protocol.go:665-897 | The field loop and type switch accept a field list as a request exactly when it says that request: distinct keys, each component what its field says, the keys of its type, legal values that fit together. |
| `Grammar.UnderstoodExactly` | omatorrent-service/internal/ipc/protocol.go:649-910 | A frame is accepted as a request if and only if it says that request, field by field and by message type. |
| `Grammar.DistinctPermuted` | omatorrent-service/internal/ipc/protocol.go:679-694 | Permuting fields keeps their keys distinct. |
| `Grammar.FormPermuted` | omatorrent-service/internal/ipc/protocol.go:679-694 | Permuted fields are the same form. |
| `Grammar.OrderIsIrrelevant` | omatorrent-service/internal/ipc/protocol.go:665-897 | Permuting the fields changes neither acceptance nor the request. |
| `MutationClient.Client.constructor` | plugins/local.omatorrent/MutationClient.js:39-41 | A fresh bag is empty. |
| `MutationClient.Client.Begin` | plugins/local.omatorrent/MutationClient.js:45-61 | One request in flight; a hash-carrying one gets exactly its own unanswered overlay, and nothing else changes. |
| `MutationClient.Client.BufferEarly` | plugins/local.omatorrent/MutationClient.js:65-73 | A new id is buffered last and the seventeenth evicts the oldest; a known id is replaced in place. |
| `MutationClient.Client.ApplyTerminal` | plugins/local.omatorrent/MutationClient.js:77-85 | A terminal clears the overlay on its hash only for the same action and an unknown or equal mutation id. |
| `MutationClient.Client.DropFromOrder` | plugins/local.omatorrent/MutationClient.js:107-108 | The loop for indexOf and splice removes the first occurrence. |
| `MutationClient.Client.OnAccepted` | plugins/local.omatorrent/MutationClient.js:92-131 | A buffered result settles its overlay at once and no overlay is made; otherwise exactly one overlay is registered under the id, with the request's data; a stray acceptance changes nothing. |
| `MutationClient.Client.OnResultPush` | plugins/local.omatorrent/MutationClient.js:142-151 | A push clears an overlay only if that overlay carries the push's own mutation id and action, adds or changes none, and is buffered otherwise. |
| `MutationClient.Client.OnResultResponse` | plugins/local.omatorrent/MutationClient.js:156-171 | A replayed result settles the request in flight and its overlay, touches no other, and leaves no early copy. |
| `MutationClient.Client.OnRejected` | plugins/local.omatorrent/MutationClient.js:175-186 | A rejection ends the request and takes along exactly the overlay on its hash with its action; every other overlay and all early results stay. |
| `MutationClient.Client.Reset` | plugins/local.omatorrent/MutationClient.js:191-196 | All correlation state is dropped. |
| `MutationClient.BufferedIsValid` | plugins/local.omatorrent/MutationClient.js:65-73 | Buffering keeps the early keys equal to the duplicate-free order list of at most 16. |
| `MutationClient.ConsumedIsValid` | plugins/local.omatorrent/MutationClient.js:104-108 | Consuming a buffered result keeps that invariant. |
| `MutationClient.ForeignLeaves` | plugins/local.omatorrent/MutationClient.js:142-151 | Any sequence of foreign pushes leaves the request in flight and the story's overlay alone and never buffers its result. |
| `MutationClient.BufferedDepth` | plugins/local.omatorrent/MutationClient.js:65-73 | A buffered result lies as deep as new ids came after it and is gone with the sixteenth. |
| `MutationClient.AcceptanceFirst` | plugins/local.omatorrent/MutationClient.js:92-151 | Acceptance before result: everything is settled in every interleaving with foreign pushes. |
| `MutationClient.ResultFirst` | plugins/local.omatorrent/MutationClient.js:65-151 | Result before acceptance: everything is settled if and only if fewer than sixteen new foreign ids were buffered in between. |
| `MutationClient.FrameOrderIsIrrelevant` | plugins/local.omatorrent/MutationClient.js:45-151 | With fewer than sixteen frames between them, acceptance and result may come in either order and end settled. |
| `MutationClient.PushesLeave` | plugins/local.omatorrent/MutationClient.js:142-151 | No push touches the request in flight or an overlay without an id. |
| `MutationClient.RejectionEnds` | plugins/local.omatorrent/MutationClient.js:45-186 | Begin, pushes, rejection, pushes: no request in flight and no overlay on its hash. |
| `MutationClient.AnswerSettles` | plugins/local.omatorrent/MutationClient.js:45-171 | Begin, pushes, replayed result, foreign pushes: everything of the story is settled. |
| `Dashboards.SatAdd` | omatorrent-service/internal/state/dashboard.go:52-60 | The comparison-based sum is the true sum clamped to 64 bits. |
| `Dashboards.SumAdded` | omatorrent-service/internal/state/dashboard.go:88-98 | The true sum over a set grows by one term per torrent, whichever is taken first. |
| `Dashboards.FoldedIsTrue` | omatorrent-service/internal/state/dashboard.go:88-98 | For non-negative sizes each saturating sum is the true sum clamped once, for every order of the pass. |
| `Dashboards.NegativeSizesDependOnOrder` | omatorrent-service/internal/state/dashboard.go:88-98 | With a negative size two orders of one pass give different sums. |
| `Saturation.OrderNeverShowsExactly` | omatorrent-service/internal/state/dashboard.go:52-60 | The order of the pass never shows in a saturating sum if and only if all terms have one sign or neither the positive nor the negative terms alone overflow. |
| `Saturation.TotalsNeverVaryExactly` | omatorrent-service/internal/state/dashboard.go:88-98 | The three sums are the same for every iteration order of the map if and only if that holds of each of the three lists of terms. |
| `Saturation.NonNegativeIsHarmless` | omatorrent-service/internal/state/dashboard.go:88-98 | Non-negative sizes meet that condition for all three sums. |
| `Saturation.HarmlessPass` | omatorrent-service/internal/state/dashboard.go:88-98 | A sum that meets the condition is the true sum clamped once. |
| `Saturation.TwoOrders` | omatorrent-service/internal/state/dashboard.go:88-98 | Without the condition, positive terms first and negative terms first give different sums. |
| `Saturation.LeftTermIsTheDifference` | omatorrent-service/internal/state/dashboard.go:95-97 | The remaining bytes of one torrent are the clamped difference if and only if completed is not the least 64-bit integer below size; there the negation wraps and the term is negative. |
| `Dashboards.NothingUnaccounted` | omatorrent-service/internal/state/dashboard.go:92-98 | Completed plus remaining, saturating, is never below the total size. |
| `Dashboards.OneRanking` | omatorrent-service/internal/state/dashboard.go:113-121 | Speed, name and hash form a strict total order, so a map has exactly one ranking. |
| `Dashboards.SortCands` | omatorrent-service/internal/state/dashboard.go:113-121 | The sort orders the candidates and loses none. |
| `Dashboards.TakeOne` | omatorrent-service/internal/state/dashboard.go:76-112 | One turn of the pass counts, sums and collects one torrent. |
| `Dashboards.AlongIs` | omatorrent-service/internal/state/dashboard.go:75-112 | Counts and candidates are those of the set ranged over, for every order. |
| `Dashboards.Pass` | omatorrent-service/internal/state/dashboard.go:74-113 | The pass visits every torrent once: counts are cardinalities, candidates exactly the transferring torrents, sums those of the order in which the map was ranged over. |
| `Dashboards.Aggregate` | omatorrent-service/internal/state/dashboard.go:68-129 | Counts are cardinalities on the torrents' own fields, sums true and clamped, the active list the first five transferring torrents by falling speed, then name, then hash. |
| `Dashboards.CountsAre` | omatorrent-service/internal/state/dashboard.go:74-105 | Each counter is the number of torrents of its state, of those transferring, or of those complete. |
| `Dashboards.RankedIsFastest` | omatorrent-service/internal/state/dashboard.go:106-129 | The ranking holds each transferring torrent once, by falling speed, then name, then hash, and the list shows its first five as they are. |
| `Dashboards.ReportIsUnique` | omatorrent-service/internal/state/dashboard.go:68-129 | Two reports on one map are equal: map iteration order never shows. |
| `Orders.LessIsTotal` | omatorrent-service/internal/state/dashboard.go:118-121 | String order is total. |
| `Orders.LessIs` | omatorrent-service/internal/state/dashboard.go:118-121 | The order is by the first difference, a prefix before the longer string. |
| `Orders.LessIsTransitive` | omatorrent-service/internal/state/dashboard.go:118-121 | String order is transitive. |

## Left out

- Counter widths: epochs, generations and mutation numbers are unbounded; the 64-bit wrap of a counter that steps by one is not modelled.
- HTTP, cookies, TLS and the qBittorrent session of `qbittorrent/client.go`: a backend is a torrent map, a session and two version strings.
- JSON tokenising, UTF-8 checks, regular expressions and URL parsing: `parseFrame` is modelled from the field list on, a malformed or trailing document is not; the results of `ValidateURL` and `ParseMagnetHash` are inputs.
- Grammar.ParseFrame: field and key names are constructors, an unknown key keeps its name; the text of a number that is no 64-bit integer is not kept.
- Float widths: the JSON length of a float is any function between 1 and 25 bytes, which covers every finite float64; NaN is not modelled.
- Time: deadlines, backoff, idle timeouts and sleeps appear only as a time parameter of `reconcile` and as steps that may happen at any moment.
- The secret store's subprocess and the profile file's mechanics: each is one cell whose write happens fully or not at all.
- ConfigureRuns.RejectedIsIdentity: undo writes are assumed to succeed, since a failed one is only logged; `Managing.Manager.Configure` takes their outcome as input and promises the identity when they succeed.
- Managing.Manager.Configure: `hasSecret`, the host label, the logout of the old client and the password wipe are not modelled.
- Trust-on-first-use cache: `cacheOffered` and its eviction are steps that may change the offered certificates at any moment; conversion to PEM is taken as done when a certificate is offered.
- Mutating.Mutator.Submit: the choice of endpoint by WebAPI version is folded into the outcome of the backend call; lower-casing covers the hexadecimal hashes the grammar lets through.
- MutateRuns: a drain is committed only after the syncer switched, to the same backend, as `Configure` does (omatorrent-service/internal/connection/manager.go:722-738); the one-shot `SwitchBackend` of the mutator, used by tests, is not a step.
- Results channel: the broadcast of mutation results to connections is not modelled beyond the frames it puts in a connection's queue.
- Connections.ConnIO.TrySend: one locked attempt of the blocking send; that others change the queue between attempts is modelled by the steps of `Delivery`, not by this class.
- Delivery: shutting down the whole server, which closes the sockets of connections still being read, is not a step, nor is the runtime's collection of an abandoned socket; a write that fails part-way counts as not written; the cancel hook's effect on the syncer may happen at any moment rather than right after the close.
- Framing.Reader.Fill: a read returns data or an error, never both, as network connections do; the handshake and the parser's verdict do not end `ReadAll`.
- MutationClient: inherited object properties of JavaScript bags, which no hexadecimal hash or numeric id can name.
- Sorting.Sort: the library's sorts are one insertion sort; under a strict total order every sort has the same result.
- Aliasing of Go maps and slices between goroutines: maps are values here, so a shared reference that the code copies is not distinguished from a copy.
- Config loading, socket and permission checks, logging, the QML interface, brand assets and tools: plumbing and interface.
