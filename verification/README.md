# Runtime custody, timelines and crash-safe cutovers

A Dafny model of the parts of the Runtime whose correctness rests on protocols rather than on
single functions. Each module stands for one of them.

- **Role custody** (`custody_records`, `custody_authority`, `custody_lineage`, `custody_driver`,
  `custody_fencing`, `scope_close`, `custody_journal`). A role's durable designation (generation, state, actor,
  target, append-only history) changes by reserve, bind, transfer, relinquish and claim; who may
  make it change, its lineage checker, its replay of lost acknowledgements, the retry driver above it, the signals
  fenced by it, the admission scope that closes around it and the hash-chained journal beside it.
- **Shot flattening** (`shot_flattening`, `shot_meaning`, `shot_acceptance`, `asset_identity`,
  `occurrence_names`). The timeline compiler that puts the clips of child timelines into the windows of shot clips,
  with times as reals; what the authored fields put on screen at every instant and from where in
  the source, and which timelines flatten at all.
- **Crash-safe cutovers** (`realm_replacement`, `replacement_request`, `relocation`,
  `worker_relinquish`, `relinquish_custody`, `relinquish_request`, `credentials`). A small namespace of trees or files,
  and a crash or an exception possible around every effect. The two daemon requests are written
  out as the code runs them and proved to be runs of their step machines.
- **Compact cores** (`content_store`, `upload_races`, `rotating_log`, `door_paths`, `door_routes`,
  `seam_owners`).

Conventions. SHA-256 is a function parameter, assumed free of collisions where a statement needs
it. Canonical JSON is the identity on datatypes. Process identities are opaque values; an actor
verifies to its pinned incarnation or fails. A durable write has a fate (done, not done, done with
the caller told otherwise), and a crash may follow any single file operation. State machines take
a step that is not enabled as no step at all, so a statement about every sequence of steps is a
statement about every interleaving.

Some properties the code might be expected to have do not hold as such, and each has its exact
condition here.

- The lineage checker alone accepts records no run produces (`CheckerAloneAcceptsMore`); it is exact
  together with `Admissible` (`CheckerIsExact`).
- A retiring worker's credential files can go before its stop is durable (`LauncherCanRevokeEarly`).
  No run lets that happen if and only if the daemon holds no launcher or no file is left
  (`FilesAwaitTheStopExactlyWithoutLauncher`), and a restart with the retirement pending holds none.
  The same launcher can enable the fenced bearer by a handoff (`FenceHoldsExactlyWithoutLauncher`).
- An upload of bytes that are stored already can be told to retry (`SameBytesCanConflict`). It is
  refused exactly when what it can see of the object changed between lookup and link
  (`UploadFailsExactlyWhenRaced`), and no run refuses it if and only if the object is stored and no
  upload at work still stages its file (`NeverRefusedExactlyWhenSettled`).
- The live log is bounded with at least one backup (`LiveFileIsBounded`); without backups it holds
  everything that was ever reported (`WithoutBackupsTheLogGrows`).
- A reference taken after a first transition, as a second release of the same owner keeps it
  (`ReleaseOwnerCustody`), anchors no later claim (`LaterReferenceIsRefused`); a reference anchors
  what follows it if and only if it was taken before the first transition
  (`ReferenceAnchorsExactlyAtLaunch`).
- A committed claim is not always answered again: a generic transfer after it breaks the lineage
  the claim is checked against, and the repeat is refused (`TransferEndsClaimReplay`). It is
  answered if and only if the actor verifies and no transfer was recorded (`ClaimReplayIsStable`).
- A revoked token can authenticate again without a publication (`RevokedTokenReturns`), and so can a
  token of one publication with the metadata of another (`MixtureAuthenticates`): a provision that
  finds both data files and no marker, as a revocation cut after its first step leaves them, writes
  the marker over them. It does so exactly under `UncommittedTokenReturnsIff`; the marked pair is one
  publication's exactly under `NamedPairIsOnePublicationIff`, and after a revocation something
  authenticates exactly while such an adoption stands (`RevokedStaysRevoked`).
- A ready token bound by a sealed broker whose last append was not acknowledged is not a
  chain the loader accepts; it is accepted if and only if the broker's head was the journal's
  (`BindReadyToken`).

## Model

| member | source | states |
|---|---|---|
| CustodyRecords.RoleCustodyAuthority.ReserveBeforeSpawn | astrid_runtime/custody_broker.py:632-642 | The stored record and the answer are those of a first pending designation, for every fate of the write; an existing designation is refused |
| CustodyRecords.RoleCustodyAuthority.BindPending | astrid_runtime/custody_broker.py:644-652 | Only the designated actor at generation 1 may replace the pending launch obligation by the spawned process |
| CustodyRecords.RoleCustodyAuthority.BindTarget | astrid_runtime/custody_broker.py:654-667 | The target becomes active with its kernel token only when pid, birth and uid are unchanged; the reference returned is the stored one |
| CustodyRecords.RoleCustodyAuthority.FindTransitions | astrid_runtime/custody_broker.py:768-771 | The loop collects exactly the entries with the id, in order |
| CustodyRecords.RoleCustodyAuthority.ReplayOf | astrid_runtime/custody_broker.py:768-786 | A repeated id is replayed, refused or fresh exactly as the durable history says |
| CustodyRecords.RoleCustodyAuthority.CheckContinuity | astrid_runtime/custody_broker.py:801-841 | The loop with `seen` and `previous_actor` accepts exactly the records whose every entry continues the ones before it |
| CustodyRecords.RoleCustodyAuthority.Transfer | astrid_runtime/custody_broker.py:719-751 | New record and answer, for every fate of the write: live handover, dead-actor recovery, replay and each refusal |
| CustodyRecords.RoleCustodyAuthority.Relinquish | astrid_runtime/custody_broker.py:843-861 | New record and answer, for every fate of the write |
| CustodyRecords.RoleCustodyAuthority.Claim | astrid_runtime/custody_broker.py:863-887 | New record and answer, for every fate of the write, behind the lineage check |
| CustodyRecords.RoleCustodyAuthority.ReadCommitted | astrid_runtime/custody_broker.py:788-799 | Reads one commit back as found, not yet committed, or unknown, changing nothing |
| CustodyAuthority.DesignationWritesIff | astrid_runtime/custody_broker.py:621-642 | A designation is written if and only if none exists, the actor verifies and the binding is well formed; it is pending at generation 1 under that actor with no history |
| CustodyAuthority.BindPendingWritesIff | astrid_runtime/custody_broker.py:644-652 | The launch obligation is replaced if and only if the designated actor asks at generation 1 for the obligation on record; only the target changes |
| CustodyAuthority.BindTargetWritesIff | astrid_runtime/custody_broker.py:654-667 | The target is bound if and only if the designated actor asks at the record's generation for the very process on record with a valid token; state and target change, nothing else |
| CustodyAuthority.TransferWritesIff | astrid_runtime/custody_broker.py:719-751 | A transfer writes if and only if both actors verify, the id is unused, generation and state fit, and either the designated actor asks or the successor does with proof of its exit; the new record names the successor, the next generation and the call's epoch, and keeps state and target |
| CustodyAuthority.RelinquishWritesIff | astrid_runtime/custody_broker.py:843-861 | A relinquish writes if and only if the designated actor, verified twice, asks at the record's generation and epoch for an active bound target under an unused id; generation, state and history change, nothing else |
| CustodyAuthority.ClaimWritesIff | astrid_runtime/custody_broker.py:863-887 | A claim writes if and only if the lineage holds, the record is relinquished at that generation, the target process is observed and the claimant has its uid; the claimant becomes the actor |
| CustodyAuthority.EveryStepIsSanctioned | astrid_runtime/custody_broker.py:621-887 | At every step of every run, whatever the fates of the writes, the actor changes only by the earlier actor's transfer, by a successor with proof of its exit, or by a claim of a relinquished record; state, target, epoch, generation and history change only by the calls that may change them |
| CustodyAuthority.CustodyIsNeverTaken | astrid_runtime/custody_broker.py:719-887 | In every run of any calls by anyone, an actor that neither transfers nor relinquishes and is not proved to have exited stays designated at its generation and epoch |
| CustodyLineage.TransitionCallAppends | astrid_runtime/custody_broker.py:746-751 | A transition call that writes appends exactly one entry, for an id the history did not hold |
| CustodyLineage.EveryRunKeepsDistinctIds | astrid_runtime/custody_broker.py:726-751 | No run of any calls with any write fates ever repeats a transition id |
| CustodyLineage.ReplayIsStable | astrid_runtime/custody_broker.py:726-735 | A committed transfer or relinquish repeated with the same id and intent, whatever the surroundings answer and whatever transitions committed since, gives the first acknowledgement and writes nothing; only an actor that fails to verify is refused |
| CustodyLineage.ClaimReplayIsStable | astrid_runtime/custody_broker.py:863-873 | The same for a claim, whatever is observed of its target by then, through any later transition calls: an actor that fails to verify is refused, a record that holds a generic transfer is refused as another lineage, and otherwise the first acknowledgement comes back; nothing is written |
| CustodyLineage.TransferEndsClaimReplay | astrid_runtime/custody_broker.py:868-873 | A run, for every root and actor, in which a claim commits, a transfer commits, and the repeated claim is refused |
| CustodyLineage.ConflictingReplayIsRefused | astrid_runtime/custody_broker.py:768-777 | A committed id with another intent is refused and writes nothing |
| CustodyLineage.RuntimeRunKeepsLineage | astrid_runtime/custody_broker.py:801-887 | Any mix of accepted, refused, lost and replayed relinquish and claim calls keeps the lineage valid |
| CustodyLineage.LaunchRunIsUnmoved | astrid_runtime/custody_broker.py:621-667 | Launch calls, in any order and with any fates, leave generation 1 and an empty history |
| CustodyLineage.ProducedPasses | astrid_runtime/custody_broker.py:632-887 | Every record a launch and any later relinquish and claim calls leave passes the checker against its sealed reference |
| CustodyLineage.UndoReplays | astrid_runtime/custody_broker.py:843-887 | An accepted record is what its last call, taken again, writes over the record before it |
| CustodyLineage.PassingIsProduced | astrid_runtime/custody_broker.py:801-887 | Every accepted, admissible record is produced by some launch and some calls, step by step from the sealed generation |
| CustodyLineage.CheckerIsExact | astrid_runtime/custody_broker.py:801-841 | The checker, with what the calls demand and it does not look at, accepts a record if and only if the calls can produce it |
| CustodyLineage.CheckerAloneAcceptsMore | astrid_runtime/custody_broker.py:803-815 | A concrete record sealed past generation 1 passes the checker and is produced by no run |
| CustodyLineage.AnchorIsUnique | astrid_runtime/custody_broker.py:803-815 | A record passes against at most one sealed reference and owner epoch |
| CustodyLineage.LaterReferenceIsRefused | astrid_runtime/custody_broker.py:814-815 | A reference taken after a transition does not anchor that record's lineage, through any later relinquish and claim calls |
| CustodyLineage.ReferenceAnchorsExactlyAtLaunch | astrid_runtime/custody_broker.py:801-841 | A reference to a record anchors everything later calls make of it if and only if it was taken before the first transition |
| CustodyLineage.TransferBreaksLineage | astrid_runtime/custody_broker.py:812-815 | After a generic transfer no sealed reference is accepted |
| CustodyDriver.OthersLeaveMatches | astrid_runtime/custody_broker.py:719-887 | Calls by others, under other ids, leave this id's history entries as they are |
| CustodyDriver.ReadBackIsHonest | astrid_runtime/custody_broker.py:788-799 | What a read back reports about an id is what the history holds |
| CustodyDriver.DriverIsAtMostOnce | astrid_runtime/runtime_boundary.py:819-850 | Under lost writes, fresh observations at every attempt and calls by others, a returned acknowledgement means exactly one entry with that id, and "not committed" means none |
| CustodyDriver.LostAckIsRecovered | astrid_runtime/runtime_boundary.py:827-850 | A write that committed and lost its acknowledgement is answered with that acknowledgement, whatever transitions others commit around every attempt and however those go, if the last look can read the record |
| CustodyDriver.CommittedIsReturned | astrid_runtime/runtime_boundary.py:827-850 | The driver started on a record that holds the committed entry returns its acknowledgement and leaves the entry, for any attempts and any transitions by others, if the last look can read the record |
| CustodyDriver.QuietRetryRecovers | astrid_runtime/runtime_boundary.py:827-850 | With nobody interfering the second attempt alone recovers the acknowledgement, whatever it observes, even if the last look cannot read |
| CustodyDriver.AcknowledgedIsReturned | astrid_runtime/runtime_boundary.py:827-850 | If any attempt is acknowledged, by a write or a replay, and can read back, the verdict is that call's acknowledgement, through any transitions by others |
| CustodyDriver.ViewIsExact | astrid_runtime/custody_broker.py:788-799 | A read-back finds the call's entry exactly if it stands with the acknowledgement it must carry, and says "not yet" exactly if the id is unused and the record is as the call expects it |
| CustodyDriver.VerdictIsExact | astrid_runtime/runtime_boundary.py:819-850 | For any attempts and any calls by others: "returned" exactly if an attempt is confirmed or the last look finds the entry, "not committed" exactly if none is and the record is as expected, "commit unknown" exactly if none is and the last look cannot read or finds neither |
| CustodyDriver.RuntimeBoundary.CommitOwnerTransition | astrid_runtime/runtime_boundary.py:819-850 | The two-attempt loop and the last look compute the driver's verdict, whose exact meaning is `VerdictIsExact`, and leave its record |
| CustodyDriver.RuntimeBoundary.ReleaseOwnerCustody | astrid_runtime/runtime_boundary.py:852-867 | The release is driven whenever the record can be read and the binding stated; the local generation and the anchor move only with a reread acknowledgement, and the anchor is the reference read before the release |
| CustodyDriver.RuntimeBoundary.ReclaimBeforeStop | astrid_runtime/runtime_boundary.py:803-814 | A released owner is claimed back against the kept anchor before it is stopped, driven whenever the record can be read and the binding stated |
| CustodyFencing.PlayKeepsInv | astrid_runtime/custody_broker.py:572-591 | In every interleaving of shared and exclusive guard holders, each log entry was lawful when it was made |
| CustodyFencing.GenerationsRise | astrid_runtime/custody_broker.py:719-887 | No write lowers the generation |
| CustodyFencing.SignalsAreFenced | astrid_runtime/custody_broker.py:697-717 | A signal goes out only while the record is active and names its requester at its generation, for an authenticated and authorized request of an admitted number whose expected target is the record's, to a process observed with that target's pid, uid and birth, by that target's token |
| CustodyFencing.SharedGuardHoldsTheFile | astrid_runtime/custody_broker.py:572-591 | While one process holds the shared guard nothing others do changes the record |
| CustodyFencing.SignalIsDeliveredIff | astrid_runtime/custody_broker.py:697-717 | A signaller that entered the guard delivers, with any steps of others between its own, if and only if the record at its entry and its request meet all of these |
| CustodyFencing.NoSignalAfterTransition | astrid_runtime/custody_broker.py:697-751 | Once a transition out of generation g is durable, no signal at g or below is ever delivered |
| CustodyFencing.NoSignalWhileRelinquished | astrid_runtime/custody_broker.py:697-717 | No signal is delivered while the record is relinquished |
| ScopeClose.PlayKeepsInv | astrid_runtime/custody_broker.py:347-423 | Any number of admitters and closers keep the lock and marker discipline |
| ScopeClose.DrainedScopeStaysEmpty | astrid_runtime/custody_broker.py:370-423 | Once a close has reported drained, no admission is held, then or ever after |
| ScopeClose.MarkerDeniesAdmission | astrid_runtime/custody_broker.py:347-367 | Once the marker is written no admission is granted any more |
| ScopeClose.AdmittedExactlyWhenUnmarked | astrid_runtime/custody_broker.py:347-367 | An admitter that looks is admitted if and only if no close has marked the scope, and is otherwise refused and out of it |
| ScopeClose.DrainsExactlyWhenEmpty | astrid_runtime/custody_broker.py:396-423 | A close that asks drains if and only if nobody holds an admission, is being checked for one or is draining |
| CustodyJournal.LoadChain | astrid_runtime/custody_broker.py:1517-1543 | The loader's loop accepts exactly the valid chains that end in a ready-token event with the ledger's digest and snapshot |
| CustodyJournal.AppendContinuesIff | astrid_runtime/custody_broker.py:1188-1219 | An appended event leaves a valid chain if and only if the chain was valid and the broker's head is the journal's |
| CustodyJournal.CompletedIsAcceptedIff | astrid_runtime/custody_broker.py:1537-1543 | For any last event and snapshot, the loader accepts journal and ledger if and only if the journal was a chain whose head the writer knew, the event is the ready-token binding and the snapshot is the Runtime owner's registered third stage |
| CustodyJournal.HeadDeterminesChain | astrid_runtime/custody_broker.py:1517-1536 | Two valid chains of any lengths ending in the same digest are the same events |
| CustodyJournal.LedgerBindsJournal | astrid_runtime/custody_broker.py:1537-1543 | A ledger is bound to one journal only |
| CustodyJournal.RoleBoundCustodyBroker.Persist | astrid_runtime/custody_broker.py:1188-1219 | For every broker state and wherever it fails: over a chain whose head the broker knows it leaves a chain, otherwise what it appends leaves none, and the ledger names the head it wrote |
| CustodyJournal.RoleBoundCustodyBroker.Serve | astrid_runtime/custody_broker.py:1252-1344 | An admission that succeeds writes its four events in order, each with the snapshot of its stage, and is sealed; it succeeds exactly when both checks of the peer and every persist do, and a refused peer leaves no event |
| CustodyJournal.RoleBoundCustodyBroker.BindReadyToken | astrid_runtime/custody_broker.py:1145-1186 | For every broker state, it succeeds exactly when the admission is sealed, the final identity and token are accepted and bound, and the event is persisted; the loader then accepts what the Runtime owner's broker wrote if and only if the journal was a chain and the broker's head its last digest |
| AssetIdentity.SameAssetIsSymmetric | runtime_protocol/asset_identity.py:55-67 | Asset identity is symmetric |
| AssetIdentity.SameAssetByFields | runtime_protocol/asset_identity.py:26-67 | Two entries are the same asset if and only if they agree on every identity field both carry, or carry none in common and are equal |
| AssetIdentity.SameAssetIsNotTransitive | runtime_protocol/asset_identity.py:55-67 | Three concrete entries show it is not transitive |
| AssetIdentity.PrefixedAndBareDigestsAgree | runtime_protocol/asset_identity.py:38-42 | A digest with and without its `sha256:` prefix is one identity |
| OccurrenceNames.ChildIdsTellApart | runtime_protocol/managed_render_snapshot.py:110 | Printed child ids, for ordinals of any size, determine the ordinal, and within one shot the child id |
| ShotFlattening.MergeAssets | runtime_protocol/managed_render_snapshot.py:123-129 | The loop refuses exactly on a key with two identities and otherwise keeps the first entry of every key |
| ShotFlattening.RejectUnboundedStills | runtime_protocol/managed_render_snapshot.py:75-88 | The loop refuses exactly when some still is held without both source bounds |
| ShotFlattening.ReadTiming | runtime_protocol/managed_render_snapshot.py:151-175 | The checks in their order accept exactly the well-formed timings |
| ShotFlattening.TrimChild | runtime_protocol/managed_render_snapshot.py:184-212 | The field updates produce the trimmed, labelled copy |
| ShotFlattening.ExpandOneChild | runtime_protocol/managed_render_snapshot.py:138-213 | One child yields nothing, one clip or a refusal, as specified |
| ShotFlattening.ExpandEachChild | runtime_protocol/managed_render_snapshot.py:137-213 | The inner loop emits the children of one shot in order or refuses |
| ShotFlattening.ExpandOneShot | runtime_protocol/managed_render_snapshot.py:100-213 | One shot clip: parameters, loading, merging, stills and children; where the shot is on screen is `FrameIsAuthored`, what it accepts `ShotIsAcceptedIff` |
| ShotFlattening.ExpandShotClips | runtime_protocol/managed_render_snapshot.py:94-217 | The whole imperative expansion computes the specified flat timeline and merged registry |
| ShotMeaning.TrimmedTiming | runtime_protocol/managed_render_snapshot.py:177-195 | The trimmed clip's own timing is the visible interval, at the same speed, from the shifted source start |
| ShotMeaning.TimingIsAuthored | runtime_protocol/managed_render_snapshot.py:151-175 | The timing read of a clip is what its fields say: defaults, hold before milliseconds, the source window when that is nothing; it is refused exactly when they say nothing playable |
| ShotMeaning.FrameIsAuthored | runtime_protocol/managed_render_snapshot.py:100-136 | A shot is on from its own `at` for its own `hold`, and is refused exactly when it lacks names, a finite start or a positive hold |
| ShotMeaning.EmittedFields | runtime_protocol/managed_render_snapshot.py:184-199 | An emitted clip starts at its visible start, its source bounds are its positions at both ends of the visible window, and any hold it carries is their distance |
| ShotMeaning.ChildIsPreserved | runtime_protocol/managed_render_snapshot.py:177-195 | At every time, a child is on screen after trimming exactly when its fields put it on screen in its timeline and the shot's fields put the shot on screen, at the same source position and under its own track if it has one |
| ShotMeaning.FlatteningPreservesMeaning | runtime_protocol/managed_render_snapshot.py:94-213 | At every real time the flat timeline shows exactly what the authored fields say: the root clips plus, for each shot from its `at` for its `hold`, its children at the time since, each at its source position |
| ShotMeaning.FlatteningIsIdempotent | runtime_protocol/managed_render_snapshot.py:94-98 | The result holds no shot clip, and flattening it again changes nothing |
| ShotMeaning.EmittedIdsAreDistinct | runtime_protocol/managed_render_snapshot.py:110-111 | Emitted child ids are pairwise distinct whenever the ids within each child timeline the shots name are |
| ShotMeaning.TailResolves | runtime_protocol/managed_render_snapshot.py:145-149 | Every emitted child's asset is in the merged registry |
| ShotMeaning.MergedAssetsAreFirstSeen | runtime_protocol/managed_render_snapshot.py:123-129 | Each key of the merged registry holds the first entry seen, and every later one matches it by identity |
| ShotAcceptance.ShotIsAcceptedIff | runtime_protocol/managed_render_snapshot.py:100-175 | One shot expands if and only if its fields, its loaded timeline, its registry against those seen before and each of its children are acceptable |
| ShotAcceptance.FlattensIff | runtime_protocol/managed_render_snapshot.py:94-217 | A timeline flattens if and only if every shot clip is acceptable after the registries of the root and of the shots before it |
| RealmReplacement.StepKeepsInv | runtime_protocol/daemon.py:1107-1249 | Every step of a replacement, rollback, start or cleanup, whatever it meets, keeps names, journal and phase consistent |
| RealmReplacement.NoRealmIsLost | runtime_protocol/daemon.py:1073-1249 | After any run of replacements, exceptions, crashes, restarts and cleanups, every realm that was served and not given up is whole under the active or a superseded name |
| RealmReplacement.GivenUpOnlyAtCommit | runtime_protocol/daemon.py:1121-1249 | A realm is given up by one step only: the candidate's start from the active name, without retention |
| RealmReplacement.RollbackRestores | runtime_protocol/daemon.py:1302-1430 | A rollback that completes leaves the old tree active and the candidate under its own name |
| RealmReplacement.ServedTreeIsWhole | runtime_protocol/daemon.py:1073-1105 | What the daemon serves is whole and was never given up |
| RealmReplacement.DownCanServeAgain | runtime_protocol/daemon.py:1073-1105 | Wherever a replacement left it, a daemon that is down starts from the active tree it finds, or a fresh one, and serves |
| ReplacementRequest.RealmDaemon.Advance | runtime_protocol/daemon.py:1127-1161 | The forward part of a request, stopped anywhere, is a run of the machine; its verdict is that of the first forward point that does not go well, and its two flags say which renames came before it |
| ReplacementRequest.RealmDaemon.SettleDown | runtime_protocol/daemon.py:1162-1204 | After the commit failures touch bookkeeping and cleanup only, unforeseen exceptions included: the candidate stays active and a retained tree is not touched; it reports exactly when no point dies or escapes, and an unretained tree whose removal goes well is gone |
| ReplacementRequest.RealmDaemon.RollBack | runtime_protocol/daemon.py:1199-1244 | The handler, stopped anywhere, is a run of the machine; it reports success exactly when every due reverse step goes well, and then the old tree is active and its superseded name free |
| ReplacementRequest.RealmDaemon.Replace | runtime_protocol/daemon.py:1107-1249 | A whole request, online or offline, is a run of the machine. The candidate takes over if and only if every forward point goes well; "replaced", "restored" and the names and receipt each leaves are stated exactly, and the old tree is whole unless the candidate took over without retention |
| ReplacementRequest.RealmDaemon.CleanupCompleted | runtime_protocol/daemon.py:1073-1105 | The startup cleanup removes nothing without an explicit no-retention receipt and never a tree that was not given up; with one, a removal that goes well takes that tree alone |
| Relocation.Merge | astrid_runtime/relocation.py:325-329 | The merge loop moves entries one by one, in any order; wherever it stops, each is in exactly one of the two directories |
| Relocation.Unmerge | astrid_runtime/relocation.py:370-373 | The reverse loop takes merged entries back, last first, and reports whether every step was durable |
| Relocation.RewriteMetadata | astrid_runtime/relocation.py:317-323 | Rewriting the catalog and profiles changes no other entry |
| Relocation.RewrittenIsRepathed | astrid_runtime/relocation.py:317-323 | After the rewrites each rewritten file holds its last bytes and every other file its own, under the same entries |
| Relocation.Cutover | astrid_runtime/relocation.py:305-342 | It succeeds exactly when every forward step does; the runtime is then started from the moved root with its catalog and profiles rewritten and the destination's own entries as they were, and both roots are joined; otherwise names are at a known prefix |
| Relocation.RestoreMetadata | astrid_runtime/relocation.py:143-152 | The snapshotted bytes are back exactly when every restoring write succeeds, and no other byte changes |
| Relocation.Rollback | astrid_runtime/relocation.py:343-404 | From any prefix of the cutover, a rollback reports success exactly when each step that prefix needs goes well, and then it is undone, with no bytes changed but the snapshotted files' |
| Relocation.Relocate | astrid_runtime/relocation.py:276-404 | One relocation joins the roots, or is refused, or puts every entry and the metadata back, or stops with nothing lost |
| WorkerRelinquish.PlayKeepsInv | runtime_protocol/daemon.py:645-777 | The checkpoint, the files and the history stay consistent over every run of launches, provisioning, relinquish calls, launcher fences, handoffs and restarts |
| WorkerRelinquish.RetirementMovesForward | runtime_protocol/daemon.py:662-774 | Through any crashes and retries a receipt's checkpoint never moves back |
| WorkerRelinquish.RemovalFollowsDurableStop | runtime_protocol/daemon.py:737-774 | A relinquish call removes a credential file only of its own generation and only after that generation's durable stop |
| WorkerRelinquish.PendingActorIsHeld | runtime_protocol/daemon.py:804-817 | While a retirement is pending no launch or provisioning runs and files present are the retiring ones; before the stop the missing files are those the launcher revoked since |
| RelinquishCustody.FilesAwaitTheStopExactlyWithoutLauncher | runtime_protocol/daemon.py:134-144 | From any pending state, no run removes a credential file before the durable stop if and only if no launcher is held or no file is left |
| RelinquishCustody.FenceHoldsExactlyWithoutLauncher | runtime_protocol/local_worker.py:1182-1204 | While a retirement is pending, no run enables its bearer again if and only if it is disabled now and no launcher is held that could enable a readable generation |
| RelinquishCustody.RestartHoldsTheActor | runtime_protocol/daemon.py:246-247 | After a restart with a retirement pending the files wait for the stop and the fence holds, in every run |
| RelinquishCustody.EveryRunKeepsCustody | runtime_protocol/daemon.py:645-733 | In every run a pending retirement whose fence is durable has its bearer disabled unless a launcher is held, and a local launch never meets a remote credential |
| RelinquishCustody.RemoteCleanupIsExact | runtime_protocol/daemon.py:829-866 | Remote cleanup may take a file if and only if no call is at work and every file present is that activation's; the others stay |
| WorkerRelinquish.RetiredStaysRetired | runtime_protocol/daemon.py:756-776 | After completion no later run gives that generation's credential back |
| WorkerRelinquish.ReplayCompletes | runtime_protocol/daemon.py:645-777 | Repeating an interrupted request, from any reachable state, runs to completion and leaves no credential file |
| WorkerRelinquish.LauncherCanRevokeEarly | runtime_protocol/local_worker.py:1500-1515 | A concrete run in which the launcher's fence removes a file before the stop is durable |
| RelinquishRequest.RuntimeDaemon.Open | runtime_protocol/daemon.py:661-702 | Taking up a pending request or opening one is the machine's first step; a completed receipt is answered without a change |
| RelinquishRequest.RuntimeDaemon.Fence | runtime_protocol/daemon.py:721-733 | Disabling, recording the fence and checking the files is one machine step |
| RelinquishRequest.RuntimeDaemon.RecordStop | runtime_protocol/daemon.py:737-758 | An attested stop is recorded as stopped and goes on, any other is recorded as unknown and ends the call |
| RelinquishRequest.RuntimeDaemon.RemoveFiles | runtime_protocol/daemon.py:759-776 | Rechecking, removing marker, metadata and token and recording completion, stopped anywhere and with launcher threads in between, is a run of the machine |
| RelinquishRequest.RuntimeDaemon.RelinquishLocalWorker | runtime_protocol/daemon.py:645-777 | The whole request, with the launcher's threads acting in every gap, is a run of the machine; "relinquished" means the checkpoint is complete for that receipt and no file carries it, and is answered if and only if the retirement had completed before or the request is taken up and every check and write of it goes well |
| Credentials.MarkerIsNamed | runtime_protocol/auth.py:114-184 | The marker on disk always holds the digests of the pair the last completed publication or adoption wrote it for, if no revocation reached it |
| Credentials.AcceptedIsTheLastCommit | runtime_protocol/auth.py:96-184 | A generation authenticates if and only if both data files hold the pair the last marker was written for, in every history of publications, adoptions, revocations and crashes |
| Credentials.NamedPairIsOnePublicationIff | runtime_protocol/auth.py:114-170 | With tokens never issued twice, the marked pair was written by one publication if and only if a publication wrote the marker, or the adoption that did found a token whose publication had also written its metadata |
| Credentials.FilesComeFromWriters | runtime_protocol/auth.py:114-125 | Each data file holds the bytes of the last publication that reached it, and is absent exactly when a later revocation removed it or none did |
| Credentials.WritersAgreeIff | runtime_protocol/auth.py:120-124 | The metadata is never of a later publication than the token, and of the same one exactly when that publication got past its token |
| Credentials.PublishReadsBack | runtime_protocol/auth.py:114-125 | A completed publication reads back, unless its token is blank |
| Credentials.TornPublishIsRefused | runtime_protocol/auth.py:120-124 | A publication cut after one or two files authenticates only if those bytes were there already |
| Credentials.RevokedStaysRevoked | runtime_protocol/auth.py:147-221 | After a revocation removed the marker, and with no publication completed since, something authenticates if and only if a later adoption stands: not revoked again, over files that still hold what it adopted |
| Credentials.CutRevocationIsAdoptableIff | runtime_protocol/auth.py:214-221 | A revocation leaves a generation a provision can adopt if and only if it stopped after the marker and the metadata is the requested one |
| Credentials.UncommittedTokenReturnsIff | runtime_protocol/auth.py:127-175 | A provision gives back a token that did not authenticate if and only if it does not rotate, the marker is absent, both data files are present, the token is not blank and the metadata is the requested one; the pair then authenticates |
| Credentials.RevokedTokenReturns | runtime_protocol/auth.py:127-170 | A run, for every actor, token and metadata, in which a revoked token authenticates again with no publication in between |
| Credentials.MixtureAuthenticates | runtime_protocol/auth.py:127-170 | A run, for every two publications that differ in token and metadata, after which a pair authenticates that no publication wrote |
| Credentials.CredentialStore.ReadActor | runtime_protocol/auth.py:96-112 | Reading an actor yields exactly the agreeing generation |
| Credentials.CredentialStore.PublishFiles | runtime_protocol/auth.py:114-125 | The three replacements in order, cut anywhere, leave the specified files |
| Credentials.CredentialStore.Provision | runtime_protocol/auth.py:147-184 | An equal generation is kept, unmarked files that hold the requested metadata are marked as they are, otherwise a new token is published, cut anywhere; what is returned reads back |
| Credentials.IssuedTokenReplaces | runtime_protocol/auth.py:158-184 | A completed provision that rotates, or finds its metadata nowhere on disk, returns the issued token, which is then the actor's only bearer |
| Credentials.StandingTokenIsKept | runtime_protocol/auth.py:158-175 | A provision that does not rotate and finds its metadata in force returns the token in force and touches no file |
| Credentials.OthersAreUntouched | runtime_protocol/auth.py:114-221 | No operation on one actor changes what another's bearers may do |
| Credentials.HoldsAfter | runtime_protocol/auth.py:114-221 | Which bearers hold after each operation, exactly, from the generation and the fences before it |
| Credentials.CredentialStore.LegacyPair | runtime_protocol/auth.py:127-139 | Yields the data files exactly when some metadata makes them adoptable |
| Credentials.CredentialStore.RevokeActor | runtime_protocol/auth.py:214-221 | Cut anywhere, it leaves the specified files and no bearer of that actor is accepted |
| Credentials.CredentialStore.EnableActor | runtime_protocol/auth.py:208-212 | Only a readable generation is enabled |
| Credentials.CredentialStore.Load | runtime_protocol/auth.py:223-237 | A bearer is accepted if and only if some enabled actor's generation carries it, with that generation's metadata |
| ContentStore.WriteChunk | runtime_protocol/cas.py:71-74 | A chunk goes out in bounded writes that together are the chunk |
| ContentStore.Stage | runtime_protocol/cas.py:49-88 | A stream is staged exactly when the limit is lawful, it fits and its digest is the expected one; the staged file is the stream |
| ContentStore.PlayKeepsInv | runtime_protocol/cas.py:110-156 | Interleaved uploads keep every object under its own digest and never change or drop one |
| ContentStore.ObjectsNeverChange | runtime_protocol/cas.py:125-163 | A stored object reads back, hashes to its name, and reads the same after any further steps |
| ContentStore.SuccessfulPutReadsBack | runtime_protocol/cas.py:150-163 | An upload that succeeded, by storing or by finding its bytes, reads back its input |
| ContentStore.OnlyLinksPublish | runtime_protocol/cas.py:133-144 | Only a link adds an object, and it is that upload's own bytes, even when flushing the link raises |
| ContentStore.DeclaredDigestIsHeld | runtime_protocol/cas.py:76-88 | An upload with a declared digest goes on if and only if its bytes have it, and otherwise succeeds in no later run |
| ContentStore.UploadsLeaveNothing | runtime_protocol/cas.py:150-156 | In every run each file is a stored object or the staged file of an upload still at work |
| UploadRaces.LinkFailsExactlyWhenRaced | runtime_protocol/cas.py:138-142 | A flushed link fails exactly when what can be seen of the object differs from what the lookup found |
| UploadRaces.RereadFailsExactlyWhenRaced | runtime_protocol/cas.py:114-121 | Re-hashing the existing object fails exactly when its file's stamp moved on since the lookup |
| UploadRaces.UploadFailsExactlyWhenRaced | runtime_protocol/cas.py:110-156 | From any reachable state, with any steps of others in between, the whole upload is refused exactly when what can be seen of its object at the link is not what it saw at the lookup |
| UploadRaces.NeverRefusedExactlyWhenSettled | runtime_protocol/cas.py:110-156 | No run whatsoever refuses a staged upload if and only if its object is stored and no upload at work stages the object's file |
| UploadRaces.SameBytesCanConflict | runtime_protocol/cas.py:138-156 | A concrete race in which an upload of stored bytes is refused and the object stays readable |
| RotatingLogs.ShiftKeepsTheEnd | runtime_protocol/logs.py:58-61 | However far the renames get, what the files hold is the end of what they held |
| RotatingLogs.ShiftMovesEachFile | runtime_protocol/logs.py:58-61 | A complete rotation moves every file up by one and frees the live name |
| RotatingLogs.LogIsTheEndOfHistory | runtime_protocol/logs.py:50-66 | Over any run with failing renames and reopenings, the files hold in order the end of all that was there and was reported written |
| RotatingLogs.LiveFileIsBounded | runtime_protocol/logs.py:41-66 | Over any run with a backup, failed renames and reopenings included, the live file is within the limit, or empty, or one reported write alone, or its opening content with no write reported yet |
| RotatingLogs.WithoutBackupsTheLogGrows | runtime_protocol/logs.py:41-66 | Over any run without backups the live file is its opening content and everything reported since, whatever the limit; nothing is refused while reopening works |
| RotatingLogs.ShiftDropsTheLast | runtime_protocol/logs.py:58-61 | A rotation, however far it gets, drops the last file if another is renamed onto it, and nothing else |
| RotatingLogs.WriteIsExact | runtime_protocol/logs.py:50-66 | A value that fits is appended, no file moves and no byte is dropped; one that does not is refused exactly if a rename it needs raises or reopening fails, and drops the last file or nothing |
| RotatingLogs.RotatingLog.ShiftFiles | runtime_protocol/logs.py:58-61 | The countdown loop performs the specified renames and stops at the failing one |
| RotatingLogs.RotatingLog.Reopen | runtime_protocol/logs.py:41-48 | Reopening creates a missing file and takes its size, or leaves the handle closed |
| RotatingLogs.RotatingLog.Write | runtime_protocol/logs.py:50-66 | The write performs the specified transition and keeps the end-of-history property |
| DoorPaths.ParsePath | runtime_protocol/door.py:240-265 | The segment loop computes the specified canonical form or refuses |
| DoorPaths.AcceptedIsSpelled | runtime_protocol/door.py:240-265 | Every accepted path is a spelling (section 2.1 of RFC 3986) of the safe segments judged, followed by the raw query |
| DoorPaths.SpelledIsAccepted | runtime_protocol/door.py:240-265 | Every clean spelling of safe segments is accepted as exactly those segments and that query |
| DoorPaths.PrintedParsesBack | runtime_protocol/door.py:243-265 | Printing the canonical form and parsing it again gives the same canonical form |
| DoorRoutes.RouteClassifiesAsItself | runtime_protocol/door.py:268-287 | A returned route path, asked for under its service's prefix, is classified as the same route, for every route table |
| DoorRoutes.SpellingDoesNotMatter | runtime_protocol/door.py:268-287 | Two spellings of the same segments and query are served alike |
| DoorRoutes.ServedExactly | runtime_protocol/door.py:224-287 | A request is served, as a given route, if and only if its path is accepted, its first segments name the service, some entry of that service admits the method and is filled by the rest, the deny patterns do not match the path, and the route is the rest with its query |
| DoorRoutes.DeniedByPath | runtime_protocol/door.py:130-134 | Testing segments denies exactly what the patterns find in the text of the path |
| DoorTable.OnlyClaimedTasksAreDenied | runtime_protocol/door.py:130-134 | With the real table, the deny list takes away nothing served except tasks whose id begins with "claim" |
| SeamOwners.SortedIsPermutation | runtime_protocol/seam_intent.py:41 | Sorting a track's rows is a permutation |
| SeamOwners.SortedIsInOrder | runtime_protocol/seam_intent.py:41 | The rows are in order of start, then end |
| SeamOwners.SortedIsStable | runtime_protocol/seam_intent.py:41 | Rows with equal keys keep their given order |
| SeamOwners.FurthestIndexIsFurthest | runtime_protocol/seam_intent.py:46-47 | The remembered row is the one earliest row of maximal end |
| SeamOwners.SweepTrack | runtime_protocol/seam_intent.py:42-47 | One pass adds exactly a track's pairs at every frame |
| SeamOwners.GroupByTrack | runtime_protocol/seam_intent.py:34-38 | Primary owners are grouped by track, tracks in order of first appearance |
| SeamOwners.BoundaryIntentOwners | runtime_protocol/seam_intent.py:26-48 | The index holds at every frame exactly the owners the definition pairs there, and no other key |
| SeamOwners.MeetingIsLocalToTheTrack | runtime_protocol/seam_intent.py:26-33 | An owner is indexed at a frame exactly when its own track has a cut there that it takes part in |

## Left out

- Kernel audit tokens, sockets, Windows handles, directory descriptors, HTTP serving, the CLI and the generated clients: foreign calls and plumbing.
- `NativeProcessCustody` runs each operation under one exclusive lock and `verify_reference` only reads; neither adds an interleaving to the role protocol. The workspace and doctor validation are field comparisons.
- Signal fencing, scope close and concurrent uploads are step machines on values, not objects updated in place, because their statements are about interleavings; realm replacement and worker relinquish have such machines too, beside the requests that run in place. Relocation is methods on namespace values. Aliasing of Python objects is not captured in these.
- Clocks: a deadline or timeout is a caller that gives up at any point. Work checks, process stop attestations and starts are arbitrary results.
- Worker relinquish: a daemon configured without local profiles, which replaces the worker credential at start whatever the checkpoint says (runtime_protocol/daemon.py:143-180), is not part of the runs; nor are the captured cancellations of host-only workers.
- Relocation: what the runtime writes while it runs from the new root is any change that respects the other root's entries; the handoff file's content is not followed; the directory that a failed rollback leaves is described by where entries are, not by error texts.
- Realm replacement: the verification of a candidate is an arbitrary result, and a candidate is a fresh tree.
- Custody: the bound on the record's size is one more way for a write not to happen; error texts are collapsed into a refusal kind; a designation without a reservation appears in runs but has no method of its own.
- Journal: a torn last line after a crash is not modelled; an event is appended whole or not at all.
- CustodyJournal.LoadChain: the file-level checks of the loader (content digests in the reference, owner-only files, live identity) are not part of it.
- Shot flattening: the nested `app` dictionary is shared with the input by the source and nothing is claimed about the input staying unchanged; non-string asset fields and non-object clips, which the source refuses or ignores, are outside the datatypes; whether an asset is a still is an attribute of its entry; floating point is real arithmetic.
- AssetIdentity.PrefixedAndBareDigestsAgree: stripping and lower-casing are those of ASCII text.
- Credentials: symlink, ownership and decoding checks of the files and the marker's random generation id are not modelled.
- Rotating log: an unbuffered write that writes fewer bytes than asked is taken as complete.
- Content store: the text form of a digest and leftover staging files of dead processes are not modelled.
- Door: request headers, bodies, CORS and chat forwarding; the request method is taken in upper case.
- Seam intents: the comparison contexts and cues built from the index.
