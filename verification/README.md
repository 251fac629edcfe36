# Courier, verified

A Dafny model of `packages/courier`, the messenger between agents: the small durable state it keeps in files and
in a key-value store, shared by several processes that can be killed at any step. `dafny verify dfyconfig.toml`
checks the whole project.

The model has the components of the source, one or two modules each:

- **The file lock** (`FileLock`): every `acquireLock` call is a process whose links, reads and unlinks are separate
  steps, and each may fail. A nonce is fresh, so it names its call. The liveness probe is sound and stable, and may
  be unsure.
- **The profile** (`ProfileMerge`, `LiveProfile`, `ProfileRuns`, `LiveRuns`): the three-way merge of a save, its
  copying back into the caller's live objects, and runs of load, edit and save by many commands.
- **Key rotation** (`Rotation`, `RotationRace`): the redo journal with kills at any effect, and one rotation at a
  time beside commands that loaded the profile earlier.
- **The approval request** (`Approval`, `ApprovalRace`, `InitState`): the saved request, its stages, OpenKey's
  answers, the install, the acknowledgement. `Approval` runs one command at a time, every durable effect extending a
  trail of worlds of which a kill leaves a prefix; `ApprovalRace` interleaves any number of commands, each with its
  own copy of the request.
- **Exactly-once effects** (`Outbox`, `OutboxBudgets`, `Broker`, `BrokerCommand`): single-use markers and budgets of
  the outbox sender, and one merge for one approval.
- **Protocols on the key-value store** (`Kv`, `Invitation`, `Receipts`): atomic get, create-only put and if-match put.
- **Encoders** (`Text`, `Numerals`, `JsonNumber`, `JsonString`, `Json`, `JsonRoundTrip`, `Canonical`, `CanonicalKey`,
  `Utf8`, `DidKey`): canonical JSON with a parser for the grammar of RFC 8259 that inverts it, UTF-8, base58btc and
  base64url.

Assumptions, stated where they are used: hashes are collision-free (a digest is represented by what it digests),
signatures cannot be forged, OpenKey and the key-value store answer truthfully (an answer may be lost), etags, nonces,
request ids and new agent keys are fresh, clocks are readings passed in by the caller of an operation.

## What the code does not do

Places where the code falls short of what its comments say; each has a lemma with the run that shows it, and the
condition under which the promise holds.

- A stale lock whose 8 guard slots all belong to dead breakers is cleared by every breaker that finds it so, and
  then two running calls can hold the lock (`FileLock.ExhaustedSlotsBreakExclusion`). That takes nine dead calls
  (`FileLock.ExclusiveBelowNineDeaths`).
- When the read or the unlink of a stale lock fails under a guard, the guard is cleared on the way out although the
  record still stands, and two running calls can hold the lock after two deaths
  (`FileLock.FailureUnderGuardBreaksExclusion`).
- `init --request` reads the clock twice: a request that expires between the readings is replaced without asking
  OpenKey (`Approval.RequestDropsExactlyWhen`), and a clock set back after a request was dropped hands out a link
  that is no longer saved (`Approval.HandedOutUnsavedExactlyWhen`).
- Two `init --wait` at once save their copies of the request over each other, so a committed request can go back to a
  collected one (`ApprovalRace.StageCanGoBack`). No stage goes back exactly when every save finds the file no further
  than the copy it saves, which the code does not check (`ApprovalRace.StagesKeepIffGuarded`).
- Plain `init` writes the key it loaded back without a lock; a rotation in between is half undone
  (`RotationRace.InitRacingARotation`, and exactly when in `RotationRace.RewriteKeepsInvIffTimely`).
- The broker compares the base branch before the merge command, which does not name it; a pull request retargeted
  in between is merged into any other base (`Broker.RetargetedIsMerged`). Only retargets in that window do harm, and
  each of them can (`Broker.SafeIffAwaitedStay`).

Also, the request budget of the outbox admits at most 119 requests in a minute, one less than two budgets
(`OutboxBudgets.TwoBudgetsPerMinute`), and the rolling-hour cap holds exactly as long as the clock does not step back
between the two readings of one request (`OutboxBudgets.BoundNeedsSteadyClock`).

## Model

| member | source | states |
|---|---|---|
| FileLock.MutualExclusion | packages/courier/src/file-lock.ts:267-359 | in every interleaving of acquiring, breaking and releasing calls, killed anywhere and with failing file operations, at most one running invocation holds the lock, unless while a stale record stood some breaker found all 8 guard slots taken by dead breakers, or its read or unlink failed under a guard |
| FileLock.OneBreaker | packages/courier/src/file-lock.ts:326-354 | until a stale record is unlinked, at most one running invocation owns a guard for its nonce and may unlink it |
| FileLock.RunKeepsInv | packages/courier/src/file-lock.ts:267-359 | the inductive invariant (who owns which record and guard at every program point) is kept by every run |
| FileLock.OnlyOwnOrDeadRecordsGo | packages/courier/src/file-lock.ts:290-293 | a release or a break never removes a newer lock: a record that goes was its own remover's or a dead holder's |
| FileLock.NewcomerTakesFreeLock | packages/courier/src/file-lock.ts:277-294 | a caller left alone with a free lock takes it |
| FileLock.HeldLockIsReleased | packages/courier/src/file-lock.ts:290-293 | a holder left alone frees its lock |
| FileLock.DeadHolderIsReplaced | packages/courier/src/file-lock.ts:301-305 | a caller left alone takes over the lock of a dead holder and leaves no guard behind |
| FileLock.LiveHolderIsRespected | packages/courier/src/file-lock.ts:295-302 | a caller that reads a running holder's record is refused, whatever the probe answers, or fails with its read; the record stays |
| FileLock.ExhaustedSlotsBreakExclusion | packages/courier/src/file-lock.ts:346-350 | a concrete run with eight dead guard owners in which two running invocations hold the lock: the hypothesis of mutual exclusion is needed |
| FileLock.FailureUnderGuardBreaksExclusion | packages/courier/src/file-lock.ts:350-358 | a concrete run in which one failed read, or one failed unlink, under a guard ends with two running holders after two deaths: the other hypothesis is needed too |
| FileLock.ExclusiveBelowNineDeaths | packages/courier/src/file-lock.ts:326-349 | all slots of a standing record are found dead only after nine invocations were killed; with fewer, and no failure under a guard, the lock is exclusive |
| ProfileMerge.UniteGrants | packages/courier/src/profile.ts:322-325 | the outbound loop computes the by-cid union sorted by issue date |
| ProfileMerge.GrantUnionIsUnion | packages/courier/src/profile.ts:322-325 | the merged outbound list names exactly the cids of both sides, once each, in date order |
| ProfileMerge.GrantUnionPrefersMine | packages/courier/src/profile.ts:322-325 | for a cid known to both sides the command's own last entry stands |
| ProfileMerge.MergeFields | packages/courier/src/profile.ts:318-333 | the field loop fills the record of merged fields, and fails exactly when both sides changed the inbound delegation and one removed it |
| ProfileMerge.MergePeer | packages/courier/src/profile.ts:299-334 | the three-way merge of one peer with its refusals, equal to the specification the laws below are about |
| ProfileMerge.UneditedPeerKeepsDisk | packages/courier/src/profile.ts:300 | a peer this command did not touch keeps the file's value |
| ProfileMerge.UnchangedDiskTakesMine | packages/courier/src/profile.ts:299-334 | onto an unchanged file the command's peer is written, except that a paired peer is never made unpaired: that is refused |
| ProfileMerge.PairedSurvivesMerge | packages/courier/src/profile.ts:306-308 | a peer paired in the file stays paired through every accepted merge that does not delete it |
| ProfileMerge.RevokedStaysGone | packages/courier/src/profile.ts:302-305 | a peer gone from the file comes back only when the command's loaded copy did not have it; a changed copy of it is refused |
| ProfileMerge.InboundNeverShortens | packages/courier/src/profile.ts:326-328 | the merged inbound delegation ends no earlier than either side's |
| ProfileMerge.OutboundIsUnited | packages/courier/src/profile.ts:322-325 | after append-only edits the merged outbound cids are the union of both sides |
| ProfileMerge.GrowthIsWritten | packages/courier/src/profile.ts:318-333 | whatever happened to the file since the load, a growing edit keeps all delegations and the inbound expiry of the file, and all that it added itself |
| ProfileMerge.MergeProfile | packages/courier/src/profile.ts:336-354 | the merge of two profiles refuses another agent's file and every peer refusal, and otherwise gives the merged profile |
| ProfileMerge.UneditedCopyGivesDisk | packages/courier/src/profile.ts:336-354 | merging an unedited copy gives the file |
| ProfileMerge.UnchangedFileTakesCopy | packages/courier/src/profile.ts:336-354 | merging onto an unchanged file gives the copy, refused exactly when it would unpair a peer |
| LiveProfile.PeerObject.Adopt | packages/courier/src/profile.ts:357-363 | adopting makes the live object hold the source's fields, removing those it lacks |
| LiveProfile.ProfileObject.AdoptPeers | packages/courier/src/profile.ts:366-374 | the peer table takes the saved peers; surviving peers are the same objects, updated in place, and new ones are new objects |
| LiveProfile.ProfileObject.Adopt | packages/courier/src/profile.ts:357-374 | the caller's profile equals the saved one with object identity kept |
| LiveProfile.ProfileObject.DropExpiredPending | packages/courier/src/profile.ts:276-279 | exactly the expired unfinished pairings go |
| LiveProfile.Store.LoadProfile | packages/courier/src/profile.ts:289-294 | the loaded object holds the file without expired pairings and that is its baseline |
| LiveProfile.Store.SaveProfile | packages/courier/src/profile.ts:439-455 | an accepted save writes the merge, makes the caller's object equal to it with surviving peer objects kept, and sets the new baseline; a refused one changes nothing; a profile from scratch overwrites |
| ProfileRuns.PairedUntilDeleted | packages/courier/src/profile.ts:299-334 | over any run of load, edit and save by many commands, a peer paired in the file stays paired until a named step deletes it |
| ProfileRuns.RevokedUntilAdded | packages/courier/src/profile.ts:302-305 | a deleted peer returns only from a command whose loaded copy did not have it |
| ProfileRuns.SaveOfRevokedPeerIsRefused | packages/courier/src/profile.ts:302-305 | a command that changed a peer that was revoked meanwhile is refused and the file stays |
| ProfileRuns.DeletionIsWritten | packages/courier/src/profile.ts:301 | an accepted save that deleted a peer writes a file without it |
| ProfileRuns.SaveWithoutEditKeepsFile | packages/courier/src/profile.ts:439-455 | a second save with no edit leaves the file as it is then, apart from expired pairings |
| ProfileRuns.SaveLosesNothing | packages/courier/src/profile.ts:318-333 | an accepted save of growing edits keeps every peer of the file with all its delegations and its inbound expiry; a peer goes only when it is unpaired and expired at one of the two clock readings, a paired one never |
| ProfileRuns.SaveWritesMine | packages/courier/src/profile.ts:318-333 | an accepted save writes all that the command added; the delegations are those of file and command together when the file still has what the command loaded |
| ProfileRuns.PeerIsKept | packages/courier/src/profile.ts:439-455 | the step at which a peer expires, until which it keeps all it had; none for a paired peer |
| ProfileRuns.NoRecordIsLost | packages/courier/src/profile.ts:439-455 | over whole runs of such edits, of the pair status too, by any number of commands: every paired peer is there at the end, paired, with all it had; any other peer too, unless a step of the run is the one at which it expired |
| ProfileRuns.AddedIsKept | packages/courier/src/profile.ts:439-455 | from a start with no copies: what an accepted save added to a peer that is then paired is in the file for ever |
| LiveRuns.Save | packages/courier/src/profile.ts:439-455 | the save of a live object, accepted or refused, is the save event of the runs |
| LiveRuns.Load | packages/courier/src/profile.ts:289-294 | the load of a live object is the load event |
| LiveRuns.Overwrite | packages/courier/src/profile.ts:439-455 | the save of an object without a baseline is the overwriting event |
| Rotation.Home.DropPendingDelegation | packages/courier/src/pending.ts:134-138 | expired records and those of one delegation go, all others stay in order |
| Rotation.Home.ApplyRotation | packages/courier/src/state.ts:494-504 | a replay killed after any number of effects leaves exactly what that prefix of the plan leaves |
| Rotation.Home.RotateKey | packages/courier/src/state.ts:477-486 | killed before the journal is in place nothing changed; afterwards the replay of the journal |
| Rotation.Home.FinishRotation | packages/courier/src/state.ts:532-541 | without a journal nothing happens, an invalid one is refused with nothing changed, a valid one is replayed |
| Rotation.OwnJournalIsAccepted | packages/courier/src/state.ts:400-415 | every journal a rotation writes passes the checks of the recovery |
| Rotation.JournalListsWhatIsDiscarded | packages/courier/src/state.ts:418-486 | a rotation discards exactly the live redeemed delegations of a readable old key, keeps and reports all of them otherwise, and discards a held approval |
| Rotation.NoticesNameWhatGoes | packages/courier/src/state.ts:509-529 | the warnings name everything discarded, removed or kept, and nothing else |
| Rotation.ReplayMovesOn | packages/courier/src/state.ts:494-504 | a replay from any state a crash can leave ends complete, or again in such a state if killed |
| Rotation.RotationIsCrashAtomic | packages/courier/src/state.ts:477-504 | for every sequence of killed attempts, once one finishes all files are as an uninterrupted rotation leaves them and the warnings were printed; until then the journal is on disk |
| Rotation.OtherDelegationsSurvive | packages/courier/src/state.ts:450-463 | a live redeemed delegation survives exactly when the journal did not list it; all survive when the old key was unreadable |
| Rotation.InvalidJournalChangesNothing | packages/courier/src/state.ts:532-538 | refused recoveries change nothing, however often they run |
| RotationRace.NoOldGrantBesideNewProfile | packages/courier/src/profile.ts:408-424 | in every interleaving of rotations (one at a time, recovered after kills) with commands that save grants and profiles, whenever no journal is on disk key.json and a saved grant belong to the agent in profile.json |
| RotationRace.OutlivedCommandIsRefused | packages/courier/src/profile.ts:408-422 | a command loaded before the profile was replaced writes neither grant nor profile |
| RotationRace.OneSaverAtATime | packages/courier/src/profile.ts:386-406 | at most one running process is inside the profile lock |
| RotationRace.RunKeepsInv | packages/courier/src/state.ts:494-504 | the invariant over files, lock, commands and rotator is kept by every run |
| RotationRace.RewriteIsSafeIffTimely | packages/courier/src/commands.ts:163-192 | with no rotation on disk, writing the loaded key back is harmless exactly when no rotation came between the load and the write |
| RotationRace.RewriteKeepsInvIffTimely | packages/courier/src/commands.ts:163-192 | with a journal on disk or without, writing the loaded key back keeps the invariant exactly when it is the key that is there, or the rotation is still to save its own and nothing has the new agent yet |
| RotationRace.LateRewriteDoesHarm | packages/courier/src/commands.ts:163-192 | an untimely write while a rotation is past its key has a run that ends with the old key beside the new profile |
| RotationRace.InitRacingARotation | packages/courier/src/commands.ts:163-192 | a concrete run in which plain init writes a stale key back and a new key's grant ends beside the old key's profile |
| Approval.StageNeverGoesBack | packages/courier/src/approval-phase.ts:94-100 | over every run of commands one after another, kills included, the stage of one saved request never goes back and its identity never changes |
| Approval.AckOnlyAfterCommit | packages/courier/src/grant-request.ts:352-359 | over every run of commands one after another, every acknowledgement was sent while the request on disk was committed, and its grant and profile were on disk when it was marked |
| Approval.CommittedWasInstalled | packages/courier/src/grant-request.ts:337-353 | a committed request had exactly its delegation in grant and profile when it was marked |
| Approval.KilledRunGoesOn | packages/courier/src/grant-request.ts:309-313 | a killed command and a later one make one run again, so the results hold across kills |
| ApprovalRace.StagesKeepIffGuarded | packages/courier/src/grant-request.ts:320-354 | for any number of commands that interleave and are killed anywhere: no stage goes back and no removed request returns if and only if every save of a copy finds the file holding that request, no further than the copy |
| ApprovalRace.StepGoesBackUnlessGuarded | packages/courier/src/approval-phase.ts:169-171 | the same for one step |
| ApprovalRace.OwnFileIsGuarded | packages/courier/src/grant-request.ts:320-354 | a save over what the command itself last read or wrote keeps the stage |
| ApprovalRace.OneByOneNeverGoesBack | packages/courier/src/grant-request.ts:309-313 | commands of which each ends or is killed before the next starts never take a request back |
| ApprovalRace.OneByOneIsRun | packages/courier/src/grant-request.ts:171-360 | such commands make a run as the results of Approval are about |
| ApprovalRace.StageCanGoBack | packages/courier/src/grant-request.ts:320-354 | from every saved request with a reference, a run of two commands takes it to committed and back to collected |
| ApprovalRace.AckFollowsSaves | packages/courier/src/grant-request.ts:337-359 | in every interleaving with kills, an acknowledgement is for a committed record of which one command saved before, in this order, grant, profile and record: its sender, or a command whose record the sender read afterwards |
| Approval.Home.SettleLapsed | packages/courier/src/grant-request.ts:129-145 | the outcome of asking about a lapsed request, case by case of OpenKey's answer |
| Approval.Home.RequestApproval | packages/courier/src/grant-request.ts:171-187 | a request that holds an approval is never replaced; a matching one is reused as its lapse and the answer say; a link handed out is saved unless the clock was set back |
| Approval.RequestDropsExactlyWhen | packages/courier/src/grant-request.ts:171-187 | a matching unapproved request is let go exactly when it lapsed and no result is expected, or when it expires between the two clock readings, in which case OpenKey is not asked |
| Approval.HandedOutUnsavedExactlyWhen | packages/courier/src/grant-request.ts:171-187 | a link of a request that is no longer saved is handed out exactly when the clock is set back after the drop |
| Approval.Home.WaitApproval | packages/courier/src/grant-request.ts:203-219 | a held approval is resumed untouched; a matching unapproved request is dropped exactly when lapsed and no result is expected |
| Approval.WindowIsExact | packages/courier/src/grant-request.ts:108-130 | the 600 s retention plus 60 s skew window is exact: past it no result can be held, before its end one may be |
| Approval.Home.CollectFailure | packages/courier/src/grant-request.ts:230-249 | which failures of a collection drop the saved request and which keep it |
| Approval.Home.Collect | packages/courier/src/grant-request.ts:317-336 | reference and encrypted result are on disk before anything else is done with them |
| Approval.Home.InstallGrant | packages/courier/src/grant.ts:439-464 | the grant is saved before the profile takes its fields; done and no-space both mean that both are saved |
| Approval.ClockRefusalKeepsApproval | packages/courier/src/grant.ts:408-420 | a refusal about time drops the approval only when the signed expiry is absent or past by more than the tolerated skew |
| Approval.Home.InstallAndCommit | packages/courier/src/grant-request.ts:337-356 | which install failures keep the approval, and that the mark is on disk before the acknowledgement |
| Approval.Home.Acknowledge | packages/courier/src/grant-request.ts:288-307 | one acknowledgement with the saved reference and id; the record goes only when it is settled |
| Approval.Home.CompleteApproval | packages/courier/src/grant-request.ts:314-360 | at most one acknowledgement, only for an installed and committed request; a deadline loses nothing; a saved result is not collected again |
| InitState.HeldApprovalIsKept | packages/courier/src/state.ts:119-156 | an approval the owner gave always leads to wait, to resuming a saved grant first, or to a refusal when profile or key is missing |
| InitState.RequestOnlyWithoutGrantOrApproval | packages/courier/src/state.ts:127-156 | a new approval is asked for only when nothing usable is saved |
| InitState.StateNamesItsAction | packages/courier/src/state.ts:127-156 | the name of the derived state determines the action |
| Outbox.AtMostOnce | packages/courier/src/outbox.ts:459-506 | over all runs of any number of senders with kills and restarts, no item is sent twice and each send is of the content whose digest is in the ledger |
| Outbox.SpentIsNeverSent | packages/courier/src/outbox.ts:278-283 | a reserved item whose sender died or has sent it is never sent again |
| Outbox.CrashSpends | packages/courier/src/outbox.ts:483-499 | a sender killed before its send leaves the item spent |
| Outbox.CheckRate | packages/courier/src/outbox.ts:254-262 | the counting loop: refused exactly when the markers of the peer in the rolling hour reach the cap, and on any unreadable marker |
| Outbox.SentExactlyWhen | packages/courier/src/outbox.ts:459-484 | an item is sent exactly when its request passes every check, so only approved content of a paired peer under its cap, never reserved before |
| Outbox.EveryReservationHasAResult | packages/courier/src/outbox.ts:278-283 | after a start whose writes succeed every marker has a result, and recorded ones are kept |
| Outbox.Sender.ReconcileUncertain | packages/courier/src/outbox.ts:278-283 | the loop records uncertain for exactly the markers without a result and counts them |
| Outbox.Sender.OutPerHour | packages/courier/src/outbox.ts:450-457 | an invalid peers file keeps the last policy; before any loaded the cap is one |
| Outbox.Sender.ProcessRequest | packages/courier/src/outbox.ts:459-506 | a request changes the disk only when it passes every check, and then by marker, send and result; the reply is the first refusal that applies |
| Outbox.RequestIsSteps | packages/courier/src/outbox.ts:459-506 | any request, passed, refused or in a dry run, is at most five steps of the machine of many senders |
| OutboxBudgets.RollingHourBound | packages/courier/src/outbox.ts:254-262 | whatever the clock does between requests and across restarts, every half-open hour holds at most the cap of reservations for a peer |
| OutboxBudgets.RollingHourFromStart | packages/courier/src/outbox.ts:254-262 | so from an empty outbox no hour ever holds more than the cap |
| OutboxBudgets.BoundNeedsSteadyClock | packages/courier/src/outbox.ts:480-484 | an admitted reservation keeps the bound from every state exactly when its second clock reading is not before its first |
| OutboxBudgets.RequestKeepsHourBound | packages/courier/src/outbox.ts:459-506 | the sender's own request keeps the bound |
| OutboxBudgets.RequestWindow.AdmitRequest | packages/courier/src/outbox.ts:431-440 | the fixed-window counter follows its specification |
| OutboxBudgets.TwoBudgetsPerMinute | packages/courier/src/outbox.ts:429-440 | with a steady clock any half-open minute admits at most 120 requests, and at most 119 for any real clock |
| OutboxBudgets.TwoBudgetsAreReached | packages/courier/src/outbox.ts:429-440 | 119 is reached |
| OutboxBudgets.BudgetedLog.Log | packages/courier/src/outbox.ts:343-360 | one event is written, or counted, after an overdue report |
| OutboxBudgets.NoEventIsUncounted | packages/courier/src/outbox.ts:343-360 | for any clock, events passed in are those written plus those reported as suppressed plus those pending |
| Invitation.RunKeepsInv | packages/courier/src/invitation.ts:197-250 | the invariant over stores, servers and joiners is kept, and winner and answer are never undone |
| Invitation.ServersAgree | packages/courier/src/invitation.ts:197-250 | all servers that finish installed the same peer and stored delegation, and the peer is one the mode admits |
| Invitation.OneAgentJoins | packages/courier/src/invitation.ts:335-356 | a joiner becomes active only if its claim is the reserved winner, so active joiners are one agent with one pairing |
| Invitation.OneAgentHasJoined | packages/courier/src/invitation.ts:308-356 | agents whose files say they joined are one agent, over restarts |
| Invitation.BothSidesAgree | packages/courier/src/invitation.ts:197-356 | each side's inbound delegation is the one the other side gave it, whatever was written on the relay |
| Invitation.WinnerIsFinal | packages/courier/src/invitation.ts:212-237 | a reserved winner and a stored answer stay in every later run |
| Invitation.PairingCanFinish | packages/courier/src/invitation.ts:197-356 | for an eligible agent some run ends with a finished server and an active joiner |
| Kv.Space.TryCreate | packages/courier/src/store.ts:58-68 | create-only put: writes only a key that is not there |
| Kv.Space.TryMatch | packages/courier/src/store.ts:71-81 | if-match put: writes only over the write whose etag is given |
| Kv.MatchSeesNoOtherWrite | packages/courier/src/store.ts:71-81 | after any sequence of overwriting, create-only and if-match writes by anybody, an if-match write of the etag read before succeeds exactly when none of them wrote the key |
| Kv.CreateSeesNoOtherWrite | packages/courier/src/store.ts:58-68 | and a create-only write after a read of nothing exactly when none of them wrote the key |
| Receipts.SelectUndelivered | packages/courier/src/inbox.ts:45-53 | the selection loop follows its specification |
| Receipts.UndeliveredAre | packages/courier/src/inbox.ts:45-53 | exactly the listed messages that are not recorded as delivered are selected |
| Receipts.Advance | packages/courier/src/inbox.ts:115-121 | the delivery loop computes the advanced record |
| Receipts.AdvancedAllHas | packages/courier/src/inbox.ts:115-121 | a commit adds exactly its own deliveries to what it read |
| Receipts.TouchedThreadInOrder | packages/courier/src/inbox.ts:116-120 | whatever a list was, each list a commit writes is sorted, without duplicates, with its greatest element last delivered |
| Receipts.OrderDoesNotMatter | packages/courier/src/inbox.ts:115-121 | what a commit writes does not depend on the order of its deliveries or on repetitions |
| Receipts.CommitReceipts | packages/courier/src/inbox.ts:106-133 | the retry loop commits exactly when one of three attempts is not disturbed, adding to what others stored |
| Receipts.ReceiptsLoseNothing | packages/courier/src/inbox.ts:106-133 | in every interleaving of committers the delivered set only grows and every successful commit is in it for ever |
| Receipts.NothingIsInvented | packages/courier/src/inbox.ts:106-133 | every recorded delivery was there at the start or collected by a committer |
| Receipts.ListsStayInOrder | packages/courier/src/inbox.ts:116-120 | all lists stay sorted, without duplicates, in every run |
| Receipts.AtMostThreeAttempts | packages/courier/src/inbox.ts:108 | a committer makes at most three attempts |
| Broker.VerifiedMeansDecided | packages/courier/src/approval.ts:64-144 | a verified decision is the owner's on this very request, made within its window, for what the caller named, and lapses for good after a day |
| Broker.ChangedRequestIsRefused | packages/courier/src/approval.ts:88-90 | a request changed after the decision is refused |
| Broker.UnusedIsCertain | packages/courier/src/consumed.ts:15-41 | the read of the used-marker fails closed: unused is concluded only without a marker |
| Broker.OneApprovalOneAction | packages/courier/src/broker.ts:163-207 | in every interleaving of brokers and consuming callers with kills, at most one passes the consume step of an id and at most one merge command is run for it, after passing |
| Broker.OnlyTheApprovedMerge | packages/courier/src/broker.ts:163-207 | every merge command is for the pull request and head commit of a request whose hash the owner approved, and merges only that head |
| Broker.ApprovedBaseIsMerged | packages/courier/src/broker.ts:184-197 | what is merged has the approved base provided no pull request gets another base between a caller's view and its merge of it; all other retargets are harmless |
| Broker.SafeIffAwaitedStay | packages/courier/src/broker.ts:184-197 | the condition is exact: from every state of a run nothing can be merged on an unapproved base without a further retarget, if and only if no step of the run gave a pull request another base between a caller's view and its merge |
| Broker.StepIsSafeIff | packages/courier/src/broker.ts:184-197 | the same for one step from any safe state |
| Broker.SafeWhenOnBase | packages/courier/src/broker.ts:184-197 | a state is safe exactly when each caller that may still merge compared the base its pull request has |
| Broker.MergeAfterChange | packages/courier/src/broker.ts:185-197 | after a change, the next merge of a caller that passed is on the approved base exactly when the change left that base or the command cannot merge |
| Broker.RetargetedIsMerged | packages/courier/src/broker.ts:163-207 | every approval that can be used can be used for any other base: some run retargets the pull request after the view and merges it there |
| Broker.UnapprovedBaseRun | packages/courier/src/broker.ts:163-207 | a run from an initial state that merges into a base nobody approved |
| Broker.ApprovedMergeCanRun | packages/courier/src/broker.ts:163-207 | an approval that stands can be used: some run merges it |
| BrokerCommand.ParseTarget | packages/courier/src/broker.ts:69-84 | a target that is accepted is a well-formed repository, a hash sign and a number of digits |
| BrokerCommand.TargetRoundTrip | packages/courier/src/broker.ts:69-84 | every repository and number can be named, by exactly one target |
| BrokerCommand.CommandIsForItsTarget | packages/courier/src/broker.ts:77-82 | equal commands merge the same head of the same pull request |
| JsonNumber.NumberRoundTrip | packages/courier/src/canonical.ts:22-25 | every finite number's text is read back as the same number, whatever follows it |
| JsonString.StringRoundTrip | packages/courier/src/canonical.ts:26-32 | every string of code units, lone surrogates included, is read back from its text |
| JsonRoundTrip.ParseInvertsPrint | packages/courier/src/canonical.ts:16-33 | parsing the text of a value gives the value back |
| JsonRoundTrip.PrintIsOneToOne | packages/courier/src/canonical.ts:16-33 | different values have different texts |
| Canonical.CanonicalizesWhen | packages/courier/src/canonical.ts:21-28 | at any depth the function succeeds exactly for finite numbers and enough remaining levels |
| Canonical.CanonicalIsPrinted | packages/courier/src/canonical.ts:16-33 | the text built from sorted keys is the printed text of the JSON value meant, undefined properties dropped |
| CanonicalKey.CanonicalWhen | packages/courier/src/canonical.ts:16-28 | a value has a canonical text exactly when its numbers are finite and it is nested at most 64 levels |
| CanonicalKey.TextsAreEqualWhenValuesAre | packages/courier/src/canonical.ts:16-33 | two canonical texts are equal exactly when the values are equal as JSON values: objects as maps, -0 as 0 |
| CanonicalKey.ParsingGivesTheValue | packages/courier/src/canonical.ts:16-33 | parsing the canonical text gives the value back |
| CanonicalKey.PrintingAgainGivesTheText | packages/courier/src/canonical.ts:16-33 | printing what was parsed gives the same text |
| CanonicalKey.HashesAreEqualWhenValuesAre | packages/courier/src/canonical.ts:36-38 | two request hashes, of UTF-8 bytes, are equal exactly when the requests are equal as JSON values |
| CanonicalKey.CanonicalTextIsWhole | packages/courier/src/canonical.ts:26-32 | a canonical text has no lone surrogate, which the bytes could not tell apart |
| Utf8.EncodeIsOneToOne | packages/courier/src/canonical.ts:36-38 | texts without lone surrogates are told apart by their UTF-8 bytes |
| Utf8.LoneSurrogatesMerge | packages/courier/src/canonical.ts:36-38 | all lone surrogates have the same bytes, so the escaping of the canonical text is needed |
| DidKey.EncodeBase58 | packages/courier/src/did-key.ts:6-14 | the three loops compute the base change with a 1 for each leading zero byte |
| DidKey.Base58RoundTrip | packages/courier/src/did-key.ts:6-14 | decoding gives the same bytes back, leading zeros included |
| DidKey.Base58IsOnto | packages/courier/src/did-key.ts:6-14 | every text over the alphabet is the encoding of what it decodes to |
| DidKey.Base58IsOneToOne | packages/courier/src/did-key.ts:6-14 | different byte strings have different texts |
| DidKey.DidKeyIsOneToOne | packages/courier/src/did-key.ts:17-19 | different public keys have different identifiers |
| DidKey.AcceptsExactly | packages/courier/src/did-key.ts:22-26 | exactly 43 characters of the alphabet with two zero bits in the last one are accepted, as 32 bytes |
| DidKey.TextsAreKeys | packages/courier/src/did-key.ts:22-26 | accepted texts and 32-byte strings correspond one to one |

## Left out

- Network calls, SDK sessions, delegation activation, link resolution, relay decryption and signatures: their answers are parameters.
- File modes, ownership, symlinks, fsync, temp files and their sidecars, machine and boot ids: files are created, renamed and removed atomically, and the liveness probe is an answer.
- Legacy lock records that carry only a pid, whose nonce is not fresh.
- Two rotations or recoveries at once, and concurrent first-time inits: `RotationRace` has one rotator at a time.
- RotationRace.NoOldGrantBesideNewProfile: assumes that plain `init` writes its loaded key back before any rotation replaced it, or while one is still to save its own and nothing has the new agent yet, because without that the property fails.
- RotationRace.RewriteKeepsInvIffTimely: exact for the invariant; a write that a recovery repairs although some command that can no longer save already has the new agent counts as untimely.
- FileLock.MutualExclusion: assumes that, while a stale record stands, no breaker finds all its 8 guard slots taken by dead breakers and no read or unlink of it fails under a guard, because otherwise exclusion fails.
- Approval.StageNeverGoesBack: one approval command at a time, because two save their copies of the request over each other; `ApprovalRace` has several at once.
- Approval.AckOnlyAfterCommit: one approval command at a time; what holds with several is `ApprovalRace.AckFollowsSaves`.
- ApprovalRace.AckFollowsSaves: does not say that grant and profile are still on disk when the acknowledgement is sent, because another command may have saved others since.
- OutboxBudgets.RollingHourBound: assumes that the clock does not step back between the two readings of one request, which is exactly what the bound needs, and one serving process at a time.
- Broker.ApprovedBaseIsMerged: assumes that no pull request changes its base between a caller's view and its merge, because the merge command does not name it.
- Invitation.ServersAgree: does not model the refusal of an install whose handle already belongs to another pairing, which ends that server.
- An unreadable or corrupt approval file: it is refused or set aside before the modelled code, with no case analysis worth a proof.
- The approval request's field validators, the verification of a decrypted result field by field, and `waitForSpaceReady`: each is an outcome of the install or collection.
- Handles that are names of `Object.prototype`, array holes and objects with `toJSON`: not values of the modelled types.
- Doubles: a finite number is represented by its shortest decimal digits and its exponent, so that equal digits mean equal numbers.
- SHA-256 and Ed25519: abstract, see the assumptions.
- Receipts.SelectUndelivered: does not model the sort by `localeCompare` at the end of `selectUndelivered`, which depends on the locale.
- `collectInbound` beyond the selection: listing, fetching and viewing messages of each peer.
- `readRetry`: three reads instead of one, with no effect on what is read.
- Invitation.PairingCanFinish: states that some run finishes, not that every fair run does.
- The canonicalisation of targets (`guard/target.ts`): a stored target is canonical.
- `gh` itself: its view and merge are answers over a map of pull requests, and it merges only the head it is told to match.
- Socket framing, connection limits and queueing of the outbox; requests reach `Outbox.Sender.ProcessRequest` one at a time.
- The log fields and messages of every component, except the counts of the budgeted log.
- The bootstrap manifests, apps, MCP and CLI wrappers, wake adapters and service files: mostly constants.
