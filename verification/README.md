# A verified model of Li's stateful core

Li is a private assistant: a FastAPI backend, a browser front end, and a small service that keeps one
profile photo in a cloud object. This project states, in Dafny 4.11, what its most intricate code keeps
true, and proves it. `dafny verify dfyconfig.toml` checks everything.

The parts, one module a file:

- **The photo store** (`Uuid`, `ProfileCodec`, `ProfileProtocol`, `ObjectStore`). Revisions in canonical
  UUID text, the binary object codec, the compare-and-swap code over a bounded and generation-pinned
  provider, and the whole store as a distributed protocol: any number of clients whose reload, download,
  compare and conditional write are separate steps, with replies that get lost and writes that land late.
- **A chat turn** (`ChatTurn`). Claim, stages, fence, memory writes, the email draft and the final label,
  where every boundary call may raise any exception.
- **The evidence gate** (`EvidenceGate`). How a turn with specialists ends for every possible output of the
  model, the specialists and the research provider.
- **The decoder supervisor** (`DecoderSupervisor`). One slot, one worker process, any schedule of spawns,
  exits, timeouts and cancellations.
- **The spending ledger** (`TrialLedger`). A write-ahead journal with failing appends, used by threads that
  interleave.
- **The photo widget** (`PhotoWidget`). Object URLs owned by overlapping asynchronous closures.
- **Algorithms against simple specifications**: `VisitCounts`, `CalendarConflicts`, `BriefRanking`,
  `Rhythms`, `ContextAssembly`, `ConversationContext`, `RateLimiter`; with `StableSort` and `Sums` for the
  library functions they use, and `Wrappers` for optional values and results.

Code that changes state is a class, or a method with the loops of the original, proved equal to a function
of the state; what the code promises is proved about those functions over every run, and the classes that
live across calls carry the run invariant as `Valid()`. Assumptions about the outside are few and stated where
they are made: a provider generation names one content for ever, fresh
UUIDs are fresh, a real charge stays within its call's reservation and within the ledger's price of the usage
reported for it, clocks do not run backwards. Everything else the outside does is arbitrary.

Four findings came out of the proofs, each with the exact condition:

- `next_occurrence` searches 370 days, which is not enough for a birthday on 29 February: it fails exactly
  when no leap day is still ahead this year, unless next year is a leap year and the date is 25 February or
  later (`Rhythms.WhenAnOccurrenceIsInReach`, `Rhythms.LeapDayBirthdayIsNotScheduled`). The function allows such a
  birthday; its two callers today (backend/app/main.py:831 and :924) pass none, so they never meet the case.
- An accepted chat-turn claim ends with a label exactly when its identifiers can be read. If `attempt_token`
  or `conversation_id` is not a UUID, the ValueError (backend/app/main.py:1434 and :1441) escapes every
  handler, and the claim stays unlabelled, with nothing dispatched (`ChatTurn.Turn.LiChat`). This assumes that
  attaching the diagnostics and turning the response into plain JSON values (backend/app/main.py:1514-1552)
  does not raise: that code runs before the label, where only a database error is caught.
- The decoder's slot is given back over a worker that still runs exactly when killing it fails with an error
  other than "no such process"; a run is tidy throughout if and only if every kill of a running worker succeeds
  (`DecoderSupervisor.RefusedKillLeaksTheWorker`, `DecoderSupervisor.TidyExactlyWhenKillsSucceed`,
  `DecoderSupervisor.TwoWorkersAfterARefusedKill`).
- The trial budget allows 16 calls, but the fixed envelope of every reservation is so large that no more
  than ten can be unsettled at once (`TrialLedger.LimitsHold`); ten can (`TrialLedger.TenCallsCanBeOpen`).

## Model

| member | source | states |
|---|---|---|
| Uuid.ValueOfHex | profile-service/profile_state.py:29-36 | reading back the hexadecimal digits of any value that fits gives the value |
| Uuid.HexOfValue | profile-service/profile_state.py:29-36 | printing the value of any lower-case digits gives those digits back |
| Uuid.ParseOfFormat | profile-service/profile_state.py:29-36 | `UUID(str(u)) == u` for every 128-bit value |
| Uuid.FormatIsCanonical | profile-service/profile_state.py:29-36 | what the UUID printer writes has the form of section 4 of RFC 9562, in lower case |
| Uuid.CanonicalIsFormat | profile-service/profile_state.py:29-36 | every text of that form is the print of some 128-bit value |
| Uuid.ValidRevisionIsCanonical | profile-service/profile_state.py:29-36 | `valid_revision` accepts a text if and only if it is canonical |
| Uuid.LenientParserDecidesTheSame | profile-service/profile_state.py:29-36 | that does not depend on which other spellings the parser reads: any parser right on canonical text gives the same verdict |
| ProfileCodec.RevisionIsAscii | profile-service/object_repository.py:43-45 | a valid revision is 36 ASCII characters, so encoding it cannot fail |
| ProfileCodec.AsciiRoundTrip | profile-service/object_repository.py:43-64 | the ASCII codec of the revision loses nothing |
| ProfileCodec.DecodeOfEncode | profile-service/object_repository.py:10-64 | every valid snapshot is stored within the size bound and read back as it was |
| ProfileCodec.EncodeOfDecode | profile-service/object_repository.py:48-64 | accepted bytes are the only spelling of their snapshot, and that snapshot is valid: the codec is a bijection |
| ProfileCodec.StoredLayout | profile-service/object_repository.py:10-45 | the stored bytes one by one: the magic text and a zero, the revision, `P` or `E`, the photo |
| ObjectStore.BoundedBuffer.Write | profile-service/gcs_object_store.py:85-93 | a chunk is kept whole exactly when the total stays within the bound, otherwise refused with the buffer unchanged |
| ObjectStore.GoogleCloudObjectStore.Read | profile-service/gcs_object_store.py:121-165 | an object only when all bytes of the pinned positive generation arrived within the bound; absence only when not-found and verified; an error for everything else |
| ObjectStore.GoogleCloudObjectStore.Write | profile-service/gcs_object_store.py:167-188 | true exactly on a confirmed upload, false exactly on a failed precondition, an error otherwise and for bad arguments |
| ObjectStore.ObjectRepository.CompareAndSwap | profile-service/object_repository.py:88-104 | a write is issued exactly when the object read decodes to the expected revision, conditional on that object's generation, spelling the replacement; and exactly when a client of `ProfileProtocol` would send one |
| ProfileProtocol.SwapReadIsJustified | profile-service/object_repository.py:88-104 | a client sends a write only under a generation whose content carries the revision it expects |
| ProfileProtocol.JustifiedHolds | profile-service/object_repository.py:88-104 | if the provider's condition still holds on delivery, the live object carries the writer's expected revision |
| ProfileProtocol.FinishReadKeepsInv | profile-service/profile_state.py:96-128 | whatever a read found, the client's next move, pinned by `WhyAReadIsTheLast` and `ExpectedReadGoesOn`, keeps the protocol invariant |
| ProfileProtocol.LandKeepsStore | profile-service/gcs_object_store.py:167-188 | a delivered write, accepted or refused, keeps history, log and verdicts consistent |
| ProfileProtocol.StepKeepsInv | profile-service/profile_application.py:58-90 | every step of every client, and every late delivery, keeps the invariant |
| ProfileProtocol.RunKeepsInv | profile-service/profile_application.py:58-90 | so does every interleaving of any number of clients |
| ProfileProtocol.EveryWriteReplacedItsExpected | profile-service/object_repository.py:88-104 | in every run each accepted write replaced an object whose decoded revision was the writer's expected one, or absence for `ABSENT`; the live object is always the last accepted one |
| ProfileProtocol.RevisionsFormAChain | profile-service/profile_state.py:105-128 | each accepted write expects its predecessor's revision; expected and stored revisions never repeat, so one write per expected revision is accepted and `ABSENT` is left at most once |
| ProfileProtocol.RunOnlyAdds | profile-service/profile_state.py:105-128 | verdicts never change, the log only grows, a write in flight lands as it was sent or not at all |
| ProfileProtocol.RepliesAreTrueForEver | profile-service/profile_state.py:105-115 | a confirmed save is in the log for ever, once, with the client's photo over its expected revision; a save that lost, that a comparison refused, or whose last read failed never gets in, however late |
| ProfileProtocol.RunKeepsAbandoned | profile-service/profile_state.py:105-115 | a revision that was minted, not sent, and that nobody is about to send never gets into the log |
| ProfileProtocol.RemovalIsFinal | profile-service/profile_state.py:122-128 | after a removal's tombstone no write based on the removed or an older revision is accepted, and one still in flight never lands |
| ProfileProtocol.TombstonesReplacePhotos | profile-service/profile_state.py:122-128 | in every run a stored tombstone replaced an object with a photo, because one revision names one snapshot in all of the history |
| ProfileProtocol.StepRemovesPhotos | profile-service/profile_state.py:122-128 | the invariant behind it: whoever is about to remove has read a photo under the revision it expects |
| ProfileProtocol.WhyAReadIsTheLast | profile-service/profile_state.py:96-128 | a read is a client's last exactly when the object is unreadable, or shows another revision, or has nothing left to remove; and the client is told which |
| ProfileProtocol.UndisturbedRequestIsSaved | profile-service/profile_application.py:73-90 | from every reachable state, a save or removal of the current revision that nobody disturbs is confirmed, with its commit at the end of the log |
| ProfileProtocol.UndisturbedRequestWritesNothing | profile-service/profile_application.py:58-90 | from every reachable state, each other undisturbed request leaves the store as it is and ends one way: a removal of nothing keeps the revision, an outdated or malformed one is refused, an unreadable object is unavailable, a bad upload is rejected |
| ProfileProtocol.SavedAndRemoved | profile-service/profile_state.py:117-128 | a run whose log holds a saved photo and then its tombstone |
| ProfileProtocol.FirstSaveIsSent | profile-service/profile_application.py:73-86 | a first save runs through preflight, upload, check and swap to its write |
| ProfileProtocol.UncertainSaveCanStillLand | profile-service/profile_state.py:105-115 | a save reported unavailable after its reply was lost can still be stored later, so that report promises neither outcome |
| ChatTurn.AppendNeutral | backend/app/main.py:1471-1512 | a call that is neither an effect nor a label keeps everything that is claimed of a turn, with the marker set if it announces an effect |
| ChatTurn.AppendEffect | backend/app/main.py:1616-1629 | an effect keeps it when the marker is set and, for a write, the fence and the resolved target are in place |
| ChatTurn.LabelGoodTurn | backend/app/main.py:1471-1512 | labelling `completed` exactly an answered turn, `failed` one without the marker and `uncertain` one with it is always truthful |
| ChatTurn.OnlyAnAnswerCompletes | backend/app/main.py:1471-1552 | a turn whose response was never built carries no other labels than `failed` and `uncertain` |
| ChatTurn.Turn.MarkStage | backend/app/main.py:1598-1606 | the stage is recorded durably exactly under an accepted claim with an attempt token, and in the progress exactly when that did not raise; no effect is dispatched |
| ChatTurn.Turn.BeforeMemoryWrite | backend/app/main.py:1616-1629 | under a turn identity it succeeds only with a durable fence as the very last call, and only then sets the marker |
| ChatTurn.Turn.WriteMemory | backend/app/memory_capture.py:450-459 | one write goes out, and only behind the fence and for a resolved target |
| ChatTurn.Turn.ResolveMemoryTarget | backend/app/memory_capture.py:311-341 | a target is returned if and only if the last lookup found exactly that one match, after lookups that found nothing, and nothing is given up before every filter was tried |
| ChatTurn.Turn.ApplyChange | backend/app/memory_capture.py:436-500 | a correction or forgetting is dispatched at most once, only for explicit memory of low or personal sensitivity |
| ChatTurn.Turn.ApplyMemoryCapture | backend/app/memory_capture.py:399-566 | writes follow the candidates in order, all of them on success and a prefix on failure, and a failure has a reason: a candidate that is incomplete, unresolved, unfenced or refused by the store; a private batch with a proposal for Theo is refused before any call |
| ChatTurn.Turn.DispatchDraft | backend/app/main.py:1748-1814 | the marker is set before an approved draft leaves, and where stages are recorded the record of its dispatch is the very last call before it |
| ChatTurn.Turn.Execute | backend/app/main.py:1565-1884 | changes of existing memories are written before Li is asked, the rest after; without a capture error each asked-for write was dispatched exactly once, and a capture error has its reason; an answered turn did all its work and marked its stages in the order of the code, and any other stopped at its first exception that is not survived |
| ChatTurn.Turn.FinishClaimedTurn | backend/app/main.py:1342-1356 | one label ends the trace, asked for once more only where the token form is not available, and it is truthful |
| ChatTurn.Turn.ClaimTurn | backend/app/main.py:1383-1460 | work begins exactly on an accepted claim with readable identifiers or where claims are not available; a readable replay is answered with the stored response, every other claim with its error, without any further call |
| ChatTurn.Turn.Conclude | backend/app/main.py:1471-1563 | a claimed turn ends with labels and no other turn does; the caller is told `completed` exactly for an answer whose label is known to be stored, `durability_unavailable` for one whose label is not, and otherwise the exception that stopped the turn, unless the label raised another |
| ChatTurn.Turn.RunClaimed | backend/app/main.py:1462-1563 | all of that of a whole turn: `completed` is recorded if and only if the last call before the labels built the response, and reported only when it was recorded |
| ChatTurn.Turn.LiChat | backend/app/main.py:1365-1563 | for every pattern of failures: a memory write under a turn identity is directly preceded by a successful fence, and a draft by the record of its dispatch where stages are recorded; `completed` exactly after a built response, `failed` only if nothing was dispatched, fenced or prepared, `uncertain` only if a write was fenced or an approved draft prepared; nothing is dispatched after a label; an accepted claim ends with a label if and only if its identifiers can be read; a claim not accepted leads to no call; each reply is the one that the work and the label call for |
| EvidenceGate.ValidateEvidenceContract | backend/app/research_runtime.py:265-308 | passes if and only if the acceptable records suffice, and hands on exactly those |
| EvidenceGate.GatherEvidence | backend/app/li_runtime.py:602-731 | a routed specialist that requires evidence, Nora aside, is `live_verified` if and only if its provider is compliant and the acceptable records it retrieves suffice, otherwise `could_not_verify`; without a compliant provider nothing is retrieved |
| EvidenceGate.ConsultSpecialists | backend/app/specialist_runtime.py:498-533 | more than three distinct specialists, or one that raises, are an error; otherwise each of the asked gave a genuine analysis or is listed once as unavailable, never both |
| EvidenceGate.FillUnverified | backend/app/li_runtime.py:750-761 | exactly the unverified specialists get a filler, nobody else's result changes |
| EvidenceGate.RefineNora | backend/app/li_runtime.py:763-814 | a research request of Nora's changes only her own record and analysis, and is granted exactly when her provider is compliant and the records suffice |
| EvidenceGate.FillLost | backend/app/li_runtime.py:815-833 | a specialist that required evidence and lost its analysis is marked unverified and filled |
| EvidenceGate.WantingEvidenceBlocks | backend/app/li_runtime.py:695-731 | one routed specialist that lacks a compliant provider, sufficient records or an analysis, where evidence is required, blocks the turn |
| EvidenceGate.SufficientEvidenceUnblocks | backend/app/li_runtime.py:706-731 | with all of that for every routed specialist the turn is not blocked |
| EvidenceGate.UnblockedState | backend/app/li_runtime.py:815-878 | after consultation, refinement and filling the gate blocks exactly when the inputs say it must; otherwise exactly the specialists that answer have a genuine analysis |
| EvidenceGate.AnswerDirectly | backend/app/li_runtime.py:1009-1050 | the direct path names no specialist, and falls back to the safe text when the model claims one |
| EvidenceGate.Synthesize | backend/app/li_runtime.py:1052-1095 | whatever was generated, a blocked turn ends in the safe outcome; otherwise only available specialists are named |
| EvidenceGate.AnyBlocked | backend/app/li_runtime.py:874-878 | blocked if and only if some required evidence could not be verified |
| EvidenceGate.TalkToLi | backend/app/li_runtime.py:541-1130 | blocked if and only if the policies, the retrieved records and the specialists' answers say so; blocked turns end in the fixed safe response without actions or specialists, because fillers make the early return unreachable; others end in the generated or repaired answer, each specialist that required evidence has a genuine analysis and, Nora aside, sufficient live evidence, and every specialist named gave a genuine analysis; errors come only from outside |
| DecoderSupervisor.DecoderProcess.Normalize | profile-service/decoder_process.py:61-79 | the slot is taken exactly for a valid upload while it is free, and then by this job alone; the invariant holds before and after |
| DecoderSupervisor.DecoderProcess.SeeSpawn | profile-service/decoder_process.py:80-104 | the resumption after the spawn is that step of the transition system |
| DecoderSupervisor.DecoderProcess.OnInterrupt | profile-service/decoder_process.py:44-54 | a cancellation during cleanup only sets the flag, elsewhere it leads into cleanup |
| DecoderSupervisor.DecoderProcess.BeginCleanup | profile-service/decoder_process.py:117-122 | cleanup ends at once after a failed spawn, breaks off on a refused kill, else waits for the worker |
| DecoderSupervisor.DecoderProcess.Release | profile-service/decoder_process.py:123-126 | the slot is given back however the cleanup ended, and no job is active then |
| DecoderSupervisor.StepKeepsInv | profile-service/decoder_process.py:61-126 | every event keeps: the slot is busy exactly while one job is active, and one is the most |
| DecoderSupervisor.RunKeepsInv | profile-service/decoder_process.py:61-126 | so does every schedule; unless the kill of a running worker is refused no released job leaves a process behind |
| DecoderSupervisor.SlotBelongsToOneJob | profile-service/decoder_process.py:61-126 | in every run an active job means a busy slot, and no two jobs are active |
| DecoderSupervisor.AtMostOneLiveWorker | profile-service/decoder_process.py:32-54 | unless the kill of a running worker is refused at most one worker lives, it belongs to the active job, and the slot is released only over a worker reaped or never spawned |
| DecoderSupervisor.CleanupIsNotInterrupted | profile-service/decoder_process.py:44-54 | repeated cancellations cannot leave the cleanup before its task is done |
| DecoderSupervisor.StepKeepsTidy | profile-service/decoder_process.py:32-41 | an event leaves the supervisor tidy if and only if it is not a refused kill of a running worker |
| DecoderSupervisor.TidyExactlyWhenKillsSucceed | profile-service/decoder_process.py:32-54 | a run is tidy throughout if and only if every kill of a running worker succeeds |
| DecoderSupervisor.RefusedKillLeaksTheWorker | profile-service/decoder_process.py:32-41 | the slot is given back over a running worker if and only if it runs and killing it is refused |
| DecoderSupervisor.TwoWorkersAfterARefusedKill | profile-service/decoder_process.py:32-41 | a run in which two workers live at once |
| DecoderSupervisor.SlotCanAlwaysBeReleased | profile-service/decoder_process.py:116-126 | from every reachable busy state some schedule frees the slot |
| TrialLedger.Reservation | backend/acceptance/trial_budget.py:37-63 | granted if and only if the request is allowed and within its two limits; it sets aside the wire bytes plus the envelope and all the output asked for, at least 49,167 and at most 379,872 millionths, so a fresh budget has room for any one call |
| TrialLedger.TrialBudget.StartTurn | backend/acceptance/trial_budget.py:134-146 | the new state is the specified one; a granted new turn has a new identity |
| TrialLedger.TrialBudget.ChargedBound | backend/acceptance/trial_budget.py:130-132 | the sum over the calls |
| TrialLedger.TrialBudget.ReserveTicket | backend/acceptance/trial_budget.py:148-165 | a ticket is granted if and only if every limit allows it and its line is durable |
| TrialLedger.TrialBudget.SettleTicket | backend/acceptance/trial_budget.py:167-182 | a call is settled if and only if it was open, the usage is within its reservation and the line is durable; otherwise the trial stops |
| TrialLedger.SettledBooks | backend/acceptance/trial_budget.py:167-182 | settling never raises the bound, in memory or in the journal, even when the line was written without the ledger learning of it |
| TrialLedger.SettleKeepsInv | backend/acceptance/trial_budget.py:167-182 | settling keeps the ledger invariant and never raises `charged_bound` |
| TrialLedger.ReserveKeepsInv | backend/acceptance/trial_budget.py:148-165 | reserving keeps it, also when the append fails after writing |
| TrialLedger.RunKeepsInv | backend/acceptance/provider_trial.py:129-145 | every interleaving of threads that reserve, call, settle and fail keeps the invariant |
| TrialLedger.ProviderPriceIsCovered | backend/acceptance/trial_budget.py:27-29 | a call charged at the provider's own $2 and $10 may return with any usage, so such runs are among those below |
| TrialLedger.JournalIsSound | backend/acceptance/trial_budget.py:121-187 | in every run real spend, at any price up to the ledger's own, is at most what replaying the journal adds up to, and that is within the budget |
| TrialLedger.LimitsHold | backend/acceptance/trial_budget.py:130-187 | every reachable ledger is within 500,000 millionths, 16 calls and 4 turns; an open call keeps 3 times its input and 15 times its output bound; at most ten calls are open |
| TrialLedger.TenCallsCanBeOpen | backend/acceptance/trial_budget.py:148-165 | ten threads can have a call open each at once, with any request of up to 277 bytes for one token, so the bound of ten is reached |
| TrialLedger.StoppedIsForEver | backend/acceptance/trial_budget.py:148-187 | once stopped it stays stopped, and nothing is reserved any more |
| TrialLedger.ReservedOnlyWhen | backend/acceptance/trial_budget.py:148-165 | when a call may be reserved, in numbers: not expired, stopped or replaying, in a turn, fewer than 16 calls, an allowed request within its limits, and room within 500,000 millionths |
| TrialLedger.ReserveEndsOneWay | backend/acceptance/trial_budget.py:148-165 | reserving stops the trial exactly on expiry, on the cost limit and on a failing append; it adds a call exactly when it may and the line is durable |
| TrialLedger.RefusedSettlementStops | backend/acceptance/trial_budget.py:167-182 | settling stops the trial exactly when the report does not fit the open call or the append fails |
| TrialLedger.TurnEndsOneWay | backend/acceptance/trial_budget.py:134-146 | a turn is added exactly within the limits and with a durable line; a failing append stops the trial |
| TrialLedger.ReplayOnlySetsItsFlag | backend/acceptance/trial_budget.py:136-140 | a replay of a known turn sets its flag and changes nothing else |
| TrialLedger.FailureStops | backend/acceptance/trial_budget.py:184-187 | a reported failure stops the trial however its append ends |
| TrialLedger.FailureIsFollowed | backend/acceptance/provider_trial.py:129-145 | a thread whose call raised or was not settled goes on to report the failure |
| TrialLedger.NothingIsReservedAfter | backend/acceptance/trial_budget.py:148-187 | after a failure, an expired reservation, one over the cost limit, a failing append or a refused settlement no thread ever reserves a call again |
| TrialLedger.ReplayReservesNothing | backend/acceptance/trial_budget.py:134-165 | between a replay and the next new turn no thread reserves anything |
| PhotoWidget.PhotoWidget.ReplacePreview | frontend/static/assets/profile-photo.js:36-40 | the old preview URL is revoked and replaced |
| PhotoWidget.PhotoWidget.CompleteLoad | frontend/static/assets/profile-photo.js:48-59 | an overtaken load gives its URL back, the latest one installs it and revokes the old one |
| PhotoWidget.PhotoWidget.FailLoad | frontend/static/assets/profile-photo.js:60-64 | only the latest load may report failure |
| PhotoWidget.PhotoWidget.Select | frontend/static/assets/profile-photo.js:66-74 | a selection replaces the preview, with a new URL only for a valid file |
| PhotoWidget.PhotoWidget.Save | frontend/static/assets/profile-photo.js:76-81 | a save starts only with a selection, while none is under way and the photo is available to change |
| PhotoWidget.PhotoWidget.OnResponse | frontend/static/assets/profile-photo.js:81-95 | a confirmed mutation cancels the selection and reloads, a failed one frees the widget |
| PhotoWidget.PhotoWidget.Clear | frontend/static/assets/profile-photo.js:97-100 | both URLs are revoked and forgotten and every load under way is overtaken |
| PhotoWidget.UrlsAreOwned | frontend/static/assets/profile-photo.js:36-100 | in every interleaving the live object URLs are exactly the non-null ones of the two fields, and none is revoked twice |
| PhotoWidget.OneMutationAtATime | frontend/static/assets/profile-photo.js:76-96 | at most one save or removal is under way, and then `busy` is set |
| PhotoWidget.NewLoadOvertakes | frontend/static/assets/profile-photo.js:42-42 | starting a load, by hand or after a mutation, and clearing overtake every load under way |
| PhotoWidget.OvertakenForEver | frontend/static/assets/profile-photo.js:42-56 | a load overtaken once stays overtaken |
| PhotoWidget.OvertakenLoadChangesNothing | frontend/static/assets/profile-photo.js:56-64 | an overtaken load never changes the saved image, its revision or the preview |
| PhotoWidget.ClearHidesThePhoto | frontend/static/assets/profile-photo.js:97-100 | after a clear no saved image appears until another load is started |
| PhotoWidget.StatusIsTrue | frontend/static/assets/profile-photo.js:48-64 | in every run the status is `available` only over a saved image and `empty` only without one |
| PhotoWidget.NewLoadIsTheLatest | frontend/static/assets/profile-photo.js:42-42 | a load that starts is the latest, until another starts |
| PhotoWidget.LatestImageIsShown | frontend/static/assets/profile-photo.js:52-58 | the latest load shows its valid image under the revision its metadata carried, as `available`, and revokes the old one |
| PhotoWidget.LatestEmptyIsShown | frontend/static/assets/profile-photo.js:45-58 | empty metadata of the latest load leaves no image, its revision, and `empty` |
| PhotoWidget.AvailableIsFetched | frontend/static/assets/profile-photo.js:48-51 | metadata that says available leads to the image, and changes nothing yet |
| PhotoWidget.LatestFailureIsShown | frontend/static/assets/profile-photo.js:60-64 | a failure of the latest load keeps image and revision and is shown |
| PhotoWidget.SelectionIsPreviewed | frontend/static/assets/profile-photo.js:66-74 | a valid selection is previewed, any other is forgotten, the saved image stays |
| PhotoWidget.SaveStartsExactly | frontend/static/assets/profile-photo.js:76-78 | a save starts exactly with a selection, while not busy and not failed |
| PhotoWidget.RemoveStartsExactly | frontend/static/assets/profile-photo.js:87-89 | a removal starts exactly when confirmed, while not busy, for an available photo |
| PhotoWidget.ResponseIsFollowed | frontend/static/assets/profile-photo.js:81-95 | success forgets the selection and starts a load while the widget stays busy; failure keeps everything and frees it |
| PhotoWidget.ClearForgets | frontend/static/assets/profile-photo.js:97-100 | a clear forgets image, preview, selection, revision and status |
| VisitCounts.TripEndsAreRunEnds | backend/app/location_settings.py:236-253 | the specification: a day from the cutoff on counts if and only if it is covered and the next day is not |
| VisitCounts.CountIsEnds | backend/app/location_settings.py:244-250 | the merged ranges that end late enough are as many as those days |
| VisitCounts.MergeOrdered | backend/app/location_settings.py:244-249 | the sweep covers exactly the days of the ordered ranges, with a free day between any two merged ranges |
| VisitCounts.MergedCount | backend/app/location_settings.py:243-250 | sorting, merging and counting the ranges of one country gives their number, for every list of ranges |
| VisitCounts.GroupRanges | backend/app/location_settings.py:238-241 | the loop over the events collects each country's confirmed overnight ranges |
| VisitCounts.QualifyingVisitCount | backend/app/location_settings.py:236-253 | per country the count is the number of such days, and a country without one is not listed |
| VisitCounts.OrderAndRepetitionDoNotCount | backend/app/location_settings.py:236-253 | so neither the order of the events nor repeated events matter |
| CalendarConflicts.BreakIsSafe | backend/app/proactive_watchers.py:81-86 | in start order nothing beyond the first event that starts too late can clash |
| CalendarConflicts.SweepRow | backend/app/proactive_watchers.py:82-88 | one row with its early break adds exactly that row's conflicts |
| CalendarConflicts.Sweep | backend/app/proactive_watchers.py:81-119 | the whole sweep reports what comparing every pair would, each once, in order |
| CalendarConflicts.ClashIsASharedInstant | backend/app/proactive_watchers.py:83-88 | events clash if and only if they are different ones and some instant lies in both |
| CalendarConflicts.Conflicts | backend/app/proactive_watchers.py:15-119 | for exactly the unordered pairs of upcoming events with different identities and a common instant; an instant lies in the time reported if and only if it lies in both events; a horizon outside zero to seven days is an error |
| BriefRanking.ScoreThenPosition | backend/app/proactivity.py:154-162 | ranking by score and position is the stable sort by score alone |
| BriefRanking.FirstIsBest | backend/app/proactivity.py:154-162 | the first of each key in ranked order is its highest-ranked item |
| BriefRanking.StrongestOfOneMore | backend/app/proactivity.py:157-161 | replacing only on a strictly greater score keeps the best item of every key, the earliest among equals |
| BriefRanking.ValuesRankAsFirsts | backend/app/proactivity.py:156-162 | ranking the dictionary's values gives the first of each key of everything ranked |
| BriefRanking.SimpleBriefIsBest | backend/app/proactivity.py:154-167 | the brief is in rank order, has at most five items, and no item that de-duplication leaves but the brief leaves out outranks one in it |
| BriefRanking.BuildBrief | backend/app/proactivity.py:127-167 | equals "stable-sort the eligible items by score, keep the first of each category and folded title, take five", and so is the best five of those in rank order; nothing exactly when no item is eligible |
| Rhythms.OrdinalOfNextDay | backend/app/proactivity.py:71-71 | the day numbers behind weekdays and differences go up by one each calendar day, over month ends, year ends and leap days |
| Rhythms.WeekdaysFollow | backend/app/proactivity.py:71-76 | each next day is one weekday further; with `FirstWeekday`, 1 January of year 1 is a Monday |
| Rhythms.OrdinalOrdersDates | backend/app/proactivity.py:68-82 | calendar order is number order, and a number names one date |
| Rhythms.ReachedByCounting | backend/app/proactivity.py:70-71 | every date on or after the start is the start plus a number of days |
| Rhythms.WhenAnOccurrenceIsInReach | backend/app/proactivity.py:70-83 | the 370 days contain an occurrence if and only if the rhythm is not that of a leap-day birthday or a leap day is near enough, told by date alone |
| Rhythms.LeapDayBirthdayIsNotScheduled | backend/app/proactivity.py:77-83 | on 1 March 2025 there is none for a birthday on 29 February |
| Rhythms.NextOccurrence | backend/app/proactivity.py:64-83 | the earliest date of the rhythm whose moment is strictly after `after`, over all dates; the error exactly under that condition |
| ContextAssembly.PackingFails | backend/app/governed_systems.py:236-243 | packing fails if and only if the permitted mandatory items together exceed the total |
| ContextAssembly.PackedItems | backend/app/governed_systems.py:236-246 | nothing is invented or repeated, nothing private slips in, every permitted mandatory item stays |
| ContextAssembly.PackedClasses | backend/app/governed_systems.py:239-246 | a class that holds an optional item is within its budget |
| ContextAssembly.PackedIsMaximal | backend/app/governed_systems.py:236-246 | no permitted item that was left out still fits class and total |
| ContextAssembly.PackedPrefers | backend/app/governed_systems.py:235-246 | an optional item is left out only where items kept before it, each mandatory or at least as relevant, leave no room for it |
| ContextAssembly.PackedInOrder | backend/app/governed_systems.py:235-246 | what is kept comes mandatory first and then by falling relevance |
| ContextAssembly.AssembleContext | backend/app/governed_systems.py:227-251 | all of that of the assembled context, with its omitted classes and token count, and errors exactly for a budget that is not positive or is too small for what is mandatory |
| ConversationContext.JoinedLength | backend/app/governed_systems.py:203-213 | the tracked length is the length of the joined text |
| ConversationContext.ChosenIsExcerpt | backend/app/governed_systems.py:188-213 | the context consists of whole permitted messages in conversation order, none twice |
| ConversationContext.ContextLength | backend/app/governed_systems.py:203-213 | its length is the tracked one and within the budget |
| ConversationContext.ContextIsMaximal | backend/app/governed_systems.py:205-212 | no permitted message that is missing would still fit, even with its line feed |
| ConversationContext.MissingIsOutranked | backend/app/governed_systems.py:201-212 | a permitted message is missing only where chosen ones that are more relevant, or as relevant and later, leave no room for it |
| ConversationContext.MostRelevantIsKept | backend/app/governed_systems.py:201-212 | the most relevant of the permitted messages that fit alone is kept |
| ConversationContext.HiddenMessagesDoNotShow | backend/app/governed_systems.py:144-152 | what a named specialist is shown does not change with messages that are private to Li or not disclosed to it |
| ConversationContext.BoundedContext | backend/app/governed_systems.py:176-213 | the two loops compute that context; None exactly when nothing was chosen, an error exactly for a budget that is not positive |
| RateLimiter.AdmissionsAreSound | backend/app/production.py:73-83 | in every run any limit plus one consecutive admissions of a client span the window |
| RateLimiter.NoWindowOverflows | backend/app/production.py:73-83 | no half-open window, wherever it lies, holds more than `limit` admissions of a client |
| RateLimiter.ClientsDoNotInterfere | backend/app/production.py:74-74 | a client's admissions depend on its own requests only |
| RateLimiter.AdmissionRule | backend/app/production.py:73-83 | the reference, request by request: a client is let in if and only if fewer than `limit` were, or the `limit`-th last is a whole window old |
| RateLimiter.Forget | backend/app/production.py:75-76 | the loop drops exactly the old front of the bucket |
| RateLimiter.BucketDecides | backend/app/production.py:75-83 | the length of the pruned bucket decides as the full history of admissions would |
| RateLimiter.SecurityMiddleware.Dispatch | backend/app/production.py:66-83 | a request is admitted if and only if the full history of admissions has room for it, by that rule, although most of it was forgotten; other clients' buckets are untouched |
| StableSort.SortSorts | backend/app/governed_systems.py:235-235 | the library's stable sort, as all callers use it, orders what it is given |
| StableSort.StrictlySortedIsUnique | backend/app/proactivity.py:162-162 | a strictly ordered arrangement is determined by its elements |
| Sums.SortKeepsSum | backend/app/governed_systems.py:235-241 | token counts do not depend on the order of the items |

## Left out

- Real input and output: the object-store SDK, SQL functions, HTTP, the model provider, subprocess pipes and
  files. Each call is an arbitrary answer or an event.
- Authorization, sessions, tokens, HTTP status codes and JSON shapes.
- Image decoding, regular expressions, prompts, case folding and the wording of texts: parameters or arbitrary
  values.
- ProfileProtocol: deletion of the stored object, and writers other than the service, are not among its steps;
  the bytes present at the start are arbitrary.
- ProfileProtocol.RepliesAreTrueForEver: nothing is claimed of a save whose reply was lost beyond
  `UncertainSaveCanStillLand`, because the code promises nothing.
- ProfileProtocol: the concurrent clients are steps over values, so aliasing within one process is not part of
  it; `ObjectStore` has the same code as classes.
- ChatTurn.Turn.LiChat: effects of earlier attempts of a resumed turn, which the database accounts for, are not
  in the trace; conversation rows, artifacts and proposals for approval are calls but not counted as effects.
- ChatTurn.Turn.ResolveMemoryTarget: how the one or two lookup texts are built.
- EvidenceGate.TalkToLi: Nora's evidence when she asks for no research stays `pending`, and when it was not
  required by policy its failure does not block; the code treats both so, and the theorem excepts her.
- EvidenceGate: routing itself, what the list of unavailable specialists adds to the prompt, disclosure of
  memories, and the telemetry around the loops.
- DecoderSupervisor: the jobs are one sequence of values in the object rather than suspended coroutines; the
  bytes fed and read, exit codes and the contents of the result.
- TrialLedger: torn journal lines, the checkpoint lines, and the content of requests beyond size and shape.
- TrialLedger.JournalIsSound: assumes that a real charge stays within its call's reservation and, when the call
  is settled, within the ledger's price of the reported usage, and that tickets are settled by the thread that
  reserved them.
- PhotoWidget: rendering, button states and status texts; and no claim that the image fetched belongs to the
  revision fetched, since these are two requests.
- VisitCounts: `promoted_countries`, a filter over these counts.
- CalendarConflicts: the brief items made for each event and conflict, their urgency texts, and the checks of the
  clock's and the display time zone.
- BriefRanking: how the four factors make up a score, and floating-point rounding.
- Rhythms.NextOccurrence: wall-clock time of one zone; the conversion to UTC, daylight-saving folds and the end
  of the calendar in the year 9999.
- ContextAssembly, ConversationContext: relevance is an arbitrary real number; token estimates are inputs.
- RateLimiter: which header names the client, and eviction of idle clients, which the code does not do.
