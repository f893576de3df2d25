# Verification of the gateway's metering, settlement, streaming, binding and signing logic

A Dafny model of the parts of the gateway where several parties act on one record, or where two programs must
agree on bytes. To check it, run `dafny verify dfyconfig.toml` in this directory.

**Quota ledger** (`QuotaSpec`, `QuotaInvariant`, `QuotaService`). The two quota rows of a caller, its operations
and its events. `QuotaSpec` has one function per database transaction, which commits or rolls back; the methods
of the class `QuotaLedger` update the tables row by row, as the code does, and are proved to commit exactly those
functions. `QuotaInvariant` proves what every serial history keeps: conservation, one event per terminal
operation, prefix sums, and the bound that the limits really give.

**Settlement** (`Settlement`, `SettlementProof`, `SettlementSteps`, `SettlementProgress`). Any number of gateway handlers, recovery
workers and late transactions over one ledger, and a remote credit authority that moves by itself. One action is
one transaction, one remote answer, one frame or one interruption, and every schedule of them is a run. A handler
that is not scheduled again has crashed. A handler interrupted while its transaction's thread runs on leaves that
transaction behind, to commit at any later time, or never. The authority may answer late or wrongly, except that
a final status it reports is the one it holds, and that final statuses are never left.

**Leases** (`Leases`). The control flow of `execute`, `prepare_stream` and the stream generator around the queue
ticket, the model-pool slot and the concurrency lease. Every await takes the next reply of an arbitrary script
(an answer, a refusal, an exception, a cancellation; past the script's end it never returns).

**Event stream** (`SseDecoder`, `SseChunking`, `SseAcceptance`, `SseClient`, `SseRoundTrip`, `SseSurvival`). The gateway's
incremental decoder as a mutable buffer machine, the JavaScript SDK's reading loop, and what goes from one to the
other. Validation of an event's text is an arbitrary function. The format is a subset of sections 9.2.5 and 9.2.6
of the WHATWG HTML Living Standard.

**Outbox** (`OutboxSpec`, `OutboxWorker`, `OutboxRun`, `OutboxProof`, `OutboxTheorems`, `OutboxStepping`,
`OutboxDisabled`, `OutboxPacing`, `OutboxKeys`, `OutboxSettled`, `OutboxLeaks`, `OutboxCases`). Staging, claiming, the
remote call, completing and failing, by any number of workers in any interleaving. Each claimed row in a worker's
hands is a job; a job may stop for ever between any two steps, and goes on after its claim has been taken over, since
rows carry no claim token. The remote may answer anything, except in `OutboxKeys`, `OutboxSettled` and `OutboxLeaks`,
which follow the keys there: names carry the client's id, so a search by name finds only that client's keys, though it
may miss one; an answer that a key is inactive, or not there, is true; only disabling makes a key inactive, and nothing
makes it active again.

**Canonical request** (`Bytes`, `Utf8`, `Sequences`, `Texts`, `Canonical`, `CanonicalProof`, `JsSigning`). Percent
decoding and encoding (sections 2.1, 2.3 and 6.2.2 of RFC 3986) over strictly decoded UTF-8 (RFC 3629), sorting
and joining, in the gateway's form and in the JavaScript signer's.

**Event summary** (`Summary`, `SummaryProof`). Trend buckets, totals and nearest-rank percentiles.

Where a promise does not hold of the code as it stands, the model keeps the code, a lemma gives a concrete failing
case, and the exact condition is proved:

- The release of both leases is not unconditional. An exception other than `ControlPlaneUnavailable` in the
  concurrency release, such as a cancellation, skips the model-pool release; draining a stream's pending read
  can be interrupted before either release. These are the only ways out (`Leases.Gateway.Execute`,
  `Leases.Gateway.StreamResponse`; cases `Leases.LoseOneSlot`, `Leases.LoseBothLeases`).
- One accepted `feed` cannot be cut anywhere. Besides the prefix not being done and its unfinished line being
  within the limit, the second call's own size check must pass (`SseChunking.FeedSplitsExactlyWhen`; cases
  `SseChunking.BlankAfterDone`, `SseChunking.LongLineNeedsItsEnd`, `SseChunking.LongTailNeedsItsLine`).
- Not every accepted payload comes back from the wire: the decoder accepts a line of the full limit and sends it
  with a longer prefix, and re-emits inner line feeds bare (`SseSurvival.SurvivesExactlyWhen`; cases
  `SseSurvival.LongestLineIsLost`, `SseSurvival.TwoDataLinesAreLost`).
- A retryable failure reported by a worker whose claim was taken over reopens the row while the new claim is in
  hand, counting the delay from the old one. Retries rest the whole delay after the latest claim exactly when no
  failure comes from a claim older than the row's lock (`OutboxPacing.RetriesRestExactlyWhen`,
  `OutboxPacing.ClaimsAreSpacedExactlyWhen`, `OutboxPacing.WholeDelayTest`; case `OutboxCases.LateFailureReopens`).
- `stage_bifrost_binding_sync` does not look at the client, so a disabled caller's binding can be made active
  through it, by either action. The administration service never does so, and then it cannot happen
  (`OutboxDisabled.DisabledStaysDownExactlyWhen`; case `OutboxCases.DisabledComesUp`).
- A binding whose older row is completed last stays out of step for ever (`OutboxTheorems.OlderRowLastStalls`; case
  `OutboxCases.OlderRowCompletedLast`).
- A binding can count as disabled, all its rows completed, while its key is active at the remote: the disable row's
  worker had loaded no key, or another one, before a create's worker stored it. It cannot happen exactly when clients
  are stopped only while no open create row, and no worker's job on one, may still store another key
  (`OutboxLeaks.KeysStayDarkExactlyWhen`; case `OutboxCases.KeyOutlivesDisable`).

## Model

| member | source | states |
|---|---|---|
| QuotaService.QuotaLedger.ReserveOperation | backend/app/services/quota.py:207-320 | The method's checks, row inserts and in-place counters commit exactly the reservation transaction, or restore the tables and raise its error |
| QuotaService.QuotaLedger.ReserveInRows | backend/app/services/quota.py:286-292 | The loop counts the request and reserves its tokens in both rows and in no other |
| QuotaService.QuotaLedger.ConsumeInRows | backend/app/services/quota.py:446-454 | The loop moves the operation's tokens from reserved to consumed in both rows and in no other, or reports the first row whose counters refuse |
| QuotaService.QuotaLedger.InsertRowIfMissing | backend/app/services/quota.py:99-139 | An existing row is left as it is, a missing one starts at zero |
| QuotaService.QuotaLedger.RecordCreditReservation | backend/app/services/quota.py:332-348 | Credit evidence is set once; the same pair again is accepted and a different one refused |
| QuotaService.QuotaLedger.RecordProviderUsage | backend/app/services/quota.py:351-378 | Provider usage is set once; the same pair again is accepted and a different one refused |
| QuotaService.QuotaLedger.TouchPendingOperation | backend/app/services/quota.py:381-398 | Only a pending operation is touched, and only its update time moves |
| QuotaService.QuotaLedger.FinalizeOperation | backend/app/services/quota.py:418-501 | Reserved tokens leave both rows, consumed tokens enter, one event is added; any refusal leaves the tables as found |
| QuotaInvariant.LedgerHolds | backend/app/services/quota.py:142-320 | In every serial history each row counts its operations exactly: requests, tokens reserved by pending ones, tokens of terminal ones; each terminal operation has one event and each pending one none; events carry prefix sums; token counters stay within 63 bits |
| QuotaInvariant.FinalizeRefusedExactlyWhen | backend/app/services/quota.py:418-454 | Finalising a reachable pending operation always finds both rows and enough reserved tokens; it is refused exactly for invalid evidence, a completion before the start, counter overflow, or a server request ID already used |
| QuotaInvariant.LifetimeIsSumOfDays | backend/app/services/quota.py:142-172 | A caller's lifetime row is, counter by counter, the sum of its daily rows |
| QuotaInvariant.QuotaBoundHolds | backend/app/services/quota.py:189-290 | With limits held, requests never exceed the request limit, nor consumed plus reserved tokens the token limit plus what finalised operations overran |
| QuotaInvariant.NoOverrunNoExcess | backend/app/services/quota.py:189-204 | When no operation used more than it reserved, the excess over the token limit is zero |
| QuotaInvariant.ReserveAdmitsExactlyWhen | backend/app/services/quota.py:207-290 | A call is admitted exactly when request and caller pass their checks, neither of its IDs is used, and what the caller's own operations of the day and of its lifetime hold and used leaves room |
| QuotaInvariant.RunExtends | backend/app/services/quota.py:332-501 | Along every history operations and events are only added, terminal operations never change, and recorded evidence is never replaced |
| QuotaInvariant.FinalizeAgain | backend/app/services/quota.py:433-442 | Finalising a terminal operation changes nothing, and succeeds exactly on the same status, HTTP status and code |
| QuotaInvariant.FinalizeTwice | backend/app/services/quota.py:401-442 | A committed finalisation replayed answers the same snapshot and commits nothing |
| SettlementSteps.InvHolds | backend/app/services/chat.py:593-1228 | The protocol's invariant holds after every schedule of handlers, workers, crashes and late commits |
| SettlementSteps.SettlementAgreement | backend/app/workers/recovery.py:117-234 | Whenever an operation is completed here, the authority charged it for the same token pair, and its only event carries that charge |
| SettlementSteps.ChargesAgree | backend/app/workers/recovery.py:181-259 | Every event's charge is the authority's final charge; the codes written without credit charge nothing |
| SettlementSteps.SettleRequestsAgree | backend/app/services/chat.py:725-743 | All settle requests ever sent for one operation, by anyone, carry one token pair, which is its committed usage |
| SettlementSteps.DispatchedOnce | backend/app/services/quota.py:254-265 | The provider is called at most once per caller and client request ID |
| SettlementSteps.DispatchReserved | backend/app/services/chat.py:593-672 | Each provider call follows a committed quota reservation and a recorded credit reservation of its own operation |
| SettlementSteps.ClientsSeeCommitted | backend/app/services/chat.py:1101-1228 | A stream's `[DONE]` or error frame is its last frame, so never both; `[DONE]` and a JSON answer are seen only after the completed operation and its event are committed |
| SettlementSteps.TerminalForEver | backend/app/services/chat.py:1038-1089 | Once terminal, an operation stays as it is with one event, through disconnects, retries, late commits and recoveries |
| SettlementSteps.RunGrows | backend/app/services/quota.py:433-501 | Later states extend the tables of earlier ones and keep the authority's final credit |
| SettlementProgress.ClosesExactlyWhen | backend/app/workers/recovery.py:205-234 | Recording usage and closing in one transaction happens whole or not at all, and exactly when recorded usage agrees, the counter has room and the evidence is usable |
| SettlementProgress.RecoveryFinishesExactlyWhen | backend/app/workers/recovery.py:117-234 | A stale pending operation the authority charged is completed by one recovery pass exactly when tokens agree with recorded usage, the counter has room and its event ID is usable |
| SettlementProgress.UndisturbedCallCompletes | backend/app/services/chat.py:593-781 | From any reachable state, a non-streaming call nobody disturbs, with answers that fit it, is answered and completed |
| Leases.Gateway.AcquireModelPool | backend/app/services/chat.py:304-373 | It returns with one slot and no ticket, and raises with neither |
| Leases.Gateway.PollQueue | backend/app/services/chat.py:304-373 | A raised poll holds a ticket exactly when the last decision left it queued |
| Leases.Gateway.Admit | backend/app/services/chat.py:506-562 | It returns with slot and lease, and raises with nothing held |
| Leases.Gateway.ReleaseActiveLeases | backend/app/services/chat.py:375-397 | Both releases are attempted, but for the slot's exactly when the concurrency release was interrupted |
| Leases.Gateway.Guarded | backend/app/services/chat.py:150-165 | Guarded work changes nothing that is held, whatever work, heartbeats and draining do |
| Leases.Gateway.Execute | backend/app/services/chat.py:506-789 | A finished call holds no ticket and no lease, and a slot exactly when the concurrency release was interrupted; it returns only after the terminal commit |
| Leases.Gateway.PrepareStream | backend/app/services/chat.py:791-976 | A prepared stream carries both leases; a refused one holds nothing, with the same exception |
| Leases.Gateway.CleanUp | backend/app/services/chat.py:1215-1228 | The finally clause attempts both releases, unless draining or the concurrency release is interrupted |
| Leases.Gateway.StreamResponse | backend/app/services/chat.py:1101-1228 | A finished generator has attempted both releases, except exactly when draining or the concurrency release was interrupted |
| Leases.HeldIsGrantsMinusReleases | backend/app/services/chat.py:304-397 | What a trace leaves held is granted admissions minus attempted releases, each counted |
| Leases.LoseOneSlot | backend/app/services/chat.py:375-397 | A concrete run that is cancelled in its concurrency release and keeps its slot |
| Leases.LoseBothLeases | backend/app/services/chat.py:1215-1228 | A concrete stream whose client leaves during a read, and again while it is drained, and which keeps slot and lease |
| SseDecoder.OpenAIStreamDecoder.FinishPendingEvent | backend/app/services/streaming.py:68-109 | The in-place end of an event does what the event function says, frame and errors included |
| SseDecoder.OpenAIStreamDecoder.TakeLine | backend/app/services/streaming.py:36-61 | One complete line changes the decoder as the line function says |
| SseDecoder.OpenAIStreamDecoder.FeedChunk | backend/app/services/streaming.py:29-62 | The buffer loop returns the frames, state or refusal of the decoder's specification |
| SseChunking.ChunkingIsIrrelevant | backend/app/services/streaming.py:29-62 | Any accepted sequence of calls gives the frames, usage and final state of one call on the concatenated bytes |
| SseChunking.FeedMerges | backend/app/services/streaming.py:29-62 | Two accepted calls are one accepted call on the joined bytes |
| SseChunking.FeedSplitsExactlyWhen | backend/app/services/streaming.py:30-47 | One accepted call may be cut in two exactly when the prefix is not done and both size checks pass |
| SseChunking.BlankAfterDone | backend/app/services/streaming.py:30-47 | A blank line after `[DONE]` passes in one call and is refused in two |
| SseChunking.LongLineNeedsItsEnd | backend/app/services/streaming.py:30-47 | A comment one byte over the limit that ends in a carriage return passes with its line feed and is refused without it |
| SseChunking.LongTailNeedsItsLine | backend/app/services/streaming.py:30-47 | An unfinished line that passes the limit is accepted within the call that brought a whole line, and refused by the next |
| SseChunking.DoneComesLast | backend/app/services/streaming.py:68-79 | A fresh decoder sends `[DONE]` at most once, last, and only after usage |
| SseAcceptance.PrintedIsAcceptedExactlyWhen | backend/app/services/streaming.py:29-109 | A printed stream with any heartbeats is accepted exactly when every payload is a valid chunk and exactly one carries usage; its frames are then sent again unchanged and the stream may finish |
| SseClient.StreamEvents | sdk/javascript/src/client.js:459-538 | The nested loops over buffer, data lines and sizes compute the reader's specification |
| SseClient.AnyChunking | sdk/javascript/src/client.js:459-538 | However its bytes are cut, a stream that closes at its end is read to the same events |
| SseRoundTrip.RoundTrip | backend/app/services/chat.py:1119-1136 | The printed frames, with any heartbeats between them and cut anywhere, are read as exactly the payload texts in order, ending in done |
| SseRoundTrip.EndToEnd | backend/app/services/streaming.py:29-109 | From the provider's chunks, up to `[DONE]`, to the SDK's caller: whatever the two cuttings, the caller gets the accepted texts |
| SseSurvival.SurvivesExactlyWhen | sdk/javascript/src/client.js:459-538 | A printed stream, with any heartbeats and under any cutting, is read back as exactly its payloads when, and only when, each is one line, does not end in a carriage return, and fits with its prefix and line feed |
| SseSurvival.TwoLinesLost | backend/app/services/streaming.py:68-109 | A payload with an inner line feed is never read back as itself |
| SseSurvival.LongestLineIsLost | backend/app/services/streaming.py:30-61 | A line of the full limit is accepted and sent on with a prefix that makes it too long for the SDK |
| SseSurvival.TwoDataLinesAreLost | backend/app/services/streaming.py:68-109 | Two data lines are accepted as one event, whose frame does not survive |
| OutboxWorker.ControlOutbox.QueueBindingSync | backend/app/models/outbox.py:76-112 | The binding's status and version and the new row change together, or a used idempotency key rolls back |
| OutboxWorker.ControlOutbox.StageBindingSync | backend/app/integrations/bifrost/binding_service.py:40-70 | Create needs a binding without a key, update one with a key |
| OutboxWorker.ControlOutbox.DisableClient | backend/app/services/admin.py:300-327 | An active client becomes disabled and its disabling is staged, in one transaction; a disabled one stays as it is |
| OutboxWorker.ControlOutbox.SelectOpen | backend/app/workers/outbox.py:71-92 | The selected rows are open, distinct, in order of availability, and none left out is available earlier |
| OutboxWorker.ControlOutbox.ClaimBatch | backend/app/workers/outbox.py:69-98 | Exactly the selected rows are locked, counted and marked |
| OutboxWorker.ControlOutbox.PersistCreatedBinding | backend/app/integrations/bifrost/binding_service.py:73-96 | Key, ciphertext and key version are stored together, with the status the fields allow |
| OutboxWorker.ControlOutbox.CompleteItem | backend/app/workers/outbox.py:172-203 | A processing row is completed and its binding set by action, fields and version; any fault leaves both |
| OutboxWorker.ControlOutbox.FailItem | backend/app/workers/outbox.py:205-226 | A processing row is failed with its retry time, or exhausted; only the binding at that version turns to error |
| OutboxProof.RunHolds | backend/app/workers/outbox.py:69-226 | The outbox invariant holds after every interleaving of staging and workers |
| OutboxProof.ExecuteRight | backend/app/workers/outbox.py:125-170 | A successful remote step answers the action: a disabled or missing key for disable, else the desired configuration, active, with material exactly for create |
| OutboxTheorems.SyncExactlyWhen | backend/app/workers/outbox.py:172-226 | A binding is active (disabled) exactly when its fields are complete and the last completed row is the newest, of the matching kind; active implies a verified answer, disabled that no key was found or that it answered inactive |
| OutboxTheorems.VersionsTellRowsApart | backend/app/models/outbox.py:92-111 | Rows of one binding carry distinct rising versions, and the binding carries that of its last row |
| OutboxTheorems.CompletedForEver | backend/app/workers/outbox.py:180-226 | Rows are never removed or redirected, and a completed row never changes |
| OutboxTheorems.OlderRowLastStalls | backend/app/workers/outbox.py:197-198 | When all rows are completed, an older one last, the binding stays neither active nor disabled until something is staged |
| OutboxCases.OlderRowCompletedLast | backend/app/workers/outbox.py:197-198 | From empty tables: a create row completed after its disable row leaves the binding pending for ever, its key active |
| OutboxDisabled.StagedWhileDisabled | backend/app/integrations/bifrost/binding_service.py:40-70 | Any configuration that can be staged for a disabled client, by either action, is one worker's round away from an active binding |
| OutboxDisabled.DisabledStaysDownExactlyWhen | backend/app/integrations/bifrost/binding_service.py:40-70 | A disabled client's binding is inactive at every moment of a run, and whatever the workers do next, exactly when no configuration is staged for a disabled client |
| OutboxCases.DisabledComesUp | backend/app/integrations/bifrost/binding_service.py:40-70 | From empty tables: a create staged right after a disable makes the disabled client's binding active |
| OutboxKeys.RunOwns | backend/app/workers/outbox.py:125-157 | A client's binding and its jobs only ever hold keys made for it, and all of those are active until it is disabled |
| OutboxLeaks.UnsettledLeaks | backend/app/workers/outbox.py:133-203 | While an open create row, or a job on one, may still store another key, the workers can complete everything and leave that key active behind the disabled binding |
| OutboxLeaks.KeysStayDarkExactlyWhen | backend/app/workers/outbox.py:125-203 | No disabled binding's key is active, at any moment of a run or after anything the workers do next, exactly when clients are stopped only while no other key may still be stored |
| OutboxCases.KeyOutlivesDisable | backend/app/workers/outbox.py:133-145 | From empty tables: all rows completed in order, the binding disabled, and its key active |
| OutboxPacing.ClaimsRunOut | backend/app/workers/outbox.py:69-98 | In any run the attempts left plus the claims made are at most the attempts allowed for the staged rows |
| OutboxPacing.ClaimLowers | backend/app/workers/outbox.py:93-97 | A claim of n rows lowers the attempts left over uncompleted rows by exactly n |
| OutboxPacing.NoTakeoverBeforeTimeout | backend/app/workers/outbox.py:69-98 | In every run, a row under work is claimed again only after the whole timeout since its latest claim |
| OutboxPacing.RetriesRestExactlyWhen | backend/app/workers/outbox.py:205-217 | At every moment of a run any possible retry of a failed row comes the whole retry delay (or the lesser of delay and timeout) after its latest claim, exactly when every retryable failure passes a test on the row it finds |
| OutboxPacing.WholeDelayTest | backend/app/workers/outbox.py:205-217 | For the whole delay that test is that the failing worker's claim is no older than the row's lock |
| OutboxPacing.ClaimsAreSpacedExactlyWhen | backend/app/workers/outbox.py:69-98 | Any two claims of one row, done or possible next, are the lesser of timeout and delay apart, exactly when every retryable failure passes that test |
| OutboxCases.LateFailureReopens | backend/app/workers/outbox.py:205-217 | From empty tables, with the defaults: a row taken over after 120 seconds is claimable again at that second, through its first worker's failure |
| OutboxPacing.DelayGrows | backend/app/workers/outbox.py:213-214 | The delay starts at the base, doubles up to the maximum and never shrinks |
| Utf8.DecodeEncode | backend/app/security/canonical.py:33-33 | Strict decoding inverts encoding |
| Utf8.EncodeDecode | backend/app/security/canonical.py:33-33 | Only one byte sequence decodes to a text: no overlong form is accepted |
| Canonical.CanonicalizePath | backend/app/security/canonical.py:47-57 | The loop over raw segments computes the canonical path or its first error |
| Canonical.CanonicalizePair | backend/app/security/canonical.py:68-73 | A raw pair is cut at its first equals sign, decoded and encoded again |
| Canonical.CanonicalizeQuery | backend/app/security/canonical.py:60-75 | The loop over raw pairs, the sort and the join compute the canonical query or its first error |
| CanonicalProof.DecodeAfterEncode | backend/app/security/canonical.py:29-44 | A text that decoding may return is returned for its own encoding |
| CanonicalProof.PathRoundTrip | backend/app/security/canonical.py:47-57 | The canonical path decodes to the very segments it was built from |
| CanonicalProof.PathIsIdempotent | backend/app/security/canonical.py:47-57 | Canonicalising a canonical path changes nothing |
| CanonicalProof.PathsAgreeExactlyWhen | backend/app/security/canonical.py:47-57 | Two paths have one canonical form exactly when they decode to the same segments |
| CanonicalProof.QueryRoundTrip | backend/app/security/canonical.py:60-75 | The canonical query decodes to the pairs it was built from, rearranged |
| CanonicalProof.QueryIsIdempotent | backend/app/security/canonical.py:60-75 | Canonicalising a canonical query changes nothing |
| CanonicalProof.QueriesAgreeExactlyWhen | backend/app/security/canonical.py:60-75 | Two queries have one canonical form exactly when they decode to the same pairs, each as often |
| CanonicalProof.OrderIsForgotten | backend/app/security/canonical.py:66-75 | Rearranging the raw pairs around the ampersands changes neither acceptance nor the result |
| CanonicalProof.RequestsAgreeExactlyWhen | backend/app/security/canonical.py:89-118 | Two accepted requests have one canonical form exactly when methods agree up to case, segments are equal, pairs are equal as multisets and all else is the same |
| Sequences.SortedIsUnique | backend/app/security/canonical.py:74-74 | A total order leaves one sorted arrangement of given elements |
| JsSigning.DecodersAgree | sdk/javascript/src/signing.js:23-40 | Decoding character by character and decoding all bytes at once accept the same texts with the same result |
| JsSigning.JsEncodesAlike | sdk/javascript/src/signing.js:42-51 | The corrected `encodeURIComponent` equals the gateway's encoder |
| JsSigning.AnySortAgrees | sdk/javascript/src/signing.js:94-102 | Any sort by the signer's comparator arrives at the gateway's order |
| JsSigning.SignerAgrees | sdk/javascript/src/signing.js:53-150 | Signer and gateway compute the same canonical request or refuse the same input for the same reason |
| Summary.Gather | backend/app/services/observability.py:202-213 | The dictionary loop gives each first-met bucket the totals of its own rows |
| Summary.Trend | backend/app/services/observability.py:215-218 | The trend is the buckets in order of their starts |
| Summary.Summarize | backend/app/services/observability.py:173-236 | The summary, or its refusal of a bucket width or of too many rows |
| SummaryProof.TrendRises | backend/app/services/observability.py:202-218 | Bucket starts are strictly rising multiples of the width, no bucket is empty, and each holds rows of its own time span |
| SummaryProof.TrendConserves | backend/app/services/observability.py:202-232 | Counts, successes, failures, tokens and charges of the buckets add up to those of all rows |
| SummaryProof.PercentileIsLeast | backend/app/services/observability.py:295-299 | A percentile is a duration of the rows, and the least that the asked share of them do not exceed |
| SummaryProof.PercentilesRise | backend/app/services/observability.py:295-299 | A larger share never has a smaller percentile |

## Left out

- Database engines: every transaction is atomic and serialisable and rolls back on an exception; dialect branches, row locks and their order, and connection failures are not modelled.
- Integer widths other than the token counters: `request_count` beyond 63 bits and `version` beyond 31 bits.
- Quota runs do not include the retention purge, so "one event per terminal operation" is stated without purges; preview and purge themselves are left out.
- Recovery batches: a worker may pick up any stale pending operation with any service user at any time; batch size, ordering and the join with bindings are not modelled.
- Settlement liveness: the progress lemmas give schedules that complete; nothing says that the authority or the recovery worker is ever scheduled.
- Abandoned operations: they may carry local tokens and no charge when recovery read its candidate before usage was recorded, and a stream may be recorded abandoned although it settled; only their charge is stated.
- Never-started stream generators: they release nothing, since their cleanup is in the generator's body.
- Lease expiry, heartbeat timing and the limiters themselves: the Redis scripts are replies of the script, and nothing is claimed about queue order or active counts.
- Admission steps before the model pool (nonce, policy, rate limit) appear only as awaits that may refuse or raise.
- JSON parsing and schema validation: arbitrary functions of the event text on both sides of the stream.
- The SDK's text decoding: bytes it holds back at a chunk's end and a byte order mark are not modelled; the loop is modelled on bytes.
- Lone surrogates in paths and queries: texts are sequences of Unicode scalar values.
- Outbox rows for other targets and the `compensate` action: nothing stages them.
- Outbox ties: rows available at the same second may be claimed in any order, since their identifiers are random.
- Binding configuration hashes, error codes, audit rows, and credentials revoked when a client is disabled.
- The remote's keys: their names and their deletion are not modelled, and in the lemmas on keys a search by name may miss a key; a key that is gone counts as inactive.
- Key encryption: sealing a key may succeed or fail, and nothing is said about what it yields.
- Floating point: percentiles use the exact share, and the average is a real number.
- Event listing, filters and CSV export.
- Signatures, digests and constant-time comparison.
