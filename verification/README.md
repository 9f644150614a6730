# Boltrope: a verified model of its audit, event-log, cost, paging and policy cores

Boltrope keeps every agent session as an append-only event log. This project models the parts
of it whose correctness spans many calls, and proves what they promise over every input, every
run and every interleaving.

- **Signed audit checkpoints** (`Hashing`, `Checkpoints`, `SignerModel`, `AuditSigning`,
  `SignerInvariant`, `SignerRuns`, `SignerLimits`, `SignerLoss`). The signer collects content-hash leaves from
  an at-least-once feed, folds them into a linked chain and stores signed rows. Runs are made of
  settling rows, projected batches, failing database calls, unsaved cursors, catch-up flushes and
  restarts. Proved: every leaf up to the frontier is anchored or accumulated exactly once, every
  reachable table verifies, ranges ascend across restarts; the exact conditions on which this
  rests; and what is lost for good where they fail, stated over the history of the accumulators a
  run flushed. Also proved: a table that the verifier accepts
  without new signatures carries the signed hashes over the same leaf hashes.
- **Hash-chained event store** (`EventChain`, `ChainHeads`, `StoreModel`, `DevStore`,
  `StoreHistories`, `FailedAppends`).
  Numbering, running chain heads, windowed verification, tamper detection, what a chain head fixes,
  and the timeline a forked session composes from its ancestors, for every history of create,
  append and fork.
- **Subscriptions** (`Subscription`). Snapshot, then tail, over a bounded channel that drops when
  full; every interleaving with appends to any session and with other subscribers.
- **Cost** (`CostModel`, `CostProjection`, `CostRuns`, `CostAttribution`, `ModelCost`,
  `CostByModel`). The persisted projector against the in-memory fold, the model it
  attributes each turn to against the direct join, the per-model rows as a partition of the total,
  and the persisted table summed by model against the join.
- **Paging** (`SessionPages`, `EventPages`). Keyset walks over a store that changes between pages.
- **Permissions** (`Policy`). Order-freeness and monotonicity of the decision pipeline, and what a
  host rule matches.
- **SQL comment stripping** (`SqlComments`).

`Lexicographic` and `InsertionSort` are shared by the parts that sort.

Conventions. SHA-256 (section 6.2 of FIPS 180-4) and Ed25519 (section 5.1 of RFC 8032) are
arbitrary functions passed as arguments, never assumed injective: a statement that needs it says
that two distinct strings collide, both taken from an explicit finite set of strings that were
hashed. Costs are exact reals, counters and sequence numbers unbounded integers. An event that
does not marshal, a database call that fails, a payload that does not decode and a URL that does
not parse are inputs. Methods with loops are proved equal to a function of the same step, and the
properties are lemmas about that function.

Where the code does less than a sentence beside it, the model follows the code and the difference
is a result:

- `Append` is described as atomic; when an event does not marshal the events before it stay
  stored, its number is used up and the chain head is not saved (`AppendKeepsIff`,
  `FailedAppendBreaksTheChain`).
- The model lookup is described as being by session and turn; it does not filter on the turn
  (`AttributionIsJoinIff`, `OverlappingTurnsDiffer`).
- The taint gate is described as escalating every otherwise-allowed external call; edits that
  accept_edits approves are let through (`TaintedExternalAllowedIff`, `TaintedEditIsAllowed`).
- The signer skips on the global id although the feed is ordered by transaction first
  (`OrderIsExact`, `OvertakenLeafIsLost`), and counts as loaded before its tail has been read
  (`SmoothIsExact`, `JumpedRowIsLost`, `StrandedLeafIsLost`).
- A page token keeps milliseconds of a finer time (`TokenIsExactIff`, `UnalignedWalkRepeats`,
  `UnalignedWalkMisses`).
- A subscription is described as delivering every later event; a full tail channel loses some
  (`EveryInterleavingDelivers`, `SlowReaderLosesEvents`).
- The chain verifier takes a NULL content column for a row written before hashing; at the start of
  a window it skips a rewritten event whose column was set to NULL (`InconsistentEventIsFound`,
  `NulledPrefixVerifies`, `NullingIsHiddenIff`).
- A fork checks nothing; above the parent's head it leaves a gap in the child's timeline
  (`ForkTimelineIff`).

## Model

| member | source | states |
|---|---|---|
| Hashing.ComputeLeavesDigest | internal/orchestrator/domain/checkpoint.go:66-77 | the digest is taken over the leaves joined in order, without separators |
| Hashing.FoldPair | internal/orchestrator/domain/hashchain.go:82-88 | the fold over mutable buffers hashes prev followed by content, writes neither argument and returns fresh storage |
| Hashing.GenesisStringsDiffer | internal/orchestrator/domain/hashchain.go:62-69 | the two chains start from the digests of their prefixed strings; these never coincide, and no two sessions share one |
| Hashing.LeafAt | internal/orchestrator/domain/checkpoint.go:66-77 | leaf i stands at byte 32 * i of the string hashed |
| Hashing.JoinInjective | internal/orchestrator/domain/checkpoint.go:54-77 | concatenated 32-byte leaves decode uniquely |
| Hashing.CheckpointHashBinds | internal/orchestrator/domain/checkpoint.go:79-94 | changing, dropping, adding or reordering leaves, or relinking, changes the checkpoint hash, or two of the strings hashed collide |
| Checkpoints.ClassifyCheckpoints | internal/orchestrator/adapter/outbound/eventstore/verify_checkpoints.go:158-212 | verified if and only if every row links, recomputes and carries a valid signature; otherwise the first failing row, the rows before it counted, and its reason |
| Checkpoints.FirstRowLinksToGenesis | internal/orchestrator/adapter/outbound/eventstore/verify_checkpoints.go:168-179 | the first row of an accepted table may carry NULL or the genesis constant as predecessor, and nothing else |
| Checkpoints.RowHashBinds | internal/orchestrator/adapter/outbound/eventstore/verify_checkpoints.go:185-196 | in accepted tables equal row hashes mean equal predecessors and equal covered leaves, unless hashed strings collide |
| Checkpoints.RowHashFixesHistory | internal/orchestrator/adapter/outbound/eventstore/verify_checkpoints.go:163-183 | a row hash fixes its index, its leaves and every row before it, across any two accepted tables |
| Checkpoints.AcceptedMeansUntampered | internal/orchestrator/adapter/outbound/eventstore/verify_checkpoints.go:95-212 | whoever rewrites log and table without being able to sign gets acceptance only for rows with the signed hashes over the same leaf hashes, a prefix of the signed table, or exhibits a collision |
| Checkpoints.TruncationIsAccepted | internal/orchestrator/adapter/outbound/eventstore/verify_checkpoints.go:168-212 | a table cut off after any row stays accepted |
| AuditSigning.Conn.QueryHead | internal/orchestrator/projection/audit_signer.go:115-119 | the newest checkpoint row, or a failure |
| AuditSigning.Conn.QueryTail | internal/orchestrator/projection/audit_signer.go:136-142 | the settled chained leaves above a global id, ascending, or a failure |
| AuditSigning.Conn.ExecInsert | internal/orchestrator/projection/audit_signer.go:148-152 | inserts unless the upper bound of the range is taken; a failure changes nothing |
| AuditSigning.AuditSigner.constructor | internal/orchestrator/projection/audit_signer.go:104-109 | an unloaded signer; a boundary that is not positive becomes the default |
| AuditSigning.AuditSigner.FlushAccumulated | internal/orchestrator/projection/audit_signer.go:300-337 | the whole new state of signer and table, for success and for a failed insert |
| AuditSigning.AuditSigner.HydrateUnanchoredTail | internal/orchestrator/projection/audit_signer.go:258-295 | the whole new state, for every pattern of failing calls |
| AuditSigning.AuditSigner.Load | internal/orchestrator/projection/audit_signer.go:206-252 | the whole new state, for every pattern of failing calls |
| AuditSigning.AuditSigner.ProjectBatch | internal/orchestrator/projection/audit_signer.go:163-187 | the whole new state, for every pattern of failing calls |
| AuditSigning.AuditSigner.FlushPending | internal/orchestrator/projection/audit_signer.go:193-201 | the whole new state, for every pattern of failing calls |
| SignerInvariant.MakesTheFold | internal/orchestrator/projection/audit_signer.go:304-324 | in every good state the row the signer builds is the one its place in the log demands: prev, hash, range, count and signature |
| SignerInvariant.AnchoredIsAccepted | internal/orchestrator/projection/audit_signer.go:300-337 | a table that partitions a prefix of the log passes the verifier, whatever was appended since |
| SignerInvariant.AnchoredConcat | internal/orchestrator/projection/audit_signer.go:304-327 | the leaves covered by the rows, row after row, are the anchored prefix of the log |
| SignerInvariant.RangesAscend | internal/orchestrator/projection/audit_signer.go:308-324 | ranges are disjoint and ascending, each row names the hash before it, row 0 has a null prev |
| SignerInvariant.FlushLeavesKeeps | internal/orchestrator/projection/audit_signer.go:300-337 | a flush keeps the invariant and the number of leaves accounted for; a failed one changes nothing |
| SignerInvariant.EnsureLoadedKeeps | internal/orchestrator/projection/audit_signer.go:206-295 | loading, also when it fails half way, keeps the invariant; when it succeeds every settled leaf is accounted for |
| SignerInvariant.DeliverKeeps | internal/orchestrator/projection/audit_signer.go:163-187 | delivering rows again or anew keeps the invariant and catches up with them |
| SignerRuns.GapFreeCounts | internal/orchestrator/projection/audit_signer.go:171-173 | comparing global ids with the last one seen counts leaves: no gap before the cursor if and only if as many leaves were seen as lie before it |
| SignerRuns.CrashingLeavesNoGap | internal/orchestrator/projection/audit_signer.go:206-252 | if no batch follows a failed load before a restart, the invariant holds at every point and no unseen chained row lies before the cursor |
| SignerRuns.EveryRunAccounts | internal/orchestrator/projection/audit_signer.go:163-337 | in every such run the leaves anchored followed by those accumulated are the chained log up to the frontier, each once |
| SignerRuns.EveryRunVerifies | internal/orchestrator/projection/audit_signer.go:206-239 | every reachable checkpoint table passes the verifier against the whole log |
| SignerRuns.EveryRunAscends | internal/orchestrator/projection/audit_signer.go:300-337 | ranges strictly ascend across restarts, each later prev is the prior hash, the first alone is null |
| SignerRuns.CaughtUpFlushAnchorsAll | internal/orchestrator/projection/audit_signer.go:193-201 | a successful flush when caught up, or right after a restart, leaves the covered leaves equal to the whole chained log |
| SignerLimits.OrderIsExact | internal/orchestrator/projection/audit_signer.go:171-173 | every run over a feed accounts for every leaf if and only if its chained rows come in ascending global id |
| SignerLimits.OvertakenLeafIsSkipped | internal/orchestrator/projection/audit_signer.go:171-179 | on any other feed a legal run without a failure delivers a leaf, skips it and no longer accounts for it |
| SignerLimits.GapIsExact | internal/orchestrator/projection/audit_signer.go:171-187 | the next new leaf is taken without losing another if and only if no unseen chained row lies before it |
| SignerLimits.BatchIsExact | internal/orchestrator/projection/audit_signer.go:163-187 | from a good state a batch, whatever fails in it, keeps every leaf accounted for if and only if it takes no new one across a gap |
| SignerLimits.SmoothIsExact | internal/orchestrator/projection/audit_signer.go:163-337 | over an ascending feed a run accounts for every leaf at every point if and only if none of its batches takes a new leaf across a gap |
| SignerLimits.FailedReload | internal/orchestrator/projection/audit_signer.go:236-262 | after a reload whose tail read failed the signer is loaded, with a gap exactly over the unanchored rows before the cursor |
| SignerLimits.StrandedTail | internal/orchestrator/projection/audit_signer.go:236-252 | a concrete run: one leaf, a restart, a failed reload, one more leaf; the first is no longer accounted for |
| SignerLimits.FailedInsertExtends | internal/orchestrator/projection/audit_signer.go:297-337 | after a failed insert nothing is lost and the next checkpoint covers the same range and one leaf more |
| SignerLimits.LostAckHeals | internal/orchestrator/projection/audit_signer.go:323-336 | an insert that landed but reported failure is healed by a restart or by a retry before a new leaf |
| SignerLimits.LostAckThenNewLeaf | internal/orchestrator/projection/audit_signer.go:323-336 | with a new leaf in between, the next row forks the chain and verification rejects the table, unless hashed strings collide |
| SignerLimits.CheckpointSizes | internal/orchestrator/projection/audit_signer.go:167-201 | in runs without a failed insert, whatever else fails, the accumulator stays below the boundary, and a checkpoint of another size is the last one stored by a catch-up flush |
| SignerLoss.EveryTableIsStacked | internal/orchestrator/projection/audit_signer.go:300-337 | in every possible run, any feed order, gaps and failures, ranges strictly ascend and the rows are the folds, in order, of the accumulators that were flushed, each a group of chained rows |
| SignerLoss.AnchoredOnceOrMissed | internal/orchestrator/projection/audit_signer.go:300-337 | in every run a chained leaf at or below the head of the table was folded into exactly one row, or is missed |
| SignerLoss.MissedForGood | internal/orchestrator/projection/audit_signer.go:136-142 | a leaf at or below the head of the table that was in none of the accumulators flushed so far is in none flushed in any continuation, restarts included |
| SignerLoss.PassedIsLost | internal/orchestrator/projection/audit_signer.go:171-187 | a leaf passed over is lost for good once the table reaches its id before a restart, by whatever flush |
| SignerLoss.RestartAnchors | internal/orchestrator/projection/audit_signer.go:241-295 | a leaf above the head of the table is anchored by a restart and one flush |
| SignerLoss.OvertakenLeafIsLost | internal/orchestrator/projection/audit_signer.go:171-201 | on a feed that is not ascending a legal run without a failure and one flush lose a leaf for good, in every continuation |
| SignerLoss.JumpedRowIsLost | internal/orchestrator/projection/audit_signer.go:163-201 | in any run, once a batch took a leaf across a gap and the table reached the row behind it before a restart, by a catch-up flush or at the boundary inside a batch, that row is lost for good |
| SignerLoss.StrandedLeafIsLost | internal/orchestrator/projection/audit_signer.go:236-252 | a concrete run after which the first leaf is lost for good, in every continuation |
| SignerLoss.RangeOverLostLeafIsRejected | internal/orchestrator/adapter/outbound/eventstore/verify_checkpoints.go:185-196 | if the lost leaf lies inside a stored range the verifier rejects the table, or strings hashed for that row collide |
| EventChain.VerifyChainIntegrity | cmd/boltrope-dev/read_methods.go:67-151 | the loops compute the verdict function, for every stored log and window |
| EventChain.FindSeedPrev | cmd/boltrope-dev/read_methods.go:158-171 | the stored hash of the preceding number, else the session genesis |
| EventChain.VerifyIsFirstFailure | cmd/boltrope-dev/read_methods.go:86-150 | on contiguous numbers the verdict is that of the first chained-or-later event whose hashes do not follow from its bytes and its stored predecessor |
| EventChain.ClampWindow | cmd/boltrope-dev/read_methods.go:72-84 | any requested bounds behave as their intersection with the stored numbers |
| EventChain.HonestVerifies | cmd/boltrope-dev/read_methods.go:67-151 | an honestly built log verifies over every window, with every event of it counted |
| EventChain.StoredBytesDecide | cmd/boltrope-dev/read_methods.go:114-118 | where bytes are stored, what the event would marshal to never changes a verdict, in any log and window |
| EventChain.MissingBytesAreMarshalled | cmd/boltrope-dev/read_methods.go:119-128 | where none are stored, the verdict is the one with the marshalled event in their place |
| EventChain.InconsistentEventIsFound | cmd/boltrope-dev/read_methods.go:95-149 | a single inconsistent event is what a window containing it reports, after the events before it, if and only if its content column is set or the window starts before it |
| EventChain.NulledPrefixVerifies | cmd/boltrope-dev/read_methods.go:95-102 | with the content columns of the first m events NULL, whatever their payloads, and their chain hashes kept, every window is valid and counts its events from m on |
| EventChain.NullingIsHiddenIff | cmd/boltrope-dev/read_methods.go:95-137 | NULL content columns go unnoticed by every window if and only if no chained event precedes one of them |
| EventChain.ChangedPayloadIsFound | cmd/boltrope-dev/read_methods.go:114-137 | other stored bytes at k, whatever the event still marshals to, are reported at k as a content mismatch after k - lo events, or the two payloads collide |
| EventChain.LostPayloadIsMarshalled | cmd/boltrope-dev/read_methods.go:118-137 | with the stored bytes gone the event passes if it marshals to the same bytes, is a mismatch if to others, and an error if it does not marshal |
| EventChain.ChangedChainHashIsFound | cmd/boltrope-dev/read_methods.go:138-147 | another chain hash at k is reported at k as a broken link |
| EventChain.ForgedEventIsFoundNext | cmd/boltrope-dev/read_methods.go:138-148 | an event rewritten with both its hashes is reported at the next event, or hashed strings collide; at the end of the window it passes |
| EventChain.WindowsCompose | cmd/boltrope-dev/read_methods.go:86-171 | verifying a..c agrees with a..b then b+1..c, counts included, if and only if it is not the case that the first part checked something and event b+1 is unchained |
| DevStore.Store.constructor | cmd/boltrope-dev/eventstore.go:60-67 | an empty store |
| DevStore.Store.CreateSession | cmd/boltrope-dev/eventstore.go:75-89 | a fresh aggregate at head 0; an existing id is left as it is |
| DevStore.Store.AppendBatch | cmd/boltrope-dev/eventstore.go:99-157 | the whole new state, also when an event does not marshal; the returned envelopes are what the log gained; new channels stay new |
| DevStore.Store.FanoutEvent | cmd/boltrope-dev/eventstore.go:163-170 | every subscriber's channel gains the event unless it is full, and no other channel appears |
| DevStore.Store.ForkSession | cmd/boltrope-dev/eventstore.go:332-348 | the whole new state; no check of either id or of the branch point |
| DevStore.Store.Subscribe | cmd/boltrope-dev/eventstore.go:204-213 | snapshot and registration of a new channel in one step |
| DevStore.Store.Unsubscribe | cmd/boltrope-dev/eventstore.go:316-326 | the first occurrence of the channel is removed, nothing else; new channels stay new |
| StoreModel.WithoutIsFirst | cmd/boltrope-dev/eventstore.go:316-326 | exactly the first occurrence of the channel leaves the list, the order of the rest is kept, and a list without it stays as it is |
| Subscription.UnsubscribedHearsNothing | cmd/boltrope-dev/eventstore.go:163-326 | a channel subscribed once and unsubscribed is registered nowhere, and no later run of appends, forks and other subscriptions changes its queue |
| DevStore.Store.LoadUpTo | cmd/boltrope-dev/read_methods.go:42-52 | the events numbered at most atSeq, in order |
| StoreModel.UpToMembers | cmd/boltrope-dev/read_methods.go:42-52 | in any log the events read are exactly those numbered at most atSeq |
| StoreHistories.UpToIsPrefix | cmd/boltrope-dev/read_methods.go:42-52 | on consecutive numbers from any base, forked sessions included, the read is the prefix that ends at atSeq |
| DevStore.Store.LoadRange | cmd/boltrope-dev/read_methods.go:25-38 | the first limit events above afterSeq, in order |
| StoreModel.AboveMembers | cmd/boltrope-dev/read_methods.go:25-38 | in any log the events above afterSeq are exactly those numbered above it |
| StoreModel.RangeIsPrefix | cmd/boltrope-dev/read_methods.go:25-38 | a positive limit cuts them after that many, any other does not cut |
| StoreModel.ReadsJoin | cmd/boltrope-dev/read_methods.go:22-52 | in an ascending log, reading up to a number and reading on from it give the log, once each, in order |
| DevStore.Store.Verify | cmd/boltrope-dev/read_methods.go:67-84 | the verdict on the session's stored log |
| StoreHistories.AppendKeepsIff | cmd/boltrope-dev/eventstore.go:99-157 | an append keeps numbering, chain and head sound if and only if every event marshals, which is also when it reports success |
| StoreHistories.AppendFromFails | cmd/boltrope-dev/eventstore.go:130-135 | a failed append has used one number more than it stored events |
| FailedAppends.LogAfterFailure | cmd/boltrope-dev/eventstore.go:110-157 | after a batch that fails at k and one that marshals, from any sound store: the k events stored, one number missing, the rest linked from the head saved before the failure |
| ChainHeads.LinkFixesHistory | internal/orchestrator/domain/hashchain.go:62-88 | if the link into event i of one log that checks is the link into event j of another, then i == j and the events before carry the same bytes, unless hashed strings collide or the genesis string recurs |
| ChainHeads.VerifiedHeadFixesLog | cmd/boltrope-dev/read_methods.go:67-151 | a stored log that verifies in full and ends in the head of an honest log has as many events, each with the honest payload or with none while it still marshals to it, unless hashed strings collide or the genesis string recurs |
| ChainHeads.LinksAreDistinct | internal/orchestrator/domain/hashchain.go:62-88 | two positions of a chain that checks have different links, unless hashed strings collide or the genesis string recurs |
| FailedAppends.FailedAppendBreaksTheChain | cmd/boltrope-dev/eventstore.go:124-157 | for k > 0 the whole log is rejected at the first later event; for a session with events the window starting there is; for k == 0 the whole log verifies, and every window if the session was empty; rejections up to collisions |
| StoreHistories.ForkKeepsIff | cmd/boltrope-dev/eventstore.go:332-348 | a fork keeps the store sound if and only if the branch point is not negative and the chain head under the new id is its genesis |
| StoreHistories.ForkTimelineIff | cmd/boltrope-dev/eventstore.go:328-348 | wherever a fork into a new id branches the store stays sound, and once the child has events its timeline is numbered without a gap if and only if the branch point is at most the parent's head |
| StoreHistories.EveryHistoryVerifies | cmd/boltrope-dev/eventstore.go:75-157 | at every point of every legal history own events are numbered forkedFrom+1..head, the head hash is the fold of the content hashes from genesis, and every window verifies with all its events checked |
| StoreHistories.ComposedIsContiguous | internal/orchestrator/app/ports.go:98-128 | the composed timeline is numbered 1..head with no gap or overlap, also for a fork of a fork below its own branch point |
| StoreHistories.ComposeExtends | internal/orchestrator/app/ports.go:120-128 | when sessions only grow, every timeline only grows, and stays equal when its own events do |
| StoreHistories.EveryTimelineHolds | cmd/boltrope-dev/eventstore.go:328-348 | at every point of every legal history timelines are numbered 1..head, and nothing but appends to the session itself ever changes its timeline |
| Subscription.AppendIsSteps | cmd/boltrope-dev/eventstore.go:130-155 | an append is a sequence of the event-by-event steps the interleavings are made of |
| Subscription.FanoutTail | cmd/boltrope-dev/eventstore.go:163-170 | a fan-out offers the event once to a channel registered once and leaves other channels alone |
| Subscription.NextIsNew | cmd/boltrope-dev/eventstore.go:232-238 | the relay skips a tail event if and only if it is not above fromSeq |
| Subscription.StepKeeps | cmd/boltrope-dev/eventstore.go:204-251 | every step keeps: delivered, in hand and still queued events together are the snapshot and the events that found room, above fromSeq |
| Subscription.EveryInterleavingDelivers | cmd/boltrope-dev/eventstore.go:99-251 | in every interleaving the output is strictly increasing, from the log above fromSeq, and with what is on its way equals that log if and only if every event above fromSeq found room; the output is then a prefix of that log |
| Subscription.EverySubscriberAfterHistory | cmd/boltrope-dev/eventstore.go:204-251 | the same for a subscriber that joins after any legal history |
| Subscription.DroppedForGood | cmd/boltrope-dev/eventstore.go:163-170 | an event that found no room is never delivered, whatever follows |
| Subscription.SlowReaderLosesEvents | cmd/boltrope-dev/eventstore.go:163-170 | in any run, of the events appended to the session before the reader receives one, all after the first 256 are stored and never delivered |
| Subscription.LongBatchOverflows | cmd/boltrope-dev/eventstore.go:124-170 | one append of more than 256 events before the first receive is such a run |
| CostModel.RollupFold | internal/orchestrator/projection/cost.go:142-165 | folds into the caller's accumulator in place and returns it, into a new one when none is given, stopping at a terminal payload that does not decode |
| CostModel.RollupIsTotal | internal/orchestrator/projection/cost.go:130-165 | it succeeds if and only if every terminal row decodes; then each session gained the sum of its rows and exactly the sessions with a terminal row have an entry |
| CostModel.LatestBelow | internal/orchestrator/projection/cost_projector.go:73-80 | the TurnStarted of the session with the highest sequence number below the bound, whatever its turn |
| CostModel.LookupMeans | internal/orchestrator/projection/cost_projector.go:73-80 | the lookup returns the model text of the one start with the highest sequence number below the bound |
| CostModel.LookupFindsNone | internal/orchestrator/projection/cost_projector.go:73-80 | and the unknown model when the session has no start below it |
| CostProjection.CostDb.ExecInsert | internal/orchestrator/projection/cost_projector.go:57-62 | inserts unless the global id is taken; failures before and after the write |
| CostProjection.CostProjector.ProjectRows | internal/orchestrator/projection/cost_projector.go:89-119 | the whole new state of map and table, for every pattern of failing calls and undecodable payloads |
| CostProjection.CostProjector.ResolveModel | internal/orchestrator/projection/cost_projector.go:172-188 | the map, else the lookup, else the unknown model |
| CostRuns.WriteKeeps | internal/orchestrator/projection/cost_projector.go:102-119 | from any table that holds the terminal rows up to a mark, a batch read again or anew reaches a table that holds them up to a later mark |
| CostRuns.EveryRunCountsOnce | internal/orchestrator/projection/runner.go:274-334 | however batches were cut, re-read, interrupted or restarted, once all rows were delivered, the last position saved or not, there is one row per terminal event and per-session sums equal one fold over the log |
| CostAttribution.ReportIsCandidate | internal/orchestrator/projection/cost_projector.go:89-119 | every run attributes a turn to what the lookup finds or to a start of the turn that nothing superseded before it or that comes after it |
| CostAttribution.CandidateIsReported | internal/orchestrator/projection/cost_projector.go:89-119 | each of these is what some run writes |
| CostAttribution.ReportIsPossible | internal/orchestrator/projection/cost_projector.go:168-188 | with lookups that fail for some rows, every run attributes a turn to a candidate or, where the lookup may fail, to the unknown model |
| CostAttribution.PossibleIffReported | internal/orchestrator/projection/cost_projector.go:89-188 | and these are exactly the models some run writes |
| CostAttribution.AttributionIsJoinIff | cmd/boltrope-dev/read_methods.go:218-251 | every run attributes a turn to the model of the direct join if and only if the lookup and every start that may be in flight agree with the join |
| CostAttribution.OwnStartSettles | internal/orchestrator/projection/cost_projector.go:70-80 | it does when turns have one model each and the latest earlier start in the session is of the turn itself |
| CostAttribution.OverlappingTurnsDiffer | internal/orchestrator/projection/cost_projector.go:73-80 | a concrete log of two overlapping turns and a run that attributes the first to the model of the second |
| CostByModel.EveryRunSumsByModel | internal/orchestrator/projection/cost_projector.go:82-119 | where lookups and starts in flight agree with the join, every run that delivered the log leaves a table whose sums by model are the direct fold over the log |
| ModelCost.FoldModelCost | cmd/boltrope-dev/read_methods.go:218-251 | one row per model, ascending in string order, holding the folded totals |
| Lexicographic.LessIff | cmd/boltrope-dev/read_methods.go:249 | the order of strings: a proper prefix, or the smaller character at the first difference |
| ModelCost.ByModelAt | cmd/boltrope-dev/read_methods.go:226-244 | each entry is the sum of the rows whose turn joins to its model, and every such model has an entry |
| ModelCost.ModelsPartitionTheTotal | cmd/boltrope-dev/read_methods.go:214-251 | the rows add up to the cost of all events, which is what the per-session totals add up to |
| ModelCost.OrderOfSessionsIsFree | cmd/boltrope-dev/read_methods.go:184-192 | lists with the same events of every session in the same order give the same rows |
| ModelCost.TenantCostIsOrderFree | cmd/boltrope-dev/read_methods.go:184-192 | any two orders of listing the sessions give the same rows |
| SessionPages.ListSessions | cmd/boltrope-dev/eventstore.go:258-313 | the first limit matching sessions past the cursor, in strict order |
| SessionPages.AheadIff | cmd/boltrope-dev/eventstore.go:279-290 | that order is by time, then by id in string order, and descending is the same order backwards |
| SessionPages.StatusesNarrow | cmd/boltrope-dev/eventstore.go:266-268 | a status set keeps exactly the sessions of those statuses, an empty one all |
| SessionPages.WindowsPartition | cmd/boltrope-dev/eventstore.go:269-274 | time windows are half open: adjacent ones share no session and miss none, the lower bound is in, the upper one out |
| SessionPages.OpenWindow | cmd/boltrope-dev/eventstore.go:269-274 | a missing bound does not restrict |
| SessionPages.TokenIsExactIff | internal/orchestrator/adapter/inbound/grpc/admin_api.go:177-188 | among the sessions a store can hold beside it, continuing past a session's token keeps exactly those after it if and only if its time is whole milliseconds and its id not empty |
| SessionPages.TokenCounterexample | internal/orchestrator/adapter/outbound/eventstore/list_sessions.go:160-163 | otherwise the session itself is past its token (ascending, or an empty id), or a session of another id that comes after it is not (descending) |
| SessionPages.UnalignedWalkRepeats | internal/orchestrator/adapter/outbound/eventstore/list_sessions.go:64-70 | a two-page walk that lists a session twice, for every such session |
| SessionPages.UnalignedWalkMisses | internal/orchestrator/adapter/outbound/eventstore/list_sessions.go:64-81 | a finished descending walk that never lists a session present throughout |
| SessionPages.WalkListsEachOnce | cmd/boltrope-dev/eventstore.go:258-313 | a finished walk over a changing store, either direction, any page sizes, lists in strict order, nothing twice, and every session present and matching throughout |
| EventPages.WalkListsTheLog | cmd/boltrope-dev/read_methods.go:22-38 | a walk lists a prefix of the log above its start, and all of it if and only if its last page found no further event, whatever was appended between pages |
| Policy.NewEngine | internal/orchestrator/policy/engine.go:59-80 | fails if and only if some effect is unknown; otherwise the deny and the allow rules in their order, and the default edit tools when none are given |
| Policy.FindFirst | internal/orchestrator/policy/engine.go:184-191 | the first matching rule |
| Policy.DenialNamesFirstRule | internal/orchestrator/policy/engine.go:96-103 | a denial names the first matching deny rule of the configured list, in every mode |
| Policy.ModeAnswers | internal/orchestrator/policy/engine.go:105-146 | without one, bypass, accept_edits and plan answer under their own names, and bypass is refused when tainted |
| Policy.AllowNamesFirstRule | internal/orchestrator/policy/engine.go:148-165 | then the first matching allow rule is named, allowing unless the call is tainted and of external or unset class |
| Policy.NothingMatchesAsks | internal/orchestrator/policy/engine.go:167-180 | and with none, approval is asked for under no rule, for the reason its egress class gives |
| Policy.BareRule | internal/orchestrator/policy/engine.go:217-225 | a rule without a pattern matches by tool, the empty tool every call |
| Policy.PrefixRule | internal/orchestrator/policy/engine.go:245-247 | a trailing star matches if and only if some text argument starts with what precedes it |
| Policy.LiteralRule | internal/orchestrator/policy/engine.go:248 | any other pattern matches if and only if some text argument contains it |
| Policy.DecisionDependsOnWhatFires | internal/orchestrator/policy/engine.go:95-181 | the decision is a function of whether any deny and any allow rule matches, of the mode and of taint |
| Policy.PermutingKeepsDecision | internal/orchestrator/policy/engine.go:59-191 | permuting the rules never changes the decision |
| Policy.InterleavingIsFree | internal/orchestrator/policy/engine.go:59-80 | moving a rule past a neighbour of another effect changes nothing of the result, the reported rule included |
| Policy.AddingDeny | internal/orchestrator/policy/engine.go:96-103 | a further deny rule makes the decision Deny if it matches and changes nothing otherwise |
| Policy.AddingAllow | internal/orchestrator/policy/engine.go:148-165 | a further allow rule turns Ask into Allow or changes no decision |
| Policy.TaintTightens | internal/orchestrator/policy/engine.go:105-181 | in every mode taint never loosens the outcome |
| Policy.TaintedExternalAllowedIff | internal/orchestrator/policy/engine.go:120-215 | a tainted call of external or unset egress class is allowed if and only if no deny rule matches and accept_edits approves its tool |
| Policy.TaintSparesInternalCalls | internal/orchestrator/policy/engine.go:148-215 | a call of class none or internal that an allow rule and no deny rule matches is allowed outside plan and bypass, tainted or not |
| Policy.TaintedEditIsAllowed | internal/orchestrator/policy/engine.go:120-130 | a concrete tainted call of unset egress class that is allowed |
| Policy.JoinOfLabels | internal/orchestrator/policy/engine.go:251-264 | splitting a host into labels and joining them gives it back |
| Policy.HostRuleMatchesLabels | internal/orchestrator/policy/engine.go:254-279 | a host rule matches if and only if its trimmed host is not empty and its labels are the last labels of the target host |
| Policy.HostRule | internal/orchestrator/policy/engine.go:217-264 | so a rule with a host pattern matches if and only if tool and labels do |
| Policy.HostArgumentWins | internal/orchestrator/policy/engine.go:269-272 | a text host argument that is not empty is the target, whatever the url argument |
| Policy.UrlIsFallback | internal/orchestrator/policy/engine.go:273-279 | otherwise the host of a url argument that parses is, and without one there is none |
| SqlComments.StripSqlComments | migrations/guard.go:86-113 | the index loop equals a character-by-character lexer, unterminated comments included |
| SqlComments.OutputHasNoOpeners | migrations/guard.go:86-113 | no comment opener survives |
| SqlComments.StripIsIdempotent | migrations/guard.go:82-113 | stripping twice is stripping once, and exactly the text without openers is left alone |
| SqlComments.StripIsLawful | migrations/guard.go:86-113 | text before the first opener is copied; a block comment becomes a blank and ends at its first closing, a line comment leaves its first newline, and one that never ends swallows the rest |
| SqlComments.LawsDetermineStrip | migrations/guard.go:86-113 | any two functions with these properties agree on every text |

## Left out

- PostgreSQL itself: row-level security, snapshots and SQL execution appear only as ordered tables with a unique key, a settled feed and calls that may fail.
- SHA-256, Ed25519, JSON encoding, URL parsing, lower-casing and trimming are arbitrary functions or marshal results given as input.
- Key ids, algorithm names, tenants of audit rows and permission modes of sessions are carried data and not modelled.
- Wording of verification reasons and policy reasons: reasons are enumerated, their text is not.
- 64-bit wrap-around of sequence numbers, global ids and token counters, and rounding of float64 costs.
- The runner's in-memory per-session totals and its cost counter, which count re-read batches again by design.
- Context cancellation, scheduling fairness and the buffer of the subscriber's output channel: a blocked relay is one that takes no step.
- CostModel.RollupFold: the totals of a session are values in the accumulator, so a caller holding a pointer to one entry is not captured.
- ModelCost.FoldModelCost: sorting is an insertion sort in place of the library's, with the same result because models are distinct.
- SessionPages.ListSessions: sorting likewise; only the fields that filter and order sessions are modelled.
- StoreHistories.EveryHistoryVerifies: legal histories fork only into unused ids, from existing parents, at or below their head; ForkKeepsIff, ForkTimelineIff and AppendKeepsIff say what happens otherwise.
- SignerRuns.EveryRunAccounts: stated for ascending feeds and for runs in which an error out of a call that had to load is a crash; OrderIsExact shows the first condition to be exact, SmoothIsExact gives the exact condition behind the second, and SignerLoss what happens otherwise.
- Load, LoadSession and TenantSessionCostCount of the dev store, clamping of page sizes and the page-token encoding: they would only add easy members.
- Daemon wiring, gRPC, REST and MCP edges, mTLS, OIDC, telemetry, the sandbox and the model gateway.
