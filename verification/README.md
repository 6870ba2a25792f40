# Ackplane, modelled and proved

A Dafny model of the Ackplane half of the repository: the delegation event
store, the ContextPacket compiler, the NodeSync client exchange, evidence
recording under concurrency, the signed-byte encodings with what acceptance of a
signature means, and the smaller stores and codecs around them. `dafny verify
dfyconfig.toml` checks everything.

How the pieces are laid out:

- `Delegation`, `DelegationTheorems`, `DelegationRetries`, `DelegationStore`:
  tables and transactions as values, the invariant of every run, retries and
  terminality, and the class whose methods are those transactions.
- `ContextPackets`, `ContextPacketCompiler`, `PacketCompilerTheorems`,
  `PacketBudgets`, `PacketOrder`, `StableSort`, `ScanOrder`: the packet types and
  their validation, the compiler as loops proved against a specification, its
  optimality and determinism, what a change of budget does, and exactly when the
  order of the input shows.
- `NodeSync`, `NodeSyncOrdering`: the connection class and its loop, then the
  exact class of server traces that keeps answers and frames in step.
- `Evidence`, `EvidenceRecording`: single statements and the sequential method,
  then all interleavings of whole service calls.
- `SigningBytes`, `SignedRequests`, `SignedOperations`, `Signatures`: the byte
  buffer and a decoder for it, the five builders, and acceptance over the key
  registry.
- `Constitution`, `ContextPacketStore`, `BridgeSalt`, `BridgeCursors`.

Conventions. A locked transaction is one atomic step; a statement on its own
connection is a step of its own. Clocks, random ids, network arrivals and
database failures are parameters the environment chooses. SHA-256 is ideal: a
digest is represented by the content it covers, except in the compiler, where it
is an arbitrary function. An Ed25519 signature (section 5.1 of RFC 8032) vouches
for at most one message per key. Parsing an RFC 3339 timestamp (section 5.6) is
a given partial function. Instants are integers in nanoseconds.

Where the code does not do what a reader might expect, the code is followed and
the difference is a lemma: a retried grant is refused once it has expired
(`GrantRetry`), a larger budget can drop an item, overflow, or
select another tenant's item and so fail (`LargerBudgetMayDropAnItem`,
`LargerBudgetMayOverflow`, `LargerBudgetMayAdmitAForeigner`, with the exact
condition in `LargerBudgetCompilesExactlyWhen`), the error a request is refused
with can depend on the order its items are listed in
(`DuplicateIdsMakeOrderVisible`; exactly when is `OrderIsIrrelevantExactlyWhen`),
a length of 2^32 wraps (`PairsAreSafeExactlyBelow`), only a timeout retires a NodeSync
connection, so an unsolicited frame can put it out of step
(`AnswersStayInStepExactlyWhen`), `get_active` can return a torn reading
(`ReadCanTear`, `ReadIsFaithfulExactlyWhen`), and the smallest i64 of microseconds does not come back
(`MicrosRoundTrip`).

## Model

| member | source | states |
|---|---|---|
| DelegationTheorems.EveryRunIsConsistent | crates/ackplane-server/src/delegation_store.rs:109-354 | Every state any mix of grants, revocations and uses can reach: positions are 1, 2, 3 … with the head at the last one, idempotency keys are unique, each delegation's history is [Granted v1] or [Granted v1, Revoked v2], its projection row equals the projection recomputed by an independent fold over that history, and every authorized use stays within its action count and token budget and names its delegatee, goal, project, task, policy and constitution basis and one of its actions |
| DelegationTheorems.GrantKeeps | crates/ackplane-server/src/delegation_store.rs:109-238 | A grant transaction, committed, replayed or failed, keeps all of the above |
| DelegationTheorems.RevokeKeeps | crates/ackplane-server/src/delegation_store.rs:241-354 | So does a revocation; one that commits takes the delegation's history from exactly one event to that event followed by the new one |
| DelegationTheorems.UseKeeps | crates/ackplane-server/src/delegation_store/authorization/write.rs:17-64 | So does a use decision; in particular count and token sum never pass the granted ceilings |
| DelegationTheorems.RunKeeps | crates/ackplane-server/src/delegation_store.rs:109-354 | The invariant over whole runs from any consistent store |
| DelegationRetries.GrantRetry | crates/ackplane-server/src/delegation_store.rs:113-142 | The same grant under the same key, after any further operations, answers with the original event and the projection as of that event and writes nothing; the only thing that stops it is its own expiry, checked first, and then the error is InvalidTimeWindow |
| DelegationRetries.RevokeRetry | crates/ackplane-server/src/delegation_store.rs:245-263 | A repeated revocation always answers with its original event and projection and writes nothing |
| DelegationRetries.UseRetry | crates/ackplane-server/src/delegation_store/authorization/write.rs:36-42 | A repeated use request returns the same receipt, authorized or refused, under any later clock, budget or revocation |
| DelegationRetries.GrantUnderUsedKey | crates/ackplane-server/src/delegation_store/replay.rs:78-114 | A valid grant under a used key is a replay exactly when the stored event is this very grant up to action order and sub-microsecond time; otherwise IdempotencyConflict; the state never changes |
| DelegationRetries.RevokeUnderUsedKey | crates/ackplane-server/src/delegation_store/replay.rs:78-114 | The same for revocations, with the projection equal to the replay of the whole history |
| DelegationRetries.OutcomeIsStable | crates/ackplane-server/src/delegation_store/replay.rs:78-114 | An outcome found for a key is found unchanged in every extension of the log |
| DelegationRetries.GrantSucceedsExactlyWhen | crates/ackplane-server/src/delegation_store.rs:144-238 | Under a new key a grant commits exactly when it validates, the drawn id is new and a 64-bit position is left; the reply's projection is the committed row; an id collision is the only reachable database error and no integrity error is reachable |
| DelegationRetries.RevokeSucceedsExactlyWhen | crates/ackplane-server/src/delegation_store.rs:265-354 | Under a new key a revocation commits exactly for an active delegation, expected version 1 and a position left; no database or integrity error is reachable |
| DelegationRetries.RevokedIsTerminal | crates/ackplane-server/src/delegation_store.rs:265-279 | After a revocation, whatever runs, the projection and history stay as they are and neither the authorized count nor the reserved tokens grow |
| DelegationRetries.RevocationOnRecord | crates/ackplane-server/src/delegation_store/replay.rs:52-76 | Every stored revocation is the second event of its delegation, its grant is found, and the projection at it is the replay of both |
| Delegation.GrantDigestIdentifies | crates/ackplane-server/src/delegation_store/digest.rs:9-39 | Among accepted grants equal digests mean equal content, up to the order actions are listed in, although absent and empty optional ids hash alike |
| Delegation.ActionCodesReadBack | crates/ackplane-server/src/delegation_store/model.rs:316-368 | A listing has codes exactly when it is valid, and its sorted codes decode to the same actions in code order |
| Delegation.StoredActions | crates/ackplane-server/src/delegation_store/model.rs:316-339 | Putting actions in code order keeps them as a multiset, sorts them, and keeps exactly the valid listings valid |
| Delegation.StoredIgnoresOrder | crates/ackplane-server/src/delegation_store/model.rs:316-339 | Two listings are stored alike exactly when they are permutations of each other |
| Delegation.CheckActions | crates/ackplane-server/src/delegation_store/model.rs:316-339 | The one-pass loop with a set of seen codes accepts exactly one to sixteen distinct actions |
| Common.NormalizeTimestamp | crates/ackplane-server/src/delegation_store/model.rs:224-228 | Floors to a whole microsecond, before the epoch too, moving less than one |
| DelegationStore.DelegationStore.Grant | crates/ackplane-server/src/delegation_store.rs:109-238 | The locked transaction step by step: validate, look the key up, append, project, advance; it is the modelled step, keeps every invariant, and an error leaves the store as it was |
| DelegationStore.DelegationStore.Revoke | crates/ackplane-server/src/delegation_store.rs:241-354 | The same for revoke, with AlreadyRevoked before VersionConflict |
| DelegationStore.DelegationStore.AuthorizeUse | crates/ackplane-server/src/delegation_store/authorization/write.rs:17-64 | The same for a use decision, refusals being recorded like authorizations |
| PacketCompilerTheorems.CompileSucceedsExactlyWhen | crates/ackplane-server/src/context_packet_compiler.rs:93-180 | Compilation succeeds exactly when the candidates are acceptable, the header is sealable, the mandatory sum fits the budget and no optional addition passes u32 at its turn: a condition over plain integers a caller can evaluate beforehand |
| PacketCompilerTheorems.CompiledPacketContents | crates/ackplane-server/src/context_packet_compiler.rs:106-180 | The packet lists the mandatory items by id first, then the chosen optional items in rank order, `used` is the exact sum of selected tokens and at most the budget, and exclusions and rejections are the rest in order |
| PacketCompilerTheorems.EveryOptionalDisposedOnce | crates/ackplane-server/src/context_packet_compiler.rs:131-158 | Selected and budget-excluded optional items together are the optional items, each exactly once |
| PacketCompilerTheorems.CompiledSelectionIsOptimal | crates/ackplane-server/src/context_packet_compiler.rs:99-158 | No feasible subset of the optional items beats the compiled selection at the first rank where they differ |
| PacketCompilerTheorems.FillIsTheOptimum | crates/ackplane-server/src/context_packet_compiler.rs:131-158 | The greedy fill is feasible and is the one feasible choice that no feasible choice beats |
| PacketBudgets.LargerBudgetCompilesExactlyWhen | crates/ackplane-server/src/context_packet_compiler.rs:93-180 | A request that compiles still compiles under a larger budget exactly when no optional addition passes u32 there and nothing selected there is another tenant's |
| PacketBudgets.SelectedExactlyWhen | crates/ackplane-server/src/context_packet_compiler.rs:131-158 | A compiled packet holds a ranked optional item exactly when its tokens fit on top of the mandatory items and those taken before it at that budget; so which items a larger budget keeps and drops |
| PacketBudgets.LargerBudgetNeverWorse | crates/ackplane-server/src/context_packet_compiler.rs:131-158 | Of two successful compilations of one request, the larger budget's selection is never lexicographically worse |
| PacketBudgets.LargerBudgetMayDropAnItem | crates/ackplane-server/src/context_packet_compiler.rs:131-158 | A complete request with all eight envelope slots that compiles at 11 and 13 tokens, selecting only the second optional item at 11 and only the first at 13 |
| PacketBudgets.LargerBudgetMayOverflow | crates/ackplane-server/src/context_packet_compiler.rs:139-142 | A complete request that compiles at 8 tokens and fails with TokenBudgetOverflow at a larger budget |
| PacketBudgets.LargerBudgetMayAdmitAForeigner | crates/ackplane-server/src/context_packet_compiler.rs:160-180 | A complete request that compiles at 8 tokens and is refused by the packet's own validation at 9, where a foreign tenant's item becomes affordable |
| PacketBudgets.LateErrors | crates/ackplane-server/src/context_packet_compiler.rs:116-180 | With acceptable candidates and an affordable envelope, TokenBudgetOverflow is the outcome exactly when an addition passes u32, and any other failure is the packet's own validation |
| PacketCompilerTheorems.FillExactly | crates/ackplane-server/src/context_packet_compiler.rs:131-158 | The u32 fill fails exactly when some addition passes u32 at its turn and otherwise takes the same decisions as over unbounded integers |
| PacketCompilerTheorems.VerdictMeaning | crates/ackplane-server/src/context_packet_compiler.rs:183-242 | The scanning checks pass exactly when every item is well formed, every envelope slot is filled by an item that fits it and all ids across the three lists are distinct |
| PacketCompilerTheorems.AssembledItems | crates/ackplane-protocol/src/context_packet/mod.rs:104-193 | After the compiler's checks the packet's own item checks can only object to a foreign tenant |
| PacketCompilerTheorems.ReorderingPreservesThePacket | crates/ackplane-server/src/context_packet_compiler.rs:96-180 | If a request compiles, every reordering of its three lists compiles to the identical packet |
| PacketCompilerTheorems.EqualTiesMakeOrderIrrelevant | crates/ackplane-server/src/context_packet_compiler.rs:96-107 | A special case a caller can arrange: when items the sort cannot tell apart are equal, distinct ids or not, the whole outcome, packet or error, is independent of order |
| PacketCompilerTheorems.DuplicateIdsMakeOrderVisible | crates/ackplane-server/src/context_packet_compiler.rs:96-107 | A witness that order can show: for a mandatory list of one zero-token item and one stale item under the same id, the two orders are refused with different errors |
| PacketOrder.OrderIsIrrelevantExactlyWhen | crates/ackplane-server/src/context_packet_compiler.rs:96-242 | Every reordering of a request gets the identical answer, packet or error, if and only if, in each list whose stage is reached, any two items the sort ties but whose own checks answer differently come after something that already decided the answer: an earlier item refused by its own check, a repeated id, or an id seen in an earlier list; the optional list counts only when the mandatory one passes, the rejected list only when both do |
| PacketOrder.SettledOrderIsIrrelevant | crates/ackplane-server/src/context_packet_compiler.rs:96-180 | The sufficient half for two given requests, through the scans, the fill and sealing |
| PacketOrder.UnsettledOrderTells | crates/ackplane-server/src/context_packet_compiler.rs:183-242 | The necessary half, constructively: two reorderings of the request that the compiler answers differently |
| ScanOrder.ReportIgnoresOrderExactlyWhen | crates/ackplane-server/src/context_packet_compiler.rs:183-242 | One sorted scan on its own, from any set of ids already seen: all arrangements of the items report alike if and only if every tie between different own verdicts is settled earlier |
| PacketCompilerTheorems.SortedAsDocumented | crates/ackplane-server/src/context_packet_compiler.rs:96-107 | Mandatory items end up ordered by id, optional items by relevance descending and then id, and both are permutations of the input |
| ContextPacketCompiler.CompileContextPacket | crates/ackplane-server/src/context_packet_compiler.rs:93-180 | The imperative compiler, sorting, checking, summing and filling in loops, computes exactly the specified compilation |
| ContextPacketCompiler.ValidateCandidates | crates/ackplane-server/src/context_packet_compiler.rs:183-242 | The three loops with their growing id and slot sets compute the specified verdict, first error first |
| ContextPacketCompiler.SumMandatory | crates/ackplane-server/src/context_packet_compiler.rs:116-123 | The checked u32 sum loop: the exact sum, or nothing when it passes u32 |
| ContextPacketCompiler.FillLoop | crates/ackplane-server/src/context_packet_compiler.rs:131-158 | The selection loop's three variables end as the greedy decisions dictate |
| ContextPacketCompiler.FillFits | crates/ackplane-server/src/context_packet_compiler.rs:131-158 | The optional items never push the total past the budget |
| ContextPackets.ValidateItemsMeaning | crates/ackplane-protocol/src/context_packet/mod.rs:104-193 | Packet item validation passes exactly on well-formed, distinct, slot-complete, correctly totalled items |
| ContextPackets.SealValidates | crates/ackplane-protocol/src/context_packet/mod.rs:57-102 | A sealed packet is the assembled one with its digest filled in, passes full validation, and sealing it again changes nothing |
| StableSort.SortIgnoresOrder | crates/ackplane-server/src/context_packet_compiler.rs:96-107 | Sorting two permutations gives one result once the key tells elements apart |
| StableSort.SortSorts | crates/ackplane-server/src/context_packet_compiler.rs:96-107 | The stable sort orders its input |
| StableSort.SortPermutes | crates/ackplane-server/src/context_packet_compiler.rs:96-107 | The stable sort permutes its input |
| NodeSyncOrdering.AnswersStayInStepExactlyWhen | crates/ackplane-client/src/node_sync.rs:280-330 | For a server answering in order: every run of every mix of calls, timeouts and send failures hands each caller the answer to its own frame if and only if the trace has no answer after a stray frame or transport failure |
| NodeSyncOrdering.InStepIsSufficient | crates/ackplane-client/src/node_sync.rs:280-330 | The safety half, from any connection in step: a late answer is never taken for a later frame's, because a timeout ends all exchanges |
| NodeSyncOrdering.MisattributingRun | crates/ackplane-client/src/node_sync.rs:310-318 | The converse: wherever an answer follows an unsolicited frame or transport failure, a run exists in which it is returned to the wrong call, since only timeouts retire a connection |
| NodeSync.DirectivesAreConserved | crates/ackplane-client/src/node_sync.rs:54-63 | Directives handed out followed by those buffered equal, in order, the directives read, over any run of successes, refusals, errors and timeouts |
| NodeSync.ReceiptIsABarrier | crates/ackplane-client/src/node_sync.rs:356-366 | On success the last thing read is a receipt of the expected kind with the returned body and every directive ahead of it is already in hand |
| NodeSync.TimeoutIsFinal | crates/ackplane-client/src/node_sync.rs:286-288 | After one timeout nothing is sent or read again, whatever is called |
| NodeSync.AwaitMeaning | crates/ackplane-client/src/node_sync.rs:291-322 | One wait consumes at most one answer or interruption, and that is the last thing it reads |
| NodeSync.AwaitCollects | crates/ackplane-client/src/node_sync.rs:305-307 | One wait buffers exactly the directives it passes, in order |
| NodeSync.NodeSyncConnection.ExchangeFrame | crates/ackplane-client/src/node_sync.rs:280-330 | The exchange with its flag, send and timeout is the modelled exchange |
| NodeSync.NodeSyncConnection.AwaitReceipt | crates/ackplane-client/src/node_sync.rs:291-322 | The receive loop reads, buffers and settles as specified, or runs out of time |
| NodeSync.NodeSyncConnection.ExchangeOutboxFrame | crates/ackplane-client/src/node_sync.rs:432-446 | A use report expects its acknowledgement, any other frame a supervisor receipt |
| NodeSync.NodeSyncConnection.NextDirective | crates/ackplane-client/src/node_sync.rs:364-366 | Pops the oldest buffered directive, if any |
| EvidenceRecording.EveryInterleavingKeeps | crates/ackplane-server/src/evidence_service.rs:234-306 | The invariant over every interleaving of any number of calls, each statement its own step, with failed statements and lost acknowledgements |
| EvidenceRecording.OneRowPerKey | crates/ackplane-server/src/evidence_store.rs:210-289 | At most one row per tenant, repository and non-empty key; every successful caller with that key returns that row, and it matches the caller's request |
| EvidenceRecording.ExactlyOneReportsItNew | crates/ackplane-server/src/evidence_store.rs:210-289 | Every row is reported as new by its one writer, unless that acknowledgement was lost, and by no other caller |
| EvidenceRecording.RowsInjectIntoNonces | crates/ackplane-server/src/evidence_service.rs:80-99 | Distinct rows were written under distinct consumed (key, nonce) pairs, each by a verified call |
| EvidenceRecording.RefusedOrLookedUpConsumesNothing | crates/ackplane-server/src/evidence_service.rs:250-298 | Over every run: each consumed (key, nonce) was consumed by a call that burned it, and a call refused for want of authentication or settled by the service's lookup has burned none and written no row |
| EvidenceRecording.MatchingRetryConsumesNothing | crates/ackplane-server/src/evidence_service.rs:278-297 | A matching retry that reaches the service's lookup is answered there with the stored record and, whatever runs afterwards, has consumed nothing |
| EvidenceRecording.RefindAlwaysFinds | crates/ackplane-server/src/evidence_store.rs:260-270 | The lookup after a skipped insert never comes back empty |
| EvidenceRecording.StepsAddUpToRecord | crates/ackplane-server/src/evidence_store.rs:210-289 | A call's interleaved store steps give the same result and rows as the sequential method with the others' rows landing in between |
| Evidence.RecordRetry | crates/ackplane-server/src/evidence_store.rs:218-229 | A keyed record retried after anything else was written returns the same record as a replay and writes nothing |
| Evidence.RecordIsFound | crates/ackplane-server/src/evidence_store.rs:210-289 | After a keyed success the row under that key is the record returned, with the content asked for |
| Evidence.EvidenceStore.Record | crates/ackplane-server/src/evidence_store.rs:210-289 | The sequential method, lookup to second lookup, including rows other callers commit before its insert |
| Evidence.EvidenceStore.InsertEvidence | crates/ackplane-server/src/evidence_store.rs:231-259 | Insert-or-nothing: an empty key never conflicts, a written row is what its key then finds, and after anything but an id clash a non-empty key finds a row |
| Evidence.EvidenceStore.ConsumeNonce | crates/ackplane-server/src/evidence_store.rs:193-208 | True exactly for the first use of a key and nonce |
| Evidence.FindMeaning | crates/ackplane-server/src/evidence_store.rs:291-313 | The keyed lookup finds a row exactly when one exists |
| Evidence.SourceRefFixesKind | crates/ackplane-server/src/evidence_store.rs:423-439 | No source reference is valid for two evidence kinds |
| SigningBytes.DecodeInverts | crates/ackplane-protocol/src/signing_bytes.rs:13-27 | A decoder inverts the length-delimited encoding of any message shape with fields and lists under 2^32, whatever follows |
| SigningBytes.DecodeCanonical | crates/ackplane-protocol/src/signing_bytes.rs:13-27 | And accepts nothing but encoder output |
| SigningBytes.SameShapeSameParts | crates/ackplane-protocol/src/signing_bytes.rs:13-27 | Equal bytes of equal shape are equal messages followed by equal rests |
| SigningBytes.PairsAreSafeExactlyBelow | crates/ackplane-protocol/src/signing_bytes.rs:13-16 | A length limit tells all pairs of fields apart exactly when it is below 2^32 |
| SigningBytes.LengthWrapCollides | crates/ackplane-protocol/src/signing_bytes.rs:13-16 | At 2^32 bytes the prefix wraps and two different field pairs share an encoding |
| SigningBytes.Buffer.PushField | crates/ackplane-protocol/src/signing_bytes.rs:13-16 | Appends one length-prefixed field |
| SigningBytes.Buffer.PushList | crates/ackplane-protocol/src/signing_bytes.rs:22-27 | Appends a count and each item, in a loop |
| SigningBytes.Buffer.PushI32List | crates/ackplane-protocol/src/evidence_auth.rs:131-137 | Appends a saturating count as a field and each code as a field |
| SigningBytes.Buffer.PushCounted8 | crates/ackplane-protocol/src/knowledge_auth.rs:79-83 | Appends an 8-byte count as a field and each id |
| SigningBytes.Buffer.PushFields | crates/ackplane-protocol/src/claim_auth.rs:121-136 | Appends the identity fields in a loop |
| SignedRequests.DecodeClaimInverts | crates/ackplane-protocol/src/claim_auth.rs:57-139 | The claim decoder recovers request and authentication from the signed bytes |
| SignedRequests.DecodeClaimCanonical | crates/ackplane-protocol/src/claim_auth.rs:57-139 | Whatever it accepts is exactly what the encoder would produce for its result |
| SignedRequests.ClaimBytesInjective | crates/ackplane-protocol/src/claim_auth.rs:113-139 | Equal signed bytes mean the same tenant, repository, task, owner, operation, fields and authentication |
| SignedRequests.ClaimSigningBytes | crates/ackplane-protocol/src/claim_auth.rs:113-139 | The builder's appends produce the specified bytes |
| SignedRequests.DomainsAreDisjoint | crates/ackplane-protocol/src/claim_auth.rs:12-12 | No byte string belongs to two of the thirteen signing domains, whatever follows the prefix |
| SignedOperations.EvidenceBytesIdentify | crates/ackplane-protocol/src/evidence_auth.rs:62-164 | Equal evidence bytes exactly when the requests agree up to absent-or-empty optional texts |
| SignedOperations.EvidenceSigningBytes | crates/ackplane-protocol/src/evidence_auth.rs:139-164 | The builder's appends produce the specified bytes |
| SignedOperations.KnowledgeBytesIdentify | crates/ackplane-protocol/src/knowledge_auth.rs:66-141 | The same for knowledge requests, the half-life as its bit pattern |
| SignedOperations.KnowledgeSigningBytes | crates/ackplane-protocol/src/knowledge_auth.rs:119-141 | The builder's appends produce the specified bytes |
| SignedOperations.PurgeBytesInjective | crates/ackplane-protocol/src/purge_confirmation_auth.rs:24-88 | Equal lifecycle-purge bytes mean equal requests |
| SignedOperations.LifecyclePurgeSigningBytes | crates/ackplane-protocol/src/purge_confirmation_auth.rs:68-88 | The builder's appends produce the specified bytes |
| SignedOperations.RecoveryBytesInjective | crates/ackplane-protocol/src/purge_confirmation_auth.rs:104-174 | Equal recovery-execution bytes mean equal requests |
| SignedOperations.RecoveryExecutionSigningBytes | crates/ackplane-protocol/src/purge_confirmation_auth.rs:154-174 | The builder's appends produce the specified bytes |
| SignedOperations.SignedBytesIdentify | crates/ackplane-protocol/src/purge_confirmation_auth.rs:15-20 | Across all five builders: equal bytes exactly when domain, operation (up to absent-or-empty texts) and authentication agree |
| Signatures.OneAuthenticationOneRequest | crates/ackplane-server/src/claim_signature.rs:102-162 | With an ideal signature, an authentication accepted for one request and, after any registry history, for another means the same operation in the same domain; for claims the very same request |
| Signatures.AcceptedOverHistoryExactlyWhen | crates/ackplane-server/src/claim_signature.rs:129-162 | After any registry history a request is accepted exactly when it is identified, signed and within 300 seconds either way, the key's first registration binds it to this tenant, repository and node and is in force, its first later revocation and last later retirement lie ahead, and the signature verifies |
| Signatures.RegistryIsItsHistory | crates/ackplane-server/src/signing_keys.rs:64-221 | The registry holds of a key exactly its first registration, the last retirement since and the first revocation since |
| Signatures.AcceptancesAreClose | crates/ackplane-server/src/claim_signature.rs:169-178 | Two acceptances of one authentication are at most ten minutes apart |
| Signatures.KeysAreImmutable | crates/ackplane-server/src/signing_keys.rs:64-88 | A registered key keeps its identity, binding, bytes and first revocation through any registry history |
| Signatures.RevocationIsPermanent | crates/ackplane-server/src/signing_keys.rs:202-220 | No later step resurrects a key past its first revocation |
| Signatures.AcceptanceIsNotRevokedLater | crates/ackplane-server/src/signing_keys.rs:234-277 | Steps dated after an acceptance never disown it |
| ConstitutionPublishing.ActiveIsAPublication | crates/ackplane-server/src/constitution_service.rs:174-229 | At every step of every interleaving of publishers the active clauses and status are those of the immutable publication under the active version id |
| ConstitutionPublishing.EveryInterleavingKeeps | crates/ackplane-server/src/constitution_service.rs:39-97 | The invariant behind it, with failed statements and lost acknowledgements |
| ConstitutionPublishing.PublicationsAreImmutable | crates/ackplane-server/src/constitution_store/publication_history.rs:110-187 | What is recorded under a version id never changes |
| ConstitutionPublishing.RepublishIsRefused | crates/ackplane-server/src/constitution_service.rs:195-214 | Once a version is on record, a call with other content under it is, through every later run, never published and never successful, is refused as a violation at its lookup, and no step of it moves the active rows |
| ConstitutionPublishing.OnlyRecordedContentPublishes | crates/ackplane-server/src/constitution_service.rs:200-225 | The active rows move only for a call whose own content is on record |
| ConstitutionPublishing.NonceAuthenticatesOnce | crates/ackplane-server/src/constitution_service.rs:80-97 | Each key and nonce authenticates at most one call |
| ConstitutionPublishing.ReadIsFaithfulExactlyWhen | crates/ackplane-server/src/constitution_store/mod.rs:257-303 | Over any run, whatever commits between its two statements, a reading agrees with the publication it names exactly when the publications active at the two statements carry the same clauses |
| ConstitutionPublishing.ReadAcrossPublish | crates/ackplane-server/src/constitution_store/mod.rs:257-303 | In particular a reading straddling one publish is faithful exactly when both publications carry the same clauses |
| ConstitutionPublishing.ReadCanTear | crates/ackplane-server/src/constitution_store/mod.rs:257-303 | A reachable run whose reading pairs the old version id with the new clauses |
| Constitution.ConstitutionStore.Publish | crates/ackplane-server/src/constitution_store/mod.rs:192-255 | Replaces the snapshot and all clause rows, or nothing when an id repeats |
| Constitution.ConstitutionStore.InsertClauses | crates/ackplane-server/src/constitution_store/mod.rs:228-251 | The insert loop succeeds exactly on distinct ids, with one row per clause |
| Constitution.RowsMeaning | crates/ackplane-server/src/constitution_store/mod.rs:228-251 | The clause rows are exactly the clauses, found by id |
| ContextPacketStore.StoredPacketReadsBack | crates/ackplane-server/src/context_packet_store.rs:82-194 | After any run a stored packet reads back as what was first stored, never as corrupt |
| ContextPacketStore.PacketsAreImmutable | crates/ackplane-server/src/context_packet_store.rs:82-143 | Stored rows never change |
| ContextPacketStore.ReadsNeverFail | crates/ackplane-server/src/context_packet_store.rs:146-194 | No integrity error is reachable when reading |
| ContextPacketStore.ReceiptHistory | crates/ackplane-server/src/context_packet_store.rs:201-308 | The listing succeeds and is the accepted reports in first-report order, duplicate-free, exactly those reported, each with the stored packet's own scope |
| ContextPacketStore.HistoryIsFirstReports | crates/ackplane-server/src/context_packet_store.rs:238-258 | The same from any consistent store: existing receipts, then new reports once each |
| ContextPacketStore.ReceiptReadsBack | crates/ackplane-server/src/context_packet_store.rs:264-308 | An accepted report decodes to itself |
| ContextPacketStore.StatusRoundTrip | crates/ackplane-server/src/context_packet_store.rs:311-332 | Status texts and their parser are inverse in both directions |
| ContextPacketStore.ReasonRoundTrip | crates/ackplane-server/src/context_packet_store.rs:334-353 | Reason texts and their parser are inverse in both directions |
| ContextPacketStore.ContextPacketStore.Store | crates/ackplane-server/src/context_packet_store.rs:82-143 | After a success the key holds this very packet, no stored row ever changes, and a failure changes nothing; identical again succeeds, different content is a violation, a lost race a database error |
| ContextPacketStore.ContextPacketStore.Record | crates/ackplane-server/src/context_packet_store.rs:201-258 | After a success the receipt is on record for a known packet, once; packets never change and a failure changes nothing |
| ContextPacketStore.ContextPacketStore.List | crates/ackplane-server/src/context_packet_store.rs:264-308 | The listing loop over joined rows, stopping at the first unreadable one |
| BridgeSalt.EveryoneAgrees | crates/ackplane-bridge/src/lib.rs:126-164 | In every interleaving of concurrent first starts all processes that succeed, early or late, obtain the same non-empty salt, which is the file's content from then on |
| BridgeSalt.ExistingFileIsKept | crates/ackplane-bridge/src/lib.rs:126-175 | A file that was there is never replaced; if it is empty nobody succeeds |
| BridgeSalt.OnePublisher | crates/ackplane-bridge/src/lib.rs:151-163 | A new file is 32 bytes published by exactly one process |
| BridgeSalt.SaltFile.LoadOrGenerate | crates/ackplane-bridge/src/lib.rs:126-164 | One process, beaten to it or not: the file ends with the first published salt and the result is its reading |
| BridgeSalt.ThreeStepsSettle | crates/ackplane-bridge/src/lib.rs:126-164 | Without faults three steps settle a process, successfully unless the file is empty |
| BridgeCursors.ContextCursorRoundTrip | crates/ackplane-bridge/src/context_api.rs:215-243 | For every i64 a printed cursor parses back exactly when its id has 1 to 256 bytes, colons included; otherwise it is refused |
| BridgeCursors.ContextReencodingIsStable | crates/ackplane-bridge/src/context_api.rs:215-243 | Any accepted text, pluses and leading zeros included, re-encodes to a text naming the same cursor |
| BridgeCursors.EvidenceCursorRoundTrip | crates/ackplane-bridge/src/evidence_api.rs:350-390 | For every representable post-epoch instant a printed cursor parses back exactly when its id is admissible; before the epoch printing is refused |
| BridgeCursors.EvidenceReencodingIsStable | crates/ackplane-bridge/src/evidence_api.rs:365-390 | Re-encoding an accepted evidence cursor preserves its meaning |
| BridgeCursors.MicrosRoundTrip | crates/ackplane-bridge/src/knowledge_api.rs:368-384 | Microseconds to an instant and back is the identity for every representable i64 except the minimum, which is refused on the way back |
| BridgeCursors.MicrosTruncateTowardEpoch | crates/ackplane-bridge/src/knowledge_api.rs:368-384 | An instant to microseconds and back moves less than a microsecond, toward the epoch |
| BridgeCursors.RevalidationCursorReturns | crates/ackplane-bridge/src/knowledge_api.rs:338-365 | A revalidation cursor handed out and back names the same id at the same microsecond |
| BridgeCursors.DigitsValue | crates/ackplane-bridge/src/context_api.rs:236-243 | Printed decimals evaluate to their number |

## Left out

- SQL text, connection pools, migrations and row decoding: tables are maps and sequences; primary keys and unique indexes are modelled as the migrations declare them, the remaining CHECK constraints are implied by validation and are not repeated.
- Ed25519, SHA-256, serde serialization and random number generation themselves: ideal or environment-chosen, as described above.
- RFC 3339 text parsing, gRPC, axum, HTML, server-sent events, TLS, keyring and the MCP loop: input and output plumbing.
- Live feed, keyset page queries, telemetry, projections, work, enrollment, directives and the conformance records: not part of this model. Of the telemetry, projection-embedding, constitution, connection, enrollment, key-rotation and envelope signatures only the domain prefixes are modelled.
- Event schema versions, receipt ids, public-key fingerprints and error texts: constants or labels that no decision reads.
- Cancellation of an exchange by its caller and direct use of the raw send and receive methods of a NodeSync connection; decoding and checking the packet inside `request_context_packet` and the packet id inside `report_context_use`.
- The ancestor-directory check before a salt is generated and the temporary file it is written to: both touch nothing shared and appear as steps that may fail.
- The columns that `store_packet` narrows from u32 to i32 and from u64 to i64 for the summary listing: no operation modelled here reads them.
- Packet validation is modelled as functions over the packet, not as loops over mutable sets.
- EvidenceRecording.EveryInterleavingKeeps: signature verification is an accept-or-refuse choice of the environment here; what acceptance means is `Signatures.AcceptedExactlyWhen`.
- BridgeSalt.ThreeStepsSettle: for three consecutive steps of one process; nothing is claimed about scheduling fairness.
