# Bridge validator: the event pipeline, modelled and verified

The validator watches two bridges (AMB and xDai) on two chains (Ethereum and Gnosis). Four indexers store bridge
events as rows of `event_logs`; two message processors claim rows and turn them into messages; a channel of 32
carries the messages to one on-chain sender, which submits affirmations and signatures, executes them on the foreign
chain when configured to, and deletes, advances or releases the row; an FCR checker re-examines rows that were
indexed from `safe` blocks once those blocks are final. All of them run at once over one database.

The project models this as one transition system and proves what holds in every run of it.

## How the model is built

- `Pipeline` is the whole system. A state holds the table, the audit table, both processors, the channel, the sender,
  the stranded claims, an abstract home contract, our transactions, the four indexers, the checker and the finalized
  heights. An action is one await of one task, and carries what the outside answered: RPC results, database
  failures, a provider's logs, other validators' transactions, mining, finalization, the shutdown signal. A run is any
  sequence of enabled actions, so every interleaving and every failure is covered. The claim transaction is three steps
  (row lock, update, commit), so both processors can be inside it.
- `Relay.Next` is `process_message` as a program over its awaits, with all four message kinds, both stages and every
  error path. `SenderProgram` has the same code as methods with early returns, proved to perform exactly
  those steps, and `SenderRuns` proves that handling a message is a run of `Pipeline`. `ProcessorProgram` does the same for the message processor: its methods are proved to perform a run of
  `Pipeline`, so what is proved of all runs holds for them.
- `Revalidation`, `SafeBlocks` and `Indexing` hold the loops of the checker, the providers' answers and the chunked
  indexer in their own shape, proved against row-by-row, first-answer and per-chunk definitions. The steps of
  `Pipeline` use the same functions (`VerdictFor`, `TableWith`, `StoreOne`, `ChunkEnd`, `UpperBound`), and
  `IndexerProgram` and `CheckerProgram` prove that a cycle of these loops is a run of the system.
- `XdaiCodec` is the byte-level xDai message: big-endian, hex and slicing.
- `Ownership`, `Relaying`, `Accounting`, `Draining`, `Auditing`, `Coverage` and `Storage` hold the inductive
  invariants, `Stopping` the measure of what is left after the signal, `Handling` what one handling of a message achieves, `Provenance`
  where rows come from; `Guarantees` states what they mean for a run.
  `Counterexamples` has two runs that show why conditions are needed.

A table is a sequence of slots indexed by row id; a deleted row leaves its slot behind, marked dead, so that a
property of a run can speak about rows that are gone. `claims` counts committed claims.

### Assumptions

- A mined transaction of this validator on the home bridge reverts only because it is a duplicate or the message
  already has its required count. Receipts are not checked for status by the code, so without this a deletion proves
  nothing. The required counts do not change during a run, and signer sets only grow.
- A failed `send()` may or may not have reached the mempool. A receipt exists only for a mined transaction. View
  calls return what the contract holds at that moment.
- Finalized blocks never change. Finality sources report finalized heights, and a hash or log lookup at a finalized
  number is right or fails. Lookups above that are unconstrained.
- No transaction is included on both chains. A transaction that is replayable on both has one hash, and the UNIQUE
  constraint on transaction hash and log index has no chain in it, so its logs would collide.
- After the shutdown signal an indexer, or the checker, begins at most one more round: its timer and the signal may be
  ready at once, but at the next `select!` only the signal is.
- One run of one process: the table starts empty, the configuration is fixed once the preflight is done, and the
  four bridge addresses differ (`Indexing.FourModes` says that this is exactly what gives the four indexers four modes).
- A failed database statement, or a failed commit, is not applied. The audit transaction of the checker is one step.
  Row ids are given only to rows that are inserted.
- Keccak is represented by the bytes that are hashed, which amounts to injectivity.
- The retry ceiling and the chunk size are at least 1, as `positive_u64_from_env` guarantees.

## Model

| member | source | states |
|---|---|---|
| Guarantees.ExclusiveOwnership | bridge_validator/src/service/msg_processor.rs:328-379 | In every reachable state no row is in two places among the processors' hands, the channel and the sender, and a held row is live, marked claimed and not stranded |
| Guarantees.ConservationOfClaims | bridge_validator/src/service/on_chain_sender.rs:36-77 | A row is claimed if and only if exactly one of "held in one place" and "stranded" is true; a row under an uncommitted claim is unclaimed and held by nobody |
| Guarantees.StrandingExits | bridge_validator/src/service/msg_processor.rs:87-89 | A step strands a row only if the processor cannot decode or sign it, or if the release after an escaped sender error fails; the closed-channel, unknown-mode and foreign-flag exits are never taken |
| Guarantees.StrandedStays | bridge_validator/src/service/on_chain_sender.rs:58-75 | A stranded row stays stranded, live and claimed whatever happens next |
| Guarantees.SnapshotFreshness | bridge_validator/src/service/msg_processor.rs:170-175 | A message in a hand or in the channel carries the event of its row, field by field, and the stage the row still has, and so it is when the sender starts on it |
| Guarantees.SubmitOnlyFromHome | bridge_validator/src/service/on_chain_sender.rs:228-300 | A home transaction is only ever sent for a row at stage home, and it and every foreign execution go out under the key spelled from that row's own event |
| Guarantees.SubmissionWasNeeded | bridge_validator/src/service/on_chain_sender.rs:123-163 | A home transaction is sent once per handling, and only after the contract has shown, since the message was received, that we had not signed and that signatures were missing |
| Guarantees.OurSignatureIsOurs | bridge_validator/src/service/on_chain_sender.rs:159-163 | The contract has us among the signers of a key only if it had from the start or a transaction of ours for that key was mined |
| Guarantees.SuccessfulHandling | bridge_validator/src/service/on_chain_sender.rs:79-734 | If no await of a handling fails, whatever the other tasks and validators do, the row is deleted; if it was at stage home and its event was not recorded anyway, its affirmation or signature has been sent and the receipt seen; if it is to be executed on the foreign chain and the helper's blob was whole, the execution has been sent |
| Guarantees.DeletedOnlyAfterSuccess | bridge_validator/src/service/on_chain_sender.rs:164-189 | A row is deleted only at the end of a handling in which nothing failed |
| Guarantees.ReleasedOnlyAfterFailure | bridge_validator/src/service/on_chain_sender.rs:44-77 | A row gets another retry, or loses its claim and stays, only after an await of its handling has failed |
| Handling.CanSucceed | bridge_validator/src/service/on_chain_sender.rs:38-51 | Whenever a message waits for the sender, its handling can go through to the end without a failure |
| Guarantees.ExecuteOnlyAfterSubmission | bridge_validator/src/service/on_chain_sender.rs:262-356 | A foreign execution presupposes that we were shown the receipt of a home submission of ours for the same message, and a blob of 1 + 65 * required bytes |
| Guarantees.JustifiedDeletion | bridge_validator/src/service/on_chain_sender.rs:123-189 | For every row that was deleted or is at stage foreign, the contract has, under the key spelled from the row's mode and log, our signature or affirmation, or the number of them its bridge requires |
| Guarantees.DeletionStep | bridge_validator/src/service/on_chain_sender.rs:822-835 | Only the sender's delete makes a row disappear, it is the row whose event the message carries, and that event is recorded at that moment |
| Guarantees.RowsEvolve | bridge_validator/src/service/on_chain_sender.rs:776-819 | Along any continuation of a run rows keep their origin, stage foreign and verdicts are never taken back, retries never fall, and a deleted row never changes |
| Guarantees.RetryAccounting | bridge_validator/src/service/msg_processor.rs:335-357 | Claims made are retries plus the open claim; they exceed neither the configured maximum nor what the i32 column holds |
| Guarantees.ClaimNeedsReleases | bridge_validator/src/service/msg_processor.rs:339-370 | A claim commits only on a live, unclaimed row each of whose earlier claims was released, with fewer retries than configured |
| Guarantees.WorkIsBounded | bridge_validator/src/service/on_chain_sender.rs:36-77 | In any run the steps that move a row along number at most 18 * maximum * rows, with the configured maximum and with that of an i32 |
| Guarantees.RolledBackClaimChangesNothing | bridge_validator/src/service/msg_processor.rs:347-376 | A claim whose update fails leads back to the very same state, so only work, not all steps, can be bounded |
| Guarantees.QuietMeansParked | bridge_validator/src/service/msg_processor.rs:345-357 | When a processor is looking and nothing but looking is possible, each remaining row is stranded or has exactly the configured number of retries, or that of an i32 if it is less |
| Guarantees.PipelineProgress | bridge_validator/src/main.rs:128-162 | The channel never exceeds 32, a send never fails, and until both processors and the sender have stopped one of them can step |
| Guarantees.NoDeadlock | bridge_validator/src/main.rs:153-162 | An indexer that has not ended can always step; the checker can, or else waits for a row lock whose holder can; until all eight tasks have stopped one of them can step |
| Guarantees.ShutdownTerminates | bridge_validator/src/service/msg_processor.rs:65-112 | After the shutdown signal at most 537 steps of the processors and the sender remain in any continuation |
| Guarantees.ShutdownBudget | bridge_validator/src/service/event_indexer.rs:95-105 | After the signal the eight tasks together take at most the steps they had left, one more round of each loop included, plus those for the bounds, logs and blocks they are still handed |
| Guarantees.EverythingStops | bridge_validator/src/main.rs:153-164 | However long a run goes on after the signal, the eight tasks take finitely many steps, and if one steps whenever one can, all eight end up stopped |
| Guarantees.CleanStop | bridge_validator/src/service/on_chain_sender.rs:36-38 | What was handled is a prefix of what was sent; once the sender exits they are equal, the channel is empty and the claimed rows are exactly the stranded ones |
| Guarantees.VerdictSoundness | bridge_validator/src/service/fcr_checker.rs:138-208 | A row with a verdict is hashed and numbered at or below the finalized block, and is confirmed if and only if its hash is, letter by letter and the case of A to Z aside, the finalized one at its number; lower-case hashes are confirmed if and only if they are equal |
| Guarantees.AuditExactness | bridge_validator/src/service/fcr_checker.rs:328-415 | The audit table has exactly one row per reverted row, also after its deletion, with that row's chain, number, hash, transaction and log index, and with the finalized hash in lower case |
| Guarantees.FinalityByStatus | bridge_validator/src/service/event_indexer.rs:282-302 | A row has NULL status exactly when its chain is in block-finality mode, and then its number is finalized and its hash is the finalized hash there |
| Guarantees.IndexerCoverage | bridge_validator/src/service/event_indexer.rs:57-94 | Whatever the bounds and failures, the chunks that landed are consecutive, start with the single block s0 that was the bound of the first cycle to land one, end at the cursor between cycles, are at most the limit long, and never pass the highest bound seen, mid-cycle included |
| Guarantees.CoveredOnce | bridge_validator/src/service/event_indexer.rs:143-211 | Each block from the first to the last chunk lies in exactly one of them |
| Guarantees.CursorNeverMovesBack | bridge_validator/src/service/event_indexer.rs:176-211 | No step lowers the cursor or takes a chunk back; the first chunk of all is exactly its cycle's bound; a first chunk that fails, at the request or at a log that cannot be serialized, leaves the cursor, a later one puts it at the last block before that chunk |
| Guarantees.RowsAreGiven | bridge_validator/src/service/event_indexer.rs:217-304 | In either mode every row has the block number and hash, transaction, log index and data of a log with a topic that some provider gave its own indexer |
| Guarantees.StoredAtMostOnce | bridge_validator/src/service/event_indexer.rs:217-318 | In block-finality mode, as long as the indexer gave up no chunk over a serialization failure, no two slots of the whole history have the same key, however many INSERTs failed, so a deleted row does not come back |
| Guarantees.StoredUnlessFailed | bridge_validator/src/service/event_indexer.rs:300-316 | In block-finality mode every covered eligible log has a slot unless an INSERT of it failed, whatever was given up and read again |
| Guarantees.StoredIffNotFailed | bridge_validator/src/service/event_indexer.rs:300-316 | If no chunk was given up, a covered eligible log has a slot if and only if no INSERT of it failed |
| Guarantees.InsertedOnce | bridge_validator/src/service/event_indexer.rs:217-318 | Both together: if no chunk was given up, a covered eligible log none of whose INSERTs failed has exactly one slot in the history of the table |
| Guarantees.StepStoresAgain | bridge_validator/src/service/event_indexer.rs:282-304 | In any mode and at any step, a key comes to have two slots exactly when its INSERT goes through while there are rows with it and all of them have been deleted |
| Guarantees.StoredTwiceIff | bridge_validator/src/service/event_indexer.rs:282-304 | Over any run, in any mode, a key has two slots in the history if and only if some INSERT of it found only deleted rows |
| Guarantees.CoveredLogIsSettled | bridge_validator/src/service/event_indexer.rs:217-318 | End to end: on a block-finality chain, when nothing but looking is possible, every covered eligible log without a failed INSERT has a row that was deleted with its message recorded at home, or is parked at the ceiling, or is stranded |
| Counterexamples.DeletedRowCanComeBack | bridge_validator/src/service/event_indexer.rs:255-318 | A run in which one serialization failure makes the chunk be read again and a row the sender has deleted comes back under a new id |
| Counterexamples.FailedInsertLosesLog | bridge_validator/src/service/event_indexer.rs:305-306 | A run in which one INSERT fails and the cursor passes an eligible log that no row was ever made of |
| Guarantees.LiveKeysUnique | bridge_validator/migrations/003_add_log_index.sql:14-15 | In every mode two live rows never share a non-null transaction hash and log index |
| Ownership.StepKeepsOwned | bridge_validator/src/service/msg_processor.rs:345-373 | Every step of every task keeps one place per claimed row, and uncommitted claims on distinct claimable rows |
| Relaying.StepKeepsRelayed | bridge_validator/src/service/on_chain_sender.rs:79-734 | Every step keeps the assertion of each await of the sender's program, the freshness of messages and the justification of rows |
| Relaying.NextIsAnnotated | bridge_validator/src/service/on_chain_sender.rs:79-734 | From any await of the four branches, any reply leads to an await whose assertion holds |
| Accounting.StepKeepsSound | bridge_validator/src/service/on_chain_sender.rs:36-77 | Every step keeps ownership, relaying, retry accounts, queue order and the list of stranding exits together |
| Draining.StepDrains | bridge_validator/src/service/msg_processor.rs:66-69 | After the signal each pipeline step lowers a measure and no other step changes it |
| Stopping.StepStops | bridge_validator/src/service/event_indexer.rs:95-105 | After the signal each step of the eight tasks uses up rounds, requests or smaller steps, in that order, and no other step gives any back |
| Auditing.StepKeepsAudited | bridge_validator/src/service/fcr_checker.rs:138-172 | Every step keeps the verdicts right and the audit table equal to the reverted rows |
| Auditing.LookupIsRight | bridge_validator/src/service/fcr_checker.rs:180-208 | From honest providers, whatever their failures and letter case, the verdict drawn agrees with the finalized hash |
| Pipeline.FcrNetsMeaning | bridge_validator/src/config/mod.rs:186-195 | The checker's pass goes through each fcr chain once and through no other |
| Storage.StepKeepsIndexed | bridge_validator/src/service/event_indexer.rs:217-318 | Every step keeps the cursor's chunks and bounds, the source of every row, unique live keys, and the account of stored keys: each log gone through is stored or had a failed INSERT, and without a given-up chunk exactly one of the two, once |
| Storage.ConflictIsOurs | bridge_validator/src/service/event_indexer.rs:282-304 | Only a row of the same bridge can collide with one of its finalized logs |
| Coverage.FinalLogsDistinct | bridge_validator/migrations/003_add_log_index.sql:8-9 | No two logs of a finalized range share a transaction hash and log index |
| EventLogs.ClaimQuery | bridge_validator/src/service/msg_processor.rs:345-357 | The claim query returns an unlocked claimable row that none precedes, and None only if there is none |
| Relay.ClaimMeaning | bridge_validator/src/service/msg_processor.rs:335-357 | Claimable means live, unclaimed and below both the configured maximum and that of an i32; the row chosen has the smallest block, then the smallest log index, NULL blocks last |
| Relay.BuiltXdaiMessageParses | bridge_validator/src/service/msg_processor.rs:195-240 | Every XDAI_GC message a processor builds parses in the sender to the event's fields and the configured bridge |
| Relay.BuildCallCarries | bridge_validator/src/service/msg_processor.rs:121-249 | Decoding succeeds for exactly the rows whose event is of their mode's kind, and gives exactly the call with the event's own data: the AMB bytes, the three xDai fields, or the 124 bytes with the five fields in their places |
| Relay.KeyOfSpells | bridge_validator/src/service/on_chain_sender.rs:431-438 | The key the sender asks the contract about is that of the row's bridge and bytes: the AMB message, recipient, big-endian value and nonce, or the 124 bytes; no other key is |
| Relay.AcceptGrows | bridge_validator/src/service/on_chain_sender.rs:123-157 | Mined transactions never undo what the pre-flight reads saw, and ours establishes it |
| Relay.KeysTellMessagesApart | bridge_validator/src/service/on_chain_sender.rs:113-121 | Two messages share a record in the contract only if they are the same message, so a record is about the row it is read for |
| Relay.RankDecreases | bridge_validator/src/service/on_chain_sender.rs:79-734 | Whatever the replies, a message is through after at most 14 awaits |
| SenderProgram.OnChainSender.Start | bridge_validator/src/service/on_chain_sender.rs:36-78 | The receive loop leaves the table and issues the awaits of the stepwise program, message by message, releasing a row after an escaped error |
| SenderRuns.HandlingIsARun | bridge_validator/src/service/on_chain_sender.rs:38-77 | With replies the contract and the mempool can give, receiving and handling a message is a run of the sender's steps in the whole system, and it leaves the table of the stepwise program |
| SenderProgram.OnChainSender.ProcessAffirmation | bridge_validator/src/service/on_chain_sender.rs:86-191 | The two affirmation branches perform exactly the steps of the program up to Ok or the escaping error |
| SenderProgram.OnChainSender.ProcessSignature | bridge_validator/src/service/on_chain_sender.rs:193-402 | The two signature branches perform exactly the steps of the program from either stage |
| SenderProgram.OnChainSender.SubmitSignature | bridge_validator/src/service/on_chain_sender.rs:262-308 | submitSignature, its receipt and the stage update lead where the program leads, with the table it has there |
| SenderProgram.OnChainSender.ExecuteOnForeign | bridge_validator/src/service/on_chain_sender.rs:637-732 | The foreign stage of both signature branches performs the steps of the program |
| SenderProgram.OnChainSender.DeleteEventLog | bridge_validator/src/service/on_chain_sender.rs:822-835 | The row is deleted, or the error escapes with the table unchanged |
| SenderProgram.OnChainSender.IncrementRetryCount | bridge_validator/src/service/on_chain_sender.rs:802-819 | The row is released with one more retry, or the error escapes with the table unchanged |
| ProcessorProgram.MessageProcessor.ReadFromDb | bridge_validator/src/service/msg_processor.rs:328-379 | The first unlocked row in block and log order that is unclaimed and below both retry limits is claimed and returned as it was, None only if there is no such row, and otherwise nothing changes; the steps form a run of the system |
| ProcessorProgram.MessageProcessor.ProcessMessageOrSkip | bridge_validator/src/service/msg_processor.rs:115-256 | A row whose event is of its mode's kind, with a key where one is needed, ends as one message carrying that event at the end of the channel, or waits with it when the channel is full; every failure leaves the channel alone and the row stranded, with an unknown mode reported as success |
| ProcessorProgram.MessageProcessor.SendToChannel | bridge_validator/src/service/msg_processor.rs:124-140 | The message goes to the end of the channel, or without a receiver the row is stranded |
| ProcessorProgram.MessageProcessor.Route | bridge_validator/src/service/msg_processor.rs:119-253 | The match on the bridge mode yields the message carrying the row's own event, nothing for an unknown mode, and an error exactly when the event is of another kind or the signing key is missing |
| ProcessorProgram.MessageProcessor.Start | bridge_validator/src/service/msg_processor.rs:62-113 | The loop performs a run of the system made of its own steps and the signal, only appends to the channel, begins each turn by polling the signal and, without one, with the claim query, and ends in a stop whenever a turn finds the signal raised |
| ProcessorProgram.MessageProcessor.Turn | bridge_validator/src/service/msg_processor.rs:65-112 | A raised signal makes the turn a single poll and stops the task; without one the turn polls and looks for a row; the next turn begins only if no signal has been seen |
| Revalidation.FcrChecker.CheckChain | bridge_validator/src/service/fcr_checker.rs:109-176 | A cycle adjudicates the rows of the first blocks of the listing and nothing else, all of them on Ok, and adds exactly the audit rows of the rows it reverted; after Ok a hashed, numbered row of the chain at or below the finalized block is pending only if no provider had a hash for its number |
| Revalidation.FcrChecker.RecordFalsePositive | bridge_validator/src/service/fcr_checker.rs:328-415 | On success each pending row of the block becomes reverted, no other row changes, and one audit row per row is added; on any failure neither table changes |
| Revalidation.MarksIsBulkUpdate | bridge_validator/src/service/fcr_checker.rs:304-318 | That slot-by-slot effect determines the table: nothing but the bulk UPDATE has it |
| Revalidation.FcrChecker.MarkConfirmed | bridge_validator/src/service/fcr_checker.rs:299-321 | Each pending row of that chain, number and hash becomes confirmed and is otherwise unchanged, every other row is as it was, no pending row of the block is left, and the count returned is the number of them; on failure nothing changes |
| Revalidation.BatchRefinesPerRow | bridge_validator/src/service/fcr_checker.rs:138-173 | Working through the distinct blocks gives each row what adjudicating it alone would |
| Revalidation.NothingElseLeft | bridge_validator/src/service/fcr_checker.rs:162-172 | Adjudicating every row leaves pending only those for whose number no provider had a hash |
| CheckerProgram.CheckChainIsARun | bridge_validator/src/service/fcr_checker.rs:109-176 | Whatever its lookups and writes do, the checker's steps in the whole system can be run to the tables `check_chain` leaves: the blocks before the first failed write adjudicated and audited, nothing else touched |
| Revalidation.OneMoreBlock | bridge_validator/src/service/fcr_checker.rs:138-150 | One bulk update finds exactly the untouched rows of its block |
| Revalidation.OneMoreAudit | bridge_validator/src/service/fcr_checker.rs:367-395 | Each reverted block adds one audit row per row it reverts and no row twice |
| Revalidation.PendingBlocks | bridge_validator/src/service/fcr_checker.rs:214-236 | Distinct pairs in ascending block order, exactly those of the adjudicable rows |
| SafeBlocks.ResolverMeaning | bridge_validator/src/service/safe.rs:101-153 | The resolver gives the first served block in order, None if and only if none is served but one answered empty, an error if and only if nobody serves the tag |
| SafeBlocks.GetSafeBlockNumber | bridge_validator/src/service/safe.rs:101-153 | The provider loop computes that answer |
| SafeBlocks.PreflightSafeSupport | bridge_validator/src/service/safe.rs:278-334 | The flags and the list of rejecting providers say what the answers say |
| SafeBlocks.PreflightAgreesWithResolver | bridge_validator/src/service/safe.rs:272-274 | fcr is given up if and only if the runtime resolver would fail and some provider rejected the tag |
| SafeBlocks.DowngradeFromReplies | bridge_validator/src/service/safe.rs:43-90 | In terms of replies: fcr is given up if and only if some provider sent a JSON-RPC error object (section 5 of the JSON-RPC 2.0 specification) and none sent a null or a block; transport failures, bad JSON and unreadable numbers count for neither |
| SafeBlocks.BootConfig.RunFcrPreflight | bridge_validator/src/service/safe.rs:342-394 | Each chain's mode changes exactly by its own providers' answers |
| SafeBlocks.BootConfig.SetModeForChain | bridge_validator/src/config/mod.rs:172-181 | The named chain gets the mode and the other keeps its own |
| SafeBlocks.BootConfig.FcrChains | bridge_validator/src/config/mod.rs:186-195 | Exactly the fcr chains, each once, with their providers |
| SafeBlocks.UpperBoundMeaning | bridge_validator/src/service/event_indexer.rs:335-361 | A block-finality chain is bounded by the finalized block; an fcr chain by the first safe block served, and by the finalized block exactly when none is |
| SafeBlocks.GetCanonicalBlockHash | bridge_validator/src/service/safe.rs:164-250 | The first hash in order, in lower case; None if somebody answered without one; else an error |
| SafeBlocks.CanonicalMeaning | bridge_validator/src/service/safe.rs:164-250 | The lookup gives the hash of the first provider that has one with A to Z lowered and nothing else changed, None if and only if some provider answers and none has one, an error if and only if none answers |
| SafeBlocks.EqIgnoreCaseMeaning | bridge_validator/src/service/fcr_checker.rs:201-207 | Two hashes compare as equal if and only if they have the same length and at each place the same character or the two cases of one letter |
| SafeBlocks.SameLowerCase | bridge_validator/src/service/fcr_checker.rs:201-207 | Between lower-case hashes that comparison is equality |
| SafeBlocks.CanonicalHashSource | bridge_validator/src/service/safe.rs:164-250 | A hash that is returned is one a provider gave, with A to Z lowered |
| Indexing.EventIndexer.PollEvents | bridge_validator/src/service/event_indexer.rs:126-212 | In u64 without overflow: the block ranges asked for are exactly the first chunks of the range, in order, up to the failing one, with the table they leave, the block returned, and Err only if the first chunk failed |
| Indexing.FirstChunksAt | bridge_validator/src/service/event_indexer.rs:143-160 | The k-th range of that list is the k-th chunk, and there are as many as calls |
| Indexing.EventIndexer.IndexBlockRange | bridge_validator/src/service/event_indexer.rs:217-318 | One request for exactly from..to; its logs are stored in order up to the first that cannot be serialized; a failed insert is passed over |
| Indexing.StoringOneLog | bridge_validator/src/service/event_indexer.rs:258-307 | Storing a log appends one live, unclaimed row at stage home with the log's block number and hash, transaction, index and data, pending exactly in fcr mode; it does so exactly when the log has an index and a topic, the INSERT goes through and no live row has its transaction hash and index |
| Indexing.EventIndexer.Cycle | bridge_validator/src/service/event_indexer.rs:57-94 | With exactly k good chunks before a failure the cursor becomes min(bound, start - 1 + k * range), with none it stays, and it is the bound if and only if all are good; table and requests are those of the chunks tried; without a bound above the cursor nothing happens |
| IndexerProgram.PollEventsIsARun | bridge_validator/src/service/event_indexer.rs:57-212 | For every resolved bound or none, and whatever the answers, the steps of one indexer in the whole system can be run to the table and the cursor that a cycle yields |
| Indexing.ChunkCountIsCeiling | bridge_validator/src/service/event_indexer.rs:143-160 | A full cycle makes ceil((upper - start + 1) / range) calls |
| Indexing.ProgressAfter | bridge_validator/src/service/event_indexer.rs:176-211 | After k good chunks the last indexed block is min(upper, start - 1 + k * range), and upper only with the last chunk |
| Indexing.ChunksTile | bridge_validator/src/service/event_indexer.rs:126-160 | Each block of the range is in exactly one chunk of at most the limit |
| Indexing.FourModes | bridge_validator/src/service/event_indexer.rs:381-393 | The four indexers have four modes if and only if the four bridge addresses differ |
| XdaiCodec.XdaiRoundTrip | bridge_validator/src/service/on_chain_sender.rs:744-773 | Encode, strip 0x, decode, parse: the same five fields, and the text is 250 characters |
| XdaiCodec.XdaiEncodingInjective | bridge_validator/src/service/msg_processor.rs:258-327 | Different fields never give the same text |
| XdaiCodec.XdaiReencode | bridge_validator/src/service/on_chain_sender.rs:744-773 | Parsing succeeds if and only if there are 124 bytes, and what was parsed re-encodes to the same bytes |
| XdaiCodec.CreateSpellsLayout | bridge_validator/src/service/msg_processor.rs:258-327 | No length check fails, and the text spells recipient, value, nonce, bridge and token in that order |
| XdaiCodec.XdaiFieldPositions | bridge_validator/src/service/msg_processor.rs:258-327 | The text is 0x and the digits of the one byte string that has the recipient at 0, the value big-endian at 20, the nonce at 52, the bridge at 84 and the token at 104, and it is the one that parses to these fields |
| XdaiCodec.BigEndianIs | bridge_validator/src/service/msg_processor.rs:276-280 | Byte i of an n-byte value is v / 256^(n-1-i) modulo 256, and only the encoded bytes have that property |
| XdaiCodec.HexSpells | bridge_validator/src/service/msg_processor.rs:262-300 | Each byte becomes two lower-case digits, the high one first |
| XdaiCodec.DecodeDigitsMeaning | bridge_validator/src/service/msg_processor.rs:224 | Digits of either case decode to the bytes they denote, two per byte, and nothing else decodes |

## Left out

- HTTP, JSON, SQL text, alloy providers, the transport fallback and `finality.rs` are answers that succeed or fail.
- Keccak, ECDSA and ABI decoding: a stored log either decodes into one of the four events or does not; signing either works or does not.
- The Solidity bridges beyond signers per message, a fixed threshold and reverts on duplicates and completed messages. Nothing is claimed about the foreign contract.
- That the foreign leg ever executes: the code deletes a row at stage home when an earlier submission of ours turns out to have landed, and deletes on a blob of the wrong length.
- That every reorged block gets an audit row: the sender may delete a row before the checker sees it, as TECHNICAL_WORKFLOW.md says.
- Guarantees.InsertedOnce: on block-finality chains only; on an fcr chain a reorg may bring a log back in another block, and only `Guarantees.StoredTwiceIff` and `Guarantees.LiveKeysUnique` speak about its keys.
- Guarantees.WorkIsBounded: counts the steps of a committed claim, not polling, waiting and claims that are rolled back, which can go on forever.
- ProcessorProgram.MessageProcessor.Start: for any number of turns rather than forever, and it hands back control where a message waits for room; between its calls the other tasks move, as `Pipeline` describes.
- CheckerProgram.CheckChainIsARun: for listings none of whose rows is under an uncommitted claim when the cycle begins; otherwise the write waits for the claim, as `Pipeline` and `Guarantees.NoDeadlock` say.
- SenderProgram.OnChainSender.Start: the inbox is the list of messages received until the channel closes.
- The class programs have the table to themselves while a method runs; interleaving inside a method is what `Pipeline` covers.
- The check of the deposited row's shape by the database (types, NOT NULL) and the `topic_key` and `log_data` columns.
- Rows pending without a hash and the backlog are only reported by the code.
- Process crash and restart (cursor back at zero, claims nobody owns), configuration changes between runs, and the panic of `required.to::<usize>()`.
- Environment parsing, URL splitting, logging, intervals and timing, Docker and scripts.
- FCR_INTEGRATION.md says both chains default to block-finality; `config/mod.rs` defaults Ethereum to fcr. The model takes either mode for either chain, so nothing depends on it.
