# Verified model of Determa State

Determa State is a hierarchical state-machine engine with a durable host around it. The host keeps
one *execution checkpoint* per root instance: the aggregate with its ready and deferred mailboxes,
operation receipts whose emission references change as events move on, event tombstones, an outbox
with pending, terminal and compacted effects, several allocation counters and a pruning cutoff.
This project models that protocol, the CEL fragment that guards and migrations evaluate, and the
codecs and static checks around the aggregate, and proves properties of them for all inputs, all
runs and all interleavings of hosts.

How the modules build on each other:

- `CheckpointModel`, `CheckpointValidity`: the data, what semantic validation accepts (`Valid`), and
  the inductive invariant (`Inv` is `Valid` plus `Strong`, lemma `InvIff`). `Coherent` is what remains of
  it in the middle of an operation that admits an internal delivery.
- `WireCore`, `WireCoreProofs`, `StepContract`, `StepProofs`, `RecallProofs`, `StepTheorem`,
  `StepIdentity`, `StepSources`, `AdmissionProofs`: the queue-bearing core. The dispatcher that runs a
  state machine on one event is a parameter; everything that happens to mailbox entries and counters is
  modelled and proved to conserve entries.
- `StepAnswers`, `CommitAnswers`, `AdmitAnswers`, `EvidenceProofs`, `OutboxAnswers`, `PruneAnswers`,
  `CreationAnswers`: what every operation answers. Each theorem determines the answer and the new records
  from the input, without the functions that compute them: contents, order and numbers where the operation
  succeeds, exactly when it does, and the failure that each unmet condition gives where it does not.
- `CheckpointOps`, `CheckpointLoops`, `Validation`: the operations as functions of the current
  checkpoint, the loops that compute them step by step, and semantic validation as the program runs it.
- `Transitions`, `TransitionEvents`, `TransitionRefs`, `TransitionTheorem`, `Rewriting`, `CommitProofs`,
  `RootProofs`, `StepPreservation`, `AdmitProofs`, `AdmitTheorem`, `CreateProofs`, `CreateTheorem`,
  `OutboxProofs`, `PruneProofs`, `ProcessProofs`, `IdentityProofs`: preservation of the invariant.
- `Evolution`, `Runs`, `Identities`, `Novelty`, `Retention`, `RetentionProofs`, `Host`, `Counterexamples`:
  runs, derived ids, policies, hosts, and concrete inputs on which an unvalidated result is invalid.
- `CelSyntax`, `CelEval`, `CelMeter`, `CelLaws`, `CelSoundness`, `CelCompleteness`, `CelAgreement`,
  `Inspection`: the CEL fragment and candidate inspection.
- `Sequences`, `Numerals`, `TypedValues`, `TypedText`, `Graphs`, `RuntimeTree`, `RuntimeTreeProofs`,
  `RuntimeTreeTheorem`, `Migration`, `MigrationProofs`: codecs, graph checks, the ownership tree and migration.

Conventions. Digests are symbolic: a digest is the content that the program hashes, so SHA-256 over
canonical JSON is treated as injective. Derived event and effect ids are an encoding of the hashed fields
that is proved injective. Creation, processing and every host commit validate their result and refuse an
invalid one, and so does the model; admission and step return theirs unvalidated, and a run goes on from a
result only if validation accepts it. For the remaining operations it is proved that their final
validation cannot fail (`NeverRefused`). Finite doubles are opaque magnitudes with an explicit sign of
zero; their operations are parameters.

The only premises about the dispatcher are `DispatcherOk` and `RootOk`: unique runtime names, and output
numbers taken from the output counter in order. What `Novelty` proves about ids also takes as given that
they are derived as the program derives them. The chain of committed records, the validity of everything
stored and the creation evidence (`OneChain`, `TraceValid`, `CreationForEver`) need no premise.

Three properties are false of the code as it stands and are stated as exact conditions, each with concrete
inputs: admission leaves a valid checkpoint exactly for input deliveries (`AdmitInvIff`,
`InternalDeliveryFails`); a step does exactly when the ids that it sends are new to the checkpoint and no
waiting entry loses its emitter (`StepInvIff`, `CommitValidIff`, `LostEmitterFails`). Derived ids are
always new unless a host delivered an event under an id that the engine could still derive (`RunUntaken`,
`DerivedCommits`), and then they can fail (`TakenIdFails`). Printing a parsed projection gives the text back
exactly if its numbers are written as the printer writes them (`ProjectionIff`, `NotCanonicalText`).

## Model

| member | source | states |
|---|---|---|
| `StepAnswers.StepFinishes` | src/format1/v1.rs:992-1169 | the whole answer of a step on a ready head: each runtime that the dispatcher keeps has, in this order, what was ready, the sends to it and the recalled entries; entries are recalled exactly if the event was handled and the root runs, namely those of running runtimes whose event is among the recalls, in order and under consecutive new queue numbers, and all others stay deferred in order; counters, announcements, disposals with their reasons and the reported disposition |
| `StepAnswers.NoRecall` | src/format1/v1.rs:1141-1145 | unless the event was handled, every deferred mailbox of a kept runtime is unchanged |
| `StepAnswers.StepDecides` | src/format1/v1.rs:998-1032 | a step is rejected exactly if no running runtime has that name or the root has faulted, not runnable exactly without a ready entry, and a deferral within capacity moves the head to the end of the deferred mailbox |
| `StepAnswers.RecallIs` | src/format1/v1.rs:1200-1237 | recall takes the runtimes one after the other, each from the queue number where the last one ended |
| `StepAnswers.EmitAllIs` | src/format1/v1.rs:1298-1394 | the k-th emission goes to the outbox, to the ready mailbox of its target or to the disposals, under numbers that count the sends before it |
| `StepAnswers.DisposeRemovedIs` | src/format1/v1.rs:1239-1296 | the disposals are what waits in each removed runtime, or in every runtime if the root completed, in the order of the runtimes, ready before deferred, with the reason of the removal |
| `CommitAnswers.StepCommits` | src/checkpoint/v1.rs:398-551 | a step that validation accepts puts exactly that on record: the terminal receipt bears the reported disposition, the status of the root and one reference per emission, every disposal has its own receipt with its reason, and every effect is pending and not attempted |
| `CommitAnswers.StepDefers` | src/checkpoint/v1.rs:474-598 | a deferral within capacity commits the deferred head and synchronizes references, nothing else |
| `CommitAnswers.StepReplayAnswer` | src/checkpoint/v1.rs:432-472 | a request about an ended event is answered with its receipt or tombstone if it names digest, acceptance and, for a receipt, queue number, and is a conflict otherwise |
| `CommitAnswers.StepRefusal` | src/checkpoint/v1.rs:398-430 | the failure that each unmet expectation of a step gives, in the order in which they are asked |
| `CommitAnswers.StepDeclines` | src/checkpoint/v1.rs:474-551 | a request for a runtime that does not run, or under a faulted root, is declined without a change |
| `StepTheorem.FinishConserves` | src/format1/v1.rs:992-1394 | a dispatched step conserves mailbox entries (which of them is recalled is the subject of `StepFinishes`): every entry of before is consumed, kept, requeued under a fresh number or disposed of, every new one is announced, and no acceptance or queue number is used twice |
| `StepIdentity.StepNamesIff` | src/format1/v1.rs:1298-1394 | after a step no event id occurs twice among live, disposed and consumed entries if and only if the dispatcher gave its sends fresh ids |
| `StepSources.StepSourcesIff` | src/checkpoint/v1.rs:2191-2206 | every live entry has an acceptable source after a step if and only if no entry that stays lost its emitter and every delivered send is well sourced |
| `AdmissionProofs.DeferHeadDefers` | src/format1/v1.rs:1099-1111 | a deferral keeps every entry and the order and distinctness of all numbers |
| `AdmissionProofs.DeferMovesHead` | src/format1/v1.rs:1099-1111 | exactly the ready head moves, to the end of its runtime's deferred mailbox and under the next queue number, behind every other entry |
| `AdmissionProofs.EnqueueAllAdmits` | src/format1/v1.rs:827-956 | admission adds exactly one entry per delivery with consecutive numbers and keeps the mailboxes in order |
| `WireCoreProofs.MergeConserves` | src/format1/v1.rs:1171-1188 | merging the dispatched runtimes keeps every mailbox entry, live or among the removed runtimes |
| `WireCoreProofs.DisposeConserves` | src/format1/v1.rs:1239-1296 | the disposals are exactly the entries of removed runtimes, or all entries when the aggregate completed, without the causal one |
| `RecallProofs.RecallRequeues` | src/format1/v1.rs:1200-1237 | recalling deferred entries moves entries without losing or duplicating any, under fresh queue numbers |
| `TransitionTheorem.TransitionCoherent` | src/checkpoint/v1.rs:1596-1855 | any change that ends entries in new receipts, rewrites references accordingly and announces new entries keeps everything but the sources of entries, even where an internal delivery was just admitted |
| `TransitionTheorem.TransitionInv` | src/checkpoint/v1.rs:1596-1855 | such a change preserves the whole invariant |
| `CommitProofs.CommitStepTransition` | src/checkpoint/v1.rs:474-551 | the commit of a core step is such a change: synchronized queue numbers, rewritten producers, one terminal receipt per ended entry |
| `StepPreservation.CommitValidIff` | src/checkpoint/v1.rs:474-598 | from every reachable checkpoint the commit of a step, which is not validated, is valid if and only if the dispatched ids are new and no emitter is lost; then the full invariant holds |
| `StepPreservation.StepTransition` | src/checkpoint/v1.rs:398-598 | whatever a step yields is such a change whenever validation accepts it or a checkpoint with the same entries and ended events |
| `StepPreservation.StepInvIff` | src/checkpoint/v1.rs:398-472 | the step operation, which is not validated, leaves a valid checkpoint if and only if it defers the head or the dispatch sustains the commit; then the invariant holds |
| `AdmitAnswers.AdmitIff` | src/checkpoint/v1.rs:248-379 | a batch without repeated or contradicting ids that has an unknown delivery is taken if and only if the root is retained and runs, the bundle and the guard fit, and source, target, definition and digest allow every unknown delivery; then exactly these are enqueued in order under consecutive numbers, each with its acceptance receipt, and every delivery has its member |
| `AdmitAnswers.AdmitFailure` | src/format1/v1.rs:886-921 | which failure a batch with an unknown delivery gives otherwise: tombstoned or ended root, wrong bundle, guard, then the first of source, target, definition and digest that some unknown delivery misses |
| `AdmitAnswers.AdmitRefusal` | src/checkpoint/v1.rs:255-310 | empty batches, other roots, and the first delivery that repeats an id or contradicts what is known |
| `AdmitAnswers.AdmitReplays` | src/checkpoint/v1.rs:311-319 | a batch of known events is answered from evidence and changes nothing |
| `AdmitAnswers.EnqueueAllIs` | src/format1/v1.rs:923-947 | each delivery goes to the end of the ready mailbox of its target |
| `EvidenceProofs.EvidenceProves` | src/checkpoint/v1.rs:1496-1559 | the evidence about a known event is its tombstone, else its acceptance receipt, else its terminal receipt, else where its entry waits |
| `EvidenceProofs.ProvesOnce` | src/checkpoint/v1.rs:1496-1559 | there is only one such evidence |
| `AdmitTheorem.AdmitInvIff` | src/checkpoint/v1.rs:248-379 | admission that changes the checkpoint, which is not validated, preserves the invariant if and only if all deliveries it admits are input (when it succeeds is the subject of `AdmitIff`) |
| `AdmitTheorem.RedeliveryAnswer` | src/checkpoint/v1.rs:248-310 | a known event under its digest is answered from evidence, under another digest it is a conflict |
| `AdmitTheorem.NoProblemIff` | src/checkpoint/v1.rs:248-310 | a batch passes exactly when its ids differ and none contradicts retained evidence |
| `CreateTheorem.CreateIff` | src/checkpoint/v1.rs:80-188 | creation succeeds if and only if no effect id repeats, the retention claims no pruned receipt, and the sends have different ids and are well sourced; then the invariant holds |
| `ProcessProofs.ProcessFuses` | src/checkpoint/v1.rs:641-699 | processing an unknown delivery of either mode is admitting it and stepping its target's ready head: it yields a checkpoint if and only if the step does and validation accepts it, for input exactly when the dispatch sustains the step; the result is the stepped checkpoint in one revision and satisfies the invariant |
| `ProcessProofs.CollapseValidIff` | src/checkpoint/v1.rs:875-901 | validation accepts the collapsed checkpoint exactly when it accepts the stepped one |
| `ProcessProofs.CollapseIsClip` | src/checkpoint/v1.rs:875-901 | collapsing lowers exactly the revisions above the committed one and changes nothing else |
| `CreationAnswers.CreateRecords` | src/checkpoint/v1.rs:80-188 | a creation that succeeds records exactly what the dispatcher reports: bare runtimes with the sends to them, a creation receipt with id, request, root status and references, one receipt per send without a receiver, and the pending effects |
| `CreationAnswers.CreationStored` | src/checkpoint/store.rs:585-596 | a store takes every new root, unless its receipts are permanent and those of the root are not |
| `CreationAnswers.RecreationAnswer` | src/checkpoint/host.rs:1858-1930 | whatever hosts do later, creating the root again by the same request is answered with its creation receipt, and under another id or by another request it is a conflict |
| `PruneAnswers.PruneIff` | src/checkpoint/v1.rs:994-1142 | a prune succeeds if and only if the cutoff moves forward, stays below the next receipt, and no receipt at or below it belongs to an event that has not ended there, produced a live entry or produced a pending effect; it leaves the receipts above the cutoff, one tombstone per removed terminal receipt and the effects still referenced |
| `PruneProofs.PruneInv` | src/checkpoint/v1.rs:994-1142 | a prune that passes its guards never fails its final validation |
| `PruneProofs.Kept` | src/checkpoint/v1.rs:1092-1097 | the kept receipts are the creation receipt and everything above the cutoff, in order |
| `OutboxProofs.UpdateInv` | src/checkpoint/v1.rs:1262-1293 | updating a pending effect never fails its final validation |
| `OutboxAnswers.UpdateAnswer` | src/checkpoint/v1.rs:1262-1293 | exactly the pending effect takes the requested delivery state and the new revision; the state that it has already changes nothing |
| `OutboxAnswers.TerminalizeAnswer` | src/checkpoint/v1.rs:1295-1353 | terminalizing a pending effect under a guard that holds records its intent, the requested outcome, the next terminal number and the new revision, takes it out of the pending ones and changes nothing else; repeating the call answers that checkpoint, and another outcome is a conflict |
| `OutboxAnswers.TerminalizeRefusal` | src/checkpoint/v1.rs:1325-1333 | an effect that is in no stage, or a guard that does not hold, is refused |
| `OutboxAnswers.CompactAnswer` | src/checkpoint/v1.rs:1355-1403 | a terminal record is replaced by a tombstone with its number, intent digest, revision and outcome, in the order of terminal numbers; other effects are refused |
| `OutboxAnswers.TombstoneAnswer` | src/checkpoint/v1.rs:1405-1489 | a root without pending effects is tombstoned exactly when it has ended, and every live entry ends in document order in a receipt of its own; repeating the operation changes nothing, another id is a conflict |
| `OutboxProofs.TerminalizeInv` | src/checkpoint/v1.rs:1295-1353 | whatever a terminalization answers satisfies the invariant, so its final validation never fails (what it records is the subject of `TerminalizeAnswer`) |
| `OutboxProofs.CompactInv` | src/checkpoint/v1.rs:1355-1403 | compacting an effect never fails its final validation |
| `RootProofs.TombstoneInv` | src/checkpoint/v1.rs:1405-1489 | tombstoning a root never fails its final validation |
| `RootProofs.DeferralTransition` | src/checkpoint/v1.rs:474-598 | the commit of a deferral is a change that preserves the invariant |
| `IdentityProofs.IdentityIff` | src/checkpoint/v1.rs:1496-1559 | retained identity is exactly the relation between events and digests that live entries, terminal receipts and tombstones bear |
| `IdentityProofs.KnownIff` | src/checkpoint/v1.rs:1496-1559 | an event is known exactly when it is live, has ended or is buried |
| `CheckpointLoops.CollectIdentities` | src/checkpoint/v1.rs:1496-1559 | the loops over mailboxes, receipts and tombstones compute retained identity |
| `CheckpointLoops.SynchronizeReferences` | src/checkpoint/v1.rs:553-598 | every mailbox reference takes over the queue number of the entry it names |
| `CheckpointLoops.RewriteProducer` | src/checkpoint/v1.rs:2495-2520 | all references to an ended event become terminal references, and it fails exactly when there are several |
| `CheckpointLoops.UniqueMatch` | src/checkpoint/v1.rs:2495-2520 | with unique producers at most one reference to an event is rewritten |
| `CheckpointLoops.CommitInOrder` | src/checkpoint/v1.rs:474-551 | the commit loop, receipt by receipt, yields the specified checkpoint and fails exactly when an event that it ends has several producers |
| `Validation.ValidateSemantics` | src/checkpoint/v1.rs:1596-1855 | the validation passes accept exactly the valid checkpoints |
| `Validation.CheckChronology` | src/checkpoint/v1.rs:1608-1660 | one pass decides whether sequence numbers and revisions are in order and none is from the future |
| `Validation.CheckIdentities` | src/checkpoint/v1.rs:1627-1646 | one pass with sets decides whether acceptances and terminals are unique by event and by number |
| `Validation.CheckRetention` | src/checkpoint/v1.rs:1857-1882 | sequence numbers continue without a gap from the cutoff to the next receipt |
| `Validation.CheckOwners` | src/checkpoint/v1.rs:1767-1809 | one pass with a map decides whether every acceptance number has a single owner and was allocated |
| `Validation.CheckQueues` | src/checkpoint/v1.rs:1781-1803 | one pass with a set decides whether terminal queue numbers were allocated, occur once and belong to no live entry |
| `Validation.CheckReferences` | src/checkpoint/v1.rs:2295-2432 | one pass over all emission references decides whether producers and effects are unique, references meet their entries and effects match the outbox |
| `Counterexamples.InternalDeliveryFails` | src/checkpoint/v1.rs:2207-2224 | a concrete internal delivery is admitted into a checkpoint that fails validation |
| `Counterexamples.LostEmitterFails` | src/checkpoint/v1.rs:2191-2206 | a concrete step that removes the emitter of a waiting event commits an invalid checkpoint |
| `Counterexamples.TakenIdFails` | src/checkpoint/v1.rs:2121-2190 | a host delivers input under the id that the engine derives next; it is admitted, and the step that derives that id commits an invalid checkpoint |
| `Identities.EventInjective` | src/format1/runtime.rs:2042-2062 | different root, source, target, cause, step, locator or ordinal give different event ids |
| `Identities.EffectInjective` | src/format1/runtime.rs:2064-2088 | different definition, root, runtime, cause, step, locator or ordinal give different effect ids |
| `Identities.DerivedOnce` | src/format1/runtime.rs:3538-3591 | an id derived in one logical step can be derived in no later one, and no event has the id of its cause |
| `Novelty.OneProducer` | src/checkpoint/v1.rs:2495-2520 | from every coherent checkpoint the error for several producers is unreachable if the dispatched ids are new |
| `Novelty.DerivedCommits` | src/format1/runtime.rs:556-584 | with derived ids a dispatched step always commits, and validly if and only if no entry that stays loses its emitter and every delivered send is well sourced |
| `Novelty.NoEffectRepeated` | src/checkpoint/v1.rs:474-551 | a derived effect id is never refused as a repetition |
| `Novelty.PerformUntaken` | src/format1/runtime.rs:556-584 | every operation leaves no event or effect id taken that the engine could still derive, if its deliveries claim none |
| `Novelty.RunUntaken` | src/format1/runtime.rs:556-584 | over whole runs, only a host that delivers under a derivable id can make a derived id clash |
| `Novelty.CreatedUntaken` | src/format1/runtime.rs:373-403 | creation uses up logical step 0 |
| `Novelty.DerivedCreates` | src/checkpoint/v1.rs:80-188 | with derived ids creation fails only for a claim of pruning or a delivered send without a source |
| `Runs.PerformInv` | src/checkpoint/v1.rs:1561-1594 | whatever the operation and its deliveries, a run goes on from a checkpoint that satisfies the invariant |
| `Runs.NeverRefused` | src/checkpoint/v1.rs:994-1489 | the final validation of prunes, outbox operations and root tombstones never fails |
| `Runs.RunInv` | src/checkpoint/v1.rs:1561-1594 | the invariant holds at every point of every run of admit, step, process, prune, outbox and tombstone operations |
| `Runs.KnownForEver` | src/checkpoint/v1.rs:1496-1559 | an event once known under a digest stays known under it for the rest of every run; redelivery is answered from evidence, another digest is a conflict, neither changes the checkpoint |
| `Runs.KnownInBatch` | src/checkpoint/v1.rs:248-379 | the same inside a batch: the known event is replayed from evidence and never admitted again, and under another digest the batch fails |
| `Runs.KnownInProcess` | src/checkpoint/v1.rs:767-808 | the same through processing: the terminal receipt of an ended event, else the retained evidence, and a conflict for another digest; the checkpoint stays |
| `AdmitTheorem.MembersAt` | src/checkpoint/v1.rs:248-379 | the member of each delivery of a batch: evidence if it is known, its allocated numbers if it is admitted |
| `Runs.OneTerminal` | src/checkpoint/v1.rs:1596-1760 | no event ever has two terminal records, be they receipts or tombstones, and a live event has none |
| `Runs.OneStage` | src/checkpoint/v1.rs:2295-2432 | at every point of a run an effect is in one stage at most, it first appears pending, and nothing but a prune removes it |
| `Runs.NeverBack` | src/checkpoint/v1.rs:1262-1403 | as long as an effect stays, it never goes back to an earlier stage, and its intent is retained from stage to stage |
| `Runs.TerminalForEver` | src/checkpoint/v1.rs:1295-1403 | a terminal effect keeps outcome, intent, revision and terminal number, in full or as a tombstone, until pruning removes it |
| `Runs.TerminalizeAgain` | src/checkpoint/v1.rs:1295-1353 | repeating a terminalization with the same outcome changes nothing, even after compaction; another outcome conflicts |
| `Runs.CompactAgain` | src/checkpoint/v1.rs:1355-1403 | compacting again changes nothing |
| `Evolution.PruneRemovesProducer` | src/checkpoint/v1.rs:1052-1127 | a prune removes an effect exactly when it removes the one receipt that produced it |
| `Runs.PerformEvolves` | src/checkpoint/store.rs:645-758 | every operation but a prune rewrites old receipts only as permanent retention allows |
| `Runs.PolicyAccepts` | src/checkpoint/store.rs:598-642 | on a record that it may hold, a store accepts the result of every operation except prunes under permanent receipts, and under a strict outbox compactions and prunes that remove the producer of a terminal effect |
| `Retention.CheckReplacement` | src/checkpoint/store.rs:598-642 | the policy check with its early exits accepts exactly the allowed replacements |
| `Retention.CheckCandidate` | src/checkpoint/store.rs:585-596 | the policy check of a new record accepts exactly the allowed ones |
| `Retention.CheckReceipt` | src/checkpoint/store.rs:645-758 | the receipt comparison accepts exactly equal bodies with references that stay, advance or end as attested |
| `Retention.CheckCompact` | src/checkpoint/store.rs:820-875 | the compact policy accepts exactly when referenced tombstones stay and terminal records keep matching evidence |
| `RetentionProofs.TransitionAccepted` | src/checkpoint/store.rs:645-758 | permanent retention accepts every step, deferral and root tombstone |
| `RetentionProofs.FusedAccepted` | src/checkpoint/store.rs:645-758 | permanent retention accepts the fused commit of a process against the checkpoint before it |
| `RetentionProofs.PermanentHistory` | src/checkpoint/store.rs:645-758 | over any run of accepted replacements receipt bodies are immutable, queue numbers in references only grow, terminal and external references never change |
| `RetentionProofs.CompactEvidence` | src/checkpoint/store.rs:820-875 | under permanent receipts and compact outbox a terminal effect keeps outcome, terminal number, revision and intent digest in every later accepted checkpoint |
| `RetentionProofs.StrictEvidence` | src/checkpoint/store.rs:622-642 | under a strict outbox the full terminal record stays for ever and nothing is compacted |
| `Host.Store.CompareAndSwap` | src/checkpoint/host.rs:268-300 | the record is replaced exactly if it still is the expected one and the policy allows it; otherwise nothing changes |
| `Host.Store.InsertIfAbsent` | src/checkpoint/host.rs:242-266 | an insertion fills a gap if the policy allows the record; otherwise it conflicts or is refused and changes nothing |
| `Host.Store.Commit` | src/checkpoint/host.rs:2526-2576 | a commit has exactly the effect of the commit action of the interleaving model; it stores exactly if the candidate is new and valid, the record is still the loaded one and the policy allows it |
| `Host.Store.CreateRoot` | src/checkpoint/host.rs:1858-1930 | creation has exactly the effect of the create action: it stores a new valid root that the policy allows, or answers from existing creation evidence without a change |
| `Host.OneChain` | src/checkpoint/host.rs:2483-2576 | for any interleaving of any actions of any number of hosts the committed records of a root form one chain; the k-th has revision k, is computed from exactly its predecessor and allowed by the policy |
| `Host.TraceValid` | src/checkpoint/host.rs:2526-2553 | whatever hosts do, everything stored passed validation and is allowed by the policy |
| `Host.TraceInv` | src/checkpoint/host.rs:2526-2553 | if the dispatcher keeps its promises, everything stored or loaded satisfies the invariant |
| `Host.StoredHistory` | src/checkpoint/store.rs:598-642 | a store with permanent receipts keeps the history of every record that any host ever committed |
| `Host.StoredCompactEvidence` | src/checkpoint/store.rs:820-875 | a store with permanent receipts and a compact outbox keeps outcome, terminal number, revision and intent digest of every terminal effect that any host ever committed |
| `Host.StoredStrictEvidence` | src/checkpoint/store.rs:622-642 | a store with a strict outbox keeps every terminal record that any host ever committed, in full |
| `Host.RecordChange` | src/checkpoint/host.rs:2526-2576 | a stored record changes exactly by the commit of a host that had loaded that record, has a valid candidate and is not refused |
| `Host.LoserChangesNothing` | src/checkpoint/host.rs:2556-2576 | of two hosts that loaded one record at most one commits |
| `Host.CreationForEver` | src/checkpoint/host.rs:1906-1930 | creation evidence is the same in every later record, so creating the root again is always answered alike |
| `CelLaws.AndLaw` | src/format1/cel.rs:585-604 | a conjunction is false if and only if a side is false, true if and only if both are true, and otherwise the fault of the first faulty side |
| `CelLaws.OrLaw` | src/format1/cel.rs:585-604 | a disjunction is true if and only if a side is true, false if and only if both are false, and otherwise the fault of the first faulty side |
| `CelLaws.NotLaw` | src/format1/cel.rs:605-608 | negation |
| `CelLaws.DeMorgan` | src/format1/cel.rs:585-608 | negation turns conjunction into disjunction and back, faults included |
| `CelLaws.ConditionalLaw` | src/format1/cel.rs:576-584 | a condition selects one branch and never touches the other |
| `CelLaws.StrictLaw` | src/format1/cel.rs:616-684 | all other binary operations pass on the fault of the first faulty side |
| `CelLaws.IntegerLaw` | src/format1/cel.rs:721-746 | sums, differences, products and negations are the mathematical ones, or overflow exactly outside 64 bits |
| `CelLaws.DivisionLaw` | src/format1/cel.rs:721-746 | quotient and remainder are any `q` and `r` with `a == b * q + r`, `r` smaller than the divisor and with the sign of `a`; only a zero divisor and the most negative number by -1 fail |
| `CelLaws.DividesOnce` | src/format1/cel.rs:721-746 | there is only one such pair |
| `CelLaws.ConcatLaw` | src/format1/cel.rs:758-765 | `+` joins texts and lists, left first |
| `CelLaws.FloatLaw` | src/format1/cel.rs:747-757 | arithmetic on doubles is that of the doubles and fails exactly for results that are not finite |
| `CelLaws.OrderingLaw` | src/format1/cel.rs:638-656 | the four orderings are the order of integers, of doubles and of texts by the first difference |
| `CelLaws.BeforeIff` | src/format1/cel.rs:769-778 | the order of texts: at the first difference the smaller character, and a proper prefix first |
| `CelLaws.EqualityLaw` | src/format1/cel.rs:629-637 | `==` is equality of values up to the sign of zero, and `!=` its opposite |
| `CelLaws.InLaw` | src/format1/cel.rs:657-669 | membership in a list is by equality, in a map by key |
| `CelLaws.IndexLaw` | src/format1/cel.rs:670-684 | indexing a list counts from zero and fails exactly outside of it; indexing a map finds the item of the key |
| `CelLaws.SelectLaw` | src/format1/cel.rs:544-559 | selecting finds the item of the name, the test asks whether there is one |
| `CelLaws.SizeLaw` | src/format1/cel.rs:685-692 | the number of characters, elements or items |
| `CelLaws.ConversionLaw` | src/format1/cel.rs:693-716 | conversions to double, integer and text; the text of an integer is its canonical decimal |
| `CelLaws.ListLaw` | src/format1/cel.rs:525-530 | a list holds the values of its elements in order, or the first fault |
| `CelLaws.MapLaw` | src/format1/cel.rs:531-543 | a map is ordered by key and holds under each key the value of the last entry with that key |
| `CelLaws.LeafLaw` | src/format1/cel.rs:512-524 | literals and names |
| `CelCompleteness.BinaryChecked` | src/format1/cel.rs:259-333 | the checker accepts arithmetic, orderings, membership and indexing exactly when no values of the operand types make them fail for another reason than the data, equality on comparable types and logic on Booleans, with these result types |
| `CelCompleteness.UnaryChecked` | src/format1/cel.rs:259-333 | the same for unary operations |
| `CelCompleteness.ConditionalChecked` | src/format1/cel.rs:357-367 | a conditional needs a Boolean and branches with a common type, where a reference also stands for null |
| `CelCompleteness.SelectChecked` | src/format1/cel.rs:192-232 | selecting needs a record that declares the field, or a map |
| `CelCompleteness.ListChecked` | src/format1/cel.rs:144-150 | a list is well-typed exactly if its elements are, and has the type that they have in common |
| `CelCompleteness.IllTyped` | src/format1/cel.rs:233-248 | an ill-typed operand makes the expression ill-typed |
| `CelSoundness.TypeSafety` | src/format1/cel.rs:121-383 | if the checker gives a type and the environment conforms, evaluation yields a value of that type or a data fault, never an unknown name, shape or profile fault |
| `CelSoundness.AssignableSafe` | src/format1/cel.rs:367-383 | a value of an assignable type fits the declared type up to widening and the machine of a reference |
| `CelSoundness.BinarySafe` | src/format1/cel.rs:569-784 | each binary operation on values of its checked types is safe |
| `CelMeter.Evaluate` | src/format1/inspection_cel.rs:357-430 | the metered evaluator spends exactly the cost of the work, or reports the limit when fuel does not suffice |
| `CelMeter.EvaluateCall` | src/format1/inspection_cel.rs:442-664 | the same for calls, where the limit is never absorbed by a logical operator; the values are those of the plain evaluator (`WorkAgrees`), for which `CelLaws` states them |
| `CelMeter.Meter.Charge` | src/format1/inspection_cel.rs:300-308 | a charge is taken in full or not at all |
| `CelAgreement.WorkAgrees` | src/format1/inspection_cel.rs:357-664 | with enough fuel the metered evaluator succeeds exactly when the plain one does, with the same value up to the sign of zero |
| `CelAgreement.SafeEvaluate` | src/format1/inspection_cel.rs:310-355 | within the limits on length, snapshot and nodes a guard evaluation reports the limit exactly below its cost, and otherwise the Boolean of the plain evaluator with the cost as fuel spent, on the shortcut for negations too |
| `CelAgreement.NegationShortcut` | src/format1/inspection_cel.rs:329-340 | n negations of a Boolean literal evaluate to its parity at the cost 1 + 2n |
| `Inspection.Structural` | src/format1/inspection.rs:240-268 | the single pass computes exactly the possible dispositions |
| `Inspection.Semantic` | src/format1/inspection.rs:433-543 | the walk with its two budgets computes the specified outcome, and its evidence lists in order exactly the guards before the place where it stops, all false but a deciding last one; a limit is exceeded exactly if the next guard has no guard left or takes more steps than are left, a guard failure is reported exactly within both budgets, and the event is handled, deferred or unhandled as the branches and levels up to there say |
| `Inspection.Exact` | src/format1/inspection.rs:240-268 | whatever the guards cost, a disposition is reported structurally if and only if semantic inspection decides on it for some values of the guards and some budgets; failing guards add none |
| `RuntimeTree.Restorer.RestoreTree` | src/format1/native.rs:764-885 | restoring with a shrinking store of records yields the specified tree and leaves the specified rest |
| `RuntimeTree.FlattenInto` | src/format1/native.rs:1620-1632 | appends the records of a tree, children before their owner |
| `RuntimeTreeTheorem.SuccessIsTree` | src/format1/native.rs:588-631 | if an envelope restores, its owner links lead to the root and the tree holds every record exactly once under the owner it names |
| `RuntimeTreeTheorem.RestoresIffRooted` | src/format1/native.rs:588-631 | when the definition checks pass, an envelope restores if and only if it has its root record and all owner links lead there |
| `RuntimeTreeTheorem.NeverDisappears` | src/format1/native.rs:784-788 | the error for a disappeared record is unreachable |
| `RuntimeTreeTheorem.FlattenRoundTrip` | src/format1/native.rs:1620-1632 | restoring the records of a tree with canonically ordered children, in any order, returns that tree |
| `Migration.MigrateVariables` | src/format1/migration.rs:994-1165 | migration succeeds exactly when all rules apply, nothing is consumed or produced twice, everything is consumed and all values fit; the result, sorted by pointer and activation, holds each variable that a copy, a transformation or an initialization yields, and no other, once |
| `MigrationProofs.TransformsArrive` | src/format1/migration.rs:1036-1095 | for every occurrence of the first source of a transformation the one variable of its activation under the target name holds what the evaluator gives on the list whose k-th element is the value of the k-th source in that activation |
| `MigrationProofs.InitializationsArrive` | src/format1/migration.rs:1096-1136 | an initialization yields its value in the one live activation of the declaring state |
| `MigrationProofs.ConsumedExactlyOnce` | src/format1/migration.rs:994-1175 | a successful migration consumes every source occurrence by exactly one rule |
| `MigrationProofs.CopiesPreserved` | src/format1/migration.rs:1010-1030 | copied values arrive unchanged and each target occurrence is produced at most once |
| `MigrationProofs.MigrateCounters` | src/format1/migration.rs:1272-1322 | migration succeeds exactly when every counter has one rule, which maps it, and no target is produced twice; the result, in byte order of the pointers, holds each counter under the pointer to which its one rule maps it, with its value, and the counters that start at zero, no others |
| `MigrationProofs.CountersInjective` | src/format1/migration.rs:1272-1322 | different source counters go to different targets |
| `MigrationProofs.NeverReissued` | src/format1/migration.rs:1350-1365 | an active activation number below its counter stays below the migrated counter |
| `Graphs.InitializationCycles` | src/format1/compile.rs:1758-1813 | the check accepts exactly acyclic graphs and yields an order that decreases along every edge |
| `Graphs.ChoiceCycles` | src/format1/compile.rs:1719-1756 | the check accepts exactly machines whose choice graph is acyclic, with such an order |
| `Graphs.FindReachable` | src/format1/compile.rs:1675-1717 | the worklist terminates with exactly the reachable states, the least closed set that holds the root |
| `TypedValues.RoundTrip` | src/format1/native.rs:228-313 | parsing the projection of any canonical typed value returns it |
| `TypedValues.Accepted` | src/format1/native.rs:228-289 | everything the parser accepts has strictly ordered maps and finite floats without negative zero |
| `TypedValues.PlainUndoesProjection` | src/format1/package.rs:152-174 | reading the projection of a strict document and writing it plainly gives the document back |
| `TypedText.ProjectionIff` | src/format1/native.rs:228-300 | printing what was parsed gives the text back if and only if its integers are canonical decimals, negative ones with a minus sign, and its floats are sixteen lower-case hexadecimal digits |
| `TypedText.IntegerIff` | src/format1/native.rs:242-246 | an accepted integer text prints back exactly if it is canonical decimal or a minus sign before one other than zero |
| `TypedText.BitsIff` | src/format1/native.rs:246-253 | an accepted float text prints back exactly if it is sixteen lower-case hexadecimal digits |
| `TypedValues.NotCanonicalText` | src/format1/native.rs:242-253 | a concrete text with a sign is accepted and never printed |
| `Numerals.DecimalOrder` | src/format1/native.rs:1954-1958 | on canonical decimals of any length comparing by length and then bytes is comparing numbers |
| `Numerals.CounterFromDecimal` | src/format1/counter.rs:14-25 | reading accepts exactly canonical decimals, and printing what was read gives the text back |
| `Numerals.CounterRoundTrip` | src/format1/counter.rs:14-29 | reading what was printed gives the counter back |
| `Numerals.Counter.Allocate` | src/format1/counter.rs:31-35 | no number is issued twice: an allocation issues one that was never issued before |
| `Numerals.Counter.AllocateMany` | src/checkpoint/v1.rs:139-141 | a run of allocations issues consecutive numbers, none of which was issued before |

## Left out

- Dispatch inside a state machine (`src/format1/runtime.rs`) is a parameter: its report of runtimes, emissions and output numbers is taken as given, with unique runtime names and increasing output numbers as the only premises; that two emissions of one step differ in some field of their ids is a premise of `Novelty`.
- JSON schema validation, canonical JSON, SHA-256, YAML, serde and the CEL text parser: foreign calls; the model starts from datatypes.
- Migration inside checkpoint runs and maintenance receipts (src/checkpoint/v1.rs:726-873, 1144-1260): the audit clause of validation ties the last audit to the current revision and is not preserved by later operations.
- Event payloads, correlation ids, state configurations and variables are opaque text in checkpoints; the definition's verdict on an event is a parameter of admission.
- The sort that seals a checkpoint is not modelled: receipts are in sequence order throughout, so it is the identity; the same holds for the order of event tombstones after a prune.
- The error of core emission for an emitter that is no runtime of the aggregate is not modelled; such a send appears with its emitter as source.
- Step returns the core's rejections as one answer without a checkpoint; the portable rejection codes of the core are not distinguished.
- Migration.MigrateVariables: the step and byte budgets of migration expressions are not modelled; the evaluator is a partial function. A logical operator can absorb the step limit of migration expressions, so no bound is claimed.
- Inspection.Semantic: guard evaluation is a table of verdicts with step costs; the exact cost of a guard is the subject of CelAgreement.SafeEvaluate. Provider guards and the digests in the evidence are not modelled.
- CelAgreement.SafeEvaluate: what the parser makes of the text of a guard (length, nodes, expression, run of negations) is an input.
- Graphs.InitializationCycles: starts from the graph; its collection from components and spawn actions is not modelled.
- Floating-point arithmetic: operations on magnitudes are parameters that ignore the sign of zero.
- String-level rewriting of negation runs before inspection (src/format1/inspection_cel.rs:150-292) depends on the parser and is not modelled.
- RuntimeTree.Restorer.RestoreTree: checks of a record against its definition and of a child against its owner are two predicates given as parameters.
- CelSoundness.AssignableSafe: assignability ignores the machine of a reference and lets integers stand for doubles, as the type checker does.
- SQLite and PostgreSQL transactions, the durable inbox, quarantine tables, registries, the command line and the public host facade: they move records and reports around without computing on them.
