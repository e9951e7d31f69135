/**
 The relational validity of a checkpoint (the program's semantic validation, for checkpoints
 without migration records) and the inductive invariant built on top of it.
 */
module CheckpointValidity {
  import opened CheckpointModel

  // ------------------------------------------------------------------------------------------
  // Receipts
  // ------------------------------------------------------------------------------------------

  /** One creation receipt, contiguous sequence numbers above the pruning cutoff, ordered revisions. */
  predicate ReceiptsOk(cp: Checkpoint) {
    var rs := cp.receipts;
    && |rs| >= 1
    && rs[0].Creation?
    && rs[0].sequence == 0
    && (forall i :: 1 <= i < |rs| ==> !rs[i].Creation? && rs[i].sequence == cp.retention.Base() + i)
    && cp.nextReceipt == cp.retention.Base() + |rs|
    && (forall i :: 0 <= i < |rs| ==> rs[i].revision <= cp.revision)
    && (forall i, j :: 0 <= i < j < |rs| ==> rs[i].revision <= rs[j].revision)
  }

  predicate Accepted(rs: seq<Receipt>, id: Text) {
    exists i :: 0 <= i < |rs| && rs[i].Acceptance? && rs[i].eventId == id
  }

  predicate Ended(rs: seq<Receipt>, id: Text) {
    exists i :: 0 <= i < |rs| && rs[i].Terminal? && rs[i].eventId == id
  }

  predicate Buried(ts: seq<EventTombstone>, id: Text) {
    exists i :: 0 <= i < |ts| && ts[i].eventId == id
  }

  predicate UniqueAcceptances(rs: seq<Receipt>) {
    forall i, j :: 0 <= i < j < |rs| && rs[i].Acceptance? && rs[j].Acceptance? ==>
      rs[i].eventId != rs[j].eventId && rs[i].acceptance != rs[j].acceptance
  }

  predicate UniqueTerminals(rs: seq<Receipt>) {
    forall i, j :: 0 <= i < j < |rs| && rs[i].Terminal? && rs[j].Terminal? ==>
      rs[i].eventId != rs[j].eventId && rs[i].finalQueue != rs[j].finalQueue
  }

  /** Every receipt number and allocation stays below the counter that issued it. */
  predicate AllocationsOk(cp: Checkpoint) {
    cp.record.Retained? ==>
      var a := cp.record.aggregate;
      && (forall i :: 0 <= i < |cp.receipts| && !cp.receipts[i].Creation? ==>
            cp.receipts[i].acceptance < a.nextAcceptance)
      && (forall i :: 0 <= i < |cp.receipts| && cp.receipts[i].Terminal? ==>
            cp.receipts[i].finalQueue < a.nextQueue)
      && (forall i :: 0 <= i < |cp.tombstones| ==> cp.tombstones[i].acceptance < a.nextAcceptance)
  }

  /** Terminals committed in one revision attest one aggregate, the current one in the current revision. */
  predicate DigestsOk(cp: Checkpoint) {
    var rs := cp.receipts;
    && (forall i, j :: 0 <= i < j < |rs| && rs[i].Terminal? && rs[j].Terminal? && rs[i].revision == rs[j].revision ==>
          rs[i].digest == rs[j].digest)
    && (forall i :: 0 <= i < |rs| && rs[i].Terminal? && rs[i].revision == cp.revision ==>
          rs[i].digest == CurrentDigest(cp))
  }

  predicate CreationOk(cp: Checkpoint)
    requires |cp.receipts| >= 1 && cp.receipts[0].Creation?
  {
    && cp.receipts[0].creationId == RecordedCreation(cp)
    && (cp.record.Retained? ==> cp.record.aggregate.root == cp.root)
    && (cp.record.Retained? && cp.revision == 0 && |cp.receipts| == 1 ==>
          cp.receipts[0].digest == CurrentDigest(cp))
  }

  // ------------------------------------------------------------------------------------------
  // Mailboxes
  // ------------------------------------------------------------------------------------------

  predicate LocatorMatches(locator: Text, event: Text) {
    || (locator == "system:component_completion" && (event == "determa.component_completed" || event == "done"))
    || (locator == "system:spawned_completion" && event == "done")
    || (locator == "system:component_failure" && event == "determa.component_failed")
    || (locator == "system:spawned_failure" && event == "determa.spawned_instance_failed")
  }

  /** No acceptance number and no queue number occurs twice. */
  predicate Numbered(m: multiset<Entry>) {
    && (forall e :: e in m ==> m[e] == 1)
    && (forall e, f :: e in m && f in m && e != f ==> e.acceptance != f.acceptance && e.queue != f.queue)
  }

  /** No two different entries carry one event id. */
  predicate Named(m: multiset<Entry>) {
    forall e, f :: e in m && f in m && e != f ==> e.Id() != f.Id()
  }

  /** No event id, acceptance number or queue number occurs twice. */
  predicate Distinct(m: multiset<Entry>) {
    Numbered(m) && Named(m)
  }

  predicate Below(m: multiset<Entry>, acceptance: nat, queue: nat) {
    forall e :: e in m ==> e.acceptance < acceptance && e.queue < queue
  }

  predicate Ordered(box: seq<Entry>) {
    forall i, j :: 0 <= i < j < |box| ==> box[i].queue < box[j].queue
  }

  /** The entry is addressed to the runtime that holds it, and its digest is that of its envelope. */
  predicate Addressed(root: Text, runtime: Text, e: Entry) {
    e.envelope.target == Target(root, runtime) && e.digest == EnvelopeDigest(root, e.mode, e.envelope)
  }

  predicate BoxesOk(root: Text, r: Runtime) {
    && Ordered(r.ready)
    && Ordered(r.deferred)
    && (forall e :: e in Mail(r) ==> Addressed(root, r.id, e))
  }

  /** Where an entry may come from: the host for input, a retained runtime or the engine for internal. */
  predicate SourceOk(root: Text, runtimes: seq<Runtime>, e: Entry) {
    match e.mode
    case Input => e.envelope.source == HostSource && e.envelope.causeId == e.Id()
    case Internal =>
      && e.envelope.causeId != e.Id()
      && match e.envelope.source
         case HostSource => false
         case RuntimeSource(origin) => exists i :: 0 <= i < |runtimes| && origin == Target(root, runtimes[i].id)
         case SystemSource(locator) => LocatorMatches(locator, e.envelope.event)
  }

  predicate SourcesOk(a: Aggregate) {
    forall e :: e in MailOf(a.runtimes) ==> SourceOk(a.root, a.runtimes, e)
  }

  predicate DistinctRuntimes(rs: seq<Runtime>) {
    forall i, j :: 0 <= i < j < |rs| ==> rs[i].id != rs[j].id
  }

  /** The mailbox conditions that concern the aggregate alone. */
  predicate MailboxesOk(a: Aggregate) {
    && Distinct(MailOf(a.runtimes))
    && Below(MailOf(a.runtimes), a.nextAcceptance, a.nextQueue)
    && (forall i :: 0 <= i < |a.runtimes| ==> BoxesOk(a.root, a.runtimes[i]))
  }

  predicate AcceptedAs(rs: seq<Receipt>, e: Entry) {
    exists i :: 0 <= i < |rs| && rs[i].Acceptance? && rs[i].eventId == e.Id()
             && rs[i].request' == e.digest && rs[i].acceptance == e.acceptance && rs[i].mode == Input
  }

  /** `r` is a mailbox reference that names exactly the live entry `e`. */
  predicate Names(r: Reference, e: Entry) {
    r.MailboxRef? && r.eventId == e.Id() && r.acceptance == e.acceptance && r.queue == e.queue
  }

  predicate ProducedAs(rs: seq<Receipt>, e: Entry) {
    exists i, k :: 0 <= i < |rs| && 0 <= k < |rs[i].Refs()| && Names(rs[i].Refs()[k], e)
  }

  /** Every live entry has its acceptance receipt or its producer reference. */
  predicate ProvenanceOk(cp: Checkpoint) {
    forall e :: e in Live(cp) ==> if e.mode.Input? then AcceptedAs(cp.receipts, e) else ProducedAs(cp.receipts, e)
  }

  // ------------------------------------------------------------------------------------------
  // Events
  // ------------------------------------------------------------------------------------------

  predicate AcceptancesLead(cp: Checkpoint) {
    forall i :: 0 <= i < |cp.receipts| && cp.receipts[i].Acceptance? ==>
      IsLive(cp, cp.receipts[i].eventId) || Ended(cp.receipts, cp.receipts[i].eventId)
  }

  predicate TombstonesOk(cp: Checkpoint) {
    var ts := cp.tombstones;
    && (forall i, j :: 0 <= i < j < |ts| ==> ts[i].eventId != ts[j].eventId && ts[i].terminal < ts[j].terminal)
    && (forall i :: 0 <= i < |ts| ==>
          && !IsLive(cp, ts[i].eventId)
          && !Ended(cp.receipts, ts[i].eventId)
          && !Accepted(cp.receipts, ts[i].eventId)
          && ts[i].terminal < cp.nextReceipt)
    && (forall i, j :: 0 <= i < |ts| && 0 <= j < |cp.receipts| && cp.receipts[j].Terminal? ==>
          cp.receipts[j].sequence != ts[i].terminal)
  }

  /** Event `id` holds acceptance number `n`. */
  ghost predicate Owns(cp: Checkpoint, n: nat, id: Text) {
    || (exists e :: e in Live(cp) && e.acceptance == n && e.Id() == id)
    || (exists i :: 0 <= i < |cp.receipts| && !cp.receipts[i].Creation?
                 && cp.receipts[i].acceptance == n && cp.receipts[i].eventId == id)
    || (exists i :: 0 <= i < |cp.tombstones| && cp.tombstones[i].acceptance == n && cp.tombstones[i].eventId == id)
  }

  ghost predicate OwnersOk(cp: Checkpoint) {
    forall n, id, id' :: Owns(cp, n, id) && Owns(cp, n, id') ==> id == id'
  }

  predicate QueuesOk(cp: Checkpoint) {
    forall e, i :: e in Live(cp) && 0 <= i < |cp.receipts| && cp.receipts[i].Terminal? ==>
      e.queue != cp.receipts[i].finalQueue && e.Id() != cp.receipts[i].eventId
  }

  /** Receipt `t` ends event `t.eventId`, and `a` is its acceptance. */
  predicate Admits(a: Receipt, t: Receipt) {
    && a.Acceptance? && t.Terminal?
    && a.eventId == t.eventId && a.request' == t.request' && a.acceptance == t.acceptance
    && a.sequence < t.sequence && a.revision <= t.revision
  }

  predicate EndsIn(r: Reference, t: Receipt) {
    t.Terminal? && r.TerminalRef? && r.eventId == t.eventId && r.acceptance == t.acceptance && r.terminal == t.sequence
  }

  predicate HasAcceptance(rs: seq<Receipt>, t: Receipt) {
    exists i :: 0 <= i < |rs| && Admits(rs[i], t)
  }

  predicate HasProducer(rs: seq<Receipt>, t: Receipt) {
    exists i, k :: 0 <= i < |rs| && 0 <= k < |rs[i].Refs()| && EndsIn(rs[i].Refs()[k], t)
  }

  /** Every terminal is explained by its acceptance, or by its producer, or by earlier pruning; never by the first two. */
  predicate TerminalsExplained(cp: Checkpoint) {
    forall i :: 0 <= i < |cp.receipts| && cp.receipts[i].Terminal? ==>
      var t := cp.receipts[i];
      && !(HasAcceptance(cp.receipts, t) && HasProducer(cp.receipts, t))
      && (HasAcceptance(cp.receipts, t) || HasProducer(cp.receipts, t)
          || (cp.retention.Pruned().Some? && cp.retention.Pruned().value < t.sequence))
  }

  // ------------------------------------------------------------------------------------------
  // Emission references and outbox
  // ------------------------------------------------------------------------------------------

  /** The reference at position `k` of receipt `i` is about event `id`. */
  predicate Concerns(rs: seq<Receipt>, i: int, k: int, id: Text) {
    && 0 <= i < |rs| && 0 <= k < |rs[i].Refs()|
    && !rs[i].Refs()[k].OutboxRef? && rs[i].Refs()[k].eventId == id
  }

  ghost predicate UniqueProducers(rs: seq<Receipt>) {
    forall i, k, j, l, id :: Concerns(rs, i, k, id) && Concerns(rs, j, l, id) ==> i == j && k == l
  }

  predicate LiveReference(cp: Checkpoint, r: Reference) {
    exists e :: e in Live(cp) && e.mode.Internal? && Names(r, e)
  }

  predicate EndedReference(cp: Checkpoint, i: int, r: Reference)
    requires 0 <= i < |cp.receipts|
  {
    || (exists j :: 0 <= j < |cp.receipts| && EndsIn(r, cp.receipts[j])
                 && cp.receipts[i].sequence < cp.receipts[j].sequence
                 && cp.receipts[i].revision <= cp.receipts[j].revision)
    || (exists j :: 0 <= j < |cp.tombstones| && r.TerminalRef? && cp.tombstones[j].eventId == r.eventId
                 && cp.tombstones[j].terminal == r.terminal && cp.tombstones[j].acceptance == r.acceptance
                 && cp.receipts[i].sequence < cp.tombstones[j].terminal)
  }

  ghost predicate ReferencesOk(cp: Checkpoint) {
    && UniqueProducers(cp.receipts)
    && (forall i, k :: 0 <= i < |cp.receipts| && 0 <= k < |cp.receipts[i].Refs()| ==>
          var r := cp.receipts[i].Refs()[k];
          match r
          case MailboxRef(_, _, _, _) => LiveReference(cp, r)
          case TerminalRef(_, _, _, _) => EndedReference(cp, i, r)
          case OutboxRef(_, _) => true)
  }

  predicate Referenced(rs: seq<Receipt>, effect: Text) {
    exists i, k :: 0 <= i < |rs| && 0 <= k < |rs[i].Refs()| && rs[i].Refs()[k].OutboxRef? && rs[i].Refs()[k].effectId == effect
  }

  predicate UniqueEffects(rs: seq<Receipt>) {
    forall i, k, j, l ::
      && 0 <= i < |rs| && 0 <= k < |rs[i].Refs()| && rs[i].Refs()[k].OutboxRef?
      && 0 <= j < |rs| && 0 <= l < |rs[j].Refs()| && rs[j].Refs()[l].OutboxRef?
      && rs[i].Refs()[k].effectId == rs[j].Refs()[l].effectId
      ==> i == j && k == l
  }

  predicate IsPending(cp: Checkpoint, effect: Text) {
    exists i :: 0 <= i < |cp.pending| && cp.pending[i].intent.effectId == effect
  }

  predicate IsTerminal(cp: Checkpoint, effect: Text) {
    exists i :: 0 <= i < |cp.terminals| && cp.terminals[i].intent.effectId == effect
  }

  predicate IsCompacted(cp: Checkpoint, effect: Text) {
    exists i :: 0 <= i < |cp.compacted| && cp.compacted[i].effectId == effect
  }

  /** Each effect is in one stage, at one place; intents and terminal records are in allocation order. */
  predicate StagesOk(cp: Checkpoint) {
    && (forall i, j :: 0 <= i < j < |cp.pending| ==>
          cp.pending[i].intent.effectId != cp.pending[j].intent.effectId
          && cp.pending[i].intent.sequence < cp.pending[j].intent.sequence)
    && (forall i, j :: 0 <= i < j < |cp.terminals| ==>
          cp.terminals[i].intent.effectId != cp.terminals[j].intent.effectId
          && cp.terminals[i].intent.sequence != cp.terminals[j].intent.sequence
          && cp.terminals[i].terminal < cp.terminals[j].terminal)
    && (forall i, j :: 0 <= i < j < |cp.compacted| ==>
          cp.compacted[i].effectId != cp.compacted[j].effectId
          && cp.compacted[i].terminal < cp.compacted[j].terminal)
    && (forall i, j :: 0 <= i < |cp.pending| && 0 <= j < |cp.terminals| ==>
          cp.pending[i].intent.effectId != cp.terminals[j].intent.effectId
          && cp.pending[i].intent.sequence != cp.terminals[j].intent.sequence)
    && (forall i, j :: 0 <= i < |cp.pending| && 0 <= j < |cp.compacted| ==>
          cp.pending[i].intent.effectId != cp.compacted[j].effectId)
    && (forall i, j :: 0 <= i < |cp.terminals| && 0 <= j < |cp.compacted| ==>
          cp.terminals[i].intent.effectId != cp.compacted[j].effectId
          && cp.terminals[i].terminal != cp.compacted[j].terminal)
    && (forall i :: 0 <= i < |cp.pending| ==> cp.pending[i].revision <= cp.revision)
    && (forall i :: 0 <= i < |cp.terminals| ==>
          cp.terminals[i].revision <= cp.revision && cp.terminals[i].terminal < cp.nextTerminal)
    && (forall i :: 0 <= i < |cp.compacted| ==> cp.compacted[i].terminal < cp.nextTerminal)
  }

  ghost predicate EffectsOk(cp: Checkpoint) {
    && UniqueEffects(cp.receipts)
    && (forall f :: Referenced(cp.receipts, f) <==> IsPending(cp, f) || IsTerminal(cp, f) || IsCompacted(cp, f))
  }

  // ------------------------------------------------------------------------------------------
  // The whole
  // ------------------------------------------------------------------------------------------

  /** Everything that validation asks except where live entries come from. */
  ghost predicate Consistent(cp: Checkpoint) {
    && ReceiptsOk(cp)
    && UniqueAcceptances(cp.receipts)
    && UniqueTerminals(cp.receipts)
    && AllocationsOk(cp)
    && DigestsOk(cp)
    && CreationOk(cp)
    && (cp.record.Retained? ==> MailboxesOk(cp.record.aggregate))
    && AcceptancesLead(cp)
    && TombstonesOk(cp)
    && OwnersOk(cp)
    && QueuesOk(cp)
    && TerminalsExplained(cp)
    && ReferencesOk(cp)
    && StagesOk(cp)
    && EffectsOk(cp)
  }

  /** Live entries have an admissible source and its evidence. */
  ghost predicate Sourced(cp: Checkpoint) {
    (cp.record.Retained? ==> SourcesOk(cp.record.aggregate)) && ProvenanceOk(cp)
  }

  /** What semantic validation accepts. */
  ghost predicate Valid(cp: Checkpoint) {
    Consistent(cp) && Sourced(cp)
  }

  /** Validation alone is not inductive; every reachable checkpoint also satisfies these. */
  ghost predicate Strong(cp: Checkpoint) {
    // an acceptance precedes and matches its terminal
    && (forall i, j ::
          && 0 <= i < |cp.receipts| && cp.receipts[i].Acceptance?
          && 0 <= j < |cp.receipts| && cp.receipts[j].Terminal?
          && cp.receipts[i].eventId == cp.receipts[j].eventId
          ==> Admits(cp.receipts[i], cp.receipts[j]))
    // no event has both an acceptance and a producer
    && (forall i, j, k :: 0 <= j < |cp.receipts| && cp.receipts[j].Acceptance? ==>
          !Concerns(cp.receipts, i, k, cp.receipts[j].eventId))
    // tombstones lie behind the pruning cutoff
    && (forall i :: 0 <= i < |cp.tombstones| ==> cp.tombstones[i].terminal <= cp.retention.Base())
    // runtime names are unique, and intents were allocated by the aggregate's output counter
    && (cp.record.Retained? ==>
          && DistinctRuntimes(cp.record.aggregate.runtimes)
          && (forall i :: 0 <= i < |cp.pending| ==> cp.pending[i].intent.sequence < cp.record.aggregate.nextOutput)
          && (forall i :: 0 <= i < |cp.terminals| ==> cp.terminals[i].intent.sequence < cp.record.aggregate.nextOutput))
  }

  /** Some acceptance receipt attests the entry, in whatever delivery mode. */
  ghost predicate Attests(rs: seq<Receipt>, e: Entry) {
    exists i :: 0 <= i < |rs| && rs[i].Acceptance? && rs[i].eventId == e.Id()
             && rs[i].request' == e.digest && rs[i].acceptance == e.acceptance
  }

  /** The entry was admitted or produced; only the host is a source of input. */
  ghost predicate Originates(rs: seq<Receipt>, e: Entry) {
    && (e.mode.Internal? <==> !e.envelope.source.HostSource?)
    && (Attests(rs, e) || (e.mode.Internal? && ProducedAs(rs, e)))
  }

  /** Every live entry was admitted or produced, although its source need not be admissible. */
  ghost predicate Traceable(cp: Checkpoint) {
    forall e :: e in Live(cp) ==> Originates(cp.receipts, e)
  }

  /** What holds even in the middle of an operation that admits an internal delivery. */
  ghost predicate Coherent(cp: Checkpoint) {
    Consistent(cp) && Traceable(cp) && Strong(cp)
  }

  ghost predicate Inv(cp: Checkpoint) {
    Coherent(cp) && Sourced(cp)
  }

  /** The invariant is validity together with its strengthening. */
  lemma InvIff(cp: Checkpoint)
    ensures Inv(cp) <==> Valid(cp) && Strong(cp)
  {
    hide Consistent, Strong, Live, SourcesOk, ProvenanceOk;
    if Sourced(cp) {
      SourcedIsTraceable(cp);
    }
  }

  lemma SourcedIsTraceable(cp: Checkpoint)
    requires Sourced(cp)
    ensures Traceable(cp)
  {
    hide MailOf, ProducedAs;
    forall e | e in Live(cp) ensures Originates(cp.receipts, e) {
      assert SourceOk(cp.record.aggregate.root, cp.record.aggregate.runtimes, e);
    }
  }
}
