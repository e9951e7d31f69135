/**
 The data of an execution checkpoint: aggregate mailboxes, operation receipts with their
 emission references, event tombstones and the three-stage outbox.

 Digests are symbolic: a digest is the very content that the program hashes, so two digests are
 equal exactly when the hashed contents are.
 */
module CheckpointModel {
  import opened Wrappers

  type Text = string

  datatype Status = Running | Completed | Faulted

  datatype Mode = Input | Internal

  datatype Target = Target(root: Text, runtime: Text)

  datatype Source = HostSource | RuntimeSource(origin: Target) | SystemSource(locator: Text)

  /** `content` stands for the typed payload together with the correlation id. */
  datatype Envelope = Envelope(event: Text, eventId: Text, causeId: Text, source: Source, target: Target, content: Text)

  datatype EnvelopeDigest = EnvelopeDigest(root: Text, mode: Mode, envelope: Envelope)

  datatype Entry = Entry(
    acceptance: nat, queue: nat, mode: Mode, envelope: Envelope, digest: EnvelopeDigest, deferrals: nat)
  {
    function Id(): Text {
      envelope.eventId
    }
  }

  /** `body` stands for the state configuration and variables, which the checkpoint never inspects. */
  datatype Runtime = Runtime(id: Text, status: Status, ready: seq<Entry>, deferred: seq<Entry>, body: Text)

  /** `nextStep` numbers the logical steps; the ids of emitted events and effects are derived from it. */
  datatype Aggregate = Aggregate(
    root: Text, creationId: Text, fingerprint: Text, rootRuntime: Text,
    nextAcceptance: nat, nextQueue: nat, nextOutput: nat, nextStep: nat, runtimes: seq<Runtime>)

  datatype AggregateDigest = AggregateDigest(content: Aggregate)

  datatype Reference =
    | MailboxRef(index: nat, eventId: Text, acceptance: nat, queue: nat)
    | TerminalRef(index: nat, eventId: Text, acceptance: nat, terminal: nat)
    | OutboxRef(index: nat, effectId: Text)

  datatype Reason = RuntimeCancelled | RuntimeCompleted | AggregateCompleted | RootTombstoned

  datatype Disposition = Handled | Unhandled | FaultedWith(fault: Text) | Disposed(reason: Reason)

  datatype Outcome = Outcome(status: Status, disposition: Disposition)

  datatype Receipt =
    | Creation(sequence: nat, creationId: Text, request: Text, revision: nat, digest: AggregateDigest,
               status: Status, refs: seq<Reference>)
    | Acceptance(sequence: nat, eventId: Text, request': EnvelopeDigest, acceptance: nat, revision: nat, mode: Mode)
    | Terminal(sequence: nat, eventId: Text, request': EnvelopeDigest, acceptance: nat, finalQueue: nat,
               revision: nat, digest: AggregateDigest, outcome: Outcome, refs: seq<Reference>)
  {
    /** The emission references; an acceptance receipt has none. */
    function Refs(): seq<Reference> {
      if Acceptance? then [] else refs
    }
  }

  datatype EventTombstone = EventTombstone(
    eventId: Text, request: EnvelopeDigest, acceptance: nat, terminal: nat, disposition: Disposition)

  datatype Intent = Intent(effectId: Text, sequence: nat, content: Text)

  datatype IntentDigest = IntentDigest(root: Text, intent: Intent)

  datatype DeliveryState = NotAttempted | RetryableFailure(reason: Text) | Ambiguous(reason: Text)

  datatype EffectOutcome =
    | Confirmed
    | PermanentlyRejected(reason: Text)
    | OperatorCancelled(reason: Text)
    | Discarded(reason: Text)
    | DeadLettered(reason: Text)

  datatype PendingEffect = PendingEffect(intent: Intent, revision: nat, state: DeliveryState)

  datatype TerminalEffect = TerminalEffect(terminal: nat, intent: Intent, revision: nat, outcome: EffectOutcome)

  datatype EffectTombstone = EffectTombstone(
    terminal: nat, effectId: Text, digest: IntentDigest, revision: nat, outcome: EffectOutcome)

  datatype RootRecord =
    | Retained(aggregate: Aggregate)
    | Tombstoned(rootRuntime: Text, creationId: Text, status: Status, final: AggregateDigest, operationId: Text)

  datatype Retention = Permanent | Bounded(cutoff: Option<nat>, policy: Text)
  {
    /** The receipt sequence through which receipts were pruned, if any. */
    function Pruned(): Option<nat> {
      if Permanent? then None else cutoff
    }

    /** The last sequence number that is absent from the receipts after the creation receipt. */
    function Base(): nat {
      if Pruned().Some? then Pruned().value else 0
    }
  }

  datatype Checkpoint = Checkpoint(
    root: Text, revision: nat, record: RootRecord, retention: Retention,
    nextReceipt: nat, receipts: seq<Receipt>, tombstones: seq<EventTombstone>,
    pending: seq<PendingEffect>, nextTerminal: nat, terminals: seq<TerminalEffect>, compacted: seq<EffectTombstone>)

  // ------------------------------------------------------------------------------------------
  // Mailboxes
  // ------------------------------------------------------------------------------------------

  function Mail(runtime: Runtime): multiset<Entry> {
    multiset(runtime.ready) + multiset(runtime.deferred)
  }

  /** All mailbox entries of a list of runtimes. */
  function MailOf(runtimes: seq<Runtime>): multiset<Entry> {
    if runtimes == [] then multiset{} else Mail(runtimes[0]) + MailOf(runtimes[1..])
  }

  /** The live entries of a checkpoint; a tombstoned root has none. */
  function Live(cp: Checkpoint): multiset<Entry> {
    match cp.record
    case Retained(aggregate) => MailOf(aggregate.runtimes)
    case Tombstoned(_, _, _, _, _) => multiset{}
  }

  predicate IsLive(cp: Checkpoint, id: Text) {
    exists e :: e in Live(cp) && e.Id() == id
  }

  predicate IsRuntime(runtimes: seq<Runtime>, id: Text) {
    exists i :: 0 <= i < |runtimes| && runtimes[i].id == id
  }

  function CurrentDigest(cp: Checkpoint): AggregateDigest {
    match cp.record
    case Retained(aggregate) => AggregateDigest(aggregate)
    case Tombstoned(_, _, _, final, _) => final
  }

  function RecordedCreation(cp: Checkpoint): Text {
    match cp.record
    case Retained(aggregate) => aggregate.creationId
    case Tombstoned(_, creationId, _, _, _) => creationId
  }
}
