/**
 The operations on an execution checkpoint, as functions from the current checkpoint to an
 answer: a replacement, retained evidence, or a failure.

 Receipts are kept in sequence order throughout, so the sort that seals a checkpoint is the
 identity on every checkpoint that satisfies the invariant.
 */
module CheckpointOps {
  import opened Wrappers
  import opened CheckpointModel
  import opened CheckpointValidity
  import opened WireCore
  import opened AdmissionProofs

  datatype Failure =
    | MalformedDelivery
    | WrongRoot
    | DuplicateEventIdInBatch
    | EventIdConflict
    | TombstonedRoot
    | TerminalRoot
    | IncompatibleBundle
    | RevisionConflict
    | InvalidCheckpoint
    | InvalidDeliverySource
    | InvalidInstanceTarget
    | InvalidDelivery
    | DeliveryDigestMismatch
    | EmptyMailbox
    | EffectIdConflict
    | OperationIdConflict
    | CreationIdConflict
    | RefusedByStore

  datatype Location = InReady | InDeferred

  /** What is retained about a known event and handed out on redelivery. */
  datatype Evidence =
    | ByReceipt(receipt: Receipt)
    | ByEntry(eventId: Text, acceptance: nat, location: Location)
    | ByTombstone(tombstone: EventTombstone)

  datatype Identity = Identity(digest: EnvelopeDigest, evidence: Evidence)

  datatype Member =
    | ReplayedMember(eventId: Text, evidence: Evidence)
    | AcceptedMember(eventId: Text, acceptance: nat, queue: nat)

  datatype Answer =
    | Next(next: Checkpoint)
    | Batch(next: Checkpoint, members: seq<Member>)
    | Replayed(evidence: Evidence)
    | Declined

  /** The checkpoint that is current after the answer. */
  function After(cp: Checkpoint, answer: Result<Answer, Failure>): Checkpoint {
    match answer
    case Ok(Next(next)) => next
    case Ok(Batch(next, _)) => next
    case _ => cp
  }

  /** An optional expectation about the current revision and content. */
  datatype Guard = Guard(revision: Option<nat>, content: Option<Checkpoint>)

  predicate Holds(g: Guard, cp: Checkpoint) {
    && (g.revision.Some? ==> g.revision.value == cp.revision)
    && (g.content.Some? ==> g.content.value == cp)
  }

  // ------------------------------------------------------------------------------------------
  // Retained identity
  // ------------------------------------------------------------------------------------------

  /** The acceptance receipt of an event: the last one, as in a map filled in order. */
  function AcceptanceOf(rs: seq<Receipt>, id: Text): Option<Receipt> {
    if rs == [] then None
    else
      var r := rs[|rs| - 1];
      if r.Acceptance? && r.eventId == id then Some(r) else AcceptanceOf(rs[..|rs| - 1], id)
  }

  function EntryIdentity(rs: seq<Receipt>, e: Entry, location: Location): Identity {
    var a := AcceptanceOf(rs, e.Id());
    Identity(e.digest, if a.Some? then ByReceipt(a.value) else ByEntry(e.Id(), e.acceptance, location))
  }

  function TerminalIdentity(rs: seq<Receipt>, t: Receipt): Identity
    requires t.Terminal?
  {
    var a := AcceptanceOf(rs, t.eventId);
    Identity(t.request', ByReceipt(if a.Some? && a.value.Acceptance? && a.value.acceptance == t.acceptance then a.value else t))
  }

  function BoxIdentities(rs: seq<Receipt>, box: seq<Entry>, location: Location, m: map<Text, Identity>): map<Text, Identity> {
    if box == [] then m
    else
      var e := box[|box| - 1];
      BoxIdentities(rs, box[..|box| - 1], location, m)[e.Id() := EntryIdentity(rs, e, location)]
  }

  function RuntimeIdentities(rs: seq<Receipt>, runtimes: seq<Runtime>, m: map<Text, Identity>): map<Text, Identity> {
    if runtimes == [] then m
    else
      var r := runtimes[|runtimes| - 1];
      var before := RuntimeIdentities(rs, runtimes[..|runtimes| - 1], m);
      BoxIdentities(rs, r.deferred, InDeferred, BoxIdentities(rs, r.ready, InReady, before))
  }

  function TerminalIdentities(all: seq<Receipt>, rs: seq<Receipt>, m: map<Text, Identity>): map<Text, Identity> {
    if rs == [] then m
    else
      var r := rs[|rs| - 1];
      var before := TerminalIdentities(all, rs[..|rs| - 1], m);
      if r.Terminal? then before[r.eventId := TerminalIdentity(all, r)] else before
  }

  function TombstoneIdentities(ts: seq<EventTombstone>, m: map<Text, Identity>): map<Text, Identity> {
    if ts == [] then m
    else
      var t := ts[|ts| - 1];
      TombstoneIdentities(ts[..|ts| - 1], m)[t.eventId := Identity(t.request, ByTombstone(t))]
  }

  /** Everything known about events: live entries, then terminal receipts, then tombstones. */
  function RetainedIdentity(cp: Checkpoint): map<Text, Identity> {
    var live :=
      match cp.record
      case Retained(aggregate) => RuntimeIdentities(cp.receipts, aggregate.runtimes, map[])
      case Tombstoned(_, _, _, _, _) => map[];
    TombstoneIdentities(cp.tombstones, TerminalIdentities(cp.receipts, cp.receipts, live))
  }

  // ------------------------------------------------------------------------------------------
  // Admission
  // ------------------------------------------------------------------------------------------

  function DigestOf(root: Text, d: Delivery): EnvelopeDigest {
    EnvelopeDigest(root, d.mode, d.envelope)
  }

  /** The first delivery that repeats an id of the batch or contradicts retained evidence. */
  function FirstProblem(known: map<Text, Identity>, root: Text, ds: seq<Delivery>): Option<Failure> {
    if ds == [] then None
    else
      var init, d := ds[..|ds| - 1], ds[|ds| - 1];
      var earlier := FirstProblem(known, root, init);
      if earlier.Some? then earlier
      else if exists j :: 0 <= j < |init| && init[j].envelope.eventId == d.envelope.eventId then Some(DuplicateEventIdInBatch)
      else if d.envelope.eventId in known && known[d.envelope.eventId].digest != DigestOf(root, d) then Some(EventIdConflict)
      else None
  }

  /** The deliveries about which nothing is known. */
  function Unknown(known: map<Text, Identity>, ds: seq<Delivery>): seq<Delivery> {
    if ds == [] then []
    else
      var d := ds[|ds| - 1];
      var rest := Unknown(known, ds[..|ds| - 1]);
      if d.envelope.eventId in known then rest else rest + [d]
  }

  /** Host input names itself as cause; internal deliveries name a retained runtime or a fitting system locator. */
  predicate SourceAllowed(a: Aggregate, d: Delivery) {
    match d.mode
    case Input => d.envelope.source == HostSource && d.envelope.causeId == d.envelope.eventId
    case Internal =>
      match d.envelope.source
      case HostSource => false
      case RuntimeSource(origin) => exists i :: 0 <= i < |a.runtimes| && origin == Target(a.root, a.runtimes[i].id)
      case SystemSource(locator) => LocatorMatches(locator, d.envelope.event)
  }

  /** `accepts` is the definition's verdict on event, payload and correlation. */
  function CoreAdmit(a: Aggregate, ds: seq<Delivery>, accepts: Envelope -> bool): Result<Aggregate, Failure> {
    if exists k :: 0 <= k < |ds| && !SourceAllowed(a, ds[k]) then Err(InvalidDeliverySource)
    else if exists k :: 0 <= k < |ds| && !Targeted(a, ds[k]) then Err(InvalidInstanceTarget)
    else if exists k :: 0 <= k < |ds| && !accepts(ds[k].envelope) then Err(InvalidDelivery)
    else if exists k :: 0 <= k < |ds| && ds[k].digest != DigestOf(a.root, ds[k]) then Err(DeliveryDigestMismatch)
    else
      assert forall k :: 0 <= k < |ds| ==> Targeted(a, ds[k]);
      Ok(EnqueueAll(a, ds))
  }

  /** The acceptance receipts for freshly admitted deliveries. */
  function AcceptanceReceipts(cp: Checkpoint, a: Aggregate, ds: seq<Delivery>): seq<Receipt> {
    seq(|ds|, k requires 0 <= k < |ds| =>
      Acceptance(cp.nextReceipt + k, ds[k].envelope.eventId, ds[k].digest, a.nextAcceptance + k, cp.revision + 1, ds[k].mode))
  }

  function AdmitInto(cp: Checkpoint, a: Aggregate, next: Aggregate, ds: seq<Delivery>): Checkpoint {
    cp.(revision := cp.revision + 1,
        record := Retained(next),
        nextReceipt := cp.nextReceipt + |ds|,
        receipts := cp.receipts + AcceptanceReceipts(cp, a, ds))
  }

  /** One member per delivery, in batch order. */
  function Members(known: map<Text, Identity>, a: Option<Aggregate>, ds: seq<Delivery>): seq<Member> {
    if ds == [] then []
    else
      var d := ds[|ds| - 1];
      var rest := Members(known, a, ds[..|ds| - 1]);
      var id := d.envelope.eventId;
      if id in known then rest + [ReplayedMember(id, known[id].evidence)]
      else if a.Some? then
        var k := |Unknown(known, ds[..|ds| - 1])|;
        rest + [AcceptedMember(id, a.value.nextAcceptance + k, a.value.nextQueue + k)]
      else rest
  }

  function Admit(cp: Checkpoint, bundle: Option<Text>, ds: seq<Delivery>, g: Guard, accepts: Envelope -> bool): Result<Answer, Failure> {
    if ds == [] then Err(MalformedDelivery)
    else if exists k :: 0 <= k < |ds| && ds[k].envelope.target.root != cp.root then Err(WrongRoot)
    else
      var known := RetainedIdentity(cp);
      var problem := FirstProblem(known, cp.root, ds);
      if problem.Some? then Err(problem.value)
      else
        var unseen := Unknown(known, ds);
        if unseen == [] then
          if |ds| == 1 && ds[0].envelope.eventId in known then Ok(Replayed(known[ds[0].envelope.eventId].evidence))
          else Ok(Batch(cp, Members(known, None, ds)))
        else if cp.record.Tombstoned? then Err(TombstonedRoot)
        else
          var a := cp.record.aggregate;
          if StatusOf(a.runtimes, a.rootRuntime) != Some(Running) then Err(TerminalRoot)
          else if bundle.None? then Err(TerminalRoot)
          else if a.fingerprint != bundle.value then Err(IncompatibleBundle)
          else if !Holds(g, cp) then Err(RevisionConflict)
          else
            match CoreAdmit(a, unseen, accepts)
            case Err(failure) => Err(failure)
            case Ok(next) =>
              var admitted := AdmitInto(cp, a, next, unseen);
              if |ds| == 1 then Ok(Next(admitted)) else Ok(Batch(admitted, Members(known, Some(a), ds)))
  }

  // ------------------------------------------------------------------------------------------
  // Step
  // ------------------------------------------------------------------------------------------

  /** All entries in document order. */
  function Flat(rs: seq<Runtime>): seq<Entry> {
    if rs == [] then [] else Flat(rs[..|rs| - 1]) + Box(rs[|rs| - 1])
  }

  /** The live entries in document order. */
  function LiveEntries(cp: Checkpoint): seq<Entry> {
    match cp.record
    case Retained(aggregate) => Flat(aggregate.runtimes)
    case Tombstoned(_, _, _, _, _) => []
  }

  /** The queue number of every internal entry, by event id and acceptance number. */
  function QueueMap(es: seq<Entry>): map<(Text, nat), nat> {
    if es == [] then map[]
    else
      var e := es[|es| - 1];
      var before := QueueMap(es[..|es| - 1]);
      if e.mode.Internal? then before[(e.Id(), e.acceptance) := e.queue] else before
  }

  function SyncRef(q: map<(Text, nat), nat>, r: Reference): Reference {
    if r.MailboxRef? && (r.eventId, r.acceptance) in q then r.(queue := q[(r.eventId, r.acceptance)]) else r
  }

  function RewriteRef(t: map<Text, nat>, r: Reference): Reference {
    if r.MailboxRef? && r.eventId in t then TerminalRef(r.index, r.eventId, r.acceptance, t[r.eventId]) else r
  }

  function SyncReceipt(q: map<(Text, nat), nat>, r: Receipt): Receipt {
    if r.Acceptance? then r
    else r.(refs := seq(|r.refs|, k requires 0 <= k < |r.refs| => SyncRef(q, r.refs[k])))
  }

  function RewriteReceipt(t: map<Text, nat>, r: Receipt): Receipt {
    if r.Acceptance? then r
    else r.(refs := seq(|r.refs|, k requires 0 <= k < |r.refs| => RewriteRef(t, r.refs[k])))
  }

  /** Mailbox references take over the queue numbers of the entries that they name. */
  function SyncAll(q: map<(Text, nat), nat>, rs: seq<Receipt>): seq<Receipt> {
    seq(|rs|, i requires 0 <= i < |rs| => SyncReceipt(q, rs[i]))
  }

  /** Mailbox references to ended events become terminal references. */
  function RewriteAll(t: map<Text, nat>, rs: seq<Receipt>): seq<Receipt> {
    seq(|rs|, i requires 0 <= i < |rs| => RewriteReceipt(t, rs[i]))
  }

  predicate EffectRetained(cp: Checkpoint, effect: Text) {
    || (exists i :: 0 <= i < |cp.pending| && cp.pending[i].intent.effectId == effect)
    || (exists i :: 0 <= i < |cp.terminals| && cp.terminals[i].intent.effectId == effect)
    || (exists i :: 0 <= i < |cp.compacted| && cp.compacted[i].effectId == effect)
  }

  /** An emitted effect id that is already retained, or emitted twice. */
  predicate EffectRepeated(cp: Checkpoint, emitted: seq<Emitted>) {
    || (exists k :: 0 <= k < |emitted| && emitted[k].ToOutbox? && EffectRetained(cp, emitted[k].intent.effectId))
    || (exists k, l :: 0 <= k < l < |emitted| && emitted[k].ToOutbox? && emitted[l].ToOutbox?
                    && emitted[k].intent.effectId == emitted[l].intent.effectId)
  }

  /** The pending outbox records of the emitted effects. */
  function Pendings(emitted: seq<Emitted>, revision: nat): seq<PendingEffect> {
    if emitted == [] then []
    else
      var m := emitted[|emitted| - 1];
      var before := Pendings(emitted[..|emitted| - 1], revision);
      if m.ToOutbox? then before + [PendingEffect(m.intent, revision, NotAttempted)] else before
  }

  /** `first` is the receipt sequence of the first disposal. */
  function RefOf(m: Emitted, first: nat): Reference {
    match m
    case ToOutbox(index, intent) => OutboxRef(index, intent.effectId)
    case ToMailbox(index, eventId, acceptance, queue) => MailboxRef(index, eventId, acceptance, queue)
    case ToDisposal(index, eventId, acceptance, lifecycle) => TerminalRef(index, eventId, acceptance, first + lifecycle)
  }

  function RefsOf(emitted: seq<Emitted>, first: nat): seq<Reference> {
    seq(|emitted|, k requires 0 <= k < |emitted| => RefOf(emitted[k], first))
  }

  function LifecycleReceipt(l: Lifecycle, sequence: nat, revision: nat, digest: AggregateDigest, status: Status): Receipt {
    Terminal(sequence, l.entry.Id(), l.entry.digest, l.entry.acceptance, l.entry.queue, revision, digest,
             Outcome(status, Disposed(l.reason)), [])
  }

  function LifecycleReceipts(ls: seq<Lifecycle>, first: nat, revision: nat, digest: AggregateDigest, status: Status): seq<Receipt> {
    seq(|ls|, l requires 0 <= l < |ls| => LifecycleReceipt(ls[l], first + l, revision, digest, status))
  }

  /** Which receipt ends which event; the first one wins. */
  function EndedBy(ls: seq<Lifecycle>, first: nat, t: map<Text, nat>): map<Text, nat> {
    if ls == [] then t
    else
      var before := EndedBy(ls[..|ls| - 1], first, t);
      var id := ls[|ls| - 1].entry.Id();
      if id in before then before else before[id := first + |ls| - 1]
  }

  function RootStatus(a: Aggregate): Status {
    var s := StatusOf(a.runtimes, a.rootRuntime);
    if s.Some? then s.value else Running
  }

  function CausalReceipt(causal: Entry, sequence: nat, revision: nat, state: Aggregate, disposition: Disposition, refs: seq<Reference>): Receipt {
    Terminal(sequence, causal.Id(), causal.digest, causal.acceptance, causal.queue, revision, AggregateDigest(state),
             Outcome(RootStatus(state), disposition), refs)
  }

  /** The checkpoint after a committed step on `causal`. */
  function CommitStep(cp: Checkpoint, causal: Entry, state: Aggregate, disposition: Disposition, emitted: seq<Emitted>, lifecycle: seq<Lifecycle>): Checkpoint {
    var revision := cp.revision + 1;
    var first := cp.nextReceipt + 1;
    var terminal := CausalReceipt(causal, cp.nextReceipt, revision, state, disposition, RefsOf(emitted, first));
    var ended := EndedBy(lifecycle, first, if causal.envelope.source.HostSource? then map[] else map[causal.Id() := cp.nextReceipt]);
    cp.(revision := revision,
        record := Retained(state),
        nextReceipt := first + |lifecycle|,
        pending := cp.pending + Pendings(emitted, revision),
        receipts := RewriteAll(ended, SyncAll(QueueMap(Flat(state.runtimes)), cp.receipts) + [terminal])
                    + LifecycleReceipts(lifecycle, first, revision, AggregateDigest(state), RootStatus(state)))
  }

  /** The receipts of a commit before any reference is rewritten. */
  function CommitBase(cp: Checkpoint, causal: Entry, state: Aggregate, disposition: Disposition, emitted: seq<Emitted>): seq<Receipt> {
    SyncAll(QueueMap(Flat(state.runtimes)), cp.receipts)
    + [CausalReceipt(causal, cp.nextReceipt, cp.revision + 1, state, disposition, RefsOf(emitted, cp.nextReceipt + 1))]
  }

  /** How many of the mailbox references are about the event. */
  function RefMatches(refs: seq<Reference>, id: Text): nat {
    if refs == [] then 0
    else
      var last := refs[|refs| - 1];
      RefMatches(refs[..|refs| - 1], id) + if last.MailboxRef? && last.eventId == id then 1 else 0
  }

  function Matches(rs: seq<Receipt>, id: Text): nat {
    if rs == [] then 0 else Matches(rs[..|rs| - 1], id) + RefMatches(rs[|rs| - 1].Refs(), id)
  }

  /** An event that the commit ends has several producers. */
  predicate SeveralProducers(base: seq<Receipt>, causal: Entry, lifecycle: seq<Lifecycle>) {
    || (!causal.envelope.source.HostSource? && Matches(base, causal.Id()) > 1)
    || (exists l :: 0 <= l < |lifecycle| && Matches(base, lifecycle[l].entry.Id()) > 1)
  }

  /** The checkpoint after a deferred step. */
  function CommitDeferral(cp: Checkpoint, state: Aggregate): Checkpoint {
    cp.(revision := cp.revision + 1,
        record := Retained(state),
        receipts := SyncAll(QueueMap(Flat(state.runtimes)), cp.receipts))
  }

  function ApplyStep(cp: Checkpoint, causal: Entry, result: StepResult): Result<Answer, Failure> {
    match result
    case NotRunnable => Ok(Declined)
    case Rejected => Ok(Declined)
    case Deferred(state) => Ok(Next(CommitDeferral(cp, state)))
    case Committed(state, disposition, emitted, lifecycle) =>
      if EffectRepeated(cp, emitted) || SeveralProducers(CommitBase(cp, causal, state, disposition, emitted), causal, lifecycle) then Err(InvalidCheckpoint)
      else Ok(Next(CommitStep(cp, causal, state, disposition, emitted, lifecycle)))
  }

  datatype StepRequest = StepRequest(runtime: Text, eventId: Text, digest: EnvelopeDigest, acceptance: nat, queue: nat)

  function FindTerminal(rs: seq<Receipt>, id: Text): (i: nat)
    ensures i <= |rs|
    ensures i < |rs| ==> rs[i].Terminal? && rs[i].eventId == id
    ensures i == |rs| ==> !Ended(rs, id)
  {
    if rs == [] then 0
    else if rs[0].Terminal? && rs[0].eventId == id then 0
    else 1 + FindTerminal(rs[1..], id)
  }

  function FindTombstone(ts: seq<EventTombstone>, id: Text): (i: nat)
    ensures i <= |ts|
    ensures i < |ts| ==> ts[i].eventId == id
    ensures i == |ts| ==> !Buried(ts, id)
  {
    if ts == [] then 0
    else if ts[0].eventId == id then 0
    else 1 + FindTombstone(ts[1..], id)
  }

  /** Retained evidence about the requested event, if it has ended. */
  function StepReplay(cp: Checkpoint, q: StepRequest): Result<Option<Evidence>, Failure> {
    var i := FindTerminal(cp.receipts, q.eventId);
    var j := FindTombstone(cp.tombstones, q.eventId);
    if i < |cp.receipts| then
      var t := cp.receipts[i];
      if t.request' == q.digest && t.acceptance == q.acceptance && t.finalQueue == q.queue then Ok(Some(ByReceipt(t)))
      else Err(EventIdConflict)
    else if j < |cp.tombstones| then
      var t := cp.tombstones[j];
      if t.request == q.digest && t.acceptance == q.acceptance then Ok(Some(ByTombstone(t)))
      else Err(EventIdConflict)
    else Ok(None)
  }

  predicate Requests(q: StepRequest, e: Entry) {
    e.Id() == q.eventId && e.digest == q.digest && e.acceptance == q.acceptance && e.queue == q.queue
  }

  function StepCheckpoint(cp: Checkpoint, bundle: Text, q: StepRequest, g: Guard, dispatch: Dispatch): Result<Answer, Failure> {
    match StepReplay(cp, q)
    case Err(failure) => Err(failure)
    case Ok(Some(evidence)) => Ok(Replayed(evidence))
    case Ok(None) =>
      if !Holds(g, cp) then Err(RevisionConflict)
      else if cp.record.Tombstoned? then Err(TerminalRoot)
      else
        var a := cp.record.aggregate;
        if a.fingerprint != bundle then Err(IncompatibleBundle)
        else
          var i := Find(a.runtimes, q.runtime);
          if i == |a.runtimes| then Err(InvalidInstanceTarget)
          else if a.runtimes[i].ready == [] then Err(EmptyMailbox)
          else
            var causal := a.runtimes[i].ready[0];
            if !Requests(q, causal) then Err(InvalidCheckpoint)
            else ApplyStep(cp, causal, Step(a, q.runtime, dispatch))
  }

  // ------------------------------------------------------------------------------------------
  // Process: admission and step in one commit
  // ------------------------------------------------------------------------------------------

  /** The first runtime whose ready mailbox holds the event. */
  function FindReady(rs: seq<Runtime>, id: Text): (i: nat)
    ensures i <= |rs|
    ensures i < |rs| ==> rs[i].ready != []
  {
    if rs == [] then 0
    else if exists k :: 0 <= k < |rs[0].ready| && rs[0].ready[k].Id() == id then 0
    else 1 + FindReady(rs[1..], id)
  }

  /** Receipts and pending records from `next` on carry the one revision of the commit. */
  function CollapseReceipt(r: Receipt, next: nat, revision: nat): Receipt {
    if r.sequence < next then r else r.(revision := revision)
  }

  function CollapsePending(p: PendingEffect, current: nat): PendingEffect {
    if p.revision > current then p.(revision := current + 1) else p
  }

  function Collapse(cp: Checkpoint, stepped: Checkpoint): Checkpoint {
    stepped.(
      revision := cp.revision + 1,
      receipts := seq(|stepped.receipts|, i requires 0 <= i < |stepped.receipts| =>
                    CollapseReceipt(stepped.receipts[i], cp.nextReceipt, cp.revision + 1)),
      pending := seq(|stepped.pending|, i requires 0 <= i < |stepped.pending| =>
                   CollapsePending(stepped.pending[i], cp.revision)))
  }

  function ProcessReplay(cp: Checkpoint, d: Delivery): Result<Option<Evidence>, Failure> {
    if d.envelope.target.root != cp.root then Err(WrongRoot)
    else
      var known := RetainedIdentity(cp);
      var id := d.envelope.eventId;
      if id !in known then Ok(None)
      else if known[id].digest != DigestOf(cp.root, d) || known[id].digest != d.digest then Err(EventIdConflict)
      else
        var i := FindTerminal(cp.receipts, id);
        if i < |cp.receipts| then Ok(Some(ByReceipt(cp.receipts[i]))) else Ok(Some(known[id].evidence))
  }

  /** Admission, step and collapse, before the collapsed checkpoint is validated. */
  function ProcessCandidate(cp: Checkpoint, bundle: Text, d: Delivery, g: Guard, accepts: Envelope -> bool, dispatch: Dispatch): Result<Answer, Failure> {
    match ProcessReplay(cp, d)
    case Err(failure) => Err(failure)
    case Ok(Some(evidence)) => Ok(Replayed(evidence))
    case Ok(None) =>
      if !Holds(g, cp) then Err(RevisionConflict)
      else
        match Admit(cp, Some(bundle), [d], g, accepts)
        case Err(failure) => Err(failure)
        case Ok(Batch(next, members)) => Ok(Batch(next, members))
        case Ok(Replayed(evidence)) => Ok(Replayed(evidence))
        case Ok(Declined) => Ok(Declined)
        case Ok(Next(admitted)) =>
          if !admitted.record.Retained? then Err(InvalidCheckpoint)
          else
            var a := admitted.record.aggregate;
            var i := FindReady(a.runtimes, d.envelope.eventId);
            if i == |a.runtimes| then Err(InvalidCheckpoint)
            else
              match ApplyStep(admitted, a.runtimes[i].ready[0], Step(a, a.runtimes[i].id, dispatch))
              case Ok(Next(stepped)) => Ok(Next(Collapse(cp, stepped)))
              case other => other
  }

  /** Processing a delivery in one commit; validation has the last word. */
  ghost function Process(cp: Checkpoint, bundle: Text, d: Delivery, g: Guard, accepts: Envelope -> bool, dispatch: Dispatch): Result<Answer, Failure> {
    match ProcessCandidate(cp, bundle, d, g, accepts, dispatch)
    case Ok(Next(next)) => if Valid(next) then Ok(Next(next)) else Err(InvalidCheckpoint)
    case other => other
  }

  // ------------------------------------------------------------------------------------------
  // Pruning
  // ------------------------------------------------------------------------------------------

  datatype PruneRequest = PruneRequest(cutoff: nat, policy: Text)

  predicate Removable(r: Receipt, cutoff: nat) {
    r.sequence != 0 && r.sequence <= cutoff
  }

  function Retain(rs: seq<Receipt>, cutoff: nat): seq<Receipt> {
    if rs == [] then []
    else
      var r := rs[|rs| - 1];
      var before := Retain(rs[..|rs| - 1], cutoff);
      if Removable(r, cutoff) then before else before + [r]
  }

  /** The tombstones of the removed terminal receipts. */
  function Bury(rs: seq<Receipt>, cutoff: nat): seq<EventTombstone> {
    if rs == [] then []
    else
      var r := rs[|rs| - 1];
      var before := Bury(rs[..|rs| - 1], cutoff);
      if Removable(r, cutoff) && r.Terminal? then
        before + [EventTombstone(r.eventId, r.request', r.acceptance, r.sequence, r.outcome.disposition)]
      else before
  }

  /** No removed receipt is still needed: its event has ended with it, and it produced no live entry. */
  predicate PruneAllowed(rs: seq<Receipt>, cutoff: nat, prior: Option<nat>) {
    forall i :: 0 <= i < |rs| && Removable(rs[i], cutoff) ==>
      && (rs[i].Acceptance? ==>
            exists j :: 0 <= j < |rs| && Removable(rs[j], cutoff) && rs[j].Terminal? && rs[j].eventId == rs[i].eventId)
      && (forall k :: 0 <= k < |rs[i].Refs()| ==> !rs[i].Refs()[k].MailboxRef?)
      && (rs[i].Terminal? ==>
            || (exists j :: 0 <= j < |rs| && Removable(rs[j], cutoff) && rs[j].Acceptance? && rs[j].eventId == rs[i].eventId)
            || (exists j, k :: 0 <= j < |rs| && 0 <= k < |rs[j].Refs()| && rs[j].Refs()[k].TerminalRef?
                            && rs[j].Refs()[k].terminal == rs[i].sequence)
            || (prior.Some? && prior.value < rs[i].sequence))
  }

  /** A removed receipt produced an effect that is still pending. */
  predicate PrunesPending(cp: Checkpoint, cutoff: nat) {
    exists i, k, p ::
      && 0 <= i < |cp.receipts| && Removable(cp.receipts[i], cutoff)
      && 0 <= k < |cp.receipts[i].Refs()| && cp.receipts[i].Refs()[k].OutboxRef?
      && 0 <= p < |cp.pending| && cp.pending[p].intent.effectId == cp.receipts[i].Refs()[k].effectId
  }

  function RetainTerminals(rs: seq<Receipt>, ts: seq<TerminalEffect>): seq<TerminalEffect> {
    if ts == [] then []
    else
      var t := ts[|ts| - 1];
      var before := RetainTerminals(rs, ts[..|ts| - 1]);
      if Referenced(rs, t.intent.effectId) then before + [t] else before
  }

  function RetainCompacted(rs: seq<Receipt>, ts: seq<EffectTombstone>): seq<EffectTombstone> {
    if ts == [] then []
    else
      var t := ts[|ts| - 1];
      var before := RetainCompacted(rs, ts[..|ts| - 1]);
      if Referenced(rs, t.effectId) then before + [t] else before
  }

  function PruneTo(cp: Checkpoint, q: PruneRequest): Checkpoint {
    var kept := Retain(cp.receipts, q.cutoff);
    cp.(revision := cp.revision + 1,
        retention := Bounded(Some(q.cutoff), q.policy),
        receipts := kept,
        tombstones := cp.tombstones + Bury(cp.receipts, q.cutoff),
        terminals := RetainTerminals(kept, cp.terminals),
        compacted := RetainCompacted(kept, cp.compacted))
  }

  function Prune(cp: Checkpoint, q: PruneRequest, g: Guard): Result<Answer, Failure> {
    var prior := cp.retention.Pruned();
    if q.policy == [] || (cp.retention.Bounded? && cp.retention.policy != q.policy) then Err(InvalidCheckpoint)
    else if prior == Some(q.cutoff) then Ok(Next(cp))
    else if !Holds(g, cp) then Err(RevisionConflict)
    else if q.cutoff >= cp.nextReceipt then Err(InvalidCheckpoint)
    else if prior.Some? && prior.value > q.cutoff then Err(InvalidCheckpoint)
    else if !(exists i :: 0 <= i < |cp.receipts| && Removable(cp.receipts[i], q.cutoff)) then Err(InvalidCheckpoint)
    else if !PruneAllowed(cp.receipts, q.cutoff, prior) then Err(InvalidCheckpoint)
    else if PrunesPending(cp, q.cutoff) then Err(InvalidCheckpoint)
    else Ok(Next(PruneTo(cp, q)))
  }

  // ------------------------------------------------------------------------------------------
  // Outbox
  // ------------------------------------------------------------------------------------------

  function FindPending(ps: seq<PendingEffect>, effect: Text): (i: nat)
    ensures i <= |ps|
    ensures i < |ps| ==> ps[i].intent.effectId == effect
    ensures i == |ps| ==> forall j :: 0 <= j < |ps| ==> ps[j].intent.effectId != effect
  {
    if ps == [] then 0
    else if ps[0].intent.effectId == effect then 0
    else 1 + FindPending(ps[1..], effect)
  }

  function FindEffect(ts: seq<TerminalEffect>, effect: Text): (i: nat)
    ensures i <= |ts|
    ensures i < |ts| ==> ts[i].intent.effectId == effect
    ensures i == |ts| ==> forall j :: 0 <= j < |ts| ==> ts[j].intent.effectId != effect
  {
    if ts == [] then 0
    else if ts[0].intent.effectId == effect then 0
    else 1 + FindEffect(ts[1..], effect)
  }

  function FindCompacted(ts: seq<EffectTombstone>, effect: Text): (i: nat)
    ensures i <= |ts|
    ensures i < |ts| ==> ts[i].effectId == effect
    ensures i == |ts| ==> forall j :: 0 <= j < |ts| ==> ts[j].effectId != effect
  {
    if ts == [] then 0
    else if ts[0].effectId == effect then 0
    else 1 + FindCompacted(ts[1..], effect)
  }

  function UpdatePending(cp: Checkpoint, effect: Text, state: DeliveryState, g: Guard): Result<Answer, Failure> {
    var i := FindPending(cp.pending, effect);
    if i == |cp.pending| then Err(EffectIdConflict)
    else if cp.pending[i].state == state then Ok(Next(cp))
    else if !Holds(g, cp) then Err(RevisionConflict)
    else
      Ok(Next(cp.(revision := cp.revision + 1,
                  pending := cp.pending[i := PendingEffect(cp.pending[i].intent, cp.revision + 1, state)])))
  }

  function Terminalize(cp: Checkpoint, effect: Text, outcome: EffectOutcome, g: Guard): Result<Answer, Failure> {
    var t, c, p := FindEffect(cp.terminals, effect), FindCompacted(cp.compacted, effect), FindPending(cp.pending, effect);
    if t < |cp.terminals| then
      if cp.terminals[t].outcome == outcome then Ok(Next(cp)) else Err(EffectIdConflict)
    else if c < |cp.compacted| then
      if cp.compacted[c].outcome == outcome then Ok(Next(cp)) else Err(EffectIdConflict)
    else if !Holds(g, cp) then Err(RevisionConflict)
    else if p == |cp.pending| then Err(EffectIdConflict)
    else
      Ok(Next(cp.(revision := cp.revision + 1,
                  pending := cp.pending[..p] + cp.pending[p + 1..],
                  nextTerminal := cp.nextTerminal + 1,
                  terminals := cp.terminals + [TerminalEffect(cp.nextTerminal, cp.pending[p].intent, cp.revision + 1, outcome)])))
  }

  /** Puts `t` in its place in the order of terminal sequence numbers. */
  function InsertCompacted(ts: seq<EffectTombstone>, t: EffectTombstone): seq<EffectTombstone> {
    if ts == [] then [t]
    else if ts[|ts| - 1].terminal <= t.terminal then ts + [t]
    else InsertCompacted(ts[..|ts| - 1], t) + [ts[|ts| - 1]]
  }

  function TombstoneOf(root: Text, t: TerminalEffect): EffectTombstone {
    EffectTombstone(t.terminal, t.intent.effectId, IntentDigest(root, t.intent), t.revision, t.outcome)
  }

  function Compact(cp: Checkpoint, effect: Text, g: Guard): Result<Answer, Failure> {
    var t := FindEffect(cp.terminals, effect);
    if FindCompacted(cp.compacted, effect) < |cp.compacted| then Ok(Next(cp))
    else if !Holds(g, cp) then Err(RevisionConflict)
    else if t == |cp.terminals| then Err(EffectIdConflict)
    else
      Ok(Next(cp.(revision := cp.revision + 1,
                  terminals := cp.terminals[..t] + cp.terminals[t + 1..],
                  compacted := InsertCompacted(cp.compacted, TombstoneOf(cp.root, cp.terminals[t])))))
  }

  // ------------------------------------------------------------------------------------------
  // Root tombstone
  // ------------------------------------------------------------------------------------------

  function Buryings(es: seq<Entry>): seq<Lifecycle> {
    seq(|es|, k requires 0 <= k < |es| => Lifecycle(es[k], es[k].envelope.target.runtime, RootTombstoned))
  }

  function TombstoneInto(cp: Checkpoint, a: Aggregate, status: Status, operationId: Text): Checkpoint {
    var ls := Buryings(Flat(a.runtimes));
    cp.(revision := cp.revision + 1,
        record := Tombstoned(a.rootRuntime, a.creationId, status, AggregateDigest(a), operationId),
        nextReceipt := cp.nextReceipt + |ls|,
        receipts := RewriteAll(EndedBy(ls, cp.nextReceipt, map[]), cp.receipts)
                    + LifecycleReceipts(ls, cp.nextReceipt, cp.revision + 1, AggregateDigest(a), status))
  }

  function TombstoneRoot(cp: Checkpoint, operationId: Text, g: Guard): Result<Answer, Failure> {
    if operationId == [] then Err(InvalidCheckpoint)
    else
      match cp.record
      case Tombstoned(_, _, _, _, prior) => if prior == operationId then Ok(Next(cp)) else Err(OperationIdConflict)
      case Retained(a) =>
        if cp.pending != [] then Err(InvalidCheckpoint)
        else if !Holds(g, cp) then Err(RevisionConflict)
        else
          match StatusOf(a.runtimes, a.rootRuntime)
          case Some(Completed) => Ok(Next(TombstoneInto(cp, a, Completed, operationId)))
          case Some(Faulted) => Ok(Next(TombstoneInto(cp, a, Faulted, operationId)))
          case _ => Err(InvalidCheckpoint)
  }

  // ------------------------------------------------------------------------------------------
  // Creation
  // ------------------------------------------------------------------------------------------

  /** What the dispatcher reports for a created root. */
  datatype NativeRoot = NativeRoot(
    fingerprint: Text, rootRuntime: Text, runtimes: seq<NativeRuntime>, emissions: seq<Emission>, nextOutput: nat)

  function Bare(ns: seq<NativeRuntime>): seq<Runtime> {
    Merge([], ns)
  }

  function CreateCore(root: Text, creationId: Text, n: NativeRoot): Build {
    EmitAll(Build(Aggregate(root, creationId, n.fingerprint, n.rootRuntime, 0, 0, n.nextOutput, 1, Bare(n.runtimes)), [], []), n.emissions)
  }

  function CreateInto(root: Text, creationId: Text, request: Text, retention: Retention, b: Build): Checkpoint {
    var state := b.aggregate;
    var digest, status := AggregateDigest(state), RootStatus(state);
    Checkpoint(
      root, 0, Retained(state), retention, 1 + |b.lifecycle|,
      [Creation(0, creationId, request, 0, digest, status, RefsOf(b.emitted, 1))]
        + LifecycleReceipts(b.lifecycle, 1, 0, digest, status),
      [], Pendings(b.emitted, 0), 0, [], [])
  }

  /** A new checkpoint before its validation; an effect id that is emitted twice is refused at once. */
  function CreateCandidate(root: Text, creationId: Text, request: Text, retention: Retention, n: NativeRoot): Result<Checkpoint, Failure> {
    var b := CreateCore(root, creationId, n);
    var cp := CreateInto(root, creationId, request, retention, b);
    if EffectRepeated(cp.(pending := []), b.emitted) then Err(InvalidCheckpoint) else Ok(cp)
  }

  /** A new checkpoint, if validation accepts it. */
  ghost function Create(root: Text, creationId: Text, request: Text, retention: Retention, n: NativeRoot): Result<Checkpoint, Failure> {
    var candidate := CreateCandidate(root, creationId, request, retention, n);
    if candidate.Ok? && !Valid(candidate.value) then Err(InvalidCheckpoint) else candidate
  }
}
