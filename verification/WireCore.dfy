/**
 The queue-bearing core: admission into mailboxes and the mailbox part of one step.

 The dispatcher that runs a state machine on one event is a parameter: `Native` is what it
 reports. Everything that happens to mailbox entries and allocation counters is modelled.
 */
module WireCore {
  import opened Wrappers
  import opened CheckpointModel

  /** A runtime after dispatch; `recalls` are the events that it no longer defers. */
  datatype NativeRuntime = NativeRuntime(id: Text, status: Status, body: Text, recalls: set<Text>)

  datatype Emission =
    | External(index: nat, intent: Intent)
    | Send(index: nat, eventId: Text, causeId: Text, emitter: Text, system: Option<Text>, target: Text,
           event: Text, content: Text)

  /** What the dispatcher reports for one event. */
  datatype Native = Native(
    runtimes: seq<NativeRuntime>, disposition: Disposition, emissions: seq<Emission>, nextOutput: nat, nextStep: nat)

  /** The event was dispatched to completion, or deferred; beyond the capacity of its runtime a deferral is a fault. */
  datatype Dispatch =
    | Finished(native: Native)
    | Defer(capacity: Option<nat>, fault: Text, overflow: Native)

  /** A mailbox entry that is disposed of together with its runtime. */
  datatype Lifecycle = Lifecycle(entry: Entry, runtime: Text, reason: Reason)

  datatype Emitted =
    | ToOutbox(index: nat, intent: Intent)
    | ToMailbox(index: nat, eventId: Text, acceptance: nat, queue: nat)
    | ToDisposal(index: nat, eventId: Text, acceptance: nat, lifecycle: nat)

  datatype StepResult =
    | Committed(state: Aggregate, disposition: Disposition, emitted: seq<Emitted>, lifecycle: seq<Lifecycle>)
    | Deferred(state: Aggregate)
    | NotRunnable
    | Rejected

  // ------------------------------------------------------------------------------------------
  // Runtimes
  // ------------------------------------------------------------------------------------------

  predicate DistinctNatives(ns: seq<NativeRuntime>) {
    forall i, j :: 0 <= i < j < |ns| ==> ns[i].id != ns[j].id
  }

  predicate IsNative(ns: seq<NativeRuntime>, id: Text) {
    exists i :: 0 <= i < |ns| && ns[i].id == id
  }

  /** The position of the runtime named `id`, or the length of the list. */
  function Find(rs: seq<Runtime>, id: Text): (i: nat)
    ensures i <= |rs|
    ensures i < |rs| ==> rs[i].id == id
    ensures i == |rs| ==> !IsRuntime(rs, id)
  {
    if rs == [] then 0
    else if rs[0].id == id then 0
    else 1 + Find(rs[1..], id)
  }

  function StatusOf(rs: seq<Runtime>, id: Text): Option<Status> {
    var i := Find(rs, id);
    if i < |rs| then Some(rs[i].status) else None
  }

  /** The entries of a runtime, ready before deferred. */
  function Box(r: Runtime): seq<Entry> {
    r.ready + r.deferred
  }

  // ------------------------------------------------------------------------------------------
  // Admission
  // ------------------------------------------------------------------------------------------

  datatype Delivery = Delivery(mode: Mode, envelope: Envelope, digest: EnvelopeDigest)

  function Arrival(a: Aggregate, d: Delivery): Entry {
    Entry(a.nextAcceptance, a.nextQueue, d.mode, d.envelope, d.digest, 0)
  }

  /** Appends `e` to the ready mailbox of the runtime at position `i`. */
  function Push(rs: seq<Runtime>, i: nat, e: Entry): seq<Runtime>
    requires i < |rs|
  {
    rs[i := rs[i].(ready := rs[i].ready + [e])]
  }

  /** Allocates an acceptance and a queue number. */
  function Allocate(a: Aggregate): Aggregate {
    a.(nextAcceptance := a.nextAcceptance + 1, nextQueue := a.nextQueue + 1)
  }

  function Enqueue(a: Aggregate, d: Delivery): Aggregate
    requires Find(a.runtimes, d.envelope.target.runtime) < |a.runtimes|
  {
    Allocate(a).(runtimes := Push(a.runtimes, Find(a.runtimes, d.envelope.target.runtime), Arrival(a, d)))
  }

  // ------------------------------------------------------------------------------------------
  // One step
  // ------------------------------------------------------------------------------------------

  function RemoveHead(rs: seq<Runtime>, i: nat): seq<Runtime>
    requires i < |rs| && rs[i].ready != []
  {
    rs[i := rs[i].(ready := rs[i].ready[1..])]
  }

  /** Puts the ready head at the end of the deferred mailbox under a fresh queue number. */
  function DeferHead(a: Aggregate, i: nat): Aggregate
    requires i < |a.runtimes| && a.runtimes[i].ready != []
  {
    var r := a.runtimes[i];
    var e := r.ready[0].(queue := a.nextQueue, deferrals := r.ready[0].deferrals + 1);
    a.(nextQueue := a.nextQueue + 1,
       runtimes := a.runtimes[i := r.(ready := r.ready[1..], deferred := r.deferred + [e])])
  }

  /** A dispatched runtime with the mailboxes that the runtime of the same name had before. */
  function Carry(prior: seq<Runtime>, n: NativeRuntime): Runtime {
    var i := Find(prior, n.id);
    if i < |prior| then Runtime(n.id, n.status, prior[i].ready, prior[i].deferred, n.body)
    else Runtime(n.id, n.status, [], [], n.body)
  }

  function Merge(prior: seq<Runtime>, ns: seq<NativeRuntime>): seq<Runtime> {
    if ns == [] then [] else [Carry(prior, ns[0])] + Merge(prior, ns[1..])
  }

  function Without(box: seq<Entry>, id: Text): seq<Entry> {
    if box == [] then []
    else if box[0].Id() == id then Without(box[1..], id)
    else [box[0]] + Without(box[1..], id)
  }

  function Dispose(box: seq<Entry>, runtime: Text, reason: Reason): seq<Lifecycle> {
    if box == [] then [] else [Lifecycle(box[0], runtime, reason)] + Dispose(box[1..], runtime, reason)
  }

  predicate CompletedBy(emissions: seq<Emission>, runtime: Text) {
    exists k :: 0 <= k < |emissions| && emissions[k].Send? && emissions[k].event == "determa.component_completed"
             && emissions[k].emitter == runtime
  }

  /**
   The entries of runtimes that are gone, or of every runtime when the aggregate completed.
   `prior` still holds the causal entry, which is not disposed of; `merged` does not.
   */
  function DisposeRemoved(prior: seq<Runtime>, merged: seq<Runtime>, completed: bool, emissions: seq<Emission>, causal: Text): seq<Lifecycle> {
    if prior == [] then []
    else
      var i := Find(merged, prior[0].id);
      var rest := DisposeRemoved(prior[1..], merged, completed, emissions, causal);
      if i < |merged| && !completed then rest
      else
        var reason :=
          if completed then AggregateCompleted
          else if CompletedBy(emissions, prior[0].id) then RuntimeCompleted
          else RuntimeCancelled;
        var source := if i < |merged| then merged[i] else prior[0];
        Dispose(Without(Box(source), causal), prior[0].id, reason) + rest
  }

  /** Empties the mailboxes of every runtime that existed before the step. */
  function Empty(rs: seq<Runtime>): seq<Runtime> {
    if rs == [] then [] else [rs[0].(ready := [], deferred := [])] + Empty(rs[1..])
  }

  /** The aggregate under construction while emissions are appended. */
  datatype Build = Build(aggregate: Aggregate, lifecycle: seq<Lifecycle>, emitted: seq<Emitted>)

  function EmissionEntry(a: Aggregate, m: Emission): Entry
    requires m.Send?
  {
    var source := if m.system.Some? then SystemSource(m.system.value) else RuntimeSource(Target(a.root, m.emitter));
    var envelope := Envelope(m.event, m.eventId, m.causeId, source, Target(a.root, m.target), m.content);
    Entry(a.nextAcceptance, a.nextQueue, Internal, envelope, EnvelopeDigest(a.root, Internal, envelope), 0)
  }

  /** Appends one emission: to the outbox, to the target's ready mailbox, or to the disposals. */
  function Emit(b: Build, m: Emission): Build {
    match m
    case External(index, intent) => b.(emitted := b.emitted + [ToOutbox(index, intent)])
    case Send(index, eventId, _, _, _, target, _, _) =>
      var a := b.aggregate;
      var e := EmissionEntry(a, m);
      var i := Find(a.runtimes, target);
      var completed := StatusOf(a.runtimes, a.rootRuntime) == Some(Completed);
      if i < |a.runtimes| && !a.runtimes[i].status.Completed? && !completed then
        Build(
          Allocate(a).(runtimes := Push(a.runtimes, i, e)),
          b.lifecycle,
          b.emitted + [ToMailbox(index, eventId, e.acceptance, e.queue)])
      else
        var reason :=
          if a.rootRuntime == target && completed then AggregateCompleted
          else if i < |a.runtimes| && a.runtimes[i].status.Completed? then RuntimeCompleted
          else RuntimeCancelled;
        Build(
          Allocate(a),
          b.lifecycle + [Lifecycle(e, target, reason)],
          b.emitted + [ToDisposal(index, eventId, e.acceptance, |b.lifecycle|)])
  }

  function EmitAll(b: Build, ms: seq<Emission>): Build {
    if ms == [] then b else Emit(EmitAll(b, ms[..|ms| - 1]), ms[|ms| - 1])
  }

  function Stays(box: seq<Entry>, recalls: set<Text>): seq<Entry> {
    if box == [] then []
    else
      var rest := Stays(box[..|box| - 1], recalls);
      var e := box[|box| - 1];
      if e.envelope.event in recalls then rest else rest + [e]
  }

  /** The recalled entries, under queue numbers that start at `queue`. */
  function Recalled(box: seq<Entry>, recalls: set<Text>, queue: nat): seq<Entry> {
    if box == [] then []
    else
      var rest := Recalled(box[..|box| - 1], recalls, queue);
      var e := box[|box| - 1];
      if e.envelope.event in recalls then rest + [e.(queue := queue + |rest|)] else rest
  }

  function RecallOne(a: Aggregate, i: nat, recalls: set<Text>): Aggregate
    requires i < |a.runtimes|
  {
    var r := a.runtimes[i];
    if !r.status.Running? then a
    else
      var back := Recalled(r.deferred, recalls, a.nextQueue);
      a.(nextQueue := a.nextQueue + |back|,
         runtimes := a.runtimes[i := r.(ready := r.ready + back, deferred := Stays(r.deferred, recalls))])
  }

  /** Recalls deferred entries of the first `k` runtimes. */
  function Recall(a: Aggregate, ns: seq<NativeRuntime>, k: nat): (b: Aggregate)
    requires k <= |ns| == |a.runtimes|
    ensures |b.runtimes| == |a.runtimes|
  {
    if k == 0 then a else RecallOne(Recall(a, ns, k - 1), k - 1, ns[k - 1].recalls)
  }

  /** The aggregate after dispatch, mailboxes carried over and removed runtimes disposed of. */
  function Carried(a: Aggregate, i: nat, n: Native): Build
    requires i < |a.runtimes| && a.runtimes[i].ready != []
  {
    var causal := a.runtimes[i].ready[0].Id();
    var merged := Merge(RemoveHead(a.runtimes, i), n.runtimes);
    var completed := StatusOf(merged, a.rootRuntime) == Some(Completed);
    var lifecycle := DisposeRemoved(a.runtimes, merged, completed, n.emissions, causal);
    Build(a.(nextOutput := n.nextOutput, nextStep := n.nextStep, runtimes := if completed then Empty(merged) else merged), lifecycle, [])
  }

  lemma {:induction false} MergeLength(prior: seq<Runtime>, ns: seq<NativeRuntime>)
    ensures |Merge(prior, ns)| == |ns|
  {
    if ns != [] {
      MergeLength(prior, ns[1..]);
    }
  }

  lemma {:induction false} EmptyLength(rs: seq<Runtime>)
    ensures |Empty(rs)| == |rs|
  {
    if rs != [] {
      EmptyLength(rs[1..]);
    }
  }

  lemma {:induction false} EmitAllLength(b: Build, ms: seq<Emission>)
    ensures |EmitAll(b, ms).aggregate.runtimes| == |b.aggregate.runtimes|
  {
    if ms != [] {
      EmitAllLength(b, ms[..|ms| - 1]);
    }
  }

  /** A step whose event was dispatched to completion. */
  function Finish(a: Aggregate, i: nat, n: Native): StepResult
    requires i < |a.runtimes| && a.runtimes[i].ready != []
  {
    var carried := Carried(a, i, n);
    var built := EmitAll(carried, n.emissions);
    var state :=
      if n.disposition.Handled? && StatusOf(carried.aggregate.runtimes, a.rootRuntime) == Some(Running) then
        MergeLength(RemoveHead(a.runtimes, i), n.runtimes);
        EmptyLength(Merge(RemoveHead(a.runtimes, i), n.runtimes));
        EmitAllLength(carried, n.emissions);
        Recall(built.aggregate, n.runtimes, |n.runtimes|)
      else
        built.aggregate;
    Committed(state, n.disposition, built.emitted, built.lifecycle)
  }

  /** What the dispatcher reports if the event is not deferred; an overflow is always a fault. */
  function Reported(dispatch: Dispatch): Native {
    match dispatch
    case Finished(native) => native
    case Defer(_, fault, overflow) => overflow.(disposition := FaultedWith(fault))
  }

  /** One step of the runtime named `target`. */
  function Step(a: Aggregate, target: Text, dispatch: Dispatch): StepResult {
    var i := Find(a.runtimes, target);
    if i == |a.runtimes| || StatusOf(a.runtimes, a.rootRuntime) == Some(Faulted) || !a.runtimes[i].status.Running? then
      Rejected
    else if a.runtimes[i].ready == [] then
      NotRunnable
    else if dispatch.Defer? && (dispatch.capacity.None? || |a.runtimes[i].deferred| < dispatch.capacity.value) then
      Deferred(DeferHead(a, i))
    else
      Finish(a, i, Reported(dispatch))
  }
}
