/** What a created root has on record, and what creating it again is answered for ever. */
module CreationAnswers {
  import opened Wrappers
  import opened CheckpointModel
  import opened CheckpointValidity
  import opened WireCore
  import opened WireCoreProofs
  import opened StepSources
  import opened StepAnswers
  import opened CheckpointOps
  import opened CommitProofs
  import opened CommitAnswers
  import opened CreateTheorem
  import opened Retention
  import opened Host

  // ------------------------------------------------------------------------------------------
  // The new root
  // ------------------------------------------------------------------------------------------

  /** The aggregate of a new root before its first sends: all counters at zero, and logical step 0 used up. */
  ghost predicate Bare0(root: Text, creationId: Text, n: NativeRoot, a: Aggregate) {
    && a == Aggregate(root, creationId, n.fingerprint, n.rootRuntime, 0, 0, n.nextOutput, 1, a.runtimes)
    && |a.runtimes| == |n.runtimes|
    && (forall p :: 0 <= p < |n.runtimes| ==> a.runtimes[p] == Runtime(n.runtimes[p].id, n.runtimes[p].status, [], [], n.runtimes[p].body))
  }

  lemma BareIs(root: Text, creationId: Text, n: NativeRoot)
    ensures Bare0(root, creationId, n, Aggregate(root, creationId, n.fingerprint, n.rootRuntime, 0, 0, n.nextOutput, 1, Bare(n.runtimes)))
  {
    hide Merge;
    MergeAt([], n.runtimes);
  }

  /** The receipts of a new root: the creation receipt with its references, and one receipt per send without a receiver. */
  predicate CreationRecorded(cp: Checkpoint, state: Aggregate, creationId: Text, request: Text, status: Status, emitted: seq<Emitted>, lifecycle: seq<Lifecycle>) {
    && |cp.receipts| == 1 + |lifecycle|
    && cp.receipts[0].Creation?
    && cp.receipts[0] == Creation(0, creationId, request, 0, AggregateDigest(state), status, cp.receipts[0].refs)
    && |cp.receipts[0].refs| == |emitted|
    && (forall k :: 0 <= k < |emitted| ==> RefersTo(emitted[k], cp.receipts[0].refs[k], 1))
    && (forall l :: 0 <= l < |lifecycle| ==>
          var e := lifecycle[l].entry;
          cp.receipts[1 + l] == Terminal(1 + l, e.Id(), e.digest, e.acceptance, e.queue, 0, AggregateDigest(state), Outcome(status, Disposed(lifecycle[l].reason)), []))
  }

  /** Everything about a new root: what was sent from the bare aggregate, and the records of it. */
  ghost predicate Created(root: Text, creationId: Text, request: Text, retention: CheckpointModel.Retention, n: NativeRoot, cp: Checkpoint, bare: Aggregate, built: Build, at: seq<nat>) {
    && Bare0(root, creationId, n, bare)
    && Emits(Build(bare, [], []), n.runtimes, n.emissions, built)
    && cp == Checkpoint(root, 0, Retained(built.aggregate), retention, 1 + |built.lifecycle|, cp.receipts, [], cp.pending, 0, [], [])
    && (exists status :: RootHas(built.aggregate, status) && CreationRecorded(cp, built.aggregate, creationId, request, status, built.emitted, built.lifecycle))
    && PendingsAt(built.emitted, 0, cp.pending, at)
  }

  lemma CreationRecords(root: Text, creationId: Text, request: Text, retention: CheckpointModel.Retention, b: Build)
    ensures CreationRecorded(CreateInto(root, creationId, request, retention, b), b.aggregate, creationId, request, RootStatus(b.aggregate), b.emitted, b.lifecycle)
  {
    hide Pendings, RootStatus;
  }

  /** A creation that succeeds records exactly what the dispatcher reports. */
  lemma CreateRecords(root: Text, creationId: Text, request: Text, retention: CheckpointModel.Retention, n: NativeRoot)
    returns (bare: Aggregate, built: Build, at: seq<nat>)
    requires RootOk(n) && Create(root, creationId, request, retention, n).Ok?
    ensures Created(root, creationId, request, retention, n, Create(root, creationId, request, retention, n).value, bare, built, at)
  {
    hide Valid, EffectRepeated, Bare0, Emits, CreationRecorded, RootHas, PendingsAt, EmitAll, Pendings, RootStatus, RefsOf, LifecycleReceipts, Mirrors;
    bare := Aggregate(root, creationId, n.fingerprint, n.rootRuntime, 0, 0, n.nextOutput, 1, Bare(n.runtimes));
    BareIs(root, creationId, n);
    MergeMirrors([], n.runtimes);
    EmitAllIs(Build(bare, [], []), n.runtimes, n.emissions);
    built := CreateCore(root, creationId, n);
    CreationRecords(root, creationId, request, retention, built);
    RootStatusIs(built.aggregate);
    at := PendingsOf(built.emitted, 0);
  }

  /** A store takes every new root, unless its receipts are permanent and those of the root are not. */
  lemma CreationStored(mode: StoreMode, root: Text, creationId: Text, request: Text, retention: CheckpointModel.Retention, n: NativeRoot)
    requires Create(root, creationId, request, retention, n).Ok?
    ensures CandidateAllowed(mode, Create(root, creationId, request, retention, n).value) <==> !mode.receipts.PermanentReceipts? || retention.Permanent?
  {
    hide Valid, EffectRepeated, CreateCore, Pendings, RootStatus, RefsOf, LifecycleReceipts;
  }

  // ------------------------------------------------------------------------------------------
  // Creating it again
  // ------------------------------------------------------------------------------------------

  /** The record attests the creation `creationId` by `request`, and no other. */
  ghost predicate Attests(cp: Checkpoint, creationId: Text, request: Text) {
    forall c, q :: AnswersCreation(cp, creationId, request, c, q)
  }

  ghost predicate AnswersCreation(cp: Checkpoint, creationId: Text, request: Text, c: Text, q: Text) {
    var r := ReplayCreation(cp, c, q);
    if c == creationId && q == request then
      r.Ok? && r.value.Creation? && r.value.creationId == creationId && r.value.request == request
    else r == Err(CreationIdConflict)
  }

  lemma CreatedAttests(root: Text, creationId: Text, request: Text, retention: CheckpointModel.Retention, n: NativeRoot)
    requires Create(root, creationId, request, retention, n).Ok?
    ensures Attests(Create(root, creationId, request, retention, n).value, creationId, request)
  {
    hide Valid, EffectRepeated, CreateCore, Pendings, RootStatus, RefsOf, LifecycleReceipts;
  }

  lemma SameAttests(cp: Checkpoint, cp': Checkpoint, creationId: Text, request: Text)
    requires SameCreation(cp, cp') && Attests(cp, creationId, request)
    ensures Attests(cp', creationId, request)
  {
    forall c, q ensures AnswersCreation(cp', creationId, request, c, q) {
      assert AnswersCreation(cp, creationId, request, c, q);
      assert AnswersCreation(cp, creationId, request, creationId, request);
    }
  }

  /**
   Whatever hosts do after a root was created, creating it again by the same request is answered with its creation
   receipt, and under another creation id or by another request it is a conflict.
   */
  lemma RecreationAnswer(mode: StoreMode, worlds: seq<World>, actions: seq<Action>, i: nat, j: nat)
    requires IsTrace(mode, worlds, actions) && i < |actions| && actions[i].CreateBy? && i < j < |worlds|
    requires actions[i].root !in worlds[i].records && actions[i].root in worlds[i + 1].records
    ensures actions[i].root in worlds[j].records && Attests(worlds[j].records[actions[i].root], actions[i].creationId, actions[i].request)
  {
    hide Attests, Create, WorldOk, CandidateAllowed, SameCreation;
    var root, creationId, request := actions[i].root, actions[i].creationId, actions[i].request;
    var created := Create(root, creationId, request, actions[i].retention, actions[i].native);
    assert worlds[i + 1] == Act(worlds[i], actions[i]);
    CreatedFiled(root, creationId, request, actions[i].retention, actions[i].native);
    assert created.Ok? && worlds[i + 1].records[root] == created.value;
    CreatedAttests(root, creationId, request, actions[i].retention, actions[i].native);
    CreationForEver(mode, worlds, actions, root, i + 1, j, creationId, request);
    SameAttests(worlds[i + 1].records[root], worlds[j].records[root], creationId, request);
  }
}
