/**
 What the step operation answers and what its commit puts on record: the terminal receipt with the reported
 disposition, one receipt for each disposal, the references, and the pending effects.
 */
module CommitAnswers {
  import opened Wrappers
  import opened CheckpointModel
  import opened CheckpointValidity
  import opened WireCore
  import opened WireCoreProofs
  import opened StepContract
  import opened StepTheorem
  import opened StepAnswers
  import opened Transitions
  import opened Rewriting
  import opened CheckpointOps
  import opened CommitProofs
  import opened RootProofs
  import opened StepPreservation

  // ------------------------------------------------------------------------------------------
  // What the commit records
  // ------------------------------------------------------------------------------------------

  /** The status of the root runtime; an aggregate without one counts as running. */
  ghost predicate RootHas(a: Aggregate, status: Status) {
    if IsRuntime(a.runtimes, a.rootRuntime) then exists j :: 0 <= j < |a.runtimes| && a.runtimes[j].id == a.rootRuntime && a.runtimes[j].status == status
    else status.Running?
  }

  lemma RootStatusIs(a: Aggregate)
    ensures RootHas(a, RootStatus(a))
  {
    var i := Find(a.runtimes, a.rootRuntime);
  }

  /** The reference by which the causal receipt announces an emission; disposals end from receipt `first` on. */
  predicate RefersTo(m: Emitted, r: Reference, first: nat) {
    match m
    case ToOutbox(index, intent) => r == OutboxRef(index, intent.effectId)
    case ToMailbox(index, eventId, acceptance, queue) => r == MailboxRef(index, eventId, acceptance, queue)
    case ToDisposal(index, eventId, acceptance, lifecycle) => r == TerminalRef(index, eventId, acceptance, first + lifecycle)
  }

  /** Receipt `r` ends entry `e` in the new revision with the given disposition. */
  predicate Terminates(cp: Checkpoint, state: Aggregate, r: Receipt, e: Entry, sequence: nat, status: Status, disposition: Disposition) {
    && r.Terminal?
    && r == Terminal(sequence, e.Id(), e.digest, e.acceptance, e.queue, cp.revision + 1, AggregateDigest(state), Outcome(status, disposition), r.refs)
  }

  /** Receipt `n` is the causal one and announces every emission. */
  predicate CausalRecorded(cp: Checkpoint, cp': Checkpoint, causal: Entry, state: Aggregate, disposition: Disposition, emitted: seq<Emitted>, status: Status) {
    var n := |cp.receipts|;
    && n < |cp'.receipts|
    && Terminates(cp, state, cp'.receipts[n], causal, cp.nextReceipt, status, disposition)
    && |cp'.receipts[n].refs| == |emitted|
    && (forall k :: 0 <= k < |emitted| ==> RefersTo(emitted[k], cp'.receipts[n].refs[k], cp.nextReceipt + 1))
  }

  /** One receipt without references per disposal, in order, with its reason. */
  predicate DisposalsRecorded(cp: Checkpoint, cp': Checkpoint, state: Aggregate, lifecycle: seq<Lifecycle>, status: Status) {
    var n := |cp.receipts| + 1;
    && |cp'.receipts| == n + |lifecycle|
    && (forall l :: 0 <= l < |lifecycle| ==>
          && Terminates(cp, state, cp'.receipts[n + l], lifecycle[l].entry, cp.nextReceipt + 1 + l, status, Disposed(lifecycle[l].reason))
          && cp'.receipts[n + l].refs == [])
  }

  /** Everything else about the checkpoint. */
  predicate ElseRecorded(cp: Checkpoint, cp': Checkpoint, state: Aggregate, ended: nat) {
    cp' == cp.(revision := cp.revision + 1, record := Retained(state), nextReceipt := cp.nextReceipt + ended,
               receipts := cp'.receipts, pending := cp'.pending)
  }

  /** What is on record after the commit of a step on `causal`. */
  ghost predicate Recorded(cp: Checkpoint, cp': Checkpoint, causal: Entry, state: Aggregate, disposition: Disposition, emitted: seq<Emitted>, lifecycle: seq<Lifecycle>, at: seq<nat>) {
    && ElseRecorded(cp, cp', state, 1 + |lifecycle|)
    && (exists status :: RootHas(state, status) && CausalRecorded(cp, cp', causal, state, disposition, emitted, status) && DisposalsRecorded(cp, cp', state, lifecycle, status))
    && PendingsKept(cp, cp')
    && PendingFrom(cp, cp', emitted, at)
  }

  predicate PendingsKept(cp: Checkpoint, cp': Checkpoint) {
    cp.pending <= cp'.pending
  }

  lemma CausalRecords(cp: Checkpoint, cp': Checkpoint, causal: Entry, state: Aggregate, disposition: Disposition, emitted: seq<Emitted>, status: Status)
    requires |cp'.receipts| > |cp.receipts|
    requires cp'.receipts[|cp.receipts|]
          == Terminal(cp.nextReceipt, causal.Id(), causal.digest, causal.acceptance, causal.queue, cp.revision + 1, AggregateDigest(state),
                      Outcome(status, disposition), RefsOf(emitted, cp.nextReceipt + 1))
    ensures CausalRecorded(cp, cp', causal, state, disposition, emitted, status)
  {
  }

  lemma DisposalsRecord(cp: Checkpoint, cp': Checkpoint, state: Aggregate, lifecycle: seq<Lifecycle>, status: Status)
    requires |cp'.receipts| == |cp.receipts| + 1 + |lifecycle|
    requires cp'.receipts[|cp.receipts| + 1..] == LifecycleReceipts(lifecycle, cp.nextReceipt + 1, cp.revision + 1, AggregateDigest(state), status)
    ensures DisposalsRecorded(cp, cp', state, lifecycle, status)
  {
    var n := |cp.receipts| + 1;
    forall l | 0 <= l < |lifecycle|
      ensures Terminates(cp, state, cp'.receipts[n + l], lifecycle[l].entry, cp.nextReceipt + 1 + l, status, Disposed(lifecycle[l].reason))
      ensures cp'.receipts[n + l].refs == []
    {
      assert cp'.receipts[n + l] == cp'.receipts[n..][l];
    }
  }

  lemma CommitRecords(cp: Checkpoint, causal: Entry, state: Aggregate, disposition: Disposition, emitted: seq<Emitted>, lifecycle: seq<Lifecycle>) returns (at: seq<nat>)
    requires Coherent(cp) && StepOk(cp, causal, state, emitted, lifecycle)
    ensures Recorded(cp, CommitStep(cp, causal, state, disposition, emitted, lifecycle), causal, state, disposition, emitted, lifecycle, at)
  {
    hide Coherent, StepOk, QueueMap, Flat, EndedBy, RootStatus, RefsOf, Pendings, RewriteAll, SyncAll, LifecycleReceipts, EndedMap, Rewrites;
    hide CausalRecorded, DisposalsRecorded, PendingFrom, RootHas;
    var cp', status := CommitStep(cp, causal, state, disposition, emitted, lifecycle), RootStatus(state);
    StepRewrites(cp, cp', causal, state, emitted, lifecycle);
    StepReceipts(cp, causal, state, disposition, emitted, lifecycle);
    RewriteBodies(QueueMap(Flat(state.runtimes)), EndedMap(cp, causal, lifecycle), cp.receipts);
    LifecycleCount(lifecycle, cp.nextReceipt + 1, cp'.revision, AggregateDigest(state), status);
    RootStatusIs(state);
    CausalRecords(cp, cp', causal, state, disposition, emitted, status);
    assert cp'.receipts[|cp.receipts| + 1..] == LifecycleReceipts(lifecycle, cp.nextReceipt + 1, cp.revision + 1, AggregateDigest(state), status);
    DisposalsRecord(cp, cp', state, lifecycle, status);
    at := PendingsFrom(cp, cp', emitted);
  }

  // ------------------------------------------------------------------------------------------
  // Evidence of an earlier step
  // ------------------------------------------------------------------------------------------

  predicate EndsRequested(r: Receipt, q: StepRequest) {
    r.Terminal? && r.eventId == q.eventId
  }

  /** An ended or buried event is answered from its evidence if the request names it in every respect, else it is a conflict. */
  lemma StepReplayAnswer(cp: Checkpoint, q: StepRequest)
    requires Inv(cp)
    ensures forall i :: 0 <= i < |cp.receipts| && EndsRequested(cp.receipts[i], q) ==>
              var t := cp.receipts[i];
              StepReplay(cp, q) == if t.request' == q.digest && t.acceptance == q.acceptance && t.finalQueue == q.queue then Ok(Some(ByReceipt(t)))
                                   else Err(EventIdConflict)
    ensures forall i :: 0 <= i < |cp.tombstones| && cp.tombstones[i].eventId == q.eventId ==>
              var t := cp.tombstones[i];
              StepReplay(cp, q) == if t.request == q.digest && t.acceptance == q.acceptance then Ok(Some(ByTombstone(t))) else Err(EventIdConflict)
    ensures !Ended(cp.receipts, q.eventId) && !Buried(cp.tombstones, q.eventId) ==> StepReplay(cp, q) == Ok(None)
  {
    hide Strong, Traceable, Sourced, ReceiptsOk, UniqueAcceptances, AllocationsOk, DigestsOk, CreationOk, MailboxesOk, AcceptancesLead, OwnersOk, QueuesOk;
    hide TerminalsExplained, ReferencesOk, StagesOk, EffectsOk, IsLive, FindTerminal, FindTombstone;
    var i, j := FindTerminal(cp.receipts, q.eventId), FindTombstone(cp.tombstones, q.eventId);
    forall k | 0 <= k < |cp.receipts| && EndsRequested(cp.receipts[k], q) ensures k == i {
      assert Ended(cp.receipts, q.eventId);
    }
    forall k | 0 <= k < |cp.tombstones| && cp.tombstones[k].eventId == q.eventId ensures k == j && i == |cp.receipts| {
      assert Buried(cp.tombstones, q.eventId);
      assert !Ended(cp.receipts, q.eventId);
    }
  }

  // ------------------------------------------------------------------------------------------
  // Which requests reach the core
  // ------------------------------------------------------------------------------------------

  /** Nothing ended the event, the caller's expectations hold and the request names the head of a ready mailbox. */
  predicate Reaches(cp: Checkpoint, bundle: Text, q: StepRequest, g: Guard, i: nat) {
    && !Ended(cp.receipts, q.eventId) && !Buried(cp.tombstones, q.eventId)
    && Holds(g, cp)
    && cp.record.Retained? && cp.record.aggregate.fingerprint == bundle
    && i < |cp.record.aggregate.runtimes| && cp.record.aggregate.runtimes[i].id == q.runtime
    && cp.record.aggregate.runtimes[i].ready != []
    && var e := cp.record.aggregate.runtimes[i].ready[0];
       e.Id() == q.eventId && e.digest == q.digest && e.acceptance == q.acceptance && e.queue == q.queue
  }

  /** What each unmet expectation gives, in the order in which they are asked. */
  lemma StepRefusal(cp: Checkpoint, bundle: Text, q: StepRequest, g: Guard, dispatch: Dispatch)
    requires Inv(cp) && !Ended(cp.receipts, q.eventId) && !Buried(cp.tombstones, q.eventId)
    ensures var r := StepCheckpoint(cp, bundle, q, g, dispatch);
            && (!Holds(g, cp) ==> r == Err(RevisionConflict))
            && (Holds(g, cp) && cp.record.Tombstoned? ==> r == Err(TerminalRoot))
            && (Holds(g, cp) && cp.record.Retained? && cp.record.aggregate.fingerprint != bundle ==> r == Err(IncompatibleBundle))
            && (Holds(g, cp) && cp.record.Retained? && cp.record.aggregate.fingerprint == bundle ==>
                  var rs := cp.record.aggregate.runtimes;
                  && (!IsRuntime(rs, q.runtime) ==> r == Err(InvalidInstanceTarget))
                  && (forall i: nat :: i < |rs| && rs[i].id == q.runtime ==>
                        && (rs[i].ready == [] ==> r == Err(EmptyMailbox))
                        && (rs[i].ready != [] && !Reaches(cp, bundle, q, g, i) ==> r == Err(InvalidCheckpoint))
                        && (Reaches(cp, bundle, q, g, i) ==> r == ApplyStep(cp, rs[i].ready[0], Step(cp.record.aggregate, q.runtime, dispatch)))))
  {
    hide Inv, ApplyStep, Step, Find, StepReplay;
    StepReplayAnswer(cp, q);
    if cp.record.Retained? {
      InvRuntimes(cp);
      var rs := cp.record.aggregate.runtimes;
      forall i: nat | i < |rs| && rs[i].id == q.runtime ensures Find(rs, q.runtime) == i {
        FindUnique(rs, i);
      }
    }
  }

  /** The core declines to step a runtime that does not run, or any runtime under a faulted root. */
  lemma StepDeclines(cp: Checkpoint, bundle: Text, q: StepRequest, g: Guard, dispatch: Dispatch, i: nat)
    requires Inv(cp) && Reaches(cp, bundle, q, g, i) && !CanRun(cp.record.aggregate, q.runtime, i)
    ensures StepCheckpoint(cp, bundle, q, g, dispatch) == Ok(Declined)
  {
    hide Inv, Step, StepCheckpoint;
    var a := cp.record.aggregate;
    StepRefusal(cp, bundle, q, g, dispatch);
    InvRuntimes(cp);
    StepDecides(a, q.runtime, dispatch, i);
    assert forall j: nat :: j < |a.runtimes| && j != i ==> a.runtimes[j].id != a.runtimes[i].id;
    assert Step(a, q.runtime, dispatch).Rejected?;
  }

  lemma InvRuntimes(cp: Checkpoint)
    requires Inv(cp) && cp.record.Retained?
    ensures DistinctRuntimes(cp.record.aggregate.runtimes)
  {
    hide Consistent, Sourced, Traceable;
  }

  // ------------------------------------------------------------------------------------------
  // The whole operation
  // ------------------------------------------------------------------------------------------

  /**
   A step that validation accepts: the aggregate and the report are what the dispatch makes of the aggregate
   before, and the checkpoint has them on record under the reported disposition.
   */
  lemma StepCommits(cp: Checkpoint, bundle: Text, q: StepRequest, g: Guard, dispatch: Dispatch, i: nat)
    returns (result: StepResult, numbers: seq<nat>, gone: nat, bounds: seq<nat>, at: seq<nat>)
    requires Inv(cp) && Reaches(cp, bundle, q, g, i) && CanRun(cp.record.aggregate, q.runtime, i) && !Fits(dispatch, cp.record.aggregate.runtimes[i])
    requires DispatcherOk(cp.record.aggregate, Reported(dispatch))
    requires var r := StepCheckpoint(cp, bundle, q, g, dispatch); r.Ok? && r.value.Next? && Valid(r.value.next)
    ensures var a, n, next := cp.record.aggregate, Reported(dispatch), StepCheckpoint(cp, bundle, q, g, dispatch).value.next;
            && result.Committed?
            && StateAfter(a, i, n, result.state, numbers)
            && ReportAfter(a, i, n, result.emitted, result.lifecycle, gone, bounds)
            && Recorded(cp, next, a.runtimes[i].ready[0], result.state,
                        if dispatch.Defer? then FaultedWith(dispatch.fault) else dispatch.native.disposition, result.emitted, result.lifecycle, at)
  {
    hide Inv, Valid, Step, StepCheckpoint, StateAfter, ReportAfter, Recorded, DispatcherOk, CommitStep, EffectRepeated, SeveralProducers, StepOk, Ready, Finish;
    var a, n := cp.record.aggregate, Reported(dispatch);
    var next := StepCheckpoint(cp, bundle, q, g, dispatch).value.next;
    StepRefusal(cp, bundle, q, g, dispatch);
    InvRuntimes(cp);
    InvCoherent(cp);
    InvReady(cp);
    UniqueNatives(a, n);
    result := Step(a, q.runtime, dispatch);
    numbers, gone, bounds := StepFinishes(a, q.runtime, dispatch, i);
    StepDecides(a, q.runtime, dispatch, i);
    ResemblesItself(next);
    ValidThenOk(cp, i, n, next);
    at := CommitRecords(cp, a.runtimes[i].ready[0], result.state, result.disposition, result.emitted, result.lifecycle);
  }

  lemma InvCoherent(cp: Checkpoint)
    requires Inv(cp)
    ensures Coherent(cp)
  {
  }

  lemma UniqueNatives(a: Aggregate, n: Native)
    requires DispatcherOk(a, n)
    ensures DistinctNatives(n.runtimes)
  {
  }

  /** The head was deferred, references were synchronized, and nothing else changed. */
  ghost predicate DeferralRecorded(cp: Checkpoint, i: nat, next: Checkpoint)
    requires CanStep(cp, i)
  {
    && next.record.Retained? && HeadDeferred(cp.record.aggregate, i, next.record.aggregate)
    && next == cp.(revision := cp.revision + 1, record := next.record, receipts := next.receipts)
    && Transition(cp, next, [], [])
  }

  /** A deferral within capacity commits the deferred head. */
  lemma StepDefers(cp: Checkpoint, bundle: Text, q: StepRequest, g: Guard, dispatch: Dispatch, i: nat) returns (next: Checkpoint)
    requires Inv(cp) && Reaches(cp, bundle, q, g, i) && CanRun(cp.record.aggregate, q.runtime, i) && Fits(dispatch, cp.record.aggregate.runtimes[i])
    ensures StepCheckpoint(cp, bundle, q, g, dispatch) == Ok(Next(next)) && DeferralRecorded(cp, i, next)
  {
    hide Inv, Step, StepCheckpoint, DeferralRecorded, CommitDeferral, DeferHead;
    StepRefusal(cp, bundle, q, g, dispatch);
    InvRuntimes(cp);
    DeferredIs(cp.record.aggregate, q.runtime, dispatch, i);
    next := CommitDeferral(cp, DeferHead(cp.record.aggregate, i));
    DeferralRecords(cp, i);
  }

  lemma DeferralRecords(cp: Checkpoint, i: nat)
    requires Inv(cp) && CanStep(cp, i)
    ensures DeferralRecorded(cp, i, CommitDeferral(cp, DeferHead(cp.record.aggregate, i)))
  {
    hide Inv, Transition, SyncAll, QueueMap, Flat;
    DeferralTransitions(cp, i);
  }

  lemma DeferredIs(a: Aggregate, target: Text, dispatch: Dispatch, i: nat)
    requires DistinctRuntimes(a.runtimes) && CanRun(a, target, i) && a.runtimes[i].ready != [] && Fits(dispatch, a.runtimes[i])
    ensures Step(a, target, dispatch) == Deferred(DeferHead(a, i))
  {
    hide Find, Finish;
    FaultedRoot(a);
    FindTarget(a, target, i);
  }

  lemma DeferralTransitions(cp: Checkpoint, i: nat)
    requires Inv(cp) && CanStep(cp, i)
    ensures Transition(cp, CommitDeferral(cp, DeferHead(cp.record.aggregate, i)), [], [])
  {
    hide Coherent, Sourced, Transition, DeferHead, SourcesOk, SyncAll, QueueMap, Flat, Valid;
    DeferralInv(cp, i);
    InvReady(CommitDeferral(cp, DeferHead(cp.record.aggregate, i)));
    DeferralTransition(cp, i);
  }
}
