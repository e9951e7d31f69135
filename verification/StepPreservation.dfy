/**
 Committing a step does not validate its result. It is valid exactly when the dispatcher chose
 event ids that are new to the checkpoint and kept the emitters of the entries that stay.
 */
module StepPreservation {
  import opened Wrappers
  import opened CheckpointModel
  import opened CheckpointValidity
  import opened WireCore
  import opened WireCoreProofs
  import opened StepContract
  import opened StepProofs
  import opened StepTheorem
  import opened StepIdentity
  import opened StepSources
  import opened Transitions
  import opened TransitionTheorem
  import opened CheckpointOps
  import opened CommitProofs
  import opened RootProofs

  /** The sends carry ids of which the checkpoint knows nothing. */
  ghost predicate NewIds(cp: Checkpoint, ms: seq<Emission>) {
    && FreshIds(Live(cp), ms)
    && (forall k :: 0 <= k < |ms| && ms[k].Send? ==> !Ended(cp.receipts, ms[k].eventId) && !Buried(cp.tombstones, ms[k].eventId))
  }

  /** The conditions on a dispatch under which its commit is valid. */
  ghost predicate Sustains(cp: Checkpoint, i: nat, n: Native)
    requires cp.record.Retained? && Runnable(cp.record.aggregate, i)
  {
    NewIds(cp, n.emissions) && SourcesSurvive(cp.record.aggregate, cp.record.aggregate.runtimes[i].ready[0], n)
  }

  /** Position `i` of the retained aggregate can step. */
  ghost predicate CanStep(cp: Checkpoint, i: nat) {
    cp.record.Retained? && Runnable(cp.record.aggregate, i)
  }

  lemma HeadIsLive(cp: Checkpoint, i: nat)
    requires CanStep(cp, i)
    ensures cp.record.aggregate.runtimes[i].ready[0] in Live(cp)
  {
    hide MailOf;
    var a := cp.record.aggregate;
    RemoveHeadMail(a.runtimes, i);
    assert multiset{a.runtimes[i].ready[0]}[a.runtimes[i].ready[0]] == 1;
  }

  lemma ReportedIds(cp: Checkpoint, i: nat, n: Native)
    requires Coherent(cp) && CanStep(cp, i) && DispatcherOk(cp.record.aggregate, n)
    ensures var r := Finish(cp.record.aggregate, i, n);
            && r.Committed?
            && (EmittedFresh(cp, r.emitted) <==>
                forall k :: 0 <= k < |n.emissions| && n.emissions[k].Send? ==>
                  !Ended(cp.receipts, n.emissions[k].eventId) && !Buried(cp.tombstones, n.emissions[k].eventId))
  {
    hide Coherent, Ready, MailOf, LifeMail, Carried, EmitAll, Finish, Named, Building, Stages, Ended, Buried;
    InvReady(cp);
    FinishStages(cp.record.aggregate, i, n);
    var r := Finish(cp.record.aggregate, i, n);
    assert forall k :: 0 <= k < |n.emissions| ==> Reports(n.emissions[k], r.emitted[k]);
  }

  /** What a commit needs, in terms of the dispatch. */
  lemma StepOkIff(cp: Checkpoint, i: nat, n: Native)
    requires Inv(cp) && CanStep(cp, i) && DispatcherOk(cp.record.aggregate, n)
    ensures var a := cp.record.aggregate; var r := Finish(a, i, n);
            && r.Committed?
            && (!EffectRepeated(cp, r.emitted) ==>
                  (StepOk(cp, a.runtimes[i].ready[0], r.state, r.emitted, r.lifecycle) <==> Sustains(cp, i, n)))
  {
    hide Coherent, Sourced, Ready, MailOf, Finish, Named, EffectRepeated, SourcesOk, SourcesSurvive, Conserves, FreshIds, Ended, Buried, DispatcherOk, HasId, SendsId, SeveralProducers;
    var a := cp.record.aggregate;
    InvReady(cp);
    HeadIsLive(cp, i);
    FinishConserves(a, i, n);
    StepNamesIff(a, i, n);
    StepSourcesIff(a, i, n);
    ReportedIds(cp, i, n);
  }

  // ------------------------------------------------------------------------------------------
  // A valid commit had a good dispatch
  // ------------------------------------------------------------------------------------------

  /** The bodies of the receipts after a commit, whatever was committed. */
  lemma CommitBodies(cp: Checkpoint, causal: Entry, state: Aggregate, disposition: Disposition, emitted: seq<Emitted>, lifecycle: seq<Lifecycle>)
    ensures var cp', n := CommitStep(cp, causal, state, disposition, emitted, lifecycle), |cp.receipts|;
            && |cp'.receipts| == n + |OutOf(causal, lifecycle)|
            && (forall i :: 0 <= i < n ==> SameBody(cp.receipts[i], cp'.receipts[i]))
  {
    hide QueueMap, Flat, EndedBy, RootStatus;
    OutLength(causal, lifecycle);
  }

  lemma CommitEnds(cp: Checkpoint, causal: Entry, state: Aggregate, disposition: Disposition, emitted: seq<Emitted>, lifecycle: seq<Lifecycle>, j: nat)
    requires j < |OutOf(causal, lifecycle)|
    ensures var cp', n := CommitStep(cp, causal, state, disposition, emitted, lifecycle), |cp.receipts|;
            n + j < |cp'.receipts| && EndsEvent(cp'.receipts[n + j], OutOf(causal, lifecycle)[j].Id())
  {
    hide QueueMap, Flat, EndedBy, RootStatus;
    OutLength(causal, lifecycle);
    OutAt(causal, lifecycle, j);
  }

  /** `seen` keeps the names of the events that `cp` has, and ends the entries `out`. */
  ghost predicate CommitShape(cp: Checkpoint, seen: Checkpoint, state: Aggregate, out: seq<Entry>) {
    var n := |cp.receipts|;
    && seen.record == Retained(state) && seen.tombstones == cp.tombstones
    && |seen.receipts| == n + |out|
    && (forall i :: 0 <= i < n && cp.receipts[i].Terminal? ==> EndsEvent(seen.receipts[i], cp.receipts[i].eventId))
    && (forall j :: 0 <= j < |out| ==> EndsEvent(seen.receipts[n + j], out[j].Id()))
  }

  predicate EndsEvent(r: Receipt, id: Text) {
    r.Terminal? && r.eventId == id
  }

  /** Both checkpoints hold the same entries and end the same events; revisions may differ. */
  ghost predicate Resembles(cp: Checkpoint, seen: Checkpoint) {
    && seen.record == cp.record && seen.tombstones == cp.tombstones && |seen.receipts| == |cp.receipts|
    && (forall i :: 0 <= i < |cp.receipts| && cp.receipts[i].Terminal? ==> EndsEvent(seen.receipts[i], cp.receipts[i].eventId))
  }

  lemma CommitResembled(cp: Checkpoint, seen: Checkpoint, causal: Entry, state: Aggregate, disposition: Disposition, emitted: seq<Emitted>, lifecycle: seq<Lifecycle>)
    requires Resembles(CommitStep(cp, causal, state, disposition, emitted, lifecycle), seen)
    ensures CommitShape(cp, seen, state, OutOf(causal, lifecycle))
  {
    hide CommitStep, OutOf;
    var cp', n := CommitStep(cp, causal, state, disposition, emitted, lifecycle), |cp.receipts|;
    CommitBodies(cp, causal, state, disposition, emitted, lifecycle);
    CommitRecord(cp, causal, state, disposition, emitted, lifecycle);
    forall i | 0 <= i < n && cp.receipts[i].Terminal? ensures EndsEvent(seen.receipts[i], cp.receipts[i].eventId) {
      assert SameBody(cp.receipts[i], cp'.receipts[i]);
    }
    forall j | 0 <= j < |OutOf(causal, lifecycle)| ensures EndsEvent(seen.receipts[n + j], OutOf(causal, lifecycle)[j].Id()) {
      CommitEnds(cp, causal, state, disposition, emitted, lifecycle, j);
      assert EndsEvent(cp'.receipts[n + j], OutOf(causal, lifecycle)[j].Id());
    }
  }

  /** A valid checkpoint names each of its events once. */
  lemma ValidNames(cp': Checkpoint)
    requires Valid(cp') && cp'.record.Retained?
    ensures UniqueTerminals(cp'.receipts) && QueuesOk(cp') && TombstonesOk(cp')
    ensures Named(MailOf(cp'.record.aggregate.runtimes)) && SourcesOk(cp'.record.aggregate)
  {
    hide ReceiptsOk, UniqueAcceptances, AllocationsOk, DigestsOk, ProvenanceOk, AcceptancesLead, OwnersOk, TerminalsExplained, ReferencesOk, StagesOk, EffectsOk;
  }

  /** Live and ended entries of a valid commit have different names. */
  lemma ValidApart(cp: Checkpoint, cp': Checkpoint, state: Aggregate, out: seq<Entry>, e: Entry, j: nat)
    requires UniqueTerminals(cp'.receipts) && QueuesOk(cp') && CommitShape(cp, cp', state, out) && j < |out|
    ensures e in MailOf(state.runtimes) ==> e.Id() != out[j].Id()
    ensures e in out && e != out[j] ==> e.Id() != out[j].Id()
  {
    hide MailOf;
    var n := |cp.receipts|;
    assert EndsEvent(cp'.receipts[n + j], out[j].Id());
    if e in out && e != out[j] {
      var k :| 0 <= k < |out| && out[k] == e;
      assert EndsEvent(cp'.receipts[n + k], e.Id());
    }
  }

  lemma ValidThenNamed(cp: Checkpoint, cp': Checkpoint, causal: Entry, state: Aggregate, lifecycle: seq<Lifecycle>)
    requires Valid(cp') && CommitShape(cp, cp', state, OutOf(causal, lifecycle))
    ensures Named(Tally(state, lifecycle, causal))
  {
    hide Valid, MailOf, Tally, TombstonesOk, SourcesOk, UniqueTerminals, QueuesOk, OutOf;
    ValidNames(cp');
    OutMail(state, causal, lifecycle);
    var m, out := MailOf(state.runtimes), OutOf(causal, lifecycle);
    forall e, f | e in Tally(state, lifecycle, causal) && f in Tally(state, lifecycle, causal) && e != f ensures e.Id() != f.Id() {
      assert e in m || e in multiset(out);
      assert f in m || f in multiset(out);
      if e !in m {
        var j :| 0 <= j < |out| && out[j] == e;
        ValidApart(cp, cp', state, out, f, j);
      } else if f !in m {
        var k :| 0 <= k < |out| && out[k] == f;
        ValidApart(cp, cp', state, out, e, k);
      }
    }
  }

  lemma ValidThenFresh(cp: Checkpoint, cp': Checkpoint, causal: Entry, state: Aggregate, emitted: seq<Emitted>, lifecycle: seq<Lifecycle>, k: nat)
    requires Valid(cp') && CommitShape(cp, cp', state, OutOf(causal, lifecycle))
    requires cp.record.Retained? && Announced(cp.record.aggregate, state, lifecycle, emitted) && k < |emitted| && !emitted[k].ToOutbox?
    ensures !Ended(cp.receipts, emitted[k].eventId) && !Buried(cp.tombstones, emitted[k].eventId)
  {
    hide Valid, MailOf, SourcesOk, New, OutOf, Named;
    ValidNames(cp');
    var id, n := emitted[k].eventId, |cp.receipts|;
    if emitted[k].ToMailbox? {
      var t :| t in MailOf(state.runtimes) && AnnouncesLive(emitted[k], t);
      assert AnnouncesLive(emitted[k], t);
      assert t in Live(cp') && IsLive(cp', id);
    } else {
      OutLength(causal, lifecycle);
      OutAt(causal, lifecycle, emitted[k].lifecycle + 1);
      assert AnnouncesDisposal(emitted[k], lifecycle[emitted[k].lifecycle].entry, emitted[k].lifecycle);
      assert EndsEvent(cp'.receipts[n + (emitted[k].lifecycle + 1)], id);
      assert Ended(cp'.receipts, id);
    }
    forall i | 0 <= i < n && cp.receipts[i].Terminal? ensures cp.receipts[i].eventId != id {
      assert EndsEvent(cp'.receipts[i], cp.receipts[i].eventId);
    }
  }

  /** If validation accepts what a commit looks like, the commit had everything that it needs. */
  lemma ValidThenOk(cp: Checkpoint, i: nat, n: Native, seen: Checkpoint)
    requires Coherent(cp) && CanStep(cp, i) && DispatcherOk(cp.record.aggregate, n) && Valid(seen)
    ensures var a := cp.record.aggregate; var causal, r := a.runtimes[i].ready[0], Finish(a, i, n);
            && r.Committed?
            && (!EffectRepeated(cp, r.emitted) && Resembles(CommitStep(cp, causal, r.state, r.disposition, r.emitted, r.lifecycle), seen) ==>
                  StepOk(cp, causal, r.state, r.emitted, r.lifecycle))
  {
    hide Coherent, Valid, Ready, MailOf, Finish, Named, EffectRepeated, SourcesOk, Ended, Buried, DispatcherOk, CommitStep, Tally, OutOf, Resembles, SeveralProducers;
    hide Traced, DisposalsTraced, Kept, Announced, Mailboxes, Numbered, Below, EmittedInOrder, IntentsInOrder;
    var a := cp.record.aggregate;
    var causal, r := a.runtimes[i].ready[0], Finish(a, i, n);
    InvReady(cp);
    HeadIsLive(cp, i);
    FinishConserves(a, i, n);
    if !EffectRepeated(cp, r.emitted) && Resembles(CommitStep(cp, causal, r.state, r.disposition, r.emitted, r.lifecycle), seen) {
      CommitResembled(cp, seen, causal, r.state, r.disposition, r.emitted, r.lifecycle);
      ValidNamesSources(seen);
      ValidThenNamed(cp, seen, causal, r.state, r.lifecycle);
      forall k: nat | k < |r.emitted| && !r.emitted[k].ToOutbox?
        ensures !Ended(cp.receipts, r.emitted[k].eventId) && !Buried(cp.tombstones, r.emitted[k].eventId)
      {
        ValidThenFresh(cp, seen, causal, r.state, r.emitted, r.lifecycle, k);
      }
    }
  }

  lemma ValidNamesSources(cp': Checkpoint)
    requires Valid(cp') && cp'.record.Retained?
    ensures SourcesOk(cp'.record.aggregate)
  {
    hide Valid, MailOf, SourcesOk, Named;
    ValidNames(cp');
  }

  lemma CommitRecord(cp: Checkpoint, causal: Entry, state: Aggregate, disposition: Disposition, emitted: seq<Emitted>, lifecycle: seq<Lifecycle>)
    ensures var cp' := CommitStep(cp, causal, state, disposition, emitted, lifecycle);
            cp'.record == Retained(state) && cp'.tombstones == cp.tombstones
  {
  }

  lemma ResemblesItself(cp: Checkpoint)
    ensures Resembles(cp, cp)
  {
  }

  /**
   From every reachable checkpoint, the commit of a dispatched step is valid if and only if the
   dispatcher's ids are new to the checkpoint and no entry that stays loses its emitter; the
   strengthened invariant then holds as well.
   */
  lemma CommitValidIff(cp: Checkpoint, i: nat, n: Native)
    requires Inv(cp) && CanStep(cp, i) && DispatcherOk(cp.record.aggregate, n)
    ensures var a := cp.record.aggregate; var causal, r := a.runtimes[i].ready[0], Finish(a, i, n);
            && r.Committed?
            && (!EffectRepeated(cp, r.emitted) ==>
                  var cp' := CommitStep(cp, causal, r.state, r.disposition, r.emitted, r.lifecycle);
                  (Valid(cp') <==> Sustains(cp, i, n)) && (Inv(cp') <==> Sustains(cp, i, n)))
  {
    hide Coherent, Sourced, Valid, Finish, EffectRepeated, DispatcherOk, CommitStep, Sustains, StepOk, Resembles, SeveralProducers;
    var a := cp.record.aggregate;
    StepOkIff(cp, i, n);
    var causal, r := a.runtimes[i].ready[0], Finish(a, i, n);
    var cp' := CommitStep(cp, causal, r.state, r.disposition, r.emitted, r.lifecycle);
    InvValid(cp');
    if Valid(cp') {
      ResemblesItself(cp');
      ValidThenOk(cp, i, n, cp');
    }
    if StepOk(cp, causal, r.state, r.emitted, r.lifecycle) {
      CommitStepInv(cp, causal, r.state, r.disposition, r.emitted, r.lifecycle);
    }
  }

  /** A coherent checkpoint satisfies the invariant exactly when validation accepts it. */
  lemma InvValid(cp: Checkpoint)
    ensures Inv(cp) <==> Coherent(cp) && Valid(cp)
  {
    hide Consistent, Sourced, Traceable, Strong;
  }

  // ------------------------------------------------------------------------------------------
  // The operation
  // ------------------------------------------------------------------------------------------

  /** The dispatcher keeps its promises about the ready head of the named runtime. */
  ghost predicate Dispatches(cp: Checkpoint, runtime: Text, dispatch: Dispatch) {
    cp.record.Retained? && CanStep(cp, Find(cp.record.aggregate.runtimes, runtime)) ==>
      DispatcherOk(cp.record.aggregate, Reported(dispatch))
  }

  /** The step defers the head, or validation can accept what the dispatcher reports about it. */
  ghost predicate Sustained(cp: Checkpoint, runtime: Text, dispatch: Dispatch) {
    && cp.record.Retained?
    && var a := cp.record.aggregate; var i := Find(a.runtimes, runtime);
       CanStep(cp, i) && (Step(a, runtime, dispatch).Deferred? || Sustains(cp, i, Reported(dispatch)))
  }

  /** What a core step on the ready head of the named runtime makes of the checkpoint. */
  function StepAnswer(cp: Checkpoint, runtime: Text, dispatch: Dispatch): Result<Answer, Failure>
    requires cp.record.Retained? && Runnable(cp.record.aggregate, Find(cp.record.aggregate.runtimes, runtime))
  {
    var a := cp.record.aggregate;
    ApplyStep(cp, a.runtimes[Find(a.runtimes, runtime)].ready[0], Step(a, runtime, dispatch))
  }

  /** The references by which the causal receipt of a step announces what the step emitted. */
  function Announcing(cp: Checkpoint, r: StepResult): seq<Reference> {
    if r.Committed? then RefsOf(r.emitted, cp.nextReceipt + 1) else []
  }

  /** A checkpoint that a core step yields is a transition if validation accepts what it looks like. */
  lemma StepTransition(cp: Checkpoint, runtime: Text, dispatch: Dispatch, seen: Checkpoint) returns (out: seq<Entry>, refs: seq<Reference>)
    requires Coherent(cp) && cp.record.Retained? && CanStep(cp, Find(cp.record.aggregate.runtimes, runtime))
    requires Dispatches(cp, runtime, dispatch)
    requires StepAnswer(cp, runtime, dispatch).Ok? && StepAnswer(cp, runtime, dispatch).value.Next?
    requires Resembles(StepAnswer(cp, runtime, dispatch).value.next, seen) && Valid(seen)
    ensures Transition(cp, StepAnswer(cp, runtime, dispatch).value.next, out, refs)
    ensures refs == Announcing(cp, Step(cp.record.aggregate, runtime, dispatch))
  {
    hide Finish, CommitStep, DeferHead, DispatcherOk, EffectRepeated, Transition, Consistent, Sourced, Traceable, Strong, StepOk, OutOf, RefsOf, Resembles, SeveralProducers;
    var a := cp.record.aggregate;
    var i := Find(a.runtimes, runtime);
    var causal, n := a.runtimes[i].ready[0], Reported(dispatch);
    var r := Finish(a, i, n);
    ValidThenOk(cp, i, n, seen);
    if Step(a, runtime, dispatch).Deferred? {
      out, refs := [], [];
      SameSources(StepAnswer(cp, runtime, dispatch).value.next, seen);
      DeferralTransition(cp, i);
    } else {
      out, refs := OutOf(causal, r.lifecycle), RefsOf(r.emitted, cp.nextReceipt + 1);
      CommitStepTransition(cp, causal, r.state, r.disposition, r.emitted, r.lifecycle);
    }
  }

  lemma SameSources(cp: Checkpoint, seen: Checkpoint)
    requires Resembles(cp, seen) && Valid(seen) && cp.record.Retained?
    ensures SourcesOk(cp.record.aggregate)
  {
    hide Consistent, ProvenanceOk, SourcesOk;
  }

  /** The checkpoint that a core step yields is valid exactly when the dispatch sustains it. */
  lemma StepAnswerIff(cp: Checkpoint, runtime: Text, dispatch: Dispatch)
    requires Inv(cp) && cp.record.Retained? && CanStep(cp, Find(cp.record.aggregate.runtimes, runtime))
    requires Dispatches(cp, runtime, dispatch)
    ensures var answer := StepAnswer(cp, runtime, dispatch);
            answer.Ok? && answer.value.Next? ==>
              && (Valid(answer.value.next) <==> Sustained(cp, runtime, dispatch))
              && (Inv(answer.value.next) <==> Sustained(cp, runtime, dispatch))
  {
    hide Finish, CommitStep, CommitDeferral, DeferHead, DispatcherOk, Sustains, EffectRepeated, Transition, Coherent, Sourced, Valid, SeveralProducers;
    var i := Find(cp.record.aggregate.runtimes, runtime);
    CommitValidIff(cp, i, Reported(dispatch));
    DeferralInv(cp, i);
  }

  lemma DeferralInv(cp: Checkpoint, i: nat)
    requires Inv(cp) && CanStep(cp, i)
    ensures var next := CommitDeferral(cp, DeferHead(cp.record.aggregate, i)); Inv(next) && Valid(next)
  {
    hide Coherent, Sourced, Transition, CommitDeferral, DeferHead, SourcesOk, Ready, Valid;
    var next := CommitDeferral(cp, DeferHead(cp.record.aggregate, i));
    InvReady(cp);
    DeferSources(cp.record.aggregate, i);
    DeferralTransition(cp, i);
    TransitionInv(cp, next, [], []);
    InvValid(next);
  }

  /**
   A step does not validate its result. It leaves a valid checkpoint, which then satisfies the
   invariant, if and only if it defers the head or the dispatch sustains the commit.
   */
  lemma StepInvIff(cp: Checkpoint, bundle: Text, q: StepRequest, g: Guard, dispatch: Dispatch)
    requires Inv(cp) && Dispatches(cp, q.runtime, dispatch)
    ensures var next := After(cp, StepCheckpoint(cp, bundle, q, g, dispatch));
            next != cp ==>
              && (Valid(next) <==> Sustained(cp, q.runtime, dispatch))
              && (Inv(next) <==> Sustained(cp, q.runtime, dispatch))
  {
    hide Coherent, Sourced, Valid, Step, CommitStep, CommitDeferral, EffectRepeated, Dispatches, Sustained, StepReplay, Holds, SeveralProducers;
    if cp.record.Retained? && CanStep(cp, Find(cp.record.aggregate.runtimes, q.runtime)) {
      StepAnswerIff(cp, q.runtime, dispatch);
    }
  }
}
