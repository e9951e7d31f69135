/**
 The ids that a dispatch derives are new to the checkpoint. Every logical step derives its ids from
 its own number, so the only event that can already carry such an id is one that a host delivered
 under it. Effect ids are never chosen by a host, so they never repeat.
 */
module Novelty {
  import opened Wrappers
  import opened CheckpointModel
  import opened CheckpointValidity
  import opened WireCore
  import opened WireCoreProofs
  import opened StepContract
  import opened StepProofs
  import opened StepTheorem
  import opened StepIdentity
  import opened StepSources
  import opened Transitions
  import opened TransitionRefs
  import opened TransitionTheorem
  import opened CheckpointOps
  import opened CheckpointLoops
  import opened RootProofs
  import opened StepPreservation
  import opened IdentityProofs
  import opened AdmitProofs
  import opened AdmitTheorem
  import opened CreateProofs
  import opened CreateTheorem
  import opened Rewriting
  import opened OutboxProofs
  import opened PruneProofs
  import opened ProcessProofs
  import opened Evolution
  import opened Identities
  import opened Runs

  /** No id that the engine can still derive is taken. */
  ghost predicate Untaken(cp: Checkpoint) {
    cp.record.Retained? ==>
      && (forall id :: Known(cp, id) ==> !EventAhead(cp.root, cp.record.aggregate.nextStep, id))
      && (forall f :: IsEffect(cp, f) ==> !EffectAhead(cp.root, cp.record.aggregate.nextStep, f))
  }

  /** The dispatcher derives the ids of a step from the number of the step, which it then uses up. */
  ghost predicate Identifies(a: Aggregate, n: Native) {
    && (exists from :: Derived(a.root, a.nextStep, n.emissions, from))
    && n.nextStep >= a.nextStep
    && (n.emissions != [] ==> n.nextStep > a.nextStep)
  }

  // ------------------------------------------------------------------------------------------
  // Derived ids are new
  // ------------------------------------------------------------------------------------------

  /** Whatever was derived is new to a checkpoint with no such id taken. */
  lemma DerivedIsNew(cp: Checkpoint, ms: seq<Emission>, from: seq<Derivation>)
    requires cp.record.Retained? && Untaken(cp) && Derived(cp.root, cp.record.aggregate.nextStep, ms, from)
    ensures NewIds(cp, ms)
    ensures forall k :: 0 <= k < |ms| && ms[k].External? ==> !IsEffect(cp, ms[k].intent.effectId)
    ensures DistinctEffects(ms)
  {
    hide DerivedFrom, EventAhead, EffectAhead, IsEffect, Live, Ended, Buried;
    var step := cp.record.aggregate.nextStep;
    forall k | 0 <= k < |ms|
      ensures ms[k].Send? ==> !Known(cp, ms[k].eventId) && !HasId(Live(cp), ms[k].eventId)
      ensures ms[k].External? ==> !IsEffect(cp, ms[k].intent.effectId)
    {
      DerivedOnce(cp.root, step, ms[k], from[k]);
      if ms[k].Send? {
        LiveHasId(cp, ms[k].eventId);
      }
    }
    forall k: nat, l: nat | k < l < |ms|
      ensures ms[k].Send? && ms[l].Send? ==> ms[k].eventId != ms[l].eventId
      ensures ms[k].External? && ms[l].External? ==> ms[k].intent.effectId != ms[l].intent.effectId
    {
      DerivedApart(cp.root, step, ms, from, k, l);
    }
  }

  lemma LiveHasId(cp: Checkpoint, id: Text)
    ensures HasId(Live(cp), id) <==> IsLive(cp, id)
  {
  }

  lemma FinishReports(cp: Checkpoint, i: nat, n: Native)
    requires Coherent(cp) && CanStep(cp, i) && DispatcherOk(cp.record.aggregate, n)
    ensures var r := Finish(cp.record.aggregate, i, n);
            r.Committed? && |r.emitted| == |n.emissions| && forall k :: 0 <= k < |n.emissions| ==> Reports(n.emissions[k], r.emitted[k])
  {
    hide Coherent, Ready, MailOf, LifeMail, Carried, EmitAll, Finish, Named, Building, Stages, Reports;
    InvReady(cp);
    FinishStages(cp.record.aggregate, i, n);
  }

  /** No derived effect id is refused as a repetition. */
  lemma NoEffectRepeated(cp: Checkpoint, i: nat, n: Native)
    requires Coherent(cp) && Untaken(cp) && CanStep(cp, i) && DispatcherOk(cp.record.aggregate, n) && Identifies(cp.record.aggregate, n)
    ensures var r := Finish(cp.record.aggregate, i, n); r.Committed? && !EffectRepeated(cp, r.emitted)
  {
    hide Coherent, Untaken, Derived, Finish, DispatcherOk, NewIds, Ready;
    InvReady(cp);
    FinishReports(cp, i, n);
    var from :| Derived(cp.root, cp.record.aggregate.nextStep, n.emissions, from);
    DerivedIsNew(cp, n.emissions, from);
    var r := Finish(cp.record.aggregate, i, n);
    forall k | 0 <= k < |r.emitted| && r.emitted[k].ToOutbox? ensures !EffectRetained(cp, r.emitted[k].intent.effectId) {
      assert Reports(n.emissions[k], r.emitted[k]);
      assert !IsEffect(cp, n.emissions[k].intent.effectId);
    }
    forall k, l | 0 <= k < l < |r.emitted| && r.emitted[k].ToOutbox? && r.emitted[l].ToOutbox?
      ensures r.emitted[k].intent.effectId != r.emitted[l].intent.effectId
    {
      assert Reports(n.emissions[k], r.emitted[k]) && Reports(n.emissions[l], r.emitted[l]);
    }
  }

  lemma UniqueProducersOf(cp: Checkpoint)
    requires Coherent(cp)
    ensures UniqueProducers(cp.receipts)
  {
    hide Coherent, UniqueProducers, Traceable, TerminalsExplained;
    ValidReferences(cp);
  }

  /** A step finds no event with several producers if its emissions are new to the references and differ. */
  lemma OneProducerOf(cp: Checkpoint, i: nat, n: Native)
    requires Coherent(cp) && CanStep(cp, i) && DispatcherOk(cp.record.aggregate, n)
    requires forall k, p, l :: 0 <= k < |n.emissions| && n.emissions[k].Send? ==> !Concerns(cp.receipts, p, l, n.emissions[k].eventId)
    requires forall k, l :: 0 <= k < l < |n.emissions| && n.emissions[k].Send? && n.emissions[l].Send? ==> n.emissions[k].eventId != n.emissions[l].eventId
    ensures var a := cp.record.aggregate; var causal, r := a.runtimes[i].ready[0], Finish(a, i, n);
            r.Committed? && !SeveralProducers(CommitBase(cp, causal, r.state, r.disposition, r.emitted), causal, r.lifecycle)
  {
    hide Coherent, Finish, DispatcherOk, Concerns, SeveralProducers, CommitBase, UniqueProducers;
    var a := cp.record.aggregate;
    var r := Finish(a, i, n);
    FinishReports(cp, i, n);
    UniqueProducersOf(cp);
    forall k, p, l | 0 <= k < |r.emitted| && !r.emitted[k].ToOutbox? ensures !Concerns(cp.receipts, p, l, r.emitted[k].eventId) {
      assert Reports(n.emissions[k], r.emitted[k]);
    }
    forall k, l | 0 <= k < l < |r.emitted| && !r.emitted[k].ToOutbox? && !r.emitted[l].ToOutbox? ensures r.emitted[k].eventId != r.emitted[l].eventId {
      assert Reports(n.emissions[k], r.emitted[k]) && Reports(n.emissions[l], r.emitted[l]);
    }
    assert Unreferenced(cp.receipts, r.emitted);
    NeverSeveralProducers(cp, a.runtimes[i].ready[0], r.state, r.disposition, r.emitted, r.lifecycle);
  }

  /** With new ids the error for several producers is unreachable. */
  lemma OneProducer(cp: Checkpoint, i: nat, n: Native)
    requires Coherent(cp) && CanStep(cp, i) && DispatcherOk(cp.record.aggregate, n) && NewIds(cp, n.emissions)
    ensures var a := cp.record.aggregate; var causal, r := a.runtimes[i].ready[0], Finish(a, i, n);
            r.Committed? && !SeveralProducers(CommitBase(cp, causal, r.state, r.disposition, r.emitted), causal, r.lifecycle)
  {
    hide Coherent, Finish, DispatcherOk, Concerns, SeveralProducers, CommitBase, Live, IsLive, Ended, Buried, HasId;
    forall k, p, l | 0 <= k < |n.emissions| && n.emissions[k].Send? ensures !Concerns(cp.receipts, p, l, n.emissions[k].eventId) {
      if Concerns(cp.receipts, p, l, n.emissions[k].eventId) {
        ConcernedIsKnown(cp, p, l, n.emissions[k].eventId);
        LiveHasId(cp, n.emissions[k].eventId);
      }
    }
    OneProducerOf(cp, i, n);
  }

  /**
   With derived ids a dispatched step always commits, and its commit is valid if and only if no
   entry that stays loses its emitter and every delivered send is well sourced: no id stands in
   the way.
   */
  lemma DerivedCommits(cp: Checkpoint, i: nat, n: Native)
    requires Inv(cp) && Untaken(cp) && CanStep(cp, i) && DispatcherOk(cp.record.aggregate, n) && Identifies(cp.record.aggregate, n)
    ensures var a := cp.record.aggregate; var causal, r := a.runtimes[i].ready[0], Finish(a, i, n);
            && ApplyStep(cp, causal, r).Ok? && ApplyStep(cp, causal, r).value.Next?
            && (Valid(ApplyStep(cp, causal, r).value.next) <==> SourcesSurvive(a, causal, n))
  {
    hide Coherent, Sourced, Valid, Untaken, Derived, Finish, CommitStep, DispatcherOk, NewIds, SourcesSurvive, EffectRepeated, Ready, SeveralProducers;
    InvReady(cp);
    NoEffectRepeated(cp, i, n);
    CommitValidIff(cp, i, n);
    var from :| Derived(cp.root, cp.record.aggregate.nextStep, n.emissions, from);
    DerivedIsNew(cp, n.emissions, from);
    OneProducer(cp, i, n);
  }

  // ------------------------------------------------------------------------------------------
  // What becomes known
  // ------------------------------------------------------------------------------------------

  ghost predicate AnnouncesEvent(refs: seq<Reference>, id: Text) {
    exists k :: 0 <= k < |refs| && !refs[k].OutboxRef? && refs[k].eventId == id
  }

  /** A transition makes known what it announces and nothing else. */
  lemma KnownAfter(cp: Checkpoint, cp': Checkpoint, out: seq<Entry>, refs: seq<Reference>, id: Text)
    requires Transition(cp, cp', out, refs) && Known(cp', id)
    ensures Known(cp, id) || AnnouncesEvent(refs, id)
  {
    hide Transition, Live, Everything, Distinct, New;
    TransitionBasics(cp, cp', out, refs);
    if IsLive(cp', id) {
      var t :| t in Live(cp') && t.Id() == id;
      LiveComesFrom(cp, cp', out, refs, t);
    } else if Ended(cp'.receipts, id) {
      var i :| 0 <= i < |cp'.receipts| && cp'.receipts[i].Terminal? && cp'.receipts[i].eventId == id;
      Split(cp, cp', out, refs, i);
      if i >= |cp.receipts| {
        var e := out[i - |cp.receipts|];
        if e !in Live(cp) {
          OutAnnounced(cp, cp', out, refs, i - |cp.receipts|);
        }
      }
    }
  }

  lemma EffectAfter(cp: Checkpoint, cp': Checkpoint, out: seq<Entry>, refs: seq<Reference>, f: Text)
    requires Transition(cp, cp', out, refs) && IsEffect(cp', f)
    ensures IsEffect(cp, f) || AnnouncesEffect(refs, f)
  {
    hide Transition, EffectsAdvance, AnnouncesEffect, IsPending, IsTerminal, IsCompacted;
    EffectsOf(cp, cp', out, refs);
    PendingAfter(cp, cp', refs, f);
  }

  /** What is announced can never be derived again. */
  ghost predicate UsesUp(root: Text, step: nat, refs: seq<Reference>) {
    forall k :: 0 <= k < |refs| ==>
      if refs[k].OutboxRef? then !EffectAhead(root, step, refs[k].effectId) else !EventAhead(root, step, refs[k].eventId)
  }

  lemma TransitionUntaken(cp: Checkpoint, cp': Checkpoint, out: seq<Entry>, refs: seq<Reference>)
    requires Transition(cp, cp', out, refs) && Untaken(cp) && cp.record.Retained?
    requires cp'.record.Retained? ==>
               cp'.record.aggregate.nextStep >= cp.record.aggregate.nextStep && UsesUp(cp.root, cp'.record.aggregate.nextStep, refs)
    ensures Untaken(cp')
  {
    hide Transition, Known, IsEffect, Everything, Distinct, EventIdentity, EffectIdentity;
    TransitionBasics(cp, cp', out, refs);
    if cp'.record.Retained? {
      forall id | Known(cp', id) ensures !EventAhead(cp'.root, cp'.record.aggregate.nextStep, id) {
        KnownAfter(cp, cp', out, refs, id);
      }
      forall f | IsEffect(cp', f) ensures !EffectAhead(cp'.root, cp'.record.aggregate.nextStep, f) {
        EffectAfter(cp, cp', out, refs, f);
      }
    }
  }

  // ------------------------------------------------------------------------------------------
  // The step counter
  // ------------------------------------------------------------------------------------------

  lemma EmitStep(b: Build, m: Emission)
    ensures Emit(b, m).aggregate.nextStep == b.aggregate.nextStep
  {
  }

  lemma {:induction false} EmitAllStep(b: Build, ms: seq<Emission>)
    ensures EmitAll(b, ms).aggregate.nextStep == b.aggregate.nextStep
  {
    if ms != [] {
      hide Emit;
      EmitAllStep(b, ms[..|ms| - 1]);
      EmitStep(EmitAll(b, ms[..|ms| - 1]), ms[|ms| - 1]);
    }
  }

  lemma {:induction false} RecallStep(a: Aggregate, ns: seq<NativeRuntime>, k: nat)
    requires k <= |ns| == |a.runtimes|
    ensures Recall(a, ns, k).nextStep == a.nextStep
  {
    if k > 0 {
      hide Recalled, Stays;
      RecallStep(a, ns, k - 1);
    }
  }

  lemma FinishStep(a: Aggregate, i: nat, n: Native)
    requires Runnable(a, i)
    ensures Finish(a, i, n).Committed? && Finish(a, i, n).state.nextStep == n.nextStep
  {
    hide Carried, EmitAll, Recall, Finish;
    FinishEq(a, i, n);
    CarriedEq(a, i, n);
    EmitAllStep(Carried(a, i, n), n.emissions);
    var built := EmitAll(Carried(a, i, n), n.emissions);
    if |n.runtimes| == |built.aggregate.runtimes| {
      RecallStep(built.aggregate, n.runtimes, |n.runtimes|);
    }
  }

  /** Whatever the dispatcher reports about the ready head of the named runtime has derived ids. */
  ghost predicate Identified(cp: Checkpoint, runtime: Text, dispatch: Dispatch) {
    cp.record.Retained? && CanStep(cp, Find(cp.record.aggregate.runtimes, runtime)) ==>
      Identifies(cp.record.aggregate, Reported(dispatch))
  }

  lemma AnnouncedUsedUp(cp: Checkpoint, i: nat, n: Native)
    requires Coherent(cp) && CanStep(cp, i) && DispatcherOk(cp.record.aggregate, n) && Identifies(cp.record.aggregate, n)
    ensures var r := Finish(cp.record.aggregate, i, n); r.Committed? && UsesUp(cp.root, n.nextStep, RefsOf(r.emitted, cp.nextReceipt + 1))
  {
    hide Coherent, Finish, DispatcherOk, DerivedFrom, EventIdentity, EffectIdentity, Ready;
    InvReady(cp);
    FinishReports(cp, i, n);
    var step, ms := cp.record.aggregate.nextStep, n.emissions;
    var from :| Derived(cp.root, step, ms, from);
    var r := Finish(cp.record.aggregate, i, n);
    var refs := RefsOf(r.emitted, cp.nextReceipt + 1);
    forall k | 0 <= k < |refs|
      ensures if refs[k].OutboxRef? then !EffectAhead(cp.root, n.nextStep, refs[k].effectId) else !EventAhead(cp.root, n.nextStep, refs[k].eventId)
    {
      assert Reports(ms[k], r.emitted[k]);
      DerivedOnce(cp.root, step, ms[k], from[k]);
    }
  }

  /** A step leaves no id taken that could still be derived. */
  lemma StepUntaken(cp: Checkpoint, runtime: Text, dispatch: Dispatch, next: Checkpoint, out: seq<Entry>, refs: seq<Reference>)
    requires Coherent(cp) && Untaken(cp) && cp.record.Retained? && CanStep(cp, Find(cp.record.aggregate.runtimes, runtime))
    requires Dispatches(cp, runtime, dispatch) && Identified(cp, runtime, dispatch)
    requires StepAnswer(cp, runtime, dispatch) == Ok(Next(next)) && Transition(cp, next, out, refs)
    requires refs == Announcing(cp, Step(cp.record.aggregate, runtime, dispatch))
    ensures Untaken(next)
  {
    hide Coherent, Untaken, Transition, Finish, CommitStep, DispatcherOk, Identifies, UsesUp, RefsOf, EffectRepeated, SeveralProducers;
    var a := cp.record.aggregate;
    var i, n := Find(a.runtimes, runtime), Reported(dispatch);
    FinishStep(a, i, n);
    AnnouncedUsedUp(cp, i, n);
    NothingUsedUp(cp.root, a.nextStep);
    IdentifiesStep(a, n);
    var r := Step(a, runtime, dispatch);
    if r.Committed? {
      CommitRecord(cp, a.runtimes[i].ready[0], r.state, r.disposition, r.emitted, r.lifecycle);
    }
    TransitionUntaken(cp, next, out, refs);
  }

  lemma NothingUsedUp(root: Text, step: nat)
    ensures UsesUp(root, step, [])
  {
  }

  lemma IdentifiesStep(a: Aggregate, n: Native)
    requires Identifies(a, n)
    ensures n.nextStep >= a.nextStep
  {
  }

  // ------------------------------------------------------------------------------------------
  // Admission and pruning
  // ------------------------------------------------------------------------------------------

  /** The delivery carries no id that the engine can still derive. */
  ghost predicate Claimless(cp: Checkpoint, d: Delivery) {
    cp.record.Retained? ==> !EventAhead(cp.root, cp.record.aggregate.nextStep, d.envelope.eventId)
  }

  lemma ExtendsUntaken(cp: Checkpoint, ds: seq<Delivery>, cp': Checkpoint)
    requires Extends(cp, ds, cp') && Untaken(cp) && forall k :: 0 <= k < |ds| ==> Claimless(cp, ds[k])
    ensures Untaken(cp')
  {
    hide Extends, Ready, EventAhead, EffectAhead, IsLive, Ended;
    ExtendsFacts(cp, ds, cp');
    forall id | Known(cp', id) ensures !EventAhead(cp'.root, cp'.record.aggregate.nextStep, id) {
      StillLive(cp, ds, cp', id);
      StillEndedIff(cp, ds, cp', id);
      if k :| 0 <= k < |ds| && ds[k].envelope.eventId == id {
        assert Claimless(cp, ds[k]);
      }
    }
    forall f | IsEffect(cp', f) ensures IsEffect(cp, f) {
    }
  }

  lemma PrunedKnown(cp: Checkpoint, q: PruneRequest, cp': Checkpoint, at: seq<nat>, id: Text)
    requires ReceiptsOk(cp) && Pruned(cp, q, cp', at) && Known(cp', id)
    ensures Known(cp, id)
  {
    hide ReceiptsOk, Pruned, Live, Removable;
    PrunedBasics(cp, q, cp', at);
    if Ended(cp'.receipts, id) {
      var i :| 0 <= i < |cp'.receipts| && cp'.receipts[i].Terminal? && cp'.receipts[i].eventId == id;
      PrunedReceipt(cp, q, cp', at, i);
    } else if Buried(cp'.tombstones, id) {
      var x :| 0 <= x < |cp'.tombstones| && cp'.tombstones[x].eventId == id;
      PrunedTombstone(cp, q, cp', at, x);
    }
  }

  lemma PruneUntaken(cp: Checkpoint, q: PruneRequest, g: Guard)
    requires Inv(cp) && Untaken(cp)
    ensures Untaken(After(cp, Prune(cp, q, g)))
  {
    hide Coherent, Sourced, Prune, Prunable, PruneTo, Burials, Known, IsEffect, EventAhead, EffectAhead, AllocationsOk, UniqueAcceptances, UniqueTerminals, QueuesOk, ReceiptsOk, EffectsMove;
    var next := After(cp, Prune(cp, q, g));
    if next != cp {
      GuardsInRange(cp, q, g);
      var at := BuryAt(cp.receipts, q.cutoff);
      ValidTerminals(cp);
      PrunedBasics(cp, q, next, at);
      forall id | Known(next, id) ensures Known(cp, id) {
        PrunedKnown(cp, q, next, at, id);
      }
      forall f | IsEffect(next, f) ensures IsEffect(cp, f) {
        PrunedEffect(cp, q, next, at, f);
      }
    }
  }

  lemma PrunedEffect(cp: Checkpoint, q: PruneRequest, cp': Checkpoint, at: seq<nat>, f: Text)
    requires Inv(cp) && Pruned(cp, q, cp', at) && IsEffect(cp', f)
    ensures IsEffect(cp, f)
  {
    hide Coherent, Sourced, Pruned, PendingMoves, TerminalMoves;
    PrunedOutbox(cp, q, cp', at);
    PrunedBasics(cp, q, cp', at);
    assert IsPending(cp', f) ==> IsPending(cp, f);
  }

  /** Nothing but the outbox changes, and no effect is added. */
  lemma OutboxUntaken(cp: Checkpoint, cp': Checkpoint)
    requires Untaken(cp) && cp'.root == cp.root && cp'.record == cp.record && cp'.receipts == cp.receipts && cp'.tombstones == cp.tombstones
    requires forall f :: IsEffect(cp', f) ==> IsEffect(cp, f)
    ensures Untaken(cp')
  {
    hide IsEffect, EventAhead, EffectAhead;
    assert Live(cp') == Live(cp);
  }

  lemma ClipUntaken(cp: Checkpoint, limit: nat)
    requires Untaken(cp)
    ensures Untaken(Clip(cp, limit))
  {
    hide Clip, EventAhead, EffectAhead, IsLive, Ended;
    ClipBasics(cp, limit);
    var c := Clip(cp, limit);
    forall id | Known(c, id) ensures Known(cp, id) {
      ClipEnded(cp, limit, id);
    }
    forall f | IsEffect(c, f) ensures IsEffect(cp, f) {
      ClipIsPending(cp, limit, f);
    }
  }

  // ------------------------------------------------------------------------------------------
  // Creation
  // ------------------------------------------------------------------------------------------

  lemma FoundedKnown(cp: Checkpoint, out: seq<Entry>, refs: seq<Reference>, id: Text)
    requires Founded(cp, out, refs) && FoundedEntries(cp, out, refs) && Known(cp, id)
    ensures AnnouncesEvent(refs, id)
  {
    hide Founded, Live, Distinct, Below, Mailboxes, SourcesOk, DistinctRefs, Everything;
    FoundedNumbers(cp, out, refs);
    if IsLive(cp, id) {
      var t :| t in Live(cp) && t.Id() == id;
      var k :| 0 <= k < |refs| && Names(refs[k], t);
      assert Names(refs[k], t);
    } else {
      var i :| 0 <= i < |cp.receipts| && cp.receipts[i].Terminal? && cp.receipts[i].eventId == id;
      FoundedAt(cp, out, refs, i);
      assert HasEnd(refs, out[i - 1], 1 + (i - 1));
    }
  }

  lemma FoundedEffect(cp: Checkpoint, refs: seq<Reference>, f: Text)
    requires cp.record.Retained? && FoundedEffects(cp, refs) && IsEffect(cp, f)
    ensures AnnouncesEffect(refs, f)
  {
    hide AnnouncesEffect, IsPending;
  }

  lemma CreatedUsesUp(root: Text, creationId: Text, n: NativeRoot, from: seq<Derivation>)
    requires RootOk(n) && Derived(root, 0, n.emissions, from)
    ensures UsesUp(root, 1, RefsOf(CreateCore(root, creationId, n).emitted, 1))
    ensures CreateCore(root, creationId, n).aggregate.nextStep == 1
  {
    hide EmitAll, Building, FreshIds, Delivered, Appended, Total, Named, RootOk, Reports, DerivedFrom, EventAhead, EffectAhead, Bare;
    CreatedBuild(root, creationId, n);
    EmitAllStep(Blank(root, creationId, n), n.emissions);
    var emitted := CreateCore(root, creationId, n).emitted;
    var refs := RefsOf(emitted, 1);
    forall k | 0 <= k < |refs|
      ensures if refs[k].OutboxRef? then !EffectAhead(root, 1, refs[k].effectId) else !EventAhead(root, 1, refs[k].eventId)
    {
      DerivedOnce(root, 0, n.emissions[k], from[k]);
      ReportedId(n.emissions[k], emitted[k], 1);
    }
  }

  lemma ReportedId(m: Emission, r: Emitted, first: nat)
    requires Reports(m, r)
    ensures var ref := RefOf(r, first);
            (m.External? <==> ref.OutboxRef?) && (m.External? ==> ref.effectId == m.intent.effectId) && (m.Send? ==> ref.eventId == m.eventId)
  {
  }

  /** Creation uses up logical step 0. */
  lemma CreatedUntaken(root: Text, creationId: Text, request: Text, retention: CheckpointModel.Retention, n: NativeRoot, from: seq<Derivation>)
    requires RootOk(n) && Derived(root, 0, n.emissions, from) && Create(root, creationId, request, retention, n).Ok?
    ensures Untaken(Create(root, creationId, request, retention, n).value)
  {
    hide RootOk, Derived, CreateCore, Valid, Inv, RootSustains, DistinctEffects, Founded, FoundedEntries, FoundedEffects, EffectRepeated, RefsOf, Known, IsEffect, EventAhead, EffectAhead, SeveralProducers;
    CreateIff(root, creationId, request, retention, n);
    CreateFounds(root, creationId, request, retention, n);
    CreatedUsesUp(root, creationId, n, from);
    var b := CreateCore(root, creationId, n);
    var cp, out, refs := Create(root, creationId, request, retention, n).value, Entries(b.lifecycle), RefsOf(b.emitted, 1);
    forall id | Known(cp, id) ensures !EventAhead(root, 1, id) {
      FoundedKnown(cp, out, refs, id);
    }
    forall f | IsEffect(cp, f) ensures !EffectAhead(root, 1, f) {
      FoundedEffect(cp, refs, f);
    }
  }

  /** With derived ids, creation fails only for a claim of pruning or a delivered send without a source. */
  lemma DerivedCreates(root: Text, creationId: Text, request: Text, retention: CheckpointModel.Retention, n: NativeRoot, from: seq<Derivation>)
    requires RootOk(n) && Derived(root, 0, n.emissions, from)
    ensures Create(root, creationId, request, retention, n).Ok? <==>
              && retention.Base() == 0
              && (NativeCompleted(n.runtimes, n.rootRuntime) ||
                  forall k :: 0 <= k < |n.emissions| && n.emissions[k].Send? && NativeActive(n.runtimes, n.emissions[k].target) ==>
                    WellSourced(n.runtimes, n.emissions[k]))
  {
    hide RootOk, Create, NativeCompleted, NativeActive, WellSourced, DerivedFrom;
    CreateIff(root, creationId, request, retention, n);
    var ms := n.emissions;
    forall k: nat, l: nat | k < l < |ms|
      ensures ms[k].Send? && ms[l].Send? ==> ms[k].eventId != ms[l].eventId
      ensures ms[k].External? && ms[l].External? ==> ms[k].intent.effectId != ms[l].intent.effectId
    {
      DerivedApart(root, 0, ms, from, k, l);
    }
    assert FreshIds(multiset{}, ms);
  }

  // ------------------------------------------------------------------------------------------
  // Runs
  // ------------------------------------------------------------------------------------------

  /** Dispatches derive their ids, and deliveries do not claim ids that could still be derived. */
  ghost predicate Proper(cp: Checkpoint, op: Operation) {
    match op
    case AdmitOp(_, ds, _, _) => forall k :: 0 <= k < |ds| ==> Claimless(cp, ds[k])
    case StepOp(_, q, _, dispatch) => Identified(cp, q.runtime, dispatch)
    case ProcessOp(definition, d, g, accepts, dispatch) =>
      && Claimless(cp, d)
      && Identified(After(cp, Admit(cp, Some(definition), [d], g, accepts)), d.envelope.target.runtime, dispatch)
    case _ => true
  }

  lemma OutboxOpUntaken(cp: Checkpoint, op: Operation)
    requires Inv(cp) && Untaken(cp) && (op.UpdateOp? || op.TerminalizeOp? || op.CompactOp?)
    ensures Untaken(Successor(cp, op))
  {
    hide Coherent, Sourced, Valid, Untaken, EffectsMove, FindPending, FindEffect, FindCompacted, InsertCompacted, IsEffect;
    var next := Successor(cp, op);
    NeverRefused(cp, op);
    forall f | IsEffect(next, f) ensures IsEffect(cp, f) {
      match op
      case UpdateOp(effect, state, g) => UpdateOkEffects(cp, effect, state, g, f);
      case TerminalizeOp(effect, outcome, g) => TerminalizeOkEffects(cp, effect, outcome, g, f);
      case CompactOp(effect, g) => CompactOkEffects(cp, effect, g, f);
    }
    OutboxUntaken(cp, next);
  }

  lemma UpdateOkEffects(cp: Checkpoint, effect: Text, state: DeliveryState, g: Guard, f: Text)
    requires IsEffect(After(cp, UpdatePending(cp, effect, state, g)), f)
    ensures IsEffect(cp, f)
  {
    hide FindPending;
    var next := After(cp, UpdatePending(cp, effect, state, g));
    assert |next.pending| == |cp.pending| && forall j :: 0 <= j < |cp.pending| ==> next.pending[j].intent == cp.pending[j].intent;
  }

  lemma TerminalizeOkEffects(cp: Checkpoint, effect: Text, outcome: EffectOutcome, g: Guard, f: Text)
    requires IsEffect(After(cp, Terminalize(cp, effect, outcome, g)), f)
    ensures IsEffect(cp, f)
  {
    hide FindPending, FindEffect, FindCompacted, IsEffect;
    var p := FindPending(cp.pending, effect);
    if p < |cp.pending| {
      MovedEffect(cp, p, outcome, f);
    }
  }

  lemma CompactOkEffects(cp: Checkpoint, effect: Text, g: Guard, f: Text)
    requires IsEffect(After(cp, Compact(cp, effect, g)), f)
    ensures IsEffect(cp, f)
  {
    hide FindEffect, FindCompacted, InsertCompacted, IsEffect;
    var t := FindEffect(cp.terminals, effect);
    if t < |cp.terminals| {
      var q := InsertAt(cp.compacted, TombstoneOf(cp.root, cp.terminals[t]));
      CompactedEffect(cp, t, q, f);
    }
  }

  lemma {:induction false} UnknownClaimless(cp: Checkpoint, known: map<Text, Identity>, ds: seq<Delivery>)
    requires forall k :: 0 <= k < |ds| ==> Claimless(cp, ds[k])
    ensures forall k :: 0 <= k < |Unknown(known, ds)| ==> Claimless(cp, Unknown(known, ds)[k])
  {
    if ds != [] {
      hide Claimless;
      UnknownClaimless(cp, known, ds[..|ds| - 1]);
    }
  }

  /** Every proper operation leaves no id taken that could still be derived. */
  lemma PerformUntaken(cp: Checkpoint, op: Operation)
    requires Inv(cp) && Untaken(cp) && Dispatched(cp, op) && Proper(cp, op)
    ensures Untaken(Successor(cp, op))
  {
    hide Coherent, Sourced, Valid, Untaken, Admit, StepCheckpoint, Process, Prune, UpdatePending, Terminalize, Compact, TombstoneRoot, Unknown, RetainedIdentity;
    hide Clip, Clippable, Transition, Extends, Claimless, Identified, Dispatches, Announcing, StepAnswer, Step, UsesUp, Ready;
    var next := Successor(cp, op);
    match op
    case AdmitOp(bundle, ds, g, accepts) =>
      AdmitAnswer(cp, bundle, ds, g, accepts);
      if next != cp {
        UnknownClaimless(cp, RetainedIdentity(cp), ds);
        ExtendsUntaken(cp, Unknown(RetainedIdentity(cp), ds), next);
      }
    case StepOp(definition, q, g, dispatch) =>
      var out, refs := StepShape(cp, definition, q, g, dispatch);
      if next != cp {
        StepUntaken(cp, q.runtime, dispatch, next, out, refs);
      }
    case ProcessOp(definition, d, g, accepts, dispatch) =>
      var admitted, stepped, out, refs := ProcessShape(cp, definition, d, g, accepts, dispatch);
      if next != cp {
        ExtendsUntaken(cp, [d], admitted);
        StepUntaken(admitted, d.envelope.target.runtime, dispatch, stepped, out, refs);
        ClipUntaken(stepped, cp.revision + 1);
      }
    case PruneOp(q, g) => PruneUntaken(cp, q, g);
    case UpdateOp(_, _, _) => OutboxOpUntaken(cp, op);
    case TerminalizeOp(_, _, _) => OutboxOpUntaken(cp, op);
    case CompactOp(_, _) => OutboxOpUntaken(cp, op);
    case TombstoneOp(operationId, g) =>
      var out, refs := TombstoneShape(cp, operationId, g);
      if next != cp {
        TombstonedUntaken(cp, operationId, g);
      }
  }

  lemma TombstonedUntaken(cp: Checkpoint, operationId: Text, g: Guard)
    requires After(cp, TombstoneRoot(cp, operationId, g)) != cp
    ensures Untaken(After(cp, TombstoneRoot(cp, operationId, g)))
  {
    hide Known, IsEffect, StatusOf, RewriteAll, EndedBy, LifecycleReceipts;
  }

  /**
   In every run from a checkpoint without taken ids whose deliveries claim no derivable id, no
   dispatch ever meets a known event id or a retained effect id.
   */
  lemma {:induction false} RunUntaken(run: seq<Checkpoint>, ops: seq<Operation>, i: nat)
    requires IsRun(run, ops) && i < |run| && Untaken(run[0])
    requires forall k :: 0 <= k < |ops| ==> Proper(run[k], ops[k])
    ensures Untaken(run[i])
  {
    hide Inv, Dispatched, Successor, Untaken, Proper;
    if i > 0 {
      RunUntaken(run, ops, i - 1);
      RunInv(run, ops, i - 1);
      assert Proper(run[i - 1], ops[i - 1]);
      assert Dispatched(run[i - 1], ops[i - 1]) && run[i - 1 + 1] == Successor(run[i - 1], ops[i - 1]);
      PerformUntaken(run[i - 1], ops[i - 1]);
    }
  }
}
