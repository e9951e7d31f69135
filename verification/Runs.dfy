/**
 Runs: any sequence of operations on a created checkpoint. The invariant holds throughout, known
 events are never forgotten, and effects only move forward.
 */
module Runs {
  import opened Wrappers
  import opened CheckpointModel
  import opened CheckpointValidity
  import opened WireCore
  import opened StepTheorem
  import opened Transitions
  import opened TransitionTheorem
  import opened CheckpointOps
  import opened IdentityProofs
  import opened RootProofs
  import opened AdmitProofs
  import opened AdmitTheorem
  import opened StepPreservation
  import opened OutboxProofs
  import opened PruneProofs
  import opened ProcessProofs
  import opened Retention
  import opened RetentionProofs
  import opened Evolution

  datatype Operation =
    | AdmitOp(bundle: Option<Text>, ds: seq<Delivery>, g: Guard, accepts: Envelope -> bool)
    | StepOp(definition: Text, q: StepRequest, g: Guard, dispatch: Dispatch)
    | ProcessOp(definition: Text, d: Delivery, g: Guard, accepts: Envelope -> bool, dispatch: Dispatch)
    | PruneOp(prune: PruneRequest, g: Guard)
    | UpdateOp(effect: Text, state: DeliveryState, g: Guard)
    | TerminalizeOp(effect: Text, outcome: EffectOutcome, g: Guard)
    | CompactOp(effect: Text, g: Guard)
    | TombstoneOp(operationId: Text, g: Guard)

  ghost function Perform(cp: Checkpoint, op: Operation): Result<Answer, Failure> {
    match op
    case AdmitOp(bundle, ds, g, accepts) => Admit(cp, bundle, ds, g, accepts)
    case StepOp(definition, q, g, dispatch) => StepCheckpoint(cp, definition, q, g, dispatch)
    case ProcessOp(definition, d, g, accepts, dispatch) => Process(cp, definition, d, g, accepts, dispatch)
    case PruneOp(q, g) => Prune(cp, q, g)
    case UpdateOp(effect, state, g) => UpdatePending(cp, effect, state, g)
    case TerminalizeOp(effect, outcome, g) => Terminalize(cp, effect, outcome, g)
    case CompactOp(effect, g) => Compact(cp, effect, g)
    case TombstoneOp(operationId, g) => TombstoneRoot(cp, operationId, g)
  }

  /** The answer before any validation. */
  function Attempt(cp: Checkpoint, op: Operation): Result<Answer, Failure> {
    match op
    case AdmitOp(bundle, ds, g, accepts) => Admit(cp, bundle, ds, g, accepts)
    case StepOp(definition, q, g, dispatch) => StepCheckpoint(cp, definition, q, g, dispatch)
    case ProcessOp(definition, d, g, accepts, dispatch) => ProcessCandidate(cp, definition, d, g, accepts, dispatch)
    case PruneOp(q, g) => Prune(cp, q, g)
    case UpdateOp(effect, state, g) => UpdatePending(cp, effect, state, g)
    case TerminalizeOp(effect, outcome, g) => Terminalize(cp, effect, outcome, g)
    case CompactOp(effect, g) => Compact(cp, effect, g)
    case TombstoneOp(operationId, g) => TombstoneRoot(cp, operationId, g)
  }

  /** The dispatcher keeps its promises about whatever the operation dispatches. */
  ghost predicate Dispatched(cp: Checkpoint, op: Operation) {
    match op
    case StepOp(_, q, _, dispatch) => Dispatches(cp, q.runtime, dispatch)
    case ProcessOp(definition, d, g, accepts, dispatch) =>
      Dispatches(After(cp, Admit(cp, Some(definition), [d], g, accepts)), d.envelope.target.runtime, dispatch)
    case _ => true
  }

  /** The checkpoint to go on from: no operation starts from one that validation refuses. */
  ghost function Successor(cp: Checkpoint, op: Operation): Checkpoint {
    var next := After(cp, Perform(cp, op));
    if Valid(next) then next else cp
  }

  /** The successor is the attempted checkpoint if validation accepts it. */
  lemma AttemptSuccessor(cp: Checkpoint, op: Operation)
    ensures var next := After(cp, Attempt(cp, op)); Successor(cp, op) == if Valid(next) then next else cp
  {
    hide Valid, Admit, StepCheckpoint, ProcessCandidate, Prune, UpdatePending, Terminalize, Compact, TombstoneRoot;
    if op.ProcessOp? {
      NoBatch(cp, op.definition, op.d, op.g, op.accepts, op.dispatch);
    }
  }

  /** Processing one delivery never answers with a batch. */
  lemma NoBatch(cp: Checkpoint, definition: Text, d: Delivery, g: Guard, accepts: Envelope -> bool, dispatch: Dispatch)
    ensures var r := ProcessCandidate(cp, definition, d, g, accepts, dispatch); r.Ok? && r.value.Batch? ==> r.value.next == cp
  {
    hide RetainedIdentity, FirstProblem, Unknown, CoreAdmit, AdmitInto, Members, StatusOf, FindReady, Step, CommitStep, CommitDeferral, EffectRepeated, Collapse, Holds, ProcessReplay, SeveralProducers;
  }

  // ------------------------------------------------------------------------------------------
  // One operation
  // ------------------------------------------------------------------------------------------

  /** A step that leaves a valid checkpoint is a transition. */
  lemma StepShape(cp: Checkpoint, definition: Text, q: StepRequest, g: Guard, dispatch: Dispatch) returns (out: seq<Entry>, refs: seq<Reference>)
    requires Inv(cp) && Dispatches(cp, q.runtime, dispatch)
    ensures var next := After(cp, StepCheckpoint(cp, definition, q, g, dispatch)); next != cp && Valid(next) ==> Transition(cp, next, out, refs)
    ensures var next := After(cp, StepCheckpoint(cp, definition, q, g, dispatch));
            next != cp && Valid(next) ==>
              && cp.record.Retained? && CanStep(cp, Find(cp.record.aggregate.runtimes, q.runtime))
              && refs == Announcing(cp, Step(cp.record.aggregate, q.runtime, dispatch))
              && StepAnswer(cp, q.runtime, dispatch) == Ok(Next(next))
  {
    hide Coherent, Sourced, Step, CommitStep, CommitDeferral, EffectRepeated, Dispatches, StepReplay, Transition, Holds, Valid, Resembles, SeveralProducers;
    out, refs := [], [];
    var next := After(cp, StepCheckpoint(cp, definition, q, g, dispatch));
    if cp.record.Retained? && CanStep(cp, Find(cp.record.aggregate.runtimes, q.runtime)) && next != cp && Valid(next) {
      ResemblesItself(next);
      out, refs := StepTransition(cp, q.runtime, dispatch, next);
    }
  }

  lemma TombstoneShape(cp: Checkpoint, operationId: Text, g: Guard) returns (out: seq<Entry>, refs: seq<Reference>)
    requires Inv(cp)
    ensures var next := After(cp, TombstoneRoot(cp, operationId, g)); next != cp ==> Transition(cp, next, out, refs)
  {
    hide Coherent, Sourced, Transition, TombstoneInto, StatusOf, Holds;
    out, refs := [], [];
    if cp.record.Retained? {
      out := Flat(cp.record.aggregate.runtimes);
      TombstoneTransition(cp, Completed, operationId);
      TombstoneTransition(cp, Faulted, operationId);
    }
  }

  /** A process that changes the checkpoint admits, steps and lowers the revision. */
  lemma ProcessShape(cp: Checkpoint, definition: Text, d: Delivery, g: Guard, accepts: Envelope -> bool, dispatch: Dispatch)
    returns (admitted: Checkpoint, stepped: Checkpoint, out: seq<Entry>, refs: seq<Reference>)
    requires Inv(cp) && Dispatched(cp, ProcessOp(definition, d, g, accepts, dispatch))
    ensures var next := After(cp, Process(cp, definition, d, g, accepts, dispatch));
            next != cp ==>
              && Coherent(admitted) && Coherent(stepped) && AdmittedAndStepped(cp, d, admitted, stepped, out, refs)
              && next == Clip(stepped, cp.revision + 1) && Clippable(stepped, cp.revision + 1) && Inv(next)
              && admitted == After(cp, Admit(cp, Some(definition), [d], g, accepts))
              && admitted.record.Retained? && CanStep(admitted, Find(admitted.record.aggregate.runtimes, d.envelope.target.runtime))
              && refs == Announcing(admitted, Step(admitted.record.aggregate, d.envelope.target.runtime, dispatch))
              && StepAnswer(admitted, d.envelope.target.runtime, dispatch) == Ok(Next(stepped))
  {
    hide Coherent, Sourced, Valid, ProcessReplay, Admit, Extends, StepAnswer, Dispatches, Collapse, Clip, Clippable, Transition, Holds, ProcessCandidate, Process;
    admitted, stepped, out, refs := cp, cp, [], [];
    var next := After(cp, Process(cp, definition, d, g, accepts, dispatch));
    if next != cp {
      ProcessUsesAdmission(cp, definition, d, g, accepts, dispatch);
      ProcessSteps(cp, definition, d, g, accepts, dispatch);
      ValidatedProcess(cp, definition, d, g, accepts, dispatch);
      admitted := Admit(cp, Some(definition), [d], g, accepts).value.next;
      var runtime := d.envelope.target.runtime;
      StepAnswers(admitted, runtime, dispatch);
      stepped := StepAnswer(admitted, runtime, dispatch).value.next;
      CollapseResembles(cp, stepped);
      out, refs := StepTransition(admitted, runtime, dispatch, Collapse(cp, stepped));
      Collapsed(cp, d, admitted, stepped, out, refs);
    }
  }

  /** A process changes the checkpoint only after a successful admission. */
  lemma ProcessUsesAdmission(cp: Checkpoint, definition: Text, d: Delivery, g: Guard, accepts: Envelope -> bool, dispatch: Dispatch)
    requires Inv(cp) && After(cp, Process(cp, definition, d, g, accepts, dispatch)) != cp
    ensures ProcessReplay(cp, d) == Ok(None) && Holds(g, cp) && Admit(cp, Some(definition), [d], g, accepts).Ok?
  {
    hide Coherent, Sourced, Valid, Admit, ProcessReplay, Holds, FindReady, Step, ApplyStep, Collapse, RetainedIdentity;
  }

  /** A core step answers with one checkpoint or none. */
  lemma StepAnswers(cp: Checkpoint, runtime: Text, dispatch: Dispatch)
    requires cp.record.Retained? && CanStep(cp, Find(cp.record.aggregate.runtimes, runtime))
    ensures var answer := StepAnswer(cp, runtime, dispatch); answer.Ok? ==> answer.value.Next? || answer.value.Declined?
  {
    hide Step, CommitStep, CommitDeferral, EffectRepeated, SeveralProducers;
  }

  /** Whatever its operation, a run goes on from a checkpoint that satisfies the invariant. */
  lemma PerformInv(cp: Checkpoint, op: Operation)
    requires Inv(cp) && Dispatched(cp, op)
    ensures Inv(Successor(cp, op))
  {
    hide Coherent, Sourced, Valid, Admit, StepCheckpoint, Process, Prune, UpdatePending, Terminalize, Compact, TombstoneRoot, Dispatches, Sustained;
    hide Unknown, RetainedIdentity, AllInput, Clip, Clippable, AdmittedAndStepped;
    match op
    case AdmitOp(bundle, ds, g, accepts) => AdmitInvIff(cp, bundle, ds, g, accepts);
    case StepOp(definition, q, g, dispatch) => StepInvIff(cp, definition, q, g, dispatch);
    case ProcessOp(definition, d, g, accepts, dispatch) =>
      var admitted, stepped, out, refs := ProcessShape(cp, definition, d, g, accepts, dispatch);
    case PruneOp(q, g) => PruneInv(cp, q, g);
    case UpdateOp(effect, state, g) => UpdateInv(cp, effect, state, g);
    case TerminalizeOp(effect, outcome, g) => TerminalizeInv(cp, effect, outcome, g);
    case CompactOp(effect, g) => CompactInv(cp, effect, g);
    case TombstoneOp(operationId, g) => TombstoneInv(cp, operationId, g);
  }

  /** The final validation of pruning, of the outbox operations and of the root tombstone never fails. */
  lemma NeverRefused(cp: Checkpoint, op: Operation)
    requires Inv(cp) && !op.AdmitOp? && !op.StepOp? && !op.ProcessOp?
    ensures Valid(After(cp, Perform(cp, op))) && Successor(cp, op) == After(cp, Perform(cp, op))
  {
    hide Coherent, Sourced, Valid, Prune, UpdatePending, Terminalize, Compact, TombstoneRoot;
    InvValid(After(cp, Perform(cp, op)));
    match op
    case PruneOp(q, g) => PruneInv(cp, q, g);
    case UpdateOp(effect, state, g) => UpdateInv(cp, effect, state, g);
    case TerminalizeOp(effect, outcome, g) => TerminalizeInv(cp, effect, outcome, g);
    case CompactOp(effect, g) => CompactInv(cp, effect, g);
    case TombstoneOp(operationId, g) => TombstoneInv(cp, operationId, g);
  }

  /** No operation forgets the binding of an event to its digest. */
  lemma PerformRemembers(cp: Checkpoint, op: Operation)
    requires Inv(cp) && Dispatched(cp, op)
    ensures Remembers(cp, Successor(cp, op))
  {
    hide Coherent, Sourced, Valid, Admit, StepCheckpoint, Process, Prune, TombstoneRoot, Dispatches, Unknown, RetainedIdentity, AllInput, Remembers;
    hide Clip, Clippable, Transition, Extends, Pruned, Prunable, PruneTo, Burials, InsertCompacted, FindPending, FindEffect, FindCompacted;
    SameRemembers(cp, cp);
    var next := Successor(cp, op);
    match op
    case AdmitOp(bundle, ds, g, accepts) =>
      AdmitAnswer(cp, bundle, ds, g, accepts);
      if next != cp {
        ExtendsRemembers(cp, Unknown(RetainedIdentity(cp), ds), next);
      }
    case StepOp(definition, q, g, dispatch) =>
      var out, refs := StepShape(cp, definition, q, g, dispatch);
      if next != cp {
        TransitionRemembers(cp, next, out, refs);
      }
    case ProcessOp(definition, d, g, accepts, dispatch) =>
      var admitted, stepped, out, refs := ProcessShape(cp, definition, d, g, accepts, dispatch);
      if next != cp {
        ExtendsRemembers(cp, [d], admitted);
        TransitionRemembers(admitted, stepped, out, refs);
        ClipRemembers(stepped, cp.revision + 1);
        RemembersTrans(cp, admitted, stepped);
        RemembersTrans(cp, stepped, next);
      }
    case PruneOp(q, g) =>
      if next != cp {
        PruneRemembers(cp, q, g);
      }
    case UpdateOp(effect, state, g) => SameRemembers(cp, next);
    case TerminalizeOp(effect, outcome, g) => SameRemembers(cp, next);
    case CompactOp(effect, g) => SameRemembers(cp, next);
    case TombstoneOp(operationId, g) =>
      var out, refs := TombstoneShape(cp, operationId, g);
      if next != cp {
        TransitionRemembers(cp, next, out, refs);
      }
  }

  lemma PruneRemembers(cp: Checkpoint, q: PruneRequest, g: Guard)
    requires Inv(cp) && After(cp, Prune(cp, q, g)) != cp
    ensures Remembers(cp, After(cp, Prune(cp, q, g)))
  {
    hide Coherent, Sourced, Prune, Prunable, PruneTo, Burials, Bury, Remembers, AllocationsOk, UniqueAcceptances, UniqueTerminals, QueuesOk, ReceiptsOk;
    GuardsInRange(cp, q, g);
    var at := BuryAt(cp.receipts, q.cutoff);
    ValidTerminals(cp);
    PrunedRemembers(cp, q, PruneTo(cp, q), at);
  }

  /** Every operation moves effects forward only; none but a prune removes one. */
  lemma PerformEffects(cp: Checkpoint, op: Operation)
    requires Inv(cp) && Dispatched(cp, op)
    ensures EffectsMove(cp, Successor(cp, op), op.PruneOp?)
  {
    hide Coherent, Sourced, Valid, Admit, StepCheckpoint, Process, Prune, UpdatePending, Terminalize, Compact, TombstoneRoot, Dispatches, Unknown, RetainedIdentity, AllInput, EffectsMove;
    hide Clip, Clippable, Transition, Extends;
    NothingMoves(cp);
    var next := Successor(cp, op);
    match op
    case AdmitOp(bundle, ds, g, accepts) =>
      AdmitAnswer(cp, bundle, ds, g, accepts);
      if next != cp {
        AdmissionEffects(cp, Unknown(RetainedIdentity(cp), ds), next);
      }
    case StepOp(definition, q, g, dispatch) =>
      var out, refs := StepShape(cp, definition, q, g, dispatch);
      if next != cp {
        TransitionEffects(cp, next, out, refs);
      }
    case ProcessOp(definition, d, g, accepts, dispatch) =>
      var admitted, stepped, out, refs := ProcessShape(cp, definition, d, g, accepts, dispatch);
      if next != cp {
        TransitionEffects(admitted, stepped, out, refs);
        AdmissionLike(cp, [d], admitted);
        ClipLike(stepped, cp.revision + 1);
        EffectsLike(cp, admitted, stepped, next, false);
      }
    case PruneOp(q, g) =>
      if next != cp {
        PruneEffects(cp, q, g);
      }
    case UpdateOp(effect, state, g) => UpdateEffects(cp, effect, state, g);
    case TerminalizeOp(effect, outcome, g) => TerminalizeEffects(cp, effect, outcome, g);
    case CompactOp(effect, g) => CompactEffects(cp, effect, g);
    case TombstoneOp(operationId, g) =>
      var out, refs := TombstoneShape(cp, operationId, g);
      if next != cp {
        TransitionEffects(cp, next, out, refs);
      }
  }

  lemma NothingMoves(cp: Checkpoint)
    ensures EffectsMove(cp, cp, false) && EffectsMove(cp, cp, true)
  {
    hide IsEffect;
  }

  lemma AdmissionLike(cp: Checkpoint, ds: seq<Delivery>, cp': Checkpoint)
    requires Extends(cp, ds, cp')
    ensures OutboxLike(cp, cp')
  {
    hide Extends, Ready;
    ExtendsFacts(cp, ds, cp');
  }

  lemma AdmissionEffects(cp: Checkpoint, ds: seq<Delivery>, cp': Checkpoint)
    requires Extends(cp, ds, cp')
    ensures EffectsMove(cp, cp', false)
  {
    hide Extends, EffectsMove;
    AdmissionLike(cp, ds, cp');
    SameOutbox(cp, cp');
  }

  lemma ClipLike(cp: Checkpoint, limit: nat)
    ensures OutboxLike(cp, Clip(cp, limit))
  {
    hide Clip;
    ClipBasics(cp, limit);
  }

  lemma PruneEffects(cp: Checkpoint, q: PruneRequest, g: Guard)
    requires Inv(cp) && After(cp, Prune(cp, q, g)) != cp
    ensures EffectsMove(cp, After(cp, Prune(cp, q, g)), true)
  {
    hide Coherent, Sourced, Prune, Prunable, PruneTo, Burials, Bury, EffectsMove;
    GuardsInRange(cp, q, g);
    var at := BuryAt(cp.receipts, q.cutoff);
    PrunedOutbox(cp, q, PruneTo(cp, q), at);
  }

  lemma UpdateEffects(cp: Checkpoint, effect: Text, state: DeliveryState, g: Guard)
    ensures EffectsMove(cp, After(cp, UpdatePending(cp, effect, state, g)), false)
  {
    hide FindPending, EffectsMove;
    SameOutbox(cp, After(cp, UpdatePending(cp, effect, state, g)));
  }

  lemma TerminalizeEffects(cp: Checkpoint, effect: Text, outcome: EffectOutcome, g: Guard)
    ensures EffectsMove(cp, After(cp, Terminalize(cp, effect, outcome, g)), false)
  {
    hide FindPending, FindEffect, FindCompacted, EffectsMove;
    NothingMoves(cp);
    var p := FindPending(cp.pending, effect);
    if p < |cp.pending| {
      TerminalizedEffects(cp, p, outcome);
    }
  }

  lemma CompactEffects(cp: Checkpoint, effect: Text, g: Guard)
    ensures EffectsMove(cp, After(cp, Compact(cp, effect, g)), false)
  {
    hide FindPending, FindEffect, FindCompacted, EffectsMove, InsertCompacted;
    NothingMoves(cp);
    var t := FindEffect(cp.terminals, effect);
    if t < |cp.terminals| {
      var q := InsertAt(cp.compacted, TombstoneOf(cp.root, cp.terminals[t]));
      CompactedEffects(cp, t, q);
    }
  }

  /** Repeating a terminalization with the same outcome changes nothing, even after compaction; another outcome conflicts. */
  lemma TerminalizeAgain(cp: Checkpoint, t: TerminalEffect, outcome: EffectOutcome, g: Guard)
    requires Inv(cp) && TerminalAs(cp, t)
    ensures Terminalize(cp, t.intent.effectId, outcome, g) == if outcome == t.outcome then Ok(Next(cp)) else Err(EffectIdConflict)
  {
    hide Coherent, Sourced, EffectsOk;
    ValidEffects(cp);
    var f := t.intent.effectId;
    var i, c := FindEffect(cp.terminals, f), FindCompacted(cp.compacted, f);
    hide FindEffect, FindCompacted, FindPending;
    if t in cp.terminals {
      var j :| 0 <= j < |cp.terminals| && cp.terminals[j] == t;
      assert i == j;
    } else {
      var j :| 0 <= j < |cp.compacted| && cp.compacted[j] == TombstoneOf(cp.root, t);
      assert c == j && i == |cp.terminals|;
    }
  }

  /** Compacting an effect again changes nothing. */
  lemma CompactAgain(cp: Checkpoint, effect: Text, g: Guard, g': Guard)
    requires Compact(cp, effect, g).Ok?
    ensures var next := After(cp, Compact(cp, effect, g)); Compact(next, effect, g') == Ok(Next(next))
  {
    hide FindEffect, FindCompacted, InsertCompacted;
    var t := FindEffect(cp.terminals, effect);
    var next := After(cp, Compact(cp, effect, g));
    if FindCompacted(cp.compacted, effect) == |cp.compacted| {
      var c := TombstoneOf(cp.root, cp.terminals[t]);
      var q := InsertAt(cp.compacted, c);
      assert next.compacted[q] == c;
      assert FindCompacted(next.compacted, effect) < |next.compacted|;
    }
  }

  // ------------------------------------------------------------------------------------------
  // Runs
  // ------------------------------------------------------------------------------------------

  /** Checkpoint `k + 1` is what operation `k` leaves of checkpoint `k`. */
  ghost predicate IsRun(run: seq<Checkpoint>, ops: seq<Operation>) {
    && |run| == |ops| + 1
    && Inv(run[0])
    && forall k :: 0 <= k < |ops| ==> Dispatched(run[k], ops[k]) && run[k + 1] == Successor(run[k], ops[k])
  }

  /** The invariant holds at every point of every run. */
  lemma {:induction false} RunInv(run: seq<Checkpoint>, ops: seq<Operation>, i: nat)
    requires IsRun(run, ops) && i < |run|
    ensures Inv(run[i])
  {
    hide Coherent, Sourced, Dispatched, Successor;
    if i > 0 {
      RunInv(run, ops, i - 1);
      assert Dispatched(run[i - 1], ops[i - 1]) && run[i - 1 + 1] == Successor(run[i - 1], ops[i - 1]);
      PerformInv(run[i - 1], ops[i - 1]);
    }
  }

  lemma {:induction false} RunRemembers(run: seq<Checkpoint>, ops: seq<Operation>, i: nat, j: nat)
    requires IsRun(run, ops) && i <= j < |run|
    ensures Remembers(run[i], run[j]) && run[i].root == run[j].root
    decreases j
  {
    hide Coherent, Sourced, Dispatched, Successor, Remembers, EffectsMove;
    if i == j {
      SameRemembers(run[i], run[i]);
    } else {
      RunRemembers(run, ops, i, j - 1);
      RunInv(run, ops, j - 1);
      assert Dispatched(run[j - 1], ops[j - 1]) && run[j - 1 + 1] == Successor(run[j - 1], ops[j - 1]);
      PerformRemembers(run[j - 1], ops[j - 1]);
      PerformEffects(run[j - 1], ops[j - 1]);
      MovesRoot(run[j - 1], run[j], ops[j - 1].PruneOp?);
      RemembersTrans(run[i], run[j - 1], run[j]);
    }
  }

  lemma MovesRoot(cp: Checkpoint, cp': Checkpoint, pruned: bool)
    requires EffectsMove(cp, cp', pruned)
    ensures cp'.root == cp.root
  {
    hide PendingMoves, TerminalMoves, Arises;
  }

  /**
   An event once known under digest `d` stays known under `d` for the rest of every run: its
   redelivery is answered from evidence, another digest is a conflict, and neither changes the
   checkpoint.
   */
  lemma KnownForEver(run: seq<Checkpoint>, ops: seq<Operation>, i: nat, j: nat, d: Delivery, digest: EnvelopeDigest,
                     bundle: Option<Text>, g: Guard, accepts: Envelope -> bool)
    requires IsRun(run, ops) && i <= j < |run| && d.envelope.target.root == run[i].root
    requires d.envelope.eventId in RetainedIdentity(run[i]) && RetainedIdentity(run[i])[d.envelope.eventId].digest == digest
    ensures var known := RetainedIdentity(run[j]);
            && d.envelope.eventId in known && known[d.envelope.eventId].digest == digest
            && Admit(run[j], bundle, [d], g, accepts)
               == (if digest == DigestOf(run[j].root, d) then Ok(Replayed(known[d.envelope.eventId].evidence)) else Err(EventIdConflict))
            && After(run[j], Admit(run[j], bundle, [d], g, accepts)) == run[j]
  {
    hide Coherent, Sourced, Dispatched, Successor, Bears, RetainedIdentity, Admit, IsRun;
    var id := d.envelope.eventId;
    RunInv(run, ops, i);
    RunInv(run, ops, j);
    RunRemembers(run, ops, i, j);
    IdentityIff(run[i], id, digest);
    IdentityIff(run[j], id, digest);
    IdentityIff(run[j], id, DigestOf(run[j].root, d));
    KnownIff(run[j], id);
    RedeliveryAnswer(run[j], bundle, d, g, accepts);
  }

  /** The same inside a batch: the event is answered from evidence and not admitted again, or the batch fails. */
  lemma KnownInBatch(run: seq<Checkpoint>, ops: seq<Operation>, i: nat, j: nat, ds: seq<Delivery>, k: nat, digest: EnvelopeDigest,
                     bundle: Option<Text>, g: Guard, accepts: Envelope -> bool)
    requires IsRun(run, ops) && i <= j < |run| && |ds| > 1 && k < |ds|
    requires ds[k].envelope.eventId in RetainedIdentity(run[i]) && RetainedIdentity(run[i])[ds[k].envelope.eventId].digest == digest
    ensures var id, known, answer := ds[k].envelope.eventId, RetainedIdentity(run[j]), Admit(run[j], bundle, ds, g, accepts);
            && id in known && known[id].digest == digest
            && (digest != DigestOf(run[j].root, ds[k]) ==> answer.Err?)
            && (answer.Ok? ==>
                  answer.value.Batch? && |answer.value.members| == |ds| && answer.value.members[k] == ReplayedMember(id, known[id].evidence))
            && forall x: nat :: |run[j].receipts| <= x < |After(run[j], answer).receipts| ==> AcceptsOther(After(run[j], answer).receipts[x], id)
  {
    hide Inv, Dispatched, Successor, Bears, RetainedIdentity, Admit, IsRun, Known;
    var id := ds[k].envelope.eventId;
    RunInv(run, ops, i);
    RunInv(run, ops, j);
    RunRemembers(run, ops, i, j);
    IdentityIff(run[i], id, digest);
    IdentityIff(run[j], id, digest);
    BatchReplays(run[j], bundle, ds, g, accepts, k);
    forall x: nat | |run[j].receipts| <= x < |After(run[j], Admit(run[j], bundle, ds, g, accepts)).receipts|
      ensures AcceptsOther(After(run[j], Admit(run[j], bundle, ds, g, accepts)).receipts[x], id)
    {
      AdmitsUnknown(run[j], bundle, ds, g, accepts, x);
    }
  }

  predicate AcceptsOther(r: Receipt, id: Text) {
    r.Acceptance? && r.eventId != id
  }

  /** What processing a known delivery answers. */
  lemma ProcessReplays(cp: Checkpoint, definition: Text, d: Delivery, g: Guard, accepts: Envelope -> bool, dispatch: Dispatch)
    requires Inv(cp) && d.envelope.target.root == cp.root && d.envelope.eventId in RetainedIdentity(cp)
    ensures var id, known, answer := d.envelope.eventId, RetainedIdentity(cp), Process(cp, definition, d, g, accepts, dispatch);
            if known[id].digest != DigestOf(cp.root, d) || known[id].digest != d.digest then answer == Err(EventIdConflict)
            else
              && answer.Ok? && answer.value.Replayed?
              && (if Ended(cp.receipts, id) then
                    && answer.value.evidence.ByReceipt? && answer.value.evidence.receipt in cp.receipts
                    && answer.value.evidence.receipt.Terminal? && answer.value.evidence.receipt.eventId == id
                    && answer.value.evidence.receipt.request' == known[id].digest
                  else answer.value.evidence == known[id].evidence)
  {
    hide Coherent, Sourced, RetainedIdentity, Admit, FindReady, Step, ApplyStep, Collapse, FindTerminal, Valid, Live, Holds;
    var id := d.envelope.eventId;
    var t := FindTerminal(cp.receipts, id);
    if t < |cp.receipts| {
      assert Bears(cp, id, cp.receipts[t].request');
      IdentityIff(cp, id, cp.receipts[t].request');
    }
  }

  /** The same through processing: the terminal receipt or other evidence for the known digest, else a conflict. */
  lemma KnownInProcess(run: seq<Checkpoint>, ops: seq<Operation>, i: nat, j: nat, d: Delivery, digest: EnvelopeDigest,
                       definition: Text, g: Guard, accepts: Envelope -> bool, dispatch: Dispatch)
    requires IsRun(run, ops) && i <= j < |run| && d.envelope.target.root == run[i].root
    requires d.envelope.eventId in RetainedIdentity(run[i]) && RetainedIdentity(run[i])[d.envelope.eventId].digest == digest
    ensures var id, answer := d.envelope.eventId, Process(run[j], definition, d, g, accepts, dispatch);
            && After(run[j], answer) == run[j]
            && if digest != DigestOf(run[j].root, d) || digest != d.digest then answer == Err(EventIdConflict)
               else
                 && answer.Ok? && answer.value.Replayed?
                 && (Ended(run[j].receipts, id) ==>
                       && answer.value.evidence.ByReceipt? && answer.value.evidence.receipt in run[j].receipts
                       && answer.value.evidence.receipt.Terminal? && answer.value.evidence.receipt.eventId == id
                       && answer.value.evidence.receipt.request' == digest)
                 && (!Ended(run[j].receipts, id) ==>
                       id in RetainedIdentity(run[j]) && answer.value.evidence == RetainedIdentity(run[j])[id].evidence)
  {
    hide Inv, Dispatched, Successor, Bears, RetainedIdentity, Process, IsRun, Ended;
    var id := d.envelope.eventId;
    RunInv(run, ops, i);
    RunInv(run, ops, j);
    RunRemembers(run, ops, i, j);
    IdentityIff(run[i], id, digest);
    IdentityIff(run[j], id, digest);
    ProcessReplays(run[j], definition, d, g, accepts, dispatch);
  }

  predicate Terminates(rs: seq<Receipt>, i: int, id: Text) {
    0 <= i < |rs| && rs[i].Terminal? && rs[i].eventId == id
  }

  predicate Buries(ts: seq<EventTombstone>, i: int, id: Text) {
    0 <= i < |ts| && ts[i].eventId == id
  }

  /** No event ever has two terminal records, be they receipts or tombstones. */
  lemma OneTerminal(run: seq<Checkpoint>, ops: seq<Operation>, i: nat, id: Text)
    requires IsRun(run, ops) && i < |run|
    ensures var cp := run[i];
            && (forall j, k :: Terminates(cp.receipts, j, id) && Terminates(cp.receipts, k, id) ==> j == k)
            && (forall j, k :: Buries(cp.tombstones, j, id) && Buries(cp.tombstones, k, id) ==> j == k)
            && !(Ended(cp.receipts, id) && Buried(cp.tombstones, id))
            && (IsLive(cp, id) ==> !Ended(cp.receipts, id) && !Buried(cp.tombstones, id))
  {
    hide Coherent, Sourced, IsRun, AllocationsOk, UniqueAcceptances, ReceiptsOk, AcceptancesLead, OwnersOk, Live;
    RunInv(run, ops, i);
    TransitionEvents.ValidLead(run[i]);
    ValidTerminals(run[i]);
  }

  /**
   A terminal effect keeps its outcome, intent, revision and terminal number, in full or as a
   tombstone, at every later point up to which pruning has not removed it.
   */
  lemma {:induction false} TerminalForEver(run: seq<Checkpoint>, ops: seq<Operation>, i: nat, j: nat, t: TerminalEffect)
    requires IsRun(run, ops) && i <= j < |run| && TerminalAs(run[i], t)
    requires forall k :: i <= k <= j ==> IsEffect(run[k], t.intent.effectId)
    ensures TerminalAs(run[j], t)
    decreases j
  {
    hide Coherent, Sourced, Dispatched, Successor, IsEffect, PendingMoves, Arises;
    if i < j {
      TerminalForEver(run, ops, i, j - 1, t);
      RunInv(run, ops, j - 1);
      assert Dispatched(run[j - 1], ops[j - 1]) && run[j - 1 + 1] == Successor(run[j - 1], ops[j - 1]);
      PerformEffects(run[j - 1], ops[j - 1]);
    }
  }

  /** An effect is in one stage only; it appears as pending, and without a prune it never leaves. */
  lemma OneStage(run: seq<Checkpoint>, ops: seq<Operation>, i: nat, f: Text)
    requires IsRun(run, ops) && i < |run|
    ensures !(IsPending(run[i], f) && IsTerminal(run[i], f)) && !(IsPending(run[i], f) && IsCompacted(run[i], f))
    ensures !(IsTerminal(run[i], f) && IsCompacted(run[i], f))
    ensures i < |ops| && !IsEffect(run[i], f) && IsEffect(run[i + 1], f) ==> IsPending(run[i + 1], f)
    ensures i < |ops| && !ops[i].PruneOp? && IsEffect(run[i], f) ==> IsEffect(run[i + 1], f)
  {
    hide Coherent, Sourced, Dispatched, Successor, EffectsOk;
    RunInv(run, ops, i);
    ValidEffects(run[i]);
    if i < |ops| {
      PerformEffects(run[i], ops[i]);
      if !ops[i].PruneOp? && IsEffect(run[i], f) {
        EffectStays(run[i], run[i + 1], f);
      }
    }
  }

  /** The checkpoint retains the intent: pending, terminal, or as the digest in its tombstone. */
  ghost predicate KeepsIntent(cp: Checkpoint, intent: Intent) {
    || HoldsIntent(cp, intent)
    || EndedIntent(cp, intent)
    || (exists c :: c in cp.compacted && c.effectId == intent.effectId && c.digest == IntentDigest(cp.root, intent))
  }

  /** What holds between a checkpoint and a later one that still has the effect. */
  ghost predicate Forward(cp: Checkpoint, cp': Checkpoint, intent: Intent) {
    && (KeepsIntent(cp, intent) ==> KeepsIntent(cp', intent))
    && (!IsPending(cp, intent.effectId) ==> !IsPending(cp', intent.effectId))
    && (IsCompacted(cp, intent.effectId) ==> IsCompacted(cp', intent.effectId))
  }

  lemma MovesForward(cp: Checkpoint, cp': Checkpoint, pruned: bool, intent: Intent)
    requires Inv(cp') && EffectsMove(cp, cp', pruned) && IsEffect(cp, intent.effectId) && IsEffect(cp', intent.effectId)
    ensures Forward(cp, cp', intent)
  {
    hide Coherent, Sourced, EffectsOk, Arises;
    ValidEffects(cp');
    var f := intent.effectId;
    if i :| 0 <= i < |cp.terminals| && cp.terminals[i].intent.effectId == f {
      assert cp.terminals[i] in cp.terminals;
      TerminalIsNotPending(cp', cp.root, cp.terminals[i]);
    }
    if j :| 0 <= j < |cp.compacted| && cp.compacted[j].effectId == f {
      assert cp.compacted[j] in cp'.compacted;
    }
    if EndedIntent(cp, intent) {
      var i :| 0 <= i < |cp.terminals| && cp.terminals[i].intent == intent;
      var t := cp.terminals[i];
      assert t in cp.terminals;
      if t !in cp'.terminals {
        assert TombstoneOf(cp.root, t) in cp'.compacted;
      }
    }
  }

  lemma TerminalIsNotPending(cp: Checkpoint, root: Text, t: TerminalEffect)
    requires StagesOk(cp) && (t in cp.terminals || TombstoneOf(root, t) in cp.compacted)
    ensures !IsPending(cp, t.intent.effectId)
  {
  }

  /**
   As long as an effect stays, it never goes back: one that is no longer pending never is again,
   a tombstone stays one, and its intent is retained from stage to stage.
   */
  lemma {:induction false} NeverBack(run: seq<Checkpoint>, ops: seq<Operation>, i: nat, j: nat, intent: Intent)
    requires IsRun(run, ops) && i <= j < |run|
    requires forall k :: i <= k <= j ==> IsEffect(run[k], intent.effectId)
    ensures Forward(run[i], run[j], intent)
    decreases j
  {
    hide Inv, Dispatched, Successor, IsEffect, EffectsMove, KeepsIntent, IsPending, IsCompacted;
    if i < j {
      NeverBack(run, ops, i, j - 1, intent);
      RunInv(run, ops, j - 1);
      RunInv(run, ops, j);
      assert Dispatched(run[j - 1], ops[j - 1]) && run[j - 1 + 1] == Successor(run[j - 1], ops[j - 1]);
      PerformEffects(run[j - 1], ops[j - 1]);
      MovesForward(run[j - 1], run[j], ops[j - 1].PruneOp?, intent);
    }
  }

  lemma EffectStays(cp: Checkpoint, cp': Checkpoint, f: Text)
    requires EffectsMove(cp, cp', false) && IsEffect(cp, f)
    ensures IsEffect(cp', f)
  {
    if IsPending(cp, f) {
      var i :| 0 <= i < |cp.pending| && cp.pending[i].intent.effectId == f;
      assert HoldsIntent(cp, cp.pending[i].intent);
    } else if IsTerminal(cp, f) {
      var i :| 0 <= i < |cp.terminals| && cp.terminals[i].intent.effectId == f;
      var t := cp.terminals[i];
      assert t in cp.terminals;
      if t !in cp'.terminals {
        var j :| 0 <= j < |cp'.compacted| && cp'.compacted[j] == TombstoneOf(cp.root, t);
      }
    } else {
      var i :| 0 <= i < |cp.compacted| && cp.compacted[i].effectId == f;
      assert cp.compacted[i] in cp'.compacted;
    }
  }

  // ------------------------------------------------------------------------------------------
  // Policies
  // ------------------------------------------------------------------------------------------

  /** Every operation but a prune rewrites old receipts only as permanent retention allows. */
  lemma PerformEvolves(cp: Checkpoint, op: Operation)
    requires Inv(cp) && Dispatched(cp, op) && !op.PruneOp?
    ensures ReceiptsEvolve(cp, Successor(cp, op)) && Successor(cp, op).retention == cp.retention
  {
    hide Coherent, Sourced, Valid, Admit, StepCheckpoint, Process, TombstoneRoot, Dispatches, Unknown, RetainedIdentity, AllInput, ReceiptsEvolve;
    hide Clip, Clippable, Transition, Extends, InsertCompacted, FindPending, FindEffect, FindCompacted, Everything, Distinct, Ready;
    hide Announcing, StepAnswer, Step, Runnable;
    UnchangedAccepted(cp, cp);
    var next := Successor(cp, op);
    match op
    case AdmitOp(bundle, ds, g, accepts) =>
      AdmitAnswer(cp, bundle, ds, g, accepts);
      if next != cp {
        AdmissionEvolves(cp, Unknown(RetainedIdentity(cp), ds), next);
      }
    case StepOp(definition, q, g, dispatch) =>
      var out, refs := StepShape(cp, definition, q, g, dispatch);
      if next != cp {
        TransitionAccepted(cp, next, out, refs);
        TransitionBasics(cp, next, out, refs);
      }
    case ProcessOp(definition, d, g, accepts, dispatch) =>
      var admitted, stepped, out, refs := ProcessShape(cp, definition, d, g, accepts, dispatch);
      if next != cp {
        FusedAccepted(cp, d, admitted, stepped, out, refs);
        ExtendsFacts(cp, [d], admitted);
        TransitionBasics(admitted, stepped, out, refs);
        ClipBasics(stepped, cp.revision + 1);
      }
    case UpdateOp(effect, state, g) => UnchangedAccepted(cp, next);
    case TerminalizeOp(effect, outcome, g) => UnchangedAccepted(cp, next);
    case CompactOp(effect, g) => UnchangedAccepted(cp, next);
    case TombstoneOp(operationId, g) =>
      var out, refs := TombstoneShape(cp, operationId, g);
      if next != cp {
        TransitionAccepted(cp, next, out, refs);
        TransitionBasics(cp, next, out, refs);
      }
  }

  lemma AdmissionEvolves(cp: Checkpoint, ds: seq<Delivery>, cp': Checkpoint)
    requires Extends(cp, ds, cp')
    ensures ReceiptsEvolve(cp, cp') && cp'.retention == cp.retention
  {
    hide Extends, Ready, ReceiptsEvolve;
    ExtendsFacts(cp, ds, cp');
    forall i | 0 <= i < |cp.receipts| ensures cp'.receipts[i] == cp.receipts[i] {
      ReceiptAt(cp, ds, cp', i);
    }
    UnchangedAccepted(cp, cp');
  }

  /** Forward movement of effects leaves the evidence that a compact outbox demands. */
  lemma MovesKeepEvidence(cp: Checkpoint, cp': Checkpoint, pruned: bool)
    requires Inv(cp') && EffectsMove(cp, cp', pruned)
    ensures TombstonesStay(cp, cp') && EvidenceStays(cp, cp')
  {
    hide Coherent, Sourced, PendingMoves, Arises, Referenced, UniqueEffects, IsEffect;
    ValidEffects(cp');
    forall f ensures Referenced(cp'.receipts, f) <==> IsEffect(cp', f) {
      ReferencedIsEffect(cp', f);
    }
    forall i | 0 <= i < |cp.terminals| ensures TerminalEvidence(cp, cp', cp.terminals[i]) {
      var t := cp.terminals[i];
      assert t in cp.terminals;
      if Referenced(cp'.receipts, t.intent.effectId) && t !in cp'.terminals {
        FoundTombstone(cp', TombstoneOf(cp.root, t));
      }
    }
  }

  lemma ReferencedIsEffect(cp: Checkpoint, f: Text)
    requires EffectsOk(cp)
    ensures Referenced(cp.receipts, f) <==> IsEffect(cp, f)
  {
    hide Referenced, UniqueEffects, IsPending, IsTerminal, IsCompacted;
  }

  lemma FoundTombstone(cp: Checkpoint, c: EffectTombstone)
    requires StagesOk(cp) && c in cp.compacted
    ensures var i := FindCompacted(cp.compacted, c.effectId); i < |cp.compacted| && cp.compacted[i] == c
  {
    var j :| 0 <= j < |cp.compacted| && cp.compacted[j] == c;
    var i := FindCompacted(cp.compacted, c.effectId);
  }

  /** Pruning through `cutoff` removes the receipt that produced a terminal effect. */
  predicate PrunesTerminal(cp: Checkpoint, cutoff: nat) {
    exists i, k, t ::
      && 0 <= i < |cp.receipts| && Removable(cp.receipts[i], cutoff)
      && 0 <= k < |cp.receipts[i].Refs()| && cp.receipts[i].Refs()[k].OutboxRef?
      && 0 <= t < |cp.terminals| && cp.terminals[t].intent.effectId == cp.receipts[i].Refs()[k].effectId
  }

  /** The operations whose results the policy of a store refuses. */
  ghost predicate Refuses(mode: StoreMode, cp: Checkpoint, op: Operation) {
    && Successor(cp, op) != cp
    && (|| (op.PruneOp? && mode.receipts.PermanentReceipts?)
        || (op.PruneOp? && mode.outbox.StrictOutbox? && PrunesTerminal(cp, op.prune.cutoff))
        || (op.CompactOp? && mode.outbox.StrictOutbox?))
  }

  /** What pruning makes of the terminal records. */
  lemma PruneTerminals(cp: Checkpoint, q: PruneRequest, g: Guard)
    requires Inv(cp) && After(cp, Prune(cp, q, g)) != cp
    ensures var next := After(cp, Prune(cp, q, g));
            && next.retention.Bounded?
            && (cp.compacted == [] ==> next.compacted == [])
            && (TerminalsStay(cp, next) <==> !PrunesTerminal(cp, q.cutoff))
  {
    hide Coherent, Sourced, Prune, Prunable, Burials, Bury, Retain, RetainTerminals, EffectsOk;
    GuardsInRange(cp, q, g);
    var at := BuryAt(cp.receipts, q.cutoff);
    var next := PruneTo(cp, q);
    PrunedOutbox(cp, q, next, at);
    PruneInv(cp, q, g);
    ValidEffects(cp);
    if PrunesTerminal(cp, q.cutoff) {
      var i, k, t :| 0 <= i < |cp.receipts| && Removable(cp.receipts[i], q.cutoff) && 0 <= k < |cp.receipts[i].Refs()|
        && cp.receipts[i].Refs()[k].OutboxRef? && 0 <= t < |cp.terminals| && cp.terminals[t].intent.effectId == cp.receipts[i].Refs()[k].effectId;
      PruneRemovesProducer(cp, q, next, at, i, k);
      NotAnEffect(next, cp.terminals[t]);
    } else {
      forall t | 0 <= t < |cp.terminals| ensures cp.terminals[t] in next.terminals {
        TerminalStaysReferenced(cp, q, next, at, t);
      }
    }
  }

  lemma NotAnEffect(cp: Checkpoint, t: TerminalEffect)
    requires !IsEffect(cp, t.intent.effectId)
    ensures t !in cp.terminals
  {
  }

  lemma TerminalStaysReferenced(cp: Checkpoint, q: PruneRequest, next: Checkpoint, at: seq<nat>, t: nat)
    requires Inv(cp) && Pruned(cp, q, next, at) && t < |cp.terminals| && !PrunesTerminal(cp, q.cutoff)
    ensures cp.terminals[t] in next.terminals
  {
    hide Coherent, Sourced, Pruned, StagesOk, Removable;
    var f := cp.terminals[t].intent.effectId;
    ValidEffects(cp);
    assert IsTerminal(cp, f);
    assert Referenced(cp.receipts, f);
    var i, k :| 0 <= i < |cp.receipts| && 0 <= k < |cp.receipts[i].Refs()| && cp.receipts[i].Refs()[k].OutboxRef? && cp.receipts[i].Refs()[k].effectId == f;
    PruneRemovesProducer(cp, q, next, at, i, k);
    PrunedEffects(cp, q, next, at);
    PrunedRecords(cp, q, next, at);
    assert cp.terminals[t] in cp.terminals;
  }

  /** Every operation but pruning and compaction leaves terminal records and tombstones in place. */
  lemma KeepsOutbox(cp: Checkpoint, op: Operation)
    requires Inv(cp) && Dispatched(cp, op) && !op.PruneOp? && !op.CompactOp?
    ensures TerminalsStay(cp, Successor(cp, op)) && Successor(cp, op).compacted == cp.compacted
  {
    hide Coherent, Sourced, Valid, Admit, StepCheckpoint, Process, TombstoneRoot, Dispatches, Unknown, RetainedIdentity, AllInput;
    hide Clip, Clippable, Transition, Extends, FindPending, FindEffect, FindCompacted, Ready, AnnouncesEffect, NewPending, IsPending, IsTerminal, IsCompacted;
    var next := Successor(cp, op);
    match op
    case AdmitOp(bundle, ds, g, accepts) =>
      AdmitAnswer(cp, bundle, ds, g, accepts);
      if next != cp {
        ExtendsFacts(cp, Unknown(RetainedIdentity(cp), ds), next);
      }
    case StepOp(definition, q, g, dispatch) =>
      var out, refs := StepShape(cp, definition, q, g, dispatch);
      if next != cp {
        EffectsOf(cp, next, out, refs);
      }
    case ProcessOp(definition, d, g, accepts, dispatch) =>
      var admitted, stepped, out, refs := ProcessShape(cp, definition, d, g, accepts, dispatch);
      if next != cp {
        ExtendsFacts(cp, [d], admitted);
        EffectsOf(admitted, stepped, out, refs);
        ClipBasics(stepped, cp.revision + 1);
      }
    case UpdateOp(effect, state, g) =>
    case TerminalizeOp(effect, outcome, g) =>
    case TombstoneOp(operationId, g) =>
      var out, refs := TombstoneShape(cp, operationId, g);
      if next != cp {
        EffectsOf(cp, next, out, refs);
      }
  }

  /** A compaction that changes the checkpoint leaves a tombstone. */
  lemma CompactLeaves(cp: Checkpoint, effect: Text, g: Guard)
    requires After(cp, Compact(cp, effect, g)) != cp
    ensures After(cp, Compact(cp, effect, g)).compacted != []
  {
    hide FindEffect, FindCompacted, InsertCompacted;
    var t := FindEffect(cp.terminals, effect);
    var q := InsertAt(cp.compacted, TombstoneOf(cp.root, cp.terminals[t]));
  }

  /** The store's policy on a strict outbox, for an operation that changes the checkpoint. */
  lemma StrictAccepts(cp: Checkpoint, op: Operation)
    requires Inv(cp) && Dispatched(cp, op) && cp.compacted == [] && Successor(cp, op) != cp
    ensures Successor(cp, op).compacted == [] && TerminalsStay(cp, Successor(cp, op))
            <==> !op.CompactOp? && !(op.PruneOp? && PrunesTerminal(cp, op.prune.cutoff))
  {
    hide Coherent, Sourced, Dispatched, TerminalsStay, PrunesTerminal, Prune, Compact, Valid;
    if op.PruneOp? {
      PruneTerminals(cp, op.prune, op.g);
    } else if op.CompactOp? {
      CompactLeaves(cp, op.effect, op.g);
    } else {
      KeepsOutbox(cp, op);
    }
  }

  /** The store's policy on permanent receipts, for an operation that changes the checkpoint. */
  lemma PermanentAccepts(cp: Checkpoint, op: Operation)
    requires Inv(cp) && Dispatched(cp, op) && cp.retention.Permanent? && Successor(cp, op) != cp
    ensures Successor(cp, op).retention.Permanent? && ReceiptsEvolve(cp, Successor(cp, op)) <==> !op.PruneOp?
  {
    hide Coherent, Sourced, Dispatched, TerminalsStay, PrunesTerminal, Prune, Compact, Valid, ReceiptsEvolve;
    if op.PruneOp? {
      PruneTerminals(cp, op.prune, op.g);
    } else {
      PerformEvolves(cp, op);
    }
  }

  lemma UnchangedAllowed(mode: StoreMode, cp: Checkpoint)
    requires Inv(cp) && CandidateAllowed(mode, cp)
    ensures ReplacementAllowed(mode, cp, cp)
  {
    hide Coherent, Sourced, EffectsMove, TombstonesStay, EvidenceStays, ReceiptsEvolve;
    NothingMoves(cp);
    UnchangedAccepted(cp, cp);
    MovesKeepEvidence(cp, cp, false);
  }

  /**
   A store accepts the result of an operation on a record that it may hold, except that permanent
   receipts refuse every prune, and a strict outbox refuses compactions and those prunes that
   remove the producer of a terminal effect.
   */
  lemma PolicyAccepts(cp: Checkpoint, op: Operation, mode: StoreMode)
    requires Inv(cp) && Dispatched(cp, op) && CandidateAllowed(mode, cp)
    ensures ReplacementAllowed(mode, cp, Successor(cp, op)) <==> !Refuses(mode, cp, op)
  {
    hide Inv, Dispatched, Successor, ReceiptsEvolve, EffectsMove, TombstonesStay, EvidenceStays, TerminalsStay, PrunesTerminal;
    if Successor(cp, op) == cp {
      UnchangedAllowed(mode, cp);
    } else {
      PerformInv(cp, op);
      PerformEffects(cp, op);
      MovesKeepEvidence(cp, Successor(cp, op), op.PruneOp?);
      if mode.receipts.PermanentReceipts? {
        PermanentAccepts(cp, op);
      }
      if mode.outbox.StrictOutbox? {
        StrictAccepts(cp, op);
      }
    }
  }
}
