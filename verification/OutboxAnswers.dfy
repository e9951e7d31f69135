/**
 What the outbox operations and the root tombstone answer: the record that a successful call leaves, what
 stays as it was, what a repetition gives, and which failure every unmet condition gives.
 */
module OutboxAnswers {
  import opened Wrappers
  import opened CheckpointModel
  import opened CheckpointValidity
  import opened WireCore
  import opened WireCoreProofs
  import opened Transitions
  import opened TransitionTheorem
  import opened CheckpointOps
  import opened RootProofs
  import opened OutboxProofs
  import opened Runs

  predicate PendingAt(cp: Checkpoint, p: nat, effect: Text) {
    p < |cp.pending| && cp.pending[p].intent.effectId == effect
  }

  predicate TerminalAt(cp: Checkpoint, t: nat, effect: Text) {
    t < |cp.terminals| && cp.terminals[t].intent.effectId == effect
  }

  /** In a coherent checkpoint an effect is found where it is, and nowhere else. */
  lemma FoundPending(cp: Checkpoint, p: nat, effect: Text)
    requires Inv(cp) && PendingAt(cp, p, effect)
    ensures FindPending(cp.pending, effect) == p
    ensures FindEffect(cp.terminals, effect) == |cp.terminals| && FindCompacted(cp.compacted, effect) == |cp.compacted|
  {
    hide Coherent, Sourced, EffectsOk, FindPending, FindEffect, FindCompacted;
    ValidEffects(cp);
  }

  lemma FoundTerminal(cp: Checkpoint, t: nat, effect: Text)
    requires Inv(cp) && TerminalAt(cp, t, effect)
    ensures FindEffect(cp.terminals, effect) == t && FindCompacted(cp.compacted, effect) == |cp.compacted|
  {
    hide Coherent, Sourced, EffectsOk, FindPending, FindEffect, FindCompacted;
    ValidEffects(cp);
  }

  // ------------------------------------------------------------------------------------------
  // Updating
  // ------------------------------------------------------------------------------------------

  /** Record `p` has the new delivery state and revision; nothing else changed. */
  predicate Updated(cp: Checkpoint, p: nat, state: DeliveryState, next: Checkpoint)
    requires p < |cp.pending|
  {
    && next == cp.(revision := cp.revision + 1, pending := next.pending)
    && |next.pending| == |cp.pending|
    && next.pending[p] == PendingEffect(cp.pending[p].intent, cp.revision + 1, state)
    && (forall x :: 0 <= x < |cp.pending| && x != p ==> next.pending[x] == cp.pending[x])
  }

  /** A pending effect takes the requested delivery state; asking for the one that it has changes nothing. */
  lemma UpdateAnswer(cp: Checkpoint, effect: Text, state: DeliveryState, g: Guard, p: nat)
    requires Inv(cp)
    ensures !IsPending(cp, effect) ==> UpdatePending(cp, effect, state, g) == Err(EffectIdConflict)
    ensures PendingAt(cp, p, effect) ==>
              var r := UpdatePending(cp, effect, state, g);
              if cp.pending[p].state == state then r == Ok(Next(cp))
              else if !Holds(g, cp) then r == Err(RevisionConflict)
              else r.Ok? && r.value.Next? && Updated(cp, p, state, r.value.next)
  {
    hide Inv, FindPending, Holds;
    if PendingAt(cp, p, effect) {
      FoundPending(cp, p, effect);
    }
  }

  // ------------------------------------------------------------------------------------------
  // Terminalizing
  // ------------------------------------------------------------------------------------------

  /** Pending record `p` is gone, and a terminal record with its intent and the outcome came last; nothing else changed. */
  predicate Terminalized(cp: Checkpoint, p: nat, outcome: EffectOutcome, next: Checkpoint)
    requires p < |cp.pending|
  {
    && next == cp.(revision := cp.revision + 1, pending := next.pending, nextTerminal := cp.nextTerminal + 1, terminals := next.terminals)
    && |next.pending| == |cp.pending| - 1
    && (forall x :: 0 <= x < |next.pending| ==> next.pending[x] == cp.pending[if x < p then x else x + 1])
    && |next.terminals| == |cp.terminals| + 1 && cp.terminals <= next.terminals
    && next.terminals[|cp.terminals|] == TerminalEffect(cp.nextTerminal, cp.pending[p].intent, cp.revision + 1, outcome)
  }

  /**
   Terminalizing a pending effect records the requested outcome. Repeating the call answers the same checkpoint,
   and another outcome is a conflict.
   */
  lemma TerminalizeAnswer(cp: Checkpoint, effect: Text, outcome: EffectOutcome, g: Guard, p: nat) returns (next: Checkpoint)
    requires Inv(cp) && PendingAt(cp, p, effect) && Holds(g, cp)
    ensures Terminalize(cp, effect, outcome, g) == Ok(Next(next)) && Terminalized(cp, p, outcome, next)
    ensures !IsPending(next, effect) && Inv(next)
    ensures forall o, g' :: Terminalize(next, effect, o, g') == if o == outcome then Ok(Next(next)) else Err(EffectIdConflict)
  {
    hide Inv, FindPending, FindEffect, FindCompacted, Holds;
    FoundPending(cp, p, effect);
    next := Terminalize(cp, effect, outcome, g).value.next;
    TerminalizeInv(cp, effect, outcome, g);
    var t := next.terminals[|cp.terminals|];
    assert t in next.terminals;
    NoLongerPending(next, t);
    forall o, g' ensures Terminalize(next, effect, o, g') == if o == outcome then Ok(Next(next)) else Err(EffectIdConflict) {
      hide Terminalize;
      TerminalizeAgain(next, t, o, g');
    }
  }

  lemma NoLongerPending(cp: Checkpoint, t: TerminalEffect)
    requires Inv(cp) && t in cp.terminals
    ensures !IsPending(cp, t.intent.effectId)
  {
    hide Coherent, Sourced, EffectsOk;
    ValidEffects(cp);
  }

  /** What a terminalization answers about an effect that is not terminal. */
  lemma TerminalizeRefusal(cp: Checkpoint, effect: Text, outcome: EffectOutcome, g: Guard)
    requires Inv(cp) && !IsTerminal(cp, effect) && !IsCompacted(cp, effect)
    ensures !Holds(g, cp) ==> Terminalize(cp, effect, outcome, g) == Err(RevisionConflict)
    ensures Holds(g, cp) && !IsPending(cp, effect) ==> Terminalize(cp, effect, outcome, g) == Err(EffectIdConflict)
  {
    hide Inv, FindPending, FindEffect, FindCompacted, Holds;
    var t, c := FindEffect(cp.terminals, effect), FindCompacted(cp.compacted, effect);
    assert t == |cp.terminals| && c == |cp.compacted|;
  }

  // ------------------------------------------------------------------------------------------
  // Compacting
  // ------------------------------------------------------------------------------------------

  /** Terminal record `t` is replaced by a tombstone with its evidence, in the order of terminal numbers; nothing else changed. */
  ghost predicate CompactedInto(cp: Checkpoint, t: nat, next: Checkpoint, q: nat)
    requires t < |cp.terminals|
  {
    var r := cp.terminals[t];
    && next == cp.(revision := cp.revision + 1, terminals := next.terminals, compacted := next.compacted)
    && |next.terminals| == |cp.terminals| - 1
    && (forall x :: 0 <= x < |next.terminals| ==> next.terminals[x] == cp.terminals[if x < t then x else x + 1])
    && q < |next.compacted| == |cp.compacted| + 1
    && next.compacted[q] == EffectTombstone(r.terminal, r.intent.effectId, IntentDigest(cp.root, r.intent), r.revision, r.outcome)
    && (forall x :: 0 <= x < |cp.compacted| ==> next.compacted[if x < q then x else x + 1] == cp.compacted[x])
    && (forall x :: 0 <= x < q ==> next.compacted[x].terminal < r.terminal)
    && (forall x :: q < x < |next.compacted| ==> next.compacted[x].terminal > r.terminal)
  }

  lemma CompactedPlace(cp: Checkpoint, effect: Text, g: Guard, t: nat) returns (q: nat)
    requires Inv(cp) && TerminalAt(cp, t, effect) && Holds(g, cp)
    ensures Compact(cp, effect, g).Ok? && Compact(cp, effect, g).value.Next?
    ensures CompactedInto(cp, t, Compact(cp, effect, g).value.next, q)
  {
    hide Inv, FindEffect, FindCompacted, Holds, InsertCompacted, StagesOk, EffectsOk;
    FoundTerminal(cp, t, effect);
    var r := cp.terminals[t];
    q := InsertAt(cp.compacted, TombstoneOf(cp.root, r));
    var next := Compact(cp, effect, g).value.next;
    forall x | 0 <= x < |cp.compacted| ensures next.compacted[if x < q then x else x + 1] == cp.compacted[x] {
    }
    CompactInv(cp, effect, g);
    CompactedSorted(next);
  }

  lemma CompactedSorted(cp: Checkpoint)
    requires Inv(cp)
    ensures forall x, y :: 0 <= x < y < |cp.compacted| ==> cp.compacted[x].terminal < cp.compacted[y].terminal
  {
    hide Coherent, Sourced, EffectsOk;
    ValidEffects(cp);
  }

  /** Compacting a terminal effect keeps its evidence in a tombstone; compacting anything else is a conflict. */
  lemma CompactAnswer(cp: Checkpoint, effect: Text, g: Guard)
    requires Inv(cp)
    ensures IsCompacted(cp, effect) ==> Compact(cp, effect, g) == Ok(Next(cp))
    ensures !IsCompacted(cp, effect) && !Holds(g, cp) ==> Compact(cp, effect, g) == Err(RevisionConflict)
    ensures !IsCompacted(cp, effect) && !IsTerminal(cp, effect) && Holds(g, cp) ==> Compact(cp, effect, g) == Err(EffectIdConflict)
    ensures forall t: nat :: TerminalAt(cp, t, effect) && Holds(g, cp) ==>
              var r := Compact(cp, effect, g); r.Ok? && r.value.Next? && exists q: nat :: CompactedInto(cp, t, r.value.next, q)
  {
    hide Inv, FindEffect, FindCompacted, Holds, InsertCompacted, CompactedInto;
    forall t: nat | TerminalAt(cp, t, effect) && Holds(g, cp)
      ensures Compact(cp, effect, g).Ok? && Compact(cp, effect, g).value.Next?
      ensures exists q: nat :: CompactedInto(cp, t, Compact(cp, effect, g).value.next, q)
    {
      hide Compact;
      var q := CompactedPlace(cp, effect, g, t);
    }
  }

  // ------------------------------------------------------------------------------------------
  // Root tombstone
  // ------------------------------------------------------------------------------------------

  /** The entries of the runtimes one after the other, ready before deferred; those of runtime `j` begin at `bounds[j]`. */
  ghost predicate InDocumentOrder(rs: seq<Runtime>, es: seq<Entry>, bounds: seq<nat>) {
    && |bounds| == |rs| + 1 && bounds[0] == 0 && bounds[|rs|] == |es|
    && (forall j: nat :: j < |rs| ==> HoldsBox(rs[j], es, bounds, j))
  }

  predicate HoldsBox(r: Runtime, es: seq<Entry>, bounds: seq<nat>, j: nat) {
    j + 1 < |bounds| && bounds[j] <= bounds[j + 1] <= |es| && es[bounds[j]..bounds[j + 1]] == r.ready + r.deferred
  }

  lemma BoxStays(r: Runtime, es: seq<Entry>, bounds: seq<nat>, j: nat, more: seq<Entry>, bound: nat)
    requires HoldsBox(r, es, bounds, j)
    ensures HoldsBox(r, es + more, bounds + [bound], j)
  {
    assert (es + more)[bounds[j]..bounds[j + 1]] == es[bounds[j]..bounds[j + 1]];
  }

  lemma {:induction false} FlatIs(rs: seq<Runtime>) returns (bounds: seq<nat>)
    ensures InDocumentOrder(rs, Flat(rs), bounds)
  {
    if rs == [] {
      bounds := [0];
    } else {
      hide HoldsBox;
      var init, r := rs[..|rs| - 1], rs[|rs| - 1];
      var before := FlatIs(init);
      var es := Flat(init);
      bounds := before + [|es| + |Box(r)|];
      forall j: nat | j < |rs| ensures HoldsBox(rs[j], Flat(rs), bounds, j) {
        if j < |init| {
          assert init[j] == rs[j];
          BoxStays(init[j], es, before, j, Box(r), |es| + |Box(r)|);
        } else {
          LastBox(r, es, bounds, j);
        }
      }
    }
  }

  lemma LastBox(r: Runtime, es: seq<Entry>, bounds: seq<nat>, j: nat)
    requires |bounds| == j + 2 && bounds[j] == |es| && bounds[j + 1] == |es| + |Box(r)|
    ensures HoldsBox(r, es + Box(r), bounds, j)
  {
    assert (es + Box(r))[|es|..] == Box(r);
  }

  /** The root ended with `status`. */
  predicate RootEnded(a: Aggregate, status: Status) {
    && !status.Running?
    && exists j :: 0 <= j < |a.runtimes| && a.runtimes[j].id == a.rootRuntime && a.runtimes[j].status == status
  }

  lemma RootEndedIff(a: Aggregate, status: Status)
    requires DistinctRuntimes(a.runtimes) && !status.Running?
    ensures StatusOf(a.runtimes, a.rootRuntime) == Some(status) <==> RootEnded(a, status)
  {
    if j :| 0 <= j < |a.runtimes| && a.runtimes[j].id == a.rootRuntime && a.runtimes[j].status == status {
      FindUnique(a.runtimes, j);
    }
  }

  /** Every live entry ended in a receipt of its own, in document order, because the root was tombstoned. */
  predicate EntriesBuried(cp: Checkpoint, a: Aggregate, next: Checkpoint, status: Status, es: seq<Entry>) {
    && |next.receipts| == |cp.receipts| + |es|
    && (forall x :: 0 <= x < |es| ==>
          next.receipts[|cp.receipts| + x]
          == Terminal(cp.nextReceipt + x, es[x].Id(), es[x].digest, es[x].acceptance, es[x].queue, cp.revision + 1,
                      AggregateDigest(a), Outcome(status, Disposed(RootTombstoned)), []))
  }

  /** The record of a tombstoned root, and its receipts. */
  ghost predicate RootBuried(cp: Checkpoint, next: Checkpoint, status: Status, operationId: Text, es: seq<Entry>, bounds: seq<nat>)
    requires cp.record.Retained?
  {
    var a := cp.record.aggregate;
    && next == cp.(revision := cp.revision + 1, record := Tombstoned(a.rootRuntime, a.creationId, status, AggregateDigest(a), operationId),
                   nextReceipt := cp.nextReceipt + |es|, receipts := next.receipts)
    && InDocumentOrder(a.runtimes, es, bounds)
    && EntriesBuried(cp, a, next, status, es)
    && Transition(cp, next, es, [])
  }

  lemma BuriesEntries(cp: Checkpoint, status: Status, operationId: Text)
    requires cp.record.Retained?
    ensures var a := cp.record.aggregate; EntriesBuried(cp, a, TombstoneInto(cp, a, status, operationId), status, Flat(a.runtimes))
  {
    hide Flat, EndedBy;
    var a := cp.record.aggregate;
    var es, next := Flat(a.runtimes), TombstoneInto(cp, a, status, operationId);
    forall x | 0 <= x < |es|
      ensures next.receipts[|cp.receipts| + x]
           == Terminal(cp.nextReceipt + x, es[x].Id(), es[x].digest, es[x].acceptance, es[x].queue, cp.revision + 1,
                       AggregateDigest(a), Outcome(status, Disposed(RootTombstoned)), [])
    {
      var ls := Buryings(es);
      assert next.receipts[|cp.receipts| + x] == LifecycleReceipts(ls, cp.nextReceipt, cp.revision + 1, AggregateDigest(a), status)[x];
    }
  }

  lemma BuriesRoot(cp: Checkpoint, status: Status, operationId: Text) returns (bounds: seq<nat>)
    requires Inv(cp) && cp.record.Retained?
    ensures var a := cp.record.aggregate; RootBuried(cp, TombstoneInto(cp, a, status, operationId), status, operationId, Flat(a.runtimes), bounds)
  {
    hide Coherent, Sourced, Flat, EndedBy, InDocumentOrder, EntriesBuried, Transition, RewriteAll, LifecycleReceipts;
    bounds := FlatIs(cp.record.aggregate.runtimes);
    BuriesEntries(cp, status, operationId);
    TombstoneTransition(cp, status, operationId);
  }

  /** A root without pending effects is tombstoned exactly when it has ended; repeating the operation changes nothing. */
  lemma TombstoneAnswer(cp: Checkpoint, operationId: Text, g: Guard)
    requires Inv(cp)
    ensures operationId == [] ==> TombstoneRoot(cp, operationId, g) == Err(InvalidCheckpoint)
    ensures operationId != [] ==>
            var r := TombstoneRoot(cp, operationId, g);
            match cp.record
            case Tombstoned(_, _, _, _, prior) => r == if prior == operationId then Ok(Next(cp)) else Err(OperationIdConflict)
            case Retained(a) =>
              if cp.pending != [] then r == Err(InvalidCheckpoint)
              else if !Holds(g, cp) then r == Err(RevisionConflict)
              else if RootEnded(a, Completed) then r.Ok? && r.value.Next? && exists es, bounds :: RootBuried(cp, r.value.next, Completed, operationId, es, bounds)
              else if RootEnded(a, Faulted) then r.Ok? && r.value.Next? && exists es, bounds :: RootBuried(cp, r.value.next, Faulted, operationId, es, bounds)
              else r == Err(InvalidCheckpoint)
  {
    hide Inv, StatusOf, RootEnded, RootBuried, TombstoneInto, Holds, Flat;
    if cp.record.Retained? {
      RetainedRuntimes(cp);
      RootEndedIff(cp.record.aggregate, Completed);
      RootEndedIff(cp.record.aggregate, Faulted);
      var bounds := BuriesRoot(cp, Completed, operationId);
      var bounds' := BuriesRoot(cp, Faulted, operationId);
    }
  }

  lemma RetainedRuntimes(cp: Checkpoint)
    requires Inv(cp) && cp.record.Retained?
    ensures DistinctRuntimes(cp.record.aggregate.runtimes)
  {
    hide Consistent, Sourced, Traceable;
  }
}
