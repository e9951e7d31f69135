/**
 When a prune succeeds, in terms of the records that it would remove, and what it leaves: the receipts above
 the cutoff, one tombstone for each removed terminal receipt, and the effects that are still referenced.
 */
module PruneAnswers {
  import opened Wrappers
  import opened Sequences
  import opened CheckpointModel
  import opened CheckpointValidity
  import opened Transitions
  import opened CheckpointOps
  import opened PruneProofs

  /** The receipt is removed: it is not the creation receipt and not above the cutoff. */
  predicate Goes(r: Receipt, cutoff: nat) {
    1 <= r.sequence <= cutoff
  }

  /** Nothing still needs receipt `r`: its event has ended in a removed receipt, and it produced no live entry and no pending effect. */
  predicate Dispensable(cp: Checkpoint, r: Receipt, cutoff: nat) {
    && (r.Acceptance? ==> exists t :: t in cp.receipts && t.Terminal? && t.eventId == r.eventId && t.sequence <= cutoff)
    && (forall k :: 0 <= k < |r.Refs()| ==> !r.Refs()[k].MailboxRef? && (r.Refs()[k].OutboxRef? ==> !IsPending(cp, r.Refs()[k].effectId)))
  }

  /** The cutoff moves forward and stays below the next receipt, and everything that goes is dispensable. */
  predicate CanPrune(cp: Checkpoint, cutoff: nat) {
    && cp.retention.Base() < cutoff < cp.nextReceipt
    && (forall r :: r in cp.receipts && Goes(r, cutoff) ==> Dispensable(cp, r, cutoff))
  }

  // ------------------------------------------------------------------------------------------
  // The guards
  // ------------------------------------------------------------------------------------------

  lemma SomethingGoes(cp: Checkpoint, cutoff: nat)
    requires ReceiptsOk(cp)
    ensures (exists i :: 0 <= i < |cp.receipts| && Removable(cp.receipts[i], cutoff)) && cutoff < cp.nextReceipt <==> cp.retention.Base() < cutoff < cp.nextReceipt
  {
    hide Removable;
    forall i: nat | i < |cp.receipts| ensures Removable(cp.receipts[i], cutoff) <==> 1 <= i < Cut(cp, cutoff) {
      RemovableAt(cp, cutoff, i);
    }
    if cp.retention.Base() < cutoff < cp.nextReceipt {
      assert Removable(cp.receipts[cutoff - cp.retention.Base()], cutoff);
    }
  }

  /** A terminal receipt has its acceptance in front of it, or a producer, or its evidence was pruned before. */
  lemma TerminalsMayGo(cp: Checkpoint, cutoff: nat, i: nat)
    requires Inv(cp) && i < |cp.receipts| && Removable(cp.receipts[i], cutoff) && cp.receipts[i].Terminal?
    ensures var rs := cp.receipts;
            || (exists j :: 0 <= j < |rs| && Removable(rs[j], cutoff) && rs[j].Acceptance? && rs[j].eventId == rs[i].eventId)
            || (exists j, k :: 0 <= j < |rs| && 0 <= k < |rs[j].Refs()| && rs[j].Refs()[k].TerminalRef? && rs[j].Refs()[k].terminal == rs[i].sequence)
            || (cp.retention.Pruned().Some? && cp.retention.Pruned().value < rs[i].sequence)
  {
    hide Sourced, Traceable, Strong, UniqueAcceptances, UniqueTerminals, AllocationsOk, DigestsOk, MailboxesOk, AcceptancesLead, TombstonesOk, OwnersOk;
    hide QueuesOk, ReferencesOk, StagesOk, EffectsOk;
    var rs, t := cp.receipts, cp.receipts[i];
    if HasAcceptance(rs, t) {
      var j :| 0 <= j < |rs| && Admits(rs[j], t);
      assert j != 0;
      assert Removable(rs[j], cutoff);
    } else if HasProducer(rs, t) {
      var j, k :| 0 <= j < |rs| && 0 <= k < |rs[j].Refs()| && EndsIn(rs[j].Refs()[k], t);
      assert EndsIn(rs[j].Refs()[k], t);
    }
  }

  /** The loops over removed receipts find a reason to refuse exactly if one of these is not dispensable. */
  lemma GuardsIff(cp: Checkpoint, cutoff: nat)
    requires Inv(cp)
    ensures PruneAllowed(cp.receipts, cutoff, cp.retention.Pruned()) && !PrunesPending(cp, cutoff)
       <==> forall r :: r in cp.receipts && Goes(r, cutoff) ==> Dispensable(cp, r, cutoff)
  {
    hide Inv;
    var rs := cp.receipts;
    forall i: nat | i < |rs| && Removable(rs[i], cutoff) && rs[i].Terminal?
      ensures || (exists j :: 0 <= j < |rs| && Removable(rs[j], cutoff) && rs[j].Acceptance? && rs[j].eventId == rs[i].eventId)
              || (exists j, k :: 0 <= j < |rs| && 0 <= k < |rs[j].Refs()| && rs[j].Refs()[k].TerminalRef? && rs[j].Refs()[k].terminal == rs[i].sequence)
              || (cp.retention.Pruned().Some? && cp.retention.Pruned().value < rs[i].sequence)
    {
      TerminalsMayGo(cp, cutoff, i);
    }
    TerminalsNumbered(cp);
    if PruneAllowed(rs, cutoff, cp.retention.Pruned()) && !PrunesPending(cp, cutoff) {
      forall r | r in rs && Goes(r, cutoff) ensures Dispensable(cp, r, cutoff) {
        AllowedIsDispensable(cp, cutoff, r);
      }
    }
    if forall r :: r in rs && Goes(r, cutoff) ==> Dispensable(cp, r, cutoff) {
      forall i: nat | i < |rs| && Removable(rs[i], cutoff)
        ensures rs[i].Acceptance? ==> exists j :: 0 <= j < |rs| && Removable(rs[j], cutoff) && rs[j].Terminal? && rs[j].eventId == rs[i].eventId
        ensures forall k :: 0 <= k < |rs[i].Refs()| ==> !rs[i].Refs()[k].MailboxRef?
        ensures forall k, p :: 0 <= k < |rs[i].Refs()| && rs[i].Refs()[k].OutboxRef? && 0 <= p < |cp.pending| ==> cp.pending[p].intent.effectId != rs[i].Refs()[k].effectId
      {
        assert rs[i] in rs;
        DispensableIsAllowed(cp, cutoff, i);
      }
    }
  }

  lemma TerminalsNumbered(cp: Checkpoint)
    requires Inv(cp)
    ensures forall t :: t in cp.receipts && t.Terminal? ==> t.sequence > 0
  {
    hide Sourced, Traceable, Strong, UniqueAcceptances, UniqueTerminals, AllocationsOk, DigestsOk, MailboxesOk, AcceptancesLead, TombstonesOk, OwnersOk;
    hide QueuesOk, ReferencesOk, StagesOk, EffectsOk, TerminalsExplained;
  }

  lemma AllowedIsDispensable(cp: Checkpoint, cutoff: nat, r: Receipt)
    requires r in cp.receipts && Goes(r, cutoff)
    requires PruneAllowed(cp.receipts, cutoff, cp.retention.Pruned()) && !PrunesPending(cp, cutoff)
    ensures Dispensable(cp, r, cutoff)
  {
    var i :| 0 <= i < |cp.receipts| && cp.receipts[i] == r;
    assert Removable(cp.receipts[i], cutoff);
    if r.Acceptance? {
      var j :| 0 <= j < |cp.receipts| && Removable(cp.receipts[j], cutoff) && cp.receipts[j].Terminal? && cp.receipts[j].eventId == r.eventId;
      assert cp.receipts[j] in cp.receipts;
    }
    forall k | 0 <= k < |r.Refs()| && r.Refs()[k].OutboxRef? ensures !IsPending(cp, r.Refs()[k].effectId) {
      if p :| 0 <= p < |cp.pending| && cp.pending[p].intent.effectId == r.Refs()[k].effectId {
        assert PrunesPending(cp, cutoff);
      }
    }
  }

  lemma DispensableIsAllowed(cp: Checkpoint, cutoff: nat, i: nat)
    requires i < |cp.receipts| && Dispensable(cp, cp.receipts[i], cutoff)
    requires forall t :: t in cp.receipts && t.Terminal? ==> t.sequence > 0
    ensures var rs := cp.receipts;
            && (rs[i].Acceptance? ==> exists j :: 0 <= j < |rs| && Removable(rs[j], cutoff) && rs[j].Terminal? && rs[j].eventId == rs[i].eventId)
            && (forall k :: 0 <= k < |rs[i].Refs()| ==> !rs[i].Refs()[k].MailboxRef?)
            && (forall k, p :: 0 <= k < |rs[i].Refs()| && rs[i].Refs()[k].OutboxRef? && 0 <= p < |cp.pending| ==> cp.pending[p].intent.effectId != rs[i].Refs()[k].effectId)
  {
    var rs := cp.receipts;
    if rs[i].Acceptance? {
      var t :| t in rs && t.Terminal? && t.eventId == rs[i].eventId && t.sequence <= cutoff;
      var j :| 0 <= j < |rs| && rs[j] == t;
      assert Removable(rs[j], cutoff);
    }
  }

  // ------------------------------------------------------------------------------------------
  // What is left
  // ------------------------------------------------------------------------------------------

  /** The kept receipts in order: all that do not go. */
  ghost predicate KeepsReceipts(cp: Checkpoint, cutoff: nat, next: Checkpoint, at: seq<nat>) {
    && Increasing(at) && |at| == |next.receipts|
    && (forall x :: 0 <= x < |at| ==> at[x] < |cp.receipts| && next.receipts[x] == cp.receipts[at[x]] && !Goes(cp.receipts[at[x]], cutoff))
    && (forall i: nat :: i < |cp.receipts| && !Goes(cp.receipts[i], cutoff) ==> Occurs(i, at))
  }

  /** One tombstone for each terminal receipt that goes, in order, behind those that were there. */
  ghost predicate BuriesTerminals(cp: Checkpoint, cutoff: nat, next: Checkpoint, at: seq<nat>) {
    && Increasing(at) && |next.tombstones| == |cp.tombstones| + |at| && cp.tombstones <= next.tombstones
    && (forall x :: 0 <= x < |at| ==> at[x] < |cp.receipts| && BuriedBy(cp.receipts[at[x]], cutoff, next.tombstones[|cp.tombstones| + x]))
    && (forall i: nat :: i < |cp.receipts| && cp.receipts[i].Terminal? && Goes(cp.receipts[i], cutoff) ==> Occurs(i, at))
  }

  predicate BuriedBy(r: Receipt, cutoff: nat, t: EventTombstone) {
    r.Terminal? && Goes(r, cutoff) && t == EventTombstone(r.eventId, r.request', r.acceptance, r.sequence, r.outcome.disposition)
  }

  /** The terminal records and effect tombstones that a kept receipt still references, in order. */
  ghost predicate KeepsEffects(cp: Checkpoint, next: Checkpoint, ta: seq<nat>, ca: seq<nat>) {
    && Increasing(ta) && |next.terminals| == |ta| && Increasing(ca) && |next.compacted| == |ca|
    && (forall x :: 0 <= x < |ta| ==> ta[x] < |cp.terminals| && next.terminals[x] == cp.terminals[ta[x]])
    && (forall x :: 0 <= x < |ca| ==> ca[x] < |cp.compacted| && next.compacted[x] == cp.compacted[ca[x]])
    && (forall i: nat :: i < |cp.terminals| ==> (Occurs(i, ta) <==> Referenced(next.receipts, cp.terminals[i].intent.effectId)))
    && (forall i: nat :: i < |cp.compacted| ==> (Occurs(i, ca) <==> Referenced(next.receipts, cp.compacted[i].effectId)))
  }

  ghost predicate Leaves(cp: Checkpoint, q: PruneRequest, next: Checkpoint) {
    && next == cp.(revision := cp.revision + 1, retention := Bounded(Some(q.cutoff), q.policy), receipts := next.receipts,
                   tombstones := next.tombstones, terminals := next.terminals, compacted := next.compacted)
    && (exists at: seq<nat> :: KeepsReceipts(cp, q.cutoff, next, at))
    && (exists at: seq<nat> :: BuriesTerminals(cp, q.cutoff, next, at))
    && (exists ta: seq<nat>, ca: seq<nat> :: KeepsEffects(cp, next, ta, ca))
  }

  lemma RetainMore(rs: seq<Receipt>, cutoff: nat, kept: seq<Receipt>, at: seq<nat>)
    requires rs != [] && Retains(rs[..|rs| - 1], cutoff, kept, at)
    ensures var last := |rs| - 1;
            if Goes(rs[last], cutoff) then Retains(rs, cutoff, kept, at) else Retains(rs, cutoff, kept + [rs[last]], at + [last])
  {
    hide Occurs, Goes;
    var last := |rs| - 1;
    assert forall i :: 0 <= i < last ==> rs[..last][i] == rs[i];
    var at' := if Goes(rs[last], cutoff) then at else at + [last];
    forall i: nat | i < |rs| && !Goes(rs[i], cutoff) ensures Occurs(i, at') {
      OccursMore(i, at, last);
    }
    IncreasingMore(at, last);
  }

  ghost predicate Retains(rs: seq<Receipt>, cutoff: nat, kept: seq<Receipt>, at: seq<nat>) {
    && Increasing(at) && |at| == |kept|
    && (forall x :: 0 <= x < |at| ==> at[x] < |rs| && kept[x] == rs[at[x]] && !Goes(rs[at[x]], cutoff))
    && (forall i: nat :: i < |rs| && !Goes(rs[i], cutoff) ==> Occurs(i, at))
  }

  lemma {:induction false} RetainIs(rs: seq<Receipt>, cutoff: nat) returns (at: seq<nat>)
    ensures Retains(rs, cutoff, Retain(rs, cutoff), at)
  {
    if rs == [] {
      at := [];
    } else {
      hide Retains;
      var last := |rs| - 1;
      var before := RetainIs(rs[..last], cutoff);
      RetainMore(rs, cutoff, Retain(rs[..last], cutoff), before);
      at := if Goes(rs[last], cutoff) then before else before + [last];
    }
  }

  lemma PruneLeaves(cp: Checkpoint, q: PruneRequest)
    ensures Leaves(cp, q, PruneTo(cp, q))
  {
    hide Retain, Bury, RetainTerminals, RetainCompacted, KeepsReceipts, BuriesTerminals, KeepsEffects;
    var next := PruneTo(cp, q);
    var at := KeptIs(cp, q);
    var at' := BuriedIs(cp, q);
    var ta, ca := EffectsIs(cp, q);
  }

  lemma KeptIs(cp: Checkpoint, q: PruneRequest) returns (at: seq<nat>)
    ensures KeepsReceipts(cp, q.cutoff, PruneTo(cp, q), at)
  {
    hide Retain, Bury, RetainTerminals, RetainCompacted, Occurs, Goes;
    at := RetainIs(cp.receipts, q.cutoff);
  }

  lemma BuriedIs(cp: Checkpoint, q: PruneRequest) returns (at: seq<nat>)
    ensures BuriesTerminals(cp, q.cutoff, PruneTo(cp, q), at)
  {
    hide Retain, Bury, RetainTerminals, RetainCompacted, Occurs;
    at := BuryAt(cp.receipts, q.cutoff);
  }

  lemma EffectsIs(cp: Checkpoint, q: PruneRequest) returns (ta: seq<nat>, ca: seq<nat>)
    ensures KeepsEffects(cp, PruneTo(cp, q), ta, ca)
  {
    hide Retain, Bury, RetainTerminals, RetainCompacted, Referenced;
    var next := PruneTo(cp, q);
    ta := RetainTerminalsAt(next.receipts, cp.terminals);
    ca := RetainCompactedAt(next.receipts, cp.compacted);
  }

  // ------------------------------------------------------------------------------------------
  // The operation
  // ------------------------------------------------------------------------------------------

  /** The policy is named and is the one in force. */
  predicate PolicyFits(cp: Checkpoint, q: PruneRequest) {
    q.policy != [] && (cp.retention.Bounded? ==> cp.retention.policy == q.policy)
  }

  /**
   A prune succeeds if and only if the cutoff moves forward, stays below the next receipt and everything that
   goes is dispensable; repeating the last cutoff changes nothing.
   */
  lemma PruneIff(cp: Checkpoint, q: PruneRequest, g: Guard)
    requires Inv(cp)
    ensures var r := Prune(cp, q, g);
            if !PolicyFits(cp, q) then r == Err(InvalidCheckpoint)
            else if cp.retention.Pruned() == Some(q.cutoff) then r == Ok(Next(cp))
            else if !Holds(g, cp) then r == Err(RevisionConflict)
            else if CanPrune(cp, q.cutoff) then r.Ok? && r.value.Next? && Leaves(cp, q, r.value.next)
            else r == Err(InvalidCheckpoint)
  {
    hide Inv, Holds, PruneAllowed, PrunesPending, PruneTo, Leaves, Dispensable, Goes, Removable, AllocationsOk, QueuesOk, UniqueAcceptances, UniqueTerminals, ReceiptsOk;
    ReceiptsInOrder(cp);
    SomethingGoes(cp, q.cutoff);
    GuardsIff(cp, q.cutoff);
    PruneLeaves(cp, q);
  }

  lemma ReceiptsInOrder(cp: Checkpoint)
    requires Inv(cp)
    ensures ReceiptsOk(cp)
  {
    hide Consistent, Sourced, Traceable, Strong, ReceiptsOk, AllocationsOk, QueuesOk, UniqueAcceptances, UniqueTerminals;
    ValidTerminals(cp);
  }
}
