/** What every operation keeps about events and effects. */
module Evolution {
  import opened CheckpointModel
  import opened CheckpointValidity
  import opened WireCore
  import opened StepTheorem
  import opened Transitions
  import opened TransitionEvents
  import opened TransitionTheorem
  import opened CheckpointOps
  import opened Sequences
  import opened IdentityProofs
  import opened AdmitProofs
  import opened OutboxProofs
  import opened PruneProofs
  import opened ProcessProofs

  // ------------------------------------------------------------------------------------------
  // Events
  // ------------------------------------------------------------------------------------------

  /** No binding of an event to a digest is ever forgotten. */
  ghost predicate Remembers(cp: Checkpoint, cp': Checkpoint) {
    forall id, d :: Bears(cp, id, d) ==> Bears(cp', id, d)
  }

  lemma RemembersTrans(a: Checkpoint, b: Checkpoint, c: Checkpoint)
    requires Remembers(a, b) && Remembers(b, c)
    ensures Remembers(a, c)
  {
    hide Bears;
  }

  lemma TransitionRemembers(cp: Checkpoint, cp': Checkpoint, out: seq<Entry>, refs: seq<Reference>)
    requires Transition(cp, cp', out, refs)
    ensures Remembers(cp, cp')
  {
    hide Transition, Live, Everything, Distinct;
    TransitionBasics(cp, cp', out, refs);
    forall id, d | Bears(cp, id, d) ensures Bears(cp', id, d) {
      if e :| e in Live(cp) && e.Id() == id && e.digest == d {
        LiveGoesOn(cp, cp', out, refs, e);
        if j :| 0 <= j < |out| && out[j] == e {
          Split(cp, cp', out, refs, |cp.receipts| + j);
        }
      } else if i :| 0 <= i < |cp.receipts| && cp.receipts[i].Terminal? && cp.receipts[i].eventId == id && cp.receipts[i].request' == d {
        Split(cp, cp', out, refs, i);
      }
    }
  }

  lemma ExtendsRemembers(cp: Checkpoint, ds: seq<Delivery>, cp': Checkpoint)
    requires Extends(cp, ds, cp')
    ensures Remembers(cp, cp')
  {
    hide Extends, Live, Ready;
    ExtendsFacts(cp, ds, cp');
    forall id, d | Bears(cp, id, d) ensures Bears(cp', id, d) {
      if e :| e in Live(cp) && e.Id() == id && e.digest == d {
        ArrivedLive(cp, ds, cp', e);
      } else if i :| 0 <= i < |cp.receipts| && cp.receipts[i].Terminal? && cp.receipts[i].eventId == id && cp.receipts[i].request' == d {
        ReceiptAt(cp, ds, cp', i);
      }
    }
  }

  lemma SameRemembers(cp: Checkpoint, cp': Checkpoint)
    requires cp'.record == cp.record && cp'.receipts == cp.receipts && cp'.tombstones == cp.tombstones
    ensures Remembers(cp, cp')
  {
    assert Live(cp') == Live(cp);
  }

  lemma PrunedRemembers(cp: Checkpoint, q: PruneRequest, cp': Checkpoint, at: seq<nat>)
    requires ReceiptsOk(cp) && Pruned(cp, q, cp', at)
    ensures Remembers(cp, cp')
  {
    hide ReceiptsOk, Pruned, Live, Removable;
    PrunedBasics(cp, q, cp', at);
    forall id, d | Bears(cp, id, d) ensures Bears(cp', id, d) {
      if e :| e in Live(cp) && e.Id() == id && e.digest == d {
        assert e in Live(cp');
      } else if i :| 0 <= i < |cp.receipts| && cp.receipts[i].Terminal? && cp.receipts[i].eventId == id && cp.receipts[i].request' == d {
        if Removable(cp.receipts[i], q.cutoff) {
          var x := BuriedReceipt(cp, q, cp', at, i);
        } else {
          var j := KeptReceipt(cp, q, cp', at, i);
        }
      } else {
        var x :| 0 <= x < |cp.tombstones| && cp.tombstones[x].eventId == id && cp.tombstones[x].request == d;
        PrunedTombstone(cp, q, cp', at, x) by { assert x < |cp'.tombstones|; }
      }
    }
  }

  lemma ClipRemembers(cp: Checkpoint, limit: nat)
    ensures Remembers(cp, Clip(cp, limit))
  {
    hide Clip, Live;
    ClipBasics(cp, limit);
    var c := Clip(cp, limit);
    forall id, d | Bears(cp, id, d) ensures Bears(c, id, d) {
      if i :| 0 <= i < |cp.receipts| && cp.receipts[i].Terminal? && cp.receipts[i].eventId == id && cp.receipts[i].request' == d {
        ClipAt(cp, limit, i);
      }
    }
  }

  // ------------------------------------------------------------------------------------------
  // Effects
  // ------------------------------------------------------------------------------------------

  ghost predicate HoldsIntent(cp: Checkpoint, intent: Intent) {
    exists i :: 0 <= i < |cp.pending| && cp.pending[i].intent == intent
  }

  ghost predicate EndedIntent(cp: Checkpoint, intent: Intent) {
    exists i :: 0 <= i < |cp.terminals| && cp.terminals[i].intent == intent
  }

  /** `t` is retained in full or as its tombstone. */
  ghost predicate TerminalAs(cp: Checkpoint, t: TerminalEffect) {
    t in cp.terminals || TombstoneOf(cp.root, t) in cp.compacted
  }

  /** A pending effect stays pending with its intent or becomes terminal with it. */
  ghost predicate PendingMoves(cp: Checkpoint, cp': Checkpoint) {
    forall intent :: HoldsIntent(cp, intent) ==> HoldsIntent(cp', intent) || EndedIntent(cp', intent)
  }

  /** A terminal effect keeps its record or its tombstone; it leaves only by pruning, and then entirely. */
  ghost predicate TerminalMoves(cp: Checkpoint, cp': Checkpoint, pruned: bool) {
    && (forall t :: t in cp.terminals ==>
          t in cp'.terminals || TombstoneOf(cp.root, t) in cp'.compacted || (pruned && !IsEffect(cp', t.intent.effectId)))
    && (forall c :: c in cp.compacted ==> c in cp'.compacted || (pruned && !IsEffect(cp', c.effectId)))
  }

  /** An effect that was not there before is pending. */
  ghost predicate Arises(cp: Checkpoint, cp': Checkpoint) {
    forall f :: IsEffect(cp', f) && !IsEffect(cp, f) ==> IsPending(cp', f)
  }

  /** Effects move forward only: pending, terminal, tombstone. */
  ghost predicate EffectsMove(cp: Checkpoint, cp': Checkpoint, pruned: bool) {
    cp'.root == cp.root && PendingMoves(cp, cp') && TerminalMoves(cp, cp', pruned) && Arises(cp, cp')
  }

  lemma TransitionEffects(cp: Checkpoint, cp': Checkpoint, out: seq<Entry>, refs: seq<Reference>)
    requires Transition(cp, cp', out, refs)
    ensures EffectsMove(cp, cp', false)
  {
    hide Transition, Everything, Distinct, AnnouncesEffect, NewPending;
    TransitionBasics(cp, cp', out, refs);
    EffectsOf(cp, cp', out, refs);
    forall i | 0 <= i < |cp.pending| ensures cp'.pending[i] == cp.pending[i] {
      PendingAt(cp, cp', refs, i);
    }
    forall f | IsEffect(cp', f) && !IsEffect(cp, f) ensures IsPending(cp', f) {
      PendingAfter(cp, cp', refs, f);
    }
  }

  lemma SameOutbox(cp: Checkpoint, cp': Checkpoint)
    requires cp'.root == cp.root && cp'.terminals == cp.terminals && cp'.compacted == cp.compacted
    requires |cp'.pending| == |cp.pending| && forall i :: 0 <= i < |cp.pending| ==> cp'.pending[i].intent == cp.pending[i].intent
    ensures EffectsMove(cp, cp', false)
  {
    forall f | IsEffect(cp', f) && !IsEffect(cp, f) ensures IsPending(cp', f) {
    }
  }

  lemma TerminalizedEffects(cp: Checkpoint, p: nat, outcome: EffectOutcome)
    requires p < |cp.pending|
    ensures EffectsMove(cp, MoveToTerminal(cp, p, outcome), false)
  {
    hide IsEffect;
    var cp' := MoveToTerminal(cp, p, outcome);
    forall intent | HoldsIntent(cp, intent) ensures HoldsIntent(cp', intent) || EndedIntent(cp', intent) {
      var i :| 0 <= i < |cp.pending| && cp.pending[i].intent == intent;
      if i < p {
        assert cp'.pending[i] == cp.pending[i];
      } else if i > p {
        assert cp'.pending[i - 1] == cp.pending[i];
      } else {
        assert cp'.terminals[|cp.terminals|].intent == intent;
      }
    }
    forall f ensures IsEffect(cp', f) <==> IsEffect(cp, f) {
      MovedEffect(cp, p, outcome, f);
    }
  }

  lemma CompactedEffects(cp: Checkpoint, p: nat, q: nat)
    requires p < |cp.terminals| && q <= |cp.compacted|
    ensures EffectsMove(cp, MoveToTombstones(cp, p, q), false)
  {
    hide MoveToTombstones, IsEffect;
    var cp' := MoveToTombstones(cp, p, q);
    CompactedAt(cp, p, q);
    CompactedShape(cp, p, q);
    forall t | t in cp.terminals ensures t in cp'.terminals || TombstoneOf(cp.root, t) in cp'.compacted {
      var i :| 0 <= i < |cp.terminals| && cp.terminals[i] == t;
      if i < p {
        assert cp'.terminals[i] == cp.terminals[Before(p, i)];
      } else if i > p {
        assert cp'.terminals[i - 1] == cp.terminals[Before(p, i - 1)];
      }
    }
    forall c | c in cp.compacted ensures c in cp'.compacted {
      var i :| 0 <= i < |cp.compacted| && cp.compacted[i] == c;
      assert cp'.compacted[Before(q, i)] == c;
    }
    forall f ensures IsEffect(cp', f) <==> IsEffect(cp, f) {
      CompactedEffect(cp, p, q, f);
    }
  }

  /** What pruning keeps of the outbox, record by record. */
  lemma PrunedRecords(cp: Checkpoint, q: PruneRequest, cp': Checkpoint, at: seq<nat>)
    requires Pruned(cp, q, cp', at)
    ensures forall t :: t in cp.terminals && Referenced(cp'.receipts, t.intent.effectId) ==> t in cp'.terminals
    ensures forall c :: c in cp.compacted && Referenced(cp'.receipts, c.effectId) ==> c in cp'.compacted
  {
    hide Prunable, Burials, Retain, Bury, Referenced, RetainTerminals, RetainCompacted;
    var rs := cp'.receipts;
    var ta := RetainTerminalsAt(rs, cp.terminals);
    var ca := RetainCompactedAt(rs, cp.compacted);
    forall t | t in cp.terminals && Referenced(rs, t.intent.effectId) ensures t in cp'.terminals {
      var i: nat :| i < |cp.terminals| && cp.terminals[i] == t;
      assert Occurs(i, ta);
      var x :| 0 <= x < |ta| && ta[x] == i;
      assert cp'.terminals[x] == t;
    }
    forall c | c in cp.compacted && Referenced(rs, c.effectId) ensures c in cp'.compacted {
      var i: nat :| i < |cp.compacted| && cp.compacted[i] == c;
      assert Occurs(i, ca);
      var x :| 0 <= x < |ca| && ca[x] == i;
      assert cp'.compacted[x] == c;
    }
  }

  lemma PrunedOutbox(cp: Checkpoint, q: PruneRequest, cp': Checkpoint, at: seq<nat>)
    requires Inv(cp) && Pruned(cp, q, cp', at)
    ensures EffectsMove(cp, cp', true)
  {
    hide Coherent, Sourced, Pruned, StagesOk, Referenced, UniqueEffects, IsTerminal, IsCompacted;
    PrunedBasics(cp, q, cp', at);
    PrunedRecords(cp, q, cp', at);
    PrunedEffects(cp, q, cp', at);
    PrunedStages(cp, q, cp', at);
    forall f ensures IsEffect(cp', f) <==> Referenced(cp'.receipts, f) {
    }
    forall f | IsEffect(cp', f) ensures IsEffect(cp, f) {
      assert IsPending(cp', f) ==> IsPending(cp, f);
    }
  }

  /** A prune removes an effect only together with its one producer receipt. */
  lemma PruneRemovesProducer(cp: Checkpoint, q: PruneRequest, cp': Checkpoint, at: seq<nat>, i: nat, k: nat)
    requires Inv(cp) && Pruned(cp, q, cp', at)
    requires i < |cp.receipts| && k < |cp.receipts[i].Refs()| && cp.receipts[i].Refs()[k].OutboxRef?
    ensures IsEffect(cp', cp.receipts[i].Refs()[k].effectId) <==> !Removable(cp.receipts[i], q.cutoff)
  {
    hide Coherent, Sourced, Pruned, StagesOk, IsTerminal, IsCompacted, IsPending, AllocationsOk, QueuesOk, UniqueAcceptances, UniqueTerminals, ReceiptsOk, Removable;
    ValidTerminals(cp);
    ValidEffects(cp);
    PrunedEffects(cp, q, cp', at);
    var f := cp.receipts[i].Refs()[k].effectId;
    if !Removable(cp.receipts[i], q.cutoff) {
      var j := KeptReceipt(cp, q, cp', at, i);
      assert cp'.receipts[j].Refs()[k].effectId == f;
    }
    if Referenced(cp'.receipts, f) {
      var j, l :| 0 <= j < |cp'.receipts| && 0 <= l < |cp'.receipts[j].Refs()| && cp'.receipts[j].Refs()[l].OutboxRef? && cp'.receipts[j].Refs()[l].effectId == f;
      PrunedReceipt(cp, q, cp', at, j);
    }
    assert IsEffect(cp', f) <==> Referenced(cp'.receipts, f);
  }

  /** Two outboxes that differ in the revisions and delivery states of pending effects only. */
  predicate OutboxLike(a: Checkpoint, b: Checkpoint) {
    && a.root == b.root && a.terminals == b.terminals && a.compacted == b.compacted && |a.pending| == |b.pending|
    && forall i :: 0 <= i < |a.pending| ==> a.pending[i].intent == b.pending[i].intent
  }

  lemma LikeStages(a: Checkpoint, b: Checkpoint)
    requires OutboxLike(a, b)
    ensures forall f :: IsPending(a, f) <==> IsPending(b, f)
    ensures forall f :: IsEffect(a, f) <==> IsEffect(b, f)
    ensures forall x :: HoldsIntent(a, x) <==> HoldsIntent(b, x)
    ensures forall x :: EndedIntent(a, x) <==> EndedIntent(b, x)
  {
  }

  lemma EffectsLike(a: Checkpoint, b: Checkpoint, c: Checkpoint, d: Checkpoint, pruned: bool)
    requires EffectsMove(b, c, pruned) && OutboxLike(a, b) && OutboxLike(c, d)
    ensures EffectsMove(a, d, pruned)
  {
    hide IsEffect, IsPending, HoldsIntent, EndedIntent;
    LikeStages(a, b);
    LikeStages(c, d);
  }
}
