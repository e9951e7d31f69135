/** Updating, terminalizing and compacting effects preserve the invariant, so their final validation never fails. */
module OutboxProofs {
  import opened CheckpointModel
  import opened CheckpointValidity
  import opened Transitions
  import opened TransitionEvents
  import opened TransitionRefs
  import opened TransitionTheorem
  import opened CheckpointOps

  /** `cp'` is `cp` in the next revision with another outbox. */
  predicate OutboxOnly(cp: Checkpoint, cp': Checkpoint) {
    cp' == cp.(revision := cp.revision + 1, pending := cp'.pending, nextTerminal := cp'.nextTerminal,
               terminals := cp'.terminals, compacted := cp'.compacted)
  }

  ghost predicate IsEffect(cp: Checkpoint, f: Text) {
    IsPending(cp, f) || IsTerminal(cp, f) || IsCompacted(cp, f)
  }

  /** The outbox itself is in order and holds the same effects. */
  ghost predicate OutboxOk(cp: Checkpoint, cp': Checkpoint) {
    && StagesOk(cp')
    && (forall f :: IsEffect(cp', f) <==> IsEffect(cp, f))
    && (forall i :: 0 <= i < |cp'.pending| ==> HasSequence(cp, cp'.pending[i].intent.sequence))
    && (forall i :: 0 <= i < |cp'.terminals| ==> HasSequence(cp, cp'.terminals[i].intent.sequence))
  }

  /** Output number `n` belongs to a retained intent. */
  ghost predicate HasSequence(cp: Checkpoint, n: nat) {
    || (exists i :: 0 <= i < |cp.pending| && cp.pending[i].intent.sequence == n)
    || (exists i :: 0 <= i < |cp.terminals| && cp.terminals[i].intent.sequence == n)
  }

  lemma OutboxReceipts(cp: Checkpoint, cp': Checkpoint)
    requires Inv(cp) && OutboxOnly(cp, cp')
    ensures ReceiptsOk(cp') && UniqueAcceptances(cp'.receipts) && UniqueTerminals(cp'.receipts)
  {
    hide Coherent, Sourced, UniqueAcceptances, UniqueTerminals, AllocationsOk, QueuesOk;
    ValidTerminals(cp);
  }

  lemma OutboxNumbers(cp: Checkpoint, cp': Checkpoint)
    requires Inv(cp) && OutboxOnly(cp, cp')
    ensures AllocationsOk(cp') && QueuesOk(cp')
  {
    hide Coherent, Sourced, UniqueAcceptances, UniqueTerminals, ReceiptsOk, Live;
    ValidTerminals(cp);
    SameRecordLive(cp, cp');
  }

  lemma OutboxDigests(cp: Checkpoint, cp': Checkpoint)
    requires Inv(cp) && OutboxOnly(cp, cp')
    ensures DigestsOk(cp') && |cp'.receipts| >= 1 && cp'.receipts[0].Creation? && CreationOk(cp')
  {
    hide Coherent, Sourced, UniqueAcceptances, UniqueTerminals, AllocationsOk, QueuesOk;
    ValidTerminals(cp);
    ValidDigests(cp);
  }

  lemma SameRecordLive(cp: Checkpoint, cp': Checkpoint)
    requires cp'.record == cp.record
    ensures Live(cp') == Live(cp)
    ensures forall id :: IsLive(cp', id) <==> IsLive(cp, id)
  {
  }

  lemma OutboxEvents(cp: Checkpoint, cp': Checkpoint)
    requires Inv(cp) && OutboxOnly(cp, cp')
    ensures AcceptancesLead(cp') && TombstonesOk(cp') && OwnersOk(cp')
  {
    hide Coherent, Sourced, Live, IsLive, Ended, Accepted;
    ValidLead(cp);
    SameRecordLive(cp, cp');
    forall n, id ensures Owns(cp', n, id) <==> Owns(cp, n, id) {
    }
  }

  lemma OutboxReferences(cp: Checkpoint, cp': Checkpoint)
    requires Inv(cp) && OutboxOnly(cp, cp')
    ensures ReferencesOk(cp') && ProvenanceOk(cp') && TerminalsExplained(cp')
  {
    hide Coherent, SourcesOk, Live, UniqueProducers, HasAcceptance, HasProducer, AcceptedAs, ProducedAs, Names, EndsIn, Traceable;
    ValidReferences(cp);
    SameRecordLive(cp, cp');
    forall r ensures LiveReference(cp', r) <==> LiveReference(cp, r) {
    }
    forall i, r | 0 <= i < |cp.receipts| ensures EndedReference(cp', i, r) <==> EndedReference(cp, i, r) {
    }
  }

  lemma OutboxRecord(cp: Checkpoint, cp': Checkpoint)
    requires Inv(cp) && OutboxOnly(cp, cp')
    ensures cp'.record.Retained? ==> MailboxesOk(cp'.record.aggregate) && SourcesOk(cp'.record.aggregate)
  {
    hide MailboxesOk, SourcesOk, ReceiptsOk, UniqueAcceptances, UniqueTerminals, AllocationsOk, DigestsOk, CreationOk, Traceable, Strong;
    hide ProvenanceOk, AcceptancesLead, TombstonesOk, OwnersOk, QueuesOk, TerminalsExplained, ReferencesOk, StagesOk, EffectsOk;
  }

  lemma OutboxStrong(cp: Checkpoint, cp': Checkpoint)
    requires Inv(cp) && OutboxOnly(cp, cp') && OutboxOk(cp, cp')
    ensures Strong(cp')
  {
    hide Consistent, Traceable, Sourced, StagesOk, IsEffect, Admits, Concerns, DistinctRuntimes;
  }

  lemma OutboxEffects(cp: Checkpoint, cp': Checkpoint)
    requires Inv(cp) && OutboxOnly(cp, cp') && OutboxOk(cp, cp')
    ensures StagesOk(cp') && EffectsOk(cp')
  {
    hide Coherent, Sourced, StagesOk, UniqueEffects, Referenced, HasSequence, IsPending, IsTerminal, IsCompacted;
    ValidEffects(cp);
    forall f ensures Referenced(cp'.receipts, f) <==> IsPending(cp', f) || IsTerminal(cp', f) || IsCompacted(cp', f) {
      assert IsEffect(cp', f) <==> IsEffect(cp, f);
    }
  }

  lemma OutboxInv(cp: Checkpoint, cp': Checkpoint)
    requires Inv(cp) && OutboxOnly(cp, cp') && OutboxOk(cp, cp')
    ensures Inv(cp')
  {
    hide OutboxOnly, OutboxOk, Traceable, Strong, ReceiptsOk, UniqueAcceptances, UniqueTerminals, AllocationsOk, DigestsOk, CreationOk, MailboxesOk, SourcesOk;
    hide ProvenanceOk, AcceptancesLead, TombstonesOk, OwnersOk, QueuesOk, TerminalsExplained, ReferencesOk, StagesOk, EffectsOk;
    OutboxReceipts(cp, cp');
    OutboxNumbers(cp, cp');
    OutboxDigests(cp, cp');
    OutboxEvents(cp, cp');
    OutboxReferences(cp, cp');
    OutboxRecord(cp, cp');
    OutboxStrong(cp, cp');
    OutboxEffects(cp, cp');
    SourcedIsTraceable(cp');
  }

  // ------------------------------------------------------------------------------------------
  // The operations
  // ------------------------------------------------------------------------------------------

  lemma UpdateOk(cp: Checkpoint, effect: Text, state: DeliveryState)
    requires StagesOk(cp) && FindPending(cp.pending, effect) < |cp.pending|
    ensures var i := FindPending(cp.pending, effect);
            var cp' := cp.(revision := cp.revision + 1, pending := cp.pending[i := PendingEffect(cp.pending[i].intent, cp.revision + 1, state)]);
            OutboxOk(cp, cp')
  {
    hide FindPending;
    var i := FindPending(cp.pending, effect);
    var cp' := cp.(revision := cp.revision + 1, pending := cp.pending[i := PendingEffect(cp.pending[i].intent, cp.revision + 1, state)]);
    SameIntentsOk(cp, cp');
  }

  /** New revisions and delivery states of pending effects disturb nothing. */
  lemma SameIntentsOk(cp: Checkpoint, cp': Checkpoint)
    requires StagesOk(cp) && cp'.revision >= cp.revision && |cp'.pending| == |cp.pending|
    requires cp'.terminals == cp.terminals && cp'.compacted == cp.compacted && cp'.nextTerminal == cp.nextTerminal
    requires forall j :: 0 <= j < |cp.pending| ==> cp'.pending[j].intent == cp.pending[j].intent && cp'.pending[j].revision <= cp'.revision
    ensures OutboxOk(cp, cp')
  {
    hide IsEffect, HasSequence;
    forall f ensures IsEffect(cp', f) <==> IsEffect(cp, f) {
      SameIntentsEffect(cp, cp', f);
    }
    forall j | 0 <= j < |cp.pending| ensures HasSequence(cp, cp.pending[j].intent.sequence) {
      SequenceOfPending(cp, j);
    }
    forall j | 0 <= j < |cp.terminals| ensures HasSequence(cp, cp.terminals[j].intent.sequence) {
      SequenceOfTerminal(cp, j);
    }
  }

  lemma SameIntentsEffect(cp: Checkpoint, cp': Checkpoint, f: Text)
    requires |cp'.pending| == |cp.pending| && cp'.terminals == cp.terminals && cp'.compacted == cp.compacted
    requires forall j :: 0 <= j < |cp.pending| ==> cp'.pending[j].intent == cp.pending[j].intent
    ensures IsEffect(cp', f) <==> IsEffect(cp, f)
  {
    if j :| 0 <= j < |cp.pending| && cp.pending[j].intent.effectId == f {
      assert cp'.pending[j].intent.effectId == f;
    }
  }

  lemma SequenceOfPending(cp: Checkpoint, j: nat)
    requires j < |cp.pending|
    ensures HasSequence(cp, cp.pending[j].intent.sequence)
  {
  }

  lemma SequenceOfTerminal(cp: Checkpoint, j: nat)
    requires j < |cp.terminals|
    ensures HasSequence(cp, cp.terminals[j].intent.sequence)
  {
  }

  /** Updating a pending effect passes validation whenever it passes its guards. */
  lemma UpdateInv(cp: Checkpoint, effect: Text, state: DeliveryState, g: Guard)
    requires Inv(cp)
    ensures UpdatePending(cp, effect, state, g).Ok? ==> Inv(After(cp, UpdatePending(cp, effect, state, g)))
  {
    hide Coherent, Sourced, OutboxOk, FindPending, StagesOk, EffectsOk;
    ValidEffects(cp);
    if FindPending(cp.pending, effect) < |cp.pending| {
      UpdateOk(cp, effect, state);
      var i := FindPending(cp.pending, effect);
      OutboxInv(cp, cp.(revision := cp.revision + 1, pending := cp.pending[i := PendingEffect(cp.pending[i].intent, cp.revision + 1, state)]));
    }
  }

  /** Pending record `p` moved to the end of the terminal records. */
  function MoveToTerminal(cp: Checkpoint, p: nat, outcome: EffectOutcome): Checkpoint
    requires p < |cp.pending|
  {
    cp.(revision := cp.revision + 1,
        pending := cp.pending[..p] + cp.pending[p + 1..],
        nextTerminal := cp.nextTerminal + 1,
        terminals := cp.terminals + [TerminalEffect(cp.nextTerminal, cp.pending[p].intent, cp.revision + 1, outcome)])
  }

  /** The position before the removal of position `p`. */
  function Before(p: nat, i: nat): nat {
    if i < p then i else i + 1
  }

  /** The outbox after the move, position by position. */
  lemma MovedAt(cp: Checkpoint, p: nat, outcome: EffectOutcome)
    requires p < |cp.pending|
    ensures var cp' := MoveToTerminal(cp, p, outcome);
            && |cp'.pending| == |cp.pending| - 1 && |cp'.terminals| == |cp.terminals| + 1
            && (forall i: nat :: i < |cp'.pending| ==> cp'.pending[i] == cp.pending[Before(p, i)])
            && (forall j :: 0 <= j < |cp.terminals| ==> cp'.terminals[j] == cp.terminals[j])
            && cp'.terminals[|cp.terminals|] == TerminalEffect(cp.nextTerminal, cp.pending[p].intent, cp.revision + 1, outcome)
            && cp'.compacted == cp.compacted && cp'.nextTerminal == cp.nextTerminal + 1 && cp'.revision == cp.revision + 1
  {
  }

  lemma MovedPending(cp: Checkpoint, p: nat, outcome: EffectOutcome, i: nat)
    requires StagesOk(cp) && p < |cp.pending| && i < |cp.pending| - 1
    ensures var cp' := MoveToTerminal(cp, p, outcome);
            && i < |cp'.pending| && cp'.pending[i].revision <= cp'.revision
            && (forall j :: i < j < |cp'.pending| ==>
                  cp'.pending[i].intent.effectId != cp'.pending[j].intent.effectId && cp'.pending[i].intent.sequence < cp'.pending[j].intent.sequence)
            && (forall j :: 0 <= j < |cp'.terminals| ==>
                  cp'.pending[i].intent.effectId != cp'.terminals[j].intent.effectId && cp'.pending[i].intent.sequence != cp'.terminals[j].intent.sequence)
            && (forall j :: 0 <= j < |cp'.compacted| ==> cp'.pending[i].intent.effectId != cp'.compacted[j].effectId)
  {
    hide MoveToTerminal;
    MovedAt(cp, p, outcome);
    var cp' := MoveToTerminal(cp, p, outcome);
    assert cp'.pending[i] == cp.pending[Before(p, i)];
  }

  lemma MovedTerminals(cp: Checkpoint, p: nat, outcome: EffectOutcome)
    requires StagesOk(cp) && p < |cp.pending|
    ensures var cp' := MoveToTerminal(cp, p, outcome);
            && (forall i, j :: 0 <= i < j < |cp'.terminals| ==>
                  && cp'.terminals[i].intent.effectId != cp'.terminals[j].intent.effectId
                  && cp'.terminals[i].intent.sequence != cp'.terminals[j].intent.sequence
                  && cp'.terminals[i].terminal < cp'.terminals[j].terminal)
            && (forall i, j :: 0 <= i < |cp'.terminals| && 0 <= j < |cp'.compacted| ==>
                  cp'.terminals[i].intent.effectId != cp'.compacted[j].effectId
                  && cp'.terminals[i].terminal != cp'.compacted[j].terminal)
            && (forall i :: 0 <= i < |cp'.terminals| ==>
                  cp'.terminals[i].revision <= cp'.revision && cp'.terminals[i].terminal < cp'.nextTerminal)
  {
    hide MoveToTerminal;
    MovedAt(cp, p, outcome);
  }

  lemma MovedStages(cp: Checkpoint, p: nat, outcome: EffectOutcome)
    requires StagesOk(cp) && p < |cp.pending|
    ensures StagesOk(MoveToTerminal(cp, p, outcome))
  {
    hide MoveToTerminal;
    var cp' := MoveToTerminal(cp, p, outcome);
    MovedAt(cp, p, outcome);
    MovedTerminals(cp, p, outcome);
    forall i: nat | i < |cp'.pending|
      ensures cp'.pending[i].revision <= cp'.revision
      ensures forall j :: i < j < |cp'.pending| ==>
                cp'.pending[i].intent.effectId != cp'.pending[j].intent.effectId && cp'.pending[i].intent.sequence < cp'.pending[j].intent.sequence
      ensures forall j :: 0 <= j < |cp'.terminals| ==>
                cp'.pending[i].intent.effectId != cp'.terminals[j].intent.effectId && cp'.pending[i].intent.sequence != cp'.terminals[j].intent.sequence
      ensures forall j :: 0 <= j < |cp'.compacted| ==> cp'.pending[i].intent.effectId != cp'.compacted[j].effectId
    {
      MovedPending(cp, p, outcome, i);
    }
  }

  lemma MovedEffects(cp: Checkpoint, p: nat, outcome: EffectOutcome)
    requires p < |cp.pending|
    ensures var cp' := MoveToTerminal(cp, p, outcome);
            && (forall f :: IsEffect(cp', f) <==> IsEffect(cp, f))
            && (forall i :: 0 <= i < |cp'.pending| ==> HasSequence(cp, cp'.pending[i].intent.sequence))
            && (forall i :: 0 <= i < |cp'.terminals| ==> HasSequence(cp, cp'.terminals[i].intent.sequence))
  {
    var cp' := MoveToTerminal(cp, p, outcome);
    forall i: nat | i < |cp'.pending| ensures cp'.pending[i] == cp.pending[Before(p, i)] {
    }
    forall f ensures IsEffect(cp', f) <==> IsEffect(cp, f) {
      MovedEffect(cp, p, outcome, f);
    }
    forall i | 0 <= i < |cp'.terminals| ensures HasSequence(cp, cp'.terminals[i].intent.sequence) {
      if i < |cp.terminals| {
        assert cp'.terminals[i] == cp.terminals[i];
      }
    }
  }

  lemma MovedEffect(cp: Checkpoint, p: nat, outcome: EffectOutcome, f: Text)
    requires p < |cp.pending|
    ensures IsEffect(MoveToTerminal(cp, p, outcome), f) <==> IsEffect(cp, f)
  {
    var cp' := MoveToTerminal(cp, p, outcome);
    assert cp'.terminals[|cp.terminals|].intent == cp.pending[p].intent;
    if IsPending(cp, f) {
      var i :| 0 <= i < |cp.pending| && cp.pending[i].intent.effectId == f;
      if i < p {
        assert cp'.pending[i] == cp.pending[i];
      } else if i > p {
        assert cp'.pending[i - 1] == cp.pending[i];
      }
    }
    if IsPending(cp', f) {
      var i: nat :| i < |cp'.pending| && cp'.pending[i].intent.effectId == f;
      assert cp'.pending[i] == cp.pending[Before(p, i)];
    }
    if IsTerminal(cp, f) {
      var i :| 0 <= i < |cp.terminals| && cp.terminals[i].intent.effectId == f;
      assert cp'.terminals[i] == cp.terminals[i];
    }
  }

  /** Terminalizing an effect passes validation whenever it passes its guards. */
  lemma TerminalizeInv(cp: Checkpoint, effect: Text, outcome: EffectOutcome, g: Guard)
    requires Inv(cp)
    ensures Terminalize(cp, effect, outcome, g).Ok? ==> Inv(After(cp, Terminalize(cp, effect, outcome, g)))
  {
    hide Coherent, Sourced, FindPending, FindEffect, FindCompacted, StagesOk, EffectsOk, IsEffect, HasSequence;
    ValidEffects(cp);
    var p := FindPending(cp.pending, effect);
    if p < |cp.pending| {
      MovedStages(cp, p, outcome);
      MovedEffects(cp, p, outcome);
      OutboxInv(cp, MoveToTerminal(cp, p, outcome));
    }
  }

  /** Where a tombstone is inserted. */
  lemma {:induction false} InsertAt(ts: seq<EffectTombstone>, t: EffectTombstone) returns (p: nat)
    ensures p <= |ts| && InsertCompacted(ts, t) == ts[..p] + [t] + ts[p..]
    ensures p > 0 ==> ts[p - 1].terminal <= t.terminal
    ensures forall i :: p <= i < |ts| ==> ts[i].terminal > t.terminal
  {
    if ts == [] || ts[|ts| - 1].terminal <= t.terminal {
      p := |ts|;
    } else {
      var init, last := ts[..|ts| - 1], ts[|ts| - 1];
      p := InsertAt(init, t);
      assert ts == init + [last];
      assert init[..p] == ts[..p];
      assert init[p..] + [last] == ts[p..];
      calc {
        InsertCompacted(ts, t);
        (init[..p] + [t] + init[p..]) + [last];
        init[..p] + [t] + (init[p..] + [last]);
        ts[..p] + [t] + ts[p..];
      }
    }
  }

  /** Terminal record `p` replaced by its tombstone at position `q`. */
  function MoveToTombstones(cp: Checkpoint, p: nat, q: nat): Checkpoint
    requires p < |cp.terminals| && q <= |cp.compacted|
  {
    cp.(revision := cp.revision + 1,
        terminals := cp.terminals[..p] + cp.terminals[p + 1..],
        compacted := cp.compacted[..q] + [TombstoneOf(cp.root, cp.terminals[p])] + cp.compacted[q..])
  }

  /** The tombstone stands where the order of terminal numbers puts it. */
  predicate InPlace(cp: Checkpoint, p: nat, q: nat)
    requires p < |cp.terminals| && q <= |cp.compacted|
  {
    && (q > 0 ==> cp.compacted[q - 1].terminal <= cp.terminals[p].terminal)
    && (forall i :: q <= i < |cp.compacted| ==> cp.compacted[i].terminal > cp.terminals[p].terminal)
  }

  lemma CompactedAt(cp: Checkpoint, p: nat, q: nat)
    requires p < |cp.terminals| && q <= |cp.compacted|
    ensures var cp' := MoveToTombstones(cp, p, q);
            && |cp'.compacted| == |cp.compacted| + 1 && |cp'.terminals| == |cp.terminals| - 1
            && (forall i: nat :: i < |cp'.terminals| ==> cp'.terminals[i] == cp.terminals[Before(p, i)])
            && cp'.compacted[q] == TombstoneOf(cp.root, cp.terminals[p])
            && (forall i: nat :: i < |cp.compacted| ==> cp'.compacted[Before(q, i)] == cp.compacted[i])
  {
  }

  /** A tombstone after compaction is the new one or an old one. */
  lemma CompactedFrom(cp: Checkpoint, p: nat, q: nat, i: nat)
    requires p < |cp.terminals| && q <= |cp.compacted| && i <= |cp.compacted|
    ensures var cp' := MoveToTombstones(cp, p, q);
            && |cp'.compacted| == |cp.compacted| + 1
            && (i < q ==> cp'.compacted[i] == cp.compacted[i])
            && (i == q ==> cp'.compacted[i] == TombstoneOf(cp.root, cp.terminals[p]))
            && (i > q ==> cp'.compacted[i] == cp.compacted[i - 1])
  {
  }

  lemma CompactedStages(cp: Checkpoint, p: nat, q: nat)
    requires StagesOk(cp) && p < |cp.terminals| && q <= |cp.compacted| && InPlace(cp, p, q)
    ensures StagesOk(MoveToTombstones(cp, p, q))
  {
    hide MoveToTombstones;
    var cp', t := MoveToTombstones(cp, p, q), TombstoneOf(cp.root, cp.terminals[p]);
    CompactedAt(cp, p, q);
    CompactedShape(cp, p, q);
    TombstonePlace(cp, p, q);
    CompactedOrder(cp, p, q);
    CompactedApart(cp, p, q);
    CompactedBounds(cp, p, q);
  }

  lemma CompactedBounds(cp: Checkpoint, p: nat, q: nat)
    requires StagesOk(cp) && p < |cp.terminals| && q <= |cp.compacted|
    ensures var cp' := MoveToTombstones(cp, p, q);
            && (forall i :: 0 <= i < |cp'.compacted| ==> cp'.compacted[i].terminal < cp.nextTerminal)
            && (forall i :: 0 <= i < |cp'.terminals| ==> cp'.terminals[i].revision <= cp.revision && cp'.terminals[i].terminal < cp.nextTerminal)
            && (forall i, j :: 0 <= i < j < |cp'.terminals| ==>
                  && cp'.terminals[i].intent.effectId != cp'.terminals[j].intent.effectId
                  && cp'.terminals[i].intent.sequence != cp'.terminals[j].intent.sequence
                  && cp'.terminals[i].terminal < cp'.terminals[j].terminal)
            && (forall i, j :: 0 <= i < |cp.pending| && 0 <= j < |cp'.terminals| ==>
                  cp.pending[i].intent.effectId != cp'.terminals[j].intent.effectId
                  && cp.pending[i].intent.sequence != cp'.terminals[j].intent.sequence)
  {
    hide MoveToTombstones;
    var cp' := MoveToTombstones(cp, p, q);
    CompactedAt(cp, p, q);
    forall i | 0 <= i < |cp'.compacted| ensures cp'.compacted[i].terminal < cp.nextTerminal {
      CompactedFrom(cp, p, q, i);
    }
    forall i: nat | i < |cp'.terminals| ensures cp'.terminals[i] == cp.terminals[Before(p, i)] {
    }
  }

  lemma CompactedShape(cp: Checkpoint, p: nat, q: nat)
    requires p < |cp.terminals| && q <= |cp.compacted|
    ensures OutboxOnly(cp, MoveToTombstones(cp, p, q))
    ensures MoveToTombstones(cp, p, q).pending == cp.pending && MoveToTombstones(cp, p, q).nextTerminal == cp.nextTerminal
  {
  }

  /** The terminal number of the tombstone lies strictly between its neighbours. */
  lemma TombstonePlace(cp: Checkpoint, p: nat, q: nat)
    requires StagesOk(cp) && p < |cp.terminals| && q <= |cp.compacted| && InPlace(cp, p, q)
    ensures forall i :: 0 <= i < q ==> cp.compacted[i].terminal < cp.terminals[p].terminal
    ensures forall i :: q <= i < |cp.compacted| ==> cp.compacted[i].terminal > cp.terminals[p].terminal
  {
  }

  lemma CompactedOrder(cp: Checkpoint, p: nat, q: nat)
    requires StagesOk(cp) && p < |cp.terminals| && q <= |cp.compacted| && InPlace(cp, p, q)
    ensures var cp' := MoveToTombstones(cp, p, q);
            forall i, j :: 0 <= i < j < |cp'.compacted| ==>
              cp'.compacted[i].effectId != cp'.compacted[j].effectId && cp'.compacted[i].terminal < cp'.compacted[j].terminal
  {
    hide MoveToTombstones;
    var cp' := MoveToTombstones(cp, p, q);
    CompactedFrom(cp, p, q, 0);
    TombstonePlace(cp, p, q);
    forall i, j | 0 <= i < j < |cp'.compacted|
      ensures cp'.compacted[i].effectId != cp'.compacted[j].effectId && cp'.compacted[i].terminal < cp'.compacted[j].terminal
    {
      CompactedFrom(cp, p, q, i);
      CompactedFrom(cp, p, q, j);
    }
  }

  lemma CompactedApart(cp: Checkpoint, p: nat, q: nat)
    requires StagesOk(cp) && p < |cp.terminals| && q <= |cp.compacted|
    ensures var cp' := MoveToTombstones(cp, p, q);
            && (forall i, j :: 0 <= i < |cp'.terminals| && 0 <= j < |cp'.compacted| ==>
                  cp'.terminals[i].intent.effectId != cp'.compacted[j].effectId && cp'.terminals[i].terminal != cp'.compacted[j].terminal)
            && (forall i, j :: 0 <= i < |cp'.pending| && 0 <= j < |cp'.compacted| ==>
                  cp'.pending[i].intent.effectId != cp'.compacted[j].effectId)
  {
    hide MoveToTombstones;
    var cp' := MoveToTombstones(cp, p, q);
    CompactedAt(cp, p, q);
    CompactedShape(cp, p, q);
    forall j | 0 <= j < |cp'.compacted|
      ensures forall i: nat :: i < |cp'.terminals| ==>
                cp'.terminals[i].intent.effectId != cp'.compacted[j].effectId && cp'.terminals[i].terminal != cp'.compacted[j].terminal
      ensures forall i :: 0 <= i < |cp'.pending| ==> cp'.pending[i].intent.effectId != cp'.compacted[j].effectId
    {
      CompactedFrom(cp, p, q, j);
    }
  }

  lemma CompactedEffect(cp: Checkpoint, p: nat, q: nat, f: Text)
    requires p < |cp.terminals| && q <= |cp.compacted|
    ensures IsEffect(MoveToTombstones(cp, p, q), f) <==> IsEffect(cp, f)
  {
    hide MoveToTombstones;
    var cp' := MoveToTombstones(cp, p, q);
    CompactedAt(cp, p, q);
    CompactedShape(cp, p, q);
    if IsTerminal(cp, f) {
      var i :| 0 <= i < |cp.terminals| && cp.terminals[i].intent.effectId == f;
      if i < p {
        assert cp'.terminals[i] == cp.terminals[Before(p, i)];
      } else if i > p {
        assert cp'.terminals[i - 1] == cp.terminals[Before(p, i - 1)];
      }
    }
    if IsTerminal(cp', f) {
      var i: nat :| i < |cp'.terminals| && cp'.terminals[i].intent.effectId == f;
      assert cp'.terminals[i] == cp.terminals[Before(p, i)];
    }
    if IsCompacted(cp, f) {
      var i: nat :| i < |cp.compacted| && cp.compacted[i].effectId == f;
      assert cp'.compacted[Before(q, i)] == cp.compacted[i];
    }
    if IsCompacted(cp', f) {
      var i: nat :| i < |cp'.compacted| && cp'.compacted[i].effectId == f;
      CompactedFrom(cp, p, q, i);
    }
  }

  lemma CompactedOk(cp: Checkpoint, p: nat, q: nat)
    requires StagesOk(cp) && p < |cp.terminals| && q <= |cp.compacted| && InPlace(cp, p, q)
    ensures OutboxOk(cp, MoveToTombstones(cp, p, q))
  {
    hide MoveToTombstones, StagesOk, IsEffect;
    var cp' := MoveToTombstones(cp, p, q);
    CompactedStages(cp, p, q);
    CompactedShape(cp, p, q);
    CompactedAt(cp, p, q);
    forall f ensures IsEffect(cp', f) <==> IsEffect(cp, f) {
      CompactedEffect(cp, p, q, f);
    }
  }

  /** Compacting an effect passes validation whenever it passes its guards. */
  lemma CompactInv(cp: Checkpoint, effect: Text, g: Guard)
    requires Inv(cp)
    ensures Compact(cp, effect, g).Ok? ==> Inv(After(cp, Compact(cp, effect, g)))
  {
    hide Coherent, Sourced, FindEffect, FindCompacted, StagesOk, EffectsOk, OutboxOk, InsertCompacted;
    ValidEffects(cp);
    var t := FindEffect(cp.terminals, effect);
    if t < |cp.terminals| {
      var q := InsertAt(cp.compacted, TombstoneOf(cp.root, cp.terminals[t]));
      CompactedOk(cp, t, q);
      CompactedShape(cp, t, q);
      OutboxInv(cp, MoveToTombstones(cp, t, q));
    }
  }
}
