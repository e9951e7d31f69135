/** Every transition preserves the invariant. */
module TransitionTheorem {
  import opened CheckpointModel
  import opened CheckpointValidity
  import opened StepContract
  import opened Transitions
  import opened TransitionEvents
  import opened TransitionRefs

  // ------------------------------------------------------------------------------------------
  // Explanations of terminals
  // ------------------------------------------------------------------------------------------

  lemma SameAcceptances(cp: Checkpoint, cp': Checkpoint, out: seq<Entry>, refs: seq<Reference>, i: int)
    requires Transition(cp, cp', out, refs) && 0 <= i < |cp'.receipts|
    ensures cp'.receipts[i].Acceptance? ==> i < |cp.receipts| && cp.receipts[i] == cp'.receipts[i]
    ensures i < |cp.receipts| && cp.receipts[i].Acceptance? ==> cp.receipts[i] == cp'.receipts[i]
  {
    hide Transition;
    Split(cp, cp', out, refs, i);
  }

  lemma OldHasAcceptance(cp: Checkpoint, cp': Checkpoint, out: seq<Entry>, refs: seq<Reference>, i: int)
    requires Transition(cp, cp', out, refs) && 0 <= i < |cp.receipts| && cp.receipts[i].Terminal?
    ensures i < |cp'.receipts| && HasAcceptance(cp'.receipts, cp'.receipts[i]) <==> HasAcceptance(cp.receipts, cp.receipts[i])
  {
    hide Transition, Everything, Distinct;
    TransitionBasics(cp, cp', out, refs);
    Split(cp, cp', out, refs, i);
    if HasAcceptance(cp'.receipts, cp'.receipts[i]) {
      var j :| 0 <= j < |cp'.receipts| && Admits(cp'.receipts[j], cp'.receipts[i]);
      SameAcceptances(cp, cp', out, refs, j);
      assert Admits(cp.receipts[j], cp.receipts[i]);
    }
    if HasAcceptance(cp.receipts, cp.receipts[i]) {
      var j :| 0 <= j < |cp.receipts| && Admits(cp.receipts[j], cp.receipts[i]);
      SameAcceptances(cp, cp', out, refs, j);
      assert Admits(cp'.receipts[j], cp'.receipts[i]);
    }
  }

  lemma OldHasProducer(cp: Checkpoint, cp': Checkpoint, out: seq<Entry>, refs: seq<Reference>, i: int)
    requires Coherent(cp) && Transition(cp, cp', out, refs) && 0 <= i < |cp.receipts| && cp.receipts[i].Terminal?
    ensures i < |cp'.receipts| && HasProducer(cp'.receipts, cp'.receipts[i]) <==> HasProducer(cp.receipts, cp.receipts[i])
  {
    hide Transition, Everything, Distinct, Coherent, AllocationsOk, QueuesOk, UniqueTerminals, UniqueAcceptances;
    TransitionBasics(cp, cp', out, refs);
    ValidTerminals(cp);
    Split(cp, cp', out, refs, i);
    if HasProducer(cp'.receipts, cp'.receipts[i]) {
      var j, k :| 0 <= j < |cp'.receipts| && 0 <= k < |cp'.receipts[j].Refs()| && EndsIn(cp'.receipts[j].Refs()[k], cp'.receipts[i]);
      ProducerIsOld(cp, cp', out, refs, j, k);
      assert EndsIn(cp.receipts[j].Refs()[k], cp.receipts[i]);
    }
    if HasProducer(cp.receipts, cp.receipts[i]) {
      var j, k :| 0 <= j < |cp.receipts| && 0 <= k < |cp.receipts[j].Refs()| && EndsIn(cp.receipts[j].Refs()[k], cp.receipts[i]);
      RefFate(cp, cp', out, refs, j, k);
      assert EndsIn(cp'.receipts[j].Refs()[k], cp'.receipts[i]);
    }
  }

  /** A terminal reference with an old terminal sequence was there before. */
  lemma ProducerIsOld(cp: Checkpoint, cp': Checkpoint, out: seq<Entry>, refs: seq<Reference>, j: int, k: int)
    requires Coherent(cp) && Transition(cp, cp', out, refs)
    requires 0 <= j < |cp'.receipts| && 0 <= k < |cp'.receipts[j].Refs()| && cp'.receipts[j].Refs()[k].TerminalRef?
    requires cp'.receipts[j].Refs()[k].terminal < cp.nextReceipt
    ensures j < |cp.receipts| && k < |cp.receipts[j].Refs()| && cp.receipts[j].Refs()[k] == cp'.receipts[j].Refs()[k]
  {
    hide Transition, Coherent, Live, Requeued, IsLive, Ended, Buried;
    Split(cp, cp', out, refs, j);
    if j < |cp.receipts| {
      RefFate(cp, cp', out, refs, j, k);
      NotRequeued(cp, cp', out, cp.receipts[j].Refs()[k], cp'.receipts[j].Refs()[k]);
    } else {
      NewAnnouncement(cp, cp', out, refs, k);
      assert false;
    }
  }

  lemma NotRequeued(cp: Checkpoint, cp': Checkpoint, out: seq<Entry>, r: Reference, r': Reference)
    requires cp.record.Retained? && Fate(cp, cp', out, r, r') && r'.TerminalRef?
    ensures r == r' || (r.MailboxRef? && exists e :: e in Live(cp) && e.mode.Internal? && Names(r, e) && EndedAt(cp, out, e, r, r'))
    ensures r == r' || r'.terminal >= cp.nextReceipt
  {
    hide Live;
    if r.MailboxRef? {
      var e :| e in Live(cp) && e.mode.Internal? && Names(r, e) && (Requeued(cp, cp', e, r, r') || EndedAt(cp, out, e, r, r'));
      assert EndedAt(cp, out, e, r, r');
    }
  }

  /** The new terminal of `out[j]`: what it is explained by. */
  lemma AcceptedTerminal(cp: Checkpoint, cp': Checkpoint, out: seq<Entry>, refs: seq<Reference>, j: nat)
    requires Coherent(cp) && Transition(cp, cp', out, refs) && j < |out| && Attests(cp.receipts, out[j])
    ensures |cp.receipts| + j < |cp'.receipts| && HasAcceptance(cp'.receipts, cp'.receipts[|cp.receipts| + j])
  {
    hide Transition, Coherent, Everything, Distinct, AllocationsOk, QueuesOk, UniqueTerminals, UniqueAcceptances;
    TransitionBasics(cp, cp', out, refs);
    ValidTerminals(cp);
    Split(cp, cp', out, refs, |cp.receipts| + j);
    var i :| 0 <= i < |cp.receipts| && cp.receipts[i].Acceptance? && cp.receipts[i].eventId == out[j].Id()
          && cp.receipts[i].request' == out[j].digest && cp.receipts[i].acceptance == out[j].acceptance;
    SameAcceptances(cp, cp', out, refs, i);
    assert Admits(cp'.receipts[i], cp'.receipts[|cp.receipts| + j]);
  }

  lemma ProducedTerminal(cp: Checkpoint, cp': Checkpoint, out: seq<Entry>, refs: seq<Reference>, j: nat)
    requires Coherent(cp) && Transition(cp, cp', out, refs) && j < |out| && ProducedAs(cp.receipts, out[j])
    ensures |cp.receipts| + j < |cp'.receipts| && HasProducer(cp'.receipts, cp'.receipts[|cp.receipts| + j])
  {
    hide Transition, Coherent, Everything, Distinct, Fate, Live;
    TransitionBasics(cp, cp', out, refs);
    Split(cp, cp', out, refs, |cp.receipts| + j);
    var i, k :| 0 <= i < |cp.receipts| && 0 <= k < |cp.receipts[i].Refs()| && Names(cp.receipts[i].Refs()[k], out[j]);
    RefFate(cp, cp', out, refs, i, k);
    EndsWithEntry(cp, cp', out, refs, j, cp.receipts[i].Refs()[k], cp'.receipts[i].Refs()[k]);
    assert EndsIn(cp'.receipts[i].Refs()[k], cp'.receipts[|cp.receipts| + j]);
  }

  /** A mailbox reference to an event that ends becomes a reference to its terminal. */
  lemma EndsWithEntry(cp: Checkpoint, cp': Checkpoint, out: seq<Entry>, refs: seq<Reference>, j: nat, r: Reference, r': Reference)
    requires cp.record.Retained? && Transition(cp, cp', out, refs) && Fate(cp, cp', out, r, r')
    requires j < |out| && r.MailboxRef? && r.eventId == out[j].Id()
    ensures r'.TerminalRef? && r'.eventId == out[j].Id() && r'.acceptance == out[j].acceptance && r'.terminal == cp.nextReceipt + j
  {
    hide Transition, Live, Everything, Distinct;
    var e :| e in Live(cp) && Names(r, e) && (Requeued(cp, cp', e, r, r') || EndedAt(cp, out, e, r, r'));
    assert Names(r, e);
    if Requeued(cp, cp', e, r, r') {
      var t :| t in Live(cp') && Moved(e, t, cp.record.aggregate.nextQueue) && Names(r', t);
      assert t.Id() == e.Id();
      OneName(cp, cp', out, refs, t, out[j]);
      OutIsGone(cp, cp', out, refs, out[j]);
      assert false;
    }
    assert EndedAt(cp, out, e, r, r');
    var l :| 0 <= l < |out| && out[l] == e && r'.TerminalRef? && r'.eventId == e.Id()
             && r'.acceptance == e.acceptance && r'.terminal == cp.nextReceipt + l;
    TransitionBasics(cp, cp', out, refs);
    if l < j {
      OutDistinct(cp', out, l, j);
    } else if j < l {
      OutDistinct(cp', out, j, l);
    }
  }

  /** An event with an acceptance receipt is known. */
  lemma AcceptedIsKnown(cp: Checkpoint, i: int)
    requires Coherent(cp) && 0 <= i < |cp.receipts| && cp.receipts[i].Acceptance?
    ensures IsLive(cp, cp.receipts[i].eventId) || Ended(cp.receipts, cp.receipts[i].eventId)
  {
    hide Coherent, TombstonesOk, OwnersOk, IsLive, Ended;
    ValidLead(cp);
  }

  /** Where an ended entry came from. */
  lemma OutOrigin(cp: Checkpoint, cp': Checkpoint, out: seq<Entry>, refs: seq<Reference>, j: nat)
    requires Coherent(cp) && Transition(cp, cp', out, refs) && j < |out|
    ensures || (out[j] in Live(cp) && Attests(cp.receipts, out[j]))
            || (out[j] in Live(cp) && ProducedAs(cp.receipts, out[j]))
            || (out[j] !in Live(cp) && out[j].mode.Internal? && !IsLive(cp, out[j].Id()) && !Ended(cp.receipts, out[j].Id())
                && exists k :: 0 <= k < |refs| && refs[k].TerminalRef? && refs[k].eventId == out[j].Id()
                            && refs[k].acceptance == out[j].acceptance && refs[k].terminal == cp.nextReceipt + j)
  {
    hide Coherent, Live, Transition, TerminalsExplained, ReferencesOk, Attests, ProducedAs, Everything, IsLive, Ended, Buried;
    ValidReferences(cp);
    if out[j] in Live(cp) {
      assert Originates(cp.receipts, out[j]);
    } else {
      OutAnnounced(cp, cp', out, refs, j);
      var k :| 0 <= k < |refs| && refs[k].TerminalRef? && refs[k].eventId == out[j].Id()
            && refs[k].acceptance == out[j].acceptance && refs[k].terminal == cp.nextReceipt + j;
      NewAnnouncement(cp, cp', out, refs, k);
    }
  }

  lemma OutAnnounced(cp: Checkpoint, cp': Checkpoint, out: seq<Entry>, refs: seq<Reference>, j: nat)
    requires Transition(cp, cp', out, refs) && j < |out| && out[j] !in Live(cp)
    ensures New(cp.record.aggregate, out[j])
    ensures exists k :: 0 <= k < |refs| && refs[k].TerminalRef? && refs[k].eventId == out[j].Id()
                     && refs[k].acceptance == out[j].acceptance && refs[k].terminal == cp.nextReceipt + j
  {
    hide RecordAdvances, ReceiptsAdvance, RefsAdvance, EffectsAdvance, AnnouncementsOk, Live, Distinct, Everything, Moved, New;
  }

  /** An acceptance receipt for an ended entry is the one it was accepted as. */
  lemma AcceptanceOfOut(cp: Checkpoint, cp': Checkpoint, out: seq<Entry>, refs: seq<Reference>, j: nat, i: int)
    requires Coherent(cp) && Transition(cp, cp', out, refs) && j < |out|
    requires 0 <= i < |cp.receipts| && cp.receipts[i].Acceptance? && cp.receipts[i].eventId == out[j].Id()
    ensures Attests(cp.receipts, out[j]) && cp.receipts[i].request' == out[j].digest && cp.receipts[i].acceptance == out[j].acceptance
  {
    hide Transition, Coherent, Live, IsLive, Ended, AllocationsOk, QueuesOk, ReceiptsOk, UniqueTerminals;
    OutOrigin(cp, cp', out, refs, j);
    AcceptedIsKnown(cp, i);
    ValidTerminals(cp);
    if !Attests(cp.receipts, out[j]) {
      ProducedNotAccepted(cp, out[j], i);
      assert false;
    }
  }

  lemma ProducedNotAccepted(cp: Checkpoint, e: Entry, i: int)
    requires Coherent(cp) && ProducedAs(cp.receipts, e) && 0 <= i < |cp.receipts| && cp.receipts[i].Acceptance?
    ensures cp.receipts[i].eventId != e.Id()
  {
    hide Coherent;
    var p, k :| 0 <= p < |cp.receipts| && 0 <= k < |cp.receipts[p].Refs()| && Names(cp.receipts[p].Refs()[k], e);
    assert Names(cp.receipts[p].Refs()[k], e);
    assert Concerns(cp.receipts, p, k, e.Id());
    NotBoth(cp, p, i, k);
  }

  lemma NotBoth(cp: Checkpoint, i: int, j: int, k: int)
    requires Coherent(cp) && 0 <= j < |cp.receipts| && cp.receipts[j].Acceptance?
    ensures !Concerns(cp.receipts, i, k, cp.receipts[j].eventId)
  {
    hide Consistent, Traceable, Concerns;
  }

  ghost predicate Explained(cp: Checkpoint, t: Receipt) {
    && !(HasAcceptance(cp.receipts, t) && HasProducer(cp.receipts, t))
    && (HasAcceptance(cp.receipts, t) || HasProducer(cp.receipts, t)
        || (cp.retention.Pruned().Some? && cp.retention.Pruned().value < t.sequence))
  }

  lemma NewExplained(cp: Checkpoint, cp': Checkpoint, out: seq<Entry>, refs: seq<Reference>, j: nat)
    requires Coherent(cp) && Transition(cp, cp', out, refs) && j < |out|
    ensures |cp.receipts| + j < |cp'.receipts| && Explained(cp', cp'.receipts[|cp.receipts| + j])
  {
    hide Transition, Coherent, Live, IsLive, Ended, Everything, Distinct, Attests, ProducedAs, HasAcceptance, HasProducer;
    TransitionBasics(cp, cp', out, refs);
    OutOrigin(cp, cp', out, refs, j);
    if Attests(cp.receipts, out[j]) {
      AcceptedTerminal(cp, cp', out, refs, j);
      NoProducer(cp, cp', out, refs, j);
    } else {
      NoAcceptance(cp, cp', out, refs, j);
      if out[j] in Live(cp) {
        ProducedTerminal(cp, cp', out, refs, j);
      } else {
        AnnouncedTerminal(cp, cp', out, refs, j);
      }
    }
  }

  lemma AnnouncedTerminal(cp: Checkpoint, cp': Checkpoint, out: seq<Entry>, refs: seq<Reference>, j: nat)
    requires Transition(cp, cp', out, refs) && j < |out| && out[j] !in Live(cp)
    ensures |cp.receipts| + j < |cp'.receipts| && HasProducer(cp'.receipts, cp'.receipts[|cp.receipts| + j])
  {
    hide Transition, Live, Everything, Distinct;
    TransitionBasics(cp, cp', out, refs);
    OutAnnounced(cp, cp', out, refs, j);
    var k :| 0 <= k < |refs| && refs[k].TerminalRef? && refs[k].eventId == out[j].Id()
          && refs[k].acceptance == out[j].acceptance && refs[k].terminal == cp.nextReceipt + j;
    Split(cp, cp', out, refs, |cp.receipts| + j);
    Split(cp, cp', out, refs, |cp.receipts|);
    assert EndsIn(cp'.receipts[|cp.receipts|].Refs()[k], cp'.receipts[|cp.receipts| + j]);
  }

  lemma NoProducer(cp: Checkpoint, cp': Checkpoint, out: seq<Entry>, refs: seq<Reference>, j: nat)
    requires Coherent(cp) && Transition(cp, cp', out, refs) && j < |out| && Attests(cp.receipts, out[j])
    ensures |cp.receipts| + j < |cp'.receipts| && !HasProducer(cp'.receipts, cp'.receipts[|cp.receipts| + j])
  {
    hide Transition, Coherent, Live, Everything, Distinct;
    TransitionBasics(cp, cp', out, refs);
    Split(cp, cp', out, refs, |cp.receipts| + j);
    var a :| 0 <= a < |cp.receipts| && cp.receipts[a].Acceptance? && cp.receipts[a].eventId == out[j].Id();
    SameAcceptances(cp, cp', out, refs, a);
    if HasProducer(cp'.receipts, cp'.receipts[|cp.receipts| + j]) {
      var i, k :| 0 <= i < |cp'.receipts| && 0 <= k < |cp'.receipts[i].Refs()| && EndsIn(cp'.receipts[i].Refs()[k], cp'.receipts[|cp.receipts| + j]);
      assert Concerns(cp'.receipts, i, k, out[j].Id());
      StillNotBoth(cp, cp', out, refs, i, a, k);
    }
  }

  lemma NoAcceptance(cp: Checkpoint, cp': Checkpoint, out: seq<Entry>, refs: seq<Reference>, j: nat)
    requires Coherent(cp) && Transition(cp, cp', out, refs) && j < |out| && !Attests(cp.receipts, out[j])
    ensures |cp.receipts| + j < |cp'.receipts| && !HasAcceptance(cp'.receipts, cp'.receipts[|cp.receipts| + j])
  {
    hide Transition, Coherent, Live, Everything, Distinct;
    TransitionBasics(cp, cp', out, refs);
    Split(cp, cp', out, refs, |cp.receipts| + j);
    if HasAcceptance(cp'.receipts, cp'.receipts[|cp.receipts| + j]) {
      var i :| 0 <= i < |cp'.receipts| && Admits(cp'.receipts[i], cp'.receipts[|cp.receipts| + j]);
      SameAcceptances(cp, cp', out, refs, i);
      AcceptanceOfOut(cp, cp', out, refs, j, i);
    }
  }

  lemma OldExplained(cp: Checkpoint, cp': Checkpoint, out: seq<Entry>, refs: seq<Reference>, i: nat)
    requires Coherent(cp) && Transition(cp, cp', out, refs) && i < |cp.receipts| && cp.receipts[i].Terminal?
    ensures i < |cp'.receipts| && Explained(cp', cp'.receipts[i])
  {
    hide Transition, Coherent, Live, Everything, Distinct, HasAcceptance, HasProducer, ReferencesOk, Traceable;
    TransitionBasics(cp, cp', out, refs);
    ValidReferences(cp);
    Split(cp, cp', out, refs, i);
    OldHasAcceptance(cp, cp', out, refs, i);
    OldHasProducer(cp, cp', out, refs, i);
  }

  lemma NewTerminalsExplained(cp: Checkpoint, cp': Checkpoint, out: seq<Entry>, refs: seq<Reference>)
    requires Coherent(cp) && Transition(cp, cp', out, refs)
    ensures TerminalsExplained(cp')
  {
    hide Transition, Coherent, Everything, Distinct, HasAcceptance, HasProducer;
    TransitionBasics(cp, cp', out, refs);
    forall i | 0 <= i < |cp'.receipts| && cp'.receipts[i].Terminal? ensures Explained(cp', cp'.receipts[i]) {
      Split(cp, cp', out, refs, i);
      if i < |cp.receipts| {
        OldExplained(cp, cp', out, refs, i);
      } else {
        NewExplained(cp, cp', out, refs, i - |cp.receipts|);
        assert |cp.receipts| + (i - |cp.receipts|) == i;
      }
    }
  }

  // ------------------------------------------------------------------------------------------
  // The strengthening
  // ------------------------------------------------------------------------------------------

  lemma NewAdmits(cp: Checkpoint, cp': Checkpoint, out: seq<Entry>, refs: seq<Reference>, i: int, j: int)
    requires Coherent(cp) && Transition(cp, cp', out, refs)
    requires 0 <= i < |cp'.receipts| && cp'.receipts[i].Acceptance?
    requires 0 <= j < |cp'.receipts| && cp'.receipts[j].Terminal? && cp'.receipts[i].eventId == cp'.receipts[j].eventId
    ensures Admits(cp'.receipts[i], cp'.receipts[j])
  {
    hide Transition, Coherent, Everything, Distinct, AllocationsOk, QueuesOk, UniqueTerminals, UniqueAcceptances;
    TransitionBasics(cp, cp', out, refs);
    ValidTerminals(cp);
    SameAcceptances(cp, cp', out, refs, i);
    Split(cp, cp', out, refs, j);
    if j < |cp.receipts| {
      OldAdmits(cp, i, j);
    } else {
      AcceptanceOfOut(cp, cp', out, refs, j - |cp.receipts|, i);
    }
  }

  lemma OldAdmits(cp: Checkpoint, i: int, j: int)
    requires Coherent(cp)
    requires 0 <= i < |cp.receipts| && cp.receipts[i].Acceptance?
    requires 0 <= j < |cp.receipts| && cp.receipts[j].Terminal? && cp.receipts[i].eventId == cp.receipts[j].eventId
    ensures Admits(cp.receipts[i], cp.receipts[j])
  {
    hide Consistent, Traceable;
  }

  lemma StillNotBoth(cp: Checkpoint, cp': Checkpoint, out: seq<Entry>, refs: seq<Reference>, i: int, j: int, k: int)
    requires Coherent(cp) && Transition(cp, cp', out, refs)
    requires 0 <= j < |cp'.receipts| && cp'.receipts[j].Acceptance?
    ensures !Concerns(cp'.receipts, i, k, cp'.receipts[j].eventId)
  {
    hide Transition, Coherent, Concerns, IsLive, Ended, Buried;
    SameAcceptances(cp, cp', out, refs, j);
    var id := cp'.receipts[j].eventId;
    if Concerns(cp'.receipts, i, k, id) {
      if i < |cp.receipts| {
        OldConcerns(cp, cp', out, refs, i, k, id);
        NotBoth(cp, i, j, k);
      } else {
        NewConcerns(cp, cp', out, refs, i, k, id);
        AcceptedIsKnown(cp, j);
      }
    }
  }

  lemma StrongRest(cp: Checkpoint)
    requires Coherent(cp)
    ensures forall i :: 0 <= i < |cp.tombstones| ==> cp.tombstones[i].terminal <= cp.retention.Base()
    ensures cp.record.Retained? ==>
          && (forall i :: 0 <= i < |cp.pending| ==> cp.pending[i].intent.sequence < cp.record.aggregate.nextOutput)
          && (forall i :: 0 <= i < |cp.terminals| ==> cp.terminals[i].intent.sequence < cp.record.aggregate.nextOutput)
  {
    hide Consistent, Traceable;
  }

  lemma NewStrong(cp: Checkpoint, cp': Checkpoint, out: seq<Entry>, refs: seq<Reference>)
    requires Coherent(cp) && Transition(cp, cp', out, refs)
    ensures Strong(cp')
  {
    hide Transition, Coherent, Admits, Concerns, Everything, Distinct, DistinctRuntimes, MailboxesOk, SourcesOk, IsPending, IsTerminal, IsCompacted;
    hide AnnouncesEffect, NewPending;
    TransitionBasics(cp, cp', out, refs);
    StrongRest(cp);
    forall i, j | 0 <= i < |cp'.receipts| && cp'.receipts[i].Acceptance? && 0 <= j < |cp'.receipts| && cp'.receipts[j].Terminal?
              && cp'.receipts[i].eventId == cp'.receipts[j].eventId
      ensures Admits(cp'.receipts[i], cp'.receipts[j])
    {
      NewAdmits(cp, cp', out, refs, i, j);
    }
    forall i, j, k | 0 <= j < |cp'.receipts| && cp'.receipts[j].Acceptance?
      ensures !Concerns(cp'.receipts, i, k, cp'.receipts[j].eventId)
    {
      StillNotBoth(cp, cp', out, refs, i, j, k);
    }
    if cp'.record.Retained? {
      NewRecord(cp, cp', out, refs);
      Counters(cp, cp', out, refs);
      EffectsOf(cp, cp', out, refs);
      forall i | 0 <= i < |cp'.pending| ensures cp'.pending[i].intent.sequence < cp'.record.aggregate.nextOutput {
        PendingAt(cp, cp', refs, i);
      }
    }
  }

  // ------------------------------------------------------------------------------------------
  // Effects
  // ------------------------------------------------------------------------------------------

  lemma EffectsOf(cp: Checkpoint, cp': Checkpoint, out: seq<Entry>, refs: seq<Reference>)
    requires Transition(cp, cp', out, refs)
    ensures cp.record.Retained? && EffectsAdvance(cp, cp', refs)
  {
    hide RecordAdvances, EntriesAdvance, ReceiptsAdvance, RefsAdvance, AnnouncementsOk, EffectsAdvance;
  }

  lemma PendingAt(cp: Checkpoint, cp': Checkpoint, refs: seq<Reference>, i: int)
    requires cp.record.Retained? && EffectsAdvance(cp, cp', refs) && 0 <= i < |cp'.pending|
    ensures i < |cp.pending| ==> cp'.pending[i] == cp.pending[i]
    ensures i >= |cp.pending| ==>
          && cp'.pending[i].revision == cp'.revision
          && cp'.pending[i].intent.sequence >= cp.record.aggregate.nextOutput
          && (cp'.record.Retained? ==> cp'.pending[i].intent.sequence < cp'.record.aggregate.nextOutput)
          && !IsPending(cp, cp'.pending[i].intent.effectId)
          && !IsTerminal(cp, cp'.pending[i].intent.effectId)
          && !IsCompacted(cp, cp'.pending[i].intent.effectId)
  {
    hide IsPending, IsTerminal, IsCompacted, AnnouncesEffect, NewPending;
    if i < |cp.pending| {
      assert cp'.pending[..|cp.pending|][i] == cp'.pending[i];
    }
  }

  lemma ValidEffects(cp: Checkpoint)
    requires Coherent(cp)
    ensures StagesOk(cp) && EffectsOk(cp)
  {
  }

  lemma NewStages(cp: Checkpoint, cp': Checkpoint, out: seq<Entry>, refs: seq<Reference>)
    requires Coherent(cp) && Transition(cp, cp', out, refs)
    ensures StagesOk(cp')
  {
    hide Transition, Coherent, Everything, Distinct, EffectsOk, AnnouncesEffect, NewPending;
    TransitionBasics(cp, cp', out, refs);
    EffectsOf(cp, cp', out, refs);
    ValidEffects(cp);
    StrongRest(cp);
    forall i, j | 0 <= i < j < |cp'.pending|
      ensures cp'.pending[i].intent.effectId != cp'.pending[j].intent.effectId
      ensures cp'.pending[i].intent.sequence < cp'.pending[j].intent.sequence
    {
      PendingAt(cp, cp', refs, i);
      PendingAt(cp, cp', refs, j);
    }
    forall i | 0 <= i < |cp'.pending|
      ensures cp'.pending[i].revision <= cp'.revision
      ensures forall j :: 0 <= j < |cp.terminals| ==> cp'.pending[i].intent.effectId != cp.terminals[j].intent.effectId
      ensures forall j :: 0 <= j < |cp.terminals| ==> cp'.pending[i].intent.sequence != cp.terminals[j].intent.sequence
      ensures forall j :: 0 <= j < |cp.compacted| ==> cp'.pending[i].intent.effectId != cp.compacted[j].effectId
    {
      PendingAt(cp, cp', refs, i);
    }
  }

  /** The reference at position `k` of receipt `i` announces effect `f`. */
  ghost predicate RefersTo(rs: seq<Receipt>, i: int, k: int, f: Text) {
    0 <= i < |rs| && 0 <= k < |rs[i].Refs()| && rs[i].Refs()[k].OutboxRef? && rs[i].Refs()[k].effectId == f
  }

  lemma OldRefersTo(cp: Checkpoint, cp': Checkpoint, out: seq<Entry>, refs: seq<Reference>, i: int, k: int, f: Text)
    requires Coherent(cp) && Transition(cp, cp', out, refs) && i < |cp.receipts|
    ensures RefersTo(cp'.receipts, i, k, f) <==> RefersTo(cp.receipts, i, k, f)
  {
    hide Transition, Coherent, Live, Everything, Distinct;
    TransitionBasics(cp, cp', out, refs);
    if 0 <= i {
      Split(cp, cp', out, refs, i);
      if 0 <= k < |cp.receipts[i].Refs()| {
        RefFate(cp, cp', out, refs, i, k);
      }
    }
  }

  lemma NewRefersTo(cp: Checkpoint, cp': Checkpoint, out: seq<Entry>, refs: seq<Reference>, i: int, k: int, f: Text)
    requires Transition(cp, cp', out, refs) && i >= |cp.receipts|
    ensures RefersTo(cp'.receipts, i, k, f) <==>
              i == |cp.receipts| && 0 <= k < |refs| && refs[k].OutboxRef? && refs[k].effectId == f
  {
    hide Transition, Everything, Distinct;
    TransitionBasics(cp, cp', out, refs);
    RefsNeedOut(cp, cp', out, refs);
    if i < |cp'.receipts| {
      Split(cp, cp', out, refs, i);
    }
  }

  lemma NewUniqueEffects(cp: Checkpoint, cp': Checkpoint, out: seq<Entry>, refs: seq<Reference>)
    requires Coherent(cp) && Transition(cp, cp', out, refs)
    ensures UniqueEffects(cp'.receipts)
  {
    hide Transition, Coherent;
    forall i, k, j, l, f | RefersTo(cp'.receipts, i, k, f) && RefersTo(cp'.receipts, j, l, f) ensures i == j && k == l {
      SameEffect(cp, cp', out, refs, i, k, j, l, f);
    }
    forall i, k, j, l |
      && 0 <= i < |cp'.receipts| && 0 <= k < |cp'.receipts[i].Refs()| && cp'.receipts[i].Refs()[k].OutboxRef?
      && 0 <= j < |cp'.receipts| && 0 <= l < |cp'.receipts[j].Refs()| && cp'.receipts[j].Refs()[l].OutboxRef?
      && cp'.receipts[i].Refs()[k].effectId == cp'.receipts[j].Refs()[l].effectId
      ensures i == j && k == l
    {
      var f := cp'.receipts[i].Refs()[k].effectId;
      assert RefersTo(cp'.receipts, i, k, f) && RefersTo(cp'.receipts, j, l, f);
    }
  }

  lemma SameEffect(cp: Checkpoint, cp': Checkpoint, out: seq<Entry>, refs: seq<Reference>, i: int, k: int, j: int, l: int, f: Text)
    requires Coherent(cp) && Transition(cp, cp', out, refs)
    requires RefersTo(cp'.receipts, i, k, f) && RefersTo(cp'.receipts, j, l, f)
    ensures i == j && k == l
  {
    hide Transition, Coherent, StagesOk, IsPending, IsTerminal, IsCompacted;
    ValidEffects(cp);
    EffectsOf(cp, cp', out, refs);
    if i < |cp.receipts| {
      OldRefersTo(cp, cp', out, refs, i, k, f);
    } else {
      NewRefersTo(cp, cp', out, refs, i, k, f);
    }
    if j < |cp.receipts| {
      OldRefersTo(cp, cp', out, refs, j, l, f);
    } else {
      NewRefersTo(cp, cp', out, refs, j, l, f);
    }
    if (i < |cp.receipts|) != (j < |cp.receipts|) {
      AnnouncedIsNew(cp, cp', out, refs, f);
      assert false;
    }
  }

  lemma AnnouncedIsNew(cp: Checkpoint, cp': Checkpoint, out: seq<Entry>, refs: seq<Reference>, f: Text)
    requires Coherent(cp) && Transition(cp, cp', out, refs) && AnnouncesEffect(refs, f)
    ensures !Referenced(cp.receipts, f)
  {
    hide Transition, Coherent, StagesOk, Referenced, UniqueEffects, IsPending, IsTerminal, IsCompacted;
    ValidEffects(cp);
    EffectsOf(cp, cp', out, refs);
    assert NewPending(cp, cp', f);
    var i :| |cp.pending| <= i < |cp'.pending| && cp'.pending[i].intent.effectId == f;
    PendingAt(cp, cp', refs, i);
  }

  lemma PendingAfter(cp: Checkpoint, cp': Checkpoint, refs: seq<Reference>, f: Text)
    requires cp.record.Retained? && EffectsAdvance(cp, cp', refs)
    ensures IsPending(cp', f) <==> IsPending(cp, f) || AnnouncesEffect(refs, f)
    ensures IsTerminal(cp', f) <==> IsTerminal(cp, f)
    ensures IsCompacted(cp', f) <==> IsCompacted(cp, f)
  {
    assert AnnouncesEffect(refs, f) <==> NewPending(cp, cp', f);
    hide AnnouncesEffect;
    forall i | 0 <= i < |cp.pending| ensures cp'.pending[i] == cp.pending[i] {
      PendingAt(cp, cp', refs, i);
    }
  }

  lemma ReferencedAfter(cp: Checkpoint, cp': Checkpoint, out: seq<Entry>, refs: seq<Reference>, f: Text)
    requires Coherent(cp) && Transition(cp, cp', out, refs)
    ensures Referenced(cp'.receipts, f) <==> Referenced(cp.receipts, f) || AnnouncesEffect(refs, f)
  {
    hide Transition, Coherent;
    if Referenced(cp'.receipts, f) {
      var i, k :| 0 <= i < |cp'.receipts| && 0 <= k < |cp'.receipts[i].Refs()| && cp'.receipts[i].Refs()[k].OutboxRef? && cp'.receipts[i].Refs()[k].effectId == f;
      if i < |cp.receipts| {
        OldRefersTo(cp, cp', out, refs, i, k, f);
      } else {
        NewRefersTo(cp, cp', out, refs, i, k, f);
      }
    }
    if Referenced(cp.receipts, f) {
      var i, k :| 0 <= i < |cp.receipts| && 0 <= k < |cp.receipts[i].Refs()| && cp.receipts[i].Refs()[k].OutboxRef? && cp.receipts[i].Refs()[k].effectId == f;
      OldRefersTo(cp, cp', out, refs, i, k, f);
    }
    if AnnouncesEffect(refs, f) {
      var k :| 0 <= k < |refs| && refs[k].OutboxRef? && refs[k].effectId == f;
      NewRefersTo(cp, cp', out, refs, |cp.receipts|, k, f);
    }
  }

  lemma NewEffects(cp: Checkpoint, cp': Checkpoint, out: seq<Entry>, refs: seq<Reference>)
    requires Coherent(cp) && Transition(cp, cp', out, refs)
    ensures EffectsOk(cp')
  {
    hide Transition, Coherent, StagesOk, IsPending, IsTerminal, IsCompacted, Referenced, UniqueEffects, EffectsAdvance, AnnouncesEffect;
    ValidEffects(cp);
    EffectsOf(cp, cp', out, refs);
    NewUniqueEffects(cp, cp', out, refs);
    forall f ensures Referenced(cp'.receipts, f) <==> IsPending(cp', f) || IsTerminal(cp', f) || IsCompacted(cp', f) {
      PendingAfter(cp, cp', refs, f);
      ReferencedAfter(cp, cp', out, refs, f);
    }
  }

  // ------------------------------------------------------------------------------------------
  // The theorem
  // ------------------------------------------------------------------------------------------

  lemma ReceiptsFollow(cp: Checkpoint, cp': Checkpoint, out: seq<Entry>, refs: seq<Reference>)
    requires Coherent(cp) && Transition(cp, cp', out, refs)
    ensures ReceiptsOk(cp')
  {
    hide Coherent, RefsAdvance, EntriesAdvance, EffectsAdvance, AnnouncementsOk, ReceiptsOk, RecordAdvances, ReceiptsAdvance;
    ValidTerminals(cp);
    NewReceiptsOk(cp, cp', out, refs);
  }

  lemma TransitionSound(cp: Checkpoint, cp': Checkpoint, out: seq<Entry>, refs: seq<Reference>)
    requires Coherent(cp) && Transition(cp, cp', out, refs)
    ensures Consistent(cp')
  {
    hide Transition, Coherent, ReceiptsOk, UniqueAcceptances, UniqueTerminals, AllocationsOk, DigestsOk, CreationOk, MailboxesOk, SourcesOk;
    hide AcceptancesLead, TombstonesOk, OwnersOk, QueuesOk, TerminalsExplained, ReferencesOk, StagesOk, EffectsOk;
    ReceiptsFollow(cp, cp', out, refs);
    NewUniqueTerminals(cp, cp', out, refs);
    NewAllocations(cp, cp', out, refs);
    NewDigests(cp, cp', out, refs);
    NewCreation(cp, cp', out, refs);
    if cp'.record.Retained? {
      NewRecord(cp, cp', out, refs);
    }
    NewAcceptancesLead(cp, cp', out, refs);
    NewTombstones(cp, cp', out, refs);
    NewOwners(cp, cp', out, refs);
    NewQueues(cp, cp', out, refs);
    NewTerminalsExplained(cp, cp', out, refs);
    NewReferences(cp, cp', out, refs);
    NewStages(cp, cp', out, refs);
    NewEffects(cp, cp', out, refs);
  }

  /** Every transition keeps a checkpoint coherent. */
  lemma TransitionCoherent(cp: Checkpoint, cp': Checkpoint, out: seq<Entry>, refs: seq<Reference>)
    requires Coherent(cp) && Transition(cp, cp', out, refs)
    ensures Coherent(cp')
  {
    hide Transition, Consistent, Traceable, Strong;
    TransitionSound(cp, cp', out, refs);
    NewTraceable(cp, cp', out, refs);
    NewStrong(cp, cp', out, refs);
  }

  /** Every transition preserves validity and its strengthening. */
  lemma TransitionInv(cp: Checkpoint, cp': Checkpoint, out: seq<Entry>, refs: seq<Reference>)
    requires Inv(cp) && Transition(cp, cp', out, refs)
    ensures Inv(cp')
  {
    hide Transition, Coherent, ProvenanceOk, SourcesOk;
    TransitionCoherent(cp, cp', out, refs);
    if cp'.record.Retained? {
      NewRecord(cp, cp', out, refs);
    }
    NewProvenance(cp, cp', out, refs);
  }
}
