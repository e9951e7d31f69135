/** A checkpoint of the shape that creation yields satisfies the invariant. */
module CreateProofs {
  import opened CheckpointModel
  import opened CheckpointValidity
  import opened StepContract
  import opened Transitions
  import opened TransitionRefs

  // ------------------------------------------------------------------------------------------
  // The shape of a created checkpoint
  // ------------------------------------------------------------------------------------------

  /** The creation receipt, then one terminal receipt for each entry that creation disposed of. */
  ghost predicate Founded(cp: Checkpoint, out: seq<Entry>, refs: seq<Reference>) {
    && cp.record.Retained? && cp.record.aggregate.root == cp.root
    && cp.revision == 0 && cp.tombstones == [] && cp.retention.Base() == 0 && cp.nextReceipt == 1 + |out|
    && |cp.receipts| == 1 + |out|
    && cp.receipts[0].Creation? && cp.receipts[0].sequence == 0 && cp.receipts[0].revision == 0
    && cp.receipts[0].creationId == cp.record.aggregate.creationId && cp.receipts[0].digest == CurrentDigest(cp)
    && cp.receipts[0].refs == refs
    && (forall j :: 0 <= j < |out| ==>
          && Ends(cp.receipts[1 + j], out[j]) && cp.receipts[1 + j].sequence == 1 + j && cp.receipts[1 + j].revision == 0
          && cp.receipts[1 + j].digest == CurrentDigest(cp) && cp.receipts[1 + j].refs == [])
  }

  predicate RefEnds(r: Reference, e: Entry, terminal: nat) {
    r.TerminalRef? && r.eventId == e.Id() && r.acceptance == e.acceptance && r.terminal == terminal
  }

  predicate HasEnd(refs: seq<Reference>, e: Entry, terminal: nat) {
    exists k :: 0 <= k < |refs| && RefEnds(refs[k], e, terminal)
  }

  /** What a reference of the creation receipt is about. */
  ghost predicate Announced'(cp: Checkpoint, out: seq<Entry>, r: Reference) {
    match r
    case OutboxRef(_, _) => true
    case MailboxRef(_, _, _, _) => LiveReference(cp, r)
    case TerminalRef(_, _, _, _) => exists j :: 0 <= j < |out| && RefEnds(r, out[j], 1 + j)
  }

  /** No two references of the creation receipt are about one event. */
  predicate DistinctRefs(refs: seq<Reference>) {
    forall k, l :: 0 <= k < l < |refs| && !refs[k].OutboxRef? && !refs[l].OutboxRef? ==> refs[k].eventId != refs[l].eventId
  }

  ghost predicate AllAnnounced(cp: Checkpoint, out: seq<Entry>, refs: seq<Reference>) {
    && (forall t :: t in Live(cp) ==> t.mode.Internal? && exists k :: 0 <= k < |refs| && Names(refs[k], t))
    && (forall j :: 0 <= j < |out| ==> HasEnd(refs, out[j], 1 + j))
    && (forall k :: 0 <= k < |refs| ==> Announced'(cp, out, refs[k]))
  }

  ghost predicate FoundedEntries(cp: Checkpoint, out: seq<Entry>, refs: seq<Reference>)
    requires cp.record.Retained?
  {
    var a := cp.record.aggregate;
    && Distinct(Everything(cp, out)) && Below(Everything(cp, out), a.nextAcceptance, a.nextQueue)
    && Mailboxes(a) && SourcesOk(a)
    && AllAnnounced(cp, out, refs)
    && DistinctRefs(refs)
  }

  ghost predicate FoundedEffects(cp: Checkpoint, refs: seq<Reference>)
    requires cp.record.Retained?
  {
    && cp.terminals == [] && cp.compacted == [] && cp.nextTerminal == 0
    && (forall i :: 0 <= i < |cp.pending| ==> cp.pending[i].revision == 0 && cp.pending[i].intent.sequence < cp.record.aggregate.nextOutput)
    && (forall i, j :: 0 <= i < j < |cp.pending| ==>
          && cp.pending[i].intent.sequence < cp.pending[j].intent.sequence
          && cp.pending[i].intent.effectId != cp.pending[j].intent.effectId)
    && (forall k, l :: 0 <= k < l < |refs| && refs[k].OutboxRef? && refs[l].OutboxRef? ==> refs[k].effectId != refs[l].effectId)
    && (forall f :: AnnouncesEffect(refs, f) <==> IsPending(cp, f))
  }

  lemma FoundedAt(cp: Checkpoint, out: seq<Entry>, refs: seq<Reference>, i: int)
    requires Founded(cp, out, refs) && 0 <= i < |cp.receipts|
    ensures |cp.receipts| == 1 + |out| && cp.nextReceipt == 1 + |out|
    ensures i == 0 ==> cp.receipts[i].Creation? && cp.receipts[i].refs == refs
    ensures i > 0 ==> Ends(cp.receipts[i], out[i - 1]) && cp.receipts[i].digest == CurrentDigest(cp) && cp.receipts[i].refs == []
    ensures cp.receipts[i].sequence == i && cp.receipts[i].revision == 0
  {
    hide CurrentDigest;
    if i > 0 {
      assert cp.receipts[1 + (i - 1)] == cp.receipts[i];
    }
  }

  lemma FoundedNumbers(cp: Checkpoint, out: seq<Entry>, refs: seq<Reference>)
    requires Founded(cp, out, refs) && FoundedEntries(cp, out, refs)
    ensures Distinct(Everything(cp, out)) && Below(Everything(cp, out), cp.record.aggregate.nextAcceptance, cp.record.aggregate.nextQueue)
    ensures Mailboxes(cp.record.aggregate) && SourcesOk(cp.record.aggregate)
    ensures cp.tombstones == [] && cp.retention.Base() == 0 && cp.revision == 0 && |cp.receipts| == 1 + |out|
    ensures cp.nextReceipt == 1 + |out|
  {
    hide Distinct, Everything, Below, Mailboxes, SourcesOk, AllAnnounced, DistinctRefs, CurrentDigest;
  }

  lemma AllFounded(cp: Checkpoint, out: seq<Entry>, refs: seq<Reference>)
    requires Founded(cp, out, refs)
    ensures forall i :: 0 <= i < |cp.receipts| ==> cp.receipts[i].sequence == i && cp.receipts[i].revision == 0
    ensures forall i :: 0 < i < |cp.receipts| ==> EndsOut(cp, out, i)
  {
    hide Founded, Live, CurrentDigest;
    forall i | 0 <= i < |cp.receipts|
      ensures cp.receipts[i].sequence == i && cp.receipts[i].revision == 0
      ensures i > 0 ==> EndsOut(cp, out, i)
    {
      FoundedAt(cp, out, refs, i);
      if i > 0 {
        assert out[i - 1] in multiset(out);
      }
    }
  }

  /** Receipt `i` ends the disposed entry before it in the count. */
  ghost predicate EndsOut(cp: Checkpoint, out: seq<Entry>, i: int) {
    && 0 < i < |cp.receipts| && i - 1 < |out| && Ends(cp.receipts[i], out[i - 1]) && out[i - 1] in Everything(cp, out)
    && cp.receipts[i].digest == CurrentDigest(cp)
  }

  lemma FoundedReceipts(cp: Checkpoint, out: seq<Entry>, refs: seq<Reference>)
    requires Founded(cp, out, refs) && FoundedEntries(cp, out, refs)
    ensures ReceiptsOk(cp) && DigestsOk(cp) && CreationOk(cp)
  {
    hide FoundedEntries, Distinct, Mailboxes, SourcesOk, Live, CurrentDigest, Everything;
    FoundedNumbers(cp, out, refs);
    AllFounded(cp, out, refs);
    forall i | 0 < i < |cp.receipts| ensures cp.receipts[i].Terminal? && cp.receipts[i].digest == CurrentDigest(cp) {
      assert EndsOut(cp, out, i);
    }
  }

  lemma FoundedUniqueness(cp: Checkpoint, out: seq<Entry>, refs: seq<Reference>)
    requires Founded(cp, out, refs) && FoundedEntries(cp, out, refs)
    ensures UniqueAcceptances(cp.receipts) && UniqueTerminals(cp.receipts) && AllocationsOk(cp)
  {
    hide FoundedEntries, Distinct, Mailboxes, SourcesOk, Live, CurrentDigest, Everything;
    FoundedNumbers(cp, out, refs);
    AllFounded(cp, out, refs);
    forall i | 0 < i < |cp.receipts|
      ensures cp.receipts[i].Terminal? && i - 1 < |out| && Ends(cp.receipts[i], out[i - 1])
      ensures cp.receipts[i].acceptance < cp.record.aggregate.nextAcceptance && cp.receipts[i].finalQueue < cp.record.aggregate.nextQueue
    {
      assert EndsOut(cp, out, i);
    }
    forall i, j | 0 <= i < j < |cp.receipts| && cp.receipts[i].Terminal? && cp.receipts[j].Terminal?
      ensures cp.receipts[i].eventId != cp.receipts[j].eventId && cp.receipts[i].finalQueue != cp.receipts[j].finalQueue
    {
      OutDistinct(cp, out, i - 1, j - 1);
    }
  }

  lemma FoundedMailboxes(cp: Checkpoint, out: seq<Entry>, refs: seq<Reference>)
    requires Founded(cp, out, refs) && FoundedEntries(cp, out, refs)
    ensures MailboxesOk(cp.record.aggregate) && DistinctRuntimes(cp.record.aggregate.runtimes)
  {
    hide FoundedEntries, MailOf, Distinct, Below, SourcesOk, BoxesOk;
    FoundedNumbers(cp, out, refs);
    var a := cp.record.aggregate;
    TransitionEvents.PartDistinct(MailOf(a.runtimes), multiset(out), a.nextAcceptance, a.nextQueue);
  }

  lemma LiveApart(cp: Checkpoint, out: seq<Entry>, e: Entry, j: nat)
    requires Distinct(Everything(cp, out)) && e in Live(cp) && j < |out|
    ensures e.Id() != out[j].Id() && e.queue != out[j].queue && e.acceptance != out[j].acceptance
  {
    hide Live;
    assert out[j] in multiset(out);
    assert Everything(cp, out)[out[j]] == Live(cp)[out[j]] + multiset(out)[out[j]];
  }

  lemma FoundedEvents(cp: Checkpoint, out: seq<Entry>, refs: seq<Reference>)
    requires Founded(cp, out, refs) && FoundedEntries(cp, out, refs)
    ensures ProvenanceOk(cp) && AcceptancesLead(cp) && TombstonesOk(cp) && QueuesOk(cp)
  {
    hide Everything, Distinct, Below, Mailboxes, SourcesOk, Live, Announced', CurrentDigest;
    forall t | t in Live(cp) ensures t.mode.Internal? && ProducedAs(cp.receipts, t) {
      var k :| 0 <= k < |refs| && Names(refs[k], t);
      assert Names(cp.receipts[0].Refs()[k], t);
    }
    forall i | 0 <= i < |cp.receipts| ensures !cp.receipts[i].Acceptance? {
      FoundedAt(cp, out, refs, i);
    }
    forall e, i | e in Live(cp) && 0 <= i < |cp.receipts| && cp.receipts[i].Terminal?
      ensures e.queue != cp.receipts[i].finalQueue && e.Id() != cp.receipts[i].eventId
    {
      FoundedAt(cp, out, refs, i);
      LiveApart(cp, out, e, i - 1);
    }
  }

  /** Whoever owns an acceptance number is one of the entries. */
  lemma FoundedOwner(cp: Checkpoint, out: seq<Entry>, refs: seq<Reference>, n: nat, id: Text)
    requires Founded(cp, out, refs) && Owns(cp, n, id)
    ensures exists t :: t in Everything(cp, out) && t.acceptance == n && t.Id() == id
  {
    hide Live, CurrentDigest;
    if e :| e in Live(cp) && e.acceptance == n && e.Id() == id {
      assert e in Everything(cp, out);
    } else {
      var i :| 0 <= i < |cp.receipts| && !cp.receipts[i].Creation? && cp.receipts[i].acceptance == n && cp.receipts[i].eventId == id;
      FoundedAt(cp, out, refs, i);
      assert out[i - 1] in multiset(out);
      assert out[i - 1] in Everything(cp, out);
    }
  }

  lemma FoundedOwners(cp: Checkpoint, out: seq<Entry>, refs: seq<Reference>)
    requires Founded(cp, out, refs) && FoundedEntries(cp, out, refs)
    ensures OwnersOk(cp)
  {
    hide Founded, FoundedEntries, Everything, Owns, Below, Mailboxes, SourcesOk;
    FoundedRetained(cp, out, refs);
    FoundedNumbers(cp, out, refs);
    forall n, id, id' | Owns(cp, n, id) && Owns(cp, n, id') ensures id == id' {
      FoundedOwner(cp, out, refs, n, id);
      FoundedOwner(cp, out, refs, n, id');
    }
  }

  lemma FoundedRetained(cp: Checkpoint, out: seq<Entry>, refs: seq<Reference>)
    requires Founded(cp, out, refs)
    ensures cp.record.Retained?
  {
  }

  lemma FoundedReferences(cp: Checkpoint, out: seq<Entry>, refs: seq<Reference>)
    requires Founded(cp, out, refs) && FoundedEntries(cp, out, refs)
    ensures ReferencesOk(cp)
  {
    hide Everything, Distinct, Below, Mailboxes, SourcesOk, Live, LiveReference, EndedReference, CurrentDigest, Names;
    forall i, k, id | Concerns(cp.receipts, i, k, id) ensures i == 0 && k < |refs| && !refs[k].OutboxRef? && refs[k].eventId == id {
      FoundedAt(cp, out, refs, i);
    }
    forall i, k | 0 <= i < |cp.receipts| && 0 <= k < |cp.receipts[i].Refs()| ensures ReferenceOk(cp, i, cp.receipts[i].Refs()[k]) {
      FoundedAt(cp, out, refs, i);
      assert Announced'(cp, out, refs[k]);
      if refs[k].TerminalRef? {
        var j :| 0 <= j < |out| && RefEnds(refs[k], out[j], 1 + j);
        FoundedEnds(cp, out, refs, refs[k], j);
      }
    }
  }

  lemma FoundedEnds(cp: Checkpoint, out: seq<Entry>, refs: seq<Reference>, r: Reference, j: nat)
    requires Founded(cp, out, refs) && j < |out| && RefEnds(r, out[j], 1 + j)
    ensures EndsIn(r, cp.receipts[1 + j]) && EndedReference(cp, 0, r)
  {
    FoundedAt(cp, out, refs, 1 + j);
    assert EndsIn(r, cp.receipts[1 + j]);
  }

  lemma FoundedExplained(cp: Checkpoint, out: seq<Entry>, refs: seq<Reference>)
    requires Founded(cp, out, refs) && FoundedEntries(cp, out, refs)
    ensures TerminalsExplained(cp)
  {
    hide Everything, Distinct, Below, Mailboxes, SourcesOk, Live, CurrentDigest, Names, Announced';
    forall i | 0 <= i < |cp.receipts| ensures !cp.receipts[i].Acceptance? {
      FoundedAt(cp, out, refs, i);
    }
    forall i | 0 <= i < |cp.receipts| && cp.receipts[i].Terminal? ensures HasProducer(cp.receipts, cp.receipts[i]) {
      FoundedAt(cp, out, refs, i);
      assert HasEnd(refs, out[i - 1], 1 + (i - 1));
      var k :| 0 <= k < |refs| && RefEnds(refs[k], out[i - 1], 1 + (i - 1));
      assert EndsIn(cp.receipts[0].Refs()[k], cp.receipts[i]);
    }
  }

  lemma FoundedRefs(cp: Checkpoint, out: seq<Entry>, refs: seq<Reference>, i: int, k: int)
    requires Founded(cp, out, refs)
    ensures 0 <= i < |cp.receipts| && 0 <= k < |cp.receipts[i].Refs()| <==> i == 0 && 0 <= k < |refs|
    ensures i == 0 && 0 <= k < |refs| ==> cp.receipts[i].Refs()[k] == refs[k]
  {
    hide CurrentDigest;
    if 0 <= i < |cp.receipts| {
      FoundedAt(cp, out, refs, i);
    }
  }

  lemma FoundedReferenced(cp: Checkpoint, out: seq<Entry>, refs: seq<Reference>, f: Text)
    requires Founded(cp, out, refs)
    ensures Referenced(cp.receipts, f) <==> AnnouncesEffect(refs, f)
  {
    hide Founded;
    if Referenced(cp.receipts, f) {
      var i, k :| 0 <= i < |cp.receipts| && 0 <= k < |cp.receipts[i].Refs()| && cp.receipts[i].Refs()[k].OutboxRef? && cp.receipts[i].Refs()[k].effectId == f;
      FoundedRefs(cp, out, refs, i, k);
    }
    if AnnouncesEffect(refs, f) {
      var k :| 0 <= k < |refs| && refs[k].OutboxRef? && refs[k].effectId == f;
      FoundedRefs(cp, out, refs, 0, k);
    }
  }

  lemma FoundedUnique(cp: Checkpoint, out: seq<Entry>, refs: seq<Reference>)
    requires Founded(cp, out, refs)
    requires forall k, l :: 0 <= k < l < |refs| && refs[k].OutboxRef? && refs[l].OutboxRef? ==> refs[k].effectId != refs[l].effectId
    ensures UniqueEffects(cp.receipts)
  {
    hide Founded;
    forall i, k, j, l |
      && 0 <= i < |cp.receipts| && 0 <= k < |cp.receipts[i].Refs()| && cp.receipts[i].Refs()[k].OutboxRef?
      && 0 <= j < |cp.receipts| && 0 <= l < |cp.receipts[j].Refs()| && cp.receipts[j].Refs()[l].OutboxRef?
      && cp.receipts[i].Refs()[k].effectId == cp.receipts[j].Refs()[l].effectId
      ensures i == j && k == l
    {
      FoundedRefs(cp, out, refs, i, k);
      FoundedRefs(cp, out, refs, j, l);
    }
  }

  lemma FoundedOutbox(cp: Checkpoint, out: seq<Entry>, refs: seq<Reference>)
    requires Founded(cp, out, refs) && FoundedEffects(cp, refs)
    ensures StagesOk(cp) && EffectsOk(cp)
  {
    hide CurrentDigest, Live, Referenced, AnnouncesEffect, IsPending, UniqueEffects;
    FoundedUnique(cp, out, refs);
    forall f ensures Referenced(cp.receipts, f) <==> IsPending(cp, f) || IsTerminal(cp, f) || IsCompacted(cp, f) {
      FoundedReferenced(cp, out, refs, f);
    }
  }

  lemma FoundedStrong(cp: Checkpoint, out: seq<Entry>, refs: seq<Reference>)
    requires Founded(cp, out, refs) && FoundedEntries(cp, out, refs) && FoundedEffects(cp, refs)
    ensures Strong(cp)
  {
    hide FoundedEntries, CurrentDigest, Live, Admits, Concerns, MailboxesOk, DistinctRuntimes, IsPending, AnnouncesEffect;
    FoundedMailboxes(cp, out, refs);
    forall i | 0 <= i < |cp.receipts| ensures !cp.receipts[i].Acceptance? {
      FoundedAt(cp, out, refs, i);
    }
  }

  lemma FoundedInv(cp: Checkpoint, out: seq<Entry>, refs: seq<Reference>)
    requires Founded(cp, out, refs) && FoundedEntries(cp, out, refs) && FoundedEffects(cp, refs)
    ensures Inv(cp) && Valid(cp)
  {
    hide Founded, FoundedEntries, FoundedEffects, Strong, ReceiptsOk, UniqueAcceptances, UniqueTerminals, AllocationsOk, DigestsOk, CreationOk, MailboxesOk;
    hide SourcesOk, Distinct, Below, Everything, Mailboxes, DistinctRuntimes, Inv;
    hide ProvenanceOk, AcceptancesLead, TombstonesOk, OwnersOk, QueuesOk, TerminalsExplained, ReferencesOk, StagesOk, EffectsOk;
    FoundedRetained(cp, out, refs);
    FoundedNumbers(cp, out, refs);
    FoundedReceipts(cp, out, refs);
    FoundedUniqueness(cp, out, refs);
    FoundedMailboxes(cp, out, refs);
    FoundedEvents(cp, out, refs);
    FoundedOwners(cp, out, refs);
    FoundedReferences(cp, out, refs);
    FoundedExplained(cp, out, refs);
    FoundedOutbox(cp, out, refs);
    FoundedStrong(cp, out, refs);
    InvIff(cp);
  }
}
