/** Transitions preserve what the invariant says about emission references and their events. */
module TransitionRefs {
  import opened CheckpointModel
  import opened CheckpointValidity
  import opened StepContract
  import opened Transitions
  import opened TransitionEvents

  // ------------------------------------------------------------------------------------------
  // The fate of one reference
  // ------------------------------------------------------------------------------------------

  ghost predicate Requeued(cp: Checkpoint, cp': Checkpoint, e: Entry, r: Reference, r': Reference)
    requires cp.record.Retained?
  {
    exists t :: t in Live(cp') && Moved(e, t, cp.record.aggregate.nextQueue) && Names(r', t) && r.index == r'.index
  }

  ghost predicate EndedAt(cp: Checkpoint, out: seq<Entry>, e: Entry, r: Reference, r': Reference) {
    exists j :: 0 <= j < |out| && out[j] == e && r'.TerminalRef? && r'.index == r.index && r'.eventId == e.Id()
             && r'.acceptance == e.acceptance && r'.terminal == cp.nextReceipt + j
  }

  /** A mailbox reference follows its entry; every other reference stays as it is. */
  ghost predicate Fate(cp: Checkpoint, cp': Checkpoint, out: seq<Entry>, r: Reference, r': Reference)
    requires cp.record.Retained?
  {
    if r.MailboxRef? then
      exists e :: e in Live(cp) && e.mode.Internal? && Names(r, e) && (Requeued(cp, cp', e, r, r') || EndedAt(cp, out, e, r, r'))
    else r' == r
  }

  lemma RefMovesAt(cp: Checkpoint, cp': Checkpoint, out: seq<Entry>, refs: seq<Reference>, i: nat, k: nat)
    requires Transition(cp, cp', out, refs) && i < |cp.receipts| && k < |cp.receipts[i].Refs()|
    ensures i < |cp'.receipts| && k < |cp'.receipts[i].Refs()|
    ensures cp.record.Retained? && RefMoves(cp, cp', out, cp.receipts[i].Refs()[k], cp'.receipts[i].Refs()[k])
  {
    hide RecordAdvances, EntriesAdvance, AnnouncementsOk, EffectsAdvance, RefMoves;
  }

  lemma ValidReferences(cp: Checkpoint)
    requires Coherent(cp)
    ensures ReferencesOk(cp) && Traceable(cp) && TerminalsExplained(cp)
  {
  }

  lemma RefFate(cp: Checkpoint, cp': Checkpoint, out: seq<Entry>, refs: seq<Reference>, i: nat, k: nat)
    requires Coherent(cp) && Transition(cp, cp', out, refs) && i < |cp.receipts| && k < |cp.receipts[i].Refs()|
    ensures i < |cp'.receipts| && k < |cp'.receipts[i].Refs()|
    ensures cp.record.Retained? && Fate(cp, cp', out, cp.receipts[i].Refs()[k], cp'.receipts[i].Refs()[k])
  {
    hide Transition, Coherent, Live, Traceable, TerminalsExplained, UniqueProducers;
    RefMovesAt(cp, cp', out, refs, i, k);
    ValidReferences(cp);
    var r, r' := cp.receipts[i].Refs()[k], cp'.receipts[i].Refs()[k];
    if r.MailboxRef? {
      assert LiveReference(cp, r);
      var e :| e in Live(cp) && e.mode.Internal? && Names(r, e);
      if t :| t in Live(cp') && Moved(e, t, cp.record.aggregate.nextQueue) && r' == MailboxRef(r.index, r.eventId, r.acceptance, t.queue) {
        assert Names(r', t);
        assert Requeued(cp, cp', e, r, r');
      } else {
        assert EndedAt(cp, out, e, r, r');
      }
    }
  }

  /** Number of references of an old receipt, and what an old receipt after the transition is about. */
  lemma OldConcerns(cp: Checkpoint, cp': Checkpoint, out: seq<Entry>, refs: seq<Reference>, i: int, k: int, id: Text)
    requires Coherent(cp) && Transition(cp, cp', out, refs) && i < |cp.receipts|
    ensures Concerns(cp'.receipts, i, k, id) <==> Concerns(cp.receipts, i, k, id)
  {
    hide Transition, Coherent, Live, Everything, Distinct;
    TransitionBasics(cp, cp', out, refs);
    if 0 <= i {
      Split(cp, cp', out, refs, i);
      if 0 <= k < |cp.receipts[i].Refs()| {
        RefFate(cp, cp', out, refs, i, k);
      }
    }
  }

  /** An event with a reference is live, has ended or is buried. */
  lemma ConcernedIsKnown(cp: Checkpoint, i: int, k: int, id: Text)
    requires Coherent(cp) && Concerns(cp.receipts, i, k, id)
    ensures IsLive(cp, id) || Ended(cp.receipts, id) || Buried(cp.tombstones, id)
  {
    hide Coherent, Live, Traceable, TerminalsExplained, UniqueProducers;
    ValidReferences(cp);
  }

  /** What an announcement is about is new to the checkpoint. */
  lemma NewAnnouncement(cp: Checkpoint, cp': Checkpoint, out: seq<Entry>, refs: seq<Reference>, k: nat)
    requires Transition(cp, cp', out, refs) && k < |refs|
    ensures cp.record.Retained? && Announces(cp, cp', out, refs[k])
    ensures !refs[k].OutboxRef? ==>
              !Ended(cp.receipts, refs[k].eventId) && !Buried(cp.tombstones, refs[k].eventId) && !IsLive(cp, refs[k].eventId)
    ensures forall l :: 0 <= l < |refs| && l != k && !refs[k].OutboxRef? && !refs[l].OutboxRef? ==> refs[k].eventId != refs[l].eventId
  {
    hide RecordAdvances, EntriesAdvance, ReceiptsAdvance, RefsAdvance, EffectsAdvance, Announces, IsLive, Ended, Buried;
  }

  lemma NewConcerns(cp: Checkpoint, cp': Checkpoint, out: seq<Entry>, refs: seq<Reference>, i: int, k: int, id: Text)
    requires Transition(cp, cp', out, refs) && i >= |cp.receipts| && Concerns(cp'.receipts, i, k, id)
    ensures i == |cp.receipts| && 0 <= k < |refs| && cp'.receipts[i].Refs()[k] == refs[k]
    ensures !Ended(cp.receipts, id) && !Buried(cp.tombstones, id) && !IsLive(cp, id)
  {
    hide Transition, Ended, Buried, IsLive;
    Split(cp, cp', out, refs, i);
    NewAnnouncement(cp, cp', out, refs, k);
  }

  lemma NewUniqueProducers(cp: Checkpoint, cp': Checkpoint, out: seq<Entry>, refs: seq<Reference>)
    requires Coherent(cp) && Transition(cp, cp', out, refs)
    ensures UniqueProducers(cp'.receipts)
  {
    hide Transition, Coherent, Traceable, TerminalsExplained, Concerns, Ended, Buried, IsLive;
    ValidReferences(cp);
    forall i, k, j, l, id | Concerns(cp'.receipts, i, k, id) && Concerns(cp'.receipts, j, l, id) ensures i == j && k == l {
      SameProducer(cp, cp', out, refs, i, k, j, l, id);
    }
  }

  lemma SameProducer(cp: Checkpoint, cp': Checkpoint, out: seq<Entry>, refs: seq<Reference>, i: int, k: int, j: int, l: int, id: Text)
    requires Coherent(cp) && Transition(cp, cp', out, refs) && UniqueProducers(cp.receipts)
    requires Concerns(cp'.receipts, i, k, id) && Concerns(cp'.receipts, j, l, id)
    ensures i == j && k == l
  {
    hide Transition, Coherent, Ended, Buried, IsLive, Announces;
    if i < |cp.receipts| {
      OldConcerns(cp, cp', out, refs, i, k, id);
      ConcernedIsKnown(cp, i, k, id);
    } else {
      NewConcerns(cp, cp', out, refs, i, k, id);
      NewAnnouncement(cp, cp', out, refs, k);
    }
    if j < |cp.receipts| {
      OldConcerns(cp, cp', out, refs, j, l, id);
      ConcernedIsKnown(cp, j, l, id);
    } else {
      NewConcerns(cp, cp', out, refs, j, l, id);
    }
  }

  // ------------------------------------------------------------------------------------------
  // References
  // ------------------------------------------------------------------------------------------

  /** The reference at position `k` of receipt `i` is as the invariant demands. */
  ghost predicate ReferenceOk(cp: Checkpoint, i: int, r: Reference)
    requires 0 <= i < |cp.receipts|
  {
    match r
    case MailboxRef(_, _, _, _) => LiveReference(cp, r)
    case TerminalRef(_, _, _, _) => EndedReference(cp, i, r)
    case OutboxRef(_, _) => true
  }

  lemma OldReference(cp: Checkpoint, cp': Checkpoint, out: seq<Entry>, refs: seq<Reference>, i: nat, k: nat)
    requires Coherent(cp) && Transition(cp, cp', out, refs) && i < |cp.receipts| && k < |cp.receipts[i].Refs()|
    ensures i < |cp'.receipts| && k < |cp'.receipts[i].Refs()| && ReferenceOk(cp', i, cp'.receipts[i].Refs()[k])
  {
    hide Transition, Coherent, Live, Everything, Distinct, Traceable, TerminalsExplained, UniqueProducers, EndedReference;
    RefFate(cp, cp', out, refs, i, k);
    ValidReferences(cp);
    var r, r' := cp.receipts[i].Refs()[k], cp'.receipts[i].Refs()[k];
    if r.MailboxRef? {
      var e :| e in Live(cp) && e.mode.Internal? && Names(r, e) && (Requeued(cp, cp', e, r, r') || EndedAt(cp, out, e, r, r'));
      if Requeued(cp, cp', e, r, r') {
        assert LiveReference(cp', r');
      } else {
        var j :| 0 <= j < |out| && out[j] == e && r'.TerminalRef? && r'.terminal == cp.nextReceipt + j;
        NewlyEnded(cp, cp', out, refs, i, r', j);
      }
    } else if r.TerminalRef? {
      StillEnded(cp, cp', out, refs, i, r);
    }
  }

  lemma NewlyEnded(cp: Checkpoint, cp': Checkpoint, out: seq<Entry>, refs: seq<Reference>, i: nat, r: Reference, j: nat)
    requires Coherent(cp) && Transition(cp, cp', out, refs) && i < |cp.receipts| && j < |out|
    requires r.TerminalRef? && r.eventId == out[j].Id() && r.acceptance == out[j].acceptance && r.terminal == cp.nextReceipt + j
    ensures i < |cp'.receipts| && EndedReference(cp', i, r)
  {
    hide Transition, Coherent, Everything, Distinct, AllocationsOk, QueuesOk, UniqueTerminals, UniqueAcceptances;
    TransitionBasics(cp, cp', out, refs);
    ValidTerminals(cp);
    Split(cp, cp', out, refs, |cp.receipts| + j);
    Split(cp, cp', out, refs, i);
    assert EndsIn(r, cp'.receipts[|cp.receipts| + j]);
  }

  lemma StillEnded(cp: Checkpoint, cp': Checkpoint, out: seq<Entry>, refs: seq<Reference>, i: nat, r: Reference)
    requires Transition(cp, cp', out, refs) && i < |cp.receipts| && EndedReference(cp, i, r)
    ensures i < |cp'.receipts| && EndedReference(cp', i, r)
  {
    hide Transition, Everything, Distinct;
    TransitionBasics(cp, cp', out, refs);
    Split(cp, cp', out, refs, i);
    if j :| 0 <= j < |cp.receipts| && EndsIn(r, cp.receipts[j]) && cp.receipts[i].sequence < cp.receipts[j].sequence
            && cp.receipts[i].revision <= cp.receipts[j].revision {
      Split(cp, cp', out, refs, j);
      assert EndsIn(r, cp'.receipts[j]);
    }
  }

  lemma NewReference(cp: Checkpoint, cp': Checkpoint, out: seq<Entry>, refs: seq<Reference>, k: nat)
    requires Transition(cp, cp', out, refs) && k < |refs|
    ensures |cp.receipts| < |cp'.receipts| && ReferenceOk(cp', |cp.receipts|, refs[k])
  {
    hide Transition, Everything, Distinct, IsLive, Ended, Buried, Live;
    TransitionBasics(cp, cp', out, refs);
    NewAnnouncement(cp, cp', out, refs, k);
    RefsNeedOut(cp, cp', out, refs);
    if refs[k].TerminalRef? {
      var j :| 1 <= j < |out| && New(cp.record.aggregate, out[j]) && out[j].Id() == refs[k].eventId
            && out[j].acceptance == refs[k].acceptance && refs[k].terminal == cp.nextReceipt + j;
      Split(cp, cp', out, refs, |cp.receipts| + j);
      Split(cp, cp', out, refs, |cp.receipts|);
      assert EndsIn(refs[k], cp'.receipts[|cp.receipts| + j]);
    }
  }

  lemma RefsNeedOut(cp: Checkpoint, cp': Checkpoint, out: seq<Entry>, refs: seq<Reference>)
    requires Transition(cp, cp', out, refs)
    ensures out == [] ==> refs == []
  {
    hide RecordAdvances, EntriesAdvance, RefsAdvance, EffectsAdvance, AnnouncementsOk;
  }

  lemma NewReferences(cp: Checkpoint, cp': Checkpoint, out: seq<Entry>, refs: seq<Reference>)
    requires Coherent(cp) && Transition(cp, cp', out, refs)
    ensures ReferencesOk(cp')
  {
    hide Transition, Coherent, LiveReference, EndedReference, UniqueProducers, Everything, Distinct;
    TransitionBasics(cp, cp', out, refs);
    NewUniqueProducers(cp, cp', out, refs);
    forall i, k | 0 <= i < |cp'.receipts| && 0 <= k < |cp'.receipts[i].Refs()| ensures ReferenceOk(cp', i, cp'.receipts[i].Refs()[k]) {
      Split(cp, cp', out, refs, i);
      if i < |cp.receipts| {
        OldReference(cp, cp', out, refs, i, k);
      } else {
        NewReference(cp, cp', out, refs, k);
      }
    }
  }

  // ------------------------------------------------------------------------------------------
  // Provenance
  // ------------------------------------------------------------------------------------------

  /** Live after the transition: moved from before, or announced. */
  lemma LiveComesFrom(cp: Checkpoint, cp': Checkpoint, out: seq<Entry>, refs: seq<Reference>, t: Entry)
    requires Transition(cp, cp', out, refs) && t in Live(cp')
    ensures cp.record.Retained?
    ensures || (exists b :: b in Live(cp) && Moved(b, t, cp.record.aggregate.nextQueue))
            || (New(cp.record.aggregate, t) && exists k :: 0 <= k < |refs| && Names(refs[k], t))
  {
    hide RecordAdvances, ReceiptsAdvance, RefsAdvance, EffectsAdvance, AnnouncementsOk, Live, Distinct, Everything, Moved, New, Names;
  }

  lemma StillAttested(cp: Checkpoint, cp': Checkpoint, out: seq<Entry>, refs: seq<Reference>, b: Entry, t: Entry, q: nat)
    requires Transition(cp, cp', out, refs) && Moved(b, t, q)
    ensures Attests(cp.receipts, b) ==> Attests(cp'.receipts, t)
    ensures AcceptedAs(cp.receipts, b) ==> AcceptedAs(cp'.receipts, t)
  {
    hide Transition, Distinct, Everything;
    TransitionBasics(cp, cp', out, refs);
    forall i | 0 <= i < |cp.receipts| && cp.receipts[i].Acceptance? ensures cp'.receipts[i] == cp.receipts[i] {
      Split(cp, cp', out, refs, i);
    }
  }

  /** Of two entries after the transition with one name, both are the same. */
  lemma OneName(cp: Checkpoint, cp': Checkpoint, out: seq<Entry>, refs: seq<Reference>, s: Entry, t: Entry)
    requires Transition(cp, cp', out, refs)
    requires s in Live(cp') || s in out
    requires t in Live(cp') || t in out
    requires s.Id() == t.Id()
    ensures s == t
  {
    hide Transition, Live, Numbered;
    TransitionBasics(cp, cp', out, refs);
    assert s in Everything(cp', out) && t in Everything(cp', out);
  }

  lemma OutIsGone(cp: Checkpoint, cp': Checkpoint, out: seq<Entry>, refs: seq<Reference>, e: Entry)
    requires Transition(cp, cp', out, refs) && e in out
    ensures e !in Live(cp')
  {
    hide Transition, Live, Everything;
    var j :| 0 <= j < |out| && out[j] == e;
    OutWasLiveOrNew(cp, cp', out, refs, j);
  }

  lemma StillProduced(cp: Checkpoint, cp': Checkpoint, out: seq<Entry>, refs: seq<Reference>, b: Entry, t: Entry)
    requires Coherent(cp) && Transition(cp, cp', out, refs) && b in Live(cp) && ProducedAs(cp.receipts, b)
    requires t in Live(cp') && Moved(b, t, cp.record.aggregate.nextQueue)
    ensures ProducedAs(cp'.receipts, t)
  {
    hide Transition, Coherent, Live, Fate;
    var i, k :| 0 <= i < |cp.receipts| && 0 <= k < |cp.receipts[i].Refs()| && Names(cp.receipts[i].Refs()[k], b);
    RefFate(cp, cp', out, refs, i, k);
    FollowsEntry(cp, cp', out, refs, t, cp.receipts[i].Refs()[k], cp'.receipts[i].Refs()[k]);
  }

  /** A mailbox reference to the event of a live entry names that entry afterwards. */
  lemma FollowsEntry(cp: Checkpoint, cp': Checkpoint, out: seq<Entry>, refs: seq<Reference>, t: Entry, r: Reference, r': Reference)
    requires cp.record.Retained? && Transition(cp, cp', out, refs) && Fate(cp, cp', out, r, r')
    requires t in Live(cp') && r.MailboxRef? && r.eventId == t.Id()
    ensures Names(r', t)
  {
    hide Transition, Live, EndedAt;
    var e :| e in Live(cp) && Names(r, e) && (Requeued(cp, cp', e, r, r') || EndedAt(cp, out, e, r, r'));
    assert Names(r, e);
    assert r.eventId == e.Id();
    MovedHasNotEnded(cp, cp', out, refs, e, t, r, r');
    assert Requeued(cp, cp', e, r, r');
    var s :| s in Live(cp') && Moved(e, s, cp.record.aggregate.nextQueue) && Names(r', s);
    OneName(cp, cp', out, refs, s, t);
  }

  lemma MovedHasNotEnded(cp: Checkpoint, cp': Checkpoint, out: seq<Entry>, refs: seq<Reference>, e: Entry, t: Entry, r: Reference, r': Reference)
    requires Transition(cp, cp', out, refs) && t in Live(cp') && t.Id() == e.Id()
    ensures !EndedAt(cp, out, e, r, r')
  {
    hide Transition, Live;
    if EndedAt(cp, out, e, r, r') {
      OneName(cp, cp', out, refs, e, t);
      OutIsGone(cp, cp', out, refs, e);
    }
  }

  /** An entry that an emission reference of the new receipt announces. */
  lemma AnnouncedProduced(cp: Checkpoint, cp': Checkpoint, out: seq<Entry>, refs: seq<Reference>, t: Entry, k: nat)
    requires Transition(cp, cp', out, refs) && k < |refs| && Names(refs[k], t)
    ensures ProducedAs(cp'.receipts, t)
  {
    hide Transition, Distinct, Everything, Names;
    TransitionBasics(cp, cp', out, refs);
    RefsNeedOut(cp, cp', out, refs);
    Split(cp, cp', out, refs, |cp.receipts|);
    assert Names(cp'.receipts[|cp.receipts|].Refs()[k], t);
  }

  /** A source of the new aggregate is the host exactly for input. */
  lemma SourceKind(root: Text, runtimes: seq<Runtime>, t: Entry)
    requires SourceOk(root, runtimes, t)
    ensures t.mode.Internal? <==> !t.envelope.source.HostSource?
  {
  }

  lemma NewSourceKind(cp: Checkpoint, cp': Checkpoint, out: seq<Entry>, refs: seq<Reference>, t: Entry)
    requires Transition(cp, cp', out, refs) && t in Live(cp')
    ensures t.mode.Internal? <==> !t.envelope.source.HostSource?
  {
    hide Transition, MailOf, Mailboxes, Below, Everything, SourceOk;
    RecordBasics(cp, cp', out, refs);
    SourceKind(cp'.record.aggregate.root, cp'.record.aggregate.runtimes, t);
  }

  lemma NewTraceable(cp: Checkpoint, cp': Checkpoint, out: seq<Entry>, refs: seq<Reference>)
    requires Coherent(cp) && Transition(cp, cp', out, refs)
    ensures Traceable(cp')
  {
    hide Transition, Coherent, Live, TerminalsExplained, ReferencesOk, Attests, ProducedAs, Names;
    ValidReferences(cp);
    forall t | t in Live(cp') ensures Originates(cp'.receipts, t) {
      LiveComesFrom(cp, cp', out, refs, t);
      NewSourceKind(cp, cp', out, refs, t);
      if b :| b in Live(cp) && Moved(b, t, cp.record.aggregate.nextQueue) {
        assert Originates(cp.receipts, b);
        StillAttested(cp, cp', out, refs, b, t, cp.record.aggregate.nextQueue);
        if ProducedAs(cp.receipts, b) {
          StillProduced(cp, cp', out, refs, b, t);
        }
      } else {
        var k :| 0 <= k < |refs| && Names(refs[k], t);
        AnnouncedProduced(cp, cp', out, refs, t, k);
      }
    }
  }

  lemma NewProvenance(cp: Checkpoint, cp': Checkpoint, out: seq<Entry>, refs: seq<Reference>)
    requires Coherent(cp) && ProvenanceOk(cp) && Transition(cp, cp', out, refs)
    ensures ProvenanceOk(cp')
  {
    hide Transition, Coherent, Live, AcceptedAs, ProducedAs, Names;
    forall t | t in Live(cp') ensures if t.mode.Input? then AcceptedAs(cp'.receipts, t) else ProducedAs(cp'.receipts, t) {
      LiveComesFrom(cp, cp', out, refs, t);
      if b :| b in Live(cp) && Moved(b, t, cp.record.aggregate.nextQueue) {
        if b.mode.Input? {
          StillAttested(cp, cp', out, refs, b, t, cp.record.aggregate.nextQueue);
        } else {
          StillProduced(cp, cp', out, refs, b, t);
        }
      } else {
        var k :| 0 <= k < |refs| && Names(refs[k], t);
        AnnouncedProduced(cp, cp', out, refs, t, k);
      }
    }
  }
}
