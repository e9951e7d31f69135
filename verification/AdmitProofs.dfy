/** Admission preserves the invariant exactly for input deliveries. */
module AdmitProofs {
  import opened CheckpointModel
  import opened CheckpointValidity
  import opened WireCore
  import opened StepContract
  import opened StepTheorem
  import opened AdmissionProofs
  import opened Transitions
  import opened TransitionEvents
  import opened TransitionRefs
  import opened TransitionTheorem
  import opened CheckpointOps
  import opened IdentityProofs
  import opened RootProofs

  /** A delivery that core admission accepts for an event of which the checkpoint knows nothing. */
  ghost predicate Acceptable(cp: Checkpoint, d: Delivery) {
    && cp.record.Retained?
    && !Known(cp, d.envelope.eventId)
    && Targeted(cp.record.aggregate, d) && Attested(cp.root, d) && SourceAllowed(cp.record.aggregate, d)
  }

  /** The deliveries of one admission, already reduced to the unknown ones. */
  ghost predicate Arriving(cp: Checkpoint, ds: seq<Delivery>) {
    && cp.record.Retained?
    && (forall k :: 0 <= k < |ds| ==> Acceptable(cp, ds[k]))
    && (forall k, l :: 0 <= k < l < |ds| ==> ds[k].envelope.eventId != ds[l].envelope.eventId)
  }

  predicate AllInput(ds: seq<Delivery>) {
    forall k :: 0 <= k < |ds| ==> ds[k].mode.Input?
  }

  /** `t` was live before, or is the entry of one of the deliveries. */
  ghost predicate LiveOrArrived(cp: Checkpoint, ds: seq<Delivery>, t: Entry)
    requires cp.record.Retained?
  {
    t in Live(cp) || exists k :: 0 <= k < |ds| && t == Admitted(cp.record.aggregate, ds[k], k)
  }

  /** The checkpoint after an admission, up to the layout of its mailboxes. */
  ghost predicate Extends(cp: Checkpoint, ds: seq<Delivery>, cp': Checkpoint) {
    && cp.record.Retained? && cp'.record.Retained?
    && Arriving(cp, ds)
    && Admission(cp.record.aggregate, ds, cp'.record.aggregate)
    && cp' == AdmitInto(cp, cp.record.aggregate, cp'.record.aggregate, ds)
  }

  lemma ExtendsFacts(cp: Checkpoint, ds: seq<Delivery>, cp': Checkpoint)
    requires Extends(cp, ds, cp')
    ensures cp.record.Retained? && cp'.record.Retained?
    ensures var a, b := cp.record.aggregate, cp'.record.aggregate;
            && b == a.(nextAcceptance := a.nextAcceptance + |ds|, nextQueue := a.nextQueue + |ds|, runtimes := b.runtimes)
            && Ready(b)
    ensures |cp'.receipts| == |cp.receipts| + |ds| && cp'.nextReceipt == cp.nextReceipt + |ds|
    ensures cp'.revision == cp.revision + 1 && cp'.retention == cp.retention && cp'.root == cp.root
    ensures cp'.tombstones == cp.tombstones && cp'.pending == cp.pending && cp'.terminals == cp.terminals
    ensures cp'.compacted == cp.compacted && cp'.nextTerminal == cp.nextTerminal
  {
    hide Arriving, Ready;
  }

  lemma ArrivedLive(cp: Checkpoint, ds: seq<Delivery>, cp': Checkpoint, t: Entry)
    requires Extends(cp, ds, cp')
    ensures cp.record.Retained?
    ensures t in Live(cp') <==> LiveOrArrived(cp, ds, t)
  {
    hide Arriving, Ready, MailOf, Admitted;
  }

  lemma ReceiptAt(cp: Checkpoint, ds: seq<Delivery>, cp': Checkpoint, i: int)
    requires Extends(cp, ds, cp') && 0 <= i < |cp'.receipts|
    ensures i < |cp.receipts| ==> cp'.receipts[i] == cp.receipts[i]
    ensures i >= |cp.receipts| ==>
              var k := i - |cp.receipts|;
              && cp.record.Retained? && 0 <= k < |ds|
              && cp'.receipts[i] == Acceptance(cp.nextReceipt + k, ds[k].envelope.eventId, ds[k].digest,
                                              cp.record.aggregate.nextAcceptance + k, cp.revision + 1, ds[k].mode)
  {
    hide Arriving, Admission;
  }

  lemma ArrivingAt(cp: Checkpoint, ds: seq<Delivery>, cp': Checkpoint, k: nat)
    requires Extends(cp, ds, cp') && k < |ds|
    ensures cp.record.Retained? && Acceptable(cp, ds[k]) && Admitted(cp.record.aggregate, ds[k], k) in Live(cp')
    ensures !IsLive(cp, ds[k].envelope.eventId) && !Ended(cp.receipts, ds[k].envelope.eventId) && !Buried(cp.tombstones, ds[k].envelope.eventId)
    ensures forall l :: 0 <= l < |ds| && l != k ==> ds[l].envelope.eventId != ds[k].envelope.eventId
  {
    hide Admission, Acceptable, IsLive, Ended, Buried, Live;
    assert LiveOrArrived(cp, ds, Admitted(cp.record.aggregate, ds[k], k));
    ArrivedLive(cp, ds, cp', Admitted(cp.record.aggregate, ds[k], k));
    assert Acceptable(cp, ds[k]);
    AcceptableUnknown(cp, ds[k]);
  }

  lemma AcceptableUnknown(cp: Checkpoint, d: Delivery)
    requires Acceptable(cp, d)
    ensures !Known(cp, d.envelope.eventId)
  {
  }

  lemma StillLive(cp: Checkpoint, ds: seq<Delivery>, cp': Checkpoint, id: Text)
    requires Extends(cp, ds, cp')
    ensures IsLive(cp', id) <==> IsLive(cp, id) || exists k :: 0 <= k < |ds| && ds[k].envelope.eventId == id
  {
    hide Extends, Live;
    if IsLive(cp', id) {
      var t :| t in Live(cp') && t.Id() == id;
      ArrivedLive(cp, ds, cp', t);
    }
    if IsLive(cp, id) {
      var t :| t in Live(cp) && t.Id() == id;
      ArrivedLive(cp, ds, cp', t);
    }
    if k :| 0 <= k < |ds| && ds[k].envelope.eventId == id {
      ArrivingAt(cp, ds, cp', k);
    }
  }

  lemma StillEndedIff(cp: Checkpoint, ds: seq<Delivery>, cp': Checkpoint, id: Text)
    requires Extends(cp, ds, cp')
    ensures Ended(cp'.receipts, id) <==> Ended(cp.receipts, id)
  {
    hide Extends;
    ExtendsFacts(cp, ds, cp');
    if Ended(cp'.receipts, id) {
      var i :| 0 <= i < |cp'.receipts| && cp'.receipts[i].Terminal? && cp'.receipts[i].eventId == id;
      ReceiptAt(cp, ds, cp', i);
    }
    if Ended(cp.receipts, id) {
      var i :| 0 <= i < |cp.receipts| && cp.receipts[i].Terminal? && cp.receipts[i].eventId == id;
      ReceiptAt(cp, ds, cp', i);
    }
  }

  // ------------------------------------------------------------------------------------------
  // Receipts, numbers and digests
  // ------------------------------------------------------------------------------------------

  /** Old receipts stay; new ones are acceptances with the next numbers. */
  lemma AllReceipts(cp: Checkpoint, ds: seq<Delivery>, cp': Checkpoint)
    requires Extends(cp, ds, cp')
    ensures cp.record.Retained? && cp'.record.Retained? && |cp'.receipts| == |cp.receipts| + |ds|
    ensures forall i :: 0 <= i < |cp.receipts| ==> cp'.receipts[i] == cp.receipts[i]
    ensures forall i :: |cp.receipts| <= i < |cp'.receipts| ==>
              && cp'.receipts[i].Acceptance? && cp'.receipts[i].sequence == cp.nextReceipt + (i - |cp.receipts|)
              && cp'.receipts[i].acceptance == cp.record.aggregate.nextAcceptance + (i - |cp.receipts|)
              && cp'.receipts[i].revision == cp.revision + 1
  {
    hide Extends, Ready;
    ExtendsFacts(cp, ds, cp');
    forall i | 0 <= i < |cp'.receipts|
      ensures i < |cp.receipts| ==> cp'.receipts[i] == cp.receipts[i]
      ensures i >= |cp.receipts| ==> cp'.receipts[i].Acceptance? && cp'.receipts[i].sequence == cp.nextReceipt + (i - |cp.receipts|)
                                     && cp'.receipts[i].acceptance == cp.record.aggregate.nextAcceptance + (i - |cp.receipts|)
                                     && cp'.receipts[i].revision == cp.revision + 1
    {
      ReceiptAt(cp, ds, cp', i);
    }
  }

  lemma AdmitReceipts(cp: Checkpoint, ds: seq<Delivery>, cp': Checkpoint)
    requires Coherent(cp) && Extends(cp, ds, cp')
    ensures ReceiptsOk(cp') && UniqueTerminals(cp'.receipts)
  {
    hide Extends, Coherent, QueuesOk, Ready, AllocationsOk, UniqueAcceptances;
    ValidTerminals(cp);
    ExtendsFacts(cp, ds, cp');
    AllReceipts(cp, ds, cp');
  }

  lemma AdmitAcceptances(cp: Checkpoint, ds: seq<Delivery>, cp': Checkpoint)
    requires Coherent(cp) && Extends(cp, ds, cp')
    ensures UniqueAcceptances(cp'.receipts) && AllocationsOk(cp')
  {
    hide Extends, Coherent, QueuesOk, Ready, ReceiptsOk, UniqueTerminals;
    ValidTerminals(cp);
    ExtendsFacts(cp, ds, cp');
    AllReceipts(cp, ds, cp');
    forall i: nat, j: nat | i < j < |cp'.receipts| && cp'.receipts[i].Acceptance? && cp'.receipts[j].Acceptance?
      ensures cp'.receipts[i].eventId != cp'.receipts[j].eventId
    {
      AcceptancesApart(cp, ds, cp', i, j);
    }
  }

  lemma AdmitDigests(cp: Checkpoint, ds: seq<Delivery>, cp': Checkpoint)
    requires Coherent(cp) && Extends(cp, ds, cp')
    ensures DigestsOk(cp') && |cp'.receipts| >= 1 && cp'.receipts[0].Creation? && CreationOk(cp')
  {
    hide Extends, Coherent, QueuesOk, Ready, AllocationsOk, UniqueAcceptances, UniqueTerminals, CurrentDigest;
    ValidTerminals(cp);
    ValidDigests(cp);
    ExtendsFacts(cp, ds, cp');
    AllReceipts(cp, ds, cp');
  }

  lemma AcceptancesApart(cp: Checkpoint, ds: seq<Delivery>, cp': Checkpoint, i: nat, j: nat)
    requires Coherent(cp) && Extends(cp, ds, cp')
    requires i < j < |cp'.receipts| && cp'.receipts[i].Acceptance? && cp'.receipts[j].Acceptance?
    ensures cp'.receipts[i].eventId != cp'.receipts[j].eventId
  {
    hide Extends, Coherent, Live, IsLive, Ended, Buried, QueuesOk, Acceptable, Admitted, ReceiptsOk, AllocationsOk, UniqueTerminals;
    ValidTerminals(cp);
    ReceiptAt(cp, ds, cp', i);
    ReceiptAt(cp, ds, cp', j);
    if j >= |cp.receipts| {
      ArrivingAt(cp, ds, cp', j - |cp.receipts|);
      if i < |cp.receipts| {
        AcceptedIsKnown(cp, i);
      }
    }
  }

  // ------------------------------------------------------------------------------------------
  // Mailboxes
  // ------------------------------------------------------------------------------------------

  lemma AdmitSources(cp: Checkpoint, ds: seq<Delivery>, cp': Checkpoint)
    requires Inv(cp) && Extends(cp, ds, cp') && AllInput(ds)
    ensures cp'.record.Retained? && SourcesOk(cp'.record.aggregate)
  {
    hide Extends, Coherent, Sourced, MailOf, Ready, IsLive, Ended, Buried, SourceOk, Moved, Acceptable;
    ExtendsFacts(cp, ds, cp');
    InvReady(cp);
    ExtendsShape(cp, ds, cp');
    var a, b := cp.record.aggregate, cp'.record.aggregate;
    forall t | t in MailOf(b.runtimes) ensures SourceOk(b.root, b.runtimes, t) {
      ArrivedLive(cp, ds, cp', t);
      if t in Live(cp) {
        SameSource(a.root, a.runtimes, b.runtimes, t, t, 0) by { assert Moved(t, t, 0) by { MovedSelf(t); } }
      } else {
        var k :| 0 <= k < |ds| && t == Admitted(a, ds[k], k);
        ArrivingAt(cp, ds, cp', k);
        InputSource(cp, ds[k], t, b);
      }
    }
  }

  lemma AdmitMailboxes(cp: Checkpoint, ds: seq<Delivery>, cp': Checkpoint)
    requires Extends(cp, ds, cp')
    ensures cp'.record.Retained? && MailboxesOk(cp'.record.aggregate) && DistinctRuntimes(cp'.record.aggregate.runtimes)
  {
    hide Extends, Ready, MailboxesOk, DistinctRuntimes;
    ExtendsFacts(cp, ds, cp');
    ReadyParts(cp'.record.aggregate);
  }

  lemma MovedSelf(t: Entry)
    ensures Moved(t, t, 0)
  {
  }

  lemma InputSource(cp: Checkpoint, d: Delivery, t: Entry, b: Aggregate)
    requires Acceptable(cp, d) && d.mode.Input? && t.mode == d.mode && t.envelope == d.envelope
    ensures SourceOk(b.root, b.runtimes, t)
  {
    hide Known;
  }

  lemma ReadyParts(b: Aggregate)
    requires Ready(b)
    ensures MailboxesOk(b) && DistinctRuntimes(b.runtimes)
  {
    hide MailboxesOk, DistinctRuntimes;
  }

  lemma ExtendsShape(cp: Checkpoint, ds: seq<Delivery>, cp': Checkpoint)
    requires Extends(cp, ds, cp')
    ensures cp.record.Retained? && cp'.record.Retained?
    ensures var a, b := cp.record.aggregate, cp'.record.aggregate;
            |b.runtimes| == |a.runtimes| && forall i :: 0 <= i < |a.runtimes| ==> a.runtimes[i].id == b.runtimes[i].id
  {
    hide Arriving, Ready;
  }

  lemma AdmitProvenance(cp: Checkpoint, ds: seq<Delivery>, cp': Checkpoint)
    requires Inv(cp) && Extends(cp, ds, cp') && AllInput(ds)
    ensures ProvenanceOk(cp')
  {
    hide Extends, Coherent, SourcesOk, Live, Ready, IsLive, Ended, Buried, Acceptable;
    ExtendsFacts(cp, ds, cp');
    forall t | t in Live(cp') ensures if t.mode.Input? then AcceptedAs(cp'.receipts, t) else ProducedAs(cp'.receipts, t) {
      ArrivedLive(cp, ds, cp', t);
      if t in Live(cp) {
        forall i | 0 <= i < |cp.receipts| ensures cp'.receipts[i] == cp.receipts[i] {
          ReceiptAt(cp, ds, cp', i);
        }
      } else {
        var k :| 0 <= k < |ds| && t == Admitted(cp.record.aggregate, ds[k], k);
        ReceiptAt(cp, ds, cp', |cp.receipts| + k);
      }
    }
  }

  /** Whatever its mode, an admitted entry is attested by its acceptance receipt. */
  lemma AdmitTraceable(cp: Checkpoint, ds: seq<Delivery>, cp': Checkpoint)
    requires Coherent(cp) && Extends(cp, ds, cp')
    ensures Traceable(cp')
  {
    hide Extends, Coherent, Live, Ready, IsLive, Ended, Buried, Acceptable, ReferencesOk, TerminalsExplained;
    ValidReferences(cp);
    ExtendsFacts(cp, ds, cp');
    forall i | 0 <= i < |cp.receipts| ensures cp'.receipts[i] == cp.receipts[i] {
      ReceiptAt(cp, ds, cp', i);
    }
    forall t | t in Live(cp') ensures Originates(cp'.receipts, t) {
      ArrivedLive(cp, ds, cp', t);
      if t in Live(cp) {
        StillOriginates(cp.receipts, cp'.receipts, t);
      } else {
        var k :| 0 <= k < |ds| && t == Admitted(cp.record.aggregate, ds[k], k);
        ReceiptAt(cp, ds, cp', |cp.receipts| + k);
        ArrivingAt(cp, ds, cp', k);
        AllowedKind(cp, ds[k]);
        assert Attests(cp'.receipts, t);
      }
    }
  }

  lemma AllowedKind(cp: Checkpoint, d: Delivery)
    requires Acceptable(cp, d)
    ensures d.mode.Internal? <==> !d.envelope.source.HostSource?
  {
    hide Known, Targeted, Attested;
  }

  lemma StillOriginates(rs: seq<Receipt>, ss: seq<Receipt>, e: Entry)
    requires |rs| <= |ss| && (forall i :: 0 <= i < |rs| ==> ss[i] == rs[i]) && Originates(rs, e)
    ensures Originates(ss, e)
  {
    hide Names;
    if ProducedAs(rs, e) {
      var i, k :| 0 <= i < |rs| && 0 <= k < |rs[i].Refs()| && Names(rs[i].Refs()[k], e);
      assert Names(ss[i].Refs()[k], e);
    }
  }

  lemma AdmitQueues(cp: Checkpoint, ds: seq<Delivery>, cp': Checkpoint)
    requires Coherent(cp) && Extends(cp, ds, cp')
    ensures QueuesOk(cp')
  {
    hide Extends, Coherent, Live, Ready, IsLive, Buried, Acceptable, UniqueAcceptances, UniqueTerminals, ReceiptsOk;
    ValidTerminals(cp);
    ExtendsFacts(cp, ds, cp');
    forall e, i | e in Live(cp') && 0 <= i < |cp'.receipts| && cp'.receipts[i].Terminal?
      ensures e.queue != cp'.receipts[i].finalQueue && e.Id() != cp'.receipts[i].eventId
    {
      ArrivedLive(cp, ds, cp', e);
      ReceiptAt(cp, ds, cp', i);
      if e !in Live(cp) {
        var k :| 0 <= k < |ds| && e == Admitted(cp.record.aggregate, ds[k], k);
        ArrivingAt(cp, ds, cp', k);
      }
    }
  }

  // ------------------------------------------------------------------------------------------
  // Events
  // ------------------------------------------------------------------------------------------

  lemma AdmitLead(cp: Checkpoint, ds: seq<Delivery>, cp': Checkpoint)
    requires Coherent(cp) && Extends(cp, ds, cp')
    ensures AcceptancesLead(cp')
  {
    hide Extends, Coherent, Live, IsLive, Ended, TombstonesOk, OwnersOk;
    ValidLead(cp);
    forall i | 0 <= i < |cp'.receipts| && cp'.receipts[i].Acceptance?
      ensures IsLive(cp', cp'.receipts[i].eventId) || Ended(cp'.receipts, cp'.receipts[i].eventId)
    {
      ReceiptAt(cp, ds, cp', i);
      StillLive(cp, ds, cp', cp'.receipts[i].eventId);
      StillEndedIff(cp, ds, cp', cp'.receipts[i].eventId);
    }
  }

  lemma AdmitTombstones(cp: Checkpoint, ds: seq<Delivery>, cp': Checkpoint)
    requires Coherent(cp) && Extends(cp, ds, cp')
    ensures TombstonesOk(cp')
  {
    hide Extends, Coherent, Live, Ready, IsLive, Ended, Acceptable, Admitted, AcceptancesLead, OwnersOk;
    ValidLead(cp);
    ExtendsFacts(cp, ds, cp');
    var ts := cp.tombstones;
    forall i | 0 <= i < |ts|
      ensures !IsLive(cp', ts[i].eventId) && !Ended(cp'.receipts, ts[i].eventId) && !Accepted(cp'.receipts, ts[i].eventId)
    {
      forall k | 0 <= k < |ds| ensures ds[k].envelope.eventId != ts[i].eventId {
        ArrivingAt(cp, ds, cp', k);
      }
      StillLive(cp, ds, cp', ts[i].eventId);
      StillEndedIff(cp, ds, cp', ts[i].eventId);
      forall j | 0 <= j < |cp'.receipts| && cp'.receipts[j].Acceptance? ensures cp'.receipts[j].eventId != ts[i].eventId {
        ReceiptAt(cp, ds, cp', j);
      }
    }
    forall i, j | 0 <= i < |ts| && 0 <= j < |cp'.receipts| && cp'.receipts[j].Terminal? ensures cp'.receipts[j].sequence != ts[i].terminal {
      ReceiptAt(cp, ds, cp', j);
    }
  }

  lemma OwnerBeforeAdmit(cp: Checkpoint, ds: seq<Delivery>, cp': Checkpoint, n: nat, id: Text)
    requires Coherent(cp) && Extends(cp, ds, cp') && Owns(cp', n, id)
    ensures cp.record.Retained?
    ensures var next := cp.record.aggregate.nextAcceptance;
            if n < next then Owns(cp, n, id) else n - next < |ds| && ds[n - next].envelope.eventId == id
  {
    hide Extends, Coherent, Live, Ready, UniqueAcceptances, UniqueTerminals, ReceiptsOk, QueuesOk;
    ValidTerminals(cp);
    ExtendsFacts(cp, ds, cp');
    if e :| e in Live(cp') && e.acceptance == n && e.Id() == id {
      ArrivedLive(cp, ds, cp', e);
      if e in Live(cp) {
        EntryNumber(cp, e);
      }
    } else if i :| 0 <= i < |cp'.receipts| && !cp'.receipts[i].Creation? && cp'.receipts[i].acceptance == n && cp'.receipts[i].eventId == id {
      ReceiptAt(cp, ds, cp', i);
    }
  }

  lemma EntryNumber(cp: Checkpoint, e: Entry)
    requires Coherent(cp) && cp.record.Retained? && e in Live(cp)
    ensures e.acceptance < cp.record.aggregate.nextAcceptance
  {
    hide Coherent, Live;
    CoherentIsConsistent(cp);
    LiveNumbers(cp, e);
  }

  lemma AdmitOwners(cp: Checkpoint, ds: seq<Delivery>, cp': Checkpoint)
    requires Coherent(cp) && Extends(cp, ds, cp')
    ensures OwnersOk(cp')
  {
    hide Extends, Coherent, Owns, AcceptancesLead, TombstonesOk;
    ValidLead(cp);
    forall n, id, id' | Owns(cp', n, id) && Owns(cp', n, id') ensures id == id' {
      OwnerBeforeAdmit(cp, ds, cp', n, id);
      OwnerBeforeAdmit(cp, ds, cp', n, id');
    }
  }

  // ------------------------------------------------------------------------------------------
  // References
  // ------------------------------------------------------------------------------------------

  lemma RefsAt(cp: Checkpoint, ds: seq<Delivery>, cp': Checkpoint, i: int)
    requires Extends(cp, ds, cp') && 0 <= i < |cp'.receipts|
    ensures cp'.receipts[i].Refs() == if i < |cp.receipts| then cp.receipts[i].Refs() else []
  {
    hide Extends;
    ReceiptAt(cp, ds, cp', i);
  }

  lemma SameConcerns(cp: Checkpoint, ds: seq<Delivery>, cp': Checkpoint, i: int, k: int, id: Text)
    requires Extends(cp, ds, cp')
    ensures Concerns(cp'.receipts, i, k, id) <==> Concerns(cp.receipts, i, k, id)
  {
    hide Extends, Ready;
    ExtendsFacts(cp, ds, cp');
    if 0 <= i < |cp'.receipts| {
      RefsAt(cp, ds, cp', i);
    }
  }

  lemma AdmitReferences(cp: Checkpoint, ds: seq<Delivery>, cp': Checkpoint)
    requires Coherent(cp) && Extends(cp, ds, cp')
    ensures ReferencesOk(cp')
  {
    hide Extends, Coherent, Concerns, ProvenanceOk, TerminalsExplained, LiveReference, EndedReference;
    ValidReferences(cp);
    forall i, k, j, l, id | Concerns(cp'.receipts, i, k, id) && Concerns(cp'.receipts, j, l, id) ensures i == j && k == l {
      SameConcerns(cp, ds, cp', i, k, id);
      SameConcerns(cp, ds, cp', j, l, id);
    }
    forall i, k | 0 <= i < |cp'.receipts| && 0 <= k < |cp'.receipts[i].Refs()|
      ensures ReferenceOk(cp', i, cp'.receipts[i].Refs()[k])
    {
      RefsAt(cp, ds, cp', i);
      StillReferenceOk(cp, ds, cp', i, cp.receipts[i].Refs()[k]) by { assert ReferenceOk(cp, i, cp.receipts[i].Refs()[k]); }
    }
  }

  lemma StillReferenceOk(cp: Checkpoint, ds: seq<Delivery>, cp': Checkpoint, i: nat, r: Reference)
    requires Extends(cp, ds, cp') && i < |cp.receipts| && ReferenceOk(cp, i, r)
    ensures i < |cp'.receipts| && ReferenceOk(cp', i, r)
  {
    hide Extends, Live, Ready;
    ExtendsFacts(cp, ds, cp');
    ReceiptAt(cp, ds, cp', i);
    if r.MailboxRef? {
      var e :| e in Live(cp) && e.mode.Internal? && Names(r, e);
      ArrivedLive(cp, ds, cp', e);
    } else if r.TerminalRef? {
      if j :| 0 <= j < |cp.receipts| && EndsIn(r, cp.receipts[j]) && cp.receipts[i].sequence < cp.receipts[j].sequence
              && cp.receipts[i].revision <= cp.receipts[j].revision {
        ReceiptAt(cp, ds, cp', j);
        assert EndsIn(r, cp'.receipts[j]);
      }
    }
  }

  lemma AdmitExplained(cp: Checkpoint, ds: seq<Delivery>, cp': Checkpoint)
    requires Coherent(cp) && Extends(cp, ds, cp')
    ensures TerminalsExplained(cp')
  {
    hide Extends, Coherent, HasAcceptance, HasProducer, ProvenanceOk, ReferencesOk, Ready;
    ValidReferences(cp);
    ExtendsFacts(cp, ds, cp');
    forall i | 0 <= i < |cp'.receipts| && cp'.receipts[i].Terminal? ensures Explained(cp', cp'.receipts[i]) {
      ReceiptAt(cp, ds, cp', i);
      SameExplanation(cp, ds, cp', i);
    }
  }

  lemma SameExplanation(cp: Checkpoint, ds: seq<Delivery>, cp': Checkpoint, i: nat)
    requires Coherent(cp) && Extends(cp, ds, cp') && i < |cp.receipts| && cp.receipts[i].Terminal?
    ensures HasAcceptance(cp'.receipts, cp.receipts[i]) <==> HasAcceptance(cp.receipts, cp.receipts[i])
    ensures HasProducer(cp'.receipts, cp.receipts[i]) <==> HasProducer(cp.receipts, cp.receipts[i])
  {
    hide Extends, Coherent, Ready, UniqueAcceptances, UniqueTerminals, AllocationsOk, QueuesOk;
    ValidTerminals(cp);
    ExtendsFacts(cp, ds, cp');
    var t := cp.receipts[i];
    forall j | 0 <= j < |cp'.receipts| && Admits(cp'.receipts[j], t) ensures j < |cp.receipts| && cp'.receipts[j] == cp.receipts[j] {
      ReceiptAt(cp, ds, cp', j);
    }
    forall j | 0 <= j < |cp.receipts| ensures cp'.receipts[j] == cp.receipts[j] {
      ReceiptAt(cp, ds, cp', j);
    }
    if HasProducer(cp'.receipts, t) {
      var j, k :| 0 <= j < |cp'.receipts| && 0 <= k < |cp'.receipts[j].Refs()| && EndsIn(cp'.receipts[j].Refs()[k], t);
      RefsAt(cp, ds, cp', j);
    }
    if HasProducer(cp.receipts, t) {
      var j, k :| 0 <= j < |cp.receipts| && 0 <= k < |cp.receipts[j].Refs()| && EndsIn(cp.receipts[j].Refs()[k], t);
      assert EndsIn(cp'.receipts[j].Refs()[k], t);
    }
  }

  // ------------------------------------------------------------------------------------------
  // Effects and strengthening
  // ------------------------------------------------------------------------------------------

  lemma SameRefersTo(cp: Checkpoint, ds: seq<Delivery>, cp': Checkpoint, i: int, k: int, f: Text)
    requires Extends(cp, ds, cp')
    ensures RefersTo(cp'.receipts, i, k, f) <==> RefersTo(cp.receipts, i, k, f)
  {
    hide Extends, Ready;
    ExtendsFacts(cp, ds, cp');
    if 0 <= i < |cp'.receipts| {
      RefsAt(cp, ds, cp', i);
    }
  }

  lemma AdmitEffects(cp: Checkpoint, ds: seq<Delivery>, cp': Checkpoint)
    requires Coherent(cp) && Extends(cp, ds, cp')
    ensures StagesOk(cp') && EffectsOk(cp')
  {
    hide Extends, Coherent, Ready, Referenced;
    ValidEffects(cp);
    ExtendsFacts(cp, ds, cp');
    forall f ensures Referenced(cp'.receipts, f) <==> Referenced(cp.receipts, f) {
      SameReferenced(cp, ds, cp', f);
    }
    forall i, k, j, l |
      && 0 <= i < |cp'.receipts| && 0 <= k < |cp'.receipts[i].Refs()| && cp'.receipts[i].Refs()[k].OutboxRef?
      && 0 <= j < |cp'.receipts| && 0 <= l < |cp'.receipts[j].Refs()| && cp'.receipts[j].Refs()[l].OutboxRef?
      && cp'.receipts[i].Refs()[k].effectId == cp'.receipts[j].Refs()[l].effectId
      ensures i == j && k == l
    {
      RefsAt(cp, ds, cp', i);
      RefsAt(cp, ds, cp', j);
    }
  }

  lemma SameReferenced(cp: Checkpoint, ds: seq<Delivery>, cp': Checkpoint, f: Text)
    requires Extends(cp, ds, cp')
    ensures Referenced(cp'.receipts, f) <==> Referenced(cp.receipts, f)
  {
    hide Extends;
    if Referenced(cp'.receipts, f) {
      var i, k :| 0 <= i < |cp'.receipts| && 0 <= k < |cp'.receipts[i].Refs()| && cp'.receipts[i].Refs()[k].OutboxRef? && cp'.receipts[i].Refs()[k].effectId == f;
      SameRefersTo(cp, ds, cp', i, k, f);
    }
    if Referenced(cp.receipts, f) {
      var i, k :| 0 <= i < |cp.receipts| && 0 <= k < |cp.receipts[i].Refs()| && cp.receipts[i].Refs()[k].OutboxRef? && cp.receipts[i].Refs()[k].effectId == f;
      SameRefersTo(cp, ds, cp', i, k, f);
    }
  }

  lemma AdmitStrong(cp: Checkpoint, ds: seq<Delivery>, cp': Checkpoint)
    requires Coherent(cp) && Extends(cp, ds, cp')
    ensures Strong(cp')
  {
    hide Extends, Coherent, Sourced, Ready, Concerns, Admits, DistinctRuntimes, MailboxesOk;
    StrongRest(cp);
    ExtendsFacts(cp, ds, cp');
    AdmitMailboxes(cp, ds, cp');
    forall i, j | 0 <= i < |cp'.receipts| && cp'.receipts[i].Acceptance? && 0 <= j < |cp'.receipts| && cp'.receipts[j].Terminal?
              && cp'.receipts[i].eventId == cp'.receipts[j].eventId
      ensures Admits(cp'.receipts[i], cp'.receipts[j])
    {
      StillAdmits(cp, ds, cp', i, j);
    }
    forall i, j, k | 0 <= j < |cp'.receipts| && cp'.receipts[j].Acceptance? ensures !Concerns(cp'.receipts, i, k, cp'.receipts[j].eventId) {
      StillNotBothAdmit(cp, ds, cp', i, j, k);
    }
  }

  lemma StillAdmits(cp: Checkpoint, ds: seq<Delivery>, cp': Checkpoint, i: nat, j: nat)
    requires Coherent(cp) && Extends(cp, ds, cp')
    requires i < |cp'.receipts| && cp'.receipts[i].Acceptance? && j < |cp'.receipts| && cp'.receipts[j].Terminal?
    requires cp'.receipts[i].eventId == cp'.receipts[j].eventId
    ensures Admits(cp'.receipts[i], cp'.receipts[j])
  {
    hide Extends, Coherent, IsLive, Buried, Acceptable, Live;
    ReceiptAt(cp, ds, cp', i);
    ReceiptAt(cp, ds, cp', j);
    if i < |cp.receipts| {
      OldAdmits(cp, i, j);
    } else {
      assert Ended(cp.receipts, cp'.receipts[j].eventId);
      ArrivingAt(cp, ds, cp', i - |cp.receipts|);
      assert false;
    }
  }

  lemma StillNotBothAdmit(cp: Checkpoint, ds: seq<Delivery>, cp': Checkpoint, i: int, j: int, k: int)
    requires Coherent(cp) && Extends(cp, ds, cp') && 0 <= j < |cp'.receipts| && cp'.receipts[j].Acceptance?
    ensures !Concerns(cp'.receipts, i, k, cp'.receipts[j].eventId)
  {
    hide Extends, Coherent, IsLive, Ended, Buried, Acceptable, Live, Concerns;
    var id := cp'.receipts[j].eventId;
    ReceiptAt(cp, ds, cp', j);
    SameConcerns(cp, ds, cp', i, k, id);
    if Concerns(cp.receipts, i, k, id) {
      if j < |cp.receipts| {
        NotBoth(cp, i, j, k);
      } else {
        ArrivingAt(cp, ds, cp', j - |cp.receipts|);
        ConcernedIsKnown(cp, i, k, id);
      }
    }
  }

  // ------------------------------------------------------------------------------------------
  // The theorem
  // ------------------------------------------------------------------------------------------

  /** An admission of whatever deliveries leaves a coherent checkpoint. */
  lemma ExtendsCoherent(cp: Checkpoint, ds: seq<Delivery>, cp': Checkpoint)
    requires Coherent(cp) && Extends(cp, ds, cp')
    ensures Coherent(cp')
  {
    hide Extends, Traceable, Strong, ReceiptsOk, UniqueAcceptances, UniqueTerminals, AllocationsOk, DigestsOk, CreationOk, MailboxesOk;
    hide AcceptancesLead, TombstonesOk, OwnersOk, QueuesOk, TerminalsExplained, ReferencesOk, StagesOk, EffectsOk, DistinctRuntimes;
    AdmitReceipts(cp, ds, cp');
    AdmitAcceptances(cp, ds, cp');
    AdmitDigests(cp, ds, cp');
    AdmitMailboxes(cp, ds, cp');
    AdmitTraceable(cp, ds, cp');
    AdmitLead(cp, ds, cp');
    AdmitTombstones(cp, ds, cp');
    AdmitOwners(cp, ds, cp');
    AdmitQueues(cp, ds, cp');
    AdmitExplained(cp, ds, cp');
    AdmitReferences(cp, ds, cp');
    AdmitEffects(cp, ds, cp');
    AdmitStrong(cp, ds, cp');
  }

  lemma ExtendsInv(cp: Checkpoint, ds: seq<Delivery>, cp': Checkpoint)
    requires Inv(cp) && Extends(cp, ds, cp') && AllInput(ds)
    ensures Inv(cp')
  {
    hide Extends, Coherent, SourcesOk, ProvenanceOk;
    ExtendsCoherent(cp, ds, cp');
    AdmitSources(cp, ds, cp');
    AdmitProvenance(cp, ds, cp');
  }
}
