/** The admission operation: redelivery, conflict, and what it means for the invariant. */
module AdmitTheorem {
  import opened Wrappers
  import opened CheckpointModel
  import opened CheckpointValidity
  import opened WireCore
  import opened StepTheorem
  import opened StepIdentity
  import opened AdmissionProofs
  import opened TransitionRefs
  import opened CheckpointOps
  import opened IdentityProofs
  import opened RootProofs
  import opened AdmitProofs

  predicate DistinctDeliveries(ds: seq<Delivery>) {
    forall k, l :: 0 <= k < l < |ds| ==> ds[k].envelope.eventId != ds[l].envelope.eventId
  }

  /** A batch has no problem exactly when its ids differ and none contradicts what is known. */
  lemma {:induction false} NoProblemIff(known: map<Text, Identity>, root: Text, ds: seq<Delivery>)
    ensures FirstProblem(known, root, ds).None? <==>
              && DistinctDeliveries(ds)
              && (forall k :: 0 <= k < |ds| && ds[k].envelope.eventId in known ==>
                    known[ds[k].envelope.eventId].digest == DigestOf(root, ds[k]))
  {
    if ds != [] {
      var init, d := ds[..|ds| - 1], ds[|ds| - 1];
      NoProblemIff(known, root, init);
      assert forall k :: 0 <= k < |init| ==> init[k] == ds[k];
      if FirstProblem(known, root, ds).Some? && FirstProblem(known, root, init).None? {
        if j :| 0 <= j < |init| && init[j].envelope.eventId == d.envelope.eventId {
          assert ds[j].envelope.eventId == ds[|ds| - 1].envelope.eventId;
        }
      }
    }
  }

  /** The unknown deliveries, in batch order. */
  lemma {:induction false} UnknownOf(known: map<Text, Identity>, ds: seq<Delivery>)
    requires DistinctDeliveries(ds)
    ensures DistinctDeliveries(Unknown(known, ds))
    ensures forall k :: 0 <= k < |Unknown(known, ds)| ==> Unknown(known, ds)[k] in ds && Unknown(known, ds)[k].envelope.eventId !in known
    ensures forall d :: d in ds && d.envelope.eventId !in known ==> d in Unknown(known, ds)
  {
    if ds != [] {
      var init, d := ds[..|ds| - 1], ds[|ds| - 1];
      UnknownOf(known, init);
      assert ds == init + [d];
      forall k | 0 <= k < |Unknown(known, init)| ensures Unknown(known, init)[k].envelope.eventId != d.envelope.eventId {
        var j :| 0 <= j < |init| && init[j] == Unknown(known, init)[k];
        assert ds[j] == init[j];
      }
    }
  }

  /** What core admission checked of a delivery that it took. */
  predicate Checked(a: Aggregate, d: Delivery) {
    SourceAllowed(a, d) && Targeted(a, d) && d.digest == DigestOf(a.root, d)
  }

  lemma CoreAdmitOk(a: Aggregate, ds: seq<Delivery>, accepts: Envelope -> bool)
    requires CoreAdmit(a, ds, accepts).Ok?
    ensures forall k :: 0 <= k < |ds| ==> Checked(a, ds[k]) && Targeted(a, ds[k])
    ensures CoreAdmit(a, ds, accepts).value == EnqueueAll(a, ds)
  {
    hide SourceAllowed, Targeted, EnqueueAll;
  }

  lemma UnseenAcceptable(cp: Checkpoint, d: Delivery)
    requires cp.record.Retained? && cp.record.aggregate.root == cp.root && Checked(cp.record.aggregate, d)
    requires d.envelope.target.root == cp.root && d.envelope.eventId !in RetainedIdentity(cp)
    ensures Acceptable(cp, d) && Attested(cp.root, d)
  {
    hide RetainedIdentity, SourceAllowed, Targeted, Known;
    KnownIff(cp, d.envelope.eventId);
  }

  /** The admitted checkpoint extends the current one by the unknown deliveries. */
  lemma AdmitExtends(cp: Checkpoint, ds: seq<Delivery>, accepts: Envelope -> bool)
    requires Inv(cp) && cp.record.Retained?
    requires forall k :: 0 <= k < |ds| ==> ds[k].envelope.target.root == cp.root
    requires FirstProblem(RetainedIdentity(cp), cp.root, ds).None?
    ensures var unseen := Unknown(RetainedIdentity(cp), ds);
            var a := cp.record.aggregate;
            CoreAdmit(a, unseen, accepts).Ok? ==> Extends(cp, unseen, AdmitInto(cp, a, CoreAdmit(a, unseen, accepts).value, unseen))
  {
    hide Coherent, Sourced, Ready, MailOf, RetainedIdentity, FirstProblem, Admission, EnqueueAll, Unknown, AdmitInto, DistinctDeliveries, SourcesOk;
    hide CoreAdmit, Checked, Acceptable, Targeted, Attested, FreshDeliveries;
    var known, a := RetainedIdentity(cp), cp.record.aggregate;
    var unseen := Unknown(known, ds);
    NoProblemIff(known, cp.root, ds);
    UnknownOf(known, ds);
    InvReady(cp);
    if CoreAdmit(a, unseen, accepts).Ok? {
      CoreAdmitOk(a, unseen, accepts);
      forall k | 0 <= k < |unseen| ensures Acceptable(cp, unseen[k]) && Attested(cp.root, unseen[k]) {
        UnseenAcceptable(cp, unseen[k]);
      }
      UnseenFresh(cp, unseen);
      EnqueueAllAdmits(a, unseen);
      AdmitRecord(cp, a, EnqueueAll(a, unseen), unseen);
      PairwiseDistinct(unseen);
    }
  }

  lemma PairwiseDistinct(ds: seq<Delivery>)
    requires DistinctDeliveries(ds)
    ensures forall k, l :: 0 <= k < l < |ds| ==> ds[k].envelope.eventId != ds[l].envelope.eventId
  {
  }

  lemma AdmitRecord(cp: Checkpoint, a: Aggregate, next: Aggregate, ds: seq<Delivery>)
    ensures AdmitInto(cp, a, next, ds).record == Retained(next)
  {
  }

  lemma UnseenFresh(cp: Checkpoint, ds: seq<Delivery>)
    requires cp.record.Retained? && DistinctDeliveries(ds) && forall k :: 0 <= k < |ds| ==> Acceptable(cp, ds[k])
    ensures FreshDeliveries(MailOf(cp.record.aggregate.runtimes), ds)
  {
    hide MailOf;
    forall k | 0 <= k < |ds| ensures !HasId(MailOf(cp.record.aggregate.runtimes), ds[k].envelope.eventId) {
      assert Acceptable(cp, ds[k]);
      assert !IsLive(cp, ds[k].envelope.eventId);
    }
  }

  /** An internal delivery has no producer, so the checkpoint that admits it is not valid. */
  lemma InternalIsInvalid(cp: Checkpoint, ds: seq<Delivery>, cp': Checkpoint, k: nat)
    requires Inv(cp) && Extends(cp, ds, cp') && k < |ds| && ds[k].mode.Internal?
    ensures !ProvenanceOk(cp')
  {
    hide Extends, Coherent, Sourced, Live, Acceptable, IsLive, Ended, Buried;
    ArrivingAt(cp, ds, cp', k);
    var t := Admitted(cp.record.aggregate, ds[k], k);
    if ProvenanceOk(cp') {
      assert ProducedAs(cp'.receipts, t);
      var i, l :| 0 <= i < |cp'.receipts| && 0 <= l < |cp'.receipts[i].Refs()| && Names(cp'.receipts[i].Refs()[l], t);
      RefsAt(cp, ds, cp', i);
      ProducedNumber(cp, i, l);
    }
  }

  /** A mailbox reference names an entry that exists. */
  lemma ProducedNumber(cp: Checkpoint, i: nat, l: nat)
    requires Inv(cp) && cp.record.Retained? && i < |cp.receipts| && l < |cp.receipts[i].Refs()| && cp.receipts[i].Refs()[l].MailboxRef?
    ensures cp.receipts[i].Refs()[l].acceptance < cp.record.aggregate.nextAcceptance
  {
    hide Coherent, Sourced, Live, ProvenanceOk, TerminalsExplained, UniqueProducers;
    ValidReferences(cp);
    var r := cp.receipts[i].Refs()[l];
    assert LiveReference(cp, r);
    var e :| e in Live(cp) && e.mode.Internal? && Names(r, e);
    assert Names(r, e);
    EntryNumber(cp, e);
  }

  lemma ProvenanceOfValid(cp: Checkpoint)
    requires Valid(cp)
    ensures ProvenanceOk(cp)
  {
  }

  /** Whether an extension is valid depends on the modes alone. */
  lemma ExtendsValidIff(cp: Checkpoint, ds: seq<Delivery>, cp': Checkpoint)
    requires Inv(cp) && Extends(cp, ds, cp')
    ensures Valid(cp') <==> AllInput(ds)
    ensures Inv(cp') <==> AllInput(ds)
  {
    hide Extends, Consistent, Sourced, Traceable, Strong, ProvenanceOk;
    if AllInput(ds) {
      ExtendsInv(cp, ds, cp');
    } else {
      var k :| 0 <= k < |ds| && !ds[k].mode.Input?;
      InternalIsInvalid(cp, ds, cp', k);
      if Valid(cp') {
        ProvenanceOfValid(cp');
      }
    }
  }

  /** If admission answers with another checkpoint, it is the extension by the unknown deliveries. */
  lemma AdmitAnswer(cp: Checkpoint, bundle: Option<Text>, ds: seq<Delivery>, g: Guard, accepts: Envelope -> bool)
    requires Inv(cp)
    ensures var r, unseen := Admit(cp, bundle, ds, g, accepts), Unknown(RetainedIdentity(cp), ds);
            After(cp, r) != cp ==> unseen != [] && Extends(cp, unseen, After(cp, r)) && (r.value.Next? <==> |ds| == 1)
  {
    hide Coherent, Sourced, RetainedIdentity, FirstProblem, Unknown, Extends, CoreAdmit, AdmitInto, Members, StatusOf;
    if |ds| > 0 && cp.record.Retained? && FirstProblem(RetainedIdentity(cp), cp.root, ds).None?
       && forall k :: 0 <= k < |ds| ==> ds[k].envelope.target.root == cp.root {
      AdmitExtends(cp, ds, accepts);
    }
  }

  /**
   Admission, which never re-validates its result, preserves the invariant exactly when it
   admits input deliveries only.
   */
  lemma AdmitInvIff(cp: Checkpoint, bundle: Option<Text>, ds: seq<Delivery>, g: Guard, accepts: Envelope -> bool)
    requires Inv(cp)
    ensures var next := After(cp, Admit(cp, bundle, ds, g, accepts));
            next != cp ==> (Inv(next) <==> AllInput(Unknown(RetainedIdentity(cp), ds)))
                           && (Valid(next) <==> AllInput(Unknown(RetainedIdentity(cp), ds)))
  {
    hide Consistent, Sourced, Traceable, Strong, RetainedIdentity, Unknown, Extends, Admit, AllInput;
    AdmitAnswer(cp, bundle, ds, g, accepts);
    var next := After(cp, Admit(cp, bundle, ds, g, accepts));
    if next != cp {
      ExtendsValidIff(cp, Unknown(RetainedIdentity(cp), ds), next);
    }
  }

  /** A redelivery under the known digest is answered from evidence; another digest is a conflict. Neither mutates. */
  lemma RedeliveryAnswer(cp: Checkpoint, bundle: Option<Text>, d: Delivery, g: Guard, accepts: Envelope -> bool)
    requires Inv(cp) && d.envelope.target.root == cp.root && Known(cp, d.envelope.eventId)
    ensures var known, id := RetainedIdentity(cp), d.envelope.eventId;
            && id in known
            && Admit(cp, bundle, [d], g, accepts)
               == (if Bears(cp, id, DigestOf(cp.root, d)) then Ok(Replayed(known[id].evidence)) else Err(EventIdConflict))
  {
    hide Coherent, Sourced, RetainedIdentity, Bears, Known;
    var id := d.envelope.eventId;
    KnownIff(cp, id);
    IdentityIff(cp, id, DigestOf(cp.root, d));
    assert [d][..0] == [];
    assert FirstProblem(RetainedIdentity(cp), cp.root, []) == None;
    assert Unknown(RetainedIdentity(cp), []) == [];
  }

  // ------------------------------------------------------------------------------------------
  // Batches
  // ------------------------------------------------------------------------------------------

  /** Each delivery has its member: the evidence about a known event, or the numbers of an admitted one. */
  lemma {:induction false} MembersAt(known: map<Text, Identity>, a: Option<Aggregate>, ds: seq<Delivery>, k: nat)
    requires k < |ds| && (a.Some? || Unknown(known, ds) == [])
    ensures |Members(known, a, ds)| == |ds|
    ensures var id := ds[k].envelope.eventId;
            Members(known, a, ds)[k] ==
              if id in known then ReplayedMember(id, known[id].evidence)
              else
                var n := |Unknown(known, ds[..k])|;
                if a.Some? then AcceptedMember(id, a.value.nextAcceptance + n, a.value.nextQueue + n) else Members(known, a, ds)[k]
  {
    var init, last := ds[..|ds| - 1], ds[|ds| - 1];
    if k < |init| {
      MembersAt(known, a, init, k);
      assert init[..k] == ds[..k] && init[k] == ds[k];
    } else if init != [] {
      MembersAt(known, a, init, 0);
      assert ds[..k] == init;
    } else {
      assert ds[..k] == init;
    }
  }

  /** A known event inside a batch is replayed from evidence; under another digest the batch fails. */
  lemma BatchReplays(cp: Checkpoint, bundle: Option<Text>, ds: seq<Delivery>, g: Guard, accepts: Envelope -> bool, k: nat)
    requires |ds| > 1 && k < |ds| && ds[k].envelope.eventId in RetainedIdentity(cp)
    ensures var answer, known, id := Admit(cp, bundle, ds, g, accepts), RetainedIdentity(cp), ds[k].envelope.eventId;
            && (known[id].digest != DigestOf(cp.root, ds[k]) ==> answer.Err?)
            && (answer.Ok? ==>
                  answer.value.Batch? && |answer.value.members| == |ds| && answer.value.members[k] == ReplayedMember(id, known[id].evidence))
  {
    hide RetainedIdentity, FirstProblem, Unknown, Members, CoreAdmit, AdmitInto, StatusOf, Holds;
    var known := RetainedIdentity(cp);
    NoProblemIff(known, cp.root, ds);
    if Unknown(known, ds) == [] {
      MembersAt(known, None, ds, k);
    }
    if cp.record.Retained? {
      MembersAt(known, Some(cp.record.aggregate), ds, k);
    }
  }

  /** An admission appends acceptances of unknown events only. */
  lemma AdmitsUnknown(cp: Checkpoint, bundle: Option<Text>, ds: seq<Delivery>, g: Guard, accepts: Envelope -> bool, x: nat)
    requires Inv(cp) && |cp.receipts| <= x < |After(cp, Admit(cp, bundle, ds, g, accepts)).receipts|
    ensures var r := After(cp, Admit(cp, bundle, ds, g, accepts)).receipts[x]; r.Acceptance? && r.eventId !in RetainedIdentity(cp)
  {
    hide Coherent, Sourced, RetainedIdentity, Unknown, Extends, Admit, Ready, Acceptable, Known;
    AdmitAnswer(cp, bundle, ds, g, accepts);
    var next, unseen := After(cp, Admit(cp, bundle, ds, g, accepts)), Unknown(RetainedIdentity(cp), ds);
    ExtendsFacts(cp, unseen, next);
    ReceiptAt(cp, unseen, next, x);
    UnknownAreUnknown(RetainedIdentity(cp), ds, x - |cp.receipts|);
  }

  lemma {:induction false} UnknownAreUnknown(known: map<Text, Identity>, ds: seq<Delivery>, k: nat)
    requires k < |Unknown(known, ds)|
    ensures Unknown(known, ds)[k].envelope.eventId !in known
  {
    var init := ds[..|ds| - 1];
    if k < |Unknown(known, init)| {
      UnknownAreUnknown(known, init, k);
    }
  }
}
