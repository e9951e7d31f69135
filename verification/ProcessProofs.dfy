/**
 Processing a delivery in one commit is admission followed by a step of the target's ready head,
 except that everything new carries one revision instead of two; the invariant survives that.
 */
module ProcessProofs {
  import opened Wrappers
  import opened CheckpointModel
  import opened CheckpointValidity
  import opened WireCore
  import opened WireCoreProofs
  import opened StepTheorem
  import opened AdmissionProofs
  import opened Transitions
  import opened TransitionEvents
  import opened TransitionRefs
  import opened TransitionTheorem
  import opened CheckpointOps
  import opened IdentityProofs
  import opened RootProofs
  import opened AdmitProofs
  import opened AdmitTheorem
  import opened StepPreservation
  import PruneProofs

  // ------------------------------------------------------------------------------------------
  // Clipping revisions
  // ------------------------------------------------------------------------------------------

  function Min(a: nat, b: nat): nat {
    if a < b then a else b
  }

  function ClipReceipt(r: Receipt, limit: nat): Receipt {
    r.(revision := Min(r.revision, limit))
  }

  function ClipPending(p: PendingEffect, limit: nat): PendingEffect {
    p.(revision := Min(p.revision, limit))
  }

  /** Every revision above `limit` is lowered to it; nothing else changes. */
  function Clip(cp: Checkpoint, limit: nat): Checkpoint {
    cp.(revision := Min(cp.revision, limit),
        receipts := seq(|cp.receipts|, i requires 0 <= i < |cp.receipts| => ClipReceipt(cp.receipts[i], limit)),
        pending := seq(|cp.pending|, i requires 0 <= i < |cp.pending| => ClipPending(cp.pending[i], limit)))
  }

  /** One commit may lower its revision to `limit`: no earlier terminal carries that revision. */
  ghost predicate Clippable(cp: Checkpoint, limit: nat) {
    && cp.revision == limit + 1 && limit > 0
    && (forall i :: 0 <= i < |cp.receipts| && cp.receipts[i].Terminal? ==> cp.receipts[i].revision != limit)
    && (forall i :: 0 <= i < |cp.terminals| ==> cp.terminals[i].revision <= limit)
  }

  lemma ClipAt(cp: Checkpoint, limit: nat, i: int)
    requires 0 <= i < |cp.receipts|
    ensures var c := Clip(cp, limit);
            && |c.receipts| == |cp.receipts|
            && c.receipts[i] == ClipReceipt(cp.receipts[i], limit)
            && c.receipts[i].Refs() == cp.receipts[i].Refs()
  {
  }

  lemma ClipBasics(cp: Checkpoint, limit: nat)
    ensures var c := Clip(cp, limit);
            && |c.receipts| == |cp.receipts| && |c.pending| == |cp.pending|
            && c.root == cp.root && c.record == cp.record && c.retention == cp.retention && c.nextReceipt == cp.nextReceipt
            && c.tombstones == cp.tombstones && c.nextTerminal == cp.nextTerminal && c.terminals == cp.terminals
            && c.compacted == cp.compacted && c.revision == Min(cp.revision, limit) && Live(c) == Live(cp)
            && (forall i :: 0 <= i < |cp.pending| ==> c.pending[i] == ClipPending(cp.pending[i], limit))
  {
  }

  lemma ClipAll(cp: Checkpoint, limit: nat)
    ensures var c := Clip(cp, limit);
            |c.receipts| == |cp.receipts| && forall i :: 0 <= i < |cp.receipts| ==> c.receipts[i] == ClipReceipt(cp.receipts[i], limit)
  {
  }

  lemma ClipReceipts(cp: Checkpoint, limit: nat)
    requires Coherent(cp)
    ensures var c := Clip(cp, limit); ReceiptsOk(c) && UniqueAcceptances(c.receipts) && UniqueTerminals(c.receipts)
  {
    hide Coherent, Clip, Live, AllocationsOk, QueuesOk;
    ValidTerminals(cp);
    ClipBasics(cp, limit);
    ClipAll(cp, limit);
  }

  lemma ClipNumbers(cp: Checkpoint, limit: nat)
    requires Coherent(cp)
    ensures var c := Clip(cp, limit); AllocationsOk(c) && QueuesOk(c)
  {
    hide Coherent, Clip, Live, ReceiptsOk, UniqueAcceptances, UniqueTerminals;
    ValidTerminals(cp);
    ClipBasics(cp, limit);
    ClipAll(cp, limit);
  }

  lemma ClipDigests(cp: Checkpoint, limit: nat)
    requires Coherent(cp) && Clippable(cp, limit)
    ensures var c := Clip(cp, limit); DigestsOk(c) && |c.receipts| >= 1 && c.receipts[0].Creation? && CreationOk(c)
  {
    hide Coherent, Clip, Live, CurrentDigest, AllocationsOk, QueuesOk, UniqueAcceptances, UniqueTerminals;
    ValidTerminals(cp);
    ValidDigests(cp);
    ClipBasics(cp, limit);
    ClipAll(cp, limit);
    var c := Clip(cp, limit);
    SameRecord(cp, c);
    forall i | 0 <= i < |cp.receipts| && cp.receipts[i].Terminal? && c.receipts[i].revision == limit
      ensures cp.receipts[i].revision == cp.revision
    {
    }
  }

  lemma SameRecord(cp: Checkpoint, c: Checkpoint)
    requires c.record == cp.record
    ensures CurrentDigest(c) == CurrentDigest(cp) && RecordedCreation(c) == RecordedCreation(cp)
  {
  }

  lemma ClipEnded(cp: Checkpoint, limit: nat, id: Text)
    ensures var c := Clip(cp, limit);
            && (Ended(c.receipts, id) <==> Ended(cp.receipts, id))
            && (Accepted(c.receipts, id) <==> Accepted(cp.receipts, id))
            && (IsLive(c, id) <==> IsLive(cp, id))
  {
    hide Clip, Live;
    ClipBasics(cp, limit);
    var c := Clip(cp, limit);
    forall i | 0 <= i < |cp.receipts| ensures c.receipts[i] == ClipReceipt(cp.receipts[i], limit) {
      ClipAt(cp, limit, i);
    }
  }

  lemma ClipEvents(cp: Checkpoint, limit: nat)
    requires Coherent(cp)
    ensures var c := Clip(cp, limit); AcceptancesLead(c) && TombstonesOk(c)
  {
    hide Coherent, Clip, Live, OwnersOk, Ended, Accepted, IsLive;
    ValidLead(cp);
    ClipBasics(cp, limit);
    var c := Clip(cp, limit);
    forall i | 0 <= i < |cp.receipts| ensures c.receipts[i] == ClipReceipt(cp.receipts[i], limit) {
      ClipAt(cp, limit, i);
    }
    forall i | 0 <= i < |cp.receipts| && cp.receipts[i].Acceptance? ensures IsLive(c, cp.receipts[i].eventId) || Ended(c.receipts, cp.receipts[i].eventId) {
      ClipEnded(cp, limit, cp.receipts[i].eventId);
    }
    forall i | 0 <= i < |cp.tombstones|
      ensures !IsLive(c, cp.tombstones[i].eventId) && !Ended(c.receipts, cp.tombstones[i].eventId) && !Accepted(c.receipts, cp.tombstones[i].eventId)
    {
      ClipEnded(cp, limit, cp.tombstones[i].eventId);
    }
  }

  lemma ClipOwners(cp: Checkpoint, limit: nat)
    requires Coherent(cp)
    ensures OwnersOk(Clip(cp, limit))
  {
    hide Coherent, Clip, Live, AcceptancesLead, TombstonesOk;
    ValidLead(cp);
    ClipBasics(cp, limit);
    var c := Clip(cp, limit);
    forall i | 0 <= i < |cp.receipts| ensures c.receipts[i] == ClipReceipt(cp.receipts[i], limit) {
      ClipAt(cp, limit, i);
    }
    forall n, id | Owns(c, n, id) ensures Owns(cp, n, id) {
      if i :| 0 <= i < |c.receipts| && !c.receipts[i].Creation? && c.receipts[i].acceptance == n && c.receipts[i].eventId == id {
        assert cp.receipts[i].acceptance == n;
      }
    }
  }

  lemma ClipSources(cp: Checkpoint, limit: nat, e: Entry)
    ensures var rs, ss := cp.receipts, Clip(cp, limit).receipts;
            && (AcceptedAs(ss, e) <==> AcceptedAs(rs, e))
            && (Attests(ss, e) <==> Attests(rs, e))
            && (ProducedAs(ss, e) <==> ProducedAs(rs, e))
  {
    hide Clip, Names;
    ClipBasics(cp, limit);
    var rs, ss := cp.receipts, Clip(cp, limit).receipts;
    forall i | 0 <= i < |rs| ensures ss[i] == ClipReceipt(rs[i], limit) && ss[i].Refs() == rs[i].Refs() {
      ClipAt(cp, limit, i);
    }
    if ProducedAs(rs, e) {
      var i, k :| 0 <= i < |rs| && 0 <= k < |rs[i].Refs()| && Names(rs[i].Refs()[k], e);
      assert Names(ss[i].Refs()[k], e);
    }
  }

  /** Where entries come from does not depend on revisions. */
  lemma ClipProvenance(cp: Checkpoint, limit: nat)
    ensures Traceable(Clip(cp, limit)) <==> Traceable(cp)
    ensures Sourced(Clip(cp, limit)) <==> Sourced(cp)
  {
    hide Clip, Live, AcceptedAs, ProducedAs, Attests, SourcesOk;
    ClipBasics(cp, limit);
    forall e ensures Originates(Clip(cp, limit).receipts, e) <==> Originates(cp.receipts, e) {
      ClipSources(cp, limit, e);
    }
    forall e ensures AcceptedAs(Clip(cp, limit).receipts, e) <==> AcceptedAs(cp.receipts, e) {
      ClipSources(cp, limit, e);
    }
    forall e ensures ProducedAs(Clip(cp, limit).receipts, e) <==> ProducedAs(cp.receipts, e) {
      ClipSources(cp, limit, e);
    }
  }

  lemma ClipReference(cp: Checkpoint, limit: nat, i: nat, r: Reference)
    requires i < |cp.receipts| && ReferenceOk(cp, i, r)
    ensures i < |Clip(cp, limit).receipts| && ReferenceOk(Clip(cp, limit), i, r)
  {
    hide Clip, Live, Names;
    ClipBasics(cp, limit);
    ClipAt(cp, limit, i);
    var c := Clip(cp, limit);
    if r.TerminalRef? {
      if j :| 0 <= j < |cp.receipts| && EndsIn(r, cp.receipts[j]) && cp.receipts[i].sequence < cp.receipts[j].sequence
              && cp.receipts[i].revision <= cp.receipts[j].revision {
        ClipAt(cp, limit, j);
        assert EndsIn(r, cp.receipts[j]);
        assert EndsIn(r, c.receipts[j]);
      }
    }
  }

  lemma ClipConcerns(cp: Checkpoint, limit: nat, i: int, k: int, id: Text)
    ensures Concerns(Clip(cp, limit).receipts, i, k, id) <==> Concerns(cp.receipts, i, k, id)
  {
    hide Clip;
    ClipBasics(cp, limit);
    if 0 <= i < |cp.receipts| {
      ClipAt(cp, limit, i);
    }
  }

  lemma ClipReferences(cp: Checkpoint, limit: nat)
    requires Coherent(cp)
    ensures ReferencesOk(Clip(cp, limit))
  {
    hide Coherent, Clip, Concerns, LiveReference, EndedReference, Traceable, TerminalsExplained;
    ValidReferences(cp);
    ClipBasics(cp, limit);
    var c := Clip(cp, limit);
    forall i, k, j, l, id | Concerns(c.receipts, i, k, id) && Concerns(c.receipts, j, l, id) ensures i == j && k == l {
      ClipConcerns(cp, limit, i, k, id);
      ClipConcerns(cp, limit, j, l, id);
    }
    forall i, k | 0 <= i < |c.receipts| && 0 <= k < |c.receipts[i].Refs()| ensures ReferenceOk(c, i, c.receipts[i].Refs()[k]) {
      ClipAt(cp, limit, i);
      assert ReferenceOk(cp, i, cp.receipts[i].Refs()[k]);
      ClipReference(cp, limit, i, cp.receipts[i].Refs()[k]);
    }
  }

  lemma ClipExplanation(cp: Checkpoint, limit: nat, i: nat)
    requires Coherent(cp) && i < |cp.receipts| && cp.receipts[i].Terminal?
    ensures var c := Clip(cp, limit);
            && i < |c.receipts|
            && (HasAcceptance(c.receipts, c.receipts[i]) <==> HasAcceptance(cp.receipts, cp.receipts[i]))
            && (HasProducer(c.receipts, c.receipts[i]) <==> HasProducer(cp.receipts, cp.receipts[i]))
  {
    hide Coherent, Clip;
    ClipBasics(cp, limit);
    var c := Clip(cp, limit);
    forall j | 0 <= j < |cp.receipts| ensures c.receipts[j] == ClipReceipt(cp.receipts[j], limit) && c.receipts[j].Refs() == cp.receipts[j].Refs() {
      ClipAt(cp, limit, j);
    }
    if HasAcceptance(c.receipts, c.receipts[i]) {
      var j :| 0 <= j < |c.receipts| && Admits(c.receipts[j], c.receipts[i]);
      OldAdmits(cp, j, i);
    }
    if HasAcceptance(cp.receipts, cp.receipts[i]) {
      var j :| 0 <= j < |cp.receipts| && Admits(cp.receipts[j], cp.receipts[i]);
      assert Admits(c.receipts[j], c.receipts[i]);
    }
    if HasProducer(c.receipts, c.receipts[i]) {
      var j, k :| 0 <= j < |c.receipts| && 0 <= k < |c.receipts[j].Refs()| && EndsIn(c.receipts[j].Refs()[k], c.receipts[i]);
      assert EndsIn(cp.receipts[j].Refs()[k], cp.receipts[i]);
    }
    if HasProducer(cp.receipts, cp.receipts[i]) {
      var j, k :| 0 <= j < |cp.receipts| && 0 <= k < |cp.receipts[j].Refs()| && EndsIn(cp.receipts[j].Refs()[k], cp.receipts[i]);
      assert EndsIn(c.receipts[j].Refs()[k], c.receipts[i]);
    }
  }

  lemma ClipExplained(cp: Checkpoint, limit: nat)
    requires Coherent(cp)
    ensures TerminalsExplained(Clip(cp, limit))
  {
    hide Coherent, Clip, HasAcceptance, HasProducer, Traceable, ReferencesOk;
    ValidReferences(cp);
    ClipBasics(cp, limit);
    var c := Clip(cp, limit);
    forall i | 0 <= i < |c.receipts| && c.receipts[i].Terminal? ensures Explained(c, c.receipts[i]) {
      ClipAt(cp, limit, i);
      ClipExplanation(cp, limit, i);
    }
  }

  lemma ClipEffects(cp: Checkpoint, limit: nat)
    requires Coherent(cp) && Clippable(cp, limit)
    ensures var c := Clip(cp, limit); StagesOk(c) && EffectsOk(c)
  {
    hide Coherent, Clip;
    ValidEffects(cp);
    ClipBasics(cp, limit);
    var c := Clip(cp, limit);
    forall i | 0 <= i < |cp.receipts| ensures c.receipts[i].Refs() == cp.receipts[i].Refs() {
      ClipAt(cp, limit, i);
    }
    forall f ensures Referenced(c.receipts, f) <==> Referenced(cp.receipts, f) {
      ClipReferenced(cp, limit, f);
    }
    forall f ensures IsPending(c, f) <==> IsPending(cp, f) {
      ClipIsPending(cp, limit, f);
    }
  }

  lemma ClipReferenced(cp: Checkpoint, limit: nat, f: Text)
    ensures Referenced(Clip(cp, limit).receipts, f) <==> Referenced(cp.receipts, f)
  {
    hide Clip;
    ClipBasics(cp, limit);
    var c := Clip(cp, limit);
    if Referenced(c.receipts, f) {
      var i, k :| 0 <= i < |c.receipts| && 0 <= k < |c.receipts[i].Refs()| && c.receipts[i].Refs()[k].OutboxRef? && c.receipts[i].Refs()[k].effectId == f;
      ClipAt(cp, limit, i);
    }
    if Referenced(cp.receipts, f) {
      var i, k :| 0 <= i < |cp.receipts| && 0 <= k < |cp.receipts[i].Refs()| && cp.receipts[i].Refs()[k].OutboxRef? && cp.receipts[i].Refs()[k].effectId == f;
      ClipAt(cp, limit, i);
    }
  }

  lemma ClipIsPending(cp: Checkpoint, limit: nat, f: Text)
    ensures IsPending(Clip(cp, limit), f) <==> IsPending(cp, f)
  {
    hide Clip;
    ClipBasics(cp, limit);
    var c := Clip(cp, limit);
    if IsPending(cp, f) {
      var i :| 0 <= i < |cp.pending| && cp.pending[i].intent.effectId == f;
      assert c.pending[i].intent.effectId == f;
    }
  }

  lemma ClipStrong(cp: Checkpoint, limit: nat)
    requires Coherent(cp)
    ensures Strong(Clip(cp, limit))
  {
    hide Coherent, Clip, Concerns, DistinctRuntimes;
    StrongRest(cp);
    ClipBasics(cp, limit);
    var c := Clip(cp, limit);
    forall i, j | 0 <= i < |c.receipts| && c.receipts[i].Acceptance? && 0 <= j < |c.receipts| && c.receipts[j].Terminal?
              && c.receipts[i].eventId == c.receipts[j].eventId
      ensures Admits(c.receipts[i], c.receipts[j])
    {
      ClipAt(cp, limit, i);
      ClipAt(cp, limit, j);
      OldAdmits(cp, i, j);
    }
    forall i, j, k | 0 <= j < |c.receipts| && c.receipts[j].Acceptance? ensures !Concerns(c.receipts, i, k, c.receipts[j].eventId) {
      ClipAt(cp, limit, j);
      ClipConcerns(cp, limit, i, k, c.receipts[j].eventId);
      NotBoth(cp, i, j, k);
    }
    PruneProofs.DistinctRecord(cp);
  }

  /** Lowering the revision of the last commit keeps a checkpoint coherent and changes no verdict of validation. */
  lemma ClipCoherent(cp: Checkpoint, limit: nat)
    requires Coherent(cp) && Clippable(cp, limit)
    ensures Coherent(Clip(cp, limit))
    ensures Valid(Clip(cp, limit)) <==> Valid(cp)
  {
    hide Clip, Clippable, Sourced, Traceable, Strong, ReceiptsOk, UniqueAcceptances, UniqueTerminals, AllocationsOk, DigestsOk, CreationOk, MailboxesOk;
    hide AcceptancesLead, TombstonesOk, OwnersOk, QueuesOk, TerminalsExplained, ReferencesOk, StagesOk, EffectsOk;
    ClipBasics(cp, limit);
    PruneProofs.PrunedRecord(cp);
    ClipReceipts(cp, limit);
    ClipNumbers(cp, limit);
    ClipDigests(cp, limit);
    ClipEvents(cp, limit);
    ClipOwners(cp, limit);
    ClipProvenance(cp, limit);
    ClipReferences(cp, limit);
    ClipExplained(cp, limit);
    ClipEffects(cp, limit);
    ClipStrong(cp, limit);
  }

  // ------------------------------------------------------------------------------------------
  // Process
  // ------------------------------------------------------------------------------------------

  /** `stepped` is `cp` with one delivery admitted and then one step taken. */
  ghost predicate AdmittedAndStepped(cp: Checkpoint, d: Delivery, admitted: Checkpoint, stepped: Checkpoint, out: seq<Entry>, refs: seq<Reference>) {
    Extends(cp, [d], admitted) && Transition(admitted, stepped, out, refs)
  }

  lemma SteppedReceipt(cp: Checkpoint, d: Delivery, admitted: Checkpoint, stepped: Checkpoint, out: seq<Entry>, refs: seq<Reference>, i: int)
    requires Coherent(cp) && Coherent(stepped) && AdmittedAndStepped(cp, d, admitted, stepped, out, refs) && 0 <= i < |stepped.receipts|
    ensures stepped.revision == cp.revision + 2
    ensures i < |cp.receipts| <==> stepped.receipts[i].sequence < cp.nextReceipt
    ensures i < |cp.receipts| ==> stepped.receipts[i].revision <= cp.revision
    ensures i == |cp.receipts| ==> stepped.receipts[i].Acceptance? && stepped.receipts[i].revision == cp.revision + 1
    ensures i > |cp.receipts| ==> stepped.receipts[i].Terminal? && stepped.receipts[i].revision == cp.revision + 2
  {
    hide Coherent, Extends, Transition, Distinct, Everything, AllocationsOk, QueuesOk, UniqueAcceptances, UniqueTerminals, Ready, CurrentDigest;
    ExtendsFacts(cp, [d], admitted);
    TransitionBasics(admitted, stepped, out, refs);
    ValidTerminals(cp);
    ValidTerminals(stepped);
    Split(admitted, stepped, out, refs, i);
    if i < |admitted.receipts| {
      ReceiptAt(cp, [d], admitted, i);
    }
    assert stepped.retention == cp.retention;
  }

  /** Collapsing the two revisions into one is clipping. */
  lemma CollapseIsClip(cp: Checkpoint, d: Delivery, admitted: Checkpoint, stepped: Checkpoint, out: seq<Entry>, refs: seq<Reference>)
    requires Coherent(cp) && Coherent(stepped) && AdmittedAndStepped(cp, d, admitted, stepped, out, refs)
    ensures Collapse(cp, stepped) == Clip(stepped, cp.revision + 1) && Clippable(stepped, cp.revision + 1)
  {
    hide Coherent, AdmittedAndStepped, StagesOk, EffectsOk;
    forall i | 0 <= i < |stepped.receipts|
      ensures CollapseReceipt(stepped.receipts[i], cp.nextReceipt, cp.revision + 1) == ClipReceipt(stepped.receipts[i], cp.revision + 1)
      ensures stepped.receipts[i].Terminal? ==> stepped.receipts[i].revision != cp.revision + 1
    {
      SteppedReceipt(cp, d, admitted, stepped, out, refs, i);
    }
    SteppedOutbox(cp, d, admitted, stepped, out, refs);
    assert Collapse(cp, stepped).receipts == Clip(stepped, cp.revision + 1).receipts;
    assert Collapse(cp, stepped).pending == Clip(stepped, cp.revision + 1).pending;
  }

  lemma SteppedOutbox(cp: Checkpoint, d: Delivery, admitted: Checkpoint, stepped: Checkpoint, out: seq<Entry>, refs: seq<Reference>)
    requires Coherent(cp) && AdmittedAndStepped(cp, d, admitted, stepped, out, refs)
    ensures stepped.revision == cp.revision + 2
    ensures forall i :: 0 <= i < |stepped.terminals| ==> stepped.terminals[i].revision <= cp.revision
  {
    hide Coherent, Extends, Transition, Distinct, Everything, Ready, EffectsOk, AnnouncesEffect, NewPending, IsPending, IsTerminal, IsCompacted;
    ExtendsFacts(cp, [d], admitted);
    TransitionBasics(admitted, stepped, out, refs);
    EffectsOf(admitted, stepped, out, refs);
    ValidEffects(cp);
  }

  lemma {:induction false} FindReadyFound(rs: seq<Runtime>, id: Text)
    ensures FindReady(rs, id) == |rs| ==> forall j, k :: 0 <= j < |rs| && 0 <= k < |rs[j].ready| ==> rs[j].ready[k].Id() != id
    ensures FindReady(rs, id) < |rs| ==> exists k :: 0 <= k < |rs[FindReady(rs, id)].ready| && rs[FindReady(rs, id)].ready[k].Id() == id
  {
    if rs != [] {
      FindReadyFound(rs[1..], id);
      if FindReady(rs, id) == |rs| {
        forall j, k | 0 <= j < |rs| && 0 <= k < |rs[j].ready| ensures rs[j].ready[k].Id() != id {
          if j > 0 {
            assert rs[1..][j - 1] == rs[j];
          }
        }
      }
    }
  }

  /** An event with a ready entry is found, in the runtime it is addressed to. */
  lemma FindReadyTarget(a: Aggregate, e: Entry, i: nat, k: nat)
    requires Ready(a) && i < |a.runtimes| && k < |a.runtimes[i].ready| && a.runtimes[i].ready[k] == e
    ensures FindReady(a.runtimes, e.Id()) == i == Find(a.runtimes, e.envelope.target.runtime) && Runnable(a, i)
  {
    hide MailOf, FindReady, Numbered, Below, Ready;
    FindReadyFound(a.runtimes, e.Id());
    ReadyParts(a);
    ReadyDistinct(a);
    var j := FindReady(a.runtimes, e.Id());
    assert j < |a.runtimes|;
    var l :| 0 <= l < |a.runtimes[j].ready| && a.runtimes[j].ready[l].Id() == e.Id();
    var f := a.runtimes[j].ready[l];
    assert e in Mail(a.runtimes[i]) && f in Mail(a.runtimes[j]);
    MailMember(a.runtimes, e);
    MailMember(a.runtimes, f);
    assert e == f;
    assert BoxesOk(a.root, a.runtimes[i]) && BoxesOk(a.root, a.runtimes[j]);
    assert Addressed(a.root, a.runtimes[i].id, e) && Addressed(a.root, a.runtimes[j].id, e);
    FindUnique(a.runtimes, i);
  }

  /** A single delivery ends up at the end of its target's ready mailbox. */
  lemma EnqueuedReady(a: Aggregate, d: Delivery)
    requires Targeted(a, d)
    ensures forall k :: 0 <= k < |[d]| ==> Targeted(a, [d][k])
    ensures var b, i := EnqueueAll(a, [d]), Find(a.runtimes, d.envelope.target.runtime);
            && i < |b.runtimes| && b.runtimes[i].ready == a.runtimes[i].ready + [Admitted(a, d, 0)]
  {
    assert [d][..0] == [];
    assert EnqueueAll(a, []) == a;
    SameFind(a.runtimes, a.runtimes, d.envelope.target.runtime);
  }

  /** What the admission of one unknown delivery yields. */
  lemma AdmittedOne(cp: Checkpoint, bundle: Text, d: Delivery, g: Guard, accepts: Envelope -> bool)
    requires Inv(cp) && d.envelope.eventId !in RetainedIdentity(cp) && Admit(cp, Some(bundle), [d], g, accepts).Ok?
    ensures var answer := Admit(cp, Some(bundle), [d], g, accepts);
            && answer.value.Next?
            && var admitted := answer.value.next;
               && cp.record.Retained? && Targeted(cp.record.aggregate, d)
               && cp.record.aggregate.fingerprint == bundle
               && Extends(cp, [d], admitted)
               && admitted.record == Retained(EnqueueAll(cp.record.aggregate, [d]))
  {
    hide Coherent, Sourced, RetainedIdentity, Extends, StatusOf, Holds, EnqueueAll, Checked;
    assert [d][..0] == [];
    var known := RetainedIdentity(cp);
    assert Unknown(known, []) == [];
    assert Unknown(known, [d]) == [d];
    AdmitAnswer(cp, Some(bundle), [d], g, accepts);
    CoreAdmitOk(cp.record.aggregate, [d], accepts);
    assert Targeted(cp.record.aggregate, [d][0]);
  }

  /** The entry that the step of a process consumes. */
  lemma ProcessHead(cp: Checkpoint, d: Delivery, admitted: Checkpoint)
    requires Coherent(cp) && Extends(cp, [d], admitted) && cp.record.Retained? && Targeted(cp.record.aggregate, d)
    requires admitted.record == Retained(EnqueueAll(cp.record.aggregate, [d]))
    ensures var a := admitted.record.aggregate; var i := Find(a.runtimes, d.envelope.target.runtime);
            FindReady(a.runtimes, d.envelope.eventId) == i && Runnable(a, i)
  {
    hide Coherent, Extends, Ready, EnqueueAll, FindReady, Targeted;
    ExtendsFacts(cp, [d], admitted);
    EnqueuedReady(cp.record.aggregate, d);
    var a, i := admitted.record.aggregate, Find(cp.record.aggregate.runtimes, d.envelope.target.runtime);
    var e := Admitted(cp.record.aggregate, d, 0);
    FindReadyTarget(a, e, i, |cp.record.aggregate.runtimes[i].ready|);
  }

  /** The request for a step of entry `e`. */
  function RequestFor(e: Entry): StepRequest {
    StepRequest(e.envelope.target.runtime, e.Id(), e.digest, e.acceptance, e.queue)
  }

  /** A step requested for the ready head is not a replay. */
  lemma HeadIsNoReplay(cp: Checkpoint, e: Entry)
    requires Coherent(cp) && cp.record.Retained? && e in Live(cp)
    ensures StepReplay(cp, RequestFor(e)) == Ok(None)
  {
    hide Coherent, Live, SourceOk;
    CoherentIsConsistent(cp);
    LiveNumbers(cp, e);
  }

  lemma HeadAddressed(a: Aggregate, i: nat)
    requires Ready(a) && Runnable(a, i)
    ensures a.runtimes[i].ready[0].envelope.target.runtime == a.runtimes[i].id && Find(a.runtimes, a.runtimes[i].id) == i
  {
    hide MailOf, Distinct, Below;
    assert a.runtimes[i].ready[0] in Mail(a.runtimes[i]);
    assert BoxesOk(a.root, a.runtimes[i]);
    FindUnique(a.runtimes, i);
  }

  /** A step requested for a ready head applies the core step to it. */
  lemma HeadStep(cp: Checkpoint, bundle: Text, i: nat, dispatch: Dispatch)
    requires Coherent(cp) && CanStep(cp, i) && cp.record.aggregate.fingerprint == bundle
    ensures var a := cp.record.aggregate; var head := a.runtimes[i].ready[0];
            StepCheckpoint(cp, bundle, RequestFor(head), Guard(None, None), dispatch) == ApplyStep(cp, head, Step(a, a.runtimes[i].id, dispatch))
  {
    hide Coherent, Live, Ready, Step, ApplyStep, StepReplay;
    InvReady(cp);
    HeadIsLive(cp, i);
    HeadAddressed(cp.record.aggregate, i);
    HeadIsNoReplay(cp, cp.record.aggregate.runtimes[i].ready[0]);
  }

  /** The receipts that a collapse touches are those that the two steps appended. */
  lemma CollapseResembles(cp: Checkpoint, stepped: Checkpoint)
    ensures Resembles(stepped, Collapse(cp, stepped))
  {
  }

  /**
   Of an admission followed by a step, validation accepts the collapsed checkpoint exactly when
   it accepts the stepped one; the collapsed one then is the clipped one.
   */
  lemma CollapseValidIff(cp: Checkpoint, d: Delivery, admitted: Checkpoint, runtime: Text, dispatch: Dispatch)
    requires Coherent(cp) && Extends(cp, [d], admitted) && Coherent(admitted) && Dispatches(admitted, runtime, dispatch)
    requires admitted.record.Retained? && CanStep(admitted, Find(admitted.record.aggregate.runtimes, runtime))
    requires StepAnswer(admitted, runtime, dispatch).Ok? && StepAnswer(admitted, runtime, dispatch).value.Next?
    ensures var stepped := StepAnswer(admitted, runtime, dispatch).value.next;
            && (Valid(Collapse(cp, stepped)) <==> Valid(stepped))
            && (Valid(stepped) ==> Collapse(cp, stepped) == Clip(stepped, cp.revision + 1) && Inv(Collapse(cp, stepped)) && stepped.revision == cp.revision + 2)
  {
    hide Coherent, Extends, Dispatches, StepAnswer, Collapse, Clip, Clippable, Transition, Resembles, Valid, Inv;
    var stepped := StepAnswer(admitted, runtime, dispatch).value.next;
    ResemblesItself(stepped);
    CollapseResembles(cp, stepped);
    if Valid(stepped) {
      var out, refs := StepTransition(admitted, runtime, dispatch, stepped);
      Collapsed(cp, d, admitted, stepped, out, refs);
    } else if Valid(Collapse(cp, stepped)) {
      var out, refs := StepTransition(admitted, runtime, dispatch, Collapse(cp, stepped));
      Collapsed(cp, d, admitted, stepped, out, refs);
    }
  }

  lemma Collapsed(cp: Checkpoint, d: Delivery, admitted: Checkpoint, stepped: Checkpoint, out: seq<Entry>, refs: seq<Reference>)
    requires Coherent(cp) && Coherent(admitted) && AdmittedAndStepped(cp, d, admitted, stepped, out, refs)
    ensures Coherent(stepped) && Clippable(stepped, cp.revision + 1) && stepped.revision == cp.revision + 2
    ensures Collapse(cp, stepped) == Clip(stepped, cp.revision + 1) && Coherent(Collapse(cp, stepped))
    ensures Valid(Collapse(cp, stepped)) <==> Valid(stepped)
    ensures Valid(stepped) ==> Inv(Collapse(cp, stepped))
  {
    hide Coherent, Extends, Collapse, Clip, Clippable, Transition, Valid, Inv;
    TransitionCoherent(admitted, stepped, out, refs);
    CollapseIsClip(cp, d, admitted, stepped, out, refs);
    ClipCoherent(stepped, cp.revision + 1);
    ClippableRevision(stepped, cp.revision + 1);
    InvValid(Collapse(cp, stepped));
  }

  /** Everything new in `fused` carries revision `revision`; otherwise it equals `stepped`. */
  ghost predicate Fuses(stepped: Checkpoint, fused: Checkpoint, revision: nat) {
    && fused == Clip(stepped, revision)
    && fused.revision == revision
    && (forall i :: 0 <= i < |stepped.receipts| && stepped.receipts[i].revision < revision ==> fused.receipts[i] == stepped.receipts[i])
  }

  lemma ClipFuses(stepped: Checkpoint, revision: nat)
    requires stepped.revision > revision
    ensures Fuses(stepped, Clip(stepped, revision), revision)
  {
    ClipBasics(stepped, revision);
    ClipAll(stepped, revision);
  }

  /** What processing does with the step on the admitted delivery. */
  lemma ProcessSteps(cp: Checkpoint, bundle: Text, d: Delivery, g: Guard, accepts: Envelope -> bool, dispatch: Dispatch)
    requires Inv(cp) && ProcessReplay(cp, d) == Ok(None) && Holds(g, cp)
    ensures var admission := Admit(cp, Some(bundle), [d], g, accepts);
            var process := ProcessCandidate(cp, bundle, d, g, accepts, dispatch);
            if admission.Err? then process == Err(admission.error)
            else
              && admission.value.Next? && admission.value.next.record.Retained?
              && var admitted := admission.value.next;
                 var a := admitted.record.aggregate;
                 var i := Find(a.runtimes, d.envelope.target.runtime);
                 && Coherent(admitted) && Extends(cp, [d], admitted) && CanStep(admitted, i) && a.fingerprint == bundle
                 && (d.mode.Input? ==> Inv(admitted))
                 && var step := StepAnswer(admitted, d.envelope.target.runtime, dispatch);
                    process == if step.Ok? && step.value.Next? then Ok(Next(Collapse(cp, step.value.next))) else step
  {
    hide Coherent, Sourced, RetainedIdentity, Admit, Extends, EnqueueAll, Targeted, FindReady, Step, CommitStep, CommitDeferral, EffectRepeated, Collapse, Holds, SeveralProducers;
    var admission := Admit(cp, Some(bundle), [d], g, accepts);
    if admission.Ok? {
      AdmittedOne(cp, bundle, d, g, accepts);
      var admitted := admission.value.next;
      ExtendsCoherent(cp, [d], admitted);
      if d.mode.Input? {
        assert AllInput([d]);
        ExtendsInv(cp, [d], admitted);
      }
      ProcessHead(cp, d, admitted);
      ExtendsFingerprint(cp, d, admitted);
    }
  }

  /** What processing answers when the step on the admitted checkpoint answers `step`. */
  ghost predicate FusesOrRefuses(step: Result<Answer, Failure>, process: Result<Answer, Failure>, revision: nat) {
    if !(step.Ok? && step.value.Next?) then process == step
    else if !Valid(step.value.next) then process == Err(InvalidCheckpoint)
    else process.Ok? && process.value.Next? && Inv(process.value.next) && Fuses(step.value.next, process.value.next, revision)
  }

  lemma CollapseFuses(cp: Checkpoint, d: Delivery, admitted: Checkpoint, runtime: Text, dispatch: Dispatch, candidate: Result<Answer, Failure>, process: Result<Answer, Failure>)
    requires Coherent(cp) && Extends(cp, [d], admitted) && Coherent(admitted) && Dispatches(admitted, runtime, dispatch)
    requires admitted.record.Retained? && CanStep(admitted, Find(admitted.record.aggregate.runtimes, runtime))
    requires var step := StepAnswer(admitted, runtime, dispatch);
             candidate == if step.Ok? && step.value.Next? then Ok(Next(Collapse(cp, step.value.next))) else step
    requires process == if candidate.Ok? && candidate.value.Next? && !Valid(candidate.value.next) then Err(InvalidCheckpoint) else candidate
    ensures FusesOrRefuses(StepAnswer(admitted, runtime, dispatch), process, cp.revision + 1)
  {
    hide Coherent, Extends, Dispatches, StepAnswer, Collapse, Clip, Fuses, Valid, Inv;
    var step := StepAnswer(admitted, runtime, dispatch);
    if step.Ok? && step.value.Next? {
      CollapseValidIff(cp, d, admitted, runtime, dispatch);
      if Valid(step.value.next) {
        ClipFuses(step.value.next, cp.revision + 1);
      }
    }
  }

  lemma ValidatedProcess(cp: Checkpoint, bundle: Text, d: Delivery, g: Guard, accepts: Envelope -> bool, dispatch: Dispatch)
    ensures var candidate := ProcessCandidate(cp, bundle, d, g, accepts, dispatch);
            Process(cp, bundle, d, g, accepts, dispatch)
            == if candidate.Ok? && candidate.value.Next? && !Valid(candidate.value.next) then Err(InvalidCheckpoint) else candidate
  {
    hide ProcessCandidate, Valid;
  }

  /** The step that processing takes, as a request for the ready head of the target. */
  function HeadRequest(admitted: Checkpoint, bundle: Text, runtime: Text, dispatch: Dispatch): Result<Answer, Failure>
    requires admitted.record.Retained? && Runnable(admitted.record.aggregate, Find(admitted.record.aggregate.runtimes, runtime))
  {
    var a := admitted.record.aggregate;
    StepCheckpoint(admitted, bundle, RequestFor(a.runtimes[Find(a.runtimes, runtime)].ready[0]), Guard(None, None), dispatch)
  }

  lemma HeadRequestAnswer(admitted: Checkpoint, bundle: Text, runtime: Text, dispatch: Dispatch)
    requires Coherent(admitted) && admitted.record.Retained? && CanStep(admitted, Find(admitted.record.aggregate.runtimes, runtime))
    requires admitted.record.aggregate.fingerprint == bundle
    ensures HeadRequest(admitted, bundle, runtime, dispatch) == StepAnswer(admitted, runtime, dispatch)
  {
    hide Coherent, StepCheckpoint, ApplyStep, Step;
    var a := admitted.record.aggregate;
    HeadStep(admitted, bundle, Find(a.runtimes, runtime), dispatch);
    assert a.runtimes[Find(a.runtimes, runtime)].id == runtime;
  }

  /** Processing after a successful admission. */
  lemma ProcessAdmitted(cp: Checkpoint, bundle: Text, d: Delivery, g: Guard, accepts: Envelope -> bool, dispatch: Dispatch)
    requires Inv(cp) && ProcessReplay(cp, d) == Ok(None) && Holds(g, cp) && Admit(cp, Some(bundle), [d], g, accepts).Ok?
    requires var answer := Admit(cp, Some(bundle), [d], g, accepts).value; answer.Next? ==> Dispatches(answer.next, d.envelope.target.runtime, dispatch)
    ensures var answer, runtime := Admit(cp, Some(bundle), [d], g, accepts).value, d.envelope.target.runtime;
            && answer.Next? && answer.next.record.Retained?
            && CanStep(answer.next, Find(answer.next.record.aggregate.runtimes, runtime))
            && var step := HeadRequest(answer.next, bundle, runtime, dispatch);
               && FusesOrRefuses(step, Process(cp, bundle, d, g, accepts, dispatch), cp.revision + 1)
               && (d.mode.Input? && step.Ok? && step.value.Next? ==> (Valid(step.value.next) <==> Sustained(answer.next, runtime, dispatch)))
  {
    hide Coherent, Sourced, Admit, Extends, HeadRequest, Collapse, Holds, Dispatches, Valid, Sustained, StepAnswer, ProcessCandidate, Process, ProcessReplay, FusesOrRefuses;
    ProcessSteps(cp, bundle, d, g, accepts, dispatch);
    var admitted, runtime := Admit(cp, Some(bundle), [d], g, accepts).value.next, d.envelope.target.runtime;
    HeadRequestAnswer(admitted, bundle, runtime, dispatch);
    ValidatedProcess(cp, bundle, d, g, accepts, dispatch);
    CollapseFuses(cp, d, admitted, runtime, dispatch, ProcessCandidate(cp, bundle, d, g, accepts, dispatch), Process(cp, bundle, d, g, accepts, dispatch));
    if d.mode.Input? {
      StepAnswerIff(admitted, runtime, dispatch);
    }
  }

  /**
   Processing an unknown delivery is admitting it and then stepping the ready head of its target
   in a second operation. It yields a checkpoint if and only if the step does and validation
   accepts the stepped checkpoint, which for input means that the dispatch sustains the step. The
   yielded checkpoint is the stepped one with one revision instead of two; it satisfies the
   invariant.
   */
  lemma ProcessFuses(cp: Checkpoint, bundle: Text, d: Delivery, g: Guard, accepts: Envelope -> bool, dispatch: Dispatch)
    requires Inv(cp) && d.envelope.target.root == cp.root && !Known(cp, d.envelope.eventId)
    requires var admission := Admit(cp, Some(bundle), [d], g, accepts);
             admission.Ok? && admission.value.Next? ==> Dispatches(admission.value.next, d.envelope.target.runtime, dispatch)
    ensures var admission, process := Admit(cp, Some(bundle), [d], g, accepts), Process(cp, bundle, d, g, accepts, dispatch);
            var runtime := d.envelope.target.runtime;
            if !Holds(g, cp) then process == Err(RevisionConflict)
            else if admission.Err? then process == Err(admission.error)
            else
              && admission.value.Next? && admission.value.next.record.Retained?
              && var admitted := admission.value.next;
                 && CanStep(admitted, Find(admitted.record.aggregate.runtimes, runtime))
                 && var step := HeadRequest(admitted, bundle, runtime, dispatch);
                    && FusesOrRefuses(step, process, cp.revision + 1)
                    && (d.mode.Input? && step.Ok? && step.value.Next? ==> (Valid(step.value.next) <==> Sustained(admitted, runtime, dispatch)))
  {
    hide Inv, Known, Admit, HeadRequest, Holds, Dispatches, Valid, Sustained, ProcessCandidate, ProcessReplay, FusesOrRefuses;
    Unreplayed(cp, d);
    if !Holds(g, cp) {
      Unguarded(cp, bundle, d, g, accepts, dispatch);
    } else {
      if Admit(cp, Some(bundle), [d], g, accepts).Ok? {
        ProcessAdmitted(cp, bundle, d, g, accepts, dispatch);
      } else {
        ProcessRefused(cp, bundle, d, g, accepts, dispatch);
      }
    }
  }

  lemma ProcessRefused(cp: Checkpoint, bundle: Text, d: Delivery, g: Guard, accepts: Envelope -> bool, dispatch: Dispatch)
    requires ProcessReplay(cp, d) == Ok(None) && Holds(g, cp) && Admit(cp, Some(bundle), [d], g, accepts).Err?
    ensures ProcessCandidate(cp, bundle, d, g, accepts, dispatch) == Err(Admit(cp, Some(bundle), [d], g, accepts).error)
  {
    hide ProcessReplay, Admit, Holds;
  }

  lemma Unreplayed(cp: Checkpoint, d: Delivery)
    requires d.envelope.target.root == cp.root && !Known(cp, d.envelope.eventId)
    ensures ProcessReplay(cp, d) == Ok(None)
  {
    hide Known, RetainedIdentity;
    KnownIff(cp, d.envelope.eventId);
  }

  lemma Unguarded(cp: Checkpoint, bundle: Text, d: Delivery, g: Guard, accepts: Envelope -> bool, dispatch: Dispatch)
    requires ProcessReplay(cp, d) == Ok(None) && !Holds(g, cp)
    ensures ProcessCandidate(cp, bundle, d, g, accepts, dispatch) == Err(RevisionConflict)
  {
    hide ProcessReplay, Admit, Holds;
  }

  lemma ClippableRevision(cp: Checkpoint, limit: nat)
    requires Clippable(cp, limit)
    ensures cp.revision == limit + 1
  {
  }

  lemma ExtendsFingerprint(cp: Checkpoint, d: Delivery, admitted: Checkpoint)
    requires Extends(cp, [d], admitted)
    ensures cp.record.Retained? && admitted.record.Retained? && admitted.record.aggregate.fingerprint == cp.record.aggregate.fingerprint
  {
    hide Extends, Ready;
    ExtendsFacts(cp, [d], admitted);
  }
}
