/** Creation succeeds exactly when the dispatcher's ids differ and its sends are well sourced. */
module CreateTheorem {
  import opened Wrappers
  import opened CheckpointModel
  import opened CheckpointValidity
  import opened WireCore
  import opened WireCoreProofs
  import opened StepContract
  import opened StepProofs
  import opened StepIdentity
  import opened StepSources
  import opened Transitions
  import opened CheckpointOps
  import opened Rewriting
  import opened CommitProofs
  import opened StepPreservation
  import opened CreateProofs
  import opened Multisets

  /** What the dispatcher promises about a new root. */
  ghost predicate RootOk(n: NativeRoot) {
    && DistinctNatives(n.runtimes)
    && (forall k :: 0 <= k < |n.emissions| && n.emissions[k].External? ==> n.emissions[k].intent.sequence < n.nextOutput)
    && (forall k, l :: 0 <= k < l < |n.emissions| && n.emissions[k].External? && n.emissions[l].External? ==>
          n.emissions[k].intent.sequence < n.emissions[l].intent.sequence)
  }

  /** Sends have different ids; those that are delivered name a runtime of the root or a fitting locator. */
  ghost predicate RootSustains(n: NativeRoot) {
    && FreshIds(multiset{}, n.emissions)
    && (NativeCompleted(n.runtimes, n.rootRuntime) ||
        forall k :: 0 <= k < |n.emissions| && n.emissions[k].Send? && NativeActive(n.runtimes, n.emissions[k].target) ==>
          WellSourced(n.runtimes, n.emissions[k]))
  }

  /** The root before its initial emissions are appended. */
  function Blank(root: Text, creationId: Text, n: NativeRoot): Build {
    Build(Aggregate(root, creationId, n.fingerprint, n.rootRuntime, 0, 0, n.nextOutput, 1, Bare(n.runtimes)), [], [])
  }

  lemma BareRuntimes(ns: seq<NativeRuntime>)
    ensures Mirrors(Bare(ns), ns) && MailOf(Bare(ns)) == multiset{}
    ensures forall p :: 0 <= p < |ns| ==> Bare(ns)[p].ready == [] && Bare(ns)[p].deferred == []
  {
    hide MailOf;
    MergeAt([], ns);
    MergeNothing(ns);
  }

  lemma BlankBuilding(root: Text, creationId: Text, n: NativeRoot)
    requires RootOk(n)
    ensures Building(Blank(root, creationId, n), multiset{}) && Total(Blank(root, creationId, n), multiset{}) == multiset{}
  {
    hide MailOf, Bare;
    BareRuntimes(n.runtimes);
    var rs := Bare(n.runtimes);
    forall i, j | 0 <= i < j < |rs| ensures rs[i].id != rs[j].id {
      assert n.runtimes[i].id != n.runtimes[j].id;
    }
  }

  /** Everything known about the aggregate that creation builds. */
  lemma CreatedBuild(root: Text, creationId: Text, n: NativeRoot)
    requires RootOk(n)
    ensures var b, built := Blank(root, creationId, n), CreateCore(root, creationId, n);
            && Building(built, multiset{}) && Appended(b, built) && Delivered(b, built, n.emissions)
            && |built.emitted| == |n.emissions|
            && (forall k :: 0 <= k < |n.emissions| ==> Reports(n.emissions[k], built.emitted[k]))
            && (Named(Total(built, multiset{})) <==> FreshIds(multiset{}, n.emissions))
  {
    hide Building, Appended, Delivered, Reports, Total, FreshIds, Named, EmitAll;
    var b := Blank(root, creationId, n);
    BlankBuilding(root, creationId, n);
    EmitAllAppends(b, n.emissions, multiset{});
    EmitAllDelivers(b, n.emissions, multiset{});
    EmitAllNames(b, n.emissions, multiset{});
    NamedNothing();
  }

  lemma NamedNothing()
    ensures Named(multiset{})
  {
  }

  // ------------------------------------------------------------------------------------------
  // Sources
  // ------------------------------------------------------------------------------------------

  lemma CreatedSourcesIff(root: Text, creationId: Text, n: NativeRoot)
    requires RootOk(n)
    ensures SourcesOk(CreateCore(root, creationId, n).aggregate) <==>
              (NativeCompleted(n.runtimes, n.rootRuntime) ||
               forall k :: 0 <= k < |n.emissions| && n.emissions[k].Send? && NativeActive(n.runtimes, n.emissions[k].target) ==>
                 WellSourced(n.runtimes, n.emissions[k]))
  {
    hide MailOf, Bare, CreateCore, Building, Reports, Named, FreshIds, NativeCompleted, NativeActive, WellSourced, SourceOk;
    hide Explained, Announced, EmittedInOrder, Deliverable, SentAs;
    var b, built := Blank(root, creationId, n), CreateCore(root, creationId, n);
    var a := built.aggregate;
    CreatedBuild(root, creationId, n);
    BareRuntimes(n.runtimes);
    forall target ensures Deliverable(b.aggregate.runtimes, n.rootRuntime, target) <==>
                          NativeActive(n.runtimes, target) && !NativeCompleted(n.runtimes, n.rootRuntime)
    {
      DeliverableIff(n, target);
    }
    assert forall p :: 0 <= p < |n.runtimes| ==> a.runtimes[p].id == n.runtimes[p].id;
    if SourcesOk(a) {
      forall k | 0 <= k < |n.emissions| && n.emissions[k].Send? && NativeActive(n.runtimes, n.emissions[k].target)
                 && !NativeCompleted(n.runtimes, n.rootRuntime)
        ensures WellSourced(n.runtimes, n.emissions[k])
      {
        var t :| t in MailOf(a.runtimes) && SentAs(root, n.emissions[k], t);
        SendSource(root, a.runtimes, n.runtimes, n.emissions[k], t);
      }
    }
    forall t | t in MailOf(a.runtimes)
      ensures !NativeCompleted(n.runtimes, n.rootRuntime)
      ensures exists k :: 0 <= k < |n.emissions| && n.emissions[k].Send? && NativeActive(n.runtimes, n.emissions[k].target)
                       && (SourceOk(root, a.runtimes, t) <==> WellSourced(n.runtimes, n.emissions[k]))
    {
      var k := ArrivedSend(b, built, n.emissions, t);
      SendSource(root, a.runtimes, n.runtimes, n.emissions[k], t);
    }
  }

  lemma ArrivedSend(b: Build, built: Build, ms: seq<Emission>, t: Entry) returns (k: nat)
    requires Delivered(b, built, ms) && t in MailOf(built.aggregate.runtimes) && t !in MailOf(b.aggregate.runtimes)
    ensures k < |ms| && ms[k].Send? && SentAs(b.aggregate.root, ms[k], t)
    ensures Deliverable(b.aggregate.runtimes, b.aggregate.rootRuntime, ms[k].target)
  {
    hide MailOf, Deliverable;
    k :| 0 <= k < |ms| && SentAs(b.aggregate.root, ms[k], t) && Deliverable(b.aggregate.runtimes, b.aggregate.rootRuntime, ms[k].target);
    assert SentAs(b.aggregate.root, ms[k], t);
  }

  lemma DeliverableIff(n: NativeRoot, target: Text)
    requires DistinctNatives(n.runtimes)
    ensures Deliverable(Bare(n.runtimes), n.rootRuntime, target) <==>
              NativeActive(n.runtimes, target) && !NativeCompleted(n.runtimes, n.rootRuntime)
  {
    hide MailOf, Bare, NativeActive, NativeCompleted;
    BareRuntimes(n.runtimes);
    MirrorsStatus(Bare(n.runtimes), n.runtimes, target);
    MirrorsStatus(Bare(n.runtimes), n.runtimes, n.rootRuntime);
  }

  // ------------------------------------------------------------------------------------------
  // The created checkpoint has the shape
  // ------------------------------------------------------------------------------------------

  lemma CreatedReceipts(root: Text, creationId: Text, request: Text, retention: Retention, b: Build)
    requires b.aggregate.root == root && b.aggregate.creationId == creationId && retention.Base() == 0
    ensures Founded(CreateInto(root, creationId, request, retention, b), Entries(b.lifecycle), RefsOf(b.emitted, 1))
  {
    hide RefsOf, Pendings, RootStatus;
    var cp, out := CreateInto(root, creationId, request, retention, b), Entries(b.lifecycle);
    forall j | 0 <= j < |out|
      ensures && Ends(cp.receipts[1 + j], out[j]) && cp.receipts[1 + j].sequence == 1 + j && cp.receipts[1 + j].revision == 0
              && cp.receipts[1 + j].digest == CurrentDigest(cp) && cp.receipts[1 + j].refs == []
    {
      assert cp.receipts[1 + j] == LifecycleReceipts(b.lifecycle, 1, 0, CurrentDigest(cp), RootStatus(b.aggregate))[j];
    }
  }

  lemma TotalIsEverything(cp: Checkpoint, b: Build)
    requires cp.record == Retained(b.aggregate)
    ensures Everything(cp, Entries(b.lifecycle)) == Total(b, multiset{})
  {
    hide MailOf, LifeMail, Entries;
    EntriesMail(b.lifecycle);
    assert LifeMail(b.lifecycle) + multiset{} == LifeMail(b.lifecycle);
    Associate(MailOf(b.aggregate.runtimes), LifeMail(b.lifecycle), multiset{});
  }

  lemma CreatedLive(b: Build, built: Build, t: Entry)
    requires Explained(b, built) && t in MailOf(built.aggregate.runtimes) && t !in MailOf(b.aggregate.runtimes)
    ensures t.mode.Internal? && exists k :: 0 <= k < |RefsOf(built.emitted, 1)| && Names(RefsOf(built.emitted, 1)[k], t)
  {
    hide MailOf;
    var k :| 0 <= k < |built.emitted| && AnnouncesLive(built.emitted[k], t);
    assert AnnouncesLive(built.emitted[k], t);
    assert Names(RefsOf(built.emitted, 1)[k], t);
  }

  lemma CreatedDisposal(b: Build, built: Build, j: nat)
    requires Explained(b, built) && b.lifecycle == [] && j < |built.lifecycle|
    ensures HasEnd(RefsOf(built.emitted, 1), Entries(built.lifecycle)[j], 1 + j)
  {
    hide MailOf, Explained;
    ExplainedAt(b, built, j);
    var k :| 0 <= k < |built.emitted| && AnnouncesDisposal(built.emitted[k], built.lifecycle[j].entry, j);
    assert AnnouncesDisposal(built.emitted[k], built.lifecycle[j].entry, j);
    assert RefEnds(RefsOf(built.emitted, 1)[k], Entries(built.lifecycle)[j], 1 + j);
  }

  lemma CreatedAnnouncements(cp: Checkpoint, root: Text, creationId: Text, n: NativeRoot)
    requires RootOk(n) && cp.record == Retained(CreateCore(root, creationId, n).aggregate)
    ensures var b := CreateCore(root, creationId, n);
            AllAnnounced(cp, Entries(b.lifecycle), RefsOf(b.emitted, 1))
  {
    hide MailOf, CreateCore, Building, Reports, Named, FreshIds, Delivered, Progressed, Bare, Explained, Names, HasEnd, Announced', Announced, Total;
    var b, built := Blank(root, creationId, n), CreateCore(root, creationId, n);
    CreatedBuild(root, creationId, n);
    BareRuntimes(n.runtimes);
    var out, refs := Entries(built.lifecycle), RefsOf(built.emitted, 1);
    forall t | t in Live(cp) ensures t.mode.Internal? && exists k :: 0 <= k < |refs| && Names(refs[k], t) {
      CreatedLive(b, built, t);
    }
    forall j | 0 <= j < |out| ensures HasEnd(refs, out[j], 1 + j) {
      CreatedDisposal(b, built, j);
    }
    forall k | 0 <= k < |refs| ensures Announced'(cp, out, refs[k]) {
      CreatedAnnounces(cp, b.aggregate, built, k);
    }
  }

  lemma CreatedAnnounces(cp: Checkpoint, a: Aggregate, built: Build, k: nat)
    requires cp.record == Retained(built.aggregate) && k < |built.emitted|
    requires Announced(a, built.aggregate, built.lifecycle, built.emitted)
    ensures Announced'(cp, Entries(built.lifecycle), RefOf(built.emitted[k], 1))
  {
    hide MailOf;
    var m := built.emitted[k];
    match m
    case ToOutbox(_, _) =>
    case ToMailbox(_, _, _, _) =>
      var t :| t in MailOf(built.aggregate.runtimes) && New(a, t) && AnnouncesLive(m, t);
      assert New(a, t) && Names(RefOf(m, 1), t);
    case ToDisposal(_, _, _, l) =>
      assert RefEnds(RefOf(m, 1), Entries(built.lifecycle)[l], 1 + l);
  }

  /** The entry that an announcement is about. */
  lemma CreatedEntry(a: Aggregate, built: Build, k: nat) returns (t: Entry)
    requires k < |built.emitted| && !built.emitted[k].ToOutbox? && Announced(a, built.aggregate, built.lifecycle, built.emitted)
    ensures t in Total(built, multiset{}) && t.Id() == built.emitted[k].eventId && t.acceptance == built.emitted[k].acceptance
  {
    hide MailOf, LifeMail;
    var m := built.emitted[k];
    if m.ToMailbox? {
      t :| t in MailOf(built.aggregate.runtimes) && New(a, t) && AnnouncesLive(m, t);
      assert AnnouncesLive(m, t);
    } else {
      t := built.lifecycle[m.lifecycle].entry;
      LifeMember(built.lifecycle, t);
    }
  }

  lemma CreatedRefs(root: Text, creationId: Text, n: NativeRoot)
    requires RootOk(n) && FreshIds(multiset{}, n.emissions)
    ensures DistinctRefs(RefsOf(CreateCore(root, creationId, n).emitted, 1))
  {
    hide MailOf, CreateCore, Building, Reports, FreshIds, Delivered, Explained, Announced, Total, Bare, SameShape;
    var built := CreateCore(root, creationId, n);
    CreatedBuild(root, creationId, n);
    var refs := RefsOf(built.emitted, 1);
    forall k, l | 0 <= k < l < |refs| && !refs[k].OutboxRef? && !refs[l].OutboxRef? ensures refs[k].eventId != refs[l].eventId {
      var s := CreatedEntry(Blank(root, creationId, n).aggregate, built, k);
      var t := CreatedEntry(Blank(root, creationId, n).aggregate, built, l);
      assert s.acceptance < t.acceptance;
    }
  }

  lemma CreatedEffects(cp: Checkpoint, root: Text, creationId: Text, n: NativeRoot)
    requires RootOk(n)
    requires var b := CreateCore(root, creationId, n);
             && cp.record == Retained(b.aggregate) && cp.revision == 0 && cp.pending == Pendings(b.emitted, 0)
             && cp.terminals == [] && cp.compacted == [] && cp.nextTerminal == 0
             && !EffectRepeated(cp.(pending := []), b.emitted)
    ensures FoundedEffects(cp, RefsOf(CreateCore(root, creationId, n).emitted, 1))
  {
    hide CreateCore, Building, FreshIds, Delivered, Explained, Announced, Total, Named, Pendings, EmittedInOrder, SameShape, MailOf, AnnouncesEffect;
    var b := CreateCore(root, creationId, n);
    CreatedBuild(root, creationId, n);
    var before := cp.(pending := [], nextReceipt := 0, record := Retained(b.aggregate.(nextOutput := 0)));
    assert forall k :: 0 <= k < |b.emitted| ==> Reports(n.emissions[k], b.emitted[k]);
    assert IntentsInOrder(before.record.aggregate, b.aggregate, b.emitted);
    assert !EffectRepeated(before, b.emitted) by { SameRepeated(before, cp.(pending := []), b.emitted); }
    StepEffects(before, cp, b.aggregate, b.emitted);
    SamePending(before, cp);
  }

  lemma SamePending(before: Checkpoint, cp: Checkpoint)
    requires before.pending == []
    ensures forall f :: NewPending(before, cp, f) <==> IsPending(cp, f)
  {
  }

  lemma SameRepeated(before: Checkpoint, cp: Checkpoint, emitted: seq<Emitted>)
    requires before.pending == cp.pending && before.terminals == cp.terminals && before.compacted == cp.compacted
    ensures EffectRepeated(before, emitted) <==> EffectRepeated(cp, emitted)
  {
    forall f ensures EffectRetained(before, f) <==> EffectRetained(cp, f) {
    }
  }

  lemma CreatedMailboxes(root: Text, creationId: Text, n: NativeRoot)
    requires RootOk(n) && FreshIds(multiset{}, n.emissions)
    ensures var b := CreateCore(root, creationId, n);
            && Mailboxes(b.aggregate) && Distinct(Total(b, multiset{}))
            && Below(Total(b, multiset{}), b.aggregate.nextAcceptance, b.aggregate.nextQueue)
            && b.aggregate.root == root && b.aggregate.creationId == creationId
  {
    hide CreateCore, FreshIds, Delivered, Explained, Announced, Reports, EmittedInOrder, SameShape, MailOf, LifeMail, Numbered, Named, Below, Mailboxes, Bare;
    CreatedBuild(root, creationId, n);
  }

  lemma CreateFounds(root: Text, creationId: Text, request: Text, retention: Retention, n: NativeRoot)
    requires RootOk(n) && RootSustains(n) && retention.Base() == 0 && CreateCandidate(root, creationId, request, retention, n).Ok?
    ensures var cp, b := CreateCandidate(root, creationId, request, retention, n).value, CreateCore(root, creationId, n);
            var out, refs := Entries(b.lifecycle), RefsOf(b.emitted, 1);
            Founded(cp, out, refs) && FoundedEntries(cp, out, refs) && FoundedEffects(cp, refs)
  {
    hide CreateCore, FreshIds, MailOf, Distinct, Below, Mailboxes, SourcesOk, RootOk, Founded, AllAnnounced, DistinctRefs, FoundedEffects, RefsOf, Total, Everything;
    hide EffectRepeated, NativeCompleted, NativeActive, WellSourced;
    var b := CreateCore(root, creationId, n);
    var cp := CreateInto(root, creationId, request, retention, b);
    CreatedMailboxes(root, creationId, n);
    CreatedReceipts(root, creationId, request, retention, b);
    TotalIsEverything(cp, b);
    CreatedAnnouncements(cp, root, creationId, n);
    CreatedRefs(root, creationId, n);
    CreatedSourcesIff(root, creationId, n);
    CreatedEffects(cp, root, creationId, n);
  }

  // ------------------------------------------------------------------------------------------
  // The theorem
  // ------------------------------------------------------------------------------------------

  lemma CreatedNames(root: Text, creationId: Text, request: Text, retention: Retention, n: NativeRoot)
    requires RootOk(n) && Valid(CreateInto(root, creationId, request, retention, CreateCore(root, creationId, n)))
    ensures Named(Total(CreateCore(root, creationId, n), multiset{}))
  {
    hide CreateCore, Valid, MailOf, SourcesOk, Total, TombstonesOk, EffectRepeated, Pendings, RefsOf, RootStatus;
    var b := CreateCore(root, creationId, n);
    var cp, out := CreateInto(root, creationId, request, retention, b), Entries(b.lifecycle);
    ValidNames(cp);
    TotalIsEverything(cp, b);
    var m := Live(cp);
    forall e, f | e in Everything(cp, out) && f in Everything(cp, out) && e != f ensures e.Id() != f.Id() {
      assert e in m || e in multiset(out);
      assert f in m || f in multiset(out);
      if e !in m {
        var j :| 0 <= j < |out| && out[j] == e;
        CreatedEnd(root, creationId, request, retention, b, j);
        if f !in m {
          var k :| 0 <= k < |out| && out[k] == f;
          CreatedEnd(root, creationId, request, retention, b, k);
        }
      } else if f !in m {
        var k :| 0 <= k < |out| && out[k] == f;
        CreatedEnd(root, creationId, request, retention, b, k);
      }
    }
  }

  lemma CreatedEnd(root: Text, creationId: Text, request: Text, retention: Retention, b: Build, j: nat)
    requires j < |b.lifecycle|
    ensures var cp := CreateInto(root, creationId, request, retention, b);
            1 + j < |cp.receipts| && cp.receipts[1 + j].Terminal? && cp.receipts[1 + j].eventId == b.lifecycle[j].entry.Id()
  {
  }

  /** No two external emissions carry one effect id. */
  predicate DistinctEffects(ms: seq<Emission>) {
    forall k, l :: 0 <= k < l < |ms| && ms[k].External? && ms[l].External? ==> ms[k].intent.effectId != ms[l].intent.effectId
  }

  /** A new checkpoint holds no effect, so only the emissions among themselves can repeat one. */
  lemma CandidateIff(root: Text, creationId: Text, request: Text, retention: Retention, n: NativeRoot)
    requires RootOk(n)
    ensures CreateCandidate(root, creationId, request, retention, n)
            == if DistinctEffects(n.emissions) then Ok(CreateInto(root, creationId, request, retention, CreateCore(root, creationId, n))) else Err(InvalidCheckpoint)
  {
    hide CreateCore, Building, FreshIds, Delivered, Appended, Total, Named, RootOk, Pendings, RefsOf, LifecycleReceipts;
    CreatedBuild(root, creationId, n);
    var emitted := CreateCore(root, creationId, n).emitted;
    assert forall k :: 0 <= k < |n.emissions| ==> Reports(n.emissions[k], emitted[k]);
    if k, l :| 0 <= k < l < |emitted| && emitted[k].ToOutbox? && emitted[l].ToOutbox? && emitted[k].intent.effectId == emitted[l].intent.effectId {
      assert Reports(n.emissions[k], emitted[k]) && Reports(n.emissions[l], emitted[l]);
    }
    if k, l :| 0 <= k < l < |n.emissions| && n.emissions[k].External? && n.emissions[l].External? && n.emissions[k].intent.effectId == n.emissions[l].intent.effectId {
      assert Reports(n.emissions[k], emitted[k]) && Reports(n.emissions[l], emitted[l]);
    }
  }

  lemma UnprunedBase(root: Text, creationId: Text, request: Text, retention: Retention, b: Build)
    requires ReceiptsOk(CreateInto(root, creationId, request, retention, b))
    ensures retention.Base() == 0
  {
  }

  lemma ValidReceipts(cp: Checkpoint)
    requires Valid(cp)
    ensures ReceiptsOk(cp)
  {
  }

  /**
   Creation validates its result. It succeeds if and only if no effect id repeats, the retention
   claims no pruned receipt, the initial sends have different ids and the delivered ones are well
   sourced; the new checkpoint then satisfies the invariant.
   */
  lemma CreateIff(root: Text, creationId: Text, request: Text, retention: Retention, n: NativeRoot)
    requires RootOk(n)
    ensures var created := Create(root, creationId, request, retention, n);
            && (created.Ok? <==> DistinctEffects(n.emissions) && retention.Base() == 0 && RootSustains(n))
            && (created.Ok? ==> Inv(created.value) && created.value.root == root && created.value.revision == 0)
            && (created.Err? ==> created.error == InvalidCheckpoint)
  {
    hide Valid, Inv, CreateCore, RootOk, FreshIds, Founded, FoundedEntries, FoundedEffects, SourcesOk, EffectRepeated, Total, Named, MailOf, DistinctEffects;
    var b := CreateCore(root, creationId, n);
    var cp := CreateInto(root, creationId, request, retention, b);
    CandidateIff(root, creationId, request, retention, n);
    if DistinctEffects(n.emissions) && retention.Base() == 0 && RootSustains(n) {
      CreateFounds(root, creationId, request, retention, n);
      FoundedInv(cp, Entries(b.lifecycle), RefsOf(b.emitted, 1));
    }
    if Valid(cp) {
      ValidReceipts(cp);
      UnprunedBase(root, creationId, request, retention, b);
      ValidNamesSources(cp);
      CreatedSourcesIff(root, creationId, n);
      CreatedNames(root, creationId, request, retention, n);
      CreatedNamesIff(root, creationId, n);
    }
  }

  lemma CreatedNamesIff(root: Text, creationId: Text, n: NativeRoot)
    requires RootOk(n)
    ensures Named(Total(CreateCore(root, creationId, n), multiset{})) <==> FreshIds(multiset{}, n.emissions)
  {
    hide CreateCore, Building, Reports, FreshIds, Delivered, Appended, Total, Named, RootOk;
    CreatedBuild(root, creationId, n);
  }
}
