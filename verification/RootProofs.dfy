/** Deferrals and root tombstones are transitions, so they preserve the invariant. */
module RootProofs {
  import opened CheckpointModel
  import opened CheckpointValidity
  import opened WireCore
  import opened StepContract
  import opened StepTheorem
  import opened AdmissionProofs
  import opened Transitions
  import opened TransitionTheorem
  import opened CheckpointOps
  import opened Rewriting

  /** A reachable aggregate is fit for a step. */
  lemma InvReady(cp: Checkpoint)
    requires Coherent(cp) && cp.record.Retained?
    ensures Ready(cp.record.aggregate) && cp.record.aggregate.root == cp.root
    ensures Sourced(cp) ==> SourcesOk(cp.record.aggregate)
  {
    hide MailboxesOk, SourcesOk, Traceable, DistinctRuntimes, ReceiptsOk, UniqueAcceptances, UniqueTerminals, AllocationsOk, DigestsOk;
  }

  // ------------------------------------------------------------------------------------------
  // Deferral
  // ------------------------------------------------------------------------------------------

  lemma DeferOrigin(a: Aggregate, i: nat, t: Entry)
    requires Ready(a) && Runnable(a, i) && t in MailOf(DeferHead(a, i).runtimes)
    ensures exists e :: e in MailOf(a.runtimes) && Moved(e, t, a.nextQueue)
  {
    hide MailOf, Ready, Mailboxes, Distinct, Below, DeferHead, Moved;
    DeferHeadDefers(a, i);
  }

  lemma DeferSources(a: Aggregate, i: nat)
    requires Ready(a) && SourcesOk(a) && Runnable(a, i)
    ensures SourcesOk(DeferHead(a, i))
  {
    hide MailOf, Ready, DeferHead, SourceOk, Moved;
    var b := DeferHead(a, i);
    DeferShape(a, i);
    forall t | t in MailOf(b.runtimes) ensures SourceOk(b.root, b.runtimes, t) {
      DeferOrigin(a, i, t);
      var e :| e in MailOf(a.runtimes) && Moved(e, t, a.nextQueue);
      SameSource(a.root, a.runtimes, b.runtimes, e, t, a.nextQueue);
    }
  }

  lemma SameSource(root: Text, rs: seq<Runtime>, ss: seq<Runtime>, e: Entry, t: Entry, n: nat)
    requires SourceOk(root, rs, e) && Moved(e, t, n)
    requires |rs| == |ss| && forall i :: 0 <= i < |rs| ==> rs[i].id == ss[i].id
    ensures SourceOk(root, ss, t)
  {
    if e.mode.Internal? && e.envelope.source.RuntimeSource? {
      var i :| 0 <= i < |rs| && e.envelope.source.origin == Target(root, rs[i].id);
      assert ss[i].id == rs[i].id;
    }
  }

  lemma DeferralEntries(cp: Checkpoint, cp': Checkpoint, causal: Entry, state: Aggregate)
    requires cp.record.Retained? && Defers(cp.record.aggregate, causal, state) && cp'.record == Retained(state)
    ensures EntriesAdvance(cp, cp', [], []) && Everything(cp', []) == Live(cp') == MailOf(state.runtimes)
  {
    hide MailOf, Mailboxes, Below, Distinct;
    assert MailOf(state.runtimes) + multiset([]) == MailOf(state.runtimes);
  }

  lemma DeferralRewrites(cp: Checkpoint, cp': Checkpoint, state: Aggregate)
    requires Named(MailOf(state.runtimes)) && cp'.record == Retained(state)
    ensures Rewrites(cp, cp', [], QueueMap(Flat(state.runtimes)), map[])
  {
    hide MailOf, QueueMap, Flat, Named;
    forall e | e in Live(cp') && e.mode.Internal?
      ensures (e.Id(), e.acceptance) in QueueMap(Flat(state.runtimes)) && QueueMap(Flat(state.runtimes))[(e.Id(), e.acceptance)] == e.queue
    {
      QueueMapLive(state.runtimes, e);
    }
  }

  lemma DeferralRecord(cp: Checkpoint, cp': Checkpoint, causal: Entry, state: Aggregate)
    requires cp.record.Retained? && Defers(cp.record.aggregate, causal, state) && SourcesOk(state) && Everything(cp', []) == MailOf(state.runtimes)
    requires cp' == CommitDeferral(cp, state)
    ensures RecordAdvances(cp, cp', [])
  {
    hide MailOf, Mailboxes, SourcesOk, Distinct, Below, SyncAll, QueueMap, Flat, Everything;
  }

  lemma DeferralReceipts(cp: Checkpoint, state: Aggregate)
    ensures ReceiptsAdvance(cp, CommitDeferral(cp, state), [], [])
  {
    hide QueueMap, Flat, SyncAll, RewriteAll, SameBody;
    var q := QueueMap(Flat(state.runtimes));
    OnlySync(q, cp.receipts);
    RewriteBodies(q, map[], cp.receipts);
  }

  lemma DeferralRefs(cp: Checkpoint, state: Aggregate)
    requires cp.record.Retained? && Named(MailOf(state.runtimes)) && EntriesAdvance(cp, CommitDeferral(cp, state), [], [])
    ensures var cp' := CommitDeferral(cp, state);
            && |cp'.receipts| >= |cp.receipts|
            && (forall i :: 0 <= i < |cp.receipts| ==> SameBody(cp.receipts[i], cp'.receipts[i]))
            && RefsAdvance(cp, cp', [])
  {
    hide MailOf, Named, RefsAdvance, EntriesAdvance, QueueMap, Flat, Rewrites, SyncAll, RewriteAll, SameBody;
    var cp', q := CommitDeferral(cp, state), QueueMap(Flat(state.runtimes));
    DeferralReceipts(cp, state);
    DeferralRewrites(cp, cp', state);
    OnlySync(q, cp.receipts);
    assert cp'.receipts[..|cp.receipts|] == RewriteAll(map[], SyncAll(q, cp.receipts));
    RewriteAdvances(cp, cp', [], [], q, map[]);
  }

  lemma DeferralTransition(cp: Checkpoint, i: nat)
    requires Coherent(cp) && cp.record.Retained? && Runnable(cp.record.aggregate, i) && SourcesOk(DeferHead(cp.record.aggregate, i))
    ensures Transition(cp, CommitDeferral(cp, DeferHead(cp.record.aggregate, i)), [], [])
  {
    hide Coherent, Ready, EntriesAdvance, RefsAdvance, RecordAdvances, EffectsAdvance, AnnouncementsOk, ReceiptsAdvance, SourcesOk, Follows, Moved;
    hide MailOf, Mailboxes, Below, Numbered, Named, CommitDeferral, SameBody, DeferHead, Everything;
    var a := cp.record.aggregate;
    var state, causal := DeferHead(a, i), a.runtimes[i].ready[0];
    var cp' := CommitDeferral(cp, state);
    InvReady(cp);
    DeferHeadDefers(a, i);
    DeferralShape(cp, state);
    DeferralEntries(cp, cp', causal, state);
    DeferralRecord(cp, cp', causal, state);
    DeferralReceipts(cp, state);
    DeferralRefs(cp, state);
    NoEffects(cp, cp');
    NoAnnouncements(cp, cp');
  }

  lemma DeferralShape(cp: Checkpoint, state: Aggregate)
    ensures var cp' := CommitDeferral(cp, state);
            && cp'.record == Retained(state) && cp'.pending == cp.pending && cp'.terminals == cp.terminals
            && cp'.compacted == cp.compacted && cp'.nextTerminal == cp.nextTerminal
  {
  }

  lemma NoAnnouncements(cp: Checkpoint, cp': Checkpoint)
    requires cp.record.Retained?
    ensures AnnouncementsOk(cp, cp', [], [])
  {
  }

  lemma NoEffects(cp: Checkpoint, cp': Checkpoint)
    requires cp.record.Retained? && cp'.pending == cp.pending
    requires cp'.terminals == cp.terminals && cp'.compacted == cp.compacted && cp'.nextTerminal == cp.nextTerminal
    ensures EffectsAdvance(cp, cp', [])
  {
  }

  // ------------------------------------------------------------------------------------------
  // Root tombstone
  // ------------------------------------------------------------------------------------------

  lemma BuryingsEntries(es: seq<Entry>)
    ensures Entries(Buryings(es)) == es && |Buryings(es)| == |es|
  {
  }

  lemma DistinctList(es: seq<Entry>)
    requires Distinct(multiset(es))
    ensures DistinctIds(es)
  {
    forall i, j | 0 <= i < j < |es| ensures es[i].Id() != es[j].Id() {
      DistinctAt(es, i, j);
    }
  }

  lemma DistinctAt(es: seq<Entry>, i: nat, j: nat)
    requires Distinct(multiset(es)) && i < j < |es|
    ensures es[i].Id() != es[j].Id()
  {
    assert es == es[..j] + [es[j]] + es[j + 1..];
    assert es[..j][i] == es[i];
    assert multiset(es) == multiset(es[..j]) + multiset{es[j]} + multiset(es[j + 1..]);
    assert es[i] in multiset(es) && es[j] in multiset(es);
  }

  lemma BuriedRewrites(cp: Checkpoint, cp': Checkpoint, es: seq<Entry>)
    requires DistinctIds(es) && Live(cp') == multiset{}
    ensures Rewrites(cp, cp', es, map[], EndedBy(Buryings(es), cp.nextReceipt, map[]))
  {
    hide EndedBy, Live;
    BuryingsEntries(es);
    forall j | 0 <= j < |es| ensures var t := EndedBy(Buryings(es), cp.nextReceipt, map[]); es[j].Id() in t && t[es[j].Id()] == cp.nextReceipt + j {
      EndedByAt(Buryings(es), cp.nextReceipt, map[], j);
    }
  }

  lemma BuriedEntries(cp: Checkpoint, cp': Checkpoint, es: seq<Entry>)
    requires cp.record.Retained? && multiset(es) == Live(cp) && Distinct(Live(cp)) && Live(cp') == multiset{}
    ensures EntriesAdvance(cp, cp', es, []) && Everything(cp', es) == multiset(es)
  {
    hide Live, Distinct;
    assert multiset{} + multiset(es) == multiset(es);
    assert forall j :: 0 <= j < |es| ==> es[j] in multiset(es);
    forall b | b in Live(cp) ensures exists j :: 0 <= j < |es| && es[j] == b {
      assert b in multiset(es);
    }
  }

  lemma BuriedReceipts(cp: Checkpoint, cp': Checkpoint, es: seq<Entry>, old': seq<Receipt>, status: Status)
    requires |old'| == |cp.receipts| && forall i :: 0 <= i < |old'| ==> SameBody(cp.receipts[i], old'[i])
    requires cp'.receipts == old' + LifecycleReceipts(Buryings(es), cp.nextReceipt, cp'.revision, CurrentDigest(cp'), status)
    requires cp'.nextReceipt == cp.nextReceipt + |es|
    ensures ReceiptsAdvance(cp, cp', es, [])
  {
    hide SameBody, CurrentDigest, LifecycleReceipts, Buryings, EndsAt;
    var n, ends := |cp.receipts|, LifecycleReceipts(Buryings(es), cp.nextReceipt, cp'.revision, CurrentDigest(cp'), status);
    BurialCount(es, cp.nextReceipt, cp'.revision, CurrentDigest(cp'), status);
    forall i | 0 <= i < n ensures SameBody(cp.receipts[i], cp'.receipts[i]) {
      assert cp'.receipts[i] == old'[i];
    }
    forall j: nat | j < |es| ensures EndsAt(cp, cp', es, [], j) {
      BurialAt(es, cp.nextReceipt, cp'.revision, CurrentDigest(cp'), status, j);
      assert cp'.receipts[n + j] == ends[j];
      BurialEnds(cp, cp', es, j);
    }
  }

  lemma BurialEnds(cp: Checkpoint, cp': Checkpoint, es: seq<Entry>, j: nat)
    requires j < |es| && |cp'.receipts| == |cp.receipts| + |es|
    requires EndsBurial(cp'.receipts[|cp.receipts| + j], es[j], cp.nextReceipt + j, cp'.revision, CurrentDigest(cp'))
    ensures EndsAt(cp, cp', es, [], j)
  {
  }

  predicate EndsBurial(r: Receipt, e: Entry, sequence: nat, revision: nat, digest: AggregateDigest) {
    Ends(r, e) && r.sequence == sequence && r.revision == revision && r.digest == digest && r.refs == []
  }

  lemma BurialCount(es: seq<Entry>, first: nat, revision: nat, digest: AggregateDigest, status: Status)
    ensures |LifecycleReceipts(Buryings(es), first, revision, digest, status)| == |es|
  {
  }

  lemma BurialAt(es: seq<Entry>, first: nat, revision: nat, digest: AggregateDigest, status: Status, j: nat)
    requires j < |es|
    ensures var rs := LifecycleReceipts(Buryings(es), first, revision, digest, status);
            |rs| == |es| && EndsBurial(rs[j], es[j], first + j, revision, digest)
  {
  }

  lemma TombstoneTransition(cp: Checkpoint, status: Status, operationId: Text)
    requires Coherent(cp) && cp.record.Retained?
    ensures Transition(cp, TombstoneInto(cp, cp.record.aggregate, status, operationId), Flat(cp.record.aggregate.runtimes), [])
  {
    hide Coherent, Sourced, Ready, EntriesAdvance, RefsAdvance, SourcesOk, Mailboxes, MailOf, Numbered, Below, Flat, Rewrites, SyncAll, RewriteAll, SameBody;
    hide Buryings, EndedBy, LifecycleReceipts, ReceiptsAdvance, EffectsAdvance, Distinct;
    var a := cp.record.aggregate;
    var es := Flat(a.runtimes);
    var cp', t := TombstoneInto(cp, a, status, operationId), EndedBy(Buryings(es), cp.nextReceipt, map[]);
    InvReady(cp);
    ReadyDistinct(a);
    FlatMail(a.runtimes);
    DistinctList(es);
    BuryingsEntries(es);
    BuriedEntries(cp, cp', es);
    BuriedRewrites(cp, cp', es);
    OnlyRewrite(t, cp.receipts);
    RewriteBodies(map[], t, cp.receipts);
    assert cp'.receipts[..|cp.receipts|] == RewriteAll(t, SyncAll(map[], cp.receipts));
    RewriteAdvances(cp, cp', es, [], map[], t);
    BuriedReceipts(cp, cp', es, RewriteAll(t, cp.receipts), status);
    NoEffects(cp, cp');
  }

  /** Tombstoning a root preserves the invariant, so its final validation never fails. */
  lemma TombstoneInv(cp: Checkpoint, operationId: Text, g: Guard)
    requires Inv(cp)
    ensures TombstoneRoot(cp, operationId, g).Ok? ==>
              TombstoneRoot(cp, operationId, g).value.Next? && Inv(TombstoneRoot(cp, operationId, g).value.next)
  {
    hide Coherent, Sourced, Transition, TombstoneInto;
    if cp.record.Retained? {
      var a := cp.record.aggregate;
      TombstoneTransition(cp, Completed, operationId);
      TransitionInv(cp, TombstoneInto(cp, a, Completed, operationId), Flat(a.runtimes), []);
      TombstoneTransition(cp, Faulted, operationId);
      TransitionInv(cp, TombstoneInto(cp, a, Faulted, operationId), Flat(a.runtimes), []);
    }
  }
}
