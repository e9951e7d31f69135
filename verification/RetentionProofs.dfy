/** What the retention policies guarantee over runs, and which operations they always accept. */
module RetentionProofs {
  import opened CheckpointModel
  import opened CheckpointValidity
  import opened WireCore
  import opened StepContract
  import opened Transitions
  import opened TransitionEvents
  import opened TransitionRefs
  import opened TransitionTheorem
  import opened CheckpointOps
  import opened Rewriting
  import opened Retention
  import opened AdmitProofs
  import opened ProcessProofs
  import opened StepTheorem

  // ------------------------------------------------------------------------------------------
  // Permanent receipts over runs of accepted replacements
  // ------------------------------------------------------------------------------------------

  /** A mailbox reference may advance or end; every other reference stays as it is. */
  predicate RefLater(r: Reference, r': Reference) {
    || r == r'
    || (r.MailboxRef? && SameEmission(r, r') && (r'.MailboxRef? ==> r'.queue > r.queue))
  }

  predicate ReceiptLater(r: Receipt, r': Receipt) {
    SameBody(r, r') && forall k :: 0 <= k < |r.Refs()| ==> RefLater(r.Refs()[k], r'.Refs()[k])
  }

  /** Receipts are never removed or replaced; their references only advance. */
  predicate History(cp: Checkpoint, cp': Checkpoint) {
    |cp.receipts| <= |cp'.receipts| && forall i :: 0 <= i < |cp.receipts| ==> ReceiptLater(cp.receipts[i], cp'.receipts[i])
  }

  lemma EvolveIsHistory(before: Checkpoint, after: Checkpoint)
    requires ReceiptsEvolve(before, after)
    ensures History(before, after)
  {
    forall i | 0 <= i < |before.receipts| ensures ReceiptLater(before.receipts[i], after.receipts[i]) {
      assert ReceiptEvolves(before, after, before.receipts[i], after.receipts[i]);
    }
  }

  lemma HistoryTrans(a: Checkpoint, b: Checkpoint, c: Checkpoint)
    requires History(a, b) && History(b, c)
    ensures History(a, c)
  {
    forall i | 0 <= i < |a.receipts| ensures ReceiptLater(a.receipts[i], c.receipts[i]) {
      assert ReceiptLater(a.receipts[i], b.receipts[i]) && ReceiptLater(b.receipts[i], c.receipts[i]);
    }
  }

  /** Consecutive checkpoints of one root that the store's policy accepted. */
  predicate AcceptedRun(mode: StoreMode, run: seq<Checkpoint>) {
    && (forall k :: 0 <= k < |run| - 1 ==> ReplacementAllowed(mode, run[k], run[k + 1]))
    && (forall k, l :: 0 <= k < |run| && 0 <= l < |run| ==> run[k].root == run[l].root)
  }

  /** Over a run, receipt bodies are immutable, queue numbers only grow, ended and external references never change. */
  lemma {:induction false} PermanentHistory(mode: StoreMode, run: seq<Checkpoint>, i: nat, j: nat)
    requires mode.receipts.PermanentReceipts? && AcceptedRun(mode, run) && i <= j < |run|
    ensures History(run[i], run[j])
    decreases j
  {
    hide History, ReplacementAllowed;
    if i == j {
      HistoryRefl(run[i]);
    } else {
      PermanentHistory(mode, run, i, j - 1);
      assert ReplacementAllowed(mode, run[j - 1], run[j - 1 + 1]);
      AllowedParts(mode, run[j - 1], run[j]);
      EvolveIsHistory(run[j - 1], run[j]);
      HistoryTrans(run[i], run[j - 1], run[j]);
    }
  }

  lemma HistoryRefl(cp: Checkpoint)
    ensures History(cp, cp)
  {
  }

  lemma AllowedParts(mode: StoreMode, before: Checkpoint, after: Checkpoint)
    requires ReplacementAllowed(mode, before, after)
    ensures mode.receipts.PermanentReceipts? ==> ReceiptsEvolve(before, after)
    ensures mode.outbox.StrictOutbox? ==> TerminalsStay(before, after) && after.compacted == []
    ensures mode.outbox.CompactOutbox? ==> TombstonesStay(before, after) && EvidenceStays(before, after)
  {
    hide ReceiptsEvolve, TerminalsStay, TombstonesStay, EvidenceStays;
  }

  // ------------------------------------------------------------------------------------------
  // Terminal effects over runs
  // ------------------------------------------------------------------------------------------

  /** An effect reference, once made, stays. */
  lemma ReferenceStays(cp: Checkpoint, cp': Checkpoint, f: Text)
    requires History(cp, cp') && Referenced(cp.receipts, f)
    ensures Referenced(cp'.receipts, f)
  {
    var i, k :| 0 <= i < |cp.receipts| && 0 <= k < |cp.receipts[i].Refs()| && cp.receipts[i].Refs()[k].OutboxRef? && cp.receipts[i].Refs()[k].effectId == f;
    assert ReceiptLater(cp.receipts[i], cp'.receipts[i]);
    assert RefLater(cp.receipts[i].Refs()[k], cp'.receipts[i].Refs()[k]);
  }

  /** The outcome, terminal number, revision and intent of `t` are retained in full or as a tombstone. */
  predicate Evidenced(cp: Checkpoint, t: TerminalEffect) {
    t in cp.terminals || exists c :: c in cp.compacted && TombstoneMatches(cp.root, t, c)
  }

  /**
   With permanent receipts and a compact outbox, an effect that ever became terminal keeps its
   outcome, terminal number, revision and intent digest in every later accepted checkpoint.
   */
  lemma {:induction false} CompactEvidence(mode: StoreMode, run: seq<Checkpoint>, i: nat, j: nat, t: TerminalEffect)
    requires mode == StoreMode(PermanentReceipts, CompactOutbox) && AcceptedRun(mode, run) && i <= j < |run|
    requires t in run[i].terminals && Referenced(run[i].receipts, t.intent.effectId)
    ensures Evidenced(run[j], t)
    decreases j
  {
    hide History, ReplacementAllowed, ReceiptsEvolve, Referenced;
    if i < j {
      CompactEvidence(mode, run, i, j - 1, t);
      assert ReplacementAllowed(mode, run[j - 1], run[j - 1 + 1]);
      AllowedParts(mode, run[j - 1], run[j]);
      PermanentHistory(mode, run, i, j);
      ReferenceStays(run[i], run[j], t.intent.effectId);
      EvidenceStep(run[j - 1], run[j], t);
    }
  }

  lemma EvidenceStep(before: Checkpoint, after: Checkpoint, t: TerminalEffect)
    requires TombstonesStay(before, after) && EvidenceStays(before, after) && before.root == after.root
    requires Referenced(after.receipts, t.intent.effectId) && Evidenced(before, t)
    ensures Evidenced(after, t)
  {
    hide Referenced;
    if t in before.terminals {
      var k :| 0 <= k < |before.terminals| && before.terminals[k] == t;
      assert TerminalEvidence(before, after, before.terminals[k]);
      if t !in after.terminals {
        var c := FindCompacted(after.compacted, t.intent.effectId);
        assert after.compacted[c] in after.compacted;
      }
    } else {
      var c :| c in before.compacted && TombstoneMatches(before.root, t, c);
      assert TombstoneMatches(before.root, t, c);
      var k :| 0 <= k < |before.compacted| && before.compacted[k] == c;
    }
  }

  /** With a strict outbox the full terminal record stays for ever and nothing is compacted. */
  lemma {:induction false} StrictEvidence(mode: StoreMode, run: seq<Checkpoint>, i: nat, j: nat, t: TerminalEffect)
    requires mode.outbox.StrictOutbox? && AcceptedRun(mode, run) && i <= j < |run| && t in run[i].terminals
    ensures t in run[j].terminals && (i < j ==> run[j].compacted == [])
    decreases j
  {
    hide ReplacementAllowed, ReceiptsEvolve;
    if i < j {
      StrictEvidence(mode, run, i, j - 1, t);
      assert ReplacementAllowed(mode, run[j - 1], run[j - 1 + 1]);
      AllowedParts(mode, run[j - 1], run[j]);
    }
  }

  // ------------------------------------------------------------------------------------------
  // Rewrites that permanent retention accepts
  // ------------------------------------------------------------------------------------------

  lemma {:induction false} NamingOne(es: seq<Entry>, r: Reference, e: Entry)
    requires Distinct(multiset(es)) && e in es && e.mode.Internal? && Names(r, e)
    ensures Naming(es, r) == 1
  {
    var init, last := es[..|es| - 1], es[|es| - 1];
    assert es == init + [last];
    assert multiset(es) == multiset(init) + multiset{last};
    if e == last {
      NamingNone(init, r, e, last);
    } else {
      SubDistinct(multiset(init), last);
      NamingOne(init, r, e);
      assert e in multiset(es) && last in multiset(es);
      assert !Names(r, last);
    }
  }

  lemma SubDistinct(m: multiset<Entry>, e: Entry)
    requires Distinct(m + multiset{e})
    ensures Distinct(m)
  {
    assert forall x :: x in m ==> x in m + multiset{e} && m[x] <= (m + multiset{e})[x];
  }

  lemma {:induction false} NamingNone(es: seq<Entry>, r: Reference, e: Entry, last: Entry)
    requires Names(r, e) && e == last && Distinct(multiset(es) + multiset{last})
    ensures Naming(es, r) == 0
  {
    if es != [] {
      var init, x := es[..|es| - 1], es[|es| - 1];
      assert es == init + [x];
      assert multiset(es) == multiset(init) + multiset{x};
      var m := multiset(es) + multiset{last};
      assert m[last] == multiset(es)[last] + 1;
      assert x in multiset(es) && x in m && last in m;
      assert x != last;
      assert !Names(r, x);
      assert multiset(es) + multiset{last} == (multiset(init) + multiset{last}) + multiset{x};
      SubDistinct(multiset(init) + multiset{last}, x);
      NamingNone(init, r, e, last);
    }
  }

  lemma {:induction false} EndingOne(rs: seq<Receipt>, r: Reference, j: nat)
    requires UniqueTerminals(rs) && j < |rs| && EndsIn(r, rs[j])
    ensures Ending(rs, r) == 1
  {
    var init := rs[..|rs| - 1];
    assert forall i :: 0 <= i < |init| ==> init[i] == rs[i];
    if j < |init| {
      EndingOne(init, r, j);
    } else {
      EndingNone(init, r, rs[j]);
    }
  }

  lemma {:induction false} EndingNone(rs: seq<Receipt>, r: Reference, t: Receipt)
    requires EndsIn(r, t) && forall i :: 0 <= i < |rs| && rs[i].Terminal? ==> rs[i].eventId != t.eventId
    ensures Ending(rs, r) == 0
  {
    if rs != [] {
      EndingNone(rs[..|rs| - 1], r, t);
    }
  }

  lemma LiveEntriesMail(cp: Checkpoint)
    ensures multiset(LiveEntries(cp)) == Live(cp)
  {
    if cp.record.Retained? {
      FlatMail(cp.record.aggregate.runtimes);
    }
  }

  /** Every reference that a transition rewrites evolves as permanent retention demands. */
  lemma ReferenceAccepted(cp: Checkpoint, cp': Checkpoint, out: seq<Entry>, refs: seq<Reference>, i: nat, k: nat)
    requires Coherent(cp) && Coherent(cp') && Transition(cp, cp', out, refs) && i < |cp.receipts| && k < |cp.receipts[i].Refs()|
    ensures i < |cp'.receipts| && k < |cp'.receipts[i].Refs()|
    ensures ReferenceEvolves(cp, cp', cp.receipts[i].sequence, cp.receipts[i].Refs()[k], cp'.receipts[i].Refs()[k])
  {
    hide Coherent, Transition, Live, Fate, Naming, Ending;
    RefFate(cp, cp', out, refs, i, k);
    var r, r' := cp.receipts[i].Refs()[k], cp'.receipts[i].Refs()[k];
    FateAccepted(cp, cp', out, refs, i, r, r');
  }

  lemma FateAccepted(cp: Checkpoint, cp': Checkpoint, out: seq<Entry>, refs: seq<Reference>, i: nat, r: Reference, r': Reference)
    requires Coherent(cp) && Coherent(cp') && Transition(cp, cp', out, refs) && i < |cp.receipts| && cp.record.Retained?
    requires Fate(cp, cp', out, r, r')
    ensures ReferenceEvolves(cp, cp', cp.receipts[i].sequence, r, r')
  {
    hide Coherent, Transition, Live, Naming, Ending, EndedAt;
    if r.MailboxRef? {
      var e :| e in Live(cp) && e.mode.Internal? && Names(r, e) && (Requeued(cp, cp', e, r, r') || EndedAt(cp, out, e, r, r'));
      assert Names(r, e);
      if Requeued(cp, cp', e, r, r') {
        var t :| t in Live(cp') && Moved(e, t, cp.record.aggregate.nextQueue) && Names(r', t) && r.index == r'.index;
        assert Moved(e, t, cp.record.aggregate.nextQueue) && Names(r', t);
        RequeueAccepted(cp, cp', e, t, r, r');
      } else {
        EndAccepted(cp, cp', out, refs, i, e, r, r');
      }
    }
  }

  lemma RequeueAccepted(cp: Checkpoint, cp': Checkpoint, e: Entry, t: Entry, r: Reference, r': Reference)
    requires Coherent(cp) && Coherent(cp') && cp.record.Retained? && e in Live(cp) && t in Live(cp') && e.mode.Internal? && Names(r, e) && Names(r', t)
    requires Moved(e, t, cp.record.aggregate.nextQueue) && r.index == r'.index
    ensures r' == r || (&& SameEmission(r, r') && r'.queue > r.queue && r'.queue >= cp.record.aggregate.nextQueue
                        && Naming(LiveEntries(cp'), r') == 1)
  {
    hide Coherent, Live, Naming, LiveEntries, Ended, Buried;
    CoherentIsConsistent(cp);
    LiveNumbers(cp, e);
    NamedOnce(cp', r', t);
  }

  lemma NamedOnce(cp: Checkpoint, r: Reference, t: Entry)
    requires Coherent(cp) && t in Live(cp) && t.mode.Internal? && Names(r, t)
    ensures Naming(LiveEntries(cp), r) == 1
  {
    hide Coherent, Live, Naming, LiveEntries, Distinct;
    LiveEntriesMail(cp);
    LiveDistinct(cp);
    assert t in multiset(LiveEntries(cp));
    NamingOne(LiveEntries(cp), r, t);
  }

  lemma LiveDistinct(cp: Checkpoint)
    requires Coherent(cp)
    ensures Distinct(Live(cp))
  {
    hide ReceiptsOk, UniqueAcceptances, UniqueTerminals, AllocationsOk, DigestsOk, Traceable, AcceptancesLead, TombstonesOk, OwnersOk, QueuesOk;
    hide TerminalsExplained, ReferencesOk, StagesOk, EffectsOk, Strong, MailOf;
  }

  lemma EndAccepted(cp: Checkpoint, cp': Checkpoint, out: seq<Entry>, refs: seq<Reference>, i: nat, e: Entry, r: Reference, r': Reference)
    requires Coherent(cp) && Coherent(cp') && Transition(cp, cp', out, refs) && i < |cp.receipts| && Names(r, e) && EndedAt(cp, out, e, r, r')
    ensures SameEmission(r, r') && r'.TerminalRef? && r'.terminal > cp.receipts[i].sequence && r'.terminal >= cp.nextReceipt
    ensures Ending(cp'.receipts, r') == 1
  {
    hide Coherent, Transition, Ending, Everything, Distinct, AllocationsOk, QueuesOk, UniqueAcceptances;
    ValidTerminals(cp);
    ValidTerminals(cp');
    TransitionBasics(cp, cp', out, refs);
    var j :| 0 <= j < |out| && out[j] == e && r'.TerminalRef? && r'.index == r.index && r'.eventId == e.Id()
             && r'.acceptance == e.acceptance && r'.terminal == cp.nextReceipt + j;
    Split(cp, cp', out, refs, |cp.receipts| + j);
    assert EndsIn(r', cp'.receipts[|cp.receipts| + j]);
    EndingOne(cp'.receipts, r', |cp.receipts| + j);
  }

  /** Permanent retention accepts every step, deferral and root tombstone. */
  lemma TransitionAccepted(cp: Checkpoint, cp': Checkpoint, out: seq<Entry>, refs: seq<Reference>)
    requires Coherent(cp) && Transition(cp, cp', out, refs)
    ensures ReceiptsEvolve(cp, cp')
  {
    hide Coherent, Transition, ReferenceEvolves, Everything, Distinct;
    TransitionCoherent(cp, cp', out, refs);
    TransitionBasics(cp, cp', out, refs);
    forall i | 0 <= i < |cp.receipts| ensures ReceiptEvolves(cp, cp', cp.receipts[i], cp'.receipts[i]) {
      Split(cp, cp', out, refs, i);
      forall k | 0 <= k < |cp.receipts[i].Refs()|
        ensures ReferenceEvolves(cp, cp', cp.receipts[i].sequence, cp.receipts[i].Refs()[k], cp'.receipts[i].Refs()[k])
      {
        ReferenceAccepted(cp, cp', out, refs, i, k);
      }
    }
  }

  /** A replacement that leaves the old receipts as they are is accepted. */
  lemma UnchangedAccepted(cp: Checkpoint, cp': Checkpoint)
    requires |cp.receipts| <= |cp'.receipts| && forall i :: 0 <= i < |cp.receipts| ==> cp'.receipts[i] == cp.receipts[i]
    ensures ReceiptsEvolve(cp, cp')
  {
  }

  /** Permanent retention accepts the fused commit of a process against the checkpoint before it. */
  lemma FusedAccepted(cp: Checkpoint, d: Delivery, admitted: Checkpoint, stepped: Checkpoint, out: seq<Entry>, refs: seq<Reference>)
    requires Coherent(cp) && Coherent(admitted) && AdmittedAndStepped(cp, d, admitted, stepped, out, refs)
    ensures ReceiptsEvolve(cp, Clip(stepped, cp.revision + 1))
  {
    hide Coherent, Transition, Extends, ReceiptEvolves, Clip, SameBody, Everything, Distinct, Ready, CurrentDigest;
    TransitionAccepted(admitted, stepped, out, refs);
    TransitionCoherent(admitted, stepped, out, refs);
    ExtendsFacts(cp, [d], admitted);
    TransitionBasics(admitted, stepped, out, refs);
    ClipBasics(stepped, cp.revision + 1);
    forall i | 0 <= i < |cp.receipts| ensures ReceiptEvolves(cp, Clip(stepped, cp.revision + 1), cp.receipts[i], Clip(stepped, cp.revision + 1).receipts[i]) {
      ReceiptAt(cp, [d], admitted, i);
      ClipAt(stepped, cp.revision + 1, i);
      SteppedReceipt(cp, d, admitted, stepped, out, refs, i);
      ClipUnchanged(stepped.receipts[i], cp.revision + 1);
      EvolvesAgain(cp, admitted, stepped, cp.revision + 1, cp.receipts[i], stepped.receipts[i]);
    }
  }

  lemma ClipUnchanged(r: Receipt, limit: nat)
    requires r.revision <= limit
    ensures ClipReceipt(r, limit) == r
  {
  }

  /** Evolution from a later checkpoint with the same receipt is evolution from the earlier one. */
  lemma EvolvesAgain(cp: Checkpoint, admitted: Checkpoint, stepped: Checkpoint, limit: nat, r: Receipt, r': Receipt)
    requires ReceiptEvolves(admitted, stepped, r, r') && cp.record.Retained? && admitted.record.Retained?
    requires cp.record.aggregate.nextQueue <= admitted.record.aggregate.nextQueue && cp.nextReceipt <= admitted.nextReceipt
    ensures ReceiptEvolves(cp, Clip(stepped, limit), r, r')
  {
    hide Naming, Ending, Clip, LiveEntries;
    forall k | 0 <= k < |r.Refs()| ensures ReferenceEvolves(cp, Clip(stepped, limit), r.sequence, r.Refs()[k], r'.Refs()[k]) {
      assert ReferenceEvolves(admitted, stepped, r.sequence, r.Refs()[k], r'.Refs()[k]);
      ClipBasics(stepped, limit);
      assert LiveEntries(Clip(stepped, limit)) == LiveEntries(stepped) by { SameEntries(stepped, Clip(stepped, limit)); }
      ClipEnding(stepped, limit, |stepped.receipts|, r'.Refs()[k]);
      assert stepped.receipts[..|stepped.receipts|] == stepped.receipts;
      assert Clip(stepped, limit).receipts[..|stepped.receipts|] == Clip(stepped, limit).receipts;
    }
  }

  lemma SameEntries(cp: Checkpoint, cp': Checkpoint)
    requires cp.record == cp'.record
    ensures LiveEntries(cp) == LiveEntries(cp')
  {
  }

  lemma {:induction false} ClipEnding(cp: Checkpoint, limit: nat, n: nat, r: Reference)
    requires n <= |cp.receipts|
    ensures |Clip(cp, limit).receipts| == |cp.receipts|
    ensures Ending(Clip(cp, limit).receipts[..n], r) == Ending(cp.receipts[..n], r)
  {
    hide Clip;
    ClipBasics(cp, limit);
    var c := Clip(cp, limit);
    if n > 0 {
      ClipEnding(cp, limit, n - 1, r);
      ClipAt(cp, limit, n - 1);
      assert c.receipts[..n][..n - 1] == c.receipts[..n - 1] && cp.receipts[..n][..n - 1] == cp.receipts[..n - 1];
      assert EndsIn(r, c.receipts[n - 1]) <==> EndsIn(r, cp.receipts[n - 1]);
    }
  }
}
