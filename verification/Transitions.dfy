/**
 The common shape of step, deferral and root tombstone: old receipts evolve in place, the
 entries `out` end in new receipts, and the first new receipt announces the new entries.
 Every such transition preserves the invariant.
 */
module Transitions {
  import opened CheckpointModel
  import opened CheckpointValidity
  import opened StepContract

  // ------------------------------------------------------------------------------------------
  // The shape
  // ------------------------------------------------------------------------------------------

  /** Equal up to the contents of the emission references. */
  predicate SameBody(r: Receipt, r': Receipt) {
    match r
    case Creation(s, c, q, v, d, t, refs) => r'.Creation? && r' == Creation(s, c, q, v, d, t, r'.refs) && |r'.refs| == |refs|
    case Acceptance(_, _, _, _, _, _) => r' == r
    case Terminal(s, e, q, a, f, v, d, o, refs) => r'.Terminal? && r' == Terminal(s, e, q, a, f, v, d, o, r'.refs) && |r'.refs| == |refs|
  }

  /** Receipt `r` ends entry `x`. */
  predicate Ends(r: Receipt, x: Entry) {
    r.Terminal? && r.eventId == x.Id() && r.request' == x.digest && r.acceptance == x.acceptance && r.finalQueue == x.queue
  }

  /** What becomes of a reference: its entry was requeued, or it ended in one of the new receipts. */
  ghost predicate RefMoves(cp: Checkpoint, cp': Checkpoint, out: seq<Entry>, r: Reference, r': Reference)
    requires cp.record.Retained?
  {
    match r
    case OutboxRef(_, _) => r' == r
    case TerminalRef(_, _, _, _) => r' == r
    case MailboxRef(index, id, acceptance, _) =>
      forall e :: e in Live(cp) && e.mode.Internal? && Names(r, e) ==>
        || (exists t :: t in Live(cp') && Moved(e, t, cp.record.aggregate.nextQueue) && r' == MailboxRef(index, id, acceptance, t.queue))
        || (exists j :: 0 <= j < |out| && out[j] == e && r' == TerminalRef(index, id, acceptance, cp.nextReceipt + j))
  }

  /** The j-th new receipt ends the j-th entry of `out` in the new revision. */
  predicate EndsAt(cp: Checkpoint, cp': Checkpoint, out: seq<Entry>, refs: seq<Reference>, j: nat)
    requires j < |out| && |cp'.receipts| == |cp.receipts| + |out|
  {
    var r := cp'.receipts[|cp.receipts| + j];
    && Ends(r, out[j])
    && r.sequence == cp.nextReceipt + j
    && r.revision == cp'.revision
    && r.digest == CurrentDigest(cp')
    && r.refs == (if j == 0 then refs else [])
  }

  /** Old receipts keep their bodies, new ones end the entries `out` in the new revision. */
  ghost predicate ReceiptsAdvance(cp: Checkpoint, cp': Checkpoint, out: seq<Entry>, refs: seq<Reference>) {
    var n := |cp.receipts|;
    && |cp'.receipts| == n + |out|
    && cp'.nextReceipt == cp.nextReceipt + |out|
    && (forall i :: 0 <= i < n ==> SameBody(cp.receipts[i], cp'.receipts[i]))
    && (forall j: nat :: j < |out| ==> EndsAt(cp, cp', out, refs, j))
    && (out == [] ==> refs == [])
  }

  ghost predicate RefsAdvance(cp: Checkpoint, cp': Checkpoint, out: seq<Entry>)
    requires cp.record.Retained? && |cp'.receipts| >= |cp.receipts|
    requires forall i :: 0 <= i < |cp.receipts| ==> SameBody(cp.receipts[i], cp'.receipts[i])
  {
    forall i, k :: 0 <= i < |cp.receipts| && 0 <= k < |cp.receipts[i].Refs()| ==>
      && k < |cp'.receipts[i].Refs()|
      && RefMoves(cp, cp', out, cp.receipts[i].Refs()[k], cp'.receipts[i].Refs()[k])
  }

  /** The entries after the transition, live or ended. */
  function Everything(cp': Checkpoint, out: seq<Entry>): multiset<Entry> {
    Live(cp') + multiset(out)
  }

  ghost predicate EntriesAdvance(cp: Checkpoint, cp': Checkpoint, out: seq<Entry>, refs: seq<Reference>)
    requires cp.record.Retained?
  {
    var a := cp.record.aggregate;
    && Distinct(Everything(cp', out))
    // every live entry was live, or is announced
    && (forall t :: t in Live(cp') ==>
          || (exists b :: b in Live(cp) && Moved(b, t, a.nextQueue))
          || (New(a, t) && exists k :: 0 <= k < |refs| && Names(refs[k], t)))
    // every ended entry was live, or is announced as ended
    && (forall j :: 0 <= j < |out| ==>
          || out[j] in Live(cp)
          || (New(a, out[j]) && exists k :: 0 <= k < |refs| && refs[k].TerminalRef? && refs[k].eventId == out[j].Id()
                                      && refs[k].acceptance == out[j].acceptance && refs[k].terminal == cp.nextReceipt + j))
    // no live entry gets lost
    && (forall b :: b in Live(cp) ==>
          || (exists t :: t in Live(cp') && Moved(b, t, a.nextQueue))
          || (exists j :: 0 <= j < |out| && out[j] == b))
  }

  /** Each announcement in the first new receipt is about a new entry, ended only in a later receipt. */
  ghost predicate Announces(cp: Checkpoint, cp': Checkpoint, out: seq<Entry>, r: Reference)
    requires cp.record.Retained?
  {
    match r
    case OutboxRef(_, _) => true
    case MailboxRef(_, _, _, _) => exists t :: t in Live(cp') && New(cp.record.aggregate, t) && Names(r, t)
    case TerminalRef(_, id, acceptance, terminal) =>
      exists j :: 1 <= j < |out| && New(cp.record.aggregate, out[j]) && out[j].Id() == id && out[j].acceptance == acceptance
               && terminal == cp.nextReceipt + j
  }

  /** Announced events are new to the checkpoint, and no two announcements are about one event. */
  ghost predicate AnnouncementsOk(cp: Checkpoint, cp': Checkpoint, out: seq<Entry>, refs: seq<Reference>)
    requires cp.record.Retained?
  {
    && (forall k :: 0 <= k < |refs| ==> Announces(cp, cp', out, refs[k]))
    && (forall k :: 0 <= k < |refs| && !refs[k].OutboxRef? ==>
          !Ended(cp.receipts, refs[k].eventId) && !Buried(cp.tombstones, refs[k].eventId) && !IsLive(cp, refs[k].eventId))
    && (forall k, l :: 0 <= k < l < |refs| && !refs[k].OutboxRef? && !refs[l].OutboxRef? ==> refs[k].eventId != refs[l].eventId)
  }

  /** New pending records, one for each announced effect, with output numbers not yet used. */
  ghost predicate EffectsAdvance(cp: Checkpoint, cp': Checkpoint, refs: seq<Reference>)
    requires cp.record.Retained?
  {
    && |cp'.pending| >= |cp.pending|
    && cp'.pending[..|cp.pending|] == cp.pending
    && cp'.terminals == cp.terminals && cp'.compacted == cp.compacted && cp'.nextTerminal == cp.nextTerminal
    && (forall i :: |cp.pending| <= i < |cp'.pending| ==>
          && cp'.pending[i].revision == cp'.revision
          && cp'.pending[i].intent.sequence >= cp.record.aggregate.nextOutput
          && (cp'.record.Retained? ==> cp'.pending[i].intent.sequence < cp'.record.aggregate.nextOutput)
          && !IsPending(cp, cp'.pending[i].intent.effectId)
          && !IsTerminal(cp, cp'.pending[i].intent.effectId)
          && !IsCompacted(cp, cp'.pending[i].intent.effectId))
    && (forall i, j :: |cp.pending| <= i < j < |cp'.pending| ==>
          && cp'.pending[i].intent.sequence < cp'.pending[j].intent.sequence
          && cp'.pending[i].intent.effectId != cp'.pending[j].intent.effectId)
    && (forall k, l :: 0 <= k < l < |refs| && refs[k].OutboxRef? && refs[l].OutboxRef? ==> refs[k].effectId != refs[l].effectId)
    && (forall f :: AnnouncesEffect(refs, f) <==> NewPending(cp, cp', f))
  }

  ghost predicate AnnouncesEffect(refs: seq<Reference>, f: Text) {
    exists k :: 0 <= k < |refs| && refs[k].OutboxRef? && refs[k].effectId == f
  }

  ghost predicate NewPending(cp: Checkpoint, cp': Checkpoint, f: Text) {
    exists i :: |cp.pending| <= i < |cp'.pending| && cp'.pending[i].intent.effectId == f
  }

  /** The new root record continues the old one. */
  ghost predicate RecordAdvances(cp: Checkpoint, cp': Checkpoint, out: seq<Entry>)
    requires cp.record.Retained?
  {
    var a := cp.record.aggregate;
    && cp'.root == cp.root && cp'.retention == cp.retention && cp'.tombstones == cp.tombstones
    && cp'.revision == cp.revision + 1
    && RecordedCreation(cp') == a.creationId
    && (cp'.record.Retained? ==>
          var a' := cp'.record.aggregate;
          && a'.root == a.root
          && a'.nextAcceptance >= a.nextAcceptance && a'.nextQueue >= a.nextQueue && a'.nextOutput >= a.nextOutput
          && Mailboxes(a')
          && SourcesOk(a')
          && Below(Everything(cp', out), a'.nextAcceptance, a'.nextQueue))
  }

  ghost predicate Transition(cp: Checkpoint, cp': Checkpoint, out: seq<Entry>, refs: seq<Reference>) {
    && cp.record.Retained?
    && RecordAdvances(cp, cp', out)
    && ReceiptsAdvance(cp, cp', out, refs)
    && RefsAdvance(cp, cp', out)
    && EntriesAdvance(cp, cp', out, refs)
    && AnnouncementsOk(cp, cp', out, refs)
    && EffectsAdvance(cp, cp', refs)
  }

  // ------------------------------------------------------------------------------------------
  // Basic consequences
  // ------------------------------------------------------------------------------------------

  /** A new receipt is the j-th of the new ones. */
  lemma ReceiptSplit(cp: Checkpoint, cp': Checkpoint, out: seq<Entry>, refs: seq<Reference>, i: int)
    requires ReceiptsAdvance(cp, cp', out, refs) && 0 <= i < |cp'.receipts|
    ensures i < |cp.receipts| ==> SameBody(cp.receipts[i], cp'.receipts[i])
    ensures i >= |cp.receipts| ==>
              var j := i - |cp.receipts|;
              && 0 <= j < |out| && Ends(cp'.receipts[i], out[j]) && cp'.receipts[i].sequence == cp.nextReceipt + j
              && cp'.receipts[i].revision == cp'.revision && cp'.receipts[i].digest == CurrentDigest(cp')
              && cp'.receipts[i].refs == (if j == 0 then refs else [])
  {
    if i >= |cp.receipts| {
      assert EndsAt(cp, cp', out, refs, i - |cp.receipts|);
    }
  }

  lemma NewReceiptsOk(cp: Checkpoint, cp': Checkpoint, out: seq<Entry>, refs: seq<Reference>)
    requires ReceiptsOk(cp) && cp.record.Retained? && RecordAdvances(cp, cp', out) && ReceiptsAdvance(cp, cp', out, refs)
    ensures ReceiptsOk(cp')
  {
    hide SourcesOk, Mailboxes, Below, Everything, MailOf;
    forall i | 0 <= i < |cp'.receipts|
      ensures i == 0 ==> cp'.receipts[i].Creation? && cp'.receipts[i].sequence == 0
      ensures i > 0 ==> !cp'.receipts[i].Creation? && cp'.receipts[i].sequence == cp'.retention.Base() + i
      ensures cp'.receipts[i].revision <= cp'.revision
      ensures i < |cp.receipts| ==> cp'.receipts[i].revision == cp.receipts[i].revision
      ensures i >= |cp.receipts| ==> cp'.receipts[i].revision == cp'.revision
    {
      ReceiptSplit(cp, cp', out, refs, i);
    }
  }

  /** Every entry that was live is accounted for once. */
  lemma OutWasLiveOrNew(cp: Checkpoint, cp': Checkpoint, out: seq<Entry>, refs: seq<Reference>, j: nat)
    requires Transition(cp, cp', out, refs) && j < |out|
    ensures out[j] in Everything(cp', out)
    ensures out[j] !in Live(cp')
    ensures out[j] in Live(cp) || New(cp.record.aggregate, out[j])
  {
    hide RecordAdvances, ReceiptsAdvance, RefsAdvance, AnnouncementsOk, EffectsAdvance, Live, Named;
    assert out[j] in multiset(out);
    assert Everything(cp', out)[out[j]] == Live(cp')[out[j]] + multiset(out)[out[j]];
  }

  // ------------------------------------------------------------------------------------------
  // Events
  // ------------------------------------------------------------------------------------------

  /** The parts of the invariant that speak about events, for the checkpoint before. */
  lemma LiveNumbers(cp: Checkpoint, e: Entry)
    requires Consistent(cp) && cp.record.Retained? && e in Live(cp)
    ensures e.acceptance < cp.record.aggregate.nextAcceptance && e.queue < cp.record.aggregate.nextQueue
    ensures !Ended(cp.receipts, e.Id()) && !Buried(cp.tombstones, e.Id())
  {
    hide MailOf, ReceiptsOk, UniqueAcceptances, UniqueTerminals, AllocationsOk, DigestsOk, AcceptancesLead;
    hide OwnersOk, TerminalsExplained, ReferencesOk, StagesOk, EffectsOk, Distinct;
    assert IsLive(cp, e.Id());
  }

  /** An entry that was announced or kept has the identity of an event that has neither ended nor been buried. */
  lemma AfterIsFresh(cp: Checkpoint, cp': Checkpoint, out: seq<Entry>, refs: seq<Reference>, t: Entry)
    requires Consistent(cp) && Transition(cp, cp', out, refs)
    requires t in Live(cp') || t in out
    ensures !Ended(cp.receipts, t.Id()) && !Buried(cp.tombstones, t.Id())
    ensures || (exists b :: b in Live(cp) && Moved(b, t, cp.record.aggregate.nextQueue))
            || (New(cp.record.aggregate, t) && !IsLive(cp, t.Id()))
    ensures cp'.record.Retained? ==>
              t.acceptance < cp'.record.aggregate.nextAcceptance && t.queue < cp'.record.aggregate.nextQueue
  {
    hide Consistent, Traceable, Live, RefsAdvance, EffectsAdvance, Ended, Buried, IsLive, SourceOk, Distinct, Mailboxes, SourcesOk, ReceiptsAdvance;
    var a := cp.record.aggregate;
    assert t in Everything(cp', out);
    if b :| b in Live(cp) && Moved(b, t, a.nextQueue) {
      LiveNumbers(cp, b);
    } else if t in Live(cp') {
      var k :| 0 <= k < |refs| && Names(refs[k], t);
    } else {
      var j :| 0 <= j < |out| && out[j] == t;
      assert out[j] in Live(cp) ==> Moved(t, t, a.nextQueue);
    }
  }

  /** A receipt of the transition, old or new. */
  lemma Split(cp: Checkpoint, cp': Checkpoint, out: seq<Entry>, refs: seq<Reference>, i: int)
    requires Transition(cp, cp', out, refs) && 0 <= i < |cp'.receipts|
    ensures i < |cp.receipts| ==> SameBody(cp.receipts[i], cp'.receipts[i])
    ensures i >= |cp.receipts| ==>
              var j := i - |cp.receipts|;
              && 0 <= j < |out| && Ends(cp'.receipts[i], out[j]) && cp'.receipts[i].sequence == cp.nextReceipt + j
              && cp'.receipts[i].revision == cp'.revision && cp'.receipts[i].digest == CurrentDigest(cp')
              && cp'.receipts[i].refs == (if j == 0 then refs else [])
  {
    hide RecordAdvances, RefsAdvance, EntriesAdvance, AnnouncementsOk, EffectsAdvance, CurrentDigest;
    ReceiptSplit(cp, cp', out, refs, i);
  }

  lemma TerminalsApart(cp: Checkpoint, cp': Checkpoint, out: seq<Entry>, refs: seq<Reference>, i: nat, j: nat)
    requires Coherent(cp) && Transition(cp, cp', out, refs)
    requires i < j < |cp'.receipts| && cp'.receipts[i].Terminal? && cp'.receipts[j].Terminal?
    ensures cp'.receipts[i].eventId != cp'.receipts[j].eventId && cp'.receipts[i].finalQueue != cp'.receipts[j].finalQueue
  {
    hide Transition, Consistent, Traceable, Strong, AllocationsOk, QueuesOk, ReceiptsOk, Everything, Live, Moved, New, UniqueAcceptances, Buried, IsLive;
    ValidTerminals(cp);
    Split(cp, cp', out, refs, i);
    Split(cp, cp', out, refs, j);
    if j >= |cp.receipts| {
      var y := out[j - |cp.receipts|];
      OutWasLiveOrNew(cp, cp', out, refs, j - |cp.receipts|);
      TransitionBasics(cp, cp', out, refs);
      if i >= |cp.receipts| {
        OutDistinct(cp', out, i - |cp.receipts|, j - |cp.receipts|);
      } else {
        AfterIsFresh(cp, cp', out, refs, y);
        assert cp.receipts[i].eventId != y.Id();
        QueueApart(cp, y, i);
      }
    }
  }

  lemma TransitionBasics(cp: Checkpoint, cp': Checkpoint, out: seq<Entry>, refs: seq<Reference>)
    requires Transition(cp, cp', out, refs)
    ensures cp.record.Retained? && Distinct(Everything(cp', out))
    ensures |cp'.receipts| == |cp.receipts| + |out| && cp'.nextReceipt == cp.nextReceipt + |out|
    ensures cp'.tombstones == cp.tombstones && cp'.retention == cp.retention && cp'.revision == cp.revision + 1 && cp'.root == cp.root
  {
    hide RefsAdvance, AnnouncementsOk, EffectsAdvance, Distinct, Everything;
  }

  lemma NewUniqueTerminals(cp: Checkpoint, cp': Checkpoint, out: seq<Entry>, refs: seq<Reference>)
    requires Coherent(cp) && Transition(cp, cp', out, refs)
    ensures UniqueTerminals(cp'.receipts) && UniqueAcceptances(cp'.receipts)
  {
    hide Transition, Consistent, Traceable, Strong;
    ValidTerminals(cp);
    forall i: nat, j: nat | i < j < |cp'.receipts| && cp'.receipts[i].Terminal? && cp'.receipts[j].Terminal?
      ensures cp'.receipts[i].eventId != cp'.receipts[j].eventId && cp'.receipts[i].finalQueue != cp'.receipts[j].finalQueue
    {
      TerminalsApart(cp, cp', out, refs, i, j);
    }
    forall i | 0 <= i < |cp'.receipts| && cp'.receipts[i].Acceptance?
      ensures i < |cp.receipts| && cp'.receipts[i] == cp.receipts[i]
    {
      Split(cp, cp', out, refs, i);
    }
  }

  lemma ValidTerminals(cp: Checkpoint)
    requires Coherent(cp)
    ensures UniqueTerminals(cp.receipts) && UniqueAcceptances(cp.receipts) && AllocationsOk(cp) && QueuesOk(cp) && ReceiptsOk(cp)
  {
  }

  lemma QueueApart(cp: Checkpoint, y: Entry, i: nat)
    requires AllocationsOk(cp) && QueuesOk(cp) && cp.record.Retained?
    requires i < |cp.receipts| && cp.receipts[i].Terminal?
    requires y in Live(cp) || New(cp.record.aggregate, y)
    ensures y.queue != cp.receipts[i].finalQueue
  {
  }

  lemma OutDistinct(cp': Checkpoint, out: seq<Entry>, i: nat, j: nat)
    requires Distinct(Everything(cp', out)) && i < j < |out|
    ensures out[i].Id() != out[j].Id() && out[i].queue != out[j].queue && out[i].acceptance != out[j].acceptance
  {
    hide Live;
    assert out == out[..j] + [out[j]] + out[j + 1..];
    assert out[..j][i] == out[i];
    var m := multiset(out);
    assert out[i] in m && out[j] in m;
    assert m == multiset(out[..j]) + multiset{out[j]} + multiset(out[j + 1..]);
    assert Everything(cp', out)[out[j]] == Live(cp')[out[j]] + m[out[j]];
    assert out[i] in Everything(cp', out) && out[j] in Everything(cp', out);
  }
}
