/** Transitions preserve what the invariant says about events, numbers and digests. */
module TransitionEvents {
  import opened CheckpointModel
  import opened CheckpointValidity
  import opened StepContract
  import opened Transitions

  lemma NewAllocations(cp: Checkpoint, cp': Checkpoint, out: seq<Entry>, refs: seq<Reference>)
    requires Coherent(cp) && Transition(cp, cp', out, refs)
    ensures AllocationsOk(cp')
  {
    hide Transition, Consistent, Traceable, Strong, Everything, Live, Moved, New, Ended, Buried, IsLive, QueuesOk, UniqueTerminals, UniqueAcceptances, Distinct;
    ValidTerminals(cp);
    TransitionBasics(cp, cp', out, refs);
    if cp'.record.Retained? {
      Counters(cp, cp', out, refs);
      forall i | 0 <= i < |cp'.receipts| && !cp'.receipts[i].Creation?
        ensures cp'.receipts[i].acceptance < cp'.record.aggregate.nextAcceptance
        ensures cp'.receipts[i].Terminal? ==> cp'.receipts[i].finalQueue < cp'.record.aggregate.nextQueue
      {
        Split(cp, cp', out, refs, i);
        if i >= |cp.receipts| {
          AfterIsFresh(cp, cp', out, refs, out[i - |cp.receipts|]);
        }
      }
    }
  }

  lemma Counters(cp: Checkpoint, cp': Checkpoint, out: seq<Entry>, refs: seq<Reference>)
    requires Transition(cp, cp', out, refs) && cp'.record.Retained?
    ensures cp'.record.aggregate.nextAcceptance >= cp.record.aggregate.nextAcceptance
    ensures cp'.record.aggregate.nextQueue >= cp.record.aggregate.nextQueue
    ensures cp'.record.aggregate.nextOutput >= cp.record.aggregate.nextOutput
  {
    hide RefsAdvance, AnnouncementsOk, EffectsAdvance, EntriesAdvance, ReceiptsAdvance, Mailboxes, SourcesOk, Below;
  }

  lemma NewDigests(cp: Checkpoint, cp': Checkpoint, out: seq<Entry>, refs: seq<Reference>)
    requires Coherent(cp) && Transition(cp, cp', out, refs)
    ensures DigestsOk(cp')
  {
    hide Transition, Consistent, Traceable, Strong, Everything, Live, CurrentDigest, AllocationsOk, QueuesOk, UniqueTerminals, UniqueAcceptances, Distinct;
    ValidTerminals(cp);
    ValidDigests(cp);
    TransitionBasics(cp, cp', out, refs);
    forall i | 0 <= i < |cp'.receipts|
      ensures i < |cp.receipts| ==> SameBody(cp.receipts[i], cp'.receipts[i]) && cp'.receipts[i].revision < cp'.revision
      ensures i >= |cp.receipts| ==> cp'.receipts[i].Terminal? && cp'.receipts[i].revision == cp'.revision
                                     && cp'.receipts[i].digest == CurrentDigest(cp')
    {
      Split(cp, cp', out, refs, i);
    }
    forall i, j | 0 <= i < j < |cp'.receipts| && cp'.receipts[i].Terminal? && cp'.receipts[j].Terminal?
              && cp'.receipts[i].revision == cp'.receipts[j].revision
      ensures cp'.receipts[i].digest == cp'.receipts[j].digest
    {
    }
  }

  lemma ValidDigests(cp: Checkpoint)
    requires Coherent(cp)
    ensures DigestsOk(cp) && CreationOk(cp)
  {
  }

  lemma NewCreation(cp: Checkpoint, cp': Checkpoint, out: seq<Entry>, refs: seq<Reference>)
    requires Coherent(cp) && Transition(cp, cp', out, refs)
    ensures |cp'.receipts| >= 1 && cp'.receipts[0].Creation? && CreationOk(cp')
  {
    hide Transition, Consistent, Traceable, Strong, AllocationsOk, QueuesOk, UniqueTerminals, UniqueAcceptances, DigestsOk, Everything, Distinct;
    ValidTerminals(cp);
    ValidDigests(cp);
    TransitionBasics(cp, cp', out, refs);
    Split(cp, cp', out, refs, 0);
    RecordBasics(cp, cp', out, refs);
  }

  lemma RecordBasics(cp: Checkpoint, cp': Checkpoint, out: seq<Entry>, refs: seq<Reference>)
    requires Transition(cp, cp', out, refs)
    ensures RecordedCreation(cp') == cp.record.aggregate.creationId
    ensures cp'.record.Retained? ==>
              var a' := cp'.record.aggregate;
              && a'.root == cp.record.aggregate.root && Mailboxes(a') && SourcesOk(a')
              && Below(Everything(cp', out), a'.nextAcceptance, a'.nextQueue)
  {
    hide RefsAdvance, AnnouncementsOk, EffectsAdvance, EntriesAdvance, ReceiptsAdvance, Mailboxes, SourcesOk, Below, Everything;
  }

  lemma PartDistinct(m: multiset<Entry>, n: multiset<Entry>, acceptance: nat, queue: nat)
    ensures Distinct(m + n) ==> Distinct(m)
    ensures Below(m + n, acceptance, queue) ==> Below(m, acceptance, queue)
  {
    assert forall e :: e in m ==> e in m + n && m[e] <= (m + n)[e];
  }

  lemma NewRecord(cp: Checkpoint, cp': Checkpoint, out: seq<Entry>, refs: seq<Reference>)
    requires Coherent(cp) && Transition(cp, cp', out, refs) && cp'.record.Retained?
    ensures MailboxesOk(cp'.record.aggregate) && SourcesOk(cp'.record.aggregate)
    ensures DistinctRuntimes(cp'.record.aggregate.runtimes)
  {
    hide Transition, Coherent, MailOf, SourcesOk, BoxesOk, Below, Distinct;
    TransitionBasics(cp, cp', out, refs);
    RecordBasics(cp, cp', out, refs);
    var a := cp'.record.aggregate;
    PartDistinct(MailOf(a.runtimes), multiset(out), a.nextAcceptance, a.nextQueue);
  }

  lemma NewAcceptancesLead(cp: Checkpoint, cp': Checkpoint, out: seq<Entry>, refs: seq<Reference>)
    requires Coherent(cp) && Transition(cp, cp', out, refs)
    ensures AcceptancesLead(cp')
  {
    hide Transition, Consistent, Traceable, Strong, Everything, Live, Distinct;
    ValidLead(cp);
    TransitionBasics(cp, cp', out, refs);
    forall i | 0 <= i < |cp'.receipts| && cp'.receipts[i].Acceptance?
      ensures IsLive(cp', cp'.receipts[i].eventId) || Ended(cp'.receipts, cp'.receipts[i].eventId)
    {
      Split(cp, cp', out, refs, i);
      StillKnown(cp, cp', out, refs, cp.receipts[i].eventId);
    }
  }

  lemma ValidLead(cp: Checkpoint)
    requires Coherent(cp)
    ensures AcceptancesLead(cp) && TombstonesOk(cp) && OwnersOk(cp)
  {
  }

  lemma LiveGoesOn(cp: Checkpoint, cp': Checkpoint, out: seq<Entry>, refs: seq<Reference>, b: Entry)
    requires Transition(cp, cp', out, refs) && b in Live(cp)
    ensures || (exists t :: t in Live(cp') && Moved(b, t, cp.record.aggregate.nextQueue))
            || (exists j :: 0 <= j < |out| && out[j] == b)
  {
    hide RefsAdvance, AnnouncementsOk, EffectsAdvance, RecordAdvances, ReceiptsAdvance, Everything, Live, Distinct, Moved, New;
  }

  lemma OutHasEnded(cp: Checkpoint, cp': Checkpoint, out: seq<Entry>, refs: seq<Reference>, j: nat)
    requires Transition(cp, cp', out, refs) && j < |out|
    ensures Ended(cp'.receipts, out[j].Id())
  {
    hide Transition;
    TransitionBasics(cp, cp', out, refs);
    Split(cp, cp', out, refs, |cp.receipts| + j);
  }

  /** An event that is live or has ended stays live or ended. */
  lemma StillKnown(cp: Checkpoint, cp': Checkpoint, out: seq<Entry>, refs: seq<Reference>, id: Text)
    requires Transition(cp, cp', out, refs)
    ensures IsLive(cp, id) ==> IsLive(cp', id) || Ended(cp'.receipts, id)
    ensures Ended(cp.receipts, id) ==> Ended(cp'.receipts, id)
  {
    hide Transition, Live, Distinct, Everything;
    TransitionBasics(cp, cp', out, refs);
    if IsLive(cp, id) {
      var b :| b in Live(cp) && b.Id() == id;
      LiveGoesOn(cp, cp', out, refs, b);
      if j :| 0 <= j < |out| && out[j] == b {
        OutHasEnded(cp, cp', out, refs, j);
      }
    }
    if Ended(cp.receipts, id) {
      var i :| 0 <= i < |cp.receipts| && cp.receipts[i].Terminal? && cp.receipts[i].eventId == id;
      Split(cp, cp', out, refs, i);
    }
  }

  lemma NewTombstones(cp: Checkpoint, cp': Checkpoint, out: seq<Entry>, refs: seq<Reference>)
    requires Coherent(cp) && Transition(cp, cp', out, refs)
    ensures TombstonesOk(cp')
  {
    hide Transition, Consistent, Traceable, Strong, Everything, Live, Distinct, Moved, New, AllocationsOk, QueuesOk, UniqueTerminals, UniqueAcceptances;
    hide AcceptancesLead, OwnersOk;
    ValidTerminals(cp);
    ValidLead(cp);
    TransitionBasics(cp, cp', out, refs);
    var ts := cp.tombstones;
    forall i | 0 <= i < |ts|
      ensures !IsLive(cp', ts[i].eventId) && !Ended(cp'.receipts, ts[i].eventId) && !Accepted(cp'.receipts, ts[i].eventId)
    {
      assert Buried(ts, ts[i].eventId);
      if IsLive(cp', ts[i].eventId) {
        var t :| t in Live(cp') && t.Id() == ts[i].eventId;
        AfterIsFresh(cp, cp', out, refs, t);
      }
      forall j | 0 <= j < |cp'.receipts| ensures cp'.receipts[j].Creation? || cp'.receipts[j].eventId != ts[i].eventId {
        Split(cp, cp', out, refs, j);
        if j >= |cp.receipts| {
          AfterIsFresh(cp, cp', out, refs, out[j - |cp.receipts|]);
        }
      }
    }
    forall i, j | 0 <= i < |ts| && 0 <= j < |cp'.receipts| && cp'.receipts[j].Terminal?
      ensures cp'.receipts[j].sequence != ts[i].terminal
    {
      Split(cp, cp', out, refs, j);
    }
  }

  /** Whoever holds an acceptance number afterwards held it before, or is a new entry. */
  lemma OwnerBefore(cp: Checkpoint, cp': Checkpoint, out: seq<Entry>, refs: seq<Reference>, n: nat, id: Text)
    requires Coherent(cp) && Transition(cp, cp', out, refs) && Owns(cp', n, id)
    ensures || (Owns(cp, n, id) && n < cp.record.aggregate.nextAcceptance)
            || (n >= cp.record.aggregate.nextAcceptance
                && exists t :: t in Everything(cp', out) && t.acceptance == n && t.Id() == id)
  {
    hide Transition, Consistent, Traceable, Strong, Live, Distinct, QueuesOk, UniqueTerminals, UniqueAcceptances, Ended, Buried, IsLive;
    ValidTerminals(cp);
    TransitionBasics(cp, cp', out, refs);
    if e :| e in Live(cp') && e.acceptance == n && e.Id() == id {
      AfterIsFresh(cp, cp', out, refs, e);
      assert e in Everything(cp', out);
      OwnerOfEntry(cp, e);
    } else if i :| 0 <= i < |cp'.receipts| && !cp'.receipts[i].Creation? && cp'.receipts[i].acceptance == n && cp'.receipts[i].eventId == id {
      Split(cp, cp', out, refs, i);
      if i >= |cp.receipts| {
        var e := out[i - |cp.receipts|];
        AfterIsFresh(cp, cp', out, refs, e);
        assert e in Everything(cp', out);
        OwnerOfEntry(cp, e);
      }
    }
  }

  lemma OwnerOfEntry(cp: Checkpoint, e: Entry)
    requires Coherent(cp) && cp.record.Retained?
    ensures (exists b :: b in Live(cp) && Moved(b, e, cp.record.aggregate.nextQueue)) ==>
              Owns(cp, e.acceptance, e.Id()) && e.acceptance < cp.record.aggregate.nextAcceptance
  {
    hide Coherent, Live;
    if b :| b in Live(cp) && Moved(b, e, cp.record.aggregate.nextQueue) {
      CoherentIsConsistent(cp);
      LiveNumbers(cp, b);
    }
  }

  lemma CoherentIsConsistent(cp: Checkpoint)
    requires Coherent(cp)
    ensures Consistent(cp)
  {
    hide Consistent, Traceable, Strong;
  }

  lemma NewOwners(cp: Checkpoint, cp': Checkpoint, out: seq<Entry>, refs: seq<Reference>)
    requires Coherent(cp) && Transition(cp, cp', out, refs)
    ensures OwnersOk(cp')
  {
    hide Transition, Consistent, Traceable, Strong, Everything, AcceptancesLead, TombstonesOk, Owns;
    ValidLead(cp);
    TransitionBasics(cp, cp', out, refs);
    forall n, id, id' | Owns(cp', n, id) && Owns(cp', n, id') ensures id == id' {
      OwnerBefore(cp, cp', out, refs, n, id);
      OwnerBefore(cp, cp', out, refs, n, id');
    }
  }

  lemma NewQueues(cp: Checkpoint, cp': Checkpoint, out: seq<Entry>, refs: seq<Reference>)
    requires Coherent(cp) && Transition(cp, cp', out, refs)
    ensures QueuesOk(cp')
  {
    hide Transition, Consistent, Traceable, Strong, Live, UniqueTerminals, UniqueAcceptances, Buried, IsLive, ReceiptsOk;
    ValidTerminals(cp);
    TransitionBasics(cp, cp', out, refs);
    forall e, i | e in Live(cp') && 0 <= i < |cp'.receipts| && cp'.receipts[i].Terminal?
      ensures e.queue != cp'.receipts[i].finalQueue && e.Id() != cp'.receipts[i].eventId
    {
      Split(cp, cp', out, refs, i);
      assert e in Everything(cp', out);
      if i >= |cp.receipts| {
        OutWasLiveOrNew(cp, cp', out, refs, i - |cp.receipts|);
      } else {
        AfterIsFresh(cp, cp', out, refs, e);
        assert cp.receipts[i].eventId != e.Id();
      }
    }
  }
}
