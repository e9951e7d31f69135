/** Pruning preserves the invariant, so its final validation never fails once its own guards passed. */
module PruneProofs {
  import opened Wrappers
  import opened CheckpointModel
  import opened CheckpointValidity
  import opened Transitions
  import opened TransitionEvents
  import opened TransitionRefs
  import opened TransitionTheorem
  import opened CheckpointOps
  import opened Sequences

  // ------------------------------------------------------------------------------------------
  // What is kept and what is buried
  // ------------------------------------------------------------------------------------------

  /** How many receipts, the creation receipt included, lie at or below the cutoff. */
  function Cut(cp: Checkpoint, cutoff: nat): int {
    cutoff - cp.retention.Base() + 1
  }

  /** The cutoff lies above the last one and below the next receipt. */
  predicate InRange(cp: Checkpoint, cutoff: nat) {
    1 < Cut(cp, cutoff) <= |cp.receipts|
  }

  lemma RemovableAt(cp: Checkpoint, cutoff: nat, i: nat)
    requires ReceiptsOk(cp) && i < |cp.receipts|
    ensures Removable(cp.receipts[i], cutoff) <==> 1 <= i < Cut(cp, cutoff)
  {
  }

  /** The removable receipts are those at positions 1 to `m`, exclusively. */
  ghost predicate CutsAt(rs: seq<Receipt>, cutoff: nat, m: int) {
    forall i :: 0 <= i < |rs| ==> (Removable(rs[i], cutoff) <==> 1 <= i < m)
  }

  lemma RetainLast(rs: seq<Receipt>, n: nat, cutoff: nat)
    requires 0 < n <= |rs|
    ensures Retain(rs[..n], cutoff) == if Removable(rs[n - 1], cutoff) then Retain(rs[..n - 1], cutoff) else Retain(rs[..n - 1], cutoff) + [rs[n - 1]]
  {
    assert rs[..n][..n - 1] == rs[..n - 1];
  }

  lemma RetainNone(cutoff: nat)
    ensures Retain([], cutoff) == []
  {
  }

  lemma {:induction false} RetainBelow(rs: seq<Receipt>, cutoff: nat, m: nat, n: nat)
    requires CutsAt(rs, cutoff, m) && 1 <= n <= m <= |rs|
    ensures Retain(rs[..n], cutoff) == [rs[0]]
  {
    hide Retain, Removable;
    RetainLast(rs, n, cutoff);
    if n == 1 {
      assert rs[..0] == [];
      RetainNone(cutoff);
    } else {
      RetainBelow(rs, cutoff, m, n - 1);
    }
  }

  lemma SliceLast(rs: seq<Receipt>, m: nat, n: nat)
    requires m < n <= |rs|
    ensures rs[m..n] == rs[m..n - 1] + [rs[n - 1]]
  {
  }

  lemma {:induction false} RetainAbove(rs: seq<Receipt>, cutoff: nat, m: nat, n: nat)
    requires CutsAt(rs, cutoff, m) && 1 <= m <= n <= |rs|
    ensures Retain(rs[..n], cutoff) == [rs[0]] + rs[m..n]
  {
    hide Retain, Removable;
    if n == m {
      RetainBelow(rs, cutoff, m, n);
    } else {
      RetainLast(rs, n, cutoff);
      RetainAbove(rs, cutoff, m, n - 1);
      SliceLast(rs, m, n);
    }
  }

  /** The position in the old receipts of kept receipt `i`. */
  function Origin(cp: Checkpoint, cutoff: nat, i: nat): int {
    if i == 0 then 0 else Cut(cp, cutoff) - 1 + i
  }

  /** The kept receipts: creation and everything above the cutoff. */
  lemma Kept(cp: Checkpoint, cutoff: nat)
    requires ReceiptsOk(cp) && InRange(cp, cutoff)
    ensures var rs := Retain(cp.receipts, cutoff);
            && |rs| == 1 + |cp.receipts| - Cut(cp, cutoff)
            && (forall i: nat :: i < |rs| ==> 0 <= Origin(cp, cutoff, i) < |cp.receipts| && rs[i] == cp.receipts[Origin(cp, cutoff, i)])
  {
    hide Retain, Removable, ReceiptsOk;
    var m, all := Cut(cp, cutoff), cp.receipts;
    forall i: nat | i < |all| ensures Removable(all[i], cutoff) <==> 1 <= i < m {
      RemovableAt(cp, cutoff, i);
    }
    assert CutsAt(all, cutoff, m);
    RetainAbove(all, cutoff, m, |all|);
    assert all[..|all|] == all;
    var rs := Retain(all, cutoff);
    assert rs == [all[0]] + all[m..];
    forall i: nat | i < |rs| ensures 0 <= Origin(cp, cutoff, i) < |all| && rs[i] == all[Origin(cp, cutoff, i)] {
      if i > 0 {
        assert rs[i] == all[m..][i - 1];
      }
    }
  }

  function TombstoneFor(r: Receipt): EventTombstone
    requires r.Terminal?
  {
    EventTombstone(r.eventId, r.request', r.acceptance, r.sequence, r.outcome.disposition)
  }

  /** `at[x]` is the position of the receipt behind the x-th new tombstone. */
  ghost predicate Burials(rs: seq<Receipt>, cutoff: nat, ts: seq<EventTombstone>, at: seq<nat>) {
    && |at| == |ts|
    && (forall x :: 0 <= x < |at| ==>
          at[x] < |rs| && rs[at[x]].Terminal? && Removable(rs[at[x]], cutoff) && ts[x] == TombstoneFor(rs[at[x]]))
    && (forall x, y :: 0 <= x < y < |at| ==> at[x] < at[y])
    && (forall i: nat :: i < |rs| && rs[i].Terminal? && Removable(rs[i], cutoff) ==> Occurs(i, at))
  }

  lemma BurialsMore(rs: seq<Receipt>, cutoff: nat, ts: seq<EventTombstone>, at: seq<nat>, r: Receipt)
    requires Burials(rs, cutoff, ts, at)
    ensures r.Terminal? && Removable(r, cutoff) ==> Burials(rs + [r], cutoff, ts + [TombstoneFor(r)], at + [|rs|])
    ensures !(r.Terminal? && Removable(r, cutoff)) ==> Burials(rs + [r], cutoff, ts, at)
  {
    hide Occurs, Removable, TombstoneFor;
    var rs' := rs + [r];
    forall i: nat | i < |rs'| && rs'[i].Terminal? && Removable(rs'[i], cutoff)
      ensures Occurs(i, at + [|rs|]) && (i < |rs| ==> Occurs(i, at))
    {
      OccursMore(i, at, |rs|);
    }
  }

  lemma {:induction false} BuryAt(rs: seq<Receipt>, cutoff: nat) returns (at: seq<nat>)
    ensures Burials(rs, cutoff, Bury(rs, cutoff), at)
  {
    if rs == [] {
      at := [];
    } else {
      hide Burials, Removable, TombstoneFor;
      var init, r := rs[..|rs| - 1], rs[|rs| - 1];
      var at' := BuryAt(init, cutoff);
      assert rs == init + [r];
      BurialsMore(init, cutoff, Bury(init, cutoff), at', r);
      at := if Removable(r, cutoff) && r.Terminal? then at' + [|init|] else at';
      BuryLast(rs, cutoff);
    }
  }

  lemma BuryLast(rs: seq<Receipt>, cutoff: nat)
    requires rs != []
    ensures var init, r := rs[..|rs| - 1], rs[|rs| - 1];
            Bury(rs, cutoff) == if Removable(r, cutoff) && r.Terminal? then Bury(init, cutoff) + [TombstoneFor(r)] else Bury(init, cutoff)
  {
  }

  // ------------------------------------------------------------------------------------------
  // The shape of a pruned checkpoint
  // ------------------------------------------------------------------------------------------

  /** A prune that passed its guards. */
  ghost predicate Prunable(cp: Checkpoint, q: PruneRequest) {
    && InRange(cp, q.cutoff)
    && PruneAllowed(cp.receipts, q.cutoff, cp.retention.Pruned())
    && !PrunesPending(cp, q.cutoff)
  }

  ghost predicate Pruned(cp: Checkpoint, q: PruneRequest, cp': Checkpoint, at: seq<nat>) {
    && Prunable(cp, q)
    && cp' == PruneTo(cp, q)
    && Burials(cp.receipts, q.cutoff, Bury(cp.receipts, q.cutoff), at)
  }

  lemma PrunedBasics(cp: Checkpoint, q: PruneRequest, cp': Checkpoint, at: seq<nat>)
    requires Pruned(cp, q, cp', at)
    ensures cp'.root == cp.root && cp'.record == cp.record && cp'.revision == cp.revision + 1
    ensures cp'.retention.Pruned() == Some(q.cutoff) && cp'.retention.Base() == q.cutoff
    ensures cp'.nextReceipt == cp.nextReceipt && cp'.pending == cp.pending && cp'.nextTerminal == cp.nextTerminal
    ensures |cp'.tombstones| == |cp.tombstones| + |at| && cp'.tombstones[..|cp.tombstones|] == cp.tombstones
    ensures InRange(cp, q.cutoff)
    ensures Live(cp') == Live(cp)
  {
    hide Retain, Bury, RetainTerminals, RetainCompacted, Occurs, Removable;
  }

  lemma PrunedReceipt(cp: Checkpoint, q: PruneRequest, cp': Checkpoint, at: seq<nat>, i: int)
    requires ReceiptsOk(cp) && Pruned(cp, q, cp', at) && 0 <= i < |cp'.receipts|
    ensures |cp'.receipts| == 1 + |cp.receipts| - Cut(cp, q.cutoff)
    ensures 0 <= Origin(cp, q.cutoff, i) < |cp.receipts| && cp'.receipts[i] == cp.receipts[Origin(cp, q.cutoff, i)]
    ensures !Removable(cp'.receipts[i], q.cutoff)
  {
    hide Retain, Bury, RetainTerminals, RetainCompacted, Burials, PruneAllowed, PrunesPending;
    Kept(cp, q.cutoff);
  }

  /** A receipt that is not removed is kept. */
  lemma KeptReceipt(cp: Checkpoint, q: PruneRequest, cp': Checkpoint, at: seq<nat>, j: nat) returns (i: nat)
    requires ReceiptsOk(cp) && Pruned(cp, q, cp', at) && j < |cp.receipts| && !Removable(cp.receipts[j], q.cutoff)
    ensures i < |cp'.receipts| && cp'.receipts[i] == cp.receipts[j] && Origin(cp, q.cutoff, i) == j
  {
    hide Retain, Bury, RetainTerminals, RetainCompacted, Burials, PruneAllowed, PrunesPending;
    Kept(cp, q.cutoff);
    i := if j == 0 then 0 else j + 1 - Cut(cp, q.cutoff);
  }

  lemma PrunedTombstone(cp: Checkpoint, q: PruneRequest, cp': Checkpoint, at: seq<nat>, x: int)
    requires Pruned(cp, q, cp', at) && 0 <= x < |cp'.tombstones|
    ensures |cp'.tombstones| == |cp.tombstones| + |at|
    ensures x < |cp.tombstones| ==> cp'.tombstones[x] == cp.tombstones[x]
    ensures x >= |cp.tombstones| ==>
              var j := at[x - |cp.tombstones|];
              && j < |cp.receipts| && cp.receipts[j].Terminal? && Removable(cp.receipts[j], q.cutoff)
              && cp'.tombstones[x] == TombstoneFor(cp.receipts[j])
  {
    hide Retain, Bury, RetainTerminals, RetainCompacted, Occurs, Removable, PruneAllowed, PrunesPending;
  }

  /** A removed terminal receipt is buried. */
  lemma BuriedReceipt(cp: Checkpoint, q: PruneRequest, cp': Checkpoint, at: seq<nat>, j: nat) returns (x: nat)
    requires Pruned(cp, q, cp', at) && j < |cp.receipts| && cp.receipts[j].Terminal? && Removable(cp.receipts[j], q.cutoff)
    ensures x < |cp'.tombstones| && cp'.tombstones[x] == TombstoneFor(cp.receipts[j])
  {
    hide Retain, Bury, RetainTerminals, RetainCompacted, Removable, PruneAllowed, PrunesPending;
    assert Occurs(j, at);
    var y :| 0 <= y < |at| && at[y] == j;
    x := |cp.tombstones| + y;
  }

  // ------------------------------------------------------------------------------------------
  // Receipts
  // ------------------------------------------------------------------------------------------

  lemma AllPruned(cp: Checkpoint, q: PruneRequest, cp': Checkpoint, at: seq<nat>)
    requires ReceiptsOk(cp) && Pruned(cp, q, cp', at)
    ensures forall i: nat :: i < |cp'.receipts| ==>
              0 <= Origin(cp, q.cutoff, i) < |cp.receipts| && cp'.receipts[i] == cp.receipts[Origin(cp, q.cutoff, i)]
  {
    hide Pruned, ReceiptsOk;
    forall i: nat | i < |cp'.receipts|
      ensures 0 <= Origin(cp, q.cutoff, i) < |cp.receipts| && cp'.receipts[i] == cp.receipts[Origin(cp, q.cutoff, i)]
    {
      PrunedReceipt(cp, q, cp', at, i);
    }
  }

  lemma PrunedReceipts(cp: Checkpoint, q: PruneRequest, cp': Checkpoint, at: seq<nat>)
    requires Inv(cp) && Pruned(cp, q, cp', at)
    ensures ReceiptsOk(cp') && UniqueAcceptances(cp'.receipts) && UniqueTerminals(cp'.receipts)
  {
    hide Coherent, Sourced, Live, Pruned, AllocationsOk, QueuesOk;
    ValidTerminals(cp);
    PrunedBasics(cp, q, cp', at);
    PrunedLength(cp, q, cp', at);
    AllPruned(cp, q, cp', at);
  }

  lemma PrunedDigests(cp: Checkpoint, q: PruneRequest, cp': Checkpoint, at: seq<nat>)
    requires Inv(cp) && Pruned(cp, q, cp', at)
    ensures DigestsOk(cp') && |cp'.receipts| >= 1 && cp'.receipts[0].Creation? && CreationOk(cp') && QueuesOk(cp')
  {
    hide Coherent, Sourced, Live, Pruned, CurrentDigest, AllocationsOk, UniqueAcceptances, UniqueTerminals;
    ValidTerminals(cp);
    ValidDigests(cp);
    PrunedBasics(cp, q, cp', at);
    PrunedLength(cp, q, cp', at);
    AllPruned(cp, q, cp', at);
  }

  lemma PrunedLength(cp: Checkpoint, q: PruneRequest, cp': Checkpoint, at: seq<nat>)
    requires ReceiptsOk(cp) && Pruned(cp, q, cp', at)
    ensures |cp'.receipts| == 1 + |cp.receipts| - Cut(cp, q.cutoff) && 1 < Cut(cp, q.cutoff) <= |cp.receipts|
  {
    hide Retain, Bury, RetainTerminals, RetainCompacted, Burials, PruneAllowed, PrunesPending;
    Kept(cp, q.cutoff);
  }

  lemma PrunedAllocations(cp: Checkpoint, q: PruneRequest, cp': Checkpoint, at: seq<nat>)
    requires Inv(cp) && Pruned(cp, q, cp', at)
    ensures AllocationsOk(cp')
  {
    hide Coherent, Sourced, Live, Pruned, QueuesOk, UniqueAcceptances, UniqueTerminals;
    ValidTerminals(cp);
    PrunedBasics(cp, q, cp', at);
    if cp.record.Retained? {
      forall i | 0 <= i < |cp'.receipts| && !cp'.receipts[i].Creation?
        ensures cp'.receipts[i].acceptance < cp.record.aggregate.nextAcceptance
        ensures cp'.receipts[i].Terminal? ==> cp'.receipts[i].finalQueue < cp.record.aggregate.nextQueue
      {
        PrunedReceipt(cp, q, cp', at, i);
      }
      forall x | 0 <= x < |cp'.tombstones| ensures cp'.tombstones[x].acceptance < cp.record.aggregate.nextAcceptance {
        PrunedTombstone(cp, q, cp', at, x);
      }
    }
  }

  // ------------------------------------------------------------------------------------------
  // Events
  // ------------------------------------------------------------------------------------------

  lemma AllowedAt(cp: Checkpoint, q: PruneRequest, cp': Checkpoint, at: seq<nat>, i: nat)
    requires Pruned(cp, q, cp', at) && i < |cp.receipts| && Removable(cp.receipts[i], q.cutoff)
    ensures cp.receipts[i].Acceptance? ==> Ended(cp.receipts, cp.receipts[i].eventId)
    ensures forall k :: 0 <= k < |cp.receipts[i].Refs()| ==> !cp.receipts[i].Refs()[k].MailboxRef?
  {
    hide Retain, Bury, RetainTerminals, RetainCompacted, Burials, PrunesPending, Removable;
  }

  lemma PrunedProvenance(cp: Checkpoint, q: PruneRequest, cp': Checkpoint, at: seq<nat>)
    requires Inv(cp) && Pruned(cp, q, cp', at)
    ensures ProvenanceOk(cp')
  {
    hide Coherent, SourcesOk, Live, Pruned, AllocationsOk, UniqueAcceptances, UniqueTerminals, ReceiptsOk, Removable;
    ValidTerminals(cp);
    PrunedBasics(cp, q, cp', at);
    forall e | e in Live(cp') ensures if e.mode.Input? then AcceptedAs(cp'.receipts, e) else ProducedAs(cp'.receipts, e) {
      if e.mode.Input? {
        var i :| 0 <= i < |cp.receipts| && cp.receipts[i].Acceptance? && cp.receipts[i].eventId == e.Id()
              && cp.receipts[i].request' == e.digest && cp.receipts[i].acceptance == e.acceptance && cp.receipts[i].mode == Input;
        if Removable(cp.receipts[i], q.cutoff) {
          AllowedAt(cp, q, cp', at, i);
          assert false;
        }
        var j := KeptReceipt(cp, q, cp', at, i);
      } else {
        var i, k :| 0 <= i < |cp.receipts| && 0 <= k < |cp.receipts[i].Refs()| && Names(cp.receipts[i].Refs()[k], e);
        assert Names(cp.receipts[i].Refs()[k], e);
        if Removable(cp.receipts[i], q.cutoff) {
          AllowedAt(cp, q, cp', at, i);
          assert false;
        }
        var j := KeptReceipt(cp, q, cp', at, i);
        assert Names(cp'.receipts[j].Refs()[k], e);
      }
    }
  }

  lemma PrunedLead(cp: Checkpoint, q: PruneRequest, cp': Checkpoint, at: seq<nat>)
    requires Inv(cp) && Pruned(cp, q, cp', at)
    ensures AcceptancesLead(cp')
  {
    hide Coherent, Sourced, Live, Pruned, TombstonesOk, OwnersOk, AllocationsOk, UniqueAcceptances, UniqueTerminals, QueuesOk;
    ValidLead(cp);
    ValidTerminals(cp);
    PrunedBasics(cp, q, cp', at);
    forall i | 0 <= i < |cp'.receipts| && cp'.receipts[i].Acceptance?
      ensures IsLive(cp', cp'.receipts[i].eventId) || Ended(cp'.receipts, cp'.receipts[i].eventId)
    {
      PrunedReceipt(cp, q, cp', at, i);
      var id, a := cp'.receipts[i].eventId, Origin(cp, q.cutoff, i);
      if !IsLive(cp, id) {
        var t :| 0 <= t < |cp.receipts| && cp.receipts[t].Terminal? && cp.receipts[t].eventId == id;
        OldAdmits(cp, a, t);
        var j := KeptReceipt(cp, q, cp', at, t);
      }
    }
  }

  lemma PrunedTombstones(cp: Checkpoint, q: PruneRequest, cp': Checkpoint, at: seq<nat>)
    requires Inv(cp) && Pruned(cp, q, cp', at)
    ensures TombstonesOk(cp')
  {
    hide Coherent, Sourced, Live, Pruned, IsLive, Ended, Accepted;
    PrunedBasics(cp, q, cp', at);
    forall x, y | 0 <= x < y < |cp'.tombstones|
      ensures cp'.tombstones[x].eventId != cp'.tombstones[y].eventId && cp'.tombstones[x].terminal < cp'.tombstones[y].terminal
    {
      TombstonesApart(cp, q, cp', at, x, y);
    }
    forall x | 0 <= x < |cp'.tombstones|
      ensures !IsLive(cp', cp'.tombstones[x].eventId) && !Ended(cp'.receipts, cp'.tombstones[x].eventId)
      ensures !Accepted(cp'.receipts, cp'.tombstones[x].eventId) && cp'.tombstones[x].terminal < cp'.nextReceipt
      ensures cp'.tombstones[x].terminal <= q.cutoff
    {
      TombstoneAlone(cp, q, cp', at, x);
    }
    forall x, j | 0 <= x < |cp'.tombstones| && 0 <= j < |cp'.receipts| && cp'.receipts[j].Terminal?
      ensures cp'.receipts[j].sequence != cp'.tombstones[x].terminal
    {
      TombstoneAlone(cp, q, cp', at, x);
      KeptAbove(cp, q, cp', at, j);
    }
  }

  lemma KeptAbove(cp: Checkpoint, q: PruneRequest, cp': Checkpoint, at: seq<nat>, j: nat)
    requires Inv(cp) && Pruned(cp, q, cp', at) && j < |cp'.receipts|
    ensures !cp'.receipts[j].Creation? ==> cp'.receipts[j].sequence > q.cutoff
  {
    hide Coherent, Sourced, Pruned, AllocationsOk, UniqueAcceptances, UniqueTerminals, QueuesOk;
    ValidTerminals(cp);
    PrunedReceipt(cp, q, cp', at, j);
  }

  lemma TombstonesApart(cp: Checkpoint, q: PruneRequest, cp': Checkpoint, at: seq<nat>, x: nat, y: nat)
    requires Inv(cp) && Pruned(cp, q, cp', at) && x < y < |cp'.tombstones|
    ensures cp'.tombstones[x].eventId != cp'.tombstones[y].eventId && cp'.tombstones[x].terminal < cp'.tombstones[y].terminal
  {
    hide Coherent, Sourced, Pruned, AllocationsOk, UniqueAcceptances, QueuesOk, AcceptancesLead, OwnersOk, IsLive, Accepted;
    ValidLead(cp);
    ValidTerminals(cp);
    StrongRest(cp);
    PrunedTombstone(cp, q, cp', at, x);
    PrunedTombstone(cp, q, cp', at, y);
    if x >= |cp.tombstones| {
      AtOrdered(cp, q, cp', at, x - |cp.tombstones|, y - |cp.tombstones|);
    }
  }

  lemma AtOrdered(cp: Checkpoint, q: PruneRequest, cp': Checkpoint, at: seq<nat>, x: nat, y: nat)
    requires Pruned(cp, q, cp', at) && x < y < |at|
    ensures at[x] < at[y]
  {
    hide Retain, Bury, RetainTerminals, RetainCompacted, Occurs, Removable, PruneAllowed, PrunesPending;
  }

  lemma TombstoneAlone(cp: Checkpoint, q: PruneRequest, cp': Checkpoint, at: seq<nat>, x: nat)
    requires Inv(cp) && Pruned(cp, q, cp', at) && x < |cp'.tombstones|
    ensures !IsLive(cp', cp'.tombstones[x].eventId) && !Ended(cp'.receipts, cp'.tombstones[x].eventId)
    ensures !Accepted(cp'.receipts, cp'.tombstones[x].eventId) && cp'.tombstones[x].terminal < cp'.nextReceipt
    ensures cp'.tombstones[x].terminal <= q.cutoff
  {
    hide Coherent, Sourced, Live, Pruned, AllocationsOk, UniqueAcceptances, AcceptancesLead, OwnersOk;
    ValidLead(cp);
    ValidTerminals(cp);
    StrongRest(cp);
    PrunedBasics(cp, q, cp', at);
    PrunedTombstone(cp, q, cp', at, x);
    var id := cp'.tombstones[x].eventId;
    forall j | 0 <= j < |cp'.receipts| && !cp'.receipts[j].Creation? ensures cp'.receipts[j].eventId != id {
      PrunedReceipt(cp, q, cp', at, j);
      KeptAbove(cp, q, cp', at, j);
      if x >= |cp.tombstones| && cp'.receipts[j].Acceptance? && cp'.receipts[j].eventId == id {
        OldAdmits(cp, Origin(cp, q.cutoff, j), at[x - |cp.tombstones|]);
      }
    }
  }

  lemma PrunedOwner(cp: Checkpoint, q: PruneRequest, cp': Checkpoint, at: seq<nat>, n: nat, id: Text)
    requires Inv(cp) && Pruned(cp, q, cp', at) && Owns(cp', n, id)
    ensures Owns(cp, n, id)
  {
    hide Coherent, Sourced, Live, Pruned, AllocationsOk, UniqueAcceptances, UniqueTerminals, QueuesOk, ReceiptsOk;
    ValidTerminals(cp);
    PrunedBasics(cp, q, cp', at);
    if i :| 0 <= i < |cp'.receipts| && !cp'.receipts[i].Creation? && cp'.receipts[i].acceptance == n && cp'.receipts[i].eventId == id {
      PrunedReceipt(cp, q, cp', at, i);
    } else if x :| 0 <= x < |cp'.tombstones| && cp'.tombstones[x].acceptance == n && cp'.tombstones[x].eventId == id {
      PrunedTombstone(cp, q, cp', at, x);
    }
  }

  lemma PrunedOwners(cp: Checkpoint, q: PruneRequest, cp': Checkpoint, at: seq<nat>)
    requires Inv(cp) && Pruned(cp, q, cp', at)
    ensures OwnersOk(cp')
  {
    hide Coherent, Sourced, Pruned, Owns, AcceptancesLead, TombstonesOk;
    ValidLead(cp);
    forall n, id, id' | Owns(cp', n, id) && Owns(cp', n, id') ensures id == id' {
      PrunedOwner(cp, q, cp', at, n, id);
      PrunedOwner(cp, q, cp', at, n, id');
    }
  }

  // ------------------------------------------------------------------------------------------
  // References
  // ------------------------------------------------------------------------------------------

  lemma PrunedConcerns(cp: Checkpoint, q: PruneRequest, cp': Checkpoint, at: seq<nat>, i: int, k: int, id: Text)
    requires Inv(cp) && Pruned(cp, q, cp', at) && Concerns(cp'.receipts, i, k, id)
    ensures i >= 0 && Concerns(cp.receipts, Origin(cp, q.cutoff, i), k, id)
  {
    hide Coherent, Sourced, Pruned, AllocationsOk, UniqueAcceptances, UniqueTerminals, QueuesOk, ReceiptsOk;
    ValidTerminals(cp);
    PrunedReceipt(cp, q, cp', at, i);
  }

  lemma PrunedProducers(cp: Checkpoint, q: PruneRequest, cp': Checkpoint, at: seq<nat>)
    requires Inv(cp) && Pruned(cp, q, cp', at)
    ensures UniqueProducers(cp'.receipts)
  {
    hide Coherent, Sourced, Pruned, Concerns, ProvenanceOk, TerminalsExplained;
    ValidReferences(cp);
    PrunedBasics(cp, q, cp', at);
    forall i, k, j, l, id | Concerns(cp'.receipts, i, k, id) && Concerns(cp'.receipts, j, l, id) ensures i == j && k == l {
      PrunedConcerns(cp, q, cp', at, i, k, id);
      PrunedConcerns(cp, q, cp', at, j, l, id);
      assert Origin(cp, q.cutoff, i) == Origin(cp, q.cutoff, j);
    }
  }

  lemma PrunedReference(cp: Checkpoint, q: PruneRequest, cp': Checkpoint, at: seq<nat>, i: nat, k: nat)
    requires Inv(cp) && Pruned(cp, q, cp', at) && i < |cp'.receipts| && k < |cp'.receipts[i].Refs()|
    ensures ReferenceOk(cp', i, cp'.receipts[i].Refs()[k])
  {
    hide Coherent, Sourced, Live, Pruned, AllocationsOk, UniqueAcceptances, UniqueTerminals, QueuesOk, ReceiptsOk, UniqueProducers, ProvenanceOk, TerminalsExplained, EndedReference;
    ValidTerminals(cp);
    ValidReferences(cp);
    PrunedBasics(cp, q, cp', at);
    PrunedReceipt(cp, q, cp', at, i);
    var r := cp'.receipts[i].Refs()[k];
    assert ReferenceOk(cp, Origin(cp, q.cutoff, i), r);
    if r.TerminalRef? {
      PrunedEnded(cp, q, cp', at, i, r);
    }
  }

  lemma PrunedEnded(cp: Checkpoint, q: PruneRequest, cp': Checkpoint, at: seq<nat>, i: nat, r: Reference)
    requires Inv(cp) && Pruned(cp, q, cp', at) && i < |cp'.receipts| && 0 <= Origin(cp, q.cutoff, i) < |cp.receipts|
    requires cp'.receipts[i] == cp.receipts[Origin(cp, q.cutoff, i)] && EndedReference(cp, Origin(cp, q.cutoff, i), r)
    ensures EndedReference(cp', i, r)
  {
    hide Coherent, Sourced, Live, Pruned, AllocationsOk, UniqueAcceptances, UniqueTerminals, QueuesOk, ReceiptsOk;
    ValidTerminals(cp);
    PrunedBasics(cp, q, cp', at);
    var o := Origin(cp, q.cutoff, i);
    if j :| 0 <= j < |cp.receipts| && EndsIn(r, cp.receipts[j]) && cp.receipts[o].sequence < cp.receipts[j].sequence
            && cp.receipts[o].revision <= cp.receipts[j].revision {
      assert EndsIn(r, cp.receipts[j]);
      if Removable(cp.receipts[j], q.cutoff) {
        var x := BuriedReceipt(cp, q, cp', at, j);
      } else {
        var l := KeptReceipt(cp, q, cp', at, j);
        assert EndsIn(r, cp'.receipts[l]);
      }
    } else {
      var x :| 0 <= x < |cp.tombstones| && r.TerminalRef? && cp.tombstones[x].eventId == r.eventId
            && cp.tombstones[x].terminal == r.terminal && cp.tombstones[x].acceptance == r.acceptance && cp.receipts[o].sequence < cp.tombstones[x].terminal;
      PrunedTombstone(cp, q, cp', at, x);
    }
  }

  lemma PrunedReferences(cp: Checkpoint, q: PruneRequest, cp': Checkpoint, at: seq<nat>)
    requires Inv(cp) && Pruned(cp, q, cp', at)
    ensures ReferencesOk(cp')
  {
    hide Coherent, Sourced, Pruned, LiveReference, EndedReference, UniqueProducers;
    PrunedProducers(cp, q, cp', at);
    forall i, k | 0 <= i < |cp'.receipts| && 0 <= k < |cp'.receipts[i].Refs()| ensures ReferenceOk(cp', i, cp'.receipts[i].Refs()[k]) {
      PrunedReference(cp, q, cp', at, i, k);
    }
  }

  lemma PrunedHasAcceptance(cp: Checkpoint, q: PruneRequest, cp': Checkpoint, at: seq<nat>, t: Receipt)
    requires Inv(cp) && Pruned(cp, q, cp', at)
    ensures HasAcceptance(cp'.receipts, t) ==> HasAcceptance(cp.receipts, t)
    ensures HasProducer(cp'.receipts, t) ==> HasProducer(cp.receipts, t)
  {
    hide Coherent, Sourced, Pruned, AllocationsOk, UniqueAcceptances, UniqueTerminals, QueuesOk, ReceiptsOk, Admits, EndsIn;
    ValidTerminals(cp);
    if HasAcceptance(cp'.receipts, t) {
      var i :| 0 <= i < |cp'.receipts| && Admits(cp'.receipts[i], t);
      PrunedReceipt(cp, q, cp', at, i);
    }
    if HasProducer(cp'.receipts, t) {
      var i, k :| 0 <= i < |cp'.receipts| && 0 <= k < |cp'.receipts[i].Refs()| && EndsIn(cp'.receipts[i].Refs()[k], t);
      PrunedReceipt(cp, q, cp', at, i);
    }
  }

  lemma PrunedExplained(cp: Checkpoint, q: PruneRequest, cp': Checkpoint, at: seq<nat>)
    requires Inv(cp) && Pruned(cp, q, cp', at)
    ensures TerminalsExplained(cp')
  {
    hide Coherent, Sourced, Pruned, HasAcceptance, HasProducer, ProvenanceOk, ReferencesOk, AllocationsOk, UniqueAcceptances, UniqueTerminals, QueuesOk;
    ValidReferences(cp);
    ValidTerminals(cp);
    PrunedBasics(cp, q, cp', at);
    forall i | 0 <= i < |cp'.receipts| && cp'.receipts[i].Terminal? ensures Explained(cp', cp'.receipts[i]) {
      PrunedReceipt(cp, q, cp', at, i);
      KeptAbove(cp, q, cp', at, i);
      PrunedHasAcceptance(cp, q, cp', at, cp'.receipts[i]);
    }
  }

  // ------------------------------------------------------------------------------------------
  // Effects
  // ------------------------------------------------------------------------------------------

  /** A filtered list, with the old positions of what remained. */
  lemma {:induction false} RetainTerminalsAt(rs: seq<Receipt>, ts: seq<TerminalEffect>) returns (at: seq<nat>)
    ensures var kept := RetainTerminals(rs, ts);
            && |at| == |kept|
            && (forall x :: 0 <= x < |at| ==> at[x] < |ts| && kept[x] == ts[at[x]] && Referenced(rs, kept[x].intent.effectId))
            && (forall x, y :: 0 <= x < y < |at| ==> at[x] < at[y])
            && (forall i: nat :: i < |ts| && Referenced(rs, ts[i].intent.effectId) ==> Occurs(i, at))
  {
    hide Occurs, Referenced;
    if ts == [] {
      at := [];
    } else {
      var init, t := ts[..|ts| - 1], ts[|ts| - 1];
      var at' := RetainTerminalsAt(rs, init);
      assert forall i :: 0 <= i < |init| ==> init[i] == ts[i];
      at := if Referenced(rs, t.intent.effectId) then at' + [|init|] else at';
      forall i: nat | i < |ts| && Referenced(rs, ts[i].intent.effectId) ensures Occurs(i, at) {
        OccursMore(i, at', |init|);
        assert i < |init| ==> Occurs(i, at');
      }
    }
  }

  lemma {:induction false} RetainCompactedAt(rs: seq<Receipt>, ts: seq<EffectTombstone>) returns (at: seq<nat>)
    ensures var kept := RetainCompacted(rs, ts);
            && |at| == |kept|
            && (forall x :: 0 <= x < |at| ==> at[x] < |ts| && kept[x] == ts[at[x]] && Referenced(rs, kept[x].effectId))
            && (forall x, y :: 0 <= x < y < |at| ==> at[x] < at[y])
            && (forall i: nat :: i < |ts| && Referenced(rs, ts[i].effectId) ==> Occurs(i, at))
  {
    hide Occurs, Referenced;
    if ts == [] {
      at := [];
    } else {
      var init, t := ts[..|ts| - 1], ts[|ts| - 1];
      var at' := RetainCompactedAt(rs, init);
      assert forall i :: 0 <= i < |init| ==> init[i] == ts[i];
      at := if Referenced(rs, t.effectId) then at' + [|init|] else at';
      forall i: nat | i < |ts| && Referenced(rs, ts[i].effectId) ensures Occurs(i, at) {
        OccursMore(i, at', |init|);
        assert i < |init| ==> Occurs(i, at');
      }
    }
  }

  /** The outbox after pruning: the positions of what stayed. */
  ghost predicate StagesKept(cp: Checkpoint, cp': Checkpoint, ta: seq<nat>, ca: seq<nat>) {
    && cp'.pending == cp.pending && cp'.revision == cp.revision + 1 && cp'.nextTerminal == cp.nextTerminal
    && |cp'.terminals| == |ta| && |cp'.compacted| == |ca|
    && (forall x :: 0 <= x < |ta| ==> ta[x] < |cp.terminals| && cp'.terminals[x] == cp.terminals[ta[x]])
    && (forall x :: 0 <= x < |ca| ==> ca[x] < |cp.compacted| && cp'.compacted[x] == cp.compacted[ca[x]])
    && (forall x, y :: 0 <= x < y < |ta| ==> ta[x] < ta[y])
    && (forall x, y :: 0 <= x < y < |ca| ==> ca[x] < ca[y])
  }

  lemma StagesStay(cp: Checkpoint, cp': Checkpoint, ta: seq<nat>, ca: seq<nat>)
    requires StagesOk(cp) && StagesKept(cp, cp', ta, ca)
    ensures StagesOk(cp')
  {
    forall x | 0 <= x < |cp'.terminals| ensures ta[x] < |cp.terminals| && cp'.terminals[x] == cp.terminals[ta[x]] {
    }
    forall x | 0 <= x < |cp'.compacted| ensures ca[x] < |cp.compacted| && cp'.compacted[x] == cp.compacted[ca[x]] {
    }
  }

  lemma PrunedStages(cp: Checkpoint, q: PruneRequest, cp': Checkpoint, at: seq<nat>)
    requires Inv(cp) && Pruned(cp, q, cp', at)
    ensures StagesOk(cp')
    ensures forall f :: IsTerminal(cp', f) <==> IsTerminal(cp, f) && Referenced(cp'.receipts, f)
    ensures forall f :: IsCompacted(cp', f) <==> IsCompacted(cp, f) && Referenced(cp'.receipts, f)
    ensures forall x :: 0 <= x < |cp'.terminals| ==> cp'.terminals[x] in cp.terminals
    ensures forall x :: 0 <= x < |cp'.compacted| ==> cp'.compacted[x] in cp.compacted
  {
    hide Coherent, Sourced, Prunable, Burials, Retain, Bury, EffectsOk, Referenced, RetainTerminals, RetainCompacted, StagesOk, Occurs;
    ValidEffects(cp);
    var rs := cp'.receipts;
    var ta := RetainTerminalsAt(rs, cp.terminals);
    var ca := RetainCompactedAt(rs, cp.compacted);
    StagesStay(cp, cp', ta, ca);
    forall f ensures IsTerminal(cp', f) <==> IsTerminal(cp, f) && Referenced(rs, f) {
      TerminalStays(cp, cp', ta, f);
    }
    forall f ensures IsCompacted(cp', f) <==> IsCompacted(cp, f) && Referenced(rs, f) {
      CompactedStays(cp, cp', ca, f);
    }
  }

  lemma TerminalStays(cp: Checkpoint, cp': Checkpoint, ta: seq<nat>, f: Text)
    requires |cp'.terminals| == |ta|
    requires forall x :: 0 <= x < |ta| ==>
               ta[x] < |cp.terminals| && cp'.terminals[x] == cp.terminals[ta[x]] && Referenced(cp'.receipts, cp'.terminals[x].intent.effectId)
    requires forall i: nat :: i < |cp.terminals| && Referenced(cp'.receipts, cp.terminals[i].intent.effectId) ==> Occurs(i, ta)
    ensures IsTerminal(cp', f) <==> IsTerminal(cp, f) && Referenced(cp'.receipts, f)
  {
    hide Referenced;
    if IsTerminal(cp, f) && Referenced(cp'.receipts, f) {
      var i: nat :| i < |cp.terminals| && cp.terminals[i].intent.effectId == f;
      assert Occurs(i, ta);
      var x :| 0 <= x < |ta| && ta[x] == i;
      assert cp'.terminals[x].intent.effectId == f;
    }
    if IsTerminal(cp', f) {
      var x :| 0 <= x < |cp'.terminals| && cp'.terminals[x].intent.effectId == f;
      assert cp.terminals[ta[x]].intent.effectId == f;
    }
  }

  lemma CompactedStays(cp: Checkpoint, cp': Checkpoint, ca: seq<nat>, f: Text)
    requires |cp'.compacted| == |ca|
    requires forall x :: 0 <= x < |ca| ==>
               ca[x] < |cp.compacted| && cp'.compacted[x] == cp.compacted[ca[x]] && Referenced(cp'.receipts, cp'.compacted[x].effectId)
    requires forall i: nat :: i < |cp.compacted| && Referenced(cp'.receipts, cp.compacted[i].effectId) ==> Occurs(i, ca)
    ensures IsCompacted(cp', f) <==> IsCompacted(cp, f) && Referenced(cp'.receipts, f)
  {
    hide Referenced;
    if IsCompacted(cp, f) && Referenced(cp'.receipts, f) {
      var i: nat :| i < |cp.compacted| && cp.compacted[i].effectId == f;
      assert Occurs(i, ca);
      var x :| 0 <= x < |ca| && ca[x] == i;
      assert cp'.compacted[x].effectId == f;
    }
    if IsCompacted(cp', f) {
      var x :| 0 <= x < |cp'.compacted| && cp'.compacted[x].effectId == f;
      assert cp.compacted[ca[x]].effectId == f;
    }
  }

  /** A pending effect keeps its producer. */
  lemma PendingReferenced(cp: Checkpoint, q: PruneRequest, cp': Checkpoint, at: seq<nat>, f: Text)
    requires Inv(cp) && Pruned(cp, q, cp', at) && IsPending(cp, f)
    ensures Referenced(cp'.receipts, f)
  {
    hide Coherent, Sourced, Pruned, StagesOk, UniqueEffects, AllocationsOk, UniqueAcceptances, UniqueTerminals, QueuesOk, ReceiptsOk, IsTerminal, IsCompacted, Removable;
    ValidTerminals(cp);
    ValidEffects(cp);
    assert Referenced(cp.receipts, f);
    var i, k :| 0 <= i < |cp.receipts| && 0 <= k < |cp.receipts[i].Refs()| && cp.receipts[i].Refs()[k].OutboxRef? && cp.receipts[i].Refs()[k].effectId == f;
    NotPending(cp, q, cp', at, i, k);
    var j := KeptReceipt(cp, q, cp', at, i);
    assert cp'.receipts[j].Refs()[k].effectId == f;
  }

  lemma NotPending(cp: Checkpoint, q: PruneRequest, cp': Checkpoint, at: seq<nat>, i: nat, k: nat)
    requires Pruned(cp, q, cp', at) && i < |cp.receipts| && k < |cp.receipts[i].Refs()| && cp.receipts[i].Refs()[k].OutboxRef?
    requires IsPending(cp, cp.receipts[i].Refs()[k].effectId)
    ensures !Removable(cp.receipts[i], q.cutoff)
  {
    hide Retain, Bury, RetainTerminals, RetainCompacted, Burials, PruneAllowed, Removable;
  }

  lemma PrunedUniqueEffects(cp: Checkpoint, q: PruneRequest, cp': Checkpoint, at: seq<nat>)
    requires Inv(cp) && Pruned(cp, q, cp', at)
    ensures UniqueEffects(cp'.receipts)
    ensures forall f :: Referenced(cp'.receipts, f) ==> Referenced(cp.receipts, f)
  {
    hide Coherent, Sourced, Pruned, StagesOk, AllocationsOk, UniqueAcceptances, UniqueTerminals, QueuesOk, ReceiptsOk, IsPending, IsTerminal, IsCompacted, Removable;
    ValidTerminals(cp);
    ValidEffects(cp);
    PrunedBasics(cp, q, cp', at);
    forall i, k, j, l |
      && 0 <= i < |cp'.receipts| && 0 <= k < |cp'.receipts[i].Refs()| && cp'.receipts[i].Refs()[k].OutboxRef?
      && 0 <= j < |cp'.receipts| && 0 <= l < |cp'.receipts[j].Refs()| && cp'.receipts[j].Refs()[l].OutboxRef?
      && cp'.receipts[i].Refs()[k].effectId == cp'.receipts[j].Refs()[l].effectId
      ensures i == j && k == l
    {
      PrunedReceipt(cp, q, cp', at, i);
      PrunedReceipt(cp, q, cp', at, j);
      assert Origin(cp, q.cutoff, i) == Origin(cp, q.cutoff, j);
    }
    forall f | Referenced(cp'.receipts, f) ensures Referenced(cp.receipts, f) {
      var i, k :| 0 <= i < |cp'.receipts| && 0 <= k < |cp'.receipts[i].Refs()| && cp'.receipts[i].Refs()[k].OutboxRef? && cp'.receipts[i].Refs()[k].effectId == f;
      PrunedReceipt(cp, q, cp', at, i);
    }
  }

  lemma PrunedEffects(cp: Checkpoint, q: PruneRequest, cp': Checkpoint, at: seq<nat>)
    requires Inv(cp) && Pruned(cp, q, cp', at)
    ensures StagesOk(cp') && EffectsOk(cp')
  {
    hide Coherent, Sourced, Pruned, StagesOk, UniqueEffects, Referenced, IsTerminal, IsCompacted;
    ValidEffects(cp);
    PrunedBasics(cp, q, cp', at);
    PrunedStages(cp, q, cp', at);
    PrunedUniqueEffects(cp, q, cp', at);
    forall f ensures Referenced(cp'.receipts, f) <==> IsPending(cp', f) || IsTerminal(cp', f) || IsCompacted(cp', f) {
      assert IsPending(cp', f) <==> IsPending(cp, f);
      if IsPending(cp, f) {
        PendingReferenced(cp, q, cp', at, f);
      }
    }
  }

  // ------------------------------------------------------------------------------------------
  // The theorem
  // ------------------------------------------------------------------------------------------

  lemma PrunedStrong(cp: Checkpoint, q: PruneRequest, cp': Checkpoint, at: seq<nat>)
    requires Inv(cp) && Pruned(cp, q, cp', at)
    ensures Strong(cp')
  {
    hide Coherent, Sourced, Pruned, Live, AllocationsOk, UniqueAcceptances, UniqueTerminals, QueuesOk, ReceiptsOk, DistinctRuntimes, Admits, Concerns, StagesOk;
    hide IsLive, Ended, Accepted, Referenced, IsTerminal, IsCompacted;
    ValidTerminals(cp);
    StrongRest(cp);
    PrunedBasics(cp, q, cp', at);
    PrunedStages(cp, q, cp', at);
    forall i, j | 0 <= i < |cp'.receipts| && cp'.receipts[i].Acceptance? && 0 <= j < |cp'.receipts| && cp'.receipts[j].Terminal?
              && cp'.receipts[i].eventId == cp'.receipts[j].eventId
      ensures Admits(cp'.receipts[i], cp'.receipts[j])
    {
      PrunedReceipt(cp, q, cp', at, i);
      PrunedReceipt(cp, q, cp', at, j);
      OldAdmits(cp, Origin(cp, q.cutoff, i), Origin(cp, q.cutoff, j));
    }
    forall i, j, k | 0 <= j < |cp'.receipts| && cp'.receipts[j].Acceptance? ensures !Concerns(cp'.receipts, i, k, cp'.receipts[j].eventId) {
      PrunedReceipt(cp, q, cp', at, j);
      if Concerns(cp'.receipts, i, k, cp'.receipts[j].eventId) {
        PrunedConcerns(cp, q, cp', at, i, k, cp'.receipts[j].eventId);
        NotBoth(cp, Origin(cp, q.cutoff, i), Origin(cp, q.cutoff, j), k);
      }
    }
    forall x | 0 <= x < |cp'.tombstones| ensures cp'.tombstones[x].terminal <= q.cutoff {
      TombstoneAlone(cp, q, cp', at, x);
    }
    DistinctRecord(cp);
  }

  lemma DistinctRecord(cp: Checkpoint)
    requires Coherent(cp)
    ensures cp.record.Retained? ==> DistinctRuntimes(cp.record.aggregate.runtimes)
  {
    hide Consistent, Traceable, DistinctRuntimes;
  }

  lemma PrunedRecord(cp: Checkpoint)
    requires Coherent(cp)
    ensures cp.record.Retained? ==> MailboxesOk(cp.record.aggregate)
    ensures cp.record.Retained? && Sourced(cp) ==> SourcesOk(cp.record.aggregate)
  {
    hide MailboxesOk, SourcesOk, ReceiptsOk, UniqueAcceptances, UniqueTerminals, AllocationsOk, DigestsOk, CreationOk, Traceable, Strong;
    hide ProvenanceOk, AcceptancesLead, TombstonesOk, OwnersOk, QueuesOk, TerminalsExplained, ReferencesOk, StagesOk, EffectsOk;
  }

  lemma PrunedInv(cp: Checkpoint, q: PruneRequest, cp': Checkpoint, at: seq<nat>)
    requires Inv(cp) && Pruned(cp, q, cp', at)
    ensures Inv(cp')
  {
    hide Pruned, Traceable, Strong, ReceiptsOk, UniqueAcceptances, UniqueTerminals, AllocationsOk, DigestsOk, CreationOk, MailboxesOk, SourcesOk;
    hide ProvenanceOk, AcceptancesLead, TombstonesOk, OwnersOk, QueuesOk, TerminalsExplained, ReferencesOk, StagesOk, EffectsOk;
    PrunedBasics(cp, q, cp', at);
    PrunedReceipts(cp, q, cp', at);
    PrunedDigests(cp, q, cp', at);
    PrunedAllocations(cp, q, cp', at);
    PrunedRecord(cp);
    PrunedProvenance(cp, q, cp', at);
    PrunedLead(cp, q, cp', at);
    PrunedTombstones(cp, q, cp', at);
    PrunedOwners(cp, q, cp', at);
    PrunedExplained(cp, q, cp', at);
    PrunedReferences(cp, q, cp', at);
    PrunedEffects(cp, q, cp', at);
    PrunedStrong(cp, q, cp', at);
    SourcedIsTraceable(cp');
  }

  /** The guards of pruning put the cutoff in range. */
  lemma GuardsInRange(cp: Checkpoint, q: PruneRequest, g: Guard)
    requires Inv(cp) && After(cp, Prune(cp, q, g)) != cp
    ensures Prunable(cp, q) && Prune(cp, q, g) == Ok(Next(PruneTo(cp, q)))
  {
    hide Coherent, Sourced, AllocationsOk, UniqueAcceptances, UniqueTerminals, QueuesOk, PruneAllowed, PrunesPending, PruneTo;
    ValidTerminals(cp);
  }

  /** Pruning passes validation whenever it passes its guards. */
  lemma PruneInv(cp: Checkpoint, q: PruneRequest, g: Guard)
    requires Inv(cp)
    ensures Inv(After(cp, Prune(cp, q, g)))
  {
    hide Coherent, Sourced, Prune, Prunable, PruneTo, Burials, Bury;
    if After(cp, Prune(cp, q, g)) != cp {
      GuardsInRange(cp, q, g);
      var at := BuryAt(cp.receipts, q.cutoff);
      PrunedInv(cp, q, PruneTo(cp, q), at);
    }
  }
}
