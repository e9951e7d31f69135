/** How step, deferral and root tombstone rewrite the references of old receipts. */
module Rewriting {
  import opened CheckpointModel
  import opened CheckpointValidity
  import opened WireCore
  import opened WireCoreProofs
  import opened StepContract
  import opened Transitions
  import opened CheckpointOps
  import opened Multisets

  // ------------------------------------------------------------------------------------------
  // Queue numbers
  // ------------------------------------------------------------------------------------------

  lemma {:induction false} MailSnoc(rs: seq<Runtime>, r: Runtime)
    ensures MailOf(rs + [r]) == MailOf(rs) + Mail(r)
  {
    if rs == [] {
      assert rs + [r] == [r] && [r][1..] == [];
    } else {
      MailSnoc(rs[1..], r);
      assert (rs + [r])[1..] == rs[1..] + [r];
      Associate(Mail(rs[0]), MailOf(rs[1..]), Mail(r));
    }
  }

  lemma {:induction false} FlatMail(rs: seq<Runtime>)
    ensures multiset(Flat(rs)) == MailOf(rs)
  {
    if rs != [] {
      var init, r := rs[..|rs| - 1], rs[|rs| - 1];
      FlatMail(init);
      assert rs == init + [r];
      MailSnoc(init, r);
      BoxMail(r);
    }
  }

  /** Every internal entry is in the map; every pair in the map is that of an internal entry. */
  lemma {:induction false} QueueMapOf(es: seq<Entry>)
    ensures forall e :: e in es && e.mode.Internal? ==> (e.Id(), e.acceptance) in QueueMap(es)
    ensures forall k :: k in QueueMap(es) ==>
              exists e :: e in es && e.mode.Internal? && k == (e.Id(), e.acceptance) && QueueMap(es)[k] == e.queue
  {
    if es != [] {
      var init, last := es[..|es| - 1], es[|es| - 1];
      QueueMapOf(init);
      assert es == init + [last];
      assert forall e :: e in es <==> e in init || e == last;
    }
  }

  /** The queue numbers of the live entries of an aggregate. */
  lemma QueueMapLive(rs: seq<Runtime>, e: Entry)
    requires Named(MailOf(rs)) && e in MailOf(rs) && e.mode.Internal?
    ensures var q := QueueMap(Flat(rs)); (e.Id(), e.acceptance) in q && q[(e.Id(), e.acceptance)] == e.queue
  {
    hide MailOf, Flat, QueueMap;
    FlatMail(rs);
    assert e in multiset(Flat(rs));
    QueueMapOf(Flat(rs));
    var k := (e.Id(), e.acceptance);
    var f :| f in Flat(rs) && f.mode.Internal? && k == (f.Id(), f.acceptance) && QueueMap(Flat(rs))[k] == f.queue;
    assert f in multiset(Flat(rs));
  }

  // ------------------------------------------------------------------------------------------
  // Ended events
  // ------------------------------------------------------------------------------------------

  function Entries(ls: seq<Lifecycle>): (es: seq<Entry>)
    ensures |es| == |ls|
  {
    seq(|ls|, l requires 0 <= l < |ls| => ls[l].entry)
  }

  lemma {:induction false} EntriesMail(ls: seq<Lifecycle>)
    ensures multiset(Entries(ls)) == LifeMail(ls)
  {
    if ls != [] {
      EntriesMail(ls[1..]);
      assert Entries(ls) == [ls[0].entry] + Entries(ls[1..]);
    }
  }

  predicate DistinctIds(es: seq<Entry>) {
    forall i, j :: 0 <= i < j < |es| ==> es[i].Id() != es[j].Id()
  }

  /** Exactly the given and the disposed events have ended. */
  lemma {:induction false} EndedByKeys(ls: seq<Lifecycle>, first: nat, t: map<Text, nat>, id: Text)
    ensures id in EndedBy(ls, first, t) <==> id in t || exists l :: 0 <= l < |ls| && ls[l].entry.Id() == id
    ensures id in t ==> EndedBy(ls, first, t)[id] == t[id]
  {
    if ls != [] {
      var init, last := ls[..|ls| - 1], ls[|ls| - 1];
      EndedByKeys(init, first, t, id);
      EndedByKeys(init, first, t, last.entry.Id());
      assert forall l :: 0 <= l < |init| ==> init[l] == ls[l];
      if id == last.entry.Id() {
        assert ls[|ls| - 1].entry.Id() == id;
      }
    }
  }

  lemma {:induction false} EndedByAt(ls: seq<Lifecycle>, first: nat, t: map<Text, nat>, l: nat)
    requires DistinctIds(Entries(ls)) && l < |ls| && ls[l].entry.Id() !in t
    ensures var ended := EndedBy(ls, first, t); ls[l].entry.Id() in ended && ended[ls[l].entry.Id()] == first + l
  {
    var init, last := ls[..|ls| - 1], ls[|ls| - 1];
    forall k | 0 <= k < |init| ensures Entries(init)[k] == Entries(ls)[k] && init[k].entry.Id() != last.entry.Id() {
      assert Entries(ls)[k].Id() != Entries(ls)[|ls| - 1].Id();
    }
    if l < |init| {
      EndedByAt(init, first, t, l);
    } else {
      EndedByKeys(init, first, t, last.entry.Id());
    }
  }

  // ------------------------------------------------------------------------------------------
  // Rewriting one reference
  // ------------------------------------------------------------------------------------------

  /** `q` knows the queue numbers of the live entries, `t` the receipts that end the entries `out`. */
  ghost predicate Rewrites(cp: Checkpoint, cp': Checkpoint, out: seq<Entry>, q: map<(Text, nat), nat>, t: map<Text, nat>) {
    && (forall e :: e in Live(cp') && e.mode.Internal? ==> (e.Id(), e.acceptance) in q && q[(e.Id(), e.acceptance)] == e.queue)
    && (forall e :: e in Live(cp') ==> e.Id() !in t)
    && (forall j :: 0 <= j < |out| && out[j].mode.Internal? ==> out[j].Id() in t && t[out[j].Id()] == cp.nextReceipt + j)
  }

  lemma RewriteLive(cp: Checkpoint, cp': Checkpoint, out: seq<Entry>, q: map<(Text, nat), nat>, t: map<Text, nat>, r: Reference, e: Entry, x: Entry, n: nat)
    requires Rewrites(cp, cp', out, q, t) && Names(r, e) && e.mode.Internal? && x in Live(cp') && Moved(e, x, n)
    ensures RewriteRef(t, SyncRef(q, r)) == MailboxRef(r.index, r.eventId, r.acceptance, x.queue)
  {
    hide Live;
    assert x.Id() == r.eventId && x.acceptance == r.acceptance && x.mode.Internal?;
  }

  lemma RewriteEnded(cp: Checkpoint, cp': Checkpoint, out: seq<Entry>, q: map<(Text, nat), nat>, t: map<Text, nat>, r: Reference, e: Entry, j: nat)
    requires Rewrites(cp, cp', out, q, t) && Names(r, e) && e.mode.Internal? && j < |out| && out[j] == e
    ensures RewriteRef(t, SyncRef(q, r)) == TerminalRef(r.index, r.eventId, r.acceptance, cp.nextReceipt + j)
  {
    hide Live;
  }

  lemma EntryGoesOn(cp: Checkpoint, cp': Checkpoint, out: seq<Entry>, refs: seq<Reference>, e: Entry)
    requires cp.record.Retained? && EntriesAdvance(cp, cp', out, refs) && e in Live(cp)
    ensures || (exists x :: x in Live(cp') && Moved(e, x, cp.record.aggregate.nextQueue))
            || (exists j :: 0 <= j < |out| && out[j] == e)
  {
    hide Live, Distinct, Everything, New, Moved, Names;
  }

  lemma RewriteMoves(cp: Checkpoint, cp': Checkpoint, out: seq<Entry>, refs: seq<Reference>,
                     q: map<(Text, nat), nat>, t: map<Text, nat>, r: Reference)
    requires cp.record.Retained? && EntriesAdvance(cp, cp', out, refs) && Rewrites(cp, cp', out, q, t)
    ensures RefMoves(cp, cp', out, r, RewriteRef(t, SyncRef(q, r)))
  {
    hide Live, EntriesAdvance, Rewrites, Moved;
    var r', n := RewriteRef(t, SyncRef(q, r)), cp.record.aggregate.nextQueue;
    if r.MailboxRef? {
      forall e | e in Live(cp) && e.mode.Internal? && Names(r, e)
        ensures || (exists x :: x in Live(cp') && Moved(e, x, n) && r' == MailboxRef(r.index, r.eventId, r.acceptance, x.queue))
                || (exists j :: 0 <= j < |out| && out[j] == e && r' == TerminalRef(r.index, r.eventId, r.acceptance, cp.nextReceipt + j))
      {
        EntryGoesOn(cp, cp', out, refs, e);
        if x :| x in Live(cp') && Moved(e, x, n) {
          RewriteLive(cp, cp', out, q, t, r, e, x, n);
        } else {
          var j :| 0 <= j < |out| && out[j] == e;
          RewriteEnded(cp, cp', out, q, t, r, e, j);
        }
      }
    }
  }

  lemma RewriteBodies(q: map<(Text, nat), nat>, t: map<Text, nat>, rs: seq<Receipt>)
    ensures var rs' := RewriteAll(t, SyncAll(q, rs));
            && |rs'| == |rs|
            && (forall i :: 0 <= i < |rs| ==> SameBody(rs[i], rs'[i]) && |rs'[i].Refs()| == |rs[i].Refs()|)
            && (forall i, k :: 0 <= i < |rs| && 0 <= k < |rs[i].Refs()| ==>
                  rs'[i].Refs()[k] == RewriteRef(t, SyncRef(q, rs[i].Refs()[k])))
  {
  }

  lemma OnlySync(q: map<(Text, nat), nat>, rs: seq<Receipt>)
    ensures RewriteAll(map[], SyncAll(q, rs)) == SyncAll(q, rs)
  {
    forall i | 0 <= i < |rs| ensures RewriteReceipt(map[], SyncReceipt(q, rs[i])) == SyncReceipt(q, rs[i]) {
      SameRefs(map[], SyncReceipt(q, rs[i]));
    }
  }

  lemma SameRefs(t: map<Text, nat>, r: Receipt)
    requires forall k :: 0 <= k < |r.Refs()| && r.Refs()[k].MailboxRef? ==> r.Refs()[k].eventId !in t
    ensures RewriteReceipt(t, r) == r
  {
    if !r.Acceptance? {
      forall k | 0 <= k < |r.refs| ensures RewriteRef(t, r.refs[k]) == r.refs[k] {
        assert r.Refs()[k] == r.refs[k];
      }
      assert RewriteReceipt(t, r).refs == r.refs;
    }
  }

  lemma OnlyRewrite(t: map<Text, nat>, rs: seq<Receipt>)
    ensures RewriteAll(t, SyncAll(map[], rs)) == RewriteAll(t, rs)
  {
    forall i | 0 <= i < |rs| ensures SyncReceipt(map[], rs[i]) == rs[i] {
      if !rs[i].Acceptance? {
        assert SyncReceipt(map[], rs[i]).refs == rs[i].refs;
      }
    }
    assert SyncAll(map[], rs) == rs;
  }

  /** Old receipts rewritten and new ones appended. */
  lemma RewriteAdvances(cp: Checkpoint, cp': Checkpoint, out: seq<Entry>, refs: seq<Reference>,
                        q: map<(Text, nat), nat>, t: map<Text, nat>)
    requires cp.record.Retained? && EntriesAdvance(cp, cp', out, refs) && Rewrites(cp, cp', out, q, t)
    requires |cp'.receipts| >= |cp.receipts| && cp'.receipts[..|cp.receipts|] == RewriteAll(t, SyncAll(q, cp.receipts))
    ensures forall i :: 0 <= i < |cp.receipts| ==> SameBody(cp.receipts[i], cp'.receipts[i])
    ensures RefsAdvance(cp, cp', out)
  {
    hide EntriesAdvance, Rewrites, RewriteAll, SyncAll, RefMoves;
    RewriteBodies(q, t, cp.receipts);
    forall i | 0 <= i < |cp.receipts|
      ensures cp'.receipts[i] == RewriteAll(t, SyncAll(q, cp.receipts))[i]
      ensures SameBody(cp.receipts[i], cp'.receipts[i])
    {
      assert cp'.receipts[..|cp.receipts|][i] == cp'.receipts[i];
    }
    forall i, k | 0 <= i < |cp.receipts| && 0 <= k < |cp.receipts[i].Refs()|
      ensures k < |cp'.receipts[i].Refs()| && RefMoves(cp, cp', out, cp.receipts[i].Refs()[k], cp'.receipts[i].Refs()[k])
    {
      RewriteMoves(cp, cp', out, refs, q, t, cp.receipts[i].Refs()[k]);
    }
  }
}
