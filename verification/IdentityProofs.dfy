/** What retained identity knows: exactly the live, ended and buried events, under their digests. */
module IdentityProofs {
  import opened CheckpointModel
  import opened CheckpointValidity
  import opened WireCoreProofs
  import opened TransitionEvents
  import opened Transitions
  import opened CheckpointOps

  /** Some record of the checkpoint binds event `id` to digest `d`. */
  ghost predicate Bears(cp: Checkpoint, id: Text, d: EnvelopeDigest) {
    || (exists e :: e in Live(cp) && e.Id() == id && e.digest == d)
    || (exists i :: 0 <= i < |cp.receipts| && cp.receipts[i].Terminal? && cp.receipts[i].eventId == id && cp.receipts[i].request' == d)
    || (exists i :: 0 <= i < |cp.tombstones| && cp.tombstones[i].eventId == id && cp.tombstones[i].request == d)
  }

  ghost predicate Known(cp: Checkpoint, id: Text) {
    IsLive(cp, id) || Ended(cp.receipts, id) || Buried(cp.tombstones, id)
  }

  /** `after` extends `before` at `id` by what a source of digests offers. */
  ghost predicate Learns(before: map<Text, Identity>, after: map<Text, Identity>, id: Text, offers: set<EnvelopeDigest>) {
    && (offers == {} ==> (id in after <==> id in before) && (id in before ==> after[id] == before[id]))
    && (offers != {} ==> id in after && after[id].digest in offers)
  }

  lemma LearnsTwice(a: map<Text, Identity>, b: map<Text, Identity>, c: map<Text, Identity>, id: Text, s: set<EnvelopeDigest>, t: set<EnvelopeDigest>)
    requires Learns(a, b, id, s) && Learns(b, c, id, t)
    ensures Learns(a, c, id, s + t)
  {
    if t == {} {
      assert s + t == s;
    } else {
      var d :| d in t;
      assert d in s + t;
    }
  }

  function BoxOffers(box: seq<Entry>, id: Text): set<EnvelopeDigest> {
    set e | e in box && e.Id() == id :: e.digest
  }

  lemma {:induction false} BoxLearns(rs: seq<Receipt>, box: seq<Entry>, location: Location, m: map<Text, Identity>, id: Text)
    ensures Learns(m, BoxIdentities(rs, box, location, m), id, BoxOffers(box, id))
  {
    if box != [] {
      var init, e := box[..|box| - 1], box[|box| - 1];
      BoxLearns(rs, init, location, m, id);
      assert box == init + [e];
      var before := BoxIdentities(rs, init, location, m);
      var one: set<EnvelopeDigest> := if e.Id() == id then {e.digest} else {};
      assert Learns(before, before[e.Id() := EntryIdentity(rs, e, location)], id, one);
      LearnsTwice(m, before, before[e.Id() := EntryIdentity(rs, e, location)], id, BoxOffers(init, id), one);
      assert BoxOffers(box, id) == BoxOffers(init, id) + one;
    }
  }

  function MailOffers(runtimes: seq<Runtime>, id: Text): set<EnvelopeDigest> {
    if runtimes == [] then {}
    else
      var r := runtimes[|runtimes| - 1];
      MailOffers(runtimes[..|runtimes| - 1], id) + BoxOffers(r.ready, id) + BoxOffers(r.deferred, id)
  }

  lemma {:induction false} MailLearns(rs: seq<Receipt>, runtimes: seq<Runtime>, m: map<Text, Identity>, id: Text)
    ensures Learns(m, RuntimeIdentities(rs, runtimes, m), id, MailOffers(runtimes, id))
  {
    if runtimes != [] {
      var init, r := runtimes[..|runtimes| - 1], runtimes[|runtimes| - 1];
      hide Learns, BoxOffers, BoxIdentities;
      MailLearns(rs, init, m, id);
      var before := RuntimeIdentities(rs, init, m);
      var ready := BoxIdentities(rs, r.ready, InReady, before);
      BoxLearns(rs, r.ready, InReady, before, id);
      BoxLearns(rs, r.deferred, InDeferred, ready, id);
      LearnsTwice(m, before, ready, id, MailOffers(init, id), BoxOffers(r.ready, id));
      LearnsTwice(m, ready, BoxIdentities(rs, r.deferred, InDeferred, ready), id, MailOffers(init, id) + BoxOffers(r.ready, id), BoxOffers(r.deferred, id));
    } else {
      assert RuntimeIdentities(rs, runtimes, m) == m;
    }
  }

  lemma {:induction false} MailOffersIff(runtimes: seq<Runtime>, id: Text, d: EnvelopeDigest)
    ensures d in MailOffers(runtimes, id) <==> exists e :: e in MailOf(runtimes) && e.Id() == id && e.digest == d
  {
    hide MailOf;
    if runtimes == [] {
      MailNone();
    } else {
      var init, r := runtimes[..|runtimes| - 1], runtimes[|runtimes| - 1];
      MailOffersIff(init, id, d);
      MailLast(runtimes);
      assert forall e :: e in Mail(r) <==> e in r.ready || e in r.deferred;
      if e :| e in MailOf(runtimes) && e.Id() == id && e.digest == d {
        assert e in MailOf(init) || e in r.ready || e in r.deferred;
      }
      if d in BoxOffers(r.ready, id) + BoxOffers(r.deferred, id) {
        var e :| (e in r.ready || e in r.deferred) && e.Id() == id && e.digest == d;
        assert e in MailOf(runtimes);
      }
    }
  }

  lemma MailNone()
    ensures MailOf([]) == multiset{}
  {
  }

  lemma MailLast(rs: seq<Runtime>)
    requires rs != []
    ensures forall e :: e in MailOf(rs) <==> e in MailOf(rs[..|rs| - 1]) || e in Mail(rs[|rs| - 1])
  {
    hide MailOf;
    var init := rs[..|rs| - 1];
    forall e ensures e in MailOf(rs) <==> e in MailOf(init) || e in Mail(rs[|rs| - 1]) {
      MailMember(rs, e);
      MailMember(init, e);
      if e in MailOf(init) {
        var i :| 0 <= i < |init| && e in Mail(init[i]);
        assert e in Mail(rs[i]);
      }
      if i :| 0 <= i < |rs| && e in Mail(rs[i]) {
        if i < |init| {
          assert e in Mail(init[i]);
        }
      }
    }
  }

  function ReceiptOffers(rs: seq<Receipt>, id: Text): set<EnvelopeDigest> {
    set r | r in rs && r.Terminal? && r.eventId == id :: r.request'
  }

  lemma {:induction false} TerminalLearns(all: seq<Receipt>, rs: seq<Receipt>, m: map<Text, Identity>, id: Text)
    ensures Learns(m, TerminalIdentities(all, rs, m), id, ReceiptOffers(rs, id))
  {
    if rs != [] {
      var init, r := rs[..|rs| - 1], rs[|rs| - 1];
      TerminalLearns(all, init, m, id);
      assert rs == init + [r];
      var before := TerminalIdentities(all, init, m);
      var one: set<EnvelopeDigest> := if r.Terminal? && r.eventId == id then {r.request'} else {};
      assert Learns(before, TerminalIdentities(all, rs, m), id, one);
      LearnsTwice(m, before, TerminalIdentities(all, rs, m), id, ReceiptOffers(init, id), one);
      assert ReceiptOffers(rs, id) == ReceiptOffers(init, id) + one;
    }
  }

  function TombstoneOffers(ts: seq<EventTombstone>, id: Text): set<EnvelopeDigest> {
    set t | t in ts && t.eventId == id :: t.request
  }

  lemma {:induction false} TombstoneLearns(ts: seq<EventTombstone>, m: map<Text, Identity>, id: Text)
    ensures Learns(m, TombstoneIdentities(ts, m), id, TombstoneOffers(ts, id))
  {
    if ts != [] {
      var init, t := ts[..|ts| - 1], ts[|ts| - 1];
      TombstoneLearns(init, m, id);
      assert ts == init + [t];
      var before := TombstoneIdentities(init, m);
      var one: set<EnvelopeDigest> := if t.eventId == id then {t.request} else {};
      assert Learns(before, TombstoneIdentities(ts, m), id, one);
      LearnsTwice(m, before, TombstoneIdentities(ts, m), id, TombstoneOffers(init, id), one);
      assert TombstoneOffers(ts, id) == TombstoneOffers(init, id) + one;
    }
  }

  function Offers(cp: Checkpoint, id: Text): set<EnvelopeDigest> {
    (if cp.record.Retained? then MailOffers(cp.record.aggregate.runtimes, id) else {})
    + ReceiptOffers(cp.receipts, id) + TombstoneOffers(cp.tombstones, id)
  }

  lemma OffersIff(cp: Checkpoint, id: Text, d: EnvelopeDigest)
    ensures d in Offers(cp, id) <==> Bears(cp, id, d)
  {
    hide MailOffers, MailOf;
    if cp.record.Retained? {
      MailOffersIff(cp.record.aggregate.runtimes, id, d);
    }
    if d in ReceiptOffers(cp.receipts, id) {
      var r :| r in cp.receipts && r.Terminal? && r.eventId == id && r.request' == d;
      var i :| 0 <= i < |cp.receipts| && cp.receipts[i] == r;
    }
    if d in TombstoneOffers(cp.tombstones, id) {
      var t :| t in cp.tombstones && t.eventId == id && t.request == d;
      var i :| 0 <= i < |cp.tombstones| && cp.tombstones[i] == t;
    }
  }

  lemma IdentityLearns(cp: Checkpoint, id: Text)
    ensures Learns(map[], RetainedIdentity(cp), id, Offers(cp, id))
  {
    hide Learns, MailOffers, ReceiptOffers, TombstoneOffers, TombstoneIdentities, TerminalIdentities, RuntimeIdentities;
    var live := if cp.record.Retained? then RuntimeIdentities(cp.receipts, cp.record.aggregate.runtimes, map[]) else map[];
    var offered := if cp.record.Retained? then MailOffers(cp.record.aggregate.runtimes, id) else {};
    if cp.record.Retained? {
      MailLearns(cp.receipts, cp.record.aggregate.runtimes, map[], id);
    } else {
      LearnsNothing(map[], id);
    }
    var ended := TerminalIdentities(cp.receipts, cp.receipts, live);
    TerminalLearns(cp.receipts, cp.receipts, live, id);
    TombstoneLearns(cp.tombstones, ended, id);
    LearnsTwice(map[], live, ended, id, offered, ReceiptOffers(cp.receipts, id));
    LearnsTwice(map[], ended, TombstoneIdentities(cp.tombstones, ended), id, offered + ReceiptOffers(cp.receipts, id), TombstoneOffers(cp.tombstones, id));
  }

  lemma LearnsNothing(m: map<Text, Identity>, id: Text)
    ensures Learns(m, m, id, {})
  {
  }

  /** An event that is live is neither ended nor buried, and so on: its digest is unique. */
  lemma OneDigest(cp: Checkpoint, id: Text, d: EnvelopeDigest, d': EnvelopeDigest)
    requires Inv(cp) && Bears(cp, id, d) && Bears(cp, id, d')
    ensures d == d'
  {
    hide Coherent, Sourced, AllocationsOk, UniqueAcceptances, ReceiptsOk, AcceptancesLead, OwnersOk;
    ValidTerminals(cp);
    ValidLead(cp);
    LiveNamed(cp);
    assert (exists e :: e in Live(cp) && e.Id() == id) <==> IsLive(cp, id);
  }

  lemma LiveNamed(cp: Checkpoint)
    requires Inv(cp)
    ensures Named(Live(cp))
  {
    hide ReceiptsOk, UniqueAcceptances, UniqueTerminals, AllocationsOk, DigestsOk, ProvenanceOk, AcceptancesLead, TombstonesOk, OwnersOk, QueuesOk;
    hide TerminalsExplained, ReferencesOk, StagesOk, EffectsOk, Strong, MailOf;
  }

  /** Retained identity is the relation between events and digests that the records bear. */
  lemma IdentityIff(cp: Checkpoint, id: Text, d: EnvelopeDigest)
    requires Inv(cp)
    ensures (id in RetainedIdentity(cp) && RetainedIdentity(cp)[id].digest == d) <==> Bears(cp, id, d)
  {
    hide Coherent, Sourced, Bears, RetainedIdentity, Offers;
    IdentityLearns(cp, id);
    OffersIff(cp, id, d);
    if Bears(cp, id, d) {
      var d' := RetainedIdentity(cp)[id].digest;
      OffersIff(cp, id, d');
      OneDigest(cp, id, d, d');
    }
  }

  lemma KnownIff(cp: Checkpoint, id: Text)
    ensures id in RetainedIdentity(cp) <==> Known(cp, id)
  {
    hide RetainedIdentity, Offers;
    IdentityLearns(cp, id);
    if id in RetainedIdentity(cp) {
      var d := RetainedIdentity(cp)[id].digest;
      OffersIff(cp, id, d);
    }
    if Known(cp, id) {
      var d := KnownBears(cp, id);
      OffersIff(cp, id, d);
    }
  }

  lemma KnownBears(cp: Checkpoint, id: Text) returns (d: EnvelopeDigest)
    requires Known(cp, id)
    ensures Bears(cp, id, d)
  {
    hide Live;
    if IsLive(cp, id) {
      var e :| e in Live(cp) && e.Id() == id;
      d := e.digest;
    } else if Ended(cp.receipts, id) {
      var i :| 0 <= i < |cp.receipts| && cp.receipts[i].Terminal? && cp.receipts[i].eventId == id;
      d := cp.receipts[i].request';
    } else {
      var i :| 0 <= i < |cp.tombstones| && cp.tombstones[i].eventId == id;
      d := cp.tombstones[i].request;
    }
  }
}
