/** Which evidence is handed out about a known event. */
module EvidenceProofs {
  import opened CheckpointModel
  import opened CheckpointValidity
  import opened WireCoreProofs
  import opened CheckpointOps
  import opened IdentityProofs

  ghost predicate InBox(box: seq<Entry>, id: Text) {
    exists e :: e in box && e.Id() == id
  }

  /** `v` is put for some entry of the box. */
  ghost predicate ShowsBox(rs: seq<Receipt>, box: seq<Entry>, location: Location, id: Text, v: Identity) {
    exists e :: e in box && e.Id() == id && v == EntryIdentity(rs, e, location)
  }

  /** `after` shows something new about `id`, or what `before` shows. */
  ghost predicate Unchanged(before: map<Text, Identity>, after: map<Text, Identity>, id: Text) {
    (id in after <==> id in before) && (id in before ==> after[id] == before[id])
  }

  lemma {:induction false} BoxShows(rs: seq<Receipt>, box: seq<Entry>, location: Location, m: map<Text, Identity>, id: Text)
    ensures var after := BoxIdentities(rs, box, location, m);
            if InBox(box, id) then id in after && ShowsBox(rs, box, location, id, after[id]) else Unchanged(m, after, id)
  {
    hide EntryIdentity;
    if box != [] {
      var init, e := box[..|box| - 1], box[|box| - 1];
      BoxShows(rs, init, location, m, id);
      assert box == init + [e];
      assert e in box;
      assert InBox(box, id) <==> InBox(init, id) || e.Id() == id;
    }
  }

  /** Some runtime holds an entry of that name. */
  ghost predicate InRuntimes(runtimes: seq<Runtime>, id: Text) {
    exists r :: r in runtimes && (InBox(r.ready, id) || InBox(r.deferred, id))
  }

  ghost predicate ShowsRuntime(rs: seq<Receipt>, r: Runtime, id: Text, v: Identity) {
    ShowsBox(rs, r.ready, InReady, id, v) || ShowsBox(rs, r.deferred, InDeferred, id, v)
  }

  lemma {:induction false} RuntimesShow(rs: seq<Receipt>, runtimes: seq<Runtime>, m: map<Text, Identity>, id: Text)
    ensures var after := RuntimeIdentities(rs, runtimes, m);
            if InRuntimes(runtimes, id) then id in after && exists r :: r in runtimes && ShowsRuntime(rs, r, id, after[id])
            else Unchanged(m, after, id)
  {
    hide BoxIdentities, InBox, ShowsBox;
    if runtimes != [] {
      var init, r := runtimes[..|runtimes| - 1], runtimes[|runtimes| - 1];
      RuntimesShow(rs, init, m, id);
      assert runtimes == init + [r];
      var before := RuntimeIdentities(rs, init, m);
      BoxShows(rs, r.ready, InReady, before, id);
      BoxShows(rs, r.deferred, InDeferred, BoxIdentities(rs, r.ready, InReady, before), id);
      assert InRuntimes(runtimes, id) <==> InRuntimes(init, id) || InBox(r.ready, id) || InBox(r.deferred, id);
      assert r in runtimes;
      var after := RuntimeIdentities(rs, runtimes, m);
      if InBox(r.ready, id) || InBox(r.deferred, id) {
        assert ShowsRuntime(rs, r, id, after[id]);
      } else if InRuntimes(init, id) {
        var q :| q in init && ShowsRuntime(rs, q, id, before[id]);
        assert q in runtimes && ShowsRuntime(rs, q, id, after[id]);
      }
    }
  }

  lemma {:induction false} TerminalsShow(all: seq<Receipt>, rs: seq<Receipt>, m: map<Text, Identity>, id: Text)
    ensures var after := TerminalIdentities(all, rs, m);
            if Ended(rs, id) then id in after && exists t :: t in rs && t.Terminal? && t.eventId == id && after[id] == TerminalIdentity(all, t)
            else Unchanged(m, after, id)
  {
    hide TerminalIdentity;
    if rs != [] {
      var init, r := rs[..|rs| - 1], rs[|rs| - 1];
      TerminalsShow(all, init, m, id);
      assert rs == init + [r];
      assert Ended(rs, id) <==> Ended(init, id) || (r.Terminal? && r.eventId == id) by {
        EndedMore(init, r, id);
      }
      assert r in rs;
    }
  }

  lemma EndedMore(init: seq<Receipt>, r: Receipt, id: Text)
    ensures Ended(init + [r], id) <==> Ended(init, id) || (r.Terminal? && r.eventId == id)
  {
    var rs := init + [r];
    if i :| 0 <= i < |init| && init[i].Terminal? && init[i].eventId == id {
      assert rs[i] == init[i];
    }
    assert rs[|init|] == r;
  }

  lemma {:induction false} TombstonesShow(ts: seq<EventTombstone>, m: map<Text, Identity>, id: Text)
    ensures var after := TombstoneIdentities(ts, m);
            if Buried(ts, id) then id in after && exists t :: t in ts && t.eventId == id && after[id] == Identity(t.request, ByTombstone(t))
            else Unchanged(m, after, id)
  {
    if ts != [] {
      var init, t := ts[..|ts| - 1], ts[|ts| - 1];
      TombstonesShow(init, m, id);
      assert ts == init + [t];
      assert Buried(ts, id) <==> Buried(init, id) || t.eventId == id by {
        BuriedMore(init, t, id);
      }
      assert t in ts;
    }
  }

  lemma BuriedMore(init: seq<EventTombstone>, t: EventTombstone, id: Text)
    ensures Buried(init + [t], id) <==> Buried(init, id) || t.eventId == id
  {
    var ts := init + [t];
    if i :| 0 <= i < |init| && init[i].eventId == id {
      assert ts[i] == init[i];
    }
    assert ts[|init|] == t;
  }

  predicate IsAcceptance(rs: seq<Receipt>, id: Text, r: Receipt) {
    r in rs && r.Acceptance? && r.eventId == id
  }

  lemma {:induction false} AcceptanceShows(rs: seq<Receipt>, id: Text)
    ensures AcceptanceOf(rs, id).Some? <==> Accepted(rs, id)
    ensures AcceptanceOf(rs, id).Some? ==> IsAcceptance(rs, id, AcceptanceOf(rs, id).value)
  {
    if rs != [] {
      var init, r := rs[..|rs| - 1], rs[|rs| - 1];
      AcceptanceShows(init, id);
      assert rs == init + [r];
      if i :| 0 <= i < |init| && init[i].Acceptance? && init[i].eventId == id {
        assert rs[i] == init[i];
      }
      if i :| 0 <= i < |rs| && rs[i].Acceptance? && rs[i].eventId == id {
        assert i < |init| ==> init[i] == rs[i];
      }
    }
  }

  /** An entry of that name waits there. */
  ghost predicate Waits(runtimes: seq<Runtime>, id: Text, acceptance: nat, location: Location) {
    exists r, e :: r in runtimes && WaitsIn(r, e, id, acceptance, location)
  }

  predicate WaitsIn(r: Runtime, e: Entry, id: Text, acceptance: nat, location: Location) {
    e.Id() == id && e.acceptance == acceptance && e in (if location.InReady? then r.ready else r.deferred)
  }

  /**
   The evidence about `id`: the tombstone of a buried event, else its acceptance receipt, else the terminal
   receipt of an ended one, else where its entry waits.
   */
  ghost predicate Proves(cp: Checkpoint, id: Text, v: Evidence) {
    if Buried(cp.tombstones, id) then v.ByTombstone? && v.tombstone in cp.tombstones && v.tombstone.eventId == id
    else if Accepted(cp.receipts, id) then v.ByReceipt? && IsAcceptance(cp.receipts, id, v.receipt)
    else if Ended(cp.receipts, id) then v.ByReceipt? && v.receipt in cp.receipts && v.receipt.Terminal? && v.receipt.eventId == id
    else v.ByEntry? && v.eventId == id && cp.record.Retained? && Waits(cp.record.aggregate.runtimes, id, v.acceptance, v.location)
  }

  lemma EntryProves(cp: Checkpoint, id: Text, v: Identity)
    requires cp.record.Retained? && !Buried(cp.tombstones, id) && !Ended(cp.receipts, id)
    requires exists r :: r in cp.record.aggregate.runtimes && ShowsRuntime(cp.receipts, r, id, v)
    ensures Proves(cp, id, v.evidence)
  {
    var rs := cp.record.aggregate.runtimes;
    var r :| r in rs && ShowsRuntime(cp.receipts, r, id, v);
    AcceptanceShows(cp.receipts, id);
    if !Accepted(cp.receipts, id) {
      var location := if ShowsBox(cp.receipts, r.ready, InReady, id, v) then InReady else InDeferred;
      var box := if location.InReady? then r.ready else r.deferred;
      var e :| e in box && e.Id() == id && v == EntryIdentity(cp.receipts, e, location);
      assert WaitsIn(r, e, id, e.acceptance, location);
    }
  }

  lemma TerminalProves(cp: Checkpoint, id: Text, t: Receipt)
    requires Inv(cp) && !Buried(cp.tombstones, id) && t in cp.receipts && t.Terminal? && t.eventId == id
    ensures Proves(cp, id, TerminalIdentity(cp.receipts, t).evidence)
  {
    hide Consistent, Sourced, Traceable, AcceptanceOf;
    AcceptanceShows(cp.receipts, id);
    var j :| 0 <= j < |cp.receipts| && cp.receipts[j] == t;
    assert Ended(cp.receipts, id);
    if Accepted(cp.receipts, id) {
      var a := AcceptanceOf(cp.receipts, id).value;
      var i :| 0 <= i < |cp.receipts| && cp.receipts[i] == a;
      assert Admits(cp.receipts[i], cp.receipts[j]);
    }
  }

  lemma LiveInRuntimes(cp: Checkpoint, id: Text)
    requires IsLive(cp, id)
    ensures cp.record.Retained? && InRuntimes(cp.record.aggregate.runtimes, id)
  {
    hide MailOf;
    var e :| e in Live(cp) && e.Id() == id;
    MailMember(cp.record.aggregate.runtimes, e);
    var i :| 0 <= i < |cp.record.aggregate.runtimes| && e in Mail(cp.record.aggregate.runtimes[i]);
    var r := cp.record.aggregate.runtimes[i];
    assert r in cp.record.aggregate.runtimes;
    assert e in r.ready || e in r.deferred;
  }

  /** What is handed out about a known event. */
  lemma EvidenceProves(cp: Checkpoint, id: Text)
    requires Inv(cp) && Known(cp, id)
    ensures id in RetainedIdentity(cp) && Proves(cp, id, RetainedIdentity(cp)[id].evidence)
  {
    hide Inv, TombstoneIdentities, TerminalIdentities, RuntimeIdentities, TerminalIdentity, IsLive, ShowsRuntime, InRuntimes;
    var live := if cp.record.Retained? then RuntimeIdentities(cp.receipts, cp.record.aggregate.runtimes, map[]) else map[];
    var ended := TerminalIdentities(cp.receipts, cp.receipts, live);
    TombstonesShow(cp.tombstones, ended, id);
    TerminalsShow(cp.receipts, cp.receipts, live, id);
    if Buried(cp.tombstones, id) {
    } else if Ended(cp.receipts, id) {
      var t :| t in cp.receipts && t.Terminal? && t.eventId == id && ended[id] == TerminalIdentity(cp.receipts, t);
      TerminalProves(cp, id, t);
    } else {
      LiveInRuntimes(cp, id);
      RuntimesShow(cp.receipts, cp.record.aggregate.runtimes, map[], id);
      EntryProves(cp, id, live[id]);
    }
  }

  /** There is only one such evidence. */
  lemma ProvesOnce(cp: Checkpoint, id: Text, v: Evidence, v': Evidence)
    requires Inv(cp) && Known(cp, id) && Proves(cp, id, v) && Proves(cp, id, v')
    ensures v == v'
  {
    hide Inv, Live, IsLive, UniqueAcceptances, UniqueTerminals, TombstonesOk;
    ProvesParts(cp);
    if Buried(cp.tombstones, id) {
      hide Waits;
      var i, j :| 0 <= i < |cp.tombstones| && cp.tombstones[i] == v.tombstone && 0 <= j < |cp.tombstones| && cp.tombstones[j] == v'.tombstone;
    } else if Accepted(cp.receipts, id) || Ended(cp.receipts, id) {
      hide Waits;
      var i, j :| 0 <= i < |cp.receipts| && cp.receipts[i] == v.receipt && 0 <= j < |cp.receipts| && cp.receipts[j] == v'.receipt;
      OneReceipt(cp, id, i, j);
    } else {
      WaitsOnce(cp, id, v.acceptance, v.location, v'.acceptance, v'.location);
    }
  }

  lemma ProvesParts(cp: Checkpoint)
    requires Inv(cp)
    ensures UniqueAcceptances(cp.receipts) && UniqueTerminals(cp.receipts)
    ensures forall i, j :: 0 <= i < j < |cp.tombstones| ==> cp.tombstones[i].eventId != cp.tombstones[j].eventId
    ensures cp.record.Retained? ==> Numbered(MailOf(cp.record.aggregate.runtimes)) && Named(MailOf(cp.record.aggregate.runtimes))
  {
    hide ReceiptsOk, AllocationsOk, DigestsOk, CreationOk, AcceptancesLead, OwnersOk, QueuesOk, TerminalsExplained, ReferencesOk, StagesOk, EffectsOk;
    hide Strong, Traceable, Sourced, MailOf, Numbered, Named;
  }

  lemma OneReceipt(cp: Checkpoint, id: Text, i: nat, j: nat)
    requires UniqueAcceptances(cp.receipts) && UniqueTerminals(cp.receipts)
    requires i < |cp.receipts| && j < |cp.receipts|
    requires var r, s := cp.receipts[i], cp.receipts[j];
             (r.Acceptance? && s.Acceptance? && r.eventId == s.eventId) || (r.Terminal? && s.Terminal? && r.eventId == s.eventId)
    ensures i == j
  {
  }

  lemma WaitsOnce(cp: Checkpoint, id: Text, n: nat, location: Location, n': nat, location': Location)
    requires Inv(cp) && cp.record.Retained?
    requires Waits(cp.record.aggregate.runtimes, id, n, location) && Waits(cp.record.aggregate.runtimes, id, n', location')
    ensures n == n' && location == location'
  {
    hide Inv, MailOf, Named, Numbered;
    var rs := cp.record.aggregate.runtimes;
    ProvesParts(cp);
    var r, e :| r in rs && WaitsIn(r, e, id, n, location);
    var r', e' :| r' in rs && WaitsIn(r', e', id, n', location');
    var i, j :| 0 <= i < |rs| && rs[i] == r && 0 <= j < |rs| && rs[j] == r';
    assert e in Mail(r) && e' in Mail(r');
    MailMember(rs, e);
    MailMember(rs, e');
    NamedOnce(MailOf(rs), e, e');
    if location != location' {
      TwiceInMail(rs, i, j, e);
      NumberedOnce(MailOf(rs), e);
    }
  }

  lemma NamedOnce(m: multiset<Entry>, e: Entry, f: Entry)
    requires Named(m) && e in m && f in m && e.Id() == f.Id()
    ensures e == f
  {
  }

  lemma NumberedOnce(m: multiset<Entry>, e: Entry)
    requires Numbered(m) && e in m
    ensures m[e] == 1
  {
  }

  /** An entry in a ready mailbox and in a deferred one is there twice. */
  lemma {:induction false} TwiceInMail(rs: seq<Runtime>, i: nat, j: nat, e: Entry)
    requires i < |rs| && j < |rs|
    requires (e in rs[i].ready && e in rs[j].deferred) || (e in rs[i].deferred && e in rs[j].ready)
    ensures MailOf(rs)[e] >= 2
    decreases |rs|
  {
    if i == 0 && j == 0 {
      assert Mail(rs[0])[e] == multiset(rs[0].ready)[e] + multiset(rs[0].deferred)[e];
    } else if i > 0 && j > 0 {
      TwiceInMail(rs[1..], i - 1, j - 1, e);
    } else {
      var k := if i == 0 then j else i;
      assert e in Mail(rs[0]) && e in Mail(rs[1..][k - 1]);
      MailMember(rs[1..], e);
    }
  }
}
