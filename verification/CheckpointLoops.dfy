/**
 The loops of the checkpoint operations: maps and receipts updated step by step, each proved
 against the function that specifies it.
 */
module CheckpointLoops {
  import opened Wrappers
  import opened CheckpointModel
  import opened CheckpointValidity
  import opened WireCore
  import opened CheckpointOps
  import opened Rewriting

  // ------------------------------------------------------------------------------------------
  // Retained identity
  // ------------------------------------------------------------------------------------------

  /** Adds the identities of one mailbox; later entries win. */
  method CollectBox(rs: seq<Receipt>, box: seq<Entry>, location: Location, start: map<Text, Identity>) returns (known: map<Text, Identity>)
    ensures known == BoxIdentities(rs, box, location, start)
  {
    known := start;
    for i := 0 to |box|
      invariant known == BoxIdentities(rs, box[..i], location, start)
    {
      assert box[..i + 1][..i] == box[..i];
      known := known[box[i].Id() := EntryIdentity(rs, box[i], location)];
    }
    assert box[..|box|] == box;
  }

  method CollectLive(rs: seq<Receipt>, runtimes: seq<Runtime>) returns (known: map<Text, Identity>)
    ensures known == RuntimeIdentities(rs, runtimes, map[])
  {
    known := map[];
    for i := 0 to |runtimes|
      invariant known == RuntimeIdentities(rs, runtimes[..i], map[])
    {
      assert runtimes[..i + 1][..i] == runtimes[..i];
      known := CollectBox(rs, runtimes[i].ready, InReady, known);
      known := CollectBox(rs, runtimes[i].deferred, InDeferred, known);
    }
    assert runtimes[..|runtimes|] == runtimes;
  }

  /** Live entries first, then terminal receipts, then tombstones, each overriding what came before. */
  method CollectIdentities(cp: Checkpoint) returns (known: map<Text, Identity>)
    ensures known == RetainedIdentity(cp)
  {
    var rs := cp.receipts;
    known := map[];
    if cp.record.Retained? {
      known := CollectLive(rs, cp.record.aggregate.runtimes);
    }
    ghost var live := known;
    for i := 0 to |rs|
      invariant known == TerminalIdentities(rs, rs[..i], live)
    {
      assert rs[..i + 1][..i] == rs[..i];
      if rs[i].Terminal? {
        known := known[rs[i].eventId := TerminalIdentity(rs, rs[i])];
      }
    }
    assert rs[..|rs|] == rs;
    ghost var ended := known;
    var ts := cp.tombstones;
    for i := 0 to |ts|
      invariant known == TombstoneIdentities(ts[..i], ended)
    {
      assert ts[..i + 1][..i] == ts[..i];
      known := known[ts[i].eventId := Identity(ts[i].request, ByTombstone(ts[i]))];
    }
    assert ts[..|ts|] == ts;
  }

  // ------------------------------------------------------------------------------------------
  // References
  // ------------------------------------------------------------------------------------------

  method CollectQueues(es: seq<Entry>) returns (queues: map<(Text, nat), nat>)
    ensures queues == QueueMap(es)
  {
    queues := map[];
    for i := 0 to |es|
      invariant queues == QueueMap(es[..i])
    {
      assert es[..i + 1][..i] == es[..i];
      if es[i].mode.Internal? {
        queues := queues[(es[i].Id(), es[i].acceptance) := es[i].queue];
      }
    }
    assert es[..|es|] == es;
  }

  /** Mailbox references take over the queue numbers of the resulting aggregate, receipt by receipt. */
  method SynchronizeReferences(rs: seq<Receipt>, runtimes: seq<Runtime>) returns (rs': seq<Receipt>)
    ensures rs' == SyncAll(QueueMap(Flat(runtimes)), rs)
  {
    var queues := CollectQueues(Flat(runtimes));
    rs' := rs;
    for i := 0 to |rs|
      invariant |rs'| == |rs|
      invariant forall j :: 0 <= j < i ==> rs'[j] == SyncReceipt(queues, rs[j])
      invariant forall j :: i <= j < |rs| ==> rs'[j] == rs[j]
    {
      if !rs[i].Acceptance? {
        var refs := rs[i].refs;
        for k := 0 to |refs|
          invariant |refs| == |rs[i].refs|
          invariant forall l :: 0 <= l < k ==> refs[l] == SyncRef(queues, rs[i].refs[l])
          invariant forall l :: k <= l < |refs| ==> refs[l] == rs[i].refs[l]
        {
          if refs[k].MailboxRef? && (refs[k].eventId, refs[k].acceptance) in queues {
            refs := refs[k := refs[k].(queue := queues[(refs[k].eventId, refs[k].acceptance)])];
          }
        }
        assert refs == SyncReceipt(queues, rs[i]).refs;
        rs' := rs'[i := WithRefs(rs[i], refs)];
      }
    }
    assert rs' == SyncAll(queues, rs);
  }

  /** The receipt with other emission references. */
  function WithRefs(r: Receipt, refs: seq<Reference>): Receipt
    requires !r.Acceptance?
  {
    match r
    case Creation(s, c, q, v, d, t, _) => Creation(s, c, q, v, d, t, refs)
    case Terminal(s, e, q, a, f, v, d, o, _) => Terminal(s, e, q, a, f, v, d, o, refs)
  }

  /** Rewrites the references of one receipt and counts them. */
  method RewriteRefs(old': seq<Reference>, id: Text, terminal: nat) returns (refs: seq<Reference>, found: nat)
    ensures |refs| == |old'| && forall k :: 0 <= k < |old'| ==> refs[k] == RewriteRef(map[id := terminal], old'[k])
    ensures found == RefMatches(old', id)
  {
    refs, found := old', 0;
    for k := 0 to |refs|
      invariant |refs| == |old'| && found == RefMatches(old'[..k], id)
      invariant forall l :: 0 <= l < k ==> refs[l] == RewriteRef(map[id := terminal], old'[l])
      invariant forall l :: k <= l < |refs| ==> refs[l] == old'[l]
    {
      assert old'[..k + 1][..k] == old'[..k];
      if refs[k].MailboxRef? && refs[k].eventId == id {
        refs := refs[k := TerminalRef(refs[k].index, refs[k].eventId, refs[k].acceptance, terminal)];
        found := found + 1;
      }
    }
    assert old'[..|old'|] == old';
  }

  lemma RewrittenReceipt(t: map<Text, nat>, r: Receipt, refs: seq<Reference>)
    requires !r.Acceptance? && |refs| == |r.refs| && forall k :: 0 <= k < |refs| ==> refs[k] == RewriteRef(t, r.refs[k])
    ensures WithRefs(r, refs) == RewriteReceipt(t, r)
  {
    assert refs == RewriteReceipt(t, r).refs;
  }

  /** Turns the references to an ended event into terminal references; more than one is an error. */
  method RewriteProducer(rs: seq<Receipt>, id: Text, terminal: nat) returns (r: Result<seq<Receipt>, Failure>)
    ensures r.Ok? <==> Matches(rs, id) <= 1
    ensures r.Ok? ==> r.value == RewriteAll(map[id := terminal], rs)
  {
    hide RewriteReceipt, RefMatches;
    ghost var t := map[id := terminal];
    var rs', matches := rs, 0;
    for i := 0 to |rs|
      invariant |rs'| == |rs| && matches == Matches(rs[..i], id)
      invariant forall j :: 0 <= j < i ==> rs'[j] == RewriteReceipt(t, rs[j])
      invariant forall j :: i <= j < |rs| ==> rs'[j] == rs[j]
    {
      assert rs[..i + 1][..i] == rs[..i];
      if rs[i].Acceptance? {
        NoRefs(t, rs[i], id);
      } else {
        var refs, found := RewriteRefs(rs[i].refs, id, terminal);
        RewrittenReceipt(t, rs[i], refs);
        rs' := rs'[i := WithRefs(rs[i], refs)];
        matches := matches + found;
      }
    }
    assert rs[..|rs|] == rs;
    if matches > 1 {
      return Err(InvalidCheckpoint);
    }
    assert rs' == RewriteAll(t, rs);
    return Ok(rs');
  }

  lemma NoRefs(t: map<Text, nat>, r: Receipt, id: Text)
    requires r.Acceptance?
    ensures RewriteReceipt(t, r) == r && RefMatches(r.Refs(), id) == 0
  {
  }

  // ------------------------------------------------------------------------------------------
  // At most one producer
  // ------------------------------------------------------------------------------------------

  lemma {:induction false} RefMatchAt(refs: seq<Reference>, id: Text)
    requires RefMatches(refs, id) > 0
    ensures exists k :: 0 <= k < |refs| && refs[k].MailboxRef? && refs[k].eventId == id
  {
    var init := refs[..|refs| - 1];
    if !(refs[|refs| - 1].MailboxRef? && refs[|refs| - 1].eventId == id) {
      RefMatchAt(init, id);
      var k :| 0 <= k < |init| && init[k].MailboxRef? && init[k].eventId == id;
      assert refs[k] == init[k];
    }
  }

  lemma {:induction false} RefMatchOnce(refs: seq<Reference>, id: Text)
    requires forall k, l :: 0 <= k < l < |refs| && !refs[k].OutboxRef? && !refs[l].OutboxRef? && refs[k].eventId == id ==> refs[l].eventId != id
    ensures RefMatches(refs, id) <= 1
  {
    if refs != [] {
      var init := refs[..|refs| - 1];
      assert forall k :: 0 <= k < |init| ==> init[k] == refs[k];
      RefMatchOnce(init, id);
      if RefMatches(init, id) > 0 {
        RefMatchAt(init, id);
      }
    }
  }

  lemma {:induction false} MatchAt(rs: seq<Receipt>, id: Text)
    requires Matches(rs, id) > 0
    ensures exists i, k :: Concerns(rs, i, k, id)
  {
    var init, last := rs[..|rs| - 1], |rs| - 1;
    if RefMatches(rs[last].Refs(), id) > 0 {
      RefMatchAt(rs[last].Refs(), id);
      var k :| 0 <= k < |rs[last].Refs()| && rs[last].Refs()[k].MailboxRef? && rs[last].Refs()[k].eventId == id;
      assert Concerns(rs, last, k, id);
    } else {
      MatchAt(init, id);
      var i, k :| Concerns(init, i, k, id);
      assert Concerns(rs, i, k, id);
    }
  }

  /** With unique producers the error for several producers is never raised. */
  lemma {:induction false} UniqueMatch(rs: seq<Receipt>, id: Text)
    requires UniqueProducers(rs)
    ensures Matches(rs, id) <= 1
  {
    if rs != [] {
      var init, last := rs[..|rs| - 1], |rs| - 1;
      forall i, k, e | Concerns(init, i, k, e) ensures Concerns(rs, i, k, e) {
      }
      UniqueMatch(init, id);
      var refs := rs[last].Refs();
      forall k, l | 0 <= k < l < |refs| && !refs[k].OutboxRef? && !refs[l].OutboxRef? && refs[k].eventId == id ensures refs[l].eventId != id {
        assert Concerns(rs, last, k, id);
        assert refs[l].eventId == id ==> Concerns(rs, last, l, id);
      }
      RefMatchOnce(refs, id);
      if Matches(init, id) > 0 && RefMatches(refs, id) > 0 {
        MatchAt(init, id);
        var i, k :| Concerns(init, i, k, id);
        RefMatchAt(refs, id);
        var l :| 0 <= l < |refs| && refs[l].MailboxRef? && refs[l].eventId == id;
        assert Concerns(rs, i, k, id) && Concerns(rs, last, l, id);
      }
    }
  }

  // ------------------------------------------------------------------------------------------
  // Committing a step
  // ------------------------------------------------------------------------------------------

  /** The map extended by one ended event; the first end of an event wins. */
  function Ending(t: map<Text, nat>, id: Text, terminal: nat): map<Text, nat> {
    if id in t then t else t[id := terminal]
  }

  lemma RewriteAgain(t: map<Text, nat>, id: Text, terminal: nat, rs: seq<Receipt>)
    ensures RewriteAll(map[id := terminal], RewriteAll(t, rs)) == RewriteAll(Ending(t, id, terminal), rs)
  {
    forall i | 0 <= i < |rs|
      ensures RewriteReceipt(map[id := terminal], RewriteReceipt(t, rs[i])) == RewriteReceipt(Ending(t, id, terminal), rs[i])
    {
      if !rs[i].Acceptance? {
        assert RewriteReceipt(map[id := terminal], RewriteReceipt(t, rs[i])).refs == RewriteReceipt(Ending(t, id, terminal), rs[i]).refs;
      }
    }
  }

  lemma RewriteConcat(t: map<Text, nat>, a: seq<Receipt>, b: seq<Receipt>)
    ensures RewriteAll(t, a + b) == RewriteAll(t, a) + RewriteAll(t, b)
  {
    hide RewriteReceipt;
  }

  lemma RewriteBare(t: map<Text, nat>, b: seq<Receipt>)
    requires forall i :: 0 <= i < |b| ==> b[i].Refs() == []
    ensures RewriteAll(t, b) == b
  {
    forall i | 0 <= i < |b| ensures RewriteReceipt(t, b[i]) == b[i] {
      SameRefs(t, b[i]);
    }
  }

  /** One disposal: its receipt is appended and the references to its event are rewritten. */
  lemma DisposeOne(t: map<Text, nat>, base: seq<Receipt>, before: seq<Receipt>, r: Receipt, id: Text, terminal: nat)
    requires r.Refs() == [] && forall i :: 0 <= i < |before| ==> before[i].Refs() == []
    ensures RewriteAll(map[id := terminal], (RewriteAll(t, base) + before) + [r]) == RewriteAll(Ending(t, id, terminal), base) + (before + [r])
  {
    hide RewriteAll, RewriteReceipt;
    var rest := before + [r];
    assert (RewriteAll(t, base) + before) + [r] == RewriteAll(t, base) + rest;
    RewriteConcat(map[id := terminal], RewriteAll(t, base), rest);
    RewriteAgain(t, id, terminal, base);
    RewriteBare(map[id := terminal], rest);
  }

  lemma LifecycleNone(first: nat, revision: nat, digest: AggregateDigest, status: Status, t: map<Text, nat>)
    ensures LifecycleReceipts([], first, revision, digest, status) == [] && EndedBy([], first, t) == t
  {
  }

  lemma LifecycleMore(ls: seq<Lifecycle>, l: nat, first: nat, revision: nat, digest: AggregateDigest, status: Status, t: map<Text, nat>)
    requires l < |ls|
    ensures var before, receipt := LifecycleReceipts(ls[..l], first, revision, digest, status), LifecycleReceipt(ls[l], first + l, revision, digest, status);
            && LifecycleReceipts(ls[..l + 1], first, revision, digest, status) == before + [receipt]
            && receipt.Refs() == [] && forall i :: 0 <= i < |before| ==> before[i].Refs() == []
    ensures EndedBy(ls[..l + 1], first, t) == Ending(EndedBy(ls[..l], first, t), ls[l].entry.Id(), first + l)
  {
    assert ls[..l + 1][..l] == ls[..l];
  }

  // How often an event is referenced, before and after rewriting

  lemma {:induction false} RefMatchesRewritten(t: map<Text, nat>, refs: seq<Reference>, refs': seq<Reference>, id: Text)
    requires |refs'| == |refs| && forall k :: 0 <= k < |refs| ==> refs'[k] == RewriteRef(t, refs[k])
    ensures RefMatches(refs', id) == if id in t then 0 else RefMatches(refs, id)
  {
    if refs != [] {
      RefMatchesRewritten(t, refs[..|refs| - 1], refs'[..|refs| - 1], id);
    }
  }

  lemma RewrittenRefs(t: map<Text, nat>, r: Receipt, id: Text)
    ensures RefMatches(RewriteReceipt(t, r).Refs(), id) == if id in t then 0 else RefMatches(r.Refs(), id)
  {
    hide RefMatches;
    RefMatchesRewritten(t, r.Refs(), RewriteReceipt(t, r).Refs(), id);
  }

  lemma {:induction false} MatchesRewritten(t: map<Text, nat>, rs: seq<Receipt>, n: nat, id: Text)
    requires n <= |rs|
    ensures |RewriteAll(t, rs)| == |rs|
    ensures Matches(RewriteAll(t, rs)[..n], id) == if id in t then 0 else Matches(rs[..n], id)
  {
    hide RewriteReceipt, RefMatches;
    if n > 0 {
      MatchesRewritten(t, rs, n - 1, id);
      var rs' := RewriteAll(t, rs);
      assert rs[..n][..n - 1] == rs[..n - 1] && rs'[..n][..n - 1] == rs'[..n - 1];
      RewrittenRefs(t, rs[n - 1], id);
    }
  }

  lemma {:induction false} MatchesBare(a: seq<Receipt>, b: seq<Receipt>, id: Text)
    requires forall i :: 0 <= i < |b| ==> b[i].Refs() == []
    ensures Matches(a + b, id) == Matches(a, id)
  {
    hide RefMatches;
    if b == [] {
      assert a + b == a;
    } else {
      var init := b[..|b| - 1];
      MatchesBare(a, init, id);
      assert (a + b)[..|a + b| - 1] == a + init;
      assert RefMatches([], id) == 0 by { NoMatches(id); }
    }
  }

  lemma NoMatches(id: Text)
    ensures RefMatches([], id) == 0
  {
  }

  /** What the program counts when it rewrites the references to `id`. */
  lemma MatchesNow(t: map<Text, nat>, base: seq<Receipt>, more: seq<Receipt>, id: Text)
    requires forall i :: 0 <= i < |more| ==> more[i].Refs() == []
    ensures Matches(RewriteAll(t, base) + more, id) == if id in t then 0 else Matches(base, id)
  {
    hide Matches, RewriteAll;
    MatchesBare(RewriteAll(t, base), more, id);
    MatchesRewritten(t, base, |base|, id);
    assert RewriteAll(t, base)[..|base|] == RewriteAll(t, base) && base[..|base|] == base;
  }

  /** Appends the receipts of the disposals and rewrites their producers, one after the other. */
  method DisposeInOrder(ghost base: seq<Receipt>, ghost t0: map<Text, nat>, start: seq<Receipt>, lifecycle: seq<Lifecycle>,
                        first: nat, revision: nat, digest: AggregateDigest, status: Status) returns (r: Result<seq<Receipt>, Failure>)
    requires start == RewriteAll(t0, base) && forall id :: id in t0 ==> Matches(base, id) <= 1
    ensures r.Ok? <==> forall l :: 0 <= l < |lifecycle| ==> Matches(base, lifecycle[l].entry.Id()) <= 1
    ensures r.Ok? ==>
              r.value == RewriteAll(EndedBy(lifecycle, first, t0), base) + LifecycleReceipts(lifecycle, first, revision, digest, status)
  {
    hide RewriteAll, Matches, LifecycleReceipts, EndedBy, RefMatches;
    var rs := start;
    ghost var t := t0;
    LifecycleNone(first, revision, digest, status, t0);
    assert lifecycle[..0] == [] && rs + [] == rs;
    for l := 0 to |lifecycle|
      invariant t == EndedBy(lifecycle[..l], first, t0)
      invariant rs == RewriteAll(t, base) + LifecycleReceipts(lifecycle[..l], first, revision, digest, status)
      invariant forall id :: id in t ==> Matches(base, id) <= 1
      invariant forall k :: 0 <= k < l ==> Matches(base, lifecycle[k].entry.Id()) <= 1
    {
      LifecycleMore(lifecycle, l, first, revision, digest, status, t0);
      ghost var before := LifecycleReceipts(lifecycle[..l], first, revision, digest, status);
      var id := lifecycle[l].entry.Id();
      var receipt := LifecycleReceipt(lifecycle[l], first + l, revision, digest, status);
      assert rs + [receipt] == RewriteAll(t, base) + (before + [receipt]);
      MatchesNow(t, base, before + [receipt], id);
      var step := RewriteProducer(rs + [receipt], id, first + l);
      if step.Err? {
        return Err(step.error);
      }
      DisposeOne(t, base, before, receipt, id, first + l);
      rs := step.value;
      t := Ending(t, id, first + l);
    }
    assert lifecycle[..|lifecycle|] == lifecycle;
    return Ok(rs);
  }

  /** The receipts that a commit yields, in terms of the receipts before the rewriting. */
  lemma CommitReceiptsAre(cp: Checkpoint, causal: Entry, state: Aggregate, disposition: Disposition, emitted: seq<Emitted>, lifecycle: seq<Lifecycle>)
    ensures var first, revision := cp.nextReceipt + 1, cp.revision + 1;
            var base := CommitBase(cp, causal, state, disposition, emitted);
            var t0 := if causal.envelope.source.HostSource? then map[] else map[causal.Id() := cp.nextReceipt];
            var all := RewriteAll(EndedBy(lifecycle, first, t0), base)
                       + LifecycleReceipts(lifecycle, first, revision, AggregateDigest(state), RootStatus(state));
            CommitStep(cp, causal, state, disposition, emitted, lifecycle)
            == cp.(revision := revision, record := Retained(state), nextReceipt := first + |lifecycle|,
                   pending := cp.pending + Pendings(emitted, revision), receipts := all)
  {
    hide QueueMap, Flat, RewriteAll, SyncAll, RootStatus, RefsOf, Pendings, LifecycleReceipts, EndedBy, CausalReceipt;
  }

  /**
   Commits a step the way the program does: synchronize references, append the causal receipt,
   rewrite its producer, then append and rewrite disposal by disposal. It fails exactly when an
   event that it ends has several producers.
   */
  method CommitInOrder(cp: Checkpoint, causal: Entry, state: Aggregate, disposition: Disposition, emitted: seq<Emitted>, lifecycle: seq<Lifecycle>)
    returns (r: Result<Checkpoint, Failure>)
    ensures r.Ok? <==> !SeveralProducers(CommitBase(cp, causal, state, disposition, emitted), causal, lifecycle)
    ensures r.Ok? ==> r.value == CommitStep(cp, causal, state, disposition, emitted, lifecycle)
  {
    hide QueueMap, Flat, RewriteAll, SyncAll, Matches, RootStatus, RefsOf, Pendings, CommitStep, LifecycleReceipts, EndedBy;
    CommitReceiptsAre(cp, causal, state, disposition, emitted, lifecycle);
    var revision, first := cp.revision + 1, cp.nextReceipt + 1;
    var synced := SynchronizeReferences(cp.receipts, state.runtimes);
    var rs := synced + [CausalReceipt(causal, cp.nextReceipt, revision, state, disposition, RefsOf(emitted, first))];
    ghost var base := rs;
    ghost var t0: map<Text, nat> := map[];
    RewriteNone(base);
    if !causal.envelope.source.HostSource? {
      var step := RewriteProducer(rs, causal.Id(), cp.nextReceipt);
      t0 := map[causal.Id() := cp.nextReceipt];
      if step.Err? {
        return Err(step.error);
      }
      rs := step.value;
    }
    var all := DisposeInOrder(base, t0, rs, lifecycle, first, revision, AggregateDigest(state), RootStatus(state));
    if all.Err? {
      return Err(all.error);
    }
    return Ok(cp.(revision := revision, record := Retained(state), nextReceipt := first + |lifecycle|,
                  pending := cp.pending + Pendings(emitted, revision), receipts := all.value));
  }

  lemma RewriteNone(rs: seq<Receipt>)
    ensures RewriteAll(map[], rs) == rs
  {
    forall i | 0 <= i < |rs| ensures RewriteReceipt(map[], rs[i]) == rs[i] {
      SameRefs(map[], rs[i]);
    }
  }

  // ------------------------------------------------------------------------------------------
  // No step has several producers
  // ------------------------------------------------------------------------------------------

  lemma SyncConcerns(q: map<(Text, nat), nat>, rs: seq<Receipt>, i: int, k: int, id: Text)
    ensures Concerns(SyncAll(q, rs), i, k, id) <==> Concerns(rs, i, k, id)
  {
  }

  /** No event of which the emissions speak has a reference, and no two of them speak of one event. */
  ghost predicate Unreferenced(rs: seq<Receipt>, emitted: seq<Emitted>) {
    && (forall k, i, l :: 0 <= k < |emitted| && !emitted[k].ToOutbox? ==> !Concerns(rs, i, l, emitted[k].eventId))
    && (forall k, l :: 0 <= k < l < |emitted| && !emitted[k].ToOutbox? && !emitted[l].ToOutbox? ==> emitted[k].eventId != emitted[l].eventId)
  }

  lemma BaseConcerns(cp: Checkpoint, causal: Entry, state: Aggregate, disposition: Disposition, emitted: seq<Emitted>, i: int, k: int, id: Text)
    requires Concerns(CommitBase(cp, causal, state, disposition, emitted), i, k, id)
    ensures if i < |cp.receipts| then Concerns(cp.receipts, i, k, id)
            else i == |cp.receipts| && 0 <= k < |emitted| && !emitted[k].ToOutbox? && emitted[k].eventId == id
  {
    hide QueueMap, Flat, SyncAll, RootStatus;
    var q := QueueMap(Flat(state.runtimes));
    SyncLength(q, cp.receipts);
    if i < |cp.receipts| {
      assert CommitBase(cp, causal, state, disposition, emitted)[i] == SyncAll(q, cp.receipts)[i];
      SyncConcerns(q, cp.receipts, i, k, id);
    }
  }

  lemma SyncLength(q: map<(Text, nat), nat>, rs: seq<Receipt>)
    ensures |SyncAll(q, rs)| == |rs|
  {
  }

  /** If producers are unique and the emissions are new to them, the commit finds at most one producer of any event. */
  lemma NeverSeveralProducers(cp: Checkpoint, causal: Entry, state: Aggregate, disposition: Disposition, emitted: seq<Emitted>, lifecycle: seq<Lifecycle>)
    requires UniqueProducers(cp.receipts) && Unreferenced(cp.receipts, emitted)
    ensures !SeveralProducers(CommitBase(cp, causal, state, disposition, emitted), causal, lifecycle)
  {
    hide CommitBase, Concerns, Matches;
    var base := CommitBase(cp, causal, state, disposition, emitted);
    forall i, k, j, l, id | Concerns(base, i, k, id) && Concerns(base, j, l, id) ensures i == j && k == l {
      BaseConcerns(cp, causal, state, disposition, emitted, i, k, id);
      BaseConcerns(cp, causal, state, disposition, emitted, j, l, id);
    }
    assert UniqueProducers(base);
    forall id ensures Matches(base, id) <= 1 {
      UniqueMatch(base, id);
    }
  }
}
