/** The core step satisfies its contract. */
module StepProofs {
  import opened CheckpointModel
  import opened CheckpointValidity
  import opened WireCore
  import opened WireCoreProofs
  import opened StepContract
  import opened Multisets

  // ------------------------------------------------------------------------------------------
  // One entry more, one entry requeued
  // ------------------------------------------------------------------------------------------

  lemma Insert(m: multiset<Entry>, e: Entry, acceptance: nat, queue: nat)
    requires Numbered(m) && Below(m, acceptance, queue)
    requires e.acceptance == acceptance && e.queue == queue
    ensures Numbered(m + multiset{e}) && Below(m + multiset{e}, acceptance + 1, queue + 1)
  {
    assert e !in m;
    forall f | f in m + multiset{e} ensures (m + multiset{e})[f] == 1 {
      if f != e {
        assert f in m;
      }
    }
  }

  lemma Requeue(m: multiset<Entry>, e: Entry, f: Entry, acceptance: nat, queue: nat)
    requires Numbered(m + multiset{e}) && Below(m + multiset{e}, acceptance, queue)
    requires f == e.(queue := queue, deferrals := f.deferrals)
    ensures Numbered(m + multiset{f}) && Below(m + multiset{f}, acceptance, queue + 1)
    ensures Named(m + multiset{e}) <==> Named(m + multiset{f})
  {
    var before, after := m + multiset{e}, m + multiset{f};
    assert before[e] == m[e] + 1;
    forall g | g in m ensures g in before && g in after && m[g] == 1 && g.acceptance != f.acceptance && g.queue < queue && g != e {
      assert before[g] == m[g] + multiset{e}[g];
      assert g in before && e in before;
    }
    RequeueNames(m, e, f);
    forall g | g in after ensures after[g] == 1 {
      assert after[g] == m[g] + multiset{f}[g];
    }
  }

  lemma RequeueNames(m: multiset<Entry>, e: Entry, f: Entry)
    requires f.Id() == e.Id()
    requires forall g :: g in m ==> g != e && g != f
    ensures Named(m + multiset{e}) <==> Named(m + multiset{f})
  {
    var before, after := m + multiset{e}, m + multiset{f};
    assert forall g :: g in before <==> g in m || g == e;
    assert forall g :: g in after <==> g in m || g == f;
  }

  lemma OrderedPush(box: seq<Entry>, e: Entry, queue: nat)
    requires Ordered(box)
    requires forall f :: f in box ==> f.queue < e.queue
    ensures Ordered(box + [e])
  {
    forall i, j | 0 <= i < j < |box + [e]| ensures (box + [e])[i].queue < (box + [e])[j].queue {
      assert box[i] in box;
    }
  }

  // ------------------------------------------------------------------------------------------
  // Appending emissions
  // ------------------------------------------------------------------------------------------

  /** Entries below the counters, counting the entries `c` that already left. */
  ghost predicate Building(b: Build, c: multiset<Entry>) {
    && Mailboxes(b.aggregate)
    && Numbered(MailOf(b.aggregate.runtimes) + LifeMail(b.lifecycle) + c)
    && Below(MailOf(b.aggregate.runtimes) + LifeMail(b.lifecycle) + c, b.aggregate.nextAcceptance, b.aggregate.nextQueue)
  }

  /** Same runtimes in the same order with the same deferred mailboxes. */
  predicate SameShape(rs: seq<Runtime>, ss: seq<Runtime>) {
    |rs| == |ss| && forall i :: 0 <= i < |rs| ==>
      rs[i].id == ss[i].id && rs[i].status == ss[i].status && rs[i].deferred == ss[i].deferred && rs[i].body == ss[i].body
  }

  lemma MailboxesPush(a: Aggregate, i: nat, e: Entry)
    requires Mailboxes(a) && i < |a.runtimes|
    requires Addressed(a.root, a.runtimes[i].id, e)
    requires forall f :: f in MailOf(a.runtimes) ==> f.queue < e.queue
    ensures Mailboxes(a.(runtimes := Push(a.runtimes, i, e)))
    ensures SameShape(a.runtimes, Push(a.runtimes, i, e))
  {
    hide MailOf, BoxesOk, Addressed;
    var r := a.runtimes[i];
    assert BoxesOk(a.root, r);
    forall f | f in r.ready ensures f.queue < e.queue {
      assert f in Mail(r);
      MailMember(a.runtimes, f);
    }
    BoxPush(a.root, r, e);
  }

  lemma BoxPush(root: Text, r: Runtime, e: Entry)
    requires BoxesOk(root, r) && Addressed(root, r.id, e) && forall f :: f in r.ready ==> f.queue < e.queue
    ensures BoxesOk(root, r.(ready := r.ready + [e]))
  {
    hide Addressed;
    OrderedPush(r.ready, e, e.queue);
    ReadyMail(r.ready, r.deferred, e);
    assert Mail(r.(ready := r.ready + [e])) == Mail(r) + multiset{e};
  }

  /** `b'` is `b` with the new live entry `e`. */
  ghost predicate AddsLive(b: Build, b': Build, e: Entry, index: nat) {
    && b'.aggregate == Allocate(b.aggregate).(runtimes := b'.aggregate.runtimes)
    && SameShape(b.aggregate.runtimes, b'.aggregate.runtimes)
    && MailOf(b'.aggregate.runtimes) == MailOf(b.aggregate.runtimes) + multiset{e}
    && b'.lifecycle == b.lifecycle
    && b'.emitted == b.emitted + [ToMailbox(index, e.Id(), e.acceptance, e.queue)]
  }

  /** `b'` is `b` with the new disposal of `e`. */
  ghost predicate AddsDisposal(b: Build, b': Build, e: Entry, index: nat) {
    && b'.aggregate == Allocate(b.aggregate)
    && |b'.lifecycle| == |b.lifecycle| + 1
    && b'.lifecycle == b.lifecycle + [b'.lifecycle[|b.lifecycle|]]
    && b'.lifecycle[|b.lifecycle|].entry == e
    && b'.emitted == b.emitted + [ToDisposal(index, e.Id(), e.acceptance, |b.lifecycle|)]
  }

  /** The numbers and shape of an entry created now. */
  predicate Created(a: Aggregate, e: Entry) {
    e.mode.Internal? && e.acceptance == a.nextAcceptance && e.queue == a.nextQueue
  }

  lemma BuildingLive(b: Build, b': Build, e: Entry, index: nat, c: multiset<Entry>)
    requires Building(b, c) && AddsLive(b, b', e, index) && Created(b.aggregate, e)
    requires Mailboxes(b'.aggregate)
    ensures Building(b', c)
  {
    hide MailOf, LifeMail, Mailboxes, Numbered, Below;
    var mail, life := MailOf(b.aggregate.runtimes), LifeMail(b.lifecycle);
    Insert(mail + life + c, e, b.aggregate.nextAcceptance, b.aggregate.nextQueue);
    Rotate(mail, multiset{e}, life, c);
  }

  lemma BuildingDisposal(b: Build, b': Build, e: Entry, index: nat, c: multiset<Entry>)
    requires Building(b, c) && AddsDisposal(b, b', e, index) && Created(b.aggregate, e)
    ensures Building(b', c)
  {
    hide MailOf, Numbered, Below;
    var mail, life := MailOf(b.aggregate.runtimes), LifeMail(b.lifecycle);
    Insert(mail + life + c, e, b.aggregate.nextAcceptance, b.aggregate.nextQueue);
    var more := [b'.lifecycle[|b.lifecycle|]];
    LifeConcat(b.lifecycle, more);
    assert LifeMail(more) == multiset{e};
    Rotate'(mail, life, multiset{e}, c);
  }

  /** An emission to a runtime adds one created entry, live or disposed of. */
  lemma EmitSend(b: Build, m: Emission, c: multiset<Entry>)
    requires m.Send? && Building(b, c)
    ensures Created(b.aggregate, EmissionEntry(b.aggregate, m))
    ensures || AddsLive(b, Emit(b, m), EmissionEntry(b.aggregate, m), m.index)
            || AddsDisposal(b, Emit(b, m), EmissionEntry(b.aggregate, m), m.index)
    ensures Building(Emit(b, m), c)
  {
    hide MailOf, LifeMail, Numbered, Mailboxes, AddsLive, AddsDisposal;
    var a, b', e := b.aggregate, Emit(b, m), EmissionEntry(b.aggregate, m);
    if |b'.lifecycle| == |b.lifecycle| {
      forall f | f in MailOf(a.runtimes) ensures f.queue < e.queue {
        assert f in MailOf(a.runtimes) + LifeMail(b.lifecycle) + c;
      }
      EmitLive(b, m);
      BuildingLive(b, b', e, m.index, c);
    } else {
      EmitDisposal(b, m);
      BuildingDisposal(b, b', e, m.index, c);
    }
  }

  lemma EmitLive(b: Build, m: Emission)
    requires m.Send? && |Emit(b, m).lifecycle| == |b.lifecycle| && Mailboxes(b.aggregate)
    requires forall f :: f in MailOf(b.aggregate.runtimes) ==> f.queue < EmissionEntry(b.aggregate, m).queue
    ensures AddsLive(b, Emit(b, m), EmissionEntry(b.aggregate, m), m.index) && Mailboxes(Emit(b, m).aggregate)
  {
    hide MailOf, BoxesOk, SameShape;
    var a, e := b.aggregate, EmissionEntry(b.aggregate, m);
    var i := Find(a.runtimes, m.target);
    PushMail(a.runtimes, i, e);
    MailboxesPush(a, i, e);
  }

  lemma EmitDisposal(b: Build, m: Emission)
    requires m.Send? && |Emit(b, m).lifecycle| != |b.lifecycle|
    ensures AddsDisposal(b, Emit(b, m), EmissionEntry(b.aggregate, m), m.index)
  {
  }

  /** Entries and disposals that appeared since `b` are announced. */
  ghost predicate Explained(b: Build, b': Build) {
    && (forall t :: t in MailOf(b.aggregate.runtimes) ==> t in MailOf(b'.aggregate.runtimes))
    && (forall t :: t in MailOf(b'.aggregate.runtimes) ==> t in MailOf(b.aggregate.runtimes) || LiveExplained(b, b', t))
    && (forall l: nat :: |b.lifecycle| <= l < |b'.lifecycle| ==> DisposalExplained(b, b', l))
  }

  /** `t` is new and announced. */
  ghost predicate LiveExplained(b: Build, b': Build, t: Entry) {
    New(b.aggregate, t) && exists k :: 0 <= k < |b'.emitted| && AnnouncesLive(b'.emitted[k], t)
  }

  /** Disposal `l` is of a new entry and announced. */
  ghost predicate DisposalExplained(b: Build, b': Build, l: nat)
    requires l < |b'.lifecycle|
  {
    && New(b.aggregate, b'.lifecycle[l].entry)
    && exists k :: 0 <= k < |b'.emitted| && AnnouncesDisposal(b'.emitted[k], b'.lifecycle[l].entry, l)
  }

  ghost predicate Progressed(b: Build, b': Build) {
    var a, a' := b.aggregate, b'.aggregate;
    && a' == a.(nextAcceptance := a'.nextAcceptance, nextQueue := a'.nextQueue, runtimes := a'.runtimes)
    && a'.nextAcceptance >= a.nextAcceptance && a'.nextQueue >= a.nextQueue
    && SameShape(a.runtimes, a'.runtimes)
    && b.lifecycle <= b'.lifecycle
    && EmittedInOrder(b'.emitted)
    && (forall k :: 0 <= k < |b'.emitted| && !b'.emitted[k].ToOutbox? ==> b'.emitted[k].acceptance < a'.nextAcceptance)
  }

  /** What appending emissions to `b` has added when it reached `b'`. */
  ghost predicate Appended(b: Build, b': Build) {
    && Progressed(b, b')
    && Explained(b, b')
    && Announced(b.aggregate, b'.aggregate, b'.lifecycle, b'.emitted)
  }

  /** Earlier announcements stay in place. */
  lemma ExplainedMore(b: Build, b': Build, b'': Build, t: Entry)
    requires b'.emitted <= b''.emitted
    requires exists k :: 0 <= k < |b'.emitted| && AnnouncesLive(b'.emitted[k], t)
    ensures exists k :: 0 <= k < |b''.emitted| && AnnouncesLive(b''.emitted[k], t)
  {
    var k :| 0 <= k < |b'.emitted| && AnnouncesLive(b'.emitted[k], t);
    assert b''.emitted[k] == b'.emitted[k];
  }

  lemma DisposalMore(b': Build, b'': Build, l: nat)
    requires b'.emitted <= b''.emitted && b'.lifecycle <= b''.lifecycle && l < |b'.lifecycle|
    requires exists k :: 0 <= k < |b'.emitted| && AnnouncesDisposal(b'.emitted[k], b'.lifecycle[l].entry, l)
    ensures exists k :: 0 <= k < |b''.emitted| && AnnouncesDisposal(b''.emitted[k], b''.lifecycle[l].entry, l)
  {
    var k :| 0 <= k < |b'.emitted| && AnnouncesDisposal(b'.emitted[k], b'.lifecycle[l].entry, l);
    assert b''.emitted[k] == b'.emitted[k] && b''.lifecycle[l] == b'.lifecycle[l];
  }

  lemma ExplainedAt(b: Build, b': Build, l: nat)
    requires Explained(b, b') && |b.lifecycle| <= l < |b'.lifecycle|
    ensures New(b.aggregate, b'.lifecycle[l].entry)
    ensures exists k :: 0 <= k < |b'.emitted| && AnnouncesDisposal(b'.emitted[k], b'.lifecycle[l].entry, l)
  {
    hide MailOf, AnnouncesLive;
    assert DisposalExplained(b, b', l);
  }

  lemma ExplainedLive(b: Build, b': Build, b'': Build, e: Entry, index: nat)
    requires Explained(b, b') && Progressed(b, b') && AddsLive(b', b'', e, index) && Created(b'.aggregate, e)
    ensures Explained(b, b'')
  {
    hide MailOf, LiveExplained, DisposalExplained;
    assert b'.emitted <= b''.emitted && b'.lifecycle <= b''.lifecycle;
    forall t | t in MailOf(b''.aggregate.runtimes) && t !in MailOf(b.aggregate.runtimes) ensures LiveExplained(b, b'', t) {
      if t in MailOf(b'.aggregate.runtimes) {
        LiveExternal(b, b', b'', t);
      } else {
        NewLive(b, b', b'', e, index);
      }
    }
    forall l: nat | |b.lifecycle| <= l < |b''.lifecycle| ensures DisposalExplained(b, b'', l) {
      DisposalExternal(b, b', b'', l);
    }
  }

  lemma NewLive(b: Build, b': Build, b'': Build, e: Entry, index: nat)
    requires Progressed(b, b') && AddsLive(b', b'', e, index) && Created(b'.aggregate, e)
    ensures LiveExplained(b, b'', e)
  {
    hide MailOf;
    assert AnnouncesLive(b''.emitted[|b'.emitted|], e);
  }

  lemma ExplainedDisposal(b: Build, b': Build, b'': Build, e: Entry, index: nat)
    requires Explained(b, b') && Progressed(b, b') && AddsDisposal(b', b'', e, index) && Created(b'.aggregate, e)
    ensures Explained(b, b'')
  {
    hide MailOf, LiveExplained, DisposalExplained;
    assert b'.emitted <= b''.emitted && b'.lifecycle <= b''.lifecycle;
    forall t | t in MailOf(b''.aggregate.runtimes) && t !in MailOf(b.aggregate.runtimes) ensures LiveExplained(b, b'', t) {
      LiveExternal(b, b', b'', t);
    }
    forall l: nat | |b.lifecycle| <= l < |b''.lifecycle| ensures DisposalExplained(b, b'', l) {
      if l < |b'.lifecycle| {
        DisposalExternal(b, b', b'', l);
      } else {
        NewDisposal(b, b', b'', e, index);
      }
    }
  }

  lemma NewDisposal(b: Build, b': Build, b'': Build, e: Entry, index: nat)
    requires Progressed(b, b') && AddsDisposal(b', b'', e, index) && Created(b'.aggregate, e)
    ensures |b'.lifecycle| < |b''.lifecycle| && DisposalExplained(b, b'', |b'.lifecycle|)
  {
    hide MailOf;
    assert AnnouncesDisposal(b''.emitted[|b'.emitted|], e, |b'.lifecycle|);
  }

  /** Announcements keep their entries when entries are only added. */
  lemma AnnouncedMore(a: Aggregate, b': Build, b'': Build, k: nat)
    requires Announced(a, b'.aggregate, b'.lifecycle, b'.emitted) && k < |b'.emitted|
    requires b'.emitted <= b''.emitted && b'.lifecycle <= b''.lifecycle
    requires forall t :: t in MailOf(b'.aggregate.runtimes) ==> t in MailOf(b''.aggregate.runtimes)
    ensures b''.emitted[k].ToMailbox? ==>
              exists t :: t in MailOf(b''.aggregate.runtimes) && New(a, t) && AnnouncesLive(b''.emitted[k], t)
    ensures b''.emitted[k].ToDisposal? ==>
              var l := b''.emitted[k].lifecycle;
              l < |b''.lifecycle| && New(a, b''.lifecycle[l].entry) && AnnouncesDisposal(b''.emitted[k], b''.lifecycle[l].entry, l)
  {
    hide MailOf;
    assert b''.emitted[k] == b'.emitted[k];
    if b'.emitted[k].ToMailbox? {
      var t :| t in MailOf(b'.aggregate.runtimes) && New(a, t) && AnnouncesLive(b'.emitted[k], t);
      assert t in MailOf(b''.aggregate.runtimes);
    } else if b'.emitted[k].ToDisposal? {
      assert b''.lifecycle[b'.emitted[k].lifecycle] == b'.lifecycle[b'.emitted[k].lifecycle];
    }
  }

  lemma AnnouncedLive(b: Build, b': Build, b'': Build, e: Entry, index: nat)
    requires Appended(b, b') && AddsLive(b', b'', e, index) && Created(b'.aggregate, e)
    ensures Announced(b.aggregate, b''.aggregate, b''.lifecycle, b''.emitted)
  {
    hide MailOf, Explained;
    var last := |b'.emitted|;
    assert b'.emitted <= b''.emitted;
    assert e in MailOf(b''.aggregate.runtimes) && New(b.aggregate, e) && AnnouncesLive(b''.emitted[last], e);
    forall k: nat | k < last {
      AnnouncedMore(b.aggregate, b', b'', k);
    }
  }

  lemma AnnouncedDisposal(b: Build, b': Build, b'': Build, e: Entry, index: nat)
    requires Appended(b, b') && AddsDisposal(b', b'', e, index) && Created(b'.aggregate, e)
    ensures Announced(b.aggregate, b''.aggregate, b''.lifecycle, b''.emitted)
  {
    hide MailOf, Explained;
    var last := |b'.emitted|;
    assert b'.emitted <= b''.emitted;
    assert New(b.aggregate, e) && AnnouncesDisposal(b''.emitted[last], e, |b'.lifecycle|);
    forall k: nat | k < last {
      AnnouncedMore(b.aggregate, b', b'', k);
    }
  }

  lemma AppendedSend(b: Build, b': Build, m: Emission, c: multiset<Entry>)
    requires m.Send? && Building(b', c) && Appended(b, b')
    ensures Appended(b, Emit(b', m)) && Building(Emit(b', m), c)
  {
    hide MailOf, Explained, Announced, Building, Emit, EmissionEntry;
    var b'', e := Emit(b', m), EmissionEntry(b'.aggregate, m);
    EmitSend(b', m, c);
    if AddsLive(b', b'', e, m.index) {
      ExplainedLive(b, b', b'', e, m.index);
      AnnouncedLive(b, b', b'', e, m.index);
    } else {
      ExplainedDisposal(b, b', b'', e, m.index);
      AnnouncedDisposal(b, b', b'', e, m.index);
    }
  }

  lemma AppendedExternal(b: Build, b': Build, m: Emission)
    requires m.External? && Appended(b, b')
    ensures Appended(b, Emit(b', m))
  {
    hide MailOf, Explained, Announced;
    var b'' := Emit(b', m);
    assert b'.emitted <= b''.emitted;
    ExplainedExternal(b, b', b'');
    AnnouncedExternal(b.aggregate, b', b'');
  }

  lemma LiveExternal(b: Build, b': Build, b'': Build, t: Entry)
    requires LiveExplained(b, b', t) && b'.emitted <= b''.emitted
    ensures LiveExplained(b, b'', t)
  {
    ExplainedMore(b, b', b'', t);
  }

  lemma DisposalExternal(b: Build, b': Build, b'': Build, l: nat)
    requires l < |b'.lifecycle| && DisposalExplained(b, b', l) && b'.lifecycle <= b''.lifecycle && b'.emitted <= b''.emitted
    ensures DisposalExplained(b, b'', l)
  {
    DisposalMore(b', b'', l);
  }

  lemma ExplainedExternal(b: Build, b': Build, b'': Build)
    requires Explained(b, b') && b''.aggregate == b'.aggregate && b''.lifecycle == b'.lifecycle && b'.emitted <= b''.emitted
    ensures Explained(b, b'')
  {
    hide MailOf, LiveExplained, DisposalExplained;
    forall t | t in MailOf(b''.aggregate.runtimes) && t !in MailOf(b.aggregate.runtimes) ensures LiveExplained(b, b'', t) {
      LiveExternal(b, b', b'', t);
    }
    forall l: nat | |b.lifecycle| <= l < |b''.lifecycle| ensures DisposalExplained(b, b'', l) {
      DisposalExternal(b, b', b'', l);
    }
  }

  lemma AnnouncedExternal(a: Aggregate, b': Build, b'': Build)
    requires Announced(a, b'.aggregate, b'.lifecycle, b'.emitted)
    requires b''.aggregate == b'.aggregate && b''.lifecycle == b'.lifecycle && b'.emitted <= b''.emitted
    requires |b''.emitted| == |b'.emitted| + 1 && b''.emitted[|b'.emitted|].ToOutbox?
    ensures Announced(a, b''.aggregate, b''.lifecycle, b''.emitted)
  {
    hide MailOf, New;
    forall k: nat | k < |b''.emitted|
      ensures b''.emitted[k].ToMailbox? ==>
                exists t :: t in MailOf(b''.aggregate.runtimes) && New(a, t) && AnnouncesLive(b''.emitted[k], t)
      ensures b''.emitted[k].ToDisposal? ==>
                var l := b''.emitted[k].lifecycle;
                l < |b''.lifecycle| && New(a, b''.lifecycle[l].entry) && AnnouncesDisposal(b''.emitted[k], b''.lifecycle[l].entry, l)
    {
      if k < |b'.emitted| {
        AnnouncedMore(a, b', b'', k);
      }
    }
  }

  /** The k-th announcement is about the k-th emission. */
  predicate Reports(m: Emission, r: Emitted) {
    match m
    case External(_, intent) => r.ToOutbox? && r.intent == intent
    case Send(_, eventId, _, _, _, _, _, _) => !r.ToOutbox? && r.eventId == eventId
  }

  lemma EmitReports(b: Build, m: Emission)
    ensures |Emit(b, m).emitted| == |b.emitted| + 1
    ensures b.emitted <= Emit(b, m).emitted
    ensures Reports(m, Emit(b, m).emitted[|b.emitted|])
  {
  }

  /** Appending emissions adds exactly the announced entries and reuses no number. */
  lemma {:induction false} EmitAllAppends(b: Build, ms: seq<Emission>, c: multiset<Entry>)
    requires Building(b, c) && b.emitted == []
    ensures Building(EmitAll(b, ms), c) && Appended(b, EmitAll(b, ms))
    ensures |EmitAll(b, ms).emitted| == |ms|
    ensures forall k :: 0 <= k < |ms| ==> Reports(ms[k], EmitAll(b, ms).emitted[k])
  {
    hide Building, Emit, MailOf, Reports;
    if ms != [] {
      hide Appended;
      var last := |ms| - 1;
      var b', m := EmitAll(b, ms[..last]), ms[last];
      EmitAllAppends(b, ms[..last], c);
      EmitReports(b', m);
      if m.Send? {
        AppendedSend(b, b', m, c);
      } else {
        AppendedExternal(b, b', m);
        BuildingExternal(b', m, c);
      }
    }
  }

  lemma BuildingExternal(b: Build, m: Emission, c: multiset<Entry>)
    requires m.External? && Building(b, c)
    ensures Building(Emit(b, m), c)
  {
  }
}
