/**
 Two things that the core does not control, and when they go well: the event ids that the
 dispatcher gives to emissions, and the runtimes that it removes.
 */
module StepIdentity {
  import opened Wrappers
  import opened CheckpointModel
  import opened CheckpointValidity
  import opened WireCore
  import opened WireCoreProofs
  import opened StepContract
  import opened StepProofs
  import opened RecallProofs
  import opened StepTheorem
  import opened Multisets

  // ------------------------------------------------------------------------------------------
  // Event ids
  // ------------------------------------------------------------------------------------------

  ghost predicate HasId(m: multiset<Entry>, id: Text) {
    exists e :: e in m && e.Id() == id
  }

  /** The sends carry pairwise different ids that none of `m` carries. */
  ghost predicate FreshIds(m: multiset<Entry>, ms: seq<Emission>) {
    && (forall k :: 0 <= k < |ms| && ms[k].Send? ==> !HasId(m, ms[k].eventId))
    && (forall k, l :: 0 <= k < l < |ms| && ms[k].Send? && ms[l].Send? ==> ms[k].eventId != ms[l].eventId)
  }

  ghost predicate SendsId(ms: seq<Emission>, id: Text) {
    exists k :: 0 <= k < |ms| && ms[k].Send? && ms[k].eventId == id
  }

  lemma NamedInsert(m: multiset<Entry>, e: Entry)
    requires e !in m
    ensures Named(m + multiset{e}) <==> Named(m) && !HasId(m, e.Id())
    ensures forall id :: HasId(m + multiset{e}, id) <==> HasId(m, id) || id == e.Id()
  {
    var n := m + multiset{e};
    assert forall f :: f in n <==> f in m || f == e;
    if HasId(m, e.Id()) {
      var f :| f in m && f.Id() == e.Id();
      assert f in n && e in n && f != e;
    }
    assert e in n && HasId(n, e.Id());
    forall id | HasId(m, id) ensures HasId(n, id) {
      var f :| f in m && f.Id() == id;
      assert f in n;
    }
  }

  lemma FreshLast(m: multiset<Entry>, ms: seq<Emission>)
    requires ms != []
    ensures var init, last := ms[..|ms| - 1], ms[|ms| - 1];
            && (last.External? ==> (FreshIds(m, ms) <==> FreshIds(m, init)))
            && (last.Send? ==>
                  (FreshIds(m, ms) <==> FreshIds(m, init) && !HasId(m, last.eventId) && !SendsId(init, last.eventId)))
            && (forall id :: SendsId(ms, id) <==> SendsId(init, id) || (last.Send? && last.eventId == id))
  {
    var init, last := ms[..|ms| - 1], ms[|ms| - 1];
    forall id ensures SendsId(ms, id) <==> SendsId(init, id) || (last.Send? && last.eventId == id) {
      if SendsId(ms, id) {
        var k :| 0 <= k < |ms| && ms[k].Send? && ms[k].eventId == id;
        assert k < |init| ==> init[k] == ms[k];
      }
      if SendsId(init, id) {
        var k :| 0 <= k < |init| && init[k].Send? && init[k].eventId == id;
        assert ms[k] == init[k];
      }
    }
    assert forall k :: 0 <= k < |init| ==> init[k] == ms[k];
    if last.Send? && FreshIds(m, ms) {
      assert forall k :: 0 <= k < |init| && init[k].Send? ==> ms[k].eventId != last.eventId;
    }
  }

  /** Entries after appending emissions, with the entries `c` that already left. */
  function Total(b: Build, c: multiset<Entry>): multiset<Entry> {
    MailOf(b.aggregate.runtimes) + LifeMail(b.lifecycle) + c
  }

  lemma EmitTotal(b: Build, m: Emission, c: multiset<Entry>)
    requires m.Send? && Building(b, c)
    ensures var e := EmissionEntry(b.aggregate, m);
            Total(Emit(b, m), c) == Total(b, c) + multiset{e} && e !in Total(b, c) && e.Id() == m.eventId
  {
    hide MailOf, LifeMail, Emit, Mailboxes;
    var b', e := Emit(b, m), EmissionEntry(b.aggregate, m);
    EmitSend(b, m, c);
    if AddsLive(b, b', e, m.index) {
      Rotate(MailOf(b.aggregate.runtimes), multiset{e}, LifeMail(b.lifecycle), c);
    } else {
      var more := [b'.lifecycle[|b.lifecycle|]];
      LifeConcat(b.lifecycle, more);
      LifeOne(more[0]);
      Rotate'(MailOf(b.aggregate.runtimes), LifeMail(b.lifecycle), multiset{e}, c);
    }
  }

  lemma LifeOne(l: Lifecycle)
    ensures LifeMail([l]) == multiset{l.entry}
  {
  }

  /** Names stay distinct exactly when the dispatcher's ids are fresh. */
  lemma {:induction false} EmitAllNames(b: Build, ms: seq<Emission>, c: multiset<Entry>)
    requires Building(b, c) && b.emitted == []
    ensures Named(Total(EmitAll(b, ms), c)) <==> Named(Total(b, c)) && FreshIds(Total(b, c), ms)
    ensures forall id :: HasId(Total(EmitAll(b, ms), c), id) <==> HasId(Total(b, c), id) || SendsId(ms, id)
  {
    hide Building, Emit, Named, HasId, FreshIds, SendsId, Total;
    if ms == [] {
      FreshNone(Total(b, c));
    } else {
      var init, last := ms[..|ms| - 1], ms[|ms| - 1];
      EmitAllNames(b, init, c);
      EmitAllAppends(b, init, c);
      FreshLast(Total(b, c), ms);
      if last.Send? {
        EmitTotal(EmitAll(b, init), last, c);
        NamedInsert(Total(EmitAll(b, init), c), EmissionEntry(EmitAll(b, init).aggregate, last));
      } else {
        EmitExternalTotal(EmitAll(b, init), last, c);
      }
    }
  }

  lemma EmitExternalTotal(b: Build, m: Emission, c: multiset<Entry>)
    requires m.External?
    ensures Total(Emit(b, m), c) == Total(b, c)
  {
  }

  lemma FreshNone(m: multiset<Entry>)
    ensures FreshIds(m, []) && forall id :: !SendsId([], id)
  {
  }

  /**
   After a dispatched step no event id occurs twice among live, disposed and consumed entries,
   if and only if the dispatcher gave its sends fresh ids.
   */
  lemma StepNamesIff(a: Aggregate, i: nat, n: Native)
    requires Ready(a) && Runnable(a, i) && DispatcherOk(a, n)
    ensures var r := Finish(a, i, n);
            && r.Committed?
            && (Named(Tally(r.state, r.lifecycle, a.runtimes[i].ready[0])) <==> FreshIds(MailOf(a.runtimes), n.emissions))
            && (forall id :: HasId(Tally(r.state, r.lifecycle, a.runtimes[i].ready[0]), id) <==>
                  HasId(MailOf(a.runtimes), id) || SendsId(n.emissions, id))
  {
    hide MailOf, LifeMail, Carried, EmitAll, Finish, Named, Ready, Building, HasId, FreshIds, SendsId, Sound;
    hide Appended, CarriedOver, Requeues, Reports;
    var b, causal := Carried(a, i, n), a.runtimes[i].ready[0];
    var built, r := EmitAll(b, n.emissions), Finish(a, i, n);
    FinishStages(a, i, n);
    CarriedBuilds(a, i, n);
    CarriedFacts(a, causal, b);
    CarriedTotal(a, i, n);
    EmitAllNames(b, n.emissions, multiset{causal});
    ReadyDistinct(a);
    Associate(MailOf(built.aggregate.runtimes), LifeMail(built.lifecycle), multiset{causal});
    Associate(MailOf(r.state.runtimes), LifeMail(r.lifecycle), multiset{causal});
    RequeuesIds(built.aggregate, r.state, LifeMail(r.lifecycle) + multiset{causal});
  }

  lemma CarriedTotal(a: Aggregate, i: nat, n: Native)
    requires Ready(a) && Runnable(a, i) && DispatcherOk(a, n)
    ensures Total(Carried(a, i, n), multiset{a.runtimes[i].ready[0]}) == MailOf(a.runtimes)
  {
    hide MailOf, LifeMail, Merge, Empty, DisposeRemoved, Carried, RemoveHead, Ready;
    CarriedEq(a, i, n);
    CarriedSum(a, i, n);
    RemoveHeadMail(a.runtimes, i);
  }

  lemma RequeuesIds(a: Aggregate, b: Aggregate, c: multiset<Entry>)
    requires Requeues(a, b, a.nextQueue)
    ensures forall id :: HasId(MailOf(a.runtimes) + c, id) <==> HasId(MailOf(b.runtimes) + c, id)
  {
    hide MailOf, IsDeferred;
    var m, n := MailOf(a.runtimes), MailOf(b.runtimes);
    forall id ensures HasId(m + c, id) <==> HasId(n + c, id) {
      if HasId(m + c, id) {
        var x :| x in m + c && x.Id() == id;
        if x in n + c {
        } else {
          var t :| t in n && Requeued(x, t, a.nextQueue);
          assert t in n + c && t.Id() == id;
        }
      }
      if HasId(n + c, id) {
        var t :| t in n + c && t.Id() == id;
        if t in m + c {
        } else {
          var x :| IsDeferred(a.runtimes, x) && Requeued(x, t, a.nextQueue);
          DeferredMail(a.runtimes, x);
          assert x in m + c && x.Id() == id;
        }
      }
    }
  }

  lemma DeferredMail(rs: seq<Runtime>, x: Entry)
    requires IsDeferred(rs, x)
    ensures x in MailOf(rs)
  {
    var i :| 0 <= i < |rs| && x in rs[i].deferred;
    assert x in Mail(rs[i]);
    MailMember(rs, x);
  }

  // ------------------------------------------------------------------------------------------
  // Sources
  // ------------------------------------------------------------------------------------------

  function SendEnvelope(root: Text, m: Emission): Envelope
    requires m.Send?
  {
    var source := if m.system.Some? then SystemSource(m.system.value) else RuntimeSource(Target(root, m.emitter));
    Envelope(m.event, m.eventId, m.causeId, source, Target(root, m.target), m.content)
  }

  /** The runtimes accept a send to `target`. */
  predicate Deliverable(rs: seq<Runtime>, rootRuntime: Text, target: Text) {
    && Find(rs, target) < |rs|
    && !rs[Find(rs, target)].status.Completed?
    && StatusOf(rs, rootRuntime) != Some(Completed)
  }

  /** `t` is the entry of send `m`. */
  predicate SentAs(root: Text, m: Emission, t: Entry) {
    m.Send? && t.mode.Internal? && t.envelope == SendEnvelope(root, m)
  }

  /** The entries that appeared are those of the deliverable sends. */
  ghost predicate Delivered(b: Build, b': Build, ms: seq<Emission>) {
    && (forall t :: t in MailOf(b'.aggregate.runtimes) ==>
          || t in MailOf(b.aggregate.runtimes)
          || exists k :: 0 <= k < |ms| && SentAs(b.aggregate.root, ms[k], t)
                      && Deliverable(b.aggregate.runtimes, b.aggregate.rootRuntime, ms[k].target))
    && (forall k :: 0 <= k < |ms| && ms[k].Send? && Deliverable(b.aggregate.runtimes, b.aggregate.rootRuntime, ms[k].target) ==>
          exists t :: t in MailOf(b'.aggregate.runtimes) && SentAs(b.aggregate.root, ms[k], t))
  }

  lemma SameDeliverable(rs: seq<Runtime>, ss: seq<Runtime>, rootRuntime: Text, target: Text)
    requires SameShape(rs, ss)
    ensures Deliverable(rs, rootRuntime, target) <==> Deliverable(ss, rootRuntime, target)
  {
    SameFind(rs, ss, target);
    SameFind(rs, ss, rootRuntime);
  }

  lemma EmitDelivers(b: Build, m: Emission)
    requires m.Send?
    ensures var a, e := b.aggregate, EmissionEntry(b.aggregate, m);
            && SentAs(a.root, m, e)
            && (Deliverable(a.runtimes, a.rootRuntime, m.target) ==>
                  MailOf(Emit(b, m).aggregate.runtimes) == MailOf(a.runtimes) + multiset{e})
            && (!Deliverable(a.runtimes, a.rootRuntime, m.target) ==> Emit(b, m).aggregate.runtimes == a.runtimes)
  {
    var a, e := b.aggregate, EmissionEntry(b.aggregate, m);
    if Deliverable(a.runtimes, a.rootRuntime, m.target) {
      PushMail(a.runtimes, Find(a.runtimes, m.target), e);
    }
  }

  lemma DeliveredSend(b: Build, b': Build, ms: seq<Emission>)
    requires ms != [] && ms[|ms| - 1].Send?
    requires Delivered(b, b', ms[..|ms| - 1]) && SameShape(b.aggregate.runtimes, b'.aggregate.runtimes)
    requires b'.aggregate.root == b.aggregate.root && b'.aggregate.rootRuntime == b.aggregate.rootRuntime
    ensures Delivered(b, Emit(b', ms[|ms| - 1]), ms)
  {
    hide MailOf, Emit, EmissionEntry, Deliverable, SendEnvelope;
    var init, m := ms[..|ms| - 1], ms[|ms| - 1];
    var b'', e := Emit(b', m), EmissionEntry(b'.aggregate, m);
    var a := b.aggregate;
    EmitDelivers(b', m);
    SameDeliverable(a.runtimes, b'.aggregate.runtimes, a.rootRuntime, m.target);
    forall t | t in MailOf(b''.aggregate.runtimes) && t !in MailOf(a.runtimes)
      ensures exists k :: 0 <= k < |ms| && SentAs(a.root, ms[k], t) && Deliverable(a.runtimes, a.rootRuntime, ms[k].target)
    {
      if t in MailOf(b'.aggregate.runtimes) {
        var k :| 0 <= k < |init| && SentAs(a.root, init[k], t) && Deliverable(a.runtimes, a.rootRuntime, init[k].target);
        assert ms[k] == init[k];
      } else {
        assert t == e && SentAs(a.root, ms[|ms| - 1], t);
      }
    }
    forall k | 0 <= k < |ms| && ms[k].Send? && Deliverable(a.runtimes, a.rootRuntime, ms[k].target)
      ensures exists t :: t in MailOf(b''.aggregate.runtimes) && SentAs(a.root, ms[k], t)
    {
      if k < |init| {
        assert init[k] == ms[k];
        var t :| t in MailOf(b'.aggregate.runtimes) && SentAs(a.root, init[k], t);
        assert t in MailOf(b''.aggregate.runtimes);
      } else {
        assert e in MailOf(b''.aggregate.runtimes);
      }
    }
  }

  lemma DeliveredExternal(b: Build, b': Build, ms: seq<Emission>)
    requires ms != [] && ms[|ms| - 1].External? && Delivered(b, b', ms[..|ms| - 1])
    ensures Delivered(b, Emit(b', ms[|ms| - 1]), ms)
  {
    hide MailOf, Deliverable, SendEnvelope;
    var init := ms[..|ms| - 1];
    var a, b'' := b.aggregate, Emit(b', ms[|ms| - 1]);
    forall t | t in MailOf(b''.aggregate.runtimes) && t !in MailOf(a.runtimes)
      ensures exists k :: 0 <= k < |ms| && SentAs(a.root, ms[k], t) && Deliverable(a.runtimes, a.rootRuntime, ms[k].target)
    {
      var k :| 0 <= k < |init| && SentAs(a.root, init[k], t) && Deliverable(a.runtimes, a.rootRuntime, init[k].target);
      assert ms[k] == init[k];
    }
    assert forall k :: 0 <= k < |init| ==> init[k] == ms[k];
  }

  lemma {:induction false} EmitAllDelivers(b: Build, ms: seq<Emission>, c: multiset<Entry>)
    requires Building(b, c) && b.emitted == []
    ensures Delivered(b, EmitAll(b, ms), ms)
  {
    hide Building, Emit, MailOf, Delivered;
    if ms == [] {
      DeliveredNone(b);
    } else {
      var init := ms[..|ms| - 1];
      EmitAllDelivers(b, init, c);
      EmitAllAppends(b, init, c);
      if ms[|ms| - 1].Send? {
        DeliveredSend(b, EmitAll(b, init), ms);
      } else {
        DeliveredExternal(b, EmitAll(b, init), ms);
      }
    }
  }

  lemma DeliveredNone(b: Build)
    ensures Delivered(b, b, [])
  {
  }
}
