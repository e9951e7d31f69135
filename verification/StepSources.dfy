/** Which steps leave every live entry with a source that validation accepts. */
module StepSources {
  import opened Wrappers
  import opened CheckpointModel
  import opened CheckpointValidity
  import opened WireCore
  import opened WireCoreProofs
  import opened StepContract
  import opened StepProofs
  import opened RecallProofs
  import opened StepTheorem
  import opened StepIdentity

  predicate NativeCompleted(ns: seq<NativeRuntime>, id: Text) {
    exists p :: 0 <= p < |ns| && ns[p].id == id && ns[p].status.Completed?
  }

  /** The dispatcher kept a runtime `id` that has not completed. */
  predicate NativeActive(ns: seq<NativeRuntime>, id: Text) {
    exists p :: 0 <= p < |ns| && ns[p].id == id && !ns[p].status.Completed?
  }

  /** A send names a kept emitter, or a system locator that fits its event, and another event as its cause. */
  predicate WellSourced(ns: seq<NativeRuntime>, m: Emission)
    requires m.Send?
  {
    && m.causeId != m.eventId
    && (if m.system.Some? then LocatorMatches(m.system.value, m.event) else IsNative(ns, m.emitter))
  }

  /** No kept entry loses its emitter, and every delivered send has one. */
  ghost predicate SourcesSurvive(a: Aggregate, causal: Entry, n: Native) {
    NativeCompleted(n.runtimes, a.rootRuntime) ||
    (&& (forall e :: Stayer(a, causal, n, e) && e.envelope.source.RuntimeSource? ==>
           IsNative(n.runtimes, e.envelope.source.origin.runtime))
     && (forall k :: 0 <= k < |n.emissions| && LiveSend(n, n.emissions[k]) ==> WellSourced(n.runtimes, n.emissions[k])))
  }

  /** An entry whose runtime the dispatcher kept. */
  ghost predicate Stayer(a: Aggregate, causal: Entry, n: Native, e: Entry) {
    e in MailOf(a.runtimes) && e != causal && IsNative(n.runtimes, e.envelope.target.runtime)
  }

  /** A send to a runtime that can still receive. */
  predicate LiveSend(n: Native, m: Emission) {
    m.Send? && NativeActive(n.runtimes, m.target)
  }

  /** The same event delivered in the same mode. */
  predicate Alike(e: Entry, t: Entry) {
    t.envelope == e.envelope && t.mode == e.mode
  }

  /** The carried runtimes are the dispatcher's, in its order. */
  predicate Mirrors(rs: seq<Runtime>, ns: seq<NativeRuntime>) {
    |rs| == |ns| && forall p :: 0 <= p < |rs| ==> rs[p].id == ns[p].id && rs[p].status == ns[p].status
  }

  lemma MirrorsStatus(rs: seq<Runtime>, ns: seq<NativeRuntime>, id: Text)
    requires Mirrors(rs, ns) && DistinctNatives(ns)
    ensures IsRuntime(rs, id) <==> IsNative(ns, id)
    ensures StatusOf(rs, id) == Some(Completed) <==> NativeCompleted(ns, id)
    ensures (Find(rs, id) < |rs| && !rs[Find(rs, id)].status.Completed?) <==> NativeActive(ns, id)
  {
    hide Find;
    var i := Find(rs, id);
    if IsRuntime(rs, id) {
      assert i < |rs|;
      assert ns[i].id == id;
    }
    if IsNative(ns, id) {
      var p :| 0 <= p < |ns| && ns[p].id == id;
      assert rs[p].id == id;
      assert IsRuntime(rs, id);
    }
  }

  lemma MergeMirrors(next: seq<Runtime>, ns: seq<NativeRuntime>)
    ensures Mirrors(Merge(next, ns), ns)
  {
    MergeAt(next, ns);
  }

  lemma CarriedMirrors(a: Aggregate, i: nat, n: Native)
    requires Runnable(a, i)
    ensures Mirrors(Carried(a, i, n).aggregate.runtimes, n.runtimes)
  {
    hide Merge, Empty, Carried, DisposeRemoved, StatusOf;
    var merged := Merge(RemoveHead(a.runtimes, i), n.runtimes);
    MergeMirrors(RemoveHead(a.runtimes, i), n.runtimes);
    EmptyMail(merged);
    CarriedEq(a, i, n);
  }

  lemma MergedMember(root: Text, next: seq<Runtime>, ns: seq<NativeRuntime>, e: Entry)
    requires DistinctRuntimes(next) && DistinctNatives(ns)
    requires forall j :: 0 <= j < |next| ==> BoxesOk(root, next[j])
    ensures e in MailOf(Merge(next, ns)) <==> e in MailOf(next) && IsNative(ns, e.envelope.target.runtime)
  {
    hide MailOf, Merge, Ordered;
    var merged := Merge(next, ns);
    MergedBoxes(root, next, ns);
    MergeAt(next, ns);
    MailMember(merged, e);
    MailMember(next, e);
    if e in MailOf(merged) {
      var p :| 0 <= p < |merged| && e in Mail(merged[p]);
      assert merged[p] == Carry(next, ns[p]);
      var j := Find(next, ns[p].id);
      assert e in Mail(next[j]);
      assert Addressed(root, merged[p].id, e);
      assert ns[p].id == e.envelope.target.runtime;
    }
    if e in MailOf(next) && IsNative(ns, e.envelope.target.runtime) {
      var j :| 0 <= j < |next| && e in Mail(next[j]);
      var p :| 0 <= p < |ns| && ns[p].id == e.envelope.target.runtime;
      assert Addressed(root, next[j].id, e);
      assert merged[p].id == next[j].id;
      assert e in Mail(merged[p]);
    }
  }

  /** Exactly the entries of kept runtimes are carried over. */
  lemma CarriedMember(a: Aggregate, i: nat, n: Native, e: Entry)
    requires Ready(a) && Runnable(a, i) && DispatcherOk(a, n)
    ensures e in MailOf(Carried(a, i, n).aggregate.runtimes) <==>
              && !NativeCompleted(n.runtimes, a.rootRuntime)
              && e in MailOf(a.runtimes) && e != a.runtimes[i].ready[0]
              && IsNative(n.runtimes, e.envelope.target.runtime)
  {
    hide MailOf, Merge, Empty, DisposeRemoved, Carried, Ready, StatusOf, RemoveHead, BoxesOk;
    var next := RemoveHead(a.runtimes, i);
    var merged := Merge(next, n.runtimes);
    CarriedEq(a, i, n);
    RemovedBoxes(a, i);
    RemovedLength(a, i);
    EmptyMail(merged);
    MergeMirrors(next, n.runtimes);
    MirrorsStatus(merged, n.runtimes, a.rootRuntime);
    MergedMember(a.root, next, n.runtimes, e);
    RemoveHeadMail(a.runtimes, i);
    ReadyDistinct(a);
    RemovedMember(MailOf(a.runtimes), MailOf(next), a.runtimes[i].ready[0], e);
  }

  lemma RemovedLength(a: Aggregate, i: nat)
    requires Runnable(a, i)
    ensures |RemoveHead(a.runtimes, i)| == |a.runtimes|
  {
  }

  lemma RemovedMember(m: multiset<Entry>, next: multiset<Entry>, causal: Entry, e: Entry)
    requires next + multiset{causal} == m && Numbered(m)
    ensures e in next <==> e in m && e != causal
  {
    assert m[causal] == next[causal] + 1;
    assert causal in m;
    assert m[e] == next[e] + multiset{causal}[e];
  }

  // ------------------------------------------------------------------------------------------
  // Sources before and after
  // ------------------------------------------------------------------------------------------

  lemma SourceByName(root: Text, rs: seq<Runtime>, ns: seq<NativeRuntime>, e: Entry)
    requires |rs| == |ns| && forall p :: 0 <= p < |rs| ==> rs[p].id == ns[p].id
    ensures e.mode.Internal? && e.envelope.source.RuntimeSource? ==>
              (SourceOk(root, rs, e) <==>
                 (&& e.envelope.causeId != e.Id()
                  && e.envelope.source.origin.root == root
                  && IsNative(ns, e.envelope.source.origin.runtime)))
  {
    if e.mode.Internal? && e.envelope.source.RuntimeSource? {
      var origin := e.envelope.source.origin;
      if IsNative(ns, origin.runtime) {
        var p :| 0 <= p < |ns| && ns[p].id == origin.runtime;
        assert rs[p].id == origin.runtime;
      }
      if i :| 0 <= i < |rs| && origin == Target(root, rs[i].id) {
        assert ns[i].id == origin.runtime;
      }
    }
  }

  /** A kept entry keeps its standing exactly when its emitter is kept. */
  lemma KeptSource(root: Text, before: seq<Runtime>, after: seq<Runtime>, ns: seq<NativeRuntime>, e: Entry, t: Entry)
    requires SourceOk(root, before, e) && Alike(e, t)
    requires |after| == |ns| && forall p :: 0 <= p < |after| ==> after[p].id == ns[p].id
    ensures SourceOk(root, after, t) <==>
              (e.envelope.source.RuntimeSource? ==> IsNative(ns, e.envelope.source.origin.runtime))
  {
    SourceByName(root, after, ns, t);
  }

  lemma SendSource(root: Text, after: seq<Runtime>, ns: seq<NativeRuntime>, m: Emission, t: Entry)
    requires SentAs(root, m, t)
    requires |after| == |ns| && forall p :: 0 <= p < |after| ==> after[p].id == ns[p].id
    ensures SourceOk(root, after, t) <==> WellSourced(ns, m)
  {
    SourceByName(root, after, ns, t);
  }

  ghost predicate FromStayer(a: Aggregate, causal: Entry, n: Native, t: Entry) {
    exists e :: Stayer(a, causal, n, e) && Alike(e, t)
  }

  ghost predicate FromSend(a: Aggregate, n: Native, t: Entry) {
    exists k :: 0 <= k < |n.emissions| && LiveSend(n, n.emissions[k]) && SentAs(a.root, n.emissions[k], t)
  }

  ghost predicate Present(state: Aggregate, e: Entry) {
    exists t :: t in MailOf(state.runtimes) && Alike(e, t)
  }

  ghost predicate PresentSend(state: Aggregate, root: Text, m: Emission) {
    exists t :: t in MailOf(state.runtimes) && SentAs(root, m, t)
  }

  /** What a dispatched step makes of the live entries, in the dispatcher's terms. */
  ghost predicate Arrives(a: Aggregate, causal: Entry, n: Native, state: Aggregate) {
    && state.root == a.root
    && |state.runtimes| == |n.runtimes|
    && (forall p :: 0 <= p < |state.runtimes| ==> state.runtimes[p].id == n.runtimes[p].id)
    && (NativeCompleted(n.runtimes, a.rootRuntime) ==> forall t :: t !in MailOf(state.runtimes))
    && (forall t :: t in MailOf(state.runtimes) ==> FromStayer(a, causal, n, t) || FromSend(a, n, t))
    && (!NativeCompleted(n.runtimes, a.rootRuntime) ==>
          && (forall e :: Stayer(a, causal, n, e) ==> Present(state, e))
          && (forall k :: 0 <= k < |n.emissions| && LiveSend(n, n.emissions[k]) ==> PresentSend(state, a.root, n.emissions[k])))
  }

  lemma SurviveThenSourced(a: Aggregate, causal: Entry, n: Native, state: Aggregate, t: Entry)
    requires SourcesOk(a) && Arrives(a, causal, n, state) && SourcesSurvive(a, causal, n)
    requires t in MailOf(state.runtimes)
    ensures SourceOk(state.root, state.runtimes, t)
  {
    hide MailOf, SourceOk, WellSourced, SendEnvelope, NativeCompleted, LiveSend, IsNative, Present, PresentSend;
    if FromStayer(a, causal, n, t) {
      var e :| Stayer(a, causal, n, e) && Alike(e, t);
      KeptSource(a.root, a.runtimes, state.runtimes, n.runtimes, e, t);
    } else {
      var k :| 0 <= k < |n.emissions| && LiveSend(n, n.emissions[k]) && SentAs(a.root, n.emissions[k], t);
      SendSource(a.root, state.runtimes, n.runtimes, n.emissions[k], t);
    }
  }

  lemma SourcedThenSurvive(a: Aggregate, causal: Entry, n: Native, state: Aggregate)
    requires SourcesOk(a) && Arrives(a, causal, n, state) && SourcesOk(state)
    ensures SourcesSurvive(a, causal, n)
  {
    hide MailOf, SourceOk, WellSourced, SendEnvelope, NativeCompleted, IsNative, FromStayer, FromSend, NativeActive;
    if !NativeCompleted(n.runtimes, a.rootRuntime) {
      forall e | Stayer(a, causal, n, e) && e.envelope.source.RuntimeSource?
        ensures IsNative(n.runtimes, e.envelope.source.origin.runtime)
      {
        assert Present(state, e);
        var t :| t in MailOf(state.runtimes) && Alike(e, t);
        KeptSource(a.root, a.runtimes, state.runtimes, n.runtimes, e, t);
      }
      forall k | 0 <= k < |n.emissions| && LiveSend(n, n.emissions[k])
        ensures WellSourced(n.runtimes, n.emissions[k])
      {
        assert PresentSend(state, a.root, n.emissions[k]);
        var t :| t in MailOf(state.runtimes) && SentAs(a.root, n.emissions[k], t);
        SendSource(a.root, state.runtimes, n.runtimes, n.emissions[k], t);
      }
    }
  }

  /** The arrivals of the built aggregate, before recall. */
  lemma BuiltArrives(a: Aggregate, i: nat, n: Native)
    requires Ready(a) && Runnable(a, i) && DispatcherOk(a, n)
    ensures Arrives(a, a.runtimes[i].ready[0], n, EmitAll(Carried(a, i, n), n.emissions).aggregate)
  {
    hide MailOf, LifeMail, Carried, EmitAll, Ready, Building, SendEnvelope, Explained, Announced, Arrives;
    hide NativeCompleted, NativeActive, IsNative, StatusOf, Appended, Delivered, Mirrors, CarriedOver;
    var b, causal := Carried(a, i, n), a.runtimes[i].ready[0];
    var built := EmitAll(b, n.emissions);
    CarriedBuilds(a, i, n);
    CarriedFacts(a, causal, b);
    CarriedMirrors(a, i, n);
    EmitAllAppends(b, n.emissions, multiset{causal});
    EmitAllDelivers(b, n.emissions, multiset{causal});
    MirrorsStatus(b.aggregate.runtimes, n.runtimes, a.rootRuntime);
    forall e ensures e in MailOf(b.aggregate.runtimes)
                 <==> !NativeCompleted(n.runtimes, a.rootRuntime) && Stayer(a, causal, n, e) {
      CarriedMember(a, i, n, e);
    }
    forall id ensures Deliverable(b.aggregate.runtimes, a.rootRuntime, id)
                  <==> NativeActive(n.runtimes, id) && !NativeCompleted(n.runtimes, a.rootRuntime) {
      MirrorsStatus(b.aggregate.runtimes, n.runtimes, id);
    }
    ArrivesFrom(a, causal, n, b, built);
  }

  lemma ArrivesFrom(a: Aggregate, causal: Entry, n: Native, b: Build, built: Build)
    requires CarriedOver(a, causal, b) && Mirrors(b.aggregate.runtimes, n.runtimes)
    requires Appended(b, built) && Delivered(b, built, n.emissions)
    requires forall e :: e in MailOf(b.aggregate.runtimes)
               <==> !NativeCompleted(n.runtimes, a.rootRuntime) && Stayer(a, causal, n, e)
    requires forall id :: Deliverable(b.aggregate.runtimes, a.rootRuntime, id)
               <==> NativeActive(n.runtimes, id) && !NativeCompleted(n.runtimes, a.rootRuntime)
    ensures Arrives(a, causal, n, built.aggregate)
  {
    hide MailOf, LifeMail, SentAs, Announced, NativeCompleted, LiveSend, Stayer, Deliverable, Delivered, FromStayer, FromSend;
    forall e | Stayer(a, causal, n, e) && !NativeCompleted(n.runtimes, a.rootRuntime) ensures Present(built.aggregate, e) {
      assert e in MailOf(built.aggregate.runtimes) && Alike(e, e);
    }
    forall t | t in MailOf(built.aggregate.runtimes)
      ensures FromStayer(a, causal, n, t) || FromSend(a, n, t)
      ensures !NativeCompleted(n.runtimes, a.rootRuntime)
    {
      ArrivesOne(a, causal, n, b, built, t);
    }
    forall k | 0 <= k < |n.emissions| && LiveSend(n, n.emissions[k]) && !NativeCompleted(n.runtimes, a.rootRuntime)
      ensures PresentSend(built.aggregate, a.root, n.emissions[k])
    {
      ArrivesSend(a, n, b, built, k);
    }
  }

  lemma ArrivesOne(a: Aggregate, causal: Entry, n: Native, b: Build, built: Build, t: Entry)
    requires b.aggregate.root == a.root && b.aggregate.rootRuntime == a.rootRuntime
    requires Delivered(b, built, n.emissions)
    requires forall e :: e in MailOf(b.aggregate.runtimes)
               <==> !NativeCompleted(n.runtimes, a.rootRuntime) && Stayer(a, causal, n, e)
    requires forall id :: Deliverable(b.aggregate.runtimes, a.rootRuntime, id)
               <==> NativeActive(n.runtimes, id) && !NativeCompleted(n.runtimes, a.rootRuntime)
    requires t in MailOf(built.aggregate.runtimes)
    ensures FromStayer(a, causal, n, t) || FromSend(a, n, t)
    ensures !NativeCompleted(n.runtimes, a.rootRuntime)
  {
    hide MailOf, NativeCompleted, NativeActive, Stayer, Deliverable, SendEnvelope;
    if t in MailOf(b.aggregate.runtimes) {
      assert Stayer(a, causal, n, t) && Alike(t, t);
    } else {
      var k :| 0 <= k < |n.emissions| && SentAs(b.aggregate.root, n.emissions[k], t)
            && Deliverable(b.aggregate.runtimes, b.aggregate.rootRuntime, n.emissions[k].target);
      assert LiveSend(n, n.emissions[k]);
    }
  }

  lemma ArrivesSend(a: Aggregate, n: Native, b: Build, built: Build, k: nat)
    requires b.aggregate.root == a.root && b.aggregate.rootRuntime == a.rootRuntime
    requires Delivered(b, built, n.emissions)
    requires forall id :: Deliverable(b.aggregate.runtimes, a.rootRuntime, id)
               <==> NativeActive(n.runtimes, id) && !NativeCompleted(n.runtimes, a.rootRuntime)
    requires k < |n.emissions| && LiveSend(n, n.emissions[k]) && !NativeCompleted(n.runtimes, a.rootRuntime)
    ensures PresentSend(built.aggregate, a.root, n.emissions[k])
  {
    hide MailOf, NativeCompleted, NativeActive, Deliverable, SendEnvelope;
  }

  lemma ArrivesRecalled(a: Aggregate, causal: Entry, n: Native, built: Aggregate, state: Aggregate)
    requires Arrives(a, causal, n, built) && Requeues(built, state, built.nextQueue)
    ensures Arrives(a, causal, n, state)
  {
    hide MailOf, SentAs, Stayer, LiveSend, NativeCompleted, IsDeferred, FromStayer, FromSend;
    forall t | t in MailOf(state.runtimes) ensures FromStayer(a, causal, n, t) || FromSend(a, n, t) {
      if t !in MailOf(built.runtimes) {
        var x :| IsDeferred(built.runtimes, x) && Requeued(x, t, built.nextQueue);
        DeferredMail(built.runtimes, x);
        AlikeFrom(a, causal, n, x, t);
      }
    }
    forall x, e | x in MailOf(built.runtimes) && Alike(e, x) ensures Present(state, e) {
      if x !in MailOf(state.runtimes) {
        var t :| t in MailOf(state.runtimes) && Requeued(x, t, built.nextQueue);
        assert Alike(e, t);
      }
    }
    forall x, m | x in MailOf(built.runtimes) && SentAs(a.root, m, x) ensures PresentSend(state, a.root, m) {
      if x !in MailOf(state.runtimes) {
        var t :| t in MailOf(state.runtimes) && Requeued(x, t, built.nextQueue);
        AlikeSent(a.root, m, x, t);
      }
    }
    if NativeCompleted(n.runtimes, a.rootRuntime) {
      forall t ensures t !in MailOf(state.runtimes) {
        if t in MailOf(state.runtimes) {
          var x :| IsDeferred(built.runtimes, x) && Requeued(x, t, built.nextQueue);
          DeferredMail(built.runtimes, x);
        }
      }
    }
  }

  lemma AlikeSent(root: Text, m: Emission, x: Entry, t: Entry)
    requires SentAs(root, m, x) && Alike(x, t)
    ensures SentAs(root, m, t)
  {
  }

  lemma AlikeFrom(a: Aggregate, causal: Entry, n: Native, x: Entry, t: Entry)
    requires FromStayer(a, causal, n, x) || FromSend(a, n, x)
    requires Alike(x, t)
    ensures FromStayer(a, causal, n, t) || FromSend(a, n, t)
  {
    hide Stayer, LiveSend, SendEnvelope;
    if FromStayer(a, causal, n, x) {
      var e :| Stayer(a, causal, n, e) && Alike(e, x);
      assert Alike(e, t);
    } else {
      var k :| 0 <= k < |n.emissions| && LiveSend(n, n.emissions[k]) && SentAs(a.root, n.emissions[k], x);
      assert SentAs(a.root, n.emissions[k], t);
    }
  }

  /** After a dispatched step every source is acceptable if and only if no live entry lost its emitter. */
  lemma StepSourcesIff(a: Aggregate, i: nat, n: Native)
    requires Ready(a) && SourcesOk(a) && Runnable(a, i) && DispatcherOk(a, n)
    ensures Finish(a, i, n).Committed?
    ensures SourcesOk(Finish(a, i, n).state) <==> SourcesSurvive(a, a.runtimes[i].ready[0], n)
  {
    hide MailOf, LifeMail, Carried, EmitAll, Finish, Ready, Building, Named, Sound, Appended, CarriedOver, Requeues, Arrives, SourceOk, SourcesSurvive;
    FinishStages(a, i, n);
    BuiltArrives(a, i, n);
    var causal, state := a.runtimes[i].ready[0], Finish(a, i, n).state;
    ArrivesRecalled(a, causal, n, EmitAll(Carried(a, i, n), n.emissions).aggregate, state);
    if SourcesSurvive(a, causal, n) {
      forall t | t in MailOf(state.runtimes) {
        SurviveThenSourced(a, causal, n, state, t);
      }
    }
    if SourcesOk(state) {
      SourcedThenSurvive(a, causal, n, state);
    }
  }
}
