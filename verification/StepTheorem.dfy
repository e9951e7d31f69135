/** One core step conserves entries and never reuses a number, whatever the dispatcher did. */
module StepTheorem {
  import opened Wrappers
  import opened CheckpointModel
  import opened CheckpointValidity
  import opened WireCore
  import opened WireCoreProofs
  import opened StepContract
  import opened StepProofs
  import opened RecallProofs
  import opened Multisets

  /** Mailboxes as every reachable aggregate has them. */
  ghost predicate Ready(a: Aggregate) {
    DistinctRuntimes(a.runtimes) && MailboxesOk(a)
  }

  /** Position `i` names a runtime with a ready entry. */
  predicate Runnable(a: Aggregate, i: nat) {
    i < |a.runtimes| && a.runtimes[i].ready != []
  }

  // ------------------------------------------------------------------------------------------
  // Carrying over
  // ------------------------------------------------------------------------------------------

  lemma RemovedBoxes(a: Aggregate, i: nat)
    requires Ready(a) && Runnable(a, i)
    ensures DistinctRuntimes(RemoveHead(a.runtimes, i))
    ensures forall j :: 0 <= j < |a.runtimes| ==> BoxesOk(a.root, RemoveHead(a.runtimes, i)[j])
  {
    hide MailOf, Distinct, Below;
    HeadMail(a.runtimes[i].ready, a.runtimes[i].deferred);
  }

  lemma MergedBoxes(root: Text, next: seq<Runtime>, ns: seq<NativeRuntime>)
    requires DistinctRuntimes(next) && DistinctNatives(ns)
    requires forall j :: 0 <= j < |next| ==> BoxesOk(root, next[j])
    ensures var merged := Merge(next, ns);
            && |merged| == |ns|
            && DistinctRuntimes(merged)
            && (forall p :: 0 <= p < |merged| ==> merged[p].id == ns[p].id && BoxesOk(root, merged[p]))
            && (forall j, p :: 0 <= j < |next| && 0 <= p < |merged| && merged[p].id == next[j].id ==>
                  merged[p].ready == next[j].ready && merged[p].deferred == next[j].deferred)
  {
    hide Merge;
    var merged := Merge(next, ns);
    MergeAt(next, ns);
    forall j | 0 <= j < |next| ensures Find(next, next[j].id) == j {
      FindUnique(next, j);
    }
    forall p | 0 <= p < |merged| ensures merged[p].id == ns[p].id && BoxesOk(root, merged[p]) {
      assert merged[p] == Carry(next, ns[p]);
    }
  }

  /** The sum of the parts, for a completed and for a continuing aggregate. */
  lemma CarriedSum(a: Aggregate, i: nat, n: Native)
    requires Ready(a) && Runnable(a, i) && DistinctNatives(n.runtimes)
    ensures var next := RemoveHead(a.runtimes, i);
            var merged := Merge(next, n.runtimes);
            forall completed ::
              MailOf(if completed then Empty(merged) else merged)
              + LifeMail(DisposeRemoved(a.runtimes, merged, completed, n.emissions, a.runtimes[i].ready[0].Id()))
              == MailOf(next)
  {
    hide MailOf, LifeMail, Merge, Gone, DisposeRemoved, Empty, MailboxesOk;
    var next := RemoveHead(a.runtimes, i);
    var merged := Merge(next, n.runtimes);
    RemovedBoxes(a, i);
    MergedBoxes(a.root, next, n.runtimes);
    MergeConserves(next, n.runtimes);
    ReadyDistinct(a);
    ConsumedHead(a.runtimes, i);
    DisposeConserves(a.runtimes, next, merged, true, n.emissions, a.runtimes[i].ready[0].Id());
    DisposeConserves(a.runtimes, next, merged, false, n.emissions, a.runtimes[i].ready[0].Id());
    EmptyMail(merged);
  }

  lemma ReadyDistinct(a: Aggregate)
    requires Ready(a)
    ensures Distinct(MailOf(a.runtimes)) && Below(MailOf(a.runtimes), a.nextAcceptance, a.nextQueue)
  {
  }

  /** `b` holds the entries of `a` besides the causal one, live or disposed of. */
  ghost predicate CarriedOver(a: Aggregate, causal: Entry, b: Build) {
    && b.aggregate == a.(nextOutput := b.aggregate.nextOutput, nextStep := b.aggregate.nextStep, runtimes := b.aggregate.runtimes)
    && b.aggregate.nextOutput >= a.nextOutput
    && b.emitted == []
    && (forall e :: e in MailOf(a.runtimes) ==>
          e == causal || e in MailOf(b.aggregate.runtimes) || e in LifeMail(b.lifecycle))
    && (forall e :: e in MailOf(b.aggregate.runtimes) || e in LifeMail(b.lifecycle) ==>
          e in MailOf(a.runtimes) && e != causal && e.acceptance < a.nextAcceptance)
  }

  lemma CarriedMembers(m: multiset<Entry>, live: multiset<Entry>, life: multiset<Entry>, causal: Entry)
    requires live + life + multiset{causal} == m && Numbered(m)
    ensures forall e :: e in m ==> e == causal || e in live || e in life
    ensures forall e :: e in live || e in life ==> e in m && e != causal
  {
    assert m[causal] == live[causal] + life[causal] + 1;
    assert causal in m;
  }

  lemma CarriedEq(a: Aggregate, i: nat, n: Native)
    requires Runnable(a, i)
    ensures var b := Carried(a, i, n);
            var merged := Merge(RemoveHead(a.runtimes, i), n.runtimes);
            && b.emitted == []
            && b.aggregate == a.(nextOutput := n.nextOutput, nextStep := n.nextStep, runtimes := b.aggregate.runtimes)
            && var completed := StatusOf(merged, a.rootRuntime) == Some(Completed);
               && b.aggregate.runtimes == (if completed then Empty(merged) else merged)
               && b.lifecycle == DisposeRemoved(a.runtimes, merged, completed, n.emissions, a.runtimes[i].ready[0].Id())
  {
    hide Merge, Empty, DisposeRemoved;
  }

  lemma CarriedBoxes(a: Aggregate, i: nat, n: Native)
    requires Ready(a) && Runnable(a, i) && DistinctNatives(n.runtimes)
    ensures var b := Carried(a, i, n);
            && Mailboxes(b.aggregate)
            && |b.aggregate.runtimes| == |n.runtimes|
  {
    hide Merge, Empty, MailOf, Carried, DisposeRemoved;
    var merged := Merge(RemoveHead(a.runtimes, i), n.runtimes);
    CarriedEq(a, i, n);
    RemovedBoxes(a, i);
    MergedBoxes(a.root, RemoveHead(a.runtimes, i), n.runtimes);
    EmptyMail(merged);
  }

  lemma CarriedBuilds(a: Aggregate, i: nat, n: Native)
    requires Ready(a) && Runnable(a, i) && DispatcherOk(a, n)
    ensures var b, causal := Carried(a, i, n), a.runtimes[i].ready[0];
            CarriedOver(a, causal, b) && Building(b, multiset{causal}) && |b.aggregate.runtimes| == |n.runtimes|
  {
    hide MailOf, LifeMail, Merge, Empty, DisposeRemoved, Carried, Mailboxes, Numbered, Ready, RemoveHead;
    var b, causal := Carried(a, i, n), a.runtimes[i].ready[0];
    CarriedEq(a, i, n);
    CarriedSum(a, i, n);
    RemoveHeadMail(a.runtimes, i);
    CarriedBoxes(a, i, n);
    ReadyDistinct(a);
    CarriedMembers(MailOf(a.runtimes), MailOf(b.aggregate.runtimes), LifeMail(b.lifecycle), causal);
  }

  // ------------------------------------------------------------------------------------------
  // From carried over, to built, to the resulting state
  // ------------------------------------------------------------------------------------------

  /** The stages of a dispatched step. */
  ghost predicate Stages(a: Aggregate, causal: Entry, b: Build, built: Build, state: Aggregate) {
    && CarriedOver(a, causal, b)
    && Appended(b, built)
    && Requeues(built.aggregate, state, built.aggregate.nextQueue)
  }

  lemma DeferredWasThere(a: Aggregate, causal: Entry, b: Build, built: Build, state: Aggregate, x: Entry)
    requires Stages(a, causal, b, built, state) && IsDeferred(built.aggregate.runtimes, x)
    ensures x in MailOf(a.runtimes) && x != causal && x.acceptance < a.nextAcceptance
  {
    hide MailOf, LifeMail, Explained, Announced, Requeues;
    var p :| 0 <= p < |built.aggregate.runtimes| && x in built.aggregate.runtimes[p].deferred;
    assert x in Mail(b.aggregate.runtimes[p]);
    MailMember(b.aggregate.runtimes, x);
  }

  lemma StagesTraced(a: Aggregate, causal: Entry, b: Build, built: Build, state: Aggregate)
    requires Stages(a, causal, b, built, state)
    ensures Traced(a, causal, state, built.emitted)
  {
    hide MailOf, LifeMail, Announced;
    forall t | t in MailOf(state.runtimes)
      ensures || (exists e :: e in MailOf(a.runtimes) && e != causal && Moved(e, t, a.nextQueue))
              || (New(a, t) && exists k :: 0 <= k < |built.emitted| && AnnouncesLive(built.emitted[k], t))
    {
      if t in MailOf(built.aggregate.runtimes) {
        if t in MailOf(b.aggregate.runtimes) {
          assert Moved(t, t, a.nextQueue);
        }
      } else {
        var x :| IsDeferred(built.aggregate.runtimes, x) && Requeued(x, t, built.aggregate.nextQueue);
        DeferredWasThere(a, causal, b, built, state, x);
        assert Moved(x, t, a.nextQueue);
      }
    }
  }

  lemma StagesDisposals(a: Aggregate, causal: Entry, b: Build, built: Build, state: Aggregate)
    requires Stages(a, causal, b, built, state)
    ensures DisposalsTraced(a, built.lifecycle, built.emitted)
  {
    hide MailOf, LifeMail, Announced, Requeues, Explained;
    forall l | 0 <= l < |built.lifecycle|
      ensures || built.lifecycle[l].entry in MailOf(a.runtimes)
              || (New(a, built.lifecycle[l].entry)
                  && exists k :: 0 <= k < |built.emitted| && AnnouncesDisposal(built.emitted[k], built.lifecycle[l].entry, l))
    {
      if l < |b.lifecycle| {
        LifeMember(b.lifecycle, b.lifecycle[l].entry);
        assert built.lifecycle[l] == b.lifecycle[l];
      } else {
        ExplainedAt(b, built, l);
      }
    }
  }

  lemma StagesKept(a: Aggregate, causal: Entry, b: Build, built: Build, state: Aggregate)
    requires Stages(a, causal, b, built, state)
    ensures Kept(a, causal, state, built.lifecycle)
  {
    hide MailOf, LifeMail, Announced;
    forall e | e in MailOf(a.runtimes) && e != causal
      ensures || (exists t :: t in MailOf(state.runtimes) && Moved(e, t, a.nextQueue))
              || (exists l :: 0 <= l < |built.lifecycle| && built.lifecycle[l].entry == e)
    {
      if e in LifeMail(b.lifecycle) {
        LifeMember(b.lifecycle, e);
        var l :| 0 <= l < |b.lifecycle| && b.lifecycle[l].entry == e;
        assert built.lifecycle[l] == b.lifecycle[l];
      } else if e in MailOf(state.runtimes) {
        assert Moved(e, e, a.nextQueue);
      } else {
        var t :| t in MailOf(state.runtimes) && Requeued(e, t, built.aggregate.nextQueue);
        assert Moved(e, t, a.nextQueue);
      }
    }
  }

  lemma StagesAnnounced(a: Aggregate, causal: Entry, b: Build, built: Build, state: Aggregate)
    requires Stages(a, causal, b, built, state)
    ensures Announced(a, state, built.lifecycle, built.emitted)
  {
    hide MailOf, LifeMail, Explained;
    forall k | 0 <= k < |built.emitted| && built.emitted[k].ToMailbox?
      ensures exists t :: t in MailOf(state.runtimes) && New(a, t) && AnnouncesLive(built.emitted[k], t)
    {
      var t :| t in MailOf(built.aggregate.runtimes) && New(b.aggregate, t) && AnnouncesLive(built.emitted[k], t);
      assert New(a, t);
      if t !in MailOf(state.runtimes) {
        DeferredWasThere(a, causal, b, built, state, t);
        assert false;
      }
    }
  }

  lemma StagesFollow(a: Aggregate, causal: Entry, b: Build, built: Build, state: Aggregate)
    requires Stages(a, causal, b, built, state)
    ensures Follows(a, state) && state.nextOutput == b.aggregate.nextOutput && EmittedInOrder(built.emitted)
  {
    hide MailOf, LifeMail, Explained, Announced;
  }

  // ------------------------------------------------------------------------------------------
  // The whole step
  // ------------------------------------------------------------------------------------------

  lemma FinishEq(a: Aggregate, i: nat, n: Native)
    requires Runnable(a, i)
    ensures var built := EmitAll(Carried(a, i, n), n.emissions);
            var r := Finish(a, i, n);
            && r.Committed? && r.disposition == n.disposition && r.lifecycle == built.lifecycle && r.emitted == built.emitted
            && |n.runtimes| == |built.aggregate.runtimes|
            && r.state == if n.disposition.Handled? && StatusOf(Carried(a, i, n).aggregate.runtimes, a.rootRuntime) == Some(Running) then
                            Recall(built.aggregate, n.runtimes, |n.runtimes|)
                          else built.aggregate
  {
    hide Carried, EmitAll, Recall;
    CarriedLength(a, i, n);
    EmitAllLength(Carried(a, i, n), n.emissions);
  }

  lemma CarriedLength(a: Aggregate, i: nat, n: Native)
    requires Runnable(a, i)
    ensures |Carried(a, i, n).aggregate.runtimes| == |n.runtimes|
  {
    MergeLength(RemoveHead(a.runtimes, i), n.runtimes);
    EmptyLength(Merge(RemoveHead(a.runtimes, i), n.runtimes));
  }

  /** Everything that is true of the stages of one dispatched step. */
  lemma FinishStages(a: Aggregate, i: nat, n: Native)
    requires Ready(a) && Runnable(a, i) && DispatcherOk(a, n)
    ensures var b, causal := Carried(a, i, n), a.runtimes[i].ready[0];
            var built, r := EmitAll(b, n.emissions), Finish(a, i, n);
            var c := LifeMail(r.lifecycle) + multiset{causal};
            && r.Committed? && r.lifecycle == built.lifecycle && r.emitted == built.emitted
            && Stages(a, causal, b, built, r.state)
            && Building(built, multiset{causal})
            && Sound(r.state, c)
            && (Named(MailOf(built.aggregate.runtimes) + c) <==> Named(MailOf(r.state.runtimes) + c))
            && |built.emitted| == |n.emissions|
            && (forall k :: 0 <= k < |n.emissions| ==> Reports(n.emissions[k], built.emitted[k]))
  {
    hide MailOf, LifeMail, Carried, EmitAll, Finish, Named, Numbered, Below, Recall, Mailboxes, Ready, Reports, Appended, CarriedOver, Requeues;
    var b, causal := Carried(a, i, n), a.runtimes[i].ready[0];
    var built, r := EmitAll(b, n.emissions), Finish(a, i, n);
    FinishEq(a, i, n);
    CarriedBuilds(a, i, n);
    CarriedFacts(a, causal, b);
    EmitAllAppends(b, n.emissions, multiset{causal});
    Associate(MailOf(built.aggregate.runtimes), LifeMail(built.lifecycle), multiset{causal});
    RequeuesNothing(built.aggregate);
    if r.state != built.aggregate {
      RecallRequeues(built.aggregate, n.runtimes, |n.runtimes|, LifeMail(built.lifecycle) + multiset{causal});
    }
  }

  lemma CarriedFacts(a: Aggregate, causal: Entry, b: Build)
    requires CarriedOver(a, causal, b)
    ensures b.emitted == []
  {
  }

  /** A dispatched step conserves entries, numbers and mailbox structure. */
  lemma FinishConserves(a: Aggregate, i: nat, n: Native)
    requires Ready(a) && Runnable(a, i) && DispatcherOk(a, n)
    ensures Finish(a, i, n).Committed?
    ensures var r := Finish(a, i, n); Conserves(a, a.runtimes[i].ready[0], r.state, r.emitted, r.lifecycle)
  {
    hide MailOf, LifeMail, Carried, EmitAll, Finish, Named, Numbered, Below, Mailboxes, Ready, Stages;
    hide Traced, DisposalsTraced, Kept, Announced, Building;
    var b, causal := Carried(a, i, n), a.runtimes[i].ready[0];
    var built, r := EmitAll(b, n.emissions), Finish(a, i, n);
    FinishStages(a, i, n);
    StagesTraced(a, causal, b, built, r.state);
    StagesDisposals(a, causal, b, built, r.state);
    StagesKept(a, causal, b, built, r.state);
    StagesAnnounced(a, causal, b, built, r.state);
    StagesFollow(a, causal, b, built, r.state);
    CarriedEq(a, i, n);
    Associate(MailOf(r.state.runtimes), LifeMail(r.lifecycle), multiset{causal});
  }
}
