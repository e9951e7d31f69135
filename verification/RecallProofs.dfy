/** Recalling deferred entries requeues them and changes nothing else. */
module RecallProofs {
  import opened CheckpointModel
  import opened CheckpointValidity
  import opened WireCore
  import opened WireCoreProofs
  import opened StepContract
  import opened StepProofs
  import opened Multisets

  predicate Requeued(x: Entry, t: Entry, queue: nat) {
    t == x.(queue := t.queue) && t.queue >= queue
  }

  lemma {:induction false} RecalledOrdered(box: seq<Entry>, recalls: set<Text>, queue: nat)
    ensures forall i :: 0 <= i < |Recalled(box, recalls, queue)| ==> Recalled(box, recalls, queue)[i].queue == queue + i
  {
    if box != [] {
      var rest := Recalled(box[..|box| - 1], recalls, queue);
      RecalledOrdered(box[..|box| - 1], recalls, queue);
      var back := Recalled(box, recalls, queue);
      assert back == rest || back == rest + [box[|box| - 1].(queue := queue + |rest|)];
    }
  }

  lemma {:induction false} StaysOrdered(box: seq<Entry>, recalls: set<Text>)
    requires Ordered(box)
    ensures Ordered(Stays(box, recalls))
    ensures forall e :: e in Stays(box, recalls) ==> e in box
  {
    if box != [] {
      var last := |box| - 1;
      StaysOrdered(box[..last], recalls);
      forall e | e in Stays(box[..last], recalls) ensures e.queue < box[last].queue {
        assert e in box[..last];
      }
      OrderedPush(Stays(box[..last], recalls), box[last], box[last].queue);
    }
  }

  lemma {:induction false} RecalledFrom(box: seq<Entry>, recalls: set<Text>, queue: nat)
    ensures forall t :: t in Recalled(box, recalls, queue) ==> exists x :: x in box && Requeued(x, t, queue)
    ensures forall x :: x in box ==>
              || x in Stays(box, recalls)
              || exists t :: t in Recalled(box, recalls, queue) && Requeued(x, t, queue)
  {
    if box != [] {
      var last := |box| - 1;
      var init, e := box[..last], box[last];
      RecalledFrom(init, recalls, queue);
      var rest := Recalled(init, recalls, queue);
      assert box == init + [e];
      forall t | t in Recalled(box, recalls, queue) ensures exists x :: x in box && Requeued(x, t, queue) {
        if t in rest {
          var x :| x in init && Requeued(x, t, queue);
          assert x in box;
        } else {
          assert e in box && Requeued(e, t, queue);
        }
      }
      forall x | x in box && x !in Stays(box, recalls)
        ensures exists t :: t in Recalled(box, recalls, queue) && Requeued(x, t, queue)
      {
        if x in init && x !in Stays(init, recalls) {
          var t :| t in rest && Requeued(x, t, queue);
          assert t in Recalled(box, recalls, queue);
        } else {
          var t := e.(queue := queue + |rest|);
          assert t in Recalled(box, recalls, queue);
          assert Requeued(e, t, queue);
        }
      }
    }
  }

  lemma RecallLast(box: seq<Entry>, recalls: set<Text>, queue: nat)
    requires box != []
    ensures var init, e := box[..|box| - 1], box[|box| - 1];
            var rest := Recalled(init, recalls, queue);
            && multiset(box) == multiset(init) + multiset{e}
            && (e.envelope.event in recalls ==>
                  && |Recalled(box, recalls, queue)| == |rest| + 1
                  && multiset(Recalled(box, recalls, queue)) == multiset(rest) + multiset{e.(queue := queue + |rest|)}
                  && Stays(box, recalls) == Stays(init, recalls))
            && (e.envelope.event !in recalls ==>
                  && Recalled(box, recalls, queue) == rest
                  && multiset(Stays(box, recalls)) == multiset(Stays(init, recalls)) + multiset{e})
  {
    assert box == box[..|box| - 1] + [box[|box| - 1]];
  }

  lemma RecallNone(c: multiset<Entry>, recalls: set<Text>, queue: nat)
    ensures Recalled([], recalls, queue) == []
    ensures c + multiset([]) == c + (multiset(Stays([], recalls)) + multiset(Recalled([], recalls, queue)))
  {
  }

  /** Requeueing part of a box keeps all numbers distinct, whatever else there is. */
  lemma {:induction false} RecalledNumbers(c: multiset<Entry>, box: seq<Entry>, recalls: set<Text>, acceptance: nat, queue: nat)
    requires Numbered(c + multiset(box)) && Below(c + multiset(box), acceptance, queue)
    ensures var after := c + (multiset(Stays(box, recalls)) + multiset(Recalled(box, recalls, queue)));
            && Numbered(after)
            && Below(after, acceptance, queue + |Recalled(box, recalls, queue)|)
            && (Named(c + multiset(box)) <==> Named(after))
    decreases |box|
  {
    hide Numbered, Below, Named, Stays, Recalled;
    if box == [] {
      RecallNone(c, recalls, queue);
    } else {
      var init, e := box[..|box| - 1], box[|box| - 1];
      RecallLast(box, recalls, queue);
      Associate'(c, multiset(init), multiset{e});
      RecalledNumbers(c + multiset{e}, init, recalls, acceptance, queue);
      RecallLastNumbers(c, multiset(Stays(init, recalls)), multiset(Recalled(init, recalls, queue)), e,
                        acceptance, queue + |Recalled(init, recalls, queue)|);
    }
  }

  /** The last entry either stays or is requeued. */
  lemma RecallLastNumbers(c: multiset<Entry>, keep: multiset<Entry>, back: multiset<Entry>, e: Entry, acceptance: nat, queue: nat)
    requires Numbered((c + multiset{e}) + (keep + back)) && Below((c + multiset{e}) + (keep + back), acceptance, queue)
    ensures var f := e.(queue := queue);
            && Numbered(c + ((keep + multiset{e}) + back))
            && Below(c + ((keep + multiset{e}) + back), acceptance, queue)
            && (Named((c + multiset{e}) + (keep + back)) <==> Named(c + ((keep + multiset{e}) + back)))
            && Numbered(c + (keep + (back + multiset{f})))
            && Below(c + (keep + (back + multiset{f})), acceptance, queue + 1)
            && (Named((c + multiset{e}) + (keep + back)) <==> Named(c + (keep + (back + multiset{f}))))
  {
    hide Numbered, Below, Named;
    var f := e.(queue := queue);
    Associate''(c, multiset{e}, keep, back);
    Requeue(c + (keep + back), e, f, acceptance, queue);
    Associate3(c, keep, back, multiset{f});
    Associate4(c, keep, back, multiset{e});
  }

  // ------------------------------------------------------------------------------------------
  // One runtime
  // ------------------------------------------------------------------------------------------

  lemma RecallMail(r: Runtime, stays: seq<Entry>, back: seq<Entry>)
    ensures Mail(r.(ready := r.ready + back, deferred := stays)) == multiset(r.ready) + (multiset(stays) + multiset(back))
  {
  }

  /** All entries but the deferred ones of runtime `i`. */
  function Others(rs: seq<Runtime>, i: nat): multiset<Entry>
    requires i < |rs|
  {
    MailOf(rs[i := rs[i].(deferred := [])])
  }

  lemma OthersSplit(rs: seq<Runtime>, i: nat, r: Runtime)
    requires i < |rs|
    requires r == rs[i].(ready := r.ready, deferred := r.deferred)
    requires exists back: seq<Entry> :: r.ready == rs[i].ready + back
    ensures MailOf(rs) == Others(rs, i) + multiset(rs[i].deferred)
    ensures MailOf(rs[i := r]) == Others(rs, i) + (multiset(r.deferred) + multiset(r.ready[|rs[i].ready|..]))
  {
    hide MailOf;
    var back: seq<Entry> :| r.ready == rs[i].ready + back;
    assert r.ready[|rs[i].ready|..] == back;
    OthersWith(rs, i, rs[i], []);
    assert rs[i := rs[i]] == rs && multiset(rs[i].deferred) + multiset([]) == multiset(rs[i].deferred);
    OthersWith(rs, i, r, back);
  }

  /** The other entries, and those of a runtime that takes position `i`. */
  lemma OthersWith(rs: seq<Runtime>, i: nat, r: Runtime, back: seq<Entry>)
    requires i < |rs| && r == rs[i].(ready := rs[i].ready + back, deferred := r.deferred)
    ensures MailOf(rs[i := r]) == Others(rs, i) + (multiset(r.deferred) + multiset(back))
  {
    hide MailOf;
    var bare := rs[i].(deferred := []);
    var others := rs[i := bare];
    MailUpdate(others, i, r);
    assert others[i := r] == rs[i := r];
    BareMail(rs[i]);
    RecallMail(rs[i], r.deferred, back);
    Grow(MailOf(rs[i := r]), Mail(bare), MailOf(others), Mail(r), multiset(r.deferred) + multiset(back));
  }

  lemma BareMail(r: Runtime)
    ensures Mail(r.(deferred := [])) == multiset(r.ready)
  {
  }

  /** Numbers are distinct and below the counters, counting the entries `c` that already left. */
  ghost predicate Sound(a: Aggregate, c: multiset<Entry>) {
    && Mailboxes(a)
    && Numbered(MailOf(a.runtimes) + c)
    && Below(MailOf(a.runtimes) + c, a.nextAcceptance, a.nextQueue)
  }

  /** `b` is `a` after some entries in deferred mailboxes were requeued. */
  ghost predicate Requeues(a: Aggregate, b: Aggregate, queue: nat) {
    && b == a.(nextQueue := b.nextQueue, runtimes := b.runtimes) && b.nextQueue >= a.nextQueue
    && |b.runtimes| == |a.runtimes|
    && (forall i :: 0 <= i < |a.runtimes| ==>
          b.runtimes[i].id == a.runtimes[i].id && b.runtimes[i].status == a.runtimes[i].status)
    && (forall t :: t in MailOf(b.runtimes) ==>
          || t in MailOf(a.runtimes)
          || exists x :: IsDeferred(a.runtimes, x) && Requeued(x, t, queue))
    && (forall x :: x in MailOf(a.runtimes) ==>
          || x in MailOf(b.runtimes)
          || (IsDeferred(a.runtimes, x) && exists t :: t in MailOf(b.runtimes) && Requeued(x, t, queue)))
  }

  ghost predicate IsDeferred(rs: seq<Runtime>, x: Entry) {
    exists i :: 0 <= i < |rs| && x in rs[i].deferred
  }

  lemma RecallBoxOk(root: Text, r: Runtime, recalls: set<Text>, queue: nat)
    requires BoxesOk(root, r)
    requires forall e :: e in r.ready ==> e.queue < queue
    ensures BoxesOk(root, r.(ready := r.ready + Recalled(r.deferred, recalls, queue), deferred := Stays(r.deferred, recalls)))
  {
    hide Recalled, Stays;
    var back := Recalled(r.deferred, recalls, queue);
    var stays := Stays(r.deferred, recalls);
    RecalledOrdered(r.deferred, recalls, queue);
    StaysOrdered(r.deferred, recalls);
    RecalledFrom(r.deferred, recalls, queue);
    var r' := r.(ready := r.ready + back, deferred := stays);
    forall p, q | 0 <= p < q < |r'.ready| ensures r'.ready[p].queue < r'.ready[q].queue {
      if p < |r.ready| {
        assert r.ready[p] in r.ready;
      }
    }
    forall e | e in Mail(r') ensures Addressed(root, r'.id, e) {
      assert e in r.ready + back || e in stays;
      if e in r.ready || e in stays {
        assert e in Mail(r);
      } else {
        assert e in back;
        var x :| x in r.deferred && Requeued(x, e, queue);
        assert x in Mail(r);
      }
    }
  }

  lemma RecallOneBoxes(a: Aggregate, i: nat, recalls: set<Text>, c: multiset<Entry>)
    requires Sound(a, c) && i < |a.runtimes|
    ensures Mailboxes(RecallOne(a, i, recalls))
  {
    hide MailOf, Numbered, BoxesOk, Recalled, Stays;
    var r := a.runtimes[i];
    forall e | e in r.ready ensures e.queue < a.nextQueue {
      assert e in Mail(r);
      MailMember(a.runtimes, e);
      assert e in MailOf(a.runtimes) + c;
    }
    RecallBoxOk(a.root, r, recalls, a.nextQueue);
  }

  lemma RecallOneSound(a: Aggregate, i: nat, recalls: set<Text>, c: multiset<Entry>)
    requires Sound(a, c) && i < |a.runtimes|
    ensures Sound(RecallOne(a, i, recalls), c)
    ensures Named(MailOf(a.runtimes) + c) <==> Named(MailOf(RecallOne(a, i, recalls).runtimes) + c)
  {
    hide MailOf, Numbered, Below, Named, Mailboxes;
    RecallOneBoxes(a, i, recalls, c);
    var r := a.runtimes[i];
    if r.status.Running? {
      var back := Recalled(r.deferred, recalls, a.nextQueue);
      var stays := Stays(r.deferred, recalls);
      var r' := r.(ready := r.ready + back, deferred := stays);
      OthersSplit(a.runtimes, i, r');
      assert r'.ready[|r.ready|..] == back;
      var others := Others(a.runtimes, i);
      Exchange(others, multiset(r.deferred), c);
      RecalledNumbers(others + c, r.deferred, recalls, a.nextAcceptance, a.nextQueue);
      Exchange(others, multiset(stays) + multiset(back), c);
    }
  }

  /** Membership before and after, seen from the box that changes. */
  lemma RecallOneMembers(a: Aggregate, i: nat, recalls: set<Text>)
    requires i < |a.runtimes| && a.runtimes[i].status.Running?
    ensures var r := a.runtimes[i];
            && (forall t :: t in MailOf(RecallOne(a, i, recalls).runtimes) <==>
                  t in Others(a.runtimes, i) || t in Stays(r.deferred, recalls) || t in Recalled(r.deferred, recalls, a.nextQueue))
            && (forall t :: t in MailOf(a.runtimes) <==> t in Others(a.runtimes, i) || t in r.deferred)
  {
    hide MailOf, Others;
    var r := a.runtimes[i];
    var back := Recalled(r.deferred, recalls, a.nextQueue);
    var r' := r.(ready := r.ready + back, deferred := Stays(r.deferred, recalls));
    OthersSplit(a.runtimes, i, r');
    assert r'.ready[|r.ready|..] == back;
  }

  lemma RecallOneRequeues(a: Aggregate, i: nat, recalls: set<Text>, queue: nat)
    requires i < |a.runtimes| && queue <= a.nextQueue
    ensures Requeues(a, RecallOne(a, i, recalls), queue)
    ensures forall j :: 0 <= j < |a.runtimes| && j != i ==> RecallOne(a, i, recalls).runtimes[j] == a.runtimes[j]
    ensures forall x :: x in MailOf(a.runtimes) && x !in a.runtimes[i].deferred ==> x in MailOf(RecallOne(a, i, recalls).runtimes)
    ensures forall t :: t in MailOf(RecallOne(a, i, recalls).runtimes) && t !in MailOf(a.runtimes) ==>
              exists x :: x in a.runtimes[i].deferred && Requeued(x, t, queue)
  {
    hide MailOf, Others, Stays, Recalled;
    var b := RecallOne(a, i, recalls);
    var r := a.runtimes[i];
    if r.status.Running? {
      var back := Recalled(r.deferred, recalls, a.nextQueue);
      RecallOneMembers(a, i, recalls);
      RecalledFrom(r.deferred, recalls, a.nextQueue);
      StaysSubset(r.deferred, recalls);
      forall t | t in MailOf(b.runtimes) && t !in MailOf(a.runtimes)
        ensures exists x :: IsDeferred(a.runtimes, x) && Requeued(x, t, queue)
        ensures exists x :: x in r.deferred && Requeued(x, t, queue)
      {
        var x :| x in r.deferred && Requeued(x, t, a.nextQueue);
        assert IsDeferred(a.runtimes, x) && Requeued(x, t, queue);
      }
      forall x | x in MailOf(a.runtimes) && x !in MailOf(b.runtimes)
        ensures IsDeferred(a.runtimes, x)
        ensures exists t :: t in MailOf(b.runtimes) && Requeued(x, t, queue)
      {
        var t :| t in back && Requeued(x, t, a.nextQueue);
        assert t in MailOf(b.runtimes) && Requeued(x, t, queue);
      }
    }
  }

  lemma {:induction false} StaysSubset(box: seq<Entry>, recalls: set<Text>)
    ensures forall e :: e in Stays(box, recalls) ==> e in box
  {
    if box != [] {
      StaysSubset(box[..|box| - 1], recalls);
      assert forall e :: e in box[..|box| - 1] ==> e in box;
    }
  }

  // ------------------------------------------------------------------------------------------
  // All runtimes
  // ------------------------------------------------------------------------------------------

  lemma RequeuesCompose(a: Aggregate, b: Aggregate, i: nat, recalls: set<Text>)
    requires i < |a.runtimes| && |b.runtimes| == |a.runtimes|
    requires Requeues(a, b, a.nextQueue) && b.runtimes[i] == a.runtimes[i]
    requires Below(MailOf(a.runtimes), a.nextAcceptance, a.nextQueue)
    ensures Requeues(a, RecallOne(b, i, recalls), a.nextQueue)
  {
    hide MailOf, RecallOne;
    var b' := RecallOne(b, i, recalls);
    RecallOneRequeues(b, i, recalls, a.nextQueue);
    forall x | x in b.runtimes[i].deferred ensures x in MailOf(a.runtimes) && x.queue < a.nextQueue {
      assert x in Mail(a.runtimes[i]);
      MailMember(a.runtimes, x);
    }
    forall t | t in MailOf(b'.runtimes) && t !in MailOf(a.runtimes)
      ensures exists x :: IsDeferred(a.runtimes, x) && Requeued(x, t, a.nextQueue)
    {
      if t !in MailOf(b.runtimes) {
        var x :| x in b.runtimes[i].deferred && Requeued(x, t, a.nextQueue);
        assert IsDeferred(a.runtimes, x);
      }
    }
    forall x | x in MailOf(a.runtimes) && x !in MailOf(b'.runtimes)
      ensures IsDeferred(a.runtimes, x) && exists t :: t in MailOf(b'.runtimes) && Requeued(x, t, a.nextQueue)
    {
      if x in MailOf(b.runtimes) {
        assert x in b.runtimes[i].deferred;
        assert IsDeferred(a.runtimes, x);
      } else {
        var t :| t in MailOf(b.runtimes) && Requeued(x, t, a.nextQueue);
        assert t in MailOf(b'.runtimes);
      }
    }
  }

  lemma RecallNext(a: Aggregate, b: Aggregate, i: nat, recalls: set<Text>, c: multiset<Entry>)
    requires i < |a.runtimes| && Sound(a, c) && Requeues(a, b, a.nextQueue) && Sound(b, c)
    requires forall j :: i <= j < |a.runtimes| ==> b.runtimes[j] == a.runtimes[j]
    ensures var b' := RecallOne(b, i, recalls);
            && Requeues(a, b', a.nextQueue) && Sound(b', c)
            && (Named(MailOf(b.runtimes) + c) <==> Named(MailOf(b'.runtimes) + c))
            && (forall j :: i < j < |a.runtimes| ==> b'.runtimes[j] == a.runtimes[j])
  {
    BelowPart(a, c);
    RecallOneSound(b, i, recalls, c);
    RequeuesCompose(a, b, i, recalls);
    hide MailOf, Named, Sound, Requeues;
  }

  lemma RequeuesNothing(a: Aggregate)
    ensures Requeues(a, a, a.nextQueue)
  {
    hide MailOf;
  }

  /** Recall requeues deferred entries under fresh numbers and keeps everything else. */
  lemma {:induction false} RecallRequeues(a: Aggregate, ns: seq<NativeRuntime>, k: nat, c: multiset<Entry>)
    requires k <= |ns| == |a.runtimes| && Sound(a, c)
    ensures Sound(Recall(a, ns, k), c)
    ensures Named(MailOf(a.runtimes) + c) <==> Named(MailOf(Recall(a, ns, k).runtimes) + c)
    ensures Requeues(a, Recall(a, ns, k), a.nextQueue)
    ensures forall j :: k <= j < |a.runtimes| ==> Recall(a, ns, k).runtimes[j] == a.runtimes[j]
  {
    hide MailOf, RecallOne, Named, Sound, Requeues;
    if k == 0 {
      RequeuesNothing(a);
    } else {
      RecallRequeues(a, ns, k - 1, c);
      RecallNext(a, Recall(a, ns, k - 1), k - 1, ns[k - 1].recalls, c);
    }
  }

  lemma BelowPart(a: Aggregate, c: multiset<Entry>)
    requires Sound(a, c)
    ensures Below(MailOf(a.runtimes), a.nextAcceptance, a.nextQueue)
  {
    assert forall e :: e in MailOf(a.runtimes) ==> e in MailOf(a.runtimes) + c;
  }
}
