/** Deferring the head and admitting deliveries keep the mailboxes in order. */
module AdmissionProofs {
  import opened CheckpointModel
  import opened CheckpointValidity
  import opened WireCore
  import opened WireCoreProofs
  import opened StepContract
  import opened StepProofs
  import opened StepTheorem
  import opened StepIdentity
  import opened Multisets

  // ------------------------------------------------------------------------------------------
  // Deferral
  // ------------------------------------------------------------------------------------------

  function DeferredHead(a: Aggregate, i: nat): Entry
    requires Runnable(a, i)
  {
    var e := a.runtimes[i].ready[0];
    e.(queue := a.nextQueue, deferrals := e.deferrals + 1)
  }

  lemma DeferMail(a: Aggregate, i: nat)
    requires Runnable(a, i)
    ensures MailOf(DeferHead(a, i).runtimes) == MailOf(RemoveHead(a.runtimes, i)) + multiset{DeferredHead(a, i)}
  {
    hide MailOf;
    var rs, r := RemoveHead(a.runtimes, i), a.runtimes[i];
    var e := DeferredHead(a, i);
    var r' := r.(ready := r.ready[1..], deferred := r.deferred + [e]);
    MailUpdate(rs, i, r');
    assert rs[i := r'] == DeferHead(a, i).runtimes;
    DeferredMailOf(r.ready[1..], r.deferred, e);
    Grow(MailOf(rs[i := r']), Mail(rs[i]), MailOf(rs), Mail(r'), multiset{e});
  }

  lemma DeferredMailOf(ready: seq<Entry>, deferred: seq<Entry>, e: Entry)
    ensures multiset(ready) + multiset(deferred + [e]) == (multiset(ready) + multiset(deferred)) + multiset{e}
  {
  }

  lemma DeferBoxes(a: Aggregate, i: nat)
    requires Ready(a) && Runnable(a, i)
    ensures Mailboxes(DeferHead(a, i))
  {
    hide MailOf, Distinct, Below;
    var r := a.runtimes[i];
    var e := DeferredHead(a, i);
    HeadMail(r.ready, r.deferred);
    DeferredMailOf(r.ready[1..], r.deferred, e);
    ReadyDistinct(a);
    forall f | f in r.deferred ensures f.queue < e.queue {
      BoxBelow(a, i, f);
    }
    OrderedPush(r.deferred, e, e.queue);
    assert Addressed(a.root, r.id, r.ready[0]) by { assert r.ready[0] in Mail(r); }
    var r' := r.(ready := r.ready[1..], deferred := r.deferred + [e]);
    assert BoxesOk(a.root, r');
  }

  lemma BoxBelow(a: Aggregate, i: nat, f: Entry)
    requires Ready(a) && i < |a.runtimes| && f in Mail(a.runtimes[i])
    ensures f.queue < a.nextQueue && f.acceptance < a.nextAcceptance
  {
    MailMember(a.runtimes, f);
  }

  /** A deferral keeps every entry, requeueing only the head. */
  lemma DeferHeadDefers(a: Aggregate, i: nat)
    requires Ready(a) && Runnable(a, i)
    ensures Defers(a, a.runtimes[i].ready[0], DeferHead(a, i))
  {
    hide MailOf, Mailboxes, Distinct, Below, Ready, RemoveHead;
    var h, h' := a.runtimes[i].ready[0], DeferredHead(a, i);
    var m := MailOf(RemoveHead(a.runtimes, i));
    DeferBoxes(a, i);
    DeferMail(a, i);
    RemoveHeadMail(a.runtimes, i);
    ReadyDistinct(a);
    DeferNumbers(m, h, h', a.nextAcceptance, a.nextQueue);
    assert forall t :: t in m + multiset{h'} <==> t in m || t == h';
    assert forall t :: t in m + multiset{h} <==> t in m || t == h;
    assert Moved(h, h', a.nextQueue);
    forall t | t in m ensures Moved(t, t, a.nextQueue) {
    }
  }

  /** If `e` is an entry of runtime `j` of `b` besides `h`, it is where it was in `a`, in front of `h`. */
  predicate Stayed(a: Aggregate, b: Aggregate, h: Entry, j: nat, e: Entry)
    requires j < |a.runtimes| == |b.runtimes|
  {
    e in Mail(b.runtimes[j]) && e != h ==> e in Mail(a.runtimes[j]) && e.queue < h.queue
  }

  /** Every entry of `b` besides `h` is where it was in `a`, with a queue number below that of `h`. */
  ghost predicate OthersStay(a: Aggregate, b: Aggregate, h: Entry) {
    |b.runtimes| == |a.runtimes| && forall j: nat, e :: j < |a.runtimes| ==> Stayed(a, b, h, j, e)
  }

  /**
   Exactly the head moves: it leaves the front of the ready mailbox and arrives, under the next
   queue number, behind everything that its runtime had deferred; all other entries stay.
   */
  lemma DeferMovesHead(a: Aggregate, i: nat)
    requires Ready(a) && Runnable(a, i)
    ensures var b, h := DeferHead(a, i), a.runtimes[i].ready[0];
            && OthersStay(a, b, DeferredHead(a, i)) && i < |b.runtimes| && b.nextQueue == a.nextQueue + 1
            && MailOf(b.runtimes) + multiset{h} == MailOf(a.runtimes) + multiset{DeferredHead(a, i)}
            && b.runtimes[i].deferred == a.runtimes[i].deferred + [DeferredHead(a, i)]
            && h !in MailOf(b.runtimes)
  {
    hide MailOf, Mailboxes, Distinct, Below, Ready, RemoveHead, Mail;
    var b, h, h' := DeferHead(a, i), a.runtimes[i].ready[0], DeferredHead(a, i);
    var m := MailOf(RemoveHead(a.runtimes, i));
    DeferMail(a, i);
    RemoveHeadMail(a.runtimes, i);
    SwapHead(m, h, h');
    ReadyDistinct(a);
    HeadIsBelow(m, h, a.nextAcceptance, a.nextQueue);
    DeferOthersStay(a, i);
  }

  lemma DeferOthersStay(a: Aggregate, i: nat)
    requires Ready(a) && Runnable(a, i)
    ensures OthersStay(a, DeferHead(a, i), DeferredHead(a, i))
  {
    hide Ready, Mail, DeferHead;
    var b, h := DeferHead(a, i), DeferredHead(a, i);
    DeferShape(a, i);
    forall j: nat, e | j < |a.runtimes| ensures Stayed(a, b, h, j, e) {
      if e in Mail(b.runtimes[j]) && e != h {
        DeferredBox(a, i, j, e);
        BoxBelow(a, j, e);
      }
    }
  }

  lemma DeferShape(a: Aggregate, i: nat)
    requires Runnable(a, i)
    ensures var b := DeferHead(a, i);
            b.root == a.root && |b.runtimes| == |a.runtimes| && forall j :: 0 <= j < |a.runtimes| ==> a.runtimes[j].id == b.runtimes[j].id
  {
  }

  lemma SwapHead(m: multiset<Entry>, h: Entry, h': Entry)
    ensures (m + multiset{h'}) + multiset{h} == (m + multiset{h}) + multiset{h'}
  {
  }

  /** The entries of a runtime after a deferral, besides the deferred head. */
  lemma DeferredBox(a: Aggregate, i: nat, j: nat, e: Entry)
    requires Runnable(a, i) && j < |a.runtimes| && e in Mail(DeferHead(a, i).runtimes[j]) && e != DeferredHead(a, i)
    ensures e in Mail(a.runtimes[j])
  {
    HeadMail(a.runtimes[i].ready, a.runtimes[i].deferred);
    DeferredMailOf(a.runtimes[i].ready[1..], a.runtimes[i].deferred, DeferredHead(a, i));
  }

  lemma HeadIsBelow(m: multiset<Entry>, h: Entry, acceptance: nat, queue: nat)
    requires Distinct(m + multiset{h}) && Below(m + multiset{h}, acceptance, queue)
    ensures h !in m && h.queue < queue
  {
    assert (m + multiset{h})[h] == m[h] + 1;
    assert h in m + multiset{h};
  }

  lemma DeferNumbers(m: multiset<Entry>, h: Entry, h': Entry, acceptance: nat, queue: nat)
    requires Distinct(m + multiset{h}) && Below(m + multiset{h}, acceptance, queue)
    requires h' == h.(queue := queue, deferrals := h'.deferrals)
    ensures Distinct(m + multiset{h'}) && Below(m + multiset{h'}, acceptance, queue + 1)
  {
    hide Numbered, Named, Below;
    Requeue(m, h, h', acceptance, queue);
  }

  // ------------------------------------------------------------------------------------------
  // Admission
  // ------------------------------------------------------------------------------------------

  predicate Targeted(a: Aggregate, d: Delivery) {
    Find(a.runtimes, d.envelope.target.runtime) < |a.runtimes|
  }

  /** Admits the deliveries one by one. */
  function EnqueueAll(a: Aggregate, ds: seq<Delivery>): (b: Aggregate)
    requires forall k :: 0 <= k < |ds| ==> Targeted(a, ds[k])
    ensures |b.runtimes| == |a.runtimes|
    ensures forall i :: 0 <= i < |a.runtimes| ==> b.runtimes[i].id == a.runtimes[i].id
  {
    if ds == [] then a
    else
      var b := EnqueueAll(a, ds[..|ds| - 1]);
      var d := ds[|ds| - 1];
      assert Targeted(a, d);
      SameFind(a.runtimes, b.runtimes, d.envelope.target.runtime);
      Enqueue(b, d)
  }

  /** The entry that the k-th delivery became. */
  function Admitted(a: Aggregate, d: Delivery, k: nat): Entry {
    Entry(a.nextAcceptance + k, a.nextQueue + k, d.mode, d.envelope, d.digest, 0)
  }

  /** The canonical digest of a delivery for the root. */
  predicate Attested(root: Text, d: Delivery) {
    d.digest == EnvelopeDigest(root, d.mode, d.envelope) && d.envelope.target.root == root
  }

  /** The deliveries carry pairwise different ids that no entry carries. */
  ghost predicate FreshDeliveries(m: multiset<Entry>, ds: seq<Delivery>) {
    && (forall k :: 0 <= k < |ds| ==> !HasId(m, ds[k].envelope.eventId))
    && (forall k, l :: 0 <= k < l < |ds| ==> ds[k].envelope.eventId != ds[l].envelope.eventId)
  }

  /** `b` holds the entries of `a` and, in order, one entry for each delivery. */
  ghost predicate Admission(a: Aggregate, ds: seq<Delivery>, b: Aggregate) {
    && b == a.(nextAcceptance := a.nextAcceptance + |ds|, nextQueue := a.nextQueue + |ds|, runtimes := b.runtimes)
    && Ready(b)
    && |b.runtimes| == |a.runtimes|
    && (forall i :: 0 <= i < |a.runtimes| ==> b.runtimes[i].id == a.runtimes[i].id)
    && (forall t :: t in MailOf(b.runtimes) <==>
          t in MailOf(a.runtimes) || exists k :: 0 <= k < |ds| && t == Admitted(a, ds[k], k))
  }

  lemma EnqueueAdmits(b: Aggregate, d: Delivery)
    requires Ready(b) && Targeted(b, d) && Attested(b.root, d) && !HasId(MailOf(b.runtimes), d.envelope.eventId)
    ensures Ready(Enqueue(b, d))
    ensures MailOf(Enqueue(b, d).runtimes) == MailOf(b.runtimes) + multiset{Arrival(b, d)}
  {
    hide MailOf, HasId, Numbered, Named, Below;
    var i, e := Find(b.runtimes, d.envelope.target.runtime), Arrival(b, d);
    PushMail(b.runtimes, i, e);
    ReadyDistinct(b);
    ReadyBelow(b);
    MailboxesPush(b, i, e);
    Insert(MailOf(b.runtimes), e, b.nextAcceptance, b.nextQueue);
    NamedInsert(MailOf(b.runtimes), e);
  }

  lemma ReadyBelow(b: Aggregate)
    requires Ready(b)
    ensures Mailboxes(b)
    ensures forall f :: f in MailOf(b.runtimes) ==> f.queue < b.nextQueue && f.acceptance < b.nextAcceptance
  {
  }

  lemma {:induction false} EnqueueAllAdmits(a: Aggregate, ds: seq<Delivery>)
    requires Ready(a)
    requires forall k :: 0 <= k < |ds| ==> Targeted(a, ds[k]) && Attested(a.root, ds[k])
    requires FreshDeliveries(MailOf(a.runtimes), ds)
    ensures Admission(a, ds, EnqueueAll(a, ds))
  {
    hide MailOf, Ready, Enqueue;
    if ds != [] {
      var init, d := ds[..|ds| - 1], ds[|ds| - 1];
      var b := EnqueueAll(a, init);
      EnqueueAllAdmits(a, init);
      SameFind(a.runtimes, b.runtimes, d.envelope.target.runtime);
      forall e | e in MailOf(b.runtimes) ensures e.Id() != d.envelope.eventId {
        if e in MailOf(a.runtimes) {
          assert !HasId(MailOf(a.runtimes), d.envelope.eventId);
        } else {
          var k :| 0 <= k < |init| && e == Admitted(a, init[k], k);
          assert ds[k] == init[k];
        }
      }
      EnqueueAdmits(b, d);
      EnqueueShape(b, d);
      AdmitsNext(a, ds, b);
    }
  }

  lemma EnqueueShape(b: Aggregate, d: Delivery)
    requires Targeted(b, d)
    ensures var b' := Enqueue(b, d);
            && b' == b.(nextAcceptance := b.nextAcceptance + 1, nextQueue := b.nextQueue + 1, runtimes := b'.runtimes)
            && |b'.runtimes| == |b.runtimes|
            && (forall i :: 0 <= i < |b.runtimes| ==> b'.runtimes[i].id == b.runtimes[i].id)
  {
  }

  lemma AdmitsNext(a: Aggregate, ds: seq<Delivery>, b: Aggregate)
    requires ds != [] && Admission(a, ds[..|ds| - 1], b) && Targeted(b, ds[|ds| - 1])
    requires Ready(Enqueue(b, ds[|ds| - 1]))
    requires MailOf(Enqueue(b, ds[|ds| - 1]).runtimes) == MailOf(b.runtimes) + multiset{Arrival(b, ds[|ds| - 1])}
    ensures Admission(a, ds, Enqueue(b, ds[|ds| - 1]))
  {
    hide MailOf, Ready, Enqueue;
    var init, d := ds[..|ds| - 1], ds[|ds| - 1];
    var b' := Enqueue(b, d);
    EnqueueShape(b, d);
    assert Arrival(b, d) == Admitted(a, d, |init|);
    forall t ensures t in MailOf(b'.runtimes) <==>
          t in MailOf(a.runtimes) || exists k :: 0 <= k < |ds| && t == Admitted(a, ds[k], k)
    {
      if t in MailOf(b.runtimes) && t !in MailOf(a.runtimes) {
        var k :| 0 <= k < |init| && t == Admitted(a, init[k], k);
        assert ds[k] == init[k];
      }
      if t == Arrival(b, d) {
        assert t == Admitted(a, ds[|init|], |init|);
      }
      if k :| 0 <= k < |ds| && t == Admitted(a, ds[k], k) {
        if k < |init| {
          assert init[k] == ds[k];
        }
      }
    }
  }
}
