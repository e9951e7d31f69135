/** Lemmas about the mailboxes that one step of the core builds. */
module WireCoreProofs {
  import opened CheckpointModel
  import opened CheckpointValidity
  import opened WireCore
  import opened Multisets

  // ------------------------------------------------------------------------------------------
  // Mailboxes as multisets
  // ------------------------------------------------------------------------------------------

  lemma {:induction false} MailMember(rs: seq<Runtime>, e: Entry)
    ensures e in MailOf(rs) <==> exists i :: 0 <= i < |rs| && e in Mail(rs[i])
  {
    if rs != [] {
      MailMember(rs[1..], e);
      if e in MailOf(rs[1..]) {
        var i :| 0 <= i < |rs[1..]| && e in Mail(rs[1..][i]);
        assert e in Mail(rs[i + 1]);
      }
      if i :| 0 <= i < |rs| && e in Mail(rs[i]) {
        if i > 0 {
          assert e in Mail(rs[1..][i - 1]);
        }
      }
    }
  }

  lemma {:induction false} MailUpdate(rs: seq<Runtime>, i: nat, r: Runtime)
    requires i < |rs|
    ensures MailOf(rs[i := r]) + Mail(rs[i]) == MailOf(rs) + Mail(r)
  {
    var next := rs[i := r];
    if i == 0 {
      assert next[1..] == rs[1..];
      Replace(MailOf(rs[1..]), Mail(rs[0]), Mail(r));
    } else {
      MailUpdate(rs[1..], i - 1, r);
      assert next[1..] == rs[1..][i - 1 := r];
      Prepend(Mail(rs[0]), MailOf(next[1..]), Mail(rs[i]), MailOf(rs[1..]), Mail(r));
    }
  }

  lemma {:induction false} EmptyMail(rs: seq<Runtime>)
    ensures MailOf(Empty(rs)) == multiset{}
    ensures |Empty(rs)| == |rs|
    ensures forall i :: 0 <= i < |rs| ==> Empty(rs)[i] == rs[i].(ready := [], deferred := [])
  {
    if rs != [] {
      EmptyMail(rs[1..]);
      assert Empty(rs)[1..] == Empty(rs[1..]);
    }
  }

  lemma ReadyMail(ready: seq<Entry>, deferred: seq<Entry>, e: Entry)
    ensures multiset(ready + [e]) + multiset(deferred) == (multiset(ready) + multiset(deferred)) + multiset{e}
  {
  }

  lemma PushMail(rs: seq<Runtime>, i: nat, e: Entry)
    requires i < |rs|
    ensures MailOf(Push(rs, i, e)) == MailOf(rs) + multiset{e}
  {
    var r := rs[i].(ready := rs[i].ready + [e]);
    MailUpdate(rs, i, r);
    ReadyMail(rs[i].ready, rs[i].deferred, e);
    Grow(MailOf(Push(rs, i, e)), Mail(rs[i]), MailOf(rs), Mail(r), multiset{e});
  }

  lemma HeadMail(ready: seq<Entry>, deferred: seq<Entry>)
    requires ready != []
    ensures multiset(ready) + multiset(deferred) == (multiset(ready[1..]) + multiset(deferred)) + multiset{ready[0]}
  {
    assert ready == [ready[0]] + ready[1..];
  }

  lemma RemoveHeadMail(rs: seq<Runtime>, i: nat)
    requires i < |rs| && rs[i].ready != []
    ensures MailOf(RemoveHead(rs, i)) + multiset{rs[i].ready[0]} == MailOf(rs)
  {
    var r := rs[i].(ready := rs[i].ready[1..]);
    MailUpdate(rs, i, r);
    HeadMail(rs[i].ready, rs[i].deferred);
    Grow(MailOf(rs), Mail(r), MailOf(RemoveHead(rs, i)), Mail(rs[i]), multiset{rs[i].ready[0]});
  }

  /** The entries of the disposals. */
  function LifeMail(ls: seq<Lifecycle>): multiset<Entry> {
    if ls == [] then multiset{} else multiset{ls[0].entry} + LifeMail(ls[1..])
  }

  lemma {:induction false} LifeMember(ls: seq<Lifecycle>, e: Entry)
    ensures e in LifeMail(ls) <==> exists i :: 0 <= i < |ls| && ls[i].entry == e
  {
    if ls != [] {
      LifeMember(ls[1..], e);
      if e in LifeMail(ls[1..]) {
        var i :| 0 <= i < |ls[1..]| && ls[1..][i].entry == e;
        assert ls[i + 1].entry == e;
      }
      if i :| 0 <= i < |ls| && ls[i].entry == e {
        if i > 0 {
          assert ls[1..][i - 1].entry == e;
        }
      }
    }
  }

  lemma {:induction false} LifeConcat(ls: seq<Lifecycle>, ms: seq<Lifecycle>)
    ensures LifeMail(ls + ms) == LifeMail(ls) + LifeMail(ms)
  {
    hide LifeMail;
    if ls == [] {
      assert ls + ms == ms;
      LifeNone();
      assert multiset{} + LifeMail(ms) == LifeMail(ms);
    } else {
      LifeConcat(ls[1..], ms);
      LifeCons(ls[0], ls[1..] + ms);
      assert [ls[0]] + (ls[1..] + ms) == ls + ms;
      LifeCons(ls[0], ls[1..]);
      assert [ls[0]] + ls[1..] == ls;
      Associate(multiset{ls[0].entry}, LifeMail(ls[1..]), LifeMail(ms));
    }
  }

  lemma LifeNone()
    ensures LifeMail([]) == multiset{}
  {
  }

  lemma LifeCons(l: Lifecycle, ls: seq<Lifecycle>)
    ensures LifeMail([l] + ls) == multiset{l.entry} + LifeMail(ls)
  {
    assert ([l] + ls)[1..] == ls;
  }

  lemma {:induction false} LifeDistinct(ls: seq<Lifecycle>)
    requires forall e :: e in LifeMail(ls) ==> LifeMail(ls)[e] == 1
    ensures forall i, j :: 0 <= i < j < |ls| ==> ls[i].entry != ls[j].entry
  {
    if ls != [] {
      assert forall e :: e in LifeMail(ls[1..]) ==> LifeMail(ls[1..])[e] <= LifeMail(ls)[e];
      LifeDistinct(ls[1..]);
      forall i, j | 0 <= i < j < |ls| ensures ls[i].entry != ls[j].entry {
        LifeMember(ls[1..], ls[j].entry);
        assert ls[j] == ls[1..][j - 1];
        if i > 0 {
          assert ls[i] == ls[1..][i - 1];
        }
      }
    }
  }

  lemma {:induction false} DisposeMail(box: seq<Entry>, runtime: Text, reason: Reason)
    ensures LifeMail(Dispose(box, runtime, reason)) == multiset(box)
  {
    if box != [] {
      hide LifeMail;
      var rest := Dispose(box[1..], runtime, reason);
      DisposeMail(box[1..], runtime, reason);
      LifeMailFirst(Lifecycle(box[0], runtime, reason), rest);
      assert box == [box[0]] + box[1..];
      assert multiset(box) == multiset{box[0]} + multiset(box[1..]);
    } else {
      assert multiset(box) == multiset{};
    }
  }

  lemma LifeMailFirst(l: Lifecycle, rest: seq<Lifecycle>)
    ensures LifeMail([l] + rest) == multiset{l.entry} + LifeMail(rest)
  {
    assert ([l] + rest)[1..] == rest;
  }

  lemma {:induction false} WithoutAbsent(box: seq<Entry>, id: Text)
    requires forall e :: e in box ==> e.Id() != id
    ensures Without(box, id) == box
  {
    if box != [] {
      assert box[0] in box;
      assert forall e :: e in box[1..] ==> e in box;
      WithoutAbsent(box[1..], id);
    }
  }

  // ------------------------------------------------------------------------------------------
  // Carrying mailboxes over a dispatch conserves entries
  // ------------------------------------------------------------------------------------------

  /** The entries of runtimes that have no successor. */
  function Gone(rs: seq<Runtime>, merged: seq<Runtime>): multiset<Entry> {
    if rs == [] then multiset{}
    else if Find(merged, rs[0].id) < |merged| then Gone(rs[1..], merged)
    else Mail(rs[0]) + Gone(rs[1..], merged)
  }

  lemma {:induction false} MergeAt(prior: seq<Runtime>, ns: seq<NativeRuntime>)
    ensures |Merge(prior, ns)| == |ns|
    ensures forall p :: 0 <= p < |ns| ==> Merge(prior, ns)[p] == Carry(prior, ns[p])
  {
    if ns != [] {
      MergeAt(prior, ns[1..]);
      forall p | 0 <= p < |ns| ensures Merge(prior, ns)[p] == Carry(prior, ns[p]) {
        if p > 0 {
          assert Merge(prior, ns)[p] == Merge(prior, ns[1..])[p - 1];
          assert ns[1..][p - 1] == ns[p];
        }
      }
    }
  }

  lemma FindUnique(rs: seq<Runtime>, i: nat)
    requires DistinctRuntimes(rs) && i < |rs|
    ensures Find(rs, rs[i].id) == i
  {
    var j := Find(rs, rs[i].id);
    assert IsRuntime(rs, rs[i].id);
  }

  lemma {:induction false} MergeNothing(ns: seq<NativeRuntime>)
    ensures MailOf(Merge([], ns)) == multiset{}
  {
    if ns != [] {
      MergeNothing(ns[1..]);
      assert Merge([], ns)[1..] == Merge([], ns[1..]);
    }
  }

  /** Only the successor of the first runtime sees the first runtime's mailboxes. */
  lemma MergeFirst(rs: seq<Runtime>, ns: seq<NativeRuntime>, q: nat)
    requires rs != [] && q < |ns|
    requires DistinctRuntimes(rs)
    ensures Carry(rs, ns[q]).id == Carry(rs[1..], ns[q]).id == ns[q].id
    ensures ns[q].id != rs[0].id ==> Carry(rs, ns[q]) == Carry(rs[1..], ns[q])
    ensures ns[q].id == rs[0].id ==> Mail(Carry(rs, ns[q])) == Mail(rs[0]) && Mail(Carry(rs[1..], ns[q])) == multiset{}
  {
    assert !IsRuntime(rs[1..], rs[0].id);
  }

  lemma MergeStep(rs: seq<Runtime>, ns: seq<NativeRuntime>)
    requires rs != []
    requires DistinctRuntimes(rs) && DistinctNatives(ns)
    ensures |Merge(rs, ns)| == |Merge(rs[1..], ns)|
    ensures forall q :: 0 <= q < |Merge(rs, ns)| ==> Merge(rs, ns)[q].id == Merge(rs[1..], ns)[q].id
    ensures Find(Merge(rs, ns), rs[0].id) == |Merge(rs, ns)| ==> MailOf(Merge(rs, ns)) == MailOf(Merge(rs[1..], ns))
    ensures Find(Merge(rs, ns), rs[0].id) < |Merge(rs, ns)| ==>
              MailOf(Merge(rs, ns)) == MailOf(Merge(rs[1..], ns)) + Mail(rs[0])
  {
    hide MailOf, Merge, Carry;
    var merged, lesser := Merge(rs, ns), Merge(rs[1..], ns);
    MergeAt(rs, ns);
    MergeAt(rs[1..], ns);
    forall q | 0 <= q < |ns|
      ensures merged[q].id == lesser[q].id == ns[q].id
      ensures ns[q].id != rs[0].id ==> merged[q] == lesser[q]
      ensures ns[q].id == rs[0].id ==> Mail(merged[q]) == Mail(rs[0]) && Mail(lesser[q]) == multiset{}
    {
      MergeFirst(rs, ns, q);
    }
    var p := Find(merged, rs[0].id);
    if p < |merged| {
      assert merged == lesser[p := merged[p]];
      MailUpdate(lesser, p, merged[p]);
      Grow(MailOf(merged), Mail(lesser[p]), MailOf(lesser), Mail(merged[p]), Mail(rs[0]));
    } else {
      assert forall q :: 0 <= q < |ns| ==> ns[q].id != rs[0].id;
      assert merged == lesser;
    }
  }

  /** Carried and gone entries together are the entries from before. */
  lemma {:induction false} MergeConserves(rs: seq<Runtime>, ns: seq<NativeRuntime>)
    requires DistinctRuntimes(rs) && DistinctNatives(ns)
    ensures MailOf(Merge(rs, ns)) + Gone(rs, Merge(rs, ns)) == MailOf(rs)
    decreases |rs|
  {
    if rs == [] {
      MergeNothing(ns);
    } else {
      MergeStep(rs, ns);
      MergeConserves(rs[1..], ns);
      var merged, lesser := Merge(rs, ns), Merge(rs[1..], ns);
      GoneSame(rs[1..], merged, lesser);
      if Find(merged, rs[0].id) < |merged| {
        Shift(MailOf(lesser), Mail(rs[0]), Gone(rs[1..], lesser));
      } else {
        Shift'(MailOf(lesser), Mail(rs[0]), Gone(rs[1..], lesser));
      }
    }
  }

  lemma {:induction false} GoneSame(rs: seq<Runtime>, merged: seq<Runtime>, lesser: seq<Runtime>)
    requires |merged| == |lesser|
    requires forall q :: 0 <= q < |merged| ==> merged[q].id == lesser[q].id
    ensures Gone(rs, merged) == Gone(rs, lesser)
  {
    if rs != [] {
      GoneSame(rs[1..], merged, lesser);
      SameFind(merged, lesser, rs[0].id);
    }
  }

  lemma {:induction false} SameFind(merged: seq<Runtime>, lesser: seq<Runtime>, id: Text)
    requires |merged| == |lesser|
    requires forall q :: 0 <= q < |merged| ==> merged[q].id == lesser[q].id
    ensures Find(merged, id) == Find(lesser, id)
  {
    if merged != [] {
      assert merged[0].id == lesser[0].id;
      SameFind(merged[1..], lesser[1..], id);
    }
  }

  /** `next` are the runtimes `prior` without the causal entry. */
  ghost predicate Consumed(prior: seq<Runtime>, next: seq<Runtime>, causal: Text) {
    && |prior| == |next|
    && (forall j :: 0 <= j < |prior| ==>
          && prior[j].id == next[j].id
          && multiset(Without(Box(prior[j]), causal)) == Mail(next[j])
          && multiset(Without(Box(next[j]), causal)) == Mail(next[j]))
  }

  /** The disposals are exactly the entries that have no place after the step. */
  lemma {:induction false} DisposeConserves(
    prior: seq<Runtime>, next: seq<Runtime>, merged: seq<Runtime>, completed: bool, emissions: seq<Emission>, causal: Text)
    requires Consumed(prior, next, causal)
    requires forall j, p :: 0 <= j < |next| && 0 <= p < |merged| && merged[p].id == next[j].id ==>
               merged[p].ready == next[j].ready && merged[p].deferred == next[j].deferred
    ensures LifeMail(DisposeRemoved(prior, merged, completed, emissions, causal))
         == if completed then MailOf(next) else Gone(next, merged)
  {
    if prior != [] {
      assert prior[0].id == next[0].id;
      DisposeConserves(prior[1..], next[1..], merged, completed, emissions, causal);
      var i := Find(merged, prior[0].id);
      var source := if i < |merged| then merged[i] else prior[0];
      var box := Without(Box(source), causal);
      assert i < |merged| ==> Box(source) == Box(next[0]);
      var reason :=
        if completed then AggregateCompleted
        else if CompletedBy(emissions, prior[0].id) then RuntimeCompleted
        else RuntimeCancelled;
      DisposeMail(box, prior[0].id, reason);
      LifeConcat(Dispose(box, prior[0].id, reason), DisposeRemoved(prior[1..], merged, completed, emissions, causal));
    }
  }

  /** Once the head is removed, no other entry carries its event id. */
  lemma HeadAbsent(rs: seq<Runtime>, i: nat, j: nat)
    requires i < |rs| && rs[i].ready != [] && j < |rs|
    requires Distinct(MailOf(rs))
    ensures forall e :: e in Box(RemoveHead(rs, i)[j]) ==> e.Id() != rs[i].ready[0].Id()
  {
    var next := RemoveHead(rs, i);
    var causal := rs[i].ready[0];
    RemoveHeadMail(rs, i);
    forall e | e in Box(next[j]) ensures e.Id() != causal.Id() {
      assert e in Mail(next[j]);
      MailMember(next, e);
      assert MailOf(rs)[e] == MailOf(next)[e] + multiset{causal}[e];
      assert MailOf(rs)[causal] == MailOf(next)[causal] + 1;
    }
  }

  lemma BoxMail(r: Runtime)
    ensures multiset(Box(r)) == Mail(r)
  {
  }

  lemma ConsumedAt(r: Runtime, next: Runtime, id: Text)
    requires next == r || (r.ready != [] && r.ready[0].Id() == id && next == r.(ready := r.ready[1..]))
    requires forall e :: e in Box(next) ==> e.Id() != id
    ensures Without(Box(r), id) == Box(next)
  {
    WithoutAbsent(Box(next), id);
    if next != r {
      assert Box(r)[1..] == Box(next);
    }
  }

  lemma ConsumedHead(rs: seq<Runtime>, i: nat)
    requires i < |rs| && rs[i].ready != []
    requires Distinct(MailOf(rs))
    ensures Consumed(rs, RemoveHead(rs, i), rs[i].ready[0].Id())
  {
    var next := RemoveHead(rs, i);
    var id := rs[i].ready[0].Id();
    forall j | 0 <= j < |rs|
      ensures multiset(Without(Box(rs[j]), id)) == Mail(next[j])
      ensures multiset(Without(Box(next[j]), id)) == Mail(next[j])
    {
      HeadAbsent(rs, i, j);
      ConsumedAt(rs[j], next[j], id);
      ConsumedAt(next[j], next[j], id);
      BoxMail(next[j]);
    }
  }
}
