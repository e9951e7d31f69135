/**
 What a dispatched step answers, in the dispatcher's terms: where every entry is afterwards, under which
 numbers, and what is announced and disposed of, in which order and for which reason.
 */
module StepAnswers {
  import opened Wrappers
  import opened Sequences
  import opened CheckpointModel
  import opened CheckpointValidity
  import opened WireCore
  import opened WireCoreProofs
  import opened StepTheorem
  import opened StepIdentity
  import opened StepSources

  // ------------------------------------------------------------------------------------------
  // Recall
  // ------------------------------------------------------------------------------------------

  /** `at` lists, in order, the positions of the entries whose event is among the recalled ones, or of all others. */
  ghost predicate Lists(at: seq<nat>, box: seq<Entry>, recalls: set<Text>, recalled: bool) {
    Increasing(at) && ListsOnly(at, box, recalls, recalled) && ListsAll(at, box, recalls, recalled)
  }

  predicate ListsOnly(at: seq<nat>, box: seq<Entry>, recalls: set<Text>, recalled: bool) {
    forall p :: 0 <= p < |at| ==> IsKind(box, at[p], recalls, recalled)
  }

  ghost predicate ListsAll(at: seq<nat>, box: seq<Entry>, recalls: set<Text>, recalled: bool) {
    forall k: nat :: IsKind(box, k, recalls, recalled) ==> Occurs(k, at)
  }

  predicate IsKind(box: seq<Entry>, k: nat, recalls: set<Text>, recalled: bool) {
    k < |box| && (box[k].envelope.event in recalls <==> recalled)
  }

  /** `back` are the recalled entries of `box`, in order, under consecutive queue numbers from `queue` on. */
  ghost predicate IsRecalled(box: seq<Entry>, recalls: set<Text>, queue: nat, back: seq<Entry>) {
    exists at: seq<nat> :: Lists(at, box, recalls, true) && Requeues(box, at, queue, back)
  }

  predicate Requeues(box: seq<Entry>, at: seq<nat>, queue: nat, back: seq<Entry>) {
    |back| == |at| && forall p :: 0 <= p < |at| ==> at[p] < |box| && back[p] == box[at[p]].(queue := queue + p)
  }

  /** `rest` are the other entries of `box`, in order and unchanged. */
  ghost predicate IsLeft(box: seq<Entry>, recalls: set<Text>, rest: seq<Entry>) {
    exists at: seq<nat> :: Lists(at, box, recalls, false) && Copies(box, at, rest)
  }

  predicate Copies(box: seq<Entry>, at: seq<nat>, rest: seq<Entry>) {
    |rest| == |at| && forall p :: 0 <= p < |at| ==> at[p] < |box| && rest[p] == box[at[p]]
  }

  lemma KindMore(box: seq<Entry>, k: nat, recalls: set<Text>, recalled: bool)
    requires box != []
    ensures IsKind(box, k, recalls, recalled) <==>
              if k == |box| - 1 then box[k].envelope.event in recalls <==> recalled else IsKind(box[..|box| - 1], k, recalls, recalled)
  {
  }

  lemma OnlyMore(at: seq<nat>, box: seq<Entry>, recalls: set<Text>, recalled: bool)
    requires box != [] && ListsOnly(at, box[..|box| - 1], recalls, recalled)
    ensures forall p :: 0 <= p < |at| ==> at[p] < |box| - 1
    ensures ListsOnly(at, box, recalls, recalled)
    ensures (box[|box| - 1].envelope.event in recalls <==> recalled) ==> ListsOnly(at + [|box| - 1], box, recalls, recalled)
  {
    forall p | 0 <= p < |at| ensures at[p] < |box| - 1 && IsKind(box, at[p], recalls, recalled) {
      KindMore(box, at[p], recalls, recalled);
    }
  }

  lemma AllListed(at: seq<nat>, box: seq<Entry>, recalls: set<Text>, recalled: bool)
    requires box != [] && ListsAll(at, box[..|box| - 1], recalls, recalled)
    ensures ListsAll(if box[|box| - 1].envelope.event in recalls <==> recalled then at + [|box| - 1] else at, box, recalls, recalled)
  {
    hide Occurs, IsKind;
    var last := |box| - 1;
    forall k: nat | IsKind(box, k, recalls, recalled)
      ensures Occurs(k, if box[last].envelope.event in recalls <==> recalled then at + [last] else at)
    {
      OccursMore(k, at, last);
      KindMore(box, k, recalls, recalled);
    }
  }

  lemma ListsMore(at: seq<nat>, box: seq<Entry>, recalls: set<Text>, recalled: bool)
    requires box != [] && Lists(at, box[..|box| - 1], recalls, recalled)
    ensures var last := |box| - 1;
            Lists(if box[last].envelope.event in recalls <==> recalled then at + [last] else at, box, recalls, recalled)
  {
    hide ListsOnly, ListsAll, Increasing;
    OnlyMore(at, box, recalls, recalled);
    AllListed(at, box, recalls, recalled);
    IncreasingMore(at, |box| - 1);
  }

  lemma RequeuesMore(box: seq<Entry>, at: seq<nat>, queue: nat, back: seq<Entry>)
    requires box != [] && Requeues(box[..|box| - 1], at, queue, back)
    ensures var last := |box| - 1;
            && Requeues(box, at, queue, back)
            && Requeues(box, at + [last], queue, back + [box[last].(queue := queue + |back|)])
  {
  }

  lemma CopiesMore(box: seq<Entry>, at: seq<nat>, rest: seq<Entry>)
    requires box != [] && Copies(box[..|box| - 1], at, rest)
    ensures var last := |box| - 1; Copies(box, at, rest) && Copies(box, at + [last], rest + [box[last]])
  {
  }

  lemma NothingListed(recalls: set<Text>, recalled: bool, queue: nat)
    ensures Lists([], [], recalls, recalled) && Requeues([], [], queue, []) && Copies([], [], [])
  {
  }

  lemma {:induction false} RecalledIs(box: seq<Entry>, recalls: set<Text>, queue: nat)
    ensures IsRecalled(box, recalls, queue, Recalled(box, recalls, queue))
  {
    hide Lists, Requeues;
    if box == [] {
      NothingListed(recalls, true, queue);
    } else {
      var last := |box| - 1;
      var init := box[..last];
      RecalledIs(init, recalls, queue);
      var back := Recalled(init, recalls, queue);
      var at: seq<nat> :| Lists(at, init, recalls, true) && Requeues(init, at, queue, back);
      ListsMore(at, box, recalls, true);
      RequeuesMore(box, at, queue, back);
    }
  }

  lemma {:induction false} StaysIs(box: seq<Entry>, recalls: set<Text>)
    ensures IsLeft(box, recalls, Stays(box, recalls))
  {
    hide Lists, Copies;
    if box == [] {
      NothingListed(recalls, false, 0);
    } else {
      var last := |box| - 1;
      var init := box[..last];
      StaysIs(init, recalls);
      var rest := Stays(init, recalls);
      var at: seq<nat> :| Lists(at, init, recalls, false) && Copies(init, at, rest);
      ListsMore(at, box, recalls, false);
      CopiesMore(box, at, rest);
    }
  }

  /** Runtime `r` is `q` after recall, with queue numbers from `base` up to `next`. */
  ghost predicate RecallsRuntime(q: Runtime, r: Runtime, recalls: set<Text>, base: nat, next: nat) {
    && base <= next
    && r == q.(ready := r.ready, deferred := r.deferred)
    && q.ready <= r.ready
    && var back := r.ready[|q.ready|..];
       && next == base + |back|
       && (if q.status.Running? then IsRecalled(q.deferred, recalls, base, back) && IsLeft(q.deferred, recalls, r.deferred)
           else r == q)
  }

  /** `numbers[p]` is the first queue number for runtime `p`. */
  ghost predicate RecallsAll(a: Aggregate, ns: seq<NativeRuntime>, k: nat, b: Aggregate, numbers: seq<nat>) {
    && k <= |ns| == |a.runtimes| == |b.runtimes|
    && b == a.(nextQueue := b.nextQueue, runtimes := b.runtimes)
    && |numbers| == k + 1 && numbers[0] == a.nextQueue && numbers[k] == b.nextQueue
    && (forall p: nat :: p < k ==> RecallsRuntime(a.runtimes[p], b.runtimes[p], ns[p].recalls, numbers[p], numbers[p + 1]))
    && (forall p :: k <= p < |ns| ==> b.runtimes[p] == a.runtimes[p])
  }

  lemma RecallOneIs(a: Aggregate, i: nat, recalls: set<Text>)
    requires i < |a.runtimes|
    ensures var b := RecallOne(a, i, recalls);
            && b == a.(nextQueue := b.nextQueue, runtimes := b.runtimes)
            && |b.runtimes| == |a.runtimes|
            && RecallsRuntime(a.runtimes[i], b.runtimes[i], recalls, a.nextQueue, b.nextQueue)
            && (forall p :: 0 <= p < |a.runtimes| && p != i ==> b.runtimes[p] == a.runtimes[p])
  {
    hide Recalled, Stays, IsRecalled, IsLeft;
    var q := a.runtimes[i];
    var r := RecallOne(a, i, recalls).runtimes[i];
    if q.status.Running? {
      RecalledIs(q.deferred, recalls, a.nextQueue);
      StaysIs(q.deferred, recalls);
      assert r.ready[|q.ready|..] == Recalled(q.deferred, recalls, a.nextQueue);
    } else {
      assert r.ready[|q.ready|..] == [];
    }
  }

  lemma {:induction false} RecallIs(a: Aggregate, ns: seq<NativeRuntime>, k: nat) returns (numbers: seq<nat>)
    requires k <= |ns| == |a.runtimes|
    ensures RecallsAll(a, ns, k, Recall(a, ns, k), numbers)
  {
    hide RecallOne, RecallsRuntime;
    if k == 0 {
      numbers := [a.nextQueue];
    } else {
      var before := Recall(a, ns, k - 1);
      var some := RecallIs(a, ns, k - 1);
      RecallOneIs(before, k - 1, ns[k - 1].recalls);
      var b := Recall(a, ns, k);
      numbers := some + [b.nextQueue];
      forall p: nat | p < k ensures RecallsRuntime(a.runtimes[p], b.runtimes[p], ns[p].recalls, numbers[p], numbers[p + 1]) {
        assert numbers[p] == some[p];
        assert p < k - 1 ==> numbers[p + 1] == some[p + 1];
      }
    }
  }

  // ------------------------------------------------------------------------------------------
  // Emissions
  // ------------------------------------------------------------------------------------------

  /** How many of the emissions are sends. */
  function SendsIn(ms: seq<Emission>): nat {
    if ms == [] then 0 else SendsIn(ms[..|ms| - 1]) + if ms[|ms| - 1].Send? then 1 else 0
  }

  /** How many of the sends find no receiver. */
  function RefusedIn(ns: seq<NativeRuntime>, root: Text, ms: seq<Emission>): nat {
    if ms == [] then 0
    else
      var m := ms[|ms| - 1];
      RefusedIn(ns, root, ms[..|ms| - 1]) + if m.Send? && !Receives(ns, root, m.target) then 1 else 0
  }

  /** A kept runtime receives unless it or the root has completed. */
  predicate Receives(ns: seq<NativeRuntime>, root: Text, target: Text) {
    NativeActive(ns, target) && !NativeCompleted(ns, root)
  }

  /** Why a send is disposed of. */
  function RefusalReason(ns: seq<NativeRuntime>, root: Text, target: Text): Reason {
    if target == root && NativeCompleted(ns, root) then AggregateCompleted
    else if NativeCompleted(ns, target) then RuntimeCompleted
    else RuntimeCancelled
  }

  /** The entry of a send under the given numbers. */
  function SendEntry(root: Text, m: Emission, acceptance: nat, queue: nat): Entry
    requires m.Send?
  {
    Entry(acceptance, queue, Internal, SendEnvelope(root, m), EnvelopeDigest(root, Internal, SendEnvelope(root, m)), 0)
  }

  /** The entry of the k-th emission of a step on `a`: every earlier send used up one number of each kind. */
  function EntryAt(a: Aggregate, ms: seq<Emission>, k: nat): Entry
    requires k < |ms| && ms[k].Send?
  {
    SendEntry(a.root, ms[k], a.nextAcceptance + SendsIn(ms[..k]), a.nextQueue + SendsIn(ms[..k]))
  }

  /** One send, in terms of the dispatcher's runtimes. */
  lemma EmitSendIs(b: Build, ns: seq<NativeRuntime>, m: Emission)
    requires m.Send? && Mirrors(b.aggregate.runtimes, ns) && DistinctNatives(ns)
    ensures var a, b' := b.aggregate, Emit(b, m);
            var e := SendEntry(a.root, m, a.nextAcceptance, a.nextQueue);
            var root := a.rootRuntime;
            && b'.aggregate == a.(nextAcceptance := a.nextAcceptance + 1, nextQueue := a.nextQueue + 1, runtimes := b'.aggregate.runtimes)
            && |b'.aggregate.runtimes| == |a.runtimes|
            && (Receives(ns, root, m.target) ==>
                  && b'.lifecycle == b.lifecycle
                  && b'.emitted == b.emitted + [ToMailbox(m.index, m.eventId, a.nextAcceptance, a.nextQueue)]
                  && forall p: nat :: p < |a.runtimes| ==> Receiving(a.runtimes[p], b'.aggregate.runtimes[p], m.target, e))
            && (!Receives(ns, root, m.target) ==>
                  && b'.aggregate.runtimes == a.runtimes
                  && b'.lifecycle == b.lifecycle + [Lifecycle(e, m.target, RefusalReason(ns, root, m.target))]
                  && b'.emitted == b.emitted + [ToDisposal(m.index, m.eventId, a.nextAcceptance, |b.lifecycle|)])
  {
    hide Find, NativeActive, NativeCompleted;
    var a := b.aggregate;
    MirrorsStatus(a.runtimes, ns, m.target);
    MirrorsStatus(a.runtimes, ns, a.rootRuntime);
    var i := Find(a.runtimes, m.target);
    if Receives(ns, a.rootRuntime, m.target) {
      forall p: nat | p < |a.runtimes| && p != i ensures a.runtimes[p].id != m.target {
        assert ns[p].id == a.runtimes[p].id && ns[i].id == a.runtimes[i].id;
      }
    }
  }

  /** The ready mailbox grows by `e` if the runtime is the target. */
  predicate Receiving(q: Runtime, r: Runtime, target: Text, e: Entry) {
    r == if q.id == target then q.(ready := q.ready + [e]) else q
  }

  /** `sends` are the entries of the sends to `id`, in the order of emission. */
  ghost predicate SentTo(a: Aggregate, ms: seq<Emission>, id: Text, sends: seq<Entry>) {
    exists at: seq<nat> :: SendsAt(a, ms, id, sends, at)
  }

  ghost predicate SendsAt(a: Aggregate, ms: seq<Emission>, id: Text, sends: seq<Entry>, at: seq<nat>) {
    Increasing(at) && SendEntries(a, ms, id, sends, at) && AllSends(ms, id, at)
  }

  predicate SendEntries(a: Aggregate, ms: seq<Emission>, id: Text, sends: seq<Entry>, at: seq<nat>) {
    && |at| == |sends|
    && (forall x :: 0 <= x < |at| ==> at[x] < |ms| && SendsTo(ms[at[x]], id) && sends[x] == EntryAt(a, ms, at[x]))
  }

  ghost predicate AllSends(ms: seq<Emission>, id: Text, at: seq<nat>) {
    forall k: nat :: k < |ms| && SendsTo(ms[k], id) ==> Occurs(k, at)
  }

  predicate SendsTo(m: Emission, id: Text) {
    m.Send? && m.target == id
  }

  lemma EntryEarlier(a: Aggregate, ms: seq<Emission>, k: nat)
    requires ms != [] && k < |ms| - 1 && ms[k].Send?
    ensures ms[..|ms| - 1][k] == ms[k] && EntryAt(a, ms[..|ms| - 1], k) == EntryAt(a, ms, k)
  {
    hide SendsIn;
    assert ms[..|ms| - 1][..k] == ms[..k];
  }

  lemma EntriesMore(a: Aggregate, ms: seq<Emission>, id: Text, sends: seq<Entry>, at: seq<nat>)
    requires ms != [] && SendEntries(a, ms[..|ms| - 1], id, sends, at)
    ensures SendEntries(a, ms, id, sends, at)
    ensures var last := |ms| - 1; SendsTo(ms[last], id) ==> SendEntries(a, ms, id, sends + [EntryAt(a, ms, last)], at + [last])
  {
    hide EntryAt;
    var last := |ms| - 1;
    forall x | 0 <= x < |at| ensures at[x] < last && SendsTo(ms[at[x]], id) && sends[x] == EntryAt(a, ms, at[x]) {
      assert ms[..last][at[x]] == ms[at[x]];
      EntryEarlier(a, ms, at[x]);
    }
  }

  lemma AllMore(ms: seq<Emission>, id: Text, at: seq<nat>)
    requires ms != [] && AllSends(ms[..|ms| - 1], id, at)
    ensures AllSends(ms, id, if SendsTo(ms[|ms| - 1], id) then at + [|ms| - 1] else at)
  {
    hide Occurs;
    var last := |ms| - 1;
    forall k: nat | k < |ms| && SendsTo(ms[k], id) ensures Occurs(k, if SendsTo(ms[last], id) then at + [last] else at) {
      OccursMore(k, at, last);
      assert k < last ==> ms[..last][k] == ms[k];
    }
  }

  lemma EntriesBound(a: Aggregate, ms: seq<Emission>, id: Text, sends: seq<Entry>, at: seq<nat>)
    requires SendEntries(a, ms, id, sends, at)
    ensures forall x :: 0 <= x < |at| ==> at[x] < |ms|
  {
    hide EntryAt;
  }

  lemma SendsMore(a: Aggregate, ms: seq<Emission>, id: Text, sends: seq<Entry>)
    requires ms != [] && SentTo(a, ms[..|ms| - 1], id, sends)
    ensures var last := |ms| - 1;
            SentTo(a, ms, id, if SendsTo(ms[last], id) then sends + [EntryAt(a, ms, last)] else sends)
  {
    hide EntryAt, SendEntries, AllSends, Increasing;
    var last := |ms| - 1;
    var at: seq<nat> :| SendsAt(a, ms[..last], id, sends, at);
    EntriesBound(a, ms[..last], id, sends, at);
    EntriesMore(a, ms, id, sends, at);
    AllMore(ms, id, at);
    if SendsTo(ms[last], id) {
      IncreasingMore(at, last);
      assert SendsAt(a, ms, id, sends + [EntryAt(a, ms, last)], at + [last]);
    } else {
      assert SendsAt(a, ms, id, sends, at);
    }
  }

  /** What the sends add to a runtime of `b`. */
  ghost predicate Grown(b: Build, ns: seq<NativeRuntime>, ms: seq<Emission>, q: Runtime, r: Runtime) {
    && r == q.(ready := r.ready)
    && q.ready <= r.ready
    && var sends := r.ready[|q.ready|..];
       if Receives(ns, b.aggregate.rootRuntime, q.id) then SentTo(b.aggregate, ms, q.id, sends) else sends == []
  }

  /** What is announced for the k-th emission. */
  ghost predicate AnnouncedAs(b: Build, ns: seq<NativeRuntime>, ms: seq<Emission>, k: nat, r: Emitted, lifecycle: seq<Lifecycle>)
    requires k < |ms|
  {
    var root := b.aggregate.rootRuntime;
    match ms[k]
    case External(index, intent) => r == ToOutbox(index, intent)
    case Send(index, eventId, _, _, _, target, _, _) =>
      var e := EntryAt(b.aggregate, ms, k);
      if Receives(ns, root, target) then r == ToMailbox(index, eventId, e.acceptance, e.queue)
      else
        var l := |b.lifecycle| + RefusedIn(ns, root, ms[..k]);
        && r == ToDisposal(index, eventId, e.acceptance, l)
        && l < |lifecycle| && lifecycle[l] == Lifecycle(e, target, RefusalReason(ns, root, target))
  }

  /** What appending the emissions `ms` makes of `b`. */
  ghost predicate Emits(b: Build, ns: seq<NativeRuntime>, ms: seq<Emission>, b': Build) {
    var a, a' := b.aggregate, b'.aggregate;
    && a' == a.(nextAcceptance := a.nextAcceptance + SendsIn(ms), nextQueue := a.nextQueue + SendsIn(ms), runtimes := a'.runtimes)
    && |a'.runtimes| == |a.runtimes|
    && (forall p: nat :: p < |a.runtimes| ==> Grown(b, ns, ms, a.runtimes[p], a'.runtimes[p]))
    && |b'.emitted| == |ms|
    && (forall k: nat :: k < |ms| ==> AnnouncedAs(b, ns, ms, k, b'.emitted[k], b'.lifecycle))
    && b.lifecycle <= b'.lifecycle && |b'.lifecycle| == |b.lifecycle| + RefusedIn(ns, a.rootRuntime, ms)
  }

  lemma GrownMirrors(b: Build, ns: seq<NativeRuntime>, ms: seq<Emission>, b': Build)
    requires Mirrors(b.aggregate.runtimes, ns) && Emits(b, ns, ms, b')
    ensures Mirrors(b'.aggregate.runtimes, ns)
  {
    hide AnnouncedAs, SentTo, Receives;
    forall p: nat | p < |ns| ensures b'.aggregate.runtimes[p].id == ns[p].id && b'.aggregate.runtimes[p].status == ns[p].status {
      assert Grown(b, ns, ms, b.aggregate.runtimes[p], b'.aggregate.runtimes[p]);
    }
  }

  lemma GrownMore(b: Build, ns: seq<NativeRuntime>, ms: seq<Emission>, q: Runtime, r: Runtime, r': Runtime)
    requires ms != [] && Grown(b, ns, ms[..|ms| - 1], q, r)
    requires var m := ms[|ms| - 1];
             if m.Send? && Receives(ns, b.aggregate.rootRuntime, m.target) then Receiving(r, r', m.target, EntryAt(b.aggregate, ms, |ms| - 1))
             else r' == r
    ensures Grown(b, ns, ms, q, r')
  {
    hide SentTo, EntryAt, Receives;
    var m := ms[|ms| - 1];
    var sends := r.ready[|q.ready|..];
    if Receives(ns, b.aggregate.rootRuntime, q.id) {
      SendsMore(b.aggregate, ms, q.id, sends);
    }
    assert r.ready == q.ready + sends;
    if r' != r {
      assert r'.ready == q.ready + (sends + [EntryAt(b.aggregate, ms, |ms| - 1)]);
    }
  }

  lemma AnnouncedMore(b: Build, ns: seq<NativeRuntime>, ms: seq<Emission>, k: nat, r: Emitted, lifecycle: seq<Lifecycle>, more: seq<Lifecycle>)
    requires ms != [] && k < |ms| - 1 && AnnouncedAs(b, ns, ms[..|ms| - 1], k, r, lifecycle) && lifecycle <= more
    ensures AnnouncedAs(b, ns, ms, k, r, more)
  {
    hide EntryAt, Receives, RefusedIn, RefusalReason;
    assert ms[..|ms| - 1][..k] == ms[..k] && ms[..|ms| - 1][k] == ms[k];
    if ms[k].Send? {
      EntryEarlier(b.aggregate, ms, k);
    }
  }

  lemma AnnouncedLast(b: Build, ns: seq<NativeRuntime>, ms: seq<Emission>, b': Build)
    requires ms != [] && Mirrors(b.aggregate.runtimes, ns) && DistinctNatives(ns) && Emits(b, ns, ms[..|ms| - 1], b')
    ensures var last, b'' := |ms| - 1, Emit(b', ms[|ms| - 1]);
            && |b''.emitted| == |ms| && b'.emitted <= b''.emitted && b'.lifecycle <= b''.lifecycle
            && AnnouncedAs(b, ns, ms, last, b''.emitted[last], b''.lifecycle)
            && |b''.lifecycle| == |b.lifecycle| + RefusedIn(ns, b.aggregate.rootRuntime, ms)
  {
    hide Grown, Receives, RefusalReason, Receiving, SendEnvelope;
    GrownMirrors(b, ns, ms[..|ms| - 1], b');
    if ms[|ms| - 1].Send? {
      hide Emit;
      EmitSendIs(b', ns, ms[|ms| - 1]);
    }
  }

  lemma RuntimesLast(b: Build, ns: seq<NativeRuntime>, ms: seq<Emission>, b': Build)
    requires ms != [] && Mirrors(b.aggregate.runtimes, ns) && DistinctNatives(ns) && Emits(b, ns, ms[..|ms| - 1], b')
    ensures var a, a', m := b.aggregate, Emit(b', ms[|ms| - 1]).aggregate, ms[|ms| - 1];
            && a' == a.(nextAcceptance := a.nextAcceptance + SendsIn(ms), nextQueue := a.nextQueue + SendsIn(ms), runtimes := a'.runtimes)
            && |a'.runtimes| == |a.runtimes|
            && (forall p: nat :: p < |a.runtimes| ==> Grown(b, ns, ms, a.runtimes[p], a'.runtimes[p]))
  {
    hide Grown, AnnouncedAs, Receives, RefusalReason, Receiving, SendEnvelope;
    GrownMirrors(b, ns, ms[..|ms| - 1], b');
    var a, m := b.aggregate, ms[|ms| - 1];
    var a' := Emit(b', m).aggregate;
    if m.Send? {
      EmitSendIs(b', ns, m);
    }
    forall p: nat | p < |a.runtimes| ensures Grown(b, ns, ms, a.runtimes[p], a'.runtimes[p]) {
      GrownMore(b, ns, ms, a.runtimes[p], b'.aggregate.runtimes[p], a'.runtimes[p]);
    }
  }

  lemma EmitsMore(b: Build, ns: seq<NativeRuntime>, ms: seq<Emission>, b': Build)
    requires ms != [] && Mirrors(b.aggregate.runtimes, ns) && DistinctNatives(ns) && Emits(b, ns, ms[..|ms| - 1], b')
    ensures Emits(b, ns, ms, Emit(b', ms[|ms| - 1]))
  {
    hide Grown, AnnouncedAs, Emit, SendsIn, RefusedIn, Mirrors, DistinctNatives;
    var last, b'' := |ms| - 1, Emit(b', ms[|ms| - 1]);
    AnnouncedLast(b, ns, ms, b');
    RuntimesLast(b, ns, ms, b');
    forall k: nat | k < |ms| ensures AnnouncedAs(b, ns, ms, k, b''.emitted[k], b''.lifecycle) {
      if k < last {
        assert b''.emitted[k] == b'.emitted[k];
        AnnouncedMore(b, ns, ms, k, b'.emitted[k], b'.lifecycle, b''.lifecycle);
      }
    }
  }

  lemma {:induction false} EmitAllIs(b: Build, ns: seq<NativeRuntime>, ms: seq<Emission>)
    requires Mirrors(b.aggregate.runtimes, ns) && DistinctNatives(ns) && b.emitted == []
    ensures Emits(b, ns, ms, EmitAll(b, ms))
  {
    hide Emits, Emit, Mirrors, DistinctNatives;
    if ms == [] {
      EmitsNothing(b, ns);
    } else {
      EmitAllIs(b, ns, ms[..|ms| - 1]);
      EmitsMore(b, ns, ms, EmitAll(b, ms[..|ms| - 1]));
    }
  }

  lemma EmitsNothing(b: Build, ns: seq<NativeRuntime>)
    requires b.emitted == []
    ensures Emits(b, ns, [], b)
  {
    forall p: nat | p < |b.aggregate.runtimes| ensures Grown(b, ns, [], b.aggregate.runtimes[p], b.aggregate.runtimes[p]) {
      var q := b.aggregate.runtimes[p];
      assert SendsAt(b.aggregate, [], q.id, [], []);
      assert q.ready[|q.ready|..] == [];
    }
  }

  // ------------------------------------------------------------------------------------------
  // Disposals
  // ------------------------------------------------------------------------------------------

  /** Why the entries of a removed runtime are disposed of. */
  function RemovalReason(over: bool, ms: seq<Emission>, id: Text): Reason {
    if over then AggregateCompleted
    else if exists k :: 0 <= k < |ms| && ms[k].Send? && ms[k].event == "determa.component_completed" && ms[k].emitter == id then RuntimeCompleted
    else RuntimeCancelled
  }

  /** The disposals of one runtime: all that waits in it if it is gone or everything is over, ready before deferred. */
  predicate DisposesBox(box: seq<Entry>, id: Text, ns: seq<NativeRuntime>, over: bool, ms: seq<Emission>, ls: seq<Lifecycle>) {
    if over || !IsNative(ns, id) then
      |ls| == |box| && forall x :: 0 <= x < |box| ==> ls[x] == Lifecycle(box[x], id, RemovalReason(over, ms, id))
    else ls == []
  }

  /** The disposals of the runtimes `rs`, one after the other; those of runtime `j` begin at `bounds[j]`. */
  predicate Disposes(rs: seq<Runtime>, ns: seq<NativeRuntime>, over: bool, ms: seq<Emission>, ls: seq<Lifecycle>, bounds: seq<nat>) {
    && |bounds| == |rs| + 1 && bounds[0] == 0 && bounds[|rs|] == |ls|
    && (forall j: nat :: j < |rs| ==> DisposesAt(rs[j], ns, over, ms, ls, bounds, j))
  }

  predicate DisposesAt(r: Runtime, ns: seq<NativeRuntime>, over: bool, ms: seq<Emission>, ls: seq<Lifecycle>, bounds: seq<nat>, j: nat) {
    && j + 1 < |bounds| && bounds[j] <= bounds[j + 1] <= |ls|
    && DisposesBox(r.ready + r.deferred, r.id, ns, over, ms, ls[bounds[j]..bounds[j + 1]])
  }

  lemma {:induction false} DisposeIs(box: seq<Entry>, id: Text, reason: Reason)
    ensures var ls := Dispose(box, id, reason);
            |ls| == |box| && forall x :: 0 <= x < |box| ==> ls[x] == Lifecycle(box[x], id, reason)
  {
    if box != [] {
      DisposeIs(box[1..], id, reason);
      assert forall x :: 0 < x < |box| ==> box[x] == box[1..][x - 1];
    }
  }

  /** The runtimes `next` are `prior` without the causal entry. */
  predicate Consumes(prior: seq<Runtime>, next: seq<Runtime>, causal: Text) {
    && |prior| == |next|
    && (forall j :: 0 <= j < |prior| ==>
          prior[j].id == next[j].id && Without(Box(prior[j]), causal) == Without(Box(next[j]), causal) == next[j].ready + next[j].deferred)
  }

  predicate CarriesBoxes(next: seq<Runtime>, merged: seq<Runtime>) {
    forall j, p :: 0 <= j < |next| && 0 <= p < |merged| && merged[p].id == next[j].id ==>
      merged[p].ready == next[j].ready && merged[p].deferred == next[j].deferred
  }

  function Shifted(bounds: seq<nat>, offset: nat): seq<nat> {
    [0] + seq(|bounds|, j requires 0 <= j < |bounds| => offset + bounds[j])
  }

  lemma DisposesShifted(r: Runtime, ns: seq<NativeRuntime>, over: bool, ms: seq<Emission>, first: seq<Lifecycle>, rest: seq<Lifecycle>, bounds: seq<nat>, j: nat)
    requires DisposesAt(r, ns, over, ms, rest, bounds, j)
    ensures DisposesAt(r, ns, over, ms, first + rest, Shifted(bounds, |first|), j + 1)
  {
    hide DisposesBox;
    var ls, bounds' := first + rest, Shifted(bounds, |first|);
    assert bounds'[j + 1] == |first| + bounds[j] && bounds'[j + 2] == |first| + bounds[j + 1];
    assert ls[bounds'[j + 1]..bounds'[j + 2]] == rest[bounds[j]..bounds[j + 1]];
  }

  lemma DisposesMore(r: Runtime, rs: seq<Runtime>, ns: seq<NativeRuntime>, over: bool, ms: seq<Emission>, first: seq<Lifecycle>, rest: seq<Lifecycle>, bounds: seq<nat>)
    requires DisposesBox(r.ready + r.deferred, r.id, ns, over, ms, first) && Disposes(rs, ns, over, ms, rest, bounds)
    ensures Disposes([r] + rs, ns, over, ms, first + rest, Shifted(bounds, |first|))
  {
    hide DisposesBox, DisposesAt;
    var all, ls, bounds' := [r] + rs, first + rest, Shifted(bounds, |first|);
    DisposesNow(r, ns, over, ms, first, rest, bounds);
    forall j: nat | j < |all| ensures DisposesAt(all[j], ns, over, ms, ls, bounds', j) {
      if j > 0 {
        assert all[j] == rs[j - 1];
        DisposesShifted(rs[j - 1], ns, over, ms, first, rest, bounds, j - 1);
      }
    }
  }

  lemma DisposesNow(r: Runtime, ns: seq<NativeRuntime>, over: bool, ms: seq<Emission>, first: seq<Lifecycle>, rest: seq<Lifecycle>, bounds: seq<nat>)
    requires DisposesBox(r.ready + r.deferred, r.id, ns, over, ms, first) && bounds != [] && bounds[0] == 0
    ensures DisposesAt(r, ns, over, ms, first + rest, Shifted(bounds, |first|), 0)
  {
    hide DisposesBox;
    assert (first + rest)[0..|first|] == first;
  }

  lemma {:induction false} DisposeRemovedIs(
    prior: seq<Runtime>, next: seq<Runtime>, merged: seq<Runtime>, ns: seq<NativeRuntime>, over: bool, ms: seq<Emission>, causal: Text)
    returns (bounds: seq<nat>)
    requires Consumes(prior, next, causal) && CarriesBoxes(next, merged) && Mirrors(merged, ns) && DistinctNatives(ns)
    ensures Disposes(next, ns, over, ms, DisposeRemoved(prior, merged, over, ms, causal), bounds)
  {
    hide DisposeRemoved, Mirrors, DistinctNatives, DisposesBox;
    if prior == [] {
      bounds := [0];
      NothingRemoved(merged, over, ms, causal);
    } else {
      hide Disposes;
      var rest := DisposeRemoved(prior[1..], merged, over, ms, causal);
      ConsumesRest(prior, next, merged, causal);
      var bounds' := DisposeRemovedIs(prior[1..], next[1..], merged, ns, over, ms, causal);
      var first := DisposedFirst(prior, next, merged, ns, over, ms, causal);
      assert next == [next[0]] + next[1..];
      DisposesMore(next[0], next[1..], ns, over, ms, first, rest, bounds');
      bounds := Shifted(bounds', |first|);
    }
  }

  lemma NothingRemoved(merged: seq<Runtime>, over: bool, ms: seq<Emission>, causal: Text)
    ensures DisposeRemoved([], merged, over, ms, causal) == []
  {
  }

  lemma ConsumesRest(prior: seq<Runtime>, next: seq<Runtime>, merged: seq<Runtime>, causal: Text)
    requires prior != [] && Consumes(prior, next, causal) && CarriesBoxes(next, merged)
    ensures Consumes(prior[1..], next[1..], causal) && CarriesBoxes(next[1..], merged)
  {
    hide Without;
  }

  lemma DisposedFirst(
    prior: seq<Runtime>, next: seq<Runtime>, merged: seq<Runtime>, ns: seq<NativeRuntime>, over: bool, ms: seq<Emission>, causal: Text)
    returns (first: seq<Lifecycle>)
    requires prior != [] && Consumes(prior, next, causal) && CarriesBoxes(next, merged) && Mirrors(merged, ns) && DistinctNatives(ns)
    ensures DisposeRemoved(prior, merged, over, ms, causal) == first + DisposeRemoved(prior[1..], merged, over, ms, causal)
    ensures DisposesBox(next[0].ready + next[0].deferred, next[0].id, ns, over, ms, first)
  {
    hide Find, Without, Dispose, IsNative;
    MirrorsStatus(merged, ns, prior[0].id);
    var i := Find(merged, prior[0].id);
    assert IsNative(ns, prior[0].id) <==> i < |merged| by {
      assert i < |merged| ==> IsRuntime(merged, prior[0].id);
    }
    if i < |merged| && !over {
      first := [];
    } else {
      var box := next[0].ready + next[0].deferred;
      first := Dispose(box, prior[0].id, RemovalReason(over, ms, prior[0].id));
      DisposeIs(box, prior[0].id, RemovalReason(over, ms, prior[0].id));
      assert i < |merged| ==> Box(merged[i]) == Box(next[0]);
    }
  }

  // ------------------------------------------------------------------------------------------
  // The whole step
  // ------------------------------------------------------------------------------------------

  predicate NativeRunning(ns: seq<NativeRuntime>, id: Text) {
    exists p :: 0 <= p < |ns| && ns[p].id == id && ns[p].status.Running?
  }

  /** Deferred events are recalled exactly by a step that handled its event while the root runs on. */
  predicate Recalling(a: Aggregate, n: Native) {
    n.disposition.Handled? && NativeRunning(n.runtimes, a.rootRuntime)
  }

  /** The mailboxes that runtime `id` had before the step on runtime `i`, without the causal entry. */
  ghost predicate Had(a: Aggregate, i: nat, id: Text, ready: seq<Entry>, deferred: seq<Entry>) {
    if IsRuntime(a.runtimes, id) then exists j: nat :: HadAt(a, i, j, id, ready, deferred)
    else ready == [] && deferred == []
  }

  predicate HadAt(a: Aggregate, i: nat, j: nat, id: Text, ready: seq<Entry>, deferred: seq<Entry>) {
    && j < |a.runtimes| && a.runtimes[j].id == id && deferred == a.runtimes[j].deferred
    && (if j == i then a.runtimes[j].ready != [] && ready == a.runtimes[j].ready[1..] else ready == a.runtimes[j].ready)
  }

  /** First what was ready, then the sends, then the recalled entries from queue number `base` on. */
  ghost predicate MailboxAfter(a: Aggregate, n: Native, m: NativeRuntime, ready: seq<Entry>, deferred: seq<Entry>, r: Runtime, base: nat, next: nat) {
    exists sends: seq<Entry>, back: seq<Entry> ::
      && r.ready == ready + sends + back && next == base + |back|
      && SendsAfter(a, n, m, sends)
      && DeferredAfter(a, n, m, deferred, back, r.deferred, base)
  }

  ghost predicate SendsAfter(a: Aggregate, n: Native, m: NativeRuntime, sends: seq<Entry>) {
    if m.status.Completed? then sends == [] else SentTo(a, n.emissions, m.id, sends)
  }

  ghost predicate DeferredAfter(a: Aggregate, n: Native, m: NativeRuntime, deferred: seq<Entry>, back: seq<Entry>, rest: seq<Entry>, base: nat) {
    if Recalling(a, n) && m.status.Running? then IsRecalled(deferred, m.recalls, base, back) && IsLeft(deferred, m.recalls, rest)
    else back == [] && rest == deferred
  }

  /** Runtime `r` after the step, of which the dispatcher reports `m`. */
  ghost predicate RuntimeAfter(a: Aggregate, i: nat, n: Native, m: NativeRuntime, r: Runtime, base: nat, next: nat) {
    && r.id == m.id && r.status == m.status && r.body == m.body
    && (if NativeCompleted(n.runtimes, a.rootRuntime) then r.ready == [] && r.deferred == [] && next == base
        else exists ready, deferred :: Had(a, i, m.id, ready, deferred) && MailboxAfter(a, n, m, ready, deferred, r, base, next))
  }

  /** The aggregate after a step on runtime `i`; `numbers[p]` is the first queue number for what runtime `p` recalls. */
  ghost predicate StateAfter(a: Aggregate, i: nat, n: Native, state: Aggregate, numbers: seq<nat>) {
    var sends := SendsIn(n.emissions);
    && state == a.(nextAcceptance := a.nextAcceptance + sends, nextQueue := state.nextQueue,
                   nextOutput := n.nextOutput, nextStep := n.nextStep, runtimes := state.runtimes)
    && |state.runtimes| == |n.runtimes| && |numbers| == |n.runtimes| + 1
    && numbers[0] == a.nextQueue + sends && numbers[|n.runtimes|] == state.nextQueue
    && (forall p: nat :: p < |n.runtimes| ==> RuntimeAfter(a, i, n, n.runtimes[p], state.runtimes[p], numbers[p], numbers[p + 1]))
  }

  /** The first `gone` disposals are of removed runtimes, all others of sends without a receiver. */
  ghost predicate ReportAfter(a: Aggregate, i: nat, n: Native, emitted: seq<Emitted>, lifecycle: seq<Lifecycle>, gone: nat, bounds: seq<nat>)
    requires Runnable(a, i)
  {
    && gone <= |lifecycle|
    && Disposes(RemoveHead(a.runtimes, i), n.runtimes, NativeCompleted(n.runtimes, a.rootRuntime), n.emissions, lifecycle[..gone], bounds)
    && |lifecycle| == gone + RefusedIn(n.runtimes, a.rootRuntime, n.emissions)
    && |emitted| == |n.emissions|
    && (forall k: nat :: k < |n.emissions| ==>
          AnnouncedAs(Build(a, lifecycle[..gone], []), n.runtimes, n.emissions, k, emitted[k], lifecycle))
  }

  lemma ConsumesHead(a: Aggregate, i: nat)
    requires Ready(a) && Runnable(a, i)
    ensures Consumes(a.runtimes, RemoveHead(a.runtimes, i), a.runtimes[i].ready[0].Id())
  {
    hide MailOf, Without, BoxesOk, Distinct;
    var rs, next, id := a.runtimes, RemoveHead(a.runtimes, i), a.runtimes[i].ready[0].Id();
    ReadyDistinct(a);
    forall j | 0 <= j < |rs| ensures Without(Box(rs[j]), id) == Without(Box(next[j]), id) == next[j].ready + next[j].deferred {
      HeadAbsent(rs, i, j);
      ConsumedAt(rs[j], next[j], id);
      ConsumedAt(next[j], next[j], id);
    }
  }

  /** The runtimes as carried over, before anything is sent. */
  lemma CarriedIs(a: Aggregate, i: nat, n: Native)
    requires Ready(a) && Runnable(a, i) && DistinctNatives(n.runtimes)
    ensures var b, over := Carried(a, i, n), NativeCompleted(n.runtimes, a.rootRuntime);
            && b.emitted == []
            && b.aggregate == a.(nextOutput := n.nextOutput, nextStep := n.nextStep, runtimes := b.aggregate.runtimes)
            && |b.aggregate.runtimes| == |n.runtimes|
            && (forall p: nat :: p < |n.runtimes| ==> CarriedRuntime(a, i, over, n.runtimes[p], b.aggregate.runtimes[p]))
  {
    hide Merge, Empty, Carried, DisposeRemoved, StatusOf, RemoveHead, Ready;
    var next := RemoveHead(a.runtimes, i);
    var merged := Merge(next, n.runtimes);
    var b := Carried(a, i, n);
    CarriedEq(a, i, n);
    EmptyMail(merged);
    MergeMirrors(next, n.runtimes);
    MirrorsStatus(merged, n.runtimes, a.rootRuntime);
    forall p: nat | p < |n.runtimes| ensures CarriedRuntime(a, i, NativeCompleted(n.runtimes, a.rootRuntime), n.runtimes[p], b.aggregate.runtimes[p]) {
      MergeAt(next, n.runtimes);
      CarryHad(a, i, n.runtimes[p]);
    }
  }

  /** A runtime with the mailboxes it had, or with none if everything is over. */
  ghost predicate CarriedRuntime(a: Aggregate, i: nat, over: bool, m: NativeRuntime, r: Runtime) {
    && r.id == m.id && r.status == m.status && r.body == m.body
    && (if over then r.ready == [] && r.deferred == [] else Had(a, i, m.id, r.ready, r.deferred))
  }

  lemma CarryHad(a: Aggregate, i: nat, m: NativeRuntime)
    requires Runnable(a, i)
    ensures var r := Carry(RemoveHead(a.runtimes, i), m); r.id == m.id && r.status == m.status && r.body == m.body && Had(a, i, m.id, r.ready, r.deferred)
  {
    var next := RemoveHead(a.runtimes, i);
    var r := Carry(next, m);
    var j := Find(next, m.id);
    SameIds(a.runtimes, next, m.id);
    if j < |next| {
      assert HadAt(a, i, j, m.id, r.ready, r.deferred);
    }
  }

  lemma SameIds(rs: seq<Runtime>, ss: seq<Runtime>, id: Text)
    requires |rs| == |ss| && forall j :: 0 <= j < |rs| ==> rs[j].id == ss[j].id
    ensures IsRuntime(rs, id) <==> IsRuntime(ss, id)
  {
  }

  lemma CarriedDisposals(a: Aggregate, i: nat, n: Native) returns (bounds: seq<nat>)
    requires Ready(a) && Runnable(a, i) && DistinctNatives(n.runtimes)
    ensures Disposes(RemoveHead(a.runtimes, i), n.runtimes, NativeCompleted(n.runtimes, a.rootRuntime), n.emissions, Carried(a, i, n).lifecycle, bounds)
  {
    hide Merge, Empty, Carried, DisposeRemoved, StatusOf, RemoveHead, Ready, Disposes, BoxesOk;
    var next := RemoveHead(a.runtimes, i);
    var merged := Merge(next, n.runtimes);
    CarriedEq(a, i, n);
    RemovedBoxes(a, i);
    RemovedLength(a, i);
    MergedBoxes(a.root, next, n.runtimes);
    MergeMirrors(next, n.runtimes);
    MirrorsStatus(merged, n.runtimes, a.rootRuntime);
    ConsumesHead(a, i);
    bounds := DisposeRemovedIs(a.runtimes, next, merged, n.runtimes, NativeCompleted(n.runtimes, a.rootRuntime), n.emissions, a.runtimes[i].ready[0].Id());
  }

  // What is sent depends on the root and on both counters alone.

  predicate SameCounters(a: Aggregate, b: Aggregate) {
    a.root == b.root && a.rootRuntime == b.rootRuntime && a.nextAcceptance == b.nextAcceptance && a.nextQueue == b.nextQueue
  }

  lemma SentSame(a: Aggregate, b: Aggregate, ms: seq<Emission>, id: Text, sends: seq<Entry>)
    requires SameCounters(a, b) && SentTo(b, ms, id, sends)
    ensures SentTo(a, ms, id, sends)
  {
    hide SendsIn, SendEnvelope, AllSends, Increasing;
    var at: seq<nat> :| SendsAt(b, ms, id, sends, at);
    assert SendsAt(a, ms, id, sends, at);
  }

  lemma AnnouncedSame(a: Aggregate, b: Build, ns: seq<NativeRuntime>, ms: seq<Emission>, k: nat, r: Emitted, lifecycle: seq<Lifecycle>)
    requires k < |ms| && SameCounters(a, b.aggregate) && AnnouncedAs(b, ns, ms, k, r, lifecycle)
    ensures AnnouncedAs(Build(a, b.lifecycle, []), ns, ms, k, r, lifecycle)
  {
    hide SendsIn, RefusedIn, SendEnvelope, Receives, RefusalReason;
  }

  /** One runtime through all three stages. */
  lemma RuntimeStages(a: Aggregate, i: nat, n: Native, b: Build, m: NativeRuntime, q: Runtime, s: Runtime, r: Runtime, base: nat, next: nat)
    requires SameCounters(a, b.aggregate) && m in n.runtimes
    requires CarriedRuntime(a, i, NativeCompleted(n.runtimes, a.rootRuntime), m, q)
    requires Grown(b, n.runtimes, n.emissions, q, s) && DistinctNatives(n.runtimes)
    requires if Recalling(a, n) then RecallsRuntime(s, r, m.recalls, base, next) else r == s && next == base
    ensures RuntimeAfter(a, i, n, m, r, base, next)
  {
    hide SentTo, IsRecalled, IsLeft, Had;
    var p :| 0 <= p < |n.runtimes| && n.runtimes[p] == m;
    var over := NativeCompleted(n.runtimes, a.rootRuntime);
    assert over ==> !NativeRunning(n.runtimes, a.rootRuntime);
    assert NativeActive(n.runtimes, m.id) <==> !m.status.Completed?;
    var sends, back := s.ready[|q.ready|..], r.ready[|s.ready|..];
    if Receives(n.runtimes, a.rootRuntime, q.id) {
      SentSame(a, b.aggregate, n.emissions, m.id, sends);
    }
    if !over {
      assert r.ready == q.ready + sends + back;
      assert SendsAfter(a, n, m, sends) && DeferredAfter(a, n, m, q.deferred, back, r.deferred, base);
      assert MailboxAfter(a, n, m, q.ready, q.deferred, r, base, next);
    }
  }

  lemma RunningRoot(a: Aggregate, n: Native, rs: seq<Runtime>)
    requires Mirrors(rs, n.runtimes) && DistinctNatives(n.runtimes)
    ensures StatusOf(rs, a.rootRuntime) == Some(Running) <==> NativeRunning(n.runtimes, a.rootRuntime)
  {
    hide Find;
    var i := Find(rs, a.rootRuntime);
    if p :| 0 <= p < |n.runtimes| && n.runtimes[p].id == a.rootRuntime && n.runtimes[p].status.Running? {
      assert rs[p].id == a.rootRuntime && IsRuntime(rs, a.rootRuntime);
      assert n.runtimes[i].id == rs[i].id;
    }
    if i < |rs| {
      assert n.runtimes[i].id == rs[i].id && n.runtimes[i].status == rs[i].status;
    }
  }

  /** The recalling stage of a step, or nothing. */
  lemma FinishRecalls(a: Aggregate, i: nat, n: Native, built: Aggregate) returns (numbers: seq<nat>)
    requires Ready(a) && Runnable(a, i) && DistinctNatives(n.runtimes)
    requires built == EmitAll(Carried(a, i, n), n.emissions).aggregate && |built.runtimes| == |n.runtimes|
    ensures var state := Finish(a, i, n).state;
            && |numbers| == |n.runtimes| + 1 && numbers[0] == built.nextQueue && numbers[|n.runtimes|] == state.nextQueue
            && |state.runtimes| == |n.runtimes| && state == built.(nextQueue := state.nextQueue, runtimes := state.runtimes)
            && forall p: nat :: p < |n.runtimes| ==>
                 if Recalling(a, n) then RecallsRuntime(built.runtimes[p], state.runtimes[p], n.runtimes[p].recalls, numbers[p], numbers[p + 1])
                 else state.runtimes[p] == built.runtimes[p] && numbers[p + 1] == numbers[p]
  {
    hide Carried, EmitAll, Recall, RecallsRuntime, Ready, Mirrors, NativeRunning, StatusOf;
    CarriedMirrors(a, i, n);
    RunningRoot(a, n, Carried(a, i, n).aggregate.runtimes);
    if Recalling(a, n) {
      numbers := RecallIs(built, n.runtimes, |n.runtimes|);
    } else {
      numbers := seq(|n.runtimes| + 1, p => built.nextQueue);
    }
  }

  /** Everything that a dispatched step answers. */
  lemma FinishAnswer(a: Aggregate, i: nat, n: Native) returns (numbers: seq<nat>, gone: nat, bounds: seq<nat>)
    requires Ready(a) && Runnable(a, i) && DistinctNatives(n.runtimes)
    ensures var r := Finish(a, i, n);
            && r.Committed? && r.disposition == n.disposition
            && StateAfter(a, i, n, r.state, numbers)
            && ReportAfter(a, i, n, r.emitted, r.lifecycle, gone, bounds)
  {
    hide Carried, EmitAll, Finish, Ready, Mirrors, SendsIn, RefusedIn, Disposes, RemoveHead, Grown, AnnouncedAs, RecallsRuntime;
    hide CarriedRuntime, RuntimeAfter, NativeCompleted, Recalling, DistinctNatives;
    var b := Carried(a, i, n);
    var built := EmitAll(b, n.emissions);
    FinishEq(a, i, n);
    CarriedIs(a, i, n);
    CarriedMirrors(a, i, n);
    EmitAllIs(b, n.runtimes, n.emissions);
    bounds := CarriedDisposals(a, i, n);
    gone := |b.lifecycle|;
    numbers := FinishRecalls(a, i, n, built.aggregate);
    var r := Finish(a, i, n);
    assert r.lifecycle[..gone] == b.lifecycle;
    forall p: nat | p < |n.runtimes| ensures RuntimeAfter(a, i, n, n.runtimes[p], r.state.runtimes[p], numbers[p], numbers[p + 1]) {
      RuntimeStages(a, i, n, b, n.runtimes[p], b.aggregate.runtimes[p], built.aggregate.runtimes[p], r.state.runtimes[p], numbers[p], numbers[p + 1]);
    }
    forall k: nat | k < |n.emissions| ensures AnnouncedAs(Build(a, b.lifecycle, []), n.runtimes, n.emissions, k, r.emitted[k], r.lifecycle) {
      AnnouncedSame(a, b, n.runtimes, n.emissions, k, r.emitted[k], r.lifecycle);
    }
  }

  /** Runtime `i` is the running target, and the root has not faulted. */
  predicate CanRun(a: Aggregate, target: Text, i: nat) {
    && i < |a.runtimes| && a.runtimes[i].id == target && a.runtimes[i].status.Running?
    && !exists j :: 0 <= j < |a.runtimes| && a.runtimes[j].id == a.rootRuntime && a.runtimes[j].status.Faulted?
  }

  /** The event is deferred and its runtime can take another deferred one. */
  predicate Fits(dispatch: Dispatch, r: Runtime) {
    dispatch.Defer? && (dispatch.capacity.Some? ==> |r.deferred| < dispatch.capacity.value)
  }

  /** The head of runtime `i` went to the end of its deferred mailbox under the next queue number. */
  predicate HeadDeferred(a: Aggregate, i: nat, state: Aggregate)
    requires Runnable(a, i)
  {
    var r, head := a.runtimes[i], a.runtimes[i].ready[0];
    && state == a.(nextQueue := a.nextQueue + 1, runtimes := state.runtimes)
    && |state.runtimes| == |a.runtimes|
    && (forall j :: 0 <= j < |a.runtimes| && j != i ==> state.runtimes[j] == a.runtimes[j])
    && state.runtimes[i] == r.(ready := r.ready[1..], deferred := r.deferred + [head.(queue := a.nextQueue, deferrals := head.deferrals + 1)])
  }

  lemma FaultedRoot(a: Aggregate)
    requires DistinctRuntimes(a.runtimes)
    ensures StatusOf(a.runtimes, a.rootRuntime) == Some(Faulted)
       <==> exists j :: 0 <= j < |a.runtimes| && a.runtimes[j].id == a.rootRuntime && a.runtimes[j].status.Faulted?
  {
    hide Find;
    if j :| 0 <= j < |a.runtimes| && a.runtimes[j].id == a.rootRuntime && a.runtimes[j].status.Faulted? {
      FindUnique(a.runtimes, j);
    }
  }

  lemma FindTarget(a: Aggregate, target: Text, i: nat)
    requires DistinctRuntimes(a.runtimes)
    ensures i < |a.runtimes| && a.runtimes[i].id == target ==> Find(a.runtimes, target) == i
  {
    if i < |a.runtimes| && a.runtimes[i].id == target {
      FindUnique(a.runtimes, i);
    }
  }

  /** Which of its answers a step gives. */
  lemma StepDecides(a: Aggregate, target: Text, dispatch: Dispatch, i: nat)
    requires DistinctRuntimes(a.runtimes)
    ensures Step(a, target, dispatch).Rejected? <==> forall j: nat :: !CanRun(a, target, j)
    ensures CanRun(a, target, i) ==>
              var r := Step(a, target, dispatch);
              && (r.NotRunnable? <==> a.runtimes[i].ready == [])
              && (a.runtimes[i].ready != [] && Fits(dispatch, a.runtimes[i]) ==> r.Deferred? && HeadDeferred(a, i, r.state))
              && (a.runtimes[i].ready != [] && !Fits(dispatch, a.runtimes[i]) ==> r == Finish(a, i, Reported(dispatch)))
  {
    hide Find, Finish, DistinctRuntimes, Carried, EmitAll, Recall;
    var k := Find(a.runtimes, target);
    FaultedRoot(a);
    FindTarget(a, target, i);
    if Runnable(a, k) {
      FinishEq(a, k, Reported(dispatch));
    }
    if !Step(a, target, dispatch).Rejected? {
      assert CanRun(a, target, k);
    }
    forall j: nat | CanRun(a, target, j) ensures !Step(a, target, dispatch).Rejected? {
      FindTarget(a, target, j);
    }
  }

  /**
   A step on the ready head of a running runtime. The disposition is the reported one, and that of an
   overflowing deferral is its fault.
   */
  lemma StepFinishes(a: Aggregate, target: Text, dispatch: Dispatch, i: nat) returns (numbers: seq<nat>, gone: nat, bounds: seq<nat>)
    requires Ready(a) && CanRun(a, target, i) && a.runtimes[i].ready != []
    requires !Fits(dispatch, a.runtimes[i]) && DistinctNatives(Reported(dispatch).runtimes)
    ensures var r, n := Step(a, target, dispatch), Reported(dispatch);
            && r.Committed?
            && r.disposition == (if dispatch.Defer? then FaultedWith(dispatch.fault) else dispatch.native.disposition)
            && StateAfter(a, i, n, r.state, numbers)
            && ReportAfter(a, i, n, r.emitted, r.lifecycle, gone, bounds)
  {
    hide Step, Finish, MailboxesOk, StateAfter, ReportAfter;
    StepDecides(a, target, dispatch, i);
    numbers, gone, bounds := FinishAnswer(a, i, Reported(dispatch));
  }

  /** Only a handled event recalls deferred ones, and only while the root runs: otherwise every deferred mailbox stays. */
  lemma NoRecall(a: Aggregate, i: nat, n: Native, state: Aggregate, numbers: seq<nat>, j: nat, p: nat)
    requires DistinctRuntimes(a.runtimes) && StateAfter(a, i, n, state, numbers)
    requires !n.disposition.Handled? && !NativeCompleted(n.runtimes, a.rootRuntime)
    requires j < |a.runtimes| && p < |n.runtimes| && n.runtimes[p].id == a.runtimes[j].id
    ensures state.runtimes[p].deferred == a.runtimes[j].deferred
  {
    hide SentTo, IsRecalled, IsLeft, SendsIn, NativeCompleted;
    var m, r := n.runtimes[p], state.runtimes[p];
    assert RuntimeAfter(a, i, n, m, r, numbers[p], numbers[p + 1]);
    var ready, deferred :| Had(a, i, m.id, ready, deferred) && MailboxAfter(a, n, m, ready, deferred, r, numbers[p], numbers[p + 1]);
    assert IsRuntime(a.runtimes, m.id);
    var j': nat :| HadAt(a, i, j', m.id, ready, deferred);
    assert j' == j;
  }
}
