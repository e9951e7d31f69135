/**
 What admission answers: exactly when it takes the unknown deliveries of a batch, where they go and under
 which numbers, and which failure every unmet condition gives.
 */
module AdmitAnswers {
  import opened Wrappers
  import opened Sequences
  import opened CheckpointModel
  import opened CheckpointValidity
  import opened WireCore
  import opened WireCoreProofs
  import opened AdmissionProofs
  import opened CheckpointOps
  import opened IdentityProofs
  import opened EvidenceProofs
  import opened AdmitTheorem

  // ------------------------------------------------------------------------------------------
  // The deliveries that are new
  // ------------------------------------------------------------------------------------------

  /** `at` lists, in order, the positions of the deliveries of which the checkpoint knows nothing. */
  ghost predicate Unseen(cp: Checkpoint, ds: seq<Delivery>, at: seq<nat>) {
    && Increasing(at)
    && (forall x :: 0 <= x < |at| ==> IsUnseen(cp, ds, at[x]))
    && (forall k: nat :: IsUnseen(cp, ds, k) ==> Occurs(k, at))
  }

  ghost predicate IsUnseen(cp: Checkpoint, ds: seq<Delivery>, k: nat) {
    k < |ds| && !Known(cp, ds[k].envelope.eventId)
  }

  /** `some` are the deliveries at the positions `at`. */
  predicate Picks(ds: seq<Delivery>, at: seq<nat>, some: seq<Delivery>) {
    |at| == |some| && forall x :: 0 <= x < |at| ==> at[x] < |ds| && some[x] == ds[at[x]]
  }

  lemma UnseenMore(cp: Checkpoint, ds: seq<Delivery>, at: seq<nat>)
    requires ds != [] && Unseen(cp, ds[..|ds| - 1], at)
    ensures var last := |ds| - 1; Unseen(cp, ds, if IsUnseen(cp, ds, last) then at + [last] else at)
  {
    hide Known, Occurs;
    var last := |ds| - 1;
    var init, at' := ds[..last], if IsUnseen(cp, ds, last) then at + [last] else at;
    assert forall k: nat :: k < last ==> init[k] == ds[k];
    assert forall k: nat :: k < last ==> (IsUnseen(cp, init, k) <==> IsUnseen(cp, ds, k));
    IncreasingMore(at, last);
    forall k: nat | IsUnseen(cp, ds, k) ensures Occurs(k, at') {
      OccursMore(k, at, last);
    }
  }

  lemma PicksMore(ds: seq<Delivery>, at: seq<nat>, some: seq<Delivery>)
    requires ds != [] && Picks(ds[..|ds| - 1], at, some)
    ensures var last := |ds| - 1; Picks(ds, at, some) && Picks(ds, at + [last], some + [ds[last]])
  {
  }

  /** There are `x` unknown deliveries before the x-th one. */
  predicate Counts(known: map<Text, Identity>, ds: seq<Delivery>, at: seq<nat>) {
    forall x :: 0 <= x < |at| ==> at[x] < |ds| && |Unknown(known, ds[..at[x]])| == x
  }

  lemma CountsMore(known: map<Text, Identity>, ds: seq<Delivery>, at: seq<nat>)
    requires ds != [] && Counts(known, ds[..|ds| - 1], at) && Picks(ds[..|ds| - 1], at, Unknown(known, ds[..|ds| - 1]))
    ensures var last := |ds| - 1; Counts(known, ds, at) && Counts(known, ds, at + [last])
  {
    hide Unknown;
    var last := |ds| - 1;
    forall x | 0 <= x < |at| ensures at[x] < last && |Unknown(known, ds[..at[x]])| == x {
      assert ds[..last][..at[x]] == ds[..at[x]];
    }
  }

  lemma {:induction false} UnknownIs(cp: Checkpoint, ds: seq<Delivery>) returns (at: seq<nat>)
    ensures Unseen(cp, ds, at) && Picks(ds, at, Unknown(RetainedIdentity(cp), ds)) && Counts(RetainedIdentity(cp), ds, at)
  {
    hide RetainedIdentity, Known;
    var known := RetainedIdentity(cp);
    if ds == [] {
      at := [];
    } else {
      hide Unseen, Picks, Counts;
      var last := |ds| - 1;
      var before := UnknownIs(cp, ds[..last]);
      KnownIff(cp, ds[last].envelope.eventId);
      UnseenMore(cp, ds, before);
      PicksMore(ds, before, Unknown(known, ds[..last]));
      CountsMore(known, ds, before);
      at := if IsUnseen(cp, ds, last) then before + [last] else before;
    }
  }

  // ------------------------------------------------------------------------------------------
  // What core admission asks of a delivery
  // ------------------------------------------------------------------------------------------

  /** The host sends input in its own name; a retained runtime or the engine sends everything else. */
  predicate MaySend(a: Aggregate, d: Delivery) {
    var source := d.envelope.source;
    if d.mode.Input? then source.HostSource? && d.envelope.causeId == d.envelope.eventId
    else
      || (source.RuntimeSource? && source.origin.root == a.root && IsRuntime(a.runtimes, source.origin.runtime))
      || (source.SystemSource? && LocatorMatches(source.locator, d.envelope.event))
  }

  /** All four conditions: source, target, definition and digest. */
  predicate Admissible(a: Aggregate, d: Delivery, accepts: Envelope -> bool) {
    && MaySend(a, d)
    && IsRuntime(a.runtimes, d.envelope.target.runtime)
    && accepts(d.envelope)
    && d.digest == EnvelopeDigest(a.root, d.mode, d.envelope)
  }

  lemma MaySendIff(a: Aggregate, d: Delivery)
    ensures SourceAllowed(a, d) <==> MaySend(a, d)
    ensures Targeted(a, d) <==> IsRuntime(a.runtimes, d.envelope.target.runtime)
  {
    var source := d.envelope.source;
    if source.RuntimeSource? && source.origin.root == a.root && IsRuntime(a.runtimes, source.origin.runtime) {
      var i :| 0 <= i < |a.runtimes| && a.runtimes[i].id == source.origin.runtime;
      assert source.origin == Target(a.root, a.runtimes[i].id);
    }
    if Targeted(a, d) {
      assert a.runtimes[Find(a.runtimes, d.envelope.target.runtime)].id == d.envelope.target.runtime;
    }
  }

  /** What core admission answers: the first of the four conditions that some delivery misses decides. */
  lemma CoreAdmitAnswer(a: Aggregate, ds: seq<Delivery>, accepts: Envelope -> bool)
    ensures var r := CoreAdmit(a, ds, accepts);
            && (r.Ok? <==> forall d :: d in ds ==> Admissible(a, d, accepts))
            && (r == Err(InvalidDeliverySource) <==> exists d :: d in ds && !MaySend(a, d))
            && (r == Err(InvalidInstanceTarget) <==>
                  (forall d :: d in ds ==> MaySend(a, d)) && exists d :: d in ds && !IsRuntime(a.runtimes, d.envelope.target.runtime))
            && (r == Err(InvalidDelivery) <==>
                  && (forall d :: d in ds ==> MaySend(a, d) && IsRuntime(a.runtimes, d.envelope.target.runtime))
                  && exists d :: d in ds && !accepts(d.envelope))
            && (r == Err(DeliveryDigestMismatch) <==>
                  && (forall d :: d in ds ==> MaySend(a, d) && IsRuntime(a.runtimes, d.envelope.target.runtime) && accepts(d.envelope))
                  && exists d :: d in ds && !Admissible(a, d, accepts))
  {
    hide SourceAllowed, Targeted, MaySend, IsRuntime, EnqueueAll;
    forall d ensures SourceAllowed(a, d) <==> MaySend(a, d)
             ensures Targeted(a, d) <==> IsRuntime(a.runtimes, d.envelope.target.runtime) {
      MaySendIff(a, d);
    }
    assert forall k :: 0 <= k < |ds| ==> ds[k] in ds;
  }

  // ------------------------------------------------------------------------------------------
  // Where the deliveries go
  // ------------------------------------------------------------------------------------------

  /** `new` are the entries of the deliveries to `id`, in order: the k-th delivery takes the k-th free number of each kind. */
  ghost predicate DeliveredTo(a: Aggregate, ds: seq<Delivery>, id: Text, more: seq<Entry>) {
    exists at: seq<nat> :: DeliveredAt(a, ds, id, more, at)
  }

  ghost predicate DeliveredAt(a: Aggregate, ds: seq<Delivery>, id: Text, more: seq<Entry>, at: seq<nat>) {
    Increasing(at) && DeliveryEntries(a, ds, id, more, at) && AllDelivered(ds, id, at)
  }

  predicate DeliveryEntries(a: Aggregate, ds: seq<Delivery>, id: Text, more: seq<Entry>, at: seq<nat>) {
    |at| == |more| && forall x :: 0 <= x < |at| ==> at[x] < |ds| && GoesTo(ds[at[x]], id) && more[x] == EntryFor(a, ds[at[x]], at[x])
  }

  ghost predicate AllDelivered(ds: seq<Delivery>, id: Text, at: seq<nat>) {
    forall k: nat :: k < |ds| && GoesTo(ds[k], id) ==> Occurs(k, at)
  }

  predicate GoesTo(d: Delivery, id: Text) {
    d.envelope.target.runtime == id
  }

  /** The entry of the k-th delivery. */
  function EntryFor(a: Aggregate, d: Delivery, k: nat): Entry {
    Entry(a.nextAcceptance + k, a.nextQueue + k, d.mode, d.envelope, d.digest, 0)
  }

  /** The ready mailbox of every runtime grows by the deliveries to it, and nothing else changes. */
  ghost predicate Enqueues(a: Aggregate, ds: seq<Delivery>, b: Aggregate) {
    && b == a.(nextAcceptance := a.nextAcceptance + |ds|, nextQueue := a.nextQueue + |ds|, runtimes := b.runtimes)
    && |b.runtimes| == |a.runtimes|
    && (forall p: nat :: p < |a.runtimes| ==> EnqueuesAt(a, ds, a.runtimes[p], b.runtimes[p]))
  }

  ghost predicate EnqueuesAt(a: Aggregate, ds: seq<Delivery>, q: Runtime, r: Runtime) {
    q.ready <= r.ready && r == q.(ready := r.ready) && DeliveredTo(a, ds, q.id, r.ready[|q.ready|..])
  }

  lemma EntriesMore(a: Aggregate, ds: seq<Delivery>, id: Text, more: seq<Entry>, at: seq<nat>)
    requires ds != [] && DeliveryEntries(a, ds[..|ds| - 1], id, more, at)
    ensures forall x :: 0 <= x < |at| ==> at[x] < |ds| - 1
    ensures DeliveryEntries(a, ds, id, more, at)
    ensures var last := |ds| - 1; GoesTo(ds[last], id) ==> DeliveryEntries(a, ds, id, more + [EntryFor(a, ds[last], last)], at + [last])
  {
    hide EntryFor;
  }

  lemma AllMore(ds: seq<Delivery>, id: Text, at: seq<nat>)
    requires ds != [] && AllDelivered(ds[..|ds| - 1], id, at)
    ensures var last := |ds| - 1; AllDelivered(ds, id, if GoesTo(ds[last], id) then at + [last] else at)
  {
    hide Occurs;
    var last := |ds| - 1;
    forall k: nat | k < |ds| && GoesTo(ds[k], id) ensures Occurs(k, if GoesTo(ds[last], id) then at + [last] else at) {
      OccursMore(k, at, last);
      assert k < last ==> ds[..last][k] == ds[k];
    }
  }

  lemma DeliveredMore(a: Aggregate, ds: seq<Delivery>, id: Text, more: seq<Entry>)
    requires ds != [] && DeliveredTo(a, ds[..|ds| - 1], id, more)
    ensures var last := |ds| - 1;
            DeliveredTo(a, ds, id, if GoesTo(ds[last], id) then more + [EntryFor(a, ds[last], last)] else more)
  {
    hide EntryFor, DeliveryEntries, AllDelivered, Increasing;
    var last := |ds| - 1;
    var at: seq<nat> :| DeliveredAt(a, ds[..last], id, more, at);
    EntriesMore(a, ds, id, more, at);
    AllMore(ds, id, at);
    if GoesTo(ds[last], id) {
      IncreasingMore(at, last);
      assert DeliveredAt(a, ds, id, more + [EntryFor(a, ds[last], last)], at + [last]);
    } else {
      assert DeliveredAt(a, ds, id, more, at);
    }
  }

  lemma EnqueueIs(b: Aggregate, d: Delivery)
    requires DistinctRuntimes(b.runtimes) && Targeted(b, d)
    ensures var b', e := Enqueue(b, d), Entry(b.nextAcceptance, b.nextQueue, d.mode, d.envelope, d.digest, 0);
            && b' == b.(nextAcceptance := b.nextAcceptance + 1, nextQueue := b.nextQueue + 1, runtimes := b'.runtimes)
            && |b'.runtimes| == |b.runtimes|
            && (forall p: nat :: p < |b.runtimes| ==>
                  b'.runtimes[p] == if GoesTo(d, b.runtimes[p].id) then b.runtimes[p].(ready := b.runtimes[p].ready + [e]) else b.runtimes[p])
  {
    hide Find;
    var i := Find(b.runtimes, d.envelope.target.runtime);
    forall p: nat | p < |b.runtimes| && b.runtimes[p].id == d.envelope.target.runtime ensures p == i {
    }
  }

  lemma EnqueuesMore(a: Aggregate, ds: seq<Delivery>, q: Runtime, r: Runtime, r': Runtime)
    requires ds != [] && EnqueuesAt(a, ds[..|ds| - 1], q, r)
    requires var last := |ds| - 1; r' == if GoesTo(ds[last], q.id) then r.(ready := r.ready + [EntryFor(a, ds[last], last)]) else r
    ensures EnqueuesAt(a, ds, q, r')
  {
    hide DeliveredTo;
    var more := r.ready[|q.ready|..];
    DeliveredMore(a, ds, q.id, more);
    assert r.ready == q.ready + more;
    if r' != r {
      assert r'.ready[|q.ready|..] == more + [r'.ready[|r.ready|]];
    }
  }

  lemma EnqueuesNext(a: Aggregate, ds: seq<Delivery>, b: Aggregate)
    requires ds != [] && Enqueues(a, ds[..|ds| - 1], b) && DistinctRuntimes(b.runtimes) && Targeted(b, ds[|ds| - 1])
    ensures Enqueues(a, ds, Enqueue(b, ds[|ds| - 1]))
  {
    hide Enqueue, EnqueuesAt, Find, DistinctRuntimes;
    var d := ds[|ds| - 1];
    var b' := Enqueue(b, d);
    EnqueueIs(b, d);
    forall p: nat | p < |a.runtimes| ensures EnqueuesAt(a, ds, a.runtimes[p], b'.runtimes[p]) {
      SameId(a, ds[..|ds| - 1], a.runtimes[p], b.runtimes[p]);
      EnqueuesMore(a, ds, a.runtimes[p], b.runtimes[p], b'.runtimes[p]);
    }
  }

  lemma SameId(a: Aggregate, ds: seq<Delivery>, q: Runtime, r: Runtime)
    requires EnqueuesAt(a, ds, q, r)
    ensures r.id == q.id
  {
    hide DeliveredTo;
  }

  lemma {:induction false} EnqueueAllIs(a: Aggregate, ds: seq<Delivery>)
    requires DistinctRuntimes(a.runtimes) && forall k :: 0 <= k < |ds| ==> Targeted(a, ds[k])
    ensures Enqueues(a, ds, EnqueueAll(a, ds))
  {
    if ds == [] {
      EnqueuesNone(a);
    } else {
      hide Enqueue, Enqueues;
      var b := EnqueueAll(a, ds[..|ds| - 1]);
      EnqueueAllIs(a, ds[..|ds| - 1]);
      SameFind(a.runtimes, b.runtimes, ds[|ds| - 1].envelope.target.runtime);
      EnqueuesNext(a, ds, b);
    }
  }

  lemma EnqueuesNone(a: Aggregate)
    ensures Enqueues(a, [], a)
  {
    hide EnqueuesAt;
    forall p: nat | p < |a.runtimes| ensures EnqueuesAt(a, [], a.runtimes[p], a.runtimes[p]) {
      EnqueuesNothing(a, a.runtimes[p]);
    }
  }

  lemma EnqueuesNothing(a: Aggregate, q: Runtime)
    ensures EnqueuesAt(a, [], q, q)
  {
    assert q.ready[|q.ready|..] == [];
    assert DeliveredAt(a, [], q.id, [], []);
  }

  // ------------------------------------------------------------------------------------------
  // The operation
  // ------------------------------------------------------------------------------------------

  predicate RootRuns(a: Aggregate) {
    exists j :: 0 <= j < |a.runtimes| && a.runtimes[j].id == a.rootRuntime && a.runtimes[j].status.Running?
  }

  lemma RootRunsIff(a: Aggregate)
    requires DistinctRuntimes(a.runtimes)
    ensures StatusOf(a.runtimes, a.rootRuntime) == Some(Running) <==> RootRuns(a)
  {
    if j :| 0 <= j < |a.runtimes| && a.runtimes[j].id == a.rootRuntime && a.runtimes[j].status.Running? {
      FindUnique(a.runtimes, j);
    }
  }

  /** The k-th delivery repeats the id of an earlier one. */
  predicate Repeats(ds: seq<Delivery>, k: nat)
    requires k < |ds|
  {
    exists j :: 0 <= j < k && ds[j].envelope.eventId == ds[k].envelope.eventId
  }

  /** The event of the k-th delivery is known, and under another digest. */
  ghost predicate Contradicts(cp: Checkpoint, ds: seq<Delivery>, k: nat)
    requires k < |ds|
  {
    Known(cp, ds[k].envelope.eventId) && !Bears(cp, ds[k].envelope.eventId, EnvelopeDigest(cp.root, ds[k].mode, ds[k].envelope))
  }

  ghost predicate Problematic(cp: Checkpoint, ds: seq<Delivery>, k: nat) {
    k < |ds| && (Repeats(ds, k) || Contradicts(cp, ds, k))
  }

  /** The batch is for this root, and no delivery repeats an id or contradicts what is known. */
  ghost predicate SoundBatch(cp: Checkpoint, ds: seq<Delivery>) {
    ds != [] && ForRoot(cp, ds) && NoProblem(cp, ds)
  }

  ghost predicate NoProblem(cp: Checkpoint, ds: seq<Delivery>) {
    forall k: nat :: !Problematic(cp, ds, k)
  }

  predicate ForRoot(cp: Checkpoint, ds: seq<Delivery>) {
    forall k :: 0 <= k < |ds| ==> ds[k].envelope.target.root == cp.root
  }

  /** The first problem of the batch. */
  ghost predicate FirstProblematic(cp: Checkpoint, ds: seq<Delivery>, k: nat) {
    Problematic(cp, ds, k) && forall j: nat :: j < k ==> !Problematic(cp, ds, j)
  }

  lemma ContradictsIff(cp: Checkpoint, d: Delivery)
    requires Inv(cp)
    ensures var known, id := RetainedIdentity(cp), d.envelope.eventId;
            (id in known && known[id].digest != DigestOf(cp.root, d)) <==>
            (Known(cp, id) && !Bears(cp, id, EnvelopeDigest(cp.root, d.mode, d.envelope)))
  {
    hide Inv, RetainedIdentity, Known, Bears;
    KnownIff(cp, d.envelope.eventId);
    IdentityIff(cp, d.envelope.eventId, DigestOf(cp.root, d));
  }

  lemma ProblematicEarlier(cp: Checkpoint, ds: seq<Delivery>, k: nat)
    requires ds != [] && k < |ds| - 1
    ensures Problematic(cp, ds[..|ds| - 1], k) <==> Problematic(cp, ds, k)
  {
    hide Known, Bears;
    var init := ds[..|ds| - 1];
    assert init[k] == ds[k];
    if Repeats(ds, k) {
      var j :| 0 <= j < k && ds[j].envelope.eventId == ds[k].envelope.eventId;
      assert init[j] == ds[j];
    }
    if Repeats(init, k) {
      var j :| 0 <= j < k && init[j].envelope.eventId == init[k].envelope.eventId;
      assert init[j] == ds[j];
    }
  }

  /** A problem is reported exactly if there is one, and the first one decides which. */
  lemma {:induction false} FirstProblemIs(cp: Checkpoint, ds: seq<Delivery>)
    requires Inv(cp)
    ensures var p := FirstProblem(RetainedIdentity(cp), cp.root, ds);
            && (p.None? <==> NoProblem(cp, ds))
            && (p.Some? ==> exists k: nat :: FirstProblematic(cp, ds, k) && p.value == if Repeats(ds, k) then DuplicateEventIdInBatch else EventIdConflict)
  {
    hide Inv, RetainedIdentity, Known, Bears;
    if ds != [] {
      var known, last := RetainedIdentity(cp), |ds| - 1;
      var init, d := ds[..last], ds[last];
      FirstProblemIs(cp, init);
      ContradictsIff(cp, d);
      forall k: nat | k < last ensures Problematic(cp, init, k) <==> Problematic(cp, ds, k) {
        ProblematicEarlier(cp, ds, k);
      }
      assert Repeats(ds, last) <==> exists j :: 0 <= j < |init| && init[j].envelope.eventId == d.envelope.eventId by {
        RepeatsLast(ds);
      }
      hide Problematic;
      var p := FirstProblem(known, cp.root, ds);
      if FirstProblem(known, cp.root, init).Some? {
        var k: nat :| FirstProblematic(cp, init, k) && p.value == if Repeats(init, k) then DuplicateEventIdInBatch else EventIdConflict;
        ProblemStays(cp, ds, k);
      } else {
        ProblemLast(cp, ds);
      }
    }
  }

  lemma RepeatsLast(ds: seq<Delivery>)
    requires ds != []
    ensures var last := |ds| - 1;
            Repeats(ds, last) <==> exists j :: 0 <= j < last && ds[..last][j].envelope.eventId == ds[last].envelope.eventId
  {
    var last := |ds| - 1;
    if Repeats(ds, last) {
      var j :| 0 <= j < last && ds[j].envelope.eventId == ds[last].envelope.eventId;
      assert ds[..last][j] == ds[j];
    }
  }

  lemma ProblemStays(cp: Checkpoint, ds: seq<Delivery>, k: nat)
    requires ds != [] && FirstProblematic(cp, ds[..|ds| - 1], k)
    ensures FirstProblematic(cp, ds, k) && (Repeats(ds[..|ds| - 1], k) <==> Repeats(ds, k))
  {
    hide Known, Bears, Contradicts;
    var init := ds[..|ds| - 1];
    forall j: nat | j <= k ensures Problematic(cp, init, j) <==> Problematic(cp, ds, j) {
      ProblematicEarlier(cp, ds, j);
    }
    assert forall j :: 0 <= j <= k ==> init[j] == ds[j];
  }

  lemma ProblemLast(cp: Checkpoint, ds: seq<Delivery>)
    requires ds != [] && NoProblem(cp, ds[..|ds| - 1])
    ensures Problematic(cp, ds, |ds| - 1) <==> FirstProblematic(cp, ds, |ds| - 1)
    ensures NoProblem(cp, ds) <==> !Problematic(cp, ds, |ds| - 1)
  {
    hide Known, Bears, Contradicts;
    forall j: nat | j < |ds| - 1 ensures !Problematic(cp, ds, j) {
      ProblematicEarlier(cp, ds, j);
    }
  }

  /** Everything that must hold for the unknown deliveries of a sound batch to be taken. */
  ghost predicate Takes(cp: Checkpoint, bundle: Option<Text>, ds: seq<Delivery>, g: Guard, accepts: Envelope -> bool) {
    && cp.record.Retained? && RootRuns(cp.record.aggregate)
    && bundle == Some(cp.record.aggregate.fingerprint)
    && Holds(g, cp)
    && (forall k: nat :: IsUnseen(cp, ds, k) ==> Admissible(cp.record.aggregate, ds[k], accepts))
  }

  /** The acceptance receipts of the deliveries `some`, in order. */
  predicate Acceptances(cp: Checkpoint, a: Aggregate, some: seq<Delivery>, next: Checkpoint) {
    && |next.receipts| == |cp.receipts| + |some| && cp.receipts <= next.receipts
    && (forall x :: 0 <= x < |some| ==>
          next.receipts[|cp.receipts| + x]
          == Acceptance(cp.nextReceipt + x, some[x].envelope.eventId, some[x].digest, a.nextAcceptance + x, cp.revision + 1, some[x].mode))
  }

  /** The checkpoint after the deliveries `some` were taken. */
  ghost predicate Took(cp: Checkpoint, some: seq<Delivery>, next: Checkpoint) {
    && cp.record.Retained? && next.record.Retained?
    && Enqueues(cp.record.aggregate, some, next.record.aggregate)
    && Acceptances(cp, cp.record.aggregate, some, next)
    && next == cp.(revision := cp.revision + 1, record := next.record, nextReceipt := cp.nextReceipt + |some|, receipts := next.receipts)
  }

  /** One member per delivery: evidence about a known event, or the numbers of a taken one. */
  ghost predicate Answers(cp: Checkpoint, ds: seq<Delivery>, at: seq<nat>, members: seq<Member>)
    requires at != [] ==> cp.record.Retained?
  {
    && |members| == |ds|
    && (forall k :: 0 <= k < |ds| ==> ReplaysKnown(cp, ds[k].envelope.eventId, members[k]))
    && (forall x :: 0 <= x < |at| ==>
          && at[x] < |ds|
          && members[at[x]] == AcceptedMember(ds[at[x]].envelope.eventId, cp.record.aggregate.nextAcceptance + x, cp.record.aggregate.nextQueue + x))
  }

  ghost predicate ReplaysKnown(cp: Checkpoint, id: Text, m: Member) {
    Known(cp, id) ==> m.ReplayedMember? && m.eventId == id && Proves(cp, id, m.evidence)
  }

  lemma MembersAnswer(cp: Checkpoint, ds: seq<Delivery>, at: seq<nat>)
    requires Inv(cp) && cp.record.Retained? && Unseen(cp, ds, at) && Counts(RetainedIdentity(cp), ds, at)
    ensures Answers(cp, ds, at, Members(RetainedIdentity(cp), Some(cp.record.aggregate), ds))
  {
    hide Inv, RetainedIdentity, Known, Members, Unknown, Proves;
    var known, a := RetainedIdentity(cp), cp.record.aggregate;
    var members := Members(known, Some(a), ds);
    if ds != [] {
      MembersAt(known, Some(a), ds, 0);
    } else {
      MembersNone(known, Some(a));
    }
    forall k | 0 <= k < |ds| ensures ReplaysKnown(cp, ds[k].envelope.eventId, members[k]) {
      MembersAt(known, Some(a), ds, k);
      KnownIff(cp, ds[k].envelope.eventId);
      if Known(cp, ds[k].envelope.eventId) {
        EvidenceProves(cp, ds[k].envelope.eventId);
      }
    }
    forall x | 0 <= x < |at|
      ensures at[x] < |ds| && members[at[x]] == AcceptedMember(ds[at[x]].envelope.eventId, a.nextAcceptance + x, a.nextQueue + x)
    {
      assert IsUnseen(cp, ds, at[x]);
      MembersAt(known, Some(a), ds, at[x]);
      KnownIff(cp, ds[at[x]].envelope.eventId);
    }
  }

  lemma MembersNone(known: map<Text, Identity>, a: Option<Aggregate>)
    ensures Members(known, a, []) == []
  {
  }

  lemma MembersReplay(cp: Checkpoint, ds: seq<Delivery>)
    requires Inv(cp) && Unknown(RetainedIdentity(cp), ds) == []
    ensures Answers(cp, ds, [], Members(RetainedIdentity(cp), None, ds))
  {
    hide Inv, RetainedIdentity, Known, Members, Unknown, Proves;
    var known := RetainedIdentity(cp);
    if ds != [] {
      MembersAt(known, None, ds, 0);
    } else {
      MembersNone(known, None);
    }
    forall k | 0 <= k < |ds| ensures ReplaysKnown(cp, ds[k].envelope.eventId, Members(known, None, ds)[k]) {
      MembersAt(known, None, ds, k);
      KnownIff(cp, ds[k].envelope.eventId);
      if Known(cp, ds[k].envelope.eventId) {
        EvidenceProves(cp, ds[k].envelope.eventId);
      }
    }
  }

  lemma TookAll(cp: Checkpoint, some: seq<Delivery>, accepts: Envelope -> bool)
    requires Inv(cp) && cp.record.Retained? && CoreAdmit(cp.record.aggregate, some, accepts).Ok?
    ensures var a := cp.record.aggregate; Took(cp, some, AdmitInto(cp, a, CoreAdmit(a, some, accepts).value, some))
  {
    hide Inv, Enqueues, CoreAdmit, Checked, Targeted, EnqueueAll, Took, AdmitInto;
    var a := cp.record.aggregate;
    DistinctOnes(cp);
    CoreAdmitOk(a, some, accepts);
    EnqueueAllIs(a, some);
    TookInto(cp, EnqueueAll(a, some), some);
  }

  lemma TookInto(cp: Checkpoint, b: Aggregate, some: seq<Delivery>)
    requires cp.record.Retained? && Enqueues(cp.record.aggregate, some, b)
    ensures Took(cp, some, AdmitInto(cp, cp.record.aggregate, b, some))
  {
    hide Enqueues;
  }

  lemma DistinctOnes(cp: Checkpoint)
    requires Inv(cp) && cp.record.Retained?
    ensures DistinctRuntimes(cp.record.aggregate.runtimes)
  {
    hide Consistent, Sourced, Traceable;
  }

  /** The picked deliveries are the unknown ones. */
  lemma PickedUnseen(cp: Checkpoint, ds: seq<Delivery>, at: seq<nat>, some: seq<Delivery>)
    requires Unseen(cp, ds, at) && Picks(ds, at, some)
    ensures forall d :: d in some ==> exists k: nat :: IsUnseen(cp, ds, k) && ds[k] == d
    ensures forall k: nat :: IsUnseen(cp, ds, k) ==> ds[k] in some
    ensures some == [] <==> forall k: nat :: !IsUnseen(cp, ds, k)
  {
    hide Known;
    forall d | d in some ensures exists k: nat :: IsUnseen(cp, ds, k) && ds[k] == d {
      var x :| 0 <= x < |some| && some[x] == d;
      assert IsUnseen(cp, ds, at[x]) && ds[at[x]] == d;
    }
    forall k: nat | IsUnseen(cp, ds, k) ensures ds[k] in some {
      var x :| 0 <= x < |at| && at[x] == k;
      assert some[x] == ds[k];
    }
    if some != [] {
      assert IsUnseen(cp, ds, at[0]);
    }
  }

  /**
   A sound batch with an unknown delivery is taken if and only if the root is retained and runs, the bundle
   and the guard fit, and source, target, definition and digest allow every unknown delivery. Then exactly
   these are taken, in order.
   */
  lemma AdmitIff(cp: Checkpoint, bundle: Option<Text>, ds: seq<Delivery>, g: Guard, accepts: Envelope -> bool)
    returns (at: seq<nat>, some: seq<Delivery>)
    requires Inv(cp) && SoundBatch(cp, ds) && exists k: nat :: IsUnseen(cp, ds, k)
    ensures Unseen(cp, ds, at) && Picks(ds, at, some)
    ensures var r := Admit(cp, bundle, ds, g, accepts);
            && (r.Ok? <==> Takes(cp, bundle, ds, g, accepts))
            && (r.Ok? ==> Took(cp, some, After(cp, r)))
            && (r.Ok? ==> if |ds| == 1 then r.value.Next? else r.value.Batch? && Answers(cp, ds, at, r.value.members))
  {
    hide Inv, RetainedIdentity, Known, Unknown, FirstProblem, CoreAdmit, Members, AdmitInto, Admissible, StatusOf, Problematic, RootRuns;
    hide Unseen, Picks, Counts, Took, Answers, Holds;
    var known := RetainedIdentity(cp);
    at := UnknownIs(cp, ds);
    some := Unknown(known, ds);
    FirstProblemIs(cp, ds);
    PickedUnseen(cp, ds, at, some);
    if cp.record.Retained? {
      var a := cp.record.aggregate;
      DistinctOnes(cp);
      RootRunsIff(a);
      CoreAdmitTakes(a, some, accepts);
      MembersAnswer(cp, ds, at);
      if CoreAdmit(a, some, accepts).Ok? {
        TookAll(cp, some, accepts);
      }
    }
  }

  lemma CoreAdmitTakes(a: Aggregate, ds: seq<Delivery>, accepts: Envelope -> bool)
    ensures CoreAdmit(a, ds, accepts).Ok? <==> forall d :: d in ds ==> Admissible(a, d, accepts)
  {
    hide CoreAdmit, MaySend, IsRuntime;
    CoreAdmitAnswer(a, ds, accepts);
  }

  /** A batch of known events is answered from evidence and changes nothing. */
  lemma AdmitReplays(cp: Checkpoint, bundle: Option<Text>, ds: seq<Delivery>, g: Guard, accepts: Envelope -> bool)
    requires Inv(cp) && SoundBatch(cp, ds) && forall k: nat :: !IsUnseen(cp, ds, k)
    ensures var r := Admit(cp, bundle, ds, g, accepts);
            && r.Ok? && After(cp, r) == cp
            && (if |ds| == 1 then r.value.Replayed? && Proves(cp, ds[0].envelope.eventId, r.value.evidence)
                else r.value.Batch? && Answers(cp, ds, [], r.value.members))
  {
    hide Inv, RetainedIdentity, Known, Unknown, FirstProblem, Members, Problematic, Unseen, Picks, Counts, Answers, Proves;
    var at := UnknownIs(cp, ds);
    FirstProblemIs(cp, ds);
    PickedUnseen(cp, ds, at, Unknown(RetainedIdentity(cp), ds));
    MembersReplay(cp, ds);
    if |ds| == 1 {
      assert !IsUnseen(cp, ds, 0);
      EvidenceProves(cp, ds[0].envelope.eventId);
    }
  }

  /** The failures before core admission, in the order in which they are asked. */
  lemma AdmitRefusal(cp: Checkpoint, bundle: Option<Text>, ds: seq<Delivery>, g: Guard, accepts: Envelope -> bool)
    requires Inv(cp)
    ensures var r := Admit(cp, bundle, ds, g, accepts);
            && (ds == [] ==> r == Err(MalformedDelivery))
            && (ds != [] && !ForRoot(cp, ds) ==> r == Err(WrongRoot))
            && (ds != [] && ForRoot(cp, ds) && !NoProblem(cp, ds) ==>
                  exists k: nat :: FirstProblematic(cp, ds, k) && r == Err(if Repeats(ds, k) then DuplicateEventIdInBatch else EventIdConflict))
  {
    hide Inv, RetainedIdentity, Known, Unknown, FirstProblem, CoreAdmit, Members, AdmitInto, Problematic, FirstProblematic, StatusOf, Holds;
    FirstProblemIs(cp, ds);
  }

  datatype Check = BySource | ByTarget | ByDefinition | ByDigest

  predicate Misses(a: Aggregate, d: Delivery, accepts: Envelope -> bool, check: Check) {
    match check
    case BySource => !MaySend(a, d)
    case ByTarget => !IsRuntime(a.runtimes, d.envelope.target.runtime)
    case ByDefinition => !accepts(d.envelope)
    case ByDigest => d.digest != EnvelopeDigest(a.root, d.mode, d.envelope)
  }

  /** Some unknown delivery misses the check. */
  ghost predicate SomeMisses(cp: Checkpoint, a: Aggregate, ds: seq<Delivery>, accepts: Envelope -> bool, check: Check) {
    exists k: nat :: IsUnseen(cp, ds, k) && Misses(a, ds[k], accepts, check)
  }

  /** Why a sound batch with an unknown delivery is not taken. */
  lemma AdmitFailure(cp: Checkpoint, bundle: Option<Text>, ds: seq<Delivery>, g: Guard, accepts: Envelope -> bool)
    requires Inv(cp) && SoundBatch(cp, ds) && exists k: nat :: IsUnseen(cp, ds, k)
    ensures var r := Admit(cp, bundle, ds, g, accepts);
            && (cp.record.Tombstoned? ==> r == Err(TombstonedRoot))
            && (cp.record.Retained? ==>
                  var a := cp.record.aggregate;
                  if !RootRuns(a) || bundle.None? then r == Err(TerminalRoot)
                  else if bundle.value != a.fingerprint then r == Err(IncompatibleBundle)
                  else if !Holds(g, cp) then r == Err(RevisionConflict)
                  else if SomeMisses(cp, a, ds, accepts, BySource) then r == Err(InvalidDeliverySource)
                  else if SomeMisses(cp, a, ds, accepts, ByTarget) then r == Err(InvalidInstanceTarget)
                  else if SomeMisses(cp, a, ds, accepts, ByDefinition) then r == Err(InvalidDelivery)
                  else SomeMisses(cp, a, ds, accepts, ByDigest) ==> r == Err(DeliveryDigestMismatch))
  {
    hide Inv, RetainedIdentity, Known, Unknown, FirstProblem, CoreAdmit, Members, AdmitInto, StatusOf, Problematic, RootRuns;
    hide Unseen, Picks, Counts, Holds, SomeMisses, Misses;
    var at := UnknownIs(cp, ds);
    var some := Unknown(RetainedIdentity(cp), ds);
    FirstProblemIs(cp, ds);
    PickedUnseen(cp, ds, at, some);
    if cp.record.Retained? {
      var a := cp.record.aggregate;
      DistinctOnes(cp);
      RootRunsIff(a);
      CoreAdmitFails(a, some, accepts);
      forall check ensures SomeMisses(cp, a, ds, accepts, check) <==> Missed(a, some, accepts, check) {
        PickedMisses(cp, a, ds, at, some, accepts, check);
      }
    }
  }

  predicate Missed(a: Aggregate, ds: seq<Delivery>, accepts: Envelope -> bool, check: Check) {
    exists d :: d in ds && Misses(a, d, accepts, check)
  }

  lemma CoreAdmitFails(a: Aggregate, ds: seq<Delivery>, accepts: Envelope -> bool)
    ensures var r := CoreAdmit(a, ds, accepts);
            if Missed(a, ds, accepts, BySource) then r == Err(InvalidDeliverySource)
            else if Missed(a, ds, accepts, ByTarget) then r == Err(InvalidInstanceTarget)
            else if Missed(a, ds, accepts, ByDefinition) then r == Err(InvalidDelivery)
            else Missed(a, ds, accepts, ByDigest) ==> r == Err(DeliveryDigestMismatch)
  {
    hide CoreAdmit, MaySend, IsRuntime;
    CoreAdmitAnswer(a, ds, accepts);
  }

  lemma PickedMisses(cp: Checkpoint, a: Aggregate, ds: seq<Delivery>, at: seq<nat>, some: seq<Delivery>, accepts: Envelope -> bool, check: Check)
    requires Unseen(cp, ds, at) && Picks(ds, at, some)
    ensures SomeMisses(cp, a, ds, accepts, check) <==> Missed(a, some, accepts, check)
  {
    hide Unseen, Picks, Known, Misses;
    PickedUnseen(cp, ds, at, some);
  }
}
