/** Committed steps and deferrals are transitions, so they preserve the invariant. */
module CommitProofs {
  import opened CheckpointModel
  import opened CheckpointValidity
  import opened WireCore
  import opened WireCoreProofs
  import opened StepContract
  import opened Transitions
  import opened TransitionEvents
  import opened TransitionTheorem
  import opened CheckpointOps
  import opened Sequences
  import opened Rewriting
  import opened Multisets

  // ------------------------------------------------------------------------------------------
  // A committed step
  // ------------------------------------------------------------------------------------------

  /** No emitted event id belongs to an event that has already ended. */
  ghost predicate EmittedFresh(cp: Checkpoint, emitted: seq<Emitted>) {
    forall k :: 0 <= k < |emitted| && !emitted[k].ToOutbox? ==>
      !Ended(cp.receipts, emitted[k].eventId) && !Buried(cp.tombstones, emitted[k].eventId)
  }

  /** What makes the commit of a core step preserve the invariant. */
  ghost predicate StepOk(cp: Checkpoint, causal: Entry, state: Aggregate, emitted: seq<Emitted>, lifecycle: seq<Lifecycle>) {
    && cp.record.Retained? && causal in Live(cp)
    && Conserves(cp.record.aggregate, causal, state, emitted, lifecycle)
    && Named(Tally(state, lifecycle, causal))
    && SourcesOk(state)
    && EmittedFresh(cp, emitted)
    && !EffectRepeated(cp, emitted)
  }

  /** The entries that the step ends: the consumed one, then the disposed ones. */
  function OutOf(causal: Entry, lifecycle: seq<Lifecycle>): seq<Entry> {
    [causal] + Entries(lifecycle)
  }

  lemma OutMail(state: Aggregate, causal: Entry, lifecycle: seq<Lifecycle>)
    ensures MailOf(state.runtimes) + multiset(OutOf(causal, lifecycle)) == Tally(state, lifecycle, causal)
  {
    hide MailOf, LifeMail, Entries;
    EntriesMail(lifecycle);
    assert multiset([causal] + Entries(lifecycle)) == multiset{causal} + LifeMail(lifecycle);
  }

  lemma OutAt(causal: Entry, lifecycle: seq<Lifecycle>, j: nat)
    requires j < |OutOf(causal, lifecycle)|
    ensures |OutOf(causal, lifecycle)| == 1 + |lifecycle|
    ensures OutOf(causal, lifecycle)[j] == if j == 0 then causal else lifecycle[j - 1].entry
  {
  }

  /** The pieces of the premise. */
  lemma StepFacts(cp: Checkpoint, causal: Entry, state: Aggregate, emitted: seq<Emitted>, lifecycle: seq<Lifecycle>)
    requires StepOk(cp, causal, state, emitted, lifecycle)
    ensures cp.record.Retained?
    ensures var a := cp.record.aggregate;
            && Follows(a, state) && Mailboxes(state) && SourcesOk(state)
            && Distinct(Tally(state, lifecycle, causal))
            && Below(Tally(state, lifecycle, causal), state.nextAcceptance, state.nextQueue)
            && Traced(a, causal, state, emitted) && DisposalsTraced(a, lifecycle, emitted)
            && Kept(a, causal, state, lifecycle) && Announced(a, state, lifecycle, emitted)
            && EmittedInOrder(emitted) && IntentsInOrder(a, state, emitted)
  {
    hide Traced, DisposalsTraced, Kept, Announced, EmittedInOrder, IntentsInOrder, Mailboxes, SourcesOk, Numbered, Named, Below;
    hide EmittedFresh, EffectRepeated, Tally;
  }

  lemma TracedLive(a: Aggregate, causal: Entry, state: Aggregate, emitted: seq<Emitted>, first: nat, t: Entry)
    requires Traced(a, causal, state, emitted) && t in MailOf(state.runtimes)
    ensures || (exists b :: b in MailOf(a.runtimes) && Moved(b, t, a.nextQueue))
            || (New(a, t) && exists k :: 0 <= k < |RefsOf(emitted, first)| && Names(RefsOf(emitted, first)[k], t))
  {
    hide MailOf, Moved, New;
    if k :| 0 <= k < |emitted| && AnnouncesLive(emitted[k], t) {
      assert AnnouncesLive(emitted[k], t);
      assert Names(RefsOf(emitted, first)[k], t);
    }
  }

  lemma KeptOrOut(a: Aggregate, causal: Entry, state: Aggregate, lifecycle: seq<Lifecycle>, b: Entry)
    requires Kept(a, causal, state, lifecycle) && b in MailOf(a.runtimes)
    ensures || (exists t :: t in MailOf(state.runtimes) && Moved(b, t, a.nextQueue))
            || (exists j :: 0 <= j < |OutOf(causal, lifecycle)| && OutOf(causal, lifecycle)[j] == b)
  {
    hide MailOf, Moved, OutOf;
    OutLength(causal, lifecycle);
    OutAt(causal, lifecycle, 0);
    if l :| 0 <= l < |lifecycle| && lifecycle[l].entry == b {
      OutAt(causal, lifecycle, l + 1);
    }
  }

  lemma StepLive(cp: Checkpoint, cp': Checkpoint, a: Aggregate, causal: Entry, state: Aggregate, emitted: seq<Emitted>, refs: seq<Reference>)
    requires cp.record == Retained(a) && cp'.record == Retained(state) && Traced(a, causal, state, emitted) && refs == RefsOf(emitted, cp.nextReceipt + 1)
    ensures forall t :: t in Live(cp') ==>
              || (exists b :: b in Live(cp) && Moved(b, t, a.nextQueue))
              || (New(a, t) && exists k :: 0 <= k < |refs| && Names(refs[k], t))
  {
    hide MailOf, Moved, New, Names, RefsOf, Traced;
    forall t | t in Live(cp')
      ensures || (exists b :: b in Live(cp) && Moved(b, t, a.nextQueue))
              || (New(a, t) && exists k :: 0 <= k < |refs| && Names(refs[k], t))
    {
      TracedLive(a, causal, state, emitted, cp.nextReceipt + 1, t);
    }
  }

  lemma StepOut(cp: Checkpoint, a: Aggregate, causal: Entry, emitted: seq<Emitted>, lifecycle: seq<Lifecycle>, out: seq<Entry>, refs: seq<Reference>)
    requires cp.record == Retained(a) && causal in Live(cp) && DisposalsTraced(a, lifecycle, emitted)
    requires out == OutOf(causal, lifecycle) && refs == RefsOf(emitted, cp.nextReceipt + 1)
    ensures forall j :: 0 <= j < |out| ==>
              || out[j] in Live(cp)
              || (New(a, out[j]) && exists k :: 0 <= k < |refs| && refs[k].TerminalRef? && refs[k].eventId == out[j].Id()
                                      && refs[k].acceptance == out[j].acceptance && refs[k].terminal == cp.nextReceipt + j)
  {
    hide MailOf, New, OutOf, RefsOf, DisposalsTraced;
    forall j | 0 <= j < |out|
      ensures || out[j] in Live(cp)
              || (New(a, out[j]) && exists k :: 0 <= k < |refs| && refs[k].TerminalRef? && refs[k].eventId == out[j].Id()
                                      && refs[k].acceptance == out[j].acceptance && refs[k].terminal == cp.nextReceipt + j)
    {
      OutTraced(cp, causal, a, emitted, lifecycle, j);
    }
  }

  lemma StepKept(cp: Checkpoint, cp': Checkpoint, a: Aggregate, causal: Entry, state: Aggregate, lifecycle: seq<Lifecycle>, out: seq<Entry>)
    requires cp.record == Retained(a) && cp'.record == Retained(state) && Kept(a, causal, state, lifecycle) && out == OutOf(causal, lifecycle)
    ensures forall b :: b in Live(cp) ==>
              || (exists t :: t in Live(cp') && Moved(b, t, a.nextQueue))
              || (exists j :: 0 <= j < |out| && out[j] == b)
  {
    hide MailOf, Moved, OutOf, Kept;
    forall b | b in Live(cp)
      ensures (exists t :: t in Live(cp') && Moved(b, t, a.nextQueue)) || (exists j :: 0 <= j < |out| && out[j] == b)
    {
      KeptOrOut(a, causal, state, lifecycle, b);
    }
  }

  lemma StepEverything(cp': Checkpoint, causal: Entry, state: Aggregate, lifecycle: seq<Lifecycle>)
    requires cp'.record == Retained(state)
    ensures Everything(cp', OutOf(causal, lifecycle)) == Tally(state, lifecycle, causal)
  {
    hide MailOf, OutOf, Tally;
    OutMail(state, causal, lifecycle);
  }

  lemma StepEntries(cp: Checkpoint, cp': Checkpoint, causal: Entry, state: Aggregate, emitted: seq<Emitted>, lifecycle: seq<Lifecycle>)
    requires StepOk(cp, causal, state, emitted, lifecycle) && cp'.record == Retained(state)
    ensures cp.record.Retained? && EntriesAdvance(cp, cp', OutOf(causal, lifecycle), RefsOf(emitted, cp.nextReceipt + 1))
  {
    hide StepOk, MailOf, Distinct, Tally, Moved, New, Names, OutOf, Below, Mailboxes, SourcesOk, Announced, EmittedInOrder, IntentsInOrder;
    hide Traced, Kept, DisposalsTraced, RefsOf, Live, Everything;
    StepFacts(cp, causal, state, emitted, lifecycle);
    CausalLive(cp, causal, state, emitted, lifecycle);
    StepEverything(cp', causal, state, lifecycle);
    var a, out, refs := cp.record.aggregate, OutOf(causal, lifecycle), RefsOf(emitted, cp.nextReceipt + 1);
    StepLive(cp, cp', a, causal, state, emitted, refs);
    StepOut(cp, a, causal, emitted, lifecycle, out, refs);
    StepKept(cp, cp', a, causal, state, lifecycle, out);
  }

  /** An ended entry was live or is announced as ended. */
  lemma OutTraced(cp: Checkpoint, causal: Entry, a: Aggregate, emitted: seq<Emitted>, lifecycle: seq<Lifecycle>, j: nat)
    requires j < |OutOf(causal, lifecycle)| && causal in MailOf(a.runtimes) && DisposalsTraced(a, lifecycle, emitted)
    ensures var e, refs := OutOf(causal, lifecycle)[j], RefsOf(emitted, cp.nextReceipt + 1);
            || e in MailOf(a.runtimes)
            || (New(a, e) && exists k :: 0 <= k < |refs| && refs[k].TerminalRef? && refs[k].eventId == e.Id()
                                      && refs[k].acceptance == e.acceptance && refs[k].terminal == cp.nextReceipt + j)
  {
    hide MailOf, New, OutOf, RefsOf, DisposalsTraced;
    OutAt(causal, lifecycle, j);
    if j > 0 {
      DisposalAnnounced(cp, a, lifecycle, emitted, j - 1);
    }
  }

  lemma OutLength(causal: Entry, lifecycle: seq<Lifecycle>)
    ensures |OutOf(causal, lifecycle)| == 1 + |lifecycle|
  {
  }

  lemma CausalLive(cp: Checkpoint, causal: Entry, state: Aggregate, emitted: seq<Emitted>, lifecycle: seq<Lifecycle>)
    requires StepOk(cp, causal, state, emitted, lifecycle)
    ensures causal in Live(cp)
  {
    hide Conserves, Named, SourcesOk, EmittedFresh, EffectRepeated;
  }

  lemma DisposalAnnounced(cp: Checkpoint, a: Aggregate, lifecycle: seq<Lifecycle>, emitted: seq<Emitted>, l: nat)
    requires DisposalsTraced(a, lifecycle, emitted) && l < |lifecycle|
    ensures var e, refs := lifecycle[l].entry, RefsOf(emitted, cp.nextReceipt + 1);
            || e in MailOf(a.runtimes)
            || (New(a, e) && exists k :: 0 <= k < |refs| && refs[k].TerminalRef? && refs[k].eventId == e.Id()
                                      && refs[k].acceptance == e.acceptance && refs[k].terminal == cp.nextReceipt + (l + 1))
  {
    hide MailOf, New;
    var e, refs := lifecycle[l].entry, RefsOf(emitted, cp.nextReceipt + 1);
    if e !in MailOf(a.runtimes) {
      var k :| 0 <= k < |emitted| && AnnouncesDisposal(emitted[k], e, l);
      assert refs[k] == RefOf(emitted[k], cp.nextReceipt + 1);
    }
  }

  /** Which receipt ends which event. */
  function EndedMap(cp: Checkpoint, causal: Entry, lifecycle: seq<Lifecycle>): map<Text, nat> {
    EndedBy(lifecycle, cp.nextReceipt + 1, if causal.envelope.source.HostSource? then map[] else map[causal.Id() := cp.nextReceipt])
  }

  lemma TallyIds(state: Aggregate, causal: Entry, lifecycle: seq<Lifecycle>)
    requires Distinct(Tally(state, lifecycle, causal))
    ensures DistinctIds(Entries(lifecycle))
    ensures forall l :: 0 <= l < |lifecycle| ==> lifecycle[l].entry.Id() != causal.Id()
    ensures forall e :: e in MailOf(state.runtimes) ==> e.Id() != causal.Id()
    ensures forall e, l :: e in MailOf(state.runtimes) && 0 <= l < |lifecycle| ==> e.Id() != lifecycle[l].entry.Id()
  {
    hide MailOf, LifeMail;
    var live, life, c := MailOf(state.runtimes), LifeMail(lifecycle), multiset{causal};
    Associate(live, life, c);
    assert forall e :: Tally(state, lifecycle, causal)[e] == live[e] + life[e] + c[e];
    assert forall e :: e in live || e in life || e == causal ==> e in Tally(state, lifecycle, causal);
    forall l | 0 <= l < |lifecycle| ensures lifecycle[l].entry in life {
      LifeMember(lifecycle, lifecycle[l].entry);
    }
    assert causal !in live && causal !in life && forall e :: e in live ==> e !in life;
    LifeDistinct(lifecycle);
  }

  lemma StepRewrites(cp: Checkpoint, cp': Checkpoint, causal: Entry, state: Aggregate, emitted: seq<Emitted>, lifecycle: seq<Lifecycle>)
    requires Coherent(cp) && StepOk(cp, causal, state, emitted, lifecycle) && cp'.record == Retained(state)
    ensures Rewrites(cp, cp', OutOf(causal, lifecycle), QueueMap(Flat(state.runtimes)), EndedMap(cp, causal, lifecycle))
  {
    hide Coherent, StepOk, MailOf, Distinct, OutOf, Below, Mailboxes, SourcesOk, Announced, EmittedInOrder, IntentsInOrder, Traced;
    hide DisposalsTraced, Kept, QueueMap, Flat, EndedBy;
    StepFacts(cp, causal, state, emitted, lifecycle);
    TallyIds(state, causal, lifecycle);
    LiveIsNamed(state, causal, lifecycle);
    var q, t, out := QueueMap(Flat(state.runtimes)), EndedMap(cp, causal, lifecycle), OutOf(causal, lifecycle);
    var t0: map<Text, nat> := if causal.envelope.source.HostSource? then map[] else map[causal.Id() := cp.nextReceipt];
    forall e | e in Live(cp')
      ensures e.mode.Internal? ==> (e.Id(), e.acceptance) in q && q[(e.Id(), e.acceptance)] == e.queue
      ensures e.Id() !in t
    {
      if e.mode.Internal? {
        QueueMapLive(state.runtimes, e);
      }
      EndedByKeys(lifecycle, cp.nextReceipt + 1, t0, e.Id());
    }
    forall j | 0 <= j < |out| && out[j].mode.Internal? ensures out[j].Id() in t && t[out[j].Id()] == cp.nextReceipt + j {
      OutAt(causal, lifecycle, j);
      if j == 0 {
        InternalCausal(cp, causal, state, emitted, lifecycle);
        EndedByKeys(lifecycle, cp.nextReceipt + 1, t0, causal.Id());
      } else {
        EndedByAt(lifecycle, cp.nextReceipt + 1, t0, j - 1);
      }
    }
  }

  lemma InternalCausal(cp: Checkpoint, causal: Entry, state: Aggregate, emitted: seq<Emitted>, lifecycle: seq<Lifecycle>)
    requires Coherent(cp) && StepOk(cp, causal, state, emitted, lifecycle)
    ensures causal.mode.Internal? <==> !causal.envelope.source.HostSource?
  {
    hide Coherent, StepOk, Live;
    CausalLive(cp, causal, state, emitted, lifecycle);
    CoherentIsTraceable(cp);
    assert Originates(cp.receipts, causal);
  }

  lemma CoherentIsTraceable(cp: Checkpoint)
    requires Coherent(cp)
    ensures Traceable(cp)
  {
    hide Consistent, Traceable, Strong;
  }

  lemma LiveIsNamed(state: Aggregate, causal: Entry, lifecycle: seq<Lifecycle>)
    requires Distinct(Tally(state, lifecycle, causal))
    ensures Named(MailOf(state.runtimes))
  {
    hide MailOf, LifeMail, Numbered;
    Associate(MailOf(state.runtimes), LifeMail(lifecycle), multiset{causal});
  }

  // ------------------------------------------------------------------------------------------
  // Announcements
  // ------------------------------------------------------------------------------------------

  lemma StepAnnounces(cp: Checkpoint, cp': Checkpoint, causal: Entry, state: Aggregate, emitted: seq<Emitted>, lifecycle: seq<Lifecycle>, k: nat)
    requires StepOk(cp, causal, state, emitted, lifecycle) && cp'.record == Retained(state) && k < |emitted|
    ensures cp.record.Retained?
    ensures Announces(cp, cp', OutOf(causal, lifecycle), RefOf(emitted[k], cp.nextReceipt + 1))
  {
    hide StepOk, MailOf, Distinct, Tally, New, OutOf, Below, Mailboxes, SourcesOk, EmittedInOrder, IntentsInOrder, Traced, Kept, DisposalsTraced;
    StepFacts(cp, causal, state, emitted, lifecycle);
    var m, out := emitted[k], OutOf(causal, lifecycle);
    match m
    case ToOutbox(_, _) =>
    case ToMailbox(_, _, _, _) =>
      var t :| t in MailOf(state.runtimes) && New(cp.record.aggregate, t) && AnnouncesLive(m, t);
      assert Names(RefOf(m, cp.nextReceipt + 1), t);
    case ToDisposal(_, _, _, l) =>
      OutLength(causal, lifecycle);
      OutAt(causal, lifecycle, l + 1);
      assert out[l + 1] == lifecycle[l].entry;
  }

  /** The entry that an announcement is about. */
  lemma AnnouncedEntry(cp: Checkpoint, causal: Entry, state: Aggregate, emitted: seq<Emitted>, lifecycle: seq<Lifecycle>, k: nat) returns (t: Entry)
    requires StepOk(cp, causal, state, emitted, lifecycle) && k < |emitted| && !emitted[k].ToOutbox?
    ensures cp.record.Retained? && New(cp.record.aggregate, t) && t in Tally(state, lifecycle, causal)
    ensures t.Id() == emitted[k].eventId && t.acceptance == emitted[k].acceptance
  {
    hide StepOk, MailOf, LifeMail, Distinct, New, Below, Mailboxes, SourcesOk, EmittedInOrder, IntentsInOrder, Traced, Kept, DisposalsTraced;
    StepFacts(cp, causal, state, emitted, lifecycle);
    var m := emitted[k];
    if m.ToMailbox? {
      t :| t in MailOf(state.runtimes) && New(cp.record.aggregate, t) && AnnouncesLive(m, t);
      assert AnnouncesLive(m, t);
    } else {
      t := lifecycle[m.lifecycle].entry;
      LifeMember(lifecycle, t);
    }
  }

  /** No entry of before carries an announced id. */
  lemma AnnouncedNotLive(cp: Checkpoint, causal: Entry, state: Aggregate, emitted: seq<Emitted>, lifecycle: seq<Lifecycle>, k: nat)
    requires Coherent(cp) && StepOk(cp, causal, state, emitted, lifecycle) && k < |emitted| && !emitted[k].ToOutbox?
    ensures !IsLive(cp, emitted[k].eventId)
  {
    hide Coherent, StepOk, Live, Tally, Below, Mailboxes, SourcesOk, EmittedInOrder, IntentsInOrder, Traced, DisposalsTraced, Announced, Kept, Numbered;
    StepFacts(cp, causal, state, emitted, lifecycle);
    var t := AnnouncedEntry(cp, causal, state, emitted, lifecycle, k);
    if IsLive(cp, emitted[k].eventId) {
      var b :| b in Live(cp) && b.Id() == emitted[k].eventId;
      CoherentIsConsistent(cp);
      LiveNumbers(cp, b);
      var s := KeptAs(cp, causal, state, emitted, lifecycle, b);
    }
  }

  lemma KeptAs(cp: Checkpoint, causal: Entry, state: Aggregate, emitted: seq<Emitted>, lifecycle: seq<Lifecycle>, b: Entry) returns (s: Entry)
    requires StepOk(cp, causal, state, emitted, lifecycle) && b in Live(cp)
    ensures s in Tally(state, lifecycle, causal) && s.Id() == b.Id() && s.acceptance == b.acceptance
  {
    hide StepOk, MailOf, LifeMail, Distinct, Below, Mailboxes, SourcesOk, EmittedInOrder, IntentsInOrder, Traced, DisposalsTraced, Announced;
    StepFacts(cp, causal, state, emitted, lifecycle);
    if b == causal {
      s := b;
    } else if t :| t in MailOf(state.runtimes) && Moved(b, t, cp.record.aggregate.nextQueue) {
      s := t;
    } else {
      s := b;
      LifeMember(lifecycle, b);
    }
  }

  lemma StepAnnouncements(cp: Checkpoint, cp': Checkpoint, causal: Entry, state: Aggregate, emitted: seq<Emitted>, lifecycle: seq<Lifecycle>)
    requires Coherent(cp) && StepOk(cp, causal, state, emitted, lifecycle) && cp'.record == Retained(state)
    ensures cp.record.Retained? && AnnouncementsOk(cp, cp', OutOf(causal, lifecycle), RefsOf(emitted, cp.nextReceipt + 1))
  {
    hide Coherent, Live, Tally, Numbered, OutOf, Announces, IsLive, Ended, Buried, Conserves, EffectRepeated, SourcesOk;
    hide Below, Mailboxes, SourcesOk, IntentsInOrder, Traced, DisposalsTraced, Announced, Kept;
    StepFacts(cp, causal, state, emitted, lifecycle);
    var refs := RefsOf(emitted, cp.nextReceipt + 1);
    forall k | 0 <= k < |refs|
      ensures Announces(cp, cp', OutOf(causal, lifecycle), refs[k])
      ensures !refs[k].OutboxRef? ==>
          !Ended(cp.receipts, refs[k].eventId) && !Buried(cp.tombstones, refs[k].eventId) && !IsLive(cp, refs[k].eventId)
    {
      StepAnnounces(cp, cp', causal, state, emitted, lifecycle, k);
      if !emitted[k].ToOutbox? {
        AnnouncedNotLive(cp, causal, state, emitted, lifecycle, k);
      }
    }
    forall k, l | 0 <= k < l < |refs| && !refs[k].OutboxRef? && !refs[l].OutboxRef? ensures refs[k].eventId != refs[l].eventId {
      var s := AnnouncedEntry(cp, causal, state, emitted, lifecycle, k);
      var t := AnnouncedEntry(cp, causal, state, emitted, lifecycle, l);
      assert s.acceptance < t.acceptance;
    }
  }

  // ------------------------------------------------------------------------------------------
  // Effects
  // ------------------------------------------------------------------------------------------

  /** `at[i]` is the position of the emission behind the i-th pending record. */
  ghost predicate PendingsAt(emitted: seq<Emitted>, revision: nat, ps: seq<PendingEffect>, at: seq<nat>) {
    && |at| == |ps|
    && (forall i :: 0 <= i < |ps| ==>
          at[i] < |emitted| && emitted[at[i]].ToOutbox? && ps[i] == PendingEffect(emitted[at[i]].intent, revision, NotAttempted))
    && Increasing(at)
    && (forall k: nat :: k < |emitted| && emitted[k].ToOutbox? ==> Occurs(k, at))
  }

  lemma PendingsMore(init: seq<Emitted>, m: Emitted, revision: nat, ps: seq<PendingEffect>, at: seq<nat>)
    requires PendingsAt(init, revision, ps, at)
    ensures m.ToOutbox? ==> PendingsAt(init + [m], revision, ps + [PendingEffect(m.intent, revision, NotAttempted)], at + [|init|])
    ensures !m.ToOutbox? ==> PendingsAt(init + [m], revision, ps, at)
  {
    hide Occurs;
    var emitted := init + [m];
    forall k: nat | k < |emitted| && emitted[k].ToOutbox? ensures Occurs(k, at + [|init|]) && (k < |init| ==> Occurs(k, at)) {
      OccursMore(k, at, |init|);
    }
  }

  lemma {:induction false} PendingsOf(emitted: seq<Emitted>, revision: nat) returns (at: seq<nat>)
    ensures PendingsAt(emitted, revision, Pendings(emitted, revision), at)
  {
    if emitted == [] {
      at := [];
    } else {
      hide PendingsAt;
      var init, m := emitted[..|emitted| - 1], emitted[|emitted| - 1];
      var at' := PendingsOf(init, revision);
      assert emitted == init + [m];
      PendingsMore(init, m, revision, Pendings(init, revision), at');
      at := if m.ToOutbox? then at' + [|init|] else at';
    }
  }

  /** The new pending records and the emissions behind them. */
  ghost predicate PendingFrom(cp: Checkpoint, cp': Checkpoint, emitted: seq<Emitted>, at: seq<nat>) {
    var n := |cp.pending|;
    && |cp'.pending| == n + |at|
    && (forall i :: 0 <= i < |at| ==>
          && at[i] < |emitted| && emitted[at[i]].ToOutbox?
          && cp'.pending[n + i] == PendingEffect(emitted[at[i]].intent, cp'.revision, NotAttempted))
    && Increasing(at)
    && (forall k: nat :: k < |emitted| && emitted[k].ToOutbox? ==> Occurs(k, at))
  }

  lemma PendingsFrom(cp: Checkpoint, cp': Checkpoint, emitted: seq<Emitted>) returns (at: seq<nat>)
    requires cp'.pending == cp.pending + Pendings(emitted, cp'.revision)
    ensures PendingFrom(cp, cp', emitted, at)
  {
    hide Pendings, Occurs;
    at := PendingsOf(emitted, cp'.revision);
    var ps := Pendings(emitted, cp'.revision);
    forall i | 0 <= i < |at|
      ensures at[i] < |emitted| && emitted[at[i]].ToOutbox?
      ensures cp'.pending[|cp.pending| + i] == PendingEffect(emitted[at[i]].intent, cp'.revision, NotAttempted)
    {
      assert cp'.pending[|cp.pending| + i] == ps[i];
    }
  }

  lemma NewPendingIff(cp: Checkpoint, cp': Checkpoint, emitted: seq<Emitted>, first: nat, at: seq<nat>, f: Text)
    requires PendingFrom(cp, cp', emitted, at)
    ensures AnnouncesEffect(RefsOf(emitted, first), f) <==> NewPending(cp, cp', f)
  {
    var n, refs := |cp.pending|, RefsOf(emitted, first);
    if AnnouncesEffect(refs, f) {
      var k :| 0 <= k < |refs| && refs[k].OutboxRef? && refs[k].effectId == f;
      assert emitted[k].ToOutbox?;
      var i :| 0 <= i < |at| && at[i] == k;
      assert cp'.pending[n + i].intent.effectId == f;
    }
    if NewPending(cp, cp', f) {
      var i :| n <= i < |cp'.pending| && cp'.pending[i].intent.effectId == f;
      assert cp'.pending[n + (i - n)].intent == emitted[at[i - n]].intent;
      assert refs[at[i - n]] == RefOf(emitted[at[i - n]], first);
    }
  }

  lemma NewPendingAt(cp: Checkpoint, cp': Checkpoint, state: Aggregate, emitted: seq<Emitted>, at: seq<nat>, i: int)
    requires cp.record.Retained? && cp'.record == Retained(state) && IntentsInOrder(cp.record.aggregate, state, emitted)
    requires !EffectRepeated(cp, emitted) && PendingFrom(cp, cp', emitted, at) && |cp.pending| <= i < |cp'.pending|
    ensures && cp'.pending[i].revision == cp'.revision
            && cp'.pending[i].intent.sequence >= cp.record.aggregate.nextOutput
            && cp'.pending[i].intent.sequence < state.nextOutput
            && !IsPending(cp, cp'.pending[i].intent.effectId)
            && !IsTerminal(cp, cp'.pending[i].intent.effectId)
            && !IsCompacted(cp, cp'.pending[i].intent.effectId)
    ensures forall j :: i < j < |cp'.pending| ==> cp'.pending[i].intent.sequence < cp'.pending[j].intent.sequence
    ensures forall j :: i < j < |cp'.pending| ==> cp'.pending[i].intent.effectId != cp'.pending[j].intent.effectId
  {
    var n := |cp.pending|;
    assert cp'.pending[n + (i - n)].intent == emitted[at[i - n]].intent;
    assert !EffectRetained(cp, emitted[at[i - n]].intent.effectId);
    hide EffectRetained;
    forall j | i < j < |cp'.pending|
      ensures cp'.pending[i].intent.sequence < cp'.pending[j].intent.sequence
      ensures cp'.pending[i].intent.effectId != cp'.pending[j].intent.effectId
    {
      assert cp'.pending[n + (j - n)].intent == emitted[at[j - n]].intent;
      assert at[i - n] < at[j - n];
      assert emitted[at[i - n]].ToOutbox? && emitted[at[j - n]].ToOutbox?;
    }
  }

  lemma StepEffects(cp: Checkpoint, cp': Checkpoint, state: Aggregate, emitted: seq<Emitted>)
    requires cp.record.Retained? && cp'.record == Retained(state) && IntentsInOrder(cp.record.aggregate, state, emitted)
    requires !EffectRepeated(cp, emitted)
    requires cp'.pending == cp.pending + Pendings(emitted, cp'.revision)
    requires cp'.terminals == cp.terminals && cp'.compacted == cp.compacted && cp'.nextTerminal == cp.nextTerminal
    ensures EffectsAdvance(cp, cp', RefsOf(emitted, cp.nextReceipt + 1))
  {
    hide Pendings, PendingFrom, Occurs, IsPending, IsTerminal, IsCompacted, AnnouncesEffect, NewPending, EffectRetained, IntentsInOrder;
    var at := PendingsFrom(cp, cp', emitted);
    forall i | |cp.pending| <= i < |cp'.pending|
      ensures && cp'.pending[i].revision == cp'.revision
              && cp'.pending[i].intent.sequence >= cp.record.aggregate.nextOutput
              && cp'.pending[i].intent.sequence < state.nextOutput
              && !IsPending(cp, cp'.pending[i].intent.effectId)
              && !IsTerminal(cp, cp'.pending[i].intent.effectId)
              && !IsCompacted(cp, cp'.pending[i].intent.effectId)
      ensures forall j :: i < j < |cp'.pending| ==> cp'.pending[i].intent.sequence < cp'.pending[j].intent.sequence
      ensures forall j :: i < j < |cp'.pending| ==> cp'.pending[i].intent.effectId != cp'.pending[j].intent.effectId
    {
      NewPendingAt(cp, cp', state, emitted, at, i);
    }
    forall f ensures AnnouncesEffect(RefsOf(emitted, cp.nextReceipt + 1), f) <==> NewPending(cp, cp', f) {
      NewPendingIff(cp, cp', emitted, cp.nextReceipt + 1, at, f);
    }
  }

  // ------------------------------------------------------------------------------------------
  // The whole commit
  // ------------------------------------------------------------------------------------------

  lemma StepRecord(cp: Checkpoint, cp': Checkpoint, causal: Entry, state: Aggregate, emitted: seq<Emitted>, lifecycle: seq<Lifecycle>)
    requires StepOk(cp, causal, state, emitted, lifecycle) && cp'.record == Retained(state)
    requires cp' == cp.(revision := cp.revision + 1, record := cp'.record, nextReceipt := cp'.nextReceipt, pending := cp'.pending, receipts := cp'.receipts)
    ensures cp.record.Retained? && RecordAdvances(cp, cp', OutOf(causal, lifecycle))
  {
    hide StepOk, MailOf, Distinct, Tally, OutOf, Below, Mailboxes, SourcesOk, Announced, EmittedInOrder, IntentsInOrder, Traced, DisposalsTraced, Kept;
    StepFacts(cp, causal, state, emitted, lifecycle);
    OutMail(state, causal, lifecycle);
  }

  lemma NewRefsStay(cp: Checkpoint, cp': Checkpoint, causal: Entry, state: Aggregate, emitted: seq<Emitted>, lifecycle: seq<Lifecycle>,
                    q: map<(Text, nat), nat>, t: map<Text, nat>, r: Receipt)
    requires StepOk(cp, causal, state, emitted, lifecycle) && cp'.record == Retained(state)
    requires Rewrites(cp, cp', OutOf(causal, lifecycle), q, t)
    requires r.Terminal? && r.refs == RefsOf(emitted, cp.nextReceipt + 1)
    ensures RewriteReceipt(t, r) == r
  {
    hide StepOk, OutOf, Live;
    forall k | 0 <= k < |r.Refs()| && r.Refs()[k].MailboxRef? ensures r.Refs()[k].eventId !in t {
      StepAnnounces(cp, cp', causal, state, emitted, lifecycle, k);
    }
    SameRefs(t, r);
  }

  lemma StepReceipts(cp: Checkpoint, causal: Entry, state: Aggregate, disposition: Disposition, emitted: seq<Emitted>, lifecycle: seq<Lifecycle>)
    requires StepOk(cp, causal, state, emitted, lifecycle)
    requires var cp' := CommitStep(cp, causal, state, disposition, emitted, lifecycle);
             Rewrites(cp, cp', OutOf(causal, lifecycle), QueueMap(Flat(state.runtimes)), EndedMap(cp, causal, lifecycle))
    ensures var cp' := CommitStep(cp, causal, state, disposition, emitted, lifecycle);
            && |cp'.receipts| == |cp.receipts| + 1 + |lifecycle|
            && cp'.receipts == RewriteAll(EndedMap(cp, causal, lifecycle), SyncAll(QueueMap(Flat(state.runtimes)), cp.receipts))
               + [CausalReceipt(causal, cp.nextReceipt, cp'.revision, state, disposition, RefsOf(emitted, cp.nextReceipt + 1))]
               + LifecycleReceipts(lifecycle, cp.nextReceipt + 1, cp'.revision, AggregateDigest(state), RootStatus(state))
  {
    hide StepOk, QueueMap, Flat, EndedBy, Rewrites, RootStatus, RefsOf;
    var cp' := CommitStep(cp, causal, state, disposition, emitted, lifecycle);
    var q, t := QueueMap(Flat(state.runtimes)), EndedMap(cp, causal, lifecycle);
    var r := CausalReceipt(causal, cp.nextReceipt, cp'.revision, state, disposition, RefsOf(emitted, cp.nextReceipt + 1));
    NewRefsStay(cp, cp', causal, state, emitted, lifecycle, q, t, r);
    assert RewriteAll(t, SyncAll(q, cp.receipts) + [r]) == RewriteAll(t, SyncAll(q, cp.receipts)) + [r];
  }

  lemma CommitReceipts(cp: Checkpoint, cp': Checkpoint, causal: Entry, lifecycle: seq<Lifecycle>, refs: seq<Reference>, old': seq<Receipt>, r: Receipt, status: Status)
    requires |old'| == |cp.receipts| && forall i :: 0 <= i < |old'| ==> SameBody(cp.receipts[i], old'[i])
    requires cp'.receipts == old' + [r] + LifecycleReceipts(lifecycle, cp.nextReceipt + 1, cp'.revision, CurrentDigest(cp'), status)
    requires cp'.nextReceipt == cp.nextReceipt + 1 + |lifecycle|
    requires Ends(r, causal) && r.sequence == cp.nextReceipt && r.revision == cp'.revision && r.digest == CurrentDigest(cp') && r.refs == refs
    ensures ReceiptsAdvance(cp, cp', OutOf(causal, lifecycle), refs)
  {
    hide SameBody, CurrentDigest, EndsAt, OutOf, LifecycleReceipts;
    var n, out := |cp.receipts|, OutOf(causal, lifecycle);
    var ends := LifecycleReceipts(lifecycle, cp.nextReceipt + 1, cp'.revision, CurrentDigest(cp'), status);
    OutLength(causal, lifecycle);
    LifecycleCount(lifecycle, cp.nextReceipt + 1, cp'.revision, CurrentDigest(cp'), status);
    forall i | 0 <= i < n ensures SameBody(cp.receipts[i], cp'.receipts[i]) {
      assert cp'.receipts[i] == old'[i];
    }
    forall j: nat | j < |out| ensures EndsAt(cp, cp', out, refs, j) {
      assert cp'.receipts[n + j] == if j == 0 then r else ends[j - 1];
      CommitEndsAt(cp, cp', causal, lifecycle, refs, r, status, j);
    }
  }

  lemma LifecycleCount(ls: seq<Lifecycle>, first: nat, revision: nat, digest: AggregateDigest, status: Status)
    ensures |LifecycleReceipts(ls, first, revision, digest, status)| == |ls|
  {
  }

  lemma CommitEndsAt(cp: Checkpoint, cp': Checkpoint, causal: Entry, lifecycle: seq<Lifecycle>, refs: seq<Reference>, r: Receipt, status: Status, j: nat)
    requires j < |OutOf(causal, lifecycle)| && |cp'.receipts| == |cp.receipts| + |OutOf(causal, lifecycle)|
    requires |OutOf(causal, lifecycle)| == 1 + |lifecycle| == 1 + |LifecycleReceipts(lifecycle, cp.nextReceipt + 1, cp'.revision, CurrentDigest(cp'), status)|
    requires cp'.receipts[|cp.receipts| + j]
             == if j == 0 then r else LifecycleReceipts(lifecycle, cp.nextReceipt + 1, cp'.revision, CurrentDigest(cp'), status)[j - 1]
    requires Ends(r, causal) && r.sequence == cp.nextReceipt && r.revision == cp'.revision && r.digest == CurrentDigest(cp') && r.refs == refs
    ensures EndsAt(cp, cp', OutOf(causal, lifecycle), refs, j)
  {
    hide CurrentDigest, OutOf;
    OutAt(causal, lifecycle, j);
  }

  /** A committed step is a transition. */
  lemma CommitStepTransition(cp: Checkpoint, causal: Entry, state: Aggregate, disposition: Disposition, emitted: seq<Emitted>, lifecycle: seq<Lifecycle>)
    requires Coherent(cp) && StepOk(cp, causal, state, emitted, lifecycle)
    ensures Transition(cp, CommitStep(cp, causal, state, disposition, emitted, lifecycle), OutOf(causal, lifecycle), RefsOf(emitted, cp.nextReceipt + 1))
  {
    hide Coherent, OutOf, RecordAdvances, RefsAdvance, EntriesAdvance, AnnouncementsOk, EffectsAdvance, Conserves, Named, SourcesOk, EmittedFresh;
    hide EffectRepeated, QueueMap, Flat, EndedMap, RootStatus, RefsOf, Pendings, Rewrites, RewriteAll, SyncAll, LifecycleReceipts, ReceiptsAdvance;
    hide IntentsInOrder, Traced, DisposalsTraced, Kept, Announced, Mailboxes, Below, Distinct;
    var cp' := CommitStep(cp, causal, state, disposition, emitted, lifecycle);
    var q, t, out, refs := QueueMap(Flat(state.runtimes)), EndedMap(cp, causal, lifecycle), OutOf(causal, lifecycle), RefsOf(emitted, cp.nextReceipt + 1);
    var r := CausalReceipt(causal, cp.nextReceipt, cp'.revision, state, disposition, refs);
    StepFacts(cp, causal, state, emitted, lifecycle);
    StepEntries(cp, cp', causal, state, emitted, lifecycle);
    StepRewrites(cp, cp', causal, state, emitted, lifecycle);
    StepReceipts(cp, causal, state, disposition, emitted, lifecycle);
    RewriteBodies(q, t, cp.receipts);
    assert cp'.receipts[..|cp.receipts|] == RewriteAll(t, SyncAll(q, cp.receipts));
    RewriteAdvances(cp, cp', out, refs, q, t);
    CommitReceipts(cp, cp', causal, lifecycle, refs, RewriteAll(t, SyncAll(q, cp.receipts)), r, RootStatus(state));
    StepRecord(cp, cp', causal, state, emitted, lifecycle);
    StepAnnouncements(cp, cp', causal, state, emitted, lifecycle);
    StepEffects(cp, cp', state, emitted);
  }

  lemma CommitStepInv(cp: Checkpoint, causal: Entry, state: Aggregate, disposition: Disposition, emitted: seq<Emitted>, lifecycle: seq<Lifecycle>)
    requires Inv(cp) && StepOk(cp, causal, state, emitted, lifecycle)
    ensures Inv(CommitStep(cp, causal, state, disposition, emitted, lifecycle))
  {
    hide Coherent, Sourced, StepOk, Transition, CommitStep;
    CommitStepTransition(cp, causal, state, disposition, emitted, lifecycle);
    TransitionInv(cp, CommitStep(cp, causal, state, disposition, emitted, lifecycle), OutOf(causal, lifecycle), RefsOf(emitted, cp.nextReceipt + 1));
  }
}
