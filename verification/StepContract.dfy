/**
 What one core step does to mailbox entries, independent of how it does it. The checkpoint
 operations rely on this contract only; `StepProofs` derives it from the core itself.
 */
module StepContract {
  import opened CheckpointModel
  import opened CheckpointValidity
  import opened WireCore
  import opened WireCoreProofs

  /** `t` is entry `b`, possibly requeued under a number that was not yet allocated. */
  predicate Moved(b: Entry, t: Entry, nextQueue: nat) {
    t == b || (t == b.(queue := t.queue, deferrals := t.deferrals) && t.queue >= nextQueue)
  }

  /** `t` is an entry that the step itself created. */
  predicate New(a: Aggregate, t: Entry) {
    t.mode.Internal? && t.acceptance >= a.nextAcceptance && t.queue >= a.nextQueue
  }

  predicate AnnouncesLive(m: Emitted, t: Entry) {
    m.ToMailbox? && m.eventId == t.Id() && m.acceptance == t.acceptance && m.queue == t.queue
  }

  predicate AnnouncesDisposal(m: Emitted, t: Entry, l: nat) {
    m.ToDisposal? && m.eventId == t.Id() && m.acceptance == t.acceptance && m.lifecycle == l
  }

  /** Identity fields that no step changes, and counters that only grow. */
  predicate Follows(a: Aggregate, b: Aggregate) {
    && b.root == a.root && b.creationId == a.creationId && b.fingerprint == a.fingerprint && b.rootRuntime == a.rootRuntime
    && b.nextAcceptance >= a.nextAcceptance && b.nextQueue >= a.nextQueue && b.nextOutput >= a.nextOutput
  }

  ghost predicate Mailboxes(a: Aggregate) {
    DistinctRuntimes(a.runtimes) && forall i :: 0 <= i < |a.runtimes| ==> BoxesOk(a.root, a.runtimes[i])
  }

  /** Every entry of the result comes from an entry of before or is announced as an emission. */
  ghost predicate Traced(a: Aggregate, causal: Entry, state: Aggregate, emitted: seq<Emitted>) {
    forall t :: t in MailOf(state.runtimes) ==>
      || (exists b :: b in MailOf(a.runtimes) && b != causal && Moved(b, t, a.nextQueue))
      || (New(a, t) && exists k :: 0 <= k < |emitted| && AnnouncesLive(emitted[k], t))
  }

  /** Every disposal is an entry of before or is announced as an emission. */
  ghost predicate DisposalsTraced(a: Aggregate, lifecycle: seq<Lifecycle>, emitted: seq<Emitted>) {
    forall l :: 0 <= l < |lifecycle| ==>
      || lifecycle[l].entry in MailOf(a.runtimes)
      || (New(a, lifecycle[l].entry) && exists k :: 0 <= k < |emitted| && AnnouncesDisposal(emitted[k], lifecycle[l].entry, l))
  }

  /** No entry of before gets lost. */
  ghost predicate Kept(a: Aggregate, causal: Entry, state: Aggregate, lifecycle: seq<Lifecycle>) {
    forall b :: b in MailOf(a.runtimes) ==>
      || b == causal
      || (exists t :: t in MailOf(state.runtimes) && Moved(b, t, a.nextQueue))
      || (exists l :: 0 <= l < |lifecycle| && lifecycle[l].entry == b)
  }

  /** Every announced emission has its entry. */
  ghost predicate Announced(a: Aggregate, state: Aggregate, lifecycle: seq<Lifecycle>, emitted: seq<Emitted>) {
    forall k :: 0 <= k < |emitted| ==>
      match emitted[k]
      case ToOutbox(_, _) => true
      case ToMailbox(_, _, _, _) =>
        exists t :: t in MailOf(state.runtimes) && New(a, t) && AnnouncesLive(emitted[k], t)
      case ToDisposal(_, _, _, l) =>
        l < |lifecycle| && New(a, lifecycle[l].entry) && AnnouncesDisposal(emitted[k], lifecycle[l].entry, l)
  }

  /** Emissions are announced in the order in which their numbers were allocated. */
  ghost predicate EmittedInOrder(emitted: seq<Emitted>) {
    forall k, l :: 0 <= k < l < |emitted| && !emitted[k].ToOutbox? && !emitted[l].ToOutbox? ==>
      emitted[k].acceptance < emitted[l].acceptance
  }

  /** Outbox intents carry fresh, increasing sequence numbers. */
  ghost predicate IntentsInOrder(a: Aggregate, state: Aggregate, emitted: seq<Emitted>) {
    && (forall k :: 0 <= k < |emitted| && emitted[k].ToOutbox? ==>
          a.nextOutput <= emitted[k].intent.sequence < state.nextOutput)
    && (forall k, l :: 0 <= k < l < |emitted| && emitted[k].ToOutbox? && emitted[l].ToOutbox? ==>
          emitted[k].intent.sequence < emitted[l].intent.sequence)
  }

  /** The live, the disposed and the consumed entries after the step. */
  function Tally(state: Aggregate, lifecycle: seq<Lifecycle>, causal: Entry): multiset<Entry> {
    MailOf(state.runtimes) + LifeMail(lifecycle) + multiset{causal}
  }

  /** A committed step, without any assumption about the event ids that the dispatcher chose. */
  ghost predicate Conserves(a: Aggregate, causal: Entry, state: Aggregate, emitted: seq<Emitted>, lifecycle: seq<Lifecycle>) {
    && Follows(a, state)
    && Mailboxes(state)
    && Numbered(Tally(state, lifecycle, causal))
    && Below(Tally(state, lifecycle, causal), state.nextAcceptance, state.nextQueue)
    && Traced(a, causal, state, emitted)
    && DisposalsTraced(a, lifecycle, emitted)
    && Kept(a, causal, state, lifecycle)
    && Announced(a, state, lifecycle, emitted)
    && EmittedInOrder(emitted)
    && IntentsInOrder(a, state, emitted)
  }

  /** A deferral keeps every entry and requeues the head. */
  ghost predicate Defers(a: Aggregate, causal: Entry, state: Aggregate) {
    && Follows(a, state)
    && state.nextAcceptance == a.nextAcceptance
    && Mailboxes(state)
    && Distinct(MailOf(state.runtimes))
    && Below(MailOf(state.runtimes), state.nextAcceptance, state.nextQueue)
    && (forall t :: t in MailOf(state.runtimes) ==> exists b :: b in MailOf(a.runtimes) && Moved(b, t, a.nextQueue))
    && (forall b :: b in MailOf(a.runtimes) ==> exists t :: t in MailOf(state.runtimes) && Moved(b, t, a.nextQueue))
  }

  // ------------------------------------------------------------------------------------------
  // What the dispatcher promises
  // ------------------------------------------------------------------------------------------

  /** Runtime names are unique, and output numbers come from the output counter, in the order of emission. */
  ghost predicate DispatcherOk(a: Aggregate, n: Native) {
    && DistinctNatives(n.runtimes)
    && n.nextOutput >= a.nextOutput
    && (forall k :: 0 <= k < |n.emissions| && n.emissions[k].External? ==>
          a.nextOutput <= n.emissions[k].intent.sequence < n.nextOutput)
    && (forall k, l :: 0 <= k < l < |n.emissions| && n.emissions[k].External? && n.emissions[l].External? ==>
          n.emissions[k].intent.sequence < n.emissions[l].intent.sequence)
  }
}
