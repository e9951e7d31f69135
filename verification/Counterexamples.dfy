/** Concrete inputs on which an operation that does not validate its result leaves an invalid checkpoint. */
module Counterexamples {
  import opened Wrappers
  import opened CheckpointModel
  import opened CheckpointValidity
  import opened WireCore
  import opened WireCoreProofs
  import opened StepContract
  import opened StepTheorem
  import opened StepIdentity
  import opened StepSources
  import opened AdmissionProofs
  import opened TransitionTheorem
  import opened CheckpointOps
  import opened IdentityProofs
  import opened AdmitProofs
  import opened AdmitTheorem
  import opened StepPreservation
  import opened CreateTheorem
  import opened ProcessProofs
  import opened Identities
  import opened Novelty

  // ------------------------------------------------------------------------------------------
  // An internal delivery
  // ------------------------------------------------------------------------------------------

  /** A root with one running runtime and nothing to emit. */
  function QuietRoot(): NativeRoot {
    NativeRoot("definition", "root", [NativeRuntime("root", Running, "", {})], [], 0)
  }

  function QuietAggregate(): Aggregate {
    Aggregate("r", "creation", "definition", "root", 0, 0, 0, 1, [Runtime("root", Running, [], [], "")])
  }

  function QuietCheckpoint(): Checkpoint {
    CreateInto("r", "creation", "request", Permanent, CreateCore("r", "creation", QuietRoot()))
  }

  lemma QuietCore()
    ensures CreateCore("r", "creation", QuietRoot()) == Build(QuietAggregate(), [], [])
  {
    var n := QuietRoot();
    MergeAt([], n.runtimes);
    assert Bare(n.runtimes) == QuietAggregate().runtimes;
  }

  lemma QuietIsInv()
    ensures Create("r", "creation", "request", Permanent, QuietRoot()) == Ok(QuietCheckpoint()) && Inv(QuietCheckpoint())
  {
    hide Inv, Valid, CreateCore, CreateInto;
    CandidateIff("r", "creation", "request", Permanent, QuietRoot());
    CreateIff("r", "creation", "request", Permanent, QuietRoot());
  }

  lemma QuietShape()
    ensures var cp := QuietCheckpoint();
            && cp.root == "r" && cp.record == Retained(QuietAggregate()) && cp.tombstones == []
            && |cp.receipts| == 1 && cp.receipts[0].Creation?
  {
    hide CreateCore;
    QuietCore();
  }

  lemma QuietKnowsNothing()
    ensures RetainedIdentity(QuietCheckpoint()) == map[]
  {
    hide QuietCheckpoint;
    QuietShape();
    var cp := QuietCheckpoint();
    assert cp.receipts[..0] == [];
    assert TerminalIdentities(cp.receipts, cp.receipts[..0], map[]) == map[];
    assert TerminalIdentities(cp.receipts, cp.receipts, map[]) == map[];
    var rs := QuietAggregate().runtimes;
    assert rs[..0] == [];
    assert RuntimeIdentities(cp.receipts, rs[..0], map[]) == map[];
    assert RuntimeIdentities(cp.receipts, rs, map[]) == map[];
  }

  /** What a single delivery to a checkpoint that does not know it needs in order to be admitted. */
  lemma SingleAdmission(cp: Checkpoint, bundle: Text, d: Delivery)
    requires cp.record.Retained? && d.envelope.target.root == cp.root && d.envelope.eventId !in RetainedIdentity(cp)
    requires StatusOf(cp.record.aggregate.runtimes, cp.record.aggregate.rootRuntime) == Some(Running) && cp.record.aggregate.fingerprint == bundle
    requires Checked(cp.record.aggregate, d)
    ensures var answer := Admit(cp, Some(bundle), [d], Guard(None, None), e => true);
            && answer.Ok? && answer.value.Next? && answer.value.next.revision == cp.revision + 1
            && Unknown(RetainedIdentity(cp), [d]) == [d]
  {
    hide RetainedIdentity, StatusOf, SourceAllowed, Targeted, EnqueueAll;
    var known := RetainedIdentity(cp);
    assert [d][..0] == [];
    assert Unknown(known, []) == [];
    assert FirstProblem(known, cp.root, []) == None;
    assert FirstProblem(known, cp.root, [d]) == None;
  }

  /** A completion event that claims to come from the engine. */
  function EngineDelivery(): Delivery {
    var envelope := Envelope("done", "event", "cause", SystemSource("system:component_completion"), Target("r", "root"), "");
    Delivery(Internal, envelope, EnvelopeDigest("r", Internal, envelope))
  }

  lemma EngineChecked()
    ensures Checked(QuietAggregate(), EngineDelivery())
    ensures StatusOf(QuietAggregate().runtimes, "root") == Some(Running)
  {
    assert Find(QuietAggregate().runtimes, "root") == 0;
  }

  /** Admitting an internal delivery from the host succeeds and leaves a checkpoint that fails validation. */
  lemma InternalDeliveryFails()
    ensures var cp := QuietCheckpoint();
            var answer := Admit(cp, Some("definition"), [EngineDelivery()], Guard(None, None), e => true);
            && Inv(cp) && answer.Ok? && answer.value.Next? && !Valid(answer.value.next)
  {
    hide Inv, Valid, QuietCheckpoint, Checked, Admit, RetainedIdentity, StatusOf, Unknown;
    QuietIsInv();
    QuietShape();
    QuietKnowsNothing();
    EngineChecked();
    var cp, d := QuietCheckpoint(), EngineDelivery();
    SingleAdmission(cp, "definition", d);
    AdmitInvIff(cp, Some("definition"), [d], Guard(None, None), e => true);
    assert [d][0].mode.Internal?;
  }

  // ------------------------------------------------------------------------------------------
  // A lost emitter
  // ------------------------------------------------------------------------------------------

  /** The id that creation derives for the k-th event of the child. */
  function Sent(k: nat): Text {
    EventIdentity(EventOrigin("r", "child", "root", "cause", 0, "/send", k))
  }

  lemma SentApart()
    ensures Sent(0) != Sent(1)
  {
    hide EventIdentity;
    if Sent(0) == Sent(1) {
      EventInjective(EventOrigin("r", "child", "root", "cause", 0, "/send", 0), EventOrigin("r", "child", "root", "cause", 0, "/send", 1));
    }
  }

  lemma SentNotCause(k: nat)
    ensures Sent(k) != "cause"
  {
    hide EventIdentity;
    NotItsCause(EventOrigin("r", "child", "root", "cause", 0, "/send", k));
  }

  function Message(k: nat): Emission {
    Send(k, Sent(k), "cause", "child", None, "root", "event", "")
  }

  /** A root whose child sends it two events during creation. */
  function BusyRoot(): NativeRoot {
    NativeRoot("definition", "root", [NativeRuntime("root", Running, "", {}), NativeRuntime("child", Running, "", {})],
               [Message(0), Message(1)], 0)
  }

  function BusyEntry(k: nat): Entry {
    var envelope := Envelope("event", Sent(k), "cause", RuntimeSource(Target("r", "child")), Target("r", "root"), "");
    Entry(k, k, Internal, envelope, EnvelopeDigest("r", Internal, envelope), 0)
  }

  function BusyAggregate(): Aggregate {
    Aggregate("r", "creation", "definition", "root", 2, 2, 0, 1,
              [Runtime("root", Running, [BusyEntry(0), BusyEntry(1)], [], ""), Runtime("child", Running, [], [], "")])
  }

  lemma BusyCore()
    ensures CreateCore("r", "creation", BusyRoot()) == Build(BusyAggregate(), [], [ToMailbox(0, Sent(0), 0, 0), ToMailbox(1, Sent(1), 1, 1)])
  {
    hide Sent;
    var n := BusyRoot();
    var bare := [Runtime("root", Running, [], [], ""), Runtime("child", Running, [], [], "")];
    MergeAt([], n.runtimes);
    assert Bare(n.runtimes) == bare;
    var b0 := Build(Aggregate("r", "creation", "definition", "root", 0, 0, 0, 1, bare), [], []);
    var ms := n.emissions;
    assert ms[..1] == [Message(0)] && ms[..1][..0] == [];
    assert EmitAll(b0, []) == b0;
    var one := [Runtime("root", Running, [BusyEntry(0)], [], ""), Runtime("child", Running, [], [], "")];
    assert Find(bare, "root") == 0 && Find(one, "root") == 0;
    var b1 := Build(Aggregate("r", "creation", "definition", "root", 1, 1, 0, 1, one), [], [ToMailbox(0, Sent(0), 0, 0)]);
    assert [] + [BusyEntry(0)] == [BusyEntry(0)];
    assert Push(bare, 0, BusyEntry(0)) == one;
    assert Emit(b0, Message(0)) == b1;
    assert EmitAll(b0, ms[..1]) == b1;
    assert [BusyEntry(0)] + [BusyEntry(1)] == [BusyEntry(0), BusyEntry(1)];
    assert Push(one, 0, BusyEntry(1)) == BusyAggregate().runtimes;
    assert Emit(b1, Message(1)).aggregate == BusyAggregate();
    assert EmitAll(b0, ms) == Emit(b1, Message(1));
  }

  function BusyCheckpoint(): Checkpoint {
    CreateInto("r", "creation", "request", Permanent, CreateCore("r", "creation", BusyRoot()))
  }

  lemma BusySustains()
    ensures RootOk(BusyRoot()) && RootSustains(BusyRoot()) && DistinctEffects(BusyRoot().emissions)
  {
    hide Sent;
    SentApart();
    SentNotCause(0);
    SentNotCause(1);
    var n := BusyRoot();
    assert n.runtimes[1].id == "child";
    assert IsNative(n.runtimes, "child");
  }

  lemma BusyIsInv()
    ensures Create("r", "creation", "request", Permanent, BusyRoot()) == Ok(BusyCheckpoint()) && Inv(BusyCheckpoint())
    ensures BusyCheckpoint().record == Retained(BusyAggregate()) && BusyCheckpoint().root == "r"
  {
    hide Inv, Valid, CreateCore, RootOk, RootSustains, DistinctEffects, BusyRoot, RefsOf, LifecycleReceipts, Pendings, RootStatus;
    BusyCore();
    BusySustains();
    CandidateIff("r", "creation", "request", Permanent, BusyRoot());
    CreateIff("r", "creation", "request", Permanent, BusyRoot());
  }

  /** The dispatcher drops the child while the root still holds an event from it. */
  function DropChild(): Native {
    Native([NativeRuntime("root", Running, "", {})], Handled, [], 0, 2)
  }

  lemma BusyMail(k: nat)
    requires k < 2
    ensures BusyEntry(k) in MailOf(BusyAggregate().runtimes)
  {
    hide MailOf, Sent;
    var rs := BusyAggregate().runtimes;
    assert BusyEntry(k) == rs[0].ready[k];
    assert BusyEntry(k) in Mail(rs[0]);
    MailMember(rs, BusyEntry(k));
  }

  /** Without external emissions no effect id can repeat. */
  lemma NoEffects(cp: Checkpoint, n: Native)
    requires Inv(cp) && CanStep(cp, 0) && DispatcherOk(cp.record.aggregate, n) && forall k :: 0 <= k < |n.emissions| ==> n.emissions[k].Send?
    ensures var r := Finish(cp.record.aggregate, 0, n); r.Committed? && !EffectRepeated(cp, r.emitted)
  {
    hide Coherent, Sourced, Finish, EffectRetained;
    FinishReports(cp, 0, n);
  }

  /** The child's second event stays, and its emitter does not. */
  lemma DropLosesEmitter()
    ensures !SourcesSurvive(BusyAggregate(), BusyEntry(0), DropChild())
  {
    hide MailOf, Sent;
    BusyMail(1);
    var n := DropChild();
    assert n.runtimes[0].id == "root";
    assert IsNative(n.runtimes, "root");
    assert Stayer(BusyAggregate(), BusyEntry(0), n, BusyEntry(1));
    assert !IsNative(n.runtimes, "child");
    assert !NativeCompleted(n.runtimes, "root");
  }

  lemma BusyCanStep()
    ensures Runnable(BusyAggregate(), 0) && BusyAggregate().runtimes[0].ready[0] == BusyEntry(0)
  {
  }

  /** A step that removes the emitter of a waiting event commits a checkpoint that fails validation. */
  lemma LostEmitterFails()
    ensures var cp := BusyCheckpoint(); var r := Finish(BusyAggregate(), 0, DropChild());
            && Inv(cp) && cp.record == Retained(BusyAggregate()) && r.Committed?
            && ApplyStep(cp, BusyEntry(0), r) == Ok(Next(CommitStep(cp, BusyEntry(0), r.state, r.disposition, r.emitted, r.lifecycle)))
            && !Valid(CommitStep(cp, BusyEntry(0), r.state, r.disposition, r.emitted, r.lifecycle))
  {
    hide Coherent, Sourced, Valid, Finish, CommitStep, CommitBase, Concerns, EffectRepeated, SourcesSurvive, NewIds, BusyAggregate, BusyEntry, BusyCheckpoint, SeveralProducers;
    BusyIsInv();
    BusyCanStep();
    var cp, n := BusyCheckpoint(), DropChild();
    DropDispatches();
    CommitValidIff(cp, 0, n);
    NoEffects(cp, n);
    OneProducerOf(cp, 0, n);
    DropLosesEmitter();
  }

  lemma DropDispatches()
    ensures DispatcherOk(BusyAggregate(), DropChild())
  {
  }

  // ------------------------------------------------------------------------------------------
  // A taken id
  // ------------------------------------------------------------------------------------------

  /** What the id of the root's next event will be derived from. */
  function NextOrigin(): EventOrigin {
    EventOrigin("r", "root", "root", Sent(0), 1, "/send", 0)
  }

  /** A host delivers input under the very id that the engine is about to derive. */
  function Forgery(): Delivery {
    var id := EventIdentity(NextOrigin());
    var envelope := Envelope("event", id, id, HostSource, Target("r", "root"), "");
    Delivery(Input, envelope, EnvelopeDigest("r", Input, envelope))
  }

  /** The root answers its first event with an event to itself. */
  function Answering(): Native {
    Native([NativeRuntime("root", Running, "", {}), NativeRuntime("child", Running, "", {})], Handled,
           [Send(0, EventIdentity(NextOrigin()), Sent(0), "root", None, "root", "event", "")], 0, 2)
  }

  lemma AnsweringIsProper(a: Aggregate)
    requires a.root == "r" && a.nextStep == 1 && a.nextOutput == 0
    ensures Identifies(a, Answering()) && DispatcherOk(a, Answering())
  {
    hide EventIdentity, Sent;
    assert Derived("r", 1, Answering().emissions, [OfEvent(NextOrigin())]);
  }

  lemma ForgeryUnknown()
    ensures !Known(BusyCheckpoint(), EventIdentity(NextOrigin()))
  {
    hide EventIdentity, Inv, Valid, Create, BusyCheckpoint, BusyAggregate, BusyRoot;
    var from := [OfEvent(EventOrigin("r", "child", "root", "cause", 0, "/send", 0)), OfEvent(EventOrigin("r", "child", "root", "cause", 0, "/send", 1))];
    BusyDerived(from);
    BusySustains();
    BusyIsInv();
    CreatedUntaken("r", "creation", "request", Permanent, BusyRoot(), from);
    BusyStep();
    assert EventAhead("r", 1, EventIdentity(NextOrigin()));
  }

  lemma BusyStep()
    ensures BusyAggregate().nextStep == 1 && BusyAggregate().nextOutput == 0 && BusyAggregate().root == "r" && BusyAggregate().fingerprint == "definition"
    ensures BusyAggregate().rootRuntime == "root" && StatusOf(BusyAggregate().runtimes, "root") == Some(Running)
    ensures Find(BusyAggregate().runtimes, "root") == 0
  {
  }

  lemma BusyDerived(from: seq<Derivation>)
    requires from == [OfEvent(EventOrigin("r", "child", "root", "cause", 0, "/send", 0)), OfEvent(EventOrigin("r", "child", "root", "cause", 0, "/send", 1))]
    ensures Derived("r", 0, BusyRoot().emissions, from)
  {
    hide EventIdentity;
  }

  lemma ForgeryChecked()
    ensures Checked(BusyAggregate(), Forgery())
  {
    hide EventIdentity, Sent;
    BusyStep();
  }

  /** The checkpoint after the forged delivery. */
  lemma ForgeryAdmitted()
    ensures var answer := Admit(BusyCheckpoint(), Some("definition"), [Forgery()], Guard(None, None), e => true);
            && answer.Ok? && answer.value.Next? && Inv(answer.value.next)
            && var cp := answer.value.next;
               && CanStep(cp, 0) && cp.record.aggregate.runtimes[0].ready[0] == BusyEntry(0)
               && cp.root == "r" && cp.record.aggregate.root == "r" && cp.record.aggregate.nextStep == 1 && cp.record.aggregate.nextOutput == 0
               && IsLive(cp, EventIdentity(NextOrigin())) && Accepted(cp.receipts, EventIdentity(NextOrigin()))
  {
    hide Inv, Valid, BusyCheckpoint, BusyAggregate, BusyEntry, EventIdentity, Admit, Checked, RetainedIdentity, Known, Extends, EnqueueAll, Targeted, Live, Ready, Acceptable, StatusOf;
    hide IsLive, Ended, Buried;
    BusyIsInv();
    BusyStep();
    BusyCanStep();
    ForgeryUnknown();
    ForgeryChecked();
    var cp, d := BusyCheckpoint(), Forgery();
    KnownIff(cp, d.envelope.eventId);
    SingleAdmission(cp, "definition", d);
    AdmittedOne(cp, "definition", d, Guard(None, None), e => true);
    var next := Admit(cp, Some("definition"), [d], Guard(None, None), e => true).value.next;
    assert AllInput([d]);
    ExtendsInv(cp, [d], next);
    ExtendsFacts(cp, [d], next);
    EnqueuedReady(BusyAggregate(), d);
    StillLive(cp, [d], next, d.envelope.eventId);
    ReceiptAt(cp, [d], next, |cp.receipts|);
    assert [d][0].envelope.eventId == d.envelope.eventId;
  }

  lemma AcceptedUnreferenced(cp: Checkpoint, id: Text, p: int, l: int)
    requires Coherent(cp) && Accepted(cp.receipts, id)
    ensures !Concerns(cp.receipts, p, l, id)
  {
    hide Coherent, Concerns;
    var j :| 0 <= j < |cp.receipts| && cp.receipts[j].Acceptance? && cp.receipts[j].eventId == id;
    NotBoth(cp, p, j, l);
  }

  /**
   A host delivers input under the id that the engine derives next. The delivery is admitted, the
   next step derives its ids as it should, and the commit leaves a checkpoint that fails validation.
   */
  lemma TakenIdFails()
    ensures var answer := Admit(BusyCheckpoint(), Some("definition"), [Forgery()], Guard(None, None), e => true);
            && answer.Ok? && answer.value.Next? && Inv(answer.value.next) && CanStep(answer.value.next, 0)
            && var cp := answer.value.next;
               var a := cp.record.aggregate;
               var r := Finish(a, 0, Answering());
               && a.runtimes[0].ready[0] == BusyEntry(0) && Identifies(a, Answering()) && !Untaken(cp) && r.Committed?
               && ApplyStep(cp, BusyEntry(0), r) == Ok(Next(CommitStep(cp, BusyEntry(0), r.state, r.disposition, r.emitted, r.lifecycle)))
               && !Valid(CommitStep(cp, BusyEntry(0), r.state, r.disposition, r.emitted, r.lifecycle))
  {
    hide Coherent, Sourced, Valid, Finish, CommitStep, CommitBase, Concerns, EffectRepeated, SourcesSurvive, BusyEntry, BusyCheckpoint, EventIdentity, Admit, Forgery, Live, Identifies, DispatcherOk, Ended, Buried, SeveralProducers;
    ForgeryAdmitted();
    var cp := Admit(BusyCheckpoint(), Some("definition"), [Forgery()], Guard(None, None), e => true).value.next;
    var n := Answering();
    AnsweringIsProper(cp.record.aggregate);
    CommitValidIff(cp, 0, n);
    NoEffects(cp, n);
    forall p, l ensures !Concerns(cp.receipts, p, l, EventIdentity(NextOrigin())) {
      AcceptedUnreferenced(cp, EventIdentity(NextOrigin()), p, l);
    }
    OneProducerOf(cp, 0, n);
    LiveHasId(cp, EventIdentity(NextOrigin()));
    assert n.emissions[0].eventId == EventIdentity(NextOrigin());
    assert !FreshIds(Live(cp), n.emissions);
    assert EventAhead("r", 1, EventIdentity(NextOrigin())) && Known(cp, EventIdentity(NextOrigin()));
  }
}
