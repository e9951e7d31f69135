/**
 The load, compute, validate, compare-and-swap protocol. A store holds one checkpoint per root; any
 number of hosts load checkpoints, compute replacements from what they loaded, and try to commit
 them. What is stored forms one chain per root, whatever anybody does.
 */
module Host {
  import opened Wrappers
  import opened CheckpointModel
  import opened CheckpointValidity
  import opened WireCore
  import opened CheckpointOps
  import opened Validation
  import opened Retention
  import opened RetentionProofs
  import opened Runs
  import opened CreateTheorem

  type Records = map<Text, Checkpoint>

  datatype Written =
    | Stored
    | Conflict(current: Option<Checkpoint>)
    | WrongReplacement
    | Refused(reason: PolicyFailure)
    | Invalid

  function Lookup(records: Records, root: Text): Option<Checkpoint> {
    if root in records then Some(records[root]) else None
  }

  /** The records after an insertion that fills a gap and that the policy allows. */
  function Inserted(mode: StoreMode, records: Records, cp: Checkpoint): Records {
    if cp.root in records || !CandidateAllowed(mode, cp) then records else records[cp.root := cp]
  }

  /** The stored record is the one that the writer expects, by revision and by content. */
  predicate Expected(records: Records, expected: Checkpoint) {
    expected.root in records && records[expected.root].revision == expected.revision && records[expected.root] == expected
  }

  /** A compare-and-swap takes place. */
  predicate Swaps(mode: StoreMode, records: Records, expected: Checkpoint, replacement: Checkpoint) {
    replacement.root == expected.root && Expected(records, expected) && ReplacementAllowed(mode, expected, replacement)
  }

  /** The records after a compare-and-swap. */
  function Swapped(mode: StoreMode, records: Records, expected: Checkpoint, replacement: Checkpoint): Records {
    if Swaps(mode, records, expected, replacement) then records[expected.root := replacement] else records
  }

  /** The creation receipt, if it attests this very creation. */
  function ReplayCreation(cp: Checkpoint, creationId: Text, request: Text): Result<Receipt, Failure> {
    if cp.receipts == [] || !cp.receipts[0].Creation? then Err(InvalidCheckpoint)
    else if cp.receipts[0].creationId == creationId && cp.receipts[0].request == request then Ok(cp.receipts[0])
    else Err(CreationIdConflict)
  }

  // ------------------------------------------------------------------------------------------
  // Interleavings
  // ------------------------------------------------------------------------------------------

  /** The store's policy, what is stored, and what each host last loaded. */
  datatype World = World(mode: StoreMode, records: Records, loaded: map<nat, Checkpoint>)

  datatype Action =
    | LoadBy(host: nat, root: Text)
    | CommitBy(host: nat, op: Operation)
    | CreateBy(host: nat, root: Text, creationId: Text, request: Text, retention: CheckpointModel.Retention, native: NativeRoot)

  /** One action of one host. A commit validates its candidate and then asks the store to swap. */
  ghost function Act(w: World, action: Action): World {
    match action
    case LoadBy(host, root) =>
      if root in w.records then w.(loaded := w.loaded[host := w.records[root]]) else w
    case CommitBy(host, op) =>
      if host !in w.loaded then w
      else
        var current := w.loaded[host];
        var next := Successor(current, op);
        if next == current then w else w.(records := Swapped(w.mode, w.records, current, next))
    case CreateBy(_, root, creationId, request, retention, native) =>
      var created := Create(root, creationId, request, retention, native);
      if created.Err? then w else w.(records := Inserted(w.mode, w.records, created.value))
  }

  ghost predicate IsTrace(mode: StoreMode, worlds: seq<World>, actions: seq<Action>) {
    && |worlds| == |actions| + 1
    && worlds[0] == World(mode, map[], map[])
    && forall k :: 0 <= k < |actions| ==> worlds[k + 1] == Act(worlds[k], actions[k])
  }

  // ------------------------------------------------------------------------------------------
  // The store
  // ------------------------------------------------------------------------------------------

  /** A store with a retention policy. */
  class Store {
    const mode: StoreMode
    var records: Records

    constructor (mode: StoreMode)
      ensures this.mode == mode && records == map[]
    {
      this.mode := mode;
      records := map[];
    }

    method Load(root: Text) returns (record: Option<Checkpoint>)
      ensures record == Lookup(records, root)
    {
      record := if root in records then Some(records[root]) else None;
    }

    /** Fills a gap, if the policy allows the new record. */
    method InsertIfAbsent(cp: Checkpoint) returns (written: Written)
      modifies this
      ensures records == Inserted(mode, old(records), cp)
      ensures written == Stored <==> cp.root !in old(records) && CandidateAllowed(mode, cp)
      ensures written.Conflict? <==> cp.root in old(records)
      ensures written.Conflict? ==> written.current == Some(old(records)[cp.root])
      ensures written.Refused? <==> cp.root !in old(records) && !CandidateAllowed(mode, cp)
    {
      if cp.root in records {
        return Conflict(Some(records[cp.root]));
      }
      var failure := CheckCandidate(mode, cp);
      if failure.Some? {
        return Refused(failure.value);
      }
      records := records[cp.root := cp];
      return Stored;
    }

    /** Replaces the record of a root if it still is the expected one and the policy allows it. */
    method CompareAndSwap(expected: Checkpoint, replacement: Checkpoint) returns (written: Written)
      modifies this
      ensures records == Swapped(mode, old(records), expected, replacement)
      ensures written == Stored <==> Swaps(mode, old(records), expected, replacement)
      ensures written.Conflict? ==> !Expected(old(records), expected) && written.current == Lookup(old(records), expected.root)
      ensures written.Refused? <==>
                replacement.root == expected.root && Expected(old(records), expected) && !ReplacementAllowed(mode, expected, replacement)
      ensures written != Invalid
    {
      if replacement.root != expected.root {
        return WrongReplacement;
      }
      if expected.root !in records {
        return Conflict(None);
      }
      if records[expected.root].revision != expected.revision || records[expected.root] != expected {
        return Conflict(Some(records[expected.root]));
      }
      var failure := CheckReplacement(mode, expected, replacement);
      if failure.Some? {
        return Refused(failure.value);
      }
      records := records[expected.root := replacement];
      return Stored;
    }

    /** Creates a root, or answers from the creation evidence of the root that is already there. */
    method CreateRoot(root: Text, creationId: Text, request: Text, retention: CheckpointModel.Retention, native: NativeRoot)
      returns (r: Result<Receipt, Failure>)
      modifies this
      ensures root !in old(records) ==>
                records == Act(World(mode, old(records), map[]), CreateBy(0, root, creationId, request, retention, native)).records
      ensures root in old(records) ==> records == old(records) && r == ReplayCreation(old(records)[root], creationId, request)
      ensures root !in old(records) ==>
                if root in records then r == ReplayCreation(records[root], creationId, request)
                else r == Err(if Create(root, creationId, request, retention, native).Err? then InvalidCheckpoint else RefusedByStore)
    {
      hide CreateCore, EffectRepeated, Valid, Successor, CandidateAllowed, CreateInto, SeveralProducers;
      var current := Load(root);
      if current.Some? {
        return ReplayCreation(current.value, creationId, request);
      }
      var created := CreateCandidate(root, creationId, request, retention, native);
      CandidateRoot(root, creationId, request, retention, native);
      if created.Err? {
        return Err(InvalidCheckpoint);
      }
      var ok := ValidateSemantics(created.value);
      if !ok {
        return Err(InvalidCheckpoint);
      }
      var written := InsertIfAbsent(created.value);
      if written != Stored {
        return Err(RefusedByStore);
      }
      return ReplayCreation(created.value, creationId, request);
    }

    /**
     A host's commit of an operation that it computed from the record it loaded: nothing to write,
     a candidate that validation refuses, or a compare-and-swap.
     */
    method Commit(current: Checkpoint, op: Operation) returns (written: Option<Written>)
      modifies this
      ensures records == Act(World(mode, old(records), map[0 := current]), CommitBy(0, op)).records
      ensures written.None? <==> After(current, Attempt(current, op)) == current
      ensures written == Some(Invalid) <==> After(current, Attempt(current, op)) != current && !Valid(After(current, Attempt(current, op)))
      ensures written == Some(Stored) <==>
                Successor(current, op) != current && Swaps(mode, old(records), current, Successor(current, op))
    {
      hide Attempt, Valid, Perform, Swaps;
      AttemptSuccessor(current, op);
      hide Successor;
      var next := After(current, Attempt(current, op));
      if next == current {
        return None;
      }
      var ok := ValidateSemantics(next);
      if !ok {
        return Some(Invalid);
      }
      var w := CompareAndSwap(current, next);
      return Some(w);
    }
  }

  lemma CandidateRoot(root: Text, creationId: Text, request: Text, retention: CheckpointModel.Retention, native: NativeRoot)
    ensures var created := CreateCandidate(root, creationId, request, retention, native);
            created.Ok? ==> created.value.root == root && created.value.revision == 0
    ensures var created := CreateCandidate(root, creationId, request, retention, native); created.Err? ==> created.error == InvalidCheckpoint
  {
    hide CreateCore, EffectRepeated, Pendings, RefsOf, LifecycleReceipts, RootStatus, SeveralProducers;
  }

  // ------------------------------------------------------------------------------------------
  // Revisions
  // ------------------------------------------------------------------------------------------

  /** Every operation answers with the current checkpoint or with one of the next revision. */
  lemma AttemptRevision(cp: Checkpoint, op: Operation)
    ensures var next := After(cp, Attempt(cp, op)); next.root == cp.root && (next == cp || next.revision == cp.revision + 1)
  {
    hide RetainedIdentity, FirstProblem, Unknown, CoreAdmit, Members, StatusOf, FindReady, Step, EffectRepeated, Holds, ProcessReplay, StepReplay, Requests, SeveralProducers;
    hide AcceptanceReceipts, SyncAll, RewriteAll, QueueMap, Flat, EndedBy, LifecycleReceipts, RefsOf, Pendings, RootStatus, CausalReceipt, Buryings;
    hide PruneAllowed, PrunesPending, Retain, Bury, RetainTerminals, RetainCompacted, FindPending, FindEffect, FindCompacted, InsertCompacted, Removable;
    match op
    case AdmitOp(_, _, _, _) =>
    case StepOp(_, _, _, _) =>
    case ProcessOp(definition, d, g, accepts, dispatch) => ProcessRevision(cp, definition, d, g, accepts, dispatch);
    case PruneOp(_, _) =>
    case UpdateOp(_, _, _) =>
    case TerminalizeOp(_, _, _) =>
    case CompactOp(_, _) =>
    case TombstoneOp(_, _) =>
  }

  lemma ProcessRevision(cp: Checkpoint, definition: Text, d: Delivery, g: Guard, accepts: Envelope -> bool, dispatch: Dispatch)
    ensures var next := After(cp, ProcessCandidate(cp, definition, d, g, accepts, dispatch));
            next.root == cp.root && (next == cp || next.revision == cp.revision + 1)
  {
    hide RetainedIdentity, FirstProblem, Unknown, CoreAdmit, Members, StatusOf, FindReady, Step, EffectRepeated, Holds, ProcessReplay, SeveralProducers;
    hide AcceptanceReceipts, SyncAll, RewriteAll, QueueMap, Flat, EndedBy, LifecycleReceipts, RefsOf, Pendings, RootStatus, CausalReceipt;
    NoBatch(cp, definition, d, g, accepts, dispatch);
  }

  lemma SuccessorRevision(cp: Checkpoint, op: Operation)
    ensures Successor(cp, op).root == cp.root
    ensures Successor(cp, op) == cp || (Successor(cp, op).revision == cp.revision + 1 && Valid(Successor(cp, op)))
  {
    hide Attempt, Valid, Perform;
    AttemptSuccessor(cp, op);
    AttemptRevision(cp, op);
  }

  /** `next` was computed from exactly `current`, in the next revision, and the store's policy allows it. */
  ghost predicate Links(mode: StoreMode, current: Checkpoint, next: Checkpoint) {
    && next.revision == current.revision + 1 && next.root == current.root && ReplacementAllowed(mode, current, next)
    && exists op :: next == Successor(current, op)
  }

  // ------------------------------------------------------------------------------------------
  // Every action keeps the world in order
  // ------------------------------------------------------------------------------------------

  /** Stored and loaded checkpoints passed validation; records are filed under their roots. */
  ghost predicate WorldOk(w: World) {
    && (forall r :: r in w.records ==> Valid(w.records[r]) && w.records[r].root == r && CandidateAllowed(w.mode, w.records[r]))
    && (forall h :: h in w.loaded ==> Valid(w.loaded[h]))
  }

  lemma CreatedFiled(root: Text, creationId: Text, request: Text, retention: CheckpointModel.Retention, native: NativeRoot)
    ensures var created := Create(root, creationId, request, retention, native);
            created.Ok? ==> Valid(created.value) && created.value.root == root && created.value.revision == 0
  {
    hide CreateCandidate, Valid;
    CandidateRoot(root, creationId, request, retention, native);
  }

  lemma ActOk(w: World, action: Action)
    requires WorldOk(w)
    ensures WorldOk(Act(w, action)) && Act(w, action).mode == w.mode
  {
    hide Valid, Successor, Create, ReceiptsEvolve, TombstonesStay, EvidenceStays, TerminalsStay;
    match action
    case LoadBy(_, _) =>
    case CommitBy(host, op) =>
      if host in w.loaded {
        SuccessorRevision(w.loaded[host], op);
      }
    case CreateBy(_, root, creationId, request, retention, native) =>
      CreatedFiled(root, creationId, request, retention, native);
  }

  lemma NewWorldOk(mode: StoreMode)
    ensures WorldOk(World(mode, map[], map[]))
  {
  }

  /** Whatever hosts do, everything stored is valid and allowed by the policy. */
  lemma {:induction false} TraceValid(mode: StoreMode, worlds: seq<World>, actions: seq<Action>, i: nat)
    requires IsTrace(mode, worlds, actions) && i < |worlds|
    ensures WorldOk(worlds[i]) && worlds[i].mode == mode
  {
    hide Act, WorldOk;
    if i == 0 {
      NewWorldOk(mode);
    } else {
      TraceValid(mode, worlds, actions, i - 1);
      assert worlds[i - 1 + 1] == Act(worlds[i - 1], actions[i - 1]);
      ActOk(worlds[i - 1], actions[i - 1]);
    }
  }

  /**
   The action is the commit by a host that had loaded exactly the stored record of `root`, has a
   valid candidate and is not refused by the policy.
   */
  ghost predicate Wins(w: World, action: Action, root: Text) {
    && action.CommitBy? && action.host in w.loaded && root in w.records && w.loaded[action.host] == w.records[root]
    && Successor(w.records[root], action.op) != w.records[root]
    && ReplacementAllowed(w.mode, w.records[root], Successor(w.records[root], action.op))
  }

  /** A stored record changes only by a winning commit, and then to a linked one; everyone else changes nothing. */
  lemma RecordChange(w: World, action: Action, root: Text)
    requires WorldOk(w) && root in w.records
    ensures var w' := Act(w, action);
            && root in w'.records
            && (if Wins(w, action, root) then
                  w'.records[root] == Successor(w.records[root], action.op) && Links(w.mode, w.records[root], w'.records[root])
                else w'.records[root] == w.records[root])
  {
    hide Valid, Successor, Create, ReplacementAllowed, CandidateAllowed;
    match action
    case LoadBy(_, _) =>
    case CommitBy(host, op) =>
      if host in w.loaded {
        SuccessorRevision(w.loaded[host], op);
      }
    case CreateBy(_, r, creationId, request, retention, native) =>
      CreatedFiled(r, creationId, request, retention, native);
  }

  // ------------------------------------------------------------------------------------------
  // The chain of committed records
  // ------------------------------------------------------------------------------------------

  /** The records of `root` that were committed one after the other up to world `n`. */
  ghost function Committed(worlds: seq<World>, root: Text, n: nat): seq<Checkpoint>
    requires n < |worlds|
  {
    if n == 0 then (if root in worlds[0].records then [worlds[0].records[root]] else [])
    else
      var before := Committed(worlds, root, n - 1);
      if root !in worlds[n].records then before
      else if root in worlds[n - 1].records && worlds[n].records[root] == worlds[n - 1].records[root] then before
      else before + [worlds[n].records[root]]
  }

  ghost predicate IsChain(mode: StoreMode, h: seq<Checkpoint>) {
    && (forall k :: 0 <= k < |h| ==> h[k].revision == k)
    && (forall k :: 0 <= k < |h| - 1 ==> Links(mode, h[k], h[k + 1]))
  }

  lemma LinksBasics(mode: StoreMode, current: Checkpoint, next: Checkpoint)
    requires Links(mode, current, next)
    ensures next.root == current.root && next.revision == current.revision + 1 && ReplacementAllowed(mode, current, next)
  {
    hide Successor, ReplacementAllowed;
  }

  lemma ChainGrows(mode: StoreMode, h: seq<Checkpoint>, next: Checkpoint)
    requires IsChain(mode, h) && h != [] && Links(mode, h[|h| - 1], next)
    ensures IsChain(mode, h + [next])
  {
    hide Links;
    LinksBasics(mode, h[|h| - 1], next);
    var g := h + [next];
    forall k | 0 <= k < |g| - 1 ensures Links(mode, g[k], g[k + 1]) {
      if k < |h| - 1 {
        assert Links(mode, h[k], h[k + 1]);
      }
    }
  }

  /**
   For any interleaving of any actions of any number of hosts, the committed records of a root
   form one chain: the k-th has revision k and is computed from exactly its predecessor, and the
   last is stored.
   */
  lemma {:induction false} OneChain(mode: StoreMode, worlds: seq<World>, actions: seq<Action>, root: Text, n: nat)
    requires IsTrace(mode, worlds, actions) && n < |worlds|
    ensures var h := Committed(worlds, root, n);
            && IsChain(mode, h)
            && (root in worlds[n].records <==> h != [])
            && (h != [] ==> h[|h| - 1] == worlds[n].records[root])
  {
    hide Act, WorldOk, Links, Wins;
    if n > 0 {
      hide IsChain;
      OneChain(mode, worlds, actions, root, n - 1);
      TraceValid(mode, worlds, actions, n - 1);
      var w, action := worlds[n - 1], actions[n - 1];
      assert worlds[n - 1 + 1] == Act(w, action);
      ChainStep(mode, Committed(worlds, root, n - 1), w, action, root);
    }
  }

  /** One action extends the chain of a root by its new record, if there is one. */
  lemma ChainStep(mode: StoreMode, h: seq<Checkpoint>, w: World, action: Action, root: Text)
    requires WorldOk(w) && w.mode == mode && IsChain(mode, h)
    requires root in w.records <==> h != []
    requires h != [] ==> h[|h| - 1] == w.records[root]
    ensures var w' := Act(w, action);
            && (root in w.records ==> root in w'.records)
            && (root in w'.records && !(root in w.records && w'.records[root] == w.records[root]) ==> IsChain(mode, h + [w'.records[root]]))
  {
    hide Act, WorldOk, Links, Wins;
    if root in w.records {
      RecordChange(w, action, root);
      if Act(w, action).records[root] != w.records[root] {
        ChainGrows(mode, h, Act(w, action).records[root]);
      }
    } else if root in Act(w, action).records {
      FirstRecord(w, action, root);
    }
  }

  /** A root first appears with its creation, in revision 0. */
  lemma FirstRecord(w: World, action: Action, root: Text)
    requires WorldOk(w) && root !in w.records && root in Act(w, action).records
    ensures Act(w, action).records[root].revision == 0
  {
    hide Valid, Successor, Create, ReplacementAllowed, CandidateAllowed;
    match action
    case LoadBy(_, _) =>
    case CommitBy(_, _) =>
    case CreateBy(_, r, creationId, request, retention, native) =>
      CreatedFiled(r, creationId, request, retention, native);
  }

  lemma {:induction false} ChainRoot(mode: StoreMode, h: seq<Checkpoint>, k: nat)
    requires IsChain(mode, h) && k < |h|
    ensures h[k].root == h[0].root
  {
    hide Links;
    if k > 0 {
      ChainRoot(mode, h, k - 1);
      assert Links(mode, h[k - 1], h[k - 1 + 1]);
      LinksBasics(mode, h[k - 1], h[k]);
    }
  }

  /** Every committed chain is a run of replacements that the policy accepts, so its history guarantees hold. */
  lemma ChainAccepted(mode: StoreMode, h: seq<Checkpoint>)
    requires IsChain(mode, h)
    ensures AcceptedRun(mode, h)
  {
    hide Links, ReplacementAllowed;
    forall k | 0 <= k < |h| ensures h[k].root == h[0].root {
      ChainRoot(mode, h, k);
    }
    forall k | 0 <= k < |h| - 1 ensures ReplacementAllowed(mode, h[k], h[k + 1]) {
      LinksBasics(mode, h[k], h[k + 1]);
    }
  }

  /** A store with permanent receipts keeps the history of every record that any host ever committed. */
  lemma StoredHistory(mode: StoreMode, worlds: seq<World>, actions: seq<Action>, root: Text, n: nat, i: nat)
    requires IsTrace(mode, worlds, actions) && n < |worlds| && mode.receipts.PermanentReceipts? && i < |Committed(worlds, root, n)|
    ensures root in worlds[n].records && History(Committed(worlds, root, n)[i], worlds[n].records[root])
  {
    hide IsTrace, IsChain, History, AcceptedRun, Committed;
    OneChain(mode, worlds, actions, root, n);
    var h := Committed(worlds, root, n);
    ChainAccepted(mode, h);
    PermanentHistory(mode, h, i, |h| - 1);
  }

  /** Every record that was ever committed passed validation. */
  lemma {:induction false} CommittedValid(mode: StoreMode, worlds: seq<World>, actions: seq<Action>, root: Text, n: nat, i: nat)
    requires IsTrace(mode, worlds, actions) && n < |worlds| && i < |Committed(worlds, root, n)|
    ensures Valid(Committed(worlds, root, n)[i])
  {
    hide Act, Valid, CandidateAllowed;
    TraceValid(mode, worlds, actions, n);
    if n > 0 && i < |Committed(worlds, root, n - 1)| {
      CommittedValid(mode, worlds, actions, root, n - 1, i);
    }
  }

  lemma TerminalReferenced(cp: Checkpoint, t: TerminalEffect)
    requires Valid(cp) && t in cp.terminals
    ensures Referenced(cp.receipts, t.intent.effectId)
  {
    hide ReceiptsOk, UniqueAcceptances, UniqueTerminals, AllocationsOk, DigestsOk, CreationOk, MailboxesOk, Sourced, AcceptancesLead, TombstonesOk, OwnersOk, QueuesOk;
    hide TerminalsExplained, ReferencesOk, StagesOk;
    var f := t.intent.effectId;
    assert IsTerminal(cp, f);
    assert Referenced(cp.receipts, f);
  }

  /**
   A store with permanent receipts and a compact outbox keeps the evidence of every terminal
   effect that any host ever committed: its outcome, terminal number, revision and intent digest.
   */
  lemma StoredCompactEvidence(mode: StoreMode, worlds: seq<World>, actions: seq<Action>, root: Text, n: nat, i: nat, t: TerminalEffect)
    requires IsTrace(mode, worlds, actions) && n < |worlds| && mode == StoreMode(PermanentReceipts, CompactOutbox)
    requires i < |Committed(worlds, root, n)| && t in Committed(worlds, root, n)[i].terminals
    ensures root in worlds[n].records && Evidenced(worlds[n].records[root], t)
  {
    hide IsTrace, IsChain, AcceptedRun, Committed, Valid, Evidenced, Referenced;
    OneChain(mode, worlds, actions, root, n);
    var h := Committed(worlds, root, n);
    ChainAccepted(mode, h);
    CommittedValid(mode, worlds, actions, root, n, i);
    TerminalReferenced(h[i], t);
    CompactEvidence(mode, h, i, |h| - 1, t);
  }

  /** A store with a strict outbox keeps every terminal record that any host ever committed, in full. */
  lemma StoredStrictEvidence(mode: StoreMode, worlds: seq<World>, actions: seq<Action>, root: Text, n: nat, i: nat, t: TerminalEffect)
    requires IsTrace(mode, worlds, actions) && n < |worlds| && mode.outbox.StrictOutbox?
    requires i < |Committed(worlds, root, n)| && t in Committed(worlds, root, n)[i].terminals
    ensures root in worlds[n].records && t in worlds[n].records[root].terminals && worlds[n].records[root].compacted == []
  {
    hide IsTrace, IsChain, AcceptedRun, Committed, Valid;
    OneChain(mode, worlds, actions, root, n);
    var h := Committed(worlds, root, n);
    ChainAccepted(mode, h);
    StrictEvidence(mode, h, i, |h| - 1, t);
    TraceValid(mode, worlds, actions, n);
  }

  /** Of two hosts that loaded one record, at most one commits: after the first, the other's commit changes nothing. */
  lemma LoserChangesNothing(w: World, first: Action, second: Action, root: Text)
    requires WorldOk(w) && Wins(w, first, root)
    requires second.CommitBy? && second.host in w.loaded && w.loaded[second.host] == w.records[root]
    ensures Act(Act(w, first), second) == Act(w, first)
  {
    hide Valid, Links, ReplacementAllowed, CandidateAllowed;
    RecordChange(w, first, root);
    var w' := Act(w, first);
    LinksBasics(w.mode, w.records[root], w'.records[root]);
    hide Successor;
    assert w'.loaded == w.loaded && w'.mode == w.mode;
    assert !Expected(w'.records, w.records[root]);
  }

  // ------------------------------------------------------------------------------------------
  // Creation evidence
  // ------------------------------------------------------------------------------------------

  /** The creation evidence of both checkpoints is the same. */
  predicate SameCreation(cp: Checkpoint, cp': Checkpoint) {
    && cp.receipts != [] && cp.receipts[0].Creation? && cp'.receipts != [] && cp'.receipts[0].Creation?
    && cp'.receipts[0].creationId == cp.receipts[0].creationId && cp'.receipts[0].request == cp.receipts[0].request
  }

  lemma HasCreation(cp: Checkpoint)
    requires Valid(cp)
    ensures cp.receipts != [] && cp.receipts[0].Creation? && cp.receipts[0].sequence == 0
  {
    hide UniqueAcceptances, UniqueTerminals, AllocationsOk, DigestsOk, CreationOk, MailboxesOk, Sourced, AcceptancesLead, TombstonesOk, OwnersOk, QueuesOk;
    hide TerminalsExplained, ReferencesOk, StagesOk, EffectsOk;
  }

  lemma {:induction false} RetainFirst(rs: seq<Receipt>, cutoff: nat)
    requires rs != [] && !Removable(rs[0], cutoff)
    ensures Retain(rs, cutoff) != [] && Retain(rs, cutoff)[0] == rs[0]
  {
    if |rs| > 1 {
      RetainFirst(rs[..|rs| - 1], cutoff);
    } else {
      assert Retain(rs[..0], cutoff) == [];
    }
  }

  lemma RewrittenCreation(q: map<(Text, nat), nat>, t: map<Text, nat>, r: Receipt)
    requires r.Creation?
    ensures SyncReceipt(q, r).Creation? && SyncReceipt(q, r).creationId == r.creationId && SyncReceipt(q, r).request == r.request
    ensures RewriteReceipt(t, r).Creation? && RewriteReceipt(t, r).creationId == r.creationId && RewriteReceipt(t, r).request == r.request
  {
  }

  /** A core step keeps the creation evidence. */
  lemma ApplyCreation(cp: Checkpoint, causal: Entry, r: StepResult)
    requires cp.receipts != [] && cp.receipts[0].Creation?
    ensures SameCreation(cp, After(cp, ApplyStep(cp, causal, r)))
  {
    hide QueueMap, Flat, EndedBy, LifecycleReceipts, RefsOf, Pendings, RootStatus, CausalReceipt, EffectRepeated, SyncReceipt, RewriteReceipt, SeveralProducers;
    match r
    case NotRunnable =>
    case Rejected =>
    case Deferred(state) => RewrittenCreation(QueueMap(Flat(state.runtimes)), map[], cp.receipts[0]);
    case Committed(state, _, _, lifecycle) =>
      var q := QueueMap(Flat(state.runtimes));
      var t := EndedBy(lifecycle, cp.nextReceipt + 1, if causal.envelope.source.HostSource? then map[] else map[causal.Id() := cp.nextReceipt]);
      RewrittenCreation(q, t, cp.receipts[0]);
      RewrittenCreation(q, t, SyncReceipt(q, cp.receipts[0]));
  }

  lemma ProcessCreation(cp: Checkpoint, definition: Text, d: Delivery, g: Guard, accepts: Envelope -> bool, dispatch: Dispatch)
    requires cp.receipts != [] && cp.receipts[0].Creation?
    ensures SameCreation(cp, After(cp, ProcessCandidate(cp, definition, d, g, accepts, dispatch)))
  {
    hide Admit, FindReady, Step, ApplyStep, Holds, ProcessReplay;
    NoBatch(cp, definition, d, g, accepts, dispatch);
    var admission := Admit(cp, Some(definition), [d], g, accepts);
    if admission.Ok? && admission.value.Next? && admission.value.next.record.Retained? {
      var admitted := admission.value.next;
      AdmitCreation(cp, Some(definition), [d], g, accepts);
      var a := admitted.record.aggregate;
      var i := FindReady(a.runtimes, d.envelope.eventId);
      if i < |a.runtimes| {
        ApplyCreation(admitted, a.runtimes[i].ready[0], Step(a, a.runtimes[i].id, dispatch));
      }
    }
  }

  lemma AdmitCreation(cp: Checkpoint, bundle: Option<Text>, ds: seq<Delivery>, g: Guard, accepts: Envelope -> bool)
    requires cp.receipts != [] && cp.receipts[0].Creation?
    ensures SameCreation(cp, After(cp, Admit(cp, bundle, ds, g, accepts)))
  {
    hide RetainedIdentity, FirstProblem, Unknown, CoreAdmit, Members, StatusOf, Holds, AcceptanceReceipts;
  }

  lemma TombstoneCreation(cp: Checkpoint, operationId: Text, g: Guard)
    requires cp.receipts != [] && cp.receipts[0].Creation?
    ensures SameCreation(cp, After(cp, TombstoneRoot(cp, operationId, g)))
  {
    hide StatusOf, EndedBy, Buryings, Flat, LifecycleReceipts, Holds, RewriteReceipt;
    if cp.record.Retained? {
      var t := EndedBy(Buryings(Flat(cp.record.aggregate.runtimes)), cp.nextReceipt, map[]);
      RewrittenCreation(map[], t, cp.receipts[0]);
    }
  }

  /** Every operation keeps the creation evidence. */
  lemma SuccessorCreation(cp: Checkpoint, op: Operation)
    requires Valid(cp)
    ensures SameCreation(cp, Successor(cp, op))
  {
    hide Valid, Admit, StepReplay, ApplyStep, Step, ProcessCandidate, TombstoneRoot, Holds, Requests, PruneAllowed, PrunesPending, Retain, Bury, RetainTerminals, RetainCompacted;
    hide FindPending, FindEffect, FindCompacted, InsertCompacted, Perform;
    HasCreation(cp);
    AttemptSuccessor(cp, op);
    match op
    case AdmitOp(bundle, ds, g, accepts) => AdmitCreation(cp, bundle, ds, g, accepts);
    case StepOp(_, q, _, dispatch) =>
      if cp.record.Retained? && Find(cp.record.aggregate.runtimes, q.runtime) < |cp.record.aggregate.runtimes|
         && cp.record.aggregate.runtimes[Find(cp.record.aggregate.runtimes, q.runtime)].ready != [] {
        var a := cp.record.aggregate;
        ApplyCreation(cp, a.runtimes[Find(a.runtimes, q.runtime)].ready[0], Step(a, q.runtime, dispatch));
      }
    case ProcessOp(definition, d, g, accepts, dispatch) => ProcessCreation(cp, definition, d, g, accepts, dispatch);
    case PruneOp(q, _) => RetainFirst(cp.receipts, q.cutoff);
    case UpdateOp(_, _, _) =>
    case TerminalizeOp(_, _, _) =>
    case CompactOp(_, _) =>
    case TombstoneOp(operationId, g) => TombstoneCreation(cp, operationId, g);
  }

  /** Once a root exists, creating it again is answered alike for ever, whatever any host does in between. */
  lemma {:induction false} CreationForEver(mode: StoreMode, worlds: seq<World>, actions: seq<Action>, root: Text, i: nat, j: nat, creationId: Text, request: Text)
    requires IsTrace(mode, worlds, actions) && i <= j < |worlds| && root in worlds[i].records
    ensures root in worlds[j].records && SameCreation(worlds[i].records[root], worlds[j].records[root])
    ensures ReplayCreation(worlds[j].records[root], creationId, request).Ok? <==> ReplayCreation(worlds[i].records[root], creationId, request).Ok?
    decreases j
  {
    hide Act, WorldOk;
    if i == j {
      TraceValid(mode, worlds, actions, i);
      StoredCreation(worlds[i], root);
    } else {
      CreationForEver(mode, worlds, actions, root, i, j - 1, creationId, request);
      TraceValid(mode, worlds, actions, j - 1);
      var w, action := worlds[j - 1], actions[j - 1];
      assert worlds[j - 1 + 1] == Act(w, action);
      CreationStep(w, action, root);
    }
  }

  lemma StoredCreation(w: World, root: Text)
    requires WorldOk(w) && root in w.records
    ensures SameCreation(w.records[root], w.records[root])
  {
    hide Valid, CandidateAllowed;
    HasCreation(w.records[root]);
  }

  lemma CreationStep(w: World, action: Action, root: Text)
    requires WorldOk(w) && root in w.records
    ensures root in Act(w, action).records && SameCreation(w.records[root], Act(w, action).records[root])
  {
    hide Valid, Act, Links, Successor, SameCreation, CandidateAllowed, ReplacementAllowed;
    RecordChange(w, action, root);
    StoredCreation(w, root);
    if Wins(w, action, root) {
      SuccessorCreation(w.records[root], action.op);
    }
  }

  // ------------------------------------------------------------------------------------------
  // The invariant
  // ------------------------------------------------------------------------------------------

  /** The dispatcher keeps its promises to the acting host. */
  ghost predicate Served(w: World, action: Action) {
    match action
    case LoadBy(_, _) => true
    case CommitBy(host, op) => host in w.loaded ==> Dispatched(w.loaded[host], op)
    case CreateBy(_, _, _, _, _, native) => RootOk(native)
  }

  /** Stored and loaded checkpoints satisfy the invariant. */
  ghost predicate WorldInv(w: World) {
    && (forall r :: r in w.records ==> Inv(w.records[r]))
    && (forall h :: h in w.loaded ==> Inv(w.loaded[h]))
  }

  lemma CreatedInv(root: Text, creationId: Text, request: Text, retention: CheckpointModel.Retention, native: NativeRoot)
    requires RootOk(native)
    ensures var created := Create(root, creationId, request, retention, native); created.Ok? ==> Inv(created.value)
  {
    hide Inv, RootOk, RootSustains, Create, DistinctEffects;
    CreateIff(root, creationId, request, retention, native);
  }

  lemma ActInv(w: World, action: Action)
    requires WorldInv(w) && Served(w, action)
    ensures WorldInv(Act(w, action))
  {
    hide Inv, Dispatched, Successor, Create, RootOk, ReplacementAllowed, CandidateAllowed;
    match action
    case LoadBy(_, _) =>
    case CommitBy(host, op) =>
      if host in w.loaded {
        PerformInv(w.loaded[host], op);
      }
    case CreateBy(_, root, creationId, request, retention, native) =>
      CreatedInv(root, creationId, request, retention, native);
  }

  /** If the dispatcher keeps its promises, every stored and every loaded checkpoint satisfies the invariant. */
  lemma {:induction false} TraceInv(mode: StoreMode, worlds: seq<World>, actions: seq<Action>, i: nat)
    requires IsTrace(mode, worlds, actions) && i < |worlds|
    requires forall k :: 0 <= k < |actions| ==> Served(worlds[k], actions[k])
    ensures WorldInv(worlds[i])
  {
    hide Act, Served, Inv;
    if i > 0 {
      TraceInv(mode, worlds, actions, i - 1);
      assert Served(worlds[i - 1], actions[i - 1]) && worlds[i - 1 + 1] == Act(worlds[i - 1], actions[i - 1]);
      ActInv(worlds[i - 1], actions[i - 1]);
    }
  }
}
