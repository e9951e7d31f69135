/** The retention policies that a durable store enforces on every replacement of a checkpoint. */
module Retention {
  import opened Wrappers
  import opened CheckpointModel
  import opened CheckpointValidity
  import opened CheckpointOps
  import opened Transitions

  datatype ReceiptPolicy = BoundedReceipts | PermanentReceipts

  datatype OutboxPolicy = BoundedOutbox | StrictOutbox | CompactOutbox

  datatype StoreMode = StoreMode(receipts: ReceiptPolicy, outbox: OutboxPolicy)

  datatype PolicyFailure =
    | NeedsPermanentReplay
    | ForbidsTombstones
    | ForbidsReceiptChange
    | ForbidsTerminalRemoval
    | ForbidsTombstoneRemoval
    | NeedsTerminalEvidence

  // ------------------------------------------------------------------------------------------
  // One receipt
  // ------------------------------------------------------------------------------------------

  /** How many internal entries a mailbox reference names. */
  function Naming(es: seq<Entry>, r: Reference): nat {
    if es == [] then 0
    else Naming(es[..|es| - 1], r) + if es[|es| - 1].mode.Internal? && Names(r, es[|es| - 1]) then 1 else 0
  }

  /** How many terminal receipts a terminal reference points to. */
  function Ending(rs: seq<Receipt>, r: Reference): nat {
    if rs == [] then 0
    else Ending(rs[..|rs| - 1], r) + if EndsIn(r, rs[|rs| - 1]) then 1 else 0
  }

  /** Equal apart from kind, queue number and terminal sequence. */
  predicate SameEmission(r: Reference, r': Reference) {
    !r.OutboxRef? && !r'.OutboxRef? && r.index == r'.index && r.eventId == r'.eventId && r.acceptance == r'.acceptance
  }

  /** A reference of the receipt with sequence `producer` may change from `r` to `r'`. */
  predicate ReferenceEvolves(before: Checkpoint, after: Checkpoint, producer: nat, r: Reference, r': Reference) {
    || r == r'
    || (&& r.MailboxRef? && SameEmission(r, r')
        && (r'.MailboxRef? ==>
              && before.record.Retained? && r'.queue > r.queue && r'.queue >= before.record.aggregate.nextQueue
              && Naming(LiveEntries(after), r') == 1)
        && (r'.TerminalRef? ==>
              && r'.terminal > producer && r'.terminal >= before.nextReceipt
              && Ending(after.receipts, r') == 1))
  }

  predicate ReceiptEvolves(before: Checkpoint, after: Checkpoint, r: Receipt, r': Receipt) {
    && SameBody(r, r')
    && forall k :: 0 <= k < |r.Refs()| ==> ReferenceEvolves(before, after, r.sequence, r.Refs()[k], r'.Refs()[k])
  }

  // ------------------------------------------------------------------------------------------
  // Replacements
  // ------------------------------------------------------------------------------------------

  predicate ReceiptsEvolve(before: Checkpoint, after: Checkpoint) {
    && |before.receipts| <= |after.receipts|
    && forall i :: 0 <= i < |before.receipts| ==> ReceiptEvolves(before, after, before.receipts[i], after.receipts[i])
  }

  predicate TombstoneMatches(root: Text, t: TerminalEffect, c: EffectTombstone) {
    && t.terminal == c.terminal && t.intent.effectId == c.effectId && t.revision == c.revision
    && t.outcome == c.outcome && IntentDigest(root, t.intent) == c.digest
  }

  /** The terminal record stays, or the first tombstone for its effect carries its evidence. */
  predicate TerminalEvidence(before: Checkpoint, after: Checkpoint, t: TerminalEffect) {
    || !Referenced(after.receipts, t.intent.effectId)
    || t in after.terminals
    || (var c := FindCompacted(after.compacted, t.intent.effectId);
        c < |after.compacted| && TombstoneMatches(before.root, t, after.compacted[c]))
  }

  predicate TombstonesStay(before: Checkpoint, after: Checkpoint) {
    forall i :: 0 <= i < |before.compacted| ==>
      Referenced(after.receipts, before.compacted[i].effectId) ==> before.compacted[i] in after.compacted
  }

  predicate EvidenceStays(before: Checkpoint, after: Checkpoint) {
    forall i :: 0 <= i < |before.terminals| ==> TerminalEvidence(before, after, before.terminals[i])
  }

  predicate TerminalsStay(before: Checkpoint, after: Checkpoint) {
    forall i :: 0 <= i < |before.terminals| ==> before.terminals[i] in after.terminals
  }

  predicate CandidateAllowed(mode: StoreMode, after: Checkpoint) {
    && (mode.receipts.PermanentReceipts? ==> after.retention.Permanent?)
    && (mode.outbox.StrictOutbox? ==> after.compacted == [])
  }

  /** What the store's policy demands of a replacement. */
  predicate ReplacementAllowed(mode: StoreMode, before: Checkpoint, after: Checkpoint) {
    && CandidateAllowed(mode, after)
    && (mode.receipts.PermanentReceipts? ==> ReceiptsEvolve(before, after))
    && (mode.outbox.StrictOutbox? ==> TerminalsStay(before, after))
    && (mode.outbox.CompactOutbox? ==> TombstonesStay(before, after) && EvidenceStays(before, after))
  }

  method CountNaming(es: seq<Entry>, r: Reference) returns (n: nat)
    ensures n == Naming(es, r)
  {
    n := 0;
    for i := 0 to |es|
      invariant n == Naming(es[..i], r)
    {
      assert es[..i + 1][..i] == es[..i];
      if es[i].mode.Internal? && Names(r, es[i]) {
        n := n + 1;
      }
    }
    assert es[..|es|] == es;
  }

  method CountEnding(rs: seq<Receipt>, r: Reference) returns (n: nat)
    ensures n == Ending(rs, r)
  {
    n := 0;
    for i := 0 to |rs|
      invariant n == Ending(rs[..i], r)
    {
      assert rs[..i + 1][..i] == rs[..i];
      if EndsIn(r, rs[i]) {
        n := n + 1;
      }
    }
    assert rs[..|rs|] == rs;
  }

  /** Compares one reference before and after a replacement, counting what the new one points to. */
  method CheckReference(before: Checkpoint, after: Checkpoint, producer: nat, r: Reference, r': Reference) returns (ok: bool)
    ensures ok <==> ReferenceEvolves(before, after, producer, r, r')
  {
    if r == r' {
      return true;
    }
    if !r.MailboxRef? || !SameEmission(r, r') {
      return false;
    }
    if r'.MailboxRef? {
      var n := CountNaming(LiveEntries(after), r');
      return before.record.Retained? && r'.queue > r.queue && r'.queue >= before.record.aggregate.nextQueue && n == 1;
    }
    var n := CountEnding(after.receipts, r');
    return r'.terminal > producer && r'.terminal >= before.nextReceipt && n == 1;
  }

  method CheckReceipt(before: Checkpoint, after: Checkpoint, r: Receipt, r': Receipt) returns (ok: bool)
    ensures ok <==> ReceiptEvolves(before, after, r, r')
  {
    if !SameBody(r, r') {
      return false;
    }
    for k := 0 to |r.Refs()|
      invariant forall l :: 0 <= l < k ==> ReferenceEvolves(before, after, r.sequence, r.Refs()[l], r'.Refs()[l])
    {
      var step := CheckReference(before, after, r.sequence, r.Refs()[k], r'.Refs()[k]);
      if !step {
        return false;
      }
    }
    return true;
  }

  method CheckReceipts(before: Checkpoint, after: Checkpoint) returns (ok: bool)
    ensures ok <==> ReceiptsEvolve(before, after)
  {
    if |after.receipts| < |before.receipts| {
      return false;
    }
    for i := 0 to |before.receipts|
      invariant forall j :: 0 <= j < i ==> ReceiptEvolves(before, after, before.receipts[j], after.receipts[j])
    {
      var step := CheckReceipt(before, after, before.receipts[i], after.receipts[i]);
      if !step {
        return false;
      }
    }
    return true;
  }

  method CheckCompact(before: Checkpoint, after: Checkpoint) returns (failure: Option<PolicyFailure>)
    ensures failure.None? <==> TombstonesStay(before, after) && EvidenceStays(before, after)
    ensures failure == Some(ForbidsTombstoneRemoval) <==> !TombstonesStay(before, after)
  {
    for i := 0 to |before.compacted|
      invariant forall j :: 0 <= j < i ==>
        Referenced(after.receipts, before.compacted[j].effectId) ==> before.compacted[j] in after.compacted
    {
      if Referenced(after.receipts, before.compacted[i].effectId) && before.compacted[i] !in after.compacted {
        return Some(ForbidsTombstoneRemoval);
      }
    }
    for i := 0 to |before.terminals|
      invariant TombstonesStay(before, after)
      invariant forall j :: 0 <= j < i ==> TerminalEvidence(before, after, before.terminals[j])
    {
      if !TerminalEvidence(before, after, before.terminals[i]) {
        return Some(NeedsTerminalEvidence);
      }
    }
    return None;
  }

  /** The policy check of a new record. */
  method CheckCandidate(mode: StoreMode, after: Checkpoint) returns (failure: Option<PolicyFailure>)
    ensures failure.None? <==> CandidateAllowed(mode, after)
  {
    if mode == StoreMode(BoundedReceipts, BoundedOutbox) {
      return None;
    }
    if mode.receipts.PermanentReceipts? && !after.retention.Permanent? {
      return Some(NeedsPermanentReplay);
    }
    if mode.outbox.StrictOutbox? && after.compacted != [] {
      return Some(ForbidsTombstones);
    }
    return None;
  }

  /** The policy check of a replacement, with its early exits. */
  method CheckReplacement(mode: StoreMode, before: Checkpoint, after: Checkpoint) returns (failure: Option<PolicyFailure>)
    ensures failure.None? <==> ReplacementAllowed(mode, before, after)
  {
    if mode == StoreMode(BoundedReceipts, BoundedOutbox) {
      return None;
    }
    failure := CheckCandidate(mode, after);
    if failure.Some? {
      return;
    }
    if mode.receipts.PermanentReceipts? {
      var ok := CheckReceipts(before, after);
      if !ok {
        return Some(ForbidsReceiptChange);
      }
    }
    match mode.outbox
    case BoundedOutbox => return None;
    case StrictOutbox =>
      for i := 0 to |before.terminals|
        invariant forall j :: 0 <= j < i ==> before.terminals[j] in after.terminals
      {
        if before.terminals[i] !in after.terminals {
          return Some(ForbidsTerminalRemoval);
        }
      }
      return None;
    case CompactOutbox =>
      failure := CheckCompact(before, after);
  }
}
