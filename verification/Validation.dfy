/**
 Semantic validation as the program runs it: passes over receipts, numbers and references that
 fill sets and maps, and checks in between. It accepts exactly the valid checkpoints.
 */
module Validation {
  import opened Wrappers
  import opened CheckpointModel
  import opened CheckpointValidity
  import opened CheckpointOps
  import opened Rewriting

  // ------------------------------------------------------------------------------------------
  // The pass over the receipts
  // ------------------------------------------------------------------------------------------

  /** No event has two terminal receipts. */
  predicate UniqueEnds(rs: seq<Receipt>) {
    forall i, j :: 0 <= i < j < |rs| && rs[i].Terminal? && rs[j].Terminal? ==> rs[i].eventId != rs[j].eventId
  }

  /** Receipts in the order of sequence numbers and revisions, none of them from the future. */
  predicate Chronological(rs: seq<Receipt>, next: nat, revision: nat) {
    && (forall i :: 0 <= i < |rs| ==> rs[i].sequence < next && rs[i].revision <= revision)
    && (forall i, j :: 0 <= i < j < |rs| ==> rs[i].sequence < rs[j].sequence && rs[i].revision <= rs[j].revision)
  }

  /** One creation receipt, which is the first and has sequence number 0. */
  predicate CreatedFirst(rs: seq<Receipt>) {
    |rs| >= 1 && rs[0].Creation? && rs[0].sequence == 0 && forall i :: 1 <= i < |rs| ==> !rs[i].Creation?
  }

  /** Sequence numbers continue without a gap from the cutoff to the next receipt. */
  predicate Contiguous(rs: seq<Receipt>, base: nat, next: nat) {
    (forall i :: 1 <= i < |rs| ==> rs[i].sequence == base + i) && next == base + |rs|
  }

  lemma ReceiptsOkIff(cp: Checkpoint)
    ensures ReceiptsOk(cp) <==>
              CreatedFirst(cp.receipts) && Contiguous(cp.receipts, cp.retention.Base(), cp.nextReceipt)
              && Chronological(cp.receipts, cp.nextReceipt, cp.revision)
  {
  }

  method CheckChronology(rs: seq<Receipt>, next: nat, revision: nat) returns (ok: bool)
    ensures ok <==> Chronological(rs, next, revision)
  {
    for i := 0 to |rs|
      invariant Chronological(rs[..i], next, revision)
    {
      if rs[i].sequence >= next || rs[i].revision > revision
         || (i > 0 && (rs[i - 1].sequence >= rs[i].sequence || rs[i].revision < rs[i - 1].revision)) {
        return false;
      }
      assert forall j :: 0 <= j < i ==> rs[..i][j] == rs[j];
    }
    assert rs[..|rs|] == rs;
    return true;
  }

  /** Some acceptance receipt carries number `n`. */
  predicate Assigned(rs: seq<Receipt>, n: nat) {
    exists i :: 0 <= i < |rs| && rs[i].Acceptance? && rs[i].acceptance == n
  }

  lemma OneMoreReceipt(rs: seq<Receipt>, r: Receipt, id: Text, n: nat)
    ensures Accepted(rs + [r], id) <==> Accepted(rs, id) || (r.Acceptance? && r.eventId == id)
    ensures Assigned(rs + [r], n) <==> Assigned(rs, n) || (r.Acceptance? && r.acceptance == n)
    ensures Ended(rs + [r], id) <==> Ended(rs, id) || (r.Terminal? && r.eventId == id)
  {
    assert forall i :: 0 <= i < |rs| ==> (rs + [r])[i] == rs[i];
    assert (rs + [r])[|rs|] == r;
  }

  lemma UniqueMore(rs: seq<Receipt>, r: Receipt)
    ensures UniqueAcceptances(rs + [r]) <==> UniqueAcceptances(rs) && !(r.Acceptance? && (Accepted(rs, r.eventId) || Assigned(rs, r.acceptance)))
    ensures UniqueEnds(rs + [r]) <==> UniqueEnds(rs) && !(r.Terminal? && Ended(rs, r.eventId))
  {
    assert forall i :: 0 <= i < |rs| ==> (rs + [r])[i] == rs[i];
    assert (rs + [r])[|rs|] == r;
  }

  lemma UniquePrefix(rs: seq<Receipt>, n: nat)
    requires n <= |rs|
    ensures UniqueAcceptances(rs) ==> UniqueAcceptances(rs[..n])
    ensures UniqueEnds(rs) ==> UniqueEnds(rs[..n])
  {
  }

  /** Acceptance receipts by event and by number, terminal receipts by event; the first repetition fails. */
  method CheckIdentities(rs: seq<Receipt>) returns (ok: bool)
    ensures ok <==> UniqueAcceptances(rs) && UniqueEnds(rs)
  {
    hide Accepted, Assigned, Ended, UniqueAcceptances, UniqueEnds;
    var accepted: set<Text>, numbers: set<nat>, ended: set<Text> := {}, {}, {};
    NothingRecorded();
    for i := 0 to |rs|
      invariant UniqueAcceptances(rs[..i]) && UniqueEnds(rs[..i])
      invariant forall id :: id in accepted <==> Accepted(rs[..i], id)
      invariant forall n: nat :: n in numbers <==> Assigned(rs[..i], n)
      invariant forall id :: id in ended <==> Ended(rs[..i], id)
    {
      var r := rs[i];
      assert rs[..i + 1] == rs[..i] + [r];
      UniqueMore(rs[..i], r);
      UniquePrefix(rs, i + 1);
      forall id
        ensures Accepted(rs[..i + 1], id) <==> Accepted(rs[..i], id) || (r.Acceptance? && r.eventId == id)
        ensures Ended(rs[..i + 1], id) <==> Ended(rs[..i], id) || (r.Terminal? && r.eventId == id)
      {
        OneMoreReceipt(rs[..i], r, id, 0);
      }
      forall n: nat ensures Assigned(rs[..i + 1], n) <==> Assigned(rs[..i], n) || (r.Acceptance? && r.acceptance == n) {
        OneMoreReceipt(rs[..i], r, "", n);
      }
      if r.Acceptance? {
        if r.eventId in accepted || r.acceptance in numbers {
          return false;
        }
        accepted, numbers := accepted + {r.eventId}, numbers + {r.acceptance};
      } else if r.Terminal? {
        if r.eventId in ended {
          return false;
        }
        ended := ended + {r.eventId};
      }
    }
    assert rs[..|rs|] == rs;
    return true;
  }

  lemma NothingRecorded()
    ensures UniqueAcceptances([]) && UniqueEnds([])
    ensures forall id :: !Accepted([], id) && !Ended([], id)
    ensures forall n: nat :: !Assigned([], n)
  {
  }

  method CheckRetention(rs: seq<Receipt>, base: nat, next: nat) returns (ok: bool)
    requires |rs| >= 1
    ensures ok <==> Contiguous(rs, base, next)
  {
    var expected := base + 1;
    for i := 1 to |rs|
      invariant expected == base + i
      invariant forall j :: 1 <= j < i ==> rs[j].sequence == base + j
    {
      if rs[i].sequence != expected {
        return false;
      }
      expected := expected + 1;
    }
    return expected == next;
  }

  // ------------------------------------------------------------------------------------------
  // The pass over the allocated numbers
  // ------------------------------------------------------------------------------------------

  /** The claims to acceptance numbers that a checkpoint makes. */
  datatype Claim = Claim(number: nat, id: Text)

  function EntryClaims(es: seq<Entry>): (cs: seq<Claim>)
    ensures |cs| == |es| && forall i :: 0 <= i < |es| ==> cs[i] == Claim(es[i].acceptance, es[i].Id())
  {
    seq(|es|, i requires 0 <= i < |es| => Claim(es[i].acceptance, es[i].Id()))
  }

  function ReceiptClaims(rs: seq<Receipt>): seq<Claim> {
    if rs == [] then []
    else
      var before, r := ReceiptClaims(rs[..|rs| - 1]), rs[|rs| - 1];
      if r.Creation? then before else before + [Claim(r.acceptance, r.eventId)]
  }

  function TombstoneClaims(ts: seq<EventTombstone>): (cs: seq<Claim>)
    ensures |cs| == |ts| && forall i :: 0 <= i < |ts| ==> cs[i] == Claim(ts[i].acceptance, ts[i].eventId)
  {
    seq(|ts|, i requires 0 <= i < |ts| => Claim(ts[i].acceptance, ts[i].eventId))
  }

  function Claims(cp: Checkpoint): seq<Claim> {
    EntryClaims(LiveEntries(cp)) + ReceiptClaims(cp.receipts) + TombstoneClaims(cp.tombstones)
  }

  lemma {:induction false} ReceiptClaimsOf(rs: seq<Receipt>, c: Claim)
    ensures c in ReceiptClaims(rs) <==> exists i :: 0 <= i < |rs| && !rs[i].Creation? && rs[i].acceptance == c.number && rs[i].eventId == c.id
  {
    if rs != [] {
      var init := rs[..|rs| - 1];
      ReceiptClaimsOf(init, c);
      if i :| 0 <= i < |rs| && !rs[i].Creation? && rs[i].acceptance == c.number && rs[i].eventId == c.id {
        assert i < |init| ==> init[i] == rs[i];
      }
      if i :| 0 <= i < |init| && !init[i].Creation? && init[i].acceptance == c.number && init[i].eventId == c.id {
        assert rs[i] == init[i];
      }
    }
  }

  lemma LiveEntriesAre(cp: Checkpoint, e: Entry)
    ensures e in LiveEntries(cp) <==> e in Live(cp)
  {
    hide MailOf, Flat;
    if cp.record.Retained? {
      FlatMail(cp.record.aggregate.runtimes);
      assert e in Flat(cp.record.aggregate.runtimes) <==> e in multiset(Flat(cp.record.aggregate.runtimes));
    }
  }

  lemma EntryClaimsOf(cp: Checkpoint, c: Claim)
    ensures c in EntryClaims(LiveEntries(cp)) <==> exists e :: e in Live(cp) && e.acceptance == c.number && e.Id() == c.id
  {
    hide Live, LiveEntries;
    var es := LiveEntries(cp);
    if c in EntryClaims(es) {
      var i :| 0 <= i < |es| && EntryClaims(es)[i] == c;
      LiveEntriesAre(cp, es[i]);
    }
    if e :| e in Live(cp) && e.acceptance == c.number && e.Id() == c.id {
      LiveEntriesAre(cp, e);
      var i :| 0 <= i < |es| && es[i] == e;
      assert EntryClaims(es)[i] == c;
    }
  }

  lemma TombstoneClaimsOf(ts: seq<EventTombstone>, c: Claim)
    ensures c in TombstoneClaims(ts) <==> exists i :: 0 <= i < |ts| && ts[i].acceptance == c.number && ts[i].eventId == c.id
  {
    if i :| 0 <= i < |ts| && ts[i].acceptance == c.number && ts[i].eventId == c.id {
      assert TombstoneClaims(ts)[i] == c;
    }
  }

  lemma ClaimsAreOwners(cp: Checkpoint, n: nat, id: Text)
    ensures Claim(n, id) in Claims(cp) <==> Owns(cp, n, id)
  {
    hide Live, LiveEntries, EntryClaims, ReceiptClaims, TombstoneClaims;
    var c := Claim(n, id);
    EntryClaimsOf(cp, c);
    ReceiptClaimsOf(cp.receipts, c);
    TombstoneClaimsOf(cp.tombstones, c);
  }

  /** Every acceptance number has one owner, and was allocated if the counter is still there. */
  ghost predicate OwnersAllocated(cp: Checkpoint) {
    && OwnersOk(cp)
    && (cp.record.Retained? ==> forall n: nat, id :: Owns(cp, n, id) ==> n < cp.record.aggregate.nextAcceptance)
  }

  /** One pass with a map decides whether every acceptance number has one owner and was allocated. */
  method CheckOwners(cp: Checkpoint) returns (ok: bool)
    ensures ok <==> OwnersAllocated(cp)
  {
    hide Owns, Claims;
    var claims := Claims(cp);
    var owners: map<nat, Text> := map[];
    for i := 0 to |claims|
      invariant forall n :: n in owners ==> Owns(cp, n, owners[n])
      invariant forall j :: 0 <= j < i ==> claims[j].number in owners && owners[claims[j].number] == claims[j].id
      invariant cp.record.Retained? ==> forall j :: 0 <= j < i ==> claims[j].number < cp.record.aggregate.nextAcceptance
    {
      var c := claims[i];
      assert Claim(c.number, c.id) in claims;
      ClaimsAreOwners(cp, c.number, c.id);
      if cp.record.Retained? && c.number >= cp.record.aggregate.nextAcceptance {
        return false;
      }
      if c.number in owners && owners[c.number] != c.id {
        return false;
      }
      owners := owners[c.number := c.id];
    }
    forall n: nat, id | Owns(cp, n, id)
      ensures n in owners && owners[n] == id
      ensures cp.record.Retained? ==> n < cp.record.aggregate.nextAcceptance
    {
      ClaimsAreOwners(cp, n, id);
      var j :| 0 <= j < |claims| && claims[j] == Claim(n, id);
    }
    return true;
  }

  /** Terminal queue numbers were allocated, occur once and belong to no live entry. */
  predicate QueuesApart(cp: Checkpoint) {
    && (forall i :: 0 <= i < |cp.receipts| && cp.receipts[i].Terminal? ==>
          && (cp.record.Retained? ==> cp.receipts[i].finalQueue < cp.record.aggregate.nextQueue)
          && !TakenBy(LiveEntries(cp), cp.receipts[i].finalQueue))
    && (forall i, j :: 0 <= i < j < |cp.receipts| && cp.receipts[i].Terminal? && cp.receipts[j].Terminal? ==>
          cp.receipts[i].finalQueue != cp.receipts[j].finalQueue)
  }

  predicate TakenBy(es: seq<Entry>, queue: nat) {
    exists k :: 0 <= k < |es| && es[k].queue == queue
  }

  method CollectQueues(es: seq<Entry>) returns (taken: set<nat>)
    ensures forall q: nat :: q in taken <==> TakenBy(es, q)
  {
    taken := {};
    for i := 0 to |es|
      invariant forall q: nat :: q in taken <==> TakenBy(es[..i], q)
    {
      assert forall k :: 0 <= k < i ==> es[..i + 1][k] == es[..i][k];
      assert es[..i + 1][i] == es[i];
      taken := taken + {es[i].queue};
    }
    assert es[..|es|] == es;
  }

  method CheckQueues(cp: Checkpoint) returns (ok: bool)
    ensures ok <==> QueuesApart(cp)
  {
    hide TakenBy, LiveEntries;
    var rs := cp.receipts;
    ghost var live := LiveEntries(cp);
    var taken := CollectQueues(LiveEntries(cp));
    for i := 0 to |rs|
      invariant forall j :: 0 <= j < i && rs[j].Terminal? ==> rs[j].finalQueue in taken && !TakenBy(live, rs[j].finalQueue)
      invariant cp.record.Retained? ==> forall j :: 0 <= j < i && rs[j].Terminal? ==> rs[j].finalQueue < cp.record.aggregate.nextQueue
      invariant forall j, k :: 0 <= j < k < i && rs[j].Terminal? && rs[k].Terminal? ==> rs[j].finalQueue != rs[k].finalQueue
      invariant forall q: nat :: TakenBy(live, q) ==> q in taken
      invariant forall q: nat :: q in taken ==> TakenBy(live, q) || exists j :: 0 <= j < i && rs[j].Terminal? && rs[j].finalQueue == q
    {
      if rs[i].Terminal? {
        if (cp.record.Retained? && rs[i].finalQueue >= cp.record.aggregate.nextQueue) || rs[i].finalQueue in taken {
          return false;
        }
        taken := taken + {rs[i].finalQueue};
      }
    }
    return true;
  }

  // ------------------------------------------------------------------------------------------
  // The pass over the emission references
  // ------------------------------------------------------------------------------------------

  /** What an emission reference is about: an event or an effect. */
  datatype Subject = Event(eventId: Text) | Effect(effectId: Text)

  function SubjectOf(r: Reference): Subject {
    if r.OutboxRef? then Effect(r.effectId) else Event(r.eventId)
  }

  ghost predicate About(rs: seq<Receipt>, i: int, k: int, s: Subject) {
    0 <= i < |rs| && 0 <= k < |rs[i].Refs()| && SubjectOf(rs[i].Refs()[k]) == s
  }

  ghost predicate UniqueSubjects(rs: seq<Receipt>) {
    forall i, k, j, l, s :: About(rs, i, k, s) && About(rs, j, l, s) ==> i == j && k == l
  }

  /** Position (i, k) comes before position (j, l). */
  predicate Precedes(i: int, k: int, j: int, l: int) {
    i < j || (i == j && k < l)
  }

  /** `seen` holds the subjects before position (j, l), each of which occurs once there. */
  ghost predicate SeenUpTo(rs: seq<Receipt>, j: int, l: int, seen: set<Subject>) {
    && (forall i, k, s :: About(rs, i, k, s) && Precedes(i, k, j, l) ==> s in seen)
    && (forall s :: s in seen ==> Occurs(rs, s))
    && (forall i, k, i', k', s :: About(rs, i, k, s) && Precedes(i, k, j, l) && About(rs, i', k', s) && Precedes(i', k', j, l) ==> i == i' && k == k')
  }

  ghost predicate Occurs(rs: seq<Receipt>, s: Subject) {
    exists i, k :: About(rs, i, k, s)
  }

  ghost predicate OccursBefore(rs: seq<Receipt>, j: int, l: int, s: Subject) {
    exists i, k :: About(rs, i, k, s) && Precedes(i, k, j, l)
  }

  /** The subjects of all references, unless one occurs twice. */
  method CollectSubjects(rs: seq<Receipt>) returns (r: Option<set<Subject>>)
    ensures r.Some? <==> UniqueSubjects(rs)
    ensures r.Some? ==> forall s :: s in r.value <==> Occurs(rs, s)
  {
    hide SubjectOf;
    var seen: set<Subject> := {};
    for i := 0 to |rs|
      invariant SeenUpTo(rs, i, 0, seen)
      invariant forall s :: s in seen ==> OccursBefore(rs, i, 0, s)
    {
      var refs := rs[i].Refs();
      for k := 0 to |refs|
        invariant SeenUpTo(rs, i, k, seen)
        invariant forall s :: s in seen ==> OccursBefore(rs, i, k, s)
      {
        var s := SubjectOf(refs[k]);
        assert About(rs, i, k, s);
        if s in seen {
          ghost var i', k' :| About(rs, i', k', s) && Precedes(i', k', i, k);
          return None;
        }
        SeenMore(rs, i, k, s, seen);
        seen := seen + {s};
      }
      SeenRow(rs, i, seen);
    }
    assert forall i, k, s :: About(rs, i, k, s) ==> Precedes(i, k, |rs|, 0);
    return Some(seen);
  }

  lemma SeenMore(rs: seq<Receipt>, i: nat, k: nat, s: Subject, seen: set<Subject>)
    requires SeenUpTo(rs, i, k, seen) && About(rs, i, k, s) && s !in seen && forall x :: x in seen ==> OccursBefore(rs, i, k, x)
    ensures SeenUpTo(rs, i, k + 1, seen + {s})
    ensures forall x :: x in seen + {s} ==> OccursBefore(rs, i, k + 1, x)
  {
    hide About, Occurs;
    assert Occurs(rs, s) by { OccursAt(rs, i, k, s); }
    forall j, l, x | About(rs, j, l, x) && Precedes(j, l, i, k + 1) && !Precedes(j, l, i, k) ensures j == i && l == k && x == s {
      AboutOne(rs, i, k, s, x);
    }
    assert Precedes(i, k, i, k + 1);
    forall x | x in seen ensures OccursBefore(rs, i, k + 1, x) {
      var j, l :| About(rs, j, l, x) && Precedes(j, l, i, k);
      assert Precedes(j, l, i, k + 1);
    }
  }

  lemma OccursAt(rs: seq<Receipt>, i: int, k: int, s: Subject)
    requires About(rs, i, k, s)
    ensures Occurs(rs, s)
  {
  }

  lemma AboutOne(rs: seq<Receipt>, i: int, k: int, s: Subject, x: Subject)
    requires About(rs, i, k, s)
    ensures About(rs, i, k, x) ==> x == s
  {
  }

  /** At the end of a receipt the position moves on to the next one. */
  lemma SeenRow(rs: seq<Receipt>, i: nat, seen: set<Subject>)
    requires i < |rs| && SeenUpTo(rs, i, |rs[i].Refs()|, seen) && forall x :: x in seen ==> OccursBefore(rs, i, |rs[i].Refs()|, x)
    ensures SeenUpTo(rs, i + 1, 0, seen)
    ensures forall x :: x in seen ==> OccursBefore(rs, i + 1, 0, x)
  {
    hide Occurs;
    var n := |rs[i].Refs()|;
    forall j, l, x | About(rs, j, l, x) ensures Precedes(j, l, i + 1, 0) <==> Precedes(j, l, i, n) {
    }
    hide About, Precedes;
    forall x | x in seen ensures OccursBefore(rs, i + 1, 0, x) {
      var j, l :| About(rs, j, l, x) && Precedes(j, l, i, n);
      assert Precedes(j, l, i + 1, 0);
    }
  }

  lemma SubjectsIff(rs: seq<Receipt>)
    ensures UniqueSubjects(rs) <==> UniqueProducers(rs) && UniqueEffects(rs)
    ensures forall f :: Occurs(rs, Effect(f)) <==> Referenced(rs, f)
  {
    forall i, k, id ensures About(rs, i, k, Event(id)) <==> Concerns(rs, i, k, id) {
    }
    if UniqueSubjects(rs) {
      forall i, k, j, l, id | Concerns(rs, i, k, id) && Concerns(rs, j, l, id) ensures i == j && k == l {
        assert About(rs, i, k, Event(id)) && About(rs, j, l, Event(id));
      }
      forall i, k, j, l |
        && 0 <= i < |rs| && 0 <= k < |rs[i].Refs()| && rs[i].Refs()[k].OutboxRef?
        && 0 <= j < |rs| && 0 <= l < |rs[j].Refs()| && rs[j].Refs()[l].OutboxRef?
        && rs[i].Refs()[k].effectId == rs[j].Refs()[l].effectId
        ensures i == j && k == l
      {
        var s := Effect(rs[i].Refs()[k].effectId);
        assert About(rs, i, k, s) && About(rs, j, l, s);
      }
    }
    if UniqueProducers(rs) && UniqueEffects(rs) {
      forall i, k, j, l, s | About(rs, i, k, s) && About(rs, j, l, s) ensures i == j && k == l {
        if s.Event? {
          assert Concerns(rs, i, k, s.eventId) && Concerns(rs, j, l, s.eventId);
        }
      }
    }
    forall f ensures Occurs(rs, Effect(f)) <==> Referenced(rs, f) {
      ReferencedIff(rs, f);
    }
  }

  lemma ReferencedIff(rs: seq<Receipt>, f: Text)
    ensures Occurs(rs, Effect(f)) <==> Referenced(rs, f)
  {
    if Referenced(rs, f) {
      var i, k :| 0 <= i < |rs| && 0 <= k < |rs[i].Refs()| && rs[i].Refs()[k].OutboxRef? && rs[i].Refs()[k].effectId == f;
      assert About(rs, i, k, Effect(f));
    }
    if Occurs(rs, Effect(f)) {
      var i, k :| About(rs, i, k, Effect(f));
      assert rs[i].Refs()[k].OutboxRef?;
    }
  }

  /** Each emission reference names a live internal entry, a retained terminal or a tombstone. */
  predicate ReferencesMet(cp: Checkpoint) {
    forall i, k :: 0 <= i < |cp.receipts| && 0 <= k < |cp.receipts[i].Refs()| ==>
      var r := cp.receipts[i].Refs()[k];
      match r
      case MailboxRef(_, _, _, _) => LiveReference(cp, r)
      case TerminalRef(_, _, _, _) => EndedReference(cp, i, r)
      case OutboxRef(_, _) => true
  }

  /** The effect ids of the outbox, stage by stage. */
  function Staged(cp: Checkpoint): (s: set<Subject>)
    ensures forall f :: Effect(f) in s <==> IsPending(cp, f) || IsTerminal(cp, f) || IsCompacted(cp, f)
    ensures forall x :: x in s ==> x.Effect?
  {
    (set i | 0 <= i < |cp.pending| :: Effect(cp.pending[i].intent.effectId))
    + (set i | 0 <= i < |cp.terminals| :: Effect(cp.terminals[i].intent.effectId))
    + (set i | 0 <= i < |cp.compacted| :: Effect(cp.compacted[i].effectId))
  }

  method CheckReferences(cp: Checkpoint) returns (ok: bool)
    ensures ok <==> ReferencesOk(cp) && EffectsOk(cp)
  {
    hide UniqueSubjects, Occurs, UniqueProducers, UniqueEffects, Referenced, IsPending, IsTerminal, IsCompacted, LiveReference, EndedReference;
    SubjectsIff(cp.receipts);
    var subjects := CollectSubjects(cp.receipts);
    if subjects.None? {
      return false;
    }
    var staged := Staged(cp);
    var effects := set s | s in subjects.value && s.Effect?;
    if effects != staged {
      EffectsDiffer(cp, subjects.value, effects, staged);
      return false;
    }
    forall f ensures Referenced(cp.receipts, f) <==> IsPending(cp, f) || IsTerminal(cp, f) || IsCompacted(cp, f) {
      assert Effect(f) in effects <==> Effect(f) in staged;
    }
    return ReferencesMet(cp);
  }

  lemma EffectsDiffer(cp: Checkpoint, subjects: set<Subject>, effects: set<Subject>, staged: set<Subject>)
    requires forall s :: s in subjects <==> Occurs(cp.receipts, s)
    requires forall s :: s in effects <==> s in subjects && s.Effect?
    requires staged == Staged(cp) && effects != staged
    ensures !EffectsOk(cp)
  {
    hide Occurs, UniqueEffects, Referenced, IsPending, IsTerminal, IsCompacted;
    SubjectsIff(cp.receipts);
    if EffectsOk(cp) {
      forall s ensures s in effects <==> s in staged {
        if s.Effect? {
          assert Referenced(cp.receipts, s.effectId) <==> IsPending(cp, s.effectId) || IsTerminal(cp, s.effectId) || IsCompacted(cp, s.effectId);
        }
      }
    }
  }

  // ------------------------------------------------------------------------------------------
  // The whole validation
  // ------------------------------------------------------------------------------------------

  /** No live entry has the id of an ended event. */
  predicate LiveNotEnded(cp: Checkpoint) {
    forall e, i :: e in Live(cp) && 0 <= i < |cp.receipts| && cp.receipts[i].Terminal? ==> e.Id() != cp.receipts[i].eventId
  }

  /** The acceptance numbers of receipts and tombstones were allocated. */
  predicate NumbersBelow(cp: Checkpoint, next: nat) {
    && (forall i :: 0 <= i < |cp.receipts| && !cp.receipts[i].Creation? ==> cp.receipts[i].acceptance < next)
    && (forall i :: 0 <= i < |cp.tombstones| ==> cp.tombstones[i].acceptance < next)
  }

  predicate FinalsBelow(rs: seq<Receipt>, next: nat) {
    forall i :: 0 <= i < |rs| && rs[i].Terminal? ==> rs[i].finalQueue < next
  }

  predicate FinalsApart(rs: seq<Receipt>) {
    forall i, j :: 0 <= i < j < |rs| && rs[i].Terminal? && rs[j].Terminal? ==> rs[i].finalQueue != rs[j].finalQueue
  }

  predicate FinalsFree(cp: Checkpoint) {
    forall i :: 0 <= i < |cp.receipts| && cp.receipts[i].Terminal? ==> !TakenBy(LiveEntries(cp), cp.receipts[i].finalQueue)
  }

  lemma QueuesApartIff(cp: Checkpoint)
    ensures QueuesApart(cp) <==>
              (cp.record.Retained? ==> FinalsBelow(cp.receipts, cp.record.aggregate.nextQueue)) && FinalsFree(cp) && FinalsApart(cp.receipts)
  {
    hide TakenBy, LiveEntries;
  }

  lemma UniqueTerminalsIff(rs: seq<Receipt>)
    ensures UniqueTerminals(rs) <==> UniqueEnds(rs) && FinalsApart(rs)
  {
  }

  lemma AllocationsIff(cp: Checkpoint)
    ensures AllocationsOk(cp) <==>
              (cp.record.Retained? ==> NumbersBelow(cp, cp.record.aggregate.nextAcceptance) && FinalsBelow(cp.receipts, cp.record.aggregate.nextQueue))
  {
  }

  lemma FreeIff(cp: Checkpoint, i: nat)
    requires i < |cp.receipts| && cp.receipts[i].Terminal?
    ensures TakenBy(LiveEntries(cp), cp.receipts[i].finalQueue) <==> exists e :: e in Live(cp) && e.queue == cp.receipts[i].finalQueue
  {
    hide Live, LiveEntries;
    var es, q := LiveEntries(cp), cp.receipts[i].finalQueue;
    if k :| 0 <= k < |es| && es[k].queue == q {
      LiveEntriesAre(cp, es[k]);
    }
    if e :| e in Live(cp) && e.queue == q {
      LiveEntriesAre(cp, e);
      var k :| 0 <= k < |es| && es[k] == e;
    }
  }

  lemma QueuesOkIff(cp: Checkpoint)
    ensures QueuesOk(cp) <==> FinalsFree(cp) && LiveNotEnded(cp)
  {
    hide Live, LiveEntries, TakenBy;
    forall i: nat | i < |cp.receipts| && cp.receipts[i].Terminal?
      ensures TakenBy(LiveEntries(cp), cp.receipts[i].finalQueue) <==> exists e :: e in Live(cp) && e.queue == cp.receipts[i].finalQueue
    {
      FreeIff(cp, i);
    }
  }

  lemma AllocatedIff(cp: Checkpoint, next: nat)
    requires forall e :: e in Live(cp) ==> e.acceptance < next
    ensures (forall n: nat, id :: Owns(cp, n, id) ==> n < next) <==> NumbersBelow(cp, next)
  {
    hide Live;
    if forall n: nat, id :: Owns(cp, n, id) ==> n < next {
      forall i | 0 <= i < |cp.receipts| && !cp.receipts[i].Creation? ensures cp.receipts[i].acceptance < next {
        assert Owns(cp, cp.receipts[i].acceptance, cp.receipts[i].eventId);
      }
      forall i | 0 <= i < |cp.tombstones| ensures cp.tombstones[i].acceptance < next {
        assert Owns(cp, cp.tombstones[i].acceptance, cp.tombstones[i].eventId);
      }
    }
  }

  lemma LiveBelow(cp: Checkpoint)
    requires cp.record.Retained? && MailboxesOk(cp.record.aggregate)
    ensures forall e :: e in Live(cp) ==> e.acceptance < cp.record.aggregate.nextAcceptance
  {
    hide MailOf, Distinct, BoxesOk;
  }

  /** Owners and queues together say what the invariant says about numbers. */
  lemma NumbersIff(cp: Checkpoint)
    requires cp.record.Retained? ==> MailboxesOk(cp.record.aggregate)
    ensures OwnersAllocated(cp) && QueuesApart(cp) && UniqueEnds(cp.receipts) && LiveNotEnded(cp)
            <==> OwnersOk(cp) && AllocationsOk(cp) && UniqueTerminals(cp.receipts) && QueuesOk(cp)
  {
    hide OwnersOk, Owns, QueuesApart, FinalsBelow, FinalsFree, FinalsApart, UniqueEnds, LiveNotEnded, AllocationsOk, UniqueTerminals, QueuesOk, NumbersBelow, MailboxesOk, Live;
    QueuesApartIff(cp);
    UniqueTerminalsIff(cp.receipts);
    AllocationsIff(cp);
    QueuesOkIff(cp);
    if cp.record.Retained? {
      LiveBelow(cp);
      AllocatedIff(cp, cp.record.aggregate.nextAcceptance);
    }
  }

  /** Semantic validation accepts exactly the valid checkpoints. */
  method ValidateSemantics(cp: Checkpoint) returns (ok: bool)
    ensures ok <==> Valid(cp)
  {
    hide Chronological, CreatedFirst, Contiguous, UniqueAcceptances, UniqueEnds, ReceiptsOk, UniqueTerminals, AllocationsOk, DigestsOk, CreationOk;
    hide MailboxesOk, SourcesOk, ProvenanceOk, AcceptancesLead, TombstonesOk, OwnersOk, OwnersAllocated, QueuesOk, QueuesApart, LiveNotEnded;
    hide TerminalsExplained, ReferencesOk, StagesOk, EffectsOk;
    ReceiptsOkIff(cp);
    ok := CheckChronology(cp.receipts, cp.nextReceipt, cp.revision);
    if !ok { return; }
    ok := CheckIdentities(cp.receipts);
    if !ok {
      EndsOfTerminals(cp.receipts);
      return;
    }
    if !CreatedFirst(cp.receipts) { return false; }
    HasReceipts(cp.receipts);
    ok := CheckRetention(cp.receipts, cp.retention.Base(), cp.nextReceipt);
    if !ok { return; }
    if !CreationOk(cp) { return false; }
    if cp.record.Retained? && !(MailboxesOk(cp.record.aggregate) && SourcesOk(cp.record.aggregate)) { return false; }
    if !ProvenanceOk(cp) || !AcceptancesLead(cp) || !TombstonesOk(cp) { return false; }
    NumbersIff(cp);
    QueueNames(cp);
    EndsOfTerminals(cp.receipts);
    ok := CheckOwners(cp);
    if !ok { return; }
    ok := CheckQueues(cp);
    if !ok { return; }
    if !DigestsOk(cp) || !LiveNotEnded(cp) || !TerminalsExplained(cp) { return false; }
    ok := CheckReferences(cp);
    if !ok { return; }
    return StagesOk(cp);
  }

  lemma HasReceipts(rs: seq<Receipt>)
    requires CreatedFirst(rs)
    ensures |rs| >= 1 && rs[0].Creation?
  {
  }

  lemma EndsOfTerminals(rs: seq<Receipt>)
    ensures UniqueTerminals(rs) ==> UniqueEnds(rs)
  {
  }

  lemma QueueNames(cp: Checkpoint)
    ensures QueuesOk(cp) ==> LiveNotEnded(cp)
  {
  }
}
