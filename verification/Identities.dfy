/**
 The ids that the engine derives for emitted events and effects. The program hashes the canonical
 form of a list of fields; here the id is an injective encoding of those fields.
 */
module Identities {
  import opened CheckpointModel
  import opened WireCore

  // ------------------------------------------------------------------------------------------
  // An injective encoding of lists of texts
  // ------------------------------------------------------------------------------------------

  /** The number `n` as a text. */
  function Ones(n: nat): (t: Text)
    ensures |t| == n && forall i :: 0 <= i < n ==> t[i] == '1'
  {
    seq(n, i => '1')
  }

  /** A field is preceded by its length. */
  function Field(f: Text): Text {
    Ones(|f|) + "0" + f
  }

  function Encode(fs: seq<Text>): Text {
    if fs == [] then [] else Field(fs[0]) + Encode(fs[1..])
  }

  lemma FieldAt(f: Text, rest: Text)
    ensures var t := Field(f) + rest;
            && |t| == 2 * |f| + 1 + |rest|
            && (forall i :: 0 <= i < |f| ==> t[i] == '1') && t[|f|] == '0'
            && t[|f| + 1..2 * |f| + 1] == f && t[2 * |f| + 1..] == rest
  {
  }

  lemma FieldInjective(f: Text, rest: Text, g: Text, more: Text)
    requires Field(f) + rest == Field(g) + more
    ensures f == g && rest == more
  {
    hide Field;
    FieldAt(f, rest);
    FieldAt(g, more);
    assert |f| == |g|;
  }

  lemma {:induction false} EncodeInjective(fs: seq<Text>, gs: seq<Text>)
    requires |fs| == |gs| && Encode(fs) == Encode(gs)
    ensures fs == gs
  {
    if fs != [] {
      FieldInjective(fs[0], Encode(fs[1..]), gs[0], Encode(gs[1..]));
      EncodeInjective(fs[1..], gs[1..]);
      assert fs == [fs[0]] + fs[1..] && gs == [gs[0]] + gs[1..];
    }
  }

  /** An encoding is longer than each of its fields. */
  lemma {:induction false} EncodeLonger(fs: seq<Text>, i: nat)
    requires i < |fs|
    ensures |Encode(fs)| > |fs[i]|
  {
    if i > 0 {
      EncodeLonger(fs[1..], i - 1);
      assert fs[1..][i - 1] == fs[i];
    }
  }

  // ------------------------------------------------------------------------------------------
  // Derived ids
  // ------------------------------------------------------------------------------------------

  datatype EventOrigin = EventOrigin(
    root: Text, source: Text, target: Text, cause: Text, step: nat, locator: Text, ordinal: nat)

  datatype EffectOrigin = EffectOrigin(
    namespace: Text, machine: Text, version: nat,
    root: Text, runtime: Text, cause: Text, step: nat, locator: Text, ordinal: nat)

  function EventFields(o: EventOrigin): seq<Text> {
    ["determa-event-identity-1", "1", o.root, o.source, o.target, o.cause, Ones(o.step), o.locator, Ones(o.ordinal)]
  }

  function EffectFields(o: EffectOrigin): seq<Text> {
    ["determa-effect-identity-1", "1", Encode([o.namespace, o.machine, Ones(o.version)]),
     o.root, o.runtime, o.cause, Ones(o.step), o.locator, Ones(o.ordinal)]
  }

  function EventIdentity(o: EventOrigin): Text {
    Encode(EventFields(o))
  }

  function EffectIdentity(o: EffectOrigin): Text {
    Encode(EffectFields(o))
  }

  lemma EventInjective(o: EventOrigin, p: EventOrigin)
    requires EventIdentity(o) == EventIdentity(p)
    ensures o == p
  {
    hide Encode;
    var fs, gs := EventFields(o), EventFields(p);
    EncodeInjective(fs, gs);
    assert fs[2] == gs[2] && fs[3] == gs[3] && fs[4] == gs[4] && fs[5] == gs[5] && fs[6] == gs[6] && fs[7] == gs[7] && fs[8] == gs[8];
    assert |fs[6]| == o.step && |gs[6]| == p.step && |fs[8]| == o.ordinal && |gs[8]| == p.ordinal;
  }

  lemma EffectInjective(o: EffectOrigin, p: EffectOrigin)
    requires EffectIdentity(o) == EffectIdentity(p)
    ensures o == p
  {
    hide Encode;
    var fs, gs := EffectFields(o), EffectFields(p);
    EncodeInjective(fs, gs);
    assert fs[2] == gs[2] && fs[3] == gs[3] && fs[4] == gs[4] && fs[5] == gs[5] && fs[6] == gs[6] && fs[7] == gs[7] && fs[8] == gs[8];
    var ds, es := [o.namespace, o.machine, Ones(o.version)], [p.namespace, p.machine, Ones(p.version)];
    EncodeInjective(ds, es);
    assert ds[0] == es[0] && ds[1] == es[1] && ds[2] == es[2];
    assert |ds[2]| == o.version && |es[2]| == p.version;
    assert |fs[6]| == o.step && |gs[6]| == p.step && |fs[8]| == o.ordinal && |gs[8]| == p.ordinal;
  }

  /** No event has the id of its cause. */
  lemma NotItsCause(o: EventOrigin)
    ensures EventIdentity(o) != o.cause
  {
    hide Encode;
    EncodeLonger(EventFields(o), 5);
  }

  // ------------------------------------------------------------------------------------------
  // What a dispatch derives
  // ------------------------------------------------------------------------------------------

  datatype Derivation = OfEvent(event: EventOrigin) | OfEffect(effect: EffectOrigin)

  /** The id of emission `m` is derived from `d`, in logical step `step` of `root`. */
  predicate DerivedFrom(root: Text, step: nat, m: Emission, d: Derivation) {
    match m
    case External(_, intent) =>
      d.OfEffect? && d.effect.root == root && d.effect.step == step && intent.effectId == EffectIdentity(d.effect)
    case Send(_, eventId, causeId, emitter, _, target, _, _) =>
      && d.OfEvent?
      && d.event == EventOrigin(root, emitter, target, causeId, step, d.event.locator, d.event.ordinal)
      && eventId == EventIdentity(d.event)
  }

  /** The ids of all emissions are derived in logical step `step`, no two of them from the same fields. */
  ghost predicate Derived(root: Text, step: nat, ms: seq<Emission>, from: seq<Derivation>) {
    && |from| == |ms|
    && (forall k :: 0 <= k < |ms| ==> DerivedFrom(root, step, ms[k], from[k]))
    && (forall k, l :: 0 <= k < l < |from| ==> from[k] != from[l])
  }

  /** The engine could still derive event id `id` for `root`, in step `step` or later. */
  ghost predicate EventAhead(root: Text, step: nat, id: Text) {
    exists o: EventOrigin :: o.root == root && o.step >= step && EventIdentity(o) == id
  }

  /** The engine could still derive effect id `f` for `root`, in step `step` or later. */
  ghost predicate EffectAhead(root: Text, step: nat, f: Text) {
    exists o: EffectOrigin :: o.root == root && o.step >= step && EffectIdentity(o) == f
  }

  /** What a step derives could be derived in that step, and never can be again. */
  lemma DerivedOnce(root: Text, step: nat, m: Emission, d: Derivation)
    requires DerivedFrom(root, step, m, d)
    ensures m.Send? ==> EventAhead(root, step, m.eventId) && !EventAhead(root, step + 1, m.eventId) && m.causeId != m.eventId
    ensures m.External? ==> EffectAhead(root, step, m.intent.effectId) && !EffectAhead(root, step + 1, m.intent.effectId)
  {
    hide EventIdentity, EffectIdentity;
    if m.Send? {
      NotItsCause(d.event);
      if EventAhead(root, step + 1, m.eventId) {
        var o: EventOrigin :| o.root == root && o.step >= step + 1 && EventIdentity(o) == m.eventId;
        EventInjective(o, d.event);
      }
    } else {
      if EffectAhead(root, step + 1, m.intent.effectId) {
        var o: EffectOrigin :| o.root == root && o.step >= step + 1 && EffectIdentity(o) == m.intent.effectId;
        EffectInjective(o, d.effect);
      }
    }
  }

  /** Emissions of one step have different ids. */
  lemma DerivedApart(root: Text, step: nat, ms: seq<Emission>, from: seq<Derivation>, k: nat, l: nat)
    requires Derived(root, step, ms, from) && k < l < |ms|
    ensures ms[k].Send? && ms[l].Send? ==> ms[k].eventId != ms[l].eventId
    ensures ms[k].External? && ms[l].External? ==> ms[k].intent.effectId != ms[l].intent.effectId
  {
    hide EventIdentity, EffectIdentity;
    assert DerivedFrom(root, step, ms[k], from[k]) && DerivedFrom(root, step, ms[l], from[l]);
    if ms[k].Send? && ms[l].Send? && ms[k].eventId == ms[l].eventId {
      EventInjective(from[k].event, from[l].event);
    }
    if ms[k].External? && ms[l].External? && ms[k].intent.effectId == ms[l].intent.effectId {
      EffectInjective(from[k].effect, from[l].effect);
    }
  }
}
