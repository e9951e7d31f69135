/** What a successful migration guarantees: one consumer for each source occurrence, copied values preserved, no number reissued. */
module MigrationProofs {
  import opened Wrappers
  import opened Sequences
  import Numerals
  import opened TypedValues
  import opened Migration

  // ------------------------------------------------------------------------------------------
  // What is consumed exists
  // ------------------------------------------------------------------------------------------

  ghost predicate AmongKeys(ks: seq<Key>, vs: seq<Variable>) {
    forall k :: k in ks ==> k in Keys(vs)
  }

  lemma {:induction false} MatchingOf(vs: seq<Variable>, key: Key)
    ensures forall v :: v in Matching(vs, key) ==> v in vs && v.key == key
  {
    if vs != [] {
      MatchingOf(vs[..|vs| - 1], key);
      assert vs == vs[..|vs| - 1] + [vs[|vs| - 1]];
    }
  }

  lemma KeyOf(vs: seq<Variable>, v: Variable)
    requires v in vs
    ensures v.key in Keys(vs)
  {
    var i :| 0 <= i < |vs| && vs[i] == v;
    assert Keys(vs)[i] == v.key;
  }

  lemma {:induction false} ArgumentsExist(vs: seq<Variable>, sources: seq<Pointer>, activation: nat)
    requires Arguments(vs, sources, activation).Some?
    ensures AmongKeys(SourceKeys(sources, activation), vs)
  {
    if sources != [] {
      var init, last := sources[..|sources| - 1], sources[|sources| - 1];
      ArgumentsExist(vs, init, activation);
      var key := Key(last, activation);
      MatchingOf(vs, key);
      assert Matching(vs, key)[0] in Matching(vs, key);
      KeyOf(vs, Matching(vs, key)[0]);
      forall k | k in SourceKeys(sources, activation) ensures k in Keys(vs) {
        var i :| 0 <= i < |sources| && k == Key(sources[i], activation);
        if i < |init| {
          assert SourceKeys(init, activation)[i] == k;
        }
      }
    }
  }

  lemma {:induction false} TransformExists(t: Target, vs: seq<Variable>, rule: Rule, found: seq<Variable>)
    requires rule.Transform? && TransformEffect(t, vs, rule, found).Some?
    ensures AmongKeys(TransformEffect(t, vs, rule, found).value.consumed, vs)
  {
    if found != [] {
      TransformExists(t, vs, rule, found[..|found| - 1]);
      ArgumentsExist(vs, rule.sources, found[|found| - 1].key.activation);
    }
  }

  lemma OccurrencesExist(vs: seq<Variable>, source: Pointer)
    ensures AmongKeys(Keys(Occurrences(vs, source)), vs)
  {
    var found := Occurrences(vs, source);
    forall k | k in Keys(found) ensures k in Keys(vs) {
      var i :| 0 <= i < |found| && found[i].key == k;
      assert found[i] in found;
      OccurrencesOf(vs, source, found[i]);
      KeyOf(vs, found[i]);
    }
  }

  lemma RuleExists(t: Target, vs: seq<Variable>, acts: seq<Activation>, rule: Rule)
    requires RuleEffect(t, vs, acts, rule).Some?
    ensures AmongKeys(RuleEffect(t, vs, acts, rule).value.consumed, vs)
  {
    match rule
    case Copy(source, target) =>
      OccurrencesExist(vs, source);
      assert RuleEffect(t, vs, acts, rule).value.consumed == Keys(Occurrences(vs, source));
    case Drop(source) => OccurrencesExist(vs, source);
    case Transform(sources, _, _) => TransformExists(t, vs, rule, Occurrences(vs, sources[0]));
    case Initialize(_, _) =>
  }

  lemma {:induction false} AllExist(t: Target, vs: seq<Variable>, acts: seq<Activation>, rules: seq<Rule>)
    requires AllEffects(t, vs, acts, rules).Some?
    ensures AmongKeys(AllEffects(t, vs, acts, rules).value.consumed, vs)
  {
    hide RuleEffect;
    if rules != [] {
      AllExist(t, vs, acts, rules[..|rules| - 1]);
      RuleExists(t, vs, acts, rules[|rules| - 1]);
    }
  }

  // ------------------------------------------------------------------------------------------
  // Exactly once
  // ------------------------------------------------------------------------------------------

  ghost function AsSet<T>(s: seq<T>): set<T> {
    set x | x in s
  }

  lemma {:induction false} DistinctCount<T>(s: seq<T>)
    ensures |AsSet(s)| <= |s|
    ensures NoRepeats(s) <==> |AsSet(s)| == |s|
  {
    if s != [] {
      var init, last := s[..|s| - 1], s[|s| - 1];
      assert s == init + [last];
      DistinctCount(init);
      if last in init {
        assert AsSet(s) == AsSet(init);
        Repeats(init, last);
      } else {
        assert AsSet(s) == AsSet(init) + {last};
        if NoRepeats(init) {
          assert NoRepeats(s);
        }
      }
      if NoRepeats(s) {
        PrefixClean(init, [last]);
      }
    }
  }

  /** As many different keys from a list as the list is long: each of the list, each once. */
  lemma Pigeonhole(ks: seq<Key>, all: seq<Key>)
    requires NoRepeats(ks) && |ks| == |all| && forall k :: k in ks ==> k in all
    ensures NoRepeats(all) && forall k :: k in all ==> k in ks
  {
    DistinctCount(ks);
    DistinctCount(all);
    assert AsSet(ks) <= AsSet(all);
    Subset(AsSet(ks), AsSet(all));
    forall k | k in all ensures k in ks {
      assert k in AsSet(all);
    }
  }

  lemma Subset<T>(a: set<T>, b: set<T>)
    requires a <= b
    ensures |a| <= |b| && (|a| == |b| ==> a == b)
  {
    assert b == a + (b - a);
    assert |b| == |a| + |b - a|;
  }

  /** A successful migration: what its caller sees. */
  ghost predicate Succeeds(t: Target, vs: seq<Variable>, acts: seq<Activation>, rules: seq<Rule>) {
    var all := AllEffects(t, vs, acts, rules);
    all.Some? && Clean(all.value) && |all.value.consumed| == |vs| && AllAccepted(t, all.value.produced)
  }

  ghost predicate ConsumesAt(t: Target, vs: seq<Variable>, acts: seq<Activation>, rule: Rule, k: Key) {
    RuleEffect(t, vs, acts, rule).Some? && k in RuleEffect(t, vs, acts, rule).value.consumed
  }

  /** Membership in the joined effects, rule by rule. */
  lemma {:induction false} JoinedMember(t: Target, vs: seq<Variable>, acts: seq<Activation>, rules: seq<Rule>, k: Key)
    requires AllEffects(t, vs, acts, rules).Some?
    ensures k in AllEffects(t, vs, acts, rules).value.consumed <==> exists i :: 0 <= i < |rules| && ConsumesAt(t, vs, acts, rules[i], k)
    ensures forall i :: 0 <= i < |rules| ==> RuleEffect(t, vs, acts, rules[i]).Some?
  {
    hide RuleEffect;
    if rules != [] {
      var init := rules[..|rules| - 1];
      JoinedMember(t, vs, acts, init, k);
      assert forall i :: 0 <= i < |init| ==> init[i] == rules[i];
      if i :| 0 <= i < |rules| && ConsumesAt(t, vs, acts, rules[i], k) {
        if i < |init| {
          assert ConsumesAt(t, vs, acts, init[i], k);
        }
      }
      if k in AllEffects(t, vs, acts, rules).value.consumed {
        if k in AllEffects(t, vs, acts, init).value.consumed {
          var i :| 0 <= i < |init| && ConsumesAt(t, vs, acts, init[i], k);
          assert ConsumesAt(t, vs, acts, rules[i], k);
        } else {
          assert ConsumesAt(t, vs, acts, rules[|rules| - 1], k);
        }
      }
    }
  }

  lemma RepeatsAcross<T>(a: seq<T>, b: seq<T>, x: T)
    requires x in a && x in b
    ensures !NoRepeats(a + b)
  {
    var p :| 0 <= p < |a| && a[p] == x;
    var q :| 0 <= q < |b| && b[q] == x;
    assert (a + b)[p] == (a + b)[|a| + q];
  }

  lemma {:induction false} OneRule(t: Target, vs: seq<Variable>, acts: seq<Activation>, rules: seq<Rule>, k: Key, i: nat, j: nat)
    requires AllEffects(t, vs, acts, rules).Some? && NoRepeats(AllEffects(t, vs, acts, rules).value.consumed)
    requires i < j < |rules| && ConsumesAt(t, vs, acts, rules[i], k)
    ensures !ConsumesAt(t, vs, acts, rules[j], k)
  {
    hide RuleEffect;
    var init := rules[..|rules| - 1];
    var before, last := AllEffects(t, vs, acts, init).value.consumed, RuleEffect(t, vs, acts, rules[|rules| - 1]).value.consumed;
    PrefixClean(before, last);
    if j < |init| {
      OneRule(t, vs, acts, init, k, i, j);
    } else {
      assert init[i] == rules[i];
      JoinedMember(t, vs, acts, init, k);
      if k in last {
        RepeatsAcross(before, last, k);
      }
    }
  }

  /** A successful migration consumes every source occurrence, by exactly one rule and only once there. */
  lemma ConsumedExactlyOnce(t: Target, vs: seq<Variable>, acts: seq<Activation>, rules: seq<Rule>, v: Variable)
    requires Succeeds(t, vs, acts, rules) && v in vs
    ensures NoRepeats(Keys(vs))
    ensures exists i :: 0 <= i < |rules| && ConsumesAt(t, vs, acts, rules[i], v.key)
    ensures forall i, j :: 0 <= i < j < |rules| && ConsumesAt(t, vs, acts, rules[i], v.key) ==> !ConsumesAt(t, vs, acts, rules[j], v.key)
    ensures NoRepeats(AllEffects(t, vs, acts, rules).value.consumed)
  {
    hide RuleEffect, AllEffects;
    var consumed := AllEffects(t, vs, acts, rules).value.consumed;
    AllExist(t, vs, acts, rules);
    Pigeonhole(consumed, Keys(vs));
    KeyOf(vs, v);
    JoinedMember(t, vs, acts, rules, v.key);
    forall i, j | 0 <= i < j < |rules| && ConsumesAt(t, vs, acts, rules[i], v.key) ensures !ConsumesAt(t, vs, acts, rules[j], v.key) {
      OneRule(t, vs, acts, rules, v.key, i, j);
    }
  }

  // ------------------------------------------------------------------------------------------
  // Values
  // ------------------------------------------------------------------------------------------

  lemma {:induction false} ProducedBy(t: Target, vs: seq<Variable>, acts: seq<Activation>, rules: seq<Rule>, i: nat, o: Variable)
    requires AllEffects(t, vs, acts, rules).Some? && i < |rules|
    ensures RuleEffect(t, vs, acts, rules[i]).Some?
    ensures o in RuleEffect(t, vs, acts, rules[i]).value.produced ==> o in AllEffects(t, vs, acts, rules).value.produced
  {
    hide RuleEffect;
    var init := rules[..|rules| - 1];
    if i < |init| {
      assert init[i] == rules[i];
      ProducedBy(t, vs, acts, init, i, o);
    }
  }

  /** Copied values arrive unchanged, and each target occurrence is produced at most once. */
  lemma CopiesPreserved(t: Target, vs: seq<Variable>, acts: seq<Activation>, rules: seq<Rule>, i: nat, v: Variable)
    requires Succeeds(t, vs, acts, rules) && i < |rules| && rules[i].Copy? && v in vs && v.key.pointer == rules[i].source
    ensures var out := AllEffects(t, vs, acts, rules).value.produced;
            && Variable(Key(rules[i].target, v.key.activation), v.value) in out
            && NoRepeats(Keys(out))
            && forall o :: o in out && o.key == Key(rules[i].target, v.key.activation) ==> o.value == v.value
  {
    hide AllEffects;
    var out := AllEffects(t, vs, acts, rules).value.produced;
    var found := Occurrences(vs, rules[i].source);
    OccurrencesOf(vs, rules[i].source, v);
    var k :| 0 <= k < |found| && found[k] == v;
    var o := Variable(Key(rules[i].target, v.key.activation), v.value);
    assert CopyEffect(found, rules[i].target).produced[k] == o;
    ProducedBy(t, vs, acts, rules, i, o);
    forall p | p in out && p.key == o.key ensures p.value == o.value {
      var a :| 0 <= a < |out| && out[a] == p;
      var b :| 0 <= b < |out| && out[b] == o;
      assert Keys(out)[a] == Keys(out)[b];
    }
  }

  /** Variables with different names: whatever has the name of `o` is `o`. */
  lemma OneOfName(out: seq<Variable>, o: Variable)
    requires NoRepeats(Keys(out)) && o in out
    ensures forall p :: p in out && p.key == o.key ==> p == o
  {
    forall p | p in out && p.key == o.key ensures p == o {
      var a :| 0 <= a < |out| && out[a] == p;
      var b :| 0 <= b < |out| && out[b] == o;
      assert Keys(out)[a] == Keys(out)[b];
    }
  }

  /**
   Every occurrence of the first source of a transformation is transformed: the one variable of its activation under
   the target name holds what the evaluator makes of the values of all sources in that activation, in their order.
   */
  lemma TransformsArrive(t: Target, vs: seq<Variable>, acts: seq<Activation>, rules: seq<Rule>, i: nat, v: Variable) returns (args: seq<Typed>)
    requires Succeeds(t, vs, acts, rules) && i < |rules| && rules[i].Transform?
    requires v in vs && rules[i].sources != [] && v.key.pointer == rules[i].sources[0]
    ensures ArgumentsAre(vs, rules[i].sources, v.key.activation, args)
    ensures var out, key, value := AllEffects(t, vs, acts, rules).value.produced, Key(rules[i].target, v.key.activation), t.evaluate(rules[i].expression, args);
            && value.Some? && Variable(key, value.value) in out
            && forall o :: o in out && o.key == key ==> o.value == value.value
  {
    hide AllEffects, TransformEffect, ArgumentsAre, Occurrences;
    var rule, out := rules[i], AllEffects(t, vs, acts, rules).value.produced;
    ProducedBy(t, vs, acts, rules, i, v);
    var found := Occurrences(vs, rule.sources[0]);
    OccurrencesOf(vs, rule.sources[0], v);
    var x :| 0 <= x < |found| && found[x] == v;
    TransformYields(t, vs, rule, found);
    var o := TransformEffect(t, vs, rule, found).value.produced[x];
    assert TransformsTo(t, vs, rule, v, o);
    args :| ArgumentsAre(vs, rule.sources, v.key.activation, args) && t.evaluate(rule.expression, args) == Some(o.value);
    ProducedBy(t, vs, acts, rules, i, o);
    assert o == Variable(Key(rule.target, v.key.activation), o.value);
    OneOfName(out, o);
  }

  /** An initialization yields its value in the one live activation of the declaring state. */
  lemma InitializationsArrive(t: Target, vs: seq<Variable>, acts: seq<Activation>, rules: seq<Rule>, i: nat) returns (sequence: nat)
    requires Succeeds(t, vs, acts, rules) && i < |rules| && rules[i].Initialize?
    ensures OnlyLive(acts, t.declaring(rules[i].target), sequence)
    ensures var out, key, value := AllEffects(t, vs, acts, rules).value.produced, Key(rules[i].target, sequence), t.evaluate(rules[i].expression, []);
            && value.Some? && Variable(key, value.value) in out
            && forall o :: o in out && o.key == key ==> o.value == value.value
  {
    hide AllEffects, Live, OnlyLive;
    var rule, out := rules[i], AllEffects(t, vs, acts, rules).value.produced;
    ProducedBy(t, vs, acts, rules, i, Variable(Key(rule.target, 0), TNull));
    var o := RuleEffect(t, vs, acts, rule).value.produced[0];
    ProducedBy(t, vs, acts, rules, i, o);
    sequence := o.key.activation;
    OnlyLiveIff(acts, t.declaring(rule.target), sequence);
    OneOfName(out, o);
  }

  // ------------------------------------------------------------------------------------------
  // Counters
  // ------------------------------------------------------------------------------------------

  datatype NextCounter = NextCounter(pointer: Pointer, next: nat)

  datatype CounterRule =
    | MapCounter(source: Pointer, target: Pointer)
    | MergeMax(source: Pointer, target: Pointer)
    | InitializeZero(target: Pointer)

  /** The rules for a source pointer. */
  function RulesFor(rules: seq<CounterRule>, pointer: Pointer): seq<CounterRule> {
    if rules == [] then []
    else
      var before := RulesFor(rules[..|rules| - 1], pointer);
      var last := rules[|rules| - 1];
      if !last.InitializeZero? && last.source == pointer then before + [last] else before
  }

  /** Where a counter goes: it must have one rule, and that rule must map it. */
  function MapPointer(rules: seq<CounterRule>, pointer: Pointer): Option<Pointer> {
    var found := RulesFor(rules, pointer);
    if |found| == 1 && found[0].MapCounter? then Some(found[0].target) else None
  }

  function Pointers(cs: seq<NextCounter>): (ps: seq<Pointer>)
    ensures |ps| == |cs| && forall i :: 0 <= i < |cs| ==> ps[i] == cs[i].pointer
  {
    seq(|cs|, i requires 0 <= i < |cs| => cs[i].pointer)
  }

  /** Every counter has one rule, which maps it. */
  predicate Maps(source: seq<NextCounter>, rules: seq<CounterRule>) {
    forall i :: 0 <= i < |source| ==> MapPointer(rules, source[i].pointer).Some?
  }

  /** The counters that start at zero. */
  function Initials(rules: seq<CounterRule>): seq<NextCounter> {
    if rules == [] then []
    else
      var before := Initials(rules[..|rules| - 1]);
      var last := rules[|rules| - 1];
      if last.InitializeZero? then before + [NextCounter(last.target, 0)] else before
  }

  /** The mapped counters with their values, then the initialized ones. */
  function Outputs(source: seq<NextCounter>, rules: seq<CounterRule>): (out: seq<NextCounter>)
    requires Maps(source, rules)
    ensures |out| >= |source|
    ensures forall i :: 0 <= i < |source| ==> out[i] == NextCounter(MapPointer(rules, source[i].pointer).value, source[i].next)
  {
    seq(|source|, i requires 0 <= i < |source| => NextCounter(MapPointer(rules, source[i].pointer).value, source[i].next)) + Initials(rules)
  }

  /** Rule `j` is the only one about the source pointer. */
  predicate OnlyRule(rules: seq<CounterRule>, pointer: Pointer, j: nat) {
    j < |rules| && IsAbout(rules[j], pointer) && forall k :: 0 <= k < |rules| && IsAbout(rules[k], pointer) ==> k == j
  }

  predicate IsAbout(rule: CounterRule, pointer: Pointer) {
    !rule.InitializeZero? && rule.source == pointer
  }

  /** The one rule about the pointer maps it there. */
  ghost predicate MapsTo(rules: seq<CounterRule>, pointer: Pointer, target: Pointer) {
    exists j: nat :: OnlyRule(rules, pointer, j) && rules[j] == MapCounter(pointer, target)
  }

  /** `at` lists the positions of the rules about the pointer. */
  ghost predicate RulesAt(rules: seq<CounterRule>, pointer: Pointer, found: seq<CounterRule>, at: seq<nat>) {
    && Increasing(at) && |at| == |found|
    && (forall x :: 0 <= x < |at| ==> at[x] < |rules| && IsAbout(rules[at[x]], pointer) && found[x] == rules[at[x]])
    && (forall j: nat :: j < |rules| && IsAbout(rules[j], pointer) ==> Occurs(j, at))
  }

  lemma RulesMore(rules: seq<CounterRule>, pointer: Pointer, found: seq<CounterRule>, at: seq<nat>)
    requires rules != [] && RulesAt(rules[..|rules| - 1], pointer, found, at)
    ensures var last := |rules| - 1;
            if IsAbout(rules[last], pointer) then RulesAt(rules, pointer, found + [rules[last]], at + [last]) else RulesAt(rules, pointer, found, at)
  {
    hide Occurs;
    var last := |rules| - 1;
    assert forall j :: 0 <= j < last ==> rules[..last][j] == rules[j];
    IncreasingMore(at, last);
    forall j: nat | j < |rules| && IsAbout(rules[j], pointer) ensures Occurs(j, if IsAbout(rules[last], pointer) then at + [last] else at) {
      OccursMore(j, at, last);
    }
  }

  lemma {:induction false} RulesForIs(rules: seq<CounterRule>, pointer: Pointer) returns (at: seq<nat>)
    ensures RulesAt(rules, pointer, RulesFor(rules, pointer), at)
  {
    if rules == [] {
      at := [];
    } else {
      hide RulesAt;
      var last := |rules| - 1;
      var before := RulesForIs(rules[..last], pointer);
      RulesMore(rules, pointer, RulesFor(rules[..last], pointer), before);
      at := if IsAbout(rules[last], pointer) then before + [last] else before;
    }
  }

  lemma MapPointerIff(rules: seq<CounterRule>, pointer: Pointer, target: Pointer)
    ensures MapPointer(rules, pointer) == Some(target) <==> MapsTo(rules, pointer, target)
  {
    hide RulesFor;
    var found := RulesFor(rules, pointer);
    var at := RulesForIs(rules, pointer);
    if |found| == 1 {
      assert OnlyRule(rules, pointer, at[0]);
    }
    if j: nat :| OnlyRule(rules, pointer, j) && rules[j] == MapCounter(pointer, target) {
      assert Occurs(j, at);
      assert forall x :: 0 <= x < |at| ==> at[x] == j;
      SecondLarger(at);
    }
  }

  lemma {:induction false} InitialsIff(rules: seq<CounterRule>, c: NextCounter)
    ensures c in Initials(rules) <==> c.next == 0 && InitializeZero(c.pointer) in rules
  {
    if rules != [] {
      InitialsIff(rules[..|rules| - 1], c);
      assert rules == rules[..|rules| - 1] + [rules[|rules| - 1]];
    }
  }

  /** A counter keeps its value under the pointer to which its rule maps it, or starts at zero. */
  ghost predicate ComesFrom(source: seq<NextCounter>, rules: seq<CounterRule>, c: NextCounter) {
    || (exists d :: d in source && c.next == d.next && MapsTo(rules, d.pointer, c.pointer))
    || (c.next == 0 && InitializeZero(c.pointer) in rules)
  }

  lemma OutputsIff(source: seq<NextCounter>, rules: seq<CounterRule>, c: NextCounter)
    requires Maps(source, rules)
    ensures c in Outputs(source, rules) <==> ComesFrom(source, rules, c)
  {
    hide MapPointer, MapsTo, Initials;
    var out := Outputs(source, rules);
    InitialsIff(rules, c);
    assert out == out[..|source|] + Initials(rules);
    if c in out[..|source|] {
      var i :| 0 <= i < |source| && out[i] == c;
      MapPointerIff(rules, source[i].pointer, c.pointer);
      assert source[i] in source;
    }
    if d :| d in source && c.next == d.next && MapsTo(rules, d.pointer, c.pointer) {
      var i :| 0 <= i < |source| && source[i] == d;
      MapPointerIff(rules, d.pointer, c.pointer);
      assert out[i] == c;
    }
  }

  /** Byte order of the pointers. */
  function PointerOrder(): (NextCounter, NextCounter) -> bool {
    (c: NextCounter, d: NextCounter) => Numerals.Before(c.pointer, d.pointer)
  }

  lemma PointersOrdered()
    ensures IsOrder(PointerOrder())
  {
    var before := PointerOrder();
    forall x, y | before(x, y) ensures !before(y, x) {
      Numerals.Asymmetric(x.pointer, y.pointer);
    }
    forall x, y, z | !before(y, x) && !before(z, y) ensures !before(z, x) {
      Numerals.NotBeforeTransitive(x.pointer, y.pointer, z.pointer);
    }
  }

  predicate Sorted(cs: seq<NextCounter>) {
    SortedBy(PointerOrder(), cs)
  }

  /** In a sorted list repetitions are neighbours. */
  lemma NeighboursRepeat(cs: seq<NextCounter>)
    requires Sorted(cs)
    ensures NoRepeats(Pointers(cs)) <==> forall i :: 0 <= i < |cs| - 1 ==> cs[i].pointer != cs[i + 1].pointer
  {
    hide Numerals.Before;
    if NoRepeats(Pointers(cs)) {
      forall i | 0 <= i < |cs| - 1 ensures cs[i].pointer != cs[i + 1].pointer {
        assert Pointers(cs)[i] != Pointers(cs)[i + 1];
      }
    }
    if !NoRepeats(Pointers(cs)) {
      var i, j :| 0 <= i < j < |cs| && Pointers(cs)[i] == Pointers(cs)[j];
      assert !Numerals.Before(cs[i + 1].pointer, cs[i].pointer);
      if i + 1 < j {
        assert !Numerals.Before(cs[j].pointer, cs[i + 1].pointer);
        Numerals.Comparable(cs[i].pointer, cs[i + 1].pointer);
      }
      assert cs[i].pointer == cs[i + 1].pointer;
    }
  }

  lemma CountTwo(cs: seq<NextCounter>, i: nat, j: nat)
    requires i < j < |cs| && cs[i] == cs[j]
    ensures multiset(cs)[cs[i]] >= 2
  {
    var c := cs[i];
    assert cs == cs[..j] + [c] + cs[j + 1..];
    assert cs[..j][i] == c;
    assert c in multiset(cs[..j]);
    assert multiset(cs) == multiset(cs[..j]) + multiset{c} + multiset(cs[j + 1..]);
  }

  lemma CountOne(cs: seq<NextCounter>, i: nat)
    requires i < |cs| && forall j :: 0 <= j < |cs| && j != i ==> cs[j] != cs[i]
    ensures multiset(cs)[cs[i]] == 1
  {
    var c := cs[i];
    assert cs == cs[..i] + [c] + cs[i + 1..];
    assert c !in cs[..i] && c !in cs[i + 1..];
    assert multiset(cs) == multiset(cs[..i]) + multiset{c} + multiset(cs[i + 1..]);
    assert multiset(cs[..i])[c] == 0 && multiset(cs[i + 1..])[c] == 0;
  }

  /** No counter occurs twice, and no two counters have one pointer. */
  ghost predicate Apart(m: multiset<NextCounter>) {
    && (forall c :: c in m ==> m[c] == 1)
    && (forall c, d :: c in m && d in m && c != d ==> c.pointer != d.pointer)
  }

  lemma ApartIff(cs: seq<NextCounter>)
    ensures NoRepeats(Pointers(cs)) <==> Apart(multiset(cs))
  {
    if NoRepeats(Pointers(cs)) {
      forall i, j | 0 <= i < |cs| && 0 <= j < |cs| && i != j ensures cs[i].pointer != cs[j].pointer {
        assert Pointers(cs)[i] != Pointers(cs)[j];
      }
      forall c | c in multiset(cs) ensures multiset(cs)[c] == 1 {
        var i :| 0 <= i < |cs| && cs[i] == c;
        CountOne(cs, i);
      }
      forall c, d | c in multiset(cs) && d in multiset(cs) && c != d ensures c.pointer != d.pointer {
        var i :| 0 <= i < |cs| && cs[i] == c;
        var j :| 0 <= j < |cs| && cs[j] == d;
      }
    }
    if Apart(multiset(cs)) {
      forall i: nat, j: nat | i < j < |cs| ensures cs[i].pointer != cs[j].pointer {
        assert cs[i] in multiset(cs) && cs[j] in multiset(cs);
        if cs[i] == cs[j] {
          CountTwo(cs, i, j);
        }
      }
    }
  }

  /** Maps each counter by its one rule. */
  method MapAll(source: seq<NextCounter>, rules: seq<CounterRule>) returns (r: Result<seq<NextCounter>, Failure>)
    ensures r.Ok? <==> Maps(source, rules)
    ensures r.Ok? ==> r.value + Initials(rules) == Outputs(source, rules)
  {
    hide RulesFor, Initials;
    var output: seq<NextCounter> := [];
    for i := 0 to |source|
      invariant |output| == i
      invariant forall j :: 0 <= j < i ==>
        MapPointer(rules, source[j].pointer) == Some(output[j].pointer) && output[j].next == source[j].next
    {
      var found := RulesFor(rules, source[i].pointer);
      if |found| != 1 {
        assert MapPointer(rules, source[i].pointer).None?;
        return Err(NotTotal);
      }
      match found[0] {
        case MapCounter(_, target) => output := output + [NextCounter(target, source[i].next)];
        case _ =>
          assert MapPointer(rules, source[i].pointer).None?;
          return Err(Invalid);
      }
    }
    return Ok(output);
  }

  method AddInitials(mapped: seq<NextCounter>, rules: seq<CounterRule>) returns (output: seq<NextCounter>)
    ensures output == mapped + Initials(rules)
  {
    output := mapped;
    for i := 0 to |rules|
      invariant output == mapped + Initials(rules[..i])
    {
      assert rules[..i + 1][..i] == rules[..i];
      if rules[i].InitializeZero? {
        output := output + [NextCounter(rules[i].target, 0)];
      }
    }
    assert rules[..|rules|] == rules;
  }

  /** Looks for a repeated target among neighbours. */
  method CheckNeighbours(sorted: seq<NextCounter>) returns (ok: bool)
    requires Sorted(sorted)
    ensures ok <==> NoRepeats(Pointers(sorted))
  {
    hide Numerals.Before, NoRepeats;
    NeighboursRepeat(sorted);
    for i := 0 to |sorted|
      invariant forall j :: 0 <= j < i - 1 ==> sorted[j].pointer != sorted[j + 1].pointer
    {
      if i > 0 && sorted[i - 1].pointer == sorted[i].pointer {
        return false;
      }
    }
    return true;
  }

  /**
   Maps every counter, adds the initialized ones, sorts by pointer and refuses two counters for
   one target. It succeeds exactly when every counter has one rule, which maps it, and no target
   is produced twice.
   */
  method MigrateCounters(source: seq<NextCounter>, rules: seq<CounterRule>) returns (r: Result<seq<NextCounter>, Failure>)
    ensures r.Ok? <==> Maps(source, rules) && NoRepeats(Pointers(Outputs(source, rules)))
    ensures r.Ok? ==> Sorted(r.value) && multiset(r.value) == multiset(Outputs(source, rules))
    ensures r.Ok? ==> forall c :: c in r.value <==> ComesFrom(source, rules, c)
  {
    hide NoRepeats, SortedBy, IsOrder, Maps, Initials, Apart;
    var mapped := MapAll(source, rules);
    if mapped.Err? {
      return Err(mapped.error);
    }
    var output := AddInitials(mapped.value, rules);
    PointersOrdered();
    var sorted := SortBy(PointerOrder(), output);
    ApartIff(sorted);
    ApartIff(output);
    var ok := CheckNeighbours(sorted);
    forall c ensures c in sorted <==> ComesFrom(source, rules, c) {
      hide Outputs, ComesFrom;
      OutputsIff(source, rules, c);
      assert c in sorted <==> c in multiset(sorted);
    }
    return if ok then Ok(sorted) else Err(NotTotal);
  }

  /** What a successful counter migration yields. */
  ghost predicate Migrated(source: seq<NextCounter>, rules: seq<CounterRule>, out: seq<NextCounter>) {
    Maps(source, rules) && NoRepeats(Pointers(Outputs(source, rules))) && multiset(out) == multiset(Outputs(source, rules))
  }

  /** Different source counters go to different targets. */
  lemma CountersInjective(source: seq<NextCounter>, rules: seq<CounterRule>, out: seq<NextCounter>, i: nat, j: nat)
    requires Migrated(source, rules, out) && i < j < |source|
    ensures source[i].pointer != source[j].pointer
    ensures forall p, q :: MapsTo(rules, source[i].pointer, p) && MapsTo(rules, source[j].pointer, q) ==> p != q
  {
    forall p, q | MapsTo(rules, source[i].pointer, p) && MapsTo(rules, source[j].pointer, q) ensures p != q {
      MapPointerIff(rules, source[i].pointer, p);
      MapPointerIff(rules, source[j].pointer, q);
      assert Pointers(Outputs(source, rules))[i] != Pointers(Outputs(source, rules))[j];
    }
    assert Pointers(Outputs(source, rules))[i] != Pointers(Outputs(source, rules))[j];
  }

  /** An active activation number that was below its counter stays below the migrated one, so it is never reissued. */
  lemma NeverReissued(source: seq<NextCounter>, rules: seq<CounterRule>, out: seq<NextCounter>, a: Activation, o: NextCounter)
    requires Migrated(source, rules, out)
    requires exists i :: 0 <= i < |source| && source[i].pointer == a.pointer && a.sequence < source[i].next
    requires o in out && MapsTo(rules, a.pointer, o.pointer)
    ensures a.sequence < o.next
  {
    hide MapsTo;
    MapPointerIff(rules, a.pointer, o.pointer);
    var all := Outputs(source, rules);
    var i :| 0 <= i < |source| && source[i].pointer == a.pointer && a.sequence < source[i].next;
    assert o in multiset(out);
    var j :| 0 <= j < |all| && all[j] == o;
    assert Pointers(all)[i] == Pointers(all)[j];
  }
}
