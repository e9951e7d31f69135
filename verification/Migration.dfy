/** Migration of variables and of activation counters from one definition to another. */
module Migration {
  import opened Wrappers
  import Numerals
  import opened Sequences
  import opened TypedValues

  type Pointer = string

  /** One occurrence of a declared variable. */
  datatype Key = Key(pointer: Pointer, activation: nat)

  datatype Variable = Variable(key: Key, value: Typed)

  datatype Rule =
    | Copy(source: Pointer, target: Pointer)
    | Drop(source: Pointer)
    | Transform(sources: seq<Pointer>, target: Pointer, expression: string)
    | Initialize(target: Pointer, expression: string)

  datatype Activation = Activation(pointer: Pointer, sequence: nat)

  /** The expression evaluator, the state that declares a variable, and the declared types of the target machine. */
  datatype Target = Target(
    evaluate: (string, seq<Typed>) -> Option<Typed>, declaring: Pointer -> Pointer, accepts: (Pointer, Typed) -> bool)

  datatype Failure = Invalid | NotTotal

  function Keys(vs: seq<Variable>): (ks: seq<Key>)
    ensures |ks| == |vs| && forall i :: 0 <= i < |vs| ==> ks[i] == vs[i].key
  {
    seq(|vs|, i requires 0 <= i < |vs| => vs[i].key)
  }

  // ------------------------------------------------------------------------------------------
  // What one rule consumes and produces
  // ------------------------------------------------------------------------------------------

  /** The occurrences that are consumed, in order, and the occurrences that are produced. */
  datatype Effect = Effect(consumed: seq<Key>, produced: seq<Variable>)

  function Occurrences(vs: seq<Variable>, pointer: Pointer): seq<Variable> {
    if vs == [] then []
    else
      var before := Occurrences(vs[..|vs| - 1], pointer);
      if vs[|vs| - 1].key.pointer == pointer then before + [vs[|vs| - 1]] else before
  }

  /** The one value of an occurrence. */
  function ValueOf(vs: seq<Variable>, key: Key): Option<Typed> {
    var found := Matching(vs, key);
    if |found| == 1 then Some(found[0].value) else None
  }

  function Matching(vs: seq<Variable>, key: Key): seq<Variable> {
    if vs == [] then []
    else
      var before := Matching(vs[..|vs| - 1], key);
      if vs[|vs| - 1].key == key then before + [vs[|vs| - 1]] else before
  }

  /** The values of the sources of a transformation in one activation. */
  function Arguments(vs: seq<Variable>, sources: seq<Pointer>, activation: nat): Option<seq<Typed>> {
    if sources == [] then Some([])
    else
      var before := Arguments(vs, sources[..|sources| - 1], activation);
      var value := ValueOf(vs, Key(sources[|sources| - 1], activation));
      if before.None? || value.None? then None else Some(before.value + [value.value])
  }

  function SourceKeys(sources: seq<Pointer>, activation: nat): (ks: seq<Key>)
    ensures |ks| == |sources| && forall i :: 0 <= i < |sources| ==> ks[i] == Key(sources[i], activation)
  {
    seq(|sources|, i requires 0 <= i < |sources| => Key(sources[i], activation))
  }

  function CopyEffect(found: seq<Variable>, target: Pointer): (e: Effect)
    ensures |e.consumed| == |e.produced| == |found|
    ensures forall i :: 0 <= i < |found| ==> e.consumed[i] == found[i].key
    ensures forall i :: 0 <= i < |found| ==> e.produced[i] == Variable(Key(target, found[i].key.activation), found[i].value)
  {
    Effect(Keys(found), seq(|found|, i requires 0 <= i < |found| => Variable(Key(target, found[i].key.activation), found[i].value)))
  }

  function TransformEffect(t: Target, vs: seq<Variable>, rule: Rule, found: seq<Variable>): Option<Effect>
    requires rule.Transform?
  {
    if found == [] then Some(Effect([], []))
    else
      var before := TransformEffect(t, vs, rule, found[..|found| - 1]);
      var activation := found[|found| - 1].key.activation;
      var arguments := Arguments(vs, rule.sources, activation);
      if before.None? || arguments.None? then None
      else
        match t.evaluate(rule.expression, arguments.value)
        case None => None
        case Some(value) =>
          Some(Effect(before.value.consumed + SourceKeys(rule.sources, activation),
                      before.value.produced + [Variable(Key(rule.target, activation), value)]))
  }

  /** The activations of the state that declares a variable. */
  function Live(acts: seq<Activation>, pointer: Pointer): seq<Activation> {
    if acts == [] then []
    else
      var before := Live(acts[..|acts| - 1], pointer);
      if acts[|acts| - 1].pointer == pointer then before + [acts[|acts| - 1]] else before
  }

  function InitializeEffect(t: Target, acts: seq<Activation>, rule: Rule): Option<Effect>
    requires rule.Initialize?
  {
    var live := Live(acts, t.declaring(rule.target));
    if |live| != 1 then None
    else
      match t.evaluate(rule.expression, [])
      case None => None
      case Some(value) =>
        if !t.accepts(rule.target, value) then None
        else Some(Effect([], [Variable(Key(rule.target, live[0].sequence), value)]))
  }

  function RuleEffect(t: Target, vs: seq<Variable>, acts: seq<Activation>, rule: Rule): Option<Effect> {
    match rule
    case Copy(source, target) => Some(CopyEffect(Occurrences(vs, source), target))
    case Drop(source) => Some(Effect(Keys(Occurrences(vs, source)), []))
    case Transform(sources, _, _) => if sources == [] then None else TransformEffect(t, vs, rule, Occurrences(vs, sources[0]))
    case Initialize(_, _) => InitializeEffect(t, acts, rule)
  }

  function Join(a: Effect, b: Effect): Effect {
    Effect(a.consumed + b.consumed, a.produced + b.produced)
  }

  function AllEffects(t: Target, vs: seq<Variable>, acts: seq<Activation>, rules: seq<Rule>): Option<Effect> {
    if rules == [] then Some(Effect([], []))
    else
      var before := AllEffects(t, vs, acts, rules[..|rules| - 1]);
      var last := RuleEffect(t, vs, acts, rules[|rules| - 1]);
      if before.None? || last.None? then None else Some(Join(before.value, last.value))
  }

  /** Nothing consumed or produced twice. */
  predicate Clean(e: Effect) {
    NoRepeats(e.consumed) && NoRepeats(Keys(e.produced))
  }

  // ------------------------------------------------------------------------------------------
  // What the rules yield
  // ------------------------------------------------------------------------------------------

  /** The occurrence is there once, with this value. */
  ghost predicate OnlyValue(vs: seq<Variable>, key: Key, value: Typed) {
    exists i: nat :: OnlyAt(vs, key, i) && vs[i].value == value
  }

  predicate OnlyAt(vs: seq<Variable>, key: Key, i: nat) {
    i < |vs| && vs[i].key == key && forall j :: 0 <= j < |vs| && vs[j].key == key ==> j == i
  }

  /** The k-th argument is the value of the k-th source in the activation. */
  ghost predicate ArgumentsAre(vs: seq<Variable>, sources: seq<Pointer>, activation: nat, args: seq<Typed>) {
    |args| == |sources| && forall k :: 0 <= k < |sources| ==> OnlyValue(vs, Key(sources[k], activation), args[k])
  }

  /** The state is live once, in this activation. */
  ghost predicate OnlyLive(acts: seq<Activation>, pointer: Pointer, sequence: nat) {
    exists i: nat :: OnlyActive(acts, pointer, i) && acts[i].sequence == sequence
  }

  predicate OnlyActive(acts: seq<Activation>, pointer: Pointer, i: nat) {
    i < |acts| && acts[i].pointer == pointer && forall j :: 0 <= j < |acts| && acts[j].pointer == pointer ==> j == i
  }

  /** The transformation of occurrence `v` of the first source gives `o`. */
  ghost predicate TransformsTo(t: Target, vs: seq<Variable>, rule: Rule, v: Variable, o: Variable)
    requires rule.Transform?
  {
    && o.key == Key(rule.target, v.key.activation)
    && exists args :: ArgumentsAre(vs, rule.sources, v.key.activation, args) && t.evaluate(rule.expression, args) == Some(o.value)
  }

  /**
   The rule yields `o`: a copy under its new name, what the evaluator makes of the sources of one activation,
   or an initial value in the one live activation of the declaring state.
   */
  ghost predicate Yields(t: Target, vs: seq<Variable>, acts: seq<Activation>, rule: Rule, o: Variable) {
    match rule
    case Copy(source, target) => exists v :: v in vs && v.key.pointer == source && o == Variable(Key(target, v.key.activation), v.value)
    case Drop(_) => false
    case Transform(sources, _, _) => sources != [] && exists v :: v in vs && v.key.pointer == sources[0] && TransformsTo(t, vs, rule, v, o)
    case Initialize(target, expression) =>
      o.key.pointer == target && OnlyLive(acts, t.declaring(target), o.key.activation) && t.evaluate(expression, []) == Some(o.value)
  }

  lemma {:induction false} OccurrencesOf(vs: seq<Variable>, pointer: Pointer, v: Variable)
    ensures v in Occurrences(vs, pointer) <==> v in vs && v.key.pointer == pointer
  {
    if vs != [] {
      OccurrencesOf(vs[..|vs| - 1], pointer, v);
      assert vs == vs[..|vs| - 1] + [vs[|vs| - 1]];
    }
  }

  /** `at` lists the positions of the occurrences of `key`. */
  ghost predicate MatchesAt(vs: seq<Variable>, key: Key, found: seq<Variable>, at: seq<nat>) {
    && Increasing(at) && |at| == |found|
    && (forall x :: 0 <= x < |at| ==> at[x] < |vs| && vs[at[x]].key == key && found[x] == vs[at[x]])
    && (forall j: nat :: j < |vs| && vs[j].key == key ==> Occurs(j, at))
  }

  lemma MatchesMore(vs: seq<Variable>, key: Key, found: seq<Variable>, at: seq<nat>)
    requires vs != [] && MatchesAt(vs[..|vs| - 1], key, found, at)
    ensures var last := |vs| - 1;
            if vs[last].key == key then MatchesAt(vs, key, found + [vs[last]], at + [last]) else MatchesAt(vs, key, found, at)
  {
    hide Occurs;
    var last := |vs| - 1;
    assert forall j :: 0 <= j < last ==> vs[..last][j] == vs[j];
    IncreasingMore(at, last);
    forall j: nat | j < |vs| && vs[j].key == key ensures Occurs(j, if vs[last].key == key then at + [last] else at) {
      OccursMore(j, at, last);
    }
  }

  lemma {:induction false} MatchingIs(vs: seq<Variable>, key: Key) returns (at: seq<nat>)
    ensures MatchesAt(vs, key, Matching(vs, key), at)
  {
    if vs == [] {
      at := [];
    } else {
      hide MatchesAt;
      var last := |vs| - 1;
      var before := MatchingIs(vs[..last], key);
      MatchesMore(vs, key, Matching(vs[..last], key), before);
      at := if vs[last].key == key then before + [last] else before;
    }
  }

  lemma ValueOfIff(vs: seq<Variable>, key: Key, value: Typed)
    ensures ValueOf(vs, key) == Some(value) <==> OnlyValue(vs, key, value)
  {
    hide Matching;
    var found := Matching(vs, key);
    var at := MatchingIs(vs, key);
    if |found| == 1 {
      assert OnlyAt(vs, key, at[0]);
    }
    if i: nat :| OnlyAt(vs, key, i) && vs[i].value == value {
      assert Occurs(i, at);
      assert forall x :: 0 <= x < |at| ==> at[x] == i;
      SecondLarger(at);
    }
  }

  lemma {:induction false} ArgumentsIff(vs: seq<Variable>, sources: seq<Pointer>, activation: nat, args: seq<Typed>)
    ensures Arguments(vs, sources, activation) == Some(args) <==> ArgumentsAre(vs, sources, activation, args)
  {
    hide ValueOf, OnlyValue;
    if sources == [] {
      assert ArgumentsAre(vs, [], activation, args) <==> args == [];
    } else {
      var last := |sources| - 1;
      var init, key := sources[..last], Key(sources[last], activation);
      var before, value := Arguments(vs, init, activation), ValueOf(vs, key);
      if args != [] {
        ArgumentsIff(vs, init, activation, args[..|args| - 1]);
        ValueOfIff(vs, key, args[|args| - 1]);
        assert args == args[..|args| - 1] + [args[|args| - 1]];
      }
      ArgumentsInit(vs, sources, activation, args);
    }
  }

  lemma ArgumentsInit(vs: seq<Variable>, sources: seq<Pointer>, activation: nat, args: seq<Typed>)
    requires sources != []
    ensures var last := |sources| - 1;
            ArgumentsAre(vs, sources, activation, args) <==>
            args != [] && ArgumentsAre(vs, sources[..last], activation, args[..|args| - 1]) && OnlyValue(vs, Key(sources[last], activation), args[|args| - 1])
  {
    hide OnlyValue;
    var last := |sources| - 1;
    if args != [] && ArgumentsAre(vs, sources[..last], activation, args[..|args| - 1]) && OnlyValue(vs, Key(sources[last], activation), args[|args| - 1]) {
      forall k | 0 <= k < |sources| ensures OnlyValue(vs, Key(sources[k], activation), args[k]) {
        assert k < last ==> sources[..last][k] == sources[k] && args[..|args| - 1][k] == args[k];
      }
    }
    if ArgumentsAre(vs, sources, activation, args) {
      forall k | 0 <= k < last ensures OnlyValue(vs, Key(sources[..last][k], activation), args[..|args| - 1][k]) {
        assert sources[..last][k] == sources[k] && args[..|args| - 1][k] == args[k];
      }
    }
  }

  /** What the transformation of the occurrences `found` produces. */
  lemma {:induction false} TransformYields(t: Target, vs: seq<Variable>, rule: Rule, found: seq<Variable>)
    requires rule.Transform? && TransformEffect(t, vs, rule, found).Some?
    ensures var produced := TransformEffect(t, vs, rule, found).value.produced;
            |produced| == |found| && forall x :: 0 <= x < |found| ==> TransformsTo(t, vs, rule, found[x], produced[x])
  {
    hide TransformsTo, Arguments;
    if found != [] {
      var last := |found| - 1;
      TransformYields(t, vs, rule, found[..last]);
      var args := Arguments(vs, rule.sources, found[last].key.activation).value;
      TransformedOne(t, vs, rule, found[last], args);
    }
  }

  lemma TransformedOne(t: Target, vs: seq<Variable>, rule: Rule, v: Variable, args: seq<Typed>)
    requires rule.Transform? && Arguments(vs, rule.sources, v.key.activation) == Some(args) && t.evaluate(rule.expression, args).Some?
    ensures TransformsTo(t, vs, rule, v, Variable(Key(rule.target, v.key.activation), t.evaluate(rule.expression, args).value))
  {
    hide Arguments, ArgumentsAre;
    ArgumentsIff(vs, rule.sources, v.key.activation, args);
  }

  /** The transformation of an occurrence gives one result. */
  lemma TransformsOnce(t: Target, vs: seq<Variable>, rule: Rule, v: Variable, o: Variable, p: Variable)
    requires rule.Transform? && TransformsTo(t, vs, rule, v, o) && TransformsTo(t, vs, rule, v, p)
    ensures o == p
  {
    hide Arguments, ArgumentsAre;
    var args :| ArgumentsAre(vs, rule.sources, v.key.activation, args) && t.evaluate(rule.expression, args) == Some(o.value);
    var args' :| ArgumentsAre(vs, rule.sources, v.key.activation, args') && t.evaluate(rule.expression, args') == Some(p.value);
    ArgumentsIff(vs, rule.sources, v.key.activation, args);
    ArgumentsIff(vs, rule.sources, v.key.activation, args');
  }

  /** `at` lists the positions of the activations of the state. */
  ghost predicate LiveAt(acts: seq<Activation>, pointer: Pointer, found: seq<Activation>, at: seq<nat>) {
    && Increasing(at) && |at| == |found|
    && (forall x :: 0 <= x < |at| ==> at[x] < |acts| && acts[at[x]].pointer == pointer && found[x] == acts[at[x]])
    && (forall j: nat :: j < |acts| && acts[j].pointer == pointer ==> Occurs(j, at))
  }

  lemma LiveMore(acts: seq<Activation>, pointer: Pointer, found: seq<Activation>, at: seq<nat>)
    requires acts != [] && LiveAt(acts[..|acts| - 1], pointer, found, at)
    ensures var last := |acts| - 1;
            if acts[last].pointer == pointer then LiveAt(acts, pointer, found + [acts[last]], at + [last]) else LiveAt(acts, pointer, found, at)
  {
    hide Occurs;
    var last := |acts| - 1;
    assert forall j :: 0 <= j < last ==> acts[..last][j] == acts[j];
    IncreasingMore(at, last);
    forall j: nat | j < |acts| && acts[j].pointer == pointer ensures Occurs(j, if acts[last].pointer == pointer then at + [last] else at) {
      OccursMore(j, at, last);
    }
  }

  lemma {:induction false} LiveIs(acts: seq<Activation>, pointer: Pointer) returns (at: seq<nat>)
    ensures LiveAt(acts, pointer, Live(acts, pointer), at)
  {
    if acts == [] {
      at := [];
    } else {
      hide LiveAt;
      var last := |acts| - 1;
      var before := LiveIs(acts[..last], pointer);
      LiveMore(acts, pointer, Live(acts[..last], pointer), before);
      at := if acts[last].pointer == pointer then before + [last] else before;
    }
  }

  lemma OnlyLiveIff(acts: seq<Activation>, pointer: Pointer, sequence: nat)
    ensures var live := Live(acts, pointer); (|live| == 1 && live[0].sequence == sequence) <==> OnlyLive(acts, pointer, sequence)
  {
    hide Live;
    var live := Live(acts, pointer);
    var at := LiveIs(acts, pointer);
    if |live| == 1 {
      assert OnlyActive(acts, pointer, at[0]);
    }
    if i: nat :| OnlyActive(acts, pointer, i) && acts[i].sequence == sequence {
      assert Occurs(i, at);
      assert forall x :: 0 <= x < |at| ==> at[x] == i;
      SecondLarger(at);
    }
  }

  /** A rule that applies produces exactly what it yields. */
  lemma RuleYields(t: Target, vs: seq<Variable>, acts: seq<Activation>, rule: Rule, o: Variable)
    requires RuleEffect(t, vs, acts, rule).Some?
    ensures o in RuleEffect(t, vs, acts, rule).value.produced <==> Yields(t, vs, acts, rule, o)
  {
    match rule
    case Copy(source, target) => CopyYields(vs, source, target, o);
    case Drop(_) =>
    case Transform(sources, _, _) =>
      hide TransformEffect;
      TransformRuleYields(t, vs, acts, rule, o);
    case Initialize(target, _) =>
      hide Live, OnlyLive;
      OnlyLiveIff(acts, t.declaring(target), o.key.activation);
  }

  lemma CopyYields(vs: seq<Variable>, source: Pointer, target: Pointer, o: Variable)
    ensures o in CopyEffect(Occurrences(vs, source), target).produced
       <==> exists v :: v in vs && v.key.pointer == source && o == Variable(Key(target, v.key.activation), v.value)
  {
    hide Occurrences;
    var found := Occurrences(vs, source);
    var e := CopyEffect(found, target);
    if o in e.produced {
      var x :| 0 <= x < |e.produced| && e.produced[x] == o;
      assert found[x] in found;
      OccurrencesOf(vs, source, found[x]);
    }
    if v :| v in vs && v.key.pointer == source && o == Variable(Key(target, v.key.activation), v.value) {
      OccurrencesOf(vs, source, v);
      var x :| 0 <= x < |found| && found[x] == v;
      assert e.produced[x] == o;
    }
  }

  lemma TransformRuleYields(t: Target, vs: seq<Variable>, acts: seq<Activation>, rule: Rule, o: Variable)
    requires rule.Transform? && RuleEffect(t, vs, acts, rule).Some?
    ensures o in RuleEffect(t, vs, acts, rule).value.produced <==> Yields(t, vs, acts, rule, o)
  {
    hide TransformEffect, TransformsTo, Occurrences;
    var found := Occurrences(vs, rule.sources[0]);
    var produced := TransformEffect(t, vs, rule, found).value.produced;
    TransformYields(t, vs, rule, found);
    if o in produced {
      var x :| 0 <= x < |produced| && produced[x] == o;
      assert found[x] in found;
      OccurrencesOf(vs, rule.sources[0], found[x]);
      assert TransformsTo(t, vs, rule, found[x], o);
    }
    if v :| v in vs && v.key.pointer == rule.sources[0] && TransformsTo(t, vs, rule, v, o) {
      OccurrencesOf(vs, rule.sources[0], v);
      var x :| 0 <= x < |found| && found[x] == v;
      TransformsOnce(t, vs, rule, v, produced[x], o);
    }
  }

  /** Some rule yields `o`. */
  ghost predicate Yielded(t: Target, vs: seq<Variable>, acts: seq<Activation>, rules: seq<Rule>, o: Variable) {
    exists i :: 0 <= i < |rules| && Yields(t, vs, acts, rules[i], o)
  }

  lemma {:induction false} AllYield(t: Target, vs: seq<Variable>, acts: seq<Activation>, rules: seq<Rule>, o: Variable)
    requires AllEffects(t, vs, acts, rules).Some?
    ensures o in AllEffects(t, vs, acts, rules).value.produced <==> Yielded(t, vs, acts, rules, o)
  {
    hide RuleEffect, Yields;
    if rules != [] {
      var last := |rules| - 1;
      var init := rules[..last];
      AllYield(t, vs, acts, init, o);
      RuleYields(t, vs, acts, rules[last], o);
      if i :| 0 <= i < |rules| && Yields(t, vs, acts, rules[i], o) {
        assert i < last ==> init[i] == rules[i];
      }
      if i :| 0 <= i < |init| && Yields(t, vs, acts, init[i], o) {
        assert rules[i] == init[i];
      }
    }
  }

  /** A permutation of what was produced holds exactly what is yielded, once for each name. */
  lemma OutputYields(t: Target, vs: seq<Variable>, acts: seq<Activation>, rules: seq<Rule>, out: seq<Variable>)
    requires AllEffects(t, vs, acts, rules).Some? && Clean(AllEffects(t, vs, acts, rules).value)
    requires multiset(out) == multiset(AllEffects(t, vs, acts, rules).value.produced)
    ensures forall o :: o in out <==> Yielded(t, vs, acts, rules, o)
    ensures forall o, p :: o in out && p in out && o.key == p.key ==> o == p
  {
    hide AllEffects, Yielded;
    NamesApart(out, AllEffects(t, vs, acts, rules).value.produced);
    forall o ensures o in out <==> Yielded(t, vs, acts, rules, o) {
      AllYield(t, vs, acts, rules, o);
      assert o in out <==> o in multiset(out);
    }
  }

  /** A permutation of variables with different names has one for each name. */
  lemma NamesApart(out: seq<Variable>, produced: seq<Variable>)
    requires NoRepeats(Keys(produced)) && multiset(out) == multiset(produced)
    ensures forall o, p :: o in out && p in out && o.key == p.key ==> o == p
  {
    forall o, p | o in out && p in out && o.key == p.key ensures o == p {
      assert o in multiset(produced) && p in multiset(produced);
      var i :| 0 <= i < |produced| && produced[i] == o;
      var j :| 0 <= j < |produced| && produced[j] == p;
      assert Keys(produced)[i] == Keys(produced)[j];
    }
  }

  // ------------------------------------------------------------------------------------------
  // The migration
  // ------------------------------------------------------------------------------------------

  /** The sets and the output list that the migration updates. */
  class Ledger {
    var consumed: set<Key>
    var produced: set<Key>
    var output: seq<Variable>
    ghost var log: seq<Key>

    ghost predicate Valid()
      reads this
    {
      && (forall k :: k in consumed <==> k in log) && NoRepeats(log) && |consumed| == |log|
      && (forall k :: k in produced <==> k in Keys(output)) && NoRepeats(Keys(output))
    }

    constructor ()
      ensures Valid() && log == [] && output == []
    {
      consumed, produced, output, log := {}, {}, [], [];
    }

    /** Marks an occurrence as consumed, unless it already is. */
    method Consume(k: Key) returns (ok: bool)
      requires Valid()
      modifies this
      ensures Valid() && output == old(output)
      ensures ok <==> NoRepeats(old(log) + [k])
      ensures log == if ok then old(log) + [k] else old(log)
    {
      if k in consumed {
        Repeats(log, k);
        return false;
      }
      consumed := consumed + {k};
      log := log + [k];
      return true;
    }

    /** Adds an occurrence to the output, unless it already is there. */
    method Produce(v: Variable) returns (ok: bool)
      requires Valid()
      modifies this
      ensures Valid() && log == old(log)
      ensures ok <==> NoRepeats(Keys(old(output) + [v]))
      ensures output == if ok then old(output) + [v] else old(output)
    {
      KeysMore(output, v);
      if v.key in produced {
        Repeats(Keys(output), v.key);
        return false;
      }
      produced := produced + {v.key};
      output := output + [v];
      return true;
    }
  }

  lemma Repeats<T>(s: seq<T>, x: T)
    requires x in s
    ensures !NoRepeats(s + [x])
  {
    var i :| 0 <= i < |s| && s[i] == x;
    assert (s + [x])[i] == (s + [x])[|s|];
  }

  lemma KeysMore(vs: seq<Variable>, v: Variable)
    ensures Keys(vs + [v]) == Keys(vs) + [v.key]
  {
  }

  lemma KeysConcat(a: seq<Variable>, b: seq<Variable>)
    ensures Keys(a + b) == Keys(a) + Keys(b)
  {
  }

  /** Repetitions stay when a list grows. */
  lemma PrefixClean<T>(a: seq<T>, b: seq<T>)
    requires NoRepeats(a + b)
    ensures NoRepeats(a)
  {
    assert forall i :: 0 <= i < |a| ==> (a + b)[i] == a[i];
  }

  /** Consumes the keys in order, stopping at the first repetition. */
  method ConsumeAll(ledger: Ledger, keys: seq<Key>) returns (ok: bool)
    requires ledger.Valid()
    modifies ledger
    ensures ledger.Valid() && ledger.output == old(ledger.output)
    ensures ok <==> NoRepeats(old(ledger.log) + keys)
    ensures ok ==> ledger.log == old(ledger.log) + keys
  {
    for i := 0 to |keys|
      invariant ledger.Valid() && ledger.output == old(ledger.output) && ledger.log == old(ledger.log) + keys[..i]
    {
      assert keys[..i + 1] == keys[..i] + [keys[i]];
      assert old(ledger.log) + keys == (ledger.log + [keys[i]]) + keys[i + 1..];
      var step := ledger.Consume(keys[i]);
      if !step {
        if NoRepeats(old(ledger.log) + keys) {
          PrefixClean(ledger.log + [keys[i]], keys[i + 1..]);
        }
        return false;
      }
    }
    assert keys[..|keys|] == keys;
    return true;
  }

  method ProduceAll(ledger: Ledger, vs: seq<Variable>) returns (ok: bool)
    requires ledger.Valid()
    modifies ledger
    ensures ledger.Valid() && ledger.log == old(ledger.log)
    ensures ok <==> NoRepeats(Keys(old(ledger.output) + vs))
    ensures ok ==> ledger.output == old(ledger.output) + vs
  {
    for i := 0 to |vs|
      invariant ledger.Valid() && ledger.log == old(ledger.log) && ledger.output == old(ledger.output) + vs[..i]
    {
      assert vs[..i + 1] == vs[..i] + [vs[i]];
      assert old(ledger.output) + vs == (ledger.output + [vs[i]]) + vs[i + 1..];
      KeysConcat(ledger.output + [vs[i]], vs[i + 1..]);
      var step := ledger.Produce(vs[i]);
      if !step {
        if NoRepeats(Keys(old(ledger.output) + vs)) {
          PrefixClean(Keys(ledger.output + [vs[i]]), Keys(vs[i + 1..]));
        }
        return false;
      }
    }
    assert vs[..|vs|] == vs;
    return true;
  }

  /** All target values have their declared types. */
  predicate AllAccepted(t: Target, vs: seq<Variable>) {
    forall i :: 0 <= i < |vs| ==> t.accepts(vs[i].key.pointer, vs[i].value)
  }

  /** Byte order of the pointers, then the order of the activations. */
  function KeyOrder(): (Variable, Variable) -> bool {
    (v: Variable, w: Variable) => KeyBefore(v.key, w.key)
  }

  predicate KeyBefore(k: Key, l: Key) {
    Numerals.Before(k.pointer, l.pointer) || (k.pointer == l.pointer && k.activation < l.activation)
  }

  lemma KeyBeforeTransitive(k: Key, l: Key, m: Key)
    requires !KeyBefore(l, k) && !KeyBefore(m, l)
    ensures !KeyBefore(m, k)
  {
    hide Numerals.Before;
    Numerals.Comparable(k.pointer, l.pointer);
    Numerals.Comparable(l.pointer, m.pointer);
    Numerals.NotBeforeTransitive(k.pointer, l.pointer, m.pointer);
    if k.pointer == m.pointer && k.pointer != l.pointer {
      Numerals.Asymmetric(k.pointer, l.pointer);
    }
  }

  lemma KeysOrdered()
    ensures IsOrder(KeyOrder())
  {
    hide Numerals.Before, KeyBefore;
    var before := KeyOrder();
    forall x, y | before(x, y) ensures !before(y, x) {
      KeyBeforeAsymmetric(x.key, y.key);
    }
    forall x, y, z | !before(y, x) && !before(z, y) ensures !before(z, x) {
      KeyBeforeTransitive(x.key, y.key, z.key);
    }
  }

  lemma KeyBeforeAsymmetric(k: Key, l: Key)
    requires KeyBefore(k, l)
    ensures !KeyBefore(l, k)
  {
    hide Numerals.Before;
    if Numerals.Before(k.pointer, l.pointer) {
      Numerals.Asymmetric(k.pointer, l.pointer);
    } else if Numerals.Before(l.pointer, k.pointer) {
      Numerals.Asymmetric(l.pointer, k.pointer);
    }
  }

  /**
   Applies the rules in order. It succeeds exactly when every rule applies, nothing is consumed
   or produced twice, as many occurrences are consumed as there are, and all values fit; the
   result is what was produced, sorted by key: each variable that some rule yields, once.
   */
  method MigrateVariables(t: Target, vs: seq<Variable>, acts: seq<Activation>, rules: seq<Rule>) returns (r: Result<seq<Variable>, Failure>)
    ensures var all := AllEffects(t, vs, acts, rules);
            && (r.Ok? <==> all.Some? && Clean(all.value) && |all.value.consumed| == |vs| && AllAccepted(t, all.value.produced))
            && (r.Ok? ==> SortedBy(KeyOrder(), r.value) && multiset(r.value) == multiset(all.value.produced))
    ensures r.Ok? ==> forall o :: o in r.value <==> Yielded(t, vs, acts, rules, o)
    ensures r.Ok? ==> forall o, p :: o in r.value && p in r.value && o.key == p.key ==> o == p
  {
    hide Yielded, RuleEffect, IsOrder, SortedBy;
    var ledger := new Ledger();
    for i := 0 to |rules|
      invariant fresh(ledger) && ledger.Valid()
      invariant AllEffects(t, vs, acts, rules[..i]) == Some(Effect(ledger.log, ledger.output))
    {
      assert rules[..i + 1][..i] == rules[..i];
      var e := RuleEffect(t, vs, acts, rules[i]);
      if e.None? {
        NoneLater(t, vs, acts, rules, i + 1);
        return Err(Invalid);
      }
      ghost var log, output := ledger.log, ledger.output;
      var consumed := ConsumeAll(ledger, e.value.consumed);
      if consumed {
        var produced := ProduceAll(ledger, e.value.produced);
        if !produced {
          DirtyLater(t, vs, acts, rules, i + 1);
          return Err(Invalid);
        }
      } else {
        DirtyLater(t, vs, acts, rules, i + 1);
        return Err(Invalid);
      }
    }
    assert rules[..|rules|] == rules;
    if |ledger.consumed| != |vs| {
      return Err(NotTotal);
    }
    for i := 0 to |ledger.output|
      invariant forall j :: 0 <= j < i ==> t.accepts(ledger.output[j].key.pointer, ledger.output[j].value)
    {
      if !t.accepts(ledger.output[i].key.pointer, ledger.output[i].value) {
        return Err(NotTotal);
      }
    }
    KeysOrdered();
    var sorted := SortBy(KeyOrder(), ledger.output);
    OutputYields(t, vs, acts, rules, sorted);
    return Ok(sorted);
  }

  lemma {:induction false} NoneLater(t: Target, vs: seq<Variable>, acts: seq<Activation>, rules: seq<Rule>, i: nat)
    requires i <= |rules| && AllEffects(t, vs, acts, rules[..i]).None?
    ensures AllEffects(t, vs, acts, rules).None?
    decreases |rules| - i
  {
    if i == |rules| {
      assert rules[..i] == rules;
    } else {
      assert rules[..i + 1][..i] == rules[..i];
      NoneLater(t, vs, acts, rules, i + 1);
    }
  }

  /** A repetition never goes away. */
  lemma {:induction false} DirtyLater(t: Target, vs: seq<Variable>, acts: seq<Activation>, rules: seq<Rule>, i: nat)
    requires i <= |rules| && (AllEffects(t, vs, acts, rules[..i]).None? || !Clean(AllEffects(t, vs, acts, rules[..i]).value))
    ensures AllEffects(t, vs, acts, rules).None? || !Clean(AllEffects(t, vs, acts, rules).value)
    decreases |rules| - i
  {
    if i == |rules| {
      assert rules[..i] == rules;
    } else {
      assert rules[..i + 1][..i] == rules[..i];
      var before, last := AllEffects(t, vs, acts, rules[..i]), RuleEffect(t, vs, acts, rules[i]);
      if before.Some? && last.Some? && Clean(Join(before.value, last.value)) {
        PrefixClean(before.value.consumed, last.value.consumed);
        KeysConcat(before.value.produced, last.value.produced);
        PrefixClean(Keys(before.value.produced), Keys(last.value.produced));
      }
      DirtyLater(t, vs, acts, rules, i + 1);
    }
  }
}
