/** The metered evaluator agrees with the plain one up to the sign of zero, at an exact cost. */
module CelAgreement {
  import opened Wrappers
  import opened CelSyntax
  import opened CelEval
  import opened CelMeter

  /** One evaluator yields a value exactly when the other does, and then the same one. */
  ghost predicate Agrees(r: Evaluation, o: Option<Value>) {
    (r.Ok? <==> o.Some?) && (r.Ok? ==> Same(r.value, o.value))
  }

  ghost predicate SameAll(vs: seq<Value>, ws: seq<Value>) {
    |vs| == |ws| && forall i :: 0 <= i < |vs| ==> Same(vs[i], ws[i])
  }

  ghost predicate SameItems(vs: seq<Item>, ws: seq<Item>) {
    |vs| == |ws| && forall i :: 0 <= i < |vs| ==> vs[i].key == ws[i].key && Same(vs[i].value, ws[i].value)
  }

  // ------------------------------------------------------------------------------------------
  // Containers
  // ------------------------------------------------------------------------------------------

  lemma SameListIff(vs: seq<Value>, ws: seq<Value>)
    ensures Same(List(vs), List(ws)) <==> SameAll(vs, ws)
  {
    if SameAll(vs, ws) {
      assert CanonicalAll(vs) == CanonicalAll(ws);
    }
    if Same(List(vs), List(ws)) {
      assert CanonicalAll(vs) == CanonicalAll(ws);
      forall i | 0 <= i < |vs| ensures Same(vs[i], ws[i]) {
        assert CanonicalAll(vs)[i] == CanonicalAll(ws)[i];
      }
    }
  }

  lemma SameMapIff(vs: seq<Item>, ws: seq<Item>)
    ensures Same(Map(vs), Map(ws)) <==> SameItems(vs, ws)
  {
    if SameItems(vs, ws) {
      assert CanonicalItems(vs) == CanonicalItems(ws);
    }
    if Same(Map(vs), Map(ws)) {
      assert CanonicalItems(vs) == CanonicalItems(ws);
      forall i | 0 <= i < |vs| ensures vs[i].key == ws[i].key && Same(vs[i].value, ws[i].value) {
        assert CanonicalItems(vs)[i] == CanonicalItems(ws)[i];
      }
    }
  }

  lemma {:induction false} SamePosition(vs: seq<Item>, ws: seq<Item>, key: string)
    requires SameItems(vs, ws)
    ensures Position(vs, key) == Position(ws, key)
  {
    if vs != [] {
      assert SameItems(vs[1..], ws[1..]) by {
        assert forall i :: 0 <= i < |vs[1..]| ==> vs[1..][i] == vs[i + 1] && ws[1..][i] == ws[i + 1];
      }
      SamePosition(vs[1..], ws[1..], key);
    }
  }

  lemma {:induction false} SamePut(vs: seq<Item>, ws: seq<Item>, key: string, v: Value, w: Value)
    requires SameItems(vs, ws) && Same(v, w)
    ensures SameItems(Put(vs, key, v), Put(ws, key, w))
  {
    if vs != [] {
      assert SameItems(vs[1..], ws[1..]) by {
        assert forall i :: 0 <= i < |vs[1..]| ==> vs[1..][i] == vs[i + 1] && ws[1..][i] == ws[i + 1];
      }
      SamePut(vs[1..], ws[1..], key, v, w);
    }
  }

  // ------------------------------------------------------------------------------------------
  // Operations respect equality
  // ------------------------------------------------------------------------------------------

  lemma UnarySame(fl: Floats, f: Func, v: Value, w: Value)
    requires Same(v, w)
    ensures Agrees(EvalUnary(fl, f, v), ToOption(EvalUnary(fl, f, w)))
  {
    if v.List? {
      SameListIff(v.elements, w.elements);
    } else if v.Map? {
      SameMapIff(v.items, w.items);
    }
  }

  lemma ArithmeticSame(fl: Floats, f: Func, l: Value, l': Value, r: Value, r': Value)
    requires Arithmetic(f) && Same(l, l') && Same(r, r')
    ensures Agrees(EvalArithmetic(fl, f, l, r), ToOption(EvalArithmetic(fl, f, l', r')))
  {
    if l.List? && r.List? {
      SameListIff(l.elements, l'.elements);
      SameListIff(r.elements, r'.elements);
      SameListIff(l.elements + r.elements, l'.elements + r'.elements);
    }
  }

  lemma InSame(l: Value, l': Value, r: Value, r': Value)
    requires Same(l, l') && Same(r, r')
    ensures Agrees(EvalIn(l, r), ToOption(EvalIn(l', r')))
  {
    if r.List? {
      SameListIff(r.elements, r'.elements);
      assert (exists i :: 0 <= i < |r.elements| && Same(r.elements[i], l))
        <==> (exists i :: 0 <= i < |r'.elements| && Same(r'.elements[i], l'));
    } else if r.Map? && l.Str? {
      SameMapIff(r.items, r'.items);
      SamePosition(r.items, r'.items, l.s);
    }
  }

  lemma IndexSame(l: Value, l': Value, r: Value, r': Value)
    requires Same(l, l') && Same(r, r')
    ensures Agrees(EvalIndex(l, r), ToOption(EvalIndex(l', r')))
  {
    if l.List? {
      SameListIff(l.elements, l'.elements);
    } else if l.Map? && r.Str? {
      SameMapIff(l.items, l'.items);
      SamePosition(l.items, l'.items, r.s);
    }
  }

  lemma BinarySame(fl: Floats, f: Func, l: Value, l': Value, r: Value, r': Value)
    requires Same(l, l') && Same(r, r')
    ensures Agrees(EvalBinary(fl, f, l, r), ToOption(EvalBinary(fl, f, l', r')))
  {
    if Arithmetic(f) {
      ArithmeticSame(fl, f, l, l', r, r');
    } else if f.In? {
      InSame(l, l', r, r');
    } else if f.Index? {
      IndexSame(l, l', r, r');
    }
  }

  lemma SelectSame(v: Value, w: Value, field: string, test: bool)
    requires Same(v, w)
    ensures Agrees(EvalSelect(v, field, test), ToOption(EvalSelect(w, field, test)))
  {
    if v.Map? {
      SameMapIff(v.items, w.items);
      SamePosition(v.items, w.items, field);
    }
  }

  lemma LogicalSame(f: Func, l: Evaluation, r: Evaluation, l': Option<Value>, r': Option<Value>)
    requires (f.And? || f.Or?) && Agrees(l, l') && Agrees(r, r')
    ensures Agrees(EvalLogical(f, l, r), ToOption(EvalLogical(f, ToEvaluation(l'), ToEvaluation(r'))))
  {
  }

  // ------------------------------------------------------------------------------------------
  // Expressions
  // ------------------------------------------------------------------------------------------

  lemma {:induction false} AllAgree(fl: Floats, es: seq<Expr>, env: Environment)
    ensures var r, w := EvalAll(fl, es, env), WorkAll(fl, es, env);
            (r.Ok? <==> w.value.Some?) && (r.Ok? ==> SameAll(r.value, w.value.value))
    decreases es, 1
  {
    if es != [] {
      WorkAgrees(fl, es[0], env);
      AllAgree(fl, es[1..], env);
    }
  }

  lemma {:induction false} EntriesAgree(fl: Floats, es: seq<Entry>, env: Environment, items: seq<Item>, items': seq<Item>)
    requires SameItems(items, items')
    ensures var r, w := EvalEntries(fl, es, env, items), WorkEntries(fl, es, env, items');
            (r.Ok? <==> w.value.Some?) && (r.Ok? ==> SameItems(r.value, w.value.value))
    decreases es, 1
  {
    if es != [] && LiteralKey(es[0]) {
      EntryAgrees(fl, es[0], env);
      var r, w := EvalEntry(fl, es[0], env), WorkEntry(fl, es[0], env);
      if r.Ok? {
        var key := es[0].key.literal.s;
        SamePut(items, items', key, r.value, w.value.value);
        EntriesAgree(fl, es[1..], env, Put(items, key, r.value), Put(items', key, w.value.value));
      }
    }
  }

  lemma {:induction false} EntryAgrees(fl: Floats, e: Entry, env: Environment)
    ensures Agrees(EvalEntry(fl, e, env), WorkEntry(fl, e, env).value)
    decreases e
  {
    WorkAgrees(fl, e.value, env);
  }

  lemma {:induction false} CallAgrees(fl: Floats, f: Func, args: seq<Expr>, env: Environment)
    ensures Agrees(Eval(fl, Call(false, f, args), env), Work(fl, Call(false, f, args), env).value)
    decreases args, 1
  {
    hide EvalUnary, EvalBinary, EvalLogical, UnaryCharge, BinaryCharge;
    if f.Conditional? && |args| == 3 {
      WorkAgrees(fl, args[0], env);
      WorkAgrees(fl, args[1], env);
      WorkAgrees(fl, args[2], env);
    } else if |args| == 1 {
      WorkAgrees(fl, args[0], env);
      var r, w := Eval(fl, args[0], env), Work(fl, args[0], env).value;
      if r.Ok? {
        UnarySame(fl, f, r.value, w.value);
      }
    } else if |args| == 2 {
      WorkAgrees(fl, args[0], env);
      WorkAgrees(fl, args[1], env);
      var l, l' := Eval(fl, args[0], env), Work(fl, args[0], env).value;
      var r, r' := Eval(fl, args[1], env), Work(fl, args[1], env).value;
      if f.And? || f.Or? {
        LogicalSame(f, l, r, l', r');
      } else if l.Ok? && r.Ok? {
        BinarySame(fl, f, l.value, l'.value, r.value, r'.value);
      }
    }
  }

  /** With enough fuel the metered evaluator succeeds exactly when the plain one does, with the same value. */
  lemma {:induction false} WorkAgrees(fl: Floats, e: Expr, env: Environment)
    ensures Agrees(Eval(fl, e, env), Work(fl, e, env).value)
    decreases e
  {
    match e
    case Lit(_) =>
    case Ident(_) =>
    case ListExpr(elements) =>
      AllAgree(fl, elements, env);
      if EvalAll(fl, elements, env).Ok? {
        SameListIff(EvalAll(fl, elements, env).value, WorkAll(fl, elements, env).value.value);
      }
    case MapExpr(entries) =>
      EntriesAgree(fl, entries, env, [], []);
      if EvalEntries(fl, entries, env, []).Ok? {
        SameMapIff(EvalEntries(fl, entries, env, []).value, WorkEntries(fl, entries, env, []).value.value);
      }
    case Select(operand, field, test) =>
      WorkAgrees(fl, operand, env);
      if Eval(fl, operand, env).Ok? {
        SelectSame(Eval(fl, operand, env).value, Work(fl, operand, env).value.value, field, test);
      }
    case Call(receiver, f, args) =>
      if !receiver {
        CallAgrees(fl, f, args, env);
      }
    case Unsupported =>
  }

  // ------------------------------------------------------------------------------------------
  // Whole evaluations
  // ------------------------------------------------------------------------------------------

  /** `n` negations of a Boolean literal. */
  function Negations(n: nat, b: bool): Expr {
    if n == 0 then Lit(BoolLiteral(b)) else Call(false, Not, [Negations(n - 1, b)])
  }

  lemma LiteralWork(fl: Floats, b: bool, env: Environment)
    ensures Work(fl, Lit(BoolLiteral(b)), env) == Spent(Some(Bool(b)), 1)
  {
  }

  lemma NotWork(fl: Floats, e: Expr, env: Environment)
    ensures var w := Work(fl, e, env);
            w.value.Some? && w.value.value.Bool? ==>
              Work(fl, Call(false, Not, [e]), env) == Spent(Some(Bool(!w.value.value.b)), 2 + w.cost)
  {
    assert [e][0] == e;
  }

  /** The shortcut for long runs of negations: the parity decides, at the cost 1 + 2n. */
  lemma {:induction false} NegationShortcut(fl: Floats, n: nat, b: bool, env: Environment)
    ensures Work(fl, Negations(n, b), env) == Spent(Some(Bool(b == (n % 2 == 0))), 1 + 2 * n)
  {
    hide Work;
    LiteralWork(fl, b, env);
    if n > 0 {
      NegationShortcut(fl, n - 1, b, env);
      NotWork(fl, Negations(n - 1, b), env);
    }
  }

  /** A leading run of negations of a Boolean literal. */
  datatype Run = Run(count: nat, literal: bool)

  /**
   What the parser makes of a guard: its length, its number of nodes before folding, the expression
   if it parses, and the run of negations if the whole guard is one.
   */
  datatype GuardText = GuardText(length: nat, nodes: nat, expression: Option<Expr>, run: Option<Run>)

  /** The run is a description of the expression. */
  ghost predicate Described(g: GuardText) {
    g.run.Some? ==> g.expression == Some(Negations(g.run.value.count, g.run.value.literal))
  }

  /**
   Evaluates a guard within its limits. Long runs of negations are decided by parity; nobody can
   tell, as this has the value and the cost of the evaluation.
   */
  method SafeEvaluate(fl: Floats, g: GuardText, env: Environment, budget: nat, snapshot: nat) returns (r: Metered<bool>, spent: nat)
    requires Described(g)
    ensures if g.length > 4096 || snapshot > 65536 then r.Limit?
            else if g.expression.None? then r.Guard?
            else if g.nodes > 1024 then r.Limit?
            else
              var cost, plain := Work(fl, g.expression.value, env).cost, Eval(fl, g.expression.value, env);
              && (r.Limit? <==> budget < cost)
              && (r.Done? <==> budget >= cost && plain.Ok? && plain.value.Bool?)
              && (r.Done? ==> r.value == plain.value.b && spent == cost)
  {
    hide Work, Eval, Negations;
    spent := 0;
    if g.length > 4096 || snapshot > 65536 {
      return Limit, 0;
    }
    if g.expression.None? {
      return Guard, 0;
    }
    if g.nodes > 1024 {
      return Limit, 0;
    }
    var e := g.expression.value;
    WorkAgrees(fl, e, env);
    if g.run.Some? && g.run.value.count > 128 {
      var n, b := g.run.value.count, g.run.value.literal;
      NegationShortcut(fl, n, b, env);
      if 1 + 2 * n > budget {
        return Limit, 0;
      }
      return Done(b == (n % 2 == 0)), 1 + 2 * n;
    }
    var meter := new Meter(budget);
    var answer := Evaluate(fl, e, env, meter);
    spent := meter.spent;
    match answer
    case Guard => r := Guard;
    case Limit => r := Limit;
    case Done(v) => r := if v.Bool? then Done(v.b) else Guard;
  }
}
