/**
 The fuel-metered evaluator: what it computes and what it charges if fuel never runs out, and the
 evaluator itself, which updates a meter.
 */
module CelMeter {
  import opened Wrappers
  import opened CelSyntax
  import opened CelEval

  // ------------------------------------------------------------------------------------------
  // Units
  // ------------------------------------------------------------------------------------------

  function Units(v: Value): nat {
    match v
    case Str(s) => 1 + |s|
    case List(elements) => |elements| + UnitsAll(elements)
    case Map(items) => UnitsItems(items)
    case _ => 1
  }

  function UnitsAll(vs: seq<Value>): nat {
    if vs == [] then 0 else Units(vs[0]) + UnitsAll(vs[1..])
  }

  function UnitsItems(items: seq<Item>): nat {
    if items == [] then 0 else 1 + |items[0].key| + Units(items[0].value) + UnitsItems(items[1..])
  }

  function KeyUnits(items: seq<Item>): nat {
    if items == [] then 0 else 1 + |items[0].key| + KeyUnits(items[1..])
  }

  function LookupUnits(items: seq<Item>, key: string): nat {
    1 + |key| + KeyUnits(items)
  }

  // ------------------------------------------------------------------------------------------
  // Charges of one operation on evaluated arguments
  // ------------------------------------------------------------------------------------------

  predicate TypedRecord(e: Expr) {
    || e == Ident("event") || e == Ident("owner")
    || (e.Select? && e.operand == Ident("event") && e.field == "payload")
    || (e.Select? && e.operand == Ident("owner") && e.field == "variables")
  }

  function SelectCharge(operand: Expr, v: Value, field: string): nat {
    if !v.Map? then 0 else if TypedRecord(operand) then 1 + |field| else LookupUnits(v.items, field)
  }

  function UnaryCharge(fl: Floats, f: Func, v: Value): nat {
    match f
    case Size => if v.Str? then |v.s| else if v.List? then 1 else if v.Map? then Units(v) else 0
    case ToString =>
      (match EvalUnary(fl, f, v) case Ok(text) => if text.Str? then |text.s| else 0 case Err(_) => 0)
    case _ => 1
  }

  function BinaryCharge(f: Func, l: Value, r: Value): nat {
    if Arithmetic(f) then
      if f.Add? && l.Str? && r.Str? then |l.s| + |r.s| + |l.s + r.s|
      else if f.Add? && l.List? && r.List? then |l.elements| + |r.elements| + |l.elements| + |r.elements|
      else 1
    else if Equality(f) then
      if l.List? || l.Map? then Units(l) + Units(r) else if l.Str? && r.Str? then |l.s| + |r.s| else 1
    else if Ordering(f) then
      if l.Str? && r.Str? then |l.s| + |r.s| else 1
    else if f.In? then
      if r.List? then Units(r) + Units(l) else if r.Map? && l.Str? then LookupUnits(r.items, l.s) else 0
    else if f.Index? then
      if l.List? && r.Int? then 1 else if l.Map? && r.Str? then LookupUnits(l.items, r.s) else 0
    else 0
  }

  function LiteralCharge(l: Literal): nat {
    if l.StringLiteral? then |l.s| else 0
  }

  /** The literal as it stands: the sign of zero is kept. */
  function LiteralValue(l: Literal): Option<Value> {
    match l
    case DoubleLiteral(magnitude, negativeZero) =>
      if magnitude.Some? then Some(Float(magnitude.value, negativeZero)) else None
    case _ => ToOption(EvalLiteral(l))
  }

  function ToOption(r: Evaluation): Option<Value> {
    match r
    case Ok(v) => Some(v)
    case Err(_) => None
  }

  function ToEvaluation(v: Option<Value>): Evaluation {
    match v
    case Some(v) => Ok(v)
    case None => Err(Shape)
  }

  // ------------------------------------------------------------------------------------------
  // Evaluation with unlimited fuel
  // ------------------------------------------------------------------------------------------

  /** The value, or none after a guard failure, and the fuel spent. */
  datatype Spent<T> = Spent(value: Option<T>, cost: nat)

  function Work(fl: Floats, e: Expr, env: Environment): (w: Spent<Value>)
    ensures w.cost >= 1
    decreases e
  {
    match e
    case Lit(literal) => Spent(LiteralValue(literal), 1 + LiteralCharge(literal))
    case Ident(name) => Spent(if name in env then Some(env[name]) else None, 1)
    case ListExpr(elements) =>
      var w := WorkAll(fl, elements, env);
      if w.value.None? then Spent(None, 1 + w.cost)
      else Spent(Some(List(w.value.value)), 1 + w.cost + Units(List(w.value.value)))
    case MapExpr(entries) =>
      var w := WorkEntries(fl, entries, env, []);
      if w.value.None? then Spent(None, 1 + w.cost)
      else Spent(Some(Map(w.value.value)), 1 + w.cost + Units(Map(w.value.value)))
    case Select(operand, field, test) =>
      var w := Work(fl, operand, env);
      if w.value.None? then Spent(None, 1 + w.cost)
      else Spent(ToOption(EvalSelect(w.value.value, field, test)), 1 + w.cost + SelectCharge(operand, w.value.value, field))
    case Call(receiver, f, args) =>
      if receiver then Spent(None, 1)
      else if f.Conditional? && |args| == 3 then
        var w := Work(fl, args[0], env);
        if w.value == Some(Bool(true)) then
          var x := Work(fl, args[1], env);
          Spent(x.value, 1 + w.cost + x.cost)
        else if w.value == Some(Bool(false)) then
          var x := Work(fl, args[2], env);
          Spent(x.value, 1 + w.cost + x.cost)
        else Spent(None, 1 + w.cost)
      else if (f.And? || f.Or?) && |args| == 2 then
        var l, r := Work(fl, args[0], env), Work(fl, args[1], env);
        Spent(ToOption(EvalLogical(f, ToEvaluation(l.value), ToEvaluation(r.value))), 1 + l.cost + r.cost + 1)
      else if Strict1(f) && |args| == 1 then
        var w := Work(fl, args[0], env);
        if w.value.None? then Spent(None, 1 + w.cost)
        else Spent(ToOption(EvalUnary(fl, f, w.value.value)), 1 + w.cost + UnaryCharge(fl, f, w.value.value))
      else if Strict2(f) && |args| == 2 then
        var l := Work(fl, args[0], env);
        if l.value.None? then Spent(None, 1 + l.cost)
        else
          var r := Work(fl, args[1], env);
          if r.value.None? then Spent(None, 1 + l.cost + r.cost)
          else Spent(ToOption(EvalBinary(fl, f, l.value.value, r.value.value)), 1 + l.cost + r.cost + BinaryCharge(f, l.value.value, r.value.value))
      else Spent(None, 1)
    case Unsupported => Spent(None, 1)
  }

  function WorkAll(fl: Floats, es: seq<Expr>, env: Environment): (w: Spent<seq<Value>>)
    ensures w.value.Some? ==> |w.value.value| == |es|
    decreases es
  {
    if es == [] then Spent(Some([]), 0)
    else
      var w := Work(fl, es[0], env);
      if w.value.None? then Spent(None, w.cost)
      else
        var rest := WorkAll(fl, es[1..], env);
        if rest.value.None? then Spent(None, w.cost + rest.cost)
        else Spent(Some([w.value.value] + rest.value.value), w.cost + rest.cost)
  }

  function WorkEntry(fl: Floats, e: Entry, env: Environment): Spent<Value>
    decreases e
  {
    Work(fl, e.value, env)
  }

  function WorkEntries(fl: Floats, es: seq<Entry>, env: Environment, items: seq<Item>): Spent<seq<Item>>
    decreases es
  {
    if es == [] then Spent(Some(items), 0)
    else if !LiteralKey(es[0]) then Spent(None, 0)
    else
      var key := es[0].key.literal.s;
      var w := WorkEntry(fl, es[0], env);
      if w.value.None? then Spent(None, 1 + |key| + w.cost)
      else
        var rest := WorkEntries(fl, es[1..], env, Put(items, key, w.value.value));
        Spent(rest.value, 1 + |key| + w.cost + rest.cost)
  }

  // ------------------------------------------------------------------------------------------
  // The evaluator
  // ------------------------------------------------------------------------------------------

  datatype Metered<T> = Done(value: T) | Guard | Limit

  function Answer<T>(value: Option<T>): Metered<T> {
    match value
    case Some(v) => Done(v)
    case None => Guard
  }

  class Meter {
    var remaining: nat
    var spent: nat

    constructor (budget: nat)
      ensures remaining == budget && spent == 0
    {
      remaining := budget;
      spent := 0;
    }

    method Charge(units: nat) returns (ok: bool)
      modifies this
      ensures ok <==> units <= old(remaining)
      ensures ok ==> remaining == old(remaining) - units && spent == old(spent) + units
      ensures !ok ==> remaining == old(remaining) && spent == old(spent)
    {
      if units > remaining {
        return false;
      }
      remaining := remaining - units;
      spent := spent + units;
      return true;
    }
  }

  /** With enough fuel the work is done and exactly its cost is spent; otherwise the limit is reported. */
  ghost predicate Metes<T>(budget: nat, before: nat, remaining: nat, spent: nat, w: Spent<T>, r: Metered<T>) {
    if budget >= w.cost then r == Answer(w.value) && remaining == budget - w.cost && spent == before + w.cost
    else r.Limit?
  }

  method EvaluateEntry(fl: Floats, e: Entry, env: Environment, meter: Meter) returns (r: Metered<Value>)
    modifies meter
    ensures Metes(old(meter.remaining), old(meter.spent), meter.remaining, meter.spent, WorkEntry(fl, e, env), r)
    decreases e
  {
    r := Evaluate(fl, e.value, env, meter);
  }

  /** Charges for an operation on evaluated arguments and answers its result. */
  method Settle(meter: Meter, units: nat, result: Evaluation) returns (r: Metered<Value>)
    modifies meter
    ensures Metes(old(meter.remaining), old(meter.spent), meter.remaining, meter.spent, Spent(ToOption(result), units), r)
  {
    var ok := meter.Charge(units);
    if !ok {
      return Limit;
    }
    match result
    case Ok(v) => return Done(v);
    case Err(_) => return Guard;
  }

  /** What a call costs beyond the unit of its node. */
  function CallWork(fl: Floats, f: Func, args: seq<Expr>, env: Environment): (w: Spent<Value>)
    ensures var whole := Work(fl, Call(false, f, args), env); w == whole.(cost := whole.cost - 1)
  {
    var whole := Work(fl, Call(false, f, args), env);
    whole.(cost := whole.cost - 1)
  }

  method EvaluateConditional(fl: Floats, args: seq<Expr>, env: Environment, meter: Meter) returns (r: Metered<Value>)
    requires |args| == 3
    modifies meter
    ensures Metes(old(meter.remaining), old(meter.spent), meter.remaining, meter.spent, CallWork(fl, Conditional, args, env), r)
    decreases args, 0
  {
    var c := Evaluate(fl, args[0], env, meter);
    if c == Done(Bool(true)) {
      r := Evaluate(fl, args[1], env, meter);
    } else if c == Done(Bool(false)) {
      r := Evaluate(fl, args[2], env, meter);
    } else {
      r := if c.Limit? then Limit else Guard;
    }
  }

  /** Both sides are evaluated; only running out of fuel cuts this short. */
  method EvaluateLogical(fl: Floats, f: Func, args: seq<Expr>, env: Environment, meter: Meter) returns (r: Metered<Value>)
    requires (f.And? || f.Or?) && |args| == 2
    modifies meter
    ensures Metes(old(meter.remaining), old(meter.spent), meter.remaining, meter.spent, CallWork(fl, f, args, env), r)
    decreases args, 0
  {
    var left := Evaluate(fl, args[0], env, meter);
    if left.Limit? {
      return Limit;
    }
    var right := Evaluate(fl, args[1], env, meter);
    if right.Limit? {
      return Limit;
    }
    var l := if left.Done? then Ok(left.value) else Err(Shape);
    var v := if right.Done? then Ok(right.value) else Err(Shape);
    r := Settle(meter, 1, EvalLogical(f, l, v));
  }

  method EvaluateUnary(fl: Floats, f: Func, args: seq<Expr>, env: Environment, meter: Meter) returns (r: Metered<Value>)
    requires Strict1(f) && |args| == 1
    modifies meter
    ensures Metes(old(meter.remaining), old(meter.spent), meter.remaining, meter.spent, CallWork(fl, f, args, env), r)
    decreases args, 0
  {
    var x := Evaluate(fl, args[0], env, meter);
    match x
    case Guard => return Guard;
    case Limit => return Limit;
    case Done(v) => r := Settle(meter, UnaryCharge(fl, f, v), EvalUnary(fl, f, v));
  }

  method EvaluateBinary(fl: Floats, f: Func, args: seq<Expr>, env: Environment, meter: Meter) returns (r: Metered<Value>)
    requires Strict2(f) && |args| == 2
    modifies meter
    ensures Metes(old(meter.remaining), old(meter.spent), meter.remaining, meter.spent, CallWork(fl, f, args, env), r)
    decreases args, 0
  {
    hide Work, CallWork, EvalBinary, BinaryCharge;
    BinaryWork(fl, f, args, env);
    var left := Evaluate(fl, args[0], env, meter);
    match left
    case Guard => return Guard;
    case Limit => return Limit;
    case Done(l) =>
      var right := Evaluate(fl, args[1], env, meter);
      match right
      case Guard => return Guard;
      case Limit => return Limit;
      case Done(v) => r := Settle(meter, BinaryCharge(f, l, v), EvalBinary(fl, f, l, v));
  }

  method EvaluateCall(fl: Floats, f: Func, args: seq<Expr>, env: Environment, meter: Meter) returns (r: Metered<Value>)
    modifies meter
    ensures Metes(old(meter.remaining), old(meter.spent), meter.remaining, meter.spent, CallWork(fl, f, args, env), r)
    decreases args, 1
  {
    if f.Conditional? && |args| == 3 {
      r := EvaluateConditional(fl, args, env, meter);
    } else if (f.And? || f.Or?) && |args| == 2 {
      r := EvaluateLogical(fl, f, args, env, meter);
    } else if Strict1(f) && |args| == 1 {
      r := EvaluateUnary(fl, f, args, env, meter);
    } else if Strict2(f) && |args| == 2 {
      r := EvaluateBinary(fl, f, args, env, meter);
    } else {
      r := Guard;
    }
  }

  lemma ListWork(fl: Floats, elements: seq<Expr>, env: Environment)
    ensures var w := WorkAll(fl, elements, env);
            Work(fl, ListExpr(elements), env) ==
              if w.value.None? then Spent(None, 1 + w.cost) else Spent(Some(List(w.value.value)), 1 + w.cost + Units(List(w.value.value)))
  {
  }

  lemma MapWork(fl: Floats, entries: seq<Entry>, env: Environment)
    ensures var w := WorkEntries(fl, entries, env, []);
            Work(fl, MapExpr(entries), env) ==
              if w.value.None? then Spent(None, 1 + w.cost) else Spent(Some(Map(w.value.value)), 1 + w.cost + Units(Map(w.value.value)))
  {
  }

  lemma BinaryWork(fl: Floats, f: Func, args: seq<Expr>, env: Environment)
    requires Strict2(f) && |args| == 2
    ensures var l, r := Work(fl, args[0], env), Work(fl, args[1], env);
            CallWork(fl, f, args, env) ==
              if l.value.None? then Spent(None, l.cost)
              else if r.value.None? then Spent(None, l.cost + r.cost)
              else Spent(ToOption(EvalBinary(fl, f, l.value.value, r.value.value)), l.cost + r.cost + BinaryCharge(f, l.value.value, r.value.value))
  {
    hide EvalBinary, BinaryCharge;
  }

  /** Evaluates the elements in order, then charges for the list. */
  method EvaluateList(fl: Floats, elements: seq<Expr>, env: Environment, meter: Meter) returns (r: Metered<Value>)
    modifies meter
    ensures var whole := Work(fl, ListExpr(elements), env);
            Metes(old(meter.remaining), old(meter.spent), meter.remaining, meter.spent, whole.(cost := whole.cost - 1), r)
    decreases elements, 1
  {
    hide Work, Units;
    ListWork(fl, elements, env);
    var values: seq<Value> := [];
    ghost var used: nat := 0;
    assert elements[0..] == elements;
    ContinueAll(WorkAll(fl, elements, env));
    for i := 0 to |elements|
      invariant |values| == i
      invariant old(meter.remaining) >= used && meter.remaining == old(meter.remaining) - used && meter.spent == old(meter.spent) + used
      invariant WorkAll(fl, elements, env) == Continue(values, used, WorkAll(fl, elements[i..], env))
    {
      assert elements[i..][1..] == elements[i + 1..];
      var item := Evaluate(fl, elements[i], env, meter);
      match item {
        case Guard => return Guard;
        case Limit => return Limit;
        case Done(v) =>
          ContinueNext(values, v, used, Work(fl, elements[i], env).cost, WorkAll(fl, elements[i + 1..], env));
          used := used + Work(fl, elements[i], env).cost;
          values := values + [v];
      }
    }
    assert elements[|elements|..] == [] && values + [] == values;
    r := Settle(meter, Units(List(values)), Ok(List(values)));
  }

  /** The rest of the work, after `values` were computed at the cost of `used`. */
  ghost function Continue<T>(values: seq<T>, used: nat, rest: Spent<seq<T>>): Spent<seq<T>> {
    Spent(if rest.value.Some? then Some(values + rest.value.value) else None, used + rest.cost)
  }

  lemma ContinueAll<T>(all: Spent<seq<T>>)
    ensures Continue([], 0, all) == all
  {
    assert all.value.Some? ==> [] + all.value.value == all.value.value;
  }

  lemma ContinueNext<T>(values: seq<T>, v: T, used: nat, cost: nat, rest: Spent<seq<T>>)
    ensures Continue(values, used, Spent(if rest.value.Some? then Some([v] + rest.value.value) else None, cost + rest.cost))
            == Continue(values + [v], used + cost, rest)
  {
    assert rest.value.Some? ==> values + ([v] + rest.value.value) == (values + [v]) + rest.value.value;
  }

  /** Evaluates the entries in order, charging key by key, then charges for the map. */
  method EvaluateMap(fl: Floats, entries: seq<Entry>, env: Environment, meter: Meter) returns (r: Metered<Value>)
    modifies meter
    ensures var whole := Work(fl, MapExpr(entries), env);
            Metes(old(meter.remaining), old(meter.spent), meter.remaining, meter.spent, whole.(cost := whole.cost - 1), r)
    decreases entries, 1
  {
    hide Work, Units, WorkEntry;
    MapWork(fl, entries, env);
    var items: seq<Item> := [];
    ghost var used: nat := 0;
    assert entries[0..] == entries;
    for i := 0 to |entries|
      invariant old(meter.remaining) >= used && meter.remaining == old(meter.remaining) - used && meter.spent == old(meter.spent) + used
      invariant var rest := WorkEntries(fl, entries[i..], env, items);
                WorkEntries(fl, entries, env, []) == Spent(rest.value, used + rest.cost)
    {
      assert entries[i..][1..] == entries[i + 1..];
      if !LiteralKey(entries[i]) {
        return Guard;
      }
      var key := entries[i].key.literal.s;
      var ok := meter.Charge(1 + |key|);
      if !ok {
        return Limit;
      }
      var item := EvaluateEntry(fl, entries[i], env, meter);
      match item {
        case Guard => return Guard;
        case Limit => return Limit;
        case Done(v) =>
          used := used + 1 + |key| + WorkEntry(fl, entries[i], env).cost;
          items := Put(items, key, v);
      }
    }
    r := Settle(meter, Units(Map(items)), Ok(Map(items)));
  }

  /** Evaluates under a meter: exactly the cost of the work is spent, or the limit is reported. */
  method Evaluate(fl: Floats, e: Expr, env: Environment, meter: Meter) returns (r: Metered<Value>)
    modifies meter
    ensures Metes(old(meter.remaining), old(meter.spent), meter.remaining, meter.spent, Work(fl, e, env), r)
    decreases e
  {
    var ok := meter.Charge(1);
    if !ok {
      return Limit;
    }
    match e
    case Lit(literal) =>
      var paid := meter.Charge(LiteralCharge(literal));
      r := if paid then Answer(LiteralValue(literal)) else Limit;
    case Ident(name) => r := if name in env then Done(env[name]) else Guard;
    case ListExpr(elements) => r := EvaluateList(fl, elements, env, meter);
    case MapExpr(entries) => r := EvaluateMap(fl, entries, env, meter);
    case Select(operand, field, test) =>
      var base := Evaluate(fl, operand, env, meter);
      match base {
        case Guard => return Guard;
        case Limit => return Limit;
        case Done(v) => r := Settle(meter, SelectCharge(operand, v, field), EvalSelect(v, field, test));
      }
    case Call(receiver, f, args) =>
      if receiver {
        return Guard;
      }
      r := EvaluateCall(fl, f, args, env, meter);
    case Unsupported => r := Guard;
  }
}
