/** Type safety: a well-typed expression yields a value of its type or a data fault. */
module CelSoundness {
  import opened Wrappers
  import Numerals
  import opened CelSyntax
  import opened CelEval

  // ------------------------------------------------------------------------------------------
  // Values of a type
  // ------------------------------------------------------------------------------------------

  /** A reference type also has the null value, which a conditional may yield. */
  ghost predicate HasType(v: Value, t: Type)
    decreases t
  {
    match t
    case NullType => v.Null?
    case BoolType => v.Bool?
    case IntType => v.Int?
    case DoubleType => v.Float?
    case StringType => v.Str?
    case ListType(element) => v.List? && forall i :: 0 <= i < |v.elements| ==> HasType(v.elements[i], element)
    case MapType(value) => v.Map? && forall i :: 0 <= i < |v.items| ==> HasType(v.items[i].value, value)
    case RecordType(fields) => v.Map? && Fits(v.items, fields)
    case RefType(machine) => v.Null? || (v.Ref? && NominallyCompatible(machine, Some(v.reference.machine)))
    case Dyn => true
  }

  /** Every item belongs to a field and has its type. */
  ghost predicate Fits(items: seq<Item>, fields: seq<Field>)
    decreases fields
  {
    forall i :: 0 <= i < |items| ==> exists j :: 0 <= j < |fields| && FitsField(items[i], fields[j]) && FieldAt(fields, items[i].key) == Some(fields[j])
  }

  ghost predicate FitsField(item: Item, field: Field)
    decreases field
  {
    item.key == field.name && HasType(item.value, field.fieldType)
  }

  /** The environment binds every declared name to a value of its type. */
  ghost predicate Conforms(env: Environment, types: TypeEnvironment) {
    forall name :: name in types ==> name in env && HasType(env[name], types[name])
  }

  /** A value of type `t`, or a fault that only data can cause. */
  ghost predicate Safe(r: Evaluation, t: Type) {
    match r
    case Ok(v) => HasType(v, t)
    case Err(fault) => DataFault(fault)
  }

  // ------------------------------------------------------------------------------------------
  // Containers
  // ------------------------------------------------------------------------------------------

  lemma CommonTypeOf(v: Value, t: Type, ts: seq<Type>, i: nat)
    requires i < |ts| && ts[i] == t && HasType(v, t)
    ensures HasType(v, CommonType(ts))
  {
  }

  lemma ConcatTyped(l: Value, r: Value, s: Type, t: Type)
    requires HasType(l, ListType(s)) && HasType(r, ListType(t))
    ensures HasType(List(l.elements + r.elements), ListType(MergeDynamic(s, t)))
  {
    hide HasType, MergeDynamic;
    ListTyped(l, s);
    ListTyped(r, t);
    var m, vs := MergeDynamic(s, t), l.elements + r.elements;
    forall i | 0 <= i < |vs| ensures HasType(vs[i], m) {
      if i < |l.elements| {
        assert vs[i] == l.elements[i];
        MergeTyped(vs[i], s, t);
      } else {
        assert vs[i] == r.elements[i - |l.elements|];
        MergeTyped(vs[i], s, t);
      }
    }
    ListTyped(List(vs), m);
  }

  lemma ListTyped(v: Value, t: Type)
    ensures HasType(v, ListType(t)) <==> v.List? && forall i :: 0 <= i < |v.elements| ==> HasType(v.elements[i], t)
  {
  }

  lemma MergeTyped(v: Value, s: Type, t: Type)
    requires HasType(v, s) || HasType(v, t)
    ensures HasType(v, MergeDynamic(s, t))
  {
  }

  lemma {:induction false} PutTyped(items: seq<Item>, key: string, v: Value, t: Type)
    requires HasType(Map(items), MapType(t)) && HasType(v, t)
    ensures HasType(Map(Put(items, key, v)), MapType(t))
  {
    if items != [] && items[0].key != key && !Numerals.Before(key, items[0].key) {
      var rest := items[1..];
      assert forall i :: 0 <= i < |rest| ==> rest[i] == items[i + 1];
      assert HasType(Map(rest), MapType(t));
      PutTyped(rest, key, v, t);
      var put := Put(rest, key, v);
      assert Put(items, key, v) == [items[0]] + put;
      forall i | 0 <= i < |[items[0]] + put| ensures HasType(([items[0]] + put)[i].value, t) {
        if i > 0 {
          assert HasType(Map(put).items[i - 1].value, t);
        }
      }
    } else {
      forall i | 0 <= i < |Put(items, key, v)| ensures HasType(Put(items, key, v)[i].value, t) {
        assert Put(items, key, v)[i].value == v || Put(items, key, v)[i] in items;
      }
    }
  }

  /** The value under a key of a record has a type among those of its fields. */
  lemma RecordItem(items: seq<Item>, fields: seq<Field>, key: string)
    requires Fits(items, fields) && HasKey(items, key)
    ensures var v := items[Position(items, key)].value;
            && FieldAt(fields, key).Some? && HasType(v, FieldAt(fields, key).value.fieldType)
            && HasType(v, CommonType(FieldTypes(fields)))
  {
    var i := Position(items, key);
    var j :| 0 <= j < |fields| && FitsField(items[i], fields[j]) && FieldAt(fields, items[i].key) == Some(fields[j]);
    assert FitsField(items[i], fields[j]);
    CommonTypeOf(items[i].value, fields[j].fieldType, FieldTypes(fields), j);
  }

  // ------------------------------------------------------------------------------------------
  // One operation
  // ------------------------------------------------------------------------------------------

  lemma UnarySafe(fl: Floats, f: Func, v: Value, t: Type)
    requires InferUnary(f, t).Ok? && HasType(v, t)
    ensures Strict1(f) && Safe(EvalUnary(fl, f, v), InferUnary(f, t).value)
  {
  }

  lemma ArithmeticSafe(fl: Floats, f: Func, l: Value, r: Value, s: Type, t: Type)
    requires Arithmetic(f) && InferBinary(f, s, t).Ok? && HasType(l, s) && HasType(r, t)
    ensures Safe(EvalArithmetic(fl, f, l, r), InferBinary(f, s, t).value)
  {
    if s.ListType? {
      ConcatTyped(l, r, s.element, t.element);
    }
  }

  lemma IndexSafe(l: Value, r: Value, s: Type, t: Type)
    requires InferBinary(Index, s, t).Ok? && HasType(l, s) && HasType(r, t)
    ensures Safe(EvalIndex(l, r), InferBinary(Index, s, t).value)
  {
    if s.RecordType? && HasKey(l.items, r.s) {
      RecordItem(l.items, s.fields, r.s);
    }
  }

  lemma BinarySafe(fl: Floats, f: Func, l: Value, r: Value, s: Type, t: Type)
    requires !f.And? && !f.Or? && InferBinary(f, s, t).Ok? && HasType(l, s) && HasType(r, t)
    ensures Strict2(f) && Safe(EvalBinary(fl, f, l, r), InferBinary(f, s, t).value)
  {
    hide FieldAt, CommonType, FieldTypes, Position;
    if Arithmetic(f) {
      ArithmeticSafe(fl, f, l, r, s, t);
    } else if f.Index? {
      IndexSafe(l, r, s, t);
    }
  }

  lemma LogicalSafe(f: Func, l: Evaluation, r: Evaluation)
    requires (f.And? || f.Or?) && Safe(l, BoolType) && Safe(r, BoolType)
    ensures Safe(EvalLogical(f, l, r), BoolType)
  {
  }

  lemma SelectSafe(operand: Expr, v: Value, t: Type, field: string, test: bool)
    requires InferSelect(operand, t, field, test).Ok? && HasType(v, t)
    ensures Safe(EvalSelect(v, field, test), InferSelect(operand, t, field, test).value)
  {
    if t.RecordType? && HasKey(v.items, field) {
      RecordItem(v.items, t.fields, field);
    }
  }

  /** The merged type of a conditional has the values of both branches. */
  lemma ConditionalSafe(r: Evaluation, s: Type, t: Type)
    requires MergeConditional(s, t).Some?
    ensures Safe(r, s) ==> Safe(r, MergeConditional(s, t).value)
    ensures Safe(r, t) ==> Safe(r, MergeConditional(s, t).value)
  {
  }

  // ------------------------------------------------------------------------------------------
  // Expressions
  // ------------------------------------------------------------------------------------------

  lemma {:induction false} AllSafe(fl: Floats, es: seq<Expr>, types: TypeEnvironment, env: Environment)
    requires InferAll(es, types).Ok? && Conforms(env, types)
    ensures var ts, r := InferAll(es, types).value, EvalAll(fl, es, env);
            && (r.Ok? ==> |r.value| == |ts| && forall i :: 0 <= i < |ts| ==> HasType(r.value[i], ts[i]))
            && (r.Err? ==> DataFault(r.error))
    decreases es, 1
  {
    if es != [] {
      TypeSafety(fl, es[0], types, env);
      AllSafe(fl, es[1..], types, env);
      var t, ts := Infer(es[0], types).value, InferAll(es[1..], types).value;
      assert InferAll(es, types).value == [t] + ts;
      if EvalAll(fl, es, env).Ok? {
        var v, vs := Eval(fl, es[0], env).value, EvalAll(fl, es[1..], env).value;
        assert EvalAll(fl, es, env).value == [v] + vs;
        forall i | 0 <= i < |[t] + ts| ensures HasType(([v] + vs)[i], ([t] + ts)[i]) {
          if i > 0 {
            assert HasType(vs[i - 1], ts[i - 1]);
          }
        }
      }
    }
  }

  /** The items of a map literal have the common type, whatever it will be. */
  /** Whatever has one of the types has type `t`. */
  ghost predicate Covers(ts: seq<Type>, t: Type) {
    forall i, v :: 0 <= i < |ts| && HasType(v, ts[i]) ==> HasType(v, t)
  }

  lemma CoversFirst(ts: seq<Type>, t: Type, v: Value)
    requires ts != [] && Covers(ts, t) && HasType(v, ts[0])
    ensures HasType(v, t)
  {
    hide HasType;
  }

  lemma CoversRest(first: Type, rest: seq<Type>, t: Type)
    requires Covers([first] + rest, t)
    ensures Covers(rest, t)
  {
    hide HasType;
    forall i, v | 0 <= i < |rest| && HasType(v, rest[i]) ensures HasType(v, t) {
      assert ([first] + rest)[i + 1] == rest[i];
    }
  }

  lemma {:induction false} EntriesSafe(fl: Floats, es: seq<Entry>, types: TypeEnvironment, env: Environment, keys: set<string>, items: seq<Item>, t: Type)
    requires InferEntries(es, types, keys).Ok? && Conforms(env, types) && HasType(Map(items), MapType(t))
    requires Covers(InferEntries(es, types, keys).value, t)
    ensures var r := EvalEntries(fl, es, env, items);
            && (r.Ok? ==> HasType(Map(r.value), MapType(t)))
            && (r.Err? ==> DataFault(r.error))
    decreases es, 1
  {
    if es != [] {
      hide HasType, Conforms, DataFault, Put, Covers;
      EntrySafe(fl, es[0], types, env);
      var all := InferEntries(es, types, keys).value;
      var rest := InferEntries(es[1..], types, keys + {es[0].key.literal.s}).value;
      assert all == [all[0]] + rest;
      CoversRest(all[0], rest, t);
      if EvalEntry(fl, es[0], env).Ok? {
        var v := EvalEntry(fl, es[0], env).value;
        CoversFirst(all, t, v);
        PutTyped(items, es[0].key.literal.s, v, t);
        EntriesSafe(fl, es[1..], types, env, keys + {es[0].key.literal.s}, Put(items, es[0].key.literal.s, v), t);
      }
    }
  }

  lemma {:induction false} EntrySafe(fl: Floats, e: Entry, types: TypeEnvironment, env: Environment)
    requires InferEntry(e, types).Ok? && Conforms(env, types)
    ensures Safe(EvalEntry(fl, e, env), InferEntry(e, types).value)
    decreases e
  {
    TypeSafety(fl, e.value, types, env);
  }

  lemma {:induction false} CallSafe(fl: Floats, f: Func, args: seq<Expr>, types: TypeEnvironment, env: Environment)
    requires Infer(Call(false, f, args), types).Ok? && Conforms(env, types)
    ensures Safe(Eval(fl, Call(false, f, args), env), Infer(Call(false, f, args), types).value)
    decreases args, 1
  {
    hide InferUnary, InferBinary, EvalUnary, EvalBinary, EvalLogical;
    var ts := InferAll(args, types).value;
    ArgumentsTyped(args, types);
    if f.Conditional? && |args| == 3 {
      TypeSafety(fl, args[0], types, env);
      TypeSafety(fl, args[1], types, env);
      TypeSafety(fl, args[2], types, env);
      var r := Eval(fl, Call(false, f, args), env);
      ConditionalSafe(r, ts[1], ts[2]);
    } else if |args| == 1 {
      TypeSafety(fl, args[0], types, env);
      if Eval(fl, args[0], env).Ok? {
        UnarySafe(fl, f, Eval(fl, args[0], env).value, ts[0]);
      }
      UnaryStrict(f, ts[0]);
    } else {
      TypeSafety(fl, args[0], types, env);
      TypeSafety(fl, args[1], types, env);
      if f.And? || f.Or? {
        LogicalTyped(f, ts[0], ts[1]);
        LogicalSafe(f, Eval(fl, args[0], env), Eval(fl, args[1], env));
      } else {
        BinaryStrict(f, ts[0], ts[1]);
        if Eval(fl, args[0], env).Ok? && Eval(fl, args[1], env).Ok? {
          BinarySafe(fl, f, Eval(fl, args[0], env).value, Eval(fl, args[1], env).value, ts[0], ts[1]);
        }
      }
    }
  }

  lemma UnaryStrict(f: Func, t: Type)
    requires InferUnary(f, t).Ok?
    ensures Strict1(f)
  {
  }

  lemma BinaryStrict(f: Func, s: Type, t: Type)
    requires InferBinary(f, s, t).Ok? && !f.And? && !f.Or?
    ensures Strict2(f)
  {
  }

  lemma LogicalTyped(f: Func, s: Type, t: Type)
    requires InferBinary(f, s, t).Ok? && (f.And? || f.Or?)
    ensures s.BoolType? && t.BoolType? && InferBinary(f, s, t).value == BoolType
  {
  }

  lemma {:induction false} ArgumentsTyped(es: seq<Expr>, types: TypeEnvironment)
    requires InferAll(es, types).Ok?
    ensures forall i :: 0 <= i < |es| ==> Infer(es[i], types) == Ok(InferAll(es, types).value[i])
  {
    if es != [] {
      ArgumentsTyped(es[1..], types);
      forall i | 0 <= i < |es| ensures Infer(es[i], types) == Ok(InferAll(es, types).value[i]) {
        if i > 0 {
          assert es[i] == es[1..][i - 1];
        }
      }
    }
  }

  /**
   If the checker gives `e` a type and the environment conforms, evaluation yields a value of
   that type or a data fault, never an unknown name, a shape fault or a profile fault.
   */
  lemma {:induction false} TypeSafety(fl: Floats, e: Expr, types: TypeEnvironment, env: Environment)
    requires Infer(e, types).Ok? && Conforms(env, types)
    ensures Safe(Eval(fl, e, env), Infer(e, types).value)
    decreases e
  {
    match e
    case Lit(_) =>
    case Ident(_) =>
    case ListExpr(elements) =>
      AllSafe(fl, elements, types, env);
      var ts := InferAll(elements, types).value;
      if EvalAll(fl, elements, env).Ok? {
        var vs := EvalAll(fl, elements, env).value;
        forall i | 0 <= i < |vs| ensures HasType(vs[i], CommonType(ts)) {
          CommonTypeOf(vs[i], ts[i], ts, i);
        }
      }
    case MapExpr(entries) =>
      var ts := InferEntries(entries, types, {}).value;
      forall i, v | 0 <= i < |ts| && HasType(v, ts[i]) ensures HasType(v, CommonType(ts)) {
        CommonTypeOf(v, ts[i], ts, i);
      }
      EntriesSafe(fl, entries, types, env, {}, [], CommonType(ts));
    case Select(operand, field, test) =>
      TypeSafety(fl, operand, types, env);
      if Eval(fl, operand, env).Ok? {
        SelectSafe(operand, Eval(fl, operand, env).value, Infer(operand, types).value, field, test);
      }
    case Call(_, f, args) => CallSafe(fl, f, args, types, env);
    case Unsupported =>
  }

  // ------------------------------------------------------------------------------------------
  // Assignment
  // ------------------------------------------------------------------------------------------

  /** `v` as a value of the declared type: integers widen to doubles where doubles are declared. */
  ghost predicate Assigned(v: Value, t: Type)
    decreases t
  {
    match t
    case DoubleType => v.Float? || v.Int?
    case ListType(element) => v.List? && forall i :: 0 <= i < |v.elements| ==> Assigned(v.elements[i], element)
    case MapType(value) => v.Map? && forall i :: 0 <= i < |v.items| ==> Assigned(v.items[i].value, value)
    case RefType(machine) => v.Null? || v.Ref?
    case _ => HasType(v, t)
  }

  /** A value of an assignable type fits the declared type, up to widening and the machine of a reference. */
  lemma {:induction false} AssignableSafe(v: Value, actual: Type, expected: Type)
    requires IsAssignable(actual, expected) && HasType(v, actual)
    ensures Assigned(v, expected)
    decreases expected
  {
    match expected
    case ListType(element) =>
      forall i | 0 <= i < |v.elements| ensures Assigned(v.elements[i], element) {
        if !element.Dyn? {
          SelfAssignable(actual.element);
          AssignableSafe(v.elements[i], actual.element, element);
        }
      }
    case MapType(value) =>
      if actual.MapType? {
        forall i | 0 <= i < |v.items| ensures Assigned(v.items[i].value, value) {
          if !value.Dyn? {
            SelfAssignable(actual.value);
            AssignableSafe(v.items[i].value, actual.value, value);
          }
        }
      }
    case _ =>
  }

  lemma SelfAssignable(t: Type)
    ensures IsAssignable(t, t)
  {
  }
}
