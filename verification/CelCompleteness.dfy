/**
 The checker refuses nothing that is safe: it accepts an operation on operands of given types exactly when no
 values of these types make the operation fail for another reason than the data. Equality never fails; it is
 accepted on comparable types.
 */
module CelCompleteness {
  import opened Wrappers
  import opened CelSyntax
  import opened CelEval
  import opened CelSoundness
  import opened CelLaws

  /** A value, or a fault that only data can cause. */
  predicate Sound(r: Evaluation) {
    r.Ok? || DataFault(r.error)
  }

  /** Every type has a value. */
  function Sample(t: Type): Value {
    match t
    case NullType => Null
    case BoolType => Bool(false)
    case IntType => Int(0)
    case DoubleType => Float(Zero, false)
    case StringType => Str("")
    case ListType(_) => List([])
    case MapType(_) => Map([])
    case RecordType(_) => Map([])
    case RefType(_) => Null
    case Dyn => Null
  }

  lemma SampleTyped(t: Type)
    ensures HasType(Sample(t), t)
  {
  }

  /** The operation is sound on all values of the type. */
  ghost predicate SoundOn1(fl: Floats, f: Func, t: Type) {
    forall v :: HasType(v, t) ==> Sound(EvalUnary(fl, f, v))
  }

  /** The operation is sound on all values of both types. */
  ghost predicate SoundOn2(fl: Floats, f: Func, s: Type, t: Type) {
    forall v, w :: HasType(v, s) && HasType(w, t) ==> Sound(EvalBinary(fl, f, v, w))
  }

  lemma UnaryIff(fl: Floats, f: Func, t: Type)
    requires Strict1(f)
    ensures InferUnary(f, t).Ok? <==> SoundOn1(fl, f, t)
  {
    hide HasType;
    if InferUnary(f, t).Ok? {
      forall v | HasType(v, t) ensures Sound(EvalUnary(fl, f, v)) {
        UnarySafe(fl, f, v, t);
      }
    } else {
      SampleTyped(t);
      assert !Sound(EvalUnary(fl, f, Sample(t)));
    }
  }

  lemma ArithmeticRefuted(fl: Floats, f: Func, s: Type, t: Type)
    requires Arithmetic(f) && InferBinary(f, s, t).Err?
    ensures !Sound(EvalBinary(fl, f, Sample(s), Sample(t)))
  {
  }

  lemma OrderingRefuted(fl: Floats, f: Func, s: Type, t: Type)
    requires Ordering(f) && InferBinary(f, s, t).Err?
    ensures !Sound(EvalBinary(fl, f, Sample(s), Sample(t)))
  {
  }

  lemma LookupRefuted(fl: Floats, f: Func, s: Type, t: Type)
    requires (f.In? || f.Index?) && InferBinary(f, s, t).Err?
    ensures !Sound(EvalBinary(fl, f, Sample(s), Sample(t)))
  {
  }

  lemma SafeIsSound(r: Evaluation, t: Type)
    requires Safe(r, t)
    ensures Sound(r)
  {
    hide HasType;
  }

  lemma BinaryRefuted(fl: Floats, f: Func, s: Type, t: Type)
    requires (Arithmetic(f) || Ordering(f) || f.In? || f.Index?) && InferBinary(f, s, t).Err?
    ensures !Sound(EvalBinary(fl, f, Sample(s), Sample(t)))
  {
    hide InferBinary, EvalBinary, Sample, Sound;
    if Arithmetic(f) {
      ArithmeticRefuted(fl, f, s, t);
    } else if Ordering(f) {
      OrderingRefuted(fl, f, s, t);
    } else {
      LookupRefuted(fl, f, s, t);
    }
  }

  lemma BinaryIff(fl: Floats, f: Func, s: Type, t: Type)
    requires Arithmetic(f) || Ordering(f) || f.In? || f.Index?
    ensures InferBinary(f, s, t).Ok? <==> SoundOn2(fl, f, s, t)
  {
    hide HasType, InferBinary, EvalBinary, Sample, Safe, Sound, Strict2;
    if InferBinary(f, s, t).Ok? {
      forall v, w | HasType(v, s) && HasType(w, t) ensures Sound(EvalBinary(fl, f, v, w)) {
        BinarySafe(fl, f, v, w, s, t);
        SafeIsSound(EvalBinary(fl, f, v, w), InferBinary(f, s, t).value);
      }
    } else {
      SampleTyped(s);
      SampleTyped(t);
      BinaryRefuted(fl, f, s, t);
    }
  }

  /** Values of both types can be equal, as far as the checker knows. */
  predicate Comparable(s: Type, t: Type) {
    || (s == t && !s.Dyn?)
    || (s.ListType? && t.ListType?)
    || ((s.MapType? || s.RecordType?) && (t.MapType? || t.RecordType?))
    || (s.RefType? && t.RefType? && (s.machine.None? || t.machine.None?))
    || (s.RefType? && t.NullType?)
    || (s.NullType? && t.RefType?)
  }

  /** What the branches of a conditional have in common: a reference also stands for null. */
  predicate Joins(s: Type, t: Type, u: Type) {
    (s == t && u == s) || (s.RefType? && t.NullType? && u == s) || (s.NullType? && t.RefType? && u == t)
  }

  /** The type of all elements if they agree, else the dynamic type. */
  predicate Common(ts: seq<Type>, t: Type) {
    if ts != [] && forall i, j :: 0 <= i < |ts| && 0 <= j < |ts| ==> ts[i] == ts[j] then t == ts[0] else t == Dyn
  }

  lemma CommonIs(ts: seq<Type>)
    ensures Common(ts, CommonType(ts))
  {
  }

  // ------------------------------------------------------------------------------------------
  // Expressions
  // ------------------------------------------------------------------------------------------

  lemma InferCons(e: Expr, es: seq<Expr>, types: TypeEnvironment)
    ensures Infer(e, types).Err? || InferAll(es, types).Err? ==> InferAll([e] + es, types).Err?
    ensures Infer(e, types).Ok? && InferAll(es, types).Ok? ==> InferAll([e] + es, types) == Ok([Infer(e, types).value] + InferAll(es, types).value)
  {
    assert ([e] + es)[0] == e && ([e] + es)[1..] == es;
  }

  lemma InferNone(types: TypeEnvironment)
    ensures InferAll([], types) == Ok([])
  {
  }

  lemma InferPair(x: Expr, y: Expr, types: TypeEnvironment)
    ensures Infer(x, types).Err? || Infer(y, types).Err? ==> InferAll([x, y], types).Err?
    ensures Infer(x, types).Ok? && Infer(y, types).Ok? ==> InferAll([x, y], types) == Ok([Infer(x, types).value, Infer(y, types).value])
    ensures Infer(x, types).Err? ==> InferAll([x], types).Err?
    ensures Infer(x, types).Ok? ==> InferAll([x], types) == Ok([Infer(x, types).value])
  {
    hide Infer, InferAll;
    InferNone(types);
    InferCons(x, [], types);
    InferCons(y, [], types);
    InferCons(x, [y], types);
    assert [x] + [] == [x] && [y] + [] == [y] && [x] + [y] == [x, y];
    if Infer(x, types).Ok? {
      assert [Infer(x, types).value] + [] == [Infer(x, types).value];
    }
    if Infer(y, types).Ok? {
      assert [Infer(y, types).value] + [] == [Infer(y, types).value];
    }
    if Infer(x, types).Ok? && Infer(y, types).Ok? {
      assert [Infer(x, types).value] + [Infer(y, types).value] == [Infer(x, types).value, Infer(y, types).value];
    }
  }

  lemma InferTwo(f: Func, x: Expr, y: Expr, types: TypeEnvironment, s: Type, t: Type)
    requires Infer(x, types) == Ok(s) && Infer(y, types) == Ok(t)
    ensures Infer(Binary(f, x, y), types) == InferBinary(f, s, t)
  {
    hide InferBinary, InferUnary, InferAll;
    InferPair(x, y, types);
  }

  lemma InferOne(f: Func, x: Expr, types: TypeEnvironment, t: Type)
    requires Infer(x, types) == Ok(t)
    ensures Infer(Unary(f, x), types) == InferUnary(f, t)
  {
    hide InferBinary, InferUnary, InferAll;
    InferPair(x, x, types);
  }

  /** An ill-typed operand makes the whole expression ill-typed. */
  lemma IllTyped(f: Func, x: Expr, y: Expr, types: TypeEnvironment)
    ensures Infer(x, types).Err? ==> Infer(Unary(f, x), types).Err? && Infer(Binary(f, x, y), types).Err?
    ensures Infer(y, types).Err? ==> Infer(Binary(f, x, y), types).Err?
  {
    hide InferBinary, InferUnary, InferAll;
    InferPair(x, y, types);
  }

  /**
   Which binary operations are accepted, and with which type: arithmetic, orderings, membership and indexing exactly
   when they are sound on all values, equality on comparable types, and logic on Booleans.
   */
  lemma BinaryChecked(fl: Floats, f: Func, x: Expr, y: Expr, types: TypeEnvironment, s: Type, t: Type)
    requires Infer(x, types) == Ok(s) && Infer(y, types) == Ok(t)
    ensures var r := Infer(Binary(f, x, y), types);
            && (Arithmetic(f) || Ordering(f) || f.In? || f.Index? ==> (r.Ok? <==> SoundOn2(fl, f, s, t)))
            && (Equality(f) ==> (r.Ok? <==> Comparable(s, t)))
            && (f.And? || f.Or? ==> (r.Ok? <==> s == BoolType && t == BoolType))
            && (r.Ok? && (f.And? || f.Or? || Equality(f) || Ordering(f) || f.In?) ==> r.value == BoolType)
            && (r.Ok? && Arithmetic(f) ==>
                  if s.ListType? then r.value == ListType(if s == t then s.element else Dyn) else r.value == s)
            && (r.Ok? && f.Index? ==>
                  match s
                  case ListType(element) => r.value == element
                  case MapType(value) => r.value == value
                  case RecordType(fields) => Common(FieldTypes(fields), r.value)
                  case _ => false)
  {
    hide HasType, EvalBinary, SoundOn2, Infer, FieldTypes, CommonType;
    InferTwo(f, x, y, types, s, t);
    if Arithmetic(f) || Ordering(f) || f.In? || f.Index? {
      BinaryIff(fl, f, s, t);
    }
    if s.RecordType? {
      CommonIs(FieldTypes(s.fields));
    }
  }

  /** Which unary operations are accepted, and with which type. */
  lemma UnaryChecked(fl: Floats, f: Func, x: Expr, types: TypeEnvironment, t: Type)
    requires Infer(x, types) == Ok(t)
    ensures var r := Infer(Unary(f, x), types);
            && (Strict1(f) ==> (r.Ok? <==> SoundOn1(fl, f, t)))
            && (r.Ok? ==>
                  && Strict1(f)
                  && r.value == match f case Not => BoolType case Negate => t case ToDouble => DoubleType case ToString => StringType case _ => IntType)
  {
    hide HasType, EvalUnary, SoundOn1, Infer;
    InferOne(f, x, types, t);
    if Strict1(f) {
      UnaryIff(fl, f, t);
    }
  }

  /** A conditional needs a Boolean and branches with a common type. */
  lemma ConditionalChecked(c: Expr, x: Expr, y: Expr, types: TypeEnvironment, b: Type, s: Type, t: Type, u: Type)
    requires Infer(c, types) == Ok(b) && Infer(x, types) == Ok(s) && Infer(y, types) == Ok(t)
    ensures Infer(Call(false, Conditional, [c, x, y]), types) == Ok(u) <==> b == BoolType && Joins(s, t, u)
  {
    hide InferBinary, InferUnary, InferAll;
    InferPair(x, y, types);
    InferCons(c, [x, y], types);
    assert [c] + [x, y] == [c, x, y] && [b] + [s, t] == [b, s, t];
  }

  /** A list is well-typed if its elements are, and has the type that they have in common. */
  lemma {:induction false} ListChecked(es: seq<Expr>, types: TypeEnvironment)
    ensures InferAll(es, types).Ok? <==> forall i :: 0 <= i < |es| ==> Infer(es[i], types).Ok?
    ensures InferAll(es, types).Ok? ==>
              && (forall i :: 0 <= i < |es| ==> Infer(es[i], types) == Ok(InferAll(es, types).value[i]))
              && Infer(ListExpr(es), types).Ok? && Infer(ListExpr(es), types).value.ListType?
              && Common(InferAll(es, types).value, Infer(ListExpr(es), types).value.element)
  {
    if InferAll(es, types).Ok? {
      ArgumentsTyped(es, types);
      CommonIs(InferAll(es, types).value);
    }
    if es != [] {
      ListChecked(es[1..], types);
      assert forall i :: 0 < i < |es| ==> es[i] == es[1..][i - 1];
      if forall i :: 0 <= i < |es| ==> Infer(es[i], types).Ok? {
        forall i | 0 <= i < |es[1..]| ensures Infer(es[1..][i], types).Ok? {
          assert es[1..][i] == es[i + 1];
        }
        assert Infer(es[0], types).Ok?;
      }
    }
  }

  /** Field `j` is the first one of that name. */
  predicate FieldIs(fields: seq<Field>, name: string, j: nat) {
    j < |fields| && fields[j].name == name && forall k :: 0 <= k < j ==> fields[k].name != name
  }

  lemma {:induction false} FieldAtIs(fields: seq<Field>, name: string, j: nat)
    ensures FieldIs(fields, name, j) ==> FieldAt(fields, name) == Some(fields[j])
    ensures FieldAt(fields, name).None? <==> forall k :: 0 <= k < |fields| ==> fields[k].name != name
  {
    if fields != [] {
      var rest := fields[1..];
      assert forall k :: 0 <= k < |rest| ==> rest[k] == fields[k + 1];
      FieldAtIs(rest, name, if j > 0 then j - 1 else 0);
      if FieldIs(fields, name, j) && j > 0 {
        assert FieldIs(rest, name, j - 1);
      }
      if forall k :: 0 <= k < |fields| ==> fields[k].name != name {
        assert fields[0].name != name;
      }
      if forall k :: 0 <= k < |rest| ==> rest[k].name != name {
        forall k | 0 < k < |fields| ensures fields[k].name != name {
          assert fields[k] == rest[k - 1];
        }
      }
    }
  }

  /** Selecting a field needs a record that declares it, or a map. */
  lemma SelectChecked(x: Expr, field: string, types: TypeEnvironment, t: Type, j: nat)
    requires Infer(x, types) == Ok(t)
    ensures var r := Infer(Select(x, field, false), types);
            match t
            case MapType(value) => r == Ok(value)
            case RecordType(fields) =>
              && (FieldIs(fields, field, j) ==> r == Ok(fields[j].fieldType))
              && (r.Err? <==> forall k :: 0 <= k < |fields| ==> fields[k].name != field)
            case _ => r.Err?
  {
    if t.RecordType? {
      FieldAtIs(t.fields, field, j);
    }
  }
}
