/** The type checker and the plain evaluator of the portable CEL profile. */
module CelEval {
  import opened Wrappers
  import Numerals
  import opened CelSyntax

  // ------------------------------------------------------------------------------------------
  // Types
  // ------------------------------------------------------------------------------------------

  datatype Rejection = ProfileError | TypeError

  type Typing = Result<Type, Rejection>

  function FieldAt(fields: seq<Field>, name: string): Option<Field> {
    if fields == [] then None else if fields[0].name == name then Some(fields[0]) else FieldAt(fields[1..], name)
  }

  /** The one type of all, or `Dyn`. */
  function CommonType(types: seq<Type>): Type {
    if types != [] && forall i :: 0 <= i < |types| ==> types[i] == types[0] then types[0] else Dyn
  }

  function FieldTypes(fields: seq<Field>): (types: seq<Type>)
    ensures |types| == |fields| && forall i :: 0 <= i < |fields| ==> types[i] == fields[i].fieldType
  {
    if fields == [] then [] else [fields[0].fieldType] + FieldTypes(fields[1..])
  }

  predicate NominallyCompatible(left: Option<string>, right: Option<string>) {
    left.None? || right.None? || left == right
  }

  predicate EqualityCompatible(left: Type, right: Type) {
    || (left.ListType? && right.ListType?)
    || ((left.MapType? || left.RecordType?) && (right.MapType? || right.RecordType?))
    || (left == right && !left.Dyn?)
  }

  function MergeDynamic(left: Type, right: Type): Type {
    if left == right then left else Dyn
  }

  function MergeConditional(left: Type, right: Type): Option<Type> {
    if left == right then Some(left)
    else if left.RefType? && right.NullType? then Some(left)
    else if left.NullType? && right.RefType? then Some(right)
    else None
  }

  predicate EqualityTyped(left: Type, right: Type) {
    || (left.RefType? && right.RefType? && NominallyCompatible(left.machine, right.machine))
    || (left.RefType? && right.NullType?)
    || (left.NullType? && right.RefType?)
    || EqualityCompatible(left, right)
  }

  function InferUnary(f: Func, t: Type): Typing {
    match f
    case Not => if t.BoolType? then Ok(BoolType) else Err(ProfileError)
    case Negate => if t.IntType? || t.DoubleType? then Ok(t) else Err(ProfileError)
    case Size => if t.StringType? || t.ListType? || t.MapType? || t.RecordType? then Ok(IntType) else Err(ProfileError)
    case ToDouble => if t.IntType? then Ok(DoubleType) else Err(ProfileError)
    case ToInt => if t.DoubleType? then Ok(IntType) else Err(ProfileError)
    case ToString => if t.BoolType? || t.IntType? || t.DoubleType? || t.StringType? then Ok(StringType) else Err(ProfileError)
    case _ => Err(ProfileError)
  }

  function InferBinary(f: Func, l: Type, r: Type): Typing {
    if f.And? || f.Or? then (if l.BoolType? && r.BoolType? then Ok(BoolType) else Err(ProfileError))
    else if Arithmetic(f) then
      if l.IntType? && r.IntType? then Ok(IntType)
      else if l.DoubleType? && r.DoubleType? then Ok(DoubleType)
      else if f.Add? && l.StringType? && r.StringType? then Ok(StringType)
      else if f.Add? && l.ListType? && r.ListType? then Ok(ListType(MergeDynamic(l.element, r.element)))
      else Err(ProfileError)
    else if Equality(f) then (if EqualityTyped(l, r) then Ok(BoolType) else Err(ProfileError))
    else if Ordering(f) then
      if l == r && (l.IntType? || l.DoubleType? || l.StringType?) then Ok(BoolType) else Err(ProfileError)
    else if f.In? then
      if r.ListType? || (l.StringType? && (r.MapType? || r.RecordType?)) then Ok(BoolType) else Err(ProfileError)
    else if f.Index? then
      if l.ListType? && r.IntType? then Ok(l.element)
      else if l.MapType? && r.StringType? then Ok(l.value)
      else if l.RecordType? && r.StringType? then Ok(CommonType(FieldTypes(l.fields)))
      else Err(ProfileError)
    else Err(ProfileError)
  }

  function InferCall(f: Func, ts: seq<Type>): Typing {
    if f.Conditional? && |ts| == 3 && ts[0].BoolType? then
      (match MergeConditional(ts[1], ts[2]) case Some(t) => Ok(t) case None => Err(TypeError))
    else if |ts| == 1 then InferUnary(f, ts[0])
    else if |ts| == 2 then InferBinary(f, ts[0], ts[1])
    else Err(ProfileError)
  }

  predicate IsEventPayload(e: Expr) {
    e.Select? && e.field == "payload" && !e.test && e.operand == Ident("event")
  }

  function InferSelect(operand: Expr, t: Type, field: string, test: bool): Typing {
    if test then
      if t.MapType? || (t.RecordType? && IsEventPayload(operand) && FieldAt(t.fields, field).Some?) then Ok(BoolType)
      else Err(ProfileError)
    else
      match t
      case RecordType(fields) =>
        (match FieldAt(fields, field) case Some(found) => Ok(found.fieldType) case None => Err(ProfileError))
      case MapType(value) => Ok(value)
      case RefType(_) => Err(ProfileError)
      case _ => Err(TypeError)
  }

  function InferLiteral(l: Literal): Typing {
    match l
    case NullLiteral => Ok(NullType)
    case BoolLiteral(_) => Ok(BoolType)
    case IntLiteral(_) => Ok(IntType)
    case DoubleLiteral(magnitude, _) => if magnitude.Some? then Ok(DoubleType) else Err(ProfileError)
    case StringLiteral(_) => Ok(StringType)
    case OtherLiteral => Err(ProfileError)
  }

  predicate LiteralKey(e: Entry) {
    e.MapEntry? && e.key.Lit? && e.key.literal.StringLiteral?
  }

  function Infer(e: Expr, env: TypeEnvironment): Typing
    decreases e
  {
    match e
    case Lit(literal) => InferLiteral(literal)
    case Ident(name) => if name in env then Ok(env[name]) else Err(TypeError)
    case ListExpr(elements) =>
      (match InferAll(elements, env)
       case Ok(ts) => Ok(ListType(CommonType(ts)))
       case Err(rejection) => Err(rejection))
    case MapExpr(entries) =>
      (match InferEntries(entries, env, {})
       case Ok(ts) => Ok(MapType(CommonType(ts)))
       case Err(rejection) => Err(rejection))
    case Select(operand, field, test) =>
      (match Infer(operand, env)
       case Ok(t) => InferSelect(operand, t, field, test)
       case Err(rejection) => Err(rejection))
    case Call(receiver, func, args) =>
      if receiver then Err(ProfileError)
      else
        (match InferAll(args, env)
         case Ok(ts) => InferCall(func, ts)
         case Err(rejection) => Err(rejection))
    case Unsupported => Err(ProfileError)
  }

  function InferAll(es: seq<Expr>, env: TypeEnvironment): (r: Result<seq<Type>, Rejection>)
    ensures r.Ok? ==> |r.value| == |es|
    decreases es
  {
    if es == [] then Ok([])
    else
      match Infer(es[0], env)
      case Err(rejection) => Err(rejection)
      case Ok(t) =>
        match InferAll(es[1..], env)
        case Err(rejection) => Err(rejection)
        case Ok(ts) => Ok([t] + ts)
  }

  function InferEntry(e: Entry, env: TypeEnvironment): Typing
    decreases e
  {
    Infer(e.value, env)
  }

  function InferEntries(es: seq<Entry>, env: TypeEnvironment, keys: set<string>): (r: Result<seq<Type>, Rejection>)
    ensures r.Ok? ==> |r.value| == |es|
    decreases es
  {
    if es == [] then Ok([])
    else if !LiteralKey(es[0]) || es[0].optional then Err(ProfileError)
    else if es[0].key.literal.s in keys then Err(TypeError)
    else
      match InferEntry(es[0], env)
      case Err(rejection) => Err(rejection)
      case Ok(t) =>
        match InferEntries(es[1..], env, keys + {es[0].key.literal.s})
        case Err(rejection) => Err(rejection)
        case Ok(ts) => Ok([t] + ts)
  }

  /** An expression of type `actual` may be used where `expected` is declared. */
  predicate IsAssignable(actual: Type, expected: Type) {
    || actual == expected
    || (actual.IntType? && expected.DoubleType?)
    || (actual.RefType? && expected.RefType? && NominallyCompatible(actual.machine, expected.machine))
    || (actual.NullType? && expected.RefType?)
    || (actual.ListType? && expected.ListType? && (expected.element.Dyn? || IsAssignable(actual.element, expected.element)))
    || (actual.MapType? && expected.MapType? && (expected.value.Dyn? || IsAssignable(actual.value, expected.value)))
    || (actual.RecordType? && expected.MapType? && expected.value.Dyn?)
  }

  // ------------------------------------------------------------------------------------------
  // Evaluation
  // ------------------------------------------------------------------------------------------

  /** What may go wrong with well-typed data, and what only ill-typed expressions run into. */
  datatype Fault =
    | Overflow
    | ZeroDivisor
    | MissingField
    | MissingKey
    | IndexRange
    | NotFinite
    | ConversionDomain
    | SizeRange
    | UnknownName
    | Shape
    | Profile

  predicate DataFault(f: Fault) {
    !f.UnknownName? && !f.Shape? && !f.Profile?
  }

  type Evaluation = Result<Value, Fault>

  function Checked(i: int): Evaluation {
    if Int64Min <= i <= Int64Max then Ok(Int(i)) else Err(Overflow)
  }

  /** Division rounds toward zero. */
  function Quotient(a: int, b: int): int
    requires b != 0
  {
    var q := (if a < 0 then -a else a) / (if b < 0 then -b else b);
    if (a < 0) == (b < 0) then q else -q
  }

  /** The remainder has the sign of the dividend. */
  function Remainder(a: int, b: int): int
    requires b != 0
  {
    a - b * Quotient(a, b)
  }

  function IntArithmetic(f: Func, a: Int64, b: Int64): Evaluation
    requires Arithmetic(f)
  {
    match f
    case Add => Checked(a + b)
    case Subtract => Checked(a - b)
    case Multiply => Checked(a * b)
    case Divide => if b == 0 then Err(ZeroDivisor) else Checked(Quotient(a, b))
    case Modulo => if b == 0 then Err(ZeroDivisor) else if a == Int64Min && b == -1 then Err(Overflow) else Checked(Remainder(a, b))
  }

  function EvalArithmetic(fl: Floats, f: Func, l: Value, r: Value): Evaluation
    requires Arithmetic(f)
  {
    if l.Int? && r.Int? then IntArithmetic(f, l.i, r.i)
    else if l.Float? && r.Float? then
      (match fl.binary(f, l.magnitude, r.magnitude) case Some(d) => Ok(Number(d)) case None => Err(NotFinite))
    else if f.Add? && l.Str? && r.Str? then Ok(Str(l.s + r.s))
    else if f.Add? && l.List? && r.List? then Ok(List(l.elements + r.elements))
    else Err(Profile)
  }

  /** Whether `l` is less than `r`, for values of one ordered type. */
  function Compare(fl: Floats, l: Value, r: Value): Option<bool> {
    if l.Int? && r.Int? then Some(l.i < r.i)
    else if l.Float? && r.Float? then Some(fl.less(l.magnitude, r.magnitude))
    else if l.Str? && r.Str? then Some(Numerals.Before(l.s, r.s))
    else None
  }

  function EvalOrdering(fl: Floats, f: Func, l: Value, r: Value): Evaluation
    requires Ordering(f)
  {
    var less, greater := Compare(fl, l, r), Compare(fl, r, l);
    if less.None? || greater.None? then Err(Profile)
    else
      match f
      case Greater => Ok(Bool(greater.value))
      case GreaterEquals => Ok(Bool(!less.value))
      case Less => Ok(Bool(less.value))
      case LessEquals => Ok(Bool(!greater.value))
  }

  function EvalIn(needle: Value, haystack: Value): Evaluation {
    match haystack
    case List(elements) => Ok(Bool(exists i :: 0 <= i < |elements| && Same(elements[i], needle)))
    case Map(items) => if needle.Str? then Ok(Bool(HasKey(items, needle.s))) else Err(Shape)
    case _ => Err(Shape)
  }

  function EvalIndex(container: Value, index: Value): Evaluation {
    if container.List? && index.Int? then
      if 0 <= index.i < |container.elements| then Ok(container.elements[index.i]) else Err(IndexRange)
    else if container.Map? && index.Str? then
      if HasKey(container.items, index.s) then Ok(container.items[Position(container.items, index.s)].value) else Err(MissingKey)
    else Err(Shape)
  }

  function CheckedSize(n: nat): Evaluation {
    if n <= Int64Max then Ok(Int(n)) else Err(SizeRange)
  }

  function PrintDouble(fl: Floats, d: Double): string {
    if d.Zero? then "0" else fl.show(d)
  }

  function EvalUnary(fl: Floats, f: Func, v: Value): Evaluation {
    match f
    case Not => if v.Bool? then Ok(Bool(!v.b)) else Err(Shape)
    case Negate =>
      if v.Int? then Checked(0 - v.i) else if v.Float? then Ok(Number(fl.negate(v.magnitude))) else Err(Shape)
    case Size =>
      if v.Str? then CheckedSize(|v.s|) else if v.List? then CheckedSize(|v.elements|)
      else if v.Map? then CheckedSize(|v.items|) else Err(Shape)
    case ToDouble => if v.Int? then Ok(Number(fl.fromInt(v.i))) else Err(Profile)
    case ToInt =>
      if v.Float? then (match fl.toInt(v.magnitude) case Some(i) => Ok(Int(i)) case None => Err(ConversionDomain)) else Err(Profile)
    case ToString =>
      (match v
       case Bool(b) => Ok(Str(if b then "true" else "false"))
       case Int(i) => Ok(Str(Numerals.PrintInteger(i)))
       case Float(magnitude, _) => Ok(Str(PrintDouble(fl, magnitude)))
       case Str(s) => Ok(v)
       case _ => Err(Profile))
    case _ => Err(Profile)
  }

  /** `&&` and `||` absorb an error on either side when the other side decides. */
  function EvalLogical(f: Func, l: Evaluation, r: Evaluation): Evaluation
    requires f.And? || f.Or?
  {
    var decisive := Bool(f.Or?);
    if l == Ok(decisive) || r == Ok(decisive) then Ok(decisive)
    else if l.Ok? && r.Ok? && l.value.Bool? && r.value.Bool? then Ok(r.value)
    else if l.Err? then l
    else if r.Err? then r
    else Err(Shape)
  }

  /** Functions that evaluate both arguments, left first, before they look at either. */
  function EvalBinary(fl: Floats, f: Func, l: Value, r: Value): Evaluation {
    if Arithmetic(f) then EvalArithmetic(fl, f, l, r)
    else if Equality(f) then Ok(Bool(Same(l, r) == f.Equals?))
    else if Ordering(f) then EvalOrdering(fl, f, l, r)
    else if f.In? then EvalIn(l, r)
    else if f.Index? then EvalIndex(l, r)
    else Err(Profile)
  }

  predicate Strict2(f: Func) {
    Arithmetic(f) || Equality(f) || Ordering(f) || f.In? || f.Index?
  }

  predicate Strict1(f: Func) {
    f.Not? || f.Negate? || f.Size? || f.ToDouble? || f.ToInt? || f.ToString?
  }

  function EvalSelect(v: Value, field: string, test: bool): Evaluation {
    if !v.Map? then Err(Shape)
    else if test then Ok(Bool(HasKey(v.items, field)))
    else if HasKey(v.items, field) then Ok(v.items[Position(v.items, field)].value)
    else Err(MissingField)
  }

  function EvalLiteral(l: Literal): Evaluation {
    match l
    case NullLiteral => Ok(Null)
    case BoolLiteral(b) => Ok(Bool(b))
    case IntLiteral(i) => Ok(Int(i))
    case DoubleLiteral(magnitude, _) => if magnitude.Some? then Ok(Number(magnitude.value)) else Err(NotFinite)
    case StringLiteral(s) => Ok(Str(s))
    case OtherLiteral => Err(Profile)
  }

  function Eval(fl: Floats, e: Expr, env: Environment): Evaluation
    decreases e
  {
    match e
    case Lit(literal) => EvalLiteral(literal)
    case Ident(name) => if name in env then Ok(env[name]) else Err(UnknownName)
    case ListExpr(elements) =>
      (match EvalAll(fl, elements, env)
       case Ok(vs) => Ok(List(vs))
       case Err(fault) => Err(fault))
    case MapExpr(entries) =>
      (match EvalEntries(fl, entries, env, [])
       case Ok(items) => Ok(Map(items))
       case Err(fault) => Err(fault))
    case Select(operand, field, test) =>
      (match Eval(fl, operand, env)
       case Ok(v) => EvalSelect(v, field, test)
       case Err(fault) => Err(fault))
    case Call(receiver, f, args) =>
      if receiver then Err(Profile)
      else if f.Conditional? && |args| == 3 then
        (match Eval(fl, args[0], env)
         case Ok(v) =>
           if v == Bool(true) then Eval(fl, args[1], env)
           else if v == Bool(false) then Eval(fl, args[2], env)
           else Err(Shape)
         case Err(fault) => Err(fault))
      else if (f.And? || f.Or?) && |args| == 2 then
        EvalLogical(f, Eval(fl, args[0], env), Eval(fl, args[1], env))
      else if Strict1(f) && |args| == 1 then
        (match Eval(fl, args[0], env)
         case Ok(v) => EvalUnary(fl, f, v)
         case Err(fault) => Err(fault))
      else if Strict2(f) && |args| == 2 then
        (match Eval(fl, args[0], env)
         case Err(fault) => Err(fault)
         case Ok(l) =>
           match Eval(fl, args[1], env)
           case Err(fault) => Err(fault)
           case Ok(r) => EvalBinary(fl, f, l, r))
      else Err(Profile)
    case Unsupported => Err(Profile)
  }

  function EvalAll(fl: Floats, es: seq<Expr>, env: Environment): (r: Result<seq<Value>, Fault>)
    ensures r.Ok? ==> |r.value| == |es|
    decreases es
  {
    if es == [] then Ok([])
    else
      match Eval(fl, es[0], env)
      case Err(fault) => Err(fault)
      case Ok(v) =>
        match EvalAll(fl, es[1..], env)
        case Err(fault) => Err(fault)
        case Ok(vs) => Ok([v] + vs)
  }

  function EvalEntry(fl: Floats, e: Entry, env: Environment): Evaluation
    decreases e
  {
    Eval(fl, e.value, env)
  }

  /** The items of a map literal, put one by one. */
  function EvalEntries(fl: Floats, es: seq<Entry>, env: Environment, items: seq<Item>): Result<seq<Item>, Fault>
    decreases es
  {
    if es == [] then Ok(items)
    else if !LiteralKey(es[0]) then Err(Profile)
    else
      match EvalEntry(fl, es[0], env)
      case Err(fault) => Err(fault)
      case Ok(v) => EvalEntries(fl, es[1..], env, Put(items, es[0].key.literal.s, v))
  }
}
