/** Values, types and expressions of the portable CEL profile. */
module CelSyntax {
  import opened Wrappers
  import Numerals

  const Int64Min: int := -0x8000_0000_0000_0000
  const Int64Max: int := 0x7fff_ffff_ffff_ffff

  /** Signed 64-bit integers. */
  type Int64 = i: int | Int64Min <= i <= Int64Max

  /** A finite double up to the sign of zero; nonzero doubles are opaque codes. */
  datatype Double = Zero | NonZero(code: int)

  datatype InstanceReference = InstanceReference(root: string, instance: string, machine: string, version: Int64)

  datatype Item = Item(key: string, value: Value)

  /** A map holds its items in key order. */
  datatype Value =
    | Null
    | Bool(b: bool)
    | Int(i: Int64)
    | Float(magnitude: Double, negativeZero: bool)
    | Str(s: string)
    | List(elements: seq<Value>)
    | Map(items: seq<Item>)
    | Ref(reference: InstanceReference)

  datatype Field = Field(name: string, fieldType: Type, optional: bool)

  datatype Type =
    | NullType
    | BoolType
    | IntType
    | DoubleType
    | StringType
    | ListType(element: Type)
    | MapType(value: Type)
    | RecordType(fields: seq<Field>)
    | RefType(machine: Option<string>)
    | Dyn

  /** A double literal without magnitude is not finite. */
  datatype Literal =
    | NullLiteral
    | BoolLiteral(b: bool)
    | IntLiteral(i: Int64)
    | DoubleLiteral(magnitude: Option<Double>, negativeZero: bool)
    | StringLiteral(s: string)
    | OtherLiteral

  datatype Func =
    | Conditional | And | Or | Not | Negate
    | Add | Subtract | Multiply | Divide | Modulo
    | Equals | NotEquals | Greater | GreaterEquals | Less | LessEquals
    | In | Index | Size | ToDouble | ToInt | ToString
    | OtherFunc(name: string)

  datatype Entry =
    | MapEntry(key: Expr, value: Expr, optional: bool)
    | StructField(value: Expr)

  datatype Expr =
    | Lit(literal: Literal)
    | Ident(name: string)
    | ListExpr(elements: seq<Expr>)
    | MapExpr(entries: seq<Entry>)
    | Select(operand: Expr, field: string, test: bool)
    | Call(receiver: bool, func: Func, args: seq<Expr>)
    | Unsupported

  /** The operations on doubles, which only see magnitudes: the sign of zero never matters. */
  datatype Floats = Floats(
    binary: (Func, Double, Double) -> Option<Double>,
    negate: Double -> Double,
    less: (Double, Double) -> bool,
    fromInt: Int64 -> Double,
    toInt: Double -> Option<Int64>,
    show: Double -> string)

  type Environment = map<string, Value>

  type TypeEnvironment = map<string, Type>

  predicate Arithmetic(f: Func) {
    f.Add? || f.Subtract? || f.Multiply? || f.Divide? || f.Modulo?
  }

  predicate Ordering(f: Func) {
    f.Greater? || f.GreaterEquals? || f.Less? || f.LessEquals?
  }

  predicate Equality(f: Func) {
    f.Equals? || f.NotEquals?
  }

  // ------------------------------------------------------------------------------------------
  // Maps as ordered lists of items
  // ------------------------------------------------------------------------------------------

  /** The position of `key`, or the number of items. */
  function Position(items: seq<Item>, key: string): (i: nat)
    ensures i <= |items|
    ensures i < |items| ==> items[i].key == key
  {
    if items == [] then 0 else if items[0].key == key then 0 else 1 + Position(items[1..], key)
  }

  predicate HasKey(items: seq<Item>, key: string) {
    Position(items, key) < |items|
  }

  /** Puts or replaces the item of `key`, keeping key order. */
  function Put(items: seq<Item>, key: string, value: Value): seq<Item> {
    if items == [] then [Item(key, value)]
    else if items[0].key == key then [Item(key, value)] + items[1..]
    else if Numerals.Before(key, items[0].key) then [Item(key, value)] + items
    else [items[0]] + Put(items[1..], key, value)
  }

  // ------------------------------------------------------------------------------------------
  // Equality up to the sign of zero
  // ------------------------------------------------------------------------------------------

  /** The value with every zero positive. */
  function Canonical(v: Value): Value {
    match v
    case Float(magnitude, _) => Float(magnitude, false)
    case List(elements) => List(CanonicalAll(elements))
    case Map(items) => Map(CanonicalItems(items))
    case _ => v
  }

  function CanonicalAll(vs: seq<Value>): (r: seq<Value>)
    ensures |r| == |vs|
    ensures forall i :: 0 <= i < |vs| ==> r[i] == Canonical(vs[i])
  {
    if vs == [] then [] else [Canonical(vs[0])] + CanonicalAll(vs[1..])
  }

  function CanonicalItems(items: seq<Item>): (r: seq<Item>)
    ensures |r| == |items|
    ensures forall i :: 0 <= i < |items| ==> r[i] == Item(items[i].key, Canonical(items[i].value))
  {
    if items == [] then [] else [Item(items[0].key, Canonical(items[0].value))] + CanonicalItems(items[1..])
  }

  /** The program's equality: negative and positive zero are equal. */
  predicate Same(v: Value, w: Value) {
    Canonical(v) == Canonical(w)
  }

  function Number(magnitude: Double): Value {
    Float(magnitude, false)
  }
}
