/**
 The laws of CEL evaluation, stated for all expressions and environments and without the functions
 that compute them. By the agreement of both evaluators they hold of metered evaluation as well.
 */
module CelLaws {
  import opened Wrappers
  import Numerals
  import opened CelSyntax
  import opened CelEval

  function Binary(f: Func, x: Expr, y: Expr): Expr {
    Call(false, f, [x, y])
  }

  function Unary(f: Func, x: Expr): Expr {
    Call(false, f, [x])
  }

  // ------------------------------------------------------------------------------------------
  // Logic
  // ------------------------------------------------------------------------------------------

  /** False if a side is false, true if both are true, otherwise the fault of the first faulty side. */
  lemma AndLaw(fl: Floats, x: Expr, y: Expr, env: Environment)
    ensures var l, r, v := Eval(fl, x, env), Eval(fl, y, env), Eval(fl, Binary(And, x, y), env);
            && (v == Ok(Bool(false)) <==> l == Ok(Bool(false)) || r == Ok(Bool(false)))
            && (v == Ok(Bool(true)) <==> l == Ok(Bool(true)) && r == Ok(Bool(true)))
            && (v == Ok(Bool(false)) || v == Ok(Bool(true)) || v == (if l.Err? then l else if r.Err? then r else Err(Shape)))
  {
    assert [x, y][0] == x && [x, y][1] == y;
  }

  /** True if a side is true, false if both are false, otherwise the fault of the first faulty side. */
  lemma OrLaw(fl: Floats, x: Expr, y: Expr, env: Environment)
    ensures var l, r, v := Eval(fl, x, env), Eval(fl, y, env), Eval(fl, Binary(Or, x, y), env);
            && (v == Ok(Bool(true)) <==> l == Ok(Bool(true)) || r == Ok(Bool(true)))
            && (v == Ok(Bool(false)) <==> l == Ok(Bool(false)) && r == Ok(Bool(false)))
            && (v == Ok(Bool(true)) || v == Ok(Bool(false)) || v == (if l.Err? then l else if r.Err? then r else Err(Shape)))
  {
    assert [x, y][0] == x && [x, y][1] == y;
  }

  lemma NotLaw(fl: Floats, x: Expr, env: Environment)
    ensures var v, w := Eval(fl, x, env), Eval(fl, Unary(Not, x), env);
            && (w == Ok(Bool(true)) <==> v == Ok(Bool(false)))
            && (w == Ok(Bool(false)) <==> v == Ok(Bool(true)))
            && (w == Ok(Bool(true)) || w == Ok(Bool(false)) || w == (if v.Err? then v else Err(Shape)))
  {
    assert [x][0] == x;
  }

  /** A Boolean or a fault, as a well-typed Boolean expression yields it. */
  predicate Truth(r: Evaluation) {
    r.Err? || r.value.Bool?
  }

  /** Negation turns conjunction into disjunction, faults included. */
  lemma DeMorgan(fl: Floats, x: Expr, y: Expr, env: Environment)
    requires Truth(Eval(fl, x, env)) && Truth(Eval(fl, y, env))
    ensures Eval(fl, Unary(Not, Binary(And, x, y)), env) == Eval(fl, Binary(Or, Unary(Not, x), Unary(Not, y)), env)
    ensures Eval(fl, Unary(Not, Binary(Or, x, y)), env) == Eval(fl, Binary(And, Unary(Not, x), Unary(Not, y)), env)
  {
    hide Eval;
    AndLaw(fl, x, y, env);
    OrLaw(fl, x, y, env);
    NotLaw(fl, x, env);
    NotLaw(fl, y, env);
    NotLaw(fl, Binary(And, x, y), env);
    NotLaw(fl, Binary(Or, x, y), env);
    AndLaw(fl, Unary(Not, x), Unary(Not, y), env);
    OrLaw(fl, Unary(Not, x), Unary(Not, y), env);
  }

  /** A condition selects one branch and never touches the other. */
  lemma ConditionalLaw(fl: Floats, c: Expr, x: Expr, y: Expr, env: Environment)
    ensures var v, w := Eval(fl, c, env), Eval(fl, Call(false, Conditional, [c, x, y]), env);
            && (v == Ok(Bool(true)) ==> w == Eval(fl, x, env))
            && (v == Ok(Bool(false)) ==> w == Eval(fl, y, env))
            && (v != Ok(Bool(true)) && v != Ok(Bool(false)) ==> w == if v.Err? then v else Err(Shape))
  {
    assert [c, x, y][0] == c && [c, x, y][1] == x && [c, x, y][2] == y;
  }

  // ------------------------------------------------------------------------------------------
  // Strict operations
  // ------------------------------------------------------------------------------------------

  lemma StrictApart(f: Func)
    ensures Strict2(f) ==> !f.Conditional? && !f.And? && !f.Or? && !Strict1(f)
    ensures Strict1(f) ==> !f.Conditional? && !f.And? && !f.Or?
  {
  }

  /** What a binary operation makes of what its sides yield. */
  function Strictly(fl: Floats, f: Func, l: Evaluation, r: Evaluation): Evaluation {
    if l.Err? then l else if r.Err? then r else EvalBinary(fl, f, l.value, r.value)
  }

  lemma StrictCall(fl: Floats, f: Func, args: seq<Expr>, env: Environment)
    requires Strict2(f) && |args| == 2
    ensures Eval(fl, Call(false, f, args), env) == Strictly(fl, f, Eval(fl, args[0], env), Eval(fl, args[1], env))
  {
    hide EvalBinary, EvalUnary, EvalLogical, EvalAll, EvalEntries, EvalSelect, EvalLiteral, Strict1, Strict2;
    StrictApart(f);
  }

  /** Every other binary operation passes on the fault of its first faulty side. */
  lemma StrictLaw(fl: Floats, f: Func, x: Expr, y: Expr, env: Environment)
    requires Strict2(f)
    ensures var l, r, v := Eval(fl, x, env), Eval(fl, y, env), Eval(fl, Binary(f, x, y), env);
            && (l.Err? ==> v == l)
            && (l.Ok? && r.Err? ==> v == r)
            && (l.Ok? && r.Ok? ==> v == EvalBinary(fl, f, l.value, r.value))
  {
    hide Eval, EvalBinary, Strict2;
    StrictCall(fl, f, [x, y], env);
  }

  lemma StrictLaw1(fl: Floats, f: Func, x: Expr, env: Environment)
    requires Strict1(f)
    ensures var v, w := Eval(fl, x, env), Eval(fl, Unary(f, x), env);
            (v.Err? ==> w == v) && (v.Ok? ==> w == EvalUnary(fl, f, v.value))
  {
    hide EvalBinary, EvalUnary, EvalLogical, EvalAll, EvalEntries, EvalSelect, EvalLiteral, Strict1, Strict2;
    StrictApart(f);
    assert [x][0] == x;
  }

  /** The mathematical result, or overflow outside of 64 bits. */
  function Bounded(i: int): Evaluation {
    if -0x8000_0000_0000_0000 <= i <= 0x7fff_ffff_ffff_ffff then Ok(Int(i)) else Err(Overflow)
  }

  /** Sums, differences, products and negations of integers are exact or overflow. */
  lemma IntegerLaw(fl: Floats, x: Expr, y: Expr, env: Environment, a: Int64, b: Int64)
    requires Eval(fl, x, env) == Ok(Int(a)) && Eval(fl, y, env) == Ok(Int(b))
    ensures Eval(fl, Binary(Add, x, y), env) == Bounded(a + b)
    ensures Eval(fl, Binary(Subtract, x, y), env) == Bounded(a - b)
    ensures Eval(fl, Binary(Multiply, x, y), env) == Bounded(a * b)
    ensures Eval(fl, Unary(Negate, x), env) == Bounded(0 - a)
  {
    hide Eval;
    StrictLaw(fl, Add, x, y, env);
    StrictLaw(fl, Subtract, x, y, env);
    StrictLaw(fl, Multiply, x, y, env);
    StrictLaw1(fl, Negate, x, env);
  }

  /** Division toward zero: the remainder is smaller than the divisor and has the sign of the dividend. */
  predicate Divides(a: int, b: int, q: int, rem: int) {
    && a == b * q + rem
    && (if b < 0 then b < rem < -b else -b < rem < b)
    && (rem != 0 ==> (rem < 0 <==> a < 0))
  }

  lemma QuotientDivides(a: int, b: int)
    requires b != 0
    ensures Divides(a, b, Quotient(a, b), Remainder(a, b))
  {
    var m, d := if a < 0 then -a else a, if b < 0 then -b else b;
    var q := m / d;
    assert m == d * q + m % d && 0 <= m % d < d;
    if a < 0 && b < 0 {
      assert b * q == -(d * q);
    } else if a < 0 {
      assert b * (-q) == -(d * q);
    } else if b < 0 {
      assert b * (-q) == d * q;
    }
  }

  /** Quotient and remainder are determined by that. */
  lemma DividesOnce(a: int, b: int, q: int, rem: int, q': int, rem': int)
    requires b != 0 && Divides(a, b, q, rem) && Divides(a, b, q', rem')
    ensures q == q' && rem == rem'
  {
    var d := if b < 0 then -b else b;
    assert b * (q - q') == rem' - rem;
    assert -d < rem' - rem < d;
    if q != q' {
      SmallMultiple(b, q - q');
    }
  }

  lemma SmallMultiple(b: int, k: int)
    requires b != 0 && k != 0
    ensures var p, d := b * k, if b < 0 then -b else b; p >= d || p <= -d
  {
    if k > 0 && b > 0 {
      assert b * k >= b;
    } else if k > 0 {
      assert b * k <= b;
    } else if b > 0 {
      assert b * k <= -b;
    } else {
      assert b * k >= -b;
    }
  }

  /** Integer division and remainder, whatever pair divides; only the most negative number by -1 overflows. */
  lemma DivisionLaw(fl: Floats, x: Expr, y: Expr, env: Environment, a: Int64, b: Int64, q: int, rem: int)
    requires Eval(fl, x, env) == Ok(Int(a)) && Eval(fl, y, env) == Ok(Int(b))
    ensures b == 0 ==> Eval(fl, Binary(Divide, x, y), env) == Err(ZeroDivisor) && Eval(fl, Binary(Modulo, x, y), env) == Err(ZeroDivisor)
    ensures b != 0 && Divides(a, b, q, rem) ==>
              && Eval(fl, Binary(Divide, x, y), env) == Bounded(q)
              && Eval(fl, Binary(Modulo, x, y), env) == if Bounded(q).Err? then Err(Overflow) else Bounded(rem)
    ensures b != 0 && Divides(a, b, q, rem) ==>
              (Bounded(q).Err? <==> a == -0x8000_0000_0000_0000 && b == -1) && Bounded(rem).Ok?
  {
    hide Eval, Quotient, Remainder, Divides;
    StrictLaw(fl, Divide, x, y, env);
    StrictLaw(fl, Modulo, x, y, env);
    if b != 0 && Divides(a, b, q, rem) {
      QuotientDivides(a, b);
      DividesOnce(a, b, q, rem, Quotient(a, b), Remainder(a, b));
      QuotientRange(a, b, q, rem);
    }
  }

  lemma QuotientRange(a: int, b: int, q: int, rem: int)
    requires b != 0 && Divides(a, b, q, rem)
    requires -0x8000_0000_0000_0000 <= a <= 0x7fff_ffff_ffff_ffff && -0x8000_0000_0000_0000 <= b <= 0x7fff_ffff_ffff_ffff
    ensures Bounded(rem).Ok?
    ensures Bounded(q).Err? <==> a == -0x8000_0000_0000_0000 && b == -1
  {
    if b == -1 {
      assert rem == 0 && q == -a;
    } else if b == 1 {
      assert rem == 0 && q == a;
    } else {
      QuotientSmall(a, b, q, rem);
    }
  }

  lemma QuotientSmall(a: int, b: int, q: int, rem: int)
    requires Divides(a, b, q, rem) && (b >= 2 || b <= -2) && -0x8000_0000_0000_0000 <= a <= 0x7fff_ffff_ffff_ffff
    ensures -0x8000_0000_0000_0000 <= q <= 0x7fff_ffff_ffff_ffff
  {
    var d, m := if b < 0 then -b else b, if q < 0 then -q else q;
    var p := b * q;
    ProductSize(b, q);
    assert (if p < 0 then -p else p) == d * m;
    if m > 0 {
      AtLeastTwice(d, m);
      assert p == a - rem;
    }
  }

  lemma ProductSize(b: int, q: int)
    ensures var d, m, p := if b < 0 then -b else b, if q < 0 then -q else q, b * q; (if p < 0 then -p else p) == d * m
  {
    var d, m := if b < 0 then -b else b, if q < 0 then -q else q;
    assert d * m >= 0;
    if b < 0 && q < 0 {
      assert (-b) * (-q) == b * q;
    } else if b < 0 {
      assert (-b) * q == -(b * q);
    } else if q < 0 {
      assert b * (-q) == -(b * q);
    }
  }

  lemma AtLeastTwice(d: nat, m: nat)
    requires d >= 2 && m > 0
    ensures d * m >= 2 * m && d * m >= d
  {
    assert (d - 2) * m >= 0 && d * (m - 1) >= 0;
  }

  /** Strings and lists are joined, left first. */
  lemma ConcatLaw(fl: Floats, x: Expr, y: Expr, env: Environment, v: Value, w: Value)
    requires Eval(fl, x, env) == Ok(v) && Eval(fl, y, env) == Ok(w)
    ensures v.Str? && w.Str? ==> Eval(fl, Binary(Add, x, y), env) == Ok(Str(v.s + w.s))
    ensures v.List? && w.List? ==> Eval(fl, Binary(Add, x, y), env) == Ok(List(v.elements + w.elements))
  {
    hide Eval;
    StrictLaw(fl, Add, x, y, env);
  }

  /** Arithmetic on doubles is that of the doubles, of which only finite results count. */
  lemma FloatLaw(fl: Floats, f: Func, x: Expr, y: Expr, env: Environment, a: Double, b: Double, s: bool, t: bool)
    requires Arithmetic(f) && Eval(fl, x, env) == Ok(Float(a, s)) && Eval(fl, y, env) == Ok(Float(b, t))
    ensures var d := fl.binary(f, a, b); Eval(fl, Binary(f, x, y), env) == if d.Some? then Ok(Float(d.value, false)) else Err(NotFinite)
    ensures Eval(fl, Unary(Negate, x), env) == Ok(Float(fl.negate(a), false))
  {
    hide Eval;
    StrictLaw(fl, f, x, y, env);
    StrictLaw1(fl, Negate, x, env);
  }

  // ------------------------------------------------------------------------------------------
  // Comparison
  // ------------------------------------------------------------------------------------------

  /** At the first difference the smaller character decides; a proper prefix comes first. */
  ghost predicate Smaller(s: string, t: string) {
    exists k: nat :: k <= |s| && k < |t| && s[..k] == t[..k] && (k == |s| || s[k] < t[k])
  }

  lemma {:induction false} BeforeIff(s: string, t: string)
    ensures Numerals.Before(s, t) <==> Smaller(s, t)
  {
    if t != [] && s != [] {
      BeforeIff(s[1..], t[1..]);
      if s[0] == t[0] && Smaller(s[1..], t[1..]) {
        var k: nat :| k <= |s[1..]| && k < |t[1..]| && s[1..][..k] == t[1..][..k] && (k == |s[1..]| || s[1..][k] < t[1..][k]);
        assert s[..k + 1] == [s[0]] + s[1..][..k] && t[..k + 1] == [t[0]] + t[1..][..k];
      }
      if Smaller(s, t) {
        var k: nat :| k <= |s| && k < |t| && s[..k] == t[..k] && (k == |s| || s[k] < t[k]);
        if k > 0 {
          assert s[0] == s[..k][0] == t[..k][0] == t[0];
          assert s[1..][..k - 1] == s[..k][1..] && t[1..][..k - 1] == t[..k][1..];
        }
      }
      if s[0] < t[0] {
        assert s[..0] == t[..0];
      }
    } else if t != [] {
      assert s[..0] == t[..0];
    }
  }

  /** `v` is less than `w` in the order of their type. */
  ghost predicate LessThan(fl: Floats, v: Value, w: Value) {
    || (v.Int? && w.Int? && v.i < w.i)
    || (v.Float? && w.Float? && fl.less(v.magnitude, w.magnitude))
    || (v.Str? && w.Str? && Smaller(v.s, w.s))
  }

  predicate SameOrdered(v: Value, w: Value) {
    (v.Int? && w.Int?) || (v.Float? && w.Float?) || (v.Str? && w.Str?)
  }

  /** The four orderings are the order of integers, of doubles and of texts. */
  lemma OrderingLaw(fl: Floats, x: Expr, y: Expr, env: Environment, v: Value, w: Value)
    requires Eval(fl, x, env) == Ok(v) && Eval(fl, y, env) == Ok(w) && SameOrdered(v, w)
    ensures Eval(fl, Binary(Less, x, y), env) == Ok(Bool(LessThan(fl, v, w)))
    ensures Eval(fl, Binary(Greater, x, y), env) == Ok(Bool(LessThan(fl, w, v)))
    ensures Eval(fl, Binary(LessEquals, x, y), env) == Ok(Bool(!LessThan(fl, w, v)))
    ensures Eval(fl, Binary(GreaterEquals, x, y), env) == Ok(Bool(!LessThan(fl, v, w)))
  {
    hide Eval, Numerals.Before, Smaller;
    StrictLaw(fl, Less, x, y, env);
    StrictLaw(fl, Greater, x, y, env);
    StrictLaw(fl, LessEquals, x, y, env);
    StrictLaw(fl, GreaterEquals, x, y, env);
    if v.Str? {
      BeforeIff(v.s, w.s);
      BeforeIff(w.s, v.s);
    }
  }

  /** Equality of values, where the sign of zero does not matter. */
  ghost predicate Equal(v: Value, w: Value)
    decreases v
  {
    match v
    case Float(magnitude, _) => w.Float? && w.magnitude == magnitude
    case List(elements) =>
      w.List? && |elements| == |w.elements| && forall i :: 0 <= i < |elements| ==> Equal(elements[i], w.elements[i])
    case Map(items) => w.Map? && |items| == |w.items| && forall i :: 0 <= i < |items| ==> EqualItem(items[i], w.items[i])
    case _ => v == w
  }

  ghost predicate EqualItem(a: Item, b: Item)
    decreases a
  {
    a.key == b.key && Equal(a.value, b.value)
  }

  lemma {:induction false} SameIff(v: Value, w: Value)
    ensures Same(v, w) <==> Equal(v, w)
    decreases v
  {
    match v
    case List(elements) =>
      if w.List? && |elements| == |w.elements| {
        forall i | 0 <= i < |elements| ensures Same(elements[i], w.elements[i]) <==> Equal(elements[i], w.elements[i]) {
          SameIff(elements[i], w.elements[i]);
        }
        var c, d := CanonicalAll(elements), CanonicalAll(w.elements);
        if Equal(v, w) {
          assert forall i :: 0 <= i < |elements| ==> c[i] == d[i];
          assert c == d;
        }
        if Same(v, w) {
          forall i | 0 <= i < |elements| ensures Equal(elements[i], w.elements[i]) {
            assert c[i] == d[i];
          }
        }
      } else if w.List? {
        assert |CanonicalAll(elements)| != |CanonicalAll(w.elements)|;
      }
    case Map(items) =>
      if w.Map? && |items| == |w.items| {
        forall i | 0 <= i < |items| ensures EqualItem(items[i], w.items[i]) <==> CanonicalItems(items)[i] == CanonicalItems(w.items)[i] {
          SameItemIff(items[i], w.items[i]);
        }
        var c, d := CanonicalItems(items), CanonicalItems(w.items);
        if Equal(v, w) {
          assert forall i :: 0 <= i < |items| ==> c[i] == d[i];
          assert c == d;
        }
        if Same(v, w) {
          forall i | 0 <= i < |items| ensures EqualItem(items[i], w.items[i]) {
            assert c[i] == d[i];
          }
        }
      } else if w.Map? {
        assert |CanonicalItems(items)| != |CanonicalItems(w.items)|;
      }
    case _ =>
  }

  lemma {:induction false} SameItemIff(a: Item, b: Item)
    ensures EqualItem(a, b) <==> Item(a.key, Canonical(a.value)) == Item(b.key, Canonical(b.value))
    decreases a
  {
    SameIff(a.value, b.value);
  }

  /** `==` is equality of values and `!=` its opposite. */
  lemma EqualityLaw(fl: Floats, x: Expr, y: Expr, env: Environment, v: Value, w: Value)
    requires Eval(fl, x, env) == Ok(v) && Eval(fl, y, env) == Ok(w)
    ensures Eval(fl, Binary(Equals, x, y), env) == Ok(Bool(Equal(v, w)))
    ensures Eval(fl, Binary(NotEquals, x, y), env) == Ok(Bool(!Equal(v, w)))
  {
    hide Eval, Equal, Same;
    StrictLaw(fl, Equals, x, y, env);
    StrictLaw(fl, NotEquals, x, y, env);
    SameIff(v, w);
  }

  // ------------------------------------------------------------------------------------------
  // Containers
  // ------------------------------------------------------------------------------------------

  /** Item `i` is the first one with the key. */
  ghost predicate FirstAt(items: seq<Item>, key: string, i: nat) {
    i < |items| && items[i].key == key && forall j :: 0 <= j < i ==> items[j].key != key
  }

  lemma {:induction false} PositionIff(items: seq<Item>, key: string)
    ensures HasKey(items, key) <==> exists i :: 0 <= i < |items| && items[i].key == key
    ensures HasKey(items, key) ==> FirstAt(items, key, Position(items, key))
  {
    if items != [] {
      var rest := items[1..];
      PositionIff(rest, key);
      assert forall j :: 0 <= j < |rest| ==> rest[j] == items[j + 1];
      if i :| 0 <= i < |items| && items[i].key == key {
        assert i > 0 ==> rest[i - 1].key == key;
      }
      if HasKey(items, key) && items[0].key != key {
        var p := Position(rest, key);
        assert items[1 + p] == rest[p];
        forall j | 0 <= j < 1 + p ensures items[j].key != key {
          assert j > 0 ==> items[j] == rest[j - 1];
        }
      }
    }
  }

  lemma FirstOnce(items: seq<Item>, key: string)
    ensures forall i: nat :: FirstAt(items, key, i) ==> HasKey(items, key) && i == Position(items, key)
  {
    forall i: nat | FirstAt(items, key, i) ensures HasKey(items, key) && i == Position(items, key) {
      PositionIff(items, key);
      var p := Position(items, key);
      assert !(p < i) && !(i < p);
    }
  }

  /** Membership in a list is by equality, in a map by key. */
  lemma InLaw(fl: Floats, x: Expr, y: Expr, env: Environment, v: Value, w: Value)
    requires Eval(fl, x, env) == Ok(v) && Eval(fl, y, env) == Ok(w)
    ensures w.List? ==>
              Eval(fl, Binary(In, x, y), env) == Ok(Bool(exists i :: 0 <= i < |w.elements| && Equal(w.elements[i], v)))
    ensures w.Map? && v.Str? ==>
              Eval(fl, Binary(In, x, y), env) == Ok(Bool(exists i :: 0 <= i < |w.items| && w.items[i].key == v.s))
    ensures !w.List? && !(w.Map? && v.Str?) ==> Eval(fl, Binary(In, x, y), env) == Err(Shape)
  {
    hide Eval, Equal, Same, HasKey;
    StrictLaw(fl, In, x, y, env);
    if w.List? {
      forall i | 0 <= i < |w.elements| ensures Same(w.elements[i], v) <==> Equal(w.elements[i], v) {
        SameIff(w.elements[i], v);
      }
    } else if w.Map? && v.Str? {
      PositionIff(w.items, v.s);
    }
  }

  /** Indexing a list counts from zero and refuses everything else; indexing a map finds the item of the key. */
  lemma IndexLaw(fl: Floats, x: Expr, y: Expr, env: Environment, v: Value, w: Value)
    requires Eval(fl, x, env) == Ok(v) && Eval(fl, y, env) == Ok(w)
    ensures v.List? && w.Int? ==>
              Eval(fl, Binary(Index, x, y), env) == if 0 <= w.i < |v.elements| then Ok(v.elements[w.i]) else Err(IndexRange)
    ensures v.Map? && w.Str? ==>
              && (forall i: nat :: FirstAt(v.items, w.s, i) ==> Eval(fl, Binary(Index, x, y), env) == Ok(v.items[i].value))
              && ((forall i :: 0 <= i < |v.items| ==> v.items[i].key != w.s) ==> Eval(fl, Binary(Index, x, y), env) == Err(MissingKey))
    ensures !(v.List? && w.Int?) && !(v.Map? && w.Str?) ==> Eval(fl, Binary(Index, x, y), env) == Err(Shape)
  {
    hide Eval, HasKey;
    StrictLaw(fl, Index, x, y, env);
    if v.Map? && w.Str? {
      PositionIff(v.items, w.s);
      FirstOnce(v.items, w.s);
    }
  }

  /** Selecting a field finds the item of that name; the test asks for it. */
  lemma SelectLaw(fl: Floats, x: Expr, field: string, env: Environment)
    ensures var v, w, t := Eval(fl, x, env), Eval(fl, Select(x, field, false), env), Eval(fl, Select(x, field, true), env);
            && (v.Err? ==> w == v && t == v)
            && (v.Ok? && !v.value.Map? ==> w == Err(Shape) && t == Err(Shape))
            && (v.Ok? && v.value.Map? ==>
                  && t == Ok(Bool(exists i :: 0 <= i < |v.value.items| && v.value.items[i].key == field))
                  && (forall i: nat :: FirstAt(v.value.items, field, i) ==> w == Ok(v.value.items[i].value))
                  && ((forall i :: 0 <= i < |v.value.items| ==> v.value.items[i].key != field) ==> w == Err(MissingField)))
  {
    hide HasKey;
    var v := Eval(fl, x, env);
    if v.Ok? && v.value.Map? {
      PositionIff(v.value.items, field);
      FirstOnce(v.value.items, field);
    }
  }

  /** The size is the number of characters, elements or items. */
  lemma SizeLaw(fl: Floats, x: Expr, env: Environment, v: Value)
    requires Eval(fl, x, env) == Ok(v) && (v.Str? || v.List? || v.Map?)
    ensures var n := match v case Str(s) => |s| case List(elements) => |elements| case Map(items) => |items| case _ => 0;
            Eval(fl, Unary(Size, x), env) == if n <= 0x7fff_ffff_ffff_ffff then Ok(Int(n)) else Err(SizeRange)
  {
    hide Eval;
    StrictLaw1(fl, Size, x, env);
  }

  /** A list holds the values of its elements in order; the first fault is the fault of the list. */
  lemma {:induction false} ListLaw(fl: Floats, es: seq<Expr>, env: Environment)
    ensures var r := EvalAll(fl, es, env);
            && (r.Ok? <==> forall i :: 0 <= i < |es| ==> Eval(fl, es[i], env).Ok?)
            && (r.Ok? ==> |r.value| == |es| && forall i :: 0 <= i < |es| ==> Eval(fl, es[i], env) == Ok(r.value[i]))
            && (r.Err? ==> exists i :: 0 <= i < |es| && FirstFault(fl, es, env, i) && Eval(fl, es[i], env) == Err(r.error))
    ensures Eval(fl, ListExpr(es), env) == if EvalAll(fl, es, env).Ok? then Ok(List(EvalAll(fl, es, env).value)) else Err(EvalAll(fl, es, env).error)
  {
    if es != [] {
      var rest := es[1..];
      ListLaw(fl, rest, env);
      assert forall i :: 0 <= i < |rest| ==> rest[i] == es[i + 1];
      var r, s := EvalAll(fl, es, env), EvalAll(fl, rest, env);
      if Eval(fl, es[0], env).Err? {
        assert FirstFault(fl, es, env, 0);
      } else if s.Err? {
        var i :| 0 <= i < |rest| && FirstFault(fl, rest, env, i) && Eval(fl, rest[i], env) == Err(s.error);
        forall j | 0 <= j < i + 1 ensures Eval(fl, es[j], env).Ok? {
          assert j > 0 ==> es[j] == rest[j - 1];
        }
        assert FirstFault(fl, es, env, i + 1) && Eval(fl, es[i + 1], env) == Err(s.error);
      } else {
        forall i | 0 <= i < |es| ensures Eval(fl, es[i], env) == Ok(r.value[i]) {
          assert i > 0 ==> es[i] == rest[i - 1];
        }
      }
    }
  }

  ghost predicate FirstFault(fl: Floats, es: seq<Expr>, env: Environment, i: nat) {
    i < |es| && Eval(fl, es[i], env).Err? && forall j :: 0 <= j < i ==> Eval(fl, es[j], env).Ok?
  }

  // ------------------------------------------------------------------------------------------
  // Map literals
  // ------------------------------------------------------------------------------------------

  predicate KeysInOrder(items: seq<Item>) {
    forall i, j :: 0 <= i < j < |items| ==> Numerals.Before(items[i].key, items[j].key)
  }

  /** The item of `key` holds `v`. */
  predicate Holds(items: seq<Item>, key: string, v: Value) {
    exists i :: 0 <= i < |items| && items[i] == Item(key, v)
  }

  lemma {:induction false} BeforeTransitive(s: string, t: string, u: string)
    requires Numerals.Before(s, t) && Numerals.Before(t, u)
    ensures Numerals.Before(s, u)
  {
    if s != [] && s[0] == t[0] && t[0] == u[0] {
      BeforeTransitive(s[1..], t[1..], u[1..]);
    }
  }

  /** Every key of `items` is `key` or a key of `of`. */
  predicate KeysFrom(items: seq<Item>, key: string, of: seq<Item>) {
    forall i :: 0 <= i < |items| ==> items[i].key == key || HasKey(of, items[i].key)
  }

  predicate AllAfter(first: string, items: seq<Item>) {
    forall i :: 0 <= i < |items| ==> Numerals.Before(first, items[i].key)
  }

  lemma OrderedFirst(first: Item, rest: seq<Item>)
    ensures KeysInOrder([first] + rest) <==> KeysInOrder(rest) && AllAfter(first.key, rest)
  {
    hide Numerals.Before;
    var all := [first] + rest;
    assert forall j :: 0 <= j < |rest| ==> rest[j] == all[j + 1];
    if KeysInOrder(all) {
      forall j | 0 <= j < |rest| ensures Numerals.Before(first.key, rest[j].key) {
        assert Numerals.Before(all[0].key, all[j + 1].key);
      }
      forall i, j | 0 <= i < j < |rest| ensures Numerals.Before(rest[i].key, rest[j].key) {
        assert Numerals.Before(all[i + 1].key, all[j + 1].key);
      }
    }
    if KeysInOrder(rest) && AllAfter(first.key, rest) {
      forall i, j | 0 <= i < j < |all| ensures Numerals.Before(all[i].key, all[j].key) {
        assert all[j] == rest[j - 1];
        assert i > 0 ==> all[i] == rest[i - 1];
      }
    }
  }

  /** Putting an item only adds its key. */
  lemma {:induction false} PutKeys(items: seq<Item>, key: string, v: Value)
    ensures KeysFrom(Put(items, key, v), key, items)
  {
    hide Numerals.Before, HasKey;
    var put := Put(items, key, v);
    forall i | 0 <= i < |put| ensures put[i].key == key || HasKey(items, put[i].key) {
      PositionIff(items, put[i].key);
      if items != [] && items[0].key != key && !Numerals.Before(key, items[0].key) {
        PutKeys(items[1..], key, v);
        if i > 0 && put[i].key != key {
          assert put[i] == Put(items[1..], key, v)[i - 1];
          PositionIff(items[1..], put[i].key);
          var j :| 0 <= j < |items[1..]| && items[1..][j].key == put[i].key;
          assert items[j + 1].key == put[i].key;
        }
      } else if i > 0 && items != [] {
        assert put[i] == if items[0].key == key then items[i] else items[i - 1];
      }
    }
  }

  /** Putting an item keeps the order. */
  lemma {:induction false} PutOrdered(items: seq<Item>, key: string, v: Value)
    requires KeysInOrder(items)
    ensures KeysInOrder(Put(items, key, v))
  {
    hide Numerals.Before, KeysInOrder;
    if items == [] {
      OrderedFirst(Item(key, v), []);
      assert Put(items, key, v) == [Item(key, v)] + [];
      EmptyOrdered();
    } else {
      var rest := items[1..];
      assert items == [items[0]] + rest;
      OrderedFirst(items[0], rest);
      if items[0].key == key {
        OrderedFirst(Item(key, v), rest);
      } else if Numerals.Before(key, items[0].key) {
        OrderedFirst(Item(key, v), items);
        forall j | 0 <= j < |items| ensures Numerals.Before(key, items[j].key) {
          if j > 0 {
            assert items[j] == rest[j - 1];
            BeforeTransitive(key, items[0].key, items[j].key);
          }
        }
      } else {
        PutOrdered(rest, key, v);
        PutKeys(rest, key, v);
        Numerals.Comparable(items[0].key, key);
        var more := Put(rest, key, v);
        forall i | 0 <= i < |more| ensures Numerals.Before(items[0].key, more[i].key) {
          PositionIff(rest, more[i].key);
        }
        OrderedFirst(items[0], more);
      }
    }
  }

  lemma EmptyOrdered()
    ensures KeysInOrder([])
  {
  }

  /** Putting an item replaces what its key held and leaves all other keys. */
  lemma {:induction false} PutHolds(items: seq<Item>, key: string, v: Value)
    ensures Holds(Put(items, key, v), key, v)
    ensures forall k, w :: k != key ==> (Holds(Put(items, key, v), k, w) <==> Holds(items, k, w))
  {
    hide Numerals.Before, Holds;
    if items == [] {
      HoldsFirst(Item(key, v), []);
      assert Put(items, key, v) == [Item(key, v)] + [];
    } else {
      var rest := items[1..];
      assert items == [items[0]] + rest;
      HoldsFirst(items[0], rest);
      if items[0].key == key {
        HoldsFirst(Item(key, v), rest);
      } else if Numerals.Before(key, items[0].key) {
        HoldsFirst(Item(key, v), items);
      } else {
        PutHolds(rest, key, v);
        HoldsFirst(items[0], Put(rest, key, v));
      }
    }
  }

  lemma HoldsFirst(first: Item, rest: seq<Item>)
    ensures forall k, w :: Holds([first] + rest, k, w) <==> first == Item(k, w) || Holds(rest, k, w)
  {
    forall k, w ensures Holds([first] + rest, k, w) <==> first == Item(k, w) || Holds(rest, k, w) {
      if j :| 0 <= j < |rest| && rest[j] == Item(k, w) {
        assert ([first] + rest)[j + 1] == Item(k, w);
      }
      assert ([first] + rest)[0] == first;
      if i :| 0 <= i < |[first] + rest| && ([first] + rest)[i] == Item(k, w) {
        assert i > 0 ==> rest[i - 1] == Item(k, w);
      }
    }
  }

  /** Entry `i` is the last one with its key. */
  predicate LastOfKey(es: seq<Entry>, i: nat) {
    && i < |es| && LiteralKey(es[i])
    && forall j :: i < j < |es| && LiteralKey(es[j]) ==> es[j].key.literal.s != es[i].key.literal.s
  }

  /** No entry has the key. */
  predicate Unnamed(es: seq<Entry>, key: string) {
    forall i: nat :: i < |es| && LiteralKey(es[i]) ==> es[i].key.literal.s != key
  }

  lemma UnnamedRest(es: seq<Entry>, key: string)
    requires es != [] && Unnamed(es, key)
    ensures Unnamed(es[1..], key)
  {
    assert forall j: nat :: j < |es[1..]| ==> es[1..][j] == es[j + 1];
  }

  lemma LastRest(es: seq<Entry>, i: nat)
    requires LastOfKey(es, i)
    ensures i > 0 ==> es[1..][i - 1] == es[i] && LastOfKey(es[1..], i - 1)
    ensures i == 0 ==> Unnamed(es[1..], es[0].key.literal.s)
  {
    assert forall j: nat :: j < |es[1..]| ==> es[1..][j] == es[j + 1];
  }

  /** A map literal needs literal keys and values without fault, and is ordered by key. */
  lemma {:induction false} EntriesOrdered(fl: Floats, es: seq<Entry>, env: Environment, items: seq<Item>)
    requires KeysInOrder(items) && EvalEntries(fl, es, env, items).Ok?
    ensures KeysInOrder(EvalEntries(fl, es, env, items).value)
    ensures forall i: nat :: i < |es| ==> LiteralKey(es[i]) && Eval(fl, es[i].value, env).Ok?
    decreases es
  {
    hide Numerals.Before, KeysInOrder, Eval;
    if es != [] {
      var rest, key, v := es[1..], es[0].key.literal.s, EvalEntry(fl, es[0], env).value;
      PutOrdered(items, key, v);
      EntriesOrdered(fl, rest, env, Put(items, key, v));
      forall i: nat | i < |es| ensures LiteralKey(es[i]) && Eval(fl, es[i].value, env).Ok? {
        assert i > 0 ==> es[i] == rest[i - 1];
      }
    }
  }

  /** Keys without an entry keep what `items` held. */
  lemma {:induction false} EntriesKeep(fl: Floats, es: seq<Entry>, env: Environment, items: seq<Item>, key: string, w: Value)
    requires EvalEntries(fl, es, env, items).Ok? && Unnamed(es, key)
    ensures Holds(EvalEntries(fl, es, env, items).value, key, w) <==> Holds(items, key, w)
    decreases es
  {
    hide Holds, Eval, Put;
    if es != [] {
      var v := EvalEntry(fl, es[0], env).value;
      assert es[0].key.literal.s != key;
      PutHolds(items, es[0].key.literal.s, v);
      UnnamedRest(es, key);
      EntriesKeep(fl, es[1..], env, Put(items, es[0].key.literal.s, v), key, w);
    }
  }

  /** Under each key the literal holds the value of the last entry with that key. */
  lemma {:induction false} EntriesHold(fl: Floats, es: seq<Entry>, env: Environment, items: seq<Item>, i: nat)
    requires EvalEntries(fl, es, env, items).Ok? && LastOfKey(es, i)
    ensures Eval(fl, es[i].value, env).Ok?
    ensures Holds(EvalEntries(fl, es, env, items).value, es[i].key.literal.s, Eval(fl, es[i].value, env).value)
    decreases es
  {
    hide Holds, Eval, Put, Unnamed;
    var key, v := es[0].key.literal.s, EvalEntry(fl, es[0], env).value;
    LastRest(es, i);
    if i > 0 {
      EntriesHold(fl, es[1..], env, Put(items, key, v), i - 1);
    } else {
      PutHolds(items, key, v);
      EntriesKeep(fl, es[1..], env, Put(items, key, v), key, v);
    }
  }

  /** A map literal is ordered by key and holds, under the keys of its entries alone, the value of the last entry with that key. */
  lemma MapLaw(fl: Floats, es: seq<Entry>, env: Environment)
    requires Eval(fl, MapExpr(es), env).Ok?
    ensures var r := Eval(fl, MapExpr(es), env).value;
            && r.Map? && KeysInOrder(r.items)
            && (forall i: nat :: i < |es| ==> LiteralKey(es[i]) && Eval(fl, es[i].value, env).Ok?)
            && (forall i: nat :: LastOfKey(es, i) ==> Eval(fl, es[i].value, env).Ok? && Holds(r.items, es[i].key.literal.s, Eval(fl, es[i].value, env).value))
            && (forall key, w :: Unnamed(es, key) ==> !Holds(r.items, key, w))
  {
    hide Numerals.Before, KeysInOrder, Holds, Unnamed, EvalEntries;
    EmptyOrdered();
    EntriesOrdered(fl, es, env, []);
    forall i: nat | LastOfKey(es, i) ensures Eval(fl, es[i].value, env).Ok? && Holds(EvalEntries(fl, es, env, []).value, es[i].key.literal.s, Eval(fl, es[i].value, env).value) {
      EntriesHold(fl, es, env, [], i);
    }
    forall key, w | Unnamed(es, key) ensures !Holds(EvalEntries(fl, es, env, []).value, key, w) {
      EntriesKeep(fl, es, env, [], key, w);
      HoldsNothing(key, w);
    }
  }

  lemma HoldsNothing(key: string, w: Value)
    ensures !Holds([], key, w)
  {
  }

  // ------------------------------------------------------------------------------------------
  // Leaves and conversions
  // ------------------------------------------------------------------------------------------

  lemma LeafLaw(fl: Floats, name: string, b: bool, i: Int64, s: string, d: Double, negative: bool, env: Environment)
    ensures Eval(fl, Ident(name), env) == if name in env then Ok(env[name]) else Err(UnknownName)
    ensures Eval(fl, Lit(NullLiteral), env) == Ok(Null) && Eval(fl, Lit(BoolLiteral(b)), env) == Ok(Bool(b))
    ensures Eval(fl, Lit(IntLiteral(i)), env) == Ok(Int(i)) && Eval(fl, Lit(StringLiteral(s)), env) == Ok(Str(s))
    ensures Eval(fl, Lit(DoubleLiteral(Some(d), negative)), env) == Ok(Float(d, false))
    ensures Eval(fl, Lit(DoubleLiteral(None, negative)), env) == Err(NotFinite)
  {
  }

  /** The decimal text of an integer means that integer; texts stay what they are; doubles convert as doubles do. */
  lemma ConversionLaw(fl: Floats, x: Expr, env: Environment, v: Value)
    requires Eval(fl, x, env) == Ok(v)
    ensures v.Int? ==> Eval(fl, Unary(ToDouble, x), env) == Ok(Float(fl.fromInt(v.i), false))
    ensures v.Float? ==>
              var i := fl.toInt(v.magnitude); Eval(fl, Unary(ToInt, x), env) == if i.Some? then Ok(Int(i.value)) else Err(ConversionDomain)
    ensures v.Float? ==> Eval(fl, Unary(ToString, x), env) == Ok(Str(if v.magnitude.Zero? then "0" else fl.show(v.magnitude)))
    ensures v.Str? ==> Eval(fl, Unary(ToString, x), env) == Ok(v)
    ensures v.Bool? ==> Eval(fl, Unary(ToString, x), env) == Ok(Str(if v.b then "true" else "false"))
    ensures v.Int? ==>
              var t := Eval(fl, Unary(ToString, x), env);
              && t.Ok? && t.value.Str?
              && (if v.i < 0 then
                    t.value.s != [] && t.value.s[0] == '-' && Numerals.Canonical(t.value.s[1..]) && Numerals.Value(t.value.s[1..], 10) == Some(0 - v.i)
                  else Numerals.Canonical(t.value.s) && Numerals.Value(t.value.s, 10) == Some(v.i))
  {
    hide Eval, Numerals.Print, Numerals.Value, Numerals.Canonical;
    StrictLaw1(fl, ToString, x, env);
    StrictLaw1(fl, ToDouble, x, env);
    StrictLaw1(fl, ToInt, x, env);
    if v.Int? {
      var n: nat := if v.i < 0 then 0 - v.i else v.i;
      Numerals.PrintIsCanonical(n);
      Numerals.PrintThenParse(n, 10);
      assert v.i < 0 ==> Numerals.PrintInteger(v.i)[1..] == Numerals.Print(n, 10);
    }
  }
}
