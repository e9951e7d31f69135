/** Numerals in a base: printing, parsing, and the ordering of canonical decimals of any length. */
module Numerals {
  import opened Wrappers

  /** Code point order, which is the order of UTF-8 bytes. */
  predicate Before(s: string, t: string) {
    t != [] && (s == [] || s[0] < t[0] || (s[0] == t[0] && Before(s[1..], t[1..])))
  }

  lemma {:induction false} Asymmetric(s: string, t: string)
    requires Before(s, t)
    ensures !Before(t, s)
  {
    if s != [] && s[0] == t[0] {
      Asymmetric(s[1..], t[1..]);
    }
  }

  lemma {:induction false} Comparable(s: string, t: string)
    ensures Before(s, t) || Before(t, s) || s == t
  {
    if s != [] && t != [] && s[0] == t[0] {
      Comparable(s[1..], t[1..]);
      assert s == [s[0]] + s[1..] && t == [t[0]] + t[1..];
    }
  }

  /** If `t` is not before `s` and `u` not before `t`, then `u` is not before `s`. */
  lemma {:induction false} NotBeforeTransitive(s: string, t: string, u: string)
    requires !Before(t, s) && !Before(u, t)
    ensures !Before(u, s)
  {
    if s != [] && t != [] && u != [] && s[0] == t[0] && t[0] == u[0] {
      NotBeforeTransitive(s[1..], t[1..], u[1..]);
    }
  }

  predicate Base(b: nat) {
    b == 10 || b == 16
  }

  function DigitChar(d: nat): char
    requires d < 16
  {
    "0123456789abcdef"[d]
  }

  /** The value of a digit; upper case is accepted above nine. */
  function DigitValue(c: char): Option<nat> {
    if '0' <= c <= '9' then Some(c as nat - '0' as nat)
    else if 'a' <= c <= 'f' then Some(c as nat - 'a' as nat + 10)
    else if 'A' <= c <= 'F' then Some(c as nat - 'A' as nat + 10)
    else None
  }

  predicate IsDigit(c: char, b: nat) {
    DigitValue(c).Some? && DigitValue(c).value < b
  }

  function Print(n: nat, b: nat): string
    requires Base(b)
  {
    if n < b then [DigitChar(n)] else Print(n / b, b) + [DigitChar(n % b)]
  }

  /** The value of a string of digits; the empty string has value zero. */
  function Value(s: string, b: nat): Option<nat>
    requires Base(b)
  {
    if s == [] then Some(0)
    else
      var rest, d := Value(s[..|s| - 1], b), s[|s| - 1];
      if rest.None? || !IsDigit(d, b) then None else Some(rest.value * b + DigitValue(d).value)
  }

  function Parse(s: string, b: nat): Option<nat>
    requires Base(b)
  {
    if s == [] then None else Value(s, b)
  }

  /** Decimal text with a minus sign for negative numbers. */
  function PrintInteger(i: int): string {
    if i < 0 then "-" + Print(-i, 10) else Print(i, 10)
  }

  lemma DigitRoundTrip(d: nat)
    requires d < 16
    ensures DigitValue(DigitChar(d)) == Some(d)
  {
  }

  lemma ValueSnoc(s: string, c: char, b: nat)
    requires Base(b)
    ensures Value(s + [c], b) ==
              if Value(s, b).None? || !IsDigit(c, b) then None else Some(Value(s, b).value * b + DigitValue(c).value)
  {
    assert (s + [c])[..|s + [c]| - 1] == s;
  }

  lemma DivMod(n: nat, b: nat)
    requires Base(b)
    ensures (n / b) * b + n % b == n && n % b < b && (n >= b ==> n / b < n)
  {
  }

  lemma MulDiv(v: nat, d: nat)
    requires d < 10
    ensures (v * 10 + d) / 10 == v && (v * 10 + d) % 10 == d
  {
  }

  /** What is printed parses back to the number. */
  lemma {:induction false} PrintThenParse(n: nat, b: nat)
    requires Base(b)
    ensures Print(n, b) != [] && Value(Print(n, b), b) == Some(n) && Parse(Print(n, b), b) == Some(n)
  {
    hide Value, DigitChar, DigitValue;
    DivMod(n, b);
    if n < b {
      DigitRoundTrip(n);
      ValueSnoc([], DigitChar(n), b);
      NoDigits(b);
      assert [] + [DigitChar(n)] == [DigitChar(n)];
    } else {
      PrintThenParse(n / b, b);
      DigitRoundTrip(n % b);
      ValueSnoc(Print(n / b, b), DigitChar(n % b), b);
    }
  }

  lemma NoDigits(b: nat)
    requires Base(b)
    ensures Value([], b) == Some(0)
  {
  }

  // ------------------------------------------------------------------------------------------
  // Canonical decimals
  // ------------------------------------------------------------------------------------------

  predicate AllDigits(s: string) {
    forall i :: 0 <= i < |s| ==> '0' <= s[i] <= '9'
  }

  /** Zero, or digits that do not start with a zero. */
  predicate Canonical(s: string) {
    s == "0" || (s != [] && s[0] != '0' && AllDigits(s))
  }

  lemma {:induction false} DigitsHaveValue(s: string)
    requires AllDigits(s)
    ensures Value(s, 10).Some?
  {
    if s != [] {
      DigitsHaveValue(s[..|s| - 1]);
    }
  }

  lemma {:induction false} PrintIsCanonical(n: nat)
    ensures Canonical(Print(n, 10))
    ensures n > 0 ==> Print(n, 10)[0] != '0'
  {
    if n >= 10 {
      PrintIsCanonical(n / 10);
      assert Print(n, 10)[0] == Print(n / 10, 10)[0];
    }
  }

  /** What canonical text means prints back to the text. */
  lemma {:induction false} ParseThenPrint(s: string)
    requires Canonical(s)
    ensures Value(s, 10).Some? && Print(Value(s, 10).value, 10) == s
    ensures s[0] != '0' ==> Value(s, 10).value > 0
  {
    hide Value, Print, DigitChar;
    DigitsHaveValue(s);
    var init, d := s[..|s| - 1], s[|s| - 1];
    assert s == init + [d];
    ValueSnoc(init, d, 10);
    DigitPrinted(d);
    if init == [] {
      NoDigits(10);
      PrintOne(DigitValue(d).value);
    } else {
      assert init[0] == s[0];
      ParseThenPrint(init);
      var v := Value(init, 10).value;
      MulDiv(v, DigitValue(d).value);
      PrintMore(v * 10 + DigitValue(d).value);
    }
  }

  lemma DigitPrinted(c: char)
    requires '0' <= c <= '9'
    ensures DigitValue(c).Some? && DigitValue(c).value < 10 && DigitChar(DigitValue(c).value) == c
    ensures c != '0' ==> DigitValue(c).value > 0
  {
  }

  lemma PrintOne(n: nat)
    requires n < 10
    ensures Print(n, 10) == [DigitChar(n)]
  {
  }

  lemma PrintMore(n: nat)
    requires n >= 10
    ensures Print(n, 10) == Print(n / 10, 10) + [DigitChar(n % 10)]
  {
  }

  // ------------------------------------------------------------------------------------------
  // Ordering
  // ------------------------------------------------------------------------------------------

  /** The program's comparison: by length, then by bytes. */
  predicate DecimalLess(s: string, t: string) {
    |s| < |t| || (|s| == |t| && Before(s, t))
  }

  function Power(k: nat): nat {
    if k == 0 then 1 else 10 * Power(k - 1)
  }

  lemma {:induction false} PowerGrows(j: nat, k: nat)
    requires j <= k
    ensures Power(j) <= Power(k)
    decreases k
  {
    if j < k {
      PowerGrows(j, k - 1);
    }
  }

  lemma {:induction false} ValueBelow(s: string)
    requires AllDigits(s)
    ensures Value(s, 10).Some? && Value(s, 10).value < Power(|s|)
  {
    if s != [] {
      ValueBelow(s[..|s| - 1]);
    }
  }

  lemma {:induction false} ValueAbove(s: string)
    requires AllDigits(s) && s != [] && s[0] != '0'
    ensures Value(s, 10).Some? && Value(s, 10).value >= Power(|s| - 1)
  {
    if |s| > 1 {
      ValueAbove(s[..|s| - 1]);
    } else {
      assert s[..0] == [] && Value([], 10) == Some(0);
    }
  }

  lemma {:induction false} BeforeLast(s: string, c: char, t: string, d: char)
    requires |s| == |t|
    ensures Before(s + [c], t + [d]) <==> Before(s, t) || (s == t && c < d)
  {
    if s == [] {
      assert [c][1..] == [] && [d][1..] == [];
    } else {
      assert (s + [c])[1..] == s[1..] + [c] && (t + [d])[1..] == t[1..] + [d];
      BeforeLast(s[1..], c, t[1..], d);
      assert s == t <==> s[0] == t[0] && s[1..] == t[1..];
    }
  }

  lemma {:induction false} SameLengthLess(s: string, t: string)
    requires AllDigits(s) && AllDigits(t) && |s| == |t|
    ensures Value(s, 10).Some? && Value(t, 10).Some?
    ensures Before(s, t) <==> Value(s, 10).value < Value(t, 10).value
    ensures s == t <==> Value(s, 10) == Value(t, 10)
  {
    if s != [] {
      var i := |s| - 1;
      SameLengthLess(s[..i], t[..i]);
      assert s == s[..i] + [s[i]] && t == t[..i] + [t[i]];
      BeforeLast(s[..i], s[i], t[..i], t[i]);
    }
  }

  /** On canonical decimals of any length, comparing by length and then bytes is comparing numbers. */
  lemma DecimalOrder(s: string, t: string)
    requires Canonical(s) && Canonical(t)
    ensures Value(s, 10).Some? && Value(t, 10).Some?
    ensures DecimalLess(s, t) <==> Value(s, 10).value < Value(t, 10).value
    ensures s == t <==> Value(s, 10) == Value(t, 10)
  {
    hide Value, Before, Canonical, AllDigits;
    CanonicalDigits(s);
    CanonicalDigits(t);
    if |s| == |t| {
      SameLengthLess(s, t);
    } else if |s| < |t| {
      ShorterLess(s, t);
    } else {
      ShorterLess(t, s);
    }
  }

  lemma CanonicalDigits(s: string)
    requires Canonical(s)
    ensures AllDigits(s) && s != []
  {
  }

  /** A shorter canonical decimal is a smaller number. */
  lemma ShorterLess(s: string, t: string)
    requires Canonical(s) && Canonical(t) && |s| < |t|
    ensures Value(s, 10).Some? && Value(t, 10).Some? && Value(s, 10).value < Value(t, 10).value
  {
    ValueBelow(s);
    ValueBelow(t);
    ValueAbove(t);
    PowerGrows(|s|, |t| - 1);
  }

  // ------------------------------------------------------------------------------------------
  // Counters
  // ------------------------------------------------------------------------------------------

  /** Reads a counter; anything but canonical decimal is refused. */
  function CounterFromDecimal(s: string): (r: Option<nat>)
    ensures r.Some? <==> Canonical(s)
    ensures r.Some? ==> Print(r.value, 10) == s
  {
    if s != "0" && (s == [] || s[0] == '0' || !AllDigits(s)) then None
    else
      ParseThenPrint(s);
      Value(s, 10)
  }

  /** Printing and reading counters are mutually inverse. */
  lemma CounterRoundTrip(n: nat)
    ensures CounterFromDecimal(Print(n, 10)) == Some(n)
  {
    PrintIsCanonical(n);
    PrintThenParse(n, 10);
  }

  /** A counter together with everything that it has issued. */
  class Counter {
    var next: nat
    ghost var issued: seq<nat>

    /** Numbers were issued in increasing order, all of them below the next one. */
    ghost predicate Valid()
      reads this
    {
      && (forall i :: 0 <= i < |issued| ==> issued[i] < next)
      && (forall i, j :: 0 <= i < j < |issued| ==> issued[i] < issued[j])
    }

    constructor (next: nat)
      ensures Valid() && this.next == next && issued == []
    {
      this.next, issued := next, [];
    }

    /** Issues a number that was never issued before. */
    method Allocate() returns (n: nat)
      requires Valid()
      modifies this
      ensures Valid() && issued == old(issued) + [n] && n !in old(issued) && n == old(next) && next == n + 1
    {
      n := next;
      next := next + 1;
      issued := issued + [n];
    }

    /** Issues `count` consecutive numbers, none of which was issued before. */
    method AllocateMany(count: nat) returns (ns: seq<nat>)
      requires Valid()
      modifies this
      ensures Valid() && issued == old(issued) + ns && next == old(next) + count
      ensures |ns| == count && forall i :: 0 <= i < count ==> ns[i] == old(next) + i && ns[i] !in old(issued)
    {
      ns := [];
      ghost var before := issued;
      for i := 0 to count
        invariant Valid() && issued == before + ns && next == old(next) + i
        invariant |ns| == i && forall j :: 0 <= j < i ==> ns[j] == old(next) + j
      {
        var n := Allocate();
        ns := ns + [n];
      }
      assert forall x :: x in before ==> x < old(next);
    }
  }
}
