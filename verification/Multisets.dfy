/** Small facts about sums of multisets, kept apart so that each is proved pointwise. */
module Multisets {

  lemma Prepend<T>(h: multiset<T>, x: multiset<T>, m: multiset<T>, y: multiset<T>, n: multiset<T>)
    requires x + m == y + n
    ensures (h + x) + m == (h + y) + n
  {
    forall t ensures ((h + x) + m)[t] == ((h + y) + n)[t] {
      assert (x + m)[t] == (y + n)[t];
    }
  }

  lemma Replace<T>(h: multiset<T>, m: multiset<T>, n: multiset<T>)
    ensures (n + h) + m == (m + h) + n
  {
  }

  lemma Associate<T>(a: multiset<T>, b: multiset<T>, c: multiset<T>)
    ensures (a + b) + c == a + (b + c)
  {
  }

  /** If one summand grows by `e`, so does the sum. */
  lemma Grow<T>(x: multiset<T>, m: multiset<T>, y: multiset<T>, n: multiset<T>, e: multiset<T>)
    requires x + m == y + n
    requires n == m + e
    ensures x == y + e
  {
    forall t ensures x[t] == (y + e)[t] {
      assert (x + m)[t] == (y + n)[t];
    }
  }

  lemma Shift<T>(x: multiset<T>, m: multiset<T>, g: multiset<T>)
    ensures (x + m) + g == m + (x + g)
  {
  }

  lemma Shift'<T>(x: multiset<T>, m: multiset<T>, g: multiset<T>)
    ensures x + (m + g) == m + (x + g)
  {
  }

  lemma Rotate<T>(m: multiset<T>, e: multiset<T>, l: multiset<T>, c: multiset<T>)
    ensures (m + l + c) + e == (m + e) + l + c
  {
  }

  lemma Rotate'<T>(m: multiset<T>, l: multiset<T>, e: multiset<T>, c: multiset<T>)
    ensures (m + l + c) + e == m + (l + e) + c
  {
  }

  lemma Associate'<T>(c: multiset<T>, m: multiset<T>, e: multiset<T>)
    ensures c + (m + e) == (c + e) + m
  {
  }

  lemma Associate''<T>(c: multiset<T>, e: multiset<T>, k: multiset<T>, b: multiset<T>)
    ensures (c + e) + (k + b) == (c + (k + b)) + e
  {
  }

  lemma Associate3<T>(c: multiset<T>, k: multiset<T>, b: multiset<T>, f: multiset<T>)
    ensures (c + (k + b)) + f == c + (k + (b + f))
  {
  }

  lemma Associate4<T>(c: multiset<T>, k: multiset<T>, b: multiset<T>, e: multiset<T>)
    ensures (c + (k + b)) + e == c + ((k + e) + b)
  {
  }

  lemma Exchange<T>(o: multiset<T>, d: multiset<T>, c: multiset<T>)
    ensures (o + d) + c == (o + c) + d
  {
  }
}
