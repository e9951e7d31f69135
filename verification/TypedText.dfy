/**
 Which of the texts that the projection parser accepts are the ones that the printer writes: the
 parser also takes signs, leading zeros and upper case.
 */
module TypedText {
  import opened Wrappers
  import opened Numerals
  import opened TypedValues

  /** Canonical decimal, or a minus sign before canonical decimal other than zero. */
  predicate IntegerText(s: string) {
    Canonical(s) || (s != [] && s[0] == '-' && Canonical(s[1..]) && s[1..] != "0")
  }

  predicate LowerHex(s: string) {
    forall i :: 0 <= i < |s| ==> '0' <= s[i] <= '9' || 'a' <= s[i] <= 'f'
  }

  /** Sixteen lower-case hexadecimal digits. */
  predicate BitsText(s: string) {
    |s| == 16 && LowerHex(s)
  }

  /** Every integer and every float in the projection is written as the printer writes it. */
  predicate Written(j: Json) {
    j.JArray? && |j.elements| == 2 && j.elements[0].JString? ==>
      var tag, body := j.elements[0].s, j.elements[1];
      && (tag == "integer" && body.JString? ==> IntegerText(body.s))
      && (tag == "float" && body.JString? ==> BitsText(body.s))
      && (tag == "list" && body.JArray? ==> forall i :: 0 <= i < |body.elements| ==> Written(body.elements[i]))
      && (tag == "map" && body.JArray? ==> forall i :: 0 <= i < |body.elements| ==> WrittenEntry(body.elements[i]))
  }

  predicate WrittenEntry(j: Json) {
    j.JArray? && |j.elements| == 2 ==> Written(j.elements[1])
  }

  // ------------------------------------------------------------------------------------------
  // Integers
  // ------------------------------------------------------------------------------------------

  lemma CanonicalFirst(s: string)
    requires Canonical(s)
    ensures s != [] && '0' <= s[0] <= '9' && (s[0] == '0' ==> s == "0")
  {
  }

  /** A text that is written prints back. */
  lemma WrittenInteger(s: string)
    requires ParseInteger(s).Some? && IntegerText(s)
    ensures PrintInteger(ParseInteger(s).value) == s
  {
    hide Canonical, Value, Print;
    if Canonical(s) {
      CanonicalFirst(s);
      ParseThenPrint(s);
    } else {
      CanonicalFirst(s[1..]);
      ParseThenPrint(s[1..]);
      assert s == "-" + s[1..];
    }
  }

  /** What is printed is written. */
  lemma PrintedInteger(i: int)
    ensures IntegerText(PrintInteger(i))
  {
    hide Canonical, Print;
    if i < 0 {
      PrintIsCanonical(-i);
      CanonicalFirst(Print(-i, 10));
      assert PrintInteger(i)[1..] == Print(-i, 10);
    } else {
      PrintIsCanonical(i);
    }
  }

  lemma IntegerIff(s: string)
    requires ParseInteger(s).Some?
    ensures PrintInteger(ParseInteger(s).value) == s <==> IntegerText(s)
  {
    hide IntegerText, PrintInteger, ParseInteger;
    PrintedInteger(ParseInteger(s).value);
    if IntegerText(s) {
      WrittenInteger(s);
    }
  }

  // ------------------------------------------------------------------------------------------
  // Floats
  // ------------------------------------------------------------------------------------------

  function Power16(k: nat): nat {
    if k == 0 then 1 else 16 * Power16(k - 1)
  }

  lemma SixteenDigits()
    ensures Power16(16) == BitsLimit
  {
    assert Power16(4) == 0x1_0000;
    assert Power16(8) == 0x1_0000_0000;
    assert Power16(12) == 0x1_0000_0000_0000;
  }

  lemma LowerChar(d: nat)
    requires d < 16
    ensures var c := DigitChar(d); '0' <= c <= '9' || 'a' <= c <= 'f'
  {
  }

  lemma {:induction false} PrintedHex(n: nat, k: nat)
    requires n < Power16(k) && k > 0
    ensures LowerHex(Print(n, 16)) && |Print(n, 16)| <= k
  {
    hide DigitChar;
    if n < 16 {
      LowerChar(n);
    } else {
      LowerChar(n % 16);
      assert k > 1;
      PrintedHex(n / 16, k - 1);
    }
  }

  lemma {:induction false} ZerosText(n: nat)
    ensures |Zeros(n)| == n && LowerHex(Zeros(n))
  {
    if n > 0 {
      ZerosText(n - 1);
    }
  }

  lemma PrintedBits(bits: Bits)
    ensures BitsText(PrintBits(bits))
  {
    hide Print, Zeros, Power16;
    SixteenDigits();
    PrintedHex(bits, 16);
    var digits := Print(bits, 16);
    if |digits| < 16 {
      ZerosText(16 - |digits|);
    }
  }

  lemma SameDigit(c: char, d: char, v: nat, w: nat)
    requires ('0' <= c <= '9' || 'a' <= c <= 'f') && ('0' <= d <= '9' || 'a' <= d <= 'f')
    requires DigitValue(c).Some? && DigitValue(d).Some? && v * 16 + DigitValue(c).value == w * 16 + DigitValue(d).value
    ensures c == d && v == w
  {
  }

  lemma ValueLast(s: string)
    requires s != [] && Value(s, 16).Some?
    ensures var i := |s| - 1;
            && Value(s[..i], 16).Some? && DigitValue(s[i]).Some?
            && Value(s, 16).value == Value(s[..i], 16).value * 16 + DigitValue(s[i]).value
  {
  }

  /** Lower-case texts of one length with one value are the same. */
  lemma {:induction false} HexInjective(s: string, t: string)
    requires |s| == |t| && LowerHex(s) && LowerHex(t) && Value(s, 16).Some? && Value(s, 16) == Value(t, 16)
    ensures s == t
  {
    hide Value, DigitValue;
    if s != [] {
      var i := |s| - 1;
      ValueLast(s);
      ValueLast(t);
      SameDigit(s[i], t[i], Value(s[..i], 16).value, Value(t[..i], 16).value);
      HexInjective(s[..i], t[..i]);
      assert s == s[..i] + [s[i]] && t == t[..i] + [t[i]];
    }
  }

  lemma BitsIff(s: string)
    requires ParseBits(s).Some?
    ensures PrintBits(ParseBits(s).value) == s <==> BitsText(s)
  {
    hide PrintBits, Value, Print;
    var bits := ParseBits(s).value;
    PrintedBits(bits);
    if BitsText(s) {
      BitsRoundTrip(bits);
      var t := PrintBits(bits);
      assert s[0] != '+' && t[0] != '+';
      HexInjective(s, t);
    }
  }

  // ------------------------------------------------------------------------------------------
  // Whole projections
  // ------------------------------------------------------------------------------------------

  lemma PairIs(j: Json, tag: string, body: Json)
    requires j.JArray? && |j.elements| == 2 && j.elements[0] == JString(tag) && j.elements[1] == body
    ensures j == Tagged(tag, [body])
  {
    assert j.elements == [JString(tag)] + [body];
  }

  lemma TaggedSame(tag: string, x: Json, y: Json)
    ensures Tagged(tag, [x]) == Tagged(tag, [y]) <==> x == y
  {
    assert Tagged(tag, [x]).elements[1] == x && Tagged(tag, [y]).elements[1] == y;
  }

  lemma {:induction false} AllIff(js: seq<Json>)
    requires FromAll(js).Ok?
    ensures ProjectAll(FromAll(js).value) == js <==> forall i :: 0 <= i < |js| ==> Written(js[i])
    decreases js, 1
  {
    hide FromProjection, Projection, Written;
    if js != [] {
      var v, vs := FromProjection(js[0]).value, FromAll(js[1..]).value;
      ProjectionIff(js[0]);
      AllIff(js[1..]);
      ProjectCons(v, vs);
      SplitFirst(js, Projection(v), ProjectAll(vs));
      assert (forall i :: 0 <= i < |js| ==> Written(js[i])) <==> Written(js[0]) && forall i :: 0 <= i < |js[1..]| ==> Written(js[1..][i]) by {
        FirstAndRest(js);
      }
    }
  }

  lemma SplitFirst(js: seq<Json>, x: Json, xs: seq<Json>)
    requires js != []
    ensures [x] + xs == js <==> x == js[0] && xs == js[1..]
  {
    assert js == [js[0]] + js[1..];
    assert ([x] + xs)[0] == x && ([x] + xs)[1..] == xs;
  }

  lemma FirstAndRest(js: seq<Json>)
    requires js != []
    ensures (forall i :: 0 <= i < |js| ==> Written(js[i])) <==> Written(js[0]) && forall i :: 0 <= i < |js[1..]| ==> Written(js[1..][i])
    ensures (forall i :: 0 <= i < |js| ==> WrittenEntry(js[i])) <==> WrittenEntry(js[0]) && forall i :: 0 <= i < |js[1..]| ==> WrittenEntry(js[1..][i])
  {
    hide Written, WrittenEntry;
    var rest := js[1..];
    assert forall i :: 0 <= i < |rest| ==> rest[i] == js[i + 1];
    assert forall i :: 1 <= i < |js| ==> js[i] == rest[i - 1];
  }

  lemma {:induction false} EntryIff(j: Json)
    requires FromEntry(j).Ok?
    ensures var e := FromEntry(j).value; JArray([JString(e.key), Projection(e.value)]) == j <==> WrittenEntry(j)
    decreases j
  {
    hide FromProjection, Projection, Written;
    ProjectionIff(j.elements[1]);
    var e := FromEntry(j).value;
    assert j.elements == [j.elements[0], j.elements[1]];
    assert [JString(e.key), Projection(e.value)][1] == Projection(e.value);
  }

  lemma {:induction false} EntriesIff(js: seq<Json>, previous: Option<string>)
    requires FromEntries(js, previous).Ok?
    ensures ProjectEntries(FromEntries(js, previous).value) == js <==> forall i :: 0 <= i < |js| ==> WrittenEntry(js[i])
    decreases js, 1
  {
    hide FromEntry, Projection, WrittenEntry, Before;
    if js != [] {
      var e := FromEntry(js[0]).value;
      var es := FromEntries(js[1..], Some(e.key)).value;
      EntryIff(js[0]);
      EntriesIff(js[1..], Some(e.key));
      EntriesCons(e, es);
      SplitFirst(js, JArray([JString(e.key), Projection(e.value)]), ProjectEntries(es));
      FirstAndRest(js);
    }
  }

  /** A tagged pair with a scalar body. */
  lemma ScalarIff(j: Json)
    requires FromProjection(j).Ok? && !FromProjection(j).value.TList? && !FromProjection(j).value.TMap?
    ensures Projection(FromProjection(j).value) == j <==> Written(j)
  {
    hide ParseInteger, ParseBits, IntegerText, BitsText, PrintInteger, PrintBits;
    var v := FromProjection(j).value;
    if v.TNull? {
      assert j.elements == [JString("null")] + [];
    } else {
      var tag, body := j.elements[0].s, j.elements[1];
      PairIs(j, tag, body);
      match v
      case TInt(i) =>
        IntegerIff(body.s);
        TaggedSame(tag, JString(PrintInteger(i)), body);
      case TFloat(bits) =>
        BitsIff(body.s);
        TaggedSame(tag, JString(PrintBits(bits)), body);
      case _ =>
    }
  }

  /**
   Printing what was parsed gives the text back if and only if its integers are canonical
   decimals, negative ones with a minus sign, and its floats are sixteen lower-case hexadecimal
   digits.
   */
  lemma {:induction false} ProjectionIff(j: Json)
    requires FromProjection(j).Ok?
    ensures Projection(FromProjection(j).value) == j <==> Written(j)
    decreases j
  {
    hide ParseInteger, ParseBits, IntegerText, BitsText, PrintInteger, PrintBits, Before;
    var v := FromProjection(j).value;
    if v.TList? {
      var body := j.elements[1];
      PairIs(j, "list", body);
      AllIff(body.elements);
      TaggedSame("list", JArray(ProjectAll(v.elements)), body);
    } else if v.TMap? {
      var body := j.elements[1];
      PairIs(j, "map", body);
      EntriesIff(body.elements, None);
      TaggedSame("map", JArray(ProjectEntries(v.entries)), body);
    } else {
      ScalarIff(j);
    }
  }
}
