/** Typed values and their tagged JSON projection, in both directions. */
module TypedValues {
  import opened Wrappers
  import Numerals
  import opened CelSyntax

  const BitsLimit: nat := 0x1_0000_0000_0000_0000

  /** The bits of a double. */
  type Bits = n: nat | n < BitsLimit

  datatype Member = Member(key: string, value: Json)

  datatype Json =
    | JNull
    | JBool(b: bool)
    | JString(s: string)
    | JInt(i: Int64)
    | JFloat(bits: Bits)
    | JArray(elements: seq<Json>)
    | JObject(members: seq<Member>)

  datatype TypedEntry = TypedEntry(key: string, value: Typed)

  datatype Typed =
    | TNull
    | TBool(b: bool)
    | TString(s: string)
    | TInt(i: Int64)
    | TFloat(bits: Bits)
    | TList(elements: seq<Typed>)
    | TMap(entries: seq<TypedEntry>)

  datatype ProjectionError = BadShape | BadInteger | BadFloat | BadKey

  // ------------------------------------------------------------------------------------------
  // Doubles
  // ------------------------------------------------------------------------------------------

  const NegativeZero: Bits := 0x8000_0000_0000_0000

  /** The exponent bits are not all set. */
  predicate Finite(bits: Bits) {
    (bits / 0x10_0000_0000_0000) % 0x800 != 0x7ff
  }

  predicate CanonicalBits(bits: Bits) {
    Finite(bits) && bits != NegativeZero
  }

  function NormalZero(bits: Bits): Bits {
    if bits == NegativeZero then 0 else bits
  }

  function Zeros(n: nat): string {
    if n == 0 then [] else Zeros(n - 1) + ['0']
  }

  /** Sixteen hexadecimal digits. */
  function PrintBits(bits: Bits): string {
    var digits := Numerals.Print(bits, 16);
    (if |digits| < 16 then Zeros(16 - |digits|) else []) + digits
  }

  /** Hexadecimal text, with an optional plus sign. */
  function ParseBits(s: string): Option<Bits> {
    var n := Numerals.Parse(if s != [] && s[0] == '+' then s[1..] else s, 16);
    if n.Some? && n.value < BitsLimit then Some(n.value) else None
  }

  /** Decimal text, with an optional sign. */
  function ParseInteger(s: string): Option<Int64> {
    var signed := s != [] && (s[0] == '+' || s[0] == '-');
    var n := Numerals.Parse(if signed then s[1..] else s, 10);
    if n.None? then None
    else
      var i: int := if signed && s[0] == '-' then 0 - n.value else n.value;
      if Int64Min <= i <= Int64Max then Some(i) else None
  }

  // ------------------------------------------------------------------------------------------
  // Projection and parser
  // ------------------------------------------------------------------------------------------

  function Tagged(tag: string, body: seq<Json>): Json {
    JArray([JString(tag)] + body)
  }

  function Projection(v: Typed): Json {
    match v
    case TNull => Tagged("null", [])
    case TBool(b) => Tagged("boolean", [JBool(b)])
    case TString(s) => Tagged("string", [JString(s)])
    case TInt(i) => Tagged("integer", [JString(Numerals.PrintInteger(i))])
    case TFloat(bits) => Tagged("float", [JString(PrintBits(NormalZero(bits)))])
    case TList(elements) => Tagged("list", [JArray(ProjectAll(elements))])
    case TMap(entries) => Tagged("map", [JArray(ProjectEntries(entries))])
  }

  function ProjectAll(vs: seq<Typed>): seq<Json> {
    if vs == [] then [] else [Projection(vs[0])] + ProjectAll(vs[1..])
  }

  function ProjectEntries(es: seq<TypedEntry>): seq<Json> {
    if es == [] then [] else [JArray([JString(es[0].key), Projection(es[0].value)])] + ProjectEntries(es[1..])
  }

  function FromProjection(j: Json): Result<Typed, ProjectionError>
    decreases j
  {
    if !j.JArray? || j.elements == [] || !j.elements[0].JString? then Err(BadShape)
    else
      var tag, n := j.elements[0].s, |j.elements|;
      if tag == "null" && n == 1 then Ok(TNull)
      else if n != 2 then Err(BadShape)
      else
        var body := j.elements[1];
        if tag == "boolean" && body.JBool? then Ok(TBool(body.b))
        else if tag == "string" && body.JString? then Ok(TString(body.s))
        else if tag == "integer" && body.JString? then
          (match ParseInteger(body.s) case Some(i) => Ok(TInt(i)) case None => Err(BadInteger))
        else if tag == "float" && body.JString? then
          (match ParseBits(body.s)
           case Some(bits) => if CanonicalBits(bits) then Ok(TFloat(bits)) else Err(BadFloat)
           case None => Err(BadFloat))
        else if tag == "list" && body.JArray? then
          (match FromAll(body.elements) case Ok(vs) => Ok(TList(vs)) case Err(error) => Err(error))
        else if tag == "map" && body.JArray? then
          (match FromEntries(body.elements, None) case Ok(es) => Ok(TMap(es)) case Err(error) => Err(error))
        else Err(BadShape)
  }

  function FromAll(js: seq<Json>): Result<seq<Typed>, ProjectionError>
    decreases js
  {
    if js == [] then Ok([])
    else
      match FromProjection(js[0])
      case Err(error) => Err(error)
      case Ok(v) => match FromAll(js[1..]) case Err(error) => Err(error) case Ok(vs) => Ok([v] + vs)
  }

  /** A map entry: a key and the projection of its value. */
  function FromEntry(j: Json): Result<TypedEntry, ProjectionError>
    decreases j
  {
    if !j.JArray? || |j.elements| != 2 || !j.elements[0].JString? then Err(BadShape)
    else
      match FromProjection(j.elements[1])
      case Err(error) => Err(error)
      case Ok(v) => Ok(TypedEntry(j.elements[0].s, v))
  }

  /** Map entries must come in strictly increasing key order. */
  function FromEntries(js: seq<Json>, previous: Option<string>): Result<seq<TypedEntry>, ProjectionError>
    decreases js
  {
    if js == [] then Ok([])
    else
      match FromEntry(js[0])
      case Err(error) => Err(error)
      case Ok(e) =>
        if previous.Some? && !Numerals.Before(previous.value, e.key) then Err(BadKey)
        else match FromEntries(js[1..], Some(e.key)) case Err(error) => Err(error) case Ok(es) => Ok([e] + es)
  }

  // ------------------------------------------------------------------------------------------
  // Canonical values
  // ------------------------------------------------------------------------------------------

  ghost predicate CanonicalTyped(v: Typed) {
    match v
    case TFloat(bits) => CanonicalBits(bits)
    case TList(elements) => forall i :: 0 <= i < |elements| ==> CanonicalTyped(elements[i])
    case TMap(entries) => InOrder(entries) && forall i :: 0 <= i < |entries| ==> CanonicalEntry(entries[i])
    case _ => true
  }

  ghost predicate CanonicalEntry(e: TypedEntry) {
    CanonicalTyped(e.value)
  }

  /** Each key is strictly before the next. */
  predicate InOrder(es: seq<TypedEntry>) {
    forall i :: 0 <= i < |es| - 1 ==> Numerals.Before(es[i].key, es[i + 1].key)
  }

  // ------------------------------------------------------------------------------------------
  // Numbers survive printing and parsing
  // ------------------------------------------------------------------------------------------

  lemma {:induction false} ZerosValue(n: nat, s: string, b: nat)
    requires Numerals.Base(b)
    ensures Numerals.Value(Zeros(n) + s, b) == Numerals.Value(s, b)
    decreases |s|, n
  {
    hide Numerals.Value;
    if s != [] {
      var i := |s| - 1;
      ZerosValue(n, s[..i], b);
      Numerals.ValueSnoc(s[..i], s[i], b);
      Numerals.ValueSnoc(Zeros(n) + s[..i], s[i], b);
      assert s == s[..i] + [s[i]];
      assert Zeros(n) + s == (Zeros(n) + s[..i]) + [s[i]];
    } else {
      assert Zeros(n) + [] == Zeros(n);
      if n > 0 {
        ZerosValue(n - 1, [], b);
        assert Zeros(n - 1) + [] == Zeros(n - 1);
        Numerals.ValueSnoc(Zeros(n - 1), '0', b);
        Numerals.NoDigits(b);
      }
    }
  }

  lemma {:induction false} PrintStartsWithDigit(n: nat, b: nat)
    requires Numerals.Base(b)
    ensures Numerals.Print(n, b) != [] && Numerals.IsDigit(Numerals.Print(n, b)[0], b)
  {
    Numerals.DivMod(n, b);
    if n < b {
      Numerals.DigitRoundTrip(n);
    } else {
      PrintStartsWithDigit(n / b, b);
      assert Numerals.Print(n, b)[0] == Numerals.Print(n / b, b)[0];
    }
  }

  lemma IntegerRoundTrip(i: Int64)
    ensures ParseInteger(Numerals.PrintInteger(i)) == Some(i)
  {
    hide Numerals.Print, Numerals.Value;
    var n: nat := if i < 0 then 0 - i else i;
    PrintStartsWithDigit(n, 10);
    Numerals.PrintThenParse(n, 10);
    if i < 0 {
      assert Numerals.PrintInteger(i)[1..] == Numerals.Print(n, 10);
    }
  }

  lemma ZerosAre(n: nat)
    ensures |Zeros(n)| == n && forall i :: 0 <= i < n ==> Zeros(n)[i] == '0'
  {
  }

  lemma BitsRoundTrip(bits: Bits)
    ensures ParseBits(PrintBits(bits)) == Some(bits)
  {
    hide Numerals.Print, Numerals.Value, Zeros;
    var digits := Numerals.Print(bits, 16);
    PrintStartsWithDigit(bits, 16);
    Numerals.PrintThenParse(bits, 16);
    if |digits| < 16 {
      var n: nat := 16 - |digits|;
      ZerosAre(n);
      ZerosValue(n, digits, 16);
      assert PrintBits(bits)[0] == '0';
    } else {
      assert [] + digits == digits;
    }
  }

  // ------------------------------------------------------------------------------------------
  // Round trip
  // ------------------------------------------------------------------------------------------

  lemma {:induction false} AllRoundTrip(vs: seq<Typed>)
    requires forall i :: 0 <= i < |vs| ==> CanonicalTyped(vs[i])
    ensures FromAll(ProjectAll(vs)) == Ok(vs)
    decreases vs, 1
  {
    if vs != [] {
      RoundTrip(vs[0]);
      AllRoundTrip(vs[1..]);
      var js := ProjectAll(vs);
      assert js[0] == Projection(vs[0]) && js[1..] == ProjectAll(vs[1..]);
      assert vs == [vs[0]] + vs[1..];
    }
  }

  lemma {:induction false} EntriesRoundTrip(es: seq<TypedEntry>, previous: Option<string>)
    requires InOrder(es) && forall i :: 0 <= i < |es| ==> CanonicalEntry(es[i])
    requires previous.Some? && es != [] ==> Numerals.Before(previous.value, es[0].key)
    ensures FromEntries(ProjectEntries(es), previous) == Ok(es)
    decreases es, 1
  {
    if es != [] {
      EntryRoundTrip(es[0]);
      var rest := es[1..];
      assert forall i :: 0 <= i < |rest| ==> rest[i] == es[i + 1];
      EntriesRoundTrip(rest, Some(es[0].key));
      var js := ProjectEntries(es);
      assert js[0] == JArray([JString(es[0].key), Projection(es[0].value)]) && js[1..] == ProjectEntries(rest);
      assert es == [es[0]] + rest;
    }
  }

  lemma {:induction false} EntryRoundTrip(e: TypedEntry)
    requires CanonicalEntry(e)
    ensures FromEntry(JArray([JString(e.key), Projection(e.value)])) == Ok(e)
    decreases e
  {
    RoundTrip(e.value);
  }

  lemma TaggedParts(tag: string, body: Json)
    ensures Tagged(tag, [body]).elements[0] == JString(tag) && Tagged(tag, [body]).elements[1] == body
    ensures |Tagged(tag, [body]).elements| == 2
  {
  }

  lemma ParseList(js: seq<Json>)
    ensures FromProjection(Tagged("list", [JArray(js)])) == (match FromAll(js) case Ok(vs) => Ok(TList(vs)) case Err(error) => Err(error))
  {
    TaggedParts("list", JArray(js));
  }

  lemma ParseMap(js: seq<Json>)
    ensures FromProjection(Tagged("map", [JArray(js)])) == (match FromEntries(js, None) case Ok(es) => Ok(TMap(es)) case Err(error) => Err(error))
  {
    TaggedParts("map", JArray(js));
  }

  lemma ScalarRoundTrip(v: Typed)
    requires CanonicalTyped(v) && !v.TList? && !v.TMap?
    ensures FromProjection(Projection(v)) == Ok(v)
  {
    hide ParseInteger, Numerals.PrintInteger, ParseBits, PrintBits;
    match v
    case TInt(i) => IntegerRoundTrip(i);
    case TFloat(bits) => BitsRoundTrip(bits);
    case _ =>
  }

  /** Parsing the projection of any canonical typed value returns it. */
  lemma {:induction false} RoundTrip(v: Typed)
    requires CanonicalTyped(v)
    ensures FromProjection(Projection(v)) == Ok(v)
    decreases v
  {
    hide FromProjection, FromAll, FromEntries, Tagged, Numerals.Before;
    match v
    case TList(elements) =>
      AllRoundTrip(elements);
      ParseList(ProjectAll(elements));
    case TMap(entries) =>
      EntriesRoundTrip(entries, None);
      ParseMap(ProjectEntries(entries));
    case _ => ScalarRoundTrip(v);
  }

  // ------------------------------------------------------------------------------------------
  // What the parser accepts
  // ------------------------------------------------------------------------------------------

  lemma {:induction false} AcceptedAll(js: seq<Json>)
    requires FromAll(js).Ok?
    ensures forall i :: 0 <= i < |FromAll(js).value| ==> CanonicalTyped(FromAll(js).value[i])
    decreases js, 1
  {
    if js != [] {
      Accepted(js[0]);
      AcceptedAll(js[1..]);
    }
  }

  lemma {:induction false} AcceptedEntries(js: seq<Json>, previous: Option<string>)
    requires FromEntries(js, previous).Ok?
    ensures var es := FromEntries(js, previous).value;
            && InOrder(es) && (forall i :: 0 <= i < |es| ==> CanonicalEntry(es[i]))
            && (previous.Some? && es != [] ==> Numerals.Before(previous.value, es[0].key))
    decreases js, 1
  {
    if js != [] {
      AcceptedEntry(js[0]);
      var e := FromEntry(js[0]).value;
      AcceptedEntries(js[1..], Some(e.key));
      var rest := FromEntries(js[1..], Some(e.key)).value;
      var es := [e] + rest;
      assert FromEntries(js, previous).value == es;
      forall i | 0 <= i < |es| - 1 ensures Numerals.Before(es[i].key, es[i + 1].key) {
        assert i > 0 ==> Numerals.Before(rest[i - 1].key, rest[i].key);
      }
    }
  }

  lemma {:induction false} AcceptedEntry(j: Json)
    requires FromEntry(j).Ok?
    ensures CanonicalEntry(FromEntry(j).value)
    decreases j
  {
    Accepted(j.elements[1]);
  }

  /** Everything that the parser accepts has strictly ordered maps and finite floats without negative zero. */
  lemma {:induction false} Accepted(j: Json)
    requires FromProjection(j).Ok?
    ensures CanonicalTyped(FromProjection(j).value)
    decreases j
  {
    hide ParseInteger, ParseBits, Numerals.Before;
    var tag := j.elements[0].s;
    if tag == "list" {
      AcceptedAll(j.elements[1].elements);
    } else if tag == "map" {
      AcceptedEntries(j.elements[1].elements, None);
    }
  }

  // ------------------------------------------------------------------------------------------
  // Plain documents
  // ------------------------------------------------------------------------------------------

  /** A document as the strict reader yields it: object keys in order, floats finite without negative zero. */
  ghost predicate Strict(j: Json) {
    match j
    case JFloat(bits) => CanonicalBits(bits)
    case JArray(elements) => forall i :: 0 <= i < |elements| ==> Strict(elements[i])
    case JObject(members) =>
      && (forall i :: 0 <= i < |members| - 1 ==> Numerals.Before(members[i].key, members[i + 1].key))
      && (forall i :: 0 <= i < |members| ==> StrictMember(members[i]))
    case _ => true
  }

  ghost predicate StrictMember(m: Member) {
    Strict(m.value)
  }

  /** The projection of a plain document. */
  function TypedProjection(j: Json): Json {
    match j
    case JNull => Tagged("null", [])
    case JBool(b) => Tagged("boolean", [JBool(b)])
    case JString(s) => Tagged("string", [JString(s)])
    case JInt(i) => Tagged("integer", [JString(Numerals.PrintInteger(i))])
    case JFloat(bits) => Tagged("float", [JString(PrintBits(NormalZero(bits)))])
    case JArray(elements) => Tagged("list", [JArray(TypedAll(elements))])
    case JObject(members) => Tagged("map", [JArray(SortEntries(TypedMembers(members)))])
  }

  function TypedAll(js: seq<Json>): seq<Json> {
    if js == [] then [] else [TypedProjection(js[0])] + TypedAll(js[1..])
  }

  /** A projected member with its key. */
  datatype Keyed = Keyed(key: string, body: Json)

  function TypedMembers(ms: seq<Member>): seq<Keyed> {
    if ms == [] then [] else [Keyed(ms[0].key, TypedProjection(ms[0].value))] + TypedMembers(ms[1..])
  }

  function InsertKeyed(ks: seq<Keyed>, k: Keyed): seq<Keyed> {
    if ks == [] || !Numerals.Before(ks[0].key, k.key) then [k] + ks else [ks[0]] + InsertKeyed(ks[1..], k)
  }

  function SortKeyed(ks: seq<Keyed>): seq<Keyed> {
    if ks == [] then [] else InsertKeyed(SortKeyed(ks[1..]), ks[0])
  }

  function Pairs(ks: seq<Keyed>): seq<Json> {
    if ks == [] then [] else [JArray([JString(ks[0].key), ks[0].body])] + Pairs(ks[1..])
  }

  /** The members as pairs, in key order. */
  function SortEntries(ks: seq<Keyed>): seq<Json> {
    Pairs(SortKeyed(ks))
  }

  /** The plain document of a typed value. */
  function PlainJson(v: Typed): Option<Json> {
    match v
    case TNull => Some(JNull)
    case TBool(b) => Some(JBool(b))
    case TString(s) => Some(JString(s))
    case TInt(i) => Some(JInt(i))
    case TFloat(bits) => if Finite(bits) then Some(JFloat(bits)) else None
    case TList(elements) => (match PlainAll(elements) case Some(js) => Some(JArray(js)) case None => None)
    case TMap(entries) => (match PlainEntries(entries) case Some(ms) => Some(JObject(ms)) case None => None)
  }

  function PlainAll(vs: seq<Typed>): Option<seq<Json>> {
    if vs == [] then Some([])
    else
      match PlainJson(vs[0])
      case None => None
      case Some(j) => match PlainAll(vs[1..]) case None => None case Some(js) => Some([j] + js)
  }

  function PlainEntry(e: TypedEntry): Option<Member> {
    match PlainJson(e.value)
    case None => None
    case Some(j) => Some(Member(e.key, j))
  }

  function PlainEntries(es: seq<TypedEntry>): Option<seq<Member>> {
    if es == [] then Some([])
    else
      match PlainEntry(es[0])
      case None => None
      case Some(m) => match PlainEntries(es[1..]) case None => None case Some(ms) => Some([m] + ms)
  }

  /** The typed value of a plain document. */
  ghost function TypedOf(j: Json): Typed {
    match j
    case JNull => TNull
    case JBool(b) => TBool(b)
    case JString(s) => TString(s)
    case JInt(i) => TInt(i)
    case JFloat(bits) => TFloat(bits)
    case JArray(elements) => TList(TypedOfAll(elements))
    case JObject(members) => TMap(TypedOfMembers(members))
  }

  ghost function TypedOfAll(js: seq<Json>): (vs: seq<Typed>)
    ensures |vs| == |js| && forall i :: 0 <= i < |js| ==> vs[i] == TypedOf(js[i])
  {
    if js == [] then [] else [TypedOf(js[0])] + TypedOfAll(js[1..])
  }

  ghost function TypedOfMember(m: Member): TypedEntry {
    TypedEntry(m.key, TypedOf(m.value))
  }

  ghost function TypedOfMembers(ms: seq<Member>): (es: seq<TypedEntry>)
    ensures |es| == |ms| && forall i :: 0 <= i < |ms| ==> es[i] == TypedOfMember(ms[i])
  {
    if ms == [] then [] else [TypedOfMember(ms[0])] + TypedOfMembers(ms[1..])
  }

  lemma {:induction false} SortedStays(ks: seq<Keyed>)
    requires forall i :: 0 <= i < |ks| - 1 ==> Numerals.Before(ks[i].key, ks[i + 1].key)
    ensures SortKeyed(ks) == ks
  {
    if ks != [] {
      var rest := ks[1..];
      assert forall i :: 0 <= i < |rest| ==> rest[i] == ks[i + 1];
      SortedStays(rest);
      if rest != [] {
        Numerals.Asymmetric(ks[0].key, ks[1].key);
      }
      assert ks == [ks[0]] + rest;
    }
  }

  lemma TypedOfCons(js: seq<Json>)
    requires js != []
    ensures TypedOfAll(js) == [TypedOf(js[0])] + TypedOfAll(js[1..])
    ensures js == [js[0]] + js[1..]
  {
  }

  lemma ProjectCons(v: Typed, vs: seq<Typed>)
    ensures ProjectAll([v] + vs) == [Projection(v)] + ProjectAll(vs)
    ensures PlainAll([v] + vs) == if PlainJson(v).None? || PlainAll(vs).None? then None else Some([PlainJson(v).value] + PlainAll(vs).value)
  {
    hide Projection, PlainJson;
    assert ([v] + vs)[1..] == vs;
  }

  lemma {:induction false} TypedAllIs(js: seq<Json>)
    requires forall i :: 0 <= i < |js| ==> Strict(js[i])
    ensures TypedAll(js) == ProjectAll(TypedOfAll(js)) && PlainAll(TypedOfAll(js)) == Some(js)
    decreases js, 1
  {
    hide CanonicalTyped, Projection, TypedProjection, TypedOf, PlainJson, Strict, ProjectAll, PlainAll, TypedOfAll;
    if js == [] {
      NothingTyped();
    } else {
      TypedIs(js[0]);
      TypedAllIs(js[1..]);
      TypedOfCons(js);
      ProjectCons(TypedOf(js[0]), TypedOfAll(js[1..]));
    }
  }

  lemma NothingTyped()
    ensures ProjectAll([]) == [] && PlainAll([]) == Some([]) && TypedOfAll([]) == []
  {
  }

  lemma {:induction false} TypedMemberIs(m: Member)
    requires StrictMember(m)
    ensures TypedProjection(m.value) == Projection(TypedOf(m.value)) && PlainEntry(TypedOfMember(m)) == Some(m)
    ensures CanonicalEntry(TypedOfMember(m))
    decreases m
  {
    TypedIs(m.value);
  }

  lemma TypedOfMemberCons(ms: seq<Member>)
    requires ms != []
    ensures TypedOfMembers(ms) == [TypedOfMember(ms[0])] + TypedOfMembers(ms[1..])
    ensures ms == [ms[0]] + ms[1..]
  {
  }

  lemma EntriesCons(e: TypedEntry, es: seq<TypedEntry>)
    ensures ProjectEntries([e] + es) == [JArray([JString(e.key), Projection(e.value)])] + ProjectEntries(es)
    ensures PlainEntries([e] + es) ==
              if PlainEntry(e).None? || PlainEntries(es).None? then None else Some([PlainEntry(e).value] + PlainEntries(es).value)
  {
    hide Projection, PlainEntry;
    assert ([e] + es)[1..] == es;
  }

  lemma PairsCons(ms: seq<Member>)
    requires ms != []
    ensures Pairs(TypedMembers(ms)) == [JArray([JString(ms[0].key), TypedProjection(ms[0].value)])] + Pairs(TypedMembers(ms[1..]))
  {
    hide TypedProjection;
    assert TypedMembers(ms)[1..] == TypedMembers(ms[1..]);
  }

  lemma NothingPaired()
    ensures ProjectEntries([]) == [] && PlainEntries([]) == Some([]) && TypedOfMembers([]) == [] && Pairs(TypedMembers([])) == []
  {
  }

  lemma {:induction false} TypedMembersAre(ms: seq<Member>)
    requires forall i :: 0 <= i < |ms| ==> StrictMember(ms[i])
    ensures Pairs(TypedMembers(ms)) == ProjectEntries(TypedOfMembers(ms)) && PlainEntries(TypedOfMembers(ms)) == Some(ms)
    decreases ms, 1
  {
    hide CanonicalEntry, Projection, TypedProjection, TypedOf, PlainEntry, StrictMember, ProjectEntries, PlainEntries, TypedOfMembers, Pairs, TypedMembers;
    if ms == [] {
      NothingPaired();
    } else {
      TypedMemberIs(ms[0]);
      TypedMembersAre(ms[1..]);
      TypedOfMemberCons(ms);
      EntriesCons(TypedOfMember(ms[0]), TypedOfMembers(ms[1..]));
      PairsCons(ms);
    }
  }

  lemma {:induction false} MemberKeys(ms: seq<Member>)
    ensures |TypedMembers(ms)| == |ms| && forall i :: 0 <= i < |ms| ==> TypedMembers(ms)[i].key == ms[i].key
  {
    if ms != [] {
      MemberKeys(ms[1..]);
      assert TypedMembers(ms)[1..] == TypedMembers(ms[1..]);
      assert forall i :: 1 <= i < |ms| ==> ms[i] == ms[1..][i - 1] && TypedMembers(ms)[i] == TypedMembers(ms)[1..][i - 1];
    }
  }

  lemma {:induction false} TypedObject(members: seq<Member>)
    requires Strict(JObject(members))
    ensures TypedProjection(JObject(members)) == Projection(TypedOf(JObject(members)))
    ensures PlainJson(TypedOf(JObject(members))) == Some(JObject(members))
    decreases members, 2
  {
    hide Numerals.Before, CanonicalTyped, SortKeyed, Pairs, TypedMembers, TypedOfMembers, Tagged, ProjectEntries, PlainEntries;
    TypedMembersAre(members);
    MemberKeys(members);
    SortedStays(TypedMembers(members));
  }

  lemma {:induction false} CanonicalObject(members: seq<Member>)
    requires Strict(JObject(members))
    ensures CanonicalTyped(TypedOf(JObject(members)))
    decreases members, 2
  {
    hide Numerals.Before, CanonicalEntry;
    forall i | 0 <= i < |members| ensures CanonicalEntry(TypedOfMember(members[i])) {
      TypedMemberIs(members[i]);
    }
  }

  lemma {:induction false} TypedArray(elements: seq<Json>)
    requires Strict(JArray(elements))
    ensures TypedProjection(JArray(elements)) == Projection(TypedOf(JArray(elements)))
    ensures PlainJson(TypedOf(JArray(elements))) == Some(JArray(elements)) && CanonicalTyped(TypedOf(JArray(elements)))
    decreases elements, 2
  {
    hide Tagged, ProjectAll, PlainAll, TypedAll;
    TypedAllIs(elements);
    forall i | 0 <= i < |elements| ensures CanonicalTyped(TypedOf(elements[i])) {
      TypedIs(elements[i]);
    }
  }

  lemma {:induction false} TypedIs(j: Json)
    requires Strict(j)
    ensures TypedProjection(j) == Projection(TypedOf(j)) && PlainJson(TypedOf(j)) == Some(j) && CanonicalTyped(TypedOf(j))
    decreases j
  {
    match j
    case JArray(elements) => TypedArray(elements);
    case JObject(members) =>
      TypedObject(members);
      CanonicalObject(members);
    case _ => TypedScalar(j);
  }

  lemma TypedScalar(j: Json)
    requires Strict(j) && !j.JArray? && !j.JObject?
    ensures TypedProjection(j) == Projection(TypedOf(j)) && PlainJson(TypedOf(j)) == Some(j) && CanonicalTyped(TypedOf(j))
  {
  }

  /** Reading the projection of a strict document and writing it plainly gives the document back. */
  lemma PlainUndoesProjection(j: Json)
    requires Strict(j)
    ensures FromProjection(TypedProjection(j)).Ok?
    ensures PlainJson(FromProjection(TypedProjection(j)).value) == Some(j)
  {
    TypedIs(j);
    RoundTrip(TypedOf(j));
  }

  /** The parser also accepts text that the printer never writes. */
  lemma NotCanonicalText()
    ensures FromProjection(Tagged("integer", [JString("+0")])) == Ok(TInt(0))
    ensures Projection(TInt(0)) != Tagged("integer", [JString("+0")])
  {
    assert "+0"[1..] == "0" && "0"[..0] == [];
    Numerals.ValueSnoc([], '0', 10);
    Numerals.NoDigits(10);
    assert [] + ['0'] == "0";
    assert Numerals.Value("0", 10) == Some(0);
    assert Numerals.PrintInteger(0) == "0";
  }
}
