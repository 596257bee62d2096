/** The cache key of a listing query: "products:" followed by the parsed
    query as JSON.stringify writes it, members in the schema's field order,
    undefined members left out. The listing cache is only correct if two
    different queries never share a key; CacheKeyInjective proves that. */
module QueryKey {
  import opened Wrappers
  import opened Json
  import opened ProductSchema

  /** A member's value as JSON text: a number or literal written as is, or a
      string written quoted. */
  datatype JsonText = Bare(text: string) | Quote(s: string)

  /** One member of the serialised object; an undefined value is left out. */
  datatype Field = Field(key: string, value: Option<JsonText>)

  predicate CommaFree(s: string) {
    forall k :: 0 <= k < |s| ==> s[k] != ','
  }

  // ---------------------------------------------------------------------------
  // JSON text of strings and numbers

  /** A backslash before each '"' and '\'. */
  function Escaped(s: string): string {
    if s == [] then []
    else (if s[0] == '"' || s[0] == '\\' then ['\\', s[0]] else [s[0]]) + Escaped(s[1..])
  }

  function Quoted(s: string): string {
    "\"" + Escaped(s) + "\""
  }

  function Digit(d: nat): (c: char)
    requires d < 10
    ensures IsDigit(c) && DigitValue(c) == d
  {
    ('0' as int + d) as char
  }

  /** The decimal numeral of n; reading it back gives n. */
  function ShowNat(n: nat): (s: string)
    ensures IsNumeral(s) && NumeralValue(s) == n
    decreases n
  {
    if n < 10 then [Digit(n)]
    else
      var s := ShowNat(n / 10) + [Digit(n % 10)];
      assert s[..|s| - 1] == ShowNat(n / 10);
      s
  }

  /** The last `width` decimal digits of r, zero-padded on the left. */
  function Padded(r: nat, width: nat): (s: string)
    ensures |s| == width && forall k :: 0 <= k < |s| ==> IsDigit(s[k])
  {
    if width == 0 then "" else Padded(r / 10, width - 1) + [Digit(r % 10)]
  }

  /** s without its trailing zeros. */
  function DropZeros(s: string): (t: string)
    ensures t <= s && forall k :: |t| <= k < |s| ==> s[k] == '0'
  {
    if s == [] || s[|s| - 1] != '0' then s else DropZeros(s[..|s| - 1])
  }

  function Magnitude(x: real): (r: real)
    ensures r >= 0.0 && (r == x || r == -x)
  {
    if x < 0.0 then -x else x
  }

  /** A number with at most 17 digits after the point: a whole number of
      units of 10^-17. */
  predicate FiniteDecimal(x: real) {
    IsInteger(Magnitude(x) * 100_000_000_000_000_000.0)
  }

  /** A non-negative number: its whole part, then '.' and its fraction digits
      when there are any, at most 17 of them (later digits are cut off). The
      number is first counted in units of 10^-17. */
  function Unsigned(m: real): (s: string)
    requires m >= 0.0
    ensures |s| >= 1 && IsDigit(s[0])
    ensures forall k :: 0 <= k < |s| ==> IsDigit(s[k]) || s[k] == '.'
  {
    var units := (m * 100_000_000_000_000_000.0).Floor;
    var frac := DropZeros(Padded(units % 100_000_000_000_000_000, 17));
    ShowNat(units / 100_000_000_000_000_000) + (if frac == "" then "" else "." + frac)
  }

  function ShowNumber(x: real): (s: string)
    ensures CommaFree(s)
  {
    if x < 0.0 then "-" + Unsigned(-x) else Unsigned(x)
  }

  // ---------------------------------------------------------------------------
  // The serialised query

  function Render(v: JsonText): string {
    match v
    case Bare(t) => t
    case Quote(s) => Quoted(s)
  }

  function Keyed(key: string): string {
    "\"" + key + "\":"
  }

  /** `"key":value,` for a defined value. */
  function Member(f: Field): string {
    if f.value.Some? then Keyed(f.key) + Render(f.value.value) + "," else ""
  }

  function Members(fs: seq<Field>): string {
    if fs == [] then "" else Member(fs[0]) + Members(fs[1..])
  }

  function NatValue(v: Option<nat>): Option<JsonText> {
    if v.Some? then Some(Bare(ShowNat(v.value))) else None
  }

  function NumberValue(v: Option<real>): Option<JsonText> {
    if v.Some? then Some(Bare(ShowNumber(v.value))) else None
  }

  function StringValue(v: Option<string>): Option<JsonText> {
    if v.Some? then Some(Quote(v.value)) else None
  }

  function SortByValue(v: Option<SortBy>): Option<JsonText> {
    if v.Some? then Some(Quote(SortByName(v.value))) else None
  }

  /** The members of the parsed query, in the schema's field order. */
  function Fields(q: ProductQuery): seq<Field> {
    [Field("page", NatValue(q.page)), Field("limit", NatValue(q.limit)),
     Field("name", StringValue(q.name)), Field("category", StringValue(q.category)),
     Field("minPrice", NumberValue(q.minPrice)), Field("maxPrice", NumberValue(q.maxPrice)),
     Field("featured", Some(Bare(if q.featured then "true" else "false"))),
     Field("sortBy", SortByValue(q.sortBy))]
  }

  /** The members without the last member's comma. */
  function Strip(body: string): string {
    if body == [] then [] else body[..|body| - 1]
  }

  /** The members between braces, without the last member's comma (featured
      is always written, so there is always a member). */
  function Serialized(q: ProductQuery): string {
    "{" + Strip(Members(Fields(q))) + "}"
  }

  /** `products:${JSON.stringify(query)}`. */
  function CacheKey(q: ProductQuery): (key: string)
    ensures "products:{" <= key && key[|key| - 1] == '}'
  {
    "products:" + Serialized(q)
  }

  // ---------------------------------------------------------------------------
  // Different queries have different keys

  /** Two strings whose characters satisfy `p`, each followed by a rest that is
      empty or starts with a character that does not, split equal texts alike. */
  lemma SplitAt(a: string, t1: string, b: string, t2: string, p: char -> bool)
    requires forall k :: 0 <= k < |a| ==> p(a[k])
    requires forall k :: 0 <= k < |b| ==> p(b[k])
    requires t1 == [] || !p(t1[0])
    requires t2 == [] || !p(t2[0])
    requires a + t1 == b + t2
    ensures a == b && t1 == t2
  {
    var s := a + t1;
    assert forall k :: 0 <= k < |a| ==> p(s[k]);
    assert |a| < |s| ==> s[|a|] == t1[0];
    assert forall k :: 0 <= k < |b| ==> p(s[k]);
    assert |b| < |s| ==> s[|b|] == t2[0];
    assert |a| == |b|;
    assert a == (a + t1)[..|a|] && b == (b + t2)[..|b|];
    assert t1 == (a + t1)[|a|..] && t2 == (b + t2)[|b|..];
  }

  /** An escaped string ends at its first unescaped quote. */
  lemma {:induction false} EscapedPrefixFree(a: string, b: string, r1: string, r2: string)
    requires Escaped(a) + "\"" + r1 == Escaped(b) + "\"" + r2
    ensures a == b && r1 == r2
    decreases |a|
  {
    if a == [] && b == [] {
      assert Escaped(a) == [] && Escaped(b) == [];
      assert Escaped(a) + "\"" + r1 == "\"" + r1 && Escaped(b) + "\"" + r2 == "\"" + r2;
      assert r1 == ("\"" + r1)[1..];
      assert r2 == ("\"" + r2)[1..];
    } else if a == [] {
      assert (Escaped(b) + "\"" + r2)[0] == Escaped(b)[0];
      assert false;
    } else if b == [] {
      assert (Escaped(a) + "\"" + r1)[0] == Escaped(a)[0];
      assert false;
    } else {
      var ea := if a[0] == '"' || a[0] == '\\' then ['\\', a[0]] else [a[0]];
      var eb := if b[0] == '"' || b[0] == '\\' then ['\\', b[0]] else [b[0]];
      var x1 := Escaped(a[1..]) + "\"" + r1;
      var x2 := Escaped(b[1..]) + "\"" + r2;
      assert Escaped(a) + "\"" + r1 == ea + x1;
      assert Escaped(b) + "\"" + r2 == eb + x2;
      assert (ea + x1)[0] == ea[0] && (eb + x2)[0] == eb[0];
      if |ea| == 2 {
        assert (ea + x1)[1] == ea[1] && (eb + x2)[1] == eb[1];
      }
      assert ea == eb;
      assert x1 == (ea + x1)[|ea|..] && x2 == (eb + x2)[|eb|..];
      EscapedPrefixFree(a[1..], b[1..], r1, r2);
      assert a == [a[0]] + a[1..] && b == [b[0]] + b[1..];
    }
  }

  /** Comma-free texts each followed by a comma are split alike. */
  lemma BareSeparates(a: string, b: string, r1: string, r2: string)
    requires CommaFree(a) && CommaFree(b)
    requires a + "," + r1 == b + "," + r2
    ensures a == b && r1 == r2
  {
    assert a + "," + r1 == a + ("," + r1) && b + "," + r2 == b + ("," + r2);
    SplitAt(a, "," + r1, b, "," + r2, (c: char) => c != ',');
    assert r1 == ("," + r1)[1..] && r2 == ("," + r2)[1..];
  }

  /** Quoted strings each followed by a comma are split alike. */
  lemma QuotedSeparates(a: string, b: string, r1: string, r2: string)
    requires Quoted(a) + "," + r1 == Quoted(b) + "," + r2
    ensures a == b && r1 == r2
  {
    var x1 := Escaped(a) + "\"" + ("," + r1);
    var x2 := Escaped(b) + "\"" + ("," + r2);
    assert Quoted(a) + "," + r1 == "\"" + x1;
    assert Quoted(b) + "," + r2 == "\"" + x2;
    assert x1 == ("\"" + x1)[1..] && x2 == ("\"" + x2)[1..];
    EscapedPrefixFree(a, b, "," + r1, "," + r2);
    assert r1 == ("," + r1)[1..] && r2 == ("," + r2)[1..];
  }

  /** A value followed by a comma is told apart from any other value of the
      same kind followed by a comma. */
  lemma RenderSeparates(a: JsonText, b: JsonText, r1: string, r2: string)
    requires a.Bare? == b.Bare?
    requires a.Bare? ==> CommaFree(a.text) && CommaFree(b.text)
    requires Render(a) + "," + r1 == Render(b) + "," + r2
    ensures a == b && r1 == r2
  {
    if a.Bare? {
      BareSeparates(a.text, b.text, r1, r2);
    } else {
      QuotedSeparates(a.s, b.s, r1, r2);
    }
  }

  /** Two keys without quotes that both start a text are the same key. */
  lemma KeyedUnique(a: string, b: string, s: string)
    requires '"' !in a && '"' !in b
    requires Keyed(a) <= s && Keyed(b) <= s
    ensures a == b
  {
    assert forall k :: 0 <= k < |a| ==> s[1 + k] == a[k] != '"';
    assert s[1 + |a|] == '"';
    assert forall k :: 0 <= k < |b| ==> s[1 + k] == b[k] != '"';
    assert s[1 + |b|] == '"';
    assert |a| == |b|;
    assert a == Keyed(a)[1..1 + |a|] == s[1..1 + |a|] == Keyed(b)[1..1 + |b|] == b;
  }

  /** Members with other keys never start with this key. */
  lemma {:induction false} NotKeyed(key: string, fs: seq<Field>)
    requires '"' !in key
    requires forall i :: 0 <= i < |fs| ==> '"' !in fs[i].key && fs[i].key != key
    ensures !(Keyed(key) <= Members(fs))
    decreases |fs|
  {
    if fs != [] {
      NotKeyed(key, fs[1..]);
      NotKeyedHead(key, fs[0], Members(fs[1..]));
    }
  }

  /** A member under another key, followed by a text that does not start with
      this key, does not start with it either. */
  lemma NotKeyedHead(key: string, f: Field, rest: string)
    requires '"' !in key && '"' !in f.key && f.key != key
    requires !(Keyed(key) <= rest)
    ensures !(Keyed(key) <= Member(f) + rest)
  {
    if f.value.Some? {
      var s := Member(f) + rest;
      assert s == Keyed(f.key) + (Render(f.value.value) + "," + rest);
      if Keyed(key) <= s {
        KeyedUnique(key, f.key, s);
        assert false;
      }
    }
  }

  predicate KeysDistinct(fs: seq<Field>) {
    (forall i :: 0 <= i < |fs| ==> '"' !in fs[i].key) &&
    (forall i, j :: 0 <= i < j < |fs| ==> fs[i].key != fs[j].key)
  }

  /** Same keys in the same order, and values of the same kind, bare values
      without commas. */
  predicate SameKind(a: Field, b: Field) {
    a.key == b.key &&
    (a.value.Some? && b.value.Some? ==>
       a.value.value.Bare? == b.value.value.Bare? &&
       (a.value.value.Bare? ==> CommaFree(a.value.value.text) && CommaFree(b.value.value.text)))
  }

  predicate SameShape(f1: seq<Field>, f2: seq<Field>) {
    |f1| == |f2| && forall i :: 0 <= i < |f1| ==> SameKind(f1[i], f2[i])
  }

  /** Two members under one key, each followed by a text that does not start
      with that key, are split alike. */
  lemma MemberSeparates(h1: Field, h2: Field, r1: string, r2: string)
    requires SameKind(h1, h2) && '"' !in h1.key
    requires !(Keyed(h1.key) <= r1) && !(Keyed(h1.key) <= r2)
    requires Member(h1) + r1 == Member(h2) + r2
    ensures h1 == h2 && r1 == r2
  {
    var k := Keyed(h1.key);
    assert h1.value.Some? ==> Member(h1) + r1 == k + (Render(h1.value.value) + "," + r1);
    assert h2.value.Some? ==> Member(h2) + r2 == k + (Render(h2.value.value) + "," + r2);
    assert h1.value.None? ==> Member(h1) + r1 == r1;
    assert h2.value.None? ==> Member(h2) + r2 == r2;
    assert h1.value.Some? <==> h2.value.Some?;
    if h1.value.Some? {
      var x1 := Render(h1.value.value) + "," + r1;
      var x2 := Render(h2.value.value) + "," + r2;
      assert x1 == (k + x1)[|k|..] && x2 == (k + x2)[|k|..];
      RenderSeparates(h1.value.value, h2.value.value, r1, r2);
    }
  }

  /** What a list of one shape with distinct keys says about its head and
      its tail. */
  lemma TailShape(f1: seq<Field>, f2: seq<Field>)
    requires f1 != [] && KeysDistinct(f1) && SameShape(f1, f2)
    ensures KeysDistinct(f1[1..]) && SameShape(f1[1..], f2[1..])
    ensures SameKind(f1[0], f2[0]) && '"' !in f1[0].key
    ensures forall i :: 0 <= i < |f1| - 1 ==> '"' !in f1[1..][i].key && f1[1..][i].key != f1[0].key
    ensures forall i :: 0 <= i < |f2| - 1 ==> '"' !in f2[1..][i].key && f2[1..][i].key != f1[0].key
  {
    assert forall i :: 0 <= i < |f1| - 1 ==> f1[1..][i] == f1[i + 1] && f2[1..][i] == f2[i + 1];
  }

  /** Member lists of one shape with distinct keys serialise differently
      unless they are equal. */
  lemma {:induction false} MembersInjective(f1: seq<Field>, f2: seq<Field>)
    requires KeysDistinct(f1) && SameShape(f1, f2)
    requires Members(f1) == Members(f2)
    ensures f1 == f2
    decreases |f1|
  {
    if f1 != [] {
      var t1, t2 := f1[1..], f2[1..];
      TailShape(f1, f2);
      NotKeyed(f1[0].key, t1);
      NotKeyed(f1[0].key, t2);
      assert Members(f1) == Member(f1[0]) + Members(t1);
      assert Members(f2) == Member(f2[0]) + Members(t2);
      MemberSeparates(f1[0], f2[0], Members(t1), Members(t2));
      MembersInjective(t1, t2);
      assert f1 == [f1[0]] + t1 && f2 == [f2[0]] + t2;
    }
  }

  /** A member list is empty or ends with the comma of its last member. */
  lemma {:induction false} MembersEndWithComma(fs: seq<Field>)
    ensures Members(fs) == [] || (|Members(fs)| >= 2 && Members(fs)[|Members(fs)| - 1] == ',')
    decreases |fs|
  {
    if fs != [] {
      MembersEndWithComma(fs[1..]);
    }
  }

  lemma ScaleIsPow10()
    ensures Pow10(17) == 100_000_000_000_000_000
  {
    assert Pow10(4) == 10_000;
    assert Pow10(8) == 100_000_000;
    assert Pow10(12) == 1_000_000_000_000;
    assert Pow10(16) == 10_000_000_000_000_000;
  }

  /** Numbers below 10^width have different padded digits. */
  lemma {:induction false} PaddedInjective(r1: nat, r2: nat, width: nat)
    requires r1 < Pow10(width) && r2 < Pow10(width)
    requires Padded(r1, width) == Padded(r2, width)
    ensures r1 == r2
    decreases width
  {
    if width > 0 {
      var s1, s2 := Padded(r1, width), Padded(r2, width);
      assert s1[..width - 1] == Padded(r1 / 10, width - 1) && s1[width - 1] == Digit(r1 % 10);
      assert s2[..width - 1] == Padded(r2 / 10, width - 1) && s2[width - 1] == Digit(r2 % 10);
      assert r1 % 10 == DigitValue(Digit(r1 % 10)) == DigitValue(Digit(r2 % 10)) == r2 % 10;
      PaddedInjective(r1 / 10, r2 / 10, width - 1);
    }
  }

  /** Strings of one length that agree once trailing zeros are dropped are
      equal. */
  lemma DropZerosInjective(s1: string, s2: string)
    requires |s1| == |s2| && DropZeros(s1) == DropZeros(s2)
    ensures s1 == s2
  {
    var t := DropZeros(s1);
    assert forall k :: 0 <= k < |s1| ==> s1[k] == s2[k] by {
      forall k | 0 <= k < |s1|
        ensures s1[k] == s2[k]
      {
        if k < |t| {
          assert s1[k] == t[k] == s2[k];
        }
      }
    }
  }

  /** The number of units of 10^-17 in m, and its text split into the whole
      part's numeral and the fraction digits. */
  function Units(m: real): int {
    (m * 100_000_000_000_000_000.0).Floor
  }

  function FractionText(m: real): string
    requires m >= 0.0
  {
    DropZeros(Padded(Units(m) % 100_000_000_000_000_000, 17))
  }

  /** Equal texts of non-negative numbers count the same units. */
  lemma UnsignedSplit(m1: real, m2: real)
    requires m1 >= 0.0 && m2 >= 0.0
    requires Unsigned(m1) == Unsigned(m2)
    ensures Units(m1) == Units(m2)
  {
    var n1, n2 := Units(m1), Units(m2);
    var f1, f2 := FractionText(m1), FractionText(m2);
    var t1 := if f1 == "" then "" else "." + f1;
    var t2 := if f2 == "" then "" else "." + f2;
    assert Unsigned(m1) == ShowNat(n1 / 100_000_000_000_000_000) + t1;
    assert Unsigned(m2) == ShowNat(n2 / 100_000_000_000_000_000) + t2;
    SplitAt(ShowNat(n1 / 100_000_000_000_000_000), t1, ShowNat(n2 / 100_000_000_000_000_000), t2, IsDigit);
    assert n1 / 100_000_000_000_000_000 == NumeralValue(ShowNat(n1 / 100_000_000_000_000_000))
        == NumeralValue(ShowNat(n2 / 100_000_000_000_000_000)) == n2 / 100_000_000_000_000_000;
    assert f1 == (if t1 == "" then "" else t1[1..]);
    assert f2 == (if t2 == "" then "" else t2[1..]);
    DropZerosInjective(Padded(n1 % 100_000_000_000_000_000, 17), Padded(n2 % 100_000_000_000_000_000, 17));
    ScaleIsPow10();
    PaddedInjective(n1 % 100_000_000_000_000_000, n2 % 100_000_000_000_000_000, 17);
  }

  /** Non-negative numbers with at most 17 fractional digits that print alike
      are equal. */
  lemma UnsignedInjective(m1: real, m2: real)
    requires m1 >= 0.0 && FiniteDecimal(m1)
    requires m2 >= 0.0 && FiniteDecimal(m2)
    requires Unsigned(m1) == Unsigned(m2)
    ensures m1 == m2
  {
    UnsignedSplit(m1, m2);
    assert Magnitude(m1) == m1 && Magnitude(m2) == m2;
    assert Units(m1) as real == m1 * 100_000_000_000_000_000.0;
    assert Units(m2) as real == m2 * 100_000_000_000_000_000.0;
  }

  /** A minus sign is written exactly for negative numbers. */
  lemma SignShown(x: real)
    ensures |ShowNumber(x)| >= 1
    ensures ShowNumber(x)[0] == '-' <==> x < 0.0
    ensures x < 0.0 ==> ShowNumber(x)[1..] == Unsigned(-x)
    ensures x >= 0.0 ==> ShowNumber(x) == Unsigned(x)
  {
    if x >= 0.0 {
      assert IsDigit(Unsigned(x)[0]);
    }
  }

  /** Equal texts have the same sign and equal digits. */
  lemma SameMagnitudeText(x: real, y: real)
    requires ShowNumber(x) == ShowNumber(y)
    ensures x < 0.0 <==> y < 0.0
    ensures x < 0.0 ==> Unsigned(-x) == Unsigned(-y)
    ensures x >= 0.0 ==> Unsigned(x) == Unsigned(y)
  {
    SignShown(x);
    SignShown(y);
  }

  /** Numbers with at most 17 fractional digits that print alike are equal. */
  lemma ShowNumberInjective(x: real, y: real)
    requires FiniteDecimal(x) && FiniteDecimal(y)
    requires ShowNumber(x) == ShowNumber(y)
    ensures x == y
  {
    SameMagnitudeText(x, y);
    if x < 0.0 {
      NegativeInjective(x, y);
    } else {
      UnsignedInjective(x, y);
    }
  }

  /** Negative numbers whose magnitudes print alike are equal. */
  lemma NegativeInjective(x: real, y: real)
    requires x < 0.0 && y < 0.0 && FiniteDecimal(x) && FiniteDecimal(y)
    requires Unsigned(-x) == Unsigned(-y)
    ensures x == y
  {
    assert Magnitude(-x) == Magnitude(x) && Magnitude(-y) == Magnitude(y);
    UnsignedInjective(-x, -y);
  }

  /** Each ordering's spelling reads back as that ordering. */
  lemma SortByNameParses(s: SortBy)
    ensures ParseSortBy(Some(SortByName(s))) == Ok(s)
  {
    match s
    case PriceAscending =>
    case PriceDescending =>
    case Newest =>
    case Oldest =>
  }

  lemma FieldKeysDistinct(q: ProductQuery)
    ensures KeysDistinct(Fields(q))
  {
  }

  lemma NatKind(key: string, a: Option<nat>, b: Option<nat>)
    ensures SameKind(Field(key, NatValue(a)), Field(key, NatValue(b)))
  {
    if a.Some? && b.Some? {
      assert IsNumeral(ShowNat(a.value)) && IsNumeral(ShowNat(b.value));
    }
  }

  lemma NumberKind(key: string, a: Option<real>, b: Option<real>)
    ensures SameKind(Field(key, NumberValue(a)), Field(key, NumberValue(b)))
  {
  }

  lemma FieldsShape(q1: ProductQuery, q2: ProductQuery)
    ensures KeysDistinct(Fields(q1)) && SameShape(Fields(q1), Fields(q2))
  {
    FieldKeysDistinct(q1);
    var f1, f2 := Fields(q1), Fields(q2);
    NatKind("page", q1.page, q2.page);
    NatKind("limit", q1.limit, q2.limit);
    NumberKind("minPrice", q1.minPrice, q2.minPrice);
    NumberKind("maxPrice", q1.maxPrice, q2.maxPrice);
    forall i | 0 <= i < |f1|
      ensures SameKind(f1[i], f2[i])
    {
      if i < 2 {
        assert i == 0 || i == 1;
      } else if i < 4 {
        assert i == 2 || i == 3;
      } else if i < 6 {
        assert i == 4 || i == 5;
      } else {
        assert i == 6 || i == 7;
      }
    }
  }

  /** Bodies that are empty or end with a comma are recovered from what is
      left once the comma is dropped. */
  lemma StripInjective(b1: string, b2: string)
    requires b1 == [] || (|b1| >= 2 && b1[|b1| - 1] == ',')
    requires b2 == [] || (|b2| >= 2 && b2[|b2| - 1] == ',')
    requires Strip(b1) == Strip(b2)
    ensures b1 == b2
  {
    if b1 != [] && b2 != [] {
      assert b1 == Strip(b1) + [','] && b2 == Strip(b2) + [','];
    }
  }

  /** Equal keys hold equal member texts. */
  lemma KeyMembers(q1: ProductQuery, q2: ProductQuery)
    requires CacheKey(q1) == CacheKey(q2)
    ensures Members(Fields(q1)) == Members(Fields(q2))
  {
    var b1, b2 := Members(Fields(q1)), Members(Fields(q2));
    assert Serialized(q1) == "{" + Strip(b1) + "}" && Serialized(q2) == "{" + Strip(b2) + "}";
    assert Serialized(q1) == CacheKey(q1)[9..] && Serialized(q2) == CacheKey(q2)[9..];
    assert Strip(b1) == Serialized(q1)[1..|Serialized(q1)| - 1];
    assert Strip(b2) == Serialized(q2)[1..|Serialized(q2)| - 1];
    MembersEndWithComma(Fields(q1));
    MembersEndWithComma(Fields(q2));
    StripInjective(b1, b2);
  }

  /** Equal keys mean equal member lists. */
  lemma SerializedInjective(q1: ProductQuery, q2: ProductQuery)
    requires CacheKey(q1) == CacheKey(q2)
    ensures Fields(q1) == Fields(q2)
  {
    KeyMembers(q1, q2);
    FieldsShape(q1, q2);
    MembersInjective(Fields(q1), Fields(q2));
  }

  /** Equal member lists mean equal queries. */
  lemma FieldsInjective(q1: ProductQuery, q2: ProductQuery)
    requires q1.minPrice.Some? ==> FiniteDecimal(q1.minPrice.value)
    requires q1.maxPrice.Some? ==> FiniteDecimal(q1.maxPrice.value)
    requires q2.minPrice.Some? ==> FiniteDecimal(q2.minPrice.value)
    requires q2.maxPrice.Some? ==> FiniteDecimal(q2.maxPrice.value)
    requires Fields(q1) == Fields(q2)
    ensures q1 == q2
  {
    var f1, f2 := Fields(q1), Fields(q2);
    assert f1[0] == f2[0] && f1[1] == f2[1] && f1[4] == f2[4] && f1[5] == f2[5] && f1[7] == f2[7];
    if q1.minPrice.Some? {
      ShowNumberInjective(q1.minPrice.value, q2.minPrice.value);
    }
    if q1.maxPrice.Some? {
      ShowNumberInjective(q1.maxPrice.value, q2.maxPrice.value);
    }
    if q1.sortBy.Some? {
      SortByNameParses(q1.sortBy.value);
      SortByNameParses(q2.sortBy.value);
    }
    if q1.page.Some? {
      assert q1.page.value == NumeralValue(ShowNat(q1.page.value)) == NumeralValue(ShowNat(q2.page.value));
    }
    if q1.limit.Some? {
      assert q1.limit.value == NumeralValue(ShowNat(q1.limit.value)) == NumeralValue(ShowNat(q2.limit.value));
    }
  }

  /** Different queries get different keys, so a cache hit returns the page
      stored for the very same query (prices with at most 17 fractional
      digits). */
  lemma CacheKeyInjective(q1: ProductQuery, q2: ProductQuery)
    requires q1.minPrice.Some? ==> FiniteDecimal(q1.minPrice.value)
    requires q1.maxPrice.Some? ==> FiniteDecimal(q1.maxPrice.value)
    requires q2.minPrice.Some? ==> FiniteDecimal(q2.minPrice.value)
    requires q2.maxPrice.Some? ==> FiniteDecimal(q2.maxPrice.value)
    ensures CacheKey(q1) == CacheKey(q2) <==> q1 == q2
  {
    if CacheKey(q1) == CacheKey(q2) {
      SerializedInjective(q1, q2);
      FieldsInjective(q1, q2);
    }
  }
}
