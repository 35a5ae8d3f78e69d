/** Integer-valued JavaScript numbers as the pages produce them with
    `Number.parseInt`, their decimal `toString`, and their truthiness
    (`n || fallback`). Only integers and NaN arise in the modelled code. */
module JsNumber {
  import opened Wrappers
  import JsString

  datatype JsInt = Int(value: int) | NaN

  /** A number is truthy unless it is 0 or NaN. */
  predicate Truthy(n: JsInt) {
    n.Int? && n.value != 0
  }

  /** `n || fallback` for an optional number: the result is never 0 unless
      the fallback is. */
  function OrInt(o: Option<JsInt>, fallback: int): (r: int)
    ensures o.Some? && Truthy(o.value) ==> r == o.value.value
    ensures !(o.Some? && Truthy(o.value)) ==> r == fallback
  {
    if o.Some? && Truthy(o.value) then o.value.value else fallback
  }

  /** `v` is what `o || fallback` yields for an optional number. */
  predicate Defaulted(o: Option<JsInt>, fallback: int, v: int) {
    if o.Some? && Truthy(o.value) then v == o.value.value else v == fallback
  }

  predicate IsDigit(c: char) { '0' <= c <= '9' }

  predicate AllDigits(s: string) {
    forall i | 0 <= i < |s| :: IsDigit(s[i])
  }

  function DigitChar(d: nat): (c: char)
    requires d < 10
    ensures IsDigit(c) && c as int - '0' as int == d
  {
    ('0' as int + d) as char
  }

  /** Decimal digits of a natural number, most significant first, without
      leading zeros. */
  function NatToString(n: nat): (s: string)
    ensures |s| >= 1 && AllDigits(s)
    ensures |s| > 1 ==> s[0] != '0'
  {
    if n < 10 then [DigitChar(n)]
    else
      var p := NatToString(n / 10);
      p + [DigitChar(n % 10)]
  }

  function IntToString(n: int): (s: string)
    ensures s != ""
  {
    if n < 0 then "-" + NatToString(-n) else NatToString(n)
  }

  /** `n.toString()` */
  function ToString(n: JsInt): (s: string)
    ensures s != ""
  {
    match n
    case Int(v) => IntToString(v)
    case NaN => "NaN"
  }

  /** `n?.toString() || fallback`: a present number is always written, even
      0 or NaN, since its text is never empty. */
  function ToStringOr(o: Option<JsInt>, fallback: string): (r: string)
    ensures o.Some? ==> r == ToString(o.value) && r != ""
    ensures o.None? ==> r == fallback
  {
    match o
    case Some(n) => ToString(n)
    case None => fallback
  }

  /** `text ? Number.parseInt(text) : fallback` */
  function ParseIntOr(text: Option<string>, fallback: int): (r: JsInt)
    ensures JsString.Truthy(text) ==> r == ParseInt(text.value)
    ensures !JsString.Truthy(text) ==> r == Int(fallback)
  {
    if JsString.Truthy(text) then ParseInt(text.value) else Int(fallback)
  }

  /** The value of a string of decimal digits. */
  function DigitsValue(s: string): nat
    requires AllDigits(s)
  {
    if s == [] then 0
    else DigitsValue(s[..|s| - 1]) * 10 + (s[|s| - 1] as int - '0' as int)
  }

  /** The length of the longest run of digits at the front of `s`. */
  function DigitRun(s: string): (k: nat)
    ensures k <= |s| && AllDigits(s[..k])
    ensures k < |s| ==> !IsDigit(s[k])
  {
    if s == [] || !IsDigit(s[0]) then 0
    else
      var k := DigitRun(s[1..]);
      assert s[..k + 1] == [s[0]] + s[1..][..k];
      1 + k
  }

  /** The number read from the digit run at the front of `u`, negated when
      a minus sign preceded it; no digits gives NaN. */
  function ReadDigits(u: string, negative: bool): JsInt {
    var k := DigitRun(u);
    if k == 0 then NaN
    else
      var magnitude: int := DigitsValue(u[..k]);
      Int(if negative then -magnitude else magnitude)
  }

  /** `Number.parseInt(s)` in base 10: leading whitespace and one sign are
      skipped, then the longest run of digits is read; no digits gives NaN. */
  function ParseInt(s: string): JsInt {
    var t := JsString.TrimStart(s);
    if |t| > 0 && t[0] == '-' then ReadDigits(t[1..], true)
    else if |t| > 0 && t[0] == '+' then ReadDigits(t[1..], false)
    else ReadDigits(t, false)
  }

  lemma {:induction false} DigitsValueOfNatToString(n: nat)
    ensures DigitsValue(NatToString(n)) == n
    decreases n
  {
    if n >= 10 {
      var p := NatToString(n / 10);
      DigitsValueOfNatToString(n / 10);
      assert (p + [DigitChar(n % 10)])[..|p|] == p;
    }
  }

  lemma {:induction false} DigitRunOfDigitsThen(d: string, rest: string)
    requires AllDigits(d) && (rest == [] || !IsDigit(rest[0]))
    ensures DigitRun(d + rest) == |d|
    decreases |d|
  {
    if |d| > 0 {
      assert (d + rest)[1..] == d[1..] + rest;
      DigitRunOfDigitsThen(d[1..], rest);
    }
  }

  lemma ReadDigitsOfDigitsThen(d: string, rest: string, negative: bool)
    requires |d| >= 1 && AllDigits(d) && (rest == [] || !IsDigit(rest[0]))
    ensures ReadDigits(d + rest, negative) == Int(if negative then -(DigitsValue(d) as int) else DigitsValue(d))
  {
    DigitRunOfDigitsThen(d, rest);
    TakeOfAppend(d, rest);
  }

  lemma TakeOfAppend(d: string, rest: string)
    ensures (d + rest)[..|d|] == d
  {
  }

  lemma ParseIntOfDigitsThen(d: string, rest: string)
    requires |d| >= 1 && AllDigits(d) && (rest == [] || !IsDigit(rest[0]))
    ensures ParseInt(d + rest) == Int(DigitsValue(d))
  {
    var m := d + rest;
    var c := m[0];
    assert c == d[0] && IsDigit(c);
    assert !JsString.IsWhitespace(c) && c != '-' && c != '+';
    JsString.TrimStartKeeps(m);
    assert ParseInt(m) == ReadDigits(m, false);
    ReadDigitsOfDigitsThen(d, rest, false);
  }

  lemma ParseIntOfNegativeDigitsThen(d: string, rest: string)
    requires |d| >= 1 && AllDigits(d) && (rest == [] || !IsDigit(rest[0]))
    ensures ParseInt("-" + (d + rest)) == Int(-(DigitsValue(d) as int))
  {
    var u := d + rest;
    var m := "-" + u;
    assert m[0] == '-';
    assert m[1..] == u;
    JsString.TrimStartKeeps(m);
    assert ParseInt(m) == ReadDigits(u, true);
    ReadDigitsOfDigitsThen(d, rest, true);
  }

  /** `parseInt` reads an integer's text back even when other text that
      does not start with a digit follows it, as a unit does. */
  lemma ParseIntOfIntTextThen(v: int, rest: string)
    requires rest == [] || !IsDigit(rest[0])
    ensures ParseInt(IntToString(v) + rest) == Int(v)
  {
    if v < 0 {
      DigitsValueOfNatToString(-v);
      ParseIntOfNegativeDigitsThen(NatToString(-v), rest);
      assert IntToString(v) + rest == "-" + (NatToString(-v) + rest);
    } else {
      DigitsValueOfNatToString(v);
      ParseIntOfDigitsThen(NatToString(v), rest);
      assert IntToString(v) == NatToString(v);
    }
  }

  lemma ParseIntOfNaNText()
    ensures ParseInt("NaN") == NaN
  {
    JsString.TrimStartKeeps("NaN");
    assert DigitRun("NaN") == 0;
  }

  /** Parsing a number's decimal text gives the number back. */
  lemma ParseIntOfToString(n: JsInt)
    ensures ParseInt(ToString(n)) == n
  {
    match n
    case NaN =>
      ParseIntOfNaNText();
    case Int(v) =>
      ParseIntOfIntTextThen(v, "");
      assert ToString(n) + "" == IntToString(v);
  }

  /** A number written with `n?.toString() || "1"`, read back with
      `text ? parseInt(text) : 1` and then defaulted with `|| 1` is what
      defaulting the original gives. */
  lemma NumberTextRoundTrip(o: Option<JsInt>)
    ensures OrInt(Some(ParseIntOr(Some(ToStringOr(o, "1")), 1)), 1) == OrInt(o, 1)
  {
    if o.Some? {
      ParseIntOfToString(o.value);
    } else {
      ParseIntOfToString(Int(1));
      assert ToString(Int(1)) == "1";
    }
  }
}
