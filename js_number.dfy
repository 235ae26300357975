/** The two number conversions the worker relies on: the global `parseInt` with no radix
    (ECMA-262, section 19.2.5) and the decimal text of an integral Number, which is what a
    number written to the key-value store reads back as. Numbers are modelled as unbounded
    integers: the rounding of Numbers above 2^53 is not modelled. */
module JsNumber {
  import opened Wrappers

  /** StrWhiteSpaceChar of ECMA-262: the white space and line terminators `parseInt` skips. */
  predicate IsStrWhiteSpace(c: char) {
    || c == '\t' || c == '\U{000B}' || c == '\U{000C}' || c == ' ' || c == '\U{00A0}'
    || c == '\U{FEFF}' || c == '\n' || c == '\r' || c == '\U{2028}' || c == '\U{2029}'
    || c == '\U{1680}' || ('\U{2000}' <= c <= '\U{200A}') || c == '\U{202F}'
    || c == '\U{205F}' || c == '\U{3000}'
  }

  /** `s` without its leading white space. */
  function TrimStart(s: string): (r: string)
    ensures |r| <= |s| && r == s[|s| - |r|..]
    ensures r == [] || !IsStrWhiteSpace(r[0])
    ensures forall i :: 0 <= i < |s| - |r| ==> IsStrWhiteSpace(s[i])
  {
    if s != [] && IsStrWhiteSpace(s[0]) then TrimStart(s[1..]) else s
  }

  /** The value of `c` as a digit of radix up to 36 (letters of either case from 10 on),
      or 36 when `c` is no such digit. */
  function DigitValue(c: char): (v: nat)
    ensures v <= 36
  {
    if '0' <= c <= '9' then c as int - '0' as int
    else if 'a' <= c <= 'z' then c as int - 'a' as int + 10
    else if 'A' <= c <= 'Z' then c as int - 'A' as int + 10
    else 36
  }

  /** The length of the longest prefix of `s` made of digits of radix `radix`. */
  function DigitRun(s: string, radix: nat): (n: nat)
    ensures n <= |s|
    ensures forall i :: 0 <= i < n ==> DigitValue(s[i]) < radix
    ensures n < |s| ==> DigitValue(s[n]) >= radix
  {
    if s != [] && DigitValue(s[0]) < radix then 1 + DigitRun(s[1..], radix) else 0
  }

  /** The number that the digit string `ds` denotes in radix `radix`. */
  function ValueOf(ds: string, radix: nat): nat {
    if ds == [] then 0 else ValueOf(ds[..|ds| - 1], radix) * radix + DigitValue(ds[|ds| - 1])
  }

  /** `parseInt(s)` with the radix left undefined: skip white space, read an optional sign,
      an optional `0x`/`0X` prefix that switches to radix 16, then the longest run of
      digits. No digits at all is NaN, here `None`. */
  function ParseInt(s: string): (r: Option<int>)
    ensures r.None? <==> DigitRun(Body(s), Radix(s)) == 0
  {
    var body := Body(s);
    var n := DigitRun(body, Radix(s));
    if n == 0 then None
    else
      var v: int := ValueOf(body[..n], Radix(s));
      Some(if Negative(s) then -v else v)
  }

  /** The text after white space and sign. */
  function Unsigned(s: string): string {
    var t := TrimStart(s);
    if t != [] && (t[0] == '-' || t[0] == '+') then t[1..] else t
  }

  predicate Negative(s: string) {
    var t := TrimStart(s);
    t != [] && t[0] == '-'
  }

  predicate HexPrefixed(s: string) {
    var u := Unsigned(s);
    |u| >= 2 && u[0] == '0' && (u[1] == 'x' || u[1] == 'X')
  }

  function Radix(s: string): nat {
    if HexPrefixed(s) then 16 else 10
  }

  /** The text whose leading digits `parseInt` reads. */
  function Body(s: string): string {
    var u := Unsigned(s);
    if HexPrefixed(s) then u[2..] else u
  }

  /** JavaScript's `String(v)` for a string or `null`. */
  function JsToString(v: Option<string>): string {
    match v
    case Some(s) => s
    case None => "null"
  }

  /** `parseInt(v) || fallback`: NaN and zero are falsy, so both give `fallback`; a missing
      value is first converted to the text "null", which has no digits. */
  function ParseIntOr(v: Option<string>, fallback: int): (r: int)
    ensures v.None? ==> r == fallback
    ensures ParseInt(JsToString(v)).None? ==> r == fallback
    ensures ParseInt(JsToString(v)) == Some(0) ==> r == fallback
    ensures ParseInt(JsToString(v)).Some? && ParseInt(JsToString(v)).value != 0 ==>
      r == ParseInt(JsToString(v)).value
    ensures r == 0 ==> fallback == 0
  {
    NullIsNaN();
    match ParseInt(JsToString(v))
    case None => fallback
    case Some(n) => if n == 0 then fallback else n
  }

  function DigitChar(d: nat): (c: char)
    requires d < 10
    ensures DigitValue(c) == d
  {
    ('0' as int + d) as char
  }

  /** The decimal digits of `n`, without leading zeros. */
  function NatDigits(n: nat): (r: string)
    ensures |r| >= 1
    ensures forall i :: 0 <= i < |r| ==> '0' <= r[i] <= '9'
  {
    if n < 10 then [DigitChar(n)] else NatDigits(n / 10) + [DigitChar(n % 10)]
  }

  /** The text of the integral Number `n`, as `String(n)` writes it (below 10^21). */
  function DecimalString(n: int): string {
    if n < 0 then "-" + NatDigits(-n) else NatDigits(n)
  }

  lemma {:induction false} NatDigitsValue(n: nat)
    ensures ValueOf(NatDigits(n), 10) == n
  {
    var ds := NatDigits(n);
    if n >= 10 {
      NatDigitsValue(n / 10);
      assert ds[..|ds| - 1] == NatDigits(n / 10);
    }
  }

  lemma {:induction false} NatDigitsLeading(n: nat)
    ensures NatDigits(n)[0] == '0' ==> n == 0
  {
    if n >= 10 {
      NatDigitsLeading(n / 10);
      assert NatDigits(n)[0] == NatDigits(n / 10)[0];
    }
  }

  lemma {:induction false} AllDigitsRun(ds: string)
    requires forall i :: 0 <= i < |ds| ==> '0' <= ds[i] <= '9'
    ensures DigitRun(ds, 10) == |ds|
  {
    if ds != [] {
      AllDigitsRun(ds[1..]);
    }
  }

  /** The text "null" that a missing value turns into has no digits. */
  lemma NullIsNaN()
    ensures ParseInt("null") == None
  {
    var s := "null";
    NoLeadingSpace(s);
    assert Unsigned(s) == s;
    assert !HexPrefixed(s);
    assert DigitValue(s[0]) >= 10;
  }

  lemma NoLeadingSpace(s: string)
    requires s != [] && !IsStrWhiteSpace(s[0])
    ensures TrimStart(s) == s
  {
  }

  /** What the worker writes as a number reads back, through `parseInt`, as that number. */
  lemma DecimalRoundTrip(n: int)
    ensures ParseInt(DecimalString(n)) == Some(n)
  {
    var m := if n < 0 then -n else n;
    var ds := NatDigits(m);
    DecimalShape(n);
    AllDigitsRun(ds);
    NatDigitsValue(m);
    assert ds[..|ds|] == ds;
  }

  /** A decimal numeral is read in radix 10, its sign is its own, and its digits are all
      of the body. */
  lemma DecimalShape(n: int)
    ensures var s, m := DecimalString(n), if n < 0 then -n else n;
      Body(s) == NatDigits(m) && Radix(s) == 10 && Negative(s) == (n < 0)
  {
    var m := if n < 0 then -n else n;
    var ds := NatDigits(m);
    var s := DecimalString(n);
    SignedDigitsShape(s, ds, n < 0);
    NatDigitsLeading(m);
    assert !HexPrefixed(s);
  }

  lemma SignedDigitsShape(s: string, ds: string, neg: bool)
    requires |ds| >= 1 && '0' <= ds[0] <= '9'
    requires s == if neg then "-" + ds else ds
    ensures Unsigned(s) == ds && Negative(s) == neg
  {
    assert !IsStrWhiteSpace(s[0]);
    NoLeadingSpace(s);
    if neg {
      assert s[1..] == ds;
    }
  }

  /** The counter the worker stores reads back as exactly that counter: `String(c)` then
      `parseInt(...) || 0` is the identity, zero included. */
  lemma StoredCountReadsBack(c: int)
    ensures ParseIntOr(Some(DecimalString(c)), 0) == c
  {
    DecimalRoundTrip(c);
  }
}
