/**
 * The slice of JavaScript value semantics the session coordinator relies on:
 * plain objects as records, property access, template-literal interpolation
 * of a value into a string, and `String.prototype.toUpperCase` on ASCII text.
 */
module JsValues {
  import opened Outcomes

  /** The largest integer a JavaScript number holds exactly (`Number.MAX_SAFE_INTEGER`). */
  const MAX_SAFE_INTEGER: int := 0x1F_FFFF_FFFF_FFFF

  /**
   * The safe integers (|n| <= 2^53 - 1): every one is an exact JavaScript
   * number, and `${n}` prints it as its plain decimal numeral.
   */
  type SafeInteger = n: int | -MAX_SAFE_INTEGER <= n <= MAX_SAFE_INTEGER

  /** A JSON-like JavaScript value. Numbers are safe integers here. */
  datatype Value =
    | Undefined
    | Null
    | Bool(b: bool)
    | Num(n: SafeInteger)
    | Str(s: string)
    | Obj(fields: map<string, Value>)

  /** A plain object: field name to value. */
  type Record = map<string, Value>

  /** Property access `r.key`; a missing property reads as `undefined`. */
  function Field(r: Record, key: string): Value {
    if key in r then r[key] else Undefined
  }

  // ---------------------------------------------------------------------------
  // Decimal rendering of integers (what `${n}` produces for an integral number)
  // ---------------------------------------------------------------------------

  predicate IsDigit(c: char) {
    '0' <= c <= '9'
  }

  predicate AllDigits(s: string) {
    forall i :: 0 <= i < |s| ==> IsDigit(s[i])
  }

  function DigitChar(d: nat): (c: char)
    requires d < 10
    ensures IsDigit(c) && c as int - '0' as int == d
  {
    ('0' as int + d) as char
  }

  /** The shortest decimal numeral of `n`: non-empty, digits only, no leading zero. */
  function Digits(n: nat): (r: string)
    ensures |r| > 0 && AllDigits(r)
    ensures r[0] == '0' ==> n == 0
    decreases n
  {
    if n < 10 then [DigitChar(n)] else Digits(n / 10) + [DigitChar(n % 10)]
  }

  /** The number a digit string denotes (leading zeros allowed). */
  function ParseDigits(s: string): nat
    requires AllDigits(s)
  {
    if s == [] then 0
    else ParseDigits(s[..|s| - 1]) * 10 + (s[|s| - 1] as int - '0' as int)
  }

  /** `${n}` for an integer `n`. */
  function Decimal(n: int): string {
    if n < 0 then "-" + Digits(-n) else Digits(n)
  }

  /** Reads back an optionally signed decimal numeral; `None` for anything else. */
  function ParseDecimal(s: string): Option<int> {
    if |s| > 1 && s[0] == '-' && AllDigits(s[1..]) then Some(-(ParseDigits(s[1..]) as int))
    else if |s| > 0 && AllDigits(s) then Some(ParseDigits(s))
    else None
  }

  lemma {:induction false} ParseDigitsOfDigits(n: nat)
    ensures ParseDigits(Digits(n)) == n
    decreases n
  {
    if n >= 10 {
      var prefix := Digits(n / 10);
      var s := prefix + [DigitChar(n % 10)];
      assert s[..|s| - 1] == prefix;
      ParseDigitsOfDigits(n / 10);
    }
  }

  /** Rendering an integer in decimal loses nothing: the numeral reads back as the integer. */
  lemma DecimalRoundTrip(n: int)
    ensures ParseDecimal(Decimal(n)) == Some(n)
  {
    if n < 0 {
      var s := Decimal(n);
      assert s[1..] == Digits(-n);
      ParseDigitsOfDigits(-n);
    } else {
      ParseDigitsOfDigits(n);
    }
  }

  // ---------------------------------------------------------------------------
  // Template-literal interpolation `${v}`
  // ---------------------------------------------------------------------------

  /**
   * The string `${v}` inserts for `v` (JavaScript's `String(v)`). Strings go in
   * verbatim, `null` and `undefined` as their names, and an integer as a
   * numeral that reads back as that integer.
   */
  function Interpolate(v: Value): (r: string)
    ensures v.Str? ==> r == v.s
    ensures v.Num? ==> ParseDecimal(r) == Some(v.n as int)
    ensures v.Num? && v.n >= 0 ==> |r| > 0 && AllDigits(r) && (r[0] == '0' ==> v.n == 0)
    ensures v.Num? && v.n < 0 ==> |r| > 1 && r[0] == '-' && AllDigits(r[1..]) && r[1] != '0'
    ensures v.Null? ==> r == "null"
    ensures v.Undefined? ==> r == "undefined"
  {
    match v
    case Undefined => "undefined"
    case Null => "null"
    case Bool(b) => if b then "true" else "false"
    case Num(n) => DecimalRoundTrip(n); Decimal(n)
    case Str(s) => s
    case Obj(_) => "[object Object]"
  }

  /** `${x}` where `x` is a `string | null`, as `localStorage.getItem` returns. */
  function InterpolateNullable(x: Option<string>): (r: string)
    ensures x.Some? ==> r == x.value
    ensures x.None? ==> r == "null"
  {
    Interpolate(if x.Some? then Str(x.value) else Null)
  }

  /** JavaScript's `ToBoolean`: what an `if` tests. */
  function ToBoolean(v: Value): bool {
    match v
    case Undefined => false
    case Null => false
    case Bool(b) => b
    case Num(n) => n != 0
    case Str(s) => s != ""
    case Obj(_) => true
  }

  /** `if (token)` on a `string | null`: taken exactly when the string is present and non-empty. */
  function Truthy(x: Option<string>): (r: bool)
    ensures r <==> x.Some? && |x.value| > 0
  {
    ToBoolean(if x.Some? then Str(x.value) else Null)
  }

  // ---------------------------------------------------------------------------
  // `toUpperCase`, restricted to ASCII letters
  // ---------------------------------------------------------------------------

  predicate IsLower(c: char) {
    'a' <= c <= 'z'
  }

  function UpperChar(c: char): (u: char)
    ensures IsLower(c) ==> u as int == c as int - 32 && 'A' <= u <= 'Z'
    ensures !IsLower(c) ==> u == c
  {
    if IsLower(c) then (c as int - 32) as char else c
  }

  /** `s.toUpperCase()` where only `a`..`z` have an upper-case form. */
  function AsciiUpper(s: string): (r: string)
    ensures |r| == |s|
    ensures forall i :: 0 <= i < |s| ==> r[i] == UpperChar(s[i])
  {
    if s == [] then [] else [UpperChar(s[0])] + AsciiUpper(s[1..])
  }

  predicate NoLower(s: string) {
    forall i :: 0 <= i < |s| ==> !IsLower(s[i])
  }

  /** The upper-cased text has no lower-case letter left. */
  lemma {:induction false} AsciiUpperHasNoLower(s: string)
    ensures NoLower(AsciiUpper(s))
  {
    var r := AsciiUpper(s);
    forall i | 0 <= i < |r| ensures !IsLower(r[i]) {
      assert r[i] == UpperChar(s[i]);
    }
  }

  /** Upper-casing leaves a string alone exactly when it has no lower-case letter. */
  lemma {:induction false} AsciiUpperFixedPoint(s: string)
    ensures AsciiUpper(s) == s <==> NoLower(s)
  {
    var r := AsciiUpper(s);
    if NoLower(s) {
      assert forall i :: 0 <= i < |s| ==> r[i] == s[i];
    } else {
      var i :| 0 <= i < |s| && IsLower(s[i]);
      assert r[i] != s[i];
    }
  }
}
