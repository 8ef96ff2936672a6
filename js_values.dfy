/**
 * The small part of JavaScript's value semantics the extension relies on:
 * `String(n)` for integers and `parseInt(x, 10)` (ECMAScript section 19.2.5,
 * "parseInt ( string, radix )"), which converts its argument to a string,
 * skips leading white space, accepts one optional sign and reads the longest
 * run of decimal digits that follows. NaN is modelled as `None`.
 */
module JsValues {
  import opened Wrappers

  /** The JavaScript values that reach `parseInt` in the extension. */
  datatype JsValue = Undefined | Bool(b: bool) | Num(n: int) | Str(s: string)

  predicate IsDigit(c: char) { '0' <= c <= '9' }

  predicate AllDigits(s: string) { forall i :: 0 <= i < |s| ==> IsDigit(s[i]) }

  function DigitValue(c: char): (d: nat)
    requires IsDigit(c)
    ensures d < 10
  {
    (c as int) - ('0' as int)
  }

  function DigitChar(d: nat): (c: char)
    requires d < 10
    ensures IsDigit(c) && DigitValue(c) == d
  {
    (d + '0' as int) as char
  }

  /** ECMAScript WhiteSpace and LineTerminator code points, the ones TrimString removes. */
  predicate IsJsWhitespace(c: char) {
    var u := c as int;
    u == 0x09 || u == 0x0A || u == 0x0B || u == 0x0C || u == 0x0D || u == 0x20
    || u == 0xA0 || u == 0x1680 || (0x2000 <= u <= 0x200A) || u == 0x2028
    || u == 0x2029 || u == 0x202F || u == 0x205F || u == 0x3000 || u == 0xFEFF
  }

  /** Drops the leading white space of `s`. */
  function TrimStart(s: string): string {
    if |s| > 0 && IsJsWhitespace(s[0]) then TrimStart(s[1..]) else s
  }

  /** `TrimStart` removes exactly the white space in front of the first other character. */
  lemma {:induction false} TrimStartSpec(s: string)
    ensures var r := TrimStart(s);
      && |r| <= |s| && r == s[|s| - |r|..]
      && (forall i :: 0 <= i < |s| - |r| ==> IsJsWhitespace(s[i]))
      && (r == [] || !IsJsWhitespace(r[0]))
  {
    if |s| > 0 && IsJsWhitespace(s[0]) {
      TrimStartSpec(s[1..]);
    }
  }

  /** The longest prefix of `s` made of decimal digits. */
  function LeadingDigits(s: string): string {
    if |s| > 0 && IsDigit(s[0]) then [s[0]] + LeadingDigits(s[1..]) else []
  }

  /** `LeadingDigits` is a prefix, made of digits, and not followed by another digit. */
  lemma {:induction false} LeadingDigitsSpec(s: string)
    ensures var r := LeadingDigits(s);
      && |r| <= |s| && r == s[..|r|]
      && AllDigits(r)
      && (|r| == |s| || !IsDigit(s[|r|]))
  {
    if |s| > 0 && IsDigit(s[0]) {
      LeadingDigitsSpec(s[1..]);
    }
  }

  /** The value of a string of decimal digits, most significant digit first (a non-digit counts as 0). */
  function DigitsValue(ds: string): nat {
    if ds == [] then 0
    else DigitsValue(ds[..|ds| - 1]) * 10 + (if IsDigit(ds[|ds| - 1]) then DigitValue(ds[|ds| - 1]) else 0)
  }

  /** `t` without its one leading sign character, if it has one. */
  function Unsigned(t: string): string {
    if |t| > 0 && (t[0] == '-' || t[0] == '+') then t[1..] else t
  }

  /** `parseInt(s, 10)` on a string: `None` stands for NaN. */
  function ParseIntPrefix(s: string): Option<int> {
    ParseTrimmed(TrimStart(s))
  }

  /** What `parseInt` reads once the leading white space is gone. */
  function ParseTrimmed(t: string): Option<int> {
    var digits := LeadingDigits(Unsigned(t));
    var magnitude: int := if digits == [] then 0 else DigitsValue(digits);
    if digits == [] then None
    else if |t| > 0 && t[0] == '-' then Some(-magnitude)
    else Some(magnitude)
  }

  /** The decimal digits of `n`, without leading zeros. */
  function NatToDigits(n: nat): (ds: string)
    ensures |ds| > 0 && AllDigits(ds)
    ensures DigitsValue(ds) == n
    ensures n > 0 ==> ds[0] != '0'
  {
    if n < 10 then [DigitChar(n)]
    else
      var ds := NatToDigits(n / 10) + [DigitChar(n % 10)];
      assert ds[..|ds| - 1] == NatToDigits(n / 10);
      ds
  }

  /** `String(n)` for an integer `n`. */
  function IntToString(n: int): string {
    if n < 0 then "-" + NatToDigits(-n) else NatToDigits(n)
  }

  /** The string conversion `parseInt` applies to its argument first. */
  function ToJsString(v: JsValue): string {
    match v
    case Undefined => "undefined"
    case Bool(b) => if b then "true" else "false"
    case Num(n) => IntToString(n)
    case Str(s) => s
  }

  /** `parseInt(v, 10)` on any value; `None` is NaN. */
  function ParseInt(v: JsValue): Option<int> {
    ParseIntPrefix(ToJsString(v))
  }

  /** A run of digits followed by a non-digit is read up to the non-digit. */
  lemma {:induction false} LeadingDigitsOfDigits(ds: string, rest: string)
    requires AllDigits(ds)
    requires rest == [] || !IsDigit(rest[0])
    ensures LeadingDigits(ds + rest) == ds
  {
    if ds != [] {
      assert (ds + rest)[1..] == ds[1..] + rest;
      LeadingDigitsOfDigits(ds[1..], rest);
    }
  }

  /**
   * `parseInt(String(n) + rest, 10) == n` whenever `rest` does not continue the
   * digits: so `parseInt("7")` is 7 and `parseInt("7abc")` is 7 too.
   */
  lemma ParseIntOfDecimal(n: int, rest: string)
    requires rest == [] || !IsDigit(rest[0])
    ensures ParseIntPrefix(IntToString(n) + rest) == Some(n)
  {
    var s := IntToString(n) + rest;
    if n < 0 {
      var ds := NatToDigits(-n);
      assert s == "-" + (ds + rest);
      assert s[0] == '-' && !IsJsWhitespace(s[0]);
      assert TrimStart(s) == s;
      assert Unsigned(s) == ds + rest;
      LeadingDigitsOfDigits(ds, rest);
    } else {
      var ds := NatToDigits(n);
      assert s == ds + rest;
      assert IsDigit(s[0]) && !IsJsWhitespace(s[0]);
      assert TrimStart(s) == s;
      assert Unsigned(s) == s;
      LeadingDigitsOfDigits(ds, rest);
    }
  }

  /** `parseInt(String(n), 10) == n`: the decimal rendering of an integer reads back as it. */
  lemma ParseIntRoundTrip(n: int)
    ensures ParseInt(Num(n)) == Some(n)
    ensures ParseIntPrefix(IntToString(n)) == Some(n)
  {
    ParseIntOfDecimal(n, []);
    assert IntToString(n) + [] == IntToString(n);
  }

  /** Leading white space never changes what `parseInt` reads. */
  lemma {:induction false} ParseIntSkipsWhitespace(ws: string, s: string)
    requires forall i :: 0 <= i < |ws| ==> IsJsWhitespace(ws[i])
    ensures ParseIntPrefix(ws + s) == ParseIntPrefix(s)
  {
    TrimStartSkipsWhitespace(ws, s);
  }

  lemma {:induction false} TrimStartSkipsWhitespace(ws: string, s: string)
    requires forall i :: 0 <= i < |ws| ==> IsJsWhitespace(ws[i])
    ensures TrimStart(ws + s) == TrimStart(s)
  {
    if ws != [] {
      var w := ws + s;
      assert w[0] == ws[0] && IsJsWhitespace(w[0]);
      assert w[1..] == ws[1..] + s;
      assert TrimStart(w) == TrimStart(w[1..]);
      TrimStartSkipsWhitespace(ws[1..], s);
    } else {
      assert ws + s == s;
    }
  }

  /**
   * A string whose first non-blank character is neither a digit nor a sign,
   * or is a sign not followed by a digit, is NaN.
   */
  lemma ParseIntNaN(s: string)
    requires var t := TrimStart(s);
             t == []
             || (t[0] != '-' && t[0] != '+' && !IsDigit(t[0]))
             || ((t[0] == '-' || t[0] == '+') && (|t| == 1 || !IsDigit(t[1])))
    ensures ParseIntPrefix(s) == None
  {
  }

  /** The capture-flag keys `"capture_<tabId>"` and the value `undefined` are NaN. */
  lemma CaptureFlagKeyIsNaN(tabId: int)
    ensures ParseIntPrefix("capture_" + IntToString(tabId)) == None
    ensures ParseInt(Undefined) == None
  {
    var key := "capture_" + IntToString(tabId);
    assert key[0] == 'c' && !IsJsWhitespace(key[0]);
    assert TrimStart(key) == key;
    ParseIntNaN(key);
    var u := "undefined";
    assert u[0] == 'u' && !IsJsWhitespace(u[0]);
    assert TrimStart(u) == u;
    ParseIntNaN(u);
  }
}
