/**
 * Browser local storage as a map from keys to strings, and the two number conversions the
 * pages use on it: JavaScript's Number#toString for non-negative integers and
 * parseInt(value, 10), with `|| 0` as the fallback.
 */
module Storage {
  import opened Wrappers

  type Store = map<string, string>

  /** localStorage.getItem: null (None) when the key is absent. */
  function GetItem(store: Store, key: string): Option<string> {
    if key in store then Some(store[key]) else None
  }

  function DigitChar(d: nat): char
    requires d < 10
  {
    "0123456789"[d]
  }

  predicate IsDigit(c: char) {
    '0' <= c <= '9'
  }

  function DigitValue(c: char): nat
    requires IsDigit(c)
  {
    c as int - '0' as int
  }

  /** Number#toString of a non-negative integer: its decimal digits, most significant first. */
  function NumberToString(n: nat): (s: string)
    ensures |s| > 0
    ensures forall i :: 0 <= i < |s| ==> IsDigit(s[i])
  {
    if n < 10 then [DigitChar(n)] else NumberToString(n / 10) + [DigitChar(n % 10)]
  }

  /** The value of a string of decimal digits. */
  function DigitsValue(ds: string): nat
    requires forall i :: 0 <= i < |ds| ==> IsDigit(ds[i])
  {
    if ds == [] then 0 else DigitsValue(ds[..|ds| - 1]) * 10 + DigitValue(ds[|ds| - 1])
  }

  /** The longest prefix of `s` made of decimal digits. */
  function DigitPrefix(s: string): (p: string)
    ensures |p| <= |s| && p == s[..|p|]
    ensures forall i :: 0 <= i < |p| ==> IsDigit(p[i])
    ensures |p| < |s| ==> !IsDigit(s[|p|])
  {
    if s == [] || !IsDigit(s[0]) then [] else [s[0]] + DigitPrefix(s[1..])
  }

  /**
   * The characters parseInt skips: ECMAScript's white space (tab, vertical tab, form feed, the
   * byte order mark and the Unicode space separators) and its line terminators.
   */
  predicate IsSpace(c: char) {
    || c == '\t' || c == '\n' || c == '\U{000B}' || c == '\U{000C}' || c == '\r'
    || c == ' ' || c == '\U{00A0}' || c == '\U{1680}' || ('\U{2000}' <= c <= '\U{200A}')
    || c == '\U{2028}' || c == '\U{2029}' || c == '\U{202F}' || c == '\U{205F}' || c == '\U{3000}'
    || c == '\U{FEFF}'
  }

  function TrimStart(s: string): (t: string)
    ensures |t| <= |s| && t == s[|s| - |t|..]
    ensures t != [] ==> !IsSpace(t[0])
  {
    if s != [] && IsSpace(s[0]) then TrimStart(s[1..]) else s
  }

  /**
   * parseInt(text, 10): skip leading white space, read an optional sign and then the longest
   * run of decimal digits; None stands for NaN (no digit at all).
   */
  function ParseInt(text: string): (r: Option<int>)
    ensures r.None? <==> DigitPrefix(Unsigned(TrimStart(text))) == []
  {
    var t := TrimStart(text);
    var negative := t != [] && t[0] == '-';
    var digits := DigitPrefix(Unsigned(t));
    var magnitude: int := if digits == [] then 0 else DigitsValue(digits);
    if digits == [] then None
    else if negative then Some(-magnitude)
    else Some(magnitude)
  }

  /** The text after an optional leading sign. */
  function Unsigned(t: string): string {
    if t != [] && (t[0] == '-' || t[0] == '+') then t[1..] else t
  }

  /**
   * parseInt(localStorage.getItem(key), 10) || 0: a missing key reads as null, which
   * parseInt sees as the text "null"; NaN and 0 both fall back to 0.
   */
  function ReadNumber(store: Store, key: string): (n: int)
    ensures key !in store ==> n == 0
    ensures key in store && ParseInt(store[key]).None? ==> n == 0
    ensures key in store && ParseInt(store[key]).Some? ==> n == ParseInt(store[key]).value
  {
    match ParseInt(GetItem(store, key).GetOr("null"))
    case None => 0
    case Some(v) => v
  }

  lemma {:induction false} DigitsValueOfNumber(n: nat)
    ensures DigitsValue(NumberToString(n)) == n
  {
    if n >= 10 {
      var s := NumberToString(n);
      DigitsValueOfNumber(n / 10);
      assert s[..|s| - 1] == NumberToString(n / 10);
      assert s[|s| - 1] == DigitChar(n % 10);
    }
  }

  /** Writing a count with toString and reading it back with parseInt gives the count. */
  lemma {:induction false} NumberRoundTrip(n: nat)
    ensures ParseInt(NumberToString(n)) == Some(n)
  {
    var s := NumberToString(n);
    assert TrimStart(s) == s;
    assert Unsigned(s) == s;
    DigitPrefixOfDigits(s);
    DigitsValueOfNumber(n);
  }

  lemma {:induction false} DigitPrefixOfDigits(s: string)
    requires forall i :: 0 <= i < |s| ==> IsDigit(s[i])
    ensures DigitPrefix(s) == s
  {
    if s != [] {
      DigitPrefixOfDigits(s[1..]);
    }
  }

  /** What a page stores with setItem(key, count.toString()) reads back as that count. */
  lemma StoredCountReadsBack(store: Store, key: string, n: nat)
    ensures ReadNumber(store[key := NumberToString(n)], key) == n
  {
    NumberRoundTrip(n);
  }
}
