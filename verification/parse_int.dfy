/**
 * JavaScript's `parseInt(s)` without a radix argument: skip leading
 * whitespace, read an optional sign, read a "0x" prefix as base 16, then
 * the longest run of digits; no digits at all is NaN (`None` here).
 */
module ParseInt {
  import opened Wrappers
  import opened Text

  /** The value of a hexadecimal digit character; anything else counts as 0. */
  function Digit(c: char): (d: nat)
    ensures d < 16
  {
    if '0' <= c <= '9' then c as nat - '0' as nat
    else if 'a' <= c <= 'f' then c as nat - 'a' as nat + 10
    else if 'A' <= c <= 'F' then c as nat - 'A' as nat + 10
    else 0
  }

  /** `c` is a digit in base 10 (`hex` false) or base 16 (`hex` true). */
  predicate IsDigit(c: char, hex: bool)
  {
    '0' <= c <= '9' || (hex && ('a' <= c <= 'f' || 'A' <= c <= 'F'))
  }

  /** Somewhere in `s` there is a decimal digit. */
  predicate HasDigit(s: string)
  {
    exists i :: 0 <= i < |s| && '0' <= s[i] <= '9'
  }

  /** The length of the longest prefix of `s` made of digits. */
  function DigitRun(s: string, hex: bool): (n: nat)
    ensures n <= |s|
    ensures forall i :: 0 <= i < n ==> IsDigit(s[i], hex)
    ensures n < |s| ==> !IsDigit(s[n], hex)
    decreases |s|
  {
    if |s| == 0 || !IsDigit(s[0], hex) then 0
    else
      var n := DigitRun(s[1..], hex);
      assert forall i :: 1 <= i < n + 1 ==> s[i] == s[1..][i - 1];
      n + 1
  }

  /** The number a run of digits spells, most significant first. */
  function DigitsValue(ds: string, hex: bool): nat
    decreases |ds|
  {
    if |ds| == 0 then 0
    else
      var high := DigitsValue(ds[..|ds| - 1], hex);
      (if hex then high * 16 else high * 10) + Digit(ds[|ds| - 1])
  }

  /**
   * Whitespace only, or no digit where the number should start, is NaN; a
   * negative result needs a minus sign in front; and a number always
   * contains a decimal digit of `s` (a hexadecimal one starts with "0x").
   */
  function Parse(s: string): (r: Option<int>)
    ensures IsBlank(s) ==> r.None?
    ensures r.Some? && r.value < 0 ==> |TrimStart(s)| > 0 && TrimStart(s)[0] == '-'
    ensures r.Some? ==> HasDigit(s)
  {
    SuffixDigit(s, TrimStart(s));
    ParseTrimmed(TrimStart(s))
  }

  /** A decimal digit of a suffix is a decimal digit of the whole string. */
  lemma SuffixDigit(s: string, t: string)
    requires |t| <= |s| && t == s[|s| - |t|..]
    ensures HasDigit(t) ==> HasDigit(s)
  {
    if HasDigit(t) {
      var j :| 0 <= j < |t| && '0' <= t[j] <= '9';
      assert s[|s| - |t| + j] == t[j];
    }
  }

  /** What `parseInt` reads once the leading whitespace is gone: an optional sign, then the magnitude. */
  function ParseTrimmed(t: string): (r: Option<int>)
    ensures t == "" ==> r.None?
    ensures r.Some? && r.value < 0 ==> t[0] == '-'
    ensures r.Some? ==> HasDigit(t)
  {
    var u := if |t| > 0 && (t[0] == '-' || t[0] == '+') then t[1..] else t;
    match Magnitude(u)
    case None => None
    case Some(m) =>
      assert '0' <= t[|t| - |u|] <= '9';
      Some(if |t| > 0 && t[0] == '-' then -(m as int) else m)
  }

  /** An unsigned number: a "0x" or "0X" prefix means base 16; at least one digit must follow. */
  function Magnitude(u: string): (r: Option<nat>)
    ensures r.Some? ==> |u| > 0 && '0' <= u[0] <= '9'
  {
    var hex := |u| >= 2 && u[0] == '0' && (u[1] == 'x' || u[1] == 'X');
    var v := if hex then u[2..] else u;
    var n := DigitRun(v, hex);
    if n == 0 then None
    else
      assert !hex ==> IsDigit(v[0], hex);
      Some(DigitsValue(v[..n], hex))
  }

  /** Leading whitespace never changes what `parseInt` reads. */
  lemma ParseSkipsSpace(w: string, s: string)
    requires IsBlank(w)
    ensures Parse(w + s) == Parse(s)
  {
    TrimStartBlank(w, s);
  }

  /** A minus sign in front of a decimal spelling negates its value. */
  lemma ParseNegative(n: nat)
    ensures Parse("-" + Decimal(n)) == Some(-(n as int))
  {
    ParseDecimal(n);
    MinusNegates(Decimal(n));
  }

  /** A minus sign in front of text that starts with a digit negates what the text reads as. */
  lemma MinusNegates(d: string)
    requires |d| > 0 && '0' <= d[0] <= '9'
    ensures Parse("-" + d) == if Parse(d).Some? then Some(-Parse(d).value) else None
  {
    var t := "-" + d;
    assert t[0] == '-' && t[1..] == d;
    ParseUnfold(d);
    ParseUnfold(t);
    TrimmedMinusNegates(d);
  }

  /** Text that starts with no whitespace is read by `ParseTrimmed` as it is. */
  lemma ParseUnfold(s: string)
    requires |s| > 0 && !IsSpace(s[0])
    ensures Parse(s) == ParseTrimmed(s)
  {
    assert TrimStart(s) == s;
  }

  lemma TrimmedMinusNegates(d: string)
    requires |d| > 0 && d[0] != '-' && d[0] != '+'
    ensures ParseTrimmed("-" + d) == if ParseTrimmed(d).Some? then Some(-ParseTrimmed(d).value) else None
  {
    assert ("-" + d)[1..] == d;
  }

  /** The decimal spelling of `n`, as `String(n)` produces it. */
  function Decimal(n: nat): (s: string)
    ensures |s| >= 1
    ensures forall i :: 0 <= i < |s| ==> '0' <= s[i] <= '9'
    ensures s[0] == '0' ==> n == 0
    decreases n
  {
    var d := ['0' + (n % 10) as char];
    if n < 10 then d else Decimal(n / 10) + d
  }

  lemma {:induction false} DecimalValue(n: nat)
    ensures DigitsValue(Decimal(n), false) == n
    decreases n
  {
    if n >= 10 {
      DecimalValue(n / 10);
      var s := Decimal(n);
      assert s[..|s| - 1] == Decimal(n / 10);
    }
  }

  /** A plain run of decimal digits (no "0x" prefix) parses to the number it spells. */
  lemma ParseDigits(s: string)
    requires |s| >= 1
    requires forall i :: 0 <= i < |s| ==> '0' <= s[i] <= '9'
    requires !(|s| >= 2 && s[0] == '0' && (s[1] == 'x' || s[1] == 'X'))
    ensures Parse(s) == Some(DigitsValue(s, false))
  {
    assert !IsSpace(s[0]);
    assert TrimStart(s) == s;
    var k := DigitRun(s, false);
    assert k == |s|;
    assert s[..k] == s;
  }

  /** `parseInt(String(n)) === n` for every natural number `n`. */
  lemma ParseDecimal(n: nat)
    ensures Parse(Decimal(n)) == Some(n)
  {
    DecimalValue(n);
    ParseDigits(Decimal(n));
  }

  /** `parseInt(q) || fallback`: a missing, unparsable or zero value becomes the fallback. */
  function NumberOr(q: Option<string>, fallback: int): (r: int)
    ensures q.None? ==> r == fallback
    ensures q.Some? && Parse(q.value).Some? && Parse(q.value).value != 0 ==> r == Parse(q.value).value
    ensures q.Some? && (Parse(q.value).None? || Parse(q.value) == Some(0)) ==> r == fallback
  {
    match q
    case None => fallback
    case Some(s) =>
      match Parse(s)
      case None => fallback
      case Some(v) => if v == 0 then fallback else v
  }

  /** A positive number written in decimal is read back, so the fallback is not used. */
  lemma NumberOrDecimal(n: nat, fallback: int)
    requires n >= 1
    ensures NumberOr(Some(Decimal(n)), fallback) == n
  {
    ParseDecimal(n);
  }
}
