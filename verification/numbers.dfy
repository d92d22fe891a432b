/**
 * The integer text conversions the controller relies on for its port field:
 * `int.ToString()` fills the field, `int.TryParse` reads it back.
 * Only the invariant culture is modelled: ASCII digits, '-' and '+' signs.
 */
module Numbers {
  import opened Wrappers

  const Int32Min: int := -0x8000_0000
  const Int32Max: int := 0x7FFF_FFFF

  /** The white space `NumberStyles.Integer` lets stand around a number: U+0009..U+000D and U+0020. */
  predicate IsWhite(c: char)
  {
    c == ' ' || '\t' <= c <= '\r'
  }

  predicate IsDigit(c: char)
  {
    '0' <= c <= '9'
  }

  predicate AllDigits(s: string)
  {
    forall i :: 0 <= i < |s| ==> IsDigit(s[i])
  }

  /** `s` without its leading and trailing white space. */
  function TrimWhite(s: string): (t: string)
    ensures |t| <= |s|
    ensures forall c :: c in t ==> c in s
    ensures t != [] ==> !IsWhite(t[0]) && !IsWhite(t[|t| - 1])
    ensures (s == [] || (!IsWhite(s[0]) && !IsWhite(s[|s| - 1]))) ==> t == s
  {
    if s == [] then s
    else if IsWhite(s[0]) then TrimWhite(s[1..])
    else if IsWhite(s[|s| - 1]) then TrimWhite(s[..|s| - 1])
    else s
  }

  /** The value of a string of decimal digits, most significant first. */
  function DigitsValue(s: string): nat
    requires AllDigits(s)
  {
    if s == [] then 0 else DigitsValue(s[..|s| - 1]) * 10 + (s[|s| - 1] as int - '0' as int)
  }

  /**
   * `int.TryParse(s, out v)` with the default number style: optional white
   * space, an optional sign, one or more digits, optional white space, and a
   * value that fits in 32 bits.  `None` is the `false` result, after which
   * the out variable holds 0.
   */
  function TryParseInt(s: string): (r: Option<int>)
    ensures r.Some? ==> Int32Min <= r.value <= Int32Max
  {
    var t := TrimWhite(s);
    var negative := |t| > 0 && t[0] == '-';
    var digits := if |t| > 0 && (t[0] == '-' || t[0] == '+') then t[1..] else t;
    if digits == [] || !AllDigits(digits) then None
    else
      var v: int := if negative then -(DigitsValue(digits) as int) else DigitsValue(digits);
      if Int32Min <= v <= Int32Max then Some(v) else None
  }

  /** `n.ToString()` for a natural number: its decimal digits without leading zeros. */
  function DecimalString(n: nat): (s: string)
    ensures AllDigits(s) && s != []
    ensures s[0] != '0' || n == 0
  {
    if n < 10 then [('0' as int + n) as char]
    else DecimalString(n / 10) + [('0' as int + n % 10) as char]
  }

  /** `n.ToString()` for an `int`: a leading '-' for negative values. */
  function IntToString(n: int): string
  {
    if n < 0 then "-" + DecimalString(-n) else DecimalString(n)
  }

  /** Reading back the decimal digits of `n` gives `n`. */
  lemma {:induction false} DigitsRoundTrip(n: nat)
    ensures DigitsValue(DecimalString(n)) == n
  {
    if n >= 10 {
      DigitsRoundTrip(n / 10);
      var s := DecimalString(n);
      assert s[..|s| - 1] == DecimalString(n / 10);
    }
  }

  /**
   * Every 32-bit integer survives `ToString` followed by `TryParse`: a port
   * field the controller filled itself parses back to the same port.
   */
  lemma ParsePrintRoundTrip(n: int)
    requires Int32Min <= n <= Int32Max
    ensures TryParseInt(IntToString(n)) == Some(n)
  {
    var s := IntToString(n);
    var m: nat := if n < 0 then -n else n;
    var d := DecimalString(m);
    DigitsRoundTrip(m);
    if n < 0 {
      assert s == "-" + d;
      assert TrimWhite(s) == s by {
        assert s[|s| - 1] == d[|d| - 1] && IsDigit(d[|d| - 1]);
      }
      assert s[1..] == d;
    } else {
      assert TrimWhite(s) == s by {
        assert IsDigit(d[0]) && IsDigit(d[|d| - 1]);
      }
    }
  }

  /** Text without a single digit, such as an empty field, does not parse. */
  lemma NotANumber(s: string)
    requires forall c :: c in s ==> !IsDigit(c)
    ensures TryParseInt(s) == None
  {
    var t := TrimWhite(s);
    var digits := if |t| > 0 && (t[0] == '-' || t[0] == '+') then t[1..] else t;
    if digits != [] {
      assert digits[0] in t;
    }
  }
}
