/**
 * The string operations of the Rust standard library that the harness relies on:
 * `str::trim`, `str::split(", ").next()`, integer `to_string` and `u64` parsing.
 */
module Text {
  import opened Wrappers

  // ---------------------------------------------------------------------------
  // Whitespace and trimming

  /** `char::is_whitespace`: the characters with the Unicode White_Space property. */
  predicate IsWhitespace(c: char) {
    var n := c as int;
    (0x09 <= n <= 0x0D) || n == 0x20 || n == 0x85 || n == 0xA0 || n == 0x1680
    || (0x2000 <= n <= 0x200A) || n == 0x2028 || n == 0x2029 || n == 0x202F
    || n == 0x205F || n == 0x3000
  }

  /** Drops leading whitespace. */
  function TrimStart(s: string): string {
    if |s| > 0 && IsWhitespace(s[0]) then TrimStart(s[1..]) else s
  }

  /** Drops trailing whitespace. */
  function TrimEnd(s: string): string {
    if |s| > 0 && IsWhitespace(s[|s| - 1]) then TrimEnd(s[..|s| - 1]) else s
  }

  /** `str::trim`. */
  function Trim(s: string): string {
    TrimEnd(TrimStart(s))
  }

  /** TrimStart keeps the suffix that starts at the first non-whitespace character. */
  lemma {:induction false} TrimStartSuffix(s: string)
    ensures var r := TrimStart(s);
            && |r| <= |s| && r == s[|s| - |r|..]
            && (forall i :: 0 <= i < |s| - |r| ==> IsWhitespace(s[i]))
            && (r != [] ==> !IsWhitespace(r[0]))
  {
    if |s| > 0 && IsWhitespace(s[0]) {
      TrimStartSuffix(s[1..]);
    }
  }

  /** TrimEnd keeps the prefix that ends at the last non-whitespace character. */
  lemma {:induction false} TrimEndPrefix(s: string)
    ensures var r := TrimEnd(s);
            && |r| <= |s| && r == s[..|r|]
            && (forall i :: |r| <= i < |s| ==> IsWhitespace(s[i]))
            && (r != [] ==> !IsWhitespace(r[|r| - 1]))
  {
    if |s| > 0 && IsWhitespace(s[|s| - 1]) {
      TrimEndPrefix(s[..|s| - 1]);
    }
  }

  /** `s.trim().is_empty()` holds exactly when every character of `s` is whitespace. */
  lemma TrimEmptyIffAllWhitespace(s: string)
    ensures Trim(s) == [] <==> forall i :: 0 <= i < |s| ==> IsWhitespace(s[i])
  {
    var t := TrimStart(s);
    TrimStartSuffix(s);
    TrimEndPrefix(t);
    if t != [] {
      assert t[0] == s[|s| - |t|];
    }
  }

  // ---------------------------------------------------------------------------
  // Splitting on ", "

  /** The separator ", " starts at index `i` of `s`. */
  predicate SeparatorAt(s: string, i: int) {
    0 <= i && i + 1 < |s| && s[i] == ',' && s[i + 1] == ' '
  }

  /**
   * `s.split(", ").next()`: the first piece of the split, which always exists.
   * It is the prefix of `s` before the first separator, or all of `s` when there is none.
   */
  function FirstToken(s: string): string
    decreases |s|
  {
    if |s| < 2 then s
    else if s[0] == ',' && s[1] == ' ' then []
    else [s[0]] + FirstToken(s[1..])
  }

  /**
   * The first piece of the split is the prefix of `s` before its first separator, or all of
   * `s` when there is none.
   */
  lemma {:induction false} FirstTokenIsPrefixBeforeSeparator(s: string)
    ensures var r := FirstToken(s);
            && r <= s
            && (forall i :: 0 <= i < |r| ==> !SeparatorAt(s, i))
            && (r == s || SeparatorAt(s, |r|))
    decreases |s|
  {
    if |s| >= 2 && !(s[0] == ',' && s[1] == ' ') {
      FirstTokenIsPrefixBeforeSeparator(s[1..]);
      assert forall i :: 1 <= i < |s| ==> (SeparatorAt(s, i) <==> SeparatorAt(s[1..], i - 1));
    }
  }

  /** The three properties of FirstToken determine it: no other prefix has them. */
  lemma FirstTokenUnique(s: string, t: string)
    requires t <= s
    requires forall i :: 0 <= i < |t| ==> !SeparatorAt(s, i)
    requires t == s || SeparatorAt(s, |t|)
    ensures t == FirstToken(s)
  {
    var r := FirstToken(s);
    FirstTokenIsPrefixBeforeSeparator(s);
    assert |t| == |r|;
  }

  // ---------------------------------------------------------------------------
  // Decimal text

  predicate IsDigit(c: char) {
    '0' <= c <= '9'
  }

  predicate AllDigits(s: string) {
    forall i :: 0 <= i < |s| ==> IsDigit(s[i])
  }

  function DigitChar(d: nat): (c: char)
    requires d < 10
    ensures IsDigit(c) && c as int - '0' as int == d
  {
    (48 + d) as char
  }

  /** The value of a string of decimal digits, most significant first. */
  function DigitsValue(s: string): nat
    requires AllDigits(s)
  {
    if s == [] then 0
    else DigitsValue(s[..|s| - 1]) * 10 + (s[|s| - 1] as int - '0' as int)
  }

  /** `n.to_string()` for an unsigned integer: its shortest decimal text. */
  function NatToDecimal(n: nat): (s: string)
    ensures |s| > 0 && AllDigits(s)
  {
    if n < 10 then [DigitChar(n)] else NatToDecimal(n / 10) + [DigitChar(n % 10)]
  }

  /** Reading back the decimal text of `n` gives `n`. */
  lemma {:induction false} NatDecimalRoundTrip(n: nat)
    ensures DigitsValue(NatToDecimal(n)) == n
  {
    var s := NatToDecimal(n);
    if n >= 10 {
      NatDecimalRoundTrip(n / 10);
      assert s[..|s| - 1] == NatToDecimal(n / 10);
    } else {
      assert s[..|s| - 1] == [];
    }
  }

  /** The decimal text is the shortest one: no leading zero, except for zero itself, which is "0". */
  lemma {:induction false} NatToDecimalNoLeadingZero(n: nat)
    ensures NatToDecimal(n)[0] == '0' <==> n == 0
    ensures n == 0 ==> NatToDecimal(n) == "0"
  {
    if n >= 10 {
      NatToDecimalNoLeadingZero(n / 10);
      assert NatToDecimal(n)[0] == NatToDecimal(n / 10)[0];
    }
  }

  /** Different numbers have different decimal texts. */
  lemma NatToDecimalInjective(a: nat, b: nat)
    requires NatToDecimal(a) == NatToDecimal(b)
    ensures a == b
  {
    NatDecimalRoundTrip(a);
    NatDecimalRoundTrip(b);
  }

  /** `c.to_string()` for a signed integer: a minus sign before the digits of a negative value. */
  function IntToDecimal(i: int): (s: string)
    ensures |s| > 0
    ensures forall j :: 0 <= j < |s| ==> IsDigit(s[j]) || (j == 0 && s[j] == '-')
    ensures (i < 0) <==> s[0] == '-'
  {
    if i < 0 then "-" + NatToDecimal(-i) else NatToDecimal(i)
  }

  /** The digits of a signed number's text, after the '-' of a negative one, read back as its magnitude. */
  lemma IntToDecimalValue(i: int)
    ensures i >= 0 ==> AllDigits(IntToDecimal(i)) && DigitsValue(IntToDecimal(i)) == i
    ensures i < 0 ==> AllDigits(IntToDecimal(i)[1..]) && DigitsValue(IntToDecimal(i)[1..]) == -i
  {
    if i < 0 {
      assert IntToDecimal(i)[1..] == NatToDecimal(-i);
      NatDecimalRoundTrip(-i);
    } else {
      NatDecimalRoundTrip(i);
    }
  }

  /** Different signed numbers have different decimal texts. */
  lemma IntToDecimalInjective(a: int, b: int)
    requires IntToDecimal(a) == IntToDecimal(b)
    ensures a == b
  {
    if a < 0 {
      assert b < 0;
      assert NatToDecimal(-a) == IntToDecimal(a)[1..] == IntToDecimal(b)[1..] == NatToDecimal(-b);
      NatToDecimalInjective(-a, -b);
    } else {
      NatToDecimalInjective(a, b);
    }
  }

  // ---------------------------------------------------------------------------
  // Parsing u64

  const U64_LIMIT: nat := 0x1_0000_0000_0000_0000

  /**
   * `s.parse::<u64>().ok()`: an optional '+' followed by at least one ASCII digit and nothing
   * else, whose value fits in 64 bits. No whitespace or '-' is accepted.
   */
  function ParseU64(s: string): (r: Option<nat>)
    ensures r.Some? ==> r.value < U64_LIMIT
  {
    var digits := if |s| > 0 && s[0] == '+' then s[1..] else s;
    if digits == [] || !AllDigits(digits) then None
    else if DigitsValue(digits) < U64_LIMIT then Some(DigitsValue(digits))
    else None
  }

  /** Every 64-bit value's decimal text, with or without a '+', parses back to it. */
  lemma ParseU64RoundTrip(n: nat)
    requires n < U64_LIMIT
    ensures ParseU64(NatToDecimal(n)) == Some(n)
    ensures ParseU64("+" + NatToDecimal(n)) == Some(n)
  {
    NatDecimalRoundTrip(n);
    assert ("+" + NatToDecimal(n))[1..] == NatToDecimal(n);
  }

  /**
   * Any nonempty run of digits worth less than 2^64 is accepted, with or without a '+', even
   * when it is not the shortest text of its value: "0600" reads as 600.
   */
  lemma ParseU64AcceptsDigits(d: string)
    requires d != [] && AllDigits(d) && DigitsValue(d) < U64_LIMIT
    ensures ParseU64(d) == Some(DigitsValue(d))
    ensures ParseU64("+" + d) == Some(DigitsValue(d))
  {
    assert ("+" + d)[1..] == d;
  }

  /** Text without a digit, the empty text and a lone '+', is rejected; padded digits are not. */
  lemma ParseU64Examples()
    ensures ParseU64("") == None && ParseU64("+") == None
    ensures ParseU64("0600") == Some(600)
  {
    assert DigitsValue("0600") == 600 by {
      assert "0600"[..3] == "060" && "060"[..2] == "06" && "06"[..1] == "0" && "0"[..0] == [];
    }
  }

  /**
   * A value of 2^64 or more is rejected rather than wrapped, however it is written: with or
   * without a '+', and with leading zeros.
   */
  lemma ParseU64RejectsOverflow(d: string)
    requires d != [] && AllDigits(d) && DigitsValue(d) >= U64_LIMIT
    ensures ParseU64(d) == None
    ensures ParseU64("+" + d) == None
  {
    assert ("+" + d)[1..] == d;
  }

  /** Text that is not an optional '+' and digits, such as a negative number or padded text, is rejected. */
  lemma ParseU64RejectsNonDigit(s: string, i: nat)
    requires i < |s| && !IsDigit(s[i]) && !(i == 0 && s[0] == '+')
    ensures ParseU64(s) == None
  {
    if |s| > 0 && s[0] == '+' {
      assert s[1..][i - 1] == s[i];
    }
  }
}
