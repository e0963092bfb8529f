/**
 * JavaScript's `parseInt(s)` with no radix argument, on exact integers: leading white space
 * is skipped, an optional sign is read, a `0x`/`0X` prefix selects base 16, and the longest
 * run of digits of that base is the value. No digits at all gives NaN, modelled as None.
 */
module ParseInt {
  import opened Wrappers
  import Text

  /** White space and line terminators, as `parseInt` skips them. */
  predicate IsSpace(c: char) {
    c == '\t' || c == '\n' || c == '\U{B}' || c == '\U{C}' || c == '\r' || c == ' '
    || c == '\U{A0}' || c == '\U{1680}' || ('\U{2000}' <= c <= '\U{200A}')
    || c == '\U{2028}' || c == '\U{2029}' || c == '\U{202F}' || c == '\U{205F}'
    || c == '\U{3000}' || c == '\U{FEFF}'
  }

  /** The value of `c` as a digit of base 10 or 16, or -1 when it is not one. */
  function DigitValue(c: char, radix: int): (d: int)
    requires radix == 10 || radix == 16
    ensures -1 <= d < radix
    ensures radix == 10 ==> (d >= 0 <==> Text.IsDigit(c))
    ensures Text.IsDigit(c) ==> d == c as int - '0' as int
  {
    if '0' <= c <= '9' then c as int - '0' as int
    else if radix == 16 && 'a' <= c <= 'f' then c as int - 'a' as int + 10
    else if radix == 16 && 'A' <= c <= 'F' then c as int - 'A' as int + 10
    else -1
  }

  function TrimStart(s: string): string {
    if |s| > 0 && IsSpace(s[0]) then TrimStart(s[1..]) else s
  }

  /** The length of the longest prefix of `s` made of digits of `radix`. */
  function DigitRun(s: string, radix: int): (n: nat)
    requires radix == 10 || radix == 16
    ensures n <= |s|
  {
    if |s| > 0 && DigitValue(s[0], radix) >= 0 then 1 + DigitRun(s[1..], radix) else 0
  }

  /** The number the digits spell, most significant first. */
  function Value(digits: string, radix: int): nat
    requires radix == 10 || radix == 16
  {
    if digits == [] then 0
    else Value(digits[..|digits| - 1], radix) * radix + Max0(DigitValue(digits[|digits| - 1], radix))
  }

  function Max0(d: int): nat {
    if d < 0 then 0 else d
  }

  /** `TrimStart` drops exactly the leading white space. */
  lemma {:induction false} TrimStartDropsSpace(s: string)
    ensures var t := TrimStart(s);
      && |t| <= |s| && t == s[|s| - |t|..]
      && (|t| > 0 ==> !IsSpace(t[0]))
      && forall i :: 0 <= i < |s| - |t| ==> IsSpace(s[i])
  {
    if |s| > 0 && IsSpace(s[0]) {
      TrimStartDropsSpace(s[1..]);
    }
  }

  /** `DigitRun` is the longest prefix of digits of `radix`. */
  lemma {:induction false} DigitRunIsLongest(s: string, radix: int)
    requires radix == 10 || radix == 16
    ensures var n := DigitRun(s, radix);
      && (forall i :: 0 <= i < n ==> DigitValue(s[i], radix) >= 0)
      && (n < |s| ==> DigitValue(s[n], radix) < 0)
  {
    if |s| > 0 && DigitValue(s[0], radix) >= 0 {
      DigitRunIsLongest(s[1..], radix);
    }
  }

  /** The longest run of digits at the start of `body`, read in `radix`; None when there is none. */
  function ReadDigits(body: string, radix: int): (r: Option<int>)
    requires radix == 10 || radix == 16
    ensures r.None? <==> DigitRun(body, radix) == 0
    ensures r.Some? ==> r.value >= 0
  {
    var n := DigitRun(body, radix);
    if n == 0 then None else Some(Value(body[..n], radix) as int)
  }

  /** After the sign: a `0x`/`0X` prefix means base 16, anything else base 10. */
  function Unsigned(rest: string): Option<int> {
    if |rest| >= 2 && rest[0] == '0' && (rest[1] == 'x' || rest[1] == 'X')
    then ReadDigits(rest[2..], 16)
    else ReadDigits(rest, 10)
  }

  function Negate(o: Option<int>): Option<int> {
    if o.Some? then Some(-o.value) else None
  }

  function Signed(t: string): Option<int> {
    if |t| > 0 && t[0] == '-' then Negate(Unsigned(t[1..]))
    else if |t| > 0 && t[0] == '+' then Unsigned(t[1..])
    else Unsigned(t)
  }

  function Parse(s: string): Option<int> {
    Signed(TrimStart(s))
  }

  /** A string whose first visible character is no sign and no digit is NaN. */
  lemma NoDigitIsNaN(s: string)
    requires var t := TrimStart(s); |t| == 0 || (t[0] != '-' && t[0] != '+' && !Text.IsDigit(t[0]))
    ensures Parse(s) == None
  {
  }

  lemma {:induction false} ValueOfNatText(m: nat)
    ensures Value(Text.NatText(m), 10) == m
  {
    var s := Text.NatText(m);
    if m >= 10 {
      assert s[..|s| - 1] == Text.NatText(m / 10);
      ValueOfNatText(m / 10);
    }
  }

  /**
   * Parsing a string that starts with a decimal digit (not a `0x` prefix) reads the longest
   * run of decimal digits.
   */
  lemma ParseDecimalRun(s: string)
    requires |s| > 0 && Text.IsDigit(s[0])
    requires |s| >= 2 && s[0] == '0' ==> s[1] != 'x' && s[1] != 'X'
    ensures Parse(s) == Some(Value(s[..DigitRun(s, 10)], 10) as int)
  {
    UnsignedDecimal(s);
    Visible(s);
  }

  /** A leading minus sign negates the value, and NaN stays NaN. */
  lemma ParseNegated(s: string)
    requires |s| > 0 && Text.IsDigit(s[0])
    ensures Parse("-" + s) == Negate(Parse(s))
  {
    ParseMinus(s);
    Visible(s);
  }

  lemma ParseMinus(s: string)
    requires |s| > 0
    ensures Parse("-" + s) == Negate(Unsigned(s))
  {
    Visible("-" + s);
    SignedMinus(s);
  }

  lemma UnsignedDecimal(s: string)
    requires |s| > 0 && Text.IsDigit(s[0])
    requires |s| >= 2 && s[0] == '0' ==> s[1] != 'x' && s[1] != 'X'
    ensures Unsigned(s) == Some(Value(s[..DigitRun(s, 10)], 10) as int)
  {
    assert DigitRun(s, 10) > 0 by { assert DigitValue(s[0], 10) >= 0; }
  }

  lemma Visible(s: string)
    requires |s| > 0 && (s[0] == '-' || Text.IsDigit(s[0]))
    ensures TrimStart(s) == s
  {
    assert !IsSpace(s[0]);
  }

  lemma SignedMinus(s: string)
    requires |s| > 0
    ensures Signed("-" + s) == Negate(Unsigned(s))
  {
    assert ("-" + s)[1..] == s;
  }

  /** Round trip: parsing the decimal text of a number gives the number back. */
  lemma ParseDecimal(n: int)
    ensures Parse(Text.Decimal(n)) == Some(n)
  {
    if n < 0 {
      ParseNegativeText(n);
    } else {
      ParseNatText(n);
    }
  }

  lemma ParseNegativeText(n: int)
    requires n < 0
    ensures Parse(Text.Decimal(n)) == Some(n)
  {
    var m: nat := -n;
    assert Text.Decimal(n) == "-" + Text.NatText(m);
    ParseMinusNatText(m);
  }

  lemma ParseMinusNatText(m: nat)
    ensures Parse("-" + Text.NatText(m)) == Some(-(m as int))
  {
    var digits := Text.NatText(m);
    Text.NatTextDigits(m);
    assert Text.IsDigit(digits[0]);
    ParseNatText(m);
    ParseNegatedValue(digits, m);
  }

  lemma ParseNegatedValue(s: string, v: int)
    requires |s| > 0 && Text.IsDigit(s[0]) && Parse(s) == Some(v)
    ensures Parse("-" + s) == Some(-v)
  {
    ParseNegated(s);
  }

  lemma ParseNatText(m: nat)
    ensures Parse(Text.NatText(m)) == Some(m)
  {
    var digits := Text.NatText(m);
    ValueOfNatText(m);
    Text.NatTextDigits(m);
    DigitRunAll(digits);
    assert digits[..|digits|] == digits;
    if |digits| >= 2 { assert Text.IsDigit(digits[1]); }
    ParseDecimalRun(digits);
  }

  lemma {:induction false} DigitRunAll(s: string)
    requires forall i :: 0 <= i < |s| ==> Text.IsDigit(s[i])
    ensures DigitRun(s, 10) == |s|
  {
    if |s| > 0 {
      DigitRunAll(s[1..]);
    }
  }

  /**
   * A UUID parses as its leading decimal digits, or as NaN when it starts with a letter;
   * the number never reads back as the UUID itself.
   */
  const DigitLedUuid := "9b1deb4d-3b7d-4bad-9bdd-2b0d7b3dcb6d"
  const LetterLedUuid := "de305d54-75b4-431b-adb2-eb6b9e546014"

  lemma DigitLedUuidReadsAsNine()
    ensures Parse(DigitLedUuid) == Some(9)
  {
    var u := DigitLedUuid;
    assert |u| >= 2 && u[0] == '9' && u[1] == 'b';
    LeadingDigitOnly(u);
  }

  lemma LetterLedUuidIsNaN()
    ensures Parse(LetterLedUuid) == None
  {
    NoDigitIsNaN(LetterLedUuid);
  }

  /** A single visible digit followed by a non-digit parses as that digit. */
  lemma LeadingDigitOnly(s: string)
    requires |s| >= 2 && Text.IsDigit(s[0]) && s[0] != '0' && !Text.IsDigit(s[1])
    ensures Parse(s) == Some(s[0] as int - '0' as int)
  {
    ParseDecimalRun(s);
    assert DigitRun(s, 10) == 1 by {
      assert DigitValue(s[1..][0], 10) == -1;
    }
    assert s[..1][..0] == [];
  }
}
