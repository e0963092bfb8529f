/** Strings as the source builds them: decimal rendering of numbers and suffix checks. */
module Text {

  predicate IsDigit(c: char) {
    '0' <= c <= '9'
  }

  /** The decimal digit character for 0 <= d < 10. */
  function DigitChar(d: int): (c: char)
    requires 0 <= d < 10
    ensures IsDigit(c)
    ensures c as int - '0' as int == d
  {
    "0123456789"[d]
  }

  /** Decimal text of a natural number, without leading zeros (what `${n}` gives). */
  function NatText(n: nat): (s: string)
    ensures |s| > 0
    ensures n < 10 <==> |s| == 1
    ensures s[|s| - 1] as int - '0' as int == n % 10
  {
    if n < 10 then [DigitChar(n)] else NatText(n / 10) + [DigitChar(n % 10)]
  }

  /** Decimal text of an integer: a minus sign for negative values, then the digits. */
  function Decimal(n: int): (s: string)
    ensures |s| > 0
  {
    if n < 0 then "-" + NatText(-n) else NatText(n)
  }

  /** Decimal text is made of digits only. */
  lemma {:induction false} NatTextDigits(n: nat)
    ensures forall i :: 0 <= i < |NatText(n)| ==> IsDigit(NatText(n)[i])
  {
    if n >= 10 {
      NatTextDigits(n / 10);
    }
  }

  /** An integer's text is digits, after a minus sign exactly when it is negative. */
  lemma DecimalDigits(n: int)
    ensures var s := Decimal(n);
      && (s[0] == '-' <==> n < 0)
      && forall i :: (if n < 0 then 1 else 0) <= i < |s| ==> IsDigit(s[i])
  {
    NatTextDigits(if n < 0 then -n else n);
    if n >= 0 {
      assert IsDigit(Decimal(n)[0]);
    }
  }

  /** Different numbers have different decimal texts. */
  lemma {:induction false} NatTextInjective(a: nat, b: nat)
    requires NatText(a) == NatText(b)
    ensures a == b
  {
    var s := NatText(a);
    assert a % 10 == b % 10;
    if a >= 10 && b >= 10 {
      assert NatText(a / 10) == s[..|s| - 1] == NatText(b / 10);
      NatTextInjective(a / 10, b / 10);
    }
  }

  lemma DecimalInjective(a: int, b: int)
    requires Decimal(a) == Decimal(b)
    ensures a == b
  {
    DecimalDigits(a);
    DecimalDigits(b);
    if a < 0 {
      DigitsAfterMinus(a);
      DigitsAfterMinus(b);
      NatTextInjective(-a, -b);
    } else {
      NatTextInjective(a, b);
    }
  }

  lemma DigitsAfterMinus(n: int)
    requires n < 0
    ensures Decimal(n)[1..] == NatText(-n)
  {
    assert ("-" + NatText(-n))[1..] == NatText(-n);
  }

  /** JavaScript's `s.endsWith(suffix)`. */
  predicate EndsWith(s: string, suffix: string) {
    |suffix| <= |s| && s[|s| - |suffix|..] == suffix
  }

  /** When the suffix holds no separator, a joined path `dir/name` ends with it exactly when `name` does. */
  lemma EndsWithAfterSeparator(dir: string, name: string, suffix: string)
    requires '/' !in suffix
    ensures EndsWith(dir + "/" + name, suffix) <==> EndsWith(name, suffix)
  {
    var full := dir + "/" + name;
    if |suffix| <= |name| {
      assert full[|full| - |suffix|..] == name[|name| - |suffix|..];
    } else if |suffix| <= |full| {
      var at := |suffix| - |name| - 1;
      assert full[|full| - |suffix|..][at] == full[|dir|] == '/';
    }
  }
}
