/** Decimal text of an unsigned number, as produced by `NumberType<uint32_t>::Text()`,
    and the parse that reads it back. */
module NumberText {
  import opened Values

  predicate IsDigit(c: char) {
    '0' <= c <= '9'
  }

  function Digit(d: nat): (c: char)
    requires d < 10
    ensures IsDigit(c) && (c as int) - ('0' as int) == d
  {
    ('0' as int + d) as char
  }

  function DigitValue(c: char): (d: nat)
    requires IsDigit(c)
    ensures d < 10 && Digit(d) == c
  {
    (c as int - '0' as int) as nat
  }

  /** The decimal text of `n`, most significant digit first. */
  function Text(n: nat): string
  {
    if n < 10 then [Digit(n)] else Text(n / 10) + [Digit(n % 10)]
  }

  /** The text is a non-empty run of digits with no leading zero. */
  lemma {:induction false} TextDigits(n: nat)
    ensures |Text(n)| >= 1
    ensures forall i | 0 <= i < |Text(n)| :: IsDigit(Text(n)[i])
    ensures Text(n)[0] == '0' <==> n == 0
  {
    if n >= 10 {
      TextDigits(n / 10);
    }
  }

  /** Reads a non-empty string of decimal digits; anything else is None. */
  function Parse(s: string): (r: Option<nat>)
  {
    if s == [] || !IsDigit(s[|s| - 1]) then None
    else if |s| == 1 then Some(DigitValue(s[0]))
    else match Parse(s[..|s| - 1])
      case None => None
      case Some(high) => Some(high * 10 + DigitValue(s[|s| - 1]))
  }

  /** Reading the text of a number gives the number back. */
  lemma {:induction false} ParseText(n: nat)
    ensures Parse(Text(n)) == Some(n)
  {
    if n >= 10 {
      var s := Text(n);
      TextDigits(n / 10);
      assert s[..|s| - 1] == Text(n / 10);
      ParseText(n / 10);
    }
  }

  /** Distinct numbers have distinct texts. */
  lemma TextInjective(a: nat, b: nat)
    ensures Text(a) == Text(b) ==> a == b
  {
    ParseText(a);
    ParseText(b);
  }
}
