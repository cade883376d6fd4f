/**
 * Python's `'%s' % n` for an integer `n`: its decimal text, reading it back,
 * and the interpreter's limit on how many digits it converts.
 */
module Decimal {
  import opened Results

  predicate IsDigit(c: char)
  {
    '0' <= c <= '9'
  }

  predicate IsDigits(s: string)
  {
    |s| > 0 && forall i | 0 <= i < |s| :: IsDigit(s[i])
  }

  function DigitChar(d: nat): (c: char)
    requires d < 10
    ensures IsDigit(c)
  {
    ('0' as int + d) as char
  }

  function DigitValue(c: char): (d: nat)
    requires IsDigit(c)
    ensures d < 10 && DigitChar(d) == c
  {
    c as int - '0' as int
  }

  /** The decimal digits of `n`, without leading zeros. */
  function NatToString(n: nat): (s: string)
    ensures IsDigits(s)
    ensures |s| > 1 ==> s[0] != '0'
  {
    if n < 10 then [DigitChar(n)] else NatToString(n / 10) + [DigitChar(n % 10)]
  }

  /** The number a non-empty string of decimal digits denotes. */
  function ParseNat(s: string): nat
    requires IsDigits(s)
  {
    var last := DigitValue(s[|s| - 1]);
    if |s| == 1 then last else 10 * ParseNat(s[..|s| - 1]) + last
  }

  /** The text `str(i)` for an integer: a minus sign for a negative one. */
  function IntToString(i: int): (s: string)
    ensures |s| > 0
    ensures s[0] == '-' <==> i < 0
  {
    if i < 0 then "-" + NatToString(-i) else NatToString(i)
  }

  /**
   * The most digits CPython converts between an int and its text unless
   * `sys.set_int_max_str_digits` changes it; a longer conversion raises ValueError.
   */
  const IntMaxStrDigits := 4300

  /** How many decimal digits `str(i)` writes, the sign not counted. */
  function DigitCount(i: int): nat
  {
    |NatToString(if i < 0 then -i else i)|
  }

  function Pow10(k: nat): nat
  {
    if k == 0 then 1 else 10 * Pow10(k - 1)
  }

  /** Reads back what `IntToString` writes; None for any other text. */
  function ParseInt(s: string): Option<int>
  {
    if |s| > 1 && s[0] == '-' && IsDigits(s[1..]) then Some(0 - ParseNat(s[1..]) as int)
    else if IsDigits(s) then Some(ParseNat(s))
    else None
  }

  lemma {:induction false} ParseNatToString(n: nat)
    ensures ParseNat(NatToString(n)) == n
  {
    if n >= 10 {
      var s := NatToString(n);
      assert s[..|s| - 1] == NatToString(n / 10);
      ParseNatToString(n / 10);
    }
  }

  /** The decimal text of an integer determines the integer. */
  lemma ParseIntToString(i: int)
    ensures ParseInt(IntToString(i)) == Some(i)
  {
    if i < 0 {
      var digits := NatToString(-i);
      var s := "-" + digits;
      assert s[0] == '-' && s[1..] == digits;
      ParseNatToString(-i);
      assert ParseInt(s) == Some(0 - ParseNat(digits) as int);
    } else {
      ParseNatToString(i);
    }
  }

  lemma IntToStringInjective(i: int, j: int)
    requires IntToString(i) == IntToString(j)
    ensures i == j
  {
    ParseIntToString(i);
    ParseIntToString(j);
  }

  /** A natural number has more than `k` digits (for `k > 0`) exactly when it is at least `10^k`. */
  lemma {:induction false} NatToStringLength(n: nat, k: nat)
    requires k > 0
    ensures |NatToString(n)| > k <==> n >= Pow10(k)
    decreases n
  {
    if n >= 10 {
      if k > 1 {
        NatToStringLength(n / 10, k - 1);
        assert n / 10 >= Pow10(k - 1) <==> n >= 10 * Pow10(k - 1);
      } else {
        assert |NatToString(n / 10)| >= 1;
      }
    } else {
      assert Pow10(k) == 10 * Pow10(k - 1);
      PowerPositive(k - 1);
    }
  }

  lemma {:induction false} PowerPositive(k: nat)
    ensures Pow10(k) >= 1
  {
    if k > 0 {
      PowerPositive(k - 1);
    }
  }

  /** `str(i)` writes more than `k` digits (for `k > 0`) exactly when `|i| >= 10^k`. */
  lemma DigitCountBound(i: int, k: nat)
    requires k > 0
    ensures DigitCount(i) > k <==> i >= Pow10(k) || -i >= Pow10(k)
  {
    NatToStringLength(if i < 0 then -i else i, k);
    PowerPositive(k);
  }
}
