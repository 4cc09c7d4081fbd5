/** Decimal numerals: reading them, and printing them with and without a fixed width. */
module Numerals {

  predicate IsDigit(c: char) {
    '0' <= c <= '9'
  }

  predicate OnlyDigits(value: string) {
    forall i :: 0 <= i < |value| ==> IsDigit(value[i])
  }

  predicate AllDigits(value: string) {
    value != "" && OnlyDigits(value)
  }

  function Number(value: string): int
    requires OnlyDigits(value)
  {
    if value == "" then 0
    else Number(value[..|value| - 1]) * 10 + (value[|value| - 1] as int - '0' as int)
  }

  function Digit(n: int): char
    requires 0 <= n < 10
  {
    '0' + n as char
  }

  /** `n` in exactly `width` decimal digits. */
  function Padded(n: int, width: nat): string
    requires n >= 0
    decreases width
  {
    if width == 0 then "" else Padded(n / 10, width - 1) + [Digit(n % 10)]
  }

  function Power(width: nat): int {
    if width == 0 then 1 else 10 * Power(width - 1)
  }

  lemma {:induction false} PaddedReadsBack(n: int, width: nat)
    requires 0 <= n < Power(width)
    ensures |Padded(n, width)| == width
    ensures OnlyDigits(Padded(n, width))
    ensures Number(Padded(n, width)) == n
    decreases width
  {
    if width > 0 {
      PaddedReadsBack(n / 10, width - 1);
      var s := Padded(n, width);
      assert s[..|s| - 1] == Padded(n / 10, width - 1);
    }
  }

  lemma {:induction false} PaddedPrintsBack(value: string)
    requires OnlyDigits(value)
    ensures 0 <= Number(value) < Power(|value|) && Padded(Number(value), |value|) == value
  {
    if value != "" {
      var last := |value| - 1;
      PaddedPrintsBack(value[..last]);
      var d := value[last] as int - '0' as int;
      assert Number(value) / 10 == Number(value[..last]) && Number(value) % 10 == d;
      assert value == value[..last] + [value[last]];
    }
  }

  lemma Powers()
    ensures Power(2) == 100 && Power(4) == 10000
  {
    assert Power(1) == 10;
    assert Power(2) == 100;
    assert Power(3) == 1000;
  }

  /** The shortest numeral of `n`. */
  function Decimal(n: nat): string {
    if n < 10 then [Digit(n)] else Decimal(n / 10) + [Digit(n % 10)]
  }

  lemma {:induction false} DecimalReadsBack(n: nat)
    ensures AllDigits(Decimal(n)) && Number(Decimal(n)) == n
    decreases n
  {
    if n >= 10 {
      DecimalReadsBack(n / 10);
      var s := Decimal(n);
      assert s[..|s| - 1] == Decimal(n / 10);
    }
  }

  /** A digit counts for itself. */
  lemma DigitsCount(n: int)
    requires 0 <= n < 10
    ensures Number(["0123456789"[n]]) == n && Digit(n) == "0123456789"[n]
  {
    assert ["0123456789"[n]][..0] == "";
  }

  /** Digits in front count ten times as much for each digit behind them. */
  lemma {:induction false} NumberConcatenates(a: string, b: string)
    requires OnlyDigits(a) && OnlyDigits(b)
    ensures Number(a + b) == Number(a) * Power(|b|) + Number(b)
  {
    if b == "" {
      assert a + b == a;
    } else {
      var last := |b| - 1;
      NumberConcatenates(a, b[..last]);
      assert (a + b)[..|a + b| - 1] == a + b[..last];
    }
  }

  predicate Shortest(value: string) {
    AllDigits(value) && (|value| == 1 || value[0] != '0')
  }

  /** The shortest numeral of a number is the only one without leading zeros. */
  lemma {:induction false} ShortestNumeral(value: string)
    requires AllDigits(value)
    ensures Number(value) >= 0
    ensures Decimal(Number(value)) == value <==> Shortest(value)
    ensures |value| > 1 && value[0] != '0' ==> Number(value) >= 10
    ensures value[0] != '0' ==> Number(value) >= 1
  {
    var last := |value| - 1;
    var d := value[last] as int - '0' as int;
    if last == 0 {
      assert value[..0] == "";
      assert value == [value[0]];
    } else {
      var front := value[..last];
      ShortestNumeral(front);
      assert Number(value) / 10 == Number(front) && Number(value) % 10 == d;
      assert value == front + [value[last]];
      if Number(value) >= 10 {
        assert Decimal(Number(value)) == Decimal(Number(front)) + [value[last]];
      }
    }
  }
}
