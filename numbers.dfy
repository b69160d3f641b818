// Decimal spelling and parsing of integers, and Go's fixed-width integer arithmetic.
module Numbers {
  import opened Wrappers

  /** One element of a Go `[]byte`. */
  type byte = x: int | 0 <= x < 256

  const Int64Min: int := -0x8000_0000_0000_0000
  const Int64Max: int := 0x7FFF_FFFF_FFFF_FFFF
  const Int64Modulus: int := 0x1_0000_0000_0000_0000

  /** Two's-complement wrap-around of a Go `int64` (and `time.Duration`) result. */
  function WrapInt64(x: int): (r: int)
    ensures Int64Min <= r <= Int64Max
    ensures Int64Min <= x <= Int64Max ==> r == x
  {
    (x - Int64Min) % Int64Modulus + Int64Min
  }

  function Pow2(n: nat): (r: nat)
    ensures r >= 1
  {
    if n == 0 then 1 else 2 * Pow2(n - 1)
  }

  predicate IsDigit(c: char) {
    '0' <= c <= '9'
  }

  predicate AllDigits(s: string) {
    forall i :: 0 <= i < |s| ==> IsDigit(s[i])
  }

  function DigitChar(d: nat): (c: char)
    requires d < 10
    ensures IsDigit(c) && c as int - '0' as int == d
  {
    ('0' as int + d) as char
  }

  /** The value of a string of decimal digits, most significant digit first. */
  function DigitsValue(s: string): nat
    requires AllDigits(s)
  {
    if s == [] then 0 else DigitsValue(s[..|s| - 1]) * 10 + (s[|s| - 1] as int - '0' as int)
  }

  /** The shortest decimal spelling of `n`, as `strconv.Itoa` writes a non-negative int. */
  function Decimal(n: nat): (s: string)
    ensures |s| >= 1 && AllDigits(s)
    ensures n < 10 <==> |s| == 1
    decreases n
  {
    if n < 10 then [DigitChar(n)] else Decimal(n / 10) + [DigitChar(n % 10)]
  }

  lemma {:induction false} DecimalValue(n: nat)
    ensures DigitsValue(Decimal(n)) == n
    decreases n
  {
    if n >= 10 {
      DecimalValue(n / 10);
      var s := Decimal(n);
      assert s[..|s| - 1] == Decimal(n / 10);
    }
  }

  function Zeros(k: nat): (s: string)
    ensures |s| == k && AllDigits(s)
  {
    seq(k, _ => '0')
  }

  lemma {:induction false} ZerosValue(k: nat, s: string)
    requires AllDigits(s)
    ensures AllDigits(Zeros(k) + s) && DigitsValue(Zeros(k) + s) == DigitsValue(s)
    decreases |s|, k
  {
    var z := Zeros(k) + s;
    assert AllDigits(z) by {
      forall i | 0 <= i < |z| ensures IsDigit(z[i]) {
        if i < k { assert z[i] == Zeros(k)[i]; } else { assert z[i] == s[i - k]; }
      }
    }
    if s == [] {
      if k > 0 {
        assert z[..|z| - 1] == Zeros(k - 1) + [];
        ZerosValue(k - 1, []);
      }
    } else {
      assert z[..|z| - 1] == Zeros(k) + s[..|s| - 1];
      ZerosValue(k, s[..|s| - 1]);
    }
  }

  /** `n` in decimal, left-padded with zeros to at least `width` digits (a Go time layout field). */
  function ZeroPad(n: nat, width: nat): (s: string)
    ensures AllDigits(s)
    ensures |s| == if |Decimal(n)| >= width then |Decimal(n)| else width
    ensures DigitsValue(s) == n
  {
    var d := Decimal(n);
    DecimalValue(n);
    ZerosValue(if |d| >= width then 0 else width - |d|, d);
    assert d == Zeros(0) + d;
    if |d| >= width then d else Zeros(width - |d|) + d
  }

  lemma {:induction false} DecimalWidth(n: nat, k: nat)
    requires n < Pow10(k)
    ensures |Decimal(n)| <= if k == 0 then 1 else k
    decreases k
  {
    if n >= 10 {
      assert k >= 2;
      DecimalWidth(n / 10, k - 1);
    }
  }

  function Pow10(k: nat): (r: nat)
    ensures r >= 1
  {
    if k == 0 then 1 else 10 * Pow10(k - 1)
  }

  /** `strconv.Itoa` on any int: a minus sign for negative numbers, then the decimal digits. */
  function FormatInt(n: int): (s: string)
    ensures |s| >= 1
  {
    (if n < 0 then "-" else "") + Decimal(if n < 0 then -n else n)
  }

  /** `strconv.Atoi` on a 64-bit platform: an optional sign, one or more decimal digits, and a value that fits in int64. */
  function Atoi(s: string): (r: Option<int>)
    ensures r.Some? ==> Int64Min <= r.value <= Int64Max
    ensures r.Some? ==> |s| >= 1
    ensures |s| >= 1 && AllDigits(s) && DigitsValue(s) <= Int64Max ==> r == Some(DigitsValue(s) as int)
    ensures |s| >= 1 && !IsDigit(s[0]) && s[0] != '-' && s[0] != '+' ==> r == None
  {
    var signed := |s| > 0 && (s[0] == '-' || s[0] == '+');
    var body := if signed then s[1..] else s;
    if body == [] || !AllDigits(body) then None
    else
      var v: int := if signed && s[0] == '-' then -(DigitsValue(body) as int) else DigitsValue(body) as int;
      if Int64Min <= v <= Int64Max then Some(v) else None
  }

  /** Formatting then parsing gives the number back, for every int64. */
  lemma AtoiFormatInt(n: int)
    requires Int64Min <= n <= Int64Max
    ensures Atoi(FormatInt(n)) == Some(n)
  {
    var m := if n < 0 then -n else n;
    DecimalValue(m);
    var s := FormatInt(n);
    if n < 0 {
      assert s[1..] == Decimal(m);
    } else {
      assert s == Decimal(m);
      assert IsDigit(s[0]);
    }
  }
}
