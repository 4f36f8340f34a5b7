/** Values shared by every part of the model: the stand-in for `f64`, an
    Option type, C and Rust integer ranges, and the decimal formatting that
    Rust's `{}` applies to integers. */
module Base {

  /** An IEEE-754 double kept as its 64-bit pattern, read as an unsigned
      number. The wrapper never computes with such values; it only hands them
      to the engine and back, so only their identity matters. */
  newtype F64 = x: int | 0 <= x < 0x1_0000_0000_0000_0000

  /** The constants the wrapper writes itself. */
  const ZERO: F64 := 0                            // 0.0
  const ONE: F64 := 0x3FF0_0000_0000_0000         // 1.0
  const FOURTEEN: F64 := 0x402C_0000_0000_0000    // 14.0

  datatype Option<+T> = None | Some(value: T)

  /** Range of C's `int`, which the engine uses for its version number. */
  const C_INT_MIN: int := -0x8000_0000
  const C_INT_MAX: int := 0x7FFF_FFFF
  type CInt = i: int | C_INT_MIN <= i <= C_INT_MAX

  /** `as usize` on a 64-bit target wraps negative values around 2^64. */
  const USIZE_MODULUS: int := 0x1_0000_0000_0000_0000

  /** A string with no NUL character, which `CString::new` accepts. */
  predicate NoNul(s: string) {
    forall i :: 0 <= i < |s| ==> s[i] != '\0'
  }

  predicate IsDigit(c: char) {
    '0' <= c <= '9'
  }

  predicate AllDigits(s: string) {
    forall i :: 0 <= i < |s| ==> IsDigit(s[i])
  }

  function DigitChar(d: nat): (c: char)
    requires d < 10
    ensures IsDigit(c)
  {
    ('0' as int + d) as char
  }

  function DigitValue(c: char): (d: nat)
    requires IsDigit(c)
    ensures d < 10
  {
    c as int - '0' as int
  }

  /** Rust's `{}` rendering of a non-negative integer: its decimal digits,
      most significant first, without leading zeros. */
  function NatToString(n: nat): (s: string)
    ensures |s| >= 1 && AllDigits(s)
    ensures |s| > 1 ==> s[0] != '0'
    decreases n
  {
    if n < 10 then [DigitChar(n)] else NatToString(n / 10) + [DigitChar(n % 10)]
  }

  /** The number a string of decimal digits denotes. */
  function DigitsValue(s: string): nat
    requires AllDigits(s)
  {
    if s == [] then 0 else 10 * DigitsValue(s[..|s| - 1]) + DigitValue(s[|s| - 1])
  }

  /** Reading back what `NatToString` wrote gives the number again. */
  lemma {:induction false} DigitsValueOfNatToString(n: nat)
    ensures DigitsValue(NatToString(n)) == n
    decreases n
  {
    if n >= 10 {
      var s := NatToString(n);
      assert s[..|s| - 1] == NatToString(n / 10);
      DigitsValueOfNatToString(n / 10);
    }
  }

  lemma NatToStringInjective(m: nat, n: nat)
    requires NatToString(m) == NatToString(n)
    ensures m == n
  {
    DigitsValueOfNatToString(m);
    DigitsValueOfNatToString(n);
  }

  /** A run of digits followed by a non-digit splits in exactly one way. */
  lemma {:induction false} DigitRunUnique(a: string, x: string, b: string, y: string)
    requires AllDigits(a) && AllDigits(b)
    requires |x| > 0 && !IsDigit(x[0]) && |y| > 0 && !IsDigit(y[0])
    requires a + x == b + y
    ensures a == b && x == y
    decreases |a|
  {
    if a == [] || b == [] {
      assert !IsDigit((a + x)[0]) && !IsDigit((b + y)[0]);
      assert a == [] && b == [];
      assert a + x == x && b + y == y;
    } else {
      assert (a + x)[0] == a[0] && (b + y)[0] == b[0];
      assert a[1..] + x == (a + x)[1..];
      assert b[1..] + y == (b + y)[1..];
      DigitRunUnique(a[1..], x, b[1..], y);
      assert a == [a[0]] + a[1..];
      assert b == [b[0]] + b[1..];
    }
  }

  /** Rust's `{}` rendering of a signed integer. */
  function IntToString(i: int): (s: string)
    ensures i >= 0 ==> s == NatToString(i)
    ensures i < 0 ==> |s| > 1 && s[0] == '-'
  {
    if i < 0 then "-" + NatToString(-i) else NatToString(i)
  }

  /** Rust's integer `/`, which rounds toward zero (Dafny's `/` is Euclidean). */
  function TruncDiv(a: int, b: int): (q: int)
    requires b > 0
    ensures a >= 0 ==> q == a / b
  {
    if a >= 0 then a / b else -((-a) / b)
  }

  /** Rust's integer `%`: the remainder takes the sign of the dividend. */
  function TruncRem(a: int, b: int): (r: int)
    requires b > 0
    ensures a >= 0 ==> r == a % b
  {
    a - b * TruncDiv(a, b)
  }
}
