/** The few pieces of Java's integer, floating-point and string semantics that the
    analysis code relies on, written out explicitly because Dafny's own operators differ
    (Dafny's `/` and `%` are Euclidean, Java's truncate toward zero). */
module JavaLang {

  datatype Option<T> = None | Some(value: T)

  datatype Result<T, E> = Success(value: T) | Failure(error: E)

  // ---------------------------------------------------------------- integers

  /** Java's `a / 12` on `int` (twelve semitones per octave is the only divisor the
      controllers use): rounds toward zero. */
  function Div12(a: int): (q: int)
    ensures a >= 0 ==> 12 * q <= a < 12 * q + 12
    ensures a < 0 ==> 12 * q - 12 < a <= 12 * q
  {
    if a >= 0 then a / 12 else -((-a) / 12)
  }

  /** Java's `a % 12` on `int`: the sign follows the dividend. */
  function Rem12(a: int): (r: int)
    ensures a == 12 * Div12(a) + r
    ensures a >= 0 ==> 0 <= r < 12
    ensures a < 0 ==> -12 < r <= 0
  {
    a - 12 * Div12(a)
  }

  /** `Math.floorMod(a, 12)`: the remainder of floor division, never negative. */
  function FloorMod12(a: int): (r: int)
    ensures 0 <= r < 12
    ensures exists q :: a == 12 * q + r
  {
    var r := a % 12;
    assert a == 12 * (a / 12) + r;
    r
  }

  /** Any representation `a == 12 * q + s` with `0 <= s < 12` names `FloorMod12(a)`. */
  lemma FloorMod12Unique(a: int, q: int, s: int)
    requires 0 <= s < 12 && a == 12 * q + s
    ensures FloorMod12(a) == s
  {
    assert a == 12 * (a / 12) + a % 12;
  }

  /** Java truncation and floor division agree on non-negative dividends and differ on
      every negative dividend that is not a multiple of twelve. */
  lemma Div12IsFloorIffExact(a: int)
    ensures Div12(a) == a / 12 <==> (a >= 0 || a % 12 == 0)
  {
    assert a == 12 * (a / 12) + a % 12;
  }

  /** The remainder-based index `(a % 12 + 12) % 12`, evaluated with Java's `%`, is
      `Math.floorMod(a, 12)`. */
  lemma ShiftedRemIsFloorMod(a: int)
    ensures Rem12(Rem12(a) + 12) == FloorMod12(a)
  {
    var r := Rem12(a);
    var s := Rem12(r + 12);
    if r < 0 {
      assert s == r + 12;
      FloorMod12Unique(a, Div12(a) - 1, s);
    } else {
      assert s == r;
      FloorMod12Unique(a, Div12(a), s);
    }
  }

  // ---------------------------------------------------------------- reals

  function Abs(x: real): (r: real)
    ensures r >= 0.0 && (r == x || r == -x)
  {
    if x < 0.0 then -x else x
  }

  function Max(a: real, b: real): (r: real)
    ensures r >= a && r >= b && (r == a || r == b)
  {
    if a >= b then a else b
  }

  /** `Math.signum` on a (non-NaN) double. */
  function Signum(x: real): (r: int)
    ensures r == -1 || r == 0 || r == 1
    ensures r > 0 <==> x > 0.0
    ensures r < 0 <==> x < 0.0
  {
    if x > 0.0 then 1 else if x < 0.0 then -1 else 0
  }

  /** `Math.round` on a (finite) double: the closest integer, ties rounding up. */
  function Round(x: real): (n: int)
    ensures n as real - 0.5 <= x < n as real + 0.5
  {
    (x + 0.5).Floor
  }

  /** Any integer within half a unit of `x` (with the half-open tie rule) is `Round(x)`. */
  lemma RoundUnique(x: real, m: int)
    requires m as real - 0.5 <= x < m as real + 0.5
    ensures Round(x) == m
  {
  }

  // ---------------------------------------------------------------- Integer.toString

  predicate IsDigit(c: char) { '0' <= c <= '9' }

  function DigitChar(d: int): (c: char)
    requires 0 <= d < 10
    ensures IsDigit(c) && (c as int) - ('0' as int) == d
  {
    (('0' as int) + d) as char
  }

  function DigitValue(c: char): int
    requires IsDigit(c)
  {
    (c as int) - ('0' as int)
  }

  /** Decimal digits of a natural number, most significant first, no leading zeros. */
  function NatToDecimal(n: nat): (s: string)
    ensures |s| >= 1
    ensures forall i :: 0 <= i < |s| ==> IsDigit(s[i])
    ensures |s| > 1 ==> s[0] != '0'
  {
    if n < 10 then [DigitChar(n)] else NatToDecimal(n / 10) + [DigitChar(n % 10)]
  }

  /** `Integer.toString(i)` (and string concatenation with an `int`): a minus sign for
      negative values followed by the digits of the magnitude. */
  function IntToDecimal(i: int): (s: string)
    ensures |s| >= 1
    ensures (s[0] == '-') <==> i < 0
    ensures forall k :: (if i < 0 then 1 else 0) <= k < |s| ==> IsDigit(s[k])
  {
    if i < 0 then "-" + NatToDecimal(-i) else NatToDecimal(i)
  }

  /** Reads back a run of decimal digits. */
  function ParseDigits(s: string): nat
    requires forall i :: 0 <= i < |s| ==> IsDigit(s[i])
  {
    if |s| == 0 then 0 else ParseDigits(s[..|s| - 1]) * 10 + DigitValue(s[|s| - 1])
  }

  /** Reads back an optionally signed decimal integer; `None` for anything else. */
  function ParseDecimal(s: string): Option<int>
  {
    if |s| >= 2 && s[0] == '-' && (forall i :: 1 <= i < |s| ==> IsDigit(s[i])) then
      var magnitude: int := ParseDigits(s[1..]);
      Some(-magnitude)
    else if |s| >= 1 && s[0] != '-' && (forall i :: 0 <= i < |s| ==> IsDigit(s[i])) then
      Some(ParseDigits(s))
    else None
  }

  lemma {:induction false} ParseNatToDecimal(n: nat)
    ensures ParseDigits(NatToDecimal(n)) == n
  {
    if n >= 10 {
      var s := NatToDecimal(n);
      ParseNatToDecimal(n / 10);
      assert s[..|s| - 1] == NatToDecimal(n / 10);
    }
  }

  /** `Integer.toString` is injective: reading the text back yields the number. */
  lemma {:induction false} ParseIntToDecimal(i: int)
    ensures ParseDecimal(IntToDecimal(i)) == Some(i)
  {
    var s := IntToDecimal(i);
    if i < 0 {
      ParseNatToDecimal(-i);
      assert s[1..] == NatToDecimal(-i);
    } else {
      ParseNatToDecimal(i);
    }
  }
}
