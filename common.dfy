/** Shared vocabulary of the SUMP codec model: the error kinds the Python code
    raises, an Option/Result pair, and Python's integer operators written out
    over Dafny's unbounded `int`. */
module Common {

  datatype Option<T> = None | Some(value: T)

  /** The exceptions the drafts raise (Python built-ins and the package's own
      error classes). `EndlessLoop` stands for a read loop that never ends:
      the drafts read C strings until a NUL byte, and at end of stream they
      keep reading empty strings forever. */
  datatype Error =
    | ValueError
    | TypeError
    | IndexError
    | AttributeError
    | StructError
    | ZeroDivisionError
    | NotImplementedError
    | KeyError
    | SumpTriggerEnableError
    | EndlessLoop

  datatype Result<T> = Ok(value: T) | Err(error: Error)

  function Pow2(k: nat): (r: nat)
    ensures r >= 1
  {
    if k == 0 then 1 else 2 * Pow2(k - 1)
  }

  lemma {:induction false} Pow2Add(a: nat, b: nat)
    ensures Pow2(a + b) == Pow2(a) * Pow2(b)
  {
    if b > 0 {
      Pow2Add(a, b - 1);
      assert Pow2(a + b) == 2 * Pow2(a + b - 1);
    }
  }

  lemma {:induction false} Pow2Mono(a: nat, b: nat)
    requires a <= b
    ensures Pow2(a) <= Pow2(b)
  {
    if a < b {
      Pow2Mono(a, b - 1);
    }
  }

  lemma Pow2Values()
    ensures Pow2(8) == 256 && Pow2(16) == 65536 && Pow2(24) == 16777216
    ensures Pow2(32) == 4294967296
  {
    Pow2Add(8, 8);
    Pow2Add(16, 8);
    Pow2Add(16, 16);
  }

  /** Division by `a` then by `b` is division by `a * b`. */
  lemma DivDiv(n: int, a: int, b: int)
    requires a > 0 && b > 0
    ensures (n / a) / b == n / (a * b)
  {
    var q, r := n / a, n % a;
    var q2, r2 := q / b, q % b;
    var ab := a * b;
    var low := a * r2 + r;
    assert n == a * q + r;
    assert q == b * q2 + r2;
    assert a * q == ab * q2 + a * r2 by { MulSplit(a, b, q2, r2); }
    assert n == ab * q2 + low;
    assert 0 <= low < ab by { LowBound(a, b, r2, r); }
    DivUnique(n, ab, q2, low);
  }

  lemma MulSplit(a: int, b: int, q: int, r: int)
    ensures a * (b * q + r) == (a * b) * q + a * r
  {
  }

  /** A remainder below `a` plus `a` times a remainder below `b` stays below
      `a * b`. */
  lemma LowBound(a: int, b: int, r2: int, r: int)
    requires a > 0 && 0 <= r2 < b && 0 <= r < a
    ensures 0 <= a * r2 + r < a * b
  {
    MulLe(a, 0, r2);
    MulLe(a, r2, b - 1);
    assert a * (b - 1) == a * b - a;
  }

  lemma DivUnique(n: int, d: int, q: int, r: int)
    requires d > 0 && n == d * q + r && 0 <= r < d
    ensures n / d == q && n % d == r
  {
    var q', r' := n / d, n % d;
    assert n == d * q' + r';
    if q' < q {
      MulLe(d, q' + 1, q);
    } else if q' > q {
      MulLe(d, q + 1, q');
    }
  }

  lemma MulLe(d: int, a: int, b: int)
    requires d > 0 && a <= b
    ensures d * a <= d * b
  {
    assert d * b - d * a == d * (b - a);
  }

  /** Adding a multiple of `d` shifts the quotient and keeps the remainder. */
  lemma DivAddMultiple(a: int, c: int, d: int)
    requires d > 0
    ensures (a + c * d) / d == a / d + c && (a + c * d) % d == a % d
  {
    DivUnique(a + c * d, d, a / d + c, a % d);
  }

  lemma MulNat(x: nat, m: nat)
    ensures x * m >= 0
  {
  }

  lemma MulSucc(x: int, m: int)
    ensures (x + 1) * m == x * m + m
  {
  }

  lemma CatSliceLeft<T>(a: seq<T>, b: seq<T>, i: nat, j: nat)
    requires i <= j <= |a|
    ensures (a + b)[i..j] == a[i..j]
  {
  }

  lemma CatSliceRight<T>(a: seq<T>, b: seq<T>, i: nat, j: nat)
    requires |a| <= i <= j <= |a| + |b|
    ensures (a + b)[i..j] == b[i - |a|..j - |a|]
  {
  }

  predicate IsByte(x: int) { 0 <= x < 256 }

  predicate IsBytes(s: seq<int>) { forall i :: 0 <= i < |s| ==> IsByte(s[i]) }

  /** Python's `int(b)` of a bool. */
  function B2I(b: bool): int { if b then 1 else 0 }

  /** Python's `a << k`. */
  function Shl(a: int, k: nat): int { a * Pow2(k) }

  /** Python's `a >> k`: it floors, as Dafny's `/` does for a positive divisor. */
  function Shr(a: int, k: nat): int { a / Pow2(k) }

  /** Bit `i` of `a` in two's complement, as Python's `(a >> i) & 1`. */
  function Bit(a: int, i: nat): (r: int)
    ensures r == 0 || r == 1
  {
    (a / Pow2(i)) % 2
  }

  function Abs(a: int): nat { if a < 0 then -a else a }

  /** Python's `a | b` on (unbounded, two's complement) integers: bit by bit
      from the least significant end, until both operands are 0 or -1. */
  function Or(a: int, b: int): int
    decreases Abs(a) + Abs(b)
  {
    if (a == 0 || a == -1) && (b == 0 || b == -1) then
      (if a == -1 || b == -1 then -1 else 0)
    else
      2 * Or(a / 2, b / 2) + (if a % 2 == 1 || b % 2 == 1 then 1 else 0)
  }

  lemma {:induction false} OrZero(a: int)
    requires a >= 0
    ensures Or(a, 0) == a
    decreases a
  {
    if a != 0 {
      OrZero(a / 2);
    }
  }

  lemma {:induction false} OrComm(a: int, b: int)
    ensures Or(a, b) == Or(b, a)
    decreases Abs(a) + Abs(b)
  {
    if !((a == 0 || a == -1) && (b == 0 || b == -1)) {
      OrComm(a / 2, b / 2);
    }
  }

  /** OR of values whose set bits do not overlap is their sum: `b` lies below
      bit `k` and `a << k` above it. */
  lemma {:induction false} OrDisjoint(a: int, b: int, k: nat)
    requires a >= 0 && 0 <= b < Pow2(k)
    ensures Or(a * Pow2(k), b) == a * Pow2(k) + b
    decreases k
  {
    if k == 0 {
      OrZero(a);
    } else {
      var hi := a * Pow2(k);
      assert hi == 2 * (a * Pow2(k - 1));
      if hi == 0 && b == 0 {
      } else {
        assert hi / 2 == a * Pow2(k - 1) && hi % 2 == 0;
        OrDisjoint(a, b / 2, k - 1);
      }
    }
  }

  /** One step of `Or` with the halves and the low bit already known. */
  lemma OrStep(x: int, y: int, u: int, v: int, bit: int, o: int)
    requires x >= 0 && y >= 0 && !(x == 0 && y == 0)
    requires x / 2 == u && y / 2 == v && bit == (if x % 2 == 1 || y % 2 == 1 then 1 else 0)
    requires Or(u, v) == o
    ensures Or(x, y) == 2 * o + bit
  {
  }

  lemma HalfOf(A: int, h: int, r: int)
    requires r == 0 || r == 1
    ensures (2 * A + 2 * h + r) / 2 == A + h && (2 * A + 2 * h + r) % 2 == r
  {
    DivUnique(2 * A + 2 * h + r, 2, A + h, r);
  }

  /** Low bits below bit `k` that only one operand has pass through an OR
      unchanged: `(a << k | b) | (c << k) == (a | c) << k | b`. */
  lemma {:induction false} OrLowBits(a: int, b: int, c: int, k: nat)
    requires a >= 0 && c >= 0 && 0 <= b < Pow2(k)
    ensures Or(a * Pow2(k) + b, c * Pow2(k)) == Or(a, c) * Pow2(k) + b
    decreases k
  {
    if k > 0 {
      assert 0 <= b / 2 < Pow2(k - 1);
      OrLowBits(a, b / 2, c, k - 1);
      OrLowBitsStep(a, b, c, k);
    }
  }

  /** The step from `k - 1` to `k` of `OrLowBits`. */
  lemma OrLowBitsStep(a: int, b: int, c: int, k: nat)
    requires k > 0 && a >= 0 && c >= 0 && 0 <= b < Pow2(k)
    requires Or(a * Pow2(k - 1) + b / 2, c * Pow2(k - 1)) == Or(a, c) * Pow2(k - 1) + b / 2
    ensures Or(a * Pow2(k) + b, c * Pow2(k)) == Or(a, c) * Pow2(k) + b
  {
    var o := Or(a, c);
    ShiftStep(a, k);
    ShiftStep(c, k);
    ShiftStep(o, k);
    assert b == 2 * (b / 2) + b % 2;
    OrLowStep(a * Pow2(k - 1), c * Pow2(k - 1), o * Pow2(k - 1), b / 2, b % 2);
  }

  /** `a << k` is twice `a << (k - 1)`, and not negative when `a` is not. */
  lemma ShiftStep(a: int, k: nat)
    requires k > 0
    ensures a * Pow2(k) == 2 * (a * Pow2(k - 1))
    ensures a >= 0 ==> a * Pow2(k - 1) >= 0
  {
    var p := Pow2(k - 1);
    assert Pow2(k) == 2 * p;
    MulDouble(a, p);
    if a >= 0 {
      MulLe(p, 0, a);
    }
  }

  /** One bit of `OrLowBits`: the low bit `r` of the first operand passes
      through. */
  lemma OrLowStep(A: int, C: int, O: int, h: int, r: int)
    requires A >= 0 && C >= 0 && h >= 0 && (r == 0 || r == 1)
    requires Or(A + h, C) == O + h
    ensures Or(2 * A + 2 * h + r, 2 * C) == 2 * O + 2 * h + r
  {
    var x, y := 2 * A + 2 * h + r, 2 * C;
    if x == 0 && y == 0 {
      OrZero(0);
    } else {
      assert x / 2 == A + h && x % 2 == r by { HalfOf(A, h, r); }
      assert y / 2 == C && y % 2 == 0 by { HalfOf(C, 0, 0); }
      OrStep(x, y, A + h, C, r, O + h);
    }
  }

  lemma MulDouble(a: int, p: int)
    ensures a * (2 * p) == 2 * (a * p)
  {
  }

  lemma OrDouble(a: int, b: int)
    requires a >= 0 && b >= 0
    ensures Or(2 * a, 2 * b) == 2 * Or(a, b)
  {
    if a != 0 || b != 0 {
      assert (2 * a) / 2 == a && (2 * a) % 2 == 0;
      assert (2 * b) / 2 == b && (2 * b) % 2 == 0;
    }
  }

  /** Shifting both operands left by `k` shifts their OR. */
  lemma {:induction false} OrShift(a: int, b: int, k: nat)
    requires a >= 0 && b >= 0
    ensures Or(a * Pow2(k), b * Pow2(k)) == Or(a, b) * Pow2(k)
    decreases k
  {
    if k > 0 {
      ShiftStep(a, k);
      ShiftStep(b, k);
      ShiftStep(Or(a, b), k);
      OrDouble(a * Pow2(k - 1), b * Pow2(k - 1));
      OrShift(a, b, k - 1);
    }
  }

  /** OR of two values below `2^k` stays below `2^k`. */
  lemma {:induction false} OrBound(a: int, b: int, k: nat)
    requires 0 <= a < Pow2(k) && 0 <= b < Pow2(k)
    ensures 0 <= Or(a, b) < Pow2(k)
    decreases k
  {
    if k == 0 {
    } else if a == 0 && b == 0 {
    } else {
      OrBound(a / 2, b / 2, k - 1);
    }
  }

  /** OR of non-negative values is at least each of them. */
  lemma {:induction false} OrLower(a: int, b: int)
    requires a >= 0 && b >= 0
    ensures Or(a, b) >= a && Or(a, b) >= b
    decreases a + b
  {
    if !(a == 0 && b == 0) {
      OrLower(a / 2, b / 2);
    }
  }

  /** OR with a negative operand is negative. */
  lemma {:induction false} OrNegative(a: int, b: int)
    requires a < 0
    ensures Or(a, b) < 0
    decreases Abs(a) + Abs(b)
  {
    if !((a == 0 || a == -1) && (b == 0 || b == -1)) {
      OrNegative(a / 2, b / 2);
    }
  }

  /** An OR with a byte is a byte exactly when the other operand is one: a
      negative operand makes it negative and one of 256 or more makes it at
      least that large. This is when `chr` of such an OR succeeds. */
  lemma OrByteRange(a: int, b: int)
    requires IsByte(a)
    ensures IsByte(Or(a, b)) <==> IsByte(b)
  {
    Pow2Values();
    if b < 0 {
      OrComm(a, b);
      OrNegative(b, a);
    } else if b >= 256 {
      OrLower(a, b);
    } else {
      OrBound(a, b, 8);
    }
  }

  /** Python's `a & b` on (unbounded, two's complement) integers. */
  function And(a: int, b: int): int
    decreases Abs(a) + Abs(b)
  {
    if (a == 0 || a == -1) && (b == 0 || b == -1) then
      (if a == -1 && b == -1 then -1 else 0)
    else
      2 * And(a / 2, b / 2) + (if a % 2 == 1 && b % 2 == 1 then 1 else 0)
  }

  lemma {:induction false} AndZero(a: int)
    ensures And(a, 0) == 0
    decreases Abs(a)
  {
    if !(a == 0 || a == -1) {
      AndZero(a / 2);
    }
  }

  /** `a & (2**k - 1)` keeps the low `k` bits: it is `a` modulo `2^k`, also
      for negative `a`. In particular `a & 0xFF` is `a % 256`. */
  lemma {:induction false} AndLowMask(a: int, k: nat)
    ensures And(a, Pow2(k) - 1) == a % Pow2(k)
    decreases k
  {
    if k == 0 {
      AndZero(a);
    } else {
      var m := Pow2(k) - 1;
      var h := Pow2(k - 1);
      assert Pow2(k) == 2 * h;
      assert m / 2 == h - 1 && m % 2 == 1 by { HalfOf(h - 1, 0, 1); }
      AndLowMask(a / 2, k - 1);
      AndStep(a, m);
      assert And(a, m) == 2 * And(a / 2, h - 1) + a % 2;
      ModDouble(a, h);
    }
  }

  /** `a mod 2h` from `a / 2 mod h` and the low bit of `a`. */
  lemma ModDouble(a: int, h: int)
    requires h > 0
    ensures a % (2 * h) == 2 * ((a / 2) % h) + a % 2
  {
    var q, r := (a / 2) / h, (a / 2) % h;
    assert a / 2 == h * q + r;
    assert a == 2 * (a / 2) + a % 2;
    assert a == (2 * h) * q + (2 * r + a % 2) by { MulSplit(2, h, q, r); }
    DivUnique(a, 2 * h, q, 2 * r + a % 2);
  }

  lemma AndStep(a: int, m: int)
    requires m >= 1
    ensures And(a, m) == 2 * And(a / 2, m / 2) + (if a % 2 == 1 && m % 2 == 1 then 1 else 0)
  {
  }

  /** Python 2's `a / b` on ints: floor division, ZeroDivisionError for 0. */
  function FloorDiv(a: int, b: int): (q: int)
    requires b != 0
    ensures b > 0 ==> q * b <= a < q * b + b
    ensures b < 0 ==> q * b + b < a <= q * b
  {
    if b > 0 then a / b else (-a) / (-b)
  }

  /** Python's `s[::-1]`. */
  function Reverse<T>(s: seq<T>): (r: seq<T>)
    ensures |r| == |s|
    ensures forall i :: 0 <= i < |s| ==> r[i] == s[|s| - 1 - i]
  {
    seq(|s|, i requires 0 <= i < |s| => s[|s| - 1 - i])
  }

  function Min(a: nat, b: nat): nat { if a < b then a else b }

  const CLOCK_RATE: int := 100000000

  /** `int(clock_rate / divider)`, doubled with demux: the sample-rate
      computation of both first-generation settings classes. */
  function SampleRateOf(clock: int, divider: int, demux: bool): (r: Result<int>)
    ensures r.Err? <==> divider == 0
    ensures r.Err? ==> r.error == ZeroDivisionError
    ensures divider > 0 && !demux ==> r.value * divider <= clock < (r.value + 1) * divider
    ensures divider > 0 && demux ==> r.value % 2 == 0 && (r.value / 2) * divider <= clock < (r.value / 2 + 1) * divider
  {
    if divider == 0 then Err(ZeroDivisionError)
    else
      var rate := FloorDiv(clock, divider);
      Ok(if demux then rate * 2 else rate)
  }
}
