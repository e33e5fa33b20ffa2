/** sump/ops.py: four bytes read as a 32-bit integer, in either byte order.
    sump/sump.py carries identical copies of both functions. */
module SumpOps {
  import opened Common

  /** `big_endian(s4)`: `s4[0]` is the most significant byte. */
  function BigEndian(s4: seq<int>): (r: int)
    requires |s4| >= 4 && IsBytes(s4[..4])
    ensures r == s4[0] * 16777216 + s4[1] * 65536 + s4[2] * 256 + s4[3]
    ensures 0 <= r < 4294967296
  {
    assert IsByte(s4[0]) && IsByte(s4[1]) && IsByte(s4[2]) && IsByte(s4[3]) by {
      assert s4[..4][0] == s4[0] && s4[..4][1] == s4[1] && s4[..4][2] == s4[2] && s4[..4][3] == s4[3];
    }
    OrOfFourBytes(s4[0], s4[1], s4[2], s4[3]);
    Or(Or(Or(Shl(s4[0], 24), Shl(s4[1], 16)), Shl(s4[2], 8)), s4[3])
  }

  /** `little_endian(s4)`: `s4[0]` is the least significant byte. */
  function LittleEndian(s4: seq<int>): (r: int)
    requires |s4| >= 4 && IsBytes(s4[..4])
    ensures r == s4[3] * 16777216 + s4[2] * 65536 + s4[1] * 256 + s4[0]
    ensures 0 <= r < 4294967296
  {
    assert IsByte(s4[0]) && IsByte(s4[1]) && IsByte(s4[2]) && IsByte(s4[3]) by {
      assert s4[..4][0] == s4[0] && s4[..4][1] == s4[1] && s4[..4][2] == s4[2] && s4[..4][3] == s4[3];
    }
    OrOfFourBytes(s4[3], s4[2], s4[1], s4[0]);
    Or(Or(Or(Shl(s4[3], 24), Shl(s4[2], 16)), Shl(s4[1], 8)), s4[0])
  }

  /** `b0 << 24 | b1 << 16 | b2 << 8 | b3` adds up the four bytes: their bits
      do not overlap. */
  lemma OrOfFourBytes(b0: int, b1: int, b2: int, b3: int)
    requires IsByte(b0) && IsByte(b1) && IsByte(b2) && IsByte(b3)
    ensures Or(Or(Or(Shl(b0, 24), Shl(b1, 16)), Shl(b2, 8)), b3)
         == b0 * 16777216 + b1 * 65536 + b2 * 256 + b3
  {
    Pow2Values();
    Pow2Add(8, 16);
    Pow2Add(8, 8);
    // b0 << 24 | b1 << 16 == (b0 << 8 | b1) << 16
    assert Shl(b0, 24) == (b0 * 256) * Pow2(16);
    OrShift(b0 * 256, b1, 16);
    OrDisjoint(b0, b1, 8);
    var x := b0 * 256 + b1;
    assert Or(Shl(b0, 24), Shl(b1, 16)) == x * 65536;
    // x << 16 | b2 << 8 == (x << 8 | b2) << 8
    assert x * 65536 == (x * 256) * Pow2(8);
    OrShift(x * 256, b2, 8);
    OrDisjoint(x, b2, 8);
    var y := x * 256 + b2;
    assert Or(x * 65536, Shl(b2, 8)) == y * 256;
    OrDisjoint(y, b3, 8);
  }

  /** The four bytes of `n`, least significant first, as the first draft's
      encoders write them: `chr(n & 0xFF)`, `chr((n >> 8) & 0xFF)`, ...
      (`n >> 8` floors, as `n / 256` does). A negative `n` gives its two's
      complement bytes. */
  function LeBytes(n: int): (r: seq<int>)
    ensures |r| == 4 && IsBytes(r)
  {
    [n % 256, (n / 256) % 256, (n / 65536) % 256, (n / 16777216) % 256]
  }

  /** Reading the bytes back little-endian gives `n` modulo 2^32: the
      encoders truncate, they never fail. */
  lemma LittleEndianOfLeBytes(n: int)
    ensures LittleEndian(LeBytes(n)) == n % 4294967296
    ensures 0 <= n < 4294967296 ==> LittleEndian(LeBytes(n)) == n
  {
    var q1, q2, q3, q4 := n / 256, n / 65536, n / 16777216, n / 4294967296;
    assert q1 / 256 == q2 by { DivDiv(n, 256, 256); }
    assert q2 / 256 == q3 by { DivDiv(n, 65536, 256); }
    assert q3 / 256 == q4 by { DivDiv(n, 16777216, 256); }
    var b := LeBytes(n);
    var sum := b[0] + 256 * b[1] + 65536 * b[2] + 16777216 * b[3];
    assert LittleEndian(b) == sum;
    Digits4(n, q1, q2, q3, q4, b[0], b[1], b[2], b[3]);
    DivUnique(n, 4294967296, q4, sum);
    if 0 <= n < 4294967296 {
      DivUnique(n, 4294967296, 0, n);
    }
  }

  /** Four base-256 digits put back together. */
  lemma Digits4(n: int, q1: int, q2: int, q3: int, q4: int, b0: int, b1: int, b2: int, b3: int)
    requires n == 256 * q1 + b0 && q1 == 256 * q2 + b1 && q2 == 256 * q3 + b2 && q3 == 256 * q4 + b3
    ensures n == 4294967296 * q4 + (b0 + 256 * b1 + 65536 * b2 + 16777216 * b3)
  {
  }

  /** `little_endian(s) == big_endian(s[3], s[2], s[1], s[0])`. */
  lemma LittleIsReversedBig(s: seq<int>)
    requires |s| == 4 && IsBytes(s)
    ensures LittleEndian(s) == BigEndian(Reverse(s))
  {
  }

  /** Big-endian decoding loses nothing: equal values come from equal bytes. */
  lemma BigEndianInjective(s: seq<int>, t: seq<int>)
    requires |s| == 4 && IsBytes(s) && |t| == 4 && IsBytes(t)
    requires BigEndian(s) == BigEndian(t)
    ensures s == t
  {
    var v := BigEndian(s);
    DivUnique(v, 256, s[0] * 65536 + s[1] * 256 + s[2], s[3]);
    DivUnique(v, 256, t[0] * 65536 + t[1] * 256 + t[2], t[3]);
    var w := v / 256;
    DivUnique(w, 256, s[0] * 256 + s[1], s[2]);
    DivUnique(w, 256, t[0] * 256 + t[1], t[2]);
    var x := w / 256;
    DivUnique(x, 256, s[0], s[1]);
    DivUnique(x, 256, t[0], t[1]);
  }

  /** The four bytes of `n`, most significant first. */
  function BeBytes(n: int): (r: seq<int>)
    ensures |r| == 4 && IsBytes(r)
    ensures r == Reverse(LeBytes(n))
  {
    [(n / 16777216) % 256, (n / 65536) % 256, (n / 256) % 256, n % 256]
  }

  /** Big-endian decoding undoes `BeBytes` for every 32-bit value. */
  lemma BigEndianOfBeBytes(n: int)
    requires 0 <= n < 4294967296
    ensures BigEndian(BeBytes(n)) == n
  {
    LittleEndianOfLeBytes(n);
    LittleIsReversedBig(LeBytes(n));
  }
}
