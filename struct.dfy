/** The `struct.pack` formats the later drafts build their messages with,
    all little-endian: `B` (unsigned byte), `H` (unsigned 16-bit), `i`
    (signed 32-bit), and `c`/`x` (a literal byte, a zero pad byte). A value
    out of a format's range raises struct.error and nothing is produced. */
module Struct {
  import opened Common
  import opened SumpOps

  /** `struct.pack('<B', x)`. */
  function PackB(x: int): (r: Result<seq<int>>)
    ensures r.Ok? <==> IsByte(x)
    ensures r.Err? ==> r.error == StructError
    ensures r.Ok? ==> r.value == [x]
  {
    if IsByte(x) then Ok([x]) else Err(StructError)
  }

  /** `struct.pack('<H', x)`. */
  function PackH(x: int): (r: Result<seq<int>>)
    ensures r.Ok? <==> 0 <= x < 65536
    ensures r.Err? ==> r.error == StructError
    ensures r.Ok? ==> |r.value| == 2 && IsBytes(r.value) && r.value[0] + 256 * r.value[1] == x
  {
    if 0 <= x < 65536 then Ok([x % 256, x / 256]) else Err(StructError)
  }

  /** `struct.pack('<i', x)`: the two's complement bytes of `x`, least
      significant first. */
  function PackI(x: int): (r: Result<seq<int>>)
    ensures r.Ok? <==> -2147483648 <= x < 2147483648
    ensures r.Err? ==> r.error == StructError
    ensures r.Ok? ==> r.value == LeBytes(x)
  {
    if -2147483648 <= x < 2147483648 then Ok(LeBytes(x)) else Err(StructError)
  }

  /** Reading a packed `i` back as unsigned little-endian gives `x` modulo
      2^32, so every value in range comes back: as itself when non-negative,
      as `x + 2^32` when negative. */
  lemma PackIRoundTrip(x: int)
    requires -2147483648 <= x < 2147483648
    ensures LittleEndian(PackI(x).value) == (if x >= 0 then x else x + 4294967296)
  {
    LittleEndianOfLeBytes(x);
    if x < 0 {
      DivUnique(x, 4294967296, -1, x + 4294967296);
    } else {
      DivUnique(x, 4294967296, 0, x);
    }
  }

  /** Fields packed one after the other: the first failure wins. */
  function Cat(a: Result<seq<int>>, b: Result<seq<int>>): (r: Result<seq<int>>)
    ensures r.Ok? <==> a.Ok? && b.Ok?
    ensures r.Ok? ==> r.value == a.value + b.value
    ensures r.Err? ==> r.error == (if a.Err? then a.error else b.error)
  {
    if a.Err? then a else if b.Err? then b else Ok(a.value + b.value)
  }

  /** `''.join([f(i) for i in xrange(n)])`: the list is built before the
      join, so the first part that fails is what is raised. */
  function Join(f: nat -> Result<seq<int>>, n: int): Result<seq<int>>
    decreases if n < 0 then 0 else n
  {
    if n <= 0 then Ok([]) else Cat(Join(f, n - 1), f(n - 1))
  }

  /** The join succeeds exactly when every part does. */
  lemma {:induction false} JoinOk(f: nat -> Result<seq<int>>, n: nat)
    ensures Join(f, n).Ok? <==> forall i: nat :: i < n ==> f(i).Ok?
  {
    if n > 0 {
      JoinOk(f, n - 1);
      assert Join(f, n) == Cat(Join(f, n - 1), f(n - 1));
    }
  }

  /** With parts of `m` bytes a successful join is `n * m` bytes, part `i`
      at offset `i * m`. */
  lemma JoinLayout(f: nat -> Result<seq<int>>, n: nat, m: nat)
    requires forall i: nat :: i < n ==> f(i).Ok? && |f(i).value| == m
    ensures Join(f, n).Ok? && |Join(f, n).value| == n * m
    ensures forall i: nat :: i < n ==> i * m + m <= n * m && Join(f, n).value[i * m .. i * m + m] == f(i).value
  {
    JoinLength(f, n, m);
    forall i: nat | i < n
      ensures i * m + m <= n * m && Join(f, n).value[i * m .. i * m + m] == f(i).value
    {
      JoinSlice(f, n, m, i);
    }
  }

  /** With parts of `m` bytes a join succeeds with `n * m` bytes. */
  lemma {:induction false} JoinLength(f: nat -> Result<seq<int>>, n: nat, m: nat)
    requires forall i: nat :: i < n ==> f(i).Ok? && |f(i).value| == m
    ensures Join(f, n).Ok? && |Join(f, n).value| == n * m
  {
    if n > 0 {
      JoinLength(f, n - 1, m);
      assert Join(f, n) == Cat(Join(f, n - 1), f(n - 1));
      assert n * m == (n - 1) * m + m;
    }
  }

  /** Part `i` of a join of parts of `m` bytes sits at offset `i * m`. */
  lemma {:induction false} JoinSlice(f: nat -> Result<seq<int>>, n: nat, m: nat, i: nat)
    requires i < n
    requires forall j: nat :: j < n ==> f(j).Ok? && |f(j).value| == m
    ensures Join(f, n).Ok? && |Join(f, n).value| == n * m
    ensures 0 <= i * m && i * m + m <= n * m && Join(f, n).value[i * m .. i * m + m] == f(i).value
  {
    JoinLength(f, n - 1, m);
    var a, b := Join(f, n - 1).value, f(n - 1).value;
    var lo, k := i * m, (n - 1) * m;
    assert Join(f, n) == Ok(a + b);
    assert n * m == k + m;
    MulNat(i, m);
    if i < n - 1 {
      JoinSlice(f, n - 1, m, i);
      CatSliceLeft(a, b, lo, lo + m);
    } else {
      assert lo == k == |a|;
      CatSliceRight(a, b, lo, lo + m);
    }
  }

  /** A join depends on its first `n` parts only. */
  lemma {:induction false} JoinSame(f: nat -> Result<seq<int>>, g: nat -> Result<seq<int>>, n: int)
    requires forall i: nat :: i < n ==> f(i) == g(i)
    ensures Join(f, n) == Join(g, n)
    decreases if n < 0 then 0 else n
  {
    if n > 0 {
      JoinSame(f, g, n - 1);
    }
  }
}
