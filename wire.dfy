/** The serial byte stream every draft talks through, and the reading and
    writing idioms they share. */
module Wire {
  import opened Common

  /** A port read timeout: pySerial's `None` (block forever) or seconds. */
  datatype Timeout = Unbounded | Seconds(n: int)

  /** The serial port with its I/O replaced by state: `input` is everything
      the device will send and `pos` how much of it has been read; an empty
      read means end of stream. `output` is everything written so far. */
  class Port {
    var input: seq<int>
    var pos: nat
    var output: seq<int>
    var timeout: Timeout

    ghost predicate Valid()
      reads this
    {
      pos <= |input| && IsBytes(input)
    }

    /** The bytes the device has still to deliver. */
    ghost function Remaining(): seq<int>
      reads this
      requires Valid()
    {
      input[pos..]
    }

    constructor (input: seq<int>, timeout: Timeout)
      requires IsBytes(input)
      ensures Valid() && this.input == input && pos == 0
      ensures output == [] && this.timeout == timeout
    {
      this.input := input;
      this.pos := 0;
      this.output := [];
      this.timeout := timeout;
    }

    /** `port.write(bytes)`. */
    method Write(bytes: seq<int>)
      modifies this`output
      ensures output == old(output) + bytes
    {
      output := output + bytes;
    }

    /** `port.read(n)`: up to `n` bytes, fewer only at end of stream. */
    method Read(n: nat) returns (r: seq<int>)
      requires Valid()
      modifies this`pos
      ensures Valid()
      ensures r == old(Remaining())[..Min(n, |old(Remaining())|)]
      ensures pos == old(pos) + |r|
      ensures IsBytes(r)
    {
      var k := Min(n, |input| - pos);
      r := input[pos..pos + k];
      pos := pos + k;
    }
  }

  /** What a byte-at-a-time writer leaves behind: the bytes it wrote and the
      exception, if any, that stopped it. */
  datatype Emission = Emission(bytes: seq<int>, err: Option<Error>)

  function Done(bytes: seq<int>): Emission { Emission(bytes, None) }

  /** An exception raised before anything was written. */
  function Raise(e: Error): Emission { Emission([], Some(e)) }

  /** `b` runs only if `a` raised nothing; its bytes follow `a`'s. */
  function Then(a: Emission, b: Emission): (r: Emission)
    ensures a.err.Some? ==> r == a
    ensures a.err.None? ==> r.bytes == a.bytes + b.bytes && r.err == b.err
  {
    if a.err.Some? then a else Emission(a.bytes + b.bytes, b.err)
  }

  /** `w(chr(v))` for each value in turn: `chr` raises ValueError at the
      first value that is not a byte, after the bytes before it went out. */
  function Chrs(vals: seq<int>): (r: Emission)
    ensures r.err.None? <==> IsBytes(vals)
    ensures r.err.None? ==> r.bytes == vals
    ensures r.err.Some? ==>
      r.err == Some(ValueError) && |r.bytes| < |vals| && r.bytes == vals[..|r.bytes|] &&
      IsBytes(r.bytes) && !IsByte(vals[|r.bytes|])
  {
    if |vals| == 0 then Done([])
    else if !IsByte(vals[0]) then Emission([], Some(ValueError))
    else
      var rest := Chrs(vals[1..]);
      assert vals == [vals[0]] + vals[1..];
      Then(Done([vals[0]]), rest)
  }

  /** `Chrs` stops at the first value that is not a byte. */
  lemma ChrsStopsAt(vals: seq<int>, i: nat)
    requires i < |vals| && IsBytes(vals[..i]) && !IsByte(vals[i])
    ensures Chrs(vals) == Emission(vals[..i], Some(ValueError))
  {
    var r := Chrs(vals);
    var k := |r.bytes|;
    assert !IsBytes(vals);
    forall j | 0 <= j < i ensures IsByte(vals[j]) {
      assert vals[..i][j] == vals[j];
    }
    forall j | 0 <= j < k ensures IsByte(vals[j]) {
      assert r.bytes[j] == vals[j];
    }
  }

  /** Writing `a` and then `b` a `chr` at a time is writing `a + b`. */
  lemma {:induction false} ChrsCat(a: seq<int>, b: seq<int>)
    ensures Then(Chrs(a), Chrs(b)) == Chrs(a + b)
    decreases |a|
  {
    if |a| > 0 {
      assert (a + b)[1..] == a[1..] + b;
      assert (a + b)[0] == a[0];
      if IsByte(a[0]) {
        ChrsCat(a[1..], b);
        var x := Chrs(a[1..]);
        if x.err.None? {
          assert [a[0]] + (x.bytes + Chrs(b).bytes) == ([a[0]] + x.bytes) + Chrs(b).bytes;
        }
      }
    } else {
      assert a + b == b;
    }
  }

  /** A message `struct.pack` built whole: written as one block, or nothing
      written when packing raised. */
  function Whole(m: Result<seq<int>>): (r: Emission)
    ensures m.Ok? ==> r == Done(m.value)
    ensures m.Err? ==> r == Emission([], Some(m.error))
  {
    match m
    case Ok(v) => Done(v)
    case Err(e) => Emission([], Some(e))
  }

  /** What the loop `for s in xrange(lo, hi): <emit f(s)>` leaves behind: the
      stages in order, up to and including the first that raised. */
  function Range(f: nat -> Emission, lo: nat, hi: nat): Emission
    decreases hi
  {
    if hi <= lo then Done([]) else Then(Range(f, lo, hi - 1), f(hi - 1))
  }

  /** One more stage after stages that all succeeded; when that stage
      raises, it is the outcome of the whole loop. */
  lemma RangeNext(f: nat -> Emission, lo: nat, k: nat, hi: nat)
    requires lo <= k < hi && Range(f, lo, k).err.None?
    ensures Range(f, lo, k + 1) == Emission(Range(f, lo, k).bytes + f(k).bytes, f(k).err)
    ensures f(k).err.Some? ==> Range(f, lo, hi) == Range(f, lo, k + 1)
  {
    if f(k).err.Some? {
      RangeStops(f, lo, k + 1, hi);
    }
  }

  lemma AppendAssoc(a: seq<int>, b: seq<int>, c: seq<int>)
    ensures (a + b) + c == a + (b + c)
  {
  }

  lemma DropDrop(s: seq<int>, a: nat, b: nat)
    requires a + b <= |s|
    ensures s[a..][b..] == s[a + b..]
  {
  }

  /** Once a stage has raised, later stages add nothing. */
  lemma {:induction false} RangeStops(f: nat -> Emission, lo: nat, k: nat, hi: nat)
    requires lo <= k <= hi && Range(f, lo, k).err.Some?
    ensures Range(f, lo, hi) == Range(f, lo, k)
    decreases hi
  {
    if hi > k {
      RangeStops(f, lo, k, hi - 1);
    }
  }

  /** Stages that all succeed with `m` bytes each emit `(hi - lo) * m` bytes
      and raise nothing. */
  lemma {:induction false} RangeLength(f: nat -> Emission, lo: nat, hi: nat, m: nat)
    requires lo <= hi
    requires forall s :: lo <= s < hi ==> f(s).err.None? && |f(s).bytes| == m
    ensures Range(f, lo, hi).err.None? && |Range(f, lo, hi).bytes| == (hi - lo) * m
    decreases hi
  {
    if hi > lo {
      RangeLength(f, lo, hi - 1, m);
      assert (hi - lo) * m == (hi - 1 - lo) * m + m;
    }
  }

  /** The loop raises nothing exactly when no stage raises. */
  lemma {:induction false} RangeOk(f: nat -> Emission, lo: nat, hi: nat)
    requires lo <= hi
    ensures Range(f, lo, hi).err.None? <==> forall s :: lo <= s < hi ==> f(s).err.None?
    decreases hi
  {
    if hi > lo {
      RangeOk(f, lo, hi - 1);
      if Range(f, lo, hi - 1).err.Some? {
        var s :| lo <= s < hi - 1 && f(s).err.Some?;
      }
    }
  }

  /** With every stage succeeding with `m` bytes, stage `s` owns bytes
      `(s - lo) * m .. (s - lo) * m + m` of the output. */
  lemma {:induction false} RangeSlice(f: nat -> Emission, lo: nat, hi: nat, m: nat, s: nat)
    requires lo <= s < hi
    requires forall t :: lo <= t < hi ==> f(t).err.None? && |f(t).bytes| == m
    ensures |Range(f, lo, hi).bytes| == (hi - lo) * m
    ensures (s - lo) * m + m <= (hi - lo) * m
    ensures Range(f, lo, hi).bytes[(s - lo) * m .. (s - lo) * m + m] == f(s).bytes
    decreases hi
  {
    RangeLength(f, lo, hi - 1, m);
    var pre := Range(f, lo, hi - 1).bytes;
    var last := f(hi - 1).bytes;
    var a, n := (s - lo) * m, (hi - 1 - lo) * m;
    assert Range(f, lo, hi).bytes == pre + last;
    assert (hi - lo) * m == n + m by { MulSucc(hi - 1 - lo, m); }
    if s < hi - 1 {
      RangeSlice(f, lo, hi - 1, m, s);
      MulNat(s - lo, m);
      CatSliceLeft(pre, last, a, a + m);
    } else {
      assert a == n == |pre|;
      CatSliceRight(pre, last, a, a + m);
    }
  }

  /** With every stage succeeding with `m` bytes, the loop from 0 to `n`
      raises nothing and stage `t` owns bytes `t * m .. t * m + m`. */
  lemma RangeSlices(f: nat -> Emission, n: nat, m: nat)
    requires forall t :: 0 <= t < n ==> f(t).err.None? && |f(t).bytes| == m
    ensures Range(f, 0, n).err.None? && |Range(f, 0, n).bytes| == n * m
    ensures forall t :: 0 <= t < n ==> t * m + m <= n * m && Range(f, 0, n).bytes[t * m .. t * m + m] == f(t).bytes
  {
    RangeLength(f, 0, n, m);
    forall t: nat | t < n
      ensures t * m + m <= n * m && Range(f, 0, n).bytes[t * m .. t * m + m] == f(t).bytes
    {
      RangeSlice(f, 0, n, m, t);
    }
  }

  /** The outcome of a decoder run over a byte stream and how many bytes it
      consumed. */
  datatype Decoded<T> = Decoded(result: Result<T>, used: nat)

  /** `p` in front of a successful read, an error left as it is. */
  function Prefixed(p: seq<int>, r: Result<seq<int>>): Result<seq<int>>
  {
    match r
    case Ok(v) => Ok(p + v)
    case Err(e) => Err(e)
  }

  /** A NUL-terminated string read a byte at a time: its bytes without the
      NUL, which is consumed too. Without a NUL the reading loop of the
      drafts never ends: it then consumes the whole stream and spins. */
  function CString(s: seq<int>): (r: Decoded<seq<int>>)
    ensures r.used <= |s|
  {
    if |s| == 0 then Decoded(Err(EndlessLoop), 0)
    else if s[0] == 0 then Decoded(Ok([]), 1)
    else
      var rest := CString(s[1..]);
      Decoded(Prefixed([s[0]], rest.result), rest.used + 1)
  }

  /** CString fails exactly when there is no NUL, having consumed
      everything; otherwise it delivers the bytes before the first NUL and
      consumes the NUL too. */
  lemma {:induction false} CStringSpec(s: seq<int>)
    ensures CString(s).result.Err? <==> 0 !in s
    ensures CString(s).result.Err? ==> CString(s).result.error == EndlessLoop && CString(s).used == |s|
    ensures CString(s).result.Ok? ==>
      var v := CString(s).result.value;
      CString(s).used == |v| + 1 && |v| < |s| && s[|v|] == 0 && v == s[..|v|] && 0 !in v
  {
    if |s| > 0 && s[0] != 0 {
      CStringSpec(s[1..]);
      assert s == [s[0]] + s[1..];
    }
  }

  /** A string then a NUL is read back as that string, whatever follows. */
  lemma CStringOf(v: seq<int>, rest: seq<int>)
    requires 0 !in v
    ensures CString(v + [0] + rest) == Decoded(Ok(v), |v| + 1)
  {
    var s := v + [0] + rest;
    assert s[|v|] == 0;
    CStringSpec(s);
    var w := CString(s).result.value;
    assert w == s[..|v|] == v;
  }

  /** What CString delivers from bytes is bytes, and holds no NUL. */
  lemma CStringBytes(s: seq<int>)
    requires IsBytes(s)
    ensures CString(s).result.Ok? ==> IsBytes(CString(s).result.value) && 0 !in CString(s).result.value
  {
    CStringSpec(s);
    if CString(s).result.Ok? {
      var v := CString(s).result.value;
      forall i | 0 <= i < |v| ensures IsByte(v[i]) {
        assert v[i] == s[i];
      }
    }
  }

  /** Reads bytes up to and including the next NUL (`while True: x = r(1);
      if x != '\0': v.append(x) else: break`). */
  method ReadCString(port: Port) returns (r: Result<seq<int>>)
    requires port.Valid()
    modifies port`pos
    ensures port.Valid()
    ensures r == CString(old(port.Remaining())).result
    ensures port.pos == old(port.pos) + CString(old(port.Remaining())).used
  {
    ghost var s0 := port.Remaining();
    ghost var p0 := port.pos;
    var v: seq<int> := [];
    while true
      invariant port.Valid() && port.input == old(port.input)
      invariant |v| <= |s0| && v == s0[..|v|] && forall j :: 0 <= j < |v| ==> v[j] != 0
      invariant port.pos == p0 + |v|
      decreases |s0| - |v|
    {
      DropDrop(port.input, p0, |v|);
      var x := port.Read(1);
      if x == [] {
        // Past the end of the stream `r(1)` keeps returning '' and the
        // source keeps appending it: the loop does not end.
        CStringAfter(s0, |v|);
        assert s0[|v|..] == [];
        return Err(EndlessLoop);
      }
      if x[0] != 0 {
        assert s0[..|v| + 1] == v + x;
        v := v + x;
      } else {
        CStringAfter(s0, |v|);
        assert s0[|v|..][0] == 0 && v + [] == v;
        return Ok(v);
      }
    }
  }

  /** Skipping `k` non-NUL bytes does not change what CString finds. */
  lemma {:induction false} CStringAfter(s: seq<int>, k: nat)
    requires k <= |s| && forall j :: 0 <= j < k ==> s[j] != 0
    ensures CString(s).result == Prefixed(s[..k], CString(s[k..]).result)
    ensures CString(s).used == k + CString(s[k..]).used
  {
    if k == 0 {
      assert s[k..] == s && s[..k] == [];
      PrefixedEmpty(CString(s).result);
    } else {
      var t := s[1..];
      var rest := CString(s[k..]);
      assert CString(t).result == Prefixed(t[..k - 1], rest.result) && CString(t).used == k - 1 + rest.used by {
        CStringAfter(t, k - 1);
        assert t[k - 1..] == s[k..];
      }
      assert s[..k] == [s[0]] + t[..k - 1];
      CStringCons(s);
      PrefixedTwice([s[0]], t[..k - 1], rest.result);
    }
  }

  /** A non-NUL first byte is part of the string. */
  lemma CStringCons(s: seq<int>)
    requires |s| > 0 && s[0] != 0
    ensures CString(s) == Decoded(Prefixed([s[0]], CString(s[1..]).result), CString(s[1..]).used + 1)
  {
  }

  lemma PrefixedEmpty(r: Result<seq<int>>)
    ensures Prefixed([], r) == r
  {
    match r
    case Ok(v) => assert [] + v == v;
    case Err(e) =>
  }

  lemma PrefixedTwice(a: seq<int>, b: seq<int>, r: Result<seq<int>>)
    ensures Prefixed(a, Prefixed(b, r)) == Prefixed(a + b, r)
  {
    match r
    case Ok(v) => assert a + (b + v) == (a + b) + v;
    case Err(e) =>
  }
}
