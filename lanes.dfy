/** How a capture is laid out on the wire: the `channel_groups` mask disables
    byte lanes, each sample arrives as one byte per enabled lane in
    ascending lane order, and byte `k` of a sample is shifted left by
    `8 * lane` and ORed into the sample word. */
module Lanes {
  import opened Common
  import opened Wire

  predicate Ascending(l: seq<nat>)
  {
    forall i, j :: 0 <= i < j < |l| ==> l[i] < l[j]
  }

  /** The lanes `0 .. n-1` whose bit in `mask` is clear, in ascending order:
      the test `not (mask & (1 << i))`. */
  function EnabledLanes(mask: int, n: int): (r: seq<nat>)
    ensures forall i: nat :: i in r <==> i < n && Bit(mask, i) == 0
    ensures Ascending(r)
    ensures forall j :: 0 <= j < |r| ==> r[j] < n
    decreases n
  {
    if n <= 0 then []
    else EnabledLanes(mask, n - 1) + (if Bit(mask, n - 1) == 0 then [n - 1] else [])
  }

  /** The sample word built from one byte per lane. */
  function Assemble(bytes: seq<int>, lanes: seq<nat>): int
    requires |bytes| == |lanes|
    decreases |lanes|
  {
    if |lanes| == 0 then 0
    else Assemble(bytes[..|bytes| - 1], lanes[..|lanes| - 1])
         + bytes[|bytes| - 1] * Pow2(8 * lanes[|lanes| - 1])
  }

  /** Byte `lane` of a sample word. */
  function ByteLane(v: int, lane: nat): int
  {
    (v / Pow2(8 * lane)) % 256
  }

  lemma {:induction false} AssembleBound(bytes: seq<int>, lanes: seq<nat>, m: nat)
    requires |bytes| == |lanes| && IsBytes(bytes) && Ascending(lanes)
    requires forall j :: 0 <= j < |lanes| ==> lanes[j] < m
    ensures 0 <= Assemble(bytes, lanes) < Pow2(8 * m)
    decreases |lanes|
  {
    if |lanes| > 0 {
      var n := |lanes| - 1;
      var q := lanes[n];
      AssembleBound(bytes[..n], lanes[..n], q);
      assert 256 * Pow2(8 * q) <= Pow2(8 * m) by {
        Pow2Add(8 * q, 8);
        Pow2Values();
        Pow2Mono(8 * q + 8, 8 * m);
      }
      AddTopByte(Assemble(bytes[..n], lanes[..n]), bytes[n], Pow2(8 * q), Pow2(8 * m));
    }
  }

  lemma AddTopByte(a: int, x: int, p: int, q: int)
    requires 0 <= a < p && IsByte(x) && 256 * p <= q
    ensures 0 <= a + x * p < q
  {
    MulLe(p, x, 255);
  }

  /** Adding the next, higher lane by `v |= byte << (8 * lane)`. */
  lemma AssembleStep(bytes: seq<int>, lanes: seq<nat>, x: int, q: nat)
    requires |bytes| == |lanes| && IsBytes(bytes) && IsByte(x) && Ascending(lanes)
    requires forall j :: 0 <= j < |lanes| ==> lanes[j] < q
    ensures Or(Assemble(bytes, lanes), Shl(x, 8 * q)) == Assemble(bytes + [x], lanes + [q])
  {
    AssembleBound(bytes, lanes, q);
    OrComm(Assemble(bytes, lanes), Shl(x, 8 * q));
    OrDisjoint(x, Assemble(bytes, lanes), 8 * q);
    assert (bytes + [x])[..|bytes|] == bytes;
    assert (lanes + [q])[..|lanes|] == lanes;
  }

  lemma ByteLaneTop(a: int, x: int, q: nat)
    requires 0 <= a < Pow2(8 * q) && IsByte(x)
    ensures ByteLane(a + x * Pow2(8 * q), q) == x
  {
    DivUnique(a + x * Pow2(8 * q), Pow2(8 * q), x, a);
  }

  lemma ByteLaneBelow(a: int, x: int, q: nat, i: nat)
    requires 0 <= a && i < q
    ensures ByteLane(a + x * Pow2(8 * q), i) == ByteLane(a, i)
  {
    var d := Pow2(8 * i);
    var m := Pow2(8 * (q - i) - 8);
    var c := x * m;
    assert Pow2(8 * q) == d * (m * 256) by {
      Pow2Add(8 * i, 8 * (q - i));
      Pow2Add(8 * (q - i) - 8, 8);
      Pow2Values();
    }
    assert x * Pow2(8 * q) == (c * 256) * d by {
      MulRearrange(x, d, m * 256);
      MulAssoc(x, m, 256);
    }
    DivAddMultiple(a, c * 256, d);
    DivAddMultiple(a / d, c, 256);
  }

  lemma MulRearrange(x: int, d: int, y: int)
    ensures x * (d * y) == (x * y) * d
  {
  }

  lemma MulAssoc(x: int, y: int, z: int)
    ensures x * (y * z) == (x * y) * z
  {
  }

  lemma ByteLaneAbove(v: int, q: nat, i: nat)
    requires 0 <= v < Pow2(8 * (q + 1)) && q < i
    ensures ByteLane(v, i) == 0
  {
    Pow2Mono(8 * (q + 1), 8 * i);
    DivUnique(v, Pow2(8 * i), 0, v);
  }

  /** Each enabled lane's byte is where it belongs in the sample, and every
      other lane's byte is zero. */
  lemma {:induction false} AssembleLanes(bytes: seq<int>, lanes: seq<nat>, i: nat)
    requires |bytes| == |lanes| && IsBytes(bytes) && Ascending(lanes)
    ensures forall j :: 0 <= j < |lanes| && lanes[j] == i ==> ByteLane(Assemble(bytes, lanes), i) == bytes[j]
    ensures i !in lanes ==> ByteLane(Assemble(bytes, lanes), i) == 0
    decreases |lanes|
  {
    if |lanes| == 0 {
      assert Assemble(bytes, lanes) == 0;
      assert 0 / Pow2(8 * i) == 0;
    } else {
      var n := |lanes| - 1;
      var q := lanes[n];
      if i == q {
        AssembleTopLane(bytes, lanes);
      } else if i < q {
        var pre, low := lanes[..n], bytes[..n];
        var a := Assemble(low, pre);
        var v := Assemble(bytes, lanes);
        assert v == a + bytes[n] * Pow2(8 * q);
        assert Ascending(pre) && IsBytes(low);
        AssembleBound(low, pre, q);
        AssembleLanes(low, pre, i);
        ByteLaneBelow(a, bytes[n], q, i);
        forall j | 0 <= j < |lanes| && lanes[j] == i
          ensures ByteLane(v, i) == bytes[j]
        {
          assert j < n && pre[j] == i && low[j] == bytes[j];
        }
        if i !in lanes {
          assert i !in pre;
        }
      } else {
        AssembleAboveLanes(bytes, lanes, i);
      }
    }
  }

  /** The highest lane's byte is where it belongs. */
  lemma AssembleTopLane(bytes: seq<int>, lanes: seq<nat>)
    requires |bytes| == |lanes| > 0 && IsBytes(bytes) && Ascending(lanes)
    ensures forall j :: 0 <= j < |lanes| && lanes[j] == lanes[|lanes| - 1] ==>
      ByteLane(Assemble(bytes, lanes), lanes[|lanes| - 1]) == bytes[j]
  {
    var n := |lanes| - 1;
    var q := lanes[n];
    var a := Assemble(bytes[..n], lanes[..n]);
    assert Assemble(bytes, lanes) == a + bytes[n] * Pow2(8 * q);
    AssembleBound(bytes[..n], lanes[..n], q);
    ByteLaneTop(a, bytes[n], q);
    forall j | 0 <= j < |lanes| && lanes[j] == q
      ensures j == n
    {
    }
  }

  /** A lane above every enabled lane holds zero. */
  lemma AssembleAboveLanes(bytes: seq<int>, lanes: seq<nat>, i: nat)
    requires |bytes| == |lanes| > 0 && IsBytes(bytes) && Ascending(lanes)
    requires lanes[|lanes| - 1] < i
    ensures i !in lanes && ByteLane(Assemble(bytes, lanes), i) == 0
  {
    var q := lanes[|lanes| - 1];
    AssembleBound(bytes, lanes, q + 1);
    ByteLaneAbove(Assemble(bytes, lanes), q, i);
    forall j | 0 <= j < |lanes| ensures lanes[j] != i {
      if j < |lanes| - 1 { assert lanes[j] < q; }
    }
  }

  /** `n` samples read back to back from the stream `s`. */
  function Samples(s: seq<int>, lanes: seq<nat>, n: nat): (r: seq<int>)
    requires n * |lanes| <= |s|
    ensures |r| == n
    decreases n
  {
    if n == 0 then []
    else
      var w := |lanes|;
      assert (n - 1) * w == n * w - w;
      Samples(s, lanes, n - 1) + [Assemble(s[(n - 1) * w .. n * w], lanes)]
  }

  /** Sample `k` is assembled from bytes `k*w .. k*w + w - 1` of the stream. */
  lemma {:induction false} SampleAt(s: seq<int>, lanes: seq<nat>, n: nat, k: nat)
    requires n * |lanes| <= |s| && k < n
    ensures k * |lanes| + |lanes| <= |s|
    ensures Samples(s, lanes, n)[k] == Assemble(s[k * |lanes| .. k * |lanes| + |lanes|], lanes)
  {
    var w := |lanes|;
    assert (n - 1) * w == n * w - w;
    if k < n - 1 {
      SampleAt(s, lanes, n - 1, k);
    } else {
      assert k * w + w == n * w;
    }
  }

  /** Reading `k` holds, in each enabled lane, the byte the device sent
      for that lane, and zero in every lane not enabled. */
  lemma SampleBytes(s: seq<int>, lanes: seq<nat>, n: nat, k: nat)
    requires IsBytes(s) && Ascending(lanes) && n * |lanes| <= |s| && k < n
    ensures k * |lanes| + |lanes| <= |s|
    ensures forall t :: 0 <= t < |lanes| ==> ByteLane(Samples(s, lanes, n)[k], lanes[t]) == s[k * |lanes| + t]
    ensures forall i: nat :: i !in lanes ==> ByteLane(Samples(s, lanes, n)[k], i) == 0
  {
    var w := |lanes|;
    SampleAt(s, lanes, n, k);
    var bytes := s[k * w..k * w + w];
    forall t | 0 <= t < w
      ensures ByteLane(Samples(s, lanes, n)[k], lanes[t]) == s[k * w + t]
    {
      AssembleLanes(bytes, lanes, lanes[t]);
    }
    forall i: nat | i !in lanes
      ensures ByteLane(Samples(s, lanes, n)[k], i) == 0
    {
      AssembleLanes(bytes, lanes, i);
    }
  }

  /** The next sample of the stream follows the ones before it. */
  lemma SamplesNext(s: seq<int>, lanes: seq<nat>, k: nat)
    requires k * |lanes| + |lanes| <= |s|
    ensures (k + 1) * |lanes| == k * |lanes| + |lanes|
    ensures Samples(s, lanes, k + 1) == Samples(s, lanes, k) + [Assemble(s[k * |lanes|..][..|lanes|], lanes)]
  {
    var w := |lanes|;
    assert (k + 1) * w == k * w + w;
    assert s[k * w..][..w] == s[k * w..k * w + w];
  }

  /** A stream too short for sample `k` is too short for all `n > k`. */
  lemma ShortStream(w: nat, k: nat, n: nat, m: nat)
    requires k < n && k * w + w > m
    ensures n * w > m
  {
    MulLe(w, k + 1, n);
  }

  /** One byte more of a sample: byte `j` of the stream ORed in at lane
      `lanes[j]`. */
  lemma ReadSampleStep(s0: seq<int>, lanes: seq<nat>, j: nat)
    requires j < |lanes| && j < |s0| && Ascending(lanes) && IsBytes(s0[..j]) && IsByte(s0[j])
    ensures IsBytes(s0[..j + 1])
    ensures Or(Assemble(s0[..j], lanes[..j]), Shl(s0[j], 8 * lanes[j])) == Assemble(s0[..j + 1], lanes[..j + 1])
  {
    assert forall t :: 0 <= t < j ==> lanes[..j][t] < lanes[j];
    AssembleStep(s0[..j], lanes[..j], s0[j], lanes[j]);
    assert s0[..j] + [s0[j]] == s0[..j + 1];
    assert lanes[..j] + [lanes[j]] == lanes[..j + 1];
  }

  /** Reading one sample: one byte per enabled lane, each ORed in at its
      lane (`for uf in ufs: v |= uf(port.read(1))`). At end of stream
      `ord('')` raises TypeError. */
  method ReadSample(port: Port, lanes: seq<nat>) returns (r: Result<int>)
    requires port.Valid() && Ascending(lanes)
    modifies port`pos
    ensures port.Valid()
    ensures |lanes| <= |old(port.Remaining())| ==>
      r == Ok(Assemble(old(port.Remaining())[..|lanes|], lanes)) && port.pos == old(port.pos) + |lanes|
    ensures |lanes| > |old(port.Remaining())| ==> r == Err(TypeError) && port.pos == |port.input|
  {
    ghost var s0 := port.Remaining();
    ghost var p0 := port.pos;
    var v := 0;
    var j := 0;
    while j < |lanes|
      invariant port.Valid() && port.input == old(port.input)
      invariant j <= |lanes| && j <= |s0| && port.pos == p0 + j
      invariant IsBytes(s0[..j])
      invariant v == Assemble(s0[..j], lanes[..j])
    {
      var c := port.Read(1);
      if c == [] {
        return Err(TypeError);
      }
      assert c == [s0[j]];
      ReadSampleStep(s0, lanes, j);
      v := Or(v, Shl(c[0], 8 * lanes[j]));
      j := j + 1;
    }
    assert lanes[..j] == lanes;
    return Ok(v);
  }
}
