/** sump2/devices/rs232.py: the second-generation client over a serial
    port. It keeps the settings it last sent and resends them before a
    capture only when they have changed. */
module RS232 {
  import opened Common
  import opened Wire
  import opened Lanes
  import Sump2Settings

  /** The hard reset: five `0x00` bytes. */
  const HARD_RESET: seq<int> := [0, 0, 0, 0, 0]

  /** What `capture` returns for the bytes `s` the device sends after
      `0x01`: `capture_dtypes[len(ufs)]` has six entries, so six or more
      enabled lanes raise IndexError; `numpy.empty` refuses a negative
      count; a stream that ends early makes `ord('')` raise TypeError. */
  function CaptureOf(channelGroups: int, maxChannelGroups: int, readCount: int, s: seq<int>): Result<seq<int>>
  {
    var lanes := EnabledLanes(channelGroups, maxChannelGroups);
    if |lanes| >= 6 then Err(IndexError)
    else if readCount < 0 then Err(ValueError)
    else if readCount * |lanes| <= |s| then Ok(Samples(s, lanes, readCount))
    else Err(TypeError)
  }

  /** Whether `capture` gets as far as writing `0x01`. */
  predicate StartsCapture(channelGroups: int, maxChannelGroups: int, readCount: int)
  {
    |EnabledLanes(channelGroups, maxChannelGroups)| < 6 && readCount >= 0
  }

  /** A capture that succeeds is `read_count` samples over the enabled
      lanes, in the order they were read. */
  lemma CaptureOfOk(channelGroups: int, maxChannelGroups: int, readCount: int, s: seq<int>)
    requires CaptureOf(channelGroups, maxChannelGroups, readCount, s).Ok?
    ensures var lanes := EnabledLanes(channelGroups, maxChannelGroups);
      |lanes| < 6 && readCount >= 0 && readCount * |lanes| <= |s| &&
      CaptureOf(channelGroups, maxChannelGroups, readCount, s).value == Samples(s, lanes, readCount)
  {
  }

  /** A sample over lanes all below `m` is below 2^(8 * m). */
  lemma SampleFits(s: seq<int>, lanes: seq<nat>, n: nat, k: nat, m: nat)
    requires IsBytes(s) && Ascending(lanes) && n * |lanes| <= |s| && k < n
    requires forall j :: 0 <= j < |lanes| ==> lanes[j] < m
    ensures 0 <= Samples(s, lanes, n)[k] < Pow2(8 * m)
  {
    var w := |lanes|;
    SampleAt(s, lanes, n, k);
    var bytes := s[k * w .. k * w + w];
    assert IsBytes(bytes);
    AssembleBound(bytes, lanes, m);
  }

  /** Sample `k` over lanes below `m` that avoid every lane whose bit in
      `mask` is set: below 2^(8 * m), zero in each avoided lane, and
      holding the stream's bytes in its own lanes. */
  lemma LaneBytes(s: seq<int>, lanes: seq<nat>, n: nat, k: nat, mask: int, m: nat)
    requires IsBytes(s) && Ascending(lanes) && n * |lanes| <= |s| && k < n
    requires forall j :: 0 <= j < |lanes| ==> lanes[j] < m
    requires forall i: nat :: Bit(mask, i) != 0 ==> i !in lanes
    ensures var v := Samples(s, lanes, n)[k];
      0 <= v < Pow2(8 * m) && (forall i: nat :: Bit(mask, i) != 0 ==> ByteLane(v, i) == 0)
    ensures 0 <= k * |lanes| && k * |lanes| + |lanes| <= |s|
    ensures forall t :: 0 <= t < |lanes| ==> ByteLane(Samples(s, lanes, n)[k], lanes[t]) == s[k * |lanes| + t]
  {
    SampleFits(s, lanes, n, k, m);
    SampleBytes(s, lanes, n, k);
    MulNat(k, |lanes|);
  }

  /** Every captured sample is below 2^(8 * max_channel_groups) and is zero
      in the byte of every disabled lane; the enabled lanes hold the bytes
      as the device sent them, lane by lane. */
  lemma CaptureBounds(channelGroups: int, maxChannelGroups: nat, readCount: int, s: seq<int>, k: nat)
    requires IsBytes(s) && CaptureOf(channelGroups, maxChannelGroups, readCount, s).Ok?
    requires k < |CaptureOf(channelGroups, maxChannelGroups, readCount, s).value|
    ensures var v := CaptureOf(channelGroups, maxChannelGroups, readCount, s).value[k];
      0 <= v < Pow2(8 * maxChannelGroups) &&
      (forall i: nat :: Bit(channelGroups, i) != 0 ==> ByteLane(v, i) == 0)
    ensures var lanes := EnabledLanes(channelGroups, maxChannelGroups);
      0 <= k * |lanes| && k * |lanes| + |lanes| <= |s| &&
      forall t :: 0 <= t < |lanes| ==>
        ByteLane(CaptureOf(channelGroups, maxChannelGroups, readCount, s).value[k], lanes[t]) == s[k * |lanes| + t]
  {
    var lanes := EnabledLanes(channelGroups, maxChannelGroups);
    CaptureOfOk(channelGroups, maxChannelGroups, readCount, s);
    LaneBytes(s, lanes, readCount, k, channelGroups, maxChannelGroups);
  }

  /** With every group's bit set no lane is enabled. */
  lemma {:induction false} NoLanes(channelGroups: int, maxChannelGroups: int)
    requires forall i: nat :: i < maxChannelGroups ==> Bit(channelGroups, i) != 0
    ensures EnabledLanes(channelGroups, maxChannelGroups) == []
    decreases if maxChannelGroups < 0 then 0 else maxChannelGroups
  {
    if maxChannelGroups > 0 {
      NoLanes(channelGroups, maxChannelGroups - 1);
    }
  }

  /** With every group disabled no byte is read and every sample is 0. */
  lemma AllDisabledCapture(channelGroups: int, maxChannelGroups: int, readCount: nat, s: seq<int>)
    requires forall i: nat :: i < maxChannelGroups ==> Bit(channelGroups, i) != 0
    ensures EnabledLanes(channelGroups, maxChannelGroups) == []
    ensures CaptureOf(channelGroups, maxChannelGroups, readCount, s) == Ok(seq(readCount, i => 0))
  {
    var lanes := EnabledLanes(channelGroups, maxChannelGroups);
    NoLanes(channelGroups, maxChannelGroups);
    var r := Samples(s, lanes, readCount);
    forall k | 0 <= k < readCount
      ensures r[k] == 0
    {
      SampleAt(s, lanes, readCount, k);
      assert k * |lanes| == 0;
      assert Assemble(s[0..0], []) == 0;
    }
    assert r == seq(readCount, i => 0);
  }

  /** The loop of `_build_unpack_functions`: one lane (unpack offset
      `8 * i`) for each of the first `maxChannelGroups` groups whose bit in
      `channelGroups` is clear, in ascending order. */
  method UnpackLanes(channelGroups: int, maxChannelGroups: int) returns (lanes: seq<nat>)
    ensures lanes == EnabledLanes(channelGroups, maxChannelGroups)
  {
    lanes := [];
    var i := 0;
    while i < maxChannelGroups
      invariant 0 <= i <= (if maxChannelGroups < 0 then 0 else maxChannelGroups)
      invariant lanes == EnabledLanes(channelGroups, i)
    {
      if Bit(channelGroups, i) == 0 {
        lanes := lanes + [i];
      }
      i := i + 1;
    }
  }

  /** `RS232Sump`: the port, the settings and the hash of the settings
      last sent (`None` until the first send). */
  class RS232Sump {
    const port: Port
    const settings: Sump2Settings.Settings
    var settingsHash: Option<seq<int>>

    /** `RS232Sump(port, baud, timeout, settings)` once connected: the
        settings built from the caller's record with default triggers,
        nothing sent yet. */
    constructor (port: Port, settings: Sump2Settings.Record)
      ensures this.port == port && settingsHash == None
      ensures fresh(this.settings) && fresh(this.settings.triggers)
      ensures var s := Sump2Settings.DEFAULT_SETTINGS + settings;
        this.settings.divider == s["divider"] && this.settings.readCount == s["read_count"] &&
        this.settings.delayCount == s["delay_count"] && this.settings.demux == s["demux"] &&
        this.settings.filter == s["filter"] && this.settings.channelGroups == s["channel_groups"] &&
        this.settings.external == s["external"] && this.settings.inverted == s["inverted"] &&
        this.settings.maxChannelGroups == s["max_channel_groups"]
      ensures this.settings.triggers.nStages == Sump2Settings.StageCount(Sump2Settings.NoTriggers, 4)
      ensures this.settings.triggers.triggerType == Sump2Settings.BuiltType(Sump2Settings.NoTriggers)
      ensures this.settings.triggers.stages == Sump2Settings.SimpleStages(map[], 4)
    {
      this.port := port;
      this.settings := new Sump2Settings.Settings(settings, Sump2Settings.Build(Sump2Settings.NoTriggers));
      settingsHash := None;
    }

    /** `reset(hard)`: five `0x00` bytes, or one. */
    method Reset(hard: bool)
      modifies port`output
      ensures port.output == old(port.output) + (if hard then HARD_RESET else [0])
    {
      if hard {
        port.Write(HARD_RESET);
      } else {
        port.Write([0]);
      }
    }

    /** `send_settings`: a hard reset, then `pack()` twice, once for the
        hash and once for the bytes written. Since packing again packs the
        rounded counts to the same bytes, the hash is what was written. An
        exception from `pack` leaves the hash as it was. */
    method SendSettings() returns (r: Result<seq<int>>)
      modifies port`output, settings`readCount, settings`delayCount, this`settingsHash
      ensures r == old(settings.PackResult()) && settings.PackResult() == r
      ensures settings.PackReachesCount() == old(settings.PackReachesCount())
      ensures r.Ok? ==> port.output == old(port.output) + HARD_RESET + r.value && settingsHash == Some(r.value)
      ensures r.Ok? ==> settings.PackResult() == Ok(settingsHash.value)
      ensures r.Err? ==> port.output == old(port.output) + HARD_RESET && settingsHash == old(settingsHash)
      ensures old(settings.PackReachesCount()) ==>
        settings.readCount == Sump2Settings.RoundDown(old(settings.readCount)) &&
        settings.delayCount == Sump2Settings.RoundDown(old(settings.delayCount))
      ensures !old(settings.PackReachesCount()) ==>
        settings.readCount == old(settings.readCount) && settings.delayCount == old(settings.delayCount)
    {
      Reset(true);
      var h := settings.Pack();
      if h.Err? {
        return h;
      }
      var b := settings.Pack();
      Sump2Settings.CountPackIdempotent(old(settings.readCount), old(settings.delayCount));
      port.Write(b.value);
      settingsHash := Some(h.value);
      r := h;
    }

    /** `_check_settings_hash`: false with no hash, without packing;
        otherwise whether `pack()` gives the stored hash. */
    method CheckSettingsHash() returns (r: Result<bool>)
      modifies settings`readCount, settings`delayCount
      ensures settings.PackResult() == old(settings.PackResult())
      ensures settings.PackReachesCount() == old(settings.PackReachesCount())
      ensures settingsHash.None? ==> r == Ok(false)
      ensures settingsHash.None? ==> settings.readCount == old(settings.readCount)
      ensures settingsHash.None? ==> settings.delayCount == old(settings.delayCount)
      ensures settingsHash.Some? && old(settings.PackResult()).Err? ==> r == Err(old(settings.PackResult()).error)
      ensures settingsHash.Some? && old(settings.PackResult()).Ok? ==>
        r == Ok(old(settings.PackResult()).value == settingsHash.value)
      ensures settingsHash.Some? && old(settings.PackReachesCount()) ==>
        settings.readCount == Sump2Settings.RoundDown(old(settings.readCount)) &&
        settings.delayCount == Sump2Settings.RoundDown(old(settings.delayCount))
      ensures settingsHash.Some? && !old(settings.PackReachesCount()) ==>
        settings.readCount == old(settings.readCount) && settings.delayCount == old(settings.delayCount)
    {
      if settingsHash.None? {
        return Ok(false);
      }
      var h := settings.Pack();
      if h.Err? {
        return Err(h.error);
      }
      if h.value != settingsHash.value {
        return Ok(false);
      }
      return Ok(true);
    }

    /** `id_string`: `0x02`, then the four bytes read, reversed. */
    method IdString() returns (r: seq<int>)
      requires port.Valid()
      modifies port`output, port`pos
      ensures port.Valid()
      ensures port.output == old(port.output) + [0x02]
      ensures r == Reverse(old(port.Remaining())[..Min(4, |old(port.Remaining())|)])
      ensures port.pos == old(port.pos) + |r|
    {
      port.Write([0x02]);
      var b := port.Read(4);
      r := Reverse(b);
    }

    method Xon()
      modifies port`output
      ensures port.output == old(port.output) + [0x11]
    {
      port.Write([0x11]);
    }

    method Xoff()
      modifies port`output
      ensures port.output == old(port.output) + [0x13]
    {
      port.Write([0x13]);
    }

    /** `_build_unpack_functions` on this object's settings. */
    method BuildUnpackFunctions() returns (lanes: seq<nat>)
      ensures lanes == EnabledLanes(settings.channelGroups, settings.maxChannelGroups)
    {
      lanes := UnpackLanes(settings.channelGroups, settings.maxChannelGroups);
    }

    /** The read loop of `capture`: `d[i] = v` for each of the `n` samples
        into a new array; at end of stream `ord('')` raises TypeError. */
    method ReadInto(n: nat, lanes: seq<nat>) returns (r: Result<array<int>>)
      requires port.Valid() && Ascending(lanes)
      modifies port`pos
      ensures port.Valid()
      ensures n * |lanes| <= |old(port.Remaining())| ==>
        r.Ok? && fresh(r.value) && r.value[..] == Samples(old(port.Remaining()), lanes, n) &&
        port.pos == old(port.pos) + n * |lanes|
      ensures n * |lanes| > |old(port.Remaining())| ==> r == Err(TypeError) && port.pos == |port.input|
    {
      ghost var w := |lanes|;
      ghost var s0 := port.Remaining();
      ghost var p0 := port.pos;
      var d := new int[n];
      ghost var used: nat := 0;
      var i := 0;
      while i < n
        invariant port.Valid() && port.input == old(port.input)
        invariant i <= n && used == i * w && used <= |s0| && port.pos == p0 + used
        invariant d[..i] == Samples(s0, lanes, i)
      {
        DropDrop(port.input, p0, used);
        var v := ReadSample(port, lanes);
        if v.Err? {
          ShortStream(w, i, n, |s0|);
          return Err(TypeError);
        }
        SamplesNext(s0, lanes, i);
        d[i] := v.value;
        assert d[..i + 1] == d[..i] + [v.value];
        used := used + w;
        i := i + 1;
      }
      assert d[..] == d[..n];
      return Ok(d);
    }

    /** The first part of `capture`: resend the settings unless the
        stored hash matches what `pack()` gives now. Packing succeeds on
        every path that gets past it, so `read_count` is then a multiple of
        4 and at least 4. */
    method Prepare() returns (r: Result<seq<int>>)
      modifies port`output, settings`readCount, settings`delayCount, this`settingsHash
      ensures r == old(settings.PackResult()) && settings.PackResult() == r
      ensures r.Err? ==> settingsHash == old(settingsHash)
      ensures r.Err? ==> port.output == old(port.output) + (if old(settingsHash).None? then HARD_RESET else [])
      ensures r.Ok? ==> settingsHash == Some(r.value) && settings.readCount % 4 == 0 && settings.readCount >= 4
      ensures r.Ok? ==> port.output == old(port.output) + (if old(settingsHash) == Some(r.value) then [] else HARD_RESET + r.value)
      ensures old(settings.PackReachesCount()) ==>
        settings.readCount == Sump2Settings.RoundDown(old(settings.readCount)) &&
        settings.delayCount == Sump2Settings.RoundDown(old(settings.delayCount))
      ensures !old(settings.PackReachesCount()) ==>
        settings.readCount == old(settings.readCount) && settings.delayCount == old(settings.delayCount)
    {
      ghost var p := settings.PackResult();
      if p.Ok? {
        settings.PackOkReaches();
      }
      Sump2Settings.RoundDownFacts(settings.readCount);
      Sump2Settings.RoundDownFacts(settings.delayCount);
      var same := CheckSettingsHash();
      if same.Err? {
        return Err(same.error);
      }
      if !same.value {
        r := SendSettings();
        if r.Err? {
          return;
        }
      } else {
        r := settings.PackResult();
      }
      settings.PackOkReaches();
    }

    /** `capture`: the settings on the device, then `0x01` and
        `read_count` samples read from what the device sends. */
    method Capture() returns (r: Result<array<int>>)
      requires port.Valid()
      modifies port`output, port`pos, settings`readCount, settings`delayCount, this`settingsHash
      ensures port.Valid()
      ensures settings.PackResult() == old(settings.PackResult())
      ensures old(settings.PackResult()).Err? ==> r == Err(old(settings.PackResult()).error)
      ensures old(settings.PackResult()).Err? ==> port.pos == old(port.pos) && settingsHash == old(settingsHash)
      ensures old(settings.PackResult()).Err? ==>
        port.output == old(port.output) + (if old(settingsHash).None? then HARD_RESET else [])
      ensures old(settings.PackResult()).Ok? ==> settingsHash == Some(old(settings.PackResult()).value)
      ensures old(settings.PackResult()).Ok? ==> settings.readCount % 4 == 0 && settings.readCount >= 4
      ensures old(settings.PackResult()).Ok? ==>
        var sent := if old(settingsHash) == Some(old(settings.PackResult()).value) then []
                    else HARD_RESET + old(settings.PackResult()).value;
        var start := if StartsCapture(settings.channelGroups, settings.maxChannelGroups, settings.readCount) then [0x01] else [];
        port.output == old(port.output) + sent + start
      ensures old(settings.PackResult()).Ok? ==>
        var c := CaptureOf(settings.channelGroups, settings.maxChannelGroups, settings.readCount, old(port.Remaining()));
        (r.Ok? <==> c.Ok?) && (r.Ok? ==> fresh(r.value) && r.value[..] == c.value) &&
        (r.Err? ==> r.error == c.error)
      ensures old(settings.PackResult()).Ok? && r.Ok? ==>
        port.pos == old(port.pos) + settings.readCount * |EnabledLanes(settings.channelGroups, settings.maxChannelGroups)|
      ensures old(settings.PackResult()).Ok? && r == Err(TypeError) ==> port.pos == |port.input|
      ensures old(settings.PackResult()).Ok? && r.Err? && r.error != TypeError ==> port.pos == old(port.pos)
      ensures old(settings.PackReachesCount()) ==>
        settings.readCount == Sump2Settings.RoundDown(old(settings.readCount)) &&
        settings.delayCount == Sump2Settings.RoundDown(old(settings.delayCount))
      ensures !old(settings.PackReachesCount()) ==>
        settings.readCount == old(settings.readCount) && settings.delayCount == old(settings.delayCount)
    {
      var p := Prepare();
      if p.Err? {
        return Err(p.error);
      }
      r := Start();
    }

    /** The part of `capture` after the settings are on the device. */
    method Start() returns (r: Result<array<int>>)
      requires port.Valid()
      modifies port`output, port`pos
      ensures port.Valid()
      ensures port.output == old(port.output) +
        (if StartsCapture(settings.channelGroups, settings.maxChannelGroups, settings.readCount) then [0x01] else [])
      ensures var c := CaptureOf(settings.channelGroups, settings.maxChannelGroups, settings.readCount, old(port.Remaining()));
        (r.Ok? <==> c.Ok?) && (r.Ok? ==> fresh(r.value) && r.value[..] == c.value) &&
        (r.Err? ==> r.error == c.error)
      ensures r.Ok? ==>
        port.pos == old(port.pos) + settings.readCount * |EnabledLanes(settings.channelGroups, settings.maxChannelGroups)|
      ensures r == Err(TypeError) ==> port.pos == |port.input|
      ensures r.Err? && r.error != TypeError ==> port.pos == old(port.pos)
    {
      var lanes := BuildUnpackFunctions();
      var n := settings.readCount;
      if |lanes| >= 6 {
        return Err(IndexError);
      }
      if n < 0 {
        return Err(ValueError);
      }
      port.Write([0x01]);
      r := ReadInto(n, lanes);
    }
  }
}
