/** sump/sump.py: the two classes, `SumpDeviceSettings` with its mutable
    attributes and `SumpInterface` writing to and reading from a port. The
    messages they exchange are specified in module SumpDevice. */
module SumpClient {
  import opened Common
  import opened Wire
  import opened Lanes
  import opened SumpOps
  import opened MetadataTokens
  import opened SumpDevice

  /** `SumpDeviceSettings`: every attribute is a field; the per-stage lists
      are sequences that `copy` overwrites whole. */
  class Settings {
    var timeout: Timeout
    var latestFirst: bool
    var divider: int
    var readCount: int
    var delayCount: int
    var external: bool
    var inverted: bool
    var filter: bool
    var demux: bool
    var channelGroups: int
    var triggerEnable: string
    var triggerMask: seq<int>
    var triggerValues: seq<int>
    var triggerDelay: seq<int>
    var triggerDelayUnit: seq<int>
    var triggerLevel: seq<int>
    var triggerChannel: seq<int>
    var triggerSerial: seq<bool>
    var triggerStart: seq<bool>

    /** The attributes as one value. */
    function Value(): DeviceSettings
      reads this
    {
      DeviceSettings(timeout, latestFirst, divider, readCount, delayCount, external, inverted,
        filter, demux, channelGroups, triggerEnable, triggerMask, triggerValues, triggerDelay,
        triggerDelayUnit, triggerLevel, triggerChannel, triggerSerial, triggerStart)
    }

    /** `__init__` calls `default()`. */
    constructor ()
      ensures Value() == DEFAULT_SETTINGS
    {
      timeout, latestFirst, divider, readCount, delayCount := Unbounded, true, 2, 4096, 2048;
      external, inverted, filter, demux, channelGroups := false, false, false, false, 0;
      triggerEnable := "None";
      triggerMask, triggerValues, triggerDelay, triggerDelayUnit := [0, 0, 0, 0], [0, 0, 0, 0], [0, 0, 0, 0], [0, 0, 0, 0];
      triggerLevel, triggerChannel := [0, 0, 0, 0], [0, 0, 0, 0];
      triggerSerial, triggerStart := [false, false, false, false], [true, false, false, false];
    }

    /** `default()`: back to the non-impossible defaults. */
    method Default()
      modifies this
      ensures Value() == DEFAULT_SETTINGS
    {
      Assign(DEFAULT_SETTINGS);
    }

    /** Every attribute set from `v`, a third at a time. */
    method Assign(v: DeviceSettings)
      modifies this
      ensures Value() == v
    {
      AssignGeneral(v);
      AssignFlags(v);
      AssignStages(v);
    }

    method AssignGeneral(v: DeviceSettings)
      modifies this`timeout, this`latestFirst, this`divider, this`readCount, this`delayCount, this`external
      ensures timeout == v.timeout && latestFirst == v.latestFirst && divider == v.divider
      ensures readCount == v.readCount && delayCount == v.delayCount && external == v.external
    {
      timeout, latestFirst, divider, readCount, delayCount, external :=
        v.timeout, v.latestFirst, v.divider, v.readCount, v.delayCount, v.external;
    }

    method AssignFlags(v: DeviceSettings)
      modifies this`inverted, this`filter, this`demux, this`channelGroups, this`triggerEnable,
        this`triggerMask, this`triggerValues
      ensures inverted == v.inverted && filter == v.filter && demux == v.demux
      ensures channelGroups == v.channelGroups && triggerEnable == v.triggerEnable
      ensures triggerMask == v.triggerMask && triggerValues == v.triggerValues
    {
      inverted, filter, demux, channelGroups, triggerEnable, triggerMask, triggerValues :=
        v.inverted, v.filter, v.demux, v.channelGroups, v.triggerEnable, v.triggerMask, v.triggerValues;
    }

    method AssignStages(v: DeviceSettings)
      modifies this`triggerDelay, this`triggerDelayUnit, this`triggerLevel, this`triggerChannel,
        this`triggerSerial, this`triggerStart
      ensures triggerDelay == v.triggerDelay && triggerDelayUnit == v.triggerDelayUnit
      ensures triggerLevel == v.triggerLevel && triggerChannel == v.triggerChannel
      ensures triggerSerial == v.triggerSerial && triggerStart == v.triggerStart
    {
      triggerDelay, triggerDelayUnit, triggerLevel, triggerChannel, triggerSerial, triggerStart :=
        v.triggerDelay, v.triggerDelayUnit, v.triggerLevel, v.triggerChannel, v.triggerSerial, v.triggerStart;
    }

    /** `copy(other)`: every sampling and trigger attribute goes over;
        `timeout` and `latest_first` stay as they were in `other`. */
    method CopyTo(other: Settings)
      modifies other
      ensures other.Value() == CopyOf(old(Value()), old(other.Value()))
    {
      other.Assign(CopyOf(Value(), other.Value()));
    }

    /** `clone()`: a fresh instance with these settings, except `timeout`
        and `latest_first`, which keep their defaults. */
    method Clone() returns (o: Settings)
      ensures fresh(o) && o.Value() == CopyOf(Value(), DEFAULT_SETTINGS)
    {
      o := new Settings();
      CopyTo(o);
    }

    /** `get_sample_rate()`: the undivided 100 MHz clock over the divider,
        doubled with demux; a zero divider raises ZeroDivisionError. */
    function SampleRate(): (r: Result<int>)
      reads this
      ensures r.Err? <==> divider == 0
      ensures divider > 0 && !demux ==> r.value * divider <= CLOCK_RATE < (r.value + 1) * divider
      ensures divider > 0 && demux ==> r.value % 2 == 0 && (r.value / 2) * divider <= CLOCK_RATE < (r.value / 2 + 1) * divider
    {
      SampleRateOf(CLOCK_RATE, divider, demux)
    }
  }

  /** `data_sequence`: with `latest_first` the readings arrive most recent
      first, so the `k`-th one read goes to slot `n - 1 - k`. */
  function Slot(k: int, n: int, latestFirst: bool): int
  {
    if latestFirst then n - 1 - k else k
  }

  /** The capture array: the samples as read, reversed with `latest_first`. */
  function Ordered(samples: seq<int>, latestFirst: bool): (r: seq<int>)
    ensures |r| == |samples|
    ensures forall k :: 0 <= k < |samples| ==> r[Slot(k, |samples|, latestFirst)] == samples[k]
  {
    if latestFirst then Reverse(samples) else samples
  }

  /** The lanes `capture` reads: lane `i` of 0-3 unless bit `i` of
      `channel_groups` is set. */
  function CaptureLanes(channelGroups: int): seq<nat>
  {
    EnabledLanes(channelGroups, 4)
  }

  /** The reading loop of `capture`: sample `k` goes to slot
      `Slot(k, n, latestFirst)` of a fresh array of `n` zeros. */
  method ReadSamples(port: Port, n: nat, lanes: seq<nat>, latestFirst: bool) returns (r: Result<array<int>>)
    requires port.Valid() && Ascending(lanes)
    modifies port`pos
    ensures port.Valid()
    ensures n * |lanes| <= |old(port.Remaining())| ==>
      r.Ok? && fresh(r.value) && r.value[..] == Ordered(Samples(old(port.Remaining()), lanes, n), latestFirst) &&
      port.pos == old(port.pos) + n * |lanes|
    ensures n * |lanes| > |old(port.Remaining())| ==> r == Err(TypeError) && port.pos == |port.input|
  {
    ghost var w := |lanes|;
    ghost var s0 := port.Remaining();
    ghost var p0 := port.pos;
    var d := new int[n](_ => 0);
    ghost var got: seq<int> := [];
    ghost var used: nat := 0;
    var k := 0;
    while k < n
      invariant port.Valid() && port.input == old(port.input)
      invariant k <= n && used == k * w && used <= |s0| && port.pos == p0 + used
      invariant got == Samples(s0, lanes, k)
      invariant forall j :: 0 <= j < k ==> d[Slot(j, n, latestFirst)] == got[j]
    {
      DropDrop(port.input, p0, used);
      var v := ReadSample(port, lanes);
      if v.Err? {
        ShortStream(w, k, n, |s0|);
        return Err(TypeError);
      }
      SamplesNext(s0, lanes, k);
      var slot := Slot(k, n, latestFirst);
      assert forall j :: 0 <= j < k ==> Slot(j, n, latestFirst) != slot;
      d[slot] := v.value;
      got := got + [v.value];
      used := used + w;
      k := k + 1;
    }
    ghost var ord := Ordered(got, latestFirst);
    assert |got| == n;
    forall i | 0 <= i < n
      ensures d[i] == ord[i]
    {
      var j := Slot(i, n, latestFirst);
      assert 0 <= j < n && Slot(j, n, latestFirst) == i;
      assert d[Slot(j, n, latestFirst)] == got[j];
      assert ord[Slot(j, |got|, latestFirst)] == got[j];
    }
    assert d[..] == ord;
    return Ok(d);
  }

  /** `SumpInterface` over a port. */
  class Interface {
    const port: Port
    var timeout: Timeout
    var metadata: Result<seq<Token>>

    /** `__init__`: the port opened with `timeout`, then a reset and a
        metadata query whose result is kept. A failed query is kept as an
        `Err` value, where `__init__` lets the exception escape. */
    constructor (port: Port, timeout: Timeout)
      requires port.Valid()
      modifies port
      ensures this.port == port && this.timeout == timeout
      ensures port.Valid() && port.input == old(port.input) && port.timeout == timeout
      ensures port.output == old(port.output) + [0, 0, 0, 0, 0] + [0, 0, 0, 0, 0, 4]
      ensures metadata == Tokens(old(port.Remaining())).result
      ensures port.pos == old(port.pos) + Tokens(old(port.Remaining())).used
    {
      this.port := port;
      this.timeout := timeout;
      this.metadata := Ok([]);
      new;
      port.timeout := timeout;
      Reset();
      metadata := QueryMetadata();
    }

    /** `reset()`: five zero bytes. */
    method Reset()
      modifies port`output
      ensures port.output == old(port.output) + [0, 0, 0, 0, 0]
    {
      port.Write([0]);
      port.Write([0]);
      port.Write([0]);
      port.Write([0]);
      port.Write([0]);
    }

    /** `w(chr(v))` for each of `vals` in turn, stopping at the first `chr`
        that raises. */
    method WriteChrs(vals: seq<int>) returns (err: Option<Error>)
      modifies port`output
      ensures port.output == old(port.output) + Chrs(vals).bytes
      ensures err == Chrs(vals).err
    {
      var i := 0;
      while i < |vals|
        invariant i <= |vals| && IsBytes(vals[..i])
        invariant port.output == old(port.output) + vals[..i]
      {
        if !IsByte(vals[i]) {
          ChrsStopsAt(vals, i);
          return Some(ValueError);
        }
        port.Write([vals[i]]);
        assert vals[..i + 1] == vals[..i] + [vals[i]];
        i := i + 1;
      }
      assert vals[..i] == vals;
      return None;
    }

    /** `id_string()`: the four reply bytes in reverse (the device sends
        the ID least significant byte first). */
    method IdString() returns (r: seq<int>)
      requires port.Valid()
      modifies port`output, port`pos
      ensures port.Valid()
      ensures port.output == old(port.output) + [0x02]
      ensures r == Reverse(old(port.Remaining())[..Min(4, |old(port.Remaining())|)])
      ensures port.pos == old(port.pos) + |r|
    {
      port.Write([0x02]);
      var v := port.Read(4);
      r := Reverse(v);
    }

    method Xon()
      modifies port`output
      ensures port.output == old(port.output) + [0x11]
    {
      port.Write([0x11]);
    }

    method Xoff()
      modifies port`output
      ensures port.output == old(port.output) + [0x13]
    {
      port.Write([0x13]);
    }

    /** `query_metadata()`: a reset, then `0x04` under a 2-second timeout,
        then tokens up to the end marker or the end of the stream; the
        port's timeout is restored whatever happens. */
    method QueryMetadata() returns (r: Result<seq<Token>>)
      requires port.Valid()
      modifies port`output, port`pos, port`timeout
      ensures port.Valid() && port.timeout == old(port.timeout)
      ensures port.output == old(port.output) + [0, 0, 0, 0, 0] + [0x04]
      ensures r == Tokens(old(port.Remaining())).result
      ensures port.pos == old(port.pos) + Tokens(old(port.Remaining())).used
    {
      Reset();
      var saved := port.timeout;
      port.timeout := Seconds(2);
      port.Write([0x04]);
      r := ReadTokens(port);
      port.timeout := saved;
    }

    /** The five writes of `_send_trigger_mask` (`base` 0xC0) and
        `_send_trigger_values` (`base` 0xC1): `chr` of the opcode, then the
        four masked word bytes, low byte first. */
    method SendWord(base: int, stage: int, word: int) returns (err: Option<Error>)
      modifies port`output
      ensures port.output == old(port.output) + WordMsg(base, stage, word).bytes
      ensures err == WordMsg(base, stage, word).err
    {
      var op := Opcode(base, stage);
      if !IsByte(op) {
        return Some(ValueError);
      }
      port.Write([op]);
      port.Write([word % 256]);
      port.Write([(word / 256) % 256]);
      port.Write([(word / 65536) % 256]);
      port.Write([(word / 16777216) % 256]);
      return None;
    }

    /** `_send_trigger_mask(stage, mask)`. */
    method SendTriggerMask(stage: int, mask: int) returns (err: Option<Error>)
      modifies port`output
      ensures port.output == old(port.output) + MaskMsg(stage, mask).bytes
      ensures err == MaskMsg(stage, mask).err
    {
      err := SendWord(0xC0, stage, mask);
    }

    /** `_send_trigger_values(stage, values)`. */
    method SendTriggerValues(stage: int, values: int) returns (err: Option<Error>)
      modifies port`output
      ensures port.output == old(port.output) + ValuesMsg(stage, values).bytes
      ensures err == ValuesMsg(stage, values).err
    {
      err := SendWord(0xC1, stage, values);
    }

    /** `_send_trigger_configuration(stage, delay, channel, level, start,
        serial)`: only `chr` of the opcode and of the channel/level byte can
        raise. */
    method SendTriggerConfiguration(stage: int, delay: int, channel: int, level: int, start: bool, serial: bool)
      returns (err: Option<Error>)
      modifies port`output
      ensures port.output == old(port.output) + ConfigMsg(stage, delay, channel, level, start, serial).bytes
      ensures err == ConfigMsg(stage, delay, channel, level, start, serial).err
    {
      var op := Opcode(0xC2, stage);
      if !IsByte(op) {
        return Some(ValueError);
      }
      port.Write([op]);
      port.Write([delay % 256]);
      port.Write([(delay / 256) % 256]);
      var cl := ChannelLevelByte(channel, level);
      if !IsByte(cl) {
        return Some(ValueError);
      }
      port.Write([cl]);
      port.Write([StartSerialByte(start, serial, channel)]);
      return None;
    }

    /** One fixed stage: `_send_trigger_configuration(stage, 0, 0, 0,
        start, False)`, `_send_trigger_mask(stage, 0)` and
        `_send_trigger_values(stage, 0)`, none of which can raise. */
    method SendFixedStage(start: bool, stage: nat)
      requires stage < MAX_TRIGGER_STAGES
      modifies port`output
      ensures port.output == old(port.output) + FixedStages(start)(stage).bytes
      ensures FixedStages(start)(stage).err.None?
    {
      ConfigZero(stage, start);
      WordZero(0xC0, stage);
      WordZero(0xC1, stage);
      ghost var o := port.output;
      ghost var c, m, v := ConfigMsg(stage, 0, 0, 0, start, false).bytes, MaskMsg(stage, 0).bytes, ValuesMsg(stage, 0).bytes;
      var e := SendTriggerConfiguration(stage, 0, 0, 0, start, false);
      e := SendTriggerMask(stage, 0);
      e := SendTriggerValues(stage, 0);
      AppendAssoc(o + c, m, v);
      AppendAssoc(o, c, m + v);
    }

    /** `_send_trigger_configuration` as the `'None'` and `'Simple'`
        branches call it for their fixed stages `lo .. 3`, each followed
        by a zero mask and zero values. */
    method SendFixedStages(start: bool, lo: nat)
      requires lo <= MAX_TRIGGER_STAGES
      modifies port`output
      ensures port.output == old(port.output) + Range(FixedStages(start), lo, MAX_TRIGGER_STAGES).bytes
      ensures Range(FixedStages(start), lo, MAX_TRIGGER_STAGES).err.None?
    {
      ghost var f := FixedStages(start);
      var stage := lo;
      assert Range(f, lo, lo) == Done([]);
      while stage < MAX_TRIGGER_STAGES
        invariant lo <= stage <= MAX_TRIGGER_STAGES
        invariant Range(f, lo, stage).err.None?
        invariant port.output == old(port.output) + Range(f, lo, stage).bytes
      {
        ghost var r := Range(f, lo, stage);
        RangeNext(f, lo, stage, MAX_TRIGGER_STAGES);
        SendFixedStage(start, stage);
        AppendAssoc(old(port.output), r.bytes, f(stage).bytes);
        stage := stage + 1;
      }
    }

    /** `send_trigger_mask_settings`: `trigger_mask[stage]` for every stage. */
    method SendTriggerMaskSettings(s: DeviceSettings) returns (err: Option<Error>)
      modifies port`output
      ensures port.output == old(port.output) + MaskBlock(s).bytes
      ensures err == MaskBlock(s).err
    {
      var mask := s.triggerMask;
      ghost var f := MaskStages(mask);
      var stage := 0;
      while stage < MAX_TRIGGER_STAGES
        invariant stage <= MAX_TRIGGER_STAGES && Range(f, 0, stage).err.None?
        invariant port.output == old(port.output) + Range(f, 0, stage).bytes
      {
        RangeNext(f, 0, stage, MAX_TRIGGER_STAGES);
        if stage >= |mask| {
          return Some(IndexError);
        }
        err := SendWord(0xC0, stage, mask[stage]);
        AppendAssoc(old(port.output), Range(f, 0, stage).bytes, f(stage).bytes);
        if err.Some? {
          return;
        }
        stage := stage + 1;
      }
      return None;
    }

    /** `send_trigger_values_settings`: `trigger_values[stage]` for every
        stage. */
    method SendTriggerValuesSettings(s: DeviceSettings) returns (err: Option<Error>)
      modifies port`output
      ensures port.output == old(port.output) + ValuesBlock(s).bytes
      ensures err == ValuesBlock(s).err
    {
      var values := s.triggerValues;
      ghost var f := ValuesStages(values);
      var stage := 0;
      while stage < MAX_TRIGGER_STAGES
        invariant stage <= MAX_TRIGGER_STAGES && Range(f, 0, stage).err.None?
        invariant port.output == old(port.output) + Range(f, 0, stage).bytes
      {
        RangeNext(f, 0, stage, MAX_TRIGGER_STAGES);
        if stage >= |values| {
          return Some(IndexError);
        }
        err := SendWord(0xC1, stage, values[stage]);
        AppendAssoc(old(port.output), Range(f, 0, stage).bytes, f(stage).bytes);
        if err.Some? {
          return;
        }
        stage := stage + 1;
      }
      return None;
    }

    /** One stage of `send_trigger_configuration_settings`: each list entry
        is looked up just before the byte that needs it. */
    method SendConfigStage(delay: seq<int>, channel: seq<int>, level: seq<int>, start: seq<bool>, serial: seq<bool>,
                           stage: nat) returns (err: Option<Error>)
      modifies port`output
      ensures port.output == old(port.output) + ConfigStage(delay, channel, level, start, serial, stage).bytes
      ensures err == ConfigStage(delay, channel, level, start, serial, stage).err
    {
      var op := Opcode(0xC2, stage);
      if !IsByte(op) {
        return Some(ValueError);
      }
      port.Write([op]);
      if stage >= |delay| {
        return Some(IndexError);
      }
      var d := delay[stage];
      port.Write([d % 256]);
      port.Write([(d / 256) % 256]);
      if stage >= |channel| || stage >= |level| {
        return Some(IndexError);
      }
      var c := channel[stage];
      var cl := ChannelLevelByte(c, level[stage]);
      if !IsByte(cl) {
        return Some(ValueError);
      }
      port.Write([cl]);
      if stage >= |start| || stage >= |serial| {
        return Some(IndexError);
      }
      port.Write([StartSerialByte(start[stage], serial[stage], c)]);
      return None;
    }

    /** `send_trigger_configuration_settings`. */
    method SendTriggerConfigurationSettings(s: DeviceSettings) returns (err: Option<Error>)
      modifies port`output
      ensures port.output == old(port.output) + ConfigBlock(s).bytes
      ensures err == ConfigBlock(s).err
    {
      err := SendConfigStages(s.triggerDelay, s.triggerChannel, s.triggerLevel, s.triggerStart, s.triggerSerial);
    }

    /** The loop of `send_trigger_configuration_settings` over the five
        per-stage lists. */
    method SendConfigStages(delay: seq<int>, channel: seq<int>, level: seq<int>, start: seq<bool>, serial: seq<bool>)
      returns (err: Option<Error>)
      modifies port`output
      ensures port.output == old(port.output) + Range(ConfigStages(delay, channel, level, start, serial), 0, MAX_TRIGGER_STAGES).bytes
      ensures err == Range(ConfigStages(delay, channel, level, start, serial), 0, MAX_TRIGGER_STAGES).err
    {
      ghost var f := ConfigStages(delay, channel, level, start, serial);
      var stage := 0;
      while stage < MAX_TRIGGER_STAGES
        invariant stage <= MAX_TRIGGER_STAGES && Range(f, 0, stage).err.None?
        invariant port.output == old(port.output) + Range(f, 0, stage).bytes
      {
        RangeNext(f, 0, stage, MAX_TRIGGER_STAGES);
        err := SendConfigStage(delay, channel, level, start, serial, stage);
        AppendAssoc(old(port.output), Range(f, 0, stage).bytes, f(stage).bytes);
        if err.Some? {
          return;
        }
        stage := stage + 1;
      }
      return None;
    }

    /** `send_divider_settings`: nothing in it can raise. */
    method SendDividerSettings(s: DeviceSettings)
      modifies port`output
      ensures port.output == old(port.output) + DividerMsg(s.divider)
    {
      port.Write([0x80]);
      var d := s.divider - 1;
      port.Write([d % 256]);
      port.Write([(d / 256) % 256]);
      port.Write([(d / 65536) % 256]);
      port.Write([0]);
    }

    /** `send_read_and_delay_count_settings`: nothing in it can raise. */
    method SendReadAndDelayCountSettings(s: DeviceSettings)
      modifies port`output
      ensures port.output == old(port.output) + CountMsg(s.readCount, s.delayCount)
    {
      port.Write([0x81]);
      var r := Quarter(s.readCount);
      port.Write([r % 256]);
      port.Write([(r / 256) % 256]);
      var d := Quarter(s.delayCount);
      port.Write([d % 256]);
      port.Write([(d / 256) % 256]);
    }

    /** `send_flags_settings`: `chr` of the flags byte raises ValueError
        when it is not a byte. */
    method SendFlagsSettings(s: DeviceSettings) returns (err: Option<Error>)
      modifies port`output
      ensures port.output == old(port.output) + FlagsMsg(s.inverted, s.external, s.channelGroups, s.filter, s.demux).bytes
      ensures err == FlagsMsg(s.inverted, s.external, s.channelGroups, s.filter, s.demux).err
    {
      ghost var o := port.output;
      ghost var m := FlagsMsg(s.inverted, s.external, s.channelGroups, s.filter, s.demux);
      port.Write([0x82]);
      var f := FlagsByte(s.inverted, s.external, s.channelGroups, s.filter, s.demux);
      if !IsByte(f) {
        assert m == Emission([0x82], Some(ValueError));
        return Some(ValueError);
      }
      assert m == Done([0x82, f, 0, 0, 0]);
      port.Write([f]);
      assert port.output == o + [0x82, f];
      port.Write([0]);
      port.Write([0]);
      assert port.output == o + [0x82, f, 0, 0];
      port.Write([0]);
      assert port.output == o + [0x82, f, 0, 0, 0];
      return None;
    }

    /** The `'Simple'` branch of `send_settings`: stage 0 from the
        settings, then the fixed stages 1-3. */
    method SendSimpleTriggers(s: DeviceSettings) returns (err: Option<Error>)
      modifies port`output
      ensures port.output == old(port.output) + SimpleBlock(s).bytes
      ensures err == SimpleBlock(s).err
    {
      if |s.triggerDelay| == 0 || |s.triggerChannel| == 0 || |s.triggerSerial| == 0 {
        return Some(IndexError);
      }
      ghost var o := port.output;
      ghost var c := ConfigMsg(0, s.triggerDelay[0], s.triggerChannel[0], 0, true, s.triggerSerial[0]);
      ghost var t := Then(MaskStage(s.triggerMask, 0), Then(ValuesStage(s.triggerValues, 0), Range(FixedStages(false), 1, MAX_TRIGGER_STAGES)));
      assert SimpleBlock(s) == Then(c, t);
      err := SendTriggerConfiguration(0, s.triggerDelay[0], s.triggerChannel[0], 0, true, s.triggerSerial[0]);
      if err.Some? {
        return;
      }
      err := SendSimpleMask(s);
      AppendAssoc(o, c.bytes, t.bytes);
    }

    /** The `'Simple'` branch after stage 0's configuration: `trigger_mask[0]`
        is looked up only now. */
    method SendSimpleMask(s: DeviceSettings) returns (err: Option<Error>)
      modifies port`output
      ensures var e := Then(MaskStage(s.triggerMask, 0), Then(ValuesStage(s.triggerValues, 0), Range(FixedStages(false), 1, MAX_TRIGGER_STAGES)));
        port.output == old(port.output) + e.bytes && err == e.err
    {
      if |s.triggerMask| == 0 {
        return Some(IndexError);
      }
      ghost var o := port.output;
      ghost var m := MaskStage(s.triggerMask, 0);
      ghost var t := Then(ValuesStage(s.triggerValues, 0), Range(FixedStages(false), 1, MAX_TRIGGER_STAGES));
      err := SendTriggerMask(0, s.triggerMask[0]);
      if err.Some? {
        return;
      }
      err := SendSimpleValues(s);
      AppendAssoc(o, m.bytes, t.bytes);
    }

    /** The `'Simple'` branch from `trigger_values[0]` on. */
    method SendSimpleValues(s: DeviceSettings) returns (err: Option<Error>)
      modifies port`output
      ensures var e := Then(ValuesStage(s.triggerValues, 0), Range(FixedStages(false), 1, MAX_TRIGGER_STAGES));
        port.output == old(port.output) + e.bytes && err == e.err
    {
      if |s.triggerValues| == 0 {
        return Some(IndexError);
      }
      ghost var o := port.output;
      ghost var v := ValuesStage(s.triggerValues, 0);
      ghost var r := Range(FixedStages(false), 1, MAX_TRIGGER_STAGES);
      err := SendTriggerValues(0, s.triggerValues[0]);
      if err.Some? {
        return;
      }
      SendFixedStages(false, 1);
      AppendAssoc(o, v.bytes, r.bytes);
      err := None;
    }

    /** The `'Complex'` branch of `send_settings`: every configuration,
        then every mask, then every value, stopping at the first raise. */
    method SendComplexTriggers(s: DeviceSettings) returns (err: Option<Error>)
      modifies port`output
      ensures port.output == old(port.output) + Then(ConfigBlock(s), Then(MaskBlock(s), ValuesBlock(s))).bytes
      ensures err == Then(ConfigBlock(s), Then(MaskBlock(s), ValuesBlock(s))).err
    {
      ghost var o := port.output;
      ghost var c, m, v := ConfigBlock(s).bytes, MaskBlock(s).bytes, ValuesBlock(s).bytes;
      err := SendTriggerConfigurationSettings(s);
      if err.Some? {
        return;
      }
      err := SendTriggerMaskSettings(s);
      AppendAssoc(o, c, m);
      if err.Some? {
        return;
      }
      err := SendTriggerValuesSettings(s);
      AppendAssoc(o + c, m, v);
      AppendAssoc(o, c, m + v);
    }

    /** The trigger part of `send_settings`, chosen by `trigger_enable`. */
    method SendTriggers(s: DeviceSettings) returns (err: Option<Error>)
      modifies port`output
      ensures port.output == old(port.output) + TriggerBlock(s).bytes
      ensures err == TriggerBlock(s).err
    {
      if s.triggerEnable == "None" {
        SendFixedStages(true, 0);
        err := None;
      } else if s.triggerEnable == "Simple" {
        err := SendSimpleTriggers(s);
      } else if s.triggerEnable == "Complex" {
        err := SendComplexTriggers(s);
      } else {
        err := Some(SumpTriggerEnableError);
      }
    }

    /** `send_settings`: divider, counts and flags, then the triggers; an
        exception ends it with whatever was written before it. */
    method SendSettings(s: DeviceSettings) returns (err: Option<Error>)
      modifies port`output
      ensures port.output == old(port.output) + SendSettingsSpec(s).bytes
      ensures err == SendSettingsSpec(s).err
    {
      ghost var o := port.output;
      ghost var d, c := DividerMsg(s.divider), CountMsg(s.readCount, s.delayCount);
      ghost var f := FlagsMsg(s.inverted, s.external, s.channelGroups, s.filter, s.demux);
      ghost var t := TriggerBlock(s);
      SendDividerSettings(s);
      SendReadAndDelayCountSettings(s);
      AppendAssoc(o, d, c);
      err := SendFlagsSettings(s);
      AppendAssoc(o, d + c, f.bytes);
      AppendAssoc(d, c, f.bytes);
      if err.Some? {
        return;
      }
      err := SendTriggers(s);
      AppendAssoc(o, d + c + f.bytes, t.bytes);
      AppendAssoc(d + c, f.bytes, t.bytes);
      AppendAssoc(d, c, f.bytes + t.bytes);
    }

    /** `capture(settings)`: `numpy.zeros` refuses a negative `read_count`
        before anything is sent; otherwise the port takes the settings'
        timeout, `0x01` starts the capture, `read_count` samples are read
        into their slots and a reset follows. A stream that ends early
        makes `ord('')` raise TypeError, with no reset. */
    method Capture(s: DeviceSettings) returns (r: Result<array<int>>)
      requires port.Valid()
      modifies port`output, port`pos, port`timeout
      ensures port.Valid()
      ensures s.readCount < 0 ==>
        r == Err(ValueError) && port.output == old(port.output) && port.pos == old(port.pos) &&
        port.timeout == old(port.timeout)
      ensures s.readCount >= 0 ==> port.timeout == s.timeout
      ensures s.readCount >= 0 && s.readCount * |CaptureLanes(s.channelGroups)| <= |old(port.Remaining())| ==>
        r.Ok? && fresh(r.value) &&
        r.value[..] == Ordered(Samples(old(port.Remaining()), CaptureLanes(s.channelGroups), s.readCount), s.latestFirst) &&
        port.pos == old(port.pos) + s.readCount * |CaptureLanes(s.channelGroups)| &&
        port.output == old(port.output) + [0x01] + [0, 0, 0, 0, 0]
      ensures s.readCount >= 0 && s.readCount * |CaptureLanes(s.channelGroups)| > |old(port.Remaining())| ==>
        r == Err(TypeError) && port.pos == |port.input| && port.output == old(port.output) + [0x01]
    {
      if s.readCount < 0 {
        return Err(ValueError);
      }
      port.timeout := s.timeout;
      port.Write([0x01]);
      r := ReadSamples(port, s.readCount, CaptureLanes(s.channelGroups), s.latestFirst);
      if r.Ok? {
        Reset();
      }
    }

  }
}
