/** sump/sump.py: the first draft. `SumpDeviceSettings` holds every sampling
    and trigger parameter; `SumpInterface` turns them into SUMP commands
    written one `chr` at a time, reads captures and reads metadata. */
module SumpDevice {
  import opened Common
  import opened Wire
  import opened Lanes
  import opened SumpOps
  import opened MetadataTokens

  const MAX_TRIGGER_STAGES: nat := 4

  /** All attributes of a `SumpDeviceSettings`. Flags are booleans, shifted
      as Python shifts `True` and `False` (1 and 0); the per-stage lists are
      indexed by stage. */
  datatype DeviceSettings = DeviceSettings(
    timeout: Timeout,
    latestFirst: bool,
    divider: int,
    readCount: int,
    delayCount: int,
    external: bool,
    inverted: bool,
    filter: bool,
    demux: bool,
    channelGroups: int,
    triggerEnable: string,
    triggerMask: seq<int>,
    triggerValues: seq<int>,
    triggerDelay: seq<int>,
    triggerDelayUnit: seq<int>,
    triggerLevel: seq<int>,
    triggerChannel: seq<int>,
    triggerSerial: seq<bool>,
    triggerStart: seq<bool>)

  /** `default()`: 50 MHz, 4096 samples with the trigger in the middle, no
      trigger, every channel group enabled; stage 0 starts immediately. */
  const DEFAULT_SETTINGS := DeviceSettings(
    Unbounded, true, 2, 4096, 2048, false, false, false, false, 0, "None",
    [0, 0, 0, 0], [0, 0, 0, 0], [0, 0, 0, 0], [0, 0, 0, 0],
    [0, 0, 0, 0], [0, 0, 0, 0], [false, false, false, false], [true, false, false, false])

  /** What `src.copy(dst)` leaves in `dst`: everything of `src` except
      `timeout` and `latest_first`, which `copy` does not touch. */
  function CopyOf(src: DeviceSettings, dst: DeviceSettings): (r: DeviceSettings)
    ensures r.timeout == dst.timeout && r.latestFirst == dst.latestFirst
    ensures r.(timeout := src.timeout, latestFirst := src.latestFirst) == src
  {
    src.(timeout := dst.timeout, latestFirst := dst.latestFirst)
  }

  // ---------------------------------------------------------------------
  // Messages

  /** `0xC0 | (stage << 2)` and its siblings for values and configuration. */
  function Opcode(base: int, stage: int): int
  {
    Or(base, Shl(stage, 2))
  }

  /** For the four stages the opcode is `base + 4 * stage`; `chr` of it
      succeeds exactly for stages `0 .. 63`. */
  lemma OpcodeOfStage(base: int, stage: int)
    requires base == 0xC0 || base == 0xC1 || base == 0xC2
    ensures 0 <= stage < 4 ==> Opcode(base, stage) == base + 4 * stage
    ensures IsByte(Opcode(base, stage)) <==> 0 <= stage < 64
  {
    var sh := Shl(stage, 2);
    OrByteRange(base, sh);
    assert Pow2(2) == 4;
    assert sh == 4 * stage;
    assert IsByte(sh) <==> 0 <= stage < 64;
    if 0 <= stage < 4 {
      OrOpcode(base, stage, 48, 12);
    }
  }

  lemma OrOpcode(base: int, stage: int, h: int, q: int)
    requires 0xC0 <= base < 0xC4 && 0 <= stage < 4 && h == 48 && q == 12
    ensures Or(base, Shl(stage, 2)) == base + 4 * stage
  {
    var p := Pow2(2);
    assert p == 4;
    var low := base - 0xC0;
    var sh := Shl(stage, 2);
    assert sh == stage * p;
    assert base == h * p + low;
    OrAt(h, stage, q, 2, p);
    var o := h + stage;
    OrLowAt(base, sh, h, low, stage, o, 2, p);
    assert o * p == base - low + sh;
  }

  /** `OrLowBits` on named operands. */
  lemma OrLowAt(x: int, y: int, a: int, b: int, c: int, o: int, k: nat, p: int)
    requires p == Pow2(k) && a >= 0 && c >= 0 && 0 <= b < p
    requires x == a * p + b && y == c * p && Or(a, c) == o
    ensures Or(x, y) == o * p + b
  {
    OrLowBits(a, b, c, k);
  }

  /** The divider message: `0x80`, then `divider - 1` as three bytes, least
      significant first, then a zero. */
  function DividerMsg(divider: int): seq<int>
  {
    var d := divider - 1;
    [0x80, d % 256, (d / 256) % 256, (d / 65536) % 256, 0]
  }

  /** The three data bytes carry `divider - 1` modulo 2^24, so a divider of
      1 .. 2^24 comes back exactly. */
  lemma DividerRoundTrip(divider: int)
    ensures var m := DividerMsg(divider);
      |m| == 5 && m[0] == 0x80 && m[4] == 0 && IsBytes(m) &&
      m[1] + 256 * m[2] + 65536 * m[3] == (divider - 1) % 16777216
    ensures 1 <= divider <= 16777216 ==>
      var m := DividerMsg(divider); m[1] + 256 * m[2] + 65536 * m[3] + 1 == divider
  {
    var d := divider - 1;
    Pow2Values();
    DivDiv(d, 256, 256);
    var q1 := d / 256;
    var q2 := q1 / 256;
    var q3 := q2 / 256;
    var low := d % 256 + 256 * (q1 % 256) + 65536 * (q2 % 256);
    assert d == 16777216 * q3 + low;
    DivUnique(d, 16777216, q3, low);
    if 1 <= divider <= 16777216 {
      DivUnique(d, 16777216, 0, d);
    }
  }

  /** `(count + 3) >> 2`: the count in units of four samples, rounded up. */
  function Quarter(count: int): int
  {
    Shr(count + 3, 2)
  }

  lemma QuarterRoundsUp(count: int)
    ensures 4 * Quarter(count) >= count > 4 * Quarter(count) - 4
  {
    assert Pow2(2) == 4;
  }

  /** The count message: `0x81`, then the read and delay counts in units of
      four, each as two bytes, least significant first. */
  function CountMsg(readCount: int, delayCount: int): seq<int>
  {
    var r, q := Quarter(readCount), Quarter(delayCount);
    [0x81, r % 256, (r / 256) % 256, q % 256, (q / 256) % 256]
  }

  lemma Low16(x: int)
    ensures x % 256 + 256 * ((x / 256) % 256) == x % 65536
  {
    Pow2Values();
    DivDiv(x, 256, 256);
    assert x == 65536 * ((x / 256) / 256) + (x % 256 + 256 * ((x / 256) % 256));
    DivUnique(x, 65536, (x / 256) / 256, x % 256 + 256 * ((x / 256) % 256));
  }

  /** Each count field holds the count divided by four, rounded up and
      truncated to 16 bits. */
  lemma CountFields(readCount: int, delayCount: int)
    ensures var m := CountMsg(readCount, delayCount);
      |m| == 5 && m[0] == 0x81 && IsBytes(m) &&
      m[1] + 256 * m[2] == Quarter(readCount) % 65536 &&
      m[3] + 256 * m[4] == Quarter(delayCount) % 65536
  {
    Low16(Quarter(readCount));
    Low16(Quarter(delayCount));
  }

  /** The flags byte `inverted << 7 | external << 6 | channel_groups << 2 |
      filter << 1 | demux`. */
  function FlagsByte(inverted: bool, external: bool, channelGroups: int, filter: bool, demux: bool): int
  {
    Or(Or(Or(Or(Shl(B2I(inverted), 7), Shl(B2I(external), 6)), Shl(channelGroups, 2)),
          Shl(B2I(filter), 1)), B2I(demux))
  }

  /** The flags message: `0x82`, the flags byte, and three zeros that turn
      off RLE, the alternate number scheme and the test modes. */
  function FlagsMsg(inverted: bool, external: bool, channelGroups: int, filter: bool, demux: bool): Emission
  {
    var f := FlagsByte(inverted, external, channelGroups, filter, demux);
    if IsByte(f) then Done([0x82, f, 0, 0, 0]) else Emission([0x82], Some(ValueError))
  }

  /** `chr` of the flags byte fails exactly when `channel_groups` is
      negative or 64 and above: the flags message then stops after `0x82`. */
  lemma FlagsRange(inverted: bool, external: bool, channelGroups: int, filter: bool, demux: bool)
    ensures IsByte(FlagsByte(inverted, external, channelGroups, filter, demux)) <==> 0 <= channelGroups < 64
    ensures var e := FlagsMsg(inverted, external, channelGroups, filter, demux);
      if 0 <= channelGroups < 64 then e.err.None? && |e.bytes| == 5
      else e == Emission([0x82], Some(ValueError))
  {
    FlagsByteRange(B2I(inverted), B2I(external), channelGroups, B2I(filter), B2I(demux));
  }

  /** The flags message is what writing its five values a `chr` at a time
      leaves behind. */
  lemma FlagsMsgIsChrs(inverted: bool, external: bool, channelGroups: int, filter: bool, demux: bool)
    ensures FlagsMsg(inverted, external, channelGroups, filter, demux) ==
      Chrs([0x82, FlagsByte(inverted, external, channelGroups, filter, demux), 0, 0, 0])
  {
    var f := FlagsByte(inverted, external, channelGroups, filter, demux);
    var m := [0x82, f, 0, 0, 0];
    if !IsByte(f) {
      assert m[1..] == [f, 0, 0, 0];
      assert Chrs(m[1..]) == Emission([], Some(ValueError));
      assert [0x82] + [] == [0x82];
    }
  }

  lemma FlagsByteRange(i: int, e: int, g: int, fl: int, d: int)
    requires 0 <= i < 2 && 0 <= e < 2 && 0 <= fl < 2 && 0 <= d < 2
    ensures IsByte(Or(Or(Or(Or(Shl(i, 7), Shl(e, 6)), Shl(g, 2)), Shl(fl, 1)), d)) <==> 0 <= g < 64
  {
    Pow2Values();
    assert Pow2(7) == 128 && Pow2(6) == 64 && Pow2(2) == 4 && Pow2(1) == 2;
    var s7, s6, s2, s1 := Shl(i, 7), Shl(e, 6), Shl(g, 2), Shl(fl, 1);
    assert s7 == 128 * i && s6 == 64 * e && s2 == 4 * g && s1 == 2 * fl;
    var a := Or(s7, s6);
    OrBound(s7, s6, 8);
    var b := Or(a, s2);
    OrByteRange(a, s2);
    var c := Or(b, s1);
    OrComm(b, s1);
    OrByteRange(s1, b);
    var r := Or(c, d);
    OrComm(c, d);
    OrByteRange(d, c);
    OrChain(s7, s6, s2, s1, d, a, b, c, r);
  }

  /** For `channel_groups < 16` the fields do not overlap: the byte is their
      weighted sum and each field can be read back from it. */
  lemma FlagsFields(inverted: bool, external: bool, channelGroups: int, filter: bool, demux: bool)
    requires 0 <= channelGroups < 16
    ensures var f := FlagsByte(inverted, external, channelGroups, filter, demux);
      f == 128 * B2I(inverted) + 64 * B2I(external) + 4 * channelGroups + 2 * B2I(filter) + B2I(demux) &&
      f / 128 == B2I(inverted) && (f / 64) % 2 == B2I(external) &&
      (f / 4) % 16 == channelGroups && (f / 2) % 2 == B2I(filter) && f % 2 == B2I(demux)
  {
    var i, e, g, fl, d := B2I(inverted), B2I(external), channelGroups, B2I(filter), B2I(demux);
    FlagsSum(i, e, g, fl, d);
    FlagsDigits(i, e, g, fl, d);
  }

  lemma FlagsSum(i: int, e: int, g: int, fl: int, d: int)
    requires 0 <= i < 2 && 0 <= e < 2 && 0 <= g < 16 && 0 <= fl < 2 && 0 <= d < 2
    ensures Or(Or(Or(Or(Shl(i, 7), Shl(e, 6)), Shl(g, 2)), Shl(fl, 1)), d)
         == 128 * i + 64 * e + 4 * g + 2 * fl + d
  {
    assert Pow2(7) == 128 && Pow2(6) == 64 && Pow2(2) == 4 && Pow2(1) == 2;
    var s7, s6, s2, s1 := Shl(i, 7), Shl(e, 6), Shl(g, 2), Shl(fl, 1);
    assert s7 == 128 * i && s6 == 64 * e && s2 == 4 * g && s1 == 2 * fl;
    OrAt(s7, s6, i, 7, 128);
    var a := s7 + s6;
    OrAt(a, s2, 2 * i + e, 6, 64);
    var b := a + s2;
    OrAt(b, s1, 32 * i + 16 * e + g, 2, 4);
    var c := b + s1;
    OrAt(c, d, 64 * i + 32 * e + 2 * g + fl, 1, 2);
    OrChain(s7, s6, s2, s1, d, a, b, c, c + d);
  }

  lemma OrChain(x1: int, x2: int, x3: int, x4: int, x5: int, a: int, b: int, c: int, r: int)
    requires Or(x1, x2) == a && Or(a, x3) == b && Or(b, x4) == c && Or(c, x5) == r
    ensures Or(Or(Or(Or(x1, x2), x3), x4), x5) == r
  {
  }

  /** ORing bits below a multiple of `2^k` adds them. */
  lemma OrAt(x: int, y: int, q: int, k: nat, p: int)
    requires p == Pow2(k) && q >= 0 && x == q * p && 0 <= y < p
    ensures Or(x, y) == x + y
  {
    OrDisjoint(q, y, k);
  }

  lemma FlagsDigits(i: int, e: int, g: int, fl: int, d: int)
    requires 0 <= i < 2 && 0 <= e < 2 && 0 <= g < 16 && 0 <= fl < 2 && 0 <= d < 2
    ensures var f := 128 * i + 64 * e + 4 * g + 2 * fl + d;
      f / 128 == i && (f / 64) % 2 == e && (f / 4) % 16 == g && (f / 2) % 2 == fl && f % 2 == d
  {
    var f := 128 * i + 64 * e + 4 * g + 2 * fl + d;
    DivUnique(f, 128, i, 64 * e + 4 * g + 2 * fl + d);
    DivUnique(f, 64, 2 * i + e, 4 * g + 2 * fl + d);
    DivUnique(2 * i + e, 2, i, e);
    DivUnique(f, 4, 32 * i + 16 * e + g, 2 * fl + d);
    DivUnique(32 * i + 16 * e + g, 16, 2 * i + e, g);
    DivUnique(f, 2, 64 * i + 32 * e + 2 * g + fl, d);
    DivUnique(64 * i + 32 * e + 2 * g + fl, 2, 32 * i + 16 * e + g, fl);
  }

  /** The mask message (`base` 0xC0) or the values message (`base` 0xC1):
      the opcode, then `word` as four bytes, least significant first
      (`chr(word & 0xFF)`, `chr((word >> 8) & 0xFF)`, ...). The word bytes
      are masked, so only `chr` of the opcode can raise. */
  function WordMsg(base: int, stage: int, word: int): Emission
  {
    var op := Opcode(base, stage);
    if IsByte(op) then Done([op] + LeBytes(word)) else Raise(ValueError)
  }

  /** The word message is what writing its five values a `chr` at a time
      leaves behind. */
  lemma WordMsgIsChrs(base: int, stage: int, word: int)
    ensures WordMsg(base, stage, word) == Chrs([Opcode(base, stage)] + LeBytes(word))
  {
    var m := [Opcode(base, stage)] + LeBytes(word);
    assert m[1..] == LeBytes(word);
  }

  function MaskMsg(stage: int, mask: int): Emission { WordMsg(0xC0, stage, mask) }

  function ValuesMsg(stage: int, values: int): Emission { WordMsg(0xC1, stage, values) }

  /** For the four stages a mask or values message is five bytes, never
      fails, and its last four bytes read back little-endian as the word
      modulo 2^32 (the word itself when it fits in 32 bits). */
  lemma WordMsgFields(base: int, stage: int, word: int)
    requires base == 0xC0 || base == 0xC1
    requires 0 <= stage < MAX_TRIGGER_STAGES
    ensures WordMsg(base, stage, word) == Done([base + 4 * stage] + LeBytes(word))
    ensures LittleEndian(LeBytes(word)) == word % 4294967296
  {
    OpcodeOfStage(base, stage);
    LittleEndianOfLeBytes(word);
  }

  /** Byte 3 of a configuration message: `(channel & 0x0F) << 4 | level`. */
  function ChannelLevelByte(channel: int, level: int): int
  {
    Or(Shl(channel % 16, 4), level)
  }

  /** Byte 4: `start << 3 | serial << 2 | (channel & 0x10) >> 4`; the last
      term is bit 4 of the channel. */
  function StartSerialByte(start: bool, serial: bool, channel: int): int
  {
    Or(Or(Shl(B2I(start), 3), Shl(B2I(serial), 2)), Bit(channel, 4))
  }

  /** The five values `_send_trigger_configuration` passes to `chr`. */
  function ConfigBytes(stage: int, delay: int, channel: int, level: int, start: bool, serial: bool): seq<int>
  {
    [Opcode(0xC2, stage), delay % 256, (delay / 256) % 256,
     ChannelLevelByte(channel, level), StartSerialByte(start, serial, channel)]
  }

  /** Bytes 1 and 2 are masked and byte 4 is below 16, so only `chr` of
      the opcode or of byte 3 can raise. */
  function ConfigMsg(stage: int, delay: int, channel: int, level: int, start: bool, serial: bool): Emission
  {
    var b := ConfigBytes(stage, delay, channel, level, start, serial);
    if !IsByte(b[0]) then Raise(ValueError)
    else if !IsByte(b[3]) then Emission(b[..3], Some(ValueError))
    else Done(b)
  }

  /** The configuration message is what writing its five values a `chr` at
      a time leaves behind. */
  lemma ConfigMsgIsChrs(stage: int, delay: int, channel: int, level: int, start: bool, serial: bool)
    ensures ConfigMsg(stage, delay, channel, level, start, serial) ==
      Chrs(ConfigBytes(stage, delay, channel, level, start, serial))
  {
    StartSerialValue(start, serial, channel);
    var b := ConfigBytes(stage, delay, channel, level, start, serial);
    assert IsByte(b[1]) && IsByte(b[2]) && IsByte(b[4]);
    if IsByte(b[0]) && !IsByte(b[3]) {
      assert b[3..] == [b[3], b[4]];
      assert Chrs(b[3..]) == Emission([], Some(ValueError));
      assert Chrs(b[2..]) == Emission([b[2]], Some(ValueError)) by {
        assert b[2..][1..] == b[3..];
      }
      assert Chrs(b[1..]) == Emission([b[1], b[2]], Some(ValueError)) by {
        assert b[1..][1..] == b[2..];
      }
      assert b[..3] == [b[0]] + [b[1], b[2]];
    }
  }

  /** Byte 3 is a byte exactly when `level` is; a level below 16 sits in the
      low nibble, under the low four bits of the channel. */
  lemma ChannelLevelRange(channel: int, level: int)
    ensures IsByte(ChannelLevelByte(channel, level)) <==> IsByte(level)
    ensures 0 <= level < 16 ==> ChannelLevelByte(channel, level) == 16 * (channel % 16) + level
  {
    var p := Pow2(4);
    assert p == 16;
    var x := Shl(channel % 16, 4);
    assert x == (channel % 16) * p && IsByte(x);
    OrByteRange(x, level);
    if 0 <= level < 16 {
      OrAt(x, level, channel % 16, 4, p);
    }
  }

  /** Byte 4 is the sum of its three fields, so it is always below 16. */
  lemma StartSerialValue(start: bool, serial: bool, channel: int)
    ensures StartSerialByte(start, serial, channel) == 8 * B2I(start) + 4 * B2I(serial) + Bit(channel, 4)
  {
    var p3, p2 := Pow2(3), Pow2(2);
    assert p3 == 8 && p2 == 4 && Pow2(1) == 2;
    var a, b, c := Shl(B2I(start), 3), Shl(B2I(serial), 2), Bit(channel, 4);
    assert a == B2I(start) * p3 && b == 4 * B2I(serial);
    OrAt(a, b, B2I(start), 3, p3);
    OrAt(a + b, c, 2 * B2I(start) + B2I(serial), 2, p2);
  }

  /** For the four stages a configuration message fails exactly when
      `level` is not a byte, and then only after its first three bytes;
      otherwise it is five bytes with the delay's low 16 bits in bytes 1-2. */
  lemma ConfigMsgOutcome(stage: int, delay: int, channel: int, level: int, start: bool, serial: bool)
    requires 0 <= stage < MAX_TRIGGER_STAGES
    ensures var e := ConfigMsg(stage, delay, channel, level, start, serial);
      (e.err.None? <==> IsByte(level)) &&
      (e.err.None? ==>
         (e.bytes == ConfigBytes(stage, delay, channel, level, start, serial) && |e.bytes| == 5 &&
          e.bytes[0] == 0xC2 + 4 * stage && e.bytes[1] + 256 * e.bytes[2] == delay % 65536)) &&
      (e.err.Some? ==> e == Emission(ConfigBytes(stage, delay, channel, level, start, serial)[..3], Some(ValueError)))
  {
    OpcodeOfStage(0xC2, stage);
    ChannelLevelRange(channel, level);
    StartSerialValue(start, serial, channel);
    Low16(delay);
  }

  /** With `level < 16` and `channel < 32` every field of a configuration
      comes back from bytes 3 and 4: the level from the low nibble of byte
      3, the channel from its high nibble and bit 0 of byte 4, start and
      serial from bits 3 and 2 of byte 4. */
  lemma ConfigFields(stage: int, delay: int, channel: int, level: int, start: bool, serial: bool)
    requires 0 <= level < 16 && 0 <= channel < 32
    ensures var b := ConfigBytes(stage, delay, channel, level, start, serial);
      b[3] % 16 == level && channel == 16 * (b[4] % 2) + b[3] / 16 &&
      (b[4] / 8 == 1 <==> start) && ((b[4] / 4) % 2 == 1 <==> serial)
  {
    ChannelLevelFields(channel, level);
    StartSerialFields(start, serial, channel);
  }

  lemma ChannelLevelFields(channel: int, level: int)
    requires 0 <= level < 16 && 0 <= channel < 32
    ensures var lo := ChannelLevelByte(channel, level);
      lo % 16 == level && lo / 16 == channel % 16
  {
    ChannelLevelRange(channel, level);
    DivUnique(16 * (channel % 16) + level, 16, channel % 16, level);
  }

  lemma StartSerialFields(start: bool, serial: bool, channel: int)
    requires 0 <= channel < 32
    ensures var hi := StartSerialByte(start, serial, channel);
      hi % 2 == channel / 16 && (hi / 8 == 1 <==> start) && ((hi / 4) % 2 == 1 <==> serial)
  {
    StartSerialValue(start, serial, channel);
    assert Pow2(4) == 16;
    var c4 := channel / 16;
    DivUnique(channel, 16, c4, channel % 16);
    assert Bit(channel, 4) == c4;
    var i, j := B2I(start), B2I(serial);
    var hi := 8 * i + 4 * j + c4;
    DivUnique(hi, 8, i, 4 * j + c4);
    DivUnique(hi, 4, 2 * i + j, c4);
    DivUnique(2 * i + j, 2, i, j);
    DivUnique(hi, 2, 4 * i + 2 * j, c4);
  }

  // ---------------------------------------------------------------------
  // The trigger blocks of `send_settings`

  /** Stage `stage` of `send_trigger_mask_settings`: `trigger_mask[stage]`
      is looked up before anything of the stage is written. */
  function MaskStage(mask: seq<int>, stage: nat): Emission
  {
    if stage < |mask| then MaskMsg(stage, mask[stage]) else Raise(IndexError)
  }

  /** Stage `stage` of `send_trigger_values_settings`. */
  function ValuesStage(values: seq<int>, stage: nat): Emission
  {
    if stage < |values| then ValuesMsg(stage, values[stage]) else Raise(IndexError)
  }

  /** Stage `stage` of `send_trigger_configuration_settings`: the opcode
      goes out before `trigger_delay[stage]` is looked up, the two delay
      bytes before `trigger_channel[stage]` and `trigger_level[stage]`, and
      byte 3 before `trigger_start[stage]` and `trigger_serial[stage]`. */
  function ConfigStage(delay: seq<int>, channel: seq<int>, level: seq<int>, start: seq<bool>, serial: seq<bool>,
                       stage: nat): Emission
  {
    var op := Opcode(0xC2, stage);
    if !IsByte(op) then Raise(ValueError)
    else if stage >= |delay| then Emission([op], Some(IndexError))
    else
      var d := delay[stage];
      if stage >= |channel| || stage >= |level| then Emission([op, d % 256, (d / 256) % 256], Some(IndexError))
      else if stage >= |start| || stage >= |serial| then
        var cl := ChannelLevelByte(channel[stage], level[stage]);
        if IsByte(cl) then Emission([op, d % 256, (d / 256) % 256, cl], Some(IndexError))
        else Emission([op, d % 256, (d / 256) % 256], Some(ValueError))
      else ConfigMsg(stage, d, channel[stage], level[stage], start[stage], serial[stage])
  }

  function ConfigStages(delay: seq<int>, channel: seq<int>, level: seq<int>, start: seq<bool>, serial: seq<bool>)
    : nat -> Emission
  {
    (st: nat) => ConfigStage(delay, channel, level, start, serial, st)
  }

  /** The configuration stages of the settings' five per-stage lists. */
  function ConfigStagesOf(s: DeviceSettings): nat -> Emission
  {
    ConfigStages(s.triggerDelay, s.triggerChannel, s.triggerLevel, s.triggerStart, s.triggerSerial)
  }

  function ConfigBlock(s: DeviceSettings): Emission
  {
    Range(ConfigStagesOf(s), 0, MAX_TRIGGER_STAGES)
  }

  function MaskStages(mask: seq<int>): nat -> Emission
  {
    (st: nat) => MaskStage(mask, st)
  }

  function MaskBlock(s: DeviceSettings): Emission
  {
    Range(MaskStages(s.triggerMask), 0, MAX_TRIGGER_STAGES)
  }

  function ValuesStages(values: seq<int>): nat -> Emission
  {
    (st: nat) => ValuesStage(values, st)
  }

  function ValuesBlock(s: DeviceSettings): Emission
  {
    Range(ValuesStages(s.triggerValues), 0, MAX_TRIGGER_STAGES)
  }

  /** A stage of the `'None'` block (`start` True) or one of stages 1-3 of
      the `'Simple'` block (`start` False): no delay, channel 0, level 0,
      parallel, with an empty mask, so it always fires. */
  function FixedStage(start: bool, stage: nat): Emission
  {
    Then(ConfigMsg(stage, 0, 0, 0, start, false), Then(MaskMsg(stage, 0), ValuesMsg(stage, 0)))
  }

  function FixedStages(start: bool): nat -> Emission
  {
    (st: nat) => FixedStage(start, st)
  }

  /** The `'Simple'` block: stage 0 from the settings with its level forced
      to 0 and start to True. The three list entries it passes to
      `_send_trigger_configuration` are looked up before the call. */
  function SimpleBlock(s: DeviceSettings): Emission
  {
    if |s.triggerDelay| == 0 || |s.triggerChannel| == 0 || |s.triggerSerial| == 0 then Raise(IndexError)
    else
      Then(ConfigMsg(0, s.triggerDelay[0], s.triggerChannel[0], 0, true, s.triggerSerial[0]),
        Then(MaskStage(s.triggerMask, 0), Then(ValuesStage(s.triggerValues, 0), Range(FixedStages(false), 1, MAX_TRIGGER_STAGES))))
  }

  /** The trigger part of `send_settings`, chosen by `trigger_enable`;
      `'Complex'` sends every configuration, then every mask, then every
      value. */
  function TriggerBlock(s: DeviceSettings): Emission
  {
    if s.triggerEnable == "None" then Range(FixedStages(true), 0, MAX_TRIGGER_STAGES)
    else if s.triggerEnable == "Simple" then SimpleBlock(s)
    else if s.triggerEnable == "Complex" then Then(ConfigBlock(s), Then(MaskBlock(s), ValuesBlock(s)))
    else Raise(SumpTriggerEnableError)
  }

  /** Everything `send_settings` writes: divider, counts, flags, then the
      trigger block, stopping at the first exception. */
  function SendSettingsSpec(s: DeviceSettings): Emission
  {
    Then(Done(DividerMsg(s.divider)),
      Then(Done(CountMsg(s.readCount, s.delayCount)),
        Then(FlagsMsg(s.inverted, s.external, s.channelGroups, s.filter, s.demux), TriggerBlock(s))))
  }

  /** The settings under which the trigger block raises nothing. */
  predicate TriggersReady(s: DeviceSettings)
  {
    s.triggerEnable == "None" ||
    (s.triggerEnable == "Simple" && SimpleReady(s)) ||
    (s.triggerEnable == "Complex" && ComplexReady(s))
  }

  predicate SimpleReady(s: DeviceSettings)
  {
    |s.triggerDelay| > 0 && |s.triggerChannel| > 0 && |s.triggerSerial| > 0 &&
    |s.triggerMask| > 0 && |s.triggerValues| > 0
  }

  predicate ComplexReady(s: DeviceSettings)
  {
    |s.triggerDelay| >= 4 && |s.triggerChannel| >= 4 && |s.triggerLevel| >= 4 &&
    |s.triggerStart| >= 4 && |s.triggerSerial| >= 4 && |s.triggerMask| >= 4 &&
    |s.triggerValues| >= 4 && forall st :: 0 <= st < 4 ==> IsByte(s.triggerLevel[st])
  }

  /** The bytes of a fixed stage: only the opcodes and the start bit (value
      8 in byte 4) can be non-zero. */
  lemma FixedStageBytes(start: bool, stage: nat)
    requires stage < MAX_TRIGGER_STAGES
    ensures FixedStage(start, stage) == Done([0xC2 + 4 * stage, 0, 0, 0, 8 * B2I(start),
      0xC0 + 4 * stage, 0, 0, 0, 0, 0xC1 + 4 * stage, 0, 0, 0, 0])
  {
    ConfigZero(stage, start);
    WordZero(0xC0, stage);
    WordZero(0xC1, stage);
    var c := [0xC2 + 4 * stage, 0, 0, 0, 8 * B2I(start)];
    var m, v := [0xC0 + 4 * stage, 0, 0, 0, 0], [0xC1 + 4 * stage, 0, 0, 0, 0];
    assert FixedStage(start, stage) == Done(c + (m + v));
    Cat3(c, m, v);
  }

  lemma Cat3(a: seq<int>, b: seq<int>, c: seq<int>)
    requires |a| == 5 && |b| == 5 && |c| == 5
    ensures a + (b + c) == [a[0], a[1], a[2], a[3], a[4], b[0], b[1], b[2], b[3], b[4], c[0], c[1], c[2], c[3], c[4]]
  {
  }

  lemma ConfigZero(stage: nat, start: bool)
    requires stage < MAX_TRIGGER_STAGES
    ensures ConfigMsg(stage, 0, 0, 0, start, false) == Done([0xC2 + 4 * stage, 0, 0, 0, 8 * B2I(start)])
  {
    ConfigMsgOutcome(stage, 0, 0, 0, start, false);
    ChannelLevelRange(0, 0);
    StartSerialValue(start, false, 0);
    assert Bit(0, 4) == 0;
  }

  lemma WordZero(base: int, stage: nat)
    requires (base == 0xC0 || base == 0xC1) && stage < MAX_TRIGGER_STAGES
    ensures WordMsg(base, stage, 0) == Done([base + 4 * stage, 0, 0, 0, 0])
  {
    WordMsgFields(base, stage, 0);
    assert LeBytes(0) == [0, 0, 0, 0];
  }

  /** A configuration stage raises nothing exactly when its five list
      entries exist and its level is a byte; it then sends the message for
      them. */
  lemma ConfigStageOutcome(s: DeviceSettings, stage: nat)
    requires stage < MAX_TRIGGER_STAGES
    ensures var ok := stage < |s.triggerDelay| && stage < |s.triggerChannel| && stage < |s.triggerLevel| &&
                      stage < |s.triggerStart| && stage < |s.triggerSerial|;
      (ConfigStagesOf(s)(stage).err.None? <==> ok && IsByte(s.triggerLevel[stage])) &&
      (ok ==> ConfigStagesOf(s)(stage) == ConfigMsg(stage, s.triggerDelay[stage], s.triggerChannel[stage],
                 s.triggerLevel[stage], s.triggerStart[stage], s.triggerSerial[stage]))
  {
    if stage < |s.triggerDelay| && stage < |s.triggerChannel| && stage < |s.triggerLevel| &&
       stage < |s.triggerStart| && stage < |s.triggerSerial| {
      ConfigMsgOutcome(stage, s.triggerDelay[stage], s.triggerChannel[stage],
        s.triggerLevel[stage], s.triggerStart[stage], s.triggerSerial[stage]);
    }
  }

  /** A block of fixed stages `lo .. n - 1` raises nothing and is 15 bytes
      per stage. */
  lemma FixedBlockLength(start: bool, lo: nat, n: nat)
    requires lo <= n == MAX_TRIGGER_STAGES
    ensures Range(FixedStages(start), lo, n).err.None?
    ensures |Range(FixedStages(start), lo, n).bytes| == (n - lo) * 15
  {
    var f := FixedStages(start);
    forall st: nat | st < n
      ensures f(st).err.None? && |f(st).bytes| == 15
    {
      FixedStageBytes(start, st);
    }
    RangeLength(f, lo, n, 15);
  }

  /** Stage `st` of a block of fixed stages owns its 15 bytes. */
  lemma FixedBlockStage(start: bool, lo: nat, n: nat, st: nat)
    requires lo <= st < n == MAX_TRIGGER_STAGES
    ensures (st - lo) * 15 + 15 <= |Range(FixedStages(start), lo, n).bytes|
    ensures Range(FixedStages(start), lo, n).bytes[(st - lo) * 15 .. (st - lo) * 15 + 15] == FixedStage(start, st).bytes
  {
    var f := FixedStages(start);
    forall t: nat | t < n
      ensures f(t).err.None? && |f(t).bytes| == 15
    {
      FixedStageBytes(start, t);
    }
    RangeSlice(f, lo, n, 15, st);
  }

  /** The `'Complex'` block raises nothing exactly when every per-stage list
      has four entries and every level is a byte. */
  lemma ComplexBlockOutcome(s: DeviceSettings)
    ensures var e := Then(ConfigBlock(s), Then(MaskBlock(s), ValuesBlock(s)));
      (e.err.None? <==> ComplexReady(s)) && (ComplexReady(s) ==> |e.bytes| == 60)
  {
    ConfigBlockOk(s);
    WordBlockOk(s);
    if ComplexReady(s) {
      ComplexLength(s);
    }
  }

  lemma ConfigBlockOk(s: DeviceSettings)
    ensures ConfigBlock(s).err.None? <==>
      |s.triggerDelay| >= 4 && |s.triggerChannel| >= 4 && |s.triggerLevel| >= 4 &&
      |s.triggerStart| >= 4 && |s.triggerSerial| >= 4 &&
      forall st :: 0 <= st < 4 ==> IsByte(s.triggerLevel[st])
  {
    var f := ConfigStagesOf(s);
    forall st: nat | st < MAX_TRIGGER_STAGES
      ensures f(st).err.None? <==>
        st < |s.triggerDelay| && st < |s.triggerChannel| && st < |s.triggerLevel| &&
        st < |s.triggerStart| && st < |s.triggerSerial| && IsByte(s.triggerLevel[st])
    {
      ConfigStageOutcome(s, st);
    }
    RangeOk(f, 0, MAX_TRIGGER_STAGES);
    if ConfigBlock(s).err.None? {
      assert f(3).err.None?;
    }
  }

  lemma WordBlockOk(s: DeviceSettings)
    ensures MaskBlock(s).err.None? <==> |s.triggerMask| >= 4
    ensures ValuesBlock(s).err.None? <==> |s.triggerValues| >= 4
  {
    var mf, vf := MaskStages(s.triggerMask), ValuesStages(s.triggerValues);
    forall st: nat | st < MAX_TRIGGER_STAGES
      ensures mf(st).err.None? <==> st < |s.triggerMask|
      ensures vf(st).err.None? <==> st < |s.triggerValues|
    {
      if st < |s.triggerMask| { WordMsgFields(0xC0, st, s.triggerMask[st]); }
      if st < |s.triggerValues| { WordMsgFields(0xC1, st, s.triggerValues[st]); }
    }
    RangeOk(mf, 0, MAX_TRIGGER_STAGES);
    RangeOk(vf, 0, MAX_TRIGGER_STAGES);
    if MaskBlock(s).err.None? { assert mf(3).err.None?; }
    if ValuesBlock(s).err.None? { assert vf(3).err.None?; }
  }

  /** A ready `'Complex'` block is 60 bytes. */
  lemma ComplexLength(s: DeviceSettings)
    requires ComplexReady(s)
    ensures Then(ConfigBlock(s), Then(MaskBlock(s), ValuesBlock(s))).err.None?
    ensures |Then(ConfigBlock(s), Then(MaskBlock(s), ValuesBlock(s))).bytes| == 60
  {
    ConfigStagesSucceed(s);
    WordStagesSucceed(s);
    RangeLength(ConfigStagesOf(s), 0, MAX_TRIGGER_STAGES, 5);
    RangeLength(MaskStages(s.triggerMask), 0, MAX_TRIGGER_STAGES, 5);
    RangeLength(ValuesStages(s.triggerValues), 0, MAX_TRIGGER_STAGES, 5);
  }

  lemma ConfigStagesSucceed(s: DeviceSettings)
    requires ComplexReady(s)
    ensures forall st: nat :: st < MAX_TRIGGER_STAGES ==>
      ConfigStagesOf(s)(st).err.None? && |ConfigStagesOf(s)(st).bytes| == 5
  {
    forall st: nat | st < MAX_TRIGGER_STAGES
      ensures ConfigStagesOf(s)(st).err.None? && |ConfigStagesOf(s)(st).bytes| == 5
    {
      ComplexStage(s, st);
    }
  }

  lemma WordStagesSucceed(s: DeviceSettings)
    requires ComplexReady(s)
    ensures forall st: nat :: st < MAX_TRIGGER_STAGES ==>
      MaskStages(s.triggerMask)(st).err.None? && |MaskStages(s.triggerMask)(st).bytes| == 5
    ensures forall st: nat :: st < MAX_TRIGGER_STAGES ==>
      ValuesStages(s.triggerValues)(st).err.None? && |ValuesStages(s.triggerValues)(st).bytes| == 5
  {
    forall st: nat | st < MAX_TRIGGER_STAGES
      ensures MaskStages(s.triggerMask)(st).err.None? && |MaskStages(s.triggerMask)(st).bytes| == 5
      ensures ValuesStages(s.triggerValues)(st).err.None? && |ValuesStages(s.triggerValues)(st).bytes| == 5
    {
      WordMsgFields(0xC0, st, s.triggerMask[st]);
      WordMsgFields(0xC1, st, s.triggerValues[st]);
    }
  }

  /** Where stage `st` of a ready `'Complex'` block sits: its configuration
      among the first 20 bytes, its mask among the next 20, its value in the
      last 20. */
  lemma ComplexLayout(s: DeviceSettings, st: nat)
    requires ComplexReady(s) && st < MAX_TRIGGER_STAGES
    ensures var e := Then(ConfigBlock(s), Then(MaskBlock(s), ValuesBlock(s)));
      |e.bytes| == 60 &&
      e.bytes[5 * st .. 5 * st + 5] == ConfigBytes(st, s.triggerDelay[st], s.triggerChannel[st],
        s.triggerLevel[st], s.triggerStart[st], s.triggerSerial[st]) &&
      e.bytes[20 + 5 * st .. 25 + 5 * st] == [0xC0 + 4 * st] + LeBytes(s.triggerMask[st]) &&
      e.bytes[40 + 5 * st .. 45 + 5 * st] == [0xC1 + 4 * st] + LeBytes(s.triggerValues[st])
  {
    ComplexLength(s);
    BlockSlices(s, st);
    var c, m, v := ConfigBlock(s).bytes, MaskBlock(s).bytes, ValuesBlock(s).bytes;
    var e := Then(ConfigBlock(s), Then(MaskBlock(s), ValuesBlock(s)));
    assert e.bytes == c + (m + v);
    CatSliceLeft(c, m + v, 5 * st, 5 * st + 5);
    CatSliceRight(c, m + v, 20 + 5 * st, 25 + 5 * st);
    CatSliceLeft(m, v, 5 * st, 5 * st + 5);
    CatSliceRight(c, m + v, 40 + 5 * st, 45 + 5 * st);
    CatSliceRight(m, v, 20 + 5 * st, 25 + 5 * st);
  }

  lemma BlockSlices(s: DeviceSettings, st: nat)
    requires ComplexReady(s) && st < MAX_TRIGGER_STAGES
    ensures |ConfigBlock(s).bytes| == 20 && |MaskBlock(s).bytes| == 20 && |ValuesBlock(s).bytes| == 20
    ensures ConfigBlock(s).bytes[5 * st .. 5 * st + 5] == ConfigBytes(st, s.triggerDelay[st], s.triggerChannel[st],
        s.triggerLevel[st], s.triggerStart[st], s.triggerSerial[st])
    ensures MaskBlock(s).bytes[5 * st .. 5 * st + 5] == [0xC0 + 4 * st] + LeBytes(s.triggerMask[st])
    ensures ValuesBlock(s).bytes[5 * st .. 5 * st + 5] == [0xC1 + 4 * st] + LeBytes(s.triggerValues[st])
  {
    ComplexStage(s, st);
    ConfigSlice(s, st);
    MaskSlice(s, st);
    ValuesSlice(s, st);
  }

  lemma ConfigSlice(s: DeviceSettings, st: nat)
    requires ComplexReady(s) && st < MAX_TRIGGER_STAGES
    ensures |ConfigBlock(s).bytes| == 20
    ensures ConfigBlock(s).bytes[5 * st .. 5 * st + 5] == ConfigStagesOf(s)(st).bytes
  {
    ConfigStagesSucceed(s);
    RangeSlice(ConfigStagesOf(s), 0, MAX_TRIGGER_STAGES, 5, st);
  }

  lemma MaskSlice(s: DeviceSettings, st: nat)
    requires ComplexReady(s) && st < MAX_TRIGGER_STAGES
    ensures |MaskBlock(s).bytes| == 20
    ensures MaskBlock(s).bytes[5 * st .. 5 * st + 5] == MaskStages(s.triggerMask)(st).bytes
  {
    WordStagesSucceed(s);
    RangeSlice(MaskStages(s.triggerMask), 0, MAX_TRIGGER_STAGES, 5, st);
  }

  lemma ValuesSlice(s: DeviceSettings, st: nat)
    requires ComplexReady(s) && st < MAX_TRIGGER_STAGES
    ensures |ValuesBlock(s).bytes| == 20
    ensures ValuesBlock(s).bytes[5 * st .. 5 * st + 5] == ValuesStages(s.triggerValues)(st).bytes
  {
    WordStagesSucceed(s);
    RangeSlice(ValuesStages(s.triggerValues), 0, MAX_TRIGGER_STAGES, 5, st);
  }

  /** One stage of a ready `'Complex'` block. */
  lemma ComplexStage(s: DeviceSettings, st: nat)
    requires ComplexReady(s) && st < MAX_TRIGGER_STAGES
    ensures ConfigStagesOf(s)(st) == Done(ConfigBytes(st, s.triggerDelay[st], s.triggerChannel[st],
          s.triggerLevel[st], s.triggerStart[st], s.triggerSerial[st]))
    ensures MaskStages(s.triggerMask)(st) == Done([0xC0 + 4 * st] + LeBytes(s.triggerMask[st]))
    ensures ValuesStages(s.triggerValues)(st) == Done([0xC1 + 4 * st] + LeBytes(s.triggerValues[st]))
  {
    ConfigStageOutcome(s, st);
    ConfigMsgOutcome(st, s.triggerDelay[st], s.triggerChannel[st],
      s.triggerLevel[st], s.triggerStart[st], s.triggerSerial[st]);
    WordMsgFields(0xC0, st, s.triggerMask[st]);
    WordMsgFields(0xC1, st, s.triggerValues[st]);
    var mb, vb := MaskStage(s.triggerMask, st).bytes, ValuesStage(s.triggerValues, st).bytes;
    assert mb == [mb[0]] + mb[1..];
    assert vb == [vb[0]] + vb[1..];
  }

  /** The `'Simple'` block raises nothing exactly when the five stage-0
      entries it reads exist. */
  lemma SimpleBlockOutcome(s: DeviceSettings)
    ensures SimpleBlock(s).err.None? <==> SimpleReady(s)
  {
    if |s.triggerDelay| > 0 && |s.triggerChannel| > 0 && |s.triggerSerial| > 0 {
      var d, c, ser := s.triggerDelay[0], s.triggerChannel[0], s.triggerSerial[0];
      ConfigMsgOutcome(0, d, c, 0, true, ser);
      if |s.triggerMask| > 0 { WordMsgFields(0xC0, 0, s.triggerMask[0]); }
      if |s.triggerValues| > 0 { WordMsgFields(0xC1, 0, s.triggerValues[0]); }
      FixedBlockLength(false, 1, MAX_TRIGGER_STAGES);
    }
  }

  /** Three 5-byte messages that succeed, followed by `d`. */
  lemma ThreeThenRest(a: Emission, b: Emission, c: Emission, d: Emission)
    requires a.err.None? && b.err.None? && c.err.None?
    requires |a.bytes| == 5 && |b.bytes| == 5 && |c.bytes| == 5
    ensures var e := Then(a, Then(b, Then(c, d)));
      e.err == d.err && |e.bytes| == 15 + |d.bytes| &&
      e.bytes[..5] == a.bytes && e.bytes[5..10] == b.bytes && e.bytes[10..15] == c.bytes &&
      e.bytes[15..] == d.bytes
  {
    var e := Then(a, Then(b, Then(c, d)));
    assert e.bytes == a.bytes + (b.bytes + (c.bytes + d.bytes));
  }

  /** Stage 0 of the `'Simple'` block with its level forced to 0 and its
      start bit to True: byte 3 carries only the low channel bits, byte 4
      has its start bit set. */
  lemma SimpleStageZeroBytes(delay: int, channel: int, serial: bool)
    ensures var b := ConfigBytes(0, delay, channel, 0, true, serial);
      b[3] == 16 * (channel % 16) && b[4] / 8 == 1
  {
    ChannelLevelRange(channel, 0);
    StartSerialValue(true, serial, channel);
    var b4 := 8 + 4 * B2I(serial) + Bit(channel, 4);
    DivUnique(b4, 8, 1, 4 * B2I(serial) + Bit(channel, 4));
  }

  /** A ready `'Simple'` block is three whole messages, then the fixed
      stages 1-3. */
  lemma SimpleParts(s: DeviceSettings)
    requires SimpleReady(s)
    ensures SimpleBlock(s) ==
      Then(Done(ConfigBytes(0, s.triggerDelay[0], s.triggerChannel[0], 0, true, s.triggerSerial[0])),
        Then(Done([0xC0] + LeBytes(s.triggerMask[0])), Then(Done([0xC1] + LeBytes(s.triggerValues[0])),
          Range(FixedStages(false), 1, MAX_TRIGGER_STAGES))))
  {
    var d, c, ser := s.triggerDelay[0], s.triggerChannel[0], s.triggerSerial[0];
    var mk, vs := s.triggerMask[0], s.triggerValues[0];
    assert ConfigMsg(0, d, c, 0, true, ser) == Done(ConfigBytes(0, d, c, 0, true, ser)) by {
      ConfigMsgOutcome(0, d, c, 0, true, ser);
    }
    assert MaskStage(s.triggerMask, 0) == Done([0xC0] + LeBytes(mk)) by {
      WordMsgFields(0xC0, 0, mk);
    }
    assert ValuesStage(s.triggerValues, 0) == Done([0xC1] + LeBytes(vs)) by {
      WordMsgFields(0xC1, 0, vs);
    }
  }

  /** The first 15 bytes of a ready `'Simple'` block are stage 0 from the
      settings, with level 0 and the start bit set. */
  lemma SimpleLayout(s: DeviceSettings)
    requires SimpleReady(s)
    ensures var b, d, c, ser := SimpleBlock(s).bytes, s.triggerDelay[0], s.triggerChannel[0], s.triggerSerial[0];
      |b| >= 15 &&
      b[..5] == ConfigBytes(0, d, c, 0, true, ser) &&
      b[5..10] == [0xC0] + LeBytes(s.triggerMask[0]) &&
      b[10..15] == [0xC1] + LeBytes(s.triggerValues[0])
  {
    SimpleParts(s);
    var cm := ConfigBytes(0, s.triggerDelay[0], s.triggerChannel[0], 0, true, s.triggerSerial[0]);
    ThreeThenRest(Done(cm), Done([0xC0] + LeBytes(s.triggerMask[0])), Done([0xC1] + LeBytes(s.triggerValues[0])),
      Range(FixedStages(false), 1, MAX_TRIGGER_STAGES));
  }

  /** The `'Simple'` block ignores `trigger_level[0]` and `trigger_start[0]`:
      byte 3 carries only the channel's low bits and byte 4 the start bit. */
  lemma SimpleForcesLevelAndStart(s: DeviceSettings)
    requires SimpleReady(s)
    ensures |SimpleBlock(s).bytes| == 60
    ensures SimpleBlock(s).bytes[3] == 16 * (s.triggerChannel[0] % 16)
    ensures SimpleBlock(s).bytes[4] / 8 == 1
  {
    SimpleLayout(s);
    SimpleTail(s);
    var b := SimpleBlock(s).bytes;
    SimpleStageZeroBytes(s.triggerDelay[0], s.triggerChannel[0], s.triggerSerial[0]);
    assert b[3] == b[..5][3] && b[4] == b[..5][4];
  }

  /** Stages 1-3 of a ready `'Simple'` block are the fixed, unstarted stages. */
  lemma SimpleLater(s: DeviceSettings, st: nat)
    requires SimpleReady(s) && 1 <= st < MAX_TRIGGER_STAGES
    ensures |SimpleBlock(s).bytes| == 60
    ensures SimpleBlock(s).bytes[15 * st .. 15 * st + 15] == FixedStage(false, st).bytes
  {
    SimpleTail(s);
    FixedBlockStage(false, 1, MAX_TRIGGER_STAGES, st);
    TailSlice(SimpleBlock(s).bytes, Range(FixedStages(false), 1, MAX_TRIGGER_STAGES).bytes, st, FixedStage(false, st).bytes);
  }

  lemma SimpleTail(s: DeviceSettings)
    requires SimpleReady(s)
    ensures |SimpleBlock(s).bytes| == 60
    ensures SimpleBlock(s).bytes[15..] == Range(FixedStages(false), 1, MAX_TRIGGER_STAGES).bytes
  {
    var c := ConfigMsg(0, s.triggerDelay[0], s.triggerChannel[0], 0, true, s.triggerSerial[0]);
    var m, v := MaskStage(s.triggerMask, 0), ValuesStage(s.triggerValues, 0);
    var r := Range(FixedStages(false), 1, MAX_TRIGGER_STAGES);
    ConfigMsgOutcome(0, s.triggerDelay[0], s.triggerChannel[0], 0, true, s.triggerSerial[0]);
    WordMsgFields(0xC0, 0, s.triggerMask[0]);
    WordMsgFields(0xC1, 0, s.triggerValues[0]);
    FixedBlockLength(false, 1, MAX_TRIGGER_STAGES);
    assert SimpleBlock(s) == Then(c, Then(m, Then(v, r)));
    ThreeThenRest(c, m, v, r);
  }

  /** Slot `st` of 15-byte slots, counted from 1, in what follows a 15-byte
      head. */
  lemma TailSlice(b: seq<int>, r: seq<int>, st: nat, x: seq<int>)
    requires 1 <= st && |b| == 15 + |r| && b[15..] == r
    requires (st - 1) * 15 + 15 <= |r| && r[(st - 1) * 15 .. (st - 1) * 15 + 15] == x
    ensures 15 * st + 15 <= |b| && b[15 * st .. 15 * st + 15] == x
  {
    assert b == b[..15] + r;
    CatSliceRight(b[..15], r, 15 * st, 15 * st + 15);
  }

  /** The trigger block raises nothing exactly for `TriggersReady` settings
      and is then 60 bytes; an unknown mode raises before writing. */
  lemma TriggerBlockOutcome(s: DeviceSettings)
    ensures TriggerBlock(s).err.None? <==> TriggersReady(s)
    ensures TriggersReady(s) ==> |TriggerBlock(s).bytes| == 60
    ensures s.triggerEnable !in {"None", "Simple", "Complex"} ==>
      TriggerBlock(s) == Emission([], Some(SumpTriggerEnableError))
  {
    if s.triggerEnable == "None" {
      FixedBlockLength(true, 0, MAX_TRIGGER_STAGES);
    } else if s.triggerEnable == "Simple" {
      SimpleBlockOutcome(s);
      if SimpleReady(s) { SimpleTail(s); }
    } else if s.triggerEnable == "Complex" {
      ComplexBlockOutcome(s);
    }
  }

  /** `send_settings` raises nothing exactly when `channel_groups` fits the
      flags byte and the trigger block is ready, and then writes 75 bytes:
      divider, counts and flags (5 each), then 60 bytes of triggers. */
  lemma SendSettingsOutcome(s: DeviceSettings)
    ensures SendSettingsSpec(s).err.None? <==> 0 <= s.channelGroups < 64 && TriggersReady(s)
    ensures SendSettingsSpec(s).err.None? ==> |SendSettingsSpec(s).bytes| == 75
  {
    FlagsRange(s.inverted, s.external, s.channelGroups, s.filter, s.demux);
    TriggerBlockOutcome(s);
  }

  /** With a valid flags byte, `send_settings` writes divider, counts and
      flags, then the trigger block's bytes, and ends as the trigger block
      ends. */
  lemma SendSettingsLayout(s: DeviceSettings)
    requires 0 <= s.channelGroups < 64
    ensures var e := SendSettingsSpec(s);
      |e.bytes| >= 15 &&
      e.bytes[..5] == DividerMsg(s.divider) && e.bytes[5..10] == CountMsg(s.readCount, s.delayCount) &&
      e.bytes[10..15] == [0x82, FlagsByte(s.inverted, s.external, s.channelGroups, s.filter, s.demux), 0, 0, 0] &&
      e.bytes[15..] == TriggerBlock(s).bytes && e.err == TriggerBlock(s).err
  {
    FlagsRange(s.inverted, s.external, s.channelGroups, s.filter, s.demux);
    ThreeThenRest(Done(DividerMsg(s.divider)), Done(CountMsg(s.readCount, s.delayCount)),
      FlagsMsg(s.inverted, s.external, s.channelGroups, s.filter, s.demux), TriggerBlock(s));
  }

  /** A `channel_groups` outside the flags byte raises ValueError after the
      divider, the counts and the flags opcode went out. */
  lemma SendSettingsBadGroups(s: DeviceSettings)
    requires !(0 <= s.channelGroups < 64)
    ensures SendSettingsSpec(s) ==
      Emission(DividerMsg(s.divider) + CountMsg(s.readCount, s.delayCount) + [0x82], Some(ValueError))
  {
    FlagsRange(s.inverted, s.external, s.channelGroups, s.filter, s.demux);
    var d, c := DividerMsg(s.divider), CountMsg(s.readCount, s.delayCount);
    assert d + (c + [0x82]) == d + c + [0x82];
  }

  /** An unknown `trigger_enable` raises SumpTriggerEnableError after the
      15 bytes of divider, counts and flags have gone out. */
  lemma UnknownModeRaisesLate(s: DeviceSettings)
    requires 0 <= s.channelGroups < 64
    requires s.triggerEnable !in {"None", "Simple", "Complex"}
    ensures SendSettingsSpec(s).err == Some(SumpTriggerEnableError)
    ensures |SendSettingsSpec(s).bytes| == 15
  {
    SendSettingsLayout(s);
    TriggerBlockOutcome(s);
  }
}
