/** sump/interface.py: the struct-packing draft of the first-generation
    client. Each command is built whole by `struct.pack` and written with one
    `port.write`; a field out of range raises struct.error before anything
    of that command is written. */
module SumpInterface {
  import opened Common
  import opened Wire
  import opened Lanes
  import opened SumpOps
  import opened Struct
  import opened MetadataTokens
  import opened SumpSettings
  import SumpDevice

  // ---------------------------------------------------------------------
  // Messages

  /** `struct.pack('<Bi', base | (stage << 2), word)`: mask (`base` 0xC0) and
      value (`base` 0xC1) messages. */
  function WordPacked(base: int, stage: int, word: int): Result<seq<int>>
  {
    Cat(PackB(SumpDevice.Opcode(base, stage)), PackI(word))
  }

  /** A mask or value message is packed exactly when the stage is below 64
      and the word fits a signed 32-bit int; it is then the first draft's
      five bytes, whose word reads back little-endian as the word modulo
      2^32. */
  lemma WordPackedAgrees(base: int, stage: int, word: int)
    requires base == 0xC0 || base == 0xC1
    ensures WordPacked(base, stage, word).Ok? <==> 0 <= stage < 64 && -2147483648 <= word < 2147483648
    ensures WordPacked(base, stage, word).Err? ==> WordPacked(base, stage, word).error == StructError
    ensures WordPacked(base, stage, word).Ok? ==>
      WordPacked(base, stage, word).value == SumpDevice.WordMsg(base, stage, word).bytes &&
      SumpDevice.WordMsg(base, stage, word).err.None? &&
      |WordPacked(base, stage, word).value| == 5 &&
      LittleEndian(WordPacked(base, stage, word).value[1..]) == word % 4294967296
  {
    SumpDevice.OpcodeOfStage(base, stage);
    LittleEndianOfLeBytes(word);
    var op := SumpDevice.Opcode(base, stage);
    assert ([op] + LeBytes(word))[1..] == LeBytes(word);
  }

  /** Byte 4 of a configuration, `start << 3 | serial << 2 | (channel & 0x10)
      >> 4`, over the integer (or boolean) `start` and `serial` the stages
      hold. */
  function StartSerialBits(start: int, serial: int, channel: int): int
  {
    Or(Or(Shl(start, 3), Shl(serial, 2)), Bit(channel, 4))
  }

  /** `struct.pack('<BHBB', 0xC2 | (stage << 2), delay, (channel & 0x0F) << 4
      | level, start << 3 | serial << 2 | (channel & 0x10) >> 4)`. */
  function ConfigPacked(stage: int, delay: int, channel: int, level: int, start: int, serial: int): Result<seq<int>>
  {
    Cat(PackB(SumpDevice.Opcode(0xC2, stage)),
      Cat(PackH(delay),
        Cat(PackB(SumpDevice.ChannelLevelByte(channel, level)), PackB(StartSerialBits(start, serial, channel)))))
  }

  /** With boolean `start` and `serial`, a configuration is packed exactly
      when the stage is below 64, the delay fits 16 bits and the level is a
      byte; it is then the first draft's five configuration bytes. */
  lemma ConfigPackedAgrees(stage: int, delay: int, channel: int, level: int, start: bool, serial: bool)
    ensures var m := ConfigPacked(stage, delay, channel, level, B2I(start), B2I(serial));
      (m.Ok? <==> 0 <= stage < 64 && 0 <= delay < 65536 && IsByte(level)) &&
      (m.Err? ==> m.error == StructError) &&
      (m.Ok? ==> m.value == SumpDevice.ConfigBytes(stage, delay, channel, level, start, serial))
  {
    SumpDevice.OpcodeOfStage(0xC2, stage);
    SumpDevice.ChannelLevelRange(channel, level);
    SumpDevice.StartSerialValue(start, serial, channel);
    assert StartSerialBits(B2I(start), B2I(serial), channel) == SumpDevice.StartSerialByte(start, serial, channel);
    if 0 <= delay < 65536 {
      assert delay / 256 == (delay / 256) % 256;
    }
  }

  /** `struct.pack('<cHBx', '\x80', d & 0xFFFF, d >> 16)` with `d = divider -
      1`. */
  function DividerPacked(divider: int): Result<seq<int>>
  {
    var d := divider - 1;
    Cat(Ok([0x80]), Cat(PackH(d % 65536), Cat(PackB(d / 65536), Ok([0]))))
  }

  /** The divider message is packed exactly for dividers 1 .. 2^24, where
      the first draft's `chr`-masked message would have truncated; it is
      then the same five bytes. */
  lemma DividerPackedAgrees(divider: int)
    ensures DividerPacked(divider).Ok? <==> 1 <= divider <= 16777216
    ensures DividerPacked(divider).Err? ==> DividerPacked(divider).error == StructError
    ensures DividerPacked(divider).Ok? ==> DividerPacked(divider).value == SumpDevice.DividerMsg(divider)
  {
    var d := divider - 1;
    SumpDevice.Low16(d);
    DivUnique(d % 65536, 256, (d / 256) % 256, d % 256);
    DivDiv(d, 256, 256);
    if 0 <= d < 16777216 {
      assert d / 65536 < 256;
    }
  }

  /** `struct.pack('<cHH', '\x81', (read_count + 3) >> 2, (delay_count + 3) >>
      2)`. */
  function CountPacked(readCount: int, delayCount: int): Result<seq<int>>
  {
    Cat(Ok([0x81]), Cat(PackH(SumpDevice.Quarter(readCount)), PackH(SumpDevice.Quarter(delayCount))))
  }

  /** The count message is packed exactly when both quarter counts fit 16
      bits, where the first draft truncates instead; it is then the same
      five bytes. */
  lemma CountPackedAgrees(readCount: int, delayCount: int)
    ensures var m := CountPacked(readCount, delayCount);
      (m.Ok? <==> 0 <= SumpDevice.Quarter(readCount) < 65536 && 0 <= SumpDevice.Quarter(delayCount) < 65536) &&
      (m.Err? ==> m.error == StructError) &&
      (m.Ok? ==> m.value == SumpDevice.CountMsg(readCount, delayCount))
  {
  }

  /** `struct.pack('<cBxxx', '\x82', flags)`. */
  function FlagsPacked(inverted: bool, external: bool, channelGroups: int, filter: bool, demux: bool): Result<seq<int>>
  {
    Cat(Ok([0x82]), Cat(PackB(SumpDevice.FlagsByte(inverted, external, channelGroups, filter, demux)), Ok([0, 0, 0])))
  }

  /** The flags message is packed exactly for `channel_groups` 0 .. 63, and
      is then the first draft's five bytes. */
  lemma FlagsPackedAgrees(inverted: bool, external: bool, channelGroups: int, filter: bool, demux: bool)
    ensures var m := FlagsPacked(inverted, external, channelGroups, filter, demux);
      (m.Ok? <==> 0 <= channelGroups < 64) && (m.Err? ==> m.error == StructError) &&
      (m.Ok? ==> m == Ok(SumpDevice.FlagsMsg(inverted, external, channelGroups, filter, demux).bytes))
  {
    SumpDevice.FlagsRange(inverted, external, channelGroups, filter, demux);
    var f := SumpDevice.FlagsByte(inverted, external, channelGroups, filter, demux);
    assert [0x82] + ([f] + [0, 0, 0]) == [0x82, f, 0, 0, 0];
  }

  // ---------------------------------------------------------------------
  // `send_settings`

  /** One always-firing stage: configuration `(stage, 0, 0, 0, start, 0)`,
      then a zero mask, then a zero value. */
  function FixedStage(start: int, stage: nat): Emission
  {
    Then(Whole(ConfigPacked(stage, 0, 0, 0, start, 0)),
      Then(Whole(WordPacked(0xC0, stage, 0)), Whole(WordPacked(0xC1, stage, 0))))
  }

  function FixedStages(start: int): nat -> Emission
  {
    (st: nat) => FixedStage(start, st)
  }

  /** Stage `i` of the `'Complex'` loop over `enumerate(trigger_stages)`:
      mask, then value, then configuration. */
  function ComplexStage(stages: seq<TriggerStage>, i: nat): Emission
  {
    if i >= |stages| then Done([])
    else
      var st := stages[i];
      Then(Whole(WordPacked(0xC0, i, st.mask)),
        Then(Whole(WordPacked(0xC1, i, st.value)),
          Whole(ConfigPacked(i, st.delay, st.channel, st.level, st.start, st.serial))))
  }

  function ComplexStages(stages: seq<TriggerStage>): nat -> Emission
  {
    (i: nat) => ComplexStage(stages, i)
  }

  /** The `'Simple'` branch: stage 0 from `trigger_stages[0]` with level 0
      and start True, then fixed stages `1 .. trigger_max_stages - 1` with
      start False. */
  function SimpleBlock(stages: seq<TriggerStage>): Emission
  {
    if |stages| == 0 then Raise(IndexError)
    else
      var st := stages[0];
      Then(Whole(ConfigPacked(0, st.delay, st.channel, 0, 1, st.serial)),
        Then(Whole(WordPacked(0xC0, 0, st.mask)),
          Then(Whole(WordPacked(0xC1, 0, st.value)), Range(FixedStages(0), 1, |stages|))))
  }

  /** The trigger part of `send_settings`, with the method name at lines
      197, 205 and 208, the attribute at 206 and the exception at 219
      corrected. */
  function TriggerBlock(v: SettingsValue): Emission
  {
    if v.triggerEnable == "None" then Range(FixedStages(1), 0, |v.triggerStages|)
    else if v.triggerEnable == "Simple" then SimpleBlock(v.triggerStages)
    else if v.triggerEnable == "Complex" then Range(ComplexStages(v.triggerStages), 0, |v.triggerStages|)
    else Raise(SumpTriggerEnableError)
  }

  /** `send_settings` corrected: divider, triggers, then counts and flags. */
  function SendSettingsSpec(v: SettingsValue): Emission
  {
    Then(Whole(DividerPacked(v.divider)),
      Then(TriggerBlock(v),
        Then(Whole(CountPacked(v.readCount, v.delayCount)),
          Whole(FlagsPacked(v.inverted, v.external, v.channelGroups, v.filter, v.demux)))))
  }

  // ---------------------------------------------------------------------
  // What `send_settings` writes

  /** The first-draft message bytes, which this draft's messages equal
      whenever they are packed. */
  predicate PacksFlat(v: SettingsValue)
  {
    1 <= v.divider <= 16777216 &&
    0 <= SumpDevice.Quarter(v.readCount) < 65536 && 0 <= SumpDevice.Quarter(v.delayCount) < 65536 &&
    0 <= v.channelGroups < 64
  }

  /** A fixed stage below 64 is fifteen bytes and raises nothing: its
      configuration, mask and value opcodes open the three messages. */
  lemma FixedStageOk(start: bool, stage: nat)
    requires stage < 64
    ensures var e := FixedStage(B2I(start), stage);
      e.err.None? && |e.bytes| == 15 &&
      e.bytes[0] == SumpDevice.Opcode(0xC2, stage) && e.bytes[5] == SumpDevice.Opcode(0xC0, stage) &&
      e.bytes[10] == SumpDevice.Opcode(0xC1, stage)
  {
    ConfigPackedAgrees(stage, 0, 0, 0, start, false);
    WordPackedAgrees(0xC0, stage, 0);
    WordPackedAgrees(0xC1, stage, 0);
  }

  /** What a stage record must hold for stage `i` of the `'Complex'` loop
      to pack. */
  predicate StagePacks(st: TriggerStage, i: nat)
  {
    i < 64 && -2147483648 <= st.mask < 2147483648 && -2147483648 <= st.value < 2147483648 &&
    0 <= st.delay < 65536 && IsByte(SumpDevice.ChannelLevelByte(st.channel, st.level)) &&
    IsByte(StartSerialBits(st.start, st.serial, st.channel))
  }

  /** Stage `i` of the `'Complex'` loop raises nothing exactly when its
      record packs; it is then fifteen bytes: mask, value, configuration. */
  lemma ComplexStageOk(stages: seq<TriggerStage>, i: nat)
    requires i < |stages|
    ensures ComplexStage(stages, i).err.None? <==> StagePacks(stages[i], i)
    ensures StagePacks(stages[i], i) ==>
      var b := ComplexStage(stages, i).bytes;
      |b| == 15 && b[0] == SumpDevice.Opcode(0xC0, i) && b[5] == SumpDevice.Opcode(0xC1, i) &&
      b[10] == SumpDevice.Opcode(0xC2, i) && b[..5] == WordPacked(0xC0, i, stages[i].mask).value &&
      b[5..10] == WordPacked(0xC1, i, stages[i].value).value
  {
    var st := stages[i];
    WordPackedAgrees(0xC0, i, st.mask);
    WordPackedAgrees(0xC1, i, st.value);
    SumpDevice.OpcodeOfStage(0xC2, i);
  }

  /** `'None'`: with at most 64 stages, fifteen bytes per stage and no
      exception; stage `t` owns bytes `15 t .. 15 t + 15`. */
  lemma NoneBlockOk(n: nat)
    requires n <= 64
    ensures var e := Range(FixedStages(1), 0, n);
      e.err.None? && |e.bytes| == 15 * n &&
      forall t :: 0 <= t < n ==> 15 * t + 15 <= |e.bytes| && e.bytes[15 * t .. 15 * t + 15] == FixedStage(1, t).bytes
  {
    var f := FixedStages(1);
    forall t: nat | t < n
      ensures f(t).err.None? && |f(t).bytes| == 15
    {
      FixedStageOk(true, t);
    }
    StageSlices(f, n);
  }

  /** Stages of fifteen bytes each that raise nothing: stage `t` owns bytes
      `15 t .. 15 t + 15` of the block. */
  lemma StageSlices(f: nat -> Emission, n: nat)
    requires forall t :: 0 <= t < n ==> f(t).err.None? && |f(t).bytes| == 15
    ensures var e := Range(f, 0, n);
      e.err.None? && |e.bytes| == 15 * n &&
      forall t :: 0 <= t < n ==> 15 * t + 15 <= |e.bytes| && e.bytes[15 * t .. 15 * t + 15] == f(t).bytes
  {
    RangeSlices(f, n, 15);
    var e := Range(f, 0, n);
    forall t | 0 <= t < n
      ensures 15 * t + 15 <= |e.bytes| && e.bytes[15 * t .. 15 * t + 15] == f(t).bytes
    {
      assert 15 * t == t * 15;
    }
  }

  /** `'Complex'`: the block raises nothing exactly when every stage record
      packs, and is then fifteen bytes per stage in stage order. */
  lemma ComplexBlockOk(stages: seq<TriggerStage>)
    ensures Range(ComplexStages(stages), 0, |stages|).err.None? <==>
      forall i :: 0 <= i < |stages| ==> StagePacks(stages[i], i)
    ensures var e := Range(ComplexStages(stages), 0, |stages|);
      e.err.None? ==> |e.bytes| == 15 * |stages|
    ensures var e := Range(ComplexStages(stages), 0, |stages|);
      e.err.None? ==> forall t :: 0 <= t < |stages| ==>
        15 * t + 15 <= |e.bytes| && e.bytes[15 * t .. 15 * t + 15] == ComplexStage(stages, t).bytes
  {
    var f := ComplexStages(stages);
    var n := |stages|;
    forall i: nat | i < n
      ensures f(i).err.None? <==> StagePacks(stages[i], i)
      ensures f(i).err.None? ==> |f(i).bytes| == 15
    {
      ComplexStageOk(stages, i);
    }
    RangeOk(f, 0, n);
    if Range(f, 0, n).err.None? {
      StageSlices(f, n);
    }
  }

  /** When the triggers raise nothing and the flat messages pack, the
      divider comes first and the counts and flags come after the trigger
      messages, each equal to the first draft's message. */
  lemma SendSettingsLayout(v: SettingsValue)
    requires PacksFlat(v) && TriggerBlock(v).err.None?
    ensures var e := SendSettingsSpec(v);
      e.err.None? &&
      e.bytes == SumpDevice.DividerMsg(v.divider) + TriggerBlock(v).bytes + SumpDevice.CountMsg(v.readCount, v.delayCount) +
        SumpDevice.FlagsMsg(v.inverted, v.external, v.channelGroups, v.filter, v.demux).bytes
  {
    DividerPackedAgrees(v.divider);
    CountPackedAgrees(v.readCount, v.delayCount);
    FlagsPackedAgrees(v.inverted, v.external, v.channelGroups, v.filter, v.demux);
    var d, t, c := SumpDevice.DividerMsg(v.divider), TriggerBlock(v).bytes, SumpDevice.CountMsg(v.readCount, v.delayCount);
    var f := SumpDevice.FlagsMsg(v.inverted, v.external, v.channelGroups, v.filter, v.demux).bytes;
    AppendAssoc(d + t, c, f);
    AppendAssoc(d, t, c + f);
  }

  /** In `'None'` mode a valid run writes `5 + 15 n + 5 + 5` bytes. */
  lemma NoneSettingsLength(v: SettingsValue)
    requires PacksFlat(v) && v.triggerEnable == "None" && |v.triggerStages| <= 64
    ensures SendSettingsSpec(v).err.None? && |SendSettingsSpec(v).bytes| == 15 * |v.triggerStages| + 15
  {
    NoneBlockOk(|v.triggerStages|);
    SendSettingsLayout(v);
  }

  /** An unknown `trigger_enable` raises SumpTriggerEnableError after the
      divider message and before the counts and flags. */
  lemma UnknownModeAfterDivider(v: SettingsValue)
    requires 1 <= v.divider <= 16777216
    requires v.triggerEnable != "None" && v.triggerEnable != "Simple" && v.triggerEnable != "Complex"
    ensures SendSettingsSpec(v) == Emission(SumpDevice.DividerMsg(v.divider), Some(SumpTriggerEnableError))
  {
    DividerPackedAgrees(v.divider);
  }

  // ---------------------------------------------------------------------
  // `send_settings` as written

  /** The trigger part as written: `self._send_trigger_values` names no
      method (the class defines `_send_trigger_value`), so the first stage
      that gets that far raises AttributeError after its configuration and
      mask, or after its mask in `'Complex'`; and `errors` has no
      `TriggerEnableError`, so an unknown mode raises AttributeError too. */
  function TriggerBlockAsWritten(v: SettingsValue): Emission
  {
    var stages := v.triggerStages;
    if v.triggerEnable == "None" then
      if |stages| == 0 then Done([])
      else Then(Whole(ConfigPacked(0, 0, 0, 0, 1, 0)), Then(Whole(WordPacked(0xC0, 0, 0)), Raise(AttributeError)))
    else if v.triggerEnable == "Simple" then
      if |stages| == 0 then Raise(IndexError)
      else
        Then(Whole(ConfigPacked(0, stages[0].delay, stages[0].channel, 0, 1, stages[0].serial)),
          Then(Whole(WordPacked(0xC0, 0, stages[0].mask)), Raise(AttributeError)))
    else if v.triggerEnable == "Complex" then
      if |stages| == 0 then Done([])
      else Then(Whole(WordPacked(0xC0, 0, stages[0].mask)), Raise(AttributeError))
    else Raise(AttributeError)
  }

  function SendSettingsAsWritten(v: SettingsValue): Emission
  {
    Then(Whole(DividerPacked(v.divider)),
      Then(TriggerBlockAsWritten(v),
        Then(Whole(CountPacked(v.readCount, v.delayCount)),
          Whole(FlagsPacked(v.inverted, v.external, v.channelGroups, v.filter, v.demux)))))
  }

  /** As written, `'None'` mode with any stage at all raises AttributeError
      after the divider and stage 0's configuration and mask, where the
      corrected method writes every stage, the counts and the flags. */
  lemma ValuesMethodMissing(v: SettingsValue)
    requires PacksFlat(v) && v.triggerEnable == "None" && 1 <= |v.triggerStages| <= 64
    ensures SendSettingsAsWritten(v).err == Some(AttributeError)
    ensures SendSettingsAsWritten(v).bytes ==
      SumpDevice.DividerMsg(v.divider) + SumpDevice.ConfigBytes(0, 0, 0, 0, true, false) + SumpDevice.WordMsg(0xC0, 0, 0).bytes
    ensures SendSettingsSpec(v).err.None? && |SendSettingsSpec(v).bytes| == 15 * |v.triggerStages| + 15
  {
    DividerPackedAgrees(v.divider);
    ConfigPackedAgrees(0, 0, 0, 0, true, false);
    WordPackedAgrees(0xC0, 0, 0);
    var d, c, m := SumpDevice.DividerMsg(v.divider), SumpDevice.ConfigBytes(0, 0, 0, 0, true, false), SumpDevice.WordMsg(0xC0, 0, 0).bytes;
    AppendAssoc(d, c, m);
    NoneSettingsLength(v);
  }

  /** Lines 206-209 with line 205's method name corrected: the range bound
      `self.self.settings.trigger_max_stages` raises AttributeError, since
      an `Interface` has no attribute `self`. */
  function SimpleBlockSelfSelf(stages: seq<TriggerStage>): Emission
  {
    if |stages| == 0 then Raise(IndexError)
    else
      var st := stages[0];
      Then(Whole(ConfigPacked(0, st.delay, st.channel, 0, 1, st.serial)),
        Then(Whole(WordPacked(0xC0, 0, st.mask)),
          Then(Whole(WordPacked(0xC1, 0, st.value)), Raise(AttributeError))))
  }

  /** The four default stages (all zero but the level) are sent by the
      corrected `'Simple'` branch, and make the one with `self.self` raise. */
  lemma SelfSelfRaises()
    ensures SimpleBlockSelfSelf(LevelStages(4)).err == Some(AttributeError)
    ensures SimpleBlock(LevelStages(4)).err.None? && |SimpleBlock(LevelStages(4)).bytes| == 60
  {
    LevelStagesShape(4);
    ZeroHeadBlocks(LevelStages(4));
  }

  /** Four stages whose first is all zero: both `'Simple'` branches get
      past stage 0, where the corrected one goes on to sixty bytes. */
  lemma ZeroHeadBlocks(stages: seq<TriggerStage>)
    requires |stages| == 4 && stages[0] == TriggerStage(0, 0, 0, 0, 0, 0, 0)
    ensures SimpleBlockSelfSelf(stages).err == Some(AttributeError)
    ensures SimpleBlock(stages).err.None? && |SimpleBlock(stages).bytes| == 60
  {
    ConfigPackedAgrees(0, 0, 0, 0, true, false);
    WordPackedAgrees(0xC0, 0, 0);
    WordPackedAgrees(0xC1, 0, 0);
    var f := FixedStages(0);
    forall t: nat | t < 4
      ensures f(t).err.None? && |f(t).bytes| == 15
    {
      FixedStageOk(false, t);
    }
    RangeLength(f, 1, 4, 15);
  }

  /** As written, an unknown mode raises AttributeError (the lookup of
      `errors.TriggerEnableError`) where SumpTriggerEnableError is meant. */
  lemma TriggerEnableErrorMissing(v: SettingsValue)
    requires v.triggerEnable != "None" && v.triggerEnable != "Simple" && v.triggerEnable != "Complex"
    ensures TriggerBlockAsWritten(v) == Raise(AttributeError)
    ensures TriggerBlock(v) == Raise(SumpTriggerEnableError)
  {
  }

  // ---------------------------------------------------------------------
  // Capture lanes

  /** The lanes `capture` reads as written: the test `channel_groups & (0b1
      < i)` ANDs with a boolean, so it tests bit 0 for lanes 2 and 3 and
      nothing for lanes 0 and 1. */
  function LanesAsWritten(channelGroups: int, n: nat): seq<nat>
  {
    if n == 0 then []
    else LanesAsWritten(channelGroups, n - 1) + (if And(channelGroups, B2I(1 < n - 1)) == 0 then [n - 1] else [])
  }

  /** As written, lanes 0 and 1 are always read, and lanes 2 and 3 exactly
      when bit 0 of `channel_groups` is clear. */
  lemma LanesAsWrittenShape(channelGroups: int)
    ensures LanesAsWritten(channelGroups, 4) == if channelGroups % 2 == 0 then [0, 1, 2, 3] else [0, 1]
  {
    AndZero(channelGroups);
    AndLowMask(channelGroups, 1);
    assert Pow2(1) == 2;
    assert B2I(1 < 0) == 0 && B2I(1 < 1) == 0 && B2I(1 < 2) == 1 && B2I(1 < 3) == 1;
    assert LanesAsWritten(channelGroups, 0) == [];
    assert LanesAsWritten(channelGroups, 1) == [0];
    assert LanesAsWritten(channelGroups, 2) == [0, 1];
  }

  /** `channel_groups == 2` disables lane 1: the intended test `&
      (1 << i)` reads lanes 0, 2 and 3, the written one all four. */
  lemma LaneTestCounterexample()
    ensures LanesAsWritten(2, 4) == [0, 1, 2, 3]
    ensures EnabledLanes(2, 4) == [0, 2, 3]
  {
    LanesAsWrittenShape(2);
    assert Pow2(0) == 1 && Pow2(1) == 2 && Pow2(2) == 4 && Pow2(3) == 8;
    assert Bit(2, 0) == 0 && Bit(2, 1) == 1 && Bit(2, 2) == 0 && Bit(2, 3) == 0;
    assert EnabledLanes(2, 2) == [0];
  }

  // ---------------------------------------------------------------------
  // The interface

  /** The number of samples `capture` asks for: `xrange(read_count)` is
      empty for a negative count. */
  function CaptureCount(v: SettingsValue): nat
  {
    if v.readCount < 0 then 0 else v.readCount
  }

  /** What `capture` returns for the bytes `s` the device sends: the
      samples in arrival order, reversed with `latest_first`, or TypeError
      when the stream ends early. */
  function CaptureOf(v: SettingsValue, s: seq<int>): (r: Result<seq<int>>)
  {
    CaptureFrom(s, EnabledLanes(v.channelGroups, 4), CaptureCount(v), v.latestFirst)
  }

  /** `n` readings of `lanes` from `s`, in arrival order or reversed. */
  function CaptureFrom(s: seq<int>, lanes: seq<nat>, n: nat, reversed: bool): Result<seq<int>>
  {
    if n * |lanes| <= |s| then
      Ok(if reversed then Reverse(Samples(s, lanes, n)) else Samples(s, lanes, n))
    else Err(TypeError)
  }

  /** Sample `j` of a capture is the `k`-th reading of the stream, where
      `k == j`, or `n - 1 - j` with `latest_first`; `SampleBytes` says
      which bytes of the stream each reading holds. */
  lemma CaptureOfSample(v: SettingsValue, s: seq<int>, j: nat)
    requires CaptureOf(v, s).Ok? && j < CaptureCount(v)
    ensures CaptureCount(v) * |EnabledLanes(v.channelGroups, 4)| <= |s|
    ensures |CaptureOf(v, s).value| == CaptureCount(v)
    ensures CaptureOf(v, s).value[j] ==
      Samples(s, EnabledLanes(v.channelGroups, 4), CaptureCount(v))[if v.latestFirst then CaptureCount(v) - 1 - j else j]
  {
    CaptureFromSample(s, EnabledLanes(v.channelGroups, 4), CaptureCount(v), v.latestFirst, j);
  }

  lemma CaptureFromSample(s: seq<int>, lanes: seq<nat>, n: nat, reversed: bool, j: nat)
    requires CaptureFrom(s, lanes, n, reversed).Ok? && j < n
    ensures n * |lanes| <= |s|
    ensures |CaptureFrom(s, lanes, n, reversed).value| == n
    ensures CaptureFrom(s, lanes, n, reversed).value[j] == Samples(s, lanes, n)[if reversed then n - 1 - j else j]
  {
  }

  /** `Interface` over a port and a settings object. `__init__` is not
      part of this model: the constructor only binds the two. */
  class Interface {
    const port: Port
    var settings: Settings

    constructor (port: Port, settings: Settings)
      ensures this.port == port && this.settings == settings
    {
      this.port := port;
      this.settings := settings;
    }

    /** `reset()`: five zero bytes in one write. */
    method Reset()
      modifies port`output
      ensures port.output == old(port.output) + [0, 0, 0, 0, 0]
    {
      port.Write([0, 0, 0, 0, 0]);
    }

    /** `self.port.write(struct.pack(...))`: a message that fails to pack
        raises before anything is written. */
    method WritePacked(m: Result<seq<int>>) returns (err: Option<Error>)
      modifies port`output
      ensures port.output == old(port.output) + Whole(m).bytes
      ensures err == Whole(m).err
    {
      if m.Err? {
        return Some(m.error);
      }
      port.Write(m.value);
      return None;
    }

    method SendTriggerMask(stage: int, mask: int) returns (err: Option<Error>)
      modifies port`output
      ensures port.output == old(port.output) + Whole(WordPacked(0xC0, stage, mask)).bytes
      ensures err == Whole(WordPacked(0xC0, stage, mask)).err
    {
      err := WritePacked(WordPacked(0xC0, stage, mask));
    }

    method SendTriggerValue(stage: int, value: int) returns (err: Option<Error>)
      modifies port`output
      ensures port.output == old(port.output) + Whole(WordPacked(0xC1, stage, value)).bytes
      ensures err == Whole(WordPacked(0xC1, stage, value)).err
    {
      err := WritePacked(WordPacked(0xC1, stage, value));
    }

    method SendTriggerConfiguration(stage: int, delay: int, channel: int, level: int, start: int, serial: int)
      returns (err: Option<Error>)
      modifies port`output
      ensures port.output == old(port.output) + Whole(ConfigPacked(stage, delay, channel, level, start, serial)).bytes
      ensures err == Whole(ConfigPacked(stage, delay, channel, level, start, serial)).err
    {
      err := WritePacked(ConfigPacked(stage, delay, channel, level, start, serial));
    }

    method SendDividerSettings(s: Settings) returns (err: Option<Error>)
      modifies port`output
      ensures port.output == old(port.output) + Whole(DividerPacked(s.divider)).bytes
      ensures err == Whole(DividerPacked(s.divider)).err
    {
      err := WritePacked(DividerPacked(s.divider));
    }

    method SendReadAndDelayCountSettings(s: Settings) returns (err: Option<Error>)
      modifies port`output
      ensures port.output == old(port.output) + Whole(CountPacked(s.readCount, s.delayCount)).bytes
      ensures err == Whole(CountPacked(s.readCount, s.delayCount)).err
    {
      err := WritePacked(CountPacked(s.readCount, s.delayCount));
    }

    method SendFlagsSettings(s: Settings) returns (err: Option<Error>)
      modifies port`output
      ensures port.output == old(port.output) + Whole(FlagsPacked(s.inverted, s.external, s.channelGroups, s.filter, s.demux)).bytes
      ensures err == Whole(FlagsPacked(s.inverted, s.external, s.channelGroups, s.filter, s.demux)).err
    {
      err := WritePacked(FlagsPacked(s.inverted, s.external, s.channelGroups, s.filter, s.demux));
    }

    /** One fixed stage: configuration, mask, value, stopping at the first
        that fails to pack. */
    method SendFixedStage(start: int, stage: nat) returns (err: Option<Error>)
      modifies port`output
      ensures port.output == old(port.output) + FixedStage(start, stage).bytes
      ensures err == FixedStage(start, stage).err
    {
      ghost var o := port.output;
      ghost var c := Whole(ConfigPacked(stage, 0, 0, 0, start, 0));
      ghost var m, v := Whole(WordPacked(0xC0, stage, 0)), Whole(WordPacked(0xC1, stage, 0));
      err := SendTriggerConfiguration(stage, 0, 0, 0, start, 0);
      if err.Some? {
        return;
      }
      err := SendTriggerMask(stage, 0);
      AppendAssoc(o, c.bytes, m.bytes);
      if err.Some? {
        return;
      }
      err := SendTriggerValue(stage, 0);
      AppendAssoc(o + c.bytes, m.bytes, v.bytes);
      AppendAssoc(o, c.bytes, m.bytes + v.bytes);
    }

    /** `for stage in xrange(lo, hi)` over fixed stages. */
    method SendFixedStages(start: int, lo: nat, hi: nat) returns (err: Option<Error>)
      requires lo <= hi
      modifies port`output
      ensures port.output == old(port.output) + Range(FixedStages(start), lo, hi).bytes
      ensures err == Range(FixedStages(start), lo, hi).err
    {
      ghost var f := FixedStages(start);
      var stage := lo;
      assert Range(f, lo, lo) == Done([]);
      while stage < hi
        invariant lo <= stage <= hi
        invariant Range(f, lo, stage).err.None?
        invariant port.output == old(port.output) + Range(f, lo, stage).bytes
      {
        ghost var r := Range(f, lo, stage);
        RangeNext(f, lo, stage, hi);
        err := SendFixedStage(start, stage);
        AppendAssoc(old(port.output), r.bytes, f(stage).bytes);
        if err.Some? {
          return;
        }
        stage := stage + 1;
      }
      return None;
    }

    /** Stage `i` of the `'Complex'` loop: mask, value, configuration. */
    method SendComplexStage(stages: seq<TriggerStage>, i: nat) returns (err: Option<Error>)
      requires i < |stages|
      modifies port`output
      ensures port.output == old(port.output) + ComplexStage(stages, i).bytes
      ensures err == ComplexStage(stages, i).err
    {
      var st := stages[i];
      ghost var o := port.output;
      ghost var m, v := Whole(WordPacked(0xC0, i, st.mask)), Whole(WordPacked(0xC1, i, st.value));
      ghost var c := Whole(ConfigPacked(i, st.delay, st.channel, st.level, st.start, st.serial));
      err := SendTriggerMask(i, st.mask);
      if err.Some? {
        return;
      }
      err := SendTriggerValue(i, st.value);
      AppendAssoc(o, m.bytes, v.bytes);
      if err.Some? {
        return;
      }
      err := SendTriggerConfiguration(i, st.delay, st.channel, st.level, st.start, st.serial);
      AppendAssoc(o + m.bytes, v.bytes, c.bytes);
      AppendAssoc(o, m.bytes, v.bytes + c.bytes);
    }

    /** `for (i, stage) in enumerate(trigger_stages)`. */
    method SendComplexStages(stages: seq<TriggerStage>) returns (err: Option<Error>)
      modifies port`output
      ensures port.output == old(port.output) + Range(ComplexStages(stages), 0, |stages|).bytes
      ensures err == Range(ComplexStages(stages), 0, |stages|).err
    {
      ghost var f := ComplexStages(stages);
      var i := 0;
      while i < |stages|
        invariant i <= |stages| && Range(f, 0, i).err.None?
        invariant port.output == old(port.output) + Range(f, 0, i).bytes
      {
        RangeNext(f, 0, i, |stages|);
        err := SendComplexStage(stages, i);
        AppendAssoc(old(port.output), Range(f, 0, i).bytes, f(i).bytes);
        if err.Some? {
          return;
        }
        i := i + 1;
      }
      return None;
    }

    /** The `'Simple'` branch: stage 0 of the list, with its three
        attributes looked up before the call, then the fixed stages. */
    method SendSimpleTriggers(stages: seq<TriggerStage>) returns (err: Option<Error>)
      modifies port`output
      ensures port.output == old(port.output) + SimpleBlock(stages).bytes
      ensures err == SimpleBlock(stages).err
    {
      if |stages| == 0 {
        return Some(IndexError);
      }
      var st := stages[0];
      ghost var o := port.output;
      ghost var c := Whole(ConfigPacked(0, st.delay, st.channel, 0, 1, st.serial));
      ghost var t := Then(Whole(WordPacked(0xC0, 0, st.mask)),
        Then(Whole(WordPacked(0xC1, 0, st.value)), Range(FixedStages(0), 1, |stages|)));
      assert SimpleBlock(stages) == Then(c, t);
      err := SendTriggerConfiguration(0, st.delay, st.channel, 0, 1, st.serial);
      if err.Some? {
        return;
      }
      err := SendSimpleRest(st, |stages|);
      AppendAssoc(o, c.bytes, t.bytes);
    }

    /** The `'Simple'` branch after stage 0's configuration. */
    method SendSimpleRest(st: TriggerStage, n: nat) returns (err: Option<Error>)
      requires n >= 1
      modifies port`output
      ensures var e := Then(Whole(WordPacked(0xC0, 0, st.mask)), Then(Whole(WordPacked(0xC1, 0, st.value)), Range(FixedStages(0), 1, n)));
        port.output == old(port.output) + e.bytes && err == e.err
    {
      ghost var o := port.output;
      ghost var m, v := Whole(WordPacked(0xC0, 0, st.mask)), Whole(WordPacked(0xC1, 0, st.value));
      ghost var r := Range(FixedStages(0), 1, n);
      err := SendTriggerMask(0, st.mask);
      if err.Some? {
        return;
      }
      err := SendTriggerValue(0, st.value);
      AppendAssoc(o, m.bytes, v.bytes);
      if err.Some? {
        return;
      }
      err := SendFixedStages(0, 1, n);
      AppendAssoc(o + m.bytes, v.bytes, r.bytes);
      AppendAssoc(o, m.bytes, v.bytes + r.bytes);
    }

    /** The trigger part of `send_settings`, chosen by `trigger_enable`. */
    method SendTriggers(s: Settings) returns (err: Option<Error>)
      modifies port`output
      ensures port.output == old(port.output) + TriggerBlock(s.Value()).bytes
      ensures err == TriggerBlock(s.Value()).err
    {
      if s.triggerEnable == "None" {
        err := SendFixedStages(1, 0, |s.triggerStages|);
      } else if s.triggerEnable == "Simple" {
        err := SendSimpleTriggers(s.triggerStages);
      } else if s.triggerEnable == "Complex" {
        err := SendComplexStages(s.triggerStages);
      } else {
        err := Some(SumpTriggerEnableError);
      }
    }

    /** `send_settings()` on `self.settings`: divider, triggers, counts,
        flags, stopping at the first exception. */
    method SendSettings() returns (err: Option<Error>)
      modifies port`output
      ensures port.output == old(port.output) + SendSettingsSpec(settings.Value()).bytes
      ensures err == SendSettingsSpec(settings.Value()).err
    {
      var s := settings;
      ghost var v := s.Value();
      ghost var o := port.output;
      ghost var d, t := Whole(DividerPacked(v.divider)), TriggerBlock(v);
      ghost var c := Whole(CountPacked(v.readCount, v.delayCount));
      ghost var f := Whole(FlagsPacked(v.inverted, v.external, v.channelGroups, v.filter, v.demux));
      err := SendDividerSettings(s);
      if err.Some? {
        return;
      }
      err := SendTriggers(s);
      AppendAssoc(o, d.bytes, t.bytes);
      if err.Some? {
        return;
      }
      err := SendCountsAndFlags(s);
      AppendAssoc(o + d.bytes, t.bytes, Then(c, f).bytes);
      AppendAssoc(o, d.bytes, t.bytes + Then(c, f).bytes);
    }

    /** The last two messages of `send_settings`. */
    method SendCountsAndFlags(s: Settings) returns (err: Option<Error>)
      modifies port`output
      ensures var e := Then(Whole(CountPacked(s.readCount, s.delayCount)),
        Whole(FlagsPacked(s.inverted, s.external, s.channelGroups, s.filter, s.demux)));
        port.output == old(port.output) + e.bytes && err == e.err
    {
      ghost var o := port.output;
      ghost var c := Whole(CountPacked(s.readCount, s.delayCount));
      ghost var f := Whole(FlagsPacked(s.inverted, s.external, s.channelGroups, s.filter, s.demux));
      err := SendReadAndDelayCountSettings(s);
      if err.Some? {
        return;
      }
      err := SendFlagsSettings(s);
      AppendAssoc(o, c.bytes, f.bytes);
    }
  
    /** The `ufs` loop of `capture`, with the lane test read as the
        intended `channel_groups & (1 << i)`: one entry per lane whose bit
        is clear, in ascending order. */
    method BuildLanes(channelGroups: int) returns (lanes: seq<nat>)
      ensures lanes == EnabledLanes(channelGroups, 4)
    {
      lanes := [];
      var i := 0;
      while i < 4
        invariant i <= 4 && lanes == EnabledLanes(channelGroups, i)
      {
        if Bit(channelGroups, i) == 0 {
          lanes := lanes + [i];
        }
        i := i + 1;
      }
    }

    /** The sample loop of `capture`: `n` samples appended in the order
        they are read; at end of stream `ord('')` raises TypeError. */
    method ReadSamples(n: nat, lanes: seq<nat>) returns (r: Result<seq<int>>)
      requires port.Valid() && Ascending(lanes)
      modifies port`pos
      ensures port.Valid()
      ensures n * |lanes| <= |old(port.Remaining())| ==>
        r == Ok(Samples(old(port.Remaining()), lanes, n)) && port.pos == old(port.pos) + n * |lanes|
      ensures n * |lanes| > |old(port.Remaining())| ==> r == Err(TypeError) && port.pos == |port.input|
    {
      ghost var w := |lanes|;
      ghost var s0 := port.Remaining();
      ghost var p0 := port.pos;
      var d: seq<int> := [];
      ghost var used: nat := 0;
      var k := 0;
      while k < n
        invariant port.Valid() && port.input == old(port.input)
        invariant k <= n && used == k * w && used <= |s0| && port.pos == p0 + used
        invariant d == Samples(s0, lanes, k)
      {
        DropDrop(port.input, p0, used);
        var v := ReadSample(port, lanes);
        if v.Err? {
          ShortStream(w, k, n, |s0|);
          return Err(TypeError);
        }
        SamplesNext(s0, lanes, k);
        d := d + [v.value];
        used := used + w;
        k := k + 1;
      }
      return Ok(d);
    }

    /** `capture(send_settings)` after the optional `send_settings()`: the
        port takes the settings' timeout, `0x01` starts the capture,
        `read_count` samples are read (none for a negative count), a reset
        follows, and the result is `CaptureOf` the bytes the device sent. */
    method CaptureSamples() returns (r: Result<seq<int>>)
      requires port.Valid()
      modifies port`output, port`pos, port`timeout
      ensures port.Valid() && port.timeout == settings.timeout
      ensures r == CaptureOf(settings.Value(), old(port.Remaining()))
      ensures r.Ok? ==> port.output == old(port.output) + [0x01] + [0, 0, 0, 0, 0]
      ensures r.Ok? ==> port.pos == old(port.pos) + CaptureCount(settings.Value()) * |EnabledLanes(settings.channelGroups, 4)|
      ensures r.Err? ==> port.output == old(port.output) + [0x01] && port.pos == |port.input|
    {
      var s := settings;
      var lanes := BuildLanes(s.channelGroups);
      port.timeout := s.timeout;
      port.Write([0x01]);
      var n := if s.readCount < 0 then 0 else s.readCount;
      var d := ReadSamples(n, lanes);
      if d.Err? {
        return d;
      }
      Reset();
      if s.latestFirst {
        return Ok(Reverse(d.value));
      }
      return d;
    }

    /** `capture(send_settings)`: an exception from `send_settings` ends
        the capture before `0x01` is written, with the port otherwise as it
        was. Otherwise the settings' bytes come first (when they are sent)
        and the capture happens on what follows, since sending settings
        reads nothing. */
    method Capture(sendSettings: bool) returns (r: Result<seq<int>>)
      requires port.Valid()
      modifies port`output, port`pos, port`timeout
      ensures port.Valid()
      ensures sendSettings && SendSettingsSpec(settings.Value()).err.Some? ==>
        r == Err(SendSettingsSpec(settings.Value()).err.value) &&
        port.output == old(port.output) + SendSettingsSpec(settings.Value()).bytes &&
        port.pos == old(port.pos) && port.timeout == old(port.timeout)
      ensures !sendSettings || SendSettingsSpec(settings.Value()).err.None? ==>
        r == CaptureOf(settings.Value(), old(port.Remaining())) && port.timeout == settings.timeout
      ensures !sendSettings || SendSettingsSpec(settings.Value()).err.None? ==>
        var pre := if sendSettings then SendSettingsSpec(settings.Value()).bytes else [];
        (r.Ok? ==>
           port.output == old(port.output) + pre + [0x01] + [0, 0, 0, 0, 0] &&
           port.pos == old(port.pos) + CaptureCount(settings.Value()) * |EnabledLanes(settings.channelGroups, 4)|) &&
        (r.Err? ==>
           port.output == old(port.output) + pre + [0x01] && port.pos == |port.input|)
    {
      ghost var pre: seq<int> := [];
      if sendSettings {
        var err := SendSettings();
        if err.Some? {
          return Err(err.value);
        }
        pre := SendSettingsSpec(settings.Value()).bytes;
      }
      assert port.output == old(port.output) + pre;
      r := CaptureSamples();
    }

    /** `id_string()`: `0x02`, then the four reply bytes reversed. */
    method IdString() returns (r: seq<int>)
      requires port.Valid()
      modifies port`output, port`pos
      ensures port.Valid()
      ensures port.output == old(port.output) + [0x02]
      ensures r == Reverse(old(port.Remaining())[..Min(4, |old(port.Remaining())|)])
      ensures port.pos == old(port.pos) + |r|
    {
      port.Write([0x02]);
      var val := port.Read(4);
      r := Reverse(val);
    }

    method Xon()
      modifies port`output
      ensures port.output == old(port.output) + [0x11]
    {
      port.Write([0x11]);
    }

    method Xoff()
      modifies port`output
      ensures port.output == old(port.output) + [0x13]
    {
      port.Write([0x13]);
    }

    /** `query_metadata()`: a reset, `0x04` under a 2-second timeout, the
        token loop, and the timeout restored. */
    method QueryMetadata() returns (r: Result<seq<Token>>)
      requires port.Valid()
      modifies port`output, port`pos, port`timeout
      ensures port.Valid() && port.timeout == old(port.timeout)
      ensures port.output == old(port.output) + [0, 0, 0, 0, 0] + [0x04]
      ensures r == Tokens(old(port.Remaining())).result
      ensures port.pos == old(port.pos) + Tokens(old(port.Remaining())).used
    {
      Reset();
      var timeout := port.timeout;
      port.timeout := Seconds(2);
      port.Write([0x04]);
      r := ReadTokens(port);
      port.timeout := timeout;
    }
  }
}
