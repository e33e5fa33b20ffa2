/** sump2/settings.py: the third draft's trigger set and device settings,
    each packed with `struct` into the messages of the SUMP protocol. */
module Sump2Settings {
  import opened Common
  import opened Struct
  import opened SumpOps
  import opened Wire
  import SumpDevice
  import SumpInterface

  /** A dictionary of settings or of one trigger stage. The draft's `True`
      and `False` are stored as 1 and 0, which is what `int()` makes of
      them when the messages are packed. */
  type Record = map<string, int>

  /** The number of steps of `xrange(n)`. */
  function Count(n: int): nat
  {
    if n < 0 then 0 else n
  }

  /** `no_trigger`: a stage that always fires. */
  const NO_TRIGGER: Record :=
    map["mask" := 0, "value" := 0, "delay" := 0, "channel" := 0, "level" := 0, "start" := 1, "serial" := 0]

  /** `default_trigger` and `default_simple_trigger` are copies of
      `no_trigger`. */
  const DEFAULT_TRIGGER: Record := NO_TRIGGER
  const DEFAULT_SIMPLE_TRIGGER: Record := NO_TRIGGER

  /** `trigger_op_codes`, one opcode per stage 0 .. 3. */
  const MASK_OPCODES: seq<int> := [0xC0, 0xC4, 0xC8, 0xCC]
  const VALUE_OPCODES: seq<int> := [0xC1, 0xC5, 0xC9, 0xCD]
  const CONFIG_OPCODES: seq<int> := [0xC2, 0xC6, 0xCA, 0xCE]

  /** `settings_op_codes`. */
  const DIVIDER_OPCODE: int := 0x80
  const COUNT_OPCODE: int := 0x81
  const FLAGS_OPCODE: int := 0x82

  /** The tables spell out `0xC0 | s << 2`, `0xC1 | s << 2` and
      `0xC2 | s << 2`: the opcodes the other drafts compute. */
  lemma OpcodeTables()
    ensures |MASK_OPCODES| == 4 && |VALUE_OPCODES| == 4 && |CONFIG_OPCODES| == 4
    ensures forall s :: 0 <= s < 4 ==>
      MASK_OPCODES[s] == SumpDevice.Opcode(0xC0, s) &&
      VALUE_OPCODES[s] == SumpDevice.Opcode(0xC1, s) &&
      CONFIG_OPCODES[s] == SumpDevice.Opcode(0xC2, s)
  {
    forall s | 0 <= s < 4
      ensures MASK_OPCODES[s] == SumpDevice.Opcode(0xC0, s)
      ensures VALUE_OPCODES[s] == SumpDevice.Opcode(0xC1, s)
      ensures CONFIG_OPCODES[s] == SumpDevice.Opcode(0xC2, s)
    {
      SumpDevice.OpcodeOfStage(0xC0, s);
      SumpDevice.OpcodeOfStage(0xC1, s);
      SumpDevice.OpcodeOfStage(0xC2, s);
    }
  }

  // ---------------------------------------------------------------------
  // The stage lists the three trigger modes build

  /** `disable`: a copy of `no_trigger` per stage, numbered. */
  function DisabledStages(n: int): seq<Record>
  {
    seq(Count(n), i => NO_TRIGGER["stage" := i])
  }

  /** `simple(trigger)`: stage 0 is the defaults updated with the caller's
      fields and numbered 0; stages 1 .. n-1 always fire at their own
      level. Stage 0 is there even when `n` is below 1. */
  function SimpleStages(trigger: Record, n: int): seq<Record>
  {
    [(DEFAULT_SIMPLE_TRIGGER + trigger)["stage" := 0]] +
    seq(Count(n - 1), i => NO_TRIGGER["stage" := i + 1]["level" := i + 1])
  }

  /** Stage `i` of `complex(stages)`: the defaults numbered and levelled
      `i` and updated with the caller's stage `i`, or past the caller's
      list a stage that never starts the capture. */
  function ComplexStage(stages: seq<Record>, i: nat): Record
  {
    if i >= |stages| then NO_TRIGGER["stage" := i]["level" := i]["start" := 0]
    else DEFAULT_TRIGGER["stage" := i]["level" := i] + stages[i]
  }

  function ComplexStages(stages: seq<Record>, n: int): seq<Record>
  {
    seq(Count(n), i requires 0 <= i => ComplexStage(stages, i))
  }

  /** The value of field `k`, the caller's if given, else `no_trigger`'s. */
  function Field(fields: Record, k: string): int
  {
    if k in fields then fields[k] else if k in NO_TRIGGER then NO_TRIGGER[k] else 0
  }

  /** Disabled: one always-firing stage per number, at level 0. */
  lemma DisabledShape(n: int)
    ensures |DisabledStages(n)| == Count(n)
    ensures forall i :: 0 <= i < Count(n) ==>
      DisabledStages(n)[i]["stage"] == i && DisabledStages(n)[i]["level"] == 0 &&
      DisabledStages(n)[i]["start"] == 1 && DisabledStages(n)[i]["mask"] == 0 && DisabledStages(n)[i]["value"] == 0
  {
  }

  /** Simple: stage 0 carries the caller's fields over the defaults except
      its number, which is 0 whatever the caller says; every later stage
      `i` always fires at level `i`. */
  lemma SimpleShape(trigger: Record, n: int)
    ensures |SimpleStages(trigger, n)| == (if n < 1 then 1 else n)
    ensures SimpleStages(trigger, n)[0]["stage"] == 0
    ensures forall k :: k in NO_TRIGGER && k != "stage" ==> SimpleStages(trigger, n)[0][k] == Field(trigger, k)
    ensures forall i :: 1 <= i < |SimpleStages(trigger, n)| ==>
      SimpleStages(trigger, n)[i] == NO_TRIGGER["stage" := i]["level" := i]
  {
    var r := SimpleStages(trigger, n);
    forall k | k in NO_TRIGGER && k != "stage"
      ensures r[0][k] == Field(trigger, k)
    {
      assert r[0][k] == (NO_TRIGGER + trigger)[k];
    }
  }

  /** Complex: stage `i` is numbered and levelled `i` unless the caller's
      stage `i` says otherwise, and past the caller's list it never starts
      the capture. */
  lemma ComplexShape(stages: seq<Record>, n: int)
    ensures |ComplexStages(stages, n)| == Count(n)
    ensures forall i :: 0 <= i < |stages| && i < Count(n) ==>
      ComplexStages(stages, n)[i]["stage"] == (if "stage" in stages[i] then stages[i]["stage"] else i) &&
      ComplexStages(stages, n)[i]["level"] == (if "level" in stages[i] then stages[i]["level"] else i) &&
      forall k :: k in NO_TRIGGER && k != "level" ==> ComplexStages(stages, n)[i][k] == Field(stages[i], k)
    ensures forall i :: |stages| <= i < Count(n) ==>
      ComplexStages(stages, n)[i]["stage"] == i && ComplexStages(stages, n)[i]["level"] == i &&
      ComplexStages(stages, n)[i]["start"] == 0 && ComplexStages(stages, n)[i]["mask"] == 0
  {
  }

  // ---------------------------------------------------------------------
  // Packing the stages

  /** The fields `_pack_stage` reads. */
  predicate HasFields(t: Record)
  {
    "delay" in t && "channel" in t && "level" in t && "start" in t && "serial" in t && "mask" in t && "value" in t
  }

  /** The fields the configuration message of `_pack_stage` reads. */
  predicate HasConfigFields(t: Record)
  {
    "delay" in t && "channel" in t && "level" in t && "start" in t && "serial" in t
  }

  /** `_pack_stage(i)`: `struct.pack('<cHBB', config[i], delay, (channel &
      0x0F) << 4 | level, start << 3 | serial << 2 | (channel & 0x10) >>
      4)`, then `'<ci'` of the mask and of the value under their opcodes.
      The stage list and the opcode tables are indexed first: either one
      too short raises IndexError. Each message looks up its own fields
      just before it is packed, so a missing `'mask'` or `'value'` is only
      noticed once the messages before it have packed. */
  function PackStage(stages: seq<Record>, i: nat): Result<seq<int>>
  {
    if i >= |stages| || i >= 4 then Err(IndexError)
    else
      var t := stages[i];
      if !HasConfigFields(t) then Err(KeyError)
      else
        var config := Cat(Ok([CONFIG_OPCODES[i]]),
          Cat(PackH(t["delay"]),
            Cat(PackB(SumpDevice.ChannelLevelByte(t["channel"], t["level"])),
              PackB(SumpInterface.StartSerialBits(t["start"], t["serial"], t["channel"])))));
        Cat(config,
          if "mask" !in t then Err(KeyError)
          else Cat(Cat(Ok([MASK_OPCODES[i]]), PackI(t["mask"])),
            if "value" !in t then Err(KeyError) else Cat(Ok([VALUE_OPCODES[i]]), PackI(t["value"]))))
  }

  /** The fields of a stage can be packed. */
  predicate StagePacks(t: Record)
  {
    HasFields(t) && 0 <= t["delay"] < 65536 &&
    IsByte(SumpDevice.ChannelLevelByte(t["channel"], t["level"])) &&
    IsByte(SumpInterface.StartSerialBits(t["start"], t["serial"], t["channel"])) &&
    -2147483648 <= t["mask"] < 2147483648 && -2147483648 <= t["value"] < 2147483648
  }

  /** A stage packs exactly when it exists, is one of the first four and
      its fields fit their formats; it is then the second draft's
      configuration, mask and value messages in that order, 15 bytes in
      all. */
  lemma PackStageAgrees(stages: seq<Record>, i: nat)
    ensures PackStage(stages, i).Ok? <==> i < |stages| && i < 4 && StagePacks(stages[i])
    ensures i < |stages| && i < 4 && HasFields(stages[i]) ==>
      var t := stages[i];
      PackStage(stages, i) ==
        Cat(SumpInterface.ConfigPacked(i, t["delay"], t["channel"], t["level"], t["start"], t["serial"]),
          Cat(SumpInterface.WordPacked(0xC0, i, t["mask"]), SumpInterface.WordPacked(0xC1, i, t["value"])))
    ensures PackStage(stages, i).Ok? ==> |PackStage(stages, i).value| == 15
  {
    if i < |stages| && i < 4 && HasFields(stages[i]) {
      OpcodeTables();
      SumpDevice.OpcodeOfStage(0xC2, i);
    }
  }

  lemma PackStageLength(stages: seq<Record>, i: nat)
    ensures PackStage(stages, i).Ok? ==> |PackStage(stages, i).value| == 15
  {
  }

  /** `Triggers.pack`: the stages `0 .. n-1` packed and joined. */
  function PackAll(stages: seq<Record>, n: int): Result<seq<int>>
  {
    Join((i: nat) => PackStage(stages, i), n)
  }

  /** The trigger set packs exactly when each of its `n` stages does; it
      is then `15 * n` bytes with stage `i` at offset `15 * i`. */
  lemma PackAllLayout(stages: seq<Record>, n: nat)
    ensures PackAll(stages, n).Ok? <==> n <= |stages| && n <= 4 && forall i :: 0 <= i < n ==> StagePacks(stages[i])
    ensures PackAll(stages, n).Ok? ==> |PackAll(stages, n).value| == 15 * n
    ensures PackAll(stages, n).Ok? ==> forall i: nat :: i < n ==>
      PackAll(stages, n).value[i * 15 .. i * 15 + 15] == PackStage(stages, i).value
  {
    PackAllOk(stages, n);
    if PackAll(stages, n).Ok? {
      var f := (i: nat) => PackStage(stages, i);
      forall i: nat | i < n
        ensures f(i).Ok? && |f(i).value| == 15
      {
        PackStageLength(stages, i);
      }
      JoinLayout(f, n, 15);
    }
  }

  /** The trigger set packs exactly when it has `n` stages, at most four,
      and each of them fits its formats. */
  lemma PackAllOk(stages: seq<Record>, n: nat)
    ensures PackAll(stages, n).Ok? <==> n <= |stages| && n <= 4 && forall i :: 0 <= i < n ==> StagePacks(stages[i])
  {
    var f := (i: nat) => PackStage(stages, i);
    JoinOk(f, n);
    forall i: nat | i < n
      ensures f(i).Ok? <==> i < |stages| && i < 4 && StagePacks(stages[i])
    {
      PackStageAgrees(stages, i);
    }
    if n > 0 && !(n <= |stages| && n <= 4) {
      assert !f(n - 1).Ok?;
    }
  }

  /** The default trigger set, `Triggers(None)`: four simple stages that
      always fire, packed into 60 bytes. */
  lemma DefaultTriggersPack()
    ensures |SimpleStages(map[], 4)| == 4
    ensures PackAll(SimpleStages(map[], 4), 4).Ok?
    ensures |PackAll(SimpleStages(map[], 4), 4).value| == 60
  {
    var s := SimpleStages(map[], 4);
    assert s[0] == NO_TRIGGER["stage" := 0];
    forall i | 0 <= i < 4
      ensures PackStage(s, i).Ok?
    {
      assert HasFields(s[i]) && s[i]["delay"] == 0 && s[i]["mask"] == 0 && s[i]["value"] == 0;
      assert s[i]["start"] == 1 && s[i]["serial"] == 0 && s[i]["channel"] == 0 && s[i]["level"] == i;
      SumpDevice.ChannelLevelRange(0, i);
      SumpDevice.StartSerialValue(true, false, 0);
      assert SumpInterface.StartSerialBits(1, 0, 0) == SumpDevice.StartSerialByte(true, false, 0);
      PackStageAgrees(s, i);
    }
    PackAllLayout(s, 4);
  }

  /** `pack` looks at the first `n` stages only. */
  lemma PackAllPrefix(a: seq<Record>, b: seq<Record>, n: int)
    requires n <= |a|
    ensures PackAll(a + b, n) == PackAll(a, n)
  {
    forall i: nat | i < n
      ensures PackStage(a + b, i) == PackStage(a, i)
    {
      PackStageSame(a + b, a, i);
    }
    JoinSame((i: nat) => PackStage(a + b, i), (i: nat) => PackStage(a, i), n);
  }

  lemma PackStageSame(a: seq<Record>, b: seq<Record>, i: nat)
    requires i < |a| && i < |b| && a[i] == b[i]
    ensures PackStage(a, i) == PackStage(b, i)
  {
  }

  // ---------------------------------------------------------------------
  // The trigger set

  /** `trigger_type`: None until a mode is chosen, then 'None', 'Simple'
      or 'Complex'. */
  datatype TriggerType = Unset | NoneType | SimpleType | ComplexType

  /** What `Triggers(triggers)` is handed: None, a dictionary of simple
      trigger fields, or a list of complex stages. */
  datatype TriggerArg = NoTriggers | Fields(fields: Record) | Stages(stages: seq<Record>)

  /** `n_stages`: the argument's `len` when it has one, else the
      `n_stages` parameter. A dictionary has a `len` too, its number of
      keys. */
  function StageCount(arg: TriggerArg, n: int): int
  {
    match arg
    case NoTriggers => n
    case Fields(f) => |f|
    case Stages(l) => |l|
  }

  /** The mode `__init__` ends in: `disable()` is followed by `simple(None)`,
      so only a list gives anything but a simple trigger. */
  function BuiltType(arg: TriggerArg): TriggerType
  {
    if arg.Stages? then ComplexType else SimpleType
  }

  /** The stages `__init__` ends with. */
  function BuiltStages(arg: TriggerArg, n: int): seq<Record>
  {
    match arg
    case NoTriggers => SimpleStages(map[], n)
    case Fields(f) => SimpleStages(f, |f|)
    case Stages(l) => ComplexStages(l, |l|)
  }

  /** `complex(stages)` as written: it appends to `self.stages`, which is
      `None` here when the attribute does not exist, as in `__init__`.
      With no stage to append the loop body never runs, so nothing is
      looked up and the stage list stays empty. */
  function ComplexAsWritten(existing: Option<seq<Record>>, list: seq<Record>, n: int): Result<seq<Record>>
  {
    match existing
    case None => if Count(n) == 0 then Ok([]) else Err(AttributeError)
    case Some(s) => Ok(s + ComplexStages(list, n))
  }

  /** `Triggers(list)` as written: `__init__` has not created
      `self.stages` when it calls `complex`, so the first `append` raises
      AttributeError for every non-empty list. An empty list or tuple sets
      `n_stages` to 0, nothing is appended, and the trigger set packs to
      no bytes. */
  lemma ListTriggersRaise(list: seq<Record>)
    ensures ComplexAsWritten(None, list, |list|).Err? <==> |list| >= 1
    ensures |list| >= 1 ==> ComplexAsWritten(None, list, |list|) == Err(AttributeError)
    ensures list == [] ==> ComplexAsWritten(None, list, |list|) == Ok([]) && PackAll([], 0) == Ok([])
  {
  }

  /** On a trigger set that has stages, `complex` as written adds its
      stages after the old ones, and `pack` still sends the old ones. */
  lemma ComplexAfterSimpleIsStale(trigger: Record, list: seq<Record>, n: nat)
    requires n >= 1
    ensures ComplexAsWritten(Some(SimpleStages(trigger, n)), list, n).Ok?
    ensures PackAll(ComplexAsWritten(Some(SimpleStages(trigger, n)), list, n).value, n) == PackAll(SimpleStages(trigger, n), n)
  {
    PackAllPrefix(SimpleStages(trigger, n), ComplexStages(list, n), n);
  }

  /** `Triggers`. */
  class Triggers {
    var nStages: int
    var triggerType: TriggerType
    var stages: seq<Record>

    /** `Triggers(triggers, n_stages)`, with `complex` starting from an
        empty stage list as `disable` and `simple` do. */
    constructor (arg: TriggerArg, n: int)
      ensures nStages == StageCount(arg, n)
      ensures triggerType == BuiltType(arg) && stages == BuiltStages(arg, n)
    {
      nStages := StageCount(arg, n);
      triggerType := Unset;
      stages := [];
      new;
      if arg.NoTriggers? {
        Disable();
      }
      if arg.Stages? {
        Complex(arg.stages);
      } else {
        Simple(if arg.Fields? then Some(arg.fields) else None, map[]);
      }
    }

    /** `disable()`. */
    method Disable()
      modifies this`triggerType, this`stages
      ensures triggerType == NoneType && stages == DisabledStages(nStages)
    {
      triggerType := NoneType;
      stages := [];
      var i := 0;
      while i < nStages
        invariant triggerType == NoneType
        invariant 0 <= i <= Count(nStages) && stages == DisabledStages(i)
      {
        stages := stages + [NO_TRIGGER["stage" := i]];
        i := i + 1;
      }
      assert |DisabledStages(i)| == |DisabledStages(nStages)|;
    }

    /** `simple(trigger, **kwargs)`: the keyword arguments stand in for a
        missing `trigger`. */
    method Simple(trigger: Option<Record>, kwargs: Record)
      modifies this`triggerType, this`stages
      ensures triggerType == SimpleType
      ensures stages == SimpleStages(if trigger.Some? then trigger.value else kwargs, nStages)
    {
      var tr := if trigger.Some? then trigger.value else kwargs;
      triggerType := SimpleType;
      var t := DEFAULT_SIMPLE_TRIGGER + tr;
      t := t["stage" := 0];
      stages := [t];
      var i := 1;
      while i < nStages
        invariant triggerType == SimpleType
        invariant 1 <= i <= (if nStages < 1 then 1 else nStages) && stages == SimpleStages(tr, i)
      {
        var nt := NO_TRIGGER["stage" := i]["level" := i];
        assert SimpleStages(tr, i + 1) == SimpleStages(tr, i) + [nt];
        stages := stages + [nt];
        i := i + 1;
      }
      assert |SimpleStages(tr, i)| == |SimpleStages(tr, nStages)|;
    }

    /** `complex(stages)`, starting from an empty stage list. */
    method Complex(list: seq<Record>)
      modifies this`triggerType, this`stages
      ensures triggerType == ComplexType && stages == ComplexStages(list, nStages)
    {
      triggerType := ComplexType;
      stages := [];
      var i := 0;
      while i < nStages
        invariant triggerType == ComplexType
        invariant 0 <= i <= Count(nStages) && stages == ComplexStages(list, i)
      {
        var t;
        if i >= |list| {
          t := NO_TRIGGER["stage" := i]["level" := i]["start" := 0];
        } else {
          t := DEFAULT_TRIGGER["stage" := i]["level" := i];
          t := t + list[i];
        }
        stages := stages + [t];
        i := i + 1;
      }
      assert |ComplexStages(list, i)| == |ComplexStages(list, nStages)|;
    }

    /** `pack()`; `PackAllLayout` gives its shape. */
    function Pack(): Result<seq<int>>
      reads this
    {
      PackAll(stages, nStages)
    }
  }

  // ---------------------------------------------------------------------
  // The device settings

  /** `default_settings`. */
  const DEFAULT_SETTINGS: Record :=
    map["divider" := 2, "read_count" := 6140, "delay_count" := 2048, "demux" := 0, "filter" := 0,
        "channel_groups" := 0, "max_channel_groups" := 4, "external" := 0, "inverted" := 0]

  /** `_pack_divider`: `struct.pack('<cHBx', '\x80', d & 0xFFFF, (d >> 16) &
      0xFFFF)` with `d = divider - 1`. */
  function DividerPack(divider: int): Result<seq<int>>
  {
    var d := divider - 1;
    Cat(Ok([DIVIDER_OPCODE]), Cat(PackH(And(d, 0xFFFF)), Cat(PackB(And(Shr(d, 16), 0xFFFF)), Ok([0]))))
  }

  /** The masks make `divider - 1` wrap at 2^32: the message packs exactly
      when that wrapped value fits 24 bits, and it is then the first
      draft's divider message. */
  lemma DividerPackAgrees(divider: int)
    ensures DividerPack(divider).Ok? <==> (divider - 1) % 4294967296 < 16777216
    ensures DividerPack(divider).Err? ==> DividerPack(divider).error == StructError
    ensures DividerPack(divider).Ok? ==> DividerPack(divider).value == SumpDevice.DividerMsg(divider)
    ensures 1 <= divider <= 16777216 ==> DividerPack(divider).Ok?
  {
    var d := divider - 1;
    Pow2Values();
    AndLowMask(d, 16);
    AndLowMask(Shr(d, 16), 16);
    var lo, q := d % 65536, d / 65536;
    var h := q % 65536;
    assert And(d, 0xFFFF) == lo && And(Shr(d, 16), 0xFFFF) == h;
    assert d == 4294967296 * (q / 65536) + (65536 * h + lo);
    DivUnique(d, 4294967296, q / 65536, 65536 * h + lo);
    SumpDevice.Low16(d);
    DivUnique(lo, 256, (d / 256) % 256, d % 256);
    if h < 256 {
      assert q == 256 * (q / 256) + h by {
        DivDiv(q, 256, 256);
        assert q == 65536 * (q / 65536) + h;
        assert q / 256 == 256 * (q / 65536) + h / 256;
      }
      DivUnique(q, 256, q / 256, h);
    }
    if 1 <= divider <= 16777216 {
      DivUnique(d, 4294967296, 0, d);
    }
  }

  /** `read_count` or `delay_count` rounded down to a multiple of 4. */
  function RoundDown(x: int): int
  {
    x / 4 * 4
  }

  lemma RoundDownFacts(x: int)
    ensures RoundDown(x) % 4 == 0 && RoundDown(x) <= x < RoundDown(x) + 4
    ensures RoundDown(x) / 4 == x / 4 && RoundDown(RoundDown(x)) == RoundDown(x)
  {
    DivUnique(RoundDown(x), 4, x / 4, 0);
  }

  /** The bytes `_pack_count` sends for the counts it starts from:
      `struct.pack('<cHH', '\x81', read_count // 4 - 1, delay_count // 4)`. */
  function CountPack(readCount: int, delayCount: int): Result<seq<int>>
  {
    Cat(Ok([COUNT_OPCODE]), Cat(PackH(readCount / 4 - 1), PackH(delayCount / 4)))
  }

  /** The count message packs exactly for read counts 4 .. 262147 and
      delay counts 0 .. 262143; it then carries one less than the number
      of four-sample blocks read and the number of blocks of delay. */
  lemma CountPackShape(readCount: int, delayCount: int)
    ensures CountPack(readCount, delayCount).Ok? <==> 4 <= readCount < 262148 && 0 <= delayCount < 262144
    ensures CountPack(readCount, delayCount).Err? ==> CountPack(readCount, delayCount).error == StructError
    ensures CountPack(readCount, delayCount).Ok? ==>
      var v := CountPack(readCount, delayCount).value;
      |v| == 5 && v[0] == 0x81 && IsBytes(v[1..]) &&
      4 * (v[1] + 256 * v[2] + 1) == RoundDown(readCount) && 4 * (v[3] + 256 * v[4]) == RoundDown(delayCount)
  {
    RoundDownFacts(readCount);
    RoundDownFacts(delayCount);
  }

  /** Packing again from the rounded counts sends the same bytes. */
  lemma CountPackIdempotent(readCount: int, delayCount: int)
    ensures CountPack(RoundDown(readCount), RoundDown(delayCount)) == CountPack(readCount, delayCount)
    ensures RoundDown(RoundDown(readCount)) == RoundDown(readCount)
    ensures RoundDown(RoundDown(delayCount)) == RoundDown(delayCount)
  {
    RoundDownFacts(readCount);
    RoundDownFacts(delayCount);
  }

  /** The flags byte: `inverted << 7 | external << 6 | channel_groups << 2 |
      filter << 1 | demux`, each operand through `int()`. */
  function FlagsBits(inverted: int, external: int, channelGroups: int, filter: int, demux: int): int
  {
    Or(Or(Or(Or(Shl(inverted, 7), Shl(external, 6)), Shl(channelGroups, 2)), Shl(filter, 1)), demux)
  }

  /** `_pack_flags`: `struct.pack('<cBxxx', '\x82', flags)`. */
  function FlagsPack(inverted: int, external: int, channelGroups: int, filter: int, demux: int): Result<seq<int>>
  {
    Cat(Ok([FLAGS_OPCODE]), Cat(PackB(FlagsBits(inverted, external, channelGroups, filter, demux)), Ok([0, 0, 0])))
  }

  /** With boolean flags the message packs exactly for `channel_groups`
      0 .. 63 and is then the first draft's flags message. */
  lemma FlagsPackAgrees(inverted: bool, external: bool, channelGroups: int, filter: bool, demux: bool)
    ensures var m := FlagsPack(B2I(inverted), B2I(external), channelGroups, B2I(filter), B2I(demux));
      (m.Ok? <==> 0 <= channelGroups < 64) && (m.Err? ==> m.error == StructError) &&
      (m.Ok? ==> m.value == SumpDevice.FlagsMsg(inverted, external, channelGroups, filter, demux).bytes)
  {
    SumpInterface.FlagsPackedAgrees(inverted, external, channelGroups, filter, demux);
    assert FlagsPack(B2I(inverted), B2I(external), channelGroups, B2I(filter), B2I(demux)) ==
      SumpInterface.FlagsPacked(inverted, external, channelGroups, filter, demux);
  }

  /** `Settings.pack`: divider, trigger set, counts and flags, each packed
      only once the ones before it have been. */
  function SettingsPack(divider: int, triggers: Result<seq<int>>, readCount: int, delayCount: int,
                        inverted: int, external: int, channelGroups: int, filter: int, demux: int): Result<seq<int>>
  {
    Cat(DividerPack(divider), Cat(triggers, Cat(CountPack(readCount, delayCount),
      FlagsPack(inverted, external, channelGroups, filter, demux))))
  }

  /** A packed configuration is the four messages back to back: 5 bytes,
      the trigger set, 5 and 5. */
  lemma SettingsPackLayout(divider: int, triggers: Result<seq<int>>, readCount: int, delayCount: int,
                           inverted: int, external: int, channelGroups: int, filter: int, demux: int)
    requires SettingsPack(divider, triggers, readCount, delayCount, inverted, external, channelGroups, filter, demux).Ok?
    ensures var v := SettingsPack(divider, triggers, readCount, delayCount, inverted, external, channelGroups, filter, demux).value;
      |v| == 15 + |triggers.value| && v[..5] == SumpDevice.DividerMsg(divider) &&
      v[5..5 + |triggers.value|] == triggers.value &&
      v[5 + |triggers.value|..10 + |triggers.value|] == CountPack(readCount, delayCount).value &&
      v[10 + |triggers.value|..] == FlagsPack(inverted, external, channelGroups, filter, demux).value
  {
    DividerPackAgrees(divider);
    CountPackShape(readCount, delayCount);
    var a, t := DividerPack(divider).value, triggers.value;
    var c, f := CountPack(readCount, delayCount).value, FlagsPack(inverted, external, channelGroups, filter, demux).value;
    var v := a + (t + (c + f));
    assert |a| == 5 && |c| == 5 && |f| == 5;
    assert v[..5] == a;
    assert v[5..5 + |t|] == t;
    assert v[5 + |t|..10 + |t|] == c;
    assert v[10 + |t|..] == f;
  }

  /** `Settings(settings, triggers)` is handed a new trigger description
      or a `Triggers` object. */
  datatype TriggersArg = Build(arg: TriggerArg) | Given(triggers: Triggers)

  /** As written, settings handed a `Triggers` object have no `triggers`
      attribute, so the lookup in `pack` raises AttributeError in place of
      the trigger bytes. Whatever the other settings, `pack` then raises:
      a struct error when the divider does not pack, AttributeError
      otherwise. So settings built around a given trigger set never
      pack. */
  lemma GivenTriggersPackRaises(divider: int, readCount: int, delayCount: int,
                                inverted: int, external: int, channelGroups: int, filter: int, demux: int)
    ensures SettingsPack(divider, Err(AttributeError), readCount, delayCount, inverted, external, channelGroups, filter, demux).Err?
    ensures SettingsPack(divider, Err(AttributeError), readCount, delayCount, inverted, external, channelGroups, filter, demux).error ==
      if (divider - 1) % 4294967296 < 16777216 then AttributeError else StructError
  {
    DividerPackAgrees(divider);
  }

  /** Every setting has a default, so every lookup in the merged record
      succeeds. */
  lemma SettingsKeys(settings: Record)
    ensures var s := DEFAULT_SETTINGS + settings;
      "divider" in s && "read_count" in s && "delay_count" in s && "demux" in s && "filter" in s &&
      "channel_groups" in s && "external" in s && "inverted" in s && "max_channel_groups" in s
  {
  }

  /** `Settings`. */
  class Settings {
    var divider: int
    var readCount: int
    var delayCount: int
    var demux: int
    var filter: int
    var channelGroups: int
    var external: int
    var inverted: int
    var maxChannelGroups: int
    var triggers: Triggers

    /** `Settings(settings, triggers)`: the caller's settings over the
        defaults, and the trigger set kept when one is handed in. */
    constructor (settings: Record, triggers: TriggersArg)
      ensures var s := DEFAULT_SETTINGS + settings;
        divider == s["divider"] && readCount == s["read_count"] && delayCount == s["delay_count"] &&
        demux == s["demux"] && filter == s["filter"] && channelGroups == s["channel_groups"] &&
        external == s["external"] && inverted == s["inverted"] && maxChannelGroups == s["max_channel_groups"]
      ensures triggers.Given? ==> this.triggers == triggers.triggers
      ensures triggers.Build? ==> fresh(this.triggers)
      ensures triggers.Build? ==> this.triggers.nStages == StageCount(triggers.arg, 4)
      ensures triggers.Build? ==> this.triggers.triggerType == BuiltType(triggers.arg)
      ensures triggers.Build? ==> this.triggers.stages == BuiltStages(triggers.arg, 4)
    {
      var s := DEFAULT_SETTINGS + settings;
      SettingsKeys(settings);
      divider := s["divider"];
      readCount := s["read_count"];
      delayCount := s["delay_count"];
      demux := s["demux"];
      filter := s["filter"];
      channelGroups := s["channel_groups"];
      external := s["external"];
      inverted := s["inverted"];
      maxChannelGroups := s["max_channel_groups"];
      if triggers.Given? {
        this.triggers := triggers.triggers;
      } else {
        this.triggers := new Triggers(triggers.arg, 4);
      }
    }

    /** What `pack()` returns now. */
    function PackResult(): Result<seq<int>>
      reads this, triggers
    {
      SettingsPack(divider, triggers.Pack(), readCount, delayCount, inverted, external, channelGroups, filter, demux)
    }

    /** Whether `pack()` gets as far as `_pack_count`, which rounds the
        counts. */
    predicate PackReachesCount()
      reads this, triggers
    {
      DividerPack(divider).Ok? && triggers.Pack().Ok?
    }

    /** Settings that pack get as far as the counts, and their read count
        is at least 4. */
    lemma PackOkReaches()
      requires PackResult().Ok?
      ensures PackReachesCount() && CountPack(readCount, delayCount).Ok? && readCount >= 4
    {
      CountPackShape(readCount, delayCount);
    }

    /** `_pack_count`: rounds both counts down to multiples of 4 in place
        and sends the rounded counts; sending again would send the same
        bytes. */
    method PackCount() returns (r: Result<seq<int>>)
      modifies this`readCount, this`delayCount
      ensures readCount == RoundDown(old(readCount)) && delayCount == RoundDown(old(delayCount))
      ensures r == CountPack(old(readCount), old(delayCount)) && r == CountPack(readCount, delayCount)
    {
      var rc := readCount / 4;
      readCount := rc * 4;
      var dc := delayCount / 4;
      delayCount := dc * 4;
      rc := rc - 1;
      r := Cat(Ok([COUNT_OPCODE]), Cat(PackH(rc), PackH(dc)));
      CountPackIdempotent(old(readCount), old(delayCount));
    }

    /** `pack()`: the configuration as it was, with the counts rounded when
        packing reaches them; packing again gives the same result. */
    method Pack() returns (r: Result<seq<int>>)
      modifies this`readCount, this`delayCount
      ensures r == old(PackResult()) && PackResult() == r
      ensures PackReachesCount() == old(PackReachesCount())
      ensures old(PackReachesCount()) ==> readCount == RoundDown(old(readCount)) && delayCount == RoundDown(old(delayCount))
      ensures !old(PackReachesCount()) ==> readCount == old(readCount) && delayCount == old(delayCount)
    {
      var d := DividerPack(divider);
      if d.Err? {
        return d;
      }
      var t := triggers.Pack();
      if t.Err? {
        return Err(t.error);
      }
      var c := PackCount();
      var f := FlagsPack(inverted, external, channelGroups, filter, demux);
      r := Cat(d, Cat(t, Cat(c, f)));
    }
  }
}
