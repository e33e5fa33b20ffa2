/** sump/settings.py: the trigger-stage record and the settings class of
    the second draft of the first-generation client. */
module SumpSettings {
  import opened Common
  import opened Wire

  /** A `TriggerStage`: seven attributes, all 0 unless a keyword argument
      names them. `serial` and `start` are ints here, as their defaults are. */
  datatype TriggerStage = TriggerStage(mask: int, value: int, delay: int, level: int,
                                       channel: int, serial: int, start: int)

  /** The value of keyword argument `name`, or the attribute's default 0. */
  function Get(kwargs: map<string, int>, name: string): int
  {
    if name in kwargs then kwargs[name] else 0
  }

  /** The stage `TriggerStage(**kwargs)` builds. */
  function StageOf(kwargs: map<string, int>): TriggerStage
  {
    TriggerStage(Get(kwargs, "mask"), Get(kwargs, "value"), Get(kwargs, "delay"), Get(kwargs, "level"),
      Get(kwargs, "channel"), Get(kwargs, "serial"), Get(kwargs, "start"))
  }

  /** `setattr(stage, name, v)` on one of the seven attributes; any other
      name leaves the seven as they were. */
  function SetAttr(st: TriggerStage, name: string, v: int): (r: TriggerStage)
  {
    match name
    case "mask" => st.(mask := v)
    case "value" => st.(value := v)
    case "delay" => st.(delay := v)
    case "level" => st.(level := v)
    case "channel" => st.(channel := v)
    case "serial" => st.(serial := v)
    case "start" => st.(start := v)
    case _ => st
  }

  /** With no keyword arguments every attribute is 0. */
  lemma StageDefaults()
    ensures StageOf(map[]) == TriggerStage(0, 0, 0, 0, 0, 0, 0)
  {
  }

  /** One more keyword argument changes the attribute it names and no
      other: `setattr` of it on the stage built without it. */
  lemma StageOfSet(kwargs: map<string, int>, name: string, v: int)
    ensures StageOf(kwargs[name := v]) == SetAttr(StageOf(kwargs), name, v)
  {
    var m := kwargs[name := v];
    assert Get(m, name) == v;
    assert forall other :: other != name ==> Get(m, other) == Get(kwargs, other);
  }

  /** `TriggerStage(**kwargs)`: the seven defaults, then one `setattr` per
      keyword argument, in whatever order the dictionary yields them. */
  method NewStage(kwargs: map<string, int>) returns (st: TriggerStage)
    ensures st == StageOf(kwargs)
  {
    st := TriggerStage(0, 0, 0, 0, 0, 0, 0);
    var done: map<string, int> := map[];
    var keys := kwargs.Keys;
    StageDefaults();
    while keys != {}
      invariant keys <= kwargs.Keys
      invariant done.Keys == kwargs.Keys - keys
      invariant forall k :: k in done ==> done[k] == kwargs[k]
      invariant st == StageOf(done)
      decreases keys
    {
      var kw :| kw in keys;
      StageOfSet(done, kw, kwargs[kw]);
      st := SetAttr(st, kw, kwargs[kw]);
      done := done[kw := kwargs[kw]];
      keys := keys - {kw};
    }
    assert done == kwargs;
  }

  /** `[TriggerStage(level=i) for i in xrange(n)]`: stage `i` has level
      `i` and every other attribute 0; no stages when `n <= 0`. */
  function LevelStages(n: int): (r: seq<TriggerStage>)
  {
    seq(if n < 0 then 0 else n, i => StageOf(map["level" := i]))
  }

  lemma LevelStagesShape(n: int)
    ensures |LevelStages(n)| == (if n < 0 then 0 else n)
    ensures forall i :: 0 <= i < |LevelStages(n)| ==> LevelStages(n)[i] == TriggerStage(0, 0, 0, i, 0, 0, 0)
  {
  }

  /** The number of stages the class means to start with; the
      first-generation protocol has four. */
  const DEFAULT_STAGES: nat := 4

  /** `Settings.__init__` as written: when line 32 evaluates
      `self.trigger_max_stages`, the property reads `self.trigger_stages`,
      which is the attribute being initialised and does not exist yet.
      `stages` is that attribute, `None` while it is missing. */
  function MaxStagesOf(stages: Option<seq<TriggerStage>>): (r: Result<nat>)
    ensures r.Err? <==> stages.None?
    ensures r.Err? ==> r.error == AttributeError
    ensures stages.Some? ==> r == Ok(|stages.value|)
  {
    match stages
    case None => Err(AttributeError)
    case Some(s) => Ok(|s|)
  }

  /** The stage list `__init__` computes as written, from an object that
      has every attribute but `trigger_stages`. */
  function InitStagesAsWritten(): Result<seq<TriggerStage>>
  {
    match MaxStagesOf(None)
    case Err(e) => Err(e)
    case Ok(n) => Ok(LevelStages(n))
  }

  /** Constructing `Settings()` always raises AttributeError. */
  lemma InitAsWrittenRaises()
    ensures InitStagesAsWritten() == Err(AttributeError)
  {
  }

  /** The attributes of a `Settings` object as one value. */
  datatype SettingsValue = SettingsValue(
    clockRate: int, timeout: Timeout, latestFirst: bool, divider: int, readCount: int, delayCount: int,
    external: bool, inverted: bool, filter: bool, demux: bool, channelGroups: int,
    triggerEnable: string, triggerStages: seq<TriggerStage>)

  /** The settings object. `clock_rate` is an attribute like the rest. */
  class Settings {
    var clockRate: int
    var timeout: Timeout
    var latestFirst: bool
    var divider: int
    var readCount: int
    var delayCount: int
    var external: bool
    var inverted: bool
    var filter: bool
    var demux: bool
    var channelGroups: int
    var triggerEnable: string
    var triggerStages: seq<TriggerStage>

    function Value(): SettingsValue
      reads this
    {
      SettingsValue(clockRate, timeout, latestFirst, divider, readCount, delayCount,
        external, inverted, filter, demux, channelGroups, triggerEnable, triggerStages)
    }

    /** `__init__(**kwargs)` with line 32 corrected to build
        `DEFAULT_STAGES` stages. The keyword arguments are accepted and
        ignored. */
    constructor (kwargs: map<string, int>)
      ensures clockRate == CLOCK_RATE && timeout == Unbounded && latestFirst
      ensures divider == 2 && readCount == 4096 && delayCount == 2048
      ensures !external && !inverted && !filter && !demux
      ensures channelGroups == 0 && triggerEnable == "None"
      ensures triggerStages == LevelStages(DEFAULT_STAGES)
      ensures TriggerMaxStages() == DEFAULT_STAGES
    {
      clockRate, timeout, latestFirst := CLOCK_RATE, Unbounded, true;
      divider, readCount, delayCount := 2, 4096, 2048;
      external, inverted, filter, demux := false, false, false, false;
      channelGroups, triggerEnable := 0, "None";
      triggerStages := [];
      new;
      SetTriggerMaxStages(DEFAULT_STAGES);
    }

    /** The `trigger_max_stages` getter: the length of the stage list. */
    function TriggerMaxStages(): nat
      reads this
    {
      |triggerStages|
    }

    /** The `trigger_max_stages` setter: a fresh list of `n` stages with
        levels `0 .. n-1`; reading the property back gives `n` (0 for a
        negative `n`). */
    method SetTriggerMaxStages(n: int)
      modifies this`triggerStages
      ensures triggerStages == LevelStages(n)
      ensures TriggerMaxStages() == if n < 0 then 0 else n
    {
      var stages: seq<TriggerStage> := [];
      var i := 0;
      while i < n
        invariant 0 <= i <= (if n < 0 then 0 else n)
        invariant stages == LevelStages(i)
      {
        var st := NewStage(map["level" := i]);
        stages := stages + [st];
        i := i + 1;
      }
      assert |LevelStages(i)| == |LevelStages(n)|;
      triggerStages := stages;
    }

    /** The `sample_rate` property: `int(clock_rate / divider)` under
        Python 2's floor division, doubled with demux. */
    function SampleRate(): (r: Result<int>)
      reads this
      ensures r.Err? <==> divider == 0
      ensures divider > 0 && !demux ==> r.value * divider <= clockRate < (r.value + 1) * divider
      ensures divider > 0 && demux ==> r.value % 2 == 0 && (r.value / 2) * divider <= clockRate < (r.value / 2 + 1) * divider
    {
      SampleRateOf(clockRate, divider, demux)
    }
  }
}
