/** The per-channel decision pipeline (`channel_processor.c`): filter the
    battery voltage, shift the thresholds by the temperature compensation,
    apply the two-threshold hysteresis and gate transitions by a 5 s dwell. */
module Channel {
  import opened Machine
  import opened Config
  import Filter

  /** Minimum time between two state changes of a channel. */
  const MIN_STATE_CHANGE_MS: int := 5000

  /** `adc_reading_t`: one sample from the ADC task. */
  datatype Reading = Reading(batteryVoltageMv: U32, temperatureRaw: U32, timestampMs: U32)

  /** `channel_state_t`. */
  datatype ChannelState = ChannelState(outputState: bool, filteredVoltage: int, lastChangeTime: U32)

  /** `channel_config_t` without its floating-point temperature coefficient. */
  datatype ChannelConfig = ChannelConfig(channelId: int, thOnMv: int, thOffMv: int)

  /** `channel_command_t`: what a channel hands to the control task. */
  datatype ChannelCommand = ChannelCommand(channelId: int, outputState: bool, filteredVoltage: int, timestampMs: U32)

  /** A channel starts OFF, with no filtered value and no change yet. */
  const INITIAL_STATE: ChannelState := ChannelState(false, 0, 0)

  /** `apply_hysteresis`: an ON output stays ON while the value is at least
      the OFF threshold; an OFF output turns ON once the value reaches the
      ON threshold. */
  function Hysteresis(current: bool, value: int, th: Thresholds): (on: bool)
    ensures value >= th.on && value >= th.off ==> on
    ensures value < th.on && value < th.off ==> !on
  {
    if current then value >= th.off else value >= th.on
  }

  /** The rule in both states, and the dead band [off, on) that holds the
      current state. */
  lemma HysteresisRule(current: bool, value: int, th: Thresholds)
    ensures current ==> (Hysteresis(current, value, th) <==> value >= th.off)
    ensures !current ==> (Hysteresis(current, value, th) <==> value >= th.on)
    ensures th.off <= value < th.on ==> Hysteresis(current, value, th) == current
  {
  }

  /** With ordered thresholds both states agree outside the dead band, and
      a constant input settles after one step (no oscillation). */
  lemma HysteresisSettles(current: bool, value: int, th: Thresholds)
    requires th.off <= th.on
    ensures value >= th.on ==> Hysteresis(current, value, th)
    ensures value < th.off ==> !Hysteresis(current, value, th)
    ensures Hysteresis(Hysteresis(current, value, th), value, th) == Hysteresis(current, value, th)
  {
  }

  /** Why the configuration must keep OFF below ON: with OFF above ON a
      value between them flips the output on every evaluation. */
  lemma UnorderedThresholdsOscillate(th: Thresholds, value: int)
    requires th.on <= value < th.off
    ensures Hysteresis(false, value, th) && !Hysteresis(true, value, th)
  {
  }

  /** The threshold arithmetic of `apply_temperature_compensation`: both
      base thresholds move by the same compensation (in mV). */
  function Compensate(base: Thresholds, compensationMv: int): (t: Thresholds)
    ensures t.on - t.off == base.on - base.off
  {
    Thresholds(base.on + compensationMv, base.off + compensationMv)
  }

  /** Comparing against compensated thresholds is comparing the value minus
      the compensation against the base thresholds. */
  lemma CompensationShiftsInput(current: bool, value: int, base: Thresholds, compensationMv: int)
    ensures Hysteresis(current, value, Compensate(base, compensationMv))
         == Hysteresis(current, value - compensationMv, base)
  {
  }

  /** The state update of `process_channel` once the filtered value and the
      effective thresholds are known. */
  function Decide(s: ChannelState, filtered: int, now: U32, th: Thresholds): (r: ChannelState)
    ensures r.filteredVoltage == filtered
    ensures r.outputState != s.outputState ==>
              Elapsed(now, s.lastChangeTime) >= MIN_STATE_CHANGE_MS && r.lastChangeTime == now
    ensures r.outputState == s.outputState ==> r.lastChangeTime == s.lastChangeTime
  {
    var candidate := Hysteresis(s.outputState, filtered, th);
    if candidate != s.outputState && Elapsed(now, s.lastChangeTime) >= MIN_STATE_CHANGE_MS then
      ChannelState(candidate, filtered, now)
    else
      s.(filteredVoltage := filtered)
  }

  /** A transition happens exactly when the hysteresis asks for one and at
      least 5000 ms (modulo 2^32) have passed since the last change; it then
      records `now`. Otherwise the output and its change time stay put. The
      filtered value is recorded on every call. */
  lemma DecideRule(s: ChannelState, filtered: int, now: U32, th: Thresholds)
    ensures var r := Decide(s, filtered, now, th);
      && r.filteredVoltage == filtered
      && (r.outputState != s.outputState <==>
            Hysteresis(s.outputState, filtered, th) != s.outputState
            && Elapsed(now, s.lastChangeTime) >= MIN_STATE_CHANGE_MS)
      && (r.outputState != s.outputState ==> r.lastChangeTime == now)
      && (r.outputState == s.outputState ==> r.lastChangeTime == s.lastChangeTime)
      && (r.outputState == Hysteresis(s.outputState, filtered, th) || r.outputState == s.outputState)
  {
  }

  /** A filtered value inside the dead band never changes the output. */
  lemma DeadBandKeepsOutput(s: ChannelState, filtered: int, now: U32, th: Thresholds)
    requires th.off <= filtered < th.on
    ensures Decide(s, filtered, now, th).outputState == s.outputState
    ensures Decide(s, filtered, now, th).lastChangeTime == s.lastChangeTime
  {
    HysteresisRule(s.outputState, filtered, th);
  }

  /** One evaluation's inputs: filtered value, timestamp, effective thresholds. */
  datatype Sample = Sample(filtered: int, now: U32, th: Thresholds)

  /** The states a channel passes through over a series of evaluations. */
  function Run(s: ChannelState, xs: seq<Sample>): (states: seq<ChannelState>)
    ensures |states| == |xs| + 1 && states[0] == s
    decreases |xs|
  {
    if xs == [] then [s]
    else [s] + Run(Decide(s, xs[0].filtered, xs[0].now, xs[0].th), xs[1..])
  }

  lemma {:induction false} RunStep(s: ChannelState, xs: seq<Sample>, k: nat)
    requires k < |xs|
    ensures Run(s, xs)[k + 1] == Decide(Run(s, xs)[k], xs[k].filtered, xs[k].now, xs[k].th)
    decreases |xs|
  {
    if k > 0 {
      RunStep(Decide(s, xs[0].filtered, xs[0].now, xs[0].th), xs[1..], k - 1);
    }
  }

  predicate Switched(states: seq<ChannelState>, k: int)
    requires 0 <= k < |states| - 1
  {
    states[k + 1].outputState != states[k].outputState
  }

  /** Between two transitions the recorded change time is that of the
      first one. */
  lemma {:induction false} ChangeTimeHeld(s: ChannelState, xs: seq<Sample>, i: nat, j: nat)
    requires i < j <= |xs|
    requires Switched(Run(s, xs), i)
    requires forall k :: i < k < j ==> !Switched(Run(s, xs), k)
    ensures Run(s, xs)[j].lastChangeTime == xs[i].now
    decreases j - i
  {
    var states := Run(s, xs);
    if j == i + 1 {
      RunStep(s, xs, i);
      DecideRule(states[i], xs[i].filtered, xs[i].now, xs[i].th);
    } else {
      ChangeTimeHeld(s, xs, i, j - 1);
      assert !Switched(states, j - 1);
      RunStep(s, xs, j - 1);
      DecideRule(states[j - 1], xs[j - 1].filtered, xs[j - 1].now, xs[j - 1].th);
    }
  }

  /** Before the first transition the change time is the initial one. */
  lemma {:induction false} ChangeTimeHeldFromStart(s: ChannelState, xs: seq<Sample>, j: nat)
    requires j <= |xs|
    requires forall k :: 0 <= k < j ==> !Switched(Run(s, xs), k)
    ensures Run(s, xs)[j].lastChangeTime == s.lastChangeTime
  {
    if j > 0 {
      ChangeTimeHeldFromStart(s, xs, j - 1);
      assert !Switched(Run(s, xs), j - 1);
      RunStep(s, xs, j - 1);
      DecideRule(Run(s, xs)[j - 1], xs[j - 1].filtered, xs[j - 1].now, xs[j - 1].th);
    }
  }

  /** Debounce over a whole run: two consecutive transitions of a channel
      are at least 5000 ms apart on the wrapping millisecond clock. */
  lemma TransitionsSpaced(s: ChannelState, xs: seq<Sample>, i: nat, j: nat)
    requires i < j < |xs|
    requires Switched(Run(s, xs), i) && Switched(Run(s, xs), j)
    requires forall k :: i < k < j ==> !Switched(Run(s, xs), k)
    ensures Elapsed(xs[j].now, xs[i].now) >= MIN_STATE_CHANGE_MS
  {
    ChangeTimeHeld(s, xs, i, j);
    RunStep(s, xs, j);
    DecideRule(Run(s, xs)[j], xs[j].filtered, xs[j].now, xs[j].th);
  }

  /** The first transition of a run comes at least 5000 ms after the change
      time the run starts with (0 for a freshly started channel). */
  lemma FirstTransitionAfterDwell(s: ChannelState, xs: seq<Sample>, j: nat)
    requires j < |xs|
    requires Switched(Run(s, xs), j)
    requires forall k :: 0 <= k < j ==> !Switched(Run(s, xs), k)
    ensures Elapsed(xs[j].now, s.lastChangeTime) >= MIN_STATE_CHANGE_MS
  {
    ChangeTimeHeldFromStart(s, xs, j);
    RunStep(s, xs, j);
    DecideRule(Run(s, xs)[j], xs[j].filtered, xs[j].now, xs[j].th);
  }

  /** `channel_context_t` together with its task loop. */
  class ChannelProcessor {
    const channelId: int
    const filter: Filter.MovingAverage
    var state: ChannelState
    var thOnMv: int
    var thOffMv: int

    ghost predicate Valid()
      reads this, filter, filter.buffer
    {
      filter.Valid()
    }

    /** The set-up at the start of `channel_proc_task`. */
    constructor (config: ChannelConfig)
      ensures Valid() && fresh(filter) && fresh(filter.buffer)
      ensures channelId == config.channelId
      ensures thOnMv == config.thOnMv && thOffMv == config.thOffMv
      ensures filter.State() == Filter.Init()
      ensures state == INITIAL_STATE
    {
      channelId := config.channelId;
      thOnMv := config.thOnMv;
      thOffMv := config.thOffMv;
      filter := new Filter.MovingAverage();
      state := INITIAL_STATE;
    }

    /** `apply_temperature_compensation`: the base thresholds are read from
        the configuration on every call. */
    method ApplyTemperatureCompensation(cfg: AppConfig, compensationMv: int)
      modifies this`thOnMv, this`thOffMv
      ensures Thresholds(thOnMv, thOffMv) == Compensate(BaseThresholds(cfg, channelId), compensationMv)
    {
      var baseOn, baseOff;
      if channelId == 0 {
        baseOn, baseOff := cfg.ch0OnMv, cfg.ch0OffMv;
      } else {
        baseOn, baseOff := cfg.ch1OnMv, cfg.ch1OffMv;
      }
      thOnMv := baseOn + compensationMv;
      thOffMv := baseOff + compensationMv;
    }

    /** `process_channel`. */
    method ProcessChannel(reading: Reading, cfg: AppConfig, compensationMv: int)
      requires Valid()
      modifies this, filter, filter.buffer
      ensures Valid()
      ensures filter.State() == Filter.Push(old(filter.State()), ToInt32(reading.batteryVoltageMv))
      ensures Thresholds(thOnMv, thOffMv) == Compensate(BaseThresholds(cfg, channelId), compensationMv)
      ensures state == Decide(old(state), Filter.Average(filter.State()), reading.timestampMs,
                              Thresholds(thOnMv, thOffMv))
    {
      filter.Add(ToInt32(reading.batteryVoltageMv));
      var filtered := filter.Get();
      state := state.(filteredVoltage := filtered);
      ApplyTemperatureCompensation(cfg, compensationMv);
      var newState := Hysteresis(state.outputState, filtered, Thresholds(thOnMv, thOffMv));
      if newState != state.outputState {
        var sinceLastChange := Elapsed(reading.timestampMs, state.lastChangeTime);
        if sinceLastChange >= MIN_STATE_CHANGE_MS {
          state := state.(outputState := newState, lastChangeTime := reading.timestampMs);
        }
      }
    }

    /** One iteration of the `channel_proc_task` loop: process the reading,
        then build the command sent to the control task. */
    method HandleReading(reading: Reading, cfg: AppConfig, compensationMv: int)
      returns (cmd: ChannelCommand)
      requires Valid()
      modifies this, filter, filter.buffer
      ensures Valid()
      ensures filter.State() == Filter.Push(old(filter.State()), ToInt32(reading.batteryVoltageMv))
      ensures Thresholds(thOnMv, thOffMv) == Compensate(BaseThresholds(cfg, channelId), compensationMv)
      ensures state == Decide(old(state), Filter.Average(filter.State()), reading.timestampMs,
                              Thresholds(thOnMv, thOffMv))
      ensures cmd == ChannelCommand(channelId, state.outputState, state.filteredVoltage, reading.timestampMs)
    {
      ProcessChannel(reading, cfg, compensationMv);
      cmd := ChannelCommand(channelId, state.outputState, state.filteredVoltage, reading.timestampMs);
    }
  }
}
