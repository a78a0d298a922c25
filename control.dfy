/** Arbitration and actuation (`control_handler.c`): battery-based dimming
    with motion override, the motion window, per-channel enable gating,
    percent-to-PWM conversion and the mutex-guarded hardware state. */
module Control {
  import opened Machine
  import opened Config
  import opened Channel

  /** 13-bit LEDC resolution: duty counts run from 0 to 2^13 - 1. */
  const LEDC_MAX_DUTY: int := 8191

  const BATTERY_FULL_THRESHOLD: int := 13500
  const BATTERY_HALF_THRESHOLD: int := 12000
  const BATTERY_CRITICAL_THRESHOLD: int := 11000

  /** Edges closer together than this are ignored by the motion ISR. */
  const MOTION_DEBOUNCE_MS: int := 500

  datatype Option<T> = None | Some(value: T)

  /** `hw_control_t`. */
  datatype HwControl = HwControl(ch0State: bool, ch1State: bool, pwmDuty: U8, motionDetected: bool)

  /** `hw_state` together with the duty counts last written to the two
      LEDC channels. */
  datatype Hardware = Hardware(state: HwControl, ch0Duty: U32, ch1Duty: U32)

  /** `motion_active` and `last_motion_time`. */
  datatype MotionState = MotionState(active: bool, lastTime: U32)

  /** The zeroed command `control_task` starts from on both channels. */
  const ZERO_COMMAND: ChannelCommand := ChannelCommand(0, false, 0, 0)

  /** `percent_to_duty`: clamp to 100 %, then scale to 0..8191. */
  function PercentToDuty(percent: U8): (duty: U32)
    ensures duty <= LEDC_MAX_DUTY
    ensures percent > 0 ==> duty > 0
  {
    var p := if percent > 100 then 100 else percent;
    LEDC_MAX_DUTY * p / 100
  }

  /** The conversion hits both ends of the LEDC range, never leaves it,
      saturates above 100 % and is zero only for 0 %. */
  lemma PercentToDutyRange(percent: U8)
    ensures PercentToDuty(percent) <= LEDC_MAX_DUTY
    ensures percent >= 100 ==> PercentToDuty(percent) == LEDC_MAX_DUTY
    ensures PercentToDuty(percent) == 0 <==> percent == 0
  {
  }

  /** A larger percentage never gives a smaller duty count. */
  lemma PercentToDutyMonotone(p: U8, q: U8)
    requires p <= q
    ensures PercentToDuty(p) <= PercentToDuty(q)
  {
    var p', q' := if p > 100 then 100 else p, if q > 100 then 100 else q;
    assert LEDC_MAX_DUTY * p' <= LEDC_MAX_DUTY * q';
  }

  /** `calculate_dimming_level`: the duty percentage for a battery voltage,
      with the motion override taking the full-duty path first. */
  function DimmingLevel(batteryMv: U32, motionOverride: bool, cfg: AppConfig): (level: U8)
    ensures level in {0, cfg.pwmHalfDuty / 2, cfg.pwmHalfDuty, cfg.pwmFullDuty}
    ensures level == 0 ==> (!motionOverride && batteryMv < BATTERY_CRITICAL_THRESHOLD)
                           || cfg.pwmFullDuty == 0 || cfg.pwmHalfDuty < 2
  {
    if motionOverride then cfg.pwmFullDuty
    else if batteryMv >= BATTERY_FULL_THRESHOLD then cfg.pwmFullDuty
    else if batteryMv >= BATTERY_HALF_THRESHOLD then cfg.pwmHalfDuty
    else if batteryMv >= BATTERY_CRITICAL_THRESHOLD then cfg.pwmHalfDuty / 2
    else 0
  }

  /** Motion override gives full duty at every battery voltage, below the
      critical level included, where the level without motion is 0. */
  lemma MotionOverrideBeatsBattery(batteryMv: U32, cfg: AppConfig)
    ensures DimmingLevel(batteryMv, true, cfg) == cfg.pwmFullDuty
    ensures batteryMv < BATTERY_CRITICAL_THRESHOLD ==> DimmingLevel(batteryMv, false, cfg) == 0
  {
  }

  /** The battery table without motion. */
  lemma DimmingTable(batteryMv: U32, cfg: AppConfig)
    ensures batteryMv >= 13500 ==> DimmingLevel(batteryMv, false, cfg) == cfg.pwmFullDuty
    ensures 12000 <= batteryMv < 13500 ==> DimmingLevel(batteryMv, false, cfg) == cfg.pwmHalfDuty
    ensures 11000 <= batteryMv < 12000 ==> DimmingLevel(batteryMv, false, cfg) == cfg.pwmHalfDuty / 2
    ensures batteryMv < 11000 ==> DimmingLevel(batteryMv, false, cfg) == 0
  {
  }

  /** With half not above full, the level never exceeds full duty, and
      without motion it never drops when the battery voltage rises. */
  lemma DimmingOrdered(b1: U32, b2: U32, motionOverride: bool, cfg: AppConfig)
    requires cfg.pwmHalfDuty <= cfg.pwmFullDuty
    ensures DimmingLevel(b1, motionOverride, cfg) <= cfg.pwmFullDuty
    ensures b1 <= b2 ==> DimmingLevel(b1, false, cfg) <= DimmingLevel(b2, false, cfg)
  {
  }

  /** The ISR body: an edge more than 500 ms (modulo 2^32) after the last
      accepted one starts a motion window at `now`; other edges are ignored. */
  function MotionEdge(m: MotionState, now: U32): (r: MotionState)
    ensures r == m || (r == MotionState(true, now) && Elapsed(now, m.lastTime) > MOTION_DEBOUNCE_MS)
  {
    if Elapsed(now, m.lastTime) > MOTION_DEBOUNCE_MS then MotionState(true, now) else m
  }

  /** `control_trigger_motion`: start a motion window unconditionally. */
  function MotionTrigger(now: U32): (r: MotionState)
    ensures r.active && Elapsed(now, r.lastTime) == 0
  {
    MotionState(true, now)
  }

  /** `check_motion_timeout`: the override flag and the motion state after
      the check. */
  function MotionCheck(m: MotionState, now: U32, timeoutMs: U32): (r: (bool, MotionState))
    ensures r.0 ==> m.active
    ensures r.1.active == r.0 && r.1.lastTime == m.lastTime
  {
    if !m.active then (false, m)
    else if Elapsed(now, m.lastTime) > timeoutMs then (false, m.(active := false))
    else (true, m)
  }

  /** The override is reported exactly while motion is active and no more
      than the timeout has passed since the last motion; an expired window
      clears the flag; the check never moves the motion time, and afterwards
      the flag equals the reported override. */
  lemma MotionCheckRule(m: MotionState, now: U32, timeoutMs: U32)
    ensures var (active, m') := MotionCheck(m, now, timeoutMs);
      && (active <==> m.active && Elapsed(now, m.lastTime) <= timeoutMs)
      && m'.active == active
      && m'.lastTime == m.lastTime
  {
  }

  /** An accepted edge is more than 500 ms after the previous accepted one;
      a rejected edge changes nothing. */
  lemma MotionEdgeRule(m: MotionState, now: U32)
    ensures MotionEdge(m, now) != m ==> Elapsed(now, m.lastTime) > MOTION_DEBOUNCE_MS
    ensures Elapsed(now, m.lastTime) > MOTION_DEBOUNCE_MS ==> MotionEdge(m, now) == MotionState(true, now)
    ensures Elapsed(now, m.lastTime) <= MOTION_DEBOUNCE_MS ==> MotionEdge(m, now) == m
  {
  }

  /** After a manual trigger at `t`, a later check reports the override
      exactly while at most the timeout has passed since `t`. */
  lemma TriggerThenCheck(t: U32, now: U32, timeoutMs: U32)
    ensures MotionCheck(MotionTrigger(t), now, timeoutMs).0 <==> Elapsed(now, t) <= timeoutMs
  {
  }

  /** After an accepted edge at `t`, the override holds for exactly
      `timeoutMs` more milliseconds of the wrapping clock. */
  lemma EdgeOpensWindow(m: MotionState, t: U32, d: U32, timeoutMs: U32)
    requires Elapsed(t, m.lastTime) > MOTION_DEBOUNCE_MS
    ensures MotionCheck(MotionEdge(m, t), Advance(t, d), timeoutMs).0 <==> d <= timeoutMs
  {
  }

  /** What `set_pwm_duty` writes for one channel in `apply_hardware_control`. */
  function Drive(enable: bool, dutyPercent: U8): (duty: U32)
    ensures duty == 0 <==> !enable || dutyPercent == 0
  {
    PercentToDuty(if enable then dutyPercent else 0)
  }

  /** A channel is enabled when its last command says ON and the dimming
      level is not zero. */
  function Enable(cmd: ChannelCommand, dutyPercent: U8): (enable: bool)
    ensures Drive(enable, dutyPercent) > 0 <==> cmd.outputState && dutyPercent > 0
  {
    cmd.outputState && dutyPercent > 0
  }

  /** A channel is driven at the requested duty when enabled and at zero
      otherwise, and it is lit exactly when its command is ON and the level
      is above zero. */
  lemma DriveRule(cmd: ChannelCommand, dutyPercent: U8)
    ensures Drive(Enable(cmd, dutyPercent), dutyPercent) > 0 <==> cmd.outputState && dutyPercent > 0
    ensures Enable(cmd, dutyPercent) ==> Drive(true, dutyPercent) == PercentToDuty(dutyPercent)
    ensures Drive(false, dutyPercent) == 0
  {
    PercentToDutyRange(dutyPercent);
    PercentToDutyRange(0);
  }

  /** `apply_hardware_control`: with the mutex taken, record the decision and
      drive both channels; without it, leave everything as it was. */
  function ApplyControl(h: Hardware, ch0Enable: bool, ch1Enable: bool, dutyPercent: U8, lockAcquired: bool): (r: Hardware)
    ensures lockAcquired ==>
      && r.state.ch0State == ch0Enable && r.state.ch1State == ch1Enable && r.state.pwmDuty == dutyPercent
      && (r.ch0Duty > 0 <==> ch0Enable && dutyPercent > 0)
      && (r.ch1Duty > 0 <==> ch1Enable && dutyPercent > 0)
    ensures !lockAcquired ==> r == h
    ensures r.state.motionDetected == h.state.motionDetected
  {
    if !lockAcquired then h
    else Hardware(h.state.(ch0State := ch0Enable, ch1State := ch1Enable, pwmDuty := dutyPercent),
                  Drive(ch0Enable, dutyPercent), Drive(ch1Enable, dutyPercent))
  }

  /** `control_emergency_shutdown`: with the mutex taken, both channels are
      driven at zero and recorded OFF with duty 0; without it nothing
      changes; the motion flag is never touched. */
  function Shutdown(h: Hardware, lockAcquired: bool): (r: Hardware)
    ensures lockAcquired ==> !r.state.ch0State && !r.state.ch1State && r.state.pwmDuty == 0
                             && r.ch0Duty == 0 && r.ch1Duty == 0
    ensures !lockAcquired ==> r == h
    ensures r.state.motionDetected == h.state.motionDetected
  {
    if !lockAcquired then h
    else Hardware(h.state.(ch0State := false, ch1State := false, pwmDuty := 0),
                  PercentToDuty(0), PercentToDuty(0))
  }

  /** Everything `control_task` carries from one iteration to the next. */
  datatype ControlState = ControlState(motion: MotionState, hw: Hardware, ch0Cmd: ChannelCommand, ch1Cmd: ChannelCommand)

  /** The state at start-up: no motion, outputs off, zeroed commands. */
  const INITIAL_CONTROL: ControlState :=
    ControlState(MotionState(false, 0), Hardware(HwControl(false, false, 0, false), 0, 0),
                 ZERO_COMMAND, ZERO_COMMAND)

  /** One iteration of the `control_task` loop. A received message replaces
      the channel's command and a channel without one keeps its previous
      command; the motion state evolves as `check_motion_timeout` says and
      `motion_detected` mirrors the override on every iteration, outside the
      mutex; the rest of the hardware state is updated only when a message
      arrived on either channel or motion is active. */
  function ControlCycle(s: ControlState, msg0: Option<ChannelCommand>, msg1: Option<ChannelCommand>,
                        batteryMv: U32, now: U32, cfg: AppConfig, lockAcquired: bool): (r: ControlState)
    ensures r.ch0Cmd == (if msg0.Some? then msg0.value else s.ch0Cmd)
    ensures r.ch1Cmd == (if msg1.Some? then msg1.value else s.ch1Cmd)
    ensures r.motion == MotionCheck(s.motion, now, cfg.motionTimeoutMs).1
    ensures r.hw.state.motionDetected == MotionCheck(s.motion, now, cfg.motionTimeoutMs).0
  {
    var cmd0 := if msg0.Some? then msg0.value else s.ch0Cmd;
    var cmd1 := if msg1.Some? then msg1.value else s.ch1Cmd;
    var (motionOverride, motion') := MotionCheck(s.motion, now, cfg.motionTimeoutMs);
    var hw := s.hw.(state := s.hw.state.(motionDetected := motionOverride));
    var duty := DimmingLevel(batteryMv, motionOverride, cfg);
    var hw' := if msg0.Some? || msg1.Some? || motionOverride
               then ApplyControl(hw, Enable(cmd0, duty), Enable(cmd1, duty), duty, lockAcquired)
               else hw;
    ControlState(motion', hw', cmd0, cmd1)
  }

  /** When the hardware is updated, each channel is recorded and driven as
      its latest command AND a non-zero dimming level, at that level. */
  lemma CycleGatesChannels(s: ControlState, msg0: Option<ChannelCommand>, msg1: Option<ChannelCommand>,
                           batteryMv: U32, now: U32, cfg: AppConfig, lockAcquired: bool)
    requires lockAcquired
    requires msg0.Some? || msg1.Some? || MotionCheck(s.motion, now, cfg.motionTimeoutMs).0
    ensures var r := ControlCycle(s, msg0, msg1, batteryMv, now, cfg, lockAcquired);
      var duty := DimmingLevel(batteryMv, MotionCheck(s.motion, now, cfg.motionTimeoutMs).0, cfg);
      && r.hw.state.pwmDuty == duty
      && (r.hw.state.ch0State <==> r.ch0Cmd.outputState && duty > 0)
      && (r.hw.state.ch1State <==> r.ch1Cmd.outputState && duty > 0)
      && (r.hw.ch0Duty > 0 <==> r.ch0Cmd.outputState && duty > 0)
      && (r.hw.ch1Duty > 0 <==> r.ch1Cmd.outputState && duty > 0)
      && (r.hw.state.ch0State ==> r.hw.ch0Duty == PercentToDuty(duty))
      && (r.hw.state.ch1State ==> r.hw.ch1Duty == PercentToDuty(duty))
  {
    var duty := DimmingLevel(batteryMv, MotionCheck(s.motion, now, cfg.motionTimeoutMs).0, cfg);
    var r := ControlCycle(s, msg0, msg1, batteryMv, now, cfg, lockAcquired);
    DriveRule(r.ch0Cmd, duty);
    DriveRule(r.ch1Cmd, duty);
  }

  /** Without a message and without motion, or when the mutex cannot be
      taken, the recorded channel states, the duty and the driven outputs
      stay as they were. */
  lemma CycleWithoutUpdate(s: ControlState, msg0: Option<ChannelCommand>, msg1: Option<ChannelCommand>,
                           batteryMv: U32, now: U32, cfg: AppConfig, lockAcquired: bool)
    requires !lockAcquired || (msg0.None? && msg1.None? && !MotionCheck(s.motion, now, cfg.motionTimeoutMs).0)
    ensures var r := ControlCycle(s, msg0, msg1, batteryMv, now, cfg, lockAcquired);
      && r.hw.state.ch0State == s.hw.state.ch0State
      && r.hw.state.ch1State == s.hw.state.ch1State
      && r.hw.state.pwmDuty == s.hw.state.pwmDuty
      && r.hw.ch0Duty == s.hw.ch0Duty && r.hw.ch1Duty == s.hw.ch1Duty
  {
  }

  /** Below the critical level and outside a motion window, an update turns
      both outputs off even when the channels' own state is ON. */
  lemma CriticalBatteryCutsLoads(s: ControlState, msg0: Option<ChannelCommand>, msg1: Option<ChannelCommand>,
                                 batteryMv: U32, now: U32, cfg: AppConfig)
    requires batteryMv < BATTERY_CRITICAL_THRESHOLD
    requires !MotionCheck(s.motion, now, cfg.motionTimeoutMs).0
    requires msg0.Some? || msg1.Some?
    ensures var r := ControlCycle(s, msg0, msg1, batteryMv, now, cfg, true);
      && !r.hw.state.ch0State && !r.hw.state.ch1State && r.hw.state.pwmDuty == 0
      && r.hw.ch0Duty == 0 && r.hw.ch1Duty == 0
  {
    CycleGatesChannels(s, msg0, msg1, batteryMv, now, cfg, true);
  }

  /** A channel whose command is ON (kept or freshly re-sent) comes back on
      as soon as the battery is out of the critical band and the level is
      non-zero: no new hysteresis transition is needed. */
  lemma RecoveryWithoutTransition(s: ControlState, msg0: Option<ChannelCommand>, msg1: Option<ChannelCommand>,
                                  batteryMv: U32, now: U32, cfg: AppConfig)
    requires (if msg0.Some? then msg0.value else s.ch0Cmd).outputState
    requires msg0.Some? || msg1.Some?
    requires batteryMv >= BATTERY_CRITICAL_THRESHOLD && cfg.pwmHalfDuty >= 2
    requires cfg.pwmHalfDuty <= cfg.pwmFullDuty
    ensures var r := ControlCycle(s, msg0, msg1, batteryMv, now, cfg, true);
      r.hw.state.ch0State && r.hw.ch0Duty > 0
  {
    CycleGatesChannels(s, msg0, msg1, batteryMv, now, cfg, true);
  }

  /** An emergency shutdown lasts only until the next iteration that
      receives an ON command while the dimming level is non-zero: that
      iteration switches the channel back on. */
  lemma ShutdownUndoneByNextCommand(s: ControlState, cmd: ChannelCommand, msg1: Option<ChannelCommand>,
                                    batteryMv: U32, now: U32, cfg: AppConfig)
    requires cmd.outputState
    requires DimmingLevel(batteryMv, MotionCheck(s.motion, now, cfg.motionTimeoutMs).0, cfg) > 0
    ensures var down := s.(hw := Shutdown(s.hw, true));
      var r := ControlCycle(down, Some(cmd), msg1, batteryMv, now, cfg, true);
      && !down.hw.state.ch0State && down.hw.ch0Duty == 0
      && r.hw.state.ch0State && r.hw.ch0Duty > 0
  {
    CycleGatesChannels(s.(hw := Shutdown(s.hw, true)), Some(cmd), msg1, batteryMv, now, cfg, true);
  }

  /** During a motion window both ON channels run at full duty, whatever the
      battery voltage. */
  lemma MotionRunsFullDuty(s: ControlState, msg0: Option<ChannelCommand>, msg1: Option<ChannelCommand>,
                           batteryMv: U32, now: U32, cfg: AppConfig)
    requires MotionCheck(s.motion, now, cfg.motionTimeoutMs).0
    ensures var r := ControlCycle(s, msg0, msg1, batteryMv, now, cfg, true);
      && r.hw.state.pwmDuty == cfg.pwmFullDuty
      && (r.ch0Cmd.outputState && cfg.pwmFullDuty > 0 ==> r.hw.ch0Duty == PercentToDuty(cfg.pwmFullDuty))
      && (r.ch1Cmd.outputState && cfg.pwmFullDuty > 0 ==> r.hw.ch1Duty == PercentToDuty(cfg.pwmFullDuty))
  {
    CycleGatesChannels(s, msg0, msg1, batteryMv, now, cfg, true);
  }

  /** The statics of `control_handler.c` and the locals `control_task`
      keeps across iterations. */
  class ControlHandler {
    var motionActive: bool
    var lastMotionTime: U32
    var hwState: HwControl
    var ch0Duty: U32
    var ch1Duty: U32
    var ch0Cmd: ChannelCommand
    var ch1Cmd: ChannelCommand

    ghost function Motion(): MotionState
      reads this
    {
      MotionState(motionActive, lastMotionTime)
    }

    ghost function Hw(): Hardware
      reads this
    {
      Hardware(hwState, ch0Duty, ch1Duty)
    }

    ghost function Snapshot(): ControlState
      reads this
    {
      ControlState(Motion(), Hw(), ch0Cmd, ch1Cmd)
    }

    /** Static initialisers, LEDC channels configured at duty 0, and the
        zeroed commands of `control_task`. */
    constructor ()
      ensures Snapshot() == INITIAL_CONTROL
    {
      motionActive := false;
      lastMotionTime := 0;
      hwState := HwControl(false, false, 0, false);
      ch0Duty := 0;
      ch1Duty := 0;
      ch0Cmd := ZERO_COMMAND;
      ch1Cmd := ZERO_COMMAND;
    }

    /** The body of `motion_sensor_isr_handler`. */
    method MotionSensorIsr(now: U32)
      modifies this`motionActive, this`lastMotionTime
      ensures Motion() == MotionEdge(old(Motion()), now)
    {
      if Elapsed(now, lastMotionTime) > MOTION_DEBOUNCE_MS {
        motionActive := true;
        lastMotionTime := now;
      }
    }

    /** `control_trigger_motion`. */
    method TriggerMotion(now: U32)
      modifies this`motionActive, this`lastMotionTime
      ensures Motion() == MotionTrigger(now)
    {
      motionActive := true;
      lastMotionTime := now;
    }

    /** `check_motion_timeout`. */
    method CheckMotionTimeout(now: U32, timeoutMs: U32) returns (active: bool)
      modifies this`motionActive
      ensures (active, Motion()) == MotionCheck(old(Motion()), now, timeoutMs)
    {
      if !motionActive {
        return false;
      }
      if Elapsed(now, lastMotionTime) > timeoutMs {
        motionActive := false;
        return false;
      }
      return true;
    }

    /** `set_pwm_duty` on LEDC channel 0 or 1. */
    method SetPwmDuty(channel: int, dutyPercent: U8)
      modifies this`ch0Duty, this`ch1Duty
      ensures channel == 0 ==> ch0Duty == PercentToDuty(dutyPercent) && ch1Duty == old(ch1Duty)
      ensures channel != 0 ==> ch1Duty == PercentToDuty(dutyPercent) && ch0Duty == old(ch0Duty)
    {
      var duty := PercentToDuty(dutyPercent);
      if channel == 0 {
        ch0Duty := duty;
      } else {
        ch1Duty := duty;
      }
    }

    /** `apply_hardware_control`; `lockAcquired` says whether the mutex was
        taken within its timeout. */
    method ApplyHardwareControl(ch0Enable: bool, ch1Enable: bool, dutyPercent: U8, lockAcquired: bool)
      modifies this`hwState, this`ch0Duty, this`ch1Duty
      ensures Hw() == ApplyControl(old(Hw()), ch0Enable, ch1Enable, dutyPercent, lockAcquired)
    {
      if !lockAcquired {
        return;
      }
      hwState := hwState.(ch0State := ch0Enable, ch1State := ch1Enable, pwmDuty := dutyPercent);
      if ch0Enable {
        SetPwmDuty(0, dutyPercent);
      } else {
        SetPwmDuty(0, 0);
      }
      if ch1Enable {
        SetPwmDuty(1, dutyPercent);
      } else {
        SetPwmDuty(1, 0);
      }
    }

    /** `control_emergency_shutdown`. */
    method EmergencyShutdown(lockAcquired: bool)
      modifies this`hwState, this`ch0Duty, this`ch1Duty
      ensures Hw() == Shutdown(old(Hw()), lockAcquired)
    {
      if lockAcquired {
        SetPwmDuty(0, 0);
        SetPwmDuty(1, 0);
        hwState := hwState.(ch0State := false, ch1State := false, pwmDuty := 0);
      }
    }

    /** One iteration of `control_task`: `msg0`/`msg1` are the messages
        received from the channel queues (if any), `batteryMv` the live
        battery reading, `now` the tick time in milliseconds. */
    method RunCycle(msg0: Option<ChannelCommand>, msg1: Option<ChannelCommand>,
                    batteryMv: U32, now: U32, cfg: AppConfig, lockAcquired: bool)
      modifies this
      ensures Snapshot() == ControlCycle(old(Snapshot()), msg0, msg1, batteryMv, now, cfg, lockAcquired)
    {
      var ch0Updated, ch1Updated := false, false;
      if msg0.Some? {
        ch0Cmd := msg0.value;
        ch0Updated := true;
      }
      if msg1.Some? {
        ch1Cmd := msg1.value;
        ch1Updated := true;
      }
      var motionOverride := CheckMotionTimeout(now, cfg.motionTimeoutMs);
      hwState := hwState.(motionDetected := motionOverride);
      var dutyPercent := DimmingLevel(batteryMv, motionOverride, cfg);
      var ch0Enable := ch0Cmd.outputState && dutyPercent > 0;
      var ch1Enable := ch1Cmd.outputState && dutyPercent > 0;
      if ch0Updated || ch1Updated || motionOverride {
        ApplyHardwareControl(ch0Enable, ch1Enable, dutyPercent, lockAcquired);
      }
    }
  }
}
