/** The validating console commands (`cli_handler.c`): `set_threshold` and
    `set_pwm`. Argument parsing is reduced to its error count and the parsed
    `int` values; printing and the flash write are not modelled. */
module Cli {
  import opened Machine
  import opened Config

  /** Why a command was refused; each has its own message and exit code 1. */
  datatype Rejection =
    | ParseFailed
    | BadChannel
    | OnNotAboveOff
    | OnOutOfRange
    | OffOutOfRange
    | HalfOutOfRange
    | FullOutOfRange
    | HalfAboveFull

  datatype Verdict = Accept | Reject(reason: Rejection)

  const MAX_THRESHOLD_MV: int := 20000

  /** The guard chain of `cmd_set_threshold`, in the order the checks run:
      the first failing check decides the rejection. */
  function ThresholdVerdict(nerrors: int, channel: I32, onMv: I32, offMv: I32): (v: Verdict)
    ensures v.Accept? ==> channel in {0, 1} && 0 <= offMv < onMv <= MAX_THRESHOLD_MV
  {
    if nerrors != 0 then Reject(ParseFailed)
    else if channel < 0 || channel > 1 then Reject(BadChannel)
    else if onMv <= offMv then Reject(OnNotAboveOff)
    else if onMv < 0 || onMv > MAX_THRESHOLD_MV then Reject(OnOutOfRange)
    else if offMv < 0 || offMv > MAX_THRESHOLD_MV then Reject(OffOutOfRange)
    else Accept
  }

  /** The command accepts exactly the well-parsed requests for channel 0 or
      1 whose thresholds satisfy 0 <= off < on <= 20000. */
  lemma ThresholdAcceptance(nerrors: int, channel: I32, onMv: I32, offMv: I32)
    ensures ThresholdVerdict(nerrors, channel, onMv, offMv).Accept?
        <==> nerrors == 0 && channel in {0, 1} && 0 <= offMv < onMv <= MAX_THRESHOLD_MV
  {
  }

  /** Because the ordering check runs first, an out-of-range OFF threshold
      is only ever reported for a negative value: the upper bound on OFF is
      implied by `off < on <= 20000`. */
  lemma OffRangeOnlyBelowZero(nerrors: int, channel: I32, onMv: I32, offMv: I32)
    requires ThresholdVerdict(nerrors, channel, onMv, offMv) == Reject(OffOutOfRange)
    ensures offMv < 0
  {
  }

  /** The configuration after `set_threshold`: the selected pair on
      acceptance, the old record otherwise. */
  function AfterSetThreshold(cfg: AppConfig, nerrors: int, channel: I32, onMv: I32, offMv: I32): (r: AppConfig)
    ensures r != cfg ==> ThresholdVerdict(nerrors, channel, onMv, offMv).Accept?
    ensures r.pwmHalfDuty == cfg.pwmHalfDuty && r.pwmFullDuty == cfg.pwmFullDuty
    ensures Sane(cfg) ==> Sane(r)
  {
    if ThresholdVerdict(nerrors, channel, onMv, offMv).Accept? then WithThresholds(cfg, channel, onMv, offMv)
    else cfg
  }

  /** An accepted command stores exactly the requested pair for the chosen
      channel and leaves the other channel, the duties and the timeout as
      they were; a refused one changes nothing; and the stored record keeps
      the relations the arbitration relies on. */
  lemma SetThresholdEffect(cfg: AppConfig, nerrors: int, channel: I32, onMv: I32, offMv: I32)
    ensures var r := AfterSetThreshold(cfg, nerrors, channel, onMv, offMv);
      && (ThresholdVerdict(nerrors, channel, onMv, offMv).Accept? ==>
            && BaseThresholds(r, channel) == Thresholds(onMv, offMv)
            && BaseThresholds(r, 1 - channel) == BaseThresholds(cfg, 1 - channel)
            && r.pwmHalfDuty == cfg.pwmHalfDuty && r.pwmFullDuty == cfg.pwmFullDuty
            && r.motionTimeoutMs == cfg.motionTimeoutMs)
      && (ThresholdVerdict(nerrors, channel, onMv, offMv).Reject? ==> r == cfg)
      && (Sane(cfg) ==> Sane(r))
  {
  }

  /** The guard chain of `cmd_set_pwm`. */
  function PwmVerdict(nerrors: int, halfDuty: I32, fullDuty: I32): (v: Verdict)
    ensures v.Accept? ==> 0 <= halfDuty <= fullDuty <= 100
  {
    if nerrors != 0 then Reject(ParseFailed)
    else if halfDuty < 0 || halfDuty > 100 then Reject(HalfOutOfRange)
    else if fullDuty < 0 || fullDuty > 100 then Reject(FullOutOfRange)
    else if halfDuty > fullDuty then Reject(HalfAboveFull)
    else Accept
  }

  /** The command accepts exactly the well-parsed requests with
      0 <= half <= full <= 100. */
  lemma PwmAcceptance(nerrors: int, halfDuty: I32, fullDuty: I32)
    ensures PwmVerdict(nerrors, halfDuty, fullDuty).Accept?
        <==> nerrors == 0 && 0 <= halfDuty <= fullDuty <= 100
  {
  }

  /** `(uint8_t)` in C: keep the low eight bits. */
  function ToU8(x: int): (r: U8)
    ensures 0 <= x < 256 ==> r == x
  {
    x % 256
  }

  /** The configuration after `set_pwm`. */
  function AfterSetPwm(cfg: AppConfig, nerrors: int, halfDuty: I32, fullDuty: I32): (r: AppConfig)
    ensures r != cfg ==> PwmVerdict(nerrors, halfDuty, fullDuty).Accept?
    ensures BaseThresholds(r, 0) == BaseThresholds(cfg, 0) && BaseThresholds(r, 1) == BaseThresholds(cfg, 1)
    ensures Sane(cfg) ==> Sane(r)
  {
    if PwmVerdict(nerrors, halfDuty, fullDuty).Accept? then WithPwmDuties(cfg, ToU8(halfDuty), ToU8(fullDuty))
    else cfg
  }

  /** On acceptance the narrowing casts lose nothing: both duties are stored
      exactly as given, and nothing else changes; a refusal changes nothing;
      the relations the arbitration relies on are kept. */
  lemma SetPwmEffect(cfg: AppConfig, nerrors: int, halfDuty: I32, fullDuty: I32)
    ensures var r := AfterSetPwm(cfg, nerrors, halfDuty, fullDuty);
      && (PwmVerdict(nerrors, halfDuty, fullDuty).Accept? ==>
            && r.pwmHalfDuty == halfDuty && r.pwmFullDuty == fullDuty
            && BaseThresholds(r, 0) == BaseThresholds(cfg, 0)
            && BaseThresholds(r, 1) == BaseThresholds(cfg, 1)
            && r.motionTimeoutMs == cfg.motionTimeoutMs)
      && (PwmVerdict(nerrors, halfDuty, fullDuty).Reject? ==> r == cfg)
      && (Sane(cfg) ==> Sane(r))
  {
  }

  /** `cmd_set_threshold`: returns the exit code and updates the store on
      success. `nerrors` is what argument parsing reported. */
  method CmdSetThreshold(store: ConfigStore, nerrors: int, channel: I32, onMv: I32, offMv: I32) returns (rc: int)
    modifies store
    ensures rc == (if ThresholdVerdict(nerrors, channel, onMv, offMv).Accept? then 0 else 1)
    ensures store.config == AfterSetThreshold(old(store.config), nerrors, channel, onMv, offMv)
  {
    if nerrors != 0 {
      return 1;
    }
    if channel < 0 || channel > 1 {
      return 1;
    }
    if onMv <= offMv {
      return 1;
    }
    if onMv < 0 || onMv > MAX_THRESHOLD_MV {
      return 1;
    }
    if offMv < 0 || offMv > MAX_THRESHOLD_MV {
      return 1;
    }
    store.SetChannelThresholds(channel, onMv, offMv);
    return 0;
  }

  /** `cmd_set_pwm`. */
  method CmdSetPwm(store: ConfigStore, nerrors: int, halfDuty: I32, fullDuty: I32) returns (rc: int)
    modifies store
    ensures rc == (if PwmVerdict(nerrors, halfDuty, fullDuty).Accept? then 0 else 1)
    ensures store.config == AfterSetPwm(old(store.config), nerrors, halfDuty, fullDuty)
  {
    if nerrors != 0 {
      return 1;
    }
    if halfDuty < 0 || halfDuty > 100 {
      return 1;
    }
    if fullDuty < 0 || fullDuty > 100 {
      return 1;
    }
    if halfDuty > fullDuty {
      return 1;
    }
    store.SetPwmDuties(ToU8(halfDuty), ToU8(fullDuty));
    return 0;
  }
}
