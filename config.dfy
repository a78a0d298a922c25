/** The application configuration record (`app_config_t`) and the global
    instance the accessors read and the setters update (`g_config`). */
module Config {
  import opened Machine

  /** `app_config_t` without its floating-point temperature coefficient. */
  datatype AppConfig = AppConfig(
    ch0OnMv: I32,
    ch0OffMv: I32,
    ch1OnMv: I32,
    ch1OffMv: I32,
    pwmHalfDuty: U8,
    pwmFullDuty: U8,
    motionTimeoutMs: U32)

  /** A pair of voltage thresholds in millivolts. */
  datatype Thresholds = Thresholds(on: int, off: int)

  /** The values used when nothing is stored in flash. */
  const DEFAULT_CONFIG: AppConfig :=
    AppConfig(12500, 11800, 12500, 11800, 50, 100, 30000)

  /** The relations the command line enforces and the arbitration relies on.
      Values loaded from flash are not re-checked against them. */
  predicate Sane(cfg: AppConfig)
  {
    && cfg.ch0OffMv < cfg.ch0OnMv
    && cfg.ch1OffMv < cfg.ch1OnMv
    && cfg.pwmHalfDuty <= cfg.pwmFullDuty
  }

  /** The base thresholds a channel processor reads: channel 0 reads the
      channel 0 pair, every other id the channel 1 pair. */
  function BaseThresholds(cfg: AppConfig, channelId: int): (t: Thresholds)
    ensures Sane(cfg) ==> t.off < t.on
  {
    if channelId == 0 then Thresholds(cfg.ch0OnMv, cfg.ch0OffMv)
    else Thresholds(cfg.ch1OnMv, cfg.ch1OffMv)
  }

  /** The record after `nvs_set_ch0_thresholds` (channel 0) or
      `nvs_set_ch1_thresholds` (any other channel). */
  function WithThresholds(cfg: AppConfig, channel: int, onMv: I32, offMv: I32): (r: AppConfig)
    ensures BaseThresholds(r, channel) == Thresholds(onMv, offMv)
    ensures channel == 0 ==> BaseThresholds(r, 1) == BaseThresholds(cfg, 1)
    ensures channel != 0 ==> BaseThresholds(r, 0) == BaseThresholds(cfg, 0)
    ensures r.pwmHalfDuty == cfg.pwmHalfDuty && r.pwmFullDuty == cfg.pwmFullDuty
    ensures r.motionTimeoutMs == cfg.motionTimeoutMs
  {
    if channel == 0 then cfg.(ch0OnMv := onMv, ch0OffMv := offMv)
    else cfg.(ch1OnMv := onMv, ch1OffMv := offMv)
  }

  /** The record after `nvs_set_pwm_duties`. */
  function WithPwmDuties(cfg: AppConfig, half: U8, full: U8): (r: AppConfig)
    ensures r.pwmHalfDuty == half && r.pwmFullDuty == full
    ensures BaseThresholds(r, 0) == BaseThresholds(cfg, 0)
    ensures BaseThresholds(r, 1) == BaseThresholds(cfg, 1)
    ensures r.motionTimeoutMs == cfg.motionTimeoutMs
  {
    cfg.(pwmHalfDuty := half, pwmFullDuty := full)
  }

  /** The defaults satisfy the relations the command line enforces. */
  lemma DefaultsSane()
    ensures Sane(DEFAULT_CONFIG)
  {
  }

  /** The global configuration `g_config`: getters read it, setters
      overwrite one group of fields. */
  class ConfigStore {
    var config: AppConfig

    /** The store after loading: `initial` is whatever flash held. */
    constructor (initial: AppConfig)
      ensures config == initial
    {
      config := initial;
    }

    method SetChannelThresholds(channel: int, onMv: I32, offMv: I32)
      modifies this
      ensures config == WithThresholds(old(config), channel, onMv, offMv)
    {
      if channel == 0 {
        config := config.(ch0OnMv := onMv, ch0OffMv := offMv);
      } else {
        config := config.(ch1OnMv := onMv, ch1OffMv := offMv);
      }
    }

    method SetPwmDuties(half: U8, full: U8)
      modifies this
      ensures config == WithPwmDuties(old(config), half, full)
    {
      config := config.(pwmHalfDuty := half, pwmFullDuty := full);
    }
  }
}
