/** The test-bench voltage mapping of `test_config.h`: an ADC reading of
    200..1800 mV stands for a simulated 10..14 V battery. */
module TestConfig {
  import opened Machine

  const TEST_MIN_VOLTAGE_MV: int := 10000
  const TEST_MAX_VOLTAGE_MV: int := 14000

  /** `test_map_voltage`: clamp the reading to 200..1800 mV, then scale
      linearly, with every step in `uint32_t` arithmetic (each product and
      difference reduced modulo 2^32) and the quotient truncated. */
  function MapTestVoltage(adcMv: U32): (mv: U32)
    ensures TEST_MIN_VOLTAGE_MV <= mv <= TEST_MAX_VOLTAGE_MV
  {
    var clamped := if adcMv < 200 then 200 else if adcMv > 1800 then 1800 else adcMv;
    assert (clamped - 200) * 4000 < TWO_POW_32;
    var scaled := ((clamped - 200) % TWO_POW_32 * 4000) % TWO_POW_32;
    (10000 + scaled / 1600) % TWO_POW_32
  }

  /** Because the clamp runs first, the `uint32_t` steps never wrap: the
      difference is non-negative, the product stays below 2^32, and the
      result is the exact linear map of the clamped reading. */
  lemma MapTestVoltageExact(adcMv: U32)
    ensures var c := if adcMv < 200 then 200 else if adcMv > 1800 then 1800 else adcMv;
      && 0 <= c - 200 && (c - 200) * 4000 < TWO_POW_32
      && MapTestVoltage(adcMv) == 10000 + (c - 200) * 5 / 2
  {
    var c := if adcMv < 200 then 200 else if adcMv > 1800 then 1800 else adcMv;
    assert (c - 200) * 4000 < TWO_POW_32;
    assert (c - 200) * 4000 / 1600 == (c - 200) * 5 / 2;
  }

  /** The simulated voltage stays within 10..14 V, reaches both ends, and
      readings beyond the clamp points map to the end values. */
  lemma MapTestVoltageRange(adcMv: U32)
    ensures TEST_MIN_VOLTAGE_MV <= MapTestVoltage(adcMv) <= TEST_MAX_VOLTAGE_MV
    ensures adcMv <= 200 ==> MapTestVoltage(adcMv) == TEST_MIN_VOLTAGE_MV
    ensures adcMv >= 1800 ==> MapTestVoltage(adcMv) == TEST_MAX_VOLTAGE_MV
  {
    MapTestVoltageExact(adcMv);
  }

  /** A higher ADC reading never maps to a lower simulated voltage. */
  lemma MapTestVoltageMonotone(a: U32, b: U32)
    requires a <= b
    ensures MapTestVoltage(a) <= MapTestVoltage(b)
  {
    MapTestVoltageExact(a);
    MapTestVoltageExact(b);
  }
}
