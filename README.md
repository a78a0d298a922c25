# Battery load controller: channel pipeline and arbitration

A Dafny model of the decision logic of an ESP32 solar/battery load
controller. The model covers four parts.

- **Per-channel pipeline** (`channel_processor.c`, modules `Filter` and
  `Channel`). The battery voltage passes through a 16-slot moving-average
  filter, which is seeded from the first sample and is a ring buffer with a
  running sum afterwards. The filtered value goes through a two-threshold
  hysteresis. Both thresholds are shifted by the same temperature
  compensation. A transition is accepted only after a 5000 ms dwell on the
  wrapping `uint32` millisecond clock. Each evaluation emits a command for
  the control task.
- **Arbitration** (`control_handler.c`, module `Control`). A battery-voltage
  dimming table is overridden by a motion window. The window is opened by a
  debounced interrupt or a manual trigger and closed by a timeout. Each
  channel is enabled only when its command is ON and the duty is non-zero.
  Percentages are converted to 13-bit LEDC duty counts. The channel and
  duty fields of `hw_state` are written under the hardware mutex, by normal
  control and by emergency shutdown; `motion_detected` is written on every
  control cycle without the mutex.
- **Configuration commands** (`cli_handler.c`, modules `Cli` and `Config`).
  These are the guard chains of `set_threshold` and `set_pwm`, applied to a
  record shaped like `app_config_t`.
- **Test voltage mapper** (`test_config.h`, module `TestConfig`).

Module `Machine` fixes the C semantics the firmware relies on:
- `uint32_t` subtraction modulo 2^32;
- the `uint32_t` to `int32_t` conversion;
- C's truncating division.

Where code updates state in place, the model is a class whose methods are
proved against pure specification functions:
- `Filter.MovingAverage` against `Filter.Push`/`Filter.Average`;
- `Channel.ChannelProcessor` against `Channel.Decide`;
- `Control.ControlHandler` against `Control.ControlCycle`, `Control.MotionCheck` and the others;
- `Config.ConfigStore` with `Cli.CmdSetThreshold`/`Cli.CmdSetPwm` against `Cli.AfterSetThreshold`/`Cli.AfterSetPwm`.

The properties are proved about those functions.

Where the design description and the code differ, the model follows the
code:
- **The compensation is truncated, not rounded.** `(int32_t)` of the
  product truncates (`main/channel_processor.c:136`). The compensation is
  an integer input of the model, so only its addition to the thresholds is
  modelled.
- **Not everything is re-read on every evaluation.** The temperature
  coefficient is copied once when the channel task starts
  (`main/channel_processor.c:241`). Only the base thresholds are re-read
  from the configuration on every evaluation
  (`main/channel_processor.c:124-130`). `ApplyTemperatureCompensation` and
  `ProcessChannel` take the configuration record as an input for this
  reason.
- **Motion override beats the critical-battery cut-off.** `calculate_dimming_level`
  returns full duty under motion at any battery voltage
  (`Control.MotionOverrideBeatsBattery`).
- **Emergency shutdown can do nothing.** It changes nothing when the
  hardware mutex cannot be taken within its timeout
  (`main/control_handler.c:393`).

## Model

| member | source | states |
|---|---|---|
| Machine.Elapsed | main/channel_processor.c:184 | `now - since` on `uint32_t`: the plain difference when `since <= now`, the difference plus 2^32 when the clock wrapped |
| Machine.ToInt32 | main/channel_processor.c:155 | the `uint32_t` battery reading passed as an `int32_t` sample is unchanged below 2^31 and becomes negative (value − 2^32) above |
| Machine.TruncDiv | main/channel_processor.c:96 | C's quotient truncates toward zero: for a non-negative numerator q·b ≤ a < q·b + b, for a negative one q·b − b < a ≤ q·b |
| Machine.TruncDivBetween | main/channel_processor.c:96 | a truncated quotient of a numerator between lo·b and hi·b lies between lo and hi |
| Machine.TruncDivMonotone | main/channel_processor.c:96 | truncating division by a positive divisor is monotone in the numerator |
| Machine.TruncDivExact | main/channel_processor.c:96 | dividing v·b by b gives v back for either sign of v |
| Config.BaseThresholds | main/channel_processor.c:124-130 | channel 0 reads the channel 0 pair and any other id the channel 1 pair; a sane record gives off < on |
| Config.WithThresholds | main/nvs_storage.c:361-376 | after the setter, the chosen channel reads exactly the new pair and the other channel, the duties and the timeout are unchanged |
| Config.WithPwmDuties | main/nvs_storage.c:390-395 | after the setter, both duties are the new values and both threshold pairs and the timeout are unchanged |
| Config.DefaultsSane | main/nvs_storage.c:29-36 | the default record has off < on on both channels and half ≤ full |
| Config.ConfigStore.constructor | main/nvs_storage.c:39-50 | the global record holds whatever was loaded, without validation |
| Config.ConfigStore.SetChannelThresholds | main/nvs_storage.c:361-376 | the global record becomes `WithThresholds` of the old one |
| Config.ConfigStore.SetPwmDuties | main/nvs_storage.c:390-395 | the global record becomes `WithPwmDuties` of the old one |
| Filter.Init | main/channel_processor.c:50-57 | the cleared filter is well formed (sum = Σ slots, index 0, count 0, not seeded) and every slot is 0 |
| Filter.Push | main/channel_processor.c:62-86 | every add keeps the filter well formed: 16 `int32_t` slots, index in [0,16), sum = Σ slots, and count 16 once seeded |
| Filter.SeedFillsAllSlots | main/channel_processor.c:64-72 | the first sample v fills all 16 slots, sum = 16·v, count = 16, index stays 0, and the average is exactly v |
| Filter.SteadyPushReplacesOneSlot | main/channel_processor.c:76-81 | a later sample overwrites only the slot under the index, the other 15 are unchanged, the index moves to (index+1) mod 16, and the sum changes by new − evicted |
| Filter.Average | main/channel_processor.c:91-97 | `ma_get`: 0 before the first sample and always within `int32_t`, so the cast never changes the value; its bounds and exactness are stated by `Filter.AverageWithinSlots`, `Filter.SeedFillsAllSlots` and `Filter.ConstantWindowAverage` |
| Filter.AverageWithinSlots | main/channel_processor.c:91-97 | the average is 0 before the first sample and afterwards lies between the smallest and largest slot |
| Filter.SumWindow | main/channel_processor.c:76-78 | the running sum equals the sum of the samples in age order |
| Filter.WindowAfterPush | main/channel_processor.c:76-81 | a steady-state add drops the oldest sample and appends the new one: the buffer is a FIFO of the last 16 samples |
| Filter.WindowAfterPushAll | main/channel_processor.c:62-86 | after any series of adds, the window holds the last 16 values of the old window followed by the new samples |
| Filter.ConstantWindowAverage | main/channel_processor.c:91-97 | a window holding v in every slot averages to exactly v |
| Filter.ConstantInputConverges | main/channel_processor.c:62-97 | from any state, 16 or more equal samples v bring the average to exactly v |
| Filter.OrderedPushKeepsOrder | main/channel_processor.c:76-97 | with an ordered window and a sample at least its newest value, the window stays ordered and the average does not drop |
| Filter.OrderedRun | main/channel_processor.c:76-97 | an ordered window fed a non-decreasing run gives non-decreasing averages |
| Filter.MonotoneInputMonotoneOutput | main/channel_processor.c:62-97 | a fresh filter fed non-decreasing samples returns non-decreasing averages |
| Filter.MovingAverage.constructor | main/channel_processor.c:50-57 | the in-place filter starts in the `Init` state |
| Filter.MovingAverage.Add | main/channel_processor.c:62-86 | the array-based add (seed loop or one-slot update) yields exactly `Push` of the old state and keeps the invariant |
| Filter.MovingAverage.Get | main/channel_processor.c:91-97 | returns `Average` of the current state |
| Channel.HysteresisRule | main/channel_processor.c:103-112 | ON stays ON iff value ≥ off; OFF turns ON iff value ≥ on; values in [off, on) keep the current state |
| Channel.HysteresisSettles | main/channel_processor.c:103-112 | with off ≤ on, values ≥ on give ON, values < off give OFF, and a constant input settles after one evaluation |
| Channel.UnorderedThresholdsOscillate | main/channel_processor.c:103-112 | with off above on, a value between them flips the output on every evaluation |
| Channel.Hysteresis | main/channel_processor.c:103-112 | `apply_hysteresis`: a value at or above both thresholds gives ON and one below both gives OFF, from either state; the full rule is `Channel.HysteresisRule` |
| Channel.Compensate | main/channel_processor.c:138-139 | both thresholds move by the same compensation, so the hysteresis gap is unchanged |
| Channel.CompensationShiftsInput | main/channel_processor.c:138-139 | comparing against compensated thresholds equals comparing value − compensation against the base thresholds |
| Channel.Decide | main/channel_processor.c:158-203 | the state update of `process_channel`: the filtered value is always recorded, an output change needs at least 5000 ms since the last change and records now, and an unchanged output keeps its change time; the if-and-only-if is `Channel.DecideRule` |
| Channel.DecideRule | main/channel_processor.c:158-203 | a transition happens iff the hysteresis differs from the output and (now − last change) mod 2^32 ≥ 5000; it then records now, otherwise output and change time stay; the filtered value is recorded every time |
| Channel.DeadBandKeepsOutput | main/channel_processor.c:174-203 | a filtered value in [off, on) changes neither the output nor its change time |
| Channel.ChangeTimeHeld | main/channel_processor.c:182-190 | between two transitions the recorded change time is that of the first |
| Channel.ChangeTimeHeldFromStart | main/channel_processor.c:182-190 | before the first transition the change time is the starting one |
| Channel.TransitionsSpaced | main/channel_processor.c:182-190 | two consecutive transitions of a channel are at least 5000 ms apart on the wrapping clock |
| Channel.FirstTransitionAfterDwell | main/channel_processor.c:182-190 | the first transition comes at least 5000 ms after the starting change time (0 for a fresh channel) |
| Channel.ChannelProcessor.constructor | main/channel_processor.c:236-250 | the context starts with the configured id and thresholds, a cleared filter, OFF output, filtered value 0 and change time 0 |
| Channel.ChannelProcessor.ApplyTemperatureCompensation | main/channel_processor.c:119-139 | the effective thresholds become the freshly read base pair shifted by the compensation |
| Channel.ChannelProcessor.ProcessChannel | main/channel_processor.c:152-203 | the filter receives the reading, the thresholds are recomputed, and the channel state becomes `Decide` of the old state with the new average |
| Channel.ChannelProcessor.HandleReading | main/channel_processor.c:264-276 | one task iteration: the filter receives the reading, the thresholds become the compensated base pair, the state becomes `Decide` of the old one, and the command carries the id, output, filtered value and the reading's timestamp |
| Control.PercentToDutyRange | main/control_handler.c:151-155 | the duty count never exceeds 8191, is 8191 for 100 % and above, and is 0 only for 0 % |
| Control.PercentToDutyMonotone | main/control_handler.c:151-155 | a larger percentage never gives a smaller duty count |
| Control.PercentToDuty | main/control_handler.c:151-155 | `percent_to_duty`: the count never exceeds 8191 and is non-zero for any non-zero percentage; see `Control.PercentToDutyRange` and `Control.PercentToDutyMonotone` |
| Control.DimmingLevel | main/control_handler.c:180-201 | `calculate_dimming_level`: the level is one of 0, half/2, half, full, and it is 0 only in the critical band without motion or when the configured duties are too small; the table and ordering are `Control.DimmingTable`, `Control.DimmingOrdered`, `Control.MotionOverrideBeatsBattery` |
| Control.MotionOverrideBeatsBattery | main/control_handler.c:180-200 | under motion the level is full duty at every battery voltage, including below 11000 mV, where the level without motion is 0 |
| Control.DimmingTable | main/control_handler.c:187-200 | without motion: ≥ 13500 full, [12000,13500) half, [11000,12000) half/2, below 11000 zero |
| Control.DimmingOrdered | main/control_handler.c:180-201 | with half ≤ full the level never exceeds full and, without motion, never drops as the battery voltage rises |
| Control.MotionEdge | main/control_handler.c:56-65 | the ISR body: either nothing changes, or more than 500 ms passed since the last accepted edge and a window opens at now; see `Control.MotionEdgeRule` |
| Control.MotionTrigger | main/control_handler.c:369-374 | `control_trigger_motion`: motion is active with a window opened 0 ms ago; see `Control.TriggerThenCheck` |
| Control.MotionCheck | main/control_handler.c:206-222 | `check_motion_timeout`: an override needs active motion, the flag afterwards equals the returned override, and the motion time never moves; the if-and-only-if is `Control.MotionCheckRule` |
| Control.MotionCheckRule | main/control_handler.c:206-222 | the override is reported iff motion is active and (now − last motion) mod 2^32 ≤ timeout; an expired window clears the flag; the motion time never moves |
| Control.MotionEdgeRule | main/control_handler.c:56-65 | an edge is accepted iff more than 500 ms passed since the last accepted one, and then records now; otherwise nothing changes |
| Control.TriggerThenCheck | main/control_handler.c:369-374 | after a manual trigger at t, the override holds exactly while at most the timeout has passed since t |
| Control.EdgeOpensWindow | main/control_handler.c:56-65 | after an accepted edge at t, the override holds for exactly the timeout's length of the wrapping clock |
| Control.Drive | main/control_handler.c:240-252 | the duty written for one channel is zero exactly when the channel is disabled or the level is 0 |
| Control.Enable | main/control_handler.c:328-329 | the enable gating: the channel is driven above zero exactly when its command is ON and the level is above zero; see `Control.DriveRule` |
| Control.DriveRule | main/control_handler.c:240-252 | a channel is driven above zero iff its command is ON and the level is non-zero, and then at `percent_to_duty` of the level |
| Control.ApplyControl | main/control_handler.c:227-256 | with the mutex, `hw_state` records both enables and the duty and each channel is driven above zero iff it is enabled at a non-zero level; without it nothing changes; `motion_detected` is untouched |
| Control.Shutdown | main/control_handler.c:389-404 | with the mutex, both channels are recorded OFF with duty 0 and driven at 0; without it nothing changes; `motion_detected` is untouched |
| Control.ControlCycle | main/control_handler.c:298-334 | one `control_task` iteration: commands persist across iterations without a message, the motion state follows the timeout check, and `motion_detected` mirrors the override every iteration; the hardware update is stated by `Control.CycleGatesChannels` and `Control.CycleWithoutUpdate` |
| Control.CycleGatesChannels | main/control_handler.c:321-334 | on an update the recorded duty is the dimming level and each channel is recorded and driven ON iff its latest command is ON and the level is above zero |
| Control.CycleWithoutUpdate | main/control_handler.c:230-233 | without a message and without motion, or when the mutex is not taken, the recorded states, duty and driven outputs stay as they were |
| Control.CriticalBatteryCutsLoads | main/control_handler.c:194-200 | below 11000 mV and outside a motion window, an update switches both outputs off even for channels whose command is ON |
| Control.RecoveryWithoutTransition | main/control_handler.c:308-334 | a channel whose command is ON, kept or freshly re-sent, comes back on once the battery leaves the critical band, with no new hysteresis transition |
| Control.MotionRunsFullDuty | main/control_handler.c:321-334 | in a motion window the recorded duty is full and ON channels are driven at `percent_to_duty(full)` whatever the battery voltage |
| Control.ShutdownUndoneByNextCommand | main/control_handler.c:332-333 | an emergency shutdown lasts only until the next iteration that receives an ON command at a non-zero level, which switches the channel back on |
| Control.ControlHandler.constructor | main/control_handler.c:42-51 | hardware state all off, no motion, LEDC duties 0, and both remembered commands zeroed |
| Control.ControlHandler.MotionSensorIsr | main/control_handler.c:56-65 | the motion statics become `MotionEdge` of their old values |
| Control.ControlHandler.TriggerMotion | main/control_handler.c:369-374 | motion becomes active with the given time, unconditionally |
| Control.ControlHandler.CheckMotionTimeout | main/control_handler.c:206-222 | the returned override and the new motion statics are `MotionCheck` of the old ones |
| Control.ControlHandler.SetPwmDuty | main/control_handler.c:160-174 | the selected LEDC channel receives `percent_to_duty` of the percentage and the other keeps its duty |
| Control.ControlHandler.ApplyHardwareControl | main/control_handler.c:227-256 | `hw_state` and the two driven duties become `ApplyControl` of their old values: the decision and drive with the mutex, no change without it |
| Control.ControlHandler.EmergencyShutdown | main/control_handler.c:389-404 | `hw_state` and the driven duties become `Shutdown` of their old values |
| Control.ControlHandler.RunCycle | main/control_handler.c:303-334 | one loop iteration moves the task's whole state to `ControlCycle` of the old state and the iteration's inputs |
| Cli.ThresholdVerdict | main/cli_handler.c:94-123 | an accepted `set_threshold` has channel 0 or 1 and 0 ≤ off < on ≤ 20000 |
| Cli.ThresholdAcceptance | main/cli_handler.c:94-123 | `set_threshold` accepts exactly the parsed requests with channel 0 or 1 and 0 ≤ off < on ≤ 20000 |
| Cli.OffRangeOnlyBelowZero | main/cli_handler.c:110-123 | since the ordering check runs first, the OFF range error fires only for negative values |
| Cli.SetThresholdEffect | main/cli_handler.c:105-130 | acceptance stores exactly the pair for the chosen channel and nothing else; rejection changes nothing; sanity is preserved |
| Cli.AfterSetThreshold | main/cli_handler.c:105-130 | the record changes only on acceptance, never touches the duties, and keeps the record sane; the exact effect is `Cli.SetThresholdEffect` |
| Cli.PwmVerdict | main/cli_handler.c:185-208 | an accepted `set_pwm` has 0 ≤ half ≤ full ≤ 100 |
| Cli.PwmAcceptance | main/cli_handler.c:185-208 | `set_pwm` accepts exactly the parsed requests with 0 ≤ half ≤ full ≤ 100 |
| Cli.ToU8 | main/cli_handler.c:210 | the `(uint8_t)` cast keeps values in [0,256) unchanged |
| Cli.SetPwmEffect | main/cli_handler.c:195-210 | acceptance stores both duties exactly as given and nothing else; rejection changes nothing; sanity is preserved |
| Cli.AfterSetPwm | main/cli_handler.c:195-216 | the record changes only on acceptance, never touches the thresholds, and keeps the record sane; the exact effect is `Cli.SetPwmEffect` |
| Cli.CmdSetThreshold | main/cli_handler.c:92-139 | returns 0 on acceptance and 1 otherwise, and the store becomes `AfterSetThreshold` of the old record |
| Cli.CmdSetPwm | main/cli_handler.c:183-217 | returns 0 on acceptance and 1 otherwise, and the store becomes `AfterSetPwm` of the old record |
| TestConfig.MapTestVoltageExact | main/test_config.h:30-35 | the input is clamped to [200,1800] first, so no `uint32_t` step wraps, and the result is 10000 + (clamped − 200)·4000/1600 |
| TestConfig.MapTestVoltage | main/test_config.h:30-35 | `test_map_voltage` with explicit `uint32_t` wrap-around: the result always lies in [10000,14000]; see `TestConfig.MapTestVoltageExact` |
| TestConfig.MapTestVoltageRange | main/test_config.h:32-34 | the output lies in [10000,14000]; inputs ≤ 200 give 10000 and inputs ≥ 1800 give 14000 |
| TestConfig.MapTestVoltageMonotone | main/test_config.h:32-34 | the mapping is non-decreasing in the ADC reading |

## Left out

- ADC sampling, calibration and oversampling (`adc_handler.c`) are hardware I/O. The battery reading, the live battery voltage and the tick time are inputs of the model.
- The TMP36 conversion, its range fallback and the temperature-coefficient product (`main/channel_processor.c:135-136`, `main/channel_processor.c:163-168`) are float arithmetic. The integer compensation in mV is an input.
- The `fabsf` logging check and `last_temperature` (`main/channel_processor.c:142-146`) affect only logging.
- `test_map_temperature` is float arithmetic.
- `cmd_set_temp_coeff` is float arithmetic.
- Flash persistence (`nvs_open`, `nvs_get_*`, `nvs_commit`, `nvs_save_config`) is I/O. The configuration is an in-memory record. Values loaded from flash are not validated, so properties that need off < on or half ≤ full take them as preconditions.
- FreeRTOS queues are not modelled. A received message is an `Option`, and a send to a full queue (the command is dropped with a warning) is not modelled.
- The mutex is not modelled. Whether it was taken within its timeout is a boolean input.
- The interrupt context and concurrent access to `motion_active`/`last_motion_time` are not modelled. The ISR and the task's check are modelled as separate, atomic steps.
- Tick-to-millisecond multiplication (`xTaskGetTickCount() * portTICK_PERIOD_MS`) is not modelled. The millisecond time is an input.
- The LEDC driver and GPIO configuration are not modelled. The model records the duty count written to each channel and ignores driver error returns.
- Logging and printing are not modelled: the periodic status logs, `log_counter`, and the CLI messages.
- Argument parsing is not modelled. It is reduced to the parser's error count and the parsed `int` values.
- Task creation, the infinite task loops and status getters (`main.c`, `channel_processor_init`, `xQueuePeek`-based getters) are not modelled. One loop iteration is modelled as one method call.
- Channel.Compensate: that the compensation for a temperature below 25 °C is the negation of the one for the same distance above it is not modelled; it lies in the float product of `main/channel_processor.c:135-136`, and the model takes the compensation as a free integer.
- Channel.Compensate: `int32_t` overflow of base + compensation is not modelled. The sum is exact, because realistic thresholds and compensations lie many orders of magnitude inside the range.
- Filter.MovingAverage.Add: the C `sum` is an `int64_t`. It is modelled as an unbounded integer. Sixteen `int32_t` slots cannot overflow it, so nothing is lost.
