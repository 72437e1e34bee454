# Water-flow leak monitor: a verified model of the firmware core

The firmware runs on a microcontroller beside a pipe. Pulse-type flow sensors
along the pipe raise an interrupt for every pulse. The firmware turns the
pulses into flow rates and compares every sensor with the most upstream one
to locate a leak. It reports the readings to a telemetry server over Wi-Fi.
A selector switch puts the device into configuration mode. In that mode a
short-range radio service accepts the Wi-Fi credentials and stores them in
persistent storage.

This project models four parts of that firmware in Dafny and proves what
they promise:

- `FlowSensors` (`flow_sensor.dfy`): the pulse counter and the sampling
  window. It has a class `FlowSensor` whose fields are the sensor's state.
  The interrupt handler and the periodic sample are methods. The rate and
  volume formulas are functions, with lemmas about them.
- `LeakGuard` (`water_leakage_guard.dfy`): the threshold predicate, the
  ordered sensor registry (class `WaterLeakageGuard`) and the scan from
  downstream to the anchor. The scan is a `while` loop proved against the
  specification function `MonitorResult`. Lemmas say what that result
  means: the sentinel, "no leak", or the boundary of the leaking segment.
- `ConfigurationManager` (`configuration_manager.dfy`): the two guard flags,
  which make starting storage and starting or stopping the radio service
  safe to repeat, and the credential store, modelled as a
  `map<string, string>` in which a missing key reads as `""`.
- `MainProgram` (`main_program.dfy`): the firmware's global variables, held
  in a class `Controller`. Its methods are `setup()`, `loop()` and the
  helpers. Pure functions specify the mode-edge machine, the Wi-Fi rising
  edge, the 5000 ms data interval and send-on-change, and lemmas over whole
  runs state "exactly once per edge".
- `Words` (`words.dfy`): the C integer widths that matter. These are
  `uint32_t` increment, `uint64_t` subtraction and conversion to `int8_t`,
  each with its wrap-around written out.

The model stands in for the world outside the firmware as follows:

- Each hardware reading becomes a parameter: the clock (`millis()`), the
  selector switch, the Wi-Fi status, the radio library's success results,
  the average flow and the random leak value.
- Calls into code outside the model are appended to logs held in fields:
  `Controller.actions` (which mode helpers ran), `Controller.calls` (Wi-Fi,
  telemetry, sensor sampling) and `ConfigManager.calls` (store and radio).
  The firmware keeps no such logs. They exist so that "runs exactly once"
  can be stated.

Integers are unbounded in Dafny, so the C widths are written out where they
change behaviour:

- The pulse counter wraps at 2^32.
- Elapsed time is a `uint64_t` difference, which wraps when the clock is
  behind `last_time`. `last_time` starts out uninitialised.
- The scan's start index is a `uint8_t` and its result an `int8_t`, so with
  more than 128 sensors the result wraps. The lemmas about the scan are
  stated for up to 128 sensors. With 256 sensors the result can even be -1,
  the "not enough sensors" sentinel.

Flow rates and totals are real numbers. Float rounding is not modelled.

### What the code does that is easy to miss

- The C++ constructor of a flow sensor leaves `pulse_count`, `last_time`,
  `flow_rate` and `total_litres` unset (lib/flow_sensor/FlowSensor.h:21-24).
  The model's constructor therefore takes their values as a `PowerOnState`
  parameter instead of assuming zero.
- Each radio write stores the whole written value directly under its key
  (lib/configuration_manager/ConfigurationManager.cpp:78-90, 137, 149).
- The sampling window test `elapsed >= 1000`
  (lib/flow_sensor/FlowSensor.cpp:32) rules out a zero divisor in the rate
  formula of line 38.
- On leaving configuration, the code first runs `start_normal_mode` and then
  `stop_configuration_mode` (lib/main/MainProgram.h:115-118). The model
  keeps that order.
- `setup()` enters the selected mode but does not set `previous_mode`,
  which starts at normal (lib/main/MainProgram.h:40, 64-98). After a boot in
  configuration, a first pass that reads configuration runs
  `start_configuration_mode` a second time, and a first pass that reads
  normal runs only `loop_normal_mode`: `start_normal_mode` and
  `stop_configuration_mode` never run, so the radio service stays active and
  Wi-Fi stays unconfigured until the selector goes to configuration and back.
- The store's interface asks for `init_storage()` before every read and
  write (lib/configuration_manager/ConfigurationManager.h:12-17). The model
  takes a store that was never opened to give `""` on every read and to
  drop every write, which is how the ESP32 `Preferences` library treats a
  store that was never begun. `setup()` never opens the store, and the
  model takes `get_wifi_creds`, which is called at lib/main/MainProgram.h:224
  but declared in neither ConfigurationManager.h nor ConfigurationManager.cpp,
  not to open it either; see
  "## Findings".

## Model

| member | source | states |
|---|---|---|
| `Words.Inc32` | lib/flow_sensor/FlowSensor.cpp:19 | a `uint32_t` increment is one more, except that the largest value goes back to 0 |
| `Words.Sub64` | lib/flow_sensor/FlowSensor.cpp:29-30 | a `uint64_t` difference is the true difference when the clock is ahead, and the difference wrapped once around 2^64 otherwise |
| `Words.ToInt8` | lib/water_leakage_guard/WaterLeakageGuard.cpp:31 | conversion to the `int8_t` return type lands in [-128, 127], is congruent mod 256, and keeps values already in range |
| `FlowSensors.SampleRate` | lib/flow_sensor/FlowSensor.cpp:38-39 | the rate of a sample: pulse frequency (count over the window, per second) divided by the calibration factor; characterised by `RateOverOneWindow` and `VolumeCountsPulses` |
| `FlowSensors.VolumeIncrement` | lib/flow_sensor/FlowSensor.cpp:40 | litres that a rate in litres per minute delivers over the window; characterised by `VolumeCountsPulses` |
| `FlowSensors.FlowSensor.constructor` | lib/flow_sensor/FlowSensor.cpp:8-14 | pin and calibration factor are stored unchanged; the four fields the C++ constructor leaves unset keep the given power-on values |
| `FlowSensors.FlowSensor.HandlePulse` | lib/flow_sensor/FlowSensor.cpp:17-21 | the counter goes up by exactly one (with 32-bit wrap), and the frame allows no other field to change |
| `FlowSensors.FlowSensor.Update` | lib/flow_sensor/FlowSensor.cpp:28-44 | before a 1000 ms window has passed, nothing changes; after it, the counter is taken and zeroed, the rate is the pulse frequency over the calibration factor, the total grows by that rate over the window, and the window restarts at `now`; the divisor is at least 1000 |
| `FlowSensors.FlowSensor.GetFlowRate` | lib/flow_sensor/FlowSensor.cpp:49-51 | returns the current rate and changes nothing |
| `FlowSensors.FlowSensor.GetTotalLitres` | lib/flow_sensor/FlowSensor.cpp:53-55 | returns the running total and changes nothing |
| `FlowSensors.RateOverOneWindow` | lib/flow_sensor/FlowSensor.cpp:38-39 | the pulses counted over exactly one 1000 ms window give rate = count / calibration factor |
| `FlowSensors.SampleNonNegative` | lib/flow_sensor/FlowSensor.cpp:38-40 | with a positive calibration factor the rate is never negative and the total never decreases |
| `FlowSensors.VolumeCountsPulses` | lib/flow_sensor/FlowSensor.cpp:38-40 | the volume a sample adds is count / (60 × factor), whatever the window length, so each pulse adds the same volume to the total |
| `FlowSensors.PulsesOverOneWindow` | lib/flow_sensor/FlowSensor.cpp:17-44 | N pulses between two samples exactly one window apart give rate N / factor, a zero counter afterwards, and N / (60 × factor) more litres |
| `LeakGuard.IsLeaked` | lib/water_leakage_guard/WaterLeakageGuard.cpp:34-43 | the two one-sided comparisons of `is_leaked` with the 10 L/min threshold; characterised by `IsLeakedIsDistance` |
| `LeakGuard.IsLeakedIsDistance` | lib/water_leakage_guard/WaterLeakageGuard.cpp:34-43 | the two one-sided comparisons hold exactly when the rates differ by more than 10; the test is symmetric and false for equal rates |
| `LeakGuard.StopIndex` | lib/water_leakage_guard/WaterLeakageGuard.cpp:24-29 | the walk stops at or below its start, at the anchor or at a sensor that balances the anchor, with every sensor it passed leaked against the anchor |
| `LeakGuard.MonitorResult` | lib/water_leakage_guard/WaterLeakageGuard.cpp:12-32 | the scan's result: -1 with fewer than two sensors, else 0 or one past the stop index, with the `uint8_t` start index and the `int8_t` result; characterised by `MonitorSpecified` and `MonitorFindsBoundary` |
| `LeakGuard.MonitorSpecified` | lib/water_leakage_guard/WaterLeakageGuard.cpp:12-32 | for up to 128 sensors, the scan gives -1 exactly when fewer than two are registered; otherwise it gives a result in [0, n-1], which is 0 exactly when the last sensor balances sensor 0 and is the leaking segment's boundary otherwise |
| `LeakGuard.SegmentBoundaryUnique` | lib/water_leakage_guard/WaterLeakageGuard.cpp:24-31 | at most one index bounds the leaking segment, so a nonzero scan result is determined by the rates |
| `LeakGuard.MonitorFindsBoundary` | lib/water_leakage_guard/WaterLeakageGuard.cpp:24-31 | if an index bounds the leaking segment, the scan reports exactly that index (converse of MonitorSpecified) |
| `LeakGuard.MonitorExamples` | lib/water_leakage_guard/WaterLeakageGuard.cpp:12-43 | rates 10, 10, 10 give 0; rates 10, 10, 25 give 2; a single sensor gives -1 |
| `LeakGuard.WaterLeakageGuard.constructor` | lib/water_leakage_guard/WaterLeakageGuard.h:10 | a new guard has no sensors |
| `LeakGuard.WaterLeakageGuard.AddSensor` | lib/water_leakage_guard/WaterLeakageGuard.cpp:5-10 | exactly one fresh sensor is appended, on the given pin with calibration 7.5, its four unset fields holding the power-on values; earlier sensors and their rates are unchanged |
| `LeakGuard.WaterLeakageGuard.Monitor` | lib/water_leakage_guard/WaterLeakageGuard.cpp:12-32 | the loop's result is `MonitorResult` of the current rates, including the 8-bit index and result widths, and the method modifies nothing |
| `ConfigurationManager.Lookup` | lib/configuration_manager/ConfigurationManager.cpp:123-129 | `getString(key, "")` on the store's contents: the stored string, or "" for a key never written |
| `ConfigurationManager.ReadKey` | lib/configuration_manager/ConfigurationManager.cpp:123-129 | a read through the store library: `Lookup` on an opened store, "" on one never opened; characterised by `WriteThenRead`, `UnopenedStoreLosesWrites` and `NeverWrittenReadsEmpty` |
| `ConfigurationManager.WriteKey` | lib/configuration_manager/ConfigurationManager.cpp:132-154 | a `putString` through the store library: an opened store takes the value, one never opened keeps its contents; characterised by `WriteThenRead` and `UnopenedStoreLosesWrites` |
| `ConfigurationManager.WriteThenRead` | lib/configuration_manager/ConfigurationManager.cpp:123-154 | on an opened store, writing a key and reading it back returns the written value; every other key reads as before |
| `ConfigurationManager.UnopenedStoreLosesWrites` | lib/configuration_manager/ConfigurationManager.cpp:123-154 | on a store that was never opened, a write leaves the contents as they were and every read gives "" |
| `ConfigurationManager.NeverWrittenReadsEmpty` | lib/configuration_manager/ConfigurationManager.cpp:123-129 | credentials that were never written read as the empty string, whether or not the store is open |
| `ConfigurationManager.ConfigManager.constructor` | lib/configuration_manager/ConfigurationManager.cpp:42-44 | both flags start false, and the store holds what persistent storage held |
| `ConfigurationManager.ConfigManager.InitStorage` | lib/configuration_manager/ConfigurationManager.cpp:48-52 | the first call opens the store under "wms-dev" and sets the flag; later calls change nothing |
| `ConfigurationManager.ConfigManager.StartConfigMode` | lib/configuration_manager/ConfigurationManager.cpp:54-108 | when already active, the result is false and nothing changes; otherwise the radio is set up once, the result is what the library reports, and the active flag becomes true only when that report is success |
| `ConfigurationManager.ConfigManager.StopConfigMode` | lib/configuration_manager/ConfigurationManager.cpp:110-120 | when inactive, the result is false and nothing changes; otherwise deinit is called, the result is its report, and the flag clears only on success |
| `ConfigurationManager.ConfigManager.GetWifiSsid` | lib/configuration_manager/ConfigurationManager.cpp:123-125 | the stored SSID; "" if the key is missing or the store was never opened |
| `ConfigurationManager.ConfigManager.GetWifiPass` | lib/configuration_manager/ConfigurationManager.cpp:127-129 | the stored password; "" if the key is missing or the store was never opened |
| `ConfigurationManager.ConfigManager.SetWifiSsid` | lib/configuration_manager/ConfigurationManager.cpp:132-142 | on an opened store the SSID key now reads as the new value; on one never opened nothing changes; the password key reads as before either way |
| `ConfigurationManager.ConfigManager.SetWifiPass` | lib/configuration_manager/ConfigurationManager.cpp:144-154 | on an opened store the password key now reads as the new value; on one never opened nothing changes; the SSID key reads as before either way |
| `ConfigurationManager.StartTwice` | lib/configuration_manager/ConfigurationManager.cpp:54-108 | starting twice: the first start succeeds, the second returns false, and the radio is set up only once |
| `ConfigurationManager.CredentialsRoundTrip` | lib/configuration_manager/ConfigurationManager.cpp:48-154 | after `init_storage`, credentials written through the setters read back exactly, whatever the store held before |
| `ConfigurationManager.CredentialsWithoutStorage` | lib/configuration_manager/ConfigurationManager.cpp:123-154 | without `init_storage`, both writes are lost, both reads give "", and the store keeps what it held |
| `MainProgram.ModeActions` | lib/main/MainProgram.h:104-125 | the helpers one `loop()` pass runs, in order, for each pair of remembered mode and reading; characterised by `ModeEdges` and `EntriesAlternate` |
| `MainProgram.RunActions` | lib/main/MainProgram.h:104-125 | the helpers each tick of a run runs, one entry per reading; characterised by `RunActionsAt`, `ModeEdges` and `EntriesAlternate`, and tied to the controller by `LoopRunFromInitialGlobals` |
| `MainProgram.RunActionsAt` | lib/main/MainProgram.h:104-125 | in any run of ticks, tick t runs exactly the helpers for its own edge: the mode remembered before it, and its reading |
| `MainProgram.ModeEdges` | lib/main/MainProgram.h:104-125 | at every tick: `start_configuration_mode` runs exactly on a Normal→Config edge; `start_normal_mode` and `stop_configuration_mode` run exactly on a Config→Normal edge; `loop_normal_mode` runs exactly on a Normal reading; none of them runs twice in one tick |
| `MainProgram.SelectorScenario` | lib/main/MainProgram.h:104-125 | the readings N, N, C, C, N enter configuration only at tick 3 and normal mode only at tick 5 |
| `MainProgram.EntriesAlternate` | lib/main/MainProgram.h:104-125 | in any run, entering configuration and entering normal mode alternate, and the first entry leaves the starting mode |
| `MainProgram.WifiPoll` | lib/main/MainProgram.h:135-162 | one `check_wifi_connection`: the new connected flag is the status, and the telemetry connection opens when the status is up and the flag was down; characterised by `InitFiresOnRisingEdge` |
| `MainProgram.InitFirings` | lib/main/MainProgram.h:135-169 | for each poll of a run, whether it opens the telemetry connection, one entry per poll; characterised by `InitFiresOnRisingEdge` |
| `MainProgram.InitFiresOnRisingEdge` | lib/main/MainProgram.h:135-169 | the telemetry connection is opened exactly at the polls that find Wi-Fi up right after one that found it down |
| `MainProgram.DataDue` | lib/main/MainProgram.h:282-283 | a report is due when the `uint64_t` time since the last one is strictly over 5000 ms; characterised by `DataInterval` |
| `MainProgram.DataInterval` | lib/main/MainProgram.h:281-290 | without clock wrap, a report is due exactly when strictly more than 5000 ms have passed, and none is due right after one |
| `MainProgram.ReportChanges` | lib/main/MainProgram.h:320-347 | the send-on-change report with the previous flow kept at full precision (the corrected reading of line 42); characterised by `ReportSendsChanges` and `ReportIdempotent` |
| `MainProgram.ReportSendsChanges` | lib/main/MainProgram.h:306-347 | nothing is sent while disconnected; when connected, a value is sent exactly when it differs from the stored one, flow before leak, only flow and leak values are sent, and both readings are stored |
| `MainProgram.ReportIdempotent` | lib/main/MainProgram.h:320-347 | reporting the same readings again sends nothing (send-on-change with the flow kept at full precision) |
| `MainProgram.FlowReportAsWritten` | lib/main/MainProgram.h:320-333 | the flow half of the report as written: compare the reading with the `uint8_t` previous value, and on a difference send and store the reading truncated to an integer |
| `MainProgram.TruncatedFlowResends` | lib/main/MainProgram.h:320-333 | as written, the `uint8_t` flow memory makes a steady 2.5 L/min be sent again at every report |
| `MainProgram.TruncatedFlowAlwaysResends` | lib/main/MainProgram.h:320-333 | as written, every steady reading in [0, 256) with a fractional part is sent again at every report, and its truncation is stored again |
| `MainProgram.NormalCalls` | lib/main/MainProgram.h:274-297 | the calls one `loop_normal_mode` makes, in order; characterised by `NormalPassSamplesOnce` and `NormalPassCalls` |
| `MainProgram.NormalPassSamplesOnce` | lib/main/MainProgram.h:292-293 | every normal-mode pass samples the sensors exactly once |
| `MainProgram.NormalPassCalls` | lib/main/MainProgram.h:274-297 | a normal-mode pass services telemetry once exactly when connected, reads the average flow once exactly when a report is due, and opens the telemetry connection once exactly on a Wi-Fi rising edge; otherwise none of these |
| `MainProgram.CredentialsPresent` | lib/main/MainProgram.h:222-234 | both credentials read non-empty through the store (the `isEmpty` test of line 229) |
| `MainProgram.StartCalls` | lib/main/MainProgram.h:228-245 | `WiFi.begin` with both credentials exactly when both read non-empty, else nothing |
| `MainProgram.Controller.constructor` | lib/main/MainProgram.h:34-46 | the globals start as declared: previous mode Normal, both Wi-Fi flags false, the interval clock and previous values 0 |
| `MainProgram.Controller.StartConfigurationMode` | lib/main/MainProgram.h:256-260 | records the helper and starts the radio service, which stays unchanged if it was already active |
| `MainProgram.Controller.StopConfigurationMode` | lib/main/MainProgram.h:262-265 | records the helper and stops the radio service when it is active |
| `MainProgram.Controller.StartNormalMode` | lib/main/MainProgram.h:220-246 | `wifi_configurated` becomes true exactly when both credentials read non-empty through the store, and Wi-Fi is started with them exactly then |
| `MainProgram.Controller.CheckWifiConnection` | lib/main/MainProgram.h:135-169 | the connected flag follows the poll, and the telemetry connection is opened only on the rising edge |
| `MainProgram.Controller.MonitorWaterLeakage` | lib/main/MainProgram.h:306-347 | reads the average flow, then sends and stores exactly what `ReportChanges` says |
| `MainProgram.Controller.LoopNormalMode` | lib/main/MainProgram.h:274-297 | makes exactly `NormalCalls`: services telemetry when connected, reports and restarts the interval only when more than 5000 ms have passed, samples the sensors, then polls Wi-Fi |
| `MainProgram.Controller.SetupAsWritten` | lib/main/MainProgram.h:64-98 | `setup()` as written: registers sensor pin 27 with factor 7.5 and its power-on counters, then enters the selected mode without updating `previous_mode` and without opening the store; states every field it writes |
| `MainProgram.Controller.Setup` | lib/main/MainProgram.h:64-98 | `setup()` with the store opened first: the store is open afterwards, opened once, the new sensor has pin 27, factor 7.5 and its power-on counters, and normal-mode entry reads the stored credentials |
| `MainProgram.Controller.LeaveConfiguration` | lib/main/MainProgram.h:115-118 | the Config→Normal edge: `start_normal_mode`, then `stop_configuration_mode`, with both effects |
| `MainProgram.Controller.NormalTick` | lib/main/MainProgram.h:113-124 | a pass on a Normal reading: the edge helpers when coming from configuration, then the normal body; states every field afterwards |
| `MainProgram.Controller.Loop` | lib/main/MainProgram.h:104-125 | runs exactly `ModeActions` for the edge; `previous_mode` becomes the reading; the radio flag and radio calls change only on an edge; on a Normal reading, the calls, Wi-Fi flags, interval clock and previous values are as one normal pass leaves them; a steady Config tick changes nothing |
| `MainProgram.SetupInConfigurationThenTick` | lib/main/MainProgram.h:90-110 | booting in configuration runs `start_configuration_mode` again on the first tick, and the active flag makes that second start a no-op, so the store is opened once and the radio is set up once; runs on the corrected `Setup` |
| `MainProgram.SetupInConfigurationThenTickAsWritten` | lib/main/MainProgram.h:90-110 | the same boot with `setup()` as written: configuration is entered twice, the radio is set up once and stays active, and the store is never opened |
| `MainProgram.LoopRunFromInitialGlobals` | lib/main/MainProgram.h:104-125 | any sequence of `loop()` passes from the globals' initial values, before `setup()`, logs exactly the helpers of `RunActions` over its readings, tick after tick, so the entries it logs alternate and the first is `start_configuration_mode`; after the firmware's `setup()` in configuration this no longer holds (see `SetupInConfigurationThenTickAsWritten` and `BootInConfigurationThenNormalAsWritten`) |
| `MainProgram.BootInConfigurationThenNormalAsWritten` | lib/main/MainProgram.h:64-125 | as written: after `setup()` in configuration, a first pass that reads normal runs only `loop_normal_mode`, so `start_normal_mode` and `stop_configuration_mode` never run, Wi-Fi stays unconfigured and the radio service stays active |
| `MainProgram.SelectorRun` | lib/main/MainProgram.h:104-125 | on the controller itself, from the globals' initial values and before `setup()`, the readings N, N, C, C, N run the helpers LoopNormal, LoopNormal, StartConfig, StartNormal, StopConfig, LoopNormal, and set the radio up and tear it down once each |
| `MainProgram.ConfigureThenRunAsWritten` | lib/main/MainProgram.h:64-125 | as written: after booting in configuration and writing credentials over the radio, the next normal pass leaves Wi-Fi unconfigured and never calls `WiFi.begin`, whatever was written |
| `MainProgram.ConfigureThenRun` | lib/main/MainProgram.h:64-125 | with the store opened at power-on: the next normal pass starts Wi-Fi with exactly the credentials written over the radio, whenever both are non-empty |

## Findings

| source | as written | input that shows it | evidently intended | confidence | as-written member | corrected member |
|---|---|---|---|---|---|---|
| lib/main/MainProgram.h:42 | the previous flow value is stored in a `uint8_t`, so the float reading is truncated before the comparison at line 323 | a steady flow of 2.5 L/min while connected: 2.5 is stored as 2, and 2.5 ≠ 2 at every report | the flow is sent only when it changes | high (not executed) | `MainProgram.TruncatedFlowAlwaysResends` | `MainProgram.ReportIdempotent` |
| lib/main/MainProgram.h:64-98 | `setup()` never calls `ConfigurationManager::init_storage()`, and no function in MainProgram.h, ConfigurationManager.cpp or src/main.cpp calls it, although the store's interface asks for it before every read and write | boot in configuration mode, write SSID "home" and password "secret" over the radio, switch to normal: the writes went to a store never opened, both reads give "", and `WiFi.begin` is never called | `setup()` opens the store first, so credentials written over the radio are used on the next entry into normal mode | medium (not executed; relies on the `Preferences` library ignoring a store that was never begun, and on `get_wifi_creds`, called at MainProgram.h:224 but declared in neither ConfigurationManager.h nor ConfigurationManager.cpp, not calling `init_storage`) | `MainProgram.ConfigureThenRunAsWritten` | `MainProgram.ConfigureThenRun` |

`MainProgram.FlowReportAsWritten` models the flow comparison as written, and
`MainProgram.TruncatedFlowResends` shows it on 2.5 L/min.
`MainProgram.ReportChanges`, which `Controller.MonitorWaterLeakage` uses,
keeps the previous flow as a real number.
`MainProgram.Controller.SetupAsWritten` is `setup()` as written.
`MainProgram.Controller.Setup` opens the store first; `SetupInConfigurationThenTick`
and `ConfigureThenRun` use it. `SetupInConfigurationThenTickAsWritten`,
`BootInConfigurationThenNormalAsWritten` and `ConfigureThenRunAsWritten` use
`SetupAsWritten`. `SelectorRun` and `LoopRunFromInitialGlobals` start from the
globals' initial values and call no setup. `ConfigurationManager.CredentialsWithoutStorage` shows
the same loss on the store alone.

## Left out

- The radio stack setup (ConfigurationManager.cpp:56-100) is reduced to the success result the library reports, passed in as `radioUp` or `deinitOk`. The write callbacks are the setters `SetWifiSsid` and `SetWifiPass`; scenarios call them directly.
- The `Preferences` library is not part of this model. Its contents are a `map<string, string>`. An opened store reads and writes that map. A store never opened reads "" and drops writes.
- Interrupt critical sections (`portENTER_CRITICAL*`, the global `mux`): the pulse handler and the sample are atomic steps. Concurrency between them is not modelled.
- Float rounding in the rate and total, and float division in general: the model uses real numbers.
- FlowSensors.FlowSensor.Update: requires a nonzero calibration factor. A float division by zero gives infinity, which real numbers cannot express. The firmware only uses 7.5.
- FlowSensors.PulsesOverOneWindow: requires the first sample to open a window, because the power-on `last_time` is arbitrary.
- LeakGuard.MonitorSpecified: stated for at most 128 sensors. Beyond that the model still computes the wrapped result, but no lemma describes it.
- MainProgram.Controller.MonitorWaterLeakage: keeps the previous flow as a real number instead of a `uint8_t` (see Findings).
- `millis()` is a parameter. `loop_normal_mode` reads it twice (MainProgram.h:282, 289); the model uses one reading per tick for both. Clock wrap of the 32-bit `millis()` is not modelled beyond the 64-bit subtraction.
- `CURRENT_MODE` is read once per tick. `loop()` and `setup()` read it twice (lines 106 and 113, 90 and 94). If the two readings in `setup()` differed, it would enter neither mode; the model does not cover that.
- `get_wifi_creds` is called at lib/main/MainProgram.h:224 but declared in neither ConfigurationManager.h nor ConfigurationManager.cpp. The model's `get_wifi_creds` reads both the SSID and the password key through the store without opening it; if the real function opened the store, the second finding would not hold.
- `get_average_flow_value` (MainProgram.h:309) has no declaration in lib/. `WaterLeakageGuard::run` and `get_flow_value` are declared at WaterLeakageGuard.h:94 and :78 but defined nowhere in lib/. The telemetry `put` and `launch` (MainProgram.h:326-343) are declared nowhere in lib/, `loop` is declared at WebSocketManager.h:92 but not defined in WebSocketManager.cpp, and `init` (WebSocketManager.cpp:3) is part of WebSocketManager, which is not part of this model. All of them are opaque calls recorded in `Controller.calls`; the average flow is an input.
- The leak value comes from `random(0, 4)` and is an input in [0, 4).
- LED output, `digitalWrite`, serial logging, and the Wi-Fi indicator blink state (`wifi_led_state`, `last_wifi_led_changed`) are left out.
- `on_websocket_data` only logs, so it is left out. The telemetry client (lib/websocket_manager/) and src/main.cpp are not part of this model.
- The interrupt is registered with `this` of a temporary `FlowSensor` that is then copied into the vector (FlowSensor.cpp:13, WaterLeakageGuard.cpp:6). In the firmware, pulses therefore reach a destroyed object. This is a lifetime bug, and the model does not reproduce it: it calls `HandlePulse` on the registered sensor.
- The unused `error` field of `FlowSensor` is left out.
