/** The firmware's control loop. A selector switch chooses between normal
    mode (sample, check for leaks, report over the network) and
    configuration mode (the radio service that takes Wi-Fi credentials).
    The loop remembers the mode of the previous tick so that the actions
    that enter and leave a mode run once per change of the switch. */
module MainProgram {
  import opened Words
  import opened FlowSensors
  import opened LeakGuard
  import opened ConfigurationManager

  const WATER_FLOW_SENSOR_1_PIN: U8 := 27
  /** Milliseconds that must pass, strictly, between two leak reports. */
  const INTERVAL_PER_DATA: int := 5000
  /** Port of the telemetry server. */
  const WS_PORT: int := 8040

  /** Reading of the selector switch: low is normal, high is configuration. */
  datatype Mode = Normal | Configuration

  /** The mode-edge helpers of the control loop, recorded when they run. */
  datatype Helper = StartConfig | StartNormal | StopConfig | LoopNormal

  /** Calls into Wi-Fi, telemetry and sensor code outside the model. */
  datatype Call =
    | WifiBegin(ssid: string, pass: string)
    | WsInit(port: int)
    | WsLoop
    | ReadAverageFlow
    | SensorsRun
    | SendFlow(flow: real)
    | SendLeak(leak: int)

  /** The leak value the loop draws at random from [0, 4). */
  type LeakSample = x: int | 0 <= x < 4

  /** Everything one tick reads from outside: the selector, the clock, the
      Wi-Fi status, what the radio library reports on start and stop, the
      average flow and the leak value. */
  datatype TickInput = TickInput(
    mode: Mode, now: U64, wifiUp: bool, radioUp: bool, deinitOk: bool,
    averageFlow: real, leak: LeakSample)

  // ---------------------------------------------------------------------------
  // The mode machine

  /** Helpers one tick runs, in order, given the previous mode and the
      selector reading. */
  function ModeActions(previous: Mode, current: Mode): seq<Helper>
  {
    match (previous, current)
    case (Normal, Configuration) => [StartConfig]
    case (Configuration, Configuration) => []
    case (Configuration, Normal) => [StartNormal, StopConfig, LoopNormal]
    case (Normal, Normal) => [LoopNormal]
  }

  /** Helpers run at each tick of a run that starts after `previous`; after
      every tick the remembered mode is that tick's reading. */
  function RunActions(previous: Mode, selector: seq<Mode>): (ticks: seq<seq<Helper>>)
    ensures |ticks| == |selector|
    decreases |selector|
  {
    if selector == [] then []
    else [ModeActions(previous, selector[0])] + RunActions(selector[0], selector[1..])
  }

  /** Mode remembered before tick `t` of a run. */
  function ModeBefore(previous: Mode, selector: seq<Mode>, t: nat): Mode
    requires t < |selector|
  {
    if t == 0 then previous else selector[t - 1]
  }

  /** Tick `t` of a run runs exactly the helpers its own edge calls for. */
  lemma {:induction false} RunActionsAt(previous: Mode, selector: seq<Mode>, t: nat)
    requires t < |selector|
    ensures RunActions(previous, selector)[t] == ModeActions(ModeBefore(previous, selector, t), selector[t])
    decreases t
  {
    if t > 0 {
      RunActionsAt(selector[0], selector[1..], t - 1);
    }
  }

  /** At every tick: entering configuration runs exactly on a
      normal-to-configuration edge, entering normal mode and stopping
      configuration run exactly on a configuration-to-normal edge, the normal
      loop body runs exactly when the reading is normal, and none of them
      runs more than once in a tick. */
  lemma ModeEdges(previous: Mode, selector: seq<Mode>, t: nat)
    requires t < |selector|
    ensures var acts := RunActions(previous, selector)[t];
            var before := ModeBefore(previous, selector, t);
            && (StartConfig in acts <==> before == Normal && selector[t] == Configuration)
            && (StartNormal in acts <==> before == Configuration && selector[t] == Normal)
            && (StopConfig in acts <==> before == Configuration && selector[t] == Normal)
            && (LoopNormal in acts <==> selector[t] == Normal)
            && forall h :: multiset(acts)[h] <= 1
  {
    RunActionsAt(previous, selector, t);
  }

  /** The selector reads N, N, C, C, N after a tick that read normal:
      configuration is entered at the third tick only and normal mode at the
      fifth only. */
  lemma SelectorScenario()
    ensures RunActions(Normal, [Normal, Normal, Configuration, Configuration, Normal])
            == [[LoopNormal], [LoopNormal], [StartConfig], [], [StartNormal, StopConfig, LoopNormal]]
  {
  }

  /** The entry helper that a change away from `from` runs. */
  function Entry(from: Mode): Helper
  {
    if from == Normal then StartConfig else StartNormal
  }

  /** The entry helpers among `acts`, in order. */
  function Entries(acts: seq<Helper>): (es: seq<Helper>)
    ensures forall h :: h in es ==> h == StartConfig || h == StartNormal
  {
    if acts == [] then []
    else (if acts[0] == StartConfig || acts[0] == StartNormal then [acts[0]] else []) + Entries(acts[1..])
  }

  /** The entry helpers of a whole run, tick after tick. */
  function RunEntries(ticks: seq<seq<Helper>>): seq<Helper>
  {
    if ticks == [] then [] else Entries(ticks[0]) + RunEntries(ticks[1..])
  }

  /** Over any run, the entry helpers alternate: the first one leaves the
      starting mode, and configuration is never entered twice without normal
      mode being entered in between (and the other way round). */
  lemma {:induction false} EntriesAlternate(previous: Mode, selector: seq<Mode>)
    ensures var es := RunEntries(RunActions(previous, selector));
            && (es != [] ==> es[0] == Entry(previous))
            && forall i :: 0 <= i < |es| - 1 ==> es[i] != es[i + 1]
    decreases |selector|
  {
    if selector != [] {
      var s0 := selector[0];
      var rest := RunEntries(RunActions(s0, selector[1..]));
      EntriesAlternate(s0, selector[1..]);
      assert RunActions(previous, selector)[1..] == RunActions(s0, selector[1..]);
      var es := RunEntries(RunActions(previous, selector));
      if s0 == previous {
        assert Entries(ModeActions(previous, s0)) == [];
        assert es == rest;
      } else {
        if previous == Normal {
          assert Entries(ModeActions(previous, s0)) == [StartConfig];
        } else {
          var acts := ModeActions(previous, s0);
          assert acts == [StartNormal, StopConfig, LoopNormal];
          assert Entries(acts[2..]) == [];
          assert Entries(acts[1..]) == [];
          assert Entries(acts) == [StartNormal];
        }
        assert es == [Entry(previous)] + rest;
        assert rest != [] ==> rest[0] == Entry(s0) != Entry(previous);
        forall i | 0 <= i < |es| - 1
          ensures es[i] != es[i + 1]
        {
          if i > 0 {
            assert es[i] == rest[i - 1] && es[i + 1] == rest[i];
          }
        }
      }
    }
  }

  /** Mode remembered after a run that starts after `previous`. */
  function ModeAfter(previous: Mode, selector: seq<Mode>): Mode
  {
    if selector == [] then previous else selector[|selector| - 1]
  }

  /** One more tick at the end of a run runs the helpers of its own edge. */
  lemma {:induction false} RunActionsSnoc(previous: Mode, selector: seq<Mode>, m: Mode)
    ensures RunActions(previous, selector + [m])
            == RunActions(previous, selector) + [ModeActions(ModeAfter(previous, selector), m)]
    decreases |selector|
  {
    if selector != [] {
      assert (selector + [m])[1..] == selector[1..] + [m];
      RunActionsSnoc(selector[0], selector[1..], m);
    }
  }

  /** The helpers of a run, tick after tick, as one log. */
  function Flatten(ticks: seq<seq<Helper>>): (log: seq<Helper>)
    ensures ticks == [] ==> log == []
  {
    if ticks == [] then [] else ticks[0] + Flatten(ticks[1..])
  }

  /** Flattening one more tick appends its helpers to the log. */
  lemma {:induction false} FlattenSnoc(ticks: seq<seq<Helper>>, acts: seq<Helper>)
    ensures Flatten(ticks + [acts]) == Flatten(ticks) + acts
    decreases |ticks|
  {
    if ticks != [] {
      assert (ticks + [acts])[1..] == ticks[1..] + [acts];
      FlattenSnoc(ticks[1..], acts);
    }
  }

  /** Picking out entry helpers commutes with joining logs. */
  lemma {:induction false} EntriesAppend(a: seq<Helper>, b: seq<Helper>)
    ensures Entries(a + b) == Entries(a) + Entries(b)
    decreases |a|
  {
    if a == [] {
      assert a + b == b;
    } else {
      assert (a + b)[0] == a[0] && (a + b)[1..] == a[1..] + b;
      EntriesAppend(a[1..], b);
    }
  }

  /** The entry helpers of a flattened run are those of its ticks. */
  lemma {:induction false} EntriesFlatten(ticks: seq<seq<Helper>>)
    ensures Entries(Flatten(ticks)) == RunEntries(ticks)
    decreases |ticks|
  {
    if ticks != [] {
      EntriesAppend(ticks[0], Flatten(ticks[1..]));
      EntriesFlatten(ticks[1..]);
    }
  }

  /** The selector readings of a run of loop passes. */
  function Readings(inputs: seq<TickInput>): (selector: seq<Mode>)
    ensures |selector| == |inputs|
    ensures forall t :: 0 <= t < |inputs| ==> selector[t] == inputs[t].mode
  {
    seq(|inputs|, t requires 0 <= t < |inputs| => inputs[t].mode)
  }

  // ---------------------------------------------------------------------------
  // The Wi-Fi connection edge

  /** Result of one Wi-Fi status poll: the new `connected` flag and whether
      the telemetry connection is opened. */
  datatype Poll = Poll(connected: bool, initWs: bool)

  function WifiPoll(connected: bool, up: bool): Poll
  {
    if up then Poll(true, !connected) else Poll(false, false)
  }

  /** Whether each of a sequence of polls opens the telemetry connection. */
  function InitFirings(connected: bool, polls: seq<bool>): (fires: seq<bool>)
    ensures |fires| == |polls|
    decreases |polls|
  {
    if polls == [] then []
    else [WifiPoll(connected, polls[0]).initWs] + InitFirings(WifiPoll(connected, polls[0]).connected, polls[1..])
  }

  /** The telemetry connection is opened exactly at the polls that find Wi-Fi
      up right after a poll (or a start) that found it down. */
  lemma {:induction false} InitFiresOnRisingEdge(connected: bool, polls: seq<bool>, t: nat)
    requires t < |polls|
    ensures InitFirings(connected, polls)[t] == (polls[t] && !(if t == 0 then connected else polls[t - 1]))
    decreases t
  {
    if t > 0 {
      InitFiresOnRisingEdge(WifiPoll(connected, polls[0]).connected, polls[1..], t - 1);
    }
  }

  // ---------------------------------------------------------------------------
  // The data interval

  /** Whether a leak report is due: strictly more than the interval has
      passed since the last one, in 64-bit unsigned time. */
  predicate DataDue(last: U64, now: U64)
  {
    Sub64(now, last) > INTERVAL_PER_DATA
  }

  /** Without clock wrap-around, a report is due exactly when more than
      5000 ms have passed; right after a report none is due. */
  lemma DataInterval(last: U64, now: U64)
    requires last <= now
    ensures DataDue(last, now) <==> now - last > INTERVAL_PER_DATA
    ensures !DataDue(now, now)
  {
  }

  // ---------------------------------------------------------------------------
  // Send-on-change

  /** What a leak report sends and the previous values it leaves behind. */
  datatype Report = Report(sends: seq<Call>, flow: real, leak: U8)

  function ReportChanges(connected: bool, prevFlow: real, prevLeak: U8, flow: real, leak: LeakSample): Report
  {
    if !connected then Report([], prevFlow, prevLeak)
    else
      Report((if flow != prevFlow then [SendFlow(flow)] else [])
             + (if leak != prevLeak then [SendLeak(leak)] else []),
             flow, leak)
  }

  /** A report sends nothing while disconnected; when connected it sends the
      flow exactly when it differs from the stored one and the leak value
      exactly when it differs from its stored one, flow first, and stores
      both readings. */
  lemma ReportSendsChanges(connected: bool, prevFlow: real, prevLeak: U8, flow: real, leak: LeakSample)
    ensures var r := ReportChanges(connected, prevFlow, prevLeak, flow, leak);
            && (!connected ==> r == Report([], prevFlow, prevLeak))
            && (connected ==> r.flow == flow && r.leak == leak)
            && (forall v :: SendFlow(v) in r.sends <==> connected && flow != prevFlow && v == flow)
            && (forall v :: SendLeak(v) in r.sends <==> connected && leak != prevLeak && v == leak)
            && |r.sends| <= 2
            && (forall x :: x in r.sends ==> x.SendFlow? || x.SendLeak?)
            && (|r.sends| == 2 ==> r.sends[0].SendFlow?)
  {
  }

  /** Reporting the same readings a second time sends nothing. */
  lemma ReportIdempotent(connected: bool, prevFlow: real, prevLeak: U8, flow: real, leak: LeakSample)
    ensures var r := ReportChanges(connected, prevFlow, prevLeak, flow, leak);
            ReportChanges(connected, r.flow, r.leak, flow, leak).sends == []
  {
  }

  /** The flow report as the firmware has it: the previous flow is kept in a
      `uint8_t`, so the stored value is the reading truncated to an integer
      (defined for readings in [0, 256)). Result: (send, stored value). */
  function FlowReportAsWritten(connected: bool, previous: U8, flow: real): (bool, U8)
    requires 0.0 <= flow < 256.0
  {
    if !connected then (false, previous)
    else if flow != previous as real then (true, flow.Floor)
    else (false, previous)
  }

  /** A steady flow of 2.5 litres per minute is sent at every report, not
      only when it changes: 2.5 is stored as 2, which differs from 2.5 again. */
  lemma TruncatedFlowResends()
    ensures var first := FlowReportAsWritten(true, 0, 2.5);
            && first == (true, 2)
            && FlowReportAsWritten(true, first.1, 2.5) == (true, 2)
  {
  }

  /** Every steady reading with a fractional part is sent again at every
      report: the truncated value stored after one report differs from the
      same reading at the next, and the report stores it once more. */
  lemma TruncatedFlowAlwaysResends(flow: real)
    requires 0.0 <= flow < 256.0 && flow != flow.Floor as real
    ensures 0 <= flow.Floor < U8_LIMIT
    ensures FlowReportAsWritten(true, flow.Floor, flow) == (true, flow.Floor)
  {
  }

  // ---------------------------------------------------------------------------
  // One pass of the normal-mode body

  /** Calls one pass of the normal-mode body makes: the telemetry service
      call when connected, the report when due, the sensor sampling, and the
      telemetry init when the Wi-Fi poll finds a rising edge. */
  function NormalCalls(connected: bool, due: bool, sends: seq<Call>, wifiUp: bool): seq<Call>
  {
    (if connected then [WsLoop] else [])
    + (if due then [ReadAverageFlow] + sends else [])
    + [SensorsRun]
    + (if WifiPoll(connected, wifiUp).initWs then [WsInit(WS_PORT)] else [])
  }

  /** The calls of one normal-mode pass, counted: the report's sends are
      counted by `ms`, and each of the other calls is counted by its condition. */
  function PassCount(connected: bool, due: bool, ms: multiset<Call>, wifiUp: bool): multiset<Call>
  {
    (if connected then multiset{WsLoop} else multiset{})
    + (if due then multiset{ReadAverageFlow} + ms else multiset{})
    + multiset{SensorsRun}
    + (if wifiUp && !connected then multiset{WsInit(WS_PORT)} else multiset{})
  }

  /** Every pass of the normal-mode body samples the sensors exactly once. */
  lemma NormalPassSamplesOnce(connected: bool, due: bool, sends: seq<Call>, wifiUp: bool)
    requires SensorsRun !in sends
    ensures multiset(NormalCalls(connected, due, sends, wifiUp))[SensorsRun] == 1
  {
    assert multiset(NormalCalls(connected, due, sends, wifiUp)) == PassCount(connected, due, multiset(sends), wifiUp);
  }

  /** A normal-mode pass services telemetry once when connected and never
      otherwise, reads the average flow once when a report is due and never
      otherwise, and opens the telemetry connection once when Wi-Fi comes up
      after being down and never otherwise. The report's own sends are only
      flow and leak values (ReportSendsChanges), so none of these calls is
      among them. */
  lemma NormalPassCalls(connected: bool, due: bool, sends: seq<Call>, wifiUp: bool)
    requires WsLoop !in sends && ReadAverageFlow !in sends && WsInit(WS_PORT) !in sends
    ensures var m := multiset(NormalCalls(connected, due, sends, wifiUp));
            && m[WsLoop] == (if connected then 1 else 0)
            && m[ReadAverageFlow] == (if due then 1 else 0)
            && m[WsInit(WS_PORT)] == (if wifiUp && !connected then 1 else 0)
  {
    assert multiset(NormalCalls(connected, due, sends, wifiUp)) == PassCount(connected, due, multiset(sends), wifiUp);
  }

  // ---------------------------------------------------------------------------
  // The firmware's global state

  /** Both credentials read non-empty from the store. */
  predicate CredentialsPresent(isOpen: bool, store: map<string, string>)
  {
    ReadKey(isOpen, store, SSID_KEY) != "" && ReadKey(isOpen, store, PASS_KEY) != ""
  }

  /** Wi-Fi calls that entering normal mode makes: `WiFi.begin` with both
      credentials when both read non-empty, nothing otherwise. */
  function StartCalls(isOpen: bool, store: map<string, string>): seq<Call>
  {
    if CredentialsPresent(isOpen, store)
    then [WifiBegin(ReadKey(isOpen, store, SSID_KEY), ReadKey(isOpen, store, PASS_KEY))]
    else []
  }

  class Controller {
    var previousMode: Mode
    var wifiConfigurated: bool
    var wifiConnected: bool
    var lastTimeUpdateData: U64
    var previousWaterFlowValue: real
    var previousWaterLeakValue: U8
    /** Mode-edge helpers run so far, oldest first. */
    var actions: seq<Helper>
    /** Calls into outside code so far, oldest first. */
    var calls: seq<Call>
    const config: ConfigManager
    const guard: WaterLeakageGuard

    /** The globals' initial values; `stored` is what persistent storage
        holds at power-on. */
    constructor (stored: map<string, string>)
      ensures previousMode == Normal && !wifiConfigurated && !wifiConnected
      ensures lastTimeUpdateData == 0 && previousWaterFlowValue == 0.0 && previousWaterLeakValue == 0
      ensures actions == [] && calls == []
      ensures fresh(config) && fresh(guard) && guard.sensors == []
      ensures !config.isStorageInitialized && !config.isBleActive
      ensures config.preferences == stored && config.calls == []
    {
      previousMode := Normal;
      wifiConfigurated := false;
      wifiConnected := false;
      lastTimeUpdateData := 0;
      previousWaterFlowValue := 0.0;
      previousWaterLeakValue := 0;
      actions := [];
      calls := [];
      config := new ConfigManager(stored);
      guard := new WaterLeakageGuard();
    }

    /** Enters configuration: starts the radio service, which does nothing
        when it is already active. */
    method StartConfigurationMode(radioUp: bool)
      modifies this`actions, config`isBleActive, config`calls
      ensures actions == old(actions) + [StartConfig]
      ensures config.isBleActive == (old(config.isBleActive) || radioUp)
      ensures config.calls == old(config.calls) + (if old(config.isBleActive) then [] else [RadioSetup])
    {
      actions := actions + [StartConfig];
      var _ := config.StartConfigMode(radioUp);
    }

    /** Leaves configuration: stops the radio service if it is active. */
    method StopConfigurationMode(deinitOk: bool)
      modifies this`actions, config`isBleActive, config`calls
      ensures actions == old(actions) + [StopConfig]
      ensures config.isBleActive == (old(config.isBleActive) && !deinitOk)
      ensures config.calls == old(config.calls) + (if old(config.isBleActive) then [RadioDeinit] else [])
    {
      actions := actions + [StopConfig];
      var _ := config.StopConfigMode(deinitOk);
    }

    /** Enters normal mode: reads both credentials; if either is empty it
        marks Wi-Fi unconfigured and connects nowhere, otherwise it starts
        connecting with them and marks Wi-Fi configured. */
    method StartNormalMode()
      modifies this`actions, this`wifiConfigurated, this`calls
      ensures actions == old(actions) + [StartNormal]
      ensures wifiConfigurated == CredentialsPresent(config.isStorageInitialized, config.preferences)
      ensures calls == old(calls) + StartCalls(config.isStorageInitialized, config.preferences)
    {
      actions := actions + [StartNormal];
      var ssid := config.GetWifiSsid();
      var pass := config.GetWifiPass();
      if ssid == "" || pass == "" {
        wifiConfigurated := false;
        return;
      }
      calls := calls + [WifiBegin(ssid, pass)];
      wifiConfigurated := true;
    }

    /** Polls the Wi-Fi status: opens the telemetry connection on the first
        poll that finds Wi-Fi up after it was down; a poll that finds it down
        clears the flag. */
    method CheckWifiConnection(wifiUp: bool)
      modifies this`wifiConnected, this`calls
      ensures wifiConnected == WifiPoll(old(wifiConnected), wifiUp).connected
      ensures calls == old(calls) + (if WifiPoll(old(wifiConnected), wifiUp).initWs then [WsInit(WS_PORT)] else [])
    {
      if wifiUp {
        if !wifiConnected {
          wifiConnected := true;
          calls := calls + [WsInit(WS_PORT)];
        }
        return;
      }
      wifiConnected := false;
    }

    /** Reads the average flow, then, when connected, sends each reading
        that differs from the one stored and stores it. */
    method MonitorWaterLeakage(averageFlow: real, leak: LeakSample)
      modifies this`calls, this`previousWaterFlowValue, this`previousWaterLeakValue
      ensures var r := ReportChanges(wifiConnected, old(previousWaterFlowValue), old(previousWaterLeakValue), averageFlow, leak);
              && calls == old(calls) + [ReadAverageFlow] + r.sends
              && previousWaterFlowValue == r.flow
              && previousWaterLeakValue == r.leak
    {
      calls := calls + [ReadAverageFlow];
      if !wifiConnected {
        return;
      }
      if averageFlow != previousWaterFlowValue {
        calls := calls + [SendFlow(averageFlow)];
        previousWaterFlowValue := averageFlow;
      }
      if leak != previousWaterLeakValue {
        calls := calls + [SendLeak(leak)];
        previousWaterLeakValue := leak;
      }
    }

    /** The normal-mode body: service the telemetry connection when
        connected, report when the data interval has passed and restart the
        interval, sample the sensors, then poll Wi-Fi. */
    method LoopNormalMode(now: U64, wifiUp: bool, averageFlow: real, leak: LeakSample)
      modifies this`actions, this`calls, this`lastTimeUpdateData, this`previousWaterFlowValue,
               this`previousWaterLeakValue, this`wifiConnected
      ensures actions == old(actions) + [LoopNormal]
      ensures lastTimeUpdateData == if DataDue(old(lastTimeUpdateData), now) then now else old(lastTimeUpdateData)
      ensures wifiConnected == WifiPoll(old(wifiConnected), wifiUp).connected
      ensures var due := DataDue(old(lastTimeUpdateData), now);
              var r := ReportChanges(old(wifiConnected), old(previousWaterFlowValue), old(previousWaterLeakValue), averageFlow, leak);
              && calls == old(calls) + NormalCalls(old(wifiConnected), due, r.sends, wifiUp)
              && previousWaterFlowValue == (if due then r.flow else old(previousWaterFlowValue))
              && previousWaterLeakValue == (if due then r.leak else old(previousWaterLeakValue))
    {
      actions := actions + [LoopNormal];
      if wifiConnected {
        calls := calls + [WsLoop];
      }
      var elapsed := Sub64(now, lastTimeUpdateData);
      if elapsed > INTERVAL_PER_DATA {
        MonitorWaterLeakage(averageFlow, leak);
        lastTimeUpdateData := now;
      }
      calls := calls + [SensorsRun];
      CheckWifiConnection(wifiUp);
    }

    /** Power-on as the firmware has it: registers the flow sensor, then
        enters the mode the selector shows, without recording it as the
        previous mode. The store is not opened. */
    method SetupAsWritten(mode: Mode, radioUp: bool, junk: PowerOnState)
      modifies this`actions, this`wifiConfigurated, this`calls, config`isBleActive, config`calls, guard`sensors
      ensures |guard.sensors| == |old(guard.sensors)| + 1
      ensures guard.sensors[..|old(guard.sensors)|] == old(guard.sensors)
      ensures fresh(guard.sensors[|old(guard.sensors)|])
      ensures guard.sensors[|old(guard.sensors)|].pin == WATER_FLOW_SENSOR_1_PIN
      ensures guard.sensors[|old(guard.sensors)|].calibrationFactor == CALIBRATION_FACTOR
      ensures guard.sensors[|old(guard.sensors)|].pulseCount == junk.pulseCount
      ensures guard.sensors[|old(guard.sensors)|].lastTime == junk.lastTime
      ensures guard.sensors[|old(guard.sensors)|].flowRate == junk.flowRate
      ensures guard.sensors[|old(guard.sensors)|].totalLitres == junk.totalLitres
      ensures mode == Configuration ==>
                && actions == old(actions) + [StartConfig]
                && config.isBleActive == (old(config.isBleActive) || radioUp)
                && config.calls == old(config.calls) + (if old(config.isBleActive) then [] else [RadioSetup])
                && wifiConfigurated == old(wifiConfigurated) && calls == old(calls)
      ensures mode == Normal ==>
                && actions == old(actions) + [StartNormal]
                && wifiConfigurated == CredentialsPresent(config.isStorageInitialized, config.preferences)
                && calls == old(calls) + StartCalls(config.isStorageInitialized, config.preferences)
                && config.isBleActive == old(config.isBleActive) && config.calls == old(config.calls)
    {
      guard.AddSensor(WATER_FLOW_SENSOR_1_PIN, junk);
      if mode == Configuration {
        StartConfigurationMode(radioUp);
      } else {
        StartNormalMode();
      }
    }

    /** Power-on with the store opened first, as the store's interface asks
        of its callers; everything else as in SetupAsWritten. */
    method Setup(mode: Mode, radioUp: bool, junk: PowerOnState)
      modifies this`actions, this`wifiConfigurated, this`calls, guard`sensors
      modifies config`isStorageInitialized, config`isBleActive, config`calls
      ensures config.isStorageInitialized
      ensures |guard.sensors| == |old(guard.sensors)| + 1
      ensures guard.sensors[..|old(guard.sensors)|] == old(guard.sensors)
      ensures fresh(guard.sensors[|old(guard.sensors)|])
      ensures guard.sensors[|old(guard.sensors)|].pin == WATER_FLOW_SENSOR_1_PIN
      ensures guard.sensors[|old(guard.sensors)|].calibrationFactor == CALIBRATION_FACTOR
      ensures guard.sensors[|old(guard.sensors)|].pulseCount == junk.pulseCount
      ensures guard.sensors[|old(guard.sensors)|].lastTime == junk.lastTime
      ensures guard.sensors[|old(guard.sensors)|].flowRate == junk.flowRate
      ensures guard.sensors[|old(guard.sensors)|].totalLitres == junk.totalLitres
      ensures var opening := if old(config.isStorageInitialized) then [] else [StoreBegin(NAMESPACE)];
              && (mode == Configuration ==>
                    && actions == old(actions) + [StartConfig]
                    && config.isBleActive == (old(config.isBleActive) || radioUp)
                    && config.calls == old(config.calls) + opening + (if old(config.isBleActive) then [] else [RadioSetup])
                    && wifiConfigurated == old(wifiConfigurated) && calls == old(calls))
              && (mode == Normal ==>
                    && actions == old(actions) + [StartNormal]
                    && wifiConfigurated == CredentialsPresent(true, config.preferences)
                    && calls == old(calls) + StartCalls(true, config.preferences)
                    && config.isBleActive == old(config.isBleActive)
                    && config.calls == old(config.calls) + opening)
    {
      config.InitStorage();
      SetupAsWritten(mode, radioUp, junk);
    }

    /** The configuration-to-normal edge: enters normal mode, then stops the
        radio service. */
    method LeaveConfiguration(deinitOk: bool)
      modifies this`actions, this`wifiConfigurated, this`calls, config`isBleActive, config`calls
      ensures actions == old(actions) + [StartNormal, StopConfig]
      ensures wifiConfigurated == CredentialsPresent(config.isStorageInitialized, config.preferences)
      ensures calls == old(calls) + StartCalls(config.isStorageInitialized, config.preferences)
      ensures config.isBleActive == (old(config.isBleActive) && !deinitOk)
      ensures config.calls == old(config.calls) + (if old(config.isBleActive) then [RadioDeinit] else [])
    {
      StartNormalMode();
      StopConfigurationMode(deinitOk);
    }

    /** The part of a loop pass that a normal reading runs: after
        configuration it enters normal mode and stops configuration, then it
        runs the normal body, and it remembers normal as the previous mode. */
    method NormalTick(input: TickInput)
      modifies this, config`isBleActive, config`calls
      ensures previousMode == Normal
      ensures actions == old(actions) + ModeActions(old(previousMode), Normal)
      ensures config.isBleActive == (old(config.isBleActive) && !(old(previousMode) == Configuration && input.deinitOk))
      ensures config.calls == old(config.calls)
                              + (if old(previousMode) == Configuration && old(config.isBleActive) then [RadioDeinit] else [])
      ensures var due := DataDue(old(lastTimeUpdateData), input.now);
              var r := ReportChanges(old(wifiConnected), old(previousWaterFlowValue), old(previousWaterLeakValue),
                                     input.averageFlow, input.leak);
              var entering := old(previousMode) == Configuration;
              && calls == old(calls)
                          + (if entering then StartCalls(config.isStorageInitialized, config.preferences) else [])
                          + NormalCalls(old(wifiConnected), due, r.sends, input.wifiUp)
              && wifiConfigurated == (if entering then CredentialsPresent(config.isStorageInitialized, config.preferences)
                                      else old(wifiConfigurated))
              && wifiConnected == input.wifiUp
              && lastTimeUpdateData == (if due then input.now else old(lastTimeUpdateData))
              && previousWaterFlowValue == (if due then r.flow else old(previousWaterFlowValue))
              && previousWaterLeakValue == (if due then r.leak else old(previousWaterLeakValue))
    {
      if previousMode == Configuration {
        LeaveConfiguration(input.deinitOk);
      }
      LoopNormalMode(input.now, input.wifiUp, input.averageFlow, input.leak);
      previousMode := Normal;
    }

    /** One pass of the control loop: on a normal-to-configuration edge it
        enters configuration; on a normal reading it first, after
        configuration, enters normal mode and stops configuration, then runs
        the normal body. Afterwards the remembered mode is the reading. A
        steady configuration reading changes nothing. */
    method Loop(input: TickInput)
      modifies this, config`isBleActive, config`calls
      ensures previousMode == input.mode
      ensures actions == old(actions) + ModeActions(old(previousMode), input.mode)
      ensures config.isBleActive ==
                match (old(previousMode), input.mode)
                case (Normal, Configuration) => old(config.isBleActive) || input.radioUp
                case (Configuration, Normal) => old(config.isBleActive) && !input.deinitOk
                case _ => old(config.isBleActive)
      ensures config.calls == old(config.calls) +
                match (old(previousMode), input.mode)
                case (Normal, Configuration) => if old(config.isBleActive) then [] else [RadioSetup]
                case (Configuration, Normal) => if old(config.isBleActive) then [RadioDeinit] else []
                case _ => []
      ensures input.mode == Configuration ==>
                && calls == old(calls) && wifiConnected == old(wifiConnected)
                && lastTimeUpdateData == old(lastTimeUpdateData)
                && wifiConfigurated == old(wifiConfigurated)
                && previousWaterFlowValue == old(previousWaterFlowValue)
                && previousWaterLeakValue == old(previousWaterLeakValue)
      ensures old(previousMode) == Configuration && input.mode == Configuration ==> unchanged(this, config)
      ensures input.mode == Normal ==>
                var due := DataDue(old(lastTimeUpdateData), input.now);
                var r := ReportChanges(old(wifiConnected), old(previousWaterFlowValue), old(previousWaterLeakValue),
                                       input.averageFlow, input.leak);
                var entering := old(previousMode) == Configuration;
                && calls == old(calls)
                            + (if entering then StartCalls(config.isStorageInitialized, config.preferences) else [])
                            + NormalCalls(old(wifiConnected), due, r.sends, input.wifiUp)
                && wifiConfigurated == (if entering then CredentialsPresent(config.isStorageInitialized, config.preferences)
                                        else old(wifiConfigurated))
                && wifiConnected == input.wifiUp
                && lastTimeUpdateData == (if due then input.now else old(lastTimeUpdateData))
                && previousWaterFlowValue == (if due then r.flow else old(previousWaterFlowValue))
                && previousWaterLeakValue == (if due then r.leak else old(previousWaterLeakValue))
    {
      if input.mode == Configuration && previousMode == Normal {
        StartConfigurationMode(input.radioUp);
        previousMode := Configuration;
      }
      if input.mode == Normal {
        NormalTick(input);
      }
    }
  }

  /** Power-on with the selector at configuration leaves the previous mode
      at normal, so the first loop pass enters configuration a second time;
      the radio's active flag turns that second start into a no-op: the store
      is opened once and the radio is set up once. */
  method SetupInConfigurationThenTick(stored: map<string, string>, junk: PowerOnState)
    returns (acts: seq<Helper>, platform: seq<PlatformCall>, active: bool)
    ensures acts == [StartConfig, StartConfig]
    ensures platform == [StoreBegin(NAMESPACE), RadioSetup]
    ensures active
  {
    var c := new Controller(stored);
    c.Setup(Configuration, true, junk);
    c.Loop(TickInput(Configuration, 0, false, true, true, 0.0, 0));
    acts := c.actions;
    platform := c.config.calls;
    active := c.config.isBleActive;
  }

  /** As the firmware has it: power-on with the selector at configuration
      enters configuration, and the first loop pass, which still remembers
      normal, enters it a second time; the radio's active flag turns that
      second start into a no-op, and the store is never opened. */
  method SetupInConfigurationThenTickAsWritten(stored: map<string, string>, junk: PowerOnState)
    returns (acts: seq<Helper>, platform: seq<PlatformCall>, active: bool)
    ensures acts == [StartConfig, StartConfig]
    ensures platform == [RadioSetup]
    ensures active
  {
    var c := new Controller(stored);
    c.SetupAsWritten(Configuration, true, junk);
    c.Loop(TickInput(Configuration, 0, false, true, true, 0.0, 0));
    acts := c.actions;
    platform := c.config.calls;
    active := c.config.isBleActive;
  }

  /** Any sequence of loop passes from the globals' initial values, before
      any `setup()`, logs, tick after tick, exactly the helpers that the
      run's mode edges call for; so the entry helpers it logs alternate,
      starting with configuration. The firmware runs `setup()` first, and
      `setup()` does not record the mode it enters: after a configuration
      boot the first configuration pass enters configuration again (see
      SetupInConfigurationThenTickAsWritten), and a first normal pass never
      enters normal mode (see BootInConfigurationThenNormalAsWritten). */
  method LoopRunFromInitialGlobals(stored: map<string, string>, inputs: seq<TickInput>) returns (acts: seq<Helper>)
    ensures acts == Flatten(RunActions(Normal, Readings(inputs)))
    ensures var es := Entries(acts);
            && (es != [] ==> es[0] == StartConfig)
            && forall i :: 0 <= i < |es| - 1 ==> es[i] != es[i + 1]
  {
    var c := new Controller(stored);
    var selector := Readings(inputs);
    for i := 0 to |inputs|
      invariant fresh(c) && fresh(c.config)
      invariant c.previousMode == ModeAfter(Normal, selector[..i])
      invariant c.actions == Flatten(RunActions(Normal, selector[..i]))
    {
      RunActionsSnoc(Normal, selector[..i], selector[i]);
      FlattenSnoc(RunActions(Normal, selector[..i]), ModeActions(c.previousMode, selector[i]));
      assert selector[..i + 1] == selector[..i] + [selector[i]];
      c.Loop(inputs[i]);
    }
    assert selector[..|inputs|] == selector;
    acts := c.actions;
    EntriesFlatten(RunActions(Normal, selector));
    EntriesAlternate(Normal, selector);
  }

  /** The selector reads N, N, C, C, N from the globals' initial values,
      before any `setup()`:
      configuration is entered once, at the third pass, and normal mode once,
      at the fifth, with the radio set up and torn down once each. */
  method SelectorRun(stored: map<string, string>) returns (acts: seq<Helper>, radio: seq<PlatformCall>)
    ensures acts == [LoopNormal, LoopNormal, StartConfig, StartNormal, StopConfig, LoopNormal]
    ensures radio == [RadioSetup, RadioDeinit]
  {
    var c := new Controller(stored);
    c.Loop(TickInput(Normal, 0, false, true, true, 0.0, 0));
    c.Loop(TickInput(Normal, 1000, false, true, true, 0.0, 0));
    c.Loop(TickInput(Configuration, 2000, false, true, true, 0.0, 0));
    c.Loop(TickInput(Configuration, 3000, false, true, true, 0.0, 0));
    c.Loop(TickInput(Normal, 4000, false, true, true, 0.0, 0));
    acts := c.actions;
    radio := c.config.calls;
  }

  /** As the firmware has it: power-on with the selector at configuration,
      then a first loop pass that reads normal. The remembered mode is still
      normal, so the pass runs only the normal body: normal mode is never
      entered, Wi-Fi stays unconfigured and the radio service stays up. */
  method BootInConfigurationThenNormalAsWritten(stored: map<string, string>, junk: PowerOnState)
    returns (acts: seq<Helper>, platform: seq<PlatformCall>, active: bool, configured: bool)
    ensures acts == [StartConfig, LoopNormal]
    ensures platform == [RadioSetup]
    ensures active
    ensures !configured
  {
    var c := new Controller(stored);
    c.SetupAsWritten(Configuration, true, junk);
    c.Loop(TickInput(Normal, 0, false, true, true, 0.0, 0));
    acts := c.actions;
    platform := c.config.calls;
    active := c.config.isBleActive;
    configured := c.wifiConfigurated;
  }

  /** As the firmware has it: power-on in configuration mode, the operator
      writes credentials over the radio, then the selector goes back to
      normal. The store was never opened, so the writes are lost, normal
      mode reads both credentials as "", and Wi-Fi is never started. */
  method ConfigureThenRunAsWritten(stored: map<string, string>, ssid: string, pass: string, junk: PowerOnState)
    returns (configured: bool, made: seq<Call>)
    ensures !configured
    ensures made == [SensorsRun]
  {
    var c := new Controller(stored);
    c.SetupAsWritten(Configuration, true, junk);
    c.Loop(TickInput(Configuration, 0, false, true, true, 0.0, 0));
    c.config.SetWifiSsid(ssid);
    c.config.SetWifiPass(pass);
    c.Loop(TickInput(Normal, 0, false, true, true, 0.0, 0));
    configured := c.wifiConfigurated;
    made := c.calls;
  }

  /** The same run with the store opened at power-on: the next entry into
      normal mode starts Wi-Fi with exactly the credentials written over the
      radio, whenever both are non-empty. */
  method ConfigureThenRun(stored: map<string, string>, ssid: string, pass: string, junk: PowerOnState)
    returns (configured: bool, made: seq<Call>)
    ensures configured == (ssid != "" && pass != "")
    ensures made == (if configured then [WifiBegin(ssid, pass)] else []) + [SensorsRun]
  {
    var c := new Controller(stored);
    c.Setup(Configuration, true, junk);
    c.Loop(TickInput(Configuration, 0, false, true, true, 0.0, 0));
    c.config.SetWifiSsid(ssid);
    c.config.SetWifiPass(pass);
    c.Loop(TickInput(Normal, 0, false, true, true, 0.0, 0));
    configured := c.wifiConfigurated;
    made := c.calls;
  }
}
