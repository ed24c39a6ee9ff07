/** One wake cycle of the controller (setup() in src/main.cpp): close a valve
    left open, register for settings, read and report the sensors, water at
    most once per calendar day once the target time has passed, honour the
    manual override, and pick the one sleep duration that ends the cycle. */
module WakeCycle {
  import opened Wrappers
  import opened Settings
  import opened Persistence
  import opened Hardware
  import opened Mqtt

  /** Topics published to and subscribed to (pubs[] and subs[] of src/config.cpp). */
  const VLV_STATE_TOPIC: string := "sensors/water_thing/vlv_state"   // pub 0
  const LEVEL_TOPIC: string := "sensors/water_thing/level"           // pub 1
  const BATTERY_TOPIC: string := "sensors/water_thing/battery_voltage" // pub 2
  const READY_TOPIC: string := "water_thing/ready"                   // pub 3
  const PRESSURE_TOPIC: string := "sensors/water_thing/pressure"     // pub 4
  const SETTINGS_TOPIC: string := "water_thing/settings"             // sub 0

  /** The handler registered for settings messages (settingsMQTT). */
  const SETTINGS_HANDLER: Handler := Handler("settingsMQTT")

  /** A published payload: the valve state, a text, or a sensor value. */
  datatype Payload = ValveFlag(open: bool) | Text(text: string) | Reading(value: int)

  /** What a cycle does that is seen from outside, in order. AddSubscription
      is the entry of a topic in the local registry of subscriptions
      (main.cpp:89). The broker subscription is made by the MQTT client's
      reconnect, which subscribes to every configured topic and is not part
      of this model. */
  datatype Event =
    | Publish(topic: string, payload: Payload)
    | AddSubscription(topic: string)
    | CloseValve
    | OpenValve
    | Sleep(seconds: int)

  /** The clock reading of the cycle: seconds from now until today's target
      time (negative once it has passed) and today's day of the month. */
  datatype Clock = Clock(timeUntil: int, day: int)

  /** Today's scheduled watering is due: the target time has been reached
      (a target exactly now counts) and today is not the last day watered. */
  predicate Due(lastWaterDay: int, clock: Clock) {
    clock.timeUntil <= 0 && clock.day != lastWaterDay
  }

  /** The four ways a cycle can end. */
  datatype Action = Scheduled | Override | ShortSleep | DefaultSleep {
    predicate OpensValve() {
      Scheduled? || Override?
    }
  }

  /** The branch of main.cpp:149-200 that ends the cycle: the schedule when
      it is due; else the override when a button is held; else a sleep
      shortened to the target time when that is still ahead today, nearer
      than the default sleep time, and today is not yet watered; else the
      default sleep. */
  function Decide(lastWaterDay: int, cfg: Config, clock: Clock, pressed: bool): (a: Action)
    ensures a == Scheduled <==> Due(lastWaterDay, clock)
    ensures a == Override <==> !Due(lastWaterDay, clock) && pressed
    ensures a == ShortSleep <==> !pressed && clock.day != lastWaterDay && 0 < clock.timeUntil < cfg.defaultSleepTime
    ensures a == DefaultSleep <==> !Due(lastWaterDay, clock) && !pressed
                                   && (clock.day == lastWaterDay || clock.timeUntil >= cfg.defaultSleepTime)
  {
    if clock.timeUntil <= 0 && clock.day != lastWaterDay then Scheduled
    else if pressed then Override
    else if cfg.defaultSleepTime > clock.timeUntil && clock.day != lastWaterDay then ShortSleep
    else DefaultSleep
  }

  /** The seconds the cycle sleeps. A watering (scheduled or forced) sleeps
      for the watering duration. Otherwise, on a day not yet watered whose
      target time is ahead and nearer than the default sleep time, the sleep
      lasts exactly until the target time; in every other case it is the
      default sleep time. On a day already watered, without the override,
      the default sleep time is used, whatever the clock says. */
  function SleepSeconds(lastWaterDay: int, cfg: Config, clock: Clock, pressed: bool): (s: int)
    ensures Decide(lastWaterDay, cfg, clock, pressed).OpensValve() ==> s == cfg.timeToWater * 60
    ensures !Decide(lastWaterDay, cfg, clock, pressed).OpensValve() ==> s <= cfg.defaultSleepTime
    ensures Decide(lastWaterDay, cfg, clock, pressed) == ShortSleep ==> 0 < s < cfg.defaultSleepTime && s == clock.timeUntil
    ensures Decide(lastWaterDay, cfg, clock, pressed) == DefaultSleep ==> s == cfg.defaultSleepTime
    ensures !pressed && clock.day != lastWaterDay && 0 < clock.timeUntil < cfg.defaultSleepTime ==> s == clock.timeUntil
    ensures clock.day == lastWaterDay && !pressed ==> s == cfg.defaultSleepTime
  {
    match Decide(lastWaterDay, cfg, clock, pressed)
    case Scheduled => cfg.timeToWater * 60
    case Override => cfg.timeToWater * 60
    case ShortSleep => clock.timeUntil
    case DefaultSleep => cfg.defaultSleepTime
  }

  /** The retained state the next wake finds. One more boot is counted; the
      valve is left open exactly when the schedule was due or a button was
      pressed; lastWaterDay moves to today exactly when the schedule fired
      (the override never records a day); and once the cycle is over the
      same clock reading is no longer due. */
  function NextState(p: Persisted, cfg: Config, clock: Clock, pressed: bool): (q: Persisted)
    ensures q.bootCount == p.bootCount + 1
    ensures q.valveState <==> Due(p.lastWaterDay, clock) || pressed
    ensures q.lastWaterDay == if Due(p.lastWaterDay, clock) then clock.day else p.lastWaterDay
    ensures !Due(q.lastWaterDay, clock)
  {
    var action := Decide(p.lastWaterDay, cfg, clock, pressed);
    Persisted(
      p.bootCount + 1,
      if action == Scheduled then clock.day else p.lastWaterDay,
      action.OpensValve())
  }

  /** Events of the safety close: the stale open state is published, then
      the valve is closed. */
  function SafetyCloseEvents(wasOpen: bool): seq<Event> {
    if wasOpen then [Publish(VLV_STATE_TOPIC, ValveFlag(true)), CloseValve] else []
  }

  /** Events of the settings window: register the settings handler, then announce readiness. */
  function SyncEvents(): seq<Event> {
    [AddSubscription(SETTINGS_TOPIC), Publish(READY_TOPIC, Text("Ready"))]
  }

  /** Events of the report: valve state, level, pressure, battery. */
  function ReportEvents(valveOpen: bool, r: SensorReading): seq<Event> {
    [ Publish(VLV_STATE_TOPIC, ValveFlag(valveOpen)),
      Publish(LEVEL_TOPIC, Reading(r.tankLevel)),
      Publish(PRESSURE_TOPIC, Reading(r.pressure)),
      Publish(BATTERY_TOPIC, Reading(r.batteryVoltage)) ]
  }

  /** Events of a watering: open the valve, publish the new state. */
  function ActionEvents(a: Action): seq<Event> {
    if a.OpensValve() then [OpenValve, Publish(VLV_STATE_TOPIC, ValveFlag(true))] else []
  }

  /** The commanded valve state after `events`, starting from `open`. */
  function CommandedAfter(open: bool, events: seq<Event>): bool
    decreases |events|
  {
    if events == [] then open
    else
      var e := events[|events| - 1];
      if e == OpenValve then true
      else if e == CloseValve then false
      else CommandedAfter(open, events[..|events| - 1])
  }

  /** Every valve-state message of `t` reports the state commanded at that
      point. */
  ghost predicate StatePublishesTruthful(open: bool, t: seq<Event>) {
    forall i :: 0 <= i < |t| && t[i].Publish? && t[i].topic == VLV_STATE_TOPIC ==>
      t[i].payload == ValveFlag(CommandedAfter(open, t[..i]))
  }

  /** Commands in an event list without valve commands change nothing. */
  lemma {:induction false} CommandedAfterNoCommands(open: bool, prefix: seq<Event>, rest: seq<Event>)
    requires forall i :: 0 <= i < |rest| ==> rest[i] != OpenValve && rest[i] != CloseValve
    ensures CommandedAfter(open, prefix + rest) == CommandedAfter(open, prefix)
    decreases |rest|
  {
    if rest != [] {
      var init := rest[..|rest| - 1];
      assert (prefix + rest)[..|prefix + rest| - 1] == prefix + init;
      CommandedAfterNoCommands(open, prefix, init);
    } else {
      assert prefix + rest == prefix;
    }
  }

  /** The full trace of a cycle: safety close, settings window, report,
      watering, and the sleep that ends it. */
  function CycleTrace(p: Persisted, cfg: Config, clock: Clock, pressed: bool, reading: SensorReading): (t: seq<Event>)
    ensures |t| == (if p.valveState then 2 else 0) + 6 + (if Decide(p.lastWaterDay, cfg, clock, pressed).OpensValve() then 2 else 0) + 1
    ensures t[|t| - 1] == Sleep(SleepSeconds(p.lastWaterDay, cfg, clock, pressed))
  {
    SafetyCloseEvents(p.valveState) + SyncEvents() + ReportEvents(false, reading)
      + ActionEvents(Decide(p.lastWaterDay, cfg, clock, pressed))
      + [Sleep(SleepSeconds(p.lastWaterDay, cfg, clock, pressed))]
  }

  /** The trace of a cycle written out event by event, in the four cases of
      a valve found open or closed and a cycle that waters or not. */
  lemma CycleTraceEvents(p: Persisted, cfg: Config, clock: Clock, pressed: bool, reading: SensorReading)
    ensures var t := CycleTrace(p, cfg, clock, pressed, reading);
      var report := ReportEvents(false, reading);
      var opens := Decide(p.lastWaterDay, cfg, clock, pressed).OpensValve();
      var sleep := Sleep(SleepSeconds(p.lastWaterDay, cfg, clock, pressed));
      t == (if p.valveState then [Publish(VLV_STATE_TOPIC, ValveFlag(true)), CloseValve] else [])
           + [AddSubscription(SETTINGS_TOPIC), Publish(READY_TOPIC, Text("Ready")), report[0], report[1], report[2], report[3]]
           + (if opens then [OpenValve, Publish(VLV_STATE_TOPIC, ValveFlag(true))] else [])
           + [sleep]
  {
  }

  /** Every cycle ends in exactly one sleep, which nothing follows. */
  lemma CycleEndsInOneSleep(p: Persisted, cfg: Config, clock: Clock, pressed: bool, reading: SensorReading)
    ensures var t := CycleTrace(p, cfg, clock, pressed, reading);
      && |t| > 0 && t[|t| - 1] == Sleep(SleepSeconds(p.lastWaterDay, cfg, clock, pressed))
      && forall i :: 0 <= i < |t| - 1 ==> !t[i].Sleep?
  {
  }

  /** The valve is closed exactly when it was found open, and then before
      anything but the report of the stale open state. */
  lemma SafetyCloseComesFirst(p: Persisted, cfg: Config, clock: Clock, pressed: bool, reading: SensorReading)
    ensures var t := CycleTrace(p, cfg, clock, pressed, reading);
      && (CloseValve in t <==> p.valveState)
      && (p.valveState ==> t[0] == Publish(VLV_STATE_TOPIC, ValveFlag(true)) && t[1] == CloseValve)
  {
  }

  /** The valve is opened at most once in a cycle, exactly when the schedule
      is due or a button is pressed, and never before the safety close. */
  lemma OpenedAtMostOnceAfterClose(p: Persisted, cfg: Config, clock: Clock, pressed: bool, reading: SensorReading)
    ensures var t := CycleTrace(p, cfg, clock, pressed, reading);
      && (OpenValve in t <==> Due(p.lastWaterDay, clock) || pressed)
      && (forall i, j :: 0 <= i < |t| && 0 <= j < |t| && t[i] == OpenValve && t[j] == OpenValve ==> i == j)
      && (forall i, j :: 0 <= i < |t| && 0 <= j < |t| && t[i] == CloseValve && t[j] == OpenValve ==> i < j)
  {
    CycleTraceEvents(p, cfg, clock, pressed, reading);
  }

  /** Every valve-state message of a cycle reports the commanded state at
      that moment: the stale open state before the safety close, closed in
      the report, open after a watering. */
  lemma CycleTraceReportsCommandedState(p: Persisted, cfg: Config, clock: Clock, pressed: bool, reading: SensorReading)
    ensures StatePublishesTruthful(p.valveState, CycleTrace(p, cfg, clock, pressed, reading))
  {
    var close := SafetyCloseEvents(p.valveState);
    var sync := SyncEvents();
    var report := ReportEvents(false, reading);
    var a := Decide(p.lastWaterDay, cfg, clock, pressed);
    var sleep := [Sleep(SleepSeconds(p.lastWaterDay, cfg, clock, pressed))];
    SafetyCloseTruthful(p.valveState);
    SyncTruthful();
    TruthfulAppend(p.valveState, close, sync);
    CommandedAfterAppend(p.valveState, close, sync);
    ReportTruthful(reading);
    TruthfulAppend(p.valveState, close + sync, report);
    CommandedAfterAppend(p.valveState, close + sync, report);
    ActionTruthful(a);
    TruthfulAppend(p.valveState, close + sync + report, ActionEvents(a));
    CommandedAfterAppend(p.valveState, close + sync + report, ActionEvents(a));
    assert StatePublishesTruthful(a.OpensValve(), sleep);
    TruthfulAppend(p.valveState, close + sync + report + ActionEvents(a), sleep);
  }

  /** The safety close reports the stale state truthfully and leaves the
      valve commanded closed. */
  lemma SafetyCloseTruthful(wasOpen: bool)
    ensures StatePublishesTruthful(wasOpen, SafetyCloseEvents(wasOpen))
    ensures !CommandedAfter(wasOpen, SafetyCloseEvents(wasOpen))
  {
  }

  /** The settings window issues no valve command and no valve state. */
  lemma SyncTruthful()
    ensures StatePublishesTruthful(false, SyncEvents())
    ensures !CommandedAfter(false, SyncEvents())
  {
  }

  /** The report publishes the closed state, which is the commanded one. */
  lemma ReportTruthful(r: SensorReading)
    ensures StatePublishesTruthful(false, ReportEvents(false, r))
    ensures !CommandedAfter(false, ReportEvents(false, r))
  {
    var report := ReportEvents(false, r);
    assert report[..0] == [];
    CommandedAfterNoCommands(false, [], report);
    assert [] + report == report;
  }

  /** A watering publishes the open state after opening the valve. */
  lemma ActionTruthful(a: Action)
    ensures StatePublishesTruthful(false, ActionEvents(a))
    ensures CommandedAfter(false, ActionEvents(a)) == a.OpensValve()
  {
  }

  /** The commanded state after `a + b` is the one `b` leaves, starting from
      the one `a` leaves. */
  lemma {:induction false} CommandedAfterAppend(open: bool, a: seq<Event>, b: seq<Event>)
    ensures CommandedAfter(open, a + b) == CommandedAfter(CommandedAfter(open, a), b)
    decreases |b|
  {
    if b == [] {
      assert a + b == a;
    } else {
      assert (a + b)[..|a + b| - 1] == a + b[..|b| - 1];
      CommandedAfterAppend(open, a, b[..|b| - 1]);
    }
  }

  /** Truthful reports compose: `b` is judged from the state `a` leaves. */
  lemma TruthfulAppend(open: bool, a: seq<Event>, b: seq<Event>)
    requires StatePublishesTruthful(open, a)
    requires StatePublishesTruthful(CommandedAfter(open, a), b)
    ensures StatePublishesTruthful(open, a + b)
  {
    var t := a + b;
    forall i | 0 <= i < |t| && t[i].Publish? && t[i].topic == VLV_STATE_TOPIC
      ensures t[i].payload == ValveFlag(CommandedAfter(open, t[..i]))
    {
      if i < |a| {
        assert t[..i] == a[..i];
      } else {
        assert t[..i] == a + b[..i - |a|];
        CommandedAfterAppend(open, a, b[..i - |a|]);
      }
    }
  }

  /** A valve found open is closed by the next wake, before anything else
      is decided: watering never stays on across a second sleep, as long as
      the publish that precedes the close returns (the client retries the
      broker connection without limit). */
  lemma OpenValveClosedByNextWake(p: Persisted, w1: Wake, w2: Wake, reading: SensorReading)
    requires NextState(p, w1.cfg, w1.clock, w1.pressed).valveState
    ensures CycleTrace(NextState(p, w1.cfg, w1.clock, w1.pressed), w2.cfg, w2.clock, w2.pressed, reading)[1] == CloseValve
  {
  }

  /** The inputs of one wake. */
  datatype Wake = Wake(cfg: Config, clock: Clock, pressed: bool)

  /** The cycle endings of consecutive wakes, starting from `p`. */
  function Actions(p: Persisted, wakes: seq<Wake>): (actions: seq<Action>)
    ensures |actions| == |wakes|
    decreases |wakes|
  {
    if wakes == [] then []
    else
      var w := wakes[0];
      [Decide(p.lastWaterDay, w.cfg, w.clock, w.pressed)] + Actions(NextState(p, w.cfg, w.clock, w.pressed), wakes[1..])
  }

  /** The retained state after consecutive wakes. */
  function After(p: Persisted, wakes: seq<Wake>): Persisted
    decreases |wakes|
  {
    if wakes == [] then p
    else
      var w := wakes[0];
      After(NextState(p, w.cfg, w.clock, w.pressed), wakes[1..])
  }

  /** The number of scheduled waterings among `actions`. */
  function ScheduledCount(actions: seq<Action>): nat
    decreases |actions|
  {
    if actions == [] then 0 else (if actions[0] == Scheduled then 1 else 0) + ScheduledCount(actions[1..])
  }

  /** However many wakes fall on one day and whatever the settings, the times
      and the buttons, the schedule waters at most once that day, and not at
      all if that day was already recorded as watered. */
  lemma {:induction false} AtMostOnceOnOneDay(p: Persisted, wakes: seq<Wake>, day: int)
    requires forall i :: 0 <= i < |wakes| ==> wakes[i].clock.day == day
    ensures ScheduledCount(Actions(p, wakes)) <= 1
    ensures p.lastWaterDay == day ==> ScheduledCount(Actions(p, wakes)) == 0
    decreases |wakes|
  {
    if wakes != [] {
      var w := wakes[0];
      var q := NextState(p, w.cfg, w.clock, w.pressed);
      AtMostOnceOnOneDay(q, wakes[1..], day);
      assert Actions(p, wakes)[1..] == Actions(q, wakes[1..]);
    }
  }

  /** Each wake counts exactly one boot. */
  lemma {:induction false} EveryWakeCountsOneBoot(p: Persisted, wakes: seq<Wake>)
    ensures After(p, wakes).bootCount == p.bootCount + |wakes|
    decreases |wakes|
  {
    if wakes != [] {
      var w := wakes[0];
      EveryWakeCountsOneBoot(NextState(p, w.cfg, w.clock, w.pressed), wakes[1..]);
    }
  }

  /** The recorded day only ever changes to the day of a scheduled watering:
      after any wakes it is the initial value or the day of one of them on
      which the schedule fired. */
  lemma {:induction false} RecordedDayIsAWateringDay(p: Persisted, wakes: seq<Wake>)
    ensures After(p, wakes).lastWaterDay == p.lastWaterDay
         || exists i :: 0 <= i < |wakes| && Actions(p, wakes)[i] == Scheduled && wakes[i].clock.day == After(p, wakes).lastWaterDay
    decreases |wakes|
  {
    if wakes != [] {
      var w := wakes[0];
      var q := NextState(p, w.cfg, w.clock, w.pressed);
      RecordedDayIsAWateringDay(q, wakes[1..]);
      var r := After(p, wakes);
      if r.lastWaterDay != q.lastWaterDay {
        var i :| 0 <= i < |wakes[1..]| && Actions(q, wakes[1..])[i] == Scheduled && wakes[1..][i].clock.day == r.lastWaterDay;
        assert Actions(p, wakes)[i + 1] == Scheduled && wakes[i + 1].clock.day == r.lastWaterDay;
      } else if q.lastWaterDay != p.lastWaterDay {
        assert Actions(p, wakes)[0] == Scheduled && wakes[0].clock.day == r.lastWaterDay;
      }
    }
  }

  /** From the state of the first power-up, a wake on any real day of the
      month at or after the target time runs the scheduled watering and
      records that day, the button notwithstanding. */
  lemma FirstDueWakeWaters(cfg: Config, clock: Clock, pressed: bool)
    requires 1 <= clock.day <= 31 && clock.timeUntil <= 0
    ensures Decide(ColdBoot().lastWaterDay, cfg, clock, pressed) == Scheduled
    ensures NextState(ColdBoot(), cfg, clock, pressed).lastWaterDay == clock.day
  {
  }

  /** Neither the sleep time nor the watering duration is range-checked when
      a settings message sets it, and nothing on the way to sleepNow checks
      it either: a negative default sleep time, or a negative watering
      duration, reaches the timer as a period of at least 2^63 microseconds,
      in effect a sleep that the timer never ends. */
  lemma NegativeSettingArmsHugeTimer(lastWaterDay: int, cfg: Config, clock: Clock, pressed: bool)
    ensures var a := Decide(lastWaterDay, cfg, clock, pressed);
      var cmd := SleepNow(SleepSeconds(lastWaterDay, cfg, clock, pressed));
      && (a == DefaultSleep && INT32_MIN <= cfg.defaultSleepTime < 0 ==> cmd.timerMicros >= UINT64_MODULUS / 2)
      && (a.OpensValve() && INT32_MIN <= cfg.timeToWater * 60 < 0 ==> cmd.timerMicros >= UINT64_MODULUS / 2)
  {
  }

  /** setup(): one wake cycle, from the retained state in `rtc`, the settings
      as the settings window left them, the registry of subscriptions, one
      clock reading, the button inputs and one sensor reading. It ends in the
      single sleep command it returns. The sensor thresholds are passed to
      updateWarningLevels in swapped order, as main.cpp:103 does: the low
      level warning compares the tank level with the battery threshold and
      the low battery warning the voltage with the level threshold. */
  method Setup(rtc: RtcMemory, settings: WaterSettings, subs: Subscriptions,
               clock: Clock, inputs: InputLevels, reading: SensorReading)
    returns (cmd: SleepCommand, trace: seq<Event>, warnLowLevel: bool, warnLowBattery: bool)
    requires subs.Valid()
    modifies rtc, subs
    ensures rtc.State() == NextState(old(rtc.State()), settings.Snapshot(), clock, IsAnyPressed(inputs))
    ensures cmd == SleepNow(SleepSeconds(old(rtc.lastWaterDay), settings.Snapshot(), clock, IsAnyPressed(inputs)))
    ensures trace == CycleTrace(old(rtc.State()), settings.Snapshot(), clock, IsAnyPressed(inputs), reading)
    ensures subs.Valid() && subs.Contents() == old(subs.Contents()) + [Subscription(SETTINGS_TOPIC, SETTINGS_HANDLER)]
    ensures warnLowLevel <==> reading.tankLevel < settings.batteryLow
    ensures warnLowBattery <==> reading.batteryVoltage < settings.levelLow
  {
    ghost var p0, cfg, pressed := rtc.State(), settings.Snapshot(), IsAnyPressed(inputs);
    ghost var head := SafetyCloseEvents(p0.valveState) + SyncEvents() + ReportEvents(false, reading);
    SleepSetup(rtc);
    var valve := new Valve(rtc);
    trace := SafetyClose(rtc, valve);

    // Settings window: the updates it applies are already in `settings`.
    subs.AddSub(SETTINGS_TOPIC, SETTINGS_HANDLER);
    trace := trace + [AddSubscription(SETTINGS_TOPIC), Publish(READY_TOPIC, Text("Ready"))];

    // Sensors, thresholds, report.
    var report;
    report, warnLowLevel, warnLowBattery := SenseAndReport(settings, reading, rtc.valveState);
    trace := trace + report;
    assert trace == head;
    assert rtc.State() == p0.(bootCount := p0.bootCount + 1, valveState := false);

    var pressedNow := IsAnyPressed(inputs);
    var events;
    cmd, events := WaterOrSleep(rtc, valve, settings, clock, pressedNow);
    trace := trace + events;
  }

  /** The safety close of setup() (main.cpp:69-77): a valve the retained
      state says is open is reported and closed; afterwards it is closed in
      every case, and nothing else of the retained state changes. */
  method SafetyClose(rtc: RtcMemory, valve: Valve) returns (events: seq<Event>)
    requires valve.Valid() && valve.rtc == rtc
    modifies rtc, valve
    ensures valve.Valid()
    ensures events == SafetyCloseEvents(old(rtc.valveState))
    ensures rtc.State() == old(rtc.State()).(valveState := false)
  {
    events := [];
    if rtc.valveState {
      events := events + [Publish(VLV_STATE_TOPIC, ValveFlag(rtc.valveState))];
      valve.Close();
      events := events + [CloseValve];
    }
  }

  /** The sensor part of setup() (main.cpp:19, 103-137): sensors built
      from the settings' thresholds, the thresholds passed again in swapped
      order, one reading, and the report of valve state, tank level, pressure
      and battery voltage. The low-level warning is thus judged against the
      battery threshold and the low-battery warning against the level
      threshold. */
  method SenseAndReport(settings: WaterSettings, reading: SensorReading, valveOpen: bool)
    returns (events: seq<Event>, warnLowLevel: bool, warnLowBattery: bool)
    ensures events == ReportEvents(valveOpen, reading)
    ensures warnLowLevel <==> reading.tankLevel < settings.batteryLow
    ensures warnLowBattery <==> reading.batteryVoltage < settings.levelLow
  {
    var sensors := new Sensors(settings.GetLevelLow(), settings.GetBatteryLow());
    sensors.UpdateWarningLevels(settings.GetBatteryLow(), settings.GetLevelLow());
    sensors.ReadSensors(reading);
    warnLowBattery := sensors.GetWarningLowBattery();
    warnLowLevel := sensors.GetWarningLowLevel();
    events := [
      Publish(VLV_STATE_TOPIC, ValveFlag(valveOpen)),
      Publish(LEVEL_TOPIC, Reading(sensors.GetLevel())),
      Publish(PRESSURE_TOPIC, Reading(sensors.GetPressure())),
      Publish(BATTERY_TOPIC, Reading(sensors.GetBatteryVoltage()))];
  }

  /** The end of setup() (main.cpp:143-200), entered with the valve closed:
      the scheduled watering, else the manual override, else the choice
      between sleeping until the target time and the default sleep time.
      Each branch ends in sleepNow, after which nothing runs. */
  method WaterOrSleep(rtc: RtcMemory, valve: Valve, settings: WaterSettings, clock: Clock, pressed: bool)
    returns (cmd: SleepCommand, events: seq<Event>)
    requires valve.Valid() && valve.rtc == rtc && !rtc.valveState
    modifies rtc, valve
    ensures valve.Valid()
    ensures rtc.bootCount == old(rtc.bootCount)
    ensures rtc.lastWaterDay == NextState(old(rtc.State()), settings.Snapshot(), clock, pressed).lastWaterDay
    ensures rtc.valveState == NextState(old(rtc.State()), settings.Snapshot(), clock, pressed).valveState
    ensures cmd == SleepNow(SleepSeconds(old(rtc.lastWaterDay), settings.Snapshot(), clock, pressed))
    ensures events == ActionEvents(Decide(old(rtc.lastWaterDay), settings.Snapshot(), clock, pressed))
                      + [Sleep(SleepSeconds(old(rtc.lastWaterDay), settings.Snapshot(), clock, pressed))]
  {
    // Scheduled watering.
    if clock.timeUntil <= 0 {
      if clock.day != rtc.lastWaterDay {
        valve.Open();
        rtc.lastWaterDay := clock.day;
        events := [OpenValve, Publish(VLV_STATE_TOPIC, ValveFlag(rtc.valveState))];
        cmd := SleepNow(settings.GetTimeToWater());
        events := events + [Sleep(cmd.seconds)];
        return;
      }
    }

    // Manual override.
    if pressed {
      valve.Open();
      events := [OpenValve, Publish(VLV_STATE_TOPIC, ValveFlag(rtc.valveState))];
      cmd := SleepNow(settings.GetTimeToWater());
      events := events + [Sleep(cmd.seconds)];
      return;
    }

    // Sleep until the target time if that is sooner than the default and
    // today has not been watered yet.
    if settings.GetDefaultSleepTime() > clock.timeUntil && clock.day != rtc.lastWaterDay {
      cmd := SleepNow(clock.timeUntil);
    } else {
      cmd := SleepNow(settings.GetDefaultSleepTime());
    }
    events := [Sleep(cmd.seconds)];
  }

  /** A fresh settings object with the defaults, and a fresh registry. */
  method DefaultEnvironment() returns (settings: WaterSettings, subs: Subscriptions)
    ensures fresh(settings) && fresh(subs) && subs.Valid()
    ensures settings.Snapshot() == Defaults()
  {
    settings := new WaterSettings(TimeHHMM(20, 0), 5, 11, 5, 60);
    subs := new Subscriptions();
  }

  /** Target 20:00, now 19:59:50, last watered on day 5, today day 6, default
      sleep 60 s: nothing is watered and the cycle sleeps the 10 s left. */
  method ScenarioSleepUntilTarget() returns (cmd: SleepCommand, trace: seq<Event>)
    ensures cmd.seconds == 10 && cmd.timerMicros == 10 * US_TO_S_FACTOR
    ensures OpenValve !in trace && CloseValve !in trace
  {
    var rtc := new RtcMemory();
    rtc.lastWaterDay, rtc.valveState := 5, false;
    var settings, subs := DefaultEnvironment();
    var warnLowLevel, warnLowBattery;
    cmd, trace, warnLowLevel, warnLowBattery :=
      Setup(rtc, settings, subs, Clock(10, 6), InputLevels({}), SensorReading(0, 50, 12));
  }

  /** Target 20:00, now 20:00:01, already watered today (day 6): nothing is
      watered and the cycle sleeps the default 60 s. */
  method ScenarioAlreadyWatered() returns (cmd: SleepCommand, trace: seq<Event>, lastWaterDay: int)
    ensures cmd.seconds == 60 && OpenValve !in trace && lastWaterDay == 6
  {
    var rtc := new RtcMemory();
    rtc.lastWaterDay, rtc.valveState := 6, false;
    var settings, subs := DefaultEnvironment();
    var warnLowLevel, warnLowBattery;
    cmd, trace, warnLowLevel, warnLowBattery :=
      Setup(rtc, settings, subs, Clock(-1, 6), InputLevels({}), SensorReading(0, 50, 12));
    lastWaterDay := rtc.lastWaterDay;
  }

  /** The first wake after power-up, past the target time on day 6: the valve
      taken to be open is closed, then opened for watering, day 6 is recorded
      and the cycle sleeps the 5 minutes of watering. */
  method ScenarioFirstBootWaters() returns (cmd: SleepCommand, trace: seq<Event>, after: Persisted)
    ensures cmd.seconds == 300
    ensures |trace| > 1 && trace[1] == CloseValve && OpenValve in trace
    ensures after == Persisted(1, 6, true)
  {
    var rtc := new RtcMemory();
    var settings, subs := DefaultEnvironment();
    var warnLowLevel, warnLowBattery;
    cmd, trace, warnLowLevel, warnLowBattery :=
      Setup(rtc, settings, subs, Clock(0, 6), InputLevels({}), SensorReading(0, 50, 12));
    after := rtc.State();
  }

  /** With the default thresholds (11 and 5), a tank level of 8 raises the
      low level warning although it is above the level threshold, and a
      battery at 9 V raises no battery warning: the thresholds are swapped. */
  method ScenarioSwappedThresholds() returns (warnLowLevel: bool, warnLowBattery: bool)
    ensures warnLowLevel && !warnLowBattery
  {
    var rtc := new RtcMemory();
    var settings, subs := DefaultEnvironment();
    var cmd, trace;
    cmd, trace, warnLowLevel, warnLowBattery :=
      Setup(rtc, settings, subs, Clock(100, 6), InputLevels({}), SensorReading(0, 8, 9));
  }

  /** A settings message setting "defaultSleepTime" to -5, then a cycle on a
      day already watered: the default branch passes -5 to sleepNow and the
      timer is armed for at least 2^63 microseconds. */
  method ScenarioNegativeDefaultSleep() returns (cmd: SleepCommand)
    ensures cmd.seconds == -5 && cmd.timerMicros >= UINT64_MODULUS / 2
  {
    var rtc := new RtcMemory();
    rtc.lastWaterDay, rtc.valveState := 6, false;
    var settings, subs := DefaultEnvironment();
    settings.ExtractSettingsJson(Document(None, None, None, None, Some(-5), None, None));
    var trace, warnLowLevel, warnLowBattery;
    cmd, trace, warnLowLevel, warnLowBattery :=
      Setup(rtc, settings, subs, Clock(10, 6), InputLevels({}), SensorReading(0, 50, 12));
  }

  /** A button held on a day already watered still opens the valve, keeps the
      recorded day and sleeps for the watering duration. */
  method ScenarioManualOverride() returns (cmd: SleepCommand, after: Persisted)
    ensures cmd.seconds == 300 && after.valveState && after.lastWaterDay == 6
  {
    var rtc := new RtcMemory();
    rtc.lastWaterDay, rtc.valveState := 6, false;
    var settings, subs := DefaultEnvironment();
    var trace, warnLowLevel, warnLowBattery;
    cmd, trace, warnLowLevel, warnLowBattery :=
      Setup(rtc, settings, subs, Clock(-50, 6), InputLevels({BUTTON_SW2}), SensorReading(0, 50, 12));
    after := rtc.State();
  }
}
