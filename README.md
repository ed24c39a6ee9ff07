# water_thing wake cycle, modelled in Dafny

water_thing is ESP32 firmware for a battery-powered irrigation controller.
The controller spends nearly all its time in deep sleep. Each wake runs
`setup()` once, from top to bottom:

1. count the boot;
2. close the valve if the retained state says it was left open;
3. register a handler for the settings topic and announce readiness;
4. read the pressure and battery sensors, latching low-level and low-battery
   warnings;
5. report the valve state and the readings over MQTT;
6. water once per calendar day once the target time of day has passed, or
   open the valve when a button is held;
7. go back to sleep, either for the watering duration, until the target time,
   or for the default sleep time.

Only three variables survive the sleep: the boot count, the day of the month
last watered and the commanded valve state.

The model follows the firmware's own structure, one module per source file:

| module | file | what it holds |
|---|---|---|
| `Wrappers` | `wrappers.dfy` | `Option`, for keys that may be absent from a message |
| `Settings` | `settings.dfy` | the settings store (class `WaterSettings`) and the partial update a settings message applies (`Merge`) |
| `Persistence` | `persistence.dfy` | the retained RTC variables (class `RtcMemory`), `sleepSetup`, and the command `sleepNow` arms (timer period in µs, wake mask) |
| `Hardware` | `hardware.dfy` | the valve (class `Valve`, recording its pin writes), the sensor reader with its latching warnings (class `Sensors`), the buttons |
| `Mqtt` | `mqtt.dfy` | the subscription registry (class `Subscriptions`, over an array replaced on every add) and the message callback with its dispatch |
| `MultiTasking` | `multitasker.dfy` | the interval timer over the wrapping 32-bit millisecond counter |
| `WakeCycle` | `wake_cycle.dfy` | `setup()` as an imperative method, the functions that specify it (`NextState`, `SleepSeconds`, `CycleTrace`), and lemmas about one cycle and about any sequence of cycles |

Everything `setup()` does that is visible from outside is recorded as a trace
of events: publishes, the registration of the settings handler, valve
commands and the final sleep.
`Mqtt.Dispatch` is the reference definition of the handler-matching loop of
the message callback (mqtt_handler.h:170-175); `Callback` is proved to make
exactly its calls, and the `Dispatch` lemmas state what that loop does.
`Setup` is proved to yield exactly `CycleTrace`, to leave the retained state
`NextState` and to return the sleep command `SleepNow(SleepSeconds(...))`.
The lemmas about those functions state what the design promises:

- a valve found open is always closed first, provided each MQTT publish
  and the client loop return (see "## Left out");
- the valve is opened at most once per cycle, and exactly when watering is
  due or a button is held;
- every valve-state message reports the commanded state;
- however many wakes fall on one day, the schedule waters at most once that
  day;
- each wake counts one boot.

Two features of the code are modelled as written:

- `main.cpp:103` passes the settings' battery threshold as the sensors'
  level threshold, and the level threshold as their battery threshold.
  `Setup` and `SenseAndReport` state the swapped comparisons, and
  `ScenarioSwappedThresholds` shows a tank level above the level threshold
  raising the low-level warning.
- `sleepNow` multiplies a signed `int` by an unsigned 64-bit factor. A
  negative number of seconds therefore becomes a timer period above 2^63 µs
  (`TimerMicros`). A shortened sleep is proved positive in `SleepSeconds`.
  The default sleep time and the watering duration, however, are stored
  from a settings message without a range check, so a negative value of
  either reaches `sleepNow` unchanged. `NegativeSettingArmsHugeTimer` states
  that the timer is then armed for at least 2^63 µs, and
  `ScenarioNegativeDefaultSleep` shows a message setting the default sleep
  time to -5 leading there.

## Model

| member | source | states |
|---|---|---|
| Settings.Merge | src/water_settings.h:91-124 | the settings after one message: every key present overwrites its own field; a "waterTime" object replaces both parts, a missing "HH" or "MM" as 0; absent keys leave their fields unchanged; a deserialisation error changes nothing |
| Settings.MergeIdempotent | src/water_settings.h:101-123 | applying the same settings message twice has the effect of applying it once |
| Settings.MergeCompleteMessage | src/water_settings.h:101-123 | a message holding every key determines the resulting settings whatever they were before |
| Settings.Overlay | src/water_settings.h:101-123 | the combination of two messages in which, key by key, the later message's value wins |
| Settings.MergeTwice | src/water_settings.h:101-123 | two messages in a row act as their overlay applied once |
| Settings.ApplyAllIsOneMerge | src/water_settings.h:91-124 | any sequence of messages acts as one message: each field ends with the value from the last message holding its key, else keeps its old value |
| Settings.OnlyBatteryLowChanges | src/water_settings.h:109-111 | a message holding only "batteryLow" changes the battery threshold to any integer, unchecked, and nothing else |
| Settings.WaterTimeMissingMinute | src/water_settings.h:104-108 | a "waterTime" object without "MM" sets the minute to 0 |
| Settings.WaterSettings.constructor | src/water_settings.h:54-58 | stores the schedule, duration, thresholds and sleep time given; both request flags start false |
| Settings.WaterSettings.GetTimeToWater | src/water_settings.h:61-63 | the watering duration in seconds: a multiple of 60 that converts back to the stored minutes |
| Settings.WaterSettings.ExtractSettingsJson | src/water_settings.h:91-124 | the store afterwards holds `Merge` of its old value and the message; on a deserialisation error it is left untouched |
| Persistence.WakeMaskSelectsButtonPins | src/sleep.cpp:43 | the wake mask 0x8004 selects exactly GPIOs 2 and 15 |
| Persistence.ColdBoot | src/sleep.cpp:46-47 | at power-up no boot is counted, the recorded watering day is no real day of the month, and the valve is taken as open (initialiser in src/hardware_functions.cpp:16) |
| Persistence.RtcMemory.constructor | src/sleep.cpp:46-47 | the retained variables start with their initialisers, i.e. `ColdBoot` |
| Persistence.SleepSetup | src/sleep.cpp:50-61 | the boot count grows by one; the other retained variables are unchanged |
| Persistence.TimerMicros | src/sleep.cpp:63-68 | the timer period is an unsigned 64-bit value; for a non-negative int it is exactly the seconds times 10^6; for a negative int it wraps to at least 2^63 |
| Persistence.SleepNow | src/sleep.cpp:63-74 | the armed command carries the requested seconds, the timer period `TimerMicros` of them, and a wake mask of exactly the two button GPIOs |
| Hardware.PulseKeepsLinesExclusive | src/hardware_functions.h:258-279 | a HIGH-then-LOW pulse on one control line, from both lines LOW, never drives both lines at once and leaves both LOW |
| Hardware.Valve.constructor | src/hardware_functions.h:251-255 | a new valve has written no pin and is attached to the retained state |
| Hardware.Valve.Open | src/hardware_functions.h:258-267 | pulses the open line only, keeps the two lines exclusive, and sets the retained valve state to open, keeping the rest of the retained state |
| Hardware.Valve.Close | src/hardware_functions.h:270-279 | pulses the close line only, keeps the two lines exclusive, and sets the retained valve state to closed, keeping the rest of the retained state |
| Hardware.LatchAllIsSticky | src/hardware_functions.h:193-205 | after any number of readings a warning is set exactly when it was set before or some reading fell below the threshold; it is never cleared |
| Hardware.Sensors.constructor | src/hardware_functions.h:176-180 | stores both thresholds; both warnings start cleared |
| Hardware.Sensors.ReadSensors | src/hardware_functions.h:182-206 | stores the reading; each warning becomes set if its value is below its threshold and otherwise keeps its value; the thresholds are unchanged |
| Hardware.Sensors.UpdateWarningLevels | src/hardware_functions.h:208-211 | replaces both thresholds and nothing else |
| Hardware.IsAnyPressed | src/hardware_functions.h:351-363 | true exactly when SW1 or SW2 reads HIGH, which is exactly when a GPIO of the wake mask reads HIGH |
| Mqtt.DispatchAppend | src/mqtt_handler.h:170-175 | a subscription added last adds at most one call at the end of a dispatch, and only when its topic matches |
| Mqtt.DispatchEmptyIffNoMatch | src/mqtt_handler.h:170-175 | a message calls no handler exactly when no subscription has its topic |
| Mqtt.DispatchCallsPerSubscription | src/mqtt_handler.h:170-175 | a handler is called once per subscription of it to the message's topic, and every call passes the whole assembled message |
| Mqtt.Subscriptions.constructor | src/mqtt_handler.h:81-82 | a new registry holds no subscription |
| Mqtt.Subscriptions.AddSub | src/mqtt_handler.h:84-102 | the registry afterwards holds the old pairs in order followed by the new pair, in a fresh array, and counts one more |
| Mqtt.Subscriptions.GetSubscriptionCount | src/mqtt_handler.h:104-106 | the number of pairs added so far |
| Mqtt.Subscriptions.GetSubscription | src/mqtt_handler.h:108-110 | for an index in range, the pair added at that position |
| Mqtt.Callback | src/mqtt_handler.h:146-176 | the message text is the first `length` payload bytes read as characters, and the handlers called, in order, are those `Dispatch` names for the registry's contents |
| MultiTasking.Elapsed | src/multitasker.h:48 | the unsigned 32-bit difference of two counter values: the advance that leads from the older to the newer value modulo 2^32, and the plain difference when there was no wrap |
| MultiTasking.ElapsedAcrossWrap | src/multitasker.h:46-54 | an advance of fewer than 2^32 ms is measured exactly, even across a counter wrap |
| MultiTasking.MultiTasker.constructor | src/multitasker.h:41-44 | stores the interval; the reference time starts at 0 |
| MultiTasking.MultiTasker.IsTime | src/multitasker.h:46-54 | fires exactly when the wrapped elapsed time reaches the interval; only then does the reference move to now |
| MultiTasking.TwoCallsAtOneInstant | src/multitasker.h:41-54 | on a fresh timer the first call fires exactly when now reaches the interval; with a zero interval a second call at the same instant fires too, otherwise a call after one that fired does not |
| WakeCycle.Decide | src/main.cpp:149-200 | the branch that ends the cycle: the schedule exactly when due; the override exactly when not due and a button is held; a shortened sleep exactly when no button is held, today is unwatered and the target is ahead and nearer than the default sleep time; the default sleep in every other case |
| WakeCycle.SleepSeconds | src/main.cpp:149-200 | a watering, scheduled or forced, sleeps the watering duration; with no button on an unwatered day whose target is ahead and nearer than the default, exactly the time until the target, which is positive and below the default; in every other case exactly the default sleep time |
| WakeCycle.NextState | src/main.cpp:149-186 | the retained state after a cycle: one more boot; the valve open exactly when watering was due or a button held; the recorded day moves to today exactly when the schedule fired; afterwards the same clock reading is no longer due |
| WakeCycle.CycleEndsInOneSleep | src/main.cpp:149-200 | every cycle ends with exactly one sleep, for `SleepSeconds`, and nothing follows it |
| WakeCycle.CycleTrace | src/main.cpp:69-200 | the events of one cycle: two for a safety close when the valve was found open, six for the settings registration and the report, two more for a watering, and one sleep for `SleepSeconds` at the end |
| WakeCycle.SafetyCloseComesFirst | src/main.cpp:69-77 | the valve is closed in a cycle exactly when it was found open, and then as the second event, right after the stale open state is published as the first |
| WakeCycle.OpenedAtMostOnceAfterClose | src/main.cpp:149-186 | the valve is opened at most once per cycle, exactly when the schedule is due or a button is held, and never before the safety close |
| WakeCycle.CycleTraceReportsCommandedState | src/main.cpp:69-186 | every valve-state message of a cycle reports the valve state commanded at that moment |
| WakeCycle.SafetyCloseTruthful | src/main.cpp:69-77 | the safety close publishes the stale state truthfully and leaves the valve commanded closed |
| WakeCycle.OpenValveClosedByNextWake | src/main.cpp:69-77 | a cycle that leaves the valve open is followed by one whose first command is to close it |
| WakeCycle.AtMostOnceOnOneDay | src/main.cpp:149-167 | over any number of wakes on one day, whatever the settings, times and buttons, the schedule waters at most once, and not at all if that day was already recorded |
| WakeCycle.EveryWakeCountsOneBoot | src/sleep.cpp:54 | after any number of wakes the boot count has grown by exactly that number |
| WakeCycle.RecordedDayIsAWateringDay | src/main.cpp:155 | the recorded day is the initial one or the day of a wake on which the schedule fired |
| WakeCycle.FirstDueWakeWaters | src/main.cpp:149-155 | from the power-up state, a wake on any real day of the month at or after the target time runs the scheduled watering and records that day |
| WakeCycle.NegativeSettingArmsHugeTimer | src/main.cpp:196-200 | a default sleep with a negative default sleep time, or a watering with a negative duration, arms a timer of at least 2^63 µs |
| WakeCycle.Setup | src/main.cpp:23-202 | one wake cycle leaves the retained state `NextState`, arms `SleepNow(SleepSeconds(...))`, yields exactly the events `CycleTrace`, adds the settings subscription to the registry, and latches the warnings with the thresholds swapped |
| WakeCycle.SafetyClose | src/main.cpp:69-77 | a valve found open is reported and closed; afterwards it is closed in every case and nothing else retained changes |
| WakeCycle.SenseAndReport | src/main.cpp:103-137 | publishes the valve state, level, pressure and battery in that order; the low-level warning compares the level with the battery threshold and the low-battery warning the voltage with the level threshold |
| WakeCycle.WaterOrSleep | src/main.cpp:143-200 | from a closed valve: the scheduled watering, else the override, else the shortened or default sleep, each ending in its single sleep command; the recorded day and valve state become those of `NextState`, and the boot count is left alone |
| WakeCycle.DefaultEnvironment | src/config.cpp:16-27 | the settings object holds the configured defaults: 20:00, 5 minutes, 11, 5 and 60 s |
| WakeCycle.ScenarioSleepUntilTarget | src/main.cpp:194-197 | ten seconds before the target on an unwatered day the cycle sleeps those 10 s (10^7 µs) and commands the valve neither way |
| WakeCycle.ScenarioAlreadyWatered | src/main.cpp:149-199 | past the target on a day already watered, nothing is opened and the default 60 s are slept |
| WakeCycle.ScenarioFirstBootWaters | src/main.cpp:69-162 | the first wake after power-up, past the target, closes the valve, then waters, records the day and sleeps 300 s |
| WakeCycle.ScenarioSwappedThresholds | src/main.cpp:103 | with the default thresholds, a tank level of 8 raises the low-level warning and a battery at 9 V raises none |
| WakeCycle.ScenarioNegativeDefaultSleep | src/water_settings.h:115-117 | after a message setting "defaultSleepTime" to -5, a cycle on a watered day passes -5 to sleepNow and arms a timer of at least 2^63 µs |
| WakeCycle.ScenarioManualOverride | src/main.cpp:170-178 | a held button on a day already watered opens the valve, keeps the recorded day and sleeps the watering duration |

## Left out

- WiFi, the MQTT connection, `publish` and the client loop (src/networking.cpp, and the connect/publish/loop parts of src/mqtt_handler.h): publishes are recorded as trace events, MQTT is taken as active, and every publish and every call of the client loop is taken to return. In the code, `publish` and `loop` call `reconnect()` whenever the client is not connected (mqtt_handler.h:222-224 and 231-233), and `reconnect()` retries every 5 s without limit (mqtt_handler.h:182-208). With the broker unreachable, the wake therefore never gets past the stale-state publish at main.cpp:73: the valve found open is not closed, and the final sleep is never reached. The model does not capture this; the safety close and the single sleep are proved only for cycles whose publishes and loop calls return. The code's `mqttSession->publish` at main.cpp:73, 90, 159 and 176, and `mqttSession->loop()` at main.cpp:95, run even when MQTT is inactive; that case is not modelled.
- The 1 s settings window (main.cpp:93-97) and `settingsMQTT`: `Setup` takes the settings as that window left them. Any messages that arrived are covered by `Settings.ApplyAllIsOneMerge` and `WaterSettings.ExtractSettingsJson`.
- ArduinoJson itself: a message arrives already deserialised into `SettingsDoc`. A value of the wrong JSON type, and the conversion of fractional numbers to `int`, are not modelled.
- The NTP time keeping of src/time_keeping.h (`timeSetup`, `timeUntil`, `getDay`): the cycle reads one `Clock` value. The code calls `timeUntil()` up to four times, and those readings could differ by a second. In particular main.cpp:196 tests `timeUntil()` and main.cpp:197 reads it again: if the target time passes between the two calls, `sleepNow` receives 0, or a negative value (a timer of at least 2^63 µs) if the clock moves on by more than a second. The proof that a shortened sleep is positive holds for the model's single reading only.
- The sensor hardware and its floating-point arithmetic (ADC reads, the pressure-to-level formula at hardware_functions.h:190, the voltage divider): `ReadSensors` takes a reading of integers, with the tank level given independently of the pressure. Thresholds are integers, as in the settings store, rather than the sensors' doubles.
- Serial output, `print_wakeup_reason`, the LEDs, `pinMode`, and the waits: the 10 s valve travel, the 10 s wait on the first boot (main.cpp:65-67), and the 100 ms pauses between publishes.
- `esp_deep_sleep_start` never returns. In the model each branch of `WaterOrSleep` returns right after its `SleepNow`, and the command it returns is the one armed.
- `mqttHandler::addSubscription` is a wrapper that is not part of this model; `Setup` calls `Subscriptions.AddSub` directly. The `delete[]` of the old array is implicit, because Dafny is garbage-collected.
- Mqtt.Callback: payload bytes are converted one by one to the character with the same code. The Arduino `String` handling of a NUL byte is not modelled.
- WakeCycle.Setup: does not model 32-bit signed overflow of `timeToWater*60` or of `++bootCount`. Settings and counts are unbounded integers. A duration so large that `timeToWater*60` overflows is not modelled. A negative duration needs no overflow: it wraps in the unsigned 64-bit conversion at sleep.cpp:68, which `TimerMicros` models.
- Settings.WaterSettings.GetTimeToWater: does not model 32-bit signed overflow of the product; the result is the exact product.
- The getters of `WaterSettings` and `Sensors` other than `GetTimeToWater` return a field; they carry no contract of their own and are covered by the contracts of the methods that use them.
- `multiTasker` is not used by `setup()`. `millis()` is the parameter `currentMillis` of `IsTime`.
