/** The valve actuator, the sensor reader with its warning latches, and the
    buttons (src/hardware_functions.h). */
module Hardware {
  import opened Persistence

  /** GPIOs of the two valve-control lines and of the two buttons. */
  const VLV_OPEN_PIN: int := 25
  const VLV_CLOSE_PIN: int := 26
  const BUTTON_SW1: int := 15
  const BUTTON_SW2: int := 2

  // ---------------------------------------------------------------------
  // Valve
  // ---------------------------------------------------------------------

  /** One digitalWrite: a pin driven HIGH (true) or LOW (false). */
  datatype PinWrite = PinWrite(pin: int, high: bool)

  /** Levels of the open line and the close line after `writes`, both LOW
      before the first write. */
  datatype LineLevels = LineLevels(openHigh: bool, closeHigh: bool)

  function LevelsAfter(writes: seq<PinWrite>): LineLevels
    decreases |writes|
  {
    if writes == [] then LineLevels(false, false)
    else
      var before := LevelsAfter(writes[..|writes| - 1]);
      var w := writes[|writes| - 1];
      if w.pin == VLV_OPEN_PIN then before.(openHigh := w.high)
      else if w.pin == VLV_CLOSE_PIN then before.(closeHigh := w.high)
      else before
  }

  /** At no point of `writes` were both control lines HIGH at once. */
  ghost predicate NeverBothDriven(writes: seq<PinWrite>) {
    forall n :: 0 <= n <= |writes| ==> !(LevelsAfter(writes[..n]).openHigh && LevelsAfter(writes[..n]).closeHigh)
  }

  /** The writes of one actuation of `pin`: HIGH, then (after the travel
      time) LOW. */
  function Pulse(pin: int): seq<PinWrite> {
    [PinWrite(pin, true), PinWrite(pin, false)]
  }

  /** Pulsing one control line while both are LOW never drives both lines
      and leaves both LOW. */
  lemma {:induction false} PulseKeepsLinesExclusive(writes: seq<PinWrite>, pin: int)
    requires pin == VLV_OPEN_PIN || pin == VLV_CLOSE_PIN
    requires NeverBothDriven(writes) && LevelsAfter(writes) == LineLevels(false, false)
    ensures NeverBothDriven(writes + Pulse(pin))
    ensures LevelsAfter(writes + Pulse(pin)) == LineLevels(false, false)
  {
    var all := writes + Pulse(pin);
    assert all[..|writes|] == writes;
    assert all[..|writes| + 1][..|writes|] == writes;
    assert all[..|writes| + 2][..|writes| + 1] == all[..|writes| + 1];
    assert all[..|writes| + 2] == all;
    forall n | 0 <= n <= |all|
      ensures !(LevelsAfter(all[..n]).openHigh && LevelsAfter(all[..n]).closeHigh)
    {
      if n <= |writes| {
        assert all[..n] == writes[..n];
      }
    }
  }

  /** Open-loop valve (class valve): it drives the two control lines and
      records the commanded state in the retained valveState; nothing reads
      back the physical position. */
  class Valve {
    const rtc: RtcMemory
    var writes: seq<PinWrite>

    ghost predicate Valid()
      reads this
    {
      NeverBothDriven(writes) && LevelsAfter(writes) == LineLevels(false, false)
    }

    constructor (rtc: RtcMemory)
      ensures this.rtc == rtc && writes == [] && Valid()
    {
      this.rtc := rtc;
      writes := [];
    }

    /** open(): pulses the open line only; the valve is then commanded open,
        whatever it was before. There is no failure path. */
    method Open()
      requires Valid()
      modifies this, rtc
      ensures Valid()
      ensures writes == old(writes) + Pulse(VLV_OPEN_PIN)
      ensures rtc.State() == old(rtc.State()).(valveState := true)
    {
      PulseKeepsLinesExclusive(writes, VLV_OPEN_PIN);
      ghost var before := writes;
      writes := writes + [PinWrite(VLV_OPEN_PIN, true)];
      // the line stays HIGH while the valve travels (about 8 s; the code waits 10 s)
      writes := writes + [PinWrite(VLV_OPEN_PIN, false)];
      assert writes == before + Pulse(VLV_OPEN_PIN);
      rtc.valveState := true;
    }

    /** close(): pulses the close line only; the valve is then commanded
        closed, whatever it was before. */
    method Close()
      requires Valid()
      modifies this, rtc
      ensures Valid()
      ensures writes == old(writes) + Pulse(VLV_CLOSE_PIN)
      ensures rtc.State() == old(rtc.State()).(valveState := false)
    {
      PulseKeepsLinesExclusive(writes, VLV_CLOSE_PIN);
      ghost var before := writes;
      writes := writes + [PinWrite(VLV_CLOSE_PIN, true)];
      writes := writes + [PinWrite(VLV_CLOSE_PIN, false)];
      assert writes == before + Pulse(VLV_CLOSE_PIN);
      rtc.valveState := false;
    }
  }

  // ---------------------------------------------------------------------
  // Sensors
  // ---------------------------------------------------------------------

  /** One reading of the sensors in engineering units, taken as given
      integers: pressure, the tank level derived from it, battery voltage. */
  datatype SensorReading = SensorReading(pressure: int, tankLevel: int, batteryVoltage: int)

  /** A warning flag after one comparison: set when the value is below the
      threshold, never cleared. */
  function Latch(flag: bool, value: int, threshold: int): bool {
    flag || value < threshold
  }

  /** A warning flag after comparing each of `values`, in order. */
  function LatchAll(flag: bool, values: seq<int>, threshold: int): bool
    decreases |values|
  {
    if values == [] then flag else LatchAll(Latch(flag, values[0], threshold), values[1..], threshold)
  }

  /** After any number of readings a flag is set exactly when it was set
      before or some reading was below the threshold: once set it stays set,
      even if every later reading is nominal. */
  lemma {:induction false} LatchAllIsSticky(flag: bool, values: seq<int>, threshold: int)
    ensures LatchAll(flag, values, threshold) <==> flag || exists i :: 0 <= i < |values| && values[i] < threshold
    decreases |values|
  {
    if values != [] {
      LatchAllIsSticky(Latch(flag, values[0], threshold), values[1..], threshold);
      if exists i :: 0 <= i < |values[1..]| && values[1..][i] < threshold {
        var i :| 0 <= i < |values[1..]| && values[1..][i] < threshold;
        assert values[i + 1] < threshold;
      }
      if exists i :: 0 <= i < |values| && values[i] < threshold {
        var i :| 0 <= i < |values| && values[i] < threshold;
        if i > 0 {
          assert values[1..][i - 1] < threshold;
        }
      }
    }
  }

  /** The sensor reader (class sensors): the last reading, the two
      thresholds and the two latched warning flags. */
  class Sensors {
    var pressure: int
    var tankLevel: int
    var batteryVoltage: int
    var levelLow: int
    var batteryLow: int
    var warningLowLevel: bool
    var warningLowBattery: bool

    /** Stores the thresholds; both warnings start cleared. The readings are
        left unspecified until the first ReadSensors. */
    constructor (levelLow: int, batteryLow: int)
      ensures this.levelLow == levelLow && this.batteryLow == batteryLow
      ensures !warningLowLevel && !warningLowBattery
    {
      this.levelLow := levelLow;
      this.batteryLow := batteryLow;
      warningLowLevel := false;
      warningLowBattery := false;
    }

    /** readSensors(): stores a new reading and latches each warning whose
        value is below its threshold; the thresholds are unchanged. */
    method ReadSensors(reading: SensorReading)
      modifies this
      ensures pressure == reading.pressure && tankLevel == reading.tankLevel
      ensures batteryVoltage == reading.batteryVoltage
      ensures warningLowLevel == Latch(old(warningLowLevel), reading.tankLevel, levelLow)
      ensures warningLowBattery == Latch(old(warningLowBattery), reading.batteryVoltage, batteryLow)
      ensures old(warningLowLevel) ==> warningLowLevel
      ensures old(warningLowBattery) ==> warningLowBattery
      ensures levelLow == old(levelLow) && batteryLow == old(batteryLow)
    {
      pressure := reading.pressure;
      tankLevel := reading.tankLevel;
      if tankLevel < levelLow {
        warningLowLevel := true;
      }
      batteryVoltage := reading.batteryVoltage;
      if batteryVoltage < batteryLow {
        warningLowBattery := true;
      }
    }

    /** updateWarningLevels(lvl, btr): replaces the thresholds only. */
    method UpdateWarningLevels(lvl: int, btr: int)
      modifies this
      ensures levelLow == lvl && batteryLow == btr
      ensures pressure == old(pressure) && tankLevel == old(tankLevel) && batteryVoltage == old(batteryVoltage)
      ensures warningLowLevel == old(warningLowLevel) && warningLowBattery == old(warningLowBattery)
    {
      levelLow := lvl;
      batteryLow := btr;
    }

    function GetPressure(): int
      reads this
    {
      pressure
    }

    function GetLevel(): int
      reads this
    {
      tankLevel
    }

    function GetBatteryVoltage(): int
      reads this
    {
      batteryVoltage
    }

    function GetWarningLowLevel(): bool
      reads this
    {
      warningLowLevel
    }

    function GetWarningLowBattery(): bool
      reads this
    {
      warningLowBattery
    }
  }

  // ---------------------------------------------------------------------
  // Buttons
  // ---------------------------------------------------------------------

  /** The input GPIOs that read HIGH at the moment of reading. */
  datatype InputLevels = InputLevels(high: set<int>)

  predicate IsPressedSW1(inputs: InputLevels) {
    BUTTON_SW1 in inputs.high
  }

  predicate IsPressedSW2(inputs: InputLevels) {
    BUTTON_SW2 in inputs.high
  }

  /** isAnyPressed(): some button reads HIGH. This is exactly the condition
      under which the any-high wake source armed by sleepNow fires. */
  predicate IsAnyPressed(inputs: InputLevels)
    ensures IsAnyPressed(inputs) <==> IsPressedSW1(inputs) || IsPressedSW2(inputs)
    ensures IsAnyPressed(inputs) <==> exists pin: nat | pin < 64 :: MaskHasPin(BUTTON_PIN_BITMASK, pin) && (pin as int) in inputs.high
  {
    WakeMaskSelectsButtonPins(BUTTON_SW1);
    WakeMaskSelectsButtonPins(BUTTON_SW2);
    BUTTON_SW1 in inputs.high || BUTTON_SW2 in inputs.high
  }
}
