/** The state that survives deep sleep and the entry into sleep
    (src/sleep.cpp, and the retained valveState of src/hardware_functions.cpp). */
module Persistence {

  /** Microseconds per second (uS_TO_S_FACTOR, an unsigned 64-bit constant). */
  const US_TO_S_FACTOR: int := 1000000

  /** Values of an unsigned 64-bit integer are taken modulo this. */
  const UINT64_MODULUS: int := 0x1_0000_0000_0000_0000

  /** Bounds of the 32-bit signed int that carries sleep seconds. */
  const INT32_MIN: int := -0x8000_0000
  const INT32_MAX: int := 0x7fff_ffff

  /** The GPIOs whose HIGH level wakes the chip (BUTTON_PIN_BITMASK). */
  const BUTTON_PIN_BITMASK: bv64 := 0x8004

  /** Initial lastWaterDay: a day of the month that does not exist. */
  const NEVER_WATERED: int := 40

  /** Whether `pin` is one of the GPIOs selected by `mask`. */
  predicate MaskHasPin(mask: bv64, pin: nat)
    requires pin < 64
  {
    (mask >> pin) & 1 == 1
  }

  /** The wake mask selects exactly GPIOs 2 and 15, the two buttons. */
  lemma WakeMaskSelectsButtonPins(pin: nat)
    requires pin < 64
    ensures MaskHasPin(BUTTON_PIN_BITMASK, pin) <==> pin == 2 || pin == 15
  {
  }

  /** The three retained variables as one value. */
  datatype Persisted = Persisted(bootCount: int, lastWaterDay: int, valveState: bool)

  /** The retained values at the first boot after power-up: no boots counted,
      no day of the month recorded as watered, and the valve taken as open so
      that the first wake closes it. */
  function ColdBoot(): (p: Persisted)
    ensures p.bootCount == 0 && p.valveState
    ensures !(1 <= p.lastWaterDay <= 31)
  {
    Persisted(0, NEVER_WATERED, true)
  }

  /** RTC memory holding the variables declared RTC_DATA_ATTR: bootCount and
      lastWaterDay (src/sleep.cpp) and valveState (src/hardware_functions.cpp). */
  class RtcMemory {
    var bootCount: int
    var lastWaterDay: int
    var valveState: bool

    function State(): Persisted
      reads this
    {
      Persisted(bootCount, lastWaterDay, valveState)
    }

    /** The initialisers, applied once at power-up. */
    constructor ()
      ensures State() == ColdBoot()
    {
      bootCount := 0;
      lastWaterDay := NEVER_WATERED;
      valveState := true;
    }
  }

  /** sleepSetup(): counts one more boot and changes nothing else. */
  method SleepSetup(rtc: RtcMemory)
    modifies rtc
    ensures rtc.State() == old(rtc.State()).(bootCount := old(rtc.bootCount) + 1)
  {
    rtc.bootCount := rtc.bootCount + 1;
  }

  /** The timer period handed to the wake-up timer for `sToSleep` seconds:
      the seconds converted to an unsigned 64-bit value and multiplied by
      uS_TO_S_FACTOR, both modulo 2^64 (which together are the product
      modulo 2^64). For every non-negative int it is the
      exact number of microseconds; a negative int wraps to a period of more
      than 2^63 microseconds. */
  function TimerMicros(sToSleep: int): (us: int)
    ensures 0 <= us < UINT64_MODULUS
    ensures 0 <= sToSleep <= INT32_MAX ==> us % US_TO_S_FACTOR == 0 && us / US_TO_S_FACTOR == sToSleep
    ensures INT32_MIN <= sToSleep < 0 ==> us >= UINT64_MODULUS / 2
  {
    ScaledSecondsInRange(sToSleep);
    (sToSleep * US_TO_S_FACTOR) % UINT64_MODULUS
  }

  /** Seconds in the range of a 32-bit int scale to microseconds that lie
      strictly between -2^63 and 2^63. */
  lemma ScaledSecondsInRange(s: int)
    ensures 0 <= s <= INT32_MAX ==> 0 <= s * US_TO_S_FACTOR < UINT64_MODULUS / 2
    ensures INT32_MIN <= s < 0 ==> -(UINT64_MODULUS / 2) < s * US_TO_S_FACTOR < 0
  {
  }

  /** What sleepNow arms before it starts deep sleep: the timer and the
      any-high external wake on the button GPIOs. */
  datatype SleepCommand = SleepCommand(seconds: int, timerMicros: int, wakeMask: bv64)

  /** sleepNow(sToSleep). Starting deep sleep never returns: callers end the
      cycle right after it. */
  function SleepNow(sToSleep: int): (cmd: SleepCommand)
    ensures cmd.seconds == sToSleep && cmd.timerMicros == TimerMicros(sToSleep)
    ensures forall pin: nat | pin < 64 :: MaskHasPin(cmd.wakeMask, pin) <==> pin == 2 || pin == 15
  {
    SleepCommand(sToSleep, TimerMicros(sToSleep), BUTTON_PIN_BITMASK)
  }
}
