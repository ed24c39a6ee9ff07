/** The settings store of the controller (src/water_settings.h): the tunable
    schedule parameters, their read accessors, and the partial update applied
    when a settings message arrives. */
module Settings {
  import opened Wrappers

  /** A time of day HH:MM (struct timeHHMM); no range is enforced. */
  datatype TimeHHMM = TimeHHMM(hh: int, mm: int)

  /** The value held by a settings object at one moment. */
  datatype Config = Config(
    timeToWater: int,       // minutes of each watering session
    waterTime: TimeHHMM,    // time of day at which watering begins
    batteryLow: int,        // battery voltage that raises a warning
    levelLow: int,          // tank level that raises a warning
    defaultSleepTime: int,  // seconds between two wakes
    waterOnDemand: bool,    // stored, never read by the wake cycle
    skipWatering: bool)     // stored, never read by the wake cycle

  /** The defaults of src/config.cpp:16-27: water at 20:00 for 5 minutes, warn
      below 11 V and 5 % (the settings hold integers), sleep 60 s. */
  function Defaults(): Config {
    Config(5, TimeHHMM(20, 0), 11, 5, 60, false, false)
  }

  /** The "waterTime" member of a settings message: its inner "HH" and "MM"
      keys, each of which may be missing. */
  datatype WaterTimeJson = WaterTimeJson(hh: Option<int>, mm: Option<int>)

  /** A settings message after deserialisation: the library reports an error,
      or yields a document in which each known key is present or absent. */
  datatype SettingsDoc =
    | DeserializationError
    | Document(
        timeToWater: Option<int>,
        waterTime: Option<WaterTimeJson>,
        batteryLow: Option<int>,
        levelLow: Option<int>,
        defaultSleepTime: Option<int>,
        waterOnDemand: Option<bool>,
        skipWatering: Option<bool>)

  /** A member read from a JSON object that does not hold it converts to 0. */
  function MemberOrZero(v: Option<int>): int {
    v.GetOr(0)
  }

  /** The time stored when a "waterTime" object is present: both parts are
      taken from it, a missing part as 0. */
  function WaterTimeOf(w: WaterTimeJson): TimeHHMM {
    TimeHHMM(MemberOrZero(w.hh), MemberOrZero(w.mm))
  }

  /** The keys of a settings message, one per field of the store. */
  datatype Key =
    | TimeToWaterKey | WaterTimeKey | BatteryLowKey | LevelLowKey
    | DefaultSleepTimeKey | WaterOnDemandKey | SkipWateringKey

  /** A field value of any of the store's types. */
  datatype FieldValue = IntValue(i: int) | TimeValue(t: TimeHHMM) | BoolValue(b: bool)

  /** The field of `c` that key `k` names. */
  function Field(c: Config, k: Key): FieldValue {
    match k
    case TimeToWaterKey => IntValue(c.timeToWater)
    case WaterTimeKey => TimeValue(c.waterTime)
    case BatteryLowKey => IntValue(c.batteryLow)
    case LevelLowKey => IntValue(c.levelLow)
    case DefaultSleepTimeKey => IntValue(c.defaultSleepTime)
    case WaterOnDemandKey => BoolValue(c.waterOnDemand)
    case SkipWateringKey => BoolValue(c.skipWatering)
  }

  /** The value a message carries for key `k`, or None when the key is absent
      or the message could not be deserialised. */
  function DocField(doc: SettingsDoc, k: Key): Option<FieldValue> {
    match doc
    case DeserializationError => None
    case Document(tw, wt, bl, ll, ds, wd, sk) =>
      match k
      case TimeToWaterKey => if tw.Some? then Some(IntValue(tw.value)) else None
      case WaterTimeKey => if wt.Some? then Some(TimeValue(WaterTimeOf(wt.value))) else None
      case BatteryLowKey => if bl.Some? then Some(IntValue(bl.value)) else None
      case LevelLowKey => if ll.Some? then Some(IntValue(ll.value)) else None
      case DefaultSleepTimeKey => if ds.Some? then Some(IntValue(ds.value)) else None
      case WaterOnDemandKey => if wd.Some? then Some(BoolValue(wd.value)) else None
      case SkipWateringKey => if sk.Some? then Some(BoolValue(sk.value)) else None
  }

  /** The keys present in a message. */
  function PresentKeys(doc: SettingsDoc): set<Key> {
    set k: Key | DocField(doc, k).Some?
  }

  /** Two settings values with the same field under every key are equal. */
  lemma {:induction false} FieldsDetermineConfig(a: Config, b: Config)
    requires forall k: Key :: Field(a, k) == Field(b, k)
    ensures a == b
  {
    assert Field(a, TimeToWaterKey) == Field(b, TimeToWaterKey);
    assert Field(a, WaterTimeKey) == Field(b, WaterTimeKey);
    assert Field(a, BatteryLowKey) == Field(b, BatteryLowKey);
    assert Field(a, LevelLowKey) == Field(b, LevelLowKey);
    assert Field(a, DefaultSleepTimeKey) == Field(b, DefaultSleepTimeKey);
    assert Field(a, WaterOnDemandKey) == Field(b, WaterOnDemandKey);
    assert Field(a, SkipWateringKey) == Field(b, SkipWateringKey);
  }

  /** The settings after applying one message to `c`: every key the message
      holds overwrites its own field, every other field keeps its value, and a
      message that failed to deserialise changes nothing. */
  function Merge(c: Config, doc: SettingsDoc): (r: Config)
    ensures forall k: Key :: Field(r, k) == DocField(doc, k).GetOr(Field(c, k))
    ensures doc.DeserializationError? ==> r == c
    ensures forall k: Key :: k !in PresentKeys(doc) ==> Field(r, k) == Field(c, k)
  {
    match doc
    case DeserializationError => c
    case Document(tw, wt, bl, ll, ds, wd, sk) =>
      Config(
        tw.GetOr(c.timeToWater),
        if wt.Some? then WaterTimeOf(wt.value) else c.waterTime,
        bl.GetOr(c.batteryLow),
        ll.GetOr(c.levelLow),
        ds.GetOr(c.defaultSleepTime),
        wd.GetOr(c.waterOnDemand),
        sk.GetOr(c.skipWatering))
  }

  /** Applying the same message twice has the effect of applying it once. */
  lemma MergeIdempotent(c: Config, doc: SettingsDoc)
    ensures Merge(Merge(c, doc), doc) == Merge(c, doc)
  {
  }

  /** A message holding every key leaves nothing of the previous settings. */
  lemma MergeCompleteMessage(c1: Config, c2: Config, doc: SettingsDoc)
    requires forall k: Key :: k in PresentKeys(doc)
    ensures Merge(c1, doc) == Merge(c2, doc)
  {
    var r1, r2 := Merge(c1, doc), Merge(c2, doc);
    forall k: Key ensures Field(r1, k) == Field(r2, k) {
      assert k in PresentKeys(doc);
    }
    FieldsDetermineConfig(r1, r2);
  }

  /** One message whose present keys win over those of an earlier one. */
  function Overlay(first: SettingsDoc, second: SettingsDoc): (d: SettingsDoc)
    ensures forall k: Key :: DocField(d, k) == if DocField(second, k).Some? then DocField(second, k) else DocField(first, k)
  {
    match (first, second)
    case (DeserializationError, _) => second
    case (_, DeserializationError) => first
    case (Document(tw1, wt1, bl1, ll1, ds1, wd1, sk1), Document(tw2, wt2, bl2, ll2, ds2, wd2, sk2)) =>
      Document(
        if tw2.Some? then tw2 else tw1,
        if wt2.Some? then wt2 else wt1,
        if bl2.Some? then bl2 else bl1,
        if ll2.Some? then ll2 else ll1,
        if ds2.Some? then ds2 else ds1,
        if wd2.Some? then wd2 else wd1,
        if sk2.Some? then sk2 else sk1)
  }

  /** Two messages in a row act as their overlay applied once. */
  lemma MergeTwice(c: Config, first: SettingsDoc, second: SettingsDoc)
    ensures Merge(Merge(c, first), second) == Merge(c, Overlay(first, second))
  {
  }

  /** The settings after a sequence of messages, applied in arrival order. */
  function ApplyAll(c: Config, docs: seq<SettingsDoc>): Config
    decreases |docs|
  {
    if docs == [] then c else ApplyAll(Merge(c, docs[0]), docs[1..])
  }

  /** The overlay of a sequence of messages, later keys winning. */
  function OverlayAll(docs: seq<SettingsDoc>): SettingsDoc
    decreases |docs|
  {
    if docs == [] then DeserializationError
    else Overlay(docs[0], OverlayAll(docs[1..]))
  }

  /** Any number of messages act as one message: in each field the value of
      the last message that holds the key, else the old value. */
  lemma {:induction false} ApplyAllIsOneMerge(c: Config, docs: seq<SettingsDoc>)
    ensures ApplyAll(c, docs) == Merge(c, OverlayAll(docs))
    decreases |docs|
  {
    if docs != [] {
      ApplyAllIsOneMerge(Merge(c, docs[0]), docs[1..]);
      MergeTwice(c, docs[0], OverlayAll(docs[1..]));
    }
  }

  /** The settings store (class waterSettings). Its fields are overwritten in
      place by ExtractSettingsJson. */
  class WaterSettings {
    var timeToWater: int
    var waterTime: TimeHHMM
    var batteryLow: int
    var levelLow: int
    var defaultSleepTime: int
    var waterOnDemand: bool
    var skipWatering: bool

    /** The value currently held. */
    function Snapshot(): Config
      reads this
    {
      Config(timeToWater, waterTime, batteryLow, levelLow, defaultSleepTime, waterOnDemand, skipWatering)
    }

    /** Stores the given schedule, duration, thresholds and sleep time; both
        request flags start false. */
    constructor (wTime: TimeHHMM, tTime: int, btrLow: int, lvlLow: int, defSleepTime: int)
      ensures Snapshot() == Config(tTime, wTime, btrLow, lvlLow, defSleepTime, false, false)
    {
      waterTime := wTime;
      timeToWater := tTime;
      batteryLow := btrLow;
      levelLow := lvlLow;
      defaultSleepTime := defSleepTime;
      waterOnDemand := false;
      skipWatering := false;
    }

    /** The watering duration in seconds: the stored minutes times 60, which
        converts back to the stored minutes exactly. */
    function GetTimeToWater(): (seconds: int)
      reads this
      ensures seconds % 60 == 0 && seconds / 60 == timeToWater
    {
      timeToWater * 60
    }

    function GetWaterTimeHour(): int
      reads this
    {
      waterTime.hh
    }

    function GetWaterTimeMinute(): int
      reads this
    {
      waterTime.mm
    }

    function GetBatteryLow(): int
      reads this
    {
      batteryLow
    }

    function GetLevelLow(): int
      reads this
    {
      levelLow
    }

    function GetDefaultSleepTime(): int
      reads this
    {
      defaultSleepTime
    }

    /** Applies a settings message: on a deserialisation error returns at
        once; otherwise overwrites, key by key, the fields present. */
    method ExtractSettingsJson(doc: SettingsDoc)
      modifies this
      ensures Snapshot() == Merge(old(Snapshot()), doc)
      ensures doc.DeserializationError? ==> unchanged(this)
    {
      if doc.DeserializationError? {
        return;
      }
      // Each key present in the message overwrites its field.
      timeToWater := doc.timeToWater.GetOr(timeToWater);
      if doc.waterTime.Some? {
        var waterTimeObject := doc.waterTime.value;
        waterTime := waterTime.(hh := MemberOrZero(waterTimeObject.hh));
        waterTime := waterTime.(mm := MemberOrZero(waterTimeObject.mm));
      }
      batteryLow := doc.batteryLow.GetOr(batteryLow);
      levelLow := doc.levelLow.GetOr(levelLow);
      defaultSleepTime := doc.defaultSleepTime.GetOr(defaultSleepTime);
      waterOnDemand := doc.waterOnDemand.GetOr(waterOnDemand);
      skipWatering := doc.skipWatering.GetOr(skipWatering);
    }
  }

  /** A message holding only "batteryLow" changes only the battery threshold;
      no range check applies, so any integer is stored. */
  lemma OnlyBatteryLowChanges(c: Config, v: int)
    ensures Merge(c, Document(None, None, Some(v), None, None, None, None)) == c.(batteryLow := v)
  {
  }

  /** A "waterTime" object without its "MM" key stores minute 0. */
  lemma WaterTimeMissingMinute(c: Config, h: int)
    ensures Merge(c, Document(None, Some(WaterTimeJson(Some(h), None)), None, None, None, None, None)).waterTime == TimeHHMM(h, 0)
  {
  }
}
