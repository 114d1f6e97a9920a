/**
 * The binary sensors of custom_components/pawfit/binary_sensor.py: whether a tracker is charging and
 * whether its find, light or alarm mode is active, read from the coordinator's location snapshot, and
 * the four sensors set up for each tracker. The current time is a parameter, in milliseconds.
 */
module BinarySensor {
  import opened Wrappers
  import opened PyJson
  import opened ApiRules

  /** The record key holding the time (in milliseconds) at which a mode was started. */
  function TimerKey(mode: Mode): string
  {
    match mode
    case Find => "find_timer"
    case Light => "light_timer"
    case Alarm => "alarm_timer"
  }

  /** `PawfitChargingSensor.is_on`: None without a snapshot or without a battery value; otherwise whether
      `int(battery)` is negative (a negative battery level is how the vendor reports charging). */
  function ChargingIsOn(data: Option<Locations>, trackerId: Json): (r: Result<Option<bool>, Error>)
    ensures r.Success? && r.value.Some? <==> data.Some? && IntOf(Get(EntryOf(data, trackerId), "battery")).Some?
    ensures r.Success? && r.value.Some? ==> (r.value.value <==> IntOf(Get(EntryOf(data, trackerId), "battery")).value < 0)
    ensures data.None? || Get(EntryOf(data, trackerId), "battery") == JNull ==> r == Success(None)
    ensures r.Failure? <==>
              data.Some? && Get(EntryOf(data, trackerId), "battery") != JNull && IntOf(Get(EntryOf(data, trackerId), "battery")).None?
  {
    if data.None? then Success(None)
    else
      var battery := Get(EntryOf(data, trackerId), "battery");
      if battery == JNull then Success(None)
      else match IntOf(battery)
        case None => Failure(TypeFault)
        case Some(level) => Success(Some(level < 0))
  }

  /** The window test of a started timer `t` (milliseconds): started no later than now and less than
      ten minutes (600 000 ms) ago. */
  predicate InWindow(t: real, nowMs: int)
  {
    0.0 <= nowMs as real - t < 600000.0
  }

  /** `is_on` of the find, light and alarm sensors: off without a snapshot, without a timer, with a zero
      timer, and with a timer that is not a number (the TypeError is caught); otherwise on while the
      timer lies in the ten-minute window. */
  predicate ModeIsOn(data: Option<Locations>, trackerId: Json, mode: Mode, nowMs: int)
  {
    if data.None? then false
    else
      var timer := Get(EntryOf(data, trackerId), TimerKey(mode));
      if timer == JNull || EqualsZero(timer) then false
      else match NumOf(timer)
        case None => false
        case Some(t) => InWindow(t, nowMs)
  }

  /** The sensor is on exactly when the snapshot holds a non-zero numeric timer for the mode that was
      started less than ten minutes ago and not in the future. */
  lemma ModeIsOnIff(data: Option<Locations>, trackerId: Json, mode: Mode, nowMs: int)
    ensures ModeIsOn(data, trackerId, mode, nowMs) <==>
              data.Some? &&
              var timer := Get(EntryOf(data, trackerId), TimerKey(mode));
              NumOf(timer).Some? && NumOf(timer).value != 0.0 && 0.0 <= nowMs as real - NumOf(timer).value < 600000.0
  {
  }

  /** For an integer timer `t` the sensor is on exactly for the times `t <= now < t + 600000`. */
  lemma ModeWindowOfIntegerTimer(data: Locations, trackerId: Json, mode: Mode, t: int, nowMs: int)
    requires trackerId in data && t != 0 && Get(data[trackerId], TimerKey(mode)) == JInt(t)
    ensures ModeIsOn(Some(data), trackerId, mode, nowMs) <==> t <= nowMs < t + 600000
  {
  }

  /** A timer dated in the future, or started ten minutes ago or earlier, leaves the sensor off. */
  lemma ModeOffOutsideWindow(data: Option<Locations>, trackerId: Json, mode: Mode, nowMs: int)
    requires var timer := Get(EntryOf(data, trackerId), TimerKey(mode));
             NumOf(timer).Some? && (NumOf(timer).value > nowMs as real || NumOf(timer).value + 600000.0 <= nowMs as real)
    ensures !ModeIsOn(data, trackerId, mode, nowMs)
  {
  }

  /** Find, light and alarm apply one rule: two sensors whose timers hold the same value agree, whatever
      their modes. */
  lemma ModesShareOneRule(data1: Option<Locations>, data2: Option<Locations>, trackerId: Json, mode1: Mode, mode2: Mode, nowMs: int)
    requires data1.Some? <==> data2.Some?
    requires Get(EntryOf(data1, trackerId), TimerKey(mode1)) == Get(EntryOf(data2, trackerId), TimerKey(mode2))
    ensures ModeIsOn(data1, trackerId, mode1, nowMs) == ModeIsOn(data2, trackerId, mode2, nowMs)
  {
  }

  /** A snapshot built by the client's location normalisation carries no timers, so every mode sensor
      of every tracker is off. */
  lemma NormalisedSnapshotModesOff(v: Json, trackerId: Json, mode: Mode, nowMs: int)
    requires NormaliseLocations(v).Success?
    ensures !ModeIsOn(Some(NormaliseLocations(v).value), trackerId, mode, nowMs)
  {
    var data := Some(NormaliseLocations(v).value);
    if trackerId in data.value {
      NormalisedLocationsAreRecords(v);
      RecordLacksKey(data.value[trackerId], TimerKey(mode), JNull);
    }
  }

  /** `state` of a mode sensor: "on" when `is_on` holds, else "off". */
  function ModeState(data: Option<Locations>, trackerId: Json, mode: Mode, nowMs: int): (r: string)
    ensures r == "on" || r == "off"
    ensures r == "on" <==> ModeIsOn(data, trackerId, mode, nowMs)
  {
    if ModeIsOn(data, trackerId, mode, nowMs) then "on" else "off"
  }

  /** The binary sensors of one tracker. */
  datatype BinarySensorEntity =
    | ChargingSensor(tracker: Tracker)
    | ModeActiveSensor(tracker: Tracker, mode: Mode)

  /** The sensors of one tracker, in the order they are added. */
  function SensorsOf(t: Tracker): seq<BinarySensorEntity>
  {
    [ChargingSensor(t), ModeActiveSensor(t, Find), ModeActiveSensor(t, Light), ModeActiveSensor(t, Alarm)]
  }

  /** `async_setup_entry`: four sensors per tracker, trackers in order. */
  method SetupEntities(trackers: seq<Tracker>) returns (entities: seq<BinarySensorEntity>)
    ensures |entities| == 4 * |trackers|
    ensures forall i :: 0 <= i < |trackers| ==> entities[4 * i..4 * i + 4] == SensorsOf(trackers[i])
  {
    entities := [];
    var j := 0;
    while j < |trackers|
      invariant 0 <= j <= |trackers|
      invariant |entities| == 4 * j
      invariant forall i :: 0 <= i < j ==> entities[4 * i..4 * i + 4] == SensorsOf(trackers[i])
    {
      var t := trackers[j];
      ghost var before := entities;
      entities := entities + [ChargingSensor(t), ModeActiveSensor(t, Find), ModeActiveSensor(t, Light), ModeActiveSensor(t, Alarm)];
      assert forall i :: 0 <= i < j ==> entities[4 * i..4 * i + 4] == before[4 * i..4 * i + 4];
      assert entities[4 * j..4 * j + 4] == SensorsOf(t);
      j := j + 1;
    }
  }
}
