/**
 * The device tracker platform of custom_components/pawfit/device_tracker.py: the coordinator that holds
 * the client, the trackers and the latest location snapshot; the tracker entity, whose attributes are
 * updated field by field from the snapshot; the plain sensors; and the entities set up per tracker.
 */
module DeviceTracker {
  import opened Wrappers
  import opened PyJson
  import opened ApiRules
  import opened ApiClient
  import opened BinarySensor

  /** A request an entity makes of the coordinator; the coordinator's host carries it out later. */
  datatype CoordinatorRequest = FastPolling | Refresh

  /** The tracker ids of a tracker list, in order. */
  function TrackerIds(trackers: seq<Tracker>): (ids: seq<Json>)
    ensures |ids| == |trackers|
    ensures forall i :: 0 <= i < |ids| ==> ids[i] == trackers[i].trackerId
  {
    if trackers == [] then [] else TrackerIds(trackers[..|trackers| - 1]) + [trackers[|trackers| - 1].trackerId]
  }

  /** `PawfitDataUpdateCoordinator`: polls the client for the locations of its trackers. */
  class PawfitDataUpdateCoordinator {
    const client: PawfitApiClient
    const trackers: seq<Tracker>
    const trackerIds: seq<Json>
    /** The polling interval, in seconds. */
    const updateInterval: nat
    /** The latest snapshot, None before the first successful update. */
    var data: Option<Locations>
    var lastUpdateSuccess: bool
    /** The fast-polling and refresh requests made of the coordinator, oldest first. */
    var requests: seq<CoordinatorRequest>

    constructor (client: PawfitApiClient, trackers: seq<Tracker>)
      ensures this.client == client && this.trackers == trackers
      ensures trackerIds == TrackerIds(trackers) && updateInterval == 60
      ensures data == None && lastUpdateSuccess && requests == []
    {
      this.client := client;
      this.trackers := trackers;
      trackerIds := TrackerIds(trackers);
      updateInterval := 60;
      data := None;
      lastUpdateSuccess := true;
      requests := [];
    }

    /** `_async_update_data`: the locations of all trackers, fetched through the client. */
    method UpdateData() returns (r: Result<Locations, Error>)
      modifies client, client.session
      ensures Outcome(client.Snapshot(), r) == LocationsCall(old(client.Snapshot()), trackerIds, client.username, client.password)
    {
      r := client.GetLocations(trackerIds);
    }

    /** `async_set_fast_polling`, as the buttons call it: the request is recorded. */
    method SetFastPolling()
      modifies this
      ensures requests == old(requests) + [FastPolling]
      ensures data == old(data) && lastUpdateSuccess == old(lastUpdateSuccess)
    {
      requests := requests + [FastPolling];
    }

    /** `async_request_refresh`: the request is recorded. */
    method RequestRefresh()
      modifies this
      ensures requests == old(requests) + [Refresh]
      ensures data == old(data) && lastUpdateSuccess == old(lastUpdateSuccess)
    {
      requests := requests + [Refresh];
    }
  }

  /** `PawfitSensor.state`: None without a snapshot, otherwise the tracker's value for `kind` (None when absent). */
  function SensorState(data: Option<Locations>, trackerId: Json, kind: string): (r: Json)
    ensures data.None? ==> r == JNull
  {
    if data.None? then JNull else Get(EntryOf(data, trackerId), kind)
  }

  /** The battery sensor of a tracker keyed by a dict-shaped reply shows that item's `state.power`. */
  lemma BatterySensorShowsPower(fs: Fields, i: nat)
    requires NormaliseLocations(JObject([("data", JObject(fs))])).Success?
    requires i < |fs| && forall j :: i < j < |fs| ==> fs[j].0 != fs[i].0
    ensures var item := fs[i].1;
            item.JObject? && GetOr(item.fields, "state", EmptyDict).JObject? &&
            SensorState(Some(NormaliseLocations(JObject([("data", JObject(fs))])).value), JStr(fs[i].0), "battery")
              == Get(GetOr(item.fields, "state", EmptyDict).fields, "power")
  {
    var v := JObject([("data", JObject(fs))]);
    LookupFirst(v.fields, 0);
    assert NormaliseLocations(v) == LocationsFromDict(fs);
    LocationsFromDictValue(fs, i);
    var rec := LocationRecord(fs[i].1).value;
    LookupFirst(rec, 4);
  }

  /** The battery attributes: level and charging flag. */
  datatype Battery = Battery(level: Option<int>, charging: Option<bool>)

  /** The battery part of `_update_attrs`: a negative value means charging at level |value|; a missing value
      leaves both unknown; a value `int()` cannot convert raises. */
  function DecodeBattery(raw: Json): (r: Result<Battery, Error>)
    ensures raw == JNull ==> r == Success(Battery(None, None))
    ensures r.Failure? <==> raw != JNull && IntOf(raw).None?
    ensures r.Success? && raw != JNull ==> r.value.level.Some? && r.value.level.value >= 0 && r.value.charging.Some?
  {
    if raw == JNull then Success(Battery(None, None))
    else match IntOf(raw)
      case None => Failure(TypeFault)
      case Some(v) => if v < 0 then Success(Battery(Some(-v), Some(true))) else Success(Battery(Some(v), Some(false)))
  }

  /** Level and charging flag together recover the vendor's signed battery value. */
  lemma DecodeBatteryRecoversValue(raw: Json)
    requires DecodeBattery(raw).Success? && raw != JNull
    ensures var b := DecodeBattery(raw).value;
            IntOf(raw) == Some(if b.charging.value then -b.level.value else b.level.value)
    ensures DecodeBattery(raw).value.charging.value <==> IntOf(raw).value < 0
  {
  }

  /** A coordinate or accuracy: `float(x)` when x is truthy, None otherwise (so 0 and 0.0 count as missing). */
  function Coordinate(raw: Json): (r: Result<Option<real>, Error>)
    ensures r == Success(None) <==> !Truthy(raw)
    ensures r.Success? && r.value.Some? ==> NumOf(raw) == Some(r.value.value) && r.value.value != 0.0
  {
    if !Truthy(raw) then Success(None)
    else match NumOf(raw)
      case None => Failure(TypeFault)
      case Some(x) => Success(Some(x))
  }

  /** The attributes of a tracker entity. */
  datatype TrackerAttrs = TrackerAttrs(
    latitude: Option<real>,
    longitude: Option<real>,
    accuracy: Option<real>,
    batteryLevel: Option<int>,
    charging: Option<bool>)

  /** `_update_attrs` on a tracker's record: latitude, longitude, accuracy and the battery are assigned in
      that order, and a conversion that raises leaves the attributes assigned before it in place. */
  function UpdatedAttrs(a: TrackerAttrs, entry: Fields): (TrackerAttrs, Result<(), Error>)
  {
    match Coordinate(Get(entry, "latitude"))
    case Failure(e) => (a, Failure(e))
    case Success(lat) =>
      var a1 := a.(latitude := lat);
      match Coordinate(Get(entry, "longitude"))
      case Failure(e) => (a1, Failure(e))
      case Success(lon) =>
        var a2 := a1.(longitude := lon);
        match Coordinate(Get(entry, "accuracy"))
        case Failure(e) => (a2, Failure(e))
        case Success(acc) =>
          var a3 := a2.(accuracy := acc);
          match DecodeBattery(Get(entry, "battery"))
          case Failure(e) => (a3, Failure(e))
          case Success(b) => (a3.(batteryLevel := b.level, charging := b.charging), Success(()))
  }

  /** A completed update replaces every attribute with the value decoded from the record; an update that
      raises keeps the attributes assigned before the failing conversion and leaves the rest as they were. */
  lemma UpdatedAttrsMeaning(a: TrackerAttrs, entry: Fields)
    ensures var (b, r) := UpdatedAttrs(a, entry);
            r.Success? <==> Coordinate(Get(entry, "latitude")).Success? && Coordinate(Get(entry, "longitude")).Success? &&
                            Coordinate(Get(entry, "accuracy")).Success? && DecodeBattery(Get(entry, "battery")).Success?
    ensures var (b, r) := UpdatedAttrs(a, entry);
            r.Success? ==> b == TrackerAttrs(Coordinate(Get(entry, "latitude")).value, Coordinate(Get(entry, "longitude")).value,
                                             Coordinate(Get(entry, "accuracy")).value,
                                             DecodeBattery(Get(entry, "battery")).value.level, DecodeBattery(Get(entry, "battery")).value.charging)
    ensures var (b, r) := UpdatedAttrs(a, entry);
            r.Failure? ==> b.batteryLevel == a.batteryLevel && b.charging == a.charging
    ensures var (b, r) := UpdatedAttrs(a, entry);
            var lat := Coordinate(Get(entry, "latitude"));
            var lon := Coordinate(Get(entry, "longitude"));
            var acc := Coordinate(Get(entry, "accuracy"));
            (lat.Failure? ==> b == a) &&
            (lat.Success? && lon.Failure? ==> b == a.(latitude := lat.value)) &&
            (lat.Success? && lon.Success? && acc.Failure? ==> b == a.(latitude := lat.value, longitude := lon.value)) &&
            (lat.Success? && lon.Success? && acc.Success? && r.Failure? ==>
               b == a.(latitude := lat.value, longitude := lon.value, accuracy := acc.value))
  {
  }

  /** A zero coordinate (0 or 0.0) is treated as missing, so the tracker is then unavailable and has no state. */
  lemma ZeroCoordinateIsMissing(a: TrackerAttrs, entry: Fields, lastUpdateSuccess: bool)
    requires Get(entry, "latitude") in {JInt(0), JReal(0.0)}
    ensures UpdatedAttrs(a, entry).0.latitude.None?
    ensures !AvailableOf(UpdatedAttrs(a, entry).0, lastUpdateSuccess) && StateOf(UpdatedAttrs(a, entry).0).None?
  {
  }

  /** `available`: the last update succeeded and both coordinates are known. */
  predicate AvailableOf(a: TrackerAttrs, lastUpdateSuccess: bool)
  {
    lastUpdateSuccess && a.latitude.Some? && a.longitude.Some?
  }

  /** `state`: the position "lat, lon" when both coordinates are known, else None; the pair stands for the
      text. */
  function StateOf(a: TrackerAttrs): Option<(real, real)>
  {
    if a.latitude.Some? && a.longitude.Some? then Some((a.latitude.value, a.longitude.value)) else None
  }

  /** After a completed update the tracker is available exactly when the last poll succeeded and both raw
      coordinates are truthy, and then its state is those two numbers. */
  lemma AvailableAfterUpdate(a: TrackerAttrs, entry: Fields, lastUpdateSuccess: bool)
    requires UpdatedAttrs(a, entry).1.Success?
    ensures AvailableOf(UpdatedAttrs(a, entry).0, lastUpdateSuccess) <==>
              lastUpdateSuccess && Truthy(Get(entry, "latitude")) && Truthy(Get(entry, "longitude"))
    ensures StateOf(UpdatedAttrs(a, entry).0).Some? <==> Truthy(Get(entry, "latitude")) && Truthy(Get(entry, "longitude"))
    ensures StateOf(UpdatedAttrs(a, entry).0).Some? ==>
              StateOf(UpdatedAttrs(a, entry).0).value == (NumOf(Get(entry, "latitude")).value, NumOf(Get(entry, "longitude")).value)
  {
    UpdatedAttrsMeaning(a, entry);
  }

  /** The charging binary sensor agrees with the tracker: after a completed update, its `is_on` is the
      tracker's charging attribute, for every snapshot. */
  lemma ChargingSensorAgreesWithTracker(a: TrackerAttrs, data: Option<Locations>, trackerId: Json)
    requires UpdatedAttrs(a, EntryOf(data, trackerId)).1.Success?
    ensures ChargingIsOn(data, trackerId) == Success(UpdatedAttrs(a, EntryOf(data, trackerId)).0.charging)
  {
    UpdatedAttrsMeaning(a, EntryOf(data, trackerId));
  }

  /** `PawfitDeviceTracker`: the attributes start unknown and are refreshed from the coordinator's snapshot. */
  class PawfitDeviceTracker {
    const tracker: Tracker
    const coordinator: PawfitDataUpdateCoordinator
    var latitude: Option<real>
    var longitude: Option<real>
    var accuracy: Option<real>
    var batteryLevel: Option<int>
    var charging: Option<bool>

    constructor (tracker: Tracker, coordinator: PawfitDataUpdateCoordinator)
      ensures this.tracker == tracker && this.coordinator == coordinator
      ensures Attrs() == TrackerAttrs(None, None, None, None, None)
    {
      this.tracker := tracker;
      this.coordinator := coordinator;
      latitude := None;
      longitude := None;
      accuracy := None;
      batteryLevel := None;
      charging := None;
    }

    function Attrs(): TrackerAttrs
      reads this
    {
      TrackerAttrs(latitude, longitude, accuracy, batteryLevel, charging)
    }

    function Available(): bool
      reads this, coordinator
    {
      AvailableOf(Attrs(), coordinator.lastUpdateSuccess)
    }

    function State(): Option<(real, real)>
      reads this
    {
      StateOf(Attrs())
    }

    /** `_update_attrs`: the record of this tracker (`{}` without a snapshot) is decoded into the attributes,
        one assignment after another; a conversion that raises stops the update there. */
    method UpdateAttrs() returns (r: Result<(), Error>)
      modifies this
      ensures (Attrs(), r) == UpdatedAttrs(old(Attrs()), EntryOf(coordinator.data, tracker.trackerId))
    {
      var entry := EntryOf(coordinator.data, tracker.trackerId);
      var lat := Coordinate(Get(entry, "latitude"));
      if lat.Failure? {
        return Failure(lat.error);
      }
      latitude := lat.value;
      var lon := Coordinate(Get(entry, "longitude"));
      if lon.Failure? {
        return Failure(lon.error);
      }
      longitude := lon.value;
      var acc := Coordinate(Get(entry, "accuracy"));
      if acc.Failure? {
        return Failure(acc.error);
      }
      accuracy := acc.value;
      var battery := DecodeBattery(Get(entry, "battery"));
      if battery.Failure? {
        return Failure(battery.error);
      }
      batteryLevel := battery.value.level;
      charging := battery.value.charging;
      return Success(());
    }
  }

  /** The entities of the device tracker platform. */
  datatype TrackerPlatformEntity =
    | DeviceTrackerEntity(tracker: Tracker)
    | PlainSensor(tracker: Tracker, kind: string)
    | ChargingBinarySensor(tracker: Tracker)
    | TimestampSensor(tracker: Tracker, kind: string)

  /** The entities of one tracker, in the order they are added. */
  function EntitiesOf(t: Tracker): seq<TrackerPlatformEntity>
  {
    [DeviceTrackerEntity(t), PlainSensor(t, "battery"), ChargingBinarySensor(t), PlainSensor(t, "accuracy"),
     PlainSensor(t, "signal"), TimestampSensor(t, "last_update")]
  }

  /** The entity list of `async_setup_entry`: six entities per tracker, trackers in order. */
  method SetupEntities(trackers: seq<Tracker>) returns (entities: seq<TrackerPlatformEntity>)
    ensures |entities| == 6 * |trackers|
    ensures forall i :: 0 <= i < |trackers| ==> entities[6 * i..6 * i + 6] == EntitiesOf(trackers[i])
  {
    entities := [];
    var j := 0;
    while j < |trackers|
      invariant 0 <= j <= |trackers|
      invariant |entities| == 6 * j
      invariant forall i :: 0 <= i < j ==> entities[6 * i..6 * i + 6] == EntitiesOf(trackers[i])
    {
      var t := trackers[j];
      ghost var before := entities;
      entities := entities + [DeviceTrackerEntity(t), PlainSensor(t, "battery"), ChargingBinarySensor(t),
                              PlainSensor(t, "accuracy"), PlainSensor(t, "signal"), TimestampSensor(t, "last_update")];
      assert forall i :: 0 <= i < j ==> entities[6 * i..6 * i + 6] == before[6 * i..6 * i + 6];
      assert entities[6 * j..6 * j + 6] == EntitiesOf(t);
      j := j + 1;
    }
  }
}
