/**
 * The buttons of custom_components/pawfit/button.py: one press toggles a mode, stopping it when the
 * snapshot shows a timer started less than ten minutes ago and starting it otherwise, through exactly one
 * client command; a successful start also asks the coordinator for fast polling, and every success asks
 * for a refresh. The three button classes differ only in their mode.
 */
module Button {
  import opened Wrappers
  import opened PyJson
  import opened ApiRules
  import opened ApiClient
  import opened BinarySensor
  import opened DeviceTracker

  /** What a press does. */
  datatype Action = Start | Stop

  /** The mode's name in messages. */
  function ModeName(mode: Mode): string
  {
    match mode
    case Find => "find"
    case Light => "light"
    case Alarm => "alarm"
  }

  /** Why a press failed: an exception raised on the way, or a command that returned a falsy value
      ("Failed to start/stop <mode> mode for tracker <id>"). */
  datatype Cause = Raised(error: Error) | CommandRefused(action: Action, trackerId: Json)

  /** The HomeAssistantError a failed press raises: its message is `prefix` followed by the text of `cause`. */
  datatype HaError = HaError(prefix: string, cause: Cause)

  function ControlPrefix(mode: Mode): string
  {
    "Error controlling " + ModeName(mode) + " mode: "
  }

  /** The decision of `async_press`: the record is looked up under `str(tracker_id)` and a missing timer
      counts as 0. A truthy timer that is not a number cannot be compared with 0, which raises. */
  function ToggleAction(data: Option<Locations>, trackerId: Json, mode: Mode, nowMs: int): Result<Action, Error>
  {
    var timer := GetOr(EntryOf(data, JStr(Text(trackerId))), TimerKey(mode), JInt(0));
    if !Truthy(timer) then Success(Start)
    else match NumOf(timer)
      case None => Failure(TypeFault)
      case Some(t) => if t > 0.0 && (nowMs as real) - t < 600000.0 then Success(Stop) else Success(Start)
  }

  /** The press stops the mode exactly when the timer is a positive number less than ten minutes behind now,
      with no lower bound: it starts it for every other numeric or falsy timer. */
  lemma ToggleStopsIff(data: Option<Locations>, trackerId: Json, mode: Mode, nowMs: int)
    ensures var timer := GetOr(EntryOf(data, JStr(Text(trackerId))), TimerKey(mode), JInt(0));
            ToggleAction(data, trackerId, mode, nowMs) == Success(Stop) <==>
              NumOf(timer).Some? && NumOf(timer).value > 0.0 && (nowMs as real) - NumOf(timer).value < 600000.0
    ensures var timer := GetOr(EntryOf(data, JStr(Text(trackerId))), TimerKey(mode), JInt(0));
            ToggleAction(data, trackerId, mode, nowMs).Failure? <==> Truthy(timer) && NumOf(timer).None?
  {
  }

  /** Without a snapshot, or without a record for the tracker, the press starts the mode. */
  lemma NoRecordStarts(data: Option<Locations>, trackerId: Json, mode: Mode, nowMs: int)
    requires data.None? || JStr(Text(trackerId)) !in data.value
    ensures ToggleAction(data, trackerId, mode, nowMs) == Success(Start)
  {
    assert EntryOf(data, JStr(Text(trackerId))) == [];
  }

  /** A timer dated in the future is stopped by the button while the mode sensor reports the mode off. */
  lemma FutureTimerStopsWhileSensorOff(data: Locations, name: string, mode: Mode, t: int, nowMs: int)
    requires JStr(name) in data && Get(data[JStr(name)], TimerKey(mode)) == JInt(t)
    requires t > nowMs && t > 0
    ensures ToggleAction(Some(data), JStr(name), mode, nowMs) == Success(Stop)
    ensures !ModeIsOn(Some(data), JStr(name), mode, nowMs)
  {
    LookupMeaning(data[JStr(name)], TimerKey(mode));
  }

  /** An integer tracker id is looked up as text by the button and as the integer by the sensor: with an
      active timer stored under the integer, the sensor is on and the press starts the mode again. */
  lemma IntegerIdHidesTimerFromButton(n: int, mode: Mode, t: int, nowMs: int)
    requires t != 0 && t <= nowMs < t + 600000
    ensures var data := map[JInt(n) := [(TimerKey(mode), JInt(t))]];
            ModeIsOn(Some(data), JInt(n), mode, nowMs) && ToggleAction(Some(data), JInt(n), mode, nowMs) == Success(Start)
  {
    var data := map[JInt(n) := [(TimerKey(mode), JInt(t))]];
    assert JStr(Text(JInt(n))) !in data;
    LookupFirst([(TimerKey(mode), JInt(t))], 0);
  }

  /** With the snapshot the client's location normalisation builds, which carries no timers, every press
      starts its mode. */
  lemma NormalisedSnapshotStarts(v: Json, trackerId: Json, mode: Mode, nowMs: int)
    requires NormaliseLocations(v).Success?
    ensures ToggleAction(Some(NormaliseLocations(v).value), trackerId, mode, nowMs) == Success(Start)
  {
    var data := NormaliseLocations(v).value;
    var key := JStr(Text(trackerId));
    if key in data {
      NormalisedLocationsAreRecords(v);
      RecordLacksKey(data[key], TimerKey(mode), JInt(0));
    }
  }

  /** A press: its effect on the client and its session, the requests it makes of the coordinator, and
      its result. */
  datatype PressOutcome = PressOutcome(conn: Conn, requests: seq<CoordinatorRequest>, result: Result<(), HaError>)

  /** `async_press` of a mode button on a snapshot of the client. */
  function PressCall(c: Conn, data: Option<Locations>, trackerId: Json, mode: Mode, nowMs: int, username: string, password: string): PressOutcome
  {
    match ToggleAction(data, trackerId, mode, nowMs)
    case Failure(e) => PressOutcome(c, [], Failure(HaError(ControlPrefix(mode), Raised(e))))
    case Success(action) =>
      var o := ModeCall(c, mode, action == Start, Text(trackerId), username, password);
      match o.result
      case Failure(e) => PressOutcome(o.conn, [], Failure(HaError(ControlPrefix(mode), Raised(e))))
      case Success(v) =>
        if !Truthy(v) then PressOutcome(o.conn, [], Failure(HaError(ControlPrefix(mode), CommandRefused(action, trackerId))))
        else PressOutcome(o.conn, if action == Start then [FastPolling, Refresh] else [Refresh], Success(()))
  }

  /** A successful start asks for fast polling and then a refresh, a successful stop only for a refresh, and a
      failed press for nothing; every failure is a HomeAssistantError "Error controlling <mode> mode: ...". */
  lemma PressRequests(c: Conn, data: Option<Locations>, trackerId: Json, mode: Mode, nowMs: int, username: string, password: string)
    ensures var o := PressCall(c, data, trackerId, mode, nowMs, username, password);
            o.result.Success? ==>
              ToggleAction(data, trackerId, mode, nowMs).Success? &&
              o.requests == if ToggleAction(data, trackerId, mode, nowMs).value == Start then [FastPolling, Refresh] else [Refresh]
    ensures var o := PressCall(c, data, trackerId, mode, nowMs, username, password);
            o.result.Failure? ==> o.requests == [] && o.result.error.prefix == "Error controlling " + ModeName(mode) + " mode: "
  {
  }

  /** With the client logged in and a first reply that is not a 403, a press sends exactly one request: the
      start or stop command the decision chose, for `str(tracker_id)`, authenticated. */
  lemma PressSendsOneCommand(c: Conn, data: Option<Locations>, trackerId: Json, mode: Mode, nowMs: int, username: string, password: string)
    requires Authenticated(c) && ToggleAction(data, trackerId, mode, nowMs).Success?
    requires c.pending != [] && c.pending[0].Response? && c.pending[0].status != 403
    ensures var start := ToggleAction(data, trackerId, mode, nowMs).value == Start;
            PressCall(c, data, trackerId, mode, nowMs, username, password).conn.sent ==
              c.sent + [Request(AuthUrl(ModeRequestUrl(start), c.userId.value, c.token.value), ModeRequestParams(mode, Text(trackerId)))]
  {
    var start := ToggleAction(data, trackerId, mode, nowMs).value == Start;
    ReauthSingleRequestUnless403(c, Corrected, ModeRequestUrl(start), true, ModeRequestParams(mode, Text(trackerId)), username, password);
  }

  /** A mode button (`PawfitFindModeButton`, `PawfitLightModeButton`, `PawfitAlarmModeButton`). */
  class PawfitModeButton {
    const tracker: Tracker
    const mode: Mode
    const coordinator: PawfitDataUpdateCoordinator

    constructor (tracker: Tracker, mode: Mode, coordinator: PawfitDataUpdateCoordinator)
      ensures this.tracker == tracker && this.mode == mode && this.coordinator == coordinator
    {
      this.tracker := tracker;
      this.mode := mode;
      this.coordinator := coordinator;
    }

    /** `async_press` at time `nowMs`. */
    method Press(nowMs: int) returns (r: Result<(), HaError>)
      modifies coordinator, coordinator.client, coordinator.client.session
      ensures var o := PressCall(old(coordinator.client.Snapshot()), old(coordinator.data), tracker.trackerId, mode, nowMs,
                                 coordinator.client.username, coordinator.client.password);
              coordinator.client.Snapshot() == o.conn && coordinator.requests == old(coordinator.requests) + o.requests && r == o.result
      ensures coordinator.data == old(coordinator.data) && coordinator.lastUpdateSuccess == old(coordinator.lastUpdateSuccess)
    {
      var action := ToggleAction(coordinator.data, tracker.trackerId, mode, nowMs);
      if action.Failure? {
        return Failure(HaError(ControlPrefix(mode), Raised(action.error)));
      }
      var start := action.value == Start;
      var result := coordinator.client.ModeCommand(mode, start, Text(tracker.trackerId));
      if result.Failure? {
        return Failure(HaError(ControlPrefix(mode), Raised(result.error)));
      }
      if !Truthy(result.value) {
        return Failure(HaError(ControlPrefix(mode), CommandRefused(action.value, tracker.trackerId)));
      }
      if start {
        coordinator.SetFastPolling();
      }
      coordinator.RequestRefresh();
      return Success(());
    }
  }

  /** The buttons of one tracker, in the order they are added. */
  function ButtonsOf(t: Tracker): seq<(Tracker, Mode)>
  {
    [(t, Find), (t, Light), (t, Alarm)]
  }

  /** `async_setup_entry`: three buttons per tracker, trackers in order. */
  method SetupEntities(trackers: seq<Tracker>) returns (buttons: seq<(Tracker, Mode)>)
    ensures |buttons| == 3 * |trackers|
    ensures forall i :: 0 <= i < |trackers| ==> buttons[3 * i..3 * i + 3] == ButtonsOf(trackers[i])
  {
    buttons := [];
    var j := 0;
    while j < |trackers|
      invariant 0 <= j <= |trackers|
      invariant |buttons| == 3 * j
      invariant forall i :: 0 <= i < j ==> buttons[3 * i..3 * i + 3] == ButtonsOf(trackers[i])
    {
      var t := trackers[j];
      ghost var before := buttons;
      buttons := buttons + [(t, Find), (t, Light), (t, Alarm)];
      assert forall i :: 0 <= i < j ==> buttons[3 * i..3 * i + 3] == before[3 * i..3 * i + 3];
      assert buttons[3 * j..3 * j + 3] == ButtonsOf(t);
      j := j + 1;
    }
  }
}
