# Pawfit integration for Home Assistant — a Dafny model

This project models the core of the Pawfit pet-tracker integration for Home Assistant:

- **The vendor API client** (`PawfitApiClient`). It covers:
  - login;
  - appending the credentials to a URL;
  - the request helper that logs in again and retries once after a 403;
  - the tracker list, location, detailed-status, mode-command and activity-statistics calls;
  - how each call classifies the server's replies.
- **The coordinator** that polls the locations.
- **The device tracker entity**: its position, battery level and availability.
- **The binary sensors**: charging, and find, light and alarm mode active.
- **The mode buttons**, which toggle a mode.
- **The daily activity summaries** that `decode.py` compiles.

## Structure

Parsed JSON is a datatype whose dicts keep their pairs in insertion order (`PyJson`). The Python rules the integration relies on are written out explicitly:

- `dict.get` with and without a default;
- truthiness;
- numeric operands of `+`, `/` and `<`;
- `int()`, which truncates;
- `str()` for None, bools, ints and strings;
- `",".join`.

The server is a scripted `Session`: each request is logged, and the next scripted reply answers it. Each client operation is first specified as a pure "call" function on a snapshot of the client, holding its credentials, the pending replies and the requests sent. The methods of the `PawfitApiClient` class are then proved to have exactly that effect and result. Every loop is written as a `while` loop with invariants and proved against a fold, including:

- tracker and location normalisation;
- the activity totals;
- the day and hour loops of `compile_daily_stats`.

| file | module | source |
|---|---|---|
| wrappers.dfy | Wrappers | Option and Result |
| py_json.dfy | PyJson | Python value semantics |
| api_rules.dfy | ApiRules | the I/O-free rules of custom_components/pawfit/pawfit_api.py |
| api_client.dfy | ApiClient | the client class, its session, and the loops of custom_components/pawfit/pawfit_api.py |
| binary_sensor.dfy | BinarySensor | custom_components/pawfit/binary_sensor.py |
| device_tracker.dfy | DeviceTracker | custom_components/pawfit/device_tracker.py |
| button.dfy | Button | custom_components/pawfit/button.py |
| decode.dfy | Decode | `compile_daily_stats` of decode.py |

## Model

| member | source | states |
|---|---|---|
| PyJson.LookupMeaning | custom_components/pawfit/pawfit_api.py:82-84 | `dict.get` finds a key exactly when some pair carries it, and returns the value of such a pair |
| PyJson.LookupFirst | custom_components/pawfit/pawfit_api.py:82-84 | the first pair carrying a key is the one `dict.get` returns |
| PyJson.GetOrMeaning | custom_components/pawfit/pawfit_api.py:82 | `.get(key, default)` returns the default exactly for a missing key, and otherwise the stored value, even when that value is None |
| PyJson.NumOf | custom_components/pawfit/binary_sensor.py:95-101 | ints, floats and bools are numeric operands (True counts as 1); any other value makes the arithmetic raise |
| PyJson.Trunc | custom_components/pawfit/device_tracker.py:152 | `int()` of a float truncates toward zero: the result is within 1 of the value, on the side of zero |
| PyJson.IntOf | custom_components/pawfit/binary_sensor.py:38 | `int()` is defined exactly for ints, floats and bools, and returns an int unchanged |
| PyJson.DecimalText | custom_components/pawfit/pawfit_api.py:261 | `str()` of an int is a non-empty decimal text that starts with '-' exactly for a negative int |
| PyJson.DictItems | decode.py:10-13 | a list of dicts is iterated item by item, in order; a list holding a non-dict fails; an empty string or dict iterates nothing |
| PyJson.Join | custom_components/pawfit/pawfit_api.py:261 | joining no parts gives "", and joining one part gives that part |
| ApiRules.TrimOneSlash | custom_components/pawfit/pawfit_api.py:119-120 | a trailing slash is removed, and only one; a URL without one is unchanged |
| ApiRules.AuthUrl | custom_components/pawfit/pawfit_api.py:121 | the authenticated URL is the trimmed URL followed by "/userId/token", with exactly that length |
| ApiRules.AppendAuth | custom_components/pawfit/pawfit_api.py:113-121 | raises NotAuthenticatedError exactly when either credential is unset; otherwise returns the authenticated URL |
| ApiRules.AppendAuthIgnoresTrailingSlash | custom_components/pawfit/pawfit_api.py:119-121 | one trailing slash on the URL does not change the result |
| ApiRules.AppendAuthRemovesOnlyOneSlash | custom_components/pawfit/pawfit_api.py:119-121 | a URL ending in "//" keeps one of its slashes |
| ApiRules.AppendAuthExamples | tests/test_pawfit_api.py:232-251 | the test suite's URLs, with and without a trailing slash, and the unauthenticated case |
| ApiRules.LoginOutcome | custom_components/pawfit/pawfit_api.py:62-98 | a transport failure is a ConnectionError; a non-200 status is an AuthenticationError; an unparsable body is an InvalidResponseError; a success carries truthy credentials |
| ApiRules.LoginSucceedsIff | custom_components/pawfit/pawfit_api.py:65-94 | login succeeds exactly for a 200 reply whose `data` dict holds a truthy userId and a truthy sessionId, and it returns exactly that pair |
| ApiRules.LoginMissingUserIdFails | custom_components/pawfit/pawfit_api.py:82-90 | a missing or empty userId is an AuthenticationError |
| ApiRules.BeforeFirstSlash | custom_components/pawfit/pawfit_api.py:162 | the result is the longest prefix that holds no slash, followed in the URL by a slash or by nothing |
| ApiRules.BeforeFirstSlashAt | custom_components/pawfit/pawfit_api.py:162 | when the first slash is at index n, the text before it is the first n characters |
| ApiRules.RetryUrl | custom_components/pawfit/pawfit_api.py:160-163 | the corrected retry URL is what `_append_auth_to_url` makes of the request's own URL with the new credentials |
| ApiRules.RetryTarget | custom_components/pawfit/pawfit_api.py:160-163 | the retry URL under each rule: as written, the new credentials appended to the text before the first slash of the URL first sent; corrected, the request's own URL authenticated with the new credentials |
| ApiRules.AuthedVendorUrlScheme | custom_components/pawfit/pawfit_api.py:121 | every authenticated vendor URL begins with "https:/" |
| ApiRules.RetryUrlAsWrittenLosesEndpoint | custom_components/pawfit/pawfit_api.py:160-163 | for every vendor endpoint, the retry as written goes to "https:/user/token" and differs from the corrected retry URL |
| ApiRules.FirstNonNull | custom_components/pawfit/pawfit_api.py:223-227 | the chosen id is None exactly when every candidate is None; otherwise it is one of the candidates |
| ApiRules.FirstNonNullIsFirst | custom_components/pawfit/pawfit_api.py:223-227 | the chosen candidate is the earliest that is not None |
| ApiRules.FirstNonNullOfThree | custom_components/pawfit/pawfit_api.py:223-227 | `tracker_id`, else `id`, else `trackerId` |
| ApiRules.DictTracker | custom_components/pawfit/pawfit_api.py:214-219 | a dict item fails exactly when it is not a dict; a kept item has a truthy name, a non-None petId, and its key as tracker_id |
| ApiRules.ListTracker | custom_components/pawfit/pawfit_api.py:221-232 | a list item fails exactly when it is not a dict; a kept item has a non-None name, petId and id |
| ApiRules.Kept | custom_components/pawfit/pawfit_api.py:213-232 | the indices of the items a filter keeps: increasing, each one kept, and every kept item's index present |
| ApiRules.TrackersFromDictSound | custom_components/pawfit/pawfit_api.py:213-219 | dict shape: fails exactly when some item is not a dict; otherwise there is one record per kept item (truthy name, non-None petId), in key order, and the k-th record is the k-th kept item's name, petId and key |
| ApiRules.TrackersFromDictRecords | custom_components/pawfit/pawfit_api.py:213-219 | dict shape: the k-th record is built from the k-th kept item, and there are as many records as kept items |
| ApiRules.TrackersFromDictComplete | custom_components/pawfit/pawfit_api.py:213-219 | dict shape: every item with a truthy name and a non-None petId yields its record |
| ApiRules.TrackersFromDictExtends | custom_components/pawfit/pawfit_api.py:213-219 | one more item leaves the records already collected unchanged, and appends at most one |
| ApiRules.TrackersFromListSound | custom_components/pawfit/pawfit_api.py:220-232 | list shape: fails exactly when some item is not a dict; otherwise there is one record per kept item (name, petId and the fallback id all not None), in list order, and the k-th record is the k-th kept item's name, petId and id |
| ApiRules.TrackersFromListComplete | custom_components/pawfit/pawfit_api.py:220-232 | list shape: every item whose name, petId and fallback id are all not None yields its record |
| ApiRules.ListShapeKeepsEmptyName | custom_components/pawfit/pawfit_api.py:218-232 | an empty name is kept by the list shape (an `is not None` test) and dropped by the dict shape (a truthiness test) |
| ApiRules.OtherShapeGivesNoTrackers | custom_components/pawfit/pawfit_api.py:233-237 | a `data` that is neither a dict nor a list gives no trackers |
| ApiRules.LocationRecord | custom_components/pawfit/pawfit_api.py:288-304 | a location record has seven keys, and keeps the item itself under `_raw` |
| ApiRules.LocationRecordFields | custom_components/pawfit/pawfit_api.py:288-304 | building a record fails exactly when the item, its `state` or its `state.location` is not a dict; latitude, longitude and accuracy come from `state.location`, and last_update, battery and signal from `state` (`utcDateTime`, `power`, `signal`) |
| ApiRules.LocationEntryMeaning | custom_components/pawfit/pawfit_api.py:306-332 | a list item without `tracker`, `tracker_id`, `id` or `trackerId` is skipped; any other item stores its record under that id |
| ApiRules.LocationsFromDictKeys | custom_components/pawfit/pawfit_api.py:285-304 | dict shape: the snapshot's ids are exactly the reply's keys |
| ApiRules.LocationsFromDictValue | custom_components/pawfit/pawfit_api.py:285-304 | dict shape: each key maps to the record built from its item |
| ApiRules.LocationsFromListKeys | custom_components/pawfit/pawfit_api.py:305-332 | list shape: an id is present exactly when some item carries it |
| ApiRules.LocationsFromListLastWins | custom_components/pawfit/pawfit_api.py:323-332 | list shape: an id maps to the record of the last item that carries it |
| ApiRules.LocationRecordIsRecord | custom_components/pawfit/pawfit_api.py:296-304 | every record has exactly the seven record keys, in order |
| ApiRules.RecordLacksKey | custom_components/pawfit/pawfit_api.py:296-304 | `.get` of any other key on a record gives the default |
| ApiRules.NormalisedLocationsAreRecords | custom_components/pawfit/pawfit_api.py:281-337 | whatever the reply's shape, every tracker in the snapshot maps to such a record (so the snapshot holds no timers) |
| ApiRules.SplitCommas | custom_components/pawfit/pawfit_api.py:261 | splitting at commas yields at least one part |
| ApiRules.JoinedIdsRoundTrip | custom_components/pawfit/pawfit_api.py:261-263 | comma-free tracker ids are read back from the `trackers=` query by splitting it at its commas |
| ApiRules.DetailedStatusOutcome | custom_components/pawfit/pawfit_api.py:385-393 | an unparsable body is an InvalidResponseError |
| ApiRules.DetailedStatusPassesIff | custom_components/pawfit/pawfit_api.py:397-419 | the reply passes exactly when it is a dict with a truthy `success`; its `data` (default []) is then returned untouched; a missing `success` raises ApiError |
| ApiRules.ModeReplyOutcome | custom_components/pawfit/pawfit_api.py:457-466 | a non-200 status gives False; a 200 reply without JSON content, or with an unparsable body, gives True |
| ApiRules.ModeReplyReadsSuccess | custom_components/pawfit/pawfit_api.py:459-460 | a 200 JSON dict reply gives its `success` value as is, or True without one |
| ApiRules.HourlyStatsOfDays | custom_components/pawfit/pawfit_api.py:725-727 | one list of hourly stats per day |
| ApiRules.TotalsOfSnoc | custom_components/pawfit/pawfit_api.py:730-741 | the running totals after one more hour are the previous totals plus that hour |
| ApiRules.TotalStepsIsSumOfPaces | custom_components/pawfit/pawfit_api.py:734-741 | the step total equals an independent sum of the hourly paces (a missing pace counts as 0) |
| ApiRules.MissingActivitiesGiveZero | custom_components/pawfit/pawfit_api.py:717-747 | a reply without `data`, or without `activities`, gives zero totals |
| ApiRules.ActivityStatsOutcome | custom_components/pawfit/pawfit_api.py:678-704 | a transport failure or a non-200 status gives the zero totals; a 200 reply that decodes and compiles gives its totals; a 200 reply that does not decode, or does not compile, gives the zero totals |
| ApiRules.ActivityExample | tests/test_pawfit_api.py:294-323 | the test suite's two hours give 350 steps, 25.7 calories and 1.3 active hours |
| ApiRules.ExampleDays | tests/test_pawfit_api.py:294-306 | the test reply holds one day with the two hours |
| ApiRules.ExampleTotals | tests/test_pawfit_api.py:300-301 | the two hours add up to the expected totals |
| ApiClient.LoginCall | custom_components/pawfit/pawfit_api.py:46-98 | login sends one request with user and pwd; on success both credentials become the returned pair; on failure they are unchanged |
| ApiClient.LoginIfNeeded | custom_components/pawfit/pawfit_api.py:188-189 | an authenticated client is left as it is; a successful guard leaves the client authenticated |
| ApiClient.ReauthCall | custom_components/pawfit/pawfit_api.py:123-174 | a returned reply is always a response, never a transport failure; the retry URL after a 403 follows the rule given, as written or corrected |
| ApiClient.AsApiError | custom_components/pawfit/pawfit_api.py:239-244 | a success passes through unchanged; every failure becomes ApiError |
| ApiClient.IdTexts | custom_components/pawfit/pawfit_api.py:261 | the i-th text is `str()` of the i-th tracker id |
| ApiClient.ReauthRefusedWithoutCredentials | custom_components/pawfit/pawfit_api.py:147-148 | an authenticated request from a client without credentials raises NotAuthenticatedError and sends nothing |
| ApiClient.ReauthSingleRequestUnless403 | custom_components/pawfit/pawfit_api.py:150-167 | a reply other than 403 is returned after exactly one request, and the credentials are untouched |
| ApiClient.ReauthRetriesOnceAfter403 | custom_components/pawfit/pawfit_api.py:154-167 | after a 403 and a successful login, the client adopts the new credentials and sends exactly one retry, whose reply is returned. With auth appended, the retry goes to the text before the first slash of the first URL plus the new credentials as written, or to the request's URL with the new credentials when corrected. Without it, the first URL is resent, old credentials included |
| ApiClient.ReauthAsWrittenLosesEndpoint | custom_components/pawfit/pawfit_api.py:154-167 | as written, the retry of every authenticated vendor request after a 403 and a successful login is sent to "https:/<userId>/<token>", not to the corrected URL |
| ApiClient.ReauthLoginFailureIsApiError | custom_components/pawfit/pawfit_api.py:154-174 | a failed login after a 403 surfaces as ApiError, whatever the login raised |
| ApiClient.ReauthSendsAtMostThree | custom_components/pawfit/pawfit_api.py:150-167 | the helper sends one, two or three requests and only appends to the request log |
| ApiClient.TrackersCallGuardAndErrors | custom_components/pawfit/pawfit_api.py:188-244 | an unauthenticated client logs in first; once the guard has passed, every failure is ApiError |
| ApiClient.LocationsCallRequest | custom_components/pawfit/pawfit_api.py:259-268 | without credentials it raises NotAuthenticatedError (there is no login guard); with them, the first request is the authenticated URL with the `trackers=` query |
| ApiClient.FindModeRaisesOnlyConnectionErrors | custom_components/pawfit/pawfit_api.py:452-472 | once logged in, find mode raises nothing but a ConnectionError |
| ApiClient.ModeErrorHandlingDiffers | custom_components/pawfit/pawfit_api.py:428-632 | when the re-login after a 403 fails, light and alarm raise ApiError while find returns False |
| ApiClient.ActivityCallNeverRaisesWhenLoggedIn | custom_components/pawfit/pawfit_api.py:672-704 | once logged in, the activity call never raises; a transport failure gives the zero totals |
| ApiClient.CollectTrackers | custom_components/pawfit/pawfit_api.py:209-237 | the item-by-item loops build exactly the normalised tracker list |
| ApiClient.CollectLocations | custom_components/pawfit/pawfit_api.py:281-337 | the item-by-item loops build exactly the normalised location snapshot |
| ApiClient.CompileDailyActivityStats | custom_components/pawfit/pawfit_api.py:706-750 | the nested loops compute exactly the specified totals, or fail as the specification does |
| ApiClient.AddHourlyStats | custom_components/pawfit/pawfit_api.py:730-741 | the inner loop extends the running totals by one day's hours |
| ApiClient.ActivityDayFailure | custom_components/pawfit/pawfit_api.py:725-741 | a malformed hour fails the whole compilation, whatever later days hold |
| ApiClient.Session.constructor | custom_components/pawfit/pawfit_api.py:41 | a session starts with its script of replies and nothing sent |
| ApiClient.Session.Get | custom_components/pawfit/pawfit_api.py:151-152 | a request is logged, and answered by the next reply of the script |
| ApiClient.PawfitApiClient.constructor | custom_components/pawfit/pawfit_api.py:26-44 | a new client keeps its account and session and has no credentials |
| ApiClient.PawfitApiClient.AppendAuthToUrl | custom_components/pawfit/pawfit_api.py:100-121 | fails exactly when a credential is unset; otherwise appends both credentials |
| ApiClient.PawfitApiClient.Login | custom_components/pawfit/pawfit_api.py:46-98 | the new state and the result are those of LoginCall |
| ApiClient.PawfitApiClient.LoginIfUnauthenticated | custom_components/pawfit/pawfit_api.py:188-189 | the new state and the result are those of LoginIfNeeded |
| ApiClient.PawfitApiClient.RequestWithReauth | custom_components/pawfit/pawfit_api.py:123-174 | the new state and the result are those of ReauthCall |
| ApiClient.PawfitApiClient.GetTrackers | custom_components/pawfit/pawfit_api.py:176-244 | the new state and the result are those of TrackersCall |
| ApiClient.PawfitApiClient.GetLocations | custom_components/pawfit/pawfit_api.py:246-344 | the new state and the result are those of LocationsCall |
| ApiClient.PawfitApiClient.GetDetailedStatus | custom_components/pawfit/pawfit_api.py:346-426 | the new state and the result are those of DetailedStatusCall |
| ApiClient.PawfitApiClient.ModeCommand | custom_components/pawfit/pawfit_api.py:428-632 | the new state and the result are those of ModeCall, for each of the six start and stop commands |
| ApiClient.PawfitApiClient.GetActivityStats | custom_components/pawfit/pawfit_api.py:634-704 | the new state and the result are those of ActivityCall |
| BinarySensor.ChargingIsOn | custom_components/pawfit/binary_sensor.py:31-39 | no snapshot, or no battery value, gives None; a battery that `int()` cannot convert raises, and exactly then; otherwise a value is reported, charging exactly when the battery is negative |
| BinarySensor.ModeIsOnIff | custom_components/pawfit/binary_sensor.py:77-106 | on exactly when the timer is a non-zero number started less than ten minutes (600 000 ms) ago and not in the future |
| BinarySensor.ModeWindowOfIntegerTimer | custom_components/pawfit/binary_sensor.py:91-103 | for an integer timer t, on exactly for t <= now < t + 600000 |
| BinarySensor.ModeOffOutsideWindow | custom_components/pawfit/binary_sensor.py:95-103 | a future timer, or one ten minutes old or more, leaves the sensor off |
| BinarySensor.ModesShareOneRule | custom_components/pawfit/binary_sensor.py:149-178 | the find, light and alarm sensors apply one rule: equal timers give equal states |
| BinarySensor.NormalisedSnapshotModesOff | custom_components/pawfit/binary_sensor.py:83-89 | with the snapshot the client builds, which holds no timers, every mode sensor is off |
| BinarySensor.ModeState | custom_components/pawfit/binary_sensor.py:109-111 | the state is "on" or "off", and "on" exactly when `is_on` holds |
| BinarySensor.SetupEntities | custom_components/pawfit/binary_sensor.py:276-288 | four sensors per tracker (charging, find, light, alarm), trackers in order |
| DeviceTracker.TrackerIds | custom_components/pawfit/device_tracker.py:55 | one id per tracker, in order |
| DeviceTracker.PawfitDataUpdateCoordinator.constructor | custom_components/pawfit/device_tracker.py:46-55 | a 60-second interval, the trackers' ids, no data yet |
| DeviceTracker.PawfitDataUpdateCoordinator.UpdateData | custom_components/pawfit/device_tracker.py:57-60 | an update is the client's locations call for all the coordinator's trackers |
| DeviceTracker.PawfitDataUpdateCoordinator.SetFastPolling | custom_components/pawfit/button.py:68 | the request is recorded; the data is untouched |
| DeviceTracker.PawfitDataUpdateCoordinator.RequestRefresh | custom_components/pawfit/button.py:58 | the request is recorded; the data is untouched |
| DeviceTracker.SensorState | custom_components/pawfit/device_tracker.py:81-86 | without a snapshot the state is None |
| DeviceTracker.BatterySensorShowsPower | custom_components/pawfit/device_tracker.py:81-86 | the battery sensor shows the item's `state.power` from the location reply |
| DeviceTracker.DecodeBattery | custom_components/pawfit/device_tracker.py:149-163 | a missing battery gives no level and no charging flag; a value `int()` cannot convert raises; otherwise both are set and the level is non-negative |
| DeviceTracker.DecodeBatteryRecoversValue | custom_components/pawfit/device_tracker.py:150-163 | the level and the charging flag together give back the vendor's signed value; charging exactly when it is negative |
| DeviceTracker.Coordinate | custom_components/pawfit/device_tracker.py:145-147 | a falsy coordinate is missing; any other is its numeric value, which is non-zero |
| DeviceTracker.UpdatedAttrsMeaning | custom_components/pawfit/device_tracker.py:143-163 | a completed update sets every attribute from the record; an update that raises keeps the attributes assigned before the failing conversion with their new values, and leaves the others as they were |
| DeviceTracker.ZeroCoordinateIsMissing | custom_components/pawfit/device_tracker.py:139-147 | a zero latitude counts as missing, so the tracker is unavailable and has no state |
| DeviceTracker.AvailableAfterUpdate | custom_components/pawfit/device_tracker.py:139-177 | available exactly when the last poll succeeded and both raw coordinates are truthy; the state is then that position |
| DeviceTracker.ChargingSensorAgreesWithTracker | custom_components/pawfit/device_tracker.py:215-224 | the charging sensor shows the tracker entity's charging attribute |
| DeviceTracker.PawfitDeviceTracker.constructor | custom_components/pawfit/device_tracker.py:105-124 | every attribute starts unknown |
| DeviceTracker.PawfitDeviceTracker.UpdateAttrs | custom_components/pawfit/device_tracker.py:143-163 | the new attributes and the result are those of UpdatedAttrs on this tracker's record |
| DeviceTracker.SetupEntities | custom_components/pawfit/device_tracker.py:328-336 | six entities per tracker, in the order they are added, trackers in order |
| Button.ToggleStopsIff | custom_components/pawfit/button.py:39-50 | a press stops the mode exactly when the timer is a positive number less than ten minutes old (with no lower bound); a truthy non-numeric timer raises |
| Button.NoRecordStarts | custom_components/pawfit/button.py:39-42 | without a snapshot, or without a record, a press starts the mode |
| Button.FutureTimerStopsWhileSensorOff | custom_components/pawfit/button.py:42-54 | a timer in the future makes the press stop the mode while the sensor reports it off |
| Button.IntegerIdHidesTimerFromButton | custom_components/pawfit/button.py:39 | a timer stored under an integer id is seen by the sensor, but missed by the button, which looks up `str(id)` |
| Button.NormalisedSnapshotStarts | custom_components/pawfit/button.py:39-42 | with the snapshot the client builds, every press starts its mode |
| Button.PressRequests | custom_components/pawfit/button.py:52-101 | a successful start asks for fast polling and then a refresh; a successful stop asks only for a refresh; a failure asks for nothing and raises "Error controlling <mode> mode: ..." |
| Button.PressSendsOneCommand | custom_components/pawfit/button.py:54-63 | a logged-in press whose reply is not a 403 sends exactly one request: the chosen command for `str(tracker_id)` |
| Button.PawfitModeButton.constructor | custom_components/pawfit/button.py:16-29 | a button keeps its tracker, mode and coordinator |
| Button.PawfitModeButton.Press | custom_components/pawfit/button.py:35-101 | the client, the coordinator's requests and the result are those of PressCall; the snapshot is untouched |
| Button.SetupEntities | custom_components/pawfit/button.py:327-338 | three buttons per tracker (find, light, alarm), trackers in order |
| Decode.CompileDailyStats | decode.py:5-77 | the day loop computes exactly the specified summaries, or fails as the specification does |
| Decode.CompileDay | decode.py:10-75 | one day's record is its hourly tally, completed with the averages and the converted distances |
| Decode.TallyHours | decode.py:31-59 | the hour loop yields the running totals of the day and its positive paces, or nothing when an hour cannot be read |
| Decode.TallyStep | decode.py:33-59 | one more hour adds its numbers to the sums; it is counted when its pace is positive, raises the maximum when larger, and appends its breakdown entry |
| Decode.SummariesMeaning | decode.py:10-75 | the i-th summary is the summary of the i-th day |
| Decode.OneSummaryPerDay | decode.py:7-77 | one summary per activity day, in order, carrying that day's `dayPos` and `timestamp` (default 0) |
| Decode.MissingActivitiesGiveNoSummaries | decode.py:7 | a reply without `data`, or without `activities`, gives no summaries |
| Decode.HourStatsMeaning | decode.py:33-59 | the i-th hourly stat is read from the i-th hour |
| Decode.HourlyTotals | decode.py:33-59 | the steps are the sum of the paces; the active periods count the hours with a positive pace; the maximum pace is the paces' maximum (and at least 0); the breakdown has one entry per hour, whose `pace` and `steps` are both that hour's pace |
| Decode.MissingPaceCountsZero | decode.py:40-41 | an hour without a pace adds 0 steps |
| Decode.PositivesCount | decode.py:43-45 | the active paces are positive, and there are as many of them as positive paces |
| Decode.MaxOr0IsMaximum | decode.py:47-48 | the maximum pace is at least 0 and at least every pace, and it is 0 or one of the paces |
| Decode.PositivesBounded | decode.py:61-63 | the active paces sum to more than 0 when there are any, and to at most their number times the maximum |
| Decode.MeanPaceBounds | decode.py:61-63 | `avg_pace` is 0 without active paces; otherwise it is their mean, which is greater than 0 and at most `max_pace` |

## Left out

- HTTP itself is not modelled, and neither are aiohttp, headers, the User-Agent and `resp.text()`. The server is a scripted list of replies, and a JSON body is either parsed or unparsable.
- The `resp.json()` / `json.loads` fallback is not modelled: both parse the same text.
- The base64 and zlib decoding of the activity reply is not modelled. A reply that decodes is given as parsed JSON, and one that does not is unparsable.
- Floats are exact reals. `round(x, 2)` in `_compile_daily_activity_stats` is not applied, and the float text of the device tracker's state string is not rendered: `StateOf` returns the pair of coordinates.
- `int()` and `float()` of numeric strings are not modelled: text is never parsed, and a string where a number is expected raises.
- `str()` is rendered for None, bools, ints and strings. Floats, lists and dicts used as tracker ids render as "".
- Python's equality of 1, 1.0 and True as dict keys is not modelled: snapshot keys are compared as values.
- Exception messages (`str(e)`) are not modelled: errors are their kinds, and a HomeAssistantError is its prefix and its cause.
- The button's inner `except (ValueError, TypeError)` retry path is not modelled. The client's mode commands raise the integration's own exceptions, and an AttributeError when the login reply's body is not a dict of dicts. None of these is a ValueError or a TypeError, so nothing reaches that path.
- Button.PawfitModeButton.Press: fast polling is recorded as a request made of the coordinator. The coordinator shown defines no `async_set_fast_polling`, so no change of polling interval is modelled.
- DeviceTracker.PawfitDataUpdateCoordinator.RequestRefresh: the refresh is recorded, not performed. Home Assistant's scheduling of coordinator updates, and how it sets `last_update_success`, are not modelled; `lastUpdateSuccess` is a field.
- `available` of the sensors and buttons (which is `last_update_success`) is not modelled, and neither are the entity names, unique ids, icons and device info.
- `PawfitTimestampSensor` is not modelled: it parses datetimes.
- sensor.py, config_flow.py, `__init__.py`, const.py and logging are not part of this model.
- The current time is a parameter in milliseconds. The activity call's day bounds, which the source computes from the clock, are parameters too.
- In decode.py, the date and hour strings formatted with `datetime.fromtimestamp(...).strftime` are not modelled. Only the numeric check that the timestamp division imposes is kept, and out-of-range timestamps are not modelled.
- ApiClient.ReauthCall: the client methods (`PawfitApiClient.RequestWithReauth` and every call built on it) retry the corrected URL, RetryUrl. As written, the program sends that retry to `https:/<userId>/<token>`. `ReauthCall` with the `AsWritten` rule models the program's retry, and ReauthAsWrittenLosesEndpoint states where it goes.
- ApiClient.ReauthCall: for a request that is not authenticated by the helper (`append_auth=False`, as the locations call uses), the retry after a 403 resends the same URL with the old credentials, as written.

## Findings

| source | as written | input that shows it | evidently intended | confidence | as-written member | corrected member |
|---|---|---|---|---|---|---|
| custom_components/pawfit/pawfit_api.py:160-163 | the retry URL after a 403 is `url.split("/", 1)[0]` of the already authenticated URL, with the new credentials appended | any authenticated request, for example `listpetinvitee/1/1`, whose first reply is 403: the retry goes to `https:/<userId>/<token>` | retry the same endpoint with the new credentials | high, not executed | ApiRules.RetryUrlAsWritten, ApiRules.RetryUrlAsWrittenLosesEndpoint, ApiClient.ReauthAsWrittenLosesEndpoint (ApiClient.ReauthCall with the AsWritten rule) | ApiRules.RetryUrl (ApiClient.ReauthCall with the Corrected rule, used by ApiClient.PawfitApiClient.RequestWithReauth) |
