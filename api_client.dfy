/**
 * The vendor API client (custom_components/pawfit/pawfit_api.py, class PawfitApiClient): credentials
 * held in fields, a session that answers requests from a script of server replies, and the client
 * operations. Each operation is specified by a "call" function on a snapshot of the client and its
 * session; the methods of the class are proved to have exactly that effect and result.
 */
module ApiClient {
  import opened Wrappers
  import opened PyJson
  import opened ApiRules

  // ---------------------------------------------------------------------------
  // The specification: calls on a snapshot of the client

  /** The client's credentials, the replies the server has still to give (in order) and the requests sent so far. */
  datatype Conn = Conn(userId: Option<Json>, token: Option<Json>, pending: seq<Reply>, sent: seq<Request>)

  /** A call's effect on the snapshot and what it returns or raises. */
  datatype Outcome<T> = Outcome(conn: Conn, result: Result<T, Error>)

  /** The guard in front of most operations: both credentials are set. */
  predicate Authenticated(c: Conn)
  {
    c.userId.Some? && c.token.Some?
  }

  /** The next reply of the script; a server that has nothing more to say is a connection failure. */
  function NextReply(pending: seq<Reply>): Reply
  {
    if pending == [] then ClientFailure else pending[0]
  }

  function LaterReplies(pending: seq<Reply>): seq<Reply>
  {
    if pending == [] then [] else pending[1..]
  }

  /** Sends one request: it is logged, and the next reply is consumed. */
  function Send(c: Conn, req: Request): (Conn, Reply)
  {
    (c.(pending := LaterReplies(c.pending), sent := c.sent + [req]), NextReply(c.pending))
  }

  /** `async_login`: one login request; on success both credentials are replaced by the returned pair. */
  function LoginCall(c: Conn, username: string, password: string): (o: Outcome<(Json, Json)>)
    ensures o.conn.sent == c.sent + [LoginRequest(username, password)]
    ensures o.result.Success? ==> o.conn.userId == Some(o.result.value.0) && o.conn.token == Some(o.result.value.1)
    ensures o.result.Failure? ==> o.conn.userId == c.userId && o.conn.token == c.token
  {
    var (c1, reply) := Send(c, LoginRequest(username, password));
    var r := LoginOutcome(reply);
    Outcome(if r.Success? then c1.(userId := Some(r.value.0), token := Some(r.value.1)) else c1, r)
  }

  /** The login guard: log in when either credential is unset; a failed login propagates unchanged. */
  function LoginIfNeeded(c: Conn, username: string, password: string): (o: Outcome<()>)
    ensures Authenticated(c) ==> o == Outcome(c, Success(()))
    ensures o.result.Success? ==> Authenticated(o.conn)
  {
    if Authenticated(c) then Outcome(c, Success(()))
    else
      var login := LoginCall(c, username, password);
      Outcome(login.conn, if login.result.Success? then Success(()) else Failure(login.result.error))
  }

  /** The first URL of a request: authenticated with the current credentials when asked to. */
  function FirstUrl(c: Conn, url: string, appendAuth: bool): Result<string, Error>
  {
    if appendAuth then AppendAuth(url, c.userId, c.token) else Success(url)
  }

  /** `_request_with_reauth`, with the retry URL chosen by `rule` (the program's, or the corrected RetryUrl):
      one request; on a 403 one login and exactly one more request, whose reply is returned whatever its status. */
  function ReauthCall(c: Conn, rule: RetryRule, url: string, appendAuth: bool, params: seq<(string, string)>, username: string, password: string): (o: Outcome<Reply>)
    ensures o.result.Success? ==> o.result.value.Response?
  {
    match FirstUrl(c, url, appendAuth)
    case Failure(e) => Outcome(c, Failure(e))
    case Success(firstUrl) =>
      var (c1, reply) := Send(c, Request(firstUrl, params));
      if reply.ClientFailure? then Outcome(c1, Failure(ConnectionError))
      else if reply.status != 403 then Outcome(c1, Success(reply))
      else
        var login := LoginCall(c1, username, password);
        if login.result.Failure? then Outcome(login.conn, Failure(ApiError))
        else
          var retryUrl := if appendAuth then RetryTarget(rule, url, firstUrl, login.result.value.0, login.result.value.1) else firstUrl;
          var (c2, retry) := Send(login.conn, Request(retryUrl, params));
          if retry.ClientFailure? then Outcome(c2, Failure(ConnectionError)) else Outcome(c2, Success(retry))
  }

  /** `except PawfitApiError: raise` followed by `except Exception: raise PawfitApiError(...)`: every error becomes ApiError. */
  function AsApiError<T>(r: Result<T, Error>): (w: Result<T, Error>)
    ensures w.Success? <==> r.Success?
    ensures w.Success? ==> w == r
    ensures w.Failure? ==> w.error == ApiError
  {
    if r.Failure? then Failure(ApiError) else r
  }

  const TrackersUrl := BaseUrl + "listpetinvitee/1/1"
  const LocationsUrl := BaseUrl + "getlocationcaches/1/1"
  const ActivityUrl := BaseUrl + "getactivitystatzip/1/1"

  /** `str(tid)` for every tracker id. */
  function IdTexts(trackerIds: seq<Json>): (r: seq<string>)
    ensures |r| == |trackerIds| && forall i :: 0 <= i < |r| ==> r[i] == Text(trackerIds[i])
  {
    seq(|trackerIds|, i requires 0 <= i < |trackerIds| => Text(trackerIds[i]))
  }

  /** The reply body read as the tracker list. */
  function TrackersFromBody(body: Body): Result<seq<Tracker>, Error>
  {
    match body
    case Unparsable => Failure(InvalidResponseError)
    case Parsed(v) => NormaliseTrackers(v)
  }

  /** `async_get_trackers`. */
  function TrackersCall(c: Conn, username: string, password: string): Outcome<seq<Tracker>>
  {
    var guard := LoginIfNeeded(c, username, password);
    if guard.result.Failure? then Outcome(guard.conn, Failure(guard.result.error))
    else
      var o := ReauthCall(guard.conn, Corrected, TrackersUrl, true, [], username, password);
      Outcome(o.conn, AsApiError(if o.result.Failure? then Failure(o.result.error) else TrackersFromBody(o.result.value.body)))
  }

  /** The reply body read as the location snapshot. */
  function LocationsFromBody(body: Body): Result<Locations, Error>
  {
    match body
    case Unparsable => Failure(InvalidResponseError)
    case Parsed(v) => NormaliseLocations(v)
  }

  /** `async_get_locations`: no login guard; the credentials are embedded before the query, and the request
      goes out without further authentication. */
  function LocationsCall(c: Conn, trackerIds: seq<Json>, username: string, password: string): Outcome<Locations>
  {
    match AppendAuth(LocationsUrl, c.userId, c.token)
    case Failure(e) => Outcome(c, Failure(e))
    case Success(authed) =>
      var o := ReauthCall(c, Corrected, authed + "?" + TrackersQuery(IdTexts(trackerIds)), false, [], username, password);
      Outcome(o.conn, AsApiError(if o.result.Failure? then Failure(o.result.error) else LocationsFromBody(o.result.value.body)))
  }

  /** `async_get_detailed_status`: with tracker ids the query names them; without, the request is authenticated
      by the retry helper. */
  function DetailedStatusCall(c: Conn, trackerIds: seq<Json>, username: string, password: string): Outcome<Json>
  {
    var guard := LoginIfNeeded(c, username, password);
    if guard.result.Failure? then Outcome(guard.conn, Failure(guard.result.error))
    else
      var c1 := guard.conn;
      if trackerIds != [] && AppendAuth(LocationsUrl, c1.userId, c1.token).Failure? then Outcome(c1, Failure(ApiError))
      else
        var o := if trackerIds != [] then
                   ReauthCall(c1, Corrected, AppendAuth(LocationsUrl, c1.userId, c1.token).value + "?" + TrackersQuery(IdTexts(trackerIds)), false, [], username, password)
                 else ReauthCall(c1, Corrected, LocationsUrl, true, [], username, password);
        Outcome(o.conn, AsApiError(if o.result.Failure? then Failure(o.result.error) else DetailedStatusOutcome(o.result.value.body)))
  }

  /** The start and stop commands of the three modes. Find turns every error but a connection error into False;
      Light and Alarm let errors propagate. */
  function ModeCall(c: Conn, mode: Mode, start: bool, trackerId: string, username: string, password: string): Outcome<Json>
  {
    var guard := LoginIfNeeded(c, username, password);
    if guard.result.Failure? then Outcome(guard.conn, Failure(guard.result.error))
    else
      var o := ReauthCall(guard.conn, Corrected, ModeRequestUrl(start), true, ModeRequestParams(mode, trackerId), username, password);
      match o.result
      case Success(reply) => Outcome(o.conn, Success(ModeReplyOutcome(reply.status, reply.jsonContentType, reply.body)))
      case Failure(e) =>
        if mode == Find && e != ConnectionError then Outcome(o.conn, Success(JBool(false)))
        else Outcome(o.conn, Failure(e))
  }

  function ActivityParams(trackerId: string, startMs: int, endMs: int): seq<(string, string)>
  {
    [("end", DecimalText(endMs)), ("start", DecimalText(startMs)), ("tracker", trackerId)]
  }

  /** `async_get_activity_stats` for the day [startMs, endMs]: after the login guard nothing is raised. */
  function ActivityCall(c: Conn, trackerId: string, startMs: int, endMs: int, username: string, password: string): Outcome<ActivityTotals>
  {
    var guard := LoginIfNeeded(c, username, password);
    if guard.result.Failure? then Outcome(guard.conn, Failure(guard.result.error))
    else
      var o := ReauthCall(guard.conn, Corrected, ActivityUrl, true, ActivityParams(trackerId, startMs, endMs), username, password);
      Outcome(o.conn, Success(if o.result.Failure? then ZeroTotals else ActivityStatsOutcome(o.result.value)))
  }

  // ---------------------------------------------------------------------------
  // Properties of the calls

  /** Without credentials a request that must be authenticated is refused before anything is sent. */
  lemma ReauthRefusedWithoutCredentials(c: Conn, rule: RetryRule, url: string, params: seq<(string, string)>, username: string, password: string)
    requires !Authenticated(c)
    ensures ReauthCall(c, rule, url, true, params, username, password) == Outcome(c, Failure(NotAuthenticatedError))
  {
  }

  /** A reply other than 403 is returned as it is, after exactly one request and with the credentials untouched. */
  lemma ReauthSingleRequestUnless403(c: Conn, rule: RetryRule, url: string, appendAuth: bool, params: seq<(string, string)>, username: string, password: string)
    requires FirstUrl(c, url, appendAuth).Success?
    requires NextReply(c.pending).Response? && NextReply(c.pending).status != 403
    ensures var o := ReauthCall(c, rule, url, appendAuth, params, username, password);
            o.result == Success(NextReply(c.pending)) &&
            o.conn.sent == c.sent + [Request(FirstUrl(c, url, appendAuth).value, params)] &&
            o.conn.userId == c.userId && o.conn.token == c.token
  {
  }

  /** On a 403 followed by a successful login the client adopts the new credentials and sends exactly one more
      request: to the URL authenticated with the new credentials when auth is appended, and to the unchanged
      first URL (old credentials included) otherwise. That second reply is returned whatever its status. */
  lemma {:induction false} ReauthRetriesOnceAfter403(c: Conn, rule: RetryRule, url: string, appendAuth: bool, params: seq<(string, string)>, username: string, password: string)
    requires FirstUrl(c, url, appendAuth).Success?
    requires |c.pending| >= 3 && c.pending[0].Response? && c.pending[0].status == 403
    requires LoginOutcome(c.pending[1]).Success?
    ensures var o := ReauthCall(c, rule, url, appendAuth, params, username, password);
            var (u, t) := LoginOutcome(c.pending[1]).value;
            var firstUrl := FirstUrl(c, url, appendAuth).value;
            var retryUrl := if !appendAuth then firstUrl
                            else if rule == Corrected then AuthUrl(url, u, t)
                            else AuthUrl(BeforeFirstSlash(firstUrl), u, t);
            o.conn.userId == Some(u) && o.conn.token == Some(t) &&
            o.conn.sent == c.sent + [Request(firstUrl, params), LoginRequest(username, password), Request(retryUrl, params)] &&
            o.conn.pending == c.pending[3..] &&
            (c.pending[2].Response? ==> o.result == Success(c.pending[2]))
  {
    var c1 := Send(c, Request(FirstUrl(c, url, appendAuth).value, params)).0;
    assert c1.pending == c.pending[1..];
    var login := LoginCall(c1, username, password);
    assert login.conn.pending == c.pending[2..];
    assert c.pending[2..][1..] == c.pending[3..];
  }

  /** As the program is written, the retry of any authenticated vendor request after a 403 and a successful
      login goes to "https:/<userId>/<token>", not to the endpoint that was asked for. */
  lemma ReauthAsWrittenLosesEndpoint(c: Conn, endpoint: string, params: seq<(string, string)>, username: string, password: string)
    requires Authenticated(c)
    requires |c.pending| >= 3 && c.pending[0].Response? && c.pending[0].status == 403
    requires LoginOutcome(c.pending[1]).Success?
    ensures var o := ReauthCall(c, AsWritten, BaseUrl + endpoint, true, params, username, password);
            var (u, t) := LoginOutcome(c.pending[1]).value;
            o.conn.sent[|o.conn.sent| - 1] == Request("https:" + "/" + Text(u) + "/" + Text(t), params) &&
            o.conn.sent[|o.conn.sent| - 1] != Request(RetryUrl(BaseUrl + endpoint, u, t), params)
  {
    ReauthRetriesOnceAfter403(c, AsWritten, BaseUrl + endpoint, true, params, username, password);
    RetryUrlAsWrittenLosesEndpoint(endpoint, c.userId.value, c.token.value, LoginOutcome(c.pending[1]).value.0, LoginOutcome(c.pending[1]).value.1);
  }

  /** A failed re-login after a 403 surfaces as ApiError, whatever the login raised. */
  lemma ReauthLoginFailureIsApiError(c: Conn, rule: RetryRule, url: string, appendAuth: bool, params: seq<(string, string)>, username: string, password: string)
    requires FirstUrl(c, url, appendAuth).Success?
    requires |c.pending| >= 2 && c.pending[0].Response? && c.pending[0].status == 403
    requires LoginOutcome(c.pending[1]).Failure?
    ensures ReauthCall(c, rule, url, appendAuth, params, username, password).result == Failure(ApiError)
  {
    var c1 := Send(c, Request(FirstUrl(c, url, appendAuth).value, params)).0;
    assert c1.pending == c.pending[1..];
  }

  /** The retry helper sends one request, or three, never more; and only appends to the request log. */
  lemma ReauthSendsAtMostThree(c: Conn, rule: RetryRule, url: string, appendAuth: bool, params: seq<(string, string)>, username: string, password: string)
    ensures var o := ReauthCall(c, rule, url, appendAuth, params, username, password);
            |c.sent| <= |o.conn.sent| <= |c.sent| + 3 && o.conn.sent[..|c.sent|] == c.sent
  {
    var o := ReauthCall(c, rule, url, appendAuth, params, username, password);
    if FirstUrl(c, url, appendAuth).Success? {
      var c1 := Send(c, Request(FirstUrl(c, url, appendAuth).value, params)).0;
      assert c1.sent[..|c.sent|] == c.sent;
      var reply := NextReply(c.pending);
      if reply.Response? && reply.status == 403 {
        var login := LoginCall(c1, username, password);
        assert login.conn.sent[..|c.sent|] == c.sent;
        if login.result.Success? {
          var c2 := Send(login.conn, o.conn.sent[|o.conn.sent| - 1]).0;
          assert o.conn.sent == login.conn.sent + [o.conn.sent[|o.conn.sent| - 1]];
          assert o.conn.sent[..|c.sent|] == login.conn.sent[..|c.sent|];
        }
      }
    }
  }

  /** An unauthenticated client logs in before fetching trackers; once the guard passes, every failure is ApiError. */
  lemma TrackersCallGuardAndErrors(c: Conn, username: string, password: string)
    ensures !Authenticated(c) ==>
              |TrackersCall(c, username, password).conn.sent| > |c.sent| &&
              TrackersCall(c, username, password).conn.sent[|c.sent|] == LoginRequest(username, password)
    ensures Authenticated(c) && TrackersCall(c, username, password).result.Failure? ==>
              TrackersCall(c, username, password).result.error == ApiError
  {
    if !Authenticated(c) {
      var login := LoginCall(c, username, password);
      if login.result.Success? {
        var o := ReauthCall(login.conn, Corrected, TrackersUrl, true, [], username, password);
        ReauthSendsAtMostThree(login.conn, Corrected, TrackersUrl, true, [], username, password);
        assert o.conn.sent[..|login.conn.sent|] == login.conn.sent;
        assert o.conn.sent[|c.sent|] == o.conn.sent[..|login.conn.sent|][|c.sent|];
      }
    }
  }

  /** The locations request needs credentials (there is no login guard); when they are set, the first request
      carries them in the path and the ids in the query. */
  lemma LocationsCallRequest(c: Conn, trackerIds: seq<Json>, username: string, password: string)
    ensures !Authenticated(c) ==> LocationsCall(c, trackerIds, username, password) == Outcome(c, Failure(NotAuthenticatedError))
    ensures Authenticated(c) ==>
              var o := LocationsCall(c, trackerIds, username, password);
              |o.conn.sent| > |c.sent| &&
              o.conn.sent[|c.sent|] == Request(AuthUrl(LocationsUrl, c.userId.value, c.token.value) + "?" + TrackersQuery(IdTexts(trackerIds)), [])
  {
    if Authenticated(c) {
      var url := AuthUrl(LocationsUrl, c.userId.value, c.token.value) + "?" + TrackersQuery(IdTexts(trackerIds));
      var o := ReauthCall(c, Corrected, url, false, [], username, password);
      ReauthSendsAtMostThree(c, Corrected, url, false, [], username, password);
      var c1 := Send(c, Request(url, [])).0;
      assert c1.sent[|c.sent|] == Request(url, []);
      if o.conn.sent != c1.sent {
        var login := LoginCall(c1, username, password);
        assert login.conn.sent[..|c1.sent|] == c1.sent;
        if login.result.Success? {
          var retryUrl := url;
          assert o.conn.sent == login.conn.sent + [Request(retryUrl, [])];
          assert o.conn.sent[|c.sent|] == login.conn.sent[|c.sent|] == c1.sent[|c.sent|];
        }
      }
    }
  }

  /** Find mode hides every failure but a connection error behind a False result; Light and Alarm do not. */
  lemma FindModeRaisesOnlyConnectionErrors(c: Conn, start: bool, trackerId: string, username: string, password: string)
    requires Authenticated(c)
    ensures ModeCall(c, Find, start, trackerId, username, password).result.Failure? ==>
              ModeCall(c, Find, start, trackerId, username, password).result.error == ConnectionError
  {
  }

  /** A Light or Alarm command whose re-login fails raises ApiError, where Find returns False. */
  lemma ModeErrorHandlingDiffers(c: Conn, start: bool, trackerId: string, username: string, password: string)
    requires Authenticated(c)
    requires |c.pending| >= 2 && c.pending[0].Response? && c.pending[0].status == 403
    requires LoginOutcome(c.pending[1]).Failure?
    ensures ModeCall(c, Light, start, trackerId, username, password).result == Failure(ApiError)
    ensures ModeCall(c, Alarm, start, trackerId, username, password).result == Failure(ApiError)
    ensures ModeCall(c, Find, start, trackerId, username, password).result == Success(JBool(false))
  {
    ReauthLoginFailureIsApiError(c, Corrected, ModeRequestUrl(start), true, ModeRequestParams(Light, trackerId), username, password);
    ReauthLoginFailureIsApiError(c, Corrected, ModeRequestUrl(start), true, ModeRequestParams(Alarm, trackerId), username, password);
    ReauthLoginFailureIsApiError(c, Corrected, ModeRequestUrl(start), true, ModeRequestParams(Find, trackerId), username, password);
  }

  /** Once logged in, the activity call never raises: any failure yields the zero totals. */
  lemma ActivityCallNeverRaisesWhenLoggedIn(c: Conn, trackerId: string, startMs: int, endMs: int, username: string, password: string)
    requires Authenticated(c)
    ensures ActivityCall(c, trackerId, startMs, endMs, username, password).result.Success?
    ensures NextReply(c.pending).ClientFailure? ==> ActivityCall(c, trackerId, startMs, endMs, username, password).result == Success(ZeroTotals)
  {
  }

  // ---------------------------------------------------------------------------
  // The normalisation loops

  /** The tracker list of a parsed `listpetinvitee` reply, built item by item. */
  method CollectTrackers(v: Json) returns (r: Result<seq<Tracker>, Error>)
    ensures r == NormaliseTrackers(v)
  {
    if !v.JObject? {
      return Failure(TypeFault);
    }
    var trackers: seq<Tracker> := [];
    match GetOr(v.fields, "data", EmptyDict) {
    case JObject(fs) =>
      var i := 0;
      while i < |fs|
        invariant 0 <= i <= |fs|
        invariant TrackersFromDict(fs[..i]) == Success(trackers)
      {
        assert fs[..i + 1][..i] == fs[..i];
        var (key, item) := fs[i];
        if !item.JObject? {
          TrackersFromDictFailurePersists(fs, i + 1);
          return Failure(TypeFault);
        }
        var name := Get(item.fields, "name");
        var petId := Get(item.fields, "petId");
        if Truthy(name) && petId != JNull {
          trackers := trackers + [Tracker(name, petId, JStr(key))];
        }
        i := i + 1;
      }
      assert fs[..i] == fs;
    case JList(xs) =>
      var i := 0;
      while i < |xs|
        invariant 0 <= i <= |xs|
        invariant TrackersFromList(xs[..i]) == Success(trackers)
      {
        assert xs[..i + 1][..i] == xs[..i];
        var item := xs[i];
        if !item.JObject? {
          TrackersFromListFailurePersists(xs, i + 1);
          return Failure(TypeFault);
        }
        var trackerId := Get(item.fields, "tracker_id");
        if trackerId == JNull {
          trackerId := Get(item.fields, "id");
        }
        if trackerId == JNull {
          trackerId := Get(item.fields, "trackerId");
        }
        FirstNonNullOfThree(Get(item.fields, "tracker_id"), Get(item.fields, "id"), Get(item.fields, "trackerId"));
        var name := Get(item.fields, "name");
        var petId := Get(item.fields, "petId");
        if name != JNull && petId != JNull && trackerId != JNull {
          trackers := trackers + [Tracker(name, petId, trackerId)];
        }
        i := i + 1;
      }
      assert xs[..i] == xs;
    case _ =>
    }
    return Success(trackers);
  }

  /** The location snapshot of a parsed `getlocationcaches` reply, built item by item. */
  method CollectLocations(v: Json) returns (r: Result<Locations, Error>)
    ensures r == NormaliseLocations(v)
  {
    if !v.JObject? {
      return Failure(TypeFault);
    }
    var locations: Locations := map[];
    match GetOr(v.fields, "data", EmptyDict) {
    case JObject(fs) =>
      var i := 0;
      while i < |fs|
        invariant 0 <= i <= |fs|
        invariant LocationsFromDict(fs[..i]) == Success(locations)
      {
        LocationsFromDictPrefix(fs, i);
        var (key, loc) := fs[i];
        var record := LocationRecord(loc);
        if record.Failure? {
          LocationsFromDictFailurePersists(fs, i + 1);
          return Failure(record.error);
        }
        locations := locations[JStr(key) := record.value];
        i := i + 1;
      }
      assert fs[..i] == fs;
    case JList(xs) =>
      var i := 0;
      while i < |xs|
        invariant 0 <= i <= |xs|
        invariant LocationsFromList(xs[..i]) == Success(locations)
      {
        LocationsFromListPrefix(xs, i);
        var entry := LocationEntry(xs[i]);
        if entry.Failure? {
          LocationsFromListFailurePersists(xs, i + 1);
          return Failure(entry.error);
        }
        if entry.value.Some? {
          locations := locations[entry.value.value.0 := entry.value.value.1];
        }
        i := i + 1;
      }
      assert xs[..i] == xs;
    case _ =>
    }
    return Success(locations);
  }

  /** `_compile_daily_activity_stats`: the totals accumulated over the hours of every day, day by day. */
  method CompileDailyActivityStats(v: Json) returns (r: Result<ActivityTotals, Error>)
    ensures r == CompileActivity(v)
  {
    if !v.JObject? || !GetOr(v.fields, "data", EmptyDict).JObject? {
      return Failure(TypeFault);
    }
    var activities := DictItems(GetOr(GetOr(v.fields, "data", EmptyDict).fields, "activities", JList([])));
    if activities.None? {
      return Failure(TypeFault);
    }
    var days := activities.value;
    var totals := ZeroTotals;
    ghost var seen: seq<seq<Fields>> := [];
    var i := 0;
    while i < |days|
      invariant 0 <= i <= |days|
      invariant HourlyStatsOfDays(days[..i]) == Some(seen)
      invariant TotalsOf(Flatten(seen)) == Some(totals)
    {
      assert days[..i + 1][..i] == days[..i];
      var hourly := DictItems(GetOr(days[i], "hourlyStats", JList([])));
      if hourly.None? {
        HourlyStatsFailurePersists(days, i + 1);
        return Failure(TypeFault);
      }
      var next := AddHourlyStats(Flatten(seen), hourly.value, totals);
      if next.None? {
        ActivityDayFailure(v, days, i, seen, hourly.value);
        return Failure(TypeFault);
      }
      assert Flatten(seen + [hourly.value]) == Flatten(seen) + hourly.value by {
        assert (seen + [hourly.value])[..|seen|] == seen;
      }
      seen := seen + [hourly.value];
      totals := next.value;
      i := i + 1;
    }
    assert days[..i] == days;
    return Success(totals);
  }

  /** The inner loop of the compilation: one day's hourly stats added to the running totals, which are
      the totals of the hours `before` it. */
  method AddHourlyStats(ghost before: seq<Fields>, hours: seq<Fields>, totals0: ActivityTotals) returns (r: Option<ActivityTotals>)
    requires TotalsOf(before) == Some(totals0)
    ensures r == TotalsOf(before + hours)
  {
    var totals := totals0;
    assert before + hours[..0] == before;
    var j := 0;
    while j < |hours|
      invariant 0 <= j <= |hours|
      invariant TotalsOf(before + hours[..j]) == Some(totals)
    {
      TotalsOfStep(before, hours, j);
      var next := AddHour(totals, hours[j]);
      if next.None? {
        TotalsFailurePersists(before + hours, |before| + j + 1);
        return None;
      }
      totals := next.value;
      j := j + 1;
    }
    assert hours[..j] == hours;
    return Some(totals);
  }

  /** A malformed hour fails the whole compilation, whatever the later days hold. */
  lemma ActivityDayFailure(v: Json, days: seq<Fields>, i: nat, seen: seq<seq<Fields>>, hours: seq<Fields>)
    requires v.JObject? && GetOr(v.fields, "data", EmptyDict).JObject?
    requires DictItems(GetOr(GetOr(v.fields, "data", EmptyDict).fields, "activities", JList([]))) == Some(days)
    requires i < |days|
    requires HourlyStatsOfDays(days[..i]) == Some(seen)
    requires DictItems(GetOr(days[i], "hourlyStats", JList([]))) == Some(hours)
    requires TotalsOf(Flatten(seen) + hours).None?
    ensures CompileActivity(v) == Failure(TypeFault)
  {
    if HourlyStatsOfDays(days).Some? {
      var all := HourlyStatsOfDays(days).value;
      HourlyStatsPrefix(days, i + 1);
      assert days[..i + 1][..i] == days[..i];
      assert all[..i + 1] == seen + [hours];
      FlattenPrefix(all, i + 1);
      assert Flatten(all[..i + 1]) == Flatten(seen) + hours by {
        assert (seen + [hours])[..|seen|] == seen;
      }
      TotalsFailurePersists(Flatten(all), |Flatten(seen) + hours|);
    }
  }

  // ---------------------------------------------------------------------------
  // The client object

  /** The HTTP session: answers each request with the next reply of a script and logs the request. */
  class Session {
    var pending: seq<Reply>
    var sent: seq<Request>

    constructor (script: seq<Reply>)
      ensures pending == script && sent == []
    {
      pending := script;
      sent := [];
    }

    method Get(req: Request) returns (reply: Reply)
      modifies this
      ensures sent == old(sent) + [req]
      ensures reply == NextReply(old(pending)) && pending == LaterReplies(old(pending))
    {
      reply := NextReply(pending);
      pending := LaterReplies(pending);
      sent := sent + [req];
    }
  }

  /** `PawfitApiClient`: account credentials given at construction, the session, and the two fields the
      client updates, `_user_id` and `_token`. */
  class PawfitApiClient {
    const username: string
    const password: string
    const session: Session
    var userId: Option<Json>
    var token: Option<Json>

    constructor (username: string, password: string, session: Session)
      ensures this.username == username && this.password == password && this.session == session
      ensures userId == None && token == None
    {
      this.username := username;
      this.password := password;
      this.session := session;
      userId := None;
      token := None;
    }

    /** The snapshot the call functions speak about. */
    function Snapshot(): Conn
      reads this, session
    {
      Conn(userId, token, session.pending, session.sent)
    }

    /** `_append_auth_to_url` on the current credentials. */
    function AppendAuthToUrl(url: string): (r: Result<string, Error>)
      reads this
      ensures r.Failure? <==> userId.None? || token.None?
      ensures r.Success? ==> r.value == AuthUrl(url, userId.value, token.value)
    {
      AppendAuth(url, userId, token)
    }

    method Login() returns (r: Result<(Json, Json), Error>)
      modifies this, session
      ensures Outcome(Snapshot(), r) == LoginCall(old(Snapshot()), username, password)
    {
      var reply := session.Get(LoginRequest(username, password));
      r := LoginOutcome(reply);
      if r.Success? {
        token := Some(r.value.1);
        userId := Some(r.value.0);
      }
    }

    method LoginIfUnauthenticated() returns (r: Result<(), Error>)
      modifies this, session
      ensures Outcome(Snapshot(), r) == LoginIfNeeded(old(Snapshot()), username, password)
    {
      if userId.None? || token.None? {
        var login := Login();
        if login.Failure? {
          return Failure(login.error);
        }
      }
      return Success(());
    }

    method RequestWithReauth(url: string, appendAuth: bool, params: seq<(string, string)>) returns (r: Result<Reply, Error>)
      modifies this, session
      ensures Outcome(Snapshot(), r) == ReauthCall(old(Snapshot()), Corrected, url, appendAuth, params, username, password)
    {
      var firstUrl := url;
      if appendAuth {
        var authed := AppendAuthToUrl(url);
        if authed.Failure? {
          return Failure(authed.error);
        }
        firstUrl := authed.value;
      }
      var reply := session.Get(Request(firstUrl, params));
      if reply.ClientFailure? {
        return Failure(ConnectionError);
      }
      if reply.status == 403 {
        var login := Login();
        if login.Failure? {
          return Failure(ApiError);
        }
        userId := Some(login.value.0);
        token := Some(login.value.1);
        var retryUrl := firstUrl;
        if appendAuth {
          retryUrl := RetryTarget(Corrected, url, firstUrl, login.value.0, login.value.1);
        }
        reply := session.Get(Request(retryUrl, params));
        if reply.ClientFailure? {
          return Failure(ConnectionError);
        }
      }
      return Success(reply);
    }

    method GetTrackers() returns (r: Result<seq<Tracker>, Error>)
      modifies this, session
      ensures Outcome(Snapshot(), r) == TrackersCall(old(Snapshot()), username, password)
    {
      var guard := LoginIfUnauthenticated();
      if guard.Failure? {
        return Failure(guard.error);
      }
      var reply := RequestWithReauth(TrackersUrl, true, []);
      if reply.Failure? {
        return Failure(ApiError);
      }
      if reply.value.body.Unparsable? {
        return Failure(ApiError);
      }
      var trackers := CollectTrackers(reply.value.body.value);
      return AsApiError(trackers);
    }

    method GetLocations(trackerIds: seq<Json>) returns (r: Result<Locations, Error>)
      modifies this, session
      ensures Outcome(Snapshot(), r) == LocationsCall(old(Snapshot()), trackerIds, username, password)
    {
      var authed := AppendAuthToUrl(LocationsUrl);
      if authed.Failure? {
        return Failure(authed.error);
      }
      var url := authed.value + "?" + TrackersQuery(IdTexts(trackerIds));
      var reply := RequestWithReauth(url, false, []);
      if reply.Failure? {
        return Failure(ApiError);
      }
      if reply.value.body.Unparsable? {
        return Failure(ApiError);
      }
      var locations := CollectLocations(reply.value.body.value);
      return AsApiError(locations);
    }

    method GetDetailedStatus(trackerIds: seq<Json>) returns (r: Result<Json, Error>)
      modifies this, session
      ensures Outcome(Snapshot(), r) == DetailedStatusCall(old(Snapshot()), trackerIds, username, password)
    {
      var guard := LoginIfUnauthenticated();
      if guard.Failure? {
        return Failure(guard.error);
      }
      var reply;
      if trackerIds != [] {
        var authed := AppendAuthToUrl(LocationsUrl);
        if authed.Failure? {
          return Failure(ApiError);
        }
        reply := RequestWithReauth(authed.value + "?" + TrackersQuery(IdTexts(trackerIds)), false, []);
      } else {
        reply := RequestWithReauth(LocationsUrl, true, []);
      }
      if reply.Failure? {
        return Failure(ApiError);
      }
      return AsApiError(DetailedStatusOutcome(reply.value.body));
    }

    /** `async_start_*_mode` and `async_stop_*_mode`. */
    method ModeCommand(mode: Mode, start: bool, trackerId: string) returns (r: Result<Json, Error>)
      modifies this, session
      ensures Outcome(Snapshot(), r) == ModeCall(old(Snapshot()), mode, start, trackerId, username, password)
    {
      var guard := LoginIfUnauthenticated();
      if guard.Failure? {
        return Failure(guard.error);
      }
      var reply := RequestWithReauth(ModeRequestUrl(start), true, ModeRequestParams(mode, trackerId));
      if reply.Failure? {
        if mode == Find && reply.error != ConnectionError {
          return Success(JBool(false));
        }
        return Failure(reply.error);
      }
      return Success(ModeReplyOutcome(reply.value.status, reply.value.jsonContentType, reply.value.body));
    }

    /** `async_get_activity_stats`; the day's bounds, computed from the clock in the source, are parameters. */
    method GetActivityStats(trackerId: string, startMs: int, endMs: int) returns (r: Result<ActivityTotals, Error>)
      modifies this, session
      ensures Outcome(Snapshot(), r) == ActivityCall(old(Snapshot()), trackerId, startMs, endMs, username, password)
    {
      var guard := LoginIfUnauthenticated();
      if guard.Failure? {
        return Failure(guard.error);
      }
      var reply := RequestWithReauth(ActivityUrl, true, ActivityParams(trackerId, startMs, endMs));
      if reply.Failure? || reply.value.status != 200 || reply.value.body.Unparsable? {
        return Success(ZeroTotals);
      }
      var totals := CompileDailyActivityStats(reply.value.body.value);
      if totals.Failure? {
        return Success(ZeroTotals);
      }
      return Success(totals.value);
    }
  }
}
