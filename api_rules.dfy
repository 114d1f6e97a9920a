/**
 * The I/O-free rules of the vendor API client (custom_components/pawfit/pawfit_api.py):
 * URL authentication, login classification, the retry URL, normalisation of the tracker
 * and location responses, classification of status and mode-command replies, and the
 * daily activity totals. Server replies are abstract parsed values.
 */
module ApiRules {
  import opened Wrappers
  import opened PyJson

  /** The integration's exception classes, plus TypeFault for a builtin TypeError,
      ValueError or AttributeError raised while reading a malformed reply. */
  datatype Error =
    | AuthenticationError
    | ApiError
    | ConnectionError
    | InvalidResponseError
    | NotAuthenticatedError
    | TypeFault

  /** The vendor endpoint root; the constants module is not part of this model, the value is the one hard-coded in decode.py. */
  const BaseUrl := "https://pawfitapi.latsen.com/api/v1/"

  /** What the server sent back: a transport failure (aiohttp.ClientError) or a response whose body
      did or did not parse as JSON. `jsonContentType` is whether the reply declared application/json. */
  datatype Body = Parsed(value: Json) | Unparsable
  datatype Reply = ClientFailure | Response(status: int, jsonContentType: bool, body: Body)

  /** One GET request: the URL and its query parameters. */
  datatype Request = Request(url: string, params: seq<(string, string)>)

  // ---------------------------------------------------------------------------
  // URL authentication

  predicate EndsWithSlash(url: string)
  {
    |url| > 0 && url[|url| - 1] == '/'
  }

  /** The URL with at most one trailing "/" removed. */
  function TrimOneSlash(url: string): (r: string)
    ensures EndsWithSlash(url) ==> url == r + "/"
    ensures !EndsWithSlash(url) ==> r == url
  {
    if EndsWithSlash(url) then url[..|url| - 1] else url
  }

  /** The URL with the credentials appended as two path segments. */
  function AuthUrl(url: string, userId: Json, token: Json): (r: string)
    ensures |r| == |TrimOneSlash(url)| + 2 + |Text(userId)| + |Text(token)|
    ensures r[..|TrimOneSlash(url)|] == TrimOneSlash(url)
    ensures r[|TrimOneSlash(url)|..] == "/" + Text(userId) + "/" + Text(token)
  {
    TrimOneSlash(url) + "/" + Text(userId) + "/" + Text(token)
  }

  /** `_append_auth_to_url`: fails when either credential is unset. */
  function AppendAuth(url: string, userId: Option<Json>, token: Option<Json>): (r: Result<string, Error>)
    ensures r.Failure? <==> userId.None? || token.None?
    ensures r.Failure? ==> r.error == NotAuthenticatedError
    ensures r.Success? ==> r.value == AuthUrl(url, userId.value, token.value)
  {
    if userId.None? || token.None? then Failure(NotAuthenticatedError)
    else Success(AuthUrl(url, userId.value, token.value))
  }

  /** A trailing slash on the URL makes no difference. */
  lemma AppendAuthIgnoresTrailingSlash(url: string, userId: Option<Json>, token: Option<Json>)
    requires !EndsWithSlash(url)
    ensures AppendAuth(url + "/", userId, token) == AppendAuth(url, userId, token)
  {
    assert (url + "/")[..|url|] == url;
  }

  /** Only one trailing slash is removed: "x//" keeps one of them. */
  lemma AppendAuthRemovesOnlyOneSlash(url: string, u: Json, t: Json)
    ensures AuthUrl(url + "//", u, t) == url + "/" + "/" + Text(u) + "/" + Text(t)
  {
    assert (url + "//")[..|url| + 1] == url + "/";
  }

  /** The examples pinned by the test suite. */
  lemma AppendAuthExamples()
    ensures AppendAuth("http://example.com/api", Some(JStr("test_user_123")), Some(JStr("test_session_456")))
         == Success("http://example.com/api/test_user_123/test_session_456")
    ensures AppendAuth("http://example.com/api/", Some(JStr("test_user_123")), Some(JStr("test_session_456")))
         == Success("http://example.com/api/test_user_123/test_session_456")
    ensures AppendAuth("http://example.com/api", None, Some(JStr("t"))) == Failure(NotAuthenticatedError)
  {
    var url := "http://example.com/api";
    assert !EndsWithSlash(url);
    assert TrimOneSlash(url) == url;
    assert url + "/" + "test_user_123" + "/" + "test_session_456" == "http://example.com/api/test_user_123/test_session_456";
    assert url + "/" == "http://example.com/api/";
    AppendAuthIgnoresTrailingSlash(url, Some(JStr("test_user_123")), Some(JStr("test_session_456")));
  }

  // ---------------------------------------------------------------------------
  // Login

  const LoginUrl := BaseUrl + "login/1/1"

  function LoginRequest(username: string, password: string): Request
  {
    Request(LoginUrl, [("user", username), ("pwd", password)])
  }

  /** `async_login` without its effects: the userId and sessionId pair, or the exception raised. */
  function LoginOutcome(reply: Reply): (r: Result<(Json, Json), Error>)
    ensures reply.ClientFailure? ==> r == Failure(ConnectionError)
    ensures reply.Response? && reply.status != 200 ==> r == Failure(AuthenticationError)
    ensures reply.Response? && reply.status == 200 && reply.body.Unparsable? ==> r == Failure(InvalidResponseError)
    ensures r.Success? ==> Truthy(r.value.0) && Truthy(r.value.1)
  {
    match reply
    case ClientFailure => Failure(ConnectionError)
    case Response(status, _, body) =>
      if status != 200 then Failure(AuthenticationError)
      else match body
        case Unparsable => Failure(InvalidResponseError)
        case Parsed(v) =>
          if !v.JObject? then Failure(TypeFault)
          else
            var df := GetOr(v.fields, "data", EmptyDict);
            if !df.JObject? then Failure(TypeFault)
            else
              var userId := Get(df.fields, "userId");
              var sessionId := Get(df.fields, "sessionId");
              if !Truthy(userId) || !Truthy(sessionId) then Failure(AuthenticationError)
              else Success((userId, sessionId))
  }

  /** Login succeeds exactly for a 200 reply whose `data` dict holds a truthy userId and sessionId,
      and then returns exactly that pair. */
  lemma LoginSucceedsIff(reply: Reply)
    ensures LoginOutcome(reply).Success? <==>
      reply.Response? && reply.status == 200 && reply.body.Parsed? && reply.body.value.JObject? &&
      GetOr(reply.body.value.fields, "data", EmptyDict).JObject? &&
      Truthy(Get(GetOr(reply.body.value.fields, "data", EmptyDict).fields, "userId")) &&
      Truthy(Get(GetOr(reply.body.value.fields, "data", EmptyDict).fields, "sessionId"))
    ensures LoginOutcome(reply).Success? ==>
      var df := GetOr(reply.body.value.fields, "data", EmptyDict);
      LoginOutcome(reply).value == (Get(df.fields, "userId"), Get(df.fields, "sessionId"))
  {
  }

  /** A reply whose data lacks the userId (or holds an empty one) is an authentication failure. */
  lemma LoginMissingUserIdFails(sessionId: Json, extra: Fields)
    ensures LoginOutcome(Response(200, true, Parsed(JObject([("data", JObject([("sessionId", sessionId)]))] + extra))))
         == Failure(AuthenticationError)
    ensures LoginOutcome(Response(200, true, Parsed(JObject([("data", JObject([("userId", JStr("")), ("sessionId", sessionId)]))]))))
         == Failure(AuthenticationError)
  {
    var d := JObject([("sessionId", sessionId)]);
    assert Lookup([("sessionId", sessionId)], "userId") == None;
    assert Lookup([("data", d)] + extra, "data") == Some(d);
  }

  // ---------------------------------------------------------------------------
  // The retry after a 403

  /** `url.split("/", 1)[0] if "/" in url else url`: the text before the first slash. */
  function BeforeFirstSlash(url: string): (r: string)
    ensures |r| <= |url| && r == url[..|r|]
    ensures forall k :: 0 <= k < |r| ==> r[k] != '/'
    ensures |r| < |url| ==> url[|r|] == '/'
  {
    if url == [] || url[0] == '/' then [] else [url[0]] + BeforeFirstSlash(url[1..])
  }

  /** The URL of the retry as written at pawfit_api.py:162-163: the authenticated URL cut at its first slash,
      with the new credentials appended. */
  function RetryUrlAsWritten(authedUrl: string, newUserId: Json, newToken: Json): string
  {
    AuthUrl(BeforeFirstSlash(authedUrl), newUserId, newToken)
  }

  /** The retry URL the comment "Rebuild URL with new authentication" asks for: the request's own URL
      authenticated with the new credentials, exactly what a fresh call after login would send. */
  function RetryUrl(url: string, newUserId: Json, newToken: Json): (r: string)
    ensures AppendAuth(url, Some(newUserId), Some(newToken)) == Success(r)
    ensures TrimOneSlash(url) <= r
  {
    AuthUrl(url, newUserId, newToken)
  }

  /** Which retry URL the 403 path sends: the program's (pawfit_api.py:162-163) or the corrected one. */
  datatype RetryRule = AsWritten | Corrected

  /** The retry URL under a rule, for the request URL `url` that was first sent as `firstUrl`. */
  function RetryTarget(rule: RetryRule, url: string, firstUrl: string, newUserId: Json, newToken: Json): (r: string)
    ensures rule == Corrected ==> AppendAuth(url, Some(newUserId), Some(newToken)) == Success(r)
    ensures rule == AsWritten ==> r == AuthUrl(BeforeFirstSlash(firstUrl), newUserId, newToken)
  {
    match rule
    case AsWritten => RetryUrlAsWritten(firstUrl, newUserId, newToken)
    case Corrected => RetryUrl(url, newUserId, newToken)
  }

  /** The text before the first slash is everything up to the slash at `n` when none comes earlier. */
  lemma {:induction false} BeforeFirstSlashAt(url: string, n: nat)
    requires n < |url| && url[n] == '/'
    requires forall k :: 0 <= k < n ==> url[k] != '/'
    ensures BeforeFirstSlash(url) == url[..n]
  {
    if n > 0 {
      BeforeFirstSlashAt(url[1..], n - 1);
      assert [url[0]] + url[1..][..n - 1] == url[..n];
    }
  }

  /** For every vendor endpoint the as-written retry goes to "https:/<user>/<token>", losing host and path;
      the corrected retry keeps them. */
  lemma RetryUrlAsWrittenLosesEndpoint(endpoint: string, oldUser: Json, oldToken: Json, newUser: Json, newToken: Json)
    ensures RetryUrlAsWritten(AuthUrl(BaseUrl + endpoint, oldUser, oldToken), newUser, newToken)
         == "https:" + "/" + Text(newUser) + "/" + Text(newToken)
    ensures RetryUrlAsWritten(AuthUrl(BaseUrl + endpoint, oldUser, oldToken), newUser, newToken)
         != RetryUrl(BaseUrl + endpoint, newUser, newToken)
  {
    var authed := AuthUrl(BaseUrl + endpoint, oldUser, oldToken);
    AuthedVendorUrlScheme(endpoint, oldUser, oldToken);
    BeforeFirstSlashAt(authed, 6);
    assert authed[..6] == "https:";
    assert TrimOneSlash("https:") == "https:";
    assert |RetryUrl(BaseUrl + endpoint, newUser, newToken)| >= |BaseUrl| + 1 + |Text(newUser)| + |Text(newToken)|;
  }

  /** An authenticated vendor URL starts with "https:/", whose first slash is at index 6. */
  lemma AuthedVendorUrlScheme(endpoint: string, u: Json, t: Json)
    ensures |AuthUrl(BaseUrl + endpoint, u, t)| > 7
    ensures AuthUrl(BaseUrl + endpoint, u, t)[6] == '/'
    ensures forall k :: 0 <= k < 6 ==> AuthUrl(BaseUrl + endpoint, u, t)[k] == "https:"[k]
  {
    var url := BaseUrl + endpoint;
    var trimmed := TrimOneSlash(url);
    assert |trimmed| >= |BaseUrl| - 1;
    assert trimmed[..7] == url[..7] == "https:/";
    var authed := AuthUrl(url, u, t);
    assert authed[..7] == trimmed[..7];
    assert forall k :: 0 <= k < 7 ==> authed[k] == authed[..7][k] == "https:/"[k];
  }

  // ---------------------------------------------------------------------------
  // Tracker list normalisation

  /** A tracker descriptor: name, petId and tracker_id as the reply gave them. */
  datatype Tracker = Tracker(name: Json, petId: Json, trackerId: Json)

  /** The first candidate that is not None (None when all are). */
  function FirstNonNull(candidates: seq<Json>): (r: Json)
    ensures r == JNull <==> forall k :: 0 <= k < |candidates| ==> candidates[k] == JNull
    ensures r != JNull ==> r in candidates
  {
    if candidates == [] then JNull
    else if candidates[0] != JNull then candidates[0]
    else FirstNonNull(candidates[1..])
  }

  /** The candidate chosen is the earliest non-None one: every candidate before it is None. */
  lemma {:induction false} FirstNonNullIsFirst(candidates: seq<Json>, k: nat)
    requires k < |candidates| && candidates[k] != JNull
    requires forall j :: 0 <= j < k ==> candidates[j] == JNull
    ensures FirstNonNull(candidates) == candidates[k]
  {
    if k > 0 {
      FirstNonNullIsFirst(candidates[1..], k - 1);
    }
  }

  /** The fallback chain of three keys: the first, else the second, else the third. */
  lemma FirstNonNullOfThree(a: Json, b: Json, c: Json)
    ensures FirstNonNull([a, b, c]) == if a != JNull then a else if b != JNull then b else c
  {
    assert [a, b, c][1..] == [b, c];
    assert [b, c][1..] == [c];
    assert [c][1..] == [];
    assert FirstNonNull([c]) == c;
    assert FirstNonNull([b, c]) == if b != JNull then b else c;
  }

  /** One `(tracker_id, item)` pair of a dict-shaped reply: kept when the name is truthy and petId is not None. */
  function DictTracker(key: string, item: Json): (r: Result<Option<Tracker>, Error>)
    ensures r.Failure? <==> !item.JObject?
    ensures r.Success? && r.value.Some? ==>
      var t := r.value.value; Truthy(t.name) && t.petId != JNull && t.trackerId == JStr(key)
  {
    if !item.JObject? then Failure(TypeFault)
    else
      var name := Get(item.fields, "name");
      var petId := Get(item.fields, "petId");
      if Truthy(name) && petId != JNull then Success(Some(Tracker(name, petId, JStr(key)))) else Success(None)
  }

  /** The tracker id of a list item: `tracker_id`, else `id`, else `trackerId`. */
  function ListTrackerId(item: Fields): Json
  {
    FirstNonNull([Get(item, "tracker_id"), Get(item, "id"), Get(item, "trackerId")])
  }

  /** One item of a list-shaped reply: kept when name, petId and the id are all not None. */
  function ListTracker(item: Json): (r: Result<Option<Tracker>, Error>)
    ensures r.Failure? <==> !item.JObject?
    ensures r.Success? && r.value.Some? ==>
      var t := r.value.value; t.name != JNull && t.petId != JNull && t.trackerId != JNull
  {
    if !item.JObject? then Failure(TypeFault)
    else
      var name := Get(item.fields, "name");
      var petId := Get(item.fields, "petId");
      var trackerId := ListTrackerId(item.fields);
      if name != JNull && petId != JNull && trackerId != JNull then Success(Some(Tracker(name, petId, trackerId)))
      else Success(None)
  }

  /** The indices of the items `keep` selects, in increasing order. */
  function Kept<T>(xs: seq<T>, keep: T -> bool): (r: seq<nat>)
    ensures forall k :: 0 <= k < |r| ==> r[k] < |xs| && keep(xs[r[k]])
    ensures forall k, l :: 0 <= k < l < |r| ==> r[k] < r[l]
    ensures forall i :: 0 <= i < |xs| && keep(xs[i]) ==> i in r
  {
    if xs == [] then []
    else
      var init := xs[..|xs| - 1];
      assert forall i :: 0 <= i < |init| ==> init[i] == xs[i];
      Kept(init, keep) + if keep(xs[|xs| - 1]) then [|xs| - 1] else []
  }

  /** A dict-shaped item the source keeps: a dict with a truthy name and a petId that is not None. */
  predicate DictKeeps(entry: (string, Json))
  {
    entry.1.JObject? && Truthy(Get(entry.1.fields, "name")) && Get(entry.1.fields, "petId") != JNull
  }

  /** The record of a kept dict-shaped item: its name, its petId and its key. */
  function DictRecord(entry: (string, Json)): Tracker
    requires entry.1.JObject?
  {
    Tracker(Get(entry.1.fields, "name"), Get(entry.1.fields, "petId"), JStr(entry.0))
  }

  /** A list-shaped item the source keeps: a dict whose name, petId and id are all not None. */
  predicate ListKeeps(item: Json)
  {
    item.JObject? && Get(item.fields, "name") != JNull && Get(item.fields, "petId") != JNull && ListTrackerId(item.fields) != JNull
  }

  /** The record of a kept list-shaped item. */
  function ListRecord(item: Json): Tracker
    requires item.JObject?
  {
    Tracker(Get(item.fields, "name"), Get(item.fields, "petId"), ListTrackerId(item.fields))
  }

  /** Appends the outcome of one item to the trackers collected so far. */
  function AddTracker(acc: Result<seq<Tracker>, Error>, step: Result<Option<Tracker>, Error>): Result<seq<Tracker>, Error>
  {
    if acc.Failure? then acc
    else if step.Failure? then Failure(step.error)
    else if step.value.Some? then Success(acc.value + [step.value.value])
    else acc
  }

  /** The trackers of a dict-shaped reply, in key order. */
  function TrackersFromDict(fs: Fields): Result<seq<Tracker>, Error>
  {
    if fs == [] then Success([])
    else AddTracker(TrackersFromDict(fs[..|fs| - 1]), DictTracker(fs[|fs| - 1].0, fs[|fs| - 1].1))
  }

  /** The trackers of a list-shaped reply, in list order. */
  function TrackersFromList(xs: seq<Json>): Result<seq<Tracker>, Error>
  {
    if xs == [] then Success([])
    else AddTracker(TrackersFromList(xs[..|xs| - 1]), ListTracker(xs[|xs| - 1]))
  }

  /** The tracker list of a parsed `listpetinvitee` reply: its `data` field read as a dict or a list;
      any other shape gives no trackers. */
  function NormaliseTrackers(v: Json): Result<seq<Tracker>, Error>
  {
    if !v.JObject? then Failure(TypeFault)
    else match GetOr(v.fields, "data", EmptyDict)
      case JObject(fs) => TrackersFromDict(fs)
      case JList(xs) => TrackersFromList(xs)
      case _ => Success([])
  }

  /** Dict shape: fails exactly when some item is not a dict; otherwise the records are exactly those of the
      kept items, one per kept item and in key order, each carrying its item's name and petId and its key. */
  lemma {:induction false} TrackersFromDictSound(fs: Fields)
    ensures TrackersFromDict(fs).Failure? <==> exists i :: 0 <= i < |fs| && !fs[i].1.JObject?
    ensures TrackersFromDict(fs).Success? ==>
      var ts := TrackersFromDict(fs).value;
      |ts| <= |fs| &&
      forall t :: t in ts ==> Truthy(t.name) && t.petId != JNull && exists i :: 0 <= i < |fs| && t.trackerId == JStr(fs[i].0)
    ensures TrackersFromDict(fs).Success? ==>
      var ts := TrackersFromDict(fs).value;
      var idx := Kept(fs, DictKeeps);
      |ts| == |idx| && forall k :: 0 <= k < |ts| ==> DictKeeps(fs[idx[k]]) && ts[k] == DictRecord(fs[idx[k]])
  {
    TrackersFromDictRecords(fs);
    if fs != [] {
      var init := fs[..|fs| - 1];
      TrackersFromDictSound(init);
      assert forall i :: 0 <= i < |init| ==> init[i] == fs[i];
    }
  }

  /** The dict shape's records, item by item: the k-th record is that of the k-th kept item. */
  lemma {:induction false} TrackersFromDictRecords(fs: Fields)
    ensures TrackersFromDict(fs).Success? ==>
      var ts := TrackersFromDict(fs).value;
      var idx := Kept(fs, DictKeeps);
      |ts| == |idx| && forall k :: 0 <= k < |ts| ==> DictKeeps(fs[idx[k]]) && ts[k] == DictRecord(fs[idx[k]])
  {
    if fs != [] {
      var init := fs[..|fs| - 1];
      TrackersFromDictRecords(init);
      assert forall i :: 0 <= i < |init| ==> init[i] == fs[i];
      var acc := TrackersFromDict(init);
      var step := DictTracker(fs[|fs| - 1].0, fs[|fs| - 1].1);
      if acc.Success? && step.Success? {
        var idx0 := Kept(init, DictKeeps);
        var ts := TrackersFromDict(fs).value;
        assert Kept(fs, DictKeeps) == idx0 + if DictKeeps(fs[|fs| - 1]) then [|fs| - 1] else [];
        assert forall k :: 0 <= k < |idx0| ==> ts[k] == acc.value[k] && fs[idx0[k]] == init[idx0[k]];
      }
    }
  }

  /** Dict shape: every key whose item has a truthy name and a non-None petId gives its record. */
  lemma {:induction false} TrackersFromDictComplete(fs: Fields, i: nat)
    requires i < |fs| && TrackersFromDict(fs).Success?
    requires fs[i].1.JObject? && Truthy(Get(fs[i].1.fields, "name")) && Get(fs[i].1.fields, "petId") != JNull
    ensures Tracker(Get(fs[i].1.fields, "name"), Get(fs[i].1.fields, "petId"), JStr(fs[i].0)) in TrackersFromDict(fs).value
  {
    var init := fs[..|fs| - 1];
    if i < |fs| - 1 {
      assert init[i] == fs[i];
      TrackersFromDictComplete(init, i);
    }
  }

  /** Adding an item never changes the records already collected: the output keeps the input's order. */
  lemma TrackersFromDictExtends(fs: Fields, key: string, item: Json)
    requires TrackersFromDict(fs + [(key, item)]).Success?
    ensures TrackersFromDict(fs).Success?
    ensures TrackersFromDict(fs + [(key, item)]).value == TrackersFromDict(fs).value ||
            TrackersFromDict(fs + [(key, item)]).value == TrackersFromDict(fs).value + [TrackersFromDict(fs + [(key, item)]).value[|TrackersFromDict(fs).value|]]
  {
    assert (fs + [(key, item)])[..|fs|] == fs;
  }

  /** List shape: fails exactly when some item is not a dict; otherwise the records are exactly those of the
      kept items, one per kept item and in list order, each built from its item. */
  lemma {:induction false} TrackersFromListSound(xs: seq<Json>)
    ensures TrackersFromList(xs).Failure? <==> exists i :: 0 <= i < |xs| && !xs[i].JObject?
    ensures TrackersFromList(xs).Success? ==>
      var ts := TrackersFromList(xs).value;
      |ts| <= |xs| && forall t :: t in ts ==> t.name != JNull && t.petId != JNull && t.trackerId != JNull
    ensures TrackersFromList(xs).Success? ==>
      var ts := TrackersFromList(xs).value;
      var idx := Kept(xs, ListKeeps);
      |ts| == |idx| && forall k :: 0 <= k < |ts| ==> ListKeeps(xs[idx[k]]) && ts[k] == ListRecord(xs[idx[k]])
  {
    if xs != [] {
      var init := xs[..|xs| - 1];
      TrackersFromListSound(init);
      assert forall i :: 0 <= i < |init| ==> init[i] == xs[i];
      var step := ListTracker(xs[|xs| - 1]);
      var acc := TrackersFromList(init);
      if acc.Success? && step.Success? {
        if step.value.Some? {
          assert TrackersFromList(xs).value == acc.value + [step.value.value];
        }
        var idx0 := Kept(init, ListKeeps);
        var ts := TrackersFromList(xs).value;
        assert Kept(xs, ListKeeps) == idx0 + if ListKeeps(xs[|xs| - 1]) then [|xs| - 1] else [];
        assert forall k :: 0 <= k < |idx0| ==> ts[k] == acc.value[k] && xs[idx0[k]] == init[idx0[k]];
      }
    }
  }

  /** List shape: every item whose name, petId and id are all not None gives its record. */
  lemma TrackersFromListComplete(xs: seq<Json>, i: nat)
    requires i < |xs| && TrackersFromList(xs).Success? && ListKeeps(xs[i])
    ensures ListRecord(xs[i]) in TrackersFromList(xs).value
  {
    TrackersFromListSound(xs);
    var idx := Kept(xs, ListKeeps);
    var k :| 0 <= k < |idx| && idx[k] == i;
    assert TrackersFromList(xs).value[k] == ListRecord(xs[i]);
  }

  /** Once a prefix of a dict-shaped reply fails, the whole reply fails with the same error. */
  lemma {:induction false} TrackersFromDictFailurePersists(fs: Fields, n: nat)
    requires n <= |fs| && TrackersFromDict(fs[..n]).Failure?
    ensures TrackersFromDict(fs) == TrackersFromDict(fs[..n])
    decreases |fs| - n
  {
    if n < |fs| {
      var init := fs[..|fs| - 1];
      assert init[..n] == fs[..n];
      TrackersFromDictFailurePersists(init, n);
    } else {
      assert fs[..n] == fs;
    }
  }

  /** Once a prefix of a list-shaped reply fails, the whole reply fails with the same error. */
  lemma {:induction false} TrackersFromListFailurePersists(xs: seq<Json>, n: nat)
    requires n <= |xs| && TrackersFromList(xs[..n]).Failure?
    ensures TrackersFromList(xs) == TrackersFromList(xs[..n])
    decreases |xs| - n
  {
    if n < |xs| {
      var init := xs[..|xs| - 1];
      assert init[..n] == xs[..n];
      TrackersFromListFailurePersists(init, n);
    } else {
      assert xs[..n] == xs;
    }
  }

  /** The list shape keeps an item with a falsy but non-None name (the dict shape would drop it). */
  lemma ListShapeKeepsEmptyName(petId: Json, id: Json)
    requires petId != JNull && id != JNull
    ensures TrackersFromList([JObject([("name", JStr("")), ("petId", petId), ("id", id)])]) == Success([Tracker(JStr(""), petId, id)])
    ensures TrackersFromDict([("k", JObject([("name", JStr("")), ("petId", petId)]))]) == Success([])
  {
    var item := [("name", JStr("")), ("petId", petId), ("id", id)];
    LookupMeaning(item, "tracker_id");
    LookupMeaning(item, "trackerId");
    LookupFirst(item, 2);
    FirstNonNullIsFirst([JNull, id, JNull], 1);
    LookupFirst(item, 0);
    LookupFirst(item, 1);
    assert ListTracker(JObject(item)) == Success(Some(Tracker(JStr(""), petId, id)));
    assert ([JObject(item)])[..0] == [];
    assert TrackersFromList([JObject(item)]) == AddTracker(TrackersFromList([]), ListTracker(JObject(item)));
    var t := Tracker(JStr(""), petId, id);
    assert [] + [t] == [t];
    assert AddTracker(Success([]), Success(Some(t))) == Success([t]);
    var ditem := [("name", JStr("")), ("petId", petId)];
    assert Get(ditem, "name") == JStr("");
    assert DictTracker("k", JObject(ditem)) == Success(None);
    assert ([("k", JObject(ditem))])[..0] == [];
    assert TrackersFromDict([("k", JObject(ditem))]) == AddTracker(TrackersFromDict([]), DictTracker("k", JObject(ditem)));
  }

  /** Any `data` that is neither a dict nor a list gives no trackers. */
  lemma OtherShapeGivesNoTrackers(v: Json)
    requires v.JObject?
    requires var df := GetOr(v.fields, "data", EmptyDict); !df.JObject? && !df.JList?
    ensures NormaliseTrackers(v) == Success([])
  {
  }

  // ---------------------------------------------------------------------------
  // Location snapshot normalisation

  /** The coordinator's data: one record (a dict) per tracker id. */
  type Locations = map<Json, Fields>

  /** The record built from one location item (pawfit_api.py:288-304): coordinates from `state.location`,
      last_update, battery and signal from `state`, and the item itself under `_raw`. */
  function LocationRecord(loc: Json): (r: Result<Fields, Error>)
    ensures r.Success? ==> loc.JObject? && |r.value| == 7 && r.value[6] == ("_raw", loc)
  {
    if !loc.JObject? then Failure(TypeFault)
    else
      var state := GetOr(loc.fields, "state", EmptyDict);
      if !state.JObject? then Failure(TypeFault)
      else
        var location := GetOr(state.fields, "location", EmptyDict);
        if !location.JObject? then Failure(TypeFault)
        else Success([
          ("latitude", Get(location.fields, "latitude")),
          ("longitude", Get(location.fields, "longitude")),
          ("accuracy", Get(location.fields, "accuracy")),
          ("last_update", Get(state.fields, "utcDateTime")),
          ("battery", Get(state.fields, "power")),
          ("signal", Get(state.fields, "signal")),
          ("_raw", loc)])
  }

  /** Where each field of a location record comes from: coordinates and accuracy from `state.location`,
      last update, battery and signal from `state`; building it fails exactly when the item, its `state` or
      its `state.location` is not a dict. */
  lemma LocationRecordFields(loc: Json)
    ensures LocationRecord(loc).Failure? <==>
              !loc.JObject? || !GetOr(loc.fields, "state", EmptyDict).JObject? ||
              !GetOr(GetOr(loc.fields, "state", EmptyDict).fields, "location", EmptyDict).JObject?
    ensures LocationRecord(loc).Success? ==>
              var r := LocationRecord(loc).value;
              var state := GetOr(loc.fields, "state", EmptyDict).fields;
              var location := GetOr(state, "location", EmptyDict).fields;
              Get(r, "latitude") == Get(location, "latitude") && Get(r, "longitude") == Get(location, "longitude") &&
              Get(r, "accuracy") == Get(location, "accuracy") && Get(r, "last_update") == Get(state, "utcDateTime") &&
              Get(r, "battery") == Get(state, "power") && Get(r, "signal") == Get(state, "signal")
  {
    if LocationRecord(loc).Success? {
      var r := LocationRecord(loc).value;
      LookupFirst(r, 0);
      LookupFirst(r, 1);
      LookupFirst(r, 2);
      LookupFirst(r, 3);
      LookupFirst(r, 4);
      LookupFirst(r, 5);
    }
  }

  /** Whether Python can use the value as a dict key (lists and dicts cannot). */
  predicate Hashable(j: Json)
  {
    !j.JList? && !j.JObject?
  }

  /** The tracker id of a location list item: `tracker`, else `tracker_id`, else `id`, else `trackerId`. */
  function LocationTrackerId(loc: Fields): Json
  {
    FirstNonNull([Get(loc, "tracker"), Get(loc, "tracker_id"), Get(loc, "id"), Get(loc, "trackerId")])
  }

  /** The locations of a dict-shaped reply: every key gets a record. */
  function LocationsFromDict(fs: Fields): Result<Locations, Error>
  {
    if fs == [] then Success(map[])
    else
      var acc := LocationsFromDict(fs[..|fs| - 1]);
      var (key, loc) := fs[|fs| - 1];
      var rec := LocationRecord(loc);
      if acc.Failure? then acc
      else if rec.Failure? then Failure(rec.error)
      else Success(acc.value[JStr(key) := rec.value])
  }

  /** The locations of a list-shaped reply: items without an id are skipped, a later item overwrites an earlier one. */
  function LocationsFromList(xs: seq<Json>): Result<Locations, Error>
  {
    if xs == [] then Success(map[])
    else
      var acc := LocationsFromList(xs[..|xs| - 1]);
      var entry := LocationEntry(xs[|xs| - 1]);
      if acc.Failure? then acc
      else if entry.Failure? then Failure(entry.error)
      else if entry.value.None? then acc
      else Success(acc.value[entry.value.value.0 := entry.value.value.1])
  }

  /** One item of a list-shaped locations reply: its id and record, nothing when it has no id. */
  function LocationEntry(loc: Json): (r: Result<Option<(Json, Fields)>, Error>)
  {
    if !loc.JObject? then Failure(TypeFault)
    else
      var trackerId := LocationTrackerId(loc.fields);
      var rec := LocationRecord(loc);
      if rec.Failure? then Failure(rec.error)
      else if trackerId == JNull then Success(None)
      else if !Hashable(trackerId) then Failure(TypeFault)
      else Success(Some((trackerId, rec.value)))
  }

  /** A list item that yields an entry is a dict with a record, and the entry is its id (never None) and its record. */
  lemma LocationEntryMeaning(loc: Json)
    requires LocationEntry(loc).Success?
    ensures loc.JObject? && LocationRecord(loc).Success?
    ensures LocationEntry(loc).value.None? <==> LocationTrackerId(loc.fields) == JNull
    ensures LocationEntry(loc).value.Some? ==>
              LocationEntry(loc).value.value == (LocationTrackerId(loc.fields), LocationRecord(loc).value)
  {
  }

  /** The locations of a parsed `getlocationcaches` reply. */
  function NormaliseLocations(v: Json): Result<Locations, Error>
  {
    if !v.JObject? then Failure(TypeFault)
    else match GetOr(v.fields, "data", EmptyDict)
      case JObject(fs) => LocationsFromDict(fs)
      case JList(xs) => LocationsFromList(xs)
      case _ => Success(map[])
  }

  /** The dict-shaped fold over the first `i + 1` pairs, from the fold over the first `i`. */
  lemma LocationsFromDictPrefix(fs: Fields, i: nat)
    requires i < |fs|
    ensures LocationsFromDict(fs[..i + 1]) ==
              var acc := LocationsFromDict(fs[..i]);
              var rec := LocationRecord(fs[i].1);
              if acc.Failure? then acc else if rec.Failure? then Failure(rec.error) else Success(acc.value[JStr(fs[i].0) := rec.value])
  {
    var prefix := fs[..i + 1];
    assert prefix[..|prefix| - 1] == fs[..i] && prefix[|prefix| - 1] == fs[i];
  }

  /** The list-shaped fold over the first `i + 1` items, from the fold over the first `i`. */
  lemma LocationsFromListPrefix(xs: seq<Json>, i: nat)
    requires i < |xs|
    ensures LocationsFromList(xs[..i + 1]) ==
              var acc := LocationsFromList(xs[..i]);
              var entry := LocationEntry(xs[i]);
              if acc.Failure? then acc
              else if entry.Failure? then Failure(entry.error)
              else if entry.value.None? then acc
              else Success(acc.value[entry.value.value.0 := entry.value.value.1])
  {
    var prefix := xs[..i + 1];
    assert prefix[..|prefix| - 1] == xs[..i] && prefix[|prefix| - 1] == xs[i];
  }

  /** One step of the dict-shaped fold: the last key gets its record. */
  lemma LocationsFromDictStep(fs: Fields)
    requires fs != [] && LocationsFromDict(fs).Success?
    ensures LocationsFromDict(fs[..|fs| - 1]).Success? && LocationRecord(fs[|fs| - 1].1).Success?
    ensures LocationsFromDict(fs).value ==
              LocationsFromDict(fs[..|fs| - 1]).value[JStr(fs[|fs| - 1].0) := LocationRecord(fs[|fs| - 1].1).value]
  {
  }

  /** Dict shape: the ids are exactly the reply's keys. */
  lemma {:induction false} LocationsFromDictKeys(fs: Fields, id: Json)
    requires LocationsFromDict(fs).Success?
    ensures id in LocationsFromDict(fs).value <==> exists i :: 0 <= i < |fs| && id == JStr(fs[i].0)
  {
    if fs != [] {
      var init := fs[..|fs| - 1];
      LocationsFromDictStep(fs);
      LocationsFromDictKeys(init, id);
      var last := |fs| - 1;
      if id in LocationsFromDict(fs).value && id != JStr(fs[last].0) {
        var i :| 0 <= i < |init| && id == JStr(init[i].0);
        assert init[i] == fs[i];
      }
      if exists i :: 0 <= i < |fs| && id == JStr(fs[i].0) {
        var i :| 0 <= i < |fs| && id == JStr(fs[i].0);
        if i < last {
          assert init[i] == fs[i];
        }
      }
    }
  }

  /** Dict shape: each key maps to the record of its item (of its last occurrence, should a key repeat). */
  lemma {:induction false} LocationsFromDictValue(fs: Fields, i: nat)
    requires LocationsFromDict(fs).Success?
    requires i < |fs| && forall j :: i < j < |fs| ==> fs[j].0 != fs[i].0
    ensures LocationRecord(fs[i].1).Success?
    ensures JStr(fs[i].0) in LocationsFromDict(fs).value
    ensures LocationsFromDict(fs).value[JStr(fs[i].0)] == LocationRecord(fs[i].1).value
  {
    var init := fs[..|fs| - 1];
    LocationsFromDictStep(fs);
    if i < |fs| - 1 {
      assert init[i] == fs[i];
      LocationsFromDictValue(init, i);
      assert fs[|fs| - 1].0 != fs[i].0;
    }
  }

  /** One step of the list-shaped fold: the last item's record is stored under its id, if it has one. */
  lemma LocationsFromListStep(xs: seq<Json>)
    requires xs != [] && LocationsFromList(xs).Success?
    ensures LocationsFromList(xs[..|xs| - 1]).Success? && LocationEntry(xs[|xs| - 1]).Success?
    ensures var entry := LocationEntry(xs[|xs| - 1]).value;
            var acc := LocationsFromList(xs[..|xs| - 1]).value;
            LocationsFromList(xs).value == if entry.None? then acc else acc[entry.value.0 := entry.value.1]
  {
    var acc := LocationsFromList(xs[..|xs| - 1]);
    var entry := LocationEntry(xs[|xs| - 1]);
    assert acc.Success? && entry.Success?;
  }

  /** List shape: an id is present exactly when some item carries it. */
  lemma {:induction false} LocationsFromListKeys(xs: seq<Json>, id: Json)
    requires LocationsFromList(xs).Success?
    ensures id in LocationsFromList(xs).value <==>
              id != JNull && exists i :: 0 <= i < |xs| && xs[i].JObject? && LocationTrackerId(xs[i].fields) == id
  {
    if xs != [] {
      var init := xs[..|xs| - 1];
      LocationsFromListStep(xs);
      LocationEntryMeaning(xs[|xs| - 1]);
      LocationsFromListKeys(init, id);
      var lastId := LocationTrackerId(xs[|xs| - 1].fields);
      if id in LocationsFromList(xs).value && (lastId == JNull || id != lastId) {
        var i :| 0 <= i < |init| && init[i].JObject? && LocationTrackerId(init[i].fields) == id;
        assert init[i] == xs[i];
      }
      if id != JNull && exists i :: 0 <= i < |xs| && xs[i].JObject? && LocationTrackerId(xs[i].fields) == id {
        var i :| 0 <= i < |xs| && xs[i].JObject? && LocationTrackerId(xs[i].fields) == id;
        if i < |xs| - 1 {
          assert init[i] == xs[i];
        }
      }
    }
  }

  /** List shape: a later item with the same id overwrites an earlier one, so an id maps to the record of
      the LAST item that carries it. */
  lemma {:induction false} LocationsFromListLastWins(xs: seq<Json>, i: nat)
    requires LocationsFromList(xs).Success?
    requires i < |xs| && xs[i].JObject? && LocationTrackerId(xs[i].fields) != JNull
    requires forall j :: i < j < |xs| ==> xs[j].JObject? && LocationTrackerId(xs[j].fields) != LocationTrackerId(xs[i].fields)
    ensures LocationRecord(xs[i]).Success?
    ensures LocationTrackerId(xs[i].fields) in LocationsFromList(xs).value
    ensures LocationsFromList(xs).value[LocationTrackerId(xs[i].fields)] == LocationRecord(xs[i]).value
  {
    var init := xs[..|xs| - 1];
    LocationsFromListStep(xs);
    LocationEntryMeaning(xs[|xs| - 1]);
    if i < |xs| - 1 {
      assert init[i] == xs[i];
      forall j | i < j < |init| ensures init[j].JObject? && LocationTrackerId(init[j].fields) != LocationTrackerId(init[i].fields) {
        assert init[j] == xs[j];
      }
      LocationsFromListLastWins(init, i);
    }
  }

  lemma {:induction false} LocationsFromDictFailurePersists(fs: Fields, n: nat)
    requires n <= |fs| && LocationsFromDict(fs[..n]).Failure?
    ensures LocationsFromDict(fs) == LocationsFromDict(fs[..n])
    decreases |fs| - n
  {
    if n < |fs| {
      var init := fs[..|fs| - 1];
      assert init[..n] == fs[..n];
      LocationsFromDictFailurePersists(init, n);
    } else {
      assert fs[..n] == fs;
    }
  }

  lemma {:induction false} LocationsFromListFailurePersists(xs: seq<Json>, n: nat)
    requires n <= |xs| && LocationsFromList(xs[..n]).Failure?
    ensures LocationsFromList(xs) == LocationsFromList(xs[..n])
    decreases |xs| - n
  {
    if n < |xs| {
      var init := xs[..|xs| - 1];
      assert init[..n] == xs[..n];
      LocationsFromListFailurePersists(init, n);
    } else {
      assert xs[..n] == xs;
    }
  }

  /** The keys of a location record, in the order the record lists them. */
  const RecordKeys := ["latitude", "longitude", "accuracy", "last_update", "battery", "signal", "_raw"]

  /** A dict with exactly the keys of a location record. */
  predicate IsRecord(r: Fields)
  {
    |r| == |RecordKeys| && forall i :: 0 <= i < |r| ==> r[i].0 == RecordKeys[i]
  }

  /** Every record built from a location item has the record keys and no other. */
  lemma LocationRecordIsRecord(loc: Json)
    requires LocationRecord(loc).Success?
    ensures IsRecord(LocationRecord(loc).value)
  {
  }

  /** A key outside the record keys is absent from a record, so `.get` on it gives the default. */
  lemma RecordLacksKey(r: Fields, key: string, default: Json)
    requires IsRecord(r) && key !in RecordKeys
    ensures Lookup(r, key).None? && GetOr(r, key, default) == default
  {
    assert forall i :: 0 <= i < |r| ==> r[i].0 == RecordKeys[i] != key;
    LookupMeaning(r, key);
  }

  lemma {:induction false} LocationsFromDictRecords(fs: Fields)
    requires LocationsFromDict(fs).Success?
    ensures forall id :: id in LocationsFromDict(fs).value ==> IsRecord(LocationsFromDict(fs).value[id])
  {
    if fs != [] {
      LocationsFromDictStep(fs);
      LocationsFromDictRecords(fs[..|fs| - 1]);
      LocationRecordIsRecord(fs[|fs| - 1].1);
    }
  }

  lemma {:induction false} LocationsFromListRecords(xs: seq<Json>)
    requires LocationsFromList(xs).Success?
    ensures forall id :: id in LocationsFromList(xs).value ==> IsRecord(LocationsFromList(xs).value[id])
  {
    if xs != [] {
      LocationsFromListStep(xs);
      LocationsFromListRecords(xs[..|xs| - 1]);
      LocationEntryMeaning(xs[|xs| - 1]);
      if LocationEntry(xs[|xs| - 1]).value.Some? {
        LocationRecordIsRecord(xs[|xs| - 1]);
      }
    }
  }

  /** Whatever the shape of the reply, every tracker in the snapshot maps to a record with exactly the record
      keys: the snapshot carries no mode timers and nothing else from the reply at top level. */
  lemma NormalisedLocationsAreRecords(v: Json)
    requires NormaliseLocations(v).Success?
    ensures forall id :: id in NormaliseLocations(v).value ==> IsRecord(NormaliseLocations(v).value[id])
  {
    match GetOr(v.fields, "data", EmptyDict)
    case JObject(fs) => LocationsFromDictRecords(fs);
    case JList(xs) => LocationsFromListRecords(xs);
    case _ =>
  }

  /** The record the coordinator's snapshot holds for a tracker id: `{}` without a snapshot or an entry. */
  function EntryOf(data: Option<Locations>, trackerId: Json): Fields
  {
    if data.Some? && trackerId in data.value then data.value[trackerId] else []
  }

  /** The query string `trackers=<id>,<id>,...` of a locations request. */
  function TrackersQuery(trackerIds: seq<string>): string
  {
    "trackers=" + Join(trackerIds, ",")
  }

  /** Splits text at every comma. */
  function SplitCommas(s: string): (r: seq<string>)
    ensures |r| >= 1
  {
    if s == [] then [[]]
    else
      var rest := SplitCommas(s[1..]);
      if s[0] == ',' then [[]] + rest else [[s[0]] + rest[0]] + rest[1..]
  }

  lemma {:induction false} SplitCommasFree(s: string)
    requires forall k :: 0 <= k < |s| ==> s[k] != ','
    ensures SplitCommas(s) == [s]
  {
    if s != [] {
      SplitCommasFree(s[1..]);
      assert [s[0]] + s[1..] == s;
    }
  }

  lemma {:induction false} SplitCommasAppend(a: string, b: string)
    requires forall k :: 0 <= k < |a| ==> a[k] != ','
    ensures SplitCommas(a + "," + b) == [a] + SplitCommas(b)
  {
    if a == [] {
      assert a + "," + b == [','] + b;
      assert (a + "," + b)[1..] == b;
    } else {
      SplitCommasAppend(a[1..], b);
      assert (a + "," + b)[1..] == a[1..] + "," + b;
      assert [a[0]] + a[1..] == a;
    }
  }

  /** The tracker ids can be read back from the query: joining with "," and splitting at "," is the identity
      for a non-empty list of ids without commas. */
  lemma {:induction false} JoinedIdsRoundTrip(trackerIds: seq<string>)
    requires |trackerIds| >= 1
    requires forall i, k :: 0 <= i < |trackerIds| && 0 <= k < |trackerIds[i]| ==> trackerIds[i][k] != ','
    ensures SplitCommas(Join(trackerIds, ",")) == trackerIds
  {
    if |trackerIds| == 1 {
      SplitCommasFree(trackerIds[0]);
    } else {
      JoinedIdsRoundTrip(trackerIds[1..]);
      SplitCommasAppend(trackerIds[0], Join(trackerIds[1..], ","));
      assert [trackerIds[0]] + trackerIds[1..] == trackerIds;
    }
  }

  // ---------------------------------------------------------------------------
  // Detailed status and mode commands

  /** `async_get_detailed_status` on a parsed reply: the `data` field unchanged (default []) when `success` is truthy. */
  function DetailedStatusOutcome(body: Body): (r: Result<Json, Error>)
    ensures body.Unparsable? ==> r == Failure(InvalidResponseError)
  {
    match body
    case Unparsable => Failure(InvalidResponseError)
    case Parsed(v) =>
      if !v.JObject? then Failure(TypeFault)
      else if !Truthy(GetOr(v.fields, "success", JBool(false))) then Failure(ApiError)
      else Success(GetOr(v.fields, "data", JList([])))
  }

  /** The status reply passes exactly when it is a dict with a truthy `success`, and then its `data` is returned untouched. */
  lemma DetailedStatusPassesIff(v: Json)
    ensures DetailedStatusOutcome(Parsed(v)).Success? <==> v.JObject? && Truthy(GetOr(v.fields, "success", JBool(false)))
    ensures DetailedStatusOutcome(Parsed(v)).Success? ==> DetailedStatusOutcome(Parsed(v)).value == GetOr(v.fields, "data", JList([]))
    ensures v.JObject? && (forall i :: 0 <= i < |v.fields| ==> v.fields[i].0 != "success") ==> DetailedStatusOutcome(Parsed(v)) == Failure(ApiError)
  {
    if v.JObject? {
      GetOrMeaning(v.fields, "success", JBool(false));
    }
  }

  /** The three tracker modes and the query flag each one sends. */
  datatype Mode = Find | Light | Alarm

  function ModeFlag(mode: Mode): string
  {
    match mode
    case Find => "gps"
    case Light => "light"
    case Alarm => "speaker"
  }

  /** The endpoint and query of a start or stop command. */
  function ModeRequestUrl(start: bool): string
  {
    BaseUrl + (if start then "starttracking/1/1" else "stoptracking/1/1")
  }

  function ModeRequestParams(mode: Mode, trackerId: string): seq<(string, string)>
  {
    [(ModeFlag(mode), "1"), ("tracker", trackerId)]
  }

  /** The value a start or stop command returns for a reply that arrived: for status 200 the reply's `success`
      (True when absent, when the reply is not JSON or is not a dict), otherwise False. */
  function ModeReplyOutcome(status: int, jsonContentType: bool, body: Body): (r: Json)
    ensures status != 200 ==> r == JBool(false)
    ensures status == 200 && !jsonContentType ==> r == JBool(true)
    ensures status == 200 && body.Unparsable? ==> r == JBool(true)
  {
    if status != 200 then JBool(false)
    else if !jsonContentType then JBool(true)
    else match body
      case Parsed(JObject(fs)) => GetOr(fs, "success", JBool(true))
      case _ => JBool(true)
  }

  /** A 200 JSON dict reply yields its `success` value exactly, or True when it has none. */
  lemma ModeReplyReadsSuccess(fs: Fields, success: Json)
    ensures ModeReplyOutcome(200, true, Parsed(JObject([("success", success)] + fs))) == success
    ensures (forall i :: 0 <= i < |fs| ==> fs[i].0 != "success") ==> ModeReplyOutcome(200, true, Parsed(JObject(fs))) == JBool(true)
  {
    GetOrMeaning(fs, "success", JBool(true));
  }

  // ---------------------------------------------------------------------------
  // Daily activity totals

  /** The totals `async_get_activity_stats` returns; the floats are exact sums here, not rounded to two places. */
  datatype ActivityTotals = ActivityTotals(totalSteps: real, totalCalories: real, totalActiveHours: real)

  const ZeroTotals := ActivityTotals(0.0, 0.0, 0.0)

  /** The days of an activity reply, each as its list of hourly stats: `data.activities[*].hourlyStats`,
      with missing fields read as empty. */
  function ActivityDays(v: Json): (r: Option<seq<seq<Fields>>>)
  {
    if !v.JObject? then None
    else
      var d := GetOr(v.fields, "data", EmptyDict);
      if !d.JObject? then None
      else match DictItems(GetOr(d.fields, "activities", JList([])))
        case None => None
        case Some(days) => HourlyStatsOfDays(days)
  }

  function HourlyStatsOfDays(days: seq<Fields>): (r: Option<seq<seq<Fields>>>)
    ensures r.Some? ==> |r.value| == |days|
  {
    if days == [] then Some([])
    else match (HourlyStatsOfDays(days[..|days| - 1]), DictItems(GetOr(days[|days| - 1], "hourlyStats", JList([]))))
      case (Some(init), Some(hours)) => Some(init + [hours])
      case _ => None
  }

  /** All hourly stats of all days, in order. */
  function Flatten(days: seq<seq<Fields>>): seq<Fields>
  {
    if days == [] then [] else Flatten(days[..|days| - 1]) + days[|days| - 1]
  }

  /** The numeric field `key` of an hourly stat, `default` when missing; None when not a number. */
  function NumField(h: Fields, key: string, default: Json): Option<real>
  {
    NumOf(GetOr(h, key, default))
  }

  /** An hour's pace (its step count); 0 when missing. */
  function Pace(h: Fields): Option<real>
  {
    NumField(h, "pace", JInt(0))
  }

  /** Adds one hour to running totals, as the inner loop of pawfit_api.py:730-741 does. */
  function AddHour(acc: ActivityTotals, h: Fields): Option<ActivityTotals>
  {
    match (NumField(h, "calorie", JReal(0.0)), NumField(h, "active", JReal(0.0)), Pace(h))
    case (Some(c), Some(a), Some(p)) =>
      Some(ActivityTotals(acc.totalSteps + p, acc.totalCalories + c, acc.totalActiveHours + a))
    case _ => None
  }

  /** The totals over a list of hourly stats, accumulated from the first. */
  function TotalsOf(hours: seq<Fields>): Option<ActivityTotals>
  {
    if hours == [] then Some(ZeroTotals)
    else match TotalsOf(hours[..|hours| - 1])
      case None => None
      case Some(acc) => AddHour(acc, hours[|hours| - 1])
  }

  /** Adding one more hour to the end of the list extends the running totals by that hour. */
  lemma TotalsOfSnoc(hours: seq<Fields>, h: Fields)
    ensures TotalsOf(hours + [h]) == if TotalsOf(hours).None? then None else AddHour(TotalsOf(hours).value, h)
  {
    assert (hours + [h])[..|hours|] == hours;
  }

  /** The running totals after hour `j` of `hours`, which follow the hours `before`. */
  lemma TotalsOfStep(before: seq<Fields>, hours: seq<Fields>, j: nat)
    requires j < |hours|
    ensures TotalsOf(before + hours[..j + 1]) ==
              if TotalsOf(before + hours[..j]).None? then None else AddHour(TotalsOf(before + hours[..j]).value, hours[j])
  {
    assert before + hours[..j + 1] == (before + hours[..j]) + [hours[j]];
    TotalsOfSnoc(before + hours[..j], hours[j]);
  }

  /** `_compile_daily_activity_stats`: any malformed part raises (TypeFault). */
  function CompileActivity(v: Json): Result<ActivityTotals, Error>
  {
    match ActivityDays(v)
    case None => Failure(TypeFault)
    case Some(days) =>
      match TotalsOf(Flatten(days))
      case None => Failure(TypeFault)
      case Some(t) => Success(t)
  }

  lemma {:induction false} HourlyStatsFailurePersists(days: seq<Fields>, n: nat)
    requires n <= |days| && HourlyStatsOfDays(days[..n]).None?
    ensures HourlyStatsOfDays(days).None?
    decreases |days| - n
  {
    if n < |days| {
      var init := days[..|days| - 1];
      assert init[..n] == days[..n];
      HourlyStatsFailurePersists(init, n);
    } else {
      assert days[..n] == days;
    }
  }

  lemma {:induction false} HourlyStatsPrefix(days: seq<Fields>, n: nat)
    requires n <= |days| && HourlyStatsOfDays(days).Some?
    ensures HourlyStatsOfDays(days[..n]).Some? && HourlyStatsOfDays(days[..n]).value == HourlyStatsOfDays(days).value[..n]
    decreases |days| - n
  {
    if n < |days| {
      var init := days[..|days| - 1];
      assert init[..n] == days[..n];
      HourlyStatsPrefix(init, n);
      var all := HourlyStatsOfDays(days).value;
      assert all[..|days| - 1] == HourlyStatsOfDays(init).value;
      assert all[..|days| - 1][..n] == all[..n];
    } else {
      assert days[..n] == days;
      assert HourlyStatsOfDays(days).value[..n] == HourlyStatsOfDays(days).value;
    }
  }

  lemma {:induction false} FlattenPrefix(all: seq<seq<Fields>>, n: nat)
    requires n <= |all|
    ensures |Flatten(all[..n])| <= |Flatten(all)|
    ensures Flatten(all)[..|Flatten(all[..n])|] == Flatten(all[..n])
    decreases |all| - n
  {
    if n < |all| {
      var init := all[..|all| - 1];
      assert init[..n] == all[..n];
      FlattenPrefix(init, n);
      assert Flatten(all) == Flatten(init) + all[|all| - 1];
    } else {
      assert all[..n] == all;
    }
  }

  lemma {:induction false} TotalsFailurePersists(hours: seq<Fields>, n: nat)
    requires n <= |hours| && TotalsOf(hours[..n]).None?
    ensures TotalsOf(hours).None?
    decreases |hours| - n
  {
    if n < |hours| {
      var init := hours[..|hours| - 1];
      assert init[..n] == hours[..n];
      TotalsFailurePersists(init, n);
    } else {
      assert hours[..n] == hours;
    }
  }

  /** The sum of every hourly pace, added from the front: an independent reference for the step total. */
  function SumPaces(hours: seq<Fields>): Option<real>
  {
    if hours == [] then Some(0.0)
    else match (Pace(hours[0]), SumPaces(hours[1..]))
      case (Some(p), Some(rest)) => Some(p + rest)
      case _ => None
  }

  lemma {:induction false} SumPacesAppend(hours: seq<Fields>, h: Fields)
    requires SumPaces(hours).Some? && Pace(h).Some?
    ensures SumPaces(hours + [h]) == Some(SumPaces(hours).value + Pace(h).value)
  {
    if hours != [] {
      assert (hours + [h])[1..] == hours[1..] + [h];
      SumPacesAppend(hours[1..], h);
    } else {
      assert (hours + [h])[1..] == [];
    }
  }

  /** The step total is the sum of the hourly paces (missing paces count 0). */
  lemma {:induction false} TotalStepsIsSumOfPaces(hours: seq<Fields>)
    requires TotalsOf(hours).Some?
    ensures SumPaces(hours).Some? && TotalsOf(hours).value.totalSteps == SumPaces(hours).value
  {
    if hours != [] {
      var init := hours[..|hours| - 1];
      TotalStepsIsSumOfPaces(init);
      assert init + [hours[|hours| - 1]] == hours;
      SumPacesAppend(init, hours[|hours| - 1]);
    }
  }

  /** A reply without `data`, or whose data has no `activities`, gives zero totals. */
  lemma MissingActivitiesGiveZero(v: Json)
    requires v.JObject?
    requires (forall i :: 0 <= i < |v.fields| ==> v.fields[i].0 != "data") ||
             (var d := GetOr(v.fields, "data", EmptyDict); d.JObject? && forall i :: 0 <= i < |d.fields| ==> d.fields[i].0 != "activities")
    ensures CompileActivity(v) == Success(ZeroTotals)
  {
    GetOrMeaning(v.fields, "data", EmptyDict);
    var d := GetOr(v.fields, "data", EmptyDict);
    if d.JObject? {
      GetOrMeaning(d.fields, "activities", JList([]));
    }
  }

  /** `async_get_activity_stats` after the request: anything but a 200 reply that decodes and compiles gives zero totals. */
  function ActivityStatsOutcome(reply: Reply): (r: ActivityTotals)
    ensures reply.ClientFailure? || (reply.Response? && reply.status != 200) ==> r == ZeroTotals
    ensures reply.Response? && reply.status == 200 && reply.body.Parsed? && CompileActivity(reply.body.value).Success? ==>
              r == CompileActivity(reply.body.value).value
    ensures reply.Response? && reply.status == 200 && (reply.body.Unparsable? || CompileActivity(reply.body.value).Failure?) ==>
              r == ZeroTotals
  {
    match reply
    case ClientFailure => ZeroTotals
    case Response(status, _, body) =>
      if status != 200 then ZeroTotals
      else match body
        case Unparsable => ZeroTotals
        case Parsed(v) =>
          match CompileActivity(v)
          case Failure(_) => ZeroTotals
          case Success(t) => t
  }

  /** The test suite's example: two hours with paces 150 and 200 give 350 steps. */
  lemma ActivityExample()
    ensures
      var h1 := [("calorie", JReal(10.5)), ("active", JReal(0.5)), ("pace", JInt(150))];
      var h2 := [("calorie", JReal(15.2)), ("active", JReal(0.8)), ("pace", JInt(200))];
      var v := JObject([("data", JObject([("activities", JList([JObject([("hourlyStats", JList([JObject(h1), JObject(h2)]))])]))]))]);
      CompileActivity(v) == Success(ActivityTotals(350.0, 25.7, 1.3))
  {
    var h1 := [("calorie", JReal(10.5)), ("active", JReal(0.5)), ("pace", JInt(150))];
    var h2 := [("calorie", JReal(15.2)), ("active", JReal(0.8)), ("pace", JInt(200))];
    ExampleDays(h1, h2);
    ExampleTotals(h1, h2);
  }

  lemma ExampleDays(h1: Fields, h2: Fields)
    ensures
      var v := JObject([("data", JObject([("activities", JList([JObject([("hourlyStats", JList([JObject(h1), JObject(h2)]))])]))]))]);
      ActivityDays(v) == Some([[h1, h2]]) && Flatten([[h1, h2]]) == [h1, h2]
  {
    var day := [("hourlyStats", JList([JObject(h1), JObject(h2)]))];
    var hours := DictItems(JList([JObject(h1), JObject(h2)]));
    assert hours.Some? && |hours.value| == 2 && hours.value[0] == h1 && hours.value[1] == h2;
    assert hours.value == [h1, h2];
    var days := DictItems(JList([JObject(day)]));
    assert days.Some? && |days.value| == 1 && days.value[0] == day;
    assert days.value == [day];
    assert HourlyStatsOfDays([day]) == Some([[h1, h2]]) by {
      assert [day][..0] == [];
      assert [] + [[h1, h2]] == [[h1, h2]];
    }
    assert [[h1, h2]][..0] == [];
  }

  lemma ExampleTotals(h1: Fields, h2: Fields)
    requires h1 == [("calorie", JReal(10.5)), ("active", JReal(0.5)), ("pace", JInt(150))]
    requires h2 == [("calorie", JReal(15.2)), ("active", JReal(0.8)), ("pace", JInt(200))]
    ensures TotalsOf([h1, h2]) == Some(ActivityTotals(350.0, 25.7, 1.3))
  {
    LookupFirst(h1, 0);
    LookupFirst(h1, 1);
    LookupFirst(h1, 2);
    LookupFirst(h2, 0);
    LookupFirst(h2, 1);
    LookupFirst(h2, 2);
    assert TotalsOf([h1]) == Some(ActivityTotals(150.0, 10.5, 0.5)) by {
      assert [h1][..0] == [];
    }
    assert [h1, h2][..1] == [h1];
  }
}
