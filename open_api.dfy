/** `TuyaOpenAPI`, the client for custom (direct-to-vendor) projects: login,
    the `isLogin` guard, the token refresh it guards, the signed `request`,
    and the device-list assembly from assets, batched info and status, and
    per-device functions.

    The access token is kept as the value the login response carried: the
    guard reads its `count` property, which a string does not have, so for
    every string token the guard is false and no refresh ever runs. */
module OpenApi {
  import opened Values
  import opened Text
  import opened Signing
  import opened DeviceQueries

  const LoginPath := "/v1.0/iot-03/users/login"
  const TokenPathPrefix := "/v1.0/token"

  /** The `result` of a login or token response. */
  datatype TokenGrant = TokenGrant(accessToken: Value, refreshToken: string, uid: string, expire: int)

  /** `(token as any).count`: only an object can have a `count` property. */
  function CountProperty(token: Value): Value {
    if token.Obj? then Get(token.fields, "count") else Undefined
  }

  /** `v > 0`: numbers compare as themselves, `true` as 1, digit strings as
      their decimal value; `undefined` (NaN) and everything else compare
      false. */
  predicate GreaterThanZero(v: Value) {
    match v
    case Num(n) => n > 0
    case Bool(b) => b
    case Str(s) => IsDigits(s) && DecimalValue(s) > 0
    case _ => false
  }

  /** `isLogin()` throws when the token is `undefined` or `null`: reading
      `count` of either is a TypeError, which rejects the refresh and with
      it the request. */
  predicate LoginCheckThrows(accessToken: Value) {
    accessToken.Undefined? || accessToken.Null?
  }

  /** `isLogin()` for any other token:
      `tokenInfo && tokenInfo.accessToken.count > 0`. */
  predicate IsLogin(accessToken: Value) {
    GreaterThanZero(CountProperty(accessToken))
  }

  /** No string token ever passes `isLogin`: strings have no `count`. */
  lemma IsLoginFalseForStrings(s: string)
    ensures !IsLogin(Str(s))
  {
  }

  /** `_refreshAccessTokenIfNeed` returns at once: not logged in, a token
      path, or a token that expires more than 60 seconds after `now`. */
  predicate SkipsRefresh(accessToken: Value, path: string, expire: int, now: int) {
    !IsLogin(accessToken) || StartsWith(path, TokenPathPrefix) || expire - 60 * 1000 > now
  }

  /** The token state: the access token as the login answer carried it,
      the refresh token, the user id and the expiry. */
  datatype Session = Session(accessToken: Value, refreshToken: string, uid: string, expire: int)

  /** Whether `_refreshAccessTokenIfNeed` fetches a new token. */
  predicate RefreshSends(s: Session, path: string, now: int) {
    !LoginCheckThrows(s.accessToken) && !SkipsRefresh(s.accessToken, path, s.expire, now)
  }

  /** The session `_refreshAccessTokenIfNeed(path)` leaves at `now`, and
      whether it returned normally (false: it threw). A refresh clears the
      token before it fetches `/v1.0/token/<refreshToken>`; an answer is
      stored with `expire * 1000 + now`. */
  function Refreshed(s: Session, path: string, now: int, reply: Option<TokenGrant>): (Session, bool) {
    if LoginCheckThrows(s.accessToken) then (s, false)
    else if SkipsRefresh(s.accessToken, path, s.expire, now) then (s, true)
    else
      match reply
      case None => (s.(accessToken := Str("")), false)
      case Some(g) => (Session(g.accessToken, g.refreshToken, g.uid, g.expire * 1000 + now), true)
  }

  /** With a string token, every path skips the refresh, whatever the
      expiry: the session stays as it is and nothing is fetched. */
  lemma StringTokenNeverRefreshes(s: Session, path: string, now: int, reply: Option<TokenGrant>)
    requires s.accessToken.Str?
    ensures Refreshed(s, path, now, reply) == (s, true)
    ensures !RefreshSends(s, path, now)
  {
    IsLoginFalseForStrings(s.accessToken.s);
  }

  /** With an `undefined` or `null` token every request fails before any
      call, and the session stays as it is. */
  lemma NullishTokenBlocksRequests(s: Session, path: string, now: int, reply: Option<TokenGrant>)
    requires s.accessToken.Undefined? || s.accessToken.Null?
    ensures Refreshed(s, path, now, reply) == (s, false)
    ensures !RefreshSends(s, path, now)
  {
  }

  /** The device-id entries of all assets, asset by asset, each asset's in
      its list order (`deviceDataArr.concat(res)` per asset). */
  function Concat(lists: seq<seq<Record>>): seq<Record> {
    if lists == [] then [] else Concat(lists[..|lists| - 1]) + lists[|lists| - 1]
  }

  /** Collecting the ids of one more asset appends that asset's ids, in its
      order, after all earlier ones. */
  lemma CollectedIdsAppend(lists: seq<seq<Record>>, next: seq<Record>)
    ensures FieldOf(Concat(lists + [next]), "device_id") == FieldOf(Concat(lists), "device_id") + FieldOf(next, "device_id")
  {
    assert (lists + [next])[..|lists|] == lists;
  }

  function IdOf(r: Record): Value {
    Get(r, "id")
  }

  /** `Object.assign({}, info, functions, status.find(j => j.id == info.id))`. */
  function MergeDevice(info: Record, functions: Value, status: seq<Record>): Record {
    var found := FindBy(status, IdOf, Get(info, "id"));
    var withFunctions := AssignValue(Assign([], info), functions);
    if found.Some? then Assign(withFunctions, found.value) else withFunctions
  }

  /** The device list `getDeviceList` returns: one entry per info record, in
      order. */
  function MergedDeviceList(infos: seq<Record>, functionsOf: Value -> Value, status: seq<Record>): (r: seq<Record>)
    ensures |r| == |infos|
  {
    seq(|infos|, i requires 0 <= i < |infos| =>
      MergeDevice(infos[i], functionsOf(Get(infos[i], "id")), status))
  }

  /** Each property of a merged device comes from its status record if that
      has it, else from its functions if they have it, else from its info
      record: the status record is overlaid last. */
  lemma MergeDeviceProperty(info: Record, functions: Value, status: seq<Record>, k: string)
    ensures var found := FindBy(status, IdOf, Get(info, "id"));
            Get(MergeDevice(info, functions, status), k) ==
              if found.Some? && k in Keys(found.value) then Get(found.value, k)
              else if k in Keys(Props(functions)) then Get(Props(functions), k)
              else Get(info, k)
  {
    var found := FindBy(status, IdOf, Get(info, "id"));
    var base := Assign([], info);
    AssignGet([], info, k);
    if k !in Keys(info) {
      GetAbsent(info, k);
    }
    var withFunctions := AssignValue(base, functions);
    AssignGet(base, Props(functions), k);
    if found.Some? {
      AssignGet(withFunctions, found.value, k);
    }
  }

  /** The responses `getDeviceList` works from. */
  datatype Responses = Responses(
    assetIds: seq<Value>,
    deviceLists: Value -> seq<Record>,
    infoList: seq<Record>,
    statusList: seq<Record>,
    functionsOf: Value -> Value)

  /** The device lists of the assets, in asset order. */
  function AssetLists(r: Responses): (lists: seq<seq<Record>>)
    ensures |lists| == |r.assetIds|
    ensures forall i :: 0 <= i < |r.assetIds| ==> lists[i] == r.deviceLists(r.assetIds[i])
  {
    seq(|r.assetIds|, i requires 0 <= i < |r.assetIds| => r.deviceLists(r.assetIds[i]))
  }

  /** `getDeviceList` once its responses are in: the id lists of the assets
      in asset order, the batched info and status lists, the functions of
      each device. Returns the merged list, the ids collected and the
      `device_ids` queries of the two batched lookups (`None` when the
      lookup answered `[]` without a request). */
  method GetDeviceList(r: Responses)
    returns (devices: seq<Record>, ids: seq<Value>, infoQuery: Option<Record>, statusQuery: Option<Record>)
    ensures ids == FieldOf(Concat(AssetLists(r)), "device_id")
    ensures infoQuery == statusQuery == (if ids == [] then None else Some(IdsQuery(ids)))
    ensures devices == if ids == [] then [] else MergedDeviceList(r.infoList, r.functionsOf, r.statusList)
  {
    var deviceDataArr := ConcatAssets(r);
    ids := CollectField(deviceDataArr, "device_id");
    var (infos, infoAsked) := BatchedList(ids, r.infoList);
    var (statuses, statusAsked) := BatchedList(ids, r.statusList);
    infoQuery, statusQuery := infoAsked, statusAsked;
    devices := MergeInfos(infos, r.functionsOf, statuses);
  }

  /** The first loop of `getDeviceList`: each asset's device list appended
      in asset order. */
  method ConcatAssets(r: Responses) returns (deviceDataArr: seq<Record>)
    ensures deviceDataArr == Concat(AssetLists(r))
  {
    var lists := AssetLists(r);
    deviceDataArr := [];
    var a := 0;
    while a < |r.assetIds|
      invariant 0 <= a <= |r.assetIds|
      invariant deviceDataArr == Concat(lists[..a])
    {
      assert lists[..a + 1][..a] == lists[..a];
      deviceDataArr := deviceDataArr + r.deviceLists(r.assetIds[a]);
      a := a + 1;
    }
    assert lists[..a] == lists;
  }

  /** The third loop of `getDeviceList`: each device's info overlaid with
      its functions and its status entry, in info order. */
  method MergeInfos(infos: seq<Record>, functionsOf: Value -> Value, statuses: seq<Record>)
    returns (devices: seq<Record>)
    ensures devices == MergedDeviceList(infos, functionsOf, statuses)
  {
    devices := [];
    var i := 0;
    while i < |infos|
      invariant 0 <= i <= |infos|
      invariant devices == MergedDeviceList(infos, functionsOf, statuses)[..i]
    {
      var functions := functionsOf(Get(infos[i], "id"));
      devices := devices + [MergeDevice(infos[i], functions, statuses)];
      i := i + 1;
    }
  }

  class Api {
    const endpoint: string
    const accessId: string
    const accessKey: string
    const lang: string
    /** The process-wide nonce (`uuid()` at module load). */
    const nonce: string
    const digests: Digests

    var accessToken: Value
    var refreshToken: string
    var uid: string
    var expire: int
    /** Every HTTP call issued so far, in order. */
    var sent: seq<HttpCall>

    constructor(endpoint: string, accessId: string, accessKey: string, lang: string,
                nonce: string, digests: Digests)
      ensures this.endpoint == endpoint && this.accessId == accessId && this.accessKey == accessKey
      ensures this.lang == lang && this.nonce == nonce && this.digests == digests
      ensures accessToken == Str("") && refreshToken == "" && uid == "" && expire == 0
      ensures sent == []
    {
      this.endpoint, this.accessId, this.accessKey := endpoint, accessId, accessKey;
      this.lang, this.nonce, this.digests := lang, nonce, digests;
      accessToken, refreshToken, uid, expire := Str(""), "", "", 0;
      sent := [];
    }

    /** The token state as `request` reads it. */
    function Current(): Session
      reads this
    {
      Session(accessToken, refreshToken, uid, expire)
    }

    /** What a refresh from session `s` fetches: nothing unless it runs,
        otherwise the token GET, signed with the cleared token. */
    function RefreshCalls(s: Session, path: string, now: int): seq<HttpCall> {
      if !RefreshSends(s, path, now) then [] else [TokenCall(s.refreshToken, now)]
    }

    /** The token GET for `refreshToken`, signed with the empty token. */
    function TokenCall(refreshToken: string, now: int): HttpCall {
      SignedCall(endpoint, accessId, accessKey, "", now, nonce, lang,
                 HttpGet, TokenPathPrefix + "/" + refreshToken, None, digests)
    }

    /** `_refreshAccessTokenIfNeed(path)` at time `now`; `reply` is the token
        response's result (`None` when that call fails). `ok` is false when
        the refresh threw. */
    method RefreshAccessTokenIfNeed(path: string, now: int, reply: Option<TokenGrant>)
      returns (ok: bool)
      modifies this
      ensures (Current(), ok) == Refreshed(old(Current()), path, now, reply)
      ensures sent == old(sent) + RefreshCalls(old(Current()), path, now)
    {
      if accessToken.Undefined? || accessToken.Null? {
        return false;
      }
      if !IsLogin(accessToken) {
        return true;
      }
      if StartsWith(path, TokenPathPrefix) {
        return true;
      }
      if expire - 60 * 1000 > now {
        return true;
      }
      accessToken := Str("");
      // the nested `get` skips its own refresh: the cleared token is not logged in
      sent := sent + [TokenCall(refreshToken, now)];
      if reply.None? {
        return false;
      }
      var g := reply.value;
      accessToken, refreshToken, uid := g.accessToken, g.refreshToken, g.uid;
      expire := g.expire * 1000 + now;
      ok := true;
    }

    /** `request`: the token check, whose failure propagates (`None`), then
        one signed call with the token as the check left it, or "" when that
        token is falsy. */
    method Request(verb: Verb, path: string, arg: Option<Record>, now: int, reply: Option<TokenGrant>)
      returns (call: Option<HttpCall>)
      modifies this
      ensures var (s', ok) := Refreshed(old(Current()), path, now, reply);
              && Current() == s'
              && (ok ==> call == Some(SignedCall(endpoint, accessId, accessKey, OrEmpty(s'.accessToken), now, nonce, lang,
                                                 verb, path, arg, digests)))
              && (!ok ==> call == None)
              && sent == old(sent) + RefreshCalls(old(Current()), path, now) + (if ok then [call.value] else [])
    {
      var ok := RefreshAccessTokenIfNeed(path, now, reply);
      if !ok {
        return None;
      }
      var c := SignedCall(endpoint, accessId, accessKey, OrEmpty(accessToken), now, nonce, lang,
                          verb, path, arg, digests);
      sent := sent + [c];
      call := Some(c);
    }

    /** `login(username, password)`: posts the user name and the lower-cased
        SHA-256 of the password; on an answer, stores its tokens and uid
        with `expire` added to `now` as it is (no scaling to milliseconds).
        `refreshReply` answers a refresh the post's own token check might
        make; `reply` is the login result (`None`: the call or the read of its
        result threw, and the token is as the check left it). */
    method Login(username: string, password: string, now: int,
                 refreshReply: Option<TokenGrant>, reply: Option<TokenGrant>)
      returns (result: Option<TokenGrant>)
      modifies this
      ensures var body := [("username", Str(username)),
                           ("password", Str(Lower(digests.sha256Hex(password))))];
              var (s', ok) := Refreshed(old(Current()), LoginPath, now, refreshReply);
              && sent == old(sent) + RefreshCalls(old(Current()), LoginPath, now)
                   + (if ok then [SignedCall(endpoint, accessId, accessKey, OrEmpty(s'.accessToken), now,
                                             nonce, lang, HttpPost, LoginPath, Some(body), digests)] else [])
              && result == (if ok then reply else None)
              && (result.None? ==> Current() == s')
      ensures result.Some? ==>
                Current() == Session(reply.value.accessToken, reply.value.refreshToken,
                                     reply.value.uid, reply.value.expire + now)
    {
      var body := [("username", Str(username)),
                   ("password", Str(Lower(digests.sha256Hex(password))))];
      var call := Request(HttpPost, LoginPath, Some(body), now, refreshReply);
      if call.None? || reply.None? {
        return None;
      }
      var g := reply.value;
      accessToken, refreshToken, uid := g.accessToken, g.refreshToken, g.uid;
      expire := g.expire + now;
      result := Some(g);
    }
  }
}
