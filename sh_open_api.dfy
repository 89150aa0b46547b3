/** `TuyaSHOpenAPI`, the client for smart-home (app-federated) projects: its
    token state and refresh through the authorized-login endpoint, the
    guarded `request`, the chunking of device ids into groups of twenty and
    the merge of the device list with the batched function records. */
module ShOpenApi {
  import opened Values
  import opened Text
  import opened Signing
  import opened DeviceQueries

  const LoginPath := "/v1.0/iot-01/associated-users/actions/authorized-login"
  const DefaultEndpoint := "https://openapi.tuyaus.com"
  const GroupLength := 20

  /** The `result` of an authorized-login response. An empty `platformUrl`
      stands for a missing or empty `platform_url`. */
  datatype LoginGrant = LoginGrant(
    accessToken: string, refreshToken: string, uid: string,
    expireTime: int, platformUrl: string)

  /** `_refreshAccessTokenIfNeed` returns at once: the login path itself, or a
      token that expires more than 60 seconds after `now`. */
  predicate SkipsRefresh(path: string, expire: int, now: int) {
    StartsWith(path, LoginPath) || expire - 60 * 1000 > now
  }

  /** The token state `request` signs with: the base URL, the access and
      refresh tokens, the user id and the expiry in milliseconds. */
  datatype Session = Session(endpoint: string, accessToken: string, refreshToken: string, uid: string, expire: int)

  /** The session `_refreshAccessTokenIfNeed(path)` leaves at `now`, and
      whether it returned normally (false: it threw). A refresh clears the
      token before it posts the login; a grant replaces both tokens and the
      uid, takes a non-empty `platform_url` as the new endpoint and expires
      `expire_time` seconds after `now`. */
  function Refreshed(s: Session, path: string, now: int, reply: Option<LoginGrant>): (Session, bool) {
    if SkipsRefresh(path, s.expire, now) then (s, true)
    else
      match reply
      case None => (s.(accessToken := ""), false)
      case Some(g) =>
        (Session(if g.platformUrl != "" then g.platformUrl else s.endpoint,
                 g.accessToken, g.refreshToken, g.uid, g.expireTime * 1000 + now), true)
  }

  /** The login post's own token check never recurses: the login path
      always skips the refresh. */
  lemma LoginPathNeverRefreshes(s: Session, path: string, now: int, reply: Option<LoginGrant>)
    requires StartsWith(path, LoginPath)
    ensures Refreshed(s, path, now, reply) == (s, true)
  {
  }

  /** A token granted for more than a minute is reused as it is, without a
      new login, by every request made before its last minute. */
  lemma GrantedTokenReused(s: Session, path: string, now: int, g: LoginGrant,
                           later: int, nextPath: string, nextReply: Option<LoginGrant>)
    requires !SkipsRefresh(path, s.expire, now)
    requires later < now + (g.expireTime - 60) * 1000
    ensures Refreshed(s, path, now, Some(g)).1
    ensures Refreshed(s, path, now, Some(g)).0.accessToken == g.accessToken
    ensures var s' := Refreshed(s, path, now, Some(g)).0;
            Refreshed(s', nextPath, later, nextReply) == (s', true)
  {
    var s' := Refreshed(s, path, now, Some(g)).0;
    assert s'.expire - 60 * 1000 > later;
  }

  /** A failed refresh leaves the token empty and the expiry as it was, so
      the next request off the login path tries to log in again. */
  lemma FailedRefreshRetries(s: Session, path: string, now: int, nextPath: string)
    requires !SkipsRefresh(path, s.expire, now)
    requires !StartsWith(nextPath, LoginPath)
    ensures !Refreshed(s, path, now, None).1
    ensures Refreshed(s, path, now, None).0 == s.(accessToken := "")
    ensures !SkipsRefresh(nextPath, Refreshed(s, path, now, None).0.expire, now)
  {
  }

  /** The endpoint only ever moves to the `platform_url` of a grant. */
  lemma EndpointFromGrant(s: Session, path: string, now: int, reply: Option<LoginGrant>)
    ensures var e := Refreshed(s, path, now, reply).0.endpoint;
            e == s.endpoint || (reply.Some? && reply.value.platformUrl != "" && e == reply.value.platformUrl)
  {
  }

  /** The chunks `_refactoringIdsGroup` produces: consecutive slices of
      `size` elements, the last one possibly shorter. */
  function Chunks<T>(a: seq<T>, size: nat): seq<seq<T>>
    requires size > 0
    decreases |a|
  {
    if a == [] then []
    else if |a| <= size then [a]
    else [a[..size]] + Chunks(a[size..], size)
  }

  function Flatten<T>(groups: seq<seq<T>>): seq<T> {
    if groups == [] then [] else groups[0] + Flatten(groups[1..])
  }

  /** Chunking loses nothing and reorders nothing. */
  lemma {:induction false} ChunksFlatten<T>(a: seq<T>, size: nat)
    requires size > 0
    ensures Flatten(Chunks(a, size)) == a
    decreases |a|
  {
    if |a| > size {
      ChunksFlatten(a[size..], size);
      assert a[..size] + a[size..] == a;
    }
  }

  /** Every chunk but the last holds exactly `size` elements and the last
      holds between 1 and `size`; an empty list gives no chunk. */
  lemma {:induction false} ChunksSizes<T>(a: seq<T>, size: nat)
    requires size > 0
    ensures var cs := Chunks(a, size);
            && (cs == [] <==> a == [])
            && (forall i :: 0 <= i < |cs| - 1 ==> |cs[i]| == size)
            && (cs != [] ==> 1 <= |cs[|cs| - 1]| <= size)
    decreases |a|
  {
    if |a| > size {
      ChunksSizes(a[size..], size);
      var cs := Chunks(a, size);
      assert cs == [a[..size]] + Chunks(a[size..], size);
      assert forall i :: 1 <= i < |cs| ==> cs[i] == Chunks(a[size..], size)[i - 1];
    }
  }

  /** There are ceil(|a| / size) chunks: all but the last are full and the
      last is not empty. */
  lemma {:induction false} ChunksCount<T>(a: seq<T>, size: nat)
    requires size > 0
    ensures (|Chunks(a, size)| - 1) * size < |a| <= |Chunks(a, size)| * size || a == []
    decreases |a|
  {
    if |a| > size {
      ChunksCount(a[size..], size);
      var k := |Chunks(a[size..], size)|;
      assert |Chunks(a, size)| == k + 1;
      assert (k + 1) * size == k * size + size;
    }
  }

  /** `_refactoringIdsGroup(array, subGroupLength)`: the source loop, which
      slices from `index` and advances it by the group length. */
  method RefactoringIdsGroup<T>(a: seq<T>, size: nat) returns (groups: seq<seq<T>>)
    requires size > 0
    ensures groups == Chunks(a, size)
  {
    var index := 0;
    groups := [];
    while index < |a|
      invariant 0 <= index <= |a|
      invariant groups + Chunks(a[index..], size) == Chunks(a, size)
      decreases |a| - index
    {
      var next := if index + size < |a| then index + size else |a|;
      var rest := a[index..];
      if |rest| > size {
        assert Chunks(rest, size) == [rest[..size]] + Chunks(rest[size..], size);
        assert rest[..size] == a[index..next];
        assert rest[size..] == a[next..];
      } else {
        assert Chunks(rest, size) == [rest];
        assert a[next..] == [];
        assert rest == a[index..next];
      }
      assert (groups + [a[index..next]]) + Chunks(a[next..], size)
          == groups + ([a[index..next]] + Chunks(a[next..], size));
      groups := groups + [a[index..next]];
      index := next;
    }
  }

  /** `j.devices[0]` of a batched function record. */
  function LeadingDevice(f: Record): Value {
    match Get(f, "devices")
    case Arr(items) => if items == [] then Undefined else items[0]
    case _ => Undefined
  }

  /** `fs.find(j => j.devices[0] == id)`. */
  function FindFunctions(fs: seq<Record>, id: Value): Option<Record> {
    FindBy(fs, LeadingDevice, id)
  }

  /** `Object.assign({}, device, match)`; an absent match adds nothing. */
  function Overlay(device: Record, found: Option<Record>): Record {
    match found
    case None => Assign([], device)
    case Some(f) => Assign(Assign([], device), f)
  }

  /** The device list `getDevices` returns: each listed device, in order,
      overlaid with its function record. */
  function MergedDevices(listed: seq<Record>, functions: seq<Record>): (r: seq<Record>)
    ensures |r| == |listed|
  {
    seq(|listed|, i requires 0 <= i < |listed| =>
      Overlay(listed[i], FindFunctions(functions, Get(listed[i], "id"))))
  }

  /** In the merged list, entry `i` is listed device `i` with each property
      taken from its first matching function record when that record has it,
      and from the device otherwise. */
  lemma MergedDevicesProperty(listed: seq<Record>, functions: seq<Record>, i: nat, k: string)
    requires i < |listed|
    ensures var found := FindFunctions(functions, Get(listed[i], "id"));
            Get(MergedDevices(listed, functions)[i], k) ==
              if found.Some? && k in Keys(found.value) then Get(found.value, k)
              else Get(listed[i], k)
  {
    var found := FindFunctions(functions, Get(listed[i], "id"));
    assert MergedDevices(listed, functions)[i] == Overlay(listed[i], found);
    AssignGet([], listed[i], k);
    if k !in Keys(listed[i]) {
      GetAbsent(listed[i], k);
    }
    if found.Some? {
      AssignGet(Assign([], listed[i]), found.value, k);
    }
  }

  /** `getDevices` once its responses are in: `listed` is the associated
      device list; `functionsOf(ids)` is what the batched function lookup
      returns for one group of ids. Returns the merged list and the groups
      that were looked up, in order. */
  method GetDevices(listed: seq<Record>, functionsOf: seq<Value> -> seq<Record>)
    returns (devices: seq<Record>, lookedUp: seq<seq<Value>>)
    ensures lookedUp == Chunks(FieldOf(listed, "id"), GroupLength)
    ensures devices == MergedDevices(listed, FunctionsFetched(lookedUp, functionsOf))
  {
    var tempIds := CollectField(listed, "id");
    lookedUp := RefactoringIdsGroup(tempIds, GroupLength);
    var devicesFunctions := FetchFunctions(lookedUp, functionsOf);
    devices := MergeLoop(listed, devicesFunctions);
  }

  /** The second loop of `getDevices`: one batched lookup per group, the
      answers pushed in order. */
  method FetchFunctions(groups: seq<seq<Value>>, functionsOf: seq<Value> -> seq<Record>)
    returns (devicesFunctions: seq<Record>)
    ensures devicesFunctions == FunctionsFetched(groups, functionsOf)
  {
    devicesFunctions := [];
    var g := 0;
    while g < |groups|
      invariant 0 <= g <= |groups|
      invariant devicesFunctions == FunctionsFetched(groups[..g], functionsOf)
    {
      assert groups[..g + 1][..g] == groups[..g];
      devicesFunctions := devicesFunctions + functionsOf(groups[g]);
      g := g + 1;
    }
    assert groups[..g] == groups;
  }

  /** The third loop of `getDevices`: each device overlaid with its function
      record. */
  method MergeLoop(listed: seq<Record>, devicesFunctions: seq<Record>) returns (devices: seq<Record>)
    ensures devices == MergedDevices(listed, devicesFunctions)
  {
    devices := [];
    var i := 0;
    while i < |listed|
      invariant 0 <= i <= |listed|
      invariant devices == MergedDevices(listed, devicesFunctions)[..i]
    {
      devices := devices + [Overlay(listed[i], FindFunctions(devicesFunctions, Get(listed[i], "id")))];
      i := i + 1;
    }
  }

  /** The function records of all groups, concatenated in group order. */
  function FunctionsFetched(groups: seq<seq<Value>>, functionsOf: seq<Value> -> seq<Record>): seq<Record> {
    if groups == [] then []
    else FunctionsFetched(groups[..|groups| - 1], functionsOf) + functionsOf(groups[|groups| - 1])
  }

  class ShApi {
    const accessId: string
    const accessKey: string
    const username: string
    const password: string
    const countryCode: int
    const appSchema: string
    const lang: string
    /** The process-wide nonce (`uuid()` at module load). */
    const nonce: string
    const digests: Digests
    /** MD5 as lower-case hexadecimal text (a foreign call). */
    const md5Hex: string -> string

    var endpoint: string
    var accessToken: string
    var refreshToken: string
    var uid: string
    var expire: int
    /** Every HTTP call issued so far, in order. */
    var sent: seq<HttpCall>

    /** The constructor: the endpoint is looked up from a non-zero country
        code (`endpointOf` stands for the country table) and is the US
        endpoint otherwise; the token starts empty and expired. */
    constructor(accessId: string, accessKey: string, username: string, password: string,
                countryCode: int, appSchema: string, lang: string, nonce: string,
                digests: Digests, md5Hex: string -> string, endpointOf: int -> string)
      ensures this.accessId == accessId && this.accessKey == accessKey
      ensures this.username == username && this.password == password
      ensures this.countryCode == countryCode && this.appSchema == appSchema
      ensures this.lang == lang && this.nonce == nonce
      ensures this.digests == digests && this.md5Hex == md5Hex
      ensures endpoint == if countryCode != 0 then endpointOf(countryCode) else DefaultEndpoint
      ensures accessToken == "" && refreshToken == "" && uid == "" && expire == 0
      ensures sent == []
    {
      this.accessId, this.accessKey := accessId, accessKey;
      this.username, this.password := username, password;
      this.countryCode, this.appSchema := countryCode, appSchema;
      this.lang, this.nonce := lang, nonce;
      this.digests, this.md5Hex := digests, md5Hex;
      endpoint := if countryCode != 0 then endpointOf(countryCode) else DefaultEndpoint;
      accessToken, refreshToken, uid, expire := "", "", "", 0;
      sent := [];
    }

    /** The body of the authorized-login call. */
    function LoginBody(): Record {
      [("country_code", Num(countryCode)),
       ("username", Str(username)),
       ("password", Str(md5Hex(password))),
       ("schema", Str(appSchema))]
    }

    /** The token state as `request` reads it. */
    function Current(): Session
      reads this
    {
      Session(endpoint, accessToken, refreshToken, uid, expire)
    }

    /** What a refresh from session `s` posts: nothing when it is skipped,
        otherwise the login, signed with the cleared token. */
    function RefreshCalls(s: Session, path: string, now: int): seq<HttpCall> {
      if SkipsRefresh(path, s.expire, now) then [] else [LoginCall(s.endpoint, now)]
    }

    /** The authorized-login post to `endpoint`, signed with the empty token. */
    function LoginCall(endpoint: string, now: int): HttpCall {
      SignedCall(endpoint, accessId, accessKey, "", now, nonce, lang, HttpPost, LoginPath, Some(LoginBody()), digests)
    }

    /** `_refreshAccessTokenIfNeed(path)` at time `now`; `reply` is the
        login response's result (`None` when the login call fails or its
        result cannot be read). `ok` is false when the refresh threw. */
    method RefreshAccessTokenIfNeed(path: string, now: int, reply: Option<LoginGrant>)
      returns (ok: bool)
      modifies this
      ensures Current() == Refreshed(old(Current()), path, now, reply).0
      ensures ok == Refreshed(old(Current()), path, now, reply).1
      ensures sent == old(sent) + RefreshCalls(old(Current()), path, now)
    {
      // the login path, or a token with more than a minute left
      if SkipsRefresh(path, expire, now) {
        return true;
      }
      ghost var s := Current();
      accessToken := "";
      // the nested `post` skips its own refresh: its path is the login path
      sent := sent + [LoginCall(endpoint, now)];
      if reply.None? {
        assert Current() == s.(accessToken := "");
        return false;
      }
      var g := reply.value;
      endpoint, accessToken, refreshToken, uid, expire :=
        if g.platformUrl != "" then g.platformUrl else endpoint,
        g.accessToken, g.refreshToken, g.uid, g.expireTime * 1000 + now;
      ok := true;
    }

    /** `request` (reached through `get`, `post` or `delete`): the token
        check first; if it throws, nothing more is sent and the answer is
        `undefined` (`None`); otherwise one signed call goes out with the
        endpoint and token the check left. */
    method Request(verb: Verb, path: string, arg: Option<Record>, now: int, reply: Option<LoginGrant>)
      returns (call: Option<HttpCall>)
      modifies this
      ensures var (s', ok) := Refreshed(old(Current()), path, now, reply);
              && Current() == s'
              && (ok ==> call == Some(SignedCall(s'.endpoint, accessId, accessKey, s'.accessToken, now, nonce, lang,
                                                 verb, path, arg, digests)))
              && (!ok ==> call == None)
              && sent == old(sent) + RefreshCalls(old(Current()), path, now) + (if ok then [call.value] else [])
    {
      var ok := RefreshAccessTokenIfNeed(path, now, reply);
      if !ok {
        return None;
      }
      var c := SignedCall(endpoint, accessId, accessKey, accessToken, now, nonce, lang, verb, path, arg, digests);
      sent := sent + [c];
      call := Some(c);
    }
  }
}
