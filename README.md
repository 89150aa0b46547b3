# tuya-mqtt core, modelled in Dafny

tuya-mqtt bridges the Tuya IoT cloud to an MQTT bus. It signs requests to one of
two Tuya cloud APIs and keeps their access token fresh. It assembles the device
list and announces each device and its status. It keeps an MQ push channel open
and decrypts what arrives on it. It routes the decoded messages (status, bind,
delete) and turns `~/set/<device>/<command>` messages into device commands.

This project models that logic:

- `signing.dfy` (`Signing`): the request signing both API classes share.
  - The canonical URL with its query.
  - The string-to-sign.
  - The HMAC signature and the request headers.
  - The `get`/`post`/`delete` routing.
- `device_queries.dfy` (`DeviceQueries`): the batched `device_ids` lookups and their empty-list guard.
- `sh_open_api.dfy` (`ShOpenApi`): `TuyaSHOpenAPI`, the class `ShApi`.
  - Token refresh through the authorized-login endpoint, and the endpoint swap.
  - The guarded `request`.
  - Grouping ids by twenty.
  - Merging devices with their batched function records.
- `open_api.dfy` (`OpenApi`): `TuyaOpenAPI`, the class `Api`.
  - `login` and the `isLogin` guard.
  - The token refresh that guard leaves unreachable for string tokens.
  - `request`.
  - The device-list assembly from assets, batched info and status, and per-device functions.
- `open_mq.dfy` (`OpenMq`): `TuyaOpenMQ`, the class `Mq`.
  - Start, stop and the config loop with its sleep arithmetic.
  - The v2.0 payload framing, the 6-byte AAD and the key derived from the broker password.
  - The decoder choice and topic-guarded dispatch.
  - The listener set.
- `client.dfy` (`TuyaClient`): `TuyaClient`, the class `Client`.
  - The category names and the "device" projection.
  - Event order and `bizCode` routing.
  - The command payload.
  - The choice of API class and encryption version from the project type.
- `data_util.dfy` (`DataUtil`): `getSubService`.
- `main_bridge.dfy` (`Bridge`): `main.ts`.
  - The configuration defaults.
  - The status topics and the status publishing loop.
  - The parsing of `~/set/` topics.
- `text.dfy`, `values.dfy` and `bytes.dfy` carry the JavaScript semantics the model needs:
  - strings (`split`, `join`, `substring`, `toUpperCase`, decimal rendering);
  - dynamic values with ordered properties (`Object.assign`, `find`, truthiness, `String(v)`);
  - Node `Buffer` (`slice`, `readUIntBE`, `writeUIntBE`).

State that the source updates in place is held by classes. These are `ShApi`, `Api`, `Mq` and `Client`. Their methods record every HTTP call, MQTT action and emitted event, in order, in sequence fields.

Network answers, the clock (`now`) and the nonce are parameters. So are the digests (HMAC-SHA256 per RFC 2104 over FIPS 180-4 SHA-256, SHA-256, MD5), the ciphers and codecs, and the country table:
- AES-128-GCM per NIST SP 800-38D.
- AES-128-ECB with PKCS#7 padding per section 6.3 of RFC 5652.
- Base64 per section 4 of RFC 4648.
- UTF-8 and JSON.

The model follows the code. Three of its behaviours are easy to miss:
- `TuyaOpenAPI` never refreshes a string token. `isLogin` reads `count` on a string, so the refresh is unreachable; `OpenApi.StringTokenNeverRefreshes` states this. An `undefined` or `null` token makes `isLogin` throw, so every later request fails before any call; `OpenApi.NullishTokenBlocksRequests` states this.
- `delete` never removes a device `addAccessory` stored. The client stores devices by index assignment on its `Map` object but deletes through `Map.delete`. `TuyaClient.Client.OnMqttMessage` keeps `props` unchanged on delete.
- A status message emits a "status" event and changes nothing stored. No per-code status merge exists in the code.

## Model

| member | source | states |
|---|---|---|
| Signing.SignUrl | src/tuya-homebridge/tuyashopenapi.ts:282-291 | The for-in loop with `substr(1)` returns the canonical URL. No parameters give the bare path. Otherwise it is path, `?`, then the `k=v` pairs joined by `&` in property order; an empty object gives `path?`. |
| Signing.AmpersandedIsJoin | src/tuya-homebridge/tuyaopenapi.ts:277-280 | The text the loop appends, `&k=v` per property, is `&` followed by the `&`-join of the pairs. |
| Signing.QueryRecoverable | src/tuya-homebridge/tuyashopenapi.ts:288-289 | The signed query splits back into its `k=v` pairs when no pair contains `&`. |
| Signing.StringToSignLines | src/tuya-homebridge/tuyashopenapi.ts:260-280 | Read line by line, the string-to-sign gives back its parts in order: the upper-cased method, the SHA-256 of the JSON body (or of "" for a falsy body), `client_id:<accessId>`, an empty line, then the URL's lines. |
| Signing.Route | src/tuya-homebridge/tuyashopenapi.ts:234-244 | `get` and `delete` send their argument as the query with a null body. `post` sends no query and its argument as the body. |
| Signing.RouteSigning | src/tuya-homebridge/tuyaopenapi.ts:229-235 | A `post` signs the bare path. A `get` signs the hash of the empty body and the query URL. The methods upper-case to GET/POST/DELETE. |
| Signing.SignMessage | src/tuya-homebridge/tuyaopenapi.ts:244-245 | The signed message is access id, token, decimal timestamp, nonce and string-to-sign, concatenated. |
| Signing.SignShape | src/tuya-homebridge/tuyaopenapi.ts:244-248 | The signature is the HMAC hex with every lower-case letter raised and nothing else changed. |
| Signing.SignMessageParts | src/tuya-homebridge/tuyaopenapi.ts:244-246 | The signed message starts with the access id and ends with the string-to-sign, and the rendered timestamp reads back as itself. |
| Signing.RequestHeaders | src/tuya-homebridge/tuyaopenapi.ts:187-205 | Eleven headers. `sign` is the signature over the given string-to-sign and `access_token` is the token used. |
| Signing.SignedCall | src/tuya-homebridge/tuyaopenapi.ts:184-221 | The call goes to the endpoint and path given. Its method, query and body are those `Route` gives the verb. It carries eleven headers, and its `sign` header covers that method, query and body. |
| DeviceQueries.BatchedList | src/tuya-homebridge/tuyaopenapi.ts:141-166 | An empty id list answers `[]` with no request. Otherwise the answer is the response list and the request carries `device_ids` as `join(",")` renders the ids. |
| DeviceQueries.IdsQueryRecoverable | src/tuya-homebridge/tuyashopenapi.ts:147-153 | The comma-joined `device_ids` splits back into the ids when no id contains a comma. |
| DeviceQueries.IdsQueryParts | src/tuya-homebridge/tuyaopenapi.ts:144-146 | Split at the commas, `device_ids` gives one part per id. An `undefined` or `null` id gives the empty string, and any other id gives `String(id)`. This holds when no id renders with a comma. |
| ShOpenApi.ChunksFlatten | src/tuya-homebridge/tuyashopenapi.ts:117-124 | Concatenating the groups gives back the id list, in order. |
| ShOpenApi.ChunksSizes | src/tuya-homebridge/tuyashopenapi.ts:117-124 | There are no groups exactly when the list is empty. Every group but the last holds exactly `size` ids, and the last holds 1 to `size`. |
| ShOpenApi.ChunksCount | src/tuya-homebridge/tuyashopenapi.ts:117-124 | The number of groups is the ceiling of length / size. |
| ShOpenApi.RefactoringIdsGroup | src/tuya-homebridge/tuyashopenapi.ts:117-124 | The slicing loop returns exactly `Chunks(array, size)`. |
| Values.FieldOf | src/tuya-homebridge/tuyashopenapi.ts:87-90 | One field per record, in record order: the `id` of each device in `getDevices`, the `device_id` of each asset entry in `getDeviceList`. |
| ShOpenApi.MergedDevices | src/tuya-homebridge/tuyashopenapi.ts:97-109 | The merge has one entry per listed device. |
| ShOpenApi.MergedDevicesProperty | src/tuya-homebridge/tuyashopenapi.ts:99-108 | Entry `i` takes each property from the first function record whose `devices[0]` equals device `i`'s id, when that record has the property, and from device `i` otherwise. |
| ShOpenApi.GetDevices | src/tuya-homebridge/tuyashopenapi.ts:76-115 | The groups looked up are the ids chunked by 20, in order. The result is the listed devices merged with the concatenated function records. |
| Values.CollectField | src/tuya-homebridge/tuyaopenapi.ts:90-92 | The push loop collects exactly `FieldOf(records, key)`; the same loop collects the ids in `getDevices`. |
| ShOpenApi.FetchFunctions | src/tuya-homebridge/tuyashopenapi.ts:92-96 | The function records are each group's lookup answer, concatenated in group order. |
| ShOpenApi.MergeLoop | src/tuya-homebridge/tuyashopenapi.ts:97-109 | Each listed device is overlaid with the first function record whose first device is its id, in order. |
| ShOpenApi.ShApi.constructor | src/tuya-homebridge/tuyashopenapi.ts:25-38 | The endpoint comes from the country table for a non-zero country code and is the US endpoint otherwise. The token starts empty with `expire` 0. |
| ShOpenApi.ShApi.RefreshAccessTokenIfNeed | src/tuya-homebridge/tuyashopenapi.ts:40-73 | The endpoint, tokens, uid and expiry become exactly `Refreshed` of the old ones, and `ok` is false exactly when the refresh threw. The only call sent is the login post, signed with the cleared token against the old endpoint, when the refresh runs. |
| ShOpenApi.LoginPathNeverRefreshes | src/tuya-homebridge/tuyashopenapi.ts:40-45 | The login path never refreshes, so the login post's own check cannot recurse. |
| ShOpenApi.GrantedTokenReused | src/tuya-homebridge/tuyashopenapi.ts:47-70 | A grant is stored with its token. Any request made before the token's last minute reuses it without logging in again. |
| ShOpenApi.FailedRefreshRetries | src/tuya-homebridge/tuyashopenapi.ts:47-63 | A failed refresh throws and leaves the token cleared with the old expiry, so the next request off the login path tries again. |
| ShOpenApi.EndpointFromGrant | src/tuya-homebridge/tuyashopenapi.ts:64 | The endpoint stays as it is unless a grant carries a non-empty `platform_url`, which then becomes the endpoint. |
| ShOpenApi.ShApi.Request | src/tuya-homebridge/tuyashopenapi.ts:173-232 | The state becomes `Refreshed` of the old one. If the refresh throws, the answer is `undefined` and no call follows it. Otherwise exactly one call goes out after the refresh's calls, signed with the token and sent to the endpoint the refresh left. |
| OpenApi.IsLoginFalseForStrings | src/tuya-homebridge/tuyaopenapi.ts:75-77 | `isLogin` is false for every string token. |
| OpenApi.StringTokenNeverRefreshes | src/tuya-homebridge/tuyaopenapi.ts:32-43 | With a string token the refresh returns at once for every path, time and answer. The session is unchanged and nothing is fetched. |
| OpenApi.NullishTokenBlocksRequests | src/tuya-homebridge/tuyaopenapi.ts:75-77 | With an `undefined` or `null` token the `isLogin` check throws. The session is unchanged and nothing is fetched. |
| OpenApi.CollectedIdsAppend | src/tuya-homebridge/tuyaopenapi.ts:85-92 | Each asset's ids follow all earlier assets' ids, in that asset's list order. |
| OpenApi.MergedDeviceList | src/tuya-homebridge/tuyaopenapi.ts:97-109 | The merge has one entry per info record. |
| OpenApi.MergeDeviceProperty | src/tuya-homebridge/tuyaopenapi.ts:100-107 | Each property comes from the status record matched by `id` if that record has it, else from the functions, else from the info record. The status record is overlaid last. |
| OpenApi.GetDeviceList | src/tuya-homebridge/tuyaopenapi.ts:80-167 | Ids are collected asset by asset. For an empty id list, neither batched lookup sends a request and the result is `[]`. Otherwise the info and status lookups both send the comma-joined `device_ids` query, and the result is the merged list. |
| OpenApi.AssetLists | src/tuya-homebridge/tuyaopenapi.ts:85-88 | One device list per asset, each the lookup of that asset's id, in asset order. |
| OpenApi.ConcatAssets | src/tuya-homebridge/tuyaopenapi.ts:83-88 | The device entries are the assets' lists concatenated in asset order. |
| OpenApi.MergeInfos | src/tuya-homebridge/tuyaopenapi.ts:97-109 | Each info record is overlaid with its functions and its status entry, in info order. |
| OpenApi.Api.constructor | src/tuya-homebridge/tuyaopenapi.ts:12-30 | The token starts as "" with `expire` 0. |
| OpenApi.Api.RefreshAccessTokenIfNeed | src/tuya-homebridge/tuyaopenapi.ts:32-56 | The tokens, uid and expiry become exactly `Refreshed` of the old ones. The check throws for an undefined or null token. The session is unchanged unless the token is logged in, off the token path and within 60 s of expiry. Then the token is cleared, `/v1.0/token/<refreshToken>` is fetched, and the answer is stored with `expire*1000 + now`. |
| OpenApi.Api.Request | src/tuya-homebridge/tuyaopenapi.ts:176-227 | The session becomes `Refreshed` of the old one. A throwing check or refresh propagates and no call follows. Otherwise exactly one call goes out after the refresh's calls, signed with the token the refresh left, or with "" when that token is falsy. |
| OpenApi.Api.Login | src/tuya-homebridge/tuyaopenapi.ts:58-73 | The post's own refresh runs first. If it throws, nothing is posted and the result is `undefined`. Otherwise the user name and the lower-cased SHA-256 of the password are posted, and the result is the login answer. The answer's tokens and uid are stored with `expire + now`, unscaled; without an answer the session is as the refresh left it. |
| OpenMq.MessageKey | src/tuya-homebridge/tuyamqttapi.ts:126 | The key is `password.substring(8, 24)`: characters 8 to 23, fewer for a short password, and never more than 16. |
| OpenMq.FrameRoundTrip | src/tuya-homebridge/tuyamqttapi.ts:139-150 | A payload laid out as 4-byte big-endian IV length, IV, ciphertext and a 16-byte tag splits back into exactly that IV, ciphertext and tag. |
| OpenMq.SplitFrameRanges | src/tuya-homebridge/tuyamqttapi.ts:139-150 | For a long enough buffer: the IV is bytes [4, 4+n), the ciphertext [4+n, len-16) and the tag the last 16 bytes, and the pieces put back together give the buffer. |
| OpenMq.Aad | src/tuya-homebridge/tuyamqttapi.ts:152-154 | The AAD exists exactly when 0 <= t < 256^6, since `writeUIntBE` throws otherwise, and it is 6 bytes. |
| OpenMq.AadRoundTrip | src/tuya-homebridge/tuyamqttapi.ts:152-154 | 256^6 is 2^48. The AAD reads back big-endian as `t`. |
| OpenMq.DecoderInputs | src/tuya-homebridge/tuyamqttapi.ts:107-111 | Type "2.0" decrypts with GCM using the derived key, the framed IV, tag and ciphertext, and the AAD of `t`. A short buffer or an out-of-range `t` fails. Any other type decrypts with ECB and the same key. |
| OpenMq.DecodeEnvelope | src/tuya-homebridge/tuyamqttapi.ts:105-111 | The envelope decodes exactly when `data` is a string, `t` is a number for type 2.0, the decoder succeeds and the text parses. Then `data` is replaced by the parsed value and every other property stays. A non-string `data` is a TypeError. |
| OpenMq.RemoveListener | src/tuya-homebridge/tuyamqttapi.ts:164-166 | Removal leaves exactly the other listeners. |
| OpenMq.AddListenerProperties | src/tuya-homebridge/tuyamqttapi.ts:160-162 | Adding a listener already present changes nothing, a new one goes last, the set stays duplicate-free, and adding twice is adding once. |
| OpenMq.RemoveListenerProperties | src/tuya-homebridge/tuyamqttapi.ts:164-166 | Removal deletes only that listener's one occurrence and keeps the others in order. |
| OpenMq.RemoveListenerDistinct | src/tuya-homebridge/tuyamqttapi.ts:164-166 | The listeners left after a removal are still distinct. |
| OpenMq.RemoveListenerExact | src/tuya-homebridge/tuyamqttapi.ts:164-166 | With distinct listeners, a present listener is removed at its one position and an absent one leaves the listeners unchanged. |
| OpenMq.RemoveAbsentListener | src/tuya-homebridge/tuyamqttapi.ts:164-166 | Deleting a listener the set does not hold leaves the listeners unchanged. |
| OpenMq.RemoveListenerAt | src/tuya-homebridge/tuyamqttapi.ts:164-166 | With distinct listeners, deleting the one at position i leaves those before and after it, in order. |
| OpenMq.Deliveries | src/tuya-homebridge/tuyamqttapi.ts:117-121 | On the device topic, every listener gets the data, in set order. On any other topic, none does. |
| OpenMq.RefusedConfigStops | src/tuya-homebridge/tuyamqttapi.ts:39-44 | A config answer with `success == false` stops the channel: `running` becomes false, the current client is ended, and nothing new connects. The one access-config post that asked for it is recorded. |
| OpenMq.AcceptedReplies | src/tuya-homebridge/tuyamqttapi.ts:40-46 | The successful config answers carry the given configs one for one, in order. |
| OpenMq.AcceptedConfigsConnect | src/tuya-homebridge/tuyamqttapi.ts:38-80 | Each accepted config opens one connection, in order. The channel keeps running, and the client and device topic end as the last config's. |
| OpenMq.ClientIds | src/tuya-homebridge/tuyamqttapi.ts:58-75 | The ids of consecutively opened clients, in order. |
| OpenMq.AcceptedConfigsEnd | src/tuya-homebridge/tuyamqttapi.ts:72-75 | Each accepted config ends the client before it. The client held beforehand is ended first, if any, then every client the loop opened except the newest, in opening order. |
| OpenMq.AcceptedConfigsSleep | src/tuya-homebridge/tuyamqttapi.ts:38-80 | Each accepted config requests one sleep of `(expire_time - 60) * 1000` ms, in order, after the earlier sleeps. |
| OpenMq.AcceptedConfigsPost | src/tuya-homebridge/tuyamqttapi.ts:82-91 | Each accepted config is fetched by one access-config post, in order, after the earlier posts, and every post carries the same body. |
| OpenMq.UnansweredConfigEnds | src/tuya-homebridge/tuyamqttapi.ts:40-41 | A post whose answer is `undefined` is still recorded. Reading `success` then throws, so the loop ends with nothing else changed and `running` still set. |
| OpenMq.StoppedLoopIdles | src/tuya-homebridge/tuyamqttapi.ts:31-39 | After `stop`, the loop runs no cycle. |
| OpenMq.StopTwice | src/tuya-homebridge/tuyamqttapi.ts:31-36 | Stopping twice leaves `running` false and the client in place, and ends that client twice. |
| OpenMq.Mq.constructor | src/tuya-homebridge/tuyamqttapi.ts:10-24 | Not running, no client, empty device topic, no listeners, nothing posted. `LINK_ID` is fixed for the channel. |
| OpenMq.Mq.Start | src/tuya-homebridge/tuyamqttapi.ts:26-29 | Sets `running`, then runs the loop over the config answers, posting the access-config body for the API's uid. |
| OpenMq.Mq.Stop | src/tuya-homebridge/tuyamqttapi.ts:31-36 | `running` becomes false and the current client, if any, is ended. |
| OpenMq.Mq.LoopStart | src/tuya-homebridge/tuyamqttapi.ts:38-91 | The while loop leaves exactly the state `RunLoop` describes for the body `AccessConfigBody(uid, LINK_ID, "mqtt", type)`, and it keeps the listeners. |
| OpenMq.Mq.RunCycle | src/tuya-homebridge/tuyamqttapi.ts:39-78 | One pass of the loop body leaves exactly the state and the go-on flag `Cycle` gives: the post, then a stop, an end, or a connect and replace. The listeners are unchanged. |
| OpenMq.Mq.AddMessageListener | src/tuya-homebridge/tuyamqttapi.ts:160-162 | The listeners become `AddListener(old, l)` and stay distinct. |
| OpenMq.Mq.RemoveMessageListener | src/tuya-homebridge/tuyamqttapi.ts:164-166 | The listeners become `RemoveListener(old, l)` and stay distinct. |
| OpenMq.Mq.OnMessage | src/tuya-homebridge/tuyamqttapi.ts:105-122 | The envelope is decoded with that connection's password. The listeners receive the data only when decoding succeeds and the topic is the device topic. |
| OpenMq.Mq.Deliver | src/tuya-homebridge/tuyamqttapi.ts:117-121 | The listener loop appends exactly `Deliveries` to the delivered log: every listener in order when the topic matched, and nothing otherwise. |
| OpenMq.AccessConfigBody | src/tuya-homebridge/tuyamqttapi.ts:82-91 | The config request body holds uid, link id, link type, `topics: "device"` and the encryption version, in that order. `Mq.LoopStart` posts it with link type "mqtt" on every cycle. |
| TuyaClient.CategoryName | src/tuya-homebridge/client.ts:71-108 | Each listed code maps to its name (dj/dd/fwd/tgq/xdd/dc/tgkg are Light, cz/pc Outlet, kg/tdq Switch, fs/fskg Fan, …). The name is "Unknown" exactly for unlisted values. |
| TuyaClient.Variant | src/tuya-homebridge/client.ts:128-173 | Project type "1" selects `TuyaOpenAPI`; anything else selects `TuyaSHOpenAPI`. |
| TuyaClient.EncryptionVersion | src/tuya-homebridge/client.ts:182 | Project type "1" selects "2.0"; anything else selects "1.0". |
| TuyaClient.ProjectTypeSelectsDecoder | src/tuya-homebridge/client.ts:182-183 | Custom projects decode MQ messages with GCM and the others with ECB. |
| TuyaClient.CommandPayload | src/tuya-homebridge/client.ts:236-240 | The payload is `{commands: [{code, value}]}` and reads back as the given code and value. |
| TuyaClient.Projection | src/tuya-homebridge/client.ts:200-209 | The "device" event carries exactly id, online, name, category, categoryName and functions, in that order, copied from the device apart from the looked-up category name. |
| TuyaClient.AllEvents | src/tuya-homebridge/client.ts:177-180 | Adding n devices emits 2n events. |
| TuyaClient.AllEventsOrder | src/tuya-homebridge/client.ts:191-210 | For each device in order: a "device" event with its projection, then a "status" event with its id and status. |
| TuyaClient.StoredUntouched | src/tuya-homebridge/client.ts:191-192 | A key no added device has keeps its previous value, or stays absent. |
| TuyaClient.StoredLatest | src/tuya-homebridge/client.ts:191-192 | A device id's slot holds the last device added with that id. |
| TuyaClient.RouteMessage | src/tuya-homebridge/client.ts:213-230 | No truthy `bizCode` gives a status report for `devId`. "delete" gives a deletion and "bindUser" a bind of `bizData.devId`, which throws without `bizData`. Any other code is ignored. |
| TuyaClient.BoundDevice | src/tuya-homebridge/client.ts:224 | `Object.assign(info, functions)` throws exactly for an undefined or null info. For an object info it overlays the functions on the info. |
| TuyaClient.Client.constructor | src/tuya-homebridge/client.ts:110-121 | No devices, events or calls. |
| TuyaClient.Client.AddAccessory | src/tuya-homebridge/client.ts:191-198 | Stores the device under `String(id)`, then emits "device" and "status". |
| TuyaClient.Client.Init | src/tuya-homebridge/client.ts:177-186 | Adds every device in order and chooses the encryption version from the project type. |
| TuyaClient.Client.AddAll | src/tuya-homebridge/client.ts:177-180 | The for-of loop leaves the stored props as `Stored` of the devices in order and appends `AllEvents` of them, whose order `AllEventsOrder` states. |
| TuyaClient.Client.OnMqttMessage | src/tuya-homebridge/client.ts:213-230 | A status message emits one "status" event. "delete" removes only the Map entry, and the stored devices are unchanged. "bindUser" fetches info then functions and adds the merged device when both succeed. Anything else changes nothing. |
| TuyaClient.Client.OnBindUser | src/tuya-homebridge/client.ts:217-226 | The "bindUser" branch. It issues the info read, and then the functions read only when info answered. When both answered and the merged device is complete, that device is stored and announced. Otherwise props and events are unchanged. |
| TuyaClient.Client.SendCommand | src/tuya-homebridge/client.ts:236-240 | Posts the command payload to the chosen API's `devices/<id>/commands` path. |
| DataUtil.SubServices | src/tuya-homebridge/util/datautil.ts:4-16 | The result has at most as many codes as there are entries, and none for an empty list. |
| DataUtil.GetSubService | src/tuya-homebridge/util/datautil.ts:4-16 | The loop returns exactly `SubServices(status)`. |
| DataUtil.SubServicesAppend | src/tuya-homebridge/util/datautil.ts:6-11 | The filter distributes over concatenation: order is kept, and a code appears once per qualifying occurrence. |
| DataUtil.SubServicesSingle | src/tuya-homebridge/util/datautil.ts:7-11 | One entry contributes its code exactly when the code contains "switch" and the value is boolean. |
| DataUtil.SubServicesSound | src/tuya-homebridge/util/datautil.ts:7-9 | Every code returned belongs to an entry whose code contains "switch" and whose value is boolean. |
| DataUtil.SubServicesComplete | src/tuya-homebridge/util/datautil.ts:6-11 | Every qualifying entry's code is returned. |
| DataUtil.QualifiesIff | src/tuya-homebridge/util/datautil.ts:7-8 | An entry qualifies exactly when "switch" occurs in its code at some index and its value is boolean. |
| Bridge.MergeConfig | src/main.ts:21-29 | Spreading an undefined, null, boolean or numeric configuration leaves the defaults. |
| Bridge.MergeConfigIndexed | src/main.ts:21-29 | Spreading an array adds element `i` under the name `${i}`. |
| Bridge.MergeConfigKeepsDefaults | src/main.ts:21-29 | Spreading an array keeps every default property. |
| Bridge.MergeConfigString | src/main.ts:21-29 | Spreading a string is spreading the array of its one-character strings. |
| Bridge.MergeConfigFields | src/main.ts:21-29 | Each field the service configuration sets wins; the others take the defaults. |
| Bridge.MergeConfigOrder | src/main.ts:21-29 | The defaults' fields come first, in order. |
| Bridge.DefaultValues | src/main.ts:22-26 | The defaults are projectType "2", appSchema "smartlife", lang "en" and debug false. |
| Bridge.DeviceMessage | src/main.ts:31-33 | The device event is published unchanged on `~/status/<id>`. |
| Bridge.DeviceTopicSegments | src/main.ts:31-38 | The device topic splits into `~`, `status` and the id, and it prefixes that device's status topics. |
| Bridge.StatusMessages | src/main.ts:34-39 | There are at most as many messages as status entries. |
| Bridge.PublishStatus | src/main.ts:34-40 | The loop with `continue` publishes exactly `StatusMessages(id, status)`. |
| Bridge.StatusMessagesAppend | src/main.ts:35-39 | Publications follow the entries' order. |
| Bridge.StatusMessagesSingle | src/main.ts:36-38 | An entry is published on `~/status/<id>/<code>` with its value exactly when its code is truthy. |
| Bridge.StatusTopicSegments | src/main.ts:38 | A status topic splits back into `~`, `status`, the id and the code. |
| Bridge.ParseSetTopic | src/main.ts:45-46 | A topic not starting with `~/set/` yields no command. |
| Bridge.SetTopicRoundTrip | src/main.ts:45-46 | `~/set/<dev>/<cmd>` followed by any further segments yields `dev` and `cmd`. |
| Bridge.SetTopicWithoutCommand | src/main.ts:45-46 | `~/set/<dev>` yields `dev` and an undefined command. |
| Bridge.OnSetMessage | src/main.ts:42-54 | A `~/set/` topic posts the command for segments 2 and 3 with the data unchanged. Any other topic sends nothing. |
| Values.AssignGet | src/tuya-homebridge/tuyashopenapi.ts:101-107 | `Object.assign` is right-biased: a property comes from the source if the source has it, and from the target otherwise. |
| Values.Indexed | src/main.ts:28 | An array or string used as a source contributes element `i` under the name `${i}`, in index order. |
| Values.Chars | src/main.ts:28 | A string's elements are its one-character strings, in order. |
| Values.IndexedGet | src/main.ts:28 | Element `i` reads back under `${i}`: decimal names never collide. |
| Values.NotIndexedKey | src/main.ts:21-29 | A name that does not start with a digit is not an indexed name. |
| Values.Props | src/tuya-homebridge/tuyaopenapi.ts:101-106 | `undefined`, `null`, booleans and numbers contribute no properties as `Object.assign` sources. |
| Values.FindByFirst | src/tuya-homebridge/tuyashopenapi.ts:104-106 | `find` returns the first matching record, and nothing exactly when no record matches. |
| Bytes.ToBigEndianRoundTrip | src/tuya-homebridge/tuyamqttapi.ts:139 | Reading `k` bytes big-endian gives a value below 256^k, and writing it back gives the same bytes. |

## Left out

- I/O is abstract. HTTP (axios), MQTT connect/subscribe/end, `mqtt-usvc` publishing and the `setTimeout` sleeps are recorded as calls, connections, ended clients, sleeps and events. Network answers are parameters.
- The digests, ciphers, base64, UTF-8, JSON parsing and serialisation, and the country table are foreign calls, passed as function values. Key and IV length errors happen inside `gcmUpdate`. GCM tag verification is not modelled, because the source never calls `final()`.
- `uuid()` (the nonce and `LINK_ID`) and `new Date().getTime()` are parameters. One `now` serves each operation, including a refresh inside a request.
- Numbers are integers. Floating point, `NaN` and string-to-number coercion are not modelled beyond the cases named in the members.
- Property order follows insertion. The JavaScript rule that puts integer-like keys first is not modelled.
- Concurrency is not modelled: the REST path racing the MQ loop, a `stop` arriving during a sleep, async listener exceptions.
- `getAssets`, `getDeviceIDList`, `getDeviceInfo`, `getDeviceFunctions` and `getDeviceStatus` each make one `get`, covered by `Request`. Their answers enter `GetDeviceList`, `GetDevices` and `OnMqttMessage` as parameters. The refresh each nested call could make is not repeated there.
- `removeDevice` in `TuyaSHOpenAPI` is one `delete` call, covered by `Signing.Route` and `ShApi.Request`. Nothing calls it.
- The hard-coded `sendCommand` at start-up in `main.ts` is left out: it is a side effect only.
- Logging (`logutil.ts`) and type declarations (`config.ts`) are left out: they carry no behaviour. `countryutil.ts` is not part of this model.
- Thrown errors for malformed responses are left out: a missing `result`, `devices`, `list` or `source_topic`, and a non-array status list.
- OpenMq.DecodeEnvelope: a non-string `data` or a non-number `t` is treated as a throw. Node would coerce `t` (an undefined `t` writes six zero bytes).
- OpenMq.Mq.OnMessage: the envelope arrives already parsed. `JSON.parse` of the raw payload is a foreign call.
- OpenMq.RunLoop: `success == false` is matched for a boolean `false` only, not for `0`, `""` or the other values `==` equates with `false`.
- TuyaClient.IsCustom: loose equality with "1" covers strings, numbers and booleans, not objects or arrays converted through `toString`.
- TuyaClient.RouteMessage: the message is an object. `null` or primitive messages and `==` comparisons of `bizCode` with objects are not modelled.
- TuyaClient.BoundDevice: a primitive info is wrapped as its indexed elements (a string) or as no properties (a number or boolean). The wrapper's built-in properties, such as `length`, are not modelled.
- Bridge.PublishStatus: status entries are records. `null` entries (which throw) and primitive entries are not modelled.
- OpenMq.Cycle: access-config posts, opened connections and ended clients are kept in separate logs. The model therefore does not capture that the new client connects and subscribes before the previous client is ended. Within a cycle, the post comes first by construction.
- OpenMq.Mq.LoopStart: the uid in the access-config body is read once for the whole loop. The source reads `api.tokenInfo.uid` again on every cycle, so a uid changed by a login or refresh between cycles is not modelled.
- Values.Props: records may hold duplicate names, which a JavaScript object cannot. `Get` reads the last one, but `Signing.CanonicalUrl` renders every one where `for ... in` would visit each name once. The model does not promise distinct names.
- OpenMq.MessageKey: strings are sequences of Unicode scalar values. `substring(8, 24)` counts UTF-16 code units, so a password with characters outside the Basic Multilingual Plane yields a different key. The same holds for the string indices in `Values.Chars`.
