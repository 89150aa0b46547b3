/** `TuyaOpenMQ`, the push channel: the broker-config loop with its
    start/stop/replace state and sleep arithmetic, the two message decoders
    (the v2.0 buffer framing, the 6-byte AAD and the key derived from the
    broker password), topic-guarded dispatch, and the listener set. The
    ciphers, base64, UTF-8 and JSON parsing are foreign calls and enter as the
    fields of a `Ciphers` value. */
module OpenMq {
  import opened Values
  import opened Text
  import opened Bytes

  const GcmTagLength := 16
  const AccessConfigPath := "/v1.0/iot-03/open-hub/access-config"

  /** The foreign calls the decoders make. `gcmUpdate(key, iv, tag, aad,
      ciphertext)` is AES-128-GCM decryption (NIST SP 800-38D) as
      `createDecipheriv` + `setAuthTag` + `setAAD` + `update` run it, `None`
      when one of them throws; no `final()` is called, so the tag is never
      checked. `ecbDecrypt(base64, key)` is crypto-js AES-128-ECB with PKCS#7
      padding (RFC 5652 section 6.3) read back as UTF-8, `None` when that
      throws. */
  datatype Ciphers = Ciphers(
    base64Decode: string -> seq<Byte>,
    gcmUpdate: (string, seq<Byte>, seq<Byte>, seq<Byte>, seq<Byte>) -> Option<seq<Byte>>,
    utf8Decode: seq<Byte> -> string,
    ecbDecrypt: (string, string) -> Option<string>,
    jsonParse: string -> Option<Value>)

  /** The key both decoders use: `password.substring(8, 24)`. */
  function MessageKey(password: string): (key: string)
    ensures |password| >= 24 ==> key == password[8..24]
    ensures 8 <= |password| < 24 ==> key == password[8..]
    ensures |password| <= 8 ==> key == ""
    ensures |key| <= 16
  {
    JsSubstring(password, 8, 24)
  }

  /** The three parts of a v2.0 payload. */
  datatype Frame = Frame(iv: seq<Byte>, ciphertext: seq<Byte>, tag: seq<Byte>)

  /** `_decodeMQMessage`'s slicing: the IV length is the first four bytes
      read big-endian (`readUIntBE` throws on a shorter buffer), then the IV,
      the ciphertext up to the last 16 bytes, and those 16 bytes as the tag,
      each cut with `slice`'s clamping. */
  function SplitFrame(buf: seq<Byte>): Result<Frame> {
    if |buf| < 4 then Err("ERR_OUT_OF_RANGE")
    else
      var ivLength := BigEndian(buf[..4]);
      Ok(Frame(Slice(buf, 4, ivLength + 4),
               Slice(buf, ivLength + 4, |buf| - GcmTagLength),
               Slice(buf, |buf| - GcmTagLength, |buf|)))
  }

  /** How a sender lays out a v2.0 payload. */
  function EncodeFrame(f: Frame): seq<Byte>
    requires |f.iv| < Pow256(4)
  {
    ToBigEndian(|f.iv|, 4) + f.iv + f.ciphertext + f.tag
  }

  /** Splitting a well-formed payload gives back its IV, ciphertext and tag. */
  lemma FrameRoundTrip(f: Frame)
    requires |f.iv| < Pow256(4) && |f.tag| == GcmTagLength
    ensures SplitFrame(EncodeFrame(f)) == Ok(f)
  {
    var n := |f.iv|;
    var buf := EncodeFrame(f);
    var len := |buf|;
    assert len == 4 + n + |f.ciphertext| + GcmTagLength;
    assert buf[..4] == ToBigEndian(n, 4);
    BigEndianRoundTrip(n, 4);
    assert SliceIndex(4, len) == 4 && SliceIndex(n + 4, len) == n + 4;
    assert SliceIndex(len - GcmTagLength, len) == len - GcmTagLength && SliceIndex(len, len) == len;
    assert buf[4..n + 4] == f.iv;
    assert buf[n + 4..len - GcmTagLength] == f.ciphertext;
    var front := ToBigEndian(n, 4) + f.iv + f.ciphertext;
    assert buf == front + f.tag && |front| == len - GcmTagLength;
    assert forall i :: 0 <= i < GcmTagLength ==> buf[len - GcmTagLength..len][i] == buf[|front| + i] == f.tag[i];
    assert buf[len - GcmTagLength..len] == f.tag;
  }

  /** For a buffer long enough to hold its header, IV and tag, the parts are
      the plain sub-ranges and put back together give the buffer. */
  lemma SplitFrameRanges(buf: seq<Byte>)
    requires |buf| >= 4
    requires 4 + BigEndian(buf[..4]) + GcmTagLength <= |buf|
    ensures var n := BigEndian(buf[..4]);
            var f := SplitFrame(buf).value;
            && SplitFrame(buf).Ok?
            && f.iv == buf[4..4 + n]
            && f.ciphertext == buf[4 + n..|buf| - GcmTagLength]
            && f.tag == buf[|buf| - GcmTagLength..]
            && |f.tag| == GcmTagLength
            && buf[..4] + f.iv + f.ciphertext + f.tag == buf
  {
    var n := BigEndian(buf[..4]);
    assert buf[..4] + buf[4..4 + n] + buf[4 + n..|buf| - 16] + buf[|buf| - 16..] == buf;
  }

  /** The additional authenticated data: `t` written as a 6-byte unsigned
      big-endian integer (`writeUIntBE` throws outside [0, 2^48)). */
  function Aad(t: int): (r: Result<seq<Byte>>)
    ensures r.Ok? <==> 0 <= t < Pow256(6)
    ensures r.Ok? ==> |r.value| == 6
  {
    if 0 <= t < Pow256(6) then Ok(ToBigEndian(t, 6)) else Err("ERR_OUT_OF_RANGE")
  }

  /** The AAD reads back as `t`, and 2^48 is the bound. */
  lemma AadRoundTrip(t: int)
    requires 0 <= t < 0x1_0000_0000_0000
    ensures Pow256(6) == 0x1_0000_0000_0000
    ensures Aad(t).Ok? && BigEndian(Aad(t).value) == t
  {
    assert Pow256(6) == 256 * 256 * 256 * 256 * 256 * 256;
    BigEndianRoundTrip(t, 6);
  }

  /** `_decodeMQMessage(data, password, t)`: the v2.0 decoder. */
  function DecodeGcm(data: string, password: string, t: int, c: Ciphers): Result<string> {
    var buf := c.base64Decode(data);
    var key := MessageKey(password);
    match SplitFrame(buf)
    case Err(e) => Err(e)
    case Ok(f) =>
      match Aad(t)
      case Err(e) => Err(e)
      case Ok(aad) =>
        match c.gcmUpdate(key, f.iv, f.tag, aad, f.ciphertext)
        case None => Err("decipher")
        case Some(plain) => Ok(c.utf8Decode(plain))
  }

  /** `_decodeMQMessage_1_0(data, password)`: the v1.0 decoder. */
  function DecodeEcb(data: string, password: string, c: Ciphers): Result<string> {
    match c.ecbDecrypt(data, MessageKey(password))
    case None => Err("decrypt")
    case Some(text) => Ok(text)
  }

  /** The decoder `_onMessage` picks: v2.0 (GCM, with `t`) for type "2.0",
      v1.0 (ECB) for any other type. */
  function Decode(msgType: string, data: string, password: string, t: int, c: Ciphers): Result<string> {
    if msgType == "2.0" then DecodeGcm(data, password, t, c) else DecodeEcb(data, password, c)
  }

  /** The GCM decoder hands the cipher exactly the key, the framed parts of
      the payload and the 6-byte AAD of `t`; the ECB decoder hands it the
      same key. */
  lemma DecoderInputs(msgType: string, data: string, password: string, t: int, c: Ciphers)
    ensures msgType == "2.0" && SplitFrame(c.base64Decode(data)).Ok? && 0 <= t < Pow256(6) ==>
              var f := SplitFrame(c.base64Decode(data)).value;
              Decode(msgType, data, password, t, c) ==
                match c.gcmUpdate(MessageKey(password), f.iv, f.tag, ToBigEndian(t, 6), f.ciphertext)
                case None => Err("decipher")
                case Some(plain) => Ok(c.utf8Decode(plain))
    ensures msgType == "2.0" && |c.base64Decode(data)| < 4 ==> Decode(msgType, data, password, t, c).Err?
    ensures msgType == "2.0" && !(0 <= t < Pow256(6)) ==> Decode(msgType, data, password, t, c).Err?
    ensures msgType != "2.0" ==>
              Decode(msgType, data, password, t, c) ==
                if c.ecbDecrypt(data, MessageKey(password)).Some?
                then Ok(c.ecbDecrypt(data, MessageKey(password)).value) else Err("decrypt")
  {
  }

  /** `_onMessage`'s rewrite of the envelope: `data` is decoded with the
      connection's password and parsed, and replaces the envelope's `data`.
      A non-string `data`, a non-numeric `t` (v2.0), a decoder failure or a
      parse failure throws. */
  function DecodeEnvelope(msgType: string, envelope: Record, password: string, c: Ciphers): (r: Result<Record>)
    ensures r.Ok? <==>
              && Get(envelope, "data").Str?
              && (msgType == "2.0" ==> Get(envelope, "t").Num?)
              && var t := if msgType == "2.0" then Get(envelope, "t").n else 0;
                 var text := Decode(msgType, Get(envelope, "data").s, password, t, c);
                 && text.Ok?
                 && c.jsonParse(text.value).Some?
    ensures r.Ok? ==>
              var t := if msgType == "2.0" then Get(envelope, "t").n else 0;
              Get(r.value, "data") == c.jsonParse(Decode(msgType, Get(envelope, "data").s, password, t, c).value).value
    ensures r.Ok? ==> forall k :: k != "data" ==> Get(r.value, k) == Get(envelope, k)
    ensures !Get(envelope, "data").Str? ==> r == Err("TypeError")
  {
    var data := Get(envelope, "data");
    var t := Get(envelope, "t");
    if !data.Str? || (msgType == "2.0" && !t.Num?) then Err("TypeError")
    else
      match Decode(msgType, data.s, password, if msgType == "2.0" then t.n else 0, c)
      case Err(e) => Err(e)
      case Ok(text) =>
        match c.jsonParse(text)
        case None => Err("SyntaxError")
        case Some(v) => Ok(Put(envelope, "data", v))
  }

  /** `addMessageListener`: a `Set` keeps insertion order and ignores a
      listener it already holds. */
  function AddListener(ls: seq<nat>, l: nat): seq<nat> {
    if l in ls then ls else ls + [l]
  }

  /** `removeMessageListener`: deletes that listener only. */
  function RemoveListener(ls: seq<nat>, l: nat): (r: seq<nat>)
    ensures forall x :: x in r <==> x in ls && x != l
  {
    if ls == [] then []
    else if ls[0] == l then RemoveListener(ls[1..], l)
    else [ls[0]] + RemoveListener(ls[1..], l)
  }

  predicate NoDuplicates(ls: seq<nat>) {
    forall i, j :: 0 <= i < j < |ls| ==> ls[i] != ls[j]
  }

  /** Adding keeps the listeners distinct, adds the new one last, leaves the
      set unchanged when it is already there, and adding twice is adding
      once. */
  lemma AddListenerProperties(ls: seq<nat>, l: nat)
    requires NoDuplicates(ls)
    ensures NoDuplicates(AddListener(ls, l))
    ensures l in AddListener(ls, l)
    ensures l in ls ==> AddListener(ls, l) == ls
    ensures l !in ls ==> AddListener(ls, l) == ls + [l]
    ensures AddListener(AddListener(ls, l), l) == AddListener(ls, l)
  {
  }

  /** Removing keeps the remaining listeners distinct and in their order:
      it removes exactly the one occurrence of `l`. */
  lemma RemoveListenerProperties(ls: seq<nat>, l: nat)
    requires NoDuplicates(ls)
    ensures NoDuplicates(RemoveListener(ls, l))
    ensures l in ls ==> exists i :: 0 <= i < |ls| && ls[i] == l && RemoveListener(ls, l) == ls[..i] + ls[i + 1..]
    ensures l !in ls ==> RemoveListener(ls, l) == ls
  {
    RemoveListenerDistinct(ls, l);
    RemoveListenerExact(ls, l);
  }

  /** The listeners left after a removal are still distinct. */
  lemma {:induction false} RemoveListenerDistinct(ls: seq<nat>, l: nat)
    requires NoDuplicates(ls)
    ensures NoDuplicates(RemoveListener(ls, l))
    decreases |ls|
  {
    if ls != [] {
      DistinctTail(ls);
      RemoveListenerDistinct(ls[1..], l);
      if ls[0] != l {
        DistinctCons(ls[0], RemoveListener(ls[1..], l));
      }
    }
  }

  lemma DistinctTail(ls: seq<nat>)
    requires ls != [] && NoDuplicates(ls)
    ensures NoDuplicates(ls[1..]) && ls[0] !in ls[1..]
  {
    forall i, j | 0 <= i < j < |ls[1..]| ensures ls[1..][i] != ls[1..][j] {
      assert ls[1..][i] == ls[i + 1] && ls[1..][j] == ls[j + 1];
    }
    forall j | 0 <= j < |ls[1..]| ensures ls[1..][j] != ls[0] {
      assert ls[1..][j] == ls[j + 1];
    }
  }

  lemma DistinctCons(x: nat, rest: seq<nat>)
    requires x !in rest && NoDuplicates(rest)
    ensures NoDuplicates([x] + rest)
  {
    forall i, j | 0 <= i < j < |[x] + rest| ensures ([x] + rest)[i] != ([x] + rest)[j] {
      assert ([x] + rest)[j] == rest[j - 1];
      if i > 0 {
        assert ([x] + rest)[i] == rest[i - 1];
      }
    }
  }

  /** With distinct listeners, removal drops the one occurrence of `l` and
      keeps everything else in order. */
  lemma RemoveListenerExact(ls: seq<nat>, l: nat)
    requires NoDuplicates(ls)
    ensures l in ls ==> exists i :: 0 <= i < |ls| && ls[i] == l && RemoveListener(ls, l) == ls[..i] + ls[i + 1..]
    ensures l !in ls ==> RemoveListener(ls, l) == ls
  {
    if l in ls {
      var i :| 0 <= i < |ls| && ls[i] == l;
      RemoveListenerAt(ls, i);
    } else {
      RemoveAbsentListener(ls, l);
    }
  }

  /** Removing a listener the set does not hold changes nothing. */
  lemma {:induction false} RemoveAbsentListener(ls: seq<nat>, l: nat)
    requires l !in ls
    ensures RemoveListener(ls, l) == ls
    decreases |ls|
  {
    if ls != [] {
      assert l !in ls[1..];
      RemoveAbsentListener(ls[1..], l);
      assert [ls[0]] + ls[1..] == ls;
    }
  }

  /** With distinct listeners, removing the one at position `i` leaves the
      others around it in order. */
  lemma {:induction false} RemoveListenerAt(ls: seq<nat>, i: nat)
    requires NoDuplicates(ls) && i < |ls|
    ensures RemoveListener(ls, ls[i]) == ls[..i] + ls[i + 1..]
    decreases |ls|
  {
    var tail := ls[1..];
    DistinctTail(ls);
    if i == 0 {
      RemoveAbsentListener(tail, ls[0]);
      assert ls[..0] + ls[1..] == tail;
    } else {
      assert ls[i] == tail[i - 1] && ls[0] != ls[i];
      RemoveListenerAt(tail, i - 1);
      assert RemoveListener(ls, ls[i]) == [ls[0]] + tail[..i - 1] + tail[i..];
      assert ls[..i] == [ls[0]] + tail[..i - 1];
      assert ls[i + 1..] == tail[i..];
    }
  }

  /** What one message hands to the listeners: the decoded data to each
      listener in set order when the topic is the device topic, nothing
      otherwise. */
  function Deliveries(ls: seq<nat>, topicMatches: bool, data: Value): (r: seq<(nat, Value)>)
    ensures topicMatches ==> |r| == |ls| && forall i :: 0 <= i < |ls| ==> r[i] == (ls[i], data)
    ensures !topicMatches ==> r == []
  {
    if topicMatches then seq(|ls|, i requires 0 <= i < |ls| => (ls[i], data)) else []
  }

  /** The connection parameters of a config response. */
  datatype MqConfig = MqConfig(
    url: string, clientId: string, username: string, password: string,
    expireTime: int, deviceTopic: string)

  /** The answer to `_getMQConfig`: `NoAnswer` when the post answered
      `undefined` (reading `success` of it throws and ends the loop);
      `success` is `None` when the field is absent. */
  datatype ConfigReply = NoAnswer | Reply(success: Option<bool>, config: MqConfig)

  /** The channel's state: the `running` flag, the current client, the
      device topic, the listeners in set order, and what it has done so far:
      the connections opened (each subscribed to its config's device topic),
      the clients ended, the sleeps requested, in milliseconds, and the
      bodies of the access-config posts made. */
  datatype MqState = MqState(
    running: bool,
    client: Option<nat>,
    deviceTopic: string,
    listeners: seq<nat>,
    connections: seq<MqConfig>,
    ended: seq<nat>,
    sleeps: seq<int>,
    configPosts: seq<Record>)

  /** `stop()`: `running` goes false and the current client, if any, is
      ended; the client is not forgotten. */
  function StopState(s: MqState): MqState {
    s.(running := false, ended := if s.client.Some? then s.ended + [s.client.value] else s.ended)
  }

  /** One pass of `_loopStart`'s body and whether the loop goes on: the
      access-config request is posted with `post`; a missing answer then
      ends the loop where it is; `success == false` stops the channel;
      otherwise a new connection subscribes to the device topic, the
      previous client is ended and replaced, and a sleep of
      `(expire_time - 60) * 1000` ms is requested. */
  function Cycle(s: MqState, post: Record, reply: ConfigReply): (MqState, bool) {
    var posted := s.(configPosts := s.configPosts + [post]);
    match reply
    case NoAnswer => (posted, false)
    case Reply(success, cfg) =>
      if success == Some(false) then (StopState(posted), false)
      else
        var id := |posted.connections|;
        (posted.(deviceTopic := cfg.deviceTopic,
                 connections := posted.connections + [cfg],
                 ended := if posted.client.Some? then posted.ended + [posted.client.value] else posted.ended,
                 client := Some(id),
                 sleeps := posted.sleeps + [(cfg.expireTime - 60) * 1000]), true)
  }

  /** `_loopStart` over the answers of successive config requests, each
      posted with the body `post`, while `running` holds and answers
      remain. */
  function RunLoop(s: MqState, post: Record, replies: seq<ConfigReply>): MqState
    decreases |replies|
  {
    if !s.running || replies == [] then s
    else
      var (s', goOn) := Cycle(s, post, replies[0]);
      if goOn then RunLoop(s', post, replies[1..]) else s'
  }

  /** A refused config (`success == false`) stops the channel: `running`
      becomes false and nothing more is connected. */
  lemma RefusedConfigStops(s: MqState, post: Record, cfg: MqConfig, rest: seq<ConfigReply>)
    requires s.running
    ensures var s' := RunLoop(s, post, [Reply(Some(false), cfg)] + rest);
            !s'.running && s'.connections == s.connections && s'.client == s.client
            && s'.ended == (if s.client.Some? then s.ended + [s.client.value] else s.ended)
            && s'.configPosts == s.configPosts + [post]
  {
    assert ([Reply(Some(false), cfg)] + rest)[0] == Reply(Some(false), cfg);
  }

  /** The answers `success: true` carrying the given configs, in order. */
  function AcceptedReplies(cfgs: seq<MqConfig>): (rs: seq<ConfigReply>)
    ensures |rs| == |cfgs|
    ensures forall i :: 0 <= i < |cfgs| ==> rs[i] == Reply(Some(true), cfgs[i])
    decreases |cfgs|
  {
    if cfgs == [] then [] else [Reply(Some(true), cfgs[0])] + AcceptedReplies(cfgs[1..])
  }

  /** One accepted config is one cycle, after which the loop goes on with
      the remaining configs. */
  lemma AcceptedStep(s: MqState, post: Record, cfgs: seq<MqConfig>)
    requires s.running && cfgs != []
    ensures Cycle(s, post, Reply(Some(true), cfgs[0])).1
    ensures RunLoop(s, post, AcceptedReplies(cfgs))
            == RunLoop(Cycle(s, post, Reply(Some(true), cfgs[0])).0, post, AcceptedReplies(cfgs[1..]))
  {
    assert AcceptedReplies(cfgs)[0] == Reply(Some(true), cfgs[0]);
    assert AcceptedReplies(cfgs)[1..] == AcceptedReplies(cfgs[1..]);
  }

  /** Accepted configs each open one connection, in order; the client and
      the device topic end as the last config's, and the channel keeps
      running. */
  lemma {:induction false} AcceptedConfigsConnect(s: MqState, post: Record, cfgs: seq<MqConfig>)
    requires s.running
    ensures var s' := RunLoop(s, post, AcceptedReplies(cfgs));
            && s'.running
            && s'.connections == s.connections + cfgs
            && (cfgs != [] ==> s'.client == Some(|s'.connections| - 1)
                               && s'.deviceTopic == cfgs[|cfgs| - 1].deviceTopic)
            && (cfgs == [] ==> s' == s)
    decreases |cfgs|
  {
    if cfgs != [] {
      var s1 := Cycle(s, post, Reply(Some(true), cfgs[0])).0;
      AcceptedStep(s, post, cfgs);
      AcceptedConfigsConnect(s1, post, cfgs[1..]);
      var s' := RunLoop(s1, post, AcceptedReplies(cfgs[1..]));
      assert s1.connections == s.connections + [cfgs[0]];
      assert s'.connections == s.connections + cfgs by {
        assert s.connections + [cfgs[0]] + cfgs[1..] == s.connections + cfgs;
      }
      if |cfgs| == 1 {
        assert cfgs[1..] == [];
        assert s' == s1;
      } else {
        assert cfgs[|cfgs| - 1] == cfgs[1..][|cfgs[1..]| - 1];
      }
    }
  }

  /** The client ids `first`, `first + 1`, ... in order, `n` of them. */
  function ClientIds(first: nat, n: nat): (ids: seq<nat>)
    ensures |ids| == n
    ensures forall i :: 0 <= i < n ==> ids[i] == first + i
    decreases n
  {
    if n == 0 then [] else [first] + ClientIds(first + 1, n - 1)
  }

  /** Each accepted config ends the client before it: first the client the
      channel held, if any, then every client the loop opened except the
      newest, in the order they were opened. */
  lemma {:induction false} AcceptedConfigsEnd(s: MqState, post: Record, cfgs: seq<MqConfig>)
    requires s.running && cfgs != []
    ensures RunLoop(s, post, AcceptedReplies(cfgs)).ended
            == s.ended + (if s.client.Some? then [s.client.value] else []) + ClientIds(|s.connections|, |cfgs| - 1)
    decreases |cfgs|
  {
    var s1 := Cycle(s, post, Reply(Some(true), cfgs[0])).0;
    AcceptedStep(s, post, cfgs);
    AcceptedCycle(s, post, cfgs[0]);
    if |cfgs| == 1 {
      assert cfgs[1..] == [];
      assert RunLoop(s1, post, AcceptedReplies(cfgs[1..])) == s1;
    } else {
      AcceptedConfigsEnd(s1, post, cfgs[1..]);
      assert ClientIds(|s.connections|, |cfgs| - 1) == [|s.connections|] + ClientIds(|s1.connections|, |cfgs| - 2);
    }
  }

  /** What one accepted cycle does to the client bookkeeping. */
  lemma AcceptedCycle(s: MqState, post: Record, cfg: MqConfig)
    ensures var s1 := Cycle(s, post, Reply(Some(true), cfg)).0;
            && s1.running == s.running
            && s1.ended == s.ended + (if s.client.Some? then [s.client.value] else [])
            && s1.client == Some(|s.connections|)
            && s1.connections == s.connections + [cfg]
  {
  }

  /** Each accepted config requests one sleep of `(expire_time - 60) * 1000`
      ms, in order, after the sleeps already requested. */
  lemma {:induction false} AcceptedConfigsSleep(s: MqState, post: Record, cfgs: seq<MqConfig>)
    requires s.running
    ensures var s' := RunLoop(s, post, AcceptedReplies(cfgs));
            && |s'.sleeps| == |s.sleeps| + |cfgs|
            && s'.sleeps[..|s.sleeps|] == s.sleeps
            && (forall i :: 0 <= i < |cfgs| ==> s'.sleeps[|s.sleeps| + i] == (cfgs[i].expireTime - 60) * 1000)
    decreases |cfgs|
  {
    if cfgs != [] {
      var s1 := Cycle(s, post, Reply(Some(true), cfgs[0])).0;
      AcceptedStep(s, post, cfgs);
      AcceptedConfigsSleep(s1, post, cfgs[1..]);
      var s' := RunLoop(s1, post, AcceptedReplies(cfgs[1..]));
      assert s'.sleeps[..|s.sleeps|] == s1.sleeps[..|s.sleeps|];
      forall i | 1 <= i < |cfgs|
        ensures s'.sleeps[|s.sleeps| + i] == (cfgs[i].expireTime - 60) * 1000
      {
        assert |s.sleeps| + i == |s1.sleeps| + (i - 1);
        assert cfgs[i] == cfgs[1..][i - 1];
      }
    }
  }

  /** Each accepted config is fetched by one access-config post, with the
      same body every time, after the posts already made. */
  lemma {:induction false} AcceptedConfigsPost(s: MqState, post: Record, cfgs: seq<MqConfig>)
    requires s.running
    ensures var s' := RunLoop(s, post, AcceptedReplies(cfgs));
            && |s'.configPosts| == |s.configPosts| + |cfgs|
            && s'.configPosts[..|s.configPosts|] == s.configPosts
            && (forall i :: |s.configPosts| <= i < |s'.configPosts| ==> s'.configPosts[i] == post)
    decreases |cfgs|
  {
    if cfgs != [] {
      var s1 := Cycle(s, post, Reply(Some(true), cfgs[0])).0;
      AcceptedStep(s, post, cfgs);
      AcceptedConfigsPost(s1, post, cfgs[1..]);
      var s' := RunLoop(s1, post, AcceptedReplies(cfgs[1..]));
      assert s1.configPosts == s.configPosts + [post];
      assert s'.configPosts[..|s.configPosts|] == s1.configPosts[..|s.configPosts|];
    }
  }

  /** A post that gets no answer is still recorded, and ends the loop with
      nothing else changed. */
  lemma UnansweredConfigEnds(s: MqState, post: Record, rest: seq<ConfigReply>)
    requires s.running
    ensures RunLoop(s, post, [NoAnswer] + rest) == s.(configPosts := s.configPosts + [post])
  {
    assert ([NoAnswer] + rest)[0] == NoAnswer;
  }

  /** A stopped channel runs no cycle, whatever the answers. */
  lemma StoppedLoopIdles(s: MqState, post: Record, replies: seq<ConfigReply>)
    ensures RunLoop(StopState(s), post, replies) == StopState(s)
    ensures !StopState(s).running
  {
  }

  /** Stopping twice is stopping once, except that the current client is
      ended again (`client` is never cleared). */
  lemma StopTwice(s: MqState)
    ensures StopState(StopState(s)).running == false
    ensures StopState(StopState(s)).client == s.client
    ensures StopState(StopState(s)).ended ==
              if s.client.Some? then s.ended + [s.client.value, s.client.value] else s.ended
  {
  }

  class Mq {
    /** The message encryption version: "1.0" or "2.0". */
    const msgType: string
    const ciphers: Ciphers
    /** `LINK_ID`, the `uuid()` drawn once when the module loads. */
    const linkId: string

    var running: bool
    var client: Option<nat>
    var deviceTopic: string
    var listeners: seq<nat>
    var connections: seq<MqConfig>
    var ended: seq<nat>
    var sleeps: seq<int>
    var configPosts: seq<Record>
    /** Every listener call so far, with the data it was given. */
    var delivered: seq<(nat, Value)>

    function State(): MqState
      reads this
    {
      MqState(running, client, deviceTopic, listeners, connections, ended, sleeps, configPosts)
    }

    predicate Valid()
      reads this
    {
      NoDuplicates(listeners)
    }

    constructor(msgType: string, ciphers: Ciphers, linkId: string)
      ensures this.msgType == msgType && this.ciphers == ciphers && this.linkId == linkId && Valid()
      ensures State() == MqState(false, None, "", [], [], [], [], []) && delivered == []
    {
      this.msgType, this.ciphers, this.linkId := msgType, ciphers, linkId;
      running, client, deviceTopic, listeners := false, None, "", [];
      connections, ended, sleeps, configPosts, delivered := [], [], [], [], [];
    }

    /** `start()`, followed by `_loopStart` over the config answers it gets:
        `running` is set, then the loop runs. */
    method Start(uid: string, replies: seq<ConfigReply>)
      requires Valid()
      modifies this
      ensures Valid() && delivered == old(delivered)
      ensures State() == RunLoop(old(State()).(running := true), AccessConfigBody(uid, linkId, "mqtt", msgType), replies)
    {
      running := true;
      LoopStart(uid, replies);
    }

    /** `stop()`. */
    method Stop()
      modifies this
      ensures State() == StopState(old(State())) && delivered == old(delivered)
    {
      running := false;
      if client.Some? {
        ended := ended + [client.value];
      }
    }

    /** `_loopStart`: while `running`, post for a config (`_getMQConfig("mqtt")`,
        with `uid` the API's `tokenInfo.uid`), stop on a refusal, otherwise
        connect, subscribe, replace the client and sleep. */
    method LoopStart(uid: string, replies: seq<ConfigReply>)
      requires Valid()
      modifies this
      ensures Valid() && delivered == old(delivered)
      ensures State() == RunLoop(old(State()), AccessConfigBody(uid, linkId, "mqtt", msgType), replies)
    {
      var post := AccessConfigBody(uid, linkId, "mqtt", msgType);
      var i := 0;
      while running && i < |replies|
        invariant 0 <= i <= |replies|
        invariant listeners == old(listeners) && delivered == old(delivered)
        invariant RunLoop(old(State()), post, replies) == RunLoop(State(), post, replies[i..])
        decreases |replies| - i
      {
        assert replies[i..][0] == replies[i] && replies[i..][1..] == replies[i + 1..];
        var goOn := RunCycle(post, replies[i]);
        if !goOn {
          return;
        }
        i := i + 1;
      }
    }

    /** One pass of the loop's body: post, then act on the answer. */
    method RunCycle(post: Record, reply: ConfigReply) returns (goOn: bool)
      modifies this
      ensures (State(), goOn) == Cycle(old(State()), post, reply)
      ensures listeners == old(listeners) && delivered == old(delivered)
    {
      configPosts := configPosts + [post];
      if reply.NoAnswer? {
        // reading `success` of `undefined` throws: the loop ends, `running` stays set
        return false;
      }
      if reply.success == Some(false) {
        Stop();
        return false;
      }
      var cfg := reply.config;
      deviceTopic := cfg.deviceTopic;
      var id := |connections|;
      connections := connections + [cfg];
      if client.Some? {
        ended := ended + [client.value];
      }
      client := Some(id);
      sleeps := sleeps + [(cfg.expireTime - 60) * 1000];
      goOn := true;
    }

    method AddMessageListener(l: nat)
      requires Valid()
      modifies this`listeners
      ensures Valid() && listeners == AddListener(old(listeners), l)
    {
      if l !in listeners {
        listeners := listeners + [l];
      }
    }

    method RemoveMessageListener(l: nat)
      requires Valid()
      modifies this`listeners
      ensures Valid() && listeners == RemoveListener(old(listeners), l)
    {
      RemoveListenerProperties(listeners, l);
      listeners := RemoveListener(listeners, l);
    }

    /** `_onMessage` for a message of connection `conn` on `topic`: the
        envelope is decoded with that connection's password; when that
        throws, no listener runs; otherwise each listener, in set order, is
        given the decoded data if the topic is the device topic. Returns the
        rewritten envelope. */
    method OnMessage(conn: nat, topic: string, envelope: Record) returns (message: Result<Record>)
      requires conn < |connections|
      modifies this`delivered
      ensures message == DecodeEnvelope(msgType, envelope, connections[conn].password, ciphers)
      ensures delivered == old(delivered) +
                (if message.Ok? then Deliveries(listeners, deviceTopic == topic, Get(message.value, "data")) else [])
    {
      message := DecodeEnvelope(msgType, envelope, connections[conn].password, ciphers);
      if message.Err? {
        return;
      }
      Deliver(deviceTopic == topic, Get(message.value, "data"));
    }

    /** The listener loop of the message handler: each listener, in set
        order, is given `data` when the topic matched. */
    method Deliver(topicMatches: bool, data: Value)
      modifies this`delivered
      ensures delivered == old(delivered) + Deliveries(listeners, topicMatches, data)
    {
      var i := 0;
      while i < |listeners|
        invariant 0 <= i <= |listeners|
        invariant delivered == old(delivered) + (if topicMatches then Deliveries(listeners, true, data)[..i] else [])
      {
        if topicMatches {
          assert Deliveries(listeners, true, data)[..i + 1] == Deliveries(listeners, true, data)[..i] + [(listeners[i], data)];
          delivered := delivered + [(listeners[i], data)];
        }
        i := i + 1;
      }
      assert topicMatches ==> Deliveries(listeners, true, data)[..i] == Deliveries(listeners, true, data);
    }
  }

  /** The body of the access-config request (`_getMQConfig`). */
  function AccessConfigBody(uid: string, linkId: string, linkType: string, msgType: string): (body: Record)
    ensures Keys(body) == ["uid", "link_id", "link_type", "topics", "msg_encrypted_version"]
    ensures Get(body, "uid") == Str(uid) && Get(body, "link_id") == Str(linkId)
    ensures Get(body, "link_type") == Str(linkType) && Get(body, "topics") == Str("device")
    ensures Get(body, "msg_encrypted_version") == Str(msgType)
  {
    var body := [("uid", Str(uid)), ("link_id", Str(linkId)), ("link_type", Str(linkType)),
                 ("topics", Str("device")), ("msg_encrypted_version", Str(msgType))];
    GetAt(body, 0); GetAt(body, 1); GetAt(body, 2); GetAt(body, 3); GetAt(body, 4);
    body
  }
}
