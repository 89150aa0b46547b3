/** The MQTT bridge of `main.ts`: the configuration with its defaults, the
    topics device and status events are published on, and the `~/set/`
    topics that become device commands. */
module Bridge {
  import opened Values
  import opened Text
  import opened Signing
  import TuyaClient

  /** The defaults the service configuration is spread over. */
  const ConfigDefaults: Record :=
    [("projectType", Str("2")), ("appSchema", Str("smartlife")), ("lang", Str("en")), ("debug", Bool(false))]

  /** `{...defaults, ...service.config}`: spreading `undefined` or a
      primitive adds nothing. */
  function MergeConfig(config: Value): (merged: Record)
    ensures config.Undefined? || config.Null? || config.Bool? || config.Num? ==> merged == ConfigDefaults
  {
    AssignValue(ConfigDefaults, config)
  }

  /** Every field the service configuration sets wins; the others take
      their defaults. */
  lemma MergeConfigFields(config: Record, k: string)
    ensures Get(MergeConfig(Obj(config)), k) == if k in Keys(config) then Get(config, k) else Get(ConfigDefaults, k)
  {
    AssignGet(ConfigDefaults, config, k);
  }

  /** Spreading an array adds element `i` under the name `${i}`. */
  lemma MergeConfigIndexed(items: seq<Value>, i: nat)
    requires i < |items|
    ensures Get(MergeConfig(Arr(items)), NatToDecimal(i)) == items[i]
  {
    assert Keys(Indexed(items))[i] == NatToDecimal(i);
    AssignGet(ConfigDefaults, Indexed(items), NatToDecimal(i));
    IndexedGet(items, i);
  }

  /** Spreading an array keeps every default: no default's name starts
      with a digit. */
  lemma MergeConfigKeepsDefaults(items: seq<Value>, k: string)
    requires k in Keys(ConfigDefaults)
    ensures Get(MergeConfig(Arr(items)), k) == Get(ConfigDefaults, k)
  {
    assert Keys(ConfigDefaults) == ["projectType", "appSchema", "lang", "debug"];
    NotIndexedKey(items, k);
    AssignGet(ConfigDefaults, Indexed(items), k);
  }

  /** Spreading a string is spreading the array of its characters. */
  lemma MergeConfigString(s: string)
    ensures MergeConfig(Str(s)) == MergeConfig(Arr(Chars(s)))
  {
  }

  /** The defaults' fields come first, in their order. */
  lemma MergeConfigOrder(config: Record)
    ensures |MergeConfig(Obj(config))| >= 4
    ensures Keys(MergeConfig(Obj(config)))[..4] == ["projectType", "appSchema", "lang", "debug"]
  {
    AssignKeepsTargetOrder(ConfigDefaults, config);
  }

  /** The default values: project type "2", app schema "smartlife",
      language "en", debugging off. */
  lemma DefaultValues()
    ensures Get(ConfigDefaults, "projectType") == Str("2")
    ensures Get(ConfigDefaults, "appSchema") == Str("smartlife")
    ensures Get(ConfigDefaults, "lang") == Str("en")
    ensures Get(ConfigDefaults, "debug") == Bool(false)
  {
    GetAt(ConfigDefaults, 0);
    GetAt(ConfigDefaults, 1);
    GetAt(ConfigDefaults, 2);
    GetAt(ConfigDefaults, 3);
  }

  /** `~/status/<id>`, where a "device" event is published. */
  function DeviceTopic(id: Value): string {
    "~/status/" + ToJsString(id)
  }

  /** `~/status/<id>/<code>`, where one status value is published. */
  function StatusTopic(id: Value, code: Value): string {
    "~/status/" + ToJsString(id) + "/" + ToJsString(code)
  }

  /** What the "device" handler publishes for an event payload: the payload
      itself, on the topic of its id. */
  function DeviceMessage(payload: Record): (m: (string, Value))
    ensures m.1 == Obj(payload)
    ensures StartsWith(m.0, "~/status/") && m.0[|"~/status/"|..] == ToJsString(Get(payload, "id"))
  {
    (DeviceTopic(Get(payload, "id")), Obj(payload))
  }

  /** A device topic splits back into its id when the id holds no `/`, and
      it is the prefix of that device's status topics. */
  lemma DeviceTopicSegments(id: string, code: string)
    requires '/' !in id
    ensures Split(DeviceTopic(Str(id)), '/') == ["~", "status", id]
    ensures StartsWith(StatusTopic(Str(id), Str(code)), DeviceTopic(Str(id)) + "/")
  {
    var topic := DeviceTopic(Str(id));
    assert topic == "~" + ['/'] + ("status" + ['/'] + id);
    SplitPrefix("~", "status" + ['/'] + id, '/');
    SplitPrefix("status", id, '/');
    SplitNoSeparator(id, '/');
  }

  /** The messages the "status" handler publishes: one per entry whose
      `code` is truthy, in order, carrying the entry's `value`. */
  function StatusMessages(id: Value, status: seq<Record>): (ms: seq<(string, Value)>)
    ensures |ms| <= |status|
    decreases |status|
  {
    if status == [] then []
    else
      var rest := StatusMessages(id, status[..|status| - 1]);
      var last := status[|status| - 1];
      if Truthy(Get(last, "code")) then rest + [(StatusTopic(id, Get(last, "code")), Get(last, "value"))]
      else rest
  }

  /** The "status" handler: skip entries without a code, publish the
      others. */
  method PublishStatus(id: Value, status: seq<Record>) returns (published: seq<(string, Value)>)
    ensures published == StatusMessages(id, status)
  {
    published := [];
    for i := 0 to |status|
      invariant published == StatusMessages(id, status[..i])
    {
      assert status[..i + 1][..i] == status[..i];
      var code := Get(status[i], "code");
      if !Truthy(code) {
        continue;
      }
      published := published + [(StatusTopic(id, code), Get(status[i], "value"))];
    }
    assert status[..|status|] == status;
  }

  /** The publications of consecutive entries follow each other. */
  lemma {:induction false} StatusMessagesAppend(id: Value, a: seq<Record>, b: seq<Record>)
    ensures StatusMessages(id, a + b) == StatusMessages(id, a) + StatusMessages(id, b)
    decreases |b|
  {
    if b == [] {
      assert a + b == a;
    } else {
      var b' := b[..|b| - 1];
      assert (a + b)[..|a + b| - 1] == a + b';
      StatusMessagesAppend(id, a, b');
    }
  }

  /** One entry is published on its own topic exactly when its code is
      truthy; an empty code is skipped. */
  lemma StatusMessagesSingle(id: Value, entry: Record)
    ensures StatusMessages(id, [entry]) ==
              if Truthy(Get(entry, "code")) then [(StatusTopic(id, Get(entry, "code")), Get(entry, "value"))] else []
  {
    assert [entry][..0] == [];
  }

  /** Splitting a string that holds the separator only where `t` starts
      gives `p` as the first part. */
  lemma SplitHead(p: string, t: string, sep: char)
    requires sep !in p
    requires t == [] || t[0] == sep
    ensures Split(p + t, sep)[0] == p
  {
    if t == [] {
      assert p + t == p;
      SplitNoSeparator(p, sep);
    } else {
      assert p + t == p + [sep] + t[1..];
      SplitPrefix(p, t[1..], sep);
    }
  }

  /** A status topic splits back into its id and code when neither holds
      a `/`. */
  lemma StatusTopicSegments(id: string, code: string)
    requires '/' !in id && '/' !in code
    ensures Split(StatusTopic(Str(id), Str(code)), '/') == ["~", "status", id, code]
  {
    var topic := StatusTopic(Str(id), Str(code));
    assert topic == "~" + ['/'] + ("status" + ['/'] + (id + ['/'] + code));
    SplitPrefix("~", "status" + ['/'] + (id + ['/'] + code), '/');
    SplitPrefix("status", id + ['/'] + code, '/');
    SplitPrefix(id, code, '/');
    SplitNoSeparator(code, '/');
  }

  /** Element `i` of a destructuring pattern: `undefined` past the end. */
  function Segment(parts: seq<string>, i: nat): Value {
    if i < |parts| then Str(parts[i]) else Undefined
  }

  /** The device id and command of a `~/set/` topic: segments 2 and 3 of
      its `/`-split; `None` for any other topic. */
  function ParseSetTopic(topic: string): (r: Option<(Value, Value)>)
    ensures r.None? <==> !StartsWith(topic, "~/set/")
  {
    if !StartsWith(topic, "~/set/") then None
    else
      var parts := Split(topic, '/');
      Some((Segment(parts, 2), Segment(parts, 3)))
  }

  /** `~/set/<dev>/<cmd>` gives back `dev` and `cmd`, whatever segments
      follow. */
  lemma SetTopicRoundTrip(dev: string, cmd: string, tail: string)
    requires '/' !in dev && '/' !in cmd
    requires tail == [] || tail[0] == '/'
    ensures ParseSetTopic("~/set/" + dev + "/" + cmd + tail) == Some((Str(dev), Str(cmd)))
  {
    var topic := "~/set/" + dev + "/" + cmd + tail;
    assert topic[..6] == "~/set/";
    assert topic == "~" + ['/'] + ("set" + ['/'] + (dev + ['/'] + (cmd + tail)));
    SplitPrefix("~", "set" + ['/'] + (dev + ['/'] + (cmd + tail)), '/');
    SplitPrefix("set", dev + ['/'] + (cmd + tail), '/');
    SplitPrefix(dev, cmd + tail, '/');
    SplitHead(cmd, tail, '/');
  }

  /** `~/set/<dev>` gives back `dev` and an undefined command. */
  lemma SetTopicWithoutCommand(dev: string)
    requires '/' !in dev
    ensures ParseSetTopic("~/set/" + dev) == Some((Str(dev), Undefined))
  {
    var topic := "~/set/" + dev;
    assert topic[..6] == "~/set/";
    assert topic == "~" + ['/'] + ("set" + ['/'] + dev);
    SplitPrefix("~", "set" + ['/'] + dev, '/');
    SplitPrefix("set", dev, '/');
    SplitNoSeparator(dev, '/');
  }

  /** The `message` handler: a `~/set/` topic becomes `sendCommand(devId,
      command, data)` with the data unchanged; other topics do nothing. */
  method OnSetMessage(client: TuyaClient.Client, topic: string, data: Value)
    modifies client`calls
    ensures match ParseSetTopic(topic)
            case None => client.calls == old(client.calls)
            case Some((devId, command)) =>
              client.calls == old(client.calls) +
                [TuyaClient.ApiCall(HttpPost, TuyaClient.DevicePath(TuyaClient.Variant(client.projectType), ToJsString(devId), "/commands"),
                                    TuyaClient.CommandPayload(command, data))]
  {
    if !StartsWith(topic, "~/set/") {
      return;
    }
    var parts := Split(topic, '/');
    client.SendCommand(Segment(parts, 2), Segment(parts, 3), data);
  }
}
