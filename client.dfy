/** `TuyaClient`: the device registry and the events it emits. Devices found at
    start-up or bound later are stored and announced ("device" then
    "status"); MQ messages are routed by their `bizCode`; commands are posted
    to the cloud API the project type selects, which also selects the
    message encryption version. The API calls and the MQ channel are
    modelled in their own modules; here their answers are parameters and the
    calls the client makes are recorded. */
module TuyaClient {
  import opened Values
  import opened Text
  import opened Signing
  import OpenMq

  /** The device category codes `getDeviceCategoryName` lists. */
  const KnownCategories: set<Value> := {
    Str("kj"), Str("dj"), Str("dd"), Str("fwd"), Str("tgq"), Str("xdd"), Str("dc"), Str("tgkg"),
    Str("cz"), Str("pc"), Str("kg"), Str("tdq"), Str("fs"), Str("fskg"), Str("ywbj"), Str("qn"),
    Str("ckmkzq"), Str("cl"), Str("mcs"), Str("rqbj"), Str("jwbj")}

  /** `getDeviceCategoryName`: a `switch` with strict equality, so only a
      listed string matches; anything else is "Unknown". */
  function CategoryName(category: Value): (name: string)
    ensures category in {Str("dj"), Str("dd"), Str("fwd"), Str("tgq"), Str("xdd"), Str("dc"), Str("tgkg")} ==> name == "Light"
    ensures category in {Str("cz"), Str("pc")} ==> name == "Outlet"
    ensures category in {Str("kg"), Str("tdq")} ==> name == "Switch"
    ensures category in {Str("fs"), Str("fskg")} ==> name == "Fan"
    ensures category in {Str("rqbj"), Str("jwbj")} ==> name == "LeakSensor"
    ensures category == Str("kj") ==> name == "AirPurifier"
    ensures category == Str("ywbj") ==> name == "SmokeSensor"
    ensures category == Str("qn") ==> name == "Heater"
    ensures category == Str("ckmkzq") ==> name == "GarageDoor"
    ensures category == Str("cl") ==> name == "WindowCovering"
    ensures category == Str("mcs") ==> name == "ContactSensor"
    ensures name == "Unknown" <==> category !in KnownCategories
  {
    match category
    case Str(c) =>
      (match c
       case "kj" => "AirPurifier"
       case "dj" => "Light" case "dd" => "Light" case "fwd" => "Light" case "tgq" => "Light"
       case "xdd" => "Light" case "dc" => "Light" case "tgkg" => "Light"
       case "cz" => "Outlet" case "pc" => "Outlet"
       case "kg" => "Switch" case "tdq" => "Switch"
       case "fs" => "Fan" case "fskg" => "Fan"
       case "ywbj" => "SmokeSensor"
       case "qn" => "Heater"
       case "ckmkzq" => "GarageDoor"
       case "cl" => "WindowCovering"
       case "mcs" => "ContactSensor"
       case "rqbj" => "LeakSensor" case "jwbj" => "LeakSensor"
       case _ => "Unknown")
    case _ => "Unknown"
  }

  /** The two cloud API classes. */
  datatype ApiVariant = CustomProject | SmartHomeProject

  /** `config.projectType == "1"` (`ProjectTypeCustom`), with `==`'s loose
      equality for the primitive values a configuration can hold. */
  predicate IsCustom(projectType: Value) {
    projectType == Str("1") || projectType == Num(1) || projectType == Bool(true)
  }

  /** `init`'s choice of API class. */
  function Variant(projectType: Value): (v: ApiVariant)
    ensures v == CustomProject <==> IsCustom(projectType)
  {
    if IsCustom(projectType) then CustomProject else SmartHomeProject
  }

  /** `init`'s choice of message encryption version. */
  function EncryptionVersion(projectType: Value): (version: string)
    ensures version == "2.0" <==> IsCustom(projectType)
    ensures version == "1.0" <==> !IsCustom(projectType)
  {
    if IsCustom(projectType) then "2.0" else "1.0"
  }

  /** The project type picks the API and the decoder together: custom
      projects use `TuyaOpenAPI` and the GCM decoder, the others
      `TuyaSHOpenAPI` and the ECB decoder. */
  lemma ProjectTypeSelectsDecoder(projectType: Value, data: string, password: string, t: int, c: OpenMq.Ciphers)
    ensures Variant(projectType) == CustomProject ==>
              OpenMq.Decode(EncryptionVersion(projectType), data, password, t, c) == OpenMq.DecodeGcm(data, password, t, c)
    ensures Variant(projectType) == SmartHomeProject ==>
              OpenMq.Decode(EncryptionVersion(projectType), data, password, t, c) == OpenMq.DecodeEcb(data, password, c)
  {
  }

  /** The per-device path of each API class, e.g. `getDeviceInfo`,
      `getDeviceFunctions`, `sendCommand`. */
  function DevicePath(variant: ApiVariant, deviceId: string, suffix: string): string {
    (if variant == CustomProject then "/v1.0/iot-03/devices/" else "/v1.0/devices/") + deviceId + suffix
  }

  /** The body `sendCommand` posts: `{commands: [{code, value}]}`. */
  function CommandPayload(code: Value, value: Value): (p: Value)
    ensures p.Obj? && Keys(p.fields) == ["commands"]
    ensures var cmds := Get(p.fields, "commands");
            && cmds.Arr? && |cmds.items| == 1 && cmds.items[0].Obj?
            && Keys(cmds.items[0].fields) == ["code", "value"]
            && Get(cmds.items[0].fields, "code") == code
            && Get(cmds.items[0].fields, "value") == value
  {
    Obj([("commands", Arr([Obj([("code", code), ("value", value)])]))])
  }

  /** What the client emits. */
  datatype Event = DeviceFound(device: Record) | StatusChanged(id: Value, status: Value)

  /** The payload of the "device" event (`emitDeviceFound`). */
  function Projection(device: Record): (p: Record)
    ensures Keys(p) == ["id", "online", "name", "category", "categoryName", "functions"]
    ensures Get(p, "id") == Get(device, "id") && Get(p, "online") == Get(device, "online")
    ensures Get(p, "name") == Get(device, "name") && Get(p, "category") == Get(device, "category")
    ensures Get(p, "functions") == Get(device, "functions")
    ensures Get(p, "categoryName") == Str(CategoryName(Get(device, "category")))
  {
    var p := [("id", Get(device, "id")), ("online", Get(device, "online")), ("name", Get(device, "name")),
              ("category", Get(device, "category")),
              ("categoryName", Str(CategoryName(Get(device, "category")))),
              ("functions", Get(device, "functions"))];
    GetAt(p, 0); GetAt(p, 1); GetAt(p, 2); GetAt(p, 3); GetAt(p, 4); GetAt(p, 5);
    p
  }

  /** The events `addAccessory` emits for one device: "device", then its
      "status". */
  function AccessoryEvents(device: Record): seq<Event> {
    [DeviceFound(Projection(device)), StatusChanged(Get(device, "id"), Get(device, "status"))]
  }

  /** The events of adding `devices` in order. */
  function AllEvents(devices: seq<Record>): (es: seq<Event>)
    ensures |es| == 2 * |devices|
    decreases |devices|
  {
    if devices == [] then [] else AllEvents(devices[..|devices| - 1]) + AccessoryEvents(devices[|devices| - 1])
  }

  /** The property key `devices[device.id] = device` writes. */
  function Key(device: Record): string {
    ToJsString(Get(device, "id"))
  }

  /** The properties after storing `devices` in order. */
  function Stored(props: map<string, Record>, devices: seq<Record>): map<string, Record>
    decreases |devices|
  {
    if devices == [] then props
    else
      var last := devices[|devices| - 1];
      Stored(props, devices[..|devices| - 1])[Key(last) := last]
  }

  /** For each device, in order, a "device" event with its projection
      followed by a "status" event for its id. */
  lemma {:induction false} AllEventsOrder(devices: seq<Record>)
    ensures forall i :: 0 <= i < |devices| ==>
              AllEvents(devices)[2 * i] == DeviceFound(Projection(devices[i]))
              && AllEvents(devices)[2 * i + 1] == StatusChanged(Get(devices[i], "id"), Get(devices[i], "status"))
    decreases |devices|
  {
    if devices != [] {
      var init := devices[..|devices| - 1];
      AllEventsOrder(init);
      var all, pre := AllEvents(devices), AllEvents(init);
      assert all == pre + AccessoryEvents(devices[|devices| - 1]);
      forall i | 0 <= i < |devices|
        ensures all[2 * i] == DeviceFound(Projection(devices[i]))
        ensures all[2 * i + 1] == StatusChanged(Get(devices[i], "id"), Get(devices[i], "status"))
      {
        if i < |init| {
          assert devices[i] == init[i];
          assert all[2 * i] == pre[2 * i];
          assert all[2 * i + 1] == pre[2 * i + 1];
        } else {
          assert 2 * i == |pre|;
        }
      }
    }
  }

  /** A key no device has keeps its old value, or stays absent. */
  lemma {:induction false} StoredUntouched(props: map<string, Record>, devices: seq<Record>, k: string)
    requires forall i :: 0 <= i < |devices| ==> Key(devices[i]) != k
    ensures k in Stored(props, devices) <==> k in props
    ensures k in props ==> Stored(props, devices)[k] == props[k]
    decreases |devices|
  {
    if devices != [] {
      StoredUntouched(props, devices[..|devices| - 1], k);
    }
  }

  /** A device's key holds that device unless a later device has the same
      key: the last device stored under a key wins. */
  lemma {:induction false} StoredLatest(props: map<string, Record>, devices: seq<Record>, i: int)
    requires 0 <= i < |devices|
    requires forall j :: i < j < |devices| ==> Key(devices[j]) != Key(devices[i])
    ensures Key(devices[i]) in Stored(props, devices)
    ensures Stored(props, devices)[Key(devices[i])] == devices[i]
    decreases |devices|
  {
    if i < |devices| - 1 {
      var init := devices[..|devices| - 1];
      assert init[i] == devices[i];
      StoredLatest(props, init, i);
    }
  }

  /** How `onMQTTMessage` routes a message. */
  datatype Action =
    | Report(devId: Value, status: Value)  // no `bizCode`: emit a "status" event
    | Forget(devId: Value)                 // "delete": `devices.delete(devId)`
    | Bind(devId: Value)                   // "bindUser": fetch and add the device
    | BindThrows                           // "bindUser" without `bizData`: reading `devId` throws
    | Ignore                               // any other `bizCode`

  function RouteMessage(message: Record): (a: Action)
    ensures a.Report? <==> !Truthy(Get(message, "bizCode"))
    ensures a.Report? ==> a.devId == Get(message, "devId") && a.status == Get(message, "status")
    ensures a.Forget? <==> Get(message, "bizCode") == Str("delete")
    ensures a.Forget? ==> a.devId == Get(message, "devId")
    ensures (a.Bind? || a.BindThrows?) <==> Get(message, "bizCode") == Str("bindUser")
    ensures a.Bind? && Get(message, "bizData").Obj? ==> a.devId == Get(Get(message, "bizData").fields, "devId")
    ensures a.BindThrows? <==> Get(message, "bizCode") == Str("bindUser") && Get(message, "bizData") in {Undefined, Null}
    ensures a.Ignore? <==> (Truthy(Get(message, "bizCode"))
                            && Get(message, "bizCode") !in {Str("delete"), Str("bindUser")})
  {
    var bizCode := Get(message, "bizCode");
    if !Truthy(bizCode) then Report(Get(message, "devId"), Get(message, "status"))
    else if bizCode == Str("delete") then Forget(Get(message, "devId"))
    else if bizCode == Str("bindUser") then
      var bizData := Get(message, "bizData");
      if bizData.Undefined? || bizData.Null? then BindThrows
      else Bind(if bizData.Obj? then Get(bizData.fields, "devId") else Undefined)
    else Ignore
  }

  /** A request the client makes through its API object. */
  datatype ApiCall = ApiCall(verb: Verb, path: string, payload: Value)

  /** The device a "bindUser" message adds: the fetched info overlaid with
      the fetched functions by `Object.assign`, or `None` when that throws
      (an `undefined` or `null` info). A primitive info is wrapped as an
      object first, carrying its indexed elements if it is a string. */
  function BoundDevice(info: Value, functions: Value): (d: Option<Record>)
    ensures d.None? <==> info in {Undefined, Null}
    ensures info.Obj? ==> d == Some(AssignValue(info.fields, functions))
  {
    if info.Undefined? || info.Null? then None
    else Some(AssignValue(Props(info), functions))
  }

  class Client {
    const projectType: Value
    /** The properties `addAccessory` writes on the `devices` map object by
        index assignment. */
    var props: map<string, Record>
    /** The `devices` map's own entries, which only `delete` touches. */
    var entries: map<Value, Record>
    var events: seq<Event>
    var calls: seq<ApiCall>

    constructor(projectType: Value)
      ensures this.projectType == projectType
      ensures props == map[] && entries == map[] && events == [] && calls == []
    {
      this.projectType := projectType;
      props, entries, events, calls := map[], map[], [], [];
    }

    /** `addAccessory`: store the device under its id, then emit "device"
        and "status". */
    method AddAccessory(device: Record)
      modifies this`props, this`events
      ensures props == old(props)[Key(device) := device]
      ensures events == old(events) + AccessoryEvents(device)
    {
      props := props[Key(device) := device];
      events := events + [DeviceFound(Projection(device))];
      events := events + [StatusChanged(Get(device, "id"), Get(device, "status"))];
    }

    /** The part of `init` after the device list is fetched: each device is
        added in order, and the encryption version for the MQ channel is
        chosen. */
    method Init(devices: seq<Record>) returns (version: string)
      modifies this`props, this`events
      ensures version == EncryptionVersion(projectType)
      ensures props == Stored(old(props), devices)
      ensures events == old(events) + AllEvents(devices)
    {
      AddAll(devices);
      version := EncryptionVersion(projectType);
    }

    /** `init`'s loop over the device list: `addAccessory` for each device,
        in order. */
    method AddAll(devices: seq<Record>)
      modifies this`props, this`events
      ensures props == Stored(old(props), devices)
      ensures events == old(events) + AllEvents(devices)
    {
      var i := 0;
      while i < |devices|
        invariant 0 <= i <= |devices|
        invariant props == Stored(old(props), devices[..i])
        invariant events == old(events) + AllEvents(devices[..i])
      {
        ghost var done := devices[..i + 1];
        assert done[..i] == devices[..i] && done[i] == devices[i];
        assert Stored(old(props), done) == Stored(old(props), devices[..i])[Key(devices[i]) := devices[i]];
        assert AllEvents(done) == AllEvents(devices[..i]) + AccessoryEvents(devices[i]);
        AddAccessory(devices[i]);
        i := i + 1;
      }
      assert devices[..i] == devices;
    }

    /** `onMQTTMessage` for a decoded message. `info` and `functions` are
        the answers to `getDeviceInfo` and `getDeviceFunctions` for a
        "bindUser" message, `None` when that call throws. */
    method OnMqttMessage(message: Record, info: Option<Value>, functions: Option<Value>)
      modifies this`props, this`entries, this`events, this`calls
      ensures match RouteMessage(message)
              case Report(id, status) =>
                events == old(events) + [StatusChanged(id, status)]
                && props == old(props) && entries == old(entries) && calls == old(calls)
              case Forget(id) =>
                entries == old(entries) - {id}
                && props == old(props) && events == old(events) && calls == old(calls)
              case Bind(id) =>
                entries == old(entries) && BindEffect(id, info, functions, old(props), old(events), old(calls), props, events, calls)
              case _ =>
                props == old(props) && entries == old(entries) && events == old(events) && calls == old(calls)
    {
      var action := RouteMessage(message);
      match action {
        case Report(id, status) =>
          events := events + [StatusChanged(id, status)];
        case Forget(id) =>
          entries := entries - {id};
        case Bind(id) =>
          OnBindUser(id, info, functions);
        case BindThrows =>
        case Ignore =>
      }
    }

    /** The new props, events and calls after a "bindUser" message for
        `id`: the two reads of the device are issued (the second only when
        the first answered), and the device, when both answered and it is
        complete, is registered and announced. */
    predicate BindEffect(id: Value, info: Option<Value>, functions: Option<Value>,
                               props0: map<string, Record>, events0: seq<Event>, calls0: seq<ApiCall>,
                               props1: map<string, Record>, events1: seq<Event>, calls1: seq<ApiCall>)
      reads this
    {
      var infoCall := ApiCall(HttpGet, DevicePath(Variant(projectType), ToJsString(id), ""), Undefined);
      var functionsCall := ApiCall(HttpGet, DevicePath(Variant(projectType), ToJsString(id), "/functions"), Undefined);
      && calls1 == calls0 + [infoCall] + (if info.Some? then [functionsCall] else [])
      && (if info.Some? && functions.Some? && BoundDevice(info.value, functions.value).Some?
          then var d := BoundDevice(info.value, functions.value).value;
               props1 == props0[Key(d) := d] && events1 == events0 + AccessoryEvents(d)
          else props1 == props0 && events1 == events0)
    }

    /** The "bindUser" branch of `onMQTTMessage`. */
    method OnBindUser(id: Value, info: Option<Value>, functions: Option<Value>)
      modifies this`props, this`events, this`calls
      ensures BindEffect(id, info, functions, old(props), old(events), old(calls), props, events, calls)
    {
      var variant := Variant(projectType);
      calls := calls + [ApiCall(HttpGet, DevicePath(variant, ToJsString(id), ""), Undefined)];
      if info.None? {
        return;
      }
      calls := calls + [ApiCall(HttpGet, DevicePath(variant, ToJsString(id), "/functions"), Undefined)];
      if functions.None? {
        return;
      }
      var device := BoundDevice(info.value, functions.value);
      if device.Some? {
        AddAccessory(device.value);
      }
    }

    /** `sendCommand(deviceId, code, value)`. */
    method SendCommand(deviceId: Value, code: Value, value: Value)
      modifies this`calls
      ensures calls == old(calls) +
                [ApiCall(HttpPost, DevicePath(Variant(projectType), ToJsString(deviceId), "/commands"), CommandPayload(code, value))]
    {
      calls := calls + [ApiCall(HttpPost, DevicePath(Variant(projectType), ToJsString(deviceId), "/commands"),
                                CommandPayload(code, value))];
    }
  }
}
