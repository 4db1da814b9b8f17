/** Home Assistant MQTT discovery messages (gti-control/app/mqtt_discovery.py).
    Each `publish_*` function is modelled by the message it hands to
    `client.publish`: its topic, its payload dict (before `json.dumps`) and its
    retain flag. The broker's retained-message store is modelled too, to state
    what republishing does. */
module Discovery {
  import opened Python
  import opened Text
  import Mapping

  datatype Message = Message(topic: string, payload: Json, retain: bool)

  /** `disc_topic(prefix, comp, object_id)` */
  function DiscTopic(prefix: string, comp: string, objectId: string): string {
    prefix + "/" + comp + "/" + objectId + "/config"
  }

  /** `obj_id(device_id, key)` */
  function ObjId(deviceId: string, key: string): string {
    deviceId + "_" + key
  }

  /** The retained state topic every entity reads from. */
  function StateTopic(deviceId: string): string {
    "gti/" + deviceId + "/state"
  }

  /** The command topic of a writable entity; `kind` is "number" or "datetime". */
  function CommandTopic(kind: string, deviceId: string, key: string): string {
    "gti/" + deviceId + "/cmd/" + kind + "/" + key
  }

  function ValueTemplate(key: string, default: string): string {
    "{{ value_json." + key + " | default(" + default + ") }}"
  }

  /** A Python truthiness test on an optional string (`if meta[2]:`). */
  predicate Present(o: Option<string>) {
    o.Some? && o.value != ""
  }

  /** What every discovery message shares: a retained config topic under the
      component, `unique_id` equal to the object id, the device's state topic and
      the device block. */
  predicate Announces(m: Message, prefix: string, comp: string, deviceId: string, key: string, info: Dict) {
    && m.topic == DiscTopic(prefix, comp, ObjId(deviceId, key))
    && m.retain
    && m.payload.JObj?
    && Get(m.payload.fields, "unique_id") == JStr(ObjId(deviceId, key))
    && Get(m.payload.fields, "state_topic") == JStr(StateTopic(deviceId))
    && Get(m.payload.fields, "device") == JObj(info)
  }

  /** `publish_sensor` */
  function SensorMessage(prefix: string, deviceId: string, key: string, meta: Mapping.SensorMeta, info: Dict): (m: Message)
    ensures Announces(m, prefix, "sensor", deviceId, key, info)
    ensures Get(m.payload.fields, "name") == JStr(meta.name)
    ensures Get(m.payload.fields, "unit_of_measurement") == JStr(meta.unit)
    ensures Get(m.payload.fields, "value_template") == JStr(ValueTemplate(key, "0.0"))
    ensures "device_class" in m.payload.fields <==> Present(meta.deviceClass)
    ensures "state_class" in m.payload.fields <==> Present(meta.stateClass)
    ensures Present(meta.deviceClass) ==> m.payload.fields["device_class"] == JStr(meta.deviceClass.value)
    ensures Present(meta.stateClass) ==> m.payload.fields["state_class"] == JStr(meta.stateClass.value)
    ensures m.payload.fields.Keys - {"device_class", "state_class"}
         == {"name", "state_topic", "unit_of_measurement", "value_template", "unique_id", "device"}
  {
    var objectId := ObjId(deviceId, key);
    var payload := map[
      "name" := JStr(meta.name),
      "state_topic" := JStr(StateTopic(deviceId)),
      "unit_of_measurement" := JStr(meta.unit),
      "value_template" := JStr(ValueTemplate(key, "0.0")),
      "unique_id" := JStr(objectId),
      "device" := JObj(info)];
    var withClass := if Present(meta.deviceClass) then payload["device_class" := JStr(meta.deviceClass.value)] else payload;
    var withState := if Present(meta.stateClass) then withClass["state_class" := JStr(meta.stateClass.value)] else withClass;
    Message(DiscTopic(prefix, "sensor", objectId), JObj(withState), true)
  }

  /** `publish_binary_sensor`: the device's online flag. */
  function BinarySensorMessage(prefix: string, deviceId: string, info: Dict): (m: Message)
    ensures Announces(m, prefix, "binary_sensor", deviceId, "online", info)
    ensures Get(m.payload.fields, "payload_on") == JStr("ON")
    ensures Get(m.payload.fields, "payload_off") == JStr("OFF")
    ensures Get(m.payload.fields, "value_template") == JStr("{{ 'ON' if value_json.online else 'OFF' }}")
    ensures Get(m.payload.fields, "name") == JStr("Trạng thái online")
    ensures m.payload.fields.Keys == {"name", "state_topic", "value_template", "payload_on", "payload_off",
                                      "unique_id", "device"}
  {
    var objectId := ObjId(deviceId, "online");
    var payload := map[
      "name" := JStr("Trạng thái online"),
      "state_topic" := JStr(StateTopic(deviceId)),
      "value_template" := JStr("{{ 'ON' if value_json.online else 'OFF' }}"),
      "payload_on" := JStr("ON"),
      "payload_off" := JStr("OFF"),
      "unique_id" := JStr(objectId),
      "device" := JObj(info)];
    Message(DiscTopic(prefix, "binary_sensor", objectId), JObj(payload), true)
  }

  /** `publish_number`: a writable value with its command topic and range. */
  function NumberMessage(prefix: string, deviceId: string, key: string, name: string, unit: string,
                         minv: Json, maxv: Json, step: Json, info: Dict): (m: Message)
    ensures Announces(m, prefix, "number", deviceId, key, info)
    ensures Get(m.payload.fields, "command_topic") == JStr(CommandTopic("number", deviceId, key))
    ensures Get(m.payload.fields, "unit_of_measurement") == JStr(unit)
    ensures Get(m.payload.fields, "min") == minv && Get(m.payload.fields, "max") == maxv
    ensures Get(m.payload.fields, "step") == step
    ensures Get(m.payload.fields, "name") == JStr(name)
    ensures Get(m.payload.fields, "value_template") == JStr(ValueTemplate(key, "0.0"))
    ensures m.payload.fields.Keys == {"name", "command_topic", "state_topic", "value_template", "unique_id",
                                      "device", "unit_of_measurement", "min", "max", "step"}
  {
    var objectId := ObjId(deviceId, key);
    var payload := map[
      "name" := JStr(name),
      "command_topic" := JStr(CommandTopic("number", deviceId, key)),
      "state_topic" := JStr(StateTopic(deviceId)),
      "value_template" := JStr(ValueTemplate(key, "0.0")),
      "unique_id" := JStr(objectId),
      "device" := JObj(info),
      "unit_of_measurement" := JStr(unit),
      "min" := minv, "max" := maxv, "step" := step];
    Message(DiscTopic(prefix, "number", objectId), JObj(payload), true)
  }

  /** `publish_datetime`: a writable time of day shown as '00:00' until set. */
  function DatetimeMessage(prefix: string, deviceId: string, key: string, name: string, info: Dict): (m: Message)
    ensures Announces(m, prefix, "datetime", deviceId, key, info)
    ensures Get(m.payload.fields, "command_topic") == JStr(CommandTopic("datetime", deviceId, key))
    ensures Get(m.payload.fields, "value_template") == JStr(ValueTemplate(key, "'00:00'"))
    ensures Get(m.payload.fields, "name") == JStr(name)
    ensures m.payload.fields.Keys == {"name", "command_topic", "state_topic", "value_template", "unique_id", "device"}
  {
    var objectId := ObjId(deviceId, key);
    var payload := map[
      "name" := JStr(name),
      "command_topic" := JStr(CommandTopic("datetime", deviceId, key)),
      "state_topic" := JStr(StateTopic(deviceId)),
      "value_template" := JStr(ValueTemplate(key, "'00:00'")),
      "unique_id" := JStr(objectId),
      "device" := JObj(info)];
    Message(DiscTopic(prefix, "datetime", objectId), JObj(payload), true)
  }

  /** Two config topics under one prefix are equal only for the same component and
      object id, as long as component names hold no '/'. */
  lemma DiscTopicInjective(prefix: string, c1: string, o1: string, c2: string, o2: string)
    requires NoSep(c1, '/') && NoSep(c2, '/')
    requires DiscTopic(prefix, c1, o1) == DiscTopic(prefix, c2, o2)
    ensures c1 == c2 && o1 == o2
  {
    var n := |prefix| + 1;
    var s1, s2 := o1 + "/config", o2 + "/config";
    var r1, r2 := c1 + "/" + s1, c2 + "/" + s2;
    assert DiscTopic(prefix, c1, o1)[n..] == r1;
    assert DiscTopic(prefix, c2, o2)[n..] == r2;
    SplitAfterPiece(c1, '/', s1);
    SplitAfterPiece(c2, '/', s2);
    assert c1 == Split(r1, '/')[0] == Split(r2, '/')[0] == c2;
    assert r1[|c1| + 1..] == s1 && r2[|c2| + 1..] == s2;
    assert o1 == s1[..|s1| - 7] && o2 == s2[..|s2| - 7];
  }

  /** Object ids of one device are equal only for the same key. */
  lemma ObjIdInjective(deviceId: string, k1: string, k2: string)
    requires ObjId(deviceId, k1) == ObjId(deviceId, k2)
    ensures k1 == k2
  {
    assert k1 == ObjId(deviceId, k1)[|deviceId| + 1..];
    assert k2 == ObjId(deviceId, k2)[|deviceId| + 1..];
  }

  /** A config topic splits back into prefix, component, object id and "config". */
  lemma DiscTopicSplits(prefix: string, comp: string, objectId: string)
    requires NoSep(prefix, '/') && NoSep(comp, '/') && NoSep(objectId, '/')
    ensures Split(DiscTopic(prefix, comp, objectId), '/') == [prefix, comp, objectId, "config"]
  {
    var parts := [prefix, comp, objectId, "config"];
    assert Join(parts, '/') == DiscTopic(prefix, comp, objectId) by {
      assert Join(parts[3..], '/') == "config";
      assert Join(parts[2..], '/') == objectId + "/" + "config";
      assert Join(parts[1..], '/') == comp + "/" + (objectId + "/" + "config");
    }
    SplitJoin(parts, '/');
  }

  /** A command topic splits into "gti", the device id, "cmd", the kind and the key
      when neither the device id nor the key holds a '/'. */
  lemma CommandTopicSplits(kind: string, deviceId: string, key: string)
    requires kind == "number" || kind == "datetime"
    requires NoSep(deviceId, '/') && NoSep(key, '/')
    ensures Split(CommandTopic(kind, deviceId, key), '/') == ["gti", deviceId, "cmd", kind, key]
  {
    var parts := ["gti", deviceId, "cmd", kind, key];
    assert Join(parts, '/') == CommandTopic(kind, deviceId, key) by {
      assert Join(parts[4..], '/') == key;
      assert Join(parts[3..], '/') == kind + "/" + key;
      assert Join(parts[2..], '/') == "cmd" + "/" + (kind + "/" + key);
      assert Join(parts[1..], '/') == deviceId + "/" + ("cmd" + "/" + (kind + "/" + key));
    }
    assert NoSep("gti", '/') && NoSep("cmd", '/') && NoSep(kind, '/');
    SplitJoin(parts, '/');
  }

  /** The broker's retained store after `ms` are published: each retained message
      replaces what its topic held. */
  function Retain(store: map<string, Json>, ms: seq<Message>): map<string, Json>
    decreases |ms|
  {
    if ms == [] then store
    else Retain(if ms[0].retain then store[ms[0].topic := ms[0].payload] else store, ms[1..])
  }

  /** One retained message replaces what its topic held. */
  lemma RetainOne(store: map<string, Json>, m: Message)
    ensures Retain(store, [m]) == if m.retain then store[m.topic := m.payload] else store
  {
    var next := if m.retain then store[m.topic := m.payload] else store;
    assert [m][1..] == [];
    assert Retain(next, []) == next;
  }

  /** Publishing two batches is publishing the first, then the second. */
  lemma {:induction false} RetainAppend(store: map<string, Json>, a: seq<Message>, b: seq<Message>)
    ensures Retain(store, a + b) == Retain(Retain(store, a), b)
    decreases |a|
  {
    if a != [] {
      assert (a + b)[0] == a[0] && (a + b)[1..] == a[1..] + b;
      RetainAppend(if a[0].retain then store[a[0].topic := a[0].payload] else store, a[1..], b);
    } else {
      assert a + b == b;
    }
  }

  /** The last retained payload of each topic in `ms`. */
  function Latest(ms: seq<Message>): map<string, Json>
    decreases |ms|
  {
    if ms == [] then map[]
    else (if ms[0].retain then map[ms[0].topic := ms[0].payload] else map[]) + Latest(ms[1..])
  }

  lemma {:induction false} RetainOverwrites(store: map<string, Json>, ms: seq<Message>)
    ensures Retain(store, ms) == store + Latest(ms)
    decreases |ms|
  {
    if ms != [] {
      var m := ms[0];
      var first := if m.retain then map[m.topic := m.payload] else map[];
      RetainOverwrites(store + first, ms[1..]);
      assert (if m.retain then store[m.topic := m.payload] else store) == store + first;
      assert (store + first) + Latest(ms[1..]) == store + (first + Latest(ms[1..]));
    }
  }

  /** Publishing the same retained messages again leaves the broker's store as it
      was: republishing discovery is idempotent. */
  lemma RepublishIdempotent(store: map<string, Json>, ms: seq<Message>)
    ensures Retain(Retain(store, ms), ms) == Retain(store, ms)
  {
    RetainOverwrites(store, ms);
    RetainOverwrites(store + Latest(ms), ms);
    assert (store + Latest(ms)) + Latest(ms) == store + Latest(ms);
  }
}
