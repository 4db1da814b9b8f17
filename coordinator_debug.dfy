/** The debug coordinator (gti-control-debug/app/coordinator.py). It differs from
    the release one in four ways: the state record starts from what the debug API
    client returns from the server, nothing is published or cached without an MQTT
    client, the failure path republishes only a cached non-empty record, and it
    handles number commands arriving over MQTT. `fmt2`, `_device_info`, the entity
    list and the metric loop are the release ones (module Coordinator). */
module DebugCoordinator {
  import opened Python
  import opened Text
  import opened Http
  import Discovery
  import Mapping
  import DebugMapping
  import DebugApi
  import Release = Coordinator

  /** `{**GTI_SENSORS, **GRID_SENSORS, **TIEUTHU_SENSORS}` over the debug tables. */
  function Sensors(): Table<Mapping.SensorMeta> {
    Merge(Merge(Merge([], DebugMapping.GtiSensors()), DebugMapping.GridSensors()), DebugMapping.TieuthuSensors())
  }

  /** The debug merge is the release merge, so both builds format the same 13
      metric names, in the same order. */
  lemma SameSensors()
    ensures Sensors() == Release.Sensors()
    ensures KeysOf(Sensors()) == Release.MetricKeys()
  {
    DebugMapping.SameTablesAsRelease();
    Release.MetricKeysList();
  }

  /** `discover_entities` announces the same 28 entities as the release:
      13 sensors, 1 binary sensor, 8 numbers and 6 datetimes. */
  lemma DiscoveryCounts(comp: string)
    ensures |Release.Entities(Sensors())| == 28
    ensures Release.Count(Release.Entities(Sensors()), comp) ==
      if comp == "sensor" then 13 else if comp == "binary_sensor" then 1
      else if comp == "number" then 8 else if comp == "datetime" then 6 else 0
  {
    SameSensors();
    Release.DiscoveryCounts(comp);
  }

  /** A setting write `handle_number_cmd` asks the API client for. */
  datatype Write =
    | CutoffVoltage(deviceId: string, volts: real)
    | MaxPower(deviceId: string, watts: real)

  /** `handle_number_cmd` on a message with `topic` whose payload decodes to `text`
      (None when decoding fails); `parse` is `float()`, None where it raises.
      Raised when the topic has no '/', otherwise the write it requests, if any. */
  function NumberCommand(topic: string, text: Option<string>, parse: string -> Option<real>)
    : (r: Outcome<Option<Write>>)
    ensures r == Raised <==> |Split(topic, '/')| < 2
    ensures r.Returned? && r.value.Some? ==>
      && text.Some? && parse(Strip(text.value)).Some?
      && var parts := Split(topic, '/');
      && var key := parts[|parts| - 1];
      && (key == "cutoff_voltage" || key == "max_power_limit")
      && r.value.value == (if key == "cutoff_voltage" then CutoffVoltage(parts[1], parse(Strip(text.value)).value)
                           else MaxPower(parts[1], parse(Strip(text.value)).value))
  {
    var parts := Split(topic, '/');
    if |parts| < 2 then Raised
    else
      var deviceId, key := parts[1], parts[|parts| - 1];
      if text.None? then Returned(None)
      else match parse(Strip(text.value))
        case None => Returned(None)
        case Some(v) =>
          if key == "cutoff_voltage" then Returned(Some(CutoffVoltage(deviceId, v)))
          else if key == "max_power_limit" then Returned(Some(MaxPower(deviceId, v)))
          else Returned(None)
  }

  /** A command sent on the topic a number entity announces reaches that device and
      key: the two device settings write the parsed value, every other number
      (the schedule settings) and every unparsable payload write nothing. */
  lemma NumberCommandRoundTrip(deviceId: string, key: string, text: string, parse: string -> Option<real>)
    requires NoSep(deviceId, '/') && NoSep(key, '/')
    ensures NumberCommand(Discovery.CommandTopic("number", deviceId, key), Some(text), parse) ==
      match parse(Strip(text))
      case None => Returned(None)
      case Some(v) =>
        if key == "cutoff_voltage" then Returned(Some(CutoffVoltage(deviceId, v)))
        else if key == "max_power_limit" then Returned(Some(MaxPower(deviceId, v)))
        else Returned(None)
  {
    var parts := Split(Discovery.CommandTopic("number", deviceId, key), '/');
    Discovery.CommandTopicSplits("number", deviceId, key);
    assert |parts| == 5 && parts[1] == deviceId && parts[4] == key;
  }

  /** What `read_device_state` can answer: {} or a projected server record. */
  predicate ReadShape(read: Outcome<Dict>) {
    read.Returned? ==> read.value == map[] || read.value.Keys == DebugApi.ProjectionKeys()
  }

  /** What `build_state` ends with, given what `read_device_state` ended with. */
  function Built(round2: Release.Round2, read: Outcome<Dict>): Outcome<Dict> {
    match read
    case Raised => Raised
    case Returned(st) => Returned(Release.Normalized(round2, st))
  }

  /** No projected field is a metric name or `online`. */
  lemma ProjectionApart()
    ensures forall k :: k in DebugApi.ProjectionKeys() ==> k !in Release.MetricKeys() && k != "online"
  {
  }

  /** The debug state record: every metric is `fmt2(0.0)`, because the projected
      server record never holds a metric name; `online` is True; the projected
      fields (`deviceId`, `value`, `raw`, ...) are kept as read. */
  lemma RecordShape(round2: Release.Round2, st: Dict)
    requires st == map[] || st.Keys == DebugApi.ProjectionKeys()
    ensures Release.Normalized(round2, st).Keys == st.Keys + (set k | k in Release.MetricKeys()) + {"online"}
    ensures forall k :: k in Release.MetricKeys() ==> Release.Normalized(round2, st)[k] == Release.Fmt2(round2, JFloat(0.0))
    ensures Release.Normalized(round2, st)["online"] == JBool(true)
    ensures forall k :: k in st ==> Release.Normalized(round2, st)[k] == st[k]
  {
    Release.NormalizedShape(round2, st);
    ProjectionApart();
    forall k | k in Release.MetricKeys()
      ensures Release.Normalized(round2, st)[k] == Release.Fmt2(round2, JFloat(0.0))
    {
      assert GetOr(st, k, JFloat(0.0)) == JFloat(0.0);
    }
  }

  /** One device of a debug poll cycle, given how building its state ended: the
      new cache and the messages published. With no MQTT client nothing is
      published and nothing is cached; after a failure only a cached non-empty
      record is touched, marked offline in place. */
  function Step(hasClient: bool, cache: map<string, Dict>, deviceId: string, built: Outcome<Dict>)
    : (map<string, Dict>, seq<Discovery.Message>)
  {
    match built
    case Returned(st) =>
      if hasClient then (cache[deviceId := st], [Release.StateMessage(deviceId, st)]) else (cache, [])
    case Raised =>
      if deviceId in cache && cache[deviceId] != map[] then
        var st := cache[deviceId]["online" := JBool(false)];
        (cache[deviceId := st], if hasClient then [Release.StateMessage(deviceId, st)] else [])
      else (cache, [])
  }

  /** With an MQTT client the debug step is the release step whenever the build
      succeeds or a non-empty record is cached. */
  lemma StepAgrees(cache: map<string, Dict>, deviceId: string, built: Outcome<Dict>)
    requires built.Returned? || (deviceId in cache && cache[deviceId] != map[])
    ensures Step(true, cache, deviceId, built) == Release.Step(cache, deviceId, built)
  {
  }

  /** The two copies part ways when building fails for a device with no cached
      record: the release publishes `{"online": false}` and caches it, the debug
      copy publishes and caches nothing. */
  lemma FallbackDiffers(cache: map<string, Dict>, deviceId: string)
    requires deviceId !in cache
    ensures Step(true, cache, deviceId, Raised) == (cache, [])
    ensures Release.Step(cache, deviceId, Raised)
         == (cache[deviceId := map["online" := JBool(false)]],
             [Release.StateMessage(deviceId, map["online" := JBool(false)])])
  {
  }

  /** One debug poll cycle over `devices`, in order, given how building each
      device's state ended. */
  function Cycle(hasClient: bool, cache: map<string, Dict>, devices: seq<string>, built: seq<Outcome<Dict>>)
    : (map<string, Dict>, seq<Discovery.Message>)
    requires |built| == |devices|
    decreases |devices|
  {
    if devices == [] then (cache, [])
    else
      var n := |devices| - 1;
      var prev := Cycle(hasClient, cache, devices[..n], built[..n]);
      var next := Step(hasClient, prev.0, devices[n], built[n]);
      (next.0, prev.1 + next.1)
  }

  /** The cycle over one more device is the cycle so far followed by its step. */
  lemma CycleSnoc(hasClient: bool, cache: map<string, Dict>, devices: seq<string>,
                  built: seq<Outcome<Dict>>, r: Outcome<Dict>)
    requires |built| < |devices|
    ensures var i := |built|;
      var prev := Cycle(hasClient, cache, devices[..i], built);
      var next := Step(hasClient, prev.0, devices[i], r);
      Cycle(hasClient, cache, devices[..i + 1], built + [r]) == (next.0, prev.1 + next.1)
  {
    var i := |built|;
    assert devices[..i + 1][..i] == devices[..i] && devices[..i + 1][i] == devices[i];
    assert (built + [r])[..i] == built && (built + [r])[i] == r;
  }

  /** Without an MQTT client a cycle that starts from an empty cache publishes
      nothing and caches nothing. */
  lemma {:induction false} QuietWithoutClient(devices: seq<string>, built: seq<Outcome<Dict>>)
    requires |built| == |devices|
    ensures Cycle(false, map[], devices, built) == (map[], [])
    decreases |devices|
  {
    if devices != [] {
      var n := |devices| - 1;
      QuietWithoutClient(devices[..n], built[..n]);
      var prev := Cycle(false, map[], devices[..n], built[..n]);
      var next := Step(false, map[], devices[n], built[n]);
      assert prev == (map[], []) && next == (map[], []);
      assert prev.1 + next.1 == [];
      assert Cycle(false, map[], devices, built) == (next.0, prev.1 + next.1);
    }
  }

  /** With an MQTT client and every build returning, a debug cycle is the release
      cycle over the same builds, so it publishes one retained state message per
      device, in list order, and caches every device (Coordinator.CycleOrder). */
  lemma {:induction false} CycleAgrees(cache: map<string, Dict>, devices: seq<string>, built: seq<Outcome<Dict>>)
    requires |built| == |devices|
    requires forall i :: 0 <= i < |built| ==> built[i].Returned?
    ensures Cycle(true, cache, devices, built) == Release.Cycle(cache, devices, built)
    ensures |Cycle(true, cache, devices, built).1| == |devices|
    ensures forall i :: 0 <= i < |devices| ==>
      Cycle(true, cache, devices, built).1[i].topic == Discovery.StateTopic(devices[i])
    decreases |devices|
  {
    if devices != [] {
      var n := |devices| - 1;
      CycleAgrees(cache, devices[..n], built[..n]);
      var prev := Cycle(true, cache, devices[..n], built[..n]);
      StepAgrees(prev.0, devices[n], built[n]);
    }
    Release.CycleOrder(cache, devices, built);
  }

  /** Every message a debug cycle publishes is the retained state message of a
      listed device, and there is at most one per device. */
  lemma {:induction false} CycleTopics(hasClient: bool, cache: map<string, Dict>,
                                       devices: seq<string>, built: seq<Outcome<Dict>>)
    requires |built| == |devices|
    ensures |Cycle(hasClient, cache, devices, built).1| <= |devices|
    ensures forall j :: 0 <= j < |Cycle(hasClient, cache, devices, built).1| ==>
      && Cycle(hasClient, cache, devices, built).1[j].retain
      && exists i :: 0 <= i < |devices| && Cycle(hasClient, cache, devices, built).1[j].topic == Discovery.StateTopic(devices[i])
    decreases |devices|
  {
    if devices != [] {
      var n := |devices| - 1;
      var prev := Cycle(hasClient, cache, devices[..n], built[..n]);
      var next := Step(hasClient, prev.0, devices[n], built[n]);
      CycleTopics(hasClient, cache, devices[..n], built[..n]);
      var ms := prev.1 + next.1;
      assert |next.1| <= 1 && forall j :: 0 <= j < |next.1| ==> next.1[j].retain && next.1[j].topic == Discovery.StateTopic(devices[n]);
      forall j | 0 <= j < |ms|
        ensures ms[j].retain && exists i :: 0 <= i < |devices| && ms[j].topic == Discovery.StateTopic(devices[i])
      {
        if j < |prev.1| {
          var i :| 0 <= i < n && prev.1[j].topic == Discovery.StateTopic(devices[..n][i]);
          assert devices[..n][i] == devices[i];
        } else {
          assert ms[j] == next.1[j - |prev.1|];
        }
      }
    }
  }

  /** With an MQTT client a debug cycle keeps the broker's retained state topics
      equal to the cache. */
  lemma {:induction false} CycleMirrors(cache: map<string, Dict>, store: map<string, Json>,
                                        devices: seq<string>, built: seq<Outcome<Dict>>)
    requires |built| == |devices|
    requires Release.Mirrors(cache, store)
    ensures Release.Mirrors(Cycle(true, cache, devices, built).0,
                            Discovery.Retain(store, Cycle(true, cache, devices, built).1))
    decreases |devices|
  {
    if devices != [] {
      var n := |devices| - 1;
      var prev := Cycle(true, cache, devices[..n], built[..n]);
      CycleMirrors(cache, store, devices[..n], built[..n]);
      var mid := Discovery.Retain(store, prev.1);
      var next := Step(true, prev.0, devices[n], built[n]);
      Discovery.RetainAppend(store, prev.1, next.1);
      if next.1 == [] {
        assert next.0 == prev.0;
        assert Discovery.Retain(mid, []) == mid;
      } else {
        var st := if built[n].Returned? then built[n].value
                  else prev.0[devices[n]]["online" := JBool(false)];
        assert next == (prev.0[devices[n] := st], [Release.StateMessage(devices[n], st)]);
        Release.PublishMirrors(prev.0, mid, devices[n], st);
      }
    }
  }

  class Coordinator {
    const prefix: string
    /** `self.client` is not None. */
    const hasClient: bool
    const publishMqtt: bool
    const serverEnabled: bool
    const api: DebugApi.Client?
    const round2: Release.Round2
    /** `state_cache` */
    var stateCache: map<string, Dict>
    /** What the MQTT client has been asked to publish, oldest first. */
    var published: seq<Discovery.Message>

    constructor (hasClient: bool, prefix: string, options: Dict, api: DebugApi.Client?, round2: Release.Round2)
      ensures this.hasClient == hasClient && this.prefix == prefix && this.api == api && this.round2 == round2
      ensures publishMqtt == Truthy(GetOr(options, "publish_mqtt", JBool(true)))
      ensures serverEnabled == Truthy(GetOr(options, "server_enabled", JBool(true)))
      ensures stateCache == map[] && published == []
    {
      this.hasClient := hasClient;
      this.prefix := prefix;
      this.api := api;
      this.round2 := round2;
      publishMqtt := Truthy(GetOr(options, "publish_mqtt", JBool(true)));
      serverEnabled := Truthy(GetOr(options, "server_enabled", JBool(true)));
      stateCache := map[];
      published := [];
    }

    /** `discover_entities`: nothing when `publish_mqtt` is off or there is no MQTT
        client, otherwise the announcements of every entity, in order. */
    method DiscoverEntities(deviceId: string)
      modifies this
      ensures stateCache == old(stateCache)
      ensures published == old(published)
        + (if publishMqtt && hasClient
           then Release.Announcements(prefix, deviceId, Release.DeviceInfo(deviceId), Release.Entities(Sensors()))
           else [])
    {
      if !publishMqtt || !hasClient {
        return;
      }
      AnnounceEach(deviceId, Release.DeviceInfo(deviceId), Release.Entities(Sensors()));
    }

    /** The `publish_*` calls for `es`, one after the other. */
    method AnnounceEach(deviceId: string, info: Dict, es: seq<Release.Entity>)
      modifies this
      ensures stateCache == old(stateCache)
      ensures published == old(published) + Release.Announcements(prefix, deviceId, info, es)
    {
      var i := 0;
      while i < |es|
        invariant 0 <= i <= |es|
        invariant stateCache == old(stateCache)
        invariant published == old(published) + Release.Announcements(prefix, deviceId, info, es[..i])
      {
        Release.AnnounceStep(prefix, deviceId, info, old(published), es, i);
        published := published + [Release.Announce(prefix, deviceId, info, es[i])];
        i := i + 1;
      }
      assert es[..i] == es;
    }

    /** The API client's session (a blank one when there is no client). */
    function ApiSession(): DebugApi.Session
      reads api
    {
      if api != null then api.Current() else DebugApi.Session(JNull, JNull, 0)
    }

    /** What `read_device_state(device_id)` answers when the API client holds
        session `s`: {} unless the server is enabled and there is an API client. */
    function StateRead(s: DebugApi.Session, now: int, signIns: DebugApi.SignIns,
                       fetch: DebugApi.Answers, deviceId: string): (r: Outcome<Dict>)
      ensures ReadShape(r)
      ensures !(serverEnabled && api != null) ==> r == Returned(map[])
    {
      if serverEnabled && api != null then api.ReadResult(s, now, signIns, fetch, deviceId) else Returned(map[])
    }

    /** The API client's session after `read_device_state` from session `s`: the
        one its `uid`/login guard leaves, or `s` when no read is made. */
    function SessionAfterRead(s: DebugApi.Session, now: int, signIns: DebugApi.SignIns): DebugApi.Session {
      if serverEnabled && api != null
      then DebugApi.SessionAfter(DebugApi.UserGuard(api.serverEnabled, api.apiKey, api.email, api.password, s, now, signIns), s)
      else s
    }

    /** The API client's user cache file after `read_device_state` from session
        `s` and file content `file`. */
    function FileAfterRead(s: DebugApi.Session, file: Json, now: int, signIns: DebugApi.SignIns): Json {
      if serverEnabled && api != null
      then DebugApi.FileAfter(DebugApi.UserGuard(api.serverEnabled, api.apiKey, api.email, api.password, s, now, signIns), file, api.base)
      else file
    }

    /** The content of the API client's user cache file (null without a client). */
    function ApiFile(): Json
      reads api
    {
      if api != null then api.userFile else JNull
    }

    /** `read_device_state` */
    method ReadDeviceState(now: int, signIns: DebugApi.SignIns, fetch: DebugApi.Answers,
                           deviceId: string) returns (r: Outcome<Dict>)
      modifies api
      ensures r == StateRead(old(ApiSession()), now, signIns, fetch, deviceId)
      ensures ApiSession() == SessionAfterRead(old(ApiSession()), now, signIns)
      ensures ApiFile() == FileAfterRead(old(ApiSession()), old(ApiFile()), now, signIns)
      ensures api != null && !serverEnabled ==> unchanged(api)
    {
      if serverEnabled && api != null {
        r := api.ReadStateServer(now, signIns, fetch, deviceId);
      } else {
        r := Returned(map[]);
      }
    }

    /** `build_state` */
    method BuildState(now: int, signIns: DebugApi.SignIns, fetch: DebugApi.Answers,
                      deviceId: string) returns (r: Outcome<Dict>, ghost read: Outcome<Dict>)
      modifies api
      ensures read == StateRead(old(ApiSession()), now, signIns, fetch, deviceId)
      ensures ApiSession() == SessionAfterRead(old(ApiSession()), now, signIns)
      ensures ApiFile() == FileAfterRead(old(ApiSession()), old(ApiFile()), now, signIns)
      ensures api != null && !serverEnabled ==> unchanged(api)
      ensures r == Built(round2, read)
    {
      var got := ReadDeviceState(now, signIns, fetch, deviceId);
      read := got;
      if got.Raised? {
        return Raised, read;
      }
      var st := Release.NormalizeMetrics(round2, got.value);
      return Returned(st), read;
    }

    /** `publish_state`: with an MQTT client the retained state message and the
        cache entry, without one nothing. */
    method PublishState(deviceId: string, st: Dict)
      modifies this
      ensures published == old(published) + (if hasClient then [Release.StateMessage(deviceId, st)] else [])
      ensures stateCache == if hasClient then old(stateCache)[deviceId := st] else old(stateCache)
    {
      if !hasClient {
        return;
      }
      published := published + [Release.StateMessage(deviceId, st)];
      stateCache := stateCache[deviceId := st];
    }

    /** One device of the polling loop at time `now`. */
    method PollDevice(now: int, signIns: DebugApi.SignIns, fetch: DebugApi.Answers,
                      deviceId: string) returns (ghost read: Outcome<Dict>, b: Outcome<Dict>)
      modifies this, api
      ensures read == StateRead(old(ApiSession()), now, signIns, fetch, deviceId)
      ensures ApiSession() == SessionAfterRead(old(ApiSession()), now, signIns)
      ensures ApiFile() == FileAfterRead(old(ApiSession()), old(ApiFile()), now, signIns)
      ensures api != null && !serverEnabled ==> unchanged(api)
      ensures ReadShape(read) && (!(serverEnabled && api != null) ==> read == Returned(map[]))
      ensures b == Built(round2, read)
      ensures stateCache == Step(hasClient, old(stateCache), deviceId, b).0
      ensures published == old(published) + Step(hasClient, old(stateCache), deviceId, b).1
    {
      b, read := BuildState(now, signIns, fetch, deviceId);
      assert stateCache == old(stateCache) && published == old(published);
      Settle(deviceId, b);
    }

    /** The `try`/`except` of one device once `build_state` has ended: publish the
        record it built, or fall back to the cached one. */
    method Settle(deviceId: string, b: Outcome<Dict>)
      modifies this
      ensures stateCache == Step(hasClient, old(stateCache), deviceId, b).0
      ensures published == old(published) + Step(hasClient, old(stateCache), deviceId, b).1
    {
      if b.Returned? {
        PublishState(deviceId, b.value);
      } else {
        MarkOffline(deviceId);
      }
    }

    /** The `except` branch of the loop: a cached non-empty record is marked
        offline in place and published again; anything else is left alone. */
    method MarkOffline(deviceId: string)
      modifies this
      ensures stateCache == Step(hasClient, old(stateCache), deviceId, Raised).0
      ensures published == old(published) + Step(hasClient, old(stateCache), deviceId, Raised).1
    {
      var st := if deviceId in stateCache then stateCache[deviceId] else map[];
      if st != map[] {
        st := st["online" := JBool(false)];
        stateCache := stateCache[deviceId := st];
        PublishState(deviceId, st);
      }
    }

    /** What a polling loop has read and built so far: each read is {} or a
        projection, {} whenever the server or the client is missing, and each
        build is the normalized record of its read. */
    predicate Polled(outcomes: seq<Outcome<Dict>>, built: seq<Outcome<Dict>>) {
      && |outcomes| == |built|
      && (forall j :: 0 <= j < |outcomes| ==> ReadShape(outcomes[j]) && built[j] == Built(round2, outcomes[j]))
      && (!(serverEnabled && api != null) ==> forall j :: 0 <= j < |outcomes| ==> outcomes[j] == Returned(map[]))
    }

    lemma PolledSnoc(outcomes: seq<Outcome<Dict>>, built: seq<Outcome<Dict>>, r: Outcome<Dict>, b: Outcome<Dict>)
      requires Polled(outcomes, built)
      requires ReadShape(r) && b == Built(round2, r) && (!(serverEnabled && api != null) ==> r == Returned(map[]))
      ensures Polled(outcomes + [r], built + [b])
    {
      var os, bs := outcomes + [r], built + [b];
      forall j | 0 <= j < |os|
        ensures ReadShape(os[j]) && bs[j] == Built(round2, os[j])
        ensures !(serverEnabled && api != null) ==> os[j] == Returned(map[])
      {
        if j < |outcomes| {
          assert os[j] == outcomes[j] && bs[j] == built[j];
        }
      }
    }

    /** The reads of a polling pass: the i-th device is read from `sessions[i]`,
        and its read leaves the client with `sessions[i + 1]` and the cache file
        `files[i + 1]`. */
    predicate ReadsChain(times: seq<int>, signIns: seq<DebugApi.SignIns>, fetch: DebugApi.Answers, devices: seq<string>,
                         outcomes: seq<Outcome<Dict>>, sessions: seq<DebugApi.Session>, files: seq<Json>) {
      && |times| == |devices| && |signIns| == |devices| && |outcomes| == |devices|
      && |sessions| == |devices| + 1 && |files| == |devices| + 1
      && forall i :: 0 <= i < |devices| ==>
           && outcomes[i] == StateRead(sessions[i], times[i], signIns[i], fetch, devices[i])
           && sessions[i + 1] == SessionAfterRead(sessions[i], times[i], signIns[i])
           && files[i + 1] == FileAfterRead(sessions[i], files[i], times[i], signIns[i])
    }

    /** One pass of the `while True` loop over `devices`, the i-th device polled at
        time `times[i]` with `signIns[i]` the replies a sign-in would get. Each
        device is read with the session the reads before it left. */
    method PollCycle(times: seq<int>, signIns: seq<DebugApi.SignIns>, fetch: DebugApi.Answers,
                     devices: seq<string>)
      returns (ghost outcomes: seq<Outcome<Dict>>, ghost built: seq<Outcome<Dict>>,
               ghost sessions: seq<DebugApi.Session>, ghost files: seq<Json>)
      requires |times| == |devices| && |signIns| == |devices|
      modifies this, api
      ensures |outcomes| == |devices| && Polled(outcomes, built)
      ensures ReadsChain(times, signIns, fetch, devices, outcomes, sessions, files)
      ensures sessions[0] == old(ApiSession()) && files[0] == old(ApiFile())
      ensures ApiSession() == sessions[|devices|] && ApiFile() == files[|devices|]
      ensures stateCache == Cycle(hasClient, old(stateCache), devices, built).0
      ensures published == old(published) + Cycle(hasClient, old(stateCache), devices, built).1
    {
      outcomes, built := [], [];
      sessions, files := [ApiSession()], [ApiFile()];
      var i := 0;
      while i < |devices|
        invariant 0 <= i <= |devices|
        invariant |outcomes| == i && Polled(outcomes, built)
        invariant ReadsChain(times[..i], signIns[..i], fetch, devices[..i], outcomes, sessions, files)
        invariant sessions[0] == old(ApiSession()) && files[0] == old(ApiFile())
        invariant ApiSession() == sessions[i] && ApiFile() == files[i]
        invariant stateCache == Cycle(hasClient, old(stateCache), devices[..i], built).0
        invariant published == old(published) + Cycle(hasClient, old(stateCache), devices[..i], built).1
      {
        ghost var prev := Cycle(hasClient, old(stateCache), devices[..i], built);
        ghost var r;
        var b;
        r, b := PollDevice(times[i], signIns[i], fetch, devices[i]);
        ghost var next := Step(hasClient, prev.0, devices[i], b);
        Release.AppendAssoc(old(published), prev.1, next.1);
        CycleSnoc(hasClient, old(stateCache), devices, built, b);
        PolledSnoc(outcomes, built, r, b);
        ReadsChainSnoc(times, signIns, fetch, devices, outcomes, sessions, files, i, r, ApiSession(), ApiFile());
        outcomes, built := outcomes + [r], built + [b];
        sessions, files := sessions + [ApiSession()], files + [ApiFile()];
        i := i + 1;
      }
      assert devices[..i] == devices && times[..i] == times && signIns[..i] == signIns;
    }

    lemma ReadsChainSnoc(times: seq<int>, signIns: seq<DebugApi.SignIns>, fetch: DebugApi.Answers, devices: seq<string>,
                         outcomes: seq<Outcome<Dict>>, sessions: seq<DebugApi.Session>, files: seq<Json>,
                         i: int, r: Outcome<Dict>, s: DebugApi.Session, f: Json)
      requires 0 <= i < |devices| && |times| == |devices| && |signIns| == |devices|
      requires ReadsChain(times[..i], signIns[..i], fetch, devices[..i], outcomes, sessions, files)
      requires r == StateRead(sessions[i], times[i], signIns[i], fetch, devices[i])
      requires s == SessionAfterRead(sessions[i], times[i], signIns[i])
      requires f == FileAfterRead(sessions[i], files[i], times[i], signIns[i])
      ensures ReadsChain(times[..i + 1], signIns[..i + 1], fetch, devices[..i + 1], outcomes + [r], sessions + [s], files + [f])
    {
      var os, ss, fs := outcomes + [r], sessions + [s], files + [f];
      forall j | 0 <= j < i + 1
        ensures os[j] == StateRead(ss[j], times[..i + 1][j], signIns[..i + 1][j], fetch, devices[..i + 1][j])
        ensures ss[j + 1] == SessionAfterRead(ss[j], times[..i + 1][j], signIns[..i + 1][j])
        ensures fs[j + 1] == FileAfterRead(ss[j], fs[j], times[..i + 1][j], signIns[..i + 1][j])
      {
        if j < i {
          assert times[..i][j] == times[j] && signIns[..i][j] == signIns[j] && devices[..i][j] == devices[j];
        }
      }
    }
  }
}
