/** The start-up of the release add-on's web server (gti-control/app/server.py): the
    MQTT connection settings, the choice of the devices to poll, and the login form
    that rewrites the credentials and starts the system again. The module globals
    `api_client`, `coordinator` and `device_ids` are the fields of class Server.
    The web pages, the templates, the MQTT connection itself and the poll thread
    are not part of this model. */
module Server {
  import opened Python
  import opened Http
  import Api
  import Coordinator

  /** `os.getenv(name)`: the variable's value, or None when it is not set. */
  function GetEnv(env: map<string, string>, name: string): (v: Json)
    ensures v == JNull <==> name !in env
    ensures name in env ==> v == JStr(env[name])
  {
    if name in env then JStr(env[name]) else JNull
  }

  /** The `mqtt_cfg` dict of `start_system`. */
  datatype MqttConfig = MqttConfig(host: Json, port: int, username: Json, password: Json)

  /** `mqtt_cfg`: the host from the `mqtt_host` option, else the MQTT_HOST
      variable, else 127.0.0.1; the port from `mqtt_port`, 1883 by default; user
      name and password from the options, else from the environment. Raised when
      `int()` rejects `mqtt_port`. */
  function MqttSettings(opt: Dict, env: map<string, string>): (r: Outcome<MqttConfig>)
    ensures r.Returned? <==> IntOf(GetOr(opt, "mqtt_port", JInt(1883))).Some?
    ensures "mqtt_port" !in opt ==> r.Returned? && r.value.port == 1883
    ensures r.Returned? ==> r.value.port == IntOf(GetOr(opt, "mqtt_port", JInt(1883))).value
    ensures r.Returned? ==> Truthy(r.value.host)
    ensures r.Returned? && Truthy(Get(opt, "mqtt_host")) ==> r.value.host == opt["mqtt_host"]
    ensures r.Returned? && !Truthy(Get(opt, "mqtt_host")) && "MQTT_HOST" in env && env["MQTT_HOST"] != "" ==>
      r.value.host == JStr(env["MQTT_HOST"])
    ensures r.Returned? && !Truthy(Get(opt, "mqtt_host")) && ("MQTT_HOST" !in env || env["MQTT_HOST"] == "") ==>
      r.value.host == JStr("127.0.0.1")
    ensures r.Returned? && Truthy(Get(opt, "mqtt_username")) ==> r.value.username == opt["mqtt_username"]
    ensures r.Returned? && !Truthy(Get(opt, "mqtt_username")) ==> r.value.username == GetEnv(env, "MQTT_USERNAME")
    ensures r.Returned? && Truthy(Get(opt, "mqtt_password")) ==> r.value.password == opt["mqtt_password"]
    ensures r.Returned? && !Truthy(Get(opt, "mqtt_password")) ==> r.value.password == GetEnv(env, "MQTT_PASSWORD")
  {
    match IntOf(GetOr(opt, "mqtt_port", JInt(1883)))
    case None => Raised
    case Some(port) =>
      Returned(MqttConfig(
        Or(Or(Get(opt, "mqtt_host"), GetEnv(env, "MQTT_HOST")), JStr("127.0.0.1")),
        port,
        Or(Get(opt, "mqtt_username"), GetEnv(env, "MQTT_USERNAME")),
        Or(Get(opt, "mqtt_password"), GetEnv(env, "MQTT_PASSWORD"))))
  }

  /** The ids `list_devices` returns, as the Python list of strings. */
  function Strs(ids: seq<string>): (js: seq<Json>)
    ensures |js| == |ids|
    ensures forall i :: 0 <= i < |ids| ==> js[i] == JStr(ids[i])
  {
    if ids == [] then [] else [JStr(ids[0])] + Strs(ids[1..])
  }

  /** The `include_devices` value that means "no filter". */
  function AllDevices(): Json {
    JArr([JStr("all")])
  }

  /** The device list `start_system` chooses, given whether the server is enabled,
      what `list_devices` returned and the `include_devices` option: the listed
      devices when there are any, else `include_devices` when it is truthy and not
      `["all"]`, else `["gti283"]`. */
  function SelectDevices(serverEnabled: bool, listed: seq<string>, included: Json): (dids: Json)
    ensures Truthy(dids)
    ensures serverEnabled && listed != [] ==> dids == JArr(Strs(listed))
    ensures (!serverEnabled || listed == []) && Truthy(included) && !PyEq(included, AllDevices()) ==> dids == included
    ensures (!serverEnabled || listed == []) && (!Truthy(included) || PyEq(included, AllDevices())) ==>
      dids == JArr([JStr("gti283")])
  {
    var dids := if serverEnabled then JArr(Strs(listed)) else JArr([]);
    var dids := if !Truthy(dids) && Truthy(included) && !PyEq(included, AllDevices()) then included else dids;
    if !Truthy(dids) then JArr([JStr("gti283")]) else dids
  }

  /** `include_devices` as the add-on's option schema types it: absent or a list of
      strings. */
  predicate IncludeTyped(included: Json) {
    included.JArr? && forall i :: 0 <= i < |included.items| ==> included.items[i].JStr?
  }

  /** With a typed `include_devices`, the chosen devices are a non-empty list of
      strings, so the poll loop always has a device to poll. */
  lemma SelectedIsDeviceList(serverEnabled: bool, listed: seq<string>, included: Json)
    requires IncludeTyped(included)
    ensures var dids := SelectDevices(serverEnabled, listed, included);
      dids.JArr? && |dids.items| >= 1 && forall i :: 0 <= i < |dids.items| ==> dids.items[i].JStr?
  {
  }

  /** Listed devices win over the option, whatever the option holds. */
  lemma ListedDevicesWin(listed: seq<string>, included: Json)
    requires listed != []
    ensures SelectDevices(true, listed, included) == JArr(Strs(listed))
  {
  }

  /** `["all"]` or an empty option falls back to the built-in device. */
  lemma DefaultDevice(included: Json)
    requires included == AllDevices() || included == JArr([])
    ensures SelectDevices(false, [], included) == JArr([JStr("gti283")])
  {
    PyEqReflexive(AllDevices());
  }

  /** The options `do_login` writes back: `email` and `password` from the form
      (`form.get(k) or ""`), every other key as it was. */
  function LoginOptions(opt: Dict, formEmail: Json, formPassword: Json): (r: Dict)
    ensures r.Keys == opt.Keys + {"email", "password"}
    ensures r["email"] == Or(formEmail, JStr("")) && r["password"] == Or(formPassword, JStr(""))
    ensures forall k :: k in opt && k != "email" && k != "password" ==> r[k] == opt[k]
  {
    opt["email" := Or(formEmail, JStr(""))]["password" := Or(formPassword, JStr(""))]
  }

  /** Submitting the same form twice writes the same options as submitting it once. */
  lemma LoginOptionsIdempotent(opt: Dict, formEmail: Json, formPassword: Json)
    ensures LoginOptions(LoginOptions(opt, formEmail, formPassword), formEmail, formPassword)
         == LoginOptions(opt, formEmail, formPassword)
  {
    var once := LoginOptions(opt, formEmail, formPassword);
    var twice := LoginOptions(once, formEmail, formPassword);
    assert twice.Keys == once.Keys;
  }

  /** The API client started from the rewritten options signs in with the form's
      credentials (an empty field stays empty). */
  lemma LoginReachesClient(opt: Dict, formEmail: Json, formPassword: Json)
    ensures var r := LoginOptions(opt, formEmail, formPassword);
      && Or(Get(r, "email"), JStr("")) == Or(formEmail, JStr(""))
      && Or(Get(r, "password"), JStr("")) == Or(formPassword, JStr(""))
      && (Api.BaseUrlIsString(opt) ==> Api.BaseUrlIsString(r))
  {
  }

  /** The sign-in and the device listing of `start_system`: Raised when `login`
      raises, else what `list_devices` returns ([] with the server disabled). */
  method Connect(client: Api.ApiClient, signIn: Post -> Response, fetch: Request -> Response)
    returns (r: Outcome<seq<string>>)
    modifies client
    ensures r.Returned? ==>
      r.value == if client.serverEnabled then Api.Listed(fetch(client.DevicesRequest())) else []
    ensures !client.serverEnabled ==> r == Returned([])
    ensures r.Raised? <==>
      Api.LoginRaises(client.serverEnabled, client.authMethod, client.firebaseApiKey, client.email, client.password, signIn)
    ensures (client.idToken, client.userId) == client.TokensAfter(signIn, old(client.idToken), old(client.userId))
  {
    var login := client.Login(signIn);
    if login.Raised? {
      return Raised;
    }
    var ids := client.ListDevices(fetch);
    return Returned(ids);
  }

  /** A new API client built from `options`, signed in and asked for its
      devices, as `start_system` does. */
  method SignedIn(options: Dict, signIn: Post -> Response, fetch: Request -> Response)
    returns (client: Api.ApiClient, r: Outcome<seq<string>>)
    requires Api.BaseUrlIsString(options)
    ensures fresh(client)
    ensures client.serverEnabled == Truthy(GetOr(options, "server_enabled", JBool(true)))
    ensures client.email == Or(Get(options, "email"), JStr(""))
    ensures client.password == Or(Get(options, "password"), JStr(""))
    ensures client.FromOptions(options)
    ensures (client.idToken, client.userId) == client.TokensAfter(signIn, JNull, JNull)
    ensures r.Raised? <==> Api.SignInRaises(options, signIn)
    ensures r.Returned? ==>
      r.value == if client.serverEnabled then Api.Listed(fetch(client.DevicesRequest())) else []
  {
    client := new Api.ApiClient(options);
    r := Connect(client, signIn, fetch);
  }

  /** The coordinator `start_system` creates over a signed-in client. */
  method NewCoordinator(prefix: string, options: Dict, api: Api.ApiClient, round2: Coordinator.Round2)
    returns (c: Coordinator.Coordinator)
    ensures fresh(c) && c.api == api && c.round2 == round2 && c.prefix == prefix
    ensures c.FlagsFrom(options)
  {
    c := new Coordinator.Coordinator(prefix, options, api, round2);
  }

  /** The part of `start_system` after the settings are read: a client built
      from the options signs in and lists its devices, the devices to poll are
      chosen, and a coordinator is created over the client. */
  method Launch(options: Dict, round2: Coordinator.Round2, signIn: Post -> Response, fetch: Request -> Response)
    returns (client: Api.ApiClient, started: Coordinator.Coordinator?, r: Outcome<Json>)
    requires Api.BaseUrlIsString(options)
    ensures fresh(client)
    ensures client.email == Or(Get(options, "email"), JStr("")) && client.password == Or(Get(options, "password"), JStr(""))
    ensures client.FromOptions(options)
    ensures (client.idToken, client.userId) == client.TokensAfter(signIn, JNull, JNull)
    ensures r.Raised? <==> Api.SignInRaises(options, signIn)
    ensures r.Returned? ==>
      && started != null && fresh(started)
      && started.api == client && started.round2 == round2 && started.FlagsFrom(options)
      && started.prefix == Str(GetOr(options, "mqtt_prefix", JStr("homeassistant")))
      && Truthy(r.value)
      && r.value == SelectDevices(client.serverEnabled,
                                  if client.serverEnabled then Api.Listed(fetch(client.DevicesRequest())) else [],
                                  GetOr(options, "include_devices", JArr([])))
  {
    var listed;
    client, listed := SignedIn(options, signIn, fetch);
    if listed.Raised? {
      return client, null, Raised;
    }
    var dids := SelectDevices(client.serverEnabled, listed.value, GetOr(options, "include_devices", JArr([])));
    started := NewCoordinator(Str(GetOr(options, "mqtt_prefix", JStr("homeassistant"))), options, client, round2);
    r := Returned(dids);
  }

  class Server {
    /** `fmt2`'s rounding, handed to every coordinator the server starts. */
    const round2: Coordinator.Round2
    /** The content of the options file. */
    var options: Dict
    /** The MQTT settings of the last start, if any. */
    var mqtt: Option<MqttConfig>
    /** The globals `api_client`, `coordinator` and `device_ids`. */
    var api: Api.ApiClient?
    var coordinator: Coordinator.Coordinator?
    var deviceIds: Json

    /** The server before its first start. */
    constructor (options: Dict, round2: Coordinator.Round2)
      ensures this.options == options && this.round2 == round2
      ensures mqtt == None && api == null && coordinator == null && deviceIds == JArr([])
    {
      this.options := options;
      this.round2 := round2;
      mqtt := None;
      api := null;
      coordinator := null;
      deviceIds := JArr([]);
    }

    /** `start_system()`: the MQTT settings, a new API client that signs in, the
        device list, and a new coordinator. Raised when `int()` rejects the port,
        when `server_base_url` is not a string, or when the sign-in raises. The
        poll thread it starts is not modelled. */
    method StartSystem(env: map<string, string>, signIn: Post -> Response, fetch: Request -> Response)
      returns (r: Outcome<Json>)
      modifies this
      ensures options == old(options) && deviceIds == old(deviceIds)
      ensures r.Returned? <==>
        MqttSettings(options, env).Returned? && Api.BaseUrlIsString(options) && !Api.SignInRaises(options, signIn)
      ensures MqttSettings(options, env).Raised? ==> r == Raised && unchanged(this)
      ensures !Api.BaseUrlIsString(options) ==> r == Raised && api == old(api) && coordinator == old(coordinator)
      ensures r.Raised? ==> coordinator == old(coordinator)
      ensures MqttSettings(options, env).Returned? ==> mqtt == Some(MqttSettings(options, env).value)
      ensures MqttSettings(options, env).Returned? && Api.BaseUrlIsString(options) ==>
        && api != null && fresh(api) && api.FromOptions(options)
        && (api.idToken, api.userId) == api.TokensAfter(signIn, JNull, JNull)
      ensures r.Returned? ==>
        && mqtt == Some(MqttSettings(options, env).value)
        && api != null && fresh(api) && coordinator != null && fresh(coordinator)
        && api.email == Or(Get(options, "email"), JStr("")) && api.password == Or(Get(options, "password"), JStr(""))
        && coordinator.api == api && coordinator.round2 == round2 && coordinator.FlagsFrom(options)
        && coordinator.prefix == Str(GetOr(options, "mqtt_prefix", JStr("homeassistant")))
        && Truthy(r.value)
        && r.value == SelectDevices(api.serverEnabled,
                                    if api.serverEnabled then Api.Listed(fetch(api.DevicesRequest())) else [],
                                    GetOr(options, "include_devices", JArr([])))
    {
      var cfg := MqttSettings(options, env);
      if cfg.Raised? {
        return Raised;
      }
      mqtt := Some(cfg.value);
      if !Api.BaseUrlIsString(options) {
        return Raised;
      }
      var client, started, res := Launch(options, round2, signIn, fetch);
      api := client;
      if res.Returned? {
        coordinator := started;
      }
      r := res;
    }

    /** What a successful start leaves: a client built from the options and
        signed in from no tokens, a coordinator over it with the options' flags,
        and the device list chosen from that client's listing. */
    predicate Started(signIn: Post -> Response, fetch: Request -> Response)
      reads this, api, coordinator
    {
      && api != null && coordinator != null
      && api.FromOptions(options)
      && (api.idToken, api.userId) == api.TokensAfter(signIn, JNull, JNull)
      && coordinator.api == api && coordinator.round2 == round2 && coordinator.FlagsFrom(options)
      && coordinator.prefix == Str(GetOr(options, "mqtt_prefix", JStr("homeassistant")))
      && deviceIds == SelectDevices(api.serverEnabled,
                                    if api.serverEnabled then Api.Listed(fetch(api.DevicesRequest())) else [],
                                    GetOr(options, "include_devices", JArr([])))
    }

    /** The module's `device_ids = start_system()`. */
    method Boot(env: map<string, string>, signIn: Post -> Response, fetch: Request -> Response)
      returns (r: Outcome<Json>)
      modifies this
      ensures options == old(options)
      ensures deviceIds == if r.Returned? then r.value else old(deviceIds)
      ensures r.Returned? ==>
        Truthy(deviceIds) && api != null && api.email == Or(Get(options, "email"), JStr(""))
        && api.password == Or(Get(options, "password"), JStr(""))
      ensures r.Raised? ==> coordinator == old(coordinator)
      ensures r.Returned? ==> Started(signIn, fetch)
    {
      r := StartSystem(env, signIn, fetch);
      if r.Returned? {
        deviceIds := r.value;
      }
    }

    /** `do_login`: the form's email and password are written to the options,
        everything else is kept, and the system starts again from them; the
        device list is replaced when the start succeeds. */
    method DoLogin(formEmail: Json, formPassword: Json, env: map<string, string>,
                   signIn: Post -> Response, fetch: Request -> Response) returns (r: Outcome<Json>)
      modifies this
      ensures options == LoginOptions(old(options), formEmail, formPassword)
      ensures deviceIds == if r.Returned? then r.value else old(deviceIds)
      ensures r.Returned? ==>
        Truthy(deviceIds) && api != null && api.email == Or(formEmail, JStr("")) && api.password == Or(formPassword, JStr(""))
      ensures r.Raised? ==> coordinator == old(coordinator)
      ensures r.Returned? ==> Started(signIn, fetch)
    {
      options := LoginOptions(options, formEmail, formPassword);
      LoginReachesClient(old(options), formEmail, formPassword);
      r := Boot(env, signIn, fetch);
    }
  }
}
