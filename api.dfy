/** The API client of the release add-on (gti-control/app/api_client.py): Firebase
    sign-in, the device list, the daily/monthly energy record of one device and the
    settings writes. HTTP calls go through oracles (module Http). */
module Api {
  import opened Python
  import opened Text
  import opened Http
  import Mapping

  /** The id the add-on lists: `did` when it already starts with "gti", else
      "gti" + `did`. */
  function AddGti(did: string): (r: string)
    ensures StartsWith(r, "gti")
    ensures r == did <==> StartsWith(did, "gti")
    ensures !StartsWith(did, "gti") ==> r == "gti" + did
    ensures |did| <= |r| && r[|r| - |did|..] == did
    ensures |r| <= |did| + 3
  {
    if StartsWith(did, "gti") then did else "gti" + did
  }

  /** Prefixing twice is prefixing once. */
  lemma AddGtiIdempotent(did: string)
    ensures AddGti(AddGti(did)) == AddGti(did)
  {
  }

  /** The backend id: `device_id.replace("gti", "")`, which removes every
      occurrence, not only a leading one. */
  function StripGti(deviceId: string): string {
    ReplaceAll(deviceId, "gti", "")
  }

  /** For ids of the form "gti" + digits the backend id is the digits. */
  lemma StripGtiDigits(digits: string)
    requires forall i :: 0 <= i < |digits| ==> IsDigit(digits[i])
    ensures StripGti("gti" + digits) == digits
  {
    var s := "gti" + digits;
    assert s[..3] == "gti" && s[3..] == digits;
    DigitsLackGti(digits);
    ReplaceAbsent(digits, "gti", "");
  }

  /** Listing and then stripping gives back the backend id, provided the backend
      id itself holds no "gti". */
  lemma StripAddGti(did: string)
    requires !Contains(did, "gti")
    ensures StripGti(AddGti(did)) == did
  {
    var s := "gti" + did;
    assert !StartsWith(did, "gti") by {
      if StartsWith(did, "gti") {
        assert OccursAt(did, "gti", 0);
        assert false;
      }
    }
    assert s[..3] == "gti" && s[3..] == did;
    ReplaceAbsent(did, "gti", "");
  }

  /** A backend id holding "gti" elsewhere does not survive the round trip: "5gti"
      is listed as "gti5gti" and then queried as "5". */
  lemma StripAddGtiCounterexample()
    ensures AddGti("5gti") == "gti5gti"
    ensures StripGti(AddGti("5gti")) == "5"
  {
    assert !StartsWith("5gti", "gti");
    var s := "gti5gti";
    assert s[..3] == "gti" && s[3..] == "5gti";
    var t := "5gti";
    assert t[..3] != "gti" && t[1..] == "gti";
    assert ReplaceAll("gti", "gti", "") == "" by {
      assert "gti"[..3] == "gti" && "gti"[3..] == "";
    }
  }

  /** The id of one listed item: `it.get("deviceId") or it.get("id")`. */
  function RawId(it: Dict): Json {
    Or(Get(it, "deviceId"), Get(it, "id"))
  }

  /** The ids `list_devices` collects from the items it iterates, in order; falsy
      ids are skipped and duplicates are kept. */
  function ListedIds(items: seq<Dict>): (ids: seq<string>)
    ensures |ids| <= |items|
    ensures forall i :: 0 <= i < |ids| ==> StartsWith(ids[i], "gti")
  {
    if items == [] then []
    else
      var prev := ListedIds(items[..|items| - 1]);
      var raw := RawId(items[|items| - 1]);
      if Truthy(raw) then prev + [AddGti(Str(raw))] else prev
  }

  /** Listing two batches of items lists the first batch's ids, then the second's. */
  lemma {:induction false} ListedIdsAppend(a: seq<Dict>, b: seq<Dict>)
    ensures ListedIds(a + b) == ListedIds(a) + ListedIds(b)
    decreases |b|
  {
    if b == [] {
      assert a + b == a;
    } else {
      var b' := b[..|b| - 1];
      assert (a + b)[..|a + b| - 1] == a + b';
      assert (a + b)[|a + b| - 1] == b[|b| - 1];
      ListedIdsAppend(a, b');
    }
  }

  /** One item lists exactly its prefixed id, or nothing when the id is falsy. */
  lemma ListedIdsSingle(it: Dict)
    ensures ListedIds([it]) == (if Truthy(RawId(it)) then [AddGti(Str(RawId(it)))] else [])
  {
    assert [it][..0] == [];
  }

  /** Two items with the same id list it twice: `list_devices` does not deduplicate. */
  lemma ListedIdsKeepsDuplicates(it: Dict)
    requires Truthy(RawId(it))
    ensures |ListedIds([it, it])| == 2
  {
    ListedIdsSingle(it);
    ListedIdsAppend([it], [it]);
    assert [it] + [it] == [it, it];
  }

  /** What `list_devices` returns for the reply to its GET when the server is
      enabled: the listed ids of the iterated items, and [] when the call, the
      decoding or the iteration raised. An empty body counts as no items. */
  function Listed(reply: Response): (ids: seq<string>)
    ensures reply.Failed? || reply.Empty? ==> ids == []
    ensures reply.Body? && ForEachDict(Or(reply.json, JArr([]))).Returned? ==>
      ids == ListedIds(ForEachDict(Or(reply.json, JArr([]))).value)
    ensures reply.Body? && ForEachDict(Or(reply.json, JArr([]))).Raised? ==> ids == []
    ensures forall i :: 0 <= i < |ids| ==> StartsWith(ids[i], "gti")
  {
    match reply
    case Failed => []
    case Empty => []
    case Body(j) =>
      match ForEachDict(Or(j, JArr([])))
      case Returned(items) => ListedIds(items)
      case Raised => []
  }

  /** A reply of the form {"data": [...]} lists nothing: iterating a dict visits
      its string keys, whose `.get` raises. */
  lemma WrappedListListsNothing(items: seq<Json>)
    ensures Listed(Body(JObj(map["data" := JArr(items)]))) == []
  {
  }

  /** The outgoing key of each energy field, its current name on the server and
      its legacy name, in the order the record is built. */
  function EnergyAliases(): seq<(string, string, string)> {
    [ ("energy_daily", "export_energy_kwh_daily", "energy_daily"),
      ("energy_monthly", "export_energy_kwh_monthly", "energy_monthly"),
      ("grid_energy_daily", "grid_in_energy_kwh_daily", "grid_energy_daily"),
      ("grid_energy_monthly", "grid_in_energy_kwh_monthly", "grid_energy_monthly"),
      ("tieuthu_energy_daily", "consumption_energy_kwh_daily", "tieuthu_energy_daily"),
      ("tieuthu_energy_monthly", "consumption_energy_kwh_monthly", "tieuthu_energy_monthly") ]
  }

  function OutKeys(aliases: seq<(string, string, string)>): (ks: seq<string>)
    ensures |ks| == |aliases|
    ensures forall i :: 0 <= i < |aliases| ==> ks[i] == aliases[i].0
  {
    if aliases == [] then [] else [aliases[0].0] + OutKeys(aliases[1..])
  }

  /** One energy field: the current name if truthy, else the legacy name if
      truthy, else 0.0. */
  function Resolve(data: Dict, current: string, legacy: string): (v: Json)
    ensures Truthy(Get(data, current)) ==> v == Get(data, current)
    ensures !Truthy(Get(data, current)) && Truthy(Get(data, legacy)) ==> v == Get(data, legacy)
    ensures !Truthy(Get(data, current)) && !Truthy(Get(data, legacy)) ==> v == JFloat(0.0)
  {
    Or(Or(Get(data, current), Get(data, legacy)), JFloat(0.0))
  }

  /** The record built from `aliases`: one key per alias, resolved in `data`. */
  function EnergyFields(data: Dict, aliases: seq<(string, string, string)>): (m: Dict)
    requires Distinct(OutKeys(aliases))
    ensures m.Keys == set k | k in OutKeys(aliases)
    ensures forall i :: 0 <= i < |aliases| ==> m[aliases[i].0] == Resolve(data, aliases[i].1, aliases[i].2)
  {
    if aliases == [] then map[]
    else
      var ks := OutKeys(aliases);
      DistinctDrop(ks);
      assert OutKeys(aliases[1..]) == ks[1..];
      KeySetCons(ks);
      var rest := EnergyFields(data, aliases[1..]);
      rest[aliases[0].0 := Resolve(data, aliases[0].1, aliases[0].2)]
  }

  lemma KeySetCons(ks: seq<string>)
    requires ks != []
    ensures (set k | k in ks) == {ks[0]} + (set k | k in ks[1..])
  {
    assert ks == [ks[0]] + ks[1..];
  }

  /** The six outgoing keys are different, and they are exactly the daily and
      monthly counter keys of the entity tables. */
  lemma EnergyAliasesWellFormed()
    ensures Distinct(OutKeys(EnergyAliases()))
    ensures (set k | k in OutKeys(EnergyAliases())) == (set k | k in Mapping.DailyKeys() + Mapping.MonthlyKeys())
  {
    var ks := OutKeys(EnergyAliases());
    assert ks == ["energy_daily", "energy_monthly", "grid_energy_daily", "grid_energy_monthly",
                  "tieuthu_energy_daily", "tieuthu_energy_monthly"];
    assert Mapping.Signatures(ks) == [(12, 'e'), (14, 'e'), (17, 'g'), (19, 'g'), (20, 't'), (22, 't')];
    Mapping.SignaturesSeparate(ks);
  }

  /** The six-key record `read_state_server` builds from a decoded reply. */
  function EnergyRecord(data: Dict): (m: Dict)
    ensures m.Keys == set k | k in Mapping.DailyKeys() + Mapping.MonthlyKeys()
    ensures forall i :: 0 <= i < |EnergyAliases()| ==>
      m[EnergyAliases()[i].0] == Resolve(data, EnergyAliases()[i].1, EnergyAliases()[i].2)
  {
    EnergyAliasesWellFormed();
    EnergyFields(data, EnergyAliases())
  }

  /** What `read_state_server` returns for its reply when the server is enabled:
      `r.json() or {}` read through the alias list, or {} when anything raised
      (a failed call, an empty body, a truthy reply that is not a dict). */
  function EnergyReply(reply: Response): (m: Dict)
    ensures m == map[] || m.Keys == set k | k in Mapping.DailyKeys() + Mapping.MonthlyKeys()
    ensures reply.Failed? || reply.Empty? ==> m == map[]
    ensures reply.Body? && !Truthy(reply.json) ==> m == EnergyRecord(map[])
    ensures reply.Body? && Truthy(reply.json) && reply.json.JObj? ==> m == EnergyRecord(reply.json.fields)
    ensures reply.Body? && Truthy(reply.json) && !reply.json.JObj? ==> m == map[]
  {
    match reply
    case Failed => map[]
    case Empty => map[]
    case Body(j) =>
      if !Truthy(j) then EnergyRecord(map[])
      else if j.JObj? then EnergyRecord(j.fields)
      else map[]
  }

  /** Whether `set_*` bodies hold what they are given: the stripped id plus the
      given values, nothing more. */
  predicate CarriesExactly(body: Json, deviceId: string, values: Dict) {
    && body.JObj?
    && body.fields.Keys == values.Keys + {"deviceId"}
    && body.fields["deviceId"] == JStr(StripGti(deviceId))
    && forall k :: k in values && k != "deviceId" ==> body.fields[k] == values[k]
  }

  /** Whether the client's options allow a sign-in call. */
  predicate SignInConfigured(authMethod: Json, apiKey: Json, email: Json, password: Json) {
    PyEq(authMethod, JStr("email_password")) && Truthy(apiKey) && Truthy(email) && Truthy(password)
  }

  /** The Firebase password sign-in POST for a key, an email and a password. */
  function SignInRequest(apiKey: Json, email: Json, password: Json): (p: Post)
    ensures p.body.JObj? && p.body.fields.Keys == {"email", "password", "returnSecureToken"}
    ensures p.body.fields["email"] == email && p.body.fields["password"] == password
    ensures p.body.fields["returnSecureToken"] == JBool(true)
  {
    Post("https://identitytoolkit.googleapis.com/v1/accounts:signInWithPassword?key=" + Str(apiKey),
         map[], JObj(map["email" := email, "password" := password, "returnSecureToken" := JBool(true)]))
  }

  /** `login` raises: the server is enabled, the sign-in is configured, and the
      sign-in POST fails or answers with something other than a dict. */
  predicate LoginRaises(serverEnabled: bool, authMethod: Json, apiKey: Json, email: Json, password: Json,
                        signIn: Post -> Response) {
    && serverEnabled && SignInConfigured(authMethod, apiKey, email, password)
    && var reply := signIn(SignInRequest(apiKey, email, password));
       !(reply.Body? && reply.json.JObj?)
  }

  /** `login` raises for a client built from `options`. */
  predicate SignInRaises(options: Dict, signIn: Post -> Response) {
    LoginRaises(Truthy(GetOr(options, "server_enabled", JBool(true))),
                GetOr(options, "auth_method", JStr("email_password")),
                Or(Get(options, "firebase_api_key"), JStr("")),
                Or(Get(options, "email"), JStr("")),
                Or(Get(options, "password"), JStr("")), signIn)
  }

  /** The token and user id a client holds after `login`, given those it held
      before: a dict reply to the sign-in sets them from `idToken` and `localId`;
      a disabled server, incomplete sign-in options or a raise leave them as they
      were. */
  function TokensAfterLogin(serverEnabled: bool, authMethod: Json, apiKey: Json, email: Json, password: Json,
                            signIn: Post -> Response, token: Json, user: Json): (t: (Json, Json))
    ensures !serverEnabled || !SignInConfigured(authMethod, apiKey, email, password) ==> t == (token, user)
    ensures LoginRaises(serverEnabled, authMethod, apiKey, email, password, signIn) ==> t == (token, user)
    ensures (serverEnabled && SignInConfigured(authMethod, apiKey, email, password)
             && !LoginRaises(serverEnabled, authMethod, apiKey, email, password, signIn)) ==>
      var reply := signIn(SignInRequest(apiKey, email, password));
      t == (Get(reply.json.fields, "idToken"), Get(reply.json.fields, "localId"))
  {
    var reply := signIn(SignInRequest(apiKey, email, password));
    if serverEnabled && SignInConfigured(authMethod, apiKey, email, password) && reply.Body? && reply.json.JObj?
    then (Get(reply.json.fields, "idToken"), Get(reply.json.fields, "localId"))
    else (token, user)
  }

  /** `server_base_url` is a string whenever it is given (the add-on's option
      schema); `rstrip` would raise otherwise. */
  predicate BaseUrlIsString(options: Dict) {
    "server_base_url" in options ==> options["server_base_url"].JStr?
  }

  class ApiClient {
    const serverEnabled: bool
    const serverBase: string
    const firebaseApiKey: Json
    const email: Json
    const password: Json
    const authMethod: Json
    var idToken: Json
    var userId: Json

    /** `__init__`: options with their defaults, no token yet. */
    constructor (options: Dict)
      requires BaseUrlIsString(options)
      ensures serverEnabled == Truthy(GetOr(options, "server_enabled", JBool(true)))
      ensures serverBase == RStrip(GetOr(options, "server_base_url", JStr("")).s, '/')
      ensures firebaseApiKey == Or(Get(options, "firebase_api_key"), JStr(""))
      ensures email == Or(Get(options, "email"), JStr(""))
      ensures password == Or(Get(options, "password"), JStr(""))
      ensures authMethod == GetOr(options, "auth_method", JStr("email_password"))
      ensures idToken == JNull && userId == JNull
    {
      serverEnabled := Truthy(GetOr(options, "server_enabled", JBool(true)));
      serverBase := RStrip(GetOr(options, "server_base_url", JStr("")).s, '/');
      firebaseApiKey := Or(Get(options, "firebase_api_key"), JStr(""));
      email := Or(Get(options, "email"), JStr(""));
      password := Or(Get(options, "password"), JStr(""));
      authMethod := GetOr(options, "auth_method", JStr("email_password"));
      idToken := JNull;
      userId := JNull;
    }

    /** The client `__init__` builds from `options`, whatever its tokens are since. */
    predicate FromOptions(options: Dict) {
      && BaseUrlIsString(options)
      && serverEnabled == Truthy(GetOr(options, "server_enabled", JBool(true)))
      && serverBase == RStrip(GetOr(options, "server_base_url", JStr("")).s, '/')
      && firebaseApiKey == Or(Get(options, "firebase_api_key"), JStr(""))
      && email == Or(Get(options, "email"), JStr(""))
      && password == Or(Get(options, "password"), JStr(""))
      && authMethod == GetOr(options, "auth_method", JStr("email_password"))
    }

    /** The tokens this client holds after a `login` from `token` and `user`. */
    function TokensAfter(signIn: Post -> Response, token: Json, user: Json): (Json, Json) {
      TokensAfterLogin(serverEnabled, authMethod, firebaseApiKey, email, password, signIn, token, user)
    }

    /** The Firebase password sign-in call. */
    function SignInPost(): (p: Post)
      ensures p.body.JObj? && p.body.fields.Keys == {"email", "password", "returnSecureToken"}
      ensures p.body.fields["email"] == email && p.body.fields["password"] == password
      ensures p.body.fields["returnSecureToken"] == JBool(true)
    {
      SignInRequest(firebaseApiKey, email, password)
    }

    /** `login`: it never returns False. With the server disabled or the sign-in
        options incomplete it returns True at once and touches nothing. Otherwise
        a failed call, or a reply that is not a dict, raises out of it with the
        tokens untouched; a dict reply sets the token and the user id from
        `idToken` and `localId`. */
    method Login(signIn: Post -> Response) returns (r: Outcome<bool>)
      modifies this
      ensures r != Returned(false)
      ensures r.Raised? <==> LoginRaises(serverEnabled, authMethod, firebaseApiKey, email, password, signIn)
      ensures (idToken, userId) == TokensAfter(signIn, old(idToken), old(userId))
      ensures !serverEnabled || !SignInConfigured(authMethod, firebaseApiKey, email, password) ==>
        r == Returned(true) && idToken == old(idToken) && userId == old(userId)
      ensures serverEnabled && SignInConfigured(authMethod, firebaseApiKey, email, password) ==>
        match signIn(SignInPost())
        case Body(j) =>
          if j.JObj? then r == Returned(true) && idToken == Get(j.fields, "idToken") && userId == Get(j.fields, "localId")
          else r == Raised && idToken == old(idToken) && userId == old(userId)
        case _ => r == Raised && idToken == old(idToken) && userId == old(userId)
    {
      if !serverEnabled {
        return Returned(true);
      }
      if SignInConfigured(authMethod, firebaseApiKey, email, password) {
        var reply := signIn(SignInPost());
        if reply.Body? && reply.json.JObj? {
          idToken := Get(reply.json.fields, "idToken");
          userId := Get(reply.json.fields, "localId");
          return Returned(true);
        }
        return Raised;
      }
      return Returned(true);
    }

    /** `_auth_headers`: JSON content type always, a bearer token exactly when the
        token is truthy. */
    function AuthHeaders(): (h: map<string, string>)
      reads this
      ensures h.Keys == {"Content-Type"} + (if Truthy(idToken) then {"Authorization"} else {})
      ensures h["Content-Type"] == "application/json"
      ensures Truthy(idToken) ==> h["Authorization"] == "Bearer " + Str(idToken)
    {
      var h := map["Content-Type" := "application/json"];
      if Truthy(idToken) then h["Authorization" := "Bearer " + Str(idToken)] else h
    }

    function DevicesRequest(): Request
      reads this
    {
      Request(serverBase + "/devices/inverter/", AuthHeaders())
    }

    /** `list_devices`: [] with the server disabled; otherwise the ids of the
        reply's items, each prefixed with "gti" unless it has it, in order. */
    method ListDevices(fetch: Request -> Response) returns (ids: seq<string>)
      ensures !serverEnabled ==> ids == []
      ensures serverEnabled ==> ids == Listed(fetch(DevicesRequest()))
      ensures forall i :: 0 <= i < |ids| ==> StartsWith(ids[i], "gti")
    {
      if !serverEnabled {
        return [];
      }
      var reply := fetch(DevicesRequest());
      var arr := match reply case Body(j) => j case _ => JArr([]);
      if reply.Failed? {
        return [];
      }
      var walk := ForEachDict(Or(arr, JArr([])));
      if walk.Raised? {
        return [];
      }
      var items := walk.value;
      ids := [];
      var i := 0;
      while i < |items|
        invariant 0 <= i <= |items|
        invariant ids == ListedIds(items[..i])
      {
        assert items[..i + 1][..i] == items[..i];
        var did := RawId(items[i]);
        if Truthy(did) {
          ids := ids + [AddGti(Str(did))];
        }
        i := i + 1;
      }
      assert items[..|items|] == items;
    }

    /** The GET `read_state_server` makes: the user id, or "me" without one, and
        the backend id of the device. */
    function LatestRequest(deviceId: string): Request
      reads this
    {
      Request(serverBase + "/api/inverter/data/" + Str(Or(userId, JStr("me"))) + "/"
              + StripGti(deviceId) + "/latest", AuthHeaders())
    }

    /** `read_state_server`: {} with the server disabled or on any exception,
        otherwise exactly the six daily/monthly keys. */
    function ReadStateServer(fetch: Request -> Response, deviceId: string): (m: Dict)
      reads this
      ensures !serverEnabled ==> m == map[]
      ensures m == map[] || m.Keys == set k | k in Mapping.DailyKeys() + Mapping.MonthlyKeys()
      ensures serverEnabled ==> m == EnergyReply(fetch(LatestRequest(deviceId)))
    {
      if !serverEnabled then map[] else EnergyReply(fetch(LatestRequest(deviceId)))
    }

    /** The POST of one settings write. */
    function WritePost(path: string, deviceId: string, values: Dict): (p: Post)
      reads this
      ensures p.url == serverBase + path && p.headers == AuthHeaders()
      ensures CarriesExactly(p.body, deviceId, values)
    {
      Post(serverBase + path, AuthHeaders(), JObj(values["deviceId" := JStr(StripGti(deviceId))]))
    }

    /** `set_cutoff_voltage`: False with the server disabled, otherwise whether the
        POST of the stripped id and the voltage to /settings/cutoff succeeded. */
    function SetCutoffVoltage(send: Post -> bool, deviceId: string, volts: Json): (ok: bool)
      reads this
      ensures !serverEnabled ==> !ok
      ensures serverEnabled ==> ok == send(WritePost("/settings/cutoff", deviceId, map["cutoff_voltage" := volts]))
    {
      serverEnabled && send(WritePost("/settings/cutoff", deviceId, map["cutoff_voltage" := volts]))
    }

    /** `set_max_power`: the same for the power limit and /settings/max_power. */
    function SetMaxPower(send: Post -> bool, deviceId: string, watts: Json): (ok: bool)
      reads this
      ensures !serverEnabled ==> !ok
      ensures serverEnabled ==> ok == send(WritePost("/settings/max_power", deviceId, map["max_power" := watts]))
    {
      serverEnabled && send(WritePost("/settings/max_power", deviceId, map["max_power" := watts]))
    }

    /** `set_schedule`: the same for one schedule slot and /schedule. */
    function SetSchedule(send: Post -> bool, deviceId: string, index: int, start: string, end: string,
                         cutoffV: Json, maxW: Json): (ok: bool)
      reads this
      ensures !serverEnabled ==> !ok
      ensures serverEnabled ==> ok == send(WritePost("/schedule", deviceId,
        map["index" := JInt(index), "start" := JStr(start), "end" := JStr(end),
            "cutoff_voltage" := cutoffV, "max_power" := maxW]))
    {
      serverEnabled && send(WritePost("/schedule", deviceId,
        map["index" := JInt(index), "start" := JStr(start), "end" := JStr(end),
            "cutoff_voltage" := cutoffV, "max_power" := maxW]))
    }
  }
}
