/** The API client of the debug add-on (gti-control-debug/app/api_client.py): the
    options clean-up, the token cache in the user file, the Firebase sign-in with
    its expiry, the device list and the latest record of one device. HTTP calls
    go through oracles: a GET is answered with the decoded JSON body, or None
    where `_get_json` gives None (a failed call, an error status, a body that is
    not JSON); the sign-in POST is answered with an Http.Response. */
module DebugApi {
  import opened Python
  import opened Text
  import opened Http

  /** The options `load_options` strips of surrounding whitespace. */
  function StrippedKeys(): set<string> {
    {"firebase_api_key", "email", "password", "server_base_url"}
  }

  /** One option after the clean-up. */
  function CleanOption(k: string, v: Json): Json {
    if k in StrippedKeys() && v.JStr? then JStr(Strip(v.s)) else v
  }

  /** The clean-up loop of `load_options`: the four string options stripped,
      every other entry kept. */
  function Cleaned(opts: Dict): (r: Dict)
    ensures r.Keys == opts.Keys
    ensures forall k :: k in opts ==> r[k] == CleanOption(k, opts[k])
  {
    map k | k in opts :: CleanOption(k, opts[k])
  }

  /** `load_options`, given what `_safe_json_load` returned (JNull when the file
      cannot be read or parsed). A truthy value that is not a dict has no `.get`,
      so the call raises. */
  function LoadOptions(loaded: Json): (r: Outcome<Dict>)
    ensures r.Raised? <==> Truthy(loaded) && !loaded.JObj?
    ensures !Truthy(loaded) ==> r == Returned(map[])
    ensures loaded.JObj? ==> r == Returned(Cleaned(loaded.fields))
  {
    var j := Or(loaded, JObj(map[]));
    if !j.JObj? then Raised else Returned(Cleaned(j.fields))
  }

  /** Cleaning cleaned options changes nothing. */
  lemma CleanedIdempotent(opts: Dict)
    ensures Cleaned(Cleaned(opts)) == Cleaned(opts)
  {
    var once := Cleaned(opts);
    forall k | k in once ensures Cleaned(once)[k] == once[k] {
      if k in StrippedKeys() && opts[k].JStr? {
        StripIdempotent(opts[k].s);
      }
    }
  }

  /** Loading options that were already cleaned up changes nothing. */
  lemma LoadOptionsIdempotent(loaded: Json)
    requires LoadOptions(loaded).Returned?
    ensures LoadOptions(JObj(LoadOptions(loaded).value)) == LoadOptions(loaded)
  {
    var once := LoadOptions(loaded).value;
    if once != map[] {
      assert loaded.JObj? && once == Cleaned(loaded.fields);
      CleanedIdempotent(loaded.fields);
    }
  }

  /** `s.strip()` leaves nothing to strip. */
  lemma StripIdempotent(s: string)
    ensures Strip(Strip(s)) == Strip(s)
  {
    var t := StripLeft(s);
    var r := StripRight(t);
    assert r == [] || r[0] == t[0];
    assert StripLeft(r) == r;
  }

  /** The add-on's option schema: a string option, when it is set, is a string. */
  predicate StringOption(opts: Dict, k: string) {
    Truthy(Get(opts, k)) ==> Get(opts, k).JStr?
  }

  /** `opts.get(k) or ""` for a string option. */
  function StrOr(v: Json): (s: string)
    requires Truthy(v) ==> v.JStr?
    ensures Truthy(v) ==> s == v.s
    ensures !Truthy(v) ==> s == ""
  {
    if Truthy(v) then v.s else ""
  }

  /** The token cache: `id_token`, `uid` and `exp_at` (seconds since the epoch). */
  datatype Session = Session(idToken: Json, uid: Json, expAt: int)

  /** The session `__init__` loads from the user cache file, given what
      `_safe_json_load` returned: `idToken` over `id_token`, `localId` over `uid`
      over `user_id`, `expires_at` defaulting to 0. Raised where `__init__` raises:
      a truthy cache without `.get`, or an `expires_at` that `int()` rejects. */
  function LoadSession(cache: Json): (r: Outcome<Session>)
    ensures !Truthy(cache) ==> r == Returned(Session(JNull, JNull, 0))
    ensures Truthy(cache) && !cache.JObj? ==> r == Raised
    ensures Truthy(cache) && cache.JObj? ==> (r.Raised? <==> CacheExpiry(cache.fields).None?)
    ensures Truthy(cache) && cache.JObj? && r.Returned? ==>
      var c := cache.fields;
      && r.value.idToken == (if Truthy(Get(c, "idToken")) then Get(c, "idToken") else Get(c, "id_token"))
      && r.value.uid == (if Truthy(Get(c, "localId")) then Get(c, "localId")
                         else if Truthy(Get(c, "uid")) then Get(c, "uid") else Get(c, "user_id"))
      && CacheExpiry(c) == Some(r.value.expAt)
  {
    if !Truthy(cache) then Returned(Session(JNull, JNull, 0))
    else if !cache.JObj? then Raised
    else
      var c := cache.fields;
      match CacheExpiry(c)
      case None => Raised
      case Some(e) =>
        Returned(Session(Or(Get(c, "idToken"), Get(c, "id_token")),
                         Or(Or(Get(c, "localId"), Get(c, "uid")), Get(c, "user_id")), e))
  }

  /** `int(cache.get("expires_at") or 0)`; None where `int()` raises. */
  function CacheExpiry(c: Dict): (e: Option<int>)
    ensures e == IntOf(Or(Get(c, "expires_at"), JInt(0)))
    ensures !Truthy(Get(c, "expires_at")) ==> e == Some(0)
    ensures Get(c, "expires_at").JInt? ==> e == Some(c["expires_at"].i)
  {
    IntOf(Or(Get(c, "expires_at"), JInt(0)))
  }

  /** The record `_save_cache` writes. */
  function CacheRecord(s: Session, base: string): (c: Dict)
    ensures c.Keys == {"localId", "idToken", "expires_at", "server_base_url"}
  {
    map["localId" := s.uid, "idToken" := s.idToken, "expires_at" := JInt(s.expAt), "server_base_url" := JStr(base)]
  }

  /** Loading what `_save_cache` wrote gives the session back; a falsy token or
      user id comes back as None. */
  lemma CacheRoundTrip(s: Session, base: string)
    ensures LoadSession(JObj(CacheRecord(s, base)))
         == Returned(Session(Or(s.idToken, JNull), Or(s.uid, JNull), s.expAt))
  {
    var c := CacheRecord(s, base);
    assert "expires_at" in c;
    assert Truthy(JObj(c));
    assert IntOf(Or(JInt(s.expAt), JInt(0))) == Some(s.expAt);
  }

  /** `_have_valid_token()` at time `now`: a token that outlives `now` by more than
      60 seconds. */
  function TokenValid(s: Session, now: int): (v: bool)
    ensures v <==> Truthy(s.idToken) && now < s.expAt - 60
  {
    Truthy(s.idToken) && s.expAt - now > 60
  }

  /** `_auth_headers`: JSON accepted always, a bearer token exactly when the token
      is truthy. */
  function Headers(token: Json): (h: map<string, string>)
    ensures h.Keys == {"Accept"} + (if Truthy(token) then {"Authorization"} else {})
    ensures h["Accept"] == "application/json"
    ensures Truthy(token) ==> h["Authorization"] == "Bearer " + Str(token)
  {
    var h := map["Accept" := "application/json"];
    if Truthy(token) then h["Authorization" := "Bearer " + Str(token)] else h
  }

  /** The sign-in body: the email and the password as the options hold them,
      and `returnSecureToken`, nothing more. */
  function SignInBody(email: Json, password: Json): (b: Json)
    ensures b.JObj? && b.fields.Keys == {"email", "password", "returnSecureToken"}
    ensures b.fields["email"] == email && b.fields["password"] == password
    ensures b.fields["returnSecureToken"] == JBool(true)
  {
    JObj(map["email" := email, "password" := password, "returnSecureToken" := JBool(true)])
  }

  /** The Firebase password sign-in POST `login` makes with the stripped key. */
  function SignInPost(key: string, email: Json, password: Json): (p: Post)
    ensures p.url == "https://identitytoolkit.googleapis.com/v1/accounts:signInWithPassword?key=" + Strip(key)
    ensures p.body == SignInBody(email, password)
  {
    Post("https://identitytoolkit.googleapis.com/v1/accounts:signInWithPassword?key=" + Strip(key),
         map[], SignInBody(email, password))
  }

  /** The key as the sign-in log line shows it: the first six and the last four
      characters around an ellipsis when the key has at least twelve, otherwise the
      whole key. */
  function MaskKey(key: string): (m: string)
    ensures |key| >= 12 ==> m == key[..6] + "…" + key[|key| - 4..]
    ensures |key| < 12 ==> m == key
  {
    if |key| >= 12 then key[..6] + "…" + key[|key| - 4..] else key
  }

  /** A key of twelve characters or more never appears whole in its masked form. */
  lemma MaskHidesLongKey(key: string)
    requires |key| >= 12
    ensures !Contains(MaskKey(key), key)
  {
    assert |MaskKey(key)| == 11;
  }

  /** The replies the sign-in endpoint gives, by the POST it receives; a POST
      outside the table fails (the call raised). */
  type SignIns = imap<Post, Response>

  function Reply(signIns: SignIns, p: Post): (r: Response)
    ensures p !in signIns ==> r == Failed
  {
    if p in signIns then signIns[p] else Failed
  }

  /** `int(j.get("expiresIn") or 3600)`; None where `int()` raises. */
  function ExpiresIn(reply: Dict): (n: Option<int>)
    ensures !Truthy(Get(reply, "expiresIn")) ==> n == Some(3600)
    ensures Truthy(Get(reply, "expiresIn")) ==> n == IntOf(reply["expiresIn"])
    ensures Get(reply, "expiresIn").JInt? && Truthy(Get(reply, "expiresIn")) ==> n == Some(reply["expiresIn"].i)
    ensures Get(reply, "expiresIn").JStr? && Truthy(Get(reply, "expiresIn")) ==> n == ParseInt(reply["expiresIn"].s)
    ensures Get(reply, "expiresIn").JFloat? && Truthy(Get(reply, "expiresIn")) ==> n == Some(Truncate(reply["expiresIn"].r))
    ensures Get(reply, "expiresIn") == JBool(true) ==> n == Some(1)
    ensures (Get(reply, "expiresIn").JArr? || Get(reply, "expiresIn").JObj?) && Truthy(Get(reply, "expiresIn")) ==> n == None
  {
    IntOf(Or(Get(reply, "expiresIn"), JInt(3600)))
  }

  /** What a `login` call ends with: its answer, the session it leaves, and
      whether it wrote the user cache. */
  datatype LoginStep = LoginStep(ok: bool, session: Session, saved: bool)

  /** The three credentials are set, so `login` goes on to sign in. */
  predicate Credentials(apiKey: Json, email: Json, password: Json) {
    Truthy(apiKey) && Truthy(email) && Truthy(password)
  }

  /** `login(force)` at time `now` from session `s`, given the sign-in replies.
      Raised where `self.api_key.strip()` raises, before the `try`: a key that is
      set but not a string. */
  function LoginSpec(serverEnabled: bool, apiKey: Json, email: Json, password: Json,
                     s: Session, force: bool, now: int, signIns: SignIns): Outcome<LoginStep>
  {
    if !serverEnabled then Returned(LoginStep(true, s, false))
    else if !force && TokenValid(s, now) then Returned(LoginStep(true, s, false))
    else if !Credentials(apiKey, email, password) then Returned(LoginStep(false, s, false))
    else if !apiKey.JStr? then Raised
    else Returned(SignInStep(s, now, Reply(signIns, SignInPost(apiKey.s, email, password))))
  }

  /** The `try` block of `login` once the POST has its reply: a failed call or a
      reply that is not a dict answers False; a dict sets the token and the user
      id, then the expiry, and answers True with the cache written, unless
      `int(expiresIn or 3600)` raises. */
  function SignInStep(s: Session, now: int, reply: Response): LoginStep {
    match reply
    case Body(j) =>
      if !j.JObj? then LoginStep(false, s, false)
      else
        var signed := s.(idToken := Get(j.fields, "idToken"), uid := Get(j.fields, "localId"));
        (match ExpiresIn(j.fields)
         case Some(n) => LoginStep(true, signed.(expAt := now + n), true)
         case None => LoginStep(false, signed, false))
    case _ => LoginStep(false, s, false)
  }

  /** With the server disabled, with a valid token and no `force`, or with a
      credential missing, `login` makes no call: whatever the replies would be,
      it answers the same, keeps the session and writes nothing. It answers False
      exactly in the missing-credential case. */
  lemma LoginWithoutCall(serverEnabled: bool, apiKey: Json, email: Json, password: Json,
                         s: Session, force: bool, now: int, t1: SignIns, t2: SignIns)
    requires !serverEnabled || (!force && TokenValid(s, now)) || !Credentials(apiKey, email, password)
    ensures LoginSpec(serverEnabled, apiKey, email, password, s, force, now, t1)
         == LoginSpec(serverEnabled, apiKey, email, password, s, force, now, t2)
    ensures LoginSpec(serverEnabled, apiKey, email, password, s, force, now, t1).Returned?
    ensures LoginSpec(serverEnabled, apiKey, email, password, s, force, now, t1).value.session == s
    ensures !LoginSpec(serverEnabled, apiKey, email, password, s, force, now, t1).value.saved
    ensures LoginSpec(serverEnabled, apiKey, email, password, s, force, now, t1).value.ok
        <==> !serverEnabled || (!force && TokenValid(s, now))
  {
  }

  /** Once `login` goes on to sign in, it raises exactly when the key is not a
      string. Otherwise it posts the stripped key, the email and the password; an
      answer True has written the cache, with the expiry `now + expiresIn` (3600
      when the reply has none); an answer False keeps the expiry and writes
      nothing, and keeps the token and the user id unless the reply was a dict
      whose `expiresIn` `int()` rejects. */
  lemma LoginExpiry(serverEnabled: bool, apiKey: Json, email: Json, password: Json,
                    s: Session, force: bool, now: int, signIns: SignIns)
    requires serverEnabled && (force || !TokenValid(s, now)) && Credentials(apiKey, email, password)
    ensures LoginSpec(serverEnabled, apiKey, email, password, s, force, now, signIns).Raised? <==> !apiKey.JStr?
    ensures apiKey.JStr? ==>
      var reply := Reply(signIns, SignInPost(apiKey.s, email, password));
      var st := LoginSpec(serverEnabled, apiKey, email, password, s, force, now, signIns).value;
      && (st.ok <==> st.saved)
      && (st.ok <==> reply.Body? && reply.json.JObj? && ExpiresIn(reply.json.fields).Some?)
      && (st.ok ==> st.session.expAt == now + ExpiresIn(reply.json.fields).value)
      && (reply.Body? && reply.json.JObj? ==>
            st.session.idToken == Get(reply.json.fields, "idToken")
            && st.session.uid == Get(reply.json.fields, "localId"))
      && (st.ok && !Truthy(Get(reply.json.fields, "expiresIn")) ==> st.session.expAt == now + 3600)
      && (!st.ok ==> st.session.expAt == s.expAt)
      && (!st.ok && !(reply.Body? && reply.json.JObj?) ==> st.session == s)
  {
    if apiKey.JStr? {
      var reply := Reply(signIns, SignInPost(apiKey.s, email, password));
      assert LoginSpec(serverEnabled, apiKey, email, password, s, force, now, signIns)
          == Returned(SignInStep(s, now, reply));
      SignInStepFacts(s, now, reply);
    }
  }

  /** The sign-in step answers True exactly when it writes the cache, which it
      does for a dict reply whose `expiresIn` `int()` accepts; then the session
      holds the reply's token and user id and expires `expiresIn` seconds from
      `now`. Otherwise the expiry is kept, and without a dict reply the whole
      session is. */
  lemma SignInStepFacts(s: Session, now: int, reply: Response)
    ensures var st := SignInStep(s, now, reply);
      && (st.ok <==> st.saved)
      && (st.ok <==> reply.Body? && reply.json.JObj? && ExpiresIn(reply.json.fields).Some?)
      && (st.ok ==> st.session.expAt == now + ExpiresIn(reply.json.fields).value)
      && (reply.Body? && reply.json.JObj? ==>
            st.session.idToken == Get(reply.json.fields, "idToken")
            && st.session.uid == Get(reply.json.fields, "localId"))
      && (st.ok && !Truthy(Get(reply.json.fields, "expiresIn")) ==> st.session.expAt == now + 3600)
      && (!st.ok ==> st.session.expAt == s.expAt)
      && (!st.ok && !(reply.Body? && reply.json.JObj?) ==> st.session == s)
  {
  }

  /** A signed-in token that lasts more than a minute is valid at once, so an
      unforced login right after it answers True without a call. */
  lemma LoginThenCached(serverEnabled: bool, apiKey: Json, email: Json, password: Json,
                        s: Session, force: bool, now: int, signIns: SignIns, later: SignIns)
    requires serverEnabled && (force || !TokenValid(s, now)) && Credentials(apiKey, email, password)
    requires apiKey.JStr?
    requires var reply := Reply(signIns, SignInPost(apiKey.s, email, password));
      && reply.Body? && reply.json.JObj? && Truthy(Get(reply.json.fields, "idToken"))
      && ExpiresIn(reply.json.fields).Some? && ExpiresIn(reply.json.fields).value > 60
    ensures var st := LoginSpec(serverEnabled, apiKey, email, password, s, force, now, signIns);
      && st.Returned? && st.value.ok && TokenValid(st.value.session, now)
      && LoginSpec(serverEnabled, apiKey, email, password, st.value.session, false, now, later)
         == Returned(LoginStep(true, st.value.session, false))
  {
    var st := LoginSpec(serverEnabled, apiKey, email, password, s, force, now, signIns);
    LoginExpiry(serverEnabled, apiKey, email, password, s, force, now, signIns);
    assert st.value.session.expAt - now > 60;
  }

  /** The guard `if not self.uid and not self.login()` of the read calls: a
      truthy user id passes without a call, otherwise an unforced login decides. */
  function UserGuard(serverEnabled: bool, apiKey: Json, email: Json, password: Json,
                     s: Session, now: int, signIns: SignIns): (g: Outcome<LoginStep>)
    ensures Truthy(s.uid) ==> g == Returned(LoginStep(true, s, false))
    ensures !Truthy(s.uid) ==> g == LoginSpec(serverEnabled, apiKey, email, password, s, false, now, signIns)
  {
    if Truthy(s.uid) then Returned(LoginStep(true, s, false))
    else LoginSpec(serverEnabled, apiKey, email, password, s, false, now, signIns)
  }

  /** A GET of the data endpoint: the user id, the candidate device id for
      `read_state_server` (None for `list_devices`) and the token the headers
      carry. The answer table is looked up with this value; DataRequest renders the
      request it stands for. */
  datatype DataQuery = DataQuery(base: string, uid: Json, deviceId: Option<string>, token: Json)

  /** What `_get_json` returns for each query: the JSON body the server answers
      with, and None for a query outside the table (a failed request, a non-2xx
      status or a body that is not JSON). */
  type Answers = imap<DataQuery, Json>

  function Ask(fetch: Answers, q: DataQuery): (r: Option<Json>)
    ensures r.Some? <==> q in fetch
  {
    if q in fetch then Some(fetch[q]) else None
  }

  function DataRequest(q: DataQuery): Request {
    var url := q.base + "/api/inverter/data?uid=" + Str(q.uid);
    Request(if q.deviceId.Some? then url + "&deviceId=" + q.deviceId.value else url, Headers(q.token))
  }

  /** The query of `list_devices`. */
  function DevicesQuery(base: string, s: Session): DataQuery {
    DataQuery(base, s.uid, None, s.idToken)
  }

  /** The query of `read_state_server` for one candidate id. */
  function RecordQuery(base: string, s: Session, did: string): DataQuery {
    DataQuery(base, s.uid, Some(did), s.idToken)
  }

  /** The ids `list_devices` collects from the items it iterates: each truthy
      `deviceId` not equal (`==`) to one collected before it, in order. */
  function Dedup(items: seq<Dict>): seq<Json>
    decreases |items|
  {
    if items == [] then []
    else
      var prev := Dedup(items[..|items| - 1]);
      var dev := Get(items[|items| - 1], "deviceId");
      if Truthy(dev) && !PyIn(dev, prev) then prev + [dev] else prev
  }

  /** The collected ids are truthy and pairwise unequal; every truthy id of the
      items equals one of them, and each of them is the id of some item. */
  lemma DedupSpec(items: seq<Dict>)
    ensures var ids := Dedup(items);
      && (forall i :: 0 <= i < |ids| ==> Truthy(ids[i]))
      && (forall i, j :: 0 <= i < j < |ids| ==> !PyEq(ids[i], ids[j]))
      && (forall k :: 0 <= k < |items| && Truthy(Get(items[k], "deviceId")) ==> PyIn(Get(items[k], "deviceId"), ids))
      && (forall i :: 0 <= i < |ids| ==> exists k :: 0 <= k < |items| && ids[i] == Get(items[k], "deviceId"))
  {
    DedupUnique(items);
    DedupCovers(items);
    DedupFrom(items);
  }

  lemma {:induction false} DedupUnique(items: seq<Dict>)
    ensures forall i :: 0 <= i < |Dedup(items)| ==> Truthy(Dedup(items)[i])
    ensures forall i, j :: 0 <= i < j < |Dedup(items)| ==> !PyEq(Dedup(items)[i], Dedup(items)[j])
    decreases |items|
  {
    if items != [] {
      var n := |items| - 1;
      var prev := Dedup(items[..n]);
      var dev := Get(items[n], "deviceId");
      DedupUnique(items[..n]);
      var ids := Dedup(items);
      if Truthy(dev) && !PyIn(dev, prev) {
        assert ids == prev + [dev];
        forall i | 0 <= i < |ids| ensures Truthy(ids[i]) {
          if i < |prev| {
            assert ids[i] == prev[i];
          }
        }
        forall i, j | 0 <= i < j < |ids| ensures !PyEq(ids[i], ids[j]) {
          if j < |prev| {
            assert ids[i] == prev[i] && ids[j] == prev[j];
          } else {
            assert ids[i] == prev[i] && ids[j] == dev;
            assert !PyEq(prev[i], dev);
          }
        }
      } else {
        assert ids == prev;
      }
    }
  }

  lemma {:induction false} DedupCovers(items: seq<Dict>)
    ensures forall k :: 0 <= k < |items| && Truthy(Get(items[k], "deviceId")) ==> PyIn(Get(items[k], "deviceId"), Dedup(items))
    decreases |items|
  {
    if items != [] {
      var n := |items| - 1;
      var prev := Dedup(items[..n]);
      var dev := Get(items[n], "deviceId");
      DedupCovers(items[..n]);
      var ids := Dedup(items);
      assert ids == if Truthy(dev) && !PyIn(dev, prev) then prev + [dev] else prev;
      forall k | 0 <= k < |items| && Truthy(Get(items[k], "deviceId"))
        ensures PyIn(Get(items[k], "deviceId"), ids)
      {
        var x := Get(items[k], "deviceId");
        if k < n {
          assert items[..n][k] == items[k];
          assert PyIn(x, prev);
          if ids != prev {
            PyInExtend(x, prev, dev);
          }
        } else if !PyIn(dev, prev) {
          PyInLast(dev, prev);
        }
      }
    }
  }

  lemma {:induction false} DedupFrom(items: seq<Dict>)
    ensures forall i :: 0 <= i < |Dedup(items)| ==> exists k :: 0 <= k < |items| && Dedup(items)[i] == Get(items[k], "deviceId")
    decreases |items|
  {
    if items != [] {
      var n := |items| - 1;
      var prev := Dedup(items[..n]);
      DedupFrom(items[..n]);
      var ids := Dedup(items);
      assert ids == if Truthy(Get(items[n], "deviceId")) && !PyIn(Get(items[n], "deviceId"), prev) then prev + [Get(items[n], "deviceId")] else prev;
      forall i | 0 <= i < |ids|
        ensures exists k :: 0 <= k < |items| && ids[i] == Get(items[k], "deviceId")
      {
        if i < |prev| {
          assert prev[i] in prev;
          var k :| 0 <= k < |items[..n]| && prev[i] == Get(items[..n][k], "deviceId");
          assert items[..n][k] == items[k];
          assert ids[i] == prev[i];
        } else {
          assert ids[i] == Get(items[n], "deviceId");
        }
      }
    } else {
      assert Dedup(items) == [];
    }
  }

  lemma PyInExtend(x: Json, xs: seq<Json>, y: Json)
    requires PyIn(x, xs)
    ensures PyIn(x, xs + [y])
  {
    var i :| 0 <= i < |xs| && PyEq(xs[i], x);
    assert (xs + [y])[i] == xs[i];
  }

  lemma PyInLast(x: Json, xs: seq<Json>)
    ensures PyIn(x, xs + [x])
  {
    PyEqReflexive(x);
    assert (xs + [x])[|xs|] == x;
  }

  /** Collecting more items only adds ids after those already collected: ids keep
      the order of their first appearance. */
  lemma {:induction false} DedupPrefix(a: seq<Dict>, b: seq<Dict>)
    ensures Dedup(a) <= Dedup(a + b)
    decreases |b|
  {
    if b == [] {
      assert a + b == a;
    } else {
      var b' := b[..|b| - 1];
      DedupPrefix(a, b');
      assert (a + b)[..|a + b| - 1] == a + b';
    }
  }

  /** What `list_devices` returns for the reply to its GET once the guard has
      passed: [] without JSON or for a falsy reply; Raised for a truthy reply that
      is not a dict, or a `data` that is not a list of dicts; otherwise the
      collected ids of `data` (an absent `data` is an empty list). */
  function Listing(reply: Option<Json>): (r: Outcome<seq<Json>>)
    ensures reply.None? ==> r == Returned([])
    ensures reply.Some? && !Truthy(reply.value) ==> r == Returned([])
    ensures reply.Some? && Truthy(reply.value) && !reply.value.JObj? ==> r == Raised
    ensures reply.Some? && Truthy(reply.value) && reply.value.JObj? ==>
      (r.Raised? <==> ForEachDict(GetOr(reply.value.fields, "data", JArr([]))).Raised?)
    ensures (reply.Some? && Truthy(reply.value) && reply.value.JObj? &&
             ForEachDict(GetOr(reply.value.fields, "data", JArr([]))).Returned?) ==>
      r == Returned(Dedup(ForEachDict(GetOr(reply.value.fields, "data", JArr([]))).value))
    ensures r.Returned? ==> forall i, j :: 0 <= i < j < |r.value| ==> !PyEq(r.value[i], r.value[j])
    ensures r.Returned? ==> forall i :: 0 <= i < |r.value| ==> Truthy(r.value[i])
  {
    match reply
    case None => Returned([])
    case Some(j) =>
      if !Truthy(j) then Returned([])
      else if !j.JObj? then Raised
      else
        match ForEachDict(GetOr(j.fields, "data", JArr([])))
        case Raised => Raised
        case Returned(items) => DedupSpec(items); Returned(Dedup(items))
  }

  /** The ids `read_state_server` tries, in order: the id itself, then its bare
      number when it starts with "gti" in any case, or its "gti" form when it is
      all digits. */
  function Candidates(deviceId: string): (c: seq<string>)
    ensures 1 <= |c| <= 2 && c[0] == deviceId
    ensures |c| == 2 <==> StartsWith(Lower(deviceId), "gti") || IsDigits(deviceId)
    ensures StartsWith(Lower(deviceId), "gti") ==> c == [deviceId, deviceId[3..]]
    ensures !StartsWith(Lower(deviceId), "gti") && IsDigits(deviceId) ==> c == [deviceId, "gti" + deviceId]
  {
    if StartsWith(Lower(deviceId), "gti") then [deviceId, deviceId[3..]]
    else if IsDigits(deviceId) then [deviceId, "gti" + deviceId]
    else [deviceId]
  }

  /** A number and its "gti" form try the same two ids, each its own form first. */
  lemma CandidatesBothForms(digits: string)
    requires IsDigits(digits)
    ensures Candidates(digits) == [digits, "gti" + digits]
    ensures Candidates("gti" + digits) == ["gti" + digits, digits]
  {
    assert Lower(digits)[0] == LowerChar(digits[0]);
    assert !StartsWith(Lower(digits), "gti");
    var g := "gti" + digits;
    assert Lower(g)[..3] == "gti" by {
      assert Lower(g)[0] == LowerChar(g[0]) && Lower(g)[1] == LowerChar(g[1]) && Lower(g)[2] == LowerChar(g[2]);
    }
    assert g[3..] == digits;
  }

  /** The upper-case form is recognised too. */
  lemma CandidatesUpperCase(digits: string)
    requires IsDigits(digits)
    ensures Candidates("GTI" + digits) == ["GTI" + digits, digits]
  {
    var g := "GTI" + digits;
    assert Lower(g)[..3] == "gti" by {
      assert Lower(g)[0] == LowerChar(g[0]) && Lower(g)[1] == LowerChar(g[1]) && Lower(g)[2] == LowerChar(g[2]);
    }
    assert g[3..] == digits;
  }

  /** The fields `read_state_server` returns for a record: four of them copied
      (None when absent), `value` defaulting to "", and the whole record as
      `raw`. */
  function ProjectionKeys(): set<string> {
    {"deviceId", "userId", "createdAt", "updatedAt", "value", "raw"}
  }

  function Projection(rec: Dict): (p: Dict)
    ensures p.Keys == ProjectionKeys()
    ensures p["raw"] == JObj(rec)
    ensures p["value"] == (if "value" in rec then rec["value"] else JStr(""))
    ensures p["deviceId"] == Get(rec, "deviceId") && p["userId"] == Get(rec, "userId")
    ensures p["createdAt"] == Get(rec, "createdAt") && p["updatedAt"] == Get(rec, "updatedAt")
  {
    map["deviceId" := Get(rec, "deviceId"), "userId" := Get(rec, "userId"),
        "createdAt" := Get(rec, "createdAt"), "updatedAt" := Get(rec, "updatedAt"),
        "value" := GetOr(rec, "value", JStr("")), "raw" := JObj(rec)]
  }

  /** What one candidate's GET contributes: None to go on to the next candidate
      (no JSON, a falsy reply, a falsy `data`), the projected head of `data`, or
      Raised where the code raises (a truthy reply without `.get`, a truthy `data`
      that is not a list whose head is a dict). */
  function Attempt(reply: Option<Json>): (a: Outcome<Option<Dict>>)
    ensures a.Returned? && a.value.Some? ==>
      && reply.Some? && reply.value.JObj?
      && Truthy(Get(reply.value.fields, "data")) && reply.value.fields["data"].JArr?
      && reply.value.fields["data"].items[0].JObj?
      && a.value.value == Projection(reply.value.fields["data"].items[0].fields)
    ensures reply.None? ==> a == Returned(None)
    ensures reply.Some? && !Truthy(reply.value) ==> a == Returned(None)
    ensures reply.Some? && Truthy(reply.value) && !reply.value.JObj? ==> a == Raised
    ensures reply.Some? && reply.value.JObj? && !Truthy(Get(reply.value.fields, "data")) ==> a == Returned(None)
    ensures (reply.Some? && reply.value.JObj? && Truthy(Get(reply.value.fields, "data")) &&
             reply.value.fields["data"].JArr? && reply.value.fields["data"].items[0].JObj?) ==>
      a == Returned(Some(Projection(reply.value.fields["data"].items[0].fields)))
    ensures (reply.Some? && reply.value.JObj? && Truthy(Get(reply.value.fields, "data")) &&
             (!reply.value.fields["data"].JArr? || !reply.value.fields["data"].items[0].JObj?)) ==>
      a == Raised
  {
    match reply
    case None => Returned(None)
    case Some(j) =>
      if !Truthy(j) then Returned(None)
      else if !j.JObj? then Raised
      else
        var arr := Or(Get(j.fields, "data"), JArr([]));
        if !Truthy(arr) then Returned(None)
        else if arr.JArr? && arr.items[0].JObj? then Returned(Some(Projection(arr.items[0].fields)))
        else Raised
  }

  /** The answer of the candidate loop for the replies its GETs get, in order: the
      first attempt that is not None decides, and {} when none does. */
  function FirstRecord(replies: seq<Option<Json>>): (r: Outcome<Dict>)
    ensures r.Returned? ==> r.value == map[] || r.value.Keys == ProjectionKeys()
    decreases |replies|
  {
    if replies == [] then Returned(map[])
    else
      match Attempt(replies[0])
      case Raised => Raised
      case Returned(Some(p)) => Returned(p)
      case Returned(None) => FirstRecord(replies[1..])
  }

  /** The loop answers {} exactly when every attempt says to go on; otherwise the
      first attempt that does not decides: its projected record, or Raised. */
  lemma {:induction false} FirstRecordSpec(replies: seq<Option<Json>>)
    ensures FirstRecord(replies) == Returned(map[])
        <==> forall i :: 0 <= i < |replies| ==> Attempt(replies[i]) == Returned(None)
    ensures forall k :: (0 <= k < |replies| && Attempt(replies[k]) != Returned(None)
      && (forall i :: 0 <= i < k ==> Attempt(replies[i]) == Returned(None))) ==>
      FirstRecord(replies) == (match Attempt(replies[k]) case Raised => Raised case Returned(o) => Returned(o.value))
    decreases |replies|
  {
    if replies != [] {
      FirstRecordSpec(replies[1..]);
      assert forall i :: 0 <= i < |replies| - 1 ==> replies[1..][i] == replies[i + 1];
      match Attempt(replies[0])
      case Raised =>
      case Returned(Some(p)) => assert p.Keys == ProjectionKeys();
      case Returned(None) =>
        forall k | 0 < k < |replies| && Attempt(replies[k]) != Returned(None)
          && (forall i :: 0 <= i < k ==> Attempt(replies[i]) == Returned(None))
          ensures FirstRecord(replies) == (match Attempt(replies[k]) case Raised => Raised case Returned(o) => Returned(o.value))
        {
          assert replies[1..][k - 1] == replies[k];
          assert forall i :: 0 <= i < k - 1 ==> Attempt(replies[1..][i]) == Returned(None);
        }
    }
  }

  /** The replies the candidate GETs would get. */
  function Replies(fetch: Answers, base: string, s: Session, cands: seq<string>): (rs: seq<Option<Json>>)
    ensures |rs| == |cands|
    ensures forall i :: 0 <= i < |cands| ==> rs[i] == Ask(fetch, RecordQuery(base, s, cands[i]))
  {
    seq(|cands|, i requires 0 <= i < |cands| => Ask(fetch, RecordQuery(base, s, cands[i])))
  }

  /** The part of `list_devices` after the GET: the checks on the reply and the
      loop that collects the ids. */
  method CollectDevices(reply: Option<Json>) returns (r: Outcome<seq<Json>>)
    ensures r == Listing(reply)
  {
    if reply.None? || !Truthy(reply.value) {
      return Returned([]);
    }
    if !reply.value.JObj? {
      return Raised;
    }
    var walk := ForEachDict(GetOr(reply.value.fields, "data", JArr([])));
    if walk.Raised? {
      return Raised;
    }
    var items := walk.value;
    var ids: seq<Json> := [];
    var i := 0;
    while i < |items|
      invariant 0 <= i <= |items|
      invariant ids == Dedup(items[..i])
    {
      assert items[..i + 1][..i] == items[..i];
      var dev := Get(items[i], "deviceId");
      if Truthy(dev) && !PyIn(dev, ids) {
        ids := ids + [dev];
      }
      i := i + 1;
    }
    assert items[..|items|] == items;
    return Returned(ids);
  }

  /** The candidate loop of `read_state_server` with session `s`: one GET per
      candidate in order, stopping at the first record or exception. */
  method TryCandidates(fetch: Answers, base: string, s: Session, cands: seq<string>)
    returns (r: Outcome<Dict>)
    ensures r == FirstRecord(Replies(fetch, base, s, cands))
  {
    ghost var replies := Replies(fetch, base, s, cands);
    var i := 0;
    while i < |cands|
      invariant 0 <= i <= |cands|
      invariant FirstRecord(replies) == FirstRecord(replies[i..])
    {
      assert replies[i..][0] == replies[i] && replies[i..][1..] == replies[i + 1..];
      var a := Attempt(Ask(fetch, RecordQuery(base, s, cands[i])));
      if a.Raised? {
        return Raised;
      }
      if a.value.Some? {
        return Returned(a.value.value);
      }
      i := i + 1;
    }
    return Returned(map[]);
  }

  /** The session a guarded call leaves: the one its login step ends with, or the
      old one when the login raised. */
  function SessionAfter(g: Outcome<LoginStep>, s: Session): Session {
    if g.Returned? then g.value.session else s
  }

  /** The user cache file after a login step. */
  function FileAfter(g: Outcome<LoginStep>, file: Json, base: string): Json {
    if g.Returned? && g.value.saved then JObj(CacheRecord(g.value.session, base)) else file
  }

  /** `APIClient`: its options and its token cache. `userFile` stands for the
      content of the user cache file. */
  class Client {
    const base: string
    const email: Json
    const password: Json
    const apiKey: Json
    const serverEnabled: bool
    var idToken: Json
    var uid: Json
    var expAt: int
    var userFile: Json

    function Current(): Session
      reads this
    {
      Session(idToken, uid, expAt)
    }

    /** `__init__`, from the options and the user cache file's content. The
        email, the password and the key are kept as the options hold them, or
        "" when unset. */
    constructor (opts: Dict, cache: Json)
      requires StringOption(opts, "server_base_url")
      requires LoadSession(cache).Returned?
      ensures base == RStrip(StrOr(Get(opts, "server_base_url")), '/')
      ensures email == Or(Get(opts, "email"), JStr("")) && password == Or(Get(opts, "password"), JStr(""))
      ensures apiKey == Or(Get(opts, "firebase_api_key"), JStr(""))
      ensures serverEnabled == Truthy(GetOr(opts, "server_enabled", JBool(true)))
      ensures Current() == LoadSession(cache).value && userFile == cache
    {
      base := RStrip(StrOr(Get(opts, "server_base_url")), '/');
      email := Or(Get(opts, "email"), JStr(""));
      password := Or(Get(opts, "password"), JStr(""));
      apiKey := Or(Get(opts, "firebase_api_key"), JStr(""));
      serverEnabled := Truthy(GetOr(opts, "server_enabled", JBool(true)));
      var s := LoadSession(cache).value;
      idToken := s.idToken;
      uid := s.uid;
      expAt := s.expAt;
      userFile := cache;
    }

    /** `login(force)` at time `now`: the answer, the session and the cache file
        follow LoginSpec. */
    method Login(force: bool, now: int, signIns: SignIns) returns (r: Outcome<bool>)
      modifies this
      ensures var st := LoginSpec(serverEnabled, apiKey, email, password, old(Current()), force, now, signIns);
        && r == (if st.Raised? then Raised else Returned(st.value.ok))
        && Current() == SessionAfter(st, old(Current()))
        && userFile == FileAfter(st, old(userFile), base)
    {
      if !serverEnabled {
        return Returned(true);
      }
      if !force && TokenValid(Current(), now) {
        return Returned(true);
      }
      if !Credentials(apiKey, email, password) {
        return Returned(false);
      }
      if !apiKey.JStr? {
        return Raised;
      }
      var ok := SignInWith(now, Reply(signIns, SignInPost(apiKey.s, email, password)));
      return Returned(ok);
    }

    /** The `try` block of `login` with the reply its POST got, as SignInStep. */
    method SignInWith(now: int, reply: Response) returns (ok: bool)
      modifies this
      ensures var st := SignInStep(old(Current()), now, reply);
        && ok == st.ok && Current() == st.session
        && userFile == (if st.saved then JObj(CacheRecord(st.session, base)) else old(userFile))
    {
      if !(reply.Body? && reply.json.JObj?) {
        return false;
      }
      var j := reply.json.fields;
      idToken := Get(j, "idToken");
      uid := Get(j, "localId");
      var expiresIn := ExpiresIn(j);
      if expiresIn.None? {
        return false;
      }
      expAt := now + expiresIn.value;
      userFile := JObj(CacheRecord(Current(), base));
      return true;
    }

    /** `self.uid or self.login()` */
    method EnsureUser(now: int, signIns: SignIns) returns (r: Outcome<bool>)
      modifies this
      ensures var g := UserGuard(serverEnabled, apiKey, email, password, old(Current()), now, signIns);
        && r == (if g.Raised? then Raised else Returned(g.value.ok))
        && Current() == SessionAfter(g, old(Current()))
        && userFile == FileAfter(g, old(userFile), base)
    {
      if Truthy(uid) {
        return Returned(true);
      }
      r := Login(false, now, signIns);
    }

    /** What `read_state_server(device_id)` at time `now` answers when the client
        holds session `s`. */
    function ReadResult(s: Session, now: int, signIns: SignIns, fetch: Answers, deviceId: string)
      : (r: Outcome<Dict>)
      ensures r.Returned? ==> r.value == map[] || r.value.Keys == ProjectionKeys()
      ensures var g := UserGuard(serverEnabled, apiKey, email, password, s, now, signIns);
        && (g.Raised? ==> r == Raised)
        && (g.Returned? && !g.value.ok ==> r == Returned(map[]))
        && (g.Returned? && g.value.ok ==> r == FirstRecord(Replies(fetch, base, g.value.session, Candidates(deviceId))))
    {
      match UserGuard(serverEnabled, apiKey, email, password, s, now, signIns)
      case Raised => Raised
      case Returned(g) =>
        if g.ok then FirstRecord(Replies(fetch, base, g.session, Candidates(deviceId))) else Returned(map[])
    }

    /** `list_devices` at time `now`: Raised when the login raises, [] when the
        guard fails, otherwise Listing of the reply to the GET made with the
        session the guard leaves. */
    method ListDevices(now: int, signIns: SignIns, fetch: Answers)
      returns (r: Outcome<seq<Json>>)
      modifies this
      ensures var g := UserGuard(serverEnabled, apiKey, email, password, old(Current()), now, signIns);
        && Current() == SessionAfter(g, old(Current()))
        && userFile == FileAfter(g, old(userFile), base)
        && r == (if g.Raised? then Raised
                 else if g.value.ok then Listing(Ask(fetch, DevicesQuery(base, g.value.session)))
                 else Returned([]))
    {
      var ok := EnsureUser(now, signIns);
      if ok.Raised? {
        return Raised;
      }
      if !ok.value {
        return Returned([]);
      }
      r := CollectDevices(Ask(fetch, DevicesQuery(base, Current())));
    }

    /** `read_state_server(device_id)` at time `now`: Raised when the login
        raises, {} when the guard fails, otherwise the candidate loop over the
        replies its GETs get. */
    method ReadStateServer(now: int, signIns: SignIns, fetch: Answers, deviceId: string)
      returns (r: Outcome<Dict>)
      modifies this
      ensures var g := UserGuard(serverEnabled, apiKey, email, password, old(Current()), now, signIns);
        && Current() == SessionAfter(g, old(Current()))
        && userFile == FileAfter(g, old(userFile), base)
        && r == (if g.Raised? then Raised
                 else if g.value.ok then FirstRecord(Replies(fetch, base, g.value.session, Candidates(deviceId)))
                 else Returned(map[]))
      ensures r == ReadResult(old(Current()), now, signIns, fetch, deviceId)
    {
      var ok := EnsureUser(now, signIns);
      if ok.Raised? {
        return Raised;
      }
      if !ok.value {
        return Returned(map[]);
      }
      r := TryCandidates(fetch, base, Current(), Candidates(deviceId));
    }
  }
}
