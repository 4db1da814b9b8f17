# GTI Control — a Dafny model

GTI Control is a Home Assistant add-on for GTI grid-tie inverters. It signs in to
the vendor's cloud backend with Firebase email/password authentication. It lists
the user's inverters and polls each one. Every reading becomes a flat state record,
which is published as retained JSON on the MQTT topic `gti/<device>/state`. Before
polling starts, the add-on announces 28 Home Assistant entities per inverter through
MQTT discovery: 13 sensors, one `online` binary sensor, 8 numbers and 6 datetimes.
The add-on ships in two copies: a release copy (`gti-control/`) and a debug copy
(`gti-control-debug/`). They share the mapping tables and the discovery payloads.
They differ in the API client and in the coordinator.

This project models both copies:

- `mapping.dfy`, `mapping_debug.dfy`: the sensor tables and the daily/monthly
  counter keys.
- `discovery.dfy`: the discovery topics and payloads. It also models the broker's
  retained-message store as a map from topic to payload.
- `api.dfy`: the release API client. It covers the sign-in guard, the auth headers
  and device listing (including the `gti` prefixing). It also covers the alias
  table for the daily/monthly energy counters and the three settings writes.
- `api_debug.dfy`: the debug API client. It covers the option clean-up and the
  token cache. It also covers the token-validity test, the sign-in decision and
  the sign-in POST. Finally it covers the de-duplicating device list and
  the candidate-id search for a device's latest record.
- `coordinator.dfy`, `coordinator_debug.dfy`: the two coordinators. They cover
  entity discovery, the state record `build_state` produces, publishing into the
  state cache, and one pass of the poll loop with its exception fallback. The
  debug copy also covers the number-command handler.
- `server.dfy`: the release web server's start-up. It covers the MQTT settings and
  the device-list fallback, which never yields an empty list. It also covers the
  login form, which rewrites only the credentials.
- `python.dfy`, `text.dfy`, `http.dfy`: Python values and string operations, and
  the HTTP calls the clients make.

Python values are the datatype `Python.Json`. An exception escaping a function is
`Outcome.Raised`. Each HTTP call of the release client is a function parameter
(an oracle) from the request to the reply. The debug client's GETs are looked up in
a table of answers (`DebugApi.Answers`), and its sign-in POST in a table of
replies keyed by the POST it sends (`DebugApi.SignIns`). So every property holds for every server
behaviour that answers the same request the same way within one poll pass. A server whose answer to
one request changes within a pass is not covered: a device listed twice is read twice with one reply
(see "## Left out"). The
classes `Api.ApiClient`, `DebugApi.Client`, the two `Coordinator` classes and
`Server.Server` mirror the Python objects and module globals that change in place.
The MQTT publications are the field `published`, a log of messages in order.
The loops and the debug sign-in are proved equal to pure specification functions:
`Step`/`Cycle` for the poll loop, `LoginSpec`/`UserGuard` for the debug sign-in,
`Listing`, `FirstRecord`, `FormatFrom` and `Normalized` (through `Formatted`). The
source's promises are proved about those functions. The release start-up is stated
by when it raises (`Api.LoginRaises`, `Api.SignInRaises`) and, when it returns, by
the device choice `SelectDevices`.

Places where the model follows the code rather than the add-on's description:

- The debug token cache is read and written under the key `expires_at`.
- The release `list_devices` accepts only a top-level JSON list. A reply of the
  form `{"data": [...]}` yields `[]`, because iterating a dict gives its string keys
  and `str.get` raises (`Api.WrappedListListsNothing`).
- The release `list_devices` keeps duplicates (`Api.ListedIdsKeepsDuplicates`).
  Only the debug client de-duplicates.
- In the energy aliases, the new-style field name (`export_energy_kwh_daily`, …)
  is tried first and the legacy name second.
- No `#`-separated value string is parsed anywhere. The debug coordinator keeps the
  raw `value`, and every metric of its record is `fmt2(0.0)`
  (`DebugCoordinator.RecordShape`).
- After a failure, the release loop publishes `{"online": false}` even when nothing
  is cached (`Coordinator.OfflineRecord`). The debug loop skips such a device
  (`DebugCoordinator.FallbackDiffers`).
- `device_id.replace("gti", "")` removes every `gti`, not just a prefix. So the id
  `5gti`, listed as `gti5gti`, is queried as `5` (`Api.StripAddGtiCounterexample`).
  For ids made of digits, stripping undoes prefixing (`Api.StripAddGti`).
- The debug `handle_number_cmd` calls `set_cutoff_voltage`/`set_max_power`, which
  the debug client does not define. The model records the write the handler asks
  for (`DebugCoordinator.NumberCommand`).

## Model

| member | source | states |
|---|---|---|
| Mapping.SensorKeysDistinct | gti-control/app/mapping.py:1-21 | the three sensor tables have 7, 4 and 2 entries and no key occurs twice across them |
| Mapping.SensorKeyList | gti-control/app/mapping.py:1-21 | the keys of the merged tables, in insertion order |
| Mapping.MergedSensorTables | gti-control/app/mapping.py:1-21 | `{**GTI_SENSORS, **GRID_SENSORS, **TIEUTHU_SENSORS}` is the plain concatenation of the three tables (nothing is overwritten) |
| Mapping.ControlEntriesUnclassified | gti-control/app/mapping.py:7-8 | `cutoff_voltage` and `max_power_limit` carry no device class and no state class |
| Mapping.EnergyTotalsIncreasing | gti-control/app/mapping.py:3-20 | the three energy totals have unit kWh, device class `energy` and state class `total_increasing` |
| Mapping.CounterKeysSeparate | gti-control/app/mapping.py:23-24 | three daily and three monthly keys, all distinct, none a sensor key |
| DebugMapping.SameTablesAsRelease | gti-control-debug/app/mapping.py:1-24 | the debug tables equal the release tables entry for entry |
| DebugMapping.TablesWellFormed | gti-control-debug/app/mapping.py:1-24 | 13 distinct sensor keys; the merge is a concatenation; the control entries are unclassified; the counter keys are distinct and apart from the sensors |
| Discovery.SensorMessage | gti-control/app/mqtt_discovery.py:11-25 | retained config on `<prefix>/sensor/<dev>_<key>/config` with name, unit, state topic, unique id and the template `{{ value_json.<key> \| default(0.0) }}`; `device_class`/`state_class` present exactly when the metadata has them |
| Discovery.BinarySensorMessage | gti-control/app/mqtt_discovery.py:27-38 | the `online` binary sensor announcement: name "Trạng thái online", payloads ON/OFF, the online template, and exactly the seven keys of the payload |
| Discovery.NumberMessage | gti-control/app/mqtt_discovery.py:40-52 | a number announcement with its name, command topic `gti/<dev>/cmd/number/<key>`, template `{{ value_json.<key> \| default(0.0) }}`, unit, min, max and step, and no other key |
| Discovery.DatetimeMessage | gti-control/app/mqtt_discovery.py:54-64 | a datetime announcement with its name, its command topic, the template defaulting to `'00:00'`, and exactly the six keys of the payload |
| Discovery.DiscTopicInjective | gti-control/app/mqtt_discovery.py:5-6 | equal discovery topics have the same component and object id (for components without '/') |
| Discovery.ObjIdInjective | gti-control/app/mqtt_discovery.py:8-9 | for one device, distinct keys give distinct object ids |
| Discovery.DiscTopicSplits | gti-control/app/mqtt_discovery.py:5-6 | splitting a discovery topic on '/' gives back prefix, component, object id and `config` |
| Discovery.CommandTopicSplits | gti-control/app/mqtt_discovery.py:44-58 | splitting a command topic on '/' gives `gti`, the device, `cmd`, the kind and the key |
| Discovery.RetainOne | gti-control/app/mqtt_discovery.py:25 | a retained publication replaces its topic's stored payload |
| Discovery.RetainAppend | gti-control/app/mqtt_discovery.py:25 | publishing two batches in turn is publishing their concatenation |
| Discovery.RetainOverwrites | gti-control/app/mqtt_discovery.py:25-64 | after a batch, the store holds the last retained payload of each topic |
| Discovery.RepublishIdempotent | gti-control/app/mqtt_discovery.py:25-64 | announcing the same messages again leaves the retained store unchanged |
| Api.AddGti | gti-control/app/api_client.py:48-49 | the id is kept exactly when it already starts with `gti`; otherwise the result is `gti` + the id |
| Api.AddGtiIdempotent | gti-control/app/api_client.py:48-49 | prefixing an already prefixed id changes nothing |
| Api.StripGtiDigits | gti-control/app/api_client.py:60 | `replace("gti", "")` turns `gti` + digits back into the digits |
| Api.StripAddGti | gti-control/app/api_client.py:48-60 | for an id without `gti`, stripping the listed id gives back the id |
| Api.StripAddGtiCounterexample | gti-control/app/api_client.py:48-60 | the id `5gti` is listed as `gti5gti` and queried as `5` |
| Api.ListedIds | gti-control/app/api_client.py:44-50 | at most one id per item, each starting with `gti` |
| Api.ListedIdsAppend | gti-control/app/api_client.py:45-50 | the ids of two item lists are the ids of each, in order |
| Api.ListedIdsSingle | gti-control/app/api_client.py:46-50 | an item contributes `gti`-prefixed `deviceId` (else `id`) when that is truthy, and nothing otherwise |
| Api.ListedIdsKeepsDuplicates | gti-control/app/api_client.py:44-50 | the same item twice yields two ids |
| Api.Listed | gti-control/app/api_client.py:36-53 | a failed call or an empty body yields []; otherwise the `ListedIds` of the iterated items (`r.json() or []`), and [] when the iteration raises; every listed id starts with `gti` |
| Api.WrappedListListsNothing | gti-control/app/api_client.py:43-53 | a `{"data": [...]}` reply lists no device |
| Api.Resolve | gti-control/app/api_client.py:66-71 | a counter takes the new-style field if truthy, else the legacy field if truthy, else 0.0 |
| Api.EnergyFields | gti-control/app/api_client.py:65-72 | the mapped dict has exactly the aliases' output keys, each resolved from its two fields |
| Api.EnergyAliasesWellFormed | gti-control/app/api_client.py:65-72 | the six output keys are distinct and are exactly the daily and monthly keys |
| Api.EnergyRecord | gti-control/app/api_client.py:64-73 | a successful read holds exactly the six daily/monthly keys |
| Api.EnergyReply | gti-control/app/api_client.py:58-75 | a failed call, an empty body or a truthy non-dict reply yields {}; a dict reply yields `EnergyRecord` of it, and a falsy reply `EnergyRecord` of {} (six keys at 0.0) |
| Api.ApiClient.constructor | gti-control/app/api_client.py:5-14 | each option with its default; base URL without trailing '/'; no token and no user yet |
| Api.TokensAfterLogin | gti-control/app/api_client.py:16-28 | the token and user id after `login`: unchanged when the server is disabled, the sign-in is not configured or the login raises; otherwise `idToken` and `localId` of the dict reply |
| Api.ApiClient.SignInPost | gti-control/app/api_client.py:19-21 | the sign-in body carries exactly the client's email and password and `returnSecureToken: true` |
| Api.ApiClient.Login | gti-control/app/api_client.py:16-28 | never returns False; server disabled or credentials incomplete: True with the tokens untouched; otherwise a failed call raises, and a reply sets the token and the user id; the tokens after the call are `TokensAfterLogin` of those before |
| Api.ApiClient.AuthHeaders | gti-control/app/api_client.py:30-34 | JSON content type always; `Authorization: Bearer <token>` exactly when the token is truthy |
| Api.ApiClient.ListDevices | gti-control/app/api_client.py:36-53 | [] with the server disabled; otherwise the ids of the reply's items in order, each starting with `gti` |
| Api.ApiClient.ReadStateServer | gti-control/app/api_client.py:55-75 | {} with the server disabled; otherwise {} or exactly the six counter keys |
| Api.ApiClient.WritePost | gti-control/app/api_client.py:93-95 | the POST goes to base + path with the auth headers, and its body carries the stripped id plus exactly the given values |
| Api.ApiClient.SetCutoffVoltage | gti-control/app/api_client.py:90-99 | False with the server disabled; otherwise whether the POST of id and voltage to /settings/cutoff succeeded |
| Api.ApiClient.SetMaxPower | gti-control/app/api_client.py:101-110 | False with the server disabled; otherwise whether the POST of id and watts to /settings/max_power succeeded |
| Api.ApiClient.SetSchedule | gti-control/app/api_client.py:112-123 | False with the server disabled; otherwise whether the POST of the six schedule fields to /schedule succeeded |
| DebugApi.Cleaned | gti-control-debug/app/api_client.py:36-38 | same keys; the four credential/base-URL strings are stripped and every other value is kept |
| DebugApi.LoadOptions | gti-control-debug/app/api_client.py:33-39 | a missing or empty file gives {}; a dict is cleaned; any other truthy JSON raises |
| DebugApi.CleanedIdempotent | gti-control-debug/app/api_client.py:33-39 | cleaning cleaned options changes nothing |
| DebugApi.LoadOptionsIdempotent | gti-control-debug/app/api_client.py:33-39 | loading options that were saved after loading gives the same options |
| DebugApi.StripIdempotent | gti-control-debug/app/api_client.py:38 | `strip()` of a stripped string changes nothing |
| DebugApi.StrOr | gti-control-debug/app/api_client.py:44-47 | `opts.get(k) or ""`: the string when truthy, else "" |
| DebugApi.LoadSession | gti-control-debug/app/api_client.py:59-63 | no cache: no token, no user, expiry 0; a truthy non-dict raises; a dict raises exactly when `int(expires_at or 0)` raises, and otherwise gives `idToken`/`id_token`, `localId`/`uid`/`user_id` and that integer as the expiry |
| DebugApi.CacheRecord | gti-control-debug/app/api_client.py:72-86 | the saved cache holds exactly `localId`, `idToken`, `expires_at` and `server_base_url` |
| DebugApi.CacheRoundTrip | gti-control-debug/app/api_client.py:59-86 | loading a saved cache gives back the saved session |
| DebugApi.TokenValid | gti-control-debug/app/api_client.py:69-70 | valid exactly when the token is truthy and more than 60 s remain |
| DebugApi.Headers | gti-control-debug/app/api_client.py:90-94 | `Accept: application/json` always; a bearer token exactly when the token is truthy |
| DebugApi.SignInBody | gti-control-debug/app/api_client.py:128 | the sign-in body carries exactly email, password and `returnSecureToken: true`, the credentials as the options hold them |
| DebugApi.MaskKey | gti-control-debug/app/api_client.py:131 | a key of 12+ characters is shown as its first 6 and last 4 around '…'; a shorter key is shown whole |
| DebugApi.MaskHidesLongKey | gti-control-debug/app/api_client.py:131-132 | a key of 12+ characters does not occur in its masked form |
| DebugApi.SignInPost | gti-control-debug/app/api_client.py:126-128 | the POST goes to the password sign-in URL with the stripped key and carries `SignInBody` |
| DebugApi.ExpiresIn | gti-control-debug/app/api_client.py:142 | `int(expiresIn or 3600)`: 3600 when absent or falsy; otherwise an int as itself, a string as `int()` parses it (None when it does not), a float truncated toward zero, `True` as 1, and None for a list or dict |
| DebugApi.LoginWithoutCall | gti-control-debug/app/api_client.py:113-124 | server disabled or valid token (without force): True, session kept, no call; a falsy key, email or password: False, no call; the result is the same for any sign-in replies |
| DebugApi.LoginExpiry | gti-control-debug/app/api_client.py:126-149 | past the guards: raises exactly when the key is not a string (`.strip()` before the `try`); otherwise the reply to `SignInPost` of the stripped key and the credentials decides: a failed or non-dict reply gives False with the session kept; a dict reply sets the token and the user even when `int(expiresIn)` then raises, and gives True with `now + expiresIn` and a saved cache exactly when `int(expiresIn or 3600)` succeeds |
| DebugApi.SignInStepFacts | gti-control-debug/app/api_client.py:133-149 | the `try` block answers True exactly when it writes the cache, for a dict reply whose `int(expiresIn or 3600)` succeeds, with `now + expiresIn`; any dict reply sets the reply's token and user; otherwise the expiry is kept, and without a dict reply the whole session |
| DebugApi.LoginThenCached | gti-control-debug/app/api_client.py:113-149 | after a successful sign-in with a token lasting over 60 s, the next login is answered from the cache |
| DebugApi.UserGuard | gti-control-debug/app/api_client.py:156-157 | `if not self.uid and not self.login()`: a known user skips the login; otherwise it is the unforced login's outcome, a raise included |
| DebugApi.DedupSpec | gti-control-debug/app/api_client.py:162-166 | the list holds each truthy `deviceId` of the items once, and nothing else |
| DebugApi.DedupPrefix | gti-control-debug/app/api_client.py:162-166 | the ids of a prefix of the items are a prefix of the ids of all items: later items only append, so the list is in first-seen order |
| DebugApi.Listing | gti-control-debug/app/api_client.py:158-167 | no reply or a falsy one gives []; a truthy non-dict raises; a dict raises exactly when iterating its `data` (default []) raises, and otherwise gives `Dedup` of the items; the ids are pairwise distinct and truthy |
| DebugApi.Candidates | gti-control-debug/app/api_client.py:178-185 | the id first; then `id[3:]` when the lowered id starts with `gti`, else `gti` + the id when it is all digits, else nothing |
| DebugApi.CandidatesBothForms | gti-control-debug/app/api_client.py:178-185 | `283` is tried as `283` then `gti283`; `gti283` as `gti283` then `283` |
| DebugApi.CandidatesUpperCase | gti-control-debug/app/api_client.py:178-185 | `GTI283` is tried as `GTI283` then `283` |
| DebugApi.Projection | gti-control-debug/app/api_client.py:196-205 | exactly six keys: four record fields, `value` defaulting to "" and the whole record as `raw` |
| DebugApi.Attempt | gti-control-debug/app/api_client.py:189-205 | no reply, a falsy reply or a falsy `data` moves on; a truthy non-dict raises; a truthy `data` that is a list with a dict head gives the projection of `data[0]`, any other truthy `data` raises |
| DebugApi.FirstRecord | gti-control-debug/app/api_client.py:187-206 | {} or a projection |
| DebugApi.FirstRecordSpec | gti-control-debug/app/api_client.py:187-206 | {} when every candidate moves on; otherwise the first candidate that does not move on decides |
| DebugApi.Replies | gti-control-debug/app/api_client.py:187-189 | one GET per candidate, for that candidate's id, in order |
| DebugApi.CollectDevices | gti-control-debug/app/api_client.py:162-167 | the loop computes `Listing` of the reply |
| DebugApi.TryCandidates | gti-control-debug/app/api_client.py:187-206 | the loop computes `FirstRecord` of the candidates' replies |
| DebugApi.Client.constructor | gti-control-debug/app/api_client.py:43-63 | email, password and key as `opts.get(k) or ""` of any type, `server_enabled` by truthiness defaulting to True, base URL without trailing '/', session from the cache |
| DebugApi.Client.Login | gti-control-debug/app/api_client.py:113-149 | result and new session are `LoginSpec`'s, a raise included with the session and file kept; the cache file is written exactly when a sign-in succeeds |
| DebugApi.Client.SignInWith | gti-control-debug/app/api_client.py:133-146 | the answer, the session and the cache file after the POST's reply are `SignInStep`'s |
| DebugApi.Client.EnsureUser | gti-control-debug/app/api_client.py:156-157 | the `uid`/login guard of both readers, as `UserGuard` |
| DebugApi.Client.ReadResult | gti-control-debug/app/api_client.py:170-206 | Raised when the `uid`/login guard raises, {} when it fails, otherwise `FirstRecord` of the candidates' replies with the guard's session; a returned result is {} or a projection |
| DebugApi.Client.ListDevices | gti-control-debug/app/api_client.py:152-167 | Raised when the guard's login raises, [] when the guard fails; otherwise `Listing` of the reply for the session's user |
| DebugApi.Client.ReadStateServer | gti-control-debug/app/api_client.py:170-206 | Raised when the guard's login raises, {} when the guard fails; otherwise `FirstRecord` over the candidates |
| Coordinator.Fmt2 | gti-control/app/coordinator.py:7-9 | the rounded float `round2[x]` where `float(x)` succeeds, and 0.0 where it raises |
| Coordinator.MetricKeysList | gti-control/app/coordinator.py:55 | the metric loop's keys are the merged sensor keys |
| Coordinator.OnlineNotMetric | gti-control/app/coordinator.py:55-57 | `online` is not a metric key |
| Coordinator.CounterKeysDistinct | gti-control/app/coordinator.py:59-62 | daily and monthly keys are distinct, disjoint and not `online` |
| Coordinator.CounterKeysApart | gti-control/app/coordinator.py:55-62 | no counter key is a metric key or `online` |
| Coordinator.MetricKeysWellFormed | gti-control/app/coordinator.py:55-62 | 13 distinct metric keys, apart from `online` and the counters |
| Coordinator.FormatFromShape | gti-control/app/coordinator.py:55-62 | every listed key is present; when the keys are distinct each becomes `fmt2(src.get(k, st.get(k, 0.0)))`; other keys are kept |
| Coordinator.FormatKeys | gti-control/app/coordinator.py:55-62 | the loop computes `FormatFrom` |
| Coordinator.FormatLoopFormatted | gti-control/app/coordinator.py:55-57 | over distinct keys and nothing to read from, the loop leaves each key formatted from the value it had (0.0 when absent) and every other key as it was |
| Coordinator.SetOnline | gti-control/app/coordinator.py:57 | `online` becomes the truthiness of the old value, True when absent; other keys are kept |
| Coordinator.NormalizeMetrics | gti-control/app/coordinator.py:54-57 | the loop computes `Normalized` |
| Coordinator.NormalizedShape | gti-control/app/coordinator.py:54-57 | every metric key is present and formatted, `online` is a bool, all other keys are kept |
| Coordinator.MergeCountersShape | gti-control/app/coordinator.py:59-62 | every counter key takes the server value if present, else 0.0, formatted; other keys are kept |
| Coordinator.FreshRecord | gti-control/app/coordinator.py:49-57 | starting from {}: 13 metrics at `fmt2(0.0)`, online True, no counter keys |
| Coordinator.MergedRecord | gti-control/app/coordinator.py:53-63 | with the merge on, the record holds the metrics, `online` and the six counters, and nothing else |
| Coordinator.DeviceInfo | gti-control/app/coordinator.py:25-31 | exactly four keys: identifiers `["gti:<dev>"]`, name the device id, manufacturer "GTI" and model "GTI Control" |
| Coordinator.Announce | gti-control/app/coordinator.py:38-47 | each entity is announced under its component and key |
| Coordinator.AnnouncementsAppend | gti-control/app/coordinator.py:33-47 | announcing two entity lists is announcing each, in order |
| Coordinator.CountSensors | gti-control/app/coordinator.py:37-39 | the sensor loop announces one sensor per table entry |
| Coordinator.ScheduleComponents | gti-control/app/coordinator.py:43-47 | each schedule slot announces two datetimes then two numbers |
| Coordinator.ControlCounts | gti-control/app/coordinator.py:40-42 | one binary sensor and two numbers besides the slots |
| Coordinator.ScheduleCounts | gti-control/app/coordinator.py:43-47 | two datetimes and two numbers per slot |
| Coordinator.FixedCounts | gti-control/app/coordinator.py:40-47 | the 15 non-sensor entities: 1 binary sensor, 8 numbers, 6 datetimes |
| Coordinator.DiscoveryCounts | gti-control/app/coordinator.py:33-47 | 28 entities per device: 13 sensors, 1 binary sensor, 8 numbers, 6 datetimes |
| Coordinator.FixedEntitiesDistinct | gti-control/app/coordinator.py:40-47 | no two non-sensor entities share component and key, and none is a sensor |
| Coordinator.EntitiesDistinct | gti-control/app/coordinator.py:33-47 | with distinct sensor keys, no two entities share component and key |
| Coordinator.TopicsDiffer | gti-control/app/mqtt_discovery.py:5-9 | entities differing in component or key get different discovery topics |
| Coordinator.AnnouncementTopicsDistinct | gti-control/app/coordinator.py:33-47 | the 28 announcements of a device go to 28 different topics |
| Coordinator.StateMessage | gti-control/app/coordinator.py:65-67 | the record is published, retained, on `gti/<dev>/state` |
| Coordinator.StateTopicInjective | gti-control/app/coordinator.py:66 | different devices have different state topics |
| Coordinator.PublishMirrors | gti-control/app/coordinator.py:65-68 | publishing keeps the retained store and the state cache in agreement |
| Coordinator.OfflineRecord | gti-control/app/coordinator.py:79-80 | the fallback is the cached record (or {}) with `online` False and everything else kept |
| Coordinator.CycleSnoc | gti-control/app/coordinator.py:74-81 | a pass over one more device is the pass so far followed by that device's step |
| Coordinator.CycleOrder | gti-control/app/coordinator.py:74-81 | one state message per device, in list order, and every device ends up cached |
| Coordinator.CycleMirrors | gti-control/app/coordinator.py:74-81 | a whole pass keeps the retained store and the state cache in agreement |
| Coordinator.Coordinator.constructor | gti-control/app/coordinator.py:12-23 | the flags with their defaults, an empty cache, nothing published |
| Coordinator.Coordinator.DiscoverEntities | gti-control/app/coordinator.py:33-47 | with `publish_mqtt` on, the announcements of the 28 entities in source order; nothing otherwise; the cache is untouched |
| Coordinator.Coordinator.AnnounceDevice | gti-control/app/coordinator.py:36-47 | publishes the announcements of the 28 entities in source order |
| Coordinator.Coordinator.AnnounceEach | gti-control/app/coordinator.py:38-47 | the loop publishes `Announcements` of the given entities |
| Coordinator.Coordinator.ReadDeviceState | gti-control/app/coordinator.py:49-51 | always {} |
| Coordinator.Coordinator.BuildState | gti-control/app/coordinator.py:53-63 | the loops compute `Built` |
| Coordinator.Coordinator.BuiltShape | gti-control/app/coordinator.py:53-63 | raises exactly when the merge is on and there is no API client; otherwise the normalised record, merged with the server's counters when the merge is on |
| Coordinator.Coordinator.PublishState | gti-control/app/coordinator.py:65-68 | appends the state message and caches the record |
| Coordinator.Coordinator.PollDevice | gti-control/app/coordinator.py:75-81 | the `try`/`except` of one device, as `Step` |
| Coordinator.Coordinator.PollCycle | gti-control/app/coordinator.py:74-81 | one pass over the devices, as `Cycle` of the builds, where the i-th build is `Built` of the i-th device |
| DebugCoordinator.SameSensors | gti-control-debug/app/coordinator.py:39-63 | the debug sensor tables and metric keys are the release ones |
| DebugCoordinator.DiscoveryCounts | gti-control-debug/app/coordinator.py:35-48 | 28 entities per device, as in the release copy |
| DebugCoordinator.NumberCommand | gti-control-debug/app/coordinator.py:79-89 | a topic without '/' raises; an unparsable payload or another key writes nothing; `cutoff_voltage`/`max_power_limit` write the parsed value for `parts[1]` |
| DebugCoordinator.NumberCommandRoundTrip | gti-control-debug/app/coordinator.py:79-89 | a command on an announced number's topic reaches that device and key |
| DebugCoordinator.ProjectionApart | gti-control-debug/app/coordinator.py:60-66 | no field of the server projection is a metric key or `online` |
| DebugCoordinator.RecordShape | gti-control-debug/app/coordinator.py:60-66 | every metric is `fmt2(0.0)`, online True, and the projected fields are kept |
| DebugCoordinator.StepAgrees | gti-control-debug/app/coordinator.py:106-114 | with a client, the debug step equals the release step except when a failed device has no cached record |
| DebugCoordinator.FallbackDiffers | gti-control-debug/app/coordinator.py:109-114 | a failed device with no cache: the debug loop publishes nothing, the release loop publishes offline |
| DebugCoordinator.CycleSnoc | gti-control-debug/app/coordinator.py:105-114 | a pass over one more device is the pass so far followed by that device's step |
| DebugCoordinator.QuietWithoutClient | gti-control-debug/app/coordinator.py:68-75 | with no MQTT client a pass publishes nothing and caches nothing |
| DebugCoordinator.CycleAgrees | gti-control-debug/app/coordinator.py:104-114 | when every build succeeds, the debug pass is the release pass, one message per device in order |
| DebugCoordinator.CycleTopics | gti-control-debug/app/coordinator.py:104-114 | at most one message per device, each retained on a listed device's state topic |
| DebugCoordinator.CycleMirrors | gti-control-debug/app/coordinator.py:104-114 | a pass keeps the retained store and the state cache in agreement |
| DebugCoordinator.Coordinator.constructor | gti-control-debug/app/coordinator.py:18-30 | the flags with their defaults, an empty cache, nothing published |
| DebugCoordinator.Coordinator.DiscoverEntities | gti-control-debug/app/coordinator.py:35-48 | with `publish_mqtt` on and an MQTT client, the 28 announcements in source order; nothing otherwise |
| DebugCoordinator.Coordinator.AnnounceEach | gti-control-debug/app/coordinator.py:39-48 | the loop publishes `Announcements` of the given entities |
| DebugCoordinator.Coordinator.StateRead | gti-control-debug/app/coordinator.py:50-58 | {} without the server or a client; otherwise the client's read, which is {} or a projection |
| DebugCoordinator.Coordinator.ReadDeviceState | gti-control-debug/app/coordinator.py:50-58 | returns `StateRead` of the session it started with, and leaves the client with the session and cache file its `uid`/login guard gives (`SessionAfterRead`, `FileAfterRead`); the client is untouched with the server disabled |
| DebugCoordinator.Coordinator.BuildState | gti-control-debug/app/coordinator.py:60-66 | normalises what the read returned, raising when it raised; the client's session and cache file as the read leaves them |
| DebugCoordinator.Coordinator.PublishState | gti-control-debug/app/coordinator.py:68-75 | with no MQTT client nothing is published or cached; otherwise the message is appended and the record cached |
| DebugCoordinator.Coordinator.PollDevice | gti-control-debug/app/coordinator.py:106-114 | one device as `Step` of what its build produced, with the client's session and cache file as its read leaves them |
| DebugCoordinator.Coordinator.Settle | gti-control-debug/app/coordinator.py:107-114 | publish the built record, or fall back, as `Step` |
| DebugCoordinator.Coordinator.MarkOffline | gti-control-debug/app/coordinator.py:111-114 | only a cached non-empty record is republished, with `online` False |
| DebugCoordinator.Coordinator.PollCycle | gti-control-debug/app/coordinator.py:105-114 | one pass as `Cycle` over its builds; each build is the normalized record of its read; the i-th read is `StateRead` of the i-th device with the session the earlier reads left (`ReadsChain`), from the starting session to the final one; {} without the server or a client |
| Server.GetEnv | gti-control/app/server.py:35-38 | `os.getenv`: None exactly when unset |
| Server.MqttSettings | gti-control/app/server.py:34-39 | host from the option, else MQTT_HOST, else 127.0.0.1 (never empty); port from the option or 1883, raising when `int()` fails; user name from `mqtt_username`, else MQTT_USERNAME; password from `mqtt_password`, else MQTT_PASSWORD |
| Server.SelectDevices | gti-control/app/server.py:51-59 | never empty: the listed devices if the server is enabled and lists any; else `include_devices` if truthy and not `["all"]`; else `["gti283"]` |
| Server.SelectedIsDeviceList | gti-control/app/server.py:51-59 | with a list-typed `include_devices`, the choice is a non-empty list of strings |
| Server.ListedDevicesWin | gti-control/app/server.py:51-53 | a non-empty listing wins over the option |
| Server.DefaultDevice | gti-control/app/server.py:54-59 | `["all"]` or `[]` falls back to `["gti283"]` |
| Server.LoginOptions | gti-control/app/server.py:83-87 | `email` and `password` become the form's values or ""; every other key is kept |
| Server.LoginOptionsIdempotent | gti-control/app/server.py:83-89 | submitting the same form twice writes the same options |
| Server.LoginReachesClient | gti-control/app/server.py:83-91 | the client started from the rewritten options uses the form's credentials |
| Server.Connect | gti-control/app/server.py:49-53 | raises exactly when the login raises (server enabled, sign-in configured, and the POST fails or answers with a non-dict); the client's tokens are `TokensAfterLogin` of those it had, so the listing is made with the token just obtained; otherwise the listing, [] with the server disabled |
| Server.SignedIn | gti-control/app/server.py:48-53 | a fresh client built from the options (`FromOptions`: flag, base URL, key, auth method and credentials) and signed in from no tokens; raises exactly when `Api.SignInRaises` of the options; otherwise the listing |
| Server.NewCoordinator | gti-control/app/server.py:61 | a fresh coordinator over the given client and prefix, whose four flags are those of the options (`FlagsFrom`) |
| Server.Launch | gti-control/app/server.py:48-64 | the client is built from the options and signed in from no tokens; raises exactly when the sign-in raises; otherwise a fresh coordinator over that client with the options' flags and `mqtt_prefix`, and the non-empty choice `SelectDevices` of that client's listing |
| Server.Server.constructor | gti-control/app/server.py:26-29 | no client, no coordinator, no devices |
| Server.Server.StartSystem | gti-control/app/server.py:31-64 | returns exactly when `int()` accepts the port, the base URL is a string and the login does not raise; the MQTT settings replaced once the port is read, the client replaced (built from the options, signed in from no tokens) once the base URL is a string, the old coordinator kept on any raise; on success a fresh coordinator with the options' flags over the client, and a non-empty device choice as `SelectDevices` of its listing |
| Server.Server.Boot | gti-control/app/server.py:66 | `device_ids` becomes the started system's choice: `SelectDevices` of the new client's listing (`Started`); the old coordinator and devices kept on a raise |
| Server.Server.DoLogin | gti-control/app/server.py:81-92 | the options become `LoginOptions`; the restarted client signs in with the form's credentials; on success `device_ids` is `SelectDevices` of that client's listing (`Started`); on a raise the old coordinator and devices are kept |

## Left out

- The HTTP and MQTT transports are left out: `requests`, the session object, timeouts, status logging, `paho` connect, subscribe and callback registration. HTTP calls are oracle parameters, and MQTT publications are the `published` log. A failed MQTT connect is only logged, so it is not modelled.
- A server whose answers change within one poll pass is left out. Each pass reads through one `fetch` oracle (release) or one answer table (debug), so equal requests within a pass get equal replies: a device listed twice (`Api.ListedIdsKeepsDuplicates`) is read twice with the same reply. Separate passes may use different oracles.
- Threads, locks, `time.sleep` and the endless `while True` are left out. One pass of the poll loop is modelled, and repeated passes compose by `CycleSnoc`.
- `fmt2`'s `float()`/`round(·, 2)` is the parameter `round2`, a table from each JSON value whose `float()` succeeds to its rounded value, because floating-point parsing and rounding are not modelled.
- `time.time()` is the parameter `now`, and `os.getenv` is the map `env`.
- File I/O is left out. The options file is a value or the field `Server.Server.options`. The token cache is the `DebugApi.CacheRecord` value, and `DebugApi.LoginStep.saved` says whether it is written. A failed cache write is only logged.
- Logging, `print` and the debug coordinator's `log_level` flag are left out, because they have no effect on state.
- The key order of dicts and the text of `json.dumps` are left out. Records and payloads are maps.
- The release `get_schedules` is left out. The coordinator and the start-up never call it, and it returns the reply unchanged or {}.
- The debug `read_daily`/`read_monthly` are left out. They are stubs that return {}, and nothing calls them.
- `_get_json` is left out. Its content-type check, status check and exception handling are folded into the debug answer table, which has no entry for a non-JSON, failed or raising call.
- The debug `handle_datetime_cmd` is left out, because it does nothing.
- The debug `server.py` is left out. It delegates to objects whose attributes the debug client does not have.
- The web pages are left out: the templates, `/app/devices` and `/app/device/<id>`.
- Coordinator.Coordinator.constructor: does not model `int(options.get("scan_interval", 30))` raising. The poll interval is not modelled, so `Server.Server.StartSystem` does not raise for a bad `scan_interval`.
- DebugCoordinator.Coordinator.constructor: same as the release constructor, the `scan_interval` conversion is not modelled.
- Api.ApiClient.constructor: requires `server_base_url` to be a string when present. Otherwise `.rstrip` raises in `__init__`, and `Server.Server.StartSystem` models that case as Raised before constructing.
- DebugApi.Client.constructor: requires `server_base_url` to be a string when it is truthy, because `.rstrip("/")` raises in `__init__` otherwise. It also requires a cache whose `expires_at` `int()` accepts, because `__init__` raises otherwise. A Dafny constructor cannot return an error; `DebugApi.LoadSession` models the cache raise. The email, password and key may be any value: a non-string key raises later, in `login` (`DebugApi.LoginSpec`).
- DebugCoordinator.NumberCommand: models the write the handler requests. It does not model the `AttributeError` the missing `set_*` methods raise inside the MQTT callback.
- DebugApi.LoginSpec: the sign-in log line is not part of the session it computes. The key it shows is modelled apart, by `DebugApi.MaskKey`. Its ensures for a key shorter than 12 characters says that such a key reaches the log whole, so the masking does not keep every key out of the log.
- Text.Lower: only ASCII letters are folded. Python's `lower()` folds other letters as well, so `"GTİ283".lower()` starts with `gti` and the source tries `GTİ283` then `283`. `DebugApi.Candidates("GTİ283")` is only `["GTİ283"]`.
- Text.IsDigits: only ASCII digits are recognised. Python's `isdigit()` also accepts digits such as '²', which `DebugApi.Candidates` does not pair with a `gti` form. (`Text.Strip` removes exactly the characters `str.isspace()` accepts, U+001C to U+001F, U+0085 and the Unicode spaces included.)
- Python.ParseInt: narrower than `int()`. It rejects digit separators (`"1_883"`) and non-ASCII digits, which `int()` accepts, so `Server.MqttSettings`, `DebugApi.LoadSession` and `DebugApi.ExpiresIn` give Raised or None for them.
- Python.Str: a float, list or dict renders as the marker "<repr>", not as Python's repr. So `Api.AddGti`/`Api.ListedIds` list a float id 283.5 as "gti<repr>", where the source gives "gti283.5", and two such ids render the same. The same holds for a non-string user id or token in `DebugApi.DataRequest` and `DebugApi.Headers`.
- The debug login's `force=True` path is modelled. No caller in the core passes it.
