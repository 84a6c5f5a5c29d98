/** The settings endpoint of the public assistant
    (app/api/public-ai/settings/route.ts): who may read which settings, and
    how an administrator's update is checked and normalised before it is
    stored. The sign-in service, the profile table and the settings table
    are parameters. */
module PublicAISettings {
  import opened Wrappers
  import opened Strings
  import opened Json
  import opened Numbers
  import opened AISettings

  // ---------------------------------------------------------------------
  // getAuthContext

  datatype Auth = Auth(userId: Option<string>, isAdmin: bool)

  const Anonymous := Auth(None, false)
  const BearerPrefix := "Bearer "

  /** The token of an `Authorization: Bearer <token>` header; an empty token
      counts as none. */
  function BearerToken(header: Option<string>): (r: Option<string>)
    ensures r.Some? <==> header.Some? && StartsWith(header.value, BearerPrefix) && |header.value| > |BearerPrefix|
    ensures r.Some? ==> header.value == BearerPrefix + r.value && r.value != ""
  {
    if header.Some? && StartsWith(header.value, BearerPrefix) && |header.value| > |BearerPrefix|
    then Some(header.value[|BearerPrefix|..])
    else None
  }

  /** The caller: anonymous unless the service is configured and the token
      names a user; an administrator only when that user's profile says so.
      `user` maps a token to its user id (`None` on an error or no user);
      `role` maps a user id to the role in the profile (`None` on an error
      or no profile). */
  function AuthContext(configured: bool, header: Option<string>, user: string -> Option<string>,
                       role: string -> Option<string>): (a: Auth)
    ensures !configured || BearerToken(header).None? ==> a == Anonymous
    ensures a.isAdmin <==>
      (configured && BearerToken(header).Some? &&
       user(BearerToken(header).value).Some? && role(user(BearerToken(header).value).value) == Some("admin"))
    ensures a.isAdmin ==> a.userId.Some?
  {
    if !configured then Anonymous
    else
      match BearerToken(header)
      case None => Anonymous
      case Some(token) =>
        match user(token)
        case None => Anonymous
        case Some(id) => Auth(Some(id), role(id) == Some("admin"))
  }

  // ---------------------------------------------------------------------
  // getAISettings and formatPublicResponse

  /** The settings whose key is one of `keys`, in their stored order. */
  function Only(ss: seq<Setting>, keys: seq<string>): (r: seq<Setting>)
    ensures |r| <= |ss|
    ensures forall i :: 0 <= i < |r| ==> r[i].key in keys
  {
    if ss == [] then []
    else (if ss[0].key in keys then [ss[0]] else []) + Only(ss[1..], keys)
  }

  lemma {:induction false} KeysCons(x: Setting, ss: seq<Setting>)
    ensures Keys([x] + ss) == {x.key} + Keys(ss)
  {
    var xs := [x] + ss;
    forall k | k in Keys(xs) ensures k in {x.key} + Keys(ss) {
      var i :| 0 <= i < |xs| && xs[i].key == k;
      if i > 0 { assert ss[i - 1].key == k; }
    }
    forall k | k in Keys(ss) ensures k in Keys(xs) {
      var i :| 0 <= i < |ss| && ss[i].key == k;
      assert xs[i + 1].key == k;
    }
    assert xs[0].key == x.key;
  }

  /** Filtering keeps exactly the settings with a listed key. */
  lemma {:induction false} OnlyKeys(ss: seq<Setting>, keys: seq<string>)
    ensures Keys(Only(ss, keys)) == Keys(ss) * set k | k in keys
  {
    if ss != [] {
      OnlyKeys(ss[1..], keys);
      assert ss == [ss[0]] + ss[1..];
      KeysCons(ss[0], ss[1..]);
      var ks := set k | k in keys;
      if ss[0].key in keys {
        assert Only(ss, keys) == [ss[0]] + Only(ss[1..], keys);
        KeysCons(ss[0], Only(ss[1..], keys));
        assert ss[0].key in ks;
      } else {
        assert Only(ss, keys) == Only(ss[1..], keys);
        assert ss[0].key !in ks;
      }
    }
  }

  /** Filtering twice by the same keys filters once. */
  lemma {:induction false} OnlyTwice(ss: seq<Setting>, keys: seq<string>)
    ensures Only(Only(ss, keys), keys) == Only(ss, keys)
  {
    if ss != [] {
      var rest := Only(ss[1..], keys);
      OnlyTwice(ss[1..], keys);
      if ss[0].key in keys {
        var r := [ss[0]] + rest;
        assert Only(ss, keys) == r;
        assert r[0] == ss[0] && r[1..] == rest;
        assert Only(r, keys) == [ss[0]] + Only(rest, keys);
      } else {
        assert Only(ss, keys) == rest;
      }
    }
  }

  /** `getAISettings(keys)`: the table (`None` when the query fails),
      narrowed to the keys when a non-empty list is given. */
  function GetAISettings(table: Option<seq<Setting>>, keys: seq<string>): (r: Option<seq<Setting>>)
    ensures r.None? <==> table.None?
    ensures keys == [] && table.Some? ==> r == table
    ensures keys != [] && r.Some? ==> forall i :: 0 <= i < |r.value| ==> r.value[i].key in keys
  {
    match table
    case None => None
    case Some(ss) => Some(if keys == [] then ss else Only(ss, keys))
  }

  /** `formatPublicResponse`: the map of the exposed settings only. */
  function FormatPublicResponse(ss: seq<Setting>): (m: map<string, string>)
    ensures forall k :: k in m ==> k in ExposedKeys
    ensures OpenAIKey !in m && SystemPromptSections !in m && GuardrailPrompt !in m
  {
    ExposedKeysSafe();
    MapSettings(Some(Only(ss, ExposedKeys)))
  }

  /** The public map holds every exposed key that is stored, with the value
      of its last stored setting. */
  lemma {:induction false} PublicResponseValues(ss: seq<Setting>)
    ensures FormatPublicResponse(ss).Keys == Keys(ss) * set k | k in ExposedKeys
    ensures FormatPublicResponse(ss) == Reduce(Only(ss, ExposedKeys))
  {
    OnlyKeys(ss, ExposedKeys);
  }

  datatype Response =
    | Failure(status: nat, error: string)
    | PublicSettings(settings: map<string, string>)
    | AllSettings(rows: seq<Setting>)

  /** GET: 503 without the service, 401 for a non-public request from a
      non-administrator, 500 when the query fails; otherwise the exposed
      settings as a map for a public request and every row for an
      administrator. `serverConfigured` is the service-role setup and
      `configured` the setup the sign-in check needs as well. */
  function GetSettings(isPublic: bool, configured: bool, serverConfigured: bool, header: Option<string>,
               user: string -> Option<string>, role: string -> Option<string>,
               table: Option<seq<Setting>>): (r: Response)
    ensures !serverConfigured ==> r == Failure(503, "Supabase service role not configured")
    ensures r.AllSettings? ==> !isPublic && AuthContext(configured && serverConfigured, header, user, role).isAdmin
    ensures r.AllSettings? ==> table == Some(r.rows)
    ensures r.PublicSettings? ==> isPublic && OpenAIKey !in r.settings && forall k :: k in r.settings ==> k in ExposedKeys
    ensures serverConfigured && !isPublic && !AuthContext(configured && serverConfigured, header, user, role).isAdmin ==>
      r == Failure(401, "Admin access required")
    ensures serverConfigured && isPublic && table.Some? ==> r == PublicSettings(FormatPublicResponse(table.value))
  {
    if !serverConfigured then Failure(503, "Supabase service role not configured")
    else
      var auth := AuthContext(configured && serverConfigured, header, user, role);
      if !isPublic && !auth.isAdmin then Failure(401, "Admin access required")
      else
        match GetAISettings(table, if isPublic then ExposedKeys else [])
        case None => Failure(500, "Failed to fetch AI settings")
        case Some(ss) =>
          if isPublic then
            OnlyTwice(table.value, ExposedKeys);
            PublicSettings(FormatPublicResponse(ss))
          else AllSettings(ss)
  }

  // ---------------------------------------------------------------------
  // PUT

  /** `Object.entries(updates)` for the `settings` field: an object's keys
      in order of first appearance with the value a repeated key ends with,
      an array's indices as decimal keys; `None` for anything that is not an
      object (`!updates || typeof updates !== "object"`). A value that is
      `undefined` is `None`; no parsed body holds one. */
  function Entries(updates: Option<Json>): (r: Option<seq<(string, Option<Json>)>>)
  {
    match updates
    case Some(JObj(fs)) => Some(ObjectEntries(fs))
    case Some(JArr(items)) => Some(IndexEntries(items, 0))
    case _ => None
  }

  function ObjectEntries(fs: seq<(string, Json)>): (r: seq<(string, Option<Json>)>)
    ensures forall i :: 0 <= i < |r| ==> r[i].1.Some? && exists j :: 0 <= j < |fs| && fs[j].0 == r[i].0
    decreases |fs|
  {
    if fs == [] then []
    else
      var k := fs[0].0;
      [(k, Lookup(fs, k))] + ObjectEntries(Without(fs[1..], k))
  }

  function Without(fs: seq<(string, Json)>, k: string): (r: seq<(string, Json)>)
    ensures |r| <= |fs|
    ensures forall i :: 0 <= i < |r| ==> r[i].0 != k && r[i] in fs
  {
    if fs == [] then []
    else (if fs[0].0 == k then [] else [fs[0]]) + Without(fs[1..], k)
  }

  function IndexEntries(items: seq<Json>, from: nat): (r: seq<(string, Option<Json>)>)
    ensures |r| == |items|
    ensures forall i :: 0 <= i < |r| ==> r[i] == (Show(from + i), Some(items[i]))
  {
    if items == [] then [] else [(Show(from), Some(items[0]))] + IndexEntries(items[1..], from + 1)
  }

  /** The first key of the update that is not a setting key. */
  function Unsupported(es: seq<(string, Option<Json>)>): (r: Option<string>)
    ensures r.None? <==> forall i :: 0 <= i < |es| ==> es[i].0 in SettingKeys
    ensures r.Some? ==> r.value !in SettingKeys && exists i :: 0 <= i < |es| && es[i].0 == r.value
  {
    if es == [] then None
    else if es[0].0 !in SettingKeys then Some(es[0].0)
    else Unsupported(es[1..])
  }

  /** The stored text of one value: a string as it is, a value of a JSON
      setting serialised, anything else through `String(value)` (`show`). */
  function Normalised(key: string, v: Json, ser: Json -> string, show: Json -> string): string
  {
    match v
    case JStr(s) => s
    case _ => if key in JsonKeys then ser(v) else show(v)
  }

  /** The rows to store: every defined entry, normalised, in order. */
  function Payload(es: seq<(string, Option<Json>)>, ser: Json -> string, show: Json -> string): (r: seq<(string, string)>)
    ensures |r| <= |es|
  {
    if es == [] then [] else Row(es[0], ser, show) + Payload(es[1..], ser, show)
  }

  /** The row one entry contributes: none for an undefined value. */
  function Row(e: (string, Option<Json>), ser: Json -> string, show: Json -> string): seq<(string, string)>
  {
    if e.1.None? then [] else [(e.0, Normalised(e.0, e.1.value, ser, show))]
  }

  /** The update loop: stops at the first unsupported key, skips undefined
      values, and collects the normalised rows otherwise. */
  method NormaliseUpdates(es: seq<(string, Option<Json>)>, ser: Json -> string, show: Json -> string)
    returns (bad: Option<string>, payload: seq<(string, string)>)
    ensures bad == Unsupported(es)
    ensures bad.None? ==> payload == Payload(es, ser, show)
  {
    payload := [];
    var i := 0;
    while i < |es|
      invariant 0 <= i <= |es|
      invariant Unsupported(es) == Unsupported(es[i..])
      invariant Payload(es, ser, show) == payload + Payload(es[i..], ser, show)
    {
      var (key, value) := es[i];
      Advance(es, i, payload, ser, show);
      if key !in SettingKeys {
        return Some(key), payload;
      }
      if value.Some? {
        payload := payload + [(key, Normalised(key, value.value, ser, show))];
      }
      i := i + 1;
    }
    bad := None;
    assert es[i..] == [];
  }

  /** One pass of the update loop keeps its invariant: an unsupported key
      is the first one, and a supported entry adds its row. */
  lemma {:induction false} Advance(es: seq<(string, Option<Json>)>, i: nat, payload: seq<(string, string)>,
                                   ser: Json -> string, show: Json -> string)
    requires i < |es|
    requires Unsupported(es) == Unsupported(es[i..])
    requires Payload(es, ser, show) == payload + Payload(es[i..], ser, show)
    ensures es[i].0 !in SettingKeys ==> Unsupported(es) == Some(es[i].0)
    ensures es[i].0 in SettingKeys ==> Unsupported(es) == Unsupported(es[i + 1..])
    ensures es[i].1.None? ==> Payload(es, ser, show) == payload + Payload(es[i + 1..], ser, show)
    ensures es[i].1.Some? ==>
      (Payload(es, ser, show) ==
       payload + [(es[i].0, Normalised(es[i].0, es[i].1.value, ser, show))] + Payload(es[i + 1..], ser, show))
  {
    assert es[i..][0] == es[i];
    assert es[i..][1..] == es[i + 1..];
    AppendAssoc(payload, Row(es[i], ser, show), Payload(es[i + 1..], ser, show));
    if es[i].1.None? {
      assert Row(es[i], ser, show) == [];
    }
  }

  /** Every stored row has a setting key, and a JSON setting given as a
      structured value reads back as that value. */
  lemma {:induction false} PayloadRows(es: seq<(string, Option<Json>)>, ser: Json -> string, show: Json -> string, parse: string -> Option<Json>)
    requires Unsupported(es).None?
    requires Codec(ser, parse)
    ensures forall i :: 0 <= i < |Payload(es, ser, show)| ==> Payload(es, ser, show)[i].0 in SettingKeys
    ensures forall i :: 0 <= i < |es| && es[i].1.Some? && !es[i].1.value.JStr? && es[i].0 in JsonKeys ==>
      ParseJsonSetting(Some(Normalised(es[i].0, es[i].1.value, ser, show)), JNull, parse) == es[i].1.value
  {
    if es != [] {
      PayloadRows(es[1..], ser, show, parse);
      forall i | 0 <= i < |es| && es[i].1.Some? && !es[i].1.value.JStr? && es[i].0 in JsonKeys
        ensures ParseJsonSetting(Some(Normalised(es[i].0, es[i].1.value, ser, show)), JNull, parse) == es[i].1.value
      {
        ParseJsonSettingWritten(es[i].1.value, JNull, ser, parse);
      }
    }
  }

  /** PUT: 503 without the service, 401 unless an administrator asks, 500
      when the body is not JSON, 400 for a missing or non-object
      `settings`, for an unsupported key and for an update with nothing to
      store; otherwise the rows go to `upsert`, whose answer (`None` on an
      error) is returned. The rows sent are returned with the response. */
  method PutSettings(configured: bool, serverConfigured: bool, header: Option<string>,
             user: string -> Option<string>, role: string -> Option<string>,
             body: Option<Json>, ser: Json -> string, show: Json -> string,
             upsert: seq<(string, string)> -> Option<seq<Setting>>)
    returns (r: Response, sent: seq<(string, string)>)
    ensures !(configured && serverConfigured) ==> r == Failure(503, "Supabase environment variables are not configured")
    ensures r.AllSettings? ==> AuthContext(configured && serverConfigured, header, user, role).isAdmin
    ensures r.PublicSettings? == false
    ensures sent != [] ==>
      (body.Some? && Entries(Get(body.value, "settings")).Some? &&
       var es := Entries(Get(body.value, "settings")).value;
       Unsupported(es).None? && sent == Payload(es, ser, show))
    ensures configured && serverConfigured && AuthContext(true, header, user, role).isAdmin && body.Some? ==>
      match Entries(Get(body.value, "settings"))
      case None => r == Failure(400, "Invalid request payload")
      case Some(es) =>
        (Unsupported(es).Some? ==> r == Failure(400, "Unsupported setting key: " + Unsupported(es).value)) &&
        (Unsupported(es).None? && Payload(es, ser, show) == [] ==> r == Failure(400, "No valid settings provided")) &&
        (Unsupported(es).None? && Payload(es, ser, show) != [] ==>
          sent == Payload(es, ser, show) &&
          r == (match upsert(sent) case None => Failure(500, "Failed to update AI settings") case Some(rows) => AllSettings(rows)))
  {
    sent := [];
    if !(configured && serverConfigured) {
      r := Failure(503, "Supabase environment variables are not configured");
      return;
    }
    var auth := AuthContext(true, header, user, role);
    if !auth.isAdmin || auth.userId.None? {
      r := Failure(401, "Admin access required");
      return;
    }
    if body.None? {
      r := Failure(500, "Failed to update AI settings");
      return;
    }
    var entries := Entries(Get(body.value, "settings"));
    if entries.None? {
      r := Failure(400, "Invalid request payload");
      return;
    }
    var bad, payload := NormaliseUpdates(entries.value, ser, show);
    if bad.Some? {
      r := Failure(400, "Unsupported setting key: " + bad.value);
      return;
    }
    if payload == [] {
      r := Failure(400, "No valid settings provided");
      return;
    }
    sent := payload;
    match upsert(payload)
    case None =>
      r := Failure(500, "Failed to update AI settings");
    case Some(rows) =>
      r := AllSettings(rows);
  }

  /** A list sent as `settings` is refused: a non-empty one on its first
      index, which is no setting key, an empty one for holding nothing. */
  lemma {:induction false} ArrayRefused(items: seq<Json>, ser: Json -> string, show: Json -> string)
    ensures var es := Entries(Some(JArr(items))).value;
      (items != [] ==> Unsupported(es) == Some("0")) &&
      (items == [] ==> Unsupported(es).None? && Payload(es, ser, show) == [])
  {
    var es := Entries(Some(JArr(items))).value;
    if items != [] {
      assert es[0].0 == Show(0) == "0";
      assert "0" !in SettingKeys by {
        forall k | k in SettingKeys ensures k != "0" { assert |k| > 1; }
      }
    }
  }
}
