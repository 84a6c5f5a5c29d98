/** The update of the admin preferences (app/api/admin/preferences/route.ts,
    `PUT`): an administrator's body is copied field by field, for a fixed
    list of fields only, into the update of the single preferences row. */
module AdminPreferences {
  import opened Wrappers
  import opened Json
  import AIManager

  /** The model toggles and the model selections an update may set. */
  const Whitelist: seq<string> := [
    "model_openai", "model_gpt", "model_llama", "model_mistral", "model_custom", "model_rag",
    "model_web", "model_blip", "model_llava", "model_dalle_image", "model_runway_image",
    "model_gen4_turbo", "model_gen3a_turbo", "model_gen4_aleph",
    "selected_text_model", "selected_image_model", "selected_video_model", "selected_audio_model"]

  /** The id of the one preferences row. */
  const PreferencesRow := "00000000-0000-0000-0000-000000000001"

  /** The fields of `keys` that the body defines, with the body's values
      (a `false` or `null` value is defined and is copied). */
  function Copied(body: Json, keys: seq<string>): (r: map<string, Json>)
    ensures forall k :: k in r <==> k in keys && Get(body, k).Some?
    ensures forall k :: k in r ==> r[k] == Get(body, k).value
  {
    if keys == [] then map[]
    else
      var rest := Copied(body, keys[..|keys| - 1]);
      var k := keys[|keys| - 1];
      if Get(body, k).Some? then rest[k := Get(body, k).value] else rest
  }

  /** The statements that fill `updateData`, one whitelisted field after
      another. */
  method BuildUpdate(body: Json) returns (updateData: map<string, Json>)
    ensures updateData == Copied(body, Whitelist)
  {
    updateData := map[];
    for i := 0 to |Whitelist|
      invariant updateData == Copied(body, Whitelist[..i])
    {
      var k := Whitelist[i];
      assert Whitelist[..i + 1][..i] == Whitelist[..i];
      var v := Get(body, k);
      if v.Some? {
        updateData := updateData[k := v.value];
      }
    }
    assert Whitelist[..|Whitelist|] == Whitelist;
  }

  datatype Reply = Unauthorized | Crashed | UpdateFailed | Updated(row: string, fields: map<string, Json>)

  function StatusOf(r: Reply): int
  {
    match r
    case Unauthorized => 401
    case Crashed => 500
    case UpdateFailed => 500
    case Updated(_, _) => 200
  }

  /** `PUT`: 401 unless the caller is an administrator (the check shared
      with the manager routes); a `null` body makes the property reads
      throw (500); otherwise the whitelisted fields update the fixed row,
      and a database error is 500. */
  function Put(header: Option<string>, user: string -> Option<string>, role: string -> Option<Json>,
               body: Json, stored: bool): (r: Reply)
    ensures r == Unauthorized <==> AIManager.AdminUser(header, user, role).None?
    ensures r.Updated? <==> AIManager.AdminUser(header, user, role).Some? && body != JNull && stored
    ensures r.Updated? ==> r.row == PreferencesRow && r.fields == Copied(body, Whitelist)
  {
    if AIManager.AdminUser(header, user, role).None? then Unauthorized
    else if body == JNull then Crashed
    else if !stored then UpdateFailed
    else Updated(PreferencesRow, Copied(body, Whitelist))
  }
}
