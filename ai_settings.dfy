/** The shared settings helpers of the public assistant (lib/ai-settings.ts):
    the setting keys and which of them the public may read, the list-to-map
    conversion, the assembly of the system prompt from its stored sections,
    and the lenient reading of a JSON setting. */
module AISettings {
  import opened Wrappers
  import opened Strings
  import opened Json

  const OpenAIKey := "public_ai_openai_api_key"
  const DefaultModel := "public_ai_default_model"
  const SystemPromptSections := "public_ai_system_prompt_sections"
  const GuardrailPrompt := "public_ai_guardrail_prompt"
  const WelcomeMessage := "public_ai_welcome_message"
  const QuickReplies := "public_ai_quick_replies"
  const Actions := "public_ai_actions"

  /** `PUBLIC_AI_SETTING_KEYS`. */
  const SettingKeys: seq<string> := [OpenAIKey, DefaultModel, SystemPromptSections, GuardrailPrompt, WelcomeMessage, QuickReplies, Actions]
  /** `PUBLIC_AI_EXPOSED_KEYS`: what an anonymous visitor may read. */
  const ExposedKeys: seq<string> := [DefaultModel, WelcomeMessage, QuickReplies, Actions]
  /** `PUBLIC_AI_JSON_KEYS`: the settings stored as JSON text. */
  const JsonKeys: set<string> := {SystemPromptSections, QuickReplies, Actions}

  /** The exposed keys are setting keys, and neither the OpenAI key nor the
      hidden prompts are among them. */
  predicate ExposureSafe()
  {
    (forall k :: k in ExposedKeys ==> k in SettingKeys) &&
    OpenAIKey !in ExposedKeys && SystemPromptSections !in ExposedKeys && GuardrailPrompt !in ExposedKeys
  }

  lemma {:induction false} ExposedKeysSafe()
    ensures ExposureSafe()
  {
    assert OpenAIKey != DefaultModel by { assert OpenAIKey[10] != DefaultModel[10]; }
    assert OpenAIKey != WelcomeMessage by { assert OpenAIKey[10] != WelcomeMessage[10]; }
    assert OpenAIKey != QuickReplies by { assert OpenAIKey[10] != QuickReplies[10]; }
    assert OpenAIKey != Actions by { assert OpenAIKey[10] != Actions[10]; }
    assert SystemPromptSections != DefaultModel by { assert SystemPromptSections[10] != DefaultModel[10]; }
    assert SystemPromptSections != WelcomeMessage by { assert SystemPromptSections[10] != WelcomeMessage[10]; }
    assert SystemPromptSections != QuickReplies by { assert SystemPromptSections[10] != QuickReplies[10]; }
    assert SystemPromptSections != Actions by { assert SystemPromptSections[10] != Actions[10]; }
    assert GuardrailPrompt != DefaultModel by { assert GuardrailPrompt[10] != DefaultModel[10]; }
    assert GuardrailPrompt != WelcomeMessage by { assert GuardrailPrompt[10] != WelcomeMessage[10]; }
    assert GuardrailPrompt != QuickReplies by { assert GuardrailPrompt[10] != QuickReplies[10]; }
    assert GuardrailPrompt != Actions by { assert GuardrailPrompt[10] != Actions[10]; }
  }

  // ---------------------------------------------------------------------
  // mapSettings

  /** A stored setting; a null value is `None`. */
  datatype Setting = Setting(key: string, value: Option<string>)

  function Keys(ss: seq<Setting>): set<string>
  {
    set i | 0 <= i < |ss| :: ss[i].key
  }

  /** `mapSettings`: each setting written into the map in order, a null
      value as the empty string; a missing list gives the empty map. */
  function MapSettings(settings: Option<seq<Setting>>): (m: map<string, string>)
    ensures settings.None? ==> m == map[]
    ensures settings.Some? ==> m.Keys == Keys(settings.value)
  {
    if settings.None? then map[] else Reduce(settings.value)
  }

  function Reduce(ss: seq<Setting>): (m: map<string, string>)
    ensures m.Keys == Keys(ss)
  {
    if ss == [] then map[]
    else
      var acc := Reduce(ss[..|ss| - 1]);
      assert Keys(ss) == Keys(ss[..|ss| - 1]) + {Last(ss).key} by {
        assert forall i :: 0 <= i < |ss| - 1 ==> ss[..|ss| - 1][i] == ss[i];
      }
      acc[Last(ss).key := Last(ss).value.GetOr("")]
  }

  /** The last setting with a key decides its value: a later duplicate
      overrides an earlier one. */
  lemma {:induction false} LastSettingWins(ss: seq<Setting>, i: nat)
    requires i < |ss|
    requires forall j :: i < j < |ss| ==> ss[j].key != ss[i].key
    ensures Reduce(ss)[ss[i].key] == ss[i].value.GetOr("")
    decreases |ss|
  {
    if i < |ss| - 1 {
      var pre := ss[..|ss| - 1];
      assert pre[i] == ss[i];
      assert forall j :: i < j < |pre| ==> pre[j].key != pre[i].key by {
        forall j | i < j < |pre| ensures pre[j].key != pre[i].key { assert pre[j] == ss[j]; }
      }
      LastSettingWins(pre, i);
    }
  }

  // ---------------------------------------------------------------------
  // buildSystemPromptFromSections

  /** A section of the system prompt. */
  datatype Section = Section(title: string, content: string)

  /** What one section adds: nothing when both parts are blank, the
      content alone without a title, else a `###` heading over the content. */
  function Contribution(sec: Section): (r: string)
    ensures r == "" <==> Trim(sec.title) == "" && Trim(sec.content) == ""
  {
    var title := Trim(sec.title);
    var content := Trim(sec.content);
    if title == "" && content == "" then ""
    else if title == "" then content
    else "### " + title + "\n" + content
  }

  /** The non-empty contributions, in order. */
  function Contributions(secs: seq<Section>): (r: seq<string>)
    ensures |r| <= |secs|
    ensures forall i :: 0 <= i < |r| ==> r[i] != ""
  {
    if secs == [] then []
    else (if Contribution(secs[0]) == "" then [] else [Contribution(secs[0])]) + Contributions(secs[1..])
  }

  /** The sections joined by blank lines. */
  function Assemble(secs: seq<Section>): string
  {
    Join(Contributions(secs), "\n\n")
  }

  lemma {:induction false} ContributionsAppend(a: seq<Section>, b: seq<Section>)
    ensures Contributions(a + b) == Contributions(a) + Contributions(b)
  {
    if a != [] {
      var head := if Contribution(a[0]) == "" then [] else [Contribution(a[0])];
      assert (a + b)[0] == a[0];
      assert (a + b)[1..] == a[1..] + b;
      assert Contributions(a + b) == head + Contributions(a[1..] + b);
      ContributionsAppend(a[1..], b);
      AppendAssoc(head, Contributions(a[1..]), Contributions(b));
    } else {
      assert a + b == b;
    }
  }

  /** Sections contribute independently and in order: the prompt of two
      lists is their prompts joined by one blank line (when both say
      something). */
  lemma {:induction false} AssembleAppend(a: seq<Section>, b: seq<Section>)
    ensures Assemble(a + b) ==
      if Assemble(a) == "" then Assemble(b)
      else if Assemble(b) == "" then Assemble(a)
      else Assemble(a) + "\n\n" + Assemble(b)
  {
    ContributionsAppend(a, b);
    var ca, cb := Contributions(a), Contributions(b);
    if ca != [] && cb != [] {
      JoinAppend(ca, cb, "\n\n");
      JoinNonEmpty(ca);
      JoinNonEmpty(cb);
    } else if ca == [] {
      assert ca + cb == cb;
      if cb != [] { JoinNonEmpty(cb); }
    } else {
      assert ca + cb == ca;
      JoinNonEmpty(ca);
    }
  }

  /** Joining non-empty pieces gives a non-empty text. */
  lemma {:induction false} JoinNonEmpty(ps: seq<string>)
    requires ps != [] && forall i :: 0 <= i < |ps| ==> ps[i] != ""
    ensures Join(ps, "\n\n") != ""
  {
    if |ps| > 1 {
      assert |Join(ps, "\n\n")| >= |ps[0]|;
    }
  }

  /** The sections of a parsed list: elements whose `title` and `content`
      are both strings. */
  function Eligible(items: seq<Json>): (r: seq<Section>)
    ensures |r| <= |items|
  {
    if items == [] then []
    else
      var v := items[0];
      (if GetString(v, "title").Some? && GetString(v, "content").Some?
       then [Section(GetString(v, "title").value, GetString(v, "content").value)] else [])
      + Eligible(items[1..])
  }

  /** `buildSystemPromptFromSections`: empty input gives the empty prompt;
      text that is not JSON, or JSON that is not a list, is used as it is;
      a list is assembled from its eligible sections. */
  function BuildSystemPromptFromSections(raw: Option<string>, parse: string -> Option<Json>): (r: string)
    ensures raw.None? || raw.value == "" ==> r == ""
    ensures raw.Some? && raw.value != "" && (parse(raw.value).None? || !parse(raw.value).value.JArr?) ==> r == raw.value
    ensures raw.Some? && raw.value != "" && parse(raw.value).Some? && parse(raw.value).value.JArr? ==>
      r == Assemble(Eligible(parse(raw.value).value.items))
  {
    if raw.None? || raw.value == "" then ""
    else
      match parse(raw.value)
      case None => raw.value
      case Some(JArr(items)) => Assemble(Eligible(items))
      case Some(_) => raw.value
  }

  // ---------------------------------------------------------------------
  // parseJsonSetting

  /** `parseJsonSetting`: the parsed value, or the fallback for empty or
      invalid text. */
  function ParseJsonSetting<T>(raw: Option<string>, fallback: T, parse: string -> Option<T>): (r: T)
    ensures raw.None? || raw.value == "" ==> r == fallback
    ensures raw.Some? && raw.value != "" && parse(raw.value).None? ==> r == fallback
    ensures raw.Some? && raw.value != "" && parse(raw.value).Some? ==> r == parse(raw.value).value
  {
    if raw.None? || raw.value == "" then fallback
    else
      match parse(raw.value)
      case None => fallback
      case Some(v) => v
  }

  /** A setting written by the serialiser reads back as the value written,
      never as the fallback. */
  lemma {:induction false} ParseJsonSettingWritten(v: Json, fallback: Json, ser: Json -> string, parse: string -> Option<Json>)
    requires Codec(ser, parse)
    ensures ParseJsonSetting(Some(ser(v)), fallback, parse) == v
  {
    assert Serialised(ser(v));
  }
}
