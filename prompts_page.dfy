/** The system-prompt editor of the public assistant
    (app/public-ai/prompts/system/page.tsx): the live preview of the
    assembled prompt, the section list operations, the normalisation of
    loaded sections, and the replacement by an enhanced prompt. */
module PromptsPage {
  import opened Wrappers
  import opened Strings
  import opened Json
  import opened Numbers
  import AISettings

  datatype PromptSection = PromptSection(id: string, title: string, content: string)

  const DefaultSections: seq<PromptSection> := [
    PromptSection("role", "Role", "You are Infinito's public-facing concierge. Your job is to educate visitors and invite them into the platform."),
    PromptSection("tone", "Tone of Voice", "Sound friendly, confident, and concise. Avoid marketing fluff. Keep answers under 4 short paragraphs whenever possible."),
    PromptSection("boundaries", "Boundaries", "Never promise custom work, discounts, or features that are not publicly announced. If asked for sensitive account info, invite the user to email hello@infinito.ai.")
  ]

  function AsSection(p: PromptSection): AISettings.Section
  {
    AISettings.Section(p.title, p.content)
  }

  function AsSections(ps: seq<PromptSection>): (r: seq<AISettings.Section>)
    ensures |r| == |ps|
    ensures forall i :: 0 <= i < |ps| ==> r[i] == AsSection(ps[i])
  {
    if ps == [] then [] else [AsSection(ps[0])] + AsSections(ps[1..])
  }

  /** `combinedPrompt`: the page assembles the sections by the same rule
      as the server. */
  function CombinedPrompt(sections: seq<PromptSection>): string
  {
    AISettings.Assemble(AsSections(sections))
  }

  /** The JSON the page stores for its sections. */
  function SectionJson(p: PromptSection): Json
  {
    JObj([("id", JStr(p.id)), ("title", JStr(p.title)), ("content", JStr(p.content))])
  }

  function SectionsJson(ps: seq<PromptSection>): (r: seq<Json>)
    ensures |r| == |ps|
  {
    if ps == [] then [] else [SectionJson(ps[0])] + SectionsJson(ps[1..])
  }

  lemma {:induction false} SectionJsonFields(p: PromptSection)
    ensures GetString(SectionJson(p), "title") == Some(p.title)
    ensures GetString(SectionJson(p), "content") == Some(p.content)
  {
    var fs := SectionJson(p).fields;
    assert fs[..2] == [("id", JStr(p.id)), ("title", JStr(p.title))];
    assert Lookup(fs, "title") == Lookup(fs[..2], "title");
  }

  lemma {:induction false} EligibleSections(ps: seq<PromptSection>)
    ensures AISettings.Eligible(SectionsJson(ps)) == AsSections(ps)
  {
    if ps != [] {
      SectionJsonFields(ps[0]);
      assert SectionsJson(ps)[0] == SectionJson(ps[0]);
      assert SectionsJson(ps)[1..] == SectionsJson(ps[1..]);
      EligibleSections(ps[1..]);
    }
  }

  /** The preview is the prompt the server builds from the stored JSON of
      the same sections. */
  lemma {:induction false} PreviewMatchesServer(sections: seq<PromptSection>, ser: Json -> string, parse: string -> Option<Json>)
    requires Codec(ser, parse)
    ensures CombinedPrompt(sections) ==
      AISettings.BuildSystemPromptFromSections(Some(ser(JArr(SectionsJson(sections)))), parse)
  {
    assert Serialised(ser(JArr(SectionsJson(sections))));
    EligibleSections(sections);
  }

  /** `createSection`: a new untitled section; the id comes from the
      browser's UUID generator or the clock, here a parameter. */
  function CreateSection(id: string): PromptSection
  {
    PromptSection(id, "New Section", "")
  }

  /** `addSection`: the list with one new section at the end. */
  function AddSection(sections: seq<PromptSection>, id: string): (r: seq<PromptSection>)
    ensures |r| == |sections| + 1 && r[..|sections|] == sections
    ensures Last(r) == PromptSection(id, "New Section", "")
  {
    sections + [CreateSection(id)]
  }

  /** A new section shows in the preview as a bare heading after the
      existing prompt. */
  lemma {:induction false} AddSectionPreview(sections: seq<PromptSection>, id: string)
    ensures CombinedPrompt(AddSection(sections, id)) ==
      (if CombinedPrompt(sections) == "" then "" else CombinedPrompt(sections) + "\n\n") + "### New Section\n"
  {
    var n := CreateSection(id);
    AsSectionsSnoc(sections, n);
    AISettings.AssembleAppend(AsSections(sections), [AsSection(n)]);
    NewSectionHeading(id);
  }

  lemma {:induction false} AsSectionsSnoc(sections: seq<PromptSection>, n: PromptSection)
    ensures AsSections(sections + [n]) == AsSections(sections) + [AsSection(n)]
  {
    var l, r := AsSections(sections + [n]), AsSections(sections) + [AsSection(n)];
    assert forall i :: 0 <= i < |l| ==> l[i] == r[i];
  }

  lemma {:induction false} NewSectionHeading(id: string)
    ensures AISettings.Assemble([AsSection(CreateSection(id))]) == "### New Section\n"
  {
    var sec := AsSection(CreateSection(id));
    NewSectionContribution(id);
    assert [sec][1..] == [];
    assert AISettings.Contributions([sec]) == [AISettings.Contribution(sec)];
  }

  lemma {:induction false} NewSectionContribution(id: string)
    ensures AISettings.Contribution(AsSection(CreateSection(id))) == "### New Section\n"
  {
    TrimmedTitle();
    TitleOnly("New Section");
  }

  /** A section whose title is already trimmed and whose content is empty
      contributes its heading line alone. */
  lemma {:induction false} TitleOnly(t: string)
    requires Trim(t) == t && t != ""
    ensures AISettings.Contribution(AISettings.Section(t, "")) == "### " + t + "\n"
  {
    assert Trim("") == "";
    assert "### " + t + "\n" + "" == "### " + t + "\n";
  }

  lemma {:induction false} TrimmedTitle()
    ensures Trim("New Section") == "New Section"
  {
    TrimSpec("New Section");
    TrimStartSpec("New Section");
    TrimEndSpec("New Section");
  }

  /** `removeSection`: every section with that id goes, the others stay in
      order. */
  function RemoveSection(sections: seq<PromptSection>, id: string): (r: seq<PromptSection>)
    ensures |r| <= |sections|
    ensures forall i :: 0 <= i < |r| ==> r[i].id != id
    ensures forall i :: 0 <= i < |sections| && sections[i].id != id ==> sections[i] in r
    ensures forall x :: x in r ==> x in sections
  {
    if sections == [] then []
    else (if sections[0].id == id then [] else [sections[0]]) + RemoveSection(sections[1..], id)
  }

  /** Removing an id that is not there changes nothing. */
  lemma {:induction false} RemoveAbsent(sections: seq<PromptSection>, id: string)
    requires forall i :: 0 <= i < |sections| ==> sections[i].id != id
    ensures RemoveSection(sections, id) == sections
  {
    if sections != [] {
      RemoveAbsent(sections[1..], id);
      assert sections == [sections[0]] + sections[1..];
    }
  }

  /** The delete control is offered only while there is more than one
      section. */
  predicate CanDelete(sections: seq<PromptSection>)
  {
    |sections| > 1
  }

  /** With distinct ids, a delete the page offers never empties the list. */
  lemma {:induction false} DeleteKeepsOne(sections: seq<PromptSection>, i: nat)
    requires i < |sections| && CanDelete(sections)
    requires forall a, b :: 0 <= a < b < |sections| ==> sections[a].id != sections[b].id
    ensures RemoveSection(sections, sections[i].id) != []
  {
    var j := if i == 0 then 1 else 0;
    assert sections[j].id != sections[i].id;
    assert sections[j] in RemoveSection(sections, sections[i].id);
  }

  /** A partial update: the fields given replace the section's own. */
  datatype Update = Update(id: Option<string>, title: Option<string>, content: Option<string>)

  function Apply(p: PromptSection, u: Update): PromptSection
  {
    PromptSection(u.id.GetOr(p.id), u.title.GetOr(p.title), u.content.GetOr(p.content))
  }

  /** `updateSection`: only the sections with that id change. */
  function UpdateSection(sections: seq<PromptSection>, id: string, u: Update): (r: seq<PromptSection>)
    ensures |r| == |sections|
    ensures forall i :: 0 <= i < |r| ==> r[i] == if sections[i].id == id then Apply(sections[i], u) else sections[i]
  {
    if sections == [] then []
    else [if sections[0].id == id then Apply(sections[0], u) else sections[0]] + UpdateSection(sections[1..], id, u)
  }

  /** An update that names no field, or an id that is not there, changes
      nothing. */
  lemma {:induction false} UpdateNothing(sections: seq<PromptSection>, id: string, u: Update)
    requires u == Update(None, None, None) || forall i :: 0 <= i < |sections| ==> sections[i].id != id
    ensures UpdateSection(sections, id, u) == sections
  {
    var r := UpdateSection(sections, id, u);
    assert forall i :: 0 <= i < |r| ==> r[i] == sections[i];
  }

  // ---------------------------------------------------------------------
  // Loading

  /** What the stored setting read as: parsed JSON, or the default list
      when the text was empty or invalid. */
  datatype Source = FromJson(v: Json) | Defaults

  /** How loading ends: the list is replaced, or (when reading a section
      throws) the sections stay as they were. */
  datatype Loaded = Replace(sections: seq<PromptSection>) | Keep

  /** `field || default` for a string field. */
  function FieldOr(v: Json, key: string, default: string): string
  {
    match GetString(v, key)
    case Some(s) => if s != "" then s else default
    case None => default
  }

  /** A loaded section with the page's defaults for missing fields. */
  function Normalise(v: Json, i: nat): PromptSection
  {
    PromptSection(FieldOr(v, "id", "section-" + Show(i)), FieldOr(v, "title", "Section " + Show(i + 1)), FieldOr(v, "content", ""))
  }

  function NormaliseAll(items: seq<Json>, from: nat): (r: seq<PromptSection>)
    ensures |r| == |items|
    ensures forall i :: 0 <= i < |items| ==> r[i] == Normalise(items[i], from + i)
  {
    if items == [] then [] else [Normalise(items[0], from)] + NormaliseAll(items[1..], from + 1)
  }

  function Lift(parse: string -> Option<Json>): string -> Option<Source>
  {
    s => match parse(s) case Some(v) => Some(FromJson(v)) case None => None
  }

  /** The load: a non-empty parsed list is normalised (a `null` element
      throws and keeps the sections); anything else gives the defaults. */
  function LoadSections(raw: Option<string>, parse: string -> Option<Json>): (r: Loaded)
    ensures r.Replace? ==> r.sections != []
  {
    match AISettings.ParseJsonSetting(raw, Defaults, Lift(parse))
    case FromJson(JArr(items)) =>
      if items == [] then Replace(DefaultSections)
      else if JNull in items then Keep
      else Replace(NormaliseAll(items, 0))
    case _ => Replace(DefaultSections)
  }

  /** Loaded sections without an id or title get `section-i` and
      `Section i+1`; one list item gives one section, in order. */
  lemma {:induction false} LoadDefaults(raw: string, parse: string -> Option<Json>, items: seq<Json>, i: nat)
    requires raw != "" && parse(raw) == Some(JArr(items)) && JNull !in items
    requires i < |items| && GetString(items[i], "id").None? && GetString(items[i], "title").None?
    ensures var r := LoadSections(Some(raw), parse);
      r.Replace? && |r.sections| == |items| &&
      r.sections[i].id == "section-" + Show(i) && r.sections[i].title == "Section " + Show(i + 1)
  {
    assert Lift(parse)(raw) == Some(FromJson(JArr(items)));
  }

  /** Empty, invalid or non-list settings give the default sections. */
  lemma {:induction false} LoadFallsBack(raw: Option<string>, parse: string -> Option<Json>)
    requires raw.None? || raw.value == "" || parse(raw.value).None? || !parse(raw.value).value.JArr?
    ensures LoadSections(raw, parse) == Replace(DefaultSections)
  {
    if raw.Some? && raw.value != "" {
      assert Lift(parse)(raw.value) == if parse(raw.value).None? then None else Some(FromJson(parse(raw.value).value));
    }
  }

  /** Enhancing replaces every section by one holding the returned prompt. */
  function Enhance(sections: seq<PromptSection>, prompt: string): (r: seq<PromptSection>)
    ensures prompt == "" ==> r == sections
    ensures prompt != "" ==> |r| == 1 && r[0].content == prompt && CombinedPrompt(r) == AISettings.Assemble([AISettings.Section("Enhanced Prompt", prompt)])
  {
    if prompt != "" then [PromptSection("enhanced", "Enhanced Prompt", prompt)] else sections
  }
}
