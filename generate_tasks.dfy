/** The task planner of the AI manager
    (app/api/ai-manager/generate-tasks/route.ts): the keyword classifier
    used when a prompt arrives without a stored intent, the ordering of the
    prompt-rewriting rules, the rule-free planner that turns an intent and
    the user's context into tasks, and the conversion of a language
    model's answer into tasks or clarification questions. The rewriting
    rules' regular expressions, the clock that decides whether a context
    entry has expired, and `JSON.stringify` are parameters. */
module GenerateTasks {
  import opened Wrappers
  import opened Strings
  import opened Json
  import opened Numbers
  import opened AIManager

  // ---------------------------------------------------------------------
  // POST validation

  /** The early answers of POST: 403 for anyone but an administrator, 500
      when the body is not JSON or is `null` (destructuring throws), 400
      when neither `intent_id` nor `user_prompt` is given; `None` lets the
      request through. */
  function Admit(admin: Option<string>, body: Option<Json>): (r: Option<nat>)
    ensures admin.None? ==> r == Some(403)
    ensures admin.Some? && (body.None? || body.value == JNull) ==> r == Some(500)
    ensures admin.Some? && body.Some? && body.value != JNull ==>
      (r.None? <==> TruthyField(Get(body.value, "intent_id")) || TruthyField(Get(body.value, "user_prompt")))
    ensures r.Some? ==> r.value in {400, 403, 500}
  {
    if admin.None? then Some(403)
    else if body.None? || body.value == JNull then Some(500)
    else if !TruthyField(Get(body.value, "intent_id")) && !TruthyField(Get(body.value, "user_prompt")) then Some(400)
    else None
  }

  // ---------------------------------------------------------------------
  // detectIntentFromPrompt

  /** An explicit request for a video. */
  predicate VideoRequest(l: string)
  {
    (Contains(l, "video") && (Contains(l, "create") || Contains(l, "generate") || Contains(l, "make"))) ||
    Contains(l, "create video") || Contains(l, "generate video") ||
    Contains(l, "make a video") || Contains(l, "produce video")
  }

  predicate ImageRequest(l: string)
  {
    Contains(l, "image") || Contains(l, "picture") || Contains(l, "photo") ||
    (Contains(l, "create") && (Contains(l, "image") || Contains(l, "picture"))) ||
    (Contains(l, "generate") && (Contains(l, "image") || Contains(l, "picture")))
  }

  predicate SkitScript(l: string)
  {
    Contains(l, "skit") && (Contains(l, "script") || Contains(l, "text script"))
  }

  predicate BareSkit(l: string)
  {
    Contains(l, "skit") && !Contains(l, "video") && !Contains(l, "create video") &&
    !Contains(l, "script") && !Contains(l, "text")
  }

  predicate AudioRequest(l: string)
  {
    Contains(l, "audio") || Contains(l, "voice") || Contains(l, "speech")
  }

  predicate CompanyRequest(l: string)
  {
    Contains(l, "start a company") || Contains(l, "create a company") ||
    (Contains(l, "and then") && |Split(l, " ")| > 15)
  }

  const VideoNouns := ["video"]
  const ImageNouns := ["image", "picture", "photo"]

  /** The keyword classifier: the first test that holds decides, in the
      order video, image, skit with script, bare skit, audio, company. */
  function Detect(prompt: string): (r: Detected)
    ensures var l := ToLower(prompt);
      (r.kind == GenerateVideo <==> VideoRequest(l)) &&
      (r.kind == GenerateImage <==> !VideoRequest(l) && ImageRequest(l)) &&
      (r.kind == GenerateAudio <==>
        !VideoRequest(l) && !ImageRequest(l) && !SkitScript(l) && !BareSkit(l) && AudioRequest(l)) &&
      (r.kind == ComplexTask <==>
        !VideoRequest(l) && !ImageRequest(l) && !SkitScript(l) && !BareSkit(l) && !AudioRequest(l) &&
        CompanyRequest(l))
    ensures r.kind != AskQuestion
    ensures r.kind == GenerateVideo ==> r.count == CountBefore(ToLower(prompt), VideoNouns)
    ensures r.kind == GenerateImage ==> r.count == CountBefore(ToLower(prompt), ImageNouns)
    ensures r.count.Some? ==> r.kind == GenerateVideo || r.kind == GenerateImage
    ensures r.clarify <==> r.kind == GenerateText && r.confidence == 70
    ensures r.clarify ==> Contains(ToLower(prompt), "skit") && !Contains(ToLower(prompt), "video")
    ensures r.kind == GenerateText && r.confidence == 90 ==> SkitScript(ToLower(prompt))
  {
    var l := ToLower(prompt);
    if VideoRequest(l) then Detected(GenerateVideo, 85, CountBefore(l, VideoNouns), false)
    else if ImageRequest(l) then Detected(GenerateImage, 85, CountBefore(l, ImageNouns), false)
    else if SkitScript(l) then Detected(GenerateText, 90, None, false)
    else if BareSkit(l) then Detected(GenerateText, 70, None, true)
    else if AudioRequest(l) then Detected(GenerateAudio, 85, None, false)
    else if CompanyRequest(l) then Detected(ComplexTask, 75, None, false)
    else Detected(GenerateText, 60, None, false)
  }

  /** The classification does not depend on letter case. */
  lemma {:induction false} DetectIgnoresCase(prompt: string)
    ensures Detect(ToLower(prompt)) == Detect(prompt)
  {
    ToLowerIdem(prompt);
  }

  /** "make 3 videos": a video request that starts with a numeral before
      "video" records that numeral as the count. */
  lemma {:induction false} VideoCount(n: nat, gap: string, rest: string)
    requires forall i :: 0 <= i < |gap| ==> IsSpace(gap[i])
    requires VideoRequest(ToLower(Show(n) + gap + "video" + rest))
    requires ToLower(Show(n) + gap + "video" + rest) == Show(n) + gap + "video" + rest
    ensures Detect(Show(n) + gap + "video" + rest).count == Some(n)
  {
    CountOfNumeral(n, gap, "video", rest, VideoNouns);
  }

  // ---------------------------------------------------------------------
  // applyRulesToPrompt

  datatype Rule = Rule(active: bool, priority: int, kind: string, content: string)

  function Active(rs: seq<Rule>): (r: seq<Rule>)
    ensures forall i :: 0 <= i < |r| ==> r[i].active
    ensures forall x :: x in rs && x.active ==> x in r
    ensures multiset(r) <= multiset(rs)
  {
    if rs == [] then []
    else
      assert rs == [rs[0]] + rs[1..];
      (if rs[0].active then [rs[0]] else []) + Active(rs[1..])
  }

  predicate ByPriorityOrder(s: seq<Rule>)
  {
    forall i, j :: 0 <= i < j < |s| ==> s[i].priority >= s[j].priority
  }

  /** Places `x`, which came before every rule of `s`, ahead of the first
      rule whose priority is not higher: ties keep their original order. */
  function Insert(x: Rule, s: seq<Rule>): (r: seq<Rule>)
    requires ByPriorityOrder(s)
    ensures ByPriorityOrder(r)
    ensures multiset(r) == multiset(s) + multiset{x}
    ensures |r| == |s| + 1
    ensures r != [] && (r[0] == x || (s != [] && r[0] == s[0]))
  {
    if s == [] || s[0].priority <= x.priority then [x] + s
    else
      var t := Insert(x, s[1..]);
      assert s == [s[0]] + s[1..];
      [s[0]] + t
  }

  /** `rules.sort((a, b) => b.priority - a.priority)` with a stable sort. */
  function ByPriority(rs: seq<Rule>): (r: seq<Rule>)
    ensures ByPriorityOrder(r)
    ensures multiset(r) == multiset(rs)
  {
    if rs == [] then []
    else
      assert rs == [rs[0]] + rs[1..];
      Insert(rs[0], ByPriority(rs[1..]))
  }

  /** The prompt after each rule in turn has rewritten it. `rewrite` stands
      for one rule's word replacements and exclusions. */
  function Rewritten(p: string, rs: seq<Rule>, rewrite: (string, Rule) -> string): string
    decreases |rs|
  {
    if rs == [] then p else Rewritten(rewrite(p, rs[0]), rs[1..], rewrite)
  }

  /** Applies the active rules, highest priority first. */
  method ApplyRules(prompt: string, rules: seq<Rule>, rewrite: (string, Rule) -> string) returns (p: string)
    ensures p == Rewritten(prompt, ByPriority(Active(rules)), rewrite)
  {
    var order := ByPriority(Active(rules));
    p := prompt;
    var i := 0;
    while i < |order|
      invariant 0 <= i <= |order|
      invariant Rewritten(p, order[i..], rewrite) == Rewritten(prompt, order, rewrite)
    {
      assert order[i..][1..] == order[i + 1..];
      p := rewrite(p, order[i]);
      i := i + 1;
    }
    assert order[i..] == [];
  }

  /** Only active rules are applied, highest priority first. */
  lemma {:induction false} RulesApplied(rules: seq<Rule>)
    ensures var order := ByPriority(Active(rules));
      (forall i :: 0 <= i < |order| ==> order[i].active) &&
      (forall x :: x in rules && x.active ==> x in order) &&
      ByPriorityOrder(order)
  {
    var act := Active(rules);
    var order := ByPriority(act);
    SameMembers(order, act);
    forall x | x in order ensures x.active {
      var k :| 0 <= k < |act| && act[k] == x;
    }
  }

  /** Two lists with the same multiset have the same members. */
  lemma {:induction false} SameMembers(a: seq<Rule>, b: seq<Rule>)
    requires multiset(a) == multiset(b)
    ensures forall x :: x in a <==> x in b
  {
    forall x ensures x in a <==> x in b {
      assert x in a <==> x in multiset(a);
      assert x in b <==> x in multiset(b);
    }
  }

  // ---------------------------------------------------------------------
  // generateTasksFromIntent: the prompt

  /** A context entry; `live` says that it has no expiry date or that the
      date is still ahead. */
  datatype Context = Context(scope: string, kind: string, key: string, value: Json, live: bool)

  datatype Intent = Intent(detected: string, prompt: string, params: Json)

  function Applicable(cs: seq<Context>): (r: seq<Context>)
    ensures forall i :: 0 <= i < |r| ==> r[i] in cs && r[i].live && r[i].scope in {"global", "task_specific"}
    ensures forall c :: c in cs && c.live && c.scope in {"global", "task_specific"} ==> c in r
  {
    if cs == [] then []
    else
      (if cs[0].live && (cs[0].scope == "global" || cs[0].scope == "task_specific") then [cs[0]] else [])
      + Applicable(cs[1..])
  }

  /** A context value as text: a string as it is, anything else through
      `JSON.stringify` (`ser`). */
  function ValueText(v: Json, ser: Json -> string): string
  {
    if v.JStr? then v.s else ser(v)
  }

  /** A preference or instruction that says nothing about a model or a
      service is appended in parentheses. */
  function Noted(p: string, c: Context, ser: Json -> string): (r: string)
    ensures StartsWith(r, p)
  {
    if c.kind == "preference" || c.kind == "instruction" then
      var v := ValueText(c.value, ser);
      if v != "" && !Contains(v, "model") && !Contains(v, "service") then
        assert (p + " (" + v + ")")[..|p|] == p;
        p + " (" + v + ")"
      else p
    else p
  }

  /** The words an exclusion names: a string is split at commas and each
      piece trimmed; an array is taken as it is. */
  function ExcludedWords(v: Json): Option<seq<Json>>
  {
    if v.JStr? then
      var parts := Split(v.s, ",");
      Some(seq(|parts|, i requires 0 <= i < |parts| => JStr(Trim(parts[i]))))
    else if v.JArr? then Some(v.items)
    else None
  }

  /** Each word removed in turn, whitespace collapsed after each removal.
      `remove` stands for deleting every whole-word, case-insensitive
      occurrence. */
  function Excluded(p: string, ws: seq<Json>, remove: (string, Json) -> string): string
    decreases |ws|
  {
    if ws == [] then p else Excluded(Collapse(remove(p, ws[0])), ws[1..], remove)
  }

  /** One context entry's effect on the prompt. */
  function Adjusted(p: string, c: Context, ser: Json -> string, remove: (string, Json) -> string): string
  {
    var q := Noted(p, c, ser);
    if c.kind == "exclusion" && ExcludedWords(c.value).Some? then Excluded(q, ExcludedWords(c.value).value, remove)
    else q
  }

  function AdjustedAll(p: string, cs: seq<Context>, ser: Json -> string, remove: (string, Json) -> string): string
    decreases |cs|
  {
    if cs == [] then p else AdjustedAll(Adjusted(p, cs[0], ser, remove), cs[1..], ser, remove)
  }

  /** After an exclusion with at least one word, the prompt has no
      whitespace at its ends and no whitespace runs. */
  lemma {:induction false} ExcludedClean(p: string, ws: seq<Json>, remove: (string, Json) -> string)
    requires ws != []
    ensures Collapse(Excluded(p, ws, remove)) == Excluded(p, ws, remove)
    decreases |ws|
  {
    if |ws| == 1 {
      assert ws[1..] == [];
      CollapseIdem(remove(p, ws[0]));
    } else {
      ExcludedClean(Collapse(remove(p, ws[0])), ws[1..], remove);
    }
  }

  /** Without exclusions the context only appends to the prompt. */
  lemma {:induction false} NotesOnlyAppend(p: string, cs: seq<Context>, ser: Json -> string,
                                           remove: (string, Json) -> string)
    requires forall i :: 0 <= i < |cs| ==> cs[i].kind != "exclusion"
    ensures StartsWith(AdjustedAll(p, cs, ser, remove), p)
    decreases |cs|
  {
    if cs != [] {
      var q := Adjusted(p, cs[0], ser, remove);
      assert q == Noted(p, cs[0], ser);
      NotesOnlyAppend(q, cs[1..], ser, remove);
      var r := AdjustedAll(q, cs[1..], ser, remove);
      assert r[..|q|] == q;
      assert r[..|p|] == q[..|p|];
    }
  }

  /** The prompt loop of the planner. */
  method AdjustPrompt(prompt: string, cs: seq<Context>, ser: Json -> string,
                      remove: (string, Json) -> string) returns (p: string)
    ensures p == AdjustedAll(prompt, cs, ser, remove)
  {
    p := prompt;
    var i := 0;
    while i < |cs|
      invariant 0 <= i <= |cs|
      invariant AdjustedAll(p, cs[i..], ser, remove) == AdjustedAll(prompt, cs, ser, remove)
    {
      var c := cs[i];
      var noted := Noted(p, c, ser);
      p := noted;
      if c.kind == "exclusion" && ExcludedWords(c.value).Some? {
        var ws := ExcludedWords(c.value).value;
        var j := 0;
        while j < |ws|
          invariant 0 <= j <= |ws|
          invariant Excluded(p, ws[j..], remove) == Excluded(noted, ws, remove)
        {
          assert ws[j..][1..] == ws[j + 1..];
          p := Collapse(remove(p, ws[j]));
          j := j + 1;
        }
        assert ws[j..] == [];
      }
      assert cs[i..][1..] == cs[i + 1..];
      i := i + 1;
    }
    assert cs[i..] == [];
  }

  // ---------------------------------------------------------------------
  // generateTasksFromIntent: the tasks

  /** A planned task; a field the source leaves out is `None`. */
  datatype Task = Task(title: Json, description: Json, kind: Json, service: Option<Json>, model: Option<Json>,
                       params: Json, status: string, priority: Json, order: Json)

  function Pos(i: nat): Json
  {
    JNum(i as real)
  }

  /** `extractedParams.count || 1`. */
  function CountParam(params: Json): Json
  {
    Or(Get(params, "count"), JNum(1.0))
  }

  function Single(title: string, kind: string, service: string, model: string, p: string, params: Json): Task
  {
    Task(JStr(title), JStr(p), JStr(kind), Some(JStr(service)), Some(JStr(model)),
         JObj([("prompt", JStr(p)), ("count", CountParam(params))]), "pending", JNum(7.0), Pos(0))
  }

  const LogoTask := Task(JStr("Create Logo"), JStr("Generate logo for the company"), JStr("generate_image"),
                         Some(JStr("openai")), Some(JStr("dall-e-3")),
                         StrObj("prompt", "Create a professional company logo"), "pending", JNum(8.0), Pos(0))

  datatype Series = Flyers | Clips

  function SeriesTask(s: Series, j: nat, at: nat): (t: Task)
    ensures t.order == Pos(at) && t.status == "pending"
  {
    match s
    case Flyers =>
      Task(JStr("Create Flyer " + Show(j + 1)), JStr("Generate promotional flyer"), JStr("generate_image"),
           Some(JStr("openai")), Some(JStr("dall-e-3")),
           StrObj("prompt", "Create a professional promotional flyer"), "pending", JNum(7.0), Pos(at))
    case Clips =>
      Task(JStr("Create Video " + Show(j + 1)), JStr("Generate promotional video"), JStr("generate_video"),
           Some(JStr("runway")), Some(JStr("gen4-turbo")),
           StrObj("prompt", "Create a professional promotional video"), "pending", JNum(7.0), Pos(at))
  }

  function AudioTask(at: nat): Task
  {
    Task(JStr("Generate Audio from Text"), JStr("Convert text to speech"), JStr("generate_audio"),
         Some(JStr("elevenlabs")), None, StrObj("text", "Generated promotional content"), "pending",
         JNum(6.0), Pos(at))
  }

  /** `n` tasks of a series, the first at position `start`. */
  function Run(s: Series, n: nat, start: nat): (r: seq<Task>)
    ensures |r| == n
  {
    seq(n, j requires 0 <= j < n => SeriesTask(s, j, start + j))
  }

  function Counted(c: Option<nat>): nat
  {
    if c.Some? then c.value else 0
  }

  function Logos(l: string): nat
  {
    if Contains(l, "logo") then 1 else 0
  }

  function FlyerCount(l: string): nat
  {
    Counted(CountBefore(l, ["flyer"]))
  }

  function ClipCount(l: string): nat
  {
    Counted(CountBefore(l, VideoNouns))
  }

  function Voices(l: string): nat
  {
    if Contains(l, "audio") || Contains(l, "voice") || Contains(l, "paragraphs") then 1 else 0
  }

  /** The tasks of a company request, `l` being the lower-cased prompt: a
      logo when one is mentioned, the number of flyers and of videos
      asked for, and a voice-over when audio is mentioned. */
  function CompanyPlan(l: string): seq<Task>
  {
    var front := if Logos(l) == 1 then [LogoTask] else [];
    var flyers := Run(Flyers, FlyerCount(l), Logos(l));
    var clips := Run(Clips, ClipCount(l), Logos(l) + FlyerCount(l));
    var at := Logos(l) + FlyerCount(l) + ClipCount(l);
    front + flyers + clips + (if Voices(l) == 1 then [AudioTask(at)] else [])
  }

  predicate InOrder(ts: seq<Task>)
  {
    InOrderFrom(ts, 0)
  }

  /** Every task is pending and sits at `order_index` `start` plus its
      position. */
  predicate InOrderFrom(ts: seq<Task>, start: nat)
  {
    forall i :: 0 <= i < |ts| ==> ts[i].order == Pos(start + i) && ts[i].status == "pending"
  }

  /** Logo, flyers, videos, voice-over: every task is pending and its
      `order_index` is its position. */
  lemma {:induction false} CompanyPlanShape(l: string)
    ensures |CompanyPlan(l)| == Logos(l) + FlyerCount(l) + ClipCount(l) + Voices(l)
    ensures InOrder(CompanyPlan(l))
    ensures Logos(l) == 1 ==> CompanyPlan(l)[0] == LogoTask
    ensures CompanyPlan(l)[Logos(l)..Logos(l) + FlyerCount(l)] == Run(Flyers, FlyerCount(l), Logos(l))
    ensures CompanyPlan(l)[Logos(l) + FlyerCount(l)..Logos(l) + FlyerCount(l) + ClipCount(l)] ==
      Run(Clips, ClipCount(l), Logos(l) + FlyerCount(l))
  {
    var front := if Logos(l) == 1 then [LogoTask] else [];
    var flyers := Run(Flyers, FlyerCount(l), Logos(l));
    var clips := Run(Clips, ClipCount(l), Logos(l) + FlyerCount(l));
    var at := Logos(l) + FlyerCount(l) + ClipCount(l);
    var back := if Voices(l) == 1 then [AudioTask(at)] else [];
    assert front + flyers + clips + back == CompanyPlan(l);
    RunInOrder(Flyers, FlyerCount(l), Logos(l));
    RunInOrder(Clips, ClipCount(l), Logos(l) + FlyerCount(l));
    Pieces(front, flyers, clips, back);
  }

  lemma {:induction false} RunInOrder(s: Series, n: nat, start: nat)
    ensures InOrderFrom(Run(s, n, start), start)
  {
    var r := Run(s, n, start);
    forall i | 0 <= i < n ensures r[i].order == Pos(start + i) && r[i].status == "pending" {
      assert r[i] == SeriesTask(s, i, start + i);
    }
  }

  /** Four runs, each numbered on from the one before, make one run
      numbered from zero, and each is found again at its place. */
  lemma {:induction false} Pieces(a: seq<Task>, b: seq<Task>, c: seq<Task>, d: seq<Task>)
    requires InOrderFrom(a, 0) && InOrderFrom(b, |a|) && InOrderFrom(c, |a| + |b|)
    requires InOrderFrom(d, |a| + |b| + |c|)
    ensures InOrder(a + b + c + d)
    ensures (a + b + c + d)[..|a|] == a
    ensures (a + b + c + d)[|a|..|a| + |b|] == b
    ensures (a + b + c + d)[|a| + |b|..|a| + |b| + |c|] == c
  {
    var t := a + b + c + d;
    forall i | 0 <= i < |t| ensures t[i].order == Pos(i) && t[i].status == "pending" {
      if i < |a| {
        assert t[i] == a[i];
      } else if i < |a| + |b| {
        assert t[i] == b[i - |a|];
      } else if i < |a| + |b| + |c| {
        assert t[i] == c[i - |a| - |b|];
      } else {
        assert t[i] == d[i - |a| - |b| - |c|];
      }
    }
  }

  /** The company branch's loops. */
  method CompanyTasks(l: string) returns (tasks: seq<Task>)
    ensures tasks == CompanyPlan(l)
  {
    tasks := [];
    if Contains(l, "logo") {
      tasks := tasks + [LogoTask];
    }
    var logo := tasks;
    var flyers := CountBefore(l, ["flyer"]);
    if flyers.Some? {
      for i := 0 to flyers.value
        invariant tasks == logo + Run(Flyers, i, |logo|)
      {
        RunSnoc(logo, Flyers, i);
        tasks := tasks + [SeriesTask(Flyers, i, |tasks|)];
      }
    }
    var front := tasks;
    var clips := CountBefore(l, VideoNouns);
    if clips.Some? {
      for i := 0 to clips.value
        invariant tasks == front + Run(Clips, i, |front|)
      {
        RunSnoc(front, Clips, i);
        tasks := tasks + [SeriesTask(Clips, i, |tasks|)];
      }
    }
    var middle := tasks;
    if Contains(l, "audio") || Contains(l, "voice") || Contains(l, "paragraphs") {
      tasks := tasks + [AudioTask(|tasks|)];
    }
    PlanParts(l, logo, front, middle, tasks);
  }

  /** One more task of a series after `pre` and the first `i` of the run. */
  lemma {:induction false} RunSnoc(pre: seq<Task>, s: Series, i: nat)
    ensures pre + Run(s, i, |pre|) + [SeriesTask(s, i, |pre + Run(s, i, |pre|)|)] ==
      pre + Run(s, i + 1, |pre|)
  {
    var r := Run(s, i, |pre|);
    assert Run(s, i + 1, |pre|) == r + [SeriesTask(s, i, |pre| + i)];
    AppendAssoc(pre, r, [SeriesTask(s, i, |pre| + i)]);
  }

  /** The loops' pieces, put together, are the plan. */
  lemma {:induction false} PlanParts(l: string, logo: seq<Task>, front: seq<Task>, middle: seq<Task>, tasks: seq<Task>)
    requires logo == if Logos(l) == 1 then [LogoTask] else []
    requires front == logo + Run(Flyers, FlyerCount(l), |logo|)
    requires middle == front + Run(Clips, ClipCount(l), |front|)
    requires tasks == middle + if Voices(l) == 1 then [AudioTask(|middle|)] else []
    ensures tasks == CompanyPlan(l)
  {
  }

  /** The tasks for an intent before preferences are applied. */
  function Planned(intent: Intent, p: string): seq<Task>
  {
    if intent.detected == "generate_image" then
      [Single("Generate Image", "generate_image", "openai", "dall-e-3", p, intent.params)]
    else if intent.detected == "generate_video" then
      [Single("Generate Video", "generate_video", "runway", "gen4-turbo", p, intent.params)]
    else if intent.detected == "complex_task" then CompanyPlan(ToLower(p))
    else
      [Task(JStr("Process Request"), JStr(p), JStr("generate_text"), None, None, StrObj("prompt", p),
            "pending", JNum(5.0), Pos(0))]
  }

  // ---------------------------------------------------------------------
  // generateTasksFromIntent: the model preferences

  predicate ModelPreference(c: Context)
  {
    c.kind == "preference" && Contains(c.key, "model")
  }

  /** A preference's truthy `model` and `service` replace the task's. */
  function Override(t: Task, v: Json): Task
  {
    t.(model := if TruthyField(Get(v, "model")) then Get(v, "model") else t.model,
       service := if TruthyField(Get(v, "service")) then Get(v, "service") else t.service)
  }

  function OverrideAll(ts: seq<Task>, v: Json): (r: seq<Task>)
    ensures |r| == |ts|
  {
    seq(|ts|, i requires 0 <= i < |ts| => Override(ts[i], v))
  }

  function Preferred(ts: seq<Task>, cs: seq<Context>): seq<Task>
    decreases |cs|
  {
    if cs == [] then ts
    else Preferred(if ModelPreference(cs[0]) then OverrideAll(ts, cs[0].value) else ts, cs[1..])
  }

  /** Two tasks that differ at most in service and model. */
  predicate SamePlan(a: Task, b: Task)
  {
    a.(service := b.service, model := b.model) == b
  }

  /** Preferences change only services and models: the tasks, their order,
      titles, prompts, priorities and statuses stay. */
  lemma {:induction false} PreferencesKeepPlan(ts: seq<Task>, cs: seq<Context>)
    ensures |Preferred(ts, cs)| == |ts|
    ensures forall i :: 0 <= i < |ts| ==> SamePlan(Preferred(ts, cs)[i], ts[i])
    decreases |cs|
  {
    if cs != [] {
      var us := if ModelPreference(cs[0]) then OverrideAll(ts, cs[0].value) else ts;
      PreferencesKeepPlan(us, cs[1..]);
      forall i | 0 <= i < |ts| ensures SamePlan(Preferred(ts, cs)[i], ts[i]) {
        assert SamePlan(us[i], ts[i]);
      }
    }
  }

  /** The preference loop of the planner; each matching entry rewrites
      every task in place. */
  method ApplyPreferences(ts: seq<Task>, cs: seq<Context>) returns (tasks: seq<Task>)
    ensures tasks == Preferred(ts, cs)
  {
    tasks := ts;
    var i := 0;
    while i < |cs|
      invariant 0 <= i <= |cs|
      invariant Preferred(tasks, cs[i..]) == Preferred(ts, cs)
    {
      if ModelPreference(cs[i]) {
        var before := tasks;
        var k := 0;
        while k < |tasks|
          invariant 0 <= k <= |tasks| == |before|
          invariant forall m :: 0 <= m < k ==> tasks[m] == Override(before[m], cs[i].value)
          invariant forall m :: k <= m < |tasks| ==> tasks[m] == before[m]
        {
          tasks := tasks[k := Override(tasks[k], cs[i].value)];
          k := k + 1;
        }
        assert tasks == OverrideAll(before, cs[i].value);
      }
      assert cs[i..][1..] == cs[i + 1..];
      i := i + 1;
    }
    assert cs[i..] == [];
  }

  /** generateTasksFromIntent: the applicable context adjusts the prompt,
      the intent chooses the tasks, model preferences adjust them. */
  method GenerateTasksFromIntent(intent: Intent, context: seq<Context>, ser: Json -> string,
                                 remove: (string, Json) -> string) returns (tasks: seq<Task>)
    ensures tasks == Preferred(Planned(intent, AdjustedAll(intent.prompt, Applicable(context), ser, remove)),
                               Applicable(context))
  {
    var live := Applicable(context);
    var p := AdjustPrompt(intent.prompt, live, ser, remove);
    var planned;
    if intent.detected == "generate_image" {
      planned := [Single("Generate Image", "generate_image", "openai", "dall-e-3", p, intent.params)];
    } else if intent.detected == "generate_video" {
      planned := [Single("Generate Video", "generate_video", "runway", "gen4-turbo", p, intent.params)];
    } else if intent.detected == "complex_task" {
      planned := CompanyTasks(ToLower(p));
    } else {
      planned := [Task(JStr("Process Request"), JStr(p), JStr("generate_text"), None, None, StrObj("prompt", p),
                       "pending", JNum(5.0), Pos(0))];
    }
    tasks := ApplyPreferences(planned, live);
  }

  /** Whatever the intent and the context: every task is pending at its own
      position; an image or video intent gives exactly one task carrying
      the count (1 when none was found), any other intent but a company
      request gives the one text task. */
  lemma {:induction false} PlanShape(intent: Intent, p: string, cs: seq<Context>)
    ensures InOrder(Preferred(Planned(intent, p), cs))
    ensures intent.detected in {"generate_image", "generate_video"} ==>
      |Preferred(Planned(intent, p), cs)| == 1 &&
      Get(Preferred(Planned(intent, p), cs)[0].params, "count") == Some(CountParam(intent.params)) &&
      Truthy(CountParam(intent.params))
    ensures intent.detected !in {"generate_image", "generate_video", "complex_task"} ==>
      |Preferred(Planned(intent, p), cs)| == 1 &&
      Preferred(Planned(intent, p), cs)[0].kind == JStr("generate_text")
  {
    var ts := Planned(intent, p);
    if intent.detected == "complex_task" {
      CompanyPlanShape(ToLower(p));
    }
    PreferencesKeepPlan(ts, cs);
    var r := Preferred(ts, cs);
    forall i | 0 <= i < |r| ensures r[i].order == Pos(i) && r[i].status == "pending" {
      assert SamePlan(r[i], ts[i]);
    }
    if intent.detected in {"generate_image", "generate_video"} {
      assert SamePlan(r[0], ts[0]);
      var fs := ts[0].params.fields;
      assert fs[..1][..0] == [];
      assert Lookup(fs, "count") == Some(CountParam(intent.params));
    }
    if intent.detected !in {"generate_image", "generate_video", "complex_task"} {
      assert SamePlan(r[0], ts[0]);
    }
  }

  // ---------------------------------------------------------------------
  // The language model's answer

  /** One task of the model's answer (`task` at `index`): the title
      defaults to "Task <index+1>", the description to the task's prompt or
      the processed prompt, the type to "other", the priority to 5; the
      order index is kept whenever it is given, even as `null`. */
  function ConvertTask(t: Json, index: nat, processed: Json): Task
  {
    var params := Get(t, "task_params");
    var prompt := if params.Some? then Get(params.value, "prompt") else None;
    Task(Or(Get(t, "task_title"), JStr("Task " + Show(index + 1))),
         Or(Get(t, "task_description"), Or(prompt, processed)),
         Or(Get(t, "task_type"), JStr("other")),
         Some(Or(Get(t, "ai_service"), JNull)), Some(Or(Get(t, "ai_model"), JNull)),
         Or(params, JObj([("prompt", processed)])),
         "pending", Or(Get(t, "priority"), JNum(5.0)), Defined(Get(t, "order_index"), Pos(index)))
  }

  /** The model's task list converted; `None` when an entry is `null`,
      on which reading a field throws. */
  function ConvertTasks(items: seq<Json>, processed: Json): (r: Option<seq<Task>>)
    ensures r.Some? <==> JNull !in items
    ensures r.Some? ==> |r.value| == |items|
    ensures r.Some? ==> forall i :: 0 <= i < |items| ==>
      r.value[i].status == "pending" && Truthy(r.value[i].title) && Truthy(r.value[i].priority) &&
      Truthy(r.value[i].kind) &&
      (Get(items[i], "order_index").None? ==> r.value[i].order == Pos(i)) &&
      (!TruthyField(Get(items[i], "task_title")) ==> r.value[i].title == JStr("Task " + Show(i + 1)))
  {
    if JNull in items then None
    else Some(seq(|items|, i requires 0 <= i < |items| => ConvertTask(items[i], i, processed)))
  }

  /** What the model's answer leads to: clarification questions, which end
      the request, or tasks, where an empty list means falling back to the
      rule-based planner. */
  datatype Outcome = Ask(processed: Json, questions: seq<Question>) | Proceed(processed: Json, tasks: seq<Task>)

  /** `questions.length > 0` on whatever the model put there. */
  predicate NonEmptyList(v: Option<Json>)
  {
    v.Some? && ((v.value.JArr? && v.value.items != []) || (v.value.JStr? && v.value.s != []))
  }

  /** The handling of the model's parsed answer (`None` when the call
      failed or gave no result). A list entry that is `null`, or a
      non-list where a list is mapped, throws: that is the fallback too. */
  function Interpret(result: Option<Json>, userPrompt: string, intentId: Json, allowQuestions: bool): (r: Outcome)
    ensures r.Ask? ==>
      allowQuestions && result.Some? && TruthyField(Get(result.value, "needs_clarification")) && r.questions != [] &&
      forall i :: 0 <= i < |r.questions| ==> r.questions[i].status == "pending" && r.questions[i].intentId == intentId
    ensures result.None? || !Truthy(result.value) ==> r == Proceed(JStr(userPrompt), [])
    ensures r.Proceed? && r.tasks != [] ==> InOrderOrGiven(r.tasks)
  {
    if result.None? || !Truthy(result.value) then Proceed(JStr(userPrompt), [])
    else
      var v := result.value;
      var processed := Or(Get(v, "processed_prompt"), JStr(userPrompt));
      var qs := Get(v, "questions");
      if allowQuestions && TruthyField(Get(v, "needs_clarification")) && NonEmptyList(qs) then
        if qs.value.JArr? && JNull !in qs.value.items then
          Ask(processed, seq(|qs.value.items|, i requires 0 <= i < |qs.value.items| =>
                               PrepareQuestion(qs.value.items[i], intentId)))
        else Proceed(processed, [])
      else
        var ts := Get(v, "tasks");
        if TruthyField(ts) && ts.value.JArr? && ConvertTasks(ts.value.items, processed).Some? then
          Proceed(processed, ConvertTasks(ts.value.items, processed).value)
        else Proceed(processed, [])
  }

  /** Every converted task is pending with a truthy title. */
  predicate InOrderOrGiven(ts: seq<Task>)
  {
    forall i :: 0 <= i < |ts| ==> ts[i].status == "pending" && Truthy(ts[i].title)
  }
}
