/** Vocabulary shared by the AI-manager routes (the routes under app/api/ai-manager): the
    administrator check every route starts with, JavaScript's `||` and
    `!== undefined` defaults on request fields, the keyword classifiers'
    result record, the numeral-before-noun count they extract, the
    whitespace collapse applied after removing words, and the preparation
    of a clarification question, which two routes share. */
module AIManager {
  import opened Wrappers
  import opened Strings
  import opened Json
  import opened Numbers

  // ---------------------------------------------------------------------
  // checkAdminRole

  /** `s.replace(p, q)` with a string pattern: only the first occurrence
      of `p` is replaced. */
  function ReplaceFirst(s: string, p: string, q: string): (r: string)
    requires p != []
    ensures !Contains(s, p) ==> r == s
    ensures Contains(s, p) ==> |r| == |s| - |p| + |q|
    decreases |s|
  {
    if StartsWith(s, p) then q + s[|p|..]
    else if s == [] then []
    else [s[0]] + ReplaceFirst(s[1..], p, q)
  }

  /** The position of the first occurrence of `p` in `s`. */
  function FirstAt(s: string, p: string): (i: nat)
    requires Contains(s, p)
    ensures i + |p| <= |s| && s[i..i + |p|] == p
    ensures forall j :: 0 <= j < i ==> !StartsWith(s[j..], p)
    decreases |s|
  {
    if StartsWith(s, p) then 0
    else
      var k := FirstAt(s[1..], p);
      TailSlice(s, k, k + |p|);
      assert forall j :: 1 <= j < 1 + k ==> !StartsWith(s[j..], p) by {
        forall j | 1 <= j < 1 + k ensures !StartsWith(s[j..], p) {
          assert s[j..] == s[1..][j - 1..];
        }
      }
      1 + k
  }

  /** A slice of the tail is a slice of the text, one further on. */
  lemma {:induction false} TailSlice(s: string, a: nat, b: nat)
    requires s != [] && a <= b <= |s| - 1
    ensures s[1..][a..b] == s[1 + a..1 + b]
  {
  }

  /** `replace` splices `q` in at the first occurrence of `p` and keeps
      everything before and after it. */
  lemma {:induction false} ReplaceFirstAt(s: string, p: string, q: string)
    requires p != [] && Contains(s, p)
    ensures var i := FirstAt(s, p); ReplaceFirst(s, p, q) == s[..i] + q + s[i + |p|..]
    decreases |s|
  {
    if !StartsWith(s, p) {
      var t := s[1..];
      var k := FirstAt(t, p);
      assert FirstAt(s, p) == 1 + k;
      ReplaceFirstAt(t, p, q);
      assert ReplaceFirst(s, p, q) == [s[0]] + (t[..k] + q + t[k + |p|..]);
      assert t[..k] == s[1..1 + k];
      assert t[k + |p|..] == s[1 + k + |p|..];
      assert [s[0]] + s[1..1 + k] == s[..1 + k];
      AppendAssoc([s[0]], s[1..1 + k] + q, s[1 + k + |p|..]);
      AppendAssoc([s[0]], s[1..1 + k], q);
    }
  }

  /** The user id of an administrator, or `None` when the route answers
      403: the header is missing or empty, the token (the header with its
      first "Bearer " removed) names no user, or that user's profile is
      missing or its role is not "admin". `user` and `role` stand for the
      sign-in service and the profile table. */
  function AdminUser(header: Option<string>, user: string -> Option<string>,
                     role: string -> Option<Json>): (r: Option<string>)
    ensures r.Some? <==>
      (header.Some? && header.value != "" &&
       user(ReplaceFirst(header.value, "Bearer ", "")).Some? &&
       role(user(ReplaceFirst(header.value, "Bearer ", "")).value) == Some(JStr("admin")))
    ensures r.Some? ==> r == user(ReplaceFirst(header.value, "Bearer ", ""))
  {
    if header.None? || header.value == "" then None
    else
      match user(ReplaceFirst(header.value, "Bearer ", ""))
      case None => None
      case Some(id) => if role(id) == Some(JStr("admin")) then Some(id) else None
  }

  /** A header "Bearer <token>" whose token does not itself contain
      "Bearer " yields the token. */
  lemma {:induction false} BearerHeaderToken(token: string)
    requires !Contains(token, "Bearer ")
    ensures ReplaceFirst("Bearer " + token, "Bearer ", "") == token
  {
    var h := "Bearer " + token;
    assert StartsWith(h, "Bearer ");
    assert h[|"Bearer "|..] == token;
  }

  /** The row lookup shared by every PUT and DELETE: a missing row is 404,
      another user's row is 403. */
  datatype Gate = NotFound | NotOwner | Owned

  function Ownership(owner: Option<string>, user: string): Gate
  {
    if owner.None? then NotFound
    else if owner.value != user then NotOwner
    else Owned
  }

  // ---------------------------------------------------------------------
  // Field defaults

  /** `a || d`: the field when it is truthy, otherwise the default. */
  function Or(a: Option<Json>, d: Json): Json
  {
    if TruthyField(a) then a.value else d
  }

  /** `a || b` where `b` may itself be undefined. */
  function OrField(a: Option<Json>, b: Option<Json>): Option<Json>
  {
    if TruthyField(a) then a else b
  }

  /** `a !== undefined ? a : d`: a JSON `null` counts as given. */
  function Defined(a: Option<Json>, d: Json): Json
  {
    if a.Some? then a.value else d
  }

  /** The object a parsed body denotes: later repetitions of a key win. */
  function FieldMap(fs: seq<(string, Json)>): (m: map<string, Json>)
    ensures forall k :: k in m <==> Lookup(fs, k).Some?
    ensures forall k :: k in m ==> Lookup(fs, k) == Some(m[k])
    decreases |fs|
  {
    if fs == [] then map[]
    else FieldMap(fs[..|fs| - 1])[fs[|fs| - 1].0 := fs[|fs| - 1].1]
  }

  /** The list a POST works on: `items || (item ? [item] : [])`. `None`
      marks a truthy value that is not an array, on which `.map` throws. */
  function Batch(items: Option<Json>, item: Option<Json>): (r: Option<seq<Json>>)
    ensures TruthyField(items) && !items.value.JArr? ==> r.None?
    ensures !TruthyField(items) ==> r == Some(if TruthyField(item) then [item.value] else [])
  {
    if TruthyField(items) then
      if items.value.JArr? then Some(items.value.items) else None
    else if TruthyField(item) then Some([item.value])
    else Some([])
  }

  // ---------------------------------------------------------------------
  // Clarification questions

  datatype Question = Question(intentId: Json, text: Option<Json>, kind: Json, required: Json,
                               related: Json, priority: Json, status: string)

  /** A question as it is stored: the text from `question_text` or
      `question`, type "clarification", required unless stated, priority 5
      and status "pending" by default. */
  function PrepareQuestion(q: Json, intentId: Json): (r: Question)
    ensures r.status == "pending" && Truthy(r.kind) && Truthy(r.priority)
    ensures TruthyField(r.text) <==> TruthyField(Get(q, "question_text")) || TruthyField(Get(q, "question"))
    ensures Get(q, "is_required").None? ==> r.required == JBool(true)
    ensures Get(q, "is_required").Some? ==> r.required == Get(q, "is_required").value
    ensures Truthy(Or(Get(q, "priority"), JNum(5.0)))
  {
    Question(intentId, OrField(Get(q, "question_text"), Get(q, "question")),
             Or(Get(q, "question_type"), JStr("clarification")),
             Defined(Get(q, "is_required"), JBool(true)),
             Or(Get(q, "related_field"), JNull),
             Or(Get(q, "priority"), JNum(5.0)), "pending")
  }

  // ---------------------------------------------------------------------
  // Keyword classification

  datatype IntentKind = GenerateVideo | GenerateImage | GenerateText | GenerateAudio | AskQuestion | ComplexTask

  /** The `intent` string stored with a classification. */
  function IntentName(k: IntentKind): string
  {
    match k
    case GenerateVideo => "generate_video"
    case GenerateImage => "generate_image"
    case GenerateText => "generate_text"
    case GenerateAudio => "generate_audio"
    case AskQuestion => "ask_question"
    case ComplexTask => "complex_task"
  }

  /** The `category` stored with a classification. */
  function Category(k: IntentKind): string
  {
    match k
    case GenerateVideo => "video"
    case GenerateImage => "image"
    case GenerateText => "text"
    case GenerateAudio => "audio"
    case AskQuestion => "text"
    case ComplexTask => "multi_step"
  }

  /** A classification: the intent, the confidence in hundredths (85 for
      0.85), the count found in the prompt (`params.count`) and whether
      the intent asks for clarification (`params.needs_clarification`). */
  datatype Detected = Detected(kind: IntentKind, confidence: nat, count: Option<nat>, clarify: bool)

  /** The first match of `(\d+)\s*(?:w1|w2|…)`: the leftmost digit run that
      is followed, after optional whitespace, by one of the words; its
      value, as `parseInt` reads it. */
  function CountBefore(s: string, words: seq<string>): (r: Option<nat>)
    decreases |s|
  {
    if s == [] then None
    else if IsDigit(s[0]) && StartsWithAny(TrimStart(s[|DigitRun(s)|..]), words) then
      Some(DigitsValue(DigitRun(s)))
    else CountBefore(s[1..], words)
  }

  predicate StartsWithAny(s: string, words: seq<string>)
  {
    exists i :: 0 <= i < |words| && StartsWith(s, words[i])
  }

  /** A prompt that starts with a numeral, optional spaces and one of the
      words yields that numeral's value. */
  lemma {:induction false} CountOfNumeral(n: nat, gap: string, w: string, rest: string, words: seq<string>)
    requires w in words && w != [] && !IsDigit(w[0]) && !IsSpace(w[0])
    requires forall i :: 0 <= i < |gap| ==> IsSpace(gap[i])
    ensures CountBefore(Show(n) + gap + w + rest, words) == Some(n)
  {
    var d := Show(n);
    var tail := gap + (w + rest);
    assert tail == [] || !IsDigit(tail[0]) by {
      if gap != [] { assert tail[0] == gap[0]; } else { assert tail[0] == w[0]; }
    }
    TrimStartGap(gap, w + rest);
    assert StartsWith(w + rest, w);
    var i :| 0 <= i < |words| && words[i] == w;
    assert StartsWithAny(TrimStart(tail), words);
    assert d != [] && AllDigits(d);
    CountAt(d, tail, words);
    ShowValue(n);
    AppendAssoc(d, gap, w);
    AppendAssoc(d + gap, w, rest);
    AppendAssoc(d, gap, w + rest);
  }

  /** A digit run followed by one of the words, after optional spaces,
      is the count. */
  lemma {:induction false} CountAt(d: string, tail: string, words: seq<string>)
    requires AllDigits(d) && d != []
    requires tail == [] || !IsDigit(tail[0])
    requires StartsWithAny(TrimStart(tail), words)
    ensures CountBefore(d + tail, words) == Some(DigitsValue(d))
  {
    var s := d + tail;
    assert s[0] == d[0];
    DigitRunOf(d, tail);
    assert s[|d|..] == tail;
  }

  lemma {:induction false} DigitRunOf(d: string, tail: string)
    requires AllDigits(d) && d != []
    requires tail == [] || !IsDigit(tail[0])
    ensures DigitRun(d + tail) == d
    decreases |d|
  {
    var s := d + tail;
    assert s[1..] == d[1..] + tail;
    if |d| > 1 {
      DigitRunOf(d[1..], tail);
    } else {
      assert d[1..] + tail == tail;
      assert DigitRun(tail) == [];
    }
    assert [d[0]] + d[1..] == d;
  }

  lemma {:induction false} TrimStartGap(gap: string, t: string)
    requires forall i :: 0 <= i < |gap| ==> IsSpace(gap[i])
    requires t != [] && !IsSpace(t[0])
    ensures TrimStart(gap + t) == t
    decreases |gap|
  {
    if gap != [] {
      assert (gap + t)[1..] == gap[1..] + t;
      TrimStartGap(gap[1..], t);
    } else {
      assert gap + t == t;
    }
  }

  // ---------------------------------------------------------------------
  // `.replace(/\s+/g, ' ').trim()`

  /** Every whitespace run becomes one space and the ends are trimmed: the
      whitespace-separated words joined by single spaces. */
  function Collapse(s: string): string
  {
    Join(Words(s), " ")
  }

  /** Collapsing twice is collapsing once: a collapsed prompt is clean. */
  lemma {:induction false} CollapseIdem(s: string)
    ensures Collapse(Collapse(s)) == Collapse(s)
  {
    WordsJoin(Words(s));
  }
}
