/** The intents route of the AI manager
    (app/api/ai-manager/intents/route.ts): the validation of a new prompt
    and its own keyword classifier, which checks images before videos,
    knows questions, and reads "tts" and "draw". */
module Intents {
  import opened Wrappers
  import opened Strings
  import opened Json
  import GenerateTasks
  import opened AIManager

  /** The early answers of POST: 403 for anyone but an administrator, 500
      when the body is not JSON or is `null`, 400 when `user_prompt` is
      missing or falsy, 500 when it is truthy but not a string (lower-casing
      it throws); otherwise the prompt to classify. */
  function Admit(admin: Option<string>, body: Option<Json>): (r: Result<string, nat>)
    ensures admin.None? ==> r == Err(403)
    ensures admin.Some? && body.Some? && body.value != JNull ==>
      (r == Err(400) <==> !TruthyField(Get(body.value, "user_prompt")))
    ensures r.Ok? ==> body.Some? && Get(body.value, "user_prompt") == Some(JStr(r.value)) && r.value != ""
    ensures r.Err? ==> r.error in {400, 403, 500}
  {
    if admin.None? then Err(403)
    else if body.None? || body.value == JNull then Err(500)
    else
      var p := Get(body.value, "user_prompt");
      if !TruthyField(p) then Err(400)
      else if p.value.JStr? then Ok(p.value.s)
      else Err(500)
  }

  predicate ImageRequest(l: string)
  {
    Contains(l, "image") || Contains(l, "picture") || Contains(l, "photo") || Contains(l, "draw") ||
    Contains(l, "create image") || Contains(l, "generate image")
  }

  predicate BareSkit(l: string)
  {
    Contains(l, "skit") && !Contains(l, "video") && !Contains(l, "create video")
  }

  predicate AudioRequest(l: string)
  {
    Contains(l, "audio") || Contains(l, "voice") || Contains(l, "speech") ||
    Contains(l, "text to speech") || Contains(l, "tts")
  }

  predicate Question(l: string)
  {
    StartsWith(l, "what") || StartsWith(l, "how") || StartsWith(l, "why") || StartsWith(l, "when") ||
    StartsWith(l, "where") || StartsWith(l, "explain") || StartsWith(l, "tell me")
  }

  predicate MultiStep(l: string)
  {
    Contains(l, "start a company") || Contains(l, "create a company") ||
    Contains(l, "and then") || Contains(l, "then create") ||
    (|Split(l, " ")| > 20 && (Contains(l, "create") || Contains(l, "make") || Contains(l, "generate")))
  }

  /** The keyword classifier of this route: the first test that holds
      decides, in the order image, video, bare skit, audio, question,
      multi-step. */
  function Detect(prompt: string): (r: Detected)
    ensures var l := ToLower(prompt);
      (r.kind == GenerateImage <==> ImageRequest(l)) &&
      (r.kind == GenerateVideo <==> !ImageRequest(l) && GenerateTasks.VideoRequest(l)) &&
      (r.kind == GenerateAudio <==>
        !ImageRequest(l) && !GenerateTasks.VideoRequest(l) && !BareSkit(l) && AudioRequest(l)) &&
      (r.kind == AskQuestion <==>
        !ImageRequest(l) && !GenerateTasks.VideoRequest(l) && !BareSkit(l) && !AudioRequest(l) && Question(l)) &&
      (r.kind == ComplexTask <==>
        !ImageRequest(l) && !GenerateTasks.VideoRequest(l) && !BareSkit(l) && !AudioRequest(l) &&
        !Question(l) && MultiStep(l))
    ensures r.kind == GenerateImage ==> r.count == CountBefore(ToLower(prompt), GenerateTasks.ImageNouns)
    ensures r.kind == GenerateVideo ==> r.count == CountBefore(ToLower(prompt), GenerateTasks.VideoNouns)
    ensures r.count.Some? ==> r.kind == GenerateVideo || r.kind == GenerateImage
    ensures r.clarify <==> r.kind == GenerateText && r.confidence == 70
    ensures r.kind == GenerateText ==> r.confidence in {60, 70}
  {
    var l := ToLower(prompt);
    if ImageRequest(l) then Detected(GenerateImage, 85, CountBefore(l, GenerateTasks.ImageNouns), false)
    else if GenerateTasks.VideoRequest(l) then Detected(GenerateVideo, 85, CountBefore(l, GenerateTasks.VideoNouns), false)
    else if BareSkit(l) then Detected(GenerateText, 70, None, true)
    else if AudioRequest(l) then Detected(GenerateAudio, 85, None, false)
    else if Question(l) then Detected(AskQuestion, 80, None, false)
    else if MultiStep(l) then Detected(ComplexTask, 75, None, false)
    else Detected(GenerateText, 60, None, false)
  }

  /** The classification does not depend on letter case. */
  lemma {:induction false} DetectIgnoresCase(prompt: string)
    ensures Detect(ToLower(prompt)) == Detect(prompt)
  {
    ToLowerIdem(prompt);
  }

  /** The two classifiers disagree on a prompt that asks to make a video
      of an image: the planner's sees a video, this route's an image. */
  lemma {:induction false} ClassifiersDisagree(prompt: string)
    requires Contains(ToLower(prompt), "image") && GenerateTasks.VideoRequest(ToLower(prompt))
    ensures GenerateTasks.Detect(prompt).kind == GenerateVideo
    ensures Detect(prompt).kind == GenerateImage
  {
  }

  /** On a prompt that names neither an image, a video, a skit nor audio,
      the two classifiers agree except where this one sees a question or
      a multi-step request the planner's does not. */
  lemma {:induction false} ClassifiersAgreeOnPlainText(prompt: string)
    requires var l := ToLower(prompt);
      !ImageRequest(l) && !GenerateTasks.VideoRequest(l) && !Contains(l, "skit") && !AudioRequest(l) &&
      !Question(l) && !MultiStep(l)
    ensures Detect(prompt) == GenerateTasks.Detect(prompt) == Detected(GenerateText, 60, None, false)
  {
    var l := ToLower(prompt);
    assert !GenerateTasks.ImageRequest(l);
    assert !GenerateTasks.CompanyRequest(l);
  }
}
