/** The Kling video endpoint (app/api/kling/route.ts): the choice of start
    and end frames, the mapping of a ratio to one of Kling's aspect ratios,
    the endpoint choice, the acceptance of a created task, the polling loop
    and the refund. The sign-in service, Kling's HTTP answers and
    JavaScript's `Number` are parameters; the JWT signing and the wait
    between polls are left out. */
module Kling {
  import opened Wrappers
  import opened Strings
  import opened Json
  import opened Numbers
  import Runway

  /** `VIDEO_CREDITS[model] || 50`: only "kling" is listed, at 50, so
      every model is refunded 50. */
  const VideoCredits: map<string, nat> := map["kling" := 50]

  function RefundAmount(model: string): (r: nat)
    ensures r == 50
  {
    if model in VideoCredits && VideoCredits[model] != 0 then VideoCredits[model] else 50
  }

  // ---------------------------------------------------------------------
  // Frames

  /** An uploaded file: its MIME type and its bytes in base64. */
  datatype Upload = Upload(mime: string, base64: string)

  /** The form fields. */
  datatype Form = Form(prompt: Option<string>, model: Option<string>, duration: Option<string>,
                       file: Option<Upload>, startFrame: Option<Upload>, endFrame: Option<Upload>,
                       ratio: Option<string>)

  /** `data:<type>;base64,<bytes>`. */
  function DataUri(u: Upload): string
  {
    "data:" + u.mime + ";base64," + u.base64
  }

  /** The start image: `start_frame` when given, otherwise `file`. */
  function StartImage(f: Form): (r: Option<string>)
    ensures f.startFrame.Some? ==> r == Some(DataUri(f.startFrame.value))
    ensures f.startFrame.None? ==> (r.Some? <==> f.file.Some?)
    ensures f.startFrame.None? && f.file.Some? ==> r == Some(DataUri(f.file.value))
  {
    if f.startFrame.Some? then Some(DataUri(f.startFrame.value))
    else if f.file.Some? then Some(DataUri(f.file.value))
    else None
  }

  predicate IsLowerLetter(c: char)
  {
    'a' <= c <= 'z'
  }

  /** The longest run of lower-case ASCII letters at the start of `s`. */
  function LetterRun(s: string): (r: string)
    ensures StartsWith(s, r) && forall i :: 0 <= i < |r| ==> IsLowerLetter(r[i])
    ensures |r| < |s| ==> !IsLowerLetter(s[|r|])
  {
    if s != [] && IsLowerLetter(s[0]) then [s[0]] + LetterRun(s[1..]) else []
  }

  /** `s.replace(/^data:image\/[a-z]+;base64,/, '')`: the data-URI prefix
      of an image with a lower-case subtype is removed; anything else is
      left as it is. */
  function StripDataUri(s: string): (r: string)
    ensures r != s ==> StartsWith(s, "data:image/") && EndsWith(s, r)
  {
    if StartsWith(s, "data:image/") then
      var rest := s[11..];
      var n := |LetterRun(rest)|;
      if n > 0 && StartsWith(rest[n..], ";base64,") then
        assert s[|s| - |rest[n + 8..]|..] == rest[n + 8..];
        rest[n + 8..]
      else s
    else s
  }

  /** The data URI of an image with a lower-case subtype (png, jpeg, webp,
      …) is stripped back to the bare base64 text. */
  lemma {:induction false} StripImageUri(sub: string, b64: string)
    requires sub != [] && forall i :: 0 <= i < |sub| ==> IsLowerLetter(sub[i])
    ensures StripDataUri(DataUri(Upload("image/" + sub, b64))) == b64
  {
    var tail := ";base64," + b64;
    var s := DataUri(Upload("image/" + sub, b64));
    AppendAssoc("data:", "image/", sub);
    assert "data:" + "image/" == "data:image/";
    AppendAssoc("data:image/" + sub, ";base64,", b64);
    AppendAssoc("data:image/", sub, tail);
    assert s == "data:image/" + (sub + tail);
    assert StartsWith(s, "data:image/") && s[11..] == sub + tail;
    LetterRunOf(sub, tail);
    assert (sub + tail)[|sub|..] == tail;
    assert tail[..8] == ";base64," && tail[8..] == b64;
  }

  lemma {:induction false} LetterRunOf(w: string, tail: string)
    requires forall i :: 0 <= i < |w| ==> IsLowerLetter(w[i])
    requires tail == [] || !IsLowerLetter(tail[0])
    ensures LetterRun(w + tail) == w
    decreases |w|
  {
    if w != [] {
      assert (w + tail)[1..] == w[1..] + tail;
      LetterRunOf(w[1..], tail);
      assert [w[0]] + w[1..] == w;
    } else {
      assert w + tail == tail;
    }
  }

  // ---------------------------------------------------------------------
  // Aspect ratio and endpoint

  /** Ratios with a fixed Kling aspect ratio. */
  const RatioTable: map<string, string> :=
    map["1280:720" := "16:9", "1920:1080" := "16:9", "720:1280" := "9:16", "1080:1920" := "9:16",
        "960:960" := "1:1", "768:1280" := "9:16", "832:1104" := "3:4"]

  const LandscapeVariants: set<string> := {"1280:768", "1104:832", "1584:672"}

  /** The Kling aspect ratio for a `w:h` ratio: the table first, then the
      listed landscape variants, then the quotient w/h (above 1.5 is 16:9,
      below 0.6 is 9:16, otherwise 1:1); when either side does not read
      as a non-zero number (`number` is JavaScript's `Number`, `None` for
      NaN) it stays 16:9. */
  function Aspect(ratio: string, number: string -> Option<real>): (r: string)
    ensures r in {"16:9", "9:16", "1:1", "3:4"}
    ensures ratio in RatioTable ==> r == RatioTable[ratio]
    ensures ratio !in RatioTable && ratio in LandscapeVariants ==> r == "16:9"
    ensures r == "3:4" <==> ratio == "832:1104"
    ensures |Split(ratio, ":")| < 2 ==> r == "16:9" || ratio in RatioTable
  {
    if ratio in RatioTable then RatioTable[ratio]
    else if ratio in LandscapeVariants then "16:9"
    else
      var parts := Split(ratio, ":");
      var w := number(parts[0]);
      var h := if |parts| > 1 then number(parts[1]) else None;
      if w.Some? && w.value != 0.0 && h.Some? && h.value != 0.0 then
        Quotient(w.value / h.value)
      else "16:9"
  }

  function Quotient(a: real): (r: string)
    ensures r == "16:9" <==> a > 1.5
    ensures r == "9:16" <==> a < 0.6
    ensures r == "1:1" <==> 0.6 <= a <= 1.5
  {
    if a > 1.5 then "16:9" else if a < 0.6 then "9:16" else "1:1"
  }

  /** A plain `W:H` ratio outside the tables is classified by W/H, when
      `Number` reads a numeral as its value. */
  lemma {:induction false} PlainRatioAspect(w: nat, h: nat, number: string -> Option<real>)
    requires w > 0 && h > 0
    requires number(Show(w)) == Some(w as real) && number(Show(h)) == Some(h as real)
    requires Show(w) + ":" + Show(h) !in RatioTable
    requires Show(w) + ":" + Show(h) !in LandscapeVariants
    ensures Aspect(Show(w) + ":" + Show(h), number) == Quotient((w as real) / (h as real))
  {
    var parts := [Show(w), Show(h)];
    assert Join(parts, [':']) == Show(w) + ":" + Show(h) by {
      JoinCons(Show(w), [Show(h)], [':']);
    }
    assert forall i, j :: 0 <= i < |parts| && 0 <= j < |parts[i]| ==> parts[i][j] != ':' by {
      forall i, j | 0 <= i < |parts| && 0 <= j < |parts[i]|
        ensures parts[i][j] != ':'
      {
        assert IsDigit(parts[i][j]);
      }
    }
    SplitJoinChar(parts, ':');
  }

  /** The Kling endpoint a job goes to; status requests use the same one. */
  datatype Endpoint = Text2Video | Image2Video

  /** kling_t2v always goes to text2video; any other model goes to
      image2video exactly when there is a start image. */
  function ChooseEndpoint(model: string, hasImage: bool): (r: Endpoint)
    ensures r == Image2Video <==> model != "kling_t2v" && hasImage
  {
    if model == "kling_t2v" then Text2Video
    else if model == "kling_i2v" && hasImage then Image2Video
    else if hasImage then Image2Video
    else Text2Video
  }

  /** The task body sent to Kling (mode "pro" is constant). */
  datatype Request = Request(endpoint: Endpoint, prompt: string, duration: int, aspect: string,
                             image: Option<string>, tail: Option<string>)

  /** The request for a form, or the 400 for a missing prompt or model. */
  function PlanRequest(f: Form, number: string -> Option<real>): (r: Result<Request, nat>)
    ensures r.Err? <==> f.prompt.None? || f.prompt.value == "" || f.model.None? || f.model.value == ""
    ensures r.Err? ==> r.error == 400
    ensures r.Ok? ==>
      r.value.prompt == f.prompt.value &&
      r.value.duration == Runway.RequestedDuration(f.duration) &&
      r.value.aspect == Aspect(if f.ratio.None? || f.ratio.value == "" then "16:9" else f.ratio.value, number) &&
      (r.value.image.Some? <==> StartImage(f).Some?) &&
      (r.value.image.Some? ==> r.value.image.value == StripDataUri(StartImage(f).value)) &&
      (r.value.tail.Some? <==> f.endFrame.Some?) &&
      (r.value.tail.Some? ==> r.value.tail.value == StripDataUri(DataUri(f.endFrame.value))) &&
      r.value.endpoint == ChooseEndpoint(f.model.value, StartImage(f).Some?)
  {
    if f.prompt.None? || f.prompt.value == "" || f.model.None? || f.model.value == "" then Err(400)
    else
      var start := StartImage(f);
      var ratio := if f.ratio.None? || f.ratio.value == "" then "16:9" else f.ratio.value;
      Ok(Request(ChooseEndpoint(f.model.value, start.Some?), f.prompt.value,
                 Runway.RequestedDuration(f.duration), Aspect(ratio, number),
                 if start.Some? then Some(StripDataUri(start.value)) else None,
                 if f.endFrame.Some? then Some(StripDataUri(DataUri(f.endFrame.value))) else None))
  }

  // ---------------------------------------------------------------------
  // Task creation and polling

  /** The answer to the creation request: a non-OK status, a body that is
      not JSON, or the parsed `code` and `data.task_id`. */
  datatype Created = CreateRefused | CreateGarbled | CreateBody(code: Option<Json>, taskId: Option<Json>)

  /** A task exists only when `code` is 0 and `task_id` is truthy. */
  predicate Accepted(c: Created)
  {
    c.CreateBody? && c.code == Some(JNum(0.0)) && TruthyField(c.taskId)
  }

  /** The answer to one status request: a non-OK status (skipped), a body
      that is not JSON (thrown), "succeed" with the first video's URL if
      any, "failed", or still running. */
  datatype Status = NotOk | Garbled | Succeed(url: Option<string>) | Failed | Running

  const MaxAttempts := 60

  datatype Polled = Video(url: string) | Broken | TaskFailed | TimedOut

  /** The end of polling from poll `i` on: skipped answers and a success
      without a URL keep polling; a success with a URL, a failure or an
      unreadable answer stop; after 60 polls it times out. */
  function PollFrom(poll: nat -> Status, i: nat): Polled
    decreases MaxAttempts - i
  {
    if i >= MaxAttempts then TimedOut
    else match poll(i)
      case Succeed(url) => if url.Some? && url.value != "" then Video(url.value) else PollFrom(poll, i + 1)
      case Failed => TaskFailed
      case Garbled => Broken
      case _ => PollFrom(poll, i + 1)
  }

  /** The polling loop; `polls` is the number of status requests made. */
  method Poll(poll: nat -> Status) returns (outcome: Polled, polls: nat)
    ensures outcome == PollFrom(poll, 0)
    ensures polls <= MaxAttempts
    ensures outcome.Video? ==> outcome.url != ""
  {
    var attempts := 0;
    var videoUrl: Option<string> := None;
    while attempts < MaxAttempts
      invariant attempts <= MaxAttempts
      invariant PollFrom(poll, attempts) == PollFrom(poll, 0)
    {
      var answer := poll(attempts);
      attempts := attempts + 1;
      match answer {
        case Succeed(url) =>
          videoUrl := url;
          if url.Some? && url.value != "" {
            return Video(url.value), attempts;
          }
        case Failed =>
          return TaskFailed, attempts;
        case Garbled =>
          return Broken, attempts;
        case _ =>
      }
    }
    return TimedOut, attempts;
  }

  /** Polls that are skipped, still running, or report success without a
      URL change nothing: polling goes on as if they had not happened. */
  lemma {:induction false} SkippedPolls(poll: nat -> Status, i: nat)
    requires i <= MaxAttempts
    requires forall k :: 0 <= k < i ==> Pending(poll(k))
    ensures PollFrom(poll, 0) == PollFrom(poll, i)
  {
    if i > 0 {
      SkippedPolls(poll, i - 1);
      assert Pending(poll(i - 1));
    }
  }

  /** An answer after which polling continues. */
  predicate Pending(s: Status)
  {
    s.NotOk? || s.Running? || (s.Succeed? && (s.url.None? || s.url.value == ""))
  }

  // ---------------------------------------------------------------------
  // The response

  /** POST, given the signed-in user, whether the Kling keys are set,
      `Number`, the creation answer and the status answers. Every failure
      after the keys are read refunds 50 and answers 500. */
  method Generate(signedIn: bool, configured: bool, f: Form, number: string -> Option<real>,
                  create: Request -> Created, poll: nat -> Status)
    returns (r: Runway.Reply)
    ensures !signedIn ==> r == Runway.Reply(401, None, 0)
    ensures signedIn && PlanRequest(f, number).Err? ==> r == Runway.Reply(400, None, 0)
    ensures signedIn && PlanRequest(f, number).Ok? && !configured ==> r == Runway.Reply(500, None, 0)
    ensures r.status == 200 <==>
      (signedIn && configured && PlanRequest(f, number).Ok? &&
       Accepted(create(PlanRequest(f, number).value)) && PollFrom(poll, 0).Video?)
    ensures r.status == 200 ==> r == Runway.Reply(200, Some(PollFrom(poll, 0).url), 0)
    ensures r.refunded != 0 ==> r == Runway.Reply(500, None, 50)
  {
    if !signedIn {
      return Runway.Reply(401, None, 0);
    }
    var plan := PlanRequest(f, number);
    if plan.Err? {
      return Runway.Reply(400, None, 0);
    }
    if !configured {
      return Runway.Reply(500, None, 0);
    }
    var created := create(plan.value);
    if !Accepted(created) {
      return Runway.Reply(500, None, RefundAmount(f.model.value));
    }
    var outcome, _ := Poll(poll);
    if !outcome.Video? {
      return Runway.Reply(500, None, RefundAmount(f.model.value));
    }
    return Runway.Reply(200, Some(outcome.url), 0);
  }
}
