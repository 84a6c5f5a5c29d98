/** The RunwayML video endpoint (app/api/runway/route.ts): validation of
    the form, the per-model duration and aspect-ratio rules, the polling
    loop with its throttle counter, and the refund and status on failure.
    The sign-in service, the RunwayML client (task creation and status)
    and the refund call are parameters; the five-second wait between polls
    is left out. */
module Runway {
  import opened Wrappers
  import opened Strings
  import opened Numbers

  /** The credits each model costs, refunded when generation fails. */
  const VideoCredits: map<string, nat> :=
    map["gen4_turbo" := 40, "gen3a_turbo" := 80, "veo3.1" := 320, "veo3.1_fast" := 160,
        "veo3" := 512, "gen4_aleph" := 120, "act_two" := 40]

  /** `VIDEO_CREDITS[model] || 40`. */
  function RefundAmount(model: string): (r: nat)
    ensures r > 0
    ensures model !in VideoCredits ==> r == 40
    ensures model in VideoCredits ==> r == VideoCredits[model]
  {
    if model in VideoCredits && VideoCredits[model] != 0 then VideoCredits[model] else 40
  }

  // ---------------------------------------------------------------------
  // The form

  /** The form fields; a file field is only present or absent here. */
  datatype Form = Form(prompt: Option<string>, model: Option<string>, duration: Option<string>,
                       hasImage: bool, hasCharacter: bool, hasReference: bool, ratio: Option<string>)

  /** `parseInt(duration) || 5`, with no radix: a missing, unreadable or
      zero duration is 5, a numeral reads as its value and a `0x` numeral
      as its hexadecimal value. */
  function RequestedDuration(d: Option<string>): (r: int)
    ensures r != 0
    ensures d.None? ==> r == 5
    ensures d.Some? && ParseIntAuto(d.value).Some? && ParseIntAuto(d.value).value != 0 ==> r == ParseIntAuto(d.value).value
    ensures d.Some? && (ParseIntAuto(d.value).None? || ParseIntAuto(d.value) == Some(0)) ==> r == 5
  {
    if d.None? then 5
    else match ParseIntAuto(d.value)
      case None => 5
      case Some(n) => if n == 0 then 5 else n
  }

  /** `ratio || '768:1280'`. */
  function RequestedRatio(r: Option<string>): string
  {
    if r.None? || r.value == "" then "768:1280" else r.value
  }

  /** gen3a_turbo takes 10 seconds when asked for 10 and 5 otherwise. */
  function Gen3aDuration(d: int): (r: int)
    ensures r in {5, 10} && (r == 10 <==> d == 10)
  {
    if d == 10 then 10 else 5
  }

  /** gen4_turbo clamps to [2, 10]. */
  function Gen4Duration(d: int): (r: int)
    ensures 2 <= r <= 10
    ensures 2 <= d <= 10 ==> r == d
    ensures d < 2 ==> r == 2
    ensures d > 10 ==> r == 10
  {
    if d < 2 then 2 else if d > 10 then 10 else d
  }

  /** veo3 always runs 8 seconds; veo3.1 and veo3.1_fast keep 4, 6 or 8
      and take 6 otherwise. */
  function VeoDuration(model: string, d: int): (r: int)
    ensures model == "veo3" ==> r == 8
    ensures model != "veo3" ==> r in {4, 6, 8} && (d in {4, 6, 8} ==> r == d)
  {
    if model == "veo3" then 8 else if d in {4, 6, 8} then d else 6
  }

  /** VEO models read width and height the other way round: the four
      listed ratios are swapped, any other ratio is passed as it is. */
  function VeoRatio(r: string): string
  {
    if r == "1280:720" then "720:1280"
    else if r == "720:1280" then "1280:720"
    else if r == "1920:1080" then "1080:1920"
    else if r == "1080:1920" then "1920:1080"
    else r
  }

  /** Swapping twice gives the ratio back. */
  lemma {:induction false} VeoRatioInvolution(r: string)
    ensures VeoRatio(VeoRatio(r)) == r
    ensures VeoRatio(r) != r <==> r in {"1280:720", "720:1280", "1920:1080", "1080:1920"}
  {
    assert "1280:720" != "720:1280" && "1920:1080" != "1080:1920";
    assert "1280:720"[0] != "1920:1080"[1] && "720:1280"[0] != "1080:1920"[0];
  }

  /** The generation job sent to RunwayML. */
  datatype Job =
    | ImageToVideo(model: string, seconds: int, ratio: string)
    | TextToVideo(model: string, seconds: int, ratio: string)
    | ActTwo(referenceIsVideo: bool, ratio: string)

  /** The job for a form, or the 400 the route answers before creating
      anything: no prompt, no model, an image model without an image,
      act_two without a character, gen4_aleph, an unknown model. */
  function PlanJob(f: Form): (r: Result<Job, nat>)
    ensures r.Err? ==> r.error == 400
    ensures f.prompt.None? || f.prompt.value == "" || f.model.None? || f.model.value == "" ==> r.Err?
    ensures r.Ok? ==> f.model.Some? && f.model.value in VideoCredits - {"gen4_aleph"}
    ensures r.Ok? && f.model.value in {"gen4_turbo", "gen3a_turbo"} ==>
      f.hasImage && r.value.ImageToVideo? && r.value.ratio == RequestedRatio(f.ratio)
    ensures r.Ok? && f.model.value == "gen4_turbo" ==> 2 <= r.value.seconds <= 10
    ensures r.Ok? && f.model.value == "gen3a_turbo" ==> r.value.seconds in {5, 10}
    ensures r.Ok? && f.model.value in {"veo3", "veo3.1", "veo3.1_fast"} ==>
      (r.value.ImageToVideo? <==> f.hasImage) && !r.value.ActTwo? &&
      r.value.ratio == VeoRatio(RequestedRatio(f.ratio)) && r.value.seconds in {4, 6, 8}
    ensures r.Ok? && f.model.value == "act_two" ==>
      f.hasCharacter && r.value == ActTwo(f.hasReference, RequestedRatio(f.ratio))
  {
    if f.prompt.None? || f.prompt.value == "" || f.model.None? || f.model.value == "" then Err(400)
    else
      var m := f.model.value;
      var d := RequestedDuration(f.duration);
      var ratio := RequestedRatio(f.ratio);
      if m == "gen4_turbo" || m == "gen3a_turbo" then
        if !f.hasImage then Err(400)
        else Ok(ImageToVideo(m, if m == "gen3a_turbo" then Gen3aDuration(d) else Gen4Duration(d), ratio))
      else if m == "veo3.1" || m == "veo3.1_fast" || m == "veo3" then
        if f.hasImage then Ok(ImageToVideo(m, VeoDuration(m, d), VeoRatio(ratio)))
        else Ok(TextToVideo(m, VeoDuration(m, d), VeoRatio(ratio)))
      else if m == "act_two" then
        if !f.hasCharacter then Err(400) else Ok(ActTwo(f.hasReference, ratio))
      else Err(400)
  }

  // ---------------------------------------------------------------------
  // Polling

  /** What one status request reports. */
  datatype TaskStatus = Succeeded(output: seq<string>) | Failed(failure: string) | Throttled | Busy

  /** How polling ends. */
  datatype Polled = Video(url: string) | TaskFailed(failure: string) | ThrottledOut | TimedOut

  const MaxThrottled := 60

  /** The message of the error polling throws. */
  function Message(p: Polled): string
  {
    match p
    case Video(_) => ""
    case TaskFailed(why) => "Video generation failed: " + (if why == "" then "Unknown error" else why)
    case ThrottledOut => "Video generation is temporarily unavailable due to high demand. Please try again in a few minutes."
    case TimedOut => "Video generation took too long and timed out. Please try again."
  }

  /** Polls allowed: 600 for VEO models, 240 for the others. */
  function MaxAttempts(model: string): nat
  {
    if StartsWith(model, "veo") then 600 else 240
  }

  /** The number of consecutive THROTTLED answers just before poll `n`. */
  function ThrottleRun(status: nat -> TaskStatus, n: nat): (r: nat)
    ensures r <= n
  {
    if n == 0 || !status(n - 1).Throttled? then 0 else ThrottleRun(status, n - 1) + 1
  }

  /** The end of polling from poll `i` on, `status(k)` being the answer to
      poll `k`: the first success, failure, or 60th throttled answer in a
      row decides; a success without an output and running out of polls
      both time out. */
  function PollFrom(status: nat -> TaskStatus, i: nat, max: nat): Polled
    decreases max - i
  {
    if i >= max then TimedOut
    else match status(i)
      case Succeeded(out) => if out != [] && out[0] != "" then Video(out[0]) else TimedOut
      case Failed(why) => TaskFailed(why)
      case Throttled => if ThrottleRun(status, i + 1) >= MaxThrottled then ThrottledOut
                        else PollFrom(status, i + 1, max)
      case Busy => PollFrom(status, i + 1, max)
  }

  /** The polling loop; `polls` is the number of status requests made. */
  method Poll(model: string, status: nat -> TaskStatus) returns (outcome: Polled, polls: nat)
    ensures outcome == PollFrom(status, 0, MaxAttempts(model))
    ensures polls <= MaxAttempts(model)
  {
    var max := MaxAttempts(model);
    var attempts := 0;
    var throttled := 0;
    while attempts < max
      invariant attempts <= max
      invariant throttled == ThrottleRun(status, attempts)
      invariant PollFrom(status, attempts, max) == PollFrom(status, 0, max)
    {
      var task := status(attempts);
      match task {
        case Succeeded(out) =>
          if out != [] && out[0] != "" {
            return Video(out[0]), attempts + 1;
          }
          return TimedOut, attempts + 1;
        case Failed(why) =>
          return TaskFailed(why), attempts + 1;
        case Throttled =>
          throttled := throttled + 1;
          if throttled >= MaxThrottled {
            return ThrottledOut, attempts + 1;
          }
        case Busy =>
          throttled := 0;
      }
      attempts := attempts + 1;
    }
    return TimedOut, attempts;
  }

  /** Poll `j` is the 60th throttled answer in a row. */
  predicate ThrottledOutAt(status: nat -> TaskStatus, j: nat)
  {
    ThrottleRun(status, j + 1) >= MaxThrottled
  }

  /** Giving up on throttling needs 60 throttled answers in a row. */
  lemma {:induction false} ThrottledOutNeedsRun(status: nat -> TaskStatus, i: nat, max: nat)
    requires PollFrom(status, i, max) == ThrottledOut
    ensures exists j :: i <= j < max && ThrottledOutAt(status, j)
    decreases max - i
  {
    if status(i).Throttled? && ThrottleRun(status, i + 1) < MaxThrottled {
      ThrottledOutNeedsRun(status, i + 1, max);
    } else if status(i).Busy? {
      ThrottledOutNeedsRun(status, i + 1, max);
    } else if status(i).Throttled? {
      assert ThrottledOutAt(status, i);
    } else {
      assert false;
    }
  }

  /** A task that is never done and never throttled times out. */
  lemma {:induction false} BusyTimesOut(status: nat -> TaskStatus, i: nat, max: nat)
    requires forall k :: status(k) == Busy
    ensures PollFrom(status, i, max) == TimedOut
    decreases max - i
  {
    if i < max {
      BusyTimesOut(status, i + 1, max);
    }
  }

  // ---------------------------------------------------------------------
  // The response

  /** The answer: `refunded` is the amount refunded (0 when the path makes
      no refund). */
  datatype Reply = Reply(status: nat, url: Option<string>, refunded: nat)

  const CreditsError := "You do not have enough credits"

  /** An error inside the generation block: every such error refunds the
      model's price; RunwayML's own credit shortage is 402, anything else
      500. */
  function Failure(model: string, message: string): (r: Reply)
    ensures r.refunded == RefundAmount(model) && r.url.None?
    ensures r.status == 402 <==> Contains(message, CreditsError)
    ensures r.status in {402, 500}
  {
    Reply(if Contains(message, CreditsError) then 402 else 500, None, RefundAmount(model))
  }

  /** The prompt and the model are both given: the two checks the route
      makes before it builds the RunwayML client. */
  predicate Named(f: Form)
  {
    f.prompt.Some? && f.prompt.value != "" && f.model.Some? && f.model.value != ""
  }

  /** POST, given the signed-in user, whether the RunwayML key is set, the
      task creation (the task id, or the error message it throws) and the
      status answers. The client is built right after the prompt and model
      checks, so a missing key answers 500 (through the outer `catch`, with
      no refund) before any of the model-specific 400s. */
  method Generate(signedIn: bool, configured: bool, f: Form, create: Job -> Result<string, string>,
                  status: nat -> TaskStatus)
    returns (r: Reply)
    ensures !signedIn ==> r == Reply(401, None, 0)
    ensures signedIn && !Named(f) ==> r == Reply(400, None, 0)
    ensures signedIn && Named(f) && !configured ==> r == Reply(500, None, 0)
    ensures signedIn && configured && PlanJob(f).Err? ==> r == Reply(400, None, 0)
    ensures r.status == 200 <==>
      (signedIn && configured && PlanJob(f).Ok? && create(PlanJob(f).value).Ok? &&
       PollFrom(status, 0, MaxAttempts(f.model.value)).Video?)
    ensures r.status == 200 ==> r.url == Some(PollFrom(status, 0, MaxAttempts(f.model.value)).url) && r.refunded == 0
    ensures r.refunded != 0 ==> f.model.Some? && r.refunded == RefundAmount(f.model.value) && r.status in {402, 500}
  {
    if !signedIn {
      return Reply(401, None, 0);
    }
    if !Named(f) {
      return Reply(400, None, 0);
    }
    if !configured {
      return Reply(500, None, 0);
    }
    var plan := PlanJob(f);
    if plan.Err? {
      return Reply(400, None, 0);
    }
    var model := f.model.value;
    var created := create(plan.value);
    if created.Err? {
      return Failure(model, created.error);
    }
    var outcome, _ := Poll(model, status);
    if !outcome.Video? {
      return Failure(model, Message(outcome));
    }
    return Reply(200, Some(outcome.url), 0);
  }
}
