/** The video page (app/video-mode/page.tsx): the effect that keeps the
    ratio and duration compatible with the chosen model, the checks made
    before any credits are taken, the price table, and the form sent to
    the Runway or Kling route. Rendering, progress timers, local storage
    and the credit service are left out. */
module VideoMode {
  import opened Wrappers
  import opened Strings
  import opened Numbers
  import Runway
  import Kling

  const VeoModels: set<string> := {"veo3", "veo3.1", "veo3.1_fast"}
  const VeoRatios: seq<string> := ["720:1280", "1280:720", "1080:1920", "1920:1080"]
  const Gen3aRatios: seq<string> := ["1280:768", "768:1280"]
  const KlingModels: set<string> := {"kling_i2v", "kling_t2v", "kling_lipsync", "kling_avatar"}
  const KlingRatios: seq<string> := ["1280:720", "720:1280", "960:960"]

  /** The three values the compatibility effect reads and sets. */
  datatype Settings = Settings(model: string, ratio: string, duration: nat)

  lemma {:induction false} TrimEmpty()
    ensures Trim("") == ""
  {
  }

  /** The settings after the compatibility effect: VEO models get a
      portrait 720:1280 unless the ratio is one of their four, veo3.1 and
      veo3.1_fast a duration of 6 unless it is 4, 6 or 8, veo3 a duration
      of 8; gen3a_turbo gets 768:1280 unless the ratio is one of its two and
      5 seconds unless it has 5 or 10; gen4_turbo 5 seconds unless it has
      2, 5 or 10; Kling models 720:1280 unless the ratio is one of their
      three. Anything already compatible is kept. */
  function Compatible(s: Settings): (r: Settings)
    ensures r.model == s.model
    ensures s.model in VeoModels ==>
      r.ratio in VeoRatios && (s.ratio in VeoRatios ==> r.ratio == s.ratio) &&
      (s.model == "veo3" ==> r.duration == 8) &&
      (s.model != "veo3" ==> r.duration in {4, 6, 8} && (s.duration in {4, 6, 8} ==> r.duration == s.duration))
    ensures s.model == "gen3a_turbo" ==>
      r.ratio in Gen3aRatios && (s.ratio in Gen3aRatios ==> r.ratio == s.ratio) &&
      r.duration in {5, 10} && (s.duration in {5, 10} ==> r.duration == s.duration)
    ensures s.model == "gen4_turbo" ==>
      r.ratio == s.ratio && r.duration in {2, 5, 10} && (s.duration in {2, 5, 10} ==> r.duration == s.duration)
    ensures s.model in KlingModels ==>
      r.duration == s.duration && r.ratio in KlingRatios && (s.ratio in KlingRatios ==> r.ratio == s.ratio)
    ensures s.model !in VeoModels + KlingModels + {"gen3a_turbo", "gen4_turbo"} ==> r == s
  {
    var m := s.model;
    if m in VeoModels then
      Settings(m, if s.ratio in VeoRatios then s.ratio else "720:1280",
               if m == "veo3" then 8 else if s.duration in {4, 6, 8} then s.duration else 6)
    else if m == "gen3a_turbo" then
      Settings(m, if s.ratio in Gen3aRatios then s.ratio else "768:1280",
               if s.duration in {5, 10} then s.duration else 5)
    else if m == "gen4_turbo" then
      Settings(m, s.ratio, if s.duration in {2, 5, 10} then s.duration else 5)
    else if m in KlingModels then
      Settings(m, if s.ratio in KlingRatios then s.ratio else "720:1280", s.duration)
    else s
  }

  /** The effect settles after one run: running it again on what it set
      changes nothing. */
  lemma {:induction false} CompatibleSettles(s: Settings)
    ensures Compatible(Compatible(s)) == Compatible(s)
  {
    var r := Compatible(s);
    if s.model in VeoModels {
      assert r.ratio in VeoRatios;
    } else if s.model == "gen3a_turbo" {
      assert r.ratio in Gen3aRatios;
    } else if s.model in KlingModels {
      assert r.ratio in KlingRatios;
    }
  }

  /** The durations the page settles on are the ones the Runway route
      keeps: its own normalisation leaves them unchanged. */
  lemma {:induction false} RunwayKeepsDuration(s: Settings)
    ensures var r := Compatible(s);
      (r.model == "gen4_turbo" ==> Runway.Gen4Duration(r.duration) == r.duration) &&
      (r.model == "gen3a_turbo" ==> Runway.Gen3aDuration(r.duration) == r.duration) &&
      (r.model in VeoModels ==> Runway.VeoDuration(r.model, r.duration) == r.duration)
  {
  }

  /** The page state the effect works on. */
  class VideoModePage {
    var model: string
    var ratio: string
    var duration: nat

    constructor()
      ensures model == "gen4_turbo" && ratio == "1280:720" && duration == 5
    {
      model := "gen4_turbo";
      ratio := "1280:720";
      duration := 5;
    }

    /** One run of the compatibility effect, setter by setter. */
    method AdjustForModel()
      modifies this
      ensures Settings(model, ratio, duration) == Compatible(old(Settings(model, ratio, duration)))
    {
      var d := duration;
      if model == "veo3" || model == "veo3.1" || model == "veo3.1_fast" {
        if ratio !in VeoRatios {
          ratio := "720:1280";
        }
        if (model == "veo3.1" || model == "veo3.1_fast") && d !in {4, 6, 8} {
          duration := 6;
        }
        if model == "veo3" && d != 8 {
          duration := 8;
        }
      } else if model == "gen3a_turbo" {
        if ratio !in Gen3aRatios {
          ratio := "768:1280";
        }
        if d !in {5, 10} {
          duration := 5;
        }
      } else if model == "gen4_turbo" {
        if d !in {2, 5, 10} {
          duration := 5;
        }
      } else if model in KlingModels {
        if ratio !in KlingRatios {
          ratio := "720:1280";
        }
      }
    }
  }

  // ---------------------------------------------------------------------
  // Before the credit call

  /** The files the user has chosen, and whether someone is signed in. */
  datatype Inputs = Inputs(prompt: string, image: Option<Kling.Upload>, character: bool, reference: bool,
                           startFrame: Option<Kling.Upload>, endFrame: Option<Kling.Upload>, signedIn: bool)

  /** The message that stops generation before any credits are taken, or
      `None` when the request goes ahead: a blank prompt, gen4_turbo or
      gen3a_turbo without an image, act_two without a character, kling_i2v
      with neither a start frame nor an image, nobody signed in. */
  function PreCheck(model: string, x: Inputs): (r: Option<string>)
    ensures r.None? <==>
      Trim(x.prompt) != "" &&
      (model in {"gen4_turbo", "gen3a_turbo"} ==> x.image.Some?) &&
      (model == "act_two" ==> x.character) &&
      (model == "kling_i2v" ==> x.startFrame.Some? || x.image.Some?) &&
      x.signedIn
  {
    if Trim(x.prompt) == "" then Some("Please enter a prompt for video generation")
    else if model in {"gen4_turbo", "gen3a_turbo"} && x.image.None? then Some(model + " requires an image input")
    else if model == "act_two" && !x.character then Some("Act Two requires a character image")
    else if model == "kling_i2v" && x.startFrame.None? && x.image.None? then
      Some("Kling I2V requires at least a start frame or image")
    else if !x.signedIn then Some("Please log in to generate videos")
    else None
  }

  /** The credits taken before the request. */
  const VideoCredits: map<string, nat> :=
    map["gen4_turbo" := 40, "gen3a_turbo" := 80, "veo3.1" := 320, "veo3.1_fast" := 160, "veo3" := 512,
        "gen4_aleph" := 120, "act_two" := 40, "kling_t2v" := 50, "kling_i2v" := 50,
        "kling_lipsync" := 50, "kling_avatar" := 50]

  /** `videoCredits[model] || 40`. */
  function RequiredCredits(model: string): (r: nat)
    ensures model in VideoCredits ==> r == VideoCredits[model]
    ensures model !in VideoCredits ==> r == 40
  {
    if model in VideoCredits && VideoCredits[model] != 0 then VideoCredits[model] else 40
  }

  /** A failed generation gives back what the page took: the Runway
      route's refund table and the Kling route's flat 50 agree with the
      page's prices on every model the page offers. */
  lemma {:induction false} RefundMatchesCharge(model: string)
    requires model in VideoCredits
    ensures model in KlingModels ==> Kling.RefundAmount(model) == RequiredCredits(model)
    ensures model !in KlingModels ==> Runway.RefundAmount(model) == RequiredCredits(model)
  {
  }

  /** The route a model's request goes to. */
  datatype Route = RunwayRoute | KlingRoute

  function RouteFor(model: string): (r: Route)
    ensures r == KlingRoute <==> StartsWith(model, "kling")
  {
    if StartsWith(model, "kling") then KlingRoute else RunwayRoute
  }

  // ---------------------------------------------------------------------
  // The form sent

  /** The form for the Runway route: the prompt, model, duration and ratio,
      the character and reference for act_two, and the image for any
      other model. */
  function RunwayForm(s: Settings, x: Inputs): (f: Runway.Form)
    ensures f.prompt == Some(x.prompt) && f.model == Some(s.model) && f.ratio == Some(s.ratio)
    ensures f.duration == Some(Show(s.duration))
    ensures f.hasImage <==> s.model != "act_two" && s.model != "kling_i2v" && x.image.Some?
    ensures f.hasCharacter <==> s.model == "act_two" && x.character
  {
    var other := s.model != "act_two" && s.model != "kling_i2v";
    Runway.Form(Some(x.prompt), Some(s.model), Some(Show(s.duration)),
                other && x.image.Some?, s.model == "act_two" && x.character,
                s.model == "act_two" && x.reference, Some(s.ratio))
  }

  /** A request that passes the page's checks after the effect has run is
      accepted by the Runway route for every model the route supports, and
      the clip gets the duration the page shows. */
  lemma {:induction false} RunwayAcceptsPage(s0: Settings, x: Inputs)
    requires Compatible(s0).model in VeoModels + {"gen4_turbo", "gen3a_turbo", "act_two"}
    requires PreCheck(Compatible(s0).model, x).None?
    ensures var s := Compatible(s0);
      var job := Runway.PlanJob(RunwayForm(s, x));
      job.Ok? && (s.model != "act_two" ==> job.value.seconds == s.duration)
  {
    var s := Compatible(s0);
    TrimEmpty();
    if s.model != "act_two" {
      assert s.duration != 0;
      ShowParseAuto(s.duration);
      assert Runway.RequestedDuration(Some(Show(s.duration))) == s.duration;
      RunwayKeepsDuration(s0);
    }
  }

  /** gen4_aleph is offered and charged 120 credits, but the Runway route
      answers 400 before its refund path, so nothing is given back. */
  lemma {:induction false} AlephChargedNotRefunded(s: Settings, x: Inputs)
    requires s.model == "gen4_aleph"
    ensures RequiredCredits(s.model) == 120
    ensures Runway.PlanJob(RunwayForm(s, x)) == Err(400)
  {
  }

  /** The form for the Kling route as written: kling_i2v sends only its
      start and end frames, any other Kling model only the image. */
  function KlingFormAsWritten(s: Settings, x: Inputs): (f: Kling.Form)
    ensures s.model == "kling_i2v" ==> f.file.None? && f.startFrame == x.startFrame && f.endFrame == x.endFrame
    ensures s.model != "kling_i2v" ==> f.file == x.image && f.startFrame.None? && f.endFrame.None?
  {
    if s.model == "kling_i2v" then
      Kling.Form(Some(x.prompt), Some(s.model), Some(Show(s.duration)), None, x.startFrame, x.endFrame, Some(s.ratio))
    else
      Kling.Form(Some(x.prompt), Some(s.model), Some(Show(s.duration)), x.image, None, None, Some(s.ratio))
  }

  /** The check lets kling_i2v through with an image and no start frame,
      but that image is not sent, so the route makes a text-to-video
      task. */
  lemma {:induction false} KlingImageDropped(s: Settings, x: Inputs, number: string -> Option<real>)
    requires s.model == "kling_i2v" && x.startFrame.None? && x.image.Some?
    requires PreCheck(s.model, x).None?
    ensures Kling.PlanRequest(KlingFormAsWritten(s, x), number).Ok?
    ensures Kling.PlanRequest(KlingFormAsWritten(s, x), number).value.endpoint == Kling.Text2Video
  {
    TrimEmpty();
  }

  /** The form for the Kling route, sending the image as `file` as well,
      so that the route falls back to it when there is no start frame. */
  function KlingForm(s: Settings, x: Inputs): (f: Kling.Form)
    ensures f.file == x.image
    ensures s.model == "kling_i2v" ==> f.startFrame == x.startFrame && f.endFrame == x.endFrame
    ensures s.model != "kling_i2v" ==> f.startFrame.None? && f.endFrame.None?
  {
    Kling.Form(Some(x.prompt), Some(s.model), Some(Show(s.duration)), x.image,
               if s.model == "kling_i2v" then x.startFrame else None,
               if s.model == "kling_i2v" then x.endFrame else None, Some(s.ratio))
  }

  /** A kling_i2v request that passes the check always becomes an
      image-to-video task, and every Kling request keeps the ratio the
      effect chose, read through Kling's table. */
  lemma {:induction false} KlingAcceptsPage(s0: Settings, x: Inputs, number: string -> Option<real>)
    requires Compatible(s0).model in KlingModels
    requires PreCheck(Compatible(s0).model, x).None?
    ensures var s := Compatible(s0);
      var req := Kling.PlanRequest(KlingForm(s, x), number);
      req.Ok? &&
      (s.model == "kling_i2v" ==> req.value.endpoint == Kling.Image2Video) &&
      req.value.aspect == Kling.RatioTable[s.ratio]
  {
    var s := Compatible(s0);
    TrimEmpty();
    assert s.ratio in Kling.RatioTable by {
      assert s.ratio in KlingRatios;
    }
  }
}
