/** The Sora 2 video endpoint (app/api/openai/video/route.ts): the price
    of a clip, the validation of the form, the API-key lookup order, the
    model and request shape, the answer to the creation request, the
    polling loop, and which exits refund the price. The sign-in service,
    the key table, the image resize, OpenAI's HTTP answers (with the
    download and storage of a finished clip) and JavaScript's `Number`
    are parameters; the wait between polls is left out. */
module OpenAIVideo {
  import opened Wrappers
  import opened Strings
  import opened Json
  import opened Numbers
  import opened AIManager

  /** `Math.ceil(duration * 0.16)`, computed on exact rationals. */
  function Credits(d: int): (r: int)
    ensures 100 * (r - 1) < 16 * d <= 100 * r
    ensures d == 4 ==> r == 1
    ensures d == 8 || d == 12 ==> r == 2
  {
    if (16 * d) % 100 == 0 then (16 * d) / 100 else (16 * d) / 100 + 1
  }

  // ---------------------------------------------------------------------
  // The form

  datatype Form = Form(prompt: Option<string>, model: Option<string>, duration: Option<string>,
                       ratio: Option<string>, hasImage: bool, hasCameo: bool)

  /** `parseInt(duration) || 4`, with no radix, so a `0x` numeral is read
      in hexadecimal. */
  function RequestedDuration(d: Option<string>): (r: int)
    ensures r != 0
    ensures d.None? ==> r == 4
    ensures d.Some? && ParseIntAuto(d.value).Some? && ParseIntAuto(d.value).value != 0 ==> r == ParseIntAuto(d.value).value
    ensures d.Some? && (ParseIntAuto(d.value).None? || ParseIntAuto(d.value) == Some(0)) ==> r == 4
  {
    if d.None? then 4
    else match ParseIntAuto(d.value)
      case None => 4
      case Some(n) => if n == 0 then 4 else n
  }

  /** `ratio || '720:1280'`. */
  function RequestedRatio(r: Option<string>): string
  {
    if r.None? || r.value == "" then "720:1280" else r.value
  }

  const ValidRatios: seq<string> := ["720:1280", "1280:720"]

  /** Every way the route can end. */
  datatype Exit =
    | Unauthorized | NoPrompt | NotSora | BadDuration | BadRatio
    | NoKey | ResizeFailed | CreateFailed(code: nat) | CameoRejected | EndpointMissing
    | Unparsable | Crashed | StatusError(statusCode: nat) | PollBroken | DownloadFailed
    | GenerationFailed | TimedOut | NoUrl | Delivered(url: Json)

  /** The duration and ratio of a valid form, or the 400 exit: a missing
      prompt, a model other than sora2, a duration outside 4, 8, 12 or a
      ratio other than the two portrait/landscape sizes. */
  function Validate(f: Form): (r: Result<(int, string), Exit>)
    ensures r.Ok? <==>
      f.prompt.Some? && f.prompt.value != "" && f.model == Some("sora2") &&
      RequestedDuration(f.duration) in {4, 8, 12} && RequestedRatio(f.ratio) in ValidRatios
    ensures r.Ok? ==> r.value == (RequestedDuration(f.duration), RequestedRatio(f.ratio))
    ensures r.Err? ==> r.error in {NoPrompt, NotSora, BadDuration, BadRatio}
  {
    if f.prompt.None? || f.prompt.value == "" then Err(NoPrompt)
    else if f.model != Some("sora2") then Err(NotSora)
    else if RequestedDuration(f.duration) !in {4, 8, 12} then Err(BadDuration)
    else if RequestedRatio(f.ratio) !in ValidRatios then Err(BadRatio)
    else Ok((RequestedDuration(f.duration), RequestedRatio(f.ratio)))
  }

  /** `parseAspectRatio`: the two sides of `w:h` as `Number` reads them
      (`number`, `None` for NaN; a missing side is NaN). */
  function Dimensions(ratio: string, number: string -> Option<real>): (Option<real>, Option<real>)
  {
    var parts := Split(ratio, ":");
    (number(parts[0]), if |parts| > 1 then number(parts[1]) else None)
  }

  /** A ratio of two numerals gives the two numbers, width first. */
  lemma {:induction false} NumeralDimensions(w: nat, h: nat, number: string -> Option<real>)
    ensures Dimensions(Show(w) + ":" + Show(h), number) == (number(Show(w)), number(Show(h)))
  {
    NumeralSplit(Show(w), Show(h));
  }

  lemma {:induction false} NumeralSplit(a: string, b: string)
    requires AllDigits(a) && AllDigits(b)
    ensures Split(a + ":" + b, ":") == [a, b]
  {
    var parts := [a, b];
    JoinCons(a, [b], [':']);
    assert forall i, j :: 0 <= i < |parts| && 0 <= j < |parts[i]| ==> parts[i][j] != ':' by {
      forall i, j | 0 <= i < |parts| && 0 <= j < |parts[i]|
        ensures parts[i][j] != ':'
      {
        assert IsDigit(parts[i][j]);
      }
    }
    SplitJoinChar(parts, ':');
  }

  /** `getOpenAIApiKey` for a signed-in user: the active system-wide key,
      then the user's own active key, then the environment; a key counts
      only when it is non-empty. */
  function ApiKey(system: Option<string>, own: Option<string>, env: Option<string>): (r: Option<string>)
    ensures system.Some? && system.value != "" ==> r == system
    ensures !(system.Some? && system.value != "") && own.Some? && own.value != "" ==> r == own
    ensures r.None? <==>
      (system.None? || system.value == "") && (own.None? || own.value == "") && (env.None? || env.value == "")
    ensures r.Some? ==> r == system || r == own || r == env
  {
    if system.Some? && system.value != "" then system
    else if own.Some? && own.value != "" then own
    else if env.Some? && env.value != "" then env
    else None
  }

  /** What is sent to OpenAI: sora-2-pro exactly when a cameo video is
      attached; multipart form data when any file is attached, JSON
      otherwise. */
  datatype Request = Request(model: string, seconds: int, ratio: string, multipart: bool)

  function MakeRequest(f: Form, seconds: int, ratio: string): (r: Request)
    ensures r.model == (if f.hasCameo then "sora-2-pro" else "sora-2")
    ensures r.multipart <==> f.hasImage || f.hasCameo
    ensures !r.multipart ==> r.model == "sora-2"
  {
    Request(if f.hasCameo then "sora-2-pro" else "sora-2", seconds, ratio, f.hasImage || f.hasCameo)
  }

  // ---------------------------------------------------------------------
  // The creation answer

  /** The answer to the creation request: the request throws, a non-OK
      status with its parsed error body, an OK body that is not JSON, or
      the parsed body (an empty body reads as `{}`). A body of `null`
      parses, and the first property read on it then throws into the
      route's outer `catch`. */
  datatype Created = CreateUnreachable | CreateError(status: nat, body: Json) | CreateUnparsable | CreateBody(result: Json)

  /** An `unknown_parameter` error naming a cameo, video, character or
      reference parameter. */
  predicate UnknownMediaParameter(body: Json)
  {
    var e := Get(body, "error");
    e.Some? && Get(e.value, "code") == Some(JStr("unknown_parameter")) &&
    GetString(e.value, "param").Some? &&
    ContainsAny(GetString(e.value, "param").value, ["cameo", "video", "character", "reference"])
  }

  /** `video?.url`, the nested URL. */
  function NestedUrl(result: Json): Option<Json>
  {
    var v := Get(result, "video");
    if v.Some? then Get(v.value, "url") else None
  }

  /** The creation answer's URL: `video_url || url || video?.url || null`. */
  function VideoUrlOf(result: Json): (r: Option<Json>)
    ensures TruthyField(Get(result, "video_url")) ==> r == Get(result, "video_url")
    ensures !TruthyField(Get(result, "video_url")) && TruthyField(Get(result, "url")) ==> r == Get(result, "url")
    ensures TruthyField(r) <==>
      TruthyField(Get(result, "video_url")) || TruthyField(Get(result, "url")) || TruthyField(NestedUrl(result))
  {
    OrField(Get(result, "video_url"), OrField(Get(result, "url"), NestedUrl(result)))
  }

  /** The status answer's URL, in the polling loop's own order:
      `video_url || video?.url || url || null`. */
  function PollUrlOf(data: Json): (r: Option<Json>)
    ensures TruthyField(Get(data, "video_url")) ==> r == Get(data, "video_url")
    ensures !TruthyField(Get(data, "video_url")) && TruthyField(NestedUrl(data)) ==> r == NestedUrl(data)
    ensures TruthyField(r) <==>
      TruthyField(Get(data, "video_url")) || TruthyField(Get(data, "url")) || TruthyField(NestedUrl(data))
  {
    OrField(Get(data, "video_url"), OrField(NestedUrl(data), Get(data, "url")))
  }

  /** The two orders differ: an answer with a top-level `url` and a nested
      `video.url` (and no `video_url`) yields the top-level one at creation
      and the nested one while polling. */
  lemma {:induction false} UrlOrdersDiffer(a: string, b: string)
    requires a != "" && b != "" && a != b
    ensures var data := JObj([("url", JStr(a)), ("video", JObj([("url", JStr(b))]))]);
      VideoUrlOf(data) == Some(JStr(a)) && PollUrlOf(data) == Some(JStr(b))
  {
    var inner := JObj([("url", JStr(b))]);
    var data := JObj([("url", JStr(a)), ("video", inner)]);
    assert Get(inner, "url") == Some(JStr(b)) by {
      assert inner.fields[..0] == [];
    }
    assert Get(data, "video") == Some(inner);
    var head := [("url", JStr(a))];
    assert data.fields[..1] == head;
    assert Lookup(head, "url") == Some(JStr(a));
    assert Get(data, "url") == Lookup(head, "url");
    assert head[..0] == [];
    assert Get(data, "video_url") == Lookup(head, "video_url");
  }

  /** `id || task_id || null`. */
  function TaskIdOf(result: Json): Option<Json>
  {
    OrField(Get(result, "id"), Get(result, "task_id"))
  }

  /** How a creation answer ends the route, or `None` when it asks for
      polling (a task id and no URL yet). */
  function AfterCreate(c: Created): (r: Option<Exit>)
    ensures r.None? <==> c.CreateBody? && TruthyField(TaskIdOf(c.result)) && !TruthyField(VideoUrlOf(c.result))
    ensures c.CreateError? && c.body != JNull ==>
      r == Some(if UnknownMediaParameter(c.body) then CameoRejected
                else if c.status == 404 then EndpointMissing else CreateFailed(c.status))
    ensures (c.CreateError? && c.body == JNull) || (c.CreateBody? && c.result == JNull) ==> r == Some(Crashed)
    ensures r.Some? && r.value.Delivered? ==> c.CreateBody? && Truthy(r.value.url) && VideoUrlOf(c.result) == Some(r.value.url)
    ensures c.CreateBody? && c.result != JNull && !TruthyField(VideoUrlOf(c.result)) && !TruthyField(TaskIdOf(c.result)) ==>
      r == Some(NoUrl)
  {
    match c
    case CreateUnreachable => Some(Crashed)
    case CreateError(status, body) =>
      if body == JNull then Some(Crashed)
      else Some(if UnknownMediaParameter(body) then CameoRejected else if status == 404 then EndpointMissing else CreateFailed(status))
    case CreateUnparsable => Some(Unparsable)
    case CreateBody(JNull) => Some(Crashed)
    case CreateBody(result) =>
      var url := VideoUrlOf(result);
      if TruthyField(TaskIdOf(result)) && !TruthyField(url) then None
      else if TruthyField(url) then Some(Delivered(url.value))
      else Some(NoUrl)
  }

  // ---------------------------------------------------------------------
  // Polling

  /** The answer to one status request: the request throws, a non-OK
      status with its parsed error text (`None` when it is empty or not
      JSON), an OK body that is not JSON, or the parsed body together with
      what downloading and storing the clip would give (the public or the
      fallback URL, or `None` when the download fails). */
  datatype Answer = Unreachable | HttpError(code: nat, error: Option<Json>) | Garbled | Body(data: Json, download: Option<string>)

  const MaxAttempts := 120

  /** The status field has one of the given values. */
  predicate StatusIs(data: Json, values: set<string>)
  {
    var s := GetString(data, "status");
    s.Some? && s.value in values
  }

  /** What one status answer decides: a completed task is downloaded (a
      failed download ends the route), a URL in the answer is taken, a
      failed task ends it with 400; a 404 stops polling as if time ran
      out, any other HTTP error ends it with that code. A `null` answer
      body, or a `null` error text on a non-404 error, throws on its first
      property read into the loop's `catch`, like an unreachable status.
      `None`: the task is still running and polling goes on. */
  function Step(a: Answer): (r: Option<Exit>)
    ensures r.Some? && r.value.Delivered? ==> Truthy(r.value.url)
    ensures NullAnswer(a) ==> r == Some(PollBroken)
    ensures a.Unreachable? || a.Garbled? ==> r == Some(PollBroken)
  {
    match a
    case Unreachable => Some(PollBroken)
    case Garbled => Some(PollBroken)
    case HttpError(code, error) =>
      Some(if code == 404 then TimedOut else if error == Some(JNull) then PollBroken else StatusError(code))
    case Body(data, download) =>
      if data == JNull then Some(PollBroken)
      else if StatusIs(data, {"completed", "succeeded"}) then
        Some(if download.None? then DownloadFailed
             else if download.value == "" then TimedOut
             else Delivered(JStr(download.value)))
      else if TruthyField(PollUrlOf(data)) then Some(Delivered(PollUrlOf(data).value))
      else if StatusIs(data, {"failed", "error"}) then Some(GenerationFailed)
      else None
  }

  /** The end of polling from poll `i` on: the first answer that decides,
      or a time-out after the last attempt. */
  function PollFrom(poll: nat -> Answer, i: nat): (e: Exit)
    ensures e.Delivered? ==> Truthy(e.url)
    decreases MaxAttempts - i
  {
    if i >= MaxAttempts then TimedOut
    else match Step(poll(i))
      case Some(e) => e
      case None => PollFrom(poll, i + 1)
  }

  /** A `null` body, or a `null` error text on an error other than 404. */
  predicate NullAnswer(a: Answer)
  {
    (a.Body? && a.data == JNull) || (a.HttpError? && a.code != 404 && a.error == Some(JNull))
  }

  /** The polling loop; `polls` is the number of status requests made. */
  method Poll(poll: nat -> Answer) returns (e: Exit, polls: nat)
    ensures e == PollFrom(poll, 0)
    ensures polls <= MaxAttempts
    ensures e.Delivered? ==> Truthy(e.url)
    ensures NullAnswer(poll(0)) ==> e == PollBroken && polls == 1
  {
    var attempts := 0;
    polls := 0;
    while attempts < MaxAttempts
      invariant polls == attempts <= MaxAttempts
      invariant PollFrom(poll, attempts) == PollFrom(poll, 0)
      invariant attempts > 0 ==> !NullAnswer(poll(0))
    {
      var step := Step(poll(attempts));
      polls := polls + 1;
      if step.Some? {
        return step.value, polls;
      }
      attempts := attempts + 1;
    }
    return TimedOut, polls;
  }

  /** A task that stays queued or in progress for all 120 polls times
      out. */
  lemma {:induction false} QueuedTimesOut(poll: nat -> Answer, i: nat)
    requires forall k :: 0 <= k < MaxAttempts ==>
      poll(k).Body? && poll(k).data != JNull &&
      !StatusIs(poll(k).data, {"completed", "succeeded", "failed", "error"}) &&
      !TruthyField(PollUrlOf(poll(k).data))
    ensures PollFrom(poll, i) == TimedOut
    decreases MaxAttempts - i
  {
    if i < MaxAttempts {
      QueuedTimesOut(poll, i + 1);
    }
  }

  // ---------------------------------------------------------------------
  // The route

  /** The way the route ends, given the sign-in, the form, the key found,
      whether the image resize works, and OpenAI's answers. */
  function Decide(signedIn: bool, f: Form, key: Option<string>, resized: bool,
                  create: Request -> Created, poll: nat -> Answer): (e: Exit)
  {
    if !signedIn then Unauthorized
    else match Validate(f)
      case Err(x) => x
      case Ok(v) =>
        if key.None? then NoKey
        else if f.hasImage && !resized then ResizeFailed
        else match AfterCreate(create(MakeRequest(f, v.0, v.1)))
          case Some(x) => x
          case None => PollFrom(poll, 0)
  }

  /** The HTTP status of each exit. */
  function StatusCode(e: Exit): (s: nat)
    ensures s == 200 <==> e.Delivered?
  {
    match e
    case Unauthorized => 401
    case NoPrompt => 400
    case NotSora => 400
    case BadDuration => 400
    case BadRatio => 400
    case NoKey => 500
    case ResizeFailed => 500
    case CreateFailed(code) => if code == 200 then 500 else code
    case CameoRejected => 400
    case EndpointMissing => 503
    case Unparsable => 500
    case Crashed => 500
    case StatusError(code) => if code == 200 then 500 else code
    case PollBroken => 500
    case DownloadFailed => 500
    case GenerationFailed => 400
    case TimedOut => 504
    case NoUrl => 500
    case Delivered(_) => 200
  }

  /** The exits before the key lookup refund nothing, as does success. */
  predicate Refunding(e: Exit)
  {
    !(e.Unauthorized? || e.NoPrompt? || e.NotSora? || e.BadDuration? || e.BadRatio? || e.Delivered?)
  }

  /** One call of the route's refund helper: it adds `amount` to the user's
      credits and answers with the new balance; `logged` says whether the
      call carries a reason for the log. */
  datatype RefundCall = RefundCall(amount: int, logged: bool)

  /** The refund calls each exit makes as the route is written, `price`
      being the clip's credits. On the missing-key, resize, unreadable-answer
      and no-URL exits the route refunds with a reason, then calls the
      refund again, without one, only to read the new balance for its
      reply. */
  function RefundsAsWritten(e: Exit, price: int): (calls: seq<RefundCall>)
    ensures forall i :: 0 <= i < |calls| ==> calls[i].amount == price
    ensures |calls| > 0 ==> calls[0].logged
  {
    if !Refunding(e) then []
    else if e.NoKey? || e.ResizeFailed? || e.Unparsable? || e.NoUrl? then
      [RefundCall(price, true), RefundCall(price, false)]
    else [RefundCall(price, true)]
  }

  /** The refund calls as intended: one logged refund of the price on every
      failing path after validation, and the balance it answers reported. */
  function Refunds(e: Exit, price: int): (calls: seq<RefundCall>)
    ensures forall i :: 0 <= i < |calls| ==> calls[i].amount == price && calls[i].logged
  {
    if Refunding(e) then [RefundCall(price, true)] else []
  }

  /** The credits a sequence of refund calls gives back. */
  function Returned(calls: seq<RefundCall>): (n: int)
    ensures calls == [] ==> n == 0
  {
    if calls == [] then 0 else calls[0].amount + Returned(calls[1..])
  }

  /** As written, every refunding exit gives back the price once per call:
      twice on the four exits that call the refund again for the balance,
      once on the others, never on the exits before the charge. */
  lemma {:induction false} ReturnedAsWritten(e: Exit, price: int)
    ensures !Refunding(e) ==> Returned(RefundsAsWritten(e, price)) == 0
    ensures Refunding(e) && (e.NoKey? || e.ResizeFailed? || e.Unparsable? || e.NoUrl?) ==>
      Returned(RefundsAsWritten(e, price)) == 2 * price
    ensures Refunding(e) && !(e.NoKey? || e.ResizeFailed? || e.Unparsable? || e.NoUrl?) ==>
      Returned(RefundsAsWritten(e, price)) == price
  {
    var calls := RefundsAsWritten(e, price);
    if |calls| == 2 {
      assert calls[1..][1..] == [];
    } else if |calls| == 1 {
      assert calls[1..] == [];
    }
  }

  /** A valid request when no key is configured anywhere: as written the
      user gets back twice the price of the clip. */
  lemma {:induction false} MissingKeyRefundsTwice(f: Form, resized: bool, create: Request -> Created,
                                                  poll: nat -> Answer)
    requires Validate(f).Ok?
    ensures Decide(true, f, ApiKey(None, None, None), resized, create, poll) == NoKey
    ensures var price := Credits(RequestedDuration(f.duration));
      Returned(RefundsAsWritten(NoKey, price)) == 2 * price > price
  {
    var price := Credits(RequestedDuration(f.duration));
    assert price >= 1;
    ReturnedAsWritten(NoKey, price);
  }

  /** A creation answer of `null` (as the body or as the error text)
      throws on its first property read; the outer `catch` answers 500 and
      refunds the price once. */
  lemma {:induction false} NullCreationCrashes(f: Form, key: Option<string>, resized: bool,
                                               create: Request -> Created, poll: nat -> Answer)
    requires Validate(f).Ok? && key.Some? && (f.hasImage ==> resized)
    requires var c := create(MakeRequest(f, Validate(f).value.0, Validate(f).value.1));
      (c.CreateBody? && c.result == JNull) || (c.CreateError? && c.body == JNull)
    ensures Decide(true, f, key, resized, create, poll) == Crashed
    ensures StatusCode(Crashed) == 500
    ensures var price := Credits(RequestedDuration(f.duration));
      Returned(RefundsAsWritten(Crashed, price)) == price
  {
    var price := Credits(RequestedDuration(f.duration));
    ReturnedAsWritten(Crashed, price);
  }

  /** Every failing path after validation refunds exactly the price, in one
      logged call. */
  lemma {:induction false} RefundOnce(signedIn: bool, f: Form, key: Option<string>, resized: bool,
                                      create: Request -> Created, poll: nat -> Answer)
    ensures var e := Decide(signedIn, f, key, resized, create, poll);
      var price := Credits(RequestedDuration(f.duration));
      (Refunding(e) ==> signedIn && Validate(f).Ok? && |Refunds(e, price)| == 1 &&
                        Returned(Refunds(e, price)) == price) &&
      (e.Delivered? || !signedIn || Validate(f).Err? ==> Refunds(e, price) == [])
  {
    var e := Decide(signedIn, f, key, resized, create, poll);
    var price := Credits(RequestedDuration(f.duration));
    if signedIn && Validate(f).Err? {
      assert e == Validate(f).error;
    }
    if Refunding(e) {
      assert Refunds(e, price)[1..] == [];
    }
  }

  /** The response: the status, the URL on success, and the credits given
      back by the refund calls made on the way. */
  datatype Reply = Reply(status: nat, url: Option<Json>, refunded: int)

  /** The route as written: the exit, its status and URL, and the credits
      given back by the refund calls that exit makes. */
  method Generate(signedIn: bool, f: Form, key: Option<string>, resized: bool,
                  create: Request -> Created, poll: nat -> Answer)
    returns (r: Reply)
    ensures var e := Decide(signedIn, f, key, resized, create, poll);
      r.status == StatusCode(e) &&
      r.url == (if e.Delivered? then Some(e.url) else None) &&
      r.refunded == Returned(RefundsAsWritten(e, Credits(RequestedDuration(f.duration))))
  {
    var e := Run(signedIn, f, key, resized, create, poll);
    r := Reply(StatusCode(e), if e.Delivered? then Some(e.url) else None,
               Returned(RefundsAsWritten(e, Credits(RequestedDuration(f.duration)))));
  }

  /** The route with one refund per failing exit. */
  method GenerateCorrected(signedIn: bool, f: Form, key: Option<string>, resized: bool,
                           create: Request -> Created, poll: nat -> Answer)
    returns (r: Reply)
    ensures var e := Decide(signedIn, f, key, resized, create, poll);
      r.status == StatusCode(e) &&
      r.url == (if e.Delivered? then Some(e.url) else None) &&
      r.refunded == Returned(Refunds(e, Credits(RequestedDuration(f.duration))))
  {
    var e := Run(signedIn, f, key, resized, create, poll);
    r := Reply(StatusCode(e), if e.Delivered? then Some(e.url) else None,
               Returned(Refunds(e, Credits(RequestedDuration(f.duration)))));
  }

  /** The route's control flow up to its exit. */
  method Run(signedIn: bool, f: Form, key: Option<string>, resized: bool,
             create: Request -> Created, poll: nat -> Answer)
    returns (e: Exit)
    ensures e == Decide(signedIn, f, key, resized, create, poll)
  {
    if !signedIn {
      e := Unauthorized;
    } else {
      var v := Validate(f);
      if v.Err? {
        e := v.error;
      } else if key.None? {
        e := NoKey;
      } else if f.hasImage && !resized {
        e := ResizeFailed;
      } else {
        var after := AfterCreate(create(MakeRequest(f, v.value.0, v.value.1)));
        if after.Some? {
          e := after.value;
        } else {
          var polls;
          e, polls := Poll(poll);
        }
      }
    }
  }
}
