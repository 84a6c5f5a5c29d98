/** The streaming route of the web app (app/api/generate-stream/route.ts).
    The lower-cased mode picks one of four branches: the vision models and
    the local Ollama models relay Ollama's newline-delimited JSON, the
    OpenAI branch relays the chat-completion event stream (or answers an
    image request), and every other mode answers with a one-event stub.
    Everything the route sends is framed by `send` as `data: <s>\n\n`.
    Network reads are taken as already-decoded text chunks; `JSON.parse`
    and JavaScript's `String` conversion are parameters. */
module GenerateStream {
  import opened Wrappers
  import opened Strings
  import opened Json
  import EventStream

  // ---------------------------------------------------------------------
  // Branch choice

  datatype Route = Vision(blip: bool) | OpenAIChat | Stub | Ollama(model: string)

  /** The branch taken for `mode`, tested on `String(mode).toLowerCase()`. */
  function ChooseRoute(mode: string): (r: Route)
    ensures r.Vision? <==> ToLower(mode) == "blip" || ToLower(mode) == "llava"
    ensures r.Stub? <==> ToLower(mode) !in {"blip", "llava", "openai", "llama", "mistral"}
    ensures r.Ollama? ==> r.model == (if ToLower(mode) == "llama" then "llama3.1:8b" else "mistral:7b")
  {
    var m := ToLower(mode);
    if m == "blip" || m == "llava" then Vision(m == "blip")
    else if m == "openai" then OpenAIChat
    else if m != "llama" && m != "mistral" then Stub
    else Ollama(if m == "llama" then "llama3.1:8b" else "mistral:7b")
  }

  /** Mode matching ignores case: a mode and its lower-case form take the
      same branch. */
  lemma {:induction false} RouteIgnoresCase(mode: string)
    ensures ChooseRoute(ToLower(mode)) == ChooseRoute(mode)
  {
    ToLowerIdem(mode);
  }

  // ---------------------------------------------------------------------
  // Framing

  /** What `send` enqueues for each payload, in order. */
  function Frames(payloads: seq<string>): (r: string)
    ensures |r| == |Concat(payloads)| + 8 * |payloads|
  {
    if payloads == [] then ""
    else EventStream.Frame(payloads[0]) + Frames(payloads[1..])
  }

  lemma {:induction false} FramesAppend(a: seq<string>, b: seq<string>)
    ensures Frames(a + b) == Frames(a) + Frames(b)
  {
    if a != [] {
      assert (a + b)[1..] == a[1..] + b;
      FramesAppend(a[1..], b);
    } else {
      assert a + b == b;
    }
  }

  // ---------------------------------------------------------------------
  // Line relays

  /** The effect of a run of lines: the payloads sent, and whether a line
      closed the stream (after which nothing more is read). */
  datatype Relayed = Relayed(sent: seq<string>, done: bool)

  /** Lines handled in order by `step` until one of them closes the stream. */
  function RelayLines(lines: seq<string>, step: string -> Relayed): Relayed
  {
    if lines == [] then Relayed([], false)
    else
      var h := step(lines[0]);
      if h.done then h
      else
        var t := RelayLines(lines[1..], step);
        Relayed(h.sent + t.sent, t.done)
  }

  /** Relaying `a + b`: all of `a`, and `b` only when `a` did not close. */
  function Then(ra: Relayed, rb: Relayed): Relayed
  {
    if ra.done then ra else Relayed(ra.sent + rb.sent, rb.done)
  }

  lemma {:induction false} RelayLinesAppend(a: seq<string>, b: seq<string>, step: string -> Relayed)
    ensures RelayLines(a + b, step) == Then(RelayLines(a, step), RelayLines(b, step))
  {
    if a != [] {
      assert (a + b)[0] == a[0];
      assert (a + b)[1..] == a[1..] + b;
      RelayLinesAppend(a[1..], b, step);
    } else {
      assert a + b == b;
    }
  }

  /** A line that neither sends nor closes can be dropped. */
  lemma {:induction false} RelayLinesNeutral(a: seq<string>, x: string, b: seq<string>, step: string -> Relayed)
    requires step(x) == Relayed([], false)
    ensures RelayLines(a + [x] + b, step) == RelayLines(a + b, step)
  {
    RelayLinesAppend(a + [x], b, step);
    RelayLinesAppend(a, [x], step);
    RelayLinesAppend(a, b, step);
    assert RelayLines([x], step) == Relayed([], false) by {
      assert [x][1..] == [];
    }
  }

  /** The complete lines of everything received: all pieces of the
      newline split but the last, which is still being received. */
  function Lines(received: string): seq<string>
  {
    AllButLast(Split(received, "\n"))
  }

  /** A relay with a carry buffer reads the complete lines of the whole
      stream, wherever the network cut it. */
  function CarryRelay(received: string, step: string -> Relayed): Relayed
  {
    RelayLines(Lines(received), step)
  }

  lemma {:induction false} CarryStep(received: string, read: string, step: string -> Relayed)
    ensures var t := Split(Last(Split(received, "\n")) + read, "\n");
      CarryRelay(received + read, step) == Then(CarryRelay(received, step), RelayLines(AllButLast(t), step)) &&
      Last(Split(received + read, "\n")) == Last(t)
  {
    var t := Split(Last(Split(received, "\n")) + read, "\n");
    CompleteAppend(received, read, "\n");
    RelayLinesAppend(Lines(received), AllButLast(t), step);
  }

  /** Once a line has closed the stream, later input changes nothing. */
  lemma {:induction false} CarryClosed(received: string, rest: string, step: string -> Relayed)
    requires CarryRelay(received, step).done
    ensures CarryRelay(received + rest, step) == CarryRelay(received, step)
  {
    CarryStep(received, rest, step);
  }

  /** The inner `for (const line of lines)` loop: each line's payloads are
      sent in order, and a closing line returns at once. */
  method RelayBatch(lines: seq<string>, step: string -> Relayed) returns (out: string, stop: bool)
    ensures out == Frames(RelayLines(lines, step).sent) && stop == RelayLines(lines, step).done
  {
    out := "";
    stop := false;
    var i := 0;
    while i < |lines|
      invariant 0 <= i <= |lines|
      invariant !RelayLines(lines[..i], step).done
      invariant out == Frames(RelayLines(lines[..i], step).sent)
    {
      var h := step(lines[i]);
      FramesAppend(RelayLines(lines[..i], step).sent, h.sent);
      out := out + Frames(h.sent);
      assert RelayLines([lines[i]], step) == h by {
        assert [lines[i]][1..] == [];
      }
      RelayLinesAppend(lines[..i], [lines[i]], step);
      assert lines[..i + 1] == lines[..i] + [lines[i]];
      if h.done {
        RelayLinesAppend(lines[..i + 1], lines[i + 1..], step);
        assert lines[..i + 1] + lines[i + 1..] == lines;
        stop := true;
        return;
      }
      i := i + 1;
    }
    assert lines[..i] == lines;
  }

  /** The read loop with a carry buffer (`buf += …; lines = buf.split("\n");
      buf = lines.pop()`): the output is that of the complete lines of the
      concatenated reads, so it does not depend on where the reads were cut. */
  method Relay(chunks: seq<string>, step: string -> Relayed) returns (out: string, stopped: bool)
    ensures var r := CarryRelay(Concat(chunks), step);
      out == Frames(r.sent) && stopped == r.done
  {
    out := "";
    stopped := false;
    var buf := "";
    var k := 0;
    while k < |chunks| && !stopped
      invariant 0 <= k <= |chunks|
      invariant var r := CarryRelay(Concat(chunks[..k]), step); out == Frames(r.sent) && stopped == r.done
      invariant buf == Last(Split(Concat(chunks[..k]), "\n"))
    {
      buf := buf + chunks[k];
      var lines := Split(buf, "\n");
      buf := Last(lines);
      var sent, stop := RelayBatch(AllButLast(lines), step);
      CarryRead(chunks, k, step);
      FramesAppend(CarryRelay(Concat(chunks[..k]), step).sent, RelayLines(AllButLast(lines), step).sent);
      out := out + sent;
      stopped := stop;
      k := k + 1;
    }
    CarryEnd(chunks, k, step);
  }

  /** The loop step of `Relay`: one more read. */
  lemma {:induction false} CarryRead(chunks: seq<string>, k: nat, step: string -> Relayed)
    requires k < |chunks|
    ensures var t := Split(Last(Split(Concat(chunks[..k]), "\n")) + chunks[k], "\n");
      CarryRelay(Concat(chunks[..k + 1]), step) == Then(CarryRelay(Concat(chunks[..k]), step), RelayLines(AllButLast(t), step)) &&
      Last(Split(Concat(chunks[..k + 1]), "\n")) == Last(t)
  {
    ConcatStep(chunks, k);
    CarryStep(Concat(chunks[..k]), chunks[k], step);
  }

  /** The exit of `Relay`: all reads taken, or a line closed the stream. */
  lemma {:induction false} CarryEnd(chunks: seq<string>, k: nat, step: string -> Relayed)
    requires k <= |chunks|
    requires k == |chunks| || CarryRelay(Concat(chunks[..k]), step).done
    ensures CarryRelay(Concat(chunks), step) == CarryRelay(Concat(chunks[..k]), step)
  {
    if k == |chunks| {
      assert chunks[..k] == chunks;
    } else {
      ConcatSplitAt(chunks, k);
      CarryClosed(Concat(chunks[..k]), Concat(chunks[k..]), step);
    }
  }

  // ---------------------------------------------------------------------
  // The Ollama relay (vision and local models)

  /** `${v}` in a template: a string as it is, anything else by `String`. */
  function Shown(v: Json, show: Json -> string): string
  {
    match v
    case JStr(s) => s
    case _ => show(v)
  }

  /** `if (v) send(v)`. */
  function Forward(v: Option<Json>, show: Json -> string): (r: seq<string>)
    ensures |r| <= 1
    ensures r != [] <==> TruthyField(v)
  {
    if TruthyField(v) then [Shown(v.value, show)] else []
  }

  /** One Ollama line: a blank line or one that does not parse is skipped;
      otherwise a truthy `response` is sent and a truthy `done` closes. */
  function OllamaLine(line: string, parse: string -> Option<Json>, show: Json -> string): Relayed
  {
    if IsBlank(line) then Relayed([], false)
    else match parse(line)
      case None => Relayed([], false)
      case Some(j) => Relayed(Forward(Get(j, "response"), show), TruthyField(Get(j, "done")))
  }

  function OllamaStep(parse: string -> Option<Json>, show: Json -> string): string -> Relayed
  {
    line => OllamaLine(line, parse, show)
  }

  /** The relay of the Ollama branches (route.ts lines 55-69 and 362-376). */
  method RelayOllama(chunks: seq<string>, parse: string -> Option<Json>, show: Json -> string)
    returns (out: string, stopped: bool)
    ensures var r := CarryRelay(Concat(chunks), OllamaStep(parse, show));
      out == Frames(r.sent) && stopped == r.done
  {
    out, stopped := Relay(chunks, OllamaStep(parse, show));
  }

  /** The Ollama stream read back: one NDJSON line per object, the last one
      `done`; the relay sends every non-empty `response` in order and
      closes on the last line. */
  function NdjsonLines(rs: seq<string>, ser: Json -> string): string
  {
    if rs == [] then "" else ser(OllamaChunk(rs[0], |rs| == 1)) + "\n" + NdjsonLines(rs[1..], ser)
  }

  function OllamaChunk(response: string, done: bool): Json
  {
    JObj([("response", JStr(response)), ("done", JBool(done))])
  }

  lemma {:induction false} OllamaChunkFields(response: string, done: bool)
    ensures Get(OllamaChunk(response, done), "response") == Some(JStr(response))
    ensures Get(OllamaChunk(response, done), "done") == Some(JBool(done))
  {
    var fs := OllamaChunk(response, done).fields;
    assert fs[1].0 == "done" != "response";
    assert fs[..|fs| - 1] == [("response", JStr(response))];
    assert Lookup(fs, "response") == Lookup(fs[..|fs| - 1], "response");
  }

  function NonEmpty(rs: seq<string>): seq<string>
  {
    if rs == [] then [] else (if rs[0] != "" then [rs[0]] else []) + NonEmpty(rs[1..])
  }

  lemma {:induction false} OllamaRelaysResponses(rs: seq<string>, ser: Json -> string, parse: string -> Option<Json>, show: Json -> string)
    requires Codec(ser, parse) && rs != []
    ensures RelayLines(Lines(NdjsonLines(rs, ser)), OllamaStep(parse, show)) == Relayed(NonEmpty(rs), true)
  {
    var x := ser(OllamaChunk(rs[0], |rs| == 1));
    var rest := NdjsonLines(rs[1..], ser);
    assert Serialised(x) && parse(x) == Some(OllamaChunk(rs[0], |rs| == 1));
    SplitAtChar(x, '\n', rest);
    assert NdjsonLines(rs, ser) == x + ['\n'] + rest;
    assert !IsBlank(x) by { TrimSpec(x); }
    var h := OllamaLine(x, parse, show);
    OllamaChunkFields(rs[0], |rs| == 1);
    if |rs| == 1 {
      assert rest == "";
      assert Split(rest, "\n") == [""];
      assert Lines(NdjsonLines(rs, ser)) == [x];
      assert NonEmpty(rs) == h.sent + NonEmpty(rs[1..]);
    } else {
      OllamaRelaysResponses(rs[1..], ser, parse, show);
      assert Lines(NdjsonLines(rs, ser)) == [x] + Lines(rest);
      assert ([x] + Lines(rest))[1..] == Lines(rest);
    }
  }

  // ---------------------------------------------------------------------
  // The OpenAI relay

  /** `a?.[0]`: the first element of an array, or the property "0" of an
      object; a string's first character has no `delta`, so it is left as
      nothing. */
  function First(v: Json): Option<Json>
  {
    match v
    case JArr(items) => if items != [] then Some(items[0]) else None
    case JObj(_) => Get(v, "0")
    case _ => None
  }

  /** `parsed.choices?.[0]?.delta?.content`. */
  function DeltaContent(j: Json): Option<Json>
  {
    match Get(j, "choices")
    case None => None
    case Some(c) =>
      match First(c)
      case None => None
      case Some(first) =>
        match Get(first, "delta")
        case None => None
        case Some(d) => Get(d, "content")
  }

  /** One OpenAI line: only `data: ` lines count; `[DONE]` closes, and a
      parsed chunk sends its truthy delta content. */
  function OpenAILine(line: string, parse: string -> Option<Json>, show: Json -> string): Relayed
  {
    if !StartsWith(line, EventStream.DataPrefix) then Relayed([], false)
    else
      var data := line[|EventStream.DataPrefix|..];
      if data == "[DONE]" then Relayed([], true)
      else match parse(data)
        case None => Relayed([], false)
        case Some(j) => Relayed(Forward(DeltaContent(j), show), false)
  }

  function OpenAIStep(parse: string -> Option<Json>, show: Json -> string): string -> Relayed
  {
    line => OpenAILine(line, parse, show)
  }

  /** The lines the OpenAI branch handles: every piece of every read split
      on its own, the unfinished last piece of a read included. */
  function ReadLines(chunks: seq<string>): seq<string>
  {
    if chunks == [] then [] else Split(chunks[0], "\n") + ReadLines(chunks[1..])
  }

  lemma {:induction false} ReadLinesAppend(a: seq<string>, b: seq<string>)
    ensures ReadLines(a + b) == ReadLines(a) + ReadLines(b)
  {
    if a != [] {
      assert (a + b)[0] == a[0];
      assert (a + b)[1..] == a[1..] + b;
      ReadLinesAppend(a[1..], b);
    } else {
      assert a + b == b;
    }
  }

  lemma {:induction false} ReadLinesOne(c: string)
    ensures ReadLines([c]) == Split(c, "\n")
  {
    assert [c][1..] == [];
  }

  /** The OpenAI branch as written (route.ts lines 250-280): each read is
      split with no carry buffer. */
  method RelayOpenAIAsWritten(chunks: seq<string>, parse: string -> Option<Json>, show: Json -> string)
    returns (out: string, stopped: bool)
    ensures var r := RelayLines(ReadLines(chunks), OpenAIStep(parse, show));
      out == Frames(r.sent) && stopped == r.done
  {
    var step := OpenAIStep(parse, show);
    out := "";
    stopped := false;
    var k := 0;
    while k < |chunks| && !stopped
      invariant 0 <= k <= |chunks|
      invariant var r := RelayLines(ReadLines(chunks[..k]), step); out == Frames(r.sent) && stopped == r.done
    {
      var lines := Split(chunks[k], "\n");
      var sent, stop := RelayBatch(lines, step);
      PerRead(chunks, k, step);
      FramesAppend(RelayLines(ReadLines(chunks[..k]), step).sent, RelayLines(lines, step).sent);
      out := out + sent;
      stopped := stop;
      k := k + 1;
    }
    PerReadEnd(chunks, k, step);
  }

  /** The loop step of `RelayOpenAIAsWritten`: one more read, split alone. */
  lemma {:induction false} PerRead(chunks: seq<string>, k: nat, step: string -> Relayed)
    requires k < |chunks|
    ensures RelayLines(ReadLines(chunks[..k + 1]), step) ==
      Then(RelayLines(ReadLines(chunks[..k]), step), RelayLines(Split(chunks[k], "\n"), step))
  {
    assert chunks[..k + 1] == chunks[..k] + [chunks[k]];
    ReadLinesAppend(chunks[..k], [chunks[k]]);
    ReadLinesOne(chunks[k]);
    RelayLinesAppend(ReadLines(chunks[..k]), Split(chunks[k], "\n"), step);
  }

  lemma {:induction false} PerReadEnd(chunks: seq<string>, k: nat, step: string -> Relayed)
    requires k <= |chunks|
    requires k == |chunks| || RelayLines(ReadLines(chunks[..k]), step).done
    ensures RelayLines(ReadLines(chunks), step) == RelayLines(ReadLines(chunks[..k]), step)
  {
    if k == |chunks| {
      assert chunks[..k] == chunks;
    } else {
      assert chunks == chunks[..k] + chunks[k..];
      ReadLinesAppend(chunks[..k], chunks[k..]);
      RelayLinesAppend(ReadLines(chunks[..k]), ReadLines(chunks[k..]), step);
    }
  }

  /** The OpenAI branch with the carry buffer of the Ollama branches: its
      output depends only on the concatenated reads. */
  method RelayOpenAI(chunks: seq<string>, parse: string -> Option<Json>, show: Json -> string)
    returns (out: string, stopped: bool)
    ensures var r := CarryRelay(Concat(chunks), OpenAIStep(parse, show));
      out == Frames(r.sent) && stopped == r.done
  {
    out, stopped := Relay(chunks, OpenAIStep(parse, show));
  }

  /** A streamed chunk carrying `content`. */
  function ContentChunk(content: string): Json
  {
    JObj([("choices", JArr([JObj([("delta", JObj([("content", JStr(content))]))])]))])
  }

  lemma {:induction false} ContentChunkRead(content: string)
    ensures DeltaContent(ContentChunk(content)) == Some(JStr(content))
  {
    var d := JObj([("content", JStr(content))]);
    var first := JObj([("delta", d)]);
    assert Get(ContentChunk(content), "choices") == Some(JArr([first]));
    assert Get(first, "delta") == Some(d);
    assert Get(d, "content") == Some(JStr(content));
  }

  /** The line `data: <chunk>` with a line break. */
  function ContentLine(ser: Json -> string, content: string): string
  {
    EventStream.DataPrefix + ser(ContentChunk(content)) + "\n"
  }

  /** What the as-written relay loses: a `data:` line that arrives in one
      read is forwarded, the same line cut after its second character is
      not, since neither half starts with `data: `. */
  lemma {:induction false} OpenAICutLosesLine(ser: Json -> string, parse: string -> Option<Json>, show: Json -> string)
    requires Codec(ser, parse)
    ensures var x := ContentLine(ser, "hi");
      RelayLines(ReadLines([x]), OpenAIStep(parse, show)).sent == ["hi"] &&
      RelayLines(ReadLines([x[..2], x[2..]]), OpenAIStep(parse, show)).sent == []
  {
    var line := EventStream.DataPrefix + ser(ContentChunk("hi"));
    ContentLineSplit(ser, parse, "hi");
    OneReadForwards(ser, parse, show);
    CutReadDrops(line, parse, show);
  }

  /** The line of `ContentLine` has no line break inside. */
  lemma {:induction false} ContentLineSplit(ser: Json -> string, parse: string -> Option<Json>, content: string)
    requires Codec(ser, parse)
    ensures var line := EventStream.DataPrefix + ser(ContentChunk(content));
      ContentLine(ser, content) == line + "\n" && |line| > 6 &&
      (forall i :: 0 <= i < |line| ==> line[i] != '\n') &&
      parse(line[6..]) == Some(ContentChunk(content)) && line[6] == '{'
  {
    var body := ser(ContentChunk(content));
    var line := EventStream.DataPrefix + body;
    assert Serialised(body) && parse(body) == Some(ContentChunk(content)) && body[0] == '{';
    forall i | 0 <= i < |line| ensures line[i] != '\n' {
      if i >= 6 { assert line[i] == body[i - 6]; }
    }
    assert line[6..] == body;
  }

  /** In one read, the line is forwarded. */
  lemma {:induction false} OneReadForwards(ser: Json -> string, parse: string -> Option<Json>, show: Json -> string)
    requires Codec(ser, parse)
    ensures RelayLines(ReadLines([ContentLine(ser, "hi")]), OpenAIStep(parse, show)).sent == ["hi"]
  {
    var step := OpenAIStep(parse, show);
    var line := EventStream.DataPrefix + ser(ContentChunk("hi"));
    ContentLineSplit(ser, parse, "hi");
    assert ContentLine(ser, "hi") == line + ['\n'] + "";
    SplitAtChar(line, '\n', "");
    assert Split("", "\n") == [""];
    ReadLinesOne(ContentLine(ser, "hi"));
    assert ReadLines([ContentLine(ser, "hi")]) == [line, ""];
    assert line[6..] != "[DONE]" by { assert line[6..][0] == '{'; }
    ContentChunkRead("hi");
    assert step(line) == Relayed(["hi"], false);
    assert RelayLines([""], step) == Relayed([], false) by { assert [""][1..] == []; }
    assert [line, ""][1..] == [""];
  }

  /** Cut after "da", a line is lost: neither half starts with `data: `. */
  lemma {:induction false} CutReadDrops(line: string, parse: string -> Option<Json>, show: Json -> string)
    requires |line| > 6 && StartsWith(line, EventStream.DataPrefix)
    requires forall i :: 0 <= i < |line| ==> line[i] != '\n'
    ensures var x := line + "\n";
      RelayLines(ReadLines([x[..2], x[2..]]), OpenAIStep(parse, show)).sent == []
  {
    var step := OpenAIStep(parse, show);
    var bl := line[2..];
    CutLines(line);
    assert !StartsWith(bl, EventStream.DataPrefix) by { assert bl[0] == 't'; }
    assert step("da") == Relayed([], false);
    assert step(bl) == Relayed([], false);
    assert step("") == Relayed([], false);
    RelayLinesNeutral([], "da", [bl] + [""], step);
    assert [] + ["da"] + ([bl] + [""]) == ["da"] + [bl] + [""];
    RelayLinesNeutral([], bl, [""], step);
    assert [] + [bl] + [""] == [bl] + [""];
    RelayLinesNeutral([], "", [], step);
    assert [] + [""] + [] == [""];
  }

  /** The lines of the two halves of a `data:` line cut after "da". */
  lemma {:induction false} CutLines(line: string)
    requires |line| > 6 && StartsWith(line, EventStream.DataPrefix)
    requires forall i :: 0 <= i < |line| ==> line[i] != '\n'
    ensures var x := line + "\n"; ReadLines([x[..2], x[2..]]) == ["da"] + [line[2..]] + [""]
  {
    var x := line + "\n";
    var a := x[..2];
    var bl := line[2..];
    assert a == "da";
    SplitNoChar(a, '\n');
    assert x[2..] == bl + ['\n'] + "";
    SplitAtChar(bl, '\n', "");
    assert Split("", "\n") == [""];
    ReadLinesAppend([a], [x[2..]]);
    assert [a] + [x[2..]] == [a, x[2..]];
    ReadLinesOne(a);
    ReadLinesOne(x[2..]);
  }

  /** Reads that each end on a line break lose nothing: the as-written
      relay then agrees with the carry-buffer relay. */
  lemma {:induction false} OpenAIAlignedAgree(chunks: seq<string>, parse: string -> Option<Json>, show: Json -> string)
    requires forall i :: 0 <= i < |chunks| ==> EndsWith(chunks[i], "\n")
    ensures RelayLines(ReadLines(chunks), OpenAIStep(parse, show)) == CarryRelay(Concat(chunks), OpenAIStep(parse, show))
  {
    var step := OpenAIStep(parse, show);
    assert step("") == Relayed([], false);
    AlignedLines(chunks, step);
  }

  /** For reads ending on line breaks, splitting each read adds one empty
      line per read to the complete lines of the whole stream, and the
      whole stream has nothing carried over. */
  lemma {:induction false} AlignedLines(chunks: seq<string>, step: string -> Relayed)
    requires forall i :: 0 <= i < |chunks| ==> EndsWith(chunks[i], "\n")
    requires step("") == Relayed([], false)
    ensures RelayLines(ReadLines(chunks), step) == RelayLines(Lines(Concat(chunks)), step)
    ensures Last(Split(Concat(chunks), "\n")) == ""
    decreases |chunks|
  {
    if chunks == [] {
      assert Split("", "\n") == [""];
    } else {
      var rest := chunks[1..];
      assert forall i :: 0 <= i < |rest| ==> EndsWith(rest[i], "\n") by {
        forall i | 0 <= i < |rest| ensures EndsWith(rest[i], "\n") { assert rest[i] == chunks[i + 1]; }
      }
      AlignedLines(rest, step);
      AlignedCons(chunks[0], rest, step);
      assert chunks == [chunks[0]] + rest;
    }
  }

  /** The step of `AlignedLines`: one more read in front. */
  lemma {:induction false} AlignedCons(c: string, rest: seq<string>, step: string -> Relayed)
    requires EndsWith(c, "\n") && step("") == Relayed([], false)
    requires RelayLines(ReadLines(rest), step) == RelayLines(Lines(Concat(rest)), step)
    requires Last(Split(Concat(rest), "\n")) == ""
    ensures RelayLines(ReadLines([c] + rest), step) == RelayLines(Lines(Concat([c] + rest)), step)
    ensures Last(Split(Concat([c] + rest), "\n")) == ""
  {
    var t := Split(c, "\n");
    AlignedRead(c);
    assert ([c] + rest)[1..] == rest;
    assert ReadLines([c] + rest) == t + ReadLines(rest);
    assert Concat([c] + rest) == c + Concat(rest);
    CompleteAppend(c, Concat(rest), "\n");
    assert Last(t) + Concat(rest) == Concat(rest);
    assert t == AllButLast(t) + [""];
    RelayLinesNeutral(AllButLast(t), "", ReadLines(rest), step);
    assert AllButLast(t) + [""] + ReadLines(rest) == t + ReadLines(rest);
    RelayLinesAppend(AllButLast(t), ReadLines(rest), step);
    RelayLinesAppend(AllButLast(t), Lines(Concat(rest)), step);
  }

  /** A read ending on a line break splits into complete lines and a final
      empty piece. */
  lemma {:induction false} AlignedRead(c: string)
    requires EndsWith(c, "\n")
    ensures Last(Split(c, "\n")) == ""
  {
    var u := c[..|c| - 1];
    assert c == u + "\n";
    CompleteAppend(u, "\n", "\n");
    var l := Last(Split(u, "\n")) + "\n";
    assert Split(l, "\n") == Split(Last(Split(u, "\n")) + "\n", "\n");
    LastPieceNewline(Last(Split(u, "\n")));
  }

  /** A piece followed by a line break ends the split with an empty piece. */
  lemma {:induction false} LastPieceNewline(p: string)
    ensures |Split(p + "\n", "\n")| >= 2 && Last(Split(p + "\n", "\n")) == ""
    decreases |p|
  {
    var s := p + "\n";
    if p == [] {
      assert s[..1] == "\n";
      assert s[1..] == "";
      assert Split("", "\n") == [""];
    } else {
      assert s[1..] == p[1..] + "\n";
      LastPieceNewline(p[1..]);
      if p[0] == '\n' {
        assert s[..1] == "\n";
      } else {
        assert s[..1] != "\n" by { assert s[..1][0] == p[0]; }
      }
    }
  }

  // ---------------------------------------------------------------------
  // The stub branch

  /** JavaScript's line terminators, which `.` does not match. */
  predicate LineTerminator(c: char)
  {
    c == '\n' || c == '\r' || c == '\U{2028}' || c == '\U{2029}'
  }

  /** The lazy `.*?stub\]` from position j: the first `stub]` before any
      line terminator. */
  function StubClose(s: string, j: nat): (r: Option<nat>)
    requires j <= |s|
    ensures r.Some? ==> j <= r.value && r.value + 5 <= |s| && s[r.value..r.value + 5] == "stub]"
    decreases |s| - j
  {
    if StartsWith(s[j..], "stub]") then Some(j)
    else if j == |s| || LineTerminator(s[j]) then None
    else StubClose(s, j + 1)
  }

  /** The end of the whitespace run (`\s*`, greedy) starting at j. */
  function SpaceRun(s: string, j: nat): (r: nat)
    requires j <= |s|
    ensures j <= r <= |s| && (r == |s| || !IsSpace(s[r]))
    ensures forall i :: j <= i < r ==> IsSpace(s[i])
    decreases |s| - j
  {
    if j < |s| && IsSpace(s[j]) then SpaceRun(s, j + 1) else j
  }

  /** The first match of `/\[.*?stub\]\s*\/` at or after i, as a range. */
  function StubMatch(s: string, i: nat): (r: Option<(nat, nat)>)
    requires i <= |s|
    ensures r.Some? ==> i <= r.value.0 < r.value.1 <= |s| && s[r.value.0] == '['
    decreases |s| - i
  {
    if i == |s| then None
    else if s[i] == '[' && StubClose(s, i + 1).Some? then
      Some((i, SpaceRun(s, StubClose(s, i + 1).value + 5)))
    else StubMatch(s, i + 1)
  }

  /** `s.replace(/\[.*?stub\]\s*\/, "")`: the first match removed. */
  function RemoveStubTag(s: string): string
  {
    match StubMatch(s, 0)
    case None => s
    case Some((a, b)) => s[..a] + s[b..]
  }

  /** `t.substring(0, n) + "..."` when `t` is longer than n. */
  function Cut(t: string, n: nat): (r: string)
    ensures |t| <= n ==> r == t
    ensures |t| > n ==> |r| == n + 3 && r[..n] == t[..n]
  {
    if |t| > n then t[..n] + "..." else t
  }

  /** `s.slice(0, n)`. */
  function Take(s: string, n: nat): (r: string)
    ensures |r| == if |s| < n then |s| else n
  {
    if |s| <= n then s else s[..n]
  }

  /** The stub answer of every mode outside the five named ones. */
  function StubText(m: string, prompt: string, style: string): (r: string)
    ensures style == "concise" ==> |r| <= 83
  {
    var s := "[" + m + " stream stub] " + Take(prompt, 120);
    if style == "concise" then Cut(Trim(RemoveStubTag(s)), 80) else s
  }

  /** In concise style, for a mode without `stub]` and without line breaks,
      the `[… stub] ` tag goes and what is left is the trimmed prompt
      (at most 120 characters of it), cut to 80 characters plus "...". */
  lemma {:induction false} ConciseStub(m: string, prompt: string)
    requires !Contains(m, "stub]")
    requires forall i :: 0 <= i < |m| ==> !LineTerminator(m[i])
    ensures StubText(m, prompt, "concise") == Cut(Trim(Take(prompt, 120)), 80)
  {
    var p := Take(prompt, 120);
    var s := "[" + m + " stream stub] " + p;
    var c := |m| + 14;
    StubTagAt(m, p);
    var e := SpaceRun(s, c);
    assert RemoveStubTag(s) == s[e..];
    TrimFrom(s, c, e);
    assert s[c] == ' ';
    TrimFrom(s, c, c + 1);
    assert s[c + 1..] == p;
  }

  /** The tag of the stub text is the first match of the pattern. */
  lemma {:induction false} StubTagAt(m: string, p: string)
    requires !Contains(m, "stub]")
    requires forall i :: 0 <= i < |m| ==> !LineTerminator(m[i])
    ensures var s := "[" + m + " stream stub] " + p;
      StubMatch(s, 0) == Some((0, SpaceRun(s, |m| + 14)))
  {
    var s := "[" + m + " stream stub] " + p;
    StubCloseAt(s, m, p, 1);
  }

  /** Inside `[m stream stub]`, the first `stub]` after position j is the
      one that closes the tag. */
  lemma {:induction false} StubCloseAt(s: string, m: string, p: string, j: nat)
    requires s == "[" + m + " stream stub] " + p
    requires !Contains(m, "stub]")
    requires forall i :: 0 <= i < |m| ==> !LineTerminator(m[i])
    requires 1 <= j <= |m| + 9
    ensures StubClose(s, j) == Some(|m| + 9)
    decreases |m| + 9 - j
  {
    if j == |m| + 9 {
      TagClose(s, m, p);
    } else {
      NotInTag(s, m, p, j);
      TagChar(s, m, p, j);
      StubCloseStep(s, j);
      StubCloseAt(s, m, p, j + 1);
    }
  }

  lemma {:induction false} TagClose(s: string, m: string, p: string)
    requires s == "[" + m + " stream stub] " + p
    ensures StubClose(s, |m| + 9) == Some(|m| + 9)
  {
    assert s[|m| + 9..][..5] == "stub]";
  }

  /** The characters before `stub]` in the tag are no line terminators. */
  lemma {:induction false} TagChar(s: string, m: string, p: string, j: nat)
    requires s == "[" + m + " stream stub] " + p
    requires forall i :: 0 <= i < |m| ==> !LineTerminator(m[i])
    requires 1 <= j < |m| + 9
    ensures !LineTerminator(s[j])
  {
    if j <= |m| {
      assert s[j] == m[j - 1];
    } else {
      var u := s[|m| + 1..|m| + 9];
      assert u == " stream ";
      assert s[j] == u[j - |m| - 1];
    }
  }

  lemma {:induction false} StubCloseStep(s: string, j: nat)
    requires j < |s| && !StartsWith(s[j..], "stub]") && !LineTerminator(s[j])
    ensures StubClose(s, j) == StubClose(s, j + 1)
  {
  }

  /** No `stub]` starts before the one closing the tag: one starting in `m`
      would lie in `m` or run into the space after it. */
  lemma {:induction false} NotInTag(s: string, m: string, p: string, j: nat)
    requires s == "[" + m + " stream stub] " + p
    requires !Contains(m, "stub]")
    requires 1 <= j < |m| + 9
    ensures !StartsWith(s[j..], "stub]")
  {
    if j + 5 <= |m| + 1 {
      forall q | 0 <= q < 5 ensures s[j..][..5][q] == m[j - 1..][..5][q] {
        assert s[j + q] == m[j - 1 + q];
      }
      assert s[j..][..5] == m[j - 1..][..5];
      NotContainsAt(m, j - 1, "stub]");
    } else if j <= |m| + 1 {
      assert s[j..][..5][|m| + 1 - j] == ' ';
      assert ' ' !in "stub]";
    } else if j == |m| + 2 {
      assert s[j..][..5][2] == s[|m| + 4] == 'r';
    } else {
      var u := s[|m| + 3..|m| + 9];
      assert u == "tream ";
      assert s[j..][..5][0] == u[j - |m| - 3];
      assert 's' !in u;
    }
  }

  /** A text without p has no position where p starts. */
  lemma {:induction false} NotContainsAt(s: string, i: nat, p: string)
    requires i <= |s| && !Contains(s, p)
    ensures !StartsWith(s[i..], p)
    decreases i
  {
    if i > 0 {
      assert s[1..][i - 1..] == s[i..];
      NotContainsAt(s[1..], i - 1, p);
    }
  }

  /** A prefix test at position i shows containment. */
  lemma {:induction false} ContainsAt(s: string, i: nat, p: string)
    requires i <= |s| && StartsWith(s[i..], p)
    ensures Contains(s, p)
    decreases i
  {
    if i > 0 {
      assert s[1..][i - 1..] == s[i..];
      ContainsAt(s[1..], i - 1, p);
    }
  }

  /** Whitespace between a and b makes no difference once trimmed. */
  lemma {:induction false} TrimFrom(s: string, a: nat, b: nat)
    requires a <= b <= |s| && forall i :: a <= i < b ==> IsSpace(s[i])
    ensures Trim(s[b..]) == Trim(s[a..])
    decreases b - a
  {
    if a < b {
      assert s[a..][0] == s[a];
      assert s[a..][1..] == s[a + 1..];
      TrimFrom(s, a + 1, b);
    }
  }

  // ---------------------------------------------------------------------
  // Image requests in the OpenAI branch

  const ImageKeywords: seq<string> :=
    ["image", "picture", "photo", "draw", "generate image", "create image", "show me an image", "visualize as image"]

  /** `prompt.length < 500` and some keyword occurs in the lower-cased prompt. */
  predicate WantsImage(prompt: string)
  {
    |prompt| < 500 && ContainsAny(ToLower(prompt), ImageKeywords)
  }

  /** The four longer keywords all contain "image", so only four words
      matter. */
  lemma {:induction false} WantsImageWords(prompt: string)
    ensures WantsImage(prompt) <==>
      |prompt| < 500 && ContainsAny(ToLower(prompt), ["image", "picture", "photo", "draw"])
  {
    var l := ToLower(prompt);
    if ContainsAny(l, ImageKeywords) {
      var k :| 0 <= k < |ImageKeywords| && Contains(l, ImageKeywords[k]);
      if k >= 4 {
        var kw := ImageKeywords[k];
        assert kw[|kw| - 5..] == "image";
        ContainsTail(l, kw, |kw| - 5);
        assert Contains(l, ["image", "picture", "photo", "draw"][0]);
      } else {
        assert Contains(l, ["image", "picture", "photo", "draw"][k]);
      }
    }
    if ContainsAny(l, ["image", "picture", "photo", "draw"]) {
      var k :| 0 <= k < 4 && Contains(l, ["image", "picture", "photo", "draw"][k]);
      assert ImageKeywords[k] == ["image", "picture", "photo", "draw"][k];
    }
  }

  /** Containing p means containing every tail of p. */
  lemma {:induction false} ContainsTail(s: string, p: string, n: nat)
    requires n <= |p| && Contains(s, p)
    ensures Contains(s, p[n..])
    decreases |s|
  {
    if StartsWith(s, p) {
      assert s[n..][..|p| - n] == p[n..];
      ContainsAt(s, n, p[n..]);
    } else {
      ContainsTail(s[1..], p, n);
    }
  }

  /** The end of the line starting at j: the first line terminator, or the
      end of the text. */
  function LineEnd(s: string, j: nat): (r: nat)
    requires j <= |s|
    ensures j <= r <= |s| && (r == |s| || LineTerminator(s[r]))
    ensures forall i :: j <= i < r ==> !LineTerminator(s[i])
    decreases |s| - j
  {
    if j == |s| || LineTerminator(s[j]) then j else LineEnd(s, j + 1)
  }

  /** `(.+?)(?:\n|$)` after the whitespace ending at w, backtracking the
      greedy `\s*` down to `start`. */
  function QuestionGroupFrom(s: string, start: nat, w: nat): Option<string>
    requires start <= w <= |s|
    decreases w - start
  {
    var g := LineEnd(s, w);
    if g > w && (g == |s| || s[g] == '\n') then Some(s[w..g])
    else if w == start then None
    else QuestionGroupFrom(s, start, w - 1)
  }

  /** The capture of `/Question:\s*(.+?)(?:\n|$)/` tried at every position
      from i on. */
  function QuestionMatch(s: string, i: nat): Option<string>
    requires i <= |s|
    decreases |s| - i
  {
    if i == |s| then None
    else if StartsWith(s[i..], "Question:") && QuestionGroupFrom(s, i + 9, SpaceRun(s, i + 9)).Some? then
      QuestionGroupFrom(s, i + 9, SpaceRun(s, i + 9))
    else QuestionMatch(s, i + 1)
  }

  /** The prompt sent to the image model: the trimmed capture when the
      pattern matches, the whole prompt otherwise. */
  function ImagePrompt(prompt: string): string
  {
    match QuestionMatch(prompt, 0)
    case Some(q) => Trim(q)
    case None => prompt
  }

  /** An enhanced prompt `<text>Question: <q>\n<rest>` whose text has no
      earlier `Question:` and whose question is one line starting with
      non-whitespace yields that question, trimmed. */
  lemma {:induction false} ImagePromptQuestion(pre: string, q: string, rest: string)
    requires forall k :: 0 <= k < |pre| ==> !StartsWith((pre + "Question: " + q + "\n" + rest)[k..], "Question:")
    requires q != [] && !IsSpace(q[0]) && forall i :: 0 <= i < |q| ==> !LineTerminator(q[i])
    ensures ImagePrompt(pre + "Question: " + q + "\n" + rest) == Trim(q)
  {
    var s := pre + "Question: " + q + "\n" + rest;
    var i := |pre|;
    assert s[i..][..9] == "Question:";
    assert s[i + 9] == ' ';
    assert SpaceRun(s, i + 10) == i + 10 by { assert s[i + 10] == q[0]; }
    assert SpaceRun(s, i + 9) == i + 10;
    QuestionLine(s, i + 10, q);
    assert QuestionGroupFrom(s, i + 9, i + 10) == Some(q);
    QuestionMatchSkip(s, 0, i);
  }

  lemma {:induction false} QuestionLine(s: string, w: nat, q: string)
    requires w + |q| < |s| && s[w..w + |q|] == q && s[w + |q|] == '\n'
    requires q != [] && forall i :: 0 <= i < |q| ==> !LineTerminator(q[i])
    ensures LineEnd(s, w) == w + |q|
    decreases |q|
  {
    assert s[w] == q[0];
    if |q| > 1 {
      assert s[w + 1..w + 1 + |q[1..]|] == q[1..];
      QuestionLine(s, w + 1, q[1..]);
    }
  }

  /** Positions without `Question:` are passed over. */
  lemma {:induction false} QuestionMatchSkip(s: string, j: nat, i: nat)
    requires j <= i < |s|
    requires forall k :: j <= k < i ==> !StartsWith(s[k..], "Question:")
    ensures QuestionMatch(s, j) == QuestionMatch(s, i)
    decreases i - j
  {
    if j < i {
      QuestionMatchSkip(s, j + 1, i);
    }
  }
}
