/** The stream consumer of the model console (frontend/components/ModelConsole.tsx):
    the response body is read chunk by chunk into a buffer, the buffer is
    split into event blocks on blank lines with the last, possibly partial,
    block carried over, and the `delta` string of each block's first `data: `
    line is appended to the final text. Reads are taken as already-decoded
    text; the JSON parser is a parameter. */
module ModelConsole {
  import opened Wrappers
  import opened Strings
  import opened Json
  import EventStream
  import ApiServer

  /** The first line starting with `data: `, as `lines.find(...)` returns it. */
  function FindData(lines: seq<string>): (r: Option<string>)
    ensures r.Some? ==> StartsWith(r.value, EventStream.DataPrefix) && r.value in lines
    ensures r.None? ==> forall i :: 0 <= i < |lines| ==> !StartsWith(lines[i], EventStream.DataPrefix)
  {
    if lines == [] then None
    else if StartsWith(lines[0], EventStream.DataPrefix) then Some(lines[0])
    else
      var r := FindData(lines[1..]);
      assert forall i :: 1 <= i < |lines| ==> lines[i] == lines[1..][i - 1];
      r
  }

  /** What one complete block adds to the text: nothing for a block starting
      `event: done`, for a block without a `data: ` line, for a payload that
      does not parse, or for one without a string `delta`; otherwise that
      delta. */
  function BlockDelta(block: string, parse: string -> Option<Json>): string
  {
    if StartsWith(block, "event: done") then ""
    else match FindData(Split(block, "\n"))
      case None => ""
      case Some(line) =>
        match parse(Trim(line[|EventStream.DataPrefix|..]))
        case None => ""
        case Some(v) => GetString(v, "delta").GetOr("")
  }

  /** `BlockDelta` under a fixed parser, as a function value. */
  function Reader(parse: string -> Option<Json>): string -> string
  {
    block => BlockDelta(block, parse)
  }

  /** What a list of blocks adds, each block read by `delta`, concatenated
      in order with nothing in between. */
  function DeltaText(blocks: seq<string>, delta: string -> string): string
  {
    if blocks == [] then "" else delta(blocks[0]) + DeltaText(blocks[1..], delta)
  }

  lemma {:induction false} DeltaTextAppend(a: seq<string>, b: seq<string>, delta: string -> string)
    ensures DeltaText(a + b, delta) == DeltaText(a, delta) + DeltaText(b, delta)
  {
    if a != [] {
      assert (a + b)[1..] == a[1..] + b;
      DeltaTextAppend(a[1..], b, delta);
    } else {
      assert a + b == b;
    }
  }

  /** The text made from everything received so far: the deltas of every
      block that a blank line has completed, each block read by `delta`
      (the console's reader is `Reader(parse)`). */
  function StreamText(received: string, delta: string -> string): string
  {
    DeltaText(AllButLast(Split(received, EventStream.BlockSep)), delta)
  }

  /** The streaming branch of `handleGenerate`, with `delta` reading one
      block (`Reader(parse)` in the console). Its result depends only on
      the concatenation of the reads, not on where the network cut them. */
  method ReadStream(chunks: seq<string>, delta: string -> string) returns (finalText: string)
    ensures finalText == StreamText(Concat(chunks), delta)
  {
    finalText := "";
    var buffer := "";
    var k := 0;
    while k < |chunks|
      invariant 0 <= k <= |chunks|
      invariant buffer == Last(Split(Concat(chunks[..k]), EventStream.BlockSep))
      invariant finalText == StreamText(Concat(chunks[..k]), delta)
    {
      ReadStep(chunks, k, delta);
      buffer := buffer + chunks[k];
      var parts := Split(buffer, EventStream.BlockSep);
      var complete := parts[..|parts| - 1];
      buffer := parts[|parts| - 1];
      finalText := AppendDeltas(finalText, complete, delta);
      k := k + 1;
    }
    assert chunks[..|chunks|] == chunks;
  }

  /** The inner loop over the completed blocks of one read: each block's
      delta, as `delta` reads it, is appended in order. */
  method AppendDeltas(text: string, complete: seq<string>, delta: string -> string) returns (r: string)
    ensures r == text + DeltaText(complete, delta)
  {
    r := text;
    for j := 0 to |complete|
      invariant r == text + DeltaText(complete[..j], delta)
    {
      assert complete[..j + 1] == complete[..j] + [complete[j]];
      DeltaTextAppend(complete[..j], [complete[j]], delta);
      r := r + delta(complete[j]);
    }
    assert complete[..|complete|] == complete;
  }

  /** The loop step of `ReadStream`, stated on the reads themselves. */
  lemma {:induction false} ReadStep(chunks: seq<string>, k: nat, delta: string -> string)
    requires k < |chunks|
    ensures var parts := Split(Last(Split(Concat(chunks[..k]), EventStream.BlockSep)) + chunks[k], EventStream.BlockSep);
      Last(Split(Concat(chunks[..k + 1]), EventStream.BlockSep)) == parts[|parts| - 1] &&
      StreamText(Concat(chunks[..k + 1]), delta) ==
        StreamText(Concat(chunks[..k]), delta) + DeltaText(parts[..|parts| - 1], delta)
  {
    ReceiveStep(Concat(chunks[..k]), chunks[k], delta);
    ConcatStep(chunks, k);
  }

  /** One more read: the blocks it completes are those of the carried
      buffer plus the read, and the new buffer is that split's last piece. */
  lemma {:induction false} ReceiveStep(received: string, read: string, delta: string -> string)
    ensures var parts := Split(Last(Split(received, EventStream.BlockSep)) + read, EventStream.BlockSep);
      Last(Split(received + read, EventStream.BlockSep)) == Last(parts) &&
      StreamText(received + read, delta) == StreamText(received, delta) + DeltaText(AllButLast(parts), delta)
  {
    var prev := Split(received, EventStream.BlockSep);
    var parts := Split(Last(prev) + read, EventStream.BlockSep);
    SplitAppend(received, read, EventStream.BlockSep);
    var all := AllButLast(prev) + parts;
    assert AllButLast(all) == AllButLast(prev) + AllButLast(parts);
    DeltaTextAppend(AllButLast(prev), AllButLast(parts), delta);
  }

  // ---------------------------------------------------------------------
  // Reading the backend's stream
  // ---------------------------------------------------------------------

  /** A delta block of the backend, as one block of the stream, contributes
      its delta. */
  lemma {:induction false} DeltaBlockText(ser: Json -> string, parse: string -> Option<Json>, d: string)
    requires Codec(ser, parse)
    ensures var block := EventStream.DataPrefix + ser(StrObj("delta", d));
      EventStream.Piece(block) && BlockDelta(block, parse) == d
  {
    var t := ser(StrObj("delta", d));
    var block := EventStream.DataPrefix + t;
    FramedLine(t);
    assert Split(block, "\n") == [block] by { SplitNoNewline(block); }
    assert !StartsWith(block, "event: done") by {
      assert block[0] == 'd';
    }
    assert block[|EventStream.DataPrefix|..] == t;
    TrimLine(t);
    StrObjField("delta", d);
  }

  /** A serialised payload framed by `data: ` is one line and one block. */
  lemma {:induction false} FramedLine(t: string)
    requires Serialised(t)
    ensures var block := EventStream.DataPrefix + t;
      EventStream.NoNewline(block) && EventStream.Piece(block) && StartsWith(block, EventStream.DataPrefix)
  {
    var block := EventStream.DataPrefix + t;
    assert EventStream.NoNewline(t);
    EventStream.FramedIsPiece(t);
    forall i | 0 <= i < |block| ensures block[i] != '\n' {
      if i >= |EventStream.DataPrefix| { assert block[i] == t[i - |EventStream.DataPrefix|]; }
    }
  }

  lemma {:induction false} SplitNoNewline(x: string)
    requires EventStream.NoNewline(x)
    ensures Split(x, "\n") == [x]
  {
    NoNewlineNotContains(x);
    SplitNoSep(x, "\n");
  }

  lemma {:induction false} NoNewlineNotContains(x: string)
    requires EventStream.NoNewline(x)
    ensures !Contains(x, "\n")
    decreases |x|
  {
    if x != [] {
      assert x[..1] != "\n" by { assert x[..1][0] == x[0]; }
      NoNewlineNotContains(x[1..]);
    }
  }

  /** The done block of the backend is one block that contributes nothing
      and leaves an empty buffer. */
  lemma {:induction false} DoneText(parse: string -> Option<Json>)
    ensures Split(EventStream.DoneBlock, EventStream.BlockSep) == [EventStream.DoneBody, ""]
    ensures BlockDelta(EventStream.DoneBody, parse) == ""
  {
    DoneSplit();
    DoneSkipped(parse);
  }

  lemma {:induction false} DoneSplit()
    ensures Split(EventStream.DoneBlock, EventStream.BlockSep) == [EventStream.DoneBody, ""]
  {
    var a, b := "event: done", "data: {}";
    assert EventStream.DoneBody == a + "\n" + b;
    assert EventStream.NoNewline(a) && EventStream.NoNewline(b);
    TwoLinesPiece(a, b);
    EventStream.SplitPieceEnd(EventStream.DoneBody);
  }

  lemma {:induction false} DoneSkipped(parse: string -> Option<Json>)
    ensures BlockDelta(EventStream.DoneBody, parse) == ""
  {
    assert StartsWith(EventStream.DoneBody, "event: done") by {
      assert EventStream.DoneBody[..|"event: done"|] == "event: done";
    }
  }

  /** Two lines joined by one line break form a single block. */
  lemma {:induction false} TwoLinesPiece(a: string, b: string)
    requires EventStream.NoNewline(a) && EventStream.NoNewline(b) && b != []
    ensures EventStream.Piece(a + "\n" + b)
    decreases |a|
  {
    var x := a + "\n" + b;
    assert x[|x| - 1] == b[|b| - 1];
    if a == [] {
      assert x == "\n" + b;
      assert x[..2] != EventStream.BlockSep by { assert x[..2][1] == b[0]; }
      assert x[1..] == b;
      EventStream.NoNewlineNoSep(b);
    } else {
      assert x[..2] != EventStream.BlockSep by { assert x[..2][0] == a[0]; }
      assert x[1..] == a[1..] + "\n" + b;
      TwoLinesPiece(a[1..], b);
    }
  }

  /** The block bodies of a list of delta blocks. */
  function Pieces(ser: Json -> string, ds: seq<string>): (r: seq<string>)
    ensures |r| == |ds|
  {
    if ds == [] then [] else [EventStream.DataPrefix + ser(StrObj("delta", ds[0]))] + Pieces(ser, ds[1..])
  }

  /** The blank-line splitter reads the backend's delta blocks back as their
      bodies, whatever follows them. */
  lemma {:induction false} SplitBlocks(ser: Json -> string, parse: string -> Option<Json>, ds: seq<string>, tail: string)
    requires Codec(ser, parse)
    ensures Split(Concat(ApiServer.Blocks(ser, ds)) + tail, EventStream.BlockSep) == Pieces(ser, ds) + Split(tail, EventStream.BlockSep)
  {
    if ds != [] {
      var block := EventStream.DataPrefix + ser(StrObj("delta", ds[0]));
      var t := Concat(ApiServer.Blocks(ser, ds[1..])) + tail;
      var rest := Split(t, EventStream.BlockSep);
      assert Concat(ApiServer.Blocks(ser, ds)) + tail == block + EventStream.BlockSep + t by {
        BlocksHead(ser, ds, tail);
      }
      assert Split(block + EventStream.BlockSep + t, EventStream.BlockSep) == [block] + rest by {
        DeltaBlockText(ser, parse, ds[0]);
        EventStream.SplitPiece(block, t);
      }
      assert rest == Pieces(ser, ds[1..]) + Split(tail, EventStream.BlockSep) by {
        SplitBlocks(ser, parse, ds[1..], tail);
      }
      assert Pieces(ser, ds) == [block] + Pieces(ser, ds[1..]);
      AppendAssoc([block], Pieces(ser, ds[1..]), Split(tail, EventStream.BlockSep));
    } else {
      assert Concat(ApiServer.Blocks(ser, ds)) + tail == tail;
    }
  }

  lemma {:induction false} BlocksHead(ser: Json -> string, ds: seq<string>, tail: string)
    requires ds != []
    ensures Concat(ApiServer.Blocks(ser, ds)) + tail ==
      EventStream.DataPrefix + ser(StrObj("delta", ds[0])) + EventStream.BlockSep + (Concat(ApiServer.Blocks(ser, ds[1..])) + tail)
  {
    var bs := ApiServer.Blocks(ser, ds);
    var x := EventStream.DataPrefix + ser(StrObj("delta", ds[0]));
    assert bs[0] == x + EventStream.BlockSep;
    assert bs[1..] == ApiServer.Blocks(ser, ds[1..]);
    assert Concat(bs) == bs[0] + Concat(bs[1..]);
    AppendAssoc(x + EventStream.BlockSep, Concat(bs[1..]), tail);
  }

  /** The bodies of the delta blocks contribute their deltas in order. */
  lemma {:induction false} PiecesText(ser: Json -> string, parse: string -> Option<Json>, ds: seq<string>)
    requires Codec(ser, parse)
    ensures DeltaText(Pieces(ser, ds), Reader(parse)) == Concat(ds)
  {
    if ds != [] {
      DeltaBlockText(ser, parse, ds[0]);
      PiecesText(ser, parse, ds[1..]);
    }
  }

  /** Reading the backend's local stream — a delta block per group of words,
      then the done block — gives the deltas concatenated with nothing in
      between. */
  lemma {:induction false} BackendStreamText(ser: Json -> string, parse: string -> Option<Json>, ds: seq<string>)
    requires Codec(ser, parse)
    ensures StreamText(Concat(ApiServer.Blocks(ser, ds) + [EventStream.DoneBlock]), Reader(parse)) == Concat(ds)
  {
    var bs := ApiServer.Blocks(ser, ds);
    var ps := Pieces(ser, ds);
    var s := Concat(bs + [EventStream.DoneBlock]);
    assert s == Concat(bs) + EventStream.DoneBlock by {
      ConcatAppend(bs, [EventStream.DoneBlock]);
      assert Concat([EventStream.DoneBlock]) == EventStream.DoneBlock + Concat([]);
    }
    assert Split(s, EventStream.BlockSep) == ps + [EventStream.DoneBody, ""] by {
      DoneText(parse);
      SplitBlocks(ser, parse, ds, EventStream.DoneBlock);
    }
    assert AllButLast(ps + [EventStream.DoneBody, ""]) == ps + [EventStream.DoneBody];
    assert DeltaText(ps + [EventStream.DoneBody], Reader(parse)) == Concat(ds) by {
      DeltaTextAppend(ps, [EventStream.DoneBody], Reader(parse));
      DoneText(parse);
      PiecesText(ser, parse, ds);
    }
  }

  /** A word of the backend's text: non-empty and without whitespace. */
  predicate Word(w: string)
  {
    w != [] && NoSpace(w)
  }

  /** Splitting words joined by single spaces on ' ' gives the words back. */
  lemma {:induction false} SplitJoinWords(ws: seq<string>)
    requires ws != [] && forall i :: 0 <= i < |ws| ==> Word(ws[i])
    ensures Split(Join(ws, " "), " ") == ws
  {
    if |ws| == 1 {
      WordSplit(ws[0], "");
    } else {
      assert Join(ws, " ") == ws[0] + " " + Join(ws[1..], " ");
      WordSplit(ws[0], Join(ws[1..], " "));
      SplitJoinWords(ws[1..]);
      assert ws == [ws[0]] + ws[1..];
    }
  }

  /** A word followed by a space is the first piece of the split. */
  lemma {:induction false} WordSplit(w: string, rest: string)
    requires Word(w)
    ensures rest == [] ==> Split(w, " ") == [w]
    ensures Split(w + " " + rest, " ") == [w] + Split(rest, " ")
  {
    assert forall i :: 0 <= i < |w| ==> w[i] != ' ';
    SplitNoChar(w, ' ');
    SplitAtChar(w, ' ', rest);
  }

  /** Four tight words make two groups: the first three joined by single
      spaces, and the fourth alone. */
  lemma {:induction false} TightGroups(ws: seq<string>)
    requires |ws| == 4 && forall i :: 0 <= i < |ws| ==> ApiServer.Tight(ws[i])
    ensures ApiServer.Deltas(ws) == [Join(ws[..3], " "), ws[3]]
  {
    TightGroup(ws[..3]);
    ApiServer.AccumulateOne(ws[3]);
    DeltasTwoGroups(ws);
  }

  lemma {:induction false} TightGroup(g: seq<string>)
    requires g != [] && forall i :: 0 <= i < |g| ==> ApiServer.Tight(g[i])
    ensures ApiServer.Accumulate("", g) == Join(g, " ")
  {
    ApiServer.AccumulateFromEmpty(g);
  }

  lemma {:induction false} DeltasTwoGroups(ws: seq<string>)
    requires |ws| == 4
    ensures ApiServer.Deltas(ws) == [ApiServer.Accumulate("", ws[..3]), ApiServer.Accumulate("", [ws[3]])]
  {
    assert ws[3..] == [ws[3]];
  }

  /** The backend sends four words `a b c d` as the deltas `a b c` and `d`;
      the console shows `a b cd`: the space between two groups is lost. */
  lemma {:induction false} DropsGroupSpaces(ser: Json -> string, parse: string -> Option<Json>, ws: seq<string>)
    requires Codec(ser, parse)
    requires |ws| == 4 && forall i :: 0 <= i < |ws| ==> Word(ws[i])
    ensures var ds := ApiServer.Deltas(Split(Join(ws, " "), " "));
      ds == [Join(ws[..3], " "), ws[3]] &&
      StreamText(Concat(ApiServer.Blocks(ser, ds) + [EventStream.DoneBlock]), Reader(parse)) == Join(ws[..3], " ") + ws[3] &&
      Join(ws[..3], " ") + ws[3] != Join(ws, " ")
  {
    FourWordDeltas(ws);
    TwoDeltasText(ser, parse, Join(ws[..3], " "), ws[3]);
    JoinLast(ws);
  }

  lemma {:induction false} FourWordDeltas(ws: seq<string>)
    requires |ws| == 4 && forall i :: 0 <= i < |ws| ==> Word(ws[i])
    ensures ApiServer.Deltas(Split(Join(ws, " "), " ")) == [Join(ws[..3], " "), ws[3]]
  {
    SplitJoinWords(ws);
    TightGroups(ws);
  }

  lemma {:induction false} TwoDeltasText(ser: Json -> string, parse: string -> Option<Json>, a: string, b: string)
    requires Codec(ser, parse)
    ensures StreamText(Concat(ApiServer.Blocks(ser, [a, b]) + [EventStream.DoneBlock]), Reader(parse)) == a + b
  {
    BackendStreamText(ser, parse, [a, b]);
    ConcatPair(a, b);
  }

  lemma {:induction false} JoinLast(ws: seq<string>)
    requires |ws| == 4
    ensures Join(ws, " ") == Join(ws[..3], " ") + " " + ws[3]
  {
    ApiServer.JoinAppend(ws[..3], ws[3..]);
    assert ws[..3] + ws[3..] == ws;
    assert ws[3..] == [ws[3]];
  }

  lemma {:induction false} ConcatPair(a: string, b: string)
    ensures Concat([a, b]) == a + b
  {
    assert [a, b][1..] == [b];
    assert Concat([b]) == b + Concat([]);
  }

  // ---------------------------------------------------------------------
  // Logging and the follow-up path
  // ---------------------------------------------------------------------

  /** The text logged after the stream ends: `finalText || output`, where
      `output` is the console's state as it was when the click handler was
      created, i.e. the previous generation's output. `None` when nothing is
      logged. */
  function LoggedText(finalText: string, staleOutput: string): (r: Option<string>)
    ensures finalText != "" ==> r == Some(finalText)
    ensures r.None? <==> finalText == "" && staleOutput == ""
  {
    var text := if finalText != "" then finalText else staleOutput;
    if text != "" then Some(text) else None
  }

  /** The follow-up request's streaming path: the decoded chunks are
      appended as they are, with no event parsing. */
  method CollectFollowUp(chunks: seq<string>) returns (detailed: string)
    ensures detailed == Concat(chunks)
  {
    detailed := "";
    for k := 0 to |chunks|
      invariant detailed == Concat(chunks[..k])
    {
      ConcatStep(chunks, k);
      detailed := detailed + chunks[k];
    }
    assert chunks[..|chunks|] == chunks;
  }

  /** So a follow-up answer read from the backend's stream keeps the event
      framing: it starts with the first block's `data: ` prefix. */
  lemma {:induction false} FollowUpKeepsFraming(ser: Json -> string, ds: seq<string>)
    requires ds != []
    ensures StartsWith(Concat(ApiServer.Blocks(ser, ds) + [EventStream.DoneBlock]), EventStream.DataPrefix)
  {
    var bs := ApiServer.Blocks(ser, ds) + [EventStream.DoneBlock];
    var b := bs[0];
    assert b == EventStream.DataPrefix + ser(StrObj("delta", ds[0])) + EventStream.BlockSep;
    assert Concat(bs) == b + Concat(bs[1..]);
    assert Concat(bs)[..|EventStream.DataPrefix|] == b[..|EventStream.DataPrefix|];
  }
}
