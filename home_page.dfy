/** The main prompt page of the web app (app/page.tsx): the event-stream
    reader `streamFromAPI`, the conversational signup (a small state
    machine over the page's state), the hidden greeting typed in binary,
    and the credit cost of a request. Rendering, network calls and browser
    storage are left out; the stored signup data and the redirect target
    are fields. */
module HomePage {
  import opened Wrappers
  import opened Strings
  import EventStream
  import GenerateStream

  // ---------------------------------------------------------------------
  // streamFromAPI

  /** What the reader yields for a list of complete parts: the text after
      `data: ` of each part that starts with it, in order. */
  function DataPayloads(parts: seq<string>): (r: seq<string>)
    ensures |r| <= |parts|
  {
    if parts == [] then []
    else
      (if StartsWith(parts[0], EventStream.DataPrefix) then [parts[0][|EventStream.DataPrefix|..]] else [])
      + DataPayloads(parts[1..])
  }

  lemma {:induction false} DataPayloadsAppend(a: seq<string>, b: seq<string>)
    ensures DataPayloads(a + b) == DataPayloads(a) + DataPayloads(b)
  {
    if a != [] {
      assert (a + b)[0] == a[0];
      assert (a + b)[1..] == a[1..] + b;
      DataPayloadsAppend(a[1..], b);
    } else {
      assert a + b == b;
    }
  }

  /** One more part yields its payload, if it has one. */
  lemma {:induction false} DataPayloadsSnoc(parts: seq<string>, j: nat)
    requires j < |parts|
    ensures DataPayloads(parts[..j + 1]) == DataPayloads(parts[..j]) + DataPayloads([parts[j]])
    ensures DataPayloads([parts[j]]) ==
      if StartsWith(parts[j], EventStream.DataPrefix) then [parts[j][|EventStream.DataPrefix|..]] else []
  {
    assert parts[..j + 1] == parts[..j] + [parts[j]];
    DataPayloadsAppend(parts[..j], [parts[j]]);
    assert [parts[j]][1..] == [];
  }

  /** Everything yielded once `received` has arrived: the payloads of the
      parts that a blank line has completed. */
  function Payloads(received: string): seq<string>
  {
    DataPayloads(AllButLast(Split(received, EventStream.BlockSep)))
  }

  /** `streamFromAPI`: reads are appended to `buf`, which is split on
      "\n\n" with its last piece carried over. What it yields depends only
      on the concatenated reads. */
  method StreamFromAPI(chunks: seq<string>) returns (yielded: seq<string>)
    ensures yielded == Payloads(Concat(chunks))
  {
    yielded := [];
    var buf := "";
    var k := 0;
    while k < |chunks|
      invariant 0 <= k <= |chunks|
      invariant yielded == Payloads(Concat(chunks[..k]))
      invariant buf == Last(Split(Concat(chunks[..k]), EventStream.BlockSep))
    {
      buf := buf + chunks[k];
      var parts := Split(buf, EventStream.BlockSep);
      buf := Last(parts);
      PayloadsRead(chunks, k);
      var complete := AllButLast(parts);
      for j := 0 to |complete|
        invariant yielded == Payloads(Concat(chunks[..k])) + DataPayloads(complete[..j])
      {
        DataPayloadsSnoc(complete, j);
        AppendAssoc(Payloads(Concat(chunks[..k])), DataPayloads(complete[..j]), DataPayloads([complete[j]]));
        if StartsWith(complete[j], EventStream.DataPrefix) {
          yielded := yielded + [complete[j][|EventStream.DataPrefix|..]];
        }
      }
      assert complete[..|complete|] == complete;
      k := k + 1;
    }
    assert chunks[..k] == chunks;
  }

  /** The loop step of `StreamFromAPI`: one more read. */
  lemma {:induction false} PayloadsRead(chunks: seq<string>, k: nat)
    requires k < |chunks|
    ensures var t := Split(Last(Split(Concat(chunks[..k]), EventStream.BlockSep)) + chunks[k], EventStream.BlockSep);
      Payloads(Concat(chunks[..k + 1])) == Payloads(Concat(chunks[..k])) + DataPayloads(AllButLast(t)) &&
      Last(Split(Concat(chunks[..k + 1]), EventStream.BlockSep)) == Last(t)
  {
    var before := Concat(chunks[..k]);
    var t := Split(Last(Split(before, EventStream.BlockSep)) + chunks[k], EventStream.BlockSep);
    ConcatStep(chunks, k);
    CompleteAppend(before, chunks[k], EventStream.BlockSep);
    DataPayloadsAppend(AllButLast(Split(before, EventStream.BlockSep)), AllButLast(t));
  }

  /** A payload that `send` can frame so that it is read back whole: no
      blank line inside and no line break at its end. */
  predicate Framable(p: string)
  {
    EventStream.Piece(EventStream.DataPrefix + p)
  }

  /** Splitting framed payloads followed by anything gives one part per
      payload, then the parts of what follows. */
  lemma {:induction false} SplitFrames(ps: seq<string>, rest: string)
    requires forall i :: 0 <= i < |ps| ==> Framable(ps[i])
    ensures Split(GenerateStream.Frames(ps) + rest, EventStream.BlockSep) ==
      Prefixed(ps) + Split(rest, EventStream.BlockSep)
  {
    if ps != [] {
      var x := EventStream.DataPrefix + ps[0];
      var fs := GenerateStream.Frames(ps[1..]);
      assert EventStream.Piece(x) by { assert Framable(ps[0]); }
      assert GenerateStream.Frames(ps) == x + EventStream.BlockSep + fs;
      AppendAssoc(x + EventStream.BlockSep, fs, rest);
      EventStream.SplitPiece(x, fs + rest);
      FramableTail(ps);
      SplitFrames(ps[1..], rest);
      AppendAssoc([x], Prefixed(ps[1..]), Split(rest, EventStream.BlockSep));
      assert Prefixed(ps) == [x] + Prefixed(ps[1..]);
    } else {
      assert GenerateStream.Frames(ps) + rest == rest;
    }
  }

  lemma {:induction false} FramableTail(ps: seq<string>)
    requires ps != [] && forall i :: 0 <= i < |ps| ==> Framable(ps[i])
    ensures forall i :: 0 <= i < |ps[1..]| ==> Framable(ps[1..][i])
  {
    forall i | 0 <= i < |ps[1..]| ensures Framable(ps[1..][i]) { assert ps[1..][i] == ps[i + 1]; }
  }

  /** Each payload with the `data: ` prefix. */
  function Prefixed(ps: seq<string>): (r: seq<string>)
    ensures |r| == |ps|
  {
    if ps == [] then [] else [EventStream.DataPrefix + ps[0]] + Prefixed(ps[1..])
  }

  lemma {:induction false} DataPayloadsPrefixed(ps: seq<string>)
    ensures DataPayloads(Prefixed(ps)) == ps
  {
    if ps != [] {
      var x := EventStream.DataPrefix + ps[0];
      assert StartsWith(x, EventStream.DataPrefix);
      assert x[|EventStream.DataPrefix|..] == ps[0];
      assert Prefixed(ps)[1..] == Prefixed(ps[1..]);
      DataPayloadsPrefixed(ps[1..]);
    }
  }

  /** The reader inverts the route's framing: every payload sent is yielded,
      in order, and an unfinished part at the end (no blank line yet) is
      never yielded. */
  lemma {:induction false} ReadsBackFrames(ps: seq<string>, tail: string)
    requires forall i :: 0 <= i < |ps| ==> Framable(ps[i])
    requires !Contains(tail, EventStream.BlockSep)
    ensures Payloads(GenerateStream.Frames(ps) + tail) == ps
  {
    SplitFrames(ps, tail);
    SplitNoSep(tail, EventStream.BlockSep);
    assert AllButLast(Prefixed(ps) + [tail]) == Prefixed(ps);
    DataPayloadsPrefixed(ps);
  }

  /** Keep-alive comments are skipped. */
  lemma {:induction false} HeartbeatSkipped(rest: string)
    ensures Payloads(EventStream.Heartbeat + rest) == Payloads(rest)
  {
    var hb := ":hb";
    assert EventStream.Piece(hb) by {
      EventStream.NoNewlineNoSep(hb);
    }
    assert EventStream.Heartbeat + rest == hb + EventStream.BlockSep + rest;
    EventStream.SplitPiece(hb, rest);
    var r := Split(rest, EventStream.BlockSep);
    assert AllButLast([hb] + r) == [hb] + AllButLast(r);
    DataPayloadsAppend([hb], AllButLast(r));
    assert !StartsWith(hb, EventStream.DataPrefix);
    assert [hb][1..] == [];
  }

  // ---------------------------------------------------------------------
  // The signup conversation and the prompt box

  datatype Flow = Idle | Asking | Collecting
  datatype Step = Email | Name | Phone | Password
  datatype SignupData = SignupData(name: string, email: string, phone: string, password: string)

  const NoSignupData := SignupData("", "", "", "")

  /** The assistant's scripted replies in the output box; `Text` is what
      the page shows for each. */
  datatype Reply = NoReply | AskEmail | AskName | AskPhone(name: string) | AskPassword | Declined | AskSignIn

  function Text(r: Reply): string
  {
    match r
    case NoReply => ""
    case AskEmail => "Great! Let's get started - what's your email address?"
    case AskName => "Got it! What's your full name?"
    case AskPhone(name) =>
      "Nice to meet you, " + name + "! What's your phone number? (optional - you can say \"skip\" if you prefer)"
    case AskPassword => "Perfect! Last step - what would you like your password to be? (at least 6 characters)"
    case Declined =>
      "No worries! When you're ready to create an account, just click the \"login/signup\" button in the top right corner.\n\nIs there anything else I can help you with?"
    case AskSignIn =>
      "Hello! I'd love to help you, but first you'll need to sign in to use INFINITO AI - I can help you sign up, yes/no?"
  }


  /** The 24-digit code "010010100100111101010010", written here one
      byte at a time. */
  const JorBinary := "01001010" + "01001111" + "01010010"
  const Welcome := "WELCOME INFINITO"

  /** The binary digits of the low n bits of `v`, most significant first. */
  function Bits(v: nat, n: nat): (r: string)
    ensures |r| == n
  {
    if n == 0 then "" else Bits(v / 2, n - 1) + [if v % 2 == 1 then '1' else '0']
  }

  /** `JOR_BINARY` spells "JOR" in 8-bit ASCII. */
  lemma {:induction false} JorBinarySpellsJor()
    ensures JorBinary == Bits('J' as nat, 8) + Bits('O' as nat, 8) + Bits('R' as nat, 8)
  {
    assert 'J' as nat == 74 && 'O' as nat == 79 && 'R' as nat == 82;
    BitsOfJ();
    BitsOfO();
    BitsOfR();
  }

  lemma {:induction false} BitsOfJ()
    ensures Bits(74, 8) == "01001010"
  {
    assert Bits(0, 1) == "0";
    assert Bits(1, 2) == "01";
    assert Bits(2, 3) == "010";
    assert Bits(4, 4) == "0100";
    assert Bits(9, 5) == "01001";
    assert Bits(18, 6) == "010010";
    assert Bits(37, 7) == "0100101";
    assert Bits(74, 8) == "01001010";
  }

  lemma {:induction false} BitsOfO()
    ensures Bits(79, 8) == "01001111"
  {
    assert Bits(0, 1) == "0";
    assert Bits(1, 2) == "01";
    assert Bits(2, 3) == "010";
    assert Bits(4, 4) == "0100";
    assert Bits(9, 5) == "01001";
    assert Bits(19, 6) == "010011";
    assert Bits(39, 7) == "0100111";
    assert Bits(79, 8) == "01001111";
  }

  lemma {:induction false} BitsOfR()
    ensures Bits(82, 8) == "01010010"
  {
    assert Bits(0, 1) == "0";
    assert Bits(1, 2) == "01";
    assert Bits(2, 3) == "010";
    assert Bits(5, 4) == "0101";
    assert Bits(10, 5) == "01010";
    assert Bits(20, 6) == "010100";
    assert Bits(41, 7) == "0101001";
    assert Bits(82, 8) == "01010010";
  }

  /** `value.replace(/\s/g, "")`. */
  function Unspaced(s: string): (r: string)
    ensures NoSpace(r) && |r| <= |s|
  {
    if s == [] then ""
    else (if IsSpace(s[0]) then "" else [s[0]]) + Unspaced(s[1..])
  }

  lemma {:induction false} UnspacedAppend(a: string, b: string)
    ensures Unspaced(a + b) == Unspaced(a) + Unspaced(b)
  {
    if a != [] {
      assert (a + b)[0] == a[0];
      assert (a + b)[1..] == a[1..] + b;
      UnspacedAppend(a[1..], b);
    } else {
      assert a + b == b;
    }
  }

  /** Whitespace typed anywhere in the prompt does not change the check. */
  lemma {:induction false} UnspacedIgnoresSpace(a: string, c: char, b: string)
    requires IsSpace(c)
    ensures Unspaced(a + [c] + b) == Unspaced(a + b)
  {
    UnspacedAppend(a + [c], b);
    UnspacedAppend(a, [c]);
    UnspacedAppend(a, b);
    assert Unspaced([c]) == "" by { assert [c][1..] == []; }
  }

  predicate IsImageGen(mode: string)
  {
    mode == "dalle_image" || mode == "runway_image"
  }

  predicate IsVideo(mode: string)
  {
    mode == "gen4_turbo" || mode == "gen3a_turbo" || mode == "gen4_aleph"
  }

  /** What `handleTransmit` does with a prompt, in the order of its checks. */
  datatype Action = Ignore | MakeVideo | MakeImage | AnswerSignup | NeedImage | OfferSignup | Generate(credits: nat)

  function Dispatch(prompt: string, mode: string, flow: Flow, hasImage: bool, signedIn: bool): (a: Action)
    ensures a == Ignore <==> IsBlank(prompt)
    ensures a == AnswerSignup <==> !IsBlank(prompt) && !IsVideo(mode) && !IsImageGen(mode) && flow == Collecting
    ensures a.Generate? <==>
      !IsBlank(prompt) && !IsVideo(mode) && !IsImageGen(mode) && flow != Collecting &&
      (IsVision(mode) ==> hasImage) && signedIn
    ensures a.Generate? ==> a.credits == RequiredCredits(mode)
    ensures a == NeedImage ==> IsVision(mode) && !hasImage
    ensures a == OfferSignup ==> !signedIn
  {
    if IsBlank(prompt) then Ignore
    else if IsVideo(mode) then MakeVideo
    else if IsImageGen(mode) then MakeImage
    else if flow == Collecting then AnswerSignup
    else if IsVision(mode) && !hasImage then NeedImage
    else if !signedIn then OfferSignup
    else Generate(RequiredCredits(mode))
  }

  /** The state of the page that these handlers read and write. */
  class Home {
    var prompt: string
    /** The text in the output box is `Text(output)`. */
    var output: Reply
    var response: string
    var flow: Flow
    var step: Step
    var data: SignupData
    /** `localStorage.signupData`, once written. */
    var stored: Option<SignupData>
    /** `window.location.href`, once assigned. */
    var location: Option<string>

    constructor ()
      ensures prompt == "" && output == NoReply && response == ""
      ensures flow == Idle && step == Email && data == NoSignupData
      ensures stored == None && location == None
    {
      prompt := "";
      output := NoReply;
      response := "";
      flow := Idle;
      step := Email;
      data := NoSignupData;
      stored := None;
      location := None;
    }

    /** `handleSignupYes`: the conversation starts over at the email step
        with every field empty. */
    method SignupYes()
      modifies this
      ensures output == AskEmail && prompt == "" && flow == Collecting
      ensures step == Email && data == NoSignupData
      ensures response == old(response) && stored == old(stored) && location == old(location)
    {
      output := AskEmail;
      prompt := "";
      flow := Collecting;
      step := Email;
      data := NoSignupData;
    }

    /** `handleSignupNo`: the refusal text is set and at once replaced by
        the empty output; the flow goes idle. */
    method SignupNo()
      modifies this
      ensures output == NoReply && flow == Idle
      ensures prompt == old(prompt) && step == old(step) && data == old(data)
      ensures response == old(response) && stored == old(stored) && location == old(location)
    {
      output := Declined;
      flow := Idle;
      output := NoReply;
    }

    /** `handleSkipPhone`: the phone is stored empty and the password is
        asked for. */
    method SkipPhone()
      modifies this
      ensures data == old(data).(phone := "") && step == Password
      ensures output == AskPassword && prompt == ""
      ensures flow == old(flow) && response == old(response) && stored == old(stored) && location == old(location)
    {
      data := data.(phone := "");
      output := AskPassword;
      prompt := "";
      step := Password;
    }

    /** `handleSignupInput`: the answer is stored in the field of the
        current step and the next question is asked; the password step
        stores the collected data and leaves for the signup page. */
    method SignupInput(input: string)
      modifies this
      ensures old(step) == Email ==> data == old(data).(email := input) && step == Name && output == AskName && prompt == ""
      ensures old(step) == Name ==> data == old(data).(name := input) && step == Phone && output == AskPhone(input) && prompt == ""
      ensures old(step) == Phone ==>
        data == old(data).(phone := if input == "skip" then "" else input) && step == Password && output == AskPassword && prompt == ""
      ensures old(step) == Password ==>
        data == old(data).(password := input) && stored == Some(data) && location == Some("/signup") &&
        step == Password && output == old(output) && prompt == old(prompt)
      ensures old(step) != Password ==> stored == old(stored) && location == old(location)
      ensures flow == old(flow) && response == old(response)
    {
      match step
      case Email =>
        data := data.(email := input);
        output := AskName;
        prompt := "";
        step := Name;
      case Name =>
        data := data.(name := input);
        output := AskPhone(input);
        prompt := "";
        step := Phone;
      case Phone =>
        data := data.(phone := if input == "skip" then "" else input);
        output := AskPassword;
        prompt := "";
        step := Password;
      case Password =>
        data := data.(password := input);
        stored := Some(data);
        location := Some("/signup");
    }

    /** The part of `handleTransmit` that changes this state: an answer
        during the signup conversation goes to `SignupInput` and the prompt
        is cleared; a visitor who is not signed in is offered the signup. */
    method Transmit(mode: string, hasImage: bool, signedIn: bool) returns (a: Action)
      modifies this
      ensures a == Dispatch(old(prompt), mode, old(flow), hasImage, signedIn)
      ensures a == AnswerSignup ==> prompt == "" && flow == Collecting
      ensures a == AnswerSignup && old(step) == Password ==>
        stored == Some(old(data).(password := old(prompt))) && location == Some("/signup")
      ensures a == AnswerSignup && old(step) != Password ==> step != old(step) && stored == old(stored)
      ensures a == OfferSignup ==> output == AskSignIn && flow == Asking && prompt == old(prompt)
      ensures a != AnswerSignup && a != OfferSignup ==>
        prompt == old(prompt) && output == old(output) && flow == old(flow) && step == old(step) &&
        data == old(data) && stored == old(stored) && location == old(location)
      ensures response == old(response)
    {
      a := Dispatch(prompt, mode, flow, hasImage, signedIn);
      if a == AnswerSignup {
        SignupInput(prompt);
        prompt := "";
      } else if a == OfferSignup {
        output := AskSignIn;
        flow := Asking;
      }
    }

    /** `handlePromptChange`: the greeting appears exactly when the prompt,
        whitespace removed, is the binary code. */
    method PromptChange(value: string)
      modifies this
      ensures prompt == value
      ensures response == (if Unspaced(value) == JorBinary then Welcome else "")
      ensures output == old(output) && flow == old(flow) && step == old(step) && data == old(data)
      ensures stored == old(stored) && location == old(location)
    {
      prompt := value;
      if Unspaced(value) == JorBinary {
        response := Welcome;
      } else {
        response := "";
      }
    }
  }

  /** The whole conversation: after "yes", the four answers in order (the
      phone answered "skip") store exactly those answers and leave for the
      signup page. */
  method Converse(h: Home, email: string, name: string, password: string)
    modifies h
    ensures h.stored == Some(SignupData(name, email, "", password))
    ensures h.location == Some("/signup")
  {
    h.SignupYes();
    h.SignupInput(email);
    h.SignupInput(name);
    h.SignupInput("skip");
    h.SignupInput(password);
  }

  // ---------------------------------------------------------------------
  // Credit cost

  /** `isVisionModel`, tested on the mode as it is. */
  predicate IsVision(mode: string)
  {
    mode == "blip" || mode == "llava"
  }

  /** The credits a request needs: 3 for the vision models, 1 otherwise. */
  function RequiredCredits(mode: string): (r: nat)
    ensures r == 1 || r == 3
  {
    if IsVision(mode) then 3 else 1
  }

  /** The page charges the vision price for a mode only when the stream
      route takes its vision branch; for lower-case modes (the page's own
      mode values) the converse holds as well. */
  lemma {:induction false} VisionPriceMatchesRoute(mode: string)
    ensures RequiredCredits(mode) == 3 ==> GenerateStream.ChooseRoute(mode).Vision?
    ensures ToLower(mode) == mode ==> (GenerateStream.ChooseRoute(mode).Vision? ==> RequiredCredits(mode) == 3)
  {
    if IsVision(mode) {
      assert ToLower(mode) == mode;
    }
  }
}
