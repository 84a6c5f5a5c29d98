/** The stand-alone generation script: the seed is encoded, cut to the
    context window of 8 ids, and exactly `length` ids are sampled, each step
    feeding the last 8 ids of the result together with the recurrent state
    returned by the previous step. There is no end-of-sequence stop and no
    top-k mask. The model forward pass and the multinomial draw are
    parameters; a forward pass that raises is `None`, and the exception then
    leaves the function. */
module Generate {
  import opened Wrappers

  const ContextLength := 8

  /** Logits of the last position and the new recurrent state. */
  datatype Step<H> = Step(logits: seq<real>, hidden: H)

  /** One model invocation: the id window and the state passed with it. */
  datatype Call<H> = Call(window: seq<nat>, hidden: Option<H>)

  /** The ids of a run, every call made, and whether a call raised. */
  datatype Run<H> = Run(result: seq<nat>, calls: seq<Call<H>>, failed: bool)

  /** Python's `s[-n:]` for `n > 0`: the last `n` elements, or all of them. */
  function LastN(s: seq<nat>, n: nat): seq<nat>
  {
    if |s| < n then s else s[|s| - n..]
  }

  /** The window is a suffix of at most `n` elements, and of exactly `n`
      elements when there are that many. */
  lemma {:induction false} LastNSuffix(s: seq<nat>, n: nat)
    ensures var r := LastN(s, n);
      |r| == (if |s| < n then |s| else n) && r == s[|s| - |r|..]
  {
  }

  /** `range(length)` runs `max(length, 0)` times. */
  function Steps(length: int): nat
  {
    if length > 0 then length else 0
  }

  /** The loop from a state: `left` iterations remain, `window` is the next
      model input and `hidden` the state to pass with it. */
  function Extend<H>(model: (seq<nat>, Option<H>) -> Option<Step<H>>, draw: (seq<real>, nat) -> nat,
                     result: seq<nat>, window: seq<nat>, hidden: Option<H>, calls: seq<Call<H>>, left: nat): Run<H>
    decreases left
  {
    if left == 0 then Run(result, calls, false)
    else
      var calls' := calls + [Call(window, hidden)];
      match model(window, hidden)
      case None => Run(result, calls', true)
      case Some(s) =>
        var result' := result + [draw(s.logits, |calls|)];
        Extend(model, draw, result', LastN(result', ContextLength), Some(s.hidden), calls', left - 1)
  }

  /** The whole run for the encoded seed `tokens`. */
  function Generation<H>(model: (seq<nat>, Option<H>) -> Option<Step<H>>, draw: (seq<real>, nat) -> nat,
                         tokens: seq<nat>, length: int): Run<H>
  {
    var seed := LastN(tokens, ContextLength);
    Extend(model, draw, seed, seed, None, [], Steps(length))
  }

  /** `generate_text(seed_text, length)`: the decoded result of the run, or
      `None` when the forward pass raised. */
  method GenerateText<H>(seedText: string, length: int, encode: string -> seq<nat>, decode: seq<nat> -> string,
                         model: (seq<nat>, Option<H>) -> Option<Step<H>>, draw: (seq<real>, nat) -> nat)
    returns (out: Option<string>)
    ensures var r := Generation(model, draw, encode(seedText), length);
      out == if r.failed then None else Some(decode(r.result))
  {
    var tokens := encode(seedText);
    tokens := LastN(tokens, ContextLength);
    var inputIds := tokens;
    var result := tokens;
    var hidden: Option<H> := None;
    ghost var calls: seq<Call<H>> := [];
    var n := Steps(length);
    var i := 0;
    while i < n
      invariant 0 <= i <= n && |calls| == i
      invariant Extend(model, draw, result, inputIds, hidden, calls, n - i) == Generation(model, draw, encode(seedText), length)
    {
      var s := model(inputIds, hidden);
      if s.None? {
        return None;
      }
      var nextId := draw(s.value.logits, i);
      calls := calls + [Call(inputIds, hidden)];
      result := result + [nextId];
      inputIds := LastN(result, ContextLength);
      hidden := Some(s.value.hidden);
      i := i + 1;
    }
    out := Some(decode(result));
  }

  // ---------------------------------------------------------------------
  // Properties of the run
  // ---------------------------------------------------------------------

  /** Growth from a state: the result keeps its ids and gains exactly one id
      per call that did not raise; a run that did not fail made all `left`
      calls. */
  lemma {:induction false} ExtendGrowth<H>(model: (seq<nat>, Option<H>) -> Option<Step<H>>, draw: (seq<real>, nat) -> nat,
                                           result: seq<nat>, window: seq<nat>, hidden: Option<H>, calls: seq<Call<H>>, left: nat)
    ensures var r := Extend(model, draw, result, window, hidden, calls, left);
      |result| <= |r.result| && r.result[..|result|] == result &&
      |calls| <= |r.calls| && r.calls[..|calls|] == calls &&
      |r.result| - |result| == |r.calls| - |calls| - (if r.failed then 1 else 0) &&
      (r.failed ==> |r.calls| - |calls| <= left) &&
      (!r.failed ==> |r.calls| - |calls| == left)
    decreases left
  {
    if left > 0 {
      match model(window, hidden)
      case None =>
      case Some(s) =>
        var calls' := calls + [Call(window, hidden)];
        var result' := result + [draw(s.logits, |calls|)];
        ExtendGrowth(model, draw, result', LastN(result', ContextLength), Some(s.hidden), calls', left - 1);
        var r := Extend(model, draw, result', LastN(result', ContextLength), Some(s.hidden), calls', left - 1);
        assert r.result[..|result|] == r.result[..|result'|][..|result|];
        assert r.calls[..|calls|] == r.calls[..|calls'|][..|calls|];
    }
  }

  /** The shape of a whole run: the result starts with the seed cut to its
      last 8 ids, and a run that did not raise appended exactly
      `max(length, 0)` ids. */
  lemma {:induction false} GenerationShape<H>(model: (seq<nat>, Option<H>) -> Option<Step<H>>, draw: (seq<real>, nat) -> nat,
                           tokens: seq<nat>, length: int)
    ensures var r := Generation(model, draw, tokens, length);
      var m := if |tokens| < ContextLength then |tokens| else ContextLength;
      m <= |r.result| <= m + Steps(length) &&
      r.result[..m] == tokens[|tokens| - m..] &&
      (!r.failed ==> |r.result| == m + Steps(length))
  {
    var seed := LastN(tokens, ContextLength);
    ExtendGrowth(model, draw, seed, seed, None, [], Steps(length));
  }

  /** In run `r`, the window of call `c` is the last 8 ids of the result as
      it stood before that call, `n` ids being there before call `m`. */
  ghost predicate WindowAt<H>(r: Run<H>, c: nat, n: nat, m: nat)
    requires m <= c < |r.calls| && c - m + n <= |r.result|
  {
    r.calls[c].window == LastN(r.result[..c - m + n], ContextLength)
  }

  /** Every model input is the last 8 ids of the result so far. */
  lemma {:induction false} ExtendWindows<H>(model: (seq<nat>, Option<H>) -> Option<Step<H>>, draw: (seq<real>, nat) -> nat,
                                            result: seq<nat>, window: seq<nat>, hidden: Option<H>, calls: seq<Call<H>>, left: nat)
    requires window == LastN(result, ContextLength)
    ensures var r := Extend(model, draw, result, window, hidden, calls, left);
      |r.result| - |result| >= |r.calls| - |calls| - 1 &&
      forall c: nat :: |calls| <= c < |r.calls| ==> WindowAt(r, c, |result|, |calls|)
    decreases left
  {
    ExtendGrowth(model, draw, result, window, hidden, calls, left);
    if left > 0 {
      match model(window, hidden)
      case None =>
        var r := Run(result, calls + [Call(window, hidden)], true);
        assert Extend(model, draw, result, window, hidden, calls, left) == r;
        assert r.result[..|result|] == result;
      case Some(s) =>
        var result' := result + [draw(s.logits, |calls|)];
        var r := Extend(model, draw, result', LastN(result', ContextLength), Some(s.hidden), calls + [Call(window, hidden)], left - 1);
        assert Extend(model, draw, result, window, hidden, calls, left) == r;
        WindowsRec(model, draw, result, window, hidden, calls, left, s);
    }
  }

  lemma {:induction false} WindowsRec<H>(model: (seq<nat>, Option<H>) -> Option<Step<H>>, draw: (seq<real>, nat) -> nat,
                                         result: seq<nat>, window: seq<nat>, hidden: Option<H>, calls: seq<Call<H>>, left: nat,
                                         s: Step<H>)
    requires left > 0 && window == LastN(result, ContextLength)
    ensures var result' := result + [draw(s.logits, |calls|)];
      var r := Extend(model, draw, result', LastN(result', ContextLength), Some(s.hidden), calls + [Call(window, hidden)], left - 1);
      |r.result| - |result| >= |r.calls| - |calls| - 1 &&
      forall c: nat :: |calls| <= c < |r.calls| ==> WindowAt(r, c, |result|, |calls|)
    decreases left, 0
  {
    var calls' := calls + [Call(window, hidden)];
    var result' := result + [draw(s.logits, |calls|)];
    var r := Extend(model, draw, result', LastN(result', ContextLength), Some(s.hidden), calls', left - 1);
    ExtendWindows(model, draw, result', LastN(result', ContextLength), Some(s.hidden), calls', left - 1);
    ExtendGrowth(model, draw, result', LastN(result', ContextLength), Some(s.hidden), calls', left - 1);
    assert r.calls[|calls|] == r.calls[..|calls'|][|calls|] == Call(window, hidden);
    assert r.result[..|result|] == r.result[..|result'|][..|result|] == result;
    WindowStep(r, |result|, |calls|, |result'|, |calls'|);
  }

  lemma {:induction false} WindowStep<H>(r: Run<H>, n: nat, m: nat, n1: nat, m1: nat)
    requires n1 == n + 1 && m1 == m + 1
    requires m < |r.calls| && n <= |r.result| && |r.result| - n >= |r.calls| - m - 1
    requires r.calls[m].window == LastN(r.result[..n], ContextLength)
    requires forall c: nat :: m1 <= c < |r.calls| ==> WindowAt(r, c, n1, m1)
    ensures forall c: nat :: m <= c < |r.calls| ==> WindowAt(r, c, n, m)
  {
    forall c: nat | m <= c < |r.calls| ensures WindowAt(r, c, n, m) {
      if c > m {
        assert WindowAt(r, c, n1, m1);
      }
    }
  }

  /** Windows of a whole run: the first call gets the seed cut to 8 ids, and
      every call gets the last (at most 8) ids of the result so far, seed
      included. */
  lemma {:induction false} GenerationWindows<H>(model: (seq<nat>, Option<H>) -> Option<Step<H>>, draw: (seq<real>, nat) -> nat,
                             tokens: seq<nat>, length: int)
    ensures var r := Generation(model, draw, tokens, length);
      var m := if |tokens| < ContextLength then |tokens| else ContextLength;
      |r.result| - m >= |r.calls| - 1 &&
      forall c: nat :: c < |r.calls| ==> WindowAt(r, c, m, 0) && |r.calls[c].window| <= ContextLength
  {
    var seed := LastN(tokens, ContextLength);
    ExtendWindows(model, draw, seed, seed, None, [], Steps(length));
    var r := Generation(model, draw, tokens, length);
    var m := |seed|;
    LastNSuffix(tokens, ContextLength);
    forall c: nat | c < |r.calls| ensures WindowAt(r, c, m, 0) && |r.calls[c].window| <= ContextLength {
      assert WindowAt(r, c, |seed|, 0);
      LastNSuffix(r.result[..c + |seed|], ContextLength);
    }
  }

  /** In run `r`, call `c` passes the state returned by call `c - 1`. */
  ghost predicate ThreadAt<H>(model: (seq<nat>, Option<H>) -> Option<Step<H>>, r: Run<H>, c: nat)
    requires 0 < c < |r.calls|
  {
    var prev := r.calls[c - 1];
    model(prev.window, prev.hidden).Some? && r.calls[c].hidden == Some(model(prev.window, prev.hidden).value.hidden)
  }

  /** State threading from a state: the first call passes the current state
      and every later call passes the state the call before it returned. */
  lemma {:induction false} ExtendThreading<H>(model: (seq<nat>, Option<H>) -> Option<Step<H>>, draw: (seq<real>, nat) -> nat,
                                              result: seq<nat>, window: seq<nat>, hidden: Option<H>, calls: seq<Call<H>>, left: nat)
    ensures var r := Extend(model, draw, result, window, hidden, calls, left);
      (|r.calls| > |calls| ==> r.calls[|calls|].hidden == hidden) &&
      forall c: nat :: |calls| < c < |r.calls| ==> ThreadAt(model, r, c)
    decreases left
  {
    ExtendGrowth(model, draw, result, window, hidden, calls, left);
    if left > 0 {
      match model(window, hidden)
      case None =>
        assert Extend(model, draw, result, window, hidden, calls, left).calls == calls + [Call(window, hidden)];
      case Some(s) =>
        var calls' := calls + [Call(window, hidden)];
        var result' := result + [draw(s.logits, |calls|)];
        var r := Extend(model, draw, result', LastN(result', ContextLength), Some(s.hidden), calls', left - 1);
        assert Extend(model, draw, result, window, hidden, calls, left) == r;
        ThreadingRec(model, draw, result, window, hidden, calls, left, s);
    }
  }

  lemma {:induction false} ThreadingRec<H>(model: (seq<nat>, Option<H>) -> Option<Step<H>>, draw: (seq<real>, nat) -> nat,
                                           result: seq<nat>, window: seq<nat>, hidden: Option<H>, calls: seq<Call<H>>, left: nat,
                                           s: Step<H>)
    requires left > 0 && model(window, hidden) == Some(s)
    ensures var result' := result + [draw(s.logits, |calls|)];
      var r := Extend(model, draw, result', LastN(result', ContextLength), Some(s.hidden), calls + [Call(window, hidden)], left - 1);
      |r.calls| > |calls| && r.calls[|calls|].hidden == hidden &&
      forall c: nat :: |calls| < c < |r.calls| ==> ThreadAt(model, r, c)
    decreases left, 0
  {
    var calls' := calls + [Call(window, hidden)];
    var result' := result + [draw(s.logits, |calls|)];
    var r := Extend(model, draw, result', LastN(result', ContextLength), Some(s.hidden), calls', left - 1);
    ExtendThreading(model, draw, result', LastN(result', ContextLength), Some(s.hidden), calls', left - 1);
    ExtendGrowth(model, draw, result', LastN(result', ContextLength), Some(s.hidden), calls', left - 1);
    assert r.calls[|calls|] == r.calls[..|calls'|][|calls|] == Call(window, hidden);
    forall c: nat | |calls| < c < |r.calls| ensures ThreadAt(model, r, c) {
      if c == |calls'| {
        assert r.calls[c].hidden == Some(s.hidden);
      }
    }
  }

  /** State threading for a whole run: the first call passes no state, and
      every later call passes the state the previous call returned, even
      though the full window is fed again. */
  lemma {:induction false} GenerationThreading<H>(model: (seq<nat>, Option<H>) -> Option<Step<H>>, draw: (seq<real>, nat) -> nat,
                               tokens: seq<nat>, length: int)
    ensures var r := Generation(model, draw, tokens, length);
      (|r.calls| > 0 ==> r.calls[0].hidden == None) &&
      forall c: nat :: 0 < c < |r.calls| ==> ThreadAt(model, r, c)
  {
    var seed := LastN(tokens, ContextLength);
    ExtendThreading(model, draw, seed, seed, None, [], Steps(length));
  }
}
