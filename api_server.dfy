/** The local text-generation engine of backend/api_server.py: request
    normalisation, the recurrent decoding loop with temperature scaling,
    top-k masking and sampling, the token counts of the reply, the
    server-sent-event re-chunker of the streaming endpoint, and the
    vocabulary sample.

    The LSTM forward pass, the softmax/multinomial draw and the
    sentencepiece tokenizer are parameters: `model(ctx, hidden)` returns the
    logits of the last position and the new hidden state, or None when it
    raises; `draw(masked, t)` is the t-th multinomial draw and returns an
    index whose masked logit is finite (a position of non-zero probability). */
module ApiServer {
  import opened Wrappers
  import opened Strings
  import opened Json
  import EventStream

  // ---------------------------------------------------------------------
  // Request normalisation
  // ---------------------------------------------------------------------

  /** The request body; a field the client did not send is None. */
  datatype GenIn = GenIn(prompt: string, maxTokens: Option<int>, temperature: Option<real>, topK: Option<int>)

  datatype Params = Params(prompt: string, maxTokens: int, temperature: real, topK: int)

  /** Field defaults of the request model (used when a field is absent). */
  const FieldMaxTokens := 64
  const FieldTemperature: real := 0.9
  const FieldTopK := 50
  /** Fallbacks of the `x or default` expressions (used when a field is 0). */
  const OrMaxTokens := 40
  const OrTemperature: real := 0.8
  const OrTopK := 50

  /** Python's `x or d` on a number: `d` when `x` is zero. */
  function OrInt(x: int, d: int): int { if x != 0 then x else d }
  function OrReal(x: real, d: real): real { if x != 0.0 then x else d }

  function Normalize(g: GenIn): (p: Params)
    ensures p.prompt == g.prompt
    // an absent field takes the request-model default
    ensures g.maxTokens == None ==> p.maxTokens == FieldMaxTokens
    ensures g.temperature == None ==> p.temperature == FieldTemperature
    ensures g.topK == None ==> p.topK == FieldTopK
    // a zero is replaced by the `or` fallback, so no parameter is ever zero
    ensures g.maxTokens == Some(0) ==> p.maxTokens == OrMaxTokens
    ensures g.temperature == Some(0.0) ==> p.temperature == OrTemperature
    ensures g.topK == Some(0) ==> p.topK == OrTopK
    // any other given value, negative ones included, is kept unchanged
    ensures forall v :: g.maxTokens == Some(v) && v != 0 ==> p.maxTokens == v
    ensures forall v :: g.temperature == Some(v) && v != 0.0 ==> p.temperature == v
    ensures forall v :: g.topK == Some(v) && v != 0 ==> p.topK == v
    ensures p.maxTokens != 0 && p.temperature != 0.0 && p.topK != 0
  {
    Params(g.prompt,
           OrInt(g.maxTokens.GetOr(FieldMaxTokens), OrMaxTokens),
           OrReal(g.temperature.GetOr(FieldTemperature), OrTemperature),
           OrInt(g.topK.GetOr(FieldTopK), OrTopK))
  }

  // ---------------------------------------------------------------------
  // Temperature scaling and top-k masking
  // ---------------------------------------------------------------------

  datatype Logit = NegInf | Fin(v: real)

  const MinTemperature: real := 0.000001

  function Divisor(t: real): (d: real)
    ensures d > 0.0 && d >= t
  {
    if t > MinTemperature then t else MinTemperature
  }

  /** `logits / max(temperature, 1e-6)`. */
  function Scale(xs: seq<real>, t: real): (ys: seq<real>)
    ensures |ys| == |xs|
    ensures forall i :: 0 <= i < |xs| ==> ys[i] == xs[i] / Divisor(t)
  {
    seq(|xs|, i requires 0 <= i < |xs| => xs[i] / Divisor(t))
  }

  predicate Indices(xs: seq<real>, r: seq<nat>)
  {
    forall j :: 0 <= j < |r| ==> r[j] < |xs|
  }

  predicate Descending(xs: seq<real>, r: seq<nat>)
    requires Indices(xs, r)
  {
    forall a, b :: 0 <= a < b < |r| ==> xs[r[a]] >= xs[r[b]]
  }

  predicate Distinct(r: seq<nat>)
  {
    forall a, b :: 0 <= a < b < |r| ==> r[a] != r[b]
  }

  /** Inserts index `i` after every index whose value is at least `xs[i]`. */
  function Insert(xs: seq<real>, i: nat, r: seq<nat>): (q: seq<nat>)
    requires i < |xs| && Indices(xs, r)
    ensures |q| == |r| + 1 && Indices(xs, q)
    ensures forall x :: x in q <==> x == i || x in r
  {
    if r == [] then [i]
    else if xs[r[0]] < xs[i] then [i] + r
    else
      assert forall x :: x in r <==> x == r[0] || x in r[1..];
      [r[0]] + Insert(xs, i, r[1..])
  }

  lemma {:induction false} InsertKeepsOrder(xs: seq<real>, i: nat, r: seq<nat>)
    requires i < |xs| && Indices(xs, r) && Descending(xs, r) && Distinct(r) && i !in r
    ensures Descending(xs, Insert(xs, i, r)) && Distinct(Insert(xs, i, r))
  {
    if r == [] {
    } else if xs[r[0]] < xs[i] {
      HeadDominates(xs, r);
      ConsOrdered(xs, i, r);
    } else {
      var t := Insert(xs, i, r[1..]);
      InsertKeepsOrder(xs, i, r[1..]);
      HeadDominates(xs, r);
      assert forall x :: x in r[1..] ==> x in r;
      forall x | x in r[1..] ensures x != r[0] {
        var m :| 0 <= m < |r[1..]| && r[1..][m] == x;
        assert r[m + 1] == x;
      }
      ConsOrdered(xs, r[0], t);
    }
  }

  /** The head of a descending ranking has the largest value. */
  lemma {:induction false} HeadDominates(xs: seq<real>, r: seq<nat>)
    requires Indices(xs, r) && Descending(xs, r) && r != []
    ensures forall x :: x in r ==> x < |xs| && xs[r[0]] >= xs[x]
  {
    forall x | x in r ensures x < |xs| && xs[r[0]] >= xs[x] {
      var m :| 0 <= m < |r| && r[m] == x;
    }
  }

  lemma {:induction false} ConsOrdered(xs: seq<real>, v: nat, t: seq<nat>)
    requires v < |xs| && Indices(xs, t) && Descending(xs, t) && Distinct(t)
    requires forall x :: x in t ==> xs[v] >= xs[x] && x != v
    ensures Indices(xs, [v] + t) && Descending(xs, [v] + t) && Distinct([v] + t)
  {
    var q := [v] + t;
    forall a, b | 0 <= a < b < |q| ensures xs[q[a]] >= xs[q[b]] && q[a] != q[b] {
      assert q[b] == t[b - 1];
      if a == 0 {
        assert t[b - 1] in t;
      } else {
        assert q[a] == t[a - 1];
      }
    }
  }

  /** The indices `0..n-1` ordered by decreasing value, equal values in
      increasing index order: the order `torch.topk` reports. */
  function Ranking(xs: seq<real>, n: nat): (r: seq<nat>)
    requires n <= |xs|
    ensures |r| == n && Indices(xs, r) && Descending(xs, r) && Distinct(r)
    ensures forall j: nat :: j in r <==> j < n
  {
    if n == 0 then []
    else
      var r := Ranking(xs, n - 1);
      InsertKeepsOrder(xs, n - 1, r);
      Insert(xs, n - 1, r)
  }

  /** The indices kept by `torch.topk(logits, k)`. */
  function TopK(xs: seq<real>, k: nat): seq<nat>
    requires k <= |xs|
  {
    Ranking(xs, |xs|)[..k]
  }

  /** Top-k property: exactly k distinct positions are kept, and no dropped
      value is larger than a kept one. */
  lemma {:induction false} TopKIsTop(xs: seq<real>, k: nat)
    requires k <= |xs|
    ensures |TopK(xs, k)| == k && Distinct(TopK(xs, k)) && Indices(xs, TopK(xs, k))
    ensures forall i, j :: i in TopK(xs, k) && 0 <= j < |xs| && j !in TopK(xs, k) ==> xs[i] >= xs[j]
  {
    var r := Ranking(xs, |xs|);
    assert r == r[..k] + r[k..];
    forall i, j | i in TopK(xs, k) && 0 <= j < |xs| && j !in TopK(xs, k)
      ensures xs[i] >= xs[j]
    {
      var a :| 0 <= a < k && r[a] == i;
      var jn: nat := j;
      assert jn in r;
      assert jn in r[k..];
      var b :| 0 <= b < |r| - k && r[k..][b] == jn;
      assert r[a] == i && r[k + b] == j;
    }
  }

  /** The masked logits: scaled, then, when `top_k > 0`, every position
      outside the `min(top_k, vocab)` largest set to -inf. */
  function Masked(logits: seq<real>, p: Params): seq<Logit>
  {
    var ys := Scale(logits, p.temperature);
    if p.topK > 0 then
      var keep := TopK(ys, if p.topK < |ys| then p.topK else |ys|);
      seq(|ys|, i requires 0 <= i < |ys| => if i in keep then Fin(ys[i]) else NegInf)
    else
      seq(|ys|, i requires 0 <= i < |ys| => Fin(ys[i]))
  }

  predicate HasFinite(m: seq<Logit>)
  {
    exists i :: 0 <= i < |m| && m[i].Fin?
  }

  /** Masking keeps the shape; with `top_k > 0` exactly the top
      `min(top_k, vocab)` scaled values survive, at their own positions, and
      with `top_k <= 0` (a negative value passes normalisation) nothing is
      masked. A non-empty vector always keeps a finite position. */
  lemma {:induction false} MaskedSpec(logits: seq<real>, p: Params)
    ensures var m := Masked(logits, p); var ys := Scale(logits, p.temperature);
      |m| == |logits| &&
      (p.topK > 0 ==>
        var k := if p.topK < |ys| then p.topK else |ys|;
        (forall i :: 0 <= i < |m| ==> (m[i].Fin? <==> i in TopK(ys, k))) &&
        |TopK(ys, k)| == k &&
        (forall i, j :: 0 <= i < |m| && 0 <= j < |m| && m[i].Fin? && m[j].NegInf? ==> ys[i] >= ys[j])) &&
      (forall i :: 0 <= i < |m| && m[i].Fin? ==> m[i].v == ys[i]) &&
      (p.topK <= 0 ==> forall i :: 0 <= i < |m| ==> m[i] == Fin(ys[i])) &&
      (|logits| > 0 ==> HasFinite(m))
  {
    var m := Masked(logits, p);
    var ys := Scale(logits, p.temperature);
    if p.topK > 0 {
      var k := if p.topK < |ys| then p.topK else |ys|;
      TopKIsTop(ys, k);
      if |logits| > 0 {
        var r := Ranking(ys, |ys|);
        assert r[0] in TopK(ys, k);
        assert m[r[0]].Fin?;
      }
    } else if |logits| > 0 {
      assert m[0].Fin?;
    }
  }

  // ---------------------------------------------------------------------
  // The decoding loop
  // ---------------------------------------------------------------------

  datatype Forward<H> = Forward(logits: seq<real>, hidden: H)

  /** One invocation of the model: the token context and the hidden state. */
  datatype Call<H> = Call(ctx: seq<nat>, hidden: Option<H>)

  /** A finished run: the token ids, every model call made, and whether an
      exception ended it. */
  datatype Run<H> = Run(ids: seq<nat>, calls: seq<Call<H>>, failed: bool)

  /** The sampler's contract: when some position is finite, the draw is a
      finite position (softmax gives -inf probability zero). */
  ghost predicate DrawsFinite(draw: (seq<Logit>, nat) -> nat)
  {
    forall m: seq<Logit>, t: nat :: HasFinite(m) ==> draw(m, t) < |m| && m[draw(m, t)].Fin?
  }

  /** The loop from a given state: `left` iterations remain, `ctx` is the next
      model input and `hidden` the state to pass with it. `eos` is
      `sp.eos_id()`, which is -1 when the tokenizer defines no
      end-of-sequence piece, so that no sampled id ends the loop early. */
  function Loop<H>(pick: (seq<real>, nat) -> nat, eos: int, model: (seq<nat>, Option<H>) -> Option<Forward<H>>,
                   ids: seq<nat>, ctx: seq<nat>, hidden: Option<H>, calls: seq<Call<H>>, left: nat): Run<H>
    decreases left
  {
    if left == 0 then Run(ids, calls, false)
    else
      var calls' := calls + [Call(ctx, hidden)];
      match model(ctx, hidden)
      case None => Run(ids, calls', true)
      case Some(f) =>
        if |f.logits| == 0 then Run(ids, calls', true)
        else
          var tok := pick(f.logits, |calls|);
          if tok == eos then Run(ids + [tok], calls', false)
          else Loop(pick, eos, model, ids + [tok], [tok], Some(f.hidden), calls', left - 1)
  }

  function Steps(p: Params): nat
  {
    if p.maxTokens > 0 then p.maxTokens else 0
  }

  /** The whole local decoding of `input` under the normalised parameters. */
  function Decode<H>(p: Params, eos: int, model: (seq<nat>, Option<H>) -> Option<Forward<H>>,
                     draw: (seq<Logit>, nat) -> nat, input: seq<nat>): Run<H>
  {
    Loop(Sampler(p, draw), eos, model, input, input, None, [], Steps(p))
  }

  /** The sampling step: `torch.multinomial` over the softmax of the masked
      logits, modelled by `draw` for call number `t`. */
  function Sampler(p: Params, draw: (seq<Logit>, nat) -> nat): (seq<real>, nat) -> nat
  {
    (logits: seq<real>, t: nat) => draw(Masked(logits, p), t)
  }

  /** The reply of the generate endpoint. */
  datatype GenOut =
    | Success(input: string, generated: string, tokensGenerated: int, inputTokens: int, totalTokens: int, backend: string)
    | HfSuccess(input: string, generated: string, backend: string)
    | Failure(input: string, error: string)

  /** The configured backend: the local LSTM, or the Hugging Face wrapper
      whose one-shot generation is a parameter; it answers with the text or
      with the message of the exception it raised. */
  datatype Backend = Local | Hf(generateOnce: Params -> Result<string, string>)

  /** The local reply. A failed run raised an exception inside the model step
      or the sampling; `stepError` is that exception's message (torch's text,
      which is not modelled). */
  function Report<H>(req: GenIn, input: seq<nat>, run: Run<H>, decode: seq<nat> -> string, stepError: string): GenOut
  {
    if run.failed then Failure(req.prompt, stepError)
    else Success(req.prompt, decode(run.ids), |run.ids| - |input|, |input|, |run.ids|, "local")
  }

  /** The generate endpoint. The local path runs the decoding loop: the first
      model call gets the whole prompt and no state, each later one only the
      last sampled token and the state returned by the previous call; the
      sampled token is appended and the loop stops after an end-of-sequence
      token or `max_tokens` iterations. */
  method GenerateText<H>(req: GenIn, backend: Backend, encode: string -> seq<nat>, decode: seq<nat> -> string,
                         eos: int, model: (seq<nat>, Option<H>) -> Option<Forward<H>>,
                         draw: (seq<Logit>, nat) -> nat, stepError: string)
    returns (out: GenOut)
    ensures backend.Hf? && backend.generateOnce(Normalize(req)).Ok? ==>
      out == HfSuccess(req.prompt, backend.generateOnce(Normalize(req)).value, "hf")
    ensures backend.Hf? && backend.generateOnce(Normalize(req)).Err? ==>
      out == Failure(req.prompt, backend.generateOnce(Normalize(req)).error)
    ensures backend.Local? ==>
      var input := encode(Normalize(req).prompt);
      out == Report(req, input, Decode(Normalize(req), eos, model, draw, input), decode, stepError)
  {
    var p := Normalize(req);
    if backend.Hf? {
      var answer := backend.generateOnce(p);
      match answer
      case Ok(text) => return HfSuccess(req.prompt, text, "hf");
      case Err(e) => return Failure(req.prompt, e);
    }
    var pick := Sampler(p, draw);
    var inputIds := encode(p.prompt);
    var ids := inputIds;
    var ctx := inputIds;
    var hidden: Option<H> := None;
    ghost var calls: seq<Call<H>> := [];
    var t: nat := 0;
    var n := Steps(p);
    var failed := false;
    var stop := false;
    while t < n && !stop
      invariant t <= n
      invariant failed ==> stop
      invariant !stop ==> |calls| == t && Loop(pick, eos, model, ids, ctx, hidden, calls, n - t) == Decode(p, eos, model, draw, inputIds)
      invariant stop ==> Run(ids, calls, failed) == Decode(p, eos, model, draw, inputIds)
      decreases n - t, if stop then 0 else 1
    {
      calls := calls + [Call(ctx, hidden)];
      var f := model(ctx, hidden);
      if f.None? || |f.value.logits| == 0 {
        failed, stop := true, true;
      } else {
        var tok := pick(f.value.logits, t);
        ids := ids + [tok];
        ctx, hidden := [tok], Some(f.value.hidden);
        t := t + 1;
        if tok == eos {
          stop := true;
        }
      }
    }
    out := Report<H>(req, inputIds, Run(ids, [], failed), decode, stepError);
    assert out == Report(req, inputIds, Run(ids, calls, failed), decode, stepError);
  }

  // ---------------------------------------------------------------------
  // Properties of the decoding loop
  // ---------------------------------------------------------------------

  /** Growth of a run from a state: the ids and the calls only grow, the
      ids by one per call except on a call that failed, and there are at most
      as many calls as iterations left. */
  lemma {:induction false} LoopGrowth<H>(pick: (seq<real>, nat) -> nat, eos: int, model: (seq<nat>, Option<H>) -> Option<Forward<H>>,
                   ids: seq<nat>, ctx: seq<nat>, hidden: Option<H>, calls: seq<Call<H>>, left: nat)
    ensures var r := Loop(pick, eos, model, ids, ctx, hidden, calls, left);
      |ids| <= |r.ids| && r.ids[..|ids|] == ids &&
      |calls| <= |r.calls| <= |calls| + left && r.calls[..|calls|] == calls &&
      |r.ids| - |ids| == |r.calls| - |calls| - (if r.failed then 1 else 0)
    decreases left
  {
    if left > 0 {
      match model(ctx, hidden)
      case None =>
      case Some(f) =>
        if |f.logits| > 0 {
          var tok := pick(f.logits, |calls|);
          if tok != eos {
            var calls' := calls + [Call(ctx, hidden)];
            var ids' := ids + [tok];
            LoopGrowth(pick, eos, model, ids', [tok], Some(f.hidden), calls', left - 1);
            var r := Loop(pick, eos, model, ids', [tok], Some(f.hidden), calls', left - 1);
            assert Loop(pick, eos, model, ids, ctx, hidden, calls, left) == r;
            assert r.ids[..|ids|] == r.ids[..|ids'|][..|ids|];
            assert r.calls[..|calls|] == r.calls[..|calls'|][..|calls|];
          }
        }
    }
  }

  /** The end-of-sequence token never occurs among the sampled tokens before
      the last, and a run that neither failed nor used up its iterations
      ended with it. */
  lemma {:induction false} LoopEos<H>(pick: (seq<real>, nat) -> nat, eos: int, model: (seq<nat>, Option<H>) -> Option<Forward<H>>,
                   ids: seq<nat>, ctx: seq<nat>, hidden: Option<H>, calls: seq<Call<H>>, left: nat)
    ensures var r := Loop(pick, eos, model, ids, ctx, hidden, calls, left);
      (forall i :: |ids| <= i < |r.ids| - 1 ==> r.ids[i] != eos) &&
      (!r.failed && |r.calls| - |calls| < left ==> |r.ids| > |ids| && Last(r.ids) == eos)
    decreases left
  {
    if left > 0 {
      match model(ctx, hidden)
      case None =>
      case Some(f) =>
        if |f.logits| > 0 {
          var tok := pick(f.logits, |calls|);
          if tok != eos {
            var calls' := calls + [Call(ctx, hidden)];
            var ids' := ids + [tok];
            LoopEos(pick, eos, model, ids', [tok], Some(f.hidden), calls', left - 1);
            LoopGrowth(pick, eos, model, ids', [tok], Some(f.hidden), calls', left - 1);
            var r := Loop(pick, eos, model, ids', [tok], Some(f.hidden), calls', left - 1);
            assert Loop(pick, eos, model, ids, ctx, hidden, calls, left) == r;
            assert r.ids[|ids|] == r.ids[..|ids'|][|ids|] == tok;
          }
        }
    }
  }

  /** Prefix preservation, the length bound and the place of the
      end-of-sequence token for a whole decoding: the generated ids start
      with the prompt ids, at most `max(max_tokens, 0)` ids are added, an
      end-of-sequence id is only ever the last one, and a run that stops
      early without error stopped on it. */
  lemma {:induction false} DecodeShape<H>(p: Params, eos: int, model: (seq<nat>, Option<H>) -> Option<Forward<H>>,
                       draw: (seq<Logit>, nat) -> nat, input: seq<nat>)
    ensures var r := Decode(p, eos, model, draw, input);
      |input| <= |r.ids| <= |input| + Steps(p) &&
      r.ids[..|input|] == input &&
      (forall i :: |input| <= i < |r.ids| - 1 ==> r.ids[i] != eos) &&
      (!r.failed && |r.ids| < |input| + Steps(p) ==> |r.ids| > |input| && Last(r.ids) == eos)
  {
    LoopGrowth(Sampler(p, draw), eos, model, input, input, None, [], Steps(p));
    LoopEos(Sampler(p, draw), eos, model, input, input, None, [], Steps(p));
  }

  /** The counts reported by a successful local generation agree with each
      other and with the bound: `tokens_generated == total_tokens -
      input_tokens`, between 0 and `max(max_tokens, 0)`. */
  lemma {:induction false} ReportCounts<H>(req: GenIn, input: seq<nat>, eos: int, model: (seq<nat>, Option<H>) -> Option<Forward<H>>,
                        draw: (seq<Logit>, nat) -> nat, decode: seq<nat> -> string, stepError: string)
    ensures var o := Report(req, input, Decode(Normalize(req), eos, model, draw, input), decode, stepError);
      o.Success? ==>
        o.input == req.prompt && o.inputTokens == |input| &&
        o.tokensGenerated == o.totalTokens - o.inputTokens &&
        0 <= o.tokensGenerated <= Steps(Normalize(req))
  {
    DecodeShape(Normalize(req), eos, model, draw, input);
  }

  /** Call `next` follows call `prev` once `tok` was sampled: the model
      answered `prev`, and `next` passes only `tok` together with the hidden
      state that answer returned. */
  ghost predicate Follows<H>(model: (seq<nat>, Option<H>) -> Option<Forward<H>>, prev: Call<H>, tok: nat, next: Call<H>)
  {
    model(prev.ctx, prev.hidden).Some? && next == Call([tok], Some(model(prev.ctx, prev.hidden).value.hidden))
  }

  /** The first call of a run from a state gets the current context and
      hidden state. */
  lemma {:induction false} LoopFirstCall<H>(pick: (seq<real>, nat) -> nat, eos: int, model: (seq<nat>, Option<H>) -> Option<Forward<H>>,
                   ids: seq<nat>, ctx: seq<nat>, hidden: Option<H>, calls: seq<Call<H>>, left: nat)
    requires left > 0
    ensures var r := Loop(pick, eos, model, ids, ctx, hidden, calls, left);
      |r.calls| > |calls| && r.calls[|calls|] == Call(ctx, hidden)
  {
    var calls' := calls + [Call(ctx, hidden)];
    match model(ctx, hidden)
    case None =>
    case Some(f) =>
      if |f.logits| > 0 {
        var tok := pick(f.logits, |calls|);
        if tok != eos {
          LoopGrowth(pick, eos, model, ids + [tok], [tok], Some(f.hidden), calls', left - 1);
          var r := Loop(pick, eos, model, ids + [tok], [tok], Some(f.hidden), calls', left - 1);
          assert r.calls[|calls|] == r.calls[..|calls'|][|calls|];
        }
      }
  }

  /** In run `r`, call `c` follows call `c - 1`; the token sampled from call
      `c - 1` sits at `r.ids[c - 1 + n - m]` when the run had `n` ids before
      its `m`-th call. */
  ghost predicate FollowsAt<H>(model: (seq<nat>, Option<H>) -> Option<Forward<H>>, r: Run<H>, c: nat, n: nat, m: nat)
    requires 0 < c < |r.calls| && 0 <= c - 1 + n - m < |r.ids|
  {
    Follows(model, r.calls[c - 1], r.ids[c - 1 + n - m], r.calls[c])
  }

  /** Threading for the calls after the `m`-th follows from threading for
      the calls after the `m + 1`-th and the step between them. */
  lemma {:induction false} ThreadingStep<H>(model: (seq<nat>, Option<H>) -> Option<Forward<H>>, r: Run<H>, n: nat, m: nat, n1: nat, m1: nat, tok: nat)
    requires n1 == n + 1 && m1 == m + 1
    requires m < |r.calls| && n < |r.ids| && |r.ids| - n >= |r.calls| - m - 1 && r.ids[n] == tok
    requires |r.calls| > m1 ==> Follows(model, r.calls[m], tok, r.calls[m1])
    requires forall c: nat :: m1 < c < |r.calls| ==> FollowsAt(model, r, c, n1, m1)
    ensures forall c: nat :: m < c < |r.calls| ==> FollowsAt(model, r, c, n, m)
  {
    forall c: nat | m < c < |r.calls| ensures FollowsAt(model, r, c, n, m) {
      if c > m1 {
        assert FollowsAt(model, r, c, n1, m1);
      }
    }
  }

  /** State threading from a state: the first call of the run gets the
      current context and state, and every later call follows the one
      before it. */
  lemma {:induction false} LoopThreading<H>(pick: (seq<real>, nat) -> nat, eos: int, model: (seq<nat>, Option<H>) -> Option<Forward<H>>,
                   ids: seq<nat>, ctx: seq<nat>, hidden: Option<H>, calls: seq<Call<H>>, left: nat)
    ensures var r := Loop(pick, eos, model, ids, ctx, hidden, calls, left);
      |r.ids| - |ids| >= |r.calls| - |calls| - 1 &&
      forall c: nat :: |calls| < c < |r.calls| ==> FollowsAt(model, r, c, |ids|, |calls|)
    decreases left
  {
    LoopGrowth(pick, eos, model, ids, ctx, hidden, calls, left);
    if left > 0 {
      match model(ctx, hidden)
      case None =>
      case Some(f) =>
        if |f.logits| > 0 {
          var tok := pick(f.logits, |calls|);
          if tok != eos {
            var calls' := calls + [Call(ctx, hidden)];
            var ids' := ids + [tok];
            var r := Loop(pick, eos, model, ids', [tok], Some(f.hidden), calls', left - 1);
            assert Loop(pick, eos, model, ids, ctx, hidden, calls, left) == r;
            ThreadingRec(pick, eos, model, ids, ctx, hidden, calls, left, f, tok);
          }
        }
    }
  }

  lemma {:induction false} ThreadingRec<H>(pick: (seq<real>, nat) -> nat, eos: int, model: (seq<nat>, Option<H>) -> Option<Forward<H>>,
                   ids: seq<nat>, ctx: seq<nat>, hidden: Option<H>, calls: seq<Call<H>>, left: nat,
                                           f: Forward<H>, tok: nat)
    requires left > 0 && model(ctx, hidden) == Some(f)
    ensures var r := Loop(pick, eos, model, ids + [tok], [tok], Some(f.hidden), calls + [Call(ctx, hidden)], left - 1);
      |r.ids| - |ids| >= |r.calls| - |calls| - 1 &&
      forall c: nat :: |calls| < c < |r.calls| ==> FollowsAt(model, r, c, |ids|, |calls|)
    decreases left, 0
  {
    var calls' := calls + [Call(ctx, hidden)];
    var ids' := ids + [tok];
    var r := Loop(pick, eos, model, ids', [tok], Some(f.hidden), calls', left - 1);
    LoopThreading(pick, eos, model, ids', [tok], Some(f.hidden), calls', left - 1);
    LoopGrowth(pick, eos, model, ids', [tok], Some(f.hidden), calls', left - 1);
    assert r.calls[|calls|] == r.calls[..|calls'|][|calls|] == Call(ctx, hidden);
    assert r.ids[|ids|] == r.ids[..|ids'|][|ids|] == tok;
    if |r.calls| > |calls'| {
      LoopFirstCall(pick, eos, model, ids', [tok], Some(f.hidden), calls', left - 1);
      assert Follows(model, r.calls[|calls|], tok, r.calls[|calls'|]);
    }
    ThreadingStep(model, r, |ids|, |calls|, |ids'|, |calls'|, tok);
  }

  /** State threading for a whole decoding: the first model call gets the
      whole prompt and no hidden state; every later call gets only the token
      sampled last and the hidden state the previous call returned. */
  lemma {:induction false} DecodeThreading<H>(p: Params, eos: int, model: (seq<nat>, Option<H>) -> Option<Forward<H>>,
                           draw: (seq<Logit>, nat) -> nat, input: seq<nat>)
    ensures var r := Decode(p, eos, model, draw, input);
      |r.ids| - |input| >= |r.calls| - 1 &&
      (|r.calls| > 0 ==> r.calls[0] == Call(input, None)) &&
      forall c: nat :: 0 < c < |r.calls| ==> FollowsAt(model, r, c, |input|, 0)
  {
    LoopThreading(Sampler(p, draw), eos, model, input, input, None, [], Steps(p));
    if Steps(p) > 0 {
      LoopFirstCall(Sampler(p, draw), eos, model, input, input, None, [], Steps(p));
    }
  }

  /** The sampled token `tok` of call `c` is one `ok` accepts for the
      logits that call returned. */
  ghost predicate KeptBy<H>(ok: (seq<real>, nat) -> bool, model: (seq<nat>, Option<H>) -> Option<Forward<H>>, c: Call<H>, tok: nat)
  {
    model(c.ctx, c.hidden).Some? && ok(model(c.ctx, c.hidden).value.logits, tok)
  }

  /** In run `r`, the id at `i` was sampled from the call at `i - n + m`,
      the run having had `n` ids before its `m`-th call, and `ok` accepts
      it. */
  ghost predicate KeptAt<H>(ok: (seq<real>, nat) -> bool, model: (seq<nat>, Option<H>) -> Option<Forward<H>>, r: Run<H>, i: nat, n: nat, m: nat)
    requires n <= i < |r.ids| && i - n + m < |r.calls|
  {
    KeptBy(ok, model, r.calls[i - n + m], r.ids[i])
  }

  /** Every pick from non-empty logits is accepted by `ok`. */
  ghost predicate PicksOk(pick: (seq<real>, nat) -> nat, ok: (seq<real>, nat) -> bool)
  {
    forall xs: seq<real>, t: nat :: |xs| > 0 ==> ok(xs, pick(xs, t))
  }

  /** When every pick is accepted by `ok`, every sampled id of a run is
      accepted for the logits of its own call. */
  lemma {:induction false} LoopSamplesKept<H>(pick: (seq<real>, nat) -> nat, ok: (seq<real>, nat) -> bool,
                                              eos: int, model: (seq<nat>, Option<H>) -> Option<Forward<H>>,
                                              ids: seq<nat>, ctx: seq<nat>, hidden: Option<H>, calls: seq<Call<H>>, left: nat)
    requires PicksOk(pick, ok)
    ensures var r := Loop(pick, eos, model, ids, ctx, hidden, calls, left);
      |r.ids| - |ids| <= |r.calls| - |calls| &&
      forall i: nat :: |ids| <= i < |r.ids| ==> KeptAt(ok, model, r, i, |ids|, |calls|)
    decreases left
  {
    LoopGrowth(pick, eos, model, ids, ctx, hidden, calls, left);
    if left > 0 {
      match model(ctx, hidden)
      case None =>
      case Some(f) =>
        if |f.logits| > 0 {
          var tok := pick(f.logits, |calls|);
          var calls' := calls + [Call(ctx, hidden)];
          var ids' := ids + [tok];
          assert KeptBy(ok, model, Call(ctx, hidden), tok);
          if tok != eos {
            var r := Loop(pick, eos, model, ids', [tok], Some(f.hidden), calls', left - 1);
            assert Loop(pick, eos, model, ids, ctx, hidden, calls, left) == r;
            SamplesRec(pick, ok, eos, model, ids, ctx, hidden, calls, left, f, tok);
          } else {
            var r := Run(ids', calls', false);
            assert Loop(pick, eos, model, ids, ctx, hidden, calls, left) == r;
            assert KeptAt(ok, model, r, |ids|, |ids|, |calls|);
          }
        }
    }
  }

  lemma {:induction false} SamplesRec<H>(pick: (seq<real>, nat) -> nat, ok: (seq<real>, nat) -> bool,
                                         eos: int, model: (seq<nat>, Option<H>) -> Option<Forward<H>>,
                                         ids: seq<nat>, ctx: seq<nat>, hidden: Option<H>, calls: seq<Call<H>>, left: nat,
                                         f: Forward<H>, tok: nat)
    requires PicksOk(pick, ok)
    requires left > 0 && KeptBy(ok, model, Call(ctx, hidden), tok)
    ensures var r := Loop(pick, eos, model, ids + [tok], [tok], Some(f.hidden), calls + [Call(ctx, hidden)], left - 1);
      |r.ids| - |ids| <= |r.calls| - |calls| &&
      forall i: nat :: |ids| <= i < |r.ids| ==> KeptAt(ok, model, r, i, |ids|, |calls|)
    decreases left, 0
  {
    var calls' := calls + [Call(ctx, hidden)];
    var ids' := ids + [tok];
    var r := Loop(pick, eos, model, ids', [tok], Some(f.hidden), calls', left - 1);
    LoopSamplesKept(pick, ok, eos, model, ids', [tok], Some(f.hidden), calls', left - 1);
    LoopGrowth(pick, eos, model, ids', [tok], Some(f.hidden), calls', left - 1);
    assert r.calls[|calls|] == r.calls[..|calls'|][|calls|] == Call(ctx, hidden);
    assert r.ids[|ids|] == r.ids[..|ids'|][|ids|] == tok;
    SamplesStep(ok, model, r, |ids|, |calls|, |ids'|, |calls'|);
  }

  /** Keeping for the ids from the `n`-th follows from keeping for the ids
      from the `n + 1`-th and for the `n`-th. */
  lemma {:induction false} SamplesStep<H>(ok: (seq<real>, nat) -> bool, model: (seq<nat>, Option<H>) -> Option<Forward<H>>, r: Run<H>, n: nat, m: nat, n1: nat, m1: nat)
    requires n1 == n + 1 && m1 == m + 1
    requires n < |r.ids| && |r.ids| - n <= |r.calls| - m
    requires KeptBy(ok, model, r.calls[m], r.ids[n])
    requires forall i: nat :: n1 <= i < |r.ids| ==> KeptAt(ok, model, r, i, n1, m1)
    ensures forall i: nat :: n <= i < |r.ids| ==> KeptAt(ok, model, r, i, n, m)
  {
    forall i: nat | n <= i < |r.ids| ensures KeptAt(ok, model, r, i, n, m) {
      if i > n {
        assert KeptAt(ok, model, r, i, n1, m1);
      }
    }
  }

  /** A token survives the mask: it is a position of the masked logits whose
      value is finite. */
  function Survives(p: Params): (seq<real>, nat) -> bool
  {
    (logits: seq<real>, tok: nat) => tok < |Masked(logits, p)| && Masked(logits, p)[tok].Fin?
  }

  /** With a sampler that honours its contract, the sampling step only picks
      tokens that survive the mask. */
  lemma {:induction false} SamplerSurvives(p: Params, draw: (seq<Logit>, nat) -> nat)
    requires DrawsFinite(draw)
    ensures PicksOk(Sampler(p, draw), Survives(p))
  {
    forall xs: seq<real>, t: nat | |xs| > 0 ensures Survives(p)(xs, Sampler(p, draw)(xs, t)) {
      MaskedSpec(xs, p);
    }
  }

  /** Every sampled id of a whole decoding is a position of the logits of
      its own call that survived the top-k mask. */
  lemma {:induction false} DecodeSamplesKept<H>(p: Params, eos: int, model: (seq<nat>, Option<H>) -> Option<Forward<H>>,
                             draw: (seq<Logit>, nat) -> nat, input: seq<nat>)
    requires DrawsFinite(draw)
    ensures var r := Decode(p, eos, model, draw, input);
      |r.ids| - |input| <= |r.calls| &&
      forall i: nat :: |input| <= i < |r.ids| ==> KeptAt(Survives(p), model, r, i, |input|, 0)
  {
    SamplerSurvives(p, draw);
    LoopSamplesKept(Sampler(p, draw), Survives(p), eos, model, input, input, None, [], Steps(p));
  }

  // ---------------------------------------------------------------------
  // The streaming endpoint
  // ---------------------------------------------------------------------

  /** `buf = (buf + " " + w).strip()` over a run of words. */
  function Accumulate(buf: string, ws: seq<string>): string
    decreases |ws|
  {
    if ws == [] then buf else Accumulate(Trim(buf + " " + ws[0]), ws[1..])
  }

  /** The delta texts of the re-chunker: one per group of three words, the
      last group possibly shorter. */
  function Deltas(ws: seq<string>): (ds: seq<string>)
    requires ws != []
    ensures |ds| == (|ws| + 2) / 3
    decreases |ws|
  {
    if |ws| <= 3 then [Accumulate("", ws)]
    else [Accumulate("", ws[..3])] + Deltas(ws[3..])
  }

  function DeltaBlock(ser: Json -> string, d: string): string
  {
    EventStream.Frame(ser(StrObj("delta", d)))
  }

  function ErrorBlock(ser: Json -> string, msg: string): string
  {
    "event: error\n" + EventStream.Frame(ser(StrObj("error", msg)))
  }

  function Blocks(ser: Json -> string, ds: seq<string>): (r: seq<string>)
    ensures |r| == |ds|
    ensures forall i :: 0 <= i < |ds| ==> r[i] == DeltaBlock(ser, ds[i])
  {
    if ds == [] then [] else [DeltaBlock(ser, ds[0])] + Blocks(ser, ds[1..])
  }

  /** The blocks emitted for a whole number of groups of words. */
  function Emitted(ser: Json -> string, ws: seq<string>): seq<string>
  {
    if ws == [] then [] else Blocks(ser, Deltas(ws))
  }

  /** `chunker()`: splits the finished text on single spaces, emits a delta
      block after every third word and after the last word, then exactly one
      terminal `event: done` block. */
  method Chunker(full: string, ser: Json -> string) returns (out: seq<string>)
    ensures out == Blocks(ser, Deltas(Split(full, " "))) + [EventStream.DoneBlock]
  {
    var words := Split(full, " ");
    var buf := "";
    out := [];
    ghost var k, g := 0, 0;
    var i := 0;
    while i < |words|
      invariant ChunkState(ser, words, k, g, i, out, buf)
      decreases |words| - i
    {
      GroupPosition(k, g, i, |words|);
      ChunkExtend(words, g, i, buf);
      buf := Trim(buf + " " + words[i]);
      if i % 3 == 2 || i == |words| - 1 {
        ChunkEmit(ser, words, k, g, i, out, buf);
        out := out + [DeltaBlock(ser, buf)];
        buf := "";
        k, g := k + 1, i + 1;
      } else {
        ChunkKeep(ser, words, k, g, i, out, buf);
      }
      i := i + 1;
    }
    assert words[..|words|] == words;
    out := out + [EventStream.DoneBlock];
  }

  /** The state of the re-chunker before word `i`: `k` groups are finished,
      the group under way starts at word `g`, `out` holds the blocks of the
      finished groups and `buf` the text of the group so far. */
  ghost predicate ChunkState(ser: Json -> string, words: seq<string>, k: nat, g: nat, i: nat, out: seq<string>, buf: string)
  {
    g <= i <= |words| && i - g < 3 &&
    (g == 3 * k || g == |words|) &&
    (i == |words| ==> g == i) &&
    out == Emitted(ser, words[..g]) &&
    buf == Accumulate("", words[g..i])
  }

  /** Inside the text, the group under way starts at a multiple of three, so
      `i % 3` is the position of word `i` in its group. */
  lemma {:induction false} GroupPosition(k: nat, g: nat, i: nat, n: nat)
    requires g <= i < n && i - g < 3 && (g == 3 * k || g == n)
    ensures g == 3 * k && i % 3 == i - g
  {
    Mod3(k, i - g);
  }

  /** Adding word `i` to the group under way. */
  lemma {:induction false} ChunkExtend(words: seq<string>, g: nat, i: nat, buf: string)
    requires g <= i < |words| && buf == Accumulate("", words[g..i])
    ensures Trim(buf + " " + words[i]) == Accumulate("", words[g..i + 1])
  {
    assert words[g..i + 1] == words[g..i] + [words[i]];
    AccumulateSnoc("", words[g..i], words[i]);
  }

  /** Word `i` does not close its group. */
  lemma {:induction false} ChunkKeep(ser: Json -> string, words: seq<string>, k: nat, g: nat, i: nat, out: seq<string>, buf: string)
    requires g <= i < |words| - 1 && g == 3 * k && i - g < 2
    requires out == Emitted(ser, words[..g]) && buf == Accumulate("", words[g..i + 1])
    ensures ChunkState(ser, words, k, g, i + 1, out, buf)
  {
  }

  /** Closing the group under way after word `i`. */
  lemma {:induction false} ChunkEmit(ser: Json -> string, words: seq<string>, k: nat, g: nat, i: nat, out: seq<string>, buf: string)
    requires g <= i < |words| && g == 3 * k && i - g < 3
    requires i - g == 2 || i == |words| - 1
    requires out == Emitted(ser, words[..g]) && buf == Accumulate("", words[g..i + 1])
    ensures ChunkState(ser, words, k + 1, i + 1, i + 1, out + [DeltaBlock(ser, buf)], "")
  {
    EmitGroup(ser, words, k, g, i + 1, out, buf);
    GroupStart(ser, words, k + 1, i + 1, out + [DeltaBlock(ser, buf)]);
  }

  /** A state with no word of the group under way yet. */
  lemma {:induction false} GroupStart(ser: Json -> string, words: seq<string>, k: nat, g: nat, out: seq<string>)
    requires g <= |words| && (g == 3 * k || g == |words|)
    requires out == Emitted(ser, words[..g])
    ensures ChunkState(ser, words, k, g, g, out, "")
  {
    assert words[g..g] == [];
  }

  lemma {:induction false} Mod3(k: nat, d: nat)
    requires d < 3
    ensures (3 * k + d) % 3 == d
  {
  }

  /** Finishing the group that starts at word `g == 3 * k` and ends before
      word `e` appends one block. */
  lemma {:induction false} EmitGroup(ser: Json -> string, words: seq<string>, k: nat, g: nat, e: nat, out: seq<string>, buf: string)
    requires g == 3 * k && g < e <= |words| && e <= g + 3
    requires out == Emitted(ser, words[..g]) && buf == Accumulate("", words[g..e])
    ensures out + [DeltaBlock(ser, buf)] == Emitted(ser, words[..e])
  {
    var pre, grp := words[..g], words[g..e];
    assert pre + grp == words[..e];
    DeltasSnoc(pre, grp, k);
    var before := if pre == [] then [] else Deltas(pre);
    assert Deltas(words[..e]) == before + [buf];
    BlocksAppend(ser, before, [buf]);
    assert Emitted(ser, pre) == Blocks(ser, before);
  }

  lemma {:induction false} AccumulateSnoc(buf: string, ws: seq<string>, w: string)
    ensures Accumulate(buf, ws + [w]) == Trim(Accumulate(buf, ws) + " " + w)
    decreases |ws|
  {
    if ws == [] {
      assert ws + [w] == [w];
    } else {
      assert (ws + [w])[1..] == ws[1..] + [w];
      AccumulateSnoc(Trim(buf + " " + ws[0]), ws[1..], w);
    }
  }

  /** Appending one group of at most three words to a whole number of groups
      appends one delta. */
  lemma {:induction false} DeltasSnoc(ws: seq<string>, group: seq<string>, k: nat)
    requires |ws| == 3 * k && 1 <= |group| <= 3
    ensures Deltas(ws + group) == (if ws == [] then [] else Deltas(ws)) + [Accumulate("", group)]
    decreases |ws|
  {
    if ws == [] {
      assert ws + group == group;
    } else {
      assert (ws + group)[..3] == ws[..3];
      assert (ws + group)[3..] == ws[3..] + group;
      DeltasSnoc(ws[3..], group, k - 1);
    }
  }

  lemma {:induction false} BlocksAppend(ser: Json -> string, a: seq<string>, b: seq<string>)
    ensures Blocks(ser, a + b) == Blocks(ser, a) + Blocks(ser, b)
  {
  }

  /** What a streaming response delivers: its blocks, and whether the body
      broke off with an exception after the 200 headers were sent. */
  datatype Sent = Sent(blocks: seq<string>, aborted: bool)

  /** The re-chunked text of a successful generation, then the done block. */
  function Chunked(text: string, ser: Json -> string): seq<string>
  {
    Blocks(ser, Deltas(Split(text, " "))) + [EventStream.DoneBlock]
  }

  /** The local streaming endpoint as written. On failure the error generator
      reads the name bound by `except Exception as e`, which Python 3 deletes
      when the except clause ends, before the response body is iterated: the
      first step of the body raises `NameError`, so nothing is delivered and
      the stream breaks off. */
  function SseLocalAsWritten(result: GenOut, ser: Json -> string): Sent
  {
    match result
    case Success(_, text, _, _, _, _) => Sent(Chunked(text, ser), false)
    case HfSuccess(_, text, _) => Sent(Chunked(text, ser), false)
    case Failure(_, _) => Sent([], true)
  }

  /** The local streaming endpoint as intended: a single error block carrying
      the failure's message (the exception is raised with the reply's
      `error`), otherwise the re-chunked text and one done block. */
  function SseLocal(result: GenOut, ser: Json -> string): Sent
  {
    match result
    case Success(_, text, _, _, _, _) => Sent(Chunked(text, ser), false)
    case HfSuccess(_, text, _) => Sent(Chunked(text, ser), false)
    case Failure(_, error) => Sent([ErrorBlock(ser, error)], false)
  }

  /** As written, a failed local generation delivers no block at all, neither
      the error event nor a done block, and the body breaks off; the intended
      stream ends with one error event carrying the message. On success the
      two agree. */
  lemma {:induction false} LocalFailureAborts(result: GenOut, ser: Json -> string)
    ensures result.Failure? ==>
      SseLocalAsWritten(result, ser) == Sent([], true) &&
      SseLocal(result, ser) == Sent([ErrorBlock(ser, result.error)], false) &&
      SseLocalAsWritten(result, ser) != SseLocal(result, ser)
    ensures !result.Failure? ==> SseLocalAsWritten(result, ser) == SseLocal(result, ser)
  {
  }

  /** The Hugging Face streaming path: one delta block per streamed piece,
      then the done block. */
  function SseHf(pieces: seq<string>, ser: Json -> string): (r: seq<string>)
    ensures |r| == |pieces| + 1 && Last(r) == EventStream.DoneBlock
    ensures forall i :: 0 <= i < |pieces| ==> r[i] == DeltaBlock(ser, pieces[i])
  {
    Blocks(ser, pieces) + [EventStream.DoneBlock]
  }

  /** The intended local stream never breaks off and has exactly one
      terminal block: `event: done` after the deltas on success, a lone
      `event: error` with the failure's message on failure; and one delta
      block is sent per three words, rounding up. */
  lemma {:induction false} SseLocalTerminal(result: GenOut, ser: Json -> string)
    ensures var out := SseLocal(result, ser);
      !out.aborted &&
      (result.Failure? ==> out.blocks == ["event: error\n" + EventStream.Frame(ser(StrObj("error", result.error)))] &&
                           out.blocks[0] != EventStream.DoneBlock) &&
      (!result.Failure? ==>
        |out.blocks| == (|Split(result.generated, " ")| + 2) / 3 + 1 &&
        Last(out.blocks) == EventStream.DoneBlock &&
        forall i :: 0 <= i < |out.blocks| - 1 ==> StartsWith(out.blocks[i], EventStream.DataPrefix))
  {
    var out := SseLocal(result, ser).blocks;
    if result.Failure? {
      assert out[0][7] != EventStream.DoneBlock[7];
    } else {
      forall i | 0 <= i < |out| - 1 ensures StartsWith(out[i], EventStream.DataPrefix) {
        assert out[i][..|EventStream.DataPrefix|] == EventStream.DataPrefix;
      }
    }
  }

  /** A word the re-chunker gives back unchanged: non-empty, with no
      whitespace at either end (a text without leading, trailing or doubled
      spaces splits into such words when no word is padded by other
      whitespace). */
  predicate Tight(s: string)
  {
    s != [] && !IsSpace(s[0]) && !IsSpace(s[|s| - 1])
  }

  lemma {:induction false} TrimTight(s: string)
    requires Tight(s)
    ensures Trim(s) == s
  {
  }

  lemma {:induction false} JoinMerge(a: string, b: string, rest: seq<string>)
    ensures Join([a + " " + b] + rest, " ") == Join([a, b] + rest, " ")
  {
    if rest != [] {
      JoinCons(a + " " + b, rest, " ");
      JoinCons(b, rest, " ");
      assert [a, b] + rest == [a] + ([b] + rest);
      JoinCons(a, [b] + rest, " ");
    } else {
      assert [a, b] + rest == [a, b];
    }
  }

  lemma {:induction false} AccumulateTight(buf: string, ws: seq<string>)
    requires Tight(buf) && forall i :: 0 <= i < |ws| ==> Tight(ws[i])
    ensures Accumulate(buf, ws) == Join([buf] + ws, " ")
    decreases |ws|
  {
    if ws != [] {
      var nb := buf + " " + ws[0];
      TightMerge(buf, ws[0]);
      AccumulateTight(nb, ws[1..]);
      JoinMerge(buf, ws[0], ws[1..]);
      assert [buf] + ws == [buf, ws[0]] + ws[1..];
    }
  }

  lemma {:induction false} TightMerge(a: string, b: string)
    requires Tight(a) && Tight(b)
    ensures Tight(a + " " + b) && Trim(a + " " + b) == a + " " + b
  {
    var nb := a + " " + b;
    assert nb[0] == a[0] && nb[|nb| - 1] == b[|b| - 1];
    TrimTight(nb);
  }

  lemma {:induction false} AccumulateFromEmpty(ws: seq<string>)
    requires ws != [] && forall i :: 0 <= i < |ws| ==> Tight(ws[i])
    ensures Accumulate("", ws) == Join(ws, " ")
  {
    AccumulateHead(ws);
    TightTail(ws);
    AccumulateTight(ws[0], ws[1..]);
    HeadTail(ws);
  }

  /** The first word of a group replaces the empty buffer. */
  lemma {:induction false} AccumulateHead(ws: seq<string>)
    requires ws != [] && Tight(ws[0])
    ensures Accumulate("", ws) == Accumulate(ws[0], ws[1..])
  {
    TrimLeadingSpace(ws[0]);
  }

  lemma {:induction false} TightTail(ws: seq<string>)
    requires ws != [] && forall i :: 0 <= i < |ws| ==> Tight(ws[i])
    ensures Tight(ws[0]) && forall i :: 0 <= i < |ws| - 1 ==> Tight(ws[1..][i])
  {
    forall i | 0 <= i < |ws| - 1 ensures Tight(ws[1..][i]) {
      assert ws[1..][i] == ws[i + 1];
    }
  }

  lemma {:induction false} HeadTail<T>(s: seq<T>)
    requires s != []
    ensures [s[0]] + s[1..] == s
  {
  }

  /** A group of one tight word is that word. */
  lemma {:induction false} AccumulateOne(w: string)
    requires Tight(w)
    ensures Accumulate("", [w]) == w
  {
    TrimLeadingSpace(w);
    assert [w][1..] == [];
  }

  lemma {:induction false} TrimLeadingSpace(w: string)
    requires Tight(w)
    ensures Trim("" + " " + w) == w
  {
    assert ("" + " " + w)[1..] == w;
    assert TrimStart("" + " " + w) == TrimStart(w);
    TrimTight(w);
  }


  /** Round trip of the re-chunker: when the text is words separated by
      single spaces, joining the deltas with single spaces gives the text
      back. */
  lemma {:induction false} DeltasJoin(ws: seq<string>)
    requires ws != [] && forall i :: 0 <= i < |ws| ==> Tight(ws[i])
    ensures Join(Deltas(ws), " ") == Join(ws, " ")
    decreases |ws|
  {
    if |ws| <= 3 {
      AccumulateFromEmpty(ws);
    } else {
      AccumulateFromEmpty(ws[..3]);
      DeltasJoin(ws[3..]);
      var d := Deltas(ws[3..]);
      JoinCons(Join(ws[..3], " "), d, " ");
      JoinAppend(ws[..3], ws[3..]);
      assert ws[..3] + ws[3..] == ws;
    }
  }

  lemma {:induction false} JoinAppend(a: seq<string>, b: seq<string>)
    requires a != [] && b != []
    ensures Join(a + b, " ") == Join(a, " ") + " " + Join(b, " ")
    decreases |a|
  {
    if |a| == 1 {
      JoinCons(a[0], b, " ");
    } else {
      assert (a + b)[1..] == a[1..] + b;
      JoinAppend(a[1..], b);
      JoinCons(a[0], a[1..] + b, " ");
      JoinCons(a[0], a[1..], " ");
      assert a == [a[0]] + a[1..];
      assert a + b == [a[0]] + (a[1..] + b);
    }
  }

  lemma {:induction false} ChunkerRoundTrip(full: string)
    requires forall i :: 0 <= i < |Split(full, " ")| ==> Tight(Split(full, " ")[i])
    ensures Join(Deltas(Split(full, " ")), " ") == full
  {
    DeltasJoin(Split(full, " "));
    JoinSplit(full, " ");
  }

  // ---------------------------------------------------------------------
  // The vocabulary endpoint
  // ---------------------------------------------------------------------

  /** The first `min(50, vocab_size)` pieces with their ids, in id order. */
  method VocabularySample(vocabSize: nat, idToPiece: nat -> string) returns (sample: seq<(nat, string)>)
    ensures |sample| == if vocabSize < 50 then vocabSize else 50
    ensures forall i :: 0 <= i < |sample| ==> sample[i] == (i, idToPiece(i))
  {
    var n := if vocabSize < 50 then vocabSize else 50;
    sample := [];
    var i := 0;
    while i < n
      invariant 0 <= i <= n && |sample| == i
      invariant forall j :: 0 <= j < i ==> sample[j] == (j, idToPiece(j))
    {
      sample := sample + [(i, idToPiece(i))];
      i := i + 1;
    }
  }
}
