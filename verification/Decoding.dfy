/** What decoding does to the context: every sampled token is run through the model before
    the next one is sampled.  The reference is the fold of single evaluations over the
    tokens, with the random state passed from one sampling to the next. */
module Decoding {
  import opened Options
  import opened MetalSession
  import opened MetalService
  import opened ServiceRefinement

  // ----- one decode

  /** A decode leaves what evaluating its token would, but for the random state, which is
      what sampling left; it fails exactly where that evaluation would. */
  lemma DecodeEvaluatesItsToken<K>(e: Engine<K>, st: State<K>)
    requires InVocab(e, Sampled(e, st))
    ensures var evaluated := Effect(e, st, Eval(Sampled(e, st))); var decoded := Effect(e, st, Decode);
      && (decoded.None? <==> evaluated.None?)
      && (decoded.Some? ==>
        && decoded.value.(rng := st.rng) == evaluated.value
        && (Sampled(e, st), decoded.value.rng) == e.sample(st.ctx, st.config, st.rng))
  {
  }

  /** After a reset nothing is evaluated or decoded until the next prefill, which leaves
      nothing of what was before. */
  lemma ResetNeedsPrefill<K>(e: Engine<K>, a: State<K>, b: State<K>, tokens: seq<Token>, t: Token)
    ensures var r := Effect(e, a, Reset);
      r.Some? && Effect(e, r.value, Decode).None? && Effect(e, r.value, Eval(t)).None?
    ensures var p := Effect(e, a, Prefill(tokens));
      && (p.Some? <==> Effect(e, b, Prefill(tokens)).Some?)
      && (p.Some? && a.config == b.config && a.rng == b.rng ==> p == Effect(e, b, Prefill(tokens)))
  {
  }

  // ----- many decodes

  /** The context after running `tokens` through the model one by one. */
  function Fold<K>(e: Engine<K>, ctx: K, tokens: seq<Token>): K {
    if tokens == [] then ctx else e.eval(Fold(e, ctx, tokens[..|tokens| - 1]), tokens[|tokens| - 1])
  }

  /** Token `k` is what the engine samples once the first `k` were evaluated; `rngs` are the
      random states in between. */
  ghost predicate Generates<K>(e: Engine<K>, input: GenerateRequest, tokens: seq<Token>, rngs: seq<nat>) {
    && |rngs| == |tokens| + 1
    && rngs[0] == input.generation.seed
    && forall k :: 0 <= k < |tokens| ==>
      e.sample(Fold(e, e.prefill(input.prompt), tokens[..k]), input.generation, rngs[k]) == (tokens[k], rngs[k + 1])
  }

  /** The session after the engine generated `tokens`. */
  function Grown<K>(e: Engine<K>, input: GenerateRequest, tokens: seq<Token>, rng: nat): State<K> {
    State(Fold(e, e.prefill(input.prompt), tokens), |input.prompt| + |tokens|, true, input.generation, rng)
  }

  lemma GeneratesOneMore<K>(e: Engine<K>, input: GenerateRequest, tokens: seq<Token>, rngs: seq<nat>, t: Token,
                            rng: nat)
    requires Generates(e, input, tokens, rngs)
    requires e.sample(Fold(e, e.prefill(input.prompt), tokens), input.generation, rngs[|tokens|]) == (t, rng)
    ensures Generates(e, input, tokens + [t], rngs + [rng])
  {
    hide Fold;
    var longer, states := tokens + [t], rngs + [rng];
    forall k | 0 <= k < |longer|
      ensures e.sample(Fold(e, e.prefill(input.prompt), longer[..k]), input.generation, states[k])
        == (longer[k], states[k + 1])
    {
      assert k < |tokens| ==> longer[..k] == tokens[..k];
      assert longer[..|tokens|] == tokens;
    }
  }

  lemma DecodeGrows<K>(e: Engine<K>, input: GenerateRequest, tokens: seq<Token>, rng: nat)
    requires Effect(e, Grown(e, input, tokens, rng), Decode).Some?
    ensures var (t, after) := e.sample(Fold(e, e.prefill(input.prompt), tokens), input.generation, rng);
      && Effect(e, Grown(e, input, tokens, rng), Decode) == Some(Grown(e, input, tokens + [t], after))
      && Sampled(e, Grown(e, input, tokens, rng)) == t
  {
    var (t, after) := e.sample(Fold(e, e.prefill(input.prompt), tokens), input.generation, rng);
    assert (tokens + [t])[..|tokens|] == tokens;
  }

  lemma SoloStarts<K>(e: Engine<K>, input: GenerateRequest)
    requires SoloRun(e, input, 0).Some?
    ensures SoloRun(e, input, 0) == Some(Solo(Grown(e, input, [], input.generation.seed), []))
    ensures Generates(e, input, [], [input.generation.seed])
  {
    PrefillForgets(e, Fresh(e, input.generation), input);
  }

  /** A solo run is the fold: its tokens are generated that way and its session is what
      that leaves. */
  lemma {:induction false} SoloRunGenerates<K>(e: Engine<K>, input: GenerateRequest, n: nat) returns (rngs: seq<nat>)
    requires SoloRun(e, input, n).Some?
    ensures var solo := SoloRun(e, input, n).value;
      && |solo.tokens| == n && |rngs| == n + 1 && Generates(e, input, solo.tokens, rngs)
      && solo.state == Grown(e, input, solo.tokens, rngs[n])
  {
    hide PrefillFrom, Generates, Grown, Effect, Fold, Sampled;
    if n == 0 {
      SoloStarts(e, input);
      rngs := [input.generation.seed];
    } else {
      var before := SoloRunGenerates(e, input, n - 1);
      var tokens := SoloRun(e, input, n - 1).value.tokens;
      var (t, rng) := e.sample(Fold(e, e.prefill(input.prompt), tokens), input.generation, before[n - 1]);
      DecodeGrows(e, input, tokens, before[n - 1]);
      GeneratesOneMore(e, input, tokens, before, t, rng);
      rngs := before + [rng];
    }
  }

  lemma {:induction false} GeneratesUnique<K>(e: Engine<K>, input: GenerateRequest, a: seq<Token>, p: seq<nat>,
                                              b: seq<Token>, q: seq<nat>, n: nat)
    requires Generates(e, input, a, p) && Generates(e, input, b, q) && n <= |a| && n <= |b|
    ensures a[..n] == b[..n] && p[..n + 1] == q[..n + 1]
  {
    hide Fold;
    if n > 0 {
      GeneratesUnique(e, input, a, p, b, q, n - 1);
      assert p[..n][n - 1] == q[..n][n - 1];
      assert a[..n] == a[..n - 1] + [a[n - 1]] && b[..n] == b[..n - 1] + [b[n - 1]];
      assert p[..n + 1] == p[..n] + [p[n]] && q[..n + 1] == q[..n] + [q[n]];
    }
  }

  /** The two descriptions of running alone are the same, for any engine. */
  lemma SoloRunIff<K>(e: Engine<K>, input: GenerateRequest, tokens: seq<Token>, st: State<K>)
    ensures SoloRun(e, input, |tokens|) == Some(Solo(st, tokens)) <==>
      && Acceptable(e, input) && |input.prompt| + |tokens| <= e.maxContext
      && exists rngs :: Generates(e, input, tokens, rngs) && st == Grown(e, input, tokens, rngs[|tokens|])
  {
    var n := |tokens|;
    SoloPosition(e, input, n);
    if SoloRun(e, input, n).Some? {
      var p := SoloRunGenerates(e, input, n);
      var solo := SoloRun(e, input, n).value;
      if rngs :| Generates(e, input, tokens, rngs) && st == Grown(e, input, tokens, rngs[n]) {
        GeneratesUnique(e, input, solo.tokens, p, tokens, rngs, n);
        assert solo.tokens[..n] == solo.tokens && tokens[..n] == tokens;
        assert p[..n + 1][n] == rngs[..n + 1][n];
      }
    }
  }

  // ----- where single evaluations agree with prefilling

  lemma {:induction false} FoldIsPrefill<K(!new)>(e: Engine<K>, prompt: seq<Token>, tokens: seq<Token>)
    requires Incremental(e) && prompt != [] && e.minPrompt <= |prompt| && |prompt| + |tokens| <= e.maxContext
    requires AllInVocab(e, prompt) && AllInVocab(e, tokens)
    ensures Fold(e, e.prefill(prompt), tokens) == e.prefill(prompt + tokens)
  {
    if tokens == [] {
      assert prompt + tokens == prompt;
    } else {
      var n := |tokens| - 1;
      FoldIsPrefill(e, prompt, tokens[..n]);
      assert Extendable(e, prompt + tokens[..n]);
      assert prompt + tokens[..n] + [tokens[n]] == prompt + tokens;
    }
  }

  /** Token `k` is what the engine samples from the prefill of the prompt and all the
      tokens before it. */
  ghost predicate SamplesItsOwnText<K>(e: Engine<K>, input: GenerateRequest, tokens: seq<Token>, rngs: seq<nat>) {
    && |rngs| == |tokens| + 1
    && rngs[0] == input.generation.seed
    && forall k :: 0 <= k < |tokens| ==>
      e.sample(e.prefill(input.prompt + tokens[..k]), input.generation, rngs[k]) == (tokens[k], rngs[k + 1])
  }

  lemma GeneratesFromText<K(!new)>(e: Engine<K>, input: GenerateRequest, tokens: seq<Token>, rngs: seq<nat>)
    requires Generates(e, input, tokens, rngs) && Incremental(e)
    requires Acceptable(e, input) && |input.prompt| + |tokens| <= e.maxContext && AllInVocab(e, tokens)
    ensures SamplesItsOwnText(e, input, tokens, rngs)
  {
    forall k | 0 <= k < |tokens|
      ensures Fold(e, e.prefill(input.prompt), tokens[..k]) == e.prefill(input.prompt + tokens[..k])
    {
      FoldIsPrefill(e, input.prompt, tokens[..k]);
    }
  }

  lemma GrownHolds<K(!new)>(e: Engine<K>, input: GenerateRequest, tokens: seq<Token>, rng: nat)
    requires Incremental(e)
    requires Acceptable(e, input) && |input.prompt| + |tokens| <= e.maxContext && AllInVocab(e, tokens)
    ensures Holds(e, Grown(e, input, tokens, rng), input.prompt + tokens)
  {
    FoldIsPrefill(e, input.prompt, tokens);
  }

  /** With an incremental engine, decoding alone samples each token from the whole text so
      far and leaves the session holding all of it. */
  lemma SoloHoldsItsText<K(!new)>(e: Engine<K>, input: GenerateRequest, n: nat) returns (rngs: seq<nat>)
    requires Incremental(e) && SoloRun(e, input, n).Some?
    requires AllInVocab(e, SoloRun(e, input, n).value.tokens)
    ensures var solo := SoloRun(e, input, n).value;
      && Holds(e, solo.state, input.prompt + solo.tokens)
      && SamplesItsOwnText(e, input, solo.tokens, rngs)
  {
    rngs := SoloRunGenerates(e, input, n);
    SoloPosition(e, input, n);
    var tokens := SoloRun(e, input, n).value.tokens;
    hide SoloRun, Incremental, Grown, Holds, Generates, SamplesItsOwnText;
    GeneratesFromText(e, input, tokens, rngs);
    GrownHolds(e, input, tokens, rngs[n]);
  }

  /** A request of the service generated its tokens that way, and its snapshot is what that
      leaves. */
  lemma RequestGenerates<K>(e: Engine<K>, r: Request<K>, tokens: seq<Token>) returns (rngs: seq<nat>)
    requires RequestOk(e, r, tokens)
    ensures Generates(e, r.input, tokens, rngs)
    ensures r.snapshot.Some? ==> r.snapshot.value == Grown(e, r.input, tokens, rngs[|tokens|])
    ensures tokens != [] || r.snapshot.Some? ==>
      Acceptable(e, r.input) && |r.input.prompt| + |tokens| <= e.maxContext
  {
    var n := |tokens|;
    if SoloRun(e, r.input, n).None? {
      rngs := [r.input.generation.seed];
    } else {
      rngs := SoloRunGenerates(e, r.input, n);
      SoloPosition(e, r.input, n);
      assert n == 0 ==> SoloRun(e, r.input, 0).value.tokens == [];
    }
  }

  /** In every run of the service, cached or not, each token of each request was sampled
      from that request's own prompt and the tokens before it. */
  lemma EveryRunSamplesItsOwnText<K(!new)>(d: Deployment<K>, session: State<K>, ops: seq<Op<K>>, id: nat)
    returns (rngs: seq<nat>)
    requires Sound(d) && id in Run(d, Begin(session), ops).svc.requests
    ensures var h := Run(d, Begin(session), ops);
      && Known(h, id)
      && var r := h.svc.requests[id]; var tokens := Generated(h, id);
      && Generates(d.engine, r.input, tokens, rngs)
      && (r.snapshot.Some? ==> r.snapshot.value == Grown(d.engine, r.input, tokens, rngs[|tokens|]))
      && (Incremental(d.engine) && AllInVocab(d.engine, tokens) ==>
        && SamplesItsOwnText(d.engine, r.input, tokens, rngs)
        && (r.snapshot.Some? ==> Holds(d.engine, r.snapshot.value, r.input.prompt + tokens)))
  {
    var h := Run(d, Begin(session), ops);
    RunKeepsFaithful(d, Begin(session), ops);
    var r, tokens := h.svc.requests[id], Generated(h, id);
    assert RequestOk(d.engine, r, tokens);
    rngs := RequestGenerates(d.engine, r, tokens);
    hide *;
    if Incremental(d.engine) && AllInVocab(d.engine, tokens) {
      if tokens != [] || r.snapshot.Some? {
        GeneratesFromText(d.engine, r.input, tokens, rngs);
        GrownHolds(d.engine, r.input, tokens, rngs[|tokens|]);
      }
    }
  }
}
