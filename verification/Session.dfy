/** The inference session every request shares: one mutable device context that is
    multiplexed by snapshot and restore.  The tensor arithmetic is a parameter
    (`Engine`); what the service relies on is how each call reads and writes the
    session and when it throws. */
module MetalSession {
  import opened Options

  type Token = int

  datatype GenerationConfig = GenerationConfig(
    temperature: real, topK: int, topP: real, repetitionPenalty: real, seed: nat)

  predicate ValidConfig(g: GenerationConfig) {
    && g.temperature >= 0.0
    && 1 <= g.topK <= 128
    && 0.0 < g.topP <= 1.0
    && g.repetitionPenalty >= 1.0
    && g.seed != 0
  }

  /** A model loaded on the device.  `K` is everything a token evaluation writes
      (KV pages, recurrent state, logits, seen flags).  `prefill` is the batched
      path, `eval` the token path; nothing here says they agree. */
  datatype Engine<!K> = Engine(
    vocab: nat,
    maxContext: nat,
    minPrompt: nat,  // shortest prompt the batched path accepts (Prefix-LM)
    empty: K,
    prefill: seq<Token> -> K,
    eval: (K, Token) -> K,
    sample: (K, GenerationConfig, nat) -> (Token, nat))

  datatype State<K> = State(ctx: K, position: nat, ready: bool, config: GenerationConfig, rng: nat)

  datatype Call<K> =
    | Reset
    | SetConfig(config: GenerationConfig)
    | Prefill(tokens: seq<Token>)
    | Eval(token: Token)
    | Decode
    | Restore(snapshot: State<K>)
    | Export

  predicate InVocab<K>(e: Engine<K>, t: Token) { 0 <= t < e.vocab }

  predicate AllInVocab<K>(e: Engine<K>, tokens: seq<Token>) {
    forall i :: 0 <= i < |tokens| ==> InVocab(e, tokens[i])
  }

  /** What one call does when the device does not fail; None is an exception. */
  function Effect<K>(e: Engine<K>, st: State<K>, c: Call<K>): Option<State<K>> {
    match c
    case Reset => Some(st.(ctx := e.empty, position := 0, ready := false))
    case SetConfig(g) =>
      if ValidConfig(g) then Some(st.(config := g, rng := g.seed)) else None
    case Prefill(tokens) =>
      if tokens == [] || |tokens| > e.maxContext || |tokens| < e.minPrompt || !AllInVocab(e, tokens) then None
      else Some(st.(ctx := e.prefill(tokens), position := |tokens|, ready := true))
    case Eval(t) =>
      if !st.ready || !InVocab(e, t) || st.position >= e.maxContext then None
      else Some(st.(ctx := e.eval(st.ctx, t), position := st.position + 1))
    case Decode =>
      if !st.ready || st.position >= e.maxContext then None
      else
        var (t, rng) := e.sample(st.ctx, st.config, st.rng);
        Some(st.(ctx := e.eval(st.ctx, t), position := st.position + 1, rng := rng))
    case Restore(s) =>
      if !ValidConfig(s.config) || s.position > e.maxContext then None else Some(s)
    case Export => Some(st)
  }

  /** The token a `Decode` from this state returns. */
  function Sampled<K>(e: Engine<K>, st: State<K>): Token {
    e.sample(st.ctx, st.config, st.rng).0
  }

  /** What the device does to one scheduling step: `failAt` calls succeed and the
      next one throws (None: no device fault), and a call that throws leaves the
      session in the arbitrary state `wreck`. */
  datatype Weather<K> = Weather(failAt: Option<nat>, wreck: State<K>)

  datatype Outcome<K> = Outcome(ok: bool, state: State<K>, weather: Weather<K>)

  function Invoke<K>(e: Engine<K>, st: State<K>, w: Weather<K>, c: Call<K>): Outcome<K> {
    var r := Effect(e, st, c);
    if w.failAt == Some(0) || r.None? then Outcome(false, w.wreck, w)
    else Outcome(true, r.value, if w.failAt.None? then w else w.(failAt := Some(w.failAt.value - 1)))
  }

  /** A sequence of calls, abandoned at the first exception. */
  function InvokeAll<K>(e: Engine<K>, st: State<K>, w: Weather<K>, calls: seq<Call<K>>): Outcome<K>
    decreases |calls|
  {
    if calls == [] then Outcome(true, st, w)
    else
      var o := Invoke(e, st, w, calls[0]);
      if !o.ok then o else InvokeAll(e, o.state, o.weather, calls[1..])
  }

  lemma InvokeCons<K>(e: Engine<K>, st: State<K>, w: Weather<K>, c: Call<K>, rest: seq<Call<K>>)
    ensures InvokeAll(e, st, w, [c] + rest) ==
      var o := Invoke(e, st, w, c);
      if !o.ok then o else InvokeAll(e, o.state, o.weather, rest)
  {
    assert ([c] + rest)[1..] == rest;
  }

  lemma InvokeOne<K>(e: Engine<K>, st: State<K>, w: Weather<K>, c: Call<K>)
    ensures InvokeAll(e, st, w, [c]) == Invoke(e, st, w, c)
  {
    InvokeCons(e, st, w, c, []);
    assert [c] + [] == [c];
  }

  /** Three calls in a row, then whatever follows. */
  lemma InvokeThree<K>(e: Engine<K>, st: State<K>, w: Weather<K>, c1: Call<K>, c2: Call<K>, c3: Call<K>,
                       rest: seq<Call<K>>)
    ensures InvokeAll(e, st, w, [c1, c2, c3] + rest) ==
      var o1 := Invoke(e, st, w, c1);
      if !o1.ok then o1 else
      var o2 := Invoke(e, o1.state, o1.weather, c2);
      if !o2.ok then o2 else
      var o3 := Invoke(e, o2.state, o2.weather, c3);
      if !o3.ok then o3 else InvokeAll(e, o3.state, o3.weather, rest)
  {
    var o1 := Invoke(e, st, w, c1);
    assert [c1, c2, c3] + rest == [c1] + ([c2] + ([c3] + rest));
    InvokeCons(e, st, w, c1, [c2] + ([c3] + rest));
    if o1.ok {
      var o2 := Invoke(e, o1.state, o1.weather, c2);
      InvokeCons(e, o1.state, o1.weather, c2, [c3] + rest);
      if o2.ok { InvokeCons(e, o2.state, o2.weather, c3, rest); }
    }
  }

  function Evals<K>(tokens: seq<Token>): (calls: seq<Call<K>>)
    ensures |calls| == |tokens|
    ensures forall i :: 0 <= i < |tokens| ==> calls[i] == Eval(tokens[i])
  {
    if tokens == [] then [] else [Eval(tokens[0])] + Evals(tokens[1..])
  }

  /** The session object.  Methods report an exception as `ok == false`. */
  class MetalInferenceSession<K> {
    const engine: Engine<K>
    var state: State<K>
    var weather: Weather<K>

    constructor (engine: Engine<K>, state: State<K>)
      ensures this.engine == engine && this.state == state
    {
      this.engine := engine;
      this.state := state;
      this.weather := Weather(None, state);
    }

    ghost predicate Performed(before: State<K>, w: Weather<K>, c: Call<K>, ok: bool)
      reads this
    {
      Outcome(ok, state, weather) == Invoke(engine, before, w, c)
    }

    method Arm(w: Weather<K>)
      modifies this`weather
      ensures weather == w
    {
      weather := w;
    }

    method DeviceFails() returns (fails: bool)
      modifies this
      ensures fails == (old(weather).failAt == Some(0))
      ensures fails ==> state == old(weather).wreck && weather == old(weather)
      ensures !fails ==> state == old(state) && weather ==
                         if old(weather).failAt.None? then old(weather)
                         else old(weather).(failAt := Some(old(weather).failAt.value - 1))
    {
      fails := weather.failAt == Some(0);
      if fails {
        state := weather.wreck;
      } else if weather.failAt.Some? {
        weather := weather.(failAt := Some(weather.failAt.value - 1));
      }
    }

    /** An argument or state check inside a call throws. */
    method Abandon(w: Weather<K>)
      modifies this
      ensures state == w.wreck && weather == w
    {
      state := w.wreck;
      weather := w;
    }

    method ResetSession() returns (ok: bool)
      modifies this
      ensures Performed(old(state), old(weather), Reset, ok)
    {
      var fails := DeviceFails();
      if !fails { state := state.(ctx := engine.empty, position := 0, ready := false); }
      ok := !fails;
    }

    method SetGenerationConfig(g: GenerationConfig) returns (ok: bool)
      modifies this
      ensures Performed(old(state), old(weather), SetConfig(g), ok)
    {
      var w := weather;
      var fails := DeviceFails();
      if fails { return false; }
      if !ValidConfig(g) { Abandon(w); return false; }
      state := state.(config := g, rng := g.seed);
      ok := true;
    }

    method PrefillTokens(tokens: seq<Token>) returns (ok: bool)
      modifies this
      ensures Performed(old(state), old(weather), Prefill(tokens), ok)
    {
      var w := weather;
      var fails := DeviceFails();
      if fails { return false; }
      if tokens == [] || |tokens| > engine.maxContext || |tokens| < engine.minPrompt { Abandon(w); return false; }
      for i := 0 to |tokens|
        invariant forall k :: 0 <= k < i ==> InVocab(engine, tokens[k])
        invariant state == old(state)
        invariant Outcome(true, state, weather) == Invoke(engine, state, w, Export)
      {
        if tokens[i] < 0 || tokens[i] >= engine.vocab { Abandon(w); return false; }
      }
      state := state.(ctx := engine.prefill(tokens), position := |tokens|, ready := true);
      ok := true;
    }

    method EvalToken(t: Token) returns (ok: bool)
      modifies this
      ensures Performed(old(state), old(weather), Eval(t), ok)
    {
      var w := weather;
      var fails := DeviceFails();
      if fails { return false; }
      if !state.ready || !InVocab(engine, t) || state.position >= engine.maxContext { Abandon(w); return false; }
      state := state.(ctx := engine.eval(state.ctx, t), position := state.position + 1);
      ok := true;
    }

    method DecodeToken() returns (ok: bool, token: Token)
      modifies this
      ensures Performed(old(state), old(weather), Decode, ok)
      ensures ok ==> (token, state.rng) == engine.sample(old(state).ctx, old(state).config, old(state).rng)
      ensures ok && InVocab(engine, token) ==>
              Effect(engine, old(state), Eval(token)) == Some(state.(rng := old(state).rng))
    {
      var w := weather;
      token := 0;
      var fails := DeviceFails();
      if fails { return false, 0; }
      if !state.ready || state.position >= engine.maxContext { Abandon(w); return false, 0; }
      var (t, rng) := engine.sample(state.ctx, state.config, state.rng);
      state := state.(ctx := engine.eval(state.ctx, t), position := state.position + 1, rng := rng);
      ok, token := true, t;
    }

    method RestoreSnapshot(s: State<K>) returns (ok: bool)
      modifies this
      ensures Performed(old(state), old(weather), Restore(s), ok)
    {
      var w := weather;
      var fails := DeviceFails();
      if fails { return false; }
      if !ValidConfig(s.config) || s.position > engine.maxContext { Abandon(w); return false; }
      state := s;
      ok := true;
    }

    method ExportSnapshot() returns (ok: bool, s: State<K>)
      modifies this
      ensures Performed(old(state), old(weather), Export, ok)
      ensures ok ==> s == old(state) == state
    {
      var fails := DeviceFails();
      ok, s := !fails, state;
    }
  }
}
