/** Every request sees the session as if it ran alone.  The reference is `Solo`: the
    session calls of one request on a fresh session, with no cache and no neighbours. */
module ServiceRefinement {
  import opened Options
  import opened MetalSession
  import opened MetalService

  // ----- running alone

  datatype Solo<K> = Solo(state: State<K>, tokens: seq<Token>)

  function Fresh<K>(e: Engine<K>, g: GenerationConfig): State<K> { State(e.empty, 0, false, g, g.seed) }

  /** Reset, configure and prefill from a given session, with a healthy device. */
  function PrefillFrom<K>(e: Engine<K>, idle: State<K>, input: GenerateRequest): Option<State<K>> {
    var o := InvokeAll(e, idle, Weather(None, idle),
                       [Reset, SetConfig(input.generation), Prefill(input.prompt)]);
    if o.ok then Some(o.state) else None
  }

  /** The session and the tokens after `n` decodes of a request that has the device
      to itself. */
  function SoloRun<K>(e: Engine<K>, input: GenerateRequest, n: nat): Option<Solo<K>> {
    if n == 0 then
      var st := PrefillFrom(e, Fresh(e, input.generation), input);
      if st.Some? then Some(Solo(st.value, [])) else None
    else
      var before := SoloRun(e, input, n - 1);
      if before.None? then None
      else
        var st := Effect(e, before.value.state, Decode);
        if st.None? then None
        else Some(Solo(st.value, before.value.tokens + [Sampled(e, before.value.state)]))
  }

  predicate Acceptable<K>(e: Engine<K>, input: GenerateRequest) {
    ValidConfig(input.generation) && input.prompt != [] &&
    e.minPrompt <= |input.prompt| <= e.maxContext && AllInVocab(e, input.prompt)
  }

  /** The idle session a request starts from is irrelevant: reset, configuration and
      prefill overwrite all of it. */
  lemma PrefillForgets<K>(e: Engine<K>, idle: State<K>, input: GenerateRequest)
    ensures PrefillFrom(e, idle, input) ==
      if Acceptable(e, input) then
        Some(State(e.prefill(input.prompt), |input.prompt|, true, input.generation, input.generation.seed))
      else None
  {
    InvokeThree(e, idle, Weather(None, idle), Reset, SetConfig(input.generation), Prefill(input.prompt), []);
    var calls: seq<Call<K>> := [Reset, SetConfig(input.generation), Prefill(input.prompt)];
    assert calls + [] == calls;
  }

  lemma {:induction false} SoloTokensCount<K>(e: Engine<K>, input: GenerateRequest, n: nat)
    requires SoloRun(e, input, n).Some?
    ensures |SoloRun(e, input, n).value.tokens| == n
    ensures forall m :: 0 <= m <= n ==>
      SoloRun(e, input, m).Some? && SoloRun(e, input, m).value.tokens == SoloRun(e, input, n).value.tokens[..m]
  {
    hide PrefillFrom, Effect, Sampled;
    if n > 0 { SoloTokensCount(e, input, n - 1); }
  }

  // ----- when evaluating token by token is the same as prefilling

  /** Extending a prefilled prompt by one evaluated token is prefilling the longer
      prompt.  True of causal models; false of a bidirectional one, whose earlier
      positions read the later token. */
  ghost predicate Incremental<K(!new)>(e: Engine<K>) {
    forall p: seq<Token>, t: Token ::
      Extendable(e, p) && InVocab(e, t) ==> e.prefill(p + [t]) == e.eval(e.prefill(p), t)
  }

  predicate Extendable<K>(e: Engine<K>, p: seq<Token>) {
    p != [] && e.minPrompt <= |p| < e.maxContext && AllInVocab(e, p)
  }

  ghost predicate Sound<K(!new)>(d: Deployment<K>) {
    ValidDeployment(d) && (d.prefixCache ==> Incremental(d.engine))
  }

  /** The session holds exactly the evaluation of `tokens`. */
  ghost predicate Holds<K>(e: Engine<K>, st: State<K>, tokens: seq<Token>) {
    && st.ctx == e.prefill(tokens)
    && st.position == |tokens|
    && st.ready
    && ValidConfig(st.config)
    && tokens != [] && e.minPrompt <= |tokens| <= e.maxContext && AllInVocab(e, tokens)
  }

  lemma {:induction false} EvalsReach<K(!new)>(e: Engine<K>, st: State<K>, w: Weather<K>, done: seq<Token>,
                                               rest: seq<Token>)
    requires Incremental(e) && Holds(e, st, done)
    ensures var o := InvokeAll(e, st, w, Evals(rest) + [Export]);
      && (o.ok ==> Holds(e, o.state, done + rest) && o.state.config == st.config && o.state.rng == st.rng)
      && (w.failAt.None? && AllInVocab(e, rest) && |done| + |rest| <= e.maxContext ==> o.ok)
    decreases |rest|
  {
    hide InvokeAll, Invoke, Incremental;
    HoldsShort(e, st, done);
    if rest == [] {
      hide Holds;
      assert Evals<K>(rest) + [Export] == [Export];
      InvokeOne(e, st, w, Export);
      ExportKeeps(e, st, w);
      assert done + rest == done;
    } else {
      hide Holds;
      var t := rest[0];
      var o := Invoke(e, st, w, Eval(t));
      EvalHolds(e, st, w, done, t);
      assert Evals<K>(rest) + [Export] == [Eval(t)] + (Evals(rest[1..]) + [Export]);
      hide Evals;
      InvokeCons(e, st, w, Eval(t), Evals(rest[1..]) + [Export]);
      if o.ok {
        EvalsReach(e, o.state, o.weather, done + [t], rest[1..]);
        assert done + [t] + rest[1..] == done + rest;
      }
    }
  }

  lemma HoldsShort<K>(e: Engine<K>, st: State<K>, tokens: seq<Token>)
    requires Holds(e, st, tokens)
    ensures |tokens| <= e.maxContext
  {
  }

  lemma ExportKeeps<K>(e: Engine<K>, st: State<K>, w: Weather<K>)
    ensures var o := Invoke(e, st, w, Export); (o.ok ==> o.state == st) && (w.failAt.None? ==> o.ok)
  {
  }

  lemma EvalHolds<K(!new)>(e: Engine<K>, st: State<K>, w: Weather<K>, done: seq<Token>, t: Token)
    requires Incremental(e) && Holds(e, st, done)
    ensures var o := Invoke(e, st, w, Eval(t));
      && (o.ok ==> Holds(e, o.state, done + [t]) && o.state.config == st.config && o.state.rng == st.rng)
      && (w.failAt.None? && InVocab(e, t) && |done| < e.maxContext ==> o.ok && o.weather.failAt.None?)
  {
    var o := Invoke(e, st, w, Eval(t));
    if o.ok { assert Extendable(e, done); }
  }

  /** Resuming a cached prefix ends, when it ends well, in the state of a full prefill. */
  lemma CachedPrefill<K(!new)>(e: Engine<K>, st: State<K>, w: Weather<K>, input: GenerateRequest, n: nat,
                               cached: State<K>)
    requires Incremental(e) && 0 < n <= |input.prompt|
    requires Holds(e, cached, input.prompt[..n])
    ensures var o := InvokeAll(e, st, w, [Restore(cached), SetConfig(input.generation)] + Evals(input.prompt[n..])
      + [Export]);
      && (o.ok ==> SoloRun(e, input, 0) == Some(Solo(o.state, [])))
      && (w.failAt.None? && Acceptable(e, input) ==> o.ok)
  {
    hide InvokeAll, Evals;
    var tail := Evals<K>(input.prompt[n..]) + [Export];
    assert [Restore(cached), SetConfig(input.generation)] + Evals(input.prompt[n..]) + [Export] ==
      [Restore(cached)] + ([SetConfig(input.generation)] + tail);
    InvokeCons(e, st, w, Restore(cached), [SetConfig(input.generation)] + tail);
    var o1 := Invoke(e, st, w, Restore(cached));
    if o1.ok {
      InvokeCons(e, o1.state, o1.weather, SetConfig(input.generation), tail);
      var o2 := Invoke(e, o1.state, o1.weather, SetConfig(input.generation));
      if o2.ok {
        EvalsReach(e, o2.state, o2.weather, input.prompt[..n], input.prompt[n..]);
        assert input.prompt[..n] + input.prompt[n..] == input.prompt;
        PrefillForgets(e, Fresh(e, input.generation), input);
      }
    }
  }

  lemma DirectPrefill<K>(e: Engine<K>, st: State<K>, w: Weather<K>, input: GenerateRequest)
    ensures var o := InvokeAll(e, st, w, [Reset, SetConfig(input.generation), Prefill(input.prompt), Export]);
      && (o.ok ==> SoloRun(e, input, 0) == Some(Solo(o.state, [])))
      && (w.failAt.None? ==> (o.ok <==> Acceptable(e, input)))
  {
    InvokeThree(e, st, w, Reset, SetConfig(input.generation), Prefill(input.prompt), [Export]);
    var calls: seq<Call<K>> := [Reset, SetConfig(input.generation), Prefill(input.prompt)];
    assert calls + [Export] == [Reset, SetConfig(input.generation), Prefill(input.prompt), Export];
    PrefillForgets(e, Fresh(e, input.generation), input);
  }

  // ----- the invariant of one request and of the cache

  predicate Ends(tokens: seq<Token>, stops: seq<Token>) { tokens != [] && tokens[|tokens| - 1] in stops }

  predicate OnlyLastStops(tokens: seq<Token>, stops: seq<Token>) {
    forall i :: 0 <= i < |tokens| - 1 ==> tokens[i] !in stops
  }

  /** `r` after `tokens` were generated for it, delivered or not. */
  ghost predicate RequestOk<K>(e: Engine<K>, r: Request<K>, tokens: seq<Token>) {
    && |tokens| == r.generated <= r.input.maxOutput
    && (tokens == [] || (SoloRun(e, r.input, |tokens|).Some? && SoloRun(e, r.input, |tokens|).value.tokens == tokens))
    && (r.snapshot.Some? ==> SoloRun(e, r.input, |tokens|) == Some(Solo(r.snapshot.value, tokens)))
    && OnlyLastStops(tokens, r.input.eos)
    && ValidConfig(r.input.generation)
    && r.input.prompt != []
    && match r.status
       case Queued => tokens == [] && r.snapshot.None? && r.reason.NoReason?
       case Prefilling => false
       case Decoding =>
         r.snapshot.Some? && r.generated < r.input.maxOutput && !Ends(tokens, r.input.eos) && r.reason.NoReason?
       case Finished =>
         && SoloRun(e, r.input, |tokens|).Some?
         && (if Ends(tokens, r.input.eos) then r.reason.Stop? else r.reason.Length? && r.generated == r.input.maxOutput)
       case Cancelled => r.reason.CancelledReason?
       case Failed => r.reason.Error?
  }

  ghost predicate CacheOk<K>(e: Engine<K>, c: Cache<K>) {
    forall key :: key in c.entries ==> Holds(e, c.entries[key], key)
  }

  lemma {:induction false} EvictKeeps<K>(c: Cache<K>, limit: nat)
    ensures Evict(c, limit).entries.Keys <= c.entries.Keys
    ensures forall key :: key in Evict(c, limit).entries ==> Evict(c, limit).entries[key] == c.entries[key]
    decreases |c.lru|
  {
    if |c.lru| > limit { EvictKeeps(Cache(c.entries - {c.lru[0]}, c.lru[1..]), limit); }
  }

  lemma CacheStaysOk<K>(d: Deployment<K>, c: Cache<K>, key: PrefixKey, snapshot: State<K>)
    requires CacheOk(d.engine, c) && Holds(d.engine, snapshot, key)
    ensures CacheOk(d.engine, CachePrefix(d, c, key, snapshot))
  {
    if d.prefixCache && key != [] {
      var older := if key in c.entries then Without(c.lru, key) else c.lru;
      EvictKeeps(Cache(c.entries[key := snapshot], older + [key]), d.cacheEntries);
    }
  }

  // ----- the two kinds of scheduling step

  lemma PrefillIsSolo<K(!new)>(d: Deployment<K>, st: State<K>, c: Cache<K>, w: Weather<K>, input: GenerateRequest)
    requires Sound(d) && CacheOk(d.engine, c) && (d.prefixCache || c.entries == map[])
    ensures var o := InvokeAll(d.engine, st, w, PrefillCalls(c, input));
      && (o.ok ==> SoloRun(d.engine, input, 0) == Some(Solo(o.state, [])))
      && (w.failAt.None? && Acceptable(d.engine, input) ==> o.ok)
  {
    var matched := LongestCached(c.entries, input.prompt, |input.prompt|);
    if matched > 0 {
      CachedPrefill(d.engine, st, w, input, matched, c.entries[input.prompt[..matched]]);
    } else {
      DirectPrefill(d.engine, st, w, input);
    }
  }

  lemma PrefillKeeps<K(!new)>(d: Deployment<K>, session: State<K>, c: Cache<K>, r: Request<K>, w: Weather<K>)
    requires Sound(d) && CacheOk(d.engine, c) && (d.prefixCache || c.entries == map[])
    requires r.status.Queued? && RequestOk(d.engine, r, [])
    ensures var p := PrefillRequest(d.engine, session, c, r, w);
      && p.request.input == r.input && p.request.pending == r.pending
      && RequestOk(d.engine, p.request, [])
      && (!p.request.status.Failed? ==>
        p.request.snapshot.Some? && Holds(d.engine, p.request.snapshot.value, r.input.prompt))
  {
    PrefillIsSolo(d, session, c, w, r.input);
    PrefillForgets(d.engine, Fresh(d.engine, r.input.generation), r.input);
  }

  lemma DecodeKeeps<K>(e: Engine<K>, session: State<K>, r: Request<K>, w: Weather<K>, tokens: seq<Token>)
    requires r.status.Decoding? && RequestOk(e, r, tokens)
    ensures var r' := DecodeRequest(e, session, r, w).request;
      && r'.input == r.input
      && ((r'.pending == r.pending && RequestOk(e, r', tokens))
          || (exists t :: r'.pending == r.pending + [t] && RequestOk(e, r', tokens + [t])))
  {
    hide SoloRun;
    var restored := Invoke(e, session, w, Restore(r.snapshot.value));
    if restored.ok {
      var decoded := Invoke(e, restored.state, restored.weather, Decode);
      if decoded.ok {
        var t := Sampled(e, restored.state);
        SoloGrows(e, r.input, tokens, restored.state);
        assert (tokens + [t])[|tokens|] == t;
        var r' := DecodeRequest(e, session, r, w).request;
        assert r'.pending == r.pending + [t];
        assert RequestOk(e, r', tokens + [t]);
      }
    }
  }

  lemma SoloGrows<K>(e: Engine<K>, input: GenerateRequest, tokens: seq<Token>, st: State<K>)
    requires SoloRun(e, input, |tokens|) == Some(Solo(st, tokens))
    requires Effect(e, st, Decode).Some?
    ensures SoloRun(e, input, |tokens + [Sampled(e, st)]|) ==
      Some(Solo(Effect(e, st, Decode).value, tokens + [Sampled(e, st)]))
  {
  }

  // ----- histories

  /** A service together with what its clients have seen: the input of every accepted
      request and the tokens polled from it so far. */
  datatype History<K> = History(svc: Service<K>, inputs: map<nat, GenerateRequest>, polled: map<nat, seq<Token>>)

  function Begin<K>(session: State<K>): History<K> { History(Initial(session), map[], map[]) }

  function Observe<K>(d: Deployment<K>, h: History<K>, op: Op<K>): History<K> {
    var svc := Apply(d, h.svc, op);
    match op
    case SubmitOp(input) =>
      if Admit(d, input).None? then
        History(svc, h.inputs[h.svc.nextId := input], h.polled[h.svc.nextId := []])
      else h.(svc := svc)
    case PollOp(id, maxTokens) =>
      if id in h.svc.requests && id in h.polled then
        h.(svc := svc, polled := h.polled[id := h.polled[id] + EventOf(id, h.svc.requests[id], maxTokens).tokens])
      else h.(svc := svc)
    case _ => h.(svc := svc)
  }

  function Run<K>(d: Deployment<K>, h: History<K>, ops: seq<Op<K>>): History<K>
    decreases |ops|
  {
    if ops == [] then h else Run(d, Observe(d, h, ops[0]), ops[1..])
  }

  predicate Known<K>(h: History<K>, id: nat) { id in h.svc.requests && id in h.inputs && id in h.polled }

  /** Everything generated for a request: what was polled and what is still pending. */
  function Generated<K>(h: History<K>, id: nat): seq<Token>
    requires Known(h, id)
  {
    h.polled[id] + h.svc.requests[id].pending
  }

  ghost predicate Faithful<K>(d: Deployment<K>, h: History<K>) {
    && CacheOk(d.engine, h.svc.cache)
    && (d.prefixCache || h.svc.cache.entries == map[])
    && forall id :: id in h.svc.requests ==>
      && id < h.svc.nextId && Known(h, id)
      && h.svc.requests[id].input == h.inputs[id]
      && RequestOk(d.engine, h.svc.requests[id], Generated(h, id))
  }

  lemma StepKeepsFaithful<K(!new)>(d: Deployment<K>, h: History<K>, w: Weather<K>)
    requires Sound(d) && Faithful(d, h)
    ensures Faithful(d, Observe(d, h, StepOp(w)))
  {
    var s := h.svc;
    var next := Next(s.requests, s.lastScheduled);
    if s.running && next.Some? {
      var id := next.value;
      var r := s.requests[id];
      var p := StepProgress(d, s, id, w);
      var tokens := Generated(h, id);
      var c' := StepCache(d, s, id, p);
      if r.status.Queued? {
        assert tokens == [];
        PrefillKeeps(d, s.session, s.cache, r, w);
        if !p.request.status.Failed? { CacheStaysOk(d, s.cache, r.input.prompt, p.request.snapshot.value); }
        assert RequestOk(d.engine, p.request, h.polled[id] + p.request.pending);
      } else {
        DecodeKeeps(d.engine, s.session, r, w, tokens);
        if p.request.pending != r.pending {
          var t :| p.request.pending == r.pending + [t] && RequestOk(d.engine, p.request, tokens + [t]);
          assert h.polled[id] + p.request.pending == tokens + [t];
        }
        assert RequestOk(d.engine, p.request, h.polled[id] + p.request.pending);
      }
      SettleKeepsFaithful(d, h, id, p, c');
    }
  }

  lemma SettleKeepsFaithful<K(!new)>(d: Deployment<K>, h: History<K>, id: nat, p: Progress<K>, c: Cache<K>)
    requires Faithful(d, h) && id in h.svc.requests
    requires CacheOk(d.engine, c) && (d.prefixCache || c.entries == map[])
    requires p.request.input == h.svc.requests[id].input
    requires RequestOk(d.engine, p.request, h.polled[id] + p.request.pending)
    ensures Faithful(d, h.(svc := Settle(h.svc, id, p, c)))
  {
    var h' := h.(svc := Settle(h.svc, id, p, c));
    assert h'.svc.requests == h.svc.requests[id := p.request];
    forall q | q in h'.svc.requests
      ensures q < h'.svc.nextId && Known(h', q) && h'.svc.requests[q].input == h'.inputs[q]
      ensures RequestOk(d.engine, h'.svc.requests[q], Generated(h', q))
    {
      assert Known(h, q);
      if q != id { assert Generated(h', q) == Generated(h, q); }
    }
  }

  /** Replacing, adding or removing one request leaves the others faithful. */
  lemma OthersStayFaithful<K(!new)>(d: Deployment<K>, h: History<K>, h': History<K>, id: nat)
    requires Faithful(d, h)
    requires h'.svc.cache == h.svc.cache && h'.svc.nextId >= h.svc.nextId
    requires h'.svc.requests.Keys <= h.svc.requests.Keys + {id}
    requires forall q :: q in h'.svc.requests && q != id ==>
      q in h.svc.requests && h'.svc.requests[q] == h.svc.requests[q] && Known(h', q)
      && h'.inputs[q] == h.inputs[q] && h'.polled[q] == h.polled[q]
    requires id in h'.svc.requests ==>
      && id < h'.svc.nextId && Known(h', id) && h'.svc.requests[id].input == h'.inputs[id]
      && RequestOk(d.engine, h'.svc.requests[id], Generated(h', id))
    ensures Faithful(d, h')
  {
    forall q | q in h'.svc.requests && q != id
      ensures q < h'.svc.nextId && h'.svc.requests[q].input == h'.inputs[q]
      ensures RequestOk(d.engine, h'.svc.requests[q], Generated(h', q))
    {
      assert Generated(h', q) == Generated(h, q);
    }
  }

  /** What a poll does to the request it names and to the record of what was polled. */
  lemma PolledRequest<K>(d: Deployment<K>, h: History<K>, id: nat, maxTokens: nat)
    requires id in h.svc.requests && Known(h, id)
    ensures var h' := Observe(d, h, PollOp(id, maxTokens));
      && h'.svc.cache == h.svc.cache && h'.svc.nextId == h.svc.nextId && h'.inputs == h.inputs
      && h'.svc.requests.Keys == h.svc.requests.Keys && h'.polled.Keys == h.polled.Keys
      && (forall q :: q in h.svc.requests && q != id ==> h'.svc.requests[q] == h.svc.requests[q])
      && (forall q :: q in h.polled && q != id ==> h'.polled[q] == h.polled[q])
      && (exists pending :: h'.svc.requests[id] == h.svc.requests[id].(pending := pending))
      && Generated(h', id) == Generated(h, id)
  {
    var h' := Observe(d, h, PollOp(id, maxTokens));
    var r := h.svc.requests[id];
    var taken := EventOf(id, r, maxTokens).tokens;
    assert taken + r.pending[|taken|..] == r.pending;
    assert h.polled[id] + taken + r.pending[|taken|..] == h.polled[id] + r.pending;
    assert h'.svc.requests[id] == r.(pending := r.pending[|taken|..]);
  }

  lemma PollKeepsFaithful<K(!new)>(d: Deployment<K>, h: History<K>, id: nat, maxTokens: nat)
    requires Faithful(d, h)
    ensures Faithful(d, Observe(d, h, PollOp(id, maxTokens)))
    ensures id in h.svc.requests ==>
      Generated(Observe(d, h, PollOp(id, maxTokens)), id) == Generated(h, id)
  {
    var h' := Observe(d, h, PollOp(id, maxTokens));
    if id in h.svc.requests {
      PolledRequest(d, h, id, maxTokens);
      hide SoloRun, Observe, CacheOk, Ends, OnlyLastStops, FinishesAt;
      assert RequestOk(d.engine, h'.svc.requests[id], Generated(h', id));
      hide RequestOk;
      OthersStayFaithful(d, h, h', id);
    }
  }

  lemma FreshRequestOk<K>(e: Engine<K>, input: GenerateRequest)
    requires input.prompt != [] && ValidConfig(input.generation)
    ensures RequestOk(e, Request(input, Queued, [], 0, NoReason, None), [])
  {
  }

  lemma SubmitKeepsFaithful<K(!new)>(d: Deployment<K>, h: History<K>, input: GenerateRequest)
    requires Faithful(d, h)
    ensures Faithful(d, Observe(d, h, SubmitOp(input)))
  {
    hide RequestOk, SoloRun, Step, CacheOk, Live, QueuedIds;
    var h' := Observe(d, h, SubmitOp(input));
    if Admit(d, input).None? {
      FreshRequestOk(d.engine, input);
      hide Admit;
      assert Generated(h', h.svc.nextId) == [];
      OthersStayFaithful(d, h, h', h.svc.nextId);
    }
  }

  lemma CancelKeepsFaithful<K(!new)>(d: Deployment<K>, h: History<K>, id: nat)
    requires Faithful(d, h)
    ensures Faithful(d, Observe(d, h, CancelOp(id)))
  {
    hide SoloRun, Step, Submit, Live, QueuedIds;
    var h' := Observe(d, h, CancelOp(id));
    if id in h.svc.requests {
      assert RequestOk(d.engine, h.svc.requests[id], Generated(h, id));
      assert Generated(h', id) == Generated(h, id);
      OthersStayFaithful(d, h, h', id);
    }
  }

  lemma ReleaseKeepsFaithful<K(!new)>(d: Deployment<K>, h: History<K>, id: nat)
    requires Faithful(d, h)
    ensures Faithful(d, Observe(d, h, ReleaseOp(id)))
  {
    if Release(h.svc, id).1 { OthersStayFaithful(d, h, Observe(d, h, ReleaseOp(id)), id); }
  }

  lemma ObserveKeepsFaithful<K(!new)>(d: Deployment<K>, h: History<K>, op: Op<K>)
    requires Sound(d) && Faithful(d, h)
    ensures Faithful(d, Observe(d, h, op))
  {
    match op
    case StepOp(w) => StepKeepsFaithful(d, h, w);
    case PollOp(id, maxTokens) => PollKeepsFaithful(d, h, id, maxTokens);
    case SubmitOp(input) => SubmitKeepsFaithful(d, h, input);
    case CancelOp(id) => CancelKeepsFaithful(d, h, id);
    case ReleaseOp(id) => ReleaseKeepsFaithful(d, h, id);
    case StartOp =>
      forall id | id in h.svc.requests
        ensures Generated(Observe(d, h, StartOp), id) == Generated(h, id)
      { }
    case StopOp =>
      forall id | id in h.svc.requests
        ensures Generated(Observe(d, h, StopOp), id) == Generated(h, id)
      { }
  }

  lemma {:induction false} RunKeepsFaithful<K(!new)>(d: Deployment<K>, h: History<K>, ops: seq<Op<K>>)
    requires Sound(d) && Faithful(d, h)
    ensures Faithful(d, Run(d, h, ops))
    decreases |ops|
  {
    if ops != [] {
      ObserveKeepsFaithful(d, h, ops[0]);
      RunKeepsFaithful(d, Observe(d, h, ops[0]), ops[1..]);
    }
  }

  // ----- what every run guarantees

  /** Isolation: whatever the interleaving, the device faults and the cache hits, a
      request has generated what it would have generated alone; while it is decoding
      its snapshot is its solo session and neither the missing-snapshot error nor the
      early length check can fire; when it finished, it finished where it would alone. */
  lemma EveryRunIsSolo<K(!new)>(d: Deployment<K>, session: State<K>, ops: seq<Op<K>>, id: nat)
    requires Sound(d)
    requires id in Run(d, Begin(session), ops).svc.requests
    ensures var h := Run(d, Begin(session), ops);
      && Known(h, id)
      && var r := h.svc.requests[id]; var tokens := Generated(h, id); var n := |tokens|;
      && r.input == h.inputs[id] && n == r.generated <= r.input.maxOutput
      && (n > 0 ==> SoloRun(d.engine, r.input, n).Some? && SoloRun(d.engine, r.input, n).value.tokens == tokens)
      && (r.snapshot.Some? ==> SoloRun(d.engine, r.input, n) == Some(Solo(r.snapshot.value, tokens)))
      && (r.status.Decoding? ==> r.snapshot.Some? && n < r.input.maxOutput)
      && (!Terminal(r.status) ==> forall t :: t in tokens ==> t !in r.input.eos)
      && (r.status.Finished? ==> FinishesAt(d.engine, r.input, n) && (r.reason.Stop? <==> Ends(tokens, r.input.eos)))
  {
    var h := Run(d, Begin(session), ops);
    RunKeepsFaithful(d, Begin(session), ops);
    var r := h.svc.requests[id];
    var tokens := Generated(h, id);
    assert RequestOk(d.engine, r, tokens);
    if r.status.Finished? { FinishedAlone(d.engine, r, tokens); }
  }

  /** A request alone stops after `n` tokens: at the first stop token or at its limit. */
  ghost predicate FinishesAt<K>(e: Engine<K>, input: GenerateRequest, n: nat) {
    && SoloRun(e, input, n).Some?
    && (Ends(SoloRun(e, input, n).value.tokens, input.eos) || n == input.maxOutput)
    && n <= input.maxOutput
    && forall m :: 0 <= m < n ==>
      SoloRun(e, input, m).Some? && !Ends(SoloRun(e, input, m).value.tokens, input.eos)
  }

  /** A finished request finished where it would alone. */
  lemma FinishedAlone<K>(e: Engine<K>, r: Request<K>, tokens: seq<Token>)
    requires RequestOk(e, r, tokens) && r.status.Finished?
    ensures FinishesAt(e, r.input, |tokens|) && (r.reason.Stop? <==> Ends(tokens, r.input.eos))
  {
    var n := |tokens|;
    if n > 0 { SoloTokensCount(e, r.input, n); }
    forall m | 0 <= m < n
      ensures SoloRun(e, r.input, m).Some? && !Ends(SoloRun(e, r.input, m).value.tokens, r.input.eos)
    {
      SoloTokensCount(e, r.input, n);
      assert SoloRun(e, r.input, m).value.tokens == tokens[..m];
    }
  }

  /** Two finished requests with the same input produced the same tokens for the same
      reason, in any two runs of the same engine, one cached and one not. */
  lemma SchedulesAgree<K(!new)>(d: Deployment<K>, d': Deployment<K>, session: State<K>, session': State<K>,
                                ops: seq<Op<K>>, ops': seq<Op<K>>, id: nat, id': nat)
    requires Sound(d) && Sound(d') && d.engine == d'.engine
    requires var h := Run(d, Begin(session), ops); var h' := Run(d', Begin(session'), ops');
      && id in h.svc.requests && id' in h'.svc.requests
      && h.svc.requests[id].input == h'.svc.requests[id'].input
      && h.svc.requests[id].status.Finished? && h'.svc.requests[id'].status.Finished?
    ensures var h := Run(d, Begin(session), ops); var h' := Run(d', Begin(session'), ops');
      && Known(h, id) && Known(h', id')
      && Generated(h, id) == Generated(h', id')
      && h.svc.requests[id].reason == h'.svc.requests[id'].reason
  {
    var h, h' := Run(d, Begin(session), ops), Run(d', Begin(session'), ops');
    RunKeepsFaithful(d, Begin(session), ops);
    RunKeepsFaithful(d', Begin(session'), ops');
    EveryRunIsSolo(d, session, ops, id);
    EveryRunIsSolo(d', session', ops', id');
    assert RequestOk(d.engine, h.svc.requests[id], Generated(h, id));
    assert RequestOk(d.engine, h'.svc.requests[id'], Generated(h', id'));
  }

  // ----- transparency of the prefix cache is exactly incrementality

  ghost predicate SnapshotsAreSolo<K(!new)>(d: Deployment<K>) {
    forall session: State<K>, ops: seq<Op<K>>, id: nat ::
      SnapshotIsSolo(d, Run(d, Begin(session), ops).svc, id)
  }

  ghost predicate SnapshotIsSolo<K>(d: Deployment<K>, s: Service<K>, id: nat) {
    id in s.requests && s.requests[id].snapshot.Some? ==>
      var r := s.requests[id];
      SoloRun(d.engine, r.input, r.generated).Some? &&
      SoloRun(d.engine, r.input, r.generated).value.state == r.snapshot.value
  }

  /** Two submissions and two steps that resume the second prompt from the first. */
  function Probe<K>(p: seq<Token>, t: Token, calm: State<K>): seq<Op<K>> {
    var g := GenerationConfig(0.0, 1, 1.0, 1.0, 1);
    [StartOp, SubmitOp(GenerateRequest(p, g, 0, [], false)), StepOp(Weather(None, calm)),
     SubmitOp(GenerateRequest(p + [t], g, 0, [], false)), StepOp(Weather(None, calm))]
  }

  /** The cached prefill of `p + [t]` leaves what `eval` makes of the prefill of `p`. */
  lemma ProbeResult<K(!new)>(d: Deployment<K>, p: seq<Token>, t: Token, idle: State<K>)
    requires ValidDeployment(d) && d.prefixCache && Extendable(d.engine, p) && InVocab(d.engine, t)
    ensures var s := Run(d, Begin(idle), Probe(p, t, idle)).svc;
      && 2 in s.requests && s.requests[2].snapshot.Some? && s.requests[2].generated == 0
      && s.requests[2].input == Probe(p, t, idle)[3].input
      && s.requests[2].snapshot.value.ctx == d.engine.eval(d.engine.prefill(p), t)
  {
    var ops := Probe(p, t, idle);
    var h3 := Observe(d, Observe(d, Observe(d, Begin(idle), ops[0]), ops[1]), ops[2]);
    ProbeFirst(d, p, t, idle);
    ProbeSecond(d, p, t, idle, h3);
    RunFive(d, Begin(idle), ops);
  }

  lemma OnlyLive<K>(requests: map<nat, Request<K>>, last: nat, id: nat)
    requires Live(requests) == {id}
    ensures Next(requests, last) == Some(id)
  {
    assert id in Live(requests);
    var r := Next(requests, last);
    assert r.value in Live(requests);
  }

  lemma Submits<K>(d: Deployment<K>, s: Service<K>, input: GenerateRequest)
    requires Admit(d, input).None? && Live(s.requests) == {} && s.nextId !in s.requests
    ensures var s' := Submit(d, s, input).0;
      && s'.requests == s.requests[s.nextId := Request(input, Queued, [], 0, NoReason, None)]
      && Live(s'.requests) == {s.nextId}
      && s'.running == s.running && s'.session == s.session && s'.cache == s.cache && s'.nextId == s.nextId + 1
  {
    var s' := Submit(d, s, input).0;
    forall id | id in Live(s'.requests) ensures id == s.nextId {
      assert id != s.nextId ==> id in Live(s.requests);
    }
    assert s.nextId in Live(s'.requests);
  }

  /** A queued request that is alone is scheduled. */
  lemma StepsAlone<K>(d: Deployment<K>, s: Service<K>, id: nat, w: Weather<K>)
    requires s.running && Live(s.requests) == {id} && id in s.requests && s.requests[id].status.Queued?
    ensures var p := PrefillRequest(d.engine, s.session, s.cache, s.requests[id], w);
      var s' := Step(d, s, w).0;
      && s'.requests == s.requests[id := p.request]
      && s'.running && s'.nextId == s.nextId && s'.lastScheduled == id
      && (!p.request.status.Failed? ==>
        && p.request.snapshot.Some?
        && s'.cache == CachePrefix(d, s.cache, s.requests[id].input.prompt, p.request.snapshot.value))
  {
    OnlyLive(s.requests, s.lastScheduled, id);
    var p := StepProgress(d, s, id, w);
    assert Step(d, s, w).0 == Settle(s, id, p, StepCache(d, s, id, p));
  }

  lemma ProbeFirst<K(!new)>(d: Deployment<K>, p: seq<Token>, t: Token, idle: State<K>)
    requires ValidDeployment(d) && d.prefixCache && Extendable(d.engine, p) && InVocab(d.engine, t)
    ensures var ops := Probe(p, t, idle);
      var s := Observe(d, Observe(d, Observe(d, Begin(idle), ops[0]), ops[1]), ops[2]).svc;
      && s.cache.entries == map[p := State(d.engine.prefill(p), |p|, true, ops[1].input.generation, 1)]
      && s.requests.Keys == {1} && s.requests[1].status.Finished?
      && s.running && s.nextId == 2 && s.lastScheduled == 1
  {
    var ops := Probe(p, t, idle);
    var calm := Weather(None, idle);
    var input := ops[1].input;
    var s := Observe(d, Begin(idle), ops[0]).svc;
    Submits(d, s, input);
    var s1 := Submit(d, s, input).0;
    StepsAlone(d, s1, 1, calm);
    assert LongestCached(s1.cache.entries, p, |p|) == 0;
    DirectPrefill(d.engine, s1.session, calm, input);
    PrefillForgets(d.engine, Fresh(d.engine, input.generation), input);
    var done := State(d.engine.prefill(p), |p|, true, input.generation, 1);
    assert CachePrefix(d, s1.cache, p, done).entries == map[p := done] by {
      assert [] + [p] == [p];
    }
  }

  lemma ProbeCalls<K>(c: Cache<K>, input: GenerateRequest, p: seq<Token>, t: Token)
    requires c.entries.Keys == {p} && p != [] && input.prompt == p + [t]
    ensures PrefillCalls(c, input) == [Restore(c.entries[p]), SetConfig(input.generation)] + Evals([t]) + [Export]
  {
    assert (p + [t])[..|p|] == p && (p + [t])[|p|..] == [t];
    LongestIs(c.entries, p + [t], |p|);
  }

  lemma ProbeSecond<K(!new)>(d: Deployment<K>, p: seq<Token>, t: Token, idle: State<K>, h: History<K>)
    requires ValidDeployment(d) && d.prefixCache && Extendable(d.engine, p) && InVocab(d.engine, t)
    requires h.svc.cache.entries
      == map[p := State(d.engine.prefill(p), |p|, true, Probe(p, t, idle)[1].input.generation, 1)]
    requires h.svc.requests.Keys == {1} && h.svc.requests[1].status.Finished?
    requires h.svc.running && h.svc.nextId == 2 && h.svc.lastScheduled == 1
    ensures var ops := Probe(p, t, idle);
      var s := Observe(d, Observe(d, h, ops[3]), ops[4]).svc;
      && 2 in s.requests && s.requests[2].snapshot.Some? && s.requests[2].generated == 0
      && s.requests[2].input == ops[3].input
      && s.requests[2].snapshot.value.ctx == d.engine.eval(d.engine.prefill(p), t)
  {
    var ops := Probe(p, t, idle);
    var calm := Weather(None, idle);
    var input := ops[3].input;
    var s := h.svc;
    assert Live(s.requests) == {};
    hide Live, QueuedIds, SoloRun, IsNext, Submit, Step, CachePrefix, Next;
    Submits(d, s, input);
    var s1 := Submit(d, s, input).0;
    StepsAlone(d, s1, 2, calm);
    ProbeCalls(s1.cache, input, p, t);
    hide PrefillCalls, LongestCached;
    CalmResume(d.engine, s1.session, calm, s.cache.entries[p], input, t);
    assert Observe(d, Observe(d, h, ops[3]), ops[4]).svc == Step(d, s1, calm).0;
  }

  lemma RunFive<K>(d: Deployment<K>, h: History<K>, ops: seq<Op<K>>)
    requires |ops| == 5
    ensures Run(d, h, ops) ==
      Observe(d, Observe(d, Observe(d, Observe(d, Observe(d, h, ops[0]), ops[1]), ops[2]), ops[3]), ops[4])
  {
    var h1 := Observe(d, h, ops[0]);
    var h2 := Observe(d, h1, ops[1..][0]);
    var h3 := Observe(d, h2, ops[1..][1..][0]);
    var h4 := Observe(d, h3, ops[1..][1..][1..][0]);
    assert ops[1..][1..][1..][1..] == [ops[4]];
    assert Run(d, h, ops) == Run(d, h1, ops[1..]);
    assert Run(d, h1, ops[1..]) == Run(d, h2, ops[1..][1..]);
    assert Run(d, h2, ops[1..][1..]) == Run(d, h3, ops[1..][1..][1..]);
    assert Run(d, h3, ops[1..][1..][1..]) == Run(d, h4, [ops[4]]);
    assert [ops[4]][1..] == [];
    assert Run(d, h4, [ops[4]]) == Run(d, Observe(d, h4, ops[4]), []);
  }

  lemma CalmResume<K>(e: Engine<K>, st: State<K>, w: Weather<K>, cached: State<K>, input: GenerateRequest, t: Token)
    requires w.failAt.None? && ValidConfig(cached.config) && ValidConfig(input.generation)
    requires cached.ready && cached.position < e.maxContext && InVocab(e, t)
    ensures var o := InvokeAll(e, st, w, [Restore(cached), SetConfig(input.generation)] + Evals([t]) + [Export]);
      o.ok && o.state.ctx == e.eval(cached.ctx, t)
  {
    InvokeThree(e, st, w, Restore(cached), SetConfig(input.generation), Eval(t), [Export]);
    assert [t][1..] == [];
    assert [Restore(cached), SetConfig(input.generation)] + Evals([t]) + [Export] ==
      [Restore(cached), SetConfig(input.generation), Eval(t)] + [Export];
  }

  lemma LongestIs<K>(entries: map<PrefixKey, State<K>>, tokens: seq<Token>, n: nat)
    requires 0 < n < |tokens| && entries.Keys == {tokens[..n]}
    ensures LongestCached(entries, tokens, |tokens|) == n
  {
    var m := LongestCached(entries, tokens, |tokens|);
    assert tokens[..n] in entries;
    assert |tokens[..n]| == n;
    assert m > 0 ==> |tokens[..m]| == m && tokens[..m] == tokens[..n];
  }

  /** The cache is transparent in every run exactly when it is off or the engine is
      incremental; otherwise the probe run exhibits a wrong snapshot. */
  lemma CacheTransparentIffIncremental<K(!new)>(d: Deployment<K>)
    requires ValidDeployment(d)
    ensures SnapshotsAreSolo(d) <==> (d.prefixCache ==> Incremental(d.engine))
  {
    if d.prefixCache ==> Incremental(d.engine) {
      forall session: State<K>, ops: seq<Op<K>>, id: nat
        ensures SnapshotIsSolo(d, Run(d, Begin(session), ops).svc, id)
      {
        RunKeepsFaithful(d, Begin(session), ops);
      }
    } else {
      var p, t :| Extendable(d.engine, p) && InVocab(d.engine, t)
        && d.engine.prefill(p + [t]) != d.engine.eval(d.engine.prefill(p), t);
      var idle := Fresh(d.engine, GenerationConfig(0.0, 1, 1.0, 1.0, 1));
      ProbeResult(d, p, t, idle);
      var s := Run(d, Begin(idle), Probe(p, t, idle)).svc;
      PrefillForgets(d.engine, Fresh(d.engine, s.requests[2].input.generation), s.requests[2].input);
      assert !SnapshotIsSolo(d, s, 2);
    }
  }

  // ----- the admission test and the context limit

  /** The admission test bounds prompt and output by the context exactly when the
      unsigned sum does not wrap. */
  lemma AdmissionFits<K>(d: Deployment<K>, input: GenerateRequest)
    requires Admit(d, input).None? && d.engine.maxContext < SIZE_T_LIMIT
    ensures |input.prompt| + input.maxOutput <= d.engine.maxContext <==> |input.prompt| + input.maxOutput < SIZE_T_LIMIT
  {
  }

  /** And some sums do wrap: one token with the largest output limit is admitted to any
      context. */
  lemma WrappedSumIsAdmitted<K>(d: Deployment<K>, g: GenerationConfig)
    requires ValidConfig(g) && 0 < d.engine.maxContext < SIZE_T_LIMIT
    ensures var input := GenerateRequest([0], g, SIZE_T_LIMIT - 1, [], false);
      Admit(d, input).None? && |input.prompt| + input.maxOutput > d.engine.maxContext
  {
    var sum := |[0]| + (SIZE_T_LIMIT - 1);
    assert sum == SIZE_T_LIMIT && sum % SIZE_T_LIMIT == 0;
  }

  lemma {:induction false} SoloPosition<K>(e: Engine<K>, input: GenerateRequest, n: nat)
    ensures SoloRun(e, input, n).Some? <==> Acceptable(e, input) && |input.prompt| + n <= e.maxContext
    ensures SoloRun(e, input, n).Some? ==>
      var st := SoloRun(e, input, n).value.state;
      st.position == |input.prompt| + n && st.ready && st.config == input.generation
  {
    PrefillForgets(e, Fresh(e, input.generation), input);
    if n > 0 { SoloPosition(e, input, n - 1); }
  }

  /** The request can run to its token limit on a healthy device. */
  predicate Runnable<K>(e: Engine<K>, input: GenerateRequest) {
    Acceptable(e, input) && |input.prompt| + input.maxOutput <= e.maxContext
  }

  predicate NoneFailed<K>(e: Engine<K>, s: Service<K>) {
    forall id :: id in s.requests && s.requests[id].status.Failed? ==> !Runnable(e, s.requests[id].input)
  }

  predicate Calm<K>(op: Op<K>) { op.StepOp? ==> op.weather.failAt.None? }

  lemma CalmDecodeSucceeds<K>(e: Engine<K>, session: State<K>, r: Request<K>, w: Weather<K>, tokens: seq<Token>)
    requires r.status.Decoding? && RequestOk(e, r, tokens) && w.failAt.None? && Runnable(e, r.input)
    ensures !DecodeRequest(e, session, r, w).request.status.Failed?
  {
    SoloPosition(e, r.input, |tokens|);
    hide SoloRun;
  }

  lemma CalmPrefillSucceeds<K(!new)>(d: Deployment<K>, session: State<K>, c: Cache<K>, r: Request<K>, w: Weather<K>)
    requires Sound(d) && CacheOk(d.engine, c) && (d.prefixCache || c.entries == map[])
    requires r.status.Queued? && w.failAt.None? && Runnable(d.engine, r.input)
    ensures !PrefillRequest(d.engine, session, c, r, w).request.status.Failed?
  {
    PrefillIsSolo(d, session, c, w, r.input);
  }

  lemma CalmProgress<K(!new)>(d: Deployment<K>, h: History<K>, w: Weather<K>, id: nat)
    requires Sound(d) && Faithful(d, h) && w.failAt.None?
    requires id in h.svc.requests && !Terminal(h.svc.requests[id].status)
    ensures var r := h.svc.requests[id]; var r' := StepProgress(d, h.svc, id, w).request;
      r'.input == r.input && (Runnable(d.engine, r.input) ==> !r'.status.Failed?)
  {
    hide SoloRun, Sound, PrefillCalls, InvokeAll, Invoke;
    var r := h.svc.requests[id];
    assert RequestOk(d.engine, r, Generated(h, id));
    if Runnable(d.engine, r.input) {
      if r.status.Queued? {
        CalmPrefillSucceeds(d, h.svc.session, h.svc.cache, r, w);
      } else {
        CalmDecodeSucceeds(d.engine, h.svc.session, r, w, Generated(h, id));
      }
    }
  }

  lemma CalmStepFailsNone<K(!new)>(d: Deployment<K>, h: History<K>, w: Weather<K>)
    requires Sound(d) && Faithful(d, h) && NoneFailed(d.engine, h.svc) && w.failAt.None?
    ensures NoneFailed(d.engine, Step(d, h.svc, w).0)
  {
    var s := h.svc;
    var next := Next(s.requests, s.lastScheduled);
    if s.running && next.Some? {
      var id := next.value;
      CalmProgress(d, h, w, id);
      hide Sound, Faithful, Runnable, IsNext, QueuedIds, StepProgress;
      var p := StepProgress(d, s, id, w);
      assert Step(d, s, w).0 == Settle(s, id, p, StepCache(d, s, id, p));
      hide Step;
    }
  }

  lemma CalmOpFailsNone<K(!new)>(d: Deployment<K>, h: History<K>, op: Op<K>)
    requires Sound(d) && Faithful(d, h) && NoneFailed(d.engine, h.svc) && Calm(op)
    ensures NoneFailed(d.engine, Observe(d, h, op).svc)
  {
    if op.StepOp? {
      CalmStepFailsNone(d, h, op.weather);
    } else {
      hide Step, Runnable, Faithful, Next, SoloRun, RequestOk, Sound;
    }
  }

  lemma {:induction false} CalmRunFailsNone<K(!new)>(d: Deployment<K>, h: History<K>, ops: seq<Op<K>>)
    requires Sound(d) && Faithful(d, h) && NoneFailed(d.engine, h.svc)
    requires forall i :: 0 <= i < |ops| ==> Calm(ops[i])
    ensures NoneFailed(d.engine, Run(d, h, ops).svc)
    decreases |ops|
  {
    hide Faithful, NoneFailed, Observe, Calm;
    if ops != [] {
      ObserveKeepsFaithful(d, h, ops[0]);
      CalmOpFailsNone(d, h, ops[0]);
      CalmRunFailsNone(d, Observe(d, h, ops[0]), ops[1..]);
    }
  }

  /** On a healthy device a request fails only if its prompt is unusable or the wrapped
      admission sum let it past the context; conversely such a request can only finish
      by meeting a stop token first. */
  lemma HealthyDeviceFailures<K(!new)>(d: Deployment<K>, session: State<K>, ops: seq<Op<K>>, id: nat)
    requires Sound(d) && d.engine.maxContext < SIZE_T_LIMIT
    requires forall i :: 0 <= i < |ops| ==> Calm(ops[i])
    requires id in Run(d, Begin(session), ops).svc.requests
    ensures var r := Run(d, Begin(session), ops).svc.requests[id];
      && (r.status.Failed? ==> !Acceptable(d.engine, r.input) || |r.input.prompt| + r.input.maxOutput >= SIZE_T_LIMIT)
      && (r.status.Finished? && r.reason.Length? ==> |r.input.prompt| + r.input.maxOutput < SIZE_T_LIMIT)
      && (r.status.Finished? || r.status.Decoding? ==> Acceptable(d.engine, r.input))
  {
    var h := Run(d, Begin(session), ops);
    RunKeepsFaithful(d, Begin(session), ops);
    CalmRunFailsNone(d, Begin(session), ops);
    RunAdmits(d, Begin(session), ops);
    var r := h.svc.requests[id];
    assert RequestOk(d.engine, r, Generated(h, id));
    SoloPosition(d.engine, r.input, r.generated);
    AdmissionFits(d, r.input);
  }

  predicate AllAdmitted<K>(d: Deployment<K>, s: Service<K>) {
    forall id :: id in s.requests ==> Admit(d, s.requests[id].input).None?
  }

  lemma StepKeepsInputs<K>(d: Deployment<K>, s: Service<K>, w: Weather<K>)
    ensures var s' := Step(d, s, w).0;
      forall id :: id in s'.requests ==> id in s.requests && s'.requests[id].input == s.requests[id].input
  {
    var next := Next(s.requests, s.lastScheduled);
    if s.running && next.Some? {
      var p := StepProgress(d, s, next.value, w);
      assert p.request.input == s.requests[next.value].input;
      assert Step(d, s, w).0 == Settle(s, next.value, p, StepCache(d, s, next.value, p));
    }
  }

  lemma ApplyAdmits<K>(d: Deployment<K>, s: Service<K>, op: Op<K>)
    requires AllAdmitted(d, s)
    ensures AllAdmitted(d, Apply(d, s, op))
  {
    hide Step, Admit;
    if op.StepOp? { StepKeepsInputs(d, s, op.weather); }
  }

  lemma {:induction false} RunAdmits<K>(d: Deployment<K>, h: History<K>, ops: seq<Op<K>>)
    requires AllAdmitted(d, h.svc)
    ensures AllAdmitted(d, Run(d, h, ops).svc)
    decreases |ops|
  {
    hide AllAdmitted, Apply;
    if ops != [] {
      ApplyAdmits(d, h.svc, ops[0]);
      RunAdmits(d, Observe(d, h, ops[0]), ops[1..]);
    }
  }
}
