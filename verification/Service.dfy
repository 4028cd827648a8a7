/** The Metal request service as a value and the transition each public operation
    performs under the service lock. */
module MetalService {
  import opened Options
  import opened OrderedKeys
  import opened MetalSession

  const SIZE_T_LIMIT := 0x1_0000_0000_0000_0000

  type SizeT = n: nat | n < SIZE_T_LIMIT

  type PrefixKey = seq<Token>

  datatype RequestStatus = Queued | Prefilling | Decoding | Finished | Cancelled | Failed

  predicate Terminal(status: RequestStatus) {
    status.Finished? || status.Cancelled? || status.Failed?
  }

  datatype FinishReason = NoReason | Stop | Length | CancelledReason | Error

  datatype GenerateRequest = GenerateRequest(
    prompt: seq<Token>, generation: GenerationConfig, maxOutput: SizeT, eos: seq<Token>, multimodal: bool)

  datatype Request<K> = Request(
    input: GenerateRequest, status: RequestStatus, pending: seq<Token>, generated: nat,
    reason: FinishReason, snapshot: Option<State<K>>)

  datatype Event = Event(id: nat, tokens: seq<Token>, status: RequestStatus, finished: bool, reason: FinishReason)

  datatype Metrics = Metrics(submitted: nat, completed: nat, cancelled: nat, failed: nat, active: nat, queued: nat)

  /** Construction-time parameters. */
  datatype Deployment<!K> = Deployment(engine: Engine<K>, prefixCache: bool, cacheEntries: nat)

  predicate ValidDeployment<K>(d: Deployment<K>) { d.prefixCache ==> d.cacheEntries > 0 }

  datatype Cache<K> = Cache(entries: map<PrefixKey, State<K>>, lru: seq<PrefixKey>)

  datatype Service<K> = Service(
    requests: map<nat, Request<K>>, nextId: nat, lastScheduled: nat,
    cache: Cache<K>, metrics: Metrics, running: bool, session: State<K>)

  function Initial<K>(session: State<K>): Service<K> {
    Service(map[], 1, 0, Cache(map[], []), Metrics(0, 0, 0, 0, 0, 0), false, session)
  }

  // ----- the prefix cache

  function Without<T(==)>(lru: seq<T>, key: T): seq<T> {
    if lru == [] then []
    else if lru[0] == key then lru[1..]
    else [lru[0]] + Without(lru[1..], key)
  }

  function Evict<K>(c: Cache<K>, limit: nat): Cache<K>
    decreases |c.lru|
  {
    if |c.lru| <= limit then c
    else Evict(Cache(c.entries - {c.lru[0]}, c.lru[1..]), limit)
  }

  function CachePrefix<K>(d: Deployment<K>, c: Cache<K>, key: PrefixKey, snapshot: State<K>): Cache<K> {
    if !d.prefixCache || key == [] then c
    else
      var older := if key in c.entries then Without(c.lru, key) else c.lru;
      Evict(Cache(c.entries[key := snapshot], older + [key]), d.cacheEntries)
  }

  /** The length of the longest cached key that is a prefix of `tokens` and no
      longer than `n`; 0 when there is none. */
  function LongestCached<K>(entries: map<PrefixKey, State<K>>, tokens: seq<Token>, n: nat): (matched: nat)
    requires n <= |tokens|
    ensures matched <= n
    ensures matched > 0 ==> tokens[..matched] in entries
    ensures forall k :: matched < k <= n ==> tokens[..k] !in entries
  {
    if n == 0 then 0
    else if tokens[..n] in entries then n
    else LongestCached(entries, tokens, n - 1)
  }

  // ----- scheduling and counters

  function Live<K>(requests: map<nat, Request<K>>): set<nat> {
    set id | id in requests && !Terminal(requests[id].status)
  }

  function QueuedIds<K>(requests: map<nat, Request<K>>): set<nat> {
    set id | id in requests && requests[id].status.Queued?
  }

  /** The live request a round-robin pass reaches first after id `last`. */
  predicate IsNext<K>(requests: map<nat, Request<K>>, last: nat, id: nat) {
    && id in Live(requests)
    && forall q :: q in Live(requests) ==>
      if id > last then q <= last || id <= q else q <= last && id <= q
  }

  function Next<K>(requests: map<nat, Request<K>>, last: nat): (r: Option<nat>)
    ensures r.None? <==> Live(requests) == {}
    ensures r.Some? ==> IsNext(requests, last, r.value)
  {
    var live := Live(requests);
    var after := set id | id in live && id > last;
    assert forall q :: q in live && q > last ==> q in after;
    if after != {} then Some(Least(after))
    else if live != {} then Some(Least(live))
    else None
  }

  function Refresh<K>(s: Service<K>): Service<K> {
    s.(metrics := s.metrics.(
      active := |Live(s.requests) - QueuedIds(s.requests)|,
      queued := |QueuedIds(s.requests)|))
  }

  // ----- public operations

  datatype SubmitError = EmptyPrompt | ExceedsContext | Multimodal | InvalidGeneration
  datatype Submitted = Accepted(id: nat) | Rejected(error: SubmitError)

  /** `size_t` addition in the admission test wraps. */
  function Admit<K>(d: Deployment<K>, input: GenerateRequest): Option<SubmitError> {
    if input.prompt == [] then Some(EmptyPrompt)
    else if (|input.prompt| + input.maxOutput) % SIZE_T_LIMIT > d.engine.maxContext then Some(ExceedsContext)
    else if input.multimodal then Some(Multimodal)
    else if !ValidConfig(input.generation) then Some(InvalidGeneration)
    else None
  }

  function Submit<K>(d: Deployment<K>, s: Service<K>, input: GenerateRequest): (Service<K>, Submitted) {
    match Admit(d, input)
    case Some(error) => (s, Rejected(error))
    case None =>
      var entry := Request(input, Queued, [], 0, NoReason, None);
      (Refresh(s.(requests := s.requests[s.nextId := entry], nextId := s.nextId + 1,
                  metrics := s.metrics.(submitted := s.metrics.submitted + 1))),
       Accepted(s.nextId))
  }

  function Taken<K>(r: Request<K>, maxTokens: nat): (count: nat)
    ensures count <= |r.pending|
  {
    if maxTokens == 0 || maxTokens > |r.pending| then |r.pending| else maxTokens
  }

  function EventOf<K>(id: nat, r: Request<K>, maxTokens: nat): Event {
    Event(id, r.pending[..Taken(r, maxTokens)], r.status, Terminal(r.status), r.reason)
  }

  /** None is the `out_of_range` exception. */
  function Poll<K>(s: Service<K>, id: nat, maxTokens: nat): (Service<K>, Option<Event>) {
    if id !in s.requests then (s, None)
    else
      var r := s.requests[id];
      (s.(requests := s.requests[id := r.(pending := r.pending[Taken(r, maxTokens)..])]),
       Some(EventOf(id, r, maxTokens)))
  }

  function Cancel<K>(s: Service<K>, id: nat): (Service<K>, bool) {
    if id !in s.requests || Terminal(s.requests[id].status) then (s, false)
    else
      (Refresh(s.(requests := s.requests[id := s.requests[id].(status := Cancelled, reason := CancelledReason)],
                  metrics := s.metrics.(cancelled := s.metrics.cancelled + 1))), true)
  }

  function Release<K>(s: Service<K>, id: nat): (Service<K>, bool) {
    if id !in s.requests || !Terminal(s.requests[id].status) then (s, false)
    else (Refresh(s.(requests := s.requests - {id})), true)
  }

  /** The session calls that bring a queued request to its first decode. */
  function PrefillCalls<K>(c: Cache<K>, input: GenerateRequest): seq<Call<K>> {
    var matched := LongestCached(c.entries, input.prompt, |input.prompt|);
    if matched > 0 then
      [Restore(c.entries[input.prompt[..matched]]), SetConfig(input.generation)]
      + Evals(input.prompt[matched..]) + [Export]
    else
      [Reset, SetConfig(input.generation), Prefill(input.prompt), Export]
  }

  /** What one scheduling step makes of the scheduled request and the session. */
  datatype Progress<K> = Progress(request: Request<K>, session: State<K>)

  function Failing<K>(r: Request<K>): Request<K> { r.(status := Failed, reason := Error) }

  function Finishing<K>(r: Request<K>, reason: FinishReason): Request<K> { r.(status := Finished, reason := reason) }

  function PrefillRequest<K>(e: Engine<K>, session: State<K>, c: Cache<K>, r: Request<K>, w: Weather<K>): Progress<K> {
    var o := InvokeAll(e, session, w, PrefillCalls(c, r.input));
    if !o.ok then Progress(Failing(r), o.state)
    else
      var ready := r.(snapshot := Some(o.state), status := Decoding);
      Progress(if r.input.maxOutput == 0 then Finishing(ready, Length) else ready, o.state)
  }

  function DecodeRequest<K>(e: Engine<K>, session: State<K>, r: Request<K>, w: Weather<K>): Progress<K> {
    if r.snapshot.None? then Progress(Failing(r), session)
    else
      // Restoring moves the snapshot out of the request.
      var bare := r.(snapshot := None);
      var restored := Invoke(e, session, w, Restore(r.snapshot.value));
      if !restored.ok then Progress(Failing(bare), restored.state)
      else if r.generated >= r.input.maxOutput then Progress(Finishing(bare, Length), restored.state)
      else
        var decoded := Invoke(e, restored.state, restored.weather, Decode);
        if !decoded.ok then Progress(Failing(bare), decoded.state)
        else
          var token := Sampled(e, restored.state);
          var longer := bare.(pending := r.pending + [token], generated := r.generated + 1);
          var exported := Invoke(e, decoded.state, decoded.weather, Export);
          if !exported.ok then Progress(Failing(longer), exported.state)
          else Progress(Continue(longer.(snapshot := Some(exported.state)), token), exported.state)
  }

  function Continue<K>(r: Request<K>, token: Token): Request<K> {
    if token in r.input.eos then Finishing(r, Stop)
    else if r.generated >= r.input.maxOutput then Finishing(r, Length)
    else r
  }

  function Tally(m: Metrics, status: RequestStatus): Metrics {
    match status
    case Finished => m.(completed := m.completed + 1)
    case Failed => m.(failed := m.failed + 1)
    case _ => m
  }

  /** The service after the scheduled request `id` made progress `p`. */
  function Settle<K>(s: Service<K>, id: nat, p: Progress<K>, cache: Cache<K>): Service<K> {
    Refresh(s.(lastScheduled := id, session := p.session, cache := cache,
               requests := s.requests[id := p.request],
               metrics := Tally(s.metrics, p.request.status)))
  }

  function StepProgress<K>(d: Deployment<K>, s: Service<K>, id: nat, w: Weather<K>): Progress<K>
    requires id in s.requests
  {
    var r := s.requests[id];
    if r.status.Queued? then PrefillRequest(d.engine, s.session, s.cache, r, w)
    else DecodeRequest(d.engine, s.session, r, w)
  }

  function StepCache<K>(d: Deployment<K>, s: Service<K>, id: nat, p: Progress<K>): Cache<K>
    requires id in s.requests
  {
    var r := s.requests[id];
    if r.status.Queued? && !p.request.status.Failed? && p.request.snapshot.Some? then
      CachePrefix(d, s.cache, r.input.prompt, p.request.snapshot.value)
    else s.cache
  }

  function Step<K>(d: Deployment<K>, s: Service<K>, w: Weather<K>): (Service<K>, bool) {
    var next := Next(s.requests, s.lastScheduled);
    if !s.running || next.None? then (s, false)
    else
      var p := StepProgress(d, s, next.value, w);
      (Settle(s, next.value, p, StepCache(d, s, next.value, p)), !p.request.status.Failed?)
  }

  // ----- runs

  datatype Op<K> =
    | SubmitOp(input: GenerateRequest)
    | PollOp(id: nat, maxTokens: nat)
    | CancelOp(id: nat)
    | ReleaseOp(id: nat)
    | StepOp(weather: Weather<K>)
    | StartOp
    | StopOp

  function Apply<K>(d: Deployment<K>, s: Service<K>, op: Op<K>): Service<K> {
    match op
    case SubmitOp(input) => Submit(d, s, input).0
    case PollOp(id, maxTokens) => Poll(s, id, maxTokens).0
    case CancelOp(id) => Cancel(s, id).0
    case ReleaseOp(id) => Release(s, id).0
    case StepOp(w) => Step(d, s, w).0
    case StartOp => s.(running := true)
    case StopOp => s.(running := false)
  }
}
