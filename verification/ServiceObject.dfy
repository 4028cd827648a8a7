/** The service object: fields updated in place under one lock, one method per public
    operation.  Every method is proved to perform the transition of `MetalService`. */
module ServiceObject {
  import opened Options
  import opened OrderedKeys
  import opened MetalSession
  import opened MetalService

  class MetalInferenceService<K> {
    const deployment: Deployment<K>
    const session: MetalInferenceSession<K>
    var requests: map<nat, Request<K>>
    var nextId: nat
    var lastScheduled: nat
    var prefixCache: map<PrefixKey, State<K>>
    var prefixLru: seq<PrefixKey>
    var metrics: Metrics
    var running: bool

    ghost function Contents(): Service<K>
      reads this, session
    {
      Service(requests, nextId, lastScheduled, Cache(prefixCache, prefixLru), metrics, running, session.state)
    }

    ghost predicate Valid()
      reads session
    {
      session.engine == deployment.engine
    }

    constructor (deployment: Deployment<K>, idle: State<K>)
      requires ValidDeployment(deployment)
      ensures Valid() && fresh(session) && this.deployment == deployment
      ensures Contents() == Initial(idle)
    {
      this.deployment := deployment;
      session := new MetalInferenceSession(deployment.engine, idle);
      requests, nextId, lastScheduled := map[], 1, 0;
      prefixCache, prefixLru := map[], [];
      metrics := Metrics(0, 0, 0, 0, 0, 0);
      running := false;
    }

    // ----- private helpers

    method CachePrefixOf(key: PrefixKey, snapshot: State<K>)
      modifies this`prefixCache, this`prefixLru
      ensures Cache(prefixCache, prefixLru) ==
              CachePrefix(deployment, old(Cache(prefixCache, prefixLru)), key, snapshot)
    {
      if !deployment.prefixCache || key == [] { return; }
      if key in prefixCache {
        prefixCache := prefixCache[key := snapshot];
        EraseFirst(key);
      } else {
        prefixCache := prefixCache[key := snapshot];
      }
      prefixLru := prefixLru + [key];
      ghost var grown := Cache(prefixCache, prefixLru);
      while |prefixLru| > deployment.cacheEntries
        invariant Evict(Cache(prefixCache, prefixLru), deployment.cacheEntries) == Evict(grown, deployment.cacheEntries)
        decreases |prefixLru|
      {
        prefixCache := prefixCache - {prefixLru[0]};
        prefixLru := prefixLru[1..];
      }
    }

    /** `std::find` followed by `erase` on the queue. */
    method EraseFirst(key: PrefixKey)
      modifies this`prefixLru
      ensures prefixLru == Without(old(prefixLru), key)
    {
      var i := FirstIndex(prefixLru, key);
      if i < |prefixLru| { prefixLru := prefixLru[..i] + prefixLru[i + 1..]; }
    }

    /** Visits the cached keys in some order and keeps the longest one that prefixes. */
    method FindPrefix(tokens: seq<Token>) returns (matched: nat, snapshot: Option<State<K>>)
      ensures matched == LongestCached(prefixCache, tokens, |tokens|)
      ensures matched <= |tokens|
      ensures if matched == 0 then snapshot.None?
              else tokens[..matched] in prefixCache && snapshot == Some(prefixCache[tokens[..matched]])
    {
      matched, snapshot := 0, None;
      var rest := prefixCache.Keys;
      while rest != {}
        invariant rest <= prefixCache.Keys && matched <= |tokens|
        invariant if matched == 0 then snapshot.None?
                  else tokens[..matched] in prefixCache && snapshot == Some(prefixCache[tokens[..matched]])
        invariant forall n :: matched < n <= |tokens| && tokens[..n] in prefixCache ==> tokens[..n] in rest
        decreases rest
      {
        var key :| key in rest;
        if matched < |key| <= |tokens| && tokens[..|key|] == key {
          matched, snapshot := |key|, Some(prefixCache[key]);
        }
        rest := rest - {key};
      }
      LongestCachedIs(prefixCache, tokens, |tokens|, matched);
    }

    method RefreshCounts()
      modifies this`metrics
      ensures metrics == Refresh(old(Contents())).metrics
    {
      var active, queued := CountRequests(requests);
      metrics := metrics.(active := active, queued := queued);
    }

    method NextRequest() returns (next: Option<nat>)
      modifies this`lastScheduled
      ensures next == Next(requests, old(lastScheduled))
      ensures lastScheduled == if next.Some? then next.value else old(lastScheduled)
    {
      next := PickNext(requests, lastScheduled);
      if next.Some? { lastScheduled := next.value; }
    }

    // ----- public operations

    method SubmitRequest(input: GenerateRequest) returns (r: Submitted)
      requires Valid()
      modifies this
      ensures Valid()
      ensures (Contents(), r) == Submit(deployment, old(Contents()), input)
    {
      hide Live, QueuedIds, ValidConfig;
      if input.prompt == [] { return Rejected(EmptyPrompt); }
      if (|input.prompt| + input.maxOutput) % SIZE_T_LIMIT > deployment.engine.maxContext {
        return Rejected(ExceedsContext);
      }
      if input.multimodal { return Rejected(Multimodal); }
      if !ValidConfig(input.generation) { return Rejected(InvalidGeneration); }
      var id := nextId;
      nextId := nextId + 1;
      requests := requests[id := Request(input, Queued, [], 0, NoReason, None)];
      metrics := metrics.(submitted := metrics.submitted + 1);
      RefreshCounts();
      r := Accepted(id);
    }

    method PollRequest(id: nat, maxTokens: nat) returns (event: Option<Event>)
      requires Valid()
      modifies this`requests
      ensures (Contents(), event) == Poll(old(Contents()), id, maxTokens)
      ensures event.Some? <==> id in old(requests)
      ensures event.None? ==> requests == old(requests)
      ensures event.Some? ==>
              && id in requests
              && var r := old(requests)[id]; var out := event.value.tokens; var rest := requests[id].pending;
              && out + rest == r.pending
              && (maxTokens == 0 ==> rest == [])
              && (maxTokens > 0 ==> |out| <= maxTokens && (|out| < maxTokens ==> rest == []))
              && event.value == Event(id, out, r.status, Terminal(r.status), r.reason)
              && requests == old(requests)[id := r.(pending := rest)]
    {
      if id !in requests { return None; }
      var r := requests[id];
      var count := if maxTokens == 0 || maxTokens > |r.pending| then |r.pending| else maxTokens;
      var tokens := r.pending[..count];
      requests := requests[id := r.(pending := r.pending[count..])];
      event := Some(Event(id, tokens, r.status, Terminal(r.status), r.reason));
    }

    method CancelRequest(id: nat) returns (done: bool)
      requires Valid()
      modifies this
      ensures (Contents(), done) == Cancel(old(Contents()), id)
    {
      if id !in requests { return false; }
      var r := requests[id];
      if Terminal(r.status) { return false; }
      requests := requests[id := r.(status := Cancelled, reason := CancelledReason)];
      metrics := metrics.(cancelled := metrics.cancelled + 1);
      RefreshCounts();
      done := true;
    }

    method ReleaseRequest(id: nat) returns (done: bool)
      requires Valid()
      modifies this
      ensures (Contents(), done) == Release(old(Contents()), id)
    {
      if id !in requests || !Terminal(requests[id].status) { return false; }
      requests := requests - {id};
      RefreshCounts();
      done := true;
    }

    /** Resuming from a cached snapshot: restore, reconfigure, evaluate the rest, export. */
    method ResumeSession(cached: State<K>, input: GenerateRequest, matched: nat) returns (ok: bool, snapshot: State<K>)
      requires Valid() && matched <= |input.prompt|
      modifies session
      ensures Outcome(ok, session.state, session.weather) ==
              InvokeAll(deployment.engine, old(session.state), old(session.weather),
                        [Restore(cached), SetConfig(input.generation)] + Evals(input.prompt[matched..]) + [Export])
      ensures ok ==> snapshot == session.state
    {
      hide Invoke, InvokeAll;
      ghost var e, st, w := deployment.engine, session.state, session.weather;
      ghost var tail := Evals<K>(input.prompt[matched..]) + [Export];
      ghost var calls := [Restore(cached), SetConfig(input.generation)] + Evals(input.prompt[matched..]) + [Export];
      assert calls == [Restore(cached)] + ([SetConfig(input.generation)] + tail);
      InvokeCons(e, st, w, Restore(cached), [SetConfig(input.generation)] + tail);
      snapshot := session.state;
      ok := session.RestoreSnapshot(cached);
      if !ok { return; }
      InvokeCons(e, session.state, session.weather, SetConfig(input.generation), tail);
      ok := session.SetGenerationConfig(input.generation);
      if !ok { return; }
      for index := matched to |input.prompt|
        invariant InvokeAll(e, session.state, session.weather, Evals(input.prompt[index..]) + [Export])
                  == InvokeAll(e, st, w, calls)
      {
        ghost var next := Evals<K>(input.prompt[index + 1..]) + [Export];
        assert input.prompt[index..][1..] == input.prompt[index + 1..];
        assert Evals<K>(input.prompt[index..]) + [Export] == [Eval(input.prompt[index])] + next;
        InvokeCons(e, session.state, session.weather, Eval(input.prompt[index]), next);
        ok := session.EvalToken(input.prompt[index]);
        if !ok { return; }
      }
      assert Evals<K>(input.prompt[|input.prompt|..]) + [Export] == [Export];
      InvokeOne(e, session.state, session.weather, Export);
      ok, snapshot := session.ExportSnapshot();
    }

    /** The calls of a prefill, up to the exported snapshot.  `ok` is false when one threw. */
    method PrefillSession(input: GenerateRequest) returns (ok: bool, snapshot: State<K>)
      requires Valid()
      modifies session
      ensures Outcome(ok, session.state, session.weather) ==
              InvokeAll(deployment.engine, old(session.state), old(session.weather),
                        PrefillCalls(Cache(prefixCache, prefixLru), input))
      ensures ok ==> snapshot == session.state
    {
      snapshot := session.state;
      var matched, cached := FindPrefix(input.prompt);
      if cached.Some? {
        ok, snapshot := ResumeSession(cached.value, input, matched);
      } else {
        hide Invoke, InvokeAll;
        ghost var e := deployment.engine;
        InvokeThree(e, session.state, session.weather, Reset, SetConfig(input.generation), Prefill(input.prompt),
          [Export]);
        assert [Reset, SetConfig(input.generation), Prefill(input.prompt)] + [Export] ==
          PrefillCalls(Cache(prefixCache, prefixLru), input);
        ok := session.ResetSession();
        if !ok { return; }
        ok := session.SetGenerationConfig(input.generation);
        if !ok { return; }
        ok := session.PrefillTokens(input.prompt);
        if !ok { return; }
        InvokeOne(e, session.state, session.weather, Export);
        ok, snapshot := session.ExportSnapshot();
      }
    }

    /** The tail shared by every step: store the request, count it, refresh. */
    method Store(id: nat, r: Request<K>)
      requires Valid() && lastScheduled == id
      modifies this`requests, this`metrics
      ensures Contents() == Settle(old(Contents()), id, Progress(r, session.state), Cache(prefixCache, prefixLru))
    {
      requests := requests[id := r];
      if r.status.Finished? {
        metrics := metrics.(completed := metrics.completed + 1);
      } else if r.status.Failed? {
        metrics := metrics.(failed := metrics.failed + 1);
      }
      RefreshCounts();
    }

    method PrefillOne(id: nat) returns (progressed: bool)
      requires Valid() && id in requests && requests[id].status.Queued? && lastScheduled == id
      modifies this`requests, this`metrics, this`prefixCache, this`prefixLru, session
      ensures var s := old(Contents());
        var p := PrefillRequest(deployment.engine, s.session, s.cache, s.requests[id], old(session.weather));
        && Contents() == Settle(s, id, p, StepCacheOf(deployment, s, id, p))
        && progressed == !p.request.status.Failed?
    {
      hide Refresh, InvokeAll, CachePrefix;
      var r := requests[id];
      var ok, snapshot := PrefillSession(r.input);
      if !ok {
        Store(id, r.(status := Failed, reason := Error));
        return false;
      }
      r := r.(snapshot := Some(snapshot));
      CachePrefixOf(r.input.prompt, snapshot);
      r := r.(status := Decoding);
      if r.input.maxOutput == 0 { r := r.(status := Finished, reason := Length); }
      Store(id, r);
      progressed := true;
    }

    method DecodeOne(id: nat) returns (progressed: bool)
      requires Valid() && id in requests && !requests[id].status.Queued? && !Terminal(requests[id].status)
      requires lastScheduled == id
      modifies this`requests, this`metrics, session
      ensures var s := old(Contents());
        var p := DecodeRequest(deployment.engine, s.session, s.requests[id], old(session.weather));
        && Contents() == Settle(s, id, p, s.cache)
        && progressed == !p.request.status.Failed?
    {
      hide Refresh, Invoke;
      var r := requests[id];
      if r.snapshot.None? {
        Store(id, r.(status := Failed, reason := Error));
        return false;
      }
      var ok := session.RestoreSnapshot(r.snapshot.value);
      r := r.(snapshot := None);
      if !ok {
        Store(id, r.(status := Failed, reason := Error));
        return false;
      }
      if r.generated >= r.input.maxOutput {
        Store(id, r.(status := Finished, reason := Length));
        return true;
      }
      var token;
      ok, token := session.DecodeToken();
      if !ok {
        Store(id, r.(status := Failed, reason := Error));
        return false;
      }
      r := r.(pending := r.pending + [token], generated := r.generated + 1);
      var snapshot;
      ok, snapshot := session.ExportSnapshot();
      if !ok {
        Store(id, r.(status := Failed, reason := Error));
        return false;
      }
      r := r.(snapshot := Some(snapshot));
      if token in r.input.eos {
        r := r.(status := Finished, reason := Stop);
      } else if r.generated >= r.input.maxOutput {
        r := r.(status := Finished, reason := Length);
      }
      Store(id, r);
      progressed := true;
    }

    /** One scheduling step, with the device behaving as `weather` says. */
    method StepOnce(weather: Weather<K>) returns (progressed: bool)
      requires Valid()
      modifies this, session
      ensures Valid()
      ensures (Contents(), progressed) == Step(deployment, old(Contents()), weather)
    {
      if !running { return false; }
      session.Arm(weather);
      var next := NextRequest();
      if next.None? { return false; }
      if requests[next.value].status.Queued? {
        progressed := PrefillOne(next.value);
      } else {
        progressed := DecodeOne(next.value);
      }
    }

    method Start()
      modifies this`running
      ensures running
    {
      running := true;
    }

    method StopService()
      modifies this`running
      ensures !running
    {
      running := false;
    }
  }

  /** One pass over the requests in id order, counting the two kinds of live request. */
  method CountRequests<K>(requests: map<nat, Request<K>>) returns (active: nat, queued: nat)
    ensures active == |Live(requests) - QueuedIds(requests)|
    ensures queued == |QueuedIds(requests)|
  {
    active, queued := 0, 0;
    var ids := Ordered(requests.Keys);
    ghost var isQueued, isActive := QueuedIds(requests), Live(requests) - QueuedIds(requests);
    for i := 0 to |ids|
      invariant queued == |Visited(isQueued, ids, i)| && active == |Visited(isActive, ids, i)|
    {
      VisitedNext(isQueued, ids, i);
      VisitedNext(isActive, ids, i);
      hide Visited, Increasing;
      assert ids[i] in requests.Keys;
      if requests[ids[i]].status.Queued? {
        assert ids[i] in isQueued && ids[i] !in isActive;
        queued := queued + 1;
      } else if !Terminal(requests[ids[i]].status) {
        assert ids[i] !in isQueued && ids[i] in isActive;
        active := active + 1;
      } else {
        assert ids[i] !in isQueued && ids[i] !in isActive;
      }
    }
    VisitedAll(isQueued, ids);
    VisitedAll(isActive, ids);
  }

  /** Scans from the first id after the last scheduled one to the end, then wraps. */
  method PickNext<K>(requests: map<nat, Request<K>>, last: nat) returns (next: Option<nat>)
    ensures next == Next(requests, last)
  {
    var ids := Ordered(requests.Keys);
    hide Next, Live, Increasing, Ordered;
    if ids == [] {
      NothingLive(requests, ids, last);
      return None;
    }
    var start := UpperBound(ids, last);
    ghost var above := start;
    if start == |ids| { start := 0; }
    for i := start to |ids|
      invariant forall k :: start <= k < i ==> ids[k] in requests && Terminal(requests[ids[k]].status)
    {
      assert ids[i] in requests.Keys;
      if !Terminal(requests[ids[i]].status) {
        FirstFound(requests, ids, last, above, start, i);
        return Some(ids[i]);
      }
    }
    for i := 0 to start
      invariant forall k :: start <= k < |ids| || 0 <= k < i ==> ids[k] in requests && Terminal(requests[ids[k]].status)
    {
      assert ids[i] in requests.Keys;
      if !Terminal(requests[ids[i]].status) {
        WrapFound(requests, ids, last, start, i);
        return Some(ids[i]);
      }
    }
    NothingLive(requests, ids, last);
    return None;
  }

  lemma NothingLive<K>(requests: map<nat, Request<K>>, ids: seq<nat>, last: nat)
    requires forall k :: k in ids <==> k in requests
    requires forall k :: 0 <= k < |ids| ==> Terminal(requests[ids[k]].status)
    ensures Next(requests, last) == None
  {
    forall id | id in requests ensures Terminal(requests[id].status) {
      var k :| 0 <= k < |ids| && ids[k] == id;
    }
    assert Live(requests) == {};
  }

  ghost function Visited(s: set<nat>, ids: seq<nat>, i: nat): set<nat>
    requires i <= |ids|
  {
    set q | q in s && q in ids[..i]
  }

  lemma VisitedNext(s: set<nat>, ids: seq<nat>, i: nat)
    requires Increasing(ids) && i < |ids|
    ensures |Visited(s, ids, i + 1)| == |Visited(s, ids, i)| + if ids[i] in s then 1 else 0
  {
    assert ids[..i + 1] == ids[..i] + [ids[i]];
    assert ids[i] !in ids[..i];
    if ids[i] in s {
      assert Visited(s, ids, i + 1) == Visited(s, ids, i) + {ids[i]};
    } else {
      assert Visited(s, ids, i + 1) == Visited(s, ids, i);
    }
  }

  lemma VisitedAll(s: set<nat>, ids: seq<nat>)
    requires forall q :: q in s ==> q in ids
    ensures Visited(s, ids, |ids|) == s
  {
    assert ids[..|ids|] == ids;
  }

  function StepCacheOf<K>(d: Deployment<K>, s: Service<K>, id: nat, p: Progress<K>): Cache<K>
    requires id in s.requests
  {
    StepCache(d, s, id, p)
  }

  lemma {:induction false} LongestCachedIs<K>(entries: map<PrefixKey, State<K>>, tokens: seq<Token>, n: nat, m: nat)
    requires m <= n <= |tokens|
    requires m > 0 ==> tokens[..m] in entries
    requires forall k :: m < k <= n ==> tokens[..k] !in entries
    ensures LongestCached(entries, tokens, n) == m
  {
    if n > m { LongestCachedIs(entries, tokens, n - 1, m); }
  }

  lemma NextIsUnique<K>(requests: map<nat, Request<K>>, last: nat, id: nat)
    requires IsNext(requests, last, id)
    ensures Next(requests, last) == Some(id)
  {
    var n := Next(requests, last);
    assert n.value in Live(requests);
  }

  lemma WrapFound<K>(requests: map<nat, Request<K>>, ids: seq<nat>, last: nat, start: nat, i: nat)
    requires Increasing(ids) && (forall k :: k in ids <==> k in requests)
    requires i < start <= |ids| && (forall k :: 0 <= k < start ==> ids[k] <= last)
    requires ids[i] in requests && !Terminal(requests[ids[i]].status)
    requires forall k :: start <= k < |ids| || 0 <= k < i ==> ids[k] in requests && Terminal(requests[ids[k]].status)
    ensures Next(requests, last) == Some(ids[i])
  {
    forall q | q in Live(requests)
      ensures q <= last && ids[i] <= q
    {
      var k :| 0 <= k < |ids| && ids[k] == q;
    }
    NextIsUnique(requests, last, ids[i]);
  }

  lemma FirstFound<K>(requests: map<nat, Request<K>>, ids: seq<nat>, last: nat, above: nat, start: nat, i: nat)
    requires Increasing(ids) && (forall k :: k in ids <==> k in requests)
    requires above <= |ids| && (forall k :: 0 <= k < above ==> ids[k] <= last) &&
      (forall k :: above <= k < |ids| ==> ids[k] > last)
    requires start == if above == |ids| then 0 else above
    requires start <= i < |ids| && ids[i] in requests && !Terminal(requests[ids[i]].status)
    requires forall k :: start <= k < i ==> ids[k] in requests && Terminal(requests[ids[k]].status)
    ensures Next(requests, last) == Some(ids[i])
  {
    forall q | q in Live(requests)
      ensures if ids[i] > last then q <= last || ids[i] <= q else q <= last && ids[i] <= q
    {
      var k :| 0 <= k < |ids| && ids[k] == q;
    }
    NextIsUnique(requests, last, ids[i]);
  }

  /** `std::find`: the first place of `key`, or the end. */
  method FirstIndex<T(==)>(lru: seq<T>, key: T) returns (i: nat)
    ensures i <= |lru| && Without(lru, key) == if i < |lru| then lru[..i] + lru[i + 1..] else lru
  {
    hide Without;
    i := 0;
    assert lru[0..] == lru;
    while i < |lru| && lru[i] != key
      invariant i <= |lru| && Without(lru, key) == lru[..i] + Without(lru[i..], key)
    {
      WithoutFrom(lru, i, key);
      assert lru[..i + 1] == lru[..i] + [lru[i]];
      i := i + 1;
    }
    if i < |lru| { WithoutFrom(lru, i, key); } else { WithoutNothing(key); }
    assert i == |lru| ==> lru[..i] == lru && lru[i..] == [];
  }

  lemma WithoutNothing<T>(key: T)
    ensures Without([], key) == []
  {
  }

  /** The first step of looking for `key` from position `i`. */
  lemma WithoutFrom<T>(lru: seq<T>, i: nat, key: T)
    requires i < |lru|
    ensures Without(lru[i..], key) == if lru[i] == key then lru[i + 1..] else [lru[i]] + Without(lru[i + 1..], key)
  {
    assert lru[i..][0] == lru[i] && lru[i..][1..] == lru[i + 1..];
  }
}
