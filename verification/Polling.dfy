/** Handing generated tokens over: what one poll gives out, how many polls empty a backlog,
    and the program that polls one token after every step. */
module Polling {
  import opened Options
  import opened MetalSession
  import opened MetalService
  import opened ServiceRefinement
  import opened Scheduling
  import opened Decoding

  // ----- one poll

  /** A poll splits what is pending: the front goes out in an event that describes the
      request, as much of it as the limit lets, the rest stays, and nothing else changes. */
  lemma PollSplits<K>(s: Service<K>, id: nat, limit: nat)
    ensures var (s', event) := Poll(s, id, limit);
      if id !in s.requests then event.None? && s' == s
      else
        event.Some? && id in s'.requests
        && var r := s.requests[id]; var out := event.value.tokens; var rest := s'.requests[id].pending;
        && out + rest == r.pending
        && (limit == 0 ==> rest == [])
        && (limit > 0 ==> |out| <= limit && (|out| < limit ==> rest == []))
        && event.value == Event(id, out, r.status, Terminal(r.status), r.reason)
        && s' == s.(requests := s.requests[id := r.(pending := rest)])
  {
  }

  // ----- polling again and again

  /** `k` polls of one request in a row and all the tokens they gave. */
  function PollTimes<K>(s: Service<K>, id: nat, limit: nat, k: nat): (Service<K>, seq<Token>) {
    if k == 0 then (s, [])
    else
      var (before, out) := PollTimes(s, id, limit, k - 1);
      var (after, event) := Poll(before, id, limit);
      (after, out + if event.Some? then event.value.tokens else [])
  }

  function CeilDiv(n: nat, limit: nat): nat
    requires limit > 0
  {
    (n + limit - 1) / limit
  }

  lemma CeilDivIsLeast(n: nat, limit: nat, k: nat)
    requires limit > 0
    ensures n <= k * limit <==> CeilDiv(n, limit) <= k
  {
    var c := CeilDiv(n, limit);
    assert c * limit + (n + limit - 1) % limit == n + limit - 1;
    hide CeilDiv;
    if c <= k {
      NoFewer(c, k, limit);
    } else {
      NoFewer(k + 1, c, limit);
      assert (k + 1) * limit == k * limit + limit;
    }
  }

  lemma NoFewer(a: nat, b: nat, limit: nat)
    requires a <= b
    ensures a * limit <= b * limit
  {
    assert (b - a) * limit >= 0;
  }

  lemma {:induction false} PollTimesSplits<K>(s: Service<K>, id: nat, limit: nat, k: nat)
    requires id in s.requests && limit > 0
    ensures var (s', out) := PollTimes(s, id, limit, k); var pending := s.requests[id].pending;
      && id in s'.requests && out + s'.requests[id].pending == pending
      && s' == s.(requests := s.requests[id := s.requests[id].(pending := s'.requests[id].pending)])
      && (s'.requests[id].pending != [] ==> |out| == k * limit) && |out| <= k * limit
  {
    hide Poll;
    if k > 0 {
      PollTimesSplits(s, id, limit, k - 1);
      var (before, out) := PollTimes(s, id, limit, k - 1);
      PollSplits(before, id, limit);
      var (after, event) := Poll(before, id, limit);
      assert (k - 1) * limit + limit == k * limit;
      assert out + event.value.tokens + after.requests[id].pending == out + before.requests[id].pending;
    } else {
      assert s.requests[id := s.requests[id]] == s.requests;
    }
  }

  /** Polls with a limit give the tokens out in order; a backlog of `n` is out after
      n / limit polls rounded up, and not before. */
  lemma BacklogIsOutAfter<K>(s: Service<K>, id: nat, limit: nat, k: nat)
    requires id in s.requests && limit > 0
    ensures var (s', out) := PollTimes(s, id, limit, k); var pending := s.requests[id].pending;
      && out <= pending
      && (out == pending <==> CeilDiv(|pending|, limit) <= k)
      && (k < CeilDiv(|pending|, limit) ==> |out| == k * limit)
  {
    hide PollTimes, CeilDiv;
    var (s', out) := PollTimes(s, id, limit, k);
    var pending := s.requests[id].pending;
    PollTimesSplits(s, id, limit, k);
    CeilDivIsLeast(|pending|, limit, k);
    assert pending == out + s'.requests[id].pending;
    assert out == pending ==> s'.requests[id].pending == [];
  }

  // ----- one token after every step

  /** What the Metal program has printed, and whether it left its loop. */
  datatype Printed<K> = Printed(h: History<K>, tokens: seq<Token>, over: bool)

  /** The loop of the Metal program: a step, a poll for one token, until the event says
      that the request is finished. */
  function PrintLoop<K>(d: Deployment<K>, h: History<K>, id: nat, weather: seq<Weather<K>>): Printed<K>
    decreases |weather|
  {
    if weather == [] then Printed(h, [], false)
    else
      var stepped := Observe(d, h, StepOp(weather[0]));
      var event := Poll(stepped.svc, id, 1).1;
      var polled := Observe(d, stepped, PollOp(id, 1));
      if event.None? then Printed(polled, [], true)
      else if event.value.finished then Printed(polled, event.value.tokens, true)
      else
        var rest := PrintLoop(d, polled, id, weather[1..]);
        rest.(tokens := event.value.tokens + rest.tokens)
  }

  /** In the loop at most `backlog` tokens are pending and nobody has cancelled. */
  ghost predicate InLoop<K>(d: Deployment<K>, h: History<K>, id: nat, backlog: nat) {
    && Faithful(d, h) && Books(h.svc) && h.svc.running
    && id in h.svc.requests && !h.svc.requests[id].status.Cancelled? && |h.svc.requests[id].pending| <= backlog
  }

  /** Between two rounds. */
  ghost predicate BetweenRounds<K>(d: Deployment<K>, h: History<K>, id: nat) { InLoop(d, h, id, 0) }

  lemma ProgressAddsAtMostOne<K>(d: Deployment<K>, s: Service<K>, w: Weather<K>, id: nat)
    requires id in s.requests
    ensures |StepProgress(d, s, id, w).request.pending| <= |s.requests[id].pending| + 1
  {
    hide Invoke, InvokeAll, PrefillCalls;
  }

  lemma StepAddsAtMostOne<K>(d: Deployment<K>, s: Service<K>, w: Weather<K>, id: nat)
    requires Books(s) && id in s.requests && !s.requests[id].status.Cancelled?
    ensures var s' := Step(d, s, w).0;
      && id in s'.requests && s'.running == s.running
      && s'.requests[id].input == s.requests[id].input && !s'.requests[id].status.Cancelled?
      && |s'.requests[id].pending| <= |s.requests[id].pending| + 1
  {
    var next := Next(s.requests, s.lastScheduled);
    if s.running && next.Some? {
      var p := StepProgress(d, s, next.value, w);
      StepShape(d, s, next.value, w);
      ProgressAddsAtMostOne(d, s, w, next.value);
      hide StepProgress, Live, QueuedIds, IsNext, Next;
      assert Step(d, s, w).0 == Settle(s, next.value, p, StepCache(d, s, next.value, p));
    }
  }

  lemma RoundFacts<K>(d: Deployment<K>, h: History<K>, id: nat)
    requires BetweenRounds(d, h, id)
    ensures Known(h, id) && id in h.svc.requests
    ensures !Terminal(h.svc.requests[id].status) ==>
      Live(h.svc.requests) != {} && Work(h.svc.requests, h.svc.nextId) > 0
  {
    if !Terminal(h.svc.requests[id].status) {
      assert id in Live(h.svc.requests);
      IdleWhenNoWork(h.svc);
    }
  }

  lemma StepHalf<K(!new)>(d: Deployment<K>, h: History<K>, id: nat, w: Weather<K>)
    requires Sound(d) && BetweenRounds(d, h, id)
    ensures var h' := Observe(d, h, StepOp(w));
      && InLoop(d, h', id, 1) && h'.polled == h.polled && h'.svc.nextId == h.svc.nextId
      && h'.svc.requests[id].input == h.svc.requests[id].input
      && (if Live(h.svc.requests) == {} then h'.svc == h.svc
          else Work(h'.svc.requests, h.svc.nextId) < Work(h.svc.requests, h.svc.nextId))
  {
    hide Step, Books, Live, Terminal, Work, Sound, Faithful;
    StepAddsAtMostOne(d, h.svc, w, id);
    ObserveKeepsFaithful(d, h, StepOp(w));
    ApplyKeepsBooks(d, h.svc, StepOp(w));
    StepDoesWork(d, h.svc, w);
  }

  lemma PollHalf<K(!new)>(d: Deployment<K>, h: History<K>, id: nat)
    requires Sound(d) && InLoop(d, h, id, 1)
    ensures var event := Poll(h.svc, id, 1).1; var h' := Observe(d, h, PollOp(id, 1));
      && event.Some? && BetweenRounds(d, h', id) && Known(h, id) && Known(h', id)
      && h'.svc.requests[id].input == h.svc.requests[id].input
      && h'.polled[id] == h.polled[id] + event.value.tokens
      && event.value.finished == Terminal(h.svc.requests[id].status) == Terminal(h'.svc.requests[id].status)
      && h'.svc.nextId == h.svc.nextId
      && Work(h'.svc.requests, h.svc.nextId) <= Work(h.svc.requests, h.svc.nextId)
  {
    assert Known(h, id);
    hide Step, Books, Live, Terminal, Work, Sound, Faithful;
    ObserveKeepsFaithful(d, h, PollOp(id, 1));
    ApplyKeepsBooks(d, h.svc, PollOp(id, 1));
    QuietOpWork(d, h.svc, PollOp(id, 1));
    PollSplits(h.svc, id, 1);
  }

  /** One round: its event holds all the step generated. */
  lemma OneRound<K(!new)>(d: Deployment<K>, h: History<K>, id: nat, w: Weather<K>)
    requires Sound(d) && BetweenRounds(d, h, id)
    ensures var stepped := Observe(d, h, StepOp(w));
      var event := Poll(stepped.svc, id, 1).1; var polled := Observe(d, stepped, PollOp(id, 1));
      && event.Some? && BetweenRounds(d, polled, id) && Known(h, id) && Known(polled, id)
      && polled.svc.requests[id].input == h.svc.requests[id].input
      && polled.polled[id] == h.polled[id] + event.value.tokens
      && event.value.finished == Terminal(polled.svc.requests[id].status)
      && polled.svc.nextId == h.svc.nextId
      && (Terminal(polled.svc.requests[id].status)
          || Work(polled.svc.requests, h.svc.nextId) < Work(h.svc.requests, h.svc.nextId))
  {
    RoundFacts(d, h, id);
    StepHalf(d, h, id, w);
    PollHalf(d, Observe(d, h, StepOp(w)), id);
    hide *;
  }

  /** Whatever the device does, the loop prints every token of the request and ends. */
  lemma {:induction false} LoopPrintsAll<K(!new)>(d: Deployment<K>, h: History<K>, id: nat, weather: seq<Weather<K>>)
    requires Sound(d) && BetweenRounds(d, h, id)
    ensures var p := PrintLoop(d, h, id, weather);
      && Known(h, id) && BetweenRounds(d, p.h, id) && Known(p.h, id)
      && p.h.svc.requests[id].input == h.svc.requests[id].input
      && p.h.polled[id] == h.polled[id] + p.tokens
      && (p.over ==> Terminal(p.h.svc.requests[id].status))
      && (|weather| >= Work(h.svc.requests, h.svc.nextId) && weather != [] ==> p.over)
    decreases |weather|
  {
    hide Observe, BetweenRounds, Poll, Sound, Work, Terminal;
    RoundFacts(d, h, id);
    if weather != [] {
      OneRound(d, h, id, weather[0]);
      var stepped := Observe(d, h, StepOp(weather[0]));
      var event := Poll(stepped.svc, id, 1).1.value;
      var polled := Observe(d, stepped, PollOp(id, 1));
      if !event.finished {
        LoopPrintsAll(d, polled, id, weather[1..]);
        RoundFacts(d, polled, id);
      }
    }
  }

  /** What the program starts from: one accepted request on a running service. */
  function Launched<K>(d: Deployment<K>, session: State<K>, input: GenerateRequest): History<K> {
    Observe(d, Observe(d, Begin(session), SubmitOp(input)), StartOp)
  }

  lemma LaunchedShape<K>(d: Deployment<K>, session: State<K>, input: GenerateRequest)
    requires Admit(d, input).None?
    ensures var h := Launched(d, session, input);
      && h.svc.requests == map[1 := Request(input, Queued, [], 0, NoReason, None)]
      && h.svc.running && h.svc.nextId == 2 && h.polled == map[1 := []]
  {
    hide Admit, Live, QueuedIds, Submit;
    SubmitAdds(d, Initial(session), input);
  }

  lemma WorkOfOne<K>(r: Request<K>)
    ensures Work(map[1 := r], 2) == Cost(r)
  {
    var requests: map<nat, Request<K>> := map[1 := r];
    assert Work(requests, 2) == Work(requests, 1) + Cost(requests[1]);
    assert Work(requests, 1) == Work(requests, 0);
  }

  lemma LaunchedReady<K(!new)>(d: Deployment<K>, session: State<K>, input: GenerateRequest)
    requires Sound(d) && Admit(d, input).None?
    ensures var h := Launched(d, session, input);
      && BetweenRounds(d, h, 1) && h.svc.requests[1].input == input && h.polled[1] == []
      && Work(h.svc.requests, h.svc.nextId) == 1 + input.maxOutput
  {
    LaunchedShape(d, session, input);
    var h0 := Begin(session);
    var h1 := Observe(d, h0, SubmitOp(input));
    assert Faithful(d, h0) && Books(h0.svc);
    hide Faithful, Books, Work, Submit, Admit, Sound;
    ObserveKeepsFaithful(d, h0, SubmitOp(input));
    ObserveKeepsFaithful(d, h1, StartOp);
    ApplyKeepsBooks(d, h0.svc, SubmitOp(input));
    ApplyKeepsBooks(d, h1.svc, StartOp);
    WorkOfOne(Launched(d, session, input).svc.requests[1]);
  }

  /** The Metal program, on any device: it prints what its request generates by itself, in
      order and to the end, and leaves its loop after at most one round more than the
      output limit. */
  lemma ProgramPrintsItsRequest<K(!new)>(d: Deployment<K>, session: State<K>, input: GenerateRequest,
                                         weather: seq<Weather<K>>) returns (rngs: seq<nat>)
    requires Sound(d) && Admit(d, input).None?
    ensures var p := PrintLoop(d, Launched(d, session, input), 1, weather);
      && 1 in p.h.svc.requests
      && var r := p.h.svc.requests[1];
      && r.input == input && Generates(d.engine, input, p.tokens, rngs)
      && (|weather| > input.maxOutput ==> p.over)
      && (p.over ==> r.status.Finished? || r.status.Failed?)
      && (p.over && r.status.Finished? ==>
        FinishesAt(d.engine, input, |p.tokens|) && (r.reason.Stop? <==> Ends(p.tokens, input.eos)))
  {
    hide PrintLoop, Sound, Launched, Work;
    LaunchedReady(d, session, input);
    LoopPrintsAll(d, Launched(d, session, input), 1, weather);
    var p := PrintLoop(d, Launched(d, session, input), 1, weather);
    var r := p.h.svc.requests[1];
    assert Generated(p.h, 1) == p.tokens;
    assert RequestOk(d.engine, r, p.tokens);
    rngs := RequestGenerates(d.engine, r, p.tokens);
    if r.status.Finished? { FinishedAlone(d.engine, r, p.tokens); }
  }

  lemma {:induction false} LoopFailsNone<K(!new)>(d: Deployment<K>, h: History<K>, id: nat, weather: seq<Weather<K>>)
    requires Sound(d) && Faithful(d, h) && NoneFailed(d.engine, h.svc)
    requires forall i :: 0 <= i < |weather| ==> weather[i].failAt.None?
    ensures NoneFailed(d.engine, PrintLoop(d, h, id, weather).h.svc)
    decreases |weather|
  {
    hide Sound, Faithful, NoneFailed, Observe, Poll;
    if weather != [] {
      var stepped := Observe(d, h, StepOp(weather[0]));
      var polled := Observe(d, stepped, PollOp(id, 1));
      ObserveKeepsFaithful(d, h, StepOp(weather[0]));
      ObserveKeepsFaithful(d, stepped, PollOp(id, 1));
      CalmOpFailsNone(d, h, StepOp(weather[0]));
      CalmOpFailsNone(d, stepped, PollOp(id, 1));
      LoopFailsNone(d, polled, id, weather[1..]);
    }
  }

  /** On a healthy device, for a prompt that the engine takes and an output that fits, it
      prints the whole answer: up to the first stop token or the limit. */
  lemma ProgramPrintsTheAnswer<K(!new)>(d: Deployment<K>, session: State<K>, input: GenerateRequest,
                                        weather: seq<Weather<K>>)
    requires Sound(d) && Admit(d, input).None? && Runnable(d.engine, input)
    requires |weather| > input.maxOutput && forall i :: 0 <= i < |weather| ==> weather[i].failAt.None?
    ensures var p := PrintLoop(d, Launched(d, session, input), 1, weather);
      && p.over && FinishesAt(d.engine, input, |p.tokens|)
      && p.tokens == SoloRun(d.engine, input, |p.tokens|).value.tokens
  {
    var h := Launched(d, session, input);
    var p := PrintLoop(d, h, 1, weather);
    LaunchedShape(d, session, input);
    LaunchedReady(d, session, input);
    assert Faithful(d, h) && NoneFailed(d.engine, h.svc);
    hide Launched, PrintLoop, Sound, Runnable, FinishesAt, BetweenRounds, Admit, Faithful;
    LoopFailsNone(d, h, 1, weather);
    var rngs := ProgramPrintsItsRequest(d, session, input, weather);
    SoloIsFinish(d.engine, input, |p.tokens|);
    SoloRunIff(d.engine, input, p.tokens, Grown(d.engine, input, p.tokens, rngs[|p.tokens|]));
    SoloPosition(d.engine, input, |p.tokens|);
  }

  lemma SoloIsFinish<K>(e: Engine<K>, input: GenerateRequest, n: nat)
    requires FinishesAt(e, input, n)
    ensures SoloRun(e, input, n).Some?
  {
  }
}
