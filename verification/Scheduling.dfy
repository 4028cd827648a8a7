/** Fairness, draining and conservation of requests, over every run of the service.
    Nothing here depends on what the engine computes. */
module Scheduling {
  import opened Options
  import opened MetalSession
  import opened MetalService

  // ----- the bookkeeping invariant

  predicate ShapeOk<K>(r: Request<K>) {
    match r.status
    case Queued => r.generated == 0 && r.snapshot.None?
    case Prefilling => false
    case Decoding => r.generated < r.input.maxOutput && r.snapshot.Some?
    case _ => true
  }

  /** Every submitted request is exactly one of completed, cancelled, failed, active
      or queued, and the two gauges count the live requests. */
  predicate Conserved<K>(s: Service<K>) {
    var m := s.metrics;
    && m.submitted == m.completed + m.cancelled + m.failed + m.active + m.queued
    && m.queued == |QueuedIds(s.requests)|
    && m.active + m.queued == |Live(s.requests)|
  }

  predicate Books<K>(s: Service<K>) {
    && s.lastScheduled < s.nextId
    && (forall id :: id in s.requests ==> 0 < id < s.nextId && ShapeOk(s.requests[id]))
    && Conserved(s)
  }

  function RunService<K>(d: Deployment<K>, s: Service<K>, ops: seq<Op<K>>): Service<K>
    decreases |ops|
  {
    if ops == [] then s else RunService(d, Apply(d, s, ops[0]), ops[1..])
  }

  lemma GaugesAdd<K>(requests: map<nat, Request<K>>)
    ensures QueuedIds(requests) <= Live(requests)
    ensures |Live(requests) - QueuedIds(requests)| + |QueuedIds(requests)| == |Live(requests)|
  {
    var live, queued := Live(requests), QueuedIds(requests);
    assert queued <= live;
    assert (live - queued) + queued == live;
  }

  /** Changing one request moves at most that id in or out of the live set. */
  lemma LiveAfter<K>(before: map<nat, Request<K>>, after: map<nat, Request<K>>, id: nat)
    requires forall q :: q != id ==> (q in before <==> q in after)
    requires forall q :: q != id && q in before ==> after[q].status == before[q].status
    ensures Live(after) == Live(before) - {id} + (if id in after && !Terminal(after[id].status) then {id} else {})
  {
    forall q
      ensures q in Live(after) <==>
              q in Live(before) - {id} + (if id in after && !Terminal(after[id].status) then {id} else {})
    {
      if q != id && q in before { assert after[q].status == before[q].status; }
    }
  }

  lemma StepShape<K>(d: Deployment<K>, s: Service<K>, id: nat, w: Weather<K>)
    requires id in Live(s.requests) && ShapeOk(s.requests[id])
    ensures var r := s.requests[id]; var r' := StepProgress(d, s, id, w).request;
      && ShapeOk(r') && r'.input == r.input
      && (Terminal(r'.status) ==> r'.status.Finished? || r'.status.Failed?)
      && (!Terminal(r'.status) ==>
        r'.status.Decoding? && r'.generated == r.generated + if r.status.Queued? then 0 else 1)
  {
  }

  lemma SubmitAdds<K>(d: Deployment<K>, s: Service<K>, input: GenerateRequest)
    requires Admit(d, input).None?
    ensures var s' := Submit(d, s, input).0; var r := Request(input, Queued, [], 0, NoReason, None);
      && s'.requests == s.requests[s.nextId := r]
      && s'.nextId == s.nextId + 1 && s'.lastScheduled == s.lastScheduled && s'.running == s.running
      && s'.metrics == Refresh(s').metrics
      && s'.metrics.submitted == s.metrics.submitted + 1 && s'.metrics.completed == s.metrics.completed
      && s'.metrics.cancelled == s.metrics.cancelled && s'.metrics.failed == s.metrics.failed
  {
  }

  function Balance(m: Metrics): int { m.submitted - m.completed - m.cancelled - m.failed }

  function One<K>(requests: map<nat, Request<K>>, id: nat): int {
    if id in requests && !Terminal(requests[id].status) then 1 else 0
  }

  /** The ledger stays balanced when one request changes and the counters follow it. */
  lemma BooksFollow<K>(s: Service<K>, s': Service<K>, id: nat)
    requires Books(s) && s'.lastScheduled < s'.nextId && s.nextId <= s'.nextId
    requires forall q :: q != id ==> (q in s'.requests <==> q in s.requests)
    requires forall q :: q != id && q in s.requests ==> s'.requests[q] == s.requests[q]
    requires id in s'.requests ==> 0 < id < s'.nextId && ShapeOk(s'.requests[id])
    requires Balance(s'.metrics) - Balance(s.metrics) == One(s'.requests, id) - One(s.requests, id)
    requires s'.metrics.active == |Live(s'.requests) - QueuedIds(s'.requests)|
    requires s'.metrics.queued == |QueuedIds(s'.requests)|
    ensures Books(s')
  {
    CountFollows(s.requests, s'.requests, id);
    GaugesAdd(s'.requests);
  }

  lemma CountFollows<K>(before: map<nat, Request<K>>, after: map<nat, Request<K>>, id: nat)
    requires forall q :: q != id ==> (q in before <==> q in after)
    requires forall q :: q != id && q in before ==> after[q].status == before[q].status
    ensures |Live(after)| - |Live(before)| == One(after, id) - One(before, id)
  {
    LiveAfter(before, after, id);
    CountMember(Live(before), id);
    CountMember(Live(after), id);
    assert Live(after) - {id} == Live(before) - {id};
  }

  lemma CountMember(ids: set<nat>, id: nat)
    ensures |ids| == |ids - {id}| + if id in ids then 1 else 0
  {
    if id in ids {
      assert ids == (ids - {id}) + {id};
    } else {
      assert ids == ids - {id};
    }
  }

  lemma SubmitKeepsBooks<K>(d: Deployment<K>, s: Service<K>, input: GenerateRequest)
    requires Books(s)
    ensures Books(Submit(d, s, input).0)
  {
    if Admit(d, input).None? {
      SubmitAdds(d, s, input);
      BooksFollow(s, Submit(d, s, input).0, s.nextId);
    }
  }

  lemma SameStatuses<K>(before: map<nat, Request<K>>, after: map<nat, Request<K>>)
    requires before.Keys == after.Keys && forall q :: q in before ==> after[q].status == before[q].status
    ensures Live(after) == Live(before) && QueuedIds(after) == QueuedIds(before)
  {
  }

  lemma PollKeepsBooks<K>(s: Service<K>, id: nat, maxTokens: nat)
    requires Books(s)
    ensures Books(Poll(s, id, maxTokens).0)
    ensures Live(Poll(s, id, maxTokens).0.requests) == Live(s.requests)
  {
    if id in s.requests {
      SameStatuses(s.requests, Poll(s, id, maxTokens).0.requests);
      hide Live, QueuedIds, Taken;
    }
  }

  lemma CancelKeepsBooks<K>(s: Service<K>, id: nat)
    requires Books(s)
    ensures Books(Cancel(s, id).0)
  {
    if Cancel(s, id).1 { BooksFollow(s, Cancel(s, id).0, id); }
  }

  lemma ReleaseKeepsBooks<K>(s: Service<K>, id: nat)
    requires Books(s)
    ensures Books(Release(s, id).0)
  {
    if Release(s, id).1 { BooksFollow(s, Release(s, id).0, id); }
  }

  lemma ApplyKeepsBooks<K>(d: Deployment<K>, s: Service<K>, op: Op<K>)
    requires Books(s)
    ensures Books(Apply(d, s, op))
  {
    match op
    case SubmitOp(input) => SubmitKeepsBooks(d, s, input);
    case PollOp(id, maxTokens) => PollKeepsBooks(s, id, maxTokens);
    case CancelOp(id) => CancelKeepsBooks(s, id);
    case ReleaseOp(id) => ReleaseKeepsBooks(s, id);
    case StepOp(w) => StepKeepsBooks(d, s, w);
    case _ =>
  }

  lemma StepKeepsBooks<K>(d: Deployment<K>, s: Service<K>, w: Weather<K>)
    requires Books(s)
    ensures Books(Step(d, s, w).0)
  {
    var next := Next(s.requests, s.lastScheduled);
    if s.running && next.Some? {
      var id := next.value;
      StepShape(d, s, id, w);
      var p := StepProgress(d, s, id, w);
      SettleKeepsBooks(s, id, p, StepCache(d, s, id, p));
    }
  }

  lemma SettleKeepsBooks<K>(s: Service<K>, id: nat, p: Progress<K>, c: Cache<K>)
    requires Books(s) && id in Live(s.requests) && ShapeOk(p.request)
    requires Terminal(p.request.status) ==> p.request.status.Finished? || p.request.status.Failed?
    ensures Books(Settle(s, id, p, c))
  {
    BooksFollow(s, Settle(s, id, p, c), id);
  }

  lemma {:induction false} RunKeepsBooks<K>(d: Deployment<K>, s: Service<K>, ops: seq<Op<K>>)
    requires Books(s)
    ensures Books(RunService(d, s, ops))
    decreases |ops|
  {
    if ops != [] {
      ApplyKeepsBooks(d, s, ops[0]);
      RunKeepsBooks(d, Apply(d, s, ops[0]), ops[1..]);
    }
  }

  /** From construction on no request is lost or counted twice, and one that decodes has a
      snapshot and is below its limit. */
  lemma EveryRunConserves<K>(d: Deployment<K>, session: State<K>, ops: seq<Op<K>>)
    ensures Books(RunService(d, Initial(session), ops))
  {
    var s := Initial(session);
    assert Live(s.requests) == {} && QueuedIds(s.requests) == {};
    RunKeepsBooks(d, s, ops);
  }

  // ----- bounded waiting

  function Steps<K>(ops: seq<Op<K>>): nat {
    if ops == [] then 0 else (if ops[0].StepOp? then 1 else 0) + Steps(ops[1..])
  }

  function Submits<K>(ops: seq<Op<K>>): nat {
    if ops == [] then 0 else (if ops[0].SubmitOp? then 1 else 0) + Submits(ops[1..])
  }

  /** The live requests a round-robin pass starting after `last` reaches no later than `id`. */
  function Ahead<K>(requests: map<nat, Request<K>>, last: nat, id: nat): set<nat> {
    set q | q in Live(requests) && (if id > last then last < q <= id else q > last || q <= id)
  }

  /** `id` stays live and unscheduled through the whole run while the service is running. */
  predicate Waits<K>(d: Deployment<K>, s: Service<K>, ops: seq<Op<K>>, id: nat)
    decreases |ops|
  {
    && s.running && id in Live(s.requests)
    && (ops != [] ==>
      && (ops[0].StepOp? ==> Next(s.requests, s.lastScheduled) != Some(id))
      && Waits(d, Apply(d, s, ops[0]), ops[1..], id))
  }

  lemma StepPassesOne<K>(d: Deployment<K>, s: Service<K>, w: Weather<K>, id: nat)
    requires Books(s) && s.running && id in Live(s.requests)
    requires Next(s.requests, s.lastScheduled) != Some(id)
    ensures var s' := Step(d, s, w).0;
      Ahead(s'.requests, s'.lastScheduled, id) < Ahead(s.requests, s.lastScheduled, id)
  {
    var n := Next(s.requests, s.lastScheduled).value;
    var p := StepProgress(d, s, n, w);
    var s' := Step(d, s, w).0;
    assert s' == Settle(s, n, p, StepCache(d, s, n, p));
    assert s'.requests == s.requests[n := p.request];
    LiveAfter(s.requests, s'.requests, n);
    assert n in Ahead(s.requests, s.lastScheduled, id);
    assert n !in Ahead(s'.requests, n, id);
    forall q | q in Ahead(s'.requests, n, id)
      ensures q in Ahead(s.requests, s.lastScheduled, id)
    {
      assert q in Live(s.requests);
    }
  }

  lemma OthersPassNone<K>(d: Deployment<K>, s: Service<K>, op: Op<K>, id: nat)
    requires Books(s) && !op.StepOp? && id in Live(s.requests)
    ensures var s' := Apply(d, s, op);
      && s'.lastScheduled == s.lastScheduled
      && Ahead(s'.requests, s'.lastScheduled, id)
         <= Ahead(s.requests, s.lastScheduled, id) + (if op.SubmitOp? then {s.nextId} else {})
  {
    hide Apply, Live, Ahead, Books;
    OthersLive(d, s, op);
    AheadGrows(s.requests, Apply(d, s, op).requests, s.lastScheduled, id, if op.SubmitOp? then {s.nextId} else {});
  }

  /** No operation but a submission brings a request to life. */
  lemma SubmitLives<K>(d: Deployment<K>, s: Service<K>, input: GenerateRequest)
    ensures var s' := Submit(d, s, input).0;
      s'.lastScheduled == s.lastScheduled && Live(s'.requests) <= Live(s.requests) + {s.nextId}
  {
    hide Live, QueuedIds, Admit;
    LiveAfter(s.requests, Submit(d, s, input).0.requests, s.nextId);
  }

  lemma PollLives<K>(s: Service<K>, id: nat, maxTokens: nat)
    ensures var s' := Poll(s, id, maxTokens).0;
      s'.lastScheduled == s.lastScheduled && Live(s'.requests) <= Live(s.requests)
  {
    hide Live, Taken, EventOf;
    OneLives(s.requests, Poll(s, id, maxTokens).0.requests, id);
  }

  lemma CancelLives<K>(s: Service<K>, id: nat)
    ensures var s' := Cancel(s, id).0;
      s'.lastScheduled == s.lastScheduled && Live(s'.requests) <= Live(s.requests)
  {
    hide Live, QueuedIds;
    OneLives(s.requests, Cancel(s, id).0.requests, id);
  }

  lemma ReleaseLives<K>(s: Service<K>, id: nat)
    ensures var s' := Release(s, id).0;
      s'.lastScheduled == s.lastScheduled && Live(s'.requests) <= Live(s.requests)
  {
    hide Live, QueuedIds;
    OneLives(s.requests, Release(s, id).0.requests, id);
  }

  lemma OthersLive<K>(d: Deployment<K>, s: Service<K>, op: Op<K>)
    requires !op.StepOp?
    ensures var s' := Apply(d, s, op);
      && s'.lastScheduled == s.lastScheduled
      && Live(s'.requests) <= Live(s.requests) + (if op.SubmitOp? then {s.nextId} else {})
  {
    hide Live, Submit, Poll, Cancel, Release;
    match op {
      case SubmitOp(input) => SubmitLives(d, s, input);
      case PollOp(q, maxTokens) => PollLives(s, q, maxTokens);
      case CancelOp(q) => CancelLives(s, q);
      case ReleaseOp(q) => ReleaseLives(s, q);
      case StartOp =>
      case StopOp =>
    }
  }

  lemma OneLives<K>(before: map<nat, Request<K>>, after: map<nat, Request<K>>, id: nat)
    requires forall q :: q != id ==> (q in before <==> q in after)
    requires forall q :: q != id && q in before ==> after[q].status == before[q].status
    requires id in after && !Terminal(after[id].status) ==> id in before && !Terminal(before[id].status)
    ensures Live(after) <= Live(before)
  {
    hide Live;
    LiveAfter(before, after, id);
    InLive(before, id);
  }

  lemma InLive<K>(requests: map<nat, Request<K>>, id: nat)
    ensures id in Live(requests) <==> id in requests && !Terminal(requests[id].status)
  {
  }

  lemma AheadGrows<K>(before: map<nat, Request<K>>, after: map<nat, Request<K>>, last: nat, id: nat, extra: set<nat>)
    requires Live(after) <= Live(before) + extra
    ensures Ahead(after, last, id) <= Ahead(before, last, id) + extra
  {
    hide Live;
  }

  lemma WaitShrinks<K>(d: Deployment<K>, s: Service<K>, op: Op<K>, id: nat)
    requires Books(s) && s.running && id in Live(s.requests)
    requires op.StepOp? ==> Next(s.requests, s.lastScheduled) != Some(id)
    ensures var s' := Apply(d, s, op);
      |Ahead(s'.requests, s'.lastScheduled, id)| + (if op.StepOp? then 1 else 0)
      <= |Ahead(s.requests, s.lastScheduled, id)| + (if op.SubmitOp? then 1 else 0)
  {
    var s' := Apply(d, s, op);
    var ahead, ahead' := Ahead(s.requests, s.lastScheduled, id), Ahead(s'.requests, s'.lastScheduled, id);
    if op.StepOp? {
      StepPassesOne(d, s, op.weather, id);
      Smaller(ahead', ahead);
    } else {
      OthersPassNone(d, s, op, id);
      var arrived := if op.SubmitOp? then {s.nextId} else {};
      Smaller(ahead', ahead + arrived);
      assert |ahead + arrived| <= |ahead| + |arrived|;
    }
  }

  lemma Smaller(a: set<nat>, b: set<nat>)
    requires a <= b
    ensures |a| <= |b|
    ensures a < b ==> |a| < |b|
  {
    assert b == a + (b - a);
    assert |b| == |a| + |b - a|;
    if a < b {
      var x :| x in b && x !in a;
      assert x in b - a;
    }
  }

  lemma {:induction false} WaitIsBounded<K>(d: Deployment<K>, s: Service<K>, ops: seq<Op<K>>, id: nat)
    requires Books(s) && Waits(d, s, ops, id)
    ensures Steps(ops) < |Ahead(s.requests, s.lastScheduled, id)| + Submits(ops)
    decreases |ops|
  {
    if ops == [] {
      assert id in Ahead(s.requests, s.lastScheduled, id);
    } else {
      ApplyKeepsBooks(d, s, ops[0]);
      WaitShrinks(d, s, ops[0], id);
      WaitIsBounded(d, Apply(d, s, ops[0]), ops[1..], id);
    }
  }

  /** While the service runs, a live request is scheduled within as many steps as there
      are live requests now plus requests submitted meanwhile, whatever is cancelled or
      released in between and however the id order wraps. */
  lemma BoundedWaiting<K>(d: Deployment<K>, session: State<K>, past: seq<Op<K>>, ops: seq<Op<K>>, id: nat)
    requires var s := RunService(d, Initial(session), past);
      Waits(d, s, ops, id)
    ensures var s := RunService(d, Initial(session), past);
      Steps(ops) < |Live(s.requests)| + Submits(ops)
  {
    var s0, s := Initial(session), RunService(d, Initial(session), past);
    assert Live(s0.requests) == {} && QueuedIds(s0.requests) == {};
    RunKeepsBooks(d, s0, past);
    WaitIsBounded(d, s, ops, id);
    Smaller(Ahead(s.requests, s.lastScheduled, id), Live(s.requests));
  }

  lemma WaitsCons<K>(d: Deployment<K>, s: Service<K>, op: Op<K>, ops: seq<Op<K>>, id: nat)
    requires s.running && id in Live(s.requests)
    requires op.StepOp? ==> Next(s.requests, s.lastScheduled) != Some(id)
    requires Waits(d, Apply(d, s, op), ops, id)
    ensures Waits(d, s, [op] + ops, id)
  {
    assert ([op] + ops)[1..] == ops;
  }

  function Flood<K>(input: GenerateRequest, w: Weather<K>, n: nat): seq<Op<K>> {
    if n == 0 then [] else [SubmitOp(input), StepOp(w)] + Flood(input, w, n - 1)
  }

  lemma {:induction false} FloodCounts<K>(input: GenerateRequest, w: Weather<K>, n: nat)
    ensures Steps(Flood(input, w, n)) == Submits(Flood(input, w, n)) == n
  {
    if n > 0 {
      FloodCounts(input, w, n - 1);
      var ops := Flood(input, w, n);
      assert ops[1..] == [StepOp(w)] + Flood(input, w, n - 1);
      assert ops[1..][1..] == Flood(input, w, n - 1);
    }
  }

  /** One arrival and one step: the newcomer, or another request past `id`, is served. */
  lemma ArrivalOvertakes<K>(d: Deployment<K>, s: Service<K>, input: GenerateRequest, w: Weather<K>, id: nat)
    requires Books(s) && s.running && id in Live(s.requests) && id <= s.lastScheduled
    requires Admit(d, input).None?
    ensures var s1 := Submit(d, s, input).0; var s2 := Step(d, s1, w).0;
      && s1.running && id in Live(s1.requests) && Next(s1.requests, s1.lastScheduled) != Some(id)
      && s2.running && id in Live(s2.requests) && id <= s2.lastScheduled
      && Books(s2)
  {
    SubmitAdds(d, s, input);
    SubmitKeepsBooks(d, s, input);
    var s1 := Submit(d, s, input).0;
    assert s1.requests[id] == s.requests[id];
    assert s.nextId in Live(s1.requests) && id in Live(s1.requests);
    StepKeepsBooks(d, s1, w);
    StepSkips(d, s1, w, id, s.nextId);
  }

  lemma StepSkips<K>(d: Deployment<K>, s: Service<K>, w: Weather<K>, id: nat, later: nat)
    requires s.running && id in Live(s.requests) && id <= s.lastScheduled
    requires later in Live(s.requests) && later > s.lastScheduled
    ensures var s' := Step(d, s, w).0;
      && Next(s.requests, s.lastScheduled) != Some(id)
      && s'.running && id in Live(s'.requests) && id <= s'.lastScheduled
  {
    var next := Next(s.requests, s.lastScheduled).value;
    assert next > s.lastScheduled;
    var p := StepProgress(d, s, next, w);
    var s' := Step(d, s, w).0;
    assert s' == Settle(s, next, p, StepCache(d, s, next, p));
    LiveAfter(s.requests, s'.requests, next);
  }

  /** The submissions in the bound cannot be dropped: one arrival per step starves a
      request that the round-robin has passed, for ever. */
  lemma {:induction false} ArrivalsStarve<K>(d: Deployment<K>, s: Service<K>, input: GenerateRequest, w: Weather<K>,
                                             id: nat, n: nat)
    requires Books(s) && s.running && id in Live(s.requests) && id <= s.lastScheduled
    requires Admit(d, input).None?
    ensures Waits(d, s, Flood(input, w, n), id)
    ensures Steps(Flood(input, w, n)) == Submits(Flood(input, w, n)) == n
    decreases n
  {
    hide Step, Submit, Apply;
    FloodCounts(input, w, n);
    if n > 0 {
      var s1 := Submit(d, s, input).0;
      var s2 := Step(d, s1, w).0;
      ArrivalOvertakes(d, s, input, w, id);
      ArrivalsStarve(d, s2, input, w, id, n - 1);
      WaitsPair(d, s, input, w, Flood(input, w, n - 1), id);
    }
  }

  lemma WaitsPair<K>(d: Deployment<K>, s: Service<K>, input: GenerateRequest, w: Weather<K>, rest: seq<Op<K>>, id: nat)
    requires var s1 := Submit(d, s, input).0;
      && s.running && id in Live(s.requests)
      && s1.running && id in Live(s1.requests) && Next(s1.requests, s1.lastScheduled) != Some(id)
      && Waits(d, Step(d, s1, w).0, rest, id)
    ensures Waits(d, s, [SubmitOp(input), StepOp(w)] + rest, id)
  {
    hide Submit, Step, Next, Live, Waits;
    var s1 := Submit(d, s, input).0;
    WaitsCons(d, s1, StepOp(w), rest, id);
    WaitsCons(d, s, SubmitOp(input), [StepOp(w)] + rest, id);
    assert [SubmitOp(input), StepOp(w)] + rest == [SubmitOp(input)] + ([StepOp(w)] + rest);
  }

  // ----- draining

  function Cost<K>(r: Request<K>): nat {
    if r.status.Queued? then 1 + r.input.maxOutput
    else if !Terminal(r.status) && r.generated < r.input.maxOutput then r.input.maxOutput - r.generated
    else 0
  }

  /** Steps the requests with ids below `n` can still need. */
  function Work<K>(requests: map<nat, Request<K>>, n: nat): nat {
    if n == 0 then 0
    else Work(requests, n - 1) + if n - 1 in requests then Cost(requests[n - 1]) else 0
  }

  lemma {:induction false} WorkChanges<K>(before: map<nat, Request<K>>, after: map<nat, Request<K>>, id: nat, n: nat)
    requires forall q :: q in after && q != id ==> q in before && Cost(after[q]) == Cost(before[q])
    ensures Work(after, n) <= Work(before, n)
      + (if id < n && id in after then Cost(after[id]) else 0)
      - (if id < n && id in before then Cost(before[id]) else 0)
  {
    if n > 0 { WorkChanges(before, after, id, n - 1); }
  }

  lemma {:induction false} WorkCovers<K>(requests: map<nat, Request<K>>, id: nat, n: nat)
    requires id < n && id in requests
    ensures Work(requests, n) >= Cost(requests[id])
  {
    if id < n - 1 { WorkCovers(requests, id, n - 1); }
  }

  predicate Quiet<K>(ops: seq<Op<K>>) {
    forall i :: 0 <= i < |ops| ==> !ops[i].SubmitOp? && !ops[i].StopOp?
  }

  lemma QuietOpWork<K>(d: Deployment<K>, s: Service<K>, op: Op<K>)
    requires Books(s) && !op.SubmitOp? && !op.StopOp? && !op.StepOp?
    ensures var s' := Apply(d, s, op);
      s'.nextId == s.nextId && (s.running ==> s'.running)
      && Work(s'.requests, s.nextId) <= Work(s.requests, s.nextId)
      && Live(s'.requests) <= Live(s.requests)
  {
    hide Step, Submit, Work, Live;
    match op
    case PollOp(id, maxTokens) => TouchingWork(s, Poll(s, id, maxTokens).0, id);
    case CancelOp(id) => TouchingWork(s, Cancel(s, id).0, id);
    case ReleaseOp(id) => TouchingWork(s, Release(s, id).0, id);
    case _ =>
  }

  lemma TouchingWork<K>(s: Service<K>, s': Service<K>, id: nat)
    requires Books(s)
    requires forall q :: q in s'.requests ==> q in s.requests && (q != id ==> s'.requests[q] == s.requests[q])
    requires id in s'.requests ==>
      Cost(s'.requests[id]) <= Cost(s.requests[id]) &&
        (Terminal(s.requests[id].status) ==> Terminal(s'.requests[id].status))
    ensures Work(s'.requests, s.nextId) <= Work(s.requests, s.nextId)
    ensures Live(s'.requests) <= Live(s.requests)
  {
    WorkChanges(s.requests, s'.requests, id, s.nextId);
  }

  lemma StepDoesWork<K>(d: Deployment<K>, s: Service<K>, w: Weather<K>)
    requires Books(s) && s.running
    ensures var s' := Step(d, s, w).0;
      && s'.running && s'.nextId == s.nextId
      && if Live(s.requests) == {} then s' == s else Work(s'.requests, s.nextId) < Work(s.requests, s.nextId)
  {
    var next := Next(s.requests, s.lastScheduled);
    if next.Some? {
      var id := next.value;
      var p := StepProgress(d, s, id, w);
      StepShape(d, s, id, w);
      var s' := Step(d, s, w).0;
      assert s' == Settle(s, id, p, StepCache(d, s, id, p));
      assert Cost(p.request) < Cost(s.requests[id]);
      WorkChanges(s.requests, s'.requests, id, s.nextId);
    }
  }

  /** With no further submissions every step of a running service retires work, so the
      service is idle after at most the work it held: one step to prefill each queued
      request and one per token still allowed. */
  lemma {:induction false} Drains<K>(d: Deployment<K>, s: Service<K>, ops: seq<Op<K>>)
    requires Books(s) && s.running && Quiet(ops)
    ensures var s' := RunService(d, s, ops);
      Live(s'.requests) == {} || Work(s'.requests, s.nextId) + Steps(ops) <= Work(s.requests, s.nextId)
    ensures Steps(ops) >= Work(s.requests, s.nextId) ==> Live(RunService(d, s, ops).requests) == {}
    decreases |ops|
  {
    if ops == [] {
      IdleWhenNoWork(s);
    } else {
      var s1 := Apply(d, s, ops[0]);
      ApplyKeepsBooks(d, s, ops[0]);
      if ops[0].StepOp? { StepDoesWork(d, s, ops[0].weather); } else { QuietOpWork(d, s, ops[0]); }
      Drains(d, s1, ops[1..]);
      if Live(s.requests) == {} {
        StaysIdle(d, s, ops);
      } else {
        var s' := RunService(d, s, ops);
        RunKeepsBooks(d, s, ops);
        QuietKeepsIds(d, s, ops);
        IdleWhenNoWork(s');
      }
    }
  }

  lemma IdleWhenNoWork<K>(s: Service<K>)
    requires Books(s)
    ensures Work(s.requests, s.nextId) == 0 ==> Live(s.requests) == {}
  {
    if Live(s.requests) != {} {
      var id :| id in Live(s.requests);
      WorkCovers(s.requests, id, s.nextId);
    }
  }

  lemma {:induction false} StaysIdle<K>(d: Deployment<K>, s: Service<K>, ops: seq<Op<K>>)
    requires Books(s) && s.running && Quiet(ops) && Live(s.requests) == {}
    ensures Live(RunService(d, s, ops).requests) == {}
    decreases |ops|
  {
    if ops != [] {
      ApplyKeepsBooks(d, s, ops[0]);
      if ops[0].StepOp? { StepDoesWork(d, s, ops[0].weather); } else { QuietOpWork(d, s, ops[0]); }
      StaysIdle(d, Apply(d, s, ops[0]), ops[1..]);
    }
  }

  lemma {:induction false} QuietKeepsIds<K>(d: Deployment<K>, s: Service<K>, ops: seq<Op<K>>)
    requires Books(s) && s.running && Quiet(ops)
    ensures RunService(d, s, ops).nextId == s.nextId
    decreases |ops|
  {
    if ops != [] {
      ApplyKeepsBooks(d, s, ops[0]);
      if ops[0].StepOp? { StepDoesWork(d, s, ops[0].weather); } else { QuietOpWork(d, s, ops[0]); }
      QuietKeepsIds(d, Apply(d, s, ops[0]), ops[1..]);
    }
  }
}
