/** The lifetime of the polling loop: when it survives its clients, and exactly when it does
    not. */
module PollingLoop {
  import opened Options
  import opened MetalSession
  import opened MetalService
  import opened ServiceRefinement
  import opened Dispatcher

  // ----- when it survives

  /** The ids the current pass has still to poll. */
  function Batch(pc: Pc): seq<nat> {
    match pc
    case Polling(ids) => ids
    case Delivering(_, rest) => rest
    case Releasing(_, rest) => rest
    case _ => []
  }

  /** The callback that this action calls throws. */
  predicate Throws<K>(w: World<K>, a: Action<K>) {
    a == LoopDeliver(true) && w.pc.Delivering? && w.pc.event.id in w.watchers && w.watchers[w.pc.event.id].Client?
  }

  /** This action polls an id that the service does not have. */
  predicate Misses<K>(w: World<K>, a: Action<K>) {
    a.LoopPoll? && w.pc.Polling? && w.pc.ids != [] && w.pc.ids[0] !in w.h.svc.requests
  }

  /** Clients watch only submitted requests, their callbacks return, and nobody but the loop
      releases a dead request that the loop watches or is about to poll. */
  predicate Orderly<K>(w: World<K>, a: Action<K>) {
    match a
    case Watch(id, _) => id in w.h.svc.requests
    case CancelBegin(id) => Dead(w.h, id) ==> id !in Batch(w.pc)
    case Direct(op) => op.ReleaseOp? && Dead(w.h, op.id) ==> op.id !in w.watchers && op.id !in Batch(w.pc)
    case StopLoop => false
    case LoopDeliver(_) => !Throws(w, a)
    case _ => true
  }

  predicate OrderlyRun<K>(d: Deployment<K>, w: World<K>, actions: seq<Action<K>>)
    decreases |actions|
  {
    actions == [] ||
    (if Enabled(w, actions[0]) then Orderly(w, actions[0]) && OrderlyRun(d, Do(d, w, actions[0]), actions[1..])
     else OrderlyRun(d, w, actions[1..]))
  }

  predicate Alive<K>(w: World<K>) {
    && w.running && !Over(w.pc)
    && (forall id :: id in w.watchers ==> id in w.h.svc.requests)
    && (forall id :: id in Batch(w.pc) ==> id in w.h.svc.requests)
    && (w.cancelling.Some? ==> w.cancelling.value !in w.watchers && w.cancelling.value !in Batch(w.pc))
  }

  lemma ServiceOpKeepsAlive<K>(d: Deployment<K>, w: World<K>, op: Op<K>)
    requires WorldOk(w) && Alive(w) && !op.ReleaseOp?
    ensures Alive(w.(h := Observe(d, w.h, op)))
  {
    forall id | id in w.h.svc.requests ensures id in Observe(d, w.h, op).svc.requests { OpLeaves(d, w.h, op, id); }
    hide Observe;
  }

  lemma ReleaseKeepsOthers<K>(d: Deployment<K>, w: World<K>, q: nat, id: nat)
    requires Recorded(w.h) && id in w.h.svc.requests && (q == id ==> !Dead(w.h, id))
    ensures id in TryRelease(d, w, q).h.svc.requests
  {
    OpLeaves(d, w.h, ReleaseOp(q), id);
  }

  lemma TryReleaseKeepsAlive<K>(d: Deployment<K>, w: World<K>, q: nat)
    requires WorldOk(w) && Alive(w) && (Dead(w.h, q) ==> q !in w.watchers && q !in Batch(w.pc))
    ensures Alive(TryRelease(d, w, q))
  {
    forall id | id in w.watchers || id in Batch(w.pc) ensures id in TryRelease(d, w, q).h.svc.requests {
      ReleaseKeepsOthers(d, w, q, id);
    }
    hide Observe, Release;
  }

  lemma BeginCancelKeepsAlive<K>(d: Deployment<K>, w: World<K>, id: nat)
    requires WorldOk(w) && Alive(w) && MutexFree(w) && (Dead(w.h, id) ==> id !in Batch(w.pc))
    ensures Alive(BeginCancel(d, w, id))
  {
    ServiceOpKeepsAlive(d, w, CancelOp(id));
    CancelledOnlyLive(w.h.svc, id);
    hide Observe, Cancel, WorldOk;
  }

  lemma CancelledOnlyLive<K>(s: Service<K>, id: nat)
    ensures Cancel(s, id).1 <==> id in s.requests && !Terminal(s.requests[id].status)
  {
    hide Refresh;
  }

  lemma DoKeepsAlive<K>(d: Deployment<K>, w: World<K>, a: Action<K>)
    requires WorldOk(w) && Alive(w) && Enabled(w, a) && Orderly(w, a)
    ensures Alive(Do(d, w, a))
  {
    match a
    case LoopStep(weather) => ServiceOpKeepsAlive(d, w, StepOp(weather)); hide Observe;
    case LoopPoll =>
      if w.pc.ids != [] { ServiceOpKeepsAlive(d, w, PollOp(w.pc.ids[0], 0)); }
      hide Observe;
    case LoopRelease => TryReleaseKeepsAlive(d, w, w.pc.id); hide TryRelease;
    case CancelBegin(id) => BeginCancelKeepsAlive(d, w, id); hide BeginCancel;
    case CancelEnd => TryReleaseKeepsAlive(d, w, w.cancelling.value); hide TryRelease;
    case Direct(op) =>
      if op.ReleaseOp? { TryReleaseKeepsAlive(d, w, op.id); } else { ServiceOpKeepsAlive(d, w, op); }
      hide Observe, TryRelease;
    case _ =>
  }

  /** While clients are orderly the loop never ends. */
  lemma {:induction false} OrderlyClientsKeepTheLoop<K>(d: Deployment<K>, w: World<K>, actions: seq<Action<K>>)
    requires WorldOk(w) && Alive(w) && OrderlyRun(d, w, actions)
    ensures Alive(Play(d, w, actions))
    decreases |actions|
  {
    hide WorldOk, Alive, Do, Enabled, Orderly;
    if actions != [] {
      var w' := if Enabled(w, actions[0]) then Do(d, w, actions[0]) else w;
      if Enabled(w, actions[0]) {
        DoKeepsAlive(d, w, actions[0]);
        DoKeepsOk(d, w, actions[0]);
      }
      OrderlyClientsKeepTheLoop(d, w', actions[1..]);
    }
  }

  /** The loop's handling of the next id with no client in between; `throws` are the ids
      whose callback throws in this pass. */
  function HandleOne<K>(d: Deployment<K>, w: World<K>, throws: set<nat>): World<K>
    requires w.pc.Polling?
  {
    var polled := PollNext(d, w);
    var delivered := if polled.pc.Delivering? then Deliver(polled, polled.pc.event.id in throws) else polled;
    if delivered.pc.Releasing? then TryRelease(d, delivered, delivered.pc.id).(pc := Polling(delivered.pc.rest))
    else delivered
  }

  /** The rest of a pass with no client in between. */
  function Finish<K>(d: Deployment<K>, w: World<K>, throws: set<nat>): World<K>
    requires w.pc.Polling?
    decreases |w.pc.ids|
  {
    var next := HandleOne(d, w, throws);
    if w.pc.ids == [] || Over(next.pc) then next else Finish(d, next, throws)
  }

  /** Handling `id` calls a callback that throws. */
  predicate ThrowsFor<K>(w: World<K>, throws: set<nat>, id: nat) {
    && id in throws && id in w.watchers && w.watchers[id].Client?
    && id in w.h.svc.requests && (w.h.svc.requests[id].pending != [] || Dead(w.h, id))
  }

  /** Handling `id` ends the loop. */
  predicate Fatal<K>(w: World<K>, throws: set<nat>, id: nat) {
    id !in w.h.svc.requests || ThrowsFor(w, throws, id)
  }

  lemma HandleOneFatal<K>(d: Deployment<K>, w: World<K>, throws: set<nat>)
    requires w.pc.Polling? && w.pc.ids != []
    ensures Over(HandleOne(d, w, throws).pc) <==> Fatal(w, throws, w.pc.ids[0])
    ensures !Over(HandleOne(d, w, throws).pc) ==> HandleOne(d, w, throws).pc == Polling(w.pc.ids[1..])
  {
    hide Observe, Release;
    if w.pc.ids[0] in w.h.svc.requests { WholeEvent(w.h.svc.requests[w.pc.ids[0]], w.pc.ids[0]); }
    hide EventOf;
  }

  lemma WholeEvent<K>(r: Request<K>, id: nat)
    ensures var event := EventOf(id, r, 0);
      event.id == id && event.tokens == r.pending && event.status == r.status &&
        (event.finished <==> Terminal(r.status))
  {
  }

  /** The pass dies exactly when it has to poll an id the service no longer has, or to call
      a callback that throws. */
  lemma {:induction false} PassDiesIffFatal<K>(d: Deployment<K>, w: World<K>, throws: set<nat>)
    requires WorldOk(w) && w.pc.Polling? && w.cancelling.None?
    ensures Over(Finish(d, w, throws).pc) <==> exists id :: id in w.pc.ids && Fatal(w, throws, id)
    decreases |w.pc.ids|
  {
    if w.pc.ids != [] {
      var q, rest := w.pc.ids[0], w.pc.ids[1..];
      assert q in w.pc.ids;
      HandleOneFatal(d, w, throws);
      if !Fatal(w, throws, q) {
        var next := HandleOne(d, w, throws);
        HandleOneKeepsOk(d, w, throws);
        hide HandleOne, WorldOk;
        forall id: nat | id != q ensures Fatal(next, throws, id) <==> Fatal(w, throws, id) {
          HandleOneEffect(d, w, throws, id);
        }
        hide Fatal;
        PassDiesIffFatal(d, next, throws);
        assert forall id :: id in w.pc.ids <==> id == q || id in rest;
      }
    }
  }

  lemma HandleOneKeepsOk<K>(d: Deployment<K>, w: World<K>, throws: set<nat>)
    requires WorldOk(w) && w.pc.Polling? && w.cancelling.None?
    requires w.pc.ids != [] && !Fatal(w, throws, w.pc.ids[0])
    ensures var next := HandleOne(d, w, throws);
      WorldOk(next) && next.pc == Polling(w.pc.ids[1..]) && next.cancelling.None? && w.pc.ids[0] !in w.pc.ids[1..]
  {
    HandleOneFatal(d, w, throws);
    assert w.pc.ids[0] !in w.pc.ids[1..];
    hide WorldOk, Observe, Fatal;
    var polled := PollNext(d, w);
    PollKeepsOk(d, w);
    if polled.pc.Delivering? {
      var throwing := polled.pc.event.id in throws;
      DeliverKeepsOk(polled, throwing);
      var delivered := Deliver(polled, throwing);
      if delivered.pc.Releasing? { LoopReleaseKeepsOk(d, delivered); }
    }
  }

  /** What handling one id does to the service and to the watchers. */
  lemma HandleOneEffect<K>(d: Deployment<K>, w: World<K>, throws: set<nat>, id: nat)
    requires Recorded(w.h) && w.pc.Polling? && w.pc.ids != [] && !Fatal(w, throws, w.pc.ids[0])
    ensures var next := HandleOne(d, w, throws); var q := w.pc.ids[0];
      && (id != q ==>
        && (id in next.h.svc.requests <==> id in w.h.svc.requests)
        && (id in w.h.svc.requests ==> next.h.svc.requests[id] == w.h.svc.requests[id])
        && (id in next.watchers <==> id in w.watchers)
        && (id in w.watchers ==> next.watchers[id] == w.watchers[id]))
      && (if Dead(w.h, q) && q in w.watchers then q !in next.h.svc.requests && q !in next.watchers
          else q in next.h.svc.requests && next.h.svc.requests[q] == w.h.svc.requests[q].(pending := []))
  {
    hide Live, QueuedIds;
    var q := w.pc.ids[0];
    var r := w.h.svc.requests[q];
    WholeEvent(r, q);
    assert r.pending[Taken(r, 0)..] == [];
    assert PollNext(d, w).h.svc.requests == w.h.svc.requests[q := r.(pending := [])];
  }

  predicate BatchKnown<K>(w: World<K>) {
    forall q :: q in Batch(w.pc) ==> q in w.h.svc.requests && q in w.watchers
  }

  /** No callback that the rest of the pass calls throws. */
  predicate BatchReturns<K>(w: World<K>, throws: set<nat>) {
    forall q :: q in Batch(w.pc) ==> !ThrowsFor(w, throws, q)
  }

  lemma KnownStaysKnown<K>(d: Deployment<K>, w: World<K>, throws: set<nat>)
    requires WorldOk(w) && w.pc.Polling? && w.cancelling.None? && w.pc.ids != [] && BatchKnown(w)
    requires BatchReturns(w, throws)
    ensures var next := HandleOne(d, w, throws);
      && WorldOk(next) && BatchKnown(next) && BatchReturns(next, throws)
      && next.pc == Polling(w.pc.ids[1..]) && next.cancelling.None?
    ensures w.pc.ids[0] !in w.pc.ids[1..] && forall q :: q in w.pc.ids <==> q == w.pc.ids[0] || q in w.pc.ids[1..]
    ensures !Fatal(w, throws, w.pc.ids[0])
  {
    assert w.pc.ids[0] in w.pc.ids;
    HandleOneKeepsOk(d, w, throws);
    var next := HandleOne(d, w, throws);
    hide WorldOk, HandleOne;
    forall q | q in w.pc.ids[1..]
      ensures q in next.h.svc.requests && q in next.watchers && !ThrowsFor(next, throws, q)
    {
      assert q in w.pc.ids && q != w.pc.ids[0];
      HandleOneEffect(d, w, throws, q);
    }
  }

  /** An undisturbed pass over known ids, whose callbacks return, empties every request it
      polls and removes the dead ones from both maps. */
  lemma {:induction false} PassDelivers<K>(d: Deployment<K>, w: World<K>, throws: set<nat>, id: nat)
    requires WorldOk(w) && w.pc.Polling? && w.cancelling.None?
    requires BatchKnown(w) && BatchReturns(w, throws)
    requires id in w.pc.ids
    ensures var w' := Finish(d, w, throws);
      && w'.pc.Idle?
      && (if Dead(w.h, id) then id !in w'.h.svc.requests && id !in w'.watchers
          else id in w'.h.svc.requests && w'.h.svc.requests[id].pending == [])
    decreases |w.pc.ids|
  {
    var next := HandleOne(d, w, throws);
    KnownStaysKnown(d, w, throws);
    HandleOneEffect(d, w, throws, id);
    hide HandleOne, WorldOk, Recorded, BatchKnown, BatchReturns;
    if w.pc.ids[0] == id {
      PassLeaves(d, next, throws, id);
    } else {
      PassDelivers(d, next, throws, id);
    }
  }

  lemma {:induction false} PassLeaves<K>(d: Deployment<K>, w: World<K>, throws: set<nat>, id: nat)
    requires WorldOk(w) && w.pc.Polling? && w.cancelling.None? && id !in w.pc.ids
    requires BatchKnown(w) && BatchReturns(w, throws)
    ensures var w' := Finish(d, w, throws);
      && w'.pc.Idle?
      && (id in w'.h.svc.requests <==> id in w.h.svc.requests)
      && (id in w.h.svc.requests ==> w'.h.svc.requests[id] == w.h.svc.requests[id])
      && (id in w'.watchers <==> id in w.watchers)
    decreases |w.pc.ids|
  {
    if w.pc.ids != [] {
      var next := HandleOne(d, w, throws);
      KnownStaysKnown(d, w, throws);
      HandleOneEffect(d, w, throws, id);
      hide HandleOne, WorldOk, Recorded, BatchKnown, BatchReturns;
      PassLeaves(d, next, throws, id);
    }
  }

  /** Cancelling a finished id that the pass has still to poll does end the loop. */
  lemma LateCancelEndsTheLoop<K>(d: Deployment<K>, w: World<K>, throws: set<nat>, id: nat)
    requires WorldOk(w) && w.pc.Polling? && w.cancelling.None? && id in w.pc.ids && Dead(w.h, id)
    ensures Orderly(w, CancelBegin(id)) == false
    ensures var w' := Do(d, Do(d, w, CancelBegin(id)), CancelEnd);
      w'.pc == w.pc && w'.cancelling.None? && Over(Finish(d, w', throws).pc)
  {
    var w1 := Do(d, w, CancelBegin(id));
    DoKeepsOk(d, w, CancelBegin(id));
    var w' := Do(d, w1, CancelEnd);
    DoKeepsOk(d, w1, CancelEnd);
    assert w1.h == w.h;
    assert id !in w'.h.svc.requests;
    PassDiesIffFatal(d, w', throws);
  }

  // ----- exactly when it ends

  /** Action `k` of the run polls an id that the service does not have. */
  predicate MissesAt<K>(d: Deployment<K>, w: World<K>, actions: seq<Action<K>>, k: nat) {
    k < |actions| && Misses(Play(d, w, actions[..k]), actions[k])
  }

  /** Action `k` of the run calls a callback that throws. */
  predicate ThrowsAt<K>(d: Deployment<K>, w: World<K>, actions: seq<Action<K>>, k: nat) {
    k < |actions| && Throws(Play(d, w, actions[..k]), actions[k]) && MutexFree(Play(d, w, actions[..k]))
  }

  predicate EndsAt<K>(d: Deployment<K>, w: World<K>, actions: seq<Action<K>>, k: nat) {
    MissesAt(d, w, actions, k) || ThrowsAt(d, w, actions, k)
  }

  lemma EndsLater<K>(d: Deployment<K>, w: World<K>, actions: seq<Action<K>>, k: nat)
    requires k + 1 < |actions|
    ensures var w' := if Enabled(w, actions[0]) then Do(d, w, actions[0]) else w;
      EndsAt(d, w, actions, k + 1) <==> EndsAt(d, w', actions[1..], k)
  {
    assert actions[..k + 1][1..] == actions[1..][..k];
    hide Enabled, Do, Misses, Throws;
  }

  lemma {:induction false} OverStays<K>(d: Deployment<K>, w: World<K>, actions: seq<Action<K>>)
    requires Over(w.pc)
    ensures Play(d, w, actions).pc == w.pc
    decreases |actions|
  {
    hide Observe, Release;
    if actions != [] { OverStays(d, if Enabled(w, actions[0]) then Do(d, w, actions[0]) else w, actions[1..]); }
  }

  /** Over any run in which nobody stops it the loop ends exactly when it polls an id that
      the service does not have or calls a callback that throws. */
  lemma {:induction false} LoopEndsIff<K>(d: Deployment<K>, w: World<K>, actions: seq<Action<K>>)
    requires w.running && !Over(w.pc) && forall i :: 0 <= i < |actions| ==> !actions[i].StopLoop?
    ensures Over(Play(d, w, actions).pc) <==>
      exists k: nat :: MissesAt(d, w, actions, k) || ThrowsAt(d, w, actions, k)
    decreases |actions|
  {
    LoopEndsIffEnds(d, w, actions);
    if k: nat :| EndsAt(d, w, actions, k) { assert MissesAt(d, w, actions, k) || ThrowsAt(d, w, actions, k); }
    if k: nat :| MissesAt(d, w, actions, k) || ThrowsAt(d, w, actions, k) { assert EndsAt(d, w, actions, k); }
    hide MissesAt, ThrowsAt, Play;
  }

  lemma {:induction false} LoopEndsIffEnds<K>(d: Deployment<K>, w: World<K>, actions: seq<Action<K>>)
    requires w.running && !Over(w.pc) && forall i :: 0 <= i < |actions| ==> !actions[i].StopLoop?
    ensures Over(Play(d, w, actions).pc) <==> exists k: nat :: EndsAt(d, w, actions, k)
    decreases |actions|
  {
    if actions != [] {
      var w' := if Enabled(w, actions[0]) then Do(d, w, actions[0]) else w;
      assert actions[..0] == [];
      NextEndsIff(d, w, actions[0]);
      assert EndsAt(d, w, actions, 0) <==> Over(w'.pc);
      hide Enabled, Do, Over, EndsAt;
      if EndsAt(d, w, actions, 0) {
        OverStays(d, w', actions[1..]);
      } else {
        LoopEndsIffEnds(d, w', actions[1..]);
        if k: nat :| EndsAt(d, w, actions, k) {
          EndsInRun(d, w, actions, k);
          EndsLater(d, w, actions, k - 1);
        }
        if k: nat :| EndsAt(d, w', actions[1..], k) {
          EndsInRun(d, w', actions[1..], k);
          EndsLater(d, w, actions, k);
        }
      }
    }
  }

  lemma EndsInRun<K>(d: Deployment<K>, w: World<K>, actions: seq<Action<K>>, k: nat)
    requires EndsAt(d, w, actions, k)
    ensures k < |actions|
  {
  }

  lemma NextEndsIff<K>(d: Deployment<K>, w: World<K>, a: Action<K>)
    requires w.running && !Over(w.pc) && !a.StopLoop?
    ensures var w' := if Enabled(w, a) then Do(d, w, a) else w;
      && (Over(w'.pc) <==> Misses(w, a) || (Throws(w, a) && MutexFree(w)))
      && (!Over(w'.pc) ==> w'.running)
  {
    hide Observe, Release, Cancel;
  }

  /** One client cancels a request twice, the second time after the pass has copied its id. */
  function TwoCancels<K>(input: GenerateRequest, tag: nat, weather: Weather<K>): seq<Action<K>> {
    [Direct(SubmitOp(input)), Watch(1, tag), CancelBegin(1), LoopStep(weather), LoopSnapshot([1]),
     CancelBegin(1), CancelEnd, LoopPoll]
  }

  lemma PlayNext<K>(d: Deployment<K>, w: World<K>, a: Action<K>, rest: seq<Action<K>>)
    requires Enabled(w, a)
    ensures Play(d, w, [a] + rest) == Play(d, Do(d, w, a), rest)
  {
    assert ([a] + rest)[1..] == rest;
    hide Enabled, Do;
  }

  lemma SubmitObserved<K>(d: Deployment<K>, h: History<K>, input: GenerateRequest)
    ensures Observe(d, h, SubmitOp(input)).svc == Submit(d, h.svc, input).0
  {
    hide Submit;
  }

  lemma CancelObserved<K>(d: Deployment<K>, h: History<K>, id: nat)
    ensures Observe(d, h, CancelOp(id)).svc == Cancel(h.svc, id).0
  {
    hide Cancel;
  }

  lemma FirstSubmission<K>(d: Deployment<K>, session: State<K>, input: GenerateRequest)
    requires Admit(d, input).None?
    ensures Submit(d, Initial(session).(running := true), input).0.requests
      == map[1 := Request(input, Queued, [], 0, NoReason, None)]
  {
    hide Live, QueuedIds, IsNext, Next;
  }

  lemma CancelQueued<K>(s: Service<K>)
    requires s.requests.Keys == {1} && s.requests[1].status.Queued?
    ensures Cancel(s, 1).1 && Cancel(s, 1).0.requests.Keys == {1} && Cancel(s, 1).0.requests[1].status.Cancelled?
  {
    hide Live, QueuedIds, IsNext, Next;
  }

  lemma SubmittedFirst<K>(d: Deployment<K>, session: State<K>, input: GenerateRequest)
    requires Admit(d, input).None?
    ensures var w := Do(d, Opening(session), Direct(SubmitOp(input)));
      && w.pc.Idle? && w.running && w.cancelling.None? && w.watchers == map[] && w.log == []
      && w.h.svc.requests.Keys == {1} && w.h.svc.requests[1].status.Queued?
  {
    hide Submit, Initial, Observe, Live, QueuedIds;
    FirstSubmission(d, session, input);
    SubmitObserved(d, Opening(session).h, input);
  }

  /** The first cancellation finds the request live and leaves it cancelled. */
  lemma CancelledWhileQueued<K>(d: Deployment<K>, w: World<K>)
    requires w.pc.Idle? && w.running && w.cancelling.None? && w.watchers.Keys == {1}
    requires w.h.svc.requests.Keys == {1} && w.h.svc.requests[1].status.Queued?
    ensures var w2 := Do(d, w, CancelBegin(1));
      && w2.pc.Idle? && w2.running && w2.cancelling.None? && w2.watchers == map[1 := Ignore]
      && w2.h.svc.requests.Keys == {1} && w2.h.svc.requests[1].status.Cancelled? && Live(w2.h.svc.requests) == {}
  {
    CancelQueued(w.h.svc);
    CancelObserved(d, w.h, 1);
    hide Cancel, Observe, Live;
    NoneLive(Cancel(w.h.svc, 1).0.requests);
  }

  lemma NoneLive<K>(requests: map<nat, Request<K>>)
    requires requests.Keys == {1} && requests[1].status.Cancelled?
    ensures Live(requests) == {}
  {
  }

  lemma IdleStep<K>(d: Deployment<K>, s: Service<K>, weather: Weather<K>)
    requires Live(s.requests) == {}
    ensures Step(d, s, weather).0 == s
  {
    hide Live;
  }

  lemma DeadReleased<K>(d: Deployment<K>, w: World<K>, id: nat)
    requires Dead(w.h, id)
    ensures id !in TryRelease(d, w, id).h.svc.requests && TryRelease(d, w, id).pc == w.pc
  {
    hide Live, QueuedIds;
  }

  lemma CancelledDead<K>(d: Deployment<K>, w: World<K>)
    requires w.pc == Polling([1]) && w.cancelling.None? && Dead(w.h, 1)
    ensures Enabled(w, CancelBegin(1)) && Enabled(Do(d, w, CancelBegin(1)), CancelEnd)
    ensures var w2 := Do(d, Do(d, w, CancelBegin(1)), CancelEnd);
      Enabled(w2, LoopPoll) && Do(d, w2, LoopPoll).pc.Ended?
  {
    DeadCancelled(d, w);
    var w1 := Do(d, w, CancelBegin(1));
    DeadReleased(d, w1, 1);
    hide TryRelease, BeginCancel;
  }

  lemma DeadCancelled<K>(d: Deployment<K>, w: World<K>)
    requires Dead(w.h, 1)
    ensures var w1 := BeginCancel(d, w, 1); w1.cancelling == Some(1) && w1.h == w.h && w1.pc == w.pc
  {
    CancelObserved(d, w.h, 1);
    hide Refresh, Live, QueuedIds;
  }

  /** A dead request that the pass has still to poll is cancelled: the poll ends the loop. */
  lemma CancelledInPass<K>(d: Deployment<K>, w: World<K>)
    requires w.pc == Polling([1]) && w.cancelling.None? && Dead(w.h, 1)
    ensures Play(d, w, [CancelBegin(1), CancelEnd, LoopPoll]).pc.Ended?
  {
    CancelledDead(d, w);
    hide Do, Live, Dead;
    var w1 := Do(d, w, CancelBegin(1));
    var w2 := Do(d, w1, CancelEnd);
    var last: seq<Action<K>> := [];
    PlayNext(d, w2, LoopPoll, last);
    PlayNext(d, w1, CancelEnd, [LoopPoll] + last);
    PlayNext(d, w, CancelBegin(1), [CancelEnd] + ([LoopPoll] + last));
    assert [CancelBegin(1)] + ([CancelEnd] + ([LoopPoll] + last)) == [CancelBegin(1), CancelEnd, LoopPoll];
  }

  /** The pass copies the id of a dead request, which is then cancelled again. */
  lemma CancelledAgain<K>(d: Deployment<K>, w: World<K>, weather: Weather<K>)
    requires w.pc.Idle? && w.running && w.cancelling.None? && w.watchers == map[1 := Ignore]
    requires w.h.svc.requests.Keys == {1} && w.h.svc.requests[1].status.Cancelled? && Live(w.h.svc.requests) == {}
    ensures Play(d, w, [LoopStep(weather), LoopSnapshot([1]), CancelBegin(1), CancelEnd, LoopPoll]).pc.Ended?
  {
    IdleStep(d, w.h.svc, weather);
    hide Step, Live;
    var w1 := Do(d, w, LoopStep(weather));
    assert w1.h == w.h;
    var w2 := Do(d, w1, LoopSnapshot([1]));
    CancelledInPass(d, w2);
    hide Do;
    var rest := [CancelBegin(1), CancelEnd, LoopPoll];
    PlayNext(d, w1, LoopSnapshot([1]), rest);
    PlayNext(d, w, LoopStep(weather), [LoopSnapshot([1])] + rest);
    assert [LoopStep(weather)] + ([LoopSnapshot([1])] + rest)
      == [LoopStep(weather), LoopSnapshot([1]), CancelBegin(1), CancelEnd, LoopPoll];
  }

  lemma WatchedFirst<K>(d: Deployment<K>, session: State<K>, input: GenerateRequest, tag: nat)
    requires Admit(d, input).None?
    ensures Enabled(Opening(session), Direct(SubmitOp(input)))
    ensures var w1 := Do(d, Opening(session), Direct(SubmitOp(input)));
      && Enabled(w1, Watch(1, tag))
      && var w2 := Do(d, w1, Watch(1, tag));
      && Enabled(w2, CancelBegin(1)) && w2.pc.Idle? && w2.running && w2.cancelling.None?
      && w2.watchers == map[1 := Client(tag)] && w2.log == []
      && w2.h.svc.requests.Keys == {1} && w2.h.svc.requests[1].status.Queued?
  {
    hide Opening, Observe, TryRelease, BeginCancel, PollNext, Deliver, Live, Admit;
    SubmittedFirst(d, session, input);
  }

  /** From construction on, that ends the loop of any deployment. */
  lemma TwoCancelsEndTheLoop<K>(d: Deployment<K>, session: State<K>, input: GenerateRequest, tag: nat,
                                weather: Weather<K>)
    requires Admit(d, input).None?
    ensures Play(d, Opening(session), TwoCancels(input, tag, weather)).pc.Ended?
  {
    hide *;
    var w0 := Opening(session);
    WatchedFirst(d, session, input, tag);
    var w1 := Do(d, w0, Direct(SubmitOp(input)));
    var w2 := Do(d, w1, Watch(1, tag));
    CancelledWhileQueued(d, w2);
    var rest := [LoopStep(weather), LoopSnapshot([1]), CancelBegin(1), CancelEnd, LoopPoll];
    CancelledAgain(d, Do(d, w2, CancelBegin(1)), weather);
    PlayNext(d, w2, CancelBegin(1), rest);
    PlayNext(d, w1, Watch(1, tag), [CancelBegin(1)] + rest);
    PlayNext(d, w0, Direct(SubmitOp(input)), [Watch(1, tag)] + ([CancelBegin(1)] + rest));
    TwoCancelsAre(input, tag, weather);
  }

  lemma TwoCancelsAre<K>(input: GenerateRequest, tag: nat, weather: Weather<K>)
    ensures TwoCancels(input, tag, weather) == [Direct(SubmitOp(input))] + ([Watch(1, tag)] + ([CancelBegin(1)]
      + [LoopStep(weather), LoopSnapshot([1]), CancelBegin(1), CancelEnd, LoopPoll]))
  {
  }

  /** A client's callback throws on the finished event of a request. */
  function ThrownEvent<K>(input: GenerateRequest, tag: nat, weather: Weather<K>): seq<Action<K>> {
    [Direct(SubmitOp(input)), Watch(1, tag), Direct(CancelOp(1)), LoopStep(weather), LoopSnapshot([1]),
     LoopPoll, LoopDeliver(true)]
  }

  lemma DirectlyCancelled<K>(d: Deployment<K>, w: World<K>)
    requires w.pc.Idle? && w.running && w.cancelling.None? && w.watchers.Keys == {1} && w.log == []
    requires w.h.svc.requests.Keys == {1} && w.h.svc.requests[1].status.Queued?
    ensures var w2 := Do(d, w, Direct(CancelOp(1)));
      && w2.pc.Idle? && w2.running && w2.cancelling.None? && w2.watchers == w.watchers && w2.log == []
      && w2.h.svc.requests.Keys == {1} && w2.h.svc.requests[1].status.Cancelled? && Live(w2.h.svc.requests) == {}
  {
    CancelQueued(w.h.svc);
    CancelObserved(d, w.h, 1);
    hide Cancel, Observe, Live;
    NoneLive(Cancel(w.h.svc, 1).0.requests);
  }

  lemma PolledFinished<K>(d: Deployment<K>, w: World<K>)
    requires w.pc == Polling([1]) && Dead(w.h, 1)
    ensures var w1 := PollNext(d, w);
      && w1.pc.Delivering? && w1.pc.event.id == 1 && w1.pc.event.finished && 1 in w1.h.svc.requests
      && w1.cancelling == w.cancelling && w1.watchers == w.watchers && w1.log == w.log
  {
    WholeEvent(w.h.svc.requests[1], 1);
    hide EventOf;
  }

  lemma ThrowsOnFinished<K>(d: Deployment<K>, w: World<K>, tag: nat)
    requires w.pc == Polling([1]) && w.cancelling.None? && Dead(w.h, 1) && w.watchers == map[1 := Client(tag)] &&
      w.log == []
    ensures Enabled(w, LoopPoll) && Enabled(Do(d, w, LoopPoll), LoopDeliver(true))
    ensures var w2 := Do(d, Do(d, w, LoopPoll), LoopDeliver(true));
      w2.pc == Threw(1) && 1 in w2.watchers && 1 in w2.h.svc.requests && FinishedCount(w2.log, 1) == 1
  {
    PolledFinished(d, w);
    hide PollNext, Dead;
    var w1 := Do(d, w, LoopPoll);
    LogGrows(w.log, Delivery(Client(tag), w1.pc.event), Ignore, 1);
  }

  lemma ThrownInPass<K>(d: Deployment<K>, w: World<K>, weather: Weather<K>, tag: nat)
    requires w.pc.Idle? && w.running && w.cancelling.None? && w.watchers == map[1 := Client(tag)] && w.log == []
    requires w.h.svc.requests.Keys == {1} && w.h.svc.requests[1].status.Cancelled? && Live(w.h.svc.requests) == {}
    ensures var w2 := Play(d, w, [LoopStep(weather), LoopSnapshot([1]), LoopPoll, LoopDeliver(true)]);
      w2.pc == Threw(1) && 1 in w2.watchers && 1 in w2.h.svc.requests && FinishedCount(w2.log, 1) == 1
  {
    IdleStep(d, w.h.svc, weather);
    hide Step, Live;
    var w1 := Do(d, w, LoopStep(weather));
    assert w1.h == w.h;
    var w2 := Do(d, w1, LoopSnapshot([1]));
    ThrowsOnFinished(d, w2, tag);
    var w3 := Do(d, w2, LoopPoll);
    hide Do, FinishedCount;
    var last: seq<Action<K>> := [];
    PlayNext(d, w3, LoopDeliver(true), last);
    PlayNext(d, w2, LoopPoll, [LoopDeliver(true)] + last);
    PlayNext(d, w1, LoopSnapshot([1]), [LoopPoll] + ([LoopDeliver(true)] + last));
    PlayNext(d, w, LoopStep(weather), [LoopSnapshot([1])] + ([LoopPoll] + ([LoopDeliver(true)] + last)));
    assert [LoopStep(weather)] + ([LoopSnapshot([1])] + ([LoopPoll] + ([LoopDeliver(true)] + last)))
      == [LoopStep(weather), LoopSnapshot([1]), LoopPoll, LoopDeliver(true)];
  }

  /** From construction on, that ends the loop of any deployment, and both maps keep the id. */
  lemma ThrownEventEndsTheLoop<K>(d: Deployment<K>, session: State<K>, input: GenerateRequest, tag: nat,
                                  weather: Weather<K>)
    requires Admit(d, input).None?
    ensures var w := Play(d, Opening(session), ThrownEvent(input, tag, weather));
      w.pc == Threw(1) && 1 in w.watchers && 1 in w.h.svc.requests && FinishedCount(w.log, 1) == 1
  {
    hide *;
    var w0 := Opening(session);
    WatchedFirst(d, session, input, tag);
    var w1 := Do(d, w0, Direct(SubmitOp(input)));
    var w2 := Do(d, w1, Watch(1, tag));
    DirectAllowed(w2, 1);
    DirectlyCancelled(d, w2);
    var rest := [LoopStep(weather), LoopSnapshot([1]), LoopPoll, LoopDeliver(true)];
    ThrownInPass(d, Do(d, w2, Direct(CancelOp(1))), weather, tag);
    PlayNext(d, w2, Direct(CancelOp(1)), rest);
    PlayNext(d, w1, Watch(1, tag), [Direct(CancelOp(1))] + rest);
    PlayNext(d, w0, Direct(SubmitOp(input)), [Watch(1, tag)] + ([Direct(CancelOp(1))] + rest));
    ThrownEventIs(input, tag, weather);
  }

  lemma DirectAllowed<K>(w: World<K>, id: nat)
    ensures Enabled(w, Direct(CancelOp(id)))
  {
  }

  lemma ThrownEventIs<K>(input: GenerateRequest, tag: nat, weather: Weather<K>)
    ensures ThrownEvent(input, tag, weather) == [Direct(SubmitOp(input))] + ([Watch(1, tag)] + ([Direct(CancelOp(1))]
      + [LoopStep(weather), LoopSnapshot([1]), LoopPoll, LoopDeliver(true)]))
  {
  }
}
