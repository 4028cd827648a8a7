/** Everything a client waits for arrives: once clients stop submitting, the loop delivers
    the finished event of every watched request within as many passes as there is work. */
module Liveness {
  import opened Dispatcher
  import opened MetalService
  import opened MetalSession
  import opened Options
  import opened PollingLoop
  import opened Scheduling
  import opened ServiceRefinement

  // ----- every world keeps the service's books

  lemma DoKeepsBooks<K>(d: Deployment<K>, w: World<K>, a: Action<K>)
    requires Enabled(w, a) && Books(w.h.svc)
    ensures Books(Do(d, w, a).h.svc)
  {
    match a
    case LoopStep(weather) => ApplyKeepsBooks(d, w.h.svc, StepOp(weather));
    case LoopPoll => if w.pc.ids != [] { ApplyKeepsBooks(d, w.h.svc, PollOp(w.pc.ids[0], 0)); }
    case LoopRelease => ApplyKeepsBooks(d, w.h.svc, ReleaseOp(w.pc.id));
    case CancelBegin(id) => ApplyKeepsBooks(d, w.h.svc, CancelOp(id));
    case CancelEnd => ApplyKeepsBooks(d, w.h.svc, ReleaseOp(w.cancelling.value));
    case Direct(op) => ApplyKeepsBooks(d, w.h.svc, op);
    case _ =>
    hide Books, Apply, Release, Cancel;
  }

  lemma {:induction false} PlayKeepsBooks<K>(d: Deployment<K>, w: World<K>, actions: seq<Action<K>>)
    requires Books(w.h.svc)
    ensures Books(Play(d, w, actions).h.svc)
    decreases |actions|
  {
    hide Books, Do, Enabled;
    if actions != [] {
      if Enabled(w, actions[0]) { DoKeepsBooks(d, w, actions[0]); }
      PlayKeepsBooks(d, if Enabled(w, actions[0]) then Do(d, w, actions[0]) else w, actions[1..]);
    }
  }

  lemma OpeningBooks<K>(session: State<K>)
    ensures Books(Opening(session).h.svc)
  {
    assert QueuedIds<K>(map[]) == {} && Live<K>(map[]) == {};
  }

  // ----- one pass

  /** The device's behaviour in the step of a pass, the order its watchers are polled in, and
      the ids whose callback throws. */
  datatype Pass<K> = Pass(weather: Weather<K>, order: seq<nat>, throws: set<nat>)

  predicate Ready<K>(w: World<K>, p: Pass<K>) {
    w.pc.Idle? && w.running && w.cancelling.None? && Enumerates(p.order, w.watchers.Keys)
  }

  /** A pass of the loop with no client in between. */
  function OnePass<K>(d: Deployment<K>, w: World<K>, p: Pass<K>): World<K>
    requires Ready(w, p)
  {
    Finish(d, Do(d, Do(d, w, LoopStep(p.weather)), LoopSnapshot(p.order)), p.throws)
  }

  /** No client acts between the passes, for as long as the loop runs. */
  predicate Undisturbed<K>(d: Deployment<K>, w: World<K>, passes: seq<Pass<K>>)
    decreases |passes|
  {
    passes == [] || Over(w.pc) || (Ready(w, passes[0]) && Undisturbed(d, OnePass(d, w, passes[0]), passes[1..]))
  }

  function AfterPasses<K>(d: Deployment<K>, w: World<K>, passes: seq<Pass<K>>): World<K>
    requires Undisturbed(d, w, passes)
    decreases |passes|
  {
    if passes == [] || Over(w.pc) then w else AfterPasses(d, OnePass(d, w, passes[0]), passes[1..])
  }

  function Remaining<K>(w: World<K>): nat { Work(w.h.svc.requests, w.h.svc.nextId) }

  /** Between `w` and `w2` the loop has only gone forward. */
  predicate Forward<K>(w: World<K>, w2: World<K>) {
    && w2.running == w.running && w2.cancelling == w.cancelling && (w.h.svc.running ==> w2.h.svc.running)
    && Remaining(w2) <= Remaining(w) && w.log <= w2.log
    && (forall id :: id in w2.h.svc.requests ==> id in w.h.svc.requests)
    && forall id :: id in w2.watchers ==> id in w.watchers && w2.watchers[id] == w.watchers[id]
  }

  /** The finished event of `id` has gone to `callback`, once, and nobody holds the id. */
  ghost predicate Served<K>(w: World<K>, id: nat, callback: Callback) {
    && id !in w.watchers && id !in w.h.svc.requests && FinishedCount(w.log, id) == 1
    && exists x :: x in w.log && x.callback == callback && x.event.id == id && x.event.finished
  }

  lemma {:induction false} CountGrows(log: seq<Delivery>, more: seq<Delivery>, id: nat)
    requires log <= more
    ensures FinishedCount(log, id) <= FinishedCount(more, id)
    decreases |more|
  {
    if |log| < |more| {
      assert log <= more[..|more| - 1];
      CountGrows(log, more[..|more| - 1], id);
    } else {
      assert log == more;
    }
  }

  lemma {:induction false} LoggedCounts(log: seq<Delivery>, x: Delivery)
    requires x in log && x.event.finished
    ensures FinishedCount(log, x.event.id) >= 1
  {
    var n := |log| - 1;
    if log[n] != x {
      assert x in log[..n];
      LoggedCounts(log[..n], x);
    }
  }

  ghost predicate Working<K>(w: World<K>, throws: set<nat>) {
    WorldOk(w) && Books(w.h.svc) && w.pc.Polling? && w.cancelling.None? && BatchKnown(w) && BatchReturns(w, throws)
  }

  lemma ReleaseForward<K>(d: Deployment<K>, w: World<K>, id: nat)
    requires Books(w.h.svc)
    ensures var w2 := TryRelease(d, w, id);
      && Books(w2.h.svc) && w2.h.svc.nextId == w.h.svc.nextId && (w.h.svc.running ==> w2.h.svc.running)
      && Work(w2.h.svc.requests, w.h.svc.nextId) <= Work(w.h.svc.requests, w.h.svc.nextId)
  {
    ApplyKeepsBooks(d, w.h.svc, ReleaseOp(id));
    QuietOpWork(d, w.h.svc, ReleaseOp(id));
    hide Books, Work, Apply, Live;
  }

  lemma PollForward<K>(d: Deployment<K>, w: World<K>)
    requires Books(w.h.svc) && w.pc.Polling? && w.pc.ids != [] && w.pc.ids[0] in w.h.svc.requests
    ensures var w2 := PollNext(d, w);
      && Books(w2.h.svc) && w2.h.svc.nextId == w.h.svc.nextId && (w.h.svc.running ==> w2.h.svc.running)
      && Work(w2.h.svc.requests, w.h.svc.nextId) <= Work(w.h.svc.requests, w.h.svc.nextId)
  {
    ApplyKeepsBooks(d, w.h.svc, PollOp(w.pc.ids[0], 0));
    QuietOpWork(d, w.h.svc, PollOp(w.pc.ids[0], 0));
    hide Books, Work, Apply, Live;
  }

  /** Handling one id brings no request back and ends none. */
  lemma HandleOneShrinks<K>(d: Deployment<K>, w: World<K>, throws: set<nat>)
    requires Recorded(w.h) && w.pc.Polling? && w.pc.ids != [] && !Fatal(w, throws, w.pc.ids[0])
    ensures var next := HandleOne(d, w, throws);
      && (forall id :: id in next.h.svc.requests ==> id in w.h.svc.requests)
      && forall id :: Dead(next.h, id) ==> Dead(w.h, id)
  {
    var next := HandleOne(d, w, throws);
    forall id: nat | id in next.h.svc.requests
      ensures id in w.h.svc.requests && (Dead(next.h, id) ==> Dead(w.h, id))
    {
      HandleOneEffect(d, w, throws, id);
    }
    hide HandleOne;
  }

  /** A dead request that is polled has its finished event handed to its watcher. */
  lemma HandleOneDelivers<K>(d: Deployment<K>, w: World<K>, throws: set<nat>)
    requires w.pc.Polling? && w.pc.ids != [] && Dead(w.h, w.pc.ids[0]) && w.pc.ids[0] in w.watchers
    requires !Fatal(w, throws, w.pc.ids[0])
    ensures var next := HandleOne(d, w, throws); var q := w.pc.ids[0];
      exists x :: x in next.log && x.callback == w.watchers[q] && x.event.id == q && x.event.finished
  {
    var q := w.pc.ids[0];
    var polled := PollNext(d, w);
    hide Observe, Release;
    assert polled.pc.Delivering? && polled.pc.event.id == q && polled.pc.event.finished;
    assert Deliver(polled, q in throws).log[|w.log|] == Delivery(w.watchers[q], polled.pc.event);
  }

  lemma HandleOneWorks<K>(d: Deployment<K>, w: World<K>, throws: set<nat>)
    requires Books(w.h.svc) && w.pc.Polling? && w.pc.ids != [] && !Fatal(w, throws, w.pc.ids[0])
    ensures var next := HandleOne(d, w, throws);
      && Books(next.h.svc) && (w.h.svc.running ==> next.h.svc.running) && Remaining(next) <= Remaining(w)
  {
    PollForward(d, w);
    var polled := PollNext(d, w);
    var delivered := if polled.pc.Delivering? then Deliver(polled, polled.pc.event.id in throws) else polled;
    if delivered.pc.Releasing? { ReleaseForward(d, delivered, delivered.pc.id); }
    hide Books, Work, PollNext, TryRelease;
  }

  /** The log only grows, and only a dead request loses its watcher. */
  lemma HandleOneWatches<K>(d: Deployment<K>, w: World<K>, throws: set<nat>)
    requires w.pc.Polling? && w.pc.ids != [] && !Fatal(w, throws, w.pc.ids[0])
    ensures var next := HandleOne(d, w, throws); var q := w.pc.ids[0];
      && w.log <= next.log && next.running == w.running && next.cancelling == w.cancelling
      && (forall id :: id in next.watchers ==> id in w.watchers && next.watchers[id] == w.watchers[id])
      && forall id :: id in w.watchers && !(id == q && Dead(w.h, q)) ==> id in next.watchers
  {
    hide Observe, Release;
  }

  lemma HandleOneForward<K>(d: Deployment<K>, w: World<K>, throws: set<nat>)
    requires Working(w, throws) && w.pc.ids != []
    ensures var next := HandleOne(d, w, throws); var q := w.pc.ids[0];
      && Working(next, throws) && next.pc == Polling(w.pc.ids[1..]) && Forward(w, next)
      && (Dead(w.h, q) ==> exists x ::
        x in next.log && x.callback == w.watchers[q] && x.event.id == q && x.event.finished)
      && (forall id :: id in w.watchers && !(id == q && Dead(w.h, q)) ==> id in next.watchers)
      && forall id :: Dead(next.h, id) ==> Dead(w.h, id)
  {
    assert w.pc.ids[0] in w.pc.ids;
    hide HandleOne, Books, Remaining, Dead;
    KnownStaysKnown(d, w, throws);
    HandleOneShrinks(d, w, throws);
    HandleOneWorks(d, w, throws);
    HandleOneWatches(d, w, throws);
    if Dead(w.h, w.pc.ids[0]) { HandleOneDelivers(d, w, throws); }
    hide WorldOk, BatchKnown, BatchReturns;
  }

  lemma ForwardTransitive<K>(a: World<K>, b: World<K>, c: World<K>)
    requires Forward(a, b) && Forward(b, c)
    ensures Forward(a, c)
  {
    hide Remaining;
  }

  lemma {:induction false} FinishForward<K>(d: Deployment<K>, w: World<K>, throws: set<nat>)
    requires Working(w, throws)
    ensures var w2 := Finish(d, w, throws); w2.pc.Idle? && WorldOk(w2) && Books(w2.h.svc) && Forward(w, w2)
    decreases |w.pc.ids|
  {
    hide WorldOk, Books, Forward, BatchKnown, BatchReturns, HandleOne;
    if w.pc.ids == [] {
      PollKeepsOk(d, w);
      NothingLeft(d, w, throws);
    } else {
      HandleOneForward(d, w, throws);
      FinishForward(d, HandleOne(d, w, throws), throws);
      ForwardTransitive(w, HandleOne(d, w, throws), Finish(d, w, throws));
    }
  }

  lemma NothingLeft<K>(d: Deployment<K>, w: World<K>, throws: set<nat>)
    requires w.pc.Polling? && w.pc.ids == []
    ensures Finish(d, w, throws) == HandleOne(d, w, throws) == PollNext(d, w) == w.(pc := Idle) &&
      Forward(w, w.(pc := Idle))
  {
  }

  /** A dead request in the batch has its finished event delivered to the watcher it has. */
  lemma {:induction false} FinishServes<K>(d: Deployment<K>, w: World<K>, throws: set<nat>, id: nat)
    requires Working(w, throws) && id in w.pc.ids && Dead(w.h, id) && id in w.watchers
    ensures exists x ::
      x in Finish(d, w, throws).log && x.callback == w.watchers[id] && x.event.id == id && x.event.finished
    decreases |w.pc.ids|
  {
    hide WorldOk, Books, BatchKnown, BatchReturns, Remaining, HandleOne;
    var q, next := w.pc.ids[0], HandleOne(d, w, throws);
    HandleOneForward(d, w, throws);
    FinishForward(d, next, throws);
    if id == q {
      var x :| x in next.log && x.callback == w.watchers[q] && x.event.id == q && x.event.finished;
      assert x in Finish(d, w, throws).log;
    } else {
      OtherStaysDead(d, w, throws, id);
      FinishServes(d, next, throws, id);
    }
  }

  lemma OtherStaysDead<K>(d: Deployment<K>, w: World<K>, throws: set<nat>, id: nat)
    requires Working(w, throws) && w.pc.ids != [] && id != w.pc.ids[0]
    ensures Dead(w.h, id) ==> Dead(HandleOne(d, w, throws).h, id)
  {
    assert w.pc.ids[0] in w.pc.ids;
    HandleOneEffect(d, w, throws, id);
    hide HandleOne, WorldOk, Books;
  }

  lemma {:induction false} FinishKeepsWatcher<K>(d: Deployment<K>, w: World<K>, throws: set<nat>, id: nat)
    requires Working(w, throws) && id in w.watchers && !Dead(w.h, id)
    ensures id in Finish(d, w, throws).watchers
    decreases |w.pc.ids|
  {
    hide WorldOk, Books, BatchKnown, BatchReturns, HandleOne, Dead;
    if w.pc.ids == [] {
      NothingLeft(d, w, throws);
    } else {
      HandleOneForward(d, w, throws);
      FinishKeepsWatcher(d, HandleOne(d, w, throws), throws, id);
    }
  }

  /** The loop is between passes, no client is inside a cancellation, and every watched id
      is submitted. */
  ghost predicate Resting<K>(w: World<K>) {
    && WorldOk(w) && Books(w.h.svc) && w.h.svc.running && w.running && w.pc.Idle? && w.cancelling.None?
    && forall id :: id in w.watchers ==> id in w.h.svc.requests
  }

  /** A scheduler step does some work, unless there is none, and keeps the ids it has. */
  lemma StepWorks<K>(d: Deployment<K>, h: History<K>, weather: Weather<K>)
    requires Recorded(h) && Books(h.svc) && h.svc.running
    ensures var h2 := Observe(d, h, StepOp(weather)); var n := h.svc.nextId;
      && Books(h2.svc) && h2.svc.running && h2.svc.nextId == n
      && (Live(h.svc.requests) != {} ==> Work(h2.svc.requests, n) < Work(h.svc.requests, n))
      && (Live(h.svc.requests) == {} ==> h2.svc == h.svc)
      && forall id :: id in h.svc.requests <==> id in h2.svc.requests
  {
    ApplyKeepsBooks(d, h.svc, StepOp(weather));
    StepDoesWork(d, h.svc, weather);
    hide Books, Work, Step, Live;
    var h2 := Observe(d, h, StepOp(weather));
    forall id: nat | true ensures id in h.svc.requests <==> id in h2.svc.requests {
      OpLeaves(d, h, StepOp(weather), id);
    }
  }

  lemma PassBegins<K>(d: Deployment<K>, w: World<K>, p: Pass<K>)
    requires Resting(w) && Ready(w, p)
    ensures var w1 := Do(d, Do(d, w, LoopStep(p.weather)), LoopSnapshot(p.order));
      && WorldOk(w1) && Books(w1.h.svc) && w1.pc == Polling(p.order) && w1.cancelling.None? && BatchKnown(w1)
      && Forward(w, w1) && w1.watchers == w.watchers
      && (Live(w.h.svc.requests) != {} ==> Remaining(w1) < Remaining(w))
      && (Live(w.h.svc.requests) == {} ==> w1.h.svc == w.h.svc)
  {
    var stepped := Do(d, w, LoopStep(p.weather));
    DoKeepsOk(d, w, LoopStep(p.weather));
    DoKeepsOk(d, stepped, LoopSnapshot(p.order));
    StepWorks(d, w.h, p.weather);
    hide WorldOk, Books, Work, Observe, Live;
  }

  /** A pass over known ids dies only of a callback that throws, and if it does not die none
      of its callbacks throws. */
  lemma PassThrows<K>(d: Deployment<K>, w: World<K>, throws: set<nat>)
    requires WorldOk(w) && w.pc.Polling? && w.cancelling.None? && BatchKnown(w)
    ensures !Finish(d, w, throws).pc.Ended?
    ensures !Over(Finish(d, w, throws).pc) ==> BatchReturns(w, throws)
  {
    PassDiesIffFatal(d, w, throws);
    NeverMisses(d, w, throws);
  }

  lemma {:induction false} NeverMisses<K>(d: Deployment<K>, w: World<K>, throws: set<nat>)
    requires WorldOk(w) && w.pc.Polling? && w.cancelling.None? && BatchKnown(w)
    ensures !Finish(d, w, throws).pc.Ended?
    decreases |w.pc.ids|
  {
    if w.pc.ids != [] {
      var q, next := w.pc.ids[0], HandleOne(d, w, throws);
      assert q in w.pc.ids;
      HeadEnds(d, w, throws);
      if !Fatal(w, throws, q) {
        HandleOneKeepsOk(d, w, throws);
        hide WorldOk, HandleOne, Fatal;
        forall p | p in w.pc.ids[1..] ensures p in next.h.svc.requests && p in next.watchers {
          assert p in w.pc.ids && p != q;
          HandleOneEffect(d, w, throws, p);
        }
        NeverMisses(d, next, throws);
      }
    }
  }

  lemma HeadEnds<K>(d: Deployment<K>, w: World<K>, throws: set<nat>)
    requires w.pc.Polling? && w.pc.ids != [] && w.pc.ids[0] in w.h.svc.requests
    ensures !HandleOne(d, w, throws).pc.Ended?
    ensures Over(HandleOne(d, w, throws).pc) <==> Fatal(w, throws, w.pc.ids[0])
  {
    HandleOneFatal(d, w, throws);
    hide Fatal, Observe, Release, EventOf;
  }

  /** What the rest of a pass does for one watched id of its batch. */
  lemma ServeOne<K>(d: Deployment<K>, w: World<K>, throws: set<nat>, id: nat)
    requires Working(w, throws) && id in w.pc.ids && id in w.watchers
    ensures var w2 := Finish(d, w, throws);
      if Dead(w.h, id) then Served(w2, id, w.watchers[id]) else id in w2.watchers && id in w2.h.svc.requests
  {
    var w2 := Finish(d, w, throws);
    PassDelivers(d, w, throws, id);
    FinishForward(d, w, throws);
    if Dead(w.h, id) {
      FinishServes(d, w, throws, id);
      var x :| x in w2.log && x.callback == w.watchers[id] && x.event.id == id && x.event.finished;
      LoggedCounts(w2.log, x);
      assert IdOk(w2, id);
    } else {
      FinishKeepsWatcher(d, w, throws, id);
    }
    hide Finish, Books, Remaining, Forward, BatchKnown, BatchReturns, IdOk;
  }

  /** After a pass that did not die every watcher has been served, or still watches while
      there was work. */
  lemma PassServes<K>(d: Deployment<K>, w: World<K>, p: Pass<K>)
    requires Resting(w) && Ready(w, p)
    ensures var w2 := OnePass(d, w, p);
      && !w2.pc.Ended?
      && (!w2.pc.Threw? ==>
        && Resting(w2) && Forward(w, w2)
        && (Live(w.h.svc.requests) != {} ==> Remaining(w2) < Remaining(w))
        && forall id :: id in w.watchers ==>
          Served(w2, id, w.watchers[id]) || (id in w2.watchers && Live(w.h.svc.requests) != {}))
  {
    var w1 := Do(d, Do(d, w, LoopStep(p.weather)), LoopSnapshot(p.order));
    var w2 := OnePass(d, w, p);
    PassBegins(d, w, p);
    PassThrows(d, w1, p.throws);
    if !Over(w2.pc) {
      FinishForward(d, w1, p.throws);
      ForwardTransitive(w, w1, w2);
      hide Do, Books, WorldOk, Remaining, Finish, Live, BatchKnown, BatchReturns;
      forall id | id in w.watchers
        ensures Served(w2, id, w.watchers[id])
          || (id in w2.watchers && id in w2.h.svc.requests && Live(w.h.svc.requests) != {})
      {
        ServeOne(d, w1, p.throws, id);
        if Live(w.h.svc.requests) == {} { IdleIsDead(w, id); }
      }
    }
    hide Do, Books, WorldOk, Remaining, Finish, Live, BatchKnown, BatchReturns;
  }

  lemma IdleIsDead<K>(w: World<K>, id: nat)
    requires id in w.h.svc.requests && Live(w.h.svc.requests) == {}
    ensures Dead(w.h, id)
  {
    assert id !in Live(w.h.svc.requests);
  }

  lemma {:induction false} ServedStays<K>(d: Deployment<K>, w: World<K>, passes: seq<Pass<K>>, id: nat,
                                          callback: Callback)
    requires Resting(w) && Undisturbed(d, w, passes) && Served(w, id, callback)
    ensures AfterPasses(d, w, passes).pc.Threw? || Served(AfterPasses(d, w, passes), id, callback)
    decreases |passes|
  {
    if passes != [] {
      var w2 := OnePass(d, w, passes[0]);
      PassServes(d, w, passes[0]);
      if !Over(w2.pc) {
        CountGrows(w.log, w2.log, id);
        assert IdOk(w2, id);
        var x :| x in w.log && x.callback == callback && x.event.id == id && x.event.finished;
        assert x in w2.log;
        hide OnePass, Books, Work, WorldOk, Remaining;
        ServedStays(d, w2, passes[1..], id, callback);
      }
    }
  }

  lemma {:induction false} ServedWithinWork<K>(d: Deployment<K>, w: World<K>, passes: seq<Pass<K>>, id: nat)
    requires Resting(w) && Undisturbed(d, w, passes) && |passes| > Remaining(w) && id in w.watchers
    ensures AfterPasses(d, w, passes).pc.Threw? || Served(AfterPasses(d, w, passes), id, w.watchers[id])
    decreases |passes|
  {
    hide OnePass, Books, Work, WorldOk, Served, Ready, Live;
    var w2 := OnePass(d, w, passes[0]);
    PassServes(d, w, passes[0]);
    if !Over(w2.pc) {
      if Served(w2, id, w.watchers[id]) {
        ServedStays(d, w2, passes[1..], id, w.watchers[id]);
      } else {
        ServedWithinWork(d, w2, passes[1..], id);
      }
    }
  }

  /** In any history that leaves the loop between passes, with both threads running and only
      submitted ids watched: after one pass more than the service has work, with no client in
      between, every callback registered has had the finished event of its request, exactly
      once, and neither map holds the id, whatever the device does, unless a callback threw
      and ended the loop. */
  lemma EveryWatcherIsServed<K>(d: Deployment<K>, session: State<K>, past: seq<Action<K>>, passes: seq<Pass<K>>,
                                id: nat)
    requires var w := Play(d, Opening(session), past);
      && w.pc.Idle? && w.running && w.h.svc.running && w.cancelling.None?
      && (forall q :: q in w.watchers ==> q in w.h.svc.requests)
      && Undisturbed(d, w, passes) && |passes| > Remaining(w) && id in w.watchers
    ensures var w := Play(d, Opening(session), past); var w2 := AfterPasses(d, w, passes);
      w2.pc.Threw? || Served(w2, id, w.watchers[id])
  {
    OpeningOk(session);
    PlayKeepsOk(d, Opening(session), past);
    OpeningBooks(session);
    PlayKeepsBooks(d, Opening(session), past);
    hide WorldOk, Books, Play, Opening, Remaining, Served;
    ServedWithinWork(d, Play(d, Opening(session), past), passes, id);
  }
}
