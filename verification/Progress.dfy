/** Every watch is answered, whatever other clients do meanwhile: total correctness of the
    delivery over every interleaving, bounded in passes of the loop. */
module Progress {
  import opened Dispatcher
  import opened Guarantees
  import opened Liveness
  import opened MetalService
  import opened MetalSession
  import opened Options
  import opened PollingLoop
  import opened Scheduling
  import opened ServiceRefinement

  /** The action leaves `id` to the dispatcher and stops neither thread. */
  predicate Lets<K>(a: Action<K>, id: nat) {
    LeavesAlone(a, id) && !a.StopLoop? && (a.Direct? ==> !a.op.StopOp?)
  }

  /** The work that a submission can add. */
  function Brings<K>(a: Action<K>): nat {
    if a.Direct? && a.op.SubmitOp? then 1 + a.op.input.maxOutput else 0
  }

  function Arrivals<K>(actions: seq<Action<K>>): nat {
    if actions == [] then 0 else Brings(actions[0]) + Arrivals(actions[1..])
  }

  predicate AllLet<K>(actions: seq<Action<K>>, id: nat) {
    forall i :: 0 <= i < |actions| ==> Lets(actions[i], id)
  }

  /** The passes that the loop begins in a run. */
  function PassesBegun<K>(d: Deployment<K>, w: World<K>, actions: seq<Action<K>>): nat
    decreases |actions|
  {
    if actions == [] then 0
    else
      var ran := Enabled(w, actions[0]);
      (if ran && actions[0].LoopStep? then 1 else 0)
      + PassesBegun(d, if ran then Do(d, w, actions[0]) else w, actions[1..])
  }

  /** The finished event of `id` is in flight, or the pass under way will still poll it. */
  predicate Coming<K>(w: World<K>, id: nat) {
    w.pc.Stepped? || id in Batch(w.pc) || (w.pc.Delivering? && w.pc.event.id == id && w.pc.event.finished)
  }

  /** The passes that can still begin before the finished event of `id` is delivered. */
  function Due<K>(w: World<K>, id: nat): nat {
    if FinishedCount(w.log, id) > 0 then 0
    else if !Dead(w.h, id) then Remaining(w) + 1
    else if Coming(w, id) then 0 else 1
  }

  /** Watched, running and not yet answered. */
  ghost predicate Waiting<K(!new)>(d: Deployment<K>, w: World<K>, id: nat, tag: nat) {
    && Trusted(d, w) && InHand(d, w, id, tag) && Books(w.h.svc) && w.h.svc.running
    && !Over(w.pc) && w.running
  }

  /** A client's operation on other requests, or a cancellation of this one. */
  lemma QuietOp<K>(d: Deployment<K>, h: History<K>, op: Op<K>, id: nat)
    requires Recorded(h) && Books(h.svc) && h.svc.running && id in h.svc.requests
    requires !op.SubmitOp? && !op.StopOp? && !op.StepOp? && !Releases(op, id)
    ensures var h2 := Observe(d, h, op); var n := h.svc.nextId;
      && h2.svc.running && h2.svc.nextId == n && Work(h2.svc.requests, n) <= Work(h.svc.requests, n)
      && id in h2.svc.requests && (Dead(h, id) ==> Dead(h2, id))
  {
    ApplyKeepsBooks(d, h.svc, op);
    QuietOpWork(d, h.svc, op);
    OpLeaves(d, h, op, id);
    hide Books, Work, Live, Apply;
  }

  lemma SubmitWork<K>(d: Deployment<K>, h: History<K>, input: GenerateRequest, id: nat)
    requires Recorded(h) && Books(h.svc) && h.svc.running && id in h.svc.requests
    ensures var h2 := Observe(d, h, SubmitOp(input));
      && h2.svc.running && Work(h2.svc.requests, h2.svc.nextId)
        <= Work(h.svc.requests, h.svc.nextId) + 1 + input.maxOutput
      && id in h2.svc.requests && (Dead(h, id) ==> Dead(h2, id))
  {
    OpLeaves(d, h, SubmitOp(input), id);
    SubmitObserved(d, h, input);
    SubmitAddsWork(d, h.svc, input);
    hide Observe, Submit, Books, Work;
  }

  lemma SubmitAddsWork<K>(d: Deployment<K>, s: Service<K>, input: GenerateRequest)
    requires Books(s)
    ensures var s2 := Submit(d, s, input).0;
      s2.running == s.running && Work(s2.requests, s2.nextId) <= Work(s.requests, s.nextId) + 1 + input.maxOutput
  {
    hide Live, QueuedIds, IsNext, Conserved;
    if Admit(d, input).None? {
      var n, s2 := s.nextId, Submit(d, s, input).0;
      assert n !in s.requests && s2.nextId == n + 1;
      assert s2.requests == s.requests[n := Request(input, Queued, [], 0, NoReason, None)];
      hide Submit, Books, Admit;
      WorkChanges(s.requests, s2.requests, n, n + 1);
    }
  }

  lemma QuietRelease<K>(d: Deployment<K>, w: World<K>, q: nat, id: nat)
    requires Recorded(w.h) && Books(w.h.svc) && w.h.svc.running && id in w.h.svc.requests && q != id
    ensures var w2 := TryRelease(d, w, q);
      && w2.h.svc.running && w2.h.svc.nextId == w.h.svc.nextId && Remaining(w2) <= Remaining(w)
      && id in w2.h.svc.requests && (Dead(w.h, id) ==> Dead(w2.h, id)) && w2.pc == w.pc && w2.log == w.log
  {
    QuietOp(d, w.h, ReleaseOp(q), id);
    hide Books, Work, Observe, Dead;
  }

  lemma StepDue<K>(d: Deployment<K>, w: World<K>, weather: Weather<K>, id: nat)
    requires Recorded(w.h) && Books(w.h.svc) && w.h.svc.running && w.running && w.pc.Idle?
    requires id in w.h.svc.requests && FinishedCount(w.log, id) == 0
    ensures var w2 := Do(d, w, LoopStep(weather)); w2.h.svc.running && Due(w2, id) < Due(w, id)
  {
    StepWorks(d, w.h, weather);
    if !Dead(w.h, id) { assert id in Live(w.h.svc.requests); }
    OpLeaves(d, w.h, StepOp(weather), id);
    hide Books, Work, Observe, Live;
  }

  lemma PollDue<K>(d: Deployment<K>, w: World<K>, id: nat)
    requires Recorded(w.h) && Books(w.h.svc) && w.h.svc.running && w.pc.Polling?
    requires id in w.h.svc.requests && FinishedCount(w.log, id) == 0
    ensures var w2 := PollNext(d, w); w2.h.svc.running && (Over(w2.pc) || Due(w2, id) <= Due(w, id))
  {
    if w.pc.ids != [] && w.pc.ids[0] in w.h.svc.requests {
      QuietOp(d, w.h, PollOp(w.pc.ids[0], 0), id);
      WholeEvent(w.h.svc.requests[w.pc.ids[0]], w.pc.ids[0]);
      assert forall q :: q in w.pc.ids <==> q == w.pc.ids[0] || q in w.pc.ids[1..];
    }
    hide Books, Work, Observe, EventOf;
  }

  lemma DeliverCounts<K>(w: World<K>, throws: bool, id: nat)
    requires w.pc.Delivering? && id in w.watchers && FinishedCount(w.log, id) == 0
    ensures var w2 := Deliver(w, throws);
      FinishedCount(w2.log, id) == if w.pc.event.id == id && w.pc.event.finished then 1 else 0
  {
    var event := w.pc.event;
    if event.id in w.watchers { LogGrows(w.log, Delivery(w.watchers[event.id], event), Ignore, id); }
    hide FinishedCount, Received;
  }

  lemma DeliverMoves<K>(w: World<K>, throws: bool)
    requires w.pc.Delivering?
    ensures var w2 := Deliver(w, throws);
      w2.h == w.h && (Over(w2.pc) || (Batch(w2.pc) == w.pc.rest && !w2.pc.Stepped? && !w2.pc.Delivering?))
  {
  }

  lemma DeliverDue<K>(w: World<K>, throws: bool, id: nat)
    requires w.pc.Delivering? && id in w.watchers && FinishedCount(w.log, id) == 0
    ensures var w2 := Deliver(w, throws); w2.h == w.h && (Over(w2.pc) || Due(w2, id) <= Due(w, id))
  {
    DeliverCounts(w, throws, id);
    DeliverMoves(w, throws);
    hide FinishedCount, Remaining, Dead, Deliver, Over;
  }

  /** Every action leaves less or as much to wait for, and a new pass less. */
  lemma DoDue<K(!new)>(d: Deployment<K>, w: World<K>, a: Action<K>, id: nat, tag: nat)
    requires Waiting(d, w, id, tag) && Enabled(w, a) && Lets(a, id) && FinishedCount(w.log, id) == 0
    ensures var w2 := Do(d, w, a);
      w2.h.svc.running && (Over(w2.pc) || Due(w2, id) + (if a.LoopStep? then 1 else 0) <= Due(w, id) + Brings(a))
  {
    hide Faithful, Books, Due, Remaining;
    match a
    case LoopStep(weather) => StepDue(d, w, weather, id);
    case LoopPoll => PollDue(d, w, id);
    case LoopDeliver(throws) => DeliverDue(w, throws, id);
    case _ => OtherDue(d, w, a, id);
  }

  /** Where the request and the position of the loop do not change for the better, what is
      due is up to the work. */
  lemma DueFollows<K>(w: World<K>, w2: World<K>, id: nat, more: nat)
    requires w2.log == w.log && Remaining(w2) <= Remaining(w) + more && (Dead(w.h, id) ==> Dead(w2.h, id))
    requires Coming(w, id) ==> Coming(w2, id)
    ensures Due(w2, id) <= Due(w, id) + more
  {
    hide FinishedCount, Remaining, Dead, Coming;
  }

  lemma OtherDue<K>(d: Deployment<K>, w: World<K>, a: Action<K>, id: nat)
    requires Recorded(w.h) && PcOk(w) && Books(w.h.svc) && w.h.svc.running
    requires id in w.h.svc.requests && id in w.watchers && w.cancelling != Some(id) && FinishedCount(w.log, id) == 0
    requires Enabled(w, a) && Lets(a, id) && !a.LoopStep? && !a.LoopPoll? && !a.LoopDeliver?
    ensures var w2 := Do(d, w, a); w2.h.svc.running && Due(w2, id) <= Due(w, id) + Brings(a)
  {
    hide Due, Books, Work, Observe, TryRelease, FinishedCount, Dead, Cancel;
    match a {
      case LoopRelease =>
        assert w.pc.id != id;
        QuietRelease(d, w, w.pc.id, id);
      case CancelBegin(q) => QuietOp(d, w.h, CancelOp(q), id);
      case CancelEnd => QuietRelease(d, w, w.cancelling.value, id);
      case Direct(op) => DirectFacts(d, w, op, id);
      case _ =>
    }
    DueFollows(w, Do(d, w, a), id, Brings(a));
  }

  lemma DirectFacts<K>(d: Deployment<K>, w: World<K>, op: Op<K>, id: nat)
    requires Recorded(w.h) && Books(w.h.svc) && w.h.svc.running && id in w.h.svc.requests
    requires !op.StepOp? && !op.StopOp? && !Releases(op, id)
    ensures var w2 := Do(d, w, Direct(op));
      && w2.h.svc.running && Remaining(w2) <= Remaining(w) + Brings(Direct(op)) && (Dead(w.h, id) ==> Dead(w2.h, id))
      && w2.pc == w.pc && w2.log == w.log
  {
    hide Books, Work, Observe, TryRelease, Dead;
    if op.ReleaseOp? {
      QuietRelease(d, w, op.id, id);
    } else if op.SubmitOp? {
      SubmitWork(d, w.h, op.input, id);
    } else {
      QuietOp(d, w.h, op, id);
    }
  }

  lemma DoKeepsWaiting<K(!new)>(d: Deployment<K>, w: World<K>, a: Action<K>, id: nat, tag: nat)
    requires Sound(d) && Waiting(d, w, id, tag) && Enabled(w, a) && Lets(a, id)
    requires Do(d, w, a).h.svc.running
    ensures Over(Do(d, w, a).pc) || Waiting(d, Do(d, w, a), id, tag)
  {
    DoKeepsTrusted(d, w, a);
    DoKeepsInHand(d, w, a, id, tag);
    DoKeepsBooks(d, w, a);
    NextEndsIff(d, w, a);
    hide Trusted, InHand, Books, Do, Enabled, Misses, Throws;
  }

  lemma {:induction false} AnsweredStays<K>(d: Deployment<K>, w: World<K>, actions: seq<Action<K>>, id: nat)
    requires WorldOk(w) && FinishedCount(w.log, id) == 1
    ensures FinishedCount(Play(d, w, actions).log, id) == 1
  {
    PlayKeepsOk(d, w, actions);
    LogOnlyGrows(d, w, actions);
    CountGrows(w.log, Play(d, w, actions).log, id);
    assert IdOk(Play(d, w, actions), id);
  }

  lemma {:induction false} LogOnlyGrows<K>(d: Deployment<K>, w: World<K>, actions: seq<Action<K>>)
    ensures w.log <= Play(d, w, actions).log
    decreases |actions|
  {
    hide Observe, Release, Cancel;
    if actions != [] { LogOnlyGrows(d, if Enabled(w, actions[0]) then Do(d, w, actions[0]) else w, actions[1..]); }
  }

  /** Within as many passes as are due the finished event is delivered, or the loop is over. */
  lemma {:induction false} AnsweredWhenDue<K(!new)>(d: Deployment<K>, w: World<K>, actions: seq<Action<K>>, id: nat,
                                                    tag: nat)
    requires Sound(d) && Waiting(d, w, id, tag) && AllLet(actions, id)
    requires PassesBegun(d, w, actions) > Due(w, id) + Arrivals(actions)
    ensures Over(Play(d, w, actions).pc) || FinishedCount(Play(d, w, actions).log, id) == 1
    decreases |actions|
  {
    if FinishedCount(w.log, id) == 1 {
      AnsweredStays(d, w, actions, id);
    } else {
      assert IdOk(w, id);
      hide WorldOk, Trusted, InHand, Waiting, Do, Enabled, Lets, Due, Brings;
      var w2 := if Enabled(w, actions[0]) then Do(d, w, actions[0]) else w;
      assert AllLet(actions[1..], id);
      if Enabled(w, actions[0]) {
        DoDue(d, w, actions[0], id, tag);
        DoKeepsWaiting(d, w, actions[0], id, tag);
      }
      if Over(w2.pc) { OverStays(d, w2, actions[1..]); } else { AnsweredWhenDue(d, w2, actions[1..], id, tag); }
    }
  }

  /** A new callback watches a submitted request that nobody polled yet, both threads run, and
      clients go on doing anything but touching this id or stopping a thread.  Once the loop
      has begun more passes than the service had work and was brought work meanwhile, plus
      one, the callback has had the finished event with everything the request generates
      alone, or the loop is over because some callback threw or some polled id was missing. */
  lemma EveryWatchIsAnswered<K(!new)>(d: Deployment<K>, session: State<K>, past: seq<Action<K>>, id: nat, tag: nat,
                                      actions: seq<Action<K>>)
    requires Sound(d) && AllLet(actions, id)
    requires var w := Play(d, Opening(session), past);
      && Enabled(w, Watch(id, tag)) && id in w.h.svc.requests && Polled(w.h, id) == [] && FinishedCount(w.log, id) == 0
      && (forall x :: x in w.log ==> x.callback != Client(tag))
      && !Over(w.pc) && w.running && w.h.svc.running
      && PassesBegun(d, Do(d, w, Watch(id, tag)), actions) > Remaining(w) + 1 + Arrivals(actions)
    ensures var w := Play(d, Do(d, Play(d, Opening(session), past), Watch(id, tag)), actions);
      || Over(w.pc)
      || (FinishedCount(w.log, id) == 1 && LetGo(w, id, tag)
          && id in w.h.polled && Received(w.log, Client(tag), id) == w.h.polled[id]
          && exists x :: FinalEvent(d, w, id, tag, x))
  {
    WatchPutsInHand(d, session, past, id, tag);
    OpeningBooks(session);
    PlayKeepsBooks(d, Opening(session), past);
    var w0 := Play(d, Opening(session), past);
    var w1 := Do(d, w0, Watch(id, tag));
    WatchChanges(d, w0, id, tag);
    hide Play, Opening, Do, Trusted, InHand, Books, Sound;
    AnsweredWhenDue(d, w1, actions, id, tag);
    LeftAlone(actions, id);
    PlayKeepsInHand(d, w1, actions, id, tag);
    InHandMeans(d, Play(d, w1, actions), id, tag);
  }

  lemma WatchChanges<K>(d: Deployment<K>, w: World<K>, id: nat, tag: nat)
    requires Enabled(w, Watch(id, tag))
    ensures var w2 := Do(d, w, Watch(id, tag));
      w2.h == w.h && w2.pc == w.pc && w2.running == w.running && w2.log == w.log && Due(w2, id) <= Remaining(w) + 1
  {
  }

  lemma LeftAlone<K>(actions: seq<Action<K>>, id: nat)
    requires AllLet(actions, id)
    ensures AllLeaveAlone(actions, id)
  {
  }
}
