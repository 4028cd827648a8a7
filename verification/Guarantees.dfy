/** What clients of the dispatcher can rely on: complete delivery to a watcher, silence
    after a cancellation, and exactly when the polling loop survives. */
module Guarantees {
  import opened Options
  import opened MetalSession
  import opened MetalService
  import opened ServiceRefinement
  import opened Dispatcher

  // ----- end-to-end delivery

  /** The action does not unwatch, rewatch, cancel, poll or release `id`. */
  predicate LeavesAlone<K>(a: Action<K>, id: nat) {
    match a
    case Watch(q, _) => q != id
    case Unwatch(q) => q != id
    case CancelBegin(q) => q != id
    case Direct(op) => !Polls(op, id) && !Releases(op, id)
    case _ => true
  }

  predicate AllLeaveAlone<K>(actions: seq<Action<K>>, id: nat) {
    forall i :: 0 <= i < |actions| ==> LeavesAlone(actions[i], id)
  }

  /** What a request finished with is everything it would generate alone. */
  ghost predicate Complete<K>(e: Engine<K>, input: GenerateRequest, tokens: seq<Token>) {
    FinishesAt(e, input, |tokens|) && SoloRun(e, input, |tokens|).value.tokens == tokens
  }

  ghost predicate FinalEvent<K>(d: Deployment<K>, w: World<K>, id: nat, tag: nat, x: Delivery) {
    && x in w.log && x.callback == Client(tag) && x.event.id == id && x.event.finished
    && id in w.h.inputs
    && (x.event.status.Finished? ==> Complete(d.engine, w.h.inputs[id], Received(w.log, Client(tag), id)))
  }

  /** `id` is in the hands of the watcher `tag`: it has received all that was polled but
      for the event in flight, and if it has seen the finished event it has received all
      there was and the dispatcher has let go of the id, unless the watcher threw. */
  ghost predicate InHand<K>(d: Deployment<K>, w: World<K>, id: nat, tag: nat) {
    && id in w.h.polled && w.cancelling != Some(id)
    && Received(w.log, Client(tag), id) + InFlight(w.pc, id) == w.h.polled[id]
    && (FinishedCount(w.log, id) == 0 ==>
      id in w.watchers && w.watchers[id] == Client(tag) && id in w.h.svc.requests)
    && (FinishedCount(w.log, id) == 1 ==>
      && LetGo(w, id, tag)
      && (id in w.h.svc.requests ==> Spent(w.h, id))
      && exists x :: FinalEvent(d, w, id, tag, x))
  }

  /** The id is no longer watched; only where its callback threw do both maps still hold it. */
  predicate LetGo<K>(w: World<K>, id: nat, tag: nat) {
    if w.pc == Threw(id) then id in w.watchers && w.watchers[id] == Client(tag) && id in w.h.svc.requests
    else id !in w.watchers
  }

  ghost predicate Trusted<K(!new)>(d: Deployment<K>, w: World<K>) {
    WorldOk(w) && Faithful(d, w.h)
  }

  lemma DoKeepsTrusted<K(!new)>(d: Deployment<K>, w: World<K>, a: Action<K>)
    requires Sound(d) && Trusted(d, w) && Enabled(w, a)
    ensures Trusted(d, Do(d, w, a))
  {
    DoKeepsOk(d, w, a);
    hide WorldOk, Faithful, Observe, Sound;
    match a
    case LoopStep(weather) => ObserveKeepsFaithful(d, w.h, StepOp(weather));
    case LoopPoll => if w.pc.ids != [] { ObserveKeepsFaithful(d, w.h, PollOp(w.pc.ids[0], 0)); }
    case LoopRelease => ObserveKeepsFaithful(d, w.h, ReleaseOp(w.pc.id));
    case CancelBegin(id) => ObserveKeepsFaithful(d, w.h, CancelOp(id));
    case CancelEnd => ObserveKeepsFaithful(d, w.h, ReleaseOp(w.cancelling.value));
    case Direct(op) => ObserveKeepsFaithful(d, w.h, op);
    case _ =>
  }

  /** A service operation that does not poll or release `id`. */
  lemma ServiceOpKeepsInHand<K(!new)>(d: Deployment<K>, w: World<K>, op: Op<K>, id: nat, tag: nat)
    requires WorldOk(w) && InHand(d, w, id, tag) && !Polls(op, id) && !Releases(op, id)
    ensures InHand(d, w.(h := Observe(d, w.h, op)), id, tag)
  {
    var w' := w.(h := Observe(d, w.h, op));
    OpLeaves(d, w.h, op, id);
    assert IdOk(w, id);
    hide Observe;
    if FinishedCount(w.log, id) == 1 {
      var x :| FinalEvent(d, w, id, tag, x);
      assert FinalEvent(d, w', id, tag, x);
    }
  }

  lemma TryReleaseKeepsInHand<K(!new)>(d: Deployment<K>, w: World<K>, q: nat, id: nat, tag: nat)
    requires WorldOk(w) && InHand(d, w, id, tag)
    requires q == id ==> FinishedCount(w.log, id) == 1 && w.pc != Threw(id)
    ensures InHand(d, TryRelease(d, w, q), id, tag)
  {
    var w' := TryRelease(d, w, q);
    OpLeaves(d, w.h, ReleaseOp(q), id);
    assert IdOk(w, id);
    hide Observe;
    if FinishedCount(w.log, id) == 1 {
      var x :| FinalEvent(d, w, id, tag, x);
      assert FinalEvent(d, w', id, tag, x);
    }
  }

  /** Changing watchers of other ids, the mutex or the loop position away from `id`. */
  lemma MoveKeepsInHand<K(!new)>(d: Deployment<K>, w: World<K>, w': World<K>, id: nat, tag: nat)
    requires InHand(d, w, id, tag)
    requires w'.h == w.h && w'.log == w.log && w'.cancelling != Some(id)
    requires id in w'.watchers <==> id in w.watchers
    requires id in w.watchers ==> w'.watchers[id] == w.watchers[id]
    requires InFlight(w'.pc, id) == InFlight(w.pc, id) && (w'.pc == Threw(id) <==> w.pc == Threw(id))
    ensures InHand(d, w', id, tag)
  {
    if FinishedCount(w.log, id) == 1 {
      var x :| FinalEvent(d, w, id, tag, x);
      assert FinalEvent(d, w', id, tag, x);
    }
  }

  lemma PollKeepsInHand<K(!new)>(d: Deployment<K>, w: World<K>, id: nat, tag: nat)
    requires WorldOk(w) && InHand(d, w, id, tag) && w.pc.Polling?
    ensures InHand(d, PollNext(d, w), id, tag)
  {
    var w' := PollNext(d, w);
    if w.pc.ids == [] || w.pc.ids[0] !in w.h.svc.requests {
      MoveKeepsInHand(d, w, w', id, tag);
    } else if w.pc.ids[0] != id {
      ServiceOpKeepsInHand(d, w, PollOp(w.pc.ids[0], 0), id, tag);
      MoveKeepsInHand(d, w.(h := Observe(d, w.h, PollOp(w.pc.ids[0], 0))), w', id, tag);
    } else {
      assert IdOk(w, id);
      var event := EventOf(id, w.h.svc.requests[id], 0);
      assert w'.h.polled[id] == w.h.polled[id] + event.tokens;
      assert id in w'.h.svc.requests;
    }
  }

  /** A delivery to another watcher. */
  lemma DeliverToOther<K>(w: World<K>, throws: bool, id: nat, tag: nat)
    requires w.pc.Delivering? && w.pc.event.id != id
    ensures var w' := Deliver(w, throws);
      && w'.h == w.h && w'.cancelling == w.cancelling && w.log <= w'.log
      && Received(w'.log, Client(tag), id) == Received(w.log, Client(tag), id)
      && FinishedCount(w'.log, id) == FinishedCount(w.log, id)
      && (id in w'.watchers <==> id in w.watchers) && (id in w.watchers ==> w'.watchers[id] == w.watchers[id])
      && InFlight(w'.pc, id) == InFlight(w.pc, id) && w'.pc != Threw(id)
  {
    if w.pc.event.id in w.watchers {
      LogGrows(w.log, Delivery(w.watchers[w.pc.event.id], w.pc.event), Client(tag), id);
    }
    hide Received, FinishedCount;
  }

  lemma DeliverKeepsInHand<K(!new)>(d: Deployment<K>, w: World<K>, throws: bool, id: nat, tag: nat)
    requires InHand(d, w, id, tag) && w.pc.Delivering? && w.pc.event.id != id
    ensures InHand(d, Deliver(w, throws), id, tag)
  {
    DeliverToOther(w, throws, id, tag);
    hide Deliver, Received, FinishedCount, Complete, Spent;
    var w' := Deliver(w, throws);
    if FinishedCount(w.log, id) == 1 {
      var x :| FinalEvent(d, w, id, tag, x);
      assert FinalEvent(d, w', id, tag, x);
    }
  }

  /** What a request that is over has generated is all it generates alone. */
  lemma SpentIsComplete<K(!new)>(d: Deployment<K>, w: World<K>, id: nat)
    requires Trusted(d, w) && Spent(w.h, id)
    ensures Known(w.h, id) && Generated(w.h, id) == w.h.polled[id]
    ensures w.h.svc.requests[id].status.Finished? ==> Complete(d.engine, w.h.inputs[id], w.h.polled[id])
  {
    hide WorldOk, Complete;
    assert Generated(w.h, id) == w.h.polled[id];
    var r := w.h.svc.requests[id];
    assert RequestOk(d.engine, r, Generated(w.h, id));
    if r.status.Finished? { FinishedIsComplete(d.engine, r, Generated(w.h, id)); }
  }

  /** What the delivery of the event in flight does to a watcher in hand. */
  lemma DeliveredToWatcher<K>(w: World<K>, throws: bool, id: nat, tag: nat)
    requires w.pc.Delivering? && w.pc.event.id == id && id in w.watchers && w.watchers[id] == Client(tag)
    requires FinishedCount(w.log, id) == 0 && id in w.h.svc.requests && id in w.h.polled
    requires Received(w.log, Client(tag), id) + w.pc.event.tokens == w.h.polled[id]
    ensures var w' := Deliver(w, throws);
      && w'.h == w.h && w'.cancelling == w.cancelling && InFlight(w'.pc, id) == []
      && Received(w'.log, Client(tag), id) == w.h.polled[id] && Delivery(Client(tag), w.pc.event) in w'.log
      && FinishedCount(w'.log, id) == (if w.pc.event.finished then 1 else 0)
      && (if w.pc.event.finished then LetGo(w', id, tag) else id in w'.watchers && w'.watchers[id] == Client(tag))
  {
    var x := Delivery(Client(tag), w.pc.event);
    LogGrows(w.log, x, Client(tag), id);
    assert (w.log + [x])[|w.log|] == x;
    hide Received, FinishedCount;
  }

  /** The event in flight for `id` carries the request's current status, so a finished
      one comes with everything the request generated. */
  lemma DeliverToWatcher<K(!new)>(d: Deployment<K>, w: World<K>, throws: bool, id: nat, tag: nat)
    requires Sound(d) && Trusted(d, w) && InHand(d, w, id, tag) && w.pc.Delivering? && MutexFree(w)
    requires w.pc.event.id == id
    ensures InHand(d, Deliver(w, throws), id, tag)
  {
    var event := w.pc.event;
    var w' := Deliver(w, throws);
    DeliveredToWatcher(w, throws, id, tag);
    if event.finished {
      SpentIsComplete(d, w, id);
      hide Trusted, Sound, Deliver, Complete, Received, FinishedCount, LetGo;
      assert FinalEvent(d, w', id, tag, Delivery(Client(tag), event));
    }
    hide Trusted, Sound, Deliver, Complete, Received, FinishedCount, LetGo;
  }

  lemma FinishedIsComplete<K>(e: Engine<K>, r: Request<K>, tokens: seq<Token>)
    requires RequestOk(e, r, tokens) && r.status.Finished?
    ensures Complete(e, r.input, tokens)
  {
    var n := |tokens|;
    SoloTokensCount(e, r.input, n);
    forall m | 0 <= m < n
      ensures SoloRun(e, r.input, m).Some? && !Ends(SoloRun(e, r.input, m).value.tokens, r.input.eos)
    {
      assert SoloRun(e, r.input, m).value.tokens == tokens[..m];
    }
  }

  lemma CancelKeepsInHand<K(!new)>(d: Deployment<K>, w: World<K>, q: nat, id: nat, tag: nat)
    requires WorldOk(w) && InHand(d, w, id, tag) && q != id
    ensures InHand(d, BeginCancel(d, w, q), id, tag)
  {
    ServiceOpKeepsInHand(d, w, CancelOp(q), id, tag);
    MoveKeepsInHand(d, w.(h := Observe(d, w.h, CancelOp(q))), BeginCancel(d, w, q), id, tag);
  }

  lemma DoKeepsInHand<K(!new)>(d: Deployment<K>, w: World<K>, a: Action<K>, id: nat, tag: nat)
    requires Sound(d) && Trusted(d, w) && InHand(d, w, id, tag) && Enabled(w, a) && LeavesAlone(a, id)
    ensures InHand(d, Do(d, w, a), id, tag)
  {
    var w' := Do(d, w, a);
    match a
    case LoopStep(weather) =>
      if w.running {
        ServiceOpKeepsInHand(d, w, StepOp(weather), id, tag);
        MoveKeepsInHand(d, w.(h := Observe(d, w.h, StepOp(weather))), w', id, tag);
      } else {
        MoveKeepsInHand(d, w, w', id, tag);
      }
    case LoopPoll => PollKeepsInHand(d, w, id, tag);
    case LoopDeliver(throws) =>
      if w.pc.event.id == id {
        DeliverToWatcher(d, w, throws, id, tag);
      } else {
        DeliverKeepsInHand(d, w, throws, id, tag);
      }
    case LoopRelease =>
      TryReleaseKeepsInHand(d, w, w.pc.id, id, tag);
      MoveKeepsInHand(d, TryRelease(d, w, w.pc.id), w', id, tag);
    case CancelBegin(q) => CancelKeepsInHand(d, w, q, id, tag);
    case CancelEnd =>
      TryReleaseKeepsInHand(d, w, w.cancelling.value, id, tag);
      MoveKeepsInHand(d, TryRelease(d, w, w.cancelling.value), w', id, tag);
    case Direct(op) =>
      if op.ReleaseOp? {
        TryReleaseKeepsInHand(d, w, op.id, id, tag);
      } else {
        ServiceOpKeepsInHand(d, w, op, id, tag);
      }
    case _ => MoveKeepsInHand(d, w, w', id, tag);
  }

  lemma {:induction false} PlayKeepsInHand<K(!new)>(d: Deployment<K>, w: World<K>, actions: seq<Action<K>>, id: nat,
                                                    tag: nat)
    requires Sound(d) && Trusted(d, w) && InHand(d, w, id, tag) && AllLeaveAlone(actions, id)
    ensures Trusted(d, Play(d, w, actions)) && InHand(d, Play(d, w, actions), id, tag)
    decreases |actions|
  {
    hide Trusted, InHand, Do, Enabled, LeavesAlone;
    if actions != [] {
      assert LeavesAlone(actions[0], id);
      var w' := if Enabled(w, actions[0]) then Do(d, w, actions[0]) else w;
      if Enabled(w, actions[0]) {
        DoKeepsTrusted(d, w, actions[0]);
        DoKeepsInHand(d, w, actions[0], id, tag);
      }
      PlayKeepsInHand(d, w', actions[1..], id, tag);
    }
  }

  lemma {:induction false} FreshTagReceivedNothing(log: seq<Delivery>, tag: nat, id: nat)
    requires forall x :: x in log ==> x.callback != Client(tag)
    ensures Received(log, Client(tag), id) == []
  {
    if log != [] {
      assert log[|log| - 1] in log;
      FreshTagReceivedNothing(log[..|log| - 1], tag, id);
    }
  }

  /** A new callback watches a submitted request that nobody polled yet. */
  lemma WatchPutsInHand<K(!new)>(d: Deployment<K>, session: State<K>, past: seq<Action<K>>, id: nat, tag: nat)
    requires Sound(d)
    requires var w := Play(d, Opening(session), past);
      && Enabled(w, Watch(id, tag)) && id in w.h.svc.requests && Polled(w.h, id) == [] && FinishedCount(w.log, id) == 0
      && forall x :: x in w.log ==> x.callback != Client(tag)
    ensures var w := Do(d, Play(d, Opening(session), past), Watch(id, tag));
      Trusted(d, w) && InHand(d, w, id, tag)
  {
    var w0 := Play(d, Opening(session), past);
    PlayKeepsTrusted(d, Opening(session), past);
    assert IdOk(w0, id);
    FreshTagReceivedNothing(w0.log, tag, id);
    DoKeepsTrusted(d, w0, Watch(id, tag));
    hide Play, Opening, Faithful;
  }

  /** End to end: a new callback watches a submitted request that nobody polled yet, and
      the id is otherwise left to the dispatcher.  In every later state of every
      interleaving the callback has received exactly the tokens polled for the id, less
      the event in flight; at most one finished event was delivered; and once it was, the
      tokens received are all there ever will be, they are the request's solo output if
      it finished, and the id is no longer watched, unless the callback threw on that very
      event and ended the loop. */
  lemma EndToEnd<K(!new)>(d: Deployment<K>, session: State<K>, past: seq<Action<K>>, id: nat, tag: nat,
                          actions: seq<Action<K>>)
    requires Sound(d) && AllLeaveAlone(actions, id)
    requires var w := Play(d, Opening(session), past);
      && Enabled(w, Watch(id, tag)) && id in w.h.svc.requests && Polled(w.h, id) == [] && FinishedCount(w.log, id) == 0
      && forall x :: x in w.log ==> x.callback != Client(tag)
    ensures var w := Play(d, Do(d, Play(d, Opening(session), past), Watch(id, tag)), actions);
      && id in w.h.polled && FinishedCount(w.log, id) <= 1
      && Received(w.log, Client(tag), id) + InFlight(w.pc, id) == w.h.polled[id]
      && (FinishedCount(w.log, id) == 1 ==>
        && InFlight(w.pc, id) == [] && LetGo(w, id, tag)
        && (id in w.h.svc.requests ==> Known(w.h, id) && Generated(w.h, id) == Received(w.log, Client(tag), id))
        && exists x :: FinalEvent(d, w, id, tag, x))
  {
    WatchPutsInHand(d, session, past, id, tag);
    var w1 := Do(d, Play(d, Opening(session), past), Watch(id, tag));
    PlayKeepsInHand(d, w1, actions, id, tag);
    hide Play, Opening, Do;
    InHandMeans(d, Play(d, w1, actions), id, tag);
  }

  lemma InHandMeans<K(!new)>(d: Deployment<K>, w: World<K>, id: nat, tag: nat)
    requires Trusted(d, w) && InHand(d, w, id, tag)
    ensures id in w.h.polled && FinishedCount(w.log, id) <= 1
    ensures Received(w.log, Client(tag), id) + InFlight(w.pc, id) == w.h.polled[id]
    ensures FinishedCount(w.log, id) == 1 ==>
      && InFlight(w.pc, id) == [] && LetGo(w, id, tag)
      && (id in w.h.svc.requests ==> Known(w.h, id) && Generated(w.h, id) == Received(w.log, Client(tag), id))
      && exists x :: FinalEvent(d, w, id, tag, x)
  {
    assert IdOk(w, id);
    if FinishedCount(w.log, id) == 1 && id in w.h.svc.requests { SpentIsComplete(d, w, id); }
    hide Faithful, Complete;
  }

  lemma {:induction false} PlayKeepsTrusted<K(!new)>(d: Deployment<K>, w: World<K>, actions: seq<Action<K>>)
    requires Sound(d) && (Trusted(d, w) || exists session: State<K> :: w == Opening(session))
    ensures Trusted(d, Play(d, w, actions))
    decreases |actions|
  {
    if !Trusted(d, w) {
      var session: State<K> :| w == Opening(session);
      OpeningOk(session);
    }
    hide Trusted, Do, Enabled;
    if actions != [] {
      var w' := if Enabled(w, actions[0]) then Do(d, w, actions[0]) else w;
      if Enabled(w, actions[0]) { DoKeepsTrusted(d, w, actions[0]); }
      PlayKeepsTrusted(d, w', actions[1..]);
    }
  }

  // ----- silence after cancel

  predicate Watches<K>(w: World<K>, id: nat, tag: nat) { id in w.watchers && w.watchers[id] == Client(tag) }

  /** One action other than registering it. */
  lemma StaysUnregistered<K>(d: Deployment<K>, w: World<K>, a: Action<K>, id: nat, tag: nat)
    requires !Watches(w, id, tag) && a != Watch(id, tag) && Enabled(w, a)
    ensures var w' := Do(d, w, a);
      && !Watches(w', id, tag) && w.log <= w'.log && |w'.log| <= |w.log| + 1
      && forall x :: x in w'.log[|w.log|..] ==> !(x.callback == Client(tag) && x.event.id == id)
  {
    hide Observe, Release, Cancel;
  }

  /** A callback that is not registered is not called until it is registered again. */
  lemma {:induction false} UnregisteredIsSilent<K>(d: Deployment<K>, w: World<K>, actions: seq<Action<K>>, id: nat,
                                                   tag: nat)
    requires !Watches(w, id, tag)
    requires forall i :: 0 <= i < |actions| ==> actions[i] != Watch(id, tag)
    ensures w.log <= Play(d, w, actions).log
    ensures forall x :: x in Play(d, w, actions).log[|w.log|..] ==> !(x.callback == Client(tag) && x.event.id == id)
    decreases |actions|
  {
    hide Do, Enabled, Watches;
    if actions != [] {
      var w' := if Enabled(w, actions[0]) then Do(d, w, actions[0]) else w;
      assert actions[0] != Watch(id, tag);
      if Enabled(w, actions[0]) { StaysUnregistered(d, w, actions[0], id, tag); }
      UnregisteredIsSilent(d, w', actions[1..], id, tag);
      var log := Play(d, w, actions).log;
      assert log[|w.log|..] == w'.log[|w.log|..] + log[|w'.log|..];
    }
  }

  /** Once `cancel` has the watchers mutex, no callback registered before is ever called
      again for that id, unless a client watches it again. */
  lemma CancelSilences<K>(d: Deployment<K>, w: World<K>, actions: seq<Action<K>>, id: nat, tag: nat)
    requires Enabled(w, CancelBegin(id))
    requires forall i :: 0 <= i < |actions| ==> actions[i] != Watch(id, tag)
    ensures var w1 := Do(d, w, CancelBegin(id)); var w2 := Play(d, w1, actions);
      && w1.log == w.log && w.log <= w2.log
      && forall x :: x in w2.log[|w.log|..] ==> !(x.callback == Client(tag) && x.event.id == id)
  {
    UnregisteredIsSilent(d, Do(d, w, CancelBegin(id)), actions, id, tag);
  }
}
