/** The generation dispatcher over the service: one loop thread that steps, polls and
    delivers, and any number of client threads.  An action is one lock region, so a run
    is any interleaving of the loop with clients. */
module Dispatcher {
  import opened Options
  import opened MetalSession
  import opened MetalService
  import opened ServiceRefinement

  /** A registered callback; `Ignore` is the one `cancel` installs. */
  datatype Callback = Client(tag: nat) | Ignore

  datatype Delivery = Delivery(callback: Callback, event: Event)

  /** Where the loop thread is: between passes, after the scheduler step, polling the
      ids it snapshotted, holding a polled event, about to release a delivered request
      (watchers mutex held), ended, or ended by the exception of the callback of `id`. */
  datatype Pc =
    | Idle
    | Stepped
    | Polling(ids: seq<nat>)
    | Delivering(event: Event, rest: seq<nat>)
    | Releasing(id: nat, rest: seq<nat>)
    | Ended
    | Threw(id: nat)

  predicate Over(pc: Pc) { pc.Ended? || pc.Threw? }

  datatype World<K> = World(
    h: History<K>,
    watchers: map<nat, Callback>,
    pc: Pc,
    running: bool,
    cancelling: Option<nat>,   // a client inside `cancel`, watchers mutex held, about to release
    log: seq<Delivery>,        // callback invocations, in order
    releases: seq<nat>)        // successful releases, in order

  datatype Action<K> =
    | LoopStep(weather: Weather<K>)
    | LoopSnapshot(order: seq<nat>)
    | LoopPoll
    | LoopDeliver(throws: bool)  // whether a client's callback throws
    | LoopRelease
    | Watch(id: nat, tag: nat)
    | Unwatch(id: nat)
    | CancelBegin(id: nat)
    | CancelEnd
    | Direct(op: Op<K>)        // a client calling the service itself
    | StopLoop

  predicate MutexFree<K>(w: World<K>) { !w.pc.Releasing? && w.cancelling.None? }

  /** `order` is some iteration of the watchers. */
  predicate Enumerates(order: seq<nat>, keys: set<nat>) {
    && (forall id :: id in order ==> id in keys)
    && (forall id :: id in keys ==> id in order)
    && forall i, j :: 0 <= i < j < |order| ==> order[i] != order[j]
  }

  predicate Enabled<K>(w: World<K>, a: Action<K>) {
    match a
    case LoopStep(_) => w.pc.Idle?
    case LoopSnapshot(order) => w.pc.Stepped? && MutexFree(w) && Enumerates(order, w.watchers.Keys)
    case LoopPoll => w.pc.Polling?
    case LoopDeliver(_) => w.pc.Delivering? && MutexFree(w)
    case LoopRelease => w.pc.Releasing?
    case Watch(_, _) => MutexFree(w)
    case Unwatch(_) => MutexFree(w)
    case CancelBegin(_) => MutexFree(w)
    case CancelEnd => w.cancelling.Some?
    case Direct(op) => !op.StepOp?
    case StopLoop => true
  }

  function TryRelease<K>(d: Deployment<K>, w: World<K>, id: nat): World<K> {
    w.(h := Observe(d, w.h, ReleaseOp(id)),
       releases := if Release(w.h.svc, id).1 then w.releases + [id] else w.releases)
  }

  function PollNext<K>(d: Deployment<K>, w: World<K>): World<K>
    requires w.pc.Polling?
  {
    if w.pc.ids == [] then w.(pc := Idle)
    else
      var id, rest := w.pc.ids[0], w.pc.ids[1..];
      if id !in w.h.svc.requests then w.(pc := Ended, running := false)  // out_of_range ends the loop
      else
        var event := EventOf(id, w.h.svc.requests[id], 0);
        w.(h := Observe(d, w.h, PollOp(id, 0)),
           pc := if event.tokens == [] && !event.finished then Polling(rest) else Delivering(event, rest))
  }

  /** The callback is called under the watchers mutex, which its exception gives up; what
      `cancel` installs never throws. */
  function Deliver<K>(w: World<K>, throws: bool): World<K>
    requires w.pc.Delivering?
  {
    var event, rest := w.pc.event, w.pc.rest;
    if event.id !in w.watchers then w.(pc := Polling(rest))
    else
      var called := w.(log := w.log + [Delivery(w.watchers[event.id], event)]);
      if throws && w.watchers[event.id].Client? then called.(pc := Threw(event.id), running := false)
      else if event.finished then called.(watchers := w.watchers - {event.id}, pc := Releasing(event.id, rest))
      else called.(pc := Polling(rest))
  }

  function BeginCancel<K>(d: Deployment<K>, w: World<K>, id: nat): World<K> {
    var erased := w.(watchers := w.watchers - {id}, h := Observe(d, w.h, CancelOp(id)));
    if Cancel(w.h.svc, id).1 then erased.(watchers := erased.watchers[id := Ignore])
    else erased.(cancelling := Some(id))
  }

  function Do<K>(d: Deployment<K>, w: World<K>, a: Action<K>): World<K>
    requires Enabled(w, a)
  {
    match a
    case LoopStep(weather) =>
      if !w.running then w.(pc := Ended)
      else w.(h := Observe(d, w.h, StepOp(weather)), pc := Stepped)
    case LoopSnapshot(order) => w.(pc := Polling(order))
    case LoopPoll => PollNext(d, w)
    case LoopDeliver(throws) => Deliver(w, throws)
    case LoopRelease => TryRelease(d, w, w.pc.id).(pc := Polling(w.pc.rest))
    case Watch(id, tag) => w.(watchers := w.watchers[id := Client(tag)])
    case Unwatch(id) => w.(watchers := w.watchers - {id})
    case CancelBegin(id) => BeginCancel(d, w, id)
    case CancelEnd => TryRelease(d, w, w.cancelling.value).(cancelling := None)
    case Direct(op) =>
      if op.ReleaseOp? then TryRelease(d, w, op.id) else w.(h := Observe(d, w.h, op))
    case StopLoop => w.(running := false)
  }

  /** A run skips actions that a mutex or the loop's position forbids. */
  function Play<K>(d: Deployment<K>, w: World<K>, actions: seq<Action<K>>): World<K>
    decreases |actions|
  {
    if actions == [] then w
    else Play(d, if Enabled(w, actions[0]) then Do(d, w, actions[0]) else w, actions[1..])
  }

  function Opening<K>(session: State<K>): World<K> {
    World(Begin(session).(svc := Initial(session).(running := true)), map[], Idle, true, None, [], [])
  }

  // ----- what the callbacks of an id have received

  /** The tokens passed to one callback for `id`, in order. */
  function Received(log: seq<Delivery>, callback: Callback, id: nat): seq<Token> {
    if log == [] then []
    else
      var last := log[|log| - 1];
      Received(log[..|log| - 1], callback, id) +
      if last.callback == callback && last.event.id == id then last.event.tokens else []
  }

  /** Finished events delivered for `id`, to whatever callback. */
  function FinishedCount(log: seq<Delivery>, id: nat): nat {
    if log == [] then 0
    else
      var last := log[|log| - 1];
      FinishedCount(log[..|log| - 1], id) + if last.event.id == id && last.event.finished then 1 else 0
  }

  function InFlight(pc: Pc, id: nat): seq<Token> {
    if pc.Delivering? && pc.event.id == id then pc.event.tokens else []
  }

  lemma LogGrows(log: seq<Delivery>, x: Delivery, callback: Callback, id: nat)
    ensures Received(log + [x], callback, id) ==
      Received(log, callback, id) + if x.callback == callback && x.event.id == id then x.event.tokens else []
    ensures FinishedCount(log + [x], id) == FinishedCount(log, id)
      + if x.event.id == id && x.event.finished then 1 else 0
  {
    assert (log + [x])[..|log|] == log;
  }

  // ----- what one service operation does to the ids it does not name

  predicate Recorded<K>(h: History<K>) {
    && (forall id :: id in h.svc.requests ==> id in h.polled)
    && (forall id :: id in h.polled ==> id < h.svc.nextId)
  }

  predicate Dead<K>(h: History<K>, id: nat) { id in h.svc.requests && Terminal(h.svc.requests[id].status) }

  /** A dead request with nothing left to poll. */
  predicate Spent<K>(h: History<K>, id: nat) { Dead(h, id) && h.svc.requests[id].pending == [] }

  predicate Polls<K>(op: Op<K>, id: nat) { op.PollOp? && op.id == id }

  predicate Releases<K>(op: Op<K>, id: nat) { op.ReleaseOp? && op.id == id }

  lemma StepLeaves<K>(d: Deployment<K>, s: Service<K>, w: Weather<K>, id: nat)
    ensures var s' := Step(d, s, w).0;
      && s'.nextId == s.nextId
      && (id in s.requests <==> id in s'.requests)
      && (id in s.requests && Terminal(s.requests[id].status) ==> s'.requests[id] == s.requests[id])
  {
    var next := Next(s.requests, s.lastScheduled);
    if s.running && next.Some? {
      var p := StepProgress(d, s, next.value, w);
      assert next.value in Live(s.requests);
      assert Step(d, s, w).0 == Settle(s, next.value, p, StepCache(d, s, next.value, p));
    }
  }

  lemma OpLeaves<K>(d: Deployment<K>, h: History<K>, op: Op<K>, id: nat)
    requires Recorded(h)
    ensures var h' := Observe(d, h, op);
      && h.svc.nextId <= h'.svc.nextId
      && (id in h'.svc.requests ==>
        id in h.svc.requests || (id == h.svc.nextId && id < h'.svc.nextId && h'.polled[id] == []))
      && (id in h.svc.requests ==> id in h'.svc.requests || (Releases(op, id) && Dead(h, id)))
      && (id in h.polled ==>
        id in h'.polled && h.polled[id] <= h'.polled[id] && (!Polls(op, id) ==> h'.polled[id] == h.polled[id]))
      && (id in h.inputs && id < h.svc.nextId ==> id in h'.inputs && h'.inputs[id] == h.inputs[id])
      && (id in h'.polled ==> id < h'.svc.nextId)
      && (id in h'.svc.requests ==> id in h'.polled)
      && (Dead(h, id) && id in h'.svc.requests ==>
        Dead(h', id) && h'.svc.requests[id].status == h.svc.requests[id].status)
      && (Spent(h, id) && id in h'.svc.requests ==> Spent(h', id))
  {
    hide Step, Admit, Live, QueuedIds, IsNext, Next;
    if op.StepOp? { StepLeaves(d, h.svc, op.weather, id); }
  }

  lemma OpKeepsRecorded<K>(d: Deployment<K>, h: History<K>, op: Op<K>)
    requires Recorded(h)
    ensures Recorded(Observe(d, h, op))
  {
    hide Observe;
    forall id: nat | true ensures var h' := Observe(d, h, op);
      (id in h'.svc.requests ==> id in h'.polled) && (id in h'.polled ==> id < h'.svc.nextId)
    {
      OpLeaves(d, h, op, id);
    }
  }

  // ----- the invariant of every run

  function Polled<K>(h: History<K>, id: nat): seq<Token> { if id in h.polled then h.polled[id] else [] }

  predicate Distinct(ids: seq<nat>) { forall i, j :: 0 <= i < j < |ids| ==> ids[i] != ids[j] }

  /** What the loop's position says about the id it is handling. */
  predicate PcOk<K>(w: World<K>) {
    match w.pc
    case Polling(ids) => Distinct(ids)
    case Delivering(event, rest) =>
      && event.id !in rest && Distinct(rest)
      && event.id in w.h.polled && |event.tokens| <= |w.h.polled[event.id]|
      && (event.finished && event.id in w.h.svc.requests ==>
        Spent(w.h, event.id) && w.h.svc.requests[event.id].status == event.status)
      && FinishedCount(w.log, event.id) == 0
    case Releasing(id, rest) =>
      && id !in rest && Distinct(rest)
      && id !in w.watchers && (id in w.h.svc.requests ==> Dead(w.h, id)) && FinishedCount(w.log, id) == 1
      && w.cancelling.None?
    case _ => true
  }

  predicate ReleasesOk<K>(w: World<K>) {
    Distinct(w.releases) && forall id :: id in w.releases ==> id !in w.h.svc.requests && id < w.h.svc.nextId
  }

  /** Per id: at most one finished event, after which the request is gone or going, unless
      its callback threw and ended the loop. */
  predicate IdOk<K>(w: World<K>, id: nat) {
    && FinishedCount(w.log, id) <= 1
    && (FinishedCount(w.log, id) == 1 ==>
      && id < w.h.svc.nextId
      && (id !in w.h.svc.requests || ((w.pc.Releasing? || w.pc.Threw?) && w.pc.id == id)))
  }

  ghost predicate WorldOk<K>(w: World<K>) {
    && Recorded(w.h) && PcOk(w) && ReleasesOk(w)
    && forall id: nat :: IdOk(w, id)
  }

  /** A service operation by anyone, with log, watchers and loop position unchanged. */
  lemma ServiceOpKeepsOk<K>(d: Deployment<K>, w: World<K>, op: Op<K>)
    requires WorldOk(w) && !op.ReleaseOp?
    ensures WorldOk(w.(h := Observe(d, w.h, op)))
  {
    hide Observe;
    var w' := w.(h := Observe(d, w.h, op));
    OpKeepsRecorded(d, w.h, op);
    forall id: nat | true ensures IdOk(w', id) {
      OpLeaves(d, w.h, op, id);
      assert IdOk(w, id);
    }
    forall id | id in w.releases ensures id !in w'.h.svc.requests && id < w'.h.svc.nextId {
      OpLeaves(d, w.h, op, id);
    }
    match w.pc
    case Delivering(event, rest) => OpLeaves(d, w.h, op, event.id);
    case Releasing(id, rest) =>
      OpLeaves(d, w.h, op, id);
      assert IdOk(w, id);
    case _ =>
  }

  lemma TryReleaseKeepsOk<K>(d: Deployment<K>, w: World<K>, id: nat)
    requires WorldOk(w)
    ensures WorldOk(TryRelease(d, w, id))
    ensures id in TryRelease(d, w, id).h.svc.requests ==> id in w.h.svc.requests && !Dead(w.h, id)
  {
    var w' := TryRelease(d, w, id);
    if Release(w.h.svc, id).1 {
      assert w'.h.svc.requests == w.h.svc.requests - {id};
      assert w'.h.polled == w.h.polled && w'.h.svc.nextId == w.h.svc.nextId;
      forall q: nat | true ensures IdOk(w', q) { assert IdOk(w, q); }
      hide Observe, Release;
      assert id !in w.releases;
    } else {
      assert w' == w;
    }
  }

  lemma PollKeepsOk<K>(d: Deployment<K>, w: World<K>)
    requires WorldOk(w) && w.pc.Polling?
    ensures WorldOk(PollNext(d, w))
  {
    if w.pc.ids == [] || w.pc.ids[0] !in w.h.svc.requests {
      forall q: nat | true ensures IdOk(PollNext(d, w), q) { assert IdOk(w, q); }
    } else {
      var id := w.pc.ids[0];
      ServiceOpKeepsOk(d, w, PollOp(id, 0));
      var polled := w.(h := Observe(d, w.h, PollOp(id, 0)));
      var w' := PollNext(d, w);
      assert polled.h.svc.requests[id].pending == [];
      assert IdOk(w, id);
      assert w' == polled.(pc := w'.pc);
      forall q: nat | true ensures IdOk(w', q) { assert IdOk(polled, q); }
    }
  }

  lemma DeliverKeepsOk<K>(w: World<K>, throws: bool)
    requires WorldOk(w) && w.pc.Delivering? && MutexFree(w)
    ensures WorldOk(Deliver(w, throws))
  {
    var w' := Deliver(w, throws);
    forall q: nat | true ensures IdOk(w', q) {
      assert IdOk(w, q);
      if w.pc.event.id in w.watchers {
        LogGrows(w.log, Delivery(w.watchers[w.pc.event.id], w.pc.event), Ignore, q);
      }
    }
    if w.pc.event.id in w.watchers {
      LogGrows(w.log, Delivery(w.watchers[w.pc.event.id], w.pc.event), Ignore, w.pc.event.id);
    }
  }

  lemma WatchersChangeKeepsOk<K>(w: World<K>, watchers: map<nat, Callback>, cancelling: Option<nat>)
    requires WorldOk(w) && !w.pc.Releasing?
    ensures WorldOk(w.(watchers := watchers, cancelling := cancelling))
  {
    var w' := w.(watchers := watchers, cancelling := cancelling);
    forall q: nat | true ensures IdOk(w', q) { assert IdOk(w, q); }
  }

  lemma PcChangeKeepsOk<K>(w: World<K>, pc: Pc, running: bool)
    requires WorldOk(w) && !w.pc.Releasing? && !w.pc.Threw? && !pc.Delivering? && !pc.Releasing?
    requires pc.Polling? ==> Distinct(pc.ids)
    ensures WorldOk(w.(pc := pc, running := running))
  {
    var w' := w.(pc := pc, running := running);
    forall q: nat | true ensures IdOk(w', q) { assert IdOk(w, q); }
  }

  lemma LoopReleaseKeepsOk<K>(d: Deployment<K>, w: World<K>)
    requires WorldOk(w) && w.pc.Releasing?
    ensures WorldOk(TryRelease(d, w, w.pc.id).(pc := Polling(w.pc.rest)))
    ensures w.pc.id !in TryRelease(d, w, w.pc.id).h.svc.requests
  {
    TryReleaseKeepsOk(d, w, w.pc.id);
    var released := TryRelease(d, w, w.pc.id);
    var w' := released.(pc := Polling(w.pc.rest));
    forall q: nat | true ensures IdOk(w', q) { assert IdOk(released, q); }
  }

  lemma StopKeepsOk<K>(w: World<K>, running: bool)
    requires WorldOk(w)
    ensures WorldOk(w.(running := running))
  {
    forall q: nat | true ensures IdOk(w.(running := running), q) { assert IdOk(w, q); }
  }

  lemma DoKeepsOk<K>(d: Deployment<K>, w: World<K>, a: Action<K>)
    requires WorldOk(w) && Enabled(w, a)
    ensures WorldOk(Do(d, w, a))
  {
    hide WorldOk, Observe;
    match a
    case LoopStep(weather) =>
      if w.running {
        ServiceOpKeepsOk(d, w, StepOp(weather));
        PcChangeKeepsOk(w.(h := Observe(d, w.h, StepOp(weather))), Stepped, w.running);
      } else {
        PcChangeKeepsOk(w, Ended, w.running);
      }
    case LoopSnapshot(order) => PcChangeKeepsOk(w, Polling(order), w.running);
    case LoopPoll => PollKeepsOk(d, w);
    case LoopDeliver(throws) => DeliverKeepsOk(w, throws);
    case LoopRelease => LoopReleaseKeepsOk(d, w);
    case Watch(id, tag) => WatchersChangeKeepsOk(w, w.watchers[id := Client(tag)], w.cancelling);
    case Unwatch(id) => WatchersChangeKeepsOk(w, w.watchers - {id}, w.cancelling);
    case CancelBegin(id) =>
      ServiceOpKeepsOk(d, w, CancelOp(id));
      var cancelled := w.(h := Observe(d, w.h, CancelOp(id)));
      if Cancel(w.h.svc, id).1 {
        WatchersChangeKeepsOk(cancelled, (w.watchers - {id})[id := Ignore], w.cancelling);
      } else {
        WatchersChangeKeepsOk(cancelled, w.watchers - {id}, Some(id));
      }
    case CancelEnd => CancelEndKeepsOk(d, w);
    case Direct(op) =>
      if op.ReleaseOp? { TryReleaseKeepsOk(d, w, op.id); } else { ServiceOpKeepsOk(d, w, op); }
    case StopLoop => StopKeepsOk(w, false);
  }

  lemma CancelEndKeepsOk<K>(d: Deployment<K>, w: World<K>)
    requires WorldOk(w) && w.cancelling.Some?
    ensures WorldOk(TryRelease(d, w, w.cancelling.value).(cancelling := None))
  {
    assert !w.pc.Releasing?;
    TryReleaseKeepsOk(d, w, w.cancelling.value);
    var released := TryRelease(d, w, w.cancelling.value);
    WatchersChangeKeepsOk(released, released.watchers, None);
  }

  lemma {:induction false} PlayKeepsOk<K>(d: Deployment<K>, w: World<K>, actions: seq<Action<K>>)
    requires WorldOk(w)
    ensures WorldOk(Play(d, w, actions))
    decreases |actions|
  {
    hide WorldOk, Do;
    if actions != [] {
      if Enabled(w, actions[0]) { DoKeepsOk(d, w, actions[0]); }
      PlayKeepsOk(d, if Enabled(w, actions[0]) then Do(d, w, actions[0]) else w, actions[1..]);
    }
  }

  lemma OpeningOk<K>(session: State<K>)
    ensures WorldOk(Opening(session))
  {
  }

  /** In every run: no request is released twice, each id gets at most one finished
      event, and once that event is delivered the request leaves the service: it is gone
      unless the loop is just about to release it or was ended by the callback's exception. */
  lemma OneFinishOneRelease<K>(d: Deployment<K>, session: State<K>, actions: seq<Action<K>>, id: nat)
    ensures var w := Play(d, Opening(session), actions);
      && Distinct(w.releases)
      && FinishedCount(w.log, id) <= 1
      && (FinishedCount(w.log, id) == 1 ==>
        if w.pc.Releasing? && w.pc.id == id then
          id !in w.watchers && id !in Do(d, w, LoopRelease).h.svc.requests
        else w.pc == Threw(id) || id !in w.h.svc.requests)
  {
    OpeningOk(session);
    PlayKeepsOk(d, Opening(session), actions);
    var w := Play(d, Opening(session), actions);
    assert IdOk(w, id);
    if w.pc.Releasing? && w.pc.id == id { LoopReleaseKeepsOk(d, w); }
  }
}
