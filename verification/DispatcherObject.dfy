/** The dispatcher object over the service object.  Each method is one thread's call
    with no other thread in between; `Dispatcher` interleaves its lock regions. */
module DispatcherObject {
  import opened Options
  import opened MetalSession
  import opened MetalService
  import opened ServiceObject
  import opened ServiceRefinement
  import opened Dispatcher
  import opened PollingLoop

  class GenerationDispatcher<K> {
    const requests: MetalInferenceService<K>
    var watchers: map<nat, Callback>
    var running: bool
    var log: seq<Delivery>  // the callbacks invoked
    ghost var inputs: map<nat, GenerateRequest>
    ghost var polled: map<nat, seq<Token>>
    ghost var releases: seq<nat>

    ghost function At(pc: Pc): World<K>
      reads this, requests, requests.session
    {
      World(History(requests.Contents(), inputs, polled), watchers, pc, running, None, log, releases)
    }

    constructor (requests: MetalInferenceService<K>)
      ensures this.requests == requests && watchers == map[] && !running && log == []
      ensures inputs == map[] && polled == map[] && releases == []
    {
      this.requests := requests;
      watchers, running, log := map[], false, [];
      inputs, polled, releases := map[], map[], [];
    }

    method WatchRequest(id: nat, tag: nat)
      modifies this`watchers
      ensures At(Idle) == Do(requests.deployment, old(At(Idle)), Watch(id, tag))
    {
      watchers := watchers[id := Client(tag)];
    }

    method UnwatchRequest(id: nat)
      modifies this`watchers
      ensures At(Idle) == Do(requests.deployment, old(At(Idle)), Unwatch(id))
    {
      watchers := watchers - {id};
    }

    method Forward(id: nat)
      requires requests.Valid()
      modifies this`releases, requests
      ensures requests.Valid()
      ensures At(Idle) == TryRelease(requests.deployment, old(At(Idle)), id)
    {
      var done := requests.ReleaseRequest(id);
      if done { releases := releases + [id]; }
    }

    method CancelRequest(id: nat)
      requires requests.Valid()
      modifies this`watchers, this`releases, requests
      ensures var begun := Do(requests.deployment, old(At(Idle)), CancelBegin(id));
        At(Idle) == if begun.cancelling.Some? then Do(requests.deployment, begun, CancelEnd) else begun
    {
      hide Live, QueuedIds, Submit, Step, Poll;
      watchers := watchers - {id};
      var cancelled := requests.CancelRequest(id);
      if cancelled {
        watchers := watchers[id := Ignore];
      } else {
        Forward(id);
      }
    }

    /** Copies the watched ids in whatever order the table yields them. */
    method WatchedIds() returns (ids: seq<nat>)
      ensures Enumerates(ids, watchers.Keys)
    {
      ids := [];
      var rest := watchers.Keys;
      while rest != {}
        invariant rest <= watchers.Keys && Enumerates(ids, watchers.Keys - rest)
        decreases rest
      {
        var id :| id in rest;
        ids := ids + [id];
        rest := rest - {id};
      }
    }

    /** Hands an event over to its callback, which may throw. */
    method HandOver(event: Event, throws: bool, ghost rest: seq<nat>) returns (ghost pc: Pc, alive: bool)
      requires requests.Valid()
      modifies this`watchers, this`log, this`releases, this`running, requests
      ensures requests.Valid() && (if alive then pc == Polling(rest) else pc == Threw(event.id))
      ensures polled == old(polled)
      ensures var delivered := Deliver(old(At(Delivering(event, rest))), throws);
        At(pc) == if delivered.pc.Releasing? then
          TryRelease(requests.deployment, delivered, event.id).(pc := Polling(rest)) else delivered
    {
      hide Observe, Release;
      pc, alive := Polling(rest), true;
      if event.id !in watchers { return; }
      log := log + [Delivery(watchers[event.id], event)];
      if throws && watchers[event.id].Client? {
        running := false;
        return Threw(event.id), false;
      }
      if event.finished {
        watchers := watchers - {event.id};
        Forward(event.id);
      }
    }

    /** Polls one id, recording the tokens that are out; no event for an unknown one. */
    method PollOne(id: nat, ghost rest: seq<nat>) returns (event: Option<Event>, ghost pc: Pc)
      requires requests.Valid()
      modifies this`polled, this`running, requests
      ensures requests.Valid()
      ensures At(pc) == PollNext(requests.deployment, old(At(Polling([id] + rest))))
      ensures match event
        case None => pc == Ended
        case Some(e) =>
          e.id == id && pc == if e.tokens == [] && !e.finished then Polling(rest) else Delivering(e, rest)
    {
      hide Live, QueuedIds, Submit, Step, Cancel, Release;
      assert ([id] + rest)[1..] == rest;
      event := requests.PollRequest(id, 0);
      match event
      case None =>
        running := false;
        pc := Ended;
      case Some(e) =>
        if id in polled { polled := polled[id := polled[id] + e.tokens]; }
        pc := if e.tokens == [] && !e.finished then Polling(rest) else Delivering(e, rest);
    }

    /** Polls one id and hands the event over to its callback, which may throw.  The loop does
        not survive an unknown id or that exception. */
    method PollAndDeliver(id: nat, ghost rest: seq<nat>, throws: set<nat>)
      returns (ghost pc: Pc, alive: bool, delivered: bool)
      requires requests.Valid()
      modifies this`watchers, this`log, this`polled, this`releases, this`running, requests
      ensures requests.Valid() && (alive <==> !Over(pc)) && (alive ==> pc == Polling(rest))
      ensures At(pc) == HandleOne(requests.deployment, old(At(Polling([id] + rest))), throws)
    {
      hide PollNext, Deliver, TryRelease;
      var event: Option<Event>;
      event, pc := PollOne(id, rest);
      alive, delivered := event.Some?, false;
      if event.None? || (event.value.tokens == [] && !event.value.finished) { return; }
      delivered := true;
      ReleasesDelivered(At(Delivering(event.value, rest)), id in throws);
      pc, alive := HandOver(event.value, id in throws, rest);
    }

    /** One pass of the loop: schedule, snapshot the watched ids, poll and deliver; `throws`
        are the ids whose callback throws. */
    method DispatchOnce(weather: Weather<K>, throws: set<nat>) returns (ghost order: seq<nat>, ghost pc: Pc)
      requires requests.Valid() && running
      modifies this, requests, requests.session
      ensures requests.Valid() && (if running then pc == Idle else Over(pc))
      ensures var d := requests.deployment;
        var stepped := Do(d, old(At(Idle)), LoopStep(weather));
        && Enumerates(order, old(watchers).Keys)
        && Finish(d, Do(d, stepped, LoopSnapshot(order)), throws) == At(pc)
    {
      hide Step, HandleOne, Finish;
      ghost var d := requests.deployment;
      var progressed := requests.StepOnce(weather);
      assert At(Stepped) == Do(d, old(At(Idle)), LoopStep(weather));
      var ids := WatchedIds();
      order := ids;
      ghost var start := At(Polling(ids));
      var delivered := false;
      assert ids[0..] == ids;
      for i := 0 to |ids|
        invariant requests.Valid() && running
        invariant Finish(d, At(Polling(ids[i..])), throws) == Finish(d, start, throws)
      {
        assert ids[i..] == [ids[i]] + ids[i + 1..];
        ghost var w := At(Polling(ids[i..]));
        var alive, some;
        pc, alive, some := PollAndDeliver(ids[i], ids[i + 1..], throws);
        StillRunning(d, w, throws);
        if !alive { return; }
        delivered := delivered || some;
      }
      assert ids[|ids|..] == [];
      PassEnds(d, At(Polling([])), throws);
      pc := Idle;
      // An idle pass sleeps here; the model has no clock.
    }
  }

  lemma ReleasesDelivered<K>(w: World<K>, throws: bool)
    requires w.pc.Delivering?
    ensures var next := Deliver(w, throws); next.pc.Releasing? ==> next.pc == Releasing(w.pc.event.id, w.pc.rest)
  {
  }

  lemma StillRunning<K>(d: Deployment<K>, w: World<K>, throws: set<nat>)
    requires w.pc.Polling? && w.pc.ids != [] && w.running
    ensures HandleOne(d, w, throws).running <==> !Over(HandleOne(d, w, throws).pc)
    ensures Finish(d, w, throws) ==
      if Over(HandleOne(d, w, throws).pc) then HandleOne(d, w, throws) else Finish(d, HandleOne(d, w, throws), throws)
  {
    hide Observe, Release;
  }

  lemma PassEnds<K>(d: Deployment<K>, w: World<K>, throws: set<nat>)
    requires w.pc == Polling([])
    ensures Finish(d, w, throws) == w.(pc := Idle)
  {
  }
}
