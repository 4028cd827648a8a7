/** What submitting, cancelling and releasing do to a request, and that a request that has
    ended never changes again. */
module Lifecycle {
  import opened Options
  import opened MetalSession
  import opened MetalService
  import opened ServiceRefinement
  import opened Dispatcher

  /** A submission is refused exactly for one of four faults, and the first of them is the
      error; every other submission is queued under the next id. */
  lemma SubmissionOutcome<K>(d: Deployment<K>, s: Service<K>, input: GenerateRequest)
    ensures var (s', r) := Submit(d, s, input);
      var long := (|input.prompt| + input.maxOutput) % SIZE_T_LIMIT > d.engine.maxContext;
      && (r.Accepted? <==> input.prompt != [] && !long && !input.multimodal && ValidConfig(input.generation))
      && (r.Rejected? ==> s' == s)
      && (r == Rejected(EmptyPrompt) <==> input.prompt == [])
      && (r == Rejected(ExceedsContext) <==> input.prompt != [] && long)
      && (r == Rejected(Multimodal) <==> input.prompt != [] && !long && input.multimodal)
      && (r.Accepted? ==>
        && r.id == s.nextId && s'.nextId == s.nextId + 1
        && s'.requests == s.requests[r.id := Request(input, Queued, [], 0, NoReason, None)]
        && s'.metrics.submitted == s.metrics.submitted + 1)
  {
    hide Live, QueuedIds, ValidConfig;
  }

  /** A cancel succeeds exactly for a live request; it ends that request as cancelled with
      all it generated, and touches no other. */
  lemma CancelOutcome<K>(s: Service<K>, id: nat)
    ensures var (s', done) := Cancel(s, id);
      && (done <==> id in s.requests && s.requests[id].status in {Queued, Prefilling, Decoding})
      && (!done ==> s' == s)
      && (done ==>
        && id in s'.requests
        && var r' := s'.requests[id];
        && r'.status.Cancelled? && r'.reason.CancelledReason?
        && s.requests[id] == r'.(status := s.requests[id].status, reason := s.requests[id].reason)
        && s'.requests.Keys == s.requests.Keys
        && (forall q :: q in s.requests && q != id ==> s'.requests[q] == s.requests[q])
        && s'.metrics.cancelled == s.metrics.cancelled + 1)
  {
  }

  /** A release succeeds exactly for a request that has ended, which is then unknown. */
  lemma ReleaseOutcome<K>(s: Service<K>, id: nat)
    ensures var (s', done) := Release(s, id);
      && (done <==> id in s.requests && s.requests[id].status in {Finished, Cancelled, Failed})
      && (!done ==> s' == s)
      && (done ==> id !in s'.requests && Poll(s', id, 0).1.None? && !Cancel(s', id).1)
      && (forall q :: q != id ==> (q in s'.requests <==> q in s.requests))
      && (forall q :: q in s.requests && q != id ==> s'.requests[q] == s.requests[q])
  {
  }

  lemma EndedOp<K>(d: Deployment<K>, h: History<K>, op: Op<K>, id: nat)
    requires Recorded(h) && Dead(h, id) && Known(h, id) && id in Observe(d, h, op).svc.requests
    ensures var h' := Observe(d, h, op);
      && Known(h', id) && Generated(h', id) == Generated(h, id)
      && h'.svc.requests[id] == h.svc.requests[id].(pending := h'.svc.requests[id].pending)
  {
    hide Step, Admit, Live, QueuedIds, IsNext, Next;
    match op
    case StepOp(w) => StepLeaves(d, h.svc, w, id);
    case PollOp(q, limit) => if q == id { PolledRequest(d, h, id, limit); }
    case _ =>
  }

  /** Whatever happens to the service afterwards, a request that has ended keeps its status,
      its reason and the tokens it generated for as long as it is known; polling hands out
      the rest of them and nothing more. */
  lemma {:induction false} EndedIsFinal<K>(d: Deployment<K>, h: History<K>, ops: seq<Op<K>>, id: nat)
    requires Recorded(h) && Dead(h, id) && Known(h, id)
    requires id in Run(d, h, ops).svc.requests
    ensures var h' := Run(d, h, ops);
      && Known(h', id) && Generated(h', id) == Generated(h, id)
      && h'.svc.requests[id] == h.svc.requests[id].(pending := h'.svc.requests[id].pending)
    decreases |ops|
  {
    if ops != [] {
      hide Observe;
      var next := Observe(d, h, ops[0]);
      OpLeaves(d, h, ops[0], id);
      OpKeepsRecorded(d, h, ops[0]);
      GoneStaysGone(d, next, ops[1..], id);
      EndedOp(d, h, ops[0], id);
      EndedIsFinal(d, next, ops[1..], id);
    }
  }

  /** Ids are never used twice: a request that is no longer known stays unknown. */
  lemma {:induction false} GoneStaysGone<K>(d: Deployment<K>, h: History<K>, ops: seq<Op<K>>, id: nat)
    requires Recorded(h) && id < h.svc.nextId
    ensures id !in h.svc.requests ==> id !in Run(d, h, ops).svc.requests
    decreases |ops|
  {
    if ops != [] {
      hide Observe;
      OpLeaves(d, h, ops[0], id);
      OpKeepsRecorded(d, h, ops[0]);
      GoneStaysGone(d, Observe(d, h, ops[0]), ops[1..], id);
    }
  }
}
