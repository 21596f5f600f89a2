// The work scheduler as the object the simulator updates in place. Each method is
// proved to take the step that Scheduler gives as a function of the state, so the
// theorems about whole runs there are about these methods.
module WorkScheduler {
  import opened Common
  import opened FalconCredits
  import opened Scheduler
  import TB = TokenBucket

  // `now`, `chain`, `adds` and `qps` stand for the environment's clock, the events
  // scheduled with it, and the contexts kept by the QP manager.
  class WorkScheduler {
    const c: Config
    var request: Lane
    var response: Lane
    var requestXoff: bool
    var globalXoff: bool
    var idle: bool
    var workType: WorkType
    var credits: Credit
    var lastRun: nat
    var bucket: TB.Bucket
    var now: nat
    var chain: seq<ChainEvent>
    var adds: seq<AddEvent>
    var qps: seq<Qp>

    function View(): Sched
      reads this
    {
      Sched(request, response, requestXoff, globalXoff, idle, workType, credits, lastRun, bucket, now, chain, adds, qps)
    }

    predicate Valid()
      reads this
    {
      Sane(c) && bucket.last <= now
    }

    // The invariant of every run.
    ghost predicate InOrder()
      requires Sane(c)
      reads this
    {
      Inv(c, View(), c.total)
    }

    // The event for this QP, at the head of the current lane, was just taken.
    ghost predicate Due(id: nat)
      requires Sane(c)
      reads this
    {
      && BooksOk(c, View(), c.total) && chain == [] && !idle
      && LaneOk(request, Request, qps) && LaneOk(response, Response, qps)
      && Ready(c, View(), id) && id < |qps|
    }

    constructor (c: Config)
      requires Sane(c)
      ensures this.c == c && Valid() && View() == Boot(c)
    {
      this.c := c;
      request, response := EmptyLane, EmptyLane;
      requestXoff, globalXoff, idle := false, false, true;
      workType := Request;
      credits := c.total;
      lastRun, now := 0, 0;
      bucket := TB.Full(c.bucket);
      chain, adds, qps := [], [], [];
    }

    method RunWorkScheduler()
      requires Valid()
      modifies this
      ensures Valid() && View() == Scheduler.RunWorkScheduler(c, old(View()))
    {
      idle := false;
      var nextRun := if now >= lastRun + c.cycle then now else lastRun + c.cycle;
      if nextRun > now {
        chain := chain + [RunEvent];
        return;
      }
      TB.RefillTime(c.bucket, bucket, now);
      bucket := TB.Refill(c.bucket, bucket, now);
      if bucket.tokens < c.units.mtu + RDMA_HEADER {
        chain := chain + [RunEvent];
        return;
      }
      var canSendRequest := CanSend(c, View(), Request);
      var canSendResponse := CanSend(c, View(), Response);
      if !canSendRequest && !canSendResponse {
        idle := true;
        return;
      }
      if workType.Response? && !canSendResponse {
        workType := Request;
      } else if workType.Request? && !canSendRequest {
        workType := Response;
      }
      ReplenishQuanta();
      chain := chain + [LookupEvent(if workType.Request? then request.queue[0] else response.queue[0])];
    }

    method ReplenishQuanta()
      modifies this`request, this`response
      ensures View() == var l := old(View()).LaneOf(workType);
                        old(View()).WithLane(workType, if l.bytes == 0 && l.ops == 0
                                                       then l.(bytes := c.quanta, ops := OPS_PER_QUANTA) else l)
    {
      if workType.Request? {
        if request.bytes == 0 && request.ops == 0 {
          request := request.(bytes := c.quanta, ops := OPS_PER_QUANTA);
        }
      } else if response.bytes == 0 && response.ops == 0 {
        response := response.(bytes := c.quanta, ops := OPS_PER_QUANTA);
      }
    }

    method AddQpToScheduleSet(id: nat, ty: WorkType)
      requires Valid() && id < |qps|
      modifies this
      ensures Valid() && View() == Scheduler.AddQpToScheduleSet(c, old(View()), id, ty)
      ensures old(InOrder()) ==> InOrder()
    {
      hide Inv, HasCredits, Xoff;
      if InOrder() {
        AddKeeps(c, View(), id, ty, c.total);
      }
      if qps[id].nextScheduleTime > now {
        adds := adds + [DelayedAdd(id, ty)];
        return;
      }
      if !HasCredits(c, qps[id], ty) || Xoff(qps[id], ty) {
        return;
      }
      if ty.Request? {
        if id in request.members {
          return;
        }
        request := request.(queue := request.queue + [id], members := request.members + {id});
      } else {
        if id in response.members {
          return;
        }
        response := response.(queue := response.queue + [id], members := response.members + {id});
      }
      if idle {
        RunWorkScheduler();
      }
    }

    method SetXoff(requests: bool, all: bool)
      requires Valid()
      modifies this
      ensures Valid() && Next(c, old(View()), Step.SetXoff(requests, all)) == Some(View())
      ensures old(InOrder()) ==> InOrder()
    {
      hide Inv;
      if InOrder() {
        XoffKeeps(c, View(), requests, all, c.total);
      }
      requestXoff, globalXoff := requests, all;
      if idle {
        RunWorkScheduler();
      }
    }

    // Half of a returned credit: the QP's half is the QP context's own update.
    method ReturnFalconCredits(credit: Credit)
      requires Valid()
      modifies this
      ensures Valid() && View() == RunIfIdle(c, old(View()).(credits := Plus32(old(credits), credit)))
    {
      credits := Plus32(credits, credit);
      if idle {
        RunWorkScheduler();
      }
    }

    method UpdateWorkType()
      requires Valid()
      modifies this`workType
      ensures View() == Scheduler.UpdateWorkType(c, old(View()))
    {
      match workType
      case Request => if CanSend(c, View(), Response) { workType := Response; }
      case Response => if CanSend(c, View(), Request) { workType := Request; }
    }

    method ResetQuanta()
      modifies this`request, this`response
      ensures View() == Scheduler.ResetQuanta(old(View()))
    {
      if workType.Request? {
        request := request.(bytes := 0, ops := 0);
      } else {
        response := response.(bytes := 0, ops := 0);
      }
    }

    method SpendQuanta(size: nat)
      modifies this`request, this`response
      ensures View() == Scheduler.SpendQuanta(old(View()), size)
    {
      if workType.Request? {
        request := request.(bytes := if request.bytes >= size then request.bytes - size else 0, ops := request.ops - 1);
      } else {
        response := response.(bytes := if response.bytes >= size then response.bytes - size else 0,
                              ops := response.ops - 1);
      }
    }

    // The bookkeeping of a send, up to handing the packet to Falcon.
    method Charge(id: nat, t: Taken)
      requires id < |qps| && t.wire <= bucket.tokens
      modifies this
      ensures View() == Scheduler.Charge(c, old(View()), id, t)
    {
      hide Plus, Minus, Scheduler.SpendQuanta;
      SpendQuanta(t.wire + OUTER_HEADER);
      credits := Minus(credits, t.credit);
      bucket := bucket.(tokens := bucket.tokens - t.wire);
      var next := if t.qp.nextScheduleTime <= now then now + c.opGap else t.qp.nextScheduleTime + c.opGap;
      qps := qps[id := t.qp.(usage := Plus(t.qp.usage, t.credit), nextScheduleTime := next)];
      lastRun := now;
    }

    // Takes the QP off the head of its lane and ends its turn.
    method EndTurn(id: nat, comeBack: bool)
      requires Valid() && View().LaneOf(workType).queue != []
      modifies this
      ensures Valid() && View() == Scheduler.EndTurn(c, old(View()), id, comeBack)
    {
      if workType.Request? {
        request := request.(members := request.members - {id}, queue := request.queue[1..]);
      } else {
        response := response.(members := response.members - {id}, queue := response.queue[1..]);
      }
      if comeBack {
        adds := adds + [AddBack(id, workType)];
      }
      ResetQuanta();
      hide Scheduler.UpdateWorkType;
      UpdateWorkType();
      chain := chain + [RunEvent];
    }

    // The rest of a send. `ok` is false where the source would pop an empty deque.
    method Continue(id: nat) returns (ok: bool)
      requires Valid() && id < |qps|
      modifies this
      ensures ok == Scheduler.Continue(c, old(View()), id).Some?
      ensures ok ==> View() == Scheduler.Continue(c, old(View()), id).value
    {
      hide HasCredits, Xoff, Scheduler.UpdateWorkType, Scheduler.EndTurn;
      var q := qps[id];
      if q.outboundReads >= c.readDepth && q.sendQueue != [] && q.sendQueue[0].opcode.Read? {
        if request.queue == [] { return false; }
        request := request.(members := request.members - {id}, queue := request.queue[1..]);
        chain := chain + [RunEvent];
        ResetQuanta();
        UpdateWorkType();
        return true;
      }
      var hasCredits := HasCredits(c, q, workType);
      var hasQuanta := if workType.Request? then request.bytes > 0 && request.ops > 0
                       else response.bytes > 0 && response.ops > 0;
      var noXoff := !Xoff(q, workType);
      if hasQuanta && hasCredits && noXoff {
        chain := chain + [RunEvent];
        return true;
      }
      if (if workType.Request? then request.queue == [] else response.queue == []) {
        return false;
      }
      EndTurn(id, hasCredits && noXoff);
      return true;
    }

    // `ok` is false where the source would crash: a QP without work, a token bucket
    // that cannot cover the packet, or an empty deque. When the event of the QP is due,
    // all goes well exactly if a response does not take the outbound-read-depth branch
    // where that does harm.
    method SendTransaction(id: nat) returns (ok: bool)
      requires Valid()
      modifies this
      ensures ok == Scheduler.SendTransaction(c, old(View()), id).Some?
      ensures ok ==> View() == Scheduler.SendTransaction(c, old(View()), id).value
      ensures old(Due(id)) ==> (ok && InOrder() <==> old(DepthOk(c, View(), id)))
    {
      hide BooksOk, LaneOk, Ready, Take, Scheduler.Continue, Inv, DepthOk;
      if Due(id) {
        SendKeeps(c, View(), id, c.total);
      }
      if id >= |qps| || !HasWork(qps[id], workType) {
        return false;
      }
      var t := Take(c, qps[id], workType);
      if t.segments > MAX_SEGMENTS || t.wire > bucket.tokens {
        return false;
      }
      Charge(id, t);
      ok := Continue(id);
    }

    // The one pending event fires and takes the step of the model.
    method FireChain(k: nat) returns (ok: bool)
      requires Valid() && InOrder() && k < |chain|
      modifies this
      ensures ok == Next(c, old(View()), Fire(k)).Some?
      ensures ok ==> Next(c, old(View()), Fire(k)) == Some(View())
      ensures ok && InOrder() <==> old(DepthRespected(c, View(), Fire(k)))
    {
      hide Inv, DepthRespected, Scheduler.SendTransaction, Scheduler.RunWorkScheduler;
      FireKeeps(c, View(), k, c.total);
      var event := chain[k];
      chain := Without(chain, k);
      match event
      case RunEvent =>
        RunWorkScheduler();
        ok := true;
      case LookupEvent(id) =>
        ok := SendTransaction(id);
    }

    // A QP that waited comes back to its lane.
    method FireAdd(k: nat)
      requires Valid() && InOrder() && k < |adds|
      modifies this
      ensures Valid() && InOrder() && Next(c, old(View()), Step.FireAdd(k)) == Some(View())
    {
      hide LaneOk, QpOk, Usage, Scheduler.AddQpToScheduleSet;
      FireAddKeeps(c, View(), k, c.total);
      var event := adds[k];
      adds := Without(adds, k);
      AddQpToScheduleSet(event.qp, if event.DelayedAdd? then event.ty else workType);
    }
  }
}
