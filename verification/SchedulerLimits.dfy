// Per-QP credit limits of the work scheduler: no QP ever uses more than its limit
// allows, as long as nobody lowers the limit under it.
module SchedulerLimits {
  import opened Common
  import opened Sgl
  import opened FalconCredits
  import opened Scheduler
  import TB = TokenBucket

  // Every QP is within its limit, and every listed QP can afford its next
  // transaction.
  ghost predicate Affordable(c: Config, l: Lane, ty: WorkType, qps: seq<Qp>)
    requires Sane(c)
  {
    forall k :: 0 <= k < |l.queue| && l.queue[k] < |qps| ==> HasCredits(c, qps[l.queue[k]], ty)
  }

  ghost predicate Within(c: Config, s: Sched)
    requires Sane(c)
  {
    && (forall k :: 0 <= k < |s.qps| ==> Leq(s.qps[k].usage, s.qps[k].limit))
    && Affordable(c, s.request, Request, s.qps)
    && Affordable(c, s.response, Response, s.qps)
  }

  // A new context that affords whatever the old one afforded.
  predicate NoPoorer(c: Config, q: Qp, q': Qp)
    requires Sane(c)
  {
    && (HasCredits(c, q, Request) ==> HasCredits(c, q', Request))
    && (HasCredits(c, q, Response) ==> HasCredits(c, q', Response))
    && Leq(q'.usage, q'.limit)
  }

  lemma RunWithin(c: Config, s: Sched)
    requires Sane(c) && s.bucket.last <= s.now && Within(c, s)
    ensures Within(c, RunWorkScheduler(c, s))
  {
    hide HasCredits, Leq, Minimum, CanSend;
    var r := RunWorkScheduler(c, s);
    assert r.request.queue == s.request.queue && r.response.queue == s.response.queue;
  }

  lemma AddWithin(c: Config, s: Sched, id: nat, ty: WorkType)
    requires Sane(c) && s.bucket.last <= s.now && id < |s.qps| && Within(c, s)
    ensures Within(c, AddQpToScheduleSet(c, s, id, ty))
  {
    hide HasCredits, Leq, RunWorkScheduler;
    var l := s.LaneOf(ty);
    var l1 := l.(queue := l.queue + [id], members := l.members + {id});
    if HasCredits(c, s.qps[id], ty) {
      assert Affordable(c, l1, ty, s.qps);
      if s.idle {
        RunWithin(c, s.WithLane(ty, l1));
      }
    }
  }

  lemma SetQpWithin(c: Config, s: Sched, id: nat, q: Qp)
    requires Sane(c) && id < |s.qps| && Within(c, s) && NoPoorer(c, s.qps[id], q)
    ensures Within(c, SetQp(s, id, q))
  {
    hide HasCredits, Leq;
  }

  lemma NotifyWithin(c: Config, s: Sched, id: nat)
    requires Sane(c) && s.bucket.last <= s.now && id < |s.qps| && Within(c, s)
    ensures Within(c, Notify(c, s, id, Request)) && Within(c, Notify(c, s, id, Response))
    ensures Within(c, NotifyBoth(c, s, id))
  {
    hide Within, AddQpToScheduleSet;
    AddWithin(c, s, id, Request);
    AddWithin(c, s, id, Response);
    AddWithin(c, Notify(c, s, id, Request), id, Response);
  }

  // Requests and responses draw on different pools, so paying for one leaves the
  // other as affordable as it was.
  lemma ChargeWithin(c: Config, q: Qp, ty: WorkType)
    requires Sane(c) && HasCredits(c, q, ty)
    ensures var t := Take(c, q, ty);
            var q1 := t.qp.(usage := Plus(t.qp.usage, t.credit));
            && Leq(q1.usage, q1.limit)
            && (HasCredits(c, q, Other(ty)) ==> HasCredits(c, q1, Other(ty)))
  {
    hide TxBuffer, RxBuffer, Cut;
  }

  lemma SendWithin(c: Config, s: Sched, id: nat)
    requires Sane(c) && Within(c, s) && id < |s.qps|
    requires var l := s.LaneOf(s.workType); l.queue != [] && l.queue[0] == id && Distinct(l.queue)
    requires s.workType.Response? ==> !ReadBlocked(c, s.qps[id])
    requires SendTransaction(c, s, id).Some?
    ensures Within(c, SendTransaction(c, s, id).value)
  {
    var ty := s.workType;
    assert HasCredits(c, s.qps[id], ty);
    ChargeWithin(c, s.qps[id], ty);
    var t := Take(c, s.qps[id], ty);
    var s1 := Charge(c, s, id, t);
    assert ty.Response? ==> t.qp.sendQueue == s.qps[id].sendQueue && t.qp.outboundReads == s.qps[id].outboundReads;
    assert HasCredits(c, s.qps[id], Other(ty)) ==> HasCredits(c, s1.qps[id], Other(ty));
    hide HasCredits, Take, Leq, Plus, CanSend, Continue, Charge;
    ContinueShape(c, s1, id);
    ShapeWithin(c, s, s1, Continue(c, s1, id).value, id);
  }

  lemma ShapeWithin(c: Config, s: Sched, s1: Sched, r: Sched, id: nat)
    requires Sane(c) && Within(c, s) && id < |s.qps| && |s1.qps| == |s.qps|
    requires forall k :: 0 <= k < |s.qps| && k != id ==> s1.qps[k] == s.qps[k]
    requires var l := s.LaneOf(s.workType); l.queue != [] && l.queue[0] == id && Distinct(l.queue)
    requires Leq(s1.qps[id].usage, s1.qps[id].limit)
    requires HasCredits(c, s.qps[id], Other(s.workType)) ==> HasCredits(c, s1.qps[id], Other(s.workType))
    requires r.qps == s1.qps && r.LaneOf(Other(s.workType)).queue == s.LaneOf(Other(s.workType)).queue
    requires var l, l' := s.LaneOf(s.workType), r.LaneOf(s.workType);
             || (l'.queue == l.queue && HasCredits(c, s1.qps[id], s.workType))
             || l'.queue == l.queue[1..]
    ensures Within(c, r)
  {
    hide HasCredits, Leq;
    var l, l' := s.LaneOf(s.workType), r.LaneOf(s.workType);
    assert Affordable(c, l', s.workType, r.qps) by {
      assert l'.queue == l.queue[1..] ==> forall k :: 0 <= k < |l'.queue| ==> l'.queue[k] == l.queue[k + 1];
    }
  }

  // The QP can pay for its next two responses.
  predicate AffordsTwo(c: Config, q: Qp)
    requires Sane(c)
  {
    && |q.inboundReads| >= 2
    && Leq(Plus(Plus(q.usage, ResponseCredit(c.units, q.inboundReads[0])),
                ResponseCredit(c.units, q.inboundReads[1])), q.limit)
  }

  lemma ResponseLeft(c: Config, q: Qp)
    requires Sane(c) && HasCredits(c, q, Response)
    ensures var t := Take(c, q, Response);
            var q1 := t.qp.(usage := Plus(t.qp.usage, t.credit));
            && (HasWork(q1, Response) <==> |q.inboundReads| >= 2)
            && (HasCredits(c, q1, Response) <==> AffordsTwo(c, q))
  {
    hide ResponseCredit, Leq, Plus;
  }

  // A response that takes the outbound-read-depth branch leaves its QP listed, and no QP
  // over its limit yet. Afterwards every listed QP can pay for its next transaction
  // exactly if this one could pay for two responses. Otherwise it is listed without work,
  // if this was its last response, or without the credits for the next.
  lemma DepthBranchLimits(c: Config, s: Sched, id: nat)
    requires Sane(c) && Within(c, s) && id < |s.qps| && s.workType.Response? && ReadBlocked(c, s.qps[id])
    requires s.response.queue != [] && s.response.queue[0] == id && s.request.queue != []
    requires SendTransaction(c, s, id).Some?
    ensures var r := SendTransaction(c, s, id).value;
            && id < |r.qps| && r.response.queue == s.response.queue
            && (forall k :: 0 <= k < |r.qps| ==> Leq(r.qps[k].usage, r.qps[k].limit))
            && (Within(c, r) <==> AffordsTwo(c, s.qps[id]))
            && (HasWork(r.qps[id], Response) <==> |s.qps[id].inboundReads| >= 2)
  {
    assert HasCredits(c, s.qps[id], Response);
    ChargeWithin(c, s.qps[id], Response);
    ResponseLeft(c, s.qps[id]);
    var t := Take(c, s.qps[id], Response);
    var s1 := Charge(c, s, id, t);
    assert s1.request == s.request && s1.response.queue == s.response.queue && s1.workType == s.workType;
    assert ReadBlocked(c, s1.qps[id]) && forall k :: 0 <= k < |s.qps| && k != id ==> s1.qps[k] == s.qps[k];
    assert HasCredits(c, s.qps[id], Request) ==> HasCredits(c, s1.qps[id], Request);
    assert HasCredits(c, s1.qps[id], Response) <==> AffordsTwo(c, s.qps[id]);
    hide HasCredits, AffordsTwo, Take, Leq, Plus, CanSend, Continue, Charge, ReadBlocked;
    DepthBranchShape(c, s1, id);
    var r := Continue(c, s1, id).value;
    assert Affordable(c, r.request, Request, r.qps) by {
      assert forall k :: 0 <= k < |r.request.queue| ==> r.request.queue[k] == s.request.queue[k + 1];
    }
    assert r.response.queue[0] == id;
  }

  // ---- whole runs ----------------------------------------------------------------

  // The context still covers what the QP uses, and what it is listed for.
  predicate StillCovers(c: Config, s: Sched, id: nat, q: Qp)
    requires Sane(c)
  {
    && Leq(q.usage, q.limit)
    && (id in s.request.queue ==> HasCredits(c, q, Request))
    && (id in s.response.queue ==> HasCredits(c, q, Response))
  }

  // No limit is lowered below what it has to cover, and no response takes the
  // outbound-read-depth branch without credits for one more.
  predicate LimitRespected(c: Config, s: Sched, step: Step)
    requires Sane(c)
  {
    && (step.SetLimit? && step.id < |s.qps| ==>
          StillCovers(c, s, step.id, s.qps[step.id].(limit := ClampLimit(step.limit, c.perQp))))
    && (step.Fire? && step.k < |s.chain| && s.chain[step.k].LookupEvent? && s.chain[step.k].qp < |s.qps| ==>
          var q := s.qps[s.chain[step.k].qp];
          s.workType.Response? && ReadBlocked(c, q) ==> AffordsTwo(c, q))
  }

  lemma FireWithin(c: Config, s: Sched, k: nat)
    requires Sane(c) && Inv(c, s, c.total) && Within(c, s) && k < |s.chain| && DepthRespected(c, s, Fire(k))
    requires FireChain(c, s, k).Some?
    ensures Within(c, FireChain(c, s, k).value) <==> LimitRespected(c, s, Fire(k))
  {
    hide Within, Minimum, Leq, BooksOk, AffordsTwo;
    var s1 := s.(chain := Without(s.chain, k));
    assert Within(c, s1) by { SameLists(c, s, s1); }
    match s.chain[k]
    case RunEvent => RunWithin(c, s1);
    case LookupEvent(id) =>
      if s.workType.Response? && ReadBlocked(c, s.qps[id]) {
        DepthBranchLimits(c, s1, id);
      } else {
        SendWithin(c, s1, id);
      }
  }

  lemma SameLists(c: Config, s: Sched, s': Sched)
    requires Sane(c) && Within(c, s)
    requires s'.qps == s.qps && s'.request == s.request && s'.response == s.response
    ensures Within(c, s')
  {
  }

  // The context changes a step may make, other than sending.
  lemma StepNoPoorer(c: Config, q: Qp, step: Step)
    requires Sane(c) && Leq(q.usage, q.limit) && ChangesContext(step)
    requires step.ReadDone? ==> q.outboundReads > 0
    requires !step.SetLimit?
    ensures NoPoorer(c, q, NewContext(c, q, step))
  {
    hide RequestCredit, ResponseCredit, ClampLimit;
  }

  lemma InformWithin(c: Config, s: Sched, step: Step, was: Qp)
    requires Sane(c) && s.bucket.last <= s.now && Within(c, s) && ChangesContext(step) && step.id < |s.qps|
    ensures Within(c, Inform(c, s, step, was))
  {
    NotifyWithin(c, s, step.id);
    AddWithin(c, s, step.id, Request);
    hide Within, Notify, NotifyBoth, AddQpToScheduleSet;
  }

  lemma ContextStepWithin(c: Config, s: Sched, step: Step)
    requires Sane(c) && s.bucket.last <= s.now && Within(c, s) && ChangesContext(step) && !step.SetLimit?
    requires Enabled(c, s, step)
    ensures Within(c, Next(c, s, step).value)
  {
    var q := s.qps[step.id];
    StepNoPoorer(c, q, step);
    hide NewContext, Inform, NoPoorer, Affordable;
    SetQpWithin(c, s, step.id, NewContext(c, q, step));
    InformWithin(c, SetQp(s, step.id, NewContext(c, q, step)), step, q);
  }

  // Both lanes only grow, and the QPs stay as they are.
  predicate Grows(s: Sched, r: Sched) {
    r.qps == s.qps && s.request.queue <= r.request.queue && s.response.queue <= r.response.queue
  }

  lemma RunGrows(c: Config, s: Sched)
    requires Sane(c) && s.bucket.last <= s.now
    ensures Grows(s, RunWorkScheduler(c, s))
  {
    hide CanSend, TB.Refill;
  }

  lemma AddGrows(c: Config, s: Sched, id: nat, ty: WorkType)
    requires Sane(c) && s.bucket.last <= s.now && id < |s.qps|
    ensures Grows(s, AddQpToScheduleSet(c, s, id, ty))
  {
    hide HasCredits, RunWorkScheduler;
    var l := s.LaneOf(ty);
    RunGrows(c, s.WithLane(ty, l.(queue := l.queue + [id], members := l.members + {id})));
  }

  lemma BothGrow(c: Config, s: Sched, id: nat)
    requires Sane(c) && s.bucket.last <= s.now && id < |s.qps|
    ensures Grows(s, NotifyBoth(c, s, id))
  {
    hide HasCredits, AddQpToScheduleSet;
    AddGrows(c, s, id, Request);
    AddGrows(c, s, id, Response);
    AddGrows(c, Notify(c, s, id, Request), id, Response);
  }

  // What is not affordable does not become so by listing more.
  lemma WithinBefore(c: Config, s: Sched, r: Sched)
    requires Sane(c) && Grows(s, r) && Within(c, r)
    ensures Within(c, s)
  {
    hide HasCredits, Leq;
    assert forall k :: 0 <= k < |s.request.queue| ==> r.request.queue[k] == s.request.queue[k];
    assert forall k :: 0 <= k < |s.response.queue| ==> r.response.queue[k] == s.response.queue[k];
  }

  lemma SetQpCovers(c: Config, s: Sched, id: nat, q: Qp)
    requires Sane(c) && id < |s.qps| && Within(c, s)
    ensures Within(c, SetQp(s, id, q)) <==> StillCovers(c, s, id, q)
  {
    hide HasCredits, Leq;
    var s1 := SetQp(s, id, q);
    assert s1.qps[id] == q;
    if Within(c, s1) {
      if id in s.request.queue {
        var k :| 0 <= k < |s.request.queue| && s.request.queue[k] == id;
      }
      if id in s.response.queue {
        var k :| 0 <= k < |s.response.queue| && s.response.queue[k] == id;
      }
    }
  }

  lemma SetLimitWithin(c: Config, s: Sched, id: nat, limit: Credit)
    requires Sane(c) && s.bucket.last <= s.now && Within(c, s) && id < |s.qps|
    ensures Within(c, Next(c, s, SetLimit(id, limit)).value) <==> LimitRespected(c, s, SetLimit(id, limit))
  {
    hide Within, StillCovers, NotifyBoth, Grows, Leq, ClampLimit;
    var q := s.qps[id].(limit := ClampLimit(limit, c.perQp));
    var s1 := SetQp(s, id, q);
    SetQpCovers(c, s, id, q);
    BothGrow(c, s1, id);
    if Within(c, s1) {
      NotifyWithin(c, s1, id);
    } else if Within(c, NotifyBoth(c, s1, id)) {
      WithinBefore(c, s1, NotifyBoth(c, s1, id));
    }
  }

  // A step keeps every QP within its limit, and every listed QP able to pay for its next
  // transaction, exactly if it respects the limits.
  lemma KeepsWithin(c: Config, s: Sched, step: Step)
    requires Sane(c) && Inv(c, s, c.total) && Within(c, s) && Enabled(c, s, step) && DepthRespected(c, s, step)
    ensures Next(c, s, step).Some? && (Within(c, Next(c, s, step).value) <==> LimitRespected(c, s, step))
  {
    Keeps(c, s, step, c.total);
    InvClock(c, s, c.total);
    hide Inv, DepthRespected, RunWorkScheduler, AddQpToScheduleSet, FireChain, Notify, NotifyBoth, Affordable, Leq,
         AffordsTwo, StillCovers, HasCredits;
    if step.SetLimit? {
      SetLimitWithin(c, s, step.id, step.limit);
    } else if ChangesContext(step) {
      ContextStepWithin(c, s, step);
    } else {
      match step
      case Tick(to) =>
      case Fire(k) => FireWithin(c, s, k);
      case FireAdd(k) =>
        var ev := s.adds[k];
        AddWithin(c, s.(adds := Without(s.adds, k)), ev.qp, if ev.DelayedAdd? then ev.ty else s.workType);
      case SetXoff(requests, all) => RunWithin(c, s.(requestXoff := requests, globalXoff := all));
      case ReturnCredit(id, credit) => ReturnWithin(c, s, id, credit);
      case CreateQp(limit) => CreateWithin(c, s, limit);
    }
  }

  lemma ReturnWithin(c: Config, s: Sched, id: nat, credit: Credit)
    requires Sane(c) && s.bucket.last <= s.now && Within(c, s) && id < |s.qps| && Leq(credit, s.qps[id].usage)
    ensures Within(c, DoReturn(c, s, id, credit))
  {
    var q := s.qps[id].(usage := Minus(s.qps[id].usage, credit));
    SetQpWithin(c, s, id, q);
    NotifyWithin(c, SetQp(s, id, q), id);
    hide NotifyBoth, RunWorkScheduler, HasCredits, Leq;
    var s1 := NotifyBoth(c, SetQp(s, id, q), id);
    SameLists(c, s1, s1.(credits := Plus32(s1.credits, credit)));
    RunWithin(c, s1.(credits := Plus32(s1.credits, credit)));
  }

  lemma CreateWithin(c: Config, s: Sched, limit: Credit)
    requires Sane(c) && Inv(c, s, c.total) && Within(c, s)
    ensures Within(c, Next(c, s, CreateQp(limit)).value)
  {
    hide HasCredits, BooksOk, ChainOk;
  }

  predicate LimitsKept(c: Config, h: History)
    requires Sane(c)
  {
    match h
    case Start => true
    case After(before, step) =>
      LimitsKept(c, before) && (Reach(c, before).Some? ==> LimitRespected(c, Reach(c, before).value, step))
  }

  lemma {:induction false} RunsStayWithin(c: Config, h: History)
    requires Sane(c) && Legal(c, h) && LimitsKept(c, h)
    ensures Reach(c, h).Some? && Within(c, Reach(c, h).value)
  {
    match h
    case Start =>
    case After(before, step) =>
      RunsKeepInv(c, before);
      RunsStayWithin(c, before);
      hide Within, Inv;
      KeepsWithin(c, Reach(c, before).value, step);
  }

  ghost predicate AlwaysWithin(c: Config, h: History)
    requires Sane(c)
  {
    && Reach(c, h).Some? && Within(c, Reach(c, h).value)
    && (h.After? ==> AlwaysWithin(c, h.before))
  }

  // Of the legal runs, exactly those that respect the limits have every QP within its
  // limit and every listed QP able to pay, throughout.
  lemma {:induction false} LimitsExact(c: Config, h: History)
    requires Sane(c) && Legal(c, h)
    ensures AlwaysWithin(c, h) <==> LimitsKept(c, h)
  {
    RunsKeepInv(c, h);
    hide Within, Inv, Next, Enabled, DepthRespected, LimitRespected;
    match h
    case Start => RunsStayWithin(c, h);
    case After(before, step) =>
      LimitsExact(c, before);
      RunsKeepInv(c, before);
      if LimitsKept(c, before) {
        RunsStayWithin(c, before);
        InvClock(c, Reach(c, before).value, c.total);
        KeepsWithin(c, Reach(c, before).value, step);
      }
  }

  // No run takes a QP over its credit limit in any of the six pools, as long as every
  // step respects the limits.
  lemma UsageWithinLimits(c: Config, h: History, id: nat)
    requires Sane(c) && Legal(c, h) && LimitsKept(c, h)
    requires Reach(c, h).Some? && id < |Reach(c, h).value.qps|
    ensures var q := Reach(c, h).value.qps[id]; Leq(q.usage, q.limit)
  {
    RunsStayWithin(c, h);
  }
}
