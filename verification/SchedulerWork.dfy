// No work is forgotten by the work scheduler, but for one event: a QP that is put back
// after its turn is added to whatever lane is current by then.
module SchedulerWork {
  import opened Common
  import opened Sgl
  import opened FalconCredits
  import opened Scheduler
  import opened SchedulerBooks
  import TB = TokenBucket

  // The QP has work of this type, credits for it and no xoff, and does not wait for a
  // read to finish.
  predicate Wants(c: Config, q: Qp, ty: WorkType)
    requires Sane(c)
  {
    HasCredits(c, q, ty) && !Xoff(q, ty) && !(ty.Request? && ReadBlocked(c, q))
  }

  // It is listed for it, or an event is pending that is to list it.
  predicate Attended(s: Sched, id: nat, ty: WorkType) {
    id in s.LaneOf(ty).queue || DelayedAdd(id, ty) in s.adds || AddBack(id, ty) in s.adds
  }

  predicate Served(c: Config, s: Sched, id: nat, ty: WorkType)
    requires Sane(c) && id < |s.qps|
  {
    Wants(c, s.qps[id], ty) ==> Attended(s, id, ty)
  }

  // The event that is to put the QP back fires while the other lane is current, and it
  // was the last hope of the QP.
  predicate Loses(c: Config, s: Sched, step: Step, id: nat, ty: WorkType)
    requires Sane(c) && id < |s.qps|
  {
    && step.FireAdd? && step.k < |s.adds| && s.adds[step.k] == AddBack(id, ty) && s.workType != ty
    && Wants(c, s.qps[id], ty)
    && !Attended(s.(adds := Without(s.adds, step.k)), id, ty)
  }

  // ---- listing only helps ----------------------------------------------------------

  // Lanes and pending events only grow, and the QPs stay as they are.
  predicate Grows(s: Sched, r: Sched) {
    && r.qps == s.qps && s.adds <= r.adds
    && s.request.queue <= r.request.queue && s.response.queue <= r.response.queue
  }

  lemma GrowsAttends(s: Sched, r: Sched, id: nat, ty: WorkType)
    requires Grows(s, r) && Attended(s, id, ty)
    ensures Attended(r, id, ty)
  {
    PrefixIn(s.request.queue, r.request.queue, id);
    PrefixIn(s.response.queue, r.response.queue, id);
    PrefixIn(s.adds, r.adds, DelayedAdd(id, ty));
    PrefixIn(s.adds, r.adds, AddBack(id, ty));
  }

  lemma PrefixIn<T>(a: seq<T>, b: seq<T>, x: T)
    requires a <= b
    ensures x in a ==> x in b
  {
  }

  lemma RunLists(c: Config, s: Sched)
    requires Sane(c) && s.bucket.last <= s.now
    ensures var r := RunWorkScheduler(c, s);
            && r.qps == s.qps && r.adds == s.adds
            && r.request.queue == s.request.queue && r.response.queue == s.response.queue
  {
    hide CanSend, TB.Refill;
  }

  // Adding a QP to a lane serves it there, and changes nothing else.
  lemma AddServes(c: Config, s: Sched, x: nat, t: WorkType)
    requires Sane(c) && s.bucket.last <= s.now && x < |s.qps|
    requires forall y: nat :: y in s.LaneOf(t).members <==> y in s.LaneOf(t).queue
    ensures var r := AddQpToScheduleSet(c, s, x, t);
            && Grows(s, r) && Served(c, r, x, t)
            && r.LaneOf(Other(t)).queue == s.LaneOf(Other(t)).queue
            && r.adds <= s.adds + [DelayedAdd(x, t)]
  {
    hide HasCredits, RunWorkScheduler, ReadBlocked;
    var l := s.LaneOf(t);
    var s1 := s.WithLane(t, l.(queue := l.queue + [x], members := l.members + {x}));
    assert x in s1.LaneOf(t).queue;
    RunLists(c, s1);
    assert DelayedAdd(x, t) in s.adds + [DelayedAdd(x, t)];
  }

  lemma NotifyServes(c: Config, s: Sched, x: nat, t: WorkType, total: Credit)
    requires Sane(c) && Inv(c, s, total) && x < |s.qps|
    ensures s.bucket.last <= s.now
    ensures var r := Notify(c, s, x, t); Grows(s, r) && Served(c, r, x, t) && Inv(c, r, total)
  {
    NotifyKeeps(c, s, x, t, total);
    assert forall y: nat :: y in s.LaneOf(t).members <==> y in s.LaneOf(t).queue;
    InvClock(c, s, total);
    hide Inv, AddQpToScheduleSet, Attended;
    AddServes(c, s, x, t);
  }

  lemma BothServe(c: Config, s: Sched, x: nat, total: Credit)
    requires Sane(c) && Inv(c, s, total) && x < |s.qps|
    ensures s.bucket.last <= s.now
    ensures var r := NotifyBoth(c, s, x); Grows(s, r) && Served(c, r, x, Request) && Served(c, r, x, Response)
  {
    hide Inv, Notify, Attended, Wants;
    NotifyServes(c, s, x, Request, total);
    var s1 := Notify(c, s, x, Request);
    NotifyServes(c, s1, x, Response, total);
    var s2 := Notify(c, s1, x, Response);
    if Wants(c, s1.qps[x], Request) {
      GrowsAttends(s1, s2, x, Request);
    }
  }

  // ---- steps other than sends ----------------------------------------------------------

  // A change of context that no notification follows brings no new wish.
  lemma QuietChange(c: Config, q: Qp, step: Step, ty: WorkType)
    requires Sane(c) && ChangesContext(step) && (step.ReadDone? ==> q.outboundReads > 0)
    requires !step.QpXoff?
    requires step.PostOp? && ty.Request? ==> q.sendQueue != []
    requires step.InboundRead? && ty.Response? ==> q.inboundReads != []
    requires step.SetLimit? ==> Leq(ClampLimit(step.limit, c.perQp), q.limit)
    requires step.ReadDone? && ty.Request? ==>
               !(q.outboundReads - 1 < c.readDepth && q.sendQueue != [] && q.sendQueue[0].opcode.Read?)
    ensures Wants(c, NewContext(c, q, step), ty) ==> Wants(c, q, ty)
  {
    hide RequestCredit, ResponseCredit, ClampLimit;
  }

  // A notification for this type of work follows the step.
  predicate Told(c: Config, s: Sched, step: Step, ty: WorkType)
    requires ChangesContext(step) && step.id < |s.qps|
  {
    var q := s.qps[step.id];
    match step
    case PostOp(_, _) => ty.Request? && q.sendQueue == []
    case InboundRead(_, _) => ty.Response? && q.inboundReads == []
    case QpXoff(_, _, _) => true
    case SetLimit(_, limit) => !Leq(ClampLimit(limit, c.perQp), q.limit)
    case ReadDone(_) =>
      ty.Request? && q.outboundReads - 1 < c.readDepth && q.sendQueue != [] && q.sendQueue[0].opcode.Read?
  }

  lemma InformTells(c: Config, s: Sched, s1: Sched, step: Step, ty: WorkType)
    requires Sane(c) && Enabled(c, s, step) && ChangesContext(step)
    requires s1 == SetQp(s, step.id, NewContext(c, s.qps[step.id], step)) && Inv(c, s1, c.total)
    ensures s1.bucket.last <= s1.now
    ensures var r := Inform(c, s1, step, s.qps[step.id]);
            Grows(s1, r) && (Told(c, s, step, ty) ==> Served(c, r, step.id, ty))
  {
    hide Wants, Attended, Notify, NotifyBoth, AddQpToScheduleSet, Leq, ClampLimit, LaneOk, BooksOk, Grows;
    var x := step.id;
    NotifyServes(c, s1, x, Request, c.total);
    NotifyServes(c, s1, x, Response, c.total);
    BothServe(c, s1, x, c.total);
    assert forall y: nat :: y in s1.request.members <==> y in s1.request.queue by { LaneAgrees(s1.request, Request, s1.qps); }
    hide Inv;
    AddServes(c, s1, x, Request);
    GrowsSame(s1);
  }

  lemma GrowsSame(s: Sched)
    ensures Grows(s, s)
  {
  }

  lemma LaneAgrees(l: Lane, ty: WorkType, qps: seq<Qp>)
    requires LaneOk(l, ty, qps)
    ensures forall y: nat :: y in l.members <==> y in l.queue
  {
  }

  lemma InformServes(c: Config, s: Sched, s1: Sched, step: Step, id: nat, ty: WorkType)
    requires Sane(c) && Enabled(c, s, step) && ChangesContext(step)
    requires s1 == SetQp(s, step.id, NewContext(c, s.qps[step.id], step)) && Inv(c, s1, c.total)
    requires id < |s.qps| && Served(c, s, id, ty)
    ensures s1.bucket.last <= s1.now
    ensures var r := Inform(c, s1, step, s.qps[step.id]); id < |r.qps| && Served(c, r, id, ty)
  {
    hide Inv, Wants, Inform, Leq;
    InformTells(c, s, s1, step, ty);
    hide NewContext;
    if Attended(s, id, ty) {
      assert Attended(s1, id, ty);
      GrowsAttends(s1, Inform(c, s1, step, s.qps[step.id]), id, ty);
    } else if id == step.id && !Told(c, s, step, ty) {
      QuietChange(c, s.qps[id], step, ty);
    }
  }

  lemma ContextServes(c: Config, s: Sched, step: Step, id: nat, ty: WorkType)
    requires Sane(c) && Inv(c, s, c.total) && Enabled(c, s, step) && ChangesContext(step)
    requires id < |s.qps| && Served(c, s, id, ty)
    ensures s.bucket.last <= s.now
    ensures var r := Next(c, s, step); r.Some? && id < |r.value.qps| && Served(c, r.value, id, ty)
  {
    var q := s.qps[step.id];
    assert QpOk(c, q);
    InvClock(c, s, c.total);
    NewContextOk(c, q, step);
    hide QpOk, NewContext, Inv;
    SetQpKeeps(c, s, step.id, NewContext(c, q, step), c.total);
    InformServes(c, s, SetQp(s, step.id, NewContext(c, q, step)), step, id, ty);
  }

  lemma ReturnServes(c: Config, s: Sched, x: nat, credit: Credit, id: nat, ty: WorkType)
    requires Sane(c) && Inv(c, s, c.total) && x < |s.qps| && Leq(credit, s.qps[x].usage)
    requires id < |s.qps| && Served(c, s, id, ty)
    ensures s.bucket.last <= s.now
    ensures var r := DoReturn(c, s, x, credit); id < |r.qps| && Served(c, r, id, ty)
  {
    InvClock(c, s, c.total);
    hide Inv, Wants, NotifyBoth, RunWorkScheduler, Leq, Minus, Plus32;
    var s1 := SetQp(s, x, s.qps[x].(usage := Minus(s.qps[x].usage, credit)));
    ReturnTakes(c, s, x, credit, c.total);
    BothServe(c, s1, x, Minus(c.total, credit));
    var s2 := NotifyBoth(c, s1, x);
    if Attended(s1, id, ty) {
      GrowsAttends(s1, s2, id, ty);
    }
    RunLists(c, s2.(credits := Plus32(s2.credits, credit)));
  }

  // What an event of the queue stood for, and what is left without it.
  lemma WithoutAttends(s: Sched, k: nat, id: nat, ty: WorkType)
    requires k < |s.adds|
    ensures var s1 := s.(adds := Without(s.adds, k));
            Attended(s, id, ty) <==>
              Attended(s1, id, ty) || s.adds[k] == DelayedAdd(id, ty) || s.adds[k] == AddBack(id, ty)
  {
    WithoutIn(s.adds, k, DelayedAdd(id, ty));
    WithoutIn(s.adds, k, AddBack(id, ty));
  }

  lemma WithoutIn<T(!new)>(a: seq<T>, k: nat, x: T)
    requires k < |a|
    ensures x in a <==> x in Without(a, k) || x == a[k]
  {
    if x in a {
      var i :| 0 <= i < |a| && a[i] == x;
      if i < k {
        assert Without(a, k)[i] == x;
      } else if i > k {
        assert Without(a, k)[i - 1] == x;
      }
    }
  }

  // A QP is added to the lane the event names or, when it is put back after its turn, to
  // the current one.
  lemma FireAddExact(c: Config, s: Sched, k: nat, id: nat, ty: WorkType)
    requires Sane(c) && Inv(c, s, c.total) && k < |s.adds| && id < |s.qps| && Served(c, s, id, ty)
    ensures s.bucket.last <= s.now
    ensures var r := DoFireAdd(c, s, k);
            r.Some? && id < |r.value.qps| && (Served(c, r.value, id, ty) <==> !Loses(c, s, FireAdd(k), id, ty))
  {
    var ev := s.adds[k];
    var t := if ev.DelayedAdd? then ev.ty else s.workType;
    var s1 := s.(adds := Without(s.adds, k));
    assert ev.qp < |s.qps| && LaneOk(s.LaneOf(t), t, s.qps);
    InvClock(c, s, c.total);
    LaneAgrees(s.LaneOf(t), t, s.qps);
    hide Inv, LaneOk, Wants, AddQpToScheduleSet;
    AddServes(c, s1, ev.qp, t);
    WithoutAttends(s, k, id, ty);
    AddExact(s1, AddQpToScheduleSet(c, s1, ev.qp, t), ev.qp, t, id, ty);
  }

  lemma AddExact(s: Sched, r: Sched, x: nat, t: WorkType, id: nat, ty: WorkType)
    requires Grows(s, r) && r.LaneOf(Other(t)).queue == s.LaneOf(Other(t)).queue && r.adds <= s.adds + [DelayedAdd(x, t)]
    ensures Attended(s, id, ty) ==> Attended(r, id, ty)
    ensures ty != t ==> (Attended(r, id, ty) <==> Attended(s, id, ty))
  {
    if Attended(s, id, ty) {
      GrowsAttends(s, r, id, ty);
    }
    if ty != t {
      assert ty == Other(t);
      var more := s.adds + [DelayedAdd(x, t)];
      assert DelayedAdd(id, ty) in more <==> DelayedAdd(id, ty) in s.adds;
      assert AddBack(id, ty) in more <==> AddBack(id, ty) in s.adds;
      PrefixIn(r.adds, more, DelayedAdd(id, ty));
      PrefixIn(r.adds, more, AddBack(id, ty));
    }
  }

  // ---- sends ---------------------------------------------------------------------------------

  // The QP after it paid for a transaction of one type wants the other no more than before.
  lemma OtherWish(c: Config, q: Qp, ty: WorkType, nextTime: nat)
    requires Sane(c) && HasWork(q, ty)
    ensures var t := Take(c, q, ty);
            var q1 := t.qp.(usage := Plus(t.qp.usage, t.credit), nextScheduleTime := nextTime);
            && (Wants(c, q1, Other(ty)) ==> Wants(c, q, Other(ty)))
            && (ty.Response? ==> (ReadBlocked(c, q1) <==> ReadBlocked(c, q)))
  {
    hide RequestCredit, ResponseCredit, Cut, Total;
  }

  // The QP at the head of a lane leaves it; the others stay.
  lemma DropServes(l: Lane, x: nat, id: nat)
    requires l.queue != [] && l.queue[0] == x && id != x
    ensures id in l.queue <==> id in Drop(l, x).queue
  {
    if id in l.queue {
      var i :| 0 <= i < |l.queue| && l.queue[i] == id;
      assert Drop(l, x).queue[i - 1] == id;
    }
  }

  // After the books: r is the state after a send by x, s1 the one before Continue.
  lemma AfterSend(c: Config, s: Sched, s1: Sched, r: Sched, x: nat, id: nat, ty: WorkType)
    requires Sane(c) && x < |s.qps| && id < |s.qps| == |s1.qps| && s1.qps == s.qps[x := s1.qps[x]]
    requires Served(c, s, id, ty)
    requires s1.request.queue == s.request.queue && s1.response.queue == s.response.queue && s1.adds == s.adds
    requires s1.workType == s.workType
    requires s.LaneOf(s.workType).queue != [] && s.LaneOf(s.workType).queue[0] == x && Continues(c, s1, x, r)
    requires Wants(c, s1.qps[x], Other(s.workType)) ==> Wants(c, s.qps[x], Other(s.workType))
    requires s.workType.Response? ==> !ReadBlocked(c, s1.qps[x])
    ensures id < |r.qps| && Served(c, r, id, ty)
  {
    hide HasCredits, ReadBlocked, CanSend;
    PrefixIn(s.adds, r.adds, DelayedAdd(id, ty));
    PrefixIn(s.adds, r.adds, AddBack(id, ty));
    var l, l' := s1.LaneOf(s.workType), r.LaneOf(s.workType);
    if id != x {
      DropServes(l, x, id);
    } else if ty == s.workType && l' != l {
      assert Wants(c, s1.qps[x], ty) ==> r.adds == s.adds + [AddBack(x, ty)];
      assert AddBack(x, ty) in s.adds + [AddBack(x, ty)];
    }
  }

  lemma SendServes(c: Config, s: Sched, x: nat, id: nat, ty: WorkType)
    requires Sane(c) && x < |s.qps| && QpOk(c, s.qps[x]) && HasWork(s.qps[x], s.workType)
    requires s.LaneOf(s.workType).queue != [] && s.LaneOf(s.workType).queue[0] == x
    requires c.units.mtu + RDMA_HEADER <= s.bucket.tokens
    requires DepthOk(c, s, x) && id < |s.qps| && Served(c, s, id, ty)
    ensures var r := SendTransaction(c, s, x); r.Some? && id < |r.value.qps| && Served(c, r.value, id, ty)
  {
    TakeOk(c, s.qps[x], s.workType);
    var t := Take(c, s.qps[x], s.workType);
    var s1 := Charge(c, s, x, t);
    OtherWish(c, s.qps[x], s.workType, s1.qps[x].nextScheduleTime);
    hide Take, HasCredits, ReadBlocked, QpOk, Wants, Plus, Minus, Continue, Continues;
    if s.workType.Response? && ReadBlocked(c, s.qps[x]) {
      BranchServes(c, s, s1, x, id, ty);
    } else {
      SendShape(c, s, x);
      AfterSend(c, s, s1, SendTransaction(c, s, x).value, x, id, ty);
    }
  }

  lemma BranchServes(c: Config, s: Sched, s1: Sched, x: nat, id: nat, ty: WorkType)
    requires Sane(c) && x < |s.qps| && id < |s.qps| == |s1.qps| && s1.qps == s.qps[x := s1.qps[x]]
    requires Served(c, s, id, ty)
    requires s1.request == s.request && s1.response.queue == s.response.queue && s1.adds == s.adds
    requires s1.workType == s.workType == Response && ReadBlocked(c, s1.qps[x])
    requires s.response.queue != [] && s.response.queue[0] == x && s.request.queue != [] && s.request.queue[0] == x
    ensures var r := Continue(c, s1, x); r.Some? && id < |r.value.qps| && Served(c, r.value, id, ty)
  {
    hide HasCredits, CanSend, Continue;
    DepthBranchShape(c, s1, x);
    if id != x {
      DropServes(s.request, x, id);
    }
  }

  lemma FireServes(c: Config, s: Sched, k: nat, id: nat, ty: WorkType)
    requires Sane(c) && Inv(c, s, c.total) && k < |s.chain| && DepthRespected(c, s, Fire(k))
    requires id < |s.qps| && Served(c, s, id, ty)
    ensures s.bucket.last <= s.now
    ensures var r := FireChain(c, s, k); r.Some? && id < |r.value.qps| && Served(c, r.value, id, ty)
  {
    InvClock(c, s, c.total);
    var s1 := s.(chain := Without(s.chain, k));
    match s.chain[k]
    case RunEvent =>
      hide Inv, Wants, RunWorkScheduler;
      RunLists(c, s1);
    case LookupEvent(x) =>
      assert Ready(c, s, x) && HasWork(s.qps[x], s.workType) && QpOk(c, s.qps[x]) && DepthOk(c, s1, x);
      hide Inv, Wants, SendTransaction, QpOk, DepthOk;
      SendServes(c, s1, x, id, ty);
  }

  // ---- every step, every run --------------------------------------------------------------

  // A QP that is served for some type of work stays so exactly until the event that is to
  // put it back fires at the wrong time.
  lemma StepServes(c: Config, s: Sched, step: Step, id: nat, ty: WorkType)
    requires Sane(c) && Inv(c, s, c.total) && Enabled(c, s, step) && DepthRespected(c, s, step)
    requires id < |s.qps| && Served(c, s, id, ty)
    ensures s.bucket.last <= s.now
    ensures var r := Next(c, s, step);
            r.Some? && id < |r.value.qps| && (Served(c, r.value, id, ty) <==> !Loses(c, s, step, id, ty))
  {
    InvClock(c, s, c.total);
    hide Inv, Wants, RunWorkScheduler, FireChain, DoFireAdd, DoReturn, Inform, NewContext, DepthRespected, Leq,
         Admissible, AdmissibleRead;
    if ChangesContext(step) {
      ContextServes(c, s, step, id, ty);
    } else {
      match step
      case Tick(to) =>
      case Fire(k) => FireServes(c, s, k, id, ty);
      case FireAdd(k) => FireAddExact(c, s, k, id, ty);
      case SetXoff(requests, all) => RunLists(c, s.(requestXoff := requests, globalXoff := all));
      case ReturnCredit(x, credit) => ReturnServes(c, s, x, credit, id, ty);
      case CreateQp(limit) =>
    }
  }

  ghost predicate AllServed(c: Config, s: Sched)
    requires Sane(c)
  {
    forall id: nat, ty | id < |s.qps| :: Served(c, s, id, ty)
  }

  // No event that is to put a QP back fires at the wrong time.
  ghost predicate Careful(c: Config, h: History)
    requires Sane(c)
  {
    match h
    case Start => true
    case After(before, step) =>
      && Careful(c, before)
      && var s := Reach(c, before);
      s.Some? ==> forall id: nat, ty | id < |s.value.qps| :: !Loses(c, s.value, step, id, ty)
  }

  ghost predicate AlwaysServed(c: Config, h: History)
    requires Sane(c)
  {
    && Reach(c, h).Some? && AllServed(c, Reach(c, h).value)
    && (h.After? ==> AlwaysServed(c, h.before))
  }

  // What Continue makes of the lanes and events, whichever way it goes.
  ghost predicate Leaves(s: Sched, x: nat, r: Sched) {
    && r.qps == s.qps && s.adds <= r.adds <= s.adds + [AddBack(x, s.workType)]
    && (r.request.queue == s.request.queue || (s.request.queue != [] && r.request.queue == s.request.queue[1..]))
    && (r.response.queue == s.response.queue || (s.response.queue != [] && r.response.queue == s.response.queue[1..]))
  }

  lemma EndTurnLeaves(c: Config, s: Sched, x: nat, comeBack: bool)
    requires Sane(c) && s.LaneOf(s.workType).queue != []
    ensures Leaves(s, x, EndTurn(c, s, x, comeBack))
  {
    hide UpdateWorkType;
    var s1 := s.WithLane(s.workType, Drop(s.LaneOf(s.workType), x));
    WorkTypeFrame(c, ResetQuanta(s1.(adds := if comeBack then s1.adds + [AddBack(x, s.workType)] else s1.adds)));
  }

  lemma ContinueLeaves(c: Config, s: Sched, x: nat)
    requires Sane(c) && x < |s.qps| && Continue(c, s, x).Some?
    ensures Leaves(s, x, Continue(c, s, x).value)
  {
    hide HasCredits, UpdateWorkType, EndTurn;
    if ReadBlocked(c, s.qps[x]) {
      WorkTypeFrame(c, ResetQuanta(s.(request := Drop(s.request, x), chain := s.chain + [RunEvent])));
    } else if s.LaneOf(s.workType).queue != [] {
      EndTurnLeaves(c, s, x, HasCredits(c, s.qps[x], s.workType) && !Xoff(s.qps[x], s.workType));
    }
  }

  lemma NewQpServed(c: Config, s: Sched, step: Step, id: nat, ty: WorkType)
    requires Sane(c) && Inv(c, s, c.total) && Enabled(c, s, step) && s.bucket.last <= s.now
    requires Next(c, s, step).Some? && |s.qps| <= id < |Next(c, s, step).value.qps|
    ensures Served(c, Next(c, s, step).value, id, ty)
  {
    if step.CreateQp? {
      assert !HasWork(Next(c, s, step).value.qps[id], ty);
    } else {
      SameQps(c, s, step);
    }
  }

  lemma FireQps(c: Config, s: Sched, k: nat)
    requires Sane(c) && s.bucket.last <= s.now && k < |s.chain| && FireChain(c, s, k).Some?
    ensures |FireChain(c, s, k).value.qps| == |s.qps|
  {
    hide RunWorkScheduler, Take, Continue, HasWork;
    var s1 := s.(chain := Without(s.chain, k));
    match s.chain[k]
    case RunEvent => RunLists(c, s1);
    case LookupEvent(x) => ContinueLeaves(c, Charge(c, s1, x, Take(c, s1.qps[x], s1.workType)), x);
  }

  lemma SameQps(c: Config, s: Sched, step: Step)
    requires Sane(c) && Enabled(c, s, step) && s.bucket.last <= s.now && Next(c, s, step).Some? && !step.CreateQp?
    ensures |Next(c, s, step).value.qps| == |s.qps|
  {
    hide RunWorkScheduler, AddQpToScheduleSet, FireChain, HasCredits, NewContext, Minus, Plus32;
    if ChangesContext(step) {
      var s1 := SetQp(s, step.id, NewContext(c, s.qps[step.id], step));
      NotifyQps(c, s1, step.id);
      AddQps(c, s1, step.id, Request);
    } else {
      match step
      case Fire(k) => FireQps(c, s, k);
      case FireAdd(k) =>
        var t := if s.adds[k].DelayedAdd? then s.adds[k].ty else s.workType;
        AddQps(c, s.(adds := Without(s.adds, k)), s.adds[k].qp, t);
      case SetXoff(requests, all) => RunLists(c, s.(requestXoff := requests, globalXoff := all));
      case ReturnCredit(x, credit) =>
        var s1 := SetQp(s, x, s.qps[x].(usage := Minus(s.qps[x].usage, credit)));
        NotifyQps(c, s1, x);
        var s2 := NotifyBoth(c, s1, x);
        RunLists(c, s2.(credits := Plus32(s2.credits, credit)));
      case Tick(to) =>
    }
  }

  lemma AddQps(c: Config, s: Sched, x: nat, t: WorkType)
    requires Sane(c) && s.bucket.last <= s.now && x < |s.qps|
    ensures AddQpToScheduleSet(c, s, x, t).qps == s.qps
  {
  }

  lemma NotifyQps(c: Config, s: Sched, x: nat)
    requires Sane(c) && s.bucket.last <= s.now && x < |s.qps|
    ensures Notify(c, s, x, Request).qps == Notify(c, s, x, Response).qps == NotifyBoth(c, s, x).qps == s.qps
    ensures NotifyBoth(c, s, x).bucket.last <= NotifyBoth(c, s, x).now
  {
    hide HasCredits, RunWorkScheduler;
  }

  lemma StepAllServed(c: Config, s: Sched, step: Step)
    requires Sane(c) && Inv(c, s, c.total) && Enabled(c, s, step) && DepthRespected(c, s, step) && AllServed(c, s)
    ensures s.bucket.last <= s.now && Next(c, s, step).Some?
    ensures AllServed(c, Next(c, s, step).value) <==> forall id: nat, ty | id < |s.qps| :: !Loses(c, s, step, id, ty)
  {
    InvClock(c, s, c.total);
    Keeps(c, s, step, c.total);
    hide Inv, Next, Enabled, DepthRespected, Served, Loses;
    var r := Next(c, s, step).value;
    forall id: nat, ty | id < |s.qps|
      ensures id < |r.qps| && (Served(c, r, id, ty) <==> !Loses(c, s, step, id, ty))
    {
      StepServes(c, s, step, id, ty);
    }
    forall id: nat, ty | |s.qps| <= id < |r.qps|
      ensures Served(c, r, id, ty)
    {
      NewQpServed(c, s, step, id, ty);
    }
  }

  // Of the legal runs, exactly the careful ones have every QP listed, or about to be
  // listed, for all work it wants to do, throughout.
  lemma {:induction false} NoWorkLost(c: Config, h: History)
    requires Sane(c) && Legal(c, h)
    ensures AlwaysServed(c, h) <==> Careful(c, h)
  {
    RunsKeepInv(c, h);
    hide Inv, Next, Enabled, DepthRespected, AllServed, Loses;
    match h
    case Start => BootServed(c);
    case After(before, step) =>
      NoWorkLost(c, before);
      RunsKeepInv(c, before);
      if Careful(c, before) {
        var s := Reach(c, before).value;
        InvClock(c, s, c.total);
        StepAllServed(c, s, step);
      }
  }

  lemma BootServed(c: Config)
    requires Sane(c)
    ensures AllServed(c, Boot(c))
  {
  }

  // ---- a lost QP ---------------------------------------------------------------------------

  // The QP wants to do work of this type, has no other, and nothing will list it.
  ghost predicate Lost(c: Config, s: Sched, id: nat, ty: WorkType)
    requires Sane(c)
  {
    && id < |s.qps| && Wants(c, s.qps[id], ty) && !HasWork(s.qps[id], Other(ty))
    && id !in s.request.queue && id !in s.response.queue
    && forall e :: e in s.adds && e.qp == id ==> e == DelayedAdd(id, Other(ty))
  }

  // Nothing happens to the QP, except that more work of the same type may come.
  predicate Away(step: Step, id: nat, ty: WorkType) {
    match step
    case PostOp(x, _) => x != id || ty.Request?
    case InboundRead(x, _) => x != id || ty.Response?
    case QpXoff(x, _, _) => x != id
    case SetLimit(x, _) => x != id
    case ReturnCredit(x, _) => x != id
    case ReadDone(x) => x != id
    case _ => true
  }

  // The lanes and events of a QP that are not touched.
  ghost predicate Spares(s: Sched, r: Sched, id: nat)
    requires id < |s.qps|
  {
    && id < |r.qps| && r.qps[id] == s.qps[id]
    && (id in r.request.queue ==> id in s.request.queue) && (id in r.response.queue ==> id in s.response.queue)
    && (forall e :: e in r.adds && e.qp == id ==> e in s.adds)
  }

  lemma AddSpares(c: Config, s: Sched, x: nat, t: WorkType, id: nat)
    requires Sane(c) && s.bucket.last <= s.now && x < |s.qps| && id < |s.qps| && x != id
    ensures Spares(s, AddQpToScheduleSet(c, s, x, t), id)
  {
    hide HasCredits, RunWorkScheduler;
    var l := s.LaneOf(t);
    RunLists(c, s.WithLane(t, l.(queue := l.queue + [x], members := l.members + {x})));
  }

  lemma SparesTrans(s: Sched, s1: Sched, r: Sched, id: nat)
    requires id < |s.qps| && Spares(s, s1, id) && Spares(s1, r, id)
    ensures Spares(s, r, id)
  {
  }

  lemma NotifySpares(c: Config, s: Sched, x: nat, id: nat)
    requires Sane(c) && s.bucket.last <= s.now && x < |s.qps| && id < |s.qps| && x != id
    ensures Spares(s, Notify(c, s, x, Request), id) && Spares(s, Notify(c, s, x, Response), id)
    ensures Spares(s, NotifyBoth(c, s, x), id)
  {
    hide AddQpToScheduleSet, HasCredits;
    AddSpares(c, s, x, Request, id);
    AddSpares(c, s, x, Response, id);
    var s1 := Notify(c, s, x, Request);
    AddSpares(c, s1, x, Response, id);
    SparesTrans(s, s1, NotifyBoth(c, s, x), id);
  }

  lemma SparesLost(c: Config, s: Sched, r: Sched, id: nat, ty: WorkType)
    requires Sane(c) && Lost(c, s, id, ty) && Spares(s, r, id)
    ensures Lost(c, r, id, ty)
  {
    hide Wants;
  }

  // A send by another QP.
  lemma ContinueSpares(c: Config, s: Sched, x: nat, id: nat)
    requires Sane(c) && x < |s.qps| && id < |s.qps| && x != id && Continue(c, s, x).Some?
    ensures Spares(s, Continue(c, s, x).value, id)
  {
    hide Continue;
    ContinueLeaves(c, s, x);
    var r := Continue(c, s, x).value;
    forall e | e in r.adds && e.qp == id
      ensures e in s.adds
    {
      PrefixIn(r.adds, s.adds + [AddBack(x, s.workType)], e);
    }
  }

  lemma FireSpares(c: Config, s: Sched, k: nat, id: nat)
    requires Sane(c) && Inv(c, s, c.total) && k < |s.chain| && id < |s.qps| && s.bucket.last <= s.now
    requires id !in s.request.queue && id !in s.response.queue && FireChain(c, s, k).Some?
    ensures Spares(s, FireChain(c, s, k).value, id)
  {
    var s1 := s.(chain := Without(s.chain, k));
    match s.chain[k]
    case RunEvent =>
      hide Inv, RunWorkScheduler;
      RunLists(c, s1);
    case LookupEvent(x) =>
      assert x != id by { assert s.LaneOf(s.workType).queue[0] == x; }
      hide Inv, Take, Continue, HasWork, Spares;
      var s2 := Charge(c, s1, x, Take(c, s1.qps[x], s1.workType));
      ContinueSpares(c, s2, x, id);
      ChargeSpares(c, s1, x, Take(c, s1.qps[x], s1.workType), id);
      SparesTrans(s1, s2, Continue(c, s2, x).value, id);
      SparesChain(s, s1, Continue(c, s2, x).value, id);
  }

  lemma ChargeSpares(c: Config, s: Sched, x: nat, t: Taken, id: nat)
    requires x < |s.qps| && t.wire <= s.bucket.tokens && id < |s.qps| && x != id
    ensures Spares(s, Charge(c, s, x, t), id)
  {
  }

  lemma SparesChain(s: Sched, s1: Sched, r: Sched, id: nat)
    requires id < |s.qps| && s1.qps == s.qps && s1.adds == s.adds && Spares(s1, r, id)
    requires s1.request == s.request && s1.response == s.response
    ensures Spares(s, r, id)
  {
  }

  // Adding the QP to the lane it has no work for.
  lemma IdleAdd(c: Config, s: Sched, k: nat, id: nat, t: WorkType)
    requires Sane(c) && s.bucket.last <= s.now && id < |s.qps| && !HasWork(s.qps[id], t)
    requires k < |s.adds| && s.adds[k].qp == id
    ensures var s1 := s.(adds := Without(s.adds, k));
            var r := AddQpToScheduleSet(c, s1, id, t);
            && r.qps == s.qps && r.request.queue == s.request.queue && r.response.queue == s.response.queue
            && (forall e :: e in r.adds && e != DelayedAdd(id, t) ==> e in Without(s.adds, k))
  {
  }

  lemma FireAddLost(c: Config, s: Sched, k: nat, id: nat, ty: WorkType)
    requires Sane(c) && s.bucket.last <= s.now && Lost(c, s, id, ty) && k < |s.adds| && DoFireAdd(c, s, k).Some?
    ensures Lost(c, DoFireAdd(c, s, k).value, id, ty) && DoFireAdd(c, s, k).value.qps == s.qps
  {
    hide Wants, AddQpToScheduleSet, HasWork;
    var ev := s.adds[k];
    var s1 := s.(adds := Without(s.adds, k));
    var t := if ev.DelayedAdd? then ev.ty else s.workType;
    forall e
      ensures e in s1.adds ==> e in s.adds
    {
      WithoutIn(s.adds, k, e);
    }
    AddQps(c, s1, ev.qp, t);
    if ev.qp == id {
      assert ev in s.adds;
      IdleAdd(c, s, k, id, t);
    } else {
      AddSpares(c, s1, ev.qp, t, id);
    }
  }

  // More work of the same type changes nothing about it.
  lemma MoreWorkLost(c: Config, s: Sched, step: Step, id: nat, ty: WorkType)
    requires Sane(c) && s.bucket.last <= s.now && Enabled(c, s, step) && Lost(c, s, id, ty)
    requires (step.PostOp? && ty.Request?) || (step.InboundRead? && ty.Response?)
    requires step.id == id
    ensures Lost(c, Next(c, s, step).value, id, ty)
  {
    hide RequestCredit, ResponseCredit, Admissible, AdmissibleRead;
  }

  lemma ContextSpares(c: Config, s: Sched, step: Step, id: nat)
    requires Sane(c) && s.bucket.last <= s.now && Enabled(c, s, step) && ChangesContext(step)
    requires id < |s.qps| && step.id != id
    ensures Spares(s, Next(c, s, step).value, id)
  {
    hide NewContext, Notify, NotifyBoth, AddQpToScheduleSet, Leq, Admissible, AdmissibleRead;
    var s1 := SetQp(s, step.id, NewContext(c, s.qps[step.id], step));
    NotifySpares(c, s1, step.id, id);
    AddSpares(c, s1, step.id, Request, id);
    SparesTrans(s, s1, Next(c, s, step).value, id);
  }

  lemma ReturnSpares(c: Config, s: Sched, x: nat, credit: Credit, id: nat)
    requires Sane(c) && s.bucket.last <= s.now && x < |s.qps| && id < |s.qps| && x != id
    ensures Spares(s, DoReturn(c, s, x, credit), id)
  {
    hide NotifyBoth, RunWorkScheduler, Minus, Plus32;
    var s1 := SetQp(s, x, s.qps[x].(usage := Minus(s.qps[x].usage, credit)));
    NotifySpares(c, s1, x, id);
    NotifyQps(c, s1, x);
    var s2 := NotifyBoth(c, s1, x);
    RunLists(c, s2.(credits := Plus32(s2.credits, credit)));
  }

  lemma LostStep(c: Config, s: Sched, step: Step, id: nat, ty: WorkType)
    requires Sane(c) && Inv(c, s, c.total) && Enabled(c, s, step) && Lost(c, s, id, ty) && Away(step, id, ty)
    requires s.bucket.last <= s.now && Next(c, s, step).Some?
    ensures Lost(c, Next(c, s, step).value, id, ty)
  {
    hide Inv, Wants, RunWorkScheduler, FireChain, DoFireAdd, DoReturn, Inform, NewContext, Leq, Admissible,
         AdmissibleRead, HasWork;
    if ChangesContext(step) {
      if step.id == id {
        MoreWorkLost(c, s, step, id, ty);
      } else {
        ContextSpares(c, s, step, id);
        SparesLost(c, s, Next(c, s, step).value, id, ty);
      }
    } else {
      match step
      case Tick(to) =>
      case Fire(k) =>
        FireSpares(c, s, k, id);
        SparesLost(c, s, FireChain(c, s, k).value, id, ty);
      case FireAdd(k) => FireAddLost(c, s, k, id, ty);
      case SetXoff(requests, all) => RunLists(c, s.(requestXoff := requests, globalXoff := all));
      case ReturnCredit(x, credit) =>
        ReturnSpares(c, s, x, credit, id);
        SparesLost(c, s, DoReturn(c, s, x, credit), id, ty);
      case CreateQp(limit) =>
    }
  }

  // h is g and then steps that leave the QP alone.
  predicate Extends(h: History, g: History, id: nat, ty: WorkType) {
    h == g || (h.After? && Away(h.step, id, ty) && Extends(h.before, g, id, ty))
  }

  // An event that puts a QP back at the wrong time loses it, if it has no other work and
  // no other event is pending for it.
  lemma LosesMakesLost(c: Config, s: Sched, k: nat, id: nat, ty: WorkType)
    requires Sane(c) && s.bucket.last <= s.now && id < |s.qps| && Loses(c, s, FireAdd(k), id, ty)
    requires !HasWork(s.qps[id], Other(ty)) && id !in s.LaneOf(Other(ty)).queue
    requires forall e :: e in Without(s.adds, k) ==> e.qp != id
    ensures DoFireAdd(c, s, k).Some? && Lost(c, DoFireAdd(c, s, k).value, id, ty)
  {
    hide Wants, AddQpToScheduleSet, HasWork;
    IdleAdd(c, s, k, id, Other(ty));
  }

  // A lost QP stays lost, however long the run and whatever the other QPs do, until
  // credits come back to it, its limit or xoff changes, one of its reads finishes or work
  // of the other type arrives. Posting more of the same does not help.
  lemma {:induction false} LostStays(c: Config, h: History, g: History, id: nat, ty: WorkType)
    requires Sane(c) && Legal(c, h) && Legal(c, g) && Extends(h, g, id, ty)
    requires Reach(c, g).Some? && Lost(c, Reach(c, g).value, id, ty)
    ensures Reach(c, h).Some? && Lost(c, Reach(c, h).value, id, ty)
    decreases h
  {
    if h != g {
      LostStays(c, h.before, g, id, ty);
      RunsKeepInv(c, h);
      RunsKeepInv(c, h.before);
      hide Inv, Next, Enabled, Lost, DepthRespected, Away;
      InvClock(c, Reach(c, h.before).value, c.total);
      LostStep(c, Reach(c, h.before).value, h.step, id, ty);
    }
  }
}
