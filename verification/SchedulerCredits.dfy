// When the 32-bit credit counters of the work scheduler are exact: as long as no
// transaction costs more than the minimum that is checked before it is sent.
module SchedulerCredits {
  import opened Common
  import opened Sgl
  import opened FalconCredits
  import opened Scheduler
  import opened SchedulerBooks
  import TB = TokenBucket

  // The operation costs no more than the minimum (see
  // FalconCredits.RequestFitsMinimum).
  predicate Cheap(c: Config, op: Op)
    requires Sane(c)
  {
    Leq(RequestCredit(c.units, op), MinimumRequestCredit(c.units))
  }

  predicate CheapQp(c: Config, q: Qp)
    requires Sane(c)
  {
    forall k :: 0 <= k < |q.sendQueue| ==> Cheap(c, q.sendQueue[k])
  }

  predicate CheapQps(c: Config, qps: seq<Qp>)
    requires Sane(c)
  {
    forall k :: 0 <= k < |qps| ==> CheapQp(c, qps[k])
  }

  // A lookup that is out has the minimum in hand.
  predicate Funded(c: Config, s: Sched)
    requires Sane(c)
  {
    forall k :: 0 <= k < |s.chain| && s.chain[k].LookupEvent? ==> Leq(Minimum(c, s.workType), s.credits)
  }

  // The books are exact, not just up to wrap-around.
  ghost predicate Exact(s: Sched, total: Credit) { Plus(s.credits, Usage(s.qps)) == total }

  ghost predicate Solvent(c: Config, s: Sched, total: Credit)
    requires Sane(c)
  {
    Exact(s, total) && CheapQps(c, s.qps) && Funded(c, s)
  }

  predicate Small(total: Credit) {
    && total.reqTxPacket < U32 && total.reqTxBuffer < U32 && total.reqRxPacket < U32
    && total.reqRxBuffer < U32 && total.respTxPacket < U32 && total.respTxBuffer < U32
  }

  lemma {:induction false} UsageCovers(qps: seq<Qp>, id: nat)
    requires id < |qps|
    ensures Leq(qps[id].usage, Usage(qps))
    decreases |qps|
  {
    if id < |qps| - 1 {
      UsageCovers(qps[..|qps| - 1], id);
    }
  }

  lemma RunSolvent(c: Config, s: Sched, total: Credit)
    requires Sane(c) && s.bucket.last <= s.now && Solvent(c, s, total) && s.chain == []
    ensures Solvent(c, RunWorkScheduler(c, s), total)
  {
    hide Leq, Usage, Plus, CheapQps, Minimum;
  }

  lemma AddSolvent(c: Config, s: Sched, id: nat, ty: WorkType, total: Credit)
    requires Sane(c) && s.bucket.last <= s.now && id < |s.qps| && Solvent(c, s, total) && (s.idle ==> s.chain == [])
    ensures var r := AddQpToScheduleSet(c, s, id, ty);
            Solvent(c, r, total) && (r.idle ==> r.chain == [])
  {
    hide Leq, Usage, Plus, CheapQps, Minimum, HasCredits, RunWorkScheduler;
    var l := s.LaneOf(ty);
    var s1 := s.WithLane(ty, l.(queue := l.queue + [id], members := l.members + {id}));
    if s.idle {
      RunSolvent(c, s1, total);
      RunChain(c, s1);
    }
  }

  lemma RunChain(c: Config, s: Sched)
    requires Sane(c) && s.bucket.last <= s.now && s.chain == []
    ensures var r := RunWorkScheduler(c, s); r.idle ==> r.chain == []
  {
    hide CanSend, Minimum, TB.Refill;
  }

  lemma NotifySolvent(c: Config, s: Sched, id: nat, total: Credit)
    requires Sane(c) && s.bucket.last <= s.now && id < |s.qps| && Solvent(c, s, total) && (s.idle ==> s.chain == [])
    ensures Solvent(c, Notify(c, s, id, Request), total) && Solvent(c, Notify(c, s, id, Response), total)
    ensures var r := NotifyBoth(c, s, id); Solvent(c, r, total) && (r.idle ==> r.chain == [])
  {
    hide Solvent, HasCredits, AddQpToScheduleSet;
    AddSolvent(c, s, id, Request, total);
    AddSolvent(c, s, id, Response, total);
    AddSolvent(c, Notify(c, s, id, Request), id, Response, total);
  }

  // A send keeps the books exact exactly if it can be paid for.
  lemma ChargeExact(c: Config, s: Sched, id: nat, t: Taken, total: Credit)
    requires id < |s.qps| && t.wire <= s.bucket.tokens && t.qp.usage == s.qps[id].usage
    requires Exact(s, total)
    ensures Exact(Charge(c, s, id, t), total) <==> Leq(t.credit, s.credits)
  {
    var s1 := Charge(c, s, id, t);
    UsageUpdate(s.qps, id, s1.qps[id]);
    hide Usage;
    assert Usage(s1.qps) == Plus(Usage(s.qps), t.credit);
    Payable(s.credits, t.credit);
  }

  lemma Payable(left: Credit, cost: Credit)
    ensures Plus(Minus(left, cost), cost) == left <==> Leq(cost, left)
  {
  }

  lemma TakeCheap(c: Config, q: Qp, ty: WorkType)
    requires Sane(c) && QpOk(c, q) && CheapQp(c, q) && HasWork(q, ty)
    ensures var t := Take(c, q, ty); CheapQp(c, t.qp) && Leq(t.credit, Minimum(c, ty))
  {
    if ty.Request? {
      var op := q.sendQueue[0];
      assert Cheap(c, op);
      CutCheapens(c.units, op);
      var op1 := op.(sgl := Cut(op.sgl, c.units.mtu).rest);
      hide RequestCredit, MinimumRequestCredit, Cut;
      assert Cheap(c, op1);
      var t := TakeRequest(c, q);
      forall k | 0 <= k < |t.qp.sendQueue|
        ensures Cheap(c, t.qp.sendQueue[k])
      {
        assert t.qp.sendQueue[k] == op1 || t.qp.sendQueue[k] in q.sendQueue[1..];
      }
    } else {
      ResponseFitsMinimum(c.units, q.inboundReads[0]);
    }
  }

  lemma SendSolvent(c: Config, s: Sched, id: nat, total: Credit)
    requires Sane(c) && BooksOk(c, s, total) && s.chain == [] && !s.idle && SendTransaction(c, s, id).Some?
    requires Exact(s, total) && CheapQps(c, s.qps) && Leq(Minimum(c, s.workType), s.credits)
    ensures Solvent(c, SendTransaction(c, s, id).value, total)
  {
    var q := s.qps[id];
    assert QpOk(c, q) && CheapQp(c, q) && s.bucket.last <= s.now;
    TakeOk(c, q, s.workType);
    TakeCheap(c, q, s.workType);
    var t := Take(c, q, s.workType);
    assert Leq(t.credit, s.credits);
    hide Take, QpOk, BooksOk, Leq, Minimum, Cheap, Plus, Usage, Exact, Continue;
    ChargeExact(c, s, id, t, total);
    var s1 := Charge(c, s, id, t);
    assert CheapQps(c, s1.qps);
    hide CheapQp;
    ContinueFrame(c, s1, id);
    ExactSame(s1, Continue(c, s1, id).value, total);
  }

  lemma ExactSame(s: Sched, s': Sched, total: Credit)
    requires Exact(s, total) && s'.credits == s.credits && s'.qps == s.qps
    ensures Exact(s', total)
  {
  }

  lemma FireSolvent(c: Config, s: Sched, k: nat, total: Credit)
    requires Sane(c) && Sound(c, s, total) && Solvent(c, s, total) && k < |s.chain| && FireChain(c, s, k).Some?
    ensures Solvent(c, FireChain(c, s, k).value, total)
  {
    assert s.bucket.last <= s.now;
    hide BooksOk, Leq, Minimum, QpOk, CheapQp;
    assert !s.idle && k == 0 && Without(s.chain, 0) == [];
    var s1 := s.(chain := []);
    BooksSame(c, s, total);
    ExactSame(s, s1, total);
    match s.chain[0]
    case RunEvent => RunSolvent(c, s1, total);
    case LookupEvent(id) => SendSolvent(c, s1, id, total);
  }

  lemma ContextSolvent(c: Config, s: Sched, step: Step, total: Credit)
    requires Sane(c) && Sound(c, s, total) && Solvent(c, s, total) && Enabled(c, s, step) && ChangesContext(step)
    requires step.PostOp? ==> Cheap(c, step.op)
    ensures Solvent(c, Next(c, s, step).value, total)
  {
    hide Solvent, Notify, NotifyBoth, AddQpToScheduleSet, NewContext, Leq, Admissible, AdmissibleRead, Cheap;
    assert s.bucket.last <= s.now && (s.idle ==> s.chain == []);
    hide BooksOk;
    NewContextSolvent(c, s, step, total);
    var s1 := SetQp(s, step.id, NewContext(c, s.qps[step.id], step));
    NotifySolvent(c, s1, step.id, total);
    AddSolvent(c, s1, step.id, Request, total);
  }

  lemma NewContextSolvent(c: Config, s: Sched, step: Step, total: Credit)
    requires Sane(c) && Solvent(c, s, total) && Enabled(c, s, step) && ChangesContext(step)
    requires step.PostOp? ==> Cheap(c, step.op)
    ensures Solvent(c, SetQp(s, step.id, NewContext(c, s.qps[step.id], step)), total)
  {
    hide Leq, Minimum, Cheap, Plus, ClampLimit, Usage;
    var q := s.qps[step.id];
    var q' := NewContext(c, q, step);
    assert CheapQp(c, q) && CheapQp(c, q') && q'.usage == q.usage;
    hide NewContext, CheapQp;
    UsageUpdate(s.qps, step.id, q');
    PlusCancel(Usage(s.qps[step.id := q']), Usage(s.qps), q.usage);
  }

  lemma ReturnSolvent(c: Config, s: Sched, id: nat, credit: Credit, total: Credit)
    requires Sane(c) && Sound(c, s, total) && Solvent(c, s, total) && id < |s.qps| && Leq(credit, s.qps[id].usage)
    requires Small(total)
    ensures Solvent(c, DoReturn(c, s, id, credit), total)
  {
    var q := s.qps[id].(usage := Minus(s.qps[id].usage, credit));
    var s1 := SetQp(s, id, q);
    var inFlight := Minus(total, credit);
    assert s.bucket.last <= s.now && (s.idle ==> s.chain == []);
    hide BooksOk, Minimum;
    assert CheapQp(c, s.qps[id]) && CheapQp(c, q);
    hide CheapQp;
    ReturnTakesExact(s, id, credit, total);
    hide Exact, Plus32, Minus, Leq, CheapQps;
    assert CheapQps(c, s1.qps) by { CheapPut(c, s.qps, id, q); }
    NotifySolvent(c, s1, id, inFlight);
    var s2 := NotifyBoth(c, s1, id);
    RepayExact(c, s2, credit, total);
    hide NotifyBoth, RunWorkScheduler;
    var s3 := s2.(credits := Plus32(s2.credits, credit));
    if s3.idle {
      RunSolvent(c, s3, total);
    }
  }

  lemma CheapPut(c: Config, qps: seq<Qp>, id: nat, q: Qp)
    requires Sane(c) && CheapQps(c, qps) && id < |qps| && CheapQp(c, q)
    ensures CheapQps(c, qps[id := q])
  {
  }

  lemma ReturnTakesExact(s: Sched, id: nat, credit: Credit, total: Credit)
    requires Exact(s, total) && id < |s.qps| && Leq(credit, s.qps[id].usage)
    ensures Exact(SetQp(s, id, s.qps[id].(usage := Minus(s.qps[id].usage, credit))), Minus(total, credit))
    ensures Leq(credit, total)
  {
    var q := s.qps[id].(usage := Minus(s.qps[id].usage, credit));
    UsageUpdate(s.qps, id, q);
    UsageCovers(s.qps, id);
    hide Usage;
  }

  lemma RepayExact(c: Config, s: Sched, credit: Credit, total: Credit)
    requires Sane(c) && Solvent(c, s, Minus(total, credit)) && Leq(credit, total) && Small(total)
    ensures Solvent(c, s.(credits := Plus32(s.credits, credit)), total)
  {
    hide Usage, CheapQps, Minimum;
  }

  lemma KeepsSolvent(c: Config, s: Sched, step: Step)
    requires Sane(c) && Small(c.total) && Sound(c, s, c.total) && Solvent(c, s, c.total) && s.bucket.last <= s.now
    requires Enabled(c, s, step) && Next(c, s, step).Some? && (step.PostOp? ==> Cheap(c, step.op))
    ensures Solvent(c, Next(c, s, step).value, c.total)
  {
    if ChangesContext(step) {
      ContextSolvent(c, s, step, c.total);
    } else {
      assert s.bucket.last <= s.now && (s.idle ==> s.chain == []);
      hide Leq, Usage, Plus, Minimum, CheapQp, RunWorkScheduler, AddQpToScheduleSet, FireChain, NotifyBoth;
      match step
      case Tick(to) =>
      case Fire(k) => FireSolvent(c, s, k, c.total);
      case FireAdd(k) =>
        var ev := s.adds[k];
        AddSolvent(c, s.(adds := Without(s.adds, k)), ev.qp, if ev.DelayedAdd? then ev.ty else s.workType, c.total);
      case SetXoff(requests, all) =>
        if s.idle {
          RunSolvent(c, s.(requestXoff := requests, globalXoff := all), c.total);
        }
      case ReturnCredit(id, credit) => ReturnSolvent(c, s, id, credit, c.total);
      case CreateQp(limit) => CreateSolvent(c, s, limit);
    }
  }

  lemma CreateSolvent(c: Config, s: Sched, limit: Credit)
    requires Sane(c) && s.bucket.last <= s.now && Solvent(c, s, c.total)
    ensures Solvent(c, Next(c, s, CreateQp(limit)).value, c.total)
  {
    hide Minimum, Leq, Usage, Plus, CheapQp;
    var q := Qp([], [], limit, Zero, false, false, 0, 0);
    UsageOfNew(s.qps, q);
    assert CheapQp(c, q) by { NoWorkIsCheap(c, q); }
  }

  lemma NoWorkIsCheap(c: Config, q: Qp)
    requires Sane(c) && q.sendQueue == []
    ensures CheapQp(c, q)
  {
  }

  predicate CheapRun(c: Config, h: History)
    requires Sane(c)
  {
    match h
    case Start => true
    case After(before, step) => CheapRun(c, before) && (step.PostOp? ==> Cheap(c, step.op))
  }

  // If no operation posted costs more than the minimum, no counter ever wraps around:
  // what is left and what is used add up to the total.
  lemma {:induction false} CreditsExact(c: Config, h: History)
    requires Sane(c) && Small(c.total) && Possible(c, h) && CheapRun(c, h) && Reach(c, h).Some?
    ensures Solvent(c, Reach(c, h).value, c.total)
  {
    match h
    case Start =>
      assert Usage([]) == Zero;
    case After(before, step) =>
      RunsKeepSound(c, before);
      CreditsExact(c, before);
      hide Sound, Solvent, Next, Enabled;
      KeepsSolvent(c, Reach(c, before).value, step);
  }
}
