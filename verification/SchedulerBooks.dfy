// The credit books of the work scheduler, which hold in every run, whatever happens to
// the lanes.
module SchedulerBooks {
  import opened Common
  import opened Sgl
  import opened FalconCredits
  import opened Scheduler
  import TB = TokenBucket

  // The scheduler has one event of its own pending, or none if it is idle.
  predicate OneChain(s: Sched) { |s.chain| == if s.idle then 0 else 1 }

  ghost predicate Sound(c: Config, s: Sched, total: Credit)
    requires Sane(c)
  {
    BooksOk(c, s, total) && OneChain(s)
  }

  // What the scheduler's own bookkeeping does not touch.
  predicate SameBooks(s: Sched, r: Sched) {
    && r.qps == s.qps && r.credits == s.credits && r.now == s.now && r.bucket.last <= r.now
    && s.adds <= r.adds && (forall k :: |s.adds| <= k < |r.adds| ==> r.adds[k].qp < |s.qps|)
  }

  lemma BooksFrame(c: Config, s: Sched, r: Sched, total: Credit)
    requires Sane(c) && BooksOk(c, s, total) && SameBooks(s, r)
    ensures BooksOk(c, r, total)
  {
    hide QpOk, Balanced, Usage;
  }

  lemma RunFrame(c: Config, s: Sched)
    requires Sane(c) && s.bucket.last <= s.now && s.chain == []
    ensures var r := RunWorkScheduler(c, s); SameBooks(s, r) && OneChain(r)
  {
    hide CanSend, TB.Refill;
  }

  lemma AddFrame(c: Config, s: Sched, id: nat, ty: WorkType)
    requires Sane(c) && s.bucket.last <= s.now && id < |s.qps| && OneChain(s)
    ensures var r := AddQpToScheduleSet(c, s, id, ty); SameBooks(s, r) && OneChain(r)
  {
    hide HasCredits, RunWorkScheduler;
    var l := s.LaneOf(ty);
    var s1 := s.WithLane(ty, l.(queue := l.queue + [id], members := l.members + {id}));
    if s.idle {
      RunFrame(c, s1);
    }
  }

  lemma NotifyFrame(c: Config, s: Sched, id: nat)
    requires Sane(c) && s.bucket.last <= s.now && id < |s.qps| && OneChain(s)
    ensures var r := Notify(c, s, id, Request); SameBooks(s, r) && OneChain(r)
    ensures var r := Notify(c, s, id, Response); SameBooks(s, r) && OneChain(r)
    ensures var r := NotifyBoth(c, s, id); SameBooks(s, r) && OneChain(r)
  {
    hide HasCredits, AddQpToScheduleSet;
    AddFrame(c, s, id, Request);
    AddFrame(c, s, id, Response);
    AddFrame(c, Notify(c, s, id, Request), id, Response);
  }

  lemma WorkTypeFrame(c: Config, s: Sched)
    requires Sane(c)
    ensures UpdateWorkType(c, s).(workType := s.workType) == s
  {
    hide CanSend;
  }

  lemma EndTurnFrame(c: Config, s: Sched, id: nat, comeBack: bool)
    requires Sane(c) && id < |s.qps| && s.chain == [] && !s.idle && s.bucket.last <= s.now
    requires s.LaneOf(s.workType).queue != []
    ensures var r := EndTurn(c, s, id, comeBack); SameBooks(s, r) && r.chain == [RunEvent] && !r.idle
  {
    hide UpdateWorkType;
    var s1 := s.WithLane(s.workType, Drop(s.LaneOf(s.workType), id));
    WorkTypeFrame(c, ResetQuanta(s1.(adds := if comeBack then s1.adds + [AddBack(id, s.workType)] else s1.adds)));
  }

  lemma ContinueFrame(c: Config, s: Sched, id: nat)
    requires Sane(c) && id < |s.qps| && s.chain == [] && !s.idle && s.bucket.last <= s.now
    requires Continue(c, s, id).Some?
    ensures var r := Continue(c, s, id).value; SameBooks(s, r) && r.chain == [RunEvent] && !r.idle
  {
    hide HasCredits, UpdateWorkType, EndTurn;
    if ReadBlocked(c, s.qps[id]) {
      WorkTypeFrame(c, ResetQuanta(s.(request := Drop(s.request, id), chain := s.chain + [RunEvent])));
    } else if s.LaneOf(s.workType).queue != [] {
      EndTurnFrame(c, s, id, HasCredits(c, s.qps[id], s.workType) && !Xoff(s.qps[id], s.workType));
    }
  }

  lemma SendSound(c: Config, s: Sched, id: nat, total: Credit)
    requires Sane(c) && BooksOk(c, s, total) && s.chain == [] && !s.idle && SendTransaction(c, s, id).Some?
    ensures Sound(c, SendTransaction(c, s, id).value, total)
  {
    assert QpOk(c, s.qps[id]) && s.bucket.last <= s.now;
    hide BooksOk, QpOk, HasCredits, Continue;
    TakeOk(c, s.qps[id], s.workType);
    var t := Take(c, s.qps[id], s.workType);
    hide Take;
    ChargeConserves(c, s, id, t, total);
    var s1 := Charge(c, s, id, t);
    ContinueFrame(c, s1, id);
    BooksFrame(c, s1, Continue(c, s1, id).value, total);
  }

  lemma FireSound(c: Config, s: Sched, k: nat, total: Credit)
    requires Sane(c) && Sound(c, s, total) && k < |s.chain| && FireChain(c, s, k).Some?
    ensures Sound(c, FireChain(c, s, k).value, total)
  {
    assert !s.idle && k == 0 && Without(s.chain, 0) == [] && s.bucket.last <= s.now;
    var s1 := s.(chain := []);
    BooksSame(c, s, total);
    hide BooksOk;
    match s.chain[0]
    case RunEvent =>
      RunFrame(c, s1);
      BooksFrame(c, s1, RunWorkScheduler(c, s1), total);
    case LookupEvent(id) =>
      SendSound(c, s1, id, total);
  }

  lemma ContextBooks(c: Config, s: Sched, id: nat, q: Qp, total: Credit)
    requires Sane(c) && BooksOk(c, s, total) && id < |s.qps| && QpOk(c, q) && q.usage == s.qps[id].usage
    ensures BooksOk(c, SetQp(s, id, q), total)
  {
    hide QpOk, Balanced, Usage, Plus;
    UsageUpdate(s.qps, id, q);
    PlusCancel(Usage(s.qps[id := q]), Usage(s.qps), q.usage);
  }

  lemma InformFrame(c: Config, s: Sched, step: Step, was: Qp)
    requires Sane(c) && s.bucket.last <= s.now && OneChain(s) && ChangesContext(step) && step.id < |s.qps|
    ensures var r := Inform(c, s, step, was); SameBooks(s, r) && OneChain(r)
  {
    hide Notify, NotifyBoth, AddQpToScheduleSet, Leq;
    NotifyFrame(c, s, step.id);
    AddFrame(c, s, step.id, Request);
  }

  lemma ContextSound(c: Config, s: Sched, step: Step, total: Credit)
    requires Sane(c) && Sound(c, s, total) && s.bucket.last <= s.now && Enabled(c, s, step) && ChangesContext(step)
    ensures Next(c, s, step).Some? && Sound(c, Next(c, s, step).value, total)
  {
    var q := s.qps[step.id];
    assert QpOk(c, q);
    NewContextOk(c, q, step);
    var s1 := SetQp(s, step.id, NewContext(c, q, step));
    hide QpOk, NewContext, BooksOk, Inform;
    ContextBooks(c, s, step.id, NewContext(c, q, step), total);
    InformFrame(c, s1, step, q);
    BooksFrame(c, s1, Inform(c, s1, step, q), total);
  }

  lemma ReturnSound(c: Config, s: Sched, id: nat, credit: Credit, total: Credit)
    requires Sane(c) && Sound(c, s, total) && id < |s.qps| && Leq(credit, s.qps[id].usage)
    ensures Sound(c, DoReturn(c, s, id, credit), total)
  {
    assert s.bucket.last <= s.now;
    hide NotifyBoth, RunWorkScheduler, Plus32, Minus, BooksOk;
    var s1 := SetQp(s, id, s.qps[id].(usage := Minus(s.qps[id].usage, credit)));
    ReturnBooks(c, s, id, credit, total);
    NotifyFrame(c, s1, id);
    var s2 := NotifyBoth(c, s1, id);
    BooksFrame(c, s1, s2, Minus(total, credit));
    RepayBooks(c, s2, credit, total);
    var s3 := s2.(credits := Plus32(s2.credits, credit));
    if s3.idle {
      RunFrame(c, s3);
      BooksFrame(c, s3, RunWorkScheduler(c, s3), total);
    }
  }

  lemma RepayBooks(c: Config, s: Sched, credit: Credit, total: Credit)
    requires Sane(c) && BooksOk(c, s, Minus(total, credit))
    ensures BooksOk(c, s.(credits := Plus32(s.credits, credit)), total)
  {
    hide QpOk, Usage, Balanced, Plus32, Minus;
    Repay(s.credits, Usage(s.qps), total, credit);
  }

  lemma PlusZero(a: Credit)
    ensures Plus(a, Zero) == a
  {
  }

  lemma {:induction false} UsageOfNew(qps: seq<Qp>, q: Qp)
    requires q.usage == Zero
    ensures Usage(qps + [q]) == Usage(qps)
  {
    hide Plus;
    var more := qps + [q];
    assert more[..|more| - 1] == qps && more[|more| - 1] == q;
    PlusZero(Usage(qps));
  }

  lemma CreateSound(c: Config, s: Sched, limit: Credit, total: Credit)
    requires Sane(c) && Sound(c, s, total)
    ensures Next(c, s, CreateQp(limit)).Some? && Sound(c, Next(c, s, CreateQp(limit)).value, total)
  {
    hide Usage, Balanced;
    UsageOfNew(s.qps, Qp([], [], limit, Zero, false, false, 0, 0));
  }

  // Whatever the step, the books are sound if it does not crash.
  lemma KeepsSound(c: Config, s: Sched, step: Step, total: Credit)
    requires Sane(c) && Sound(c, s, total) && s.bucket.last <= s.now && Enabled(c, s, step) && Next(c, s, step).Some?
    ensures Sound(c, Next(c, s, step).value, total)
  {
    hide QpOk, Balanced, Usage, Leq, Minimum, RunWorkScheduler, AddQpToScheduleSet, FireChain, NotifyBoth,
         Admissible, AdmissibleRead;
    if ChangesContext(step) {
      ContextSound(c, s, step, total);
    } else {
      match step
      case Tick(to) =>
      case Fire(k) => FireSound(c, s, k, total);
      case FireAdd(k) =>
        var ev := s.adds[k];
        var s1 := s.(adds := Without(s.adds, k));
        assert BooksOk(c, s1, total);
        AddFrame(c, s1, ev.qp, if ev.DelayedAdd? then ev.ty else s.workType);
        BooksFrame(c, s1, Next(c, s, step).value, total);
      case SetXoff(requests, all) =>
        var s1 := s.(requestXoff := requests, globalXoff := all);
        assert BooksOk(c, s1, total);
        if s.idle {
          RunFrame(c, s1);
          BooksFrame(c, s1, Next(c, s, step).value, total);
        }
      case ReturnCredit(id, credit) => ReturnSound(c, s, id, credit, total);
      case CreateQp(limit) => CreateSound(c, s, limit, total);
    }
  }

  lemma {:induction false} RunsKeepSound(c: Config, h: History)
    requires Sane(c) && Possible(c, h)
    ensures Reach(c, h).Some? ==> Sound(c, Reach(c, h).value, c.total)
  {
    match h
    case Start =>
      assert Usage([]) == Zero;
    case After(before, step) =>
      RunsKeepSound(c, before);
      hide Sound, Next, Enabled;
      if Reach(c, h).Some? {
        KeepsSound(c, Reach(c, before).value, step, c.total);
      }
  }

  // The scheduler is idle exactly when none of its own events is pending, and never
  // has two, even if a response took the outbound-read-depth branch.
  lemma OneEvent(c: Config, h: History)
    requires Sane(c) && Possible(c, h) && Reach(c, h).Some?
    ensures |Reach(c, h).value.chain| == if Reach(c, h).value.idle then 0 else 1
  {
    hide BooksOk, Reach, Possible;
    RunsKeepSound(c, h);
  }

  // In all six pools, the credits left and the credits in use by QPs make up the
  // configured total after any run of sends and returns, up to wrap-around of the
  // 32-bit counters, even if a response took the outbound-read-depth branch.
  lemma CreditsConserved(c: Config, h: History)
    requires Sane(c) && Possible(c, h) && Reach(c, h).Some?
    ensures Balanced(Reach(c, h).value.credits, Usage(Reach(c, h).value.qps), c.total)
  {
    hide Usage, Balanced, Reach, Possible;
    RunsKeepSound(c, h);
  }
}
