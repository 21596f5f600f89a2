// The pace of the work scheduler: when a QP may come back to its lane, how far apart
// transactions go out, and how many bytes.
module SchedulerPacing {
  import opened Common
  import opened Sgl
  import opened FalconCredits
  import opened Scheduler
  import opened SchedulerBooks
  import opened SchedulerTurns
  import TB = TokenBucket

  // ---- between sends -----------------------------------------------------------------

  // A QP joins a lane only when its next time has come.
  ghost predicate Joins(s: Sched, r: Sched) {
    && (forall id: nat :: id in r.request.queue && id !in s.request.queue ==> Ripe(s, id))
    && (forall id: nat :: id in r.response.queue && id !in s.response.queue ==> Ripe(s, id))
  }

  predicate Ripe(s: Sched, id: nat) { id < |s.qps| && s.qps[id].nextScheduleTime <= s.now }

  // A lookup is new only if the last send is a cycle ago.
  ghost predicate Cycles(c: Config, s: Sched, r: Sched) {
    forall k :: 0 <= k < |r.chain| && r.chain[k].LookupEvent? ==> r.chain == s.chain || r.lastRun + c.cycle <= r.now
  }

  predicate Refilled(c: Config, b: TB.Bucket, b': TB.Bucket, now: nat)
    requires Sane(c) && b.last <= now
  {
    b' == b || b' == TB.Refill(c.bucket, b, now)
  }

  // What the scheduler's own bookkeeping does.
  ghost predicate Steady(c: Config, s: Sched, r: Sched)
    requires Sane(c)
  {
    && s.bucket.last <= s.now && r.bucket.last <= r.now
    && r.qps == s.qps && r.now == s.now && r.lastRun == s.lastRun
    && Refilled(c, s.bucket, r.bucket, s.now) && Joins(s, r) && Cycles(c, s, r)
  }

  lemma RefillTwice(c: TB.Config, b: TB.Bucket, now: nat)
    requires TB.Sane(c) && b.last <= now
    ensures TB.Refill(c, b, now).last <= now
    ensures TB.Refill(c, TB.Refill(c, b, now), now) == TB.Refill(c, b, now)
  {
    TB.RefillTime(c, b, now);
    var b1 := TB.Refill(c, b, now);
    assert 0 * c.interval <= now - b1.last < 0 * c.interval + c.interval;
    TB.DivOf(now - b1.last, 0, c.interval);
  }

  lemma SteadyTrans(c: Config, s: Sched, s1: Sched, r: Sched)
    requires Sane(c) && Steady(c, s, s1) && Steady(c, s1, r)
    ensures Steady(c, s, r)
  {
    RefillTwice(c.bucket, s.bucket, s.now);
    hide TB.Refill;
  }

  lemma RunSteady(c: Config, s: Sched)
    requires Sane(c) && s.bucket.last <= s.now && s.chain == []
    ensures Steady(c, s, RunWorkScheduler(c, s))
  {
    RefillTwice(c.bucket, s.bucket, s.now);
    hide CanSend, TB.Refill;
  }

  lemma AddSteady(c: Config, s: Sched, id: nat, ty: WorkType)
    requires Sane(c) && s.bucket.last <= s.now && id < |s.qps| && OneChain(s)
    ensures Steady(c, s, AddQpToScheduleSet(c, s, id, ty))
  {
    hide HasCredits, RunWorkScheduler, TB.Refill;
    var l := s.LaneOf(ty);
    var s1 := s.WithLane(ty, l.(queue := l.queue + [id], members := l.members + {id}));
    if s.idle {
      RunSteady(c, s1);
      if s.qps[id].nextScheduleTime <= s.now {
        assert Steady(c, s, s1);
        SteadyTrans(c, s, s1, RunWorkScheduler(c, s1));
      }
    }
  }

  lemma NotifySteady(c: Config, s: Sched, id: nat)
    requires Sane(c) && s.bucket.last <= s.now && id < |s.qps| && OneChain(s)
    ensures Steady(c, s, Notify(c, s, id, Request)) && Steady(c, s, Notify(c, s, id, Response))
    ensures Steady(c, s, NotifyBoth(c, s, id))
  {
    hide HasCredits, AddQpToScheduleSet, Joins, Cycles;
    AddSteady(c, s, id, Request);
    AddSteady(c, s, id, Response);
    NotifyFrame(c, s, id);
    var s1 := Notify(c, s, id, Request);
    AddSteady(c, s1, id, Response);
    SteadySame(c, s);
    SteadySame(c, s1);
    SteadyTrans(c, s, s1, NotifyBoth(c, s, id));
  }

  lemma SteadySame(c: Config, s: Sched)
    requires Sane(c) && s.bucket.last <= s.now
    ensures Steady(c, s, s)
  {
  }

  // Any step but a send: no QP's next time moves, and none joins a lane before it.
  ghost predicate Ambles(c: Config, s: Sched, r: Sched)
    requires Sane(c)
  {
    && s.now <= r.now && s.bucket.last <= s.now && r.lastRun == s.lastRun && |s.qps| <= |r.qps|
    && (forall id :: 0 <= id < |r.qps| ==>
          r.qps[id].nextScheduleTime == if id < |s.qps| then s.qps[id].nextScheduleTime else 0)
    && Refilled(c, s.bucket, r.bucket, r.now) && Cycles(c, s, r)
    && Joins(s, r)
  }

  lemma SteadyAmbles(c: Config, s: Sched, s1: Sched, r: Sched)
    requires Sane(c) && Steady(c, s1, r) && s1.now == s.now && s1.lastRun == s.lastRun && s1.bucket == s.bucket
    requires |s1.qps| == |s.qps| && forall id :: 0 <= id < |s.qps| ==> s1.qps[id].nextScheduleTime == s.qps[id].nextScheduleTime
    requires s1.request.queue == s.request.queue && s1.response.queue == s.response.queue
    requires s1.chain == s.chain || s1.chain == []
    ensures Ambles(c, s, r)
  {
    hide TB.Refill;
  }

  lemma ContextAmbles(c: Config, s: Sched, step: Step)
    requires Sane(c) && s.bucket.last <= s.now && OneChain(s) && Enabled(c, s, step) && ChangesContext(step)
    ensures Ambles(c, s, Next(c, s, step).value)
  {
    hide Notify, NotifyBoth, AddQpToScheduleSet, Leq, Admissible, AdmissibleRead, ClampLimit, Steady, Ambles;
    var s1 := SetQp(s, step.id, NewContext(c, s.qps[step.id], step));
    NotifySteady(c, s1, step.id);
    AddSteady(c, s1, step.id, Request);
    SteadySame(c, s1);
    SteadyAmbles(c, s, s1, Next(c, s, step).value);
  }

  lemma ReturnAmbles(c: Config, s: Sched, id: nat, credit: Credit)
    requires Sane(c) && s.bucket.last <= s.now && OneChain(s) && id < |s.qps|
    ensures Ambles(c, s, DoReturn(c, s, id, credit))
  {
    hide NotifyBoth, RunWorkScheduler, Minus, Plus32, Ambles, TB.Refill, Joins;
    var s1 := SetQp(s, id, s.qps[id].(usage := Minus(s.qps[id].usage, credit)));
    NotifySteady(c, s1, id);
    NotifyFrame(c, s1, id);
    var s2 := NotifyBoth(c, s1, id);
    var s3 := s2.(credits := Plus32(s2.credits, credit));
    assert Steady(c, s2, s3) by { PoolSteady(c, s2, credit); }
    SteadyTrans(c, s1, s2, s3);
    if s3.idle {
      RunSteady(c, s3);
      SteadyTrans(c, s1, s3, RunWorkScheduler(c, s3));
    }
    SteadyAmbles(c, s, s1, DoReturn(c, s, id, credit));
  }

  lemma PoolSteady(c: Config, s: Sched, credit: Credit)
    requires Sane(c) && s.bucket.last <= s.now
    ensures Steady(c, s, s.(credits := Plus32(s.credits, credit)))
  {
  }

  lemma OtherAmbles(c: Config, s: Sched, step: Step)
    requires Sane(c) && s.bucket.last <= s.now && OneChain(s) && Enabled(c, s, step) && Next(c, s, step).Some?
    requires !(step.Fire? && step.k < |s.chain| && s.chain[step.k].LookupEvent?)
    ensures Ambles(c, s, Next(c, s, step).value)
  {
    hide RunWorkScheduler, AddQpToScheduleSet, DoReturn, Inform, NewContext, Steady, TB.Refill;
    if ChangesContext(step) {
      ContextAmbles(c, s, step);
    } else {
      match step
      case Tick(to) =>
      case Fire(k) =>
        assert Without(s.chain, k) == [];
        RunSteady(c, s.(chain := []));
        SteadyAmbles(c, s, s.(chain := []), Next(c, s, step).value);
      case FireAdd(k) =>
        var s1 := s.(adds := Without(s.adds, k));
        var ty := if s.adds[k].DelayedAdd? then s.adds[k].ty else s.workType;
        AddSteady(c, s1, s.adds[k].qp, ty);
        SteadyAmbles(c, s, s1, AddQpToScheduleSet(c, s1, s.adds[k].qp, ty));
      case SetXoff(requests, all) =>
        var s1 := s.(requestXoff := requests, globalXoff := all);
        SteadySame(c, s1);
        if s.idle {
          RunSteady(c, s1);
        }
        SteadyAmbles(c, s, s1, Next(c, s, step).value);
      case ReturnCredit(id, credit) => ReturnAmbles(c, s, id, credit);
      case CreateQp(limit) =>
    }
  }

  // ---- sends ---------------------------------------------------------------------------

  // What a send by QP id costs: its bytes in tokens, its credits in the pool, and the gap
  // between operations in time.
  ghost predicate Pays(c: Config, s: Sched, id: nat, r: Sched)
    requires Sane(c) && id < |s.qps| && HasWork(s.qps[id], s.workType)
  {
    var q, ty := s.qps[id], s.workType;
    && r.now == s.now && r.lastRun == s.now && r.bucket.last == s.bucket.last
    && r.bucket.tokens + PacketBytes(c, q, ty) == s.bucket.tokens
    && r.credits == Minus(s.credits, HeadCredit(c, q, ty))
    && |r.qps| == |s.qps| && (forall j :: 0 <= j < |s.qps| && j != id ==> r.qps[j] == s.qps[j])
    && r.qps[id].usage == Plus(q.usage, HeadCredit(c, q, ty))
    && r.qps[id].nextScheduleTime == (if q.nextScheduleTime <= s.now then s.now else q.nextScheduleTime) + c.opGap
  }

  lemma ChargePays(c: Config, s: Sched, id: nat)
    requires Sane(c) && id < |s.qps| && HasWork(s.qps[id], s.workType)
    requires Take(c, s.qps[id], s.workType).wire <= s.bucket.tokens
    ensures Pays(c, s, id, Charge(c, s, id, Take(c, s.qps[id], s.workType)))
  {
    WireExact(c, s.qps[id], s.workType);
    hide RequestCredit, ResponseCredit, Cut, Total, Plus, Minus, PacketBytes;
  }

  // And nobody joins a lane.
  lemma SendPays(c: Config, s: Sched, k: nat)
    requires Sane(c) && s.bucket.last <= s.now && OneChain(s)
    requires k < |s.chain| && s.chain[k].LookupEvent? && Next(c, s, Fire(k)).Some?
    ensures IsSend(s, Fire(k)) && Pays(c, s, s.chain[k].qp, Next(c, s, Fire(k)).value)
    ensures Joins(s, Next(c, s, Fire(k)).value) && Next(c, s, Fire(k)).value.chain == [RunEvent]
  {
    hide Take, Continue, HasWork, PacketBytes, HeadCredit, Plus, Minus, CanGoOn;
    assert k == 0 && Without(s.chain, 0) == [] && !s.idle;
    var id := s.chain[0].qp;
    var s1 := s.(chain := []);
    ChargePays(c, s1, id);
    var s2 := Charge(c, s1, id, Take(c, s1.qps[id], s1.workType));
    assert s2.chain == [] && !s2.idle && s2.bucket.last <= s2.now
        && s2.request.queue == s.request.queue && s2.response.queue == s.response.queue && s2.workType == s.workType;
    hide Charge;
    ContinueFrame(c, s2, id);
    ContinueSettles(c, s2, id);
    hide Settles;
    SettlesJoins(c, s2, id, Continue(c, s2, id).value);
  }

  lemma SettlesJoins(c: Config, s: Sched, id: nat, r: Sched)
    requires Sane(c) && id < |s.qps|
    requires var l := s.LaneOf(s.workType);
             Settles(c, s, id, r, l.bytes > 0 && l.ops > 0 && CanGoOn(c, s.qps[id], s.workType))
    ensures forall x: nat :: x in r.request.queue ==> x in s.request.queue
    ensures forall x: nat :: x in r.response.queue ==> x in s.response.queue
    ensures r.lastRun == s.lastRun && r.bucket == s.bucket
  {
    hide CanGoOn, ReadBlocked;
  }

  // ---- the gap between operations of a QP -----------------------------------------------

  // The times at which a QP sent, in a run.
  function Times(c: Config, h: History, id: nat): seq<nat>
    requires Sane(c)
  {
    match h
    case Start => []
    case After(before, step) =>
      var s, r := Reach(c, before), Reach(c, h);
      if s.Some? && r.Some? && IsSend(s.value, step) && Sender(s.value, step) == id
      then Times(c, before, id) + [s.value.now] else Times(c, before, id)
  }

  // The gap after the k-th send and those that followed.
  function Until(times: seq<nat>, k: nat, gap: nat): nat
    requires k < |times|
  {
    times[k] + (|times| - k) * gap
  }

  // The time is the first by which, for every send, the gap has passed as often as the QP
  // has sent since, that send included.
  ghost predicate Spaced(times: seq<nat>, gap: nat, time: nat) {
    && (forall k :: 0 <= k < |times| ==> Until(times, k, gap) <= time)
    && if times == [] then time == 0 else exists k :: 0 <= k < |times| && time == Until(times, k, gap)
  }

  lemma UntilAppend(times: seq<nat>, now: nat, k: nat, gap: nat)
    requires k < |times|
    ensures Until(times + [now], k, gap) == Until(times, k, gap) + gap
  {
    assert (|times| + 1 - k) * gap == (|times| - k) * gap + gap;
  }

  lemma UntilLast(times: seq<nat>, now: nat, gap: nat)
    ensures Until(times + [now], |times|, gap) == now + gap
  {
    assert (|times| + 1 - |times|) * gap == gap;
  }

  lemma SpacedAppend(times: seq<nat>, gap: nat, time: nat, now: nat)
    requires Spaced(times, gap, time)
    ensures Spaced(times + [now], gap, (if time <= now then now else time) + gap)
  {
    hide Until;
    var more := times + [now];
    UntilLast(times, now, gap);
    forall k | 0 <= k < |more|
      ensures Until(more, k, gap) <= (if time <= now then now else time) + gap
    {
      if k < |times| {
        UntilAppend(times, now, k, gap);
      }
    }
    if time > now {
      var k :| 0 <= k < |times| && time == Until(times, k, gap);
      UntilAppend(times, now, k, gap);
      assert Until(more, k, gap) == time + gap;
    } else {
      assert Until(more, |times|, gap) == now + gap;
    }
  }

  ghost predicate PaceOk(c: Config, s: Sched, id: nat, times: seq<nat>) {
    if id < |s.qps| then Spaced(times, c.opGap, s.qps[id].nextScheduleTime) else times == []
  }

  lemma PaceStep(c: Config, h: History, id: nat)
    requires Sane(c) && h.After? && Reach(c, h).Some? && Reach(c, h.before).Some?
    requires OneChain(Reach(c, h.before).value) && PaceOk(c, Reach(c, h.before).value, id, Times(c, h.before, id))
    ensures PaceOk(c, Reach(c, h).value, id, Times(c, h, id))
  {
    hide Next, Enabled, IsSend, OneChain, Spaced, PacketBytes, HeadCredit, HasWork;
    var s, step := Reach(c, h.before).value, h.step;
    if step.Fire? && step.k < |s.chain| && s.chain[step.k].LookupEvent? {
      SendPays(c, s, step.k);
      SenderIs(s, step);
      if Sender(s, step) == id {
        SpacedAppend(Times(c, h.before, id), c.opGap, s.qps[id].nextScheduleTime, s.now);
      }
    } else {
      OtherAmbles(c, s, step);
      NotSend(s, step);
      hide Refilled, Cycles, Joins;
      SpacedNothing(c.opGap);
    }
  }

  lemma SpacedNothing(gap: nat)
    ensures Spaced([], gap, 0)
  {
  }

  // In every run, the next time of a QP is just that, by the times it sent at.
  lemma {:induction false} NextTimeExact(c: Config, h: History, id: nat)
    requires Sane(c) && Possible(c, h) && Reach(c, h).Some?
    ensures PaceOk(c, Reach(c, h).value, id, Times(c, h, id))
  {
    match h
    case Start =>
    case After(before, step) =>
      hide PaceOk, Next, Enabled, Sound;
      NextTimeExact(c, before, id);
      RunsKeepSound(c, before);
      SoundChain(c, Reach(c, before).value);
      PaceStep(c, h, id);
  }

  // In every run, a QP joins a lane no sooner than, after each of its sends, the gap has
  // passed as often as it has sent since.
  lemma JoinsLate(c: Config, h: History, step: Step, id: nat, ty: WorkType, k: nat)
    requires Sane(c) && Possible(c, After(h, step)) && Reach(c, h).Some? && Reach(c, After(h, step)).Some?
    requires k < |Times(c, h, id)|
    requires var s, r := Reach(c, h).value, Reach(c, After(h, step)).value;
             id in r.LaneOf(ty).queue && id !in s.LaneOf(ty).queue
    ensures Times(c, h, id)[k] + (|Times(c, h, id)| - k) * c.opGap <= Reach(c, h).value.now
  {
    hide Next, Enabled, Sound, PacketBytes, HeadCredit;
    NextTimeExact(c, h, id);
    RunsKeepSound(c, h);
    var s := Reach(c, h).value;
    SoundChain(c, s);
    if step.Fire? && step.k < |s.chain| && s.chain[step.k].LookupEvent? {
      SendPays(c, s, step.k);
    } else {
      OtherAmbles(c, s, step);
    }
    assert Ripe(s, id);
    assert Until(Times(c, h, id), k, c.opGap) <= s.now;
  }

  lemma {:induction false} LegalPossible(c: Config, h: History)
    requires Sane(c) && Legal(c, h)
    ensures Possible(c, h)
  {
    match h
    case Start =>
    case After(before, step) =>
      hide Enabled, Next, DepthRespected;
      LegalPossible(c, before);
  }

  // The lane an event is to add a QP to.
  function LaneFor(s: Sched, ev: AddEvent): WorkType { if ev.DelayedAdd? then ev.ty else s.workType }

  lemma AddLists(c: Config, s: Sched, id: nat, ty: WorkType)
    requires Sane(c) && s.bucket.last <= s.now && id < |s.qps| && s.qps[id].nextScheduleTime <= s.now
    requires HasCredits(c, s.qps[id], ty) && !Xoff(s.qps[id], ty)
    requires id in s.LaneOf(ty).members ==> id in s.LaneOf(ty).queue
    ensures id in AddQpToScheduleSet(c, s, id, ty).LaneOf(ty).queue
  {
    hide HasCredits, CanSend, TB.Refill;
    var l := s.LaneOf(ty);
    assert id in l.queue + [id];
  }

  // In every run, an event that is to add a QP does so, if by then the gaps after its sends
  // have passed and it has work, credits for it and no xoff.
  lemma AddsInTime(c: Config, h: History, k: nat)
    requires Sane(c) && Legal(c, After(h, FireAdd(k))) && Reach(c, h).Some? && k < |Reach(c, h).value.adds|
    requires var s := Reach(c, h).value;
             var id, ty := s.adds[k].qp, LaneFor(s, s.adds[k]);
             && id < |s.qps| && HasCredits(c, s.qps[id], ty) && !Xoff(s.qps[id], ty)
             && forall j :: 0 <= j < |Times(c, h, id)| ==> Until(Times(c, h, id), j, c.opGap) <= s.now
    ensures var s, r := Reach(c, h).value, Reach(c, After(h, FireAdd(k)));
            r.Some? && s.adds[k].qp in r.value.LaneOf(LaneFor(s, s.adds[k])).queue
  {
    hide Inv, HasCredits, AddQpToScheduleSet, Times, Spaced, Until;
    var s := Reach(c, h).value;
    var id, ty := s.adds[k].qp, LaneFor(s, s.adds[k]);
    assert Legal(c, h);
    LegalPossible(c, h);
    TimeHasCome(c, h, id);
    RunsKeepInv(c, h);
    hide Legal, Possible;
    LanesAgree(c, s, id, ty);
    AddLists(c, s.(adds := Without(s.adds, k)), id, ty);
  }

  lemma LanesAgree(c: Config, s: Sched, id: nat, ty: WorkType)
    requires Sane(c) && Inv(c, s, c.total)
    ensures s.bucket.last <= s.now && (id in s.LaneOf(ty).members ==> id in s.LaneOf(ty).queue)
  {
    hide BooksOk, ChainOk;
    InvClock(c, s, c.total);
    assert LaneOk(s.LaneOf(ty), ty, s.qps);
  }

  lemma TimeHasCome(c: Config, h: History, id: nat)
    requires Sane(c) && Possible(c, h) && Reach(c, h).Some? && id < |Reach(c, h).value.qps|
    requires forall j :: 0 <= j < |Times(c, h, id)| ==> Until(Times(c, h, id), j, c.opGap) <= Reach(c, h).value.now
    ensures Reach(c, h).value.qps[id].nextScheduleTime <= Reach(c, h).value.now
  {
    hide Reach, Possible, Times, Until;
    NextTimeExact(c, h, id);
    var s, times := Reach(c, h).value, Times(c, h, id);
    if times != [] {
      var j :| 0 <= j < |times| && s.qps[id].nextScheduleTime == Until(times, j, c.opGap);
    }
  }

  // ---- the cycle between any two sends -------------------------------------------------------

  // The times of all sends.
  function Sends(c: Config, h: History): seq<nat>
    requires Sane(c)
  {
    match h
    case Start => []
    case After(before, step) =>
      var s, r := Reach(c, before), Reach(c, h);
      if s.Some? && r.Some? && IsSend(s.value, step) then Sends(c, before) + [s.value.now] else Sends(c, before)
  }

  ghost predicate CycleOk(c: Config, s: Sched, sends: seq<nat>) {
    && s.lastRun == (if sends == [] then 0 else sends[|sends| - 1]) && s.lastRun <= s.now
    && (forall k :: 0 < k < |sends| ==> sends[k - 1] + c.cycle <= sends[k])
    && (forall k :: 0 <= k < |s.chain| && s.chain[k].LookupEvent? ==> s.lastRun + c.cycle <= s.now)
  }

  lemma CycleStep(c: Config, h: History)
    requires Sane(c) && h.After? && Reach(c, h).Some? && Reach(c, h.before).Some?
    requires OneChain(Reach(c, h.before).value) && CycleOk(c, Reach(c, h.before).value, Sends(c, h.before))
    ensures CycleOk(c, Reach(c, h).value, Sends(c, h))
  {
    hide Next, Enabled, IsSend, OneChain, PacketBytes, HeadCredit, HasWork;
    var s, step := Reach(c, h.before).value, h.step;
    if step.Fire? && step.k < |s.chain| && s.chain[step.k].LookupEvent? {
      SendPays(c, s, step.k);
      hide Joins;
    } else {
      OtherAmbles(c, s, step);
      NotSend(s, step);
      hide Refilled, Joins;
    }
  }

  // In every run, transactions go out at least a cycle apart, whichever QPs they belong to.
  lemma {:induction false} SendsApart(c: Config, h: History)
    requires Sane(c) && Possible(c, h) && Reach(c, h).Some?
    ensures CycleOk(c, Reach(c, h).value, Sends(c, h))
    ensures forall k :: 0 < k < |Sends(c, h)| ==> Sends(c, h)[k - 1] + c.cycle <= Sends(c, h)[k]
  {
    match h
    case Start =>
    case After(before, step) =>
      hide Next, Enabled, Sound;
      SendsApart(c, before);
      RunsKeepSound(c, before);
      SoundChain(c, Reach(c, before).value);
      CycleStep(c, h);
  }

  // ---- bytes -----------------------------------------------------------------------------------

  // The bytes of all packets sent, without the outer headers.
  function Bytes(c: Config, h: History): nat
    requires Sane(c)
  {
    match h
    case Start => 0
    case After(before, step) =>
      var s, r := Reach(c, before), Reach(c, h);
      Bytes(c, before) +
      if s.Some? && r.Some? && IsSend(s.value, step)
      then PacketBytes(c, s.value.qps[Sender(s.value, step)], s.value.workType) else 0
  }

  // Tokens left and bytes sent, when the bucket was refilled n times.
  ghost predicate TokensOk(c: Config, b: TB.Bucket, bytes: nat, n: nat) {
    b.last == n * c.bucket.interval && b.tokens <= c.bucket.size && b.tokens + bytes <= c.bucket.size + n * c.bucket.perRefill
  }

  lemma RefillTokens(c: Config, b: TB.Bucket, now: nat, bytes: nat, n: nat)
    requires Sane(c) && b.last <= now && TokensOk(c, b, bytes, n)
    ensures TokensOk(c, TB.Refill(c.bucket, b, now), bytes, n + TB.Elapsed(c.bucket, b, now))
  {
    var m := TB.Elapsed(c.bucket, b, now);
    TB.RefillTime(c.bucket, b, now);
    assert (n + m) * c.bucket.interval == n * c.bucket.interval + m * c.bucket.interval;
    assert (n + m) * c.bucket.perRefill == n * c.bucket.perRefill + m * c.bucket.perRefill;
    hide TB.Elapsed;
  }

  lemma TokensStep(c: Config, h: History, n: nat) returns (m: nat)
    requires Sane(c) && h.After? && Reach(c, h).Some? && Reach(c, h.before).Some?
    requires OneChain(Reach(c, h.before).value) && TokensOk(c, Reach(c, h.before).value.bucket, Bytes(c, h.before), n)
    ensures TokensOk(c, Reach(c, h).value.bucket, Bytes(c, h), m)
  {
    hide Next, Enabled, IsSend, OneChain, PacketBytes, HeadCredit, HasWork, TB.Refill, TB.Elapsed;
    var s, r, step := Reach(c, h.before).value, Reach(c, h).value, h.step;
    m := n;
    if step.Fire? && step.k < |s.chain| && s.chain[step.k].LookupEvent? {
      SendPays(c, s, step.k);
      SenderIs(s, step);
      hide Joins;
    } else {
      OtherAmbles(c, s, step);
      NotSend(s, step);
      hide Cycles, Joins;
      if r.bucket != s.bucket {
        RefillTokens(c, s.bucket, r.now, Bytes(c, h.before), n);
        m := n + TB.Elapsed(c.bucket, s.bucket, r.now);
      }
    }
  }

  lemma {:induction false} RunTokens(c: Config, h: History) returns (n: nat)
    requires Sane(c) && Possible(c, h) && Reach(c, h).Some?
    ensures TokensOk(c, Reach(c, h).value.bucket, Bytes(c, h), n)
  {
    match h
    case Start =>
      n := 0;
      assert 0 * c.bucket.interval == 0 && 0 * c.bucket.perRefill == 0;
    case After(before, step) =>
      hide Next, Enabled, Sound, TokensOk;
      var m := RunTokens(c, before);
      RunsKeepSound(c, before);
      SoundChain(c, Reach(c, before).value);
      n := TokensStep(c, h, m);
  }

  // In every run, the bytes sent by a time are at most the size of the token bucket and one
  // refill for every interval that has passed.
  lemma BytesBounded(c: Config, h: History)
    requires Sane(c) && Possible(c, h) && Reach(c, h).Some?
    ensures Bytes(c, h) <= c.bucket.size + (Reach(c, h).value.now / c.bucket.interval) * c.bucket.perRefill
  {
    hide Bytes, Possible, Sound, Reach;
    var n := RunTokens(c, h);
    RunsKeepSound(c, h);
    var s := Reach(c, h).value;
    SoundChain(c, s);
    assert n <= s.now / c.bucket.interval by { BinsBelow(n, c.bucket.interval, s.now); }
    MulMonotone(n, s.now / c.bucket.interval, c.bucket.perRefill);
  }

  lemma BinsBelow(n: nat, q: nat, x: nat)
    requires q > 0 && n * q <= x
    ensures n <= x / q
  {
    var d := x / q;
    assert x == q * d + x % q && x % q < q && (d + 1) * q == q * d + q;
    if n > d {
      MulMonotone(d + 1, n, q);
    }
  }
}
