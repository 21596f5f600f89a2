// The work that flows through the scheduler: what was posted and asked for goes out once,
// whole and in order, reads are counted, xoffs are minded, and the scheduler does not sleep
// on work it may do.
module SchedulerFlow {
  import opened Common
  import opened Sgl
  import opened FalconCredits
  import opened Scheduler
  import opened SchedulerBooks
  import opened SchedulerTurns
  import TB = TokenBucket

  // ---- what a step does to the contexts --------------------------------------------------

  // The contexts after a step that is no send.
  function QpsAfter(c: Config, s: Sched, step: Step): seq<Qp>
    requires Sane(c) && Enabled(c, s, step)
  {
    if ChangesContext(step) then s.qps[step.id := NewContext(c, s.qps[step.id], step)]
    else if step.ReturnCredit? then
      s.qps[step.id := s.qps[step.id].(usage := Minus(s.qps[step.id].usage, step.credit))]
    else if step.CreateQp? then s.qps + [Qp([], [], step.limit, Zero, false, false, 0, 0)]
    else s.qps
  }

  lemma OtherQps(c: Config, s: Sched, step: Step)
    requires Sane(c) && s.bucket.last <= s.now && OneChain(s) && Enabled(c, s, step) && Next(c, s, step).Some?
    requires !(step.Fire? && step.k < |s.chain| && s.chain[step.k].LookupEvent?)
    ensures Next(c, s, step).value.qps == QpsAfter(c, s, step)
  {
    hide RunWorkScheduler, AddQpToScheduleSet, NotifyBoth, Inform, NewContext, Minus, Plus32;
    if ChangesContext(step) {
      InformFrame(c, SetQp(s, step.id, NewContext(c, s.qps[step.id], step)), step, s.qps[step.id]);
    } else {
      match step
      case Tick(to) =>
      case Fire(k) =>
        assert Without(s.chain, k) == [];
        RunFrame(c, s.(chain := []));
      case FireAdd(k) =>
        AddFrame(c, s.(adds := Without(s.adds, k)), s.adds[k].qp,
                 if s.adds[k].DelayedAdd? then s.adds[k].ty else s.workType);
      case SetXoff(requests, all) =>
        if s.idle {
          RunFrame(c, s.(requestXoff := requests, globalXoff := all));
        }
      case ReturnCredit(id, credit) =>
        var s1 := SetQp(s, id, s.qps[id].(usage := Minus(s.qps[id].usage, credit)));
        NotifyFrame(c, s1, id);
        var s2 := NotifyBoth(c, s1, id);
        if s2.idle {
          RunFrame(c, s2.(credits := Plus32(s2.credits, credit)));
        }
      case CreateQp(limit) =>
    }
  }

  // ---- what a send takes -------------------------------------------------------------------

  // Bytes of an operation still to be sent, or to be read.
  function Remaining(op: Op): nat { if op.inlineLength != 0 then op.inlineLength else Total(op.sgl) }

  function Backlog(ops: seq<Op>): nat { if ops == [] then 0 else Backlog(ops[1..]) + Remaining(ops[0]) }

  lemma {:induction false} BacklogAppend(ops: seq<Op>, op: Op)
    ensures Backlog(ops + [op]) == Backlog(ops) + Remaining(op)
  {
    if ops != [] {
      assert (ops + [op])[1..] == ops[1..] + [op];
      BacklogAppend(ops[1..], op);
    }
  }

  // A request takes its payload from the first operation, which stays at the head with the
  // rest, or leaves. A response takes the oldest inbound read.
  ghost predicate Takes(c: Config, q: Qp, q': Qp, ty: WorkType)
    requires HasWork(q, ty)
  {
    && q'.requestXoff == q.requestXoff && q'.responseXoff == q.responseXoff && q'.limit == q.limit
    && if ty.Response? then
      q'.inboundReads == q.inboundReads[1..] && q'.sendQueue == q.sendQueue && q'.outboundReads == q.outboundReads
    else
      var op := q.sendQueue[0];
      && q'.inboundReads == q.inboundReads
      && q'.outboundReads == q.outboundReads + (if op.opcode.Read? then 1 else 0)
      && Backlog(q'.sendQueue) + PayloadBytes(c, op) == Backlog(q.sendQueue)
      && (|| (q'.sendQueue == q.sendQueue[1..] && Remaining(op) == PayloadBytes(c, op))
          || (&& q'.sendQueue != [] && q'.sendQueue[1..] == q.sendQueue[1..]
              && q'.sendQueue[0].opcode == op.opcode && q'.sendQueue[0].inlineLength == op.inlineLength == 0
              && q'.sendQueue[0].sgl == Cut(op.sgl, c.units.mtu).rest != []))
  }

  lemma TakeTakes(c: Config, q: Qp, ty: WorkType)
    requires Sane(c) && HasWork(q, ty)
    ensures Takes(c, q, Take(c, q, ty).qp, ty)
  {
    if ty.Request? {
      var op := q.sendQueue[0];
      CutTotals(op.sgl, c.units.mtu);
      hide RequestCredit, Cut;
      var rest := Cut(op.sgl, c.units.mtu).rest;
      var left := [op.(sgl := rest)] + q.sendQueue[1..];
      assert left[1..] == q.sendQueue[1..];
      assert Total([]) == 0;
    }
  }

  lemma SendTakes(c: Config, s: Sched, k: nat)
    requires Sane(c) && s.bucket.last <= s.now && OneChain(s)
    requires k < |s.chain| && s.chain[k].LookupEvent? && Next(c, s, Fire(k)).Some?
    ensures IsSend(s, Fire(k))
    ensures var id, r := s.chain[k].qp, Next(c, s, Fire(k)).value;
            && |r.qps| == |s.qps| && (forall j :: 0 <= j < |s.qps| && j != id ==> r.qps[j] == s.qps[j])
            && Takes(c, s.qps[id], r.qps[id], s.workType)
  {
    hide Take, Continue, PacketBytes, Plus, Minus, Backlog, CanGoOn, Cut;
    assert k == 0 && Without(s.chain, 0) == [];
    var id := s.chain[0].qp;
    var s1 := s.(chain := []);
    TakeTakes(c, s.qps[id], s.workType);
    ContinueSettles(c, Charge(c, s1, id, Take(c, s1.qps[id], s1.workType)), id);
    hide Settles;
    SettledQps(c, Charge(c, s1, id, Take(c, s1.qps[id], s1.workType)), id);
  }

  lemma SettledQps(c: Config, s: Sched, id: nat)
    requires Sane(c) && id < |s.qps| && Continue(c, s, id).Some?
    ensures Continue(c, s, id).value.qps == s.qps
  {
    hide Continue, CanGoOn;
    ContinueSettles(c, s, id);
  }

  // ---- every run ------------------------------------------------------------------------------

  // What has gone into a QP and come out of it: the operations posted and the payload sent,
  // the inbound reads and how many were answered, the reads sent and those done; and what
  // it was told last: its xoffs and its limit.
  datatype Flow = Flow(posted: seq<Op>, sent: nat, asked: seq<seq<nat>>, answered: nat, begun: nat, done: nat,
                       noRequests: bool, noResponses: bool, limit: Credit)

  const NoFlow := Flow([], 0, [], 0, 0, 0, false, false, Zero)

  // A send from a context.
  function SendFlow(c: Config, f: Flow, q: Qp, ty: WorkType): Flow
    requires HasWork(q, ty)
  {
    if ty.Response? then f.(answered := f.answered + 1)
    else f.(sent := f.sent + PayloadBytes(c, q.sendQueue[0]),
            begun := f.begun + if q.sendQueue[0].opcode.Read? then 1 else 0)
  }

  // Any other step; n is the number of QPs there are.
  function StepFlow(c: Config, f: Flow, n: nat, step: Step, id: nat): Flow {
    match step
    case CreateQp(limit) => if n == id then f.(limit := limit) else f
    case QpXoff(j, requests, responses) => if j == id then f.(noRequests := requests, noResponses := responses) else f
    case SetLimit(j, limit) => if j == id then f.(limit := ClampLimit(limit, c.perQp)) else f
    case PostOp(j, op) => if j == id then f.(posted := f.posted + [op]) else f
    case InboundRead(j, sgl) => if j == id then f.(asked := f.asked + [sgl]) else f
    case ReadDone(j) => if j == id then f.(done := f.done + 1) else f
    case _ => f
  }

  function FlowOf(c: Config, h: History, id: nat): Flow
    requires Sane(c)
  {
    match h
    case Start => NoFlow
    case After(before, step) =>
      var s, r, f := Reach(c, before), Reach(c, h), FlowOf(c, before, id);
      if s.None? || r.None? then f
      else if IsSend(s.value, step) then
        if Sender(s.value, step) == id then SendFlow(c, f, s.value.qps[id], s.value.workType) else f
      else StepFlow(c, f, |s.value.qps|, step, id)
  }

  // The context holds what is left: the operations posted last, the first of them perhaps in
  // part, with all bytes not sent; the inbound reads not answered; and the reads not done.
  ghost predicate Holds(q: Qp, f: Flow) {
    && Backlog(f.posted) == f.sent + Backlog(q.sendQueue)
    && |q.sendQueue| <= |f.posted|
    && (forall k :: 1 <= k < |q.sendQueue| ==> q.sendQueue[k] == f.posted[|f.posted| - |q.sendQueue| + k])
    && (q.sendQueue != [] ==>
          var op := f.posted[|f.posted| - |q.sendQueue|];
          q.sendQueue[0].opcode == op.opcode && q.sendQueue[0].inlineLength == op.inlineLength
          && Total(q.sendQueue[0].sgl) <= Total(op.sgl))
    && f.answered <= |f.asked| && q.inboundReads == f.asked[f.answered..]
    && f.begun == f.done + q.outboundReads
    && q.requestXoff == f.noRequests && q.responseXoff == f.noResponses && q.limit == f.limit
  }

  lemma SendHolds(c: Config, q: Qp, q': Qp, ty: WorkType, f: Flow)
    requires HasWork(q, ty) && Holds(q, f) && Takes(c, q, q', ty)
    ensures Holds(q', SendFlow(c, f, q, ty))
  {
    hide Backlog, Cut;
    if ty.Request? && |q'.sendQueue| == |q.sendQueue| {
      CutTotals(q.sendQueue[0].sgl, c.units.mtu);
      assert forall k :: 1 <= k < |q'.sendQueue| ==> q'.sendQueue[k] == q'.sendQueue[1..][k - 1];
      assert forall k :: 1 <= k < |q.sendQueue| ==> q.sendQueue[k] == q.sendQueue[1..][k - 1];
    }
  }

  lemma ContextHolds(c: Config, q: Qp, n: nat, step: Step, f: Flow)
    requires Holds(q, f) && ChangesContext(step) && (step.ReadDone? ==> q.outboundReads > 0)
    ensures Holds(NewContext(c, q, step), StepFlow(c, f, n, step, step.id))
  {
    hide Backlog, ClampLimit;
    if step.PostOp? {
      BacklogAppend(q.sendQueue, step.op);
      BacklogAppend(f.posted, step.op);
    }
  }

  ghost predicate FlowOk(s: Sched, id: nat, f: Flow) { if id < |s.qps| then Holds(s.qps[id], f) else f == NoFlow }

  lemma HoldsNothing(limit: Credit)
    ensures Holds(Qp([], [], limit, Zero, false, false, 0, 0), NoFlow.(limit := limit))
  {
  }

  lemma OtherFlow(c: Config, s: Sched, step: Step, id: nat, f: Flow)
    requires Sane(c) && s.bucket.last <= s.now && OneChain(s) && Enabled(c, s, step) && Next(c, s, step).Some?
    requires !(step.Fire? && step.k < |s.chain| && s.chain[step.k].LookupEvent?) && FlowOk(s, id, f)
    ensures FlowOk(Next(c, s, step).value, id, StepFlow(c, f, |s.qps|, step, id))
  {
    OtherQps(c, s, step);
    hide Next, Holds, NewContext, Admissible, AdmissibleRead, Leq, Minus;
    if ChangesContext(step) {
      if step.id == id {
        ContextHolds(c, s.qps[id], |s.qps|, step, f);
      }
    } else if step.CreateQp? {
      HoldsNothing(step.limit);
    } else if step.ReturnCredit? && step.id == id {
      HoldsSame(s.qps[id], Minus(s.qps[id].usage, step.credit), f);
    }
  }

  lemma HoldsSame(q: Qp, usage: Credit, f: Flow)
    requires Holds(q, f)
    ensures Holds(q.(usage := usage), f)
  {
  }

  lemma FlowStep(c: Config, h: History, id: nat)
    requires Sane(c) && h.After? && Reach(c, h).Some? && Reach(c, h.before).Some?
    requires OneChain(Reach(c, h.before).value) && FlowOk(Reach(c, h.before).value, id, FlowOf(c, h.before, id))
    ensures FlowOk(Reach(c, h).value, id, FlowOf(c, h, id))
  {
    hide Next, Enabled, IsSend, OneChain, Holds, Takes, SendFlow, HasWork;
    var s, step := Reach(c, h.before).value, h.step;
    if step.Fire? && step.k < |s.chain| && s.chain[step.k].LookupEvent? {
      SendTakes(c, s, step.k);
      SenderIs(s, step);
      if Sender(s, step) == id {
        SendHolds(c, s.qps[id], Reach(c, h).value.qps[id], s.workType, FlowOf(c, h.before, id));
      }
    } else {
      OtherFlow(c, s, step, id, FlowOf(c, h.before, id));
      NotSend(s, step);
    }
  }

  // In every run, what a QP holds is what was posted and asked for less what was sent, and
  // its xoffs and its limit are what it was told last.
  lemma {:induction false} FlowExact(c: Config, h: History, id: nat)
    requires Sane(c) && Possible(c, h) && Reach(c, h).Some?
    ensures FlowOk(Reach(c, h).value, id, FlowOf(c, h, id))
  {
    match h
    case Start =>
    case After(before, step) =>
      hide FlowOk, Next, Enabled, Sound;
      FlowExact(c, before, id);
      RunsKeepSound(c, before);
      SoundChain(c, Reach(c, before).value);
      FlowStep(c, h, id);
  }

  // ---- minding the xoffs ---------------------------------------------------------------------------

  // A QP that joins a lane is not under xoff, has work for it and the credits.
  ghost predicate Welcome(c: Config, s: Sched, r: Sched)
    requires Sane(c)
  {
    && (forall id: nat :: id in r.request.queue && id !in s.request.queue ==>
          id < |r.qps| && !r.qps[id].requestXoff && HasCredits(c, r.qps[id], Request))
    && (forall id: nat :: id in r.response.queue && id !in s.response.queue ==>
          id < |r.qps| && !r.qps[id].responseXoff && HasCredits(c, r.qps[id], Response))
  }

  // What the scheduler's own bookkeeping does.
  ghost predicate Minds(c: Config, s: Sched, r: Sched)
    requires Sane(c)
  {
    && r.requestXoff == s.requestXoff && r.globalXoff == s.globalXoff && r.qps == s.qps
    && r.now == s.now && r.bucket.last <= r.now && Welcome(c, s, r)
  }

  lemma RunMinds(c: Config, s: Sched)
    requires Sane(c) && s.bucket.last <= s.now
    ensures Minds(c, s, RunWorkScheduler(c, s))
  {
    hide HasCredits, CanSend, TB.Refill;
  }

  lemma AddMinds(c: Config, s: Sched, id: nat, ty: WorkType)
    requires Sane(c) && s.bucket.last <= s.now && id < |s.qps|
    ensures Minds(c, s, AddQpToScheduleSet(c, s, id, ty))
  {
    hide HasCredits, RunWorkScheduler, Minds;
    MindsItself(c, s);
    DelayMinds(c, s, s.adds + [DelayedAdd(id, ty)]);
    if HasCredits(c, s.qps[id], ty) && !Xoff(s.qps[id], ty) {
      var l := s.LaneOf(ty);
      var s1 := s.WithLane(ty, l.(queue := l.queue + [id], members := l.members + {id}));
      JoinMinds(c, s, id, ty);
      RunMinds(c, s1);
      MindsTwice(c, s, s1, RunWorkScheduler(c, s1));
    }
  }

  lemma JoinMinds(c: Config, s: Sched, id: nat, ty: WorkType)
    requires Sane(c) && s.bucket.last <= s.now && id < |s.qps| && HasCredits(c, s.qps[id], ty) && !Xoff(s.qps[id], ty)
    ensures var l := s.LaneOf(ty);
            Minds(c, s, s.WithLane(ty, l.(queue := l.queue + [id], members := l.members + {id})))
  {
    hide HasCredits;
    assert forall x: nat :: x in s.LaneOf(ty).queue + [id] <==> x in s.LaneOf(ty).queue || x == id;
  }

  lemma MindsTwice(c: Config, s: Sched, r: Sched, r': Sched)
    requires Sane(c) && Minds(c, s, r) && Minds(c, r, r')
    ensures Minds(c, s, r')
  {
    hide HasCredits;
  }

  lemma NotifyMinds(c: Config, s: Sched, id: nat)
    requires Sane(c) && s.bucket.last <= s.now && id < |s.qps|
    ensures Minds(c, s, Notify(c, s, id, Request)) && Minds(c, s, Notify(c, s, id, Response))
    ensures Minds(c, s, NotifyBoth(c, s, id))
  {
    hide HasCredits, AddQpToScheduleSet, Welcome;
    assert Minds(c, s, s) by { MindsItself(c, s); }
    AddMinds(c, s, id, Request);
    AddMinds(c, s, id, Response);
    var s1 := Notify(c, s, id, Request);
    assert Minds(c, s1, s1) by { MindsItself(c, s1); }
    AddMinds(c, s1, id, Response);
    MindsTwice(c, s, s1, NotifyBoth(c, s, id));
  }

  lemma MindsItself(c: Config, s: Sched)
    requires Sane(c) && s.bucket.last <= s.now
    ensures Minds(c, s, s)
  {
  }

  lemma DelayMinds(c: Config, s: Sched, adds: seq<AddEvent>)
    requires Sane(c) && s.bucket.last <= s.now
    ensures Minds(c, s, s.(adds := adds))
  {
  }

  // Every step: the xoffs are what was told last, and who joins a lane is welcome.
  ghost predicate Heeds(c: Config, s: Sched, step: Step, r: Sched)
    requires Sane(c)
  {
    && r.requestXoff == (if step.SetXoff? then step.requests else s.requestXoff)
    && r.globalXoff == (if step.SetXoff? then step.all else s.globalXoff)
    && Welcome(c, s, r)
  }

  lemma MindsHeeds(c: Config, s: Sched, s1: Sched, step: Step, r: Sched)
    requires Sane(c) && Minds(c, s1, r) && s1.request.queue == s.request.queue && s1.response.queue == s.response.queue
    requires s1.requestXoff == (if step.SetXoff? then step.requests else s.requestXoff)
    requires s1.globalXoff == (if step.SetXoff? then step.all else s.globalXoff)
    ensures Heeds(c, s, step, r)
  {
    hide HasCredits;
  }

  lemma StepHeeds(c: Config, s: Sched, step: Step)
    requires Sane(c) && s.bucket.last <= s.now && OneChain(s) && Enabled(c, s, step) && Next(c, s, step).Some?
    ensures Heeds(c, s, step, Next(c, s, step).value)
  {
    hide RunWorkScheduler, AddQpToScheduleSet, Notify, NotifyBoth, NewContext, SendTransaction, HasCredits, Minus, Plus32,
         Leq, Admissible, AdmissibleRead, Minds, Heeds;
    if ChangesContext(step) {
      var s1 := SetQp(s, step.id, NewContext(c, s.qps[step.id], step));
      NotifyMinds(c, s1, step.id);
      AddMinds(c, s1, step.id, Request);
      MindsItself(c, s1);
      MindsHeeds(c, s, s1, step, Next(c, s, step).value);
    } else {
      match step
      case Tick(to) => MindsItself(c, s.(now := to)); MindsHeeds(c, s, s.(now := to), step, s.(now := to));
      case Fire(k) => FireHeeds(c, s, k);
      case FireAdd(k) =>
        var s1 := s.(adds := Without(s.adds, k));
        AddMinds(c, s1, s.adds[k].qp, if s.adds[k].DelayedAdd? then s.adds[k].ty else s.workType);
        MindsHeeds(c, s, s1, step, Next(c, s, step).value);
      case SetXoff(requests, all) =>
        var s1 := s.(requestXoff := requests, globalXoff := all);
        RunMinds(c, s1);
        MindsItself(c, s1);
        MindsHeeds(c, s, s1, step, Next(c, s, step).value);
      case ReturnCredit(id, credit) => ReturnHeeds(c, s, id, credit);
      case CreateQp(limit) =>
        var s1 := Next(c, s, step).value;
        MindsItself(c, s1);
        MindsHeeds(c, s, s1, step, s1);
    }
  }

  lemma ReturnHeeds(c: Config, s: Sched, id: nat, credit: Credit)
    requires Sane(c) && s.bucket.last <= s.now && id < |s.qps|
    ensures Heeds(c, s, ReturnCredit(id, credit), DoReturn(c, s, id, credit))
  {
    hide RunWorkScheduler, NotifyBoth, HasCredits, Minus, Plus32, Heeds, Welcome;
    var s1 := SetQp(s, id, s.qps[id].(usage := Minus(s.qps[id].usage, credit)));
    NotifyMinds(c, s1, id);
    var s2 := NotifyBoth(c, s1, id);
    var s3 := s2.(credits := Plus32(s2.credits, credit));
    assert Minds(c, s1, s3) by { SameLanes(c, s1, s2, s3); }
    RunMinds(c, s3);
    MindsItself(c, s3);
    MindsTwice(c, s1, s3, DoReturn(c, s, id, credit));
    MindsHeeds(c, s, s1, ReturnCredit(id, credit), DoReturn(c, s, id, credit));
  }

  lemma SameLanes(c: Config, s: Sched, r: Sched, r': Sched)
    requires Sane(c) && Minds(c, s, r) && r' == r.(credits := r'.credits)
    ensures Minds(c, s, r')
  {
    hide HasCredits;
  }

  lemma FireHeeds(c: Config, s: Sched, k: nat)
    requires Sane(c) && s.bucket.last <= s.now && OneChain(s) && k < |s.chain| && FireChain(c, s, k).Some?
    ensures Heeds(c, s, Fire(k), FireChain(c, s, k).value)
  {
    hide RunWorkScheduler, HasCredits, Take, Continue, Settles, CanGoOn;
    var s1 := s.(chain := Without(s.chain, k));
    match s.chain[k]
    case RunEvent =>
      RunMinds(c, s1);
      MindsHeeds(c, s, s1, Fire(k), RunWorkScheduler(c, s1));
    case LookupEvent(id) =>
      var s2 := Charge(c, s1, id, Take(c, s1.qps[id], s1.workType));
      ContinueSettles(c, s2, id);
      NobodyJoins(c, s2, id, Continue(c, s2, id).value);
      ContinueXoffs(c, s2, id);
  }

  lemma NobodyJoins(c: Config, s: Sched, id: nat, r: Sched)
    requires Sane(c) && id < |s.qps|
    requires var l := s.LaneOf(s.workType);
             Settles(c, s, id, r, l.bytes > 0 && l.ops > 0 && CanGoOn(c, s.qps[id], s.workType))
    ensures forall x: nat :: x in r.request.queue ==> x in s.request.queue
    ensures forall x: nat :: x in r.response.queue ==> x in s.response.queue
  {
    hide CanGoOn, ReadBlocked;
  }

  lemma ContinueXoffs(c: Config, s: Sched, id: nat)
    requires Sane(c) && id < |s.qps| && Continue(c, s, id).Some?
    ensures var r := Continue(c, s, id).value; r.requestXoff == s.requestXoff && r.globalXoff == s.globalXoff
  {
    hide HasCredits, CanSend, ReadBlocked, Drop, Xoff;
  }

  // The xoffs that Falcon set last.
  function Told(h: History): (bool, bool) {
    match h
    case Start => (false, false)
    case After(before, step) => if step.SetXoff? then (step.requests, step.all) else Told(before)
  }

  // In every run the scheduler's xoffs are those, and in every step, who joins a lane is
  // not under an xoff of its own, has work for it and the credits.
  lemma {:induction false} XoffsHeeded(c: Config, h: History)
    requires Sane(c) && Possible(c, h) && Reach(c, h).Some?
    ensures (Reach(c, h).value.requestXoff, Reach(c, h).value.globalXoff) == Told(h)
    ensures h.After? ==> Reach(c, h.before).Some? && Welcome(c, Reach(c, h.before).value, Reach(c, h).value)
  {
    match h
    case Start =>
    case After(before, step) =>
      hide Next, Enabled, Sound, Welcome;
      XoffsHeeded(c, before);
      RunsKeepSound(c, before);
      SoundChain(c, Reach(c, before).value);
      StepHeeds(c, Reach(c, before).value, step);
  }

  // ---- sleeping ------------------------------------------------------------------------------------

  // Transactions of this type may go out: no xoff, a QP listed, and the minimum of credits.
  predicate MaySend(c: Config, s: Sched, ty: WorkType)
    requires Sane(c)
  {
    match ty
    case Request =>
      !s.requestXoff && !s.globalXoff && s.request.queue != [] && Leq(MinimumRequestCredit(c.units), s.credits)
    case Response =>
      !s.globalXoff && s.response.queue != [] && Leq(MinimumResponseCredit(c.units), s.credits)
  }

  ghost predicate Awake(c: Config, s: Sched)
    requires Sane(c)
  {
    s.idle ==> !MaySend(c, s, Request) && !MaySend(c, s, Response)
  }

  lemma RunAwake(c: Config, s: Sched)
    requires Sane(c) && s.bucket.last <= s.now
    ensures Awake(c, RunWorkScheduler(c, s))
  {
    hide Leq, MinimumRequestCredit, MinimumResponseCredit, TB.Refill;
  }

  lemma AddAwake(c: Config, s: Sched, id: nat, ty: WorkType)
    requires Sane(c) && s.bucket.last <= s.now && id < |s.qps| && Awake(c, s)
    ensures Awake(c, AddQpToScheduleSet(c, s, id, ty))
  {
    hide HasCredits, RunWorkScheduler, Leq, MinimumRequestCredit, MinimumResponseCredit;
    var l := s.LaneOf(ty);
    RunAwake(c, s.WithLane(ty, l.(queue := l.queue + [id], members := l.members + {id})));
  }

  lemma NotifyAwake(c: Config, s: Sched, id: nat)
    requires Sane(c) && s.bucket.last <= s.now && id < |s.qps| && Awake(c, s)
    ensures Awake(c, Notify(c, s, id, Request)) && Awake(c, Notify(c, s, id, Response))
    ensures Awake(c, NotifyBoth(c, s, id)) && NotifyBoth(c, s, id).bucket.last <= NotifyBoth(c, s, id).now
  {
    hide HasCredits, RunWorkScheduler, Awake;
    AddAwake(c, s, id, Request);
    AddAwake(c, s, id, Response);
    AddAwake(c, Notify(c, s, id, Request), id, Response);
  }

  lemma StepAwake(c: Config, s: Sched, step: Step)
    requires Sane(c) && s.bucket.last <= s.now && OneChain(s) && Awake(c, s) && Enabled(c, s, step)
    requires Next(c, s, step).Some?
    ensures Awake(c, Next(c, s, step).value)
  {
    hide RunWorkScheduler, AddQpToScheduleSet, Notify, NotifyBoth, NewContext, SendTransaction, MaySend, Minus, Plus32,
         Leq, Admissible, AdmissibleRead;
    if ChangesContext(step) {
      var s1 := SetQp(s, step.id, NewContext(c, s.qps[step.id], step));
      assert Awake(c, s1) by { QpsAwake(c, s, s1); }
      NotifyAwake(c, s1, step.id);
      AddAwake(c, s1, step.id, Request);
    } else {
      match step
      case Tick(to) => QpsAwake(c, s, s.(now := to));
      case Fire(k) => FireAwake(c, s, k);
      case FireAdd(k) =>
        var s1 := s.(adds := Without(s.adds, k));
        QpsAwake(c, s, s1);
        AddAwake(c, s1, s.adds[k].qp, if s.adds[k].DelayedAdd? then s.adds[k].ty else s.workType);
      case SetXoff(requests, all) => RunAwake(c, s.(requestXoff := requests, globalXoff := all));
      case ReturnCredit(id, credit) =>
        var s1 := SetQp(s, id, s.qps[id].(usage := Minus(s.qps[id].usage, credit)));
        QpsAwake(c, s, s1);
        NotifyAwake(c, s1, id);
        var s2 := NotifyBoth(c, s1, id);
        RunAwake(c, s2.(credits := Plus32(s2.credits, credit)));
      case CreateQp(limit) => QpsAwake(c, s, Next(c, s, step).value);
    }
  }

  // What does not matter to whether transactions may go out.
  lemma QpsAwake(c: Config, s: Sched, s': Sched)
    requires Sane(c) && Awake(c, s) && s'.idle == s.idle && s'.request == s.request && s'.response == s.response
    requires s'.requestXoff == s.requestXoff && s'.globalXoff == s.globalXoff && s'.credits == s.credits
    ensures Awake(c, s')
  {
  }

  lemma FireAwake(c: Config, s: Sched, k: nat)
    requires Sane(c) && s.bucket.last <= s.now && OneChain(s) && k < |s.chain| && FireChain(c, s, k).Some?
    ensures Awake(c, FireChain(c, s, k).value)
  {
    hide RunWorkScheduler, MaySend, Take, Continue;
    var s1 := s.(chain := Without(s.chain, k));
    assert Without(s.chain, k) == [] && !s.idle;
    match s.chain[k]
    case RunEvent => RunAwake(c, s1);
    case LookupEvent(id) =>
      var s2 := Charge(c, s1, id, Take(c, s1.qps[id], s1.workType));
      ContinueFrame(c, s2, id);
  }

  // In every run, the scheduler is idle only if neither requests nor responses may go out.
  lemma {:induction false} IdleForAReason(c: Config, h: History)
    requires Sane(c) && Possible(c, h) && Reach(c, h).Some?
    ensures var s := Reach(c, h).value; s.idle ==> !MaySend(c, s, Request) && !MaySend(c, s, Response)
  {
    match h
    case Start =>
    case After(before, step) =>
      hide Next, Enabled, Sound, MaySend;
      IdleForAReason(c, before);
      RunsKeepSound(c, before);
      SoundChain(c, Reach(c, before).value);
      StepAwake(c, Reach(c, before).value, step);
  }

  // What a run of the scheduler decides: to run again, as a cycle has not passed or the
  // tokens do not cover a packet; to sleep; or to look up the head of a lane whose
  // transactions may go out, of the current type if those may.
  ghost predicate Decides(c: Config, s: Sched, r: Sched)
    requires Sane(c)
  {
    && |r.chain| <= 1 && (r.idle <==> r.chain == [])
    && (r.chain == [RunEvent] <==> s.now < s.lastRun + c.cycle || r.bucket.tokens < c.units.mtu + 28)
    && (r.chain != [] && r.chain[0].LookupEvent? ==>
          && MaySend(c, r, r.workType) && (MaySend(c, r, s.workType) ==> r.workType == s.workType)
          && r.LaneOf(r.workType).queue[0] == r.chain[0].qp)
  }

  lemma RunDecides(c: Config, s: Sched)
    requires Sane(c) && s.bucket.last <= s.now && s.chain == []
    ensures Decides(c, s, RunWorkScheduler(c, s))
  {
    hide Leq, MinimumRequestCredit, MinimumResponseCredit, TB.Refill;
    assert s.chain + [RunEvent] == [RunEvent];
    assert forall id :: (s.chain + [LookupEvent(id)])[0] == LookupEvent(id);
  }

  // After any run, the scheduler's own event decides so, and it sleeps only if neither type
  // may go out.
  lemma RunEventDecides(c: Config, h: History, k: nat)
    requires Sane(c) && Possible(c, After(h, Fire(k))) && Reach(c, h).Some? && Reach(c, After(h, Fire(k))).Some?
    requires k < |Reach(c, h).value.chain| && Reach(c, h).value.chain[k].RunEvent?
    ensures var s, r := Reach(c, h).value, Reach(c, After(h, Fire(k))).value;
            Decides(c, s, r) && (r.idle ==> !MaySend(c, r, Request) && !MaySend(c, r, Response))
  {
    hide Sound;
    IdleForAReason(c, After(h, Fire(k)));
    RunsKeepSound(c, h);
    var s := Reach(c, h).value;
    SoundChain(c, s);
    assert Without(s.chain, k) == [];
    RunDecides(c, s.(chain := []));
    hide RunWorkScheduler, MaySend, Reach;
    assert Reach(c, After(h, Fire(k))) == Some(RunWorkScheduler(c, s.(chain := []))) by { ReachFire(c, h, k); }
  }

  lemma ReachFire(c: Config, h: History, k: nat)
    requires Sane(c) && Reach(c, h).Some? && Reach(c, After(h, Fire(k))).Some?
    requires k < |Reach(c, h).value.chain| && Reach(c, h).value.chain[k].RunEvent?
    ensures var s := Reach(c, h).value;
            s.bucket.last <= s.now &&
            Reach(c, After(h, Fire(k))) == Some(RunWorkScheduler(c, s.(chain := Without(s.chain, k))))
  {
    hide RunWorkScheduler;
  }
}
