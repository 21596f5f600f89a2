// Bounded waiting in the work scheduler: how many transactions can go out before a
// QP waiting in the request lane reaches its head.
module BoundedWaiting {
  import opened Common
  import opened FalconCredits
  import opened Scheduler
  import TB = TokenBucket

  predicate IsSend(s: Sched, step: Step) {
    step.Fire? && step.k < |s.chain| && s.chain[step.k].LookupEvent?
  }

  // Ops the QP at the head of a lane may still send before its turn is over.
  function OpsLeft(l: Lane): int { if l.ops == 0 then OPS_PER_QUANTA else l.ops }

  // What a step other than a send leaves alone: the order of the request lane, the
  // turns in progress, and a turn of requests while requests can be sent.
  ghost predicate Gentle(c: Config, s: Sched, s': Sched)
    requires Sane(c)
  {
    && s.request.queue <= s'.request.queue
    && OpsLeft(s'.request) == OpsLeft(s.request) && OpsLeft(s'.response) == OpsLeft(s.response)
    && (CanSend(c, s, Request) ==> CanSend(c, s', Request) && (s'.workType.Response? ==> s.workType.Response?))
  }

  // The same for a step during which requests can be sent.
  predicate Calm(s: Sched, s': Sched) {
    && s.request.queue <= s'.request.queue
    && OpsLeft(s'.request) == OpsLeft(s.request) && OpsLeft(s'.response) == OpsLeft(s.response)
    && (s'.workType.Response? ==> s.workType.Response?)
  }

  lemma RunGentle(c: Config, s: Sched)
    requires Sane(c) && s.bucket.last <= s.now
    ensures Gentle(c, s, RunWorkScheduler(c, s))
    ensures CanSend(c, RunWorkScheduler(c, s), Request) ==> CanSend(c, s, Request)
  {
    hide Leq, Minimum;
  }

  lemma AddGentle(c: Config, s: Sched, id: nat, ty: WorkType)
    requires Sane(c) && s.bucket.last <= s.now && id < |s.qps|
    ensures Gentle(c, s, AddQpToScheduleSet(c, s, id, ty))
  {
    hide Leq, Minimum, RunWorkScheduler, HasCredits;
    var l := s.LaneOf(ty);
    var s1 := s.WithLane(ty, l.(queue := l.queue + [id], members := l.members + {id}));
    RunGentle(c, s1);
  }

  lemma GentleTrans(c: Config, s: Sched, s1: Sched, s2: Sched)
    requires Sane(c) && Gentle(c, s, s1) && Gentle(c, s1, s2)
    ensures Gentle(c, s, s2)
  {
    hide CanSend;
  }

  lemma NotifyGentle(c: Config, s: Sched, id: nat)
    requires Sane(c) && s.bucket.last <= s.now && id < |s.qps|
    ensures Gentle(c, s, Notify(c, s, id, Request)) && Gentle(c, s, Notify(c, s, id, Response))
    ensures Gentle(c, s, NotifyBoth(c, s, id))
  {
    AddGentle(c, s, id, Request);
    AddGentle(c, s, id, Response);
    var s1 := Notify(c, s, id, Request);
    AddGentle(c, s1, id, Response);
    GentleTrans(c, s, s1, Notify(c, s1, id, Response));
  }

  // Anything but a send is calm, provided requests can be sent before and after.
  lemma OtherStepsCalm(c: Config, s: Sched, step: Step)
    requires Sane(c) && s.bucket.last <= s.now && Enabled(c, s, step) && !IsSend(s, step)
    requires Next(c, s, step).Some?
    requires CanSend(c, s, Request) && CanSend(c, Next(c, s, step).value, Request)
    ensures Calm(s, Next(c, s, step).value)
  {
    var s' := Next(c, s, step).value;
    if ChangesContext(step) {
      InformGentle(c, s, step);
    } else {
      hide RunWorkScheduler, AddQpToScheduleSet, NotifyBoth;
      match step
      case Tick(to) =>
      case Fire(k) => RunGentle(c, s.(chain := Without(s.chain, k)));
      case FireAdd(k) =>
        var ev := s.adds[k];
        AddGentle(c, s.(adds := Without(s.adds, k)), ev.qp, if ev.DelayedAdd? then ev.ty else s.workType);
      case SetXoff(requests, all) => RunGentle(c, s.(requestXoff := requests, globalXoff := all));
      case ReturnCredit(id, credit) => ReturnCalm(c, s, id, credit);
      case CreateQp(limit) =>
    }
  }

  lemma InformGentle(c: Config, s: Sched, step: Step)
    requires Sane(c) && s.bucket.last <= s.now && Enabled(c, s, step) && ChangesContext(step)
    ensures Gentle(c, s, Next(c, s, step).value)
  {
    hide NewContext, AddQpToScheduleSet, Notify, NotifyBoth, Leq, Minimum;
    var s1 := SetQp(s, step.id, NewContext(c, s.qps[step.id], step));
    NotifyGentle(c, s1, step.id);
    AddGentle(c, s1, step.id, Request);
    assert Gentle(c, s, s1);
    GentleTrans(c, s, s1, Next(c, s, step).value);
  }

  lemma ReturnCalm(c: Config, s: Sched, id: nat, credit: Credit)
    requires Sane(c) && s.bucket.last <= s.now && id < |s.qps|
    requires CanSend(c, s, Request) && CanSend(c, DoReturn(c, s, id, credit), Request)
    ensures Calm(s, DoReturn(c, s, id, credit))
  {
    hide AddQpToScheduleSet, RunWorkScheduler, HasCredits, Minimum, Leq, Plus32, Minus;
    var s1 := SetQp(s, id, s.qps[id].(usage := Minus(s.qps[id].usage, credit)));
    assert Gentle(c, s, s1);
    NotifyGentle(c, s1, id);
    var s2 := NotifyBoth(c, s1, id);
    GentleTrans(c, s, s1, s2);
    RunGentle(c, s2.(credits := Plus32(s2.credits, credit)));
  }

  // A response in the outbound-read-depth branch: the QP ends its turn of requests, and
  // requests are next if they can be sent.
  predicate InBranch(c: Config, s: Sched, step: Step) {
    && IsSend(s, step) && s.chain[step.k].qp < |s.qps|
    && s.workType.Response? && ReadBlocked(c, s.qps[s.chain[step.k].qp])
  }

  lemma BranchProgress(c: Config, s: Sched, step: Step)
    requires Sane(c) && Inv(c, s, c.total) && Enabled(c, s, step) && DepthRespected(c, s, step) && InBranch(c, s, step)
    ensures Next(c, s, step).Some? && s.request.queue != []
    ensures var r := Next(c, s, step).value;
            && r.request == Drop(s.request, s.request.queue[0])
            && r.response == s.response.(bytes := 0, ops := 0)
            && r.workType == if CanSend(c, r, Request) then Request else Response
  {
    Keeps(c, s, step, c.total);
    assert step.k == 0 && |s.chain| == 1;
    var id := s.chain[0].qp;
    var s0 := s.(chain := Without(s.chain, 0));
    assert s.response.queue[0] == id && HasWork(s.qps[id], Response);
    TakeOk(c, s.qps[id], Response);
    var t := Take(c, s.qps[id], Response);
    hide Take, HasCredits, QpOk, BooksOk, LaneOk, CanSend, Leq, Continue;
    DepthBranchShape(c, Charge(c, s0, id, t), id);
  }

  // Any other send uses up one op of the turn, or ends the turn; the lane that did not
  // send is left alone.
  lemma SendProgress(c: Config, s: Sched, step: Step)
    requires Sane(c) && Inv(c, s, c.total) && Enabled(c, s, step) && IsSend(s, step) && !InBranch(c, s, step)
    ensures Next(c, s, step).Some?
    ensures var r := Next(c, s, step).value;
            var ty := s.workType;
            var l, l' := s.LaneOf(ty), r.LaneOf(ty);
            && r.LaneOf(Other(ty)) == s.LaneOf(Other(ty))
            && 1 <= l.ops <= OPS_PER_QUANTA && l.queue != []
            && ((l'.queue == l.queue && l'.ops == l.ops - 1 > 0 && r.workType == ty)
                || (l'.queue == l.queue[1..] && l'.ops == 0
                    && r.workType == (if CanSend(c, r, Other(ty)) then Other(ty) else ty)))
  {
    Keeps(c, s, step, c.total);
    assert step.k == 0 && |s.chain| == 1;
    var id := s.chain[0].qp;
    var s0 := s.(chain := Without(s.chain, 0));
    var l := s.LaneOf(s.workType);
    assert l.queue[0] == id && HasWork(s.qps[id], s.workType);
    assert QpOk(c, s0.qps[id]);
    hide Take, HasCredits, QpOk, BooksOk, LaneOk, CanSend, Leq, SendTransaction, Plus, Minus;
    SendShape(c, s0, id);
  }

  // ---- potentials ------------------------------------------------------------

  // An upper bound on the request transactions, and on all transactions, that go
  // out before the QP at position k of the request lane reaches the head.
  function RequestsAhead(s: Sched, k: nat): int { OPS_PER_QUANTA * (k - 1) + OpsLeft(s.request) }

  function SendsAhead(s: Sched, k: nat): int {
    2 * OPS_PER_QUANTA * (k - 1) + OpsLeft(s.request)
    + if s.workType.Response? then OpsLeft(s.response) else 0
  }

  function Count(b: bool): nat { if b then 1 else 0 }

  lemma StepProgress(c: Config, s: Sched, step: Step, x: nat, k: nat, k': nat)
    requires Sane(c) && Inv(c, s, c.total) && Enabled(c, s, step) && DepthRespected(c, s, step)
    requires Next(c, s, step).Some?
    requires CanSend(c, s, Request) && CanSend(c, Next(c, s, step).value, Request)
    requires 1 <= k < |s.request.queue| && s.request.queue[k] == x
    requires var q' := Next(c, s, step).value.request.queue; 1 <= k' < |q'| && q'[k'] == x
    ensures var s' := Next(c, s, step).value;
            && RequestsAhead(s', k') + Count(IsSend(s, step) && s.workType.Request?) <= RequestsAhead(s, k)
            && SendsAhead(s', k') + Count(IsSend(s, step)) <= SendsAhead(s, k)
  {
    hide CanSend, Next, Inv, Enabled, DepthRespected;
    InvBounds(c, s);
    Keeps(c, s, step, c.total);
    var s' := Next(c, s, step).value;
    InvBounds(c, s');
    if InBranch(c, s, step) {
      BranchProgress(c, s, step);
      assert s'.request.queue[k - 1] == x;
      assert k' == k - 1;
    } else if IsSend(s, step) {
      SendProgress(c, s, step);
      if s'.request.queue == s.request.queue[1..] {
        assert s'.request.queue[k - 1] == x;
        assert k' == k - 1;
      } else {
        assert k' == k;
      }
    } else {
      OtherStepsCalm(c, s, step);
      assert s'.request.queue[k] == x;
      assert k' == k;
    }
  }

  lemma InvBounds(c: Config, s: Sched)
    requires Sane(c) && Inv(c, s, c.total)
    ensures Distinct(s.request.queue) && s.bucket.last <= s.now
    ensures 1 <= OpsLeft(s.request) <= 8 && 1 <= OpsLeft(s.response) <= 8
  {
    hide Usage, QpOk, Leq, Plus, Minimum;
  }

  // ---- whole runs ------------------------------------------------------------

  // A run from any good state in which requests can be sent throughout and the QP x
  // waits in the request lane, never at its head. `at` is its position.
  datatype Wait = Wait(states: seq<Sched>, steps: seq<Step>, at: seq<nat>)

  ghost predicate Waits(c: Config, w: Wait, x: nat)
    requires Sane(c)
  {
    && |w.states| == |w.at| == |w.steps| + 1
    && Inv(c, w.states[0], c.total)
    && (forall i :: 0 <= i < |w.states| ==> CanSend(c, w.states[i], Request))
    && (forall i :: 0 <= i < |w.states| ==>
          1 <= w.at[i] < |w.states[i].request.queue| && w.states[i].request.queue[w.at[i]] == x)
    && (forall i :: 0 <= i < |w.steps| ==> IsStep(c, w.states[i], w.steps[i], w.states[i + 1]))
  }

  ghost predicate IsStep(c: Config, s: Sched, step: Step, s': Sched)
    requires Sane(c)
  {
    && s.bucket.last <= s.now && Enabled(c, s, step) && DepthRespected(c, s, step)
    && Next(c, s, step) == Some(s')
  }

  // Transactions sent in the first n steps: requests only, and all.
  function RequestsSent(w: Wait, n: nat): nat
    requires n <= |w.steps| && |w.states| == |w.steps| + 1
  {
    if n == 0 then 0
    else RequestsSent(w, n - 1)
         + Count(IsSend(w.states[n - 1], w.steps[n - 1]) && w.states[n - 1].workType.Request?)
  }

  function Sent(w: Wait, n: nat): nat
    requires n <= |w.steps| && |w.states| == |w.steps| + 1
  {
    if n == 0 then 0 else Sent(w, n - 1) + Count(IsSend(w.states[n - 1], w.steps[n - 1]))
  }

  lemma {:induction false} WaitProgress(c: Config, w: Wait, x: nat, n: nat)
    requires Sane(c) && Waits(c, w, x) && n <= |w.steps|
    ensures Inv(c, w.states[n], c.total)
    ensures RequestsAhead(w.states[n], w.at[n]) + RequestsSent(w, n) <= RequestsAhead(w.states[0], w.at[0])
    ensures SendsAhead(w.states[n], w.at[n]) + Sent(w, n) <= SendsAhead(w.states[0], w.at[0])
    decreases n
  {
    hide RequestsAhead, SendsAhead, Inv, CanSend, Next, Enabled, DepthRespected, IsSend;
    if n > 0 {
      WaitProgress(c, w, x, n - 1);
      assert IsStep(c, w.states[n - 1], w.steps[n - 1], w.states[n]);
      Keeps(c, w.states[n - 1], w.steps[n - 1], c.total);
      StepProgress(c, w.states[n - 1], w.steps[n - 1], x, w.at[n - 1], w.at[n]);
    }
  }

  // A QP at position k of the request lane is at the head before 8k request
  // transactions, and before 16k transactions of either kind, have gone out.
  lemma BoundedWait(c: Config, w: Wait, x: nat)
    requires Sane(c) && Waits(c, w, x)
    ensures RequestsSent(w, |w.steps|) < 8 * w.at[0]
    ensures Sent(w, |w.steps|) < 16 * w.at[0]
  {
    hide Inv, CanSend, IsStep, RequestsSent, Sent, OpsLeft;
    WaitProgress(c, w, x, |w.steps|);
    InvBounds(c, w.states[0]);
    InvBounds(c, w.states[|w.steps|]);
  }
}
