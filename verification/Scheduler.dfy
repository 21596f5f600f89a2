// The RDMA work scheduler: a round robin over queue pairs (QPs) with separate
// request and response lanes, byte and op quanta, a transmit token bucket, and
// per-QP and global Falcon credits. It drives itself through one chain of events.
module Scheduler {
  import opened Common
  import opened Sgl
  import opened FalconCredits
  import TB = TokenBucket

  datatype WorkType = Request | Response

  function Other(ty: WorkType): WorkType { if ty.Request? then Response else Request }

  const OPS_PER_QUANTA: int := 8

  datatype Config = Config(units: Units, quanta: nat, readDepth: nat, cycle: nat, opGap: nat,
                           total: Credit, perQp: Credit, bucket: TB.Config)

  // The MTU leaves room for the header of a read request.
  predicate Sane(c: Config) {
    SaneUnits(c.units) && TB.Sane(c.bucket) && READ_HEADER <= c.units.mtu + RDMA_HEADER
  }

  // What the scheduler uses of a QP's context. QPs are numbered from 0.
  datatype Qp = Qp(sendQueue: seq<Op>, inboundReads: seq<seq<nat>>, limit: Credit, usage: Credit,
                   requestXoff: bool, responseXoff: bool, nextScheduleTime: nat, outboundReads: nat)

  // The active work queues of one type, the redundant set of their QPs, and the
  // quanta left to the one at the head.
  datatype Lane = Lane(queue: seq<nat>, members: set<nat>, bytes: nat, ops: int)

  // Events the scheduler has scheduled for itself: the chain that runs it, and
  // additions of QPs. A QP put back after its turn is added under whatever work type
  // is current when the event fires; `left` records the lane it left, which the handler
  // does not look at.
  datatype ChainEvent = RunEvent | LookupEvent(qp: nat)
  datatype AddEvent = DelayedAdd(qp: nat, ty: WorkType) | AddBack(qp: nat, left: WorkType)

  datatype Sched = Sched(request: Lane, response: Lane, requestXoff: bool, globalXoff: bool, idle: bool,
                         workType: WorkType, credits: Credit, lastRun: nat, bucket: TB.Bucket, now: nat,
                         chain: seq<ChainEvent>, adds: seq<AddEvent>, qps: seq<Qp>)
  {
    function LaneOf(ty: WorkType): Lane { if ty.Request? then request else response }
    function WithLane(ty: WorkType, l: Lane): Sched {
      if ty.Request? then this.(request := l) else this.(response := l)
    }
  }

  // ---- pure tests -----------------------------------------------------------

  predicate HasWork(q: Qp, ty: WorkType) { if ty.Request? then q.sendQueue != [] else q.inboundReads != [] }

  function HeadCredit(c: Config, q: Qp, ty: WorkType): Credit
    requires Sane(c) && HasWork(q, ty)
  {
    if ty.Request? then RequestCredit(c.units, q.sendQueue[0]) else ResponseCredit(c.units, q.inboundReads[0])
  }

  predicate HasCredits(c: Config, q: Qp, ty: WorkType)
    requires Sane(c)
  {
    HasWork(q, ty) && Leq(Plus(q.usage, HeadCredit(c, q, ty)), q.limit)
  }

  predicate Xoff(q: Qp, ty: WorkType) { if ty.Request? then q.requestXoff else q.responseXoff }

  function Minimum(c: Config, ty: WorkType): Credit
    requires Sane(c)
  {
    if ty.Request? then MinimumRequestCredit(c.units) else MinimumResponseCredit(c.units)
  }

  predicate CanSend(c: Config, s: Sched, ty: WorkType)
    requires Sane(c)
  {
    && !(ty.Request? && s.requestXoff) && !s.globalXoff
    && s.LaneOf(ty).queue != []
    && Leq(Minimum(c, ty), s.credits)
  }

  // ---- RunWorkScheduler and AddQpToScheduleSet --------------------------------

  function RunWorkScheduler(c: Config, s: Sched): (r: Sched)
    requires Sane(c) && s.bucket.last <= s.now
    ensures r.bucket.last <= r.now == s.now && r.qps == s.qps
  {
    TB.RefillTime(c.bucket, s.bucket, s.now);
    if s.lastRun + c.cycle > s.now then s.(idle := false, chain := s.chain + [RunEvent])
    else
      var s1 := s.(idle := false, bucket := TB.Refill(c.bucket, s.bucket, s.now));
      if s1.bucket.tokens < c.units.mtu + RDMA_HEADER then s1.(chain := s1.chain + [RunEvent])
      else if !CanSend(c, s1, Request) && !CanSend(c, s1, Response) then s1.(idle := true)
      else
        var ty := if CanSend(c, s1, s1.workType) then s1.workType else Other(s1.workType);
        var l := s1.LaneOf(ty);
        var l1 := if l.bytes == 0 && l.ops == 0 then l.(bytes := c.quanta, ops := OPS_PER_QUANTA) else l;
        s1.WithLane(ty, l1).(workType := ty, chain := s1.chain + [LookupEvent(l.queue[0])])
  }

  function AddQpToScheduleSet(c: Config, s: Sched, id: nat, ty: WorkType): (r: Sched)
    requires Sane(c) && s.bucket.last <= s.now && id < |s.qps|
    ensures r.bucket.last <= r.now == s.now && r.qps == s.qps
  {
    var l := s.LaneOf(ty);
    if s.qps[id].nextScheduleTime > s.now then s.(adds := s.adds + [DelayedAdd(id, ty)])
    else if !HasCredits(c, s.qps[id], ty) || Xoff(s.qps[id], ty) || id in l.members then s
    else
      var s1 := s.WithLane(ty, l.(queue := l.queue + [id], members := l.members + {id}));
      if s1.idle then RunWorkScheduler(c, s1) else s1
  }

  // ---- SendTransaction -------------------------------------------------------

  // A packet has at most this many segments.
  const MAX_SEGMENTS: nat := 32

  // One transaction taken from a QP: the QP afterwards, the credits it costs, the
  // bytes that go out and the segments they come from.
  datatype Taken = Taken(qp: Qp, credit: Credit, wire: nat, segments: nat)

  function TakeRequest(c: Config, q: Qp): (r: Taken)
    requires Sane(c) && q.sendQueue != []
  {
    var op := q.sendQueue[0];
    var piece := Cut(op.sgl, c.units.mtu);
    var isEnd := op.inlineLength != 0 || piece.rest == [];
    var left := if isEnd then q.sendQueue[1..] else [op.(sgl := piece.rest)] + q.sendQueue[1..];
    var wire := if op.opcode.Read? then READ_HEADER
                else HeaderOf(op.opcode) + if op.inlineLength != 0 then op.inlineLength else Total(piece.packet);
    Taken(q.(sendQueue := left, outboundReads := q.outboundReads + if op.opcode.Read? then 1 else 0),
          RequestCredit(c.units, op), wire, if op.inlineLength != 0 then 0 else |piece.packet|)
  }

  function TakeResponse(c: Config, q: Qp): (r: Taken)
    requires Sane(c) && q.inboundReads != []
  {
    Taken(q.(inboundReads := q.inboundReads[1..]), ResponseCredit(c.units, q.inboundReads[0]),
          RESPONSE_HEADER + Total(q.inboundReads[0]), |q.inboundReads[0]|)
  }

  function Take(c: Config, q: Qp, ty: WorkType): (r: Taken)
    requires Sane(c) && HasWork(q, ty)
  {
    if ty.Request? then TakeRequest(c, q) else TakeResponse(c, q)
  }

  // The QP is over its outbound read depth and its next request is a read.
  predicate ReadBlocked(c: Config, q: Qp) {
    q.outboundReads >= c.readDepth && q.sendQueue != [] && q.sendQueue[0].opcode.Read?
  }

  function UpdateWorkType(c: Config, s: Sched): Sched
    requires Sane(c)
  {
    if CanSend(c, s, Other(s.workType)) then s.(workType := Other(s.workType)) else s
  }

  function SpendQuanta(s: Sched, size: nat): Sched {
    var l := s.LaneOf(s.workType);
    s.WithLane(s.workType, l.(bytes := Over(l.bytes, size), ops := l.ops - 1))
  }

  // The bookkeeping every send does: QP usage and pacing, global credits, quanta
  // and tokens.
  function Charge(c: Config, s: Sched, id: nat, t: Taken): Sched
    requires id < |s.qps| && t.wire <= s.bucket.tokens
  {
    var q := t.qp.(usage := Plus(t.qp.usage, t.credit),
                   nextScheduleTime := (if t.qp.nextScheduleTime <= s.now then s.now else t.qp.nextScheduleTime)
                                       + c.opGap);
    SpendQuanta(s, t.wire + OUTER_HEADER)
     .(credits := Minus(s.credits, t.credit), lastRun := s.now, qps := s.qps[id := q],
       bucket := s.bucket.(tokens := s.bucket.tokens - t.wire))
  }

  function Drop(l: Lane, id: nat): Lane
    requires l.queue != []
  {
    l.(queue := l.queue[1..], members := l.members - {id})
  }

  function ResetQuanta(s: Sched): Sched {
    s.WithLane(s.workType, s.LaneOf(s.workType).(bytes := 0, ops := 0))
  }

  // The QP at the head of the current lane leaves it, perhaps to come back.
  function EndTurn(c: Config, s: Sched, id: nat, comeBack: bool): Sched
    requires Sane(c) && s.LaneOf(s.workType).queue != []
  {
    var s1 := s.WithLane(s.workType, Drop(s.LaneOf(s.workType), id));
    var s2 := UpdateWorkType(c, ResetQuanta(s1.(adds := if comeBack then s1.adds + [AddBack(id, s.workType)] else s1.adds)));
    s2.(chain := s2.chain + [RunEvent])
  }

  // After the bookkeeping: the next event, and whether the QP keeps the head. None
  // stands for popping an empty deque.
  function Continue(c: Config, s: Sched, id: nat): (r: Option<Sched>)
    requires Sane(c) && id < |s.qps|
  {
    var q := s.qps[id];
    var l := s.LaneOf(s.workType);
    var canGoOn := HasCredits(c, q, s.workType) && !Xoff(q, s.workType);
    if ReadBlocked(c, q) then
      if s.request.queue == [] then None
      else Some(UpdateWorkType(c, ResetQuanta(s.(request := Drop(s.request, id), chain := s.chain + [RunEvent]))))
    else if l.bytes > 0 && l.ops > 0 && canGoOn then Some(s.(chain := s.chain + [RunEvent]))
    else if l.queue == [] then None
    else Some(EndTurn(c, s, id, canGoOn))
  }

  function SendTransaction(c: Config, s: Sched, id: nat): (r: Option<Sched>)
    requires Sane(c)
  {
    if id >= |s.qps| || !HasWork(s.qps[id], s.workType) then None
    else
      var t := Take(c, s.qps[id], s.workType);
      if t.segments > MAX_SEGMENTS || t.wire > s.bucket.tokens then None else Continue(c, Charge(c, s, id, t), id)
  }

  // ---- everything that can happen --------------------------------------------

  datatype Step =
    | Tick(to: nat)
    | Fire(k: nat)
    | FireAdd(k: nat)
    | PostOp(id: nat, op: Op)
    | InboundRead(id: nat, sgl: seq<nat>)
    | SetXoff(requests: bool, all: bool)
    | QpXoff(id: nat, requests: bool, responses: bool)
    | SetLimit(id: nat, limit: Credit)
    | ReturnCredit(id: nat, credit: Credit)
    | ReadDone(id: nat)
    | CreateQp(limit: Credit)

  function Notify(c: Config, s: Sched, id: nat, ty: WorkType): Sched
    requires Sane(c) && s.bucket.last <= s.now && id < |s.qps|
  {
    if !Xoff(s.qps[id], ty) && HasCredits(c, s.qps[id], ty) then AddQpToScheduleSet(c, s, id, ty) else s
  }

  // Notifies the scheduler of both kinds of work of a QP.
  function NotifyBoth(c: Config, s: Sched, id: nat): Sched
    requires Sane(c) && s.bucket.last <= s.now && id < |s.qps|
  {
    Notify(c, Notify(c, s, id, Request), id, Response)
  }

  function RunIfIdle(c: Config, s: Sched): Sched
    requires Sane(c) && s.bucket.last <= s.now
  {
    if s.idle then RunWorkScheduler(c, s) else s
  }

  function SetQp(s: Sched, id: nat, q: Qp): Sched
    requires id < |s.qps|
  {
    s.(qps := s.qps[id := q])
  }

  // What the source demands of an operation: inline data or a list but not both,
  // inline data that fits a packet, and no packet with too many segments.
  predicate Admissible(c: Config, op: Op)
    requires Sane(c)
  {
    && (op.inlineLength != 0 ==> op.sgl == [])
    && op.inlineLength <= c.units.mtu
    && Segmented(op.sgl, c.units.mtu, MAX_SEGMENTS)
  }

  // An inbound read request is one such packet of the peer.
  predicate AdmissibleRead(c: Config, sgl: seq<nat>) { |sgl| <= MAX_SEGMENTS && Total(sgl) <= c.units.mtu }

  predicate Enabled(c: Config, s: Sched, step: Step)
    requires Sane(c)
  {
    match step
    case Tick(to) => s.now <= to
    case Fire(k) => k < |s.chain|
    case FireAdd(k) => k < |s.adds|
    case PostOp(id, op) => id < |s.qps| && Admissible(c, op)
    case InboundRead(id, sgl) => id < |s.qps| && AdmissibleRead(c, sgl)
    case SetXoff(_, _) => true
    case QpXoff(id, _, _) => id < |s.qps|
    case SetLimit(id, _) => id < |s.qps|
    case ReturnCredit(id, credit) => id < |s.qps| && Leq(credit, s.qps[id].usage)
    case ReadDone(id) => id < |s.qps| && s.qps[id].outboundReads > 0
    case CreateQp(_) => true
  }

  function FireChain(c: Config, s: Sched, k: nat): Option<Sched>
    requires Sane(c) && s.bucket.last <= s.now && k < |s.chain|
  {
    var s1 := s.(chain := Without(s.chain, k));
    match s.chain[k]
    case RunEvent => Some(RunWorkScheduler(c, s1))
    case LookupEvent(id) => SendTransaction(c, s1, id)
  }

  function DoFireAdd(c: Config, s: Sched, k: nat): Option<Sched>
    requires Sane(c) && s.bucket.last <= s.now && k < |s.adds|
  {
    var s1 := s.(adds := Without(s.adds, k));
    var ev := s.adds[k];
    if ev.qp >= |s.qps| then None
    else Some(AddQpToScheduleSet(c, s1, ev.qp, if ev.DelayedAdd? then ev.ty else s.workType))
  }

  // Steps that change a QP's context, and what they make of it.
  predicate ChangesContext(step: Step) {
    step.PostOp? || step.InboundRead? || step.QpXoff? || step.SetLimit? || step.ReadDone?
  }

  function NewContext(c: Config, q: Qp, step: Step): Qp
    requires ChangesContext(step) && (step.ReadDone? ==> q.outboundReads > 0)
  {
    match step
    case PostOp(_, op) => q.(sendQueue := q.sendQueue + [op])
    case InboundRead(_, sgl) => q.(inboundReads := q.inboundReads + [sgl])
    case QpXoff(_, requests, responses) => q.(requestXoff := requests, responseXoff := responses)
    case SetLimit(_, limit) => q.(limit := ClampLimit(limit, c.perQp))
    case ReadDone(_) => q.(outboundReads := q.outboundReads - 1)
  }

  // The notification that follows; `was` is the context before.
  function Inform(c: Config, s: Sched, step: Step, was: Qp): Sched
    requires Sane(c) && s.bucket.last <= s.now && ChangesContext(step) && step.id < |s.qps|
  {
    var q := s.qps[step.id];
    match step
    case PostOp(id, _) => if |q.sendQueue| == 1 then Notify(c, s, id, Request) else s
    case InboundRead(id, _) => if |q.inboundReads| == 1 then Notify(c, s, id, Response) else s
    case QpXoff(id, _, _) => NotifyBoth(c, s, id)
    case SetLimit(id, _) => if Leq(q.limit, was.limit) then s else NotifyBoth(c, s, id)
    case ReadDone(id) =>
      if q.outboundReads < c.readDepth && q.sendQueue != [] && q.sendQueue[0].opcode.Read?
      then AddQpToScheduleSet(c, s, id, Request) else s
  }

  function DoReturn(c: Config, s: Sched, id: nat, credit: Credit): Sched
    requires Sane(c) && s.bucket.last <= s.now && id < |s.qps|
  {
    var s1 := NotifyBoth(c, SetQp(s, id, s.qps[id].(usage := Minus(s.qps[id].usage, credit))), id);
    RunIfIdle(c, s1.(credits := Plus32(s1.credits, credit)))
  }

  function Next(c: Config, s: Sched, step: Step): (r: Option<Sched>)
    requires Sane(c) && s.bucket.last <= s.now && Enabled(c, s, step)
  {
    match step
    case Tick(to) => Some(s.(now := to))
    case Fire(k) => FireChain(c, s, k)
    case FireAdd(k) => DoFireAdd(c, s, k)
    case SetXoff(requests, all) => Some(RunIfIdle(c, s.(requestXoff := requests, globalXoff := all)))
    case ReturnCredit(id, credit) => Some(DoReturn(c, s, id, credit))
    case CreateQp(limit) => Some(s.(qps := s.qps + [Qp([], [], limit, Zero, false, false, 0, 0)]))
    case _ =>
      var q := s.qps[step.id];
      Some(Inform(c, SetQp(s, step.id, NewContext(c, q, step)), step, q))
  }

  const EmptyLane := Lane([], {}, 0, 0)

  function Boot(c: Config): Sched {
    Sched(EmptyLane, EmptyLane, false, false, true, Request, c.total, 0, TB.Full(c.bucket), 0, [], [], [])
  }

  // ---- the invariant ---------------------------------------------------------

  predicate Distinct(q: seq<nat>) { forall j, k :: 0 <= j < k < |q| ==> q[j] != q[k] }

  // A lane lists each QP once, its set holds exactly those QPs, and each has work.
  ghost predicate LaneOk(l: Lane, ty: WorkType, qps: seq<Qp>) {
    && Distinct(l.queue)
    && (forall x: nat :: x in l.members <==> x in l.queue)
    && (forall k :: 0 <= k < |l.queue| ==> l.queue[k] < |qps| && HasWork(qps[l.queue[k]], ty))
  }

  predicate QuantaOk(l: Lane) { 0 <= l.ops <= OPS_PER_QUANTA && (l.bytes == 0 <==> l.ops == 0) }

  // A lookup is out for the QP at the head of the current lane, which has an op
  // left in its quanta; tokens for one transaction are in hand.
  ghost predicate Ready(c: Config, s: Sched, id: nat)
    requires Sane(c)
  {
    var l := s.LaneOf(s.workType);
    && l.queue != [] && l.queue[0] == id
    && 1 <= l.ops <= OPS_PER_QUANTA
    && QuantaOk(s.LaneOf(Other(s.workType)))
    && c.units.mtu + RDMA_HEADER <= s.bucket.tokens
  }

  // One chain: idle means no event that would run the scheduler is pending, and
  // otherwise there is exactly one.
  ghost predicate ChainOk(c: Config, s: Sched)
    requires Sane(c)
  {
    if s.idle then s.chain == [] && QuantaOk(s.request) && QuantaOk(s.response)
    else
      && |s.chain| == 1
      && match s.chain[0]
         case RunEvent => QuantaOk(s.request) && QuantaOk(s.response)
         case LookupEvent(id) => Ready(c, s, id)
  }

  predicate QpOk(c: Config, q: Qp)
    requires Sane(c)
  {
    && (forall k :: 0 <= k < |q.sendQueue| ==> Admissible(c, q.sendQueue[k]))
    && (forall k :: 0 <= k < |q.inboundReads| ==> AdmissibleRead(c, q.inboundReads[k]))
  }

  function Usage(qps: seq<Qp>): Credit {
    if qps == [] then Zero else Plus(Usage(qps[..|qps| - 1]), qps[|qps| - 1].usage)
  }

  // QPs hold admissible work, and credits are conserved on their 32-bit counters.
  ghost predicate BooksOk(c: Config, s: Sched, total: Credit)
    requires Sane(c)
  {
    && s.bucket.last <= s.now
    && (forall k :: 0 <= k < |s.qps| ==> QpOk(c, s.qps[k]))
    && (forall k :: 0 <= k < |s.adds| ==> s.adds[k].qp < |s.qps|)
    && Balanced(s.credits, Usage(s.qps), total)
  }

  ghost predicate Inv(c: Config, s: Sched, total: Credit)
    requires Sane(c)
  {
    && BooksOk(c, s, total)
    && LaneOk(s.request, Request, s.qps) && LaneOk(s.response, Response, s.qps)
    && ChainOk(c, s)
  }

  lemma {:induction false} UsageUpdate(qps: seq<Qp>, id: nat, q: Qp)
    requires id < |qps|
    ensures Plus(Usage(qps[id := q]), qps[id].usage) == Plus(Usage(qps), q.usage)
    decreases |qps|
  {
    hide Plus;
    var n := |qps| - 1;
    if id == n {
      assert qps[id := q][..n] == qps[..n];
      PlusSwap(Usage(qps[..n]), q.usage, qps[n].usage);
    } else {
      assert qps[id := q][..n] == qps[..n][id := q];
      UsageUpdate(qps[..n], id, q);
      PlusSwap(Usage(qps[..n][id := q]), qps[n].usage, qps[id].usage);
      PlusSwap(Usage(qps[..n]), qps[n].usage, q.usage);
    }
  }

  lemma PlusSwap(a: Credit, x: Credit, y: Credit)
    ensures Plus(Plus(a, x), y) == Plus(Plus(a, y), x)
  {
  }

  // Quanta do not matter to what a lane lists.
  lemma LaneSame(l: Lane, l': Lane, ty: WorkType, qps: seq<Qp>)
    requires LaneOk(l, ty, qps) && l'.queue == l.queue && l'.members == l.members
    ensures LaneOk(l', ty, qps)
  {
  }

  lemma LaneJoin(l: Lane, id: nat, ty: WorkType, qps: seq<Qp>)
    requires LaneOk(l, ty, qps) && id !in l.members && id < |qps| && HasWork(qps[id], ty)
    ensures LaneOk(l.(queue := l.queue + [id], members := l.members + {id}), ty, qps)
  {
    var q := l.queue + [id];
    assert forall x: nat :: x in q <==> x in l.queue || x == id;
  }

  lemma RunKeeps(c: Config, s: Sched, total: Credit)
    requires Sane(c) && Inv(c, s.(idle := true), total) && s.chain == []
    ensures Inv(c, RunWorkScheduler(c, s), total)
  {
    hide LaneOk, QpOk, Usage, Leq, Plus, Balanced, Minimum, TB.Refill;
    var r := RunWorkScheduler(c, s);
    LaneSame(s.request, r.request, Request, s.qps);
    LaneSame(s.response, r.response, Response, s.qps);
  }

  lemma AddKeeps(c: Config, s: Sched, id: nat, ty: WorkType, total: Credit)
    requires Sane(c) && Inv(c, s, total) && id < |s.qps|
    ensures Inv(c, AddQpToScheduleSet(c, s, id, ty), total)
  {
    hide LaneOk, QpOk, Usage, Leq, Plus, Balanced, Minimum, RunWorkScheduler;
    var l := s.LaneOf(ty);
    if s.qps[id].nextScheduleTime > s.now || !HasCredits(c, s.qps[id], ty) || Xoff(s.qps[id], ty) || id in l.members {
    } else {
      LaneJoin(l, id, ty, s.qps);
      var s1 := s.WithLane(ty, l.(queue := l.queue + [id], members := l.members + {id}));
      if s1.idle {
        RunKeeps(c, s1, total);
      }
    }
  }

  lemma LaneAfterSend(l: Lane, id: nat, ty: WorkType, qps: seq<Qp>, q: Qp)
    requires LaneOk(l, ty, qps) && l.queue != [] && l.queue[0] == id
    ensures HasWork(q, ty) ==> LaneOk(l, ty, qps[id := q])
    ensures LaneOk(Drop(l, id), ty, qps[id := q])
  {
    var d := Drop(l, id);
    assert forall x: nat :: x in l.queue <==> x == id || x in d.queue;
    assert forall k :: 0 <= k < |d.queue| ==> d.queue[k] == l.queue[k + 1] != id;
  }

  lemma LaneElsewhere(l: Lane, id: nat, ty: WorkType, qps: seq<Qp>, q: Qp)
    requires LaneOk(l, ty, qps) && id < |qps| && (HasWork(qps[id], ty) ==> HasWork(q, ty))
    ensures LaneOk(l, ty, qps[id := q])
  {
  }

  // A transaction puts no more than an MTU and the RDMA header on the wire, has not
  // too many segments, and leaves the QP in order.
  lemma TakeOk(c: Config, q: Qp, ty: WorkType)
    requires Sane(c) && QpOk(c, q) && HasWork(q, ty)
    ensures var t := Take(c, q, ty);
            && QpOk(c, t.qp)
            && t.wire <= c.units.mtu + RDMA_HEADER && t.segments <= MAX_SEGMENTS
            && HasWork(t.qp, Other(ty)) == HasWork(q, Other(ty))
            && t.qp.usage == q.usage && t.qp.limit == q.limit
            && (ty.Response? ==> t.qp.sendQueue == q.sendQueue && t.qp.outboundReads == q.outboundReads)
  {
    hide Segmented;
    if ty.Request? {
      TakeRequestOk(c, q);
    }
  }

  lemma TakeRequestOk(c: Config, q: Qp)
    requires Sane(c) && QpOk(c, q) && q.sendQueue != []
    ensures var t := TakeRequest(c, q);
            && QpOk(c, t.qp)
            && t.wire <= c.units.mtu + RDMA_HEADER && t.segments <= MAX_SEGMENTS
  {
    hide RequestCredit;
    var op := q.sendQueue[0];
    assert Admissible(c, op);
    var piece := Cut(op.sgl, c.units.mtu);
    CutTotals(op.sgl, c.units.mtu);
    var op1 := op.(sgl := piece.rest);
    assert piece.rest != [] ==> Segmented(piece.rest, c.units.mtu, MAX_SEGMENTS);
    hide Cut, Total, Segmented;
    assert op.inlineLength == 0 && piece.rest != [] ==> Admissible(c, op1);
    var t := TakeRequest(c, q);
    forall k | 0 <= k < |t.qp.sendQueue|
      ensures Admissible(c, t.qp.sendQueue[k])
    {
      assert (piece.rest != [] && t.qp.sendQueue[k] == op1) || t.qp.sendQueue[k] in q.sendQueue[1..];
    }
  }

  // Taking a transaction's credit from the pool and adding it to the QP conserves
  // the total.
  lemma ChargeConserves(c: Config, s: Sched, id: nat, t: Taken, total: Credit)
    requires Sane(c) && id < |s.qps| && t.wire <= s.bucket.tokens
    requires BooksOk(c, s, total) && QpOk(c, t.qp) && t.qp.usage == s.qps[id].usage
    ensures BooksOk(c, Charge(c, s, id, t), total)
  {
    hide QpOk, Usage, Balanced, Minus;
    var s1 := Charge(c, s, id, t);
    QpOkUpTo(c, t.qp, s1.qps[id]);
    UsageUpdate(s.qps, id, s1.qps[id]);
    Spend(s.credits, Usage(s.qps), total, t.credit);
    assert Usage(s1.qps) == Plus(Usage(s.qps), t.credit);
  }

  lemma QpOkUpTo(c: Config, q: Qp, q': Qp)
    requires Sane(c) && QpOk(c, q) && q'.sendQueue == q.sendQueue && q'.inboundReads == q.inboundReads
    ensures QpOk(c, q')
  {
  }

  // Continue in outline: one run event, and the QP that just sent either keeps the
  // head of its lane, with credits and quanta left, or leaves it with both quanta
  // reset and perhaps an event to come back.
  ghost predicate Continues(c: Config, s: Sched, id: nat, r: Sched)
    requires Sane(c) && id < |s.qps| && s.LaneOf(s.workType).queue != []
  {
    var l, l' := s.LaneOf(s.workType), r.LaneOf(s.workType);
    && r.qps == s.qps && r.credits == s.credits && r.now == s.now && r.bucket == s.bucket && r.idle == s.idle
    && r.requestXoff == s.requestXoff && r.globalXoff == s.globalXoff
    && r.chain == s.chain + [RunEvent]
    && s.adds <= r.adds <= s.adds + [AddBack(id, s.workType)]
    && r.LaneOf(Other(s.workType)) == s.LaneOf(Other(s.workType))
    && if l' == l then HasCredits(c, s.qps[id], s.workType) && l.bytes > 0 && l.ops > 0 && r.workType == s.workType
       else
         && l' == Drop(l, id).(bytes := 0, ops := 0)
         && (r.adds != s.adds <==>
               HasCredits(c, s.qps[id], s.workType) && !Xoff(s.qps[id], s.workType) && !ReadBlocked(c, s.qps[id]))
         && r.workType == (if CanSend(c, r, Other(s.workType)) then Other(s.workType) else s.workType)
  }

  lemma EndTurnShape(c: Config, s: Sched, id: nat, comeBack: bool)
    requires Sane(c) && id < |s.qps| && s.LaneOf(s.workType).queue != [] && !ReadBlocked(c, s.qps[id])
    requires comeBack <==> HasCredits(c, s.qps[id], s.workType) && !Xoff(s.qps[id], s.workType)
    ensures Continues(c, s, id, EndTurn(c, s, id, comeBack))
  {
    hide HasCredits, Leq, Minimum, ReadBlocked;
    assert |Drop(s.LaneOf(s.workType), id).queue| < |s.LaneOf(s.workType).queue|;
  }

  lemma ContinueShape(c: Config, s: Sched, id: nat)
    requires Sane(c) && id < |s.qps| && s.LaneOf(s.workType).queue != []
    requires s.workType.Response? ==> !ReadBlocked(c, s.qps[id])
    ensures Continue(c, s, id).Some? && Continues(c, s, id, Continue(c, s, id).value)
  {
    hide HasCredits, Leq, Minimum, EndTurn;
    var l := s.LaneOf(s.workType);
    var canGoOn := HasCredits(c, s.qps[id], s.workType) && !Xoff(s.qps[id], s.workType);
    assert |Drop(l, id).queue| == |l.queue| - 1;
    if !ReadBlocked(c, s.qps[id]) {
      EndTurnShape(c, s, id, canGoOn);
    }
  }

  // What a send does outside the branch of responses over the read depth.
  ghost predicate Sends(c: Config, s: Sched, id: nat, r: Sched)
    requires Sane(c) && id < |s.qps| && HasWork(s.qps[id], s.workType)
  {
    var t := Take(c, s.qps[id], s.workType);
    && t.wire <= s.bucket.tokens
    && var s1 := Charge(c, s, id, t);
    && s1.LaneOf(s.workType).queue == s.LaneOf(s.workType).queue != [] && Continues(c, s1, id, r)
  }

  lemma SendShape(c: Config, s: Sched, id: nat)
    requires Sane(c) && id < |s.qps| && QpOk(c, s.qps[id]) && HasWork(s.qps[id], s.workType)
    requires s.LaneOf(s.workType).queue != [] && c.units.mtu + RDMA_HEADER <= s.bucket.tokens
    requires s.workType.Response? ==> !ReadBlocked(c, s.qps[id])
    ensures var r := SendTransaction(c, s, id); r.Some? && Sends(c, s, id, r.value)
  {
    TakeOk(c, s.qps[id], s.workType);
    hide Take, HasCredits, QpOk, Continue, Continues, Plus, Minus;
    ContinueShape(c, Charge(c, s, id, Take(c, s.qps[id], s.workType)), id);
  }

  lemma ContinueKeeps(c: Config, s: Sched, id: nat, total: Credit)
    requires Sane(c) && BooksOk(c, s, total) && id < |s.qps| && s.chain == [] && !s.idle
    requires s.workType.Response? ==> !ReadBlocked(c, s.qps[id])
    requires var l := s.LaneOf(s.workType);
             && l.queue != [] && 0 <= l.ops < OPS_PER_QUANTA
             && LaneOk(Drop(l, id), s.workType, s.qps)
             && (HasWork(s.qps[id], s.workType) ==> LaneOk(l, s.workType, s.qps))
    requires LaneOk(s.LaneOf(Other(s.workType)), Other(s.workType), s.qps)
    requires QuantaOk(s.LaneOf(Other(s.workType)))
    ensures var r := Continue(c, s, id); r.Some? && Inv(c, r.value, total)
  {
    ContinueShape(c, s, id);
    hide LaneOk, Usage, Leq, Plus, QpOk, CanSend, Continue, ReadBlocked;
    var r := Continue(c, s, id).value;
    var l, l' := s.LaneOf(s.workType), r.LaneOf(s.workType);
    if l' != l {
      LaneSame(Drop(l, id), l', s.workType, s.qps);
    }
  }

  lemma UsualSendKeeps(c: Config, s: Sched, id: nat, total: Credit)
    requires Sane(c) && BooksOk(c, s, total) && s.chain == [] && !s.idle
    requires LaneOk(s.request, Request, s.qps) && LaneOk(s.response, Response, s.qps)
    requires Ready(c, s, id)
    requires s.workType.Response? ==> !ReadBlocked(c, s.qps[id])
    ensures var r := SendTransaction(c, s, id); r.Some? && Inv(c, r.value, total)
  {
    var ty := s.workType;
    var l := s.LaneOf(ty);
    assert HasWork(s.qps[id], ty);
    TakeOk(c, s.qps[id], ty);
    var t := Take(c, s.qps[id], ty);
    hide QpOk, Usage, LaneOk, Take, Plus, BooksOk;
    ChargeConserves(c, s, id, t, total);
    var s1 := Charge(c, s, id, t);
    LaneAfterSend(l, id, ty, s.qps, s1.qps[id]);
    LaneElsewhere(s.LaneOf(Other(ty)), id, Other(ty), s.qps, s1.qps[id]);
    var l1 := s1.LaneOf(ty);
    LaneSame(Drop(l, id), Drop(l1, id), ty, s1.qps);
    if HasWork(s1.qps[id], ty) {
      LaneSame(l, l1, ty, s1.qps);
    }
    ContinueKeeps(c, s1, id, total);
  }

  // The outbound-read-depth branch pops the request lane whatever the current lane is,
  // and leaves the QP in the response lane whatever work it has left. So a response that
  // takes it does no harm only if the same QP heads the request lane and has another
  // inbound read to answer.
  predicate DepthOk(c: Config, s: Sched, id: nat)
    requires id < |s.qps|
  {
    s.workType.Response? && ReadBlocked(c, s.qps[id]) ==>
      s.request.queue != [] && s.request.queue[0] == id && |s.qps[id].inboundReads| >= 2
  }

  // What the branch does after a response.
  lemma DepthBranchShape(c: Config, s: Sched, id: nat)
    requires Sane(c) && id < |s.qps| && s.workType.Response? && ReadBlocked(c, s.qps[id])
    ensures var r := Continue(c, s, id);
            && (r.None? <==> s.request.queue == [])
            && (r.Some? ==>
                  && r.value == s.(request := Drop(s.request, id), response := s.response.(bytes := 0, ops := 0),
                                   chain := s.chain + [RunEvent], workType := r.value.workType)
                  && r.value.workType == if CanSend(c, r.value, Request) then Request else Response)
  {
    hide HasCredits, Leq, Minimum;
  }

  // The request lane after the branch.
  lemma DropExact(l: Lane, id: nat, qps: seq<Qp>, q: Qp)
    requires LaneOk(l, Request, qps) && l.queue != [] && id < |qps| && HasWork(q, Request)
    ensures LaneOk(Drop(l, id), Request, qps[id := q]) <==> l.queue[0] == id
  {
    if l.queue[0] == id {
      LaneAfterSend(l, id, Request, qps, q);
    } else {
      var d := Drop(l, id);
      assert l.queue[0] in l.queue && l.queue[0] in d.members && l.queue[0] !in d.queue;
    }
  }

  // The response lane after it.
  lemma StayExact(l: Lane, id: nat, qps: seq<Qp>, q: Qp)
    requires LaneOk(l, Response, qps) && l.queue != [] && l.queue[0] == id
    ensures LaneOk(l, Response, qps[id := q]) <==> HasWork(q, Response)
  {
    if HasWork(q, Response) {
      LaneElsewhere(l, id, Response, qps, q);
    } else {
      assert qps[id := q][l.queue[0]] == q;
    }
  }

  // When a response takes that branch, both lanes are in order afterwards exactly if
  // DepthOk, and so is everything else.
  lemma DepthBranchExact(c: Config, s: Sched, id: nat, total: Credit)
    requires Sane(c) && BooksOk(c, s, total) && s.chain == [] && !s.idle
    requires LaneOk(s.request, Request, s.qps) && LaneOk(s.response, Response, s.qps)
    requires s.workType.Response? && Ready(c, s, id) && ReadBlocked(c, s.qps[id])
    ensures var r := SendTransaction(c, s, id);
            && (r.None? <==> s.request.queue == [])
            && (r.Some? && LaneOk(r.value.request, Request, r.value.qps) && LaneOk(r.value.response, Response, r.value.qps)
                <==> s.request.queue != [] && s.request.queue[0] == id && |s.qps[id].inboundReads| >= 2)
            && (r.Some? && Inv(c, r.value, total) <==> DepthOk(c, s, id))
  {
    var q := s.qps[id];
    assert HasWork(q, Response) && HasWork(q, Request);
    TakeOk(c, q, Response);
    var t := Take(c, q, Response);
    assert t.qp.inboundReads == q.inboundReads[1..];
    hide QpOk, Usage, LaneOk, Take, Plus, BooksOk;
    ChargeConserves(c, s, id, t, total);
    var s1 := Charge(c, s, id, t);
    assert ReadBlocked(c, s1.qps[id]);
    hide ReadBlocked, Continue;
    DepthBranchShape(c, s1, id);
    if s.request.queue != [] {
      DropExact(s.request, id, s.qps, s1.qps[id]);
      StayExact(s.response, id, s.qps, s1.qps[id]);
      var r := Continue(c, s1, id).value;
      LaneSameExact(s.response, r.response, Response, s1.qps);
      BooksAfterBranch(c, s1, r, total);
      hide CanSend;
    }
  }

  lemma LaneSameExact(l: Lane, l': Lane, ty: WorkType, qps: seq<Qp>)
    requires l'.queue == l.queue && l'.members == l.members
    ensures LaneOk(l', ty, qps) <==> LaneOk(l, ty, qps)
  {
  }

  lemma BooksAfterBranch(c: Config, s: Sched, r: Sched, total: Credit)
    requires Sane(c) && BooksOk(c, s, total)
    requires r.now == s.now && r.bucket == s.bucket && r.qps == s.qps && r.adds == s.adds && r.credits == s.credits
    ensures BooksOk(c, r, total)
  {
    hide QpOk, Usage, Balanced;
  }

  // A send keeps the invariant exactly if DepthOk.
  lemma SendKeeps(c: Config, s: Sched, id: nat, total: Credit)
    requires Sane(c) && BooksOk(c, s, total) && s.chain == [] && !s.idle
    requires LaneOk(s.request, Request, s.qps) && LaneOk(s.response, Response, s.qps)
    requires Ready(c, s, id)
    ensures id < |s.qps|
    ensures var r := SendTransaction(c, s, id); r.Some? && Inv(c, r.value, total) <==> DepthOk(c, s, id)
  {
    assert id < |s.qps|;
    hide BooksOk, LaneOk, Inv, SendTransaction, ReadBlocked;
    if s.workType.Response? && ReadBlocked(c, s.qps[id]) {
      DepthBranchExact(c, s, id, total);
    } else {
      UsualSendKeeps(c, s, id, total);
    }
  }

  lemma NotifyKeeps(c: Config, s: Sched, id: nat, ty: WorkType, total: Credit)
    requires Sane(c) && Inv(c, s, total) && id < |s.qps|
    ensures Inv(c, Notify(c, s, id, ty), total)
  {
    AddKeeps(c, s, id, ty, total);
  }

  lemma NotifyBothKeeps(c: Config, s: Sched, id: nat, total: Credit)
    requires Sane(c) && Inv(c, s, total) && id < |s.qps|
    ensures Inv(c, NotifyBoth(c, s, id), total)
  {
    hide ChainOk, LaneOk;
    NotifyKeeps(c, s, id, Request, total);
    NotifyKeeps(c, Notify(c, s, id, Request), id, Response, total);
  }

  // Changing a QP's context, without taking work or usage from it, is harmless.
  lemma SetQpKeeps(c: Config, s: Sched, id: nat, q: Qp, total: Credit)
    requires Sane(c) && Inv(c, s, total) && id < |s.qps| && QpOk(c, q) && q.usage == s.qps[id].usage
    requires HasWork(s.qps[id], Request) ==> HasWork(q, Request)
    requires HasWork(s.qps[id], Response) ==> HasWork(q, Response)
    ensures Inv(c, SetQp(s, id, q), total)
  {
    hide QpOk, LaneOk, Leq, Minimum, Usage, Balanced, Plus;
    LaneElsewhere(s.request, id, Request, s.qps, q);
    LaneElsewhere(s.response, id, Response, s.qps, q);
    UsageUpdate(s.qps, id, q);
    PlusCancel(Usage(s.qps[id := q]), Usage(s.qps), q.usage);
  }

  lemma PlusCancel(a: Credit, b: Credit, x: Credit)
    ensures Plus(a, x) == Plus(b, x) ==> a == b
  {
  }

  lemma NewContextOk(c: Config, q: Qp, step: Step)
    requires Sane(c) && QpOk(c, q) && ChangesContext(step)
    requires step.PostOp? ==> Admissible(c, step.op)
    requires step.InboundRead? ==> AdmissibleRead(c, step.sgl)
    requires step.ReadDone? ==> q.outboundReads > 0
    ensures var q' := NewContext(c, q, step);
            && QpOk(c, q') && q'.usage == q.usage
            && (HasWork(q, Request) ==> HasWork(q', Request))
            && (HasWork(q, Response) ==> HasWork(q', Response))
  {
    hide Admissible, AdmissibleRead, ClampLimit;
  }

  lemma InvClock(c: Config, s: Sched, total: Credit)
    requires Sane(c) && Inv(c, s, total)
    ensures s.bucket.last <= s.now && (s.idle ==> s.chain == [])
  {
  }

  lemma InformKeeps(c: Config, s: Sched, step: Step, was: Qp, total: Credit)
    requires Sane(c) && Inv(c, s, total) && ChangesContext(step) && step.id < |s.qps|
    ensures Inv(c, Inform(c, s, step, was), total)
  {
    hide Inv, Notify, NotifyBoth, AddQpToScheduleSet, Leq;
    InvClock(c, s, total);
    NotifyKeeps(c, s, step.id, Request, total);
    NotifyKeeps(c, s, step.id, Response, total);
    NotifyBothKeeps(c, s, step.id, total);
    AddKeeps(c, s, step.id, Request, total);
  }

  lemma ContextKeeps(c: Config, s: Sched, step: Step, total: Credit)
    requires Sane(c) && Inv(c, s, total) && Enabled(c, s, step) && ChangesContext(step)
    ensures Next(c, s, step).Some? && Inv(c, Next(c, s, step).value, total)
  {
    var q := s.qps[step.id];
    assert QpOk(c, q);
    NewContextOk(c, q, step);
    hide QpOk, NewContext, Inform;
    SetQpKeeps(c, s, step.id, NewContext(c, q, step), total);
    hide Inv;
    InformKeeps(c, SetQp(s, step.id, NewContext(c, q, step)), step, q, total);
  }

  // While a credit is on its way back it belongs to neither the QP nor the pool.
  lemma ReturnKeeps(c: Config, s: Sched, id: nat, credit: Credit, total: Credit)
    requires Sane(c) && Inv(c, s, total) && id < |s.qps| && Leq(credit, s.qps[id].usage)
    ensures Inv(c, DoReturn(c, s, id, credit), total)
  {
    var s1 := SetQp(s, id, s.qps[id].(usage := Minus(s.qps[id].usage, credit)));
    var inFlight := Minus(total, credit);
    ReturnTakes(c, s, id, credit, total);
    NotifyBothKeeps(c, s1, id, inFlight);
    var s2 := NotifyBoth(c, s1, id);
    var s3 := s2.(credits := Plus32(s2.credits, credit));
    RepayKeeps(c, s2, credit, total);
    if s3.idle {
      RunKeeps(c, s3, total);
    }
  }

  lemma ReturnTakes(c: Config, s: Sched, id: nat, credit: Credit, total: Credit)
    requires Sane(c) && Inv(c, s, total) && id < |s.qps| && Leq(credit, s.qps[id].usage)
    ensures Inv(c, SetQp(s, id, s.qps[id].(usage := Minus(s.qps[id].usage, credit))), Minus(total, credit))
  {
    var q := s.qps[id].(usage := Minus(s.qps[id].usage, credit));
    ReturnBooks(c, s, id, credit, total);
    hide LaneOk, BooksOk, Minimum, Leq, Minus;
    LaneElsewhere(s.request, id, Request, s.qps, q);
    LaneElsewhere(s.response, id, Response, s.qps, q);
  }

  lemma ReturnBooks(c: Config, s: Sched, id: nat, credit: Credit, total: Credit)
    requires Sane(c) && BooksOk(c, s, total) && id < |s.qps| && Leq(credit, s.qps[id].usage)
    ensures BooksOk(c, SetQp(s, id, s.qps[id].(usage := Minus(s.qps[id].usage, credit))), Minus(total, credit))
  {
    hide QpOk, Usage, Balanced;
    var q := s.qps[id].(usage := Minus(s.qps[id].usage, credit));
    QpOkUpTo(c, s.qps[id], q);
    UsageUpdate(s.qps, id, q);
    TakeBack(s.credits, Usage(s.qps), total, credit, Usage(s.qps[id := q]));
  }

  lemma RepayKeeps(c: Config, s: Sched, credit: Credit, total: Credit)
    requires Sane(c) && Inv(c, s, Minus(total, credit))
    ensures Inv(c, s.(credits := Plus32(s.credits, credit)), total)
  {
    hide QpOk, LaneOk, Minimum, Usage, Balanced, Plus32, Minus;
    Repay(s.credits, Usage(s.qps), total, credit);
  }

  lemma CreateKeeps(c: Config, s: Sched, limit: Credit, total: Credit)
    requires Sane(c) && Inv(c, s, total)
    ensures Inv(c, Next(c, s, CreateQp(limit)).value, total)
  {
    hide Minimum, Leq;
    var q := Qp([], [], limit, Zero, false, false, 0, 0);
    assert (s.qps + [q])[..|s.qps|] == s.qps;
  }

  // No response takes the outbound-read-depth branch where that does harm.
  predicate DepthRespected(c: Config, s: Sched, step: Step) {
    step.Fire? && step.k < |s.chain| && s.chain[step.k].LookupEvent? && s.chain[step.k].qp < |s.qps|
    ==> DepthOk(c, s, s.chain[step.k].qp)
  }

  lemma FireKeeps(c: Config, s: Sched, k: nat, total: Credit)
    requires Sane(c) && Inv(c, s, total) && k < |s.chain|
    ensures FireChain(c, s, k).Some? && Inv(c, FireChain(c, s, k).value, total) <==> DepthRespected(c, s, Fire(k))
  {
    hide BooksOk, Leq, Minimum;
    assert !s.idle && k == 0 && Without(s.chain, 0) == [];
    var s1 := s.(chain := []);
    assert BooksOk(c, s1, total) && BooksOk(c, s1.(idle := true), total) by { BooksSame(c, s, total); }
    match s.chain[0]
    case RunEvent => RunKeeps(c, s1, total);
    case LookupEvent(id) =>
      SendKeeps(c, s1, id, total);
      assert DepthOk(c, s1, id) <==> DepthOk(c, s, id);
  }

  lemma BooksSame(c: Config, s: Sched, total: Credit)
    requires Sane(c) && BooksOk(c, s, total)
    ensures BooksOk(c, s.(chain := []), total) && BooksOk(c, s.(chain := [], idle := true), total)
  {
  }

  lemma FireAddKeeps(c: Config, s: Sched, k: nat, total: Credit)
    requires Sane(c) && Inv(c, s, total) && k < |s.adds|
    ensures DoFireAdd(c, s, k).Some? && Inv(c, DoFireAdd(c, s, k).value, total)
  {
    hide LaneOk, QpOk, Usage, Leq, Minimum, AddQpToScheduleSet;
    var ev := s.adds[k];
    assert ev.qp < |s.qps|;
    AddKeeps(c, s.(adds := Without(s.adds, k)), ev.qp, if ev.DelayedAdd? then ev.ty else s.workType, total);
  }

  lemma XoffKeeps(c: Config, s: Sched, requests: bool, all: bool, total: Credit)
    requires Sane(c) && Inv(c, s, total)
    ensures Inv(c, RunIfIdle(c, s.(requestXoff := requests, globalXoff := all)), total)
  {
    hide LaneOk, QpOk, Usage, Leq, Minimum, RunWorkScheduler;
    if s.idle {
      RunKeeps(c, s.(requestXoff := requests, globalXoff := all), total);
    }
  }

  // Every step keeps the invariant, pops no empty deque, finds no QP without work and
  // asks the token bucket for no more than it holds, exactly if it is not a response that
  // takes the outbound-read-depth branch where that does harm.
  lemma Keeps(c: Config, s: Sched, step: Step, total: Credit)
    requires Sane(c) && Inv(c, s, total) && Enabled(c, s, step)
    ensures Next(c, s, step).Some? && Inv(c, Next(c, s, step).value, total) <==> DepthRespected(c, s, step)
  {
    hide LaneOk, QpOk, Usage, Leq, Minimum, RunWorkScheduler, AddQpToScheduleSet, FireChain, Notify, NotifyBoth,
         Admissible, AdmissibleRead, ReadBlocked, DepthOk;
    match step
    case Tick(to) =>
    case Fire(k) => FireKeeps(c, s, k, total);
    case FireAdd(k) => FireAddKeeps(c, s, k, total);
    case SetXoff(requests, all) => XoffKeeps(c, s, requests, all, total);
    case ReturnCredit(id, credit) => ReturnKeeps(c, s, id, credit, total);
    case CreateQp(limit) => CreateKeeps(c, s, limit, total);
    case _ => ContextKeeps(c, s, step, total);
  }

  // ---- whole runs ------------------------------------------------------------

  datatype History = Start | After(before: History, step: Step)

  // The state after a run from boot; None once something has gone wrong.
  function Reach(c: Config, h: History): Option<Sched>
    requires Sane(c)
  {
    match h
    case Start => Some(Boot(c))
    case After(before, step) =>
      var s := Reach(c, before);
      if s.None? || s.value.bucket.last > s.value.now || !Enabled(c, s.value, step) then None
      else Next(c, s.value, step)
  }

  // Every step was one the environment may take.
  predicate Possible(c: Config, h: History)
    requires Sane(c)
  {
    match h
    case Start => true
    case After(before, step) =>
      Possible(c, before) && (Reach(c, before).Some? ==> Enabled(c, Reach(c, before).value, step))
  }

  // And no response took the outbound-read-depth branch where that does harm.
  predicate Legal(c: Config, h: History)
    requires Sane(c)
  {
    match h
    case Start => true
    case After(before, step) =>
      && Legal(c, before)
      && var s := Reach(c, before);
      s.Some? ==> Enabled(c, s.value, step) && DepthRespected(c, s.value, step)
  }

  lemma {:induction false} RunsKeepInv(c: Config, h: History)
    requires Sane(c) && Legal(c, h)
    ensures Reach(c, h).Some? && Inv(c, Reach(c, h).value, c.total)
  {
    match h
    case Start =>
      assert Usage([]) == Zero;
    case After(before, step) =>
      RunsKeepInv(c, before);
      Keeps(c, Reach(c, before).value, step, c.total);
  }

  // The invariant holds at every point of a run.
  ghost predicate AlwaysInOrder(c: Config, h: History)
    requires Sane(c)
  {
    && Reach(c, h).Some? && Inv(c, Reach(c, h).value, c.total)
    && (h.After? ==> AlwaysInOrder(c, h.before))
  }

  // Of the runs the environment may take, exactly the legal ones are in order throughout.
  lemma {:induction false} LegalExact(c: Config, h: History)
    requires Sane(c) && Possible(c, h)
    ensures AlwaysInOrder(c, h) <==> Legal(c, h)
  {
    hide Inv, Next, Enabled, DepthRespected;
    match h
    case Start => RunsKeepInv(c, h);
    case After(before, step) =>
      LegalExact(c, before);
      if Legal(c, before) {
        RunsKeepInv(c, before);
        assert Reach(c, before).value.bucket.last <= Reach(c, before).value.now by {
          InvClock(c, Reach(c, before).value, c.total);
        }
        Keeps(c, Reach(c, before).value, step, c.total);
      }
  }

  // In every run: the scheduler is idle exactly when none of its events is pending
  // and never has two; both deques are free of duplicates and agree with their sets;
  // every listed QP has work; and a lookup in progress is for the QP at the head.
  lemma SingleChain(c: Config, h: History)
    requires Sane(c) && Legal(c, h)
    ensures var r := Reach(c, h);
            && r.Some?
            && var s := r.value;
            && |s.chain| == (if s.idle then 0 else 1)
            && LaneOk(s.request, Request, s.qps) && LaneOk(s.response, Response, s.qps)
            && (forall k, id :: 0 <= k < |s.chain| && s.chain[k] == LookupEvent(id) ==>
                  s.LaneOf(s.workType).queue != [] && s.LaneOf(s.workType).queue[0] == id)
  {
    hide LaneOk, BooksOk, Reach, Legal, Minimum, Leq;
    RunsKeepInv(c, h);
  }
}
