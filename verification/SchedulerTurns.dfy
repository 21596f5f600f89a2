// Turns in the work scheduler: what the packets a QP sends in its turn take from the byte
// and op quanta of its lane, and when the turn is over.
module SchedulerTurns {
  import opened Common
  import opened Sgl
  import opened FalconCredits
  import opened Scheduler
  import opened SchedulerBooks
  import TB = TokenBucket

  // ---- packets ----------------------------------------------------------------------

  // The RDMA packet a QP sends next: header and payload, in bytes.
  function PacketBytes(c: Config, q: Qp, ty: WorkType): nat
    requires HasWork(q, ty)
  {
    if ty.Response? then 24 + Total(q.inboundReads[0])
    else
      var op := q.sendQueue[0];
      match op.opcode
      case Read => 44
      case Write => 28 + PayloadBytes(c, op)
      case Send => 20 + PayloadBytes(c, op)
  }

  // Inline data, or as much of the list as fits the MTU.
  function PayloadBytes(c: Config, op: Op): nat {
    if op.inlineLength != 0 then op.inlineLength
    else if Total(op.sgl) <= c.units.mtu then Total(op.sgl)
    else c.units.mtu
  }

  lemma WireExact(c: Config, q: Qp, ty: WorkType)
    requires Sane(c) && HasWork(q, ty)
    ensures Take(c, q, ty).wire == PacketBytes(c, q, ty)
  {
    if ty.Request? {
      CutTotals(q.sendQueue[0].sgl, c.units.mtu);
      hide RequestCredit, Cut, Total;
    }
  }

  // A transaction goes out: the lookup of a QP has come back.
  predicate IsSend(s: Sched, step: Step) {
    step.Fire? && step.k < |s.chain| && s.chain[step.k].LookupEvent? && s.chain[step.k].qp < |s.qps|
    && HasWork(s.qps[s.chain[step.k].qp], s.workType)
  }

  function Sender(s: Sched, step: Step): nat
    requires IsSend(s, step)
  {
    s.chain[step.k].qp
  }

  // The QP has more to send, credits for it and no xoff, and does not wait for a read.
  predicate CanGoOn(c: Config, q: Qp, ty: WorkType)
    requires Sane(c)
  {
    && (if ty.Request? then q.sendQueue != [] && !q.requestXoff else q.inboundReads != [] && !q.responseXoff)
    && Leq(Plus(q.usage, HeadCredit(c, q, ty)), q.limit)
    && !(q.sendQueue != [] && q.sendQueue[0].opcode.Read? && q.outboundReads >= c.readDepth)
  }

  // ---- turns --------------------------------------------------------------------------

  function Sum(sizes: seq<nat>): nat { if sizes == [] then 0 else Sum(sizes[..|sizes| - 1]) + sizes[|sizes| - 1] }

  // The turn goes on after these packets: fewer than eight, and fewer bytes than the quanta.
  predicate Lasts(c: Config, sizes: seq<nat>) { |sizes| < 8 && Sum(sizes) < c.quanta }

  // The packets of the current turn of a lane after one more, with all its headers, was
  // sent from it, by a QP that is left like this.
  function Longer(c: Config, turn: seq<nat>, bytes: nat, q: Qp, ty: WorkType): seq<nat>
    requires Sane(c)
  {
    var sizes := turn + [bytes + 98];
    if Lasts(c, sizes) && CanGoOn(c, q, ty) then sizes else []
  }

  // The packets sent so far in the current turn of a lane.
  function Turn(c: Config, h: History, ty: WorkType): seq<nat>
    requires Sane(c)
  {
    match h
    case Start => []
    case After(before, step) =>
      var s, r := Reach(c, before), Reach(c, h);
      if s.Some? && r.Some? && IsSend(s.value, step) && s.value.workType == ty && |r.value.qps| == |s.value.qps|
      then
        var id := Sender(s.value, step);
        Longer(c, Turn(c, before, ty), PacketBytes(c, s.value.qps[id], ty), r.value.qps[id], ty)
      else Turn(c, before, ty)
  }

  // The quanta of a lane are what the packets of its turn have left of them.
  predicate Metered(c: Config, l: Lane, turn: seq<nat>) {
    if turn == [] then (l.bytes == 0 && l.ops == 0) || (l.bytes == c.quanta && l.ops == 8)
    else Lasts(c, turn) && l.bytes == c.quanta - Sum(turn) && l.ops == 8 - |turn|
  }

  // A lane whose head may send has its quanta.
  predicate Charged(c: Config, l: Lane, turn: seq<nat>) {
    Metered(c, l, turn) && (turn == [] ==> l.bytes == c.quanta && l.ops == 8)
  }

  datatype Turns = Turns(request: seq<nat>, response: seq<nat>)
  {
    function Of(ty: WorkType): seq<nat> { if ty.Request? then request else response }
    function With(ty: WorkType, turn: seq<nat>): Turns {
      if ty.Request? then this.(request := turn) else this.(response := turn)
    }
  }

  ghost predicate Kept(c: Config, s: Sched, t: Turns) {
    && Metered(c, s.request, t.request) && Metered(c, s.response, t.response)
    && (forall k :: 0 <= k < |s.chain| && s.chain[k].LookupEvent? ==> Charged(c, s.LaneOf(s.workType), t.Of(s.workType)))
  }

  // ---- every step ------------------------------------------------------------------------

  lemma RunTurns(c: Config, s: Sched, t: Turns)
    requires Sane(c) && s.bucket.last <= s.now && s.chain == [] && Kept(c, s, t)
    ensures Kept(c, RunWorkScheduler(c, s), t)
  {
    hide CanSend, TB.Refill, Sum;
  }

  lemma AddTurns(c: Config, s: Sched, id: nat, ty: WorkType, t: Turns)
    requires Sane(c) && s.bucket.last <= s.now && id < |s.qps| && OneChain(s) && Kept(c, s, t)
    ensures Kept(c, AddQpToScheduleSet(c, s, id, ty), t)
  {
    hide HasCredits, RunWorkScheduler, Sum;
    var l := s.LaneOf(ty);
    if s.idle {
      RunTurns(c, s.WithLane(ty, l.(queue := l.queue + [id], members := l.members + {id})), t);
    }
  }

  lemma NotifyTurns(c: Config, s: Sched, id: nat, t: Turns)
    requires Sane(c) && s.bucket.last <= s.now && id < |s.qps| && OneChain(s) && Kept(c, s, t)
    ensures Kept(c, Notify(c, s, id, Request), t) && Kept(c, Notify(c, s, id, Response), t)
    ensures Kept(c, NotifyBoth(c, s, id), t)
  {
    hide HasCredits, AddQpToScheduleSet, Kept;
    AddTurns(c, s, id, Request, t);
    AddTurns(c, s, id, Response, t);
    NotifyFrame(c, s, id);
    AddTurns(c, Notify(c, s, id, Request), id, Response, t);
  }

  // ---- sends -----------------------------------------------------------------------------

  lemma SumAppend(sizes: seq<nat>, x: nat)
    ensures Sum(sizes + [x]) == Sum(sizes) + x
  {
    assert (sizes + [x])[..|sizes|] == sizes;
  }

  // What a packet leaves of the quanta, and whether the turn may go on.
  lemma SpendExact(c: Config, l: Lane, turn: seq<nat>, size: nat)
    requires Charged(c, l, turn)
    ensures var sizes := turn + [size];
            && (Over(l.bytes, size) > 0 && l.ops - 1 > 0 <==> Lasts(c, sizes))
            && (Lasts(c, sizes) ==> Metered(c, l.(bytes := Over(l.bytes, size), ops := l.ops - 1), sizes))
  {
    SumAppend(turn, size);
  }

  // How Continue leaves the quanta of the two lanes, and their queues, given whether the
  // turn of the current lane goes on.
  ghost predicate Settles(c: Config, s: Sched, id: nat, r: Sched, goesOn: bool)
    requires Sane(c) && id < |s.qps|
  {
    var ty := s.workType;
    var l, l', o, o' := s.LaneOf(ty), r.LaneOf(ty), s.LaneOf(Other(ty)), r.LaneOf(Other(ty));
    && r.qps == s.qps && r.chain == s.chain + [RunEvent] && r.lastRun == s.lastRun && r.bucket == s.bucket
    && o'.bytes == o.bytes && o'.ops == o.ops
    && (if goesOn then l' == l && o' == o
        else
          && l'.bytes == 0 && l'.ops == 0
          && if ty.Response? && ReadBlocked(c, s.qps[id])
             then l'.queue == l.queue && o.queue != [] && o'.queue == o.queue[1..]
             else l.queue != [] && l'.queue == l.queue[1..] && o' == o)
  }

  lemma EndTurnSettles(c: Config, s: Sched, id: nat, comeBack: bool)
    requires Sane(c) && id < |s.qps| && s.LaneOf(s.workType).queue != []
    requires s.workType.Response? ==> !ReadBlocked(c, s.qps[id])
    ensures Settles(c, s, id, EndTurn(c, s, id, comeBack), false)
  {
    hide UpdateWorkType, ReadBlocked;
    var s1 := s.WithLane(s.workType, Drop(s.LaneOf(s.workType), id));
    WorkTypeFrame(c, ResetQuanta(s1.(adds := if comeBack then s1.adds + [AddBack(id, s.workType)] else s1.adds)));
  }

  lemma BranchSettles(c: Config, s: Sched, id: nat)
    requires Sane(c) && id < |s.qps| && ReadBlocked(c, s.qps[id]) && s.request.queue != []
    ensures Continue(c, s, id).Some? && Settles(c, s, id, Continue(c, s, id).value, false)
  {
    hide UpdateWorkType;
    WorkTypeFrame(c, ResetQuanta(s.(request := Drop(s.request, id), chain := s.chain + [RunEvent])));
  }

  lemma ContinueSettles(c: Config, s: Sched, id: nat)
    requires Sane(c) && id < |s.qps| && Continue(c, s, id).Some?
    ensures var l := s.LaneOf(s.workType);
            Settles(c, s, id, Continue(c, s, id).value, l.bytes > 0 && l.ops > 0 && CanGoOn(c, s.qps[id], s.workType))
  {
    hide Leq, Plus, HeadCredit, UpdateWorkType, EndTurn;
    if ReadBlocked(c, s.qps[id]) {
      BranchSettles(c, s, id);
    } else if s.LaneOf(s.workType).queue != [] {
      EndTurnSettles(c, s, id, HasCredits(c, s.qps[id], s.workType) && !Xoff(s.qps[id], s.workType));
    }
  }

  // The turn after a send, and the lanes with it.
  ghost predicate Turned(c: Config, s: Sched, id: nat, r: Sched, t: Turns)
    requires Sane(c) && id < |s.qps| && HasWork(s.qps[id], s.workType)
  {
    && |r.qps| == |s.qps|
    && var ty := s.workType;
    var turn := Longer(c, t.Of(ty), PacketBytes(c, s.qps[id], ty), r.qps[id], ty);
    && Kept(c, r, t.With(ty, turn))
    && var q, q' := s.LaneOf(ty).queue, r.LaneOf(ty).queue;
    && if turn != [] || (ty.Response? && ReadBlocked(c, r.qps[id])) then q' == q else q != [] && q' == q[1..]
  }

  // The lanes and contexts once a send was charged for.
  lemma ChargeLanes(c: Config, s: Sched, id: nat)
    requires Sane(c) && id < |s.qps| && HasWork(s.qps[id], s.workType)
    requires Take(c, s.qps[id], s.workType).wire <= s.bucket.tokens
    ensures var s1 := Charge(c, s, id, Take(c, s.qps[id], s.workType));
            var ty, l := s.workType, s.LaneOf(s.workType);
            && s1.LaneOf(ty) ==
                 l.(bytes := Over(l.bytes, PacketBytes(c, s.qps[id], ty) + 98), ops := l.ops - 1)
            && s1.LaneOf(Other(ty)) == s.LaneOf(Other(ty))
            && s1.workType == ty && s1.chain == s.chain && |s1.qps| == |s.qps|
  {
    hide Take, HasWork, Plus, Minus, PacketBytes;
    WireExact(c, s.qps[id], s.workType);
  }

  // Given how Continue settles them.
  lemma SettledTurns(c: Config, s: Sched, s1: Sched, id: nat, r: Sched, t: Turns)
    requires Sane(c) && id < |s.qps| == |s1.qps| && HasWork(s.qps[id], s.workType) && s1.workType == s.workType
    requires Kept(c, s, t) && Charged(c, s.LaneOf(s.workType), t.Of(s.workType)) && s1.chain == []
    requires var ty, l := s.workType, s.LaneOf(s.workType);
             && s1.LaneOf(ty) ==
                  l.(bytes := Over(l.bytes, PacketBytes(c, s.qps[id], ty) + 98), ops := l.ops - 1)
             && s1.LaneOf(Other(ty)) == s.LaneOf(Other(ty))
    requires var l := s1.LaneOf(s.workType);
             Settles(c, s1, id, r, l.bytes > 0 && l.ops > 0 && CanGoOn(c, s1.qps[id], s.workType))
    ensures Turned(c, s, id, r, t)
  {
    SpendExact(c, s.LaneOf(s.workType), t.Of(s.workType), PacketBytes(c, s.qps[id], s.workType) + 98);
    hide HasWork, PacketBytes, CanGoOn, ReadBlocked, Lasts, Sum, Over;
  }

  lemma SendTurns(c: Config, s: Sched, id: nat, t: Turns)
    requires Sane(c) && s.chain == [] && SendTransaction(c, s, id).Some?
    requires Kept(c, s, t) && Charged(c, s.LaneOf(s.workType), t.Of(s.workType))
    ensures id < |s.qps| && HasWork(s.qps[id], s.workType)
    ensures Turned(c, s, id, SendTransaction(c, s, id).value, t)
  {
    hide Take, Continue, HasWork, PacketBytes, CanGoOn, Kept, Charged, Turned;
    var s1 := Charge(c, s, id, Take(c, s.qps[id], s.workType));
    ChargeLanes(c, s, id);
    hide Charge;
    ContinueSettles(c, s1, id);
    hide Settles;
    SettledTurns(c, s, s1, id, Continue(c, s1, id).value, t);
  }

  // ---- every run -----------------------------------------------------------------------------

  lemma ContextTurns(c: Config, s: Sched, step: Step, t: Turns)
    requires Sane(c) && s.bucket.last <= s.now && OneChain(s) && Kept(c, s, t) && Enabled(c, s, step)
    requires ChangesContext(step)
    ensures Kept(c, Next(c, s, step).value, t)
  {
    hide NewContext, Notify, NotifyBoth, AddQpToScheduleSet, Leq, Admissible, AdmissibleRead;
    var s1 := SetQp(s, step.id, NewContext(c, s.qps[step.id], step));
    assert Kept(c, s1, t);
    hide Kept;
    NotifyTurns(c, s1, step.id, t);
    AddTurns(c, s1, step.id, Request, t);
  }

  lemma ReturnTurns(c: Config, s: Sched, id: nat, credit: Credit, t: Turns)
    requires Sane(c) && s.bucket.last <= s.now && OneChain(s) && Kept(c, s, t) && id < |s.qps|
    ensures Kept(c, DoReturn(c, s, id, credit), t)
  {
    hide NotifyBoth, RunWorkScheduler, Minus, Plus32, Metered, Charged;
    var s1 := SetQp(s, id, s.qps[id].(usage := Minus(s.qps[id].usage, credit)));
    NotifyTurns(c, s1, id, t);
    NotifyFrame(c, s1, id);
    var s2 := NotifyBoth(c, s1, id);
    var s3 := s2.(credits := Plus32(s2.credits, credit));
    if s3.idle {
      RunTurns(c, s3, t);
    }
  }

  // A step that is no send leaves the turns alone.
  lemma OtherTurns(c: Config, s: Sched, step: Step, t: Turns)
    requires Sane(c) && s.bucket.last <= s.now && OneChain(s) && Kept(c, s, t) && Enabled(c, s, step)
    requires Next(c, s, step).Some? && !(step.Fire? && step.k < |s.chain| && s.chain[step.k].LookupEvent?)
    ensures Kept(c, Next(c, s, step).value, t)
  {
    hide Metered, Charged, RunWorkScheduler, AddQpToScheduleSet, DoReturn, Inform, NewContext;
    if ChangesContext(step) {
      ContextTurns(c, s, step, t);
    } else {
      match step
      case Tick(to) =>
      case Fire(k) =>
        assert Without(s.chain, k) == [];
        RunTurns(c, s.(chain := []), t);
      case FireAdd(k) =>
        AddTurns(c, s.(adds := Without(s.adds, k)), s.adds[k].qp,
                 if s.adds[k].DelayedAdd? then s.adds[k].ty else s.workType, t);
      case SetXoff(requests, all) =>
        if s.idle {
          RunTurns(c, s.(requestXoff := requests, globalXoff := all), t);
        }
      case ReturnCredit(id, credit) => ReturnTurns(c, s, id, credit, t);
      case CreateQp(limit) =>
    }
  }

  function TurnsOf(c: Config, h: History): Turns
    requires Sane(c)
  {
    Turns(Turn(c, h, Request), Turn(c, h, Response))
  }

  lemma SendStep(c: Config, s: Sched, k: nat, t: Turns)
    requires Sane(c) && s.bucket.last <= s.now && OneChain(s) && Kept(c, s, t)
    requires k < |s.chain| && s.chain[k].LookupEvent? && Next(c, s, Fire(k)).Some?
    ensures IsSend(s, Fire(k)) && Turned(c, s, s.chain[k].qp, Next(c, s, Fire(k)).value, t)
  {
    hide SendTransaction, Metered, Charged, Longer, PacketBytes;
    assert k == 0 && Without(s.chain, 0) == [];
    var s1 := s.(chain := []);
    SendTurns(c, s1, s.chain[0].qp, t);
  }

  lemma TurnStep(c: Config, h: History)
    requires Sane(c) && h.After? && Reach(c, h).Some? && Reach(c, h.before).Some?
    requires OneChain(Reach(c, h.before).value) && Kept(c, Reach(c, h.before).value, TurnsOf(c, h.before))
    ensures Kept(c, Reach(c, h).value, TurnsOf(c, h))
  {
    hide Next, Enabled, Kept, IsSend, Longer, PacketBytes, OneChain;
    var s, step := Reach(c, h.before).value, h.step;
    if step.Fire? && step.k < |s.chain| && s.chain[step.k].LookupEvent? {
      SendStep(c, s, step.k, TurnsOf(c, h.before));
      SenderIs(s, step);
    } else {
      OtherTurns(c, s, step, TurnsOf(c, h.before));
      NotSend(s, step);
    }
  }

  lemma SenderIs(s: Sched, step: Step)
    requires IsSend(s, step)
    ensures step.Fire? && step.k < |s.chain| && Sender(s, step) == s.chain[step.k].qp < |s.qps|
    ensures HasWork(s.qps[Sender(s, step)], s.workType)
  {
  }

  lemma NotSend(s: Sched, step: Step)
    requires !(step.Fire? && step.k < |s.chain| && s.chain[step.k].LookupEvent?)
    ensures !IsSend(s, step)
  {
  }

  // In every run, the quanta of a lane are full, or what the packets of its current turn have
  // left of them: bytes less their sizes with all headers, and ops less their number. And a
  // turn that goes on has sent fewer than eight packets, and fewer bytes than its quanta.
  lemma {:induction false} QuantaExact(c: Config, h: History)
    requires Sane(c) && Possible(c, h) && Reach(c, h).Some?
    ensures Kept(c, Reach(c, h).value, TurnsOf(c, h))
  {
    match h
    case Start =>
    case After(before, step) =>
      hide Kept, Next, Enabled, Sound;
      QuantaExact(c, before);
      RunsKeepSound(c, before);
      SoundChain(c, Reach(c, before).value);
      TurnStep(c, h);
  }

  lemma SoundChain(c: Config, s: Sched)
    requires Sane(c) && Sound(c, s, c.total)
    ensures OneChain(s) && s.bucket.last <= s.now
  {
  }

  // After any run, a send leaves its QP at the head of its lane exactly if the turn goes on:
  // fewer than eight packets and fewer bytes than the quanta were sent in it, this one
  // included, and the QP has more to send and may; or if it is a response of a QP that waits
  // for a read. Otherwise the QP leaves the lane.
  lemma TurnEnds(c: Config, h: History, step: Step)
    requires Sane(c) && Possible(c, After(h, step)) && Reach(c, h).Some? && Reach(c, After(h, step)).Some?
    requires IsSend(Reach(c, h).value, step)
    ensures var s, r := Reach(c, h).value, Reach(c, After(h, step)).value;
            var id, ty := Sender(s, step), s.workType;
            && |r.qps| == |s.qps|
            && var sizes := Turn(c, h, ty) + [PacketBytes(c, s.qps[id], ty) + 98];
            && Turn(c, After(h, step), ty) == (if Lasts(c, sizes) && CanGoOn(c, r.qps[id], ty) then sizes else [])
            && var q, q' := s.LaneOf(ty).queue, r.LaneOf(ty).queue;
            if Turn(c, After(h, step), ty) != [] || (ty.Response? && ReadBlocked(c, r.qps[id])) then q' == q
            else q != [] && q' == q[1..]
  {
    hide Kept, Next, Enabled, Sound, PacketBytes, CanGoOn, Lasts;
    QuantaExact(c, h);
    RunsKeepSound(c, h);
    SoundChain(c, Reach(c, h).value);
    SenderIs(Reach(c, h).value, step);
    SendStep(c, Reach(c, h).value, step.k, TurnsOf(c, h));
  }
}
