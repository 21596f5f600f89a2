// The latencies a target records: the time between its handlers, except where a handler
// only notes the time.
module FalconTarget {
  import opened Common
  import opened FalconTransaction
  import opened FalconProtocol
  import opened FalconRequests

  // A handler at the target's end of a transaction, and whether it records the time since
  // the one before.
  datatype Mark = Mark(time: int, sampled: bool)

  // The stage latencies that come of it.
  function Latencies(marks: seq<Mark>): seq<int> {
    if |marks| < 2 then []
    else
      var n := |marks| - 1;
      Latencies(marks[..n]) + if marks[n].sampled then [marks[n].time - marks[n - 1].time] else []
  }

  // The target's handlers in one step. Receiving a request only notes the time, and so
  // does an RNR.
  function StepMarks(e: Env, step: Step, now: int): seq<Mark>
    requires !step.Submit? && (step.Transmit? ==> e.work.Queued?) && (step.Deliver? ==> e.work.InFlight?)
    requires step.HandToUlp? ==> e.work.ForUlp?
  {
    match step
    case Transmit(_) => if e.work.ty.PushGrant? || e.work.ty.PullData? then [Mark(now, true)] else []
    case Deliver(_, rnr) =>
      if e.work.ty.PushGrant? || e.work.ty.PullData? then []
      else [Mark(now, e.work.ty.PushSolicitedData?)] + if rnr then [Mark(now, false)] else []
    case HandToUlp(_) => if e.work.ty.PullData? then [] else [Mark(now, true)]
    case AckFromUlp(_) => [Mark(now, true)]
    case RnrFromUlp(_) => [Mark(now, false)]
    case Respond(_) => [Mark(now, true)]
    case AckOfData(_) => if e.kind.Pull? then [Mark(now, true)] else []
    case _ => []
  }

  // Those of a run.
  ghost function Marks(s: Option<System>, run: Run, x: Name): seq<Mark>
    requires Legal(s, run)
    decreases run
  {
    match run
    case Done => []
    case Then(step, now, rest) =>
      if s.None? then []
      else
        (if !step.Submit? && step.x == x then StepMarks(s.value.env[x], step, now) else [])
        + Marks(Next(s.value, step, now), rest, x)
  }

  // The target's end agrees with the handlers so far.
  ghost predicate Matches(t: Option<Txn>, done: bool, marks: seq<Mark>) {
    && (t.Some? ==> marks != [] && t.value.last == marks[|marks| - 1].time && t.value.stages == Latencies(marks))
    && (t.None? && !done ==> marks == [])
  }

  // ---- one handler ------------------------------------------------------------------

  // Whether a handler of the target records a latency.
  predicate Records(ty: PacketType, stage: Stage) { !stage.UlpRnrRx? && !(stage.NtwkRx? && OpensTarget(ty)) }

  // The packets and stages a target handles, but for ACKs it does not look at.
  predicate Handles(ty: PacketType, stage: Stage) {
    !stage.UlpCompletionTx? && (stage.NtwkAckRx? || stage.UlpRx? ==> ty.PullData?)
  }

  lemma SampledBy(ty: PacketType, stage: Stage, s: State)
    requires !EffectOf(ty, stage, s).Crash? && Handles(ty, stage)
    ensures EffectOf(ty, stage, s).Move? && EffectOf(ty, stage, s).sampled == Records(ty, stage)
  {
  }

  lemma UpdateMatches(t: Txn, ty: PacketType, stage: Stage, now: int, marks: seq<Mark>, done: bool)
    requires Matches(Some(t), done, marks) && Update(t, ty, stage, now).Some? && Handles(ty, stage)
    ensures Matches(Update(t, ty, stage, now), done, marks + [Mark(now, Records(ty, stage))])
  {
    var more := marks + [Mark(now, Records(ty, stage))];
    assert more[..|marks|] == marks;
    SampledBy(ty, stage, t.state);
    hide EffectOf;
  }

  // A handler at the target, and then the environment.
  lemma TouchMatches(s: System, x: Name, ty: PacketType, stage: Stage, now: int, e: Env, marks: seq<Mark>, done: bool)
    requires x in s.env && Touch(s, x, Target, ty, stage, now).Some? && Handles(ty, stage)
    requires Matches(End(s, x, Target), done, marks)
    ensures var s' := SetEnv(Touch(s, x, Target, ty, stage, now).value, x, e);
            Matches(End(s', x, Target), e.targetDone, marks + [Mark(now, Records(ty, stage))])
  {
    hide Update, Latencies;
    TouchEnds(s, x, Target, ty, stage, now);
    RecordEnds(Touch(s, x, Target, ty, stage, now).value, x, e);
    hide Touch, End;
    UpdateMatches(End(s, x, Target).value, ty, stage, now, marks, done);
  }

  // A handler at the initiator leaves the target alone.
  lemma InitiatorMatches(s: System, x: Name, ty: PacketType, stage: Stage, now: int, e: Env)
    requires x in s.env && Touch(s, x, Initiator, ty, stage, now).Some?
    ensures var s' := SetEnv(Touch(s, x, Initiator, ty, stage, now).value, x, e);
            && End(s', x, Target) == End(s, x, Target)
            && End(Forget(Record(s', x), x, Initiator), x, Target) == End(s, x, Target)
  {
    hide Update;
    TouchEnds(s, x, Initiator, ty, stage, now);
    var s0 := Touch(s, x, Initiator, ty, stage, now).value;
    RecordEnds(s0, x, e);
    ForgetEnds(Record(SetEnv(s0, x, e), x), x, Initiator);
    hide Touch, End, Forget, Record;
  }

  // The arrival of a request opens the target's end.
  lemma OpenMatches(s: System, x: Name, now: int)
    requires x in s.env && s.env[x].work.InFlight? && OpensTarget(s.env[x].work.ty) && End(s, x, Target).None?
    ensures var r := Arrive(s, x, s.env[x], false, now);
            r.Some? && forall done: bool :: Matches(End(r.value, x, Target), done, [Mark(now, false)])
  {
  }

  // Any other packet is handled by the end it finds.
  lemma ArriveIsTouch(s: System, x: Name, now: int)
    requires x in s.env && s.env[x].work.InFlight? && !OpensTarget(s.env[x].work.ty) && IsTransaction(s.env[x].work.ty)
    ensures var e := s.env[x];
            var u := Touch(s, x, LocationOf(e.work.ty, true), e.work.ty, NtwkRx, now);
            Arrive(s, x, e, false, now) == if u.None? then None else Some(SetEnv(u.value, x, Delivered(e, e.work.ty)))
  {
    hide Update;
  }

  lemma ArriveMatches(s: System, x: Name, now: int, marks: seq<Mark>)
    requires Inv(s) && x in s.env && s.env[x].work.InFlight?
    requires Matches(End(s, x, Target), s.env[x].targetDone, marks)
    ensures var r := Arrive(s, x, s.env[x], false, now);
            && r.Some? && x in r.value.env
            && Matches(End(r.value, x, Target), r.value.env[x].targetDone,
                       marks + StepMarks(s.env[x], Deliver(x, false), now))
  {
    hide Inv, Good, End, Arrive, Touch, Forget, Record, Matches, Agree, Moves;
    var e := s.env[x];
    var ty := e.work.ty;
    InvAt(s, x);
    KeepsArrival(s, x, now);
    ArrivesKnown(End(s, x, Initiator), End(s, x, Target), e);
    if OpensTarget(ty) {
      OpenMatches(s, x, now);
      NoMarks(End(s, x, Target), marks);
      assert [] + [Mark(now, false)] == [Mark(now, false)];
      assert StepMarks(e, Deliver(x, false), now) == [Mark(now, false)];
    } else {
      ArriveIsTouch(s, x, now);
      if ty.PushSolicitedData? {
        TouchMatches(s, x, ty, NtwkRx, now, Delivered(e, ty), marks, e.targetDone);
        assert StepMarks(e, Deliver(x, false), now) == [Mark(now, true)];
      } else {
        InitiatorMatches(s, x, ty, NtwkRx, now, Delivered(e, ty));
        assert marks + [] == marks;
      }
    }
  }

  lemma NoMarks(t: Option<Txn>, marks: seq<Mark>)
    requires Matches(t, false, marks) && t.None?
    ensures marks == []
  {
  }

  lemma ArrivesKnown(i: Option<Txn>, t: Option<Txn>, e: Env)
    requires Good(i, t, e) && e.work.InFlight?
    ensures IsTransaction(e.work.ty) && (OpensTarget(e.work.ty) ==> t.None? && !e.targetDone)
  {
    hide Telescopes, EffectOf;
    LocalDeliver(StateOf(i), StateOf(t), e);
  }

  // ---- every step ---------------------------------------------------------------------

  lemma DeliverMatches(s: System, x: Name, rnr: bool, now: int, marks: seq<Mark>)
    requires Inv(s) && Enabled(s, Deliver(x, rnr)) && Matches(End(s, x, Target), s.env[x].targetDone, marks)
    ensures var r := DoDeliver(s, x, rnr, now);
            && r.Some? && x in r.value.env
            && Matches(End(r.value, x, Target), r.value.env[x].targetDone, marks + StepMarks(s.env[x], Deliver(x, rnr), now))
  {
    hide Inv, End, Touch, Forget, Record, Matches, ImplicitAck;
    KeepsDeliver(s, x, rnr, now);
    ImplicitAckFinds(s, x, now);
    ArriveMatches(s, x, now, marks);
    if rnr {
      var ty := s.env[x].work.ty;
      var s1 := Arrive(s, x, s.env[x], false, now).value;
      var more := marks + StepMarks(s.env[x], Deliver(x, false), now);
      TouchMatches(s1, x, ty, UlpRnrRx, now, s1.env[x], more, s1.env[x].targetDone);
      assert more + [Mark(now, false)] == marks + StepMarks(s.env[x], Deliver(x, true), now);
      var s2 := Touch(s1, x, Target, ty, UlpRnrRx, now).value;
      assert s2.env == s1.env by { TouchEnds(s1, x, Target, ty, UlpRnrRx, now); }
      assert SetEnv(s2, x, s1.env[x]) == s2;
    }
  }

  // A target that has forgotten the transaction.
  lemma ForgottenMatches(s: System, x: Name, marks: seq<Mark>)
    ensures Matches(End(Forget(s, x, Target), x, Target), true, marks)
  {
  }

  lemma StepMatches(s: System, step: Step, now: int, marks: seq<Mark>)
    requires Inv(s) && Enabled(s, step) && !step.Submit?
    requires Matches(End(s, step.x, Target), s.env[step.x].targetDone, marks)
    ensures var r := Next(s, step, now);
            && r.Some? && step.x in r.value.env
            && Matches(End(r.value, step.x, Target), r.value.env[step.x].targetDone,
                       marks + StepMarks(s.env[step.x], step, now))
  {
    hide Inv, End, Touch, Forget, Record, Matches, Arrive, StepsOn, Good;
    StepOn(s, step, now);
    var x := step.x;
    var e := s.env[x];
    assert marks + [] == marks;
    match step
    case Transmit(_) => TransmitMatches(s, x, now, marks);
    case Deliver(_, rnr) => DeliverMatches(s, x, rnr, now, marks);
    case HandToUlp(_) =>
      InvAt(s, x);
      NoGrantForUlp(End(s, x, Initiator), End(s, x, Target), e);
      HandMatches(s, x, now, marks);
    case AckFromUlp(_) => AckMatches(s, x, now, marks);
    case RnrFromUlp(_) =>
      var ty := UlpPacketOf(e.kind);
      TouchMatches(s, x, ty, UlpRnrRx, now, e.(work := ForUlp(ty)), marks, e.targetDone);
    case Respond(_) => RespondMatches(s, x, now, marks);
    case AckOfData(_) => DataMatches(s, x, now, marks);
    case AckOfRequest(_, ty) => RequestMatches(s, x, ty, now, marks);
    case Complete(_) =>
      InitiatorMatches(s, x, DataOf(e.kind), UlpCompletionTx, now, e.(toComplete := false));
      FinishEnv(SetEnv(Touch(s, x, Initiator, DataOf(e.kind), UlpCompletionTx, now).value, x, e.(toComplete := false)), x,
                Initiator);
  }

  lemma NoGrantForUlp(i: Option<Txn>, t: Option<Txn>, e: Env)
    requires Good(i, t, e) && e.work.ForUlp?
    ensures !e.work.ty.PushGrant?
  {
    hide Telescopes, EffectOf;
  }

  lemma TransmitMatches(s: System, x: Name, now: int, marks: seq<Mark>)
    requires Enabled(s, Transmit(x)) && Next(s, Transmit(x), now).Some?
    requires Matches(End(s, x, Target), s.env[x].targetDone, marks)
    ensures var s' := Next(s, Transmit(x), now).value;
            && x in s'.env
            && Matches(End(s', x, Target), s'.env[x].targetDone, marks + StepMarks(s.env[x], Transmit(x), now))
  {
    hide End, Touch, Forget, Record, Matches;
    var e := s.env[x];
    var ty := e.work.ty;
    if LocationOf(ty, false).Target? {
      TouchMatches(s, x, ty, NtwkTx, now, Transmitted(e, ty), marks, e.targetDone);
    } else {
      InitiatorMatches(s, x, ty, NtwkTx, now, Transmitted(e, ty));
      assert marks + [] == marks;
    }
  }

  lemma HandMatches(s: System, x: Name, now: int, marks: seq<Mark>)
    requires Enabled(s, HandToUlp(x)) && Next(s, HandToUlp(x), now).Some?
    requires Matches(End(s, x, Target), s.env[x].targetDone, marks) && !s.env[x].work.ty.PushGrant?
    ensures var s' := Next(s, HandToUlp(x), now).value;
            && x in s'.env
            && Matches(End(s', x, Target), s'.env[x].targetDone, marks + StepMarks(s.env[x], HandToUlp(x), now))
  {
    hide End, Touch, Forget, Record, Matches;
    var e := s.env[x];
    var ty := e.work.ty;
    if ty.PullData? {
      InitiatorMatches(s, x, ty, UlpTx, now, e.(work := Idle));
      assert marks + [] == marks;
      FinishEnv(SetEnv(Touch(s, x, Initiator, ty, UlpTx, now).value, x, e.(work := Idle)), x, Initiator);
    } else {
      TouchMatches(s, x, ty, UlpTx, now, e.(work := AtUlp), marks, e.targetDone);
    }
  }

  lemma AckMatches(s: System, x: Name, now: int, marks: seq<Mark>)
    requires Enabled(s, AckFromUlp(x)) && Next(s, AckFromUlp(x), now).Some?
    requires Matches(End(s, x, Target), s.env[x].targetDone, marks)
    ensures var s' := Next(s, AckFromUlp(x), now).value;
            x in s'.env && Matches(End(s', x, Target), s'.env[x].targetDone, marks + [Mark(now, true)])
  {
    hide End, Touch, Forget, Matches;
    var e := s.env[x];
    TouchMatches(s, x, UlpPacketOf(e.kind), UlpAckRx, now, UlpAcked(e), marks, e.targetDone);
    var s1 := SetEnv(Touch(s, x, Target, UlpPacketOf(e.kind), UlpAckRx, now).value, x, UlpAcked(e));
    ForgottenMatches(s1, x, marks + [Mark(now, true)]);
    FinishEnv(s1, x, Target);
  }

  lemma RespondMatches(s: System, x: Name, now: int, marks: seq<Mark>)
    requires Enabled(s, Respond(x)) && Next(s, Respond(x), now).Some?
    requires Matches(End(s, x, Target), s.env[x].targetDone, marks)
    ensures var s' := Next(s, Respond(x), now).value;
            x in s'.env && Matches(End(s', x, Target), s'.env[x].targetDone, marks + [Mark(now, true)])
  {
    hide End, Update, Matches;
    TouchMatches(s, x, PullData, UlpRx, now, s.env[x].(work := Queued(PullData)), marks, s.env[x].targetDone);
  }

  lemma DataMatches(s: System, x: Name, now: int, marks: seq<Mark>)
    requires Enabled(s, AckOfData(x)) && Next(s, AckOfData(x), now).Some?
    requires Matches(End(s, x, Target), s.env[x].targetDone, marks)
    ensures var s' := Next(s, AckOfData(x), now).value;
            && x in s'.env
            && Matches(End(s', x, Target), s'.env[x].targetDone, marks + StepMarks(s.env[x], AckOfData(x), now))
  {
    hide End, Touch, Forget, Record, Matches;
    var e := s.env[x];
    var ty := DataOf(e.kind);
    if e.kind.Pull? {
      TouchMatches(s, x, ty, NtwkAckRx, now, DataAcked(e), marks, e.targetDone);
      var s1 := SetEnv(Touch(s, x, Target, ty, NtwkAckRx, now).value, x, DataAcked(e));
      ForgottenMatches(s1, x, marks + [Mark(now, true)]);
      FinishEnv(s1, x, Target);
    } else {
      InitiatorMatches(s, x, ty, NtwkAckRx, now, DataAcked(e));
      assert marks + [] == marks;
    }
  }

  lemma RequestMatches(s: System, x: Name, ty: PacketType, now: int, marks: seq<Mark>)
    requires Inv(s) && Enabled(s, AckOfRequest(x, ty)) && Next(s, AckOfRequest(x, ty), now).Some?
    requires Matches(End(s, x, Target), s.env[x].targetDone, marks)
    ensures var s' := Next(s, AckOfRequest(x, ty), now).value;
            x in s'.env && Matches(End(s', x, Target), s'.env[x].targetDone, marks)
  {
    hide Inv, End, Touch, Matches, Close, Agree;
    InvAt(s, x);
    LocalAckOfRequest(StateOf(End(s, x, Initiator)), StateOf(End(s, x, Target)), s.env[x], ty);
    AckStays(s, x, ty, now);
    RecordEnds(s, x, Close(s.env[x], ty));
    CloseDone(s.env[x], ty);
  }

  lemma CloseDone(e: Env, ty: PacketType)
    ensures Close(e, ty).targetDone == e.targetDone
  {
  }

  // ---- every run -----------------------------------------------------------------------

  lemma OtherMatches(s: System, step: Step, now: int, x: Name, marks: seq<Mark>)
    requires Inv(s) && Enabled(s, step) && Next(s, step, now).Some? && (step.Submit? || step.x != x)
    requires x in s.env && Matches(End(s, x, Target), s.env[x].targetDone, marks)
    ensures var s' := Next(s, step, now).value; x in s'.env && Matches(End(s', x, Target), s'.env[x].targetDone, marks)
  {
    if step.Submit? {
      SubmitEnds(s, step.h, step.op, step.threshold, now);
      SubmitOpens(s, step.h, step.op, step.threshold, now);
      hide Next, Inv, End, Matches;
    } else {
      StepOn(s, step, now);
      hide Next, Inv, End, Matches, EnvAfter;
    }
  }

  // A new transaction has no handlers at its target yet.
  lemma NewMatches(s: System, step: Step, now: int, x: Name)
    requires Inv(s) && Enabled(s, step) && Next(s, step, now).Some? && x !in s.env
    ensures var s' := Next(s, step, now).value;
            x in s'.env ==> Matches(End(s', x, Target), s'.env[x].targetDone, [])
  {
    if step.Submit? {
      SubmitEnds(s, step.h, step.op, step.threshold, now);
      SubmitOpens(s, step.h, step.op, step.threshold, now);
      assert End(s, x, Target).None?;
      hide Next, Inv, End;
    } else {
      StepOn(s, step, now);
      hide Next, Inv, End, EnvAfter;
    }
  }

  lemma {:induction false} RunMatches(s: System, run: Run, x: Name, marks: seq<Mark>)
    requires Inv(s) && Legal(Some(s), run) && After(Some(s), run).Some?
    requires if x in s.env then Matches(End(s, x, Target), s.env[x].targetDone, marks) else marks == []
    ensures var s' := After(Some(s), run).value;
            x in s'.env ==> Matches(End(s', x, Target), s'.env[x].targetDone, marks + Marks(Some(s), run, x))
    decreases run
  {
    hide Inv, Next, Enabled, Matches, End, After, Legal, StepMarks;
    if run.Done? {
      RunEmpty(s, x);
      assert marks + [] == marks;
    } else {
      RunFirst(s, run);
      MarksFirst(s, run, x);
      var step, now, rest := run.step, run.now, run.rest;
      var s1 := Next(s, step, now).value;
      if !step.Submit? && step.x == x {
        EnabledKnown(s, step);
        StepMatches(s, step, now, marks);
        var more := marks + StepMarks(s.env[x], step, now);
        RunMatches(s1, rest, x, more);
        assert more + Marks(Some(s1), rest, x) == marks + Marks(Some(s), run, x);
      } else {
        if x in s.env {
          OtherMatches(s, step, now, x, marks);
        } else {
          NewMatches(s, step, now, x);
        }
        RunMatches(s1, rest, x, marks);
        assert [] + Marks(Some(s1), rest, x) == Marks(Some(s1), rest, x);
      }
    }
  }

  lemma EnabledKnown(s: System, step: Step)
    requires Enabled(s, step) && !step.Submit?
    ensures step.x in s.env
    ensures var work := s.env[step.x].work;
            && (step.Transmit? ==> work.Queued?) && (step.Deliver? ==> work.InFlight?)
            && (step.HandToUlp? ==> work.ForUlp?)
  {
  }

  lemma RunEmpty(s: System, x: Name)
    ensures Legal(Some(s), Done) && After(Some(s), Done) == Some(s) && Marks(Some(s), Done, x) == []
  {
  }

  lemma MarksFirst(s: System, run: Run, x: Name)
    requires Legal(Some(s), run) && run.Then?
    ensures Enabled(s, run.step) && Legal(Next(s, run.step, run.now), run.rest)
    ensures Marks(Some(s), run, x) ==
              (if !run.step.Submit? && run.step.x == x then StepMarks(s.env[x], run.step, run.now) else [])
              + Marks(Next(s, run.step, run.now), run.rest, x)
  {
    hide Next;
  }

  // In every run, the target of a transaction it still knows has recorded exactly the times
  // between its handlers, but for those that end with an RNR.
  lemma TargetLatencies(run: Run, x: Name)
    requires Legal(Some(Boot), run)
    ensures After(Some(Boot), run).Some?
    ensures var s := After(Some(Boot), run).value;
            x in s.env && End(s, x, Target).Some? ==>
              && Marks(Some(Boot), run, x) != []
              && End(s, x, Target).value.stages == Latencies(Marks(Some(Boot), run, x))
              && End(s, x, Target).value.last == Marks(Some(Boot), run, x)[|Marks(Some(Boot), run, x)| - 1].time
  {
    hide Inv, After, Legal, Marks, End, Latencies;
    BootInv();
    RunsKeepInv(Boot, run);
    RunMatches(Boot, run, x, []);
    assert [] + Marks(Some(Boot), run, x) == Marks(Some(Boot), run, x);
  }
}
