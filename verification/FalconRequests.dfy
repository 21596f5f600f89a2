// What becomes of the requests two ULPs submit: which kind of transaction each one opens,
// that a large write waits for its grant, and how it is accounted for in the end.
module FalconRequests {
  import opened Common
  import opened FalconTransaction
  import opened FalconProtocol

  // A request as its ULP submitted it, with the threshold from which writes are solicited.
  datatype Request = Request(op: UlpOp, threshold: nat)

  // The requests of one host, in order.
  function Submitted(run: Run, h: Host): seq<Request> {
    match run
    case Done => []
    case Then(step, _, rest) =>
      (if step.Submit? && step.h == h then [Request(step.op, step.threshold)] else []) + Submitted(rest, h)
  }

  // A write at or above the threshold.
  predicate Large(r: Request) { r.op.WriteOrSend? && r.op.length >= r.threshold }

  // The kind of transaction a request asks for.
  predicate Suits(kind: Kind, r: Request) {
    match kind
    case Pull => r.op.ReadRequest?
    case PushSolicited => Large(r)
    case PushUnsolicited => r.op.WriteOrSend? && !Large(r)
  }

  // ---- what a step does to transactions ---------------------------------------------------

  // Nothing that is finished is opened again or finished twice.
  ghost predicate Logged(s: System) {
    && (forall k :: 0 <= k < |s.completed| ==>
          var f := s.completed[k];
          f.name in s.env && f.kind == s.env[f.name].kind && End(s, f.name, Initiator).None?)
    && (forall j, k :: 0 <= j < k < |s.completed| ==> s.completed[j].name != s.completed[k].name)
  }

  // A step on one transaction leaves the others alone. It keeps the kind, opens no
  // initiator's end again, and logs the transaction only when that end is forgotten.
  ghost predicate StepsOn(s: System, s': System, x: Name) {
    && x in s.env && s'.env.Keys == s.env.Keys && s'.env[x].kind == s.env[x].kind
    && OnlyTouches(s, s', x)
    && s'.a.nextRsn == s.a.nextRsn && s'.b.nextRsn == s.b.nextRsn
    && (End(s, x, Initiator).None? ==> End(s', x, Initiator).None?)
    && (|| s'.completed == s.completed
        || (&& End(s, x, Initiator).Some? && End(s', x, Initiator).None?
            && |s'.completed| == |s.completed| + 1 && s'.completed[..|s.completed|] == s.completed
            && s'.completed[|s.completed|].name == x && s'.completed[|s.completed|].kind == s.env[x].kind))
  }

  lemma SetEnvOn(s: System, s': System, x: Name, e: Env)
    requires StepsOn(s, s', x) && e.kind == s.env[x].kind
    ensures StepsOn(s, SetEnv(s', x, e), x)
  {
    RecordEnds(s', x, e);
    hide End;
  }

  lemma TouchOn(s: System, x: Name, location: Location, ty: PacketType, stage: Stage, now: int)
    requires x in s.env && Touch(s, x, location, ty, stage, now).Some?
    ensures StepsOn(s, Touch(s, x, location, ty, stage, now).value, x)
  {
    hide Update;
    TouchEnds(s, x, location, ty, stage, now);
    hide Touch;
  }

  lemma OnTrans(s: System, s1: System, s2: System, x: Name)
    requires StepsOn(s, s1, x) && StepsOn(s1, s2, x) && s1.completed == s.completed
    ensures StepsOn(s, s2, x)
  {
    hide End;
  }

  // The transaction is logged and the initiator's end forgotten.
  lemma FinishOn(s: System, s': System, x: Name)
    requires StepsOn(s, s', x) && s'.completed == s.completed && End(s, x, Initiator).Some?
    ensures StepsOn(s, Forget(Record(s', x), x, Initiator), x)
  {
    RecordEnds(s', x, s'.env[x]);
    assert SetEnv(s', x, s'.env[x]) == s';
    ForgetEnds(Record(s', x), x, Initiator);
    hide End, Forget;
  }

  lemma ForgetOn(s: System, s': System, x: Name, location: Location)
    requires StepsOn(s, s', x) && s'.completed == s.completed
    ensures StepsOn(s, Forget(s', x, location), x)
  {
    ForgetEnds(s', x, location);
    hide Forget;
  }

  // A submission opens the transaction with the next RSN, of the kind it asks for, and
  // queues its request, or its data if that needs no grant.
  lemma SubmitOpens(s: System, h: Host, op: UlpOp, threshold: nat, now: int)
    requires Inv(s) && IsRequest(op)
    ensures var s', x := Next(s, Submit(h, op, threshold), now), Name(h, s.At(h).nextRsn);
            && s'.Some? && x !in s.env && x in s'.value.env
            && s'.value.env == s.env[x := s'.value.env[x]]
            && Suits(s'.value.env[x].kind, Request(op, threshold))
            && s'.value.env[x].work == Queued(if op.ReadRequest? then PullRequest
                                              else if op.length >= threshold then PushRequest
                                              else PushUnsolicitedData)
            && !s'.value.env[x].unacked && !s'.value.env[x].toComplete
  {
    assert Name(h, s.At(h).nextRsn) !in s.env;
    hide Inv;
    Keeps(s, Submit(h, op, threshold), now);
    UlpGives(s.At(h), op, threshold, now);
    hide FromUlp;
  }

  lemma UlpGives(h: HostState, op: UlpOp, threshold: nat, now: int)
    requires IsRequest(op)
    ensures var u := FromUlp(h, op, threshold, now);
            u.Accepted? ==>
              && u.rsn == h.nextRsn
              && u.ty == if op.ReadRequest? then PullRequest
                         else if op.length >= threshold then PushRequest
                         else PushUnsolicitedData
  {
  }

  // What a step makes of the work and the acknowledgements outstanding.
  function EnvAfter(e: Env, step: Step): Env
    requires !step.Submit? && (step.Transmit? ==> e.work.Queued?) && (step.Deliver? ==> e.work.InFlight?)
    requires step.HandToUlp? ==> e.work.ForUlp?
  {
    match step
    case Transmit(_) => Transmitted(e, e.work.ty)
    case Deliver(_, _) => Delivered(e, e.work.ty)
    case HandToUlp(_) => e.(work := if e.work.ty.PullData? then Idle else AtUlp)
    case AckFromUlp(_) => UlpAcked(e)
    case RnrFromUlp(_) => e.(work := ForUlp(UlpPacketOf(e.kind)))
    case Respond(_) => e.(work := Queued(PullData))
    case AckOfData(_) => DataAcked(e)
    case AckOfRequest(_, ty) => Close(e, ty)
    case Complete(_) => e.(toComplete := false)
  }

  ghost predicate StepsTo(s: System, s': System, x: Name, e: Env) {
    StepsOn(s, s', x) && s'.env[x] == e
  }

  lemma ArriveOn(s: System, x: Name, rnr: bool, now: int)
    requires x in s.env && s.env[x].work.InFlight?
    requires Arrive(s, x, s.env[x], rnr, now).Some?
    ensures StepsTo(s, Arrive(s, x, s.env[x], rnr, now).value, x, Delivered(s.env[x], s.env[x].work.ty))
  {
    var ty := s.env[x].work.ty;
    var h := HostOf(x, LocationOf(ty, true));
    var s1 := SetEnv(s.With(h, FromNetwork(s.At(h), x.rsn, ty, now).value), x, Delivered(s.env[x], ty));
    assert StepsTo(s, s1, x, Delivered(s.env[x], ty)) by { NetworkOn(s, x, now); }
    if rnr {
      hide End, Touch, FromNetwork;
      TouchOn(s1, x, Target, ty, UlpRnrRx, now);
      TouchEnds(s1, x, Target, ty, UlpRnrRx, now);
      OnTrans(s, s1, Touch(s1, x, Target, ty, UlpRnrRx, now).value, x);
    }
  }

  lemma NetworkOn(s: System, x: Name, now: int)
    requires x in s.env && s.env[x].work.InFlight?
    requires var ty := s.env[x].work.ty; FromNetwork(s.At(HostOf(x, LocationOf(ty, true))), x.rsn, ty, now).Some?
    ensures var ty := s.env[x].work.ty;
            var h := HostOf(x, LocationOf(ty, true));
            StepsTo(s, SetEnv(s.With(h, FromNetwork(s.At(h), x.rsn, ty, now).value), x, Delivered(s.env[x], ty)), x,
                    Delivered(s.env[x], ty))
  {
    hide Update, Delivered, IsTransaction;
    DeliveredKind(s.env[x], s.env[x].work.ty);
  }

  lemma DeliveredKind(e: Env, ty: PacketType)
    ensures Delivered(e, ty).kind == e.kind
  {
  }

  lemma TouchSetOn(s: System, x: Name, location: Location, ty: PacketType, stage: Stage, now: int, e: Env)
    requires x in s.env && Touch(s, x, location, ty, stage, now).Some? && e.kind == s.env[x].kind
    ensures var s' := SetEnv(Touch(s, x, location, ty, stage, now).value, x, e);
            StepsTo(s, s', x, e) && s'.completed == s.completed && End(s, x, location).Some?
  {
    TouchOn(s, x, location, ty, stage, now);
    TouchEnds(s, x, location, ty, stage, now);
    hide Touch, StepsOn, End;
    SetEnvOn(s, Touch(s, x, location, ty, stage, now).value, x, e);
  }

  lemma FinishEnv(s: System, x: Name, location: Location)
    requires x in s.env
    ensures Forget(Record(s, x), x, location).env == s.env == Forget(s, x, location).env
  {
  }

  lemma StepOn(s: System, step: Step, now: int)
    requires Inv(s) && Enabled(s, step) && !step.Submit?
    ensures Next(s, step, now).Some? && StepsTo(s, Next(s, step, now).value, step.x, EnvAfter(s.env[step.x], step))
  {
    Keeps(s, step, now);
    var x := step.x;
    var e := s.env[x];
    hide Inv, Touch, Forget, Record, End, StepsOn, Transmitted, UlpAcked, DataAcked, Close, Delivered, Arrive, ImplicitAck;
    match step
    case Transmit(_) => StepOnTransmit(s, x, now);
    case Deliver(_, rnr) =>
      ImplicitAckFinds(s, x, now);
      ArriveOn(s, x, rnr, now);
    case HandToUlp(_) => StepOnHandToUlp(s, x, now);
    case AckFromUlp(_) => StepOnAckFromUlp(s, x, now);
    case RnrFromUlp(_) =>
      var ty := UlpPacketOf(e.kind);
      TouchSetOn(s, x, Target, ty, UlpRnrRx, now, e.(work := ForUlp(ty)));
    case Respond(_) => StepOnRespond(s, x, now);
    case AckOfData(_) => StepOnAckOfData(s, x, now);
    case AckOfRequest(_, ty) => StepOnAckOfRequest(s, x, ty, now);
    case Complete(_) =>
      TouchSetOn(s, x, Initiator, DataOf(e.kind), UlpCompletionTx, now, e.(toComplete := false));
      var s1 := SetEnv(Touch(s, x, Initiator, DataOf(e.kind), UlpCompletionTx, now).value, x, e.(toComplete := false));
      FinishOn(s, s1, x);
      FinishEnv(s1, x, Initiator);
  }

  lemma StepOnTransmit(s: System, x: Name, now: int)
    requires Enabled(s, Transmit(x)) && Next(s, Transmit(x), now).Some?
    ensures StepsTo(s, Next(s, Transmit(x), now).value, x, Transmitted(s.env[x], s.env[x].work.ty))
  {
    hide Touch, StepsOn, End;
    var e := s.env[x];
    TouchSetOn(s, x, LocationOf(e.work.ty, false), e.work.ty, NtwkTx, now, Transmitted(e, e.work.ty));
  }

  lemma StepOnHandToUlp(s: System, x: Name, now: int)
    requires Enabled(s, HandToUlp(x)) && Next(s, HandToUlp(x), now).Some?
    ensures StepsTo(s, Next(s, HandToUlp(x), now).value, x, EnvAfter(s.env[x], HandToUlp(x)))
  {
    hide Touch, StepsOn, End, Forget, Record;
    var e, e' := s.env[x], EnvAfter(s.env[x], HandToUlp(x));
    var location := LocationOf(e.work.ty, true);
    TouchSetOn(s, x, location, e.work.ty, UlpTx, now, e');
    if e.work.ty.PullData? {
      var s1 := SetEnv(Touch(s, x, location, e.work.ty, UlpTx, now).value, x, e');
      FinishOn(s, s1, x);
      FinishEnv(s1, x, Initiator);
    }
  }

  lemma StepOnAckFromUlp(s: System, x: Name, now: int)
    requires Enabled(s, AckFromUlp(x)) && Next(s, AckFromUlp(x), now).Some?
    ensures StepsTo(s, Next(s, AckFromUlp(x), now).value, x, UlpAcked(s.env[x]))
  {
    hide Touch, StepsOn, End, Forget;
    var e := s.env[x];
    TouchSetOn(s, x, Target, UlpPacketOf(e.kind), UlpAckRx, now, UlpAcked(e));
    var s1 := SetEnv(Touch(s, x, Target, UlpPacketOf(e.kind), UlpAckRx, now).value, x, UlpAcked(e));
    ForgetOn(s, s1, x, Target);
    FinishEnv(s1, x, Target);
  }

  lemma StepOnRespond(s: System, x: Name, now: int)
    requires Enabled(s, Respond(x)) && Next(s, Respond(x), now).Some?
    ensures StepsTo(s, Next(s, Respond(x), now).value, x, s.env[x].(work := Queued(PullData)))
  {
    hide StepsOn, End, Update;
    TouchSetOn(s, x, Target, PullData, UlpRx, now, s.env[x].(work := Queued(PullData)));
  }

  lemma StepOnAckOfData(s: System, x: Name, now: int)
    requires Enabled(s, AckOfData(x)) && Next(s, AckOfData(x), now).Some?
    ensures StepsTo(s, Next(s, AckOfData(x), now).value, x, DataAcked(s.env[x]))
  {
    hide Touch, StepsOn, End, Forget;
    var e := s.env[x];
    var ty := DataOf(e.kind);
    TouchSetOn(s, x, LocationOf(ty, false), ty, NtwkAckRx, now, DataAcked(e));
    var s1 := SetEnv(Touch(s, x, LocationOf(ty, false), ty, NtwkAckRx, now).value, x, DataAcked(e));
    ForgetOn(s, s1, x, Target);
    FinishEnv(s1, x, Target);
  }

  lemma StepOnAckOfRequest(s: System, x: Name, ty: PacketType, now: int)
    requires Enabled(s, AckOfRequest(x, ty)) && Next(s, AckOfRequest(x, ty), now).Some?
    ensures StepsTo(s, Next(s, AckOfRequest(x, ty), now).value, x, Close(s.env[x], ty))
  {
    hide Touch, StepsOn, End;
    TouchSetOn(s, x, LocationOf(ty, false), ty, NtwkAckRx, now, Close(s.env[x], ty));
  }

  // ---- every run ----------------------------------------------------------------------------

  // A submitted request has a transaction of the right kind.
  ghost predicate Opened(s: System, x: Name, r: Request) { x in s.env && Suits(s.env[x].kind, r) }

  lemma StepKinds(s: System, step: Step, now: int, x: Name)
    requires Inv(s) && Enabled(s, step) && Next(s, step, now).Some? && x in s.env
    ensures x in Next(s, step, now).value.env && Next(s, step, now).value.env[x].kind == s.env[x].kind
  {
    hide EnvAfter;
    if step.Submit? {
      SubmitOpens(s, step.h, step.op, step.threshold, now);
    } else {
      StepOn(s, step, now);
      hide Next, Inv, Enabled;
    }
  }

  lemma {:induction false} RunKinds(s: System, run: Run, x: Name)
    requires Inv(s) && Legal(Some(s), run) && x in s.env && After(Some(s), run).Some?
    ensures x in After(Some(s), run).value.env && After(Some(s), run).value.env[x].kind == s.env[x].kind
    decreases run
  {
    match run
    case Done =>
    case Then(step, now, rest) =>
      Keeps(s, step, now);
      StepKinds(s, step, now, x);
      hide Inv, Next, Enabled;
      RunKinds(Next(s, step, now).value, rest, x);
  }

  lemma StepRsn(s: System, step: Step, now: int, h: Host)
    requires Inv(s) && Enabled(s, step) && Next(s, step, now).Some?
    ensures Next(s, step, now).value.At(h).nextRsn == s.At(h).nextRsn + if step.Submit? && step.h == h then 1 else 0
  {
    if step.Submit? {
      SubmitEnds(s, step.h, step.op, step.threshold, now);
    } else {
      hide EnvAfter;
      StepOn(s, step, now);
      hide Next, Inv, Enabled, OnlyTouches;
    }
  }

  lemma {:induction false} RunRsn(s: System, run: Run, h: Host)
    requires Inv(s) && Legal(Some(s), run) && After(Some(s), run).Some?
    ensures After(Some(s), run).value.At(h).nextRsn == s.At(h).nextRsn + |Submitted(run, h)|
    decreases run
  {
    match run
    case Done =>
    case Then(step, now, rest) =>
      Keeps(s, step, now);
      StepRsn(s, step, now, h);
      hide Inv, Next, Enabled;
      RunRsn(Next(s, step, now).value, rest, h);
  }

  lemma StepOpens(s: System, step: Step, now: int)
    requires Inv(s) && Enabled(s, step) && Next(s, step, now).Some? && step.Submit?
    ensures Opened(Next(s, step, now).value, Name(step.h, s.At(step.h).nextRsn), Request(step.op, step.threshold))
  {
    SubmitOpens(s, step.h, step.op, step.threshold, now);
    hide Next, Inv;
  }

  lemma RunOpened(s: System, run: Run, x: Name, r: Request)
    requires Inv(s) && Legal(Some(s), run) && After(Some(s), run).Some? && Opened(s, x, r)
    ensures Opened(After(Some(s), run).value, x, r)
  {
    RunKinds(s, run, x);
    hide After, Legal, Inv;
  }

  // The i-th request of a host opens the transaction with the i-th RSN, of the kind it
  // asks for.
  lemma {:induction false} RunOpens(s: System, run: Run, h: Host, i: nat)
    requires Inv(s) && Legal(Some(s), run) && After(Some(s), run).Some? && i < |Submitted(run, h)|
    ensures Opened(After(Some(s), run).value, Name(h, s.At(h).nextRsn + i), Submitted(run, h)[i])
    decreases run
  {
    hide Inv, Next, Enabled, Opened, Submitted, After, Legal;
    SubmittedAt(run, h, i);
    RunFirst(s, run);
    var step, now, rest := run.step, run.now, run.rest;
    var s1 := Next(s, step, now).value;
    StepRsn(s, step, now, h);
    if step.Submit? && step.h == h {
      if i == 0 {
        StepOpens(s, step, now);
        RunOpened(s1, rest, Name(h, s.At(h).nextRsn), Request(step.op, step.threshold));
      } else {
        RunOpens(s1, rest, h, i - 1);
      }
    } else {
      RunOpens(s1, rest, h, i);
    }
  }

  lemma RunFirst(s: System, run: Run)
    requires Inv(s) && Legal(Some(s), run) && run.Then?
    ensures Enabled(s, run.step) && Next(s, run.step, run.now).Some?
    ensures var s1 := Next(s, run.step, run.now);
            Inv(s1.value) && Legal(s1, run.rest) && After(Some(s), run) == After(s1, run.rest)
  {
    hide Inv, Next, Enabled;
    assert Enabled(s, run.step);
    Keeps(s, run.step, run.now);
  }

  lemma SubmittedAt(run: Run, h: Host, i: nat)
    requires i < |Submitted(run, h)|
    ensures run.Then?
    ensures if run.step.Submit? && run.step.h == h then
              if i == 0 then Submitted(run, h)[i] == Request(run.step.op, run.step.threshold)
              else i - 1 < |Submitted(run.rest, h)| && Submitted(run, h)[i] == Submitted(run.rest, h)[i - 1]
            else i < |Submitted(run.rest, h)| && Submitted(run, h)[i] == Submitted(run.rest, h)[i]
  {
  }

  lemma StepLogged(s: System, step: Step, now: int)
    requires Inv(s) && Logged(s) && Enabled(s, step) && Next(s, step, now).Some?
    ensures Logged(Next(s, step, now).value)
  {
    var s' := Next(s, step, now).value;
    if step.Submit? {
      SubmitEnds(s, step.h, step.op, step.threshold, now);
      SubmitOpens(s, step.h, step.op, step.threshold, now);
      hide Next, Inv, Enabled, End;
    } else {
      StepOn(s, step, now);
      hide Next, Inv, Enabled, EnvAfter, End;
      LoggedOn(s, s', step.x);
    }
  }

  lemma LoggedOn(s: System, s': System, x: Name)
    requires Logged(s) && StepsOn(s, s', x)
    ensures Logged(s')
  {
    hide End;
    forall k | 0 <= k < |s'.completed|
      ensures var f := s'.completed[k];
              f.name in s'.env && f.kind == s'.env[f.name].kind && End(s', f.name, Initiator).None?
    {
      if k < |s.completed| {
        assert s'.completed[k] == s.completed[k];
      }
    }
    forall j, k | 0 <= j < k < |s'.completed|
      ensures s'.completed[j].name != s'.completed[k].name
    {
      assert s'.completed[j] == s.completed[j];
      if k < |s.completed| {
        assert s'.completed[k] == s.completed[k];
      }
    }
  }

  lemma {:induction false} RunLogged(s: System, run: Run)
    requires Inv(s) && Logged(s) && Legal(Some(s), run) && After(Some(s), run).Some?
    ensures Logged(After(Some(s), run).value)
    decreases run
  {
    match run
    case Done =>
    case Then(step, now, rest) =>
      Keeps(s, step, now);
      StepLogged(s, step, now);
      hide Inv, Next, Enabled, Logged;
      RunLogged(Next(s, step, now).value, rest);
  }

  // In every run of two hosts, the i-th request a host submits opens the transaction with
  // the i-th RSN: a pull if it is a read, a solicited push if it is a write at or above
  // the threshold, and else an unsolicited one. It finishes at most once, and then after
  // five stages if it is such a write and after three if not.
  lemma RequestsServed(run: Run, h: Host, i: nat)
    requires Legal(Some(Boot), run) && i < |Submitted(run, h)|
    ensures After(Some(Boot), run).Some?
    ensures var s, x, r := After(Some(Boot), run).value, Name(h, i), Submitted(run, h)[i];
            && x in s.env
            && (s.env[x].kind.Pull? <==> r.op.ReadRequest?)
            && (s.env[x].kind.PushSolicited? <==> r.op.WriteOrSend? && r.op.length >= r.threshold)
            && (forall k :: 0 <= k < |s.completed| && s.completed[k].name == x ==>
                  |s.completed[k].txn.stages| == if r.op.WriteOrSend? && r.op.length >= r.threshold then 5 else 3)
            && (forall j, k :: 0 <= j < k < |s.completed| ==> s.completed[j].name != s.completed[k].name)
  {
    hide After, Legal, Submitted, Inv, End;
    BootInv();
    RunsKeepInv(Boot, run);
    RunOpens(Boot, run, h, i);
    RunLogged(Boot, run);
    var s := After(Some(Boot), run).value;
    forall k | 0 <= k < |s.completed|
      ensures |s.completed[k].txn.stages| == if s.completed[k].kind.PushSolicited? then 5 else 3
    {
      StagesOf(s, k);
    }
  }

  lemma StagesOf(s: System, k: nat)
    requires Inv(s) && k < |s.completed|
    ensures |s.completed[k].txn.stages| == if s.completed[k].kind.PushSolicited? then 5 else 3
  {
    hide GoodAt, End;
    assert Accounted(s.completed[k].kind, s.completed[k].txn);
  }

  // And there are no other transactions.
  lemma OnlyRequests(run: Run, x: Name)
    requires Legal(Some(Boot), run)
    ensures After(Some(Boot), run).Some?
    ensures x in After(Some(Boot), run).value.env <==> x.rsn < |Submitted(run, x.initiator)|
  {
    BootInv();
    RunsKeepInv(Boot, run);
    RunRsn(Boot, run, x.initiator);
    hide After, Legal, Submitted, GoodAt, End;
  }

  // ---- grants ------------------------------------------------------------------------------------

  // The grant of a transaction was delivered in the run.
  ghost predicate Granted(s: Option<System>, run: Run, x: Name)
    requires Legal(s, run)
    decreases run
  {
    match run
    case Done => false
    case Then(step, now, rest) =>
      s.Some? &&
      (|| (step.Deliver? && step.x == x && s.value.env[x].work == InFlight(PushGrant))
       || Granted(Next(s.value, step, now), rest, x))
  }

  // None of its data is under way: its request or its grant is.
  predicate Waiting(e: Env) {
    && !e.unacked && !e.toComplete
    && e.work in {Queued(PushRequest), InFlight(PushRequest), Queued(PushGrant), InFlight(PushGrant)}
  }

  ghost predicate Held(s: System, x: Name) { x in s.env && s.env[x].kind.PushSolicited? ==> Waiting(s.env[x]) }

  lemma StepHeld(s: System, step: Step, now: int, x: Name)
    requires Inv(s) && Enabled(s, step) && Next(s, step, now).Some? && Held(s, x)
    requires !(step.Deliver? && step.x == x && s.env[x].work == InFlight(PushGrant))
    ensures Held(Next(s, step, now).value, x)
  {
    hide Next, Inv, End;
    if step.Submit? {
      SubmitOpens(s, step.h, step.op, step.threshold, now);
    } else {
      StepOn(s, step, now);
    }
  }

  lemma {:induction false} RunHeld(s: System, run: Run, x: Name)
    requires Inv(s) && Legal(Some(s), run) && Held(s, x) && After(Some(s), run).Some?
    ensures Granted(Some(s), run, x) || Held(After(Some(s), run).value, x)
    decreases run
  {
    match run
    case Done =>
    case Then(step, now, rest) =>
      Keeps(s, step, now);
      if !(step.Deliver? && step.x == x && s.env[x].work == InFlight(PushGrant)) {
        StepHeld(s, step, now, x);
        hide Inv, Next, Enabled, Held;
        RunHeld(Next(s, step, now).value, rest, x);
      }
  }

  // In every run, until its grant was delivered a write at or above the threshold has only
  // its request or its grant under way, and none of its data, and it is not finished.
  lemma DataWaitsForGrant(run: Run, h: Host, i: nat)
    requires Legal(Some(Boot), run) && i < |Submitted(run, h)|
    requires Submitted(run, h)[i].op.WriteOrSend? && Submitted(run, h)[i].op.length >= Submitted(run, h)[i].threshold
    requires !Granted(Some(Boot), run, Name(h, i))
    ensures After(Some(Boot), run).Some? && Name(h, i) in After(Some(Boot), run).value.env
    ensures var s, x := After(Some(Boot), run).value, Name(h, i);
            Waiting(s.env[x]) && End(s, x, Initiator).Some?
  {
    BootInv();
    RunsKeepInv(Boot, run);
    RequestsServed(run, h, i);
    RunHeld(Boot, run, Name(h, i));
    var s, x := After(Some(Boot), run).value, Name(h, i);
    InvAt(s, x);
    hide After, Legal, Granted, Submitted, Inv;
    HeldKnown(End(s, x, Initiator), End(s, x, Target), s.env[x]);
  }

  lemma HeldKnown(i: Option<Txn>, t: Option<Txn>, e: Env)
    requires Good(i, t, e) && e.kind.PushSolicited? && Waiting(e)
    ensures i.Some?
  {
    hide Telescopes, EffectOf;
  }
}
