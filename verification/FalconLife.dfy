// The lives of a Falcon transaction: each kind runs through a fixed chain of stages at its
// initiator and another at its target, and the CHECKs of UpdateState let through exactly
// the next one.
module FalconLife {
  import opened Common
  import opened FalconTransaction
  import opened FalconProtocol

  datatype Place = Place(kind: Kind, location: Location, step: nat)

  // Where on its chain a packet at a stage puts a transaction. A receiver-not-ready (RNR)
  // NACK puts it back to where its packet had just come in.
  function PlaceOf(ty: PacketType, stage: Stage): Option<Place> {
    match ty
    case PullRequest => (
      match stage
      case UlpRx => Some(Place(Pull, Initiator, 0))
      case NtwkTx => Some(Place(Pull, Initiator, 1))
      case NtwkRx => Some(Place(Pull, Target, 0))
      case UlpRnrRx => Some(Place(Pull, Target, 0))
      case UlpTx => Some(Place(Pull, Target, 1))
      case UlpAckRx => Some(Place(Pull, Target, 2))
      case _ => None)
    case PullData => (
      match stage
      case NtwkRx => Some(Place(Pull, Initiator, 2))
      case UlpTx => Some(Place(Pull, Initiator, 3))
      case UlpRx => Some(Place(Pull, Target, 3))
      case NtwkTx => Some(Place(Pull, Target, 4))
      case NtwkAckRx => Some(Place(Pull, Target, 5))
      case _ => None)
    case PushRequest => (
      match stage
      case UlpRx => Some(Place(PushSolicited, Initiator, 0))
      case NtwkTx => Some(Place(PushSolicited, Initiator, 1))
      case NtwkRx => Some(Place(PushSolicited, Target, 0))
      case _ => None)
    case PushGrant => (
      match stage
      case NtwkRx => Some(Place(PushSolicited, Initiator, 2))
      case NtwkTx => Some(Place(PushSolicited, Target, 1))
      case _ => None)
    case PushSolicitedData => (
      match stage
      case NtwkTx => Some(Place(PushSolicited, Initiator, 3))
      case NtwkAckRx => Some(Place(PushSolicited, Initiator, 4))
      case UlpCompletionTx => Some(Place(PushSolicited, Initiator, 5))
      case NtwkRx => Some(Place(PushSolicited, Target, 2))
      case UlpRnrRx => Some(Place(PushSolicited, Target, 2))
      case UlpTx => Some(Place(PushSolicited, Target, 3))
      case UlpAckRx => Some(Place(PushSolicited, Target, 4))
      case _ => None)
    case PushUnsolicitedData => (
      match stage
      case UlpRx => Some(Place(PushUnsolicited, Initiator, 0))
      case NtwkTx => Some(Place(PushUnsolicited, Initiator, 1))
      case NtwkAckRx => Some(Place(PushUnsolicited, Initiator, 2))
      case UlpCompletionTx => Some(Place(PushUnsolicited, Initiator, 3))
      case NtwkRx => Some(Place(PushUnsolicited, Target, 0))
      case UlpRnrRx => Some(Place(PushUnsolicited, Target, 0))
      case UlpTx => Some(Place(PushUnsolicited, Target, 1))
      case UlpAckRx => Some(Place(PushUnsolicited, Target, 2)))
    case _ => None
  }

  // The place of a transaction. Once completed it has none: both kinds of push end in the
  // same state.
  function PlaceIn(s: State): Option<Place> {
    if s.Created? || s == PushCompletionUlpTx then None else PlaceOf(s.ty, s.stage)
  }

  // The last stage of an initiator's chain.
  function Last(k: Kind): nat { if k.PushSolicited? then 5 else 3 }

  // ACKs of requests and grants.
  predicate IsPlainAck(ty: PacketType, stage: Stage) {
    stage.NtwkAckRx? && (ty.PullRequest? || ty.PushRequest? || ty.PushGrant?)
  }

  // What an update does: an ACK of a request or grant nothing; the first stage of a chain
  // always opens it; an RNR NACK takes a transaction back that is with the ULP or about to
  // be; and any other stage is let through exactly if the transaction is one stage before.
  function Prescribed(ty: PacketType, stage: Stage, s: State): Effect {
    var p, q := PlaceOf(ty, stage), PlaceIn(s);
    if IsPlainAck(ty, stage) then Stay
    else if p.None? then Crash
    else if stage.UlpRnrRx? then
      if q.Some? && !s.stage.UlpRnrRx? && (q == p || q == Some(p.value.(step := p.value.step + 1)))
      then Move(At(ty, stage), false, false, false) else Crash
    else if p.value.step == 0 then Move(At(ty, stage), p.value.location.Initiator?, false, false)
    else if q != Some(p.value.(step := p.value.step - 1)) then Crash
    else if stage.UlpCompletionTx? then Move(PushCompletionUlpTx, false, true, true)
    else Move(At(ty, stage), false, true, p.value.location.Initiator? && p.value.step == Last(p.value.kind))
  }

  lemma ChecksExact(ty: PacketType, stage: Stage, s: State)
    ensures EffectOf(ty, stage, s) == Prescribed(ty, stage, s)
  {
    match ty
    case PullRequest => PullRequestExact(stage, s);
    case PullData => PullDataExact(stage, s);
    case PushRequest => PushRequestExact(stage, s);
    case PushGrant => PushGrantExact(stage, s);
    case PushSolicitedData => SolicitedExact(stage, s);
    case PushUnsolicitedData => UnsolicitedExact(stage, s);
    case _ =>
  }

  lemma PullRequestExact(stage: Stage, s: State)
    ensures EffectOf(PullRequest, stage, s) == Prescribed(PullRequest, stage, s)
  {
    match stage
    case _ =>
  }

  lemma PullDataExact(stage: Stage, s: State)
    ensures EffectOf(PullData, stage, s) == Prescribed(PullData, stage, s)
  {
    match stage
    case _ =>
  }

  lemma PushRequestExact(stage: Stage, s: State)
    ensures EffectOf(PushRequest, stage, s) == Prescribed(PushRequest, stage, s)
  {
    match stage
    case _ =>
  }

  lemma PushGrantExact(stage: Stage, s: State)
    ensures EffectOf(PushGrant, stage, s) == Prescribed(PushGrant, stage, s)
  {
    match stage
    case _ =>
  }

  // Stages of pushed data at the target.
  predicate AtTarget(stage: Stage) { stage.NtwkRx? || stage.UlpRnrRx? || stage.UlpTx? || stage.UlpAckRx? }

  lemma SolicitedExact(stage: Stage, s: State)
    ensures EffectOf(PushSolicitedData, stage, s) == Prescribed(PushSolicitedData, stage, s)
  {
    if AtTarget(stage) {
      SolicitedTarget(stage, s);
    } else {
      SolicitedInitiator(stage, s);
    }
  }

  lemma SolicitedInitiator(stage: Stage, s: State)
    requires !AtTarget(stage)
    ensures EffectOf(PushSolicitedData, stage, s) == Prescribed(PushSolicitedData, stage, s)
  {
    match stage
    case _ =>
  }

  lemma SolicitedTarget(stage: Stage, s: State)
    requires AtTarget(stage)
    ensures EffectOf(PushSolicitedData, stage, s) == Prescribed(PushSolicitedData, stage, s)
  {
    match stage
    case _ =>
  }

  lemma UnsolicitedExact(stage: Stage, s: State)
    ensures EffectOf(PushUnsolicitedData, stage, s) == Prescribed(PushUnsolicitedData, stage, s)
  {
    if AtTarget(stage) {
      UnsolicitedTarget(stage, s);
    } else {
      UnsolicitedInitiator(stage, s);
    }
  }

  lemma UnsolicitedInitiator(stage: Stage, s: State)
    requires !AtTarget(stage)
    ensures EffectOf(PushUnsolicitedData, stage, s) == Prescribed(PushUnsolicitedData, stage, s)
  {
    match stage
    case _ =>
  }

  lemma UnsolicitedTarget(stage: Stage, s: State)
    requires AtTarget(stage)
    ensures EffectOf(PushUnsolicitedData, stage, s) == Prescribed(PushUnsolicitedData, stage, s)
  {
    match stage
    case _ =>
  }

  // ---- any sequence of updates ---------------------------------------------------------

  datatype Event = Event(ty: PacketType, stage: Stage, now: int)

  // A transaction after updates in any order; None once a CHECK failed.
  function After(events: seq<Event>): Option<Txn> {
    if events == [] then Some(FreshTxn)
    else
      var t, e := After(events[..|events| - 1]), events[|events| - 1];
      if t.None? then None else Update(t.value, e.ty, e.stage, e.now)
  }

  predicate IsAt(t: Option<Txn>, p: Place) { t.Some? && PlaceIn(t.value.state) == Some(p) }

  // Wherever a transaction is on its chain, it has been at every stage before.
  lemma {:induction false} NoStageSkipped(events: seq<Event>, p: Place, i: nat) returns (j: nat)
    requires IsAt(After(events), p) && i <= p.step
    ensures j <= |events| && IsAt(After(events[..j]), p.(step := i))
    decreases |events|
  {
    if i == p.step {
      assert events[..|events|] == events && p.(step := i) == p;
      return |events|;
    }
    if events == [] {
      assert false;
    }
    var front, e := events[..|events| - 1], events[|events| - 1];
    var q := CameFrom(After(front).value, e, p);
    j := NoStageSkipped(front, q, i);
    assert front[..j] == events[..j];
  }

  // Before an update that leaves it past the first stage, it was at most one stage back.
  lemma CameFrom(t: Txn, e: Event, p: Place) returns (q: Place)
    requires IsAt(Update(t, e.ty, e.stage, e.now), p) && p.step > 0
    ensures IsAt(Some(t), q) && q.kind == p.kind && q.location == p.location && p.step <= q.step + 1
  {
    ChecksExact(e.ty, e.stage, t.state);
    hide EffectOf, PlaceOf;
    var effect := EffectOf(e.ty, e.stage, t.state);
    assert effect.Move? ==> effect.next == PushCompletionUlpTx || PlaceIn(effect.next) == PlaceOf(e.ty, e.stage);
    q := PlaceIn(t.state).value;
  }

  // ---- a packet from the network --------------------------------------------------------------

  // A packet from the network is taken exactly if it is a request, or its transaction is
  // one stage before it. It then moves its own transaction only, and a request that is
  // there already keeps its record.
  lemma ArrivalExact(h: HostState, rsn: nat, ty: PacketType, now: int)
    ensures var r := FromNetwork(h, rsn, ty, now);
            var key := Key(rsn, if ty.PullData? || ty.PushGrant? then Initiator else Target);
            var was := if key in h.txns then h.txns[key] else FreshTxn;
            var p := PlaceOf(ty, NtwkRx);
            && (r.Some? <==> p.Some? && (p.value.step == 0 || IsAt(Lookup(h, key), p.value.(step := p.value.step - 1))))
            && (r.Some? ==>
                  && r.value.nextRsn == h.nextRsn && r.value.txns.Keys == h.txns.Keys + {key}
                  && (forall k :: k in h.txns && k != key ==> r.value.txns[k] == h.txns[k])
                  && r.value.txns[key].state == At(ty, NtwkRx)
                  && r.value.txns[key].start == was.start && was.stages <= r.value.txns[key].stages)
  {
    var key := Key(rsn, if ty.PullData? || ty.PushGrant? then Initiator else Target);
    ChecksExact(ty, NtwkRx, if key in h.txns then h.txns[key].state else Created);
    hide EffectOf, PlaceIn;
  }
}
