// The life of one Falcon transaction: the state changes, timestamps and
// latency samples of TransactionMetadata::UpdateState.
module FalconTransaction {
  import opened Common

  datatype PacketType =
    | PullRequest | PullData
    | PushRequest | PushGrant | PushSolicitedData | PushUnsolicitedData
    | Resync | Ack | Nack | Back | Eack | Invalid

  datatype Stage =
    | UlpRx | UlpTx | UlpAckRx | UlpCompletionTx
    | NtwkRx | NtwkTx | NtwkAckRx | UlpRnrRx

  // The state of a transaction is the packet type and stage that last moved it.
  datatype State = Created | At(ty: PacketType, stage: Stage)

  const PullReqUlpRx := At(PullRequest, UlpRx)
  const PullDataUlpRx := At(PullData, UlpRx)
  const PushSolicitedReqUlpRx := At(PushRequest, UlpRx)
  const PushUnsolicitedReqUlpRx := At(PushUnsolicitedData, UlpRx)
  const PullReqUlpTx := At(PullRequest, UlpTx)
  const PullDataUlpTx := At(PullData, UlpTx)
  const PushSolicitedDataUlpTx := At(PushSolicitedData, UlpTx)
  const PushUnsolicitedDataUlpTx := At(PushUnsolicitedData, UlpTx)
  const PushCompletionUlpTx := At(PushSolicitedData, UlpCompletionTx)
  const PullReqAckUlpRx := At(PullRequest, UlpAckRx)
  const PushSolicitedDataAckUlpRx := At(PushSolicitedData, UlpAckRx)
  const PushUnsolicitedDataAckUlpRx := At(PushUnsolicitedData, UlpAckRx)
  const PullReqRnrUlpRx := At(PullRequest, UlpRnrRx)
  const PushSolicitedDataRnrUlpRx := At(PushSolicitedData, UlpRnrRx)
  const PushUnsolicitedDataRnrUlpRx := At(PushUnsolicitedData, UlpRnrRx)
  const PullReqNtwkRx := At(PullRequest, NtwkRx)
  const PullDataNtwkRx := At(PullData, NtwkRx)
  const PushReqNtwkRx := At(PushRequest, NtwkRx)
  const PushGrantNtwkRx := At(PushGrant, NtwkRx)
  const PushSolicitedDataNtwkRx := At(PushSolicitedData, NtwkRx)
  const PushUnsolicitedDataNtwkRx := At(PushUnsolicitedData, NtwkRx)
  const PullReqNtwkTx := At(PullRequest, NtwkTx)
  const PullDataNtwkTx := At(PullData, NtwkTx)
  const PushReqNtwkTx := At(PushRequest, NtwkTx)
  const PushGrantNtwkTx := At(PushGrant, NtwkTx)
  const PushSolicitedDataNtwkTx := At(PushSolicitedData, NtwkTx)
  const PushUnsolicitedDataNtwkTx := At(PushUnsolicitedData, NtwkTx)
  const PullDataAckNtwkRx := At(PullData, NtwkAckRx)
  const PushSolicitedDataAckNtwkRx := At(PushSolicitedData, NtwkAckRx)
  const PushUnsolicitedDataAckNtwkRx := At(PushUnsolicitedData, NtwkAckRx)

  // What one packet type and stage do to the state: a failed CHECK or LOG(FATAL),
  // no change at all (ACKs of requests and grants), or a move. A move may set the
  // start timestamp, add a stage latency, and add the total latency.
  datatype Effect =
    | Crash
    | Stay
    | Move(next: State, starts: bool, sampled: bool, completes: bool)

  function Start(next: State): Effect { Move(next, true, false, false) }
  function Enter(next: State): Effect { Move(next, false, false, false) }
  function Sample(ok: bool, next: State): Effect { if ok then Move(next, false, true, false) else Crash }
  function Finish(ok: bool, next: State): Effect { if ok then Move(next, false, true, true) else Crash }
  function Rnr(ok: bool, next: State): Effect { if ok then Enter(next) else Crash }

  function EffectOf(ty: PacketType, stage: Stage, s: State): Effect {
    match (ty, stage)
    case (PullRequest, UlpRx) => Start(PullReqUlpRx)
    case (PullRequest, UlpTx) => Sample(s == PullReqNtwkRx || s == PullReqRnrUlpRx, PullReqUlpTx)
    case (PullRequest, UlpAckRx) => Sample(s == PullReqUlpTx, PullReqAckUlpRx)
    case (PullRequest, NtwkRx) => Enter(PullReqNtwkRx)
    case (PullRequest, NtwkTx) => Sample(s == PullReqUlpRx, PullReqNtwkTx)
    case (PullRequest, NtwkAckRx) => Stay
    case (PullRequest, UlpRnrRx) => Rnr(s == PullReqUlpTx || s == PullReqNtwkRx, PullReqRnrUlpRx)

    case (PullData, UlpRx) => Sample(s == PullReqAckUlpRx, PullDataUlpRx)
    case (PullData, UlpTx) => Finish(s == PullDataNtwkRx, PullDataUlpTx)
    case (PullData, NtwkRx) => Sample(s == PullReqNtwkTx, PullDataNtwkRx)
    case (PullData, NtwkTx) => Sample(s == PullDataUlpRx, PullDataNtwkTx)
    case (PullData, NtwkAckRx) => Sample(s == PullDataNtwkTx, PullDataAckNtwkRx)

    case (PushRequest, UlpRx) => Start(PushSolicitedReqUlpRx)
    case (PushRequest, NtwkRx) => Enter(PushReqNtwkRx)
    case (PushRequest, NtwkTx) => Sample(s == PushSolicitedReqUlpRx, PushReqNtwkTx)
    case (PushRequest, NtwkAckRx) => Stay

    case (PushGrant, NtwkRx) => Sample(s == PushReqNtwkTx, PushGrantNtwkRx)
    case (PushGrant, NtwkTx) => Sample(s == PushReqNtwkRx, PushGrantNtwkTx)
    case (PushGrant, NtwkAckRx) => Stay

    case (PushSolicitedData, UlpTx) =>
      Sample(s == PushSolicitedDataNtwkRx || s == PushSolicitedDataRnrUlpRx, PushSolicitedDataUlpTx)
    case (PushSolicitedData, UlpAckRx) => Sample(s == PushSolicitedDataUlpTx, PushSolicitedDataAckUlpRx)
    case (PushSolicitedData, UlpCompletionTx) => Finish(s == PushSolicitedDataAckNtwkRx, PushCompletionUlpTx)
    case (PushSolicitedData, NtwkRx) => Sample(s == PushGrantNtwkTx, PushSolicitedDataNtwkRx)
    case (PushSolicitedData, NtwkTx) => Sample(s == PushGrantNtwkRx, PushSolicitedDataNtwkTx)
    case (PushSolicitedData, NtwkAckRx) => Sample(s == PushSolicitedDataNtwkTx, PushSolicitedDataAckNtwkRx)
    case (PushSolicitedData, UlpRnrRx) =>
      Rnr(s == PushSolicitedDataUlpTx || s == PushSolicitedDataNtwkRx, PushSolicitedDataRnrUlpRx)

    case (PushUnsolicitedData, UlpRx) => Start(PushUnsolicitedReqUlpRx)
    case (PushUnsolicitedData, UlpTx) =>
      Sample(s == PushUnsolicitedDataNtwkRx || s == PushUnsolicitedDataRnrUlpRx, PushUnsolicitedDataUlpTx)
    case (PushUnsolicitedData, UlpAckRx) => Sample(s == PushUnsolicitedDataUlpTx, PushUnsolicitedDataAckUlpRx)
    case (PushUnsolicitedData, UlpCompletionTx) => Finish(s == PushUnsolicitedDataAckNtwkRx, PushCompletionUlpTx)
    case (PushUnsolicitedData, NtwkRx) => Enter(PushUnsolicitedDataNtwkRx)
    case (PushUnsolicitedData, NtwkTx) => Sample(s == PushUnsolicitedReqUlpRx, PushUnsolicitedDataNtwkTx)
    case (PushUnsolicitedData, NtwkAckRx) => Sample(s == PushUnsolicitedDataNtwkTx, PushUnsolicitedDataAckNtwkRx)
    case (PushUnsolicitedData, UlpRnrRx) =>
      Rnr(s == PushUnsolicitedDataUlpTx || s == PushUnsolicitedDataNtwkRx, PushUnsolicitedDataRnrUlpRx)

    case _ => Crash
  }

  // A transaction as a value. `stages` holds the stage latencies it contributed to
  // the histograms and `total` its total latency, in nanoseconds.
  datatype Txn = Txn(state: State, start: int, last: int, stages: seq<int>, total: Option<int>)

  const FreshTxn := Txn(Created, 0, 0, [], None)

  function Sum(s: seq<int>): int {
    if s == [] then 0 else Sum(s[..|s| - 1]) + s[|s| - 1]
  }

  lemma SumAppend(s: seq<int>, x: int)
    ensures Sum(s + [x]) == Sum(s) + x
  {
    assert (s + [x])[..|s|] == s;
  }

  function Apply(t: Txn, e: Effect, now: int): (r: Txn)
    requires !e.Crash?
  {
    match e
    case Stay => t
    case Move(next, starts, sampled, completes) =>
      var start := if starts then now else t.start;
      Txn(next, start, now,
          if sampled then t.stages + [now - t.last] else t.stages,
          if completes then Some(now - start) else t.total)
  }

  function Update(t: Txn, ty: PacketType, stage: Stage, now: int): (r: Option<Txn>) {
    var e := EffectOf(ty, stage, t.state);
    if e.Crash? then None else Some(Apply(t, e, now))
  }

  // TransactionMetadata with its fields updated in place.
  class TransactionMetadata {
    var state: State
    var transactionStartTimestamp: int
    var lastStateUpdateTimestamp: int
    var stages: seq<int>
    var total: Option<int>

    constructor ()
      ensures View() == FreshTxn
    {
      state, transactionStartTimestamp, lastStateUpdateTimestamp := Created, 0, 0;
      stages, total := [], None;
    }

    function View(): Txn
      reads this
    {
      Txn(state, transactionStartTimestamp, lastStateUpdateTimestamp, stages, total)
    }

    // Guards a move by the CHECK on the current state.
    method Move(check: bool, next: State, latency: int) returns (ok: bool)
      modifies this`state, this`stages
      ensures ok == check
      ensures ok ==> state == next && stages == old(stages) + [latency]
      ensures !ok ==> state == old(state) && stages == old(stages)
    {
      if check {
        state := next;
        stages := stages + [latency];
      }
      ok := check;
    }

    ghost predicate Follows(was: Txn, ok: bool, ty: PacketType, stage: Stage, now: int)
      reads this
    {
      var r := Update(was, ty, stage, now);
      && ok == r.Some?
      && (ok ==> View() == r.value)
    }

    // Returns false where the source would stop on a CHECK or a LOG(FATAL).
    method UpdateState(ty: PacketType, stage: Stage, now: int) returns (ok: bool)
      modifies this
      ensures ok == Update(old(View()), ty, stage, now).Some?
      ensures ok ==> View() == Update(old(View()), ty, stage, now).value
    {
      match ty {
        case PullRequest => ok := UpdatePullRequest(stage, now);
        case PullData => ok := UpdatePullData(stage, now);
        case PushRequest => ok := UpdatePushRequest(stage, now);
        case PushGrant => ok := UpdatePushGrant(stage, now);
        case PushSolicitedData => ok := UpdatePushSolicitedData(stage, now);
        case PushUnsolicitedData => ok := UpdatePushUnsolicitedData(stage, now);
        case _ => ok := false;
      }
    }

    method UpdatePullRequest(stage: Stage, now: int) returns (ok: bool)
      modifies this
      ensures Follows(old(View()), ok, PullRequest, stage, now)
    {
      var latency := now - lastStateUpdateTimestamp;
      var isTimestampUpdateEligible := true;
      ok := true;
      match stage {
        case UlpRx => transactionStartTimestamp := now; state := PullReqUlpRx;
        case UlpTx => ok := Move(state == PullReqNtwkRx || state == PullReqRnrUlpRx, PullReqUlpTx, latency);
        case UlpAckRx => ok := Move(state == PullReqUlpTx, PullReqAckUlpRx, latency);
        case UlpCompletionTx => ok := false;
        case NtwkRx => state := PullReqNtwkRx;
        case NtwkTx => ok := Move(state == PullReqUlpRx, PullReqNtwkTx, latency);
        case NtwkAckRx => isTimestampUpdateEligible := false;
        case UlpRnrRx =>
          ok := state == PullReqUlpTx || state == PullReqNtwkRx;
          if ok { state := PullReqRnrUlpRx; }
      }
      if ok && isTimestampUpdateEligible {
        lastStateUpdateTimestamp := now;
      }
    }

    method UpdatePullData(stage: Stage, now: int) returns (ok: bool)
      modifies this
      ensures Follows(old(View()), ok, PullData, stage, now)
    {
      var latency := now - lastStateUpdateTimestamp;
      ok := true;
      match stage {
        case UlpRx => ok := Move(state == PullReqAckUlpRx, PullDataUlpRx, latency);
        case UlpTx =>
          ok := Move(state == PullDataNtwkRx, PullDataUlpTx, latency);
          if ok { total := Some(now - transactionStartTimestamp); }
        case NtwkRx => ok := Move(state == PullReqNtwkTx, PullDataNtwkRx, latency);
        case NtwkTx => ok := Move(state == PullDataUlpRx, PullDataNtwkTx, latency);
        case NtwkAckRx => ok := Move(state == PullDataNtwkTx, PullDataAckNtwkRx, latency);
        case _ => ok := false;
      }
      if ok {
        lastStateUpdateTimestamp := now;
      }
    }

    method UpdatePushRequest(stage: Stage, now: int) returns (ok: bool)
      modifies this
      ensures Follows(old(View()), ok, PushRequest, stage, now)
    {
      var latency := now - lastStateUpdateTimestamp;
      var isTimestampUpdateEligible := true;
      ok := true;
      match stage {
        case UlpRx => transactionStartTimestamp := now; state := PushSolicitedReqUlpRx;
        case NtwkRx => state := PushReqNtwkRx;
        case NtwkTx => ok := Move(state == PushSolicitedReqUlpRx, PushReqNtwkTx, latency);
        case NtwkAckRx => isTimestampUpdateEligible := false;
        case _ => ok := false;
      }
      if ok && isTimestampUpdateEligible {
        lastStateUpdateTimestamp := now;
      }
    }

    method UpdatePushGrant(stage: Stage, now: int) returns (ok: bool)
      modifies this
      ensures Follows(old(View()), ok, PushGrant, stage, now)
    {
      var latency := now - lastStateUpdateTimestamp;
      var isTimestampUpdateEligible := true;
      ok := true;
      match stage {
        case NtwkRx => ok := Move(state == PushReqNtwkTx, PushGrantNtwkRx, latency);
        case NtwkTx => ok := Move(state == PushReqNtwkRx, PushGrantNtwkTx, latency);
        case NtwkAckRx => isTimestampUpdateEligible := false;
        case _ => ok := false;
      }
      if ok && isTimestampUpdateEligible {
        lastStateUpdateTimestamp := now;
      }
    }

    method UpdatePushSolicitedData(stage: Stage, now: int) returns (ok: bool)
      modifies this
      ensures Follows(old(View()), ok, PushSolicitedData, stage, now)
    {
      var latency := now - lastStateUpdateTimestamp;
      ok := true;
      match stage {
        case UlpRx => ok := false;
        case UlpTx =>
          ok := Move(state == PushSolicitedDataNtwkRx || state == PushSolicitedDataRnrUlpRx,
                     PushSolicitedDataUlpTx, latency);
        case UlpAckRx => ok := Move(state == PushSolicitedDataUlpTx, PushSolicitedDataAckUlpRx, latency);
        case UlpCompletionTx =>
          ok := Move(state == PushSolicitedDataAckNtwkRx, PushCompletionUlpTx, latency);
          if ok { total := Some(now - transactionStartTimestamp); }
        case NtwkRx => ok := Move(state == PushGrantNtwkTx, PushSolicitedDataNtwkRx, latency);
        case NtwkTx => ok := Move(state == PushGrantNtwkRx, PushSolicitedDataNtwkTx, latency);
        case NtwkAckRx => ok := Move(state == PushSolicitedDataNtwkTx, PushSolicitedDataAckNtwkRx, latency);
        case UlpRnrRx =>
          ok := state == PushSolicitedDataUlpTx || state == PushSolicitedDataNtwkRx;
          if ok { state := PushSolicitedDataRnrUlpRx; }
      }
      if ok {
        lastStateUpdateTimestamp := now;
      }
    }

    method UpdatePushUnsolicitedData(stage: Stage, now: int) returns (ok: bool)
      modifies this
      ensures Follows(old(View()), ok, PushUnsolicitedData, stage, now)
    {
      var latency := now - lastStateUpdateTimestamp;
      ok := true;
      match stage {
        case UlpRx => transactionStartTimestamp := now; state := PushUnsolicitedReqUlpRx;
        case UlpTx =>
          ok := Move(state == PushUnsolicitedDataNtwkRx || state == PushUnsolicitedDataRnrUlpRx,
                     PushUnsolicitedDataUlpTx, latency);
        case UlpAckRx => ok := Move(state == PushUnsolicitedDataUlpTx, PushUnsolicitedDataAckUlpRx, latency);
        case UlpCompletionTx =>
          ok := Move(state == PushUnsolicitedDataAckNtwkRx, PushCompletionUlpTx, latency);
          if ok { total := Some(now - transactionStartTimestamp); }
        case NtwkRx => state := PushUnsolicitedDataNtwkRx;
        case NtwkTx => ok := Move(state == PushUnsolicitedReqUlpRx, PushUnsolicitedDataNtwkTx, latency);
        case NtwkAckRx => ok := Move(state == PushUnsolicitedDataNtwkTx, PushUnsolicitedDataAckNtwkRx, latency);
        case UlpRnrRx =>
          ok := state == PushUnsolicitedDataUlpTx || state == PushUnsolicitedDataNtwkRx;
          if ok { state := PushUnsolicitedDataRnrUlpRx; }
      }
      if ok {
        lastStateUpdateTimestamp := now;
      }
    }
  }
}
