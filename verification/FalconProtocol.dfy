// Two Falcon hosts, each initiator and target at once, exchanging transactions
// over a network that delays packets at will and delivers each at most once.
module FalconProtocol {
  import opened Common
  import opened FalconTransaction

  datatype Host = A | B
  datatype Location = Initiator | Target
  datatype Key = Key(rsn: nat, location: Location)
  datatype Kind = Pull | PushSolicited | PushUnsolicited

  function Peer(h: Host): Host { if h == A then B else A }

  // GetTransactionLocation: which end of the transaction a packet belongs to.
  function LocationOf(ty: PacketType, incoming: bool): Location {
    if (ty.PullData? || ty.PushGrant?) == incoming then Initiator else Target
  }

  predicate IsTransaction(ty: PacketType) {
    (ty.PullRequest? || ty.PullData? || ty.PushRequest? || ty.PushGrant? || ty.PushSolicitedData? || ty.PushUnsolicitedData?)
  }

  // ---- one host -------------------------------------------------------------

  datatype HostState = HostState(nextRsn: nat, txns: map<Key, Txn>)

  // What the ULP hands over: an ACK or an uninitialized packet is no transaction.
  datatype UlpOp = ReadRequest | WriteOrSend(length: nat) | ReadResponse(rsn: nat) | AckOrInvalid

  predicate IsRequest(op: UlpOp) { op.ReadRequest? || op.WriteOrSend? }

  datatype FromUlpResult = Failed | Accepted(host: HostState, rsn: nat, ty: PacketType)

  function UpdateAt(h: HostState, key: Key, ty: PacketType, stage: Stage, now: int): (r: Option<HostState>) {
    if key !in h.txns then None
    else
      var t := Update(h.txns[key], ty, stage, now);
      if t.None? then None else Some(h.(txns := h.txns[key := t.value]))
  }

  function RequestType(op: UlpOp, threshold: nat): PacketType
    requires !op.AckOrInvalid?
  {
    match op
    case ReadRequest => PullRequest
    case WriteOrSend(length) => if length >= threshold then PushRequest else PushUnsolicitedData
    case ReadResponse(_) => PullData
  }

  function FromUlp(h: HostState, op: UlpOp, threshold: nat, now: int): (r: FromUlpResult) {
    if op.AckOrInvalid? then Failed
    else if op.ReadResponse? then
      var u := UpdateAt(h, Key(op.rsn, Target), PullData, UlpRx, now);
      if u.None? then Failed else Accepted(u.value, op.rsn, PullData)
    else
      var ty := RequestType(op, threshold);
      var key := Key(h.nextRsn, Initiator);
      var u := UpdateAt(HostState(h.nextRsn + 1, h.txns[key := FreshTxn]), key, ty, UlpRx, now);
      if u.None? then Failed else Accepted(u.value, h.nextRsn, ty)
  }

  predicate OpensTarget(ty: PacketType) { (ty.PullRequest? || ty.PushRequest? || ty.PushUnsolicitedData?) }

  function FromNetwork(h: HostState, rsn: nat, ty: PacketType, now: int): (r: Option<HostState>) {
    if !IsTransaction(ty) then None
    else
      var key := Key(rsn, LocationOf(ty, true));
      var h' := if OpensTarget(ty) && key !in h.txns then h.(txns := h.txns[key := FreshTxn]) else h;
      UpdateAt(h', key, ty, NtwkRx, now)
  }

  // ConnectionState, with its transaction map and RSN counter updated in place.
  class ConnectionState {
    var nextRequestSequenceNumber: nat
    var transactions: map<Key, Txn>

    constructor ()
      ensures View() == HostState(0, map[])
    {
      nextRequestSequenceNumber := 0;
      transactions := map[];
    }

    function View(): HostState
      reads this
    {
      HostState(nextRequestSequenceNumber, transactions)
    }

    method UpdateTransaction(key: Key, ty: PacketType, stage: Stage, now: int) returns (ok: bool)
      modifies this`transactions
      ensures ok == UpdateAt(old(View()), key, ty, stage, now).Some?
      ensures ok ==> View() == UpdateAt(old(View()), key, ty, stage, now).value
    {
      ok := key in transactions;
      if ok {
        var t := Update(transactions[key], ty, stage, now);
        ok := t.Some?;
        if ok {
          transactions := transactions[key := t.value];
        }
      }
    }

    method CreateOrUpdateTransactionFromUlp(op: UlpOp, solicitedWriteThreshold: nat, now: int)
      returns (ok: bool, rsn: nat, ty: PacketType)
      modifies this
      ensures var r := FromUlp(old(View()), op, solicitedWriteThreshold, now);
              ok == r.Accepted? && (ok ==> View() == r.host && rsn == r.rsn && ty == r.ty)
    {
      rsn, ty := 0, PullRequest;
      var location := Initiator;
      match op {
        case AckOrInvalid =>
          return false, rsn, ty;
        case ReadRequest =>
          ty := PullRequest;
          rsn := nextRequestSequenceNumber;
          nextRequestSequenceNumber := nextRequestSequenceNumber + 1;
        case ReadResponse(responseRsn) =>
          ty := PullData;
          rsn := responseRsn;
          location := Target;
        case WriteOrSend(length) =>
          rsn := nextRequestSequenceNumber;
          nextRequestSequenceNumber := nextRequestSequenceNumber + 1;
          ty := if length >= solicitedWriteThreshold then PushRequest else PushUnsolicitedData;
      }
      if location.Initiator? {
        transactions := transactions[Key(rsn, location) := FreshTxn];
      }
      ok := UpdateTransaction(Key(rsn, location), ty, UlpRx, now);
    }

    method CreateOrUpdateTransactionFromNetwork(rsn: nat, ty: PacketType, now: int) returns (ok: bool)
      modifies this`transactions
      ensures var r := FromNetwork(old(View()), rsn, ty, now);
              ok == r.Some? && (ok ==> View() == r.value)
    {
      if !IsTransaction(ty) {
        return false;
      }
      var key := Key(rsn, LocationOf(ty, true));
      if OpensTarget(ty) && key !in transactions {
        transactions := transactions[key := FreshTxn];
      }
      ok := UpdateTransaction(key, ty, NtwkRx, now);
    }
  }

  // ---- two hosts ------------------------------------------------------------

  // Every handler consumes the one thing it was called for and leaves at most one
  // follow-up, so a transaction has a single token of outstanding work: a packet
  // queued for transmission, on the network, or held by the receiver for its ULP; a
  // request the ULP is handling; or a read being served.
  datatype Work =
    | Idle
    | Queued(ty: PacketType)
    | InFlight(ty: PacketType)
    | ForUlp(ty: PacketType)
    | AtUlp
    | Reading

  // One transaction as its environment sees it. Beside the token: a data packet not
  // yet ACKed, a completion owed to the initiator's ULP, whether the target has
  // forgotten the transaction, and whether its request and its grant are still to be
  // ACKed.
  datatype Env = Env(kind: Kind, work: Work, unacked: bool, toComplete: bool, targetDone: bool,
                     requestOpen: bool, grantOpen: bool)

  // Transactions are named by their initiator and RSN.
  datatype Name = Name(initiator: Host, rsn: nat)

  // A transaction as its initiator left it.
  datatype Finished = Finished(name: Name, kind: Kind, txn: Txn)

  datatype System = System(a: HostState, b: HostState, env: map<Name, Env>, completed: seq<Finished>)
  {
    function At(h: Host): HostState { if h == A then a else b }
    function With(h: Host, x: HostState): System { if h == A then this.(a := x) else this.(b := x) }
  }

  datatype Step =
    | Submit(h: Host, op: UlpOp, threshold: nat)
    | Transmit(x: Name)
    | Deliver(x: Name, connectionInRnr: bool)
    | HandToUlp(x: Name)
    | AckFromUlp(x: Name)
    | RnrFromUlp(x: Name)
    | Respond(x: Name)
    | AckOfData(x: Name)
    | AckOfRequest(x: Name, ty: PacketType)
    | Complete(x: Name)

  function HostOf(x: Name, location: Location): Host {
    if location.Initiator? then x.initiator else Peer(x.initiator)
  }

  predicate ForTargetUlp(ty: PacketType) {
    ty.PullRequest? || ty.PushSolicitedData? || ty.PushUnsolicitedData?
  }

  // What the environment guarantees about a step, in terms of the work waiting and
  // the packets still to be ACKed only; it never looks at a transaction.
  predicate Enabled(s: System, step: Step) {
    if step.Submit? then IsRequest(step.op)
    else
      && step.x in s.env
      && var e := s.env[step.x];
      match step
      case Transmit(_) => e.work.Queued?
      case Deliver(_, rnr) => e.work.InFlight? && (rnr ==> ForTargetUlp(e.work.ty))
      case HandToUlp(_) => e.work.ForUlp?
      case AckFromUlp(_) => e.work.AtUlp?
      case RnrFromUlp(_) => e.work.AtUlp?
      case Respond(_) => e.work.Reading?
      case AckOfData(_) => e.unacked
      case AckOfRequest(_, ty) => IsOpen(e, ty)
      case Complete(_) => e.toComplete
  }

  // A request or grant was sent, and neither an ACK nor the reply that stands for one
  // has come back.
  predicate IsOpen(e: Env, ty: PacketType) {
    if ty.PushGrant? then e.grantOpen
    else e.requestOpen && ty == (if e.kind.Pull? then PullRequest else PushRequest)
  }

  function Close(e: Env, ty: PacketType): Env {
    if ty.PushGrant? then e.(grantOpen := false) else e.(requestOpen := false)
  }

  // The packets whose arrival acknowledges an earlier one, and that one.
  predicate IsReply(ty: PacketType) { ty.PullData? || ty.PushGrant? || ty.PushSolicitedData? }

  function RepliesTo(ty: PacketType): PacketType
    requires IsReply(ty)
  {
    if ty.PullData? then PullRequest else if ty.PushGrant? then PushRequest else PushGrant
  }

  function KindOf(ty: PacketType): Kind {
    if ty.PullRequest? then Pull else if ty.PushRequest? then PushSolicited else PushUnsolicited
  }

  // The packet that carries the payload of a transaction.
  function DataOf(k: Kind): PacketType {
    match k
    case Pull => PullData
    case PushSolicited => PushSolicitedData
    case PushUnsolicited => PushUnsolicitedData
  }

  // The packet the target's ULP sees and acknowledges.
  function UlpPacketOf(k: Kind): PacketType { if k == Pull then PullRequest else DataOf(k) }

  function Lookup(h: HostState, key: Key): Option<Txn> {
    if key in h.txns then Some(h.txns[key]) else None
  }

  function End(s: System, x: Name, location: Location): Option<Txn> {
    Lookup(s.At(HostOf(x, location)), Key(x.rsn, location))
  }

  // Applies UpdateState to one end of a transaction; None when a CHECK fails.
  function Touch(s: System, x: Name, location: Location, ty: PacketType, stage: Stage, now: int): Option<System> {
    var h := HostOf(x, location);
    var u := UpdateAt(s.At(h), Key(x.rsn, location), ty, stage, now);
    if u.None? then None else Some(s.With(h, u.value))
  }

  function Forget(s: System, x: Name, location: Location): System {
    var h := HostOf(x, location);
    s.With(h, s.At(h).(txns := s.At(h).txns - {Key(x.rsn, location)}))
  }

  // Logs a transaction the initiator is about to forget.
  function Record(s: System, x: Name): System
    requires x in s.env
  {
    var t := End(s, x, Initiator);
    if t.Some? then s.(completed := s.completed + [Finished(x, s.env[x].kind, t.value)]) else s
  }

  function SetEnv(s: System, x: Name, e: Env): System { s.(env := s.env[x := e]) }

  function Transmitted(e: Env, ty: PacketType): Env {
    e.(work := InFlight(ty), unacked := e.unacked || ty == DataOf(e.kind),
       requestOpen := e.requestOpen || ty.PullRequest? || ty.PushRequest?, grantOpen := e.grantOpen || ty.PushGrant?)
  }

  function Delivered(e: Env, ty: PacketType): Env {
    var e1 := if IsReply(ty) then Close(e, RepliesTo(ty)) else e;
    e1.(work := if ty.PushRequest? then Queued(PushGrant)
                else if ty.PushGrant? then Queued(PushSolicitedData)
                else ForUlp(ty))
  }

  function UlpAcked(e: Env): Env {
    if e.kind.Pull? then e.(work := Reading) else e.(work := Idle, targetDone := true)
  }

  function DataAcked(e: Env): Env {
    if e.kind.Pull? then e.(unacked := false, targetDone := true)
    else e.(unacked := false, toComplete := true)
  }

  // HandleImplicitAck: a reply looks up the transaction it belongs to and, if the
  // packet it replies to is still open, stands for its ACK.
  function ImplicitAck(s: System, x: Name, ty: PacketType, now: int): Option<System>
    requires x in s.env
  {
    if !IsReply(ty) then Some(s)
    else if End(s, x, LocationOf(ty, true)).None? then None
    else if !IsOpen(s.env[x], RepliesTo(ty)) then Some(s)
    else Touch(s, x, LocationOf(RepliesTo(ty), false), RepliesTo(ty), NtwkAckRx, now)
  }

  function DoDeliver(s: System, x: Name, rnr: bool, now: int): Option<System>
    requires x in s.env && s.env[x].work.InFlight?
  {
    var u := ImplicitAck(s, x, s.env[x].work.ty, now);
    if u.None? then None else Arrive(u.value, x, s.env[x], rnr, now)
  }

  function Arrive(s: System, x: Name, e: Env, rnr: bool, now: int): Option<System>
    requires e.work.InFlight?
  {
    var ty := e.work.ty;
    var h := HostOf(x, LocationOf(ty, true));
    var u := FromNetwork(s.At(h), x.rsn, ty, now);
    if u.None? then None
    else
      var s1 := SetEnv(s.With(h, u.value), x, Delivered(e, ty));
      if rnr then Touch(s1, x, Target, ty, UlpRnrRx, now) else Some(s1)
  }

  function DoHandToUlp(s: System, x: Name, now: int): Option<System>
    requires x in s.env && s.env[x].work.ForUlp?
  {
    var e := s.env[x];
    var u := Touch(s, x, LocationOf(e.work.ty, true), e.work.ty, UlpTx, now);
    if u.None? then None
    else if e.work.ty.PullData? then
      Some(Forget(Record(SetEnv(u.value, x, e.(work := Idle)), x), x, Initiator))
    else
      Some(SetEnv(u.value, x, e.(work := AtUlp)))
  }

  function DoAckFromUlp(s: System, x: Name, now: int): Option<System>
    requires x in s.env
  {
    var e := s.env[x];
    var u := Touch(s, x, Target, UlpPacketOf(e.kind), UlpAckRx, now);
    if u.None? then None
    else
      var s1 := SetEnv(u.value, x, UlpAcked(e));
      Some(if e.kind.Pull? then s1 else Forget(s1, x, Target))
  }

  function DoAckOfData(s: System, x: Name, now: int): Option<System>
    requires x in s.env
  {
    var e := s.env[x];
    var ty := DataOf(e.kind);
    var u := Touch(s, x, LocationOf(ty, false), ty, NtwkAckRx, now);
    if u.None? then None
    else
      var s1 := SetEnv(u.value, x, DataAcked(e));
      Some(if e.kind.Pull? then Forget(s1, x, Target) else s1)
  }

  // One step of the two hosts and the network; None when a CHECK or LOG(FATAL)
  // would stop the simulation.
  function Next(s: System, step: Step, now: int): (r: Option<System>)
    requires Enabled(s, step)
  {
    match step
    case Submit(h, op, threshold) =>
      var u := FromUlp(s.At(h), op, threshold, now);
      if u.Failed? then None
      else Some(SetEnv(s.With(h, u.host), Name(h, u.rsn), Env(KindOf(u.ty), Queued(u.ty), false, false, false, false, false)))
    case Transmit(x) =>
      var ty := s.env[x].work.ty;
      var u := Touch(s, x, LocationOf(ty, false), ty, NtwkTx, now);
      if u.None? then None else Some(SetEnv(u.value, x, Transmitted(s.env[x], ty)))
    case Deliver(x, rnr) => DoDeliver(s, x, rnr, now)
    case HandToUlp(x) => DoHandToUlp(s, x, now)
    case AckFromUlp(x) => DoAckFromUlp(s, x, now)
    case RnrFromUlp(x) =>
      var ty := UlpPacketOf(s.env[x].kind);
      var u := Touch(s, x, Target, ty, UlpRnrRx, now);
      if u.None? then None else Some(SetEnv(u.value, x, s.env[x].(work := ForUlp(ty))))
    case Respond(x) =>
      var h := HostOf(x, Target);
      var u := FromUlp(s.At(h), ReadResponse(x.rsn), 0, now);
      if u.Failed? then None else Some(SetEnv(s.With(h, u.host), x, s.env[x].(work := Queued(u.ty))))
    case AckOfData(x) => DoAckOfData(s, x, now)
    case AckOfRequest(x, ty) =>
      var u := Touch(s, x, LocationOf(ty, false), ty, NtwkAckRx, now);
      if u.None? then None else Some(SetEnv(u.value, x, Close(s.env[x], ty)))
    case Complete(x) =>
      var e := s.env[x];
      var u := Touch(s, x, Initiator, DataOf(e.kind), UlpCompletionTx, now);
      if u.None? then None
      else Some(Forget(Record(SetEnv(u.value, x, e.(toComplete := false)), x), x, Initiator))
  }

  const Boot := System(HostState(0, map[]), HostState(0, map[]), map[], [])

  // ---- the invariant --------------------------------------------------------

  // The state of one end; Created stands for a transaction that end does not know.
  function StateOf(t: Option<Txn>): State { if t.None? then Created else t.value.state }

  // The token once the initiator's request or data is out, given how far the target
  // got; `request` is what the target waits for first, `reply` what it ends with.
  function TargetWork(t: State, done: bool, request: PacketType, reply: Work): Work {
    if done || t == PullDataNtwkTx then reply
    else if t.Created? then InFlight(request)
    else if t == PushGrantNtwkTx then InFlight(PushSolicitedData)
    else if t == PullReqNtwkRx || t == PullReqRnrUlpRx then ForUlp(PullRequest)
    else if t == PushSolicitedDataNtwkRx || t == PushSolicitedDataRnrUlpRx then ForUlp(PushSolicitedData)
    else if t == PushUnsolicitedDataNtwkRx || t == PushUnsolicitedDataRnrUlpRx then ForUlp(PushUnsolicitedData)
    else if t == PullReqAckUlpRx then Reading
    else if t == PullDataUlpRx then Queued(PullData)
    else AtUlp
  }

  predicate PullGood(i: State, t: State, e: Env) {
    && !e.toComplete
    && e.unacked == (t == PullDataNtwkTx)
    && (t.Created? || t == PullReqNtwkRx || t == PullReqRnrUlpRx || t == PullReqUlpTx
        || t == PullReqAckUlpRx || t == PullDataUlpRx || t == PullDataNtwkTx)
    && if i == PullReqUlpRx then t.Created? && !e.targetDone && e.work == Queued(PullRequest)
       else if i == PullReqNtwkTx then e.work == TargetWork(t, e.targetDone, PullRequest, InFlight(PullData))
       else
         && (e.targetDone || t == PullDataNtwkTx)
         && (i == PullDataNtwkRx || i.Created?)
         && e.work == (if i.Created? then Idle else ForUlp(PullData))
  }

  // The initiator after it sent its data: unacknowledged, acknowledged, or finished.
  predicate DataSent(i: State, e: Env, sent: State, acked: State) {
    && (i.Created? || i == sent || i == acked)
    && e.unacked == (i == sent)
    && e.toComplete == (i == acked)
  }

  predicate SolicitedGood(i: State, t: State, e: Env) {
    && (t.Created? || t == PushReqNtwkRx || t == PushGrantNtwkTx || t == PushSolicitedDataNtwkRx
        || t == PushSolicitedDataRnrUlpRx || t == PushSolicitedDataUlpTx)
    && if i == PushSolicitedReqUlpRx || i == PushReqNtwkTx || i == PushGrantNtwkRx then
         && !e.targetDone && !e.unacked && !e.toComplete
         && if i == PushSolicitedReqUlpRx then t.Created? && e.work == Queued(PushRequest)
            else if i == PushGrantNtwkRx then t == PushGrantNtwkTx && e.work == Queued(PushSolicitedData)
            else if t.Created? then e.work == InFlight(PushRequest)
            else if t == PushReqNtwkRx then e.work == Queued(PushGrant)
            else t == PushGrantNtwkTx && e.work == InFlight(PushGrant)
       else
         && DataSent(i, e, PushSolicitedDataNtwkTx, PushSolicitedDataAckNtwkRx)
         && (e.targetDone || (!t.Created? && t != PushReqNtwkRx))
         && e.work == TargetWork(t, e.targetDone, PushSolicitedData, Idle)
  }

  predicate UnsolicitedGood(i: State, t: State, e: Env) {
    && (t.Created? || t == PushUnsolicitedDataNtwkRx || t == PushUnsolicitedDataRnrUlpRx
        || t == PushUnsolicitedDataUlpTx)
    && if i == PushUnsolicitedReqUlpRx then
         t.Created? && !e.targetDone && !e.unacked && !e.toComplete && e.work == Queued(PushUnsolicitedData)
       else
         && DataSent(i, e, PushUnsolicitedDataNtwkTx, PushUnsolicitedDataAckNtwkRx)
         && e.work == TargetWork(t, e.targetDone, PushUnsolicitedData, Idle)
  }

  // How many stage latencies an initiator has recorded in each state.
  function StagesBy(s: State): nat {
    if s == PullReqNtwkTx || s == PushReqNtwkTx || s == PushUnsolicitedDataNtwkTx then 1
    else if s == PullDataNtwkRx || s == PushGrantNtwkRx || s == PushUnsolicitedDataAckNtwkRx then 2
    else if s == PullDataUlpTx || s == PushSolicitedDataNtwkTx then 3
    else if s == PushSolicitedDataAckNtwkRx then 4
    else 0
  }

  ghost predicate Telescopes(t: Txn) {
    && Sum(t.stages) == t.last - t.start
    && |t.stages| == StagesBy(t.state)
  }

  // The sender of an open request or grant is waiting for the reply.
  predicate AcksGood(i: State, t: State, e: Env) {
    && (e.requestOpen ==> i == PullReqNtwkTx || i == PushReqNtwkTx)
    && (e.grantOpen ==> t == PushGrantNtwkTx)
  }

  // The two ends and their environment agree on how far the transaction got.
  predicate Agree(i: State, t: State, e: Env) {
    && (e.targetDone ==> t.Created?)
    && AcksGood(i, t, e)
    && match e.kind
       case Pull => PullGood(i, t, e)
       case PushSolicited => SolicitedGood(i, t, e)
       case PushUnsolicited => UnsolicitedGood(i, t, e)
  }

  ghost predicate Good(i: Option<Txn>, t: Option<Txn>, e: Env) {
    && (i.Some? ==> !i.value.state.Created? && Telescopes(i.value))
    && (t.Some? ==> !t.value.state.Created?)
    && Agree(StateOf(i), StateOf(t), e)
  }

  ghost predicate GoodAt(s: System, x: Name)
    requires x in s.env
  {
    Good(End(s, x, Initiator), End(s, x, Target), s.env[x])
  }

  // A finished transaction recorded all its stages, and they add up to its total.
  ghost predicate Accounted(k: Kind, t: Txn) {
    && t.total == Some(Sum(t.stages))
    && |t.stages| == (if k == PushSolicited then 5 else 3)
  }

  ghost predicate Inv(s: System) {
    && (forall x: Name :: x in s.env <==> x.rsn < s.At(x.initiator).nextRsn)
    && (forall x: Name :: x !in s.env ==> End(s, x, Initiator).None? && End(s, x, Target).None?)
    && (forall x: Name :: x in s.env ==> GoodAt(s, x))
    && (forall k :: 0 <= k < |s.completed| ==> Accounted(s.completed[k].kind, s.completed[k].txn))
  }

  // ---- every step keeps it --------------------------------------------------

  // s' differs from s in the transaction x only.
  ghost predicate OnlyTouches(s: System, s': System, x: Name) {
    && (forall y: Name, l: Location :: y != x ==> End(s', y, l) == End(s, y, l))
    && (forall y: Name :: y != x ==> (y in s'.env <==> y in s.env))
    && (forall y: Name :: y != x && y in s.env ==> s'.env[y] == s.env[y])
  }

  lemma TouchEnds(s: System, x: Name, location: Location, ty: PacketType, stage: Stage, now: int)
    ensures var u := Touch(s, x, location, ty, stage, now);
            var old_ := End(s, x, location);
            if old_.None? then u.None?
            else
              var t := Update(old_.value, ty, stage, now);
              && u.Some? == t.Some?
              && (u.Some? ==>
                    && OnlyTouches(s, u.value, x)
                    && u.value.env == s.env && u.value.completed == s.completed
                    && u.value.a.nextRsn == s.a.nextRsn && u.value.b.nextRsn == s.b.nextRsn
                    && (forall l: Location :: End(u.value, x, l) == if l == location then t else End(s, x, l)))
  {
  }

  lemma ForgetEnds(s: System, x: Name, location: Location)
    ensures var u := Forget(s, x, location);
            && OnlyTouches(s, u, x)
            && u.env == s.env && u.completed == s.completed
            && u.a.nextRsn == s.a.nextRsn && u.b.nextRsn == s.b.nextRsn
            && (forall l: Location :: End(u, x, l) == if l == location then None else End(s, x, l))
  {
  }

  lemma Keep(s: System, s': System, x: Name)
    requires Inv(s) && x in s.env && x in s'.env
    requires OnlyTouches(s, s', x)
    requires s'.a.nextRsn == s.a.nextRsn && s'.b.nextRsn == s.b.nextRsn
    requires GoodAt(s', x)
    requires forall k :: 0 <= k < |s'.completed| ==> Accounted(s'.completed[k].kind, s'.completed[k].txn)
    ensures Inv(s')
  {
    forall y: Name | y in s'.env
      ensures GoodAt(s', y)
    {
      assert y != x ==> End(s', y, Initiator) == End(s, y, Initiator) && End(s', y, Target) == End(s, y, Target);
    }
  }

  // One UpdateState call at one end, on states only: it moves to `next`, and what
  // follows is again in agreement.
  predicate Moves(i: State, t: State, location: Location, ty: PacketType, stage: Stage, e': Env) {
    var was := if location.Initiator? then i else t;
    && !was.Created?
    && var u := EffectOf(ty, stage, was);
    && u.Move? && !u.next.Created?
    && (location.Initiator? ==> u.sampled && !u.starts && StagesBy(u.next) == StagesBy(was) + 1)
    && if location.Initiator? then Agree(u.next, t, e') else Agree(i, u.next, e')
  }

  // One UpdateState call after which that end forgets the transaction.
  predicate MovesAndForgets(i: State, t: State, location: Location, ty: PacketType, stage: Stage,
                            e': Env)
  {
    var was := if location.Initiator? then i else t;
    && !was.Created?
    && var u := EffectOf(ty, stage, was);
    && u.Move?
    && (location.Initiator? ==>
          u.sampled && !u.starts && u.completes && StagesBy(was) + 1 == (if e'.kind.PushSolicited? then 5 else 3))
    && if location.Initiator? then Agree(Created, t, e') else Agree(i, Created, e')
  }

  // The state in which the network leaves the target's end of a transaction.
  function Opened(ty: PacketType): State {
    match ty
    case PullRequest => PullReqNtwkRx
    case PushRequest => PushReqNtwkRx
    case PushSolicitedData => PushSolicitedDataNtwkRx
    case _ => PushUnsolicitedDataNtwkRx
  }

  // On states and environment alone, every kind of step finds the state its CHECK
  // asks for and leaves the two ends in agreement.
  lemma LocalTransmit(i: State, t: State, e: Env)
    requires Agree(i, t, e) && e.work.Queued?
    ensures Moves(i, t, LocationOf(e.work.ty, false), e.work.ty, NtwkTx, Transmitted(e, e.work.ty))
  {
    match e.kind
    case Pull => TransmitPull(i, t, e);
    case PushSolicited => TransmitSolicited(i, t, e);
    case PushUnsolicited => assert i == PushUnsolicitedReqUlpRx && t == Created;
  }

  lemma TransmitPull(i: State, t: State, e: Env)
    requires Agree(i, t, e) && e.work.Queued? && e.kind.Pull?
    ensures Moves(i, t, LocationOf(e.work.ty, false), e.work.ty, NtwkTx, Transmitted(e, e.work.ty))
  {
    if t.Created? {
      assert i == PullReqUlpRx;
    } else {
      assert i == PullReqNtwkTx && t == PullDataUlpRx;
    }
  }

  lemma TransmitSolicited(i: State, t: State, e: Env)
    requires Agree(i, t, e) && e.work.Queued? && e.kind.PushSolicited?
    ensures Moves(i, t, LocationOf(e.work.ty, false), e.work.ty, NtwkTx, Transmitted(e, e.work.ty))
  {
    if i == PushGrantNtwkRx {
      assert t == PushGrantNtwkTx;
    } else if t.Created? {
      assert i == PushSolicitedReqUlpRx;
    } else {
      assert i == PushReqNtwkTx && t == PushReqNtwkRx;
    }
  }

  // A request opens the target end; every other packet finds its end waiting.
  predicate Arrives(i: State, t: State, e: Env)
    requires e.work.InFlight?
  {
    && IsTransaction(e.work.ty)
    && (OpensTarget(e.work.ty) ==> t.Created? && Agree(i, Opened(e.work.ty), Delivered(e, e.work.ty)))
    && (!OpensTarget(e.work.ty) ==>
          Moves(i, t, LocationOf(e.work.ty, true), e.work.ty, NtwkRx, Delivered(e, e.work.ty)))
    && (e.work.ty.PushSolicitedData? ==> EffectOf(e.work.ty, NtwkRx, t).next == Opened(e.work.ty))
  }

  lemma LocalDeliver(i: State, t: State, e: Env)
    requires Agree(i, t, e) && e.work.InFlight?
    ensures Arrives(i, t, e)
  {
    match e.kind
    case Pull => DeliverPull(i, t, e);
    case PushSolicited => DeliverSolicited(i, t, e);
    case PushUnsolicited => assert t == Created;
  }

  lemma DeliverPull(i: State, t: State, e: Env)
    requires Agree(i, t, e) && e.work.InFlight? && e.kind.Pull?
    ensures Arrives(i, t, e)
  {
    assert i == PullReqNtwkTx;
    if e.work.ty == PullRequest {
      assert t == Created;
    } else {
      assert e.targetDone || t == PullDataNtwkTx;
    }
  }

  lemma DeliverSolicited(i: State, t: State, e: Env)
    requires Agree(i, t, e) && e.work.InFlight? && e.kind.PushSolicited?
    ensures Arrives(i, t, e)
  {
    if e.work.ty == PushRequest {
      assert i == PushReqNtwkTx && t == Created;
    } else if e.work.ty == PushGrant {
      assert i == PushReqNtwkTx && t == PushGrantNtwkTx;
    } else {
      assert t == PushGrantNtwkTx;
    }
  }

  lemma LocalHandToUlp(i: State, t: State, e: Env)
    requires Agree(i, t, e) && e.work.ForUlp?
    ensures e.work.ty.PullData? ==> MovesAndForgets(i, t, Initiator, PullData, UlpTx, e.(work := Idle))
    ensures !e.work.ty.PullData? ==> Moves(i, t, LocationOf(e.work.ty, true), e.work.ty, UlpTx, e.(work := AtUlp))
  {
    match e.kind
    case Pull => HandToUlpPull(i, t, e);
    case PushSolicited => assert t == PushSolicitedDataNtwkRx || t == PushSolicitedDataRnrUlpRx;
    case PushUnsolicited => assert t == PushUnsolicitedDataNtwkRx || t == PushUnsolicitedDataRnrUlpRx;
  }

  lemma HandToUlpPull(i: State, t: State, e: Env)
    requires Agree(i, t, e) && e.work.ForUlp? && e.kind.Pull?
    ensures e.work.ty.PullData? ==> MovesAndForgets(i, t, Initiator, PullData, UlpTx, e.(work := Idle))
    ensures !e.work.ty.PullData? ==> Moves(i, t, LocationOf(e.work.ty, true), e.work.ty, UlpTx, e.(work := AtUlp))
  {
    if e.work.ty == PullData {
      assert i == PullDataNtwkRx;
    } else {
      assert i == PullReqNtwkTx && (t == PullReqNtwkRx || t == PullReqRnrUlpRx);
    }
  }

  function HandedToUlp(k: Kind): State {
    match k
    case Pull => PullReqUlpTx
    case PushSolicited => PushSolicitedDataUlpTx
    case PushUnsolicited => PushUnsolicitedDataUlpTx
  }

  lemma LocalRnrFromUlp(i: State, t: State, e: Env)
    requires Agree(i, t, e) && e.work.AtUlp?
    ensures Moves(i, t, Target, UlpPacketOf(e.kind), UlpRnrRx, e.(work := ForUlp(UlpPacketOf(e.kind))))
  {
    assert t == HandedToUlp(e.kind);
    match e.kind {
      case Pull => assert i == PullReqNtwkTx;
      case PushSolicited =>
      case PushUnsolicited =>
    }
  }

  lemma LocalAckFromUlp(i: State, t: State, e: Env)
    requires Agree(i, t, e) && e.work.AtUlp?
    ensures e.kind.Pull? ==> Moves(i, t, Target, PullRequest, UlpAckRx, UlpAcked(e))
    ensures !e.kind.Pull? ==> MovesAndForgets(i, t, Target, UlpPacketOf(e.kind), UlpAckRx, UlpAcked(e))
  {
    assert t == HandedToUlp(e.kind);
    match e.kind {
      case Pull => assert i == PullReqNtwkTx;
      case PushSolicited =>
      case PushUnsolicited =>
    }
  }

  // A connection already in RNR state turns an arrival back before the ULP sees it.
  lemma LocalEarlyRnr(i: State, t: State, e: Env, ty: PacketType)
    requires Agree(i, t, e) && e.work == ForUlp(ty) && ForTargetUlp(ty)
    requires t == Opened(ty)
    ensures Moves(i, t, Target, ty, UlpRnrRx, e)
  {
    match e.kind {
      case Pull => assert t == PullReqNtwkRx && i == PullReqNtwkTx;
      case PushSolicited => assert t == PushSolicitedDataNtwkRx;
      case PushUnsolicited => assert t == PushUnsolicitedDataNtwkRx;
    }
  }

  lemma LocalRespond(i: State, t: State, e: Env)
    requires Agree(i, t, e) && e.work.Reading?
    ensures Moves(i, t, Target, PullData, UlpRx, e.(work := Queued(PullData)))
  {
    assert i == PullReqNtwkTx && t == PullReqAckUlpRx;
  }

  lemma LocalAckOfData(i: State, t: State, e: Env)
    requires Agree(i, t, e) && e.unacked
    ensures e.kind.Pull? ==> MovesAndForgets(i, t, Target, PullData, NtwkAckRx, DataAcked(e))
    ensures !e.kind.Pull? ==> Moves(i, t, Initiator, DataOf(e.kind), NtwkAckRx, DataAcked(e))
  {
    match e.kind {
      case Pull => assert t == PullDataNtwkTx;
      case PushSolicited => assert i == PushSolicitedDataNtwkTx;
      case PushUnsolicited => assert i == PushUnsolicitedDataNtwkTx;
    }
  }

  lemma LocalComplete(i: State, t: State, e: Env)
    requires Agree(i, t, e) && e.toComplete
    ensures MovesAndForgets(i, t, Initiator, DataOf(e.kind), UlpCompletionTx, e.(toComplete := false))
  {
    match e.kind {
      case Pull =>
      case PushSolicited => assert i == PushSolicitedDataAckNtwkRx;
      case PushUnsolicited => assert i == PushUnsolicitedDataAckNtwkRx;
    }
  }

  // Lifting to the whole system.

  // One end of a transaction moves as in Moves: the transaction is Good again.
  lemma MoveGood(i: Option<Txn>, t: Option<Txn>, e: Env, location: Location, ty: PacketType, stage: Stage, now: int,
                 e': Env)
    requires Good(i, t, e) && Moves(StateOf(i), StateOf(t), location, ty, stage, e')
    ensures var o := if location.Initiator? then i else t;
            && o.Some?
            && var u := Update(o.value, ty, stage, now);
            u.Some? && if location.Initiator? then Good(u, t, e') else Good(i, u, e')
  {
    hide EffectOf, Agree, StagesBy;
    if location.Initiator? {
      SumAppend(i.value.stages, now - i.value.last);
      hide Sum;
    } else {
      hide Telescopes, Sum;
    }
  }

  lemma LiftMove(s: System, x: Name, location: Location, ty: PacketType, stage: Stage, now: int, e': Env)
    requires Inv(s) && x in s.env
    requires Moves(StateOf(End(s, x, Initiator)), StateOf(End(s, x, Target)), location, ty, stage, e')
    ensures var u := Touch(s, x, location, ty, stage, now); u.Some? && Inv(SetEnv(u.value, x, e'))
  {
    assert GoodAt(s, x);
    hide Good, Moves;
    MoveGood(End(s, x, Initiator), End(s, x, Target), s.env[x], location, ty, stage, now, e');
    TouchEnds(s, x, location, ty, stage, now);
    hide Touch, Update;
    var s0 := Touch(s, x, location, ty, stage, now).value;
    RecordEnds(s0, x, e');
    hide End;
    Keep(s, SetEnv(s0, x, e'), x);
  }

  // The last UpdateState call of an initiator closes its latency account.
  lemma FinishAccounts(t: Txn, ty: PacketType, stage: Stage, now: int, k: Kind)
    requires var u := EffectOf(ty, stage, t.state);
             u.Move? && u.sampled && !u.starts && u.completes
    requires Telescopes(t) && StagesBy(t.state) + 1 == (if k.PushSolicited? then 5 else 3)
    ensures Accounted(k, Update(t, ty, stage, now).value)
  {
    hide EffectOf;
    SumAppend(t.stages, now - t.last);
  }

  lemma LiftForget(s: System, x: Name, location: Location, ty: PacketType, stage: Stage, now: int, e': Env)
    requires Inv(s) && x in s.env && e'.kind == s.env[x].kind
    requires MovesAndForgets(StateOf(End(s, x, Initiator)), StateOf(End(s, x, Target)), location, ty, stage, e')
    ensures var u := Touch(s, x, location, ty, stage, now);
            && u.Some?
            && var s1 := SetEnv(u.value, x, e');
            Inv(Forget(if location.Initiator? then Record(s1, x) else s1, x, location))
  {
    hide EffectOf, Agree;
    assert GoodAt(s, x);
    TouchEnds(s, x, location, ty, stage, now);
    if location.Initiator? {
      FinishAccounts(End(s, x, Initiator).value, ty, stage, now, e'.kind);
    }
    hide Update, UpdateAt, Touch, StagesBy;
    var s0 := Touch(s, x, location, ty, stage, now).value;
    var s1 := SetEnv(s0, x, e');
    var s2 := if location.Initiator? then Record(s1, x) else s1;
    RecordEnds(s0, x, e');
    ForgetEnds(s2, x, location);
    hide End, Forget;
    Keep(s, Forget(s2, x, location), x);
  }

  lemma RecordEnds(s: System, x: Name, e: Env)
    ensures var s1 := SetEnv(s, x, e);
            forall y: Name, l: Location :: End(s1, y, l) == End(s, y, l) == End(Record(s1, x), y, l)
  {
  }

  lemma OpenEnds(s: System, x: Name, now: int)
    requires x in s.env && s.env[x].work.InFlight? && OpensTarget(s.env[x].work.ty) && End(s, x, Target).None?
    ensures var r := Arrive(s, x, s.env[x], false, now);
            && r.Some? && OnlyTouches(s, r.value, x)
            && r.value.a.nextRsn == s.a.nextRsn && r.value.b.nextRsn == s.b.nextRsn
            && r.value.completed == s.completed
            && r.value.env == s.env[x := Delivered(s.env[x], s.env[x].work.ty)]
            && End(r.value, x, Initiator) == End(s, x, Initiator)
            && End(r.value, x, Target).Some?
            && StateOf(End(r.value, x, Target)) == Opened(s.env[x].work.ty)
  {
    RequestOpens(s.env[x].work.ty, now);
    hide Delivered, Update;
  }

  lemma RequestOpens(ty: PacketType, now: int)
    requires OpensTarget(ty)
    ensures var t := Update(FreshTxn, ty, NtwkRx, now); t.Some? && t.value.state == Opened(ty)
  {
  }

  lemma KeepsArrival(s: System, x: Name, now: int)
    requires Inv(s) && x in s.env && s.env[x].work.InFlight?
    ensures var r := Arrive(s, x, s.env[x], false, now);
            && r.Some? && Inv(r.value)
            && r.value.env == s.env[x := Delivered(s.env[x], s.env[x].work.ty)]
            && (ForTargetUlp(s.env[x].work.ty) ==> StateOf(End(r.value, x, Target)) == Opened(s.env[x].work.ty))
  {
    hide EffectOf, Agree;
    assert GoodAt(s, x);
    var ty := s.env[x].work.ty;
    LocalDeliver(StateOf(End(s, x, Initiator)), StateOf(End(s, x, Target)), s.env[x]);
    if OpensTarget(ty) {
      OpenEnds(s, x, now);
      Keep(s, Arrive(s, x, s.env[x], false, now).value, x);
    } else {
      LiftMove(s, x, LocationOf(ty, true), ty, NtwkRx, now, Delivered(s.env[x], ty));
      TouchEnds(s, x, LocationOf(ty, true), ty, NtwkRx, now);
    }
  }

  lemma KeepsEarlyRnr(s: System, x: Name, ty: PacketType, now: int)
    requires Inv(s) && x in s.env && s.env[x].work == ForUlp(ty) && ForTargetUlp(ty)
    requires StateOf(End(s, x, Target)) == Opened(ty)
    ensures var r := Touch(s, x, Target, ty, UlpRnrRx, now); r.Some? && Inv(r.value)
  {
    hide EffectOf, Agree;
    assert GoodAt(s, x);
    LocalEarlyRnr(StateOf(End(s, x, Initiator)), StateOf(End(s, x, Target)), s.env[x], ty);
    LiftMove(s, x, Target, ty, UlpRnrRx, now, s.env[x]);
    TouchEnds(s, x, Target, ty, UlpRnrRx, now);
    var s' := Touch(s, x, Target, ty, UlpRnrRx, now).value;
    assert SetEnv(s', x, s.env[x]) == s';
  }

  lemma KeepsDeliver(s: System, x: Name, rnr: bool, now: int)
    requires Inv(s) && Enabled(s, Deliver(x, rnr))
    ensures var r := DoDeliver(s, x, rnr, now); r.Some? && Inv(r.value)
  {
    hide Inv, ImplicitAck;
    ImplicitAckFinds(s, x, now);
    KeepsArrival(s, x, now);
    if rnr {
      KeepsEarlyRnr(Arrive(s, x, s.env[x], false, now).value, x, s.env[x].work.ty, now);
    }
  }

  lemma SubmitEnds(s: System, h: Host, op: UlpOp, threshold: nat, now: int)
    requires IsRequest(op)
    ensures var r := Next(s, Submit(h, op, threshold), now);
            var x := Name(h, s.At(h).nextRsn);
            && r.Some? && OnlyTouches(s, r.value, x)
            && r.value.completed == s.completed
            && r.value.At(h).nextRsn == s.At(h).nextRsn + 1
            && r.value.At(Peer(h)).nextRsn == s.At(Peer(h)).nextRsn
            && End(r.value, x, Target) == End(s, x, Target)
            && x in r.value.env
  {
  }

  lemma SubmitGood(s: System, h: Host, op: UlpOp, threshold: nat, now: int)
    requires IsRequest(op) && End(s, Name(h, s.At(h).nextRsn), Target).None?
    ensures var r := Next(s, Submit(h, op, threshold), now);
            r.Some? && Name(h, s.At(h).nextRsn) in r.value.env && GoodAt(r.value, Name(h, s.At(h).nextRsn))
  {
  }

  lemma KeepsSubmit(s: System, h: Host, op: UlpOp, threshold: nat, now: int)
    requires Inv(s) && IsRequest(op)
    ensures var r := Next(s, Submit(h, op, threshold), now); r.Some? && Inv(r.value)
  {
    hide Agree, FromUlp;
    SubmitEnds(s, h, op, threshold, now);
    var s' := Next(s, Submit(h, op, threshold), now).value;
    var x := Name(h, s.At(h).nextRsn);
    assert x !in s.env;
    SubmitGood(s, h, op, threshold, now);
    forall y: Name | y in s'.env
      ensures GoodAt(s', y)
    {
      if y != x {
        assert GoodAt(s, y);
        assert End(s', y, Initiator) == End(s, y, Initiator) && End(s', y, Target) == End(s, y, Target);
      }
    }
  }

  // UpdateState does nothing on the ACK of a request or grant once the transaction
  // is found.
  lemma AckStays(s: System, x: Name, ty: PacketType, now: int)
    requires ty.PullRequest? || ty.PushRequest? || ty.PushGrant?
    requires End(s, x, LocationOf(ty, false)).Some?
    ensures Touch(s, x, LocationOf(ty, false), ty, NtwkAckRx, now) == Some(s)
  {
    var location := LocationOf(ty, false);
    var h := HostOf(x, location);
    var key := Key(x.rsn, location);
    assert s.At(h).txns[key := s.At(h).txns[key]] == s.At(h).txns;
  }

  // An open request or grant belongs to a transaction that its sender still knows,
  // and closing it leaves the two ends in agreement.
  lemma LocalAckOfRequest(i: State, t: State, e: Env, ty: PacketType)
    requires Agree(i, t, e) && IsOpen(e, ty)
    ensures ty.PullRequest? || ty.PushRequest? || ty.PushGrant?
    ensures if LocationOf(ty, false).Initiator? then !i.Created? else !t.Created?
    ensures Agree(i, t, Close(e, ty))
  {
  }

  lemma KeepsAckOfRequest(s: System, x: Name, ty: PacketType, now: int)
    requires Inv(s) && Enabled(s, AckOfRequest(x, ty))
    ensures Next(s, AckOfRequest(x, ty), now).Some? && Inv(Next(s, AckOfRequest(x, ty), now).value)
  {
    hide Agree, Touch, IsOpen, Close;
    assert GoodAt(s, x);
    var e := s.env[x];
    LocalAckOfRequest(StateOf(End(s, x, Initiator)), StateOf(End(s, x, Target)), e, ty);
    AckStays(s, x, ty, now);
    RecordEnds(s, x, Close(e, ty));
    hide End;
    Keep(s, SetEnv(s, x, Close(e, ty)), x);
  }

  lemma LocalImplicitAck(i: State, t: State, e: Env)
    requires Agree(i, t, e) && e.work.InFlight? && IsReply(e.work.ty)
    ensures if LocationOf(e.work.ty, true).Initiator? then !i.Created? else !t.Created?
  {
  }

  // A reply finds the transaction of the packet it replies to.
  lemma ImplicitAckFinds(s: System, x: Name, now: int)
    requires Inv(s) && x in s.env && s.env[x].work.InFlight?
    ensures ImplicitAck(s, x, s.env[x].work.ty, now) == Some(s)
  {
    hide Agree, Touch, IsOpen;
    assert GoodAt(s, x);
    var ty := s.env[x].work.ty;
    if IsReply(ty) {
      LocalImplicitAck(StateOf(End(s, x, Initiator)), StateOf(End(s, x, Target)), s.env[x]);
      AckStays(s, x, RepliesTo(ty), now);
    }
  }

  lemma KeepsRespond(s: System, x: Name, now: int)
    requires Inv(s) && Enabled(s, Respond(x))
    ensures Next(s, Respond(x), now).Some? && Inv(Next(s, Respond(x), now).value)
  {
    hide EffectOf, Agree;
    assert GoodAt(s, x);
    LocalRespond(StateOf(End(s, x, Initiator)), StateOf(End(s, x, Target)), s.env[x]);
    hide Moves;
    LiftMove(s, x, Target, PullData, UlpRx, now, s.env[x].(work := Queued(PullData)));
    hide Inv;
  }

  // No CHECK and no LOG(FATAL) fires, and the invariant survives, whatever the step.
  lemma Keeps(s: System, step: Step, now: int)
    requires Inv(s) && Enabled(s, step)
    ensures Next(s, step, now).Some?
    ensures Inv(Next(s, step, now).value)
  {
    hide EffectOf, Agree;
    if step.Submit? {
      KeepsSubmit(s, step.h, step.op, step.threshold, now);
      return;
    }
    var x := step.x;
    assert GoodAt(s, x);
    var e := s.env[x];
    var i, t := StateOf(End(s, x, Initiator)), StateOf(End(s, x, Target));
    assert Agree(i, t, e);
    hide Inv, GoodAt, Moves, MovesAndForgets, Transmitted, UlpAcked, DataAcked, Touch, Forget, Record, End;
    match step
    case Transmit(_) =>
      LocalTransmit(i, t, e);
      LiftMove(s, x, LocationOf(e.work.ty, false), e.work.ty, NtwkTx, now, Transmitted(e, e.work.ty));
    case Deliver(_, rnr) =>
      KeepsDeliver(s, x, rnr, now);
    case HandToUlp(_) =>
      LocalHandToUlp(i, t, e);
      if e.work.ty.PullData? {
        LiftForget(s, x, Initiator, PullData, UlpTx, now, e.(work := Idle));
      } else {
        LiftMove(s, x, LocationOf(e.work.ty, true), e.work.ty, UlpTx, now, e.(work := AtUlp));
      }
    case AckFromUlp(_) =>
      LocalAckFromUlp(i, t, e);
      if e.kind.Pull? {
        LiftMove(s, x, Target, UlpPacketOf(e.kind), UlpAckRx, now, UlpAcked(e));
      } else {
        LiftForget(s, x, Target, UlpPacketOf(e.kind), UlpAckRx, now, UlpAcked(e));
      }
    case RnrFromUlp(_) =>
      LocalRnrFromUlp(i, t, e);
      LiftMove(s, x, Target, UlpPacketOf(e.kind), UlpRnrRx, now, e.(work := ForUlp(UlpPacketOf(e.kind))));
    case Respond(_) =>
      KeepsRespond(s, x, now);
    case AckOfData(_) =>
      LocalAckOfData(i, t, e);
      if e.kind.Pull? {
        LiftForget(s, x, Target, DataOf(e.kind), NtwkAckRx, now, DataAcked(e));
      } else {
        LiftMove(s, x, Initiator, DataOf(e.kind), NtwkAckRx, now, DataAcked(e));
      }
    case AckOfRequest(_, ty) =>
      KeepsAckOfRequest(s, x, ty, now);
    case Complete(_) =>
      LocalComplete(i, t, e);
      LiftForget(s, x, Initiator, DataOf(e.kind), UlpCompletionTx, now, e.(toComplete := false));
  }

  // ---- whole runs -----------------------------------------------------------

  // A run of enabled steps from `s`, each at its own time, ending in `end`; None
  // stands for a run that a failed CHECK cut short.
  datatype Run = Done | Then(step: Step, now: int, rest: Run)

  ghost predicate Legal(s: Option<System>, run: Run)
    decreases run
  {
    match run
    case Done => true
    case Then(step, now, rest) => s.Some? ==> Enabled(s.value, step) && Legal(Next(s.value, step, now), rest)
  }

  ghost function After(s: Option<System>, run: Run): Option<System>
    requires Legal(s, run)
    decreases run
  {
    match run
    case Done => s
    case Then(step, now, rest) => if s.None? then None else After(Next(s.value, step, now), rest)
  }

  lemma {:induction false} RunsKeepInv(s: System, run: Run)
    requires Inv(s) && Legal(Some(s), run)
    ensures After(Some(s), run).Some? && Inv(After(Some(s), run).value)
    decreases run
  {
    match run
    case Done =>
    case Then(step, now, rest) =>
      Keeps(s, step, now);
      RunsKeepInv(Next(s, step, now).value, rest);
  }

  // Whatever the two ULPs submit, however packets and ACKs are delayed, and however
  // often the target's ULP answers RNR, no CHECK in UpdateState and no lookup of a
  // transaction fails.
  lemma NoCheckFails(run: Run)
    requires Legal(Some(Boot), run)
    ensures After(Some(Boot), run).Some?
  {
    RunsKeepInv(Boot, run);
  }

  // The stage latencies of every finished initiator transaction add up to its total
  // latency, with three stages for a pull or unsolicited push and five for a
  // solicited push.
  lemma LatenciesTelescope(run: Run, k: nat)
    requires Legal(Some(Boot), run)
    requires After(Some(Boot), run).Some? && k < |After(Some(Boot), run).value.completed|
    ensures var c := After(Some(Boot), run).value.completed[k];
            c.txn.total == Some(Sum(c.txn.stages)) && |c.txn.stages| == (if c.kind == PushSolicited then 5 else 3)
  {
    RunsKeepInv(Boot, run);
  }

  lemma BootInv()
    ensures Inv(Boot)
  {
  }

  lemma InvAt(s: System, x: Name)
    requires Inv(s) && x in s.env
    ensures Good(End(s, x, Initiator), End(s, x, Target), s.env[x])
  {
    assert GoodAt(s, x);
  }

  lemma LocalQuiet(i: Option<Txn>, t: Option<Txn>, e: Env)
    requires Good(i, t, e)
    ensures (e.work.Idle? && !e.unacked && !e.toComplete && !e.requestOpen && !e.grantOpen) <==>
              (i.None? && t.None? && !e.work.InFlight?)
  {
    hide Telescopes, EffectOf;
  }

  // A transaction that nothing waits for any more has been forgotten by both hosts,
  // and one that either host still knows has a step left to take.
  lemma NothingLeaks(run: Run, x: Name)
    requires Legal(Some(Boot), run) && After(Some(Boot), run).Some?
    requires x in After(Some(Boot), run).value.env
    ensures var s := After(Some(Boot), run).value;
            var e := s.env[x];
            (e.work.Idle? && !e.unacked && !e.toComplete && !e.requestOpen && !e.grantOpen) <==>
              (End(s, x, Initiator).None? && End(s, x, Target).None? && !e.work.InFlight?)
  {
    BootInv();
    hide After, Legal, Good, End, Inv;
    RunsKeepInv(Boot, run);
    var s := After(Some(Boot), run).value;
    InvAt(s, x);
    LocalQuiet(End(s, x, Initiator), End(s, x, Target), s.env[x]);
  }
}
