// How a queue pair (QP) tells its ULP that an operation is finished: operations are
// cut into transactions, each with its own request sequence number (RSN), and the
// transactions finish in any order.
module Completion {
  import opened Common
  import opened Sgl

  // An operation as posted.
  datatype Spec = Spec(sgl: seq<nat>, inlineLength: nat, read: bool)

  // The operation object, updated as its transactions go out and finish.
  datatype Op = Op(sgl: seq<nat>, inlineLength: nat, read: bool, scheduled: bool,
                   startSeq: nat, endSeq: nat, nSeqs: nat, finished: nat)

  // `ops` holds the operations that have not been destroyed; the other fields refer
  // to them by identity. `completed` is the order of completion callbacks.
  datatype Context = Context(nextRsn: nat, sendQueue: seq<nat>, ops: map<nat, Op>, rsnToOp: map<nat, nat>,
                             completionQueue: map<nat, nat>, outboundReads: int, completed: seq<nat>)

  // Insertion that leaves an existing entry alone.
  function Emplace(m: map<nat, nat>, k: nat, v: nat): map<nat, nat> { if k in m then m else m[k := v] }

  // The operation after one more transaction was cut from it.
  function CutOne(o: Op, rsn: nat, mtu: nat): (r: Op)
    requires o.scheduled ==> o.startSeq <= rsn
    ensures r.nSeqs > 0 ==> o.nSeqs > 0 || r.endSeq == rsn
  {
    var start := if o.scheduled then o.startSeq else rsn;
    var o1 := o.(scheduled := true, startSeq := start, sgl := if o.inlineLength != 0 then o.sgl else Cut(o.sgl, mtu).rest);
    if IsEnd(o, mtu) then o1.(endSeq := rsn, nSeqs := rsn - start + 1) else o1
  }

  predicate IsEnd(o: Op, mtu: nat) { o.inlineLength != 0 || Cut(o.sgl, mtu).rest == [] }

  predicate CanCut(q: Context) {
    && q.sendQueue != [] && q.sendQueue[0] in q.ops
    && var o := q.ops[q.sendQueue[0]]; o.scheduled ==> o.startSeq <= q.nextRsn
  }

  // CreateRequestPacket, and the count of outbound reads kept by its caller.
  function CreateRequestPacket(q: Context, mtu: nat): Context
    requires CanCut(q)
  {
    var id := q.sendQueue[0];
    var o := q.ops[id];
    var q1 := q.(nextRsn := q.nextRsn + 1, ops := q.ops[id := CutOne(o, q.nextRsn, mtu)],
                 rsnToOp := Emplace(q.rsnToOp, q.nextRsn, id),
                 outboundReads := q.outboundReads + if o.read then 1 else 0);
    if IsEnd(o, mtu)
    then q1.(sendQueue := q.sendQueue[1..], completionQueue := Emplace(q.completionQueue, q.nextRsn, id))
    else q1
  }

  // ProcessCompletion and ProcessIncomingReadResponse; None where a CHECK fails or an
  // operation is used after it was destroyed.
  function Finish(q: Context, rsn: nat, isRead: bool): Option<Context> {
    if rsn !in q.rsnToOp || q.rsnToOp[rsn] !in q.ops then None
    else
      var id := q.rsnToOp[rsn];
      var o := q.ops[id].(finished := q.ops[id].finished + 1);
      var q1 := q.(rsnToOp := q.rsnToOp - {rsn}, ops := q.ops[id := o]);
      if o.nSeqs > 0 && o.finished == o.nSeqs then
        if o.endSeq !in q.completionQueue then None
        else
          Some(q1.(ops := q1.ops - {q.completionQueue[o.endSeq]},
                   completionQueue := q.completionQueue - {o.endSeq},
                   completed := q.completed + [id],
                   outboundReads := q.outboundReads - if isRead then 1 else 0))
      else Some(q1)
  }

  // The QP context as the object that the two components update in place.
  class QpContext {
    var nextRsn: nat
    var sendQueue: seq<nat>
    var ops: map<nat, Op>
    var rsnToOp: map<nat, nat>
    var completionQueue: map<nat, nat>
    var outboundReads: int
    var completed: seq<nat>

    constructor ()
      ensures View() == Boot.q
    {
      nextRsn, sendQueue, ops := 0, [], map[];
      rsnToOp, completionQueue, outboundReads, completed := map[], map[], 0, [];
    }

    function View(): Context
      reads this
    {
      Context(nextRsn, sendQueue, ops, rsnToOp, completionQueue, outboundReads, completed)
    }

    method SendOne(mtu: nat) returns (rsn: nat, last: bool)
      requires CanCut(View())
      modifies this
      ensures View() == CreateRequestPacket(old(View()), mtu)
      ensures rsn == old(nextRsn) && last == IsEnd(old(ops[sendQueue[0]]), mtu)
    {
      hide Cut;
      var id := sendQueue[0];
      var op := ops[id];
      if op.inlineLength != 0 {
        last := true;
      } else {
        op := op.(sgl := Cut(op.sgl, mtu).rest);
        last := op.sgl == [];
      }
      rsn := nextRsn;
      nextRsn := nextRsn + 1;
      if !op.scheduled {
        op := op.(scheduled := true, startSeq := rsn);
      }
      if rsn !in rsnToOp {
        rsnToOp := rsnToOp[rsn := id];
      }
      if op.read {
        outboundReads := outboundReads + 1;
      }
      if last {
        op := op.(endSeq := rsn, nSeqs := rsn - op.startSeq + 1);
        if rsn !in completionQueue {
          completionQueue := completionQueue[rsn := id];
        }
        sendQueue := sendQueue[1..];
      }
      ops := ops[id := op];
    }

    // `ok` is false where the source would fail a CHECK or use a destroyed operation.
    method ProcessAnswer(rsn: nat, isRead: bool) returns (ok: bool)
      modifies this
      ensures ok == Finish(old(View()), rsn, isRead).Some?
      ensures ok ==> View() == Finish(old(View()), rsn, isRead).value
    {
      if rsn !in rsnToOp || rsnToOp[rsn] !in ops {
        return false;
      }
      var id := rsnToOp[rsn];
      var op := ops[id].(finished := ops[id].finished + 1);
      ops := ops[id := op];
      if op.nSeqs > 0 && op.finished == op.nSeqs {
        if op.endSeq !in completionQueue {
          return false;
        }
        completed := completed + [id];
        ops := ops - {completionQueue[op.endSeq]};
        completionQueue := completionQueue - {op.endSeq};
        if isRead {
          outboundReads := outboundReads - 1;
        }
      }
      rsnToOp := rsnToOp - {rsn};
      return true;
    }
  }

  // ---- the QP and what surrounds it -------------------------------------------

  // The ULP's operations in the order posted, the operation each RSN was used for,
  // and the transactions that Falcon has still to answer (true for reads).
  datatype System = System(q: Context, posted: seq<Spec>, owner: seq<nat>, flying: map<nat, bool>)

  datatype Step = Post(spec: Spec) | Send | Answer(rsn: nat)

  // What PerformOp checks: no empty segment, inline data only without a list, and no
  // inline read.
  predicate Checked(spec: Spec) {
    && Positive(spec.sgl)
    && (spec.inlineLength != 0 ==> spec.sgl == [] && !spec.read)
  }

  // Falcon answers each transaction at most once, in any order.
  predicate Enabled(s: System, step: Step) {
    match step
    case Post(spec) => Checked(spec)
    case Send => s.q.sendQueue != []
    case Answer(rsn) => rsn in s.flying
  }

  function Next(s: System, step: Step, mtu: nat): (r: Option<System>)
    requires Enabled(s, step)
  {
    match step
    case Post(spec) =>
      var id := |s.posted|;
      var o := Op(spec.sgl, spec.inlineLength, spec.read, false, 0, 0, 0, 0);
      Some(s.(posted := s.posted + [spec], q := s.q.(ops := s.q.ops[id := o], sendQueue := s.q.sendQueue + [id])))
    case Send =>
      if !CanCut(s.q) then None
      else
        var id := s.q.sendQueue[0];
        Some(s.(q := CreateRequestPacket(s.q, mtu), owner := s.owner + [id],
                flying := s.flying[s.q.nextRsn := s.q.ops[id].read]))
    case Answer(rsn) =>
      var q := Finish(s.q, rsn, s.flying[rsn]);
      if q.None? then None else Some(s.(q := q.value, flying := s.flying - {rsn}))
  }

  const Boot := System(Context(0, [], map[], map[], map[], 0, []), [], [], map[])

  // ---- the invariant -----------------------------------------------------------

  // How many of the first k RSNs were used for an operation, and how many of them
  // are still to be answered.
  function Used(owner: seq<nat>, id: nat): nat {
    if owner == [] then 0
    else Used(owner[..|owner| - 1], id) + if owner[|owner| - 1] == id then 1 else 0
  }

  function Open(m: map<nat, nat>, id: nat, k: nat): nat {
    if k == 0 then 0 else Open(m, id, k - 1) + if k - 1 in m && m[k - 1] == id then 1 else 0
  }

  // The first operation that still has transactions to send.
  function Front(s: System): int { |s.posted| - |s.q.sendQueue| }

  predicate QueueOk(s: System) {
    && |s.q.sendQueue| <= |s.posted|
    && (forall k :: 0 <= k < |s.q.sendQueue| ==> s.q.sendQueue[k] == Front(s) + k)
    && (forall id | Front(s) <= id < |s.posted| :: id in s.q.ops)
  }

  // RSNs are used in the order of posting, up to the operation at the front.
  predicate OwnersOk(s: System) {
    && |s.owner| == s.q.nextRsn
    && (forall r :: 0 <= r < |s.owner| ==> s.owner[r] <= Front(s) && s.owner[r] < |s.posted|)
    && (forall r :: 0 <= r < |s.owner| ==> s.owner[r] == Front(s) ==> s.owner[r] in s.q.ops && s.q.ops[s.owner[r]].scheduled)
    && (forall r, r' :: 0 <= r < r' < |s.owner| ==> s.owner[r] <= s.owner[r'])
  }

  predicate AnswersOk(s: System) {
    && s.flying.Keys == s.q.rsnToOp.Keys
    && (forall r :: r in s.q.rsnToOp ==>
          r < |s.owner| && s.q.rsnToOp[r] == s.owner[r] && s.owner[r] in s.q.ops)
    && (forall r :: r in s.flying && r < |s.owner| && s.owner[r] < |s.posted| ==>
          s.flying[r] == s.posted[s.owner[r]].read)
  }

  // One operation that has not been destroyed.
  ghost predicate OpOk(s: System, id: nat)
    requires id in s.q.ops
  {
    var o := s.q.ops[id];
    && id < |s.posted| && o.read == s.posted[id].read
    && o.finished + Open(s.q.rsnToOp, id, s.q.nextRsn) == Used(s.owner, id)
    && (o.scheduled <==> Used(s.owner, id) > 0)
    && (id >= Front(s) ==> o.nSeqs == 0 && (o.scheduled ==> o.startSeq + Used(s.owner, id) == s.q.nextRsn))
    && (id < Front(s) ==>
          && o.nSeqs == Used(s.owner, id) && o.finished < o.nSeqs
          && o.endSeq in s.q.completionQueue && s.q.completionQueue[o.endSeq] == id)
  }

  ghost predicate CompletedOk(s: System) {
    && (forall e :: e in s.q.completionQueue ==>
          var id := s.q.completionQueue[e];
          e < s.q.nextRsn && id in s.q.ops && id < Front(s) && s.q.ops[id].endSeq == e)
    && (forall j, k :: 0 <= j < k < |s.q.completed| ==> s.q.completed[j] != s.q.completed[k])
    && (forall id: nat :: id in s.q.completed <==> id < Front(s) && id !in s.q.ops)
  }

  ghost predicate Inv(s: System) {
    && QueueOk(s) && OwnersOk(s) && AnswersOk(s) && CompletedOk(s)
    && (forall id :: id in s.q.ops ==> OpOk(s, id))
  }

  lemma {:induction false} OpenSame(m: map<nat, nat>, m': map<nat, nat>, id: nat, k: nat)
    requires forall r :: 0 <= r < k ==> ((r in m' && m'[r] == id) <==> (r in m && m[r] == id))
    ensures Open(m', id, k) == Open(m, id, k)
  {
    if k > 0 {
      OpenSame(m, m', id, k - 1);
    }
  }

  lemma {:induction false} OpenRemove(m: map<nat, nat>, r: nat, id: nat, k: nat)
    requires r in m && m[r] == id && r < k
    ensures Open(m - {r}, id, k) + 1 == Open(m, id, k)
  {
    if r == k - 1 {
      OpenSame(m, m - {r}, id, k - 1);
    } else {
      OpenRemove(m, r, id, k - 1);
    }
  }

  lemma {:induction false} OpenPositive(m: map<nat, nat>, id: nat, k: nat) returns (r: nat)
    requires Open(m, id, k) > 0
    ensures r < k && r in m && m[r] == id
  {
    if k - 1 in m && m[k - 1] == id {
      r := k - 1;
    } else {
      r := OpenPositive(m, id, k - 1);
    }
  }

  lemma {:induction false} UsedPositive(owner: seq<nat>, id: nat)
    ensures Used(owner, id) > 0 <==> id in owner
  {
    if owner != [] {
      var n := |owner| - 1;
      UsedPositive(owner[..n], id);
      assert id in owner <==> id in owner[..n] || id == owner[n];
    }
  }

  lemma UsedAppend(owner: seq<nat>, x: nat, id: nat)
    ensures Used(owner + [x], id) == Used(owner, id) + if x == id then 1 else 0
  {
    assert (owner + [x])[..|owner|] == owner;
  }

  lemma PostOps(s: System, spec: Spec, mtu: nat, id: nat)
    requires Checked(spec) && QueueOk(s) && OwnersOk(s) && AnswersOk(s)
    requires if id in s.q.ops then OpOk(s, id) && id < |s.posted| else id == |s.posted|
    ensures var s' := Next(s, Post(spec), mtu).value; id in s'.q.ops && OpOk(s', id)
  {
    if id == |s.posted| {
      UsedPositive(s.owner, id);
      if Open(s.q.rsnToOp, id, s.q.nextRsn) > 0 {
        var r := OpenPositive(s.q.rsnToOp, id, s.q.nextRsn);
      }
    }
  }

  lemma PostQueues(s: System, spec: Spec, mtu: nat)
    requires Checked(spec) && QueueOk(s) && OwnersOk(s)
    ensures var s' := Next(s, Post(spec), mtu).value; QueueOk(s') && OwnersOk(s')
  {
  }

  lemma PostRest(s: System, spec: Spec, mtu: nat)
    requires Checked(spec) && QueueOk(s) && OwnersOk(s) && AnswersOk(s) && CompletedOk(s)
    requires forall id :: id in s.q.ops ==> id < |s.posted|
    ensures var s' := Next(s, Post(spec), mtu).value; AnswersOk(s') && CompletedOk(s')
  {
  }

  lemma PostKeeps(s: System, spec: Spec, mtu: nat)
    requires Checked(spec) && Inv(s)
    ensures Inv(Next(s, Post(spec), mtu).value)
  {
    var s' := Next(s, Post(spec), mtu).value;
    assert forall id :: id in s.q.ops ==> OpOk(s, id) && id < |s.posted|;
    PostQueues(s, spec, mtu);
    PostRest(s, spec, mtu);
    hide OpOk, QueueOk, OwnersOk, AnswersOk, CompletedOk;
    forall id | id in s'.q.ops
      ensures OpOk(s', id)
    {
      PostOps(s, spec, mtu, id);
    }
  }

  // What sending changes.
  lemma SendFrame(s: System, mtu: nat)
    requires QueueOk(s) && OwnersOk(s) && AnswersOk(s) && CompletedOk(s) && CanCut(s.q)
    ensures Next(s, Send, mtu).Some?
    ensures var s' := Next(s, Send, mtu).value;
            var f := s.q.sendQueue[0];
            && s'.posted == s.posted && s'.owner == s.owner + [f] && s'.q.nextRsn == s.q.nextRsn + 1
            && Front(s) <= Front(s') <= Front(s) + 1 == f + 1
            && s'.q.ops == s.q.ops[f := CutOne(s.q.ops[f], s.q.nextRsn, mtu)]
            && Front(s') == Front(s) + (if IsEnd(s.q.ops[f], mtu) then 1 else 0)
            && (IsEnd(s.q.ops[f], mtu) ==>
                  s.q.nextRsn in s'.q.completionQueue && s'.q.completionQueue[s.q.nextRsn] == f)
            && s'.q.rsnToOp == s.q.rsnToOp[s.q.nextRsn := f]
            && s'.q.outboundReads == s.q.outboundReads + (if s.q.ops[f].read then 1 else 0)
            && (forall e :: e in s.q.completionQueue ==>
                  e in s'.q.completionQueue && s'.q.completionQueue[e] == s.q.completionQueue[e])
  {
    hide Cut, CutOne;
    assert s.q.nextRsn !in s.q.rsnToOp && s.q.nextRsn !in s.q.completionQueue;
  }

  // The operation a transaction is cut from.
  lemma SendFront(s: System, mtu: nat)
    requires QueueOk(s) && OwnersOk(s) && AnswersOk(s) && CompletedOk(s) && CanCut(s.q) && OpOk(s, s.q.sendQueue[0])
    ensures var s' := Next(s, Send, mtu).value; s.q.sendQueue[0] in s'.q.ops && OpOk(s', s.q.sendQueue[0])
  {
    hide Cut, Next, CreateRequestPacket, QueueOk, OwnersOk, AnswersOk, CompletedOk;
    SendFrame(s, mtu);
    var s' := Next(s, Send, mtu).value;
    var f := s.q.sendQueue[0];
    UsedAppend(s.owner, f, f);
    OpenSame(s.q.rsnToOp, s'.q.rsnToOp, f, s.q.nextRsn);
  }

  lemma SendOther(s: System, mtu: nat, id: nat)
    requires QueueOk(s) && OwnersOk(s) && AnswersOk(s) && CompletedOk(s) && CanCut(s.q) && id in s.q.ops && OpOk(s, id)
    requires id != s.q.sendQueue[0]
    ensures id in Next(s, Send, mtu).value.q.ops && OpOk(Next(s, Send, mtu).value, id)
  {
    hide CutOne, Cut, Next, AnswersOk, CompletedOk, CreateRequestPacket;
    SendFrame(s, mtu);
    var s' := Next(s, Send, mtu).value;
    UsedAppend(s.owner, s.q.sendQueue[0], id);
    UsedPositive(s.owner, id);
    OpenSame(s.q.rsnToOp, s'.q.rsnToOp, id, s.q.nextRsn);
  }

  lemma SendQueues(s: System, mtu: nat)
    requires QueueOk(s) && OwnersOk(s) && CanCut(s.q)
    ensures var s' := Next(s, Send, mtu).value; QueueOk(s') && OwnersOk(s')
  {
    hide Cut;
  }

  lemma SendAnswers(s: System, mtu: nat)
    requires QueueOk(s) && OwnersOk(s) && AnswersOk(s) && CanCut(s.q)
    requires s.q.ops[s.q.sendQueue[0]].read == s.posted[s.q.sendQueue[0]].read
    ensures AnswersOk(Next(s, Send, mtu).value)
  {
    hide Cut, CutOne;
  }

  lemma SendCompleted(s: System, mtu: nat)
    requires QueueOk(s) && CompletedOk(s) && CanCut(s.q)
    ensures CompletedOk(Next(s, Send, mtu).value)
  {
    hide Cut;
  }

  lemma SendKeeps(s: System, mtu: nat)
    requires Inv(s) && s.q.sendQueue != []
    ensures Next(s, Send, mtu).Some? && Inv(Next(s, Send, mtu).value)
  {
    var f := s.q.sendQueue[0];
    assert OpOk(s, f) && s.q.ops[f].read == s.posted[f].read;
    var s' := Next(s, Send, mtu).value;
    SendFrame(s, mtu);
    hide OpOk, CutOne, Next, QueueOk, OwnersOk, AnswersOk, CompletedOk;
    forall id | id in s'.q.ops
      ensures OpOk(s', id)
    {
      if id == f {
        SendFront(s, mtu);
      } else {
        SendOther(s, mtu, id);
      }
    }
    SendQueues(s, mtu);
    SendAnswers(s, mtu);
    SendCompleted(s, mtu);
  }

  // The last answer an operation waits for is the one that completes it.
  lemma AnswerCounts(s: System, rsn: nat)
    requires AnswersOk(s) && OwnersOk(s) && rsn in s.q.rsnToOp && OpOk(s, s.q.rsnToOp[rsn])
    ensures var x := s.q.rsnToOp[rsn];
            var o := s.q.ops[x];
            && (o.nSeqs > 0 <==> x < Front(s))
            && Open(s.q.rsnToOp - {rsn}, x, s.q.nextRsn) + o.finished + 1 == Used(s.owner, x)
  {
    OpenRemove(s.q.rsnToOp, rsn, s.q.rsnToOp[rsn], s.q.nextRsn);
  }

  lemma AnswerOther(s: System, rsn: nat, mtu: nat, id: nat)
    requires QueueOk(s) && OwnersOk(s) && AnswersOk(s) && CompletedOk(s) && rsn in s.flying
    requires id in s.q.ops && OpOk(s, id) && OpOk(s, s.q.rsnToOp[rsn]) && id != s.q.rsnToOp[rsn]
    ensures Next(s, Answer(rsn), mtu).Some?
    ensures var s' := Next(s, Answer(rsn), mtu).value; id in s'.q.ops && OpOk(s', id)
  {
    hide Next, Finish, QueueOk, OwnersOk, CompletedOk;
    AnswerOwn(s, rsn, mtu);
    OpenSame(s.q.rsnToOp, s.q.rsnToOp - {rsn}, id, s.q.nextRsn);
  }

  lemma AnswerOwn(s: System, rsn: nat, mtu: nat)
    requires QueueOk(s) && OwnersOk(s) && AnswersOk(s) && CompletedOk(s) && rsn in s.flying
    requires OpOk(s, s.q.rsnToOp[rsn])
    ensures Next(s, Answer(rsn), mtu).Some?
    ensures var s' := Next(s, Answer(rsn), mtu).value;
            var x := s.q.rsnToOp[rsn];
            && s'.posted == s.posted && s'.owner == s.owner && s'.q.nextRsn == s.q.nextRsn
            && s'.q.sendQueue == s.q.sendQueue
            && s'.q.rsnToOp == s.q.rsnToOp - {rsn} && s'.flying == s.flying - {rsn}
            && s'.q.ops.Keys == (if x in s'.q.ops then s.q.ops.Keys else s.q.ops.Keys - {x})
            && (x in s'.q.ops ==> OpOk(s', x) && s'.q.completed == s.q.completed
                                  && s'.q.completionQueue == s.q.completionQueue)
            && (x !in s'.q.ops ==> x < Front(s) && Open(s'.q.rsnToOp, x, s.q.nextRsn) == 0
                                   && s'.q.completed == s.q.completed + [x]
                                   && s'.q.completionQueue == s.q.completionQueue - {s.q.ops[x].endSeq})
            && (forall id :: id in s'.q.ops && id != x ==> s'.q.ops[id] == s.q.ops[id])
            && (x in s'.q.ops ==> s'.q.ops[x].endSeq == s.q.ops[x].endSeq
                                  && s'.q.ops[x].scheduled == s.q.ops[x].scheduled
                                  && s'.q.ops[x].read == s.q.ops[x].read)
            && s'.q.outboundReads == s.q.outboundReads - (if s.flying[rsn] && x !in s'.q.ops then 1 else 0)
  {
    hide QueueOk, OwnersOk, Open, Used;
    AnswerCounts(s, rsn);
  }

  lemma AnswerQueues(s: System, rsn: nat, mtu: nat)
    requires QueueOk(s) && OwnersOk(s) && AnswersOk(s) && CompletedOk(s) && rsn in s.flying
    requires OpOk(s, s.q.rsnToOp[rsn])
    ensures Next(s, Answer(rsn), mtu).Some?
    ensures var s' := Next(s, Answer(rsn), mtu).value; QueueOk(s') && OwnersOk(s')
  {
    hide OpOk, CompletedOk, AnswersOk, Next, Finish, Open, Used;
    AnswerOwn(s, rsn, mtu);
  }

  // An RSN still open does not refer to an operation that was just completed.
  lemma AnswerLive(s: System, rsn: nat, mtu: nat, r: nat)
    requires QueueOk(s) && OwnersOk(s) && AnswersOk(s) && CompletedOk(s) && rsn in s.flying
    requires OpOk(s, s.q.rsnToOp[rsn])
    requires r in s.q.rsnToOp && r != rsn
    ensures Next(s, Answer(rsn), mtu).Some? && s.q.rsnToOp[r] in Next(s, Answer(rsn), mtu).value.q.ops
  {
    assert r < s.q.nextRsn && s.q.rsnToOp[r] in s.q.ops;
    hide OpOk, CompletedOk, Next, Finish, QueueOk, OwnersOk, AnswersOk, Used;
    AnswerOwn(s, rsn, mtu);
    var x := s.q.rsnToOp[rsn];
    if s.q.rsnToOp[r] == x {
      OpenRemove(s.q.rsnToOp - {rsn}, r, x, s.q.nextRsn);
    }
  }

  lemma AnswerAnswers(s: System, rsn: nat, mtu: nat)
    requires QueueOk(s) && OwnersOk(s) && AnswersOk(s) && CompletedOk(s) && rsn in s.flying
    requires OpOk(s, s.q.rsnToOp[rsn])
    ensures Next(s, Answer(rsn), mtu).Some? && AnswersOk(Next(s, Answer(rsn), mtu).value)
  {
    hide OpOk, CompletedOk, Next, Finish, QueueOk, OwnersOk, Used, Open;
    AnswerOwn(s, rsn, mtu);
    var s' := Next(s, Answer(rsn), mtu).value;
    forall r | r in s'.q.rsnToOp
      ensures s.q.rsnToOp[r] in s'.q.ops
    {
      AnswerLive(s, rsn, mtu, r);
    }
  }

  // Completing an operation moves it from the queue to the log.
  lemma CompleteOne(s: System, s': System, x: nat)
    requires CompletedOk(s) && x in s.q.ops && x < Front(s) == Front(s') && s'.q.nextRsn == s.q.nextRsn
    requires s'.q.completed == s.q.completed + [x]
    requires s'.q.completionQueue == s.q.completionQueue - {s.q.ops[x].endSeq}
    requires s'.q.ops.Keys == s.q.ops.Keys - {x} && forall id :: id in s'.q.ops ==> s'.q.ops[id] == s.q.ops[id]
    ensures CompletedOk(s')
  {
    assert forall id: nat :: id in s.q.completed + [x] <==> id in s.q.completed || id == x;
    assert x !in s.q.completed;
  }

  lemma AnswerCompleted(s: System, rsn: nat, mtu: nat)
    requires QueueOk(s) && OwnersOk(s) && AnswersOk(s) && CompletedOk(s) && rsn in s.flying
    requires OpOk(s, s.q.rsnToOp[rsn])
    ensures Next(s, Answer(rsn), mtu).Some? && CompletedOk(Next(s, Answer(rsn), mtu).value)
  {
    hide OpOk, Next, Finish, Open;
    AnswerOwn(s, rsn, mtu);
    var x, s' := s.q.rsnToOp[rsn], Next(s, Answer(rsn), mtu).value;
    if x !in s'.q.ops {
      hide CompletedOk;
      CompleteOne(s, s', x);
    }
  }

  lemma AnswerKeeps(s: System, rsn: nat, mtu: nat)
    requires Inv(s) && rsn in s.flying
    ensures Next(s, Answer(rsn), mtu).Some? && Inv(Next(s, Answer(rsn), mtu).value)
  {
    var x := s.q.rsnToOp[rsn];
    assert OpOk(s, x);
    hide OpOk, Next, Finish;
    AnswerOwn(s, rsn, mtu);
    AnswerQueues(s, rsn, mtu);
    AnswerAnswers(s, rsn, mtu);
    AnswerCompleted(s, rsn, mtu);
    var s' := Next(s, Answer(rsn), mtu).value;
    hide QueueOk, OwnersOk, AnswersOk, CompletedOk;
    forall id | id in s'.q.ops
      ensures OpOk(s', id)
    {
      if id != x {
        AnswerOther(s, rsn, mtu, id);
      }
    }
  }

  // ---- outbound reads -----------------------------------------------------------

  // Transactions of reads beyond the first of their operation.
  function ExtraReads(owner: seq<nat>, posted: seq<Spec>): nat
    requires forall r :: 0 <= r < |owner| ==> owner[r] < |posted|
  {
    if |owner| < 2 then 0
    else
      var n := |owner| - 1;
      ExtraReads(owner[..n], posted) + if owner[n - 1] == owner[n] && posted[owner[n]].read then 1 else 0
  }

  // Reads that have sent a transaction and are not complete.
  ghost function StartedReads(s: System): set<nat> {
    set id | id in s.q.ops && s.q.ops[id].scheduled && s.q.ops[id].read
  }

  ghost predicate ReadsOk(s: System)
    requires OwnersOk(s)
  {
    s.q.outboundReads == ExtraReads(s.owner, s.posted) + |StartedReads(s)|
  }

  lemma {:induction false} ExtraSame(owner: seq<nat>, posted: seq<Spec>, posted': seq<Spec>)
    requires posted <= posted' && forall r :: 0 <= r < |owner| ==> owner[r] < |posted|
    ensures ExtraReads(owner, posted') == ExtraReads(owner, posted)
    decreases |owner|
  {
    if |owner| >= 2 {
      ExtraSame(owner[..|owner| - 1], posted, posted');
    }
  }

  lemma PostReads(s: System, spec: Spec, mtu: nat)
    requires Checked(spec) && Inv(s) && ReadsOk(s)
    ensures var s' := Next(s, Post(spec), mtu).value; OwnersOk(s') && ReadsOk(s')
  {
    PostQueues(s, spec, mtu);
    var s' := Next(s, Post(spec), mtu).value;
    ExtraSame(s.owner, s.posted, s'.posted);
    assert forall id :: id in s.q.ops ==> OpOk(s, id) && id < |s.posted|;
    assert StartedReads(s') == StartedReads(s);
  }

  lemma SendReads(s: System, mtu: nat)
    requires Inv(s) && ReadsOk(s) && s.q.sendQueue != []
    ensures Next(s, Send, mtu).Some?
    ensures var s' := Next(s, Send, mtu).value; OwnersOk(s') && ReadsOk(s')
  {
    var f := s.q.sendQueue[0];
    assert OpOk(s, f);
    UsedPositive(s.owner, f);
    hide OpOk, AnswersOk, CompletedOk, Next, CutOne;
    SendFrame(s, mtu);
    SendQueues(s, mtu);
    CutRead(s.q.ops[f], s.q.nextRsn, mtu);
    hide QueueOk;
    StartRead(s, Next(s, Send, mtu).value, f);
  }

  lemma CutRead(o: Op, rsn: nat, mtu: nat)
    requires o.scheduled ==> o.startSeq <= rsn
    ensures CutOne(o, rsn, mtu).read == o.read && CutOne(o, rsn, mtu).scheduled
  {
  }

  lemma StartRead(s: System, s': System, f: nat)
    requires OwnersOk(s) && OwnersOk(s') && ReadsOk(s) && f in s.q.ops && f < |s.posted| && f == Front(s)
    requires s.q.ops[f].read == s.posted[f].read && (s.q.ops[f].scheduled <==> f in s.owner)
    requires f in s'.q.ops && s'.posted == s.posted && s'.owner == s.owner + [f]
    requires s'.q.ops == s.q.ops[f := s'.q.ops[f]] && s'.q.ops[f].read == s.q.ops[f].read && s'.q.ops[f].scheduled
    requires s'.q.outboundReads == s.q.outboundReads + if s.q.ops[f].read then 1 else 0
    ensures ReadsOk(s')
  {
    var n := |s.owner|;
    assert s'.owner[..n] == s.owner;
    assert f in s.owner <==> n > 0 && s.owner[n - 1] == f;
    hide OwnersOk, StartedReads;
    StartedGrows(s, s', f);
  }

  lemma StartedGrows(s: System, s': System, f: nat)
    requires f in s.q.ops && f in s'.q.ops
    requires s'.q.ops == s.q.ops[f := s'.q.ops[f]] && s'.q.ops[f].read == s.q.ops[f].read && s'.q.ops[f].scheduled
    ensures |StartedReads(s')| == |StartedReads(s)| + if s.q.ops[f].read && !s.q.ops[f].scheduled then 1 else 0
  {
    if s.q.ops[f].read && !s.q.ops[f].scheduled {
      assert StartedReads(s') == StartedReads(s) + {f};
      assert f !in StartedReads(s);
    } else {
      assert StartedReads(s') == StartedReads(s);
    }
  }

  lemma AnswerReads(s: System, rsn: nat, mtu: nat)
    requires Inv(s) && ReadsOk(s) && rsn in s.flying
    ensures Next(s, Answer(rsn), mtu).Some?
    ensures var s' := Next(s, Answer(rsn), mtu).value; OwnersOk(s') && ReadsOk(s')
  {
    hide Next, Finish, QueueOk, CompletedOk, Open, Used, ReadsOk;
    var x := s.q.rsnToOp[rsn];
    assert OpOk(s, x);
    UsedPositive(s.owner, x);
    assert s.q.ops[x].scheduled && s.flying[rsn] == s.q.ops[x].read;
    hide OpOk, AnswersOk, OwnersOk;
    AnswerOwn(s, rsn, mtu);
    AnswerQueues(s, rsn, mtu);
    FinishRead(s, Next(s, Answer(rsn), mtu).value, x);
  }

  lemma FinishRead(s: System, s': System, x: nat)
    requires OwnersOk(s) && OwnersOk(s') && ReadsOk(s) && x in s.q.ops && s.q.ops[x].scheduled
    requires s'.posted == s.posted && s'.owner == s.owner
    requires s'.q.ops.Keys == if x in s'.q.ops then s.q.ops.Keys else s.q.ops.Keys - {x}
    requires forall id :: id in s'.q.ops ==> s'.q.ops[id].read == s.q.ops[id].read
                                             && s'.q.ops[id].scheduled == s.q.ops[id].scheduled
    requires s'.q.outboundReads == s.q.outboundReads - if s.q.ops[x].read && x !in s'.q.ops then 1 else 0
    ensures ReadsOk(s')
  {
    hide OwnersOk, ExtraReads;
    assert StartedReads(s') == if x in s'.q.ops then StartedReads(s) else StartedReads(s) - {x};
  }

  // ---- whole runs -----------------------------------------------------------------

  datatype History = Start | After(before: History, step: Step)

  // The system after a run; None once something has gone wrong.
  function Reach(h: History, mtu: nat): Option<System> {
    match h
    case Start => Some(Boot)
    case After(before, step) =>
      var s := Reach(before, mtu);
      if s.None? || !Enabled(s.value, step) then None else Next(s.value, step, mtu)
  }

  predicate Legal(h: History, mtu: nat) {
    match h
    case Start => true
    case After(before, step) =>
      Legal(before, mtu) && (Reach(before, mtu).Some? ==> Enabled(Reach(before, mtu).value, step))
  }

  // No CHECK fails, no operation is used after it was destroyed, and the invariant
  // survives.
  lemma Keeps(s: System, step: Step, mtu: nat)
    requires Inv(s) && ReadsOk(s) && Enabled(s, step)
    ensures Next(s, step, mtu).Some? && Inv(Next(s, step, mtu).value) && ReadsOk(Next(s, step, mtu).value)
  {
    hide QueueOk, OwnersOk, AnswersOk, CompletedOk, OpOk, ReadsOk;
    match step
    case Post(spec) =>
      PostKeeps(s, spec, mtu);
      PostReads(s, spec, mtu);
    case Send =>
      SendKeeps(s, mtu);
      SendReads(s, mtu);
    case Answer(rsn) =>
      AnswerKeeps(s, rsn, mtu);
      AnswerReads(s, rsn, mtu);
  }

  lemma {:induction false} RunsKeepInv(h: History, mtu: nat)
    requires Legal(h, mtu)
    ensures Reach(h, mtu).Some? && Inv(Reach(h, mtu).value) && ReadsOk(Reach(h, mtu).value)
  {
    match h
    case Start =>
      assert StartedReads(Boot) == {};
    case After(before, step) =>
      RunsKeepInv(before, mtu);
      Keeps(Reach(before, mtu).value, step, mtu);
  }

  // However the answers are ordered, an operation is completed once all its
  // transactions were sent and answered, not before, and only once; and no RSN still
  // refers to an operation that has been destroyed.
  lemma CompletesExactlyOnce(h: History, mtu: nat, id: nat)
    requires Legal(h, mtu)
    ensures Reach(h, mtu).Some?
    ensures var s := Reach(h, mtu).value;
            && (forall r :: r in s.flying ==> r < |s.owner| && r in s.q.rsnToOp && s.q.rsnToOp[r] == s.owner[r]
                                              && s.owner[r] in s.q.ops)
            && (id in s.q.completed <==> id < Front(s) && forall r :: r in s.flying ==> s.owner[r] != id)
            && (forall j, k :: 0 <= j < k < |s.q.completed| ==> s.q.completed[j] != s.q.completed[k])
  {
    hide Reach, Legal, ReadsOk;
    RunsKeepInv(h, mtu);
    var s := Reach(h, mtu).value;
    if id in s.q.ops && id < Front(s) {
      StillWaiting(s, id);
    }
  }

  lemma StillWaiting(s: System, id: nat)
    requires Inv(s) && id in s.q.ops && id < Front(s)
    ensures exists r :: r in s.flying && r < |s.owner| && s.owner[r] == id
  {
    assert OpOk(s, id);
    var r := OpenPositive(s.q.rsnToOp, id, s.q.nextRsn);
    assert r in s.flying;
  }

  // The RSNs of an operation are consecutive and follow the order of posting, and
  // until it is complete its finished and open transactions add up to those sent.
  lemma TransactionsBalance(h: History, mtu: nat, id: nat)
    requires Legal(h, mtu)
    ensures Reach(h, mtu).Some?
    ensures var s := Reach(h, mtu).value;
            && |s.owner| == s.q.nextRsn
            && (forall r, r' :: 0 <= r < r' < |s.owner| ==> s.owner[r] <= s.owner[r'])
            && (id in s.q.ops ==>
                  s.q.ops[id].finished + Open(s.q.rsnToOp, id, s.q.nextRsn) == Used(s.owner, id))
            && (id in s.q.ops && id < Front(s) ==> s.q.ops[id].nSeqs == Used(s.owner, id))
  {
    hide Reach, Legal, ReadsOk, Open, Used;
    RunsKeepInv(h, mtu);
    assert id in Reach(h, mtu).value.q.ops ==> OpOk(Reach(h, mtu).value, id);
  }

  // When everything has been answered, the reads still counted are the transactions of
  // reads beyond the first of their operation.
  lemma ReadsLeft(h: History, mtu: nat)
    requires Legal(h, mtu)
    ensures Reach(h, mtu).Some?
    ensures var s := Reach(h, mtu).value;
            s.q.sendQueue == [] && s.flying == map[] ==>
              OwnersOk(s) && s.q.outboundReads == ExtraReads(s.owner, s.posted)
  {
    hide Reach, Legal;
    RunsKeepInv(h, mtu);
    var s := Reach(h, mtu).value;
    if s.q.sendQueue == [] && s.flying == map[] {
      forall id | id in s.q.ops
        ensures false
      {
        StillWaiting(s, id);
      }
      assert StartedReads(s) == {};
    }
  }

  // A read of two transactions, answered in full: the count stays at one.
  lemma ReadCountLeaks()
    ensures var h := After(After(After(After(After(Start, Post(Spec([2], 0, true))), Send), Send), Answer(0)), Answer(1));
            && Legal(h, 1)
            && Reach(h, 1).Some?
            && Reach(h, 1).value.q.completed == [0] && Reach(h, 1).value.flying == map[]
            && Reach(h, 1).value.q.outboundReads == 1
  {
    hide Reach, Legal;
    var h := After(After(After(Start, Post(Spec([2], 0, true))), Send), Send);
    LeakSends();
    var s := Reach(h, 1).value;
    var s1 := Next(s, Answer(0), 1).value;
    assert s1.q.ops[0].finished == 1 && s1.flying == map[1 := true] && 0 !in s1.q.rsnToOp;
    ReachOne(h, Answer(0), 1);
    var s2 := Next(s1, Answer(1), 1).value;
    assert s2.flying == map[];
    ReachOne(After(h, Answer(0)), Answer(1), 1);
  }

  lemma ReachOne(h: History, step: Step, mtu: nat)
    requires Legal(h, mtu) && Reach(h, mtu).Some? && Enabled(Reach(h, mtu).value, step)
    ensures Legal(After(h, step), mtu) && Reach(After(h, step), mtu) == Next(Reach(h, mtu).value, step, mtu)
  {
  }

  lemma LeakSends()
    ensures var h := After(After(After(Start, Post(Spec([2], 0, true))), Send), Send);
            && Legal(h, 1)
            && Reach(h, 1).Some?
            && var s := Reach(h, 1).value;
            && s.flying == map[0 := true, 1 := true]
            && s.q.ops.Keys == {0} && s.q.ops[0].nSeqs == 2 && s.q.ops[0].finished == 0 && s.q.ops[0].endSeq == 1
            && s.q.rsnToOp == map[0 := 0, 1 := 0] && s.q.completionQueue == map[1 := 0]
            && s.q.completed == [] && s.q.outboundReads == 2
  {
    var h := After(Start, Post(Spec([2], 0, true)));
    assert Cut([2], 1).rest == [1] && Cut([1], 1).rest == [];
    var s0 := Reach(h, 1).value;
    var s1 := Next(s0, Send, 1).value;
    assert s1.q.ops[0] == Op([1], 0, true, true, 0, 0, 0, 0);
    var s2 := Next(s1, Send, 1).value;
    assert s2.flying == map[0 := true, 1 := true];
  }
}
