// How many transactions an operation takes, and what that leaves of the outbound read
// count.
module CompletionCounts {
  import opened Common
  import opened Sgl
  import opened Completion

  // Transactions of an operation: inline data goes out in one, a list in as many as its
  // bytes fill.
  function Count(spec: Spec, mtu: nat): (n: nat)
    requires Checked(spec) && mtu > 0
  {
    if spec.inlineLength != 0 || spec.sgl == [] then 1 else CeilDiv(Total(spec.sgl), mtu)
  }

  // ---- transactions sent and to be sent ------------------------------------------

  // An operation that still has transactions to send has as many left as its list needs.
  predicate Pending(o: Op, spec: Spec, used: nat, mtu: nat)
    requires Checked(spec) && mtu > 0
  {
    && o.inlineLength == spec.inlineLength
    && if o.inlineLength != 0 then used == 0
       else Positive(o.sgl) && used + |Packets(o.sgl, mtu)| == |Packets(spec.sgl, mtu)|
  }

  ghost predicate CountOk(s: System, id: nat, mtu: nat)
    requires id < |s.posted| && mtu > 0
  {
    && Checked(s.posted[id])
    && if id < Front(s) then Used(s.owner, id) == Count(s.posted[id], mtu)
       else id in s.q.ops && Pending(s.q.ops[id], s.posted[id], Used(s.owner, id), mtu)
  }

  ghost predicate CountsOk(s: System, mtu: nat)
    requires mtu > 0
  {
    forall id :: 0 <= id < |s.posted| ==> CountOk(s, id, mtu)
  }

  lemma PostCounts(s: System, spec: Spec, mtu: nat)
    requires QueueOk(s) && OwnersOk(s) && mtu > 0 && CountsOk(s, mtu) && Checked(spec)
    ensures CountsOk(Next(s, Post(spec), mtu).value, mtu)
  {
    hide Packets, Used;
    var s' := Next(s, Post(spec), mtu).value;
    UsedPositive(s.owner, |s.posted|);
    forall id | 0 <= id < |s'.posted|
      ensures CountOk(s', id, mtu)
    {
      assert id < |s.posted| ==> CountOk(s, id, mtu);
    }
  }

  // Cutting one transaction off an operation.
  lemma CutCount(o: Op, spec: Spec, used: nat, rsn: nat, mtu: nat)
    requires Checked(spec) && mtu > 0 && Pending(o, spec, used, mtu) && (o.scheduled ==> o.startSeq <= rsn)
    ensures IsEnd(o, mtu) ==> used + 1 == Count(spec, mtu)
    ensures !IsEnd(o, mtu) ==> Pending(CutOne(o, rsn, mtu), spec, used + 1, mtu)
  {
    if o.inlineLength == 0 {
      CutPositive(o.sgl, mtu);
      PacketCount(spec.sgl, mtu);
      assert Packets(o.sgl, mtu)
          == if IsEnd(o, mtu) then [Cut(o.sgl, mtu).packet]
             else [Cut(o.sgl, mtu).packet] + Packets(Cut(o.sgl, mtu).rest, mtu);
    }
  }

  lemma SendCounts(s: System, mtu: nat)
    requires Inv(s) && mtu > 0 && CountsOk(s, mtu) && s.q.sendQueue != []
    ensures Next(s, Send, mtu).Some? && CountsOk(Next(s, Send, mtu).value, mtu)
  {
    hide Cut, Packets, Used, CutOne, Next, Pending, Count, OpOk, IsEnd, AnswersOk, CompletedOk;
    var f := s.q.sendQueue[0];
    assert OpOk(s, f) && CanCut(s.q) by { CutReady(s); }
    SendFrame(s, mtu);
    hide OwnersOk;
    var s' := Next(s, Send, mtu).value;
    forall id | 0 <= id < |s'.posted|
      ensures CountOk(s', id, mtu)
    {
      assert CountOk(s, id, mtu);
      UsedAppend(s.owner, f, id);
      if id == f {
        CutCount(s.q.ops[f], s.posted[f], Used(s.owner, f), s.q.nextRsn, mtu);
      }
    }
  }

  lemma CutReady(s: System)
    requires Inv(s) && s.q.sendQueue != []
    ensures s.q.sendQueue[0] in s.q.ops && OpOk(s, s.q.sendQueue[0]) && CanCut(s.q)
  {
    hide AnswersOk, CompletedOk, OwnersOk, Open, Used;
    assert OpOk(s, s.q.sendQueue[0]);
  }

  lemma AnswerLeavesLists(s: System, rsn: nat, mtu: nat)
    requires rsn in s.flying && rsn in s.q.rsnToOp && Next(s, Answer(rsn), mtu).Some?
    ensures var x, s' := s.q.rsnToOp[rsn], Next(s, Answer(rsn), mtu).value;
            x in s.q.ops && x in s'.q.ops ==>
              s'.q.ops[x].sgl == s.q.ops[x].sgl && s'.q.ops[x].inlineLength == s.q.ops[x].inlineLength
  {
  }

  lemma SameCounts(s: System, s': System, mtu: nat)
    requires mtu > 0 && CountsOk(s, mtu) && s'.posted == s.posted && s'.owner == s.owner && Front(s') == Front(s)
    requires forall id :: Front(s) <= id < |s.posted| && id in s.q.ops ==>
               && id in s'.q.ops && s'.q.ops[id].sgl == s.q.ops[id].sgl
               && s'.q.ops[id].inlineLength == s.q.ops[id].inlineLength
    ensures CountsOk(s', mtu)
  {
    hide Packets, Used, Count, Checked;
    forall id | 0 <= id < |s'.posted|
      ensures CountOk(s', id, mtu)
    {
      assert CountOk(s, id, mtu);
    }
  }

  lemma AnswerLeavesCounts(s: System, rsn: nat, mtu: nat)
    requires Inv(s) && mtu > 0 && CountsOk(s, mtu) && rsn in s.flying
    ensures Next(s, Answer(rsn), mtu).Some? && CountsOk(Next(s, Answer(rsn), mtu).value, mtu)
  {
    hide Next, Finish, OpOk, OwnersOk, QueueOk, CompletedOk, CountsOk;
    assert OpOk(s, s.q.rsnToOp[rsn]);
    hide AnswersOk, Inv;
    AnswerOwn(s, rsn, mtu);
    AnswerLeavesLists(s, rsn, mtu);
    SameCounts(s, Next(s, Answer(rsn), mtu).value, mtu);
  }

  lemma {:induction false} RunsCount(h: History, mtu: nat)
    requires Legal(h, mtu) && mtu > 0
    ensures Reach(h, mtu).Some? && CountsOk(Reach(h, mtu).value, mtu)
  {
    match h
    case Start =>
    case After(before, step) =>
      RunsKeepInv(before, mtu);
      RunsCount(before, mtu);
      hide CountsOk, Next, ReadsOk, QueueOk, OwnersOk, AnswersOk, CompletedOk, OpOk;
      match step
      case Post(spec) => PostCounts(Reach(before, mtu).value, spec, mtu);
      case Send => SendCounts(Reach(before, mtu).value, mtu);
      case Answer(rsn) => AnswerLeavesCounts(Reach(before, mtu).value, rsn, mtu);
  }

  // An operation takes one transaction for inline data or an empty list and otherwise
  // its bytes divided by the MTU, rounded up: never more, and never fewer once it has
  // left the send queue.
  lemma TransactionCount(h: History, mtu: nat, id: nat)
    requires Legal(h, mtu) && mtu > 0 && Reach(h, mtu).Some? && id < |Reach(h, mtu).value.posted|
    ensures var s := Reach(h, mtu).value;
            && Checked(s.posted[id])
            && Used(s.owner, id) <= Count(s.posted[id], mtu)
            && (id < Front(s) <==> Used(s.owner, id) == Count(s.posted[id], mtu))
            && (id < Front(s) && id in s.q.ops ==> s.q.ops[id].nSeqs == Count(s.posted[id], mtu))
  {
    hide Reach, Legal, Used;
    RunsCount(h, mtu);
    TransactionsBalance(h, mtu, id);
    var s := Reach(h, mtu).value;
    assert CountOk(s, id, mtu);
    if id >= Front(s) && s.posted[id].inlineLength == 0 {
      PacketCount(s.posted[id].sgl, mtu);
      PacketSizes(s.q.ops[id].sgl, mtu);
    }
  }

  // ---- reads beyond the first transaction ----------------------------------------

  function Surplus(n: nat): nat { if n == 0 then 0 else n - 1 }

  // The same count as ExtraReads, operation by operation.
  function PerOp(owner: seq<nat>, posted: seq<Spec>, n: nat): nat
    requires n <= |posted|
  {
    if n == 0 then 0
    else PerOp(owner, posted, n - 1) + if posted[n - 1].read then Surplus(Used(owner, n - 1)) else 0
  }

  lemma {:induction false} PerOpAppend(owner: seq<nat>, posted: seq<Spec>, f: nat, n: nat)
    requires n <= |posted|
    ensures PerOp(owner + [f], posted, n)
         == PerOp(owner, posted, n) + if f < n && posted[f].read && Used(owner, f) > 0 then 1 else 0
    decreases n
  {
    hide Used;
    if n > 0 {
      PerOpAppend(owner, posted, f, n - 1);
      UsedAppend(owner, f, n - 1);
    }
  }

  lemma {:induction false} PerOpNone(posted: seq<Spec>, n: nat)
    requires n <= |posted|
    ensures PerOp([], posted, n) == 0
  {
    if n > 0 {
      PerOpNone(posted, n - 1);
    }
  }

  predicate Sorted(owner: seq<nat>) { forall r, r' :: 0 <= r < r' < |owner| ==> owner[r] <= owner[r'] }

  lemma {:induction false} ExtraPerOp(owner: seq<nat>, posted: seq<Spec>)
    requires Sorted(owner) && forall r :: 0 <= r < |owner| ==> owner[r] < |posted|
    ensures ExtraReads(owner, posted) == PerOp(owner, posted, |posted|)
    decreases |owner|
  {
    if owner == [] {
      PerOpNone(posted, |posted|);
    } else {
      hide Used;
      var n := |owner| - 1;
      var before, f := owner[..n], owner[n];
      assert owner == before + [f];
      ExtraPerOp(before, posted);
      PerOpAppend(before, posted, f, |posted|);
      UsedPositive(before, f);
      assert f in before <==> n > 0 && before[n - 1] == f;
    }
  }

  // Transactions beyond the first of every read, from the sizes posted.
  function Beyond(posted: seq<Spec>, n: nat, mtu: nat): nat
    requires n <= |posted| && mtu > 0 && forall id :: 0 <= id < n ==> Checked(posted[id])
  {
    if n == 0 then 0
    else Beyond(posted, n - 1, mtu) + if posted[n - 1].read then Surplus(Count(posted[n - 1], mtu)) else 0
  }

  lemma {:induction false} PerOpBeyond(owner: seq<nat>, posted: seq<Spec>, n: nat, mtu: nat)
    requires n <= |posted| && mtu > 0
    requires forall id :: 0 <= id < n ==> Checked(posted[id]) && Used(owner, id) == Count(posted[id], mtu)
    ensures PerOp(owner, posted, n) == Beyond(posted, n, mtu)
  {
    if n > 0 {
      PerOpBeyond(owner, posted, n - 1, mtu);
    }
  }

  // A read takes one transaction exactly if it fits the MTU.
  lemma OneIfFits(spec: Spec, mtu: nat)
    requires Checked(spec) && spec.read && mtu > 0
    ensures Surplus(Count(spec, mtu)) == 0 <==> Total(spec.sgl) <= mtu
  {
    if spec.sgl != [] {
      assert Total(spec.sgl) >= spec.sgl[0] > 0;
      hide CeilDiv;
      CeilDivMeans(Total(spec.sgl), mtu, CeilDiv(Total(spec.sgl), mtu));
      CeilDivMeans(Total(spec.sgl), mtu, 1);
    }
  }

  lemma {:induction false} BeyondNone(posted: seq<Spec>, n: nat, mtu: nat)
    requires n <= |posted| && mtu > 0 && forall id :: 0 <= id < n ==> Checked(posted[id])
    ensures Beyond(posted, n, mtu) == 0 <==> forall id :: 0 <= id < n && posted[id].read ==> Total(posted[id].sgl) <= mtu
  {
    if n > 0 {
      BeyondNone(posted, n - 1, mtu);
      if posted[n - 1].read {
        OneIfFits(posted[n - 1], mtu);
      }
    }
  }

  // Every read transaction counts towards the outbound read depth, but only the
  // completion of its operation is counted back. So what is still counted when
  // everything has been answered follows from the sizes posted, and is zero exactly if
  // every read posted fits the MTU.
  lemma ReadCountDrains(h: History, mtu: nat)
    requires Legal(h, mtu) && mtu > 0
    ensures Reach(h, mtu).Some?
    ensures var s := Reach(h, mtu).value;
            s.q.sendQueue == [] && s.flying == map[] ==>
              (forall id :: 0 <= id < |s.posted| ==> Checked(s.posted[id]))
              && s.q.outboundReads == Beyond(s.posted, |s.posted|, mtu)
              && (s.q.outboundReads == 0 <==>
                    forall id :: 0 <= id < |s.posted| && s.posted[id].read ==> Total(s.posted[id].sgl) <= mtu)
  {
    hide Reach, Legal, Used, Count, ExtraReads, Beyond, PerOp, Checked, Total;
    ReadsLeft(h, mtu);
    RunsCount(h, mtu);
    var s := Reach(h, mtu).value;
    if s.q.sendQueue == [] && s.flying == map[] {
      var n := |s.posted|;
      forall id | 0 <= id < n
        ensures Checked(s.posted[id]) && Used(s.owner, id) == Count(s.posted[id], mtu)
      {
        assert CountOk(s, id, mtu);
      }
      ExtraPerOp(s.owner, s.posted);
      PerOpBeyond(s.owner, s.posted, n, mtu);
      BeyondNone(s.posted, n, mtu);
    }
  }
}
