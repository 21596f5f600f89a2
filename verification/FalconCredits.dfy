// Falcon resource credits: six pools, the cost of a transaction, and the minimum
// the scheduler asks for before it sends one.
module FalconCredits {
  import opened Sgl

  const U32: nat := 0x1_0000_0000

  datatype Credit = Credit(reqTxPacket: nat, reqTxBuffer: nat, reqRxPacket: nat, reqRxBuffer: nat,
                           respTxPacket: nat, respTxBuffer: nat)

  const Zero := Credit(0, 0, 0, 0, 0, 0)

  predicate Leq(a: Credit, b: Credit) {
    && a.reqTxPacket <= b.reqTxPacket && a.reqTxBuffer <= b.reqTxBuffer
    && a.reqRxPacket <= b.reqRxPacket && a.reqRxBuffer <= b.reqRxBuffer
    && a.respTxPacket <= b.respTxPacket && a.respTxBuffer <= b.respTxBuffer
  }

  function Plus(a: Credit, b: Credit): Credit {
    Credit(a.reqTxPacket + b.reqTxPacket, a.reqTxBuffer + b.reqTxBuffer,
           a.reqRxPacket + b.reqRxPacket, a.reqRxBuffer + b.reqRxBuffer,
           a.respTxPacket + b.respTxPacket, a.respTxBuffer + b.respTxBuffer)
  }

  // Subtraction on uint32_t wraps around below zero.
  function Sub32(a: nat, b: nat): nat { if b <= a then a - b else (a - b) % U32 }

  function Minus(a: Credit, b: Credit): Credit {
    Credit(Sub32(a.reqTxPacket, b.reqTxPacket), Sub32(a.reqTxBuffer, b.reqTxBuffer),
           Sub32(a.reqRxPacket, b.reqRxPacket), Sub32(a.reqRxBuffer, b.reqRxBuffer),
           Sub32(a.respTxPacket, b.respTxPacket), Sub32(a.respTxBuffer, b.respTxBuffer))
  }

  function Add32(a: nat, b: nat): nat { (a + b) % U32 }

  function Plus32(a: Credit, b: Credit): Credit {
    Credit(Add32(a.reqTxPacket, b.reqTxPacket), Add32(a.reqTxBuffer, b.reqTxBuffer),
           Add32(a.reqRxPacket, b.reqRxPacket), Add32(a.reqRxBuffer, b.reqRxBuffer),
           Add32(a.respTxPacket, b.respTxPacket), Add32(a.respTxBuffer, b.respTxBuffer))
  }

  function Clamp1(x: nat, hi: nat): nat { if x < 1 then 1 else if x > hi then hi else x }

  // std::clamp of a requested limit to [1, maximum] in every pool.
  function ClampLimit(x: Credit, hi: Credit): Credit {
    Credit(Clamp1(x.reqTxPacket, hi.reqTxPacket), Clamp1(x.reqTxBuffer, hi.reqTxBuffer),
           Clamp1(x.reqRxPacket, hi.reqRxPacket), Clamp1(x.reqRxBuffer, hi.reqRxBuffer),
           Clamp1(x.respTxPacket, hi.respTxPacket), Clamp1(x.respTxBuffer, hi.respTxBuffer))
  }

  const One := Credit(1, 1, 1, 1, 1, 1)

  // x lies no farther from a than from b.
  predicate Nearer(x: nat, a: nat, b: nat) { if a <= x then a >= b || 2 * x <= a + b else a <= b || 2 * x >= a + b }

  // The limit set is the one in range that is nearest to what was asked for.
  lemma ClampNearest(x: Credit, hi: Credit, y: Credit)
    requires Leq(One, y) && Leq(y, hi)
    ensures var r := ClampLimit(x, hi);
            && Leq(One, r) && Leq(r, hi)
            && Nearer(x.reqTxPacket, r.reqTxPacket, y.reqTxPacket)
            && Nearer(x.reqTxBuffer, r.reqTxBuffer, y.reqTxBuffer)
            && Nearer(x.reqRxPacket, r.reqRxPacket, y.reqRxPacket)
            && Nearer(x.reqRxBuffer, r.reqRxBuffer, y.reqRxBuffer)
            && Nearer(x.respTxPacket, r.respTxPacket, y.respTxPacket)
            && Nearer(x.respTxBuffer, r.respTxBuffer, y.respTxBuffer)
  {
  }

  // ---- books kept on 32-bit counters ------------------------------------------

  // What is left and what is used make up the total, up to wrap-around.
  predicate Even(left: nat, used: nat, total: nat) { (left + used) % U32 == total % U32 }

  predicate Balanced(left: Credit, used: Credit, total: Credit) {
    && Even(left.reqTxPacket, used.reqTxPacket, total.reqTxPacket)
    && Even(left.reqTxBuffer, used.reqTxBuffer, total.reqTxBuffer)
    && Even(left.reqRxPacket, used.reqRxPacket, total.reqRxPacket)
    && Even(left.reqRxBuffer, used.reqRxBuffer, total.reqRxBuffer)
    && Even(left.respTxPacket, used.respTxPacket, total.respTxPacket)
    && Even(left.respTxBuffer, used.respTxBuffer, total.respTxBuffer)
  }

  lemma EvenSpend(left: nat, used: nat, total: nat, cost: nat)
    requires Even(left, used, total)
    ensures Even(Sub32(left, cost), used + cost, total)
  {
  }

  lemma EvenTake(left: nat, used: nat, total: nat, cost: nat)
    requires Even(left, used, total) && cost <= used
    ensures Even(left, used - cost, Sub32(total, cost))
  {
  }

  lemma EvenRepay(left: nat, used: nat, total: nat, cost: nat)
    requires Even(left, used, Sub32(total, cost))
    ensures Even(Add32(left, cost), used, total)
  {
  }

  // A cost moves from what is left to what is used.
  lemma Spend(left: Credit, used: Credit, total: Credit, cost: Credit)
    requires Balanced(left, used, total)
    ensures Balanced(Minus(left, cost), Plus(used, cost), total)
  {
    hide Even, Sub32;
    EvenSpend(left.reqTxPacket, used.reqTxPacket, total.reqTxPacket, cost.reqTxPacket);
    EvenSpend(left.reqTxBuffer, used.reqTxBuffer, total.reqTxBuffer, cost.reqTxBuffer);
    EvenSpend(left.reqRxPacket, used.reqRxPacket, total.reqRxPacket, cost.reqRxPacket);
    EvenSpend(left.reqRxBuffer, used.reqRxBuffer, total.reqRxBuffer, cost.reqRxBuffer);
    EvenSpend(left.respTxPacket, used.respTxPacket, total.respTxPacket, cost.respTxPacket);
    EvenSpend(left.respTxBuffer, used.respTxBuffer, total.respTxBuffer, cost.respTxBuffer);
  }

  // While a cost is on its way back it belongs to neither side.
  lemma TakeBack(left: Credit, used: Credit, total: Credit, cost: Credit, rest: Credit)
    requires Balanced(left, used, total) && Plus(rest, cost) == used
    ensures Balanced(left, rest, Minus(total, cost))
  {
    hide Even, Sub32;
    EvenTake(left.reqTxPacket, used.reqTxPacket, total.reqTxPacket, cost.reqTxPacket);
    EvenTake(left.reqTxBuffer, used.reqTxBuffer, total.reqTxBuffer, cost.reqTxBuffer);
    EvenTake(left.reqRxPacket, used.reqRxPacket, total.reqRxPacket, cost.reqRxPacket);
    EvenTake(left.reqRxBuffer, used.reqRxBuffer, total.reqRxBuffer, cost.reqRxBuffer);
    EvenTake(left.respTxPacket, used.respTxPacket, total.respTxPacket, cost.respTxPacket);
    EvenTake(left.respTxBuffer, used.respTxBuffer, total.respTxBuffer, cost.respTxBuffer);
  }

  lemma Repay(left: Credit, used: Credit, total: Credit, cost: Credit)
    requires Balanced(left, used, Minus(total, cost))
    ensures Balanced(Plus32(left, cost), used, total)
  {
    hide Even, Sub32, Add32;
    EvenRepay(left.reqTxPacket, used.reqTxPacket, total.reqTxPacket, cost.reqTxPacket);
    EvenRepay(left.reqTxBuffer, used.reqTxBuffer, total.reqTxBuffer, cost.reqTxBuffer);
    EvenRepay(left.reqRxPacket, used.reqRxPacket, total.reqRxPacket, cost.reqRxPacket);
    EvenRepay(left.reqRxBuffer, used.reqRxBuffer, total.reqRxBuffer, cost.reqRxBuffer);
    EvenRepay(left.respTxPacket, used.respTxPacket, total.respTxPacket, cost.respTxPacket);
    EvenRepay(left.respTxBuffer, used.respTxBuffer, total.respTxBuffer, cost.respTxBuffer);
  }

  // ---- what a transaction costs ---------------------------------------------

  const READ_HEADER: nat := 44
  const WRITE_HEADER: nat := 28
  const RESPONSE_HEADER: nat := 24
  const SEND_HEADER: nat := 20
  const SGL_FRAGMENT_HEADER: nat := 16
  const RDMA_HEADER: nat := 28
  const OUTER_HEADER: nat := 98

  datatype Opcode = Send | Write | Read

  datatype Op = Op(opcode: Opcode, sgl: seq<nat>, inlineLength: nat)

  // Buffer allocation units of Falcon and the RDMA MTU.
  datatype Units = Units(tx: nat, rx: nat, mtu: nat)

  predicate SaneUnits(u: Units) { u.tx > 0 && u.rx > 0 && u.mtu > 0 }

  function Over(x: nat, y: nat): nat { if x >= y then x - y else 0 }

  // CalculateFalconTxBufferCredits and CalculateFalconRxBufferCredits.
  function TxBuffer(u: Units, packetData: nat, metadata: nat): nat
    requires SaneUnits(u)
  {
    CeilDiv(Over(packetData, 64), u.tx) + CeilDiv(Over(metadata, 8), u.tx)
  }

  function RxBuffer(u: Units, length: nat): nat
    requires SaneUnits(u)
  {
    CeilDiv(length, u.rx)
  }

  function MinNat(a: nat, b: nat): nat { if a <= b then a else b }

  function HeaderOf(o: Opcode): nat {
    match o
    case Send => SEND_HEADER
    case Write => WRITE_HEADER
    case Read => READ_HEADER
  }

  function RequestCredit(u: Units, op: Op): Credit
    requires SaneUnits(u)
  {
    Credit(1,
           TxBuffer(u, HeaderOf(op.opcode) + (if op.opcode.Read? then 0 else op.inlineLength),
                    |op.sgl| * SGL_FRAGMENT_HEADER),
           1,
           if op.opcode.Read? then RxBuffer(u, RESPONSE_HEADER + MinNat(u.mtu, Total(op.sgl))) else 0,
           0, 0)
  }

  function ResponseCredit(u: Units, sgl: seq<nat>): Credit
    requires SaneUnits(u)
  {
    Credit(0, 0, 0, 0, 1, TxBuffer(u, RESPONSE_HEADER, |sgl| * SGL_FRAGMENT_HEADER))
  }

  function MinimumRequestCredit(u: Units): Credit
    requires SaneUnits(u)
  {
    Credit(1, TxBuffer(u, 256, 650), 1, RxBuffer(u, u.mtu), 0, 0)
  }

  function MinimumResponseCredit(u: Units): Credit
    requires SaneUnits(u)
  {
    Credit(0, 0, 0, 0, 1, TxBuffer(u, 256, 650))
  }

  // ---- when the minimum covers the cost --------------------------------------

  lemma CeilDivMonotone(a: nat, b: nat, q: nat)
    requires q > 0 && a <= b
    ensures CeilDiv(a, q) <= CeilDiv(b, q)
  {
    var m, n := CeilDiv(a, q), CeilDiv(b, q);
    CeilDivMeans(a, q, m);
    CeilDivMeans(b, q, n);
    if n < m {
      MulMonotone(n, m - 1, q);
    }
  }

  lemma TxBufferMonotone(u: Units, a: nat, b: nat, c: nat, d: nat)
    requires SaneUnits(u) && a <= c && b <= d
    ensures TxBuffer(u, a, b) <= TxBuffer(u, c, d)
  {
    CeilDivMonotone(Over(a, 64), Over(c, 64), u.tx);
    CeilDivMonotone(Over(b, 8), Over(d, 8), u.tx);
  }

  // n whole units hold a exactly when a fits their total.
  lemma CeilDivFits(a: nat, n: nat, q: nat)
    requires q > 0
    ensures CeilDiv(a, q) <= n <==> a <= n * q
  {
    var m := CeilDiv(a, q);
    CeilDivMeans(a, q, m);
    if m <= n {
      MulMonotone(m, n, q);
    } else {
      MulMonotone(n, m - 1, q);
    }
  }

  // What counts towards the transmit buffer besides the scatter-gather list.
  function DataOf(op: Op): nat { HeaderOf(op.opcode) + if op.opcode.Read? then 0 else op.inlineLength }

  // Credits cover an operation exactly if they have a packet for the request and one for
  // the reply, its inline data and its list each fit the transmit units, and, for a read,
  // the response, header included, fits the receive units.
  lemma RequestFits(u: Units, op: Op, limit: Credit)
    requires SaneUnits(u) && (op.inlineLength != 0 ==> op.sgl == [])
    ensures Leq(RequestCredit(u, op), limit) <==>
              && 1 <= limit.reqTxPacket && 1 <= limit.reqRxPacket
              && Over(DataOf(op), 64) <= limit.reqTxBuffer * u.tx
              && Over(|op.sgl| * SGL_FRAGMENT_HEADER, 8) <= limit.reqTxBuffer * u.tx
              && (op.opcode.Read? ==> RESPONSE_HEADER + MinNat(u.mtu, Total(op.sgl)) <= limit.reqRxBuffer * u.rx)
  {
    var data, list := Over(DataOf(op), 64), Over(|op.sgl| * SGL_FRAGMENT_HEADER, 8);
    CeilDivFits(data, limit.reqTxBuffer, u.tx);
    CeilDivFits(list, limit.reqTxBuffer, u.tx);
    CeilDivFits(0, 0, u.tx);
    assert data == 0 || list == 0;
    CeilDivFits(RESPONSE_HEADER + MinNat(u.mtu, Total(op.sgl)), limit.reqRxBuffer, u.rx);
    hide CeilDiv;
  }

  // Likewise for a response, of which only the list counts.
  lemma ResponseFits(u: Units, sgl: seq<nat>, limit: Credit)
    requires SaneUnits(u)
    ensures Leq(ResponseCredit(u, sgl), limit) <==>
              1 <= limit.respTxPacket && Over(|sgl| * SGL_FRAGMENT_HEADER, 8) <= limit.respTxBuffer * u.tx
  {
    CeilDivFits(Over(|sgl| * SGL_FRAGMENT_HEADER, 8), limit.respTxBuffer, u.tx);
    CeilDivFits(0, 0, u.tx);
    hide CeilDiv;
  }

  // An operation costs no more than the minimum that was checked exactly if its inline
  // data and its list each fit the transmit units of the minimum, and, for a read, the
  // response, header included, fits the MTU rounded up to whole receive units.
  lemma RequestFitsMinimum(u: Units, op: Op)
    requires SaneUnits(u) && (op.inlineLength != 0 ==> op.sgl == [])
    ensures var tx := TxBuffer(u, 256, 650) * u.tx;
            Leq(RequestCredit(u, op), MinimumRequestCredit(u)) <==>
              && Over(DataOf(op), 64) <= tx
              && Over(|op.sgl| * SGL_FRAGMENT_HEADER, 8) <= tx
              && (op.opcode.Read? ==> RESPONSE_HEADER + MinNat(u.mtu, Total(op.sgl)) <= RxBuffer(u, u.mtu) * u.rx)
  {
    hide RequestCredit, Leq, TxBuffer, RxBuffer;
    RequestFits(u, op, MinimumRequestCredit(u));
  }

  // With the default units of one byte: up to 52 segments, up to 870 bytes of inline data
  // in a write and 878 in a send, and up to 4072 bytes read.
  lemma DefaultUnitsFit(op: Op)
    requires op.inlineLength != 0 ==> op.sgl == []
    ensures var u := Units(1, 1, 4096);
            Leq(RequestCredit(u, op), MinimumRequestCredit(u)) <==>
              && |op.sgl| <= 52
              && (op.opcode.Write? ==> op.inlineLength <= 870) && (op.opcode.Send? ==> op.inlineLength <= 878)
              && (op.opcode.Read? ==> Total(op.sgl) <= 4072)
  {
    hide RequestCredit, MinimumRequestCredit, Leq, Total, CeilDiv;
    var u := Units(1, 1, 4096);
    CeilDivMeans(192, 1, 192);
    CeilDivMeans(642, 1, 642);
    CeilDivMeans(4096, 1, 4096);
    assert TxBuffer(u, 256, 650) * u.tx == 834 && RxBuffer(u, u.mtu) * u.rx == 4096;
    hide TxBuffer, RxBuffer;
    RequestFitsMinimum(u, op);
  }

  // With the units of 64 and 128 bytes that are used when none are configured: up to 56
  // segments, up to 932 bytes of inline data in a write and 940 in a send, and up to 4072
  // bytes read.
  lemma FallbackUnitsFit(op: Op)
    requires op.inlineLength != 0 ==> op.sgl == []
    ensures var u := Units(64, 128, 4096);
            Leq(RequestCredit(u, op), MinimumRequestCredit(u)) <==>
              && |op.sgl| <= 56
              && (op.opcode.Write? ==> op.inlineLength <= 932) && (op.opcode.Send? ==> op.inlineLength <= 940)
              && (op.opcode.Read? ==> Total(op.sgl) <= 4072)
  {
    hide RequestCredit, MinimumRequestCredit, Leq, Total, CeilDiv;
    var u := Units(64, 128, 4096);
    CeilDivMeans(192, 64, 3);
    CeilDivMeans(642, 64, 11);
    CeilDivMeans(4096, 128, 32);
    assert TxBuffer(u, 256, 650) * u.tx == 896 && RxBuffer(u, u.mtu) * u.rx == 4096;
    hide TxBuffer, RxBuffer;
    RequestFitsMinimum(u, op);
  }

  // A response costs no more than the minimum exactly if its list fits the transmit units
  // of the minimum; up to 32 segments always do.
  lemma ResponseFitsMinimum(u: Units, sgl: seq<nat>)
    requires SaneUnits(u)
    ensures Leq(ResponseCredit(u, sgl), MinimumResponseCredit(u)) <==>
              Over(|sgl| * SGL_FRAGMENT_HEADER, 8) <= TxBuffer(u, 256, 650) * u.tx
    ensures |sgl| <= 32 ==> Leq(ResponseCredit(u, sgl), MinimumResponseCredit(u))
  {
    if |sgl| <= 32 {
      TxBufferMonotone(u, RESPONSE_HEADER, |sgl| * SGL_FRAGMENT_HEADER, 256, 650);
    }
    ResponseFits(u, sgl, MinimumResponseCredit(u));
  }

  // Cutting a packet off an operation never makes it dearer.
  lemma CutCheapens(u: Units, op: Op)
    requires SaneUnits(u)
    ensures Leq(RequestCredit(u, op.(sgl := Cut(op.sgl, u.mtu).rest)), RequestCredit(u, op))
  {
    CutTotals(op.sgl, u.mtu);
    var rest := Cut(op.sgl, u.mtu).rest;
    TxBufferMonotone(u, HeaderOf(op.opcode) + (if op.opcode.Read? then 0 else op.inlineLength),
                     |rest| * SGL_FRAGMENT_HEADER,
                     HeaderOf(op.opcode) + (if op.opcode.Read? then 0 else op.inlineLength),
                     |op.sgl| * SGL_FRAGMENT_HEADER);
    CeilDivMonotone(RESPONSE_HEADER + MinNat(u.mtu, Total(rest)), RESPONSE_HEADER + MinNat(u.mtu, Total(op.sgl)), u.rx);
  }
}
