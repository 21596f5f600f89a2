// Egress accounting in the switch's memory management unit: a packet is admitted to a
// transmit queue if the pool has room and neither its port nor its queue would reach
// its share (alpha) of the cells still free.
module MmuEgress {
  import opened Common

  // Sharing factors of ports and of their queues, and whether priority flow control
  // is on, in which case a refused packet stops the simulation.
  datatype Config = Config(portAlpha: seq<real>, queueAlpha: seq<seq<real>>, pfc: bool)

  datatype Mmu = Mmu(free: nat, port: seq<nat>, queue: seq<seq<nat>>)

  predicate Shaped(c: Config, m: Mmu) {
    && |m.port| == |m.queue| == |c.portAlpha| == |c.queueAlpha|
    && (forall p :: 0 <= p < |m.port| ==> |m.queue[p]| == |c.queueAlpha[p]|)
  }

  predicate Exists(c: Config, p: nat, q: nat) { p < |c.portAlpha| && p < |c.queueAlpha| && q < |c.queueAlpha[p]| }

  predicate Refuses(c: Config, m: Mmu, p: nat, q: nat, size: nat)
    requires Shaped(c, m) && Exists(c, p, q)
  {
    || m.free < size
    || (m.port[p] + size) as real >= m.free as real * c.portAlpha[p]
    || (m.queue[p][q] + size) as real >= m.free as real * c.queueAlpha[p][q]
  }

  function Put(queue: seq<seq<nat>>, p: nat, q: nat, v: nat): seq<seq<nat>>
    requires p < |queue| && q < |queue[p]|
  {
    var row: seq<nat> := queue[p][q := v];
    queue[p := row]
  }

  // The counters after a packet was admitted.
  function Admit(c: Config, m: Mmu, p: nat, q: nat, size: nat): Mmu
    requires Shaped(c, m) && Exists(c, p, q) && size <= m.free
  {
    Mmu(m.free - size, m.port[p := m.port[p] + size],
        Put(m.queue, p, q, m.queue[p][q] + size))
  }

  // None when a CHECK fails.
  function Departure(c: Config, m: Mmu, p: nat, q: nat, size: nat): Option<Mmu>
    requires Shaped(c, m) && Exists(c, p, q)
  {
    if m.port[p] < size || m.queue[p][q] < size then None
    else Some(Mmu(m.free + size, m.port[p := m.port[p] - size],
                  Put(m.queue, p, q, m.queue[p][q] - size)))
  }

  // The counters as an object updated in place.
  class EgressCounters {
    const c: Config
    var free: nat
    var port: seq<nat>
    var queue: seq<seq<nat>>

    function View(): Mmu
      reads this
    {
      Mmu(free, port, queue)
    }

    constructor (c: Config, pool: nat)
      requires |c.portAlpha| == |c.queueAlpha|
      ensures this.c == c && View() == Boot(c, pool)
    {
      this.c := c;
      free := pool;
      port := seq(|c.portAlpha|, p => 0);
      queue := seq(|c.queueAlpha|, p requires 0 <= p < |c.queueAlpha| => seq(|c.queueAlpha[p]|, q => 0));
    }

    // `ok` is false where the source stops the simulation.
    method RequestEnqueue(p: nat, q: nat, size: nat) returns (ok: bool, admitted: bool)
      requires Shaped(c, View()) && Exists(c, p, q)
      modifies this
      ensures Shaped(c, View())
      ensures admitted == !Refuses(c, old(View()), p, q, size)
      ensures ok == (admitted || !c.pfc)
      ensures View() == if admitted then Admit(c, old(View()), p, q, size) else old(View())
    {
      if free < size {
        return !c.pfc, false;
      }
      if (port[p] + size) as real >= free as real * c.portAlpha[p] {
        return !c.pfc, false;
      }
      if (queue[p][q] + size) as real >= free as real * c.queueAlpha[p][q] {
        return !c.pfc, false;
      }
      free := free - size;
      port := port[p := port[p] + size];
      queue := Put(queue, p, q, queue[p][q] + size);
      return true, true;
    }

    method DequeuedPacket(p: nat, q: nat, size: nat) returns (ok: bool)
      requires Shaped(c, View()) && Exists(c, p, q)
      modifies this
      ensures ok == Departure(c, old(View()), p, q, size).Some?
      ensures ok ==> View() == Departure(c, old(View()), p, q, size).value
    {
      free := free + size;
      if port[p] < size { return false; }
      port := port[p := port[p] - size];
      if queue[p][q] < size { return false; }
      queue := Put(queue, p, q, queue[p][q] - size);
      return true;
    }
  }

  function Boot(c: Config, pool: nat): Mmu {
    Mmu(pool, seq(|c.portAlpha|, p => 0),
        seq(|c.queueAlpha|, p requires 0 <= p < |c.queueAlpha| => seq(|c.queueAlpha[p]|, q => 0)))
  }

  // ---- runs ----------------------------------------------------------------------

  datatype Packet = Packet(p: nat, q: nat, size: nat)

  datatype System = System(m: Mmu, packets: seq<Packet>)

  datatype Step = Arrive(packet: Packet) | Depart(i: nat)

  // Packets are no longer than the longest frame and go to existing queues.
  predicate Enabled(c: Config, s: System, step: Step, longest: nat) {
    match step
    case Arrive(x) => Exists(c, x.p, x.q) && x.size <= longest
    case Depart(i) => i < |s.packets|
  }

  predicate Placed(c: Config, s: System) {
    Shaped(c, s.m) && forall i :: 0 <= i < |s.packets| ==> Exists(c, s.packets[i].p, s.packets[i].q)
  }

  function Next(c: Config, s: System, step: Step, longest: nat): Option<System>
    requires Placed(c, s) && Enabled(c, s, step, longest)
  {
    match step
    case Arrive(x) =>
      if Refuses(c, s.m, x.p, x.q, x.size) then if c.pfc then None else Some(s)
      else Some(System(Admit(c, s.m, x.p, x.q, x.size), s.packets + [x]))
    case Depart(i) =>
      var x := s.packets[i];
      var m := Departure(c, s.m, x.p, x.q, x.size);
      if m.None? then None else Some(System(m.value, Without(s.packets, i)))
  }

  // ---- the invariant ----------------------------------------------------------------

  function Sum(s: seq<nat>): nat { if s == [] then 0 else Sum(s[..|s| - 1]) + s[|s| - 1] }

  function Load(ps: seq<Packet>, p: nat, q: nat): nat {
    if ps == [] then 0 else Load(ps[1..], p, q) + if ps[0].p == p && ps[0].q == q then ps[0].size else 0
  }

  // The cells the packets of one port, and all packets, occupy.
  function PortLoad(ps: seq<Packet>, p: nat): nat {
    if ps == [] then 0 else PortLoad(ps[1..], p) + if ps[0].p == p then ps[0].size else 0
  }

  function AllLoad(ps: seq<Packet>): nat {
    if ps == [] then 0 else AllLoad(ps[1..]) + ps[0].size
  }

  // A counter that is not zero is below alpha / (1 + alpha) of the pool and one frame.
  predicate Below(x: nat, alpha: real, pool: nat, longest: nat) {
    x > 0 ==> (1.0 + alpha) * x as real < alpha * (pool + longest) as real
  }

  ghost predicate QueueOk(c: Config, s: System, pool: nat, longest: nat, p: nat, q: nat)
    requires Shaped(c, s.m) && Exists(c, p, q)
  {
    && s.m.queue[p][q] == Load(s.packets, p, q)
    && Below(s.m.queue[p][q], c.queueAlpha[p][q], pool, longest)
  }

  ghost predicate PortOk(c: Config, m: Mmu, pool: nat, longest: nat, p: nat)
    requires Shaped(c, m) && p < |m.port|
  {
    && m.port[p] == Sum(m.queue[p])
    && Below(m.port[p], c.portAlpha[p], pool, longest)
  }

  ghost predicate Inv(c: Config, s: System, pool: nat, longest: nat) {
    && Placed(c, s)
    && s.m.free + Sum(s.m.port) == pool && s.m.free + AllLoad(s.packets) == pool
    && (forall p :: 0 <= p < |s.m.port| ==>
          PortOk(c, s.m, pool, longest, p) && s.m.port[p] == PortLoad(s.packets, p))
    && (forall p, q :: 0 <= p < |s.m.port| && 0 <= q < |c.queueAlpha[p]| ==> QueueOk(c, s, pool, longest, p, q))
  }

  // Sharing factors are not negative.
  predicate Sane(c: Config) {
    && |c.portAlpha| == |c.queueAlpha|
    && (forall p :: 0 <= p < |c.portAlpha| ==> c.portAlpha[p] >= 0.0)
    && (forall p, q :: 0 <= p < |c.queueAlpha| && 0 <= q < |c.queueAlpha[p]| ==> c.queueAlpha[p][q] >= 0.0)
  }

  lemma {:induction false} SumUpdate(s: seq<nat>, i: nat, v: nat)
    requires i < |s|
    ensures Sum(s[i := v]) + s[i] == Sum(s) + v
    decreases |s|
  {
    var n := |s| - 1;
    if i == n {
      assert s[i := v][..n] == s[..n];
    } else {
      assert s[i := v][..n] == s[..n][i := v];
      SumUpdate(s[..n], i, v);
    }
  }

  lemma {:induction false} SumCovers(s: seq<nat>, i: nat)
    requires i < |s|
    ensures s[i] <= Sum(s)
    decreases |s|
  {
    if i < |s| - 1 {
      SumCovers(s[..|s| - 1], i);
    }
  }

  lemma {:induction false} LoadAppend(ps: seq<Packet>, x: Packet, p: nat, q: nat)
    ensures Load(ps + [x], p, q) == Load(ps, p, q) + if x.p == p && x.q == q then x.size else 0
    ensures PortLoad(ps + [x], p) == PortLoad(ps, p) + if x.p == p then x.size else 0
    ensures AllLoad(ps + [x]) == AllLoad(ps) + x.size
  {
    if ps != [] {
      assert (ps + [x])[1..] == ps[1..] + [x];
      LoadAppend(ps[1..], x, p, q);
    }
  }

  lemma {:induction false} LoadRemove(ps: seq<Packet>, i: nat, p: nat, q: nat)
    requires i < |ps|
    ensures Load(ps, p, q) == Load(Without(ps, i), p, q) + if ps[i].p == p && ps[i].q == q then ps[i].size else 0
    ensures PortLoad(ps, p) == PortLoad(Without(ps, i), p) + if ps[i].p == p then ps[i].size else 0
    ensures AllLoad(ps) == AllLoad(Without(ps, i)) + ps[i].size
  {
    if i == 0 {
      assert Without(ps, 0) == ps[1..];
    } else {
      assert Without(ps, i)[1..] == Without(ps[1..], i - 1);
      LoadRemove(ps[1..], i - 1, p, q);
    }
  }

  // The counter x is admitted `size` more while its share of the free cells allows it.
  lemma AdmitBelow(x: nat, size: nat, free: nat, alpha: real, pool: nat, longest: nat)
    requires alpha >= 0.0 && free + x <= pool && size <= longest
    requires (x + size) as real < free as real * alpha
    ensures Below(x + size, alpha, pool, longest)
  {
    var y := (x + size) as real;
    var room := (pool + longest) as real - y;
    assert free as real <= room;
    MulLeq(free as real, room, alpha);
    assert y < room * alpha;
    assert room * alpha == alpha * (pool + longest) as real - alpha * y;
  }

  lemma MulLeq(a: real, b: real, k: real)
    requires a <= b && k >= 0.0
    ensures a * k <= b * k
  {
  }

  lemma LessBelow(x: nat, y: nat, alpha: real, pool: nat, longest: nat)
    requires alpha >= 0.0 && y <= x && Below(x, alpha, pool, longest)
    ensures Below(y, alpha, pool, longest)
  {
    MulLeq(y as real, x as real, 1.0 + alpha);
    assert y as real * (1.0 + alpha) == (1.0 + alpha) * y as real;
    assert x as real * (1.0 + alpha) == (1.0 + alpha) * x as real;
  }

  lemma AdmitKeeps(c: Config, s: System, x: Packet, pool: nat, longest: nat)
    requires Sane(c) && Inv(c, s, pool, longest) && Enabled(c, s, Arrive(x), longest)
    requires !Refuses(c, s.m, x.p, x.q, x.size)
    ensures Inv(c, System(Admit(c, s.m, x.p, x.q, x.size), s.packets + [x]), pool, longest)
  {
    hide Below, Sum, Load, PortLoad, AllLoad;
    var m, p, q := s.m, x.p, x.q;
    var s' := System(Admit(c, m, p, q, x.size), s.packets + [x]);
    assert PortOk(c, m, pool, longest, p) && QueueOk(c, s, pool, longest, p, q);
    SumCovers(m.port, p);
    SumCovers(m.queue[p], q);
    AdmitBelow(m.port[p], x.size, m.free, c.portAlpha[p], pool, longest);
    AdmitBelow(m.queue[p][q], x.size, m.free, c.queueAlpha[p][q], pool, longest);
    SumUpdate(m.port, p, m.port[p] + x.size);
    SumUpdate(m.queue[p], q, m.queue[p][q] + x.size);
    hide Refuses;
    LoadAppend(s.packets, x, p, q);
    forall j, k | 0 <= j < |s'.m.port| && 0 <= k < |c.queueAlpha[j]|
      ensures QueueOk(c, s', pool, longest, j, k)
    {
      LoadAppend(s.packets, x, j, k);
      assert QueueOk(c, s, pool, longest, j, k);
    }
    forall j | 0 <= j < |s'.m.port|
      ensures PortOk(c, s'.m, pool, longest, j) && s'.m.port[j] == PortLoad(s'.packets, j)
    {
      LoadAppend(s.packets, x, j, 0);
      assert PortOk(c, m, pool, longest, j);
    }
  }

  lemma DepartKeeps(c: Config, s: System, i: nat, pool: nat, longest: nat)
    requires Sane(c) && Inv(c, s, pool, longest) && i < |s.packets|
    ensures var r := Next(c, s, Depart(i), longest); r.Some? && Inv(c, r.value, pool, longest)
  {
    hide Below, Sum, Load, PortLoad, AllLoad;
    var x := s.packets[i];
    var m, p, q := s.m, x.p, x.q;
    assert Exists(c, p, q);
    assert PortOk(c, m, pool, longest, p) && QueueOk(c, s, pool, longest, p, q);
    LoadRemove(s.packets, i, p, q);
    SumCovers(m.queue[p], q);
    LessBelow(m.port[p], m.port[p] - x.size, c.portAlpha[p], pool, longest);
    LessBelow(m.queue[p][q], m.queue[p][q] - x.size, c.queueAlpha[p][q], pool, longest);
    SumUpdate(m.port, p, m.port[p] - x.size);
    SumUpdate(m.queue[p], q, m.queue[p][q] - x.size);
    var s' := Next(c, s, Depart(i), longest).value;
    forall j, k | 0 <= j < |s'.m.port| && 0 <= k < |c.queueAlpha[j]|
      ensures QueueOk(c, s', pool, longest, j, k)
    {
      LoadRemove(s.packets, i, j, k);
      assert QueueOk(c, s, pool, longest, j, k);
    }
    forall j | 0 <= j < |s'.m.port|
      ensures PortOk(c, s'.m, pool, longest, j) && s'.m.port[j] == PortLoad(s'.packets, j)
    {
      LoadRemove(s.packets, i, j, 0);
      assert PortOk(c, m, pool, longest, j);
    }
  }

  // ---- whole runs ---------------------------------------------------------------------

  datatype History = Start | After(before: History, step: Step)

  function Reach(c: Config, pool: nat, longest: nat, h: History): Option<System> {
    match h
    case Start => Some(System(Boot(c, pool), []))
    case After(before, step) =>
      var s := Reach(c, pool, longest, before);
      if s.None? || !Placed(c, s.value) || !Enabled(c, s.value, step, longest) then None
      else Next(c, s.value, step, longest)
  }

  predicate Legal(c: Config, pool: nat, longest: nat, h: History) {
    match h
    case Start => true
    case After(before, step) =>
      && Legal(c, pool, longest, before)
      && (Reach(c, pool, longest, before).Some? ==> Enabled(c, Reach(c, pool, longest, before).value, step, longest))
  }

  // Beside the packets held a packet fits the pool, and with it the cells of its port and
  // of its queue stay below their shares of the cells that were free.
  predicate Fits(c: Config, pool: nat, held: seq<Packet>, x: Packet)
    requires Exists(c, x.p, x.q)
  {
    var total := AllLoad(held);
    && total + x.size <= pool
    && (PortLoad(held, x.p) + x.size) as real < c.portAlpha[x.p] * (pool - total) as real
    && (Load(held, x.p, x.q) + x.size) as real < c.queueAlpha[x.p][x.q] * (pool - total) as real
  }

  // The test on the counters means just that.
  lemma RefusesExact(c: Config, s: System, pool: nat, longest: nat, x: Packet)
    requires Inv(c, s, pool, longest) && Exists(c, x.p, x.q)
    ensures Refuses(c, s.m, x.p, x.q, x.size) <==> !Fits(c, pool, s.packets, x)
  {
    hide Load, PortLoad, AllLoad, Below, Sum;
    assert PortOk(c, s.m, pool, longest, x.p) && QueueOk(c, s, pool, longest, x.p, x.q);
    assert s.m.free == pool - AllLoad(s.packets);
  }

  // A packet arrived that did not fit.
  predicate Overflowed(c: Config, pool: nat, longest: nat, h: History) {
    match h
    case Start => false
    case After(before, step) =>
      || Overflowed(c, pool, longest, before)
      || (step.Arrive? && var s := Reach(c, pool, longest, before);
          && s.Some? && Exists(c, step.packet.p, step.packet.q)
          && !Fits(c, pool, s.value.packets, step.packet))
  }

  // In every run: no CHECK fails, and with flow control on, the run is stopped
  // exactly by the first packet that does not fit. The free cells and the ports'
  // occupancies make up the pool, a port's occupancy is the sum of its queues', a
  // queue's is the sum of its packets', and each stays below its share.
  lemma {:induction false} RunsConserve(c: Config, pool: nat, longest: nat, h: History)
    requires Sane(c) && Legal(c, pool, longest, h)
    ensures var s := Reach(c, pool, longest, h);
            && (s.None? <==> c.pfc && Overflowed(c, pool, longest, h))
            && (s.Some? ==> Inv(c, s.value, pool, longest))
  {
    match h
    case Start => BootInv(c, pool, longest);
    case After(before, step) =>
      RunsConserve(c, pool, longest, before);
      var s := Reach(c, pool, longest, before);
      if s.Some? {
        hide Refuses, Admit, Departure, Fits;
        match step
        case Arrive(x) =>
          RefusesExact(c, s.value, pool, longest, x);
          if !Refuses(c, s.value.m, x.p, x.q, x.size) {
            AdmitKeeps(c, s.value, x, pool, longest);
          }
        case Depart(i) => DepartKeeps(c, s.value, i, pool, longest);
      }
  }

  // After any run, a packet that arrives is held from then on exactly if it fits.
  // Otherwise nothing changes, or flow control stops the run. A packet that departs is
  // the only one to go.
  lemma HeldExactly(c: Config, pool: nat, longest: nat, h: History, step: Step)
    requires Sane(c) && Legal(c, pool, longest, After(h, step)) && Reach(c, pool, longest, h).Some?
    ensures var s, r := Reach(c, pool, longest, h).value, Reach(c, pool, longest, After(h, step));
            match step
            case Arrive(x) =>
              && Exists(c, x.p, x.q)
              && if Fits(c, pool, s.packets, x) then r.Some? && r.value.packets == s.packets + [x]
                 else r == if c.pfc then None else Some(s)
            case Depart(i) => i < |s.packets| && r.Some? && r.value.packets == Without(s.packets, i)
  {
    RunsConserve(c, pool, longest, h);
    var s := Reach(c, pool, longest, h).value;
    hide Refuses, Admit, Departure, Fits;
    match step
    case Arrive(x) => RefusesExact(c, s, pool, longest, x);
    case Depart(i) => DepartKeeps(c, s, i, pool, longest);
  }

  lemma {:induction false} SumZeros(n: nat)
    ensures Sum(seq(n, k => 0)) == 0
  {
    if n > 0 {
      SumZeros(n - 1);
      assert seq(n, k => 0)[..n - 1] == seq(n - 1, k => 0);
    }
  }

  lemma BootInv(c: Config, pool: nat, longest: nat)
    requires Sane(c)
    ensures Inv(c, System(Boot(c, pool), []), pool, longest)
  {
    var s := System(Boot(c, pool), []);
    SumZeros(|c.portAlpha|);
    assert s.m.port == seq(|c.portAlpha|, k => 0);
    forall p | 0 <= p < |s.m.port|
      ensures PortOk(c, s.m, pool, longest, p)
    {
      SumZeros(|c.queueAlpha[p]|);
      assert s.m.queue[p] == seq(|c.queueAlpha[p]|, k => 0);
    }
  }

  // A queue with alpha zero never holds a packet.
  lemma NothingWithoutShare(c: Config, pool: nat, longest: nat, h: History, p: nat, q: nat)
    requires Sane(c) && Legal(c, pool, longest, h) && Reach(c, pool, longest, h).Some?
    requires Exists(c, p, q) && c.queueAlpha[p][q] == 0.0
    ensures Load(Reach(c, pool, longest, h).value.packets, p, q) == 0
  {
    RunsConserve(c, pool, longest, h);
    assert QueueOk(c, Reach(c, pool, longest, h).value, pool, longest, p, q);
  }
}
