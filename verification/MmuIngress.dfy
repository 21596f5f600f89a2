// Ingress accounting in the switch's memory management unit (MMU). A packet occupies
// the minimal guarantee of its ingress queue, the shared pool, or, once priority flow
// control (PFC) was triggered for the queue, its headroom.
module MmuIngress {
  import opened Common

  // One ingress queue: a port and a priority.
  datatype QueueConfig = QueueConfig(guarantee: nat, headroom: nat, alpha: real)

  datatype Queue = Queue(occupancy: nat, guarantee: nat, headroom: nat, triggered: bool)

  datatype Mmu = Mmu(free: nat, queues: seq<Queue>)

  // Where a packet lies.
  datatype Shares = Shares(guarantee: nat, pool: nat, headroom: nat)

  // What ReceivedData says of a packet: dropped, or admitted with this metadata.
  datatype Verdict = Dropped | Admitted(tag: Shares)

  // The metadata is filled in after the counters moved, as the source has it, or from
  // the room there was before.
  datatype Tagging = AsWritten | FromRoomBefore

  function Sum(s: Shares): nat { s.guarantee + s.pool + s.headroom }

  predicate Over(c: QueueConfig, q: Queue, free: nat) {
    q.occupancy as real >= free as real * c.alpha + c.guarantee as real
  }

  // The packet goes to the headroom: PFC was triggered before or is triggered by it.
  predicate ToHeadroom(c: QueueConfig, q: Queue, free: nat, size: nat) {
    q.triggered || Over(c, q, free) || free < size
  }

  // The packet fills up what is left of the guarantee and spills into the pool.
  predicate Straddles(c: QueueConfig, q: Queue, free: nat, size: nat) {
    && !ToHeadroom(c, q, free, size)
    && q.occupancy < c.guarantee < q.guarantee + size
  }

  // The packet's true shares: what the counters move by.
  function SharesOf(c: QueueConfig, q: Queue, free: nat, size: nat): Shares
    requires q.guarantee <= c.guarantee
  {
    if ToHeadroom(c, q, free, size) then Shares(0, 0, size)
    else if q.occupancy >= c.guarantee then Shares(0, size, 0)
    else if q.guarantee + size <= c.guarantee then Shares(size, 0, 0)
    else Shares(c.guarantee - q.guarantee, size - (c.guarantee - q.guarantee), 0)
  }

  datatype Received = Received(q: Queue, free: nat, verdict: Verdict)

  // One call on the counters of one queue and the pool; None for LOG(FATAL) and CHECK.
  function Receive(c: QueueConfig, q: Queue, free: nat, size: nat, mode: Tagging): Option<Received> {
    var q1 := if !q.triggered && (Over(c, q, free) || free < size) then q.(triggered := true) else q;
    if q1.triggered then
      if c.headroom < q1.headroom + size then Some(Received(q1, free, Dropped))
      else Some(Received(q1.(headroom := q1.headroom + size, occupancy := q1.occupancy + size), free,
                         Admitted(Shares(0, 0, size))))
    else if q1.occupancy >= c.guarantee then
      if free < size then None
      else Some(Received(q1.(occupancy := q1.occupancy + size), free - size, Admitted(Shares(0, size, 0))))
    else if q1.guarantee + size <= c.guarantee then
      Some(Received(q1.(guarantee := q1.guarantee + size, occupancy := q1.occupancy + size), free,
                    Admitted(Shares(size, 0, 0))))
    else
      var pool := q1.guarantee + size - c.guarantee;
      // As written, the counter has already been set to the guarantee.
      var room := if mode.AsWritten? || c.guarantee < q1.guarantee then 0 else c.guarantee - q1.guarantee;
      if free < pool then None
      else Some(Received(q1.(guarantee := c.guarantee, occupancy := q1.occupancy + size), free - pool,
                         Admitted(Shares(room, pool, 0))))
  }

  function Arrival(cs: seq<QueueConfig>, m: Mmu, k: nat, size: nat, mode: Tagging): Option<(Mmu, Verdict)>
    requires k < |cs| == |m.queues|
  {
    var r := Receive(cs[k], m.queues[k], m.free, size, mode);
    if r.None? then None
    else Some((Mmu(r.value.free, m.queues[k := r.value.q]), r.value.verdict))
  }

  // IngressAccountingRelease and the test that ends PFC; None when a CHECK fails.
  function Release(c: QueueConfig, q: Queue, free: nat, size: nat, tag: Shares): Option<(Queue, nat)> {
    if size != Sum(tag) || q.guarantee < tag.guarantee || q.headroom < tag.headroom || q.occupancy < size then None
    else
      var q1 := q.(guarantee := q.guarantee - tag.guarantee, headroom := q.headroom - tag.headroom,
                   occupancy := q.occupancy - size);
      var free1 := free + tag.pool;
      Some((if q1.triggered && !Over(c, q1, free1) then q1.(triggered := false) else q1, free1))
  }

  function Departure(cs: seq<QueueConfig>, m: Mmu, k: nat, size: nat, tag: Shares): Option<Mmu>
    requires k < |cs| == |m.queues|
  {
    var r := Release(cs[k], m.queues[k], m.free, size, tag);
    if r.None? then None else Some(Mmu(r.value.1, m.queues[k := r.value.0]))
  }

  // The counters as an object updated in place.
  class IngressCounters {
    const cs: seq<QueueConfig>
    var free: nat
    var queues: seq<Queue>

    predicate Valid()
      reads this
    {
      |queues| == |cs|
    }

    function View(): Mmu
      reads this
    {
      Mmu(free, queues)
    }

    constructor (cs: seq<QueueConfig>, pool: nat)
      ensures Valid() && this.cs == cs && View() == Boot(cs, pool)
    {
      this.cs := cs;
      free := pool;
      queues := seq(|cs|, k => Queue(0, 0, 0, false));
    }

    // `ok` is false where the source stops the simulation.
    method ReceivedData(k: nat, size: nat) returns (ok: bool, verdict: Verdict)
      requires Valid() && k < |cs|
      modifies this
      ensures Valid()
      ensures ok == Arrival(cs, old(View()), k, size, AsWritten).Some?
      ensures ok ==> Arrival(cs, old(View()), k, size, AsWritten).value == (View(), verdict)
    {
      verdict := Dropped;
      var q := queues[k];
      if !q.triggered {
        var limit := free as real * cs[k].alpha + cs[k].guarantee as real;
        if q.occupancy as real >= limit || free < size {
          q := q.(triggered := true);
        }
      }
      if !q.triggered {
        if q.occupancy >= cs[k].guarantee {
          if free < size { return false, verdict; }
          free := free - size;
          verdict := Admitted(Shares(0, size, 0));
        } else if q.guarantee + size <= cs[k].guarantee {
          q := q.(guarantee := q.guarantee + size);
          verdict := Admitted(Shares(size, 0, 0));
        } else {
          var pool := q.guarantee + size - cs[k].guarantee;
          q := q.(guarantee := cs[k].guarantee);
          verdict := Admitted(Shares(cs[k].guarantee - q.guarantee, pool, 0));
          if free < pool { return false, verdict; }
          free := free - pool;
        }
      } else {
        if cs[k].headroom < q.headroom + size {
          queues := queues[k := q];
          return true, verdict;
        }
        q := q.(headroom := q.headroom + size);
        verdict := Admitted(Shares(0, 0, size));
      }
      queues := queues[k := q.(occupancy := q.occupancy + size)];
      return true, verdict;
    }

    method DequeuedPacket(k: nat, size: nat, tag: Shares) returns (ok: bool)
      requires Valid() && k < |cs|
      modifies this
      ensures Valid()
      ensures ok == Departure(cs, old(View()), k, size, tag).Some?
      ensures ok ==> Departure(cs, old(View()), k, size, tag).value == View()
    {
      var q := queues[k];
      if size != tag.guarantee + tag.pool + tag.headroom || q.guarantee < tag.guarantee { return false; }
      q := q.(guarantee := q.guarantee - tag.guarantee);
      if q.headroom < tag.headroom { return false; }
      q := q.(headroom := q.headroom - tag.headroom);
      if q.occupancy < size { return false; }
      free := free + tag.pool;
      q := q.(occupancy := q.occupancy - size);
      if q.triggered && (q.occupancy as real) < free as real * cs[k].alpha + cs[k].guarantee as real {
        q := q.(triggered := false);
      }
      queues := queues[k := q];
      return true;
    }
  }

  function Boot(cs: seq<QueueConfig>, pool: nat): Mmu { Mmu(pool, seq(|cs|, k => Queue(0, 0, 0, false))) }

  // ---- runs --------------------------------------------------------------------

  // A packet in the switch: its queue, size, metadata, true shares, and whether it
  // straddled when it arrived.
  datatype Packet = Packet(k: nat, size: nat, tag: Shares, shares: Shares, straddled: bool)

  datatype System = System(m: Mmu, packets: seq<Packet>)

  datatype Step = Arrive(k: nat, size: nat) | Depart(i: nat)

  predicate Enabled(cs: seq<QueueConfig>, s: System, step: Step) {
    match step
    case Arrive(k, _) => k < |cs|
    case Depart(i) => i < |s.packets|
  }

  function Next(cs: seq<QueueConfig>, s: System, step: Step, mode: Tagging): Option<System>
    requires Enabled(cs, s, step) && Shaped(cs, s)
  {
    match step
    case Arrive(k, size) =>
      var r := Arrival(cs, s.m, k, size, mode);
      if r.None? then None
      else if r.value.1.Dropped? then Some(s.(m := r.value.0))
      else
        var p := Packet(k, size, r.value.1.tag, SharesOf(cs[k], s.m.queues[k], s.m.free, size),
                        Straddles(cs[k], s.m.queues[k], s.m.free, size));
        Some(System(r.value.0, s.packets + [p]))
    case Depart(i) =>
      var p := s.packets[i];
      var r := Departure(cs, s.m, p.k, p.size, p.tag);
      if r.None? then None else Some(System(r.value, Without(s.packets, i)))
  }

  predicate Shaped(cs: seq<QueueConfig>, s: System) {
    && |s.m.queues| == |cs|
    && (forall k :: 0 <= k < |cs| ==> s.m.queues[k].guarantee <= cs[k].guarantee)
    && (forall i :: 0 <= i < |s.packets| ==> s.packets[i].k < |cs|)
  }

  // ---- conservation ---------------------------------------------------------------

  datatype Load = Load(size: nat, shares: Shares)

  function Add(a: Load, b: Load): Load {
    Load(a.size + b.size, Shares(a.shares.guarantee + b.shares.guarantee, a.shares.pool + b.shares.pool,
                                 a.shares.headroom + b.shares.headroom))
  }

  const Nothing := Load(0, Shares(0, 0, 0))

  function LoadOf(p: Packet): Load { Load(p.size, p.shares) }

  // What the packets of one queue, and of all queues, occupy.
  function QueueLoad(ps: seq<Packet>, k: nat): Load {
    if ps == [] then Nothing
    else
      var rest := QueueLoad(ps[1..], k);
      if ps[0].k == k then Add(LoadOf(ps[0]), rest) else rest
  }

  function PoolLoad(ps: seq<Packet>): nat {
    if ps == [] then 0 else ps[0].shares.pool + PoolLoad(ps[1..])
  }

  // The metadata of an admitted packet.
  predicate TagOk(p: Packet, mode: Tagging) {
    && Sum(p.shares) == p.size
    && p.tag == (if mode.AsWritten? && p.straddled then p.shares.(guarantee := 0) else p.shares)
    && (p.straddled ==> p.shares.guarantee > 0)
  }

  // The counters match the packets in the switch.
  ghost predicate Conserved(cs: seq<QueueConfig>, s: System, mode: Tagging, pool: nat) {
    && Shaped(cs, s)
    && s.m.free + PoolLoad(s.packets) == pool
    && (forall k :: 0 <= k < |cs| ==> QueueConserved(cs[k], s.m.queues[k], QueueLoad(s.packets, k)))
    && (forall i :: 0 <= i < |s.packets| ==> TagOk(s.packets[i], mode))
  }

  predicate QueueConserved(c: QueueConfig, q: Queue, l: Load) {
    && q.occupancy == l.size && q.guarantee == l.shares.guarantee && q.headroom == l.shares.headroom
    && q.guarantee <= c.guarantee && q.headroom <= c.headroom
    && q.guarantee + q.headroom <= q.occupancy
  }

  lemma {:induction false} LoadAppend(ps: seq<Packet>, p: Packet, k: nat)
    ensures QueueLoad(ps + [p], k) == if p.k == k then Add(QueueLoad(ps, k), LoadOf(p)) else QueueLoad(ps, k)
    ensures PoolLoad(ps + [p]) == PoolLoad(ps) + p.shares.pool
  {
    if ps != [] {
      assert (ps + [p])[1..] == ps[1..] + [p];
      LoadAppend(ps[1..], p, k);
    }
  }

  lemma {:induction false} LoadRemove(ps: seq<Packet>, i: nat, k: nat)
    requires i < |ps|
    ensures QueueLoad(ps, k) ==
              if ps[i].k == k then Add(QueueLoad(Without(ps, i), k), LoadOf(ps[i])) else QueueLoad(Without(ps, i), k)
    ensures PoolLoad(ps) == PoolLoad(Without(ps, i)) + ps[i].shares.pool
  {
    if i == 0 {
      assert Without(ps, 0) == ps[1..];
    } else {
      assert Without(ps, i)[1..] == Without(ps[1..], i - 1);
      LoadRemove(ps[1..], i - 1, k);
    }
  }

  // The counters move by the true shares, which add up to the packet; the metadata
  // gives the true shares exactly if the packet does not straddle, and otherwise
  // leaves out what went into the guarantee.
  lemma ReceiveMoves(c: QueueConfig, q: Queue, free: nat, size: nat, mode: Tagging)
    requires q.guarantee <= c.guarantee && q.headroom <= c.headroom && q.guarantee <= q.occupancy
    ensures var r := Receive(c, q, free, size, mode);
            var shares := SharesOf(c, q, free, size);
            && r.Some? && Sum(shares) == size
            && r.value.q.triggered == ToHeadroom(c, q, free, size)
            && (r.value.verdict.Dropped? <==> ToHeadroom(c, q, free, size) && q.headroom + size > c.headroom)
            && (r.value.verdict.Dropped? ==>
                  r.value.free == free && r.value.q == q.(triggered := true))
            && (r.value.verdict.Admitted? ==>
                  && r.value.free + shares.pool == free
                  && r.value.q == Queue(q.occupancy + size, q.guarantee + shares.guarantee,
                                        q.headroom + shares.headroom, r.value.q.triggered)
                  && r.value.q.guarantee <= c.guarantee && r.value.q.headroom <= c.headroom
                  && r.value.verdict.tag == (if mode.AsWritten? && Straddles(c, q, free, size)
                                             then shares.(guarantee := 0) else shares)
                  && (Straddles(c, q, free, size) ==> shares.guarantee > 0))
  {
    hide Over;
    if ToHeadroom(c, q, free, size) {
    } else if q.occupancy >= c.guarantee {
    } else if q.guarantee + size <= c.guarantee {
    } else {
      assert Straddles(c, q, free, size);
    }
  }

  // Whatever arrives is admitted or dropped without a CHECK or LOG(FATAL), and the
  // counters go on matching the packets.
  lemma ArriveKeeps(cs: seq<QueueConfig>, s: System, k: nat, size: nat, mode: Tagging, pool: nat)
    requires Conserved(cs, s, mode, pool) && k < |cs|
    ensures var r := Next(cs, s, Arrive(k, size), mode);
            r.Some? && Conserved(cs, r.value, mode, pool)
  {
    ReceiveMoves(cs[k], s.m.queues[k], s.m.free, size, mode);
    hide Receive, Over;
    var s' := Next(cs, s, Arrive(k, size), mode).value;
    if |s'.packets| > |s.packets| {
      var p := s'.packets[|s.packets|];
      forall j | 0 <= j < |cs|
        ensures QueueConserved(cs[j], s'.m.queues[j], QueueLoad(s'.packets, j))
      {
        LoadAppend(s.packets, p, j);
        assert QueueConserved(cs[j], s.m.queues[j], QueueLoad(s.packets, j));
      }
      LoadAppend(s.packets, p, k);
    }
  }

  // With its true shares as metadata a packet releases exactly what it held, and PFC
  // ends once the queue is below its limit; with less, a CHECK fails.
  lemma ReleaseMoves(c: QueueConfig, q: Queue, free: nat, size: nat, tag: Shares)
    requires q.guarantee >= tag.guarantee && q.headroom >= tag.headroom && q.occupancy >= size
    ensures var r := Release(c, q, free, size, tag);
            && (r.Some? <==> Sum(tag) == size)
            && (r.Some? ==>
                  && r.value.1 == free + tag.pool
                  && r.value.0 == Queue(q.occupancy - size, q.guarantee - tag.guarantee, q.headroom - tag.headroom,
                                        q.triggered && Over(c, r.value.0, r.value.1)))
  {
  }

  // A packet's departure fails a CHECK exactly if it straddled on arrival.
  lemma DepartKeeps(cs: seq<QueueConfig>, s: System, i: nat, mode: Tagging, pool: nat)
    requires Conserved(cs, s, mode, pool) && i < |s.packets|
    ensures var r := Next(cs, s, Depart(i), mode);
            && (r.None? <==> mode.AsWritten? && s.packets[i].straddled)
            && (r.Some? ==> Conserved(cs, r.value, mode, pool))
  {
    var p := s.packets[i];
    assert TagOk(p, mode);
    hide Release, Over;
    DepartQueue(cs, s, i, mode, pool);
    if p.tag == p.shares {
      LoadRemove(s.packets, i, p.k);
      var s' := Next(cs, s, Depart(i), mode).value;
      hide QueueConserved;
      forall j | 0 <= j < |cs|
        ensures QueueConserved(cs[j], s'.m.queues[j], QueueLoad(s'.packets, j))
      {
        LoadRemove(s.packets, i, j);
        assert QueueConserved(cs[j], s.m.queues[j], QueueLoad(s.packets, j));
      }
      assert Shaped(cs, s');
      hide QueueLoad, PoolLoad;
    }
  }

  lemma DepartQueue(cs: seq<QueueConfig>, s: System, i: nat, mode: Tagging, pool: nat)
    requires Conserved(cs, s, mode, pool) && i < |s.packets|
    ensures var p := s.packets[i];
            var r := Release(cs[p.k], s.m.queues[p.k], s.m.free, p.size, p.tag);
            && (r.Some? <==> p.tag == p.shares)
            && (r.Some? ==> && r.value.1 == s.m.free + p.shares.pool
                            && r.value.0.guarantee <= cs[p.k].guarantee
                            && QueueConserved(cs[p.k], r.value.0, QueueLoad(Without(s.packets, i), p.k)))
  {
    hide Release, Over, QueueLoad, PoolLoad;
    var p := s.packets[i];
    assert TagOk(p, mode);
    LoadRemove(s.packets, i, p.k);
    LoadCovers(Without(s.packets, i), p.k);
    assert QueueConserved(cs[p.k], s.m.queues[p.k], QueueLoad(s.packets, p.k));
    ReleaseMoves(cs[p.k], s.m.queues[p.k], s.m.free, p.size, p.tag);
  }

  lemma {:induction false} LoadCovers(ps: seq<Packet>, k: nat)
    requires forall i :: 0 <= i < |ps| ==> Sum(ps[i].shares) == ps[i].size
    ensures var l := QueueLoad(ps, k); Sum(l.shares) == l.size
  {
    if ps != [] {
      LoadCovers(ps[1..], k);
    }
  }

  // ---- whole runs ------------------------------------------------------------------

  datatype History = Start | After(before: History, step: Step)

  // The switch after a run; None once a CHECK or LOG(FATAL) stopped it.
  function Reach(cs: seq<QueueConfig>, pool: nat, mode: Tagging, h: History): Option<System> {
    match h
    case Start => Some(System(Boot(cs, pool), []))
    case After(before, step) =>
      var s := Reach(cs, pool, mode, before);
      if s.None? || !Shaped(cs, s.value) || !Enabled(cs, s.value, step) then None else Next(cs, s.value, step, mode)
  }

  // Packets arrive at existing queues and only packets in the switch depart.
  predicate Legal(cs: seq<QueueConfig>, pool: nat, mode: Tagging, h: History) {
    match h
    case Start => true
    case After(before, step) =>
      && Legal(cs, pool, mode, before)
      && (Reach(cs, pool, mode, before).Some? ==> Enabled(cs, Reach(cs, pool, mode, before).value, step))
  }

  // A straddling packet departed.
  predicate Straddled(cs: seq<QueueConfig>, pool: nat, mode: Tagging, h: History) {
    match h
    case Start => false
    case After(before, step) =>
      || Straddled(cs, pool, mode, before)
      || (step.Depart? && var s := Reach(cs, pool, mode, before);
          s.Some? && step.i < |s.value.packets| && s.value.packets[step.i].straddled)
  }

  lemma {:induction false} RunsConserve(cs: seq<QueueConfig>, pool: nat, mode: Tagging, h: History)
    requires Legal(cs, pool, mode, h)
    ensures var s := Reach(cs, pool, mode, h);
            && (s.None? <==> mode.AsWritten? && Straddled(cs, pool, mode, h))
            && (s.Some? ==> Conserved(cs, s.value, mode, pool))
  {
    match h
    case Start =>
    case After(before, step) =>
      RunsConserve(cs, pool, mode, before);
      var s := Reach(cs, pool, mode, before);
      if s.Some? {
        hide Next;
        match step
        case Arrive(k, size) => ArriveKeeps(cs, s.value, k, size, mode, pool);
        case Depart(i) => DepartKeeps(cs, s.value, i, mode, pool);
      }
  }

  // In every run of the source as it stands: a CHECK or LOG(FATAL) stops it exactly
  // when a straddling packet departs. Until then every queue's occupancy, guarantee
  // and headroom counters are the sums over its packets, within their limits, and the
  // free cells and the pool shares make up the pool.
  lemma StopsOnStraddle(cs: seq<QueueConfig>, pool: nat, h: History)
    requires Legal(cs, pool, AsWritten, h)
    ensures var s := Reach(cs, pool, AsWritten, h);
            && (s.None? <==> Straddled(cs, pool, AsWritten, h))
            && (s.Some? ==> Conserved(cs, s.value, AsWritten, pool))
  {
    RunsConserve(cs, pool, AsWritten, h);
  }

  // With the metadata taken from the room there was before, nothing ever stops it.
  lemma NeverStopsFromRoomBefore(cs: seq<QueueConfig>, pool: nat, h: History)
    requires Legal(cs, pool, FromRoomBefore, h)
    ensures var s := Reach(cs, pool, FromRoomBefore, h); s.Some? && Conserved(cs, s.value, FromRoomBefore, pool)
  {
    RunsConserve(cs, pool, FromRoomBefore, h);
  }

  lemma NoneStraddle(cs: seq<QueueConfig>, s: System, step: Step)
    requires Shaped(cs, s) && Enabled(cs, s, step) && forall k :: 0 <= k < |cs| ==> cs[k].guarantee == 0
    requires forall i :: 0 <= i < |s.packets| ==> !s.packets[i].straddled
    ensures var r := Next(cs, s, step, AsWritten);
            r.Some? ==> forall i :: 0 <= i < |r.value.packets| ==> !r.value.packets[i].straddled
  {
    hide Receive, Release, SharesOf, Over;
  }

  // Queues without a minimal guarantee (the default) are not affected.
  lemma {:induction false} NeverStopsWithoutGuarantees(cs: seq<QueueConfig>, pool: nat, h: History)
    requires Legal(cs, pool, AsWritten, h) && forall k :: 0 <= k < |cs| ==> cs[k].guarantee == 0
    ensures var s := Reach(cs, pool, AsWritten, h);
            s.Some? && forall i :: 0 <= i < |s.value.packets| ==> !s.value.packets[i].straddled
  {
    match h
    case Start =>
    case After(before, step) =>
      NeverStopsWithoutGuarantees(cs, pool, before);
      RunsConserve(cs, pool, AsWritten, before);
      RunsConserve(cs, pool, AsWritten, h);
      NoneStraddle(cs, Reach(cs, pool, AsWritten, before).value, step);
      hide Next, Conserved;
      assert !Straddled(cs, pool, AsWritten, before);
  }

  function Occupancy(queues: seq<Queue>): nat {
    if queues == [] then 0 else Occupancy(queues[..|queues| - 1]) + queues[|queues| - 1].occupancy
  }

  function Reserved(cs: seq<QueueConfig>): nat {
    if cs == [] then 0
    else Reserved(cs[..|cs| - 1]) + cs[|cs| - 1].guarantee + cs[|cs| - 1].headroom
  }

  // Pool shares of the packets of the first n queues.
  function PoolUpTo(ps: seq<Packet>, n: nat): nat {
    if n == 0 then 0 else PoolUpTo(ps, n - 1) + QueueLoad(ps, n - 1).shares.pool
  }

  lemma {:induction false} PoolUpToStep(ps: seq<Packet>, n: nat)
    requires ps != []
    ensures PoolUpTo(ps, n) == PoolUpTo(ps[1..], n) + if ps[0].k < n then ps[0].shares.pool else 0
  {
    if n > 0 {
      PoolUpToStep(ps, n - 1);
    }
  }

  lemma {:induction false} PoolSplits(ps: seq<Packet>, n: nat)
    requires forall i :: 0 <= i < |ps| ==> ps[i].k < n
    ensures PoolUpTo(ps, n) == PoolLoad(ps)
  {
    if ps == [] {
      PoolUpToNothing(n);
    } else {
      PoolUpToStep(ps, n);
      PoolSplits(ps[1..], n);
    }
  }

  lemma {:induction false} PoolUpToNothing(n: nat)
    ensures PoolUpTo([], n) == 0
  {
    if n > 0 {
      PoolUpToNothing(n - 1);
    }
  }

  lemma {:induction false} OccupancyCovered(cs: seq<QueueConfig>, queues: seq<Queue>, ps: seq<Packet>, mode: Tagging)
    requires |cs| == |queues|
    requires forall k :: 0 <= k < |cs| ==> QueueConserved(cs[k], queues[k], QueueLoad(ps, k))
    requires forall i :: 0 <= i < |ps| ==> TagOk(ps[i], mode)
    ensures Occupancy(queues) <= Reserved(cs) + PoolUpTo(ps, |cs|)
    decreases |cs|
  {
    if cs != [] {
      var n := |cs| - 1;
      OccupancyCovered(cs[..n], queues[..n], ps, mode);
      LoadCovers(ps, n);
      assert QueueConserved(cs[n], queues[n], QueueLoad(ps, n));
    }
  }

  // The switch never holds more than the pool, all guarantees and all headrooms.
  lemma MemoryBounded(cs: seq<QueueConfig>, pool: nat, mode: Tagging, h: History)
    requires Legal(cs, pool, mode, h) && Reach(cs, pool, mode, h).Some?
    ensures Occupancy(Reach(cs, pool, mode, h).value.m.queues) <= pool + Reserved(cs)
  {
    hide Reach, Legal, Straddled;
    RunsConserve(cs, pool, mode, h);
    var s := Reach(cs, pool, mode, h).value;
    OccupancyCovered(cs, s.m.queues, s.packets, mode);
    PoolSplits(s.packets, |cs|);
  }

  // Ten cells guaranteed, a packet of twelve: two go to the pool, the metadata says
  // two in all, and its departure stops the simulation.
  lemma StraddleExample()
    ensures var cs := [QueueConfig(10, 0, 1.0)];
            var h := After(After(Start, Arrive(0, 12)), Depart(0));
            && Legal(cs, 100, AsWritten, h)
            && Straddled(cs, 100, AsWritten, h)
            && Reach(cs, 100, AsWritten, h).None?
  {
    var cs := [QueueConfig(10, 0, 1.0)];
    var s := Reach(cs, 100, AsWritten, After(Start, Arrive(0, 12))).value;
    assert s.packets == [Packet(0, 12, Shares(0, 2, 0), Shares(10, 2, 0), true)];
  }
}
