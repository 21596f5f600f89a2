// What happens to a packet that arrives at the switch, and when an ingress queue asks
// for a pause, told by the packets that the switch holds.
module MmuPfc {
  import opened Common
  import opened MmuIngress

  // The cells of the pool that are free, and the limit at which a queue asks for a pause:
  // its share of them and its guarantee.
  function FreeCells(pool: nat, held: seq<Packet>): int { pool - PoolLoad(held) }

  function PauseLimit(c: QueueConfig, pool: nat, held: seq<Packet>): real {
    FreeCells(pool, held) as real * c.alpha + c.guarantee as real
  }

  // The packets of the queue have reached the limit.
  predicate Full(c: QueueConfig, pool: nat, held: seq<Packet>, k: nat) {
    QueueLoad(held, k).size as real >= PauseLimit(c, pool, held)
  }

  // Where a packet comes to lie while no pause is asked for: in the pool if the queue
  // has used up its guarantee, else in what is left of that and then in the pool.
  function Placed(c: QueueConfig, l: Load, size: nat): Shares
    requires l.shares.guarantee <= c.guarantee
  {
    var room := c.guarantee - l.shares.guarantee;
    if l.size >= c.guarantee then Shares(0, size, 0)
    else if size <= room then Shares(size, 0, 0)
    else Shares(room, size - room, 0)
  }

  // The queues that ask for a pause.
  predicate Paused(s: System, k: nat) { k < |s.m.queues| && s.m.queues[k].triggered }

  // ---- one step -------------------------------------------------------------------

  lemma FullExact(cs: seq<QueueConfig>, s: System, mode: Tagging, pool: nat, k: nat)
    requires Conserved(cs, s, mode, pool) && k < |cs|
    ensures Over(cs[k], s.m.queues[k], s.m.free) <==> Full(cs[k], pool, s.packets, k)
    ensures s.m.free == FreeCells(pool, s.packets)
    ensures QueueLoad(s.packets, k).shares.guarantee <= cs[k].guarantee
    ensures s.m.queues[k].headroom == QueueLoad(s.packets, k).shares.headroom
  {
    hide QueueLoad, PoolLoad;
    assert QueueConserved(cs[k], s.m.queues[k], QueueLoad(s.packets, k));
  }

  // The packet as it lies in the switch.
  predicate Lies(p: Packet, k: nat, size: nat, shares: Shares) {
    && p.k == k && p.size == size && p.shares == shares
    && (p.straddled <==> shares.guarantee > 0 && shares.pool > 0)
  }

  // What an arrival makes of the switch.
  ghost predicate Arrived(c: QueueConfig, s: System, r: System, pool: nat, k: nat, size: nat)
    requires QueueLoad(s.packets, k).shares.guarantee <= c.guarantee
  {
    var l := QueueLoad(s.packets, k);
    var pause := Paused(s, k) || Full(c, pool, s.packets, k) || FreeCells(pool, s.packets) < size;
    && (forall j: nat :: Paused(r, j) <==> if j == k then pause else Paused(s, j))
    && if pause && l.shares.headroom + size > c.headroom then r.packets == s.packets
       else
         && |r.packets| == |s.packets| + 1 && r.packets[..|s.packets|] == s.packets
         && Lies(r.packets[|s.packets|], k, size, if pause then Shares(0, 0, size) else Placed(c, l, size))
  }

  lemma PlacedExact(c: QueueConfig, q: Queue, free: nat, size: nat, l: Load)
    requires QueueConserved(c, q, l)
    ensures SharesOf(c, q, free, size) == if ToHeadroom(c, q, free, size) then Shares(0, 0, size) else Placed(c, l, size)
    ensures Straddles(c, q, free, size) <==>
              var shares := SharesOf(c, q, free, size); shares.guarantee > 0 && shares.pool > 0
  {
    hide ToHeadroom;
  }

  lemma ArriveExact(cs: seq<QueueConfig>, s: System, k: nat, size: nat, mode: Tagging, pool: nat)
    requires Conserved(cs, s, mode, pool) && k < |cs|
    ensures QueueLoad(s.packets, k).shares.guarantee <= cs[k].guarantee
    ensures var r := Next(cs, s, Arrive(k, size), mode); r.Some? && Arrived(cs[k], s, r.value, pool, k, size)
  {
    var c, q := cs[k], s.m.queues[k];
    FullExact(cs, s, mode, pool, k);
    assert QueueConserved(c, q, QueueLoad(s.packets, k));
    hide QueueLoad, PoolLoad, Full, Over;
    PlacedExact(c, q, s.m.free, size, QueueLoad(s.packets, k));
    assert ToHeadroom(c, q, s.m.free, size) <==>
             Paused(s, k) || Full(c, pool, s.packets, k) || FreeCells(pool, s.packets) < size;
    ReceiveMoves(c, q, s.m.free, size, mode);
    hide Receive, SharesOf, Straddles, Placed, ToHeadroom, Conserved, FreeCells;
  }

  // What a departure makes of it.
  ghost predicate Departed(c: QueueConfig, s: System, r: System, pool: nat, i: nat)
    requires i < |s.packets|
  {
    var k, left := s.packets[i].k, Without(s.packets, i);
    && r.packets == left
    && (forall j: nat :: Paused(r, j) <==> Paused(s, j) && (j == k ==> Full(c, pool, left, k)))
  }

  lemma ReleaseEnds(c: QueueConfig, q: Queue, free: nat, size: nat, tag: Shares)
    requires Release(c, q, free, size, tag).Some?
    ensures var r := Release(c, q, free, size, tag).value;
            r.0.triggered <==> q.triggered && Over(c, r.0, r.1)
  {
  }

  lemma DepartExact(cs: seq<QueueConfig>, s: System, i: nat, mode: Tagging, pool: nat)
    requires Conserved(cs, s, mode, pool) && i < |s.packets|
    ensures var r := Next(cs, s, Depart(i), mode);
            && s.packets[i].k < |cs|
            && (r.None? <==> mode.AsWritten? && s.packets[i].straddled)
            && (r.Some? ==> Departed(cs[s.packets[i].k], s, r.value, pool, i))
  {
    DepartKeeps(cs, s, i, mode, pool);
    var p := s.packets[i];
    var r := Next(cs, s, Depart(i), mode);
    if r.Some? {
      ReleaseEnds(cs[p.k], s.m.queues[p.k], s.m.free, p.size, p.tag);
      hide Conserved, Release, Over, Full;
      FullExact(cs, r.value, mode, pool, p.k);
    }
  }

  // ---- every run --------------------------------------------------------------------

  // After any run, a packet that arrives leaves its queue asking for a pause exactly if
  // it did before, the packets held had reached the limit, or the packet is larger than
  // the free cells. It is then kept exactly if the headroom has room for it, and otherwise
  // always.
  lemma ArrivesExactly(cs: seq<QueueConfig>, pool: nat, mode: Tagging, h: History, k: nat, size: nat)
    requires Legal(cs, pool, mode, After(h, Arrive(k, size))) && Reach(cs, pool, mode, h).Some?
    ensures var s, r := Reach(cs, pool, mode, h).value, Reach(cs, pool, mode, After(h, Arrive(k, size)));
            && k < |cs| && r.Some? && QueueLoad(s.packets, k).shares.guarantee <= cs[k].guarantee
            && Arrived(cs[k], s, r.value, pool, k, size)
  {
    RunsConserve(cs, pool, mode, h);
    hide Arrived, Next;
    var s := Reach(cs, pool, mode, h).value;
    assert Shaped(cs, s) && k < |cs|;
    hide Conserved;
    ArriveExact(cs, s, k, size, mode, pool);
  }

  // A packet that departs leaves the others, unless it straddled. Its queue, and no other,
  // stops asking for a pause exactly if what is left of it is below the limit.
  lemma DepartsExactly(cs: seq<QueueConfig>, pool: nat, mode: Tagging, h: History, i: nat)
    requires Legal(cs, pool, mode, After(h, Depart(i))) && Reach(cs, pool, mode, h).Some?
    ensures var s, r := Reach(cs, pool, mode, h).value, Reach(cs, pool, mode, After(h, Depart(i)));
            && i < |s.packets| && s.packets[i].k < |cs|
            && (r.None? <==> mode.AsWritten? && s.packets[i].straddled)
            && (r.Some? ==> Departed(cs[s.packets[i].k], s, r.value, pool, i))
  {
    RunsConserve(cs, pool, mode, h);
    hide Departed, Next;
    var s := Reach(cs, pool, mode, h).value;
    assert Shaped(cs, s) && i < |s.packets|;
    hide Conserved;
    DepartExact(cs, s, i, mode, pool);
  }

  lemma BelowLimit(c: QueueConfig, pool: nat, held: seq<Packet>, k: nat)
    requires c.alpha >= 0.0 && FreeCells(pool, held) >= 0 && QueueLoad(held, k).size < c.guarantee
    ensures !Full(c, pool, held, k)
  {
    hide QueueLoad, PoolLoad;
    MulNonNegative(FreeCells(pool, held) as real, c.alpha);
  }

  lemma MulNonNegative(a: real, b: real)
    requires a >= 0.0 && b >= 0.0
    ensures a * b >= 0.0
  {
  }

  // A packet that fits the guarantee of its queue together with those held there, and is
  // no larger than the free cells, is kept in the guarantee, and no pause is asked for,
  // unless it was already.
  lemma GuaranteeHolds(cs: seq<QueueConfig>, pool: nat, mode: Tagging, h: History, k: nat, size: nat)
    requires Legal(cs, pool, mode, After(h, Arrive(k, size))) && Reach(cs, pool, mode, h).Some? && k < |cs|
    requires var s := Reach(cs, pool, mode, h).value;
             && !Paused(s, k) && cs[k].alpha >= 0.0
             && 0 < size <= FreeCells(pool, s.packets) && QueueLoad(s.packets, k).size + size <= cs[k].guarantee
    ensures var s, r := Reach(cs, pool, mode, h).value, Reach(cs, pool, mode, After(h, Arrive(k, size)));
            && r.Some? && !Paused(r.value, k)
            && |r.value.packets| == |s.packets| + 1 && r.value.packets[..|s.packets|] == s.packets
            && Lies(r.value.packets[|s.packets|], k, size, Shares(size, 0, 0))
  {
    RunsConserve(cs, pool, mode, h);
    ArrivesExactly(cs, pool, mode, h, k, size);
    var s := Reach(cs, pool, mode, h).value;
    assert QueueConserved(cs[k], s.m.queues[k], QueueLoad(s.packets, k));
    BelowLimit(cs[k], pool, s.packets, k);
    hide Reach, Legal, QueueLoad, PoolLoad, Full, Conserved, Lies;
  }
}
