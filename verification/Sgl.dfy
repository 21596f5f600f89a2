// Scatter-gather lists: cutting them into MTU-sized packets on the sending side
// and matching the packets against a posted list on the receiving side.
module Sgl {

  function Total(s: seq<nat>): nat {
    if s == [] then 0 else s[0] + Total(s[1..])
  }

  predicate Positive(s: seq<nat>) {
    forall k :: 0 <= k < |s| ==> s[k] > 0
  }

  // The packet cut from the head of a list when `room` bytes fit, and what is left.
  datatype Piece = Piece(packet: seq<nat>, rest: seq<nat>)

  function Cut(sgl: seq<nat>, room: nat): (r: Piece) {
    if sgl == [] || room == 0 then Piece([], sgl)
    else if sgl[0] <= room then
      var more := Cut(sgl[1..], room - sgl[0]);
      Piece([sgl[0]] + more.packet, more.rest)
    else
      Piece([room], [sgl[0] - room] + sgl[1..])
  }

  // A list that cutting edits in place.
  class Buffer {
    var segments: seq<nat>

    constructor (sgl: seq<nat>)
      ensures segments == sgl
    {
      segments := sgl;
    }

    method CutPacketFromSgl(mtu: nat) returns (sgl: seq<nat>)
      modifies this
      ensures Piece(sgl, segments) == Cut(old(segments), mtu)
    {
      hide Cut;
      var accumulated := 0;
      var idx := 0;
      sgl := [];
      assert segments[idx..] == segments;
      while idx < |segments| && accumulated < mtu
        invariant 0 <= idx <= |segments| && accumulated <= mtu
        invariant Cut(old(segments), mtu) == Before(sgl, Cut(segments[idx..], mtu - accumulated))
        decreases mtu - accumulated, |segments| - idx
      {
        ghost var left := segments[idx..];
        CutUnfold(left, mtu - accumulated);
        if accumulated + segments[idx] <= mtu {
          accumulated := accumulated + segments[idx];
          sgl := sgl + [segments[idx]];
          idx := idx + 1;
          assert left[1..] == segments[idx..];
        } else {
          var delta := mtu - accumulated;
          accumulated := accumulated + delta;
          segments := segments[idx := segments[idx] - delta];
          sgl := sgl + [delta];
          assert segments[idx..] == [left[0] - delta] + left[1..];
          CutNothing(segments[idx..], 0);
        }
      }
      CutNothing(segments[idx..], mtu - accumulated);
      segments := segments[idx..];
    }
  }

  function Before(sgl: seq<nat>, c: Piece): Piece { Piece(sgl + c.packet, c.rest) }

  lemma CutUnfold(left: seq<nat>, room: nat)
    requires left != [] && room > 0
    ensures left[0] <= room ==> Cut(left, room) == Before([left[0]], Cut(left[1..], room - left[0]))
    ensures left[0] > room ==> Cut(left, room) == Piece([room], [left[0] - room] + left[1..])
  {
  }

  lemma CutNothing(left: seq<nat>, room: nat)
    requires left == [] || room == 0
    ensures Cut(left, room) == Piece([], left)
  {
  }

  lemma {:induction false} TotalSplit(a: seq<nat>, b: seq<nat>)
    ensures Total(a + b) == Total(a) + Total(b)
  {
    if a == [] {
      assert a + b == b;
    } else {
      assert (a + b)[1..] == a[1..] + b;
      TotalSplit(a[1..], b);
    }
  }

  lemma {:induction false} CutTotals(sgl: seq<nat>, room: nat)
    ensures var c := Cut(sgl, room);
            && Total(c.packet) == (if Total(sgl) <= room then Total(sgl) else room)
            && Total(c.packet) + Total(c.rest) == Total(sgl)
            && |c.rest| <= |sgl|
            && |c.packet| <= |sgl|
  {
    if sgl == [] || room == 0 {
    } else if sgl[0] <= room {
      CutTotals(sgl[1..], room - sgl[0]);
      TotalSplit([sgl[0]], Cut(sgl[1..], room - sgl[0]).packet);
    } else {
      assert ([sgl[0] - room] + sgl[1..])[1..] == sgl[1..];
      assert Total([room]) == room + Total([]);
    }
  }

  lemma {:induction false} CutPositive(sgl: seq<nat>, room: nat)
    requires Positive(sgl)
    ensures Positive(Cut(sgl, room).packet) && Positive(Cut(sgl, room).rest)
    ensures Cut(sgl, room).rest == [] <==> Total(sgl) <= room
  {
    CutTotals(sgl, room);
    if sgl == [] || room == 0 {
    } else if sgl[0] <= room {
      CutPositive(sgl[1..], room - sgl[0]);
    } else {
    }
  }

  // A packet is cut short of the list only when it is full.
  lemma {:induction false} CutFull(sgl: seq<nat>, room: nat)
    ensures Cut(sgl, room).rest != [] ==> Total(Cut(sgl, room).packet) == room
  {
    if sgl == [] || room == 0 {
    } else if sgl[0] <= room {
      CutFull(sgl[1..], room - sgl[0]);
      TotalSplit([sgl[0]], Cut(sgl[1..], room - sgl[0]).packet);
    } else {
      assert Total([room]) == room + Total([]);
    }
  }

  // Every packet cut from the list has at most `most` segments.
  predicate Segmented(sgl: seq<nat>, mtu: nat, most: nat)
    requires mtu > 0
    decreases Total(sgl)
  {
    var c := Cut(sgl, mtu);
    CutFull(sgl, mtu);
    CutTotals(sgl, mtu);
    |c.packet| <= most && (c.rest != [] ==> Segmented(c.rest, mtu, most))
  }

  // All packets of an operation, in order. An empty list still takes one packet.
  function Packets(sgl: seq<nat>, mtu: nat): (r: seq<seq<nat>>)
    requires Positive(sgl) && mtu > 0
    decreases Total(sgl)
  {
    var c := Cut(sgl, mtu);
    CutTotals(sgl, mtu);
    CutPositive(sgl, mtu);
    if c.rest == [] then [c.packet] else [c.packet] + Packets(c.rest, mtu)
  }

  function CeilDiv(n: nat, q: nat): nat
    requires q > 0
  {
    (n + q - 1) / q
  }

  // CeilDiv is the one number of q-sized bins that n items need.
  lemma CeilDivMeans(n: nat, q: nat, bins: nat)
    requires q > 0
    ensures bins == CeilDiv(n, q) <==> (bins - 1) * q < n <= bins * q
  {
    var m := n + q - 1;
    var d := m / q;
    assert m == q * d + m % q && 0 <= m % q < q;
    assert (d - 1) * q == q * d - q;
    if bins < d {
      assert bins * q <= (d - 1) * q by { MulMonotone(bins, d - 1, q); }
    } else if bins > d {
      assert d * q <= (bins - 1) * q by { MulMonotone(d, bins - 1, q); }
    }
  }

  lemma MulMonotone(a: int, b: int, q: nat)
    requires a <= b
    ensures a * q <= b * q
  {
  }

  function Flatten(ps: seq<seq<nat>>): seq<nat> {
    if ps == [] then [] else ps[0] + Flatten(ps[1..])
  }

  // Every packet is full but the last one, and together they hold the whole list.
  lemma {:induction false} PacketSizes(sgl: seq<nat>, mtu: nat)
    requires Positive(sgl) && mtu > 0
    ensures var ps := Packets(sgl, mtu);
            && |ps| > 0
            && AllFull(ps, mtu)
            && Total(ps[|ps| - 1]) <= mtu
            && (sgl != [] ==> Total(ps[|ps| - 1]) > 0)
            && Total(Flatten(ps)) == Total(sgl)
    decreases Total(sgl)
  {
    var c := Cut(sgl, mtu);
    CutTotals(sgl, mtu);
    CutPositive(sgl, mtu);
    var ps := Packets(sgl, mtu);
    if c.rest == [] {
      assert Flatten(ps) == c.packet + Flatten([]) == c.packet;
    } else {
      var qs := Packets(c.rest, mtu);
      PacketSizes(c.rest, mtu);
      assert ps == [c.packet] + qs && ps[1..] == qs;
      TotalSplit(c.packet, Flatten(qs));
    }
  }

  predicate AllFull(ps: seq<seq<nat>>, mtu: nat) {
    forall k :: 0 <= k < |ps| - 1 ==> Total(ps[k]) == mtu
  }

  lemma {:induction false} FullTotal(ps: seq<seq<nat>>, mtu: nat)
    requires |ps| > 0 && AllFull(ps, mtu)
    ensures Total(Flatten(ps)) == (|ps| - 1) * mtu + Total(ps[|ps| - 1])
  {
    hide Total;
    if |ps| == 1 {
      assert Flatten(ps) == ps[0] + [] == ps[0];
    } else {
      FullTotal(ps[1..], mtu);
      TotalSplit(ps[0], Flatten(ps[1..]));
      assert (|ps| - 1) * mtu == (|ps| - 2) * mtu + mtu;
    }
  }

  lemma BinsOf(total: nat, mtu: nat, n: nat, last: nat)
    requires n > 0 && mtu > 0 && 0 < last <= mtu && total == (n - 1) * mtu + last
    ensures n == CeilDiv(total, mtu)
  {
    assert n * mtu == (n - 1) * mtu + mtu;
    CeilDivMeans(total, mtu, n);
  }

  // An operation takes max(1, ceil(total / mtu)) packets.
  lemma PacketCount(sgl: seq<nat>, mtu: nat)
    requires Positive(sgl) && mtu > 0
    ensures |Packets(sgl, mtu)| == (if sgl == [] then 1 else CeilDiv(Total(sgl), mtu))
  {
    PacketSizes(sgl, mtu);
    var ps := Packets(sgl, mtu);
    if sgl == [] {
      assert ps == [[]];
    } else {
      FullTotal(ps, mtu);
      hide Packets, Total, Flatten, AllFull, CeilDiv;
      BinsOf(Total(sgl), mtu, |ps|, Total(ps[|ps| - 1]));
    }
  }

  // Whether a segment of a list placed at `base` ends at byte offset x.
  predicate EndsAt(s: seq<nat>, base: nat, x: nat) {
    s != [] && (x == base + s[0] || EndsAt(s[1..], base + s[0], x))
  }

  lemma {:induction false} EndsSplit(a: seq<nat>, b: seq<nat>, base: nat, x: nat)
    ensures EndsAt(a + b, base, x) <==> EndsAt(a, base, x) || EndsAt(b, base + Total(a), x)
  {
    if a == [] {
      assert a + b == b;
    } else {
      assert (a + b)[1..] == a[1..] + b;
      EndsSplit(a[1..], b, base + a[0], x);
    }
  }

  lemma {:induction false} EndsAbove(s: seq<nat>, base: nat, x: nat)
    requires Positive(s) && EndsAt(s, base, x)
    ensures x > base
  {
    if x != base + s[0] {
      EndsAbove(s[1..], base + s[0], x);
    }
  }

  lemma FirstEnd(s: seq<nat>, base: nat)
    requires s != []
    ensures EndsAt(s, base, base + s[0])
  {
  }

  // A list of positive segments is determined by where its segments end.
  lemma {:induction false} EndsDetermine(s: seq<nat>, t: seq<nat>, base: nat)
    requires Positive(s) && Positive(t)
    requires forall x: nat :: EndsAt(s, base, x) <==> EndsAt(t, base, x)
    ensures s == t
  {
    if s == [] {
      if t != [] {
        FirstEnd(t, base);
      }
    } else {
      assert EndsAt(s, base, base + s[0]);
      assert EndsAt(t, base, base + t[0]);
      if s[0] < t[0] {
        EndsAbove(t[1..], base + t[0], base + s[0]);
      } else if t[0] < s[0] {
        EndsAbove(s[1..], base + s[0], base + t[0]);
      }
      var b := base + s[0];
      forall x: nat
        ensures EndsAt(s[1..], b, x) <==> EndsAt(t[1..], b, x)
      {
        assert EndsAt(s, base, x) <==> EndsAt(t, base, x);
        if EndsAt(s[1..], b, x) {
          EndsAbove(s[1..], b, x);
        } else if EndsAt(t[1..], b, x) {
          EndsAbove(t[1..], b, x);
        }
      }
      EndsDetermine(s[1..], t[1..], b);
    }
  }

  lemma {:induction false} CutEnds(sgl: seq<nat>, room: nat, base: nat, x: nat)
    requires Positive(sgl) && room > 0
    ensures var c := Cut(sgl, room);
            (EndsAt(c.packet, base, x) || EndsAt(c.rest, base + Total(c.packet), x))
            <==> (EndsAt(sgl, base, x) || (c.rest != [] && x == base + room))
  {
    if sgl != [] {
      if sgl[0] < room {
        var more := Cut(sgl[1..], room - sgl[0]);
        CutEnds(sgl[1..], room - sgl[0], base + sgl[0], x);
        assert ([sgl[0]] + more.packet)[1..] == more.packet;
      } else {
        var tail, rest := sgl[1..], [sgl[0] - room] + sgl[1..];
        assert [room][1..] == [] && rest[1..] == tail && [room] + [] == [room];
        assert EndsAt([room], base, x) <==> x == base + room;
        assert Total([room]) == room;
        if sgl[0] == room {
          CutNothing(tail, 0);
          assert Cut(sgl, room) == Piece([room], tail);
        } else {
          assert Cut(sgl, room) == Piece([room], rest);
          assert EndsAt(rest, base + room, x) <==> x == base + sgl[0] || EndsAt(tail, base + sgl[0], x);
        }
      }
    }
  }

  // The offsets at which n packets of one operation meet: every multiple of the MTU.
  ghost predicate IsCut(n: nat, mtu: nat, base: nat, x: nat) {
    exists k: nat :: 1 <= k < n && x == base + k * mtu
  }

  lemma NoCut(mtu: nat, base: nat, x: nat)
    ensures !IsCut(1, mtu, base, x)
  {
  }

  lemma CutsStep(n: nat, mtu: nat, base: nat, x: nat)
    requires n > 1
    ensures IsCut(n, mtu, base, x) <==> x == base + mtu || IsCut(n - 1, mtu, base + mtu, x)
  {
    if IsCut(n, mtu, base, x) {
      var k: nat :| 1 <= k < n && x == base + k * mtu;
      assert x == base + mtu + (k - 1) * mtu;
    }
    if IsCut(n - 1, mtu, base + mtu, x) {
      var k: nat :| 1 <= k < n - 1 && x == base + mtu + k * mtu;
      assert x == base + (k + 1) * mtu;
    }
    if x == base + mtu {
      assert x == base + 1 * mtu;
    }
  }

  // The packets of an operation carry its list, with an extra boundary at every
  // multiple of the MTU and nowhere else.
  lemma {:induction false} PacketsCarryTheList(sgl: seq<nat>, mtu: nat, base: nat, x: nat)
    requires Positive(sgl) && mtu > 0
    ensures var ps := Packets(sgl, mtu);
            EndsAt(Flatten(ps), base, x) <==> EndsAt(sgl, base, x) || IsCut(|ps|, mtu, base, x)
    decreases Total(sgl)
  {
    hide Cut, Total, IsCut;
    var c := Cut(sgl, mtu);
    var ps := Packets(sgl, mtu);
    CutTotals(sgl, mtu);
    CutPositive(sgl, mtu);
    CutEnds(sgl, mtu, base, x);
    if c.rest == [] {
      assert ps == [c.packet] && Flatten(ps) == c.packet + Flatten([]) == c.packet;
      NoCut(mtu, base, x);
    } else {
      hide EndsAt;
      var qs := Packets(c.rest, mtu);
      assert ps == [c.packet] + qs && ps[1..] == qs;
      EndsSplit(c.packet, Flatten(qs), base, x);
      PacketsCarryTheList(c.rest, mtu, base + mtu, x);
      PacketSizes(c.rest, mtu);
      CutsStep(|ps|, mtu, base, x);
    }
  }

  // Putting packets together again: the last segment of a packet and the first of the
  // next are taken for one segment that was cut.
  function Join(a: seq<nat>, b: seq<nat>): seq<nat> {
    if a == [] then b
    else if b == [] then a
    else a[..|a| - 1] + [a[|a| - 1] + b[0]] + b[1..]
  }

  function Merge(ps: seq<seq<nat>>): seq<nat> {
    if ps == [] then [] else Join(ps[0], Merge(ps[1..]))
  }

  lemma JoinEnds(a: seq<nat>, b: seq<nat>, base: nat, x: nat)
    requires a != [] && b != [] && Positive(a) && Positive(b)
    ensures Positive(Join(a, b)) && Join(a, b) != []
    ensures EndsAt(Join(a, b), base, x) <==>
              (EndsAt(a, base, x) && x != base + Total(a)) || EndsAt(b, base + Total(a), x)
  {
    var n := |a| - 1;
    var front, last, tail := a[..n], a[n], b[1..];
    assert a == front + [last] && [last][1..] == [];
    var middle := [last + b[0]] + tail;
    assert Join(a, b) == front + middle && middle[1..] == tail;
    EndsSplit(front, [last], base, x);
    EndsSplit(front, middle, base, x);
    TotalSplit(front, [last]);
    assert Total([last]) == last;
    if EndsAt(front, base, x) {
      EndsBelow(front, base, x);
    }
  }

  lemma {:induction false} EndsBelow(s: seq<nat>, base: nat, x: nat)
    requires EndsAt(s, base, x)
    ensures x <= base + Total(s)
  {
    if x != base + s[0] {
      EndsBelow(s[1..], base + s[0], x);
    }
  }

  // Packets as the sender makes them: full but for the last, and none empty.
  predicate Cuts(ps: seq<seq<nat>>, mtu: nat) {
    AllFull(ps, mtu) && forall k :: 0 <= k < |ps| ==> ps[k] != [] && Positive(ps[k])
  }

  lemma {:induction false} PacketsCut(sgl: seq<nat>, mtu: nat)
    requires Positive(sgl) && sgl != [] && mtu > 0
    ensures Cuts(Packets(sgl, mtu), mtu)
    decreases Total(sgl)
  {
    PacketSizes(sgl, mtu);
    CutTotals(sgl, mtu);
    CutPositive(sgl, mtu);
    var c := Cut(sgl, mtu);
    assert c.packet != [];
    if c.rest != [] {
      PacketsCut(c.rest, mtu);
      assert Packets(sgl, mtu) == [c.packet] + Packets(c.rest, mtu);
    }
  }

  lemma {:induction false} FlattenPositive(ps: seq<seq<nat>>)
    requires forall k :: 0 <= k < |ps| ==> Positive(ps[k])
    ensures Positive(Flatten(ps))
  {
    if ps != [] {
      FlattenPositive(ps[1..]);
    }
  }

  // Merging removes the boundaries at the cuts, and only those.
  lemma {:induction false} MergeEnds(ps: seq<seq<nat>>, mtu: nat, base: nat, x: nat)
    requires ps != [] && Cuts(ps, mtu) && mtu > 0
    ensures Positive(Merge(ps)) && Merge(ps) != []
    ensures EndsAt(Merge(ps), base, x) <==> EndsAt(Flatten(ps), base, x) && !IsCut(|ps|, mtu, base, x)
  {
    hide Total, EndsAt, IsCut, Join;
    var a, rest := ps[0], ps[1..];
    if rest == [] {
      assert Flatten(rest) == [] && Merge(rest) == [];
      assert Flatten(ps) == a + [] == a && Merge(ps) == Join(a, []);
      JoinNothing(a);
      NoCut(mtu, base, x);
    } else {
      MergeEnds(rest, mtu, base + mtu, x);
      JoinEnds(a, Merge(rest), base, x);
      EndsSplit(a, Flatten(rest), base, x);
      CutsStep(|ps|, mtu, base, x);
      FlattenPositive(rest);
      EndsApart(a, Flatten(rest), |rest|, mtu, base, x);
    }
  }

  lemma JoinNothing(a: seq<nat>)
    ensures Join(a, []) == a
  {
  }

  // Boundaries of the first packet and those after it.
  lemma EndsApart(a: seq<nat>, b: seq<nat>, n: nat, mtu: nat, base: nat, x: nat)
    requires Total(a) == mtu > 0 && Positive(b)
    ensures EndsAt(a, base, x) ==> !IsCut(n, mtu, base + mtu, x)
    ensures EndsAt(b, base + mtu, x) ==> x != base + mtu
  {
    if EndsAt(a, base, x) {
      EndsBelow(a, base, x);
      assert forall k: nat :: k >= 1 ==> k * mtu >= mtu;
    }
    if EndsAt(b, base + mtu, x) {
      EndsAbove(b, base + mtu, x);
    }
  }

  lemma MultipleMod(k: nat, q: nat)
    requires q > 0
    ensures (k * q) % q == 0
  {
    var d, r := (k * q) / q, (k * q) % q;
    assert k * q == q * d + r && 0 <= r < q;
    assert q * d == d * q && (d + 1) * q == d * q + q && (d - 1) * q == d * q - q;
    if k > d {
      MulMonotone(d + 1, k, q);
    } else if k < d {
      MulMonotone(k, d - 1, q);
    }
  }

  // The multiples of q among 1, ..., total - 1 when total needs n bins.
  lemma InnerMultiples(total: nat, q: nat, n: nat, last: nat, x: nat)
    requires n > 0 && q > 0 && 0 < last <= q && total == (n - 1) * q + last
    ensures IsCut(n, q, 0, x) <==> 0 < x < total && x % q == 0
  {
    if IsCut(n, q, 0, x) {
      var k: nat :| 1 <= k < n && x == 0 + k * q;
      MulMonotone(k, n - 1, q);
      MulMonotone(1, k, q);
      MultipleMod(k, q);
    }
    if 0 < x < total && x % q == 0 {
      var k := x / q;
      assert x == q * k + x % q == k * q;
      assert n * q == (n - 1) * q + q;
      if k >= n {
        MulMonotone(n, k, q);
      }
      assert k != 0;
      assert 1 <= k < n && x == 0 + k * q;
    }
  }

  // The cuts are at the multiples of the MTU inside the list.
  lemma CutsInside(sgl: seq<nat>, mtu: nat, x: nat)
    requires Positive(sgl) && sgl != [] && mtu > 0
    ensures IsCut(|Packets(sgl, mtu)|, mtu, 0, x) <==> 0 < x < Total(sgl) && x % mtu == 0
  {
    PacketSizes(sgl, mtu);
    var ps := Packets(sgl, mtu);
    FullTotal(ps, mtu);
    hide Packets, Total, Flatten, AllFull, IsCut;
    InnerMultiples(Total(sgl), mtu, |ps|, Total(ps[|ps| - 1]), x);
  }

  // No segment ends at a multiple of the MTU before the end of the list.
  ghost predicate Unaligned(sgl: seq<nat>, mtu: nat)
    requires mtu > 0
  {
    forall x: nat :: EndsAt(sgl, 0, x) && x < Total(sgl) ==> x % mtu != 0
  }

  lemma MergePoint(sgl: seq<nat>, mtu: nat, x: nat)
    requires Positive(sgl) && sgl != [] && mtu > 0
    ensures var m := Merge(Packets(sgl, mtu));
            && Positive(m)
            && (EndsAt(m, 0, x) <==> EndsAt(sgl, 0, x) && (x < Total(sgl) ==> x % mtu != 0))
  {
    var ps := Packets(sgl, mtu);
    PacketsCut(sgl, mtu);
    PacketSizes(sgl, mtu);
    hide Packets, Merge, EndsAt, IsCut, Total, Cuts;
    MergeEnds(ps, mtu, 0, x);
    PacketsCarryTheList(sgl, mtu, 0, x);
    CutsInside(sgl, mtu, x);
    if EndsAt(sgl, 0, x) {
      EndsAbove(sgl, 0, x);
    }
  }

  // Merging the packets at the cuts gives back the list exactly if it is unaligned.
  lemma MergeExact(sgl: seq<nat>, mtu: nat)
    requires Positive(sgl) && mtu > 0
    ensures Merge(Packets(sgl, mtu)) == sgl <==> Unaligned(sgl, mtu)
  {
    if sgl == [] {
      var ps := Packets(sgl, mtu);
      assert ps == [[]] && ps[1..] == [] && Merge(ps) == Join([], []) == [];
    } else {
      hide Packets, Merge, EndsAt, Total;
      var m := Merge(Packets(sgl, mtu));
      MergePoint(sgl, mtu, 0);
      if m == sgl {
        forall x: nat | EndsAt(sgl, 0, x) && x < Total(sgl)
          ensures x % mtu != 0
        {
          MergePoint(sgl, mtu, x);
        }
      } else if Unaligned(sgl, mtu) {
        forall x: nat
          ensures EndsAt(m, 0, x) <==> EndsAt(sgl, 0, x)
        {
          MergePoint(sgl, mtu, x);
        }
        EndsDetermine(m, sgl, 0);
      }
    }
  }

  // Two lists with the same packets, one of which is not what merging gives.
  lemma MergeExample()
    ensures Packets([4, 2], 4) == Packets([6], 4) == [[4], [2]] && Merge([[4], [2]]) == [6]
  {
    CutNothing([2], 0);
    CutNothing([], 2);
    assert [4, 2][1..] == [2] && [2][1..] == [] && [6][1..] == [] && [4] + [] == [4] && [2] + [] == [2];
    assert Cut([4, 2], 4) == Piece([4], [2]) && Cut([6], 4) == Piece([4], [2]) && Cut([2], 4) == Piece([2], []);
    assert Packets([2], 4) == [[2]] && [[4]] + [[2]] == [[4], [2]];
    assert [[4], [2]][1..] == [[2]] && [[2]][1..] == [];
    assert Merge([[2]]) == Join([2], []) == [2];
    assert Join([4], [2]) == [] + [6] + [] == [6];
  }

  // ---- the receiver ---------------------------------------------------------

  // Matches one packet against the posted list; a mismatch leaves the list as it was.
  datatype Receipt = Receipt(accepted: bool, posted: seq<nat>)

  function Receive(posted: seq<nat>, packet: seq<nat>, mtu: nat): (r: Receipt) {
    var c := Cut(posted, mtu);
    if packet == c.packet then Receipt(true, c.rest) else Receipt(false, posted)
  }

  // The SGL branch of ProcessIncomingSend on a posted receive.
  method MatchPostedRecv(posted: Buffer, packet: seq<nat>, mtu: nat) returns (accepted: bool, isEnd: bool)
    modifies posted
    ensures Receipt(accepted, posted.segments) == Receive(old(posted.segments), packet, mtu)
    ensures isEnd == (accepted && posted.segments == [])
  {
    var oldSgl := posted.segments;
    var expected := posted.CutPacketFromSgl(mtu);
    isEnd := posted.segments == [];
    accepted := true;
    if packet != expected {
      isEnd := false;
      accepted := false;
      posted.segments := oldSgl;
    }
  }

  // The receiver takes every packet in turn, and its list runs out exactly on the
  // last one.
  predicate TakesAll(posted: seq<nat>, packets: seq<seq<nat>>, mtu: nat)
    decreases |packets|
  {
    && packets != []
    && var r := Receive(posted, packets[0], mtu);
    && r.accepted
    && (r.posted == [] <==> |packets| == 1)
    && (|packets| > 1 ==> TakesAll(r.posted, packets[1..], mtu))
  }

  lemma {:induction false} ReceiverMatches(sent: seq<nat>, posted: seq<nat>, mtu: nat)
    requires Positive(sent) && Positive(posted) && mtu > 0
    ensures TakesAll(posted, Packets(sent, mtu), mtu) <==> Packets(posted, mtu) == Packets(sent, mtu)
    decreases Total(sent)
  {
    var s, p := Cut(sent, mtu), Cut(posted, mtu);
    CutTotals(sent, mtu);
    CutPositive(sent, mtu);
    CutPositive(posted, mtu);
    var ps, qs := Packets(sent, mtu), Packets(posted, mtu);
    PacketSizes(sent, mtu);
    PacketSizes(posted, mtu);
    if s.rest != [] {
      PacketSizes(s.rest, mtu);
      assert ps[1..] == Packets(s.rest, mtu);
      if p.rest != [] {
        PacketSizes(p.rest, mtu);
        assert qs[1..] == Packets(p.rest, mtu);
        ReceiverMatches(s.rest, p.rest, mtu);
        assert ps == [ps[0]] + ps[1..] && qs == [qs[0]] + qs[1..];
      }
    } else if p.rest != [] {
      PacketSizes(p.rest, mtu);
    }
  }
}
