// The target side of an ordered RDMA connection: which requests are accepted, despite
// receiver-not-ready (RNR) NACKs, and in which order their ACKs reach Falcon.
module AckOrdering {
  import opened Common

  // ---- acceptance --------------------------------------------------------------------------

  datatype Outcome = Accepted | Nacked | Fatal

  // What the QP context remembers, and the RSNs accepted so far.
  datatype Rx = Rx(next: nat, inRnr: bool, accepted: seq<nat>)

  // A request with this RSN arrives. `noRecv`: it is a Send and no receive is posted,
  // which is looked at before the RSN. `refused`: anything looked at afterwards says
  // no (a mismatched receive, a random RNR, too many inbound reads).
  function Process(rx: Rx, rsn: nat, noRecv: bool, refused: bool): (Rx, Outcome) {
    if !noRecv && rsn != rx.next && !rx.inRnr then (rx, Fatal)
    else if noRecv || rsn != rx.next || refused then (rx.(inRnr := true), Nacked)
    else (Rx(rx.next + 1, false, rx.accepted + [rsn]), Accepted)
  }

  class FalconQp {
    var nextRxRsn: nat
    var inRnr: bool
    var accepted: seq<nat>

    function View(): Rx
      reads this
    {
      Rx(nextRxRsn, inRnr, accepted)
    }

    constructor ()
      ensures View() == Boot
    {
      nextRxRsn, inRnr, accepted := 0, false, [];
    }

    method ProcessIncoming(rsn: nat, noRecv: bool, refused: bool) returns (outcome: Outcome)
      modifies this
      ensures (View(), outcome) == Process(old(View()), rsn, noRecv, refused)
    {
      var mismatch := noRecv;
      if !mismatch && rsn != nextRxRsn {
        if !inRnr {
          return Fatal;
        }
        mismatch := true;
      }
      if mismatch || refused {
        inRnr := true;
        return Nacked;
      }
      nextRxRsn := nextRxRsn + 1;
      inRnr := false;
      accepted := accepted + [rsn];
      return Accepted;
    }
  }

  const Boot := Rx(0, false, [])

  datatype Arrival = Arrival(rsn: nat, noRecv: bool, refused: bool)

  function ProcessAll(rx: Rx, arrivals: seq<Arrival>): Rx {
    if arrivals == [] then rx
    else
      var a := arrivals[|arrivals| - 1];
      Process(ProcessAll(rx, arrivals[..|arrivals| - 1]), a.rsn, a.noRecv, a.refused).0
  }

  // Whatever arrives in whatever order, the accepted RSNs are 0, 1, 2, ... with none
  // skipped and none taken twice.
  lemma {:induction false} AcceptsInOrder(arrivals: seq<Arrival>)
    ensures var rx := ProcessAll(Boot, arrivals); rx.accepted == UpTo(rx.next)
    decreases |arrivals|
  {
    if arrivals != [] {
      AcceptsInOrder(arrivals[..|arrivals| - 1]);
    }
  }

  // How many requests were accepted: the next in order each time, if nothing speaks
  // against it.
  function Taken(arrivals: seq<Arrival>): nat {
    if arrivals == [] then 0
    else
      var n, a := Taken(arrivals[..|arrivals| - 1]), arrivals[|arrivals| - 1];
      if a.rsn == n && !a.noRecv && !a.refused then n + 1 else n
  }

  // Since the last acceptance there was no receive for a request, or the next one in
  // order was refused.
  ghost predicate Stalled(arrivals: seq<Arrival>) {
    exists i ::
      && 0 <= i < |arrivals| && Taken(arrivals[..i]) == Taken(arrivals)
      && (arrivals[i].noRecv || (arrivals[i].rsn == Taken(arrivals) && arrivals[i].refused))
  }

  lemma {:induction false} TakenGrows(arrivals: seq<Arrival>, i: nat)
    requires i <= |arrivals|
    ensures Taken(arrivals[..i]) <= Taken(arrivals)
    decreases |arrivals|
  {
    if i == |arrivals| {
      assert arrivals[..i] == arrivals;
    } else {
      var front := arrivals[..|arrivals| - 1];
      assert front[..i] == arrivals[..i];
      TakenGrows(front, i);
    }
  }

  lemma StalledStep(arrivals: seq<Arrival>, a: Arrival)
    ensures var n, all := Taken(arrivals), arrivals + [a];
            && Taken(all) == n + (if a.rsn == n && !a.noRecv && !a.refused then 1 else 0)
            && (Stalled(all) <==>
                  Taken(all) == n && (Stalled(arrivals) || a.noRecv || (a.rsn == n && a.refused)))
  {
    var n, all, m := Taken(arrivals), arrivals + [a], |arrivals|;
    assert all[..m] == arrivals;
    forall i | 0 <= i < m
      ensures all[..i] == arrivals[..i] && Taken(all[..i]) <= n && all[i] == arrivals[i]
    {
      assert all[..i] == arrivals[..i];
      TakenGrows(arrivals, i);
    }
    assert all[m] == a;
    if Taken(all) == n && Stalled(arrivals) {
      var i :| && 0 <= i < m && Taken(arrivals[..i]) == n
               && (arrivals[i].noRecv || (arrivals[i].rsn == n && arrivals[i].refused));
      assert Taken(all[..i]) == Taken(all) && all[i] == arrivals[i];
    }
    if Stalled(all) {
      var i :| && 0 <= i < |all| && Taken(all[..i]) == Taken(all)
               && (all[i].noRecv || (all[i].rsn == Taken(all) && all[i].refused));
      if i < m {
        assert all[..i] == arrivals[..i] && all[i] == arrivals[i];
      }
    }
  }

  // Whatever arrives, what the QP remembers is how many were accepted and whether it is
  // stalled.
  lemma {:induction false} RemembersExactly(arrivals: seq<Arrival>)
    ensures var rx := ProcessAll(Boot, arrivals); rx.next == Taken(arrivals) && (rx.inRnr <==> Stalled(arrivals))
    decreases |arrivals|
  {
    if arrivals != [] {
      var n := |arrivals| - 1;
      hide Stalled, Taken;
      RemembersExactly(arrivals[..n]);
      assert arrivals == arrivals[..n] + [arrivals[n]];
      StalledStep(arrivals[..n], arrivals[n]);
    } else {
      assert !Stalled(arrivals);
    }
  }

  // A request is accepted exactly if it is the next in order and nothing speaks against
  // it; it is fatal exactly if it is out of order, looked at, and the QP is not stalled;
  // and otherwise it is answered with a NACK.
  lemma OutcomeExact(arrivals: seq<Arrival>, a: Arrival)
    ensures var outcome := Process(ProcessAll(Boot, arrivals), a.rsn, a.noRecv, a.refused).1;
            && (outcome.Accepted? <==> a.rsn == Taken(arrivals) && !a.noRecv && !a.refused)
            && (outcome.Fatal? <==> a.rsn != Taken(arrivals) && !a.noRecv && !Stalled(arrivals))
  {
    RemembersExactly(arrivals);
    hide Taken, Stalled, ProcessAll;
  }

  // Falcon delivers RSNs in order and goes back to the oldest one not accepted as
  // often as it likes.
  datatype Step = Deliver(noRecv: bool, refused: bool) | GoBack

  datatype Link = Link(rx: Rx, pointer: nat, failed: bool)

  function Next(l: Link, step: Step): Link {
    match step
    case GoBack => l.(pointer := l.rx.next)
    case Deliver(noRecv, refused) =>
      var (rx, outcome) := Process(l.rx, l.pointer, noRecv, refused);
      Link(rx, l.pointer + 1, l.failed || outcome.Fatal?)
  }

  function Run(steps: seq<Step>): Link {
    if steps == [] then Link(Boot, 0, false) else Next(Run(steps[..|steps| - 1]), steps[|steps| - 1])
  }

  // Then the out-of-order case is never fatal.
  lemma {:induction false} GoBackNeverFatal(steps: seq<Step>)
    ensures var l := Run(steps);
            !l.failed && l.rx.next <= l.pointer && (l.rx.next < l.pointer ==> l.rx.inRnr)
    decreases |steps|
  {
    if steps != [] {
      GoBackNeverFatal(steps[..|steps| - 1]);
    }
  }

  function Clean(n: nat): seq<Step> { if n == 0 then [] else Clean(n - 1) + [Deliver(false, false)] }

  // After going back, n deliveries with nothing against them are n acceptances.
  lemma {:induction false} GoBackResumes(steps: seq<Step>, n: nat)
    ensures var l, l' := Run(steps), Run(steps + [GoBack] + Clean(n));
            l'.rx.next == l.rx.next + n == l'.pointer && l'.failed == l.failed
  {
    var all := steps + [GoBack] + Clean(n);
    if n == 0 {
      assert all == steps + [GoBack] && all[..|steps|] == steps;
    } else {
      GoBackResumes(steps, n - 1);
      assert all == steps + [GoBack] + Clean(n - 1) + [Deliver(false, false)];
      assert all[..|all| - 1] == steps + [GoBack] + Clean(n - 1);
    }
  }

  // Without going back it can be: after a NACK and a late acceptance, a request that
  // was already on its way is out of order and the RNR state is gone.
  lemma LateRequestFatal()
    ensures var rx := ProcessAll(Boot, [Arrival(0, false, true), Arrival(1, false, false), Arrival(0, false, false)]);
            rx.next == 1 && Process(rx, 2, false, false).1 == Fatal
  {
    var as3 := [Arrival(0, false, true), Arrival(1, false, false), Arrival(0, false, false)];
    assert as3[..2] == [Arrival(0, false, true), Arrival(1, false, false)];
    assert as3[..2][..1] == [Arrival(0, false, true)];
    assert as3[..2][..1][..0] == [];
    assert ProcessAll(Boot, as3[..2][..1]) == Rx(0, true, []);
    assert ProcessAll(Boot, as3[..2]) == Rx(0, true, []);
  }

  // ---- ACKs ----------------------------------------------------------------------------------

  // An accepted request: accepted at a time, issued over PCIe in an event with a time
  // and an id. If its ACK is deferred, it is sent by an event of its own, whose id is
  // `ackEvent`.
  datatype Delivery = Delivery(rsn: nat, read: bool, accept: nat, issue: nat, issueEvent: nat, ackEvent: nat)

  // The ACK of a read is always deferred, that of a write or send until the latency
  // has passed.
  predicate Deferred(d: Delivery, latency: nat) { d.read || d.issue < d.accept + latency }

  function AckTime(d: Delivery, latency: nat): nat {
    if d.issue >= d.accept + latency then d.issue else d.accept + latency
  }

  // An event that runs at a time, and the order in which events run.
  datatype Moment = Moment(time: nat, event: nat)

  predicate Earlier(a: Moment, b: Moment) { a.time < b.time || (a.time == b.time && a.event < b.event) }

  function IssueMoment(d: Delivery): Moment { Moment(d.issue, d.issueEvent) }

  // When the ACK reaches Falcon.
  function AckMoment(d: Delivery, latency: nat): Moment {
    if Deferred(d, latency) then Moment(AckTime(d, latency), d.ackEvent) else IssueMoment(d)
  }

  // Requests with RSNs 0, 1, 2, ...: accepted over time, issued in the same order by
  // different events, and the events for their ACKs scheduled, with increasing ids,
  // when they are issued. AckRuns.RunsFormed shows that every run has this form.
  predicate Formed(ds: seq<Delivery>) {
    && (forall i :: 0 <= i < |ds| ==>
          ds[i].rsn == i && ds[i].accept <= ds[i].issue && ds[i].issueEvent < ds[i].ackEvent)
    && (forall i, j :: 0 <= i < j < |ds| ==>
          && ds[i].accept <= ds[j].accept && Earlier(IssueMoment(ds[i]), IssueMoment(ds[j]))
          && ds[i].ackEvent < ds[j].ackEvent && ds[i].issueEvent < ds[j].ackEvent)
    && (forall i, j :: 0 <= i < |ds| && 0 <= j < |ds| ==> ds[i].ackEvent != ds[j].issueEvent)
  }

  // Request j, no read and issued when the latency has passed, is acknowledged on the
  // spot, at the very time for which the ACK of i is scheduled (when it is issued, if it
  // is a read, but not before the latency has passed), in an event scheduled before that.
  predicate Overtakes(i: Delivery, j: Delivery, latency: nat) {
    && !j.read && j.accept + latency <= j.issue && j.issueEvent < i.ackEvent
    && if i.issue < i.accept + latency then j.issue == i.accept + latency else i.read && j.issue == i.issue
  }

  // ACK times never decrease with the RSN, and each is the time of issue or, if that is
  // later, the time of acceptance and the latency.
  lemma AckTimesOrdered(ds: seq<Delivery>, i: nat, j: nat, latency: nat)
    requires Formed(ds) && i < j < |ds|
    ensures AckTime(ds[i], latency) <= AckTime(ds[j], latency)
    ensures var t := AckMoment(ds[i], latency).time;
            && t == AckTime(ds[i], latency) && ds[i].issue <= t && ds[i].accept + latency <= t
            && (t == ds[i].issue || t == ds[i].accept + latency)
  {
  }

  // The ACK of RSN i comes before that of a later RSN j exactly if j does not
  // overtake.
  lemma AckOrderExact(ds: seq<Delivery>, i: nat, j: nat, latency: nat)
    requires Formed(ds) && i < j < |ds|
    ensures Earlier(AckMoment(ds[i], latency), AckMoment(ds[j], latency)) <==> !Overtakes(ds[i], ds[j], latency)
  {
    AckTimesOrdered(ds, i, j, latency);
  }

  // A request that overtakes was issued later than it was accepted, by the latency at
  // least; and unless the one it overtakes is a read that had waited that long too,
  // both were accepted at the same time.
  lemma OvertakersWaited(ds: seq<Delivery>, i: nat, j: nat, latency: nat)
    requires Formed(ds) && i < j < |ds| && Overtakes(ds[i], ds[j], latency)
    ensures !ds[j].read && ds[j].accept + latency <= ds[j].issue
    ensures ds[i].issue < ds[i].accept + latency ==> ds[i].accept == ds[j].accept
    ensures ds[i].issue >= ds[i].accept + latency ==> ds[i].read && ds[i].issue == ds[j].issue
  {
  }

  ghost predicate InOrder(ds: seq<Delivery>, latency: nat) {
    forall i, j :: 0 <= i < j < |ds| ==> Earlier(AckMoment(ds[i], latency), AckMoment(ds[j], latency))
  }

  // ACKs come in RSN order exactly if no request overtakes another.
  lemma AcksInOrder(ds: seq<Delivery>, latency: nat)
    requires Formed(ds)
    ensures InOrder(ds, latency) <==> forall i, j :: 0 <= i < j < |ds| ==> !Overtakes(ds[i], ds[j], latency)
  {
    forall i, j | 0 <= i < j < |ds|
      ensures Earlier(AckMoment(ds[i], latency), AckMoment(ds[j], latency)) <==> !Overtakes(ds[i], ds[j], latency)
    {
      AckOrderExact(ds, i, j, latency);
    }
  }
}
