// What a port sends: which frame each output event takes, that nothing is lost on the
// way, and how soon what waits is out.
module PortProgress {
  import opened Common
  import opened PortEvents

  // ---- one output -------------------------------------------------------------------

  // Packets of this priority wait, and its pause is over.
  predicate Waits(port: Port, q: nat, now: nat) {
    q < |port.queues| && q < |port.unpause| && port.queues[q] > 0 && port.unpause[q] <= now
  }

  predicate First(port: Port, q: nat, now: nat) {
    Waits(port, q, now) && forall j: nat :: j < q ==> !Waits(port, j, now)
  }

  // The frame an output takes: the PFC frame if there is one, else a packet of the first
  // priority that waits.
  predicate Due(port: Port, now: nat, frame: Frame) {
    match frame
    case Control => port.pfc > 0
    case Data(q) => port.pfc == 0 && First(port, q, now)
  }

  // What is left of the port without it. Dequeueing a packet may generate a PFC frame on
  // the same port.
  function Rid(port: Port, frame: Frame, time: nat, xonHere: bool): Port
    requires if frame.Control? then port.pfc > 0 else frame.q < |port.queues| && port.queues[frame.q] > 0
  {
    var port1 := port.(sent := port.sent + [frame], output := Some(time));
    match frame
    case Control => port1.(pfc := port.pfc - 1)
    case Data(q) => port1.(queues := port.queues[q := port.queues[q] - 1], pfc := if xonHere then 1 else 0)
  }

  // What an output makes of an active port whose output event was taken: rid of the frame
  // that is due, or idle if none is.
  ghost predicate Served(port: Port, port': Port, now: nat, sendTime: nat, xonHere: bool) {
    && (forall frame: Frame :: Due(port, now, frame) ==> port' == Rid(port, frame, now + sendTime, xonHere))
    && ((forall frame: Frame :: !Due(port, now, frame)) ==> port' == port.(active := false))
  }

  // A frame generated on a port is one with a frame that waits there, and wakes it up.
  predicate Alerted(port: Port, port': Port, now: nat) {
    port' == port.(pfc := 1, active := true, output := if port.active then port.output else Some(now + 10))
  }

  lemma WinnerIsFirst(port: Port, now: nat)
    requires Shaped(port)
    ensures var w := Winner(port, now, 0);
            && (w.Some? ==> First(port, w.value, now))
            && (w.None? ==> forall q: nat :: !Waits(port, q, now))
  {
    var w := Winner(port, now, 0);
    forall j: nat | j < if w.Some? then w.value else |port.queues|
      ensures !Waits(port, j, now)
    {
      assert !CanTransmit(port, j, now);
    }
  }

  // At most one frame is due.
  lemma DueIsOne(port: Port, now: nat, f: Frame, g: Frame)
    requires Due(port, now, f) && Due(port, now, g)
    ensures f == g
  {
  }

  // The frame the source takes is the one that is due.
  lemma DueExact(port: Port, now: nat)
    requires Shaped(port)
    ensures var w := Winner(port, now, 0);
            forall frame: Frame :: Due(port, now, frame) <==>
              if port.pfc > 0 then frame == Control else w.Some? && frame == Data(w.value)
  {
    WinnerIsFirst(port, now);
    hide Winner;
    var w := Winner(port, now, 0);
    forall frame: Frame
      ensures Due(port, now, frame) <==> if port.pfc > 0 then frame == Control else w.Some? && frame == Data(w.value)
    {
      if w.Some? && port.pfc == 0 && Due(port, now, frame) {
        DueIsOne(port, now, frame, Data(w.value));
      }
    }
  }

  lemma OutputServes(r: Router, p: nat, sendTime: nat, xon: Option<nat>)
    requires p < |r.ports| && Running(r.ports[p], r.now) && (xon.Some? ==> xon.value < |r.ports|)
    requires forall j :: 0 <= j < |r.ports| && j != p ==> PortOk(r.ports[j], r.now)
    ensures var s := ScheduleOutput(r, p, sendTime, xon);
            && s.Some? && s.value.now == r.now && |s.value.ports| == |r.ports|
            && Served(r.ports[p], s.value.ports[p], r.now, sendTime, xon == Some(p))
            && forall j :: 0 <= j < |r.ports| && j != p ==>
                 if xon == Some(j) && exists q: nat :: Due(r.ports[p], r.now, Data(q))
                 then Alerted(r.ports[j], s.value.ports[j], r.now)
                 else s.value.ports[j] == r.ports[j]
  {
    var port := r.ports[p];
    DueExact(port, r.now);
    hide Winner, PausesOk, Due;
    var w := Winner(port, r.now, 0);
    if port.pfc > 0 {
      assert Due(port, r.now, Control);
    } else if w.Some? {
      assert Due(port, r.now, Data(w.value));
    }
  }

  // ---- every step ---------------------------------------------------------------------

  // The port whose output runs in a step, as it is when the output begins, if one runs.
  function Runs(r: Router, step: Step): Option<(nat, Port)>
    requires Formed(r) && Enabled(r, step)
  {
    match step
    case Output(p, _, _) => Some((p, r.ports[p].(output := None)))
    case Refresh(p, q, _, _) =>
      if r.ports[p].active then None
      else Some((p, r.ports[p].(active := true, refresh := r.ports[p].refresh[q := None])))
    case _ => None
  }

  // The port an output of data generates a PFC frame on.
  ghost predicate Alerts(r: Router, step: Step, p: nat)
    requires Formed(r) && Enabled(r, step)
  {
    && (step.Output? || step.Refresh?) && step.xon == Some(p)
    && Runs(r, step).Some? && exists q: nat :: Due(Runs(r, step).value.1, r.now, Data(q))
  }

  // Port p after a step.
  ghost predicate Becomes(r: Router, step: Step, p: nat, port': Port)
    requires Formed(r) && Enabled(r, step) && p < |r.ports|
  {
    var port := r.ports[p];
    var runs := Runs(r, step);
    if runs.Some? && runs.value.0 == p then Served(runs.value.1, port', r.now, step.sendTime, step.xon == Some(p))
    else if step == Pfc(p) || Alerts(r, step, p) then Alerted(port, port', r.now)
    else
      match step
      case Enqueue(j, q) =>
        if j != p then port' == port
        else port' == port.(queues := port.queues[q := port.queues[q] + 1], active := true,
                            output := if port.active then port.output else Some(r.now + 10))
      case Pause(j, q, until) =>
        if j != p then port' == port
        else port' == port.(unpause := port.unpause[q := until],
                            refresh := port.refresh[q := if until > r.now then Some(until) else None])
      case Refresh(j, q, _, _) => port' == if j == p then port.(refresh := port.refresh[q := None]) else port
      case _ => port' == port
  }

  lemma RunsOk(r: Router, step: Step)
    requires Safe(r) && Formed(r) && Enabled(r, step) && Runs(r, step).Some?
    ensures var (p, port) := Runs(r, step).value; p < |r.ports| && Running(port, r.now)
  {
    var (p, port) := Runs(r, step).value;
    assert PortOk(r.ports[p], r.now);
  }

  lemma RunExact(r: Router, step: Step, p: nat)
    requires Safe(r) && Formed(r) && Enabled(r, step) && Runs(r, step).Some? && p < |r.ports|
    ensures Next(r, step).Some?
    ensures var r' := Next(r, step).value; |r'.ports| == |r.ports| && Becomes(r, step, p, r'.ports[p])
  {
    RunsOk(r, step);
    HandlerRuns(r, step);
    var (j, port) := Runs(r, step).value;
    var r1 := r.(ports := r.ports[j := port]);
    assert forall k :: 0 <= k < |r.ports| && k != j ==> r1.ports[k] == r.ports[k];
    hide ScheduleOutput, Next, Running, Due, Served, Alerted;
    OutputServes(r1, j, step.sendTime, step.xon);
    assert r1.ports[j] == port && r1.now == r.now;
    hide Safe;
  }

  lemma QuietExact(r: Router, step: Step, p: nat)
    requires Formed(r) && Enabled(r, step) && Runs(r, step).None? && p < |r.ports| && Next(r, step).Some?
    requires r.ports[p].pfc <= 1
    ensures var r' := Next(r, step).value; |r'.ports| == |r.ports| && Becomes(r, step, p, r'.ports[p])
  {
    hide ScheduleOutput, Due;
    match step
    case Tick(to) =>
    case Enqueue(j, q) =>
    case Pfc(j) =>
    case Pause(j, q, until) =>
    case Refresh(j, q, _, _) =>
  }

  // In every step every port becomes just that, and no CHECK fails.
  lemma StepExact(r: Router, step: Step, p: nat)
    requires Safe(r) && Formed(r) && Enabled(r, step) && p < |r.ports|
    ensures Next(r, step).Some?
    ensures var r' := Next(r, step).value; |r'.ports| == |r.ports| && Becomes(r, step, p, r'.ports[p])
  {
    Keeps(r, step);
    assert PortOk(r.ports[p], r.now);
    hide Next, Safe, Formed, Becomes;
    if Runs(r, step).Some? {
      RunExact(r, step, p);
    } else {
      QuietExact(r, step, p);
    }
  }

  lemma HandlerRuns(r: Router, step: Step)
    requires Formed(r) && Enabled(r, step) && Runs(r, step).Some?
    ensures var (p, port) := Runs(r, step).value;
            && p < |r.ports| && Shaped(port) && (step.Output? || step.Refresh?)
            && ScheduleOutput(r.(ports := r.ports[p := port]), p, step.sendTime, step.xon) == Next(r, step)
  {
    hide ScheduleOutput;
    var (p, port) := Runs(r, step).value;
    if step.Refresh? {
      var port1 := r.ports[p].(refresh := r.ports[p].refresh[step.q := None]);
      var r1 := r.(ports := r.ports[p := port1]);
      assert r1.ports[p := port1.(active := true)] == r.ports[p := port];
    }
  }

  // ---- nothing is lost ------------------------------------------------------------------

  // A PFC frame is generated on the port where none waits.
  ghost predicate Makes(r: Router, step: Step, p: nat)
    requires Formed(r) && Enabled(r, step) && p < |r.ports|
  {
    (step == Pfc(p) || Alerts(r, step, p)) && r.ports[p].pfc == 0
  }

  // What the frames sent and those waiting come to, after one frame more was sent.
  lemma RidBooks(port: Port, now: nat, frame: Frame, time: nat, xonHere: bool, q: nat)
    requires Due(port, now, frame)
    ensures var port' := Rid(port, frame, time, xonHere);
            && |port'.queues| == |port.queues|
            && multiset(port'.sent)[Control] + port'.pfc
               == multiset(port.sent)[Control] + port.pfc + (if frame.Data? && xonHere then 1 else 0)
            && (q < |port.queues| ==>
                  multiset(port'.sent)[Data(q)] + port'.queues[q] == multiset(port.sent)[Data(q)] + port.queues[q])
  {
    assert multiset(port.sent + [frame]) == multiset(port.sent) + multiset{frame};
  }

  // Frames and packets, sent and waiting, after a step.
  ghost predicate Booked(port: Port, port': Port, made: bool, enqueued: bool, q: nat) {
    && |port'.queues| == |port.queues|
    && multiset(port'.sent)[Control] + port'.pfc == multiset(port.sent)[Control] + port.pfc + (if made then 1 else 0)
    && (q < |port.queues| ==>
          multiset(port'.sent)[Data(q)] + port'.queues[q]
          == multiset(port.sent)[Data(q)] + port.queues[q] + (if enqueued then 1 else 0))
  }

  lemma ServedBooks(port: Port, port': Port, now: nat, sendTime: nat, xonHere: bool, q: nat)
    requires Served(port, port', now, sendTime, xonHere)
    ensures Booked(port, port', xonHere && exists j: nat :: Due(port, now, Data(j)), false, q)
  {
    hide Rid, Due;
    if frame: Frame :| Due(port, now, frame) {
      RidBooks(port, now, frame, now + sendTime, xonHere, q);
      if frame.Control? {
        assert forall j: nat :: !Due(port, now, Data(j)) by { ControlFirst(port, now); }
      } else {
        assert Due(port, now, Data(frame.q));
      }
    }
  }

  lemma ControlFirst(port: Port, now: nat)
    requires Due(port, now, Control)
    ensures forall j: nat :: !Due(port, now, Data(j))
  {
  }

  lemma QuietBooks(r: Router, step: Step, p: nat, port': Port, q: nat)
    requires Formed(r) && Enabled(r, step) && p < |r.ports| && r.ports[p].pfc <= 1 && Becomes(r, step, p, port')
    requires Runs(r, step).Some? ==> Runs(r, step).value.0 != p
    ensures Booked(r.ports[p], port', Makes(r, step, p), step == Enqueue(p, q), q)
  {
    hide Due, Served;
  }

  lemma RunBooks(r: Router, step: Step, p: nat, port': Port, q: nat)
    requires Formed(r) && Enabled(r, step) && p < |r.ports| && Becomes(r, step, p, port')
    requires Runs(r, step).Some? && Runs(r, step).value.0 == p
    ensures Booked(r.ports[p], port', Makes(r, step, p), step == Enqueue(p, q), q)
  {
    hide Due;
    var port := Runs(r, step).value.1;
    ServedBooks(port, port', r.now, step.sendTime, step.xon == Some(p), q);
    hide Served;
    DueNeedsNone(port, r.now);
    assert port.pfc == r.ports[p].pfc && port.sent == r.ports[p].sent && port.queues == r.ports[p].queues;
  }

  lemma StepBooks(r: Router, step: Step, p: nat, q: nat)
    requires Safe(r) && Formed(r) && Enabled(r, step) && p < |r.ports|
    ensures Next(r, step).Some? && |Next(r, step).value.ports| == |r.ports|
    ensures Booked(r.ports[p], Next(r, step).value.ports[p], Makes(r, step, p), step == Enqueue(p, q), q)
  {
    StepExact(r, step, p);
    assert PortOk(r.ports[p], r.now);
    hide Next, Safe, Formed, Enabled, Becomes, Booked, Makes;
    if Runs(r, step).Some? && Runs(r, step).value.0 == p {
      RunBooks(r, step, p, Next(r, step).value.ports[p], q);
    } else {
      QuietBooks(r, step, p, Next(r, step).value.ports[p], q);
    }
  }

  lemma DueNeedsNone(port: Port, now: nat)
    ensures (exists j: nat :: Due(port, now, Data(j))) ==> port.pfc == 0
  {
  }

  // PFC frames generated on a port, and packets enqueued there, in a run.
  ghost function Generated(boot: Router, h: History, p: nat): nat {
    match h
    case Start => 0
    case After(before, step) =>
      var r := Reach(boot, before);
      Generated(boot, before, p)
      + if r.Some? && Formed(r.value) && Enabled(r.value, step) && p < |r.value.ports| && Makes(r.value, step, p)
        then 1 else 0
  }

  function Enqueued(h: History, p: nat, q: nat): nat {
    match h
    case Start => 0
    case After(before, step) => Enqueued(before, p, q) + if step == Enqueue(p, q) then 1 else 0
  }

  // In every run, the PFC frames generated on a port are those sent and the one waiting,
  // and the packets enqueued by priority are those sent and those waiting.
  lemma {:induction false} NothingLost(boot: Router, h: History, p: nat, q: nat)
    requires IsBoot(boot) && Possible(boot, h) && p < |boot.ports|
    ensures Reach(boot, h).Some? && |Reach(boot, h).value.ports| == |boot.ports|
    ensures var port := Reach(boot, h).value.ports[p];
            && |port.queues| == |boot.ports[p].queues|
            && Generated(boot, h, p) == multiset(port.sent)[Control] + port.pfc
            && (q < |port.queues| ==> Enqueued(h, p, q) == multiset(port.sent)[Data(q)] + port.queues[q])
  {
    match h
    case Start =>
    case After(before, step) =>
      PortsNeverStuck(boot, before);
      NothingLost(boot, before, p, q);
      hide Next, Enabled, Safe, Makes;
      StepBooks(Reach(boot, before).value, step, p, q);
  }

  // ---- how soon what waits is out ----------------------------------------------------------

  // Output events of a port, and packets waiting there.
  function Outputs(h: History, p: nat): nat {
    match h
    case Start => 0
    case After(before, step) => Outputs(before, p) + if step.Output? && step.p == p then 1 else 0
  }

  function Total(queues: seq<nat>): nat { if queues == [] then 0 else Total(queues[..|queues| - 1]) + queues[|queues| - 1] }

  lemma {:induction false} TotalUpdate(queues: seq<nat>, q: nat, v: nat)
    requires q < |queues|
    ensures Total(queues[q := v]) + queues[q] == Total(queues) + v
    decreases |queues|
  {
    var n := |queues| - 1;
    if q == n {
      assert queues[q := v][..n] == queues[..n];
    } else {
      assert queues[q := v][..n] == queues[..n][q := v];
      TotalUpdate(queues[..n], q, v);
    }
  }

  lemma {:induction false} TotalCovers(queues: seq<nat>, q: nat)
    requires q < |queues|
    ensures queues[q] <= Total(queues)
    decreases |queues|
  {
    if q < |queues| - 1 {
      TotalCovers(queues[..|queues| - 1], q);
    }
  }

  // All that waits at a port or has been sent.
  function Stock(port: Port): nat { Total(port.queues) + port.pfc + |port.sent| }

  // As long as a packet waits that was not paused, one is due.
  lemma {:induction false} SomeFirst(port: Port, u: nat, now: nat) returns (q: nat)
    requires Waits(port, u, now)
    ensures First(port, q, now)
    decreases u
  {
    q := u;
    if j: nat :| j < u && Waits(port, j, now) {
      q := SomeFirst(port, j, now);
    }
  }

  // A packet of priority u waits, which was not paused when the run began.
  predicate Pending(port: Port, u: nat, since: nat) {
    u < |port.queues| && u < |port.unpause| && port.queues[u] > 0 && port.unpause[u] <= since
  }

  // A step away from the port takes nothing from it but by an output, one frame each.
  lemma AwayStep(r: Router, step: Step, p: nat)
    requires Safe(r) && Formed(r) && Enabled(r, step) && p < |r.ports| && Away(step, p)
    ensures Next(r, step).Some? && |Next(r, step).value.ports| == |r.ports| && r.now <= Next(r, step).value.now
    ensures var port, port' := r.ports[p], Next(r, step).value.ports[p];
            && port'.unpause == port.unpause && Stock(port') == Stock(port) && |port'.queues| == |port.queues|
            && (forall q :: 0 <= q < |port.queues| ==> port'.queues[q] <= port.queues[q])
            && (forall u: nat :: Pending(port, u, r.now) && port.active ==>
                  port'.active && |port'.sent| == |port.sent| + if step.Output? && step.p == p then 1 else 0)
  {
    StepExact(r, step, p);
    assert PortOk(r.ports[p], r.now);
    var r' := Next(r, step).value;
    assert r.now <= r'.now by { NextNow(r, step); }
    var port, port' := r.ports[p], r'.ports[p];
    hide Next, Due, Safe, PausesOk, Total;
    var runs := Runs(r, step);
    if runs.Some? && runs.value.0 == p {
      ServedStock(runs.value.1, port', r.now, step.sendTime);
      hide Served;
      forall u: nat | Pending(port, u, r.now) && port.active
        ensures port'.active && |port'.sent| == |port.sent| + 1
      {
        assert Waits(runs.value.1, u, r.now);
      }
    }
  }

  lemma NextNow(r: Router, step: Step)
    requires Formed(r) && Enabled(r, step) && Next(r, step).Some?
    ensures r.now <= Next(r, step).value.now
  {
  }

  lemma ServedStock(port: Port, port': Port, now: nat, sendTime: nat)
    requires Served(port, port', now, sendTime, false) && port.active
    ensures port'.unpause == port.unpause && Stock(port') == Stock(port) && |port'.queues| == |port.queues|
    ensures forall q :: 0 <= q < |port.queues| ==> port'.queues[q] <= port.queues[q]
    ensures forall u: nat :: Waits(port, u, now) ==> port'.active && |port'.sent| == |port.sent| + 1
  {
    hide Total;
    if frame: Frame :| Due(port, now, frame) {
      if frame.Data? {
        TotalUpdate(port.queues, frame.q, port.queues[frame.q] - 1);
      }
    } else if u: nat :| Waits(port, u, now) {
      var frame := WaitsDue(port, u, now);
    }
  }

  lemma WaitsDue(port: Port, u: nat, now: nat) returns (frame: Frame)
    requires Waits(port, u, now)
    ensures Due(port, now, frame)
  {
    if port.pfc > 0 {
      frame := Control;
    } else {
      var q := SomeFirst(port, u, now);
      frame := Data(q);
    }
  }

  lemma {:induction false} AwayRun(r: Router, h: History, p: nat)
    requires Safe(r) && Formed(r) && p < |r.ports| && r.ports[p].active && AllAway(h, p) && Reach(r, h).Some?
    ensures var s := Reach(r, h).value;
            && Safe(s) && Formed(s) && |s.ports| == |r.ports| && r.now <= s.now
            && var port, port' := r.ports[p], s.ports[p];
            && port'.unpause == port.unpause && Stock(port') == Stock(port) && |port'.queues| == |port.queues|
            && (forall u: nat :: Pending(port', u, r.now) ==>
                  port'.active && |port'.sent| == |port.sent| + Outputs(h, p))
  {
    match h
    case Start =>
    case After(before, step) =>
      AwayRun(r, before, p);
      var s := Reach(r, before).value;
      Keeps(s, step);
      hide Next, Enabled, Safe, Away, Stock;
      AwayStep(s, step, p);
      var s' := Next(s, step).value;
      assert Formed(s') by { SafeFormed(s'); }
      forall u: nat | Pending(s'.ports[p], u, r.now)
        ensures Pending(s.ports[p], u, r.now) && Pending(s.ports[p], u, s.now)
      {
      }
  }

  lemma SafeFormed(r: Router)
    requires Safe(r)
    ensures Formed(r)
  {
    forall p | 0 <= p < |r.ports|
      ensures Shaped(r.ports[p])
    {
      assert PortOk(r.ports[p], r.now);
    }
  }

  // From any point of any run, as long as nothing new comes for an active port: when it has
  // had as many output events as packets and PFC frames waited, every packet that was not
  // paused is out. While one waits, each output event sends a frame.
  lemma SoonOut(r: Router, h: History, p: nat, u: nat)
    requires Safe(r) && Formed(r) && p < |r.ports| && r.ports[p].active && AllAway(h, p) && Reach(r, h).Some?
    requires u < |r.ports[p].queues| && r.ports[p].unpause[u] <= r.now
    ensures var s := Reach(r, h).value;
            && p < |s.ports| && u < |s.ports[p].queues|
            && (s.ports[p].queues[u] > 0 ==>
                  && |s.ports[p].sent| == |r.ports[p].sent| + Outputs(h, p)
                  && Outputs(h, p) < Total(r.ports[p].queues) + r.ports[p].pfc)
  {
    hide Reach;
    AwayRun(r, h, p);
    var port := Reach(r, h).value.ports[p];
    if port.queues[u] > 0 {
      assert Pending(port, u, r.now);
      TotalCovers(port.queues, u);
    }
  }
}
