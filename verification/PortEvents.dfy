// Output scheduling of a router's ports under priority flow control (PFC): when a port
// goes idle, what wakes it up again, and who may schedule its output event.
module PortEvents {
  import opened Common

  const ENQUEUE_DELAY: nat := 10

  // What goes out: a PFC frame, or a packet of some priority.
  datatype Frame = Control | Data(q: nat)

  // A port: Active or idle, its pending output event, PFC frames waiting, packets
  // waiting by priority, per priority the end of the current pause and the event
  // that is to resume it, and all frames sent.
  datatype Port = Port(active: bool, output: Option<nat>, pfc: nat, queues: seq<nat>, unpause: seq<nat>,
                       refresh: seq<Option<nat>>, sent: seq<Frame>)

  datatype Router = Router(now: nat, ports: seq<Port>)

  predicate Shaped(port: Port) { |port.queues| == |port.unpause| == |port.refresh| }

  // ---- one port --------------------------------------------------------------------------

  predicate CanTransmit(port: Port, q: nat, now: nat)
    requires Shaped(port) && q < |port.queues|
  {
    port.queues[q] > 0 && port.unpause[q] <= now
  }

  // The fixed-priority arbiter: the first queue from `from` on that can transmit.
  function Winner(port: Port, now: nat, from: nat): (r: Option<nat>)
    requires Shaped(port)
    ensures r.Some? ==> from <= r.value < |port.queues| && CanTransmit(port, r.value, now)
    ensures forall q :: from <= q < (if r.Some? then r.value else |port.queues|) ==> !CanTransmit(port, q, now)
    decreases |port.queues| - from
  {
    if from >= |port.queues| then None
    else if CanTransmit(port, from, now) then Some(from)
    else Winner(port, now, from + 1)
  }

  // NetworkRouter::ScheduleOutput; None when its CHECK fails.
  function ScheduleAt(port: Port, time: nat): Option<Port> {
    if port.output.Some? then None else Some(port.(output := Some(time)))
  }

  // NetworkPort::SendPacket: a frame goes out, and the next output follows when it is gone.
  function SendPacket(port: Port, frame: Frame, time: nat): Option<Port> {
    ScheduleAt(port.(sent := port.sent + [frame]), time)
  }

  // An idle port becomes active and schedules its output.
  function Rouse(port: Port, now: nat): Option<Port> {
    if port.active then Some(port) else ScheduleAt(port.(active := true), now + ENQUEUE_DELAY)
  }

  function EnqueuePacket(port: Port, q: nat, now: nat): Option<Port>
    requires q < |port.queues|
  {
    Rouse(port.(queues := port.queues[q := port.queues[q] + 1]), now)
  }

  function GeneratePfc(port: Port, now: nat): Option<Port> {
    if port.pfc > 1 then None else Rouse(port.(pfc := 1), now)
  }

  // SetPfcPaused: a pause until now is an X-on frame.
  function SetPaused(port: Port, q: nat, until: nat, now: nat): Port
    requires Shaped(port) && q < |port.queues|
  {
    port.(unpause := port.unpause[q := until], refresh := port.refresh[q := if until != now then Some(until) else None])
  }

  // ---- the router ---------------------------------------------------------------------------

  function Put(r: Router, p: nat, port: Option<Port>): Option<Router>
    requires p < |r.ports|
  {
    if port.None? then None else Some(r.(ports := r.ports[p := port.value]))
  }

  // NetworkPort::ScheduleOutput. Dequeueing a data packet may end PFC for the port it
  // came from (`xon`), which generates a frame there before this packet is sent.
  function ScheduleOutput(r: Router, p: nat, sendTime: nat, xon: Option<nat>): Option<Router>
    requires p < |r.ports| && Shaped(r.ports[p]) && (xon.Some? ==> xon.value < |r.ports|)
  {
    var port := r.ports[p];
    if !port.active then None
    else if port.pfc > 0 then Put(r, p, SendPacket(port.(pfc := port.pfc - 1), Control, r.now + sendTime))
    else
      var w := Winner(port, r.now, 0);
      if w.None? then Put(r, p, Some(port.(active := false)))
      else
        var r1 := r.(ports := r.ports[p := port.(queues := port.queues[w.value := port.queues[w.value] - 1])]);
        var r2 := if xon.Some? then Put(r1, xon.value, GeneratePfc(r1.ports[xon.value], r.now)) else Some(r1);
        if r2.None? then None else Put(r2.value, p, SendPacket(r2.value.ports[p], Data(w.value), r.now + sendTime))
  }

  function ResumeOutput(r: Router, p: nat, sendTime: nat, xon: Option<nat>): Option<Router>
    requires p < |r.ports| && Shaped(r.ports[p]) && (xon.Some? ==> xon.value < |r.ports|)
  {
    if r.ports[p].active then Some(r)
    else ScheduleOutput(r.(ports := r.ports[p := r.ports[p].(active := true)]), p, sendTime, xon)
  }

  class Ports {
    var now: nat
    var ports: seq<Port>

    function View(): Router
      reads this
    {
      Router(now, ports)
    }

    // The arbiter's loop.
    method Arbitrate(p: nat) returns (winner: int)
      requires p < |ports| && Shaped(ports[p])
      ensures winner == (var w := Winner(ports[p], now, 0); if w.Some? then w.value else -1)
    {
      var i := 0;
      while i < |ports[p].queues|
        invariant 0 <= i <= |ports[p].queues|
        invariant Winner(ports[p], now, 0) == Winner(ports[p], now, i)
      {
        if CanTransmit(ports[p], i, now) {
          return i;
        }
        i := i + 1;
      }
      return -1;
    }

    // The methods return false where the source stops the simulation.
    method Schedule(p: nat, time: nat) returns (ok: bool)
      requires p < |ports|
      modifies this`ports
      ensures ok == ScheduleAt(old(ports[p]), time).Some?
      ensures ok ==> ports == old(ports)[p := ScheduleAt(old(ports[p]), time).value]
    {
      if ports[p].output.Some? { return false; }
      ports := ports[p := ports[p].(output := Some(time))];
      return true;
    }

    method Send(p: nat, frame: Frame, time: nat) returns (ok: bool)
      requires p < |ports|
      modifies this`ports
      ensures ok == SendPacket(old(ports[p]), frame, time).Some?
      ensures ok ==> ports == old(ports)[p := SendPacket(old(ports[p]), frame, time).value]
    {
      ports := ports[p := ports[p].(sent := ports[p].sent + [frame])];
      ok := Schedule(p, time);
    }

    method Enqueue(p: nat, q: nat) returns (ok: bool)
      requires p < |ports| && q < |ports[p].queues|
      modifies this`ports
      ensures ok == EnqueuePacket(old(ports[p]), q, now).Some?
      ensures ok ==> ports == old(ports)[p := EnqueuePacket(old(ports[p]), q, now).value]
    {
      var port := ports[p].(queues := ports[p].queues[q := ports[p].queues[q] + 1]);
      if port.active {
        ports := ports[p := port];
        return true;
      }
      ports := ports[p := port.(active := true)];
      ok := Schedule(p, now + ENQUEUE_DELAY);
    }

    method MakePfc(p: nat) returns (ok: bool)
      requires p < |ports|
      modifies this`ports
      ensures ok == GeneratePfc(old(ports[p]), now).Some?
      ensures ok ==> ports == old(ports)[p := GeneratePfc(old(ports[p]), now).value]
    {
      var port := ports[p];
      if port.pfc == 0 {
        port := port.(pfc := 1);
      } else if port.pfc != 1 {
        return false;
      }
      if port.active {
        ports := ports[p := port];
        return true;
      }
      ports := ports[p := port.(active := true)];
      ok := Schedule(p, now + ENQUEUE_DELAY);
    }

    method Output(p: nat, sendTime: nat, xon: Option<nat>) returns (ok: bool)
      requires p < |ports| && Shaped(ports[p]) && (xon.Some? ==> xon.value < |ports|)
      modifies this`ports
      ensures ok == ScheduleOutput(old(View()), p, sendTime, xon).Some?
      ensures ok ==> View() == ScheduleOutput(old(View()), p, sendTime, xon).value
    {
      if !ports[p].active { return false; }
      if ports[p].pfc > 0 {
        ports := ports[p := ports[p].(pfc := ports[p].pfc - 1)];
        ok := Send(p, Control, now + sendTime);
        return;
      }
      var winner := Arbitrate(p);
      if winner == -1 {
        ports := ports[p := ports[p].(active := false)];
        return true;
      }
      ports := ports[p := ports[p].(queues := ports[p].queues[winner := ports[p].queues[winner] - 1])];
      if xon.Some? {
        ok := MakePfc(xon.value);
        if !ok { return; }
      }
      ok := Send(p, Data(winner), now + sendTime);
    }

    method Resume(p: nat, sendTime: nat, xon: Option<nat>) returns (ok: bool)
      requires p < |ports| && Shaped(ports[p]) && (xon.Some? ==> xon.value < |ports|)
      modifies this`ports
      ensures ok == ResumeOutput(old(View()), p, sendTime, xon).Some?
      ensures ok ==> View() == ResumeOutput(old(View()), p, sendTime, xon).value
    {
      if ports[p].active { return true; }
      ports := ports[p := ports[p].(active := true)];
      ok := Output(p, sendTime, xon);
    }

    method SetPfcPaused(p: nat, q: nat, until: nat)
      requires p < |ports| && Shaped(ports[p]) && q < |ports[p].queues|
      modifies this`ports
      ensures ports == old(ports)[p := SetPaused(old(ports[p]), q, until, now)]
    {
      var port := ports[p].(refresh := ports[p].refresh[q := None], unpause := ports[p].unpause[q := until]);
      if until != now {
        port := port.(refresh := port.refresh[q := Some(until)]);
        assert port.refresh == ports[p].refresh[q := Some(until)];
      }
      ports := ports[p := port];
    }
  }

  // ---- everything that can happen --------------------------------------------------------------

  datatype Step =
    | Tick(to: nat)
    | Enqueue(p: nat, q: nat)
    | Pfc(p: nat)
    | Output(p: nat, sendTime: nat, xon: Option<nat>)
    | Pause(p: nat, q: nat, until: nat)
    | Refresh(p: nat, q: nat, sendTime: nat, xon: Option<nat>)

  // No event of the port is due before `to`.
  predicate QuietUntil(port: Port, to: nat) {
    && (port.output.Some? ==> to <= port.output.value)
    && (forall q :: 0 <= q < |port.refresh| && port.refresh[q].Some? ==> to <= port.refresh[q].value)
  }

  predicate Formed(r: Router) { forall p :: 0 <= p < |r.ports| ==> Shaped(r.ports[p]) }

  // Events fire at their times; everything else happens at any time.
  predicate Enabled(r: Router, step: Step)
    requires Formed(r)
  {
    match step
    case Tick(to) => r.now <= to && forall p :: 0 <= p < |r.ports| ==> QuietUntil(r.ports[p], to)
    case Enqueue(p, q) => p < |r.ports| && q < |r.ports[p].queues|
    case Pfc(p) => p < |r.ports|
    case Output(p, _, xon) => p < |r.ports| && r.ports[p].output == Some(r.now) && (xon.Some? ==> xon.value < |r.ports|)
    case Pause(p, q, until) => p < |r.ports| && q < |r.ports[p].queues| && r.now <= until
    case Refresh(p, q, _, xon) =>
      && p < |r.ports| && q < |r.ports[p].queues| && r.ports[p].refresh[q] == Some(r.now)
      && (xon.Some? ==> xon.value < |r.ports|)
  }

  function Next(r: Router, step: Step): Option<Router>
    requires Formed(r) && Enabled(r, step)
  {
    match step
    case Tick(to) => Some(r.(now := to))
    case Enqueue(p, q) => Put(r, p, EnqueuePacket(r.ports[p], q, r.now))
    case Pfc(p) => Put(r, p, GeneratePfc(r.ports[p], r.now))
    case Output(p, sendTime, xon) =>
      ScheduleOutput(r.(ports := r.ports[p := r.ports[p].(output := None)]), p, sendTime, xon)
    case Pause(p, q, until) => Put(r, p, Some(SetPaused(r.ports[p], q, until, r.now)))
    case Refresh(p, q, sendTime, xon) =>
      var port := r.ports[p].(refresh := r.ports[p].refresh[q := None]);
      ResumeOutput(r.(ports := r.ports[p := port]), p, sendTime, xon)
  }

  // ---- the invariant ------------------------------------------------------------------------------

  // Between handlers: active exactly while an output event is pending, at most one PFC
  // frame and none while idle, and a resume event at the end of every pause.
  predicate PortOk(port: Port, now: nat) {
    && Shaped(port)
    && (port.active <==> port.output.Some?) && (port.output.Some? ==> now <= port.output.value)
    && port.pfc <= 1 && (!port.active ==> port.pfc == 0)
    && PausesOk(port, now)
  }

  predicate PausesOk(port: Port, now: nat)
    requires Shaped(port)
  {
    forall q :: 0 <= q < |port.queues| ==>
      && (port.refresh[q].Some? ==> now <= port.refresh[q].value == port.unpause[q])
      && (port.unpause[q] > now ==> port.refresh[q].Some?)
  }

  // An idle port with packets waiting will be woken up for them.
  predicate Awake(port: Port)
    requires Shaped(port)
  {
    !port.active ==> forall q :: 0 <= q < |port.queues| && port.queues[q] > 0 ==> port.refresh[q].Some?
  }

  predicate Safe(r: Router) { forall p :: 0 <= p < |r.ports| ==> PortOk(r.ports[p], r.now) }

  predicate AllAwake(r: Router)
    requires Formed(r)
  {
    forall p :: 0 <= p < |r.ports| ==> Awake(r.ports[p])
  }

  // An X-on frame that finds an idle port with packets of its priority waiting.
  predicate Strands(r: Router, step: Step)
    requires Formed(r) && Enabled(r, step)
  {
    step.Pause? && step.until == r.now && !r.ports[step.p].active && r.ports[step.p].queues[step.q] > 0
  }

  lemma RouseOk(port: Port, now: nat)
    requires Shaped(port) && PausesOk(port, now) && (port.active <==> port.output.Some?) && port.pfc <= 1
    requires port.output.Some? ==> now <= port.output.value
    ensures var r := Rouse(port, now); r.Some? && PortOk(r.value, now) && Awake(r.value)
  {
  }

  // The port whose handler runs: active, with its output event taken.
  predicate Running(port: Port, now: nat) {
    Shaped(port) && port.active && port.output.None? && port.pfc <= 1 && PausesOk(port, now)
  }

  lemma OutputKeeps(r: Router, p: nat, sendTime: nat, xon: Option<nat>)
    requires p < |r.ports| && Running(r.ports[p], r.now) && (xon.Some? ==> xon.value < |r.ports|)
    requires Formed(r) && forall j :: 0 <= j < |r.ports| && j != p ==> PortOk(r.ports[j], r.now)
    ensures var s := ScheduleOutput(r, p, sendTime, xon);
            && s.Some? && Safe(s.value)
            && ((forall j :: 0 <= j < |r.ports| && j != p ==> Awake(r.ports[j])) ==> AllAwake(s.value))
  {
    var port := r.ports[p];
    if port.pfc == 0 {
      var w := Winner(port, r.now, 0);
      if w.None? {
        forall q | 0 <= q < |port.queues| && port.queues[q] > 0
          ensures port.refresh[q].Some?
        {
          assert !CanTransmit(port, q, r.now);
        }
      } else {
        var port1 := port.(queues := port.queues[w.value := port.queues[w.value] - 1]);
        assert PausesOk(port1, r.now);
        if xon.Some? && xon.value != p {
          RouseOk(r.ports[xon.value].(pfc := 1), r.now);
        }
      }
    }
  }

  lemma TickKeeps(r: Router, to: nat)
    requires Safe(r) && Formed(r) && Enabled(r, Tick(to))
    ensures Safe(r.(now := to))
  {
    forall p | 0 <= p < |r.ports|
      ensures PortOk(r.ports[p], to)
    {
      assert QuietUntil(r.ports[p], to) && PortOk(r.ports[p], r.now);
    }
  }

  lemma PauseKeeps(port: Port, q: nat, until: nat, now: nat)
    requires PortOk(port, now) && q < |port.queues| && now <= until
    ensures var port' := SetPaused(port, q, until, now);
            && PortOk(port', now)
            && (Awake(port) ==> (Awake(port') <==> until != now || port.active || port.queues[q] == 0))
  {
    var port' := SetPaused(port, q, until, now);
    if until == now && !port.active && port.queues[q] > 0 {
      assert port'.refresh[q].None?;
    }
  }

  // No CHECK fails and every port stays in order. If every port was awake, so it is
  // afterwards exactly if the step is not an X-on frame that strands packets.
  lemma Keeps(r: Router, step: Step)
    requires Safe(r) && Formed(r) && Enabled(r, step)
    ensures Next(r, step).Some? && Safe(Next(r, step).value)
    ensures AllAwake(r) ==> (AllAwake(Next(r, step).value) <==> !Strands(r, step))
  {
    match step
    case Tick(to) => TickKeeps(r, to);
    case Enqueue(p, q) => RouseOk(r.ports[p].(queues := r.ports[p].queues[q := r.ports[p].queues[q] + 1]), r.now);
    case Pfc(p) => RouseOk(r.ports[p].(pfc := 1), r.now);
    case Output(p, sendTime, xon) =>
      OutputKeeps(r.(ports := r.ports[p := r.ports[p].(output := None)]), p, sendTime, xon);
    case Pause(p, q, until) =>
      PauseKeeps(r.ports[p], q, until, r.now);
      assert Next(r, step).value.ports[p] == SetPaused(r.ports[p], q, until, r.now);
    case Refresh(p, q, sendTime, xon) => RefreshKeeps(r, p, q, sendTime, xon);
  }

  lemma {:induction false} SameWinner(port: Port, port': Port, now: nat, from: nat)
    requires Shaped(port) && Shaped(port') && port'.queues == port.queues && port'.unpause == port.unpause
    ensures Winner(port', now, from) == Winner(port, now, from)
    decreases |port.queues| - from
  {
    if from < |port.queues| {
      SameWinner(port, port', now, from + 1);
    }
  }

  lemma RefreshKeeps(r: Router, p: nat, q: nat, sendTime: nat, xon: Option<nat>)
    requires Safe(r) && Formed(r) && Enabled(r, Refresh(p, q, sendTime, xon))
    ensures var s := Next(r, Refresh(p, q, sendTime, xon));
            s.Some? && Safe(s.value) && (AllAwake(r) ==> AllAwake(s.value))
  {
    hide ScheduleOutput;
    var port := r.ports[p].(refresh := r.ports[p].refresh[q := None]);
    var r1 := r.(ports := r.ports[p := port]);
    assert PausesOk(port, r.now);
    if !port.active {
      OutputKeeps(r1.(ports := r1.ports[p := port.(active := true)]), p, sendTime, xon);
    }
  }

  // At the end of a pause an idle port runs its output at once: if packets of any
  // priority that is not paused wait, one of the first such priority is sent.
  lemma RefreshSends(r: Router, p: nat, q: nat, sendTime: nat, xon: Option<nat>)
    requires Safe(r) && Formed(r) && Enabled(r, Refresh(p, q, sendTime, xon)) && !r.ports[p].active
    ensures var w, s := Winner(r.ports[p], r.now, 0), Next(r, Refresh(p, q, sendTime, xon));
            && (r.ports[p].queues[q] > 0 ==> w.Some?)
            && (s.Some? && w.Some? ==>
                  && s.value.ports[p].active
                  && s.value.ports[p].queues == r.ports[p].queues[w.value := r.ports[p].queues[w.value] - 1])
  {
    var port := r.ports[p].(refresh := r.ports[p].refresh[q := None], active := true);
    assert PortOk(r.ports[p], r.now);
    assert r.ports[p].queues[q] > 0 ==> CanTransmit(r.ports[p], q, r.now);
    SameWinner(r.ports[p], port, r.now, 0);
    hide PortOk, Winner;
  }

  // ---- whole runs ---------------------------------------------------------------------------------

  datatype History = Start | After(before: History, step: Step)

  function Reach(boot: Router, h: History): Option<Router> {
    match h
    case Start => Some(boot)
    case After(before, step) =>
      var r := Reach(boot, before);
      if r.None? || !Formed(r.value) || !Enabled(r.value, step) then None else Next(r.value, step)
  }

  predicate Possible(boot: Router, h: History) {
    match h
    case Start => true
    case After(before, step) =>
      && Possible(boot, before)
      && var r := Reach(boot, before);
      r.Some? && Formed(r.value) ==> Enabled(r.value, step)
  }

  // No X-on frame stranded packets.
  predicate Unstranded(boot: Router, h: History) {
    match h
    case Start => true
    case After(before, step) =>
      && Unstranded(boot, before)
      && var r := Reach(boot, before);
      r.Some? && Formed(r.value) && Enabled(r.value, step) ==> !Strands(r.value, step)
  }

  // All ports idle and empty.
  predicate IsBoot(r: Router) {
    forall p :: 0 <= p < |r.ports| ==>
      var port := r.ports[p];
      && Shaped(port) && !port.active && port.output.None? && port.pfc == 0 && port.sent == []
      && forall q :: 0 <= q < |port.queues| ==>
           port.queues[q] == 0 && port.unpause[q] <= r.now && port.refresh[q].None?
  }

  // In every run no CHECK fails and a port is active exactly while its one output event
  // is pending. As long as no X-on frame strands packets, an idle port with packets has
  // a resume event pending for each priority that has some.
  lemma {:induction false} PortsNeverStuck(boot: Router, h: History)
    requires IsBoot(boot) && Possible(boot, h)
    ensures Reach(boot, h).Some? && Safe(Reach(boot, h).value) && Formed(Reach(boot, h).value)
    ensures Unstranded(boot, h) ==> AllAwake(Reach(boot, h).value)
  {
    match h
    case Start =>
    case After(before, step) =>
      PortsNeverStuck(boot, before);
      Keeps(Reach(boot, before).value, step);
  }

  // ---- a stranded queue ---------------------------------------------------------------------------

  // Nothing comes in for the port from outside.
  predicate Away(step: Step, p: nat) {
    match step
    case Tick(_) => true
    case Enqueue(p', _) => p' != p
    case Pfc(p') => p' != p
    case Pause(p', _, _) => p' != p
    case Output(_, _, xon) => xon != Some(p)
    case Refresh(_, _, _, xon) => xon != Some(p)
  }

  predicate AllAway(h: History, p: nat) {
    match h
    case Start => true
    case After(before, step) => AllAway(before, p) && Away(step, p)
  }

  lemma OutputElsewhere(r: Router, j: nat, sendTime: nat, xon: Option<nat>, p: nat)
    requires j < |r.ports| && Shaped(r.ports[j]) && (xon.Some? ==> xon.value < |r.ports|)
    requires p < |r.ports| && j != p && xon != Some(p)
    ensures var s := ScheduleOutput(r, j, sendTime, xon);
            s.Some? ==> |s.value.ports| == |r.ports| && s.value.ports[p] == r.ports[p]
  {
  }

  lemma AwayLeaves(r: Router, step: Step, p: nat)
    requires Formed(r) && Enabled(r, step) && p < |r.ports| && Away(step, p) && Next(r, step).Some?
    requires r.ports[p].output.None? && forall q :: 0 <= q < |r.ports[p].refresh| ==> r.ports[p].refresh[q].None?
    ensures var s := Next(r, step).value; |s.ports| == |r.ports| && s.ports[p] == r.ports[p]
  {
    hide ScheduleOutput;
    match step
    case Output(j, sendTime, xon) =>
      OutputElsewhere(r.(ports := r.ports[j := r.ports[j].(output := None)]), j, sendTime, xon, p);
    case Refresh(j, q, sendTime, xon) =>
      var port := r.ports[j].(refresh := r.ports[j].refresh[q := None]);
      if !port.active {
        var r1 := r.(ports := r.ports[j := port]);
        OutputElsewhere(r1.(ports := r1.ports[j := port.(active := true)]), j, sendTime, xon, p);
      }
    case _ =>
  }

  // Packets stranded by an X-on frame are never sent: in every run that follows, however
  // long and whatever happens on the other ports, the port does not change until
  // something comes in for it, unless a pause of another of its priorities was pending.
  lemma {:induction false} StrandedStays(r: Router, p: nat, q: nat, h: History)
    requires Safe(r) && Formed(r) && Enabled(r, Pause(p, q, r.now)) && Strands(r, Pause(p, q, r.now))
    requires forall q' :: 0 <= q' < |r.ports[p].refresh| && q' != q ==> r.ports[p].refresh[q'].None?
    requires Next(r, Pause(p, q, r.now)).Some? && AllAway(h, p)
    ensures var s := Reach(Next(r, Pause(p, q, r.now)).value, h);
            s.Some? ==>
              && |s.value.ports| == |r.ports| && s.value.ports[p] == SetPaused(r.ports[p], q, r.now, r.now)
              && !s.value.ports[p].active && s.value.ports[p].output.None? && s.value.ports[p].queues[q] > 0
    decreases h
  {
    match h
    case Start =>
    case After(before, step) =>
      StrandedStays(r, p, q, before);
      var s := Reach(Next(r, Pause(p, q, r.now)).value, h);
      if s.Some? {
        hide Next, Enabled;
        AwayLeaves(Reach(Next(r, Pause(p, q, r.now)).value, before).value, step, p);
      }
  }

  // One packet is enqueued, waits out a pause, and the sender takes the pause back
  // early: the X-on frame finds the port idle and strands the packet.
  lemma StrandExample()
    ensures var boot := Router(0, [Port(false, None, 0, [0], [0], [None], [])]);
            var h := After(After(After(After(Start, Pause(0, 0, 100)), Enqueue(0, 0)), Tick(10)), Output(0, 0, None));
            && IsBoot(boot) && Possible(boot, h) && Unstranded(boot, h)
            && var r := Reach(boot, h);
            && r.Some? && Formed(r.value)
            && Enabled(r.value, Pause(0, 0, 10)) && Strands(r.value, Pause(0, 0, 10))
  {
    var port := Port(false, None, 0, [0], [0], [None], []);
    var boot := Router(0, [port]);
    var port1 := SetPaused(port, 0, 100, 0);
    assert port1 == Port(false, None, 0, [0], [100], [Some(100)], []);
    var h := After(Start, Pause(0, 0, 100));
    assert [port][0 := port1] == [port1];
    assert Reach(boot, h) == Some(Router(0, [port1]));
    var port2 := EnqueuePacket(port1, 0, 0).value;
    assert port2 == Port(true, Some(10), 0, [1], [100], [Some(100)], []);
    assert [port1][0 := port2] == [port2];
    assert Reach(boot, After(h, Enqueue(0, 0))) == Some(Router(0, [port2]));
    var r := Router(10, [port2]);
    assert Reach(boot, After(After(h, Enqueue(0, 0)), Tick(10))) == Some(r);
  }
}
