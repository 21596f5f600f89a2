// An ordered QP that accepts and refuses requests, the host's receive path that it
// shares with others, and the clock: the order of ACKs in every run.
module AckRuns {
  import opened Common
  import Host = HostRxPath
  import opened AckOrdering

  // A packet pushed into the receive path: a request of this QP, accepted at a time,
  // or anything else (other QPs, read responses, completions).
  datatype Tag = Mine(rsn: nat, read: bool, accept: nat) | Foreign

  // The QP; the receive path; the event that ran last, the largest id given out, and
  // the id of the event that is to complete the current transmission; all packets
  // pushed; and for every request issued over PCIe how it was delivered.
  datatype Run = Run(rx: Rx, s: Host.State, now: nat, event: nat, ids: nat, completion: nat, tags: seq<Tag>,
                     log: seq<Delivery>)

  // What one event does. Other events may have taken ids before it.
  datatype Step = Step(time: nat, event: nat, others: nat, op: Op)
  datatype Op = Request(arrival: Arrival, read: bool, payload: nat) | Other(payload: nat) | Complete

  function Outcome(r: Run, op: Op): (Rx, AckOrdering.Outcome)
    requires op.Request?
  {
    Process(r.rx, op.arrival.rsn, op.arrival.noRecv, op.arrival.refused)
  }

  // Events run in the order of time and id. This one was scheduled before it runs and
  // is not the event of an ACK; a transmission is completed by the event scheduled
  // when it was started.
  predicate Enabled(r: Run, step: Step) {
    && Earlier(Moment(r.now, r.event), Moment(step.time, step.event))
    && step.event <= r.ids + step.others
    && (forall i :: 0 <= i < |r.log| ==> r.log[i].ackEvent != step.event)
    && (step.op.Complete? ==> r.s.events > 0)
    && (r.s.events > 0 ==> (step.op.Complete? <==> step.event == r.completion))
  }

  // The packet the event pushes, if any.
  function Pushed(r: Run, step: Step): seq<Tag> {
    match step.op
    case Complete => []
    case Other(_) => [Foreign]
    case Request(arrival, read, _) =>
      if Outcome(r, step.op).1.Accepted? then [Mine(arrival.rsn, read, step.time)] else []
  }

  // None when the QP or a CHECK of the receive path stops the simulation.
  function Move(c: Host.Config, r: Run, step: Step): Option<Host.State> {
    if step.op.Complete? then
      if r.s.events == 0 then None else Host.TransmitComplete(c, r.s.(events := r.s.events - 1))
    else if step.op.Request? && Outcome(r, step.op).1.Fatal? then None
    else if Pushed(r, step) == [] then Some(r.s)
    else Host.Push(c, r.s, |r.tags|, step.op.payload)
  }

  // How many packets have been issued: all but those in the buffer.
  function Issued(s: Host.State): (n: nat)
    ensures n + |s.buffer| == |Host.All(s)|
  {
    |s.done| + |Host.Current(s)| + |s.queue|
  }

  // The event starts a transmission and schedules its completion.
  predicate Starts(r: Run, s: Host.State, step: Step) { s.busy && (step.op.Complete? || !r.s.busy) }

  // The requests among the packets issued by one event, each with the id of its ACK
  // event.
  function Issue(log: seq<Delivery>, tags: seq<Tag>, time: nat, event: nat, ids: nat): seq<Delivery> {
    if tags == [] then log
    else
      var n := |tags| - 1;
      var before := Issue(log, tags[..n], time, event, ids);
      match tags[n]
      case Foreign => before
      case Mine(rsn, read, accept) => before + [Delivery(rsn, read, accept, time, event, ids + |tags|)]
  }

  function Next(c: Host.Config, r: Run, step: Step): Option<Run> {
    var moved := Move(c, r, step);
    if moved.None? then None
    else
      var s := moved.value;
      var tags := r.tags + Pushed(r, step);
      var from, to := Issued(r.s), Issued(s);
      if !(from <= to <= |tags|) then None
      else
        var ids := r.ids + step.others + if Starts(r, s, step) then 1 else 0;
        Some(Run(if step.op.Request? then Outcome(r, step.op).0 else r.rx, s, step.time, step.event, ids + to - from,
                 if Starts(r, s, step) then ids else r.completion, tags,
                 Issue(r.log, tags[from..to], step.time, step.event, ids)))
  }

  const Boot := Run(AckOrdering.Boot, Host.Boot, 0, 0, 0, 0, [], [])

  // ---- the invariant -------------------------------------------------------------------------

  // This QP's requests among the packets pushed.
  function Mines(tags: seq<Tag>): seq<Tag> {
    if tags == [] then []
    else
      var n := |tags| - 1;
      Mines(tags[..n]) + if tags[n].Mine? then [tags[n]] else []
  }

  // They have the RSNs 0, 1, 2, ... and were accepted one after the other.
  predicate MinesOk(mines: seq<Tag>, next: nat, now: nat) {
    && |mines| == next
    && (forall i :: 0 <= i < |mines| ==> mines[i].Mine? && mines[i].rsn == i && mines[i].accept <= now)
    && (forall i, j :: 0 <= i < j < |mines| ==> mines[i].accept <= mines[j].accept)
  }

  // The log so far, given that the event (now, event) ran last and ids up to `ids`
  // have been given out.
  predicate LogOk(log: seq<Delivery>, mines: seq<Tag>, now: nat, event: nat, ids: nat) {
    && Formed(log)
    && |log| <= |mines|
    && event <= ids
    && forall i :: 0 <= i < |log| ==>
         && mines[i] == Mine(i, log[i].read, log[i].accept)
         && !Earlier(Moment(now, event), IssueMoment(log[i]))
         && log[i].issueEvent <= ids && log[i].ackEvent <= ids && log[i].ackEvent != event
  }

  ghost predicate Inv(c: Host.Config, r: Run) {
    && Host.Inv(c, r.s)
    && |r.tags| == |Host.All(r.s)|
    && r.rx.accepted == UpTo(r.rx.next)
    && MinesOk(Mines(r.tags), r.rx.next, r.now)
    && |r.log| == |Mines(r.tags[..Issued(r.s)])|
    && LogOk(r.log, Mines(r.tags), r.now, r.event, r.ids)
  }

  lemma MinesAppend(tags: seq<Tag>, t: Tag)
    ensures Mines(tags + [t]) == Mines(tags) + if t.Mine? then [t] else []
  {
    assert (tags + [t])[..|tags|] == tags;
  }

  // The requests of a prefix come first.
  lemma {:induction false} MinesPrefix(tags: seq<Tag>, n: nat)
    requires n <= |tags|
    ensures Mines(tags[..n]) <= Mines(tags)
    ensures n < |tags| && tags[n].Mine? ==>
              |Mines(tags[..n])| < |Mines(tags)| && Mines(tags)[|Mines(tags[..n])|] == tags[n]
    decreases |tags|
  {
    if n < |tags| {
      var m := |tags| - 1;
      MinesPrefix(tags[..m], n);
      assert tags[..m][..n] == tags[..n];
    } else {
      assert tags[..n] == tags;
    }
  }

  // An event later than the last one runs, and the QP may have accepted a request.
  lemma LogMoves(log: seq<Delivery>, mines: seq<Tag>, more: seq<Tag>, now: nat, event: nat, ids: nat, step: Step)
    requires LogOk(log, mines, now, event, ids) && Earlier(Moment(now, event), Moment(step.time, step.event))
    requires step.event <= ids + step.others && forall i :: 0 <= i < |log| ==> log[i].ackEvent != step.event
    ensures LogOk(log, mines + more, step.time, step.event, ids + step.others)
    ensures forall i :: 0 <= i < |log| ==> Earlier(IssueMoment(log[i]), Moment(step.time, step.event))
  {
  }

  lemma LogAppend(log: seq<Delivery>, mines: seq<Tag>, next: nat, now: nat, event: nat, ids: nat)
    requires LogOk(log, mines, now, event, ids) && |log| < |mines| && MinesOk(mines, next, now)
    requires forall i :: 0 <= i < |log| ==> Earlier(IssueMoment(log[i]), Moment(now, event))
    ensures var t := mines[|log|];
            LogOk(log + [Delivery(t.rsn, t.read, t.accept, now, event, ids + 1)], mines, now, event, ids + 1)
  {
    var t := mines[|log|];
    var log' := log + [Delivery(t.rsn, t.read, t.accept, now, event, ids + 1)];
    hide Earlier;
    forall i, j | 0 <= i < j < |log'|
      ensures log'[i].accept <= log'[j].accept && log'[i].ackEvent < log'[j].ackEvent
      ensures Earlier(IssueMoment(log'[i]), IssueMoment(log'[j])) && log'[i].issueEvent < log'[j].ackEvent
    {
      assert j < |log| ==> log'[i] == log[i] && log'[j] == log[j];
    }
    forall i, j | 0 <= i < |log'| && 0 <= j < |log'|
      ensures log'[i].ackEvent != log'[j].issueEvent
    {
      assert i < |log| ==> log'[i] == log[i];
      assert j < |log| ==> log'[j] == log[j];
    }
  }

  lemma LogMoreIds(log: seq<Delivery>, mines: seq<Tag>, now: nat, event: nat, ids: nat, more: nat)
    requires LogOk(log, mines, now, event, ids)
    ensures LogOk(log, mines, now, event, ids + more)
  {
  }

  lemma {:induction false} IdsLength(items: seq<Host.Item>)
    ensures |Host.Labels(items)| == |items|
  {
    if items != [] {
      IdsLength(items[1..]);
    }
  }

  // Only the QP itself stops a run. An event issues at most one packet, and if it
  // pushes one into an empty buffer and a queue with room, that one.
  lemma MoveIssues(c: Host.Config, r: Run, step: Step)
    requires Host.Inv(c, r.s) && Enabled(r, step)
    ensures var s := Move(c, r, step);
            && (s.None? <==> step.op.Request? && Outcome(r, step.op).1.Fatal?)
            && (s.Some? ==>
                  && Host.Inv(c, s.value) && Issued(r.s) <= Issued(s.value) <= Issued(r.s) + 1
                  && |Host.All(s.value)| == |Host.All(r.s)| + |Pushed(r, step)|)
  {
    if step.op.Complete? {
      hide Host.TransmitComplete, Host.Inv, Host.All;
      Host.CompleteKeeps(c, r.s);
      IdsLength(Host.All(r.s));
      IdsLength(Host.All(Move(c, r, step).value));
    } else if Pushed(r, step) != [] {
      Host.PushAll(c, r.s, |r.tags|, step.op.payload);
    }
  }

  // The QP's books after the event.
  lemma AcceptKeeps(r: Run, step: Step)
    requires r.rx.accepted == UpTo(r.rx.next) && MinesOk(Mines(r.tags), r.rx.next, r.now) && r.now <= step.time
    ensures var rx := if step.op.Request? then Outcome(r, step.op).0 else r.rx;
            var mines := Mines(r.tags + Pushed(r, step));
            && rx.accepted == UpTo(rx.next) && MinesOk(mines, rx.next, step.time) && |mines| == rx.next
            && mines == Mines(r.tags) + Mines(Pushed(r, step))
  {
    hide Mines;
    var more := Pushed(r, step);
    MinesOne(r.tags, more);
    if more != [] && more[0].Mine? {
      assert more == [Mine(r.rx.next, step.op.read, step.time)];
      MinesGrow(Mines(r.tags), more[0], r.rx.next, r.now, step.time);
    } else {
      assert Mines(r.tags) + [] == Mines(r.tags);
    }
  }

  lemma MinesGrow(mines: seq<Tag>, t: Tag, next: nat, now: nat, time: nat)
    requires MinesOk(mines, next, now) && now <= time && t.Mine? && t.rsn == next && t.accept == time
    ensures MinesOk(mines + [t], next + 1, time)
  {
  }

  lemma Keeps(c: Host.Config, r: Run, step: Step)
    requires Inv(c, r) && Enabled(r, step)
    ensures var r' := Next(c, r, step);
            && (r'.None? <==> step.op.Request? && Outcome(r, step.op).1.Fatal?)
            && (r'.Some? ==> Inv(c, r'.value))
  {
    hide Move, Host.Inv, Host.All, LogOk, MinesOk, Mines, Process;
    MoveIssues(c, r, step);
    var moved := Move(c, r, step);
    if moved.Some? {
      AcceptKeeps(r, step);
      var tags := r.tags + Pushed(r, step);
      LogMoves(r.log, Mines(r.tags), Mines(Pushed(r, step)), r.now, r.event, r.ids, step);
      assert tags[..Issued(r.s)] == r.tags[..Issued(r.s)];
      IssueKeeps(r, tags, moved.value, step, Issued(r.s), Issued(moved.value));
    }
  }

  lemma IssueKeeps(r: Run, tags: seq<Tag>, s: Host.State, step: Step, from: nat, to: nat)
    requires from <= to <= from + 1 && to <= |tags|
    requires |r.log| == |Mines(tags[..from])|
    requires LogOk(r.log, Mines(tags), step.time, step.event, r.ids + step.others)
    requires forall i :: 0 <= i < |r.log| ==> Earlier(IssueMoment(r.log[i]), Moment(step.time, step.event))
    requires MinesOk(Mines(tags), |Mines(tags)|, step.time)
    ensures var ids := r.ids + step.others + if Starts(r, s, step) then 1 else 0;
            var log := Issue(r.log, tags[from..to], step.time, step.event, ids);
            |log| == |Mines(tags[..to])| && LogOk(log, Mines(tags), step.time, step.event, ids + to - from)
  {
    hide LogOk, MinesOk, Mines, Earlier, Starts;
    var ids := r.ids + step.others + if Starts(r, s, step) then 1 else 0;
    LogMoreIds(r.log, Mines(tags), step.time, step.event, r.ids + step.others, ids - (r.ids + step.others));
    if from == to {
      assert tags[from..to] == [];
    } else {
      var t := tags[from];
      assert tags[from..to] == [t] && [t][..0] == [];
      assert tags[..to] == tags[..from] + [t];
      MinesAppend(tags[..from], t);
      MinesPrefix(tags, from);
      if t.Mine? {
        LogAppend(r.log, Mines(tags), |Mines(tags)|, step.time, step.event, ids);
      } else {
        LogMoreIds(r.log, Mines(tags), step.time, step.event, ids, 1);
      }
    }
  }

  lemma IssueOne(log: seq<Delivery>, t: Tag, time: nat, event: nat, ids: nat)
    ensures Issue(log, [t], time, event, ids) ==
              log + if t.Mine? then [Delivery(t.rsn, t.read, t.accept, time, event, ids + 1)] else []
  {
    assert [t][..0] == [];
  }

  // ---- whole runs ---------------------------------------------------------------------------------

  function Reach(c: Host.Config, steps: seq<Step>): Option<Run> {
    if steps == [] then Some(Boot)
    else
      var n := |steps| - 1;
      var r := Reach(c, steps[..n]);
      if r.None? || !Enabled(r.value, steps[n]) then None else Next(c, r.value, steps[n])
  }

  predicate Legal(c: Host.Config, steps: seq<Step>) {
    steps == [] ||
    (var n := |steps| - 1;
     Legal(c, steps[..n]) && (Reach(c, steps[..n]).Some? ==> Enabled(Reach(c, steps[..n]).value, steps[n])))
  }

  // A request arrived out of order while the QP was not in RNR state.
  predicate Stopped(c: Host.Config, steps: seq<Step>) {
    steps != [] &&
    var n := |steps| - 1;
    Stopped(c, steps[..n]) ||
    (steps[n].op.Request? && Reach(c, steps[..n]).Some? && Outcome(Reach(c, steps[..n]).value, steps[n].op).1.Fatal?)
  }

  lemma BootInv(c: Host.Config)
    ensures Inv(c, Boot)
  {
  }

  // Nothing but such a request stops a run, and the deliveries of a run are Formed.
  lemma {:induction false} RunsFormed(c: Host.Config, steps: seq<Step>)
    requires Legal(c, steps)
    ensures Reach(c, steps).None? <==> Stopped(c, steps)
    ensures Reach(c, steps).Some? ==> Inv(c, Reach(c, steps).value) && Formed(Reach(c, steps).value.log)
    decreases |steps|
  {
    if steps == [] {
      BootInv(c);
    } else {
      var n := |steps| - 1;
      hide Inv, Next, Enabled, Outcome;
      RunsFormed(c, steps[..n]);
      if Reach(c, steps[..n]).Some? {
        Keeps(c, Reach(c, steps[..n]).value, steps[n]);
        InvFormed(c, Reach(c, steps));
      }
    }
  }

  lemma InvFormed(c: Host.Config, r: Option<Run>)
    ensures r.Some? && Inv(c, r.value) ==> Formed(r.value.log)
  {
  }

  // In every run, log[i] is the delivery of RSN i; the times at which RSNs are
  // acknowledged never decrease; and the ACKs come in RSN order exactly if no request
  // that is acknowledged on the spot overtakes a deferred ACK.
  lemma RunsAckInOrder(c: Host.Config, steps: seq<Step>, latency: nat)
    requires Legal(c, steps) && !Stopped(c, steps)
    ensures Reach(c, steps).Some?
    ensures var log := Reach(c, steps).value.log;
            && (forall i :: 0 <= i < |log| ==> log[i].rsn == i)
            && (forall i, j :: 0 <= i < j < |log| ==> AckTime(log[i], latency) <= AckTime(log[j], latency))
            && (InOrder(log, latency) <==> forall i, j :: 0 <= i < j < |log| ==> !Overtakes(log[i], log[j], latency))
  {
    hide Reach, Legal, Stopped, Inv;
    RunsFormed(c, steps);
    var log := Reach(c, steps).value.log;
    AcksInOrder(log, latency);
    forall i, j | 0 <= i < j < |log|
      ensures AckTime(log[i], latency) <= AckTime(log[j], latency)
    {
      AckTimesOrdered(log, i, j, latency);
    }
  }

  // ---- when nobody overtakes -------------------------------------------------------------------------

  // No packet was ever pushed while the PCIe queue was full, so none ever waited in
  // the buffer.
  predicate NeverFull(c: Host.Config, steps: seq<Step>) {
    steps == [] ||
    (var n := |steps| - 1;
     && NeverFull(c, steps[..n])
     && (!steps[n].op.Complete? && Reach(c, steps[..n]).Some? ==> |Reach(c, steps[..n]).value.s.queue| != c.slots))
  }

  // Every request was issued when it was accepted.
  predicate Prompt(r: Run) {
    r.s.buffer == [] && forall i :: 0 <= i < |r.log| ==> r.log[i].issue == r.log[i].accept
  }

  lemma PromptKeeps(c: Host.Config, r: Run, step: Step)
    requires Inv(c, r) && Enabled(r, step) && Prompt(r)
    requires !step.op.Complete? ==> |r.s.queue| != c.slots
    ensures Next(c, r, step).Some? ==> Prompt(Next(c, r, step).value)
  {
    hide LogOk, MinesOk, Mines, Process, Host.SizeOnPush, Host.Wrap32;
    MoveIssues(c, r, step);
    var moved := Move(c, r, step);
    if moved.Some? {
      if step.op.Complete? {
        hide Host.TransmitComplete, Host.Inv;
        Host.CompleteKeeps(c, r.s);
      }
      var tags := r.tags + Pushed(r, step);
      var from, to := Issued(r.s), Issued(moved.value);
      assert moved.value.buffer == [] && from == |r.tags| && to == |tags|;
      assert tags[from..to] == Pushed(r, step);
      hide Move, Host.All;
      var ids := r.ids + step.others + if Starts(r, moved.value, step) then 1 else 0;
      if Pushed(r, step) != [] {
        assert Pushed(r, step) == [Pushed(r, step)[0]];
        IssueOne(r.log, Pushed(r, step)[0], step.time, step.event, ids);
      }
      hide Issue;
    }
  }

  lemma {:induction false} NeverFullPrompt(c: Host.Config, steps: seq<Step>)
    requires Legal(c, steps) && NeverFull(c, steps)
    ensures Reach(c, steps).Some? ==> Prompt(Reach(c, steps).value)
    decreases |steps|
  {
    if steps != [] {
      var n := |steps| - 1;
      hide Inv, Next, Enabled, Prompt;
      RunsFormed(c, steps[..n]);
      NeverFullPrompt(c, steps[..n]);
      if Reach(c, steps[..n]).Some? {
        PromptKeeps(c, Reach(c, steps[..n]).value, steps[n]);
      }
    } else {
      assert Prompt(Boot);
    }
  }

  // A write or send accepted at the same time as a read before it, in an event that was
  // scheduled before the ACK of the read.
  predicate Ties(i: Delivery, j: Delivery) {
    i.read && !j.read && i.accept == j.accept && j.issueEvent < i.ackEvent
  }

  // When the queue always has room for what is pushed, ACKs come in RSN order if the
  // latency is positive; without latency, exactly if no two requests tie.
  lemma RoomMeansOrder(c: Host.Config, steps: seq<Step>, latency: nat)
    requires Legal(c, steps) && !Stopped(c, steps) && NeverFull(c, steps)
    ensures Reach(c, steps).Some?
    ensures var log := Reach(c, steps).value.log;
            InOrder(log, latency) <==> latency > 0 || forall i, j :: 0 <= i < j < |log| ==> !Ties(log[i], log[j])
  {
    RunsAckInOrder(c, steps, latency);
    RunsFormed(c, steps);
    NeverFullPrompt(c, steps);
    hide Reach, Legal, Stopped, NeverFull, Inv, Formed, InOrder;
    var log := Reach(c, steps).value.log;
    forall i, j | 0 <= i < j < |log|
      ensures Overtakes(log[i], log[j], latency) <==> latency == 0 && Ties(log[i], log[j])
    {
    }
  }

  // Requests are processed one after the other, at different times.
  predicate Paced(steps: seq<Step>) {
    forall k, m :: 0 <= k < m < |steps| && steps[k].op.Request? && steps[m].op.Request? ==> steps[k].time < steps[m].time
  }

  // A request was accepted when it was processed.
  predicate Processed(t: Tag, steps: seq<Step>) {
    t.Mine? && exists k :: 0 <= k < |steps| && steps[k].op.Request? && steps[k].time == t.accept
  }

  predicate Spread(mines: seq<Tag>, steps: seq<Step>) {
    && (forall i :: 0 <= i < |mines| ==> Processed(mines[i], steps))
    && (forall i, j :: 0 <= i < j < |mines| && mines[i].Mine? && mines[j].Mine? ==> mines[i].accept < mines[j].accept)
  }

  lemma ProcessedBefore(t: Tag, steps: seq<Step>, n: nat) returns (k: nat)
    requires n <= |steps| && Processed(t, steps[..n])
    ensures k < n && steps[k].op.Request? && t.Mine? && steps[k].time == t.accept && Processed(t, steps)
  {
    var front := steps[..n];
    k :| 0 <= k < |front| && front[k].op.Request? && front[k].time == t.accept;
    assert steps[k] == front[k];
  }

  lemma SpreadStep(mines: seq<Tag>, more: seq<Tag>, steps: seq<Step>)
    requires steps != [] && Paced(steps) && Spread(mines, steps[..|steps| - 1])
    requires more == [] || (steps[|steps| - 1].op.Request? && |more| == 1 && more[0].Mine?
                            && more[0].accept == steps[|steps| - 1].time)
    ensures Spread(mines + more, steps)
  {
    var n := |steps| - 1;
    forall i | 0 <= i < |mines|
      ensures Processed(mines[i], steps) && (steps[n].op.Request? ==> mines[i].accept < steps[n].time)
    {
      var k := ProcessedBefore(mines[i], steps, n);
    }
    if more != [] {
      assert Processed(more[0], steps);
    }
  }

  lemma NextTags(c: Host.Config, r: Run, step: Step)
    requires Next(c, r, step).Some?
    ensures var more := Pushed(r, step);
            && Next(c, r, step).value.tags == r.tags + more && |more| <= 1
            && (more != [] && more[0].Mine? ==> step.op.Request? && more[0].accept == step.time)
  {
    hide Move, Issue, Outcome, Starts;
  }

  lemma {:induction false} RunsSpread(c: Host.Config, steps: seq<Step>)
    requires Paced(steps)
    ensures Reach(c, steps).Some? ==> Spread(Mines(Reach(c, steps).value.tags), steps)
    decreases |steps|
  {
    if steps != [] {
      var n := |steps| - 1;
      assert Paced(steps[..n]);
      RunsSpread(c, steps[..n]);
      if Reach(c, steps).Some? {
        hide Next, Pushed, Enabled, Spread, Paced, Mines;
        var r := Reach(c, steps[..n]).value;
        NextTags(c, r, steps[n]);
        MinesOne(r.tags, Pushed(r, steps[n]));
        SpreadStep(Mines(r.tags), Mines(Pushed(r, steps[n])), steps);
      }
    }
  }

  lemma MinesOne(tags: seq<Tag>, more: seq<Tag>)
    requires |more| <= 1
    ensures Mines(tags + more) == Mines(tags) + Mines(more)
    ensures Mines(more) == if more != [] && more[0].Mine? then more else []
  {
    if more == [] {
      assert tags + more == tags && Mines(tags) + [] == Mines(tags);
    } else {
      assert (tags + more)[..|tags|] == tags && more[..0] == [];
    }
  }

  // With requests processed at different times, whatever the latency: a request overtakes
  // only a read that waited in the buffer for as long as the latency and was issued at
  // the same time; and if the queue always has room, ACKs come in RSN order.
  lemma PaceMeansOrder(c: Host.Config, steps: seq<Step>, latency: nat)
    requires Legal(c, steps) && !Stopped(c, steps) && Paced(steps)
    ensures Reach(c, steps).Some?
    ensures var log := Reach(c, steps).value.log;
            && (forall i, j :: 0 <= i < j < |log| && Overtakes(log[i], log[j], latency) ==>
                  log[i].read && log[i].accept + latency <= log[i].issue == log[j].issue)
            && (NeverFull(c, steps) ==> InOrder(log, latency))
  {
    RunsFormed(c, steps);
    RunsSpread(c, steps);
    var r := Reach(c, steps).value;
    hide Reach, Legal, Stopped, NeverFull, Formed;
    assert forall i :: 0 <= i < |r.log| ==> Mines(r.tags)[i] == Mine(i, r.log[i].read, r.log[i].accept);
    hide Inv, Mines;
    forall i, j | 0 <= i < j < |r.log|
      ensures r.log[i].accept < r.log[j].accept
    {
    }
    forall i, j | 0 <= i < j < |r.log| && Overtakes(r.log[i], r.log[j], latency)
      ensures r.log[i].read && r.log[i].accept + latency <= r.log[i].issue == r.log[j].issue
    {
      OvertakersWaited(r.log, i, j, latency);
    }
    if NeverFull(c, steps) {
      RoomMeansOrder(c, steps, latency);
    }
  }

  function Pushes(steps: seq<Step>): nat {
    if steps == [] then 0 else Pushes(steps[..|steps| - 1]) + if steps[|steps| - 1].op.Complete? then 0 else 1
  }

  // In particular for runs of no more packets than the queue has slots and the wire.
  lemma {:induction false} FewNeverFull(c: Host.Config, steps: seq<Step>)
    requires Legal(c, steps) && 0 < c.slots && Pushes(steps) <= c.slots + 1
    ensures NeverFull(c, steps)
    ensures Reach(c, steps).Some? ==> |Reach(c, steps).value.tags| <= Pushes(steps)
    decreases |steps|
  {
    hide Next, Enabled, Inv;
    if steps != [] {
      var n := |steps| - 1;
      FewNeverFull(c, steps[..n]);
      RunsFormed(c, steps[..n]);
      if Reach(c, steps[..n]).Some? {
        var r := Reach(c, steps[..n]).value;
        InvQueue(c, r);
        TagsGrow(c, r, steps[n]);
      }
    }
  }

  lemma TagsGrow(c: Host.Config, r: Run, step: Step)
    ensures var r' := Next(c, r, step);
            r'.Some? ==> |r'.value.tags| <= |r.tags| + if step.op.Complete? then 0 else 1
  {
  }

  lemma InvQueue(c: Host.Config, r: Run)
    requires Inv(c, r)
    ensures r.s.queue != [] ==> |r.s.queue| < |r.tags|
  {
  }

  // ---- a run in which a write overtakes a read ----------------------------------------------------------

  // One slot. A read is accepted and being transmitted, another packet takes the slot,
  // and a write accepted at the same time has to wait. The transmission ends when the
  // latency has just passed: its event was scheduled before that of the read's ACK,
  // issues the write, and so acknowledges it first.
  const DemoSteps := [Step(0, 5, 5, Request(Arrival(0, false, false), true, 100)), Step(0, 8, 1, Other(100)),
                      Step(0, 9, 1, Request(Arrival(1, false, false), false, 100)), Step(10, 6, 0, Complete)]

  lemma WriteOvertakesRead()
    ensures var c := Host.Config(1, 1000);
            && Legal(c, DemoSteps) && Reach(c, DemoSteps).Some?
            && var log := Reach(c, DemoSteps).value.log;
            && log == [Delivery(0, true, 0, 0, 5, 7), Delivery(1, false, 0, 10, 6, 12)]
            && Overtakes(log[0], log[1], 10) && !InOrder(log, 10)
  {
    hide Reach, Legal;
    DemoReaches();
    RunsFormed(Host.Config(1, 1000), DemoSteps);
    hide Formed, Inv, Earlier;
    AckOrderExact(Demo4.log, 0, 1, 10);
  }

  // Without latency: two requests at the same time, in events scheduled one after the
  // other. The write is acknowledged on the spot, the ACK of the read is an event of its
  // own, although nothing ever waits.
  const TieSteps := [Step(0, 3, 5, Request(Arrival(0, false, false), true, 100)),
                     Step(0, 5, 0, Request(Arrival(1, false, false), false, 100))]

  lemma TieOvertakes()
    ensures var c := Host.Config(50, 1000);
            && Legal(c, TieSteps) && NeverFull(c, TieSteps) && Reach(c, TieSteps).Some?
            && var log := Reach(c, TieSteps).value.log;
            && log == [Delivery(0, true, 0, 0, 3, 7), Delivery(1, false, 0, 0, 5, 8)]
            && Overtakes(log[0], log[1], 0) && !InOrder(log, 0)
  {
    var c, d := Host.Config(50, 1000), TieSteps;
    assert Legal(c, []) && NeverFull(c, []) && Reach(c, []) == Some(Boot);
    hide Next, Enabled, Reach, Legal;
    assert d[..0] == [] && d[..0] + [d[0]] == d[..1] && d[..1] + [d[1]] == d;
    TieFirst();
    ReachOne(c, d[..0], d[0]);
    TieSecond();
    ReachOne(c, d[..1], d[1]);
    assert d[..1][..0] == [];
    assert NeverFull(c, d[..1]);
    RunsFormed(c, d);
    hide Formed, Inv, Earlier, NeverFull;
    AckOrderExact(Tie2.log, 0, 1, 0);
  }

  const Tie1 := Run(Rx(1, false, [0]), Host.State(true, Some(Read), [], [], 0, false, 1, []), 0, 3, 7, 6,
                    [Mine(0, true, 0)], [Delivery(0, true, 0, 0, 3, 7)])
  const Tie2 := Tie1.(s := Tie1.s.(queue := [Third]), rx := Rx(2, false, [0, 1]), event := 5, ids := 8,
                      tags := Tie1.tags + [Mine(1, false, 0)],
                      log := [Delivery(0, true, 0, 0, 3, 7), Delivery(1, false, 0, 0, 5, 8)])

  lemma TieFirst()
    ensures Enabled(Boot, TieSteps[0]) && Next(Host.Config(50, 1000), Boot, TieSteps[0]) == Some(Tie1)
  {
    var c, s1 := Host.Config(50, 1000), TieSteps[0];
    assert [] + [Read] == [Read] && [Read][1..] == [];
    assert Move(c, Boot, s1) == Some(Tie1.s);
    assert Issued(Boot.s) == 0 && Issued(Tie1.s) == 1;
    hide Move, Issued;
    assert Boot.tags + Pushed(Boot, s1) == Tie1.tags && Tie1.tags[0..1] == Tie1.tags;
    IssueOne([], Mine(0, true, 0), 0, 3, 6);
    hide Issue;
    assert [] + Tie1.log == Tie1.log && [] + [0] == [0];
    assert Outcome(Boot, s1.op).0 == Tie1.rx;
  }

  lemma TieSecond()
    ensures Enabled(Tie1, TieSteps[1]) && Next(Host.Config(50, 1000), Tie1, TieSteps[1]) == Some(Tie2)
  {
    var c, s2 := Host.Config(50, 1000), TieSteps[1];
    assert [] + [Third] == [Third] && [0] + [1] == [0, 1];
    assert Move(c, Tie1, s2) == Some(Tie2.s);
    assert Issued(Tie1.s) == 1 && Issued(Tie2.s) == 2;
    hide Move, Issued;
    assert (Tie1.tags + [Mine(1, false, 0)])[1..2] == [Mine(1, false, 0)];
    IssueOne(Tie1.log, Mine(1, false, 0), 0, 5, 7);
    hide Issue;
    assert Tie1.log + [Delivery(1, false, 0, 0, 5, 8)] == Tie2.log;
    assert Outcome(Tie1, s2.op).0 == Tie2.rx;
  }

  lemma DemoReaches()
    ensures var c := Host.Config(1, 1000); Legal(c, DemoSteps) && Reach(c, DemoSteps) == Some(Demo4)
  {
    var c, d := Host.Config(1, 1000), DemoSteps;
    assert Legal(c, []) && Reach(c, []) == Some(Boot);
    hide Next, Enabled, Reach, Legal;
    assert d[..0] == [] && d[..0] + [d[0]] == d[..1] && d[..1] + [d[1]] == d[..2];
    assert d[..2] + [d[2]] == d[..3] && d[..3] + [d[3]] == d;
    DemoFirst();
    ReachOne(c, d[..0], d[0]);
    DemoSecond();
    ReachOne(c, d[..1], d[1]);
    DemoThird();
    ReachOne(c, d[..2], d[2]);
    DemoFourth();
    ReachOne(c, d[..3], d[3]);
  }

  lemma ReachOne(c: Host.Config, steps: seq<Step>, step: Step)
    requires Legal(c, steps) && Reach(c, steps).Some? && Enabled(Reach(c, steps).value, step)
    ensures Legal(c, steps + [step]) && Reach(c, steps + [step]) == Next(c, Reach(c, steps).value, step)
  {
    assert (steps + [step])[..|steps|] == steps;
  }

  // Its states.
  const Read := Host.Item(0, 100, 72)
  const Third := Host.Item(1, 100, 72)
  const Write := Host.Item(2, 100, 0)
  const Demo1 := Run(Rx(1, false, [0]), Host.State(true, Some(Read), [], [], 0, false, 1, []), 0, 5, 7, 6,
                     [Mine(0, true, 0)], [Delivery(0, true, 0, 0, 5, 7)])
  const Demo2 := Demo1.(s := Demo1.s.(queue := [Third]), event := 8, ids := 9, tags := Demo1.tags + [Foreign])
  const Demo3 := Demo2.(s := Demo2.s.(buffer := [Write], size := 100), rx := Rx(2, false, [0, 1]), event := 9, ids := 10,
                        tags := Demo2.tags + [Mine(1, false, 0)])
  const Demo4 := Demo3.(s := Host.State(true, Some(Third), [Write.(size := 72)], [], 0, false, 1, [Read]),
                        now := 10, event := 6, ids := 12, completion := 11,
                        log := [Delivery(0, true, 0, 0, 5, 7), Delivery(1, false, 0, 10, 6, 12)])

  lemma DemoFirst()
    ensures var s1 := Step(0, 5, 5, Request(Arrival(0, false, false), true, 100));
            Enabled(Boot, s1) && Next(Host.Config(1, 1000), Boot, s1) == Some(Demo1)
  {
    var c, s1 := Host.Config(1, 1000), Step(0, 5, 5, Request(Arrival(0, false, false), true, 100));
    assert [] + [Read] == [Read] && [Read][1..] == [];
    assert Move(c, Boot, s1) == Some(Demo1.s);
    assert Issued(Boot.s) == 0 && Issued(Demo1.s) == 1;
    hide Move, Issued;
    assert Boot.tags + Pushed(Boot, s1) == Demo1.tags && Demo1.tags[0..1] == Demo1.tags;
    IssueOne([], Mine(0, true, 0), 0, 5, 6);
    hide Issue;
    assert [] + Demo1.log == Demo1.log && [] + [0] == [0];
    assert Outcome(Boot, s1.op).0 == Demo1.rx;
  }

  lemma DemoSecond()
    ensures var s2 := Step(0, 8, 1, Other(100));
            Enabled(Demo1, s2) && Next(Host.Config(1, 1000), Demo1, s2) == Some(Demo2)
  {
    var c, s2 := Host.Config(1, 1000), Step(0, 8, 1, Other(100));
    assert [] + [Third] == [Third];
    assert Move(c, Demo1, s2) == Some(Demo2.s);
    assert Issued(Demo1.s) == 1 && Issued(Demo2.s) == 2;
    hide Move, Issued;
    assert (Demo1.tags + [Foreign])[1..2] == [Foreign];
    IssueOne(Demo1.log, Foreign, 0, 8, 8);
    hide Issue;
    assert Demo1.log + [] == Demo1.log;
  }

  lemma DemoThird()
    ensures var s3 := Step(0, 9, 1, Request(Arrival(1, false, false), false, 100));
            Enabled(Demo2, s3) && Next(Host.Config(1, 1000), Demo2, s3) == Some(Demo3)
  {
    var c, s3 := Host.Config(1, 1000), Step(0, 9, 1, Request(Arrival(1, false, false), false, 100));
    assert [] + [Write] == [Write] && [0] + [1] == [0, 1];
    assert Move(c, Demo2, s3) == Some(Demo3.s);
    assert Issued(Demo2.s) == 2 && Issued(Demo3.s) == 2;
    hide Move, Issued;
    assert (Demo2.tags + [Mine(1, false, 0)])[2..2] == [];
    assert Outcome(Demo2, s3.op).0 == Demo3.rx;
  }

  lemma DemoFourth()
    ensures var s4 := Step(10, 6, 0, Complete);
            Enabled(Demo3, s4) && Next(Host.Config(1, 1000), Demo3, s4) == Some(Demo4)
  {
    var c, s4 := Host.Config(1, 1000), Step(10, 6, 0, Complete);
    assert [] + [Read] == [Read] && [Third][1..] == [] && [Write][1..] == [];
    assert [] + [Write.(size := 72)] == [Write.(size := 72)];
    var after := Demo3.s.(events := 1, done := [Read], sending := Some(Third), queue := []);
    assert Host.Drain(c, after) == Some(Demo4.s);
    assert Move(c, Demo3, s4) == Some(Demo4.s);
    assert Issued(Demo3.s) == 2 && Issued(Demo4.s) == 3;
    hide Move, Issued;
    assert (Demo3.tags + [])[2..3] == [Mine(1, false, 0)] && Demo3.tags + [] == Demo3.tags;
    IssueOne(Demo3.log, Mine(1, false, 0), 10, 6, 11);
    hide Issue;
    assert Demo3.log + [Delivery(1, false, 0, 10, 6, 12)] == Demo4.log;
  }
}
