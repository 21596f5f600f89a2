// The host's network channel: signals wait in a priority queue until their scheduled
// time and until the channel is free. Every scheduled signal has one wake-up event.
module ChannelManager {
  import opened Common

  datatype Signal = Signal(id: nat, scheduled: nat, delay: nat)

  // A signal and the time it was put on the wire.
  datatype Sent = Sent(signal: Signal, at: nat)

  // `pending` are the times of the wake-up events.
  datatype State = State(now: nat, nextAvailable: nat, queue: seq<Signal>, pending: seq<nat>, sent: seq<Sent>)

  function Max(a: nat, b: nat): nat { if a >= b then a else b }

  // No signal in the queue is scheduled earlier; ties are open.
  predicate IsTop(queue: seq<Signal>, j: nat) {
    j < |queue| && forall i :: 0 <= i < |queue| ==> queue[j].scheduled <= queue[i].scheduled
  }

  function ScheduleSend(s: State, id: nat, sendDelay: nat, transmissionDelay: nat): State {
    s.(queue := s.queue + [Signal(id, s.now + sendDelay, transmissionDelay)],
       pending := s.pending + [Max(s.now + sendDelay, s.nextAvailable)])
  }

  // `j` is the top of the queue; None if there is none to take.
  function SendOnWire(s: State, j: nat): Option<State> {
    if s.now < s.nextAvailable then Some(s.(pending := s.pending + [s.nextAvailable]))
    else if j >= |s.queue| then None
    else
      Some(s.(queue := Without(s.queue, j), sent := s.sent + [Sent(s.queue[j], s.now)],
              nextAvailable := s.now + s.queue[j].delay))
  }

  class NetworkChannelManager {
    var now: nat
    var nextAvailable: nat
    var queue: seq<Signal>
    var pending: seq<nat>
    var sent: seq<Sent>

    function View(): State
      reads this
    {
      State(now, nextAvailable, queue, pending, sent)
    }

    constructor ()
      ensures View() == Boot
    {
      now, nextAvailable, queue, pending, sent := 0, 0, [], [], [];
    }

    method Schedule(id: nat, sendDelay: nat, transmissionDelay: nat)
      modifies this
      ensures View() == ScheduleSend(old(View()), id, sendDelay, transmissionDelay)
    {
      queue := queue + [Signal(id, now + sendDelay, transmissionDelay)];
      var wait := if nextAvailable <= now || sendDelay >= nextAvailable - now then sendDelay else nextAvailable - now;
      pending := pending + [now + wait];
    }

    method Top() returns (j: nat)
      requires queue != []
      ensures IsTop(queue, j)
    {
      j := 0;
      var i := 1;
      while i < |queue|
        invariant 0 <= j < i <= |queue|
        invariant forall m :: 0 <= m < i ==> queue[j].scheduled <= queue[m].scheduled
      {
        if queue[i].scheduled < queue[j].scheduled {
          j := i;
        }
        i := i + 1;
      }
    }

    method Wake() returns (ok: bool, ghost j: nat)
      modifies this
      ensures old(queue) != [] ==> IsTop(old(queue), j)
      ensures ok == SendOnWire(old(View()), j).Some?
      ensures ok ==> View() == SendOnWire(old(View()), j).value
    {
      j := 0;
      if queue != [] {
        j := Top();
      }
      if now < nextAvailable {
        pending := pending + [nextAvailable];
        return true, j;
      }
      if queue == [] {
        return false, j;
      }
      var k := Top();
      j := k;
      sent := sent + [Sent(queue[k], now)];
      nextAvailable := now + queue[k].delay;
      queue := Without(queue, k);
      return true, j;
    }
  }

  const Boot := State(0, 0, [], [], [])

  // ---- runs -----------------------------------------------------------------------

  datatype Step =
    | Tick(to: nat)
    | Schedule(id: nat, sendDelay: nat, transmissionDelay: nat)
    | Fire(k: nat, top: nat)

  // Time passes up to the next event; events fire at their times.
  predicate Enabled(s: State, step: Step) {
    match step
    case Tick(to) => s.now <= to && forall i :: 0 <= i < |s.pending| ==> to <= s.pending[i]
    case Schedule(_, _, _) => true
    case Fire(k, top) => k < |s.pending| && s.pending[k] == s.now && (s.queue != [] ==> IsTop(s.queue, top))
  }

  function Next(s: State, step: Step): Option<State>
    requires Enabled(s, step)
  {
    match step
    case Tick(to) => Some(s.(now := to))
    case Schedule(id, sendDelay, transmissionDelay) => Some(ScheduleSend(s, id, sendDelay, transmissionDelay))
    case Fire(k, top) => SendOnWire(s.(pending := Without(s.pending, k)), top)
  }

  // ---- the invariant ----------------------------------------------------------------

  // Events, and signals, due by time t.
  function EventsBy(pending: seq<nat>, t: nat): nat {
    if pending == [] then 0 else EventsBy(pending[1..], t) + if pending[0] <= t then 1 else 0
  }

  function SignalsBy(queue: seq<Signal>, t: nat): nat {
    if queue == [] then 0 else SignalsBy(queue[1..], t) + if queue[0].scheduled <= t then 1 else 0
  }

  lemma {:induction false} EventsAppend(pending: seq<nat>, x: nat, t: nat)
    ensures EventsBy(pending + [x], t) == EventsBy(pending, t) + if x <= t then 1 else 0
  {
    if pending != [] {
      assert (pending + [x])[1..] == pending[1..] + [x];
      EventsAppend(pending[1..], x, t);
    }
  }

  lemma {:induction false} EventsRemove(pending: seq<nat>, k: nat, t: nat)
    requires k < |pending|
    ensures EventsBy(pending, t) == EventsBy(Without(pending, k), t) + if pending[k] <= t then 1 else 0
  {
    if k == 0 {
      assert Without(pending, 0) == pending[1..];
    } else {
      assert Without(pending, k)[1..] == Without(pending[1..], k - 1);
      EventsRemove(pending[1..], k - 1, t);
    }
  }

  lemma {:induction false} EventsNone(pending: seq<nat>, t: nat)
    requires forall i :: 0 <= i < |pending| ==> t < pending[i]
    ensures EventsBy(pending, t) == 0
  {
    if pending != [] {
      EventsNone(pending[1..], t);
    }
  }

  lemma {:induction false} SignalsAppend(queue: seq<Signal>, x: Signal, t: nat)
    ensures SignalsBy(queue + [x], t) == SignalsBy(queue, t) + if x.scheduled <= t then 1 else 0
  {
    if queue != [] {
      assert (queue + [x])[1..] == queue[1..] + [x];
      SignalsAppend(queue[1..], x, t);
    }
  }

  lemma {:induction false} SignalsRemove(queue: seq<Signal>, k: nat, t: nat)
    requires k < |queue|
    ensures SignalsBy(queue, t) == SignalsBy(Without(queue, k), t) + if queue[k].scheduled <= t then 1 else 0
  {
    if k == 0 {
      assert Without(queue, 0) == queue[1..];
    } else {
      assert Without(queue, k)[1..] == Without(queue[1..], k - 1);
      SignalsRemove(queue[1..], k - 1, t);
    }
  }

  // If a signal is due, so is the one at the top.
  lemma {:induction false} SomeDue(queue: seq<Signal>, t: nat) returns (i: nat)
    requires SignalsBy(queue, t) > 0
    ensures i < |queue| && queue[i].scheduled <= t
  {
    if queue[0].scheduled <= t {
      i := 0;
    } else {
      var j := SomeDue(queue[1..], t);
      i := j + 1;
    }
  }

  // Signals went out no earlier than scheduled, one transmission after the other.
  ghost predicate LogOk(sent: seq<Sent>, nextAvailable: nat, now: nat) {
    && (forall i :: 0 <= i < |sent| ==> sent[i].signal.scheduled <= sent[i].at <= now)
    && (forall i :: 0 <= i < |sent| - 1 ==> sent[i].at + sent[i].signal.delay <= sent[i + 1].at)
    && (sent != [] ==> nextAvailable == sent[|sent| - 1].at + sent[|sent| - 1].signal.delay)
  }

  // By any time no more events are due than signals.
  ghost predicate Covered(s: State) { forall t: nat :: EventsBy(s.pending, t) <= SignalsBy(s.queue, t) }

  ghost predicate Inv(s: State) {
    && |s.pending| == |s.queue|
    && (forall i :: 0 <= i < |s.pending| ==> s.now <= s.pending[i])
    && Covered(s)
    && LogOk(s.sent, s.nextAvailable, s.now)
  }

  lemma ScheduleKeeps(s: State, id: nat, sendDelay: nat, transmissionDelay: nat)
    requires Inv(s)
    ensures Inv(ScheduleSend(s, id, sendDelay, transmissionDelay))
  {
    var s' := ScheduleSend(s, id, sendDelay, transmissionDelay);
    forall t: nat
      ensures EventsBy(s'.pending, t) <= SignalsBy(s'.queue, t)
    {
      EventsAppend(s.pending, s'.pending[|s.pending|], t);
      SignalsAppend(s.queue, s'.queue[|s.queue|], t);
      assert EventsBy(s.pending, t) <= SignalsBy(s.queue, t);
    }
  }

  // A wake-up while the channel is busy only moves the event.
  lemma RetryKeeps(s: State, k: nat, top: nat)
    requires Inv(s) && Enabled(s, Fire(k, top)) && s.now < s.nextAvailable
    ensures var r := Next(s, Fire(k, top)); r.Some? && Inv(r.value) && r.value.sent == s.sent
  {
    var s' := Next(s, Fire(k, top)).value;
    forall t: nat
      ensures EventsBy(s'.pending, t) <= SignalsBy(s'.queue, t)
    {
      EventsRemove(s.pending, k, t);
      EventsAppend(Without(s.pending, k), s.nextAvailable, t);
      assert EventsBy(s.pending, t) <= SignalsBy(s.queue, t);
    }
  }

  // A wake-up on a free channel finds a signal that is due.
  lemma TopIsDue(s: State, k: nat, top: nat)
    requires Inv(s) && Enabled(s, Fire(k, top))
    ensures s.queue != [] && s.queue[top].scheduled <= s.now
  {
    EventsRemove(s.pending, k, s.now);
    assert EventsBy(s.pending, s.now) <= SignalsBy(s.queue, s.now);
    var i := SomeDue(s.queue, s.now);
  }

  lemma SendKeeps(s: State, k: nat, top: nat)
    requires Inv(s) && Enabled(s, Fire(k, top)) && s.now >= s.nextAvailable
    ensures var r := Next(s, Fire(k, top));
            r.Some? && Inv(r.value) && s.queue != [] && r.value.sent == s.sent + [Sent(s.queue[top], s.now)]
  {
    TopIsDue(s, k, top);
    var s' := Next(s, Fire(k, top)).value;
    forall t: nat
      ensures EventsBy(s'.pending, t) <= SignalsBy(s'.queue, t)
    {
      EventsRemove(s.pending, k, t);
      SignalsRemove(s.queue, top, t);
      assert EventsBy(s.pending, t) <= SignalsBy(s.queue, t);
      if t < s.now {
        EventsNone(s.pending, t);
      }
    }
  }

  lemma Keeps(s: State, step: Step)
    requires Inv(s) && Enabled(s, step)
    ensures Next(s, step).Some? && Inv(Next(s, step).value)
  {
    match step
    case Tick(to) =>
    case Schedule(id, sendDelay, transmissionDelay) => ScheduleKeeps(s, id, sendDelay, transmissionDelay);
    case Fire(k, top) =>
      if s.now < s.nextAvailable {
        RetryKeeps(s, k, top);
      } else {
        SendKeeps(s, k, top);
      }
  }

  // ---- whole runs -----------------------------------------------------------------------

  datatype History = Start | After(before: History, step: Step)

  function Reach(h: History): Option<State> {
    match h
    case Start => Some(Boot)
    case After(before, step) =>
      var s := Reach(before);
      if s.None? || !Enabled(s.value, step) then None else Next(s.value, step)
  }

  predicate Legal(h: History) {
    match h
    case Start => true
    case After(before, step) => Legal(before) && (Reach(before).Some? ==> Enabled(Reach(before).value, step))
  }

  // All signals given to the channel, in order.
  function Given(h: History): seq<Signal> {
    match h
    case Start => []
    case After(before, step) =>
      if step.Schedule? && Reach(before).Some?
      then Given(before) + [Signal(step.id, Reach(before).value.now + step.sendDelay, step.transmissionDelay)]
      else Given(before)
  }

  function Signals(sent: seq<Sent>): seq<Signal> {
    if sent == [] then [] else Signals(sent[..|sent| - 1]) + [sent[|sent| - 1].signal]
  }

  // A step moves a signal from the queue to the log, or adds a new one.
  lemma StepConserves(s: State, step: Step)
    requires Enabled(s, step) && Next(s, step).Some?
    ensures var s' := Next(s, step).value;
            multiset(Signals(s'.sent)) + multiset(s'.queue) ==
            multiset(Signals(s.sent)) + multiset(s.queue) +
            if step.Schedule? then multiset{Signal(step.id, s.now + step.sendDelay, step.transmissionDelay)} else multiset{}
  {
    hide Signals, Without;
    if step.Fire? && s.now >= s.nextAvailable {
      MoveConserves(s.sent, s.queue, step.top, s.now);
    }
  }

  lemma MoveConserves(sent: seq<Sent>, queue: seq<Signal>, k: nat, now: nat)
    requires k < |queue|
    ensures multiset(Signals(sent + [Sent(queue[k], now)])) + multiset(Without(queue, k)) ==
            multiset(Signals(sent)) + multiset(queue)
  {
    WithoutElements(queue, k);
    hide Without;
    assert (sent + [Sent(queue[k], now)])[..|sent|] == sent;
  }

  // In every run no wake-up finds the queue empty; no signal goes out before its
  // scheduled time or before the one ahead of it has left the channel; and every
  // signal given is either still queued or went out, once.
  lemma {:induction false} ChannelSafe(h: History)
    requires Legal(h)
    ensures Reach(h).Some? && Inv(Reach(h).value)
    ensures multiset(Given(h)) == multiset(Signals(Reach(h).value.sent)) + multiset(Reach(h).value.queue)
  {
    BootSafe();
    hide Inv, Next, Enabled, Signals;
    match h
    case Start =>
    case After(before, step) =>
      ChannelSafe(before);
      Keeps(Reach(before).value, step);
      StepConserves(Reach(before).value, step);
      GivenStep(before, step);
      hide Given;
  }

  lemma GivenStep(before: History, step: Step)
    requires Reach(before).Some?
    ensures multiset(Given(After(before, step))) ==
            multiset(Given(before)) +
            if step.Schedule?
            then multiset{Signal(step.id, Reach(before).value.now + step.sendDelay, step.transmissionDelay)}
            else multiset{}
  {
    hide Next, Enabled;
  }

  lemma BootSafe()
    ensures Inv(Boot) && Signals(Boot.sent) == []
  {
  }

  // ---- on time -------------------------------------------------------------------------------

  // Once the channel is free, by any time just as many events are due as signals; and
  // nothing queued could have gone out before now.
  ghost predicate Prompt(s: State) {
    && (forall t: nat :: s.nextAvailable <= t ==> EventsBy(s.pending, t) == SignalsBy(s.queue, t))
    && (forall i :: 0 <= i < |s.queue| ==> s.now <= Max(s.queue[i].scheduled, s.nextAvailable))
    && (s.sent == [] ==> s.nextAvailable == 0)
  }

  // When the n-th transmission is over.
  function End(sent: seq<Sent>, n: nat): nat
    requires n <= |sent|
  {
    if n == 0 then 0 else sent[n - 1].at + sent[n - 1].signal.delay
  }

  // Each signal went out at its scheduled time, or when the one ahead of it was through.
  ghost predicate OnTime(sent: seq<Sent>) {
    forall i :: 0 <= i < |sent| ==> sent[i].at == Max(sent[i].signal.scheduled, End(sent, i))
  }

  lemma {:induction false} SignalsNone(queue: seq<Signal>, t: nat)
    requires SignalsBy(queue, t) == 0
    ensures forall i :: 0 <= i < |queue| ==> t < queue[i].scheduled
  {
    if queue != [] {
      SignalsNone(queue[1..], t);
      forall i | 0 <= i < |queue|
        ensures t < queue[i].scheduled
      {
        assert i > 0 ==> queue[i] == queue[1..][i - 1];
      }
    }
  }

  lemma TickPrompt(s: State, to: nat)
    requires Prompt(s) && Enabled(s, Tick(to))
    ensures Prompt(s.(now := to))
  {
    if s.now < to && s.nextAvailable < to {
      EventsNone(s.pending, to - 1);
      assert EventsBy(s.pending, to - 1) == SignalsBy(s.queue, to - 1);
      SignalsNone(s.queue, to - 1);
    }
  }

  lemma SchedulePrompt(s: State, id: nat, sendDelay: nat, transmissionDelay: nat)
    requires Prompt(s)
    ensures Prompt(ScheduleSend(s, id, sendDelay, transmissionDelay))
  {
    var s' := ScheduleSend(s, id, sendDelay, transmissionDelay);
    forall t: nat | s.nextAvailable <= t
      ensures EventsBy(s'.pending, t) == SignalsBy(s'.queue, t)
    {
      EventsAppend(s.pending, s'.pending[|s.pending|], t);
      SignalsAppend(s.queue, s'.queue[|s.queue|], t);
      assert EventsBy(s.pending, t) == SignalsBy(s.queue, t);
    }
  }

  lemma RetryPrompt(s: State, k: nat, top: nat)
    requires Prompt(s) && Enabled(s, Fire(k, top)) && s.now < s.nextAvailable
    ensures var r := Next(s, Fire(k, top)); r.Some? && Prompt(r.value) && r.value.sent == s.sent
  {
    var s' := Next(s, Fire(k, top)).value;
    forall t: nat | s.nextAvailable <= t
      ensures EventsBy(s'.pending, t) == SignalsBy(s'.queue, t)
    {
      EventsRemove(s.pending, k, t);
      EventsAppend(Without(s.pending, k), s.nextAvailable, t);
      assert EventsBy(s.pending, t) == SignalsBy(s.queue, t);
    }
  }

  lemma SendPrompt(s: State, k: nat, top: nat)
    requires Inv(s) && Prompt(s) && Enabled(s, Fire(k, top)) && s.now >= s.nextAvailable && OnTime(s.sent)
    ensures var r := Next(s, Fire(k, top)); r.Some? && Prompt(r.value) && OnTime(r.value.sent)
  {
    hide OnTime;
    TopIsDue(s, k, top);
    var s' := Next(s, Fire(k, top)).value;
    forall t: nat | s'.nextAvailable <= t
      ensures EventsBy(s'.pending, t) == SignalsBy(s'.queue, t)
    {
      EventsRemove(s.pending, k, t);
      SignalsRemove(s.queue, top, t);
      assert EventsBy(s.pending, t) == SignalsBy(s.queue, t);
    }
    hide EventsBy, SignalsBy;
    SentOnTime(s.sent, Sent(s.queue[top], s.now));
  }

  lemma SentOnTime(sent: seq<Sent>, x: Sent)
    requires OnTime(sent) && x.at == Max(x.signal.scheduled, End(sent, |sent|))
    ensures OnTime(sent + [x])
  {
    forall i | 0 <= i < |sent + [x]|
      ensures (sent + [x])[i].at == Max((sent + [x])[i].signal.scheduled, End(sent + [x], i))
    {
      assert End(sent + [x], i) == End(sent, i);
    }
  }

  // In every run each signal goes out at the first moment it can: at its scheduled time,
  // or when the one ahead of it is through.
  lemma {:induction false} RunsOnTime(h: History)
    requires Legal(h)
    ensures Reach(h).Some? && Prompt(Reach(h).value) && OnTime(Reach(h).value.sent)
  {
    match h
    case Start =>
    case After(before, step) =>
      hide Inv, Enabled, Prompt, OnTime, Given, Signals;
      RunsOnTime(before);
      ChannelSafe(before);
      var s := Reach(before).value;
      match step
      case Tick(to) => TickPrompt(s, to);
      case Schedule(id, sendDelay, transmissionDelay) => SchedulePrompt(s, id, sendDelay, transmissionDelay);
      case Fire(k, top) =>
        hide Next;
        if s.now < s.nextAvailable {
          RetryPrompt(s, k, top);
        } else {
          SendPrompt(s, k, top);
        }
  }

  // And before time moves on, each signal that is due by then waits for one that is still
  // in the channel.
  lemma NeverIdle(h: History, to: nat, i: nat)
    requires Legal(h) && Reach(h).Some?
    requires var s := Reach(h).value;
             s.now < to && Enabled(s, Tick(to)) && i < |s.queue| && s.queue[i].scheduled < to
    ensures var sent := Reach(h).value.sent; sent != [] && to <= End(sent, |sent|)
  {
    RunsOnTime(h);
    ChannelSafe(h);
    hide Reach, Given, Signals;
    TickPrompt(Reach(h).value, to);
  }

  // ---- draining -----------------------------------------------------------------------------

  // Wake-ups that will find the channel busy.
  function Early(pending: seq<nat>, t: nat): nat { if t == 0 then 0 else EventsBy(pending, t - 1) }

  function Work(s: State): nat { |s.queue| * |s.queue| + Early(s.pending, s.nextAvailable) }

  lemma {:induction false} EventsBound(pending: seq<nat>, t: nat)
    ensures EventsBy(pending, t) <= |pending|
  {
    if pending != [] {
      EventsBound(pending[1..], t);
    }
  }

  lemma Squares(n: nat)
    requires n > 0
    ensures (n - 1) * (n - 1) + (n - 1) < n * n
  {
  }

  lemma FireWorks(s: State, k: nat, top: nat)
    requires Inv(s) && Enabled(s, Fire(k, top))
    ensures Next(s, Fire(k, top)).Some? && Work(Next(s, Fire(k, top)).value) < Work(s)
  {
    if s.now < s.nextAvailable {
      hide Inv;
      EventsRemove(s.pending, k, s.nextAvailable - 1);
      EventsAppend(Without(s.pending, k), s.nextAvailable, s.nextAvailable - 1);
    } else {
      TopIsDue(s, k, top);
      var s' := Next(s, Fire(k, top)).value;
      assert |s'.pending| == |s'.queue| == |s.queue| - 1;
      hide Inv, EventsBy, Next;
      if s'.nextAvailable > 0 {
        EventsBound(s'.pending, s'.nextAvailable - 1);
      }
      Squares(|s.queue|);
    }
  }

  // States connected by fires and the passing of time only.
  ghost predicate Runs(states: seq<State>, steps: seq<Step>) {
    && |states| == |steps| + 1
    && forall i :: 0 <= i < |steps| ==>
         !steps[i].Schedule? && Enabled(states[i], steps[i]) && Next(states[i], steps[i]) == Some(states[i + 1])
  }

  function Fires(steps: seq<Step>): nat {
    if steps == [] then 0 else Fires(steps[..|steps| - 1]) + if steps[|steps| - 1].Fire? then 1 else 0
  }

  // Once nothing new is given, n queued signals are out after at most n * n + n
  // wake-ups, and while one is queued a wake-up is pending.
  lemma {:induction false} Drains(states: seq<State>, steps: seq<Step>)
    requires Runs(states, steps) && Inv(states[0])
    ensures var last := states[|steps|];
            && Inv(last)
            && Fires(steps) + Work(last) <= Work(states[0]) <= |states[0].queue| * |states[0].queue| + |states[0].queue|
            && (last.queue != [] <==> last.pending != [])
    decreases |steps|
  {
    if states[0].nextAvailable > 0 {
      EventsBound(states[0].pending, states[0].nextAvailable - 1);
    }
    if steps != [] {
      var n := |steps| - 1;
      Drains(states[..n + 1], steps[..n]);
      Keeps(states[n], steps[n]);
      if steps[n].Fire? {
        FireWorks(states[n], steps[n].k, steps[n].top);
      }
    }
  }
}
