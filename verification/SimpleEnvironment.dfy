// The simulation clock and event queue. Events run in the order of their times and,
// at equal times, of their ids; RunUntil and RunFor pause the run with an event of
// their own whose id is larger than any other.
module SimpleEnvironment {
  import opened Common

  const PAUSE: nat := 0xFFFF_FFFF_FFFF_FFFF

  datatype Event = Event(time: nat, id: nat)
  {
    predicate IsPause() { id == PAUSE }
  }

  // What callbacks can do to the environment.
  datatype Action = Schedule(delay: nat) | Stop

  datatype Env = Env(now: nat, scheduled: nat, queue: seq<Event>, stopped: bool, executed: seq<Event>)

  predicate Before(a: Event, b: Event) { a.time < b.time || (a.time == b.time && a.id < b.id) }

  // No event in the queue comes before it.
  predicate IsTop(queue: seq<Event>, j: nat) {
    j < |queue| && forall i :: 0 <= i < |queue| ==> !Before(queue[i], queue[j])
  }

  function Perform(e: Env, action: Action): Env {
    match action
    case Schedule(delay) => e.(scheduled := e.scheduled + 1, queue := e.queue + [Event(e.now + delay, e.scheduled + 1)])
    case Stop => e.(stopped := true)
  }

  function PerformAll(e: Env, actions: seq<Action>): Env
    decreases |actions|
  {
    if actions == [] then e else PerformAll(Perform(e, actions[0]), actions[1..])
  }

  // One round of the loop in Run: `actions` is what the callback does.
  function Execute(e: Env, j: nat, actions: seq<Action>): Env
    requires j < |e.queue|
  {
    var event := e.queue[j];
    PerformAll(e.(now := event.time, queue := Without(e.queue, j), executed := e.executed + [event]), actions)
  }

  // What RunUntil(deadline) and RunFor(deadline - now) do before they run.
  function Pause(e: Env, deadline: nat): Env {
    e.(queue := e.queue + [Event(deadline, PAUSE)], stopped := false)
  }

  class Environment {
    var now: nat
    var scheduled: nat
    var queue: seq<Event>
    var stopped: bool
    var executed: seq<Event>

    function View(): Env
      reads this
    {
      Env(now, scheduled, queue, stopped, executed)
    }

    constructor ()
      ensures View() == Boot
    {
      now, scheduled, queue, stopped, executed := 0, 0, [], false, [];
    }

    method ScheduleEvent(delay: nat)
      modifies this
      ensures View() == Perform(old(View()), Schedule(delay))
    {
      scheduled := scheduled + 1;
      queue := queue + [Event(now + delay, scheduled)];
    }

    // The top of the priority queue.
    method Top() returns (j: nat)
      requires queue != []
      ensures IsTop(queue, j)
    {
      j := 0;
      var i := 1;
      while i < |queue|
        invariant 0 <= j < i <= |queue|
        invariant forall m :: 0 <= m < i ==> !Before(queue[m], queue[j])
      {
        if Before(queue[i], queue[j]) {
          j := i;
        }
        i := i + 1;
      }
    }

    // At most `rounds` rounds of the loop in Run, with callbacks that act as given by
    // `script`, round by round.
    method Run(rounds: nat, script: nat -> seq<Action>) returns (n: nat, ghost tops: seq<nat>)
      modifies this
      ensures n == |tops| <= rounds
      ensures Follows(old(View()), tops, script) && View() == RunsTo(old(View()), tops, script)
      ensures n < rounds ==> stopped || queue == []
    {
      hide IsTop, PerformAll, RunsTo, Follows;
      n, tops := 0, [];
      RunsNone(View(), script);
      while n < rounds && !stopped && queue != []
        invariant n == |tops| <= rounds
        invariant Follows(old(View()), tops, script) && View() == RunsTo(old(View()), tops, script)
        decreases rounds - n
      {
        var j := Top();
        assert j < |queue| by { TopThere(queue, j); }
        RunsOne(old(View()), tops, script, j);
        var event := queue[j];
        now := event.time;
        executed := executed + [event];
        queue := Without(queue, j);
        Call(if event.IsPause() then [Stop] else script(n));
        n, tops := n + 1, tops + [j];
      }
    }

    // A callback.
    method Call(actions: seq<Action>)
      modifies this
      ensures View() == PerformAll(old(View()), actions)
    {
      var i := 0;
      while i < |actions|
        invariant 0 <= i <= |actions|
        invariant PerformAll(View(), actions[i..]) == PerformAll(old(View()), actions)
      {
        match actions[i] {
          case Schedule(delay) => ScheduleEvent(delay);
          case Stop => stopped := true;
        }
        i := i + 1;
      }
    }
  }

  // The callback of round n is what the script says, except for a pause.
  function Actions(e: Env, j: nat, script: nat -> seq<Action>, n: nat): seq<Action>
    requires j < |e.queue|
  {
    if e.queue[j].IsPause() then [Stop] else script(n)
  }

  // Rounds of the loop that take these tops of the queue.
  function RunsTo(e: Env, tops: seq<nat>, script: nat -> seq<Action>): Env
    decreases |tops|
  {
    if tops == [] then e
    else
      var n := |tops| - 1;
      var e1 := RunsTo(e, tops[..n], script);
      if tops[n] < |e1.queue| then Execute(e1, tops[n], Actions(e1, tops[n], script, n)) else e1
  }

  predicate Follows(e: Env, tops: seq<nat>, script: nat -> seq<Action>)
    decreases |tops|
  {
    tops == [] ||
    (var n := |tops| - 1;
     && Follows(e, tops[..n], script)
     && var e1 := RunsTo(e, tops[..n], script);
     !e1.stopped && IsTop(e1.queue, tops[n]))
  }

  lemma TopThere(queue: seq<Event>, j: nat)
    requires IsTop(queue, j)
    ensures j < |queue|
  {
  }

  lemma RunsNone(e: Env, script: nat -> seq<Action>)
    ensures Follows(e, [], script) && RunsTo(e, [], script) == e
  {
  }

  // One more round.
  lemma RunsOne(e: Env, tops: seq<nat>, script: nat -> seq<Action>, j: nat)
    requires Follows(e, tops, script)
    requires var e1 := RunsTo(e, tops, script); !e1.stopped && IsTop(e1.queue, j)
    ensures var e1 := RunsTo(e, tops, script);
            && Follows(e, tops + [j], script)
            && RunsTo(e, tops + [j], script) == Execute(e1, j, Actions(e1, j, script, |tops|))
  {
    hide IsTop;
    assert (tops + [j])[..|tops|] == tops;
    TopThere(RunsTo(e, tops, script).queue, j);
  }

  const Boot := Env(0, 0, [], false, [])

  // ---- the life of an environment -------------------------------------------------------

  // What happens to it: actions outside a run, the beginning of a run with a
  // deadline, and rounds of a run.
  datatype Step = Outside(action: Action) | Pausing(deadline: nat) | Round(j: nat, actions: seq<Action>)

  function Schedules(actions: seq<Action>): nat {
    if actions == [] then 0 else Schedules(actions[1..]) + if actions[0].Schedule? then 1 else 0
  }

  // Deadlines are not in the past, rounds take the top of the queue while the run is
  // not stopped, and there are fewer events than ids.
  predicate Enabled(e: Env, step: Step) {
    match step
    case Outside(action) => e.scheduled + 1 < PAUSE
    case Pausing(deadline) => deadline >= e.now
    case Round(j, actions) =>
      && !e.stopped && IsTop(e.queue, j) && e.scheduled + Schedules(actions) < PAUSE
      && (e.queue[j].IsPause() ==> actions == [Stop])
  }

  function Next(e: Env, step: Step): Env
    requires Enabled(e, step)
  {
    match step
    case Outside(action) => Perform(e, action)
    case Pausing(deadline) => Pause(e, deadline)
    case Round(j, actions) => Execute(e, j, actions)
  }

  // Events that were executed are in the past and come before those that were not.
  ghost predicate Inv(e: Env) {
    && e.scheduled < PAUSE
    && (forall x :: x in e.queue ==> e.now <= x.time && (x.IsPause() || x.id <= e.scheduled))
    && (forall x :: x in e.executed ==> x.time <= e.now && (x.IsPause() || x.id <= e.scheduled))
    && (forall x, y :: x in e.executed && y in e.queue && !x.IsPause() && !y.IsPause() ==> Before(x, y))
    && (forall i, j :: 0 <= i < j < |e.executed| && !e.executed[i].IsPause() && !e.executed[j].IsPause() ==>
          Before(e.executed[i], e.executed[j]))
    && (forall i, j :: 0 <= i < j < |e.queue| && !e.queue[i].IsPause() ==> e.queue[i].id != e.queue[j].id)
  }

  lemma PerformKeeps(e: Env, action: Action)
    requires Inv(e) && e.scheduled + 1 < PAUSE
    ensures Inv(Perform(e, action))
  {
    var e' := Perform(e, action);
    assert forall x :: x in e'.queue ==> x in e.queue || x == Event(e.now + action.delay, e.scheduled + 1);
  }

  lemma {:induction false} PerformAllKeeps(e: Env, actions: seq<Action>)
    requires Inv(e) && e.scheduled + Schedules(actions) < PAUSE
    ensures Inv(PerformAll(e, actions))
    decreases |actions|
  {
    if actions != [] {
      if actions[0].Schedule? {
        PerformKeeps(e, actions[0]);
      }
      PerformAllKeeps(Perform(e, actions[0]), actions[1..]);
    }
  }

  lemma TakeKeeps(e: Env, j: nat)
    requires Inv(e) && IsTop(e.queue, j)
    ensures Inv(e.(now := e.queue[j].time, queue := Without(e.queue, j), executed := e.executed + [e.queue[j]]))
  {
    var x := e.queue[j];
    var e' := e.(now := x.time, queue := Without(e.queue, j), executed := e.executed + [x]);
    forall y | y in e'.queue
      ensures y in e.queue && x.time <= y.time && (!x.IsPause() && !y.IsPause() ==> Before(x, y))
    {
      var i :| 0 <= i < |e'.queue| && e'.queue[i] == y;
      assert y == e.queue[if i < j then i else i + 1];
    }
    assert forall y :: y in e'.executed <==> y in e.executed || y == x;
  }

  lemma Keeps(e: Env, step: Step)
    requires Inv(e) && Enabled(e, step)
    ensures Inv(Next(e, step)) && e.now <= Next(e, step).now
  {
    match step
    case Outside(action) => PerformKeeps(e, action);
    case Pausing(deadline) =>
      assert forall x :: x in Pause(e, deadline).queue <==> x in e.queue || x == Event(deadline, PAUSE);
    case Round(j, actions) =>
      TakeKeeps(e, j);
      var e1 := e.(now := e.queue[j].time, queue := Without(e.queue, j), executed := e.executed + [e.queue[j]]);
      PerformAllKeeps(e1, actions);
      PerformAllTime(e1, actions);
  }

  lemma {:induction false} PerformAllTime(e: Env, actions: seq<Action>)
    ensures PerformAll(e, actions).now == e.now && PerformAll(e, actions).executed == e.executed
    decreases |actions|
  {
    if actions != [] {
      PerformAllTime(Perform(e, actions[0]), actions[1..]);
    }
  }

  datatype History = Start | After(before: History, step: Step)

  function Reach(h: History): Env {
    match h
    case Start => Boot
    case After(before, step) =>
      var e := Reach(before);
      if Enabled(e, step) then Next(e, step) else e
  }

  predicate Legal(h: History) {
    match h
    case Start => true
    case After(before, step) => Legal(before) && Enabled(Reach(before), step)
  }

  // In the whole life of an environment, the events that callers scheduled are
  // executed in strictly increasing order of time and id, every one still queued
  // comes after all that were executed, and the clock is never behind them.
  lemma {:induction false} ExecutedInOrder(h: History)
    requires Legal(h)
    ensures Inv(Reach(h))
  {
    match h
    case Start =>
    case After(before, step) =>
      ExecutedInOrder(before);
      Keeps(Reach(before), step);
  }

  predicate Extends(h: History, g: History) { h == g || (h.After? && Extends(h.before, g)) }

  lemma RoundLogs(e: Env, step: Step)
    requires Enabled(e, step)
    ensures e.executed <= Next(e, step).executed
  {
    if step.Round? {
      var e1 := e.(now := e.queue[step.j].time, queue := Without(e.queue, step.j),
                   executed := e.executed + [e.queue[step.j]]);
      PerformAllTime(e1, step.actions);
    }
  }

  // From any point of a run on, the clock does not go back and no execution is undone.
  lemma {:induction false} TimeNeverGoesBack(h: History, g: History)
    requires Legal(h) && Extends(h, g)
    ensures Reach(g).now <= Reach(h).now && Reach(g).executed <= Reach(h).executed
    decreases h
  {
    if h != g {
      TimeNeverGoesBack(h.before, g);
      ExecutedInOrder(h.before);
      hide Next, Enabled, Inv;
      Keeps(Reach(h.before), h.step);
      RoundLogs(Reach(h.before), h.step);
    }
  }

  // ---- nothing is lost ----------------------------------------------------------------------

  // The events a callback adds.
  function AddedBy(e: Env, actions: seq<Action>): multiset<Event>
    decreases |actions|
  {
    if actions == [] then multiset{}
    else
      (if actions[0].Schedule? then multiset{Event(e.now + actions[0].delay, e.scheduled + 1)} else multiset{})
      + AddedBy(Perform(e, actions[0]), actions[1..])
  }

  function Added(e: Env, step: Step): multiset<Event>
    requires Enabled(e, step)
  {
    match step
    case Outside(action) => AddedBy(e, [action])
    case Pausing(deadline) => multiset{Event(deadline, PAUSE)}
    case Round(j, actions) => AddedBy(e.(now := e.queue[j].time), actions)
  }

  // All events added in a run.
  function Given(h: History): multiset<Event> {
    match h
    case Start => multiset{}
    case After(before, step) =>
      var e := Reach(before);
      if Enabled(e, step) then Given(before) + Added(e, step) else Given(before)
  }

  lemma {:induction false} PerformAllAdds(e: Env, f: Env, actions: seq<Action>)
    requires f.now == e.now && f.scheduled == e.scheduled
    ensures multiset(PerformAll(e, actions).queue) == multiset(e.queue) + AddedBy(f, actions)
    ensures PerformAll(e, actions).executed == e.executed
    decreases |actions|
  {
    if actions != [] {
      PerformAllAdds(Perform(e, actions[0]), Perform(f, actions[0]), actions[1..]);
    }
  }

  lemma StepConserves(e: Env, step: Step)
    requires Enabled(e, step)
    ensures var e' := Next(e, step);
            multiset(e'.queue) + multiset(e'.executed) == multiset(e.queue) + multiset(e.executed) + Added(e, step)
  {
    hide AddedBy, Without;
    match step
    case Outside(action) =>
      assert PerformAll(e, [action]) == Perform(e, action);
      PerformAllAdds(e, e, [action]);
    case Pausing(deadline) =>
    case Round(j, actions) =>
      var e1 := e.(now := e.queue[j].time, queue := Without(e.queue, j), executed := e.executed + [e.queue[j]]);
      PerformAllAdds(e1, e.(now := e.queue[j].time), actions);
      WithoutElements(e.queue, j);
  }

  // Every event added is still queued or was executed, once.
  lemma {:induction false} NothingLost(h: History)
    requires Legal(h)
    ensures multiset(Reach(h).queue) + multiset(Reach(h).executed) == Given(h)
  {
    hide Next, Enabled, Added;
    match h
    case Start =>
    case After(before, step) =>
      NothingLost(before);
      StepConserves(Reach(before), step);
  }

  // ---- RunUntil -------------------------------------------------------------------------------

  lemma {:induction false} QuietCallback(e: Env, actions: seq<Action>)
    requires Stop !in actions
    ensures var e' := PerformAll(e, actions);
            && e'.stopped == e.stopped && e.queue <= e'.queue && e.scheduled <= e'.scheduled
            && forall x :: x in e'.queue ==> x in e.queue || e.scheduled < x.id <= e'.scheduled
    decreases |actions|
  {
    if actions != [] {
      var e1 := Perform(e, actions[0]);
      QuietCallback(e1, actions[1..]);
      assert forall x :: x in e1.queue ==> x in e.queue || x.id == e1.scheduled;
    }
  }

  // Where a run with deadline stands: not yet at any pause, or just after the earliest.
  ghost predicate Stands(start: seq<Event>, e: Env) {
    if !e.stopped then
      && (forall p :: p in start && p.IsPause() ==> p in e.queue)
      && (forall p :: p in e.queue && p.IsPause() ==> p in start)
    else
      && (exists p :: p in start && p.IsPause() && p.time == e.now)
      && (forall p :: p in start && p.IsPause() ==> e.now <= p.time)
      && (forall y :: y in e.queue ==> y.time > e.now || (y.time == e.now && y.IsPause()))
  }

  lemma PauseStands(start: seq<Event>, e: Env, j: nat)
    requires Stands(start, e) && !e.stopped && IsTop(e.queue, j) && e.queue[j].IsPause()
    requires forall x :: x in e.queue ==> x.id <= PAUSE
    ensures Stands(start, Execute(e, j, [Stop]))
  {
    var x := e.queue[j];
    var e1 := e.(now := x.time, queue := Without(e.queue, j), executed := e.executed + [x]);
    assert PerformAll(e1, [Stop]) == e1.(stopped := true);
    forall y | y in e1.queue
      ensures y.time > x.time || (y.time == x.time && y.IsPause())
    {
      assert y in e.queue && !Before(y, x);
    }
  }

  lemma RoundStands(start: seq<Event>, e: Env, j: nat, actions: seq<Action>)
    requires Stands(start, e) && !e.stopped && IsTop(e.queue, j) && !e.queue[j].IsPause() && Stop !in actions
    requires Execute(e, j, actions).scheduled < PAUSE
    ensures Stands(start, Execute(e, j, actions))
  {
    hide PerformAll, Before;
    var e1 := e.(now := e.queue[j].time, queue := Without(e.queue, j), executed := e.executed + [e.queue[j]]);
    QuietCallback(e1, actions);
    forall p | p in e.queue && p.IsPause()
      ensures p in e1.queue
    {
      var i :| 0 <= i < |e.queue| && e.queue[i] == p;
      assert p == e1.queue[if i < j then i else i - 1];
    }
    assert forall p :: p in e1.queue ==> p in e.queue;
  }

  lemma {:induction false} Grows(e: Env, actions: seq<Action>)
    ensures PerformAll(e, actions).scheduled == e.scheduled + Schedules(actions)
    decreases |actions|
  {
    if actions != [] {
      Grows(Perform(e, actions[0]), actions[1..]);
    }
  }

  lemma {:induction false} RunStands(e: Env, tops: seq<nat>, script: nat -> seq<Action>)
    requires Inv(e) && !e.stopped && Follows(e, tops, script) && RunsTo(e, tops, script).scheduled < PAUSE
    requires forall n :: Stop !in script(n)
    ensures Inv(RunsTo(e, tops, script)) && Stands(e.queue, RunsTo(e, tops, script))
    decreases |tops|
  {
    if tops != [] {
      var n := |tops| - 1;
      var e1 := RunsTo(e, tops[..n], script);
      var a := Actions(e1, tops[n], script, n);
      Grows(e1.(now := e1.queue[tops[n]].time, queue := Without(e1.queue, tops[n]),
                executed := e1.executed + [e1.queue[tops[n]]]), a);
      RunStands(e, tops[..n], script);
      Keeps(e1, Round(tops[n], a));
      assert forall x :: x in e1.queue ==> x.id <= PAUSE;
      hide Inv;
      if e1.queue[tops[n]].IsPause() {
        PauseStands(e.queue, e1, tops[n]);
      } else {
        RoundStands(e.queue, e1, tops[n], script(n));
      }
    }
  }

  // If no callback stops it, a run with a deadline ends with everything up to the
  // clock executed, and the clock is at the deadline exactly if no earlier pause was
  // left in the queue by a run that was stopped before its own deadline.
  lemma RunEndsAtDeadline(e: Env, deadline: nat, tops: seq<nat>, script: nat -> seq<Action>)
    requires Inv(e) && deadline >= e.now && Follows(Pause(e, deadline), tops, script)
    requires forall n :: Stop !in script(n)
    requires var e' := RunsTo(Pause(e, deadline), tops, script); e'.scheduled < PAUSE && (e'.stopped || e'.queue == [])
    ensures var e' := RunsTo(Pause(e, deadline), tops, script);
            && e'.stopped && e'.now <= deadline
            && (forall y :: y in e'.queue ==> y.time > e'.now || (y.time == e'.now && y.IsPause()))
            && (e'.now == deadline <==> forall p :: p in e.queue && p.IsPause() ==> p.time >= deadline)
  {
    var e1 := Pause(e, deadline);
    Keeps(e, Pausing(deadline));
    RunStands(e1, tops, script);
    assert Event(deadline, PAUSE) in e1.queue;
    assert forall x :: x in e1.queue <==> x in e.queue || x == Event(deadline, PAUSE);
    hide RunsTo, Follows, Inv;
  }

  // Run itself does not clear the flag: after a pause or a stop it executes nothing.
  lemma {:induction false} RunDoesNotResume(e: Env, tops: seq<nat>, script: nat -> seq<Action>)
    requires e.stopped && Follows(e, tops, script)
    ensures tops == []
    decreases |tops|
  {
    if tops != [] {
      RunDoesNotResume(e, tops[..|tops| - 1], script);
    }
  }
}
