// Runs of the work scheduler from boot in which something goes wrong: a read that
// takes more credits than there are, responses of a QP that has reached its outbound
// read depth, and a QP put back at the wrong time.
module SchedulerExamples {
  import opened Common
  import opened Sgl
  import opened FalconCredits
  import opened Scheduler
  import Work = SchedulerWork
  import TB = TokenBucket

  // Units of 64 and 128 bytes, one outbound read per QP and one response packet per QP.
  const UNITS := Units(64, 128, 4096)
  const LIMIT := Credit(8, 64, 8, 640, 1, 64)
  const RICH := Credit(100, 1000, 100, 1000, 100, 1000)
  const POOR := Credit(1, 14, 1, 32, 0, 0)

  function With(total: Credit): Config {
    Config(UNITS, 100000, 1, 0, 0, total, LIMIT, TB.Config(1, 1, 100000))
  }

  const LONG_READ := Op(Read, [8192], 0)
  const READ := Op(Read, [4096], 0)
  const WRITE := Op(Write, [1], 0)

  function NewQp(sends: seq<Op>): Qp { Qp(sends, [], LIMIT, Zero, false, false, 0, 0) }

  // A scheduler at time 0 that is not idle.
  function Busy(request: Lane, response: Lane, xoff: bool, ty: WorkType, credits: Credit, tokens: nat,
                ev: ChainEvent, qps: seq<Qp>): Sched
  {
    Sched(request, response, xoff, false, false, ty, credits, 0, TB.Bucket(tokens, 0), 0, [ev], [], qps)
  }

  const FreshLane: Lane := Lane([0], {0}, 100000, 8)

  lemma Extend(c: Config, h: History, s: Sched, step: Step)
    requires Sane(c) && Possible(c, h) && Reach(c, h) == Some(s) && s.bucket.last <= s.now && Enabled(c, s, step)
    ensures var h' := After(h, step);
            && Possible(c, h') && Reach(c, h') == Next(c, s, step)
            && (Legal(c, h) && DepthRespected(c, s, step) ==> Legal(c, h'))
  {
    hide Next, Enabled, DepthRespected;
  }

  // ---- what the operations cost ------------------------------------------------

  lemma Units64(n: nat)
    requires 1 <= n <= 64
    ensures CeilDiv(0, 64) == 0 && CeilDiv(n, 64) == 1
  {
    CeilDivMeans(n, 64, 1);
    CeilDivMeans(0, 64, 0);
  }

  lemma Costs()
    ensures RequestCredit(UNITS, LONG_READ) == Credit(1, 1, 1, 33, 0, 0)
    ensures RequestCredit(UNITS, READ) == Credit(1, 1, 1, 33, 0, 0)
    ensures RequestCredit(UNITS, WRITE) == Credit(1, 1, 1, 0, 0, 0)
    ensures ResponseCredit(UNITS, [1]) == Credit(0, 0, 0, 0, 1, 1)
    ensures MinimumRequestCredit(UNITS) == POOR && MinimumResponseCredit(UNITS) == Credit(0, 0, 0, 0, 1, 14)
  {
    hide CeilDiv;
    assert Total([8192]) == 8192 && Total([4096]) == 4096;
    Units64(8);
    CeilDivMeans(4120, 128, 33);
    CeilDivMeans(192, 64, 3);
    CeilDivMeans(642, 64, 11);
    CeilDivMeans(4096, 128, 32);
  }

  lemma Cuts(total: Credit)
    ensures Sane(With(total))
    ensures Cut([8192], 4096) == Piece([4096], [4096]) && Cut([4096], 4096) == Piece([4096], [])
    ensures Admissible(With(total), LONG_READ) && Admissible(With(total), READ) && Admissible(With(total), WRITE)
    ensures AdmissibleRead(With(total), [1])
    ensures Total([1]) == 1
  {
    assert [8192 - 4096] + [8192][1..] == [4096];
    assert Cut([], 0) == Piece([], []);
    assert [4096][1..] == [] && [1][1..] == [];
    assert [4096] + [] == [4096];
  }

  // ---- a read that wraps the receive buffer credits -------------------------------

  const W1: Sched := Boot(With(POOR)).(qps := [NewQp([])])
  const W2: Sched := Busy(FreshLane, EmptyLane, false, Request, POOR, 100000, LookupEvent(0), [NewQp([READ])])

  lemma PostAlone(total: Credit, others: seq<Qp>, op: Op)
    requires Leq(POOR, total) && op in {READ, LONG_READ}
    ensures var s := Boot(With(total)).(qps := [NewQp([])] + others);
            && Sane(With(total)) && Enabled(With(total), s, PostOp(0, op))
            && Next(With(total), s, PostOp(0, op))
               == Some(Busy(FreshLane, EmptyLane, false, Request, total, 100000, LookupEvent(0), [NewQp([op])] + others))
  {
    hide RequestCredit, MinimumRequestCredit, ResponseCredit, MinimumResponseCredit, Segmented, Total;
    Costs();
    Cuts(total);
    var qps := [NewQp([])] + others;
    assert [] + [op] == [op] && qps[0 := NewQp([op])] == [NewQp([op])] + others;
    assert [] + [0] == [0] && {} + {0} == {0} && [] + [LookupEvent(0)] == [LookupEvent(0)];
  }

  lemma SendWraps()
    ensures Sane(With(POOR)) && Enabled(With(POOR), W2, Fire(0))
    ensures var r := Next(With(POOR), W2, Fire(0)); r.Some? && r.value.credits == Credit(0, 13, 0, U32 - 1, 0, 0)
  {
    hide RequestCredit, MinimumRequestCredit, ResponseCredit, MinimumResponseCredit, Cut, Total;
    Costs();
    Cuts(POOR);
    assert [READ][1..] == [];
  }

  lemma Created(total: Credit)
    ensures var c := With(total);
            var h := After(Start, CreateQp(LIMIT));
            && Sane(c) && Legal(c, h) && Possible(c, h)
            && Reach(c, h) == Some(Boot(c).(qps := [NewQp([])]))
  {
    var c := With(total);
    Cuts(total);
    assert [] + [NewQp([])] == [NewQp([])];
    assert Legal(c, Start) && Possible(c, Start) && Reach(c, Start) == Some(Boot(c));
    hide Reach, Legal, Possible, Cut, Segmented, Total;
    Extend(c, Start, Boot(c), CreateQp(LIMIT));
  }

  // A run of three steps from boot whose one read, of a whole MTU, costs a credit more
  // than the minimum that was checked, and wraps the pool.
  lemma FullReadWraps()
    ensures var c := With(POOR);
            var h := After(After(After(Start, CreateQp(LIMIT)), PostOp(0, READ)), Fire(0));
            && Sane(c) && Legal(c, h) && Reach(c, h).Some?
            && Reach(c, h).value.credits.reqRxBuffer == U32 - 1
  {
    var c := With(POOR);
    assert [NewQp([])] + [] == [NewQp([])] && [NewQp([READ])] + [] == [NewQp([READ])];
    hide Next, Enabled, Reach, Legal, Possible, Cut, Segmented, Total;
    PostAlone(POOR, [], READ);
    SendWraps();
    Created(POOR);
    var h1 := After(Start, CreateQp(LIMIT));
    Extend(c, h1, W1, PostOp(0, READ));
    Extend(c, After(h1, PostOp(0, READ)), W2, Fire(0));
  }

  // ---- responses of a QP at its outbound read depth --------------------------------

  const RICH_CONFIG := With(RICH)

  // QP 0 with that many inbound reads left to answer, and the credits it uses.
  function Reads(n: nat): seq<seq<nat>> { seq(n, _ => [1]) }

  function Reader(op: Op, n: nat, usage: Credit, outbound: nat): Qp {
    Qp([op], Reads(n), LIMIT, usage, false, false, 0, outbound)
  }

  const Writer: Qp := NewQp([WRITE])
  const Spent: Lane := Lane([0], {0}, 0, 0)

  // After the read: what is left of it waits for its response.
  function Blocked(n: nat, responses: nat): Qp {
    Reader(READ, n, Credit(1, 1, 1, 33, responses, responses), 1)
  }

  function Left(responses: nat): Credit
    requires responses <= 3
  {
    Credit(99, 999, 99, 967, 100 - responses, 1000 - responses)
  }

  function Answered(request: Lane, responses: nat, ev: ChainEvent): Sched
    requires responses <= 3
  {
    Busy(request, if ev.RunEvent? then Spent else FreshLane, true, Response, Left(responses), 99956 - 25 * responses,
         ev, [Blocked(3 - responses, responses), Writer, Writer])
  }

  lemma AnswerRun(request: Lane, responses: nat)
    requires responses <= 2
    ensures var s := Answered(request, responses, RunEvent);
            && Sane(RICH_CONFIG) && Enabled(RICH_CONFIG, s, Fire(0))
            && Next(RICH_CONFIG, s, Fire(0)) == Some(Answered(request, responses, LookupEvent(0)))
  {
    hide RequestCredit, MinimumRequestCredit, ResponseCredit, MinimumResponseCredit, Segmented, Total;
    Costs();
    assert Without([RunEvent], 0) == [] && [] + [LookupEvent(0)] == [LookupEvent(0)];
  }

  // A response goes out and the request lane, not the response lane, loses its head.
  lemma AnswerSend(request: Lane, responses: nat)
    requires responses <= 2
    ensures var s := Answered(request, responses, LookupEvent(0));
            && Sane(RICH_CONFIG) && Enabled(RICH_CONFIG, s, Fire(0))
            && Next(RICH_CONFIG, s, Fire(0))
               == if request.queue == [] then None
                  else Some(Answered(Drop(request, 0), responses + 1, RunEvent))
  {
    hide RequestCredit, MinimumRequestCredit, ResponseCredit, MinimumResponseCredit, Segmented, Total, Cut, HasCredits, Leq;
    Costs();
    Cuts(RICH);
    assert Without([LookupEvent(0)], 0) == [] && [] + [RunEvent] == [RunEvent];
    var was, now := Blocked(3 - responses, responses), Blocked(2 - responses, responses + 1);
    assert [was, Writer, Writer][0 := now] == [now, Writer, Writer];
    assert Reads(3 - responses)[0] == [1] && Reads(3 - responses)[1..] == Reads(2 - responses);
  }

  function Waiting(n: nat, q1: Qp, q2: Qp): seq<Qp> { [Reader(LONG_READ, n, Zero, 0), q1, q2] }

  function Queued(request: Lane, n: nat, xoff: bool, q1: Qp, q2: Qp): Sched {
    Busy(request, if n == 0 then EmptyLane else Spent, xoff, Request, RICH, 100000, LookupEvent(0), Waiting(n, q1, q2))
  }

  lemma Inbound(n: nat)
    requires n < 3
    ensures var s := Queued(FreshLane, n, false, NewQp([]), NewQp([]));
            && Sane(RICH_CONFIG) && Enabled(RICH_CONFIG, s, InboundRead(0, [1]))
            && Next(RICH_CONFIG, s, InboundRead(0, [1]))
               == Some(Queued(FreshLane, n + 1, false, NewQp([]), NewQp([])))
  {
    hide RequestCredit, MinimumRequestCredit, ResponseCredit, MinimumResponseCredit, Segmented, Total, Cut;
    Costs();
    Cuts(RICH);
    assert Reads(n) + [[1]] == Reads(n + 1);
    assert [] + [0] == [0] && {} + {0} == {0};
    assert Waiting(n, NewQp([]), NewQp([]))[0 := Reader(LONG_READ, n + 1, Zero, 0)] == Waiting(n + 1, NewQp([]), NewQp([]));
  }

  const Two: Lane := Lane([0, 1], {0, 1}, 100000, 8)
  const Three: Lane := Lane([0, 1, 2], {0, 1, 2}, 100000, 8)

  lemma PostWrites()
    ensures Sane(RICH_CONFIG)
    ensures var s := Queued(FreshLane, 3, false, NewQp([]), NewQp([]));
            && Enabled(RICH_CONFIG, s, PostOp(1, WRITE))
            && Next(RICH_CONFIG, s, PostOp(1, WRITE)) == Some(Queued(Two, 3, false, Writer, NewQp([])))
    ensures var s := Queued(Two, 3, false, Writer, NewQp([]));
            && Enabled(RICH_CONFIG, s, PostOp(2, WRITE))
            && Next(RICH_CONFIG, s, PostOp(2, WRITE)) == Some(Queued(Three, 3, false, Writer, Writer))
  {
    hide RequestCredit, MinimumRequestCredit, ResponseCredit, MinimumResponseCredit, Segmented, Total, Cut;
    Costs();
    Cuts(RICH);
    assert [] + [WRITE] == [WRITE] && [0] + [1] == [0, 1] && [0, 1] + [2] == [0, 1, 2];
    assert {0} + {1} == {0, 1} && {0, 1} + {2} == {0, 1, 2};
    assert Waiting(3, NewQp([]), NewQp([]))[1 := Writer] == Waiting(3, Writer, NewQp([]));
    assert Waiting(3, Writer, NewQp([]))[2 := Writer] == Waiting(3, Writer, Writer);
  }

  lemma ZeroPlus(a: Credit)
    ensures Plus(Zero, a) == a
  {
  }

  lemma ReadPays()
    ensures Minus(RICH, Credit(1, 1, 1, 33, 0, 0)) == Left(0) && Leq(Credit(0, 0, 0, 0, 1, 14), Left(0))
  {
  }

  // The first half of the long read.
  lemma TakeRead(n: nat)
    ensures Sane(RICH_CONFIG)
    ensures Take(RICH_CONFIG, Reader(LONG_READ, n, Zero, 0), Request)
         == Taken(Reader(READ, n, Zero, 1), Credit(1, 1, 1, 33, 0, 0), 44, 1)
  {
    hide RequestCredit, Segmented, Total, Cut;
    Costs();
    Cuts(RICH);
    assert [LONG_READ][1..] == [] && [READ] + [] == [READ];
  }

  // The first half of the long read goes out, and QP 0 gives up its turn for the rest.
  lemma SendRead()
    ensures var s := Queued(Three, 3, true, Writer, Writer);
            && Sane(RICH_CONFIG) && Enabled(RICH_CONFIG, s, Fire(0))
            && Next(RICH_CONFIG, s, Fire(0)) == Some(Answered(Lane([1, 2], {1, 2}, 0, 0), 0, RunEvent))
  {
    hide RequestCredit, MinimumRequestCredit, ResponseCredit, MinimumResponseCredit, Take, HasCredits, Leq, Plus, Minus;
    Costs();
    ReadPays();
    ZeroPlus(Credit(1, 1, 1, 33, 0, 0));
    TakeRead(3);
    assert Waiting(3, Writer, Writer)[0 := Blocked(3, 0)] == [Blocked(3, 0), Writer, Writer];
    assert [0, 1, 2][1..] == [1, 2] && Three.members - {0} == {1, 2};
    assert Without([LookupEvent(0)], 0) == [] && [] + [RunEvent] == [RunEvent];
  }

  // ---- the run ----------------------------------------------------------------------

  const Setup: History :=
    After(After(After(After(Start, CreateQp(LIMIT)), CreateQp(LIMIT)), CreateQp(LIMIT)), PostOp(0, LONG_READ))

  const Arrivals: History :=
    After(After(After(Setup, InboundRead(0, [1])), InboundRead(0, [1])), InboundRead(0, [1]))

  const Blocking: History :=
    After(After(After(After(After(Arrivals, PostOp(1, WRITE)), PostOp(2, WRITE)), SetXoff(true, false)), Fire(0)), Fire(0))

  lemma SetupReached()
    ensures Sane(RICH_CONFIG) && Legal(RICH_CONFIG, Setup) && Possible(RICH_CONFIG, Setup)
    ensures Reach(RICH_CONFIG, Setup) == Some(Queued(FreshLane, 0, false, NewQp([]), NewQp([])))
  {
    var c, q := RICH_CONFIG, NewQp([]);
    var s1, s2, s3 := Boot(c).(qps := [q]), Boot(c).(qps := [q, q]), Boot(c).(qps := [q, q, q]);
    assert [q] + [q] == [q, q] && [q, q] + [q] == [q, q, q] && [q] + [q, q] == [q, q, q];
    assert Reads(0) == [] && [NewQp([LONG_READ])] + [q, q] == Waiting(0, q, q);
    Created(RICH);
    assert Next(c, s1, CreateQp(LIMIT)) == Some(s2) && Next(c, s2, CreateQp(LIMIT)) == Some(s3);
    hide Next, Enabled, Reach, Legal, Possible;
    PostAlone(RICH, [q, q], LONG_READ);
    var h := After(Start, CreateQp(LIMIT));
    Extend(c, h, s1, CreateQp(LIMIT));
    Extend(c, After(h, CreateQp(LIMIT)), s2, CreateQp(LIMIT));
    Extend(c, After(After(h, CreateQp(LIMIT)), CreateQp(LIMIT)), s3, PostOp(0, LONG_READ));
  }

  lemma ArrivalsReached()
    ensures Sane(RICH_CONFIG) && Legal(RICH_CONFIG, Arrivals) && Possible(RICH_CONFIG, Arrivals)
    ensures Reach(RICH_CONFIG, Arrivals) == Some(Queued(FreshLane, 3, false, NewQp([]), NewQp([])))
  {
    hide Next, Enabled, Reach, Legal, Possible;
    SetupReached();
    Inbound(0);
    Inbound(1);
    Inbound(2);
    var c, q, r := RICH_CONFIG, NewQp([]), InboundRead(0, [1]);
    Extend(c, Setup, Queued(FreshLane, 0, false, q, q), r);
    Extend(c, After(Setup, r), Queued(FreshLane, 1, false, q, q), r);
    Extend(c, After(After(Setup, r), r), Queued(FreshLane, 2, false, q, q), r);
  }

  const Both: Lane := Lane([1, 2], {1, 2}, 0, 0)

  lemma BlockingReached()
    ensures Sane(RICH_CONFIG) && Legal(RICH_CONFIG, Blocking) && Possible(RICH_CONFIG, Blocking)
    ensures Reach(RICH_CONFIG, Blocking) == Some(Answered(Both, 0, LookupEvent(0)))
  {
    var c, q := RICH_CONFIG, NewQp([]);
    var s3 := Queued(Three, 3, false, Writer, Writer);
    ArrivalsReached();
    assert Enabled(c, s3, SetXoff(true, false));
    assert Next(c, s3, SetXoff(true, false)) == Some(s3.(requestXoff := true));
    hide Next, Enabled, Reach, Legal, Possible, ReadBlocked;
    PostWrites();
    SendRead();
    AnswerRun(Both, 0);
    Extend(c, Arrivals, Queued(FreshLane, 3, false, q, q), PostOp(1, WRITE));
    var h1 := After(Arrivals, PostOp(1, WRITE));
    Extend(c, h1, Queued(Two, 3, false, Writer, q), PostOp(2, WRITE));
    var h2 := After(h1, PostOp(2, WRITE));
    Extend(c, h2, s3, SetXoff(true, false));
    var h3 := After(h2, SetXoff(true, false));
    Extend(c, h3, Queued(Three, 3, true, Writer, Writer), Fire(0));
    Extend(c, After(h3, Fire(0)), Answered(Both, 0, RunEvent), Fire(0));
  }

  // One more response, and the run event after it.
  lemma AnswerOnce(h: History, request: Lane, responses: nat)
    requires responses <= 2 && request.queue != [] && Sane(RICH_CONFIG) && Possible(RICH_CONFIG, h)
    requires Reach(RICH_CONFIG, h) == Some(Answered(request, responses, LookupEvent(0)))
    ensures var c, r, h1 := RICH_CONFIG, Drop(request, 0), After(h, Fire(0));
            && Reach(c, h1) == Some(Answered(r, responses + 1, RunEvent))
            && (responses < 2 ==>
                  && Possible(c, After(h1, Fire(0)))
                  && Reach(c, After(h1, Fire(0))) == Some(Answered(r, responses + 1, LookupEvent(0))))
  {
    hide Next, Enabled, Reach, Legal, Possible, DepthRespected, Answered, Drop;
    var r := Drop(request, 0);
    AnswerSend(request, responses);
    AnswerClock(request, responses, LookupEvent(0));
    Extend(RICH_CONFIG, h, Answered(request, responses, LookupEvent(0)), Fire(0));
    if responses < 2 {
      AnswerRun(r, responses + 1);
      AnswerClock(r, responses + 1, RunEvent);
      Extend(RICH_CONFIG, After(h, Fire(0)), Answered(r, responses + 1, RunEvent), Fire(0));
    }
  }

  lemma AnswerClock(request: Lane, responses: nat, ev: ChainEvent)
    requires responses <= 3
    ensures var s := Answered(request, responses, ev); s.bucket.last <= s.now
  {
  }

  const One: Lane := Lane([2], {1, 2}, 0, 0)
  const Emptied: Lane := Lane([], {1, 2}, 0, 0)

  const Response1: History := After(Blocking, Fire(0))
  const Response2: History := After(After(Response1, Fire(0)), Fire(0))
  const Response3: History := After(After(Response2, Fire(0)), Fire(0))

  lemma Drops()
    ensures Drop(Both, 0) == One && Drop(One, 0) == Emptied
  {
    assert [1, 2][1..] == [2] && [2][1..] == [] && {1, 2} - {0} == {1, 2};
  }

  lemma FirstReached()
    ensures Sane(RICH_CONFIG) && Possible(RICH_CONFIG, After(Response1, Fire(0)))
    ensures Reach(RICH_CONFIG, Response1) == Some(Answered(One, 1, RunEvent))
    ensures Reach(RICH_CONFIG, After(Response1, Fire(0))) == Some(Answered(One, 1, LookupEvent(0)))
  {
    hide Next, Enabled, Reach, Legal, Possible, DepthRespected, Answered, Drop, Sane;
    BlockingReached();
    Drops();
    AnswerOnce(Blocking, Both, 0);
  }

  lemma SecondReached()
    ensures Sane(RICH_CONFIG) && Possible(RICH_CONFIG, After(Response2, Fire(0)))
    ensures Reach(RICH_CONFIG, Response2) == Some(Answered(Emptied, 2, RunEvent))
    ensures Reach(RICH_CONFIG, After(Response2, Fire(0))) == Some(Answered(Emptied, 2, LookupEvent(0)))
  {
    hide Next, Enabled, Reach, Legal, Possible, DepthRespected, Answered, Drop, Sane;
    FirstReached();
    Drops();
    AnswerOnce(After(Response1, Fire(0)), One, 1);
  }

  lemma ThirdFails()
    ensures Sane(RICH_CONFIG) && Possible(RICH_CONFIG, Response3) && Reach(RICH_CONFIG, Response3) == None
  {
    hide Next, Enabled, Reach, Legal, Possible, DepthRespected, Answered, Drop, Sane;
    SecondReached();
    AnswerSend(Emptied, 2);
    AnswerClock(Emptied, 2, LookupEvent(0));
    Extend(RICH_CONFIG, After(Response2, Fire(0)), Answered(Emptied, 2, LookupEvent(0)), Fire(0));
  }

  // From a legal run, every further response of the blocked QP takes a QP off the request
  // lane that has nothing to do with it. After one response QP 1 is in the set of the
  // request lane but no longer in its deque. After two, QP 0 has used more response
  // packets than its limit. The third pops an empty deque.
  lemma DepthBranchExample()
    ensures var c := RICH_CONFIG;
            && Sane(c) && Legal(c, Blocking) && Possible(c, Response3)
            && var r1, r2 := Reach(c, Response1), Reach(c, Response2);
            && r1.Some? && 1 in r1.value.request.members && 1 !in r1.value.request.queue
            && r2.Some? && r2.value.qps != [] && !Leq(r2.value.qps[0].usage, r2.value.qps[0].limit)
            && Reach(c, Response3).None?
  {
    hide Reach, Legal, Possible;
    BlockingReached();
    FirstReached();
    SecondReached();
    ThirdFails();
  }

  // ---- the last response of a QP at its outbound read depth --------------------------

  // QP 0 by itself.
  function Alone(request: Lane, response: Lane, n: nat, responses: nat, ev: ChainEvent): Sched
    requires responses <= 3
  {
    Busy(request, response, false, Response, Left(responses), 99956 - 25 * responses, ev, [Blocked(n, responses)])
  }

  const Asked: Sched :=
    Busy(FreshLane, Spent, false, Request, RICH, 100000, LookupEvent(0), [Reader(LONG_READ, 1, Zero, 0)])

  lemma AskerPays()
    ensures Sane(RICH_CONFIG) && HasCredits(RICH_CONFIG, Reader(LONG_READ, 1, Zero, 0), Response)
  {
    hide RequestCredit, ResponseCredit, Leq, Plus;
    Cuts(RICH);
    Costs();
    ZeroPlus(Credit(0, 0, 0, 0, 1, 1));
    ResponseFits();
    assert |Reads(1)| == 1 && Reads(1)[0] == [1];
  }

  lemma ResponseFits()
    ensures Leq(Credit(0, 0, 0, 0, 1, 1), LIMIT)
  {
  }

  lemma AskedNext()
    ensures var s := Busy(FreshLane, EmptyLane, false, Request, RICH, 100000, LookupEvent(0), [NewQp([LONG_READ])]);
            && Sane(RICH_CONFIG) && Enabled(RICH_CONFIG, s, InboundRead(0, [1]))
            && Next(RICH_CONFIG, s, InboundRead(0, [1])) == Some(Asked)
  {
    hide HasCredits, Total;
    Cuts(RICH);
    AskerPays();
    assert [] + [[1]] == Reads(1) && [] + [0] == [0] && {} + {0} == {0};
    assert [NewQp([LONG_READ])][0 := Reader(LONG_READ, 1, Zero, 0)] == [Reader(LONG_READ, 1, Zero, 0)];
  }

  lemma AloneRead()
    ensures Sane(RICH_CONFIG) && Enabled(RICH_CONFIG, Asked, Fire(0))
    ensures Next(RICH_CONFIG, Asked, Fire(0)) == Some(Alone(EmptyLane, Spent, 1, 0, RunEvent))
  {
    hide RequestCredit, MinimumRequestCredit, ResponseCredit, MinimumResponseCredit, Take, HasCredits, Leq, Plus, Minus;
    Costs();
    ReadPays();
    ZeroPlus(Credit(1, 1, 1, 33, 0, 0));
    TakeRead(1);
    assert [Reader(LONG_READ, 1, Zero, 0)][0 := Blocked(1, 0)] == [Blocked(1, 0)];
    assert [0][1..] == [] && {0} - {0} == {};
    assert Without([LookupEvent(0)], 0) == [] && [] + [RunEvent] == [RunEvent];
  }

  // The notification lists the QP for the rest of its read.
  lemma AloneListed()
    ensures var s, step := Alone(EmptyLane, Spent, 1, 0, RunEvent), QpXoff(0, false, false);
            && Sane(RICH_CONFIG) && Enabled(RICH_CONFIG, s, step)
            && Next(RICH_CONFIG, s, step) == Some(Alone(Spent, Spent, 1, 0, RunEvent))
  {
    hide RequestCredit, MinimumRequestCredit, ResponseCredit, MinimumResponseCredit, Segmented, Total, Cut;
    Costs();
    Cuts(RICH);
    assert [Blocked(1, 0)][0 := Blocked(1, 0)] == [Blocked(1, 0)];
    assert [] + [0] == [0] && {} + {0} == {0};
  }

  lemma AloneRun(request: Lane, n: nat, responses: nat)
    requires responses <= 2
    ensures var s := Alone(request, Spent, n, responses, RunEvent);
            && Sane(RICH_CONFIG) && Enabled(RICH_CONFIG, s, Fire(0))
            && Next(RICH_CONFIG, s, Fire(0)) == Some(Alone(request, FreshLane, n, responses, LookupEvent(0)))
  {
    hide RequestCredit, MinimumRequestCredit, ResponseCredit, MinimumResponseCredit, Segmented, Total;
    Costs();
    assert Without([RunEvent], 0) == [] && [] + [LookupEvent(0)] == [LookupEvent(0)];
  }

  // The response leaves both lanes consistent but for the work it was listed for.
  lemma AloneSend()
    ensures var s := Alone(Spent, FreshLane, 1, 0, LookupEvent(0));
            && Sane(RICH_CONFIG) && Enabled(RICH_CONFIG, s, Fire(0))
            && Next(RICH_CONFIG, s, Fire(0)) == Some(Alone(EmptyLane, Spent, 0, 1, RunEvent))
  {
    hide RequestCredit, MinimumRequestCredit, ResponseCredit, MinimumResponseCredit, Segmented, Total, Cut, HasCredits,
         Leq;
    Costs();
    Cuts(RICH);
    assert Without([LookupEvent(0)], 0) == [] && [] + [RunEvent] == [RunEvent];
    assert [Blocked(1, 0)][0 := Blocked(0, 1)] == [Blocked(0, 1)];
    assert Reads(1)[0] == [1] && Reads(1)[1..] == Reads(0);
    assert [0][1..] == [] && {0} - {0} == {};
  }

  lemma AloneFails()
    ensures var s := Alone(EmptyLane, FreshLane, 0, 1, LookupEvent(0));
            Sane(RICH_CONFIG) && Enabled(RICH_CONFIG, s, Fire(0)) && Next(RICH_CONFIG, s, Fire(0)) == None
  {
    assert Reads(0) == [];
  }

  const Listed: History :=
    After(After(After(After(After(After(Start, CreateQp(LIMIT)), PostOp(0, LONG_READ)), InboundRead(0, [1])), Fire(0)),
                QpXoff(0, false, false)), Fire(0))

  lemma ListedReached()
    ensures Sane(RICH_CONFIG) && Legal(RICH_CONFIG, Listed) && Possible(RICH_CONFIG, Listed)
    ensures Reach(RICH_CONFIG, Listed) == Some(Alone(Spent, FreshLane, 1, 0, LookupEvent(0)))
  {
    var c, q := RICH_CONFIG, NewQp([]);
    assert [q] + [] == [q] && [NewQp([LONG_READ])] + [] == [NewQp([LONG_READ])];
    hide Next, Enabled, Reach, Legal, Possible, ReadBlocked;
    Created(RICH);
    PostAlone(RICH, [], LONG_READ);
    AskedNext();
    AloneRead();
    AloneListed();
    AloneRun(Spent, 1, 0);
    var h1 := After(Start, CreateQp(LIMIT));
    Extend(c, h1, Boot(c).(qps := [q]), PostOp(0, LONG_READ));
    var h2 := After(h1, PostOp(0, LONG_READ));
    Extend(c, h2, Busy(FreshLane, EmptyLane, false, Request, RICH, 100000, LookupEvent(0), [NewQp([LONG_READ])]),
           InboundRead(0, [1]));
    var h3 := After(h2, InboundRead(0, [1]));
    Extend(c, h3, Asked, Fire(0));
    var h4 := After(h3, Fire(0));
    Extend(c, h4, Alone(EmptyLane, Spent, 1, 0, RunEvent), QpXoff(0, false, false));
    Extend(c, After(h4, QpXoff(0, false, false)), Alone(Spent, Spent, 1, 0, RunEvent), Fire(0));
  }

  // A QP at its outbound read depth heads both lanes and answers its last inbound read.
  // The request lane still agrees with its set, but the QP stays in the response lane
  // without work, and its next turn there reads from an empty queue.
  lemma LastResponseExample()
    ensures var c := RICH_CONFIG;
            var h := After(Listed, Fire(0));
            && Sane(c) && Legal(c, Listed) && Possible(c, After(After(h, Fire(0)), Fire(0)))
            && var r := Reach(c, h);
            && r.Some? && r.value.request.queue == [] && r.value.request.members == {}
            && r.value.response.queue == [0] && r.value.qps != [] && !HasWork(r.value.qps[0], Response)
            && Leq(r.value.qps[0].usage, r.value.qps[0].limit)
            && Reach(c, After(After(h, Fire(0)), Fire(0))).None?
  {
    hide Next, Enabled, Reach, Legal, Possible, DepthRespected;
    var c, h := RICH_CONFIG, After(Listed, Fire(0));
    assert Reads(0) == [];
    ListedReached();
    AloneSend();
    AloneRun(EmptyLane, 0, 1);
    AloneFails();
    Extend(c, Listed, Alone(Spent, FreshLane, 1, 0, LookupEvent(0)), Fire(0));
    Extend(c, h, Alone(EmptyLane, Spent, 0, 1, RunEvent), Fire(0));
    Extend(c, After(h, Fire(0)), Alone(EmptyLane, FreshLane, 0, 1, LookupEvent(0)), Fire(0));
  }

  // ---- a QP put back at the wrong time --------------------------------------------------

  // Quanta for one transaction a turn.
  const TINY := RICH_CONFIG.(quanta := 1)

  const Paid: Credit := Credit(99, 999, 99, 1000, 100, 1000)
  const Turn: Lane := Lane([0], {0}, 1, 8)
  const Answers: Lane := Lane([1], {1}, 0, 0)

  const Used: Credit := Credit(1, 1, 1, 0, 0, 0)
  const Answer: Credit := Credit(0, 0, 0, 0, 1, 1)
  const Spare: Credit := Credit(99, 999, 99, 1000, 99, 999)

  function Sender(n: nat, usage: Credit): Qp { Qp(seq(n, _ => WRITE), [], LIMIT, usage, false, false, 0, 0) }

  function Asker(n: nat, usage: Credit): Qp { Qp([], Reads(n), LIMIT, usage, false, false, 0, 0) }

  function Tiny(request: Lane, response: Lane, ty: WorkType, credits: Credit, tokens: nat, ev: ChainEvent,
                adds: seq<AddEvent>, q0: Qp, q1: Qp): Sched
  {
    Sched(request, response, false, false, false, ty, credits, 0, TB.Bucket(tokens, 0), 0, [ev], adds, [q0, q1])
  }

  const T1: Sched := Boot(TINY).(qps := [Sender(0, Zero), Asker(0, Zero)])
  const T2: Sched :=
    Tiny(Turn, EmptyLane, Request, RICH, 100000, LookupEvent(0), [], Sender(1, Zero), Asker(0, Zero))
  const T3: Sched :=
    Tiny(Turn, EmptyLane, Request, RICH, 100000, LookupEvent(0), [], Sender(2, Zero), Asker(0, Zero))
  const T4: Sched :=
    Tiny(Turn, Answers, Request, RICH, 100000, LookupEvent(0), [], Sender(2, Zero), Asker(1, Zero))
  const T5: Sched :=
    Tiny(EmptyLane, Answers, Response, Paid, 99971, RunEvent, [AddBack(0, Request)], Sender(1, Used), Asker(1, Zero))
  const T6: Sched :=
    Tiny(EmptyLane, Answers, Response, Paid, 99971, RunEvent, [], Sender(1, Used), Asker(1, Zero))
  const T7: Sched :=
    Tiny(EmptyLane, Lane([1], {1}, 1, 8), Response, Paid, 99971, LookupEvent(1), [], Sender(1, Used), Asker(1, Zero))
  const T8: Sched :=
    Tiny(EmptyLane, EmptyLane, Response, Spare, 99946, RunEvent, [], Sender(1, Used), Asker(0, Answer))
  const T9: Sched := T8.(idle := true, chain := [])

  lemma TinySane()
    ensures Sane(TINY) && Admissible(TINY, WRITE) && AdmissibleRead(TINY, [1]) && Cut([1], 4096) == Piece([1], [])
  {
    Cuts(RICH);
    assert [1][1..] == [] && Cut([], 4095) == Piece([], []) && [1] + [] == [1];
  }

  lemma TinyPosts()
    ensures Sane(TINY)
    ensures Enabled(TINY, T1, PostOp(0, WRITE)) && Next(TINY, T1, PostOp(0, WRITE)) == Some(T2)
    ensures Enabled(TINY, T2, PostOp(0, WRITE)) && Next(TINY, T2, PostOp(0, WRITE)) == Some(T3)
  {
    hide RequestCredit, MinimumRequestCredit, ResponseCredit, MinimumResponseCredit, Segmented, Total, Cut, Admissible;
    TinySane();
    Costs();
    assert Sender(0, Zero).sendQueue + [WRITE] == Sender(1, Zero).sendQueue;
    assert Sender(1, Zero).sendQueue + [WRITE] == Sender(2, Zero).sendQueue;
    assert T1.qps[0 := Sender(1, Zero)] == T2.qps && T2.qps[0 := Sender(2, Zero)] == T3.qps;
    assert [] + [0] == [0] && {} + {0} == {0} && [] + [LookupEvent(0)] == [LookupEvent(0)];
  }

  lemma TinyPays()
    ensures Minus(RICH, Used) == Paid && Minus(Paid, Answer) == Spare && Leq(Credit(0, 0, 0, 0, 1, 14), Paid)
    ensures Leq(Plus(Used, Used), LIMIT) && Leq(Answer, LIMIT)
  {
  }

  lemma TinySums()
    ensures Leq(Plus(Used, Used), LIMIT) && Leq(Plus(Zero, Answer), LIMIT)
    ensures Plus(Zero, Used) == Used && Minus(RICH, Used) == Paid
    ensures Plus(Zero, Answer) == Answer && Minus(Paid, Answer) == Spare
    ensures Leq(Credit(0, 0, 0, 0, 1, 14), Paid)
  {
    hide Leq, Plus, Minus;
    TinyPays();
    ZeroPlus(Used);
    ZeroPlus(Answer);
  }

  // Who can afford what.
  lemma TinyCredits()
    ensures Sane(TINY)
    ensures HasCredits(TINY, Asker(1, Zero), Response) && !HasCredits(TINY, Asker(0, Answer), Response)
    ensures HasCredits(TINY, Sender(1, Used), Request) && !HasCredits(TINY, Sender(1, Used), Response)
  {
    hide RequestCredit, ResponseCredit, Leq, Plus;
    TinySane();
    Costs();
    TinySums();
    assert |Sender(1, Used).sendQueue| == 1 && Sender(1, Used).sendQueue[0] == WRITE;
    assert |Reads(1)| == 1 && Reads(1)[0] == [1];
  }

  lemma TinyLists()
    ensures Sane(TINY)
    ensures AddQpToScheduleSet(TINY, T3.(qps := T4.qps), 1, Response) == T4
  {
    hide HasCredits;
    TinyCredits();
    assert [] + [1] == [1] && {} + {1} == {1};
  }

  lemma TinyAsks()
    ensures Sane(TINY)
    ensures Enabled(TINY, T3, InboundRead(1, [1])) && Next(TINY, T3, InboundRead(1, [1])) == Some(T4)
  {
    hide HasCredits, AddQpToScheduleSet, Total;
    TinySane();
    TinyCredits();
    TinyLists();
    assert Reads(0) + [[1]] == Reads(1);
    assert T3.qps[1 := Asker(1, Zero)] == T4.qps;
  }

  lemma TinySends()
    ensures Sane(TINY) && Enabled(TINY, T4, Fire(0)) && Next(TINY, T4, Fire(0)) == Some(T5)
  {
    hide RequestCredit, MinimumRequestCredit, ResponseCredit, MinimumResponseCredit, Take, HasCredits, Leq, Plus, Minus;
    TinyCredits();
    TinySums();
    Costs();
    TakeWrite();
    assert T4.qps[0 := Sender(1, Used)] == T5.qps;
    assert [0][1..] == [] && {0} - {0} == {} && [] + [AddBack(0, Request)] == [AddBack(0, Request)];
    assert Without([LookupEvent(0)], 0) == [] && [] + [RunEvent] == [RunEvent];
  }

  lemma TakeWrite()
    ensures Sane(TINY) && Take(TINY, Sender(2, Zero), Request) == Taken(Sender(1, Zero), Used, 29, 1)
  {
    hide RequestCredit, Segmented, Cut;
    TinySane();
    Costs();
    assert Total([1]) == 1;
    assert Sender(2, Zero).sendQueue[1..] == Sender(1, Zero).sendQueue;
  }

  // Responses are current when the QP is to be put back to the requests.
  lemma TinyLoses()
    ensures Sane(TINY) && Enabled(TINY, T5, FireAdd(0)) && Next(TINY, T5, FireAdd(0)) == Some(T6)
    ensures Work.Loses(TINY, T5, FireAdd(0), 0, Request) && Work.Lost(TINY, T6, 0, Request)
  {
    hide HasCredits;
    TinyCredits();
    assert Without([AddBack(0, Request)], 0) == [];
  }

  lemma TinyAnswers()
    ensures Sane(TINY)
    ensures Enabled(TINY, T6, Fire(0)) && Next(TINY, T6, Fire(0)) == Some(T7)
  {
    hide RequestCredit, MinimumRequestCredit, ResponseCredit, MinimumResponseCredit, Segmented, Cut;
    TinySane();
    Costs();
    assert Without([RunEvent], 0) == [] && [] + [LookupEvent(1)] == [LookupEvent(1)];
  }

  lemma TakeAnswer()
    ensures Sane(TINY)
    ensures Take(TINY, Asker(1, Zero), Response) == Taken(Asker(0, Zero), Answer, 25, 1)
  {
    hide ResponseCredit;
    TinySane();
    Costs();
    assert Total([1]) == 1;
    assert Reads(1)[0] == [1] && Reads(1)[1..] == Reads(0);
  }

  lemma TinyAnswered()
    ensures Sane(TINY)
    ensures Enabled(TINY, T7, Fire(0)) && Next(TINY, T7, Fire(0)) == Some(T8)
  {
    hide RequestCredit, MinimumRequestCredit, ResponseCredit, MinimumResponseCredit, Take, HasCredits, Leq, Plus, Minus;
    TinyCredits();
    TinySums();
    TakeAnswer();
    assert Without([LookupEvent(1)], 0) == [] && [] + [RunEvent] == [RunEvent];
    assert T7.qps[1 := Asker(0, Answer)] == T8.qps;
    assert [1][1..] == [] && {1} - {1} == {};
  }

  lemma TinyStops()
    ensures Sane(TINY) && Enabled(TINY, T8, Fire(0)) && Next(TINY, T8, Fire(0)) == Some(T9)
  {
    TinySane();
    assert Without([RunEvent], 0) == [];
  }

  const Filled: History :=
    After(After(After(After(After(Start, CreateQp(LIMIT)), CreateQp(LIMIT)), PostOp(0, WRITE)), PostOp(0, WRITE)),
          InboundRead(1, [1]))

  lemma FilledReached()
    ensures Sane(TINY) && Legal(TINY, Filled) && Possible(TINY, Filled) && Reach(TINY, Filled) == Some(T4)
  {
    TinySane();
    var c, q := TINY, NewQp([]);
    var s1 := Boot(c).(qps := [q]);
    assert [] + [q] == [q] && [q] + [q] == [q, q];
    assert Sender(0, Zero).sendQueue == [] && Reads(0) == [];
    assert T1.qps == [q, q];
    assert Legal(c, Start) && Possible(c, Start) && Reach(c, Start) == Some(Boot(c));
    assert Next(c, Boot(c), CreateQp(LIMIT)) == Some(s1) && Next(c, s1, CreateQp(LIMIT)) == Some(T1);
    hide Next, Enabled, Reach, Legal, Possible, Cut, Segmented, Total;
    TinyPosts();
    TinyAsks();
    Extend(c, Start, Boot(c), CreateQp(LIMIT));
    var h1 := After(Start, CreateQp(LIMIT));
    Extend(c, h1, s1, CreateQp(LIMIT));
    var h2 := After(h1, CreateQp(LIMIT));
    Extend(c, h2, T1, PostOp(0, WRITE));
    Extend(c, After(h2, PostOp(0, WRITE)), T2, PostOp(0, WRITE));
    Extend(c, After(After(h2, PostOp(0, WRITE)), PostOp(0, WRITE)), T3, InboundRead(1, [1]));
  }

  const Idle: History :=
    After(After(After(After(After(Filled, Fire(0)), FireAdd(0)), Fire(0)), Fire(0)), Fire(0))

  // A legal run at whose end the scheduler is idle, with no event of any kind pending,
  // although a QP has a write to send, the credits for it and no xoff.
  lemma LostWorkExample()
    ensures Sane(TINY) && Legal(TINY, Idle) && Reach(TINY, Idle).Some?
    ensures var s := Reach(TINY, Idle).value;
            && s.idle && s.chain == [] && s.adds == [] && s.qps != []
            && Work.Wants(TINY, s.qps[0], Request) && Work.Lost(TINY, s, 0, Request)
  {
    hide Next, Enabled, Reach, Legal, Possible, HasCredits;
    FilledReached();
    TinySends();
    TinyLoses();
    TinyAnswers();
    TinyAnswered();
    TinyStops();
    TinyCredits();
    var c := TINY;
    Extend(c, Filled, T4, Fire(0));
    var h1 := After(Filled, Fire(0));
    Extend(c, h1, T5, FireAdd(0));
    var h2 := After(h1, FireAdd(0));
    Extend(c, h2, T6, Fire(0));
    var h3 := After(h2, Fire(0));
    Extend(c, h3, T7, Fire(0));
    Extend(c, After(h3, Fire(0)), T8, Fire(0));
  }
}
