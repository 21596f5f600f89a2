// The transmit rate limiter: a bucket that refills lazily, when somebody looks.
// Times are in nanoseconds.
module TokenBucket {
  import opened Sgl

  datatype Config = Config(perRefill: nat, interval: nat, size: nat)

  predicate Sane(c: Config) { c.perRefill > 0 && c.interval > 0 }

  // Tokens in the bucket, and the time of the last refill.
  datatype Bucket = Bucket(tokens: nat, last: nat)

  function Full(c: Config): Bucket { Bucket(c.size, 0) }

  function Min(a: nat, b: nat): nat { if a <= b then a else b }

  // Refill intervals that have passed since the last refill.
  function Elapsed(c: Config, b: Bucket, now: nat): nat
    requires Sane(c) && b.last <= now
  {
    (now - b.last) / c.interval
  }

  function Refill(c: Config, b: Bucket, now: nat): (r: Bucket)
    requires Sane(c) && b.last <= now
  {
    var n := Elapsed(c, b, now);
    if n == 0 then b
    else Bucket(Min(b.tokens + n * c.perRefill, c.size), b.last + n * c.interval)
  }

  class TokenBucket {
    const tokensPerRefillInterval: nat
    const bucketRefillInterval: nat
    const bucketSize: nat
    var availableTokens: nat
    var lastRefillTimestamp: nat

    function Cfg(): Config { Config(tokensPerRefillInterval, bucketRefillInterval, bucketSize) }

    function View(): Bucket
      reads this
    {
      Bucket(availableTokens, lastRefillTimestamp)
    }

    constructor (c: Config)
      requires Sane(c)
      ensures Cfg() == c && View() == Full(c)
    {
      tokensPerRefillInterval, bucketRefillInterval, bucketSize := c.perRefill, c.interval, c.size;
      availableTokens, lastRefillTimestamp := c.size, 0;
    }

    method AreTokensAvailable(requested: nat, currentTime: nat) returns (ok: bool)
      requires Sane(Cfg()) && lastRefillTimestamp <= currentTime
      modifies this
      ensures View() == Refill(Cfg(), old(View()), currentTime)
      ensures ok == (requested <= View().tokens)
    {
      var intervalsElapsed := (currentTime - lastRefillTimestamp) / bucketRefillInterval;
      if intervalsElapsed > 0 {
        var refilled := availableTokens + intervalsElapsed * tokensPerRefillInterval;
        availableTokens := if refilled <= bucketSize then refilled else bucketSize;
        lastRefillTimestamp := lastRefillTimestamp + intervalsElapsed * bucketRefillInterval;
      }
      ok := requested <= availableTokens;
    }

    // Returns false where the source's CHECK would stop the simulation.
    method RequestTokens(required: nat) returns (ok: bool)
      modifies this`availableTokens
      ensures ok == (required <= old(availableTokens))
      ensures availableTokens == if ok then old(availableTokens) - required else old(availableTokens)
    {
      ok := availableTokens >= required;
      if ok {
        availableTokens := availableTokens - required;
      }
    }
  }

  // ---- the eager bucket -----------------------------------------------------

  // n refills of a bucket that is topped up at every interval.
  function Ticks(c: Config, tokens: nat, n: nat): nat
    decreases n
  {
    if n == 0 then tokens else Ticks(c, Min(tokens + c.perRefill, c.size), n - 1)
  }

  lemma {:induction false} TicksClosed(c: Config, tokens: nat, n: nat)
    requires tokens <= c.size
    ensures Ticks(c, tokens, n) == Min(tokens + n * c.perRefill, c.size)
    decreases n
  {
    if n > 0 {
      TicksClosed(c, Min(tokens + c.perRefill, c.size), n - 1);
      assert n * c.perRefill == (n - 1) * c.perRefill + c.perRefill;
    }
  }

  // The eager bucket: its tokens and how many ticks it has seen.
  datatype Eager = Eager(tokens: nat, ticks: nat)

  function Advance(c: Config, e: Eager, now: nat): Eager
    requires Sane(c) && e.ticks <= now / c.interval
  {
    Eager(Ticks(c, e.tokens, now / c.interval - e.ticks), now / c.interval)
  }

  // A request for tokens at a time: look, then take if there are enough.
  datatype Request = Request(at: nat, amount: nat)

  datatype Outcome<T> = Outcome(granted: seq<bool>, total: nat, state: T)

  function ServeLazy(c: Config, b: Bucket, rs: seq<Request>): (r: Outcome<Bucket>)
    requires Sane(c) && Ordered(rs, b.last)
    decreases |rs|
  {
    if rs == [] then Outcome([], 0, b)
    else
      var b1 := Refill(c, b, rs[0].at);
      RefillTime(c, b, rs[0].at);
      var ok := rs[0].amount <= b1.tokens;
      var b2 := if ok then b1.(tokens := b1.tokens - rs[0].amount) else b1;
      assert Ordered(rs[1..], b2.last);
      var rest := ServeLazy(c, b2, rs[1..]);
      Outcome([ok] + rest.granted, (if ok then rs[0].amount else 0) + rest.total, rest.state)
  }

  function ServeEager(c: Config, e: Eager, rs: seq<Request>): (r: Outcome<Eager>)
    requires Sane(c) && OrderedTicks(c, rs, e.ticks)
    decreases |rs|
  {
    if rs == [] then Outcome([], 0, e)
    else
      var e1 := Advance(c, e, rs[0].at);
      var ok := rs[0].amount <= e1.tokens;
      var e2 := if ok then e1.(tokens := e1.tokens - rs[0].amount) else e1;
      var rest := ServeEager(c, e2, rs[1..]);
      Outcome([ok] + rest.granted, (if ok then rs[0].amount else 0) + rest.total, rest.state)
  }

  // Requests come in time order, none before `from`.
  predicate Ordered(rs: seq<Request>, from: nat) {
    && (forall k :: 0 <= k < |rs| ==> from <= rs[k].at)
    && (forall j, k :: 0 <= j < k < |rs| ==> rs[j].at <= rs[k].at)
  }

  predicate OrderedTicks(c: Config, rs: seq<Request>, from: nat)
    requires Sane(c)
  {
    && (forall k :: 0 <= k < |rs| ==> from <= rs[k].at / c.interval)
    && (forall j, k :: 0 <= j < k < |rs| ==> rs[j].at / c.interval <= rs[k].at / c.interval)
  }

  lemma DivMonotone(a: nat, b: nat, q: nat)
    requires q > 0 && a <= b
    ensures a / q <= b / q
  {
    assert a == q * (a / q) + a % q && b == q * (b / q) + b % q;
    if a / q > b / q {
      assert (b / q + 1) * q == q * (b / q) + q;
      MulMonotone(b / q + 1, a / q, q);
    }
  }

  lemma OrderedGivesTicks(c: Config, rs: seq<Request>)
    requires Sane(c) && Ordered(rs, 0)
    ensures OrderedTicks(c, rs, 0)
  {
    forall j, k | 0 <= j < k < |rs|
      ensures rs[j].at / c.interval <= rs[k].at / c.interval
    {
      DivMonotone(rs[j].at, rs[k].at, c.interval);
    }
  }

  lemma DivOf(now: nat, n: nat, q: nat)
    requires q > 0 && n * q <= now < n * q + q
    ensures now / q == n
  {
    var d := now / q;
    assert now == q * d + now % q && 0 <= now % q < q;
    if d < n {
      assert (d + 1) * q == q * d + q;
      MulMonotone(d + 1, n, q);
    } else if d > n {
      assert (n + 1) * q == n * q + q;
      MulMonotone(n + 1, d, q);
    }
  }

  // A refill lands on the last interval boundary: the next one is still to come.
  lemma RefillTime(c: Config, b: Bucket, now: nat)
    requires Sane(c) && b.last <= now
    ensures Refill(c, b, now).last <= now < Refill(c, b, now).last + c.interval
    ensures Refill(c, b, now).last == b.last + Elapsed(c, b, now) * c.interval
  {
    var n := Elapsed(c, b, now);
    var d := now - b.last;
    assert d == c.interval * n + d % c.interval;
  }

  // A lazy bucket that last refilled on tick k refills to exactly what the eager
  // bucket holds.
  lemma RefillIsAdvance(c: Config, b: Bucket, k: nat, now: nat)
    requires Sane(c) && b.last == k * c.interval && b.last <= now && b.tokens <= c.size
    ensures k <= now / c.interval
    ensures Refill(c, b, now).last == (now / c.interval) * c.interval
    ensures Refill(c, b, now).tokens == Advance(c, Eager(b.tokens, k), now).tokens <= c.size
  {
    var n := Elapsed(c, b, now);
    RefillTime(c, b, now);
    assert (k + n) * c.interval == k * c.interval + n * c.interval;
    DivOf(now, k + n, c.interval);
    TicksClosed(c, b.tokens, n);
  }

  // Looking lazily grants the same requests and leaves the same tokens as topping
  // the bucket up at every interval.
  lemma {:induction false} LazyIsEager(c: Config, b: Bucket, k: nat, rs: seq<Request>)
    requires Sane(c) && b.last == k * c.interval && b.tokens <= c.size
    requires Ordered(rs, b.last) && OrderedTicks(c, rs, k)
    ensures var l, e := ServeLazy(c, b, rs), ServeEager(c, Eager(b.tokens, k), rs);
            && l.granted == e.granted && l.total == e.total
            && l.state.tokens == e.state.tokens
            && l.state.last == e.state.ticks * c.interval
    decreases |rs|
  {
    if rs != [] {
      RefillTime(c, b, rs[0].at);
      RefillIsAdvance(c, b, k, rs[0].at);
      var b1 := Refill(c, b, rs[0].at);
      var b2 := if rs[0].amount <= b1.tokens then b1.(tokens := b1.tokens - rs[0].amount) else b1;
      LazyIsEager(c, b2, rs[0].at / c.interval, rs[1..]);
    }
  }

  // Starting full, the tokens granted by time t are at most the size of the bucket
  // plus one refill for every interval that has passed.
  lemma {:induction false} GrantsBounded(c: Config, e: Eager, rs: seq<Request>, end: nat)
    requires Sane(c) && e.tokens <= c.size
    requires OrderedTicks(c, rs, e.ticks) && e.ticks <= end / c.interval
    requires forall k :: 0 <= k < |rs| ==> rs[k].at <= end
    ensures ServeEager(c, e, rs).total <= e.tokens + (end / c.interval - e.ticks) * c.perRefill
    decreases |rs|
  {
    if rs == [] {
      MulMonotone(0, end / c.interval - e.ticks, c.perRefill);
    } else {
      var t := rs[0].at / c.interval;
      DivMonotone(rs[0].at, end, c.interval);
      var e1 := Advance(c, e, rs[0].at);
      TicksClosed(c, e.tokens, t - e.ticks);
      var e2 := if rs[0].amount <= e1.tokens then e1.(tokens := e1.tokens - rs[0].amount) else e1;
      GrantsBounded(c, e2, rs[1..], end);
      assert (end / c.interval - e.ticks) * c.perRefill
          == (end / c.interval - t) * c.perRefill + (t - e.ticks) * c.perRefill;
    }
  }

  lemma GrantsBoundedFromFull(c: Config, rs: seq<Request>, end: nat)
    requires Sane(c) && Ordered(rs, 0)
    requires forall k :: 0 <= k < |rs| ==> rs[k].at <= end
    ensures ServeLazy(c, Full(c), rs).total <= c.size + (end / c.interval) * c.perRefill
  {
    hide ServeLazy, ServeEager;
    OrderedGivesTicks(c, rs);
    hide Ordered, OrderedTicks;
    SameFromFull(c, rs);
    var intervals := end / c.interval;
    GrantsBounded(c, Eager(c.size, 0), rs, end);
    assert intervals - 0 == intervals;
  }

  lemma SameFromFull(c: Config, rs: seq<Request>)
    requires Sane(c) && Ordered(rs, 0) && OrderedTicks(c, rs, 0)
    ensures ServeLazy(c, Full(c), rs).total == ServeEager(c, Eager(c.size, 0), rs).total
  {
    hide ServeLazy, ServeEager, Ordered, OrderedTicks;
    assert 0 * c.interval == 0;
    LazyIsEager(c, Full(c), 0, rs);
  }

  // ---- the scheduler waiting for tokens --------------------------------------

  // The bucket after n wake-ups, each scheduled for the next refill.
  function Waited(c: Config, b: Bucket, n: nat): Bucket
    requires Sane(c)
    decreases n
  {
    if n == 0 then b else Waited(c, Refill(c, b, b.last + c.interval), n - 1)
  }

  lemma OneRefill(c: Config, b: Bucket)
    requires Sane(c)
    ensures Refill(c, b, b.last + c.interval) == Bucket(Min(b.tokens + c.perRefill, c.size), b.last + c.interval)
  {
    assert 1 * c.interval == c.interval;
    DivOf(c.interval, 1, c.interval);
  }

  lemma {:induction false} WaitedTokens(c: Config, b: Bucket, n: nat)
    requires Sane(c)
    ensures Waited(c, b, n) == Bucket(Ticks(c, b.tokens, n), b.last + n * c.interval)
    decreases n
  {
    if n > 0 {
      OneRefill(c, b);
      WaitedTokens(c, Refill(c, b, b.last + c.interval), n - 1);
      assert n * c.interval == (n - 1) * c.interval + c.interval;
    }
  }

  // A wait for `need` tokens, which the bucket is sized for, has a positive delay
  // and is over after ceil(need / perRefill) wake-ups.
  lemma WaitEnds(c: Config, b: Bucket, need: nat, now: nat)
    requires Sane(c) && need <= c.size && b.last <= now && b.tokens <= c.size
    ensures Refill(c, b, now).last + c.interval > now
    ensures Waited(c, Refill(c, b, now), CeilDiv(need, c.perRefill)).tokens >= need
  {
    RefillTime(c, b, now);
    var b1 := Refill(c, b, now);
    var n := CeilDiv(need, c.perRefill);
    CeilDivMeans(need, c.perRefill, n);
    WaitedTokens(c, b1, n);
    TicksClosed(c, b1.tokens, n);
  }
}
