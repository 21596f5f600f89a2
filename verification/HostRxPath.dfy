// The path of received packets to host memory: a PCIe write queue of bounded length
// that transmits one item at a time, and in front of it a buffer for what the queue
// does not accept, which pushes back on Falcon (xoff) when it fills up.
module HostRxPath {
  import opened Common

  const RDMA_HEADER: nat := 28
  const TWO_31: nat := 0x8000_0000
  const TWO_32: nat := 0x1_0000_0000
  const TWO_64: nat := 0x1_0000_0000_0000_0000

  // The PCIe queue holds `slots` packets; the buffer pushes back at `limit` bytes.
  datatype Config = Config(slots: nat, limit: nat)

  // A packet, its Falcon payload, and the size it is written with (0 until then).
  datatype Item = Item(id: nat, payload: nat, size: nat)

  // `events` counts scheduled TransmitComplete events; `size` is 32 bits wide; `done`
  // are the items transmitted.
  datatype State = State(busy: bool, sending: Option<Item>, queue: seq<Item>, buffer: seq<Item>, size: nat, xoff: bool,
                         events: nat, done: seq<Item>)

  // ---- the size written over PCIe -----------------------------------------------------

  // In Push the header is removed if there is one.
  function SizeOnPush(payload: nat): nat { if payload >= RDMA_HEADER then payload - RDMA_HEADER else 0 }

  function Wrap32(x: int): nat { x % TWO_32 }

  function Wrap64(x: int): nat { x % TWO_64 }

  // Conversion of a 64-bit value to a 32-bit signed one.
  function ToInt(x: nat): int {
    var low := x % TWO_32;
    if low < TWO_31 then low else low - TWO_32
  }

  // When woken up the same difference is taken in 64 bits unsigned, where it is never
  // negative, kept in an int, and passed on as 64 bits unsigned.
  function SizeOnWakeup(payload: nat): nat {
    var difference := Wrap64(payload - RDMA_HEADER);
    var pciePayload := if difference >= 0 then ToInt(difference) else 0;
    Wrap64(pciePayload)
  }

  // For 32-bit payloads the two agree exactly if there is a whole header and the rest
  // fits an int.
  lemma SizesAgree(payload: nat)
    requires payload < TWO_32
    ensures SizeOnWakeup(payload) == SizeOnPush(payload) <==> RDMA_HEADER <= payload < TWO_31 + RDMA_HEADER
    ensures payload < RDMA_HEADER ==> SizeOnWakeup(payload) == TWO_64 - RDMA_HEADER + payload
  {
  }

  // ---- the operations -------------------------------------------------------------------

  // TransmitStart; None when its CHECK fails.
  function TransmitStart(s: State, item: Item): Option<State> {
    if s.busy then None else Some(s.(busy := true, sending := Some(item), events := s.events + 1))
  }

  function Enqueue(s: State, item: Item): Option<State> {
    var queue := s.queue + [item];
    if s.busy then Some(s.(queue := queue)) else TransmitStart(s.(queue := queue[1..]), queue[0])
  }

  // The loop of the wake-up callback.
  function Drain(c: Config, s: State): Option<State>
    decreases |s.buffer|
  {
    if s.buffer == [] || |s.queue| == c.slots then Some(s)
    else
      var item := s.buffer[0];
      var s1 := Enqueue(s.(buffer := s.buffer[1..], size := Wrap32(s.size - item.payload)),
                        item.(size := SizeOnWakeup(item.payload)));
      if s1.None? then None else Drain(c, s1.value)
  }

  function Wakeup(c: Config, s: State): Option<State> {
    var s1 := Drain(c, s);
    if s1.Some? && s1.value.size < c.limit then Some(s1.value.(xoff := false)) else s1
  }

  function TransmitComplete(c: Config, s: State): Option<State> {
    if !s.busy || s.sending.None? then None
    else
      var s1 := s.(busy := false, sending := None, done := s.done + [s.sending.value]);
      if s1.queue == [] then Wakeup(c, s1)
      else
        var s2 := TransmitStart(s1.(queue := s1.queue[1..]), s1.queue[0]);
        if s2.None? then None
        else if |s1.queue| == c.slots then Wakeup(c, s2.value)
        else s2
  }

  function Push(c: Config, s: State, id: nat, payload: nat): Option<State> {
    if |s.queue| != c.slots then Enqueue(s, Item(id, payload, SizeOnPush(payload)))
    else
      var size := Wrap32(s.size + payload);
      Some(s.(buffer := s.buffer + [Item(id, payload, 0)], size := size, xoff := s.xoff || size >= c.limit))
  }

  const Boot := State(false, None, [], [], 0, false, 0, [])

  // Buffer and queue of one host, updated in place. Methods return false where a
  // CHECK of the source fails.
  class HostPath {
    const c: Config
    var busy: bool
    var sending: Option<Item>
    var queue: seq<Item>
    var buffer: seq<Item>
    var size: nat
    var xoff: bool
    var events: nat
    var done: seq<Item>

    function View(): State
      reads this
    {
      State(busy, sending, queue, buffer, size, xoff, events, done)
    }

    constructor (c: Config)
      ensures this.c == c && View() == Boot
    {
      this.c := c;
      busy, sending, queue, buffer := false, None, [], [];
      size, xoff, events, done := 0, false, 0, [];
    }

    method StartTransmit(item: Item) returns (ok: bool)
      modifies this
      ensures ok == TransmitStart(old(View()), item).Some?
      ensures ok ==> View() == TransmitStart(old(View()), item).value
    {
      if busy { return false; }
      busy := true;
      sending := Some(item);
      events := events + 1;
      return true;
    }

    method EnqueuePacket(item: Item) returns (ok: bool)
      modifies this
      ensures ok == Enqueue(old(View()), item).Some?
      ensures ok ==> View() == Enqueue(old(View()), item).value
    {
      queue := queue + [item];
      if busy { return true; }
      var front := queue[0];
      queue := queue[1..];
      ok := StartTransmit(front);
    }

    method WakeupCallback() returns (ok: bool)
      modifies this
      ensures ok == Wakeup(c, old(View())).Some?
      ensures ok ==> View() == Wakeup(c, old(View())).value
    {
      while buffer != [] && |queue| != c.slots
        invariant Drain(c, View()) == Drain(c, old(View()))
        decreases |buffer|
      {
        var item := buffer[0];
        buffer := buffer[1..];
        size := Wrap32(size - item.payload);
        var accepted := EnqueuePacket(item.(size := SizeOnWakeup(item.payload)));
        if !accepted { return false; }
      }
      if size < c.limit {
        xoff := false;
      }
      return true;
    }

    method CompleteTransmit() returns (ok: bool)
      modifies this
      ensures ok == TransmitComplete(c, old(View())).Some?
      ensures ok ==> View() == TransmitComplete(c, old(View())).value
    {
      if !busy || sending.None? { return false; }
      busy := false;
      done := done + [sending.value];
      sending := None;
      if queue == [] {
        ok := WakeupCallback();
        return;
      }
      var wasFull := |queue| == c.slots;
      var front := queue[0];
      queue := queue[1..];
      ok := StartTransmit(front);
      if ok && wasFull {
        ok := WakeupCallback();
      }
    }

    method PushPacket(id: nat, payload: nat) returns (ok: bool)
      modifies this
      ensures ok == Push(c, old(View()), id, payload).Some?
      ensures ok ==> View() == Push(c, old(View()), id, payload).value
    {
      if |queue| != c.slots {
        ok := EnqueuePacket(Item(id, payload, SizeOnPush(payload)));
        return;
      }
      buffer := buffer + [Item(id, payload, 0)];
      size := Wrap32(size + payload);
      if size >= c.limit {
        xoff := true;
      }
      return true;
    }
  }

  // ---- the invariant ----------------------------------------------------------------------

  function Bytes(items: seq<Item>): nat { if items == [] then 0 else items[0].payload + Bytes(items[1..]) }

  // What identifies a packet, whatever size it is written with.
  datatype Label = Label(id: nat, payload: nat)

  function LabelOf(item: Item): Label { Label(item.id, item.payload) }

  function Labels(items: seq<Item>): seq<Label> {
    if items == [] then [] else [LabelOf(items[0])] + Labels(items[1..])
  }

  function Current(s: State): seq<Item> { if s.sending.Some? then [s.sending.value] else [] }

  // Everything pushed, in the order it is or will be transmitted.
  function All(s: State): seq<Item> { s.done + Current(s) + s.queue + s.buffer }

  function Order(s: State): seq<Label> { Labels(All(s)) }

  // One transmission at a time; the queue is in use only while something is being
  // transmitted, and the buffer only while the queue is full.
  ghost predicate Inv(c: Config, s: State) {
    && s.busy == s.sending.Some? && s.events == (if s.busy then 1 else 0)
    && (!s.busy ==> s.queue == [])
    && |s.queue| <= c.slots
    && (s.buffer != [] ==> |s.queue| == c.slots)
    && s.size == Wrap32(Bytes(s.buffer))
    && (c.slots == 0 ==> !s.busy && s.done == [])
  }

  lemma {:induction false} LabelsAppend(a: seq<Item>, b: seq<Item>)
    ensures Labels(a + b) == Labels(a) + Labels(b)
  {
    if a == [] {
      assert a + b == b;
    } else {
      assert (a + b)[1..] == a[1..] + b;
      LabelsAppend(a[1..], b);
    }
  }

  lemma {:induction false} BytesAppend(a: seq<Item>, x: Item)
    ensures Bytes(a + [x]) == Bytes(a) + x.payload
  {
    if a != [] {
      assert (a + [x])[1..] == a[1..] + [x];
      BytesAppend(a[1..], x);
    }
  }

  lemma OrderIs(s: State)
    ensures Order(s) == Labels(s.done) + Labels(Current(s)) + Labels(s.queue) + Labels(s.buffer)
  {
    LabelsAppend(s.done + Current(s) + s.queue, s.buffer);
    LabelsAppend(s.done + Current(s), s.queue);
    LabelsAppend(s.done, Current(s));
  }

  lemma ModMinus(total: nat, x: nat)
    requires x <= total
    ensures Wrap32(Wrap32(total) - x) == Wrap32(total - x)
  {
  }

  lemma ModPlus(total: nat, x: nat)
    ensures Wrap32(Wrap32(total) + x) == Wrap32(total + x)
  {
  }

  // What the wake-up callback finds: room in the queue may have opened up.
  ghost predicate Waking(c: Config, s: State) {
    && s.busy == s.sending.Some? && s.events == (if s.busy then 1 else 0)
    && (!s.busy ==> s.queue == [] && s.buffer == [])
    && |s.queue| <= c.slots
    && s.size == Wrap32(Bytes(s.buffer))
    && (c.slots == 0 ==> !s.busy && s.done == [])
  }

  // The loop refills the queue from the buffer without changing the order.
  lemma {:induction false} DrainKeeps(c: Config, s: State)
    requires Waking(c, s)
    ensures var r := Drain(c, s);
            && r.Some? && Inv(c, r.value) && Order(r.value) == Order(s)
            && r.value.done == s.done && r.value.xoff == s.xoff
            && Bytes(r.value.buffer) <= Bytes(s.buffer) && |r.value.buffer| <= |s.buffer|
    decreases |s.buffer|
  {
    hide Wrap32, SizeOnWakeup;
    if s.buffer != [] && |s.queue| != c.slots {
      var item := s.buffer[0];
      var item' := item.(size := SizeOnWakeup(item.payload));
      var s1 := s.(buffer := s.buffer[1..], size := Wrap32(s.size - item.payload), queue := s.queue + [item']);
      ModMinus(Bytes(s.buffer), item.payload);
      DrainKeeps(c, s1);
      hide Drain;
      RefillOrder(s, s1, item');
      DrainStep(c, s);
      hide Order;
    }
  }

  lemma RefillOrder(s: State, s1: State, item: Item)
    requires s.buffer != [] && LabelOf(item) == LabelOf(s.buffer[0]) && s1.done == s.done && s1.sending == s.sending
    requires s1.buffer == s.buffer[1..] && s1.queue == s.queue + [item]
    ensures Order(s1) == Order(s)
  {
    OrderIs(s);
    OrderIs(s1);
    LabelsAppend(s.queue, [item]);
    assert Labels([item]) == [LabelOf(item)] && Labels(s.buffer) == [LabelOf(item)] + Labels(s.buffer[1..]);
    hide Order, Labels;
    Assoc(Labels(s.done) + Labels(Current(s)), Labels(s.queue), [LabelOf(item)], Labels(s.buffer[1..]));
  }

  lemma Assoc(a: seq<Label>, b: seq<Label>, c: seq<Label>, d: seq<Label>)
    ensures a + (b + c) + d == a + b + (c + d)
  {
  }

  lemma DrainStep(c: Config, s: State)
    requires s.buffer != [] && |s.queue| != c.slots && s.busy
    ensures Drain(c, s) ==
              Drain(c, s.(buffer := s.buffer[1..], size := Wrap32(s.size - s.buffer[0].payload),
                          queue := s.queue + [s.buffer[0].(size := SizeOnWakeup(s.buffer[0].payload))]))
  {
    hide SizeOnWakeup;
  }

  lemma PushAll(c: Config, s: State, id: nat, payload: nat)
    requires Inv(c, s)
    ensures var r := Push(c, s, id, payload);
            && r.Some? && Inv(c, r.value) && r.value.done == s.done
            && |s.buffer| <= |r.value.buffer| <= |s.buffer| + 1
            && |All(r.value)| == |All(s)| + 1 && All(r.value)[..|All(s)|] == All(s)
            && LabelOf(All(r.value)[|All(s)|]) == Label(id, payload)
  {
    hide SizeOnPush, Wrap32;
    var item := Item(id, payload, if |s.queue| != c.slots then SizeOnPush(payload) else 0);
    if |s.queue| == c.slots {
      BytesAppend(s.buffer, item);
      ModPlus(Bytes(s.buffer), payload);
      Extend(s.done + Current(s) + s.queue, s.buffer, [], item);
    } else if s.busy {
      Extend(s.done + Current(s), s.queue, s.buffer, item);
    } else {
      assert s.queue + [item] == [item];
      Extend(s.done, [], s.queue + s.buffer, item);
    }
  }

  lemma Extend(a: seq<Item>, b: seq<Item>, c: seq<Item>, item: Item)
    requires c == []
    ensures a + (b + [item]) + c == (a + b + c) + [item]
  {
  }

  lemma PushKeeps(c: Config, s: State, id: nat, payload: nat)
    requires Inv(c, s)
    ensures var r := Push(c, s, id, payload);
            r.Some? && Inv(c, r.value) && Order(r.value) == Order(s) + [Label(id, payload)] && r.value.done == s.done
  {
    hide Push, Inv, All;
    PushAll(c, s, id, payload);
    var all := All(Push(c, s, id, payload).value);
    var n := |All(s)|;
    assert all == all[..n] + [all[n]];
    LabelsAppend(all[..n], [all[n]]);
  }

  // After the callback, the queue is full or the buffer empty, and Falcon was told to
  // go on if the buffer is below its limit.
  lemma WakeupKeeps(c: Config, s: State)
    requires Waking(c, s)
    ensures var r := Wakeup(c, s);
            && r.Some? && Inv(c, r.value) && Order(r.value) == Order(s)
            && r.value.done == s.done
            && Bytes(r.value.buffer) <= Bytes(s.buffer) && |r.value.buffer| <= |s.buffer|
            && r.value.xoff == (s.xoff && r.value.size >= c.limit)
  {
    DrainKeeps(c, s);
    hide Drain;
    var r := Drain(c, s).value;
    assert All(r.(xoff := false)) == All(r);
  }

  // The event that completes a transmission starts the next and refills the queue.
  lemma CompleteKeeps(c: Config, s: State)
    requires Inv(c, s) && s.events > 0
    ensures var r := TransmitComplete(c, s.(events := s.events - 1));
            && r.Some? && Inv(c, r.value) && Order(r.value) == Order(s)
            && r.value.done == s.done + [s.sending.value]
            && Bytes(r.value.buffer) <= Bytes(s.buffer) && |r.value.buffer| <= |s.buffer|
            && |s.buffer| <= |r.value.buffer| + 1
            && (r.value.xoff == (s.xoff && r.value.size >= c.limit) || (r.value.xoff == s.xoff && r.value.size == s.size))
  {
    hide Wakeup, Bytes;
    var s1 := s.(busy := false, sending := None, events := 0, done := s.done + [s.sending.value]);
    assert All(s1) == All(s);
    if s.queue == [] {
      WakeupKeeps(c, s1);
    } else {
      var s2 := s1.(queue := s.queue[1..], busy := true, sending := Some(s.queue[0]), events := 1);
      assert All(s2) == All(s1);
      if |s.queue| == c.slots {
        WakeupKeeps(c, s2);
        WakeupMovesOne(c, s2);
      }
    }
  }

  // A queue that was full has one free slot when it wakes up the buffer, which moves
  // one packet.
  lemma WakeupMovesOne(c: Config, s: State)
    requires s.busy && |s.queue| + 1 == c.slots
    ensures Wakeup(c, s).Some? && |s.buffer| <= |Wakeup(c, s).value.buffer| + 1
  {
    hide SizeOnWakeup, Wrap32;
    if s.buffer != [] {
      DrainStep(c, s);
    }
  }

  // ---- whole runs ---------------------------------------------------------------------------

  // Packets are numbered in the order they are pushed.
  datatype Step = Arrive(payload: nat) | Complete

  datatype History = Start | After(before: History, step: Step)

  // How many packets were pushed.
  function Pushed(h: History): nat {
    match h
    case Start => 0
    case After(before, step) => Pushed(before) + if step.Arrive? then 1 else 0
  }

  // The packets pushed, in order.
  function Arrivals(h: History): (r: seq<Label>)
    ensures |r| == Pushed(h)
  {
    match h
    case Start => []
    case After(before, step) =>
      Arrivals(before) + if step.Arrive? then [Label(Pushed(before), step.payload)] else []
  }

  // The state after a run; None once a CHECK failed.
  function Reach(c: Config, h: History): Option<State> {
    match h
    case Start => Some(Boot)
    case After(before, step) =>
      var s := Reach(c, before);
      if s.None? then None
      else if step.Arrive? then Push(c, s.value, Pushed(before), step.payload)
      else if s.value.events == 0 then None
      else TransmitComplete(c, s.value.(events := s.value.events - 1))
  }

  // Payloads have 32 bits, and completions happen only when scheduled.
  predicate Legal(c: Config, h: History) {
    match h
    case Start => true
    case After(before, step) =>
      && Legal(c, before)
      && if step.Arrive? then step.payload < TWO_32
         else Reach(c, before).Some? ==> Reach(c, before).value.events > 0
  }

  // The buffer's bytes never exceed its 32-bit counter.
  predicate Fits(c: Config, h: History) {
    match h
    case Start => true
    case After(before, step) =>
      && Fits(c, before)
      && (step.Arrive? && Reach(c, before).Some? ==> Bytes(Reach(c, before).value.buffer) + step.payload < TWO_32)
  }

  // No CHECK fails in any run, packets are transmitted in the order they were pushed,
  // none is lost or sent twice, and what waits in the buffer waits for a full queue.
  lemma {:induction false} RunsInOrder(c: Config, h: History)
    requires Legal(c, h)
    ensures Reach(c, h).Some? && Inv(c, Reach(c, h).value) && Order(Reach(c, h).value) == Arrivals(h)
  {
    match h
    case Start =>
    case After(before, step) =>
      RunsInOrder(c, before);
      hide Inv, Order, Push, TransmitComplete;
      var s := Reach(c, before).value;
      if step.Arrive? {
        PushKeeps(c, s, Pushed(before), step.payload);
      } else {
        CompleteKeeps(c, s);
      }
  }

  // When no transmission is under way everything pushed has been transmitted, exactly
  // if the queue has a slot (or nothing was pushed).
  lemma QuietMeansDone(c: Config, h: History)
    requires Legal(c, h) && Reach(c, h).Some? && Reach(c, h).value.events == 0
    ensures Labels(Reach(c, h).value.done) == Arrivals(h) <==> c.slots > 0 || Pushed(h) == 0
  {
    hide Reach, Legal;
    RunsInOrder(c, h);
    var s := Reach(c, h).value;
    if c.slots > 0 {
      assert All(s) == s.done;
    }
  }

  // ---- the sizes written --------------------------------------------------------------------

  // The payload without the header, if it is one that fits an int; else perhaps something
  // else, if the packet waited in the buffer.
  ghost predicate Written(item: Item) {
    || item.size == SizeOnPush(item.payload)
    || (!(RDMA_HEADER <= item.payload < TWO_31 + RDMA_HEADER) && item.size == SizeOnWakeup(item.payload))
  }

  ghost predicate AllWritten(s: State) {
    && (forall i :: 0 <= i < |s.done| ==> Written(s.done[i])) && (s.sending.Some? ==> Written(s.sending.value))
    && (forall i :: 0 <= i < |s.queue| ==> Written(s.queue[i]))
  }

  // Packets in the buffer have 32-bit payloads.
  ghost predicate Narrow(buffer: seq<Item>) { forall i :: 0 <= i < |buffer| ==> buffer[i].payload < TWO_32 }

  lemma EnqueueWrites(s: State, item: Item)
    requires AllWritten(s) && Narrow(s.buffer) && Written(item)
    ensures var r := Enqueue(s, item); r.Some? ==> AllWritten(r.value) && Narrow(r.value.buffer)
  {
    hide Written;
  }

  lemma {:induction false} DrainWrites(c: Config, s: State)
    requires AllWritten(s) && Narrow(s.buffer)
    ensures var r := Drain(c, s); r.Some? ==> AllWritten(r.value) && Narrow(r.value.buffer)
    decreases |s.buffer|
  {
    hide Written, Wrap32, SizeOnWakeup;
    if s.buffer != [] && |s.queue| != c.slots {
      var item := s.buffer[0];
      var item' := item.(size := SizeOnWakeup(item.payload));
      assert Written(item') by { WakeupWrites(item); }
      var s1 := s.(buffer := s.buffer[1..], size := Wrap32(s.size - item.payload));
      EnqueueWrites(s1, item');
      if Enqueue(s1, item').Some? {
        DrainWrites(c, Enqueue(s1, item').value);
      }
    }
  }

  lemma WakeupWrites(item: Item)
    requires item.payload < TWO_32
    ensures Written(item.(size := SizeOnWakeup(item.payload)))
  {
    SizesAgree(item.payload);
  }

  lemma CompleteWrites(c: Config, s: State)
    requires AllWritten(s) && Narrow(s.buffer)
    ensures var r := TransmitComplete(c, s); r.Some? ==> AllWritten(r.value) && Narrow(r.value.buffer)
  {
    hide Written, Drain;
    if s.busy && s.sending.Some? {
      var s1 := s.(busy := false, sending := None, done := s.done + [s.sending.value]);
      if s1.queue == [] {
        DrainWrites(c, s1);
      } else {
        DrainWrites(c, s1.(busy := true, sending := Some(s1.queue[0]), queue := s1.queue[1..], events := s1.events + 1));
      }
    }
  }

  // In every run, each packet pushed whose payload is a header and at most 2^31 - 1 more
  // bytes is written with the payload less the header.
  lemma {:induction false} SizesWritten(c: Config, h: History)
    requires Legal(c, h) && Reach(c, h).Some?
    ensures AllWritten(Reach(c, h).value) && Narrow(Reach(c, h).value.buffer)
    ensures var s := Reach(c, h).value;
            forall i :: 0 <= i < |s.done| && 28 <= s.done[i].payload < 0x8000_0000 + 28 ==>
              s.done[i].size == s.done[i].payload - 28
  {
    match h
    case Start =>
    case After(before, step) =>
      hide Written, Drain;
      SizesWritten(c, before);
      hide AllWritten;
      var s := Reach(c, before).value;
      ReachStep(c, before, step);
      hide Reach;
      if step.Arrive? {
        PushWrites(c, s, Pushed(before), step.payload);
      } else if s.events > 0 {
        CompleteWrites(c, s.(events := s.events - 1));
      }
  }

  lemma PushWrites(c: Config, s: State, id: nat, payload: nat)
    requires AllWritten(s) && Narrow(s.buffer) && payload < TWO_32
    ensures var r := Push(c, s, id, payload); r.Some? ==> AllWritten(r.value) && Narrow(r.value.buffer)
  {
    EnqueueWrites(s, Item(id, payload, SizeOnPush(payload)));
    hide SizeOnWakeup;
  }

  // ---- pushing back ---------------------------------------------------------------------------

  // The counter is the buffer's bytes and Falcon is held back exactly while the
  // buffer is at or above its limit, provided the limit is not zero.
  lemma {:induction false} XoffExact(c: Config, h: History)
    requires Legal(c, h) && Fits(c, h) && c.limit > 0
    ensures Reach(c, h).Some? && XoffOk(c, Reach(c, h).value)
  {
    RunsInOrder(c, h);
    match h
    case Start =>
    case After(before, step) =>
      hide Reach, Inv, XoffOk;
      RunsInOrder(c, before);
      XoffExact(c, before);
      ReachStep(c, before, step);
      var s := Reach(c, before).value;
      if step.Arrive? {
        PushXoff(c, s, Pushed(before), step.payload);
      } else {
        CompleteXoff(c, s);
      }
  }

  lemma ReachStep(c: Config, h: History, step: Step)
    requires Reach(c, h).Some?
    ensures var s := Reach(c, h).value;
            Reach(c, After(h, step)) ==
              if step.Arrive? then Push(c, s, Pushed(h), step.payload)
              else if s.events == 0 then None
              else TransmitComplete(c, s.(events := s.events - 1))
  {
    hide Push, TransmitComplete;
  }

  ghost predicate XoffOk(c: Config, s: State) {
    s.size == Bytes(s.buffer) < TWO_32 && (s.xoff <==> s.size >= c.limit)
  }

  lemma PushXoff(c: Config, s: State, id: nat, payload: nat)
    requires XoffOk(c, s) && Bytes(s.buffer) + payload < TWO_32 && Push(c, s, id, payload).Some?
    ensures XoffOk(c, Push(c, s, id, payload).value)
  {
    BytesAppend(s.buffer, Item(id, payload, 0));
  }

  lemma CompleteXoff(c: Config, s: State)
    requires Inv(c, s) && XoffOk(c, s) && s.events > 0
    ensures var r := TransmitComplete(c, s.(events := s.events - 1)); r.Some? && XoffOk(c, r.value)
  {
    hide TransmitComplete, Order, Bytes;
    CompleteKeeps(c, s);
  }

  // With limit zero it starts out wrong.
  lemma XoffAtBoot(c: Config)
    ensures (Boot.xoff <==> Bytes(Boot.buffer) >= c.limit) <==> c.limit > 0
  {
  }
}
