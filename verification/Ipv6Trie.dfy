// The IPv6 routing table: a binary trie over the bits of a prefix, walked 64 bits at
// a time. Addresses and masks are 128 bits, most significant first.
module Ipv6Trie {
  import opened Common

  type Bits = seq<bool>

  const HALF: nat := 64
  const WIDTH: nat := 128

  // The length of a mask's prefix: its leading ones. What follows is ignored.
  function Ones(mask: Bits): (r: nat)
    ensures r <= |mask| && (forall i :: 0 <= i < r ==> mask[i]) && (r < |mask| ==> !mask[r])
  {
    if mask == [] || !mask[0] then 0 else 1 + Ones(mask[1..])
  }

  lemma {:induction false} OnesIs(mask: Bits, n: nat)
    requires n <= |mask| && (forall i :: 0 <= i < n ==> mask[i]) && (n < |mask| ==> !mask[n])
    ensures Ones(mask) == n
  {
    if n > 0 {
      OnesIs(mask[1..], n - 1);
    }
  }

  function Prefix(address: Bits, mask: Bits): Bits
    requires |address| == |mask|
  {
    address[..Ones(mask)]
  }

  // The value under the longest prefix of `address` with at most n bits.
  function Best<T>(routes: map<Bits, T>, address: Bits, n: nat): Option<T>
    requires n <= |address|
  {
    if address[..n] in routes then Some(routes[address[..n]])
    else if n == 0 then None
    else Best(routes, address, n - 1)
  }

  datatype Node<T> = Node(left: Option<nat>, right: Option<nat>, data: Option<T>)
  {
    function Child(bit: bool): Option<nat> { if bit then right else left }
    function WithChild(bit: bool, j: nat): Node<T> {
      if bit then this.(right := Some(j)) else this.(left := Some(j))
    }
  }

  // The arena of nodes, which refer to each other by position (0 is the head), and
  // the bit strings that lead to them: `path` and `at` are inverse to each other.
  ghost predicate Named<T>(nodes: seq<Node<T>>, path: seq<Bits>, at: map<Bits, nat>) {
    && |path| == |nodes| > 0 && path[0] == []
    && (forall i :: 0 <= i < |path| ==> |path[i]| <= WIDTH && path[i] in at && at[path[i]] == i)
    && (forall p :: p in at ==> at[p] < |path| && path[at[p]] == p)
  }

  // A child pointer leads one bit further, and every node hangs below its parent.
  ghost predicate Linked<T>(nodes: seq<Node<T>>, path: seq<Bits>, at: map<Bits, nat>) {
    && Named(nodes, path, at)
    && (forall i, b :: 0 <= i < |nodes| ==> LeadsTo(nodes, path, i, b))
    && (forall p :: p in at && p != [] ==> Hangs(nodes, at, p))
  }

  predicate LeadsTo<T>(nodes: seq<Node<T>>, path: seq<Bits>, i: nat, b: bool)
    requires i < |nodes| && i < |path|
  {
    var j := nodes[i].Child(b);
    j.Some? ==> j.value < |path| && path[j.value] == path[i] + [b]
  }

  predicate Hangs<T>(nodes: seq<Node<T>>, at: map<Bits, nat>, p: Bits)
    requires p in at && p != []
  {
    var n := |p| - 1;
    p[..n] in at && at[p[..n]] < |nodes| && nodes[at[p[..n]]].Child(p[n]) == Some(at[p])
  }

  // The prefixes with a value.
  ghost predicate Holds<T>(nodes: seq<Node<T>>, path: seq<Bits>, routes: map<Bits, T>, at: map<Bits, nat>) {
    && (forall p :: p in routes ==> p in at)
    && (forall p :: p in at ==> at[p] < |nodes| && (p in routes <==> nodes[at[p]].data.Some?))
    && (forall p :: p in routes ==> nodes[at[p]].data == Some(routes[p]))
  }

  lemma NotThere<T>(nodes: seq<Node<T>>, path: seq<Bits>, at: map<Bits, nat>, i: nat, b: bool)
    requires Linked(nodes, path, at) && i < |nodes| && nodes[i].Child(b).None?
    ensures path[i] + [b] !in at
  {
    var p := path[i] + [b];
    assert p[..|p| - 1] == path[i] && p[|p| - 1] == b;
    assert p in at ==> Hangs(nodes, at, p);
  }

  // One step of a walk.
  lemma Walk<T>(nodes: seq<Node<T>>, path: seq<Bits>, routes: map<Bits, T>, at: map<Bits, nat>, i: nat, b: bool)
    requires Linked(nodes, path, at) && Holds(nodes, path, routes, at) && i < |nodes|
    ensures |path| == |nodes| && |path[i]| <= WIDTH
    ensures var j := nodes[i].Child(b);
            if j.Some? then j.value < |nodes| && path[j.value] == path[i] + [b] && |path[i]| < WIDTH
            else path[i] + [b] !in at
    ensures nodes[i].data == if path[i] in routes then Some(routes[path[i]]) else None
  {
    assert LeadsTo(nodes, path, i, b);
    if nodes[i].Child(b).None? {
      NotThere(nodes, path, at, i, b);
    }
  }

  lemma Head<T>(nodes: seq<Node<T>>, path: seq<Bits>, at: map<Bits, nat>)
    requires Linked(nodes, path, at)
    ensures |path| == |nodes| > 0 && path[0] == []
  {
  }

  function Grown<T>(nodes: seq<Node<T>>, i: nat, b: bool): seq<Node<T>>
    requires i < |nodes|
  {
    nodes[i := nodes[i].WithChild(b, |nodes|)] + [Node(None, None, None)]
  }

  lemma GrownChild<T>(nodes: seq<Node<T>>, i: nat, b: bool, k: nat, c: bool)
    requires i < |nodes| && k <= |nodes|
    ensures Grown(nodes, i, b)[k].Child(c) ==
              if k == |nodes| then None else if k == i && c == b then Some(|nodes|) else nodes[k].Child(c)
    ensures Grown(nodes, i, b)[k].data == if k == |nodes| then None else nodes[k].data
  {
  }

  lemma GrowNamed<T>(nodes: seq<Node<T>>, path: seq<Bits>, at: map<Bits, nat>, i: nat, b: bool)
    requires Named(nodes, path, at) && i < |nodes| && |path[i]| < WIDTH && path[i] + [b] !in at
    ensures var p := path[i] + [b]; Named(Grown(nodes, i, b), path + [p], at[p := |nodes|])
  {
  }

  // A new node keeps the correspondence.
  lemma GrowLinked<T>(nodes: seq<Node<T>>, path: seq<Bits>, at: map<Bits, nat>, i: nat, b: bool)
    requires Linked(nodes, path, at) && i < |nodes| && nodes[i].Child(b).None? && |path[i]| < WIDTH
    ensures var p := path[i] + [b]; p !in at && Linked(Grown(nodes, i, b), path + [p], at[p := |nodes|])
  {
    hide Grown, Hangs, LeadsTo;
    NotThere(nodes, path, at, i, b);
    GrowNamed(nodes, path, at, i, b);
    var p := path[i] + [b];
    var nodes', path', at' := Grown(nodes, i, b), path + [p], at[p := |nodes|];
    forall k, c | 0 <= k < |nodes'|
      ensures LeadsTo(nodes', path', k, c)
    {
      GrowLeads(nodes, path, at, i, b, k, c);
    }
    forall x | x in at' && x != []
      ensures Hangs(nodes', at', x)
    {
      GrowHangs(nodes, path, at, i, b, x);
    }
    hide Named;
  }

  lemma GrowLeads<T>(nodes: seq<Node<T>>, path: seq<Bits>, at: map<Bits, nat>, i: nat, b: bool, k: nat, c: bool)
    requires Linked(nodes, path, at) && i < |nodes| && k <= |nodes|
    ensures |Grown(nodes, i, b)| == |nodes| + 1 && LeadsTo(Grown(nodes, i, b), path + [path[i] + [b]], k, c)
  {
    GrownChild(nodes, i, b, k, c);
    if k < |nodes| {
      assert LeadsTo(nodes, path, k, c);
    }
    hide Named, Hangs, Linked;
  }

  lemma GrowHangs<T>(nodes: seq<Node<T>>, path: seq<Bits>, at: map<Bits, nat>, i: nat, b: bool, x: Bits)
    requires Linked(nodes, path, at) && i < |nodes| && nodes[i].Child(b).None? && path[i] + [b] !in at
    requires x != [] && (x in at || x == path[i] + [b])
    ensures Hangs(Grown(nodes, i, b), at[path[i] + [b] := |nodes|], x)
  {
    hide LeadsTo;
    var p := path[i] + [b];
    assert p[..|p| - 1] == path[i] && p[|p| - 1] == b;
    if x == p {
      GrownChild(nodes, i, b, i, b);
    } else {
      assert Hangs(nodes, at, x);
      GrownChild(nodes, i, b, at[x[..|x| - 1]], x[|x| - 1]);
    }
    hide Grown;
  }

  lemma GrowHolds<T>(nodes: seq<Node<T>>, path: seq<Bits>, routes: map<Bits, T>, at: map<Bits, nat>, i: nat, b: bool)
    requires Named(nodes, path, at) && Holds(nodes, path, routes, at) && i < |nodes| && path[i] + [b] !in at
    ensures Holds(Grown(nodes, i, b), path + [path[i] + [b]], routes, at[path[i] + [b] := |nodes|])
  {
    assert forall k | 0 <= k <= |nodes| ::
        Grown(nodes, i, b)[k].data == if k == |nodes| then None else nodes[k].data;
    hide Grown;
  }

  function Filled<T>(nodes: seq<Node<T>>, i: nat, value: T): seq<Node<T>>
    requires i < |nodes|
  {
    nodes[i := nodes[i].(data := Some(value))]
  }

  lemma FillKeeps<T>(nodes: seq<Node<T>>, path: seq<Bits>, routes: map<Bits, T>, at: map<Bits, nat>, i: nat, value: T)
    requires Linked(nodes, path, at) && Holds(nodes, path, routes, at) && i < |nodes| && nodes[i].data.None?
    ensures Linked(Filled(nodes, i, value), path, at) && path[i] !in routes
    ensures Holds(Filled(nodes, i, value), path, routes[path[i] := value], at)
  {
    hide LeadsTo, Hangs;
    var nodes' := Filled(nodes, i, value);
    assert forall k, c | 0 <= k < |nodes| :: nodes'[k].Child(c) == nodes[k].Child(c);
    assert forall k | 0 <= k < |nodes| :: nodes'[k].data == if k == i then Some(value) else nodes[k].data;
    hide Filled;
    forall k, c | 0 <= k < |nodes|
      ensures LeadsTo(nodes', path, k, c)
    {
      assert LeadsTo(nodes, path, k, c);
      SameLinks(nodes, nodes', path, at, k, c, []);
    }
    forall p | p in at && p != []
      ensures Hangs(nodes', at, p)
    {
      assert Hangs(nodes, at, p);
      SameLinks(nodes, nodes', path, at, 0, false, p);
    }
  }

  lemma SameLinks<T>(nodes: seq<Node<T>>, nodes': seq<Node<T>>, path: seq<Bits>, at: map<Bits, nat>, k: nat, c: bool,
                     p: Bits)
    requires |nodes'| == |nodes| == |path| && k < |nodes|
    requires forall k, c | 0 <= k < |nodes| :: nodes'[k].Child(c) == nodes[k].Child(c)
    ensures LeadsTo(nodes, path, k, c) ==> LeadsTo(nodes', path, k, c)
    ensures p in at && p != [] && Hangs(nodes, at, p) ==> Hangs(nodes', at, p)
  {
  }

  class IPTable<T> {
    var nodes: seq<Node<T>>
    var size: nat
    ghost var path: seq<Bits>
    ghost var at: map<Bits, nat>
    ghost var routes: map<Bits, T>

    ghost predicate Valid()
      reads this
    {
      Linked(nodes, path, at) && Holds(nodes, path, routes, at)
    }

    constructor ()
      ensures Valid() && routes == map[] && size == 0
    {
      nodes := [Node(None, None, None)];
      size := 0;
      path := [[]];
      at := map[[] := 0];
      routes := map[];
    }

    // The first value inserted under a prefix stays: a second one is refused.
    method Insert(address: Bits, mask: Bits, value: T) returns (ok: bool)
      requires Valid() && |address| == |mask| == WIDTH
      modifies this
      ensures Valid()
      ensures ok <==> Prefix(address, mask) !in old(routes)
      ensures routes == if ok then old(routes)[Prefix(address, mask) := value] else old(routes)
      ensures size == old(size) + if ok then 1 else 0
    {
      hide Linked, Holds, Cursor, Ones;
      Head(nodes, path, at);
      CursorStart(address, mask);
      var bit, count := 0, 0;
      var addr, half := address[..HALF], mask[..HALF];
      var current: nat := 0;
      var next: Option<nat> := Some(0);
      ghost var d := 0;
      while bit < HALF && half[bit]
        invariant Valid() && routes == old(routes) && size == old(size) && |path| == |nodes|
        invariant Cursor(address, mask, addr, half, bit, count, d) && d <= WIDTH && bit <= HALF && |half| == HALF
        invariant current < |nodes| && path[current] == address[..d]
        invariant next == Some(current)
        invariant forall i :: 0 <= i < d ==> mask[i]
        decreases WIDTH - d
      {
        CursorStep(address, mask, addr, half, bit, count, d);
        Walk(nodes, path, routes, at, current, addr[bit]);
        next := nodes[current].Child(addr[bit]);
        if next.None? {
          break;
        }
        assert address[..d + 1] == address[..d] + [address[d]];
        bit := bit + 1;
        current := next.value;
        d := d + 1;
        if bit == HALF {
          count := count + 1;
          if count == 2 {
            break;
          }
          bit := 0;
          addr, half := address[HALF..], mask[HALF..];
        }
      }

      CursorEnd(address, mask, addr, half, bit, count, d);
      if next.Some? {
        OnesIs(mask, d);
        Walk(nodes, path, routes, at, current, false);
        if nodes[current].data.Some? {
          return false;
        }
        SetData(current, value);
        return true;
      }

      InsertRest(address, mask, value, addr, half, bit, count, current, d);
      return true;
    }

    // The nodes that are missing below `current` down to the end of the prefix.
    method InsertRest(address: Bits, mask: Bits, value: T, addr0: Bits, half0: Bits, bit0: nat, count0: nat,
                      current0: nat, ghost d0: nat)
      requires Valid() && current0 < |nodes| && |path| == |nodes| && |address| == |mask| == WIDTH && bit0 <= HALF
      requires Cursor(address, mask, addr0, half0, bit0, count0, d0) && d0 <= WIDTH && path[current0] == address[..d0]
      requires forall i :: 0 <= i < d0 ==> mask[i]
      requires d0 < WIDTH && mask[d0] && nodes[current0].Child(address[d0]).None?
      modifies this
      ensures Valid() && size == old(size) + 1
      ensures Prefix(address, mask) !in old(routes) && routes == old(routes)[Prefix(address, mask) := value]
    {
      hide Linked, Holds, Cursor, Ones;
      var addr, half := addr0, half0;
      var bit: nat, count: nat, current: nat := bit0, count0, current0;
      ghost var d: nat := d0;
      CursorEnd(address, mask, addr, half, bit, count, d);
      while bit < HALF && half[bit]
        invariant Valid() && routes == old(routes) && size == old(size) && |path| == |nodes|
        invariant Cursor(address, mask, addr, half, bit, count, d) && d <= WIDTH && bit <= HALF && |half| == HALF
        invariant current < |nodes| && path[current] == address[..d]
        invariant forall i :: 0 <= i < d ==> mask[i]
        invariant d < WIDTH && mask[d] ==> nodes[current].Child(address[d]).None?
        invariant d == WIDTH || !mask[d] ==> nodes[current].data.None?
        decreases WIDTH - d
      {
        CursorStep(address, mask, addr, half, bit, count, d);
        assert address[..d + 1] == address[..d] + [address[d]];
        current := Grow(current, addr[bit]);
        bit := bit + 1;
        d := d + 1;
        if bit == HALF {
          count := count + 1;
          if count == 2 {
            break;
          }
          bit := 0;
          addr, half := address[HALF..], mask[HALF..];
        }
      }
      CursorEnd(address, mask, addr, half, bit, count, d);
      OnesIs(mask, d);
      SetData(current, value);
    }

    // Adds an empty node below `current`.
    method Grow(current: nat, b: bool) returns (j: nat)
      requires Valid() && current < |nodes| && nodes[current].Child(b).None? && |path[current]| < WIDTH
      modifies this
      ensures Valid() && routes == old(routes) && size == old(size)
      ensures |path| == |nodes| && j < |nodes| && path[j] == old(path[current]) + [b] && nodes[j] == Node(None, None, None)
    {
      hide Holds;
      GrowLinked(nodes, path, at, current, b);
      assert Named(nodes, path, at);
      hide Linked, Named;
      GrowHolds(nodes, path, routes, at, current, b);
      j := |nodes|;
      ghost var p := path[current] + [b];
      nodes := Grown(nodes, current, b);
      path := path + [p];
      at := at[p := j];
    }

    method SetData(current: nat, value: T)
      requires Valid() && current < |nodes| && nodes[current].data.None?
      modifies this
      ensures Valid() && size == old(size) + 1
      ensures old(path[current]) !in old(routes) && routes == old(routes)[old(path[current]) := value]
    {
      hide Linked, Holds;
      Head(nodes, path, at);
      FillKeeps(nodes, path, routes, at, current, value);
      nodes := Filled(nodes, current, value);
      routes := routes[path[current] := value];
      size := size + 1;
    }

    // Fills an empty table. A range that was there already is refused, as by Insert.
    method InsertAll(ranges: seq<Range<T>>)
      requires Valid() && routes == map[]
      requires forall k :: 0 <= k < |ranges| ==> |ranges[k].address| == |ranges[k].mask| == WIDTH
      modifies this
      ensures Valid() && routes == Table(Entries(ranges))
    {
      hide Linked, Holds, Ones;
      var i := 0;
      while i < |ranges|
        invariant 0 <= i <= |ranges| && Valid() && routes == Table(Entries(ranges[..i]))
      {
        var ok := Insert(ranges[i].address, ranges[i].mask, ranges[i].value);
        assert Entries(ranges[..i + 1])[..i] == Entries(ranges[..i]);
        i := i + 1;
      }
      assert ranges[..i] == ranges;
    }

    // The walk ends although it reads the low half again after 128 bits, because no
    // node is that deep.
    method FindLongest(address: Bits) returns (found: Option<T>)
      requires Valid() && |address| == WIDTH
      ensures found == Best(routes, address, WIDTH)
    {
      hide Linked, Holds;
      Head(nodes, path, at);
      var bit := 0;
      var addr := address[..HALF];
      var current: Option<nat> := Some(0);
      found := None;
      ghost var d := 0;
      while current.Some?
        invariant 0 <= d <= WIDTH + 1 && 0 <= bit < HALF && |addr| == HALF
        invariant d < WIDTH ==> addr[bit] == address[d]
        invariant d < HALF ==> bit == d && addr == address[..HALF]
        invariant HALF <= d < WIDTH ==> bit == d - HALF && addr == address[HALF..]
        invariant current.Some? ==> d <= WIDTH && current.value < |nodes| && path[current.value] == address[..d]
        invariant current.None? ==> d > 0 && (d <= WIDTH ==> address[..d] !in at)
        invariant found == if d == 0 then None else Best(routes, address, d - 1)
        decreases WIDTH + 1 - d
      {
        Walk(nodes, path, routes, at, current.value, addr[bit]);
        var node := nodes[current.value];
        if node.data.Some? {
          found := node.data;
        }
        assert d < WIDTH ==> address[..d + 1] == address[..d] + [address[d]];
        current := node.Child(addr[bit]);
        bit := bit + 1;
        d := d + 1;
        if bit == HALF {
          bit := 0;
          addr := address[HALF..];
        }
      }
      NothingBelow(address, d);
    }

    // Below a missing node there is nothing to find.
    lemma {:induction false} NothingBelow(address: Bits, d: nat)
      requires Valid() && |address| == WIDTH && 0 < d <= WIDTH + 1
      requires d <= WIDTH ==> address[..d] !in at
      ensures Best(routes, address, WIDTH) == Best(routes, address, d - 1)
      decreases WIDTH + 1 - d
    {
      if d <= WIDTH {
        if d < WIDTH {
          assert address[..d + 1][..d] == address[..d];
          assert address[..d + 1] in at ==> Hangs(nodes, at, address[..d + 1]);
        }
        NothingBelow(address, d + 1);
      }
    }
  }

  // Where a walk over the two halves stands after d bits.
  ghost predicate Cursor(address: Bits, mask: Bits, addr: Bits, half: Bits, bit: nat, count: nat, d: nat) {
    && |address| == |mask| == WIDTH && |addr| == |half| == HALF && d <= WIDTH
    && if d == WIDTH then count == 2 && bit == HALF
       else
         && bit < HALF && d == HALF * count + bit && count < 2
         && addr == (if count == 0 then address[..HALF] else address[HALF..])
         && half == (if count == 0 then mask[..HALF] else mask[HALF..])
  }

  lemma CursorStart(address: Bits, mask: Bits)
    requires |address| == |mask| == WIDTH
    ensures Cursor(address, mask, address[..HALF], mask[..HALF], 0, 0, 0)
  {
  }

  lemma CursorStep(address: Bits, mask: Bits, addr: Bits, half: Bits, bit: nat, count: nat, d: nat)
    requires Cursor(address, mask, addr, half, bit, count, d) && bit < HALF
    ensures d < WIDTH && count < 2 && |half| == |addr| == HALF && half[bit] == mask[d] && addr[bit] == address[d]
    ensures if bit + 1 < HALF then Cursor(address, mask, addr, half, bit + 1, count, d + 1)
            else if count == 1 then Cursor(address, mask, addr, half, HALF, 2, d + 1)
            else count == 0 && Cursor(address, mask, address[HALF..], mask[HALF..], 0, 1, d + 1)
  {
  }

  lemma CursorEnd(address: Bits, mask: Bits, addr: Bits, half: Bits, bit: nat, count: nat, d: nat)
    requires Cursor(address, mask, addr, half, bit, count, d)
    ensures d <= WIDTH && (bit >= HALF <==> d == WIDTH) && |half| == HALF
    ensures d < WIDTH ==> half[bit] == mask[d]
  {
  }

  // ---- what the table answers -----------------------------------------------------

  // A value inserted under a prefix.
  datatype Entry<T> = Entry(key: Bits, value: T)

  // The routes after inserting entries in order, as IPTable.Insert leaves them.
  function Table<T>(es: seq<Entry<T>>): map<Bits, T> {
    if es == [] then map[]
    else
      var t := Table(es[..|es| - 1]);
      var e := es[|es| - 1];
      if e.key in t then t else t[e.key := e.value]
  }

  // A range as it stands in a routing table.
  datatype Range<T> = Range(address: Bits, mask: Bits, value: T)

  function Entries<T>(ranges: seq<Range<T>>): seq<Entry<T>>
    requires forall k :: 0 <= k < |ranges| ==> |ranges[k].address| == |ranges[k].mask|
  {
    seq(|ranges|, k requires 0 <= k < |ranges| => Entry(Prefix(ranges[k].address, ranges[k].mask), ranges[k].value))
  }

  predicate Matches(key: Bits, address: Bits) { key <= address }

  // A range with a contiguous mask is matched by the addresses equal to it under the
  // mask.
  lemma MatchesUnderMask(range: Bits, mask: Bits, address: Bits)
    requires |range| == |mask| == |address|
    requires forall i :: Ones(mask) <= i < |mask| ==> !mask[i]
    ensures Matches(Prefix(range, mask), address) <==>
              forall i :: 0 <= i < |mask| && mask[i] ==> range[i] == address[i]
  {
    var n := Ones(mask);
    assert Matches(Prefix(range, mask), address) <==> forall i :: 0 <= i < n ==> range[..n][i] == address[i];
  }

  // Entry i matches, no entry matches with a longer prefix, and none inserted before
  // it matches with an equally long one.
  ghost predicate Wins<T>(es: seq<Entry<T>>, address: Bits, i: nat)
    requires i < |es|
  {
    && Matches(es[i].key, address)
    && forall j :: 0 <= j < |es| && Matches(es[j].key, address) ==>
         |es[j].key| < |es[i].key| || (|es[j].key| == |es[i].key| && i <= j)
  }

  lemma {:induction false} TableFirst<T>(es: seq<Entry<T>>, p: Bits)
    ensures p in Table(es) <==> exists i :: 0 <= i < |es| && es[i].key == p
    ensures forall i | 0 <= i < |es| ::
              (es[i].key == p && forall j :: 0 <= j < i ==> es[j].key != p) ==> Table(es)[p] == es[i].value
    decreases |es|
  {
    if es != [] {
      var n := |es| - 1;
      TableFirst(es[..n], p);
      assert forall i :: 0 <= i < n ==> es[..n][i] == es[i];
      if p in Table(es[..n]) {
        var i :| 0 <= i < n && es[..n][i].key == p;
        assert es[i].key == p;
      }
    }
  }

  // The length of the longest prefix of `address` in the table.
  lemma {:induction false} BestIs<T>(routes: map<Bits, T>, address: Bits, n: nat) returns (k: int)
    requires n <= |address|
    ensures -1 <= k <= n && forall m :: k < m <= n ==> address[..m] !in routes
    ensures k == -1 ==> Best(routes, address, n).None?
    ensures k >= 0 ==> address[..k] in routes && Best(routes, address, n) == Some(routes[address[..k]])
  {
    if address[..n] in routes {
      k := n;
    } else if n == 0 {
      k := -1;
    } else {
      k := BestIs(routes, address, n - 1);
    }
  }

  lemma MatchPrefix(key: Bits, address: Bits)
    requires Matches(key, address)
    ensures |key| <= |address| && address[..|key|] == key
  {
  }

  lemma {:induction false} FirstWith<T>(es: seq<Entry<T>>, p: Bits, i: nat) returns (k: nat)
    requires i < |es| && es[i].key == p
    ensures k <= i && es[k].key == p && forall j :: 0 <= j < k ==> es[j].key != p
  {
    k := i;
    if exists j :: 0 <= j < i && es[j].key == p {
      var j :| 0 <= j < i && es[j].key == p;
      k := FirstWith(es, p, j);
    }
  }

  // A lookup after any sequence of inserts fails exactly if no entry matches, and
  // otherwise gives the value of the one entry that wins.
  lemma LongestMatch<T>(es: seq<Entry<T>>, address: Bits)
    ensures var r := Best(Table(es), address, |address|);
            && (r.None? <==> forall i :: 0 <= i < |es| ==> !Matches(es[i].key, address))
            && (r.Some? ==> exists i :: 0 <= i < |es| && Wins(es, address, i) && es[i].value == r.value)
            && (forall i, j | 0 <= i < |es| && 0 <= j < |es| :: Wins(es, address, i) && Wins(es, address, j) ==> i == j)
  {
    hide Table, Best;
    var k := BestIs(Table(es), address, |address|);
    forall i | 0 <= i < |es| && Matches(es[i].key, address)
      ensures |es[i].key| <= k
    {
      MatchPrefix(es[i].key, address);
      TableFirst(es, es[i].key);
    }
    if k >= 0 {
      TableFirst(es, address[..k]);
      var i :| 0 <= i < |es| && es[i].key == address[..k];
      var w := FirstWith(es, address[..k], i);
      forall j | 0 <= j < |es| && Matches(es[j].key, address)
        ensures |es[j].key| < k || (|es[j].key| == k && w <= j)
      {
        MatchPrefix(es[j].key, address);
      }
      assert Wins(es, address, w);
    }
  }
}
