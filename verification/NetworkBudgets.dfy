/**
  Budgets: every part of a state has a price, a step is paid for by the parts it changes, and a run that only
  takes affordable steps ends.
 */
module NetworkBudgets {
  import opened Conditions
  import opened Sequences
  import opened SourceIds
  import opened Nodes
  import opened SharedStreams
  import opened NetworkSteps
  import opened NetworkInvariant

  // Sums

  function Total(values: seq<nat>): nat {
    if values == [] then 0 else Total(values[..|values| - 1]) + values[|values| - 1]
  }

  lemma {:induction false} TotalUpdate(values: seq<nat>, i: nat, v: nat)
    requires i < |values|
    ensures Total(values[i := v]) + values[i] == Total(values) + v
  {
    var last := |values| - 1;
    if i < last {
      TotalUpdate(values[..last], i, v);
      assert values[i := v][..last] == values[..last][i := v];
    } else {
      assert values[i := v][..last] == values[..last];
    }
  }

  lemma {:induction false} TotalBound(values: seq<nat>, bound: nat)
    requires forall i :: 0 <= i < |values| ==> values[i] <= bound
    ensures Total(values) <= |values| * bound
  {
    if values != [] {
      var last := |values| - 1;
      TotalBound(values[..last], bound);
      assert |values| * bound == last * bound + bound;
    }
  }

  lemma {:induction false} DistinctFits<T>(order: seq<T>, s: set<T>)
    requires Distinct(order) && forall x :: x in order ==> x in s
    ensures |order| <= |s|
  {
    if order != [] {
      var x, rest := order[0], order[1..];
      forall y | y in rest
        ensures y in s - {x}
      {
        var j :| 0 <= j < |rest| && rest[j] == y;
        assert order[j + 1] == y;
        assert y in order;
      }
      DistinctFits(rest, s - {x});
    }
  }

  lemma {:induction false} SetOfSeq<T>(order: seq<T>)
    ensures |set x | x in order| <= |order|
  {
    if order != [] {
      SetOfSeq(order[1..]);
      assert (set x | x in order) == (set x | x in order[1..]) + {order[0]};
    }
  }

  // Prices

  /** What a node, a stream and a subscription are worth, depending on where they stand. */
  datatype Prices = Prices(node: (nat, Node) -> nat, stream: (nat, Stream<Edge>) -> nat, slot: (Edge, Slot) -> nat)
  {
    function OfNode(i: nat, n: Node): nat {
      node(i, n)
    }

    function OfStream(c: nat, s: Stream<Edge>): nat {
      stream(c, s)
    }

    function OfSlot(e: Edge, s: Slot): nat {
      slot(e, s)
    }
  }

  /** `order` lists the subscriptions of the network. */
  ghost predicate Lists(net: Network, order: seq<Edge>) {
    Distinct(order) && forall e: Edge {:trigger e in order} {:trigger IsEdge(net, e)} :: e in order <==> IsEdge(net, e)
  }

  lemma ChildrenFit(net: Network, i: nat, order: seq<Edge>)
    requires Lists(net, order) && i < |net|
    ensures |net[i].Children()| <= |order|
  {
    var n := |net[i].Children()|;
    var own := seq(n, k requires 0 <= k => Edge(i, k));
    forall e | e in own
      ensures e in set x | x in order
    {
      assert IsEdge(net, e);
    }
    DistinctFits(own, set x | x in order);
    SetOfSeq(order);
  }

  function NodeCosts(net: Network, st: State, prices: Prices): seq<nat>
    requires Shape(net, st)
  {
    seq(|net|, i requires 0 <= i < |net| && Shape(net, st) => prices.OfNode(i, st.nodes[i]))
  }

  function StreamCosts(net: Network, st: State, prices: Prices): seq<nat>
    requires Shape(net, st)
  {
    seq(|net|, i requires 0 <= i < |net| && Shape(net, st) => prices.OfStream(i, st.streams[i]))
  }

  function SlotCosts(net: Network, st: State, order: seq<Edge>, prices: Prices): seq<nat>
    requires Shape(net, st) && Lists(net, order)
  {
    seq(|order|, j requires 0 <= j < |order| && Shape(net, st) && Lists(net, order) =>
      assert order[j] in order; prices.OfSlot(order[j], st.slots[order[j]]))
  }

  function Worth(net: Network, st: State, order: seq<Edge>, prices: Prices): nat
    requires Shape(net, st) && Lists(net, order)
  {
    Total(NodeCosts(net, st, prices)) + Total(StreamCosts(net, st, prices)) + Total(SlotCosts(net, st, order, prices))
    + (if st.cancelled then 0 else 1)
  }

  // How a change of one or two parts changes the sum

  lemma NodeCost(net: Network, st: State, i: nat, n: Node, prices: Prices)
    requires Shape(net, st) && i < |net|
    ensures var st' := st.(nodes := st.nodes[i := n]);
            Total(NodeCosts(net, st', prices)) + prices.node(i, st.nodes[i])
            == Total(NodeCosts(net, st, prices)) + prices.node(i, n)
  {
    var st' := st.(nodes := st.nodes[i := n]);
    TotalUpdate(NodeCosts(net, st, prices), i, prices.node(i, n));
    assert NodeCosts(net, st', prices) == NodeCosts(net, st, prices)[i := prices.node(i, n)];
  }

  lemma StreamCost(net: Network, st: State, c: nat, s: Stream<Edge>, prices: Prices)
    requires Shape(net, st) && c < |net|
    ensures var st' := st.(streams := st.streams[c := s]);
            Total(StreamCosts(net, st', prices)) + prices.stream(c, st.streams[c])
            == Total(StreamCosts(net, st, prices)) + prices.stream(c, s)
  {
    var st' := st.(streams := st.streams[c := s]);
    TotalUpdate(StreamCosts(net, st, prices), c, prices.stream(c, s));
    assert StreamCosts(net, st', prices) == StreamCosts(net, st, prices)[c := prices.stream(c, s)];
  }

  lemma SlotCost(net: Network, st: State, e: Edge, slot: Slot, order: seq<Edge>, prices: Prices)
    requires Shape(net, st) && Lists(net, order) && IsEdge(net, e)
    ensures var st' := st.(slots := st.slots[e := slot]);
            Total(SlotCosts(net, st', order, prices)) + prices.slot(e, st.slots[e])
            == Total(SlotCosts(net, st, order, prices)) + prices.slot(e, slot)
  {
    hide Total;
    var st' := st.(slots := st.slots[e := slot]);
    assert e in order;
    var j :| 0 <= j < |order| && order[j] == e;
    TotalUpdate(SlotCosts(net, st, order, prices), j, prices.slot(e, slot));
    assert SlotCosts(net, st', order, prices) == SlotCosts(net, st, order, prices)[j := prices.slot(e, slot)];
  }

  /** The costs of the parts that a step leaves alone. */
  lemma Untouched(net: Network, st: State, st': State, order: seq<Edge>, prices: Prices)
    requires Shape(net, st) && Shape(net, st') && Lists(net, order)
    ensures st.nodes == st'.nodes ==> NodeCosts(net, st, prices) == NodeCosts(net, st', prices)
    ensures st.streams == st'.streams ==> StreamCosts(net, st, prices) == StreamCosts(net, st', prices)
    ensures st.slots == st'.slots ==> SlotCosts(net, st, order, prices) == SlotCosts(net, st', order, prices)
  {
  }

  lemma NodeChanges(net: Network, st: State, i: nat, n: Node, order: seq<Edge>, prices: Prices)
    requires Shape(net, st) && Lists(net, order) && i < |net|
    requires prices.node(i, n) < prices.node(i, st.nodes[i])
    ensures Worth(net, st.(nodes := st.nodes[i := n]), order, prices) < Worth(net, st, order, prices)
  {
    hide Total;
    NodeCost(net, st, i, n, prices);
    Untouched(net, st, st.(nodes := st.nodes[i := n]), order, prices);
  }

  lemma StreamChanges(net: Network, st: State, c: nat, s: Stream<Edge>, order: seq<Edge>, prices: Prices)
    requires Shape(net, st) && Lists(net, order) && c < |net|
    requires prices.stream(c, s) < prices.stream(c, st.streams[c])
    ensures Worth(net, st.(streams := st.streams[c := s]), order, prices) < Worth(net, st, order, prices)
  {
    hide Total;
    StreamCost(net, st, c, s, prices);
    Untouched(net, st, st.(streams := st.streams[c := s]), order, prices);
  }

  lemma SlotChanges(net: Network, st: State, e: Edge, slot: Slot, order: seq<Edge>, prices: Prices)
    requires Shape(net, st) && Lists(net, order) && IsEdge(net, e)
    requires prices.slot(e, slot) < prices.slot(e, st.slots[e])
    ensures Worth(net, st.(slots := st.slots[e := slot]), order, prices) < Worth(net, st, order, prices)
  {
    hide Total;
    SlotCost(net, st, e, slot, order, prices);
    Untouched(net, st, st.(slots := st.slots[e := slot]), order, prices);
  }

  lemma NodeAndSlotChange(net: Network, st: State, i: nat, n: Node, e: Edge, slot: Slot, order: seq<Edge>,
      prices: Prices)
    requires Shape(net, st) && Lists(net, order) && i < |net| && IsEdge(net, e)
    requires prices.node(i, n) + prices.slot(e, slot) < prices.node(i, st.nodes[i]) + prices.slot(e, st.slots[e])
    ensures Worth(net, st.(nodes := st.nodes[i := n], slots := st.slots[e := slot]), order, prices)
            < Worth(net, st, order, prices)
  {
    hide Total;
    var mid := st.(nodes := st.nodes[i := n]);
    NodeCost(net, st, i, n, prices);
    SlotCost(net, mid, e, slot, order, prices);
    Untouched(net, st, mid, order, prices);
    Untouched(net, mid, mid.(slots := st.slots[e := slot]), order, prices);
  }

  lemma NodeAndStreamChange(net: Network, st: State, i: nat, n: Node, c: nat, s: Stream<Edge>, order: seq<Edge>,
      prices: Prices)
    requires Shape(net, st) && Lists(net, order) && i < |net| && c < |net|
    requires prices.node(i, n) + prices.stream(c, s) < prices.node(i, st.nodes[i]) + prices.stream(c, st.streams[c])
    ensures Worth(net, st.(nodes := st.nodes[i := n], streams := st.streams[c := s]), order, prices)
            < Worth(net, st, order, prices)
  {
    hide Total;
    var mid := st.(nodes := st.nodes[i := n]);
    NodeCost(net, st, i, n, prices);
    StreamCost(net, mid, c, s, prices);
    Untouched(net, st, mid, order, prices);
    Untouched(net, mid, mid.(streams := st.streams[c := s]), order, prices);
  }

  lemma StreamAndSlotChange(net: Network, st: State, c: nat, s: Stream<Edge>, e: Edge, slot: Slot, order: seq<Edge>,
      prices: Prices)
    requires Shape(net, st) && Lists(net, order) && c < |net| && IsEdge(net, e)
    requires prices.stream(c, s) + prices.slot(e, slot) < prices.stream(c, st.streams[c]) + prices.slot(e, st.slots[e])
    ensures Worth(net, st.(streams := st.streams[c := s], slots := st.slots[e := slot]), order, prices)
            < Worth(net, st, order, prices)
  {
    hide Total;
    var mid := st.(streams := st.streams[c := s]);
    StreamCost(net, st, c, s, prices);
    SlotCost(net, mid, e, slot, order, prices);
    Untouched(net, st, mid, order, prices);
    Untouched(net, mid, mid.(slots := st.slots[e := slot]), order, prices);
  }

  /** Closing channels is free, when a closed subscription costs what an open one does. */
  lemma ClosingIsFree(net: Network, st: State, st': State, order: seq<Edge>, prices: Prices)
    requires Shape(net, st) && Shape(net, st') && Lists(net, order)
    requires st'.nodes == st.nodes && st'.streams == st.streams && st'.cancelled == st.cancelled
    requires forall e :: e in st.slots && e in st'.slots ==> prices.slot(e, st'.slots[e]) == prices.slot(e, st.slots[e])
    ensures Worth(net, st', order, prices) == Worth(net, st, order, prices)
  {
    hide Total;
    Untouched(net, st, st', order, prices);
    forall j | 0 <= j < |order|
      ensures SlotCosts(net, st, order, prices)[j] == SlotCosts(net, st', order, prices)[j]
    {
      assert order[j] in order;
    }
    assert SlotCosts(net, st, order, prices) == SlotCosts(net, st', order, prices);
  }

  lemma CancellationChanges(net: Network, st: State, order: seq<Edge>, prices: Prices)
    requires Shape(net, st) && Lists(net, order) && !st.cancelled
    ensures Worth(net, st.(cancelled := true), order, prices) < Worth(net, st, order, prices)
  {
    Untouched(net, st, st.(cancelled := true), order, prices);
  }

  /** A copy of a stream's subscribers is no longer than the list of all subscriptions. */
  lemma CopyFits(net: Network, st: State, c: nat, copy: seq<Edge>, order: seq<Edge>)
    requires Shape(net, st) && Streamed(net, c) && StreamAt(net, st, c) && Lists(net, order)
    requires CanSnapshot(net, st, c, copy)
    ensures |copy| <= |order|
  {
    var all := set e | e in order;
    assert forall e :: e in copy ==> e in all;
    DistinctFits(copy, all);
    SetOfSeq(order);
  }
}
