/**
  What every reachable state of the network keeps, in both modes and with cancellation allowed.

  The invariant is split by the objects of the program.  `NodeOk` is about one goroutine, `StreamOk`
  about one shared stream and its source, `EdgeOk` about one subscription between a parent and a child.
 */
module NetworkInvariant {
  import opened Conditions
  import opened Sequences
  import opened SourceIds
  import opened Nodes
  import opened SharedStreams
  import opened NetworkSteps

  // Channels as message sequences

  function Wrap(events: seq<Event>): (r: seq<Message>)
    ensures |r| == |events|
    ensures forall i :: 0 <= i < |r| ==> r[i] == Fired(events[i])
  {
    seq(|events|, i requires 0 <= i < |events| => Fired(events[i]))
  }

  function EndMark(closed: bool): seq<Message> {
    if closed then [Closed] else []
  }

  /** Everything a subscription has ever been sent, its closing included. */
  function Sent(slot: Slot): seq<Message> {
    Wrap(slot.sent) + EndMark(slot.closed)
  }

  function Held(slot: Slot): seq<Message> {
    if slot.fwd.Putting? then [slot.fwd.message] else []
  }

  /** What its forwarder has not received yet. */
  function Unseen(slot: Slot): seq<Message> {
    Wrap(slot.buffer) + EndMark(slot.closed && slot.fwd != Putting(Closed) && !slot.fwd.Delivered?)
  }

  /** The messages of child `k` in a `merged` channel. */
  function Of(merged: seq<Tagged>, k: nat): seq<Message> {
    if merged == [] then []
    else (if merged[0].index == k then [merged[0].message] else []) + Of(merged[1..], k)
  }

  predicate EndsClosed(messages: seq<Message>) {
    messages != [] && messages[|messages| - 1].Closed?
  }

  predicate StartsFired(messages: seq<Message>) {
    messages != [] && messages[0].Fired?
  }

  /** Nothing follows a close. */
  predicate Tidy(messages: seq<Message>) {
    forall i :: 0 <= i < |messages| - 1 ==> messages[i].Fired?
  }

  /** The number of children whose close has not been consumed. */
  function OpenCount(used: seq<seq<Message>>): nat {
    if used == [] then 0
    else OpenCount(used[..|used| - 1]) + (if EndsClosed(used[|used| - 1]) then 0 else 1)
  }

  // One goroutine

  /** `closedChild` and the open counters tell which closes have been consumed. */
  ghost predicate Counted(w: Work, used: seq<seq<Message>>) {
    && (w.AndWork? ==> |w.closed| == |used|)
    && (w.AndWork? ==> forall k :: 0 <= k < |used| ==> (w.closed[k] <==> EndsClosed(used[k])))
    && (w.AndWork? || w.OrWork? ==> w.open == OpenCount(used))
  }

  /** At a loop head: some child is open, an AND has an unmatched child, and its closed children are matched. */
  ghost predicate AtLoopHead(mode: Mode, w: Work, used: seq<seq<Message>>) {
    match w
    case LeafWork => true
    case AndWork(matched, closed, _, open) =>
      && |matched| == |closed| == |used| && open > 0 && !AllMatched(matched)
      && (forall k :: 0 <= k < |closed| && closed[k] ==> matched[k])
      && (mode == Once ==> forall k :: 0 <= k < |used| ==> (matched[k] <==> StartsFired(used[k])))
    case OrWork(open) =>
      && open > 0
      && (mode == Once ==> forall k :: 0 <= k < |used| ==> !StartsFired(used[k]))
  }

  predicate PastLoop(n: Node) {
    n.phase.Leaving? || n.phase.Cleaning? || n.phase.Finished?
  }

  /** Why a composite may leave its loop without having emitted. */
  ghost predicate CannotFire(c: Condition, used: seq<seq<Message>>) {
    if c.And? then exists k :: 0 <= k < |used| && used[k] == [Closed]
    else forall k :: 0 <= k < |used| ==> used[k] == [Closed]
  }

  /** `gone` says that the context the node was run with has been cancelled. */
  ghost predicate NodeOk(c: Condition, mode: Mode, n: Node, gone: bool) {
    && Fits(c, n.work)
    && |n.used| == |c.Children()| && |n.merged| <= |c.Children()|
    && (forall t :: 0 <= t < |n.merged| ==> n.merged[t].index < |n.used|)
    && |n.out| <= 1
    && (mode == Once ==> |n.log| <= 1 && (n.phase.Looping? || n.phase.Emitting? ==> n.log == []))
    && (c.Leaf? ==> (n.phase.Looping? || n.phase.Leaving? || n.phase.Finished?) && !n.cancelled)
    && (!c.Leaf? ==> CompositeOk(c, mode, n, gone))
  }

  ghost predicate CompositeOk(c: Condition, mode: Mode, n: Node, gone: bool) {
    && (n.cancelled <==> n.phase.Cleaning? || n.phase.Finished?)
    && (n.phase.Cleaning? ==> n.phase.next <= |n.used|)
    && (forall k :: 0 <= k < |n.used| ==> Tidy(n.used[k]))
    && (n.phase.Looping? ==> n.used != [] && AtLoopHead(mode, n.work, n.used))
    && (n.phase.Looping? || n.phase.Emitting? ==> Counted(n.work, n.used))
    && (mode == Once && PastLoop(n) && n.log == [] ==> gone || CannotFire(c, n.used))
  }

  // One stream and its source

  predicate Drained(n: Node) {
    n.phase.Finished? && n.out == []
  }

  ghost predicate StreamOk(net: Network, c: nat, s: Stream<Edge>, cn: Node, all: bool) {
    && (forall e :: e in s.subs ==> IsEdge(net, e) && Child(net, e) == c)
    && (forall e :: e in s.Todo() ==> IsEdge(net, e) && Child(net, e) == c)
    && Distinct(s.Todo())
    && (s.disp.Ended? || s.emptied ==> s.subs == {})
    && (s.subs == {} ==> s.emptied || s.disp.Ended?)
    && (s.cancelled ==> s.emptied)
    && (s.disp.Holding? || s.disp.Delivering? ==> s.taken != [] && s.taken[|s.taken| - 1] == s.disp.event)
    && (s.disp.Ending? || s.disp.Ended? ==> Drained(cn) || all || s.cancelled)
    && cn.log == s.taken + cn.out
  }

  // One subscription

  /** Events reach the parent once, in order, and a close only after all of them. */
  ghost predicate FlowOk(slot: Slot, pn: Node, k: nat)
    requires k < |pn.used|
  {
    && (slot.fwd == Putting(Closed) || slot.fwd.Delivered? ==> slot.closed && slot.buffer == [])
    && var handed := pn.used[k] + Of(pn.merged, k);
    && (slot.fwd.Dropped? ==> handed <= Sent(slot))
    && (!slot.fwd.Dropped? ==> Sent(slot) == handed + Held(slot) + Unseen(slot))
  }

  predicate GivenUp(n: Node, k: nat) {
    n.phase.Finished? || (n.phase.Cleaning? && k < n.phase.next)
  }

  /** `done`: the subscription's context is done.  `all`: the caller has cancelled the root. */
  ghost predicate EdgeOk(e: Edge, slot: Slot, pn: Node, cn: Node, cs: Stream<Edge>, done: bool, all: bool) {
    && (all ==> done)
    && (done || e in cs.subs || cs.disp.Ended?)
    && (GivenUp(pn, e.pos) ==> e !in cs.subs)
    && e.pos < |pn.used| && FlowOk(slot, pn, e.pos)
    && (slot.fwd.Dropped? ==> done)
    && (pn.phase.Finished? ==> slot.fwd.Delivered? || slot.fwd.Dropped?)
    && slot.sent <= cs.taken
    && (e in cs.subs || e in cs.Todo() ==> slot.sent == cs.Due(e) || (all && cs.disp.Ending?))
    && (slot.closed ==> cs.disp.Ended?)
    && (cs.disp.Ended? && !done ==> slot.closed)
    && (slot.closed && !all ==> slot.sent == cs.taken && Drained(cn) && !cs.emptied)
  }

  // The whole state

  predicate Gone(net: Network, st: State, i: nat)
    requires i < |net| == |st.streams|
  {
    st.cancelled || (i != |net| - 1 && st.streams[i].cancelled)
  }

  ghost predicate NodeAt(net: Network, mode: Mode, st: State, i: nat)
    requires Shape(net, st) && i < |net|
  {
    NodeOk(net[i], mode, st.nodes[i], Gone(net, st, i))
  }

  ghost predicate StreamAt(net: Network, st: State, c: nat)
    requires Shape(net, st) && Streamed(net, c)
  {
    StreamOk(net, c, st.streams[c], st.nodes[c], st.cancelled)
  }

  ghost predicate EdgeAt(net: Network, st: State, e: Edge)
    requires ChildrenFirst(net) && Shape(net, st) && IsEdge(net, e)
  {
    var c := Child(net, e);
    EdgeOk(e, st.slots[e], st.nodes[e.parent], st.nodes[c], st.streams[c], RunDone(net, st, e.parent), st.cancelled)
  }

  ghost predicate Inv(net: Network, mode: Mode, st: State) {
    && WellFormed(net) && Shape(net, st)
    && (forall i: nat :: i < |net| ==> NodeAt(net, mode, st, i))
    && (forall c: nat :: Streamed(net, c) ==> StreamAt(net, st, c))
    && (forall e: Edge :: IsEdge(net, e) ==> EdgeAt(net, st, e))
    && st.nodes[Root(net)].log == st.received + st.nodes[Root(net)].out
  }

  // Arithmetic of messages

  lemma {:induction false} OfAppend(merged: seq<Tagged>, t: Tagged, k: nat)
    ensures Of(merged + [t], k) == Of(merged, k) + (if t.index == k then [t.message] else [])
  {
    if merged != [] {
      OfAppend(merged[1..], t, k);
      assert (merged + [t])[1..] == merged[1..] + [t];
    }
  }

  lemma {:induction false} OpenCountUpdate(used: seq<seq<Message>>, k: nat, v: seq<Message>)
    requires k < |used|
    ensures OpenCount(used[k := v]) ==
            OpenCount(used) + (if EndsClosed(used[k]) then 1 else 0) - (if EndsClosed(v) then 1 else 0)
  {
    var last := |used| - 1;
    if k < last {
      OpenCountUpdate(used[..last], k, v);
      assert used[k := v][..last] == used[..last][k := v];
    } else {
      assert used[k := v][..last] == used[..last];
    }
  }

  lemma {:induction false} OpenCountZero(used: seq<seq<Message>>)
    ensures OpenCount(used) == 0 <==> forall k :: 0 <= k < |used| ==> EndsClosed(used[k])
  {
    if used != [] {
      var last := |used| - 1;
      OpenCountZero(used[..last]);
      assert forall k :: 0 <= k < last ==> used[..last][k] == used[k];
    }
  }

  lemma {:induction false} OpenCountEmpty(used: seq<seq<Message>>)
    requires forall k :: 0 <= k < |used| ==> used[k] == []
    ensures OpenCount(used) == |used|
  {
    if used != [] {
      OpenCountEmpty(used[..|used| - 1]);
    }
  }

  /** After a close nothing more comes from the same child. */
  lemma CloseIsLast(slot: Slot, pn: Node, k: nat)
    requires k < |pn.used| && FlowOk(slot, pn, k)
    ensures EndsClosed(pn.used[k]) ==> Of(pn.merged, k) == [] && slot.closed
    ensures pn.used[k] <= Sent(slot)
    ensures pn.used[k] + Of(pn.merged, k) <= Sent(slot)
  {
    var used, sent := pn.used[k], Sent(slot);
    assert used + Of(pn.merged, k) <= sent by {
      if !slot.fwd.Dropped? {
        assert sent == (used + Of(pn.merged, k)) + (Held(slot) + Unseen(slot));
      }
    }
    if EndsClosed(used) {
      assert sent[|used| - 1] == used[|used| - 1];
    }
  }

  // Cancellation only weakens the invariant

  lemma NodeWeaken(c: Condition, mode: Mode, n: Node, gone: bool, more: bool)
    requires NodeOk(c, mode, n, gone) && (gone ==> more)
    ensures NodeOk(c, mode, n, more)
  {
  }

  lemma EdgeWeaken(e: Edge, slot: Slot, pn: Node, cn: Node, cs: Stream<Edge>, done: bool, more: bool, all: bool)
    requires EdgeOk(e, slot, pn, cn, cs, done, all) && (done ==> more)
    ensures EdgeOk(e, slot, pn, cn, cs, more, all)
  {
  }

  /** An edge only looks at its child to see whether it is drained. */
  lemma EdgeOtherChild(e: Edge, slot: Slot, pn: Node, cn: Node, to: Node, cs: Stream<Edge>, done: bool, all: bool)
    requires EdgeOk(e, slot, pn, cn, cs, done, all) && (Drained(cn) ==> Drained(to))
    ensures EdgeOk(e, slot, pn, to, cs, done, all)
  {
  }

  // The start

  lemma InitialNodeOk(c: Condition, mode: Mode)
    ensures NodeOk(c, mode, InitialNode(c), false)
  {
    var n := InitialNode(c);
    OpenCountEmpty(n.used);
    if !c.Leaf? && c.children != [] {
      assert n.used[0] == [];
      if c.And? {
        assert !n.work.matched[0];
      }
    }
  }

  lemma InitialShape(net: Network)
    ensures Shape(net, Initial(net))
  {
    forall e: Edge
      ensures IsEdge(net, e) <==> e in Initial(net).slots
    {
      assert e in AllEdges(net) <==> IsEdge(net, e);
    }
  }

  lemma InitialStreamOk(net: Network, c: nat)
    requires WellFormed(net) && Streamed(net, c)
    ensures StreamOk(net, c, NewStream(EdgesTo(net, c)), InitialNode(net[c]), false)
  {
    assert HasParent(net, c);
    var e: Edge :| IsEdge(net, e) && Child(net, e) == c;
    assert e in EdgesTo(net, c);
  }

  lemma InitialEdgeOk(net: Network, e: Edge)
    requires ChildrenFirst(net) && IsEdge(net, e)
    ensures var c := Child(net, e);
            EdgeOk(e, Slot([], false, Taking, []), InitialNode(net[e.parent]), InitialNode(net[c]),
                   NewStream(EdgesTo(net, c)), false, false)
  {
    assert e in EdgesTo(net, Child(net, e));
  }

  lemma InvInitially(net: Network, mode: Mode)
    requires WellFormed(net)
    ensures Inv(net, mode, Initial(net))
  {
    var st := Initial(net);
    InitialShape(net);
    forall i: nat | i < |net|
      ensures NodeAt(net, mode, st, i)
    {
      InitialNodeOk(net[i], mode);
    }
    forall c: nat | Streamed(net, c)
      ensures StreamAt(net, st, c)
    {
      InitialStreamOk(net, c);
    }
    forall e: Edge | IsEdge(net, e)
      ensures EdgeAt(net, st, e)
    {
      InitialEdgeOk(net, e);
      assert e in AllEdges(net);
      assert st.slots[e] == Slot([], false, Taking, []);
    }
  }
}
