/**
  Continuous mode at rest, with a caller that has taken what the root emitted: no event that a child has
  emitted for a running parent is stuck in a dispatcher, a channel or a forwarder.
 */
module NetworkDelivery {
  import opened Conditions
  import opened Sequences
  import opened SourceIds
  import opened Nodes
  import opened SharedStreams
  import opened NetworkSteps
  import opened NetworkInvariant
  import opened NetworkSafety
  import opened NetworkVerdict
  import opened NetworkBudgets
  import opened NetworkProgress
  import opened Loops
  import opened NetworkReplay

  /** The caller has taken every event of the root. */
  predicate KeptUp(net: Network, st: State)
    requires Shape(net, st) && 0 < |net|
  {
    st.nodes[Root(net)].out == []
  }

  /** All that a condition has to say so far: its events, and the closing of its channel. */
  function Emissions(n: Node): seq<Message> {
    Wrap(n.log) + EndMark(n.phase.Finished?)
  }

  // Who waits, and for what

  lemma WaitsAtItsLoop(net: Network, st: State, p: nat)
    requires Inv(net, Continuous, st) && Quiet(net, st) && Composite(net, p)
    requires !RunDone(net, st, p) && st.nodes[p].out == []
    ensures st.nodes[p].phase.Looping? && st.nodes[p].merged == []
    ensures 0 < |net[p].children| == |st.nodes[p].used|
  {
    hide StreamOk, EdgeOk;
    CleanupEnds(net, Continuous, st, p);
    assert NodeAt(net, Continuous, st, p);
    assert !Enabled(net, st, EmitStep(p));
    assert !Enabled(net, st, ReceiveStep(p));
  }

  /** Nothing is under way between a subscription and the goroutine it belongs to. */
  lemma ForwarderWaits(net: Network, st: State, e: Edge)
    requires Inv(net, Continuous, st) && Quiet(net, st) && IsEdge(net, e)
    requires !RunDone(net, st, e.parent) && st.nodes[e.parent].out == []
    ensures st.slots[e].buffer == [] && !st.slots[e].fwd.Putting?
    ensures e.pos < |st.nodes[e.parent].used| && st.nodes[e.parent].used[e.pos] == Sent(st.slots[e])
  {
    hide NodeOk, StreamOk;
    WaitsAtItsLoop(net, st, e.parent);
    assert EdgeAt(net, st, e);
    assert !Enabled(net, st, PutStep(e));
    assert !Enabled(net, st, TakeStep(e));
    NothingHeld(st.slots[e], st.nodes[e.parent], e.pos);
  }

  /** By induction from the root down: a dispatcher that was not told to stop waits for its source. */
  lemma {:induction false} DispatcherWaits(net: Network, st: State, c: nat)
    requires Inv(net, Continuous, st) && Quiet(net, st) && KeptUp(net, st)
    requires c < |net| && !ContextDone(net, st, c)
    ensures st.nodes[c].out == []
    ensures Streamed(net, c) ==> st.streams[c].disp.Idle?
    decreases |net| - c
  {
    hide NodeOk, EdgeOk, RunDone, Quiet;
    if Streamed(net, c) {
      var s := st.streams[c];
      assert StreamAt(net, st, c);
      if s.Todo() != [] {
        var e := s.disp.todo[0];
        assert e in s.Todo();
        if !RunDone(net, st, e.parent) {
          RunIsWithinContext(net, st, e.parent);
          DispatcherWaits(net, st, e.parent);
          ForwarderWaits(net, st, e);
          assert CanSend(net, st, c);
        }
      }
      hide StreamOk;
      MovesOn(net, st, c);
    }
  }

  lemma RunIsWithinContext(net: Network, st: State, p: nat)
    requires Shape(net, st) && p < |net| && !RunDone(net, st, p)
    ensures !ContextDone(net, st, p)
  {
  }

  /** The dispatcher's own steps: it copies, sends, skips, rests, and fetches the next event. */
  lemma MovesOn(net: Network, st: State, c: nat)
    requires Shape(net, st) && Quiet(net, st) && Streamed(net, c) && !ContextDone(net, st, c)
    requires st.streams[c].Todo() != [] ==> CanSend(net, st, c) || CanSkip(net, st, c)
    ensures st.streams[c].disp.Idle? && st.nodes[c].out == []
  {
    var order := HoldingCanCopy(net, st, c);
    assert !Enabled(net, st, SnapshotStep(c, order));
    assert !Enabled(net, st, SendStep(c));
    assert !Enabled(net, st, SkipStep(c));
    assert !Enabled(net, st, RestStep(c));
    assert !Enabled(net, st, FinishStep(c));
    assert !Enabled(net, st, PullStep(c));
  }

  // Delivery

  /** The subscription of a parent that still runs has been sent all its child emitted, and its close. */
  lemma SentEverything(net: Network, st: State, e: Edge)
    requires Inv(net, Continuous, st) && Quiet(net, st) && KeptUp(net, st)
    requires IsEdge(net, e) && !RunDone(net, st, e.parent)
    ensures st.slots[e].sent == st.nodes[Child(net, e)].log
    ensures st.slots[e].closed <==> st.nodes[Child(net, e)].phase.Finished?
  {
    hide NodeOk, FlowOk, Quiet;
    var c := Child(net, e);
    assert EdgeAt(net, st, e) && StreamAt(net, st, c);
    if !st.streams[c].disp.Ended? {
      DispatcherWaits(net, st, c);
      DrainedIsStopped(net, st, c);
    }
  }

  lemma DrainedIsStopped(net: Network, st: State, c: nat)
    requires Shape(net, st) && Quiet(net, st) && Streamed(net, c)
    ensures !(st.streams[c].disp.Idle? && Drained(st.nodes[c]))
  {
    assert !Enabled(net, st, StopStep(c));
  }

  /**
    Everything is delivered.  In every Continuous run, at rest and with a caller that keeps up, what a child
    has emitted for a parent whose run context is not done has been sent to its subscription and consumed
    by the parent, and so has the child's close; channels and forwarder are empty.
   */
  lemma EverythingIsDelivered(net: Network, trace: seq<State>, steps: seq<Step>, n: nat, e: Edge)
    requires IsRun(net, Continuous, trace, steps) && n < |trace| && IsEdge(net, e)
    requires Shape(net, trace[n]) && Quiet(net, trace[n]) && KeptUp(net, trace[n])
    requires !RunDone(net, trace[n], e.parent)
    ensures var st := trace[n];
            var slot, parent, child := st.slots[e], st.nodes[e.parent], st.nodes[Child(net, e)];
            && slot.sent == child.log && slot.buffer == [] && parent.merged == [] && child.out == []
            && !slot.fwd.Putting? && parent.phase.Looping?
            && e.pos < |parent.used| && parent.used[e.pos] == Emissions(child)
  {
    hide Quiet, NodeOk, FlowOk;
    EveryRunIsSound(net, Continuous, trace, steps, n);
    var st, c := trace[n], Child(net, e);
    RunIsWithinContext(net, st, e.parent);
    DispatcherWaits(net, st, e.parent);
    WaitsAtItsLoop(net, st, e.parent);
    ForwarderWaits(net, st, e);
    SentEverything(net, st, e);
    assert EdgeAt(net, st, e) && StreamAt(net, st, c);
    if !st.streams[c].disp.Ended? {
      DispatcherWaits(net, st, c);
    }
  }

  /** The messages that a running composite has consumed are, child by child, all that its children emitted. */
  lemma WaitingHasConsumedAll(net: Network, trace: seq<State>, steps: seq<Step>, n: nat, p: nat)
    requires IsRun(net, Continuous, trace, steps) && n < |trace| && Composite(net, p)
    requires Shape(net, trace[n]) && Quiet(net, trace[n]) && KeptUp(net, trace[n])
    requires !RunDone(net, trace[n], p)
    ensures forall k: nat :: IsEdge(net, Edge(p, k)) ==>
              Of(Consumed(trace, steps, n, p), k) == Emissions(trace[n].nodes[Child(net, Edge(p, k))])
  {
    hide Consumed, Of, Quiet, Emissions, RunDone;
    forall k: nat | IsEdge(net, Edge(p, k))
      ensures Of(Consumed(trace, steps, n, p), k) == Emissions(trace[n].nodes[Child(net, Edge(p, k))])
    {
      ConsumedByChild(net, Continuous, trace, steps, n, p, k);
      EverythingIsDelivered(net, trace, steps, n, Edge(p, k));
    }
  }

  // OR nodes

  /** The messages of `all`, child by child. */
  function ByChild(all: seq<Tagged>, n: nat): seq<seq<Message>> {
    seq(n, k requires 0 <= k => Of(all, k))
  }

  lemma ByChildMore(all: seq<Tagged>, t: Tagged, n: nat)
    requires t.index < n
    ensures ByChild(all + [t], n) == ByChild(all, n)[t.index := ByChild(all, n)[t.index] + [t.message]]
  {
    forall k: nat | k < n
      ensures ByChild(all + [t], n)[k] == ByChild(all, n)[t.index := ByChild(all, n)[t.index] + [t.message]][k]
    {
      OfAppend(all, t, k);
    }
  }

  lemma {:induction false} ForwardedMore(id: string, messages: seq<Tagged>, t: Tagged)
    ensures Forwarded(id, messages + [t]) ==
            Forwarded(id, messages) + if t.message.Fired? then [Event(id, EventSources(t.message.event))] else []
  {
    hide EventSources;
    if messages == [] {
      assert Forwarded(id, []) == [];
      assert ([t])[1..] == [];
    } else {
      ForwardedMore(id, messages[1..], t);
      assert (messages + [t])[1..] == messages[1..] + [t];
    }
  }

  /** The loop of an OR forwards every event and goes on exactly until the last child has closed. */
  lemma {:induction false} OrReplay(c: Condition, messages: seq<Tagged>)
    requires c.Or? && c.children != [] && Indexed(messages, |c.children|)
    requires forall k: nat :: k < |c.children| ==> Tidy(Of(messages, k))
    ensures var open := OpenCount(ByChild(messages, |c.children|));
            Replay(c, Continuous, messages) == Local(OrWork(open), open > 0, Forwarded(c.id, messages))
    decreases |messages|
  {
    hide Of, EventSources, OpenCount;
    var n := |c.children|;
    if messages == [] {
      NothingConsumed(n);
    } else {
      var last := |messages| - 1;
      var before, t := messages[..last], messages[last];
      assert before + [t] == messages;
      forall k: nat | k < n
        ensures Tidy(Of(before, k))
      {
        assert Tidy(Of(messages, k));
        OfAppend(before, t, k);
        TidyPrefix(Of(before, k), if t.index == k then [t.message] else []);
      }
      OrReplay(c, before);
      ForwardedMore(c.id, before, t);
      var used := ByChild(before, n);
      ByChildMore(before, t, n);
      OfAppend(before, t, t.index);
      assert Tidy(used[t.index] + [t.message]);
      StillOpen(used, t.index, t.message);
      OpenCountUpdate(used, t.index, used[t.index] + [t.message]);
      OrConsumes(c, OpenCount(used), Forwarded(c.id, before), t);
    }
  }

  lemma NothingConsumed(n: nat)
    ensures OpenCount(ByChild([], n)) == n
  {
    OpenCountEmpty(ByChild([], n));
  }

  lemma TidyPrefix(messages: seq<Message>, rest: seq<Message>)
    requires Tidy(messages + rest)
    ensures Tidy(messages)
    ensures rest != [] ==> !EndsClosed(messages)
  {
    forall i | 0 <= i < |messages| - 1 || (rest != [] && 0 <= i < |messages|)
      ensures messages[i].Fired?
    {
      assert (messages + rest)[i] == messages[i];
    }
  }

  lemma StillOpen(used: seq<seq<Message>>, k: nat, m: Message)
    requires k < |used| && Tidy(used[k] + [m])
    ensures !EndsClosed(used[k]) && OpenCount(used) > 0
  {
    TidyPrefix(used[k], [m]);
    OpenCountZero(used);
  }

  lemma OrConsumes(c: Condition, open: nat, log: seq<Event>, t: Tagged)
    requires c.Or? && c.children != [] && t.index < |c.children| && open > 0
    ensures NetworkReplay.Consume(c, Continuous, Local(OrWork(open), true, log), t) ==
            if t.message.Closed? then Local(OrWork(open - 1), open > 1, log)
            else Local(OrWork(open), true, log + [Event(c.id, EventSources(t.message.event))])
  {
    hide EventSources;
  }

  lemma ConsumedIsTidy(net: Network, trace: seq<State>, steps: seq<Step>, n: nat, p: nat)
    requires IsRun(net, Continuous, trace, steps) && n < |trace| && Composite(net, p)
    ensures forall k: nat :: k < |net[p].children| ==> Tidy(Of(Consumed(trace, steps, n, p), k))
  {
    hide Consumed, Of, Tidy, StreamAt, EdgeAt;
    EveryRunIsSound(net, Continuous, trace, steps, n);
    forall k: nat | k < |net[p].children|
      ensures Tidy(Of(Consumed(trace, steps, n, p), k))
    {
      ConsumedByChild(net, Continuous, trace, steps, n, p, k);
      assert NodeAt(net, Continuous, trace[n], p);
    }
  }

  /**
    In every state of every Continuous run an OR whose context is not done has forwarded every event it has
    consumed, in order and the one on its way included; it leaves its loop only when every child has closed.
   */
  lemma RunningOrForwards(net: Network, trace: seq<State>, steps: seq<Step>, n: nat, p: nat)
    requires IsRun(net, Continuous, trace, steps) && n < |trace|
    requires p < |net| && net[p].Or? && net[p].children != []
    requires Shape(net, trace[n]) && !ContextDone(net, trace[n], p)
    ensures Decided(trace[n].nodes[p]) == Forwarded(net[p].id, Consumed(trace, steps, n, p))
    ensures PastLoop(trace[n].nodes[p]) ==>
              forall k: nat :: k < |net[p].children| ==> EndsClosed(Of(Consumed(trace, steps, n, p), k))
  {
    hide Consumed, Of, Replay, Tidy, ContextDone, OpenCount, AfterEmit;
    var all := Consumed(trace, steps, n, p);
    EveryNodeFollows(net, Continuous, trace, steps, n, p);
    ConsumedIsTidy(net, trace, steps, n, p);
    OrReplay(net[p], all);
    if PastLoop(trace[n].nodes[p]) {
      OpenCountZero(ByChild(all, |net[p].children|));
      forall k: nat | k < |net[p].children|
        ensures EndsClosed(Of(all, k))
      {
        assert EndsClosed(ByChild(all, |net[p].children|)[k]);
      }
    }
  }

  /** The close is the last thing a subscription is sent: whoever has consumed it has consumed everything. */
  lemma ClosedHasAll(net: Network, st: State, e: Edge)
    requires Inv(net, Continuous, st) && IsEdge(net, e) && !st.cancelled
    requires e.pos < |st.nodes[e.parent].used| && EndsClosed(st.nodes[e.parent].used[e.pos])
    ensures st.nodes[e.parent].used[e.pos] == Emissions(st.nodes[Child(net, e)])
  {
    hide NodeOk, FlowOk, EndsClosed;
    assert EdgeAt(net, st, e) && StreamAt(net, st, Child(net, e));
    hide EdgeOk, StreamOk, Inv;
    CloseIsLast(st.slots[e], st.nodes[e.parent], e.pos);
    SlotIsComplete(net, st, e);
    ClosedIsAll(st.slots[e], st.nodes[e.parent].used[e.pos]);
  }

  lemma ClosedIsAll(slot: Slot, used: seq<Message>)
    requires used <= Sent(slot) && EndsClosed(used)
    ensures used == Sent(slot)
  {
    assert Sent(slot)[|used| - 1] == Closed;
  }

  lemma SlotIsComplete(net: Network, st: State, e: Edge)
    requires Inv(net, Continuous, st) && IsEdge(net, e) && !st.cancelled && st.slots[e].closed
    ensures Sent(st.slots[e]) == Emissions(st.nodes[Child(net, e)])
  {
    hide NodeOk, FlowOk;
    assert EdgeAt(net, st, e) && StreamAt(net, st, Child(net, e));
  }

  /**
    In every Continuous run, at rest and with a caller that keeps up, an OR whose context is not done has
    consumed everything its children have emitted, and has emitted one event for each of their events.
   */
  lemma RestingOrHasForwardedAll(net: Network, trace: seq<State>, steps: seq<Step>, n: nat, p: nat)
    requires IsRun(net, Continuous, trace, steps) && n < |trace|
    requires p < |net| && net[p].Or? && net[p].children != []
    requires Shape(net, trace[n]) && Quiet(net, trace[n]) && KeptUp(net, trace[n])
    requires !ContextDone(net, trace[n], p)
    ensures trace[n].nodes[p].log == Forwarded(net[p].id, Consumed(trace, steps, n, p))
    ensures forall k: nat :: IsEdge(net, Edge(p, k)) ==>
              Of(Consumed(trace, steps, n, p), k) == Emissions(trace[n].nodes[Child(net, Edge(p, k))])
  {
    hide Consumed, Of, Quiet, NodeOk, StreamOk, EdgeOk;
    var st := trace[n];
    EveryRunIsSound(net, Continuous, trace, steps, n);
    RunningOrForwards(net, trace, steps, n, p);
    RestingPhase(net, st, p);
    if st.nodes[p].phase.Looping? {
      WaitingHasConsumedAll(net, trace, steps, n, p);
    } else {
      forall k: nat | IsEdge(net, Edge(p, k))
        ensures Of(Consumed(trace, steps, n, p), k) == Emissions(st.nodes[Child(net, Edge(p, k))])
      {
        ConsumedByChild(net, Continuous, trace, steps, n, p, k);
        ClosedHasAll(net, st, Edge(p, k));
      }
    }
  }

  lemma RestingPhase(net: Network, st: State, p: nat)
    requires Inv(net, Continuous, st) && Quiet(net, st) && KeptUp(net, st) && Composite(net, p)
    requires !ContextDone(net, st, p)
    ensures st.nodes[p].phase.Looping? || st.nodes[p].phase.Finished?
    ensures st.nodes[p].phase.Looping? <==> !RunDone(net, st, p)
  {
    hide StreamOk, EdgeOk;
    DispatcherWaits(net, st, p);
    CleanupEnds(net, Continuous, st, p);
    assert NodeAt(net, Continuous, st, p);
    if !RunDone(net, st, p) {
      WaitsAtItsLoop(net, st, p);
    }
  }

  // Counting

  function EventsIn(messages: seq<Message>): nat {
    if messages == [] then 0
    else EventsIn(messages[..|messages| - 1]) + if messages[|messages| - 1].Fired? then 1 else 0
  }

  function AllEvents(used: seq<seq<Message>>): nat {
    if used == [] then 0 else AllEvents(used[..|used| - 1]) + EventsIn(used[|used| - 1])
  }

  /** How many events the first `k` children of `p` have emitted; a child that occurs twice counts twice. */
  function ChildEvents(net: Network, st: State, p: nat, k: nat): nat
    requires ChildrenFirst(net) && Shape(net, st) && Composite(net, p) && k <= |net[p].children|
  {
    if k == 0 then 0
    else
      var e := Edge(p, k - 1);
      assert IsEdge(net, e);
      ChildEvents(net, st, p, k - 1) + |st.nodes[Child(net, e)].log|
  }

  lemma {:induction false} OneMoreEvent(used: seq<seq<Message>>, k: nat, m: Message)
    requires k < |used|
    ensures AllEvents(used[k := used[k] + [m]]) == AllEvents(used) + if m.Fired? then 1 else 0
  {
    var last := |used| - 1;
    var more := used[k := used[k] + [m]];
    if k < last {
      OneMoreEvent(used[..last], k, m);
      assert more[..last] == used[..last][k := used[k] + [m]];
    } else {
      assert more[..last] == used[..last];
      assert (used[k] + [m])[..|used[k]|] == used[k];
    }
  }

  lemma {:induction false} ForwardedCounts(id: string, messages: seq<Tagged>, n: nat)
    requires Indexed(messages, n)
    ensures |Forwarded(id, messages)| == AllEvents(ByChild(messages, n))
    decreases |messages|
  {
    hide EventSources, AllEvents;
    if messages == [] {
      NoEvents(n);
    } else {
      var last := |messages| - 1;
      var before, t := messages[..last], messages[last];
      assert before + [t] == messages;
      ForwardedCounts(id, before, n);
      ForwardedMore(id, before, t);
      ByChildMore(before, t, n);
      OneMoreEvent(ByChild(before, n), t.index, t.message);
    }
  }

  lemma {:induction false} NoEvents(n: nat)
    ensures AllEvents(ByChild([], n)) == 0
  {
    if n > 0 {
      NoEvents(n - 1);
      assert ByChild([], n)[..n - 1] == ByChild([], n - 1);
    }
  }

  lemma {:induction false} EventsInLog(events: seq<Event>, closed: bool)
    ensures EventsIn(Wrap(events) + EndMark(closed)) == |events|
    decreases |events|, closed
  {
    var messages := Wrap(events) + EndMark(closed);
    if closed {
      EventsInLog(events, false);
      assert messages[..|events|] == Wrap(events) + EndMark(false);
    } else if events != [] {
      var last := |events| - 1;
      EventsInLog(events[..last], false);
      assert messages[..last] == Wrap(events[..last]) + EndMark(false);
    }
  }

  lemma EventsOfNode(n: Node)
    ensures EventsIn(Emissions(n)) == |n.log|
  {
    EventsInLog(n.log, n.phase.Finished?);
  }

  lemma {:induction false} EventsOfChildren(net: Network, st: State, p: nat, used: seq<seq<Message>>)
    requires ChildrenFirst(net) && Shape(net, st) && Composite(net, p) && |used| <= |net[p].children|
    requires forall k: nat :: IsEdge(net, Edge(p, k)) && k < |used| ==>
               used[k] == Emissions(st.nodes[Child(net, Edge(p, k))])
    ensures AllEvents(used) == ChildEvents(net, st, p, |used|)
  {
    hide Emissions, EventsIn;
    if used != [] {
      var last := |used| - 1;
      assert IsEdge(net, Edge(p, last));
      assert forall k: nat :: k < last ==> used[..last][k] == used[k];
      EventsOfChildren(net, st, p, used[..last]);
      EventsOfNode(st.nodes[Child(net, Edge(p, last))]);
    }
  }

  /** So an OR has emitted as many events as all its children together. */
  lemma RestingOrLosesNone(net: Network, trace: seq<State>, steps: seq<Step>, n: nat, p: nat)
    requires IsRun(net, Continuous, trace, steps) && n < |trace|
    requires p < |net| && net[p].Or? && net[p].children != []
    requires Shape(net, trace[n]) && Quiet(net, trace[n]) && KeptUp(net, trace[n])
    requires !ContextDone(net, trace[n], p)
    ensures |trace[n].nodes[p].log| == ChildEvents(net, trace[n], p, |net[p].children|)
  {
    hide Consumed, Of, Quiet, Emissions, AllEvents, ContextDone, Follows;
    var messages, size := Consumed(trace, steps, n, p), |net[p].children|;
    RestingOrHasForwardedAll(net, trace, steps, n, p);
    EveryNodeFollows(net, Continuous, trace, steps, n, p);
    FollowsIndexed(net[p], Continuous, trace[n].nodes[p], messages, ContextDone(net, trace[n], p));
    ForwardedCounts(net[p].id, messages, size);
    EventsOfChildren(net, trace[n], p, ByChild(messages, size));
  }

  // AND nodes

  lemma OneMoreOfIt(messages: seq<Tagged>, all: seq<Tagged>)
    requires messages <= all && messages != all
    ensures var k := all[|messages|].index; |Of(messages, k)| < |Of(all, k)|
  {
    OfPosition(all, |messages|);
    assert all[..|messages|] == messages;
  }

  lemma NothingLeft(messages: seq<Tagged>, all: seq<Tagged>, n: nat)
    requires messages <= all && Indexed(all, n)
    requires forall k: nat :: k < n ==> Of(all, k) == Of(messages, k)
    ensures all == messages
  {
    if messages != all {
      OneMoreOfIt(messages, all);
    }
  }

  /**
    In every Continuous run, at rest and with a caller that keeps up, an AND whose context is not done has
    emitted the maximum number of events.  Take any list of all that its children have emitted which
    continues what it has consumed: the disjoint consecutive blocks in which every child fires are exactly as
    many as its events.  While it runs it has consumed everything, so there is only one such list.
   */
  lemma RestingAndIsOptimal(net: Network, trace: seq<State>, steps: seq<Step>, n: nat, p: nat, all: seq<Tagged>,
      count: nat)
    requires IsRun(net, Continuous, trace, steps) && n < |trace|
    requires p < |net| && net[p].And? && net[p].children != []
    requires Shape(net, trace[n]) && Quiet(net, trace[n]) && KeptUp(net, trace[n])
    requires !ContextDone(net, trace[n], p)
    requires Indexed(all, |net[p].children|) && Consumed(trace, steps, n, p) <= all
    requires forall k: nat :: IsEdge(net, Edge(p, k)) ==>
               Of(all, k) == Emissions(trace[n].nodes[Child(net, Edge(p, k))])
    ensures Packs(Unset(|net[p].children|), all, count) <==> count <= |trace[n].nodes[p].log|
    ensures trace[n].nodes[p].phase.Looping? ==> all == Consumed(trace, steps, n, p)
  {
    hide Consumed, Of, Quiet, Packs, Run, NodeOk, StreamOk, EdgeOk, Replay, AfterEmit, ContextDone, ClosesLast;
    var st, c, messages := trace[n], net[p], Consumed(trace, steps, n, p);
    EveryRunIsSound(net, Continuous, trace, steps, n);
    RestingPhase(net, st, p);
    EmissionsCloseLast(net, st, p, all);
    AndIsOptimal(c, all, count);
    EveryNodeFollows(net, Continuous, trace, steps, n, p);
    var rest := all[|messages|..];
    assert messages + rest == all;
    ReplayThenRun(c, Continuous, messages, rest);
    if st.nodes[p].phase.Looping? {
      WaitingHasConsumedAll(net, trace, steps, n, p);
      assert forall k: nat :: k < |c.children| ==> IsEdge(net, Edge(p, k));
      NothingLeft(messages, all, |c.children|);
      RunEmpty(c, Continuous, Replay(c, Continuous, messages).work);
    }
  }

  lemma EmissionsCloseLast(net: Network, st: State, p: nat, all: seq<Tagged>)
    requires ChildrenFirst(net) && Shape(net, st) && Composite(net, p) && Indexed(all, |net[p].children|)
    requires forall k: nat :: IsEdge(net, Edge(p, k)) ==>
               Of(all, k) == Emissions(st.nodes[Child(net, Edge(p, k))])
    ensures ClosesLast(all)
  {
    hide Of;
    forall k: nat
      ensures Tidy(Of(all, k))
    {
      if k < |net[p].children| {
        assert IsEdge(net, Edge(p, k));
      } else {
        OfStrangers(all, k, |net[p].children|);
      }
    }
    TidyChildrenCloseLast(all);
  }

  lemma {:induction false} OfSingles(messages: seq<Message>, k: nat, j: nat)
    ensures Of(Tags(messages, k), j) == if j == k then messages else []
  {
    if messages != [] {
      OfSingles(messages[1..], k, j);
      assert Tags(messages, k)[1..] == Tags(messages[1..], k);
    }
  }

  function Tags(messages: seq<Message>, k: nat): seq<Tagged> {
    seq(|messages|, i requires 0 <= i < |messages| => Tagged(k, messages[i]))
  }

  lemma {:induction false} OfConcat(a: seq<Tagged>, b: seq<Tagged>, k: nat)
    ensures Of(a + b, k) == Of(a, k) + Of(b, k)
    decreases |b|
  {
    assert Of([], k) == [];
    hide Of;
    if b == [] {
      assert a + b == a;
    } else {
      var last := |b| - 1;
      var before, t := b[..last], b[last];
      OfConcat(a, before, k);
      OfAppend(a + before, t, k);
      OfAppend(before, t, k);
      assert before + [t] == b;
      assert (a + before) + [t] == a + b;
    }
  }

  lemma {:induction false} Continue(messages: seq<Tagged>, wanted: seq<seq<Message>>, n: nat) returns (all: seq<Tagged>)
    requires Indexed(messages, |wanted|) && n <= |wanted|
    requires forall k: nat :: k < |wanted| ==> Of(messages, k) <= wanted[k]
    ensures Indexed(all, |wanted|) && messages <= all
    ensures forall k: nat :: k < |wanted| ==> Of(all, k) == if k < n then wanted[k] else Of(messages, k)
    decreases n
  {
    hide Of;
    if n == 0 {
      all := messages;
    } else {
      var before := Continue(messages, wanted, n - 1);
      var left := wanted[n - 1][|Of(messages, n - 1)|..];
      all := before + Tags(left, n - 1);
      hide Tags;
      forall k: nat | k < |wanted|
        ensures Of(all, k) == if k < n then wanted[k] else Of(messages, k)
      {
        OfConcat(before, Tags(left, n - 1), k);
        OfSingles(left, n - 1, k);
        assert k == n - 1 ==> Of(messages, k) + left == wanted[k];
      }
    }
  }

  lemma ConsumedWasEmitted(net: Network, st: State, e: Edge)
    requires Inv(net, Continuous, st) && IsEdge(net, e) && !st.cancelled
    ensures e.pos < |st.nodes[e.parent].used|
    ensures st.nodes[e.parent].used[e.pos] <= Emissions(st.nodes[Child(net, e)])
  {
    hide NodeOk, FlowOk, Emissions;
    assert EdgeAt(net, st, e) && StreamAt(net, st, Child(net, e));
    CloseIsLast(st.slots[e], st.nodes[e.parent], e.pos);
    SentWasEmitted(net, st, e);
  }

  lemma SentWasEmitted(net: Network, st: State, e: Edge)
    requires Inv(net, Continuous, st) && IsEdge(net, e) && !st.cancelled
    ensures Sent(st.slots[e]) <= Emissions(st.nodes[Child(net, e)])
  {
    hide NodeOk, FlowOk;
    assert EdgeAt(net, st, e) && StreamAt(net, st, Child(net, e));
    if st.slots[e].closed {
      SlotIsComplete(net, st, e);
    }
  }

  /** A list as `RestingAndIsOptimal` speaks of always exists: what is left over is appended child by child. */
  lemma SomeContinuation(net: Network, trace: seq<State>, steps: seq<Step>, n: nat, p: nat) returns (all: seq<Tagged>)
    requires IsRun(net, Continuous, trace, steps) && n < |trace| && Composite(net, p) && net[p].children != []
    requires Shape(net, trace[n]) && !trace[n].cancelled
    ensures Indexed(all, |net[p].children|) && Consumed(trace, steps, n, p) <= all
    ensures forall k: nat :: IsEdge(net, Edge(p, k)) ==>
              Of(all, k) == Emissions(trace[n].nodes[Child(net, Edge(p, k))])
  {
    hide Consumed, Of, Emissions, Follows, NodeOk, StreamOk, EdgeOk;
    var messages, c := Consumed(trace, steps, n, p), net[p];
    EveryRunIsSound(net, Continuous, trace, steps, n);
    EveryNodeFollows(net, Continuous, trace, steps, n, p);
    FollowsIndexed(c, Continuous, trace[n].nodes[p], messages, ContextDone(net, trace[n], p));
    ChildrenInRange(net, p);
    var wanted := seq(|c.children|, k requires 0 <= k < |c.children| => Emissions(trace[n].nodes[c.children[k]]));
    forall k: nat | k < |wanted|
      ensures Of(messages, k) <= wanted[k]
    {
      ConsumedByChild(net, Continuous, trace, steps, n, p, k);
      ConsumedWasEmitted(net, trace[n], Edge(p, k));
    }
    all := Continue(messages, wanted, |wanted|);
  }

  /** A leaf that has not stopped can fire again, with its own event, and goes on unless it was its last. */
  lemma LeavesFireOn(net: Network, trace: seq<State>, steps: seq<Step>, n: nat, i: nat, last: bool)
    requires IsRun(net, Continuous, trace, steps) && n < |trace|
    requires Shape(net, trace[n]) && Quiet(net, trace[n]) && KeptUp(net, trace[n])
    requires i < |net| && net[i].Leaf? && trace[n].nodes[i].phase.Looping? && !ContextDone(net, trace[n], i)
    ensures Enabled(net, trace[n], FireStep(i, last))
    ensures var before, after := trace[n].nodes[i], Next(net, Continuous, trace[n], FireStep(i, last)).nodes[i];
            after.log == before.log + [Event(net[i].id, [net[i].id])] && (after.phase.Looping? <==> !last)
  {
    hide Quiet, NodeOk, StreamOk, EdgeOk;
    EveryRunIsSound(net, Continuous, trace, steps, n);
    DispatcherWaits(net, trace[n], i);
  }

  // The premise is always reached

  /** From every state of a Continuous run the program's own steps and the caller's receives lead there. */
  lemma {:induction false} CatchesUp(net: Network, trace: seq<State>, steps: seq<Step>, order: seq<Edge>)
    returns (trace': seq<State>, steps': seq<Step>)
    requires IsRun(net, Continuous, trace, steps) && Lists(net, order)
    requires Shape(net, trace[|steps|])
    ensures IsRun(net, Continuous, trace', steps') && trace <= trace' && steps <= steps'
    ensures Shape(net, trace'[|steps'|]) && Quiet(net, trace'[|steps'|]) && KeptUp(net, trace'[|steps'|])
    ensures forall i :: |steps| <= i < |steps'| ==> !steps'[i].FireStep? && !steps'[i].CancelAllStep?
    decreases Load(net, trace[|steps|], order)
  {
    hide NodeOk, StreamOk, EdgeOk, Load, Quiet;
    trace', steps' := ComesToRest(net, trace, steps, order);
    EveryRunIsSound(net, Continuous, trace', steps', |steps'|);
    var st := trace'[|steps'|];
    if !KeptUp(net, st) {
      FiringsAreClose(net, trace', steps', order, |steps|, |steps'|);
      StepPays(net, st, ConsumeStep, order);
      ExtendRun(net, Continuous, trace', steps', ConsumeStep);
      var trace1, steps1 := trace' + [Next(net, Continuous, st, ConsumeStep)], steps' + [ConsumeStep];
      trace', steps' := CatchesUp(net, trace1, steps1, order);
      assert forall i :: |steps| <= i < |steps1| ==> steps'[i] == steps1[i];
    }
  }
}
