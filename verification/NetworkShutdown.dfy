/** Closing, cleanup and delivery, in both modes and with cancellation allowed. */
module NetworkShutdown {
  import opened Conditions
  import opened Sequences
  import opened SourceIds
  import opened Nodes
  import opened SharedStreams
  import opened NetworkSteps
  import opened NetworkInvariant
  import opened NetworkSafety
  import opened NetworkVerdict

  // Channels

  /** `step` sends only to an open subscription, and closes only open ones. */
  ghost predicate UsesOpenChannels(net: Network, st: State, step: Step)
    requires Shape(net, st)
  {
    match step
    case SendStep(c) => CanSend(net, st, c) && !st.slots[st.streams[c].disp.todo[0]].closed
    case FinishStep(c) => c < |net| && forall e :: e in st.streams[c].subs ==> e in st.slots && !st.slots[e].closed
    case _ => true
  }

  /** No subscription is sent to after it was closed, and none is closed twice. */
  lemma ChannelsAreUsedOnce(net: Network, mode: Mode, trace: seq<State>, steps: seq<Step>, n: nat)
    requires IsRun(net, mode, trace, steps) && n < |steps|
    ensures Shape(net, trace[n]) && UsesOpenChannels(net, trace[n], steps[n])
  {
    hide NodeOk, FlowOk;
    EveryRunIsSound(net, mode, trace, steps, n);
    var st := trace[n];
    assert Stepped(net, mode, st, steps[n], trace[n + 1]);
    if steps[n].SendStep? || steps[n].FinishStep? {
      var c := steps[n].stream;
      var s := st.streams[c];
      assert StreamAt(net, st, c);
      if steps[n].SendStep? {
        assert s.disp.todo[0] in s.Todo();
        assert EdgeAt(net, st, s.disp.todo[0]);
      } else {
        forall e | e in s.subs
          ensures e in st.slots && !st.slots[e].closed
        {
          assert EdgeAt(net, st, e);
        }
      }
    }
  }

  /**
    Fan-out is faithful.  What a subscriber has been sent is a prefix of what its source has emitted; if
    its channel was closed and the caller has not cancelled, it was sent everything, the source being over.
   */
  lemma FanOutIsFaithful(net: Network, mode: Mode, trace: seq<State>, steps: seq<Step>, n: nat, e: Edge)
    requires IsRun(net, mode, trace, steps) && n < |trace| && IsEdge(net, e)
    ensures var st, c := trace[n], Child(net, e);
            && e in st.slots && c < |st.nodes|
            && st.slots[e].sent <= st.nodes[c].log
            && (st.slots[e].closed && !st.cancelled ==>
                 st.slots[e].sent == st.nodes[c].log && st.nodes[c].phase.Finished?)
  {
    hide NodeOk, FlowOk;
    EveryRunIsSound(net, mode, trace, steps, n);
    assert EdgeAt(net, trace[n], e) && StreamAt(net, trace[n], Child(net, e));
  }

  /**
    What the goroutine of `e.parent` has consumed from `e` is, in order, what `e` was sent: all of it,
    except for messages still held by the forwarder or the channels.
   */
  lemma ConsumedInOrder(net: Network, mode: Mode, trace: seq<State>, steps: seq<Step>, n: nat, e: Edge)
    requires IsRun(net, mode, trace, steps) && n < |trace| && IsEdge(net, e)
    ensures var st := trace[n];
            && e in st.slots && e.parent < |st.nodes| && e.pos < |st.nodes[e.parent].used|
            && st.nodes[e.parent].used[e.pos] <= Sent(st.slots[e])
  {
    hide NodeOk;
    EveryRunIsSound(net, mode, trace, steps, n);
    assert EdgeAt(net, trace[n], e);
    CloseIsLast(trace[n].slots[e], trace[n].nodes[e.parent], e.pos);
  }

  // The loop of an AND node

  /**
    At every loop head of an AND node some child is unmatched, every child whose close was consumed is
    matched, and `remainingOpen` counts the children whose close was not.  The loop therefore never ends
    through its guard: a message makes it return only if it is the close of an unmatched child.
   */
  lemma AndLoopHead(net: Network, mode: Mode, trace: seq<State>, steps: seq<Step>, n: nat, p: nat)
    requires IsRun(net, mode, trace, steps) && n < |trace| && p < |net| && net[p].And?
    requires Shape(net, trace[n]) && trace[n].nodes[p].phase.Looping?
    ensures var node := trace[n].nodes[p];
            && node.work.AndWork? && |node.work.matched| == |node.work.closed| == |node.used|
            && !AllMatched(node.work.matched)
            && (forall k :: 0 <= k < |node.used| ==> (node.work.closed[k] <==> EndsClosed(node.used[k])))
            && (forall k :: 0 <= k < |node.used| && node.work.closed[k] ==> node.work.matched[k])
            && node.work.open == OpenCount(node.used) > 0
    ensures n < |steps| && steps[n] == ReceiveStep(p) && trace[n + 1].nodes[p].phase.Leaving? ==>
              var node := trace[n].nodes[p];
              node.merged[0].message.Closed? && !node.work.matched[node.merged[0].index]
  {
    hide StreamOk, EdgeOk;
    EveryRunIsSound(net, mode, trace, steps, n);
    assert NodeAt(net, mode, trace[n], p);
    if n < |steps| && steps[n] == ReceiveStep(p) {
      assert Stepped(net, mode, trace[n], steps[n], trace[n + 1]);
      EveryRunIsSound(net, mode, trace, steps, n + 1);
      assert NodeAt(net, mode, trace[n + 1], p);
      AndReturnsOnlyOnClose(net, mode, trace[n], p);
    }
  }

  lemma AndReturnsOnlyOnClose(net: Network, mode: Mode, st: State, p: nat)
    requires Inv(net, mode, st) && CanReceive(net, st, p) && net[p].And?
    ensures Received(net[p], st.nodes[p]).phase.Leaving? ==>
              st.nodes[p].merged[0].message.Closed? && !st.nodes[p].work.matched[st.nodes[p].merged[0].index]
  {
    hide NodeOk, StreamOk;
    var n := st.nodes[p];
    var k := n.merged[0].index;
    assert NodeAt(net, mode, st, p);
    assert IsEdge(net, Edge(p, k)) && EdgeAt(net, st, Edge(p, k));
    CloseIsLast(st.slots[Edge(p, k)], n, k);
    hide FlowOk, EdgeOk;
    ReturnsOnlyOnClose(net[p], mode, n, Gone(net, st, p));
  }

  lemma ReturnsOnlyOnClose(c: Condition, mode: Mode, n: Node, gone: bool)
    requires c.And? && NodeOk(c, mode, n, gone) && n.phase.Looping? && n.merged != []
    requires !EndsClosed(n.used[n.merged[0].index])
    ensures Received(c, n).phase.Leaving? ==> n.merged[0].message.Closed? && !n.work.matched[n.merged[0].index]
  {
    var k, m := n.merged[0].index, n.merged[0].message;
    if m.Closed? && n.work.matched[k] {
      SomeOtherOpen(n.work, n.used, k, m);
    }
  }

  lemma SomeOtherOpen(w: Work, used: seq<seq<Message>>, k: nat, m: Message)
    requires w.AndWork? && |w.matched| == |w.closed| == |used| && k < |used| && Counted(w, used)
    requires !AllMatched(w.matched) && (forall j :: 0 <= j < |w.closed| && w.closed[j] ==> w.matched[j])
    requires m.Closed? && w.matched[k] && !w.closed[k]
    ensures w.open > 1
  {
    var j :| 0 <= j < |w.matched| && !w.matched[j];
    OpenCountUpdate(used, k, [Closed]);
    OpenCountZero(used[k := [Closed]]);
    assert !EndsClosed(used[k := [Closed]][j]);
  }

  // Shutdown

  /** A composite closes its output only after its forwarders have ended and its subscriptions are gone. */
  lemma ClosedOutputIsClean(net: Network, mode: Mode, trace: seq<State>, steps: seq<Step>, n: nat, e: Edge)
    requires IsRun(net, mode, trace, steps) && n < |trace| && IsEdge(net, e)
    requires Shape(net, trace[n]) && trace[n].nodes[e.parent].phase.Finished?
    ensures ForwarderEnded(trace[n], e)
    ensures forall c: nat :: c < |net| - 1 ==> e !in trace[n].streams[c].subs
  {
    hide NodeOk, FlowOk;
    EveryRunIsSound(net, mode, trace, steps, n);
    var st := trace[n];
    assert EdgeAt(net, st, e);
    forall c: nat | c < |net| - 1
      ensures e !in st.streams[c].subs
    {
      assert StreamAt(net, st, c);
    }
  }

  lemma DoneNodeEnds(net: Network, mode: Mode, st: State, i: nat)
    requires Inv(net, mode, st) && Quiet(net, st) && i < |net| && ContextDone(net, st, i)
    ensures st.nodes[i].phase.Finished?
  {
    hide NodeOk, StreamOk, EdgeOk;
    if net[i].Leaf? {
      assert !Enabled(net, st, EndLeafStep(i));
    } else {
      CleanupEnds(net, mode, st, i);
      assert !Enabled(net, st, AbortStep(i));
    }
  }

  lemma DoneStreamEnds(net: Network, mode: Mode, st: State, c: nat)
    requires Inv(net, mode, st) && Quiet(net, st) && Streamed(net, c) && ContextDone(net, st, c)
    ensures st.streams[c].disp.Ended?
  {
    hide NodeOk, StreamOk, EdgeOk;
    var order := HoldingCanCopy(net, st, c);
    assert !Enabled(net, st, SnapshotStep(c, order));
    assert !Enabled(net, st, RestStep(c));
    assert !Enabled(net, st, StopStep(c));
    assert !Enabled(net, st, FinishStep(c));
  }

  /** Once every parent of `c` is finished, the stream of `c` has lost its subscribers, so its context is done. */
  lemma AbandonedIsDone(net: Network, mode: Mode, st: State, c: nat)
    requires Inv(net, mode, st) && Quiet(net, st) && Streamed(net, c)
    requires forall p: nat :: c < p < |net| ==> st.nodes[p].phase.Finished?
    ensures ContextDone(net, st, c)
  {
    hide NodeOk, FlowOk;
    assert StreamAt(net, st, c);
    forall e: Edge | IsEdge(net, e) && Child(net, e) == c
      ensures e !in st.streams[c].subs
    {
      assert EdgeAt(net, st, e);
    }
    assert st.streams[c].subs == {};
    assert !Enabled(net, st, CancelStreamStep(c));
  }

  lemma {:induction false} EverythingEnds(net: Network, mode: Mode, st: State, i: nat)
    requires Inv(net, mode, st) && Quiet(net, st) && i < |net|
    requires st.nodes[Root(net)].phase.Finished? || st.cancelled
    ensures st.nodes[i].phase.Finished?
    ensures Streamed(net, i) ==> st.streams[i].disp.Ended?
    decreases |net| - i
  {
    hide NodeOk, StreamOk, EdgeOk;
    if i == Root(net) {
      if st.cancelled {
        DoneNodeEnds(net, mode, st, i);
      }
    } else {
      forall p: nat | i < p < |net|
        ensures st.nodes[p].phase.Finished?
      {
        EverythingEnds(net, mode, st, p);
      }
      AbandonedIsDone(net, mode, st, i);
      DoneNodeEnds(net, mode, st, i);
      DoneStreamEnds(net, mode, st, i);
    }
  }

  /**
    Clean shutdown.  Once the root has closed its output, or the caller has cancelled, and steps have run
    out, every goroutine has ended: conditions, dispatchers and forwarders alike.
   */
  lemma CleanShutdown(net: Network, mode: Mode, trace: seq<State>, steps: seq<Step>, n: nat)
    requires IsRun(net, mode, trace, steps) && n < |trace|
    requires Shape(net, trace[n]) && Quiet(net, trace[n])
    requires trace[n].nodes[Root(net)].phase.Finished? || trace[n].cancelled
    ensures forall i: nat :: i < |net| ==> trace[n].nodes[i].phase.Finished?
    ensures forall c: nat :: Streamed(net, c) ==> trace[n].streams[c].disp.Ended? && trace[n].streams[c].subs == {}
    ensures forall e: Edge :: IsEdge(net, e) ==> ForwarderEnded(trace[n], e)
  {
    hide NodeOk, EdgeOk;
    EveryRunIsSound(net, mode, trace, steps, n);
    var st := trace[n];
    forall i: nat | i < |net|
      ensures st.nodes[i].phase.Finished?
    {
      EverythingEnds(net, mode, st, i);
    }
    forall c: nat | Streamed(net, c)
      ensures st.streams[c].disp.Ended? && st.streams[c].subs == {}
    {
      EverythingEnds(net, mode, st, c);
      assert StreamAt(net, st, c);
    }
    forall e: Edge | IsEdge(net, e)
      ensures ForwarderEnded(st, e)
    {
      EverythingEnds(net, mode, st, e.parent);
      ClosedOutputIsClean(net, mode, trace, steps, n, e);
    }
  }
}
