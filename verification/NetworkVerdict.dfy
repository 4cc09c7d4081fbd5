/**
  Once mode without cancellation by the caller: whatever the interleaving, once nothing is left to do the
  root has emitted exactly when the formula is true of the leaves that fired.
 */
module NetworkVerdict {
  import opened Conditions
  import opened Sequences
  import opened SourceIds
  import opened Nodes
  import opened SharedStreams
  import opened NetworkSteps
  import opened NetworkInvariant
  import opened NetworkSafety

  /** The steps that the program takes on its own, as opposed to leaves firing or giving up, and the caller. */
  predicate Internal(net: Network, st: State, step: Step)
    requires Shape(net, st)
  {
    match step
    case FireStep(_, _) => false
    case EndLeafStep(i) => i < |net| && (st.nodes[i].phase.Leaving? || ContextDone(net, st, i))
    case CancelAllStep => false
    case ConsumeStep => false
    case _ => true
  }

  ghost predicate Quiet(net: Network, st: State)
    requires Shape(net, st)
  {
    forall step: Step :: Internal(net, st, step) ==> !Enabled(net, st, step)
  }

  lemma {:induction false} Listing<T>(s: set<T>) returns (order: seq<T>)
    ensures Distinct(order) && forall x :: x in order <==> x in s
    decreases |s|
  {
    if s == {} {
      order := [];
    } else {
      var x :| x in s;
      var rest := Listing(s - {x});
      order := [x] + rest;
    }
  }

  lemma ForwardersEnd(net: Network, st: State, p: nat)
    requires Shape(net, st) && Quiet(net, st) && Composite(net, p) && st.nodes[p].cancelled
    ensures forall k: nat :: k < |net[p].children| ==> ForwarderEnded(st, Edge(p, k))
  {
    forall k: nat | k < |net[p].children|
      ensures ForwarderEnded(st, Edge(p, k))
    {
      assert IsEdge(net, Edge(p, k));
      assert !Enabled(net, st, DropStep(Edge(p, k)));
    }
  }

  lemma ChildrenInRange(net: Network, p: nat)
    requires ChildrenFirst(net) && Composite(net, p)
    ensures forall k: nat :: k < |net[p].children| ==> net[p].children[k] < |net|
  {
    forall k: nat | k < |net[p].children|
      ensures net[p].children[k] < |net|
    {
      assert IsEdge(net, Edge(p, k));
    }
  }

  lemma CleaningPhase(c: Condition, mode: Mode, n: Node, gone: bool)
    requires !c.Leaf? && NodeOk(c, mode, n, gone)
    ensures n.phase.Cleaning? ==> n.cancelled && n.phase.next <= |c.children|
  {
  }

  /** A goroutine that has left its loop runs to the end: its cleanup never waits for anything that does not come. */
  lemma CleanupEnds(net: Network, mode: Mode, st: State, p: nat)
    requires Inv(net, mode, st) && Quiet(net, st) && Composite(net, p)
    ensures st.nodes[p].phase.Looping? || st.nodes[p].phase.Emitting? || st.nodes[p].phase.Finished?
  {
    hide NodeOk, StreamOk, EdgeOk;
    assert NodeAt(net, mode, st, p);
    CleaningPhase(net[p], mode, st.nodes[p], Gone(net, st, p));
    ChildrenInRange(net, p);
    if st.nodes[p].cancelled {
      ForwardersEnd(net, st, p);
    }
    assert !Enabled(net, st, CancelRunStep(p));
    assert !Enabled(net, st, UnsubscribeStep(p));
    assert !Enabled(net, st, CloseOutStep(p));
  }

  lemma NothingEmittedYet(net: Network, st: State, i: nat)
    requires Inv(net, Once, st) && i < |net| && st.nodes[i].log == []
    ensures st.nodes[i].out == []
    ensures Streamed(net, i) ==> st.streams[i].taken == []
  {
    hide NodeOk, EdgeOk;
    if Streamed(net, i) {
      assert StreamAt(net, st, i);
    }
  }

  lemma QuietPhase(net: Network, st: State, i: nat)
    requires Inv(net, Once, st) && Quiet(net, st) && i < |net|
    ensures st.nodes[i].phase.Looping? || st.nodes[i].phase.Finished?
  {
    hide StreamOk, EdgeOk;
    assert NodeAt(net, Once, st, i);
    if net[i].Leaf? {
      assert !Enabled(net, st, EndLeafStep(i)) || !Internal(net, st, EndLeafStep(i));
    } else {
      CleanupEnds(net, Once, st, i);
      if st.nodes[i].log == [] {
        NothingEmittedYet(net, st, i);
      }
      assert !Enabled(net, st, EmitStep(i));
    }
  }

  /** The run context of a waiting node is not done unless the node was abandoned. */
  lemma WaitingIsNotDone(net: Network, st: State, p: nat)
    requires Inv(net, Once, st) && Composite(net, p) && !Gone(net, st, p) && st.nodes[p].phase.Looping?
    ensures !RunDone(net, st, p)
  {
    hide EdgeOk;
    assert NodeAt(net, Once, st, p);
    if Streamed(net, p) {
      assert StreamAt(net, st, p);
    }
  }

  lemma NothingHeld(slot: Slot, pn: Node, k: nat)
    requires k < |pn.used| && FlowOk(slot, pn, k) && pn.merged == []
    requires slot.fwd.Delivered? || (slot.fwd.Taking? && slot.buffer == [] && !slot.closed)
    ensures Sent(slot) == pn.used[k]
  {
    assert Unseen(slot) == [];
    assert Sent(slot) == pn.used[k] + [] + [] + [];
  }

  lemma QuietMerged(net: Network, st: State, p: nat)
    requires Inv(net, Once, st) && Quiet(net, st) && Composite(net, p) && st.nodes[p].phase.Looping?
    ensures st.nodes[p].merged == [] && 0 < |net[p].children| == |st.nodes[p].used|
  {
    hide StreamOk, EdgeOk;
    assert NodeAt(net, Once, st, p);
    assert !Enabled(net, st, ReceiveStep(p));
  }

  /** Nothing is under way on a subscription of a waiting node. */
  lemma WaitingHasSeenAll(net: Network, st: State, e: Edge)
    requires Inv(net, Once, st) && Quiet(net, st) && IsEdge(net, e) && !Gone(net, st, e.parent)
    requires st.nodes[e.parent].phase.Looping?
    ensures e.pos < |st.nodes[e.parent].used| && Sent(st.slots[e]) == st.nodes[e.parent].used[e.pos]
  {
    hide NodeOk, StreamOk;
    var p := e.parent;
    assert EdgeAt(net, st, e);
    WaitingIsNotDone(net, st, p);
    QuietMerged(net, st, p);
    assert !Enabled(net, st, PutStep(e));
    assert !Enabled(net, st, TakeStep(e));
    NothingHeld(st.slots[e], st.nodes[p], e.pos);
  }

  lemma HoldingCanCopy(net: Network, st: State, c: nat) returns (order: seq<Edge>)
    requires Shape(net, st) && Streamed(net, c)
    ensures st.streams[c].disp.Holding? ==> CanSnapshot(net, st, c, order)
  {
    order := Listing(st.streams[c].subs);
  }

  /** In Once mode a dispatcher is never blocked by a full subscription. */
  lemma DeliveringCanMove(net: Network, st: State, c: nat)
    requires Inv(net, Once, st) && Streamed(net, c) && st.streams[c].disp.Delivering?
    ensures CanSend(net, st, c) || CanSkip(net, st, c) || CanRest(net, st, c) || CanStop(net, st, c)
  {
    hide NodeOk, FlowOk;
    var s := st.streams[c];
    assert StreamAt(net, st, c);
    if s.disp.todo != [] {
      var e := s.disp.todo[0];
      assert e in s.Todo();
      assert EdgeAt(net, st, e);
      FirstEvent(net, st, c);
      assert s.Due(e) == [];
      if !RunDone(net, st, e.parent) {
        FlowKeepsBuffer(st.slots[e], st.nodes[e.parent], e.pos);
      }
    }
  }

  lemma FirstEvent(net: Network, st: State, c: nat)
    requires Inv(net, Once, st) && Streamed(net, c) && st.streams[c].disp.Delivering?
    ensures |st.streams[c].taken| == 1
  {
    hide EdgeOk;
    assert StreamAt(net, st, c) && NodeAt(net, Once, st, c);
  }

  lemma FlowKeepsBuffer(slot: Slot, pn: Node, k: nat)
    requires k < |pn.used| && FlowOk(slot, pn, k) && !slot.fwd.Dropped? && slot.sent == []
    ensures slot.buffer == []
  {
    assert |Sent(slot)| == |pn.used[k] + Of(pn.merged, k)| + |Held(slot)| + |Unseen(slot)|;
  }

  /** At rest a dispatcher is either idle with nothing to fetch, or over. */
  lemma QuietDispatcher(net: Network, st: State, c: nat)
    requires Inv(net, Once, st) && Quiet(net, st) && Streamed(net, c)
    ensures st.streams[c].disp.Idle? || st.streams[c].disp.Ended?
    ensures st.streams[c].disp.Idle? ==> st.nodes[c].out == []
  {
    hide NodeOk, StreamOk, EdgeOk;
    var order := HoldingCanCopy(net, st, c);
    if st.streams[c].disp.Delivering? {
      DeliveringCanMove(net, st, c);
    }
    assert !Enabled(net, st, SnapshotStep(c, order));
    assert !Enabled(net, st, PullStep(c));
    assert !Enabled(net, st, FinishStep(c));
    assert !Enabled(net, st, RestStep(c));
    assert !Enabled(net, st, SendStep(c));
    assert !Enabled(net, st, SkipStep(c));
    assert !Enabled(net, st, StopStep(c));
  }

  /** While a waiting node has seen no event of a child, that child has emitted none, and was not abandoned. */
  lemma UnseenIsSilent(net: Network, st: State, e: Edge)
    requires Inv(net, Once, st) && Quiet(net, st) && IsEdge(net, e) && !Gone(net, st, e.parent)
    requires st.nodes[e.parent].phase.Looping?
    requires e.pos < |st.nodes[e.parent].used| && !StartsFired(st.nodes[e.parent].used[e.pos])
    ensures st.nodes[Child(net, e)].log == [] && !Gone(net, st, Child(net, e))
  {
    var c := Child(net, e);
    WaitingIsNotDone(net, st, e.parent);
    WaitingHasSeenAll(net, st, e);
    QuietDispatcher(net, st, c);
    SilentSlot(net, st, e);
  }

  lemma SentStarts(slot: Slot)
    ensures slot.sent != [] <==> StartsFired(Sent(slot))
  {
  }

  lemma SilentSlot(net: Network, st: State, e: Edge)
    requires Inv(net, Once, st) && IsEdge(net, e) && !RunDone(net, st, e.parent)
    requires !StartsFired(Sent(st.slots[e]))
    requires st.streams[Child(net, e)].disp.Idle? || st.streams[Child(net, e)].disp.Ended?
    requires st.streams[Child(net, e)].disp.Idle? ==> st.nodes[Child(net, e)].out == []
    ensures st.nodes[Child(net, e)].log == [] && !Gone(net, st, Child(net, e))
  {
    hide NodeOk, FlowOk;
    var c := Child(net, e);
    assert EdgeAt(net, st, e) && StreamAt(net, st, c);
    SentStarts(st.slots[e]);
  }

  /** A close without any event before it means that the child ended silently and was not abandoned. */
  lemma ClosedIsSilent(net: Network, st: State, e: Edge)
    requires Inv(net, Once, st) && IsEdge(net, e) && !st.cancelled
    requires e.pos < |st.nodes[e.parent].used| && st.nodes[e.parent].used[e.pos] == [Closed]
    ensures st.nodes[Child(net, e)].log == [] && !Gone(net, st, Child(net, e))
  {
    hide NodeOk;
    var c := Child(net, e);
    assert EdgeAt(net, st, e) && StreamAt(net, st, c);
    CloseIsLast(st.slots[e], st.nodes[e.parent], e.pos);
    assert Sent(st.slots[e])[0] == Closed;
    assert st.slots[e].sent == [];
  }

  lemma FinishedCannotFire(net: Network, st: State, i: nat)
    requires Inv(net, Once, st) && Composite(net, i) && !Gone(net, st, i)
    requires st.nodes[i].log == [] && st.nodes[i].phase.Finished?
    ensures CannotFire(net[i], st.nodes[i].used) && |st.nodes[i].used| == |net[i].children|
  {
    hide StreamOk, EdgeOk;
    assert NodeAt(net, Once, st, i);
  }

  lemma WaitingHasNotFired(net: Network, st: State, i: nat)
    requires Inv(net, Once, st) && Composite(net, i) && st.nodes[i].phase.Looping?
    ensures |st.nodes[i].used| == |net[i].children|
    ensures net[i].And? ==> exists k :: 0 <= k < |st.nodes[i].used| && !StartsFired(st.nodes[i].used[k])
    ensures net[i].Or? ==> forall k :: 0 <= k < |st.nodes[i].used| ==> !StartsFired(st.nodes[i].used[k])
  {
    hide StreamOk, EdgeOk;
    assert NodeAt(net, Once, st, i);
    if net[i].And? {
      var k :| 0 <= k < |st.nodes[i].work.matched| && !st.nodes[i].work.matched[k];
      assert !StartsFired(st.nodes[i].used[k]);
    }
  }

  ghost predicate SilentChild(st: State, i: nat, k: nat) {
    && i < |st.nodes| && k < |st.nodes[i].used|
    && (if st.nodes[i].phase.Looping? then !StartsFired(st.nodes[i].used[k]) else st.nodes[i].used[k] == [Closed])
  }

  lemma SomeSilentChild(net: Network, st: State, i: nat)
    requires Inv(net, Once, st) && Composite(net, i) && !Gone(net, st, i) && st.nodes[i].log == []
    requires st.nodes[i].phase.Looping? || st.nodes[i].phase.Finished?
    ensures net[i].And? ==> exists k: nat :: k < |net[i].children| && SilentChild(st, i, k)
    ensures net[i].Or? ==> forall k: nat :: k < |net[i].children| ==> SilentChild(st, i, k)
  {
    hide NodeOk, StreamOk, EdgeOk;
    if st.nodes[i].phase.Looping? {
      WaitingHasNotFired(net, st, i);
      if net[i].And? {
        var k: nat :| k < |st.nodes[i].used| && !StartsFired(st.nodes[i].used[k]);
        assert SilentChild(st, i, k);
      }
    } else {
      FinishedCannotFire(net, st, i);
      if net[i].And? {
        var k: nat :| k < |st.nodes[i].used| && st.nodes[i].used[k] == [Closed];
        assert SilentChild(st, i, k);
      }
    }
  }

  /** By induction over the tree: a condition that was not abandoned and has not emitted is false. */
  lemma {:induction false} SilentIsFalse(net: Network, st: State, i: nat)
    requires Inv(net, Once, st) && Quiet(net, st) && !st.cancelled && i < |net|
    requires !Gone(net, st, i) && st.nodes[i].log == []
    ensures !Holds(net, i, FiredLeaves(net, st))
    decreases i
  {
    hide NodeOk, StreamOk, EdgeOk;
    var fired := FiredLeaves(net, st);
    if !net[i].Leaf? {
      QuietPhase(net, st, i);
      SomeSilentChild(net, st, i);
      forall k: nat | k < |net[i].children| && SilentChild(st, i, k)
        ensures !HoldsAt(net, Edge(i, k), fired)
      {
        var e := Edge(i, k);
        assert IsEdge(net, e);
        if st.nodes[i].phase.Looping? {
          UnseenIsSilent(net, st, e);
        } else {
          ClosedIsSilent(net, st, e);
        }
        SilentIsFalse(net, st, Child(net, e));
      }
    }
  }

  /**
    The network refines the formula.  In Once mode, in every run that the caller does not cancel and that
    has come to rest, the root has emitted exactly once if the formula is true of the leaves that fired,
    and otherwise has emitted nothing and is either still waiting or closed.
   */
  lemma RestingVerdict(net: Network, trace: seq<State>, steps: seq<Step>, n: nat)
    requires IsRun(net, Once, trace, steps) && n < |trace|
    requires Shape(net, trace[n]) && Quiet(net, trace[n]) && !trace[n].cancelled
    ensures var root := trace[n].nodes[Root(net)];
            && |root.log| == (if Holds(net, Root(net), FiredLeaves(net, trace[n])) then 1 else 0)
            && (root.phase.Looping? || root.phase.Finished?)
  {
    EveryRunIsSound(net, Once, trace, steps, n);
    var st, r := trace[n], Root(net);
    assert NodeAt(net, Once, st, r);
    QuietPhase(net, st, r);
    if st.nodes[r].log == [] {
      SilentIsFalse(net, st, r);
    } else {
      assert NodeSound(net, r, FiredLeaves(net, st), st.nodes[r]);
      assert Sound(net, r, FiredLeaves(net, st), st.nodes[r].log[0]);
    }
  }

  /** The verdict depends only on which leaves fired, not on the order of anything. */
  lemma VerdictIgnoresInterleaving(
      net: Network, trace: seq<State>, steps: seq<Step>, n: nat, trace': seq<State>, steps': seq<Step>, n': nat)
    requires IsRun(net, Once, trace, steps) && n < |trace| && IsRun(net, Once, trace', steps') && n' < |trace'|
    requires Shape(net, trace[n]) && Quiet(net, trace[n]) && !trace[n].cancelled
    requires Shape(net, trace'[n']) && Quiet(net, trace'[n']) && !trace'[n'].cancelled
    requires FiredLeaves(net, trace[n]) == FiredLeaves(net, trace'[n'])
    ensures |trace[n].nodes[Root(net)].log| == |trace'[n'].nodes[Root(net)].log|
  {
    RestingVerdict(net, trace, steps, n);
    RestingVerdict(net, trace', steps', n');
  }
}
