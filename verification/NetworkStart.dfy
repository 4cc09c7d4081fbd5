/**
  Leaves that are ready when they are run.  The run method of a zero duration puts its event into its
  channel and closes the channel before it returns, so when `runRoot` returns these leaves have fired.
 */
module NetworkStart {
  import opened Conditions
  import opened Sequences
  import opened SourceIds
  import opened Nodes
  import opened SharedStreams
  import opened NetworkSteps
  import opened NetworkInvariant
  import opened NetworkSafety

  /** A leaf whose event and close are in its channel. */
  function ReadyNode(c: Condition): Node {
    var event := Event(c.id, [c.id]);
    InitialNode(c).(phase := Finished, out := [event], log := [event])
  }

  /** The network as `runRoot` leaves it, with the leaves in `ready` fired and closed. */
  ghost function Started(net: Network, ready: set<nat>): State {
    Initial(net).(nodes := seq(|net|, i requires 0 <= i < |net| =>
      if i in ready && net[i].Leaf? then ReadyNode(net[i]) else InitialNode(net[i])))
  }

  /** A run of a network in which the leaves in `ready` were ready. */
  ghost predicate IsRunFrom(net: Network, mode: Mode, ready: set<nat>, trace: seq<State>, steps: seq<Step>) {
    && WellFormed(net)
    && |trace| == |steps| + 1
    && trace[0] == Started(net, ready)
    && forall n: nat :: n < |steps| ==> Stepped(net, mode, trace[n], steps[n], trace[n + 1])
  }

  lemma StartedShape(net: Network, ready: set<nat>)
    ensures Shape(net, Started(net, ready))
  {
    InitialShape(net);
  }

  lemma OneReadyLeaf(net: Network, mode: Mode, ready: set<nat>, k: nat)
    requires k < |net| && net[k].Leaf? && k !in ready
    ensures var st := Started(net, ready); Shape(net, st) && Enabled(net, st, FireStep(k, true))
    ensures var st := Next(net, mode, Started(net, ready), FireStep(k, true));
            Shape(net, st) && Enabled(net, st, EndLeafStep(k))
            && Next(net, mode, st, EndLeafStep(k)) == Started(net, ready + {k})
  {
    StartedShape(net, ready);
    var st := Started(net, ready);
    var after := Next(net, mode, Next(net, mode, st, FireStep(k, true)), EndLeafStep(k));
    var event := Event(net[k].id, [net[k].id]);
    assert [] + [event] == [event];
    assert after.nodes == st.nodes[k := ReadyNode(net[k])];
    assert st.nodes[k := ReadyNode(net[k])] == Started(net, ready + {k}).nodes;
  }

  ghost function LeavesBelow(net: Network, ready: set<nat>, k: nat): set<nat>
    requires k <= |net|
  {
    set i: nat | i < k && i in ready && net[i].Leaf?
  }

  /** The started network is reached by firing and closing the ready leaves first. */
  lemma {:induction false} ReadyLeavesFire(net: Network, mode: Mode, ready: set<nat>, k: nat)
    returns (trace: seq<State>, steps: seq<Step>)
    requires WellFormed(net) && k <= |net|
    ensures IsRun(net, mode, trace, steps)
    ensures trace[|steps|] == Started(net, LeavesBelow(net, ready, k))
    decreases k
  {
    if k == 0 {
      trace, steps := [Initial(net)], [];
      assert LeavesBelow(net, ready, k) == {};
      assert Initial(net).nodes == Started(net, {}).nodes;
    } else {
      hide IsRun, Started;
      var i := k - 1;
      trace, steps := ReadyLeavesFire(net, mode, ready, i);
      var before, after := LeavesBelow(net, ready, i), LeavesBelow(net, ready, k);
      if i in ready && net[i].Leaf? {
        assert after == before + {i};
        OneReadyLeaf(net, mode, before, i);
        trace, steps := FireFirst(net, mode, trace, steps, before, i);
      } else {
        assert after == before;
      }
    }
  }

  lemma FireFirst(net: Network, mode: Mode, trace: seq<State>, steps: seq<Step>, ready: set<nat>, k: nat)
    returns (trace': seq<State>, steps': seq<Step>)
    requires IsRun(net, mode, trace, steps) && trace[|steps|] == Started(net, ready)
    requires k < |net| && net[k].Leaf? && k !in ready
    ensures IsRun(net, mode, trace', steps') && trace'[|steps'|] == Started(net, ready + {k})
  {
    OneReadyLeaf(net, mode, ready, k);
    hide Started, Next, Enabled, Shape;
    ExtendRun(net, mode, trace, steps, FireStep(k, true));
    var mid := Next(net, mode, trace[|steps|], FireStep(k, true));
    ExtendRun(net, mode, trace + [mid], steps + [FireStep(k, true)], EndLeafStep(k));
    trace' := trace + [mid] + [Next(net, mode, mid, EndLeafStep(k))];
    steps' := steps + [FireStep(k, true)] + [EndLeafStep(k)];
  }

  /** So what is proved of every run is proved of every run with ready leaves. */
  lemma AsRun(net: Network, mode: Mode, ready: set<nat>, trace: seq<State>, steps: seq<Step>)
    returns (trace': seq<State>, steps': seq<Step>, offset: nat)
    requires IsRunFrom(net, mode, ready, trace, steps)
    ensures IsRun(net, mode, trace', steps') && |trace'| == offset + |trace|
    ensures forall n :: 0 <= n < |trace| ==> trace'[offset + n] == trace[n]
  {
    var before, first := ReadyLeavesFire(net, mode, ready, |net|);
    assert Started(net, LeavesBelow(net, ready, |net|)).nodes == Started(net, ready).nodes;
    hide Started, Shape, Next, Enabled, WellFormed;
    offset := |first|;
    trace', steps' := before + trace[1..], first + steps;
    forall n: nat | n < |steps'|
      ensures Stepped(net, mode, trace'[n], steps'[n], trace'[n + 1])
    {
      if n < offset {
        assert Stepped(net, mode, before[n], first[n], before[n + 1]);
      } else {
        assert Stepped(net, mode, trace[n - offset], steps[n - offset], trace[n - offset + 1]);
      }
    }
  }

  /** Ready leaves count as fired in every state. */
  lemma {:induction false} ReadyLeavesStayFired(
      net: Network, mode: Mode, ready: set<nat>, trace: seq<State>, steps: seq<Step>, n: nat, i: nat)
    requires IsRunFrom(net, mode, ready, trace, steps) && n < |trace|
    requires i in ready && i < |net| && net[i].Leaf?
    ensures Shape(net, trace[n]) && i in FiredLeaves(net, trace[n])
    decreases n
  {
    if n == 0 {
      StartedShape(net, ready);
    } else {
      ReadyLeavesStayFired(net, mode, ready, trace, steps, n - 1, i);
      assert Stepped(net, mode, trace[n - 1], steps[n - 1], trace[n]);
      LogsGrow(net, mode, trace[n - 1], steps[n - 1]);
    }
  }

  lemma StateHasShape(net: Network, mode: Mode, ready: set<nat>, trace: seq<State>, steps: seq<Step>, n: nat)
    requires IsRunFrom(net, mode, ready, trace, steps) && n < |trace|
    ensures Shape(net, trace[n])
  {
    if n == 0 {
      StartedShape(net, ready);
    } else {
      assert Stepped(net, mode, trace[n - 1], steps[n - 1], trace[n]);
    }
  }
}
