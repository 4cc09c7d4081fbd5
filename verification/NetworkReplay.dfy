/**
  What the nodes of a running network emit is what their loops, run as programs on the messages they have
  consumed, emit: so the theorems of `Loops` are about the running network.
 */
module NetworkReplay {
  import opened Conditions
  import opened Sequences
  import opened SourceIds
  import opened Nodes
  import opened SharedStreams
  import opened NetworkSteps
  import opened NetworkInvariant
  import opened NetworkSafety
  import opened Loops
  import opened AndCycles

  /** The messages that the goroutine of `p` has received from `merged` in the first `n` steps, in order. */
  ghost function Consumed(trace: seq<State>, steps: seq<Step>, n: nat, p: nat): seq<Tagged>
    requires n <= |steps| && |trace| == |steps| + 1
    decreases n
  {
    if n == 0 then []
    else
      var before := Consumed(trace, steps, n - 1, p);
      var nodes := trace[n - 1].nodes;
      if steps[n - 1] == ReceiveStep(p) && p < |nodes| && nodes[p].merged != [] then before + [nodes[p].merged[0]]
      else before
  }

  // A loop, message by message

  /** A node between two messages: its work, whether it is still in its loop, and what it has emitted. */
  datatype Local = Local(work: Work, looping: bool, log: seq<Event>)

  function After(c: Condition, mode: Mode, l: Local, event: Event): (r: Local)
    requires !c.Leaf? && Fits(c, l.work)
    ensures Fits(c, r.work)
  {
    var (next, stays) := AfterEmit(c, mode, l.work);
    Local(next, stays, l.log + [event])
  }

  function Consume(c: Condition, mode: Mode, l: Local, t: Tagged): (r: Local)
    requires !c.Leaf? && Fits(c, l.work) && t.index < |c.children|
    ensures Fits(c, r.work)
  {
    if !l.looping then l
    else
      var (work, action) := OnMessage(c, l.work, t.index, t.message);
      match action
      case Again => l.(work := work)
      case Return => Local(work, false, l.log)
      case Emit(event) => After(c, mode, l.(work := work), event)
  }

  function Replay(c: Condition, mode: Mode, messages: seq<Tagged>): (r: Local)
    requires !c.Leaf? && Indexed(messages, |c.children|)
    ensures Fits(c, r.work)
    decreases |messages|
  {
    if messages == [] then Local(InitialWork(c), true, [])
    else Consume(c, mode, Replay(c, mode, messages[..|messages| - 1]), messages[|messages| - 1])
  }

  /** Replaying some messages and running the loop on the rest is running it on all of them. */
  lemma {:induction false} ReplayThenRun(c: Condition, mode: Mode, messages: seq<Tagged>, rest: seq<Tagged>)
    requires !c.Leaf? && Indexed(messages, |c.children|) && Indexed(rest, |c.children|)
    ensures var l := Replay(c, mode, messages);
            Run(c, mode, InitialWork(c), messages + rest)
                == l.log + if l.looping then Run(c, mode, l.work, rest) else []
    decreases |messages|
  {
    if messages == [] {
      assert messages + rest == rest;
    } else {
      hide Run, Consume;
      var last := |messages| - 1;
      var more := [messages[last]] + rest;
      ReplayThenRun(c, mode, messages[..last], more);
      assert messages[..last] + more == messages + rest;
      ConsumeThenRun(c, mode, Replay(c, mode, messages[..last]), messages[last], rest);
    }
  }

  lemma ConsumeThenRun(c: Condition, mode: Mode, l: Local, t: Tagged, rest: seq<Tagged>)
    requires !c.Leaf? && Fits(c, l.work) && t.index < |c.children| && Indexed(rest, |c.children|)
    ensures var next := Consume(c, mode, l, t);
            l.log + (if l.looping then Run(c, mode, l.work, [t] + rest) else [])
            == next.log + if next.looping then Run(c, mode, next.work, rest) else []
  {
    hide OnMessage, AfterEmit;
    assert ([t] + rest)[1..] == rest;
  }

  lemma ReplayIsRun(c: Condition, mode: Mode, messages: seq<Tagged>)
    requires !c.Leaf? && Indexed(messages, |c.children|)
    ensures Replay(c, mode, messages).log == Run(c, mode, InitialWork(c), messages)
  {
    ReplayThenRun(c, mode, messages, []);
    RunEmpty(c, mode, Replay(c, mode, messages).work);
    assert messages + [] == messages;
  }

  // The loop inside the network

  /** What a node has emitted, including the event it is about to put into its channel. */
  function Decided(n: Node): seq<Event> {
    n.log + if n.phase.Emitting? then [n.phase.event] else []
  }

  /**
    The node stands where the replay of its messages stands.  `gone` says that its context is done: then it
    may have left its loop early, dropping at most the event it was about to emit.
   */
  ghost predicate Follows(c: Condition, mode: Mode, n: Node, messages: seq<Tagged>, gone: bool)
    requires !c.Leaf?
  {
    && Indexed(messages, |c.children|) && Fits(c, n.work)
    && var l := Replay(c, mode, messages);
    && (n.phase.Looping? ==> l == Local(n.work, true, n.log))
    && (n.phase.Emitting? ==> l == After(c, mode, Local(n.work, true, n.log), n.phase.event))
    && (PastLoop(n) ==> n.log <= l.log && (gone || (n.log == l.log && !l.looping)))
  }

  lemma FollowsReceive(c: Condition, mode: Mode, n: Node, messages: seq<Tagged>, gone: bool)
    requires !c.Leaf? && Follows(c, mode, n, messages, gone) && n.phase.Looping?
    requires n.merged != [] && n.merged[0].index < |c.children| == |n.used|
    ensures Follows(c, mode, Received(c, n), messages + [n.merged[0]], gone)
  {
    hide AfterEmit, OnMessage, Replay, Fits;
    ReplayMore(c, mode, messages, n.merged[0]);
  }

  lemma ReplayMore(c: Condition, mode: Mode, messages: seq<Tagged>, t: Tagged)
    requires !c.Leaf? && Indexed(messages, |c.children|) && t.index < |c.children|
    ensures Indexed(messages + [t], |c.children|)
    ensures Replay(c, mode, messages + [t]) == Consume(c, mode, Replay(c, mode, messages), t)
  {
    assert (messages + [t])[..|messages|] == messages;
  }

  lemma FollowsEmit(c: Condition, mode: Mode, n: Node, messages: seq<Tagged>, gone: bool)
    requires !c.Leaf? && Follows(c, mode, n, messages, gone) && n.phase.Emitting?
    ensures Follows(c, mode, Emitted(c, mode, n), messages, gone)
  {
    hide AfterEmit, Replay;
  }

  lemma FollowsAbort(c: Condition, mode: Mode, n: Node, messages: seq<Tagged>)
    requires !c.Leaf? && Follows(c, mode, n, messages, true) && (n.phase.Looping? || n.phase.Emitting?)
    ensures Follows(c, mode, n.(phase := Leaving), messages, true)
  {
    hide AfterEmit, Replay;
  }

  /** A node that did not move, or moved on with its clean-up. */
  predicate Unmoved(o: Node, n: Node) {
    n.work == o.work && n.log == o.log && (n.phase == o.phase || (PastLoop(o) && PastLoop(n)))
  }

  lemma FollowsUnmoved(c: Condition, mode: Mode, o: Node, n: Node, messages: seq<Tagged>, gone: bool, more: bool)
    requires !c.Leaf? && Follows(c, mode, o, messages, gone) && Unmoved(o, n) && (gone ==> more)
    ensures Follows(c, mode, n, messages, more)
  {
    hide AfterEmit, Replay;
  }

  /** All steps but three leave a node's loop alone. */
  lemma OthersUnmoved(net: Network, mode: Mode, st: State, step: Step, p: nat)
    requires Shape(net, st) && Enabled(net, st, step) && Composite(net, p)
    requires step != ReceiveStep(p) && step != EmitStep(p) && step != AbortStep(p)
    ensures Unmoved(st.nodes[p], Next(net, mode, st, step).nodes[p])
    ensures Next(net, mode, st, step).nodes[p].used == st.nodes[p].used
  {
    hide Received, Emitted, RunDone, ContextDone;
  }

  lemma ContextStaysDone(net: Network, mode: Mode, st: State, step: Step, p: nat)
    requires Shape(net, st) && Enabled(net, st, step) && p < |net|
    ensures ContextDone(net, st, p) ==> ContextDone(net, Next(net, mode, st, step), p)
  {
    hide Received, Emitted, RunDone;
  }

  lemma {:induction false} EveryNodeFollows(net: Network, mode: Mode, trace: seq<State>, steps: seq<Step>, n: nat,
      p: nat)
    requires IsRun(net, mode, trace, steps) && n < |trace| && Composite(net, p) && net[p].children != []
    ensures Shape(net, trace[n])
    ensures Follows(net[p], mode, trace[n].nodes[p], Consumed(trace, steps, n, p), ContextDone(net, trace[n], p))
    decreases n
  {
    hide Follows, Next, Enabled, Received, Emitted, ContextDone, Unmoved;
    if n == 0 {
      InitialShape(net);
      StartFollows(net[p], mode, ContextDone(net, trace[0], p));
    } else {
      EveryNodeFollows(net, mode, trace, steps, n - 1, p);
      var st, step := trace[n - 1], steps[n - 1];
      assert Stepped(net, mode, st, step, trace[n]);
      EveryRunIsSound(net, mode, trace, steps, n - 1);
      NodeFollows(net, mode, st, step, p, Consumed(trace, steps, n - 1, p));
      assert Consumed(trace, steps, n, p) == Consumed(trace, steps, n - 1, p)
             + if step == ReceiveStep(p) && st.nodes[p].merged != [] then [st.nodes[p].merged[0]] else [];
    }
  }

  lemma StartFollows(c: Condition, mode: Mode, gone: bool)
    requires !c.Leaf? && c.children != []
    ensures Follows(c, mode, InitialNode(c), [], gone)
  {
  }

  lemma NodeFollows(net: Network, mode: Mode, st: State, step: Step, p: nat, messages: seq<Tagged>)
    requires Inv(net, mode, st) && Enabled(net, st, step) && Composite(net, p)
    requires Follows(net[p], mode, st.nodes[p], messages, ContextDone(net, st, p))
    ensures var st' := Next(net, mode, st, step);
            var received := if step == ReceiveStep(p) && st.nodes[p].merged != [] then [st.nodes[p].merged[0]] else [];
            Follows(net[p], mode, st'.nodes[p], messages + received, ContextDone(net, st', p))
  {
    hide Follows, Received, Emitted, Unmoved, AfterEmit, StreamAt, EdgeAt;
    var c, o, gone := net[p], st.nodes[p], ContextDone(net, st, p);
    ContextStaysDone(net, mode, st, step, p);
    assert messages + [] == messages;
    assert NodeAt(net, mode, st, p);
    if step == ReceiveStep(p) {
      FollowsReceive(c, mode, o, messages, gone);
    } else if step == EmitStep(p) {
      FollowsEmit(c, mode, o, messages, gone);
    } else if step == AbortStep(p) {
      FollowsAbort(c, mode, o, messages);
    } else {
      OthersUnmoved(net, mode, st, step, p);
      FollowsUnmoved(c, mode, o, Next(net, mode, st, step).nodes[p], messages, gone,
          ContextDone(net, Next(net, mode, st, step), p));
    }
  }

  /**
    What a composite has emitted or is emitting is what its loop emits for the messages it has consumed, as
    long as its context is not done; after that it is at least a part of it, from the first event on.
   */
  lemma NodesRunTheirLoops(net: Network, mode: Mode, trace: seq<State>, steps: seq<Step>, n: nat, p: nat)
    requires IsRun(net, mode, trace, steps) && n < |trace| && Composite(net, p) && net[p].children != []
    ensures Shape(net, trace[n]) && Indexed(Consumed(trace, steps, n, p), |net[p].children|)
    ensures var all := Run(net[p], mode, InitialWork(net[p]), Consumed(trace, steps, n, p));
            && Decided(trace[n].nodes[p]) <= all
            && (!ContextDone(net, trace[n], p) ==> Decided(trace[n].nodes[p]) == all)
  {
    hide Run, Replay, AfterEmit, ContextDone;
    EveryNodeFollows(net, mode, trace, steps, n, p);
    ReplayIsRun(net[p], mode, Consumed(trace, steps, n, p));
  }

  // AND nodes of a running network

  /** The consumed messages are, child by child, those that the invariant speaks about. */
  lemma {:induction false} ConsumedByChild(net: Network, mode: Mode, trace: seq<State>, steps: seq<Step>, n: nat,
      p: nat, k: nat)
    requires IsRun(net, mode, trace, steps) && n < |trace| && Composite(net, p) && k < |net[p].children|
    ensures Shape(net, trace[n]) && k < |trace[n].nodes[p].used|
    ensures Of(Consumed(trace, steps, n, p), k) == trace[n].nodes[p].used[k]
    decreases n
  {
    hide Next, Enabled, Received, NodeOk;
    EveryRunIsSound(net, mode, trace, steps, n);
    if n == 0 {
      assert trace[0].nodes[p] == InitialNode(net[p]);
    } else {
      ConsumedByChild(net, mode, trace, steps, n - 1, p, k);
      var st, step := trace[n - 1], steps[n - 1];
      assert Stepped(net, mode, st, step, trace[n]);
      EveryRunIsSound(net, mode, trace, steps, n - 1);
      StepConsumes(net, mode, st, step, p, k, Consumed(trace, steps, n - 1, p));
      assert Consumed(trace, steps, n, p) == Consumed(trace, steps, n - 1, p)
             + if step == ReceiveStep(p) && st.nodes[p].merged != [] then [st.nodes[p].merged[0]] else [];
    }
  }

  lemma StepConsumes(net: Network, mode: Mode, st: State, step: Step, p: nat, k: nat, messages: seq<Tagged>)
    requires Inv(net, mode, st) && Enabled(net, st, step) && Composite(net, p) && k < |net[p].children|
    requires k < |st.nodes[p].used| && Of(messages, k) == st.nodes[p].used[k]
    ensures var st' := Next(net, mode, st, step);
            var received := if step == ReceiveStep(p) && st.nodes[p].merged != [] then [st.nodes[p].merged[0]] else [];
            k < |st'.nodes[p].used| && Of(messages + received, k) == st'.nodes[p].used[k]
  {
    hide NodeOk, StreamAt, EdgeAt, OnMessage;
    assert messages + [] == messages;
    if step == ReceiveStep(p) {
      OfAppend(messages, st.nodes[p].merged[0], k);
    } else if step != EmitStep(p) && step != AbortStep(p) {
      OthersUnmoved(net, mode, st, step, p);
    }
  }

  lemma {:induction false} OfPosition(messages: seq<Tagged>, i: nat)
    requires i < |messages|
    ensures var k := messages[i].index; var j := |Of(messages[..i], k)|;
            j < |Of(messages, k)| && Of(messages, k)[j] == messages[i].message
    ensures var k := messages[i].index; Of(messages[..i + 1], k) == Of(messages[..i], k) + [messages[i].message]
    ensures |Of(messages[..i + 1], messages[i].index)| <= |Of(messages, messages[i].index)|
    decreases |messages|
  {
    if i > 0 {
      OfPosition(messages[1..], i - 1);
      assert messages[..i][1..] == messages[1..][..i - 1];
      assert messages[..i + 1][1..] == messages[1..][..i];
    } else {
      assert messages[..1] == [messages[0]] && messages[..1][1..] == [];
    }
  }

  lemma {:induction false} OfGrows(messages: seq<Tagged>, i: nat, j: nat, k: nat)
    requires i <= j <= |messages|
    ensures |Of(messages[..i], k)| <= |Of(messages[..j], k)|
    decreases j
  {
    if i < j {
      OfGrows(messages, i, j - 1, k);
      assert messages[..j] == messages[..j - 1] + [messages[j - 1]];
      OfAppend(messages[..j - 1], messages[j - 1], k);
    }
  }

  lemma TidyChildrenCloseLast(messages: seq<Tagged>)
    requires forall k: nat :: Tidy(Of(messages, k))
    ensures ClosesLast(messages)
  {
    forall i, j | 0 <= i < j < |messages| && messages[j].index == messages[i].index
      ensures messages[i].message.Fired?
    {
      var k := messages[i].index;
      OfPosition(messages, i);
      OfPosition(messages, j);
      OfGrows(messages, i + 1, j, k);
      assert Tidy(Of(messages, k));
    }
  }

  lemma {:induction false} OfStrangers(messages: seq<Tagged>, k: nat, n: nat)
    requires Indexed(messages, n) && k >= n
    ensures Of(messages, k) == []
  {
    if messages != [] {
      OfStrangers(messages[1..], k, n);
    }
  }

  lemma ConsumedClosesLast(net: Network, mode: Mode, trace: seq<State>, steps: seq<Step>, n: nat, p: nat)
    requires IsRun(net, mode, trace, steps) && n < |trace| && Composite(net, p) && net[p].children != []
    ensures ClosesLast(Consumed(trace, steps, n, p))
  {
    var messages := Consumed(trace, steps, n, p);
    hide ClosesLast, Follows, Consumed, Of, Tidy;
    EveryNodeFollows(net, mode, trace, steps, n, p);
    EveryRunIsSound(net, mode, trace, steps, n);
    FollowsIndexed(net[p], mode, trace[n].nodes[p], messages, ContextDone(net, trace[n], p));
    forall k: nat
      ensures Tidy(Of(messages, k))
    {
      if k < |net[p].children| {
        ConsumedByChild(net, mode, trace, steps, n, p, k);
        assert NodeAt(net, mode, trace[n], p);
      } else {
        OfStrangers(messages, k, |net[p].children|);
        NothingIsTidy();
      }
    }
    TidyChildrenCloseLast(messages);
  }

  lemma FollowsIndexed(c: Condition, mode: Mode, n: Node, messages: seq<Tagged>, gone: bool)
    requires !c.Leaf? && Follows(c, mode, n, messages, gone)
    ensures Indexed(messages, |c.children|)
  {
  }

  lemma NothingIsTidy()
    ensures Tidy([])
  {
  }

  /**
    In a running network in Continuous mode an AND whose context is not done has emitted as many events,
    the one on its way included, as there are disjoint consecutive blocks of the messages it has consumed
    in which every child fires.
   */
  lemma RunningAndIsOptimal(net: Network, trace: seq<State>, steps: seq<Step>, n: nat, p: nat, count: nat)
    requires IsRun(net, Continuous, trace, steps) && n < |trace|
    requires p < |net| && net[p].And? && net[p].children != []
    requires Shape(net, trace[n]) && !ContextDone(net, trace[n], p)
    ensures Packs(Unset(|net[p].children|), Consumed(trace, steps, n, p), count) <==>
            count <= |Decided(trace[n].nodes[p])|
  {
    hide Packs, Run, ClosesLast;
    NodesRunTheirLoops(net, Continuous, trace, steps, n, p);
    ConsumedClosesLast(net, Continuous, trace, steps, n, p);
    AndIsOptimal(net[p], Consumed(trace, steps, n, p), count);
  }

  /** And these are the events of the cycles in the messages it has consumed, each with its sources. */
  lemma RunningAndEmitsItsCycles(net: Network, trace: seq<State>, steps: seq<Step>, n: nat, p: nat)
    requires IsRun(net, Continuous, trace, steps) && n < |trace|
    requires p < |net| && net[p].And? && net[p].children != []
    requires Shape(net, trace[n]) && !ContextDone(net, trace[n], p)
    ensures var size := |net[p].children|;
            Cycles(net[p], Unset(size), NoSources(size), Consumed(trace, steps, n, p), Decided(trace[n].nodes[p]))
  {
    hide Cycles, Run, ClosesLast;
    NodesRunTheirLoops(net, Continuous, trace, steps, n, p);
    ConsumedClosesLast(net, Continuous, trace, steps, n, p);
    AndEmitsItsCycles(net[p], Consumed(trace, steps, n, p));
  }
}
