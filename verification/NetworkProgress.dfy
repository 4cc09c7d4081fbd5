/**
  In Continuous mode leaves may fire for ever, but between two firings the program comes to rest: every
  event in the network is worth a bounded number of steps, more the further it is from the root.
 */
module NetworkProgress {
  import opened Conditions
  import opened Sequences
  import opened SourceIds
  import opened Nodes
  import opened SharedStreams
  import opened NetworkSteps
  import opened NetworkBudgets
  import opened NetworkInvariant
  import opened NetworkSafety
  import opened NetworkVerdict

  // Prices

  /** The steps that one event in the output of a condition can cause; `k` conditions are listed after it. */
  function EventWorth(k: nat, edges: nat): nat
    decreases k, 0
  {
    if k == 0 then 1 else 3 + (edges + 1) * Delivery(k - 1, edges)
  }

  /** The steps that one delivery to a parent with at most `k` conditions after it can cause. */
  function Delivery(k: nat, edges: nat): nat
    decreases k, 1
  {
    EventWorth(k, edges) + 5
  }

  function AtIndex(net: Network, i: nat): nat {
    if i < |net| then |net| - 1 - i else 0
  }

  function PhasePrice(c: Condition, phase: Phase, worth: nat): nat {
    var n := |c.Children()|;
    match phase
    case Looping => n + 8
    case Emitting(_) => n + 9 + worth
    case Leaving => n + 4
    case Cleaning(next) => if next <= n then n - next + 2 else 2
    case Finished => 0
  }

  function NodePrice(c: Condition, n: Node, worth: nat): nat {
    |n.merged| * (worth + 2) + |n.out| * worth + PhasePrice(c, n.phase, worth)
  }

  function StreamPrice(s: Stream<Edge>, delivery: nat, edges: nat): nat {
    (match s.disp
     case Idle => 2
     case Holding(_) => 4 + edges * delivery
     case Delivering(_, todo) => 3 + |todo| * delivery
     case Ending => 1
     case Ended => 0)
    + (if s.cancelled then 0 else 1)
  }

  /** `merged` is the price of one message in the parent's channel. */
  function SlotPrice(slot: Slot, merged: nat): nat {
    (match slot.fwd
     case Taking => merged + 3
     case Putting(m) => if m.Closed? then merged + 2 else 2 * merged + 4
     case Delivered => 0
     case Dropped => 0)
    + |slot.buffer| * (merged + 2)
  }

  function WorthAt(net: Network, i: nat, edges: nat): nat {
    EventWorth(AtIndex(net, i), edges)
  }

  function DeliveryAt(net: Network, c: nat, edges: nat): nat {
    if AtIndex(net, c) == 0 then 0 else Delivery(AtIndex(net, c) - 1, edges)
  }

  function MergedAt(net: Network, p: nat, edges: nat): nat {
    WorthAt(net, p, edges) + 2
  }

  function ContinuousPrices(net: Network, edges: nat): Prices {
    Prices((i: nat, n: Node) => if i < |net| then NodePrice(net[i], n, WorthAt(net, i, edges)) else 0,
           (c: nat, s: Stream<Edge>) => StreamPrice(s, DeliveryAt(net, c, edges), edges),
           (e: Edge, slot: Slot) => SlotPrice(slot, MergedAt(net, e.parent, edges)))
  }

  function Load(net: Network, st: State, order: seq<Edge>): nat
    requires Shape(net, st) && Lists(net, order)
  {
    Worth(net, st, order, ContinuousPrices(net, |order|))
  }

  lemma {:induction false} WorthGrows(j: nat, k: nat, edges: nat)
    requires j <= k
    ensures 1 <= EventWorth(j, edges) <= EventWorth(k, edges)
    decreases k
  {
    if j < k {
      WorthGrows(j, k - 1, edges);
      Multiplied(Delivery(k - 1, edges), edges);
    }
  }

  lemma Multiplied(d: nat, edges: nat)
    ensures (edges + 1) * d == edges * d + d
  {
  }

  /** Pulling an event pays for holding it. */
  lemma PullPays(net: Network, c: nat, edges: nat)
    requires c < |net| - 1
    ensures WorthAt(net, c, edges) >= 3 + edges * DeliveryAt(net, c, edges)
  {
    Multiplied(DeliveryAt(net, c, edges), edges);
  }

  /** A delivery pays for the event in a subscription of a parent. */
  lemma DeliveryPays(net: Network, e: Edge, edges: nat)
    requires ChildrenFirst(net) && IsEdge(net, e)
    ensures DeliveryAt(net, Child(net, e), edges) > MergedAt(net, e.parent, edges) + 2
  {
    WorthGrows(AtIndex(net, e.parent), AtIndex(net, Child(net, e)) - 1, edges);
  }

  lemma OneLess(n: nat, x: nat)
    requires n > 0
    ensures (n - 1) * x + x == n * x
  {
  }

  lemma OneMore(n: nat, x: nat)
    ensures (n + 1) * x == n * x + x
  {
  }

  lemma Fewer(n: nat, m: nat, x: nat)
    requires n <= m
    ensures n * x <= m * x
  {
  }

  // Every step but a firing leaf costs something

  lemma ReceivePays(c: Condition, n: Node, worth: nat)
    requires !c.Leaf? && Fits(c, n.work) && n.phase.Looping?
    requires n.merged != [] && n.merged[0].index < |c.children| == |n.used|
    ensures NodePrice(c, Received(c, n), worth) < NodePrice(c, n, worth)
  {
    hide EventSources, Merge, AllMatched;
    OneLess(|n.merged|, worth + 2);
  }

  lemma EmitPays(c: Condition, mode: Mode, n: Node, worth: nat)
    requires !c.Leaf? && Fits(c, n.work) && n.phase.Emitting?
    ensures NodePrice(c, Emitted(c, mode, n), worth) < NodePrice(c, n, worth)
  {
    hide AfterEmit;
    OneMore(|n.out|, worth);
  }

  lemma NodeStepsPay(net: Network, st: State, step: Step, order: seq<Edge>)
    requires Inv(net, Continuous, st) && Lists(net, order) && Enabled(net, st, step)
    requires step.EndLeafStep? || step.ReceiveStep? || step.AbortStep? || step.EmitStep?
             || step.CancelRunStep? || step.CloseOutStep?
    ensures Load(net, Next(net, Continuous, st, step), order) < Load(net, st, order)
  {
    hide NodeOk, StreamOk, EdgeOk, Worth, Received, Emitted;
    var i := if step.EndLeafStep? then step.leaf else step.node;
    var n, worth := Next(net, Continuous, st, step).nodes[i], WorthAt(net, i, |order|);
    if step.ReceiveStep? {
      ReceivePays(net[i], st.nodes[i], worth);
    } else if step.EmitStep? {
      EmitPays(net[i], Continuous, st.nodes[i], worth);
    }
    NodeChanges(net, st, i, n, order, ContinuousPrices(net, |order|));
  }

  lemma UnsubscribePays(net: Network, st: State, p: nat, order: seq<Edge>)
    requires Inv(net, Continuous, st) && Lists(net, order) && CanUnsubscribe(net, st, p)
    ensures Load(net, Unsubscribe(net, st, p), order) < Load(net, st, order)
  {
    hide NodeOk, StreamOk, EdgeOk, Worth;
    var k := st.nodes[p].phase.next;
    var c := net[p].children[k];
    NodeAndStreamChange(net, st, p, st.nodes[p].(phase := Cleaning(k + 1)), c, st.streams[c].Remove(Edge(p, k)), order,
                        ContinuousPrices(net, |order|));
  }

  lemma PutPays(net: Network, st: State, e: Edge, order: seq<Edge>)
    requires Inv(net, Continuous, st) && Lists(net, order) && CanPut(net, st, e)
    ensures Load(net, Put(net, st, e), order) < Load(net, st, order)
  {
    hide NodeOk, StreamOk, EdgeOk, Worth;
    var st' := Put(net, st, e);
    OneMore(|st.nodes[e.parent].merged|, WorthAt(net, e.parent, |order|) + 2);
    NodeAndSlotChange(net, st, e.parent, st'.nodes[e.parent], e, st'.slots[e], order, ContinuousPrices(net, |order|));
  }

  lemma TakePays(net: Network, st: State, e: Edge, order: seq<Edge>)
    requires Inv(net, Continuous, st) && Lists(net, order) && CanTake(net, st, e)
    ensures Load(net, Take(net, st, e), order) < Load(net, st, order)
  {
    hide NodeOk, StreamOk, EdgeOk, Worth;
    var slot := st.slots[e];
    if slot.buffer != [] {
      OneLess(|slot.buffer|, MergedAt(net, e.parent, |order|) + 2);
    }
    SlotChanges(net, st, e, Take(net, st, e).slots[e], order, ContinuousPrices(net, |order|));
  }

  lemma DropPays(net: Network, st: State, e: Edge, order: seq<Edge>)
    requires Inv(net, Continuous, st) && Lists(net, order) && CanDrop(net, st, e)
    ensures Load(net, Drop(net, st, e), order) < Load(net, st, order)
  {
    hide NodeOk, StreamOk, EdgeOk, Worth;
    SlotChanges(net, st, e, Drop(net, st, e).slots[e], order, ContinuousPrices(net, |order|));
  }

  lemma PullStepPays(net: Network, st: State, c: nat, order: seq<Edge>)
    requires Inv(net, Continuous, st) && Lists(net, order) && CanPull(net, st, c)
    ensures Load(net, Pull(net, st, c), order) < Load(net, st, order)
  {
    hide NodeOk, StreamOk, EdgeOk, Worth, EventWorth, Delivery;
    var st' := Pull(net, st, c);
    PullPays(net, c, |order|);
    OneLess(|st.nodes[c].out|, WorthAt(net, c, |order|));
    NodeAndStreamChange(net, st, c, st'.nodes[c], c, st'.streams[c], order, ContinuousPrices(net, |order|));
  }

  lemma SendPays(net: Network, st: State, c: nat, order: seq<Edge>)
    requires Inv(net, Continuous, st) && Lists(net, order) && CanSend(net, st, c)
    ensures Load(net, Send(net, st, c), order) < Load(net, st, order)
  {
    hide NodeOk, EdgeOk, Worth, EventWorth, Delivery;
    var st', e := Send(net, st, c), st.streams[c].disp.todo[0];
    assert e in st.streams[c].Todo() && StreamAt(net, st, c);
    hide StreamOk, Inv;
    DeliveryPays(net, e, |order|);
    OneLess(|st.streams[c].disp.todo|, DeliveryAt(net, c, |order|));
    OneMore(|st.slots[e].buffer|, MergedAt(net, e.parent, |order|) + 2);
    StreamAndSlotChange(net, st, c, st'.streams[c], e, st'.slots[e], order, ContinuousPrices(net, |order|));
  }

  lemma SnapshotPays(net: Network, st: State, c: nat, copy: seq<Edge>, order: seq<Edge>)
    requires Inv(net, Continuous, st) && Lists(net, order) && CanSnapshot(net, st, c, copy)
    ensures Load(net, Snapshot(net, st, c, copy), order) < Load(net, st, order)
  {
    hide NodeOk, EdgeOk, StreamOk, Worth, EventWorth, Delivery;
    assert StreamAt(net, st, c);
    CopyFits(net, st, c, copy, order);
    Fewer(|copy|, |order|, DeliveryAt(net, c, |order|));
    StreamChanges(net, st, c, st.streams[c].Snapshot(copy), order, ContinuousPrices(net, |order|));
  }

  lemma SkipPays(net: Network, st: State, c: nat, order: seq<Edge>)
    requires Inv(net, Continuous, st) && Lists(net, order) && CanSkip(net, st, c)
    ensures Load(net, Skip(net, st, c), order) < Load(net, st, order)
  {
    hide NodeOk, EdgeOk, StreamOk, Worth, EventWorth, Delivery, RunDone;
    DeliveryPays(net, st.streams[c].disp.todo[0], |order|);
    FacedChild(net, st, c);
    OneLess(|st.streams[c].disp.todo|, DeliveryAt(net, c, |order|));
    StreamChanges(net, st, c, Skip(net, st, c).streams[c], order, ContinuousPrices(net, |order|));
  }

  lemma FacedChild(net: Network, st: State, c: nat)
    requires Inv(net, Continuous, st) && Facing(net, st, c)
    ensures Child(net, st.streams[c].disp.todo[0]) == c
  {
    assert st.streams[c].disp.todo[0] in st.streams[c].Todo() && StreamAt(net, st, c);
  }

  lemma StreamStepsPay(net: Network, st: State, step: Step, order: seq<Edge>)
    requires Inv(net, Continuous, st) && Lists(net, order) && Enabled(net, st, step)
    requires step.RestStep? || step.StopStep? || step.CancelStreamStep?
    ensures Load(net, Next(net, Continuous, st, step), order) < Load(net, st, order)
  {
    hide NodeOk, StreamOk, EdgeOk, Worth, EventWorth, Delivery;
    var c := step.stream;
    Fewer(0, |st.streams[c].Todo()|, DeliveryAt(net, c, |order|));
    StreamChanges(net, st, c, Next(net, Continuous, st, step).streams[c], order, ContinuousPrices(net, |order|));
  }

  lemma FinishPays(net: Network, st: State, c: nat, order: seq<Edge>)
    requires Inv(net, Continuous, st) && Lists(net, order) && CanFinish(net, st, c)
    ensures Load(net, Finish(net, st, c), order) < Load(net, st, order)
  {
    hide NodeOk, StreamOk, EdgeOk, Worth, EventWorth, Delivery;
    var st' := Finish(net, st, c);
    var mid := st.(streams := st'.streams);
    StreamChanges(net, st, c, st'.streams[c], order, ContinuousPrices(net, |order|));
    ClosingIsFree(net, mid, st', order, ContinuousPrices(net, |order|));
  }

  lemma ConsumePays(net: Network, st: State, order: seq<Edge>)
    requires Inv(net, Continuous, st) && Lists(net, order) && CanConsume(net, st)
    ensures Load(net, Consume(net, st), order) < Load(net, st, order)
  {
    hide NodeOk, StreamOk, EdgeOk, NodeCosts, StreamCosts, SlotCosts, Total, Delivery;
    var r, st' := Root(net), Consume(net, st);
    var mid := st.(nodes := st'.nodes);
    OneLess(|st.nodes[r].out|, WorthAt(net, r, |order|));
    NodeChanges(net, st, r, st'.nodes[r], order, ContinuousPrices(net, |order|));
    Untouched(net, mid, st', order, ContinuousPrices(net, |order|));
  }

  lemma StepPays(net: Network, st: State, step: Step, order: seq<Edge>)
    requires Inv(net, Continuous, st) && Lists(net, order) && Enabled(net, st, step) && !step.FireStep?
    ensures Load(net, Next(net, Continuous, st, step), order) < Load(net, st, order)
  {
    hide NodeOk, StreamOk, EdgeOk, Load;
    match step
    case UnsubscribeStep(p) => UnsubscribePays(net, st, p, order);
    case TakeStep(e) => TakePays(net, st, e, order);
    case PutStep(e) => PutPays(net, st, e, order);
    case DropStep(e) => DropPays(net, st, e, order);
    case PullStep(c) => PullStepPays(net, st, c, order);
    case SnapshotStep(c, copy) => SnapshotPays(net, st, c, copy, order);
    case SendStep(c) => SendPays(net, st, c, order);
    case SkipStep(c) => SkipPays(net, st, c, order);
    case FinishStep(c) => FinishPays(net, st, c, order);
    case RestStep(_) => StreamStepsPay(net, st, step, order);
    case StopStep(_) => StreamStepsPay(net, st, step, order);
    case CancelStreamStep(_) => StreamStepsPay(net, st, step, order);
    case CancelAllStep => CancelPays(net, st, order);
    case ConsumeStep => ConsumePays(net, st, order);
    case _ => NodeStepsPay(net, st, step, order);
  }

  lemma CancelPays(net: Network, st: State, order: seq<Edge>)
    requires Shape(net, st) && Lists(net, order) && !st.cancelled
    ensures Load(net, st.(cancelled := true), order) < Load(net, st, order)
  {
    hide Worth;
    CancellationChanges(net, st, order, ContinuousPrices(net, |order|));
  }

  // Every run

  /**
    After any point `m` of a Continuous run there are at most `Load` steps before the next leaf fires,
    whatever is cancelled meanwhile.
   */
  lemma {:induction false} FiringsAreClose(net: Network, trace: seq<State>, steps: seq<Step>, order: seq<Edge>, m: nat,
      n: nat)
    requires IsRun(net, Continuous, trace, steps) && Lists(net, order) && m <= n < |trace|
    requires forall i :: m <= i < n ==> !steps[i].FireStep?
    ensures Shape(net, trace[m]) && Shape(net, trace[n])
    ensures n - m + Load(net, trace[n], order) <= Load(net, trace[m], order)
    decreases n
  {
    hide Load, NodeOk, StreamOk, EdgeOk;
    EveryRunIsSound(net, Continuous, trace, steps, m);
    if m < n {
      FiringsAreClose(net, trace, steps, order, m, n - 1);
      EveryRunIsSound(net, Continuous, trace, steps, n - 1);
      assert Stepped(net, Continuous, trace[n - 1], steps[n - 1], trace[n]);
      StepPays(net, trace[n - 1], steps[n - 1], order);
    }
  }

  lemma InternalIsNoFiring(net: Network, st: State, step: Step)
    requires Shape(net, st) && Internal(net, st, step)
    ensures !step.FireStep? && !step.CancelAllStep? && !step.ConsumeStep?
  {
  }

  /** From every state of a Continuous run the program's own steps lead to rest. */
  lemma {:induction false} ComesToRest(net: Network, trace: seq<State>, steps: seq<Step>, order: seq<Edge>)
    returns (trace': seq<State>, steps': seq<Step>)
    requires IsRun(net, Continuous, trace, steps) && Lists(net, order)
    requires Shape(net, trace[|steps|])
    ensures IsRun(net, Continuous, trace', steps') && trace <= trace' && steps <= steps'
    ensures Shape(net, trace'[|steps'|]) && Quiet(net, trace'[|steps'|])
    ensures forall i :: |steps| <= i < |steps'| ==> !steps'[i].FireStep? && !steps'[i].CancelAllStep?
    ensures |steps'| - |steps| <= Load(net, trace[|steps|], order)
    decreases Load(net, trace[|steps|], order)
  {
    hide NodeOk, StreamOk, EdgeOk, Load;
    var st := trace[|steps|];
    if Quiet(net, st) {
      return trace, steps;
    }
    EveryRunIsSound(net, Continuous, trace, steps, |steps|);
    var step :| Internal(net, st, step) && Enabled(net, st, step);
    var next := Next(net, Continuous, st, step);
    InternalIsNoFiring(net, st, step);
    StepPays(net, st, step, order);
    ExtendRun(net, Continuous, trace, steps, step);
    trace', steps' := ComesToRest(net, trace + [next], steps + [step], order);
    assert steps'[|steps|] == (steps + [step])[|steps|];
  }
}
