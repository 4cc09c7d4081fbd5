/**
  In Once mode every run is finite: each step uses up part of a budget fixed by the tree.  So the network
  always comes to rest, and `NetworkVerdict` says what it has done by then.
 */
module NetworkTermination {
  import opened Conditions
  import opened Sequences
  import opened SourceIds
  import opened Nodes
  import opened SharedStreams
  import opened NetworkSteps
  import opened NetworkBudgets
  import opened NetworkInvariant
  import opened NetworkSafety
  import opened NetworkVerdict

  // The budget

  function PhaseBudget(c: Condition, phase: Phase): nat {
    var n := |c.Children()|;
    match phase
    case Looping => n + 8
    case Emitting(_) => n + 6
    case Leaving => n + 4
    case Cleaning(next) => if next <= n then n - next + 2 else 2
    case Finished => 0
  }

  function NodeBudget(c: Condition, n: Node): nat {
    |n.merged| + |n.out| + PhaseBudget(c, n.phase)
  }

  function StreamBudget(s: Stream<Edge>, edges: nat): nat {
    var disp :=
      match s.disp
      case Idle => 2
      case Holding(_) => edges + 6
      case Delivering(_, todo) => 3 + |todo|
      case Ending => 1
      case Ended => 0;
    disp + (if s.taken == [] then 2 * edges + 20 else 0) + (if s.cancelled then 0 else 1)
  }

  function SlotBudget(slot: Slot): nat {
    var fwd :=
      match slot.fwd
      case Taking => 3
      case Putting(m) => if m.Closed? then 2 else 5
      case Delivered => 0
      case Dropped => 0;
    fwd + 3 * |slot.buffer| + (if slot.sent == [] then 4 else 0)
  }

  function OncePrices(net: Network, edges: nat): Prices {
    Prices((i: nat, n: Node) => if i < |net| then NodeBudget(net[i], n) else 0,
                  (_: nat, s: Stream<Edge>) => StreamBudget(s, edges),
                  (_: Edge, slot: Slot) => SlotBudget(slot))
  }

  function Budget(net: Network, st: State, order: seq<Edge>): nat
    requires Shape(net, st) && Lists(net, order)
  {
    Worth(net, st, order, OncePrices(net, |order|))
  }

  // Every step costs something

  lemma NodeStepsCost(net: Network, st: State, step: Step, order: seq<Edge>)
    requires Inv(net, Once, st) && Lists(net, order) && Enabled(net, st, step)
    requires step.FireStep? || step.EndLeafStep? || step.ReceiveStep? || step.AbortStep? || step.EmitStep?
             || step.CancelRunStep? || step.CloseOutStep?
    ensures Budget(net, Next(net, Once, st, step), order) < Budget(net, st, order)
  {
    hide NodeOk, StreamOk, EdgeOk, Worth;
    var i := if step.FireStep? || step.EndLeafStep? then step.leaf else step.node;
    var n := Next(net, Once, st, step).nodes[i];
    NodeChanges(net, st, i, n, order, OncePrices(net, |order|));
  }

  lemma UnsubscribeCosts(net: Network, st: State, p: nat, order: seq<Edge>)
    requires Inv(net, Once, st) && Lists(net, order) && CanUnsubscribe(net, st, p)
    ensures Budget(net, Unsubscribe(net, st, p), order) < Budget(net, st, order)
  {
    hide NodeOk, StreamOk, EdgeOk, Worth;
    var k := st.nodes[p].phase.next;
    var c := net[p].children[k];
    NodeAndStreamChange(net, st, p, st.nodes[p].(phase := Cleaning(k + 1)), c, st.streams[c].Remove(Edge(p, k)), order,
        OncePrices(net, |order|));
  }

  lemma PutCosts(net: Network, st: State, e: Edge, order: seq<Edge>)
    requires Inv(net, Once, st) && Lists(net, order) && CanPut(net, st, e)
    ensures Budget(net, Put(net, st, e), order) < Budget(net, st, order)
  {
    hide NodeOk, StreamOk, EdgeOk, Worth;
    var st' := Put(net, st, e);
    NodeAndSlotChange(net, st, e.parent, st'.nodes[e.parent], e, st'.slots[e], order, OncePrices(net, |order|));
  }

  lemma FirstPull(net: Network, st: State, c: nat)
    requires Inv(net, Once, st) && Streamed(net, c) && st.nodes[c].out != []
    ensures st.streams[c].taken == []
  {
    hide EdgeOk;
    assert NodeAt(net, Once, st, c) && StreamAt(net, st, c);
  }

  lemma PullCosts(net: Network, st: State, c: nat, order: seq<Edge>)
    requires Inv(net, Once, st) && Lists(net, order) && CanPull(net, st, c)
    ensures Budget(net, Pull(net, st, c), order) < Budget(net, st, order)
  {
    hide NodeOk, StreamOk, EdgeOk, Worth;
    FirstPull(net, st, c);
    var st' := Pull(net, st, c);
    NodeAndStreamChange(net, st, c, st'.nodes[c], c, st'.streams[c], order, OncePrices(net, |order|));
  }

  lemma FirstSend(net: Network, st: State, c: nat)
    requires Inv(net, Once, st) && CanSend(net, st, c)
    ensures st.slots[st.streams[c].disp.todo[0]].sent == []
  {
    hide NodeOk, FlowOk;
    var s := st.streams[c];
    assert s.disp.todo[0] in s.Todo();
    assert StreamAt(net, st, c) && EdgeAt(net, st, s.disp.todo[0]);
    FirstEvent(net, st, c);
  }

  lemma SendCosts(net: Network, st: State, c: nat, order: seq<Edge>)
    requires Inv(net, Once, st) && Lists(net, order) && CanSend(net, st, c)
    ensures Budget(net, Send(net, st, c), order) < Budget(net, st, order)
  {
    hide NodeOk, StreamOk, EdgeOk, Lists, NodeBudget, Worth;
    FirstSend(net, st, c);
    var st' := Send(net, st, c);
    var mid := st.(streams := st'.streams);
    var e := st.streams[c].disp.todo[0];
    assert st' == mid.(slots := mid.slots[e := st'.slots[e]]);
    StreamChanges(net, st, c, st'.streams[c], order, OncePrices(net, |order|));
    SlotChanges(net, mid, e, st'.slots[e], order, OncePrices(net, |order|));
  }

  lemma FinishCosts(net: Network, st: State, c: nat, order: seq<Edge>)
    requires Inv(net, Once, st) && Lists(net, order) && CanFinish(net, st, c)
    ensures Budget(net, Finish(net, st, c), order) < Budget(net, st, order)
  {
    hide NodeOk, StreamOk, EdgeOk, Worth;
    var st' := Finish(net, st, c);
    var mid := st.(streams := st'.streams);
    StreamChanges(net, st, c, st'.streams[c], order, OncePrices(net, |order|));
    ClosingIsFree(net, mid, st', order, OncePrices(net, |order|));
  }

  lemma SnapshotCosts(net: Network, st: State, c: nat, copy: seq<Edge>, order: seq<Edge>)
    requires Inv(net, Once, st) && Lists(net, order) && CanSnapshot(net, st, c, copy)
    ensures Budget(net, Snapshot(net, st, c, copy), order) < Budget(net, st, order)
  {
    hide NodeOk, EdgeOk, StreamOk, Worth;
    assert StreamAt(net, st, c);
    CopyFits(net, st, c, copy, order);
    StreamChanges(net, st, c, st.streams[c].Snapshot(copy), order, OncePrices(net, |order|));
  }

  lemma StreamStepsCost(net: Network, st: State, step: Step, order: seq<Edge>)
    requires Inv(net, Once, st) && Lists(net, order) && Enabled(net, st, step)
    requires step.SkipStep? || step.RestStep? || step.StopStep? || step.CancelStreamStep?
    ensures Budget(net, Next(net, Once, st, step), order) < Budget(net, st, order)
  {
    hide NodeOk, StreamOk, EdgeOk, Worth;
    var c := step.stream;
    StreamChanges(net, st, c, Next(net, Once, st, step).streams[c], order, OncePrices(net, |order|));
  }

  lemma ConsumeCosts(net: Network, st: State, order: seq<Edge>)
    requires Inv(net, Once, st) && Lists(net, order) && CanConsume(net, st)
    ensures Budget(net, Consume(net, st), order) < Budget(net, st, order)
  {
    hide NodeOk, StreamOk, EdgeOk;
    var r, st' := Root(net), Consume(net, st);
    var mid := st.(nodes := st'.nodes);
    NodeChanges(net, st, r, st'.nodes[r], order, OncePrices(net, |order|));
    Untouched(net, mid, st', order, OncePrices(net, |order|));
  }

  lemma ForwarderStepsCost(net: Network, st: State, step: Step, order: seq<Edge>)
    requires Inv(net, Once, st) && Lists(net, order) && Enabled(net, st, step)
    requires step.TakeStep? || step.DropStep?
    ensures Budget(net, Next(net, Once, st, step), order) < Budget(net, st, order)
  {
    hide NodeOk, StreamOk, EdgeOk, Worth;
    var e := step.edge;
    SlotChanges(net, st, e, Next(net, Once, st, step).slots[e], order, OncePrices(net, |order|));
  }

  lemma CancellationCosts(net: Network, st: State, order: seq<Edge>)
    requires Shape(net, st) && Lists(net, order) && !st.cancelled
    ensures Budget(net, st.(cancelled := true), order) < Budget(net, st, order)
  {
    hide Worth;
    CancellationChanges(net, st, order, OncePrices(net, |order|));
  }

  lemma StepCosts(net: Network, st: State, step: Step, order: seq<Edge>)
    requires Inv(net, Once, st) && Lists(net, order) && Enabled(net, st, step)
    ensures Budget(net, Next(net, Once, st, step), order) < Budget(net, st, order)
  {
    hide NodeOk, StreamOk, EdgeOk, Budget;
    match step
    case UnsubscribeStep(p) => UnsubscribeCosts(net, st, p, order);
    case TakeStep(e) => ForwarderStepsCost(net, st, step, order);
    case PutStep(e) => PutCosts(net, st, e, order);
    case DropStep(e) => ForwarderStepsCost(net, st, step, order);
    case PullStep(c) => PullCosts(net, st, c, order);
    case SnapshotStep(c, copy) => SnapshotCosts(net, st, c, copy, order);
    case SendStep(c) => SendCosts(net, st, c, order);
    case FinishStep(c) => FinishCosts(net, st, c, order);
    case SkipStep(_) => StreamStepsCost(net, st, step, order);
    case RestStep(_) => StreamStepsCost(net, st, step, order);
    case StopStep(_) => StreamStepsCost(net, st, step, order);
    case CancelStreamStep(_) => StreamStepsCost(net, st, step, order);
    case CancelAllStep => CancellationCosts(net, st, order);
    case ConsumeStep => ConsumeCosts(net, st, order);
    case _ => NodeStepsCost(net, st, step, order);
  }

  // Every run

  lemma {:induction false} RunSpendsBudget(net: Network, trace: seq<State>, steps: seq<Step>, order: seq<Edge>, n: nat)
    requires IsRun(net, Once, trace, steps) && Lists(net, order) && n < |trace|
    requires Shape(net, Initial(net))
    ensures Shape(net, trace[n]) && n + Budget(net, trace[n], order) <= Budget(net, Initial(net), order)
  {
    hide NodeOk, StreamOk, EdgeOk, Budget;
    if n > 0 {
      RunSpendsBudget(net, trace, steps, order, n - 1);
      EveryRunIsSound(net, Once, trace, steps, n - 1);
      assert Stepped(net, Once, trace[n - 1], steps[n - 1], trace[n]);
      StepCosts(net, trace[n - 1], steps[n - 1], order);
    }
  }

  lemma InitialNodeBudgets(net: Network, order: seq<Edge>)
    requires WellFormed(net) && Lists(net, order) && Shape(net, Initial(net))
    ensures Total(NodeCosts(net, Initial(net), OncePrices(net, |order|))) <= |net| * (|order| + 8)
  {
    var budgets := NodeCosts(net, Initial(net), OncePrices(net, |order|));
    forall i | 0 <= i < |net|
      ensures budgets[i] <= |order| + 8
    {
      ChildrenFit(net, i, order);
    }
    TotalBound(budgets, |order| + 8);
  }

  lemma InitialStreamBudgets(net: Network, edges: nat)
    requires WellFormed(net) && Shape(net, Initial(net))
    ensures Total(StreamCosts(net, Initial(net), OncePrices(net, edges))) <= |net| * (2 * edges + 23)
  {
    TotalBound(StreamCosts(net, Initial(net), OncePrices(net, edges)), 2 * edges + 23);
  }

  lemma InitialSlotBudgets(net: Network, order: seq<Edge>)
    requires WellFormed(net) && Lists(net, order) && Shape(net, Initial(net))
    ensures Total(SlotCosts(net, Initial(net), order, OncePrices(net, |order|))) <= 7 * |order|
  {
    var budgets := SlotCosts(net, Initial(net), order, OncePrices(net, |order|));
    forall j | 0 <= j < |order|
      ensures budgets[j] <= 7
    {
      assert order[j] in order;
      assert order[j] in AllEdges(net);
    }
    TotalBound(budgets, 7);
  }

  lemma InitialBudget(net: Network, order: seq<Edge>)
    requires WellFormed(net) && Lists(net, order) && Shape(net, Initial(net))
    ensures Budget(net, Initial(net), order) <= |net| * (3 * |order| + 31) + 7 * |order| + 1
  {
    hide WellFormed, Initial, Lists, NodeCosts, StreamCosts, SlotCosts, Total;
    InitialNodeBudgets(net, order);
    InitialStreamBudgets(net, |order|);
    InitialSlotBudgets(net, order);
    Gather(|net|, |order| + 8, 2 * |order| + 23);
  }

  lemma Gather(n: nat, a: nat, b: nat)
    ensures n * a + n * b == n * (a + b)
  {
  }

  /** No run of a network in Once mode takes more steps than this, whatever fires and whatever is cancelled. */
  lemma EveryRunEnds(net: Network, trace: seq<State>, steps: seq<Step>, order: seq<Edge>)
    requires IsRun(net, Once, trace, steps) && Lists(net, order)
    ensures |steps| <= |net| * (3 * |order| + 31) + 7 * |order| + 1
  {
    InitialShape(net);
    RunSpendsBudget(net, trace, steps, order, |steps|);
    InitialBudget(net, order);
  }

  lemma InternalStepsFireNothing(net: Network, mode: Mode, st: State, step: Step)
    requires Shape(net, st) && Enabled(net, st, step) && Internal(net, st, step)
    ensures FiredLeaves(net, Next(net, mode, st, step)) == FiredLeaves(net, st)
    ensures Next(net, mode, st, step).cancelled == st.cancelled
  {
    var st' := Next(net, mode, st, step);
    forall i: nat | i < |net| && net[i].Leaf?
      ensures st'.nodes[i].log == st.nodes[i].log
    {
    }
  }

  /**
    From any point of any run the program's own steps lead to rest, firing nothing.  With
    `NetworkVerdict.RestingVerdict`, a formula that is true now is always answered.
   */
  lemma {:induction false} ComesToRest(net: Network, trace: seq<State>, steps: seq<Step>, order: seq<Edge>)
    returns (trace': seq<State>, steps': seq<Step>)
    requires IsRun(net, Once, trace, steps) && Lists(net, order)
    requires Shape(net, trace[|steps|])
    ensures IsRun(net, Once, trace', steps') && trace <= trace' && steps <= steps'
    ensures Shape(net, trace'[|steps'|]) && Quiet(net, trace'[|steps'|])
    ensures FiredLeaves(net, trace'[|steps'|]) == FiredLeaves(net, trace[|steps|])
    ensures trace'[|steps'|].cancelled == trace[|steps|].cancelled
    decreases Budget(net, trace[|steps|], order)
  {
    hide NodeOk, StreamOk, EdgeOk, Budget;
    var st := trace[|steps|];
    if Quiet(net, st) {
      return trace, steps;
    }
    EveryRunIsSound(net, Once, trace, steps, |steps|);
    var step :| Internal(net, st, step) && Enabled(net, st, step);
    var next := Next(net, Once, st, step);
    StepCosts(net, st, step, order);
    InternalStepsFireNothing(net, Once, st, step);
    ExtendRun(net, Once, trace, steps, step);
    trace', steps' := ComesToRest(net, trace + [next], steps + [step], order);
  }

  // The verdict needs a caller that does not cancel

  predicate HasLeft(n: Node) {
    n.log == [] && PastLoop(n)
  }

  /** A composite that has left its loop emits nothing any more. */
  lemma {:induction false} LeftIsSilent(net: Network, trace: seq<State>, steps: seq<Step>, m: nat, n: nat, p: nat)
    requires IsRun(net, Once, trace, steps) && m <= n < |trace| && Composite(net, p)
    requires Shape(net, trace[m]) && HasLeft(trace[m].nodes[p])
    ensures Shape(net, trace[n]) && HasLeft(trace[n].nodes[p])
    decreases n
  {
    hide HasLeft, Next, Enabled, Shape, WellFormed;
    if m < n {
      LeftIsSilent(net, trace, steps, m, n - 1, p);
      assert Stepped(net, Once, trace[n - 1], steps[n - 1], trace[n]);
      LeftStep(net, trace[n - 1], steps[n - 1], p);
    }
  }

  lemma LeftStep(net: Network, st: State, step: Step, p: nat)
    requires Shape(net, st) && Enabled(net, st, step) && Composite(net, p) && HasLeft(st.nodes[p])
    ensures Shape(net, Next(net, Once, st, step)) && HasLeft(Next(net, Once, st, step).nodes[p])
  {
    hide Received, Emitted, RunDone, ContextDone;
  }

  /** An OR of one leaf: the caller cancels, the OR leaves its loop, and then the leaf fires. */
  lemma CancelledTooEarly(net: Network) returns (trace: seq<State>, steps: seq<Step>)
    requires net == [Leaf("leaf"), Or("root", [0])]
    ensures IsRun(net, Once, trace, steps) && |steps| == 3 && Shape(net, trace[3]) && Shape(net, trace[2])
    ensures HasLeft(trace[2].nodes[1]) && 0 in FiredLeaves(net, trace[3])
  {
    OneEdge(net);
    var a := Initial(net);
    InitialShape(net);
    assert a.nodes[0] == InitialNode(net[0]) && a.nodes[1] == InitialNode(net[1]);
    var b := Next(net, Once, a, CancelAllStep);
    var c := Next(net, Once, b, AbortStep(1));
    var d := Next(net, Once, c, FireStep(0, true));
    hide Next, Enabled;
    assert Stepped(net, Once, a, CancelAllStep, b);
    assert Stepped(net, Once, b, AbortStep(1), c);
    assert Stepped(net, Once, c, FireStep(0, true), d);
    trace, steps := [a, b, c, d], [CancelAllStep, AbortStep(1), FireStep(0, true)];
  }

  /** So a tree that is cancelled can come to rest without answering a formula that is true. */
  lemma CancellationLosesTheVerdict() returns (net: Network, trace: seq<State>, steps: seq<Step>)
    ensures IsRun(net, Once, trace, steps) && Shape(net, trace[|steps|]) && Quiet(net, trace[|steps|])
    ensures Holds(net, Root(net), FiredLeaves(net, trace[|steps|])) && trace[|steps|].nodes[Root(net)].log == []
  {
    hide Next, Enabled, Quiet, Shape;
    net := [Leaf("leaf"), Or("root", [0])];
    OneEdge(net);
    var first, done := CancelledTooEarly(net);
    trace, steps := ComesToRest(net, first, done, [Edge(1, 0)]);
    assert trace[2] == first[2];
    LeftIsSilent(net, trace, steps, 2, |steps|, 1);
    assert IsEdge(net, Edge(1, 0)) && HoldsAt(net, Edge(1, 0), FiredLeaves(net, trace[|steps|]));
  }

  lemma OneEdge(net: Network)
    requires net == [Leaf("leaf"), Or("root", [0])]
    ensures WellFormed(net) && Lists(net, [Edge(1, 0)])
  {
    assert IsEdge(net, Edge(1, 0)) && Child(net, Edge(1, 0)) == 0;
  }
}
