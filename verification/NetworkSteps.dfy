/**
  The running network: one goroutine per composite condition, one forwarder per subscription, one
  dispatcher per shared stream, all interleaved freely.  It starts where `runRoot` has built the tree
  and called `startPending`.

  Every step is one channel operation, one critical section or one cancellation.  The `cancel` call that
  follows an unsubscribe which emptied a stream is a step of its own (`CancelStream`) that may happen at
  any later time; the code makes the caller wait for it, so every run of the code is a run of the model.
 */
module NetworkSteps {
  import opened Conditions
  import opened Sequences
  import opened SourceIds
  import opened Nodes
  import opened SharedStreams

  /** Where the goroutine of a condition stands.  A leaf only uses `Looping`, `Leaving` and `Finished`. */
  datatype Phase =
    | Looping                     // at its select
    | Emitting(event: Event)      // inside `emitEvent`
    | Leaving                     // returned, deferred calls still to run
    | Cleaning(next: nat)         // `cancel` called, subscriptions before `next` given up
    | Finished                    // output channel closed

  datatype Tagged = Tagged(index: nat, message: Message)

  /**
    `cancelled` is the node's own run context, `merged` and `out` are its channels.  `used` and `log` are
    histories: the messages consumed from each child and the events put into `out`.
   */
  datatype Node = Node(
    phase: Phase, work: Work, merged: seq<Tagged>, used: seq<seq<Message>>, cancelled: bool,
    out: seq<Event>, log: seq<Event>)

  datatype Forwarder =
    | Taking
    | Putting(message: Message)
    | Delivered                   // ended after handing over the close
    | Dropped                     // ended because its context was done

  /** A subscription: its channel (one place), its forwarder, and the history of events sent to it. */
  datatype Slot = Slot(buffer: seq<Event>, closed: bool, fwd: Forwarder, sent: seq<Event>)

  datatype State = State(
    nodes: seq<Node>, streams: seq<Stream<Edge>>, slots: map<Edge, Slot>, cancelled: bool, received: seq<Event>)

  ghost predicate Shape(net: Network, st: State) {
    && |st.nodes| == |st.streams| == |net|
    && forall e: Edge {:trigger IsEdge(net, e)} {:trigger e in st.slots} :: IsEdge(net, e) <==> e in st.slots
  }

  ghost function EdgesTo(net: Network, i: nat): set<Edge> {
    set p: nat, k: nat | p < |net| && k < |net[p].Children()| && net[p].Children()[k] == i :: Edge(p, k)
  }

  ghost function AllEdges(net: Network): set<Edge> {
    set p: nat, k: nat | p < |net| && k < |net[p].Children()| :: Edge(p, k)
  }

  function InitialNode(c: Condition): Node {
    var phase :=
      if c.Leaf? || c.children != [] then Looping
      else if c.And? then Emitting(Event(c.id, []))
      else Leaving;
    Node(phase, InitialWork(c), [], seq(|c.Children()|, _ => []), false, [], [])
  }

  ghost function Initial(net: Network): State {
    State(
      seq(|net|, i requires 0 <= i < |net| => InitialNode(net[i])),
      seq(|net|, i requires 0 <= i => NewStream(EdgesTo(net, i))),
      map e | e in AllEdges(net) :: Slot([], false, Taking, []),
      false, [])
  }

  /** The context `run` was called with: that of its stream, or the caller's for the root. */
  predicate ContextDone(net: Network, st: State, i: nat)
    requires Shape(net, st) && i < |net|
  {
    st.cancelled || (i != |net| - 1 && (st.streams[i].cancelled || st.streams[i].disp.Ended?))
  }

  /** The context the node derived from it, which is also that of its subscriptions. */
  predicate RunDone(net: Network, st: State, i: nat)
    requires Shape(net, st) && i < |net|
  {
    st.nodes[i].cancelled || ContextDone(net, st, i)
  }

  predicate Composite(net: Network, i: nat) {
    i < |net| && !net[i].Leaf?
  }

  predicate Streamed(net: Network, i: nat) {
    i < |net| - 1
  }

  // Leaves

  predicate CanFire(net: Network, st: State, i: nat)
    requires Shape(net, st)
  {
    i < |net| && net[i].Leaf? && st.nodes[i].phase.Looping? && st.nodes[i].out == []
  }

  /** A leaf puts an event into its channel; `last` says whether it will stop after it. */
  function Fire(net: Network, mode: Mode, st: State, i: nat, last: bool): State
    requires Shape(net, st) && CanFire(net, st, i)
  {
    var n := st.nodes[i];
    var event := Event(net[i].id, [net[i].id]);
    var phase := if mode == Once || last then Leaving else Looping;
    st.(nodes := st.nodes[i := n.(phase := phase, out := n.out + [event], log := n.log + [event])])
  }

  predicate CanEndLeaf(net: Network, st: State, i: nat)
    requires Shape(net, st)
  {
    i < |net| && net[i].Leaf? && !st.nodes[i].phase.Finished?
  }

  function EndLeaf(net: Network, st: State, i: nat): State
    requires Shape(net, st) && CanEndLeaf(net, st, i)
  {
    st.(nodes := st.nodes[i := st.nodes[i].(phase := Finished)])
  }

  // The goroutine of a composite

  predicate CanReceive(net: Network, st: State, p: nat)
    requires Shape(net, st)
  {
    && Composite(net, p)
    && var n := st.nodes[p];
    && n.phase.Looping? && n.merged != [] && n.merged[0].index < |net[p].children| == |n.used|
    && Fits(net[p], n.work)
  }

  function PhaseAfter(action: Action): Phase {
    match action
    case Again => Looping
    case Return => Leaving
    case Emit(event) => Emitting(event)
  }

  function Received(c: Condition, n: Node): Node
    requires !c.Leaf? && Fits(c, n.work) && n.merged != [] && n.merged[0].index < |c.children| == |n.used|
  {
    var k, m := n.merged[0].index, n.merged[0].message;
    var (work, action) := OnMessage(c, n.work, k, m);
    n.(phase := PhaseAfter(action), work := work, merged := n.merged[1..], used := n.used[k := n.used[k] + [m]])
  }

  function Receive(net: Network, st: State, p: nat): State
    requires Shape(net, st) && CanReceive(net, st, p)
  {
    st.(nodes := st.nodes[p := Received(net[p], st.nodes[p])])
  }

  predicate CanAbort(net: Network, st: State, p: nat)
    requires Shape(net, st)
  {
    Composite(net, p) && (st.nodes[p].phase.Looping? || st.nodes[p].phase.Emitting?) && RunDone(net, st, p)
  }

  function Abort(net: Network, st: State, p: nat): State
    requires Shape(net, st) && CanAbort(net, st, p)
  {
    st.(nodes := st.nodes[p := st.nodes[p].(phase := Leaving)])
  }

  predicate CanEmit(net: Network, st: State, p: nat)
    requires Shape(net, st)
  {
    Composite(net, p) && st.nodes[p].phase.Emitting? && st.nodes[p].out == [] && Fits(net[p], st.nodes[p].work)
  }

  function Emitted(c: Condition, mode: Mode, n: Node): Node
    requires !c.Leaf? && Fits(c, n.work) && n.phase.Emitting?
  {
    var (work, stays) := AfterEmit(c, mode, n.work);
    n.(phase := if stays then Looping else Leaving, work := work,
       out := n.out + [n.phase.event], log := n.log + [n.phase.event])
  }

  function EmitOut(net: Network, mode: Mode, st: State, p: nat): State
    requires Shape(net, st) && CanEmit(net, st, p)
  {
    st.(nodes := st.nodes[p := Emitted(net[p], mode, st.nodes[p])])
  }

  predicate CanCancelRun(net: Network, st: State, p: nat)
    requires Shape(net, st)
  {
    Composite(net, p) && st.nodes[p].phase.Leaving?
  }

  function CancelRun(net: Network, st: State, p: nat): State
    requires Shape(net, st) && CanCancelRun(net, st, p)
  {
    st.(nodes := st.nodes[p := st.nodes[p].(phase := Cleaning(0), cancelled := true)])
  }

  predicate CanUnsubscribe(net: Network, st: State, p: nat)
    requires Shape(net, st)
  {
    && Composite(net, p) && st.nodes[p].phase.Cleaning?
    && st.nodes[p].phase.next < |net[p].children| && net[p].children[st.nodes[p].phase.next] < |net|
  }

  function Unsubscribe(net: Network, st: State, p: nat): State
    requires Shape(net, st) && CanUnsubscribe(net, st, p)
  {
    var k := st.nodes[p].phase.next;
    var c := net[p].children[k];
    st.(nodes := st.nodes[p := st.nodes[p].(phase := Cleaning(k + 1))],
        streams := st.streams[c := st.streams[c].Remove(Edge(p, k))])
  }

  predicate ForwarderEnded(st: State, e: Edge) {
    e in st.slots && (st.slots[e].fwd.Delivered? || st.slots[e].fwd.Dropped?)
  }

  /** All subscriptions given up and one `forwardersDone` token received for each of them. */
  predicate CanCloseOut(net: Network, st: State, p: nat)
    requires Shape(net, st)
  {
    && Composite(net, p) && st.nodes[p].phase == Cleaning(|net[p].children|)
    && forall k: nat :: k < |net[p].children| ==> ForwarderEnded(st, Edge(p, k))
  }

  function CloseOut(net: Network, st: State, p: nat): State
    requires Shape(net, st) && CanCloseOut(net, st, p)
  {
    st.(nodes := st.nodes[p := st.nodes[p].(phase := Finished)])
  }

  // Forwarders

  predicate CanTake(net: Network, st: State, e: Edge)
    requires Shape(net, st)
  {
    IsEdge(net, e) && st.slots[e].fwd.Taking? && (st.slots[e].buffer != [] || st.slots[e].closed)
  }

  function Take(net: Network, st: State, e: Edge): State
    requires Shape(net, st) && CanTake(net, st, e)
  {
    var slot := st.slots[e];
    st.(slots := st.slots[e :=
      if slot.buffer != [] then slot.(fwd := Putting(Fired(slot.buffer[0])), buffer := slot.buffer[1..])
      else slot.(fwd := Putting(Closed))])
  }

  predicate CanPut(net: Network, st: State, e: Edge)
    requires Shape(net, st)
  {
    IsEdge(net, e) && st.slots[e].fwd.Putting? && |st.nodes[e.parent].merged| < |net[e.parent].Children()|
  }

  function Put(net: Network, st: State, e: Edge): State
    requires Shape(net, st) && CanPut(net, st, e)
  {
    var n, slot := st.nodes[e.parent], st.slots[e];
    var m := slot.fwd.message;
    st.(nodes := st.nodes[e.parent := n.(merged := n.merged + [Tagged(e.pos, m)])],
        slots := st.slots[e := slot.(fwd := if m.Closed? then Delivered else Taking)])
  }

  predicate CanDrop(net: Network, st: State, e: Edge)
    requires Shape(net, st)
  {
    IsEdge(net, e) && (st.slots[e].fwd.Taking? || st.slots[e].fwd.Putting?) && RunDone(net, st, e.parent)
  }

  function Drop(net: Network, st: State, e: Edge): State
    requires Shape(net, st) && CanDrop(net, st, e)
  {
    st.(slots := st.slots[e := st.slots[e].(fwd := Dropped)])
  }

  // Dispatchers

  predicate CanPull(net: Network, st: State, c: nat)
    requires Shape(net, st)
  {
    Streamed(net, c) && st.streams[c].disp.Idle? && st.nodes[c].out != []
  }

  function Pull(net: Network, st: State, c: nat): State
    requires Shape(net, st) && CanPull(net, st, c)
  {
    var n := st.nodes[c];
    st.(nodes := st.nodes[c := n.(out := n.out[1..])], streams := st.streams[c := st.streams[c].Pull(n.out[0])])
  }

  /** `order` is the order in which the copied subscribers happen to be listed. */
  ghost predicate CanSnapshot(net: Network, st: State, c: nat, order: seq<Edge>)
    requires Shape(net, st)
  {
    && Streamed(net, c) && st.streams[c].disp.Holding?
    && Distinct(order) && forall e :: e in order <==> e in st.streams[c].subs
  }

  function Snapshot(net: Network, st: State, c: nat, order: seq<Edge>): State
    requires Shape(net, st) && Streamed(net, c) && st.streams[c].disp.Holding?
  {
    st.(streams := st.streams[c := st.streams[c].Snapshot(order)])
  }

  predicate Facing(net: Network, st: State, c: nat)
    requires Shape(net, st)
  {
    Streamed(net, c) && st.streams[c].Todo() != [] && IsEdge(net, st.streams[c].disp.todo[0])
  }

  predicate CanSend(net: Network, st: State, c: nat)
    requires Shape(net, st)
  {
    Facing(net, st, c) && st.slots[st.streams[c].disp.todo[0]].buffer == []
  }

  function Send(net: Network, st: State, c: nat): State
    requires Shape(net, st) && CanSend(net, st, c)
  {
    var s := st.streams[c];
    var e := s.disp.todo[0];
    var slot := st.slots[e];
    st.(streams := st.streams[c := s.Advance()],
        slots := st.slots[e := slot.(buffer := slot.buffer + [s.disp.event], sent := slot.sent + [s.disp.event])])
  }

  predicate CanSkip(net: Network, st: State, c: nat)
    requires Shape(net, st)
  {
    Facing(net, st, c) && RunDone(net, st, st.streams[c].disp.todo[0].parent)
  }

  function Skip(net: Network, st: State, c: nat): State
    requires Shape(net, st) && CanSkip(net, st, c)
  {
    var s := st.streams[c];
    st.(streams := st.streams[c := s.Advance().Remove(s.disp.todo[0])])
  }

  predicate CanRest(net: Network, st: State, c: nat)
    requires Shape(net, st)
  {
    Streamed(net, c) && st.streams[c].disp.Delivering? && st.streams[c].disp.todo == []
  }

  function Rest(net: Network, st: State, c: nat): State
    requires Shape(net, st) && CanRest(net, st, c)
  {
    st.(streams := st.streams[c := st.streams[c].(disp := Idle)])
  }

  /** The dispatcher returns: its context is done, or its source is closed and drained. */
  predicate CanStop(net: Network, st: State, c: nat)
    requires Shape(net, st)
  {
    && Streamed(net, c)
    && (|| (ContextDone(net, st, c) && (st.streams[c].disp.Idle? || st.streams[c].Todo() != []))
        || (st.streams[c].disp.Idle? && st.nodes[c].phase.Finished? && st.nodes[c].out == []))
  }

  function Stop(net: Network, st: State, c: nat): State
    requires Shape(net, st) && CanStop(net, st, c)
  {
    st.(streams := st.streams[c := st.streams[c].(disp := Ending)])
  }

  predicate CanFinish(net: Network, st: State, c: nat)
    requires Shape(net, st)
  {
    Streamed(net, c) && st.streams[c].disp.Ending?
  }

  function Finish(net: Network, st: State, c: nat): State
    requires Shape(net, st) && CanFinish(net, st, c)
  {
    var s := st.streams[c];
    st.(streams := st.streams[c := s.Finish()],
        slots := map e | e in st.slots :: if e in s.subs then st.slots[e].(closed := true) else st.slots[e])
  }

  predicate CanCancelStream(net: Network, st: State, c: nat)
    requires Shape(net, st)
  {
    Streamed(net, c) && st.streams[c].emptied && !st.streams[c].cancelled
  }

  function CancelStream(net: Network, st: State, c: nat): State
    requires Shape(net, st) && CanCancelStream(net, st, c)
  {
    st.(streams := st.streams[c := st.streams[c].(cancelled := true)])
  }

  // The caller of the root

  predicate CanConsume(net: Network, st: State)
    requires Shape(net, st)
  {
    0 < |net| && st.nodes[Root(net)].out != []
  }

  function Consume(net: Network, st: State): State
    requires Shape(net, st) && CanConsume(net, st)
  {
    var r := Root(net);
    var n := st.nodes[r];
    st.(nodes := st.nodes[r := n.(out := n.out[1..])], received := st.received + [n.out[0]])
  }

  datatype Step =
    | FireStep(leaf: nat, last: bool) | EndLeafStep(leaf: nat)
    | ReceiveStep(node: nat) | AbortStep(node: nat) | EmitStep(node: nat) | CancelRunStep(node: nat)
    | UnsubscribeStep(node: nat) | CloseOutStep(node: nat)
    | TakeStep(edge: Edge) | PutStep(edge: Edge) | DropStep(edge: Edge)
    | PullStep(stream: nat) | SnapshotStep(stream: nat, order: seq<Edge>) | SendStep(stream: nat)
    | SkipStep(stream: nat) | RestStep(stream: nat) | StopStep(stream: nat) | FinishStep(stream: nat)
    | CancelStreamStep(stream: nat)
    | CancelAllStep | ConsumeStep

  ghost predicate Enabled(net: Network, st: State, step: Step)
    requires Shape(net, st)
  {
    match step
    case FireStep(i, _) => CanFire(net, st, i)
    case EndLeafStep(i) => CanEndLeaf(net, st, i)
    case ReceiveStep(p) => CanReceive(net, st, p)
    case AbortStep(p) => CanAbort(net, st, p)
    case EmitStep(p) => CanEmit(net, st, p)
    case CancelRunStep(p) => CanCancelRun(net, st, p)
    case UnsubscribeStep(p) => CanUnsubscribe(net, st, p)
    case CloseOutStep(p) => CanCloseOut(net, st, p)
    case TakeStep(e) => CanTake(net, st, e)
    case PutStep(e) => CanPut(net, st, e)
    case DropStep(e) => CanDrop(net, st, e)
    case PullStep(c) => CanPull(net, st, c)
    case SnapshotStep(c, order) => CanSnapshot(net, st, c, order)
    case SendStep(c) => CanSend(net, st, c)
    case SkipStep(c) => CanSkip(net, st, c)
    case RestStep(c) => CanRest(net, st, c)
    case StopStep(c) => CanStop(net, st, c)
    case FinishStep(c) => CanFinish(net, st, c)
    case CancelStreamStep(c) => CanCancelStream(net, st, c)
    case CancelAllStep => !st.cancelled
    case ConsumeStep => CanConsume(net, st)
  }

  ghost function Next(net: Network, mode: Mode, st: State, step: Step): (r: State)
    requires Shape(net, st) && Enabled(net, st, step)
    ensures Shape(net, r)
  {
    match step
    case FireStep(i, last) => Fire(net, mode, st, i, last)
    case EndLeafStep(i) => EndLeaf(net, st, i)
    case ReceiveStep(p) => Receive(net, st, p)
    case AbortStep(p) => Abort(net, st, p)
    case EmitStep(p) => EmitOut(net, mode, st, p)
    case CancelRunStep(p) => CancelRun(net, st, p)
    case UnsubscribeStep(p) => Unsubscribe(net, st, p)
    case CloseOutStep(p) => CloseOut(net, st, p)
    case TakeStep(e) => Take(net, st, e)
    case PutStep(e) => Put(net, st, e)
    case DropStep(e) => Drop(net, st, e)
    case PullStep(c) => Pull(net, st, c)
    case SnapshotStep(c, order) => Snapshot(net, st, c, order)
    case SendStep(c) => Send(net, st, c)
    case SkipStep(c) => Skip(net, st, c)
    case RestStep(c) => Rest(net, st, c)
    case StopStep(c) => Stop(net, st, c)
    case FinishStep(c) => Finish(net, st, c)
    case CancelStreamStep(c) => CancelStream(net, st, c)
    case CancelAllStep => st.(cancelled := true)
    case ConsumeStep => Consume(net, st)
  }

  /** `trace` lists the states of a run made of `steps`, one more than there are steps. */
  ghost predicate IsRun(net: Network, mode: Mode, trace: seq<State>, steps: seq<Step>) {
    && WellFormed(net)
    && |trace| == |steps| + 1
    && trace[0] == Initial(net)
    && forall n: nat :: n < |steps| ==> Stepped(net, mode, trace[n], steps[n], trace[n + 1])
  }

  ghost predicate Stepped(net: Network, mode: Mode, before: State, step: Step, after: State) {
    Shape(net, before) && Enabled(net, before, step) && after == Next(net, mode, before, step)
  }

  lemma ExtendRun(net: Network, mode: Mode, trace: seq<State>, steps: seq<Step>, step: Step)
    requires IsRun(net, mode, trace, steps)
    requires Shape(net, trace[|steps|]) && Enabled(net, trace[|steps|], step)
    ensures IsRun(net, mode, trace + [Next(net, mode, trace[|steps|], step)], steps + [step])
  {
    hide Shape, Enabled, Next, WellFormed;
    var more, done := trace + [Next(net, mode, trace[|steps|], step)], steps + [step];
    forall n: nat | n < |done|
      ensures Stepped(net, mode, more[n], done[n], more[n + 1])
    {
      if n < |steps| {
        assert Stepped(net, mode, trace[n], steps[n], trace[n + 1]);
      }
    }
  }

  function FiredLeaves(net: Network, st: State): set<nat>
    requires Shape(net, st)
  {
    set i: nat | i < |net| && net[i].Leaf? && st.nodes[i].log != []
  }
}
