/**
  What holds in every state of every run, in both modes and whatever is cancelled: the invariant, and
  that no condition ever emits an event its formula does not justify.
 */
module NetworkSafety {
  import opened Conditions
  import opened Sequences
  import opened SourceIds
  import opened Nodes
  import opened SharedStreams
  import opened NetworkSteps
  import opened NetworkInvariant
  import opened NodePreservation
  import opened StreamPreservation

  lemma InvStep(net: Network, mode: Mode, st: State, step: Step)
    requires Inv(net, mode, st) && Enabled(net, st, step)
    ensures Inv(net, mode, Next(net, mode, st, step))
  {
    hide Inv;
    match step
    case FireStep(i, last) => FireKeeps(net, mode, st, i, last);
    case EndLeafStep(i) => EndLeafKeeps(net, mode, st, i);
    case ReceiveStep(p) => ReceiveKeeps(net, mode, st, p);
    case AbortStep(p) => AbortKeeps(net, mode, st, p);
    case EmitStep(p) => EmitKeeps(net, mode, st, p);
    case CancelRunStep(p) => CancelRunKeeps(net, mode, st, p);
    case UnsubscribeStep(p) => UnsubscribeKeeps(net, mode, st, p);
    case CloseOutStep(p) => CloseOutKeeps(net, mode, st, p);
    case TakeStep(e) => TakeKeeps(net, mode, st, e);
    case PutStep(e) => PutKeeps(net, mode, st, e);
    case DropStep(e) => DropKeeps(net, mode, st, e);
    case PullStep(c) => PullKeeps(net, mode, st, c);
    case SnapshotStep(c, order) => SnapshotKeeps(net, mode, st, c, order);
    case SendStep(c) => SendKeeps(net, mode, st, c);
    case SkipStep(c) => SkipKeeps(net, mode, st, c);
    case RestStep(c) => RestKeeps(net, mode, st, c);
    case StopStep(c) => StopKeeps(net, mode, st, c);
    case FinishStep(c) => FinishKeeps(net, mode, st, c);
    case CancelStreamStep(c) => CancelStreamKeeps(net, mode, st, c);
    case CancelAllStep => CancelAllKeeps(net, mode, st);
    case ConsumeStep => ConsumeKeeps(net, mode, st);
  }

  // What an event is worth

  ghost predicate NoEmptyAnd(net: Network) {
    forall i: nat :: i < |net| && net[i].And? ==> net[i].children != []
  }

  ghost predicate AllNamed(net: Network) {
    forall i: nat :: i < |net| ==> net[i].id != ""
  }

  predicate EmptyAnd(c: Condition) {
    c.And? && c.children == []
  }

  ghost predicate FromFired(net: Network, fired: set<nat>, id: string) {
    exists i: nat :: i in fired && i < |net| && net[i].Leaf? && net[i].id == id
  }

  /**
    The formula of condition `i` is true of the leaves that have fired, and true by virtue of the leaves
    named by `ids` alone; without empty ANDs every name is that of a leaf that fired.
   */
  ghost predicate Justified(net: Network, i: nat, fired: set<nat>, ids: seq<string>)
    requires ChildrenFirst(net) && i < |net|
  {
    && Holds(net, i, fired)
    && Holds(net, i, Named(net, Elements(ids)))
    && (NoEmptyAnd(net) ==> ids != [] && forall id :: id in ids ==> FromFired(net, fired, id))
  }

  ghost predicate Sound(net: Network, i: nat, fired: set<nat>, event: Event)
    requires ChildrenFirst(net) && i < |net|
  {
    && event.id == net[i].id
    && Distinct(event.sources) && (NoEmptyAnd(net) ==> event.sources != [])
    && (AllNamed(net) && !EmptyAnd(net[i]) ==> event.sources != [])
    && Justified(net, i, fired, EventSources(event))
  }

  ghost predicate NodeSound(net: Network, i: nat, fired: set<nat>, n: Node)
    requires ChildrenFirst(net) && i < |net|
  {
    && (forall a :: 0 <= a < |n.log| ==> Sound(net, i, fired, n.log[a]))
    && (n.phase.Emitting? ==> Sound(net, i, fired, n.phase.event))
    && (n.work.AndWork? ==>
          forall k: nat :: k < |n.work.matched| && n.work.matched[k] ==> ChildSound(net, i, k, fired, n.work))
  }

  ghost predicate ChildSound(net: Network, i: nat, k: nat, fired: set<nat>, w: Work)
    requires ChildrenFirst(net) && i < |net|
  {
    && IsEdge(net, Edge(i, k)) && w.AndWork? && k < |w.sources|
    && Justified(net, Child(net, Edge(i, k)), fired, w.sources[k])
    && Distinct(w.sources[k]) && (AllNamed(net) ==> w.sources[k] != [])
  }

  ghost predicate AllSound(net: Network, st: State)
    requires ChildrenFirst(net) && Shape(net, st)
  {
    forall i: nat :: i < |net| ==> NodeSound(net, i, FiredLeaves(net, st), st.nodes[i])
  }

  // Firing more leaves keeps everything sound

  lemma JustifiedMore(net: Network, i: nat, fired: set<nat>, more: set<nat>, ids: seq<string>)
    requires ChildrenFirst(net) && i < |net| && fired <= more
    ensures Justified(net, i, fired, ids) ==> Justified(net, i, more, ids)
  {
    HoldsMonotone(net, i, fired, more);
    if Justified(net, i, fired, ids) && NoEmptyAnd(net) {
      forall id | id in ids
        ensures FromFired(net, more, id)
      {
        assert FromFired(net, fired, id);
      }
    }
  }

  /** `n` emitted nothing new and matched nothing new. */
  lemma NodeSoundMore(net: Network, i: nat, fired: set<nat>, more: set<nat>, o: Node, n: Node)
    requires ChildrenFirst(net) && i < |net| && fired <= more && NodeSound(net, i, fired, o)
    requires n.log == o.log && n.work == o.work && (n.phase.Emitting? ==> n.phase == o.phase)
    ensures NodeSound(net, i, more, n)
  {
    forall a | 0 <= a < |n.log|
      ensures Sound(net, i, more, n.log[a])
    {
      assert Sound(net, i, fired, o.log[a]);
      JustifiedMore(net, i, fired, more, EventSources(n.log[a]));
    }
    if n.phase.Emitting? {
      JustifiedMore(net, i, fired, more, EventSources(n.phase.event));
    }
    if n.work.AndWork? {
      forall k: nat | k < |n.work.matched| && n.work.matched[k]
        ensures ChildSound(net, i, k, more, n.work)
      {
        assert ChildSound(net, i, k, fired, o.work);
        JustifiedMore(net, Child(net, Edge(i, k)), fired, more, n.work.sources[k]);
      }
    }
  }

  lemma LeafSound(net: Network, i: nat, fired: set<nat>)
    requires ChildrenFirst(net) && i < |net| && net[i].Leaf? && i in fired
    ensures Sound(net, i, fired, Event(net[i].id, [net[i].id]))
  {
    assert net[i].id in [net[i].id];
    assert FromFired(net, fired, net[i].id);
  }

  // The steps that make new claims: a leaf fires, a composite receives, a composite emits

  lemma OrSound(net: Network, p: nat, k: nat, fired: set<nat>, event: Event)
    requires ChildrenFirst(net) && p < |net| && net[p].Or? && IsEdge(net, Edge(p, k))
    requires Sound(net, Child(net, Edge(p, k)), fired, event)
    ensures Sound(net, p, fired, Event(net[p].id, EventSources(event)))
  {
    var ids := EventSources(event);
    assert HoldsAt(net, Edge(p, k), fired);
    assert HoldsAt(net, Edge(p, k), Named(net, Elements(ids)));
    var own := EventSources(Event(net[p].id, ids));
    assert Elements(ids) <= Elements(own);
    HoldsMonotone(net, p, Named(net, Elements(ids)), Named(net, Elements(own)));
  }

  lemma AndSound(net: Network, p: nat, fired: set<nat>, w: Work)
    requires ChildrenFirst(net) && p < |net| && net[p].And? && Fits(net[p], w) && AllMatched(w.matched)
    requires net[p].children != []
    requires forall k: nat :: k < |w.matched| && w.matched[k] ==> ChildSound(net, p, k, fired, w)
    ensures Sound(net, p, fired, Event(net[p].id, Merge(w.sources)))
  {
    var ids := Merge(w.sources);
    MergeIsUnion(w.sources);
    var own := EventSources(Event(net[p].id, ids));
    forall k: nat | k < |net[p].children|
      ensures HoldsAt(net, Edge(p, k), fired) && HoldsAt(net, Edge(p, k), Named(net, Elements(own)))
    {
      assert ChildSound(net, p, k, fired, w);
      assert Elements(w.sources[k]) <= Elements(ids) <= Elements(own);
      HoldsMonotone(net, Child(net, Edge(p, k)), Named(net, Elements(w.sources[k])), Named(net, Elements(own)));
    }
    assert ChildSound(net, p, 0, fired, w);
    if NoEmptyAnd(net) || AllNamed(net) {
      assert w.sources[0][0] in w.sources[0];
      assert w.sources[0][0] in ids;
    }
    if NoEmptyAnd(net) {
      forall id | id in own
        ensures FromFired(net, fired, id)
      {
        var k :| 0 <= k < |w.sources| && id in w.sources[k];
        assert ChildSound(net, p, k, fired, w);
      }
    }
  }

  lemma AndReceives(net: Network, p: nat, k: nat, fired: set<nat>, w: Work, event: Event)
    requires ChildrenFirst(net) && p < |net| && net[p].And? && Fits(net[p], w) && IsEdge(net, Edge(p, k))
    requires !w.matched[k] && Sound(net, Child(net, Edge(p, k)), fired, event)
    requires forall j: nat :: j < |w.matched| && w.matched[j] ==> ChildSound(net, p, j, fired, w)
    ensures var w' := w.(matched := w.matched[k := true], sources := w.sources[k := EventSources(event)]);
            forall j: nat :: j < |w'.matched| && w'.matched[j] ==> ChildSound(net, p, j, fired, w')
  {
    var w' := w.(matched := w.matched[k := true], sources := w.sources[k := EventSources(event)]);
    forall j: nat | j < |w'.matched| && w'.matched[j]
      ensures ChildSound(net, p, j, fired, w')
    {
      if j != k {
        assert ChildSound(net, p, j, fired, w);
      }
    }
  }

  lemma ReceivedSound(net: Network, p: nat, fired: set<nat>, n: Node)
    requires ChildrenFirst(net) && p < |net| && !net[p].Leaf? && NodeSound(net, p, fired, n)
    requires Fits(net[p], n.work) && n.merged != [] && n.merged[0].index < |net[p].children| == |n.used|
    requires n.merged[0].message.Fired? ==>
               Sound(net, Child(net, Edge(p, n.merged[0].index)), fired, n.merged[0].message.event)
    ensures NodeSound(net, p, fired, Received(net[p], n))
  {
    var k, m, w := n.merged[0].index, n.merged[0].message, n.work;
    var r := Received(net[p], n);
    if net[p].Or? {
      if m.Fired? {
        OrSound(net, p, k, fired, m.event);
      }
    } else if m.Fired? && !w.matched[k] {
      AndReceives(net, p, k, fired, w, m.event);
      if AllMatched(r.work.matched) {
        AndSound(net, p, fired, r.work);
      }
    } else {
      forall j: nat | j < |r.work.matched| && r.work.matched[j]
        ensures ChildSound(net, p, j, fired, r.work)
      {
        assert ChildSound(net, p, j, fired, w);
      }
    }
  }

  /** A message waiting in `merged` was emitted by the child it is attributed to. */
  lemma MessageWasEmitted(net: Network, mode: Mode, st: State, p: nat)
    requires Inv(net, mode, st) && CanReceive(net, st, p) && st.nodes[p].merged[0].message.Fired?
    ensures st.nodes[p].merged[0].message.event in st.nodes[Child(net, Edge(p, st.nodes[p].merged[0].index))].log
  {
    hide NodeOk, FlowOk;
    var n := st.nodes[p];
    var e := Edge(p, n.merged[0].index);
    var c := Child(net, e);
    assert EdgeAt(net, st, e) && StreamAt(net, st, c);
    MergedWasSent(st.slots[e], n);
    var j := |n.used[e.pos]|;
    assert st.slots[e].sent[j] == st.streams[c].taken[j] == st.nodes[c].log[j];
  }

  /** The first message in `merged` is the next one of those sent to its subscription. */
  lemma MergedWasSent(slot: Slot, n: Node)
    requires n.merged != [] && n.merged[0].message.Fired?
    requires var k := n.merged[0].index; k < |n.used| && FlowOk(slot, n, k)
    ensures var j := |n.used[n.merged[0].index]|; j < |slot.sent| && slot.sent[j] == n.merged[0].message.event
  {
    var k, m := n.merged[0].index, n.merged[0].message;
    CloseIsLast(slot, n, k);
    var handed := n.used[k] + Of(n.merged, k);
    assert handed[|n.used[k]|] == m;
    assert Sent(slot)[|n.used[k]|] == m;
  }

  lemma SoundStep(net: Network, mode: Mode, st: State, step: Step)
    requires Inv(net, mode, st) && AllSound(net, st) && Enabled(net, st, step)
    ensures AllSound(net, Next(net, mode, st, step))
  {
    hide NodeOk, StreamOk, EdgeOk, NodeSound, Received, Emitted;
    var st' := Next(net, mode, st, step);
    var fired, more := FiredLeaves(net, st), FiredLeaves(net, st');
    LogsGrow(net, mode, st, step);
    forall i: nat | i < |net|
      ensures NodeSound(net, i, more, st'.nodes[i])
    {
      assert NodeSound(net, i, fired, st.nodes[i]);
      var o, n := st.nodes[i], st'.nodes[i];
      if step.FireStep? && step.leaf == i {
        FiredSound(net, i, fired, more, o, n);
      } else if step == ReceiveStep(i) {
        NodeSoundMore(net, i, fired, more, o, o);
        if o.merged[0].message.Fired? {
          var c, event := Child(net, Edge(i, o.merged[0].index)), o.merged[0].message.event;
          MessageWasEmitted(net, mode, st, i);
          assert NodeSound(net, c, fired, st.nodes[c]);
          LoggedSound(net, c, fired, more, st.nodes[c], event);
        }
        ReceivedSound(net, i, more, o);
      } else if step == EmitStep(i) {
        NodeSoundMore(net, i, fired, more, o, o);
        EmittedSound(net, mode, i, more, o);
      } else {
        NodeSoundMore(net, i, fired, more, o, n);
      }
    }
  }

  lemma LogsGrow(net: Network, mode: Mode, st: State, step: Step)
    requires Shape(net, st) && Enabled(net, st, step)
    ensures FiredLeaves(net, st) <= FiredLeaves(net, Next(net, mode, st, step))
  {
    var st' := Next(net, mode, st, step);
    forall i: nat | i < |net| && st.nodes[i].log != []
      ensures st'.nodes[i].log != []
    {
    }
  }

  lemma LoggedSound(net: Network, c: nat, fired: set<nat>, more: set<nat>, n: Node, event: Event)
    requires ChildrenFirst(net) && c < |net| && fired <= more && NodeSound(net, c, fired, n) && event in n.log
    ensures Sound(net, c, more, event)
  {
    var a :| 0 <= a < |n.log| && n.log[a] == event;
    assert Sound(net, c, fired, n.log[a]);
    JustifiedMore(net, c, fired, more, EventSources(event));
  }

  lemma FiredSound(net: Network, i: nat, fired: set<nat>, more: set<nat>, o: Node, n: Node)
    requires ChildrenFirst(net) && i < |net| && net[i].Leaf? && fired <= more && i in more
    requires NodeSound(net, i, fired, o) && !n.phase.Emitting? && n.work == o.work
    requires n.log == o.log + [Event(net[i].id, [net[i].id])]
    ensures NodeSound(net, i, more, n)
  {
    NodeSoundMore(net, i, fired, more, o, o.(phase := n.phase));
    LeafSound(net, i, more);
  }

  lemma EmittedSound(net: Network, mode: Mode, i: nat, fired: set<nat>, o: Node)
    requires ChildrenFirst(net) && i < |net| && !net[i].Leaf? && NodeSound(net, i, fired, o)
    requires Fits(net[i], o.work) && o.phase.Emitting?
    ensures NodeSound(net, i, fired, Emitted(net[i], mode, o))
  {
    var n := Emitted(net[i], mode, o);
    if n.work.AndWork? {
      forall k: nat | k < |n.work.matched| && n.work.matched[k]
        ensures ChildSound(net, i, k, fired, n.work)
      {
        assert ChildSound(net, i, k, fired, o.work);
      }
    }
  }

  lemma SoundInitially(net: Network)
    requires WellFormed(net)
    ensures Shape(net, Initial(net)) && AllSound(net, Initial(net))
  {
    InitialShape(net);
    var st := Initial(net);
    forall i: nat | i < |net|
      ensures NodeSound(net, i, FiredLeaves(net, st), st.nodes[i])
    {
      assert NodeSound(net, i, FiredLeaves(net, st), InitialNode(net[i]));
    }
  }

  // Every run

  /** Every state of every run keeps the invariant, and every event emitted so far is justified. */
  lemma {:induction false} EveryRunIsSound(net: Network, mode: Mode, trace: seq<State>, steps: seq<Step>, n: nat)
    requires IsRun(net, mode, trace, steps) && n < |trace|
    ensures Inv(net, mode, trace[n]) && AllSound(net, trace[n])
  {
    hide Inv, AllSound;
    if n == 0 {
      InvInitially(net, mode);
      SoundInitially(net);
    } else {
      EveryRunIsSound(net, mode, trace, steps, n - 1);
      assert Stepped(net, mode, trace[n - 1], steps[n - 1], trace[n]);
      InvStep(net, mode, trace[n - 1], steps[n - 1]);
      SoundStep(net, mode, trace[n - 1], steps[n - 1]);
    }
  }

  /**
    The root never emits unless the formula is true of the leaves fired so far.  The `SourceIDs` of what it
    emits are duplicate-free and, on their own, make the formula true; without empty ANDs they name only
    leaves that fired.  If all conditions have IDs, only an empty AND emits without sources.
   */
  lemma RootEmitsOnlyWhenTrue(net: Network, mode: Mode, trace: seq<State>, steps: seq<Step>, n: nat, event: Event)
    requires IsRun(net, mode, trace, steps) && n < |trace|
    requires Shape(net, trace[n]) && event in trace[n].nodes[Root(net)].log
    ensures Holds(net, Root(net), FiredLeaves(net, trace[n]))
    ensures event.id == net[Root(net)].id && Distinct(event.sources)
    ensures Holds(net, Root(net), Named(net, Elements(EventSources(event))))
    ensures NoEmptyAnd(net) || (AllNamed(net) && !EmptyAnd(net[Root(net)])) ==> event.sources != []
    ensures NoEmptyAnd(net) ==> forall id :: id in event.sources ==> FromFired(net, FiredLeaves(net, trace[n]), id)
  {
    EveryRunIsSound(net, mode, trace, steps, n);
    var st, r := trace[n], Root(net);
    assert NodeSound(net, r, FiredLeaves(net, st), st.nodes[r]);
    LoggedSound(net, r, FiredLeaves(net, st), FiredLeaves(net, st), st.nodes[r], event);
  }

  /** The premise on empty ANDs is needed: one that is the root emits without any sources. */
  lemma EmptyAndHasNoSources(id: string, mode: Mode) returns (net: Network, trace: seq<State>, steps: seq<Step>)
    ensures net == [And(id, [])] && IsRun(net, mode, trace, steps) && |trace| == 2 && Shape(net, trace[1])
    ensures trace[1].nodes[Root(net)].log == [Event(id, [])] && FiredLeaves(net, trace[1]) == {}
  {
    net := [And(id, [])];
    var start := Initial(net);
    InitialShape(net);
    assert IsRun(net, mode, [start], []);
    assert CanEmit(net, start, 0);
    ExtendRun(net, mode, [start], [], EmitStep(0));
    trace, steps := [start] + [Next(net, mode, start, EmitStep(0))], [] + [EmitStep(0)];
    assert start.nodes[0] == InitialNode(net[0]);
  }
}
