/** The invariant survives the steps of leaves and of composite goroutines. */
module NodePreservation {
  import opened Conditions
  import opened Sequences
  import opened SourceIds
  import opened Nodes
  import opened SharedStreams
  import opened NetworkSteps
  import opened NetworkInvariant

  // Local facts about one node

  lemma ReceiveAnd(c: Condition, mode: Mode, n: Node)
    requires c.And? && NodeOk(c, mode, n, false) && n.phase.Looping? && n.merged != []
    requires !EndsClosed(n.used[n.merged[0].index])
    ensures Tidy(n.used[n.merged[0].index] + [n.merged[0].message])
    ensures var k, m := n.merged[0].index, n.merged[0].message;
            var (work, action) := OnMessage(c, n.work, k, m);
            var used := n.used[k := n.used[k] + [m]];
            && Counted(work, used)
            && (action.Again? ==> AtLoopHead(mode, work, used))
            && (action.Return? && mode == Once ==> CannotFire(c, used))
  {
    var k, m := n.merged[0].index, n.merged[0].message;
    var (work, action) := OnMessage(c, n.work, k, m);
    var used := n.used[k := n.used[k] + [m]];
    OpenCountUpdate(n.used, k, n.used[k] + [m]);
    if m.Closed? && !n.work.matched[k] {
      if mode == Once {
        assert n.used[k] == [];
        assert used[k] == [Closed];
      }
    } else if !AllMatched(work.matched) {
      var j :| 0 <= j < |work.matched| && !work.matched[j];
      assert !EndsClosed(used[j]);
      OpenCountZero(used);
    }
  }

  lemma ReceiveOr(c: Condition, mode: Mode, n: Node)
    requires c.Or? && NodeOk(c, mode, n, false) && n.phase.Looping? && n.merged != []
    requires !EndsClosed(n.used[n.merged[0].index])
    ensures Tidy(n.used[n.merged[0].index] + [n.merged[0].message])
    ensures var k, m := n.merged[0].index, n.merged[0].message;
            var (work, action) := OnMessage(c, n.work, k, m);
            var used := n.used[k := n.used[k] + [m]];
            && Counted(work, used)
            && (action.Again? ==> AtLoopHead(mode, work, used))
            && (action.Return? && mode == Once ==> CannotFire(c, used))
  {
    var k, m := n.merged[0].index, n.merged[0].message;
    var used := n.used[k := n.used[k] + [m]];
    OpenCountUpdate(n.used, k, n.used[k] + [m]);
    OpenCountZero(used);
  }

  lemma AfterEmitAtHead(c: Condition, n: Node)
    requires !c.Leaf? && NodeOk(c, Continuous, n, false) && n.phase.Emitting?
    ensures var (work, stays) := AfterEmit(c, Continuous, n.work);
            stays ==> n.used != [] && Counted(work, n.used) && AtLoopHead(Continuous, work, n.used)
  {
    var (work, stays) := AfterEmit(c, Continuous, n.work);
    if stays && c.And? {
      assert !work.matched[0];
    }
  }

  lemma ReceivedOk(c: Condition, mode: Mode, n: Node, gone: bool)
    requires !c.Leaf? && NodeOk(c, mode, n, gone) && n.phase.Looping? && n.merged != []
    requires !EndsClosed(n.used[n.merged[0].index])
    ensures NodeOk(c, mode, Received(c, n), gone)
  {
    if c.And? {
      ReceiveAnd(c, mode, n);
    } else {
      ReceiveOr(c, mode, n);
    }
  }

  /** Moving a message from `merged` into the history of its child loses nothing. */
  lemma ReceivedEdge(c: Condition, o: Node, e: Edge, slot: Slot, cn: Node, cs: Stream<Edge>, done: bool, all: bool)
    requires !c.Leaf? && Fits(c, o.work) && o.merged != [] && o.merged[0].index < |c.children| == |o.used|
    requires o.phase.Looping? && EdgeOk(e, slot, o, cn, cs, done, all)
    ensures EdgeOk(e, slot, Received(c, o), cn, cs, done, all)
  {
    var n := Received(c, o);
    assert n.used[e.pos] + Of(n.merged, e.pos) == o.used[e.pos] + Of(o.merged, e.pos);
  }

  lemma EmittedOk(c: Condition, mode: Mode, n: Node, gone: bool)
    requires !c.Leaf? && NodeOk(c, mode, n, gone) && n.phase.Emitting? && n.out == []
    ensures NodeOk(c, mode, Emitted(c, mode, n), gone)
  {
    if mode == Continuous {
      AfterEmitAtHead(c, n);
    }
  }

  /** The parent's side of an edge when only its phase, output or context changes. */
  lemma EdgeOtherParent(e: Edge, slot: Slot, pn: Node, to: Node, cn: Node, cs: Stream<Edge>, done: bool, more: bool,
      all: bool)
    requires EdgeOk(e, slot, pn, cn, cs, done, all) && (done ==> more)
    requires to.used == pn.used && to.merged == pn.merged
    requires GivenUp(to, e.pos) ==> GivenUp(pn, e.pos) || e !in cs.subs
    requires to.phase.Finished? ==> pn.phase.Finished? || slot.fwd.Delivered? || slot.fwd.Dropped?
    ensures EdgeOk(e, slot, to, cn, cs, more, all)
  {
  }

  lemma StreamOtherSource(net: Network, c: nat, s: Stream<Edge>, o: Node, n: Node, all: bool)
    requires StreamOk(net, c, s, o, all) && (Drained(o) ==> Drained(n))
    requires n.log == s.taken + n.out
    ensures StreamOk(net, c, s, n, all)
  {
  }

  lemma SourceLog(net: Network, c: nat, s: Stream<Edge>, o: Node, all: bool)
    requires StreamOk(net, c, s, o, all)
    ensures o.log == s.taken + o.out
  {
  }

  // Changing one node of the whole state

  /** `n` replaces node `i`; its output only grows, and its edges to its children are the caller's to prove. */
  lemma NodeChange(net: Network, mode: Mode, st: State, i: nat, n: Node, added: seq<Event>)
    requires Inv(net, mode, st) && i < |net|
    requires NodeOk(net[i], mode, n, Gone(net, st, i)) && (st.nodes[i].cancelled ==> n.cancelled)
    requires n.out == st.nodes[i].out + added && n.log == st.nodes[i].log + added
    requires Drained(st.nodes[i]) ==> Drained(n)
    requires forall e: Edge :: IsEdge(net, e) && e.parent == i ==>
               EdgeOk(e, st.slots[e], n, st.nodes[Child(net, e)], st.streams[Child(net, e)],
                      n.cancelled || ContextDone(net, st, i), st.cancelled)
    ensures Inv(net, mode, st.(nodes := st.nodes[i := n]))
  {
    hide NodeOk, StreamOk, EdgeOk;
    var st' := st.(nodes := st.nodes[i := n]);
    forall j: nat | j < |net|
      ensures NodeAt(net, mode, st', j)
    {
      assert NodeAt(net, mode, st, j);
    }
    forall c: nat | Streamed(net, c)
      ensures StreamAt(net, st', c)
    {
      assert StreamAt(net, st, c);
      if c == i {
        SourceLog(net, c, st.streams[c], st.nodes[c], st.cancelled);
        StreamOtherSource(net, c, st.streams[c], st.nodes[c], n, st.cancelled);
      }
    }
    forall e: Edge | IsEdge(net, e)
      ensures EdgeAt(net, st', e)
    {
      assert EdgeAt(net, st, e);
      var c := Child(net, e);
      if c == i {
        EdgeOtherChild(e, st.slots[e], st.nodes[e.parent], st.nodes[c], n, st.streams[c],
                       RunDone(net, st, e.parent), st.cancelled);
      }
    }
  }

  /** The case where only the phase, the output or the context of the node changes. */
  lemma NodeStep(net: Network, mode: Mode, st: State, i: nat, n: Node, added: seq<Event>)
    requires Inv(net, mode, st) && i < |net|
    requires NodeOk(net[i], mode, n, Gone(net, st, i)) && (st.nodes[i].cancelled ==> n.cancelled)
    requires n.out == st.nodes[i].out + added && n.log == st.nodes[i].log + added
    requires Drained(st.nodes[i]) ==> Drained(n)
    requires n.used == st.nodes[i].used && n.merged == st.nodes[i].merged
    requires forall k: nat :: GivenUp(n, k) && k < |net[i].Children()| ==> GivenUp(st.nodes[i], k)
    requires n.phase.Finished? ==> forall k: nat :: k < |net[i].Children()| ==> ForwarderEnded(st, Edge(i, k))
    ensures Inv(net, mode, st.(nodes := st.nodes[i := n]))
  {
    hide NodeOk, StreamOk, EdgeOk;
    forall e: Edge | IsEdge(net, e) && e.parent == i
      ensures EdgeOk(e, st.slots[e], n, st.nodes[Child(net, e)], st.streams[Child(net, e)],
                     n.cancelled || ContextDone(net, st, i), st.cancelled)
    {
      assert EdgeAt(net, st, e);
      assert e == Edge(i, e.pos);
      assert n.phase.Finished? ==> ForwarderEnded(st, e);
      EdgeOtherParent(e, st.slots[e], st.nodes[i], n, st.nodes[Child(net, e)], st.streams[Child(net, e)],
                      RunDone(net, st, i), n.cancelled || ContextDone(net, st, i), st.cancelled);
    }
    NodeChange(net, mode, st, i, n, added);
  }

  lemma FireKeeps(net: Network, mode: Mode, st: State, i: nat, last: bool)
    requires Inv(net, mode, st) && CanFire(net, st, i)
    ensures Inv(net, mode, Fire(net, mode, st, i, last))
  {
    hide StreamOk, EdgeOk;
    assert NodeAt(net, mode, st, i);
    NodeStep(net, mode, st, i, Fire(net, mode, st, i, last).nodes[i], [Event(net[i].id, [net[i].id])]);
  }

  lemma EndLeafKeeps(net: Network, mode: Mode, st: State, i: nat)
    requires Inv(net, mode, st) && CanEndLeaf(net, st, i)
    ensures Inv(net, mode, EndLeaf(net, st, i))
  {
    hide StreamOk, EdgeOk;
    assert NodeAt(net, mode, st, i);
    NodeStep(net, mode, st, i, EndLeaf(net, st, i).nodes[i], []);
  }

  lemma ReceiveKeeps(net: Network, mode: Mode, st: State, p: nat)
    requires Inv(net, mode, st) && CanReceive(net, st, p)
    ensures Inv(net, mode, Receive(net, st, p))
  {
    hide StreamOk, EdgeOk;
    var o, n := st.nodes[p], Received(net[p], st.nodes[p]);
    assert NodeAt(net, mode, st, p);
    assert NodeOk(net[p], mode, n, Gone(net, st, p)) by {
      var e := Edge(p, o.merged[0].index);
      assert IsEdge(net, e) && EdgeAt(net, st, e);
      HeadIsNext(net[p], mode, e, st.slots[e], o, st.nodes[Child(net, e)], st.streams[Child(net, e)],
                 RunDone(net, st, p), st.cancelled);
      ReceivedOk(net[p], mode, o, Gone(net, st, p));
    }
    hide NodeOk;
    forall e: Edge | IsEdge(net, e) && e.parent == p
      ensures EdgeOk(e, st.slots[e], n, st.nodes[Child(net, e)], st.streams[Child(net, e)],
                     n.cancelled || ContextDone(net, st, p), st.cancelled)
    {
      assert EdgeAt(net, st, e);
      ReceivedEdge(net[p], o, e, st.slots[e], st.nodes[Child(net, e)], st.streams[Child(net, e)],
                   RunDone(net, st, p), st.cancelled);
    }
    NodeChange(net, mode, st, p, n, []);
  }

  /** The message at the head of `merged` is the next one of its child, so that child was not closed. */
  lemma HeadIsNext(c: Condition, mode: Mode, e: Edge, slot: Slot, pn: Node, cn: Node, cs: Stream<Edge>, done: bool,
      all: bool)
    requires EdgeOk(e, slot, pn, cn, cs, done, all) && pn.merged != [] && pn.merged[0].index == e.pos
    ensures !EndsClosed(pn.used[e.pos])
  {
    CloseIsLast(slot, pn, e.pos);
  }

  lemma AbortKeeps(net: Network, mode: Mode, st: State, p: nat)
    requires Inv(net, mode, st) && CanAbort(net, st, p)
    ensures Inv(net, mode, Abort(net, st, p))
  {
    hide EdgeOk;
    assert NodeAt(net, mode, st, p);
    if Streamed(net, p) {
      assert StreamAt(net, st, p);
    }
    hide StreamOk;
    NodeStep(net, mode, st, p, st.nodes[p].(phase := Leaving), []);
  }

  lemma EmitKeeps(net: Network, mode: Mode, st: State, p: nat)
    requires Inv(net, mode, st) && CanEmit(net, st, p)
    ensures Inv(net, mode, EmitOut(net, mode, st, p))
  {
    hide NodeOk, StreamOk, EdgeOk;
    assert NodeAt(net, mode, st, p);
    EmittedOk(net[p], mode, st.nodes[p], Gone(net, st, p));
    NodeStep(net, mode, st, p, Emitted(net[p], mode, st.nodes[p]), [st.nodes[p].phase.event]);
  }

  lemma CancelRunKeeps(net: Network, mode: Mode, st: State, p: nat)
    requires Inv(net, mode, st) && CanCancelRun(net, st, p)
    ensures Inv(net, mode, CancelRun(net, st, p))
  {
    hide StreamOk, EdgeOk;
    assert NodeAt(net, mode, st, p);
    NodeStep(net, mode, st, p, CancelRun(net, st, p).nodes[p], []);
  }

  lemma CloseOutKeeps(net: Network, mode: Mode, st: State, p: nat)
    requires Inv(net, mode, st) && CanCloseOut(net, st, p)
    ensures Inv(net, mode, CloseOut(net, st, p))
  {
    hide StreamOk, EdgeOk;
    assert NodeAt(net, mode, st, p);
    NodeStep(net, mode, st, p, CloseOut(net, st, p).nodes[p], []);
  }

  lemma EdgeAllCancelled(e: Edge, slot: Slot, pn: Node, cn: Node, cs: Stream<Edge>, done: bool, all: bool)
    requires EdgeOk(e, slot, pn, cn, cs, done, all)
    ensures EdgeOk(e, slot, pn, cn, cs, true, true)
  {
  }

  lemma StreamAllCancelled(net: Network, c: nat, s: Stream<Edge>, cn: Node, all: bool)
    requires StreamOk(net, c, s, cn, all)
    ensures StreamOk(net, c, s, cn, true)
  {
  }

  lemma CancelAllKeeps(net: Network, mode: Mode, st: State)
    requires Inv(net, mode, st)
    ensures Inv(net, mode, st.(cancelled := true))
  {
    hide NodeOk, StreamOk, EdgeOk;
    var st' := st.(cancelled := true);
    forall i: nat | i < |net|
      ensures NodeAt(net, mode, st', i)
    {
      assert NodeAt(net, mode, st, i);
      NodeWeaken(net[i], mode, st.nodes[i], Gone(net, st, i), true);
    }
    forall c: nat | Streamed(net, c)
      ensures StreamAt(net, st', c)
    {
      assert StreamAt(net, st, c);
      StreamAllCancelled(net, c, st.streams[c], st.nodes[c], st.cancelled);
    }
    forall e: Edge | IsEdge(net, e)
      ensures EdgeAt(net, st', e)
    {
      assert EdgeAt(net, st, e);
      var c := Child(net, e);
      EdgeAllCancelled(e, st.slots[e], st.nodes[e.parent], st.nodes[c], st.streams[c],
                       RunDone(net, st, e.parent), st.cancelled);
    }
  }

  lemma ConsumedOk(c: Condition, mode: Mode, n: Node, gone: bool)
    requires NodeOk(c, mode, n, gone) && n.out != []
    ensures NodeOk(c, mode, n.(out := n.out[1..]), gone)
  {
  }

  lemma ConsumeKeeps(net: Network, mode: Mode, st: State)
    requires Inv(net, mode, st) && CanConsume(net, st)
    ensures Inv(net, mode, Consume(net, st))
  {
    hide NodeOk, StreamOk, EdgeOk;
    var r, st' := Root(net), Consume(net, st);
    var o, n := st.nodes[r], st'.nodes[r];
    forall i: nat | i < |net|
      ensures NodeAt(net, mode, st', i)
    {
      assert NodeAt(net, mode, st, i);
      if i == r {
        ConsumedOk(net[r], mode, o, Gone(net, st, r));
      }
    }
    forall c: nat | Streamed(net, c)
      ensures StreamAt(net, st', c)
    {
      assert StreamAt(net, st, c);
    }
    forall e: Edge | IsEdge(net, e)
      ensures EdgeAt(net, st', e)
    {
      assert EdgeAt(net, st, e);
      var c := Child(net, e);
      assert c != r;
      if e.parent == r {
        var done := RunDone(net, st, r);
        EdgeOtherParent(e, st.slots[e], o, n, st.nodes[c], st.streams[c], done, done, st.cancelled);
      }
    }
  }
}
