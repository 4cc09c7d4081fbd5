/** The invariant survives the steps of dispatchers, forwarders and unsubscribes. */
module StreamPreservation {
  import opened Conditions
  import opened Sequences
  import opened SourceIds
  import opened Nodes
  import opened SharedStreams
  import opened NetworkSteps
  import opened NetworkInvariant
  import opened NodePreservation

  // Local facts about one stream and one subscription

  /** A change of the stream that an edge cannot see. */
  lemma EdgeOtherStream(e: Edge, slot: Slot, pn: Node, cn: Node, cs: Stream<Edge>, to: Stream<Edge>, done: bool,
      all: bool)
    requires EdgeOk(e, slot, pn, cn, cs, done, all)
    requires to.subs == cs.subs && to.taken == cs.taken && to.emptied == cs.emptied
    requires to.disp.Ended? == cs.disp.Ended? && (cs.disp.Ending? ==> to.disp.Ending?)
    requires e in to.subs || e in to.Todo() ==> e in cs.subs || e in cs.Todo()
    requires e in to.subs || e in to.Todo() ==> to.Due(e) == cs.Due(e)
    ensures EdgeOk(e, slot, pn, cn, to, done, all)
  {
  }

  lemma RemovedEdge(e: Edge, f: Edge, slot: Slot, pn: Node, cn: Node, cs: Stream<Edge>, done: bool, all: bool)
    requires EdgeOk(f, slot, pn, cn, cs, done, all)
    requires cs.disp.Ended? ==> cs.subs == {}
    requires f == e ==> done
    ensures EdgeOk(f, slot, pn, cn, cs.Remove(e), done, all)
  {
  }

  lemma RemovedOk(net: Network, c: nat, s: Stream<Edge>, cn: Node, all: bool, e: Edge)
    requires StreamOk(net, c, s, cn, all)
    ensures StreamOk(net, c, s.Remove(e), cn, all)
  {
  }

  lemma AdvancedOk(net: Network, c: nat, s: Stream<Edge>, cn: Node, all: bool)
    requires StreamOk(net, c, s, cn, all) && s.Todo() != []
    ensures StreamOk(net, c, s.Advance(), cn, all)
  {
    TailDistinct(s.Todo());
  }

  lemma SkippedEdge(e: Edge, slot: Slot, pn: Node, cn: Node, cs: Stream<Edge>, done: bool, all: bool)
    requires EdgeOk(e, slot, pn, cn, cs, done, all)
    requires cs.Todo() != [] && Distinct(cs.Todo()) && (e == cs.Todo()[0] ==> done)
    ensures EdgeOk(e, slot, pn, cn, cs.Advance().Remove(cs.Todo()[0]), done, all)
  {
    TailDistinct(cs.Todo());
  }

  lemma TakenEvent(e: Edge, o: Slot, pn: Node, cn: Node, cs: Stream<Edge>, done: bool, all: bool)
    requires EdgeOk(e, o, pn, cn, cs, done, all) && o.fwd.Taking? && o.buffer != []
    ensures EdgeOk(e, o.(fwd := Putting(Fired(o.buffer[0])), buffer := o.buffer[1..]), pn, cn, cs, done, all)
  {
    var n := o.(fwd := Putting(Fired(o.buffer[0])), buffer := o.buffer[1..]);
    var handed := pn.used[e.pos] + Of(pn.merged, e.pos);
    assert Held(n) + Unseen(n) == Unseen(o);
    assert handed + Held(n) + Unseen(n) == handed + Held(o) + Unseen(o);
  }

  lemma TakenClose(e: Edge, o: Slot, pn: Node, cn: Node, cs: Stream<Edge>, done: bool, all: bool)
    requires EdgeOk(e, o, pn, cn, cs, done, all) && o.fwd.Taking? && o.buffer == [] && o.closed
    ensures EdgeOk(e, o.(fwd := Putting(Closed)), pn, cn, cs, done, all)
  {
    var n := o.(fwd := Putting(Closed));
    var handed := pn.used[e.pos] + Of(pn.merged, e.pos);
    assert Held(n) + Unseen(n) == Unseen(o);
    assert handed + Held(n) + Unseen(n) == handed + Held(o) + Unseen(o);
  }

  lemma DroppedEdge(e: Edge, o: Slot, pn: Node, cn: Node, cs: Stream<Edge>, all: bool)
    requires EdgeOk(e, o, pn, cn, cs, true, all)
    ensures EdgeOk(e, o.(fwd := Dropped), pn, cn, cs, true, all)
  {
    CloseIsLast(o, pn, e.pos);
  }

  lemma PutOwn(e: Edge, o: Slot, pn: Node, cn: Node, cs: Stream<Edge>, done: bool, all: bool, m: Message)
    requires EdgeOk(e, o, pn, cn, cs, done, all) && o.fwd == Putting(m)
    ensures EdgeOk(e, o.(fwd := if m.Closed? then Delivered else Taking),
                   pn.(merged := pn.merged + [Tagged(e.pos, m)]), cn, cs, done, all)
  {
    OfAppend(pn.merged, Tagged(e.pos, m), e.pos);
    var n := o.(fwd := if m.Closed? then Delivered else Taking);
    var k := e.pos;
    assert pn.used[k] + (Of(pn.merged, k) + [m]) == (pn.used[k] + Of(pn.merged, k)) + [m];
    assert Unseen(n) == Unseen(o) && Held(n) == [];
    assert Sent(n) == Sent(o) == (pn.used[k] + Of(pn.merged, k)) + [m] + Unseen(o);
  }

  lemma PutOther(e: Edge, f: Edge, o: Slot, pn: Node, cn: Node, cs: Stream<Edge>, done: bool, all: bool, m: Message)
    requires e.parent == f.parent && f != e && EdgeOk(f, o, pn, cn, cs, done, all)
    ensures EdgeOk(f, o, pn.(merged := pn.merged + [Tagged(e.pos, m)]), cn, cs, done, all)
  {
    OfAppend(pn.merged, Tagged(e.pos, m), f.pos);
  }

  lemma SentEdge(e: Edge, o: Slot, pn: Node, cn: Node, cs: Stream<Edge>, done: bool, all: bool)
    requires EdgeOk(e, o, pn, cn, cs, done, all) && cs.Todo() != [] && cs.Todo()[0] == e && Distinct(cs.Todo())
    requires cs.taken != [] && cs.taken[|cs.taken| - 1] == cs.disp.event && o.buffer == []
    ensures EdgeOk(e, o.(buffer := [cs.disp.event], sent := o.sent + [cs.disp.event]), pn, cn, cs.Advance(), done, all)
  {
    hide FlowOk;
    var event := cs.disp.event;
    TailDistinct(cs.Todo());
    assert cs.taken == o.sent + [event];
    SentFlow(o, pn, e.pos, event);
  }

  lemma SentFlow(o: Slot, pn: Node, k: nat, event: Event)
    requires k < |pn.used| && FlowOk(o, pn, k) && o.buffer == [] && !o.closed
    ensures FlowOk(o.(buffer := [event], sent := o.sent + [event]), pn, k)
  {
    var n := o.(buffer := [event], sent := o.sent + [event]);
    assert Sent(n) == Sent(o) + [Fired(event)];
    assert Unseen(o) == [] && Unseen(n) == [Fired(event)];
    var handed := pn.used[k] + Of(pn.merged, k);
    assert (handed + Held(n) + Unseen(o)) + [Fired(event)] == handed + Held(n) + Unseen(n);
  }

  lemma PassedEdge(e: Edge, o: Slot, pn: Node, cn: Node, cs: Stream<Edge>, done: bool, all: bool)
    requires EdgeOk(e, o, pn, cn, cs, done, all) && cs.Todo() != [] && cs.Todo()[0] != e && Distinct(cs.Todo())
    ensures EdgeOk(e, o, pn, cn, cs.Advance(), done, all)
  {
    TailDistinct(cs.Todo());
  }

  lemma PulledEdge(e: Edge, o: Slot, pn: Node, cn: Node, cs: Stream<Edge>, done: bool, all: bool)
    requires EdgeOk(e, o, pn, cn, cs, done, all) && cs.disp.Idle? && cn.out != []
    ensures EdgeOk(e, o, pn, cn.(out := cn.out[1..]), cs.Pull(cn.out[0]), done, all)
  {
  }

  lemma PulledOk(net: Network, c: nat, s: Stream<Edge>, cn: Node, all: bool)
    requires StreamOk(net, c, s, cn, all) && s.disp.Idle? && cn.out != []
    ensures StreamOk(net, c, s.Pull(cn.out[0]), cn.(out := cn.out[1..]), all)
  {
    assert s.taken + cn.out == (s.taken + [cn.out[0]]) + cn.out[1..];
  }

  lemma FinishedEdge(e: Edge, o: Slot, pn: Node, cn: Node, cs: Stream<Edge>, done: bool, all: bool)
    requires EdgeOk(e, o, pn, cn, cs, done, all) && cs.disp.Ending?
    requires cs.emptied ==> cs.subs == {}
    requires e in cs.subs && !all ==> Drained(cn)
    ensures EdgeOk(e, if e in cs.subs then o.(closed := true) else o, pn, cn, cs.Finish(), done, all)
  {
    if e in cs.subs {
      var n := o.(closed := true);
      assert Sent(n) == Sent(o) + [Closed];
      assert Unseen(n) == Unseen(o) + [Closed];
      var handed := pn.used[e.pos] + Of(pn.merged, e.pos);
      assert (handed + Held(n) + Unseen(o)) + [Closed] == handed + Held(n) + Unseen(n);
    }
  }

  lemma EndingIsDrained(net: Network, c: nat, s: Stream<Edge>, cn: Node, all: bool)
    requires StreamOk(net, c, s, cn, all) && s.disp.Ending?
    ensures StreamOk(net, c, s.Finish(), cn, all)
    ensures s.emptied ==> s.subs == {}
    ensures s.subs != {} && !all ==> Drained(cn)
  {
  }

  // Changing one stream of the whole state

  lemma StreamChange(net: Network, mode: Mode, st: State, c: nat, s: Stream<Edge>)
    requires Inv(net, mode, st) && Streamed(net, c)
    requires StreamOk(net, c, s, st.nodes[c], st.cancelled)
    requires st.streams[c].cancelled ==> s.cancelled
    requires st.streams[c].disp.Ended? == s.disp.Ended?
    requires forall e: Edge :: IsEdge(net, e) && Child(net, e) == c ==>
               EdgeOk(e, st.slots[e], st.nodes[e.parent], st.nodes[c], s, RunDone(net, st, e.parent), st.cancelled)
    ensures Inv(net, mode, st.(streams := st.streams[c := s]))
  {
    hide NodeOk, StreamOk, EdgeOk;
    var st' := st.(streams := st.streams[c := s]);
    forall i: nat | i < |net|
      ensures NodeAt(net, mode, st', i)
    {
      assert NodeAt(net, mode, st, i);
      NodeWeaken(net[i], mode, st.nodes[i], Gone(net, st, i), Gone(net, st', i));
    }
    forall d: nat | Streamed(net, d)
      ensures StreamAt(net, st', d)
    {
      assert StreamAt(net, st, d);
    }
    forall e: Edge | IsEdge(net, e)
      ensures EdgeAt(net, st', e)
    {
      assert EdgeAt(net, st, e);
      var d := Child(net, e);
      EdgeWeaken(e, st.slots[e], st.nodes[e.parent], st.nodes[d], st'.streams[d],
                 RunDone(net, st, e.parent), RunDone(net, st', e.parent), st.cancelled);
    }
  }

  /** The case where the edges cannot see the change. */
  lemma StreamStep(net: Network, mode: Mode, st: State, c: nat, s: Stream<Edge>)
    requires Inv(net, mode, st) && Streamed(net, c)
    requires StreamOk(net, c, s, st.nodes[c], st.cancelled)
    requires st.streams[c].cancelled ==> s.cancelled
    requires s.subs == st.streams[c].subs && s.taken == st.streams[c].taken && s.emptied == st.streams[c].emptied
    requires st.streams[c].disp.Ended? == s.disp.Ended? && (st.streams[c].disp.Ending? ==> s.disp.Ending?)
    requires forall e :: e in s.subs || e in s.Todo() ==> e in st.streams[c].subs || e in st.streams[c].Todo()
    requires forall e :: e in s.subs || e in s.Todo() ==> s.Due(e) == st.streams[c].Due(e)
    ensures Inv(net, mode, st.(streams := st.streams[c := s]))
  {
    hide NodeOk, StreamOk, EdgeOk;
    forall e: Edge | IsEdge(net, e) && Child(net, e) == c
      ensures EdgeOk(e, st.slots[e], st.nodes[e.parent], st.nodes[c], s, RunDone(net, st, e.parent), st.cancelled)
    {
      assert EdgeAt(net, st, e);
      EdgeOtherStream(e, st.slots[e], st.nodes[e.parent], st.nodes[c], st.streams[c], s,
                      RunDone(net, st, e.parent), st.cancelled);
    }
    StreamChange(net, mode, st, c, s);
  }

  lemma SnapshotKeeps(net: Network, mode: Mode, st: State, c: nat, order: seq<Edge>)
    requires Inv(net, mode, st) && CanSnapshot(net, st, c, order)
    ensures Inv(net, mode, Snapshot(net, st, c, order))
  {
    hide NodeOk, EdgeOk;
    assert StreamAt(net, st, c);
    StreamStep(net, mode, st, c, st.streams[c].Snapshot(order));
  }

  lemma RestKeeps(net: Network, mode: Mode, st: State, c: nat)
    requires Inv(net, mode, st) && CanRest(net, st, c)
    ensures Inv(net, mode, Rest(net, st, c))
  {
    hide NodeOk, EdgeOk;
    assert StreamAt(net, st, c);
    StreamStep(net, mode, st, c, st.streams[c].(disp := Idle));
  }

  lemma StopKeeps(net: Network, mode: Mode, st: State, c: nat)
    requires Inv(net, mode, st) && CanStop(net, st, c)
    ensures Inv(net, mode, Stop(net, st, c))
  {
    hide NodeOk, EdgeOk;
    var s := st.streams[c].(disp := Ending);
    assert StreamAt(net, st, c);
    hide StreamOk;
    forall e: Edge | IsEdge(net, e) && Child(net, e) == c
      ensures EdgeOk(e, st.slots[e], st.nodes[e.parent], st.nodes[c], s, RunDone(net, st, e.parent), st.cancelled)
    {
      assert EdgeAt(net, st, e);
      StoppedEdge(e, st.slots[e], st.nodes[e.parent], st.nodes[c], st.streams[c], RunDone(net, st, e.parent),
          st.cancelled);
    }
    StoppedOk(net, c, st.streams[c], st.nodes[c], st.cancelled);
    StreamChange(net, mode, st, c, s);
  }

  lemma StoppedEdge(e: Edge, slot: Slot, pn: Node, cn: Node, cs: Stream<Edge>, done: bool, all: bool)
    requires EdgeOk(e, slot, pn, cn, cs, done, all)
    requires cs.disp.Idle? || (cs.Todo() != [] && (all || cs.subs == {}))
    ensures EdgeOk(e, slot, pn, cn, cs.(disp := Ending), done, all)
  {
  }

  lemma StoppedOk(net: Network, c: nat, s: Stream<Edge>, cn: Node, all: bool)
    requires StreamOk(net, c, s, cn, all) && !s.disp.Ended? && (Drained(cn) || all || s.cancelled)
    ensures StreamOk(net, c, s.(disp := Ending), cn, all)
  {
  }

  lemma CancelStreamKeeps(net: Network, mode: Mode, st: State, c: nat)
    requires Inv(net, mode, st) && CanCancelStream(net, st, c)
    ensures Inv(net, mode, CancelStream(net, st, c))
  {
    hide NodeOk, EdgeOk;
    assert StreamAt(net, st, c);
    StreamStep(net, mode, st, c, st.streams[c].(cancelled := true));
  }

  lemma SkipKeeps(net: Network, mode: Mode, st: State, c: nat)
    requires Inv(net, mode, st) && CanSkip(net, st, c)
    ensures Inv(net, mode, Skip(net, st, c))
  {
    hide NodeOk, EdgeOk;
    var o := st.streams[c];
    var s := o.Advance().Remove(o.disp.todo[0]);
    assert StreamAt(net, st, c);
    assert Distinct(o.Todo());
    hide StreamOk;
    AdvancedOk(net, c, o, st.nodes[c], st.cancelled);
    RemovedOk(net, c, o.Advance(), st.nodes[c], st.cancelled, o.disp.todo[0]);
    forall e: Edge | IsEdge(net, e) && Child(net, e) == c
      ensures EdgeOk(e, st.slots[e], st.nodes[e.parent], st.nodes[c], s, RunDone(net, st, e.parent), st.cancelled)
    {
      assert EdgeAt(net, st, e);
      SkippedEdge(e, st.slots[e], st.nodes[e.parent], st.nodes[c], o, RunDone(net, st, e.parent), st.cancelled);
    }
    StreamChange(net, mode, st, c, s);
  }

  lemma RemoveKeeps(net: Network, mode: Mode, st: State, e: Edge)
    requires Inv(net, mode, st) && IsEdge(net, e) && RunDone(net, st, e.parent)
    ensures var c := Child(net, e);
            Inv(net, mode, st.(streams := st.streams[c := st.streams[c].Remove(e)]))
  {
    hide NodeOk, EdgeOk;
    var c := Child(net, e);
    var s := st.streams[c].Remove(e);
    assert StreamAt(net, st, c);
    assert st.streams[c].disp.Ended? ==> st.streams[c].subs == {};
    hide StreamOk;
    RemovedOk(net, c, st.streams[c], st.nodes[c], st.cancelled, e);
    forall f: Edge | IsEdge(net, f) && Child(net, f) == c
      ensures EdgeOk(f, st.slots[f], st.nodes[f.parent], st.nodes[c], s, RunDone(net, st, f.parent), st.cancelled)
    {
      assert EdgeAt(net, st, f);
      RemovedEdge(e, f, st.slots[f], st.nodes[f.parent], st.nodes[c], st.streams[c],
                  RunDone(net, st, f.parent), st.cancelled);
    }
    StreamChange(net, mode, st, c, s);
  }

  /** The two halves of an unsubscribe: the stream forgets the subscription, the node moves on. */
  /** The subscription is gone already; now the node counts it as given up. */
  lemma CleanedOne(net: Network, mode: Mode, st: State, p: nat)
    requires Inv(net, mode, st) && CanUnsubscribe(net, st, p)
    requires var e := Edge(p, st.nodes[p].phase.next); IsEdge(net, e) && e !in st.streams[Child(net, e)].subs
    ensures Inv(net, mode, st.(nodes := st.nodes[p := st.nodes[p].(phase := Cleaning(st.nodes[p].phase.next + 1))]))
  {
    hide StreamOk, EdgeOk;
    var n := st.nodes[p].(phase := Cleaning(st.nodes[p].phase.next + 1));
    assert NodeAt(net, mode, st, p);
    assert NodeOk(net[p], mode, n, Gone(net, st, p)) && st.nodes[p].cancelled;
    hide NodeOk;
    forall f: Edge | IsEdge(net, f) && f.parent == p
      ensures EdgeOk(f, st.slots[f], n, st.nodes[Child(net, f)], st.streams[Child(net, f)], true, st.cancelled)
    {
      assert EdgeAt(net, st, f);
      EdgeOtherParent(f, st.slots[f], st.nodes[p], n, st.nodes[Child(net, f)], st.streams[Child(net, f)],
                      true, true, st.cancelled);
    }
    NodeChange(net, mode, st, p, n, []);
  }

  lemma UnsubscribeKeeps(net: Network, mode: Mode, st: State, p: nat)
    requires Inv(net, mode, st) && CanUnsubscribe(net, st, p)
    ensures Inv(net, mode, Unsubscribe(net, st, p))
  {
    hide StreamOk, EdgeOk;
    var e := Edge(p, st.nodes[p].phase.next);
    assert IsEdge(net, e);
    var c := Child(net, e);
    assert NodeAt(net, mode, st, p);
    hide NodeOk;
    RemoveKeeps(net, mode, st, e);
    hide Inv;
    var mid := st.(streams := st.streams[c := st.streams[c].Remove(e)]);
    CleanedOne(net, mode, mid, p);
  }

  // Changing one slot

  lemma SlotChange(net: Network, mode: Mode, st: State, e: Edge, slot: Slot)
    requires Inv(net, mode, st) && IsEdge(net, e)
    requires var c := Child(net, e);
             EdgeOk(e, slot, st.nodes[e.parent], st.nodes[c], st.streams[c], RunDone(net, st, e.parent), st.cancelled)
    ensures Inv(net, mode, st.(slots := st.slots[e := slot]))
  {
    hide NodeOk, StreamOk, EdgeOk;
    var st' := st.(slots := st.slots[e := slot]);
    forall i: nat | i < |net|
      ensures NodeAt(net, mode, st', i)
    {
      assert NodeAt(net, mode, st, i);
    }
    forall d: nat | Streamed(net, d)
      ensures StreamAt(net, st', d)
    {
      assert StreamAt(net, st, d);
    }
    forall f: Edge | IsEdge(net, f)
      ensures EdgeAt(net, st', f)
    {
      assert EdgeAt(net, st, f);
    }
  }

  lemma TakeKeeps(net: Network, mode: Mode, st: State, e: Edge)
    requires Inv(net, mode, st) && CanTake(net, st, e)
    ensures Inv(net, mode, Take(net, st, e))
  {
    hide NodeOk, StreamOk, EdgeOk;
    var slot, c := Take(net, st, e).slots[e], Child(net, e);
    assert EdgeAt(net, st, e);
    var done := RunDone(net, st, e.parent);
    if st.slots[e].buffer != [] {
      TakenEvent(e, st.slots[e], st.nodes[e.parent], st.nodes[c], st.streams[c], done, st.cancelled);
    } else {
      TakenClose(e, st.slots[e], st.nodes[e.parent], st.nodes[c], st.streams[c], done, st.cancelled);
    }
    SlotChange(net, mode, st, e, slot);
  }

  lemma DropKeeps(net: Network, mode: Mode, st: State, e: Edge)
    requires Inv(net, mode, st) && CanDrop(net, st, e)
    ensures Inv(net, mode, Drop(net, st, e))
  {
    hide NodeOk, StreamOk, EdgeOk;
    var slot, c := st.slots[e].(fwd := Dropped), Child(net, e);
    assert EdgeAt(net, st, e);
    DroppedEdge(e, st.slots[e], st.nodes[e.parent], st.nodes[c], st.streams[c], st.cancelled);
    SlotChange(net, mode, st, e, slot);
  }

  // Steps that touch two objects at once

  lemma MergedOk(c: Condition, mode: Mode, n: Node, gone: bool, t: Tagged)
    requires NodeOk(c, mode, n, gone) && |n.merged| < |c.Children()| && t.index < |c.Children()|
    ensures NodeOk(c, mode, n.(merged := n.merged + [t]), gone)
  {
  }

  lemma PutKeeps(net: Network, mode: Mode, st: State, e: Edge)
    requires Inv(net, mode, st) && CanPut(net, st, e)
    ensures Inv(net, mode, Put(net, st, e))
  {
    hide NodeOk, StreamOk, EdgeOk;
    var st', m := Put(net, st, e), st.slots[e].fwd.message;
    forall i: nat | i < |net|
      ensures NodeAt(net, mode, st', i)
    {
      assert NodeAt(net, mode, st, i);
      if i == e.parent {
        MergedOk(net[i], mode, st.nodes[i], Gone(net, st, i), Tagged(e.pos, m));
      }
    }
    forall d: nat | Streamed(net, d)
      ensures StreamAt(net, st', d)
    {
      assert StreamAt(net, st, d);
      if d == e.parent {
        SourceLog(net, d, st.streams[d], st.nodes[d], st.cancelled);
        StreamOtherSource(net, d, st.streams[d], st.nodes[d], st'.nodes[d], st.cancelled);
      }
    }
    forall f: Edge | IsEdge(net, f)
      ensures EdgeAt(net, st', f)
    {
      assert EdgeAt(net, st, f);
      var c := Child(net, f);
      var pn, cn, cs, done := st.nodes[f.parent], st.nodes[c], st.streams[c], RunDone(net, st, f.parent);
      if f == e {
        PutOwn(f, st.slots[f], pn, cn, cs, done, st.cancelled, m);
      } else if f.parent == e.parent {
        PutOther(e, f, st.slots[f], pn, cn, cs, done, st.cancelled, m);
      } else if c == e.parent {
        EdgeOtherChild(f, st.slots[f], pn, cn, st'.nodes[c], cs, done, st.cancelled);
      }
    }
  }

  lemma PullKeeps(net: Network, mode: Mode, st: State, c: nat)
    requires Inv(net, mode, st) && CanPull(net, st, c)
    ensures Inv(net, mode, Pull(net, st, c))
  {
    hide NodeOk, StreamOk, EdgeOk;
    var st' := Pull(net, st, c);
    forall i: nat | i < |net|
      ensures NodeAt(net, mode, st', i)
    {
      assert NodeAt(net, mode, st, i);
      if i == c {
        ConsumedOk(net[c], mode, st.nodes[c], Gone(net, st, c));
      }
    }
    forall d: nat | Streamed(net, d)
      ensures StreamAt(net, st', d)
    {
      assert StreamAt(net, st, d);
      if d == c {
        PulledOk(net, c, st.streams[c], st.nodes[c], st.cancelled);
      }
    }
    forall e: Edge | IsEdge(net, e)
      ensures EdgeAt(net, st', e)
    {
      assert EdgeAt(net, st, e);
      var d, done := Child(net, e), RunDone(net, st, e.parent);
      if d == c {
        PulledEdge(e, st.slots[e], st.nodes[e.parent], st.nodes[c], st.streams[c], done, st.cancelled);
      } else if e.parent == c {
        EdgeOtherParent(e, st.slots[e], st.nodes[c], st'.nodes[c], st.nodes[d], st.streams[d], done, done,
            st.cancelled);
      }
    }
  }

  lemma SendKeeps(net: Network, mode: Mode, st: State, c: nat)
    requires Inv(net, mode, st) && CanSend(net, st, c)
    ensures Inv(net, mode, Send(net, st, c))
  {
    hide NodeOk, EdgeOk, StreamOk;
    var st', s := Send(net, st, c), st.streams[c];
    assert StreamAt(net, st, c);
    forall i: nat | i < |net|
      ensures NodeAt(net, mode, st', i)
    {
      assert NodeAt(net, mode, st, i);
    }
    forall d: nat | Streamed(net, d)
      ensures StreamAt(net, st', d)
    {
      assert StreamAt(net, st, d);
      if d == c {
        AdvancedOk(net, c, s, st.nodes[c], st.cancelled);
      }
    }
    forall f: Edge | IsEdge(net, f)
      ensures EdgeAt(net, st', f)
    {
      SendKeepsEdge(net, mode, st, st', c, f);
    }
  }

  /** What a send leaves alone. */
  lemma SendFrame(net: Network, st: State, c: nat, f: Edge)
    requires Shape(net, st) && CanSend(net, st, c) && IsEdge(net, f) && f.parent < |net| && Child(net, f) < |net|
    ensures var st', s, e := Send(net, st, c), st.streams[c], st.streams[c].disp.todo[0];
            && st'.nodes == st.nodes && st'.cancelled == st.cancelled && Shape(net, st')
            && RunDone(net, st', f.parent) == RunDone(net, st, f.parent)
            && st'.streams[Child(net, f)] == (if Child(net, f) == c then s.Advance() else st.streams[Child(net, f)])
            && st'.slots[f] == if f != e then st.slots[f]
                               else st.slots[f].(buffer := [s.disp.event], sent := st.slots[f].sent + [s.disp.event])
  {
  }

  lemma SendKeepsEdge(net: Network, mode: Mode, st: State, st': State, c: nat, f: Edge)
    requires ChildrenFirst(net) && Shape(net, st) && Shape(net, st') && IsEdge(net, f)
    requires CanSend(net, st, c) && st' == Send(net, st, c) && Inv(net, mode, st)
    ensures EdgeAt(net, st', f)
  {
    hide NodeOk, EdgeOk, NodeAt, Send, RunDone;
    SendFrame(net, st, c, f);
    var s := st.streams[c];
    assert StreamAt(net, st, c);
    assert Distinct(s.Todo()) && s.taken != [] && s.taken[|s.taken| - 1] == s.disp.event;
    assert EdgeAt(net, st, f);
    hide Inv, StreamOk;
    var done := RunDone(net, st, f.parent);
    if Child(net, f) == c {
      if f == s.disp.todo[0] {
        SentEdge(f, st.slots[f], st.nodes[f.parent], st.nodes[c], s, done, st.cancelled);
      } else {
        PassedEdge(f, st.slots[f], st.nodes[f.parent], st.nodes[c], s, done, st.cancelled);
      }
    } else {
      FacesOwnEdge(net, c, s, st.nodes[c], st.cancelled);
    }
  }

  lemma FacesOwnEdge(net: Network, c: nat, s: Stream<Edge>, cn: Node, all: bool)
    requires StreamOk(net, c, s, cn, all) && s.Todo() != []
    ensures IsEdge(net, s.Todo()[0]) && Child(net, s.Todo()[0]) == c
  {
    assert s.Todo()[0] in s.Todo();
  }

  lemma FinishKeeps(net: Network, mode: Mode, st: State, c: nat)
    requires Inv(net, mode, st) && CanFinish(net, st, c)
    ensures Inv(net, mode, Finish(net, st, c))
  {
    hide NodeOk, EdgeOk;
    var st', s := Finish(net, st, c), st.streams[c];
    assert StreamAt(net, st, c);
    assert forall e :: e in s.subs ==> IsEdge(net, e) && Child(net, e) == c;
    hide StreamOk;
    EndingIsDrained(net, c, s, st.nodes[c], st.cancelled);
    forall i: nat | i < |net|
      ensures NodeAt(net, mode, st', i)
    {
      assert NodeAt(net, mode, st, i);
    }
    forall d: nat | Streamed(net, d)
      ensures StreamAt(net, st', d)
    {
      assert StreamAt(net, st, d);
    }
    forall e: Edge | IsEdge(net, e)
      ensures EdgeAt(net, st', e)
    {
      FinishKeepsEdge(net, mode, st, st', c, e);
    }
  }

  lemma FinishKeepsEdge(net: Network, mode: Mode, st: State, st': State, c: nat, e: Edge)
    requires ChildrenFirst(net) && Shape(net, st) && Shape(net, st') && IsEdge(net, e)
    requires CanFinish(net, st, c) && st' == Finish(net, st, c) && Inv(net, mode, st)
    ensures EdgeAt(net, st', e)
  {
    hide NodeOk, EdgeOk, NodeAt;
    var s := st.streams[c];
    assert StreamAt(net, st, c);
    assert forall f :: f in s.subs ==> IsEdge(net, f) && Child(net, f) == c;
    hide StreamOk;
    EndingIsDrained(net, c, s, st.nodes[c], st.cancelled);
    assert EdgeAt(net, st, e);
    var d, done, more := Child(net, e), RunDone(net, st, e.parent), RunDone(net, st', e.parent);
    if d == c {
      FinishedEdge(e, st.slots[e], st.nodes[e.parent], st.nodes[c], s, done, st.cancelled);
    }
    EdgeWeaken(e, st'.slots[e], st.nodes[e.parent], st.nodes[d], st'.streams[d], done, more, st.cancelled);
  }
}
