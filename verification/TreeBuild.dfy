/**
  `runRoot`: running the root condition subscribes to its children, which runs each child that is met for
  the first time, and so on; only then are the dispatchers released.
 */
module TreeBuild {
  import opened Conditions
  import opened Sequences
  import opened SourceIds
  import opened SharedStreams
  import opened NetworkSteps
  import R = Registry
  import RegistrySafety
  import opened RunRegistry

  /** `ran` lists the calls of `run`, `edges` the child each subscription was made for. */
  datatype History = History(ran: seq<nat>, edges: seq<Edge>)

  ghost function SubsOf(r: R.Registry, id: nat): set<nat> {
    set sub | 0 <= sub < |r.subs| && r.subs[sub].stream == id
  }

  /** A stream that has its subscribers and has not moved; it is pending once its condition's `run` is over. */
  ghost predicate Waiting(r: R.Registry, id: nat, open: set<nat>)
    requires id < |r.table|
  {
    var record := r.table[id];
    && record.stream == NewStream(SubsOf(r, id)) && record.starts == 0 && !record.over
    && (record.owed <==> record.key in open)
    && (id in r.pending <==> !record.owed)
  }

  ghost predicate Subscribed(net: Network, r: R.Registry, h: History, sub: nat)
    requires sub < |r.subs| == |h.edges|
  {
    var e := h.edges[sub];
    && IsEdge(net, e) && e.parent in h.ran && Child(net, e) in r.streams
    && r.subs[sub] == R.Subscription(r.streams[Child(net, e)], 0, [], 0, false)
  }

  ghost predicate Complete(net: Network, h: History, p: nat) {
    forall k: nat :: IsEdge(net, Edge(p, k)) ==> Edge(p, k) in h.edges
  }

  /** The state of a build; `open` are the conditions whose `run` has not returned. */
  ghost predicate Built(net: Network, r: R.Registry, h: History, open: set<nat>) {
    && WellFormed(net) && R.Reachable(r) && R.Safe(r) && !r.started && |h.edges| == |r.subs|
    && Distinct(h.ran) && Distinct(h.edges)
    && Root(net) in h.ran && (forall c :: c in h.ran ==> c < |net|)
    && (forall c :: c in r.streams <==> c in h.ran && c != Root(net))
    && (forall id: nat :: id < |r.table| ==> Waiting(r, id, open))
    && (forall sub: nat :: sub < |r.subs| ==> Subscribed(net, r, h, sub))
    && (forall p :: p in h.ran && p !in open ==> Complete(net, h, p))
  }

  lemma AttachMore(r: R.Registry, id: nat, j: nat)
    requires id < |r.table| && j < |r.table|
    ensures SubsOf(R.Attach(r, id), j) == SubsOf(r, j) + (if j == id then {|r.subs|} else {})
  {
  }

  /** Subscribing to a condition that has been run already. */
  lemma SubscribedAgain(net: Network, r: R.Registry, h: History, open: set<nat>, e: Edge)
    requires Built(net, r, h, open) && IsEdge(net, e) && e !in h.edges && e.parent in h.ran
    requires Child(net, e) in r.streams
    ensures Built(net, R.Subscribe(r, Child(net, e)), h.(edges := h.edges + [e]), open)
  {
    hide R.SubscriptionOk, R.RecordOk, R.Owned, R.Reachable;
    var c := Child(net, e);
    assert R.KeyAt(r, c);
    RegistrySafety.ReachableStep(r, R.SubscribeStep(c));
    var id := r.streams[c];
    var r', h' := R.Subscribe(r, c), h.(edges := h.edges + [e]);
    RegistrySafety.SubscribeKeeps(r, c);
    DistinctMore(h.edges, e);
    assert Waiting(r, id, open);
    forall j: nat | j < |r'.table|
      ensures Waiting(r', j, open)
    {
      assert Waiting(r, j, open);
      AttachMore(r, id, j);
    }
    forall sub: nat | sub < |r'.subs|
      ensures Subscribed(net, r', h', sub)
    {
      if sub < |r.subs| {
        assert Subscribed(net, r, h, sub);
      }
    }
    forall p | p in h'.ran && p !in open
      ensures Complete(net, h', p)
    {
      assert Complete(net, h, p);
    }
  }

  /** Subscribing to a condition for the first time creates its stream and runs it. */
  lemma SubscribedFirst(net: Network, r: R.Registry, h: History, open: set<nat>, e: Edge)
    requires Built(net, r, h, open) && IsEdge(net, e) && e !in h.edges && e.parent in h.ran
    requires Child(net, e) !in r.streams
    ensures Built(net, R.Subscribe(r, Child(net, e)),
                  h.(edges := h.edges + [e], ran := h.ran + [Child(net, e)]), open + {Child(net, e)})
  {
    hide R.SubscriptionOk, R.RecordOk, R.Owned, R.Reachable;
    var c, id := Child(net, e), |r.table|;
    RegistrySafety.ReachableStep(r, R.SubscribeStep(c));
    var mid := r.(streams := r.streams[c := id], table := r.table + [R.Record(c, NewStream({}), 0, true, false)]);
    var r', h' := R.Subscribe(r, c), h.(edges := h.edges + [e], ran := h.ran + [c]);
    assert r' == R.Attach(mid, id);
    RegistrySafety.SubscribeKeeps(r, c);
    DistinctMore(h.edges, e);
    DistinctMore(h.ran, c);
    forall sub: nat | sub < |r.subs|
      ensures r.subs[sub].stream < |r.table|
    {
      assert R.SubAt(r, sub);
    }
    forall j: nat | j < |r'.table|
      ensures Waiting(r', j, open + {c})
    {
      AttachMore(mid, id, j);
      if j < |r.table| {
        assert Waiting(r, j, open);
        assert SubsOf(mid, j) == SubsOf(r, j);
        NotMapped(r, j, c);
      } else {
        assert SubsOf(mid, id) == {};
      }
    }
    forall sub: nat | sub < |r'.subs|
      ensures Subscribed(net, r', h', sub)
    {
      if sub < |r.subs| {
        assert Subscribed(net, r, h, sub);
      }
    }
    forall p | p in h'.ran && p !in open + {c}
      ensures Complete(net, h', p)
    {
      assert Complete(net, h, p);
    }
  }

  /** A stream that was not given up is mapped, so its key is not that of a new stream. */
  lemma NotMapped(r: R.Registry, j: nat, key: nat)
    requires R.Safe(r) && j < |r.table| && key !in r.streams && !r.table[j].stream.emptied
    ensures r.table[j].key != key
  {
    hide R.SubscriptionOk, R.RecordOk, R.Owned;
    assert R.RecordAt(r, j);
  }

  lemma StartedBuild(net: Network, r: R.Registry, h: History, open: set<nat>, c: nat)
    requires Built(net, r, h, open + {c}) && c !in open && c in r.streams && Complete(net, h, c)
    ensures r.streams[c] < |r.table| && R.CanStart(r, r.streams[c])
    ensures Built(net, R.StartStream(r, r.streams[c]), h, open)
  {
    hide R.SubscriptionOk, R.RecordOk, R.Owned, R.Reachable;
    assert R.KeyAt(r, c);
    var id := r.streams[c];
    assert Waiting(r, id, open + {c});
    RegistrySafety.ReachableStep(r, R.StartStreamStep(id));
    RegistrySafety.StartStreamKeeps(r, id);
    var r' := R.StartStream(r, id);
    forall j: nat | j < |r'.table|
      ensures Waiting(r', j, open)
    {
      assert Waiting(r, j, open + {c});
      assert SubsOf(r', j) == SubsOf(r, j);
      assert R.RecordAt(r, j);
    }
    forall sub: nat | sub < |r'.subs|
      ensures Subscribed(net, r', h, sub)
    {
      assert Subscribed(net, r, h, sub);
    }
    forall p | p in h.ran && p !in open
      ensures Complete(net, h, p)
    {
      assert p == c || Complete(net, h, p);
    }
  }

  /** `run` of condition `i`, up to the start of its goroutine. */
  method RunCondition(registry: RunRegistry, net: Network, i: nat, h: History, ghost open: set<nat>)
    returns (h': History)
    requires Built(net, registry.View(), h, open)
    requires i in open && i in h.ran && (forall j :: j in open && j != i ==> i < j)
    requires forall k: nat :: Edge(i, k) !in h.edges
    modifies registry
    ensures Built(net, registry.View(), h', open) && Complete(net, h', i)
    ensures h.ran <= h'.ran
    ensures forall e :: e in h.edges ==> e in h'.edges
    ensures forall e :: e in h'.edges ==> e in h.edges || e.parent <= i
    decreases i
  {
    h' := h;
    var children := net[i].Children();
    var k := 0;
    while k < |children|
      invariant 0 <= k <= |children| && i < |net| && children == net[i].Children()
      invariant Built(net, registry.View(), h', open) && h.ran <= h'.ran && i in h'.ran
      invariant forall e :: e in h.edges ==> e in h'.edges
      invariant forall e :: e in h'.edges ==> e in h.edges || e.parent <= i
      invariant forall j: nat :: Edge(i, j) in h'.edges <==> j < k
    {
      var e := Edge(i, k);
      assert IsEdge(net, e) && Child(net, e) == children[k] < i;
      h' := Follow(registry, net, e, h', open);
      k := k + 1;
    }
    assert Complete(net, h', i);
  }

  /** One iteration of the child loop: subscribe, and run the child if it is new. */
  method Follow(registry: RunRegistry, net: Network, e: Edge, h: History, ghost open: set<nat>) returns (h': History)
    requires Built(net, registry.View(), h, open) && IsEdge(net, e) && e !in h.edges && e.parent in h.ran
    requires e.parent in open && forall j :: j in open && j != e.parent ==> e.parent < j
    modifies registry
    ensures Built(net, registry.View(), h', open) && h.ran <= h'.ran && e in h'.edges
    ensures forall f :: f in h'.edges ==> f in h.edges || f == e || f.parent < e.parent
    ensures forall f :: f in h.edges ==> f in h'.edges
    decreases e.parent, 0
  {
    ghost var before := registry.View();
    var c := net[e.parent].Children()[e.pos];
    assert c == Child(net, e) && c < e.parent;
    assert R.KeyAt(before, c);
    var sub, start := registry.Subscribe(c);
    if start {
      SubscribedFirst(net, before, h, open, e);
      h' := h.(edges := h.edges + [e], ran := h.ran + [c]);
      forall k: nat
        ensures Edge(c, k) !in h'.edges
      {
        EdgesOfRan(net, before, h, Edge(c, k));
      }
      h' := RunCondition(registry, net, c, h', open + {c});
      assert c in h'.ran;
      StartedBuild(net, registry.View(), h', open, c);
      assert R.KeyAt(registry.View(), c);
      registry.StartStream(registry.streams[c]);
    } else {
      SubscribedAgain(net, before, h, open, e);
      h' := h.(edges := h.edges + [e]);
    }
  }

  lemma EdgesOfRan(net: Network, r: R.Registry, h: History, e: Edge)
    requires |h.edges| == |r.subs| && forall sub: nat :: sub < |r.subs| ==> Subscribed(net, r, h, sub)
    ensures e in h.edges ==> e.parent in h.ran
  {
    if e in h.edges {
      var sub: nat :| sub < |h.edges| && h.edges[sub] == e;
      assert Subscribed(net, r, h, sub);
    }
  }

  // The finished tree

  /** `run` of the root has returned. */
  ghost predicate RootRan(net: Network, r: R.Registry, h: History) {
    WellFormed(net) && Built(net, r, h, {Root(net)}) && Complete(net, h, Root(net))
  }

  /** Every condition is reached from the root, so every condition was run. */
  lemma {:induction false} EverythingRan(net: Network, r: R.Registry, h: History, i: nat)
    requires RootRan(net, r, h) && i < |net|
    ensures i in h.ran && Complete(net, h, i)
    decreases |net| - i
  {
    hide R.Safe;
    if i != Root(net) {
      assert HasParent(net, i);
      var e: Edge :| IsEdge(net, e) && Child(net, e) == i;
      EverythingRan(net, r, h, e.parent);
      assert e == Edge(e.parent, e.pos);
      var sub: nat :| sub < |h.edges| && h.edges[sub] == e;
      assert Subscribed(net, r, h, sub);
    }
  }

  /** The children that the subscribers of stream `id` were subscribed for. */
  ghost function EdgesOf(r: R.Registry, h: History, id: nat): set<Edge>
    requires id < |r.table| && |h.edges| == |r.subs|
  {
    set sub | sub in r.table[id].stream.subs && sub < |h.edges| :: h.edges[sub]
  }

  /**
    One execution per condition.  When `run` of the root returns, every other condition has exactly one
    stream and was run exactly once, its stream has exactly one subscriber for every place where it
    occurs as a child, it waits to be started, and nothing has been delivered to anyone.
   */
  ghost predicate OnePerCondition(net: Network, r: R.Registry, h: History) {
    && Distinct(h.ran) && (forall i :: i in h.ran <==> 0 <= i < |net|)
    && Distinct(h.edges) && |h.edges| == |r.subs|
    && (forall e: Edge {:trigger e in h.edges} :: e in h.edges <==> IsEdge(net, e))
    && (forall c: nat :: c in r.streams <==> Streamed(net, c))
    && (forall c: nat :: Streamed(net, c) ==> StreamBuilt(net, r, h, c))
    && (forall sub: nat :: sub < |r.subs| ==> Subscribed(net, r, h, sub))
    && |r.table| == |net| - 1
    && R.Reachable(r)
  }

  ghost predicate StreamBuilt(net: Network, r: R.Registry, h: History, c: nat)
    requires |h.edges| == |r.subs|
  {
    && R.Mapped(r, c) && r.table[r.streams[c]].key == c
    && EdgesOf(r, h, r.streams[c]) == EdgesTo(net, c)
    && (var s := r.table[r.streams[c]].stream; s == NewStream(s.subs))
  }

  lemma StreamIsBuilt(net: Network, r: R.Registry, h: History, c: nat)
    requires RootRan(net, r, h) && Streamed(net, c)
    ensures StreamBuilt(net, r, h, c) && r.streams[c] in r.pending
  {
    hide R.SubscriptionOk, R.RecordOk, R.Owned;
    EverythingRan(net, r, h, c);
    assert R.KeyAt(r, c);
    var id := r.streams[c];
    assert Waiting(r, id, {Root(net)});
    forall e: Edge
      ensures e in EdgesOf(r, h, id) <==> e in EdgesTo(net, c)
    {
      if e in EdgesTo(net, c) {
        EverythingRan(net, r, h, e.parent);
        assert IsEdge(net, e) && e == Edge(e.parent, e.pos);
        var sub: nat :| sub < |h.edges| && h.edges[sub] == e;
        assert Subscribed(net, r, h, sub);
        assert sub in SubsOf(r, id);
      }
      if e in EdgesOf(r, h, id) {
        var sub :| sub in r.table[id].stream.subs && sub < |h.edges| && h.edges[sub] == e;
        assert Subscribed(net, r, h, sub);
        var d := Child(net, e);
        assert R.KeyAt(r, d);
        assert d == c;
      }
    }
  }

  /** Different streams have different keys, and every condition but the root has one. */
  lemma TableSize(net: Network, r: R.Registry, h: History)
    requires RootRan(net, r, h)
    ensures |r.table| == |net| - 1
  {
    hide R.SubscriptionOk, R.RecordOk, R.Owned;
    forall c: nat | Streamed(net, c)
      ensures c in r.streams && r.streams[c] < |r.table| && r.table[r.streams[c]].key == c
    {
      EverythingRan(net, r, h, c);
      assert R.KeyAt(r, c);
    }
    forall id: nat | id < |r.table|
      ensures Streamed(net, r.table[id].key) && r.streams[r.table[id].key] == id
    {
      assert R.RecordAt(r, id);
      assert Waiting(r, id, {Root(net)});
    }
    var ids := seq(|net| - 1, c requires 0 <= c < |net| - 1 && Streamed(net, c) && c in r.streams => r.streams[c]);
    var keys := seq(|r.table|, id requires 0 <= id < |r.table| => r.table[id].key);
    Injects(ids, |r.table|);
    Injects(keys, |net| - 1);
  }

  lemma {:induction false} Injects(s: seq<nat>, n: nat)
    requires Distinct(s) && forall i :: 0 <= i < |s| ==> s[i] < n
    ensures |s| <= n
    decreases n
  {
    if n == 0 {
    } else if n - 1 !in s {
      Injects(s, n - 1);
    } else {
      var i :| 0 <= i < |s| && s[i] == n - 1;
      var rest := s[..i] + s[i + 1..];
      forall j | 0 <= j < |rest|
        ensures rest[j] < n - 1
      {
        assert rest[j] == if j < i then s[j] else s[j + 1];
      }
      Injects(rest, n - 1);
    }
  }

  lemma TreeIsBuilt(net: Network, r: R.Registry, h: History)
    requires RootRan(net, r, h)
    ensures OnePerCondition(net, r, h)
  {
    hide R.SubscriptionOk, R.RecordOk, R.Owned;
    TableSize(net, r, h);
    forall c: nat | Streamed(net, c)
      ensures StreamBuilt(net, r, h, c)
    {
      StreamIsBuilt(net, r, h, c);
    }
    forall i: nat | i < |net|
      ensures i in h.ran && Complete(net, h, i)
    {
      EverythingRan(net, r, h, i);
    }
    forall e: Edge
      ensures e in h.edges <==> IsEdge(net, e)
    {
      if IsEdge(net, e) {
        assert e.parent in h.ran && Complete(net, h, e.parent);
        assert e == Edge(e.parent, e.pos);
      }
      if e in h.edges {
        var sub: nat :| sub < |h.edges| && h.edges[sub] == e;
        assert Subscribed(net, r, h, sub);
      }
    }
  }

  /** `runRoot`: build the tree, then release the dispatchers. */
  method RunRoot(net: Network) returns (registry: RunRegistry, h: History, ghost built: R.Registry)
    requires WellFormed(net)
    ensures fresh(registry) && OnePerCondition(net, built, h)
    ensures registry.View() == R.StartPending(built) && R.Reachable(registry.View()) && R.Safe(registry.View())
    ensures |registry.table| == |built.table|
    ensures forall id :: 0 <= id < |registry.table| ==> registry.table[id] == built.table[id].(starts := 1)
  {
    registry := new RunRegistry();
    var root := Root(net);
    h := History([root], []);
    RegistrySafety.EmptyIsSafe();
    RegistrySafety.EmptyIsReachable();
    h := RunCondition(registry, net, root, h, {root});
    built := registry.View();
    TreeIsBuilt(net, built, h);
    AllPending(net, built, h);
    RegistrySafety.ReachableStep(built, R.StartPendingStep);
    registry.StartPending();
  }

  lemma AllPending(net: Network, r: R.Registry, h: History)
    requires RootRan(net, r, h)
    ensures |R.StartPending(r).table| == |r.table|
    ensures forall id: nat :: id < |r.table| ==> R.StartPending(r).table[id] == r.table[id].(starts := 1)
  {
    hide R.SubscriptionOk, R.RecordOk, R.Owned;
    forall id: nat | id < |r.table|
      ensures R.StartPending(r).table[id] == r.table[id].(starts := 1)
    {
      assert Waiting(r, id, {Root(net)});
      assert R.RecordAt(r, id);
      RegistrySafety.LaunchStarts(r.table, r.pending, id);
    }
  }

  // What comes of the built tree

  /**
    However the registry goes on from there, also with later subscribers, every branch sees the events of
    its child from the first one: it has been sent a prefix of all that were taken from the child's source.
    If it never unsubscribed it is closed when the stream finishes, after all events if the source was closed.
   */
  lemma BranchesSeeTheFirstEvent(
      net: Network, built: R.Registry, h: History, trace: seq<R.Registry>, steps: seq<R.Step>, n: nat, sub: nat)
    requires OnePerCondition(net, built, h) && sub < |h.edges|
    requires R.IsRunFrom(R.StartPending(built), trace, steps) && n < |trace|
    ensures sub < |trace[n].subs| && trace[n].subs[sub].stream < |trace[n].table|
    ensures var x := trace[n].subs[sub]; var record := trace[n].table[x.stream];
            && IsEdge(net, h.edges[sub]) && record.key == Child(net, h.edges[sub])
            && x.sent <= record.stream.taken
            && (record.stream.disp.Ended? && !x.left ==> x.closes == 1)
            && (record.stream.disp.Ended? && record.over && !x.left ==> x.sent == record.stream.taken)
  {
    hide R.Reachable, R.Safe, R.IsRunFrom, StreamBuilt, R.Launch;
    assert Subscribed(net, built, h, sub);
    var c := Child(net, h.edges[sub]);
    assert StreamBuilt(net, built, h, c);
    StreamHasKey(net, built, h, c);
    RegistrySafety.ReachableStep(built, R.StartPendingStep);
    StartedRecords(net, built, h, built.streams[c]);
    var start := R.StartPending(built);
    RegistrySafety.SubscriptionStays(start, trace, steps, n, sub);
    var trace', steps', offset := RegistrySafety.RunFromReachable(start, trace, steps);
    assert trace'[offset + n] == trace[n];
    RegistrySafety.FanOutIsContiguous(trace', steps', offset + n, sub);
  }

  lemma StreamHasKey(net: Network, r: R.Registry, h: History, c: nat)
    requires |h.edges| == |r.subs| && StreamBuilt(net, r, h, c)
    ensures R.Mapped(r, c) && r.table[r.streams[c]].key == c
  {
  }

  lemma StartedRecords(net: Network, r: R.Registry, h: History, id: nat)
    requires OnePerCondition(net, r, h) && id < |r.table|
    ensures var started := R.StartPending(r);
            && |started.table| == |r.table| && started.table[id].key == r.table[id].key
            && started.table[id].stream == r.table[id].stream && started.subs == r.subs
  {
    hide R.RecordOk, R.SubscriptionOk, R.Owned, StreamBuilt, Subscribed;
    RegistrySafety.ReachableIsSafe(r);
    if !r.started {
      RegistrySafety.LaunchStarts(r.table, r.pending, id);
    }
  }

  /** A stream of the registry with its subscribers named by the branches they stand for. */
  ghost function OverBranches(s: Stream<nat>, edges: seq<Edge>): Stream<Edge>
    requires s.disp.Idle?
  {
    Stream(Idle, set sub | sub in s.subs && sub < |edges| :: edges[sub], s.taken, s.emptied, s.cancelled)
  }

  /** A subscription, with everything it was sent still in its channel and its forwarder about to take it. */
  ghost function AsSlot(x: R.Subscription): Slot {
    Slot(x.sent, x.closes > 0, Taking, x.sent)
  }

  /** `runRoot` leaves the streams and subscriptions with which the network of `NetworkSteps` starts. */
  lemma BuildsTheNetwork(net: Network, built: R.Registry, h: History)
    requires WellFormed(net) && OnePerCondition(net, built, h)
    ensures var started := R.StartPending(built);
            && (forall c: nat :: Streamed(net, c) ==>
                 && R.Mapped(started, c) && started.table[started.streams[c]].stream.disp.Idle?
                 && OverBranches(started.table[started.streams[c]].stream, h.edges) == Initial(net).streams[c])
            && |started.subs| == |h.edges|
            && (forall sub: nat :: sub < |h.edges| ==>
                 h.edges[sub] in Initial(net).slots && AsSlot(started.subs[sub]) == Initial(net).slots[h.edges[sub]])
            && (forall e: Edge :: e in Initial(net).slots ==> e in h.edges)
  {
    hide R.Reachable, R.Launch;
    var started := R.StartPending(built);
    forall c: nat | Streamed(net, c)
      ensures R.Mapped(started, c) && started.table[started.streams[c]].stream.disp.Idle?
      ensures OverBranches(started.table[started.streams[c]].stream, h.edges) == Initial(net).streams[c]
    {
      assert StreamBuilt(net, built, h, c);
      StartedRecords(net, built, h, built.streams[c]);
      assert EdgesOf(built, h, built.streams[c]) == EdgesTo(net, c);
    }
    forall sub: nat | sub < |h.edges|
      ensures h.edges[sub] in Initial(net).slots && AsSlot(started.subs[sub]) == Initial(net).slots[h.edges[sub]]
    {
      assert Subscribed(net, built, h, sub);
      assert h.edges[sub] in AllEdges(net);
    }
  }
}
