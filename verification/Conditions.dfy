/**
  Condition trees of `internal/condition` and the formula each of them stands for.

  A tree with shared branches is a directed acyclic graph.  It is listed here in the order in which the
  run methods of its conditions return: every child comes before its parents, and the root comes last.
  An index into the list stands for the identity of a condition (its `conditionToken`); IDs are only
  labels and two conditions may carry the same one.
 */
module Conditions {

  datatype Mode = Once | Continuous

  datatype Event = Event(id: string, sources: seq<string>)

  /** What a child stream delivers: an event, or the closing of its channel. */
  datatype Message = Fired(event: Event) | Closed

  datatype Condition =
    | Leaf(id: string)
    | And(id: string, children: seq<nat>)
    | Or(id: string, children: seq<nat>)
  {
    function Children(): seq<nat> {
      if Leaf? then [] else children
    }
  }

  type Network = seq<Condition>

  /** One subscription: child number `pos` of condition `parent`. */
  datatype Edge = Edge(parent: nat, pos: nat)

  predicate IsEdge(net: Network, e: Edge) {
    e.parent < |net| && e.pos < |net[e.parent].Children()|
  }

  function Child(net: Network, e: Edge): nat
    requires IsEdge(net, e)
  {
    net[e.parent].Children()[e.pos]
  }

  ghost predicate ChildrenFirst(net: Network) {
    forall e: Edge {:trigger IsEdge(net, e)} :: IsEdge(net, e) ==> Child(net, e) < e.parent
  }

  /** Children first, and every condition but the last one has a parent. */
  ghost predicate WellFormed(net: Network) {
    && 0 < |net|
    && ChildrenFirst(net)
    && forall i :: 0 <= i < |net| - 1 ==> HasParent(net, i)
  }

  ghost predicate HasParent(net: Network, i: nat) {
    exists e: Edge :: IsEdge(net, e) && Child(net, e) == i
  }

  function Root(net: Network): nat
    requires 0 < |net|
  {
    |net| - 1
  }

  /** The formula of condition `i`, given the set of leaves that have fired. */
  ghost predicate Holds(net: Network, i: nat, fired: set<nat>)
    requires ChildrenFirst(net) && i < |net|
    decreases i
  {
    match net[i]
    case Leaf(_) => i in fired
    case And(_, children) => forall k: nat | k < |children| :: HoldsAt(net, Edge(i, k), fired)
    case Or(_, children) => exists k: nat | k < |children| :: HoldsAt(net, Edge(i, k), fired)
  }

  ghost predicate HoldsAt(net: Network, e: Edge, fired: set<nat>)
    requires ChildrenFirst(net) && IsEdge(net, e)
    decreases e.parent, 0
  {
    Holds(net, Child(net, e), fired)
  }

  /** The leaves whose ID is among `ids`. */
  ghost function Named(net: Network, ids: set<string>): set<nat> {
    set i: nat | i < |net| && net[i].Leaf? && net[i].id in ids
  }

  lemma {:induction false} HoldsMonotone(net: Network, i: nat, fired: set<nat>, more: set<nat>)
    requires ChildrenFirst(net) && i < |net| && fired <= more
    ensures Holds(net, i, fired) ==> Holds(net, i, more)
    decreases i
  {
    forall k: nat | k < |net[i].Children()|
      ensures HoldsAt(net, Edge(i, k), fired) ==> HoldsAt(net, Edge(i, k), more)
    {
      assert IsEdge(net, Edge(i, k));
      HoldsMonotone(net, Child(net, Edge(i, k)), fired, more);
    }
  }
}
