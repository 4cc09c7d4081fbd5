/** From the plan to the condition tree: `buildConditionTree` and `conditionPlanSatisfied` of main.go. */
module ConditionTree {
  import opened Conditions
  import opened Sequences
  import opened SourceIds
  import opened NetworkStart
  import opened NetworkSteps
  import opened NetworkVerdict
  import opened Numerals
  import CanonicalPlan

  type Groups = seq<seq<nat>>

  /** What runs behind a leaf: the monitor of its spec, or the zero duration of an initially satisfied one. */
  datatype Monitor = ZeroDuration | Monitoring(spec: CanonicalPlan.Spec)

  ghost predicate Complete(group: seq<nat>, satisfied: set<nat>) {
    forall k :: 0 <= k < |group| ==> group[k] in satisfied
  }

  /** The meaning of a plan: some group has all of its members. */
  ghost predicate Satisfied(groups: Groups, satisfied: set<nat>) {
    exists g :: 0 <= g < |groups| && Complete(groups[g], satisfied)
  }

  ghost function Latched(initial: seq<bool>): set<nat> {
    set c: nat | c < |initial| && initial[c]
  }

  /** One monitor per condition: an initially satisfied one is latched as a zero duration. */
  ghost predicate MonitorsOf(plan: CanonicalPlan.Plan, initial: seq<bool>, monitors: seq<Monitor>) {
    && |monitors| == |initial| == |plan.conditions|
    && forall c :: 0 <= c < |monitors| ==>
         monitors[c] == if initial[c] then ZeroDuration else Monitoring(plan.conditions[c])
  }

  /** The leaves that are ready when they are run.  Others may be too; then firing is their first step. */
  ghost function Ready(monitors: seq<Monitor>): set<nat> {
    set c: nat | c < |monitors| && monitors[c].ZeroDuration?
  }

  method ConditionPlanSatisfied(groups: Groups, satisfied: seq<bool>) returns (r: bool)
    requires CanonicalPlan.ValidIndexes(groups, |satisfied|)
    ensures r <==> Satisfied(groups, Latched(satisfied))
  {
    for g := 0 to |groups|
      invariant forall h :: 0 <= h < g ==> !Complete(groups[h], Latched(satisfied))
    {
      var group := groups[g];
      var complete := true;
      for k := 0 to |group|
        invariant complete && forall j :: 0 <= j < k ==> group[j] in Latched(satisfied)
      {
        if !satisfied[group[k]] {
          complete := false;
          assert group[k] !in Latched(satisfied);
          break;
        }
      }
      if complete {
        return true;
      }
    }
    return false;
  }

  /** `net[..|conditions|]` are the leaves; `tops[g]` is the condition that stands for group `g`. */
  ghost predicate LeavesOf(conditions: seq<CanonicalPlan.Spec>, net: Network) {
    |conditions| <= |net| && forall c :: 0 <= c < |conditions| ==> net[c] == Leaf(conditions[c].id)
  }

  ghost predicate Tops(groups: Groups, count: nat, net: Network, tops: seq<nat>) {
    && |tops| == |groups|
    && forall g :: 0 <= g < |groups| ==> TopOf(groups, g, count, net, tops[g])
  }

  ghost predicate TopOf(groups: Groups, g: nat, count: nat, net: Network, top: nat)
    requires g < |groups|
  {
    if |groups[g]| == 1 then top == groups[g][0]
    else count <= top < |net| && net[top] == And("and:" + Decimal(g), groups[g])
  }

  /** Leaves first, then one AND per group that is not a single member, then the OR unless there is a single group. */
  ghost predicate TreeOf(plan: CanonicalPlan.Plan, net: Network, root: nat, tops: seq<nat>) {
    && LeavesOf(plan.conditions, net)
    && Tops(plan.groups, |plan.conditions|, net, tops)
    && (forall i :: |plan.conditions| <= i < |net| ==> i in tops || i == root)
    && (if |plan.groups| == 1 then root == tops[0]
        else root == |net| - 1 && |plan.conditions| <= root && net[root] == Or("or:root", tops)
             && forall g :: 0 <= g < |tops| ==> tops[g] < root)
  }

  method BuildConditionTree(plan: CanonicalPlan.Plan, initial: seq<bool>)
    returns (net: Network, root: nat, monitors: seq<Monitor>, ghost tops: seq<nat>)
    requires CanonicalPlan.ValidIndexes(plan.groups, |plan.conditions|) && |initial| == |plan.conditions|
    ensures TreeOf(plan, net, root, tops)
    ensures MonitorsOf(plan, initial, monitors)
  {
    net := [];
    monitors := [];
    var count := |plan.conditions|;
    for c := 0 to count
      invariant |net| == |monitors| == c
      invariant forall d :: 0 <= d < c ==> net[d] == Leaf(plan.conditions[d].id)
      invariant forall d :: 0 <= d < c ==>
                monitors[d] == if initial[d] then ZeroDuration else Monitoring(plan.conditions[d])
    {
      var id := plan.conditions[c].id;
      net := net + [Leaf(id)];
      if initial[c] {
        monitors := monitors + [ZeroDuration];
        continue;
      }
      monitors := monitors + [Monitoring(plan.conditions[c])];
    }
    var groups: seq<nat> := [];
    for g := 0 to |plan.groups|
      invariant LeavesOf(plan.conditions, net) && |groups| == g
      invariant forall h :: 0 <= h < g ==> TopOf(plan.groups, h, count, net, groups[h]) && groups[h] < |net|
      invariant forall i :: count <= i < |net| ==> i in groups
    {
      var members := plan.groups[g];
      var children: seq<nat> := [];
      for k := 0 to |members|
        invariant children == members[..k]
      {
        children := children + [members[k]];
      }
      assert children == members;
      ghost var before := groups;
      if |children| == 1 {
        groups := groups + [children[0]];
      } else {
        groups := groups + [|net|];
        net := net + [And("and:" + Decimal(g), children)];
      }
      assert forall i :: i in before ==> i in groups;
      assert groups[g] in groups;
    }
    tops := groups;
    if |groups| == 1 {
      return net, groups[0], monitors, tops;
    }
    net := net + [Or("or:root", groups)];
    root := |net| - 1;
  }

  // The tree means what the plan means

  lemma TreeIsOrdered(plan: CanonicalPlan.Plan, net: Network, root: nat, tops: seq<nat>)
    requires CanonicalPlan.ValidIndexes(plan.groups, |plan.conditions|) && TreeOf(plan, net, root, tops)
    ensures ChildrenFirst(net) && root < |net|
  {
    var count := |plan.conditions|;
    forall e: Edge | IsEdge(net, e)
      ensures Child(net, e) < e.parent
    {
      if e.parent in tops {
        var g :| 0 <= g < |tops| && tops[g] == e.parent;
        assert TopOf(plan.groups, g, count, net, tops[g]);
      }
    }
    if |plan.groups| == 1 {
      assert TopOf(plan.groups, 0, count, net, tops[0]);
      assert |plan.groups[0]| == 1 ==> plan.groups[0][0] < count;
    }
  }

  lemma TopMeans(plan: CanonicalPlan.Plan, net: Network, root: nat, tops: seq<nat>, g: nat, fired: set<nat>)
    requires CanonicalPlan.ValidIndexes(plan.groups, |plan.conditions|) && TreeOf(plan, net, root, tops)
    requires ChildrenFirst(net)
    requires g < |plan.groups|
    ensures tops[g] < |net|
    ensures Holds(net, tops[g], fired) <==> Complete(plan.groups[g], fired)
  {
    var group, top := plan.groups[g], tops[g];
    assert TopOf(plan.groups, g, |plan.conditions|, net, top);
    forall k | 0 <= k < |group|
      ensures group[k] < |net| && (Holds(net, group[k], fired) <==> group[k] in fired)
    {
      assert net[group[k]].Leaf?;
    }
    if |group| != 1 {
      assert net[top].children == group;
      forall k: nat | k < |group|
        ensures HoldsAt(net, Edge(top, k), fired) <==> group[k] in fired
      {
        assert IsEdge(net, Edge(top, k));
      }
    }
  }

  /**
    The formula of the tree is the meaning of the plan, whichever leaves have fired, also where single
    members and a single group leave out their node.
   */
  lemma TreeKeepsMeaning(plan: CanonicalPlan.Plan, net: Network, root: nat, tops: seq<nat>, fired: set<nat>)
    requires CanonicalPlan.ValidIndexes(plan.groups, |plan.conditions|) && TreeOf(plan, net, root, tops)
    ensures ChildrenFirst(net) && root < |net|
    ensures Holds(net, root, fired) <==> Satisfied(plan.groups, fired)
  {
    TreeIsOrdered(plan, net, root, tops);
    forall g | 0 <= g < |plan.groups|
      ensures tops[g] < |net| && (Holds(net, tops[g], fired) <==> Complete(plan.groups[g], fired))
    {
      TopMeans(plan, net, root, tops, g, fired);
    }
    if |plan.groups| != 1 {
      assert net[root].children == tops;
      forall g: nat | g < |tops|
        ensures HoldsAt(net, Edge(root, g), fired) <==> Complete(plan.groups[g], fired)
      {
        assert IsEdge(net, Edge(root, g));
      }
      if Satisfied(plan.groups, fired) {
        var g :| 0 <= g < |plan.groups| && Complete(plan.groups[g], fired);
        assert HoldsAt(net, Edge(root, g), fired);
      }
    }
  }

  lemma HasParentIn(net: Network, e: Edge)
    requires IsEdge(net, e)
    ensures HasParent(net, Child(net, e))
  {
  }

  lemma TopHasParent(plan: CanonicalPlan.Plan, net: Network, root: nat, tops: seq<nat>, g: nat)
    requires TreeOf(plan, net, root, tops) && g < |tops|
    ensures tops[g] == root || (root < |net| && HasParent(net, tops[g]))
  {
    if |plan.groups| != 1 {
      HasParentIn(net, Edge(root, g));
    }
  }

  /** For a canonical plan no leaf is idle: the tree is a well-formed network, with its root last. */
  lemma CanonicalTreeIsWellFormed(plan: CanonicalPlan.Plan, net: Network, root: nat, tops: seq<nat>)
    requires CanonicalPlan.ValidIndexes(plan.groups, |plan.conditions|) && TreeOf(plan, net, root, tops)
    requires CanonicalPlan.FirstUseOrder(Flatten(plan.groups), |plan.conditions|)
    ensures WellFormed(net) && root == Root(net)
  {
    var count := |plan.conditions|;
    TreeIsOrdered(plan, net, root, tops);
    forall i: nat | i < |net|
      ensures i == root || HasParent(net, i)
    {
      if i < count {
        LeafHasParent(plan, net, root, tops, i);
      } else if i in tops {
        var g :| 0 <= g < |tops| && tops[g] == i;
        TopHasParent(plan, net, root, tops, g);
      }
    }
    RootIsLast(plan, net, root, tops);
  }

  lemma LeafHasParent(plan: CanonicalPlan.Plan, net: Network, root: nat, tops: seq<nat>, c: nat)
    requires CanonicalPlan.ValidIndexes(plan.groups, |plan.conditions|) && TreeOf(plan, net, root, tops)
    requires c < |plan.conditions|
    requires CanonicalPlan.FirstUseOrder(Flatten(plan.groups), |plan.conditions|)
    ensures c == root || HasParent(net, c)
  {
    hide Flatten, CanonicalPlan.FirstUseOrder, CanonicalPlan.ValidIndexes, HasParent;
    CanonicalPlan.FirstUseOrderCovers(Flatten(plan.groups), |plan.conditions|);
    assert c in Flatten(plan.groups);
    var j :| 0 <= j < |Flatten(plan.groups)| && Flatten(plan.groups)[j] == c;
    var g, k := FlattenedFrom(plan.groups, j);
    assert TopOf(plan.groups, g, |plan.conditions|, net, tops[g]);
    if |plan.groups[g]| == 1 {
      TopHasParent(plan, net, root, tops, g);
    } else {
      HasParentIn(net, Edge(tops[g], k));
    }
  }

  lemma RootIsLast(plan: CanonicalPlan.Plan, net: Network, root: nat, tops: seq<nat>)
    requires CanonicalPlan.ValidIndexes(plan.groups, |plan.conditions|) && TreeOf(plan, net, root, tops)
    requires CanonicalPlan.FirstUseOrder(Flatten(plan.groups), |plan.conditions|)
    ensures 0 < |net| && root == |net| - 1
  {
    var count := |plan.conditions|;
    if |plan.groups| == 1 {
      assert TopOf(plan.groups, 0, count, net, tops[0]);
      assert tops == [tops[0]];
      assert forall i :: i in tops ==> i == root;
      if count < |net| {
        assert |net| - 1 in tops || |net| - 1 == root;
      } else if |plan.groups[0]| == 1 {
        CanonicalPlan.FirstUseOrderCovers(Flatten(plan.groups), count);
        assert plan.groups[0][0] < count;
        assert count - 1 in Flatten(plan.groups);
        var j :| 0 <= j < |Flatten(plan.groups)| && Flatten(plan.groups)[j] == count - 1;
        var g, k := FlattenedFrom(plan.groups, j);
      }
    }
  }

  // From the plan to the verdict of the running tree

  /** Latched conditions have fired in every state of every run of the tree. */
  lemma LatchedHaveFired(plan: CanonicalPlan.Plan, initial: seq<bool>, monitors: seq<Monitor>,
                         net: Network, root: nat, tops: seq<nat>, trace: seq<State>, steps: seq<Step>, n: nat)
    requires TreeOf(plan, net, root, tops) && MonitorsOf(plan, initial, monitors)
    requires IsRunFrom(net, Once, Ready(monitors), trace, steps) && n < |trace|
    ensures Shape(net, trace[n]) && Latched(initial) <= FiredLeaves(net, trace[n])
  {
    hide IsRunFrom;
    StateHasShape(net, Once, Ready(monitors), trace, steps, n);
    forall c | c in Latched(initial)
      ensures c in FiredLeaves(net, trace[n])
    {
      assert monitors[c].ZeroDuration? && net[c].Leaf?;
      ReadyLeavesStayFired(net, Once, Ready(monitors), trace, steps, n, c);
    }
  }

  /**
    The whole way: build the tree of a canonical plan and run it once, without cancelling it.  When nothing
    is left to do, the root has emitted once if some group has all of its members satisfied at the start or
    fired since, and nothing otherwise.
   */
  lemma TreeDecidesThePlan(plan: CanonicalPlan.Plan, initial: seq<bool>, monitors: seq<Monitor>,
                           net: Network, root: nat, tops: seq<nat>, trace: seq<State>, steps: seq<Step>, n: nat)
    requires CanonicalPlan.ValidIndexes(plan.groups, |plan.conditions|) && TreeOf(plan, net, root, tops)
    requires CanonicalPlan.FirstUseOrder(Flatten(plan.groups), |plan.conditions|)
    requires MonitorsOf(plan, initial, monitors)
    requires IsRunFrom(net, Once, Ready(monitors), trace, steps) && n < |trace|
    requires Shape(net, trace[n]) && Quiet(net, trace[n]) && !trace[n].cancelled
    ensures root < |trace[n].nodes|
    ensures |trace[n].nodes[root].log|
            == if Satisfied(plan.groups, Latched(initial) + FiredLeaves(net, trace[n])) then 1 else 0
  {
    hide IsRunFrom, Quiet;
    var fired := FiredLeaves(net, trace[n]);
    CanonicalTreeIsWellFormed(plan, net, root, tops);
    TreeKeepsMeaning(plan, net, root, tops, fired);
    LatchedHaveFired(plan, initial, monitors, net, root, tops, trace, steps, n);
    assert Latched(initial) + fired == fired;
    var trace', steps', offset := AsRun(net, Once, Ready(monitors), trace, steps);
    assert trace'[offset + n] == trace[n];
    RestingVerdict(net, trace', steps', offset + n);
  }

  /** If the start-up check is positive, every run that comes to rest uncancelled has emitted. */
  lemma StartUpSatisfactionIsNotLost(plan: CanonicalPlan.Plan, initial: seq<bool>, monitors: seq<Monitor>,
                                     net: Network, root: nat, tops: seq<nat>,
                                     trace: seq<State>, steps: seq<Step>, n: nat)
    requires CanonicalPlan.ValidIndexes(plan.groups, |plan.conditions|) && TreeOf(plan, net, root, tops)
    requires CanonicalPlan.FirstUseOrder(Flatten(plan.groups), |plan.conditions|)
    requires MonitorsOf(plan, initial, monitors) && Satisfied(plan.groups, Latched(initial))
    requires IsRunFrom(net, Once, Ready(monitors), trace, steps) && n < |trace|
    requires Shape(net, trace[n]) && Quiet(net, trace[n]) && !trace[n].cancelled
    ensures root < |trace[n].nodes| && |trace[n].nodes[root].log| == 1
  {
    hide IsRunFrom, Quiet, TreeOf;
    TreeDecidesThePlan(plan, initial, monitors, net, root, tops, trace, steps, n);
    var g :| 0 <= g < |plan.groups| && Complete(plan.groups[g], Latched(initial));
    assert Complete(plan.groups[g], Latched(initial) + FiredLeaves(net, trace[n]));
  }
}
