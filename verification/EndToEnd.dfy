/** From the arguments to the verdict of the running tree. */
module EndToEnd {
  import opened Arguments
  import opened CanonicalPlan
  import opened CommandLine
  import opened Conditions
  import opened ConditionTree
  import opened NetworkStart
  import opened NetworkSteps
  import opened NetworkVerdict
  import opened Options

  /** Which specs are true, when the conditions with an index in `satisfied` are. */
  ghost function Truth(plan: Plan, satisfied: set<nat>): Spec -> bool {
    spec => exists c :: 0 <= c < |plan.conditions| && c in satisfied && plan.conditions[c] == spec
  }

  lemma TruthOfIndex(plan: Plan, satisfied: set<nat>, c: nat)
    requires c < |plan.conditions|
    requires forall a, b :: 0 <= a < b < |plan.conditions| ==> plan.conditions[a].id != plan.conditions[b].id
    ensures Truth(plan, satisfied)(plan.conditions[c]) <==> c in satisfied
  {
  }

  lemma PlanIsSatisfied(plan: Plan, satisfied: set<nat>)
    requires ValidIndexes(plan.groups, |plan.conditions|)
    requires forall a, b :: 0 <= a < b < |plan.conditions| ==> plan.conditions[a].id != plan.conditions[b].id
    ensures PlanHolds(plan, Truth(plan, satisfied)) <==> Satisfied(plan.groups, satisfied)
  {
    hide Truth;
    var truth := Truth(plan, satisfied);
    forall g: nat | g < |plan.groups|
      ensures GroupHolds(plan, g, truth) <==> Complete(plan.groups[g], satisfied)
    {
      forall c | c in plan.groups[g]
        ensures truth(plan.conditions[c]) <==> c in satisfied
      {
        TruthOfIndex(plan, satisfied, c);
      }
    }
    assert forall g: nat :: g < |plan.groups| ==> (GroupHolds(plan, g, truth) <==> Complete(plan.groups[g], satisfied));
  }

  /**
    Whatever arguments parse, and however the tree built for them is scheduled: at rest and uncancelled, the
    root has emitted exactly once if some written group has every member satisfied at the start or fired
    since, and has stayed silent otherwise.
   */
  lemma ArgumentsDecideTheVerdict(
      args: seq<string>, atoi: string -> Option<int>, p: Platform, initial: seq<bool>, monitors: seq<Monitor>,
      net: Network, root: nat, tops: seq<nat>, trace: seq<State>, steps: seq<Step>, n: nat)
    returns (groups: seq<seq<string>>)
    requires Parsing(args, atoi, p).Planned?
    requires var plan := Parsing(args, atoi, p).plan;
             TreeOf(plan, net, root, tops) && MonitorsOf(plan, initial, monitors)
    requires IsRunFrom(net, Once, Ready(monitors), trace, steps) && n < |trace|
    requires Shape(net, trace[n]) && Quiet(net, trace[n]) && !trace[n].cancelled
    ensures (forall g :: 0 <= g < |groups| ==> groups[g] != []) && Spells(args, groups, atoi) && AllResolve(groups, p)
    ensures var truth := Truth(Parsing(args, atoi, p).plan, Latched(initial) + FiredLeaves(net, trace[n]));
            root < |trace[n].nodes|
            && |trace[n].nodes[root].log| == if RawHolds(groups, p, truth) then 1 else 0
  {
    hide Parsing, Truth, TreeOf, MonitorsOf, IsRunFrom, Quiet, PlanHolds, RawHolds, Spells, AllResolve, Satisfied;
    hide FirstUseOrder;
    var plan := Parsing(args, atoi, p).plan;
    var satisfied := Latched(initial) + FiredLeaves(net, trace[n]);
    groups := PlanMeansTheArguments(args, atoi, p, Truth(plan, satisfied));
    PlanIsSatisfied(plan, satisfied);
    TreeDecidesThePlan(plan, initial, monitors, net, root, tops, trace, steps, n);
  }
}
