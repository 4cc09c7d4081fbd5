/** The order of a canonical plan: conditions and groups list first uses, by the conditions themselves. */
module PlanOrder {
  import opened CanonicalPlan
  import opened Sequences

  predicate Agree(a: Resolved, b: Resolved) {
    a.identity == b.identity <==> a.spec == b.spec
  }

  /** One spec for each identity, and one identity for each spec. */
  ghost predicate Coherent(entries: seq<Resolved>) {
    forall i, j :: 0 <= i < |entries| && 0 <= j < |entries| ==> Agree(entries[i], entries[j])
  }

  lemma MembersCohere(members: seq<string>, p: Platform)
    requires Resolves(members, p)
    ensures Coherent(Resolve(members, p))
  {
    hide ParseConditionSpec, IdentityID;
    var entries := Resolve(members, p);
    forall i, j | 0 <= i < |entries| && 0 <= j < |entries|
      ensures Agree(entries[i], entries[j])
    {
      SpecCarriesIdentity(members[i], p);
      SpecCarriesIdentity(members[j], p);
      if entries[i].identity == entries[j].identity {
        SameIdentitySameSpec(members[i], members[j], p);
      } else {
        IDsAreInjective(entries[i].identity, entries[j].identity);
      }
    }
  }

  lemma CoherentPart(entries: seq<Resolved>, part: seq<Resolved>)
    requires Coherent(entries) && forall i :: 0 <= i < |part| ==> part[i] in entries
    ensures Coherent(part)
  {
    hide Agree;
    forall i, j | 0 <= i < |part| && 0 <= j < |part|
      ensures Agree(part[i], part[j])
    {
      var a :| 0 <= a < |entries| && entries[a] == part[i];
      var b :| 0 <= b < |entries| && entries[b] == part[j];
      assert Agree(entries[a], entries[b]);
    }
  }

  lemma KnownSpec(used: seq<Resolved>, entry: Resolved)
    requires Coherent(used + [entry])
    ensures Position(used, entry.identity) < |used| <==> entry.spec in Specs(used)
    ensures Position(used, entry.identity) < |used| ==> used[Position(used, entry.identity)].spec == entry.spec
  {
    hide Position;
    forall c | 0 <= c < |used|
      ensures used[c].identity == entry.identity <==> used[c].spec == entry.spec
    {
      assert Agree((used + [entry])[c], (used + [entry])[|used|]);
    }
    hide Coherent;
    var c := Position(used, entry.identity);
    if c < |used| {
      assert Specs(used)[c] == entry.spec;
    }
  }

  lemma RegisterFirstUse(used: seq<Resolved>, entries: seq<Resolved>, entry: Resolved)
    requires FirstUses(Specs(used), Specs(entries)) && Coherent(used + [entry])
    ensures FirstUses(Specs(Register(used, entry)), Specs(entries + [entry]))
  {
    hide Position, FirstUses, Coherent;
    KnownSpec(used, entry);
    UseOneMore(Specs(used), Specs(entries), entry.spec);
    assert Specs(entries + [entry]) == Specs(entries) + [entry.spec];
    assert Specs(used + [entry]) == Specs(used) + [entry.spec];
  }

  lemma {:induction false} UsedAreFirstUses(entries: seq<Resolved>)
    requires Coherent(entries)
    ensures FirstUses(Specs(Used(entries)), Specs(entries))
    decreases |entries|
  {
    if entries == [] {
      assert Specs([]) == [];
    } else {
      hide Position, FirstUses, Coherent, Register, OneEach, Known;
      var n := |entries| - 1;
      var before, entry := entries[..n], entries[n];
      var used := Used(before);
      CoherentPart(entries, before);
      UsedAreFirstUses(before);
      UsedOnce(before);
      CoherentPart(entries, used + [entry]);
      RegisterFirstUse(used, before, entry);
      assert entries == before + [entry];
    }
  }

  /** The conditions that the indexes of a group stand for, in their order. */
  function Picked(indexes: seq<nat>, conditions: seq<Spec>): seq<Spec>
    requires forall a :: 0 <= a < |indexes| ==> indexes[a] < |conditions|
  {
    seq(|indexes|, a requires 0 <= a < |indexes| => conditions[indexes[a]])
  }

  lemma IndexesInRange(entries: seq<Resolved>, used: seq<Resolved>)
    requires Known(entries, used) && OneEach(used)
    ensures forall a :: 0 <= a < |Indexes(entries, used)| ==> Indexes(entries, used)[a] < |used|
  {
    IndexesMean(entries, used);
    assert forall a :: 0 <= a < |Indexes(entries, used)| ==> Indexes(entries, used)[a] in Indexes(entries, used);
  }

  lemma {:induction false} IndexesAreFirstUses(entries: seq<Resolved>, used: seq<Resolved>)
    requires Known(entries, used) && OneEach(used) && Coherent(used + entries)
    ensures forall a :: 0 <= a < |Indexes(entries, used)| ==> Indexes(entries, used)[a] < |used|
    ensures FirstUses(Picked(Indexes(entries, used), Specs(used)), Specs(entries))
    decreases |entries|
  {
    IndexesInRange(entries, used);
    if entries == [] {
      assert Specs([]) == [];
    } else {
      hide Position, FirstUses, Coherent, OneEach, Known, Mention, Indexes;
      var n := |entries| - 1;
      var before, entry := entries[..n], entries[n];
      KnownMember(entries, used, n);
      CoherentPart(used + entries, used + before);
      CoherentPart(used + entries, used + [entry]);
      IndexesAreFirstUses(before, used);
      SpecsApart(used, used + entries);
      MentionFirstUse(Indexes(before, used), used, before, entry);
      LastMention(entries, used);
      assert entries == before + [entry];
    }
  }

  lemma LastMention(entries: seq<Resolved>, used: seq<Resolved>)
    requires entries != []
    ensures var n := |entries| - 1;
            Indexes(entries, used) == Mention(Indexes(entries[..n], used), Position(used, entries[n].identity))
  {
  }

  lemma MentionFirstUse(indexes: seq<nat>, used: seq<Resolved>, entries: seq<Resolved>, entry: Resolved)
    requires forall a :: 0 <= a < |indexes| ==> indexes[a] < |used|
    requires FirstUses(Picked(indexes, Specs(used)), Specs(entries)) && Distinct(Specs(used))
    requires Coherent(used + [entry]) && Position(used, entry.identity) < |used|
    ensures var more := Mention(indexes, Position(used, entry.identity));
            && (forall a :: 0 <= a < |more| ==> more[a] < |used|)
            && FirstUses(Picked(more, Specs(used)), Specs(entries + [entry]))
  {
    hide Position, FirstUses, Coherent, Mention, Distinct;
    KnownSpec(used, entry);
    UseOneMore(Picked(indexes, Specs(used)), Specs(entries), entry.spec);
    PickedMore(indexes, Position(used, entry.identity), Specs(used));
    assert Specs(entries + [entry]) == Specs(entries) + [entry.spec];
  }

  lemma SpecsApart(used: seq<Resolved>, all: seq<Resolved>)
    requires OneEach(used) && Coherent(all) && used <= all
    ensures Distinct(Specs(used))
  {
    forall c, d | 0 <= c < d < |used|
      ensures used[c].spec != used[d].spec
    {
      assert used[c] == all[c] && used[d] == all[d];
    }
  }

  lemma PickedMore(indexes: seq<nat>, index: nat, conditions: seq<Spec>)
    requires index < |conditions| && Distinct(conditions)
    requires forall a :: 0 <= a < |indexes| ==> indexes[a] < |conditions|
    ensures conditions[index] in Picked(indexes, conditions) <==> index in indexes
    ensures forall a :: 0 <= a < |Mention(indexes, index)| ==> Mention(indexes, index)[a] < |conditions|
    ensures Picked(Mention(indexes, index), conditions)
            == if index in indexes then Picked(indexes, conditions)
               else Picked(indexes, conditions) + [conditions[index]]
  {
    if a :| 0 <= a < |indexes| && Picked(indexes, conditions)[a] == conditions[index] {
      assert indexes[a] == index;
    }
    if index in indexes {
      var a :| 0 <= a < |indexes| && indexes[a] == index;
      assert Picked(indexes, conditions)[a] == conditions[index];
    }
  }

  /**
    The conditions of a plan are those written, each at its first use among all members; each group lists
    the conditions of its own members, each at its first use among them.
   */
  lemma PlanListsFirstUses(groups: seq<seq<string>>, p: Platform)
    requires Resolves(Flatten(groups), p)
    ensures FirstUses(PlanOf(groups, p).conditions, Specs(Resolve(Flatten(groups), p)))
    ensures forall g :: 0 <= g < |groups| ==>
              && g < |PlanOf(groups, p).groups| && Resolves(groups[g], p)
              && (forall a :: 0 <= a < |PlanOf(groups, p).groups[g]| ==>
                   PlanOf(groups, p).groups[g][a] < |PlanOf(groups, p).conditions|)
              && FirstUses(Picked(PlanOf(groups, p).groups[g], PlanOf(groups, p).conditions),
                           Specs(Resolve(groups[g], p)))
  {
    hide ParseConditionSpec, Used, Indexes, Position, FirstUses, Coherent;
    var all := Resolve(Flatten(groups), p);
    var used := Used(all);
    GroupsResolve(groups, p);
    MembersCohere(Flatten(groups), p);
    UsedAreFirstUses(all);
    UsedOnce(all);
    forall g | 0 <= g < |groups|
      ensures forall a :: 0 <= a < |Indexes(Resolve(groups[g], p), used)| ==>
                Indexes(Resolve(groups[g], p), used)[a] < |used|
      ensures FirstUses(Picked(Indexes(Resolve(groups[g], p), used), Specs(used)), Specs(Resolve(groups[g], p)))
    {
      AllKnown(groups, used, p, g);
      GroupWithin(groups, p, g);
      CoherentPart(all, used + Resolve(groups[g], p));
      IndexesAreFirstUses(Resolve(groups[g], p), used);
    }
  }

  lemma GroupWithin(groups: seq<seq<string>>, p: Platform, g: nat)
    requires Resolves(Flatten(groups), p) && g < |groups| && Resolves(groups[g], p)
    ensures forall i :: 0 <= i < |groups[g]| ==> Resolve(groups[g], p)[i] in Resolve(Flatten(groups), p)
  {
    hide ParseConditionSpec, Flatten;
    forall i | 0 <= i < |groups[g]|
      ensures Resolve(groups[g], p)[i] in Resolve(Flatten(groups), p)
    {
      FlattenAt(groups, g, i);
      var k := |Flatten(groups[..g])| + i;
      hide Resolves;
      assert Resolve(Flatten(groups), p)[k] == Resolve(groups[g], p)[i];
    }
  }
}
