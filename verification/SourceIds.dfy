/** The bookkeeping of contributing leaf IDs: `eventSources` and `appendUnique` of condition.go. */
module SourceIds {
  import opened Conditions
  import opened Sequences

  function EventSources(event: Event): seq<string> {
    if event.sources != [] then event.sources
    else if event.id == "" then []
    else [event.id]
  }

  function Elements(ids: seq<string>): set<string> {
    set id | id in ids
  }

  function AppendUnique(values: seq<string>, additions: seq<string>): seq<string>
    decreases |additions|
  {
    if additions == [] then values
    else AppendUnique(if additions[0] in values then values else values + [additions[0]], additions[1..])
  }

  /** Nothing is repeated, nothing is lost, nothing is invented, and `values` come first as they are. */
  lemma {:induction false} AppendUniqueIsUnion(values: seq<string>, additions: seq<string>)
    ensures Distinct(values) ==> Distinct(AppendUnique(values, additions))
    ensures Elements(AppendUnique(values, additions)) == Elements(values) + Elements(additions)
    ensures values <= AppendUnique(values, additions)
    decreases |additions|
  {
    if additions != [] {
      var first := if additions[0] in values then values else values + [additions[0]];
      AppendUniqueIsUnion(first, additions[1..]);
      assert Elements(first) == Elements(values) + {additions[0]};
      assert Elements(additions) == {additions[0]} + Elements(additions[1..]);
    }
  }

  /** What is appended keeps the order of first use: `list` is everything used so far, in the order of use. */
  lemma {:induction false} AppendUniqueKeepsOrder(values: seq<string>, additions: seq<string>, list: seq<string>)
    requires FirstUses(values, list)
    ensures FirstUses(AppendUnique(values, additions), list + additions)
    decreases |additions|
  {
    if additions == [] {
      assert list + additions == list;
    } else {
      UseOneMore(values, list, additions[0]);
      var first := if additions[0] in values then values else values + [additions[0]];
      AppendUniqueKeepsOrder(first, additions[1..], list + [additions[0]]);
      assert list + [additions[0]] + additions[1..] == list + additions;
    }
  }

  /** The result lists the first uses of `values` and then `additions`, if `values` has no repetitions. */
  lemma AppendUniqueIsFirstUses(values: seq<string>, additions: seq<string>)
    requires Distinct(values)
    ensures FirstUses(AppendUnique(values, additions), values + additions)
  {
    DistinctUsesItself(values);
    AppendUniqueKeepsOrder(values, additions, values);
  }

  /** The loops of `appendUnique`, which grow `values` in place. */
  method AppendUniqueInto(initial: seq<string>, additions: seq<string>) returns (values: seq<string>)
    ensures values == AppendUnique(initial, additions)
  {
    values := initial;
    var i := 0;
    while i < |additions|
      invariant 0 <= i <= |additions|
      invariant AppendUnique(values, additions[i..]) == AppendUnique(initial, additions)
    {
      var seen := Seen(values, additions[i]);
      assert additions[i..][1..] == additions[i + 1..];
      if !seen {
        values := values + [additions[i]];
      }
      i := i + 1;
    }
  }

  method Seen(values: seq<string>, addition: string) returns (seen: bool)
    ensures seen <==> addition in values
  {
    seen := false;
    var j := 0;
    while j < |values|
      invariant 0 <= j <= |values|
      invariant !seen && addition !in values[..j]
    {
      if values[j] == addition {
        seen := true;
        break;
      }
      j := j + 1;
    }
  }

  /** The merge an AND node makes of the sources of its children, in child order. */
  function Merge(sources: seq<seq<string>>): seq<string> {
    if sources == [] then []
    else AppendUnique(Merge(sources[..|sources| - 1]), sources[|sources| - 1])
  }

  lemma {:induction false} MergeIsUnion(sources: seq<seq<string>>)
    ensures Distinct(Merge(sources))
    ensures forall id :: id in Merge(sources) <==> exists k :: 0 <= k < |sources| && id in sources[k]
  {
    if sources != [] {
      var last := |sources| - 1;
      MergeIsUnion(sources[..last]);
      AppendUniqueIsUnion(Merge(sources[..last]), sources[last]);
      forall id
        ensures id in Merge(sources) <==> exists k :: 0 <= k < |sources| && id in sources[k]
      {
        assert id in Merge(sources) <==> id in Elements(Merge(sources[..last])) + Elements(sources[last]);
        if id in sources[last] {
          assert 0 <= last < |sources| && id in sources[last];
        } else if id in Merge(sources[..last]) {
          var k :| 0 <= k < last && id in sources[..last][k];
          assert id in sources[k];
        }
      }
    }
  }

  /** The merge lists the first uses of the sources of the first child, then of the second, and so on. */
  lemma {:induction false} MergeIsFirstUses(sources: seq<seq<string>>)
    ensures FirstUses(Merge(sources), Flatten(sources))
    decreases |sources|
  {
    if sources != [] {
      var last := |sources| - 1;
      MergeIsFirstUses(sources[..last]);
      AppendUniqueKeepsOrder(Merge(sources[..last]), sources[last], Flatten(sources[..last]));
    }
  }
}
