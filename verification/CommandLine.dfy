/** `Parse`: from arguments to a plan, with every diagnostic in its order. */
module CommandLine {
  import opened Arguments
  import opened CanonicalPlan
  import opened Options
  import Separator
  import opened Sequences

  datatype ParseError = Usage(error: Arguments.Error) | Condition(fault: SpecError)

  datatype Parsed = Planned(plan: Plan, eventsFD: Descriptor) | Rejected(error: ParseError)

  function Conditions(args: seq<string>): Result<seq<string>> {
    if args == [] then Err(MissingCondition) else Scan(args, [], false)
  }

  function SplitAll(values: seq<string>): seq<seq<string>> {
    seq(|values|, g requires 0 <= g < |values| => Separator.Split(values[g]))
  }

  function Planning(groups: seq<seq<string>>, fd: Descriptor, p: Platform): Parsed {
    var members := Flatten(groups);
    if FirstFault(Syntax, members, p).Some? then Rejected(Condition(FirstFault(Syntax, members, p).value))
    else if FirstFault(Capability, members, p).Some? then Rejected(Condition(FirstFault(Capability, members, p).value))
    else
      match Canonicalised(groups, p)
      case Bad(error) => Rejected(Condition(error))
      case Good(plan) => Planned(plan, fd)
  }

  function Parsing(args: seq<string>, atoi: string -> Option<int>, p: Platform): Parsed {
    match Strip(args, [], Unset, atoi)
    case Err(error) => Rejected(Usage(error))
    case Ok(stripped) =>
      match Conditions(stripped.0)
      case Err(error) => Rejected(Usage(error))
      case Ok(values) => Planning(SplitAll(values), stripped.1, p)
  }

  /** One validation pass: every member of every group, in order, up to the first fault. */
  method Validate(pass: Pass, groups: seq<seq<string>>, p: Platform) returns (fault: Option<SpecError>)
    ensures fault == FirstFault(pass, Flatten(groups), p)
  {
    hide Fault;
    for g := 0 to |groups|
      invariant FirstFault(pass, Flatten(groups[..g]), p) == None
    {
      var group := groups[g];
      FlattenThrough(groups, g);
      FaultsConcatenate(pass, Flatten(groups[..g]), group, p);
      for i := 0 to |group|
        invariant FirstFault(pass, group, p) == FirstFault(pass, group[i..], p)
      {
        assert group[i..][1..] == group[i + 1..];
        fault := Fault(pass, group[i], p);
        if fault.Some? {
          FlattenPrefix(groups, g + 1);
          var done, all := Flatten(groups[..g + 1]), Flatten(groups);
          assert all == done + all[|done|..];
          FaultsConcatenate(pass, done, all[|done|..], p);
          return;
        }
      }
    }
    assert groups[..|groups|] == groups;
    return None;
  }

  method Parse(args: seq<string>, atoi: string -> Option<int>, p: Platform) returns (r: Parsed)
    ensures r == Parsing(args, atoi, p)
  {
    hide Strip, Scan, FirstFault, Canonicalised;
    var stripped := ParseEventsFDOptions(args, atoi);
    if stripped.Err? {
      return Rejected(Usage(stripped.error));
    }
    var values := ParseConditionArguments(stripped.value.0);
    if values.Err? {
      return Rejected(Usage(values.error));
    }
    var groups: seq<seq<string>> := [];
    for g := 0 to |values.value|
      invariant groups == SplitAll(values.value[..g])
    {
      groups := groups + [Separator.Split(values.value[g])];
    }
    assert groups == SplitAll(values.value);
    var fault := Validate(Syntax, groups, p);
    if fault.Some? {
      return Rejected(Condition(fault.value));
    }
    fault := Validate(Capability, groups, p);
    if fault.Some? {
      return Rejected(Condition(fault.value));
    }
    var plan := Canonicalise(groups, p);
    if plan.Bad? {
      return Rejected(Condition(plan.error));
    }
    return Planned(plan.value, stripped.value.1);
  }

  // Validation is enough

  /** Signals are reported as supported exactly when they can be looked up. */
  predicate SupportAgrees(p: Platform) {
    && p.signalSupported == p.resolveSignal("USR1").Some?
    && p.signalSupported == p.resolveSignal("USR2").Some?
  }

  /** Together the two passes let through exactly what resolves, except for the empty path. */
  lemma ValidatedResolves(raw: string, p: Platform)
    requires SupportAgrees(p)
    ensures Fault(Syntax, raw, p) == None && Fault(Capability, raw, p) == None <==>
            Fault(Resolution, raw, p) == None && raw != FILE
  {
    if HasPrefix(raw, FILE) {
      assert raw == FILE + raw[|FILE|..];
      assert raw[|FILE|..] == "" <==> raw == FILE;
      assert raw[0] == 'f';
    } else if HasPrefix(raw, DURATION) {
      assert raw[0] == 'd';
    } else if HasPrefix(raw, DATETIME) {
      assert raw[0] == 'd';
    }
  }

  /** Once both passes succeed, canonicalisation cannot fail. */
  lemma ValidationIsEnough(groups: seq<seq<string>>, p: Platform)
    requires SupportAgrees(p)
    requires FirstFault(Syntax, Flatten(groups), p) == None && FirstFault(Capability, Flatten(groups), p) == None
    ensures Canonicalised(groups, p).Good?
  {
    hide Fault, FirstFault;
    var members := Flatten(groups);
    FirstFaultIsFirst(Syntax, members, p, BadFile(""));
    FirstFaultIsFirst(Capability, members, p, BadFile(""));
    FirstFaultIsFirst(Resolution, members, p, BadFile(""));
    forall i | 0 <= i < |members|
      ensures Fault(Resolution, members[i], p) == None
    {
      ValidatedResolves(members[i], p);
    }
  }

  /**
    Which diagnostic comes first: the first syntax fault among all members of all groups, however late it
    stands, and a capability fault only when there is none.
   */
  lemma SyntaxComesFirst(groups: seq<seq<string>>, fd: Descriptor, p: Platform, error: SpecError)
    requires SupportAgrees(p)
    ensures Planning(groups, fd, p) == Rejected(Condition(error)) <==>
            var members := Flatten(groups);
            || (exists k: nat :: FaultAt(Syntax, members, p, k, error))
            || (Faultless(Syntax, members, p) && exists k: nat :: FaultAt(Capability, members, p, k, error))
    ensures Planning(groups, fd, p).Planned? <==>
            Faultless(Syntax, Flatten(groups), p) && Faultless(Capability, Flatten(groups), p)
  {
    hide Fault, FirstFault, Canonicalised, Faultless, FaultAt;
    var members := Flatten(groups);
    FirstFaultIsFirst(Syntax, members, p, error);
    FirstFaultIsFirst(Capability, members, p, error);
    if FirstFault(Syntax, members, p) == None && FirstFault(Capability, members, p) == None {
      ValidationIsEnough(groups, p);
    }
    if FirstFault(Syntax, members, p).Some? {
      FaultIsNotFaultless(members, p, FirstFault(Syntax, members, p).value);
    }
  }

  lemma FaultIsNotFaultless(members: seq<string>, p: Platform, error: SpecError)
    requires FirstFault(Syntax, members, p) == Some(error)
    ensures !Faultless(Syntax, members, p)
  {
    FirstFaultIsFirst(Syntax, members, p, error);
  }

  /** Usage errors come before all others: those of the descriptor option first, then those of the rest. */
  lemma UsageErrorsInOrder(args: seq<string>, atoi: string -> Option<int>, p: Platform, error: Arguments.Error)
    ensures Parsing(args, atoi, p) == Rejected(Usage(error)) <==>
            || Strips(args, atoi, Err(error))
            || exists kept, fd :: Strips(args, atoi, Ok((kept, fd))) && Wrong(kept, error)
  {
    hide Strip, Scan, Strips, Wrong, Planning;
    StripsByTheGrammar(args, atoi, Err(error));
    var stripped := Strip(args, [], Unset, atoi);
    StripsByTheGrammar(args, atoi, stripped);
    PlanningHasNoUsageErrors();
    if stripped.Ok? {
      var (kept, fd) := stripped.value;
      RefusesWhatIsWrong(kept, error);
      forall k, d | Strips(args, atoi, Ok((k, d)))
        ensures k == kept
      {
        StripsByTheGrammar(args, atoi, Ok((k, d)));
      }
    } else {
      forall k, d
        ensures !Strips(args, atoi, Ok((k, d)))
      {
        StripsByTheGrammar(args, atoi, Ok((k, d)));
      }
    }
  }

  lemma PlanningHasNoUsageErrors()
    ensures forall groups, fd, p, error :: Planning(groups, fd, p) != Rejected(Usage(error))
  {
    hide Canonicalised, FirstFault, Flatten;
  }

  /** Inserting one valid option changes nothing but the descriptor of the plan, and no diagnostic. */
  lemma OptionChangesOnlyTheDescriptor(before: seq<string>, option: seq<string>, after: seq<string>, value: string,
                                       atoi: string -> Option<int>, p: Platform)
    requires NoFDOption(before) && NoFDOption(after) && FDOption(option, value)
    requires atoi(value).Some? && atoi(value).value >= 3
    ensures var with, without := Parsing(before + option + after, atoi, p), Parsing(before + after, atoi, p);
            match without
            case Planned(plan, fd) => fd == Unset && with == Planned(plan, Descriptor(atoi(value).value))
            case Rejected(error) => with == Rejected(error)
  {
    hide Strip, Scan, Canonicalised, FirstFault;
    InsertedOption(before, option, after, value, atoi);
  }

  /** Without the descriptor option, `args` write the groups, members joined by the separator. */
  ghost predicate Spells(args: seq<string>, groups: seq<seq<string>>, atoi: string -> Option<int>)
    requires forall g :: 0 <= g < |groups| ==> groups[g] != []
  {
    match Strip(args, [], Unset, atoi)
    case Err(_) => false
    case Ok(stripped) => exists first, alternatives :: Writes(stripped.0, first, alternatives, JoinAll(groups))
  }

  function JoinAll(groups: seq<seq<string>>): seq<string>
    requires forall g :: 0 <= g < |groups| ==> groups[g] != []
  {
    seq(|groups|, g requires 0 <= g < |groups| => Separator.Join(groups[g]))
  }

  /** What a successful parse yields: a canonical plan that means what the written groups mean. */
  lemma PlanMeansTheArguments(args: seq<string>, atoi: string -> Option<int>, p: Platform, truth: Spec -> bool)
    returns (groups: seq<seq<string>>)
    requires Parsing(args, atoi, p).Planned?
    ensures AllResolve(groups, p) && groups != [] && (forall g :: 0 <= g < |groups| ==> groups[g] != [])
    ensures Spells(args, groups, atoi)
    ensures var plan := Parsing(args, atoi, p).plan;
            && ValidIndexes(plan.groups, |plan.conditions|) && FirstUseOrder(Flatten(plan.groups), |plan.conditions|)
            && (forall c, d :: 0 <= c < d < |plan.conditions| ==> plan.conditions[c].id != plan.conditions[d].id)
            && (PlanHolds(plan, truth) <==> RawHolds(groups, p, truth))
  {
    hide Strip, Scan, FirstFault, Fault, FirstUseOrder, PlanHolds, RawHolds, PlanOf, Resolves;
    var stripped := Strip(args, [], Unset, atoi).value;
    var values := Conditions(stripped.0).value;
    AcceptsTheGrammar(stripped.0, values);
    groups := SplitAll(values);
    ResolvesIsFaultless(Flatten(groups), p);
    GroupsResolve(groups, p);
    PlanIsCanonical(groups, p);
    MeaningKept(groups, p, truth);
    forall g | 0 <= g < |values|
      ensures Separator.Join(groups[g]) == values[g]
    {
      Separator.JoinRestores(values[g]);
    }
    assert JoinAll(groups) == values;
  }
}
