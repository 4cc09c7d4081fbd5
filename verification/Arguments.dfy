/** The argument grammar: `parseConditionArguments` and `parseEventsFDOptions`. */
module Arguments {
  import opened Options

  datatype Error =
    | MissingCondition
    | OrWithoutPrecedingCondition
    | OrWithoutCondition
    | UnexpectedArgument(arg: string)
    | RepeatedEventsFD
    | MissingEventsFDValue
    | InvalidEventsFD(value: string)
    | EventsFDTooSmall

  datatype Result<T> = Ok(value: T) | Err(error: Error)

  predicate HasPrefix(s: string, prefix: string) {
    prefix <= s
  }

  const OR := "--or"
  const OR_EQ := "--or="

  /** The argument loop, from the state it has reached. */
  function Scan(args: seq<string>, values: seq<string>, pendingOr: bool): Result<seq<string>>
    decreases |args|
  {
    if args == [] then (if pendingOr then Err(OrWithoutCondition) else Ok(values))
    else
      var arg, rest := args[0], args[1..];
      var hasCondition := values != [];
      if arg == OR then
        if !hasCondition then Err(OrWithoutPrecedingCondition)
        else if pendingOr then Err(OrWithoutCondition)
        else Scan(rest, values, true)
      else if HasPrefix(arg, OR_EQ) then
        if !hasCondition then Err(OrWithoutPrecedingCondition)
        else if pendingOr then Err(OrWithoutCondition)
        else if arg[|OR_EQ|..] == "" then Err(OrWithoutCondition)
        else Scan(rest, values + [arg[|OR_EQ|..]], false)
      else if HasPrefix(arg, "-") then
        if pendingOr then Err(OrWithoutCondition) else Err(UnexpectedArgument(arg))
      else if !hasCondition then Scan(rest, [arg], pendingOr)
      else if !pendingOr then Err(UnexpectedArgument(arg))
      else Scan(rest, values + [arg], false)
  }

  method ParseConditionArguments(args: seq<string>) returns (r: Result<seq<string>>)
    ensures r == if args == [] then Err(MissingCondition) else Scan(args, [], false)
  {
    if args == [] {
      return Err(MissingCondition);
    }
    var values: seq<string> := [];
    var hasCondition, pendingOr := false, false;
    for i := 0 to |args|
      invariant hasCondition <==> values != []
      invariant Scan(args[i..], values, pendingOr) == Scan(args, [], false)
    {
      var arg := args[i];
      assert args[i..][1..] == args[i + 1..];
      if arg == OR {
        if !hasCondition {
          return Err(OrWithoutPrecedingCondition);
        }
        if pendingOr {
          return Err(OrWithoutCondition);
        }
        pendingOr := true;
      } else if HasPrefix(arg, OR_EQ) {
        if !hasCondition {
          return Err(OrWithoutPrecedingCondition);
        }
        if pendingOr {
          return Err(OrWithoutCondition);
        }
        var value := arg[|OR_EQ|..];
        if value == "" {
          return Err(OrWithoutCondition);
        }
        values := values + [value];
      } else if HasPrefix(arg, "-") {
        if pendingOr {
          return Err(OrWithoutCondition);
        }
        return Err(UnexpectedArgument(arg));
      } else {
        if !hasCondition {
          assert values + [arg] == [arg];
          values := values + [arg];
          hasCondition := true;
          continue;
        }
        if !pendingOr {
          return Err(UnexpectedArgument(arg));
        }
        values := values + [arg];
        pendingOr := false;
      }
    }
    if pendingOr {
      return Err(OrWithoutCondition);
    }
    return Ok(values);
  }

  // The grammar

  /** An alternative, written as `--or COND` or as `--or=VALUE`. */
  datatype Alternative = Separate(text: string) | Joined(text: string)

  predicate WellWritten(a: Alternative) {
    match a
    case Separate(text) => !HasPrefix(text, "-")
    case Joined(text) => text != ""
  }

  predicate AllWellWritten(alternatives: seq<Alternative>) {
    forall i :: 0 <= i < |alternatives| ==> WellWritten(alternatives[i])
  }

  function WrittenOne(a: Alternative): seq<string> {
    match a
    case Separate(text) => ["--or", text]
    case Joined(text) => ["--or=" + text]
  }

  function Written(alternatives: seq<Alternative>): seq<string> {
    if alternatives == [] then [] else WrittenOne(alternatives[0]) + Written(alternatives[1..])
  }

  function Texts(alternatives: seq<Alternative>): seq<string> {
    seq(|alternatives|, i requires 0 <= i < |alternatives| => alternatives[i].text)
  }

  lemma OrsBeginWithADash()
    ensures HasPrefix(OR, "-") && forall arg: string :: HasPrefix(arg, OR_EQ) ==> HasPrefix(arg, "-")
  {
  }

  lemma ScansAlternative(a: Alternative, values: seq<string>, more: seq<string>)
    requires WellWritten(a) && values != []
    ensures Scan(WrittenOne(a) + more, values, false) == Scan(more, values + [a.text], false)
  {
    var args := WrittenOne(a) + more;
    if a.Joined? {
      assert args[1..] == more && args[0] == OR_EQ + a.text;
      assert HasPrefix(args[0], OR_EQ) && args[0][|OR_EQ|..] == a.text && args[0] != OR;
    } else {
      assert args[0] == OR && args[1..][0] == a.text && args[1..][1..] == more;
      OrsBeginWithADash();
    }
  }

  lemma TextsFirst(alternatives: seq<Alternative>)
    requires alternatives != []
    ensures Texts(alternatives) == [alternatives[0].text] + Texts(alternatives[1..])
  {
  }

  /** The loop reads each alternative as its text. */
  lemma {:induction false} ScansWritten(alternatives: seq<Alternative>, values: seq<string>, more: seq<string>)
    requires AllWellWritten(alternatives) && values != []
    ensures Scan(Written(alternatives) + more, values, false) == Scan(more, values + Texts(alternatives), false)
    decreases |alternatives|
  {
    hide Scan, WellWritten;
    if alternatives == [] {
      assert values + Texts(alternatives) == values;
      assert Written(alternatives) + more == more;
    } else {
      var first, rest := alternatives[0], alternatives[1..];
      var one := WrittenOne(first);
      hide WrittenOne;
      TextsFirst(alternatives);
      hide Texts;
      ScansAlternative(first, values, Written(rest) + more);
      ScansWritten(rest, values + [first.text], more);
      assert Written(alternatives) + more == one + (Written(rest) + more);
      assert values + Texts(alternatives) == values + [first.text] + Texts(rest);
    }
  }

  /** Where the loop stops: at the end, or at an argument that continues no alternative. */
  predicate Stops(more: seq<string>) {
    more == [] || !IsOr(more[0]) || OrLacksItsOperand(more)
  }

  predicate IsOr(arg: string) {
    arg == "--or" || HasPrefix(arg, "--or=")
  }

  predicate OrLacksItsOperand(more: seq<string>) {
    && more != []
    && (more[0] == "--or=" || (more[0] == "--or" && (|more| == 1 || HasPrefix(more[1], "-"))))
  }

  /** Every list of arguments begins with alternatives, up to where the loop stops. */
  lemma {:induction false} WrittenBy(args: seq<string>) returns (alternatives: seq<Alternative>, more: seq<string>)
    ensures AllWellWritten(alternatives) && args == Written(alternatives) + more && Stops(more)
    decreases |args|
  {
    if Stops(args) {
      return [], args;
    }
    var arg := args[0];
    var length := if arg == OR then 2 else 1;
    var first := if arg == OR then Separate(args[1]) else Joined(arg[|OR_EQ|..]);
    var others, rest := WrittenBy(args[length..]);
    alternatives, more := [first] + others, rest;
    assert alternatives[1..] == others;
    assert first.Joined? ==> arg == OR_EQ + first.text;
    assert Written([first] + others) == args[..length] + Written(others);
  }

  /** What the loop makes of an argument it stops at. */
  lemma ScanStops(more: seq<string>, values: seq<string>)
    requires Stops(more) && values != []
    ensures Scan(more, values, false) ==
            if more == [] then Ok(values)
            else if IsOr(more[0]) then Err(OrWithoutCondition)
            else Err(UnexpectedArgument(more[0]))
  {
    OrsBeginWithADash();
  }

  /** `args` is COND followed by alternatives, and `values` are their texts. */
  ghost predicate Writes(args: seq<string>, first: string, alternatives: seq<Alternative>, values: seq<string>) {
    && !HasPrefix(first, "-") && AllWellWritten(alternatives)
    && args == [first] + Written(alternatives) && values == [first] + Texts(alternatives)
  }

  /** The loop accepts exactly the grammar, and returns the texts in order. */
  lemma AcceptsTheGrammar(args: seq<string>, values: seq<string>)
    ensures args != [] && Scan(args, [], false) == Ok(values) <==>
            exists first, alternatives :: Writes(args, first, alternatives, values)
  {
    FirstIsACondition(args);
    hide Scan, Written, AllWellWritten;
    if args != [] && Scan(args, [], false) == Ok(values) {
      var first, alternatives, more := ScannedFrom(args);
      assert more == [];
      assert Written(alternatives) + more == Written(alternatives);
      assert Writes(args, first, alternatives, values);
    }
    if exists first, alternatives :: Writes(args, first, alternatives, values) {
      var first, alternatives :| Writes(args, first, alternatives, values);
      assert args == [first] + Written(alternatives) + [];
      ScanFrom(args, first, alternatives, []);
    }
  }

  /** `args` begins with COND and alternatives, and the loop stops at what comes after. */
  ghost predicate Begins(args: seq<string>, first: string, alternatives: seq<Alternative>, more: seq<string>) {
    && !HasPrefix(first, "-") && AllWellWritten(alternatives)
    && args == [first] + Written(alternatives) + more && Stops(more)
  }

  lemma FirstIsACondition(args: seq<string>)
    ensures args != [] && HasPrefix(args[0], "-") ==>
              Scan(args, [], false) == Err(if IsOr(args[0]) then OrWithoutPrecedingCondition
                                           else UnexpectedArgument(args[0]))
  {
    OrsBeginWithADash();
  }

  lemma BeginsWithFirst(args: seq<string>, first: string, alternatives: seq<Alternative>, more: seq<string>)
    ensures Begins(args, first, alternatives, more) ==> args != [] && args[0] == first && !HasPrefix(first, "-")
  {
  }

  lemma ScanFrom(args: seq<string>, first: string, alternatives: seq<Alternative>, more: seq<string>)
    requires Begins(args, first, alternatives, more)
    ensures Scan(args, [], false) ==
            if more == [] then Ok([first] + Texts(alternatives))
            else if IsOr(more[0]) then Err(OrWithoutCondition)
            else Err(UnexpectedArgument(more[0]))
  {
    hide Written, Stops;
    ScansWritten(alternatives, [first], more);
    ScanStops(more, [first] + Texts(alternatives));
    assert args[0] == first && args[1..] == Written(alternatives) + more;
    OrsBeginWithADash();
  }

  lemma ScannedFrom(args: seq<string>) returns (first: string, alternatives: seq<Alternative>, more: seq<string>)
    requires args != [] && !HasPrefix(args[0], "-")
    ensures Begins(args, first, alternatives, more)
    ensures Scan(args, [], false) ==
            if more == [] then Ok([first] + Texts(alternatives))
            else if IsOr(more[0]) then Err(OrWithoutCondition)
            else Err(UnexpectedArgument(more[0]))
  {
    hide Scan;
    first := args[0];
    alternatives, more := WrittenBy(args[1..]);
    assert args == [first] + args[1..];
    assert [first] + (Written(alternatives) + more) == [first] + Written(alternatives) + more;
    ScanFrom(args, first, alternatives, more);
  }

  /** What is wrong with `args`, by the grammar. */
  ghost predicate Wrong(args: seq<string>, error: Error) {
    match error
    case MissingCondition => args == []
    case OrWithoutPrecedingCondition => args != [] && IsOr(args[0])
    case UnexpectedArgument(arg) =>
      || (args != [] && args[0] == arg && HasPrefix(arg, "-") && !IsOr(arg))
      || exists first, alternatives, rest :: Begins(args, first, alternatives, [arg] + rest) && !IsOr(arg)
    case OrWithoutCondition =>
      exists first, alternatives, more :: Begins(args, first, alternatives, more) && OrLacksItsOperand(more)
    case _ => false
  }

  /** Each error is reported exactly for the arguments that are wrong in its way. */
  lemma RefusesWhatIsWrong(args: seq<string>, error: Error)
    ensures (if args == [] then Err(MissingCondition) else Scan(args, [], false)) == Err(error) <==> Wrong(args, error)
  {
    hide Written, AllWellWritten;
    OrsBeginWithADash();
    if args != [] && !HasPrefix(args[0], "-") {
      hide Scan;
      var first, alternatives, more := ScannedFrom(args);
      if more != [] {
        assert more == [more[0]] + more[1..];
        assert Begins(args, first, alternatives, [more[0]] + more[1..]);
      }
      if Wrong(args, error) {
        if error.UnexpectedArgument? {
          var f, a, r :| Begins(args, f, a, [error.arg] + r) && !IsOr(error.arg);
          ScanFrom(args, f, a, [error.arg] + r);
        } else {
          var f, a, m :| Begins(args, f, a, m) && OrLacksItsOperand(m);
          ScanFrom(args, f, a, m);
        }
      }
    } else if args != [] {
      forall first, alternatives, more
        ensures !Begins(args, first, alternatives, more)
      {
        BeginsWithFirst(args, first, alternatives, more);
      }
    }
  }

  // --events-fd

  const FD := "--events-fd"
  const FD_EQ := "--events-fd="

  datatype Descriptor = Unset | Descriptor(fd: int)

  /** `parseEventsFD`; `atoi` stands for `strconv.Atoi`. */
  function ParseFD(value: string, atoi: string -> Option<int>): Result<Descriptor> {
    match atoi(value)
    case None => Err(InvalidEventsFD(value))
    case Some(fd) => if fd < 3 then Err(EventsFDTooSmall) else Ok(Descriptor(fd))
  }

  /** The options loop, from the state it has reached. */
  function Strip(args: seq<string>, kept: seq<string>, fd: Descriptor, atoi: string -> Option<int>):
    Result<(seq<string>, Descriptor)>
    decreases |args|
  {
    if args == [] then Ok((kept, fd))
    else if args[0] == FD then
      if fd != Unset then Err(RepeatedEventsFD)
      else if |args| < 2 || HasPrefix(args[1], "--") then Err(MissingEventsFDValue)
      else
        var value := ParseFD(args[1], atoi);
        if value.Err? then Err(value.error) else Strip(args[2..], kept, value.value, atoi)
    else if HasPrefix(args[0], FD_EQ) then
      if fd != Unset then Err(RepeatedEventsFD)
      else
        var value := ParseFD(args[0][|FD_EQ|..], atoi);
        if value.Err? then Err(value.error) else Strip(args[1..], kept, value.value, atoi)
    else Strip(args[1..], kept + [args[0]], fd, atoi)
  }

  method ParseEventsFDOptions(args: seq<string>, atoi: string -> Option<int>)
    returns (r: Result<(seq<string>, Descriptor)>)
    ensures r == Strip(args, [], Unset, atoi)
  {
    var kept: seq<string> := [];
    var fd := Unset;
    var index := 0;
    while index < |args|
      invariant 0 <= index <= |args|
      invariant Strip(args[index..], kept, fd, atoi) == Strip(args, [], Unset, atoi)
    {
      var arg := args[index];
      assert args[index..][1..] == args[index + 1..];
      if arg == FD {
        if fd != Unset {
          return Err(RepeatedEventsFD);
        }
        var valueIndex := index + 1;
        if valueIndex >= |args| || HasPrefix(args[valueIndex], "--") {
          return Err(MissingEventsFDValue);
        }
        assert args[index..][1] == args[valueIndex] && args[index..][2..] == args[index + 2..];
        var value := ParseFD(args[valueIndex], atoi);
        if value.Err? {
          return Err(value.error);
        }
        fd := value.value;
        index := valueIndex;
      } else if HasPrefix(arg, FD_EQ) {
        if fd != Unset {
          return Err(RepeatedEventsFD);
        }
        var value := ParseFD(arg[|FD_EQ|..], atoi);
        if value.Err? {
          return Err(value.error);
        }
        fd := value.value;
      } else {
        kept := kept + [arg];
      }
      index := index + 1;
    }
    return Ok((kept, fd));
  }

  predicate IsFD(arg: string) {
    arg == "--events-fd" || HasPrefix(arg, "--events-fd=")
  }

  predicate NoFDOption(args: seq<string>) {
    forall i :: 0 <= i < |args| ==> !IsFD(args[i])
  }

  lemma {:induction false} StripsNothing(
      args: seq<string>, more: seq<string>, kept: seq<string>, fd: Descriptor, atoi: string -> Option<int>)
    requires NoFDOption(args)
    ensures Strip(args + more, kept, fd, atoi) == Strip(more, kept + args, fd, atoi)
    decreases |args|
  {
    if args == [] {
      assert args + more == more && kept + args == kept;
    } else {
      StripsNothing(args[1..], more, kept + [args[0]], fd, atoi);
      assert (args + more)[1..] == args[1..] + more;
      assert kept + args == kept + [args[0]] + args[1..];
    }
  }

  /** One option with its value, in either spelling. */
  predicate FDOption(option: seq<string>, value: string) {
    (option == ["--events-fd", value] && !HasPrefix(value, "--")) || option == ["--events-fd=" + value]
  }

  /** `args` has its first option between `before` and `after`. */
  predicate FirstOption(args: seq<string>, before: seq<string>, option: seq<string>, after: seq<string>, value: string)
  {
    NoFDOption(before) && FDOption(option, value) && args == before + option + after
  }

  predicate LacksItsValue(more: seq<string>) {
    more != [] && more[0] == "--events-fd" && (|more| == 1 || HasPrefix(more[1], "--"))
  }

  /** An option with its value in front, the descriptor being unset. */
  lemma StripsOption(option: seq<string>, after: seq<string>, value: string, kept: seq<string>,
      atoi: string -> Option<int>)
    requires FDOption(option, value)
    ensures Strip(option + after, kept, Unset, atoi) ==
            match atoi(value)
            case None => Err(InvalidEventsFD(value))
            case Some(n) => if n < 3 then Err(EventsFDTooSmall) else Strip(after, kept, Descriptor(n), atoi)
  {
    var tail := option + after;
    if option == [FD, value] {
      assert tail[0] == FD && tail[1] == value && tail[2..] == after;
    } else {
      assert tail[0] == FD_EQ + value && tail[1..] == after;
      assert HasPrefix(tail[0], FD_EQ) && tail[0][|FD_EQ|..] == value && tail[0] != FD;
    }
  }

  /** The rest of the arguments, the descriptor being set: a second option is refused, whatever it looks like. */
  lemma {:induction false} StripsTheRest(args: seq<string>, kept: seq<string>, n: int, atoi: string -> Option<int>)
    ensures Strip(args, kept, Descriptor(n), atoi) ==
            if NoFDOption(args) then Ok((kept + args, Descriptor(n))) else Err(RepeatedEventsFD)
    decreases |args|
  {
    if args == [] {
      assert kept + args == kept;
    } else if !IsFD(args[0]) {
      var rest := args[1..];
      StripsTheRest(rest, kept + [args[0]], n, atoi);
      assert kept + args == kept + [args[0]] + rest;
      assert NoFDOption(args) <==> NoFDOption(rest) by {
        assert forall i :: 0 < i < |args| ==> args[i] == rest[i - 1];
      }
    } else {
      assert !NoFDOption(args);
    }
  }

  /** The first option, if there is one, or where one lacks its value. */
  lemma {:induction false} FindOption(args: seq<string>)
    returns (before: seq<string>, option: seq<string>, after: seq<string>, value: string)
    ensures NoFDOption(before) && args == before + option + after
    ensures option != [] ==> FDOption(option, value)
    ensures option == [] && after != [] ==> LacksItsValue(after)
  {
    if args == [] || LacksItsValue(args) {
      return [], [], args, "";
    }
    if args[0] == FD {
      return [], args[..2], args[2..], args[1];
    }
    if HasPrefix(args[0], FD_EQ) {
      assert args[0] == FD_EQ + args[0][|FD_EQ|..];
      return [], args[..1], args[1..], args[0][|FD_EQ|..];
    }
    var others, o, a, v := FindOption(args[1..]);
    before, option, after, value := [args[0]] + others, o, a, v;
    assert args == [args[0]] + args[1..];
    assert [args[0]] + (others + o + a) == [args[0]] + others + o + a;
  }

  /** What comes of `args`, by the grammar of the option. */
  ghost predicate Strips(args: seq<string>, atoi: string -> Option<int>, r: Result<(seq<string>, Descriptor)>) {
    match r
    case Ok((kept, Unset)) => NoFDOption(args) && kept == args
    case Ok((kept, Descriptor(n))) =>
      exists before, option, after, value :: FirstOption(args, before, option, after, value)
        && atoi(value) == Some(n) && n >= 3 && NoFDOption(after) && kept == before + after
    case Err(RepeatedEventsFD) =>
      exists before, option, after, value :: FirstOption(args, before, option, after, value)
        && atoi(value).Some? && atoi(value).value >= 3 && !NoFDOption(after)
    case Err(InvalidEventsFD(value)) =>
      exists before, option, after :: FirstOption(args, before, option, after, value) && atoi(value) == None
    case Err(EventsFDTooSmall) =>
      exists before, option, after, value :: FirstOption(args, before, option, after, value)
        && atoi(value).Some? && atoi(value).value < 3
    case Err(MissingEventsFDValue) =>
      exists before, after :: NoFDOption(before) && args == before + after && LacksItsValue(after)
    case _ => false
  }

  /** The value of the first option decides: it is refused, or kept unless another option follows. */
  lemma StripsByFirstOption(args: seq<string>, before: seq<string>, option: seq<string>, after: seq<string>,
      value: string, atoi: string -> Option<int>)
    requires FirstOption(args, before, option, after, value)
    ensures Strip(args, [], Unset, atoi) ==
            match atoi(value)
            case None => Err(InvalidEventsFD(value))
            case Some(n) =>
              if n < 3 then Err(EventsFDTooSmall)
              else if NoFDOption(after) then Ok((before + after, Descriptor(n)))
              else Err(RepeatedEventsFD)
  {
    hide Strip, FDOption;
    assert before + option + after == before + (option + after);
    StripsNothing(before, option + after, [], Unset, atoi);
    assert [] + before == before;
    StripsOption(option, after, value, before, atoi);
    if atoi(value).Some? {
      StripsTheRest(after, before, atoi(value).value, atoi);
    }
  }

  lemma StripsWithoutOption(args: seq<string>, before: seq<string>, after: seq<string>, atoi: string -> Option<int>)
    requires NoFDOption(before) && args == before + after && (after == [] || LacksItsValue(after))
    ensures Strip(args, [], Unset, atoi) == if after == [] then Ok((args, Unset)) else Err(MissingEventsFDValue)
  {
    StripsNothing(before, after, [], Unset, atoi);
    assert [] + before == before;
    assert after == [] ==> args == before;
  }

  /** The loop yields exactly what the grammar says, each error included. */
  lemma StripsByTheGrammar(args: seq<string>, atoi: string -> Option<int>, r: Result<(seq<string>, Descriptor)>)
    ensures Strip(args, [], Unset, atoi) == r <==> Strips(args, atoi, r)
  {
    hide Strip, FDOption, LacksItsValue;
    var before, option, after, value := FindOption(args);
    if option != [] {
      assert FirstOption(args, before, option, after, value);
      StripsByFirstOption(args, before, option, after, value, atoi);
    } else {
      assert before + option + after == before + after;
      StripsWithoutOption(args, before, after, atoi);
    }
    StrippedAs(args, atoi, r);
  }

  /** Whatever the grammar says of `args` is what the loop yields. */
  lemma StrippedAs(args: seq<string>, atoi: string -> Option<int>, r: Result<(seq<string>, Descriptor)>)
    ensures Strips(args, atoi, r) ==> Strip(args, [], Unset, atoi) == r
  {
    hide Strip, FDOption, LacksItsValue;
    forall before, option, after, value | FirstOption(args, before, option, after, value)
      ensures Strip(args, [], Unset, atoi) ==
              match atoi(value)
              case None => Err(InvalidEventsFD(value))
              case Some(n) =>
                if n < 3 then Err(EventsFDTooSmall)
                else if NoFDOption(after) then Ok((before + after, Descriptor(n)))
                else Err(RepeatedEventsFD)
    {
      StripsByFirstOption(args, before, option, after, value, atoi);
    }
    if Strips(args, atoi, r) && r == Err(MissingEventsFDValue) {
      var before, after :| NoFDOption(before) && args == before + after && LacksItsValue(after);
      StripsWithoutOption(args, before, after, atoi);
      LackingIsSomething(after);
    }
    if NoFDOption(args) {
      assert args == args + [];
      StripsWithoutOption(args, args, [], atoi);
    }
  }

  lemma LackingIsSomething(more: seq<string>)
    requires LacksItsValue(more)
    ensures more != []
  {
  }

  /**
    Inserting one option with a descriptor from 3 on anywhere, also in front of an operand of `--or`,
    changes nothing but the descriptor: the remaining arguments are those without it.
   */
  lemma InsertedOption(before: seq<string>, option: seq<string>, after: seq<string>, value: string,
      atoi: string -> Option<int>)
    requires NoFDOption(before) && NoFDOption(after) && FDOption(option, value)
    requires atoi(value).Some? && atoi(value).value >= 3
    ensures Strip(before + option + after, [], Unset, atoi) == Ok((before + after, Descriptor(atoi(value).value)))
    ensures Strip(before + after, [], Unset, atoi) == Ok((before + after, Unset))
  {
    StripsByFirstOption(before + option + after, before, option, after, value, atoi);
    assert before + after == before + after + [];
    StripsWithoutOption(before + after, before + after, [], atoi);
  }
}
