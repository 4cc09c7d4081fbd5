/** Validation and canonicalisation: `parseConditionSpec`, the validators, `canonicalPlan` and `Parse`. */
module CanonicalPlan {
  import opened Arguments
  import opened Options
  import opened Printing
  import opened Sequences
  import opened SourceIds

  datatype Kind = Signal | File | Duration | DateTime

  function KindName(kind: Kind): string {
    match kind
    case Signal => "signal"
    case File => "file"
    case Duration => "duration"
    case DateTime => "datetime"
  }

  datatype Identity = Identity(kind: Kind, value: string)

  datatype Payload =
    | SignalNumber(signal: int)
    | Path(path: string)
    | Nanoseconds(duration: int)
    | Deadline(instant: int)

  datatype Spec = Spec(id: string, kind: Kind, payload: Payload)

  /**
    What the platform and Go's libraries contribute: `time.ParseDuration`, the datetime parser for the
    captured location, and signal lookup and support.  Durations are nanoseconds, instants whole seconds.
   */
  datatype Platform = Platform(
    parseDuration: string -> Option<int>, parseDeadline: string -> Option<int>,
    resolveSignal: string -> Option<int>, signalSupported: bool)

  datatype Resolved = Resolved(spec: Spec, identity: Identity)

  datatype SpecError = BadDuration(raw: string) | BadDateTime(raw: string) | BadFile(raw: string)
                     | Unsupported(raw: string) | UnsupportedHere(raw: string)

  datatype Outcome<T> = Good(value: T) | Bad(error: SpecError)

  function IdentityID(identity: Identity): string {
    KindName(identity.kind) + ":" + identity.value
  }

  function CanonicalSignalName(raw: string): Option<string> {
    if raw == "signal:USR1" || raw == "signal:SIGUSR1" then Some("USR1")
    else if raw == "signal:USR2" || raw == "signal:SIGUSR2" then Some("USR2")
    else None
  }

  const DURATION := "duration:"
  const DATETIME := "datetime:"
  const FILE := "file:"

  function ParseDurationEvent(raw: string, p: Platform): Option<int>
    requires HasPrefix(raw, DURATION)
  {
    var value := raw[|DURATION|..];
    if HasPrefix(value, "-") then None else p.parseDuration(value)
  }

  function ParseConditionSpec(raw: string, p: Platform): Outcome<Resolved> {
    if HasPrefix(raw, DURATION) then
      match ParseDurationEvent(raw, p)
      case None => Bad(BadDuration(raw))
      case Some(duration) =>
        var identity := Identity(Duration, ShowInteger(duration));
        Good(Resolved(Spec(IdentityID(identity), Duration, Nanoseconds(duration)), identity))
    else if HasPrefix(raw, DATETIME) then
      match p.parseDeadline(raw[|DATETIME|..])
      case None => Bad(BadDateTime(raw))
      case Some(instant) =>
        var identity := Identity(DateTime, ShowInstant(instant));
        Good(Resolved(Spec(IdentityID(identity), DateTime, Deadline(instant)), identity))
    else if HasPrefix(raw, FILE) then
      var path := raw[|FILE|..];
      var identity := Identity(File, path);
      Good(Resolved(Spec(IdentityID(identity), File, Path(path)), identity))
    else
      match CanonicalSignalName(raw)
      case None => Bad(Unsupported(raw))
      case Some(name) =>
        match p.resolveSignal(name)
        case None => Bad(UnsupportedHere(raw))
        case Some(signal) =>
          var identity := Identity(Signal, name);
          Good(Resolved(Spec(IdentityID(identity), Signal, SignalNumber(signal)), identity))
  }

  // The three passes over the members, and the first fault each of them reports

  datatype Pass = Syntax | Capability | Resolution

  function Fault(pass: Pass, raw: string, p: Platform): Option<SpecError> {
    match pass
    case Syntax =>
      if HasPrefix(raw, DURATION) then
        (if ParseDurationEvent(raw, p).Some? then None else Some(BadDuration(raw)))
      else if HasPrefix(raw, DATETIME) then
        (if p.parseDeadline(raw[|DATETIME|..]).Some? then None else Some(BadDateTime(raw)))
      else if HasPrefix(raw, FILE) then
        (if raw[|FILE|..] == "" then Some(BadFile(raw)) else None)
      else if CanonicalSignalName(raw).Some? then None
      else Some(Unsupported(raw))
    case Capability =>
      if CanonicalSignalName(raw).Some? && !p.signalSupported then Some(UnsupportedHere(raw)) else None
    case Resolution =>
      match ParseConditionSpec(raw, p)
      case Bad(error) => Some(error)
      case Good(_) => None
  }

  // What a member stands for

  predicate Usr1(raw: string) {
    raw == "signal:USR1" || raw == "signal:SIGUSR1"
  }

  predicate Usr2(raw: string) {
    raw == "signal:USR2" || raw == "signal:SIGUSR2"
  }

  ghost predicate IsDuration(raw: string, p: Platform, d: int) {
    exists text :: raw == "duration:" + text && !HasPrefix(text, "-") && p.parseDuration(text) == Some(d)
  }

  ghost predicate IsDateTime(raw: string, p: Platform, t: int) {
    exists text :: raw == "datetime:" + text && p.parseDeadline(text) == Some(t)
  }

  /** `raw` is written for the condition `spec`, by the spellings of the command line. */
  ghost predicate Names(raw: string, p: Platform, spec: Spec) {
    match spec.payload
    case Nanoseconds(d) => IsDuration(raw, p, d) && spec.kind == Duration && spec.id == "duration:" + ShowInteger(d)
    case Deadline(t) => IsDateTime(raw, p, t) && spec.kind == DateTime && spec.id == "datetime:" + ShowInstant(t)
    case Path(path) => raw == "file:" + path && spec.kind == File && spec.id == "file:" + path
    case SignalNumber(n) =>
      && spec.kind == Signal
      && (|| (Usr1(raw) && p.resolveSignal("USR1") == Some(n) && spec.id == "signal:USR1")
          || (Usr2(raw) && p.resolveSignal("USR2") == Some(n) && spec.id == "signal:USR2"))
  }

  predicate Prefixed(raw: string) {
    HasPrefix(raw, "duration:") || HasPrefix(raw, "datetime:") || HasPrefix(raw, "file:")
  }

  /** `error` is what a pass finds wrong with `raw`. */
  ghost predicate Faulty(pass: Pass, raw: string, p: Platform, error: SpecError) {
    match error
    case BadDuration(r) =>
      r == raw && !pass.Capability? && HasPrefix(raw, "duration:") && forall d :: !IsDuration(raw, p, d)
    case BadDateTime(r) =>
      r == raw && !pass.Capability? && HasPrefix(raw, "datetime:") && forall t :: !IsDateTime(raw, p, t)
    case BadFile(r) => r == raw == "file:" && pass.Syntax?
    case Unsupported(r) => r == raw && !pass.Capability? && !Prefixed(raw) && !Usr1(raw) && !Usr2(raw)
    case UnsupportedHere(r) =>
      && r == raw && !pass.Syntax? && (Usr1(raw) || Usr2(raw))
      && if pass.Capability? then !p.signalSupported
         else p.resolveSignal(if Usr1(raw) then "USR1" else "USR2") == None
  }

  /** The spellings are told apart by the first two characters. */
  lemma PrefixesApart(raw: string)
    ensures HasPrefix(raw, "duration:") ==> raw[..2] == "du"
    ensures HasPrefix(raw, "datetime:") ==> raw[..2] == "da"
    ensures HasPrefix(raw, "file:") ==> raw[..2] == "fi"
    ensures Usr1(raw) || Usr2(raw) ==> raw[..2] == "si"
    ensures "du"[0] == "da"[0] == 'd' && "du"[1] == 'u' && "da"[1] == 'a' && "fi"[0] == 'f' && "si"[0] == 's'
    ensures !(Usr1(raw) && Usr2(raw))
  {
    if HasPrefix(raw, "duration:") {
      assert raw[..2] == "duration:"[..2];
    }
    if HasPrefix(raw, "datetime:") {
      assert raw[..2] == "datetime:"[..2];
    }
    if HasPrefix(raw, "file:") {
      assert raw[..2] == "file:"[..2];
    }
    if Usr1(raw) {
      assert raw[|raw| - 1] == '1';
    }
    if Usr2(raw) {
      assert raw[|raw| - 1] == '2';
    }
  }

  lemma AfterPrefix(raw: string, prefix: string)
    ensures HasPrefix(raw, prefix) ==> raw == prefix + raw[|prefix|..]
    ensures forall text: string :: raw == prefix + text ==> HasPrefix(raw, prefix) && text == raw[|prefix|..]
  {
  }

  lemma DurationOf(raw: string, p: Platform, d: int)
    ensures IsDuration(raw, p, d) <==> HasPrefix(raw, DURATION) && ParseDurationEvent(raw, p) == Some(d)
  {
    AfterPrefix(raw, DURATION);
  }

  lemma DateTimeOf(raw: string, p: Platform, t: int)
    ensures IsDateTime(raw, p, t) <==> HasPrefix(raw, DATETIME) && p.parseDeadline(raw[|DATETIME|..]) == Some(t)
  {
    AfterPrefix(raw, DATETIME);
  }

  lemma PathOf(raw: string, path: string)
    ensures raw == "file:" + path <==> HasPrefix(raw, FILE) && raw[|FILE|..] == path
  {
    AfterPrefix(raw, FILE);
  }

  predicate ResolvesAs(raw: string, p: Platform, spec: Spec) {
    ParseConditionSpec(raw, p).Good? && ParseConditionSpec(raw, p).value.spec == spec
  }

  lemma ResolvesToDuration(raw: string, p: Platform, spec: Spec)
    requires spec.payload.Nanoseconds?
    ensures ResolvesAs(raw, p, spec) <==> Names(raw, p, spec)
  {
    hide ShowInteger, ShowInstant, IsDuration, IsDateTime, ParseDurationEvent, HasPrefix;
    DurationOf(raw, p, spec.payload.duration);
  }

  lemma ResolvesToDeadline(raw: string, p: Platform, spec: Spec)
    requires spec.payload.Deadline?
    ensures ResolvesAs(raw, p, spec) <==> Names(raw, p, spec)
  {
    PrefixesApart(raw);
    hide ShowInteger, ShowInstant, IsDuration, IsDateTime, ParseDurationEvent, HasPrefix;
    DateTimeOf(raw, p, spec.payload.instant);
  }

  lemma ResolvesToPath(raw: string, p: Platform, spec: Spec)
    requires spec.payload.Path?
    ensures ResolvesAs(raw, p, spec) <==> Names(raw, p, spec)
  {
    PrefixesApart(raw);
    hide ShowInteger, ShowInstant, IsDuration, IsDateTime, ParseDurationEvent, HasPrefix;
    PathOf(raw, spec.payload.path);
  }

  lemma ResolvesToSignal(raw: string, p: Platform, spec: Spec)
    requires spec.payload.SignalNumber?
    ensures ResolvesAs(raw, p, spec) <==> Names(raw, p, spec)
  {
    PrefixesApart(raw);
    hide ShowInteger, ShowInstant, IsDuration, IsDateTime, ParseDurationEvent, HasPrefix;
  }

  /** What a member resolves to: exactly the condition it is written for. */
  lemma ResolvesTo(raw: string, p: Platform, spec: Spec)
    ensures ParseConditionSpec(raw, p).Good? && ParseConditionSpec(raw, p).value.spec == spec <==> Names(raw, p, spec)
  {
    hide ParseConditionSpec, Names;
    match spec.payload
    case Nanoseconds(_) => ResolvesToDuration(raw, p, spec);
    case Deadline(_) => ResolvesToDeadline(raw, p, spec);
    case Path(_) => ResolvesToPath(raw, p, spec);
    case SignalNumber(_) => ResolvesToSignal(raw, p, spec);
  }

  /** And what is wrong with one that a pass refuses. */
  lemma FaultyMembers(pass: Pass, raw: string, p: Platform, error: SpecError)
    ensures Fault(pass, raw, p) == Some(error) <==> Faulty(pass, raw, p, error)
  {
    hide ShowInteger, ShowInstant, IsDuration, IsDateTime, ParseDurationEvent;
    PrefixesApart(raw);
    PathOf(raw, "");
    if HasPrefix(raw, DURATION) {
      forall d: int
        ensures IsDuration(raw, p, d) <==> ParseDurationEvent(raw, p) == Some(d)
      {
        DurationOf(raw, p, d);
      }
      assert ParseDurationEvent(raw, p).Some? ==> IsDuration(raw, p, ParseDurationEvent(raw, p).value);
    } else if HasPrefix(raw, DATETIME) {
      forall t: int
        ensures IsDateTime(raw, p, t) <==> p.parseDeadline(raw[|DATETIME|..]) == Some(t)
      {
        DateTimeOf(raw, p, t);
      }
      var parsed := p.parseDeadline(raw[|DATETIME|..]);
      assert parsed.Some? ==> IsDateTime(raw, p, parsed.value);
    }
  }

  function FirstFault(pass: Pass, members: seq<string>, p: Platform): Option<SpecError> {
    if members == [] then None
    else if Fault(pass, members[0], p).Some? then Fault(pass, members[0], p)
    else FirstFault(pass, members[1..], p)
  }

  ghost predicate FaultAt(pass: Pass, members: seq<string>, p: Platform, k: nat, error: SpecError) {
    && k < |members| && Fault(pass, members[k], p) == Some(error)
    && forall i :: 0 <= i < k ==> Fault(pass, members[i], p) == None
  }

  ghost predicate Faultless(pass: Pass, members: seq<string>, p: Platform) {
    forall i :: 0 <= i < |members| ==> Fault(pass, members[i], p) == None
  }

  lemma {:induction false} FirstFaultIsFirst(pass: Pass, members: seq<string>, p: Platform, error: SpecError)
    ensures FirstFault(pass, members, p) == None <==> Faultless(pass, members, p)
    ensures FirstFault(pass, members, p) == Some(error) <==> exists k: nat :: FaultAt(pass, members, p, k, error)
  {
    hide Fault;
    if members != [] {
      var rest := members[1..];
      FirstFaultIsFirst(pass, rest, p, error);
      assert forall i :: 0 < i < |members| ==> members[i] == rest[i - 1];
      if FirstFault(pass, members, p) == Some(error) {
        if Fault(pass, members[0], p).Some? {
          assert FaultAt(pass, members, p, 0, error);
        } else {
          var k: nat :| FaultAt(pass, rest, p, k, error);
          assert FaultAt(pass, members, p, k + 1, error);
        }
      }
      if k: nat :| FaultAt(pass, members, p, k, error) {
        assert k > 0 ==> FaultAt(pass, rest, p, k - 1, error) by {
          assert forall i :: 0 <= i < k - 1 ==> rest[i] == members[i + 1];
        }
      }
    }
  }

  lemma {:induction false} FaultsConcatenate(pass: Pass, before: seq<string>, after: seq<string>, p: Platform)
    ensures FirstFault(pass, before + after, p)
            == if FirstFault(pass, before, p).Some? then FirstFault(pass, before, p) else FirstFault(pass, after, p)
  {
    if before == [] {
      assert before + after == after;
    } else {
      FaultsConcatenate(pass, before[1..], after, p);
      assert (before + after)[1..] == before[1..] + after;
    }
  }

  // The canonical plan

  datatype Plan = Plan(conditions: seq<Spec>, groups: seq<seq<nat>>)

  predicate Resolves(members: seq<string>, p: Platform) {
    forall i :: 0 <= i < |members| ==> ParseConditionSpec(members[i], p).Good?
  }

  function Resolve(members: seq<string>, p: Platform): seq<Resolved>
    requires Resolves(members, p)
  {
    seq(|members|, i requires 0 <= i < |members| => ParseConditionSpec(members[i], p).value)
  }

  /** Where an identity stands among those used so far, or their number if it is new. */
  function Position(used: seq<Resolved>, identity: Identity): (c: nat)
    ensures c <= |used|
    ensures c < |used| ==> used[c].identity == identity
    ensures forall d: nat :: d < c ==> used[d].identity != identity
  {
    if used == [] then 0
    else if used[0].identity == identity then 0
    else Position(used[1..], identity) + 1
  }

  /** One entry per identity, for its first use. */
  function Used(entries: seq<Resolved>): seq<Resolved>
    decreases |entries|
  {
    if entries == [] then []
    else
      var n := |entries| - 1;
      Register(Used(entries[..n]), entries[n])
  }

  function Register(used: seq<Resolved>, entry: Resolved): seq<Resolved> {
    if Position(used, entry.identity) < |used| then used else used + [entry]
  }

  /** The indexes of the identities of `entries`, each at its first mention. */
  function Indexes(entries: seq<Resolved>, used: seq<Resolved>): seq<nat>
    decreases |entries|
  {
    if entries == [] then []
    else
      var n := |entries| - 1;
      Mention(Indexes(entries[..n], used), Position(used, entries[n].identity))
  }

  function Mention(indexes: seq<nat>, index: nat): seq<nat> {
    if index in indexes then indexes else indexes + [index]
  }

  function Specs(used: seq<Resolved>): seq<Spec> {
    seq(|used|, c requires 0 <= c < |used| => used[c].spec)
  }

  function Numbered(groups: seq<seq<string>>, used: seq<Resolved>, p: Platform): seq<seq<nat>>
    requires AllResolve(groups, p)
  {
    seq(|groups|, g requires 0 <= g < |groups| => Indexes(Resolve(groups[g], p), used))
  }

  predicate AllResolve(groups: seq<seq<string>>, p: Platform) {
    forall g :: 0 <= g < |groups| ==> Resolves(groups[g], p)
  }

  lemma {:induction false} GroupsResolve(groups: seq<seq<string>>, p: Platform)
    ensures Resolves(Flatten(groups), p) <==> AllResolve(groups, p)
    decreases |groups|
  {
    hide ParseConditionSpec;
    if groups != [] {
      var n := |groups| - 1;
      GroupsResolve(groups[..n], p);
      var earlier, last := Flatten(groups[..n]), groups[n];
      assert forall i :: 0 <= i < |earlier| ==> (earlier + last)[i] == earlier[i];
      assert forall i :: 0 <= i < |last| ==> (earlier + last)[|earlier| + i] == last[i];
      assert forall g :: 0 <= g < n ==> groups[..n][g] == groups[g];
    }
  }

  lemma ResolvesIsFaultless(members: seq<string>, p: Platform)
    ensures FirstFault(Resolution, members, p) == None <==> Resolves(members, p)
  {
    if !Faultless(Resolution, members, p) {
      var i :| 0 <= i < |members| && Fault(Resolution, members[i], p) != None;
      assert !Resolves(members, p);
    }
    FirstFaultIsFirst(Resolution, members, p, BadFile(""));
  }

  function PlanOf(groups: seq<seq<string>>, p: Platform): Plan
    requires Resolves(Flatten(groups), p)
  {
    GroupsResolve(groups, p);
    var used := Used(Resolve(Flatten(groups), p));
    Plan(Specs(used), Numbered(groups, used, p))
  }

  function Canonicalised(groups: seq<seq<string>>, p: Platform): Outcome<Plan> {
    ResolvesIsFaultless(Flatten(groups), p);
    match FirstFault(Resolution, Flatten(groups), p)
    case Some(error) => Bad(error)
    case None => Good(PlanOf(groups, p))
  }

  // Facts about first uses

  ghost predicate Known(entries: seq<Resolved>, used: seq<Resolved>) {
    forall i :: 0 <= i < |entries| ==> Position(used, entries[i].identity) < |used|
  }

  ghost predicate OneEach(used: seq<Resolved>) {
    forall c, d :: 0 <= c < d < |used| ==> used[c].identity != used[d].identity
  }

  lemma PositionKept(used: seq<Resolved>, more: seq<Resolved>, identity: Identity)
    requires used <= more && Position(used, identity) < |used|
    ensures Position(more, identity) == Position(used, identity)
  {
    var c := Position(used, identity);
    assert more[c] == used[c];
    assert forall d: nat :: d < c ==> more[d] == used[d];
  }

  lemma PositionIs(used: seq<Resolved>, c: nat)
    requires OneEach(used) && c < |used|
    ensures Position(used, used[c].identity) == c
  {
  }

  lemma RegisterKeeps(used: seq<Resolved>, entries: seq<Resolved>, entry: Resolved)
    requires OneEach(used) && Known(entries, used)
    requires forall c :: 0 <= c < |used| ==> used[c] in entries
    ensures var more, all := Register(used, entry), entries + [entry];
            OneEach(more) && Known(all, more) && forall c :: 0 <= c < |more| ==> more[c] in all
  {
    hide Position;
    var more, all := Register(used, entry), entries + [entry];
    RegisterPosition(used, entry);
    forall i | 0 <= i < |all|
      ensures Position(more, all[i].identity) < |more|
    {
      if i < |entries| {
        assert all[i] == entries[i];
        PositionKept(used, more, all[i].identity);
      }
    }
    assert all[|entries|] == entry;
  }

  lemma {:induction false} UsedOnce(entries: seq<Resolved>)
    ensures OneEach(Used(entries)) && Known(entries, Used(entries))
    ensures forall c :: 0 <= c < |Used(entries)| ==> Used(entries)[c] in entries
    decreases |entries|
  {
    if entries != [] {
      hide Position, Register, OneEach, Known;
      var n := |entries| - 1;
      UsedOnce(entries[..n]);
      RegisterKeeps(Used(entries[..n]), entries[..n], entries[n]);
      assert entries == entries[..n] + [entries[n]];
    }
  }

  lemma {:induction false} UsedGrows(entries: seq<Resolved>, more: seq<Resolved>)
    ensures Used(entries) <= Used(entries + more)
    decreases |more|
  {
    if more == [] {
      assert entries + more == entries;
    } else {
      var n := |more| - 1;
      assert (entries + more)[..|entries| + n] == entries + more[..n];
      UsedGrows(entries, more[..n]);
    }
  }

  lemma KnownMember(entries: seq<Resolved>, used: seq<Resolved>, n: nat)
    requires n < |entries| && Known(entries, used)
    ensures Known(entries[..n], used) && Position(used, entries[n].identity) < |used|
  {
    hide Position;
    assert forall i :: 0 <= i < n ==> entries[..n][i] == entries[i];
  }

  lemma {:induction false} IndexesKept(entries: seq<Resolved>, used: seq<Resolved>, more: seq<Resolved>)
    requires used <= more && Known(entries, used)
    ensures Indexes(entries, more) == Indexes(entries, used)
    decreases |entries|
  {
    if entries != [] {
      hide Position, Mention, Known;
      var n := |entries| - 1;
      KnownMember(entries, used, n);
      IndexesKept(entries[..n], used, more);
      PositionKept(used, more, entries[n].identity);
    }
  }

  /** `indexes` stand for exactly the identities of `entries`, each once. */
  ghost predicate GroupMeans(indexes: seq<nat>, entries: seq<Resolved>, used: seq<Resolved>) {
    && Distinct(indexes)
    && forall c: nat :: c in indexes <==> c < |used| && Mentions(entries, used[c].identity)
  }

  ghost predicate Mentions(entries: seq<Resolved>, identity: Identity) {
    exists i :: 0 <= i < |entries| && entries[i].identity == identity
  }

  lemma MentionsMore(entries: seq<Resolved>, entry: Resolved, identity: Identity)
    ensures Mentions(entries + [entry], identity) <==> Mentions(entries, identity) || entry.identity == identity
  {
    var more := entries + [entry];
    if i :| 0 <= i < |entries| && entries[i].identity == identity {
      assert more[i].identity == identity;
    }
    assert more[|entries|] == entry;
  }

  lemma MentionAdds(indexes: seq<nat>, index: nat)
    requires Distinct(indexes)
    ensures Distinct(Mention(indexes, index))
    ensures forall c: nat :: c in Mention(indexes, index) <==> c in indexes || c == index
  {
    assert (indexes + [index])[|indexes|] == index;
  }

  lemma {:induction false} IndexesMean(entries: seq<Resolved>, used: seq<Resolved>)
    requires Known(entries, used) && OneEach(used)
    ensures GroupMeans(Indexes(entries, used), entries, used)
    decreases |entries|
  {
    if entries != [] {
      hide Mentions, Mention, Distinct, Position;
      var n := |entries| - 1;
      assert Known(entries[..n], used);
      IndexesMean(entries[..n], used);
      var before, index := Indexes(entries[..n], used), Position(used, entries[n].identity);
      assert entries == entries[..n] + [entries[n]];
      MentionAdds(before, index);
      forall c: nat
        ensures c in Mention(before, index) <==> c < |used| && Mentions(entries, used[c].identity)
      {
        if c < |used| {
          MentionsMore(entries[..n], entries[n], used[c].identity);
          PositionIs(used, c);
        }
      }
    }
  }

  // First-use order

  /** Indexes appear in the order of their first use, and none below `count` is unused. */
  ghost predicate FirstUseOrder(uses: seq<nat>, count: nat)
    decreases |uses|
  {
    if uses == [] then count == 0
    else
      var n := |uses| - 1;
      uses[n] < count
      && (FirstUseOrder(uses[..n], count) || (uses[n] == count - 1 && FirstUseOrder(uses[..n], count - 1)))
  }

  lemma {:induction false} FirstUseOrderCovers(uses: seq<nat>, count: nat)
    requires FirstUseOrder(uses, count)
    ensures forall c: nat :: c in uses <==> c < count
    decreases |uses|
  {
    if uses != [] {
      var n := |uses| - 1;
      assert uses == uses[..n] + [uses[n]];
      if FirstUseOrder(uses[..n], count) {
        FirstUseOrderCovers(uses[..n], count);
      } else {
        FirstUseOrderCovers(uses[..n], count - 1);
      }
    }
  }

  lemma OrderGrows(uses: seq<nat>, index: nat, count: nat)
    requires FirstUseOrder(uses, count) && index <= count
    ensures FirstUseOrder(uses + [index], if index == count then count + 1 else count)
  {
    assert (uses + [index])[..|uses|] == uses;
  }

  lemma MentionInOrder(uses: seq<nat>, indexes: seq<nat>, index: nat, count: nat, more: nat)
    requires FirstUseOrder(uses + indexes, count)
    requires index < more && (more == count || (index == count && more == count + 1))
    requires index in indexes ==> more == count
    ensures FirstUseOrder(uses + Mention(indexes, index), more)
  {
    if index !in indexes {
      OrderGrows(uses + indexes, index, count);
      assert uses + indexes + [index] == uses + (indexes + [index]);
    }
  }

  lemma {:induction false} GroupInOrder(uses: seq<nat>, earlier: seq<Resolved>, entries: seq<Resolved>)
    requires FirstUseOrder(uses, |Used(earlier)|)
    ensures FirstUseOrder(uses + Indexes(entries, Used(earlier + entries)), |Used(earlier + entries)|)
    decreases |entries|
  {
    if entries == [] {
      assert earlier + entries == earlier && uses + [] == uses;
    } else {
      hide FirstUseOrder, Mention, GroupMeans;
      var n := |entries| - 1;
      var before, used := Used(earlier + entries[..n]), Used(earlier + entries);
      assert (earlier + entries)[..|earlier| + n] == earlier + entries[..n];
      GroupInOrder(uses, earlier, entries[..n]);
      KnownIndexes(earlier, entries[..n], entries[n]);
      assert earlier + entries == earlier + entries[..n] + [entries[n]];
      var indexes, index := Indexes(entries[..n], used), Position(used, entries[n].identity);
      RegisterPosition(before, entries[n]);
      MentionInOrder(uses, indexes, index, |before|, |used|);
    }
  }

  lemma RegisterPosition(used: seq<Resolved>, entry: Resolved)
    ensures var more := Register(used, entry); var index := Position(more, entry.identity);
            index < |more| && (more == used || (|more| == |used| + 1 && index == |used|))
  {
    var more := Register(used, entry);
    if more != used {
      assert more[|used|] == entry;
      assert forall d: nat :: d < |used| ==> more[d] == used[d];
    }
  }

  /** The indexes of a group do not change when another member is registered. */
  lemma KnownIndexes(earlier: seq<Resolved>, entries: seq<Resolved>, entry: Resolved)
    ensures var before, used := Used(earlier + entries), Used(earlier + entries + [entry]);
            var indexes := Indexes(entries, used);
            used == Register(before, entry) && indexes == Indexes(entries, before)
            && forall c :: c in indexes ==> c < |before|
  {
    var before, used := Used(earlier + entries), Used(earlier + entries + [entry]);
    assert (earlier + entries + [entry])[..|earlier + entries|] == earlier + entries;
    UsedOnce(earlier + entries);
    KnownPart(earlier, entries, before);
    forall c | c in Indexes(entries, before)
      ensures c < |before|
    {
      IndexesMean(entries, before);
    }
    IndexesKept(entries, before, used);
  }

  lemma KnownPart(earlier: seq<Resolved>, entries: seq<Resolved>, used: seq<Resolved>)
    requires Known(earlier + entries, used)
    ensures Known(entries, used)
  {
    assert forall i :: 0 <= i < |entries| ==> entries[i] == (earlier + entries)[|earlier| + i];
  }

  lemma ResolveConcatenates(before: seq<string>, after: seq<string>, p: Platform)
    requires Resolves(before, p) && Resolves(after, p)
    ensures Resolves(before + after, p) && Resolve(before + after, p) == Resolve(before, p) + Resolve(after, p)
  {
    hide ParseConditionSpec;
    var all := before + after;
    assert forall i :: 0 <= i < |before| ==> all[i] == before[i];
    assert forall i :: 0 <= i < |after| ==> all[|before| + i] == after[i];
  }

  lemma NoUses(p: Platform)
    ensures FirstUseOrder([], 0) && Resolves([], p) && Used([]) == [] && Resolve([], p) == [] && Tabled(map[], [])
  {
  }

  lemma {:induction false} PlanInOrder(groups: seq<seq<string>>, p: Platform)
    requires Resolves(Flatten(groups), p)
    ensures FirstUseOrder(Flatten(PlanOf(groups, p).groups), |PlanOf(groups, p).conditions|)
    decreases |groups|
  {
    hide ParseConditionSpec, FirstUseOrder, Used, Indexes, Resolves;
    GroupsResolve(groups, p);
    if groups == [] {
      NoUses(p);
    } else {
      var n := |groups| - 1;
      GroupsResolve(groups[..n], p);
      PlanInOrder(groups[..n], p);
      ResolveConcatenates(Flatten(groups[..n]), groups[n], p);
      var earlier, entries := Resolve(Flatten(groups[..n]), p), Resolve(groups[n], p);
      GroupInOrder(Flatten(PlanOf(groups[..n], p).groups), earlier, entries);
      EarlierGroups(groups, p);
      var numbered := PlanOf(groups, p).groups;
      assert numbered[n] == Indexes(entries, Used(earlier + entries));
    }
  }

  lemma {:induction false} AllKnown(groups: seq<seq<string>>, used: seq<Resolved>, p: Platform, g: nat)
    requires Resolves(Flatten(groups), p) && Known(Resolve(Flatten(groups), p), used) && g < |groups|
    ensures Resolves(groups[g], p) && Known(Resolve(groups[g], p), used)
    decreases |groups|
  {
    hide ParseConditionSpec, Position;
    GroupsResolve(groups, p);
    var n := |groups| - 1;
    GroupsResolve(groups[..n], p);
    var earlier, last := Flatten(groups[..n]), groups[n];
    ResolveConcatenates(earlier, last, p);
    if g == n {
      KnownPart(Resolve(earlier, p), Resolve(last, p), used);
    } else {
      assert forall i :: 0 <= i < |earlier| ==> Resolve(earlier, p)[i] == Resolve(Flatten(groups), p)[i];
      AllKnown(groups[..n], used, p, g);
    }
  }

  /** A later group does not renumber the earlier ones. */
  lemma EarlierGroups(groups: seq<seq<string>>, p: Platform)
    requires Resolves(Flatten(groups), p) && groups != []
    ensures Resolves(Flatten(groups[..|groups| - 1]), p)
    ensures PlanOf(groups, p).groups[..|groups| - 1] == PlanOf(groups[..|groups| - 1], p).groups
  {
    hide ParseConditionSpec, Position, Indexes, Used;
    GroupsResolve(groups, p);
    var n := |groups| - 1;
    var earlier := groups[..n];
    GroupsResolve(earlier, p);
    ResolveConcatenates(Flatten(earlier), groups[n], p);
    var before, used := Used(Resolve(Flatten(earlier), p)), Used(Resolve(Flatten(groups), p));
    UsedGrows(Resolve(Flatten(earlier), p), Resolve(groups[n], p));
    UsedOnce(Resolve(Flatten(earlier), p));
    forall g | 0 <= g < n
      ensures PlanOf(groups, p).groups[g] == PlanOf(earlier, p).groups[g]
    {
      AllKnown(earlier, before, p, g);
      IndexesKept(Resolve(groups[g], p), before, used);
    }
  }

  // The imperative form

  /** The member the loops have reached is the first one that does not resolve. */
  lemma FaultFound(groups: seq<seq<string>>, g: nat, i: nat, p: Platform)
    requires g < |groups| && i < |groups[g]| && ParseConditionSpec(groups[g][i], p).Bad?
    requires Resolves(Flatten(groups[..g]), p) && Resolves(groups[g][..i], p)
    ensures Canonicalised(groups, p) == Bad(ParseConditionSpec(groups[g][i], p).error)
  {
    hide ParseConditionSpec;
    var done, group := Flatten(groups[..g]), groups[g];
    FlattenThrough(groups, g);
    FlattenPrefix(groups, g + 1);
    var all := Flatten(groups);
    var rest := all[|done| + |group|..];
    assert all == (done + group) + rest;
    FaultsConcatenate(Resolution, done + group, rest, p);
    FaultsConcatenate(Resolution, done, group, p);
    assert group == group[..i] + group[i..];
    FaultsConcatenate(Resolution, group[..i], group[i..], p);
    ResolvesIsFaultless(done, p);
    ResolvesIsFaultless(group[..i], p);
  }

  /** `conditionIndexes` finds the identities used so far. */
  ghost predicate Tabled(table: map<Identity, nat>, used: seq<Resolved>) {
    forall identity :: if Position(used, identity) < |used|
                       then identity in table && table[identity] == Position(used, identity)
                       else identity !in table
  }

  lemma TableGrows(table: map<Identity, nat>, used: seq<Resolved>, entry: Resolved)
    requires Tabled(table, used) && entry.identity !in table
    ensures Register(used, entry) == used + [entry]
    ensures Tabled(table[entry.identity := |used|], used + [entry])
  {
    var more, grown := used + [entry], table[entry.identity := |used|];
    assert Position(used, entry.identity) == |used|;
    forall identity
      ensures if Position(more, identity) < |more| then identity in grown && grown[identity] == Position(more, identity)
              else identity !in grown
    {
      if Position(used, identity) < |used| {
        PositionKept(used, more, identity);
      } else if identity == entry.identity {
        RegisterPosition(used, entry);
      }
    }
  }

  /** What the inner loop has made of `entries`, after the groups with `earlier`. */
  ghost predicate GroupBuilt(
    earlier: seq<Resolved>, entries: seq<Resolved>, used: seq<Resolved>, indexes: seq<nat>, seen: set<Identity>)
  {
    && used == Used(earlier + entries) && indexes == Indexes(entries, used)
    && forall identity :: identity in seen <==> Mentions(entries, identity)
  }

  lemma MemberRepeats(
      earlier: seq<Resolved>, entries: seq<Resolved>, entry: Resolved,
      used: seq<Resolved>, indexes: seq<nat>, seen: set<Identity>)
    requires GroupBuilt(earlier, entries, used, indexes, seen) && entry.identity in seen
    ensures GroupBuilt(earlier, entries + [entry], used, indexes, seen)
  {
    hide Position, Indexes, Used;
    MemberAdded(earlier, entries, entry);
    var i :| 0 <= i < |entries| && entries[i].identity == entry.identity;
    UsedOnce(earlier + entries);
    KnownPart(earlier, entries, used);
    IndexesMean(entries, used);
    forall identity
      ensures Mentions(entries + [entry], identity) <==> Mentions(entries, identity) || identity == entry.identity
    {
      MentionsMore(entries, entry, identity);
    }
  }

  lemma MemberNew(
      earlier: seq<Resolved>, entries: seq<Resolved>, entry: Resolved,
      used: seq<Resolved>, indexes: seq<nat>, seen: set<Identity>)
    requires GroupBuilt(earlier, entries, used, indexes, seen) && entry.identity !in seen
    ensures var more := Register(used, entry);
            GroupBuilt(earlier, entries + [entry], more,
                       indexes + [Position(more, entry.identity)], seen + {entry.identity})
  {
    hide Position, Indexes, Used;
    var more := Register(used, entry);
    var index := Position(more, entry.identity);
    MemberAdded(earlier, entries, entry);
    UsedOnce(earlier + entries);
    KnownPart(earlier, entries, used);
    IndexesMean(entries, used);
    RegisterPosition(used, entry);
    assert index !in indexes;
    forall identity
      ensures Mentions(entries + [entry], identity) <==> Mentions(entries, identity) || identity == entry.identity
    {
      MentionsMore(entries, entry, identity);
    }
  }

  lemma MemberAdded(earlier: seq<Resolved>, entries: seq<Resolved>, entry: Resolved)
    ensures var before, used := Used(earlier + entries), Used(earlier + (entries + [entry]));
            && used == Register(before, entry)
            && Indexes(entries + [entry], used) == Mention(Indexes(entries, before), Position(used, entry.identity))
  {
    KnownIndexes(earlier, entries, entry);
    assert earlier + (entries + [entry]) == earlier + entries + [entry];
    assert (entries + [entry])[..|entries|] == entries;
  }

  method Canonicalise(groups: seq<seq<string>>, p: Platform) returns (r: Outcome<Plan>)
    ensures r == Canonicalised(groups, p)
  {
    hide Canonicalised, ParseConditionSpec, Position, Used, Indexes, Tabled, GroupBuilt, Register, FirstFault, Resolves;
    var conditions: seq<Spec> := [];
    var numbered: seq<seq<nat>> := [];
    var table: map<Identity, nat> := map[];
    ghost var used: seq<Resolved> := [];
    NoUses(p);
    for g := 0 to |groups|
      invariant Resolves(Flatten(groups[..g]), p) && used == Used(Resolve(Flatten(groups[..g]), p))
      invariant conditions == Specs(used) && Tabled(table, used)
      invariant numbered == PlanOf(groups[..g], p).groups
    {
      var group := groups[g];
      var indexes: seq<nat> := [];
      var seen: set<Identity> := {};
      ghost var earlier := Resolve(Flatten(groups[..g]), p);
      GroupStarted(group, earlier, p);
      for i := 0 to |group|
        invariant Resolves(group[..i], p) && GroupBuilt(earlier, Resolve(group[..i], p), used, indexes, seen)
        invariant conditions == Specs(used) && Tabled(table, used)
      {
        var resolved := ParseConditionSpec(group[i], p);
        if resolved.Bad? {
          FaultFound(groups, g, i, p);
          return Bad(resolved.error);
        }
        var entry := resolved.value;
        ghost var entries := Resolve(group[..i], p);
        NextMember(group, i, p);
        if entry.identity in seen {
          MemberRepeats(earlier, entries, entry, used, indexes, seen);
          continue;
        }
        MemberNew(earlier, entries, entry, used, indexes, seen);
        TableLookup(table, used, entry);
        seen := seen + {entry.identity};
        if entry.identity !in table {
          TableGrows(table, used, entry);
          table := table[entry.identity := |conditions|];
          conditions := conditions + [entry.spec];
          used := used + [entry];
        }
        TableLookup(table, used, entry);
        indexes := indexes + [table[entry.identity]];
      }
      GroupFinished(groups, g, p, used, indexes, seen);
      numbered := numbered + [indexes];
    }
    assert groups[..|groups|] == groups;
    NoFault(groups, p);
    return Good(Plan(conditions, numbered));
  }

  lemma GroupStarted(group: seq<string>, earlier: seq<Resolved>, p: Platform)
    ensures Resolves(group[..0], p) && GroupBuilt(earlier, Resolve(group[..0], p), Used(earlier), [], {})
  {
    assert earlier + [] == earlier;
  }

  lemma NoFault(groups: seq<seq<string>>, p: Platform)
    requires Resolves(Flatten(groups), p)
    ensures Canonicalised(groups, p) == Good(PlanOf(groups, p))
  {
    ResolvesIsFaultless(Flatten(groups), p);
  }

  lemma NextMember(group: seq<string>, i: nat, p: Platform)
    requires i < |group| && Resolves(group[..i], p) && ParseConditionSpec(group[i], p).Good?
    ensures Resolves(group[..i + 1], p)
    ensures Resolve(group[..i + 1], p) == Resolve(group[..i], p) + [ParseConditionSpec(group[i], p).value]
  {
    hide ParseConditionSpec;
  }

  lemma TableLookup(table: map<Identity, nat>, used: seq<Resolved>, entry: Resolved)
    requires Tabled(table, used)
    ensures entry.identity in table <==> Register(used, entry) == used
    ensures entry.identity in table ==> table[entry.identity] == Position(used, entry.identity)
  {
  }

  lemma GroupFinished(groups: seq<seq<string>>, g: nat, p: Platform, used: seq<Resolved>, indexes: seq<nat>,
      seen: set<Identity>)
    requires g < |groups| && Resolves(Flatten(groups[..g]), p) && Resolves(groups[g][..|groups[g]|], p)
    requires GroupBuilt(Resolve(Flatten(groups[..g]), p), Resolve(groups[g][..|groups[g]|], p), used, indexes, seen)
    ensures Resolves(Flatten(groups[..g + 1]), p) && used == Used(Resolve(Flatten(groups[..g + 1]), p))
    ensures PlanOf(groups[..g + 1], p).groups == PlanOf(groups[..g], p).groups + [indexes]
  {
    hide ParseConditionSpec, Position, Used, Indexes;
    var group := groups[g];
    assert group[..|group|] == group;
    FlattenThrough(groups, g);
    ResolveConcatenates(Flatten(groups[..g]), group, p);
    EarlierGroups(groups[..g + 1], p);
    assert groups[..g + 1][..g] == groups[..g];
    GroupsResolve(groups[..g + 1], p);
    var all := PlanOf(groups[..g + 1], p).groups;
    assert all == all[..g] + [all[g]];
  }

  // What the plan promises

  /** IDs tell identities apart. */
  lemma IDsAreInjective(a: Identity, b: Identity)
    ensures IdentityID(a) == IdentityID(b) ==> a == b
  {
    var x, y := IdentityID(a), IdentityID(b);
    assert x[..1] == KindName(a.kind)[..1] && y[..1] == KindName(b.kind)[..1];
    assert x[0] == KindName(a.kind)[0] && y[0] == KindName(b.kind)[0];
    assert x[1] == KindName(a.kind)[1] && y[1] == KindName(b.kind)[1];
    if x == y {
      assert a.kind == b.kind;
      var n := |KindName(a.kind)| + 1;
      assert x[n..] == a.value && y[n..] == b.value;
    }
  }

  lemma SpecCarriesIdentity(raw: string, p: Platform)
    requires ParseConditionSpec(raw, p).Good?
    ensures var r := ParseConditionSpec(raw, p).value;
            r.spec.id == IdentityID(r.identity) && r.spec.kind == r.identity.kind
  {
  }

  /**
    Group indexes are in range, without repetition and never empty for a group with members; conditions
    carry pairwise distinct IDs, appear in first-use order, and none is unused.
   */
  lemma PlanIsCanonical(groups: seq<seq<string>>, p: Platform)
    requires Resolves(Flatten(groups), p)
    ensures var plan := PlanOf(groups, p);
            && |plan.groups| == |groups|
            && FirstUseOrder(Flatten(plan.groups), |plan.conditions|)
            && (forall g :: 0 <= g < |groups| ==>
                 Distinct(plan.groups[g]) && (groups[g] != [] ==> plan.groups[g] != []))
            && ValidIndexes(plan.groups, |plan.conditions|)
            && (forall c, d :: 0 <= c < d < |plan.conditions| ==> plan.conditions[c].id != plan.conditions[d].id)
  {
    hide ParseConditionSpec, FirstUseOrder, Used, Indexes, IdentityID, Position;
    var plan := PlanOf(groups, p);
    var entries := Resolve(Flatten(groups), p);
    var used := Used(entries);
    GroupsResolve(groups, p);
    PlanInOrder(groups, p);
    UsedOnce(entries);
    forall g | 0 <= g < |groups|
      ensures Distinct(plan.groups[g]) && (groups[g] != [] ==> plan.groups[g] != [])
      ensures forall k :: 0 <= k < |plan.groups[g]| ==> plan.groups[g][k] < |plan.conditions|
    {
      AllKnown(groups, used, p, g);
      IndexesMean(Resolve(groups[g], p), used);
      assert forall k :: 0 <= k < |plan.groups[g]| ==> plan.groups[g][k] in plan.groups[g];
      if groups[g] != [] {
        assert Mentions(Resolve(groups[g], p), Resolve(groups[g], p)[0].identity);
        assert Position(used, Resolve(groups[g], p)[0].identity) in plan.groups[g];
      }
    }
    forall c, d | 0 <= c < d < |plan.conditions|
      ensures plan.conditions[c].id != plan.conditions[d].id
    {
      EntrySpec(groups, p, c);
      EntrySpec(groups, p, d);
      IDsAreInjective(used[c].identity, used[d].identity);
    }
  }

  lemma EntrySpec(groups: seq<seq<string>>, p: Platform, c: nat)
    requires Resolves(Flatten(groups), p)
    requires c < |Used(Resolve(Flatten(groups), p))|
    ensures var r := Used(Resolve(Flatten(groups), p))[c];
            && r.spec.id == IdentityID(r.identity)
            && exists raw :: raw in Flatten(groups) && ParseConditionSpec(raw, p) == Good(r)
  {
    hide ParseConditionSpec, IdentityID;
    var members := Flatten(groups);
    UsedOnce(Resolve(members, p));
    var r := Used(Resolve(members, p))[c];
    var i :| 0 <= i < |members| && Resolve(members, p)[i] == r;
    SpecCarriesIdentity(members[i], p);
    assert members[i] in members;
  }

  /** Equivalent spellings, those with one identity, resolve to one spec. */
  lemma SameIdentitySameSpec(a: string, b: string, p: Platform)
    requires ParseConditionSpec(a, p).Good? && ParseConditionSpec(b, p).Good?
    requires ParseConditionSpec(a, p).value.identity == ParseConditionSpec(b, p).value.identity
    ensures ParseConditionSpec(a, p) == ParseConditionSpec(b, p)
  {
    hide ShowInteger, ShowInstant;
    var x, y := ParseConditionSpec(a, p).value.spec.payload, ParseConditionSpec(b, p).value.spec.payload;
    if x.Nanoseconds? && y.Nanoseconds? {
      IntegersApart(x.duration, y.duration);
    } else if x.Deadline? && y.Deadline? {
      InstantsApart(x.instant, y.instant);
    }
  }

  ghost predicate EntriesHold(entries: seq<Resolved>, truth: Spec -> bool) {
    forall i :: 0 <= i < |entries| ==> truth(entries[i].spec)
  }

  /** The raw expression: some group all of whose members are true. */
  ghost predicate RawHolds(groups: seq<seq<string>>, p: Platform, truth: Spec -> bool)
    requires AllResolve(groups, p)
  {
    exists g :: 0 <= g < |groups| && EntriesHold(Resolve(groups[g], p), truth)
  }

  ghost predicate ValidIndexes(groups: seq<seq<nat>>, count: nat) {
    forall g, k :: 0 <= g < |groups| && 0 <= k < |groups[g]| ==> groups[g][k] < count
  }

  ghost predicate GroupHolds(plan: Plan, g: nat, truth: Spec -> bool)
    requires g < |plan.groups| && ValidIndexes(plan.groups, |plan.conditions|)
  {
    forall c :: c in plan.groups[g] ==> truth(plan.conditions[c])
  }

  ghost predicate PlanHolds(plan: Plan, truth: Spec -> bool)
    requires ValidIndexes(plan.groups, |plan.conditions|)
  {
    exists g: nat :: g < |plan.groups| && GroupHolds(plan, g, truth)
  }

  /** The entry of an identity carries the spec of every member with that identity. */
  lemma EntrySharesSpec(groups: seq<seq<string>>, p: Platform, c: nat, raw: string)
    requires Resolves(Flatten(groups), p) && ParseConditionSpec(raw, p).Good?
    requires c < |Used(Resolve(Flatten(groups), p))|
    requires Used(Resolve(Flatten(groups), p))[c].identity == ParseConditionSpec(raw, p).value.identity
    ensures Used(Resolve(Flatten(groups), p))[c].spec == ParseConditionSpec(raw, p).value.spec
  {
    hide ParseConditionSpec, Used, Resolve;
    EntrySpec(groups, p, c);
    var r := Used(Resolve(Flatten(groups), p))[c];
    var other :| other in Flatten(groups) && ParseConditionSpec(other, p) == Good(r);
    SameIdentitySameSpec(other, raw, p);
  }

  /** What a group of indexes means, if each stands for the spec of the members it was made for. */
  lemma GroupMeansEntries(indexes: seq<nat>, entries: seq<Resolved>, used: seq<Resolved>, truth: Spec -> bool)
    requires GroupMeans(indexes, entries, used) && Known(entries, used)
    requires forall i, c: nat :: 0 <= i < |entries| && c < |used| && used[c].identity == entries[i].identity ==>
               used[c].spec == entries[i].spec
    ensures (forall c :: c in indexes ==> c < |used|)
    ensures (forall c :: c in indexes ==> truth(used[c].spec)) <==> EntriesHold(entries, truth)
  {
    hide Position;
    if forall c :: c in indexes ==> truth(used[c].spec) {
      forall i | 0 <= i < |entries|
        ensures truth(entries[i].spec)
      {
        var c := Position(used, entries[i].identity);
        assert Mentions(entries, used[c].identity);
        assert c in indexes;
      }
    }
  }

  lemma GroupMeaningKept(groups: seq<seq<string>>, p: Platform, truth: Spec -> bool, g: nat)
    requires Resolves(Flatten(groups), p) && g < |groups|
    ensures Resolves(groups[g], p) && ValidIndexes(PlanOf(groups, p).groups, |PlanOf(groups, p).conditions|)
    ensures GroupHolds(PlanOf(groups, p), g, truth) <==> EntriesHold(Resolve(groups[g], p), truth)
  {
    PlanIsCanonical(groups, p);
    hide ParseConditionSpec, Used, Indexes, Position, FirstUseOrder, Known, OneEach, GroupMeans;
    var used := Used(Resolve(Flatten(groups), p));
    GroupsResolve(groups, p);
    UsedOnce(Resolve(Flatten(groups), p));
    AllKnown(groups, used, p, g);
    var entries := Resolve(groups[g], p);
    IndexesMean(entries, used);
    forall i, c: nat | 0 <= i < |entries| && c < |used| && used[c].identity == entries[i].identity
      ensures used[c].spec == entries[i].spec
    {
      EntrySharesSpec(groups, p, c, groups[g][i]);
    }
    GroupMeansEntries(Indexes(entries, used), entries, used, truth);
  }

  /** Every valuation gives the plan and the raw OR of ANDs the same truth value. */
  lemma MeaningKept(groups: seq<seq<string>>, p: Platform, truth: Spec -> bool)
    requires Resolves(Flatten(groups), p)
    ensures AllResolve(groups, p) && ValidIndexes(PlanOf(groups, p).groups, |PlanOf(groups, p).conditions|)
    ensures PlanHolds(PlanOf(groups, p), truth) <==> RawHolds(groups, p, truth)
  {
    hide ParseConditionSpec, Used, Indexes, EntriesHold, GroupHolds;
    GroupsResolve(groups, p);
    PlanIsCanonical(groups, p);
    forall g: nat | g < |groups|
      ensures GroupHolds(PlanOf(groups, p), g, truth) <==> EntriesHold(Resolve(groups[g], p), truth)
    {
      GroupMeaningKept(groups, p, truth, g);
    }
  }
}
