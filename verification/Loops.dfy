/**
  The loops of and.go and or.go as programs: what one goroutine emits for the messages it receives, when
  nothing is cancelled.  The network uses the same `OnMessage` and `AfterEmit`.
 */
module Loops {
  import opened Conditions
  import opened Sequences
  import opened SourceIds
  import opened Nodes
  import opened NetworkSteps
  import opened NetworkInvariant

  predicate Indexed(messages: seq<Tagged>, n: nat) {
    forall i :: 0 <= i < |messages| ==> messages[i].index < n
  }

  /** The events emitted by a node at its loop head, for the messages still to come. */
  function Run(c: Condition, mode: Mode, w: Work, messages: seq<Tagged>): seq<Event>
    requires !c.Leaf? && Fits(c, w) && Indexed(messages, |c.children|)
    decreases |messages|
  {
    if messages == [] then []
    else
      var (work, action) := OnMessage(c, w, messages[0].index, messages[0].message);
      match action
      case Again => Run(c, mode, work, messages[1..])
      case Return => []
      case Emit(event) =>
        var (next, stays) := AfterEmit(c, mode, work);
        [event] + (if stays then Run(c, mode, next, messages[1..]) else [])
  }

  // and.go

  method AllTrue(matched: seq<bool>) returns (all: bool)
    ensures all <==> AllMatched(matched)
  {
    for i := 0 to |matched|
      invariant forall k :: 0 <= k < i ==> matched[k]
    {
      if !matched[i] {
        return false;
      }
    }
    return true;
  }

  method AnyTrue(closed: seq<bool>) returns (any: bool)
    ensures any <==> AnyClosed(closed)
  {
    for i := 0 to |closed|
      invariant forall k :: 0 <= k < i ==> !closed[k]
    {
      if closed[i] {
        return true;
      }
    }
    return false;
  }

  method MergeSources(sources: seq<seq<string>>) returns (ids: seq<string>)
    ensures ids == Merge(sources)
  {
    ids := [];
    for i := 0 to |sources|
      invariant ids == Merge(sources[..i])
    {
      assert sources[..i + 1][..i] == sources[..i];
      ids := AppendUniqueInto(ids, sources[i]);
    }
    assert sources[..|sources|] == sources;
  }

  /** What an AND emits from its loop guard on. */
  function FromGuard(c: Condition, mode: Mode, matched: seq<bool>, closed: seq<bool>, sources: seq<seq<string>>,
                     open: int, messages: seq<Tagged>): seq<Event>
    requires c.And? && Indexed(messages, |c.children|) && |matched| == |closed| == |sources| == |c.children|
  {
    if open > 0 then Run(c, mode, AndWork(matched, closed, sources, open), messages) else []
  }

  /** One round of the AND loop: what each branch of the loop body leaves to be emitted. */
  lemma AndRound(c: Condition, mode: Mode, matched: seq<bool>, closed: seq<bool>, sources: seq<seq<string>>, open: int,
                  messages: seq<Tagged>)
    requires c.And? && c.children != [] && Indexed(messages, |c.children|) && messages != []
    requires |matched| == |closed| == |sources| == |c.children| && open > 0
    ensures var k, m, rest, n := messages[0].index, messages[0].message, messages[1..], |c.children|;
            FromGuard(c, mode, matched, closed, sources, open, messages) ==
            if m.Closed? then
              if closed[k] then FromGuard(c, mode, matched, closed, sources, open, rest)
              else if !matched[k] then []
              else FromGuard(c, mode, matched, closed[k := true], sources, open - 1, rest)
            else if matched[k] then FromGuard(c, mode, matched, closed, sources, open, rest)
            else
              var matched', sources' := matched[k := true], sources[k := EventSources(m.event)];
              if !AllMatched(matched') then FromGuard(c, mode, matched', closed, sources', open, rest)
              else [Event(c.id, Merge(sources'))]
                   + if mode == Once || AnyClosed(closed) then []
                     else FromGuard(c, mode, Unset(n), closed, NoSources(n), open, rest)
  {
    hide AllMatched, AnyClosed, Merge, EventSources;
  }

  lemma GuardStarts(c: Condition, mode: Mode, messages: seq<Tagged>)
    requires c.And? && c.children != [] && Indexed(messages, |c.children|)
    ensures var n := |c.children|;
            |Unset(n)| == |NoSources(n)| == n
            && FromGuard(c, mode, Unset(n), Unset(n), NoSources(n), n, messages)
                 == Run(c, mode, InitialWork(c), messages)
  {
  }

  lemma GuardEnds(c: Condition, mode: Mode, matched: seq<bool>, closed: seq<bool>, sources: seq<seq<string>>, open: int,
                  messages: seq<Tagged>)
    requires c.And? && Indexed(messages, |c.children|) && |matched| == |closed| == |sources| == |c.children|
    requires open <= 0 || messages == []
    ensures FromGuard(c, mode, matched, closed, sources, open, messages) == []
  {
  }

  /** The message loop of `andCondition.run`. */
  method AndLoop(c: Condition, mode: Mode, messages: seq<Tagged>) returns (emitted: seq<Event>)
    requires c.And? && c.children != [] && Indexed(messages, |c.children|)
    ensures emitted == Run(c, mode, InitialWork(c), messages)
  {
    hide Run, AllMatched, AnyClosed, Merge, EventSources, FromGuard, Unset, NoSources, InitialWork;
    GuardStarts(c, mode, messages);
    var n := |c.children|;
    var matched, closed, sources := Unset(n), Unset(n), NoSources(n);
    var open := n;
    emitted := [];
    var i := 0;
    while open > 0 && i < |messages|
      invariant 0 <= i <= |messages| && |matched| == |closed| == |sources| == n
      invariant emitted + FromGuard(c, mode, matched, closed, sources, open, messages[i..])
                == Run(c, mode, InitialWork(c), messages)
      decreases |messages| - i
    {
      var k, m := messages[i].index, messages[i].message;
      AndRound(c, mode, matched, closed, sources, open, messages[i..]);
      assert messages[i..][1..] == messages[i + 1..];
      i := i + 1;
      if m.Closed? {
        if closed[k] {
          continue;
        }
        closed := closed[k := true];
        open := open - 1;
        if !matched[k] {
          return;
        }
        continue;
      }
      if matched[k] {
        continue;
      }
      matched := matched[k := true];
      sources := sources[k := EventSources(m.event)];
      var all := AllTrue(matched);
      if !all {
        continue;
      }
      var ids := MergeSources(sources);
      emitted := emitted + [Event(c.id, ids)];
      if mode == Once {
        return;
      }
      matched, sources := Unset(n), NoSources(n);
      var any := AnyTrue(closed);
      if any {
        return;
      }
    }
    GuardEnds(c, mode, matched, closed, sources, open, messages[i..]);
  }

  lemma RunEmpty(c: Condition, mode: Mode, w: Work)
    requires !c.Leaf? && Fits(c, w)
    ensures Run(c, mode, w, []) == []
  {
  }

  // In Continuous mode an AND emits as often as it possibly could

  predicate FiredIn(messages: seq<Tagged>, k: nat) {
    exists i :: 0 <= i < |messages| && messages[i].index == k && messages[i].message.Fired?
  }

  /** Every child fires in `messages`, unless it is matched already. */
  predicate Covers(matched: seq<bool>, messages: seq<Tagged>) {
    forall k :: 0 <= k < |matched| ==> matched[k] || FiredIn(messages, k)
  }

  /**
    `messages` can be cut into `count` consecutive blocks, and a remainder, such that every child fires in
    each of them; for the first block the children in `matched` need not.
   */
  ghost predicate Packs(matched: seq<bool>, messages: seq<Tagged>, count: nat)
    decreases count
  {
    count == 0 ||
    exists j: nat :: j <= |messages| && Covers(matched, messages[..j])
        && Packs(Unset(|matched|), messages[j..], count - 1)
  }

  /** No child fires after its close. */
  predicate ClosesLast(messages: seq<Tagged>) {
    forall i, j :: 0 <= i < j < |messages| && messages[i].message.Closed? && messages[j].index == messages[i].index ==>
      messages[j].message.Closed?
  }

  /** The state of the loop between two messages. */
  ghost predicate Head(w: Work, n: nat, messages: seq<Tagged>) {
    && w.AndWork? && |w.matched| == |w.closed| == |w.sources| == n
    && !AllMatched(w.matched)
    && (forall k :: 0 <= k < n && w.closed[k] ==> w.matched[k] && !FiredIn(messages, k))
    && w.open == OpenCount(Marks(w.closed))
  }

  function Marks(closed: seq<bool>): seq<seq<Message>> {
    seq(|closed|, k requires 0 <= k < |closed| => EndMark(closed[k]))
  }

  lemma SomeOpen(w: Work, n: nat, messages: seq<Tagged>)
    requires Head(w, n, messages)
    ensures w.open > 0
  {
    var k :| 0 <= k < n && !w.matched[k];
    OpenCountZero(Marks(w.closed));
    assert !EndsClosed(Marks(w.closed)[k]);
  }

  lemma FiredInTail(messages: seq<Tagged>, k: nat)
    requires messages != []
    ensures FiredIn(messages, k) <==>
            (messages[0].index == k && messages[0].message.Fired?) || FiredIn(messages[1..], k)
  {
    if FiredIn(messages, k) && !(messages[0].index == k && messages[0].message.Fired?) {
      var i :| 0 <= i < |messages| && messages[i].index == k && messages[i].message.Fired?;
      assert messages[1..][i - 1] == messages[i];
    }
    if FiredIn(messages[1..], k) {
      var i :| 0 <= i < |messages| - 1 && messages[1..][i].index == k && messages[1..][i].message.Fired?;
      assert messages[i + 1] == messages[1..][i];
    }
  }

  lemma CoversNeedsMessages(matched: seq<bool>, messages: seq<Tagged>)
    requires !AllMatched(matched) && Covers(matched, messages)
    ensures messages != []
  {
    var k :| 0 <= k < |matched| && !matched[k];
    assert FiredIn(messages, k);
  }

  /** Reading one message: the first block can start after it, with its child matched. */
  lemma PacksTail(matched: seq<bool>, messages: seq<Tagged>, count: nat, next: seq<bool>)
    requires messages != [] && !AllMatched(matched) && |next| == |matched|
    requires forall k :: 0 <= k < |matched| ==>
               (next[k] <==> matched[k] || (messages[0].index == k && messages[0].message.Fired?))
    ensures Packs(matched, messages, count) <==> Packs(next, messages[1..], count)
  {
    hide Covers, FiredIn, AllMatched;
    if count > 0 && Packs(matched, messages, count) {
      var j: nat :| j <= |messages| && Covers(matched, messages[..j])
          && Packs(Unset(|matched|), messages[j..], count - 1);
      CoversNeedsMessages(matched, messages[..j]);
      CoversTail(matched, messages[..j], next);
      assert messages[..j][1..] == messages[1..][..j - 1];
      assert messages[1..][j - 1..] == messages[j..];
    }
    if count > 0 && Packs(next, messages[1..], count) {
      var rest := messages[1..];
      var j: nat :| j <= |rest| && Covers(next, rest[..j]) && Packs(Unset(|next|), rest[j..], count - 1);
      CoversTail(matched, messages[..j + 1], next);
      assert messages[..j + 1][1..] == messages[1..][..j];
      assert messages[1..][j..] == messages[j + 1..];
    }
  }

  lemma CoversTail(matched: seq<bool>, messages: seq<Tagged>, next: seq<bool>)
    requires messages != [] && |next| == |matched|
    requires forall k :: 0 <= k < |matched| ==>
               (next[k] <==> matched[k] || (messages[0].index == k && messages[0].message.Fired?))
    ensures Covers(matched, messages) <==> Covers(next, messages[1..])
  {
    forall k: nat | k < |matched|
      ensures FiredIn(messages, k) <==>
              (messages[0].index == k && messages[0].message.Fired?) || FiredIn(messages[1..], k)
    {
      FiredInTail(messages, k);
    }
  }

  lemma FiredInPart(messages: seq<Tagged>, j: nat, i: nat, k: nat)
    requires j <= i <= |messages|
    ensures FiredIn(messages[j..][..i - j], k) ==> FiredIn(messages[..i], k)
    ensures FiredIn(messages[..i], k) ==> FiredIn(messages, k)
  {
    if FiredIn(messages[j..][..i - j], k) {
      var a :| 0 <= a < i - j && messages[j..][..i - j][a].index == k && messages[j..][..i - j][a].message.Fired?;
      assert messages[..i][j + a] == messages[j..][..i - j][a];
    }
    if FiredIn(messages[..i], k) {
      var a :| 0 <= a < i && messages[..i][a].index == k && messages[..i][a].message.Fired?;
      assert messages[a] == messages[..i][a];
    }
  }

  lemma CoversEarlier(n: nat, messages: seq<Tagged>, j: nat, i: nat)
    requires j <= i <= |messages| && Covers(Unset(n), messages[j..][..i - j])
    ensures Covers(Unset(n), messages[..i])
  {
    forall k: nat | k < n
      ensures Unset(n)[k] || FiredIn(messages[..i], k)
    {
      assert Unset(n)[k] || FiredIn(messages[j..][..i - j], k);
      FiredInPart(messages, j, i, k);
    }
  }

  /** Starting a block earlier cannot hurt. */
  lemma PacksEarlier(n: nat, messages: seq<Tagged>, count: nat, j: nat)
    requires j <= |messages| && Packs(Unset(n), messages[j..], count)
    ensures Packs(Unset(n), messages, count)
  {
    hide Covers;
    if count > 0 {
      var rest := messages[j..];
      var i: nat :| i <= |rest| && Covers(Unset(n), rest[..i]) && Packs(Unset(|Unset(n)|), rest[i..], count - 1);
      CoversEarlier(n, messages, j, j + i);
      assert messages[j..][i..] == messages[j + i..];
    }
  }

  /** Once every child is matched, the block can end there: the rest is free for the other blocks. */
  lemma PacksGreedily(matched: seq<bool>, messages: seq<Tagged>, count: nat)
    requires AllMatched(matched) && 0 < count
    ensures Packs(matched, messages, count) <==> Packs(Unset(|matched|), messages, count - 1)
  {
    if Packs(matched, messages, count) {
      var j: nat :| j <= |messages| && Covers(matched, messages[..j])
          && Packs(Unset(|matched|), messages[j..], count - 1);
      PacksEarlier(|matched|, messages, count - 1, j);
    }
    if Packs(Unset(|matched|), messages, count - 1) {
      assert messages[0..] == messages;
      assert Covers(matched, messages[..0]);
    }
  }

  /** A child that is unmatched and fires no more stops every further block. */
  lemma NothingPacks(matched: seq<bool>, messages: seq<Tagged>, count: nat, k: nat)
    requires k < |matched| && !matched[k] && !FiredIn(messages, k)
    ensures Packs(matched, messages, count) <==> count == 0
  {
    forall j: nat | j <= |messages|
      ensures !Covers(matched, messages[..j])
    {
      FiredInPart(messages, 0, j, k);
    }
  }

  /** What `Run` leaves to do once `event` has been emitted. */
  function AfterEvent(c: Condition, mode: Mode, w: Work, event: Event, messages: seq<Tagged>): seq<Event>
    requires !c.Leaf? && Fits(c, w) && Indexed(messages, |c.children|)
  {
    var (next, stays) := AfterEmit(c, mode, w);
    [event] + (if stays then Run(c, mode, next, messages) else [])
  }

  /** `Run` by one message of an AND. */
  lemma AndUnfold(c: Condition, mode: Mode, w: Work, messages: seq<Tagged>)
    requires c.And? && Fits(c, w) && Indexed(messages, |c.children|) && messages != []
    ensures var k, m, rest := messages[0].index, messages[0].message, messages[1..];
            var (work, action) := OnMessage(c, w, k, m);
            Run(c, mode, w, messages) ==
            match action
            case Again => Run(c, mode, work, rest)
            case Return => []
            case Emit(event) => AfterEvent(c, mode, work, event, rest)
  {
  }

  lemma {:induction false} RunIsOptimal(c: Condition, w: Work, messages: seq<Tagged>, count: nat)
    requires c.And? && c.children != [] && Indexed(messages, |c.children|) && ClosesLast(messages)
    requires Head(w, |c.children|, messages)
    ensures Packs(w.matched, messages, count) <==> count <= |Run(c, Continuous, w, messages)|
    decreases |messages|, 1
  {
    hide Run, Packs, Covers, OpenCount;
    if messages == [] {
      var k: nat :| k < |c.children| && !w.matched[k];
      NothingPacks(w.matched, messages, count, k);
      RunEmpty(c, Continuous, w);
    } else if messages[0].message.Closed? {
      OptimalAfterClose(c, w, messages, count);
    } else {
      OptimalAfterEvent(c, w, messages, count);
    }
  }

  lemma OptimalAfterClose(c: Condition, w: Work, messages: seq<Tagged>, count: nat)
    requires c.And? && c.children != [] && Indexed(messages, |c.children|) && ClosesLast(messages)
    requires Head(w, |c.children|, messages) && messages != [] && messages[0].message.Closed?
    ensures Packs(w.matched, messages, count) <==> count <= |Run(c, Continuous, w, messages)|
    decreases |messages|, 0
  {
    hide Run, Packs, Covers, OpenCount;
    var n := |c.children|;
    var k, rest := messages[0].index, messages[1..];
    SomeOpen(w, n, messages);
    HeadTail(w, n, messages);
    ClosedFiresNoMore(messages);
    AndUnfold(c, Continuous, w, messages);
    if w.closed[k] {
      PacksTail(w.matched, messages, count, w.matched);
      RunIsOptimal(c, w, rest, count);
    } else if !w.matched[k] {
      NothingPacks(w.matched, messages, count, k);
    } else {
      var w' := w.(closed := w.closed[k := true], open := w.open - 1);
      assert Marks(w'.closed) == Marks(w.closed)[k := EndMark(true)];
      OpenCountUpdate(Marks(w.closed), k, EndMark(true));
      SomeOpen(w', n, rest);
      PacksTail(w.matched, messages, count, w.matched);
      RunIsOptimal(c, w', rest, count);
    }
  }

  lemma OptimalAfterEvent(c: Condition, w: Work, messages: seq<Tagged>, count: nat)
    requires c.And? && c.children != [] && Indexed(messages, |c.children|) && ClosesLast(messages)
    requires Head(w, |c.children|, messages) && messages != [] && messages[0].message.Fired?
    ensures Packs(w.matched, messages, count) <==> count <= |Run(c, Continuous, w, messages)|
    decreases |messages|, 0
  {
    hide Run, Packs, Covers, OpenCount;
    var n := |c.children|;
    var k, m, rest := messages[0].index, messages[0].message, messages[1..];
    SomeOpen(w, n, messages);
    HeadTail(w, n, messages);
    AndUnfold(c, Continuous, w, messages);
    if w.matched[k] {
      PacksTail(w.matched, messages, count, w.matched);
      RunIsOptimal(c, w, rest, count);
    } else {
      var w' := w.(matched := w.matched[k := true], sources := w.sources[k := EventSources(m.event)]);
      PacksTail(w.matched, messages, count, w'.matched);
      if !AllMatched(w'.matched) {
        RunIsOptimal(c, w', rest, count);
      } else {
        CompletedBlock(c, w', rest, count);
      }
    }
  }

  lemma HeadTail(w: Work, n: nat, messages: seq<Tagged>)
    requires Head(w, n, messages) && messages != []
    ensures Head(w, n, messages[1..])
  {
    forall k: nat | k < n && w.closed[k]
      ensures !FiredIn(messages[1..], k)
    {
      FiredInTail(messages, k);
    }
  }

  lemma ClosedFiresNoMore(messages: seq<Tagged>)
    requires messages != [] && messages[0].message.Closed? && ClosesLast(messages)
    ensures !FiredIn(messages, messages[0].index) && ClosesLast(messages[1..])
  {
  }

  lemma SomeClosed(w: Work)
    requires w.AndWork? && AnyClosed(w.closed)
    ensures exists k: nat :: k < |w.closed| && w.closed[k]
  {
  }

  /** The emission, the reset, and the early return when a child is closed. */
  lemma CompletedBlock(c: Condition, w: Work, rest: seq<Tagged>, count: nat)
    requires c.And? && c.children != [] && Indexed(rest, |c.children|) && ClosesLast(rest)
    requires Fits(c, w) && AllMatched(w.matched) && w.open > 0 && w.open == OpenCount(Marks(w.closed))
    requires forall k :: 0 <= k < |w.closed| && w.closed[k] ==> !FiredIn(rest, k)
    ensures var (next, stays) := AfterEmit(c, Continuous, w);
            Packs(w.matched, rest, count) <==>
            count <= 1 + |if stays then Run(c, Continuous, next, rest) else []|
    decreases |rest|, 2
  {
    hide Run, OpenCount;
    var n := |c.children|;
    var (next, stays) := AfterEmit(c, Continuous, w);
    if count > 0 {
      PacksGreedily(w.matched, rest, count);
      hide Packs;
      assert Unset(n) == next.matched;
      if stays {
        assert !next.matched[0];
        RunIsOptimal(c, next, rest, count - 1);
      } else {
        SomeClosed(w);
        var k: nat :| k < n && w.closed[k];
        NothingPacks(Unset(n), rest, count - 1, k);
      }
    }
  }

  /**
    For any messages in which no child fires after its close, the number of events an AND emits in
    Continuous mode is the largest number of disjoint consecutive blocks in which every child fires: the
    repeats it drops and its early returns lose nothing.
   */
  lemma AndIsOptimal(c: Condition, messages: seq<Tagged>, count: nat)
    requires c.And? && c.children != [] && Indexed(messages, |c.children|) && ClosesLast(messages)
    ensures Packs(Unset(|c.children|), messages, count) <==> count <= |Run(c, Continuous, InitialWork(c), messages)|
  {
    var w := InitialWork(c);
    OpenCountMarks(|c.children|);
    assert !w.matched[0];
    RunIsOptimal(c, w, messages, count);
  }

  lemma OpenCountMarks(n: nat)
    ensures OpenCount(Marks(Unset(n))) == n
  {
    OpenCountEmpty(Marks(Unset(n)));
  }

  // or.go

  /** One round of the OR loop. */
  lemma OrRound(c: Condition, mode: Mode, open: int, messages: seq<Tagged>)
    requires c.Or? && c.children != [] && Indexed(messages, |c.children|) && messages != [] && open > 0
    ensures var m, rest := messages[0].message, messages[1..];
            Run(c, mode, OrWork(open), messages) ==
            if m.Closed? then (if open > 1 then Run(c, mode, OrWork(open - 1), rest) else [])
            else [Event(c.id, EventSources(m.event))] + if mode == Once then [] else Run(c, mode, OrWork(open), rest)
  {
    hide EventSources;
  }

  /** The message loop of `orCondition.run`. */
  method OrLoop(c: Condition, mode: Mode, messages: seq<Tagged>) returns (emitted: seq<Event>)
    requires c.Or? && c.children != [] && Indexed(messages, |c.children|)
    ensures emitted == Run(c, mode, InitialWork(c), messages)
  {
    hide Run, EventSources;
    var remaining: int := |c.children|;
    emitted := [];
    var i := 0;
    while remaining > 0 && i < |messages|
      invariant 0 <= i <= |messages|
      invariant remaining > 0 ==>
                  emitted + Run(c, mode, OrWork(remaining), messages[i..]) == Run(c, mode, InitialWork(c), messages)
      invariant remaining <= 0 ==> emitted == Run(c, mode, InitialWork(c), messages)
    {
      var m := messages[i].message;
      OrRound(c, mode, remaining, messages[i..]);
      assert messages[i..][1..] == messages[i + 1..];
      i := i + 1;
      if m.Closed? {
        remaining := remaining - 1;
        continue;
      }
      emitted := emitted + [Event(c.id, EventSources(m.event))];
      if mode == Once {
        return;
      }
    }
    RunEmpty(c, mode, OrWork(remaining));
    assert messages[|messages|..] == [];
  }

  /** The events of all children, as an OR announces them. */
  function Forwarded(id: string, messages: seq<Tagged>): seq<Event> {
    if messages == [] then []
    else
      (if messages[0].message.Fired? then [Event(id, EventSources(messages[0].message.event))] else [])
      + Forwarded(id, messages[1..])
  }

  function Closes(messages: seq<Tagged>): nat {
    if messages == [] then 0
    else (if messages[0].message.Closed? then 1 else 0) + Closes(messages[1..])
  }

  /** With fewer closes than children so far, an OR in Continuous mode has forwarded every event, in order. */
  lemma {:induction false} OrForwardsEverything(c: Condition, open: int, messages: seq<Tagged>)
    requires c.Or? && Indexed(messages, |c.children|) && c.children != [] && Closes(messages) < open
    ensures Run(c, Continuous, OrWork(open), messages) == Forwarded(c.id, messages)
    decreases |messages|
  {
    if messages != [] {
      OrForwardsEverything(c, if messages[0].message.Closed? then open - 1 else open, messages[1..]);
    }
  }

  /** In Once mode a node emits the first event it would emit in Continuous mode, and no other. */
  lemma {:induction false} OnceIsTheFirst(c: Condition, w: Work, messages: seq<Tagged>)
    requires !c.Leaf? && c.children != [] && Fits(c, w) && Indexed(messages, |c.children|)
    ensures var all := Run(c, Continuous, w, messages);
            Run(c, Once, w, messages) == if all == [] then [] else [all[0]]
    decreases |messages|
  {
    if messages != [] {
      var (work, action) := OnMessage(c, w, messages[0].index, messages[0].message);
      if action.Again? {
        OnceIsTheFirst(c, work, messages[1..]);
      }
    }
  }
}
