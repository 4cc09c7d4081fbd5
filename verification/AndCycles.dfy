/**
  Which events an AND emits in Continuous mode, said without its loop: one for each cycle, where a cycle is
  the shortest run of messages in which every child fires, with the sources of each child's first event.
 */
module AndCycles {
  import opened Conditions
  import opened Sequences
  import opened SourceIds
  import opened Nodes
  import opened NetworkSteps
  import opened NetworkInvariant
  import opened Loops

  /** The sources of the first event of child `k`. */
  function FirstSources(messages: seq<Tagged>, k: nat): seq<string> {
    if messages == [] then []
    else if messages[0].index == k && messages[0].message.Fired? then EventSources(messages[0].message.event)
    else FirstSources(messages[1..], k)
  }

  /** The sources of a cycle of which the children in `matched` have already fired, with `sources`. */
  function Gathered(matched: seq<bool>, sources: seq<seq<string>>, messages: seq<Tagged>): (r: seq<seq<string>>)
    requires |matched| == |sources|
    ensures |r| == |matched|
  {
    seq(|matched|, k requires 0 <= k < |matched| => if matched[k] then sources[k] else FirstSources(messages, k))
  }

  /** The cycle is complete after `j` messages, and not earlier. */
  ghost predicate Completes(matched: seq<bool>, messages: seq<Tagged>, j: nat) {
    0 < j <= |messages| && Covers(matched, messages[..j]) && !Covers(matched, messages[..j - 1])
  }

  /** `events` are those of the cycles that `messages` hold, the first of which is under way. */
  ghost predicate Cycles(c: Condition, matched: seq<bool>, sources: seq<seq<string>>, messages: seq<Tagged>,
                         events: seq<Event>)
    requires |matched| == |sources|
    decreases |events|
  {
    if events == [] then !Covers(matched, messages)
    else exists j: nat :: CycleEnds(c, matched, sources, messages, events, j)
  }

  ghost predicate CycleEnds(c: Condition, matched: seq<bool>, sources: seq<seq<string>>, messages: seq<Tagged>,
                            events: seq<Event>, j: nat)
    requires |matched| == |sources| && events != []
    decreases |events|, 0
  {
    && Completes(matched, messages, j)
    && events[0] == Event(c.id, Merge(Gathered(matched, sources, messages[..j])))
    && Cycles(c, Unset(|matched|), NoSources(|matched|), messages[j..], events[1..])
  }

  // One message more at the front

  /** The matched children and their sources after one message. */
  function Noted(matched: seq<bool>, sources: seq<seq<string>>, t: Tagged): (r: (seq<bool>, seq<seq<string>>))
    requires |matched| == |sources| && t.index < |matched|
    ensures |r.0| == |r.1| == |matched|
  {
    if t.message.Closed? || matched[t.index] then (matched, sources)
    else (matched[t.index := true], sources[t.index := EventSources(t.message.event)])
  }

  lemma GatheredTail(matched: seq<bool>, sources: seq<seq<string>>, messages: seq<Tagged>)
    requires |matched| == |sources| && messages != [] && messages[0].index < |matched|
    ensures var (m, s) := Noted(matched, sources, messages[0]);
            Gathered(matched, sources, messages) == Gathered(m, s, messages[1..])
  {
    hide EventSources;
  }

  lemma CompletesTail(matched: seq<bool>, sources: seq<seq<string>>, messages: seq<Tagged>, j: nat)
    requires |matched| == |sources| && messages != [] && messages[0].index < |matched| && !AllMatched(matched)
    requires Completes(Noted(matched, sources, messages[0]).0, messages[1..], j)
    ensures Completes(matched, messages, j + 1)
  {
    hide Covers;
    var next := Noted(matched, sources, messages[0]).0;
    CoversTail(matched, messages[..j + 1], next);
    assert messages[..j + 1][1..] == messages[1..][..j];
    CoversTail(matched, messages[..j], next);
    assert messages[..j][1..] == messages[1..][..j - 1];
  }

  /** The message does not complete the cycle. */
  lemma {:induction false} CyclesTail(c: Condition, matched: seq<bool>, sources: seq<seq<string>>,
      messages: seq<Tagged>, events: seq<Event>)
    requires |matched| == |sources| && messages != [] && messages[0].index < |matched| && !AllMatched(matched)
    requires var (m, s) := Noted(matched, sources, messages[0]); Cycles(c, m, s, messages[1..], events)
    ensures Cycles(c, matched, sources, messages, events)
  {
    hide Covers, Completes, Gathered, Noted, Merge;
    var (m, s) := Noted(matched, sources, messages[0]);
    if events == [] {
      NotedCovers(matched, sources, messages);
    } else {
      var j: nat :| CycleEnds(c, m, s, messages[1..], events, j);
      CompletesTail(matched, sources, messages, j);
      CompletesWithin(m, messages[1..], j);
      GatheredTail(matched, sources, messages[..j + 1]);
      assert messages[..j + 1][1..] == messages[1..][..j];
      assert messages[1..][j..] == messages[j + 1..];
      assert CycleEnds(c, matched, sources, messages, events, j + 1);
    }
  }

  lemma CompletesWithin(matched: seq<bool>, messages: seq<Tagged>, j: nat)
    requires Completes(matched, messages, j)
    ensures 0 < j <= |messages|
  {
  }

  lemma NotedCovers(matched: seq<bool>, sources: seq<seq<string>>, messages: seq<Tagged>)
    requires |matched| == |sources| && messages != [] && messages[0].index < |matched|
    ensures Covers(matched, messages) <==> Covers(Noted(matched, sources, messages[0]).0, messages[1..])
  {
    CoversTail(matched, messages, Noted(matched, sources, messages[0]).0);
  }

  /** The message completes the cycle. */
  lemma {:induction false} CycleDone(c: Condition, matched: seq<bool>, sources: seq<seq<string>>, messages: seq<Tagged>,
      events: seq<Event>)
    requires |matched| == |sources| && messages != [] && messages[0].index < |matched| && !AllMatched(matched)
    requires AllMatched(Noted(matched, sources, messages[0]).0) && events != []
    requires events[0] == Event(c.id, Merge(Noted(matched, sources, messages[0]).1))
    requires Cycles(c, Unset(|matched|), NoSources(|matched|), messages[1..], events[1..])
    ensures Cycles(c, matched, sources, messages, events)
  {
    hide Merge, Cycles;
    var (m, s) := Noted(matched, sources, messages[0]);
    var one := messages[..1];
    assert one[1..] == [] && one[0] == messages[0];
    NotedCovers(matched, sources, one);
    GatheredTail(matched, sources, one);
    assert Gathered(m, s, []) == s;
    assert messages[..0] == [];
    assert CycleEnds(c, matched, sources, messages, events, 1);
    CyclesFrom(c, matched, sources, messages, events, 1);
  }

  lemma {:induction false} CyclesFrom(c: Condition, matched: seq<bool>, sources: seq<seq<string>>,
      messages: seq<Tagged>, events: seq<Event>, j: nat)
    requires |matched| == |sources| && events != [] && CycleEnds(c, matched, sources, messages, events, j)
    ensures Cycles(c, matched, sources, messages, events)
  {
  }

  lemma NothingCompletes(c: Condition, matched: seq<bool>, sources: seq<seq<string>>, messages: seq<Tagged>, k: nat)
    requires |matched| == |sources| && k < |matched| && !matched[k] && !FiredIn(messages, k)
    ensures Cycles(c, matched, sources, messages, [])
  {
  }

  lemma {:induction false} RunCycles(c: Condition, w: Work, messages: seq<Tagged>)
    requires c.And? && c.children != [] && Indexed(messages, |c.children|) && ClosesLast(messages)
    requires Head(w, |c.children|, messages)
    ensures Cycles(c, w.matched, w.sources, messages, Run(c, Continuous, w, messages))
    decreases |messages|, 1
  {
    hide Run, Cycles, Covers, OpenCount, Noted, AllMatched, FiredIn;
    var n := |c.children|;
    if messages == [] {
      var k := SomeUnmatched(w, n, messages);
      RunEmpty(c, Continuous, w);
      NothingFires(k);
      NothingCompletes(c, w.matched, w.sources, messages, k);
    } else {
      SomeOpen(w, n, messages);
      HeadTail(w, n, messages);
      AndUnfold(c, Continuous, w, messages);
      if messages[0].message.Closed? {
        CyclesAfterClose(c, w, messages);
      } else {
        CyclesAfterEvent(c, w, messages);
      }
    }
  }

  lemma SomeUnmatched(w: Work, n: nat, messages: seq<Tagged>) returns (k: nat)
    requires Head(w, n, messages)
    ensures k < n && !w.matched[k]
  {
    k :| 0 <= k < n && !w.matched[k];
  }

  lemma NothingFires(k: nat)
    ensures !FiredIn([], k)
  {
  }

  lemma CyclesAfterClose(c: Condition, w: Work, messages: seq<Tagged>)
    requires c.And? && c.children != [] && Indexed(messages, |c.children|) && ClosesLast(messages)
    requires Head(w, |c.children|, messages) && messages != [] && messages[0].message.Closed?
    ensures Cycles(c, w.matched, w.sources, messages, Run(c, Continuous, w, messages))
    decreases |messages|, 0
  {
    hide Run, Cycles, Covers, OpenCount;
    var n := |c.children|;
    var k, rest := messages[0].index, messages[1..];
    SomeOpen(w, n, messages);
    HeadTail(w, n, messages);
    ClosedFiresNoMore(messages);
    AndUnfold(c, Continuous, w, messages);
    if w.closed[k] {
      RunCycles(c, w, rest);
      CyclesTail(c, w.matched, w.sources, messages, Run(c, Continuous, w, rest));
    } else if !w.matched[k] {
      NothingCompletes(c, w.matched, w.sources, messages, k);
    } else {
      var w' := w.(closed := w.closed[k := true], open := w.open - 1);
      assert Marks(w'.closed) == Marks(w.closed)[k := EndMark(true)];
      OpenCountUpdate(Marks(w.closed), k, EndMark(true));
      SomeOpen(w', n, rest);
      RunCycles(c, w', rest);
      CyclesTail(c, w.matched, w.sources, messages, Run(c, Continuous, w', rest));
    }
  }

  lemma CyclesAfterEvent(c: Condition, w: Work, messages: seq<Tagged>)
    requires c.And? && c.children != [] && Indexed(messages, |c.children|) && ClosesLast(messages)
    requires Head(w, |c.children|, messages) && messages != [] && messages[0].message.Fired?
    ensures Cycles(c, w.matched, w.sources, messages, Run(c, Continuous, w, messages))
    decreases |messages|, 0
  {
    hide Run, Cycles, Covers, OpenCount;
    var n := |c.children|;
    var k, m, rest := messages[0].index, messages[0].message, messages[1..];
    SomeOpen(w, n, messages);
    HeadTail(w, n, messages);
    AndUnfold(c, Continuous, w, messages);
    if w.matched[k] {
      RunCycles(c, w, rest);
      CyclesTail(c, w.matched, w.sources, messages, Run(c, Continuous, w, rest));
    } else {
      var w' := w.(matched := w.matched[k := true], sources := w.sources[k := EventSources(m.event)]);
      if !AllMatched(w'.matched) {
        RunCycles(c, w', rest);
        CyclesTail(c, w.matched, w.sources, messages, Run(c, Continuous, w', rest));
      } else {
        CyclesAfterEmit(c, w', rest);
        CycleDone(c, w.matched, w.sources, messages, Run(c, Continuous, w, messages));
      }
    }
  }

  lemma CyclesAfterEmit(c: Condition, w: Work, rest: seq<Tagged>)
    requires c.And? && c.children != [] && Indexed(rest, |c.children|) && ClosesLast(rest)
    requires Fits(c, w) && w.open > 0 && w.open == OpenCount(Marks(w.closed))
    requires forall k :: 0 <= k < |w.closed| && w.closed[k] ==> !FiredIn(rest, k)
    ensures var (next, stays) := AfterEmit(c, Continuous, w);
            var n := |c.children|;
            Cycles(c, Unset(n), NoSources(n), rest, if stays then Run(c, Continuous, next, rest) else [])
    decreases |rest|, 2
  {
    hide Run, OpenCount, Cycles;
    var n := |c.children|;
    var (next, stays) := AfterEmit(c, Continuous, w);
    if stays {
      assert !next.matched[0];
      RunCycles(c, next, rest);
    } else {
      SomeClosed(w);
      var k: nat :| k < n && w.closed[k];
      NothingCompletes(c, Unset(n), NoSources(n), rest, k);
    }
  }

  /**
    For any messages in which no child fires after its close, an AND in Continuous mode emits exactly one
    event for each cycle: when every child has fired since the last one, and with the merged sources of the
    first event of each of them.
   */
  lemma AndEmitsItsCycles(c: Condition, messages: seq<Tagged>)
    requires c.And? && c.children != [] && Indexed(messages, |c.children|) && ClosesLast(messages)
    ensures var n := |c.children|;
            Cycles(c, Unset(n), NoSources(n), messages, Run(c, Continuous, InitialWork(c), messages))
  {
    hide Run, Cycles;
    var w := InitialWork(c);
    OpenCountMarks(|c.children|);
    assert !w.matched[0];
    RunCycles(c, w, messages);
  }

  // There is only one such list of events

  lemma CompletesOnce(matched: seq<bool>, messages: seq<Tagged>, j: nat, j': nat)
    requires Completes(matched, messages, j) && j <= j' <= |messages|
    ensures Covers(matched, messages[..j'])
    ensures Completes(matched, messages, j') ==> j == j'
  {
    CoversLonger(matched, messages, j, j');
    if j < j' {
      CoversLonger(matched, messages, j, j' - 1);
    }
  }

  lemma CoversLonger(matched: seq<bool>, messages: seq<Tagged>, j: nat, j': nat)
    requires j <= j' <= |messages| && Covers(matched, messages[..j])
    ensures Covers(matched, messages[..j'])
  {
    forall k | 0 <= k < |matched| && FiredIn(messages[..j], k)
      ensures FiredIn(messages[..j'], k)
    {
      assert messages[..j'][..j] == messages[..j];
      FiredInPart(messages[..j'], 0, j, k);
    }
  }

  lemma {:induction false} CyclesNeedCover(c: Condition, matched: seq<bool>, sources: seq<seq<string>>,
      messages: seq<Tagged>, events: seq<Event>)
    requires |matched| == |sources| && Cycles(c, matched, sources, messages, events)
    ensures events != [] <==> Covers(matched, messages)
  {
    hide Covers, Gathered, Merge;
    if events != [] {
      var j: nat :| CycleEnds(c, matched, sources, messages, events, j);
      CompletesOnce(matched, messages, j, |messages|);
      assert messages[..|messages|] == messages;
    }
  }

  /** `Cycles` leaves no choice. */
  lemma {:induction false} CyclesAreUnique(c: Condition, matched: seq<bool>, sources: seq<seq<string>>,
      messages: seq<Tagged>, events: seq<Event>, others: seq<Event>)
    requires |matched| == |sources|
    requires Cycles(c, matched, sources, messages, events) && Cycles(c, matched, sources, messages, others)
    ensures events == others
    decreases |events|
  {
    hide Covers, Gathered, Merge;
    CyclesNeedCover(c, matched, sources, messages, events);
    CyclesNeedCover(c, matched, sources, messages, others);
    if events != [] {
      var j: nat :| CycleEnds(c, matched, sources, messages, events, j);
      var j': nat :| CycleEnds(c, matched, sources, messages, others, j');
      CompletesOnce(matched, messages, if j <= j' then j else j', if j <= j' then j' else j);
      CyclesAreUnique(c, Unset(|matched|), NoSources(|matched|), messages[j..], events[1..], others[1..]);
      assert events == [events[0]] + events[1..] && others == [others[0]] + others[1..];
    }
  }
}
