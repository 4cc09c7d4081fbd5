/** The lifecycle records of events.go and the arbitration between copying and cutting off in main.go. */
module Lifecycle {
  import opened Options

  const CONDITION_TRIGGERED := "condition-triggered"
  const STREAM_CUTOFF := "stream-cutoff"

  const EXIT_OK := 0
  const EXIT_COPY_ERROR := 1

  datatype Record = Record(event: string, timestamp: string)

  /** The answer of one write: how many bytes went out, and whether it failed. */
  datatype Reply = Reply(written: int, failed: bool)

  /** One write to the event descriptor. */
  datatype Attempt = Attempt(record: Record, line: string, reply: Reply)
  {
    predicate Complete() {
      !reply.failed && reply.written == |line|
    }
  }

  /** The world outside: how a record is rendered (if it can be), and how the n-th write goes. */
  datatype Outside = Outside(render: Record -> Option<string>, write: nat -> Reply)

  /** The state of an emitter, with the history of its descriptor and the number of warnings raised. */
  datatype Sink = Sink(disabled: bool, closed: bool, attempts: seq<Attempt>, warnings: nat)

  const FRESH_SINK := Sink(false, false, [], 0)

  /** Nothing follows an incomplete write, and whatever went wrong was warned about once. */
  ghost predicate Orderly(sink: Sink) {
    && (forall i :: 0 <= i < |sink.attempts| && !sink.attempts[i].Complete() ==>
         i == |sink.attempts| - 1 && sink.disabled)
    && sink.warnings == if sink.disabled then 1 else 0
  }

  /** The events that were written completely, in order. */
  function Complete(attempts: seq<Attempt>): seq<string> {
    if attempts == [] then []
    else
      var n := |attempts| - 1;
      Complete(attempts[..n]) + if attempts[n].Complete() then [attempts[n].record.event] else []
  }

  /** What one `emitRecord` makes of the sink. */
  function Emitted(sink: Sink, record: Record, outside: Outside): Sink {
    if sink.disabled || sink.closed then sink
    else
      match outside.render(record)
      case None => sink.(disabled := true, warnings := sink.warnings + 1)
      case Some(line) =>
        var attempt := Attempt(record, line + "\n", outside.write(|sink.attempts|));
        var more := sink.(attempts := sink.attempts + [attempt]);
        if attempt.Complete() then more else more.(disabled := true, warnings := sink.warnings + 1)
  }

  class EventEmitter {
    var disabled: bool
    var closed: bool
    var attempts: seq<Attempt>
    var warnings: nat

    function View(): Sink
      reads this
    {
      Sink(disabled, closed, attempts, warnings)
    }

    constructor ()
      ensures View() == FRESH_SINK
    {
      disabled, closed, attempts, warnings := false, false, [], 0;
    }

    method EmitRecord(record: Record, outside: Outside)
      requires Orderly(View())
      modifies this
      ensures View() == Emitted(old(View()), record, outside)
      ensures Orderly(View())
      ensures old(disabled) || old(closed) ==> View() == old(View())
      ensures old(disabled) ==> disabled
    {
      EmissionIsOrderly(View(), record, outside);
      if disabled || closed {
        return;
      }
      var line := outside.render(record);
      var failed := line.None?;
      if line.Some? {
        var text := line.value + "\n";
        var reply := outside.write(|attempts|);
        attempts := attempts + [Attempt(record, text, reply)];
        failed := reply.failed;
        if !failed && reply.written != |text| {
          failed := true;
        }
      }
      if failed {
        disabled := true;
        warnings := warnings + 1;
      }
    }

    method Close()
      modifies this
      ensures View() == old(View()).(closed := true)
    {
      if closed {
        return;
      }
      closed := true;
    }
  }

  lemma EmissionIsOrderly(sink: Sink, record: Record, outside: Outside)
    requires Orderly(sink)
    ensures Orderly(Emitted(sink, record, outside))
  {
  }

  lemma EmissionCompletes(sink: Sink, record: Record, outside: Outside)
    ensures var more := Emitted(sink, record, outside);
            if more.disabled || sink.closed then Complete(more.attempts) == Complete(sink.attempts)
            else Complete(more.attempts) == Complete(sink.attempts) + [record.event]
  {
    if !sink.disabled && !sink.closed && outside.render(record).Some? {
      var more := Emitted(sink, record, outside);
      assert more.attempts[..|sink.attempts|] == sink.attempts;
    }
  }

  /** `emitCutoffEvents`: both records, each with its own reading of the clock. */
  function CutOff(sink: Sink, stamps: (string, string), outside: Outside): Sink {
    Emitted(Emitted(sink, Record(CONDITION_TRIGGERED, stamps.0), outside), Record(STREAM_CUTOFF, stamps.1), outside)
  }

  method EmitCutoffEvents(emitter: EventEmitter?, stamps: (string, string), outside: Outside)
    requires emitter != null ==> Orderly(emitter.View())
    modifies emitter
    ensures emitter != null ==>
            emitter.View() == CutOff(old(emitter.View()), stamps, outside) && Orderly(emitter.View())
  {
    if emitter == null {
      return;
    }
    emitter.EmitRecord(Record(CONDITION_TRIGGERED, stamps.0), outside);
    emitter.EmitRecord(Record(STREAM_CUTOFF, stamps.1), outside);
  }

  /** The two records in their order, or the first alone, or none; and none after a failure. */
  lemma CutOffWritesAPrefix(stamps: (string, string), outside: Outside)
    ensures var sink := CutOff(FRESH_SINK, stamps, outside);
            && Orderly(sink)
            && Complete(sink.attempts) <= [CONDITION_TRIGGERED, STREAM_CUTOFF]
            && (sink.disabled <==> Complete(sink.attempts) != [CONDITION_TRIGGERED, STREAM_CUTOFF])
  {
    var first, second := Record(CONDITION_TRIGGERED, stamps.0), Record(STREAM_CUTOFF, stamps.1);
    var sink := Emitted(FRESH_SINK, first, outside);
    EmissionIsOrderly(FRESH_SINK, first, outside);
    EmissionIsOrderly(sink, second, outside);
    EmissionCompletes(FRESH_SINK, first, outside);
    EmissionCompletes(sink, second, outside);
    assert Complete([]) + [CONDITION_TRIGGERED] + [STREAM_CUTOFF] == [CONDITION_TRIGGERED, STREAM_CUTOFF];
  }

  // Arbitration

  datatype Copy = Copy(at: nat, failed: bool)

  datatype Condition = Condition(at: nat, open: bool)

  /**
    When the copy ends and when the condition stream delivers or closes, if they do; when the three selects
    of the forwarding phase look, and which ready channel the middle one prefers.
   */
  datatype Timeline = Timeline(
    copy: Option<Copy>, condition: Option<Condition>, first: nat, middle: nat, last: nat, prefersCopy: bool)
  {
    predicate CopyDone(t: nat) {
      copy.Some? && copy.value.at <= t
    }

    predicate ConditionReady(t: nat) {
      condition.Some? && condition.value.at <= t
    }

    /** Time passes, and the middle select returns only when a channel is ready. */
    predicate Possible() {
      first <= middle <= last && (CopyDone(middle) || ConditionReady(middle))
    }

    predicate MiddleTakesCopy()
    {
      CopyDone(middle) && (prefersCopy || !ConditionReady(middle))
    }
  }

  function CopyExit(copy: Copy): int {
    if copy.failed then EXIT_COPY_ERROR else EXIT_OK
  }

  /** The exit code of the forwarding phase without an emitter. */
  function ExitWithoutEmitter(t: Timeline): int
    requires t.Possible()
  {
    if t.MiddleTakesCopy() then CopyExit(t.copy.value) else EXIT_OK
  }

  method WaitForCopyOrCondition(t: Timeline, emitter: EventEmitter?, stamps: (string, string), outside: Outside)
    returns (code: int)
    requires t.Possible() && (emitter != null ==> Orderly(emitter.View()))
    modifies emitter
    ensures emitter == null ==> code == ExitWithoutEmitter(t)
    ensures emitter != null ==> code == if t.CopyDone(t.last) then CopyExit(t.copy.value) else EXIT_OK
    ensures emitter != null ==>
            emitter.View() == if t.CopyDone(t.last) || !t.condition.value.open then old(emitter.View())
                                                  else CutOff(old(emitter.View()), stamps, outside)
    ensures emitter != null ==> Orderly(emitter.View())
  {
    if emitter == null {
      if t.MiddleTakesCopy() {
        return if t.copy.value.failed then EXIT_COPY_ERROR else EXIT_OK;
      }
      return EXIT_OK;
    }
    if t.CopyDone(t.first) {
      return if t.copy.value.failed then EXIT_COPY_ERROR else EXIT_OK;
    }
    if t.MiddleTakesCopy() {
      return if t.copy.value.failed then EXIT_COPY_ERROR else EXIT_OK;
    }
    code := HandleConditionEvent(t, emitter, stamps, outside);
  }

  method HandleConditionEvent(t: Timeline, emitter: EventEmitter, stamps: (string, string), outside: Outside)
    returns (code: int)
    requires t.ConditionReady(t.middle) && Orderly(emitter.View())
    modifies emitter
    ensures code == if t.CopyDone(t.last) then CopyExit(t.copy.value) else EXIT_OK
    ensures emitter.View() == if t.CopyDone(t.last) || !t.condition.value.open then old(emitter.View())
                              else CutOff(old(emitter.View()), stamps, outside)
    ensures Orderly(emitter.View())
  {
    if t.CopyDone(t.last) {
      return if t.copy.value.failed then EXIT_COPY_ERROR else EXIT_OK;
    }
    if !t.condition.value.open {
      return EXIT_OK;
    }
    EmitCutoffEvents(emitter, stamps, outside);
    return EXIT_OK;
  }

  /**
    The start of a run, after its arguments were accepted: the start-up check, the poll of the condition
    stream (nothing yet, an event, or closed), and the recheck of deadlines and durations.
   */
  datatype Start = Start(satisfied: bool, poll: Option<bool>, rechecked: bool)
  {
    predicate CutsOff() {
      satisfied || poll == Some(true) || (poll == None && rechecked)
    }

    predicate Copies() {
      !satisfied && poll == None && !rechecked
    }
  }

  /** The stream is cut off: at once, or by a real event that no copy result had preceded at the last look. */
  predicate CutsOff(start: Start, t: Timeline) {
    start.CutsOff() || (start.Copies() && !t.CopyDone(t.last) && t.condition.Some? && t.condition.value.open)
  }

  /** What a run with an emitter leaves behind, in terms of when things happened only. */
  function Left(start: Start, t: Timeline, stamps: (string, string), outside: Outside): Sink {
    if CutsOff(start, t) then CutOff(FRESH_SINK, stamps, outside) else FRESH_SINK
  }

  method RunWithClock(start: Start, t: Timeline, emitter: EventEmitter?, stamps: (string, string), outside: Outside)
    returns (code: int)
    requires (start.Copies() ==> t.Possible()) && (emitter != null ==> emitter.View() == FRESH_SINK)
    modifies emitter
    ensures code == 0 || code == 1
    ensures emitter != null ==>
            (code == 1 <==> start == Start(false, None, false) && t.CopyDone(t.last) && t.copy.value.failed)
    ensures emitter == null ==>
            (code == 1 <==> start == Start(false, None, false) && t.MiddleTakesCopy() && t.copy.value.failed)
    ensures emitter != null ==> emitter.View().(closed := false) == Left(start, t, stamps, outside)
    ensures emitter != null ==> emitter.closed
  {
    code := EXIT_OK;
    if start.satisfied {
      EmitCutoffEvents(emitter, stamps, outside);
    } else if start.poll.Some? {
      if start.poll.value {
        EmitCutoffEvents(emitter, stamps, outside);
      }
    } else if start.rechecked {
      EmitCutoffEvents(emitter, stamps, outside);
    } else {
      code := WaitForCopyOrCondition(t, emitter, stamps, outside);
    }
    NeverClosedYet(stamps, outside);
    if emitter != null {
      emitter.Close();
    }
  }

  lemma NeverClosedYet(stamps: (string, string), outside: Outside)
    ensures !CutOff(FRESH_SINK, stamps, outside).closed
  {
  }

  /** The records of a cut-off, with the clock reading of each. */
  function CutoffRecords(stamps: (string, string)): seq<Record> {
    [Record("condition-triggered", stamps.0), Record("stream-cutoff", stamps.1)]
  }

  /** An attempt to write `record` as the n-th, in one piece that ends the line. */
  predicate Writes(attempt: Attempt, record: Record, n: nat, outside: Outside) {
    && attempt.record == record && outside.render(record).Some?
    && attempt.line == outside.render(record).value + "\n" && attempt.reply == outside.write(n)
  }

  /** The attempts of a cut-off, one by one. */
  lemma CutOffAttempts(stamps: (string, string), outside: Outside)
    ensures var sink := CutOff(FRESH_SINK, stamps, outside);
            && |sink.attempts| <= 2
            && (forall i :: 0 <= i < |sink.attempts| ==>
                 Writes(sink.attempts[i], CutoffRecords(stamps)[i], i, outside))
            && (forall i :: 0 <= i < |sink.attempts| - 1 ==>
                 sink.attempts[i].reply == Reply(|sink.attempts[i].line|, false))
            && (!sink.disabled <==>
                 |sink.attempts| == 2 && sink.attempts[1].reply == Reply(|sink.attempts[1].line|, false))
            && (|sink.attempts| == 0 ==> outside.render(CutoffRecords(stamps)[0]) == None)
            && (|sink.attempts| == 1 && sink.attempts[0].reply == Reply(|sink.attempts[0].line|, false) ==>
                 outside.render(CutoffRecords(stamps)[1]) == None)
  {
  }

  /**
    Every run, schedule and write outcome: the complete records are a prefix of condition-triggered,
    stream-cutoff, each in one line; nothing follows a failed or short write; at most one warning is raised.
    Something is left behind iff the stream is cut off: the condition holds at the start, or its stream
    delivers at the poll, or the recheck finds it due, or, once bytes flow, it delivers and the copy has not
    ended by the last look.
   */
  lemma RecordsAreOrderly(start: Start, t: Timeline, stamps: (string, string), outside: Outside)
    requires start.Copies() ==> t.Possible()
    ensures var sink := Left(start, t, stamps, outside);
            && Orderly(sink) && sink.warnings <= 1
            && Complete(sink.attempts) <= ["condition-triggered", "stream-cutoff"]
            && (sink != FRESH_SINK ==> sink == CutOff(FRESH_SINK, stamps, outside))
            && (sink != FRESH_SINK && !sink.disabled ==>
                 Complete(sink.attempts) == ["condition-triggered", "stream-cutoff"])
    ensures Left(start, t, stamps, outside) != FRESH_SINK <==>
            || start.satisfied
            || (start.poll.Some? && start.poll.value)
            || (start.poll == None && start.rechecked)
            || (start.poll == None && t.condition.Some? && t.condition.value.open
                && (t.copy == None || t.last < t.copy.value.at))
  {
    CutOffWritesAPrefix(stamps, outside);
    CutOffAttempts(stamps, outside);
  }

  /**
    Without an emitter the exit code is left to the select's choice exactly when, as it looks, a failed copy
    and the condition are both ready.  In every other case both choices end alike.
   */
  lemma ChoiceMattersOnlyForFailedCopies(t: Timeline)
    requires t.Possible()
    ensures t.(prefersCopy := true).Possible() && t.(prefersCopy := false).Possible()
    ensures ExitWithoutEmitter(t.(prefersCopy := true)) == ExitWithoutEmitter(t.(prefersCopy := false)) <==>
            !(t.CopyDone(t.middle) && t.ConditionReady(t.middle) && t.copy.value.failed)
  {
    var taken, left := t.(prefersCopy := true), t.(prefersCopy := false);
    assert taken.MiddleTakesCopy() <==> t.CopyDone(t.middle);
    assert left.MiddleTakesCopy() <==> t.CopyDone(t.middle) && !t.ConditionReady(t.middle);
  }

  /** So without an emitter a failed copy can go unreported, although it had ended before the first look. */
  method DisabledEventsLeaveItOpen(stamps: (string, string), outside: Outside)
    returns (t: Timeline, taken: int, left: int)
    ensures t.Possible() && t.CopyDone(t.first) && t.copy.value.failed
    ensures taken == ExitWithoutEmitter(t.(prefersCopy := true)) == 1
    ensures left == ExitWithoutEmitter(t.(prefersCopy := false)) == 0
  {
    t := Timeline(Some(Copy(0, true)), Some(Condition(0, true)), 0, 0, 0, true);
    ChoiceMattersOnlyForFailedCopies(t);
    taken := WaitForCopyOrCondition(t.(prefersCopy := true), null, stamps, outside);
    left := WaitForCopyOrCondition(t.(prefersCopy := false), null, stamps, outside);
  }
}
