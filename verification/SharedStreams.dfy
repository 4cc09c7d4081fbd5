/**
  `sharedStream` of condition.go: one execution of a condition, fanned out to its subscribers.
  Every function below is one critical section or one channel operation of the stream's goroutines.
  `S` identifies subscriptions.
 */
module SharedStreams {
  import opened Conditions

  /** Where the `dispatch` goroutine stands.  `Ended` is the stream's `closed` flag. */
  datatype Dispatcher<S> =
    | Idle                                        // at its select
    | Holding(event: Event)                       // received, `subs` not copied yet
    | Delivering(event: Event, todo: seq<S>)      // sending to the copied subscribers, in this order
    | Ending                                      // returned, `finish` still to run
    | Ended                                       // `finish` has run

  /**
    `taken` is the history of events received from the source.  `emptied` says that an unsubscribe left
    the stream without subscribers; the `cancel` call it then owes sets `cancelled`.
   */
  datatype Stream<S> = Stream(disp: Dispatcher<S>, subs: set<S>, taken: seq<Event>, emptied: bool, cancelled: bool)
  {
    function Todo(): seq<S> {
      if disp.Delivering? then disp.todo else []
    }

    /** The events whose subscriber list has been copied. */
    function Dispatched(): seq<Event> {
      if disp.Holding? && taken != [] then taken[..|taken| - 1] else taken
    }

    /** What a subscriber that was there from the start has been sent so far. */
    function Due(sub: S): seq<Event> {
      if taken != [] && (disp.Holding? || sub in Todo()) then taken[..|taken| - 1] else taken
    }

    function Pull(event: Event): Stream<S> {
      this.(disp := Holding(event), taken := taken + [event])
    }

    function Snapshot(order: seq<S>): Stream<S>
      requires disp.Holding?
    {
      this.(disp := Delivering(disp.event, order))
    }

    function Advance(): Stream<S>
      requires Todo() != []
    {
      this.(disp := Delivering(disp.event, disp.todo[1..]))
    }

    /** The critical section of `unsubscribe`. */
    function Remove(sub: S): Stream<S> {
      if sub !in subs then this
      else
        var rest := subs - {sub};
        this.(subs := rest, emptied := emptied || (rest == {} && !disp.Ended?))
    }

    function Finish(): Stream<S> {
      this.(disp := Ended, subs := {})
    }
  }

  function NewStream<S>(subs: set<S>): Stream<S> {
    Stream(Idle, subs, [], false, false)
  }
}
