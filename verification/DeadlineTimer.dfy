/**
  The absolute-deadline condition (`dateTimeCondition`): a deadline may lie further away than one timer
  can wait, so a capped timer is armed again until the deadline is within reach.

  Times are nanoseconds of one non-decreasing clock.  What the clock reads, when timers fire and when the
  context is cancelled is given as a sequence of wake-ups.
 */
module DeadlineTimer {
  import opened Options

  const MAX_DURATION := 0x7fff_ffff_ffff_ffff
  const MIN_DURATION := -0x8000_0000_0000_0000

  /** `time.Time.Sub`, which saturates. */
  function Sub(a: int, b: int): int {
    if a - b > MAX_DURATION then MAX_DURATION
    else if a - b < MIN_DURATION then MIN_DURATION
    else a - b
  }

  /** What `newTimer` returned: whether its channel is not nil, and whether there is a stop function. */
  datatype Timer = Timer(live: bool, stoppable: bool)

  /**
    One passage through the select.  `Fires`: the timer's value is received at time `at`; if the clock is
    then read it shows `now`, if a timer is then requested it is `next`, and if an event is then emitted
    `delivered` tells whether it was sent rather than dropped for a cancelled context.
   */
  datatype Wake =
    | Fires(at: int, now: int, next: Timer, delivered: bool)
    | TimerClosed
    | ContextDone

  /** A timer request: the clock reading it was computed from, and the wait. */
  datatype Request = Request(readAt: int, wait: int)

  /** An event: the last time read before it was sent, and the `Time` it carries, the timer's value. */
  datatype Emission = Emission(readAt: int, time: int)

  /** What has happened by the time the wake-ups are used up. */
  datatype Outcome = Outcome(ended: bool, emitted: seq<Emission>, requests: seq<Request>, timers: seq<Timer>,
      stops: seq<nat>)

  function ArmedFor(deadline: int, readAt: int): Request {
    Request(readAt, Sub(deadline, readAt))
  }

  predicate Capped(deadline: int, r: Request) {
    r.readAt + r.wait != deadline
  }

  /** Timers do not fire early and the clock does not go back, for the requests made along the way. */
  ghost predicate Honest(deadline: int, r: Request, wakes: seq<Wake>)
    decreases |wakes|
  {
    wakes != [] && wakes[0].Fires? ==>
      && r.readAt + r.wait <= wakes[0].at <= wakes[0].now
      && Honest(deadline, ArmedFor(deadline, wakes[0].now), wakes[1..])
  }

  /** Stop functions called exactly as often as they were supplied. */
  predicate StoppedOnce(timers: seq<Timer>, stops: seq<nat>) {
    |stops| == |timers| && forall i :: 0 <= i < |timers| ==> stops[i] == if timers[i].stoppable then 1 else 0
  }

  /** Every timer but the newest is stopped. */
  predicate Running(timers: seq<Timer>, stops: seq<nat>) {
    && |stops| == |timers| && timers != [] && stops[|stops| - 1] == 0
    && StoppedOnce(timers[..|timers| - 1], stops[..|stops| - 1])
  }

  /** Calling the stop function that is still held, if one is, makes every supplied one called exactly once. */
  predicate Owes(timers: seq<Timer>, stops: seq<nat>, stopTimer: Option<nat>) {
    && |stops| == |timers|
    && (stopTimer.Some? ==> stopTimer.value < |stops|)
    && StoppedOnce(timers, Called(stops, stopTimer))
  }

  function Called(stops: seq<nat>, stopTimer: Option<nat>): seq<nat>
    requires stopTimer.Some? ==> stopTimer.value < |stops|
  {
    match stopTimer
    case None => stops
    case Some(i) => stops[i := stops[i] + 1]
  }

  /** The stop function that `newTimer` supplied along with the newest of `timers`. */
  function Supplied(timers: seq<Timer>): Option<nat>
    requires timers != []
  {
    if timers[|timers| - 1].stoppable then Some(|timers| - 1) else None
  }

  /** A new timer: its stop function is the one held. */
  lemma NextArmed(timers: seq<Timer>, stops: seq<nat>, timer: Timer)
    requires StoppedOnce(timers, stops)
    ensures Owes(timers + [timer], stops + [0], Supplied(timers + [timer]))
    ensures Running(timers + [timer], stops + [0])
  {
    assert (timers + [timer])[..|timers|] == timers && (stops + [0])[..|stops|] == stops;
  }

  /** `b` was requested after `a` had elapsed, and `a` was capped. */
  ghost predicate Linked(deadline: int, a: Request, b: Request) {
    && b == ArmedFor(deadline, b.readAt) && b.wait > 0
    && Capped(deadline, a) && a.readAt + a.wait <= b.readAt
  }

  /** The requests after the first one: each follows a capped one that had elapsed, short of the deadline. */
  ghost predicate Chained(deadline: int, requests: seq<Request>)
    decreases |requests|
  {
    requests != [] &&
    var last := |requests| - 1;
    if last == 0 then requests[0] == ArmedFor(deadline, requests[0].readAt) && requests[0].wait > 0
    else Linked(deadline, requests[last - 1], requests[last]) && Chained(deadline, requests[..last])
  }

  lemma ChainedMore(deadline: int, requests: seq<Request>, next: Request)
    requires requests != [] && Linked(deadline, requests[|requests| - 1], next)
    ensures Chained(deadline, requests) ==> Chained(deadline, requests + [next])
  {
    assert (requests + [next])[..|requests|] == requests;
  }

  /** What an honest wake-up tells, and that an honest run stays honest. */
  lemma HonestWake(deadline: int, r: Request, wakes: seq<Wake>)
    requires Honest(deadline, r, wakes) && wakes != [] && wakes[0].Fires?
    requires r == ArmedFor(deadline, r.readAt) && r.wait > 0
    ensures !Capped(deadline, r) ==> deadline <= wakes[0].at <= wakes[0].now
    ensures Sub(deadline, wakes[0].now) <= 0 ==> deadline <= wakes[0].now
    ensures Honest(deadline, ArmedFor(deadline, wakes[0].now), wakes[1..])
    ensures Capped(deadline, r) && Sub(deadline, wakes[0].now) > 0 ==>
            Linked(deadline, r, ArmedFor(deadline, wakes[0].now))
  {
  }

  /** A wake-up that only leads to another timer. */
  predicate Passes(deadline: int, wake: Wake) {
    wake.Fires? && wake.now < deadline && wake.next.live
  }

  /** The first wake-up that does not pass. */
  ghost predicate FirstStop(deadline: int, wakes: seq<Wake>, i: nat) {
    i < |wakes| && !Passes(deadline, wakes[i]) && forall j :: 0 <= j < i ==> Passes(deadline, wakes[j])
  }

  predicate Emits(deadline: int, wake: Wake) {
    wake.Fires? && deadline <= wake.now && wake.delivered
  }

  predicate AllLive(timers: seq<Timer>) {
    forall i :: 0 <= i < |timers| ==> timers[i].live
  }

  /** A wake-up after `r` that finds the deadline still ahead, so that a timer is requested again. */
  predicate Rearms(deadline: int, r: Request, wake: Wake) {
    wake.Fires? && Capped(deadline, r) && wake.now < deadline
  }

  /** Every request after the first was made by the wake-up after the one before, which had a live timer. */
  ghost predicate Rearmed(deadline: int, wakes: seq<Wake>, requests: seq<Request>, timers: seq<Timer>) {
    && 0 < |requests| == |timers| <= |wakes| + 1
    && forall j :: 0 <= j < |requests| - 1 ==>
      && Rearms(deadline, requests[j], wakes[j]) && timers[j].live
      && requests[j + 1] == ArmedFor(deadline, wakes[j].now) && timers[j + 1] == wakes[j].next
  }

  /** The event of the wake-up that ends the loop, after `r`. */
  function Ending(deadline: int, r: Request, wake: Wake): seq<Emission> {
    if !wake.Fires? || !wake.delivered then []
    else [Emission(if Capped(deadline, r) then wake.now else wake.at, wake.at)]
  }

  /**
    What the loop makes of any wake-ups.  With n timers requested after the first, those were requested by
    the first n wake-ups; then either the wake-ups are used up and the loop waits, or the last timer was
    refused, or the next wake-up ends it.
   */
  ghost predicate Follows(deadline: int, wakes: seq<Wake>, ended: bool, emitted: seq<Emission>, requests: seq<Request>,
                          timers: seq<Timer>)
  {
    && Rearmed(deadline, wakes, requests, timers)
    && var n := |requests| - 1;
    if !ended then timers[n].live && n == |wakes| && emitted == []
    else if !timers[n].live then emitted == []
    else
      && n < |wakes| && !Rearms(deadline, requests[n], wakes[n]) && emitted == Ending(deadline, requests[n], wakes[n])
  }

  lemma RearmedMore(deadline: int, wakes: seq<Wake>, requests: seq<Request>, timers: seq<Timer>)
    requires Rearmed(deadline, wakes, requests, timers) && |requests| <= |wakes|
    requires var n := |requests| - 1; timers[n].live && Rearms(deadline, requests[n], wakes[n])
    ensures var wake := wakes[|requests| - 1];
            Rearmed(deadline, wakes, requests + [ArmedFor(deadline, wake.now)], timers + [wake.next])
  {
  }

  lemma StoppedBy(deadline: int, wakes: seq<Wake>, requests: seq<Request>, timers: seq<Timer>)
    requires Rearmed(deadline, wakes, requests, timers) && |requests| <= |wakes| && timers[|requests| - 1].live
    ensures var n := |requests| - 1;
            !Rearms(deadline, requests[n], wakes[n]) ==>
              Follows(deadline, wakes, true, Ending(deadline, requests[n], wakes[n]), requests, timers)
  {
  }

  lemma Refused(deadline: int, wakes: seq<Wake>, requests: seq<Request>, timers: seq<Timer>)
    requires Rearmed(deadline, wakes, requests, timers) && !timers[|requests| - 1].live
    ensures Follows(deadline, wakes, true, [], requests, timers)
  {
  }

  lemma EndingOf(deadline: int, r: Request, wake: Wake)
    ensures Ending(deadline, r, wake) ==
            if !wake.Fires? || !wake.delivered then []
            else if Capped(deadline, r) then [Emission(wake.now, wake.at)]
            else [Emission(wake.at, wake.at)]
  {
  }

  lemma EmitsOnce(deadline: int, wakes: seq<Wake>, ended: bool, emitted: seq<Emission>, requests: seq<Request>,
      timers: seq<Timer>)
    requires Follows(deadline, wakes, ended, emitted, requests, timers)
    ensures |emitted| <= 1 && (emitted != [] ==> ended && AllLive(timers))
  {
  }

  lemma UsedUp(deadline: int, wakes: seq<Wake>, requests: seq<Request>, timers: seq<Timer>)
    requires Rearmed(deadline, wakes, requests, timers)
    requires |requests| == |wakes| + 1 && timers[|requests| - 1].live
    ensures Follows(deadline, wakes, false, [], requests, timers)
  {
  }

  /** With honest timers every wake-up passed so far had elapsed, short of the deadline. */
  lemma {:induction false} HonestRequests(deadline: int, wakes: seq<Wake>, requests: seq<Request>, timers: seq<Timer>)
    requires Rearmed(deadline, wakes, requests, timers) && Honest(deadline, requests[0], wakes)
    requires requests[0] == ArmedFor(deadline, requests[0].readAt) && requests[0].wait > 0
    ensures var n := |requests| - 1;
            && Chained(deadline, requests) && Honest(deadline, requests[n], wakes[n..])
            && requests[n] == ArmedFor(deadline, requests[n].readAt) && requests[n].wait > 0
            && forall j :: 0 <= j < n ==> (Passes(deadline, wakes[j]) <==> timers[j + 1].live)
    decreases |requests|
  {
    hide Honest, Chained;
    var n := |requests| - 1;
    if n == 0 {
      OneRequest(deadline, requests);
      assert wakes[0..] == wakes;
    } else {
      HonestRequests(deadline, wakes, requests[..n], timers[..n]);
      assert Rearms(deadline, requests[n - 1], wakes[n - 1]);
      assert wakes[n - 1..][0] == wakes[n - 1] && wakes[n - 1..][1..] == wakes[n..];
      HonestWake(deadline, requests[n - 1], wakes[n - 1..]);
      ChainedMore(deadline, requests[..n], requests[n]);
      assert requests == requests[..n] + [requests[n]];
    }
  }

  lemma OneRequest(deadline: int, requests: seq<Request>)
    requires |requests| == 1 && requests[0] == ArmedFor(deadline, requests[0].readAt) && requests[0].wait > 0
    ensures Chained(deadline, requests)
  {
  }

  lemma HonestOutcome(deadline: int, wakes: seq<Wake>, ended: bool, emitted: seq<Emission>, requests: seq<Request>,
      timers: seq<Timer>)
    requires Follows(deadline, wakes, ended, emitted, requests, timers) && Honest(deadline, requests[0], wakes)
    requires requests[0] == ArmedFor(deadline, requests[0].readAt) && requests[0].wait > 0 && timers[0].live
    ensures Chained(deadline, requests) && (emitted != [] ==> deadline <= emitted[0].readAt)
    ensures ended <==> exists i: nat :: FirstStop(deadline, wakes, i)
    ensures forall i: nat :: FirstStop(deadline, wakes, i) ==> (emitted != [] <==> Emits(deadline, wakes[i]))
  {
    hide Honest, Chained, Sub, FirstStop, Passes;
    HonestRequests(deadline, wakes, requests, timers);
    var n := |requests| - 1;
    if !ended {
      NeverStops(deadline, wakes);
    } else if !timers[n].live {
      StopsFirst(deadline, wakes, n - 1);
      RearmingDoesNotEmit(deadline, requests[n - 1], wakes[n - 1]);
    } else {
      LastWake(deadline, requests[n], wakes[n], wakes[n..]);
      StopsFirst(deadline, wakes, n);
    }
  }

  lemma RearmingDoesNotEmit(deadline: int, r: Request, wake: Wake)
    requires Rearms(deadline, r, wake)
    ensures !Emits(deadline, wake)
  {
  }

  /** An honest wake-up that does not lead to another timer shows the deadline reached, or ends the wait. */
  lemma LastWake(deadline: int, r: Request, wake: Wake, wakes: seq<Wake>)
    requires wakes != [] && wake == wakes[0] && Honest(deadline, r, wakes) && !Rearms(deadline, r, wake)
    requires r == ArmedFor(deadline, r.readAt) && r.wait > 0
    ensures !Passes(deadline, wake) && (Ending(deadline, r, wake) != [] <==> Emits(deadline, wake))
    ensures Ending(deadline, r, wake) != [] ==> deadline <= Ending(deadline, r, wake)[0].readAt
  {
    if wake.Fires? {
      HonestWake(deadline, r, wakes);
    }
  }

  lemma NeverStops(deadline: int, wakes: seq<Wake>)
    requires forall j :: 0 <= j < |wakes| ==> Passes(deadline, wakes[j])
    ensures forall i: nat :: !FirstStop(deadline, wakes, i)
  {
  }

  lemma StopsFirst(deadline: int, wakes: seq<Wake>, k: nat)
    requires k < |wakes| && !Passes(deadline, wakes[k]) && forall j :: 0 <= j < k ==> Passes(deadline, wakes[j])
    ensures FirstStop(deadline, wakes, k) && forall i: nat :: FirstStop(deadline, wakes, i) ==> i == k
  {
  }

  /** The closure `stopTimerOnce`: it clears the captured variable, then calls what it held. */
  method StopTimerOnce(stopTimer: Option<nat>, stops: seq<nat>) returns (cleared: Option<nat>, calls: seq<nat>)
    requires stopTimer.Some? ==> stopTimer.value < |stops|
    ensures cleared == None && calls == Called(stops, stopTimer)
  {
    if stopTimer == None {
      return stopTimer, stops;
    }
    var stop := stopTimer.value;
    cleared := None;
    calls := stops[stop := stops[stop] + 1];
  }

  /**
    `emitDeadline`: its loop, and the call of `stopTimerOnce` that is deferred to every return.  Each
    supplied stop function is called exactly once on every way out, a failed re-arm included; while it
    waits only the last timer is unstopped.  Timers are requested as `Follows` says, for all wake-ups.
    With honest timers it emits at the first wake-up that shows the deadline reached, if that comes before
    a cancellation, a closed timer or a failed re-arm, and never before the deadline.
   */
  method EmitDeadline(deadline: int, first: Request, timer: Timer, wakes: seq<Wake>) returns (r: Outcome)
    requires first == ArmedFor(deadline, first.readAt) && first.wait > 0 && timer.live
    ensures Follows(deadline, wakes, r.ended, r.emitted, r.requests, r.timers)
    ensures r.requests[0] == first && r.timers[0] == timer
    ensures |r.emitted| <= 1 && (r.emitted != [] ==> r.ended && AllLive(r.timers))
    ensures if r.ended then StoppedOnce(r.timers, r.stops) else Running(r.timers, r.stops)
    ensures Honest(deadline, first, wakes) ==> Chained(deadline, r.requests)
    ensures Honest(deadline, first, wakes) && r.emitted != [] ==> deadline <= r.emitted[0].readAt
    ensures Honest(deadline, first, wakes) ==>
              (r.ended <==> exists i: nat :: FirstStop(deadline, wakes, i))
              && forall i: nat :: FirstStop(deadline, wakes, i) ==> (r.emitted != [] <==> Emits(deadline, wakes[i]))
  {
    hide Honest, Chained, StoppedOnce, Running, Rearmed, Follows, AllLive, Ending, FirstStop, Emits;
    var capped, request := Capped(deadline, first), first;
    var requests, timers, stops := [first], [timer], [0];
    var stopTimer: Option<nat> := if timer.stoppable then Some(0) else None;
    var ended, emitted: seq<Emission> := false, [];
    FirstArmed(deadline, first, timer, wakes);
    var i := 0;
    while i < |wakes|
      invariant 0 <= i <= |wakes| && !ended && emitted == []
      invariant Rearmed(deadline, wakes, requests, timers) && |timers| == |requests| == i + 1
      invariant requests[0] == first && timers[0] == timer
      invariant request == requests[|requests| - 1] == ArmedFor(deadline, request.readAt) && request.wait > 0
      invariant timers[i].live && capped == Capped(deadline, request)
      invariant Owes(timers, stops, stopTimer) && Running(timers, stops)
    {
      var wake := wakes[i];
      StoppedBy(deadline, wakes, requests, timers);
      EndingOf(deadline, request, wake);
      if !wake.Fires? {
        ended := true;
        break;
      }
      if !capped {
        ended, emitted := true, if wake.delivered then [Emission(wake.at, wake.at)] else [];
        break;
      }
      var wait := Sub(deadline, wake.now);
      if wait <= 0 {
        ended, emitted := true, if wake.delivered then [Emission(wake.now, wake.at)] else [];
        break;
      }
      stopTimer, stops := StopTimerOnce(stopTimer, stops);
      RearmedMore(deadline, wakes, requests, timers);
      NextArmed(timers, stops, wake.next);
      capped := wake.now + wait != deadline;
      request := Request(wake.now, wait);
      requests, timers, stops := requests + [request], timers + [wake.next], stops + [0];
      stopTimer := if wake.next.stoppable then Some(|timers| - 1) else None;
      if !wake.next.live {
        stopTimer, stops := StopTimerOnce(stopTimer, stops);
        ended := true;
        Refused(deadline, wakes, requests, timers);
        break;
      }
      i := i + 1;
    }
    if !ended {
      UsedUp(deadline, wakes, requests, timers);
    }
    if ended {
      stopTimer, stops := StopTimerOnce(stopTimer, stops);
    }
    EmitsOnce(deadline, wakes, ended, emitted, requests, timers);
    if Honest(deadline, first, wakes) {
      HonestOutcome(deadline, wakes, ended, emitted, requests, timers);
    }
    return Outcome(ended, emitted, requests, timers, stops);
  }

  lemma FirstArmed(deadline: int, first: Request, timer: Timer, wakes: seq<Wake>)
    requires first == ArmedFor(deadline, first.readAt) && first.wait > 0
    ensures Running([timer], [0]) && Owes([timer], [0], Supplied([timer])) && Chained(deadline, [first])
    ensures Rearmed(deadline, wakes, [first], [timer])
  {
  }

  /** A capped wait is the longest possible one. */
  lemma CappedIsLongest(deadline: int, readAt: int)
    requires Sub(deadline, readAt) > 0
    ensures Capped(deadline, ArmedFor(deadline, readAt)) <==> deadline - readAt > 0x7fff_ffff_ffff_ffff
    ensures Capped(deadline, ArmedFor(deadline, readAt)) ==> ArmedFor(deadline, readAt).wait == 0x7fff_ffff_ffff_ffff
  {
  }

  lemma {:induction false} ElapsedWaits(deadline: int, requests: seq<Request>)
    requires Chained(deadline, requests)
    ensures requests[0].readAt + (|requests| - 1) * MAX_DURATION <= requests[|requests| - 1].readAt < deadline
    decreases |requests|
  {
    var last := |requests| - 1;
    if last > 0 {
      ElapsedWaits(deadline, requests[..last]);
      assert requests[..last][last - 1] == requests[last - 1];
      ChainProper(deadline, requests[..last]);
      CappedIsLongest(deadline, requests[last - 1].readAt);
    }
  }

  lemma ChainProper(deadline: int, requests: seq<Request>)
    requires Chained(deadline, requests)
    ensures var r := requests[|requests| - 1]; r == ArmedFor(deadline, r.readAt) && r.wait > 0
  {
  }

  /** The timer is armed again at most ceil(distance / MAX_DURATION) - 1 times. */
  lemma RearmsAreBounded(deadline: int, requests: seq<Request>)
    requires Chained(deadline, requests)
    ensures (|requests| - 1) * MAX_DURATION < deadline - requests[0].readAt
    ensures |requests| - 1 <= (deadline - requests[0].readAt - 1) / MAX_DURATION
  {
    ElapsedWaits(deadline, requests);
  }

  // `run`

  /** What `run` did: sent the event at once, at time `at`, or started the loop. */
  datatype Started = Immediate(at: int) | Armed(request: Request)

  /**
    `run` reads the clock, and again before arming; the event it sends at once carries a reading of its
    own, `sentAt`.  `firstTimer` is what `newTimer` returns if it is called.  It starts the loop iff both
    readings are before the deadline and the timer is not nil.
   */
  method RunDeadline(deadline: int, firstNow: int, secondNow: int, sentAt: int, firstTimer: Timer)
    returns (s: Started, stops: nat)
    ensures s.Armed? <==> deadline > firstNow && deadline > secondNow && firstTimer.live
    ensures s.Armed? ==> s.request == ArmedFor(deadline, secondNow) && s.request.wait > 0 && stops == 0
    ensures s.Immediate? ==> s.at == sentAt
    ensures s.Immediate? ==>
            stops == if deadline > firstNow && deadline > secondNow && firstTimer.stoppable then 1 else 0
  {
    if deadline > firstNow {
      var wait := Sub(deadline, secondNow);
      if wait > 0 {
        if firstTimer.live {
          return Armed(Request(secondNow, wait)), 0;
        }
        if firstTimer.stoppable {
          return Immediate(sentAt), 1;
        }
      }
    }
    return Immediate(sentAt), 0;
  }

  /** With a clock that does not go back, `run` sends an early event only if it was refused a timer. */
  method RunIsEarlyOnlyWithoutTimer(deadline: int, firstNow: int, secondNow: int, sentAt: int, firstTimer: Timer)
    returns (early: bool)
    requires firstNow <= secondNow <= sentAt
    ensures early <==> deadline > sentAt && !firstTimer.live
  {
    var s, _ := RunDeadline(deadline, firstNow, secondNow, sentAt, firstTimer);
    early := s.Immediate? && s.at < deadline;
  }
}
