/**
  `earliestLocalInstant`: the first of all instants that show a given wall-clock time in a location.

  Instants are whole seconds of Unix time.  `sameLocalDateTime` also requires a zero nanosecond part, so
  no other instant can qualify.
 */
module LocalInstant {
  import opened Calendar
  import opened Options

  /** The interval of equal offset around an instant, as `ZoneBounds` returns it. */
  datatype Bounds = Bounds(start: Option<int>, end: Option<int>)

  /** A location: its offset at each instant and the interval of each instant. */
  datatype Location = Location(offset: int -> int, bounds: int -> Bounds)

  predicate Within(b: Bounds, t: int) {
    (b.start.Some? ==> b.start.value <= t) && (b.end.Some? ==> t < b.end.value)
  }

  /** Offsets are piecewise constant: `bounds(t)` contains `t`, and the offset does not change inside it. */
  ghost predicate PiecewiseConstant(l: Location) {
    && (forall t: int {:trigger l.bounds(t)} :: Within(l.bounds(t), t))
    && (forall t: int, u: int {:trigger l.bounds(t), l.offset(u)} :: Within(l.bounds(t), u) ==>
         l.offset(u) == l.offset(t))
  }

  const MIN_OFFSET := -0x8000_0000
  const MAX_OFFSET := 0x7fff_ffff

  /** TZif stores offsets in 32 bits (`utoff` in section 3.2 of RFC 8536). */
  ghost predicate TZifOffsets(l: Location) {
    forall t: int :: -0x8000_0000 <= l.offset(t) <= 0x7fff_ffff
  }

  /** `sameLocalDateTime` of the instant `t` in location `l`. */
  predicate Shows(l: Location, t: int, f: Fields) {
    FieldsOf(t + l.offset(t)) == f
  }

  lemma ShowsMeans(l: Location, t: int, f: Fields)
    requires InRange(f)
    ensures Shows(l, t, f) <==> t + l.offset(t) == Wall(f)
  {
    hide FieldsOf, Wall, InRange;
    FieldsAreReal(t + l.offset(t));
    RealFieldsReadBack(f);
  }

  const MIN_INT64 := -0x8000_0000_0000_0000
  const MAX_INT64 := 0x7fff_ffff_ffff_ffff
  const UNIX_TO_INTERNAL := 62135596800

  /** Neither the Unix seconds of `t` nor the seconds since year 1 that `time.Time` stores wrap. */
  predicate Representable(t: int) {
    MIN_INT64 <= t <= MAX_INT64 - UNIX_TO_INTERNAL
  }

  /**
    The closure `considerOffset`, with its guards against wrapping 64-bit arithmetic.  It takes the one
    instant at which this offset would show `f`, if it is representable, does show `f` and is earlier.
   */
  method ConsiderOffset(l: Location, f: Fields, wall: int, offset: int, best: int) returns (better: int)
    requires InRange(f) && 1 <= f.year <= 9999 && wall == Wall(f)
    ensures var candidate := wall - offset;
            better == if Representable(candidate) && Shows(l, candidate, f) && candidate < best then candidate else best
    ensures MIN_OFFSET <= offset <= MAX_OFFSET ==> Representable(wall - offset)
  {
    hide Shows, Wall, InRange;
    WallOfFourDigitYear(f);
    better := best;
    if (offset > 0 && wall < MIN_INT64 + offset) || (offset < 0 && wall > MAX_INT64 + offset) {
      return;
    }
    var candidate := wall - offset;
    if candidate > MAX_INT64 - UNIX_TO_INTERNAL {
      return;
    }
    if Shows(l, candidate, f) && candidate < best {
      better := candidate;
    }
  }

  /** `best` is no later than any instant of `from <= t < to` that shows `f`. */
  ghost predicate NoneEarlier(l: Location, f: Fields, best: int, from: int, to: int) {
    forall t: int :: from <= t < to && Shows(l, t, f) ==> best <= t
  }

  /** Within one interval there is only one candidate. */
  lemma OneCandidate(l: Location, f: Fields, current: int, best: int, to: int)
    requires PiecewiseConstant(l) && InRange(f)
    requires Shows(l, Wall(f) - l.offset(current), f) ==> best <= Wall(f) - l.offset(current)
    requires l.bounds(current).end.Some? ==> to <= l.bounds(current).end.value
    ensures NoneEarlier(l, f, best, current, to)
  {
    hide Shows, Wall, InRange;
    forall t: int | current <= t < to && Shows(l, t, f)
      ensures best <= t
    {
      assert Within(l.bounds(current), current);
      assert Within(l.bounds(current), t);
      assert l.offset(t) == l.offset(current);
      ShowsMeans(l, t, f);
    }
  }

  /** Every instant that shows `f` lies in the window that is scanned. */
  lemma WindowIsWideEnough(l: Location, f: Fields, t: int)
    requires TZifOffsets(l) && InRange(f) && Shows(l, t, f)
    ensures Wall(f) - MAX_OFFSET <= t <= Wall(f) - MIN_OFFSET
  {
    hide Shows, Wall, InRange;
    ShowsMeans(l, t, f);
    assert MIN_OFFSET <= l.offset(t) <= MAX_OFFSET;
  }

  /** In a single unbounded interval an instant is the only one that shows what it shows. */
  lemma OnlyOccurrence(l: Location, f: Fields, parsed: int)
    requires PiecewiseConstant(l) && Shows(l, parsed, f) && l.bounds(parsed) == Bounds(None, None)
    ensures forall t: int :: Shows(l, t, f) ==> t == parsed
  {
    hide FieldsOf, Wall, InRange;
    ShownFieldsAreReal(l, parsed, f);
    forall t: int | Shows(l, t, f)
      ensures t == parsed
    {
      assert Within(l.bounds(parsed), t);
      assert l.offset(t) == l.offset(parsed);
      ShowsMeans(l, t, f);
      ShowsMeans(l, parsed, f);
    }
  }

  lemma ScannedEverything(l: Location, f: Fields, best: int, covered: int)
    requires TZifOffsets(l) && InRange(f) && covered > Wall(f) - MIN_OFFSET
    requires NoneEarlier(l, f, best, Wall(f) - MAX_OFFSET, covered)
    ensures forall t: int :: Shows(l, t, f) ==> best <= t
  {
    hide Shows, Wall, InRange;
    forall t: int | Shows(l, t, f)
      ensures best <= t
    {
      WindowIsWideEnough(l, f, t);
    }
  }

  lemma ShownFieldsAreReal(l: Location, t: int, f: Fields)
    requires Shows(l, t, f)
    ensures InRange(f)
  {
    hide FieldsOf, Wall, InRange;
    FieldsAreReal(t + l.offset(t));
  }

  /**
    If `parsed` shows the requested wall time, the result shows it too, and no instant that shows it is
    earlier.  A location with a single unbounded interval may have any offset, others have TZif offsets.
   */
  method EarliestLocalInstant(parsed: int, f: Fields, l: Location) returns (best: int)
    requires PiecewiseConstant(l) && Shows(l, parsed, f) && 1 <= f.year <= 9999
    requires l.bounds(parsed) == Bounds(None, None) || TZifOffsets(l)
    ensures Shows(l, best, f)
    ensures forall t: int :: Shows(l, t, f) ==> best <= t
  {
    hide FieldsOf, Wall, Shows;
    ShownFieldsAreReal(l, parsed, f);
    var bounds := l.bounds(parsed);
    if bounds == Bounds(None, None) {
      OnlyOccurrence(l, f, parsed);
      return parsed;
    }

    var wall := Wall(f);
    best := parsed;
    if bounds.start.Some? {
      best := ConsiderOffset(l, f, wall, l.offset(bounds.start.value - 1), best);
    }
    if bounds.end.Some? {
      best := ConsiderOffset(l, f, wall, l.offset(bounds.end.value), best);
    }

    var last := wall - MIN_OFFSET;
    var current := wall - MAX_OFFSET;
    ghost var covered := current;
    while current <= last
      invariant Shows(l, best, f)
      invariant covered == current && NoneEarlier(l, f, best, wall - MAX_OFFSET, covered)
      decreases last - current
    {
      assert MIN_OFFSET <= l.offset(current) <= MAX_OFFSET;
      best := ConsiderOffset(l, f, wall, l.offset(current), best);
      var end := l.bounds(current).end;
      assert Within(l.bounds(current), current);
      covered := if end.None? || end.value > last then last + 1 else end.value;
      OneCandidate(l, f, current, best, covered);
      if end == None || end.value > last || end.value <= current {
        break;
      }
      current := end.value;
    }
    ScannedEverything(l, f, best, covered);
  }
}
