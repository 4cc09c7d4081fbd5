/**
  The mutexes of condition.go: one in the registry, one in every shared stream.  Any number of goroutines
  call the operations that lock them, in any order and interleaving.
 */
module Locks {

  datatype Lock = RegistryLock | StreamLock(stream: nat)

  datatype Action = Acquire(lock: Lock) | Release(lock: Lock)

  datatype Operation =
    | Subscribe(stream: nat) | StartStream | StartPending | CopySubscribers(stream: nat) | Finish(stream: nat)
    | Unsubscribe(stream: nat)

  /** The locking of each operation, in program order. */
  function Program(op: Operation): seq<Action> {
    match op
    case Subscribe(s) => [Acquire(RegistryLock), Acquire(StreamLock(s)), Release(StreamLock(s)), Release(RegistryLock)]
    case StartStream => [Acquire(RegistryLock), Release(RegistryLock)]
    case StartPending => [Acquire(RegistryLock), Release(RegistryLock)]
    case CopySubscribers(s) => [Acquire(StreamLock(s)), Release(StreamLock(s))]
    case Finish(s) => [Acquire(StreamLock(s)), Release(StreamLock(s))]
    case Unsubscribe(s) =>
      [Acquire(RegistryLock), Acquire(StreamLock(s)), Release(StreamLock(s)), Release(RegistryLock)]
  }

  /** What each goroutine still has to do in its current operation, and who holds which lock. */
  datatype State = State(threads: seq<seq<Action>>, holder: map<Lock, nat>)

  datatype Step = Call(thread: nat, op: Operation) | Move(thread: nat)

  predicate Waits(st: State, t: nat) {
    t < |st.threads| && st.threads[t] != [] && st.threads[t][0].Acquire? && st.threads[t][0].lock in st.holder
  }

  predicate CanMove(st: State, t: nat) {
    t < |st.threads| && st.threads[t] != [] && !Waits(st, t)
  }

  predicate Enabled(st: State, step: Step) {
    match step
    case Call(t, _) => t < |st.threads| && st.threads[t] == []
    case Move(t) => CanMove(st, t)
  }

  function Next(st: State, step: Step): State
    requires Enabled(st, step)
  {
    match step
    case Call(t, op) => st.(threads := st.threads[t := Program(op)])
    case Move(t) =>
      var action := st.threads[t][0];
      State(st.threads[t := st.threads[t][1..]],
            if action.Acquire? then st.holder[action.lock := t] else st.holder - {action.lock})
  }

  ghost predicate IsRun(trace: seq<State>, steps: seq<Step>) {
    && |trace| == |steps| + 1
    && trace[0].holder == map[] && (forall t :: 0 <= t < |trace[0].threads| ==> trace[0].threads[t] == [])
    && forall n: nat :: n < |steps| ==> Stepped(trace[n], steps[n], trace[n + 1])
  }

  ghost predicate Stepped(before: State, step: Step, after: State) {
    Enabled(before, step) && after == Next(before, step)
  }

  /** The locks held by a goroutine with these actions left. */
  function Held(rest: seq<Action>): set<Lock> {
    if rest == [] then {}
    else if rest[0].Acquire? then Held(rest[1..]) - {rest[0].lock}
    else Held(rest[1..]) + {rest[0].lock}
  }

  /** `after` are the locks held once `action` is done: the registry's is taken first, each only once. */
  predicate InOrder(action: Action, after: set<Lock>) {
    match action
    case Acquire(RegistryLock) => after == {RegistryLock}
    case Acquire(StreamLock(s)) => StreamLock(s) in after && after <= {RegistryLock, StreamLock(s)}
    case Release(lock) => lock !in after
  }

  predicate Ordered(rest: seq<Action>) {
    rest == [] || (Ordered(rest[1..]) && InOrder(rest[0], Held(rest[1..])))
  }

  lemma NothingLeft()
    ensures Ordered([]) && Held([]) == {}
  {
  }

  lemma Before(action: Action, rest: seq<Action>)
    requires Ordered(rest)
    requires InOrder(action, Held(rest))
    ensures Ordered([action] + rest)
    ensures Held([action] + rest) == if action.Acquire? then Held(rest) - {action.lock} else Held(rest) + {action.lock}
  {
    assert ([action] + rest)[1..] == rest;
  }

  lemma ProgramsAreOrdered(op: Operation)
    ensures Ordered(Program(op)) && Held(Program(op)) == {}
  {
    hide Ordered, Held;
    NothingLeft();
    match op {
      case StartStream =>
        SingleLock(RegistryLock);
      case StartPending =>
        SingleLock(RegistryLock);
      case CopySubscribers(s) =>
        SingleLock(StreamLock(s));
      case Finish(s) =>
        SingleLock(StreamLock(s));
      case Subscribe(s) =>
        BothLocks(s);
      case Unsubscribe(s) =>
        BothLocks(s);
    }
  }

  lemma SingleLock(lock: Lock)
    ensures Ordered([Acquire(lock), Release(lock)]) && Held([Acquire(lock), Release(lock)]) == {}
  {
    Before(Release(lock), []);
    Before(Acquire(lock), [Release(lock)]);
    assert [Acquire(lock)] + [Release(lock)] == [Acquire(lock), Release(lock)];
  }

  lemma BothLocks(s: nat)
    ensures Ordered(Program(Unsubscribe(s))) && Held(Program(Unsubscribe(s))) == {}
  {
    hide Ordered, Held;
    var r, l := RegistryLock, StreamLock(s);
    NothingLeft();
    Before(Release(r), []);
    assert [Release(r)] + [] == [Release(r)];
    Before(Release(l), [Release(r)]);
    assert [Release(l)] + [Release(r)] == [Release(l), Release(r)];
    Before(Acquire(l), [Release(l), Release(r)]);
    assert [Acquire(l)] + [Release(l), Release(r)] == [Acquire(l), Release(l), Release(r)];
    Before(Acquire(r), [Acquire(l), Release(l), Release(r)]);
    assert [Acquire(r)] + [Acquire(l), Release(l), Release(r)] == Program(Unsubscribe(s));
  }

  ghost predicate Consistent(st: State) {
    && (forall t :: 0 <= t < |st.threads| ==> Ordered(st.threads[t]))
    && (forall lock :: lock in st.holder ==>
         st.holder[lock] < |st.threads| && lock in Held(st.threads[st.holder[lock]]))
    && (forall t, lock :: 0 <= t < |st.threads| && lock in Held(st.threads[t]) ==>
         lock in st.holder && st.holder[lock] == t)
  }

  lemma CallKeeps(st: State, t: nat, op: Operation)
    requires Consistent(st) && t < |st.threads| && st.threads[t] == []
    ensures Consistent(Next(st, Call(t, op)))
  {
    hide Ordered, Held, Program;
    ProgramsAreOrdered(op);
    NothingLeft();
  }

  lemma MoveKeeps(st: State, t: nat)
    requires Consistent(st) && CanMove(st, t)
    ensures Consistent(Next(st, Move(t)))
  {
    hide Ordered, Held;
    var rest, after := st.threads[t], Next(st, Move(t));
    var lock := rest[0].lock;
    MovedHolds(rest);
    assert rest[0].Release? ==> lock in st.holder && st.holder[lock] == t;
    assert after.threads[t] == rest[1..];
    forall u, other | 0 <= u < |st.threads| && other in Held(after.threads[u])
      ensures other in after.holder && after.holder[other] == u
    {
      if u == t {
        assert other != lock ==> other in Held(rest);
      } else {
        assert after.threads[u] == st.threads[u];
        assert st.holder[other] == u;
      }
    }
    forall other | other in after.holder
      ensures after.holder[other] < |st.threads| && other in Held(after.threads[after.holder[other]])
    {
      if other != lock {
        assert other in Held(st.threads[st.holder[other]]);
      }
    }
  }

  lemma MovedHolds(rest: seq<Action>)
    requires rest != [] && Ordered(rest)
    ensures Ordered(rest[1..])
    ensures rest[0].Acquire? ==> Held(rest[1..]) == Held(rest) + {rest[0].lock} && rest[0].lock !in Held(rest)
    ensures rest[0].Release? ==> Held(rest[1..]) == Held(rest) - {rest[0].lock} && rest[0].lock in Held(rest)
  {
  }

  lemma {:induction false} EveryRunIsConsistent(trace: seq<State>, steps: seq<Step>, n: nat)
    requires IsRun(trace, steps) && n < |trace|
    ensures Consistent(trace[n])
  {
    if n > 0 {
      EveryRunIsConsistent(trace, steps, n - 1);
      assert Stepped(trace[n - 1], steps[n - 1], trace[n]);
      match steps[n - 1] {
        case Call(t, op) => CallKeeps(trace[n - 1], t, op);
        case Move(t) => MoveKeeps(trace[n - 1], t);
      }
    }
  }

  /**
    No run reaches a cycle of waiting goroutines: whoever holds a lock another waits for can move, or waits
    for a stream's lock whose holder can move.
   */
  lemma WaitingChainsAreShort(trace: seq<State>, steps: seq<Step>, n: nat, t: nat)
    requires IsRun(trace, steps) && n < |trace| && Waits(trace[n], t)
    ensures var st := trace[n];
            var holder := st.holder[st.threads[t][0].lock];
            && (CanMove(st, holder)
                || (Waits(st, holder) && st.threads[holder][0].lock.StreamLock? && st.threads[t][0].lock.RegistryLock?
                    && CanMove(st, st.holder[st.threads[holder][0].lock])))
  {
    EveryRunIsConsistent(trace, steps, n);
    HolderMoves(trace[n], t);
    var holder := trace[n].holder[trace[n].threads[t][0].lock];
    if Waits(trace[n], holder) {
      HolderMoves(trace[n], holder);
    }
  }

  /** The holder of a stream's lock waits for nothing; the holder of the registry's waits only for a stream's. */
  lemma HolderMoves(st: State, t: nat)
    requires Consistent(st) && Waits(st, t)
    ensures var lock := st.threads[t][0].lock; var holder := st.holder[lock];
            && holder < |st.threads| && st.threads[holder] != []
            && (Waits(st, holder) ==> lock.RegistryLock? && st.threads[holder][0].lock.StreamLock?)
  {
    var lock := st.threads[t][0].lock;
    assert Ordered(st.threads[st.holder[lock]]);
  }

  /** No two goroutines ever hold the same lock, and the map of holders names whoever does. */
  lemma MutualExclusion(trace: seq<State>, steps: seq<Step>, n: nat, t: nat, u: nat, lock: Lock)
    requires IsRun(trace, steps) && n < |trace| && t < |trace[n].threads| && u < |trace[n].threads|
    requires lock in Held(trace[n].threads[t]) && lock in Held(trace[n].threads[u])
    ensures t == u && lock in trace[n].holder && trace[n].holder[lock] == t
  {
    EveryRunIsConsistent(trace, steps, n);
    var st := trace[n];
    assert st.holder[lock] == t;
    assert st.holder[lock] == u;
  }

  /** The locks that guard what an operation reads and writes: the map of streams, a stream's subscribers. */
  function Guards(op: Operation): set<Lock> {
    match op
    case Subscribe(s) => {RegistryLock, StreamLock(s)}
    case Unsubscribe(s) => {RegistryLock, StreamLock(s)}
    case CopySubscribers(s) => {StreamLock(s)}
    case Finish(s) => {StreamLock(s)}
    case StartStream => {RegistryLock}
    case StartPending => {RegistryLock}
  }

  lemma HeldByRelease(lock: Lock, rest: seq<Action>)
    ensures Held([Release(lock)] + rest) == Held(rest) + {lock}
  {
    assert ([Release(lock)] + rest)[1..] == rest;
  }

  /** Half-way through, when every lock is taken and none given back, an operation holds just these. */
  lemma GuardsAreHeld(op: Operation)
    ensures Held(Program(op)[|Program(op)| / 2..]) == Guards(op)
  {
    hide Held;
    NothingLeft();
    match op {
      case Subscribe(s) => BothHeld(s);
      case Unsubscribe(s) => BothHeld(s);
      case CopySubscribers(s) => OneHeld(StreamLock(s));
      case Finish(s) => OneHeld(StreamLock(s));
      case StartStream => OneHeld(RegistryLock);
      case StartPending => OneHeld(RegistryLock);
    }
  }

  lemma OneHeld(lock: Lock)
    ensures Held([Acquire(lock), Release(lock)][1..]) == {lock}
  {
    NothingLeft();
    HeldByRelease(lock, []);
    assert [Acquire(lock), Release(lock)][1..] == [Release(lock)] + [];
  }

  lemma BothHeld(s: nat)
    ensures Held(Program(Unsubscribe(s))[2..]) == {RegistryLock, StreamLock(s)}
  {
    NothingLeft();
    HeldByRelease(RegistryLock, []);
    HeldByRelease(StreamLock(s), [Release(RegistryLock)]);
    assert [Release(RegistryLock)] + [] == [Release(RegistryLock)];
    assert Program(Unsubscribe(s))[2..] == [Release(StreamLock(s))] + [Release(RegistryLock)];
  }
}
