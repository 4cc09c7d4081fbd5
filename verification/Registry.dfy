/**
  `runRegistry` with its shared streams, under every interleaving: subscribing at any time (also while a
  stream is being given up), starting, dispatching, finishing, unsubscribing and cancelling.

  A stream or subscription object is an index into `table` or `subs`.  Each step is one critical section.
  Sources and contexts are the environment's: any event may arrive, a source may close at any time.
 */
module Registry {
  import opened Conditions
  import opened Sequences
  import opened SourceIds
  import opened SharedStreams

  /**
    All but the stream is history: where it joined, what it was sent, how often its channel was closed, and
    whether an unsubscribe (its own, or the dispatcher's for a context that is done) removed it.
   */
  datatype Subscription = Subscription(stream: nat, joined: nat, sent: seq<Event>, closes: nat, left: bool)

  /**
    `starts` counts the `dispatch` goroutines of the stream; `owed` says that its creator has not called
    `startStream` yet; `over` says that the dispatcher saw its source closed.
   */
  datatype Record = Record(key: nat, stream: Stream<nat>, starts: nat, owed: bool, over: bool)

  datatype Registry = Registry(
    streams: map<nat, nat>, pending: seq<nat>, started: bool, table: seq<Record>, subs: seq<Subscription>)

  const EMPTY := Registry(map[], [], false, [], [])

  // Critical sections

  function NewSubscription(s: Stream<nat>, id: nat): Subscription {
    Subscription(id, |s.Dispatched()|, [], if s.disp.Ended? then 1 else 0, false)
  }

  function Attach(r: Registry, id: nat): Registry
    requires id < |r.table|
  {
    var record := r.table[id];
    var sub := |r.subs|;
    var s := record.stream;
    var s' := if s.disp.Ended? then s else s.(subs := s.subs + {sub});
    r.(table := r.table[id := record.(stream := s')], subs := r.subs + [NewSubscription(s, id)])
  }

  predicate Mapped(r: Registry, key: nat) {
    key in r.streams && r.streams[key] < |r.table|
  }

  /** The critical section of `subscribe`; the new subscription is `|r.subs|`. */
  function Subscribe(r: Registry, key: nat): Registry {
    if Mapped(r, key) then Attach(r, r.streams[key])
    else
      var id := |r.table|;
      var record := Record(key, NewStream({}), 0, true, false);
      Attach(r.(streams := r.streams[key := id], table := r.table + [record]), id)
  }

  predicate CanStart(r: Registry, id: nat) {
    id < |r.table| && r.table[id].owed
  }

  function StartStream(r: Registry, id: nat): Registry
    requires CanStart(r, id)
  {
    var record := r.table[id].(owed := false);
    if r.started then r.(table := r.table[id := record.(starts := record.starts + 1)])
    else r.(table := r.table[id := record], pending := r.pending + [id])
  }

  function Launch(table: seq<Record>, ids: seq<nat>): (launched: seq<Record>)
    ensures |launched| == |table|
    decreases |ids|
  {
    if ids == [] then table
    else
      var id := ids[0];
      Launch(if id < |table| then table[id := table[id].(starts := table[id].starts + 1)] else table, ids[1..])
  }

  function StartPending(r: Registry): Registry {
    if r.started then r else r.(started := true, pending := [], table := Launch(r.table, r.pending))
  }

  /** The critical section of `unsubscribe`. */
  function Unsubscribe(r: Registry, sub: nat): Registry
    requires sub < |r.subs| && r.subs[sub].stream < |r.table|
  {
    var id := r.subs[sub].stream;
    var record := r.table[id];
    if sub !in record.stream.subs then r
    else
      var s := record.stream.Remove(sub);
      var empty := s.subs == {} && !s.disp.Ended?;
      var unmap := empty && record.key in r.streams && r.streams[record.key] == id;
      r.(table := r.table[id := record.(stream := s)],
         streams := if unmap then r.streams - {record.key} else r.streams,
         subs := r.subs[sub := r.subs[sub].(left := true)])
  }

  predicate Dispatching(r: Registry, id: nat) {
    id < |r.table| && r.table[id].starts > 0
  }

  function WithStream(r: Registry, id: nat, s: Stream<nat>): Registry
    requires id < |r.table|
  {
    r.(table := r.table[id := r.table[id].(stream := s)])
  }

  predicate Sending(r: Registry, id: nat) {
    && Dispatching(r, id) && r.table[id].stream.Todo() != []
    && r.table[id].stream.disp.todo[0] < |r.subs| && r.subs[r.table[id].stream.disp.todo[0]].stream == id
  }

  function Send(r: Registry, id: nat): Registry
    requires Sending(r, id)
  {
    var s := r.table[id].stream;
    var sub := s.disp.todo[0];
    WithStream(r, id, s.Advance()).(
      subs := r.subs[sub := r.subs[sub].(sent := r.subs[sub].sent + [s.disp.event])])
  }

  /** The dispatcher finds a subscriber's context done: it unsubscribes it and goes on. */
  function Skip(r: Registry, id: nat): Registry
    requires Sending(r, id)
  {
    var s := r.table[id].stream;
    Unsubscribe(WithStream(r, id, s.Advance()), s.disp.todo[0])
  }

  function CloseAll(subs: seq<Subscription>, closing: set<nat>): seq<Subscription> {
    seq(|subs|, i requires 0 <= i < |subs| => if i in closing then subs[i].(closes := subs[i].closes + 1) else subs[i])
  }

  function Finish(r: Registry, id: nat): Registry
    requires id < |r.table|
  {
    var s := r.table[id].stream;
    WithStream(r, id, s.Finish()).(subs := CloseAll(r.subs, s.subs))
  }

  datatype Step =
    | SubscribeStep(key: nat)
    | StartStreamStep(id: nat)
    | StartPendingStep
    | PullStep(id: nat, event: Event)
    | SnapshotStep(id: nat, order: seq<nat>)
    | SendStep(id: nat)
    | SkipStep(id: nat)
    | RestStep(id: nat)
    | StopStep(id: nat, sourceClosed: bool)
    | FinishStep(id: nat)
    | UnsubscribeStep(sub: nat)
    | CancelStreamStep(id: nat)

  ghost predicate Enabled(r: Registry, step: Step) {
    match step
    case SubscribeStep(_) => true
    case StartStreamStep(id) => CanStart(r, id)
    case StartPendingStep => true
    case PullStep(id, _) => Dispatching(r, id) && r.table[id].stream.disp.Idle?
    case SnapshotStep(id, order) =>
      && Dispatching(r, id) && r.table[id].stream.disp.Holding?
      && Distinct(order) && forall s :: s in order <==> s in r.table[id].stream.subs
    case SendStep(id) => Sending(r, id)
    case SkipStep(id) => Sending(r, id)
    case RestStep(id) => Dispatching(r, id) && r.table[id].stream.disp.Delivering? && r.table[id].stream.disp.todo == []
    case StopStep(id, sourceClosed) =>
      && Dispatching(r, id)
      && (r.table[id].stream.disp.Idle? || (!sourceClosed && r.table[id].stream.Todo() != []))
    case FinishStep(id) => Dispatching(r, id) && r.table[id].stream.disp.Ending?
    case UnsubscribeStep(sub) => sub < |r.subs| && r.subs[sub].stream < |r.table|
    case CancelStreamStep(id) => id < |r.table| && r.table[id].stream.emptied
  }

  ghost function Next(r: Registry, step: Step): Registry
    requires Enabled(r, step)
  {
    match step
    case SubscribeStep(key) => Subscribe(r, key)
    case StartStreamStep(id) => StartStream(r, id)
    case StartPendingStep => StartPending(r)
    case PullStep(id, event) => WithStream(r, id, r.table[id].stream.Pull(event))
    case SnapshotStep(id, order) => WithStream(r, id, r.table[id].stream.Snapshot(order))
    case SendStep(id) => Send(r, id)
    case SkipStep(id) => Skip(r, id)
    case RestStep(id) => WithStream(r, id, r.table[id].stream.(disp := Idle))
    case StopStep(id, sourceClosed) =>
      r.(table := r.table[id := r.table[id].(stream := r.table[id].stream.(disp := Ending), over := sourceClosed)])
    case FinishStep(id) => Finish(r, id)
    case UnsubscribeStep(sub) => Unsubscribe(r, sub)
    case CancelStreamStep(id) => WithStream(r, id, r.table[id].stream.(cancelled := true))
  }

  ghost predicate IsRunFrom(start: Registry, trace: seq<Registry>, steps: seq<Step>) {
    && |trace| == |steps| + 1
    && trace[0] == start
    && forall n: nat :: n < |steps| ==> Stepped(trace[n], steps[n], trace[n + 1])
  }

  ghost predicate IsRun(trace: seq<Registry>, steps: seq<Step>) {
    IsRunFrom(EMPTY, trace, steps)
  }

  /** Some run of a new registry leads to `r`. */
  ghost predicate Reachable(r: Registry) {
    exists trace, steps :: IsRun(trace, steps) && trace[|steps|] == r
  }

  ghost predicate Stepped(before: Registry, step: Step, after: Registry) {
    Enabled(before, step) && after == Next(before, step)
  }

  // What every reachable registry keeps

  predicate MapsTo(r: Registry, key: nat, id: nat) {
    key in r.streams && r.streams[key] == id
  }

  /** One stream: it is started once, and while it is mapped it has not been given up. */
  ghost predicate RecordOk(record: Record, pending: bool, started: bool, mapped: bool) {
    var s := record.stream;
    && record.starts <= 1
    && (record.owed ==> record.starts == 0 && !pending)
    && (!record.owed && !pending ==> record.starts == 1)
    && (pending || !started ==> record.starts == 0)
    && (record.starts == 0 ==> s.disp.Idle? && s.taken == [])
    && (s.disp.Ended? ==> s.subs == {})
    && (s.emptied ==> s.subs == {} && !mapped)
    && (s.cancelled ==> s.emptied)
    && (mapped ==> s.disp.Ended? || s.subs != {})
    && Distinct(s.Todo())
    && (s.disp.Holding? || s.disp.Delivering? ==> s.taken != [] && s.taken[|s.taken| - 1] == s.disp.event)
    && (record.over ==> s.disp.Ending? || s.disp.Ended?)
  }

  ghost predicate Owned(id: nat, record: Record, subs: seq<Subscription>) {
    forall sub :: sub in record.stream.subs || sub in record.stream.Todo() ==> sub < |subs| && subs[sub].stream == id
  }

  /** A subscription is attached, or has been removed, or has been closed once; and only one of these. */
  predicate Placed(attached: bool, x: Subscription) {
    if attached then !x.left && x.closes == 0
    else x.closes == if x.left then 0 else 1
  }

  /**
    One subscription of the stream `record`: what it was sent is a contiguous run of the stream's events
    from the one it joined at, and if it was closed because the source closed, it had received them all.
   */
  ghost predicate SubscriptionOk(sub: nat, x: Subscription, record: Record) {
    var s := record.stream;
    && Placed(sub in s.subs, x)
    && (x.closes == 1 ==> s.disp.Ended?)
    && x.joined + |x.sent| <= |s.taken|
    && x.sent == s.taken[x.joined..x.joined + |x.sent|]
    && (sub in s.subs || sub in s.Todo() ==> x.joined + |x.sent| == |s.Due(sub)| || (s.disp.Ending? && !record.over))
    && (x.closes == 1 && record.over ==> x.joined + |x.sent| == |s.taken|)
  }

  ghost predicate RecordAt(r: Registry, id: nat)
    requires id < |r.table|
  {
    && RecordOk(r.table[id], id in r.pending, r.started, MapsTo(r, r.table[id].key, id))
    && (!r.table[id].stream.emptied ==> MapsTo(r, r.table[id].key, id))
    && Owned(id, r.table[id], r.subs)
  }

  ghost predicate SubAt(r: Registry, sub: nat)
    requires sub < |r.subs|
  {
    r.subs[sub].stream < |r.table| && SubscriptionOk(sub, r.subs[sub], r.table[r.subs[sub].stream])
  }

  ghost predicate KeyAt(r: Registry, key: nat) {
    key in r.streams ==> r.streams[key] < |r.table| && r.table[r.streams[key]].key == key
  }

  ghost predicate Safe(r: Registry) {
    && Distinct(r.pending) && (r.started ==> r.pending == [])
    && (forall a :: 0 <= a < |r.pending| ==> r.pending[a] < |r.table|)
    && (forall key: nat :: KeyAt(r, key))
    && (forall id: nat :: id < |r.table| ==> RecordAt(r, id))
    && (forall sub: nat :: sub < |r.subs| ==> SubAt(r, sub))
  }
}
