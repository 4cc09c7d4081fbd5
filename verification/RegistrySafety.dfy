/** The invariant of the registry survives every step, so it holds in every interleaving. */
module RegistrySafety {
  import opened Conditions
  import opened Sequences
  import opened SourceIds
  import opened SharedStreams
  import opened Registry

  // Steps that change one stream and nothing else

  /** Everything but stream `id` and the subscriptions of `id` is untouched. */
  lemma StreamChange(r: Registry, id: nat, record: Record)
    requires Safe(r) && id < |r.table| && record.key == r.table[id].key
    requires record.stream.emptied == r.table[id].stream.emptied
    requires RecordOk(record, id in r.pending, r.started, MapsTo(r, record.key, id)) && Owned(id, record, r.subs)
    requires forall sub: nat :: sub < |r.subs| && r.subs[sub].stream == id ==> SubscriptionOk(sub, r.subs[sub], record)
    ensures Safe(r.(table := r.table[id := record]))
  {
    hide RecordOk, Owned, SubscriptionOk;
    var r' := r.(table := r.table[id := record]);
    forall key: nat
      ensures KeyAt(r', key)
    {
      assert KeyAt(r, key);
    }
    forall j: nat | j < |r'.table|
      ensures RecordAt(r', j)
    {
      assert RecordAt(r, j);
    }
    forall sub: nat | sub < |r'.subs|
      ensures SubAt(r', sub)
    {
      assert SubAt(r, sub);
    }
  }

  lemma PullKeeps(r: Registry, id: nat, event: Event)
    requires Safe(r) && Enabled(r, PullStep(id, event))
    ensures Safe(Next(r, PullStep(id, event)))
  {
    var record := r.table[id].(stream := r.table[id].stream.Pull(event));
    assert RecordAt(r, id);
    forall sub: nat | sub < |r.subs| && r.subs[sub].stream == id
      ensures SubscriptionOk(sub, r.subs[sub], record)
    {
      assert SubAt(r, sub);
    }
    StreamChange(r, id, record);
  }

  lemma SnapshotKeeps(r: Registry, id: nat, order: seq<nat>)
    requires Safe(r) && Enabled(r, SnapshotStep(id, order))
    ensures Safe(Next(r, SnapshotStep(id, order)))
  {
    var record := r.table[id].(stream := r.table[id].stream.Snapshot(order));
    assert RecordAt(r, id);
    forall sub: nat | sub < |r.subs| && r.subs[sub].stream == id
      ensures SubscriptionOk(sub, r.subs[sub], record)
    {
      assert SubAt(r, sub);
    }
    StreamChange(r, id, record);
  }

  lemma RestKeeps(r: Registry, id: nat)
    requires Safe(r) && Enabled(r, RestStep(id))
    ensures Safe(Next(r, RestStep(id)))
  {
    var record := r.table[id].(stream := r.table[id].stream.(disp := Idle));
    assert RecordAt(r, id);
    forall sub: nat | sub < |r.subs| && r.subs[sub].stream == id
      ensures SubscriptionOk(sub, r.subs[sub], record)
    {
      assert SubAt(r, sub);
    }
    StreamChange(r, id, record);
  }

  lemma StopKeeps(r: Registry, id: nat, sourceClosed: bool)
    requires Safe(r) && Enabled(r, StopStep(id, sourceClosed))
    ensures Safe(Next(r, StopStep(id, sourceClosed)))
  {
    var record := r.table[id].(stream := r.table[id].stream.(disp := Ending), over := sourceClosed);
    assert RecordAt(r, id);
    forall sub: nat | sub < |r.subs| && r.subs[sub].stream == id
      ensures SubscriptionOk(sub, r.subs[sub], record)
    {
      assert SubAt(r, sub);
    }
    StreamChange(r, id, record);
  }

  lemma CancelStreamKeeps(r: Registry, id: nat)
    requires Safe(r) && Enabled(r, CancelStreamStep(id))
    ensures Safe(Next(r, CancelStreamStep(id)))
  {
    var record := r.table[id].(stream := r.table[id].stream.(cancelled := true));
    assert RecordAt(r, id);
    forall sub: nat | sub < |r.subs| && r.subs[sub].stream == id
      ensures SubscriptionOk(sub, r.subs[sub], record)
    {
      assert SubAt(r, sub);
    }
    StreamChange(r, id, record);
  }

  // Sending, finishing

  lemma SentOk(sub: nat, x: Subscription, record: Record)
    requires SubscriptionOk(sub, x, record) && record.stream.Todo() != [] && Distinct(record.stream.Todo())
    requires record.stream.taken != [] && record.stream.taken[|record.stream.taken| - 1] == record.stream.disp.event
    ensures var s := record.stream;
            SubscriptionOk(sub, if sub == s.Todo()[0] then x.(sent := x.sent + [s.disp.event]) else x,
                           record.(stream := s.Advance()))
  {
    TailDistinct(record.stream.Todo());
  }

  lemma SendKeeps(r: Registry, id: nat)
    requires Safe(r) && Sending(r, id)
    ensures Safe(Send(r, id))
  {
    hide SubscriptionOk;
    var r', record := Send(r, id), r.table[id];
    assert RecordAt(r, id);
    TailDistinct(record.stream.Todo());
    forall key: nat
      ensures KeyAt(r', key)
    {
      assert KeyAt(r, key);
    }
    forall j: nat | j < |r'.table|
      ensures RecordAt(r', j)
    {
      assert RecordAt(r, j);
    }
    forall sub: nat | sub < |r'.subs|
      ensures SubAt(r', sub)
    {
      assert SubAt(r, sub);
      if r.subs[sub].stream == id {
        SentOk(sub, r.subs[sub], record);
      }
    }
  }

  lemma FinishedOk(sub: nat, x: Subscription, record: Record)
    requires SubscriptionOk(sub, x, record) && record.stream.disp.Ending?
    ensures SubscriptionOk(sub, if sub in record.stream.subs then x.(closes := x.closes + 1) else x,
                           record.(stream := record.stream.Finish()))
  {
  }

  lemma FinishKeepsRecord(r: Registry, id: nat, j: nat)
    requires Safe(r) && Enabled(r, FinishStep(id)) && j < |r.table|
    ensures j < |Finish(r, id).table| && RecordAt(Finish(r, id), j)
  {
    hide SubscriptionOk;
    assert RecordAt(r, j);
    assert RecordAt(r, id);
  }

  lemma OthersNotSubscribed(r: Registry, id: nat, sub: nat)
    requires Safe(r) && id < |r.table| && sub < |r.subs| && r.subs[sub].stream != id
    ensures sub !in r.table[id].stream.subs
  {
    hide SubscriptionOk, RecordOk, SubAt, KeyAt;
    assert RecordAt(r, id);
  }

  lemma FinishKeepsSub(r: Registry, id: nat, sub: nat)
    requires Safe(r) && Enabled(r, FinishStep(id)) && sub < |r.subs|
    ensures sub < |Finish(r, id).subs| && SubAt(Finish(r, id), sub)
  {
    hide SubscriptionOk, RecordAt, KeyAt;
    assert SubAt(r, sub);
    if r.subs[sub].stream == id {
      FinishedOk(sub, r.subs[sub], r.table[id]);
    } else {
      OthersNotSubscribed(r, id, sub);
    }
  }

  lemma FinishKeeps(r: Registry, id: nat)
    requires Safe(r) && Enabled(r, FinishStep(id))
    ensures Safe(Finish(r, id))
  {
    hide RecordAt, SubAt;
    var r' := Finish(r, id);
    forall key: nat
      ensures KeyAt(r', key)
    {
      assert KeyAt(r, key);
    }
    forall j: nat | j < |r'.table|
      ensures RecordAt(r', j)
    {
      FinishKeepsRecord(r, id, j);
    }
    forall sub: nat | sub < |r'.subs|
      ensures SubAt(r', sub)
    {
      FinishKeepsSub(r, id, sub);
    }
  }

  // Subscribing and unsubscribing

  lemma RemovedOk(sub: nat, x: Subscription, record: Record, gone: nat)
    requires SubscriptionOk(sub, x, record) && gone in record.stream.subs
    ensures SubscriptionOk(sub, if sub == gone then x.(left := true) else x,
                           record.(stream := record.stream.Remove(gone)))
  {
  }

  lemma UnsubscribeKeeps(r: Registry, sub: nat)
    requires Safe(r) && sub < |r.subs| && r.subs[sub].stream < |r.table|
    ensures Safe(Unsubscribe(r, sub))
  {
    hide SubscriptionOk;
    var r', id := Unsubscribe(r, sub), r.subs[sub].stream;
    assert RecordAt(r, id);
    assert KeyAt(r, r.table[id].key);
    forall key: nat
      ensures KeyAt(r', key)
    {
      assert KeyAt(r, key);
    }
    forall j: nat | j < |r'.table|
      ensures RecordAt(r', j)
    {
      assert RecordAt(r, j);
    }
    forall x: nat | x < |r'.subs|
      ensures SubAt(r', x)
    {
      assert SubAt(r, x);
      if r.subs[x].stream == id && sub in r.table[id].stream.subs {
        RemovedOk(x, r.subs[x], r.table[id], sub);
      }
    }
  }

  lemma SkippedOk(sub: nat, x: Subscription, record: Record)
    requires SubscriptionOk(sub, x, record) && record.stream.Todo() != [] && Distinct(record.stream.Todo())
    ensures var s := record.stream;
            SubscriptionOk(sub, if sub == s.Todo()[0] && sub in s.subs then x.(left := true) else x,
                           record.(stream := s.Advance().Remove(s.Todo()[0])))
  {
    TailDistinct(record.stream.Todo());
  }

  lemma SkipKeepsRecord(r: Registry, id: nat, j: nat)
    requires Safe(r) && Sending(r, id) && j < |r.table|
    ensures j < |Skip(r, id).table| && RecordAt(Skip(r, id), j)
  {
    hide SubscriptionOk;
    assert RecordAt(r, id) && RecordAt(r, j);
    assert KeyAt(r, r.table[id].key);
    TailDistinct(r.table[id].stream.Todo());
  }

  lemma SkipKeepsSub(r: Registry, id: nat, sub: nat)
    requires Safe(r) && Sending(r, id) && sub < |r.subs|
    ensures sub < |Skip(r, id).subs| && SubAt(Skip(r, id), sub)
  {
    assert RecordAt(r, id) && SubAt(r, sub);
    hide SubscriptionOk, Owned;
    if r.subs[sub].stream == id {
      SkippedOk(sub, r.subs[sub], r.table[id]);
    }
  }

  lemma SkipKeeps(r: Registry, id: nat)
    requires Safe(r) && Sending(r, id)
    ensures Safe(Skip(r, id))
  {
    hide RecordAt, SubAt;
    var r' := Skip(r, id);
    forall key: nat
      ensures KeyAt(r', key)
    {
      assert KeyAt(r, key);
    }
    forall j: nat | j < |r'.table|
      ensures RecordAt(r', j)
    {
      SkipKeepsRecord(r, id, j);
    }
    forall sub: nat | sub < |r'.subs|
      ensures SubAt(r', sub)
    {
      SkipKeepsSub(r, id, sub);
    }
  }

  lemma AttachedOk(sub: nat, x: Subscription, record: Record, more: nat)
    requires SubscriptionOk(sub, x, record) && sub != more && !record.stream.disp.Ended?
    ensures SubscriptionOk(sub, x, record.(stream := record.stream.(subs := record.stream.subs + {more})))
  {
  }

  lemma NewcomerOk(sub: nat, record: Record, id: nat)
    requires sub !in record.stream.Todo() && sub !in record.stream.subs
    ensures var s := record.stream;
            SubscriptionOk(sub, NewSubscription(s, id),
                           record.(stream := if s.disp.Ended? then s else s.(subs := s.subs + {sub})))
  {
  }

  /** `Safe`, except that the stream `id` may not have a subscriber yet. */
  ghost predicate SafeBut(r: Registry, id: nat) {
    && Distinct(r.pending) && (r.started ==> r.pending == [])
    && (forall a :: 0 <= a < |r.pending| ==> r.pending[a] < |r.table|)
    && (forall key: nat :: KeyAt(r, key))
    && (forall j: nat :: j < |r.table| && j != id ==> RecordAt(r, j))
    && (forall sub: nat :: sub < |r.subs| ==> SubAt(r, sub))
    && id < |r.table| && Owned(id, r.table[id], r.subs)
    && RecordOk(r.table[id], id in r.pending, r.started, false)
    && !r.table[id].stream.emptied && MapsTo(r, r.table[id].key, id)
  }

  lemma AttachKeeps(r: Registry, id: nat)
    requires SafeBut(r, id)
    ensures Safe(Attach(r, id))
  {
    hide SubscriptionOk;
    var r', record, more := Attach(r, id), r.table[id], |r.subs|;
    forall key: nat
      ensures KeyAt(r', key)
    {
      assert KeyAt(r, key);
    }
    forall j: nat | j < |r'.table|
      ensures RecordAt(r', j)
    {
      if j != id {
        assert RecordAt(r, j);
      }
    }
    forall sub: nat | sub < |r'.subs|
      ensures SubAt(r', sub)
    {
      if sub == more {
        NewcomerOk(sub, record, id);
      } else {
        assert SubAt(r, sub);
        if r.subs[sub].stream == id && !record.stream.disp.Ended? {
          AttachedOk(sub, r.subs[sub], record, more);
        }
      }
    }
  }

  lemma CreatedOk(r: Registry, key: nat)
    requires Safe(r) && !Mapped(r, key)
    ensures var id := |r.table|;
            SafeBut(r.(streams := r.streams[key := id],
                       table := r.table + [Record(key, NewStream({}), 0, true, false)]), id)
  {
    hide SubscriptionOk;
    var id := |r.table|;
    var r' := r.(streams := r.streams[key := id], table := r.table + [Record(key, NewStream({}), 0, true, false)]);
    assert KeyAt(r, key);
    forall k: nat
      ensures KeyAt(r', k)
    {
      assert KeyAt(r, k);
    }
    forall j: nat | j < |r.table|
      ensures RecordAt(r', j)
    {
      assert RecordAt(r, j);
      assert KeyAt(r, r.table[j].key);
    }
    forall sub: nat | sub < |r'.subs|
      ensures SubAt(r', sub)
    {
      assert SubAt(r, sub);
    }
  }

  lemma SubscribeKeeps(r: Registry, key: nat)
    requires Safe(r)
    ensures Safe(Subscribe(r, key))
  {
    if Mapped(r, key) {
      assert KeyAt(r, key);
      assert RecordAt(r, r.streams[key]);
      AttachKeeps(r, r.streams[key]);
    } else {
      CreatedOk(r, key);
      var id := |r.table|;
      var record := Record(key, NewStream({}), 0, true, false);
      AttachKeeps(r.(streams := r.streams[key := id], table := r.table + [record]), id);
    }
  }

  // Starting

  lemma StartStreamKeeps(r: Registry, id: nat)
    requires Safe(r) && CanStart(r, id)
    ensures Safe(StartStream(r, id))
  {
    hide SubscriptionOk, Owned;
    var r' := StartStream(r, id);
    assert RecordAt(r, id);
    forall key: nat
      ensures KeyAt(r', key)
    {
      assert KeyAt(r, key);
    }
    forall j: nat | j < |r'.table|
      ensures RecordAt(r', j)
    {
      assert RecordAt(r, j);
      SameOwner(j, r.table[j], r'.table[j], r.subs);
    }
    forall sub: nat | sub < |r'.subs|
      ensures SubAt(r', sub)
    {
      assert SubAt(r, sub);
      SameStream(sub, r.subs[sub], r.table[r.subs[sub].stream], r'.table[r.subs[sub].stream]);
    }
  }

  lemma SameOwner(id: nat, record: Record, other: Record, subs: seq<Subscription>)
    requires Owned(id, record, subs) && other.stream == record.stream
    ensures Owned(id, other, subs)
  {
  }

  lemma SameStream(sub: nat, x: Subscription, record: Record, other: Record)
    requires SubscriptionOk(sub, x, record) && other.stream == record.stream && other.over == record.over
    ensures SubscriptionOk(sub, x, other)
  {
  }

  /** `Launch` starts every listed stream once, and changes nothing else. */
  lemma {:induction false} LaunchStarts(table: seq<Record>, ids: seq<nat>, j: nat)
    requires Distinct(ids) && j < |table|
    ensures Launch(table, ids)[j] == if j in ids then table[j].(starts := table[j].starts + 1) else table[j]
    decreases |ids|
  {
    if ids != [] {
      var id := ids[0];
      var next := if id < |table| then table[id := table[id].(starts := table[id].starts + 1)] else table;
      LaunchStarts(next, ids[1..], j);
      assert j in ids <==> j == id || j in ids[1..];
    }
  }

  lemma StartPendingKeeps(r: Registry)
    requires Safe(r)
    ensures Safe(StartPending(r))
  {
    hide SubscriptionOk, Owned;
    var r' := StartPending(r);
    if !r.started {
      forall j: nat | j < |r.table|
        ensures r'.table[j] == if j in r.pending then r.table[j].(starts := r.table[j].starts + 1) else r.table[j]
      {
        LaunchStarts(r.table, r.pending, j);
      }
      forall key: nat
        ensures KeyAt(r', key)
      {
        assert KeyAt(r, key);
      }
      forall j: nat | j < |r'.table|
        ensures RecordAt(r', j)
      {
        assert RecordAt(r, j);
        SameOwner(j, r.table[j], r'.table[j], r.subs);
      }
      forall sub: nat | sub < |r'.subs|
        ensures SubAt(r', sub)
      {
        assert SubAt(r, sub);
        SameStream(sub, r.subs[sub], r.table[r.subs[sub].stream], r'.table[r.subs[sub].stream]);
      }
    }
  }

  // Every run

  lemma SafeStep(r: Registry, step: Step)
    requires Safe(r) && Enabled(r, step)
    ensures Safe(Next(r, step))
  {
    hide Safe;
    match step
    case SubscribeStep(key) => SubscribeKeeps(r, key);
    case StartStreamStep(id) => StartStreamKeeps(r, id);
    case StartPendingStep => StartPendingKeeps(r);
    case PullStep(id, event) => PullKeeps(r, id, event);
    case SnapshotStep(id, order) => SnapshotKeeps(r, id, order);
    case SendStep(id) => SendKeeps(r, id);
    case SkipStep(id) => SkipKeeps(r, id);
    case RestStep(id) => RestKeeps(r, id);
    case StopStep(id, sourceClosed) => StopKeeps(r, id, sourceClosed);
    case FinishStep(id) => FinishKeeps(r, id);
    case UnsubscribeStep(sub) => UnsubscribeKeeps(r, sub);
    case CancelStreamStep(id) => CancelStreamKeeps(r, id);
  }

  lemma {:induction false} EveryRunIsSafe(trace: seq<Registry>, steps: seq<Step>, n: nat)
    requires IsRun(trace, steps) && n < |trace|
    ensures Safe(trace[n])
  {
    hide Safe;
    if n == 0 {
      EmptyIsSafe();
    } else {
      EveryRunIsSafe(trace, steps, n - 1);
      assert Stepped(trace[n - 1], steps[n - 1], trace[n]);
      SafeStep(trace[n - 1], steps[n - 1]);
    }
  }

  lemma EmptyIsSafe()
    ensures Safe(EMPTY)
  {
  }

  // What this means, for every interleaving

  /**
    Each stream is dispatched at most once, and exactly once when the registry has started and the creator
    has handed it over; nothing is received or delivered before `startPending`.
   */
  lemma DispatchedOnce(trace: seq<Registry>, steps: seq<Step>, n: nat, id: nat)
    requires IsRun(trace, steps) && n < |trace| && id < |trace[n].table|
    ensures trace[n].table[id].starts <= 1
    ensures trace[n].started && !trace[n].table[id].owed ==> trace[n].table[id].starts == 1
    ensures !trace[n].started ==> trace[n].table[id].starts == 0 && trace[n].table[id].stream.taken == []
    ensures !trace[n].started ==>
              forall sub :: 0 <= sub < |trace[n].subs| ==>
                  trace[n].subs[sub].sent == [] && trace[n].subs[sub].closes == 0
  {
    EveryRunIsSafe(trace, steps, n);
    assert RecordAt(trace[n], id);
    forall sub: nat | sub < |trace[n].subs| && !trace[n].started
      ensures trace[n].subs[sub].sent == [] && trace[n].subs[sub].closes == 0
    {
      assert SubAt(trace[n], sub);
      assert RecordAt(trace[n], trace[n].subs[sub].stream);
    }
  }

  /** A step sends only to a subscription that is open, and closes only open ones. */
  ghost predicate UsesOpenChannels(r: Registry, step: Step) {
    match step
    case SendStep(id) => Sending(r, id) && r.subs[r.table[id].stream.disp.todo[0]].closes == 0
    case FinishStep(id) =>
      id < |r.table| && forall sub :: sub in r.table[id].stream.subs ==> sub < |r.subs| && r.subs[sub].closes == 0
    case _ => true
  }

  /** No subscriber channel is closed twice, or sent to after it was closed. */
  lemma ChannelsAreUsedOnce(trace: seq<Registry>, steps: seq<Step>, n: nat)
    requires IsRun(trace, steps) && n < |steps|
    ensures UsesOpenChannels(trace[n], steps[n])
    ensures forall sub :: 0 <= sub < |trace[n].subs| ==> trace[n].subs[sub].closes <= 1
  {
    EveryRunIsSafe(trace, steps, n);
    var r := trace[n];
    assert Stepped(r, steps[n], trace[n + 1]);
    forall sub: nat | sub < |r.subs|
      ensures r.subs[sub].closes <= 1
      ensures r.subs[sub].closes == 1 ==>
              r.subs[sub].stream < |r.table| && r.table[r.subs[sub].stream].stream.disp.Ended?
    {
      assert SubAt(r, sub);
    }
    if steps[n].SendStep? || steps[n].FinishStep? {
      assert RecordAt(r, steps[n].id);
      if steps[n].SendStep? {
        assert r.table[steps[n].id].stream.disp.todo[0] in r.table[steps[n].id].stream.Todo();
      }
    }
  }

  /** A mapped stream is closed or has a subscriber, a closed stream has none, an emptied one is not mapped. */
  lemma MappedStreamsAreInUse(trace: seq<Registry>, steps: seq<Step>, n: nat, key: nat)
    requires IsRun(trace, steps) && n < |trace| && key in trace[n].streams
    ensures Mapped(trace[n], key)
    ensures var s := trace[n].table[trace[n].streams[key]].stream;
            && (s.disp.Ended? <==> s.subs == {})
            && !s.emptied && !s.cancelled
  {
    EveryRunIsSafe(trace, steps, n);
    assert KeyAt(trace[n], key);
    assert RecordAt(trace[n], trace[n].streams[key]);
  }

  /** No subscriber is ever attached to a stream that its last unsubscribe has cancelled, or is about to. */
  lemma NeverAttachedToGivenUpStream(trace: seq<Registry>, steps: seq<Step>, n: nat, key: nat)
    requires IsRun(trace, steps) && n < |steps| && steps[n] == SubscribeStep(key)
    ensures var r, sub := trace[n + 1], |trace[n].subs|;
            && sub < |r.subs| && r.subs[sub].stream < |r.table|
            && (var record := r.table[r.subs[sub].stream];
                && record.key == key && !record.stream.emptied && !record.stream.cancelled
                && (sub in record.stream.subs || r.subs[sub].closes == 1))
  {
    EveryRunIsSafe(trace, steps, n);
    var r := trace[n];
    assert Stepped(r, steps[n], trace[n + 1]);
    if Mapped(r, key) {
      assert KeyAt(r, key);
      assert RecordAt(r, r.streams[key]);
    }
  }

  /**
    Fan-out.  A subscriber is sent a contiguous run of the events of its source, in order, from the first
    one dispatched after it joined.  Once the stream has finished, it is closed unless it was removed
    before, and if the source was closed it has then been sent all the rest.
   */
  lemma FanOutIsContiguous(trace: seq<Registry>, steps: seq<Step>, n: nat, sub: nat)
    requires IsRun(trace, steps) && n < |trace| && sub < |trace[n].subs|
    ensures var r := trace[n];
            var x := r.subs[sub];
            && x.stream < |r.table|
            && (var record := r.table[x.stream];
                && x.joined + |x.sent| <= |record.stream.taken|
                && x.sent == record.stream.taken[x.joined..x.joined + |x.sent|]
                && (record.stream.disp.Ended? && !x.left ==> x.closes == 1)
                && (record.stream.disp.Ended? && record.over && !x.left ==> x.sent == record.stream.taken[x.joined..]))
  {
    EveryRunIsSafe(trace, steps, n);
    assert SubAt(trace[n], sub);
    assert RecordAt(trace[n], trace[n].subs[sub].stream);
  }

  /**
    In every state each subscription is in exactly one of three places: among the subscribers of its stream,
    removed by an unsubscribe, or closed, once.  A finished stream has no subscribers left.
   */
  lemma EverySubscriptionIsPlaced(trace: seq<Registry>, steps: seq<Step>, n: nat, sub: nat)
    requires IsRun(trace, steps) && n < |trace| && sub < |trace[n].subs|
    ensures var x := trace[n].subs[sub];
            && x.stream < |trace[n].table|
            && var s := trace[n].table[x.stream].stream;
            && (sub in s.subs <==> !x.left && x.closes == 0)
            && (x.left ==> x.closes == 0) && x.closes <= 1
            && (s.disp.Ended? ==> s.subs == {} && (x.left || x.closes == 1))
  {
    EveryRunIsSafe(trace, steps, n);
    assert SubAt(trace[n], sub);
    assert RecordAt(trace[n], trace[n].subs[sub].stream);
  }

  /** Only its own unsubscribe, or the dispatcher finding its context done, removes a subscription. */
  lemma OnlyUnsubscribingRemoves(r: Registry, step: Step, sub: nat)
    requires Safe(r) && Enabled(r, step) && sub < |r.subs|
    ensures sub < |Next(r, step).subs|
    ensures Next(r, step).subs[sub].left && !r.subs[sub].left ==>
              step == UnsubscribeStep(sub)
              || (step.SkipStep? && Sending(r, step.id) && r.table[step.id].stream.disp.todo[0] == sub)
  {
    hide RecordOk, SubscriptionOk, Owned;
  }

  // Continuing a run

  /** A run from a reachable registry is the end of a run from a new one. */
  lemma RunFromReachable(start: Registry, trace: seq<Registry>, steps: seq<Step>)
    returns (trace': seq<Registry>, steps': seq<Step>, offset: nat)
    requires Reachable(start) && IsRunFrom(start, trace, steps)
    ensures IsRun(trace', steps') && |trace'| == offset + |trace| && |steps'| == offset + |steps|
    ensures forall n :: 0 <= n < |trace| ==> trace'[offset + n] == trace[n]
  {
    hide Enabled, Next;
    var before, first :| IsRun(before, first) && before[|first|] == start;
    offset := |first|;
    trace', steps' := before + trace[1..], first + steps;
    forall n: nat | n < |steps'|
      ensures Stepped(trace'[n], steps'[n], trace'[n + 1])
    {
      if n < offset {
        assert Stepped(before[n], first[n], before[n + 1]);
      } else {
        assert Stepped(trace[n - offset], steps[n - offset], trace[n - offset + 1]);
      }
    }
  }

  lemma ReachableStep(r: Registry, step: Step)
    requires Reachable(r) && Enabled(r, step)
    ensures Reachable(Next(r, step))
  {
    hide Enabled, Next;
    assert Stepped(r, step, Next(r, step));
    var two := [r, Next(r, step)];
    var trace, steps, offset := RunFromReachable(r, two, [step]);
    assert trace[offset + 1] == two[1];
  }

  lemma ReachableIsSafe(r: Registry)
    requires Reachable(r)
    ensures Safe(r)
  {
    var trace, steps :| IsRun(trace, steps) && trace[|steps|] == r;
    EveryRunIsSafe(trace, steps, |steps|);
  }

  lemma EmptyIsReachable()
    ensures Reachable(EMPTY)
  {
    assert IsRun([EMPTY], []);
  }

  /** A subscription keeps its stream and its joining point, a stream its key. */
  lemma SubscriptionKept(r: Registry, step: Step, sub: nat)
    requires Safe(r) && Enabled(r, step) && sub < |r.subs|
    ensures var r' := Next(r, step);
            && sub < |r'.subs| && r'.subs[sub].stream == r.subs[sub].stream && r'.subs[sub].joined == r.subs[sub].joined
            && r.subs[sub].stream < |r.table| <= |r'.table|
            && r'.table[r.subs[sub].stream].key == r.table[r.subs[sub].stream].key
  {
    hide RecordOk, SubscriptionOk, Owned;
    assert SubAt(r, sub);
    if step.StartPendingStep? && !r.started {
      LaunchStarts(r.table, r.pending, r.subs[sub].stream);
    }
  }

  lemma {:induction false} SubscriptionStays(start: Registry, trace: seq<Registry>, steps: seq<Step>, n: nat, sub: nat)
    requires Reachable(start) && IsRunFrom(start, trace, steps) && n < |trace| && sub < |start.subs|
    ensures Safe(start) && Safe(trace[n])
    ensures var r := trace[n]; var id := start.subs[sub].stream;
            && sub < |r.subs| && r.subs[sub].stream == id && r.subs[sub].joined == start.subs[sub].joined
            && id < |start.table| <= |r.table| && r.table[id].key == start.table[id].key
    decreases n
  {
    hide Safe;
    var trace', steps', offset := RunFromReachable(start, trace, steps);
    EveryRunIsSafe(trace', steps', offset + n);
    EveryRunIsSafe(trace', steps', offset);
    assert trace'[offset + n] == trace[n] && trace'[offset + 0] == trace[0];
    if n == 0 {
      SubscriptionHasStream(start, sub);
    } else {
      SubscriptionStays(start, trace, steps, n - 1, sub);
      assert Stepped(trace[n - 1], steps[n - 1], trace[n]);
      SubscriptionKept(trace[n - 1], steps[n - 1], sub);
    }
  }

  lemma SubscriptionHasStream(r: Registry, sub: nat)
    requires Safe(r) && sub < |r.subs|
    ensures r.subs[sub].stream < |r.table|
  {
    assert SubAt(r, sub);
  }

  // A dispatcher goes on

  /** `subs` after one more event for each of `todo`. */
  function SentTo(subs: seq<Subscription>, todo: seq<nat>, events: seq<Event>): seq<Subscription> {
    seq(|subs|, i requires 0 <= i < |subs| =>
      if i in todo then subs[i].(sent := subs[i].sent + events) else subs[i])
  }

  function WithDispatcher(r: Registry, id: nat, disp: Dispatcher<nat>): Registry
    requires id < |r.table|
  {
    WithStream(r, id, r.table[id].stream.(disp := disp))
  }

  lemma RunMore(r: Registry, step: Step, trace: seq<Registry>, steps: seq<Step>)
    requires Enabled(r, step) && IsRunFrom(Next(r, step), trace, steps)
    ensures IsRunFrom(r, [r] + trace, [step] + steps)
  {
    hide Enabled, Next;
    var all, done := [r] + trace, [step] + steps;
    forall n: nat | n < |done|
      ensures Stepped(all[n], done[n], all[n + 1])
    {
      if n > 0 {
        assert Stepped(trace[n - 1], steps[n - 1], trace[n]);
      }
    }
  }

  /** The dispatcher is sending to subscribers of its own, each once. */
  ghost predicate Busy(r: Registry, id: nat) {
    && Dispatching(r, id) && r.table[id].stream.disp.Delivering? && Distinct(r.table[id].stream.disp.todo)
    && forall sub :: sub in r.table[id].stream.disp.todo ==> sub < |r.subs| && r.subs[sub].stream == id
  }

  /** All of `todo` served. */
  function Served(r: Registry, id: nat): Registry
    requires id < |r.table| && r.table[id].stream.disp.Delivering?
  {
    var d := r.table[id].stream.disp;
    WithDispatcher(r, id, Delivering(d.event, [])).(subs := SentTo(r.subs, d.todo, [d.event]))
  }

  lemma SendOne(r: Registry, id: nat)
    requires Busy(r, id) && r.table[id].stream.disp.todo != []
    ensures Enabled(r, SendStep(id)) && Busy(Next(r, SendStep(id)), id)
    ensures |Next(r, SendStep(id)).table[id].stream.disp.todo| < |r.table[id].stream.disp.todo|
    ensures Served(Next(r, SendStep(id)), id) == Served(r, id)
  {
    assert Sending(r, id) by {
      assert r.table[id].stream.disp.todo[0] in r.table[id].stream.disp.todo;
    }
    var d, next := r.table[id].stream.disp, Next(r, SendStep(id));
    TailDistinct(d.todo);
    assert SentTo(next.subs, d.todo[1..], [d.event]) == SentTo(r.subs, d.todo, [d.event]);
  }

  lemma NothingToSend(r: Registry, id: nat)
    requires Busy(r, id) && r.table[id].stream.disp.todo == []
    ensures Served(r, id) == r
  {
    var d := r.table[id].stream.disp;
    assert SentTo(r.subs, [], [d.event]) == r.subs;
    assert r.table[id := r.table[id]] == r.table;
  }

  /** The copied subscribers can all be sent to, one after the other. */
  lemma {:induction false} SendRest(r: Registry, id: nat) returns (trace: seq<Registry>, steps: seq<Step>)
    requires Busy(r, id)
    ensures IsRunFrom(r, trace, steps) && trace[|steps|] == Served(r, id)
    decreases |r.table[id].stream.disp.todo|
  {
    hide Enabled, Next, Served;
    if r.table[id].stream.disp.todo == [] {
      NothingToSend(r, id);
      trace, steps := [r], [];
    } else {
      SendOne(r, id);
      var more, done := SendRest(Next(r, SendStep(id)), id);
      RunMore(r, SendStep(id), more, done);
      trace, steps := [r] + more, [SendStep(id)] + done;
      assert trace[|steps|] == more[|done|];
    }
  }

  lemma JoinRuns(r: Registry, first: seq<Registry>, done: seq<Step>, trace: seq<Registry>, steps: seq<Step>)
    requires IsRunFrom(r, first, done) && IsRunFrom(first[|done|], trace, steps)
    ensures IsRunFrom(r, first + trace[1..], done + steps)
    ensures (first + trace[1..])[|done + steps|] == trace[|steps|]
  {
    hide Enabled, Next;
    var all, both := first + trace[1..], done + steps;
    forall n: nat | n < |both|
      ensures Stepped(all[n], both[n], all[n + 1])
    {
      if n < |done| {
        assert Stepped(first[n], done[n], first[n + 1]);
      } else {
        assert Stepped(trace[n - |done|], steps[n - |done|], trace[n - |done| + 1]);
      }
    }
  }

  /** `events` taken by the dispatcher and sent to each of `order`. */
  function AfterEvents(r: Registry, id: nat, order: seq<nat>, events: seq<Event>): Registry
    requires id < |r.table|
  {
    var s := r.table[id].stream;
    WithStream(r, id, s.(taken := s.taken + events)).(subs := SentTo(r.subs, order, events))
  }

  lemma NoMoreEvents(r: Registry, id: nat, order: seq<nat>)
    requires id < |r.table|
    ensures AfterEvents(r, id, order, []) == r
  {
    var s := r.table[id].stream;
    forall i | 0 <= i < |r.subs|
      ensures SentTo(r.subs, order, [])[i] == r.subs[i]
    {
      assert r.subs[i].sent + [] == r.subs[i].sent;
    }
    assert s.taken + [] == s.taken && r.table[id := r.table[id]] == r.table;
  }

  lemma AfterMoreEvents(r: Registry, id: nat, order: seq<nat>, events: seq<Event>, more: seq<Event>)
    requires Dispatching(r, id) && r.table[id].stream.disp.Idle?
    ensures var next := AfterEvents(r, id, order, events);
            && Dispatching(next, id) && next.table[id].stream.disp.Idle?
            && next.table[id].stream.subs == r.table[id].stream.subs
            && AfterEvents(next, id, order, more) == AfterEvents(r, id, order, events + more)
  {
    var s := r.table[id].stream;
    SentTwice(r.subs, order, events, more);
    assert s.taken + events + more == s.taken + (events + more);
  }

  /** An idle dispatcher can take the next event and deliver it to every subscriber. */
  lemma DeliversOne(r: Registry, id: nat, order: seq<nat>, event: Event)
    returns (trace: seq<Registry>, steps: seq<Step>)
    requires Safe(r) && Dispatching(r, id) && r.table[id].stream.disp.Idle?
    requires Distinct(order) && forall sub :: sub in order <==> sub in r.table[id].stream.subs
    ensures IsRunFrom(r, trace, steps) && trace[|steps|] == AfterEvents(r, id, order, [event])
  {
    assert RecordAt(r, id);
    hide Safe, RecordOk, SubscriptionOk;
    var pulled := Next(r, PullStep(id, event));
    var copied := Next(pulled, SnapshotStep(id, order));
    var more, done := SendRest(copied, id);
    var sent := more[|done|];
    RunMore(pulled, SnapshotStep(id, order), more, done);
    RunMore(r, PullStep(id, event), [pulled] + more, [SnapshotStep(id, order)] + done);
    var first := [r] + ([pulled] + more);
    var before := [PullStep(id, event)] + ([SnapshotStep(id, order)] + done);
    assert first[|before|] == sent;
    var last := Next(sent, RestStep(id));
    assert Stepped(sent, RestStep(id), last);
    assert IsRunFrom(sent, [sent, last], [RestStep(id)]);
    JoinRuns(r, first, before, [sent, last], [RestStep(id)]);
    trace, steps := first + [sent, last][1..], before + [RestStep(id)];
    assert last.table == r.table[id := last.table[id]];
  }

  /**
    Whatever has been delivered before, a dispatcher that is waiting can take any further events, one after
    the other, and deliver them all to each of its subscribers: nothing but the source, the subscribers'
    contexts and its own ends the loop.
   */
  lemma {:induction false} DeliversAll(r: Registry, id: nat, order: seq<nat>, events: seq<Event>)
    returns (trace: seq<Registry>, steps: seq<Step>)
    requires Reachable(r) && Dispatching(r, id) && r.table[id].stream.disp.Idle?
    requires Distinct(order) && forall sub :: sub in order <==> sub in r.table[id].stream.subs
    ensures IsRunFrom(r, trace, steps) && trace[|steps|] == AfterEvents(r, id, order, events)
    decreases |events|
  {
    hide Safe, Reachable, Stepped, AfterEvents;
    if events == [] {
      NoMoreEvents(r, id, order);
      trace, steps := [r], [];
    } else {
      ReachableIsSafe(r);
      var first, done := DeliversOne(r, id, order, events[0]);
      RunStaysReachable(r, first, done);
      AfterMoreEvents(r, id, order, [events[0]], events[1..]);
      var more, rest := DeliversAll(first[|done|], id, order, events[1..]);
      JoinRuns(r, first, done, more, rest);
      trace, steps := first + more[1..], done + rest;
      assert [events[0]] + events[1..] == events;
    }
  }

  lemma SentTwice(subs: seq<Subscription>, todo: seq<nat>, events: seq<Event>, more: seq<Event>)
    ensures SentTo(SentTo(subs, todo, events), todo, more) == SentTo(subs, todo, events + more)
  {
    forall i | 0 <= i < |subs| && i in todo
      ensures subs[i].sent + events + more == subs[i].sent + (events + more)
    {
    }
  }

  lemma RunStaysReachable(r: Registry, trace: seq<Registry>, steps: seq<Step>)
    requires Reachable(r) && IsRunFrom(r, trace, steps)
    ensures Reachable(trace[|steps|])
  {
    var all, done, offset := RunFromReachable(r, trace, steps);
    assert all[offset + |steps|] == trace[|steps|];
    assert IsRun(all, done) && all[|done|] == trace[|steps|];
  }
}
