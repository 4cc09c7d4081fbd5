/** The registry as a mutable object, and the construction of a tree with it (`runRoot`). */
module RunRegistry {
  import opened Conditions
  import opened Sequences
  import opened SourceIds
  import opened SharedStreams
  import R = Registry
  import RegistrySafety

  /** A stream with these subscribers left. */
  function Left(record: R.Record, rest: set<nat>): R.Record {
    record.(stream := record.stream.(subs := rest))
  }

  lemma NothingClosed(subs: seq<R.Subscription>, all: set<nat>)
    ensures R.CloseAll(subs, all - all) == subs
  {
  }

  lemma CloseOne(subs: seq<R.Subscription>, closing: set<nat>, more: set<nat>, sub: nat)
    requires sub < |subs| && sub !in closing && forall x: nat :: x in more <==> x in closing || x == sub
    ensures var closed := R.CloseAll(subs, closing);
            && |closed| == |subs|
            && R.CloseAll(subs, more) == closed[sub := closed[sub].(closes := closed[sub].closes + 1)]
  {
    var closed, after := R.CloseAll(subs, closing), R.CloseAll(subs, more);
    forall i | 0 <= i < |subs|
      ensures after[i] == if i == sub then closed[i].(closes := closed[i].closes + 1) else closed[i]
    {
      assert i in more <==> i in closing || i == sub;
    }
  }

  lemma Fewer(all: set<nat>, rest: set<nat>, sub: nat)
    requires sub in rest && rest <= all
    ensures sub !in all - rest
    ensures forall x: nat :: x in all - (rest - {sub}) <==> x in all - rest || x == sub
  {
  }

  class RunRegistry {
    var streams: map<nat, nat>
    var pending: seq<nat>
    var started: bool
    var table: seq<R.Record>
    var subs: seq<R.Subscription>

    ghost function View(): R.Registry
      reads this
    {
      R.Registry(streams, pending, started, table, subs)
    }

    constructor ()
      ensures View() == R.EMPTY
    {
      streams, pending, started, table, subs := map[], [], false, [], [];
    }

    /** `start` tells the caller that it created the stream and has to run the condition. */
    method Subscribe(key: nat) returns (sub: nat, start: bool)
      requires R.Safe(View())
      modifies this
      ensures View() == R.Subscribe(old(View()), key) && R.Safe(View())
      ensures sub == |old(subs)| && start == !R.Mapped(old(View()), key)
    {
      RegistrySafety.SubscribeKeeps(View(), key);
      assert R.KeyAt(View(), key);
      sub, start := |subs|, false;
      if key !in streams {
        streams := streams[key := |table|];
        table := table + [R.Record(key, NewStream({}), 0, true, false)];
        start := true;
      }
      var id := streams[key];
      var record := table[id];
      subs := subs + [R.NewSubscription(record.stream, id)];
      if !record.stream.disp.Ended? {
        table := table[id := record.(stream := record.stream.(subs := record.stream.subs + {sub}))];
      }
    }

    method StartStream(id: nat)
      requires R.Safe(View()) && R.CanStart(View(), id)
      modifies this
      ensures View() == R.StartStream(old(View()), id) && R.Safe(View())
    {
      RegistrySafety.StartStreamKeeps(View(), id);
      table := table[id := table[id].(owed := false)];
      if started {
        table := table[id := table[id].(starts := table[id].starts + 1)];
        return;
      }
      pending := pending + [id];
    }

    method StartPending()
      requires R.Safe(View())
      modifies this
      ensures View() == R.StartPending(old(View())) && R.Safe(View())
    {
      RegistrySafety.StartPendingKeeps(View());
      if started {
        return;
      }
      started := true;
      var ids := pending;
      pending := [];
      var i := 0;
      while i < |ids|
        invariant 0 <= i <= |ids| && ids == old(pending)
        invariant streams == old(streams) && subs == old(subs) && started && pending == []
        invariant R.Launch(table, ids[i..]) == R.Launch(old(table), ids)
      {
        var id := ids[i];
        assert ids[i..][1..] == ids[i + 1..];
        if id < |table| {
          table := table[id := table[id].(starts := table[id].starts + 1)];
        }
        i := i + 1;
      }
    }

    /** Removes the subscription, if it is attached.  The caller cancels the stream's context when `empty`. */
    method Unsubscribe(sub: nat) returns (empty: bool)
      requires R.Safe(View()) && sub < |subs| && subs[sub].stream < |table|
      modifies this
      ensures View() == R.Unsubscribe(old(View()), sub) && R.Safe(View())
      ensures table[subs[sub].stream].stream.subs == old(table[subs[sub].stream].stream.subs) - {sub}
      ensures subs[sub].left || subs[sub].closes == 1
      ensures var s := old(table[subs[sub].stream].stream); empty <==> s.subs == {sub} && !s.disp.Ended?
      ensures empty ==> table[subs[sub].stream].stream.emptied && table[subs[sub].stream].key !in streams
    {
      RegistrySafety.UnsubscribeKeeps(View(), sub);
      var id := subs[sub].stream;
      var record := table[id];
      assert R.RecordAt(View(), id) && R.KeyAt(View(), record.key) && R.SubAt(View(), sub);
      if sub !in record.stream.subs {
        return false;
      }
      assert R.RecordAt(R.Unsubscribe(View(), sub), id);
      var rest := record.stream.subs - {sub};
      empty := rest == {} && !record.stream.disp.Ended?;
      table := table[id := record.(stream := record.stream.(subs := rest, emptied := record.stream.emptied || empty))];
      subs := subs[sub := subs[sub].(left := true)];
      if empty && record.key in streams && streams[record.key] == id {
        streams := streams - {record.key};
      }
    }

    /** `finish`: every remaining subscriber is closed and forgotten, one at a time. */
    method Finish(id: nat)
      requires R.Safe(View()) && id < |table| && table[id].starts > 0 && table[id].stream.disp.Ending?
      modifies this
      ensures View() == R.Finish(old(View()), id) && R.Safe(View())
      ensures table[id].stream.disp.Ended? && table[id].stream.subs == {}
      ensures forall sub :: sub in old(table[id].stream.subs) ==> sub < |subs| && subs[sub].closes == 1
    {
      RegistrySafety.FinishKeeps(View(), id);
      forall sub | sub in table[id].stream.subs
        ensures sub < |subs| && subs[sub].closes == 0
      {
        assert R.RecordAt(View(), id) && R.SubAt(View(), sub);
      }
      assert R.RecordAt(View(), id);
      table := table[id := table[id].(stream := table[id].stream.(disp := Ended))];
      CloseRemaining(id);
    }

    /** The loop of `finish`. */
    method CloseRemaining(id: nat)
      requires id < |table| && forall sub :: sub in table[id].stream.subs ==> sub < |subs|
      modifies `table, `subs
      ensures table == old(table)[id := Left(old(table[id]), {})]
      ensures subs == R.CloseAll(old(subs), old(table[id].stream.subs))
    {
      hide R.CloseAll;
      ghost var all, was := table[id].stream.subs, table[id];
      var rest := table[id].stream.subs;
      NothingClosed(subs, all);
      while rest != {}
        invariant rest <= all && |subs| == |old(subs)|
        invariant table == old(table)[id := Left(was, rest)]
        invariant subs == R.CloseAll(old(subs), all - rest)
        decreases |rest|
      {
        var sub :| sub in rest;
        Fewer(all, rest, sub);
        CloseOne(old(subs), all - rest, all - (rest - {sub}), sub);
        rest := rest - {sub};
        subs := subs[sub := subs[sub].(closes := subs[sub].closes + 1)];
        table := table[id := Left(table[id], rest)];
      }
      assert all - rest == all;
    }
  }
}
