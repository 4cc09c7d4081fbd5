# outage: a verified model

`outage` copies standard input to standard output until a condition given on its command line becomes true.
Conditions are signals, files, durations and datetimes, combined as an OR of ANDs.  This project models the parts
of the program that carry its guarantees and proves them for all inputs, runs and schedules.

* **The network of conditions** (`Conditions`, `SourceIds`, `Nodes`, `SharedStreams`, `NetworkSteps`).  A tree with
  shared leaves runs as one goroutine per composite, one forwarder per subscription and one dispatcher per shared
  stream.  `NetworkSteps` is a step system whose 21 kinds of step are the channel operations, critical sections and
  cancellations of the program, with channel capacities, cycle resets and deferred clean-up.  `NetworkInvariant`,
  `NodePreservation` and `StreamPreservation` hold its invariant; `NetworkSafety`, `NetworkVerdict`,
  `NetworkShutdown` and `NetworkTermination` derive that every interleaving refines the monotone boolean formula,
  shuts down cleanly and comes to rest; `NetworkProgress` does the latter for Continuous mode, both with the prices of
  `NetworkBudgets`.  `Loops` has the node loops as programs and the optimality of AND, `AndCycles` says which events
  those are, and `NetworkReplay` shows that the nodes of a running network run them.  `NetworkDelivery` shows that in
  Continuous mode nothing stays stuck on its way.  `NetworkStart` is about leaves that fire while the tree is built.
* **The registry** (`Registry`, `RegistrySafety`, `RunRegistry`, `TreeBuild`, `Locks`).  Subscribing, starting,
  dispatching, finishing and unsubscribing in any interleaving, also while streams are being given up; the class
  `RunRegistry` implements the critical sections, `TreeBuild` runs `runRoot` with it, `Locks` is the locking.
* **Deadlines** (`Calendar`, `LocalInstant`, `DeadlineParser`, `DeadlineTimer`).  The strict datetime parser, the
  search for the earliest instant that shows a wall time, and the capped timer loop.
* **From arguments to tree** (`Arguments`, `Separator`, `Numerals`, `Printing`, `CanonicalPlan`, `PlanOrder`,
  `CommandLine`, `ConditionTree`, `EndToEnd`).  Grammar, validation order, canonicalisation, the condition tree and
  what it means.
* **Lifecycle** (`Lifecycle`).  The disable-on-failure event log and the arbitration between copy and condition.

`Sequences` and `Options` hold what several of them need.

A composite is listed after its children and its index stands for its identity, so a tree with sharing is a
sequence.  Histories (`log`, `taken`, `sent`, `used`, `attempts`) record what went through channels and the event
descriptor; they influence nothing.  `Leaf` conditions fire and close as the environment likes.

Some notes on what the theorems say:

* The verdict theorems are about Once mode without cancellation by the caller; the safety theorems hold in both
  modes under any cancellation.  `NetworkTermination.CancellationLosesTheVerdict` shows that the premise is needed.
* The delivery theorems of Continuous mode are about states at rest whose root channel is empty: a caller that stops
  receiving blocks the dispatchers once the channels below are full.
* The statement on source IDs assumes trees without empty ANDs where it says that they are there and name leaves;
  `NetworkSafety.EmptyAndHasNoSources` shows what an empty AND does.
* The comment on `waitForCopyOrCondition` promises priority to copy results only with event output enabled; without
  it the select is unordered.  `Lifecycle.ChoiceMattersOnlyForFailedCopies` says exactly when that matters.
* A leaf latched at start-up is a zero duration, which fires and closes inside its run method.  The theorems on the
  built tree are therefore about runs that start with these leaves fired; they need no assumption about them.
* `file:` with an empty path is rejected by the syntax pass but would resolve; it is the only such member.
* A nil first timer makes the deadline condition emit at once, even early, while a nil re-armed timer closes it
  silently; the never-early theorem is about non-nil timers.

`dafny verify dfyconfig.toml` checks the project.

## Model

| member | source | states |
|---|---|---|
| `Conditions.HoldsMonotone` | internal/condition/and.go:34-127 | the formula of a condition tree (AND, OR and shared leaves) is monotone: once true, more fired leaves keep it true |
| `SourceIds.AppendUniqueIsUnion` | internal/condition/condition.go:340-354 | appending IDs loses none, invents none, repeats none and leaves the IDs that were there where they are |
| `SourceIds.AppendUniqueIsFirstUses` | internal/condition/condition.go:340-354 | appended to a list without repetitions, IDs stand in the order of first use: one stands before another iff its first place in the two lists, one after the other, is earlier |
| `Sequences.FirstUsesIsUnique` | internal/condition/condition.go:340-354 | only one list has the elements of another, once each, in the order of their first places |
| `SourceIds.AppendUniqueInto` | internal/condition/condition.go:340-354 | the nested loops compute exactly that union |
| `SourceIds.MergeIsUnion` | internal/condition/and.go:102-105 | the sources of a completed cycle are the duplicate-free union of the children's sources |
| `SourceIds.MergeIsFirstUses` | internal/condition/and.go:102-105 | and they stand in the order of first use over the first child's sources, then the second's, and so on |
| `Loops.AndLoop` | internal/condition/and.go:71-123 | the AND loop, with its flags, counter, reset and three early returns, emits what the message semantics used in the network says |
| `Loops.AllTrue` | internal/condition/and.go:151-158 | true iff every child is matched |
| `Loops.AnyTrue` | internal/condition/and.go:160-167 | true iff some child is closed |
| `Loops.MergeSources` | internal/condition/and.go:102-105 | the loop over the matched sources computes their merge |
| `Loops.AndIsOptimal` | internal/condition/and.go:71-123 | in Continuous mode, for every message sequence in which no child fires after its close, an AND can be credited with `count` disjoint consecutive blocks that hold an event of every child iff `count` is at most the number of events it emits: dropped repeats and early returns lose nothing |
| `AndCycles.AndEmitsItsCycles` | internal/condition/and.go:71-123 | for the same sequences, exactly which events those are: one per cycle, a cycle being the shortest run of messages in which every child fires, each with the AND's ID and the merged sources of every child's first event in the cycle |
| `AndCycles.CyclesAreUnique` | internal/condition/and.go:71-123 | that description fits only one list of events |
| `Loops.OrLoop` | internal/condition/or.go:62-80 | the OR loop emits what the message semantics used in the network says |
| `Loops.OrForwardsEverything` | internal/condition/or.go:62-80 | as long as not all children have closed, an OR in Continuous mode has forwarded every event in order, with the event's sources |
| `Loops.OnceIsTheFirst` | internal/condition/and.go:111-113 | in Once mode a node emits the first event of the Continuous run and nothing else |
| `NetworkReplay.NodesRunTheirLoops` | internal/condition/and.go:71-123 | in a running network, in either mode, what a composite has emitted or is emitting is what its loop as a program emits for the messages it consumed, in their order; once its context is done it is a prefix of that |
| `NetworkReplay.RunningAndIsOptimal` | internal/condition/and.go:71-123 | so in a running network in Continuous mode an AND whose context is not done has emitted the maximum number of disjoint consecutive blocks of what it consumed |
| `NetworkReplay.RunningAndEmitsItsCycles` | internal/condition/and.go:71-123 | and its events are those of the cycles in what it consumed |
| `NetworkDelivery.RunningOrForwards` | internal/condition/or.go:62-80 | in every state of every Continuous run an OR whose context is not done has forwarded every event it consumed, in order, and leaves its loop only when every child has closed |
| `NodePreservation.ReceiveKeeps` | internal/condition/and.go:77-100 | consuming one merged message keeps the network invariant (loop-head facts, message accounting, fan-out order) |
| `NodePreservation.EmitKeeps` | internal/condition/condition.go:316-323 | a successful emission and the reset of the cycle keep it |
| `NodePreservation.AbortKeeps` | internal/condition/and.go:120-121 | leaving the loop because the run context is done keeps it |
| `NodePreservation.CloseOutKeeps` | internal/condition/and.go:48-57 | closing the output after the last `forwardersDone` token keeps it |
| `StreamPreservation.TakeKeeps` | internal/condition/and.go:129-149 | a forwarder taking an event or the close from its subscription keeps it |
| `StreamPreservation.PutKeeps` | internal/condition/or.go:91-111 | a forwarder handing a message to `merged` keeps it |
| `StreamPreservation.SnapshotKeeps` | internal/condition/condition.go:250-255 | copying the subscriber set in any order keeps it |
| `StreamPreservation.SendKeeps` | internal/condition/condition.go:257-259 | sending the event to the next copied subscriber keeps it |
| `StreamPreservation.SkipKeeps` | internal/condition/condition.go:260-261 | skipping and unsubscribing a subscriber whose context is done keeps it |
| `StreamPreservation.FinishKeeps` | internal/condition/condition.go:272-282 | closing the remaining subscribers keeps it |
| `StreamPreservation.UnsubscribeKeeps` | internal/condition/condition.go:284-303 | giving up a subscription, the last one included, keeps it |
| `NetworkInvariant.InvInitially` | internal/condition/condition.go:368-374 | the state that `runRoot` leaves (`TreeBuild.BuildsTheNetwork`) satisfies the invariant |
| `NetworkStart.ReadyLeavesFire` | internal/condition/duration.go:53-67 | the state in which zero durations have put their event and closed during the build is reached by a run of the network |
| `NetworkStart.AsRun` | internal/condition/duration.go:53-67 | every run from that state is the end of a run of the network, so all theorems about runs apply to it |
| `NetworkStart.ReadyLeavesStayFired` | internal/condition/duration.go:53-67 | such leaves count as fired in every state |
| `NetworkSafety.InvStep` | internal/condition/condition.go:242-303 | every step of every goroutine, in either mode, keeps the invariant |
| `NetworkSafety.EveryRunIsSound` | internal/condition/and.go:34-127 | in every state of every run, in either mode and under any cancellation, every event emitted by any condition is justified: its formula is true of the leaves fired so far, and true by the leaves its source IDs name |
| `NetworkSafety.RootEmitsOnlyWhenTrue` | internal/condition/condition.go:325-366 | the root emits only if the formula is true of the leaves fired so far; the event carries the root's ID; its `SourceIDs` are duplicate-free and alone make the formula true; without empty ANDs they are non-empty and name only leaves that fired; if all conditions have IDs only an empty AND has none |
| `NetworkSafety.EmptyAndHasNoSources` | internal/condition/and.go:58-61 | the premise is needed: an empty AND as the root emits an event without sources and without a fired leaf |
| `NetworkVerdict.SilentIsFalse` | internal/condition/and.go:34-127 | at rest in Once mode, uncancelled, a condition that is still waiting or closed without emitting has a false formula |
| `NetworkVerdict.RestingVerdict` | internal/condition/condition.go:172-303 | whatever the interleaving, at rest in Once mode and uncancelled the root has emitted exactly once if the formula is true of the leaves that fired, and otherwise never; it is waiting or closed |
| `NetworkVerdict.VerdictIgnoresInterleaving` | internal/condition/condition.go:242-303 | two runs at rest with the same fired leaves agree on the verdict |
| `NetworkTermination.EveryRunEnds` | internal/condition/and.go:34-127 | in Once mode no run, with any cancellations, takes more than `conditions * (3 * edges + 31) + 7 * edges + 1` steps |
| `NetworkTermination.ComesToRest` | internal/condition/condition.go:242-303 | from every state of every Once run the program's own steps lead to rest without another leaf firing, so the verdict is always reached and no wait is unfinishable |
| `NetworkTermination.CancellationLosesTheVerdict` | internal/condition/and.go:120-121 | the verdict needs a caller that does not cancel: a run that is cancelled, fires its leaf and comes to rest with a true formula unanswered |
| `NetworkProgress.FiringsAreClose` | internal/condition/condition.go:242-303 | in Continuous mode, whatever is cancelled, the number of steps between two firings of leaves is bounded by the load of the state |
| `NetworkProgress.ComesToRest` | internal/condition/condition.go:242-303 | from every state of every Continuous run the program's own steps lead to rest, so the premise of `CleanShutdown` is always reached |
| `NetworkDelivery.DispatcherWaits` | internal/condition/condition.go:242-270 | in Continuous mode, at rest and with the root's channel received from, every dispatcher that was not told to stop is back at its select and its source's channel is empty |
| `NetworkDelivery.EverythingIsDelivered` | internal/condition/condition.go:242-270 | then every event a child has emitted for a parent that still runs has been sent to its subscription and consumed, and so has the child's close; subscription, forwarder and `merged` are empty |
| `NetworkDelivery.RestingOrHasForwardedAll` | internal/condition/or.go:62-80 | then an OR, still waiting or closed, has consumed all its children emitted and has emitted one event for each of theirs |
| `NetworkDelivery.RestingOrLosesNone` | internal/condition/or.go:62-80 | so as many events as all its children together have emitted |
| `NetworkDelivery.RestingAndIsOptimal` | internal/condition/and.go:71-123 | then an AND, still waiting or closed, has emitted as many events as there are disjoint consecutive blocks in any list of all its children's emissions that continues what it consumed; while it waits that is the consumed list itself |
| `NetworkDelivery.SomeContinuation` | internal/condition/and.go:71-123 | such a list always exists |
| `NetworkDelivery.LeavesFireOn` | internal/condition/condition.go:316-323 | in such a state every leaf that has not stopped can emit again |
| `NetworkDelivery.CatchesUp` | internal/condition/condition.go:242-303 | from every state of every Continuous run the program's own steps and the caller's receives lead to such a state, without another leaf firing |
| `NetworkShutdown.ChannelsAreUsedOnce` | internal/condition/condition.go:242-282 | no subscription is sent to after its close and none is closed twice |
| `NetworkShutdown.FanOutIsFaithful` | internal/condition/condition.go:242-282 | what a subscriber of the tree has been sent is a prefix of what its source emitted; if it was closed uncancelled it has all of it |
| `NetworkShutdown.ConsumedInOrder` | internal/condition/and.go:129-149 | what a node consumes from a child is a prefix of what that subscription was sent, the close last |
| `NetworkShutdown.AndLoopHead` | internal/condition/and.go:76-123 | at every AND loop head some child is unmatched, every closed child is matched, `remainingOpen` counts the open ones and is positive, and a message makes it return only as the close of an unmatched child |
| `NetworkShutdown.ClosedOutputIsClean` | internal/condition/and.go:47-57 | a composite closes its output only after all its forwarders have ended and none of its subscriptions is left in any stream |
| `NetworkShutdown.CleanShutdown` | internal/condition/condition.go:272-303 | once the root has closed or the caller has cancelled and steps have run out, every condition, dispatcher and forwarder has ended and no stream has a subscriber |
| `Locks.EveryRunIsConsistent` | internal/condition/condition.go:172-303 | with any number of goroutines calling the locking operations, each lock is held by the goroutine whose program says so, and locks are taken in the order registry, stream |
| `Locks.WaitingChainsAreShort` | internal/condition/condition.go:284-303 | no reachable state has a cycle of goroutines waiting for locks: a lock's holder can move, or waits for a stream lock whose holder can |
| `Locks.MutualExclusion` | internal/condition/condition.go:172-303 | no two goroutines ever hold the same lock |
| `Locks.GuardsAreHeld` | internal/condition/condition.go:172-303 | each operation holds, between taking its locks and giving them back, just the locks that guard what it touches |
| `RegistrySafety.SafeStep` | internal/condition/condition.go:172-303 | every critical section, send and finish of the registry keeps its invariant |
| `RegistrySafety.EveryRunIsSafe` | internal/condition/condition.go:172-303 | the registry invariant holds in every state of every interleaving of subscribe, start, dispatch, finish, unsubscribe and cancel |
| `RegistrySafety.DispatchedOnce` | internal/condition/condition.go:209-233 | each stream gets at most one dispatcher, and exactly one once the registry has started and the creator has handed it over; before `startPending` none, with nothing received, delivered or closed |
| `RegistrySafety.ChannelsAreUsedOnce` | internal/condition/condition.go:242-282 | also with late subscribers no channel is closed twice or sent to after its close |
| `RegistrySafety.MappedStreamsAreInUse` | internal/condition/condition.go:284-303 | a mapped stream is closed iff it has no subscriber, and was neither emptied nor cancelled |
| `RegistrySafety.NeverAttachedToGivenUpStream` | internal/condition/condition.go:172-202 | a new subscriber never joins a stream that its last unsubscribe has cancelled or is about to cancel |
| `RegistrySafety.FanOutIsContiguous` | internal/condition/condition.go:242-282 | a subscriber is sent a contiguous run of the source's events from the first one dispatched after it joined; when the stream has ended, one that was never unsubscribed has been closed once, after all of the events if the source was closed |
| `RegistrySafety.EverySubscriptionIsPlaced` | internal/condition/condition.go:272-303 | in every reachable registry each subscription is attached, or was removed by an unsubscribe, or was closed exactly once, and just one of these |
| `RegistrySafety.OnlyUnsubscribingRemoves` | internal/condition/condition.go:258-303 | only its own unsubscribe, or its dispatcher finding its context done, removes a subscription |
| `RegistrySafety.DeliversAll` | internal/condition/condition.go:242-270 | in every reachable registry a waiting dispatcher, whatever it has delivered before, can take any further events one after the other and send each to all of its subscribers |
| `RunRegistry.RunRegistry.constructor` | internal/condition/condition.go:165-170 | a new registry is empty |
| `RunRegistry.RunRegistry.Subscribe` | internal/condition/condition.go:172-207 | creates the stream iff the key is not mapped, attaches or closes the subscription, and keeps the invariant |
| `RunRegistry.RunRegistry.StartStream` | internal/condition/condition.go:209-218 | dispatches at once after the start, otherwise appends to the pending list |
| `RunRegistry.RunRegistry.StartPending` | internal/condition/condition.go:220-233 | starts every pending stream, only the first time |
| `RunRegistry.RunRegistry.Unsubscribe` | internal/condition/condition.go:284-303 | removes the subscription if it is there, so that it is removed or closed afterwards; reports emptied iff it was the last one of a stream that is not closed, which is then no longer mapped |
| `RunRegistry.RunRegistry.Finish` | internal/condition/condition.go:272-282 | marks the stream closed, closes every remaining subscriber exactly once and forgets it |
| `TreeBuild.RunCondition` | internal/condition/and.go:34-45 | `run` subscribes to every child, running those met for the first time, and keeps the build invariant |
| `TreeBuild.Follow` | internal/condition/condition.go:203-206 | the creator of a stream runs the child and then hands the stream to `startStream` |
| `TreeBuild.TreeIsBuilt` | internal/condition/condition.go:172-207 | after the build every distinct condition has been run exactly once, has one stream with one subscription per branch, and nothing was delivered |
| `TreeBuild.RunRoot` | internal/condition/condition.go:368-374 | builds the tree so, by a run of the registry's own steps, then starts exactly one dispatcher per stream |
| `TreeBuild.BranchesSeeTheFirstEvent` | internal/condition/condition.go:139-142 | in every continuation, later subscribers included, each branch has been sent a prefix of all events taken from its child's source; once the stream has ended a branch that never unsubscribed is closed, after all of the events if the source was closed |
| `TreeBuild.BuildsTheNetwork` | internal/condition/condition.go:368-374 | the streams and subscriptions left by `runRoot`, named by their branches, are those of the network's initial state |
| `Calendar.FieldsAreReal` | internal/cli/datetime.go:120-123 | the fields of any instant are a real date and time of day and map back to it (proleptic Gregorian calendar) |
| `Calendar.RealFieldsReadBack` | internal/cli/datetime.go:120-123 | a real date and time normalises to itself |
| `Calendar.NormaliseThenCompare` | internal/cli/datetime.go:83-86 | normalise-then-compare accepts exactly the real dates: second 60, 30 February or 29 February off leap years fail |
| `Calendar.WallInClosedForm` | internal/cli/datetime.go:82 | `time.Date` of fields with a month in range is the day number of the March-based closed form, for every year and month |
| `Calendar.FieldsInClosedForm` | internal/cli/datetime.go:120-123 | the fields of any instant are those whose closed-form day number and time of day make up the instant |
| `Calendar.AcceptedDates` | internal/cli/datetime.go:82-85 | the accepted days are those up to 28 in every month, 29 in February of leap years, up to 30 in four months and up to 31 in seven: written out, and again by the closed form |
| `LocalInstant.ConsiderOffset` | internal/cli/datetime.go:142-165 | the one candidate of an offset is taken iff it is representable, shows the wall time and is earlier; for 32-bit offsets it is representable |
| `LocalInstant.WindowIsWideEnough` | internal/cli/datetime.go:176-181 | every instant that shows the wall time lies in the scanned window |
| `LocalInstant.OnlyOccurrence` | internal/cli/datetime.go:130-138 | in a location with one unbounded interval the parsed instant is the only one |
| `LocalInstant.EarliestLocalInstant` | internal/cli/datetime.go:128-194 | for every piecewise-constant location with 32-bit offsets the result shows the wall time and no instant that shows it is earlier, so it depends on location and wall time only, not on which occurrence was parsed |
| `DeadlineParser.AllASCIIDigits` | internal/cli/datetime.go:100-110 | true iff the text is non-empty and all digits |
| `DeadlineParser.ParseASCIIDigits` | internal/cli/datetime.go:112-118 | the number the digits denote |
| `DeadlineParser.ReadPrintsBack` | internal/cli/datetime.go:53-70 | printing the fields read from a text of the local shape gives the text back |
| `DeadlineParser.PrintReadsBack` | internal/cli/datetime.go:53-70 | reading the printed fields of a real date in years 1 to 9999 gives them back |
| `DeadlineParser.ReadsInOrder` | internal/cli/datetime.go:53-80 | digit groups written as year-month-dayThour:minute, with :second or without, are read as the numbers of just those fields |
| `DeadlineParser.RealValues` | internal/cli/datetime.go:53-85 | a value has the shape and holds a real date in the supported years iff it is the text of one |
| `DeadlineParser.ReadLocal` | internal/cli/datetime.go:53-80 | the checks of length, separators and digits accept exactly the local shape and read its fields |
| `DeadlineParser.ParseZoned` | internal/cli/datetime.go:32-52 | offset digits and ranges are checked before the library parser, the year after it |
| `DeadlineParser.ZonedTexts` | internal/cli/datetime.go:32-41 | what reaches the library parser is 19 characters and `Z`, or 19 characters and a sign, two digits up to 23, a colon and two digits up to 59 |
| `DeadlineParser.ParseLocal` | internal/cli/datetime.go:53-88 | accepted iff shape, year and mapping back hold; the deadline is then the earliest instant that shows the value |
| `DeadlineParser.ParseAbsoluteDeadline` | internal/cli/datetime.go:30-88 | both forms: exactly when each is accepted, and the instant it denotes |
| `DeadlineParser.FixedAcceptsRealDates` | internal/cli/datetime.go:53-87 | with a fixed offset the accepted values are exactly the texts of real dates, each with its single instant |
| `DeadlineParser.ParseFixed` | internal/cli/datetime.go:53-87 | the parser returns an instant iff the value is the text of a real date with that instant |
| `DeadlineParser.InstantIsItsText` | internal/cli/cli.go:282 | the identity of a deadline whose UTC year is 0 to 9999 is the text of its date and time in UTC followed by `Z`; from year 1 on that text denotes its instant |
| `DeadlineTimer.StopTimerOnce` | internal/condition/datetime.go:67-74 | clears the held stop function before calling it, so a second call does nothing |
| `DeadlineTimer.EmitDeadline` | internal/condition/datetime.go:65-111 | for any wake-ups: the first n, each after a capped request and short of the deadline, request the next n timers, each for the wait from its own clock reading; then it waits, or the last timer is nil, or the next wake-up ends it, with at most one event that carries the timer's value; every supplied stop function is called exactly once on every way out, and only the newest timer is unstopped while it waits; with honest timers it emits at the first wake-up that shows the deadline reached, unless a cancellation, a closed timer or a failed re-arm comes first, and never early |
| `DeadlineTimer.RearmsAreBounded` | internal/condition/datetime.go:90-106 | the timer is re-armed at most ceil(distance / longest duration) - 1 times |
| `DeadlineTimer.CappedIsLongest` | internal/condition/datetime.go:101-102 | a wait is capped iff the distance exceeds the longest duration, and is then the longest one |
| `DeadlineTimer.RunDeadline` | internal/condition/datetime.go:31-63 | starts the loop iff both clock readings are before the deadline and the timer is not nil; otherwise sends at its third reading; a nil timer's stop function is still called |
| `DeadlineTimer.RunIsEarlyOnlyWithoutTimer` | internal/condition/datetime.go:38-58 | the event sent at once is early, by its own reading of the clock, iff that reading is before the deadline and the first timer was nil |
| `Arguments.ParseConditionArguments` | internal/cli/cli.go:174-226 | the flag-driven loop computes the scan, with the error of each branch |
| `Arguments.AcceptsTheGrammar` | internal/cli/cli.go:174-226 | accepted are exactly COND followed by `--or COND` or `--or=VALUE` (COND not starting with `-`, VALUE non-empty), and the texts are returned in order |
| `Arguments.RefusesWhatIsWrong` | internal/cli/cli.go:174-226 | each error is returned exactly for the arguments that are wrong in its way: none at all, `--or` first, an unexpected argument after COND and complete alternatives, or `--or` without its operand there |
| `Arguments.ParseEventsFDOptions` | internal/cli/cli.go:108-143 | the loop that strips the descriptor option, with its errors |
| `Arguments.StripsByTheGrammar` | internal/cli/cli.go:108-154 | what comes of any arguments, in both directions: no option, one option with a number from 3 on and no other, a second option, a missing value, one that is no number, or one below 3 |
| `Arguments.InsertedOption` | internal/cli/cli.go:108-143 | one option with a number from 3 on, inserted anywhere in arguments without one, is stripped and sets the descriptor to that number only |
| `Separator.JoinRestores` | internal/cli/cli.go:165-170 | joining the members of a split text restores the text |
| `Separator.SplitIsClean` | internal/cli/cli.go:165-170 | split members contain no separator, and none but the last ends in half of one |
| `Separator.SplitRestores` | internal/cli/cli.go:165-170 | splitting a joined non-empty list gives the list back iff no member contains ` && ` and no non-last member ends in ` &&` |
| `Separator.HalfSeparatorIsLost` | internal/cli/cli.go:165-170 | a concrete list, free of separators, that the round trip loses |
| `CanonicalPlan.Canonicalise` | internal/cli/cli.go:233-262 | the loops with their index map and seen set compute the canonical plan, or the error of the first member that does not resolve |
| `CanonicalPlan.PlanIsCanonical` | internal/cli/cli.go:233-262 | groups are in range, duplicate-free and non-empty for groups with members; condition IDs are pairwise distinct; indexes appear in first-use order and none is unused |
| `CanonicalPlan.MeaningKept` | internal/cli/cli.go:233-262 | for every valuation of condition specs the plan evaluates as the raw OR of ANDs |
| `PlanOrder.PlanListsFirstUses` | internal/cli/cli.go:233-262 | the conditions are the specs of all members at their first use, and the conditions of each group those of its own members at their first use among them |
| `CanonicalPlan.ResolvesTo` | internal/cli/cli.go:264-313 | a member resolves to a spec iff it is written for it: `signal:USR1` or `signal:SIGUSR1` for that signal and likewise for USR2, `file:` and the path, `duration:` and a text without a minus sign in front that parses, `datetime:` and a deadline that parses; with the canonical ID of each |
| `CanonicalPlan.FaultyMembers` | internal/cli/cli.go:319-379 | what each pass reports for which members |
| `CanonicalPlan.IDsAreInjective` | internal/cli/cli.go:315-317 | different identities have different IDs |
| `Printing.IntegersApart` | internal/cli/cli.go:270 | different durations are printed differently |
| `Printing.IntegerIsItsText` | internal/cli/cli.go:270 | a duration is printed as its only numeral without leading zeros, behind a minus sign if it is negative |
| `Printing.InstantsApart` | internal/cli/cli.go:282 | different instants are printed differently, for years of any length and sign |
| `CanonicalPlan.SameIdentitySameSpec` | internal/cli/cli.go:264-313 | equivalent spellings (equal identity) resolve to the same spec |
| `CanonicalPlan.FirstFaultIsFirst` | internal/cli/cli.go:85-98 | a pass reports an error iff it is that of a member before which there is none |
| `CommandLine.Validate` | internal/cli/cli.go:85-98 | the nested validation loops report the first fault over all groups |
| `CommandLine.Parse` | internal/cli/cli.go:76-106 | the whole parse: options, arguments, groups, syntax pass, capability pass, canonicalisation |
| `CommandLine.ValidatedResolves` | internal/cli/cli.go:319-356 | if signal support agrees with signal lookup, both passes accept a member iff it resolves and is not `file:` with an empty path |
| `CommandLine.ValidationIsEnough` | internal/cli/cli.go:85-103 | once both passes succeed canonicalisation cannot fail |
| `CommandLine.SyntaxComesFirst` | internal/cli/cli.go:72-98 | the error is the first syntax fault over all groups, or else the first capability fault; a plan comes out iff there is neither |
| `CommandLine.UsageErrorsInOrder` | internal/cli/cli.go:76-84 | errors of the descriptor option come before those of the remaining arguments, and both before any about a condition |
| `CommandLine.OptionChangesOnlyTheDescriptor` | internal/cli/cli.go:76-106 | inserting one valid descriptor option anywhere changes neither plan nor diagnostic, only the descriptor |
| `CommandLine.PlanMeansTheArguments` | internal/cli/cli.go:76-106 | an accepted argument list writes some groups by the grammar, and its plan is canonical and means what they mean |
| `ConditionTree.ConditionPlanSatisfied` | cmd/outage/main.go:276-290 | true iff some group has all its members satisfied |
| `ConditionTree.BuildConditionTree` | cmd/outage/main.go:307-360 | one leaf per condition (a zero duration if initially satisfied), an AND per group that is not a single member, an OR unless there is a single group |
| `ConditionTree.TreeKeepsMeaning` | cmd/outage/main.go:307-360 | for every plan with valid indexes and every set of true leaves the tree's formula equals the plan's satisfaction, collapses included |
| `ConditionTree.CanonicalTreeIsWellFormed` | cmd/outage/main.go:307-360 | the tree of a canonical plan leaves no condition idle and has its root last |
| `ConditionTree.LatchedHaveFired` | cmd/outage/main.go:325-331 | the zero durations that stand for initially satisfied conditions have fired in every state of every run of the tree |
| `ConditionTree.TreeDecidesThePlan` | cmd/outage/main.go:149-159 | running that tree once, uncancelled, to rest: the root has emitted once iff some group has all members initially satisfied or fired since |
| `ConditionTree.StartUpSatisfactionIsNotLost` | cmd/outage/main.go:149-164 | if the start-up check is positive, the running tree emits too |
| `EndToEnd.ArgumentsDecideTheVerdict` | cmd/outage/main.go:129-192 | from the written arguments to the verdict: the running tree fires once iff some written group has every member initially satisfied or fired since |
| `Lifecycle.EventEmitter.EmitRecord` | cmd/outage/events.go:62-90 | appends one write attempt unless disabled or closed; disables and warns on a failed rendering, a failed or a short write |
| `Lifecycle.EventEmitter.Close` | cmd/outage/events.go:92-103 | only sets the closed flag |
| `Lifecycle.EmitCutoffEvents` | cmd/outage/events.go:105-111 | emits both records in order, or nothing without an emitter |
| `Lifecycle.CutOffWritesAPrefix` | cmd/outage/events.go:62-111 | for every write outcome the complete records are a prefix of condition-triggered, stream-cutoff, nothing follows an incomplete write, and both are complete iff the emitter is not disabled |
| `Lifecycle.CutOffAttempts` | cmd/outage/events.go:71-111 | attempt by attempt: record i has its name and its own clock reading, is written as its rendering and a newline, and follows only a full write; the emitter stays enabled iff both are written in full |
| `Lifecycle.WaitForCopyOrCondition` | cmd/outage/main.go:198-237 | with an emitter a copy result present at the last look decides the exit code and suppresses the records; without one the middle select decides |
| `Lifecycle.HandleConditionEvent` | cmd/outage/main.go:239-257 | records are emitted iff no copy result is there and the condition stream gave a real event |
| `Lifecycle.RunWithClock` | cmd/outage/main.go:149-192 | exit code 0 or 1 and records of a whole run after its arguments were accepted, for every start, timeline and write outcome; 1 iff bytes are forwarded and a failed copy decides |
| `Lifecycle.RecordsAreOrderly` | cmd/outage/main.go:149-257 | over all runs: something is left behind iff the stream is cut off, spelled out by the start-up check, the poll, the recheck and the last look; the complete records are then a prefix of the two, both if the emitter is not disabled, with at most one warning |
| `Lifecycle.ChoiceMattersOnlyForFailedCopies` | cmd/outage/main.go:199-215 | without an emitter, for every timeline, both choices of the select give the same exit code iff it does not find a failed copy and a ready condition together |
| `Lifecycle.DisabledEventsLeaveItOpen` | cmd/outage/main.go:199-215 | an instance: a copy that failed before the first look gives exit code 1 or 0, by the select's choice |

## Left out

- Event times: `Event.Time`, `latestTime` and the clock of composite events carry no guarantee here.
- Nil children, which the constructors' run methods skip, and external `Condition` implementations, which are deliberately not shared and whose behaviour is unknown.
- The network theorems start where `runRoot` has called `startPending`. The caller's context is not cancelled during the build; a zero duration could then fail to fire.
- In both step systems the `cancel` call after an unsubscribe that emptied a stream is a later step of its own, and the cancel inside `finish` belongs to the finish step; this allows more runs than the program has.
- The registry model lets sources and contexts do anything and does not bound subscriber channels; capacities are in the network model. Stream and subscription objects are indexes into tables there, so pointers are not modelled.
- The slices of and.go and or.go are sequences, not arrays: they never escape their goroutine, and copying instead of sharing them is not visible.
- NetworkTermination.EveryRunEnds: is about Once mode; in Continuous mode leaves may fire for ever, and `NetworkProgress` bounds the steps between two firings.
- DeadlineTimer.EmitDeadline: records how often each stop function is called, not the order of a call relative to an emission.
- Separator.SplitRestores: is about texts as character sequences; the encoding of the arguments is not modelled.
- `time.Date`, `time.Parse`, `time.ParseDuration`, `strconv.Atoi`, JSON rendering and signal lookup are parameters; printing integers and UTC instants is modelled in `Printing`. Nothing is claimed about which instant `time.Date` finds in a zone with gaps, only that the code checks it.
- `CanonicalPlan` takes the datetime parser as a parameter; the parser itself is in `DeadlineParser`, on character sequences.
- The error branch of `buildConditionTree` for an unknown kind: the four kinds are a closed type here.
- Reading the clock and the file system for `conditionAlreadySatisfied`; its results are the `initial` flags.
- Signal, file and duration conditions beyond firing and closing, except that a zero duration fires and closes while the tree is built.
- Help, version, `--describe`, diagnostics on standard error, descriptor validation and duplication, SIGPIPE, `io.Copy` and the exit of the process: input and output.
- A warning is counted when it is raised; the goroutine that prints it may lose it.
