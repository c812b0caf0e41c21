# g-micor: models and proofs of its hard parts

Four parts of the g-micor toolkit are modelled and proved here.

1. **Distributed single flight** (`redisx/singleFlight.go`). A cluster protocol: a get-or-set script in Redis elects one
   leader per key, a watchdog renews its lock, followers learn the result from a publish or from polling.
   `DistributedFlight.dfy` has the protocol as a transition system with one action per locked section, per Redis command
   and per hand-over between goroutines, for any number of nodes, keys and calls. `FlightInvariant.dfy` holds its
   inductive invariant, `FlightTheorems.dfy` the safety results, `FlightProgress.dfy` the absence of stuck callers and
   `FlightLiveness.dfy` that every run ends with everyone returned, `FlightClean.dfy` what is behind a spurious error,
   `FlightQuiet.dfy` exactly when a newly elected flight is safe from it, `FlightMessages.dfy` what a publish does,
   `FlightFill.dfy` what happens if the item of a call is seen between its emptying and its filling,
   `FlightLease.dfy` the clock side, `CacheItem.dfy` the packing of outcomes. `FlightObjects.dfy` has the imperative
   objects (call, Redis commands, the node's map); each method is proved against the functions the transition system
   is made of.
2. **Service registry** (`discover/server.go`). `RegistryTables.dfy` specifies every locked section on plain lists and
   proves what each keeps; `Slices.dfy` has Go slices over real backing arrays, changed in place, and the loops over them;
   `RegistryService.dfy` the service object. `SliceHeap.dfy` is the same slice memory as values, changed by the very
   functions on backing arrays that the methods of `Slices.dfy` are proved against. `RegistryRuns.dfy` has all
   interleavings of registrations, evictions, discoveries, notification loops and failing sends over it,
   `RegistryHeaders.dfy` what each step leaves of a slice header read earlier, `RegistryNotify.dfy` who is notified,
   `RegistryLoss.dfy` exactly who is not, with a run in `RegistryLostRun.dfy`, and `RegistryDiscover.dfy` what Discover
   answers.
3. **SQL builder and row mapper** (`pgsql`). `Placeholders.dfy` has printed numbers, statement text as characters and
   placeholders, and the meaning of a statement with its arguments. On it stand `WhereClauses.dfy`, `UpdateClauses.dfy`,
   `UpdateStatements.dfy`, `TableInserts.dfy` and `Paging.dfy`. `Precedence.dfy` says when joining conditions with a bare
   AND is their conjunction. `FieldCodec.dfy` and `RowScan.dfy` have the write and read paths of fields and rows.
4. **Local single flight and resource manager** (`syncx`). `LocalFlight.dfy` is the transition system with its invariant
   and "create once", `LocalOutcome.dfy` what every caller returns, `LocalInject.dfy` what Inject is for,
   `LocalLiveness.dfy` has that every run ends with everyone returned (with `Sums.dfy`, which `FlightLiveness.dfy`
   shares), and `LocalFlightObjects.dfy` the imperative objects.

Strings are sequences of characters where the code looks at bytes; the scanners only compare with `$` and the digits.
Integers are unbounded except where their width is written out (`FieldCodec`).

## What the code does against expectations

Each of these is a proved statement, with the exact condition.

- A follower sees success although the leader failed exactly when the first `*ErrorCode` in the chain of the leader's
  error is nil, or there is none and the message is empty; an `ErrorCode` held by value is flattened to its text
  (`CacheItems.OutcomeSurvives`, `CacheItems.OutcomeDelivered`, `CacheItems.BusinessErrorSurvives`).
- A waiter can be handed a transport error although every Redis command succeeded: a publish is sent after the lock is
  deleted and can reach a newer call of the same key (`FlightClean.SpuriousErrorPossible`). A flight is safe from this
  exactly if no publish of its key is on its way or still to be sent when its leader wins the election
  (`FlightQuiet.CleanElection`).
- A publish handler empties a call's item before it fills it, through a pointer it shares with the leader. A waiter in
  between sees a zero value without error, and a handler that emptied before the leader assigned its item writes its
  error into that item, which is then stored for every node although `fn` succeeded; exactly when is
  `FlightFill.EmptyExactlyBetween` and `FlightFill.StoredUnlessSpoilt`, with a run in `FlightFill.ResultCanBeSpoilt`.
- The lock is set without a time to live until the watchdog's first renewal. No leader loses its lock if and only if SET
  and DEL together take less than 17 s after `fn` returns (`FlightLease.LeaseOutlivesLeader`).
- A registration that drops a service leaves the address in the dropped service's list, and eviction then leaves it there
  (`RegistryTables.RegisterKeepsInverse`, `RegistryTables.EvictionComplete`).
- A notification loop walks a backing array that removals shift under it. Its own clean-up of a subscriber without a
  client, or a failed send, can take the next subscriber from it, who is then never told: exactly the steps that do this
  are named (`RegistryLoss.SentUnlessLost`, `RegistryLoss.CleanUpSkipsNext`, `RegistryLostRun.NotEverySubscriberIsTold`).
- A condition with an OR outside parentheses changes the meaning of every chain of two or more conditions that share no
  comparison (`Precedence.JoinIsConjunction`, and for shared ones `Precedence.JoinIsConjunctionExactly`).
- An expression with several `$1` markers is numbered wrongly as soon as a number before the last starts with the digit 1;
  as the first assignment of an UPDATE it always is (`UpdateClauses.ExpressionNumbered`,
  `UpdateClauses.FirstExpressionFails`).
- Of the two batches of InsertMany, the first stays inserted when the second fails (`TableInserts.Table.FailsHalfway`).
- A pointer to an invalid `sql.NullString` does not come back, and as a field of its own an invalid one comes back only if
  it is the zero value; unsigned values above 2^63 - 1 cannot be written, and no `*[]byte` comes back
  (`FieldCodec.NullValues`, `FieldCodec.WithoutMethods`).

## Model

| member | source | states |
|---|---|---|
| `CacheItems.OutcomeSurvives` | redisx/singleFlight.go:281-303 | packing with newCacheItem and unpacking with Result always keeps the data, and keeps whether there was an error if and only if the first ErrorCode pointer of its chain is not nil, or there is none and the text is not empty |
| `CacheItems.OutcomeDelivered` | redisx/singleFlight.go:281-303 | what another caller gets, read off the error and its chain alone and leaving nothing open: the data; no error for none; the business error of the first pointer, none if it is nil; without a pointer a plain error with exactly the message, none if that is empty |
| `CacheItems.MessageSurvives` | redisx/singleFlight.go:281-303 | an error without an ErrorCode pointer in its chain arrives as exactly its message, whether plain, an ErrorCode by value, wrapping one error or joining several |
| `CacheItems.BusinessErrorSurvives` | redisx/singleFlight.go:281-303 | a waiter gets business error c if and only if the first ErrorCode pointer of the chain, depth first through wrapped and joined errors, points to c; one held by value arrives as plain text |
| `CacheItems.AsFindsFirst` | redisx/singleFlight.go:293-303 | the recursive search for a target in an error finds what the first pointer of its flattened chain holds, nil included, and nothing if there is none |
| `FlightInvariant.KeepElect` | redisx/singleFlight.go:160-184 | the election under the node's lock (script, new call, map entry) keeps the global invariant |
| `FlightInvariant.KeepUnlock` | redisx/singleFlight.go:272 | deleting the lock keeps the global invariant tying lock, phase, results, call maps and call objects together |
| `FlightInvariant.KeepFetch` | redisx/singleFlight.go:93-118 | a publish handler filling a call, with the result or the transport error, keeps the invariant |
| `FlightInvariant.KeepInv` | redisx/singleFlight.go:93-280 | each of the 20 kinds of step keeps the invariant |
| `FlightInvariant.RunsKeepInv` | redisx/singleFlight.go:93-280 | so does every run |
| `FlightTheorems.MutualExclusion` | redisx/singleFlight.go:120-128 | in every reachable state of any number of nodes at most one Do per key is between winning the script and its DEL, and the lock holds that Do's id |
| `FlightTheorems.LockHasHolder` | redisx/singleFlight.go:159-184 | a lock key exists if and only if some Do is in charge of it |
| `FlightTheorems.OnlyOwnLockTouched` | redisx/singleFlight.go:231-272 | the unconditional DEL and every EXPIRE of the watchdog only meet the leader's own lock; no renewal of a successor's lock ever happened |
| `FlightTheorems.NoOrphan` | redisx/singleFlight.go:186-278 | a call still blocked belongs to an elected flight whose leader has yet to store its result or whose result is stored, and a blocked follower's poller is alive |
| `FlightTheorems.StoredBeforeUnlocked` | redisx/singleFlight.go:267-272 | once a flight's lock is gone, its result is stored |
| `FlightTheorems.SingleWakeUp` | redisx/singleFlight.go:43-48 | whoever calls done, the wait group goes from 1 to 0 once, the channel closes once, together, and a released call has an item |
| `FlightTheorems.OnlyInserterRemoves` | redisx/singleFlight.go:183-276 | a call map entry is never overwritten, and only the Do that inserted it removes it |
| `FlightTheorems.RunFixed` | redisx/singleFlight.go:246-262 | what a flight's fn produced never changes |
| `FlightTheorems.FlightFixed` | redisx/singleFlight.go:246-280 | over every continuation, a flight's produced item, its owner and its leader's outcome stay fixed |
| `FlightTheorems.Agreement` | redisx/singleFlight.go:102-117 | once fn of leader p returned, in every continuation every Do served through a call of that flight returns p's outcome if it is p, and otherwise what OutcomeDelivered says of it (data, business error or message) or the transport error, spelled out; never another flight's value |
| `FlightProgress.CloserToRelease` | redisx/singleFlight.go:186-265 | for every blocked call some step of its leader or poller is possible that brings it strictly closer to its release |
| `FlightProgress.FreeLock` | redisx/singleFlight.go:160-184 | a node's lock held across the election script is given up by its holder's next step, which disturbs no Do past its election |
| `FlightProgress.LeaderReturns` | redisx/singleFlight.go:246-279 | a leader at any stage can be brought to its return |
| `FlightProgress.FollowerReturns` | redisx/singleFlight.go:186-223 | so can a follower, whatever messages are lost |
| `FlightProgress.JoinerReturns` | redisx/singleFlight.go:161-166 | so can a Do that joined a local call |
| `FlightProgress.EveryDoCanReturn` | redisx/singleFlight.go:159-280 | from every reachable state every started Do can be brought to its return: nobody is stuck |
| `FlightMessages.PublishReachesAll` | redisx/singleFlight.go:277-279 | the publish puts the key behind what each subscribed node has yet to handle |
| `FlightMessages.MessageReleases` | redisx/singleFlight.go:93-118 | in every reachable state a node can handle a message for a registered call at once: the call is then released, shows the stored result or the transport error, and no other call is touched |
| `FlightLiveness.RunsEnd` | redisx/singleFlight.go:93-280 | a run without new calls and renewals takes no more steps than a count of what is left to do, over phases, pollers, messages and handlers |
| `FlightLiveness.EveryRunReturns` | redisx/singleFlight.go:93-280 | so every such run is finite, and if no further step of it is possible every Do that has started, on any node, has returned |
| `FlightClean.ReachableExplained` | redisx/singleFlight.go:93-118 | in every reachable state an item or return that is not the flight's own has another, finished flight of the same key behind it |
| `FlightClean.NoSpuriousErrorInOneFlight` | redisx/singleFlight.go:102-117 | while only one leader was ever elected for a key, nobody on it gets anything but the flight's result |
| `FlightClean.SpuriousErrorPossible` | redisx/singleFlight.go:272-278 | with two leaders a run exists in which a waiter returned the transport error although every Redis command succeeded |
| `FlightQuiet.CleanElection` | redisx/singleFlight.go:93-278 | for every flight, also the second and later ones of a key: in all continuations everyone served by it gets its result if and only if, when its leader wins the election, no message for the key is on its way and no earlier leader of the key is between DEL and publish; otherwise a continuation hands a waiter the transport error |
| `FlightFill.AllThatIsSeen` | redisx/singleFlight.go:93-118 | with emptying and filling as separate steps through the call's pointer, a waiter sees the flight's item, the transport error, the item with that error written into it, or an empty item; what is stored is the item, or that with the error |
| `FlightFill.EmptyExactlyBetween` | redisx/singleFlight.go:104-117 | the call points to an empty item if and only if a handler or poller has emptied it and since then nobody filled it and the leader assigned none; one of them is then between emptying and filling |
| `FlightFill.AtOnceIsRight` | redisx/singleFlight.go:104-117 | from a new leader's or follower's call on: if nothing comes between emptying and filling, waiters see the item or the transport error and the item is stored |
| `FlightFill.OneStepFetch` | redisx/singleFlight.go:102-117 | emptying and filling at once puts into the call what the protocol's one-step fetch puts there |
| `FlightFill.StoredUnlessSpoilt` | redisx/singleFlight.go:260-270 | the result a leader stores is its own item if and only if no handler that found no result fills the very item the leader has assigned, before it is marshalled |
| `FlightFill.EmptyCanBeSeen` | redisx/singleFlight.go:104-117 | a run of a leader's call in which a waiter sees the empty item |
| `FlightFill.ResultCanBeSpoilt` | redisx/singleFlight.go:104-108 | a run in which the stored result carries the handler's error |
| `FlightFill.MixtureCanBeSeen` | redisx/singleFlight.go:192-211 | a run of a follower's call in which handler and poller fill the same item and a waiter sees the mixture |
| `FlightLease.LeaseOutlivesLeader` | redisx/singleFlight.go:229-272 | with ticks every 7 s and 24 s granted, no run loses the lock before DEL if and only if SET plus DEL take less than 17 s after fn |
| `FlightLease.SomePollMeetsResult` | redisx/singleFlight.go:188-216 | every follower has a poll inside the 20 s the result lives if and only if SET and DEL are less than 18 s apart |
| `FlightLease.QuickLeaderReachesFollowers` | redisx/singleFlight.go:188-272 | the first condition implies the second |
| `FlightObjects.CallObject.Release` | redisx/singleFlight.go:43-48 | done behaves as the protocol's step: first call releases and closes, later calls change nothing |
| `FlightObjects.Redis.GetOrSet` | redisx/singleFlight.go:120-158 | the script returns the value now stored, stores only on an absent key, and says which |
| `FlightObjects.DistributedSingleFlight.Elect` | redisx/singleFlight.go:167-184 | election and insertion change lock table and call map exactly as the protocol's step |
| `FlightObjects.DistributedSingleFlight.FinishLeading` | redisx/singleFlight.go:260-276 | the leader's tail fills and releases the call, stores the item under its id, deletes the lock and its entry |
| `FlightObjects.DistributedSingleFlight.PollTick` | redisx/singleFlight.go:192-211 | a tick stops the poller if and only if the result is there, and then fills and releases the call |
| `FlightObjects.DistributedSingleFlight.Complete` | redisx/singleFlight.go:93-118 | a message fills and releases the key's call if there is one, and touches nothing else |
| `FlightObjects.DistributedSingleFlight.DoAlone` | redisx/singleFlight.go:159-280 | an uncontended Do returns fn's own outcome, leaves the result stored, no lock and no entry |
| `FlightObjects.TailIsFiveSteps` | redisx/singleFlight.go:262-276 | the leader's tail as one method is the protocol's five steps one after the other |
| `LocalFlight.KeepInv` | syncx/singleflight.go:25-70 | every locked section of the single flight and the resource manager keeps the invariant |
| `LocalFlight.OneRunnerPerKey` | syncx/singleflight.go:45-70 | at most one fn per key runs through a registered call, and the map holds that call, so delete removes only the deleter's own |
| `LocalFlight.JoinersShareResult` | syncx/singleflight.go:25-33 | every caller returns exactly what the executor it joined wrote and returned itself |
| `LocalFlight.ReleasedOnceAfterWrite` | syncx/singleflight.go:49-69 | the wait group is released once and only after (val, err) is written |
| `LocalFlight.CreateOnce` | syncx/resourcemanager.go:24-50 | without Inject on the key at most one create succeeds, its resource is the stored one, and every successful caller gets it |
| `LocalFlight.ResourceChangesOnlyByInject` | syncx/resourcemanager.go:39-57 | a stored resource never goes away, and changes in a step if and only if the step injects another one, or stores another one that a create made before Inject filled the key |
| `LocalFlight.FailureStoresNothing` | syncx/resourcemanager.go:34-37 | a failed create changes no resource, on any key; on a key never given to Inject nothing is stored then |
| `LocalOutcome.EveryoneGetsIt` | syncx/resourcemanager.go:24-50 | in every continuation every caller served through a call returns just what its fn came to: the resource found, the one created, or create's own error |
| `LocalInject.InjectedIsReturned` | syncx/resourcemanager.go:24-57 | after Inject the resource is the injected one; while nothing else is injected or stored on the key, every GetResource that starts later returns it, unless it joins a call that was under way |
| `LocalLiveness.EveryRunReturns` | syncx/singleflight.go:25-70 | a run without new calls and injections is finite, and if no further step of it is possible every caller has returned |
| `LocalFlightObjects.SingleFlight.CreateCall` | syncx/singleflight.go:45-59 | returns the registered call or registers a fresh one, and says which |
| `LocalFlightObjects.SingleFlight.FinishCall` | syncx/singleflight.go:61-70 | writes the outcome, removes the call, releases the wait group |
| `LocalFlightObjects.ResourceManager.Produce` | syncx/resourcemanager.go:26-44 | the closure returns a stored resource unchanged, else stores and returns what create made, else stores nothing |
| `LocalFlightObjects.ResourceManager.GetResource` | syncx/resourcemanager.go:24-50 | an uncontended call returns what the closure produced |
| `RegistryTables.RemoveFirstIsWithout` | discover/server.go:379-385 | cutting out the first occurrence from a list without duplicates leaves exactly the others in order |
| `RegistryTables.RegisteredConsistent` | discover/server.go:115-138 | Register keeps: no duplicates, no empty service entry, clients and recorded names for the same addresses, every recorded name lists its address |
| `RegistryTables.SubscribedConsistent` | discover/server.go:183-200 | so does Discover's subscription |
| `RegistryTables.UnsubscribedConsistent` | discover/server.go:288-301 | so does removeSubscriber |
| `RegistryTables.EvictedConsistent` | discover/server.go:365-396 | so does handleUnhealthyService |
| `RegistryTables.RegisteredAdds` | discover/server.go:115-138 | Register puts the address at the end of each of its services' lists, once, records these services and the client, and changes nothing else |
| `RegistryTables.SubscribedAdds` | discover/server.go:183-200 | a subscription puts the address at the end of one list, once, and changes nothing else |
| `RegistryTables.UnsubscribedRemoves` | discover/server.go:288-301 | removeSubscriber takes the address out of one list and changes nothing else |
| `RegistryTables.EvictedForgets` | discover/server.go:365-396 | eviction takes the address out of exactly the lists recorded under it, keeps the others in order, drops lists left empty, forgets the address, and touches no subscriber |
| `RegistryTables.CutFromStep` | discover/server.go:377-391 | the rounds of the eviction loop add up to one cut from all recorded names, also with names listed twice |
| `RegistryTables.RegisterKeepsInverse` | discover/server.go:118-135 | name-to-address and address-to-name stay inverse if and only if the registration covers the address's earlier services |
| `RegistryTables.EvictKeepsInverse` | discover/server.go:365-396 | eviction keeps them inverse |
| `RegistryTables.EvictionComplete` | discover/server.go:367-394 | eviction leaves the address in no list, every other address in place and order, if and only if every list holding it is recorded under it |
| `RegistryTables.HistoryConsistent` | discover/server.go:115-396 | all of this over every history of sections; with covering registrations the two maps are inverse at the end |
| `Slices.Append` | discover/server.go:130 | Go's append, on the whole backing arrays: with room the next slot is written in place, else a new array holds the elements and the old one is untouched |
| `Slices.CutOut` | discover/server.go:296 | append(xs[:i], xs[i+1:]...) in place removes element i from what the owner shows and shifts the backing array |
| `Slices.Find` | discover/server.go:123-128 | the search loop finds the first occurrence or none |
| `Slices.ListTable.InsertAll` | discover/server.go:119-132 | Register's loop adds the address to every listed service once |
| `Slices.ListTable.RemoveAll` | discover/server.go:377-391 | the eviction loop cuts the address from every recorded service |
| `RegistryService.Service.Register` | discover/server.go:115-138 | the locked section on the four maps refines the specification |
| `RegistryService.Service.Subscribe` | discover/server.go:183-200 | likewise Discover's write-locked section |
| `RegistryService.Service.RemoveSubscriber` | discover/server.go:288-301 | likewise removeSubscriber |
| `RegistryService.Service.Evict` | discover/server.go:365-396 | likewise handleUnhealthyService |
| `SliceHeap.InsertMeans` | discover/server.go:120-131 | insertion into slice memory shows the list with the address once and leaves every other list alone |
| `SliceHeap.RemoveMeans` | discover/server.go:292-300 | in-place removal shows the list without its first occurrence and leaves every other list alone |
| `SliceHeap.AppendKeepsSnapshot` | discover/server.go:130 | appending to any list leaves what an earlier slice header shows unchanged |
| `SliceHeap.CutElsewhereKeepsSnapshot` | discover/server.go:382 | so does cutting in another list |
| `SliceHeap.CutUnderSnapshot` | discover/server.go:382 | cutting in the list itself changes what the earlier header shows if and only if the element was not the last; then the tail has moved and its last element shows twice |
| `SliceHeap.InsertKeepsAhead` | discover/server.go:183-197 | an append takes a subscriber from a running loop if and only if it overwrites, in place, the last stale copy the loop would still have met |
| `SliceHeap.RemoveKeepsAhead` | discover/server.go:260-296 | the removal of another subscriber takes one from a running loop if and only if it pulls it below the loop's position while it is next and no copy stays at or behind the list's end |
| `SliceHeap.SkipLoses` | discover/server.go:260-296 | then, for any earlier header of the array, the loop has no copy of it to visit and no later shift can bring one |
| `SliceHeap.OverwriteLoses` | discover/server.go:183-197 | the same for the overwritten copy |
| `RegistryRuns.StepShows` | discover/server.go:93-396 | every step keeps the stored slices equal to the specified lists, and these consistent |
| `RegistryRuns.KeepInv` | discover/server.go:93-396 | every step keeps the invariant, with loops and discoveries holding old headers |
| `RegistryRuns.AlwaysConsistent` | discover/server.go:115-396 | in every interleaving the shared slices show exactly the committed lists and these are consistent |
| `RegistryRuns.InterleavingIsHistory` | discover/server.go:93-396 | every interleaving ends with the registry that its sections make one after the other; with covering registrations the name and address tables are then inverse |
| `RegistryHeaders.StepShowsThrough` | discover/server.go:115-396 | a step changes what an earlier header of a server list shows if and only if it evicts a server in view that is not the list's last, or registers one into a slot in view that evictions have freed |
| `RegistryNotify.StepKeepsAhead` | discover/server.go:93-396 | for every kind of step: a subscriber it does not unsubscribe stays in a running loop's reach if and only if the step is not one of these two |
| `RegistryNotify.NoLostNotification` | discover/server.go:141-148 | in every interleaving, whoever is subscribed to a changed name when the change's loop reads the list, is not unsubscribed and not taken from the loop, has been sent that change when the loop is through |
| `RegistryNotify.EveryoneIsTold` | discover/server.go:141-148 | if nobody is removed from a name's subscribers after a change of it commits, everyone subscribed at that moment has been sent the change when its loop is through |
| `RegistryLoss.SentUnlessLost` | discover/server.go:245-301 | in every interleaving, someone subscribed at the loop's last reading of the name's list and never unsubscribed has been sent the change, once the loop is through, if and only if no step took it from the loop |
| `RegistryLoss.LostForGood` | discover/server.go:245-301 | after such a step no continuation in which it stays subscribed ever sends it that change |
| `RegistryLoss.CleanUpSkipsNext` | discover/server.go:266-271 | the loop's own clean-up below its position loses the next subscriber if and only if no copy of it is left at or behind the list's end, which for a header as long as the list means unless it is the last |
| `RegistryLostRun.NotEverySubscriberIsTold` | discover/server.go:245-301 | a run from the empty registry exists in which a subscriber with a client, subscribed throughout, is not sent the change |
| `RegistryLostRun.SomeoneIsNotTold` | discover/server.go:245-301 | there are such addresses, so there is such a run |
| `RegistryDiscover.DiscoverAnswersUnlessSeen` | discover/server.go:171-207 | Discover answers exactly the list at the moment it read the header, if no step until its answer shows through that header |
| `RegistryDiscover.DiscoverAnswersListRead` | discover/server.go:171-207 | so it does in every interleaving without eviction of a server of that name |
| `RegistryDiscover.AnswersOnlyServers` | discover/server.go:171-207 | in every interleaving, evictions included, an address it answers was in the list read or was registered for the name since |
| `RegistryDiscover.DiscoverCovers` | discover/server.go:115-207 | answer and notifications together miss nothing, evictions included: every server of the name is in the answer or was registered since by a call whose loop, once through, has told the caller, provided no such loop reads the subscribers between Discover's two sections and the caller is then neither unsubscribed nor taken from one |
| `RegistryDiscover.DiscoverMissesNothing` | discover/server.go:115-207 | so it is if nobody is removed from the name's subscribers after the read and no loop started since reads them before the caller is subscribed |
| `Placeholders.ParseDigits` | pgsql/where.go:68 | printed numbers read back as themselves |
| `Placeholders.TokensOfPrint` | pgsql/where.go:59-76 | texts and proper token lists are in one-to-one correspondence under the code's scanning rule |
| `Placeholders.BindNumber` | pgsql/where.go:55-77 | a text numbered from the position of its first argument means, with all arguments, what it means with its own |
| `WhereClauses.Retokenised` | pgsql/where.go:55-77 | a renumbered condition has the original's tokens, numbered; renumbering again from the same start is the identity |
| `WhereClauses.RetokenisedAt` | pgsql/where.go:55-77 | place by place: literal characters stay, the i-th placeholder is startIdx + i |
| `WhereClauses.NumberedWithoutGaps` | pgsql/where.go:55-82 | over all conditions joined, placeholders are startIdx, startIdx + 1, ... without gaps |
| `WhereClauses.ConditionsTwice` | pgsql/where.go:55-77 | renumbering all conditions again changes nothing |
| `WhereClauses.ConditionsMean` | pgsql/where.go:55-82 | the joined conditions with the statement's arguments mean every condition with its own arguments, with " AND " between them |
| `WhereClauses.ClauseMeans` | pgsql/where.go:50-95 | the same for the whole clause: " WHERE ", then " ORDER BY ", " LIMIT " and " OFFSET " with their numbers as far as set, all written out |
| `WhereClauses.Reindex` | pgsql/where.go:58-76 | the byte scanner writes the condition renumbered from startIdx and moves the counter by its placeholders |
| `WhereClauses.BuildSQL` | pgsql/where.go:50-95 | buildSQL returns the clause, written out with its words, and argument i of condition k right behind those of the conditions before; nothing for a nil builder or without conditions, order and limit |
| `WhereClauses.EndRead` | pgsql/where.go:84-92 | a server that takes OFFSET and then LIMIT off the end of a statement by their words reads back the limit, the offset and what stands before |
| `UpdateClauses.ReplaceTokens` | pgsql/update.go:93 | replacing the first "$1" in a text replaces the leading 1 of the first placeholder whose digits start with 1 |
| `UpdateClauses.ExpressionNumbered` | pgsql/update.go:91-96 | an expression with one argument per `$1` is numbered idx, idx + 1, ... if and only if no number before the last starts with the digit 1 |
| `UpdateClauses.FirstExpressionFails` | pgsql/update.go:91-96 | starting at 1, no expression with two or more arguments is |
| `UpdateClauses.EntryNumbered` | pgsql/update.go:85-99 | one SET entry is its written form numbered from idx, with as many placeholders as arguments |
| `UpdateClauses.SetListMeans` | pgsql/update.go:79-102 | the SET list with the statement's arguments means, separated by ", ", column = first argument for every assignment, and every expression with its own arguments in order |
| `UpdateClauses.UpdateBuilder.SetExpr` | pgsql/update.go:52-69 | panics, changing nothing, if and only if an argument cannot be converted; else appends the expression with every converted argument in order |
| `UpdateClauses.Resolve` | pgsql/update.go:91-96 | the inner loop makes one first-occurrence replacement per argument |
| `UpdateClauses.BuildSet` | pgsql/update.go:72-103 | buildSQL returns the clause, argument i of entry k right behind those of the entries before, and the index exactly one past the last |
| `UpdateStatements.Update` | pgsql/table_operation.go:346-378 | Update refuses without assignment or without condition, else sends UPDATE, SET and WHERE, with argument i of entry k behind those of the entries before, then argument i of condition k behind all of those, and WHERE numbered on |
| `UpdateStatements.UpdateMeans` | pgsql/table_operation.go:359-370 | the statement sent means every assignment and every condition with exactly its own arguments, in order |
| `Precedence.JoinIsConjunction` | pgsql/where.go:81 | conditions that share no comparison, joined by a bare AND, hold exactly when all hold, for every row, if and only if there is at most one or none has an OR outside parentheses |
| `Precedence.JoinIsConjunctionExactly` | pgsql/where.go:81 | for any conditions, sharing comparisons or not: so it is if and only if every alternative between the ORs of the joined text needs all that some alternative of each condition needs |
| `Precedence.JoinAdmitsConjunction` | pgsql/where.go:81 | the joined text at least holds wherever all conditions hold |
| `Precedence.JoinTexts` | pgsql/where.go:81 | the conditions' texts joined by " AND " are the text of the joined conditions |
| `Precedence.ClauseSays` | pgsql/where.go:55-95 | the clause built from conditions says, behind " WHERE ", their words joined by AND, with placeholders numbered from the start index, and then order, limit and offset |
| `Precedence.ClauseIsConjunction` | pgsql/where.go:55-95 | so what the sent clause says is the conjunction of the conditions if and only if every alternative of it contains one of each condition; and for conditions that share no comparison, if and only if there is at most one or none has an OR outside parentheses |
| `TableInserts.BuildValues` | pgsql/table.go:183-194 | the nested loops write rows of placeholders, row i starting at i * columns + 1 |
| `TableInserts.ValuesMean` | pgsql/table.go:183-194 | placeholder (i, j) addresses field j of entity i in the flattened arguments |
| `TableInserts.Table.RowFollowsColumns` | pgsql/table.go:157-181 | id and fields stand at the positions of their columns |
| `TableInserts.Table.InsertMeans` | pgsql/table_operation.go:102-107 | the INSERT statement with flattened rows means these rows, in order |
| `TableInserts.Table.BatchMeans` | pgsql/table_operation.go:84-107 | what is sent for a batch means one row per entity, in order, with the id if it is inserted and then all the entity's own fields |
| `TableInserts.ExtractArgs` | pgsql/table.go:167-181 | arguments in column order, or an error at the first field that cannot be converted |
| `TableInserts.Table.CollectArgs` | pgsql/table_operation.go:93-100 | fails if and only if some field of some entity cannot be converted; else argument k * w is the id of entity k if it is inserted, and those behind it are its converted fields in order |
| `TableInserts.WroteIds` | pgsql/table_operation.go:116-125 | entity k has the k-th id unless its pointer comes again |
| `TableInserts.WroteOnlyIds` | pgsql/table_operation.go:116-125 | nothing else changes |
| `TableInserts.Table.Split` | pgsql/table_operation.go:58-67 | the loop splits entities by explicit id |
| `TableInserts.PicksPartition` | pgsql/table_operation.go:58-67 | every entity position is in exactly one of the two batches |
| `TableInserts.BatchAtPicks` | pgsql/table_operation.go:58-67 | a batch is what stands at its positions |
| `TableInserts.Table.InsertManyBatch` | pgsql/table_operation.go:84-128 | one batch: nothing is sent if and only if a field cannot be converted, else one INSERT carrying the values of entity k in row k; what is written back, and whether it went through |
| `TableInserts.Table.InsertMany` | pgsql/table_operation.go:53-82 | entities without id first, then those with one, each batch carrying its entities' own values; the second batch only after the first; ids of both written back |
| `TableInserts.Table.FailsHalfway` | pgsql/table_operation.go:69-82 | the call fails after the entities without id were accepted if and only if there were some, they could be written and were accepted, and of those with id there were some and one could not be converted or the server did not accept them |
| `Paging.FindPage` | pgsql/table_operation.go:205-290 | fails exactly if the count fails, or it is not 0 and the data query fails; else the total, and as items what the server leaves of the matching rows by the LIMIT and OFFSET of the clause sent, which are those of the wanted page, 1 and 10 by default, in the order wanted or by id; both clauses with all the conditions' arguments; the builder's own limit and offset play no part |
| `Paging.PagesCover` | pgsql/table_operation.go:229-290 | pages 1 to ceil(total / size) one after the other are every matching row once and in order |
| `Paging.PageLengths` | pgsql/table_operation.go:229-290 | all pages but the last are full, the last is not empty, none follow |
| `FieldCodec.GetValue` | pgsql/table.go:536-592 | the pointer-following loop stores, kind by kind, the value its pointers lead to, NULL for nil and the zero time, and what the first Valuer writes; it fails exactly if that Valuer or JSON does |
| `FieldCodec.SpelledOut` | pgsql/table.go:388-461 | what a column becomes in a field read through a null holder or a JSON buffer, kind by kind: NULL makes a pointer nil and a time zero, a value too wide loses its high bits, and a negative one cannot be read into an unsigned field |
| `FieldCodec.RoundTrip` | pgsql/table.go:465-592 | for every type and value: a field written and read back is unchanged if and only if the code keeps it (Faithful) and the type's own Valuer and Scanner, or JSON, undo each other on this value where the field goes through them (Reversible) |
| `FieldCodec.WithoutMethods` | pgsql/table.go:465-592 | for types without Valuer and Scanner what is lost is exactly: unsigned values above 2^63 - 1, values JSON cannot write and read back and, behind a pointer, any []byte, the zero time and nil slices and maps |
| `FieldCodec.PairBehindPointer` | pgsql/table.go:465-543 | a struct with Valuer and Scanner comes back if and only if they are inverse on the value, and behind a pointer if and only if moreover the Valuer's output is not NULL |
| `FieldCodec.NullValues` | pgsql/table.go:465-543 | a value whose Valuer writes NULL and whose Scanner reads NULL as the zero value, as with the sql.Null types: as a field of its own it comes back if and only if it is the zero value, behind a pointer never |
| `FieldCodec.PlainTextValuer` | pgsql/table.go:465-543 | a string type whose Valuer writes the string comes back without a Scanner |
| `FieldCodec.DirectRoundTrip` | pgsql/table.go:465-592 | the same for fields the driver scans itself, through any depth of pointers |
| `RowScan.Prepare` | pgsql/table.go:212-291 | every column gets the destination of its field's kind, each null holder for one column only |
| `RowScan.Scan` | pgsql/table.go:356-363 | a scan goes through if and only if every column fits its destination |
| `RowScan.ApplySlots` | pgsql/table.go:388-461 | the slot loop restores exactly the pointer and time fields, or fails on the first that cannot be |
| `RowScan.UnmarshalBuffers` | pgsql/table.go:302-321 | the JSON loop restores exactly the JSON fields and skips empty buffers |
| `RowScan.ScanRow` | pgsql/table.go:212-324 | a row is read if and only if every column can be restored; column i ends in the field it belongs to, kind by kind as SpelledOut says, all else untouched; a negative number for an unsigned pointer field makes the row unreadable |
| `RowScan.ScanRows` | pgsql/table.go:353-377 | every row in order into a fresh struct, or an error if a row cannot be read or the iteration broke off |
| `RowScan.RowRoundTrip` | pgsql/table.go:212-592 | a struct written and read back: readable if all mapped fields stay intact, and each field unchanged if and only if it does |

## Left out

- JSON, Redis and Postgres internals: json.Marshal, json.Unmarshal, Valuers, Scanners and the driver's conversions are functions per type, Redis is atomic maps with the commands used, a statement is characters with arguments in place.
- Panics of `fn` in both single flights, and the nil dereference on the recover path.
- Redis errors other than "not found", and the lock left held when the script fails.
- Key expiry inside the interleaving model: `FlightLease` says when it cannot happen.
- One flight name per key space is assumed, as are fresh request ids and a live context.
- The fetch and fill in `complete` and the body of a poll tick are one step each in the interleavings of the cluster; `FlightFill` takes them apart for one call, without expiry of the result. `FlightTheorems.Agreement` and `FlightQuiet.CleanElection` hold for the one-step fills.
- `FlightLiveness.EveryRunReturns`: `fn` returns, and Redis and the scheduler go on; watchdog renewals and new calls are not counted as steps.
- `LocalFlightObjects.ResourceManager.GetResource`: an uncontended call from start to end; contention is the subject of `LocalFlight`.
- `FlightObjects.DistributedSingleFlight.DoAlone`: likewise, contention is the subject of `DistributedFlight`.
- Inject while a GetResource of the same key runs: the create-once results exclude it.
- `RegistryNotify.NoLostNotification`: speaks of subscribers when the loop reads the list; whoever subscribes later is the subject of `RegistryDiscover.DiscoverCovers`.
- A loop reads the next element of its slice and the client of that subscriber in one step, as does an append or a cut; torn reads of a slot are not modelled.
- `RegistryDiscover.DiscoverCovers`: one direction only; a loop that does read the list between the two sections may or may not tell the caller, depending on whether the caller was on the list already.
- `RegistryDiscover.DiscoverAnswersUnlessSeen`: one direction over runs, since later registrations can write moved elements back; step by step `RegistryHeaders.StepShowsThrough` is exact.
- `RegistryService.Service.Evict`: requires lists without duplicates and empty entries, which every section keeps.
- Name lists per address are whole values, not slices of the request; gRPC dialing, peer addresses, tickers and pings are parameters or absent, so any address may be evicted at any time.
- `WhereClauses.ConditionsMean`: assumes the convention of one argument per placeholder and no other `$`.
- `UpdateStatements.UpdateMeans`: likewise, with expressions the loop numbers correctly; table and order texts hold no `$`.
- `UpdateClauses.BuildSet`: an empty expression without arguments, on which the code panics, is excluded.
- `UpdateClauses.UpdateBuilder.SetExpr`: the outcome of converting each argument is a parameter; the conversion is `FieldCodec.GetValue`. A panic is a result.
- `Precedence.JoinIsConjunctionExactly`: a condition is comparisons with AND and OR outside parentheses; whatever stands in parentheses or behind NOT counts as one comparison.
- `TableInserts.Table.InsertMany`: row structs are behind keys of a map instead of Dafny objects, and the server's answers are parameters with at most one id per row. Where arguments are said place by place, every struct has one value per column, as reflection gives it.
- `Paging.FindPage`: the count and the matching rows in the order asked for are parameters, so they may disagree; only LIMIT and OFFSET are read off the clause. Overflow of page times size is not modelled.
- `FieldCodec.RoundTrip`: `Lawful` asks only what holds of every Go type: unnamed []byte and time.Time have no methods, JSON is never empty nor its own base64 form. Columns keep what they are given: rounding of timestamps and numbers by the column's type, and a time's location, are not modelled. Arrays, interfaces, channels and complex numbers are not among the types.
- `GetTable`'s reflection: a field list with one id field is given.
- InsertOne, FindByID, FindOne, Find and UpdateByID: one statement each with nothing new.
- `security`, `mongox`, `ginx`, `config`, `logx`, `util`, the message queue and the cachers.
