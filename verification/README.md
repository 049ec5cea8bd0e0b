# Durable objects: a verified model

`pkg/durableobjects` runs JavaScript objects, one actor per object, each with its own SQLite database. This project
models the parts of it whose correctness is not visible in any single function, and proves what they promise.

- **Lifecycle of actors** (`Lifecycle*.dfy`). The manager, the actors, every dispatch and every evictor form one step
  machine. A step is one lock section, one atomic operation, one channel operation, or one return of code the runtime
  cannot see into; steps of different threads interleave freely, and cancellation may strike wherever the code listens
  for it. `LifecycleInvariant`, `LifecycleCoherence` and `LifecycleHistory` hold what every step keeps,
  `LifecycleTheorems` the guarantees, `LifecycleAdmission` who gets an actor, `LifecycleAccounts` the conservation laws,
  `LifecycleProgress`, `LifecycleDeadlock` and `LifecycleTermination` when dispatches can go on and come to an end,
  `LifecycleSerial` and `LifecycleIncrements` the serialisation of two-phase handlers, `LifecycleOverlaps` that its
  conditions are exact step by step, and `LifecycleLostUpdates` a run that loses an update for each of them.
  `Managers.dfy` has the same lock sections as methods of objects, written against the functions that the machine uses.
- **Alarms** (`Alarm*.dfy`). `AlarmTables` has the two tables as an object with the reconcile loop, the query and the
  due pass; `AlarmRuns` is a second step machine, in which every write to either table is a step, anything may fail
  half-way, and the process may crash between any two steps. `AlarmRunTheorems` has what holds over its runs,
  `AlarmFutures` exactly when an alarm can still be dispatched, for the first time or again, and all the ways to lose one,
  `AlarmQuietPasses` ties its reconciliation to the tables, and `AlarmScenarios` shows what does not hold.
- **Storage and text.** Key/value operations, transactions and listing (`Storage.dfy`), the escaping of key prefixes
  against a definition of SQL's LIKE (`LikePrefix.dfy`), namespaces and manifests (`Namespaces.dfy`, `Manifests.dfy`),
  identities (`Identity.dfy`), dispatch bound to an authenticated actor (`Binding.dfy`), and gateway paths
  (`Gateway.dfy`). `Text.dfy` has white space and byte lengths, `Wrappers.dfy` options, results and error codes.

Reachable states are those at the end of a `Feasible` run from the initial state; a theorem over them is a statement
about every run. History in the machines (`seen`, `invocations`, `abandoned`, the stage of an actor, the numbers of
alarms) is read by no step.

## Assumptions

- Digests are functions. Where a claim needs two of them to differ, it says that these two messages do not collide; a
  digest that is injective on all messages does not exist. A message authentication code has 32 bytes.
- One scheduler runs the due passes in sequence (`pkg/durableobjects/scheduler.go:40-53`), so passes do not overlap.
  A `setAlarm` leads to at most one dispatch if that call does not itself straddle two passes, whatever other calls do.
- The guarantee is at most once, not exactly once. Between passes an alarm can still be dispatched, for the first time or
  again, exactly if its object has it or its own `setAlarm` is still under way (`AlarmFutures.CanFireIffAhead`, which also
  covers the states inside a pass). Unless its object sets another alarm or deletes it, there are two ways to lose one:
  a pass that fails or a process that crashes after clearing it and before dispatching it
  (`AlarmScenarios.CrashLosesAlarm`), and a `setAlarm` that falls between the query of a pass and its clear for an earlier
  alarm of that object, which clears the new one without any failure (`AlarmScenarios.ResetDuringPassLosesAlarm`).
- The claim that a due pass works off what a direct scan would list is about a pass whose handlers touch their own
  object's alarm only; the loop does not look again whether a later record is still due.
- Freedom from deadlock supposes that constructors and handlers end by themselves when they wait for nobody. It holds
  exactly if the stub calls that handlers may make do not lead in a circle through two or more served identities; the
  code itself only rejects a call to the caller's own identity.
- Errors that nested calls throw at an object are kept per identity, so an object may throw an old one later, and the
  model does not rely on a new actor of that identity having forgotten them.

## Where the code and its description part

- A listing by a "literal" prefix ignores the case of ASCII letters, because SQLite's LIKE does. It is literal for every
  key exactly when the prefix has no ASCII letter (`LikePrefix.PrefixIsLiteralWithoutLetters`).
- There can be two live actors of one identity for a while: `Evict` and `EvictIdle` take an actor out before it is
  poisoned, and `EvictIdle` can take one out that a dispatch has already been handed. So handlers of one object are sure
  to act one after the other only if nobody takes its actor out under a dispatch that may still run a handler on it, and
  nobody stops waiting for a pending handler; only the polling loop poisons, the exit at promise detection does not.
- A transaction whose callback returns a promise that is already rejected commits.
- An allowlist for bound dispatch may contain the empty namespace, in which no identity can be derived.
- `ExportNameToNamespace` is not idempotent: `A1b` becomes `A1B`, and that becomes `A1_B`.

## Model

| member | source | states |
|---|---|---|
| LifecycleHistory.StepKeepsInv | pkg/durableobjects/manager.go:70-260 | Every step of every thread keeps the invariant that ties manager maps, start calls, gates, poison, retries and reported errors together, and nothing that happened to an actor, a resolved call or a finished dispatch is undone. |
| LifecycleHistory.ReachableStatesHold | pkg/durableobjects/manager.go:70-260 | The invariant holds in every state that any interleaving can reach. |
| LifecycleInvariant.NothingToDisplace | pkg/durableobjects/manager.go:201-208 | When a starter publishes, its identity has no actor in the map and its own is unpublished, so the branch for an existing actor is unreachable. |
| LifecycleAdmission.OnlyServedIdentitiesGetActors | pkg/durableobjects/manager.go:80-87 | In every reachable state a dispatch without a complete identity or a served namespace has ended with the error that says so and invoked nothing, and no actor was ever started for such an identity. |
| LifecycleTheorems.StartsAreSingleFlight | pkg/durableobjects/manager.go:179-221 | In every reachable state an identity in `starts` is not in `actors`, and at most one dispatch starts it. |
| LifecycleTheorems.WaitersGetTheStartersResult | pkg/durableobjects/manager.go:188-196 | Whoever waits for a start call continues, whenever it wakes, with exactly the actor or error its starter published. |
| LifecycleTheorems.FailedStartLeavesNothing | pkg/durableobjects/manager.go:183-216 | From the lock section that claims a start to the one that ends it in failure, whatever runs beside it, its identity gets no actor, neither in the map nor outside it; afterwards it has neither an actor nor a start, and the caller and the call everybody waits for have the same error. |
| LifecycleTheorems.PoisonedInManagerIsHeld | pkg/durableobjects/actor.go:112-123 | In every interleaving a poisoned actor still in `actors` has its gate held by the dispatch between poisoning and removing it. |
| LifecycleTheorems.RetryNeverMeetsTheSameActor | pkg/durableobjects/manager.go:88-107 | A dispatch that found an actor poisoned never has that actor again: not from the map, not from a start call, not at its gate. |
| LifecycleTheorems.ExhaustionMeansTwoActors | pkg/durableobjects/manager.go:88-107 | Wherever "retry budget exhausted" surfaces, the dispatch it comes from met two different actors of its identity, both poisoned and out of the manager. |
| LifecycleTheorems.AbandonedActorNeverServes | pkg/durableobjects/actor.go:307-335 | After the polling loop has given up a promise on cancellation, no dispatch in any continuation invokes a handler on that actor. |
| LifecycleTheorems.CancelledActorNeverServes | pkg/durableobjects/actor.go:307-326 | The same from the very step in which a cancelled dispatch leaves the polling loop, before it has even poisoned the actor. |
| LifecycleTheorems.OnePoisonerWins | pkg/durableobjects/actor.go:112-123 | Over any run at most one dispatch wins the compare-and-swap on an actor and goes on to evict it. |
| LifecycleTheorems.HandlersRunAtMostOnce | pkg/durableobjects/manager.go:88-107 | However often it retries, a call of `Manager.Dispatch` invokes a handler at most once in any run. |
| LifecycleTheorems.SentinelNeverEscapes | pkg/durableobjects/actor.go:65-72 | No dispatch ends with the poison sentinel, no code of any object is ever handed it through a nested stub call, even to keep and throw later, and it arises only before invocation. |
| LifecycleAccounts.ActorsAreConserved | pkg/durableobjects/manager.go:121-168 | Per identity and in every reachable state: start events = evict events + actors taken by `Close` + removed and not yet reported + one if in the map + one if started and not yet published. |
| LifecycleAccounts.GoneIsForGood | pkg/durableobjects/manager.go:121-147 | An actor that has left the map never returns to it, so none is removed twice. |
| LifecycleAccounts.RunKeepsActive | pkg/durableobjects/actor.go:59-64 | Over every run the counter `active` of an actor is the number of dispatches between its two updates. |
| LifecycleAccounts.IdleMeansNobodyInside | pkg/durableobjects/actor.go:131-140 | When `EvictIdle` finds an actor idle, no dispatch is inside it at that moment. |
| LifecycleProgress.UnfinishedMeansProgress | pkg/durableobjects/modules.go:128-152 | If stub calls only ever went up a strict order on identities, then while any dispatch is unfinished, an unfinished dispatch, or the idle scan that holds the manager's lock, can take a step that changes the state, without a cancellation or a new call. |
| LifecycleDeadlock.DeadlockFreeIffNoCircle | pkg/durableobjects/modules.go:130-141 | For any relation of which objects' handlers may call which: every run that keeps to it can go on while a dispatch is unfinished, if and only if the relation has no circle through two or more served identities. |
| LifecycleDeadlock.MutualCallsDeadlock | pkg/durableobjects/modules.go:128-152 | Any two served objects that may call each other can reach a state in which nobody can go on: the code rejects only the circle of one. |
| LifecycleTermination.WorkIsBounded | pkg/durableobjects/manager.go:88-107 | However interleaved, cancelled or failing, dispatches that make no further calls take at most as many steps as the work they have before them, which every such step lowers. |
| LifecycleTermination.DispatchesCanEnd | pkg/durableobjects/modules.go:128-152 | If stub calls only ever went up a strict order, every reachable state has a continuation without a cancellation or a new call after which every dispatch is done. |
| LifecycleSerial.StoreFollowsWrites | pkg/durableobjects/actor.go:55-84 | In every run, the stored value is the one that follows from the order of the writes and from what the handler of each had read before it waited. |
| LifecycleSerial.HandlersAreSerialised | pkg/durableobjects/actor.go:55-84 | However often the actor is evicted and restarted: no write falls between the read and the write of another handler, and the stored value is what whole handlers leave when run one after the other in the order of their writes; if nobody takes an actor out of the manager under a dispatch that may still run a handler on it, and nobody stops waiting for a pending handler. The next row shows that both conditions are exact. |
| LifecycleOverlaps.OverlapsIffDisturbed | pkg/durableobjects/actor.go:268-335 | After any run that meets both conditions, the next step breaks one of them if and only if, in some continuation that does not break them again, a write falls between the read and the write of another handler of the object. |
| LifecycleIncrements.CounterIsExact | pkg/durableobjects/actor.go:273-280 | In every run a counter never exceeds the number of handlers that wrote, and equals it if and only if no write of the object fell between the read and the write of another handler; every increment reported done is among the writes. |
| LifecycleIncrements.IncrementsAddUp | pkg/durableobjects/actor.go:55-84 | Under the two conditions of serialisation no increment is lost, and N completed increments add exactly N. |
| LifecycleLostUpdates.WalkingAwayLosesAnUpdate | pkg/durableobjects/actor.go:293-297 | A run in no step of which an actor is evicted under a dispatch that may run a handler, and in which the exit at promise detection lets two increments overlap and one is lost. |
| LifecycleLostUpdates.EvictionLosesAnUpdate | pkg/durableobjects/manager.go:121-147 | A run in no step of which a dispatch stops waiting for a pending handler, and in which an eviction lets a second actor start beside the first and one increment is lost. |
| Managers.Manager.constructor | pkg/durableobjects/manager.go:58-68 | A new manager has no actors, no starts and no events. |
| Managers.Manager.FindOrClaim | pkg/durableobjects/manager.go:183-198 | First lock section of `getOrStart`: an actor if there is one, else the call to wait for, else a new call of the caller's own entered in `starts`. |
| Managers.Manager.Publish | pkg/durableobjects/manager.go:201-220 | Second lock section: the call is resolved with the very result the starter returns, the actor is entered, only this call leaves `starts`; in a valid manager nothing is displaced or closed. |
| Managers.Manager.Remove | pkg/durableobjects/manager.go:122-136 | Lock section of `evictActor`: removes whatever is there, or only the expected actor, and says which. |
| Managers.Manager.EvictActor | pkg/durableobjects/manager.go:121-147 | The actor is poisoned even if it had been replaced, the eviction is reported only if it was removed, then it is closed, the stop and the error of closing are reported, and no other actor is poisoned. |
| Managers.Manager.EvictIdle | pkg/durableobjects/manager.go:223-260 | With nothing beside it, exactly the idle actors leave the map; in some order each is poisoned, reported, closed and reported stopped; the count is theirs and the error the first of the closing. |
| Managers.Manager.Close | pkg/durableobjects/manager.go:149-168 | With nothing beside it, the lifetime is cancelled, the map is emptied, everything in it is poisoned and closed, nothing is reported, and the first error of the closing is returned. |
| AlarmTables.AlarmStore.SetAlarm | pkg/durableobjects/storage_sqlite.go:208-221 | Local row first, index second, stopping at the first failure; success keeps the index in agreement. |
| AlarmTables.AlarmStore.DeleteAlarm | pkg/durableobjects/storage_sqlite.go:236-246 | The same for deletion. |
| AlarmTables.AlarmStore.ReconcileAlarmIndex | pkg/durableobjects/alarms.go:127-166 | From any pair of tables it ends with the index equal to the local alarms, having counted exactly the differing or missing and the stale keys; when a scan or a write fails, the counts are the writes made and every row is old or right. |
| AlarmTables.ReconciledStaysReconciled | pkg/durableobjects/alarms.go:141-164 | Once the index agrees there is nothing to repair and nothing to remove, so a second run reports zero for both. |
| AlarmTables.AlarmStore.DueAlarms | pkg/durableobjects/alarms.go:91-119 | The first min(limit, number due) due rows by time, with the clamp to 1..1000, no object twice, and nothing due earlier left out. |
| AlarmTables.AlarmStore.DispatchDueAlarms | pkg/durableobjects/manager.go:262-288 | A pass without a crash works off the first due alarms a direct scan of the objects would list, in order, each cleared before its one dispatch; what handlers set again stays, and the index ends equal to the local alarms. It succeeds if nothing fails, and at a failure stops exactly there; either way the next pass may follow. |
| AlarmTables.OtherAlarmsStay | pkg/durableobjects/manager.go:275-287 | Alarms of objects that were not worked off are as they were. |
| AlarmTables.HandlersDecide | pkg/durableobjects/manager.go:275-287 | An object that was worked off has exactly the alarm its handler set, or none. |
| AlarmTables.LaterRecordsAreUntouched | pkg/durableobjects/manager.go:276-285 | If the pass stops at record k, before or after its handler, the alarm of every later record is as it was. |
| AlarmQuietPasses.QuietReconciliationAgrees | pkg/durableobjects/alarms.go:127-166 | In the machine too, an undisturbed reconciliation that reaches the query has made the index equal to the local alarms, whatever order it visits files and rows in, and touched no object. |
| AlarmRunInvariant.RunIsSound | pkg/durableobjects/manager.go:262-297 | Over every run whatsoever, an alarm that an object still has in its own database has not been dispatched, and no row, call or pass has the alarm of another object. |
| AlarmRunInvariant.RunKeepsInv | pkg/durableobjects/manager.go:262-297 | For an alarm whose own `setAlarm` does not straddle two passes: once dispatched, it is in no list of due alarms, and after a comparison every row of it is about to be overwritten or removed. |
| AlarmRunTheorems.SetAlarmFiresAtMostOnce | pkg/durableobjects/manager.go:262-297 | In every run of interleaved, failing and crashing calls and passes, a `setAlarm` that does not itself straddle two passes leads to at most one dispatch, whatever the other calls do. |
| AlarmRunTheorems.AlarmsFireAtMostOnce | pkg/durableobjects/manager.go:262-297 | If none of an object's own `setAlarm` calls straddles, the object has at most as many alarms dispatched as were set for it. |
| AlarmFutures.CanFireIffAhead | pkg/durableobjects/manager.go:262-297 | In every state, inside a pass or between passes, the alarm of a `setAlarm` can be dispatched (once more) in some continuation if and only if its object still has it, or that call is still under way, or the pass under way has it before it. |
| AlarmFutures.RepeatsIffStillPending | pkg/durableobjects/storage_sqlite.go:208-221 | Between two passes of any run, an alarm that has been dispatched can be dispatched again in some continuation if and only if its own `setAlarm` is still under way and has not written the index. |
| AlarmFutures.AlarmsFireUnlessLost | pkg/durableobjects/manager.go:275-297 | However everything fails, crashes and interleaves, an alarm that was set has been dispatched or still can be, unless its object set another one or deleted it, or a pass stopped between its clear and its dispatch, or a pass cleared it on behalf of an earlier alarm that had been listed before. |
| AlarmRunTheorems.AlarmsAreConserved | pkg/durableobjects/alarms.go:127-166 | Over every run, per object: alarms set = alarms overwritten, deleted or cleared for a dispatch, + 1 if one is still there. No reconciliation, failure or crash takes one. |
| AlarmFutures.LostAlarmsNeverFire | pkg/durableobjects/manager.go:262-297 | An alarm that neither its object nor its own call nor the pass under way has is not dispatched in any continuation, even if a stale row of the index still has it. |
| AlarmScenarios.StraddlingFiresTwice | pkg/durableobjects/storage_sqlite.go:208-221 | A run with one `setAlarm`, between whose two writes a whole pass fits, that dispatches it twice. |
| AlarmScenarios.CrashLosesAlarm | pkg/durableobjects/manager.go:290-297 | A run in which a crash after the clear loses an alarm: it is in neither table, was never dispatched, and can never be. |
| AlarmScenarios.ResetDuringPassLosesAlarm | pkg/durableobjects/manager.go:262-288 | A run without any failure, crash, delete or straddling call in which an alarm set between the query and the clear of a pass is lost: the earlier alarm is dispatched, the new one never can be. |
| Storage.SQLiteStorage.Execute | pkg/durableobjects/storage_sqlite.go:298-347 | Get, put and delete on a table under trimmed keys; blank keys and values that cannot be encoded are refused, a failing database is reported, and neither changes anything. |
| Storage.GetSeesLastWrite | pkg/durableobjects/storage_sqlite.go:298-347 | After any operations a lookup gives what was last written under any spelling of the key. |
| Storage.KeysStayTrimmed | pkg/durableobjects/storage_sqlite.go:298-347 | After any operations every stored key is trimmed and not empty. |
| Storage.SQLiteStorage.Transaction | pkg/durableobjects/storage_sqlite.go:184-206 | All operations of the callback apply exactly if begin, callback and commit succeed, otherwise none; inside, each sees those before it; the error says which stage failed. |
| Storage.SQLiteStorage.List | pkg/durableobjects/storage_sqlite.go:361-389 | The least `limit` keys in binary order that begin with the prefix, with their values, and the clamp to 1..1000. |
| Storage.ListingIsUnique | pkg/durableobjects/storage_sqlite.go:361-389 | Table, prefix and limit determine the listing. |
| LikePrefix.EscapeSQLiteLikePrefix | pkg/durableobjects/storage_sqlite.go:349-359 | The loop computes the escaping that the next four rows are about. |
| LikePrefix.EscapedPrefixMatchesPrefix | pkg/durableobjects/storage_sqlite.go:349-366 | For every prefix and key, the escaped prefix followed by `%` matches the key if and only if the key begins with the prefix character by character, up to ASCII case. |
| LikePrefix.PrefixIsLiteralWithoutLetters | pkg/durableobjects/storage_sqlite.go:349-366 | It matches literal prefixes only, for all keys, if and only if the prefix has no ASCII letter. |
| LikePrefix.UnescapeInverts | pkg/durableobjects/storage_sqlite.go:349-359 | Escaping has an inverse. |
| LikePrefix.EscapingIsInjective | pkg/durableobjects/storage_sqlite.go:349-359 | Different prefixes have different patterns. |
| Namespaces.ExportNameToNamespace | pkg/durableobjects/manifest.go:44-77 | The loop over an ASCII name computes the conversion that the next rows are about. |
| Namespaces.NamespaceShape | pkg/durableobjects/manifest.go:44-77 | Only upper-case letters, digits and underscores, none leading, trailing or doubled; without underscores it is exactly the upper-cased letters and digits of the name, in order. |
| Namespaces.SecondConversionChanges | pkg/durableobjects/manifest.go:44-77 | A second conversion changes a result if and only if it has a digit directly followed by a letter. |
| Namespaces.ThirdConversionIsIdentity | pkg/durableobjects/manifest.go:44-77 | From the second conversion on, converting is the identity. |
| Namespaces.SecondConversionExample | pkg/durableobjects/manifest.go:44-77 | A name whose second conversion differs from its first. |
| Manifests.Validate | pkg/durableobjects/manifest.go:25-42 | Accepts exactly the non-empty manifests all of whose entries have a valid namespace and a class name. |
| Manifests.DeriveManifest | pkg/durableobjects/bundle.go:18-45 | Succeeds exactly when the keys are constructors, at least one, free of collisions, with non-empty namespaces of at most 128 bytes; the result is then a bijection between keys and namespaces; the error tells the loop from the final validation. |
| Manifests.DerivedEntryIsValid | pkg/durableobjects/bundle.go:27-44 | A derived entry can fail validation only because of its length. |
| Identity.IdentitiesAreDistinct | pkg/durableobjects/id.go:18-35 | Two accepted pairs have the same hash if and only if they are the same pair up to surrounding white space, unless their two hash inputs collide. |
| Identity.SeparatorIsUnambiguous | pkg/durableobjects/id.go:28-34 | The NUL between the two parts makes the hash input determine both, whatever the second part contains. |
| Binding.NewBoundDispatcher | pkg/durableobjects/bound_dispatcher.go:34-57 | Succeeds exactly with a dispatcher, a key of at least 32 bytes and at least one namespace, all valid; it copies the key and keeps the trimmed namespaces. |
| Binding.BoundDispatcher.DispatchForActor | pkg/durableobjects/bound_dispatcher.go:83-93 | An envelope with any part of an identity is refused and not passed on; otherwise exactly the derived identity is put in. |
| Binding.UrlSafeNameIsValid | pkg/durableobjects/bound_dispatcher.go:70-78 | The unpadded base64url name of a code (section 5 of RFC 4648) always passes name validation unchanged. |
| Binding.BoundIDSucceeds | pkg/durableobjects/bound_dispatcher.go:61-78 | With validated namespaces, an identity is derived exactly for an allowed namespace and an actor, neither empty; it is in that namespace, and the error tells an unknown namespace from a bad request. |
| Binding.Base64UrlIsInjective | pkg/durableobjects/bound_dispatcher.go:76-77 | The encoding loses nothing on byte strings of equal length. |
| Binding.ActorsAreIsolated | pkg/durableobjects/bound_dispatcher.go:61-78 | Two derivations give the same object name if and only if namespace and actor are the same, for arbitrary actor identifiers, unless the two messages collide. |
| Gateway.AcceptedRPCPath | pkg/durableobjects/gateway.go:98-104 | An accepted path, trimmed of slashes, is the join of the returned parts, and the method is not empty. |
| Gateway.RPCPathRoundTrip | pkg/durableobjects/gateway.go:98-104 | For slash-free parts, building and parsing is the identity if and only if the method is not empty. |
| Gateway.AcceptedFetchPath | pkg/durableobjects/gateway.go:106-116 | An accepted path, trimmed of slashes, is the join of the returned parts, with nothing for the rest when there are only three. |
| Gateway.FetchPathRoundTrip | pkg/durableobjects/gateway.go:106-116 | For slash-free namespace and name, building and parsing is the identity if and only if the rest begins with a slash and does not end in one, or is one slash after a non-empty name. |

## Left out

- Namespaces.ExportNameToNamespace: ASCII names only, because Unicode case tables are not modelled.
- Manifests.DeriveManifest: ASCII keys only, for the same reason; evaluating the bundle and its export object is not modelled.
- LifecycleProgress.UnfinishedMeansProgress: promises that never settle and code that never returns are outside it, and so is fairness: that a given dispatch ends while others keep calling is not stated.
- AlarmTables.AlarmStore.DispatchDueAlarms: handlers touch their own object's alarm only, and their own `setAlarm` succeeds; what other objects do during a pass is in `AlarmRuns`.
- `Manager.Dispatch`, `getOrStart` and `Actor.Dispatch` as methods of objects: between their lock sections other threads run, so as a whole they are in the step machine only; `Managers.dfy` has their lock sections, and the sweeps with nothing beside them.
- Storage.SQLiteStorage.Execute: a stored value that cannot be decoded does not occur, because values are stored as what they decode to.
- Storage.SQLiteStorage.Transaction: the operations of a callback are gets, puts and deletes; listing inside a transaction is not among them.
- Evaluation of JavaScript, construction of classes, JSON codecs and export of values: handlers are sequences of steps, promises are pending, fulfilled or rejected, and a stored value is its encoding.
- The owner thread of a runtime: a dispatch queued behind an abandoned handler on it is not modelled, so an actor whose handler was walked away from accepts the next one at once; stub calls of an abandoned handler appear as new dispatches.
- Timers, tickers, the idle clock inside the lifecycle machine, and VM interrupts with their race against the timer: cancellation is a step, and a sweep finds actors idle as it pleases provided nobody is inside.
- In the step machine: actor-stop events and the closing of runtimes, which `Managers.dfy` has; and whether `Manager.Close` leaves nothing behind while starts are under way.
- SQLite itself, schema versions, pragmas, file paths and directory walks: tables are maps, and a scan visits files in any order.
- SHA-256 and HMAC internals; invalid UTF-8, and NUL in LIKE text.
- HTTP requests and responses, body limits, the mapping of errors to statuses, and error texts.
- Command line, provider glue, documentation commands and examples.
