# Verified models of Shabdiz and its analysis pages

Shabdiz deploys, watches and removes applications on many hosts; its evaluation is shown on a web
page with a module loader, callback lists, charts and filters. This project models the parts whose
behaviour depends on the order of events or on loops over changing data, and proves what they keep.
`dafny verify dfyconfig.toml` checks it.

Objects whose methods update fields are classes here. Each method is tied to a function on plain
values (`View()`, a step function, a specification), and the main results are lemmas about those
functions, over every run, every interleaving or every input.

- **Scanner and descriptor protocol** (Java core). `ScannerRegistry` and `ScannerNetwork`: scheduled
  scanners under the map lock, with adding, removing, enabling and events from any thread as atomic
  steps. `StateWaiters`: latched waiting for states. `ScanCycle`: the timed concurrent scan.
  `Lifecycle`: status, kill, deploy and remove scans racing on one descriptor. `ApplicationState`
  holds the states.
- **Module loader** (RequireJS). `LoaderState` has the bookkeeping and its invariant, `LoaderCycles`
  the search that breaks cycles, `LoaderNeeds` what enabling may reach, `ModuleLoader` the objects with
  their recursive init, enable, check and emit, `LoaderResults` the theorems over any script.
  `PathNormalizer` is the id normalisation.
- **Callbacks and Deferred** (jQuery). `CallbackState` and `Callbacks`: the re-entrant list.
  `CallbackLaws`: what it holds, accepts and calls. `Deferred`: the promise made of three of them.
- **JSON printer.** `JsonPrinter`, with a reference decoder for RFC 8259 in `JsonText`; `JsonLayout`
  and `JsonFormat` on indentation and escapes.
- **Ordering, query codec, filter.** `Alphanum`, `QueryCodec`, `ScenarioFilter`, with `Text` for
  splitting, joining and decimals. `Wrappers` holds the type of a value that may be missing.
- **Tables and paths.** `CsvTable`, `ColumnAllocator`, `BoundingBox`, `SvgPath`, in exact real
  arithmetic.

## Where the code falls short of what one expects

Each is kept as the code has it, shown by a concrete input, and met by the exact condition where
there is one.

- A path such as `a/../..` is not reduced (`PathNormalizer.StuckExample`, `PathNormalizer.TrimDots`).
- Callbacks added during a fire after `empty` can be skipped (`Callbacks.SkippedExample`): those that
  land at or before the index of the pass (`Callbacks.AdditionsSkipped`, `Callbacks.BehindStays`).
- `empty` gives a disabled list that has never fired its life back (`CallbackLaws.AcceptsUntilShut`).
- Enabling events that overtake each other leave a disabled scanner scheduled
  (`ScannerRegistry.StaleEvent`); operations on one scanner that do not overlap keep it right
  (`ScannerRegistry.SeparateSchedules`).
- An enabling event that arrives after `removeScanner` brings the scanner back
  (`ScannerRegistry.LateEvent`), and nothing else does (`ScannerRegistry.ComesBack`,
  `ScannerRegistry.CanComeBack`).
- A compare-and-set between a waiter's check and its registration loses the wake-up
  (`StateWaiters.LostWakeUp`, `StateWaiters.OnlyTheGapLosesWakeUps`). A writer that has put an older
  value in place and not yet read the listeners wakes a waiter for nothing
  (`StateWaiters.SpuriousWakeUp`), and no other does (`StateWaiters.SpuriousExactly`).
- `Duration` truncates, so a scan cycle can outlast its timeout (`ScanCycle.Outlasts`): never if the
  timeout is in nanoseconds, and possibly in any other unit (`ScanCycle.OnlyNanosecondsInTime`), by the
  elapsed time modulo the unit (`ScanCycle.RemainingExact`).
- `addQuadraticCurve` permutes control coordinates, so a curve can leave its box
  (`BoundingBox.QuadraticEscapes`): it does exactly if neither the cubic with the permuted coordinates
  nor the box before reaches the point where the curve turns (`BoundingBox.QuadraticExactly`).
- Smooth curves get other control points than SVG 1.1 asks for (`SvgPath.SecondSmoothCubic`,
  `SvgPath.SecondSmoothQuadratic`, `SvgPath.SmoothAfterQuadratic`, `SvgPath.SmoothAfterCubic`),
  exactly at the places `SvgPath.SmoothControls` says.
- Only whitespace indents give JSON (`JsonLayout.OnlyWhitespaceIndents`).
- Negative selections lose their sign (`QueryCodec.ArrayRestored`); blank rows and rows that start
  with `#` are lost from a table (`CsvTable.TableRestored`).
- Without value columns the loop for further series ends only if no column but column 0 is free
  (`ColumnAllocator.LoopEnds`). Only a series type of the user's own, with an empty `pointArrayMap`, is
  without them; no type of the library is.

## What stands for the outside world

- Factories, number reading (`Number`), key order of objects, square root, marker angles and arc
  geometry are parameters; the square root is any non-negative root.
- The clock, task durations and enabling are functions of time or inputs; script arrival is an input.
- History that the source does not keep (what has run, what has been written) is ghost or part of the
  abstract state only, and no step depends on it.
- The order in which the loader walks its registry is arbitrary.

## Model

| member | source | states |
|---|---|---|
| LoaderResults.RunsOnce | evaluation/src/site/resources/analysis/scripts/lib/require.js:18-19 | whatever scripts arrive, a factory runs at most once, and it has run exactly when its module is defined |
| LoaderResults.CountsOpenSlots | evaluation/src/site/resources/analysis/scripts/lib/require.js:17-23 | outside `enable`, depCount of an enabled module is the number of its dependencies not yet satisfied, and each of those is still in the registry |
| LoaderResults.EnabledExactly | evaluation/src/site/resources/analysis/scripts/lib/require.js:22-23 | the loader is lazy, on any graph: between calls a module is enabled if and only if some require call depends on it, directly or through other modules |
| LoaderResults.OnlyNeeded | evaluation/src/site/resources/analysis/scripts/lib/require.js:18-23 | neither is a factory run nor a script asked for that no require call depends on |
| LoaderResults.ExportApplied | evaluation/src/site/resources/analysis/scripts/lib/require.js:17-19 | on any graph the export of a defined module is its factory applied to the exports of its dependencies in their order, with undefined for each one that breakCycle has matched by force |
| LoaderResults.AllDefined | evaluation/src/site/resources/analysis/scripts/lib/require.js:12-14 | on any graph, once the require calls have run, so has every module they depend on, in a cycle or not |
| LoaderResults.NeverForced | evaluation/src/site/resources/analysis/scripts/lib/require.js:12-14 | on an acyclic graph breakCycle never satisfies a dependency by force |
| LoaderResults.TopologicalOrder | evaluation/src/site/resources/analysis/scripts/lib/require.js:16-23 | on an acyclic graph each factory runs after those of all its dependencies |
| LoaderResults.EnabledDefined | evaluation/src/site/resources/analysis/scripts/lib/require.js:16-23 | on an acyclic graph, once every enabled module has its factory, every enabled module is defined |
| LoaderResults.ExportsMean | evaluation/src/site/resources/analysis/scripts/lib/require.js:18-19 | on an acyclic graph the export of a defined module is its factory applied to the exports its dependencies mean, in the order of the dependency array |
| LoaderResults.OrderOfArrivalIrrelevant | evaluation/src/site/resources/analysis/scripts/lib/require.js:15-28 | two loads by scripts that define every name alike give each module, on an acyclic graph, the same export, whatever the order the definitions arrived in |
| LoaderResults.SamePrograms | evaluation/src/site/resources/analysis/scripts/lib/require.js:14-16 | a module that two such scripts have both defined has the same factory and dependencies in both |
| LoaderResults.Run | evaluation/src/site/resources/analysis/scripts/lib/require.js:13-28 | after any script of define calls, require calls and script loads the loader is idle, its invariant holds, the first definition of each name is the one in force, and enabled is exactly what the require calls depend on; if the last call is a require or a script load and no enabled module waits for its script, every require has run and every enabled module is defined |
| LoaderResults.Step | evaluation/src/site/resources/analysis/scripts/lib/require.js:14-28 | one such call keeps that and does not disturb earlier definitions; after a require or a script load, every require has run if no enabled module waits for its script |
| LoaderCycles.ForceCloses | evaluation/src/site/resources/analysis/scripts/lib/require.js:12-13 | a dependency is matched by force only when its module is on the recursion stack, so the edge closes a cycle of dependencies |
| LoaderCycles.Descend | evaluation/src/site/resources/analysis/scripts/lib/require.js:13 | a dependency that is not yet traced can be searched next: "traced but not processed" stays the recursion stack |
| LoaderCycles.Leave | evaluation/src/site/resources/analysis/scripts/lib/require.js:13 | when all slots of a module are done it leaves the stack, and if its script had arrived it has been defined |
| LoaderCycles.SatisfiedDefined | evaluation/src/site/resources/analysis/scripts/lib/require.js:18-19 | an enabled module with a factory and no open slot has been defined |
| LoaderCycles.SearchOver | evaluation/src/site/resources/analysis/scripts/lib/require.js:12-14 | when the search from a require call is over, whatever a forced slot depends on has been defined |
| LoaderCycles.SoundSteady | evaluation/src/site/resources/analysis/scripts/lib/require.js:12-14 | what cycle breaking does keeps the loader sound |
| LoaderCycles.SoundInitialise | evaluation/src/site/resources/analysis/scripts/lib/require.js:16-17 | giving a module its dependencies and factory keeps the loader sound and records the definition |
| LoaderNeeds.SparingSlot | evaluation/src/site/resources/analysis/scripts/lib/require.js:22-23 | the turn of the loop in enable that subscribes to a dependency and enables it enables nothing that the module does not depend on |
| LoaderNeeds.WantedGrows | evaluation/src/site/resources/analysis/scripts/lib/require.js:16-26 | enabling on behalf of a require call, or of a module that one depends on, enables only what some require call depends on |
| LoaderState.DefineKeeps | evaluation/src/site/resources/analysis/scripts/lib/require.js:18-19 | running a factory with depCount 0 keeps the invariant while the announcements to its listeners are still owed |
| LoaderState.DeliverStep | evaluation/src/site/resources/analysis/scripts/lib/require.js:17 | delivering one announcement (defineDep) lowers the counter of the listener by one open slot and pays that debt |
| LoaderState.SubscribeStep | evaluation/src/site/resources/analysis/scripts/lib/require.js:22-23 | turning a dependency name into a module map opens its slot and keeps the invariant |
| LoaderState.ListenKeeps | evaluation/src/site/resources/analysis/scripts/lib/require.js:12 | registering for the defined event of a module that is not defined yet keeps the invariant |
| LoaderState.InitialiseStep | evaluation/src/site/resources/analysis/scripts/lib/require.js:16-17 | init keeps the invariant up to the check or enable that follows it |
| ModuleLoader.Module.DefineDep | evaluation/src/site/resources/analysis/scripts/lib/require.js:17 | matching a slot: once, one off the counter, the export stored |
| ModuleLoader.Context.Init | evaluation/src/site/resources/analysis/scripts/lib/require.js:16-17 | init has no effect the second time; the first time the module gets the dependencies and factory and is enabled or checked; unless it is asked for, nothing is enabled |
| ModuleLoader.Context.Enable | evaluation/src/site/resources/analysis/scripts/lib/require.js:22-23 | enable terminates on any graph, leaves the module enabled and every open slot registered with its dependency, and enables nothing the module does not depend on |
| ModuleLoader.Context.On | evaluation/src/site/resources/analysis/scripts/lib/require.js:12 | a listener is told at once if the module is defined, and is registered otherwise; either way its slot is accounted for |
| ModuleLoader.Context.Check | evaluation/src/site/resources/analysis/scripts/lib/require.js:18-19 | check fetches, or defines and announces, exactly what the invariant demands of the module it is called for |
| ModuleLoader.Context.Emit | evaluation/src/site/resources/analysis/scripts/lib/require.js:19-23 | emit discharges every listener of the module, although listeners define further modules while the loop runs |
| ModuleLoader.Context.BreakSlot | evaluation/src/site/resources/analysis/scripts/lib/require.js:12-13 | one slot of breakCycle: when scripts are all there the slot ends up satisfied |
| ModuleLoader.Context.BreakCycle | evaluation/src/site/resources/analysis/scripts/lib/require.js:12-13 | breakCycle terminates by the untraced modules of the registry, and with all scripts there the module it started from is defined |
| ModuleLoader.Context.Survey | evaluation/src/site/resources/analysis/scripts/lib/require.js:13 | checkLoaded finds the enabled require calls, and asks for a cycle check exactly if no script is missing |
| ModuleLoader.Context.CheckLoaded | evaluation/src/site/resources/analysis/scripts/lib/require.js:13-14 | if no script is missing every require call has run afterwards; otherwise nothing changes |
| ModuleLoader.Context.DefineCall | evaluation/src/site/resources/analysis/scripts/lib/require.js:14-16 | the first definition of a name counts, later ones are ignored |
| ModuleLoader.Context.Require | evaluation/src/site/resources/analysis/scripts/lib/require.js:25-26 | a require call makes a new anonymous module, enabled at once |
| PathNormalizer.TrimDots | evaluation/src/site/resources/analysis/scripts/lib/require.js:8-9 | the splicing loop terminates, keeps the meaning of the path, leaves no ".", makes of it what its turns make, and leaves it fully reduced if and only if ".." ".." nowhere follows a prefix that means a single name |
| PathNormalizer.Normalize | evaluation/src/site/resources/analysis/scripts/lib/require.js:8-9 | a relative id keeps the meaning of the name read from the folder of its parent, with the same if-and-only-if |
| PathNormalizer.ReadFromFolder | evaluation/src/site/resources/analysis/scripts/lib/require.js:8-9 | a name that begins with "." means what following it from the folder of the module that asks gives; any other name is followed from the top |
| PathNormalizer.MeaningReduced | evaluation/src/site/resources/analysis/scripts/lib/require.js:8-9 | the stack reading of a path holds no "." and no name followed by ".." |
| PathNormalizer.TurnMeaning | evaluation/src/site/resources/analysis/scripts/lib/require.js:9 | one turn of the loop is one step of the stack reading |
| PathNormalizer.StuckExample | evaluation/src/site/resources/analysis/scripts/lib/require.js:9 | the loop leaves "a/../.." as it is although it means ".." |
| PathNormalizer.IdSplits | evaluation/src/site/resources/analysis/scripts/lib/require.js:9 | splitting the joined id again loses nothing |
| Callbacks.LengthFollowsList | evaluation/src/site/resources/analysis/scripts/lib/jquery-1.11.0.js:2 | in every run, while a pass is under way firingLength is the length of the list until the list is disabled |
| Callbacks.PassesRunEachOnce | evaluation/src/site/resources/analysis/scripts/lib/jquery-1.11.0.js:2 | in every run, emptied passes included, no pass runs a callback twice, and of the callbacks still in the list when it ends that did not stand before its start it has run exactly those that were not skipped; only an emptied pass skips any |
| Callbacks.FiresInOrder | evaluation/src/site/resources/analysis/scripts/lib/jquery-1.11.0.js:2 | re-entrant fires begin in the order they were accepted and none is lost while the list may queue |
| Callbacks.AdditionsSkipped | evaluation/src/site/resources/analysis/scripts/lib/jquery-1.11.0.js:2 | in any pass, after anything the callbacks have done, an addition is skipped if and only if it lands at or before the present index; nothing is skipped if and only if the index is within the list or nothing is added |
| Callbacks.BehindStays | evaluation/src/site/resources/analysis/scripts/lib/jquery-1.11.0.js:2 | whatever a callback does next, and when it returns, what a pass has gone past stays behind it while it is in the list |
| Callbacks.SkippedExample | evaluation/src/site/resources/analysis/scripts/lib/jquery-1.11.0.js:2 | a run in which a surviving callback is skipped that way |
| Callbacks.ApplyKeeps | evaluation/src/site/resources/analysis/scripts/lib/jquery-1.11.0.js:2 | every operation, called from outside or from a running callback, keeps the invariant |
| CallbackLaws.HoldsContent | evaluation/src/site/resources/analysis/scripts/lib/jquery-1.11.0.js:2 | in every run, until the list is locked, disabled or fired with once, it holds what was added and not removed since, in the order added, once each if it is unique |
| CallbackLaws.RemoveLeaves | evaluation/src/site/resources/analysis/scripts/lib/jquery-1.11.0.js:2 | remove leaves the callbacks it was not told to remove, in order, and none of the others; so does what the running pass still has to call |
| CallbackLaws.UniqueHolds | evaluation/src/site/resources/analysis/scripts/lib/jquery-1.11.0.js:2 | a unique list never holds a callback twice |
| CallbackLaws.AcceptsUntilShut | evaluation/src/site/resources/analysis/scripts/lib/jquery-1.11.0.js:2 | in every run the fires accepted are, with once, the first one at most, and otherwise all until the list is first locked or disabled; one that has never fired comes back to life when it is emptied |
| CallbackLaws.FireCallsFirst | evaluation/src/site/resources/analysis/scripts/lib/jquery-1.11.0.js:2 | an accepted fire calls the first callback of the list with its arguments, or waits behind the running pass without changing it |
| CallbackLaws.ReturnCallsNext | evaluation/src/site/resources/analysis/scripts/lib/jquery-1.11.0.js:2 | a callback that returns is followed by the next one in the list with the same arguments; after the last one the next queued fire begins |
| CallbackLaws.LateAddition | evaluation/src/site/resources/analysis/scripts/lib/jquery-1.11.0.js:2 | what is added to a list that has fired with memory is called at once with the last arguments; any other addition calls nothing |
| CallbackLaws.MemoryKept | evaluation/src/site/resources/analysis/scripts/lib/jquery-1.11.0.js:2 | in every run without disable, a list with memory remembers the arguments of the last fire that began |
| CallbackLaws.NeverEmptied | evaluation/src/site/resources/analysis/scripts/lib/jquery-1.11.0.js:2 | in every run without empty, no pass skips a callback |
| CallbackState.AddKeeps | evaluation/src/site/resources/analysis/scripts/lib/jquery-1.11.0.js:2 | add keeps the invariant, also when it starts the extra pass of a list with memory |
| CallbackState.RemoveKeeps | evaluation/src/site/resources/analysis/scripts/lib/jquery-1.11.0.js:2 | remove keeps the invariant with firingLength and firingIndex moved along |
| CallbackState.SplicedRemoves | evaluation/src/site/resources/analysis/scripts/lib/jquery-1.11.0.js:2 | splicing one occurrence out and searching on removes what removing all occurrences at once removes |
| CallbackState.ProceedKeeps | evaluation/src/site/resources/analysis/scripts/lib/jquery-1.11.0.js:2 | the walk of a pass, the queued passes after it and their end keep the invariant |
| CallbackState.FireStepKeeps | evaluation/src/site/resources/analysis/scripts/lib/jquery-1.11.0.js:2 | fireWith keeps the invariant, whether it starts a pass, queues or is refused |
| CallbackState.ReturnKeeps | evaluation/src/site/resources/analysis/scripts/lib/jquery-1.11.0.js:2 | a callback that returns hands over to the next one, or ends its pass |
| Callbacks.CallbackList.Add | evaluation/src/site/resources/analysis/scripts/lib/jquery-1.11.0.js:2 | the mutable list does what the add step says |
| Callbacks.CallbackList.RemoveAll | evaluation/src/site/resources/analysis/scripts/lib/jquery-1.11.0.js:2 | the inArray/splice loop removes every occurrence and adjusts the two indices |
| Callbacks.CallbackList.Remove | evaluation/src/site/resources/analysis/scripts/lib/jquery-1.11.0.js:2 | the mutable list does what the remove step says |
| Callbacks.CallbackList.FireWith | evaluation/src/site/resources/analysis/scripts/lib/jquery-1.11.0.js:2 | the mutable list does what the fire step says |
| Callbacks.CallbackList.Fire | evaluation/src/site/resources/analysis/scripts/lib/jquery-1.11.0.js:2 | a pass starts from firingStart and goes on to its first callback |
| Callbacks.CallbackList.Proceed | evaluation/src/site/resources/analysis/scripts/lib/jquery-1.11.0.js:2 | the loop of the inner fire, the queue included |
| Callbacks.CallbackList.Return | evaluation/src/site/resources/analysis/scripts/lib/jquery-1.11.0.js:2 | the running callback returns and the walk goes on |
| Callbacks.CallbackList.Lock | evaluation/src/site/resources/analysis/scripts/lib/jquery-1.11.0.js:2 | lock stops the queue and, without memory, disables |
| Callbacks.CallbackList.Disable | evaluation/src/site/resources/analysis/scripts/lib/jquery-1.11.0.js:2 | disable drops list, queue and memory |
| Callbacks.CallbackList.Empty | evaluation/src/site/resources/analysis/scripts/lib/jquery-1.11.0.js:2 | empty leaves an empty list of length 0, the index where it was |
| Deferred.FirstSettleWins | evaluation/src/site/resources/analysis/scripts/lib/jquery-1.11.0.js:2 | in every run the state leaves pending with the first resolve or reject and never changes again, and only its arguments are ever passed on |
| Deferred.EveryCallbackOnce | evaluation/src/site/resources/analysis/scripts/lib/jquery-1.11.0.js:2 | once settled, the callbacks of that side, added before, during or after settling, have run exactly once each in the order added; any left wait behind a running one |
| Deferred.OneSideRuns | evaluation/src/site/resources/analysis/scripts/lib/jquery-1.11.0.js:2 | at most one of the two sides ever runs anything |
| Deferred.NoNotificationAfterSettling | evaluation/src/site/resources/analysis/scripts/lib/jquery-1.11.0.js:2 | after settling, notify has no effect |
| Deferred.NotificationsReach | evaluation/src/site/resources/analysis/scripts/lib/jquery-1.11.0.js:2 | in every run exactly the notifications sent before settling are accepted, in order; while pending the progress list holds every callback added, and a pass calls each one it did not begin behind |
| Deferred.ProgressIsList | evaluation/src/site/resources/analysis/scripts/lib/jquery-1.11.0.js:2 | the progress list of a promise is a callback list of its own, locked by the first settlement |
| Deferred.SettlingFirst | evaluation/src/site/resources/analysis/scripts/lib/jquery-1.11.0.js:2 | the three internal callbacks that note the state, disable the other side and lock progress run first |
| Deferred.DoKeeps | evaluation/src/site/resources/analysis/scripts/lib/jquery-1.11.0.js:2 | every operation keeps the promise invariant and moves the state only as it should |
| Deferred.DeferredObject.Settle | evaluation/src/site/resources/analysis/scripts/lib/jquery-1.11.0.js:2 | firing one of the three wired lists does all of this in place |
| Deferred.DeferredObject.Resolve | evaluation/src/site/resources/analysis/scripts/lib/jquery-1.11.0.js:2 | resolve on the wired object is the resolve step |
| Deferred.DeferredObject.Reject | evaluation/src/site/resources/analysis/scripts/lib/jquery-1.11.0.js:2 | reject on the wired object is the reject step |
| Deferred.DeferredObject.Done | evaluation/src/site/resources/analysis/scripts/lib/jquery-1.11.0.js:2 | done on the wired object is the addition to the done side |
| Deferred.DeferredObject.Fail | evaluation/src/site/resources/analysis/scripts/lib/jquery-1.11.0.js:2 | fail on the wired object is the addition to the fail side |
| Deferred.DeferredObject.Progress | evaluation/src/site/resources/analysis/scripts/lib/jquery-1.11.0.js:2 | progress on the wired object is the addition to the progress list |
| Deferred.DeferredObject.Notify | evaluation/src/site/resources/analysis/scripts/lib/jquery-1.11.0.js:2 | notify on the wired object is the notification step |
| ScannerRegistry.LiveIsHeldOrTakenOut | core/src/main/java/uk/ac/standrews/cs/shabdiz/ApplicationNetwork.java:263-321 | in every interleaving each live schedule is the one the map holds for its scanner or one a removeScanner call has taken out and not yet cancelled |
| ScannerRegistry.NextKeeps | core/src/main/java/uk/ac/standrews/cs/shabdiz/ApplicationNetwork.java:263-321 | every step between two lock operations keeps the registry invariant |
| ScannerRegistry.QuiescentSchedules | core/src/main/java/uk/ac/standrews/cs/shabdiz/ApplicationNetwork.java:584-618 | once all operations have ended, a scanner has one live schedule if it is registered and the last event the network handled enabled it, and none otherwise |
| ScannerRegistry.ExactlyOneSchedule | core/src/main/java/uk/ac/standrews/cs/shabdiz/ApplicationNetwork.java:584-618 | so it has exactly one if it is registered and enabled and none otherwise, provided that for a registered scanner the last event handled agrees with the flag |
| ScannerRegistry.SeparateSchedules | core/src/main/java/uk/ac/standrews/cs/shabdiz/ApplicationNetwork.java:263-321 | in every interleaving in which no operation on a scanner begins while another thread is in one on the same scanner, operations on other scanners interleaving freely, it has between its operations exactly one live schedule if and only if it is registered and enabled, and none otherwise |
| ScannerRegistry.OneAtATime | core/src/main/java/uk/ac/standrews/cs/shabdiz/ApplicationNetwork.java:263-321 | when operations run one at a time, after any sequence of them a scanner has exactly one live schedule if and only if it is registered and enabled, and none otherwise |
| ScannerRegistry.AddedRuns | core/src/main/java/uk/ac/standrews/cs/shabdiz/ApplicationNetwork.java:263-282 | adding a scanner registers it, and an idle network then has one live schedule of it if it is enabled and none otherwise |
| ScannerRegistry.LastWordCounts | core/src/main/java/uk/ac/standrews/cs/shabdiz/ApplicationNetwork.java:263-321 | after any sequence of operations a scanner is registered if and only if the last addition or removal of it was an addition, enabled if and only if it was last set so, and has one live schedule if and only if both hold |
| ScannerRegistry.SeparateRegisters | core/src/main/java/uk/ac/standrews/cs/shabdiz/ApplicationNetwork.java:263-321 | the same in every interleaving without overlap on that scanner: it is registered if and only if an addition of it has ended and no removal has begun since |
| ScannerRegistry.DoneAlone | core/src/main/java/uk/ac/standrews/cs/shabdiz/ApplicationNetwork.java:263-321 | an operation that runs alone is a run of the atomic steps and ends in the state the sequential operation gives |
| ScannerRegistry.AddAlone | core/src/main/java/uk/ac/standrews/cs/shabdiz/ApplicationNetwork.java:263-282 | addScanner alone ends in the sequential addition, of which AddedRuns says what it does |
| ScannerRegistry.RemoveAlone | core/src/main/java/uk/ac/standrews/cs/shabdiz/ApplicationNetwork.java:291-307 | removeScanner alone: taken out, cancelled, listener removed |
| ScannerRegistry.SetAlone | core/src/main/java/uk/ac/standrews/cs/shabdiz/Scanner.java:102-106 | setEnabled alone: the flag swapped, then one event for each registration of the listener if the value changed |
| ScannerRegistry.SweepAlone | core/src/main/java/uk/ac/standrews/cs/shabdiz/ApplicationNetwork.java:314-321 | setScanEnabled alone, the scanners in any order |
| ScannerRegistry.StaleEvent | core/src/main/java/uk/ac/standrews/cs/shabdiz/ApplicationNetwork.java:584-618 | a run from the start in which two threads set the flag, the events overtake each other, and a disabled scanner stays scheduled |
| ScannerRegistry.LateEvent | core/src/main/java/uk/ac/standrews/cs/shabdiz/ApplicationNetwork.java:291-307 | a run from the start in which an enabling event handled after removeScanner brings the scanner back, with nobody listening to it |
| ScannerRegistry.RemovedIsGone | core/src/main/java/uk/ac/standrews/cs/shabdiz/ApplicationNetwork.java:291-307 | removeScanner takes the scanner out of the map with no addition of it under way |
| ScannerRegistry.ComesBack | core/src/main/java/uk/ac/standrews/cs/shabdiz/ApplicationNetwork.java:584-618 | from there, in every run without another addScanner of it, it is registered again at some point if and only if an enabling event of it is handled |
| ScannerRegistry.CanComeBack | core/src/main/java/uk/ac/standrews/cs/shabdiz/ApplicationNetwork.java:584-618 | once nobody listens to it, some such run brings it back if and only if a thread is at that moment announcing that it was enabled |
| ScannerNetwork.ApplicationNetwork.AddScanner | core/src/main/java/uk/ac/standrews/cs/shabdiz/ApplicationNetwork.java:263-282 | the map, the live futures and the listener count change as the sequential addition of AddedRuns and LastWordCounts |
| ScannerNetwork.ApplicationNetwork.RemoveScanner | core/src/main/java/uk/ac/standrews/cs/shabdiz/ApplicationNetwork.java:291-307 | the same for removal |
| ScannerNetwork.ApplicationNetwork.PropertyChange | core/src/main/java/uk/ac/standrews/cs/shabdiz/ApplicationNetwork.java:586-617 | the listener replaces and cancels, or only cancels, the schedule in the map |
| ScannerNetwork.ApplicationNetwork.SetEnabled | core/src/main/java/uk/ac/standrews/cs/shabdiz/Scanner.java:102-106 | the setter with the network listening |
| ScannerNetwork.ApplicationNetwork.SetScanEnabled | core/src/main/java/uk/ac/standrews/cs/shabdiz/ApplicationNetwork.java:314-321 | the loop over the registered scanners |
| StateWaiters.NoLostWakeUp | core/src/main/java/uk/ac/standrews/cs/shabdiz/ApplicationDescriptor.java:154-172 | with any number of waiters and only the synchronized setter writing, a waiting latch is open if and only if a state of its set has been written since its check, and while it is closed the present state is not in the set |
| StateWaiters.OverdueIsPending | core/src/main/java/uk/ac/standrews/cs/shabdiz/ApplicationDescriptor.java:224-228 | while a write is under way, a waiter it matches whose latch is closed is one the writer has still to call |
| StateWaiters.CheckDecides | core/src/main/java/uk/ac/standrews/cs/shabdiz/ApplicationDescriptor.java:154-172 | in every run a waiter that found a state of its set at its check is done and not registered; any other one returns only once its latch is open |
| StateWaiters.MatchedReturns | core/src/main/java/uk/ac/standrews/cs/shabdiz/ApplicationDescriptor.java:154-228 | with only the synchronized setter writing, a waiter for which a state of its set has been written since its check can return whatever the others do, by the steps of that writer and its own |
| StateWaiters.OpenReturns | core/src/main/java/uk/ac/standrews/cs/shabdiz/ApplicationDescriptor.java:163-172 | a waiter whose latch is open returns by its own steps, whoever holds the lock, and takes its listener with it |
| StateWaiters.StateIsLatest | core/src/main/java/uk/ac/standrews/cs/shabdiz/ApplicationDescriptor.java:224-244 | in every run the state is the value of the last setter or successful compare-and-set |
| StateWaiters.OnlyTheGapLosesWakeUps | core/src/main/java/uk/ac/standrews/cs/shabdiz/ApplicationDescriptor.java:237-244 | with compare-and-set as well, once no write is under way a closed latch has missed one of its states, written since its check, if and only if at some step of the run a writer of such a state, written since the check, read the listeners while the waiter had not yet registered |
| StateWaiters.MatchedMeansWritten | core/src/main/java/uk/ac/standrews/cs/shabdiz/ApplicationDescriptor.java:224-244 | in every run an active waiter counts as matched if and only if a state of its set has been written since its check |
| StateWaiters.HitMeansLater | core/src/main/java/uk/ac/standrews/cs/shabdiz/ApplicationDescriptor.java:224-244 | in every run a write under way of a state of an active waiter counts as meant for it if and only if it was made after the check |
| StateWaiters.LostWakeUp | core/src/main/java/uk/ac/standrews/cs/shabdiz/ApplicationDescriptor.java:157-162 | a run in which a compare-and-set falls into that gap and the waiter stays asleep in a state it waits for |
| StateWaiters.SpuriousExactly | core/src/main/java/uk/ac/standrews/cs/shabdiz/ApplicationDescriptor.java:224-244 | a waiter that has checked and not yet registered, with none of its states written since, can be woken by some continuation of the run without any of them being written if and only if a thread has one of them in place and has not yet read the listeners |
| StateWaiters.SpuriousIsLate | core/src/main/java/uk/ac/standrews/cs/shabdiz/ApplicationDescriptor.java:224-244 | in every run an open latch was opened by one call of one writer, and if none of the states has been written since the check that writer had its value in place before it |
| StateWaiters.SpuriousWakeUp | core/src/main/java/uk/ac/standrews/cs/shabdiz/ApplicationDescriptor.java:237-244 | a run in which a late announcement wakes a waiter whose state has not been there since its check |
| StateWaiters.NextKeeps | core/src/main/java/uk/ac/standrews/cs/shabdiz/ApplicationDescriptor.java:154-244 | every atomic step keeps the invariant |
| StateWaiters.SetterAlone | core/src/main/java/uk/ac/standrews/cs/shabdiz/ApplicationDescriptor.java:224-228 | the setter, once it has the lock, can run to its end, and then the latches of exactly the matching listeners are open |
| StateWaiters.ApplicationDescriptor.SetApplicationState | core/src/main/java/uk/ac/standrews/cs/shabdiz/ApplicationDescriptor.java:224-228 | the listener loop opens exactly the latches that match a changed state |
| StateWaiters.ApplicationDescriptor.CompareAndSetApplicationState | core/src/main/java/uk/ac/standrews/cs/shabdiz/ApplicationDescriptor.java:237-244 | the same if the expected state was there, nothing otherwise |
| StateWaiters.ApplicationDescriptor.CheckOrRegister | core/src/main/java/uk/ac/standrews/cs/shabdiz/ApplicationDescriptor.java:157-162 | a closed latch is registered if and only if no state of the set is reached |
| StateWaiters.Latch.PropertyChange | core/src/main/java/uk/ac/standrews/cs/shabdiz/util/LatchedStateChangeListener.java:53-65 | a latch opens on a state of its set and never closes |
| ScanCycle.RemainingExact | core/src/main/java/uk/ac/standrews/cs/shabdiz/ConcurrentScanner.java:155-158 | waiting for the remaining time overshoots the timeout by exactly the elapsed time modulo the unit of the timeout |
| ScanCycle.AwaitBound | core/src/main/java/uk/ac/standrews/cs/shabdiz/ConcurrentScanner.java:132-158 | for any tasks, the waiting ends by its entry or within start, timeout and one unit less a nanosecond |
| ScanCycle.AwaitExactly | core/src/main/java/uk/ac/standrews/cs/shabdiz/ConcurrentScanner.java:132-158 | the whole waiting: from task to task, each as soon as it is done, until the first that will not be done before the scanner is found disabled, an interrupt, or the timeout and what truncation adds; and the moment it ends |
| ScanCycle.DisabledEnds | core/src/main/java/uk/ac/standrews/cs/shabdiz/ConcurrentScanner.java:155-158 | if the scanner is disabled or the thread interrupted when the loop turns to a task that is not done, the waiting ends at that moment |
| ScanCycle.DisabledForGood | core/src/main/java/uk/ac/standrews/cs/shabdiz/ConcurrentScanner.java:155-158 | once the scanner is disabled for good the rest of the loop takes no time |
| ScanCycle.OnlyNanosecondsInTime | core/src/main/java/uk/ac/standrews/cs/shabdiz/ConcurrentScanner.java:132-158 | it ends by its entry or the timeout for every task list if and only if the unit is a nanosecond |
| ScanCycle.AwaitStops | core/src/main/java/uk/ac/standrews/cs/shabdiz/ConcurrentScanner.java:132-158 | it passes only tasks that are done, and gives up only if interrupted, if the scanner was disabled meanwhile or if the timeout has elapsed |
| ScanCycle.Outlasts | core/src/main/java/uk/ac/standrews/cs/shabdiz/util/Duration.java:308-311 | for any coarser unit, two tasks for which the waiting outlasts a timeout of one unit by a unit less a nanosecond, the most the bound allows |
| ScanCycle.FutureScan.Get | core/src/main/java/uk/ac/standrews/cs/shabdiz/ConcurrentScanner.java:136-151 | a bounded wait on a future: it ends at once if the task is done or cancelled, and otherwise when it becomes so, at the bound or at an interrupt, one already pending included |
| ScanCycle.FutureScan.Cancel | core/src/main/java/uk/ac/standrews/cs/shabdiz/ConcurrentScanner.java:160-165 | cancelling makes a future done and leaves a finished one alone |
| ScanCycle.ConcurrentScanner.AwaitScanCompletion | core/src/main/java/uk/ac/standrews/cs/shabdiz/ConcurrentScanner.java:132-158 | the loop over the futures, with tasks of any duration, cancelled by others or not, enabling changes and interrupts at any moment, is the waiting those theorems are about |
| ScanCycle.ConcurrentScanner.CancelLingeringScans | core/src/main/java/uk/ac/standrews/cs/shabdiz/ConcurrentScanner.java:160-165 | every future is done afterwards, cancelled now if it was not done before and left alone if it was |
| ScanCycle.ConcurrentScanner.Scan | core/src/main/java/uk/ac/standrews/cs/shabdiz/ConcurrentScanner.java:54-130 | a cycle ends with one future per descriptor, in order, all done, those cancelled that had not ended and no others, and no task of it begins later |
| Lifecycle.ProbeRange | core/src/main/java/uk/ac/standrews/cs/shabdiz/AbstractApplicationManager.java:68-140 | the states the default probe can yield are exactly RUNNING, UNKNOWN, AUTH, UNREACHABLE, INVALID and NO_AUTH |
| Lifecycle.ProbeMeans | core/src/main/java/uk/ac/standrews/cs/shabdiz/AbstractApplicationManager.java:68-140 | for each state the probe yields it if and only if the call to the application and the check of the host end in the way that state stands for |
| Lifecycle.FirstTellingCause | core/src/main/java/uk/ac/standrews/cs/shabdiz/AbstractApplicationManager.java:114-140 | a failed host check resolves to the state of the first telling throwable of the cause chain |
| Lifecycle.NoTellingCause | core/src/main/java/uk/ac/standrews/cs/shabdiz/AbstractApplicationManager.java:114-140 | and to UNREACHABLE if no cause tells anything |
| Lifecycle.ProbeOverwritesOnlyWhatItRead | core/src/main/java/uk/ac/standrews/cs/shabdiz/StatusScanner.java:53-61 | in every interleaving what a status scan writes is the result of its own probe, and only over the value it had read before that; a different value put there meanwhile survives |
| Lifecycle.DeployedOnlyAfterDeployment | core/src/main/java/uk/ac/standrews/cs/shabdiz/ApplicationNetwork.java:131-137 | DEPLOYED is there only after one deploy call had its reference from the manager, set it and then set the state, that thread doing nothing else between |
| Lifecycle.KilledOnlyAfterKill | core/src/main/java/uk/ac/standrews/cs/shabdiz/ApplicationNetwork.java:170-174 | KILLED is there only after one kill call saw the manager's kill return and then set the state, that thread doing nothing else between |
| Lifecycle.NeverLaunched | core/src/main/java/uk/ac/standrews/cs/shabdiz/AbstractApplicationManager.java:68-140 | LAUNCHED never appears, nor any state but the probed ones, DEPLOYED and KILLED |
| Lifecycle.ScanRemovesOnlyLost | core/src/main/java/uk/ac/standrews/cs/shabdiz/AutoRemoveScanner.java:39-51 | in every run a descriptor is removed only by a thread that began a client remove, or a remove scan that itself read UNREACHABLE or INVALID, and has done nothing since |
| Lifecycle.ScanDeploysOnlyIdle | core/src/main/java/uk/ac/standrews/cs/shabdiz/AutoDeployScanner.java:43-59 | in every run a thread whose manager deploys either began a client deploy or a deploy scan that itself read AUTH, and has done nothing since |
| Lifecycle.ScanKillsOnlyRunning | core/src/main/java/uk/ac/standrews/cs/shabdiz/AutoKillScanner.java:42-58 | in every run a thread whose manager kills either began a client kill or a kill scan that itself read RUNNING or DEPLOYED, and has done nothing since |
| Lifecycle.ScansAct | core/src/main/java/uk/ac/standrews/cs/shabdiz/AutoDeployScanner.java:43-59 | conversely, each scan of an idle thread acts on exactly those states |
| Lifecycle.StateIsLatest | core/src/main/java/uk/ac/standrews/cs/shabdiz/ApplicationNetwork.java:131-174 | in every run state, reference and removal are what the moves alone say: the last client or probe write that took effect |
| Lifecycle.ClientsWork | core/src/main/java/uk/ac/standrews/cs/shabdiz/ApplicationNetwork.java:131-174 | whatever the others have done, a client kill, deploy or remove can run to its end and has its effect |
| Lifecycle.RunExplained | core/src/main/java/uk/ac/standrews/cs/shabdiz/AutoKillScanner.java:42-58 | every thread of every run of status, kill, deploy and remove scans and client calls is where its own past steps put it, the states its scans have read included |
| BoundingBox.CubicContained | evaluation/src/site/resources/analysis/scripts/lib/highcharts-4.0.1/modules/canvas-tools.src.js:709-750 | in exact real arithmetic the box contains the cubic at every t from 0 to 1, for any coefficients, degenerate ones included |
| BoundingBox.CubicTight | evaluation/src/site/resources/analysis/scripts/lib/highcharts-4.0.1/modules/canvas-tools.src.js:709-750 | each side of the box touches the curve or is where it was, and what the box held before it still holds |
| BoundingBox.Enclosed | evaluation/src/site/resources/analysis/scripts/lib/highcharts-4.0.1/modules/canvas-tools.src.js:715-749 | every parameter lies between two parameters the box looks at, with the curve monotone between them |
| BoundingBox.Simpson | evaluation/src/site/resources/analysis/scripts/lib/highcharts-4.0.1/modules/canvas-tools.src.js:716-725 | the coefficients a, b, c are the slope of the curve: Simpson's rule gives the difference of two values exactly |
| BoundingBox.QuadraticEscapes | evaluation/src/site/resources/analysis/scripts/lib/highcharts-4.0.1/modules/canvas-tools.src.js:701-707 | a quadratic curve that leaves the box addQuadraticCurve makes for it |
| BoundingBox.BoxReaches | evaluation/src/site/resources/analysis/scripts/lib/highcharts-4.0.1/modules/canvas-tools.src.js:709-750 | the box after a cubic is the smallest interval that holds what it held before and the whole curve: a coordinate lies in it if and only if the curve or the old box comes down to it and up to it |
| BoundingBox.QuadraticExactly | evaluation/src/site/resources/analysis/scripts/lib/highcharts-4.0.1/modules/canvas-tools.src.js:701-707 | on each axis the box of a quadratic curve contains it at every t from 0 to 1 if and only if the cubic with the changed control coordinates, or the box before, reaches as far as the curve at the point, if any, where it turns |
| BoundingBox.QuadraticContained | evaluation/src/site/resources/analysis/scripts/lib/highcharts-4.0.1/modules/canvas-tools.src.js:701-707 | so it does on both axes if the two coordinates that change places are equal |
| BoundingBox.Box.AddPoint | evaluation/src/site/resources/analysis/scripts/lib/highcharts-4.0.1/modules/canvas-tools.src.js:674-692 | the corners after a point, with null and not-a-number coordinates |
| BoundingBox.Box.AddBoundingBox | evaluation/src/site/resources/analysis/scripts/lib/highcharts-4.0.1/modules/canvas-tools.src.js:696-699 | the corners after another box |
| BoundingBox.Box.AddExtrema | evaluation/src/site/resources/analysis/scripts/lib/highcharts-4.0.1/modules/canvas-tools.src.js:715-749 | the loop body adds the curve's values at exactly its critical points inside (0, 1) |
| BoundingBox.Box.AddBezierCurve | evaluation/src/site/resources/analysis/scripts/lib/highcharts-4.0.1/modules/canvas-tools.src.js:709-750 | both axes are extended as the cubic of that axis demands |
| BoundingBox.Box.AddQuadraticCurve | evaluation/src/site/resources/analysis/scripts/lib/highcharts-4.0.1/modules/canvas-tools.src.js:701-707 | the inner control coordinates change places, as in the source |
| SvgPath.EndsContained | evaluation/src/site/resources/analysis/scripts/lib/highcharts-4.0.1/modules/canvas-tools.src.js:1510-1686 | the box contains the end point of every segment |
| SvgPath.CurvesContained | evaluation/src/site/resources/analysis/scripts/lib/highcharts-4.0.1/modules/canvas-tools.src.js:1559-1580 | the box contains every cubic segment entirely |
| SvgPath.LinesContained | evaluation/src/site/resources/analysis/scripts/lib/highcharts-4.0.1/modules/canvas-tools.src.js:1519-1558 | in a path that starts with a move the box contains every line entirely |
| SvgPath.AllJoined | evaluation/src/site/resources/analysis/scripts/lib/highcharts-4.0.1/modules/canvas-tools.src.js:1516-1683 | every segment starts where the one before ends, or at the start of its subpath |
| SvgPath.DrawsAsWritten | evaluation/src/site/resources/analysis/scripts/lib/highcharts-4.0.1/modules/canvas-tools.src.js:1510-1686 | every path, read from its beginning, draws one segment for each group of its numbers, and each begins where the one before ended and has the end and control points that its letter and its own numbers say, capital or small |
| SvgPath.NumbersOwned | evaluation/src/site/resources/analysis/scripts/lib/highcharts-4.0.1/modules/canvas-tools.src.js:1510-1686 | in a path that begins with a letter, and where a letter follows each command that draws nothing, every number belongs to exactly one segment |
| SvgPath.BoxTight | evaluation/src/site/resources/analysis/scripts/lib/highcharts-4.0.1/modules/canvas-tools.src.js:1510-1686 | each side of the box of a path touches one of its segments |
| SvgPath.AllMarked | evaluation/src/site/resources/analysis/scripts/lib/highcharts-4.0.1/modules/canvas-tools.src.js:1481-1492 | the marker of the end point of every segment is in its place, with the direction from its last control point; that of a move looks towards the first control point of a curve that comes next |
| SvgPath.SmoothControls | evaluation/src/site/resources/analysis/scripts/lib/highcharts-4.0.1/modules/canvas-tools.src.js:1463-1601 | in every path, read from its beginning, a curve of a smooth command has the control point that sections 8.3.6 and 8.3.7 of SVG 1.1 ask for if and only if the command letters and its position in the command are such, or the last control point and the current point coincide |
| SvgPath.SecondSmoothCubic | evaluation/src/site/resources/analysis/scripts/lib/highcharts-4.0.1/modules/canvas-tools.src.js:1463-1471 | "M 0 0 S 1 1 2 0 3 1 4 0" gives the second curve (2, 0) where (3, -1) is asked for |
| SvgPath.SecondSmoothQuadratic | evaluation/src/site/resources/analysis/scripts/lib/highcharts-4.0.1/modules/canvas-tools.src.js:1591-1601 | "M 0 0 T 1 1 2 2" gives the second curve (1, 1) where (2, 2) is asked for |
| SvgPath.SmoothAfterQuadratic | evaluation/src/site/resources/analysis/scripts/lib/highcharts-4.0.1/modules/canvas-tools.src.js:1591-1601 | "M 0 0 Q 1 1 2 0 T 4 0" gives the last curve (2, 0) where (3, -1) is asked for |
| SvgPath.SmoothAfterCubic | evaluation/src/site/resources/analysis/scripts/lib/highcharts-4.0.1/modules/canvas-tools.src.js:1591-1601 | "M 0 0 C 0 1 1 1 2 0 T 4 0" gives the last curve (3, -1) where (2, 0) is asked for |
| SvgPath.PathParser.Path | evaluation/src/site/resources/analysis/scripts/lib/highcharts-4.0.1/modules/canvas-tools.src.js:1510-1686 | reading terminates by tokens consumed; the segments are those of the path, the box is theirs, and the marker points and angles are exactly theirs |
| SvgPath.PathParser.DrawNext | evaluation/src/site/resources/analysis/scripts/lib/highcharts-4.0.1/modules/canvas-tools.src.js:1516-1682 | one command: its segments are drawn, boxed and marked, and at least one token is consumed |
| SvgPath.PathParser.DrawLine | evaluation/src/site/resources/analysis/scripts/lib/highcharts-4.0.1/modules/canvas-tools.src.js:1519-1540 | one line segment of the commands M and L |
| SvgPath.PathParser.DrawHorizontal | evaluation/src/site/resources/analysis/scripts/lib/highcharts-4.0.1/modules/canvas-tools.src.js:1541-1549 | one line segment of the command H |
| SvgPath.PathParser.DrawVertical | evaluation/src/site/resources/analysis/scripts/lib/highcharts-4.0.1/modules/canvas-tools.src.js:1550-1558 | one line segment of the command V |
| SvgPath.PathParser.DrawCubic | evaluation/src/site/resources/analysis/scripts/lib/highcharts-4.0.1/modules/canvas-tools.src.js:1559-1580 | one cubic segment of the commands C and S |
| SvgPath.PathParser.DrawQuadratic | evaluation/src/site/resources/analysis/scripts/lib/highcharts-4.0.1/modules/canvas-tools.src.js:1581-1601 | one quadratic segment of the commands Q and T |
| SvgPath.PathParser.DrawArc | evaluation/src/site/resources/analysis/scripts/lib/highcharts-4.0.1/modules/canvas-tools.src.js:1602-1677 | one arc segment: two markers, and its end point boxed |
| SvgPath.PathParser.AddMarker | evaluation/src/site/resources/analysis/scripts/lib/highcharts-4.0.1/modules/canvas-tools.src.js:1481-1492 | the point and its angle appended, and a missing angle before it filled in |
| SvgPath.PathParser.GetMarkerAngles | evaluation/src/site/resources/analysis/scripts/lib/highcharts-4.0.1/modules/canvas-tools.src.js:1495-1507 | each missing angle becomes the next one present, the others stay |
| JsonPrinter.RoundTrip | evaluation/src/site/resources/analysis/scripts/lib/json.js:220-401 | for every finite tree, decoding the printed text by RFC 8259 gives the tree back, without undefined members, null for undefined elements and non-finite numbers, whatever whitespace it was indented with |
| JsonPrinter.PrintParses | evaluation/src/site/resources/analysis/scripts/lib/json.js:220-346 | the same for a value in the middle of a text, in any gap |
| JsonPrinter.QuoteRead | evaluation/src/site/resources/analysis/scripts/lib/json.js:203-217 | a quoted string of any UTF-16 units is read back (section 7 of RFC 8259) |
| JsonPrinter.Printer.Str | evaluation/src/site/resources/analysis/scripts/lib/json.js:220-346 | str restores the gap it lengthens and gives the text of the value |
| JsonPrinter.Printer.Stringify | evaluation/src/site/resources/analysis/scripts/lib/json.js:361-401 | stringify, whatever the space argument; with whitespace the text decodes to the value |
| JsonPrinter.Printer.QuoteText | evaluation/src/site/resources/analysis/scripts/lib/json.js:203-217 | the string replaced unit by unit |
| JsonLayout.LayoutOnly | evaluation/src/site/resources/analysis/scripts/lib/json.js:299-303 | printing with any whitespace indent differs from compact printing only in whitespace outside strings |
| JsonLayout.OnlyWhitespaceIndents | evaluation/src/site/resources/analysis/scripts/lib/json.js:383-385 | the text decodes to the value for every value if and only if the indent string is whitespace |
| JsonLayout.StripPrint | evaluation/src/site/resources/analysis/scripts/lib/json.js:220-346 | the same for a value in the middle of a text, in any gap |
| JsonFormat.IndentedIsSpread | evaluation/src/site/resources/analysis/scripts/lib/json.js:299-303 | printing with an indent is printing without one and then breaking lines: after each bracket that opens and each comma, before each bracket that closes, indented once for each open bracket, with a space after each colon |
| JsonFormat.SpreadPrint | evaluation/src/site/resources/analysis/scripts/lib/json.js:220-346 | the same for a value in the middle of a text, at any depth |
| JsonFormat.UnitShape | evaluation/src/site/resources/analysis/scripts/lib/json.js:203-217 | a unit is printed as itself unless it is unsafe, a quote or a backslash; then by its short escape, or by its four hexadecimal digits |
| JsonFormat.QuoteSafe | evaluation/src/site/resources/analysis/scripts/lib/json.js:203-217 | no quoted string holds an unsafe unit, and a string without such, quotes and backslashes is quoted as it is |
| JsonText.NumberStops | evaluation/src/site/resources/analysis/scripts/lib/json.js:252-256 | a number literal of section 6 of RFC 8259 followed by a separator is read to its end |
| Alphanum.ChunksJoin | evaluation/src/site/resources/analysis/scripts/lib/alphanum.js:71-84 | the chunks are maximal alternating runs and join back to the string |
| Alphanum.RunsUnique | evaluation/src/site/resources/analysis/scripts/lib/alphanum.js:71-84 | there is no other way to cut a string into maximal runs |
| Alphanum.Chunkify | evaluation/src/site/resources/analysis/scripts/util.js:6-20 | the character loop computes them |
| Alphanum.Alphanum | evaluation/src/site/resources/analysis/scripts/util.js:22-34 | the comparison loop computes the comparison of the chunks |
| Alphanum.Antisymmetric | evaluation/src/site/resources/analysis/scripts/lib/alphanum.js:70-98 | on the domain the comparison changes sign with its arguments and is zero only for equal strings |
| Alphanum.Transitive | evaluation/src/site/resources/analysis/scripts/lib/alphanum.js:70-98 | on the domain the comparison is transitive |
| Alphanum.SmallerFirst | evaluation/src/site/resources/analysis/scripts/util.js:22-34 | on the domain a string comes before another if and only if, where their chunks first differ, it has the smaller number, or otherwise the smaller unit where the chunks first differ, or if its chunks are a proper beginning of the other's |
| Alphanum.AlphanumSort | evaluation/src/site/resources/analysis/scripts/lib/alphanum.js:28-61 | sorting non-empty strings of the domain leaves the array a permutation of itself, in order |
| Alphanum.OnlyOneOrder | evaluation/src/site/resources/analysis/scripts/lib/alphanum.js:43-57 | that result is the only one, whatever sorting algorithm the engine uses |
| Alphanum.SiftDown | evaluation/src/site/resources/analysis/scripts/lib/alphanum.js:43-57 | one step of the insertion sort that stands for the engine's |
| QueryCodec.ArrayRoundTrip | evaluation/src/site/resources/analysis/scripts/query.js:3-20 | decoding an encoded array gives the magnitudes of its numbers, the empty array included |
| QueryCodec.ArrayRestored | evaluation/src/site/resources/analysis/scripts/query.js:3-20 | an array comes back unchanged if and only if it holds no negative number |
| QueryCodec.RoundTrip | evaluation/src/site/resources/analysis/scripts/query.js:31-94 | what comes back of a whole query, whatever state it is decoded into |
| QueryCodec.QueryRestored | evaluation/src/site/resources/analysis/scripts/query.js:31-94 | a query comes back unchanged if and only if no selection is negative and its data type holds no "_" |
| QueryCodec.AnyText | evaluation/src/site/resources/analysis/scripts/query.js:44-94 | what any text decodes to: a blank one to no selections and the data type as it was, any other to the fields between its "_", each by its place, those that are missing left as they were |
| QueryCodec.BlankIsEmpty | evaluation/src/site/resources/analysis/scripts/query.js:44-55 | a blank text decodes to the same as the encoding of the query without selections, if and only if the data type can be written |
| QueryCodec.DecimalRead | evaluation/src/site/resources/analysis/scripts/query.js:12-20 | a number is read from its leading decimal digits, after blanks and a sign, whatever follows |
| QueryCodec.HexadecimalRead | evaluation/src/site/resources/analysis/scripts/query.js:12-20 | after "0x" the digits are hexadecimal |
| QueryCodec.HexDigits | evaluation/src/site/resources/analysis/scripts/query.js:12-20 | a hexadecimal digit counts as its place among the sixteen, capital or small |
| QueryCodec.NothingRead | evaluation/src/site/resources/analysis/scripts/query.js:12-20 | without a digit where one is needed there is no number |
| QueryCodec.EncodeArray | evaluation/src/site/resources/analysis/scripts/query.js:3-11 | the accumulating loop |
| QueryCodec.DecodeArray | evaluation/src/site/resources/analysis/scripts/query.js:12-20 | the splitting loop |
| QueryCodec.Query.Encode | evaluation/src/site/resources/analysis/scripts/query.js:31-43 | the fields joined in order |
| QueryCodec.Query.Decode | evaluation/src/site/resources/analysis/scripts/query.js:44-94 | the fields assigned by position, the reset on a blank text, values beyond the ninth ignored |
| ScenarioFilter.GroupBy | evaluation/src/site/resources/analysis/scripts/util.js:36-47 | one group for each value that occurs, its members in order |
| ScenarioFilter.GroupsPartition | evaluation/src/site/resources/analysis/scripts/util.js:36-47 | each scenario is in the group of its own value as often as it occurs, and in no other |
| ScenarioFilter.Matches | evaluation/src/site/resources/analysis/scripts/query.js:180-240 | matches fails if and only if a churn index is unknown, and otherwise narrows the selected churn groups property by property |
| ScenarioFilter.MatchesCount | evaluation/src/site/resources/analysis/scripts/query.js:180-240 | for any selections it yields each scenario as often as the one-pass filter, times the number of times its churn key is selected |
| ScenarioFilter.MatchesPermutePlain | evaluation/src/site/resources/analysis/scripts/query.js:180-240 | for duplicate-free churn selections it is a permutation of the one-pass filter "each of the seven properties has a selected key" |
| ScenarioFilter.TakenInOrder | evaluation/src/site/resources/analysis/scripts/util.js:36-47 | groups and narrowed selections keep the order of the scenarios |
| ScenarioFilter.MatchesInOrder | evaluation/src/site/resources/analysis/scripts/query.js:180-240 | the matches of churn selections come in the order of the selections, and for each in the order of the scenarios |
| ScenarioFilter.SelectionFollowsBoxes | evaluation/src/site/resources/analysis/scripts/action.js:17-27 | from a duplicate-free selection any sequence of clicks keeps it duplicate-free, and an index is selected if and only if its box is checked |
| ScenarioFilter.OthersStay | evaluation/src/site/resources/analysis/scripts/action.js:17-27 | a click leaves the other indices in their order, and what is newly selected comes last |
| ScenarioFilter.Selection.AddIfAbsent | evaluation/src/site/resources/analysis/scripts/util.js:76-82 | appended if and only if absent |
| ScenarioFilter.Selection.RemoveIfExists | evaluation/src/site/resources/analysis/scripts/util.js:83-90 | the first occurrence taken out, if there is one |
| ScenarioFilter.Selection.FilterChecked | evaluation/src/site/resources/analysis/scripts/action.js:17-27 | one click |
| CsvTable.ReadPrinted | evaluation/src/site/resources/analysis/scripts/lib/highcharts-4.0.1/modules/data.src.js:271-316 | reading a printed table gives back exactly the rows that are neither blank nor comments |
| CsvTable.ReadAny | evaluation/src/site/resources/analysis/scripts/lib/highcharts-4.0.1/modules/data.src.js:271-316 | the same for a table parted by commas or by tabs, with any of the three line breaks |
| CsvTable.SkippedMeans | evaluation/src/site/resources/analysis/scripts/lib/highcharts-4.0.1/modules/data.src.js:294-296 | a row is passed over if and only if it is blank, or its first character that is not is "#" |
| CsvTable.CellsRead | evaluation/src/site/resources/analysis/scripts/lib/highcharts-4.0.1/modules/data.src.js:271-316 | in any text, cell c of row r is item c of the r-th line that is not passed over, and there is none where that line is too short |
| CsvTable.TableRestored | evaluation/src/site/resources/analysis/scripts/lib/highcharts-4.0.1/modules/data.src.js:271-316 | a table parted by commas or by tabs, with any of the three line breaks, comes back unchanged if and only if it has rows and none of them is skipped |
| CsvTable.GetCSV | evaluation/src/site/resources/analysis/scripts/lib/highcharts-4.0.1/modules/export-csv.js:46-55 | the nested loop prints the rows; without columns it fails |
| CsvTable.Data.ParseCSV | evaluation/src/site/resources/analysis/scripts/lib/highcharts-4.0.1/modules/data.src.js:271-316 | the loop over lines and items fills the columns |
| ColumnAllocator.ColumnsDistinct | evaluation/src/site/resources/analysis/scripts/lib/highcharts-4.0.1/modules/data.src.js:739-773 | the columns handed out rise strictly, lie in the table, and none is named in the options |
| ColumnAllocator.KeptComplete | evaluation/src/site/resources/analysis/scripts/lib/highcharts-4.0.1/modules/data.src.js:744-751 | every kept builder has all its readers assigned |
| ColumnAllocator.DefinedInOrder | evaluation/src/site/resources/analysis/scripts/lib/highcharts-4.0.1/modules/data.src.js:744-751 | free columns go to the kept builders in order; once one is dropped none is left |
| ColumnAllocator.FurtherColumns | evaluation/src/site/resources/analysis/scripts/lib/highcharts-4.0.1/modules/data.src.js:754-773 | each further series reads x from column 0 and its own stretch of the free columns |
| ColumnAllocator.FilledOk | evaluation/src/site/resources/analysis/scripts/lib/highcharts-4.0.1/modules/data.src.js:902-925 | waiting readers get the free columns in order, the others keep theirs, and all have one if and only if there were enough |
| ColumnAllocator.FilledComplete | evaluation/src/site/resources/analysis/scripts/lib/highcharts-4.0.1/modules/data.src.js:902-925 | in particular a builder is complete if and only if it waits for no more columns than are free |
| ColumnAllocator.LoopEnds | evaluation/src/site/resources/analysis/scripts/lib/highcharts-4.0.1/modules/data.src.js:754-773 | the loop for further series ends after some number of turns if and only if each series takes a value column, or no column but column 0 is free |
| ColumnAllocator.Allocate | evaluation/src/site/resources/analysis/scripts/lib/highcharts-4.0.1/modules/data.src.js:739-773 | with at least one value column per series the loop terminates with the free list empty |
| ColumnAllocator.GetFreeIndexes | evaluation/src/site/resources/analysis/scripts/lib/highcharts-4.0.1/modules/data.src.js:675-704 | the free list is the columns of the table not named in the options |
| ColumnAllocator.SeriesBuilder.PopulateColumns | evaluation/src/site/resources/analysis/scripts/lib/highcharts-4.0.1/modules/data.src.js:902-925 | the readers are filled in place and the free list shortened |
| ColumnAllocator.PopulateFurther | evaluation/src/site/resources/analysis/scripts/lib/highcharts-4.0.1/modules/data.src.js:753-773 | the loop that makes further series |

## Left out

- Module loader: plugins, errors, timeouts, `undef`, the `require`, `exports` and `module` handlers, map, packages and shim configuration, and factories that call the loader while they run.
- Module loader: `defineEmitComplete`; a defined module has left the registry, so it never decides.
- Callbacks: exceptions thrown by a callback, and the `stopOnFalse` flag.
- Deferred: `then`, `always`, `when` and the promise object; callbacks of different lists may return in any order here, which allows more runs than the call stack does.
- Scanner network: `shutdown` and cancelScheduledScanners; listeners other than the network's. A scan that throws ends its schedule, and the theorems on schedules say so.
- Scan cycle: the exceptional path of `scan`, where cancelling is skipped.
- Descriptor lifecycle: clients that call `setApplicationState` themselves, and managers that override the probe; a value that is changed and changed back between read and swap cannot be told from one that stayed.
- StateWaiters: a waiting thread that is interrupted.
- BoundingBox.QuadraticContained: goes one way only; a curve may stay in its box although the permuted coordinates differ, and `BoundingBox.QuadraticExactly` says when. For a whole path only the end points of quadratic curves are claimed.
- SvgPath: the regular expressions that split path data into tokens, the drawing context, the trigonometry of arcs, and containment of quadratic curves and arcs beyond their end points.
- Geometry: floating-point rounding and infinities; not-a-number coordinates are modelled.
- JSON: `toJSON`, replacers and `JSON.parse`; number texts are any literal of RFC 8259, their conversion is not modelled.
- Alphanum: case-insensitive sorting; digit runs with dots, leading zeros or beyond exact integers, and other runs that read as numbers, lie outside the domain of the order.
- Alphanum.AlphanumSort: an insertion sort stands for the engine's sort; `OnlyOneOrder` shows that the choice does not matter.
- Query: numbers beyond exact integers; the hash of the page and `update`.
- Filter: property values that are not strings, and values that name members every object has.
- Table: the start, end and delimiter options and `switchRowsAndColumns`.
- ColumnAllocator.Allocate: the allocation without value columns is covered by `ColumnAllocator.LoopEnds` on its loop only.
- Columns: getColumnDistribution, and the reading of values once columns are assigned.
- `util.sortBy`, charts, menus, themes, network and process work, and the minified copies of the chart modules.
