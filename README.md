# TurboHarmony in Dafny

TurboHarmony keeps Alpine.js components alive across Turbo page updates.
It listens to Turbo Drive, Turbo Stream and Turbo Frame events. When a
subtree of the page is replaced, it decides whether to rebuild the Alpine
components in it, rebuild from an `[x-data]` ancestor, or only initialise
the element. A ledger (`initializedElements`) keeps it from initialising
the same component twice. It can also snapshot component data before the
rebuild and write the data back afterwards. This project models three parts:

- the full engine, `src/index.js`;
- the lite engine, `src/index.lite.js`;
- the conditional-compilation filter that builds the bundles, `scripts/preprocess.js`.

It proves properties of each.

Layout:

- `wrappers.dfy` and `text.dfy` hold `Option`/`Result` and the string
  built-ins the source relies on: `trim`, `split('\n')`, `join('\n')`,
  `startsWith`, `endsWith`, and decimal line numbers in messages.
- `preprocess.dfy` models `preprocess` as a loop over the lines, specified
  by a line-by-line step function. It also models the `transform` hook of
  `preprocessPlugin`. `preprocess_properties.dfy` proves what the filter
  does to well-formed and malformed inputs.
- `js.dfy` models Alpine data objects as a JavaScript value graph with
  object identities, JSON values, and `safeStringify` followed by
  `JSON.parse`. `js_properties.dfy` proves the snapshot properties.
- `dom.dfy` models the document as a tree of node ids in document order,
  with `querySelectorAll`, `querySelector`, `closest` and `getElementKey`.
- `platform.dfy` models what the engines call but cannot see: Alpine's
  `destroyTree`, `initTree` and `start`, the user's hooks, the globals,
  Turbo events and the metrics counters. A call to the outside world is
  recorded as an effect in a trace. A call either returns or throws.
- `harmony.dfy` holds the full engine as functions from the old state to
  the new one. `harmony_engine.dfy` holds the class `TurboHarmony`, whose
  fields are the instance fields. Each method changes those fields step by
  step and is proved to agree with the matching function.
  `harmony_properties.dfy` holds the properties.
- `harmony_lite.dfy`, `harmony_lite_engine.dfy` and
  `harmony_lite_properties.dfy` do the same for the lite engine.

The full engine is modelled as `src/index.js` is written, apart from what
"## Left out" lists. Its
`// @if DEBUG` and `// @if PRESERVE_STATE` markers are comments in that
file, so the metrics, the lifecycle map and state preservation all run.
Timers are modelled as a queue of pending callbacks. The caller chooses
which one fires next (`RunTask`). A promise rejection that nothing
handles, for example from a hook written as an `async` function, is an
input of its own (`ReportRejection`): the hook call itself returns
normally.

Behaviours of the code a reader might not expect, kept as written:

- **Calling `reinitializeAlpineInElement` twice is not a no-op.** The
  second call queues nothing, as `SecondPassQueuesNothing` proves. It then
  takes the ancestor path or the element-only path, so Alpine is called
  again.
- **Writes during restore.** The restore writes a saved property unless the
  live object has a non-writable data property of that name. A write is
  attempted for accessors and missing properties too
  (`ShouldWriteSkipsOnlyReadOnlyData`).
- **Nested `// @if` blocks.** The preprocessor's `// @if` reads a `skip`
  field that its stack frames never have. An inner `// @if` that is
  switched on therefore re-enables output inside an outer block that is
  switched off. A nested `// @endif` decides on the outer frame's
  `shouldInclude` alone, even after that frame's `// @else`
  (`InnerIfIgnoresFalseOuter`, `EndifIgnoresOuterElse`).
- **Element keys are unique only among siblings.** `getElementKey` falls
  back to the tag name and the position among the parent's children. Two
  keyless `DIV`s that each come first under different parents both get
  "DIV-0" (`Dom.FirstChildKeysCollide`). The later one's snapshot then
  replaces the earlier one's, and the restore writes it into both elements
  (`HarmonyProperties.SharedKeyRestoresLaterValues`).
- **A thrown `null` or `undefined` never reaches `onError`.**
  `handleError` reads `error.message` first, which throws a TypeError for
  such a value. That TypeError escapes `reinitializeAlpineInElement`. The
  stream handler catches it and reports it; the frame handler lets it
  escape to the window listener (`HarmonyProperties.ReinitializeRoutesErrors`,
  `StreamRenderCatchesReportFailure`, `FrameRenderLetsReportFailureEscape`).
- **A snapshot can throw.** `JSON.stringify` runs every getter before the
  replacer sees the key, so a throwing getter aborts the snapshot even
  under a `_` key. A BigInt that the replacer keeps also throws. The
  per-element `catch` then skips that element, and the other elements are
  still saved (`JsProperties.ThrowingGetterAbortsSnapshot`,
  `JsProperties.BigIntAbortsSnapshot`, `HarmonyProperties.SnapshotsDescribeElements`).

## Model

| member | source | states |
|---|---|---|
| Text.Split | scripts/preprocess.js:8 | `split('\n')` yields at least one line and no line contains a newline |
| Text.JoinSplit | scripts/preprocess.js:8 | joining the split lines with `'\n'` gives back the original text |
| Text.NatToString | scripts/preprocess.js:28 | a line number prints as a non-empty string of decimal digits |
| Text.NatToStringRoundTrip | scripts/preprocess.js:28 | reading the printed digits back gives the number |
| Text.NatToStringInjective | scripts/preprocess.js:38 | different line numbers give different messages |
| Preprocess.ScanLine | scripts/preprocess.js:14-48 | one turn of the loop updates `stack`, `skip` and `output` exactly as the line-by-line specification says, or throws its error with the 1-based line number |
| Preprocess.Preprocess | scripts/preprocess.js:7-56 | the loop over the lines, then the check for an open block, yields exactly the specification's result: the three errors, or the kept lines joined with newlines |
| Preprocess.Transform | scripts/preprocess.js:62-74 | a non-`.js` id yields null; otherwise the preprocessed code with a null map, or the build error "Preprocessing error in ID: MESSAGE" |
| PreprocessProperties.RunCountsLines | scripts/preprocess.js:13-14 | a successful pass reads every line exactly once |
| PreprocessProperties.RunKeepsOutputClean | scripts/preprocess.js:17-48 | directive lines are never pushed to the output |
| PreprocessProperties.DirectivesNeverOutput | scripts/preprocess.js:17-48 | a successful result contains no `// @if`, `// @else` or `// @endif` line |
| PreprocessProperties.RunSelects | scripts/preprocess.js:45-48 | whatever was output before, and whatever is output from the remaining lines, is together a subsequence of the lines read, in order |
| PreprocessProperties.OutputIsSubsequence | scripts/preprocess.js:45-48 | a successful result is a subsequence of the input lines |
| PreprocessProperties.UnchangedWithoutDirectives | scripts/preprocess.js:7-56 | code without directives comes back unchanged |
| PreprocessProperties.StepIf | scripts/preprocess.js:18-24 | an `// @if NAME` pushes a frame whose shouldInclude says whether the define is `true`, and sets skip to its negation |
| PreprocessProperties.StepElse | scripts/preprocess.js:26-34 | an `// @else` marks the top frame; skip is then set when that frame is included or the frame below is not |
| PreprocessProperties.StepEndif | scripts/preprocess.js:36-43 | an `// @endif` pops a frame and recomputes skip from the new top |
| PreprocessProperties.SingleIfBlock | scripts/preprocess.js:18-56 | in a single `// @if` block, its lines survive exactly when the define is `true` |
| PreprocessProperties.SingleIfElseBlock | scripts/preprocess.js:18-56 | in a single if/else block, exactly one branch survives, chosen by the define |
| PreprocessProperties.InnerIfIgnoresFalseOuter | scripts/preprocess.js:22 | an inner block that is switched on shows its lines even when the outer block is off |
| PreprocessProperties.EndifIgnoresOuterElse | scripts/preprocess.js:41 | after a nested `// @endif`, lines in the outer `// @else` branch are kept or dropped by the outer shouldInclude alone |
| PreprocessProperties.ElseWithoutIfReported | scripts/preprocess.js:27-29 | an `// @else` with no open block fails with its 1-based line number |
| PreprocessProperties.EndifWithoutIfReported | scripts/preprocess.js:37-39 | an `// @endif` with no open block fails with its 1-based line number |
| PreprocessProperties.UnclosedIfReported | scripts/preprocess.js:51-53 | a block left open at the end fails with "Unclosed @if directive" |
| JsValues.OwnProperty | src/index.js:514 | a descriptor is found exactly when the object has an own property of that name |
| JsValues.Visit | src/index.js:556-586 | a value is dropped, without throwing, exactly when it is a DOM or browser object, a function, `undefined`, under a `_` key, or an object or array already seen; a kept BigInt throws a TypeError; only a BigInt or a container can throw; the seen set only grows, and every object or array written is recorded in it |
| JsValues.VisitProps | src/index.js:556-586 | when no getter or nested value throws, the seen set only grows and no more members are written than the object has |
| JsValues.VisitItems | src/index.js:556-586 | when nothing throws, an array keeps its length (a dropped item is written as null), and the seen set only grows |
| JsProperties.IndexKeyIsPublic | src/index.js:572-575 | an array index key never starts with `_`, so array items are not dropped for their key |
| JsProperties.VisitHasNoPrivateKeys | src/index.js:572-575 | no key starting with `_` appears anywhere in a snapshot |
| JsProperties.SnapshotIsPublicObject | src/index.js:476-477 | a snapshot that does not throw is always an object with no `_` keys, at any depth |
| JsProperties.ThrowingGetterAbortsSnapshot | src/index.js:556 | a getter that throws aborts the whole snapshot with its error, whatever the property's name |
| JsProperties.BigIntAbortsSnapshot | src/index.js:556-586 | a BigInt under a public key aborts the snapshot with a TypeError; under a `_` key it is dropped and the snapshot succeeds |
| JsProperties.CannotThrowSerialises | src/index.js:556-586 | a value with no BigInt and no throwing getter anywhere inside it serialises without throwing, under any key and seen set |
| JsProperties.CannotThrowPropsSerialise | src/index.js:556-586 | the same for an object's properties |
| JsProperties.CannotThrowItemsSerialise | src/index.js:556-586 | the same for an array's items |
| JsProperties.SnapshotCannotThrow | src/index.js:476 | the snapshot of a data object without BigInts or throwing getters does not throw |
| JsProperties.SharedReferenceWrittenOnce | src/index.js:578-583 | an object reachable under two keys is written under the first and dropped under the second; the pair throws exactly when the first visit does |
| JsProperties.CycleIsCut | src/index.js:578-583 | a property that refers back to its own object is dropped |
| JsProperties.SnapshotOfPlainData | src/index.js:476-477 | a data object built from JSON data, with no sharing and no `_` keys, snapshots back to exactly that data |
| Dom.QueryAll | src/index.js:331 | `querySelectorAll` returns exactly the element descendants matching the selector list, in document order |
| Dom.QuerySelectorAll | src/index.js:469 | an invalid selector list throws; a valid one returns the query's result |
| Dom.QuerySelector | src/index.js:281 | an invalid selector throws; otherwise the result is the first matching element in document order, or none |
| Dom.Closest | src/index.js:403 | the element itself or an ancestor that matches (the nearest, by `ClosestIsNearest`), or none when neither it nor any ancestor matches |
| Dom.ClosestIsNearest | src/index.js:403 | no node strictly between `n` and the result of `closest` on the way up matches, so the result is the nearest match |
| Dom.SiblingKeysDiffer | src/index.js:542-548 | two element siblings without id or non-empty data-key and with the same tag get different keys |
| Dom.FirstChildKeysCollide | src/index.js:542-548 | two keyless elements with the same tag that each come first under their own parent get the same key `TAG-0`, whatever their parents |
| Platform.Invoke | src/index.js:319-321 | an absent hook is not called; a present one is recorded once, and it throws exactly when the hook throws |
| Harmony.ShouldSkip | src/index.js:289-300 | skipped exactly when the node is missing, is not an element, or some valid skip selector matches it; invalid selectors count as no match |
| Harmony.SkipMatchMeansSomeSelector | src/index.js:292-299 | the `some` over the selectors holds exactly when some valid selector matches |
| Harmony.TrackUpdatesOneKey | src/index.js:652-669 | tracking appends the event to its key's list, creating the list on first use; every other key is unchanged |
| Harmony.TrackKeepsKeysUnique | src/index.js:656-658 | the lifecycle map never holds a key twice |
| Harmony.HandleError | src/index.js:622-646 | `handleError` throws exactly when the thrown value is `null` or `undefined`, and then throws a TypeError |
| Harmony.SnapshotOf | src/index.js:474-480 | an element yields a snapshot exactly when it has a non-empty data stack whose first entry serialises without throwing |
| Harmony.Reinitialize | src/index.js:306-461 | the only thing that can escape `reinitializeAlpineInElement` is a TypeError |
| HarmonyProperties.XDataList | src/index.js:331 | the `[x-data]` query matches exactly the elements that carry `x-data` |
| HarmonyProperties.QueueMembers | src/index.js:334-350 | an element is queued exactly when it is in the list and is not live: it lacks a non-empty data stack or is missing from the ledger |
| HarmonyProperties.QueueKeepsOrder | src/index.js:334-350 | the queue keeps document order |
| HarmonyProperties.PartitionQueue | src/index.js:331-350 | `elementsToInit` holds exactly the `[x-data]` descendants that are not live, in document order |
| HarmonyProperties.RunSubtree | src/index.js:360-391 | Case A's `reinit` calls `initTree` (or `start` without it), adds the queue to the ledger, schedules the restore when a snapshot exists, then calls `afterReinit` |
| HarmonyProperties.RunSubtreeFailure | src/index.js:361-366 | when `initTree` or `start` throws, the ledger is untouched and nothing after it runs |
| HarmonyProperties.RunFromAncestor | src/index.js:410-425 | Case B's `reinit` destroys and inits the ancestor, then calls `afterReinit` on the original element |
| HarmonyProperties.RunInitElement | src/index.js:437-448 | Case C's `reinit` only inits the element and calls `afterReinit` |
| HarmonyProperties.CaseARebuildsSubtree | src/index.js:353-398 | with something queued and no delay, the calls are `destroyTree`, then init, then `afterReinit`, and the ledger gains exactly the queue |
| HarmonyProperties.CaseADefersInit | src/index.js:394-396 | with a delay, only `destroyTree` happens now; the rest waits in the timer queue and the ledger is unchanged |
| HarmonyProperties.DeferredRebuildCompletes | src/index.js:360-395 | when the deferred timer fires, the init, the ledger update and the hook happen, and the task leaves the queue |
| HarmonyProperties.CaseAFailureKeepsLedger | src/index.js:353-398 | a throw from `destroyTree`, or from the immediate init, leaves the ledger unchanged |
| HarmonyProperties.CaseBRebuildsFromAncestor | src/index.js:399-432 | with nothing queued and an `[x-data]` element at or above, destroy and init target the nearest such element (no `[x-data]` element lies between it and the element), the hook gets the original one, and the ledger is unchanged |
| HarmonyProperties.CaseCOnlyInitializes | src/index.js:433-456 | with nothing queued and no such element, `destroyTree` is never called and only the element is initialised |
| HarmonyProperties.SecondPassQueuesNothing | src/index.js:334-336 | after an immediate rebuild with no throws, a second pass over the same subtree queues nothing |
| HarmonyProperties.RejectionReportedOnce | src/index.js:143 | an unhandled rejection counts one error and calls `onError` once with the rejection event and an empty context, never throws, and changes nothing after `destroy` |
| HarmonyProperties.HandleErrorReportsOnce | src/index.js:622-646 | `handleError` counts the error; for a thrown `null` or `undefined` it throws and calls nothing, otherwise it calls `onError` once with the context and the counters and a throw from `onError` is swallowed; nothing else changes |
| HarmonyProperties.ReinitializeRoutesErrors | src/index.js:306-461 | whatever the `try` block throws is counted and goes to `onError` once, with context `reinitializeAlpineInElement`, unless it is `null` or `undefined`, in which case `onError` is not called and the call throws; without a throw the state is the `try` block's |
| HarmonyProperties.StreamRenderCatchesReportFailure | src/index.js:203-234 | when reinitialising the stream target throws, the stream handler reports that error and nothing escapes it |
| HarmonyProperties.FrameRenderLetsReportFailureEscape | src/index.js:259-271 | the frame handler throws exactly when the `try` block threw a nullish value |
| HarmonyProperties.InvokeExtends | src/index.js:319-321 | calling out only appends to the record of calls |
| HarmonyProperties.HandleErrorExtends | src/index.js:622-646 | error handling only appends to the record of calls |
| HarmonyProperties.RunBodyExtends | src/index.js:360-456 | every `reinit` body only appends to the record of calls |
| HarmonyProperties.RebuildExtends | src/index.js:353-457 | the rebuild only appends to the record of calls |
| HarmonyProperties.BeforeReinitComesFirst | src/index.js:318-321 | `beforeReinit` is called before any Alpine call of the rebuild |
| HarmonyProperties.ThrowingBeforeReinitStops | src/index.js:319-321 | a throwing `beforeReinit` stops the rebuild before anything else happens |
| HarmonyProperties.PreserveExtends | src/index.js:467-489 | preserving state only appends to the record of calls |
| HarmonyProperties.PropWritesExactly | src/index.js:513-523 | restore writes exactly the saved properties the live object allows, with the saved values, in order |
| HarmonyProperties.ShouldWriteSkipsOnlyReadOnlyData | src/index.js:516 | a property is skipped exactly when the live object has it as a non-writable data property |
| HarmonyProperties.NoSavedMapNoRestore | src/index.js:496-497 | without a saved map, restore does nothing |
| HarmonyProperties.RestoreConsumesSnapshot | src/index.js:500-533 | the restore tick forgets the saved map, so a second restore of the same capture does nothing; it throws exactly when the selector list is invalid, and then changes nothing |
| HarmonyProperties.SnapshotsDescribeElements | src/index.js:472-482 | the saved map has a key exactly for the elements with a data stack whose serialisation does not throw; an element whose serialisation throws is skipped; each entry is a public JSON object |
| HarmonyProperties.SnapshotsLastWins | src/index.js:472-482 | the value saved under a key is the snapshot of the last element with that key that has a snapshot |
| HarmonyProperties.WritableMembersAllWritten | src/index.js:513-523 | when the live object accepts every saved property, each is written back once, in the saved order |
| HarmonyProperties.PreservedDataIsRestored | src/index.js:467-529 | preserve then restore: plain data saved under a key no later element shares is written back value for value to the element found under that key, when it accepts every property |
| HarmonyProperties.SharedKeyRestoresLaterValues | src/index.js:504-516 | when an earlier element shares its key with a later one, the restore writes the later element's saved values into the earlier element |
| HarmonyProperties.FindTargetResolves | src/index.js:276-284 | the target is the event's target, else the detail's target, else the first match of a non-empty detail selector, which throws when invalid |
| HarmonyProperties.FindTargetNone | src/index.js:276-284 | no target is found exactly when the event has neither target and the selector is missing, empty or matches nothing |
| HarmonyProperties.StreamRenderWithoutTargetIsQuiet | src/index.js:197-222 | a stream render with no target or a skipped target only counts the update, and throws nothing |
| HarmonyProperties.FrameRemovalForgetsDescendants | src/index.js:240-254 | before a frame render, every `[x-data]` descendant of the frame leaves the ledger and nothing else does |
| HarmonyProperties.InitIsIdempotent | src/index.js:84-100 | a successful `init` sets the flag, and a second `init` changes nothing |
| HarmonyProperties.FailedInitChangesNothing | src/index.js:84-123 | a failed validation leaves the engine unstarted and unchanged |
| HarmonyProperties.DestroyedEngineIgnoresEvents | src/index.js:747-759 | after `destroy`, Turbo events reach no handler |
| HarmonyEngine.TurboHarmony.constructor | src/index.js:13-74 | the merged options and the zeroed fields |
| HarmonyEngine.TurboHarmony.Create | src/index.js:75-77 | `new TurboHarmony(options)` runs `init` under `autoStart` and throws its error |
| HarmonyEngine.TurboHarmony.Init | src/index.js:84-100 | returns at once when initialised; otherwise validates, registers the listeners and sets the flag |
| HarmonyEngine.TurboHarmony.ValidateDependencies | src/index.js:105-123 | succeeds exactly when window, Alpine and Turbo exist, and reports the first one missing in that order |
| HarmonyEngine.TurboHarmony.Destroy | src/index.js:747-759 | removes the listeners and clears the flag |
| HarmonyEngine.TurboHarmony.ResetMetrics | src/index.js:720-732 | zeroes the counters |
| HarmonyEngine.TurboHarmony.Increment | src/index.js:308 | adds one to one counter |
| HarmonyEngine.TurboHarmony.HandleError | src/index.js:622-646 | the new state and the error thrown are `handleError`'s, as the lemmas above describe |
| HarmonyEngine.TurboHarmony.ReportUncaught | src/index.js:142 | an error escaping a listener reaches `handleError` with an empty context while the window `error` listener is registered |
| HarmonyEngine.TurboHarmony.ReportRejection | src/index.js:143 | an unhandled promise rejection reaches `handleError` with an empty context while the window `unhandledrejection` listener is registered |
| HarmonyEngine.TurboHarmony.TrackComponentLifecycle | src/index.js:652-669 | appends the event under the element's key |
| HarmonyEngine.TurboHarmony.Partition | src/index.js:331-350 | the `forEach` loop builds exactly the queue and records skipped and queued events |
| HarmonyEngine.TurboHarmony.MarkInitialized | src/index.js:369-374 | the loop adds every queued element to the ledger and records it as initialised |
| HarmonyEngine.TurboHarmony.PreserveAlpineState | src/index.js:467-489 | the loop builds exactly the snapshot map, skipping an element whose serialisation throws, and stores it for the element; an invalid selector list goes to `handleError` |
| HarmonyEngine.TurboHarmony.RestoreAlpineState | src/index.js:494-537 | schedules the restore tick only when a saved map exists |
| HarmonyEngine.TurboHarmony.RestoreElement | src/index.js:506-528 | the inner loop performs exactly the element's allowed writes |
| HarmonyEngine.TurboHarmony.RestoreElements | src/index.js:505-529 | the outer loop performs exactly the writes of every element, in order |
| HarmonyEngine.TurboHarmony.RunRestore | src/index.js:500-533 | the restore tick writes back and forgets the saved map |
| HarmonyEngine.TurboHarmony.AfterReinitHook | src/index.js:384-386 | calls `afterReinit` when present |
| HarmonyEngine.TurboHarmony.RunBody | src/index.js:360-456 | runs the `reinit` closure of Case A, B or C, or the restore tick |
| HarmonyEngine.TurboHarmony.ScheduleTask | src/index.js:393-398 | runs the closure now, or queues it when `reinitDelay > 0` |
| HarmonyEngine.TurboHarmony.Rebuild | src/index.js:331-457 | the partition followed by Case A, B or C |
| HarmonyEngine.TurboHarmony.ReinitAttempt | src/index.js:311-457 | `beforeReinit`, the optional preserve, then the rebuild; a throw stops it |
| HarmonyEngine.TurboHarmony.ReinitializeAlpineInElement | src/index.js:306-461 | counts the call, runs the `try` block and hands a throw to `handleError`, whose own throw escapes |
| HarmonyEngine.TurboHarmony.ReinitializeAll | src/index.js:739-742 | reinitialises the document body |
| HarmonyEngine.TurboHarmony.HandleBeforeVisit | src/index.js:151-161 | counts the navigation; with a detail, destroys the body's components; without one, the log call throws |
| HarmonyEngine.TurboHarmony.HandleLoad | src/index.js:166-173 | initialises the body's components |
| HarmonyEngine.TurboHarmony.HandleBeforeStreamRender | src/index.js:178-191 | preserves the target's state when enabled; an invalid detail selector throws |
| HarmonyEngine.TurboHarmony.HandleStreamRender | src/index.js:197-235 | counts the update and reinitialises the target unless it is missing or skipped; errors, including one thrown by reinitialising, go to `handleError` |
| HarmonyEngine.TurboHarmony.ForgetElements | src/index.js:247-251 | the loop removes every listed element from the ledger and records `beforeDestroy` |
| HarmonyEngine.TurboHarmony.HandleBeforeFrameRender | src/index.js:240-254 | forgets the frame's components; a missing target throws |
| HarmonyEngine.TurboHarmony.HandleFrameRender | src/index.js:259-271 | counts the update and reinitialises the frame unless skipped; a missing target throws, and so does a throw escaping the reinitialisation |
| HarmonyEngine.TurboHarmony.Dispatch | src/index.js:128-146 | only registered listeners run; an error escaping one is reported through the window listener |
| HarmonyEngine.TurboHarmony.RunTask | src/index.js:395 | a pending timer fires and leaves the queue; its error is reported through the window listener |
| HarmonyLiteProperties.InitRules | src/index.lite.js:36-53 | a second `init` is a no-op; a failed one changes nothing; Alpine is checked before Turbo |
| HarmonyLiteProperties.DestroyedEngineIgnoresEvents | src/index.lite.js:139-145 | after `destroy`, Turbo events reach no handler |
| HarmonyLiteProperties.BeforeRenderEventsIgnored | src/index.lite.js:55-60 | the lite engine does not react to the before-render events |
| HarmonyLiteProperties.LiteSkipDecides | src/index.lite.js:88-90 | a non-element is never skipped; for an element, the first selector that is invalid or matches decides (invalid throws, a match skips), and with neither the element is kept |
| HarmonyLiteProperties.NonElementSkipDiffers | src/index.lite.js:88-90 | on a non-element the two engines disagree: the full one skips it, the lite one does not |
| HarmonyLiteProperties.StreamTargetRules | src/index.lite.js:75 | the stream target is the event's target, else the detail's target; there is no selector fallback |
| HarmonyLiteProperties.NoTargetNoCall | src/index.lite.js:74-86 | a missing or skipped target makes no call and changes nothing |
| HarmonyLiteProperties.QueueMembers | src/index.lite.js:101-105 | an element is queued exactly when it has no data stack or is missing from the ledger |
| HarmonyLiteProperties.PartitionsDiffer | src/index.lite.js:102 | the two partitions disagree exactly on ledger elements whose data stack exists but is empty |
| HarmonyLiteProperties.EmptyQueueOnlyRunsBeforeHook | src/index.lite.js:107 | with nothing queued, only `beforeReinit` runs: no destroy, no init, no ancestor fallback |
| HarmonyLiteProperties.RunReinitCompletes | src/index.lite.js:112-124 | when nothing throws, the `reinit` closure calls `initTree`, adds exactly the queue to the ledger, then calls `afterReinit` |
| HarmonyLiteProperties.QueuedRebuild | src/index.lite.js:107-130 | with something queued and no delay, the calls are `destroyTree`, `initTree` and `afterReinit` in order, and the ledger gains exactly the queue |
| HarmonyLiteProperties.DelayedRebuild | src/index.lite.js:126-127 | with a delay, only `destroyTree` happens now and the closure waits in the timer queue |
| HarmonyLiteProperties.DeferredRebuildCompletes | src/index.lite.js:112-124 | the deferred closure performs the init, the ledger update and the hook |
| HarmonyLiteProperties.CaughtErrorsGoToOnError | src/index.lite.js:132-136 | a caught error reaches `onError` once with the context string, or is swallowed without it; a throw from `onError` escapes |
| HarmonyLiteProperties.FailedRebuildKeepsLedger | src/index.lite.js:93-131 | a throw before the ledger update leaves the ledger unchanged |
| HarmonyLiteProperties.SecondPassQueuesNothing | src/index.lite.js:101-105 | after an immediate rebuild with no throws, a second pass queues nothing |
| HarmonyLiteEngine.TurboHarmony.constructor | src/index.lite.js:8-30 | the merged options and the cleared fields |
| HarmonyLiteEngine.TurboHarmony.Create | src/index.lite.js:31-33 | `new TurboHarmony(options)` runs `init` under `autoStart` and throws its error |
| HarmonyLiteEngine.TurboHarmony.Init | src/index.lite.js:36-44 | returns at once when initialised; otherwise validates, registers the listeners and sets the flag |
| HarmonyLiteEngine.TurboHarmony.ValidateDependencies | src/index.lite.js:46-53 | succeeds exactly when window, Alpine and Turbo exist; a missing window is a ReferenceError |
| HarmonyLiteEngine.TurboHarmony.Destroy | src/index.lite.js:139-145 | removes the listeners and clears the flag |
| HarmonyLiteEngine.TurboHarmony.Partition | src/index.lite.js:98-105 | the `forEach` loop builds exactly the queue |
| HarmonyLiteEngine.TurboHarmony.MarkInitialized | src/index.lite.js:117-119 | the loop adds every queued element to the ledger |
| HarmonyLiteEngine.TurboHarmony.RunReinit | src/index.lite.js:112-124 | the `reinit` closure |
| HarmonyLiteEngine.TurboHarmony.Attempt | src/index.lite.js:93-131 | the `try` block |
| HarmonyLiteEngine.TurboHarmony.ReinitializeAlpineInElement | src/index.lite.js:92-137 | the `try` block, with its catch handing the error to `onError` |
| HarmonyLiteEngine.TurboHarmony.HandleBeforeVisit | src/index.lite.js:62-66 | destroys the body's components |
| HarmonyLiteEngine.TurboHarmony.HandleLoad | src/index.lite.js:68-72 | initialises the body's components |
| HarmonyLiteEngine.TurboHarmony.ReinitializeTarget | src/index.lite.js:76-78 | reinitialises the target unless it is missing or skipped; an invalid selector throws |
| HarmonyLiteEngine.TurboHarmony.HandleStreamRender | src/index.lite.js:74-79 | the same for the stream target |
| HarmonyLiteEngine.TurboHarmony.HandleFrameRender | src/index.lite.js:81-86 | the same for the frame |
| HarmonyLiteEngine.TurboHarmony.Dispatch | src/index.lite.js:55-60 | only the four registered listeners run |
| HarmonyLiteEngine.TurboHarmony.RunTask | src/index.lite.js:127 | a pending closure fires and leaves the queue; its error escapes |

## Left out

- `log` (src/index.js:593-617) writes only to the console and changes no state. Its arguments are still evaluated where that can throw: `event.detail.url`, `event.target.id` and `frameElement.id`.
- `getMetrics` and `getLifecycleReport` compute uptime, averages and rates in floating point from `performance.now()`. The counters themselves are modelled. The error info given to `onError` carries only the five counters, and no timestamp or message text.
- The `performance` timing list, `startTime` and every timestamp are left out.
- The work Alpine does inside `destroyTree`, `initTree` and `start` is not modelled. Those calls are recorded, and the document does not change because of them. A write of a restored property is recorded as an effect, because the live data object is Alpine's reactive proxy.
- Timer delays are not modelled, only the order of callbacks. Any pending callback may fire next.
- WeakMap and WeakSet garbage collection, and callbacks that run on nodes removed from the document, are not modelled.
- Node ids are positions in document order, not element identities. The ledger (`initializedElements`), the keys of `preservedStates` and the elements captured by pending timer callbacks hold ids, so the engine state carries over from one event to the next only when every surviving element keeps its id across the DOM update between them. An update that inserts or removes nodes ahead of a surviving element would, in the model, make those fields name whatever node now sits at the old position; in the program they keep naming the same element. `Dom.WellFormed` states the shape the ids are assumed to have (preorder positions).
- `JSON.stringify` is modelled over `undefined`, nulls, booleans, integers, BigInts, strings, arrays, plain objects with data and accessor properties, functions and browser objects. Floating-point numbers, `toJSON` methods and symbols are left out, so a `toJSON` that throws is not modelled; a throwing getter and a BigInt reach the same per-element `catch`. An object's `props` stands for its enumerable own properties, each name once, in property-key order; non-enumerable properties (such as Alpine's `$` magics), which `Object.getOwnPropertyDescriptor` would still find during the restore, are not modelled.
- A write during the restore that throws is not modelled, whether from a setter that throws or from a getter-only accessor (in strict code, and through the reactive proxy, writing one throws a TypeError): each write is recorded and succeeds, so the per-property `catch` of src/index.js:517-521 is never reached. Selectors are atomic strings: whether one is valid and whether it matches are given by the document, not parsed.
- The lite constructor's unused `preservedStates`, the `debug` and `preserveState` options of the lite engine, and `batchUpdates` and `watchAttributes` of the full engine have no effect on behaviour, so they are not carried.
- The `console.error` when the full engine's `onError` itself throws is left out. The throw is swallowed, and that part is modelled.
- The build tool's `this.error` is modelled as a returned error value.
- src/debugger.js, the bundles under dist/ and the rollup configuration are not part of this model.
