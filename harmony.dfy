/** The full TurboHarmony engine (src/index.js) as functions from the old
    engine state to the new one. The class in harmony_engine.dfy performs
    the same steps field by field and is proved to agree with these
    functions; the properties of the engine are lemmas about them
    (harmony_properties.dfy). */
module Harmony {
  import opened Wrappers
  import opened JsValues
  import opened Dom
  import opened Platform
  import JsProperties

  /** The constructor's options after merging the caller's over the
      defaults. Logging options, `batchUpdates` and `watchAttributes` do
      not change what the engine does and are not carried. */
  datatype Options = Options(
    preserveState: bool,
    preserveStateSelectors: seq<string>,
    skipSelectors: seq<string>,
    reinitDelay: int,
    beforeReinit: Hook,
    afterReinit: Hook,
    onError: Hook,
    autoStart: bool)

  const DefaultOptions: Options := Options(
    false,
    ["[x-data]"],
    [".turbo-harmony-skip", ".no-alpine", "[data-turbo-harmony-skip]"],
    0,
    Absent,
    Absent,
    Absent,
    true)

  datatype LifecycleEvent = Skipped | Queued | Initialized | BeforeDestroy

  /** One entry of `componentLifecycle`, a Map kept in insertion order. */
  datatype LifecycleEntry = LifecycleEntry(key: string, events: seq<LifecycleEvent>)

  /** A callback handed to `setTimeout`, with what it captured. */
  datatype Task =
    | ReinitSubtree(element: NodeId, queue: seq<NodeId>)       // Case A's `reinit`
    | ReinitFromAncestor(element: NodeId, ancestor: NodeId)    // Case B's `reinit`
    | InitElement(element: NodeId)                             // Case C's `reinit`
    | RestoreState(element: NodeId, saved: map<string, Json>)  // the restore tick

  /** The instance fields, plus the calls made so far and the timers
      still pending. `listening` says whether the eight listeners are
      registered. */
  datatype State = State(
    isInitialized: bool,
    listening: bool,
    ledger: set<NodeId>,                          // initializedElements
    preserved: map<NodeId, map<string, Json>>,    // preservedStates
    metrics: Counters,
    lifecycle: seq<LifecycleEntry>,               // componentLifecycle
    trace: seq<Effect>,
    pending: seq<Task>)

  const ZeroCounters: Counters := Counters(0, 0, 0, 0, 0)

  function Count(s: State, c: Counter): State
  {
    s.(metrics := Bump(s.metrics, c))
  }

  /** The state right after `new TurboHarmony(options)` has bound its
      handlers and before `init` runs. */
  const Unstarted: State := State(false, false, {}, map[], ZeroCounters, [], [], [])

  /** A state change together with the error that escaped it, if any. */
  datatype Outcome = Outcome(st: State, error: Option<JsError>)

  const WindowMissing := Error("TurboHarmony: window object not available")
  const AlpineMissing := Error("TurboHarmony: Alpine.js not found. Please ensure Alpine.js is loaded before TurboHarmony.")
  const TurboMissing := Error("TurboHarmony: Turbo not found. Please ensure @hotwired/turbo is loaded before TurboHarmony.")
  const NoDetail := TypeError("Cannot read properties of undefined (reading 'url')")
  const NoTarget := TypeError("Cannot read properties of null (reading 'id')")

  // ----- init / destroy -----

  /** `init()`: a second call changes nothing; the first validates the
      globals (window, then Alpine, then Turbo) and only then registers the
      listeners and sets the flag. */
  function Init(s: State, g: Globals): Outcome
  {
    if s.isInitialized then Outcome(s, None)
    else if !g.hasWindow then Outcome(s, Some(WindowMissing))
    else if !g.hasAlpine then Outcome(s, Some(AlpineMissing))
    else if !g.hasTurbo then Outcome(s, Some(TurboMissing))
    else Outcome(s.(listening := true, isInitialized := true), None)
  }

  /** `new TurboHarmony(options)`: with `autoStart` the constructor runs
      `init` and throws what it throws. */
  function Create(o: Options, g: Globals): Result<State, JsError>
  {
    if !o.autoStart then Success(Unstarted)
    else
      var r := Init(Unstarted, g);
      if r.error.Some? then Failure(r.error.value) else Success(r.st)
  }

  /** `destroy()`: removes every listener and clears the flag. */
  function Destroy(s: State): State
  {
    s.(listening := false, isInitialized := false)
  }

  function ResetMetrics(s: State): State
  {
    s.(metrics := ZeroCounters)
  }

  // ----- errors -----

  /** What reading `.message` of a thrown `null` or `undefined` throws. */
  function MessageReadError(err: JsError): JsError
  {
    TypeError("Cannot read properties of " + (if err.ThrownNull? then "null" else "undefined") + " (reading 'message')")
  }

  /** `handleError(error, context)`: counts the error, then builds the info
      object from `error.message`, which throws a TypeError out of
      `handleError` when `error` is `null` or `undefined`; otherwise, when
      `onError` is set, calls it once with the context and the counters,
      and whatever `onError` throws is swallowed. */
  function HandleError(o: Options, s: State, err: JsError, context: string): (r: Outcome)
    ensures r.error.Some? <==> Nullish(err)
    ensures r.error.Some? ==> r.error.value.TypeError?
  {
    var s1 := Count(s, Errors);
    if Nullish(err) then Outcome(s1, Some(MessageReadError(err)))
    else if o.onError.Absent? then Outcome(s1, None)
    else Outcome(s1.(trace := s1.trace + [OnError(err, Info(context, s1.metrics))]), None)
  }

  /** An error escaping a listener or a timer callback is reported to the
      window `error` listeners; the engine's own `handleError` is one of
      them while it is listening, and is called with the error event and no
      context. The event is never nullish, so that call does not throw. */
  function Uncaught(o: Options, s: State, err: JsError): State
  {
    if s.listening then HandleError(o, s, ErrorEvent(err), "").st else s
  }

  /** A promise rejected with `reason` and left unhandled: the browser hands
      the rejection event to the window `unhandledrejection` listeners, and
      the engine's `handleError` is one of them while it is listening. The
      event has no `message`, so `error.message || error` falls back to the
      event itself; the event is never nullish, so the call does not throw. */
  function Rejected(o: Options, s: State, reason: JsError): State
  {
    if s.listening then HandleError(o, s, RejectionEvent(reason), "").st else s
  }

  // ----- classification and target resolution -----

  /** Some selector is valid and matches; an invalid one counts as a miss. */
  predicate AnySkipMatch(d: Document, n: NodeId, sels: seq<string>)
  {
    |sels| > 0 && ((ValidSelector(d, sels[0]) && Matches(d, n, sels[0])) || AnySkipMatch(d, n, sels[1..]))
  }

  /** `shouldSkipElement(element)` */
  function ShouldSkip(o: Options, d: Document, el: Option<NodeId>): (skip: bool)
    ensures skip <==>
      el.None? || !IsElement(d, el.value)
      || exists k :: 0 <= k < |o.skipSelectors| && ValidSelector(d, o.skipSelectors[k]) && Matches(d, el.value, o.skipSelectors[k])
  {
    if el.None? || !IsElement(d, el.value) then true
    else
      SkipMatchMeansSomeSelector(d, el.value, o.skipSelectors);
      AnySkipMatch(d, el.value, o.skipSelectors)
  }

  lemma {:induction false} SkipMatchMeansSomeSelector(d: Document, n: NodeId, sels: seq<string>)
    ensures AnySkipMatch(d, n, sels) <==> exists k :: 0 <= k < |sels| && ValidSelector(d, sels[k]) && Matches(d, n, sels[k])
  {
    if |sels| > 0 {
      SkipMatchMeansSomeSelector(d, n, sels[1..]);
      if exists k :: 0 <= k < |sels| && ValidSelector(d, sels[k]) && Matches(d, n, sels[k]) {
        var k :| 0 <= k < |sels| && ValidSelector(d, sels[k]) && Matches(d, n, sels[k]);
        if k > 0 {
          assert sels[1..][k - 1] == sels[k];
        }
      }
      if AnySkipMatch(d, n, sels[1..]) {
        var k :| 0 <= k < |sels[1..]| && ValidSelector(d, sels[1..][k]) && Matches(d, n, sels[1..][k]);
        assert sels[k + 1] == sels[1..][k];
      }
    }
  }

  /** `findTargetElement(event)`: the event's target, else the detail's
      target, else the first element matching a non-empty detail selector
      (which throws when the selector is invalid), else none. */
  function FindTarget(d: Document, ev: TurboEvent): Result<Option<NodeId>, JsError>
  {
    if ev.target.Some? then Success(ev.target)
    else if ev.detail.Some? && ev.detail.value.target.Some? then Success(ev.detail.value.target)
    else if ev.detail.Some? && ev.detail.value.selector.Some? && ev.detail.value.selector.value != "" then
      QuerySelector(d, ev.detail.value.selector.value)
    else Success(None)
  }

  // ----- component lifecycle -----

  /** The key of a node the engine tracks. Elements always have one; a node
      the current document no longer holds gets the empty key. */
  function KeyOf(d: Document, n: NodeId): string
  {
    if IsElement(d, n) then ElementKey(d, n) else ""
  }

  /** `componentLifecycle.get(key)` */
  function Lookup(entries: seq<LifecycleEntry>, key: string): Option<seq<LifecycleEvent>>
  {
    if |entries| == 0 then None
    else if entries[0].key == key then Some(entries[0].events)
    else Lookup(entries[1..], key)
  }

  /** No key occurs twice, as in a Map. */
  predicate UniqueKeys(entries: seq<LifecycleEntry>)
  {
    |entries| == 0 || (Lookup(entries[1..], entries[0].key).None? && UniqueKeys(entries[1..]))
  }

  /** `trackComponentLifecycle`: appends the event to the key's list,
      creating the list at the end of the map when the key is new. */
  function Track(entries: seq<LifecycleEntry>, key: string, ev: LifecycleEvent): seq<LifecycleEntry>
  {
    if |entries| == 0 then [LifecycleEntry(key, [ev])]
    else if entries[0].key == key then [entries[0].(events := entries[0].events + [ev])] + entries[1..]
    else [entries[0]] + Track(entries[1..], key, ev)
  }

  /** Tracking behaves as the Map operations it is made of: the key's list
      gains the event at its end (starting empty for a new key) and every
      other key's list is unchanged. */
  lemma {:induction false} TrackUpdatesOneKey(entries: seq<LifecycleEntry>, key: string, ev: LifecycleEvent, x: string)
    ensures Lookup(Track(entries, key, ev), x) ==
      if x == key then Some((if Lookup(entries, key).Some? then Lookup(entries, key).value else []) + [ev])
      else Lookup(entries, x)
  {
    var r := Track(entries, key, ev);
    if |entries| == 0 {
      assert r[1..] == [] && [] + [ev] == [ev];
    } else {
      if entries[0].key == key {
        assert r[1..] == entries[1..];
      } else {
        assert r[1..] == Track(entries[1..], key, ev);
        TrackUpdatesOneKey(entries[1..], key, ev, x);
      }
    }
  }

  /** Tracking never duplicates a key. */
  lemma {:induction false} TrackKeepsKeysUnique(entries: seq<LifecycleEntry>, key: string, ev: LifecycleEvent)
    requires UniqueKeys(entries)
    ensures UniqueKeys(Track(entries, key, ev))
  {
    if |entries| > 0 {
      var r := Track(entries, key, ev);
      if entries[0].key == key {
        assert r[1..] == entries[1..];
      } else {
        assert r[1..] == Track(entries[1..], key, ev);
        TrackKeepsKeysUnique(entries[1..], key, ev);
        TrackUpdatesOneKey(entries[1..], key, ev, entries[0].key);
      }
    }
  }

  /** The same event tracked for each node of `els`, in order. */
  function TrackEach(d: Document, entries: seq<LifecycleEntry>, els: seq<NodeId>, ev: LifecycleEvent): seq<LifecycleEntry>
  {
    if |els| == 0 then entries
    else Track(TrackEach(d, entries, els[..|els| - 1], ev), KeyOf(d, els[|els| - 1]), ev)
  }

  // ----- the partition -----

  /** An `[x-data]` element that is left alone: its data stack is non-empty
      and the ledger holds it. */
  predicate Live(d: Document, ledger: set<NodeId>, n: NodeId)
  {
    HasLiveStack(d, n) && n in ledger
  }

  /** `elementsToInit`: the elements of `els` that are not live, in order. */
  function Queue(d: Document, ledger: set<NodeId>, els: seq<NodeId>): seq<NodeId>
  {
    if |els| == 0 then []
    else Queue(d, ledger, els[..|els| - 1]) + (if Live(d, ledger, els[|els| - 1]) then [] else [els[|els| - 1]])
  }

  /** The lifecycle after the partition: `skipped` for a live element,
      `queued` for the others, in order. */
  function TrackPartition(d: Document, ledger: set<NodeId>, entries: seq<LifecycleEntry>, els: seq<NodeId>): seq<LifecycleEntry>
  {
    if |els| == 0 then entries
    else
      var n := els[|els| - 1];
      Track(TrackPartition(d, ledger, entries, els[..|els| - 1]), KeyOf(d, n), if Live(d, ledger, n) then Skipped else Queued)
  }

  /** Case A's bookkeeping: every queued element joins the ledger and is
      tracked as `initialized`. */
  function MarkInitialized(d: Document, s: State, queue: seq<NodeId>): State
  {
    s.(ledger := s.ledger + Elems(queue), lifecycle := TrackEach(d, s.lifecycle, queue, Initialized))
  }

  // ----- state snapshot and restore -----

  /** `JSON.parse(this.safeStringify(el._x_dataStack[0]))` for a node with
      a non-empty data stack; `None` when the node has no such stack or when
      serialising throws (the per-element `catch` logs it and moves on). */
  function SnapshotOf(d: Document, n: NodeId): (r: Option<Json>)
    ensures r.Some? <==> HasLiveStack(d, n) && SafeStringify(StackOf(d, n).value[0]).Success?
  {
    if !HasLiveStack(d, n) then None
    else
      JsProperties.SnapshotIsPublicObject(StackOf(d, n).value[0]);
      match SafeStringify(StackOf(d, n).value[0])
      case Success(Some(j)) => Some(j)
      case _ => None
  }

  /** The snapshots of the elements in `els`, keyed by element key; an
      element without one is skipped, and a later element with the same key
      wins. */
  function Snapshots(d: Document, els: seq<NodeId>): map<string, Json>
  {
    if |els| == 0 then map[]
    else
      var m := Snapshots(d, els[..|els| - 1]);
      var n := els[|els| - 1];
      match SnapshotOf(d, n)
      case Some(j) => m[KeyOf(d, n) := j]
      case None => m
  }

  /** `preserveAlpineState(element)`. The only error its `try` block can
      throw is the query's SyntaxError, and reporting that does not throw. */
  function Preserve(o: Options, env: Env, s: State, el: NodeId): State
  {
    match QuerySelectorAll(env.dom, el, o.preserveStateSelectors)
    case Failure(e) => HandleError(o, s, e, "preserveAlpineState").st
    case Success(els) => s.(preserved := s.preserved[el := Snapshots(env.dom, els)])
  }

  /** `restoreAlpineState(element)`: with a saved map, schedules the restore
      tick holding that map; without one, does nothing. */
  function ScheduleRestore(s: State, el: NodeId): State
  {
    if el in s.preserved then s.(pending := s.pending + [RestoreState(el, s.preserved[el])]) else s
  }

  predicate Truthy(j: Json)
  {
    match j
    case Null => false
    case Bool(b) => b
    case Num(n) => n != 0
    case Str(s) => s != ""
    case _ => true
  }

  /** `Object.keys(savedState)` with the saved values. */
  function SavedMembers(j: Json): seq<Member>
  {
    if j.Obj? then j.members else []
  }

  /** A saved property is written back unless the live object holds it as a
      data property with `writable: false`: `!descriptor || descriptor.set
      || descriptor.writable !== false`. */
  predicate ShouldWrite(desc: Option<Descriptor>)
  {
    desc.None?
    || (desc.value.AccessorProp? && desc.value.hasSetter)
    || !(desc.value.DataProp? && !desc.value.writable)
  }

  function PropWrites(n: NodeId, ms: seq<Member>, current: DataObject): seq<Effect>
  {
    if |ms| == 0 then []
    else
      var m := ms[|ms| - 1];
      PropWrites(n, ms[..|ms| - 1], current)
      + (if ShouldWrite(OwnProperty(current.props, m.name)) then [Assign(n, m.name, m.value)] else [])
  }

  function ElementWrites(d: Document, n: NodeId, saved: map<string, Json>): seq<Effect>
  {
    var key := KeyOf(d, n);
    if key in saved && Truthy(saved[key]) && HasLiveStack(d, n) then
      PropWrites(n, SavedMembers(saved[key]), StackOf(d, n).value[0])
    else []
  }

  function RestoreWrites(d: Document, els: seq<NodeId>, saved: map<string, Json>): seq<Effect>
  {
    if |els| == 0 then []
    else RestoreWrites(d, els[..|els| - 1], saved) + ElementWrites(d, els[|els| - 1], saved)
  }

  lemma RestoreWritesStep(d: Document, els: seq<NodeId>, i: nat, saved: map<string, Json>)
    requires i < |els|
    ensures RestoreWrites(d, els[..i + 1], saved) == RestoreWrites(d, els[..i], saved) + ElementWrites(d, els[i], saved)
  {
    assert els[..i + 1][..i] == els[..i];
  }

  /** The restore tick: writes the saved values back and forgets the
      element's saved map. An invalid selector list throws out of the tick
      before anything is written or forgotten. */
  function RunRestore(o: Options, env: Env, s: State, el: NodeId, saved: map<string, Json>): Outcome
  {
    match QuerySelectorAll(env.dom, el, o.preserveStateSelectors)
    case Failure(e) => Outcome(s, Some(e))
    case Success(els) =>
      Outcome(s.(trace := s.trace + RestoreWrites(env.dom, els, saved), preserved := s.preserved - {el}), None)
  }

  // ----- reinitialisation -----

  function AfterHook(o: Options, s: State, el: NodeId): Outcome
  {
    var c := Invoke(o.afterReinit, AfterReinit(el), s.trace);
    Outcome(s.(trace := c.trace), c.error)
  }

  /** The body of a `reinit` closure or of the restore tick. */
  function RunBody(o: Options, env: Env, s: State, t: Task): Outcome
  {
    match t
    case ReinitSubtree(el, queue) =>
      var c := if !env.alpine.initTree.Absent? then Invoke(env.alpine.initTree, InitTree(el), s.trace)
               else Invoke(env.alpine.start, Start, s.trace);
      if c.error.Some? then Outcome(s.(trace := c.trace), c.error)
      else
        var s2 := MarkInitialized(env.dom, s.(trace := c.trace), queue);
        var s3 := if o.preserveState then ScheduleRestore(s2, el) else s2;
        AfterHook(o, s3, el)
    case ReinitFromAncestor(el, p) =>
      var c1 := Invoke(env.alpine.destroyTree, DestroyTree(p), s.trace);
      if c1.error.Some? then Outcome(s.(trace := c1.trace), c1.error)
      else
        var c2 := Invoke(env.alpine.initTree, InitTree(p), c1.trace);
        if c2.error.Some? then Outcome(s.(trace := c2.trace), c2.error)
        else AfterHook(o, s.(trace := c2.trace), el)
    case InitElement(el) =>
      var c := Invoke(env.alpine.initTree, InitTree(el), s.trace);
      if c.error.Some? then Outcome(s.(trace := c.trace), c.error)
      else AfterHook(o, s.(trace := c.trace), el)
    case RestoreState(el, saved) => RunRestore(o, env, s, el, saved)
  }

  /** Run `reinit` now, or hand it to `setTimeout` when `reinitDelay > 0`. */
  function Schedule(o: Options, env: Env, s: State, t: Task): Outcome
  {
    if o.reinitDelay > 0 then Outcome(s.(pending := s.pending + [t]), None)
    else RunBody(o, env, s, t)
  }

  /** Cases B and C: with nothing queued, rebuild from the nearest
      `[x-data]` element at or above `el`, or else only initialise `el`. */
  function Fallback(d: Document, el: NodeId): Task
  {
    match Closest(d, el, XData)
    case Some(p) => ReinitFromAncestor(el, p)
    case None => InitElement(el)
  }

  /** The three cases, after the partition. */
  function Rebuild(o: Options, env: Env, s: State, el: NodeId): Outcome
  {
    var els := QueryAll(env.dom, el, [XData]);
    var queue := Queue(env.dom, s.ledger, els);
    var s1 := s.(lifecycle := TrackPartition(env.dom, s.ledger, s.lifecycle, els));
    if |queue| > 0 then
      var c := Invoke(env.alpine.destroyTree, DestroyTree(el), s1.trace);
      if c.error.Some? then Outcome(s1.(trace := c.trace), c.error)
      else Schedule(o, env, s1.(trace := c.trace), ReinitSubtree(el, queue))
    else Schedule(o, env, s1, Fallback(env.dom, el))
  }

  /** The `try` block of `reinitializeAlpineInElement`. */
  function ReinitAttempt(o: Options, env: Env, s: State, el: NodeId): Outcome
  {
    var c := Invoke(o.beforeReinit, BeforeReinit(el), s.trace);
    if c.error.Some? then Outcome(s.(trace := c.trace), c.error)
    else
      var s2 := s.(trace := c.trace);
      var s3 := if o.preserveState then Preserve(o, env, s2, el) else s2;
      Rebuild(o, env, s3, el)
  }

  /** `reinitializeAlpineInElement(element)`: counts the call, runs the
      `try` block and hands whatever it throws to `handleError`, whose own
      throw escapes. */
  function Reinitialize(o: Options, env: Env, s: State, el: NodeId): (r: Outcome)
    ensures r.error.Some? ==> r.error.value.TypeError?
  {
    var s1 := Count(s, Reinitializations);
    var r := ReinitAttempt(o, env, s1, el);
    if r.error.Some? then HandleError(o, r.st, r.error.value, "reinitializeAlpineInElement") else Outcome(r.st, None)
  }

  /** `reinitializeAll()` */
  function ReinitializeAll(o: Options, env: Env, s: State): Outcome
  {
    Reinitialize(o, env, s, env.dom.body)
  }

  // ----- the six handlers -----

  function OnBeforeVisit(env: Env, s: State, ev: TurboEvent): Outcome
  {
    var s1 := Count(s, DriveNavigation);
    if ev.detail.None? then Outcome(s1, Some(NoDetail))
    else
      var c := Invoke(env.alpine.destroyTree, DestroyTree(env.dom.body), s1.trace);
      Outcome(s1.(trace := c.trace), c.error)
  }

  function OnLoad(env: Env, s: State): Outcome
  {
    var c := Invoke(env.alpine.initTree, InitTree(env.dom.body), s.trace);
    Outcome(s.(trace := c.trace), c.error)
  }

  function OnBeforeStreamRender(o: Options, env: Env, s: State, ev: TurboEvent): Outcome
  {
    match FindTarget(env.dom, ev)
    case Failure(e) => Outcome(s, Some(e))
    case Success(t) =>
      if t.Some? && o.preserveState then Outcome(Preserve(o, env, s, t.value), None) else Outcome(s, None)
  }

  /** The stream handler's `try` block catches the selector's SyntaxError
      and whatever `reinitializeAlpineInElement` throws, and reports it. */
  function OnStreamRender(o: Options, env: Env, s: State, ev: TurboEvent): Outcome
  {
    var s1 := Count(s, StreamUpdates);
    match FindTarget(env.dom, ev)
    case Failure(e) => HandleError(o, s1, e, "handleStreamRender")
    case Success(t) =>
      if t.None? || ShouldSkip(o, env.dom, t) then Outcome(s1, None)
      else
        var r := Reinitialize(o, env, s1, t.value);
        if r.error.Some? then HandleError(o, r.st, r.error.value, "handleStreamRender") else r
  }

  function OnBeforeFrameRender(env: Env, s: State, ev: TurboEvent): Outcome
  {
    match ev.target
    case None => Outcome(s, Some(NoTarget))
    case Some(f) =>
      var els := QueryAll(env.dom, f, [XData]);
      Outcome(s.(ledger := s.ledger - Elems(els), lifecycle := TrackEach(env.dom, s.lifecycle, els, BeforeDestroy)), None)
  }

  function OnFrameRender(o: Options, env: Env, s: State, ev: TurboEvent): Outcome
  {
    var s1 := Count(s, FrameUpdates);
    match ev.target
    case None => Outcome(s1, Some(NoTarget))
    case Some(f) => if ShouldSkip(o, env.dom, ev.target) then Outcome(s1, None) else Reinitialize(o, env, s1, f)
  }

  function Handle(o: Options, env: Env, s: State, kind: EventKind, ev: TurboEvent): Outcome
  {
    match kind
    case BeforeVisit => OnBeforeVisit(env, s, ev)
    case Load => OnLoad(env, s)
    case BeforeStreamRender => OnBeforeStreamRender(o, env, s, ev)
    case StreamRender => OnStreamRender(o, env, s, ev)
    case BeforeFrameRender => OnBeforeFrameRender(env, s, ev)
    case FrameRender => OnFrameRender(o, env, s, ev)
  }

  /** Turbo fires an event at the document: nothing happens unless the
      engine is listening; an error escaping the handler is reported back
      to the engine's window `error` listener. */
  function Dispatch(o: Options, env: Env, s: State, kind: EventKind, ev: TurboEvent): State
  {
    if !s.listening then s
    else
      var r := Handle(o, env, s, kind, ev);
      if r.error.Some? then Uncaught(o, r.st, r.error.value) else r.st
  }

  /** The timer of pending task `k` fires. */
  function RunTask(o: Options, env: Env, s: State, k: nat): State
  {
    if k >= |s.pending| then s
    else
      var t := s.pending[k];
      var s1 := s.(pending := s.pending[..k] + s.pending[k + 1..]);
      var r := RunBody(o, env, s1, t);
      if r.error.Some? then Uncaught(o, r.st, r.error.value) else r.st
  }
}
