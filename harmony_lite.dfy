/** The lite engine (src/index.lite.js) as functions from the old engine
    state to the new one. It has the same shape as the full engine with
    different rules: a different partition, no ancestor fallback, no
    `Alpine.start()` fallback, four listeners, and an `onError` that gets
    a bare context string and whose own throw is not caught. Errors that
    escape a listener or a timer reach the host page; the lite engine
    registers no `error` listener of its own. */
module HarmonyLite {
  import opened Wrappers
  import opened JsValues
  import opened Dom
  import opened Platform

  /** The constructor's options after merging; `debug` and
      `preserveState` are never read by the lite engine. */
  datatype Options = Options(
    skipSelectors: seq<string>,
    reinitDelay: int,
    beforeReinit: Hook,
    afterReinit: Hook,
    onError: Hook,
    autoStart: bool)

  const DefaultOptions: Options := Options(
    [".turbo-harmony-skip", "[data-turbo-harmony-skip]"],
    0,
    Absent,
    Absent,
    Absent,
    true)

  /** The `reinit` closure handed to `setTimeout`, with what it captured. */
  datatype Task = Reinit(element: NodeId, queue: seq<NodeId>)

  datatype State = State(
    isInitialized: bool,
    listening: bool,
    ledger: set<NodeId>,        // initializedElements
    trace: seq<Effect>,
    pending: seq<Task>)

  const Unstarted: State := State(false, false, {}, [], [])

  /** A state change together with the error that escaped it, if any. */
  datatype Outcome = Outcome(st: State, error: Option<JsError>)

  const WindowMissing := ReferenceError("window is not defined")
  const AlpineMissing := Error("TurboHarmony: Alpine.js not found")
  const TurboMissing := Error("TurboHarmony: Turbo not found")
  const ReinitContext := "reinitializeAlpineInElement"

  // ----- init / destroy -----

  /** `init()`: `validateDependencies` reads `window.Alpine` (a missing
      `window` is a ReferenceError), then `window.Turbo`; only then are the
      listeners registered and the flag set. */
  function Init(s: State, g: Globals): Outcome
  {
    if s.isInitialized then Outcome(s, None)
    else if !g.hasWindow then Outcome(s, Some(WindowMissing))
    else if !g.hasAlpine then Outcome(s, Some(AlpineMissing))
    else if !g.hasTurbo then Outcome(s, Some(TurboMissing))
    else Outcome(s.(listening := true, isInitialized := true), None)
  }

  function Create(o: Options, g: Globals): Result<State, JsError>
  {
    if !o.autoStart then Success(Unstarted)
    else
      var r := Init(Unstarted, g);
      if r.error.Some? then Failure(r.error.value) else Success(r.st)
  }

  function Destroy(s: State): State
  {
    s.(listening := false, isInitialized := false)
  }

  // ----- classification -----

  /** `skipSelectors.some(selector => element.matches?.(selector))`: a node
      without `matches` (not an element) is never skipped; the selectors are
      tried in order, the first match wins, and an invalid selector reached
      before any match throws. */
  function ShouldSkip(d: Document, n: NodeId, sels: seq<string>): Result<bool, JsError>
  {
    if |sels| == 0 || !IsElement(d, n) then Success(false)
    else if !ValidSelector(d, sels[0]) then Failure(SyntaxError("invalid selector"))
    else if Matches(d, n, sels[0]) then Success(true)
    else ShouldSkip(d, n, sels[1..])
  }

  /** `event.target || event.detail?.target` */
  function StreamTarget(ev: TurboEvent): Option<NodeId>
  {
    if ev.target.Some? then ev.target
    else if ev.detail.Some? then ev.detail.value.target
    else None
  }

  // ----- the partition -----

  /** `!el._x_dataStack || !this.initializedElements.has(el)`: an empty
      data stack still counts as present. */
  predicate NeedsInit(d: Document, ledger: set<NodeId>, n: NodeId)
  {
    StackOf(d, n).None? || n !in ledger
  }

  function Queue(d: Document, ledger: set<NodeId>, els: seq<NodeId>): seq<NodeId>
  {
    if |els| == 0 then []
    else Queue(d, ledger, els[..|els| - 1]) + (if NeedsInit(d, ledger, els[|els| - 1]) then [els[|els| - 1]] else [])
  }

  // ----- reinitialisation -----

  /** The `reinit` closure: `initTree(element)`, every queued element joins
      the ledger, then `afterReinit(element)`. */
  function RunReinit(o: Options, env: Env, s: State, el: NodeId, queue: seq<NodeId>): Outcome
  {
    var c := Invoke(env.alpine.initTree, InitTree(el), s.trace);
    if c.error.Some? then Outcome(s.(trace := c.trace), c.error)
    else
      var s1 := s.(trace := c.trace, ledger := s.ledger + Elems(queue));
      var a := Invoke(o.afterReinit, AfterReinit(el), s1.trace);
      Outcome(s1.(trace := a.trace), a.error)
  }

  /** The `try` block of `reinitializeAlpineInElement`. */
  function Attempt(o: Options, env: Env, s: State, el: NodeId): Outcome
  {
    var b := Invoke(o.beforeReinit, BeforeReinit(el), s.trace);
    if b.error.Some? then Outcome(s.(trace := b.trace), b.error)
    else
      var queue := Queue(env.dom, s.ledger, QueryAll(env.dom, el, [XData]));
      if |queue| == 0 then Outcome(s.(trace := b.trace), None)
      else
        var c := Invoke(env.alpine.destroyTree, DestroyTree(el), b.trace);
        var s1 := s.(trace := c.trace);
        if c.error.Some? then Outcome(s1, c.error)
        else if o.reinitDelay > 0 then Outcome(s1.(pending := s1.pending + [Reinit(el, queue)]), None)
        else RunReinit(o, env, s1, el, queue)
  }

  /** `reinitializeAlpineInElement(element)`: a caught error goes to
      `onError` with the bare context string, or nowhere; a throw from
      `onError` itself escapes. */
  function Reinitialize(o: Options, env: Env, s: State, el: NodeId): Outcome
  {
    var r := Attempt(o, env, s, el);
    if r.error.None? || o.onError.Absent? then Outcome(r.st, None)
    else
      var c := Invoke(o.onError, OnError(r.error.value, Context(ReinitContext)), r.st.trace);
      Outcome(r.st.(trace := c.trace), c.error)
  }

  // ----- the four handlers -----

  function OnBeforeVisit(env: Env, s: State): Outcome
  {
    var c := Invoke(env.alpine.destroyTree, DestroyTree(env.dom.body), s.trace);
    Outcome(s.(trace := c.trace), c.error)
  }

  function OnLoad(env: Env, s: State): Outcome
  {
    var c := Invoke(env.alpine.initTree, InitTree(env.dom.body), s.trace);
    Outcome(s.(trace := c.trace), c.error)
  }

  /** The stream and frame handlers: nothing without a target; the skip
      test may throw; otherwise reinitialise the target. */
  function OnTarget(o: Options, env: Env, s: State, target: Option<NodeId>): Outcome
  {
    if target.None? then Outcome(s, None)
    else
      match ShouldSkip(env.dom, target.value, o.skipSelectors)
      case Failure(e) => Outcome(s, Some(e))
      case Success(skip) => if skip then Outcome(s, None) else Reinitialize(o, env, s, target.value)
  }

  function OnStreamRender(o: Options, env: Env, s: State, ev: TurboEvent): Outcome
  {
    OnTarget(o, env, s, StreamTarget(ev))
  }

  function OnFrameRender(o: Options, env: Env, s: State, ev: TurboEvent): Outcome
  {
    OnTarget(o, env, s, ev.target)
  }

  /** Turbo fires an event at the document. Only four events have a
      listener; an error escaping a handler reaches the host page. */
  function Dispatch(o: Options, env: Env, s: State, kind: EventKind, ev: TurboEvent): Outcome
  {
    if !s.listening then Outcome(s, None)
    else
      match kind
      case BeforeVisit => OnBeforeVisit(env, s)
      case Load => OnLoad(env, s)
      case StreamRender => OnStreamRender(o, env, s, ev)
      case FrameRender => OnFrameRender(o, env, s, ev)
      case _ => Outcome(s, None)
  }

  /** The timer of pending task `k` fires; what the closure throws reaches
      the host page. */
  function RunTask(o: Options, env: Env, s: State, k: nat): Outcome
  {
    if k >= |s.pending| then Outcome(s, None)
    else
      var t := s.pending[k];
      RunReinit(o, env, s.(pending := s.pending[..k] + s.pending[k + 1..]), t.element, t.queue)
  }
}
