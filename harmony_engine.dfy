/** The full engine as the class src/index.js declares: instance fields
    updated in place by its methods. Each method is proved to leave the
    instance in the state the matching function of module Harmony
    describes. */
module HarmonyEngine {
  import opened Wrappers
  import opened JsValues
  import opened Dom
  import opened Platform
  import opened Harmony

  class TurboHarmony {
    const options: Options
    var isInitialized: bool
    var listening: bool
    var initializedElements: set<NodeId>
    var preservedStates: map<NodeId, map<string, Json>>
    var metrics: Counters
    var componentLifecycle: seq<LifecycleEntry>
    /** The calls made into Alpine and into the user's hooks so far. */
    var trace: seq<Effect>
    /** The `setTimeout` callbacks that have not fired yet. */
    var pending: seq<Task>

    function Current(): State
      reads this
    {
      State(isInitialized, listening, initializedElements, preservedStates, metrics, componentLifecycle, trace, pending)
    }

    /** The constructor up to, but not including, its `autoStart` call. */
    constructor (options: Options)
      ensures this.options == options && Current() == Unstarted
    {
      this.options := options;
      isInitialized := false;
      listening := false;
      initializedElements := {};
      preservedStates := map[];
      metrics := ZeroCounters;
      componentLifecycle := [];
      trace := [];
      pending := [];
    }

    /** `new TurboHarmony(options)`, including the `autoStart` call to
        `init`, whose error the constructor throws. */
    static method Create(options: Options, g: Globals) returns (r: Result<TurboHarmony, JsError>)
      ensures r.Success? <==> Harmony.Create(options, g).Success?
      ensures r.Success? ==> fresh(r.value) && r.value.options == options && r.value.Current() == Harmony.Create(options, g).value
      ensures r.Failure? ==> r.error == Harmony.Create(options, g).error
    {
      var h := new TurboHarmony(options);
      if options.autoStart {
        var error := h.Init(g);
        if error.Some? {
          return Failure(error.value);
        }
      }
      return Success(h);
    }

    method Init(g: Globals) returns (error: Option<JsError>)
      modifies this
      ensures Outcome(Current(), error) == Harmony.Init(old(Current()), g)
    {
      if isInitialized {
        return None;
      }
      error := ValidateDependencies(g);
      if error.Some? {
        return;
      }
      listening := true;   // setupEventListeners
      isInitialized := true;
    }

    method ValidateDependencies(g: Globals) returns (error: Option<JsError>)
      ensures error.None? <==> g.hasWindow && g.hasAlpine && g.hasTurbo
      ensures !g.hasWindow ==> error == Some(WindowMissing)
      ensures g.hasWindow && !g.hasAlpine ==> error == Some(AlpineMissing)
      ensures g.hasWindow && g.hasAlpine && !g.hasTurbo ==> error == Some(TurboMissing)
    {
      if !g.hasWindow {
        return Some(WindowMissing);
      }
      if !g.hasAlpine {
        return Some(AlpineMissing);
      }
      if !g.hasTurbo {
        return Some(TurboMissing);
      }
      return None;
    }

    method Destroy()
      modifies this
      ensures Current() == Harmony.Destroy(old(Current()))
    {
      listening := false;
      isInitialized := false;
    }

    method ResetMetrics()
      modifies this
      ensures Current() == Harmony.ResetMetrics(old(Current()))
    {
      metrics := ZeroCounters;
    }

    method Increment(c: Counter)
      modifies this
      ensures Current() == Count(old(Current()), c)
    {
      metrics := Bump(metrics, c);
    }

    method HandleError(err: JsError, context: string) returns (error: Option<JsError>)
      modifies this
      ensures Outcome(Current(), error) == Harmony.HandleError(options, old(Current()), err, context)
    {
      Increment(Errors);
      if Nullish(err) {
        return Some(MessageReadError(err));   // reading `error.message`
      }
      if !options.onError.Absent? {
        trace := trace + [OnError(err, Info(context, metrics))];
      }
      return None;
    }

    /** The browser reporting an error that escaped a listener or a timer;
        the error event always has a message, so the report cannot throw. */
    method ReportUncaught(err: JsError)
      modifies this
      ensures Current() == Uncaught(options, old(Current()), err)
    {
      if listening {
        var reported := HandleError(ErrorEvent(err), "");
      }
    }

    /** The browser reporting a promise rejection nobody handled. */
    method ReportRejection(reason: JsError)
      modifies this
      ensures Current() == Rejected(options, old(Current()), reason)
    {
      if listening {
        var reported := HandleError(RejectionEvent(reason), "");
      }
    }

    method TrackComponentLifecycle(d: Document, el: NodeId, ev: LifecycleEvent)
      modifies this
      ensures Current() == old(Current()).(lifecycle := Track(old(componentLifecycle), KeyOf(d, el), ev))
    {
      componentLifecycle := Track(componentLifecycle, KeyOf(d, el), ev);
    }

    /** The `forEach` that builds `elementsToInit`. */
    method Partition(d: Document, els: seq<NodeId>) returns (elementsToInit: seq<NodeId>)
      modifies this
      ensures elementsToInit == Queue(d, old(initializedElements), els)
      ensures Current() == old(Current()).(lifecycle := TrackPartition(d, old(initializedElements), old(componentLifecycle), els))
    {
      ghost var s0 := Current();
      elementsToInit := [];
      var i := 0;
      while i < |els|
        invariant 0 <= i <= |els|
        invariant elementsToInit == Queue(d, s0.ledger, els[..i])
        invariant Current() == s0.(lifecycle := TrackPartition(d, s0.ledger, s0.lifecycle, els[..i]))
      {
        var el := els[i];
        assert els[..i + 1][..i] == els[..i];
        if HasLiveStack(d, el) && el in initializedElements {
          TrackComponentLifecycle(d, el, Skipped);
        } else {
          elementsToInit := elementsToInit + [el];
          TrackComponentLifecycle(d, el, Queued);
        }
        i := i + 1;
      }
      assert els[..i] == els;
    }

    /** The `forEach` that marks the queued elements as initialised. */
    method MarkInitialized(d: Document, queue: seq<NodeId>)
      modifies this
      ensures Current() == Harmony.MarkInitialized(d, old(Current()), queue)
    {
      ghost var s0 := Current();
      var i := 0;
      while i < |queue|
        invariant 0 <= i <= |queue|
        invariant Current() == Harmony.MarkInitialized(d, s0, queue[..i])
      {
        var el := queue[i];
        assert queue[..i + 1][..i] == queue[..i];
        assert Elems(queue[..i + 1]) == Elems(queue[..i]) + {el};
        initializedElements := initializedElements + {el};
        TrackComponentLifecycle(d, el, Initialized);
        i := i + 1;
      }
      assert queue[..i] == queue;
    }

    /** `preserveAlpineState(element)` */
    method PreserveAlpineState(env: Env, el: NodeId)
      modifies this
      ensures Current() == Preserve(options, env, old(Current()), el)
    {
      var query := QuerySelectorAll(env.dom, el, options.preserveStateSelectors);
      if query.Failure? {
        var reported := HandleError(query.error, "preserveAlpineState");
        return;
      }
      var alpineElements := query.value;
      var states: map<string, Json> := map[];
      var i := 0;
      while i < |alpineElements|
        invariant 0 <= i <= |alpineElements|
        invariant states == Snapshots(env.dom, alpineElements[..i])
      {
        var n := alpineElements[i];
        assert alpineElements[..i + 1][..i] == alpineElements[..i];
        if HasLiveStack(env.dom, n) {
          var state := SafeStringify(StackOf(env.dom, n).value[0]);
          if state.Success? && state.value.Some? {
            states := states[KeyOf(env.dom, n) := state.value.value];
          }
          // otherwise the throw is caught and logged, and the element skipped
        }
        i := i + 1;
      }
      assert alpineElements[..i] == alpineElements;
      preservedStates := preservedStates[el := states];
    }

    /** `restoreAlpineState(element)` */
    method RestoreAlpineState(el: NodeId)
      modifies this
      ensures Current() == ScheduleRestore(old(Current()), el)
    {
      if el in preservedStates {
        pending := pending + [RestoreState(el, preservedStates[el])];
      }
    }

    /** The writes for one element in the restore tick. */
    method RestoreElement(d: Document, n: NodeId, saved: map<string, Json>)
      modifies this
      ensures trace == old(trace) + ElementWrites(d, n, saved)
      ensures Current() == old(Current()).(trace := trace)
    {
      var key := KeyOf(d, n);
      if !(key in saved && Truthy(saved[key]) && HasLiveStack(d, n)) {
        assert ElementWrites(d, n, saved) == [];
        return;
      }
      var props := SavedMembers(saved[key]);
      var currentData := StackOf(d, n).value[0];
      ghost var t0 := trace;
      var j := 0;
      while j < |props|
        invariant 0 <= j <= |props|
        invariant trace == t0 + PropWrites(n, props[..j], currentData)
        invariant Current() == old(Current()).(trace := trace)
      {
        var prop := props[j];
        assert props[..j + 1][..j] == props[..j];
        var descriptor := OwnProperty(currentData.props, prop.name);
        if ShouldWrite(descriptor) {
          trace := trace + [Assign(n, prop.name, prop.value)];
        }
        j := j + 1;
      }
      assert props[..j] == props;
    }

    /** The `forEach` of the restore tick. */
    method RestoreElements(d: Document, els: seq<NodeId>, saved: map<string, Json>)
      modifies this
      ensures trace == old(trace) + RestoreWrites(d, els, saved)
      ensures Current() == old(Current()).(trace := trace)
    {
      ghost var t0 := trace;
      var i := 0;
      while i < |els|
        invariant 0 <= i <= |els|
        invariant trace == t0 + RestoreWrites(d, els[..i], saved)
        invariant Current() == old(Current()).(trace := trace)
      {
        RestoreWritesStep(d, els, i, saved);
        RestoreElement(d, els[i], saved);
        i := i + 1;
      }
      assert els[..i] == els;
    }

    /** The restore tick scheduled by `restoreAlpineState`. */
    method RunRestore(env: Env, el: NodeId, saved: map<string, Json>) returns (error: Option<JsError>)
      modifies this
      ensures Outcome(Current(), error) == Harmony.RunRestore(options, env, old(Current()), el, saved)
    {
      var query := QuerySelectorAll(env.dom, el, options.preserveStateSelectors);
      if query.Failure? {
        return Some(query.error);
      }
      RestoreElements(env.dom, query.value, saved);
      preservedStates := preservedStates - {el};
      return None;
    }

    method AfterReinitHook(el: NodeId) returns (error: Option<JsError>)
      modifies this
      ensures Outcome(Current(), error) == AfterHook(options, old(Current()), el)
    {
      var c := Invoke(options.afterReinit, AfterReinit(el), trace);
      trace := c.trace;
      error := c.error;
    }

    /** The body of a `setTimeout` callback or of a `reinit` run at once. */
    method RunBody(env: Env, t: Task) returns (error: Option<JsError>)
      modifies this
      ensures Outcome(Current(), error) == Harmony.RunBody(options, env, old(Current()), t)
    {
      match t
      case ReinitSubtree(el, queue) =>
        var c;
        if !env.alpine.initTree.Absent? {
          c := Invoke(env.alpine.initTree, InitTree(el), trace);
        } else {
          c := Invoke(env.alpine.start, Start, trace);
        }
        trace := c.trace;
        if c.error.Some? {
          return c.error;
        }
        MarkInitialized(env.dom, queue);
        if options.preserveState {
          RestoreAlpineState(el);
        }
        error := AfterReinitHook(el);
      case ReinitFromAncestor(el, p) =>
        var c1 := Invoke(env.alpine.destroyTree, DestroyTree(p), trace);
        trace := c1.trace;
        if c1.error.Some? {
          return c1.error;
        }
        var c2 := Invoke(env.alpine.initTree, InitTree(p), trace);
        trace := c2.trace;
        if c2.error.Some? {
          return c2.error;
        }
        error := AfterReinitHook(el);
      case InitElement(el) =>
        var c := Invoke(env.alpine.initTree, InitTree(el), trace);
        trace := c.trace;
        if c.error.Some? {
          return c.error;
        }
        error := AfterReinitHook(el);
      case RestoreState(el, saved) =>
        error := RunRestore(env, el, saved);
    }

    method ScheduleTask(env: Env, t: Task) returns (error: Option<JsError>)
      modifies this
      ensures Outcome(Current(), error) == Schedule(options, env, old(Current()), t)
    {
      if options.reinitDelay > 0 {
        pending := pending + [t];
        return None;
      }
      error := RunBody(env, t);
    }

    /** The `try` block of `reinitializeAlpineInElement`. */
    method ReinitAttempt(env: Env, el: NodeId) returns (error: Option<JsError>)
      modifies this
      ensures Outcome(Current(), error) == Harmony.ReinitAttempt(options, env, old(Current()), el)
    {
      var c := Invoke(options.beforeReinit, BeforeReinit(el), trace);
      trace := c.trace;
      if c.error.Some? {
        return c.error;
      }
      if options.preserveState {
        PreserveAlpineState(env, el);
      }
      error := Rebuild(env, el);
    }

    /** The partition and the three cases that follow it. */
    method Rebuild(env: Env, el: NodeId) returns (error: Option<JsError>)
      modifies this
      ensures Outcome(Current(), error) == Harmony.Rebuild(options, env, old(Current()), el)
    {
      var alpineElements := QueryAll(env.dom, el, [XData]);
      var elementsToInit := Partition(env.dom, alpineElements);
      if |elementsToInit| > 0 {
        var d := Invoke(env.alpine.destroyTree, DestroyTree(el), trace);
        trace := d.trace;
        if d.error.Some? {
          return d.error;
        }
        error := ScheduleTask(env, ReinitSubtree(el, elementsToInit));
      } else {
        var parentWithData := Closest(env.dom, el, XData);
        if parentWithData.Some? {
          error := ScheduleTask(env, ReinitFromAncestor(el, parentWithData.value));
        } else {
          error := ScheduleTask(env, InitElement(el));
        }
      }
    }

    /** `reinitializeAlpineInElement(element)` */
    method ReinitializeAlpineInElement(env: Env, el: NodeId) returns (error: Option<JsError>)
      modifies this
      ensures Outcome(Current(), error) == Reinitialize(options, env, old(Current()), el)
    {
      Increment(Reinitializations);
      var caught := ReinitAttempt(env, el);
      if caught.Some? {
        error := HandleError(caught.value, "reinitializeAlpineInElement");
      } else {
        error := None;
      }
    }

    method ReinitializeAll(env: Env) returns (error: Option<JsError>)
      modifies this
      ensures Outcome(Current(), error) == Harmony.ReinitializeAll(options, env, old(Current()))
    {
      error := ReinitializeAlpineInElement(env, env.dom.body);
    }

    method HandleBeforeVisit(env: Env, ev: TurboEvent) returns (error: Option<JsError>)
      modifies this
      ensures Outcome(Current(), error) == OnBeforeVisit(env, old(Current()), ev)
    {
      Increment(DriveNavigation);
      if ev.detail.None? {
        return Some(NoDetail);
      }
      var c := Invoke(env.alpine.destroyTree, DestroyTree(env.dom.body), trace);
      trace := c.trace;
      error := c.error;
    }

    method HandleLoad(env: Env) returns (error: Option<JsError>)
      modifies this
      ensures Outcome(Current(), error) == OnLoad(env, old(Current()))
    {
      var c := Invoke(env.alpine.initTree, InitTree(env.dom.body), trace);
      trace := c.trace;
      error := c.error;
    }

    method HandleBeforeStreamRender(env: Env, ev: TurboEvent) returns (error: Option<JsError>)
      modifies this
      ensures Outcome(Current(), error) == OnBeforeStreamRender(options, env, old(Current()), ev)
    {
      var target := FindTarget(env.dom, ev);
      if target.Failure? {
        return Some(target.error);
      }
      if target.value.Some? && options.preserveState {
        PreserveAlpineState(env, target.value.value);
      }
      return None;
    }

    method HandleStreamRender(env: Env, ev: TurboEvent) returns (error: Option<JsError>)
      modifies this
      ensures Outcome(Current(), error) == OnStreamRender(options, env, old(Current()), ev)
    {
      Increment(StreamUpdates);
      var target := FindTarget(env.dom, ev);
      if target.Failure? {
        error := HandleError(target.error, "handleStreamRender");
        return;
      }
      if target.value.None? || ShouldSkip(options, env.dom, target.value) {
        return None;
      }
      var caught := ReinitializeAlpineInElement(env, target.value.value);
      if caught.Some? {
        error := HandleError(caught.value, "handleStreamRender");
      } else {
        error := None;
      }
    }

    /** The `forEach` of the before-frame-render handler. */
    method ForgetElements(d: Document, els: seq<NodeId>)
      modifies this
      ensures Current() == old(Current()).(ledger := old(initializedElements) - Elems(els),
                                           lifecycle := TrackEach(d, old(componentLifecycle), els, BeforeDestroy))
    {
      ghost var s0 := Current();
      var i := 0;
      while i < |els|
        invariant 0 <= i <= |els|
        invariant Current() == s0.(ledger := s0.ledger - Elems(els[..i]),
                                   lifecycle := TrackEach(d, s0.lifecycle, els[..i], BeforeDestroy))
      {
        var el := els[i];
        assert els[..i + 1][..i] == els[..i];
        assert Elems(els[..i + 1]) == Elems(els[..i]) + {el};
        initializedElements := initializedElements - {el};
        TrackComponentLifecycle(d, el, BeforeDestroy);
        i := i + 1;
      }
      assert els[..i] == els;
    }

    method HandleBeforeFrameRender(env: Env, ev: TurboEvent) returns (error: Option<JsError>)
      modifies this
      ensures Outcome(Current(), error) == OnBeforeFrameRender(env, old(Current()), ev)
    {
      if ev.target.None? {
        return Some(NoTarget);
      }
      ForgetElements(env.dom, QueryAll(env.dom, ev.target.value, [XData]));
      return None;
    }

    method HandleFrameRender(env: Env, ev: TurboEvent) returns (error: Option<JsError>)
      modifies this
      ensures Outcome(Current(), error) == OnFrameRender(options, env, old(Current()), ev)
    {
      Increment(FrameUpdates);
      if ev.target.None? {
        return Some(NoTarget);
      }
      if ShouldSkip(options, env.dom, ev.target) {
        return None;
      }
      error := ReinitializeAlpineInElement(env, ev.target.value);
    }

    /** Turbo fires `kind` at the document. */
    method Dispatch(env: Env, kind: EventKind, ev: TurboEvent)
      modifies this
      ensures Current() == Harmony.Dispatch(options, env, old(Current()), kind, ev)
    {
      if !listening {
        return;
      }
      var error: Option<JsError>;
      match kind {
        case BeforeVisit => error := HandleBeforeVisit(env, ev);
        case Load => error := HandleLoad(env);
        case BeforeStreamRender => error := HandleBeforeStreamRender(env, ev);
        case StreamRender => error := HandleStreamRender(env, ev);
        case BeforeFrameRender => error := HandleBeforeFrameRender(env, ev);
        case FrameRender => error := HandleFrameRender(env, ev);
      }
      if error.Some? {
        ReportUncaught(error.value);
      }
    }

    /** The timer of pending task `k` fires. */
    method RunTask(env: Env, k: nat)
      modifies this
      ensures Current() == Harmony.RunTask(options, env, old(Current()), k)
    {
      if k >= |pending| {
        return;
      }
      var t := pending[k];
      pending := pending[..k] + pending[k + 1..];
      var error := RunBody(env, t);
      if error.Some? {
        ReportUncaught(error.value);
      }
    }
  }
}
