/** The lite engine as the class src/index.lite.js declares. Each method is
    proved to leave the instance in the state the matching function of
    module HarmonyLite describes. */
module HarmonyLiteEngine {
  import opened Wrappers
  import opened JsValues
  import opened Dom
  import opened Platform
  import opened HarmonyLite

  class TurboHarmony {
    const options: Options
    var isInitialized: bool
    var listening: bool
    var initializedElements: set<NodeId>
    /** The calls made into Alpine and into the user's hooks so far. */
    var trace: seq<Effect>
    /** The `setTimeout` callbacks that have not fired yet. */
    var pending: seq<Task>

    function Current(): State
      reads this
    {
      State(isInitialized, listening, initializedElements, trace, pending)
    }

    /** The constructor up to, but not including, its `autoStart` call. */
    constructor (options: Options)
      ensures this.options == options && Current() == Unstarted
    {
      this.options := options;
      isInitialized := false;
      listening := false;
      initializedElements := {};
      trace := [];
      pending := [];
    }

    /** `new TurboHarmony(options)`, including the `autoStart` call to
        `init`, whose error the constructor throws. */
    static method Create(options: Options, g: Globals) returns (r: Result<TurboHarmony, JsError>)
      ensures r.Success? <==> HarmonyLite.Create(options, g).Success?
      ensures r.Success? ==> fresh(r.value) && r.value.options == options && r.value.Current() == HarmonyLite.Create(options, g).value
      ensures r.Failure? ==> r.error == HarmonyLite.Create(options, g).error
    {
      var h := new TurboHarmony(options);
      if options.autoStart {
        var error := h.Init(g);
        if error.Some? {
          return Failure(error.value);
        }
      }
      return Success(h);
    }

    method Init(g: Globals) returns (error: Option<JsError>)
      modifies this
      ensures Outcome(Current(), error) == HarmonyLite.Init(old(Current()), g)
    {
      if isInitialized {
        return None;
      }
      error := ValidateDependencies(g);
      if error.Some? {
        return;
      }
      listening := true;   // setupEventListeners
      isInitialized := true;
    }

    method ValidateDependencies(g: Globals) returns (error: Option<JsError>)
      ensures error.None? <==> g.hasWindow && g.hasAlpine && g.hasTurbo
      ensures !g.hasWindow ==> error == Some(WindowMissing)
      ensures g.hasWindow && !g.hasAlpine ==> error == Some(AlpineMissing)
      ensures g.hasWindow && g.hasAlpine && !g.hasTurbo ==> error == Some(TurboMissing)
    {
      if !g.hasWindow {
        return Some(WindowMissing);
      }
      if !g.hasAlpine {
        return Some(AlpineMissing);
      }
      if !g.hasTurbo {
        return Some(TurboMissing);
      }
      return None;
    }

    method Destroy()
      modifies this
      ensures Current() == HarmonyLite.Destroy(old(Current()))
    {
      listening := false;
      isInitialized := false;
    }

    /** The `forEach` that builds `elementsToInit`. */
    method Partition(d: Document, els: seq<NodeId>) returns (elementsToInit: seq<NodeId>)
      ensures elementsToInit == Queue(d, initializedElements, els)
    {
      elementsToInit := [];
      var i := 0;
      while i < |els|
        invariant 0 <= i <= |els|
        invariant elementsToInit == Queue(d, initializedElements, els[..i])
      {
        var el := els[i];
        assert els[..i + 1][..i] == els[..i];
        if StackOf(d, el).None? || el !in initializedElements {
          elementsToInit := elementsToInit + [el];
        }
        i := i + 1;
      }
      assert els[..i] == els;
    }

    /** The `forEach` that adds the queued elements to the ledger. */
    method MarkInitialized(queue: seq<NodeId>)
      modifies this
      ensures Current() == old(Current()).(ledger := old(initializedElements) + Elems(queue))
    {
      ghost var s0 := Current();
      var i := 0;
      while i < |queue|
        invariant 0 <= i <= |queue|
        invariant Current() == s0.(ledger := s0.ledger + Elems(queue[..i]))
      {
        assert queue[..i + 1][..i] == queue[..i];
        assert Elems(queue[..i + 1]) == Elems(queue[..i]) + {queue[i]};
        initializedElements := initializedElements + {queue[i]};
        i := i + 1;
      }
      assert queue[..i] == queue;
    }

    /** The `reinit` closure. */
    method RunReinit(env: Env, el: NodeId, queue: seq<NodeId>) returns (error: Option<JsError>)
      modifies this
      ensures Outcome(Current(), error) == HarmonyLite.RunReinit(options, env, old(Current()), el, queue)
    {
      var c := Invoke(env.alpine.initTree, InitTree(el), trace);
      trace := c.trace;
      if c.error.Some? {
        return c.error;
      }
      MarkInitialized(queue);
      var a := Invoke(options.afterReinit, AfterReinit(el), trace);
      trace := a.trace;
      error := a.error;
    }

    /** The `try` block of `reinitializeAlpineInElement`. */
    method Attempt(env: Env, el: NodeId) returns (error: Option<JsError>)
      modifies this
      ensures Outcome(Current(), error) == HarmonyLite.Attempt(options, env, old(Current()), el)
    {
      var b := Invoke(options.beforeReinit, BeforeReinit(el), trace);
      trace := b.trace;
      if b.error.Some? {
        return b.error;
      }
      var alpineElements := QueryAll(env.dom, el, [XData]);
      var elementsToInit := Partition(env.dom, alpineElements);
      if |elementsToInit| == 0 {
        return None;
      }
      var c := Invoke(env.alpine.destroyTree, DestroyTree(el), trace);
      trace := c.trace;
      if c.error.Some? {
        return c.error;
      }
      if options.reinitDelay > 0 {
        pending := pending + [Reinit(el, elementsToInit)];
        return None;
      }
      error := RunReinit(env, el, elementsToInit);
    }

    /** `reinitializeAlpineInElement(element)` */
    method ReinitializeAlpineInElement(env: Env, el: NodeId) returns (error: Option<JsError>)
      modifies this
      ensures Outcome(Current(), error) == Reinitialize(options, env, old(Current()), el)
    {
      var caught := Attempt(env, el);
      if caught.None? || options.onError.Absent? {
        return None;
      }
      var c := Invoke(options.onError, OnError(caught.value, Context(ReinitContext)), trace);
      trace := c.trace;
      error := c.error;
    }

    method HandleBeforeVisit(env: Env) returns (error: Option<JsError>)
      modifies this
      ensures Outcome(Current(), error) == OnBeforeVisit(env, old(Current()))
    {
      var c := Invoke(env.alpine.destroyTree, DestroyTree(env.dom.body), trace);
      trace := c.trace;
      error := c.error;
    }

    method HandleLoad(env: Env) returns (error: Option<JsError>)
      modifies this
      ensures Outcome(Current(), error) == OnLoad(env, old(Current()))
    {
      var c := Invoke(env.alpine.initTree, InitTree(env.dom.body), trace);
      trace := c.trace;
      error := c.error;
    }

    /** The common part of the stream and frame handlers. */
    method ReinitializeTarget(env: Env, target: Option<NodeId>) returns (error: Option<JsError>)
      modifies this
      ensures Outcome(Current(), error) == OnTarget(options, env, old(Current()), target)
    {
      if target.None? {
        return None;
      }
      var skip := ShouldSkip(env.dom, target.value, options.skipSelectors);
      if skip.Failure? {
        return Some(skip.error);
      }
      if skip.value {
        return None;
      }
      error := ReinitializeAlpineInElement(env, target.value);
    }

    method HandleStreamRender(env: Env, ev: TurboEvent) returns (error: Option<JsError>)
      modifies this
      ensures Outcome(Current(), error) == OnStreamRender(options, env, old(Current()), ev)
    {
      error := ReinitializeTarget(env, StreamTarget(ev));
    }

    method HandleFrameRender(env: Env, ev: TurboEvent) returns (error: Option<JsError>)
      modifies this
      ensures Outcome(Current(), error) == OnFrameRender(options, env, old(Current()), ev)
    {
      error := ReinitializeTarget(env, ev.target);
    }

    /** Turbo fires `kind` at the document; the error returned is the one
        that reaches the host page. */
    method Dispatch(env: Env, kind: EventKind, ev: TurboEvent) returns (error: Option<JsError>)
      modifies this
      ensures Outcome(Current(), error) == HarmonyLite.Dispatch(options, env, old(Current()), kind, ev)
    {
      if !listening {
        return None;
      }
      match kind {
        case BeforeVisit => error := HandleBeforeVisit(env);
        case Load => error := HandleLoad(env);
        case StreamRender => error := HandleStreamRender(env, ev);
        case FrameRender => error := HandleFrameRender(env, ev);
        case _ => error := None;
      }
    }

    /** The timer of pending task `k` fires. */
    method RunTask(env: Env, k: nat) returns (error: Option<JsError>)
      modifies this
      ensures Outcome(Current(), error) == HarmonyLite.RunTask(options, env, old(Current()), k)
    {
      if k >= |pending| {
        return None;
      }
      var t := pending[k];
      pending := pending[..k] + pending[k + 1..];
      error := RunReinit(env, t.element, t.queue);
    }
  }
}
