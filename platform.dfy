/** What both engines talk to outside themselves: the user's hooks, the
    Alpine API, the Turbo events that reach their listeners, and the record
    of every call they make into that outside world. */
module Platform {
  import opened Wrappers
  import opened JsValues
  import opened Dom

  /** A hook or an Alpine method: not provided (falsy), or provided and
      either returning normally or throwing `error` on every call. */
  datatype Hook = Absent | Returns | Throws(error: JsError)

  /** `window.Alpine` as far as the engines use it. */
  datatype AlpineApi = AlpineApi(destroyTree: Hook, initTree: Hook, start: Hook)

  /** Which globals exist when `init` runs. */
  datatype Globals = Globals(hasWindow: bool, hasAlpine: bool, hasTurbo: bool)

  /** The world a handler or a deferred task runs in: the document as it is
      at that moment and the Alpine API. */
  datatype Env = Env(dom: Document, alpine: AlpineApi)

  /** `event.detail` of a Turbo event, as far as it is read. */
  datatype Detail = Detail(target: Option<NodeId>, selector: Option<string>)

  datatype TurboEvent = TurboEvent(target: Option<NodeId>, detail: Option<Detail>)

  datatype EventKind =
    | BeforeVisit          // turbo:before-visit
    | Load                 // turbo:load
    | BeforeStreamRender   // turbo:before-stream-render
    | StreamRender         // turbo:stream-render
    | BeforeFrameRender    // turbo:before-frame-render
    | FrameRender          // turbo:frame-render

  /** The full engine's usage counters (`this.metrics`). */
  datatype Counters = Counters(streamUpdates: nat, frameUpdates: nat, driveNavigation: nat,
                               reinitializations: nat, errors: nat)

  /** One of the five counters. */
  datatype Counter = StreamUpdates | FrameUpdates | DriveNavigation | Reinitializations | Errors

  /** `this.metrics[c]++` */
  function Bump(m: Counters, c: Counter): Counters
  {
    match c
    case StreamUpdates => m.(streamUpdates := m.streamUpdates + 1)
    case FrameUpdates => m.(frameUpdates := m.frameUpdates + 1)
    case DriveNavigation => m.(driveNavigation := m.driveNavigation + 1)
    case Reinitializations => m.(reinitializations := m.reinitializations + 1)
    case Errors => m.(errors := m.errors + 1)
  }

  /** The second argument given to `onError`: the lite engine passes a bare
      context string, the full engine an info object with the context and a
      snapshot of its counters. */
  datatype ErrorArg = Context(name: string) | Info(context: string, metrics: Counters)

  /** One call from an engine into Alpine or into a user hook, recorded when
      it is made (even when it then throws). `Assign` is the write
      `currentData[prop] = value` made while restoring a snapshot. */
  datatype Effect =
    | DestroyTree(root: NodeId)
    | InitTree(root: NodeId)
    | Start
    | BeforeReinit(element: NodeId)
    | AfterReinit(element: NodeId)
    | OnError(error: JsError, arg: ErrorArg)
    | Assign(element: NodeId, prop: string, value: Json)

  datatype Call = Call(trace: seq<Effect>, error: Option<JsError>)

  /** `if (hook) hook(...)`: an absent hook is skipped; a present one is
      recorded and may throw. */
  function Invoke(h: Hook, e: Effect, trace: seq<Effect>): (c: Call)
    ensures h.Absent? ==> c == Call(trace, None)
    ensures !h.Absent? ==> c.trace == trace + [e] && (c.error.Some? <==> h.Throws?)
    ensures h.Throws? ==> c.error == Some(h.error)
  {
    match h
    case Absent => Call(trace, None)
    case Returns => Call(trace + [e], None)
    case Throws(err) => Call(trace + [e], Some(err))
  }

  /** What a hook that does not throw leaves in the trace. */
  function Calls(h: Hook, e: Effect): seq<Effect>
  {
    if h.Absent? then [] else [e]
  }
}
