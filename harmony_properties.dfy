/** What the full engine (src/index.js) guarantees, stated over the
    functions of module Harmony. */
module HarmonyProperties {
  import opened Wrappers
  import opened JsValues
  import opened Dom
  import opened Platform
  import opened Harmony
  import JsProperties

  /** The `[x-data]` descendants of `el`. */
  function Components(env: Env, el: NodeId): seq<NodeId>
  {
    QueryAll(env.dom, el, [XData])
  }

  /** `elementsToInit` for a call on `el` in state `s`. */
  function QueueOf(env: Env, s: State, el: NodeId): seq<NodeId>
  {
    Queue(env.dom, s.ledger, Components(env, el))
  }

  lemma XDataList(d: Document, n: NodeId)
    ensures MatchesList(d, n, [XData]) <==> IsElement(d, n) && d.nodes[n].hasXData
  {
    if IsElement(d, n) && d.nodes[n].hasXData {
      assert Matches(d, n, [XData][0]);
    }
  }

  // ----- the partition -----

  lemma {:induction false} QueueMembers(d: Document, ledger: set<NodeId>, els: seq<NodeId>, n: NodeId)
    ensures n in Queue(d, ledger, els) <==> n in els && !Live(d, ledger, n)
  {
    if |els| > 0 {
      var init := els[..|els| - 1];
      QueueMembers(d, ledger, init, n);
      assert els == init + [els[|els| - 1]];
    }
  }

  lemma {:induction false} QueueKeepsOrder(d: Document, ledger: set<NodeId>, els: seq<NodeId>)
    requires forall i, j :: 0 <= i < j < |els| ==> els[i] < els[j]
    ensures forall i, j :: 0 <= i < j < |Queue(d, ledger, els)| ==> Queue(d, ledger, els)[i] < Queue(d, ledger, els)[j]
  {
    if |els| > 0 {
      var init := els[..|els| - 1];
      var last := els[|els| - 1];
      var qi := Queue(d, ledger, init);
      QueueKeepsOrder(d, ledger, init);
      var q := Queue(d, ledger, els);
      assert q == qi + (if Live(d, ledger, last) then [] else [last]);
      forall i, j | 0 <= i < j < |q|
        ensures q[i] < q[j]
      {
        assert q[i] == qi[i];
        if j >= |qi| {
          assert q[j] == last;
          QueueMembers(d, ledger, init, qi[i]);
          var k :| 0 <= k < |init| && init[k] == qi[i];
          assert els[k] == init[k];
        } else {
          assert q[j] == qi[j];
        }
      }
    }
  }

  /** The partition queues exactly the `[x-data]` descendants that are not
      live (data stack empty or missing, or not in the ledger), in document
      order; the live ones are skipped. */
  lemma PartitionQueue(env: Env, s: State, el: NodeId)
    ensures var q := QueueOf(env, s, el);
      (forall n: NodeId :: n in q <==>
        IsElement(env.dom, n) && IsAncestor(env.dom, el, n) && env.dom.nodes[n].hasXData && !Live(env.dom, s.ledger, n))
      && (forall i, j :: 0 <= i < j < |q| ==> q[i] < q[j])
  {
    var els := Components(env, el);
    forall n: NodeId
      ensures n in QueueOf(env, s, el) <==>
        IsElement(env.dom, n) && IsAncestor(env.dom, el, n) && env.dom.nodes[n].hasXData && !Live(env.dom, s.ledger, n)
    {
      QueueMembers(env.dom, s.ledger, els, n);
      XDataList(env.dom, n);
    }
    QueueKeepsOrder(env.dom, s.ledger, els);
  }

  // ----- the deferred bodies -----

  /** The calls Case A's `reinit` makes into Alpine. */
  function InitCalls(env: Env, el: NodeId): seq<Effect>
  {
    if env.alpine.initTree.Absent? then Calls(env.alpine.start, Start) else [InitTree(el)]
  }

  /** Case A's `reinit`: init (or start), the ledger gains the queue, the
      restore tick is scheduled when a snapshot exists, then `afterReinit`. */
  lemma RunSubtree(o: Options, env: Env, s: State, el: NodeId, q: seq<NodeId>)
    requires !env.alpine.initTree.Throws? && (env.alpine.initTree.Absent? ==> !env.alpine.start.Throws?) && !o.afterReinit.Throws?
    ensures var r := RunBody(o, env, s, ReinitSubtree(el, q));
      r.error.None?
      && r.st.trace == s.trace + InitCalls(env, el) + Calls(o.afterReinit, AfterReinit(el))
      && r.st.ledger == s.ledger + Elems(q)
      && r.st.pending == (if o.preserveState && el in s.preserved then s.pending + [RestoreState(el, s.preserved[el])] else s.pending)
      && r.st.preserved == s.preserved && r.st.metrics == s.metrics
  {
    var s3 := MarkInitialized(env.dom, s.(trace := s.trace + InitCalls(env, el)), q);
    var s4 := if o.preserveState then ScheduleRestore(s3, el) else s3;
    assert RunBody(o, env, s, ReinitSubtree(el, q)) == AfterHook(o, s4, el);
  }

  /** Case A's `reinit` when init (or start) throws: the ledger is untouched. */
  lemma RunSubtreeFailure(o: Options, env: Env, s: State, el: NodeId, q: seq<NodeId>)
    requires if env.alpine.initTree.Absent? then env.alpine.start.Throws? else env.alpine.initTree.Throws?
    ensures var r := RunBody(o, env, s, ReinitSubtree(el, q));
      r.error.Some? && r.st == s.(trace := s.trace + InitCalls(env, el))
  {
  }

  /** Case B's `reinit`. */
  lemma RunFromAncestor(o: Options, env: Env, s: State, el: NodeId, p: NodeId)
    requires !env.alpine.destroyTree.Throws? && !env.alpine.initTree.Throws? && !o.afterReinit.Throws?
    ensures var r := RunBody(o, env, s, ReinitFromAncestor(el, p));
      r.error.None?
      && r == Outcome(s.(trace := s.trace + Calls(env.alpine.destroyTree, DestroyTree(p)) + Calls(env.alpine.initTree, InitTree(p))
                                    + Calls(o.afterReinit, AfterReinit(el))), None)
  {
  }

  /** Case C's `reinit`: never destroys. */
  lemma RunInitElement(o: Options, env: Env, s: State, el: NodeId)
    ensures var r := RunBody(o, env, s, InitElement(el));
      r.st == s.(trace := r.st.trace)
      && |s.trace| <= |r.st.trace| && r.st.trace[..|s.trace|] == s.trace
      && (forall k :: |s.trace| <= k < |r.st.trace| ==> !r.st.trace[k].DestroyTree?)
      && (!env.alpine.initTree.Throws? && !o.afterReinit.Throws? ==>
            r.error.None? && r.st.trace == s.trace + Calls(env.alpine.initTree, InitTree(el)) + Calls(o.afterReinit, AfterReinit(el)))
  {
  }

  // ----- the three cases -----

  /** The state after the partition, before any Alpine call. */
  function Partitioned(env: Env, s: State, el: NodeId): State
  {
    s.(lifecycle := TrackPartition(env.dom, s.ledger, s.lifecycle, Components(env, el)))
  }

  /** Case A without a delay: `destroyTree(element)` first, then
      `initTree(element)` (or `Alpine.start()` when `initTree` is
      missing), then `afterReinit(element)`; the ledger gains exactly the
      queued elements and, with state preservation, the restore tick is
      scheduled. */
  lemma CaseARebuildsSubtree(o: Options, env: Env, s: State, el: NodeId)
    requires |QueueOf(env, s, el)| > 0 && o.reinitDelay <= 0
    requires !env.alpine.destroyTree.Throws? && !env.alpine.initTree.Throws? && (env.alpine.initTree.Absent? ==> !env.alpine.start.Throws?)
    requires !o.afterReinit.Throws?
    ensures var r := Rebuild(o, env, s, el);
      r.error.None?
      && r.st.trace == s.trace + Calls(env.alpine.destroyTree, DestroyTree(el)) + InitCalls(env, el)
                       + Calls(o.afterReinit, AfterReinit(el))
      && r.st.ledger == s.ledger + Elems(QueueOf(env, s, el))
      && r.st.pending == (if o.preserveState && el in s.preserved then s.pending + [RestoreState(el, s.preserved[el])] else s.pending)
      && r.st.preserved == s.preserved && r.st.metrics == s.metrics
  {
    var q := QueueOf(env, s, el);
    var s2 := Partitioned(env, s, el).(trace := s.trace + Calls(env.alpine.destroyTree, DestroyTree(el)));
    RunSubtree(o, env, s2, el, q);
    assert Invoke(env.alpine.destroyTree, DestroyTree(el), s.trace) == Call(s2.trace, None);
    assert Rebuild(o, env, s, el) == Schedule(o, env, s2, ReinitSubtree(el, q));
  }

  /** Case A with a positive `reinitDelay`: only `destroyTree` happens now;
      init, ledger update and hook wait in the timer queue. */
  lemma CaseADefersInit(o: Options, env: Env, s: State, el: NodeId)
    requires |QueueOf(env, s, el)| > 0 && o.reinitDelay > 0
    requires !env.alpine.destroyTree.Throws?
    ensures var r := Rebuild(o, env, s, el);
      r.error.None?
      && r.st.trace == s.trace + Calls(env.alpine.destroyTree, DestroyTree(el))
      && r.st.ledger == s.ledger
      && r.st.pending == s.pending + [ReinitSubtree(el, QueueOf(env, s, el))]
  {
    var s2 := Partitioned(env, s, el).(trace := s.trace + Calls(env.alpine.destroyTree, DestroyTree(el)));
    assert Rebuild(o, env, s, el) == Schedule(o, env, s2, ReinitSubtree(el, QueueOf(env, s, el)));
  }

  /** The deferred Case A timer firing: the rest of Case A happens then,
      and the task leaves the queue. */
  lemma DeferredRebuildCompletes(o: Options, env: Env, s: State, k: nat, el: NodeId, q: seq<NodeId>)
    requires k < |s.pending| && s.pending[k] == ReinitSubtree(el, q)
    requires !env.alpine.initTree.Throws? && (env.alpine.initTree.Absent? ==> !env.alpine.start.Throws?) && !o.afterReinit.Throws?
    ensures var r := RunTask(o, env, s, k);
      var rest := s.pending[..k] + s.pending[k + 1..];
      r.trace == s.trace + InitCalls(env, el) + Calls(o.afterReinit, AfterReinit(el))
      && r.ledger == s.ledger + Elems(q)
      && r.pending == (if o.preserveState && el in s.preserved then rest + [RestoreState(el, s.preserved[el])] else rest)
  {
    var s1 := s.(pending := s.pending[..k] + s.pending[k + 1..]);
    RunSubtree(o, env, s1, el, q);
  }

  /** A throw from `destroyTree`, or from the immediate `initTree` /
      `start`, leaves the ledger as it was. */
  lemma CaseAFailureKeepsLedger(o: Options, env: Env, s: State, el: NodeId)
    requires |QueueOf(env, s, el)| > 0
    requires env.alpine.destroyTree.Throws?
          || (o.reinitDelay <= 0 && (if env.alpine.initTree.Absent? then env.alpine.start.Throws? else env.alpine.initTree.Throws?))
    ensures var r := Rebuild(o, env, s, el); r.error.Some? && r.st.ledger == s.ledger
  {
    var s2 := Partitioned(env, s, el).(trace := s.trace + Calls(env.alpine.destroyTree, DestroyTree(el)));
    if env.alpine.destroyTree.Throws? {
      assert Rebuild(o, env, s, el) == Outcome(s2, Some(env.alpine.destroyTree.error));
    } else {
      var q := QueueOf(env, s, el);
      RunSubtreeFailure(o, env, s2, el, q);
      assert Invoke(env.alpine.destroyTree, DestroyTree(el), s.trace) == Call(s2.trace, None);
      assert Rebuild(o, env, s, el) == RunBody(o, env, s2, ReinitSubtree(el, q));
    }
  }

  /** Case B: nothing to queue and an `[x-data]` element at or above
      `element`; destroy and init target the nearest such element, `afterReinit` gets
      the original one, and the ledger is unchanged. */
  lemma CaseBRebuildsFromAncestor(o: Options, env: Env, s: State, el: NodeId)
    requires |QueueOf(env, s, el)| == 0 && Closest(env.dom, el, XData).Some? && o.reinitDelay <= 0
    requires !env.alpine.destroyTree.Throws? && !env.alpine.initTree.Throws? && !o.afterReinit.Throws?
    ensures var p := Closest(env.dom, el, XData).value;
      var r := Rebuild(o, env, s, el);
      IsElement(env.dom, p) && env.dom.nodes[p].hasXData && (p == el || IsAncestor(env.dom, p, el))
      && (forall m: NodeId :: (m == el || IsAncestor(env.dom, m, el)) && IsAncestor(env.dom, p, m) ==> !Matches(env.dom, m, XData))
      && r.error.None?
      && r.st.trace == s.trace + Calls(env.alpine.destroyTree, DestroyTree(p)) + Calls(env.alpine.initTree, InitTree(p))
                       + Calls(o.afterReinit, AfterReinit(el))
      && r.st.ledger == s.ledger
  {
    var p := Closest(env.dom, el, XData).value;
    assert Rebuild(o, env, s, el) == RunBody(o, env, Partitioned(env, s, el), ReinitFromAncestor(el, p));
    RunFromAncestor(o, env, Partitioned(env, s, el), el, p);
    forall m: NodeId | (m == el || IsAncestor(env.dom, m, el)) && IsAncestor(env.dom, p, m)
      ensures !Matches(env.dom, m, XData)
    {
      ClosestIsNearest(env.dom, el, XData, m);
    }
  }

  /** Case C: nothing to queue and no `[x-data]` element at or above
      `element`; it is only initialised, and `destroyTree` is never called,
      whatever the hooks do. */
  lemma CaseCOnlyInitializes(o: Options, env: Env, s: State, el: NodeId)
    requires |QueueOf(env, s, el)| == 0 && Closest(env.dom, el, XData).None?
    ensures var r := Rebuild(o, env, s, el);
      r.st.ledger == s.ledger
      && |s.trace| <= |r.st.trace| && r.st.trace[..|s.trace|] == s.trace
      && (forall k :: |s.trace| <= k < |r.st.trace| ==> !r.st.trace[k].DestroyTree?)
      && (o.reinitDelay <= 0 && !env.alpine.initTree.Throws? && !o.afterReinit.Throws? ==>
            r.error.None? && r.st.trace == s.trace + Calls(env.alpine.initTree, InitTree(el)) + Calls(o.afterReinit, AfterReinit(el)))
  {
    var s1 := Partitioned(env, s, el);
    assert Rebuild(o, env, s, el) == Schedule(o, env, s1, InitElement(el));
    if o.reinitDelay <= 0 {
      RunInitElement(o, env, s1, el);
    }
  }

  /** After an immediate rebuild in which nothing throws, every
      `[x-data]` descendant with a data stack is live: a second call on the
      same subtree queues nothing and falls into Case B or C. */
  lemma SecondPassQueuesNothing(o: Options, env: Env, s: State, el: NodeId)
    requires o.reinitDelay <= 0
    requires !env.alpine.destroyTree.Throws? && !env.alpine.initTree.Throws? && (env.alpine.initTree.Absent? ==> !env.alpine.start.Throws?)
    requires !o.afterReinit.Throws?
    requires forall n: NodeId :: n in Components(env, el) ==> HasLiveStack(env.dom, n)
    ensures QueueOf(env, Rebuild(o, env, s, el).st, el) == []
  {
    var q := QueueOf(env, s, el);
    var r := Rebuild(o, env, s, el);
    var els := Components(env, el);
    if |q| > 0 {
      CaseARebuildsSubtree(o, env, s, el);
      assert r.st.ledger == s.ledger + Elems(q);
    } else {
      if Closest(env.dom, el, XData).Some? {
        CaseBRebuildsFromAncestor(o, env, s, el);
      } else {
        CaseCOnlyInitializes(o, env, s, el);
      }
      assert r.st.ledger == s.ledger;
    }
    var q2 := Queue(env.dom, r.st.ledger, els);
    if |q2| > 0 {
      var n := q2[0];
      QueueMembers(env.dom, r.st.ledger, els, n);
      QueueMembers(env.dom, s.ledger, els, n);
      assert false;
    }
  }

  // ----- errors -----

  /** `handleError` counts the error; for a thrown `null` or `undefined` it
      then throws a TypeError and calls nothing, otherwise it calls
      `onError` once with the context and the counters and does not throw;
      nothing else changes. */
  lemma HandleErrorReportsOnce(o: Options, s: State, err: JsError, context: string)
    ensures var r := HandleError(o, s, err, context);
      r.st.metrics == s.metrics.(errors := s.metrics.errors + 1)
      && (r.error.Some? <==> Nullish(err))
      && r.st.trace == s.trace + (if Nullish(err) then [] else Calls(o.onError, OnError(err, Info(context, r.st.metrics))))
      && r.st == s.(metrics := r.st.metrics, trace := r.st.trace)
  {
  }

  /** An unhandled rejection reaches `handleError` while the engine is
      listening: the error counter goes up and `onError` gets the rejection
      event once, with an empty context; the report never throws. After
      `destroy` a rejection changes nothing. */
  lemma RejectionReportedOnce(o: Options, s: State, reason: JsError)
    ensures HandleError(o, s, RejectionEvent(reason), "").error.None?
    ensures var m := Bump(s.metrics, Errors);
      Rejected(o, s, reason) ==
        if s.listening then s.(metrics := m, trace := s.trace + Calls(o.onError, OnError(RejectionEvent(reason), Info("", m))))
        else s
  {
  }

  /** Whatever the `try` block of `reinitializeAlpineInElement` throws is
      handed to `handleError` with context `reinitializeAlpineInElement`;
      the call throws only when that error is `null` or `undefined`, and
      then `onError` never sees it. */
  lemma ReinitializeRoutesErrors(o: Options, env: Env, s: State, el: NodeId)
    ensures var r := ReinitAttempt(o, env, Count(s, Reinitializations), el);
      var t := Reinitialize(o, env, s, el);
      (r.error.Some? ==>
        t.st.metrics.errors == r.st.metrics.errors + 1
        && (t.error.Some? <==> Nullish(r.error.value))
        && t.st.trace == r.st.trace +
             (if Nullish(r.error.value) then [] else Calls(o.onError, OnError(r.error.value, Info("reinitializeAlpineInElement", t.st.metrics)))))
      && (r.error.None? ==> t == Outcome(r.st, None))
      && t.st.ledger == r.st.ledger
  {
  }

  /** The stream handler catches the TypeError that a nullish error raises
      inside `reinitializeAlpineInElement` and reports that instead, so
      nothing escapes it. */
  lemma StreamRenderCatchesReportFailure(o: Options, env: Env, s: State, ev: TurboEvent)
    requires ev.target.Some? && !ShouldSkip(o, env.dom, ev.target)
    ensures var r := Reinitialize(o, env, Count(s, StreamUpdates), ev.target.value);
      OnStreamRender(o, env, s, ev) ==
        if r.error.None? then r
        else Outcome(HandleError(o, r.st, r.error.value, "handleStreamRender").st, None)
  {
    var r := Reinitialize(o, env, Count(s, StreamUpdates), ev.target.value);
    assert FindTarget(env.dom, ev) == Success(ev.target);
  }

  /** The frame handler has no `try`: the same TypeError escapes it, and it
      escapes exactly when the error was `null` or `undefined`. */
  lemma FrameRenderLetsReportFailureEscape(o: Options, env: Env, s: State, ev: TurboEvent)
    requires ev.target.Some? && !ShouldSkip(o, env.dom, ev.target)
    ensures var s1 := Count(s, FrameUpdates);
      var a := ReinitAttempt(o, env, Count(s1, Reinitializations), ev.target.value);
      OnFrameRender(o, env, s, ev).error.Some? <==> a.error.Some? && Nullish(a.error.value)
  {
    ReinitializeRoutesErrors(o, env, Count(s, FrameUpdates), ev.target.value);
  }

  /** `b` continues `a`: the trace only ever grows. */
  predicate Extends(a: seq<Effect>, b: seq<Effect>)
  {
    |a| <= |b| && b[..|a|] == a
  }

  lemma ExtendsTransitive(a: seq<Effect>, b: seq<Effect>, c: seq<Effect>)
    requires Extends(a, b) && Extends(b, c)
    ensures Extends(a, c)
  {
    assert c[..|a|] == c[..|b|][..|a|];
  }

  lemma ExtendsAppend(a: seq<Effect>, e: seq<Effect>)
    ensures Extends(a, a + e)
  {
    assert (a + e)[..|a|] == a;
  }

  lemma InvokeExtends(h: Hook, e: Effect, t: seq<Effect>)
    ensures Extends(t, Invoke(h, e, t).trace)
  {
    ExtendsAppend(t, Calls(h, e));
  }

  lemma HandleErrorExtends(o: Options, s: State, err: JsError, context: string)
    ensures Extends(s.trace, HandleError(o, s, err, context).st.trace)
  {
    ExtendsAppend(s.trace, Calls(o.onError, OnError(err, Info(context, Bump(s.metrics, Errors)))));
  }

  /** A deferred body only ever appends to the trace. */
  lemma RunBodyExtends(o: Options, env: Env, s: State, t: Task)
    ensures Extends(s.trace, RunBody(o, env, s, t).st.trace)
  {
    var r := RunBody(o, env, s, t);
    match t
    case ReinitSubtree(el, q) =>
      var c := if !env.alpine.initTree.Absent? then Invoke(env.alpine.initTree, InitTree(el), s.trace)
               else Invoke(env.alpine.start, Start, s.trace);
      InvokeExtends(env.alpine.initTree, InitTree(el), s.trace);
      InvokeExtends(env.alpine.start, Start, s.trace);
      if c.error.None? {
        var s3 := MarkInitialized(env.dom, s.(trace := c.trace), q);
        var s4 := if o.preserveState then ScheduleRestore(s3, el) else s3;
        assert r == AfterHook(o, s4, el);
        InvokeExtends(o.afterReinit, AfterReinit(el), c.trace);
        ExtendsTransitive(s.trace, c.trace, r.st.trace);
      }
    case ReinitFromAncestor(el, p) =>
      var c1 := Invoke(env.alpine.destroyTree, DestroyTree(p), s.trace);
      InvokeExtends(env.alpine.destroyTree, DestroyTree(p), s.trace);
      if c1.error.None? {
        var c2 := Invoke(env.alpine.initTree, InitTree(p), c1.trace);
        InvokeExtends(env.alpine.initTree, InitTree(p), c1.trace);
        ExtendsTransitive(s.trace, c1.trace, c2.trace);
        if c2.error.None? {
          InvokeExtends(o.afterReinit, AfterReinit(el), c2.trace);
          ExtendsTransitive(s.trace, c2.trace, r.st.trace);
        }
      }
    case InitElement(el) =>
      var c := Invoke(env.alpine.initTree, InitTree(el), s.trace);
      InvokeExtends(env.alpine.initTree, InitTree(el), s.trace);
      if c.error.None? {
        InvokeExtends(o.afterReinit, AfterReinit(el), c.trace);
        ExtendsTransitive(s.trace, c.trace, r.st.trace);
      }
    case RestoreState(el, saved) =>
      if ValidList(env.dom, o.preserveStateSelectors) {
        ExtendsAppend(s.trace, RestoreWrites(env.dom, QueryAll(env.dom, el, o.preserveStateSelectors), saved));
      }
  }

  /** Rebuilding only ever appends to the trace. */
  lemma RebuildExtends(o: Options, env: Env, s: State, el: NodeId)
    ensures Extends(s.trace, Rebuild(o, env, s, el).st.trace)
  {
    var s1 := Partitioned(env, s, el);
    if |QueueOf(env, s, el)| > 0 {
      var c := Invoke(env.alpine.destroyTree, DestroyTree(el), s.trace);
      InvokeExtends(env.alpine.destroyTree, DestroyTree(el), s.trace);
      if c.error.None? {
        var t := ReinitSubtree(el, QueueOf(env, s, el));
        RunBodyExtends(o, env, s1.(trace := c.trace), t);
        ExtendsTransitive(s.trace, c.trace, Schedule(o, env, s1.(trace := c.trace), t).st.trace);
        assert Rebuild(o, env, s, el) == Schedule(o, env, s1.(trace := c.trace), t);
      } else {
        assert Rebuild(o, env, s, el) == Outcome(s1.(trace := c.trace), c.error);
      }
    } else {
      RunBodyExtends(o, env, s1, Fallback(env.dom, el));
    }
  }

  /** `beforeReinit(element)` is the first call of a reinitialisation and
      everything else comes after it. */
  lemma BeforeReinitComesFirst(o: Options, env: Env, s: State, el: NodeId)
    ensures Extends(s.trace + Calls(o.beforeReinit, BeforeReinit(el)), ReinitAttempt(o, env, s, el).st.trace)
  {
    var t1 := s.trace + Calls(o.beforeReinit, BeforeReinit(el));
    if o.beforeReinit.Throws? {
      ExtendsAppend(t1, []);
      assert t1 + [] == t1;
    } else {
      var s2 := s.(trace := t1);
      var s3 := if o.preserveState then Preserve(o, env, s2, el) else s2;
      PreserveExtends(o, env, s2, el);
      RebuildExtends(o, env, s3, el);
      ExtendsTransitive(t1, s3.trace, Rebuild(o, env, s3, el).st.trace);
      assert Invoke(o.beforeReinit, BeforeReinit(el), s.trace) == Call(t1, None);
      assert ReinitAttempt(o, env, s, el) == Rebuild(o, env, s3, el);
    }
  }

  /** If `beforeReinit` throws, nothing else happens. */
  lemma ThrowingBeforeReinitStops(o: Options, env: Env, s: State, el: NodeId)
    requires o.beforeReinit.Throws?
    ensures ReinitAttempt(o, env, s, el) == Outcome(s.(trace := s.trace + [BeforeReinit(el)]), Some(o.beforeReinit.error))
  {
  }

  lemma PreserveExtends(o: Options, env: Env, s: State, el: NodeId)
    ensures Extends(s.trace, Preserve(o, env, s, el).trace)
  {
    if ValidList(env.dom, o.preserveStateSelectors) {
      ExtendsAppend(s.trace, []);
      assert s.trace + [] == s.trace;
    } else {
      HandleErrorExtends(o, s, SyntaxError("invalid selector"), "preserveAlpineState");
    }
  }

  // ----- snapshot and restore -----

  /** A restore writes, for the element, exactly the saved members whose
      live property may be written. */
  lemma {:induction false} PropWritesExactly(n: NodeId, ms: seq<Member>, current: DataObject, e: Effect)
    ensures e in PropWrites(n, ms, current) <==>
      exists k :: 0 <= k < |ms| && e == Assign(n, ms[k].name, ms[k].value) && ShouldWrite(OwnProperty(current.props, ms[k].name))
  {
    if |ms| > 0 {
      var init := ms[..|ms| - 1];
      PropWritesExactly(n, init, current, e);
      if exists k :: 0 <= k < |init| && e == Assign(n, init[k].name, init[k].value) && ShouldWrite(OwnProperty(current.props, init[k].name)) {
        var k :| 0 <= k < |init| && e == Assign(n, init[k].name, init[k].value) && ShouldWrite(OwnProperty(current.props, init[k].name));
        assert ms[k] == init[k];
      }
      if exists k :: 0 <= k < |ms| && e == Assign(n, ms[k].name, ms[k].value) && ShouldWrite(OwnProperty(current.props, ms[k].name)) {
        var k :| 0 <= k < |ms| && e == Assign(n, ms[k].name, ms[k].value) && ShouldWrite(OwnProperty(current.props, ms[k].name));
        if k < |ms| - 1 {
          assert init[k] == ms[k];
        }
      }
    }
  }

  /** Only a data property with `writable: false` is skipped: missing
      properties, writable ones and accessors (with or without a setter)
      are written. */
  lemma ShouldWriteSkipsOnlyReadOnlyData(desc: Option<Descriptor>)
    ensures ShouldWrite(desc) <==> !(desc.Some? && desc.value.DataProp? && !desc.value.writable)
  {
  }

  /** Without a saved map, `restoreAlpineState` does nothing. */
  lemma NoSavedMapNoRestore(s: State, el: NodeId)
    requires el !in s.preserved
    ensures ScheduleRestore(s, el) == s
  {
  }

  /** The restore tick forgets the saved map, so one capture is restored at
      most once; an invalid selector list leaves everything as it was. */
  lemma RestoreConsumesSnapshot(o: Options, env: Env, s: State, el: NodeId, saved: map<string, Json>)
    ensures var r := RunRestore(o, env, s, el, saved);
      (r.error.None? ==> el !in r.st.preserved && ScheduleRestore(r.st, el) == r.st)
      && (r.error.Some? <==> !ValidList(env.dom, o.preserveStateSelectors))
      && (r.error.Some? ==> r.st == s)
  {
  }

  /** A key is saved iff some element of the list has a snapshot (a
      non-empty data stack whose serialisation does not throw) under that
      key, and every saved value is an object without `_`-prefixed
      members. */
  lemma {:induction false} SnapshotsDescribeElements(d: Document, els: seq<NodeId>, key: string)
    ensures key in Snapshots(d, els) <==> exists i :: 0 <= i < |els| && SnapshotOf(d, els[i]).Some? && KeyOf(d, els[i]) == key
    ensures key in Snapshots(d, els) ==> Snapshots(d, els)[key].Obj? && JsProperties.NoPrivateKeys(Snapshots(d, els)[key])
  {
    if |els| > 0 {
      var init := els[..|els| - 1];
      var n := els[|els| - 1];
      SnapshotsDescribeElements(d, init, key);
      if SnapshotOf(d, n).Some? {
        JsProperties.SnapshotIsPublicObject(StackOf(d, n).value[0]);
      }
      if exists i :: 0 <= i < |init| && SnapshotOf(d, init[i]).Some? && KeyOf(d, init[i]) == key {
        var i :| 0 <= i < |init| && SnapshotOf(d, init[i]).Some? && KeyOf(d, init[i]) == key;
        assert els[i] == init[i];
      }
      if exists i :: 0 <= i < |els| && SnapshotOf(d, els[i]).Some? && KeyOf(d, els[i]) == key {
        var i :| 0 <= i < |els| && SnapshotOf(d, els[i]).Some? && KeyOf(d, els[i]) == key;
        if i < |els| - 1 {
          assert init[i] == els[i];
        }
      }
    }
  }

  /** The value saved under an element's key is that element's snapshot
      when no later element with a snapshot has the same key: the last
      one wins. */
  lemma {:induction false} SnapshotsLastWins(d: Document, els: seq<NodeId>, i: nat)
    requires i < |els| && SnapshotOf(d, els[i]).Some?
    requires forall j :: i < j < |els| ==> SnapshotOf(d, els[j]).None? || KeyOf(d, els[j]) != KeyOf(d, els[i])
    ensures KeyOf(d, els[i]) in Snapshots(d, els)
    ensures Snapshots(d, els)[KeyOf(d, els[i])] == SnapshotOf(d, els[i]).value
  {
    var init := els[..|els| - 1];
    if i < |els| - 1 {
      assert init[i] == els[i];
      assert forall j :: i < j < |init| ==> init[j] == els[j];
      SnapshotsLastWins(d, init, i);
    }
  }

  /** Keys collide across parents (Dom.FirstChildKeysCollide), and then an
      earlier element is restored with the values saved for a later one:
      the restore writes the later element's snapshot into it. */
  lemma SharedKeyRestoresLaterValues(d: Document, els: seq<NodeId>, i: nat, j: nat)
    requires i < j < |els| && SnapshotOf(d, els[i]).Some? && SnapshotOf(d, els[j]).Some?
    requires KeyOf(d, els[i]) == KeyOf(d, els[j])
    requires forall k :: j < k < |els| ==> SnapshotOf(d, els[k]).None? || KeyOf(d, els[k]) != KeyOf(d, els[j])
    ensures ElementWrites(d, els[i], Snapshots(d, els)) ==
      PropWrites(els[i], SavedMembers(SnapshotOf(d, els[j]).value), StackOf(d, els[i]).value[0])
  {
    SnapshotsLastWins(d, els, j);
  }

  /** When the live object accepts every saved property, the restore writes
      each of them back, once and in the saved order. */
  lemma {:induction false} WritableMembersAllWritten(n: NodeId, ms: seq<Member>, current: DataObject)
    requires forall k :: 0 <= k < |ms| ==> ShouldWrite(OwnProperty(current.props, ms[k].name))
    ensures var w := PropWrites(n, ms, current);
      |w| == |ms| && forall k :: 0 <= k < |ms| ==> w[k] == Assign(n, ms[k].name, ms[k].value)
  {
    if |ms| > 0 {
      var init := ms[..|ms| - 1];
      assert forall k :: 0 <= k < |init| ==> init[k] == ms[k];
      WritableMembersAllWritten(n, init, current);
    }
  }

  /** Preserve, then restore: a component whose data is plain JSON (`ms`,
      with no `_` keys and no sharing) and whose key no later preserved
      element shares is saved as exactly that data; when the element found
      under the same key at restore time accepts every property, the
      restore writes every captured value back to it, in order. */
  lemma PreservedDataIsRestored(d: Document, els: seq<NodeId>, i: nat, ms: seq<Member>, ref: nat, d1: Document, m: NodeId)
    requires i < |els| && HasLiveStack(d, els[i])
    requires StackOf(d, els[i]).value[0] == DataObject(ref, JsProperties.EmbedMembers(ms, ref + 1).props)
    requires forall k :: 0 <= k < |ms| ==> !IsPrivateKey(ms[k].name) && JsProperties.NoPrivateKeys(ms[k].value)
    requires forall j :: i < j < |els| ==> SnapshotOf(d, els[j]).None? || KeyOf(d, els[j]) != KeyOf(d, els[i])
    requires KeyOf(d1, m) == KeyOf(d, els[i]) && HasLiveStack(d1, m)
    requires forall k :: 0 <= k < |ms| ==> ShouldWrite(OwnProperty(StackOf(d1, m).value[0].props, ms[k].name))
    ensures var w := ElementWrites(d1, m, Snapshots(d, els));
      |w| == |ms| && forall k :: 0 <= k < |ms| ==> w[k] == Assign(m, ms[k].name, ms[k].value)
  {
    JsProperties.SnapshotOfPlainData(ms, ref);
    assert SnapshotOf(d, els[i]) == Some(Obj(ms));
    SnapshotsLastWins(d, els, i);
    WritableMembersAllWritten(m, ms, StackOf(d1, m).value[0]);
  }

  // ----- the handlers -----

  /** The selector a stream event's detail offers, or the empty string. */
  function DetailSelector(ev: TurboEvent): string
  {
    if ev.detail.Some? && ev.detail.value.selector.Some? then ev.detail.value.selector.value else ""
  }

  /** Neither the event nor its detail names a target. */
  predicate Untargeted(ev: TurboEvent)
  {
    ev.target.None? && (ev.detail.None? || ev.detail.value.target.None?)
  }

  /** Target resolution: the event's target, else the detail's target,
      else the first element of the document matching a non-empty detail
      selector; an invalid selector throws. */
  lemma FindTargetResolves(d: Document, ev: TurboEvent)
    ensures var r := FindTarget(d, ev);
      (r.Failure? <==> Untargeted(ev) && DetailSelector(ev) != "" && !ValidSelector(d, DetailSelector(ev)))
      && (ev.target.Some? ==> r == Success(ev.target))
      && (ev.target.None? && ev.detail.Some? && ev.detail.value.target.Some? ==> r == Success(ev.detail.value.target))
      && (r.Success? && r.value.Some? && Untargeted(ev) ==>
            var n := r.value.value;
            IsElement(d, n) && Matches(d, n, DetailSelector(ev))
            && forall m: NodeId :: m < n && IsAncestor(d, DocumentNode, m) ==> !Matches(d, m, DetailSelector(ev)))
  {
  }

  /** Resolution finds nothing exactly when no target is named and the
      selector is empty or matches no element of the document. */
  lemma FindTargetNone(d: Document, ev: TurboEvent)
    ensures FindTarget(d, ev) == Success(None) <==>
      Untargeted(ev)
      && (DetailSelector(ev) == ""
          || (ValidSelector(d, DetailSelector(ev)) && forall m: NodeId :: IsAncestor(d, DocumentNode, m) ==> !Matches(d, m, DetailSelector(ev))))
  {
  }

  /** A stream render whose target is missing or skipped makes no call and
      changes nothing but the stream counter. */
  lemma StreamRenderWithoutTargetIsQuiet(o: Options, env: Env, s: State, ev: TurboEvent)
    requires FindTarget(env.dom, ev).Success?
    requires FindTarget(env.dom, ev).value.None? || ShouldSkip(o, env.dom, FindTarget(env.dom, ev).value)
    ensures OnStreamRender(o, env, s, ev) == Outcome(Count(s, StreamUpdates), None)
  {
  }

  /** Before a frame renders, its `[x-data]` descendants leave the ledger
      and nothing else does. */
  lemma FrameRemovalForgetsDescendants(env: Env, s: State, ev: TurboEvent, n: NodeId)
    requires ev.target.Some?
    ensures var r := OnBeforeFrameRender(env, s, ev);
      r.error.None?
      && (n in r.st.ledger <==>
            n in s.ledger && !(IsElement(env.dom, n) && IsAncestor(env.dom, ev.target.value, n) && env.dom.nodes[n].hasXData))
  {
    XDataList(env.dom, n);
  }

  // ----- init and destroy -----

  /** A second `init` changes nothing. */
  lemma InitIsIdempotent(s: State, g: Globals)
    ensures var r := Init(s, g);
      r.error.None? ==> r.st.isInitialized && Init(r.st, g) == Outcome(r.st, None)
  {
  }

  /** A failed `init` registers nothing and leaves the flag clear. */
  lemma FailedInitChangesNothing(s: State, g: Globals)
    ensures var r := Init(s, g);
      r.error.Some? ==> r.st == s && !s.isInitialized
  {
  }

  /** After `destroy`, Turbo events reach no handler. */
  lemma DestroyedEngineIgnoresEvents(o: Options, env: Env, s: State, kind: EventKind, ev: TurboEvent)
    ensures Dispatch(o, env, Destroy(s), kind, ev) == Destroy(s)
  {
  }
}
