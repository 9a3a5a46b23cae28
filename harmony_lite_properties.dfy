/** What the lite engine (src/index.lite.js) guarantees, and where its
    rules part from the full engine's. */
module HarmonyLiteProperties {
  import opened Wrappers
  import opened JsValues
  import opened Dom
  import opened Platform
  import opened HarmonyLite
  import Harmony

  function QueueOf(env: Env, s: State, el: NodeId): seq<NodeId>
  {
    Queue(env.dom, s.ledger, QueryAll(env.dom, el, [XData]))
  }

  // ----- init / destroy -----

  /** A second `init` returns at once; a failed one sets nothing; Alpine is
      checked before Turbo. */
  lemma InitRules(s: State, g: Globals)
    ensures var r := Init(s, g);
      (r.error.None? ==> r.st.isInitialized && Init(r.st, g) == Outcome(r.st, None))
      && (r.error.Some? ==> r.st == s && !s.isInitialized)
      && (!s.isInitialized && g.hasWindow && !g.hasAlpine ==> r.error == Some(AlpineMissing))
      && (!s.isInitialized && g.hasWindow && g.hasAlpine && !g.hasTurbo ==> r.error == Some(TurboMissing))
  {
  }

  /** After `destroy`, Turbo events reach no handler. */
  lemma DestroyedEngineIgnoresEvents(o: Options, env: Env, s: State, kind: EventKind, ev: TurboEvent)
    ensures Dispatch(o, env, Destroy(s), kind, ev) == Outcome(Destroy(s), None)
  {
  }

  /** The lite engine listens to four events only. */
  lemma BeforeRenderEventsIgnored(o: Options, env: Env, s: State, ev: TurboEvent)
    ensures Dispatch(o, env, s, BeforeStreamRender, ev) == Outcome(s, None)
    ensures Dispatch(o, env, s, BeforeFrameRender, ev) == Outcome(s, None)
  {
  }

  // ----- classification -----

  /** The selectors before position `k` are valid and do not match. */
  predicate MissesBefore(d: Document, n: NodeId, sels: seq<string>, k: nat)
    requires k <= |sels|
  {
    forall j :: 0 <= j < k ==> ValidSelector(d, sels[j]) && !Matches(d, n, sels[j])
  }

  /** `shouldSkipElement`: a node that is not an element is never skipped;
      for an element the first selector that is invalid or matches decides
      (invalid throws, matching skips), and with none the element is kept. */
  lemma {:induction false} LiteSkipDecides(d: Document, n: NodeId, sels: seq<string>)
    ensures !IsElement(d, n) ==> ShouldSkip(d, n, sels) == Success(false)
    ensures ShouldSkip(d, n, sels) == Success(true) <==>
      IsElement(d, n) && exists k :: 0 <= k < |sels| && MissesBefore(d, n, sels, k) && ValidSelector(d, sels[k]) && Matches(d, n, sels[k])
    ensures ShouldSkip(d, n, sels).Failure? <==>
      IsElement(d, n) && exists k :: 0 <= k < |sels| && MissesBefore(d, n, sels, k) && !ValidSelector(d, sels[k])
    ensures ShouldSkip(d, n, sels) == Success(false) <==> !IsElement(d, n) || MissesBefore(d, n, sels, |sels|)
  {
    if |sels| > 0 && IsElement(d, n) {
      var rest := sels[1..];
      LiteSkipDecides(d, n, rest);
      forall k | 0 < k <= |sels|
        ensures MissesBefore(d, n, sels, k) <==>
          ValidSelector(d, sels[0]) && !Matches(d, n, sels[0]) && MissesBefore(d, n, rest, k - 1)
      {
        if ValidSelector(d, sels[0]) && !Matches(d, n, sels[0]) && MissesBefore(d, n, rest, k - 1) {
          forall j | 0 <= j < k
            ensures ValidSelector(d, sels[j]) && !Matches(d, n, sels[j])
          {
            if j > 0 {
              assert sels[j] == rest[j - 1];
            }
          }
        }
        if MissesBefore(d, n, sels, k) {
          forall j | 0 <= j < k - 1
            ensures ValidSelector(d, rest[j]) && !Matches(d, n, rest[j])
          {
            assert rest[j] == sels[j + 1];
          }
        }
      }
      if exists k :: 0 <= k < |rest| && MissesBefore(d, n, rest, k) && ValidSelector(d, rest[k]) && Matches(d, n, rest[k]) {
        var k :| 0 <= k < |rest| && MissesBefore(d, n, rest, k) && ValidSelector(d, rest[k]) && Matches(d, n, rest[k]);
        assert sels[k + 1] == rest[k];
      }
      if exists k :: 0 <= k < |rest| && MissesBefore(d, n, rest, k) && !ValidSelector(d, rest[k]) {
        var k :| 0 <= k < |rest| && MissesBefore(d, n, rest, k) && !ValidSelector(d, rest[k]);
        assert sels[k + 1] == rest[k];
      }
      if exists k :: 0 <= k < |sels| && MissesBefore(d, n, sels, k) && ValidSelector(d, sels[k]) && Matches(d, n, sels[k]) {
        var k :| 0 <= k < |sels| && MissesBefore(d, n, sels, k) && ValidSelector(d, sels[k]) && Matches(d, n, sels[k]);
        if k > 0 {
          assert rest[k - 1] == sels[k];
        }
      }
      if exists k :: 0 <= k < |sels| && MissesBefore(d, n, sels, k) && !ValidSelector(d, sels[k]) {
        var k :| 0 <= k < |sels| && MissesBefore(d, n, sels, k) && !ValidSelector(d, sels[k]);
        if k > 0 {
          assert rest[k - 1] == sels[k];
        }
      }
    }
  }

  /** Where the two engines disagree on a node that is not an element: the
      full engine skips it, the lite engine does not. */
  lemma NonElementSkipDiffers(full: Harmony.Options, d: Document, n: NodeId)
    requires !IsElement(d, n)
    ensures Harmony.ShouldSkip(full, d, Some(n))
    ensures ShouldSkip(d, n, full.skipSelectors) == Success(false)
  {
  }

  /** The stream target has no selector fallback. */
  lemma StreamTargetRules(ev: TurboEvent)
    ensures ev.target.Some? ==> StreamTarget(ev) == ev.target
    ensures ev.target.None? && ev.detail.Some? ==> StreamTarget(ev) == ev.detail.value.target
    ensures StreamTarget(ev).None? <==> ev.target.None? && (ev.detail.None? || ev.detail.value.target.None?)
  {
  }

  /** A stream or frame event without a target, or with a skipped one,
      makes no call and changes nothing. */
  lemma NoTargetNoCall(o: Options, env: Env, s: State, ev: TurboEvent)
    ensures StreamTarget(ev).None? ==> OnStreamRender(o, env, s, ev) == Outcome(s, None)
    ensures ev.target.None? ==> OnFrameRender(o, env, s, ev) == Outcome(s, None)
    ensures ev.target.Some? && ShouldSkip(env.dom, ev.target.value, o.skipSelectors) == Success(true) ==>
      OnFrameRender(o, env, s, ev) == Outcome(s, None) && OnStreamRender(o, env, s, ev) == Outcome(s, None)
  {
  }

  // ----- the partition -----

  lemma {:induction false} QueueMembers(d: Document, ledger: set<NodeId>, els: seq<NodeId>, n: NodeId)
    ensures n in Queue(d, ledger, els) <==> n in els && NeedsInit(d, ledger, n)
  {
    if |els| > 0 {
      var init := els[..|els| - 1];
      QueueMembers(d, ledger, init, n);
      assert els == init + [els[|els| - 1]];
    }
  }

  /** The two partitions disagree exactly on elements in the ledger whose
      data stack exists but is empty: the full engine queues them, the lite
      engine leaves them alone. */
  lemma PartitionsDiffer(d: Document, ledger: set<NodeId>, n: NodeId)
    ensures NeedsInit(d, ledger, n) != !Harmony.Live(d, ledger, n) <==>
      n in ledger && StackOf(d, n) == Some([])
  {
  }

  // ----- reinitialisation -----

  /** With nothing queued, `beforeReinit` has run but nothing else happens:
      no destroy, no init, no `afterReinit`, no ancestor fallback. */
  lemma EmptyQueueOnlyRunsBeforeHook(o: Options, env: Env, s: State, el: NodeId)
    requires |QueueOf(env, s, el)| == 0 && !o.beforeReinit.Throws?
    ensures Attempt(o, env, s, el) == Outcome(s.(trace := s.trace + Calls(o.beforeReinit, BeforeReinit(el))), None)
  {
  }

  /** The `reinit` closure when nothing throws: `initTree(element)`, the
      ledger gains exactly the queue, then `afterReinit(element)`. */
  lemma RunReinitCompletes(o: Options, env: Env, s: State, el: NodeId, queue: seq<NodeId>)
    requires !env.alpine.initTree.Throws? && !o.afterReinit.Throws?
    ensures RunReinit(o, env, s, el, queue) ==
      Outcome(s.(trace := s.trace + Calls(env.alpine.initTree, InitTree(el)) + Calls(o.afterReinit, AfterReinit(el)),
                 ledger := s.ledger + Elems(queue)), None)
  {
  }

  /** With something queued and no delay: `destroyTree(element)` before
      `initTree(element)`, the ledger gains exactly the queue, then
      `afterReinit(element)`. */
  lemma QueuedRebuild(o: Options, env: Env, s: State, el: NodeId)
    requires |QueueOf(env, s, el)| > 0 && o.reinitDelay <= 0
    requires !o.beforeReinit.Throws? && !env.alpine.destroyTree.Throws? && !env.alpine.initTree.Throws?
    requires !o.afterReinit.Throws?
    ensures var r := Attempt(o, env, s, el);
      r.error.None?
      && r.st.trace == s.trace + Calls(o.beforeReinit, BeforeReinit(el)) + Calls(env.alpine.destroyTree, DestroyTree(el))
                       + Calls(env.alpine.initTree, InitTree(el)) + Calls(o.afterReinit, AfterReinit(el))
      && r.st.ledger == s.ledger + Elems(QueueOf(env, s, el))
      && r.st.pending == s.pending
  {
    var q := QueueOf(env, s, el);
    var t1 := s.trace + Calls(o.beforeReinit, BeforeReinit(el));
    var t2 := t1 + Calls(env.alpine.destroyTree, DestroyTree(el));
    var s2 := s.(trace := t2);
    RunReinitCompletes(o, env, s2, el, q);
    assert Invoke(o.beforeReinit, BeforeReinit(el), s.trace) == Call(t1, None);
    assert Invoke(env.alpine.destroyTree, DestroyTree(el), t1) == Call(t2, None);
    assert Attempt(o, env, s, el) == RunReinit(o, env, s2, el, q);
  }

  /** A positive delay defers only the init, ledger and hook step. */
  lemma DelayedRebuild(o: Options, env: Env, s: State, el: NodeId)
    requires |QueueOf(env, s, el)| > 0 && o.reinitDelay > 0
    requires !o.beforeReinit.Throws? && !env.alpine.destroyTree.Throws?
    ensures var r := Attempt(o, env, s, el);
      r.error.None?
      && r.st.trace == s.trace + Calls(o.beforeReinit, BeforeReinit(el)) + Calls(env.alpine.destroyTree, DestroyTree(el))
      && r.st.ledger == s.ledger
      && r.st.pending == s.pending + [Reinit(el, QueueOf(env, s, el))]
  {
  }

  /** The deferred closure, when its timer fires, completes the rebuild. */
  lemma DeferredRebuildCompletes(o: Options, env: Env, s: State, k: nat)
    requires k < |s.pending| && !env.alpine.initTree.Throws? && !o.afterReinit.Throws?
    ensures var t := s.pending[k];
      RunTask(o, env, s, k) ==
        Outcome(s.(trace := s.trace + Calls(env.alpine.initTree, InitTree(t.element)) + Calls(o.afterReinit, AfterReinit(t.element)),
                   ledger := s.ledger + Elems(t.queue),
                   pending := s.pending[..k] + s.pending[k + 1..]), None)
  {
    var t := s.pending[k];
    RunReinitCompletes(o, env, s.(pending := s.pending[..k] + s.pending[k + 1..]), t.element, t.queue);
  }

  /** A caught error reaches `onError` once, with the bare context string;
      without `onError` it is swallowed; a throw from `onError` escapes. */
  lemma CaughtErrorsGoToOnError(o: Options, env: Env, s: State, el: NodeId)
    ensures var a := Attempt(o, env, s, el);
      var r := Reinitialize(o, env, s, el);
      (a.error.None? ==> r == a)
      && (a.error.Some? && o.onError.Absent? ==> r == Outcome(a.st, None))
      && (a.error.Some? && !o.onError.Absent? ==>
            r.st == a.st.(trace := a.st.trace + [OnError(a.error.value, Context(ReinitContext))])
            && (r.error.Some? <==> o.onError.Throws?))
  {
  }

  /** The ledger only changes when init succeeds: a throw from
      `beforeReinit`, `destroyTree` or `initTree` leaves it as it was. */
  lemma FailedRebuildKeepsLedger(o: Options, env: Env, s: State, el: NodeId)
    requires o.beforeReinit.Throws? || env.alpine.destroyTree.Throws? || (o.reinitDelay <= 0 && env.alpine.initTree.Throws?)
    ensures Attempt(o, env, s, el).st.ledger == s.ledger
  {
  }

  /** After an immediate rebuild in which nothing throws, every `[x-data]`
      descendant with a data stack is in the ledger, so a second call
      queues nothing and calls nothing but `beforeReinit`. */
  lemma SecondPassQueuesNothing(o: Options, env: Env, s: State, el: NodeId)
    requires o.reinitDelay <= 0
    requires !o.beforeReinit.Throws? && !env.alpine.destroyTree.Throws? && !env.alpine.initTree.Throws?
    requires !o.afterReinit.Throws?
    requires forall n: NodeId :: n in QueryAll(env.dom, el, [XData]) ==> StackOf(env.dom, n).Some?
    ensures QueueOf(env, Attempt(o, env, s, el).st, el) == []
  {
    var els := QueryAll(env.dom, el, [XData]);
    var q := QueueOf(env, s, el);
    var r := Attempt(o, env, s, el);
    if |q| > 0 {
      QueuedRebuild(o, env, s, el);
    } else {
      EmptyQueueOnlyRunsBeforeHook(o, env, s, el);
    }
    assert r.st.ledger == s.ledger + Elems(q);
    var q2 := Queue(env.dom, r.st.ledger, els);
    if |q2| > 0 {
      var n := q2[0];
      QueueMembers(env.dom, r.st.ledger, els, n);
      QueueMembers(env.dom, s.ledger, els, n);
      assert false;
    }
  }
}
