/** What each call of user code does at once, and which callback a turn of the flush calls. */
module PromiseCalls {
  import opened Options
  import opened Promises
  import opened PromiseMachine
  import opened PromiseSafety
  import opened PromiseOutcomes
  import opened PromiseAdoption
  import opened PromiseReturns

  /** User code has control at top level while no flush runs, inside its callbacks and inside a foreign `then`. */
  lemma WhoHasControl(s: State)
    ensures UserTurn(s) <==> s.calls != [] || UserCallback(s) || (s.invoking == None && !s.core.flushing)
    ensures !UserTurn(s) ==> s.calls == [] && (s.invoking.Some? || s.core.flushing)
  {}

  /** new P makes a pending promise whose resolvers user code holds; nothing else changes. */
  lemma CreateMakesPromise(s: State)
    requires UserTurn(s)
    ensures var t, n := Step(s, Create), |s.core.promises|;
      && |t.core.promises| == n + 1 && t.core.promises[n].origin == Open && t.core.promises[n].status == PENDING
      && t.core.promises[..n] == s.core.promises && t == s.(core := s.core.(promises := t.core.promises))
  {}

  /**
   * then registers the two callbacks, in this order, under a new pending promise: in the list of a promise
   * that is not published yet, and as a task of the queue, with a flush on its way, after that.
   */
  lemma SubscribeRegisters(s: State, p: nat, f: Handler, r: Handler)
    requires UserTurn(s) && FromUser(f) && FromUser(r) && p < |s.core.promises|
    ensures var c, d, n := s.core, Step(s, Subscribe(p, f, r)).core, |s.core.promises|;
      var sub := Subscriber(p, n, f, r);
      && d.registered == c.registered + [sub] && d.started == c.started
      && |d.promises| == n + 1 && d.promises[n].status == PENDING && d.promises[n].origin == Derived
      && if IsPublished(c.promises[p]) then d.queue == c.queue + [Invoke(sub)] && d.timer && d.promises[..n] == c.promises
         else d.promises[p].list == c.promises[p].list + [sub] && d.queue == c.queue
  {}

  /** The rejecting function rejects a pending promise. */
  lemma RejectRejects(s: State, p: nat, v: Value)
    requires UserTurn(s) && p < |s.core.promises| && s.core.promises[p].origin == Open && s.core.promises[p].status == PENDING
    ensures RejectedWith(Step(s, DoReject(p, v)).core, p, v)
  {
    IssuedBy(s, p, v);
  }

  /** Resolving a pending promise with a foreign object: what reading `then` shows decides. */
  lemma ResolvedForeign(s: State, p: nat, n: int, how: Foreign)
    requires UserTurn(s) && p < |s.core.promises| && s.core.promises[p].origin == Open && s.core.promises[p].status == PENDING
    ensures var t, v := Step(s, DoResolve(p, Thenable(n), how)), Thenable(n);
      match how
      case Calls => CallsThen(s, t, p, v)
      case GetterThrows(e) => RejectedWith(t.core, p, e)
      case NotCallable => FulfilledWith(t.core, p, v)
  {
    IssuedBy(s, p, Thenable(n));
    if how.GetterThrows? {
      IssuedBy(s, p, how.e);
    }
  }

  /** The same for the resolving closure of a foreign then, unless it is called with the object itself, which then is the value. */
  lemma ClosureTakesForeign(s: State, g: nat, n: int, how: Foreign)
    requires UserTurn(s) && Live(s, g) && s.guards[g].value.Thenable?
    requires s.guards[g].promise < |s.core.promises| && s.core.promises[s.guards[g].promise].status == PENDING
    ensures var t, v, p := Step(s, CallResolve(g, Thenable(n), how)), Thenable(n), s.guards[g].promise;
      if v == s.guards[g].value then FulfilledWith(t.core, p, v)
      else match how
        case Calls => CallsThen(Marked(s, g), t, p, v)
        case GetterThrows(e) => RejectedWith(t.core, p, e)
        case NotCallable => FulfilledWith(t.core, p, v)
  {
    var m, p := Marked(s, g), s.guards[g].promise;
    IssuedBy(m, p, Thenable(n));
    if how.GetterThrows? {
      IssuedBy(m, p, how.e);
    }
  }

  // ----- the callback that a turn of the flush calls -----

  /** The callback for the outcome of its owner. */
  function CallbackFor(c: Core, sub: Subscriber): Handler
    requires sub.owner < |c.promises|
  {
    if c.promises[sub.owner].status == FULFILLED then sub.fulfilled else sub.rejected
  }

  /**
   * Sections 2.2.2 and 2.2.3 of Promises/A+: a turn that starts a subscriber calls the callback for the
   * outcome of its owner, which is published; control goes to user code exactly if that one is user code,
   * and a closure of the engine is done with at once.
   */
  lemma TurnCallsBack(s: State, how: Foreign, again: Foreign)
    requires Reachable(s) && s.core.flushing && s.calls == [] && s.invoking == None && NextCallback(s.core).Some?
    ensures var t, sub := Step(s, Tick(how, again)), NextCallback(s.core).value.1;
      && t.core.started == s.core.started + [sub]
      && sub.owner < |s.core.promises| && IsPublished(s.core.promises[sub.owner])
      && (UserCallback(t) <==> CallbackFor(s.core, sub).User?)
      && t.invoking == if CallbackFor(s.core, sub).Absent? then None else Some(Invocation(sub, !CallbackFor(s.core, sub).User?))
  {
    ReachableIsWhole(s);
    TickIsTurn(s, Tick(how, again));
    TurnOfCallback(s, how, again);
    NextIsPicked(s);
    var (d, sub) := NextCallback(s.core).value;
    PickedSubs(s, s.(core := d), sub);
    InvokeQuiet(s.(core := d), sub, how, again);
    hide Whole, Inv, Step, EngineTurn, NextCallback, Reachable, Unlocked, SubsSound, AllsSound, GuardsUnlocked;
    InvokesCallback(s.(core := d), sub, how, again);
  }

  lemma InvokesCallback(s: State, sub: Subscriber, how: Foreign, again: Foreign)
    requires sub.owner < |s.core.promises| && s.invoking == None
    ensures InvokeCallback(s, sub, how, again).invoking ==
      if CallbackFor(s.core, sub).Absent? then None else Some(Invocation(sub, !CallbackFor(s.core, sub).User?))
  {
    var owner, running := s.core.promises[sub.owner], s.(invoking := Some(Invocation(sub, true)));
    CompleteTouches(s, sub, owner.status == FULFILLED, owner.data, how, again);
    hide Complete, CallAdopt, CallRefuse, CallItem, CallFail;
    match CallbackFor(s.core, sub)
    case Adopt(g) =>
      ClosuresTouch(running, g, owner.data, how);
    case Refuse(g) =>
      ClosuresTouch(running, g, owner.data, how);
    case Item(a, i) => ItemSpares(running, a, i, owner.data);
    case Fail(a) => ItemSpares(running, a, 0, owner.data);
    case _ =>
  }

  /** The turn after a closure of the engine fulfils its child with undefined, which the closure returns. */
  lemma ClosureIsOver(s: State, how: Foreign, again: Foreign)
    requires Reachable(s) && s.calls == [] && s.invoking.Some? && s.invoking.value.internal
    ensures var t := Step(s, Tick(how, again)); t.invoking == None && FulfilledWith(t.core, Child(s), Undefined)
  {
    RunningChildIsPending(s);
    TickIsTurn(s, Tick(how, again));
    hide Step, Reachable;
    var t := s.(invoking := None);
    IssuedBy(t, Child(s), Undefined);
    PlainResolution(t, Child(s), Undefined, again);
    assert EngineTurn(s, how, again) == FulfillAt(t, Child(s), Undefined);
  }

  /**
   * Without a callback for the outcome, a promise among the owner's data, value or reason, is adopted by
   * the child: it subscribes to that promise.
   */
  lemma HandedOnPromise(s: State, how: Foreign, again: Foreign)
    requires Reachable(s) && s.core.flushing && s.calls == [] && s.invoking == None && NextCallback(s.core).Some?
    requires var sub := NextCallback(s.core).value.1;
      && sub.owner < |s.core.promises| && CallbackFor(s.core, sub).Absent? && s.core.promises[sub.owner].data.PromiseRef?
      && s.core.promises[sub.owner].data.p < |s.core.promises| && s.core.promises[sub.owner].data.p != sub.child
    ensures var t, sub := Step(s, Tick(how, again)), NextCallback(s.core).value.1;
      Subscribes(s.(core := NextCallback(s.core).value.0), t, sub.child, s.core.promises[sub.owner].data.p)
  {
    ReachableIsSteadfast(s);
    TickIsTurn(s, Tick(how, again));
    TurnOfCallback(s, how, again);
    NextIsPicked(s);
    var (d, sub) := NextCallback(s.core).value;
    var s1 := s.(core := d);
    PickedIsFree(s, s1, sub, None);
    hide Whole, Inv, Step, EngineTurn, NextCallback, Reachable, HandleThenable, Subscribes, AdoptsSound, Calm, Next;
    var owner := d.promises[sub.owner];
    ThenableSubscribes(s1, sub.child, owner.data.p, how);
    assert InvokeCallback(s1, sub, how, again) == Complete(s1, sub, owner.status == FULFILLED, owner.data, how, again);
  }
}
