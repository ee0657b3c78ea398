/** A promise that is resolved with another one, by its callback or by a resolver, follows it. */
module PromiseReturns {
  import opened Options
  import opened Promises
  import opened PromiseMachine
  import opened PromiseSafety
  import opened PromiseOutcomes
  import opened PromiseAdoption

  /**
   * A promise that one holder at a time may settle: the child of a then call, and the promise w made by
   * new P, if there is one, as long as its resolvers are not called again.
   */
  predicate Sole(c: Core, p: nat, w: Option<nat>) {
    p < |c.promises| && (c.promises[p].origin == Derived || (w == Some(p) && c.promises[p].origin == Open))
  }

  /** The event calls a resolver of w. */
  predicate Resolves(e: Event, w: Option<nat>) {
    match e
    case DoResolve(p, _, _) => w == Some(p)
    case DoReject(p, _) => w == Some(p)
    case _ => false
  }

  predicate Live(s: State, g: nat) {
    g < |s.guards| && !s.guards[g].resolved
  }

  /** An open guard by which a pending promise waits for another one. */
  predicate Waits(s: State, g: nat, w: Option<nat>) {
    && Live(s, g) && s.guards[g].value.PromiseRef?
    && Sole(s.core, s.guards[g].promise, w) && s.core.promises[s.guards[g].promise].status == PENDING
  }

  // ----- the invariant -----

  /** No two open guards are for the same such promise. */
  ghost predicate OneGuardEach(s: State, w: Option<nat>) {
    forall g: nat, h: nat :: g != h && Live(s, g) && Live(s, h) && s.guards[g].promise == s.guards[h].promise ==>
      !Sole(s.core, s.guards[g].promise, w)
  }

  /** The child of the running callback is pending, and no open guard is for it. */
  ghost predicate RunningIsFree(s: State, w: Option<nat>) {
    s.invoking.Some? ==>
      var child := s.invoking.value.sub.child;
      && Sole(s.core, child, None) && s.core.promises[child].status == PENDING
      && forall g: nat :: Live(s, g) ==> s.guards[g].promise != child
  }

  ghost predicate CallsForeign(s: State) {
    forall k :: 0 <= k < |s.calls| ==> s.calls[k] < |s.guards| && s.guards[s.calls[k]].value.Thenable?
  }

  ghost predicate Calm(s: State, w: Option<nat>) {
    OneGuardEach(s, w) && RunningIsFree(s, w) && CallsForeign(s)
  }

  /** Guards stay what they are, and those that wait and stay open go on waiting. */
  ghost predicate Keeps(s: State, t: State, w: Option<nat>) {
    && |s.guards| <= |t.guards|
    && forall g :: 0 <= g < |s.guards| ==>
         && t.guards[g].promise == s.guards[g].promise && t.guards[g].value == s.guards[g].value
         && (Waits(s, g, w) && Live(t, g) ==> Waits(t, g, w)) && (Live(t, g) ==> Live(s, g))
  }

  ghost predicate Next(s: State, t: State, w: Option<nat>) {
    Calm(t, w) && Keeps(s, t, w)
  }

  lemma KeepsTrans(s: State, t: State, u: State, w: Option<nat>)
    requires Keeps(s, t, w) && Keeps(t, u, w)
    ensures Keeps(s, u, w)
  {
    hide Waits;
  }

  lemma KeepsSelf(s: State, w: Option<nat>)
    ensures Keeps(s, s, w)
  {}

  // ----- what the engine's functions touch -----

  /** From s to t at most p was settled, and at most one guard was made, for p, and called if its value is foreign. */
  ghost predicate Touches(s: State, t: State, p: nat) {
    && t.invoking == s.invoking && s.guards <= t.guards && |t.guards| <= |s.guards| + 1
    && (if |t.guards| == |s.guards| then t.calls == s.calls
        else
          && t.guards[|s.guards|].promise == p && !t.guards[|s.guards|].resolved
          && (t.calls == s.calls || (t.guards[|s.guards|].value.Thenable? && t.calls == s.calls + [|s.guards|])))
    && |s.core.promises| <= |t.core.promises|
    && (forall q :: 0 <= q < |s.core.promises| ==> t.core.promises[q].origin == s.core.promises[q].origin)
    && (forall q :: 0 <= q < |s.core.promises| && q != p && s.core.promises[q].status == PENDING ==> t.core.promises[q].status == PENDING)
  }

  lemma TouchesNothing(s: State, p: nat)
    ensures Touches(s, s, p)
  {}

  lemma SettleTouches(s: State, p: nat, v: Value)
    ensures Touches(s, FulfillAt(s, p, v), p) && Touches(s, RejectAt(s, p, v), p)
  {}

  lemma HandleThenableTouches(s: State, p: nat, v: Value, how: Foreign)
    ensures Touches(s, HandleThenable(s, p, v, how).0, p)
  {}

  lemma ResolveTouches(s: State, p: nat, v: Value, how: Foreign)
    ensures Touches(s, Resolve(s, p, v, how), p)
  {
    hide Touches, HandleThenable, FulfillAt;
    SettleTouches(s, p, v);
    HandleThenableTouches(s, p, v, how);
    NotHandled(s, p, v, how);
  }

  lemma NotHandled(s: State, p: nat, v: Value, how: Foreign)
    ensures !HandleThenable(s, p, v, how).1 ==> HandleThenable(s, p, v, how).0 == s
  {}

  lemma CompleteTouches(s: State, sub: Subscriber, fulfilled: bool, v: Value, how: Foreign, again: Foreign)
    ensures Touches(s, Complete(s, sub, fulfilled, v, how, again), sub.child)
  {
    hide Touches, HandleThenable, Resolve, RejectAt;
    HandleThenableTouches(s, sub.child, v, how);
    NotHandled(s, sub.child, v, how);
    ResolveTouches(s, sub.child, v, again);
    SettleTouches(s, sub.child, v);
  }

  function Marked(s: State, g: nat): State
    requires g < |s.guards|
  {
    s.(guards := s.guards[g := s.guards[g].(resolved := true)])
  }

  lemma ClosuresTouch(s: State, g: nat, v: Value, how: Foreign)
    ensures if Live(s, g)
            then Touches(Marked(s, g), CallAdopt(s, g, v, how), s.guards[g].promise) &&
                 Touches(Marked(s, g), CallRefuse(s, g, v), s.guards[g].promise)
            else CallAdopt(s, g, v, how) == s == CallRefuse(s, g, v)
  {
    hide Touches, Resolve, FulfillAt, RejectAt;
    if Live(s, g) {
      ResolveTouches(Marked(s, g), s.guards[g].promise, v, how);
      SettleTouches(Marked(s, g), s.guards[g].promise, v);
    }
  }

  /** Guards and calls stay, and at most p was settled. */
  ghost predicate Spares(s: State, t: State, p: nat) {
    t.guards == s.guards && Touches(s, t, p)
  }

  lemma ItemSpares(s: State, a: nat, i: nat, v: Value)
    ensures a < |s.alls| ==> Spares(s, CallItem(s, a, i, v), s.alls[a].promise) && Spares(s, CallFail(s, a, v), s.alls[a].promise)
    ensures a >= |s.alls| ==> CallItem(s, a, i, v) == s == CallFail(s, a, v)
  {}

  lemma SparesTrans(s: State, t: State, u: State, p: nat)
    requires Spares(s, t, p) && Spares(t, u, p)
    ensures Spares(s, u, p)
  {}

  lemma ThenStatuses(c: Core, q: nat, f: Handler, r: Handler)
    requires q < |c.promises|
    ensures var d := Then(c, q, f, r);
      && |c.promises| <= |d.promises|
      && forall p :: 0 <= p < |c.promises| ==> d.promises[p].origin == c.promises[p].origin && d.promises[p].status == c.promises[p].status
  {}

  lemma ThenSpares(s: State, q: nat, f: Handler, r: Handler, p: nat)
    ensures Spares(s, ThenAt(s, q, f, r), p)
  {
    if q < |s.core.promises| {
      ThenStatuses(s.core, q, f, r);
    }
    hide Then;
  }

  lemma {:induction false} GatherSpares(s: State, a: nat, i: nat)
    requires a < |s.alls| && i <= |s.alls[a].entries| == |s.alls[a].results|
    ensures Spares(s, GatherFrom(s, a, i), s.alls[a].promise)
    decreases |s.alls[a].entries| - i
  {
    hide GatherFrom, ThenAt, Touches;
    var all := s.alls[a];
    TouchesNothing(s, all.promise);
    GatherUnfold(s, a, i);
    if i == |all.entries| {
      PlainResolve(s, all.promise, a);
    } else {
      match all.entries[i]
      case Given(v) =>
        var t := s.(alls := s.alls[a := all.(results := all.results[i := Some(v)])]);
        SameSpares(s, t, all.promise);
        GatherSpares(t, a, i + 1);
        SparesTrans(s, t, GatherFrom(t, a, i + 1), all.promise);
      case Awaited(p) =>
        var t := s.(alls := s.alls[a := all.(remaining := all.remaining + 1)]);
        var u := ThenAt(t, p, Item(a, i), Fail(a));
        SameSpares(s, t, all.promise);
        ThenSpares(t, p, Item(a, i), Fail(a), all.promise);
        ThenKeepsRest(t, p, Item(a, i), Fail(a));
        GatherSpares(u, a, i + 1);
        SparesTrans(s, t, u, all.promise);
        SparesTrans(s, u, GatherFrom(u, a, i + 1), all.promise);
    }
  }

  lemma SameSpares(s: State, t: State, p: nat)
    requires t == s.(alls := t.alls)
    ensures Spares(s, t, p)
  {}

  lemma PlainResolve(s: State, q: nat, a: nat)
    ensures Spares(s, Resolve(s, q, Results(a), NotCallable), q)
  {}

  // ----- what that means for the invariant -----

  ghost predicate GuardsInRange(s: State) {
    forall g :: 0 <= g < |s.guards| ==> s.guards[g].promise < |s.core.promises|
  }

  /** p may be settled, and get a guard if it needs one. */
  ghost predicate Free(s: State, p: nat, w: Option<nat>) {
    && (s.invoking.Some? ==> s.invoking.value.sub.child != p)
    && forall g: nat :: Live(s, g) && s.guards[g].promise == p ==> !Sole(s.core, p, w)
  }

  lemma TouchedKeeps(s: State, t: State, p: nat, w: Option<nat>)
    requires Touches(s, t, p) && GuardsInRange(s) && forall g: nat :: Waits(s, g, w) ==> s.guards[g].promise != p
    ensures Keeps(s, t, w)
  {}

  lemma TouchedCalm(s: State, t: State, p: nat, w: Option<nat>)
    requires Calm(s, w) && GuardsInRange(s) && Touches(s, t, p) && (s.invoking.Some? ==> s.invoking.value.sub.child != p)
    requires p < |s.core.promises| || t.guards == s.guards
    requires t.guards == s.guards || Free(s, p, w)
    ensures Calm(t, w)
  {
    var n := |s.guards|;
    assert forall g :: 0 <= g < n ==> t.guards[g] == s.guards[g];
    assert CallsForeign(t) by { hide OneGuardEach, RunningIsFree, Free; }
    assert RunningIsFree(t, w) by { hide OneGuardEach, CallsForeign, Free; }
    assert OneGuardEach(t, w) by { hide RunningIsFree, CallsForeign; }
  }

  lemma FreeNext(s: State, t: State, p: nat, w: Option<nat>)
    requires Calm(s, w) && GuardsInRange(s) && Touches(s, t, p) && Free(s, p, w) && p < |s.core.promises|
    ensures Next(s, t, w)
  {
    TouchedCalm(s, t, p, w);
    TouchedKeeps(s, t, p, w);
    hide Calm, Touches;
  }

  lemma SparedNext(s: State, t: State, p: nat, w: Option<nat>)
    requires Calm(s, w) && GuardsInRange(s) && Spares(s, t, p) && !Sole(s.core, p, w)
    ensures Next(s, t, w)
  {
    TouchedCalm(s, t, p, w);
    TouchedKeeps(s, t, p, w);
    hide Touches, OneGuardEach, CallsForeign;
  }

  lemma MarkedNext(s: State, g: nat, w: Option<nat>)
    requires Calm(s, w) && Live(s, g)
    ensures Next(s, Marked(s, g), w)
    ensures Free(Marked(s, g), s.guards[g].promise, w)
  {}

  lemma ClosuresNext(s: State, g: nat, v: Value, how: Foreign, w: Option<nat>)
    requires Calm(s, w) && GuardsInRange(s)
    ensures Next(s, CallAdopt(s, g, v, how), w) && Next(s, CallRefuse(s, g, v), w)
  {
    hide CallAdopt, CallRefuse, Calm, Touches, Free, Waits;
    ClosuresTouch(s, g, v, how);
    KeepsSelf(s, w);
    if Live(s, g) {
      var m, p := Marked(s, g), s.guards[g].promise;
      MarkedNext(s, g, w);
      FreeNext(m, CallAdopt(s, g, v, how), p, w);
      FreeNext(m, CallRefuse(s, g, v), p, w);
      KeepsTrans(s, m, CallAdopt(s, g, v, how), w);
      KeepsTrans(s, m, CallRefuse(s, g, v), w);
    }
    hide Keeps;
  }

  // ----- every step -----

  lemma WholeInRange(s: State)
    requires Whole(s)
    ensures Inv(s.core) && GuardsInRange(s)
  {
    assert forall g :: 0 <= g < |s.guards| ==> Unlocked(s.core, s.guards[g].promise);
    hide Inv, SubsSound, AllsSound, Tally;
  }

  /** The callback is over: its child may be settled or get a guard. */
  lemma RunningEnds(s: State, w: Option<nat>)
    requires Calm(s, w) && s.invoking.Some?
    ensures var t, child := s.(invoking := None), s.invoking.value.sub.child;
      Next(s, t, w) && Free(t, child, w) && child < |s.core.promises|
  {}

  lemma CompleteNext(s: State, v: Value, how: Foreign, again: Foreign, w: Option<nat>)
    requires Calm(s, w) && GuardsInRange(s) && s.invoking.Some?
    ensures Next(s, Complete(s.(invoking := None), s.invoking.value.sub, true, v, how, again), w)
  {
    var t, sub := s.(invoking := None), s.invoking.value.sub;
    RunningEnds(s, w);
    CompleteTouches(t, sub, true, v, how, again);
    hide Complete, Calm, Touches, Free, Waits;
    var u := Complete(t, sub, true, v, how, again);
    FreeNext(t, u, sub.child, w);
    KeepsTrans(s, t, u, w);
    hide Keeps;
  }

  lemma ThrowNext(s: State, x: Value, v: Value, how: Foreign, again: Foreign, w: Option<nat>)
    requires Calm(s, w) && GuardsInRange(s) && s.invoking.Some?
    ensures var sub := s.invoking.value.sub;
      Next(s, Complete(RejectAt(s.(invoking := None), sub.child, x), sub, true, v, how, again), w)
  {
    var t, sub := s.(invoking := None), s.invoking.value.sub;
    var u := RejectAt(t, sub.child, x);
    RunningEnds(s, w);
    SettleTouches(t, sub.child, x);
    RejectedFree(t, sub.child, x, w);
    CompleteTouches(u, sub, true, v, how, again);
    hide Complete, RejectAt, Calm, Touches, Free, Waits;
    var r := Complete(u, sub, true, v, how, again);
    FreeNext(t, u, sub.child, w);
    FreeNext(u, r, sub.child, w);
    KeepsTrans(s, t, u, w);
    KeepsTrans(s, u, r, w);
    hide Keeps;
  }

  lemma RejectedFree(t: State, p: nat, x: Value, w: Option<nat>)
    requires Free(t, p, w) && GuardsInRange(t) && p < |t.core.promises|
    ensures var u := RejectAt(t, p, x); Free(u, p, w) && GuardsInRange(u) && p < |u.core.promises|
  {}

  lemma OpenIsFree(s: State, p: nat, w: Option<nat>)
    requires Calm(s, w) && p < |s.core.promises| && s.core.promises[p].origin == Open && w != Some(p)
    ensures Free(s, p, w)
  {}

  lemma ThrownThen(s: State, x: Value, w: Option<nat>)
    requires Calm(s, w) && GuardsInRange(s) && s.calls != [] && Live(s, s.calls[|s.calls| - 1])
    ensures Next(s, RejectAt(s.(calls := s.calls[..|s.calls| - 1]), s.guards[s.calls[|s.calls| - 1]].promise, x), w)
  {
    var g, t := s.calls[|s.calls| - 1], s.(calls := s.calls[..|s.calls| - 1]);
    var p := s.guards[g].promise;
    CallEnds(s, w);
    SettleTouches(t, p, x);
    assert forall h: nat :: Waits(t, h, w) ==> t.guards[h].promise != p;
    hide RejectAt, Touches;
    TouchedKeeps(t, RejectAt(t, p, x), p, w);
    TouchedCalm(t, RejectAt(t, p, x), p, w);
    hide Calm, Waits;
    KeepsTrans(s, t, RejectAt(t, p, x), w);
  }

  lemma CallEnds(s: State, w: Option<nat>)
    requires Calm(s, w) && s.calls != []
    ensures Next(s, s.(calls := s.calls[..|s.calls| - 1]), w)
  {}

  lemma GatheringNext(s: State, entries: seq<Entry>, w: Option<nat>)
    requires Calm(s, w) && GuardsInRange(s)
    ensures Next(s, StartGathering(s, entries), w)
  {
    var n := |s.core.promises|;
    var all := Gathering(entries, seq(|entries|, _ => None), 0, n);
    var t := s.(core := Allocate(s.core, Collected), alls := s.alls + [all]);
    assert Spares(s, t, n);
    hide GatherFrom, Calm, Touches, Allocate;
    GatherSpares(t, |s.alls|, 0);
    SparesTrans(s, t, GatherFrom(t, |s.alls|, 0), n);
    SparedNext(s, GatherFrom(t, |s.alls|, 0), n, w);
    hide Keeps;
  }

  lemma UserStepNext(s: State, e: Event, w: Option<nat>)
    requires Calm(s, w) && GuardsInRange(s) && !e.Tick? && !e.Throw? && !Resolves(e, w)
    ensures Next(s, Step(s, e), w)
  {
    hide Calm, Keeps, Touches, Free, GuardsInRange, Resolve, RejectAt, ThenAt, Allocate, StartGathering, CallAdopt, CallRefuse, Complete;
    var n := |s.core.promises|;
    KeepsSelf(s, w);
    match e
    case Create => CreateSpares(s);
      SparedNext(s, s.(core := Allocate(s.core, Open)), n, w);
    case Subscribe(p, f, r) =>
      ThenSpares(s, p, f, r, n);
      SparedNext(s, ThenAt(s, p, f, r), n, w);
    case DoResolve(p, v, how) =>
      if p < n && s.core.promises[p].origin == Open {
        OpenIsFree(s, p, w);
        ResolveTouches(s, p, v, how);
        FreeNext(s, Resolve(s, p, v, how), p, w);
      }
    case DoReject(p, v) =>
      if p < n && s.core.promises[p].origin == Open {
        OpenIsFree(s, p, w);
        SettleTouches(s, p, v);
        FreeNext(s, RejectAt(s, p, v), p, w);
      }
    case Gather(entries) => GatheringNext(s, entries, w);
    case CallResolve(g, v, how) => ClosuresNext(s, g, v, how, w);
    case CallReject(g, v) => ClosuresNext(s, g, v, NotCallable, w);
    case ThenReturns =>
      if s.calls != [] {
        CallEnds(s, w);
      }
    case ThenThrows(x) =>
      if s.calls != [] {
        CallEnds(s, w);
        if Live(s, s.calls[|s.calls| - 1]) {
          ThrownThen(s, x, w);
        }
      }
    case Return(v, how, again) =>
      if s.invoking.Some? {
        CompleteNext(s, v, how, again, w);
      }
  }

  lemma CreateSpares(s: State)
    ensures Spares(s, s.(core := Allocate(s.core, Open)), |s.core.promises|)
  {}

  // ----- the turns of the engine -----

  /** The child of a callback that starts is pending and has no guard. */
  lemma PickedIsFree(s: State, s1: State, sub: Subscriber, w: Option<nat>)
    requires Whole(s) && Calm(s, w) && Picked(s, s1, sub)
    ensures Next(s, s1, w) && Sole(s1.core, sub.child, None) && s1.core.promises[sub.child].status == PENDING
    ensures forall g :: 0 <= g < |s1.guards| ==> s1.guards[g].promise != sub.child
  {
    var c := s.core;
    var j :| 0 <= j < |c.registered| && c.registered[j] == sub;
    NotStartedIsLocked(c, j);
    hide Inv, Unlocked, AllsSound, Tally, Good;
    assert SubsSound(s) && GuardsUnlocked(c, s.guards);
  }

  lemma PickedNext(s: State, s1: State, sub: Subscriber, how: Foreign, again: Foreign, w: Option<nat>)
    requires Whole(s) && Calm(s, w) && Picked(s, s1, sub)
    ensures Next(s, InvokeCallback(s1, sub, how, again), w)
  {
    PickedIsFree(s, s1, sub, w);
    WholeInRange(s);
    assert GuardsInRange(s1) && s1.invoking == None;
    PickedGatherings(s, s1, w);
    hide Whole, Picked, Keeps, Good;
    InvokeNext(s1, sub, how, again, w);
    KeepsTrans(s, s1, InvokeCallback(s1, sub, how, again), w);
  }

  lemma PickedGatherings(s: State, s1: State, w: Option<nat>)
    requires Whole(s) && s1.alls == s.alls && s1.core.promises == s.core.promises
    ensures forall a :: 0 <= a < |s1.alls| ==> !Sole(s1.core, s1.alls[a].promise, w)
  {
    hide Inv, SubsSound, GuardsUnlocked, Tally;
  }

  lemma InvokingNext(s: State, sub: Subscriber, internal: bool, w: Option<nat>)
    requires Calm(s, w) && s.invoking == None && Sole(s.core, sub.child, None) && s.core.promises[sub.child].status == PENDING
    requires forall g :: 0 <= g < |s.guards| ==> s.guards[g].promise != sub.child
    ensures Next(s, s.(invoking := Some(Invocation(sub, internal))), w) && Free(s, sub.child, w)
  {}

  lemma InvokeNext(s: State, sub: Subscriber, how: Foreign, again: Foreign, w: Option<nat>)
    requires Calm(s, w) && GuardsInRange(s) && s.invoking == None
    requires Sole(s.core, sub.child, None) && s.core.promises[sub.child].status == PENDING
    requires forall g :: 0 <= g < |s.guards| ==> s.guards[g].promise != sub.child
    requires forall a :: 0 <= a < |s.alls| ==> !Sole(s.core, s.alls[a].promise, w)
    ensures Next(s, InvokeCallback(s, sub, how, again), w)
  {
    hide Calm, Keeps, Touches, Free, Complete, CallAdopt, CallRefuse, CallItem, CallFail, Waits;
    KeepsSelf(s, w);
    InvokingNext(s, sub, true, w);
    InvokingNext(s, sub, false, w);
    if sub.owner < |s.core.promises| {
      var owner, running := s.core.promises[sub.owner], s.(invoking := Some(Invocation(sub, true)));
      CompleteTouches(s, sub, owner.status == FULFILLED, owner.data, how, again);
      FreeNext(s, Complete(s, sub, owner.status == FULFILLED, owner.data, how, again), sub.child, w);
      match if owner.status == FULFILLED then sub.fulfilled else sub.rejected
      case Absent =>
      case User(_) =>
      case Adopt(g) =>
        ClosuresNext(running, g, owner.data, how, w);
        KeepsTrans(s, running, CallAdopt(running, g, owner.data, how), w);
      case Refuse(g) =>
        ClosuresNext(running, g, owner.data, how, w);
        KeepsTrans(s, running, CallRefuse(running, g, owner.data), w);
      case Item(a, i) => ItemNext(s, running, a, i, owner.data, w);
      case Fail(a) => ItemNext(s, running, a, 0, owner.data, w);
    }
  }

  lemma ItemNext(s: State, t: State, a: nat, i: nat, v: Value, w: Option<nat>)
    requires Next(s, t, w) && GuardsInRange(t) && forall b :: 0 <= b < |t.alls| ==> !Sole(t.core, t.alls[b].promise, w)
    ensures Next(s, CallItem(t, a, i, v), w) && Next(s, CallFail(t, a, v), w)
  {
    hide Calm, Touches, CallItem, CallFail, Waits, Sole;
    ItemSpares(t, a, i, v);
    if a < |t.alls| {
      SparedNext(t, CallItem(t, a, i, v), t.alls[a].promise, w);
      SparedNext(t, CallFail(t, a, v), t.alls[a].promise, w);
      KeepsTrans(s, t, CallItem(t, a, i, v), w);
      KeepsTrans(s, t, CallFail(t, a, v), w);
    }
    hide Keeps;
  }

  /** A turn that starts no callback settles nothing: it publishes what is settled already. */
  lemma QuietTurnNext(s: State, how: Foreign, again: Foreign, w: Option<nat>)
    requires Inv(s.core) && Calm(s, w) && s.calls == [] && s.invoking == None
    requires s.core.flushing ==> NextCallback(s.core) == None
    ensures Next(s, EngineTurn(s, how, again), w)
  {
    var c, t := s.core, EngineTurn(s, how, again);
    if Ready(c) && !c.queue[c.pos].Invoke? && c.queue[c.pos].p < |c.promises| {
      SettledUntilPublished(c, c.queue[c.pos].p);
    }
    assert c.pos <= |c.queue|;
    hide Inv, Calm, Keeps, InvokeCallback, Complete;
    assert t == s.(core := t.core);
    assert |t.core.promises| == |c.promises|;
    assert forall p :: 0 <= p < |c.promises| ==> t.core.promises[p].origin == c.promises[p].origin;
    assert forall p :: 0 <= p < |c.promises| && c.promises[p].status == PENDING ==> t.core.promises[p].status == PENDING;
    hide EngineTurn, NextCallback;
    SameCalm(s, t, w);
  }

  lemma SameCalm(s: State, t: State, w: Option<nat>)
    requires Calm(s, w) && s.invoking == None && t == s.(core := t.core) && |t.core.promises| == |s.core.promises|
    requires forall p :: 0 <= p < |s.core.promises| ==> t.core.promises[p].origin == s.core.promises[p].origin
    requires forall p :: 0 <= p < |s.core.promises| && s.core.promises[p].status == PENDING ==> t.core.promises[p].status == PENDING
    ensures Next(s, t, w)
  {}

  lemma TurnNext(s: State, how: Foreign, again: Foreign, w: Option<nat>)
    requires Whole(s) && Calm(s, w)
    ensures Next(s, EngineTurn(s, how, again), w)
  {
    WholeInRange(s);
    KeepsSelf(s, w);
    hide Whole, Calm, Keeps, Inv, GuardsInRange, Complete, InvokeCallback;
    if s.calls == [] && s.invoking.Some? {
      CompleteNext(s, Undefined, how, again, w);
    } else if s.calls == [] && s.core.flushing && NextCallback(s.core).Some? {
      TurnOfCallback(s, how, again);
      NextIsPicked(s);
      hide EngineTurn, Picked;
      var (d, sub) := NextCallback(s.core).value;
      PickedNext(s, s.(core := d), sub, how, again, w);
    } else if s.calls == [] {
      QuietTurnNext(s, how, again, w);
    }
  }

  lemma StepNext(s: State, e: Event, w: Option<nat>)
    requires Whole(s) && Calm(s, w) && !Resolves(e, w)
    ensures Next(s, Step(s, e), w)
  {
    WholeInRange(s);
    hide Whole, Calm, Keeps, Inv, GuardsInRange, Complete, EngineTurn, RejectAt;
    match e
    case Tick(how, again) => TurnNext(s, how, again, w);
    case Throw(x, how, again) =>
      KeepsSelf(s, w);
      if s.invoking.Some? && s.invoking.value.sub.owner < |s.core.promises| {
        ThrowNext(s, x, s.core.promises[s.invoking.value.sub.owner].data, how, again, w);
      }
    case _ => UserStepNext(s, e, w);
  }

  /** What every state of every run satisfies, with w left alone. */
  ghost predicate Steadfast(s: State, w: Option<nat>) {
    Whole(s) && AdoptsSound(s) && Calm(s, w)
  }

  lemma StepSteadfast(s: State, e: Event, w: Option<nat>)
    requires Steadfast(s, w) && !Resolves(e, w)
    ensures Steadfast(Step(s, e), w) && Next(s, Step(s, e), w) && Good(s.core, Step(s, e).core)
  {
    assert Inv(s.core);
    hide Whole, Inv, AdoptsSound, Calm, Keeps, Step, Resolves, Extends;
    StepWhole(s, e);
    StepSteady(s, e);
    StepNext(s, e, w);
    StepGood(s, e);
  }

  lemma {:induction false} RunSteadfast(es: seq<Event>)
    ensures Steadfast(Run(Start, es), None)
  {
    hide Steadfast, Step, Next, Good;
    if es == [] {
      StartIsSteadfast();
    } else {
      RunSteadfast(es[..|es| - 1]);
      StepSteadfast(Run(Start, es[..|es| - 1]), es[|es| - 1], None);
    }
  }

  lemma StartIsSteadfast()
    ensures Steadfast(Start, None)
  {
    StartTakesOver();
    hide Whole, AdoptsSound;
  }

  lemma ReachableIsSteadfast(s: State)
    requires Reachable(s)
    ensures Steadfast(s, None)
  {
    var es :| s == Run(Start, es);
    hide Steadfast;
    RunSteadfast(es);
  }

  /** In every run the promise of a running callback is still pending. */
  lemma RunningChildIsPending(s: State)
    requires Reachable(s) && s.invoking.Some?
    ensures var child := s.invoking.value.sub.child; child < |s.core.promises| && s.core.promises[child].status == PENDING
  {
    ReachableIsSteadfast(s);
    hide Whole, AdoptsSound;
  }

  // ----- resolving with another promise -----

  /** From s to t a guard for p was made that waits for q, and its two closures were subscribed to q. */
  predicate Subscribes(s: State, t: State, p: nat, q: nat) {
    var g := |s.guards|;
    && |t.guards| == g + 1 && t.guards[g] == Guard(p, PromiseRef(q), false)
    && t.core.registered == s.core.registered + [Subscriber(q, |s.core.promises|, Adopt(g), Refuse(g))]
    && t.core.started == s.core.started
    && p < |t.core.promises| && t.core.promises[p].status == PENDING
  }

  lemma ThenableSubscribes(s: State, p: nat, q: nat, how: Foreign)
    requires p < |s.core.promises| && s.core.promises[p].status == PENDING && q < |s.core.promises| && q != p
    ensures HandleThenable(s, p, PromiseRef(q), how).1 && Subscribes(s, HandleThenable(s, p, PromiseRef(q), how).0, p, q)
    ensures Subscribes(s, Resolve(s, p, PromiseRef(q), how), p, q)
  {
    var g := |s.guards|;
    var guarded := s.(guards := s.guards + [Guard(p, PromiseRef(q), false)]);
    ThenRegisters(guarded, q, Adopt(g), Refuse(g));
    ThenStatuses(s.core, q, Adopt(g), Refuse(g));
    hide Then;
  }

  /** The promise of the running callback. */
  function Child(s: State): nat
    requires s.invoking.Some?
  {
    s.invoking.value.sub.child
  }

  /** A callback returns another promise q: its child subscribes to q and stays pending. */
  lemma ReturnedPromise(s: State, q: nat, how: Foreign, again: Foreign)
    requires Reachable(s) && s.calls == [] && UserCallback(s) && q < |s.core.promises| && q != Child(s)
    ensures Subscribes(s, Step(s, Return(PromiseRef(q), how, again)), Child(s), q)
  {
    RunningChildIsPending(s);
    ReturnStep(s, PromiseRef(q), how, again);
    hide Step, HandleThenable, Reachable;
    ThenableSubscribes(s.(invoking := None), Child(s), q, how);
  }

  /** A resolver is called with another promise: the same. */
  lemma ResolvedPromise(s: State, p: nat, q: nat, how: Foreign)
    requires UserTurn(s) && p < |s.core.promises| && s.core.promises[p].origin == Open && s.core.promises[p].status == PENDING
    requires q < |s.core.promises| && q != p
    ensures Subscribes(s, Step(s, DoResolve(p, PromiseRef(q), how)), p, q)
  {
    ThenableSubscribes(s, p, q, how);
    hide Resolve;
  }

  /** The resolving closure that a foreign then got is called with a promise: the same, for the promise of its guard. */
  lemma ClosureTakesPromise(s: State, g: nat, q: nat, how: Foreign)
    requires UserTurn(s) && Live(s, g) && s.guards[g].value.Thenable? && q < |s.core.promises| && q != s.guards[g].promise
    requires s.guards[g].promise < |s.core.promises| && s.core.promises[s.guards[g].promise].status == PENDING
    ensures Subscribes(s, Step(s, CallResolve(g, PromiseRef(q), how)), s.guards[g].promise, q)
    ensures Step(s, CallResolve(g, PromiseRef(q), how)).guards[g].resolved
  {
    ThenableSubscribes(Marked(s, g), s.guards[g].promise, q, how);
    ResolveTouches(Marked(s, g), s.guards[g].promise, PromiseRef(q), how);
    hide Resolve;
  }

  // ----- the promise resolved follows the other one -----

  /** The outcome of q is one that a promise which adopted it takes: a rejection, or a value that is no thenable. */
  predicate HandsOver(c: Core, q: nat) {
    q < |c.promises| && (c.promises[q].status == REJECTED || (c.promises[q].status == FULFILLED && NotThenable(c, c.promises[q].data)))
  }

  /** p has been settled as q was. */
  predicate SettledLike(c: Core, p: nat, q: nat) {
    && p < |c.promises| && q < |c.promises| && c.promises[p].data == c.promises[q].data
    && (if c.promises[q].status == FULFILLED then PublishFulfillment(p) else PublishRejection(p)) in c.issued
  }

  /** x holds the closures of guard g, by which the child p waits for x's owner, or has taken over from it. */
  ghost predicate Follows(s: State, x: Subscriber, g: nat, p: nat, w: Option<nat>) {
    && x in s.core.registered && x.fulfilled == Adopt(g) && x.rejected == Refuse(g)
    && g < |s.guards| && s.guards[g].promise == p && s.guards[g].value == PromiseRef(x.owner) && Sole(s.core, p, w)
    && (x !in s.core.started ==> s.core.promises[p].status == PENDING)
    && (x in s.core.started && HandsOver(s.core, x.owner) ==> SettledLike(s.core, p, x.owner))
  }

  lemma OpenUntilStarted(s: State, x: Subscriber, g: nat)
    requires AdoptsSound(s) && x in s.core.registered && x.fulfilled == Adopt(g) && x !in s.core.started
    ensures Live(s, g)
  {
    NotCrossed(s, x);
    hide Adoption;
  }

  lemma StillWaits(s: State, t: State, x: Subscriber, g: nat, p: nat, w: Option<nat>)
    requires AdoptsSound(s) && AdoptsSound(t) && Keeps(s, t, w) && Good(s.core, t.core) && Follows(s, x, g, p, w)
    requires x !in t.core.started
    ensures Follows(t, x, g, p, w)
  {
    hide AdoptsSound, Inv, HandsOver, SettledLike;
    assert x !in s.core.started;
    OpenUntilStarted(s, x, g);
    OpenUntilStarted(t, x, g);
    assert Waits(s, g, w) && Live(t, g);
  }

  lemma StillSettled(c: Core, d: Core, p: nat, q: nat)
    requires Good(c, d) && p < |c.promises| && q < |c.promises| && IsPublished(c.promises[q]) && HandsOver(d, q)
    requires HandsOver(c, q) ==> SettledLike(c, p, q) && c.promises[p].status != PENDING
    ensures SettledLike(d, p, q)
  {
    hide Inv;
    assert Later(c.promises[q], d.promises[q]) && Later(c.promises[p], d.promises[p]);
    assert forall t :: t in c.issued ==> t in d.issued;
  }

  lemma HasTakenOver(s: State, t: State, x: Subscriber, g: nat, p: nat, w: Option<nat>)
    requires Steadfast(s, w) && Next(s, t, w) && Good(s.core, t.core) && Follows(s, x, g, p, w) && x in s.core.started
    ensures Follows(t, x, g, p, w)
  {
    StartedIsPublished(s.core, x);
    IssuedOnce(s.core, p);
    assert Later(s.core.promises[p], t.core.promises[p]);
    hide Inv, Whole, AdoptsSound, Calm, SettledLike, HandsOver, Later;
    if HandsOver(t.core, x.owner) {
      SettledIsNotPending(s.core, p, x.owner);
      StillSettled(s.core, t.core, p, x.owner);
    }
  }

  lemma SettledIsNotPending(c: Core, p: nat, q: nat)
    requires Inv(c) && p < |c.promises|
    ensures SettledLike(c, p, q) ==> c.promises[p].status != PENDING
  {
    IssuedOnce(c, p);
    hide Inv;
  }

  /** The turn that starts x hands its owner's outcome to p. */
  lemma TakesOverNow(s: State, e: Event, x: Subscriber, g: nat, p: nat, w: Option<nat>)
    requires Reachable(s) && Steadfast(s, w) && Follows(s, x, g, p, w)
    requires x !in s.core.started && x in Step(s, e).core.started
    ensures HandsOver(Step(s, e).core, x.owner) ==> SettledLike(Step(s, e).core, p, x.owner)
  {
    var t := Step(s, e);
    CallbacksStartInFlush(s, e);
    TickIsTurn(s, e);
    TurnOfCallback(s, e.how, e.again);
    NextIsPicked(s);
    var (d, sub) := NextCallback(s.core).value;
    var s1 := s.(core := d);
    InvokeQuiet(s1, sub, e.how, e.again);
    InvokeCallbackGood(s1, sub, e.how, e.again);
    assert sub == x;
    StartedIsPublished(d, x);
    hide Inv, Whole, AdoptsSound, Calm, Step, EngineTurn, InvokeCallback, NextCallback, Reachable;
    assert Later(d.promises[x.owner], t.core.promises[x.owner]);
    if HandsOver(t.core, x.owner) {
      TakesOverBefore(d, t.core, x);
      AdoptionTakesOutcome(s, e.how, e.again);
    }
  }

  lemma StepFollows(s: State, e: Event, x: Subscriber, g: nat, p: nat, w: Option<nat>)
    requires Reachable(s) && Steadfast(s, w) && Follows(s, x, g, p, w) && !Resolves(e, w)
    ensures Follows(Step(s, e), x, g, p, w)
  {
    var t := Step(s, e);
    ConsistentSound(s, w);
    StepSteadfast(s, e, w);
    ConsistentSound(t, w);
    hide Inv, Whole, AdoptsSound, Calm, Step, Reachable, HandsOver, SettledLike;
    if x !in t.core.started {
      StillWaits(s, t, x, g, p, w);
    } else if x in s.core.started {
      HasTakenOver(s, t, x, g, p, w);
    } else {
      TakesOverNow(s, e, x, g, p, w);
      assert Later(s.core.promises[p], t.core.promises[p]);
    }
  }

  lemma ConsistentSound(s: State, w: Option<nat>)
    requires Steadfast(s, w)
    ensures Inv(s.core) && AdoptsSound(s)
  {
    hide Inv, AdoptsSound;
  }

  lemma {:induction false} RunFollows(s: State, es: seq<Event>, x: Subscriber, g: nat, p: nat, w: Option<nat>)
    requires Reachable(s) && Steadfast(s, w) && Follows(s, x, g, p, w) && forall e :: e in es ==> !Resolves(e, w)
    ensures Reachable(Run(s, es)) && Steadfast(Run(s, es), w) && Follows(Run(s, es), x, g, p, w)
  {
    hide Step, Follows, Steadfast, Resolves, Next, Good;
    if es != [] {
      var t, e := Run(s, es[..|es| - 1]), es[|es| - 1];
      assert e in es;
      RunFollows(s, es[..|es| - 1], x, g, p, w);
      StepFollows(t, e, x, g, p, w);
      StepSteadfast(t, e, w);
      ReachesStep(t, e);
    }
  }

  lemma ReachesStep(s: State, e: Event)
    requires Reachable(s)
    ensures Reachable(Step(s, e))
  {
    var es :| s == Run(Start, es);
    RunStep(Start, es, e);
    hide Run, Step;
    assert Step(s, e) == Run(Start, es + [e]);
  }

  lemma NewSubNotStarted(s: State, x: Subscriber)
    requires Reachable(s) && x.child == |s.core.promises|
    ensures x !in s.core.started
  {
    ReachableIsSound(s);
    assert KnownSubs(|s.core.promises|, s.core.started);
  }

  /** p is pending as long as q is, and settled as q is once q is rejected, or fulfilled with a value that is no thenable. */
  predicate Followed(c: Core, p: nat, q: nat) {
    && q < |c.promises| && p < |c.promises|
    && (c.promises[q].status == PENDING ==> c.promises[p].status == PENDING)
    && (HandsOver(c, q) ==> c.promises[p].status == c.promises[q].status && c.promises[p].data == c.promises[q].data)
  }

  lemma FollowerSettles(s: State, x: Subscriber, g: nat, p: nat, w: Option<nat>)
    requires Reachable(s) && Drained(s.core) && Follows(s, x, g, p, w)
    ensures Followed(s.core, p, x.owner)
  {
    NoCallbackLost(s, x);
    ReachableIsSound(s);
    DrainedIsNotSettled(s.core, p);
    PublishedAsIssued(s.core, p);
    hide Inv, Drained, Reachable;
  }

  /** From the moment p has subscribed to q, with one open guard and its resolvers left alone, it follows q. */
  lemma SubscriberFollows(s: State, t: State, p: nat, q: nat, es: seq<Event>, w: Option<nat>)
    requires Reachable(s) && Reachable(t) && Steadfast(t, w) && Subscribes(s, t, p, q) && Sole(t.core, p, w)
    requires Drained(Run(t, es).core) && forall e :: e in es ==> !Resolves(e, w)
    ensures Followed(Run(t, es).core, p, q)
  {
    var g := |s.guards|;
    var x := Subscriber(q, |s.core.promises|, Adopt(g), Refuse(g));
    assert x == t.core.registered[|s.core.registered|];
    NewSubNotStarted(s, x);
    assert Follows(t, x, g, p, w);
    hide Run, Follows, Reachable, Steadfast, Followed;
    RunFollows(t, es, x, g, p, w);
    FollowerSettles(Run(t, es), x, g, p, w);
  }

  /**
   * Section 2.3.2 of Promises/A+ for a callback that returns a promise: over any run after it, once the
   * queue has drained, its child has followed the promise returned.
   */
  lemma ChildFollowsReturned(s: State, q: nat, how: Foreign, again: Foreign, es: seq<Event>)
    requires Reachable(s) && s.calls == [] && UserCallback(s) && q < |s.core.promises| && q != Child(s)
    requires Drained(Run(Step(s, Return(PromiseRef(q), how, again)), es).core)
    ensures Followed(Run(Step(s, Return(PromiseRef(q), how, again)), es).core, Child(s), q)
  {
    var t := Step(s, Return(PromiseRef(q), how, again));
    ReturnedPromise(s, q, how, again);
    ReachableIsSteadfast(s);
    StepSteadfast(s, Return(PromiseRef(q), how, again), None);
    ReachesStep(s, Return(PromiseRef(q), how, again));
    ChildIsSole(s, t);
    hide Step, Run, Reachable, Steadfast, Subscribes, Followed, Sole, Next, Good;
    SubscriberFollows(s, t, Child(s), q, es, None);
  }

  lemma ChildIsSole(s: State, t: State)
    requires Steadfast(s, None) && s.invoking.Some? && Good(s.core, t.core)
    ensures Sole(t.core, Child(s), None)
  {
    assert RunningIsFree(s, None);
    assert Later(s.core.promises[Child(s)], t.core.promises[Child(s)]);
    hide Inv, Whole, AdoptsSound;
  }

  /**
   * The same for a resolver: a pending promise p that waits for nothing yet is resolved with another
   * promise, and its resolvers are not called again.
   */
  lemma PromiseFollowsResolved(s: State, p: nat, q: nat, how: Foreign, es: seq<Event>)
    requires Reachable(s) && UserTurn(s) && p < |s.core.promises|
    requires s.core.promises[p].origin == Open && s.core.promises[p].status == PENDING
    requires q < |s.core.promises| && q != p && forall g: nat :: Live(s, g) ==> s.guards[g].promise != p
    requires Drained(Run(Step(s, DoResolve(p, PromiseRef(q), how)), es).core)
    requires forall e :: e in es ==> !Resolves(e, Some(p))
    ensures Followed(Run(Step(s, DoResolve(p, PromiseRef(q), how)), es).core, p, q)
  {
    var e := DoResolve(p, PromiseRef(q), how);
    var t := Step(s, e);
    ResolvedPromise(s, p, q, how);
    ReachesStep(s, e);
    ReachableIsSteadfast(t);
    Watched(s, p, q, how);
    hide Step, Run, Reachable, Subscribes, Followed, Resolves, Whole, AdoptsSound, Calm, Sole;
    SubscriberFollows(s, t, p, q, es, Some(p));
  }

  lemma Watched(s: State, p: nat, q: nat, how: Foreign)
    requires UserTurn(s) && p < |s.core.promises| && s.core.promises[p].origin == Open
    requires forall g: nat :: Live(s, g) ==> s.guards[g].promise != p
    ensures var t := Step(s, DoResolve(p, PromiseRef(q), how)); Calm(t, None) ==> Calm(t, Some(p)) && Sole(t.core, p, Some(p))
  {
    ResolveTouches(s, p, PromiseRef(q), how);
    hide Resolve;
    var t := Step(s, DoResolve(p, PromiseRef(q), how));
    assert forall g: nat :: Live(t, g) && t.guards[g].promise == p ==> g == |s.guards|;
  }

  // ----- foreign thenables -----

  /** From s to t the foreign `then` was called, with the two closures of a new open guard for p. */
  predicate CallsThen(s: State, t: State, p: nat, v: Value) {
    t.guards == s.guards + [Guard(p, v, false)] && t.calls == s.calls + [|s.guards|] && t.core == s.core
  }

  /**
   * A callback returns a foreign object: what the first read of `then` shows counts, and the second read
   * if the first shows no function. Its `then` is called, or the child is rejected with what the getter
   * threw, or fulfilled with the object.
   */
  lemma ReturnedForeign(s: State, n: int, how: Foreign, again: Foreign)
    requires Reachable(s) && s.calls == [] && UserCallback(s)
    ensures var t, v, seen := Step(s, Return(Thenable(n), how, again)), Thenable(n), if how.NotCallable? then again else how;
      match seen
      case Calls => CallsThen(s, t, Child(s), v)
      case GetterThrows(e) => RejectedWith(t.core, Child(s), e)
      case NotCallable => FulfilledWith(t.core, Child(s), v)
  {
    RunningChildIsPending(s);
    ReturnStep(s, Thenable(n), how, again);
    hide Step, Reachable;
    var t := s.(invoking := None);
    IssuedBy(t, Child(s), Thenable(n));
    if how.GetterThrows? {
      IssuedBy(t, Child(s), how.e);
    }
    if again.GetterThrows? {
      IssuedBy(t, Child(s), again.e);
    }
  }

  /** The event calls a closure of guard g. */
  predicate Closes(e: Event, g: nat) {
    match e
    case CallResolve(h, _, _) => h == g
    case CallReject(h, _) => h == g
    case _ => false
  }

  lemma ClosedOnce(s: State, e: Event, g: nat)
    requires UserTurn(s) && Closes(e, g) && g < |s.guards| && s.guards[g].value.Thenable?
    ensures g < |Step(s, e).guards| && Step(s, e).guards[g].resolved
  {
    ClosuresTouch(s, g, e.v, if e.CallResolve? then e.how else NotCallable);
    hide CallAdopt, CallRefuse;
  }

  /** Of the closures that a foreign then got the first call counts: over any run after it, calling either does nothing. */
  lemma FirstClosureCounts(s: State, e: Event, g: nat, es: seq<Event>, later: Event)
    requires Reachable(s) && UserTurn(s) && Closes(e, g) && g < |s.guards| && s.guards[g].value.Thenable?
    requires Closes(later, g)
    ensures var t := Run(Step(s, e), es); Step(t, later) == t
  {
    ClosedOnce(s, e, g);
    ReachesStep(s, e);
    hide Step, Run, Reachable, Closes;
    StaysClosed(Step(s, e), es, g);
    ClosedIsOver(Run(Step(s, e), es), later, g);
  }

  lemma ClosedIsOver(t: State, later: Event, g: nat)
    requires Closes(later, g) && g < |t.guards| && t.guards[g].resolved
    ensures Step(t, later) == t
  {}

  lemma {:induction false} StaysClosed(s: State, es: seq<Event>, g: nat)
    requires Reachable(s) && g < |s.guards| && s.guards[g].resolved
    ensures Reachable(Run(s, es)) && g < |Run(s, es).guards| && Run(s, es).guards[g].resolved
  {
    hide Step;
    if es != [] {
      var t := Run(s, es[..|es| - 1]);
      StaysClosed(s, es[..|es| - 1], g);
      ReachableIsSteadfast(t);
      StepSteadfast(t, es[|es| - 1], None);
      ReachesStep(t, es[|es| - 1]);
      hide Steadfast, Calm, Good, Reachable, Waits;
    }
  }

  /**
   * The first call settles: a pending promise is fulfilled with a value that is no thenable, or rejected.
   * A then that throws before either closure was called rejects it, and one that throws later does nothing.
   */
  lemma ForeignSettles(s: State, g: nat, v: Value, how: Foreign)
    requires UserTurn(s) && Live(s, g) && s.guards[g].value.Thenable?
    requires s.guards[g].promise < |s.core.promises| && s.core.promises[s.guards[g].promise].status == PENDING
    ensures NotThenable(s.core, v) ==> FulfilledWith(Step(s, CallResolve(g, v, how)).core, s.guards[g].promise, v)
    ensures RejectedWith(Step(s, CallReject(g, v)).core, s.guards[g].promise, v)
    ensures s.calls != [] && s.calls[|s.calls| - 1] == g ==> RejectedWith(Step(s, ThenThrows(v)).core, s.guards[g].promise, v)
  {
    var m, p := Marked(s, g), s.guards[g].promise;
    IssuedBy(m, p, v);
    IssuedBy(s.(calls := s.calls[..if |s.calls| > 0 then |s.calls| - 1 else 0]), p, v);
    if NotThenable(s.core, v) {
      PlainResolution(m, p, v, how);
    }
    hide Resolve;
  }

  lemma LateThrowIsIgnored(s: State, x: Value)
    requires s.calls != [] && s.calls[|s.calls| - 1] < |s.guards| && s.guards[s.calls[|s.calls| - 1]].resolved
    ensures Step(s, ThenThrows(x)) == Step(s, ThenReturns)
  {}
}
