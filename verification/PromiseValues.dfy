/** Which promises can be the value of a fulfilled promise, when user code names only promises that exist. */
module PromiseValues {
  import opened Options
  import opened Promises
  import opened PromiseMachine
  import opened PromiseSafety
  import opened PromiseOutcomes
  import opened PromiseAdoption

  predicate Existing(n: nat, v: Value) {
    v.PromiseRef? ==> v.p < n
  }

  predicate ExistingForeign(n: nat, how: Foreign) {
    how.GetterThrows? ==> Existing(n, how.e)
  }

  /** Every value of the event that can become the data of a promise exists. */
  predicate Names(n: nat, e: Event) {
    match e
    case DoResolve(_, v, how) => Existing(n, v) && ExistingForeign(n, how)
    case DoReject(_, v) => Existing(n, v)
    case CallResolve(_, v, how) => Existing(n, v) && ExistingForeign(n, how)
    case CallReject(_, v) => Existing(n, v)
    case ThenThrows(x) => Existing(n, x)
    case Return(v, how, again) => Existing(n, v) && ExistingForeign(n, how) && ExistingForeign(n, again)
    case Throw(x, how, again) => Existing(n, x) && ExistingForeign(n, how) && ExistingForeign(n, again)
    case Tick(how, again) => ExistingForeign(n, how) && ExistingForeign(n, again)
    case _ => true
  }

  /** Over the run of es from s user code names only promises that exist. */
  predicate AllNamed(s: State, es: seq<Event>) {
    es == [] || (AllNamed(s, es[..|es| - 1]) && Names(|Run(s, es[..|es| - 1]).core.promises|, es[|es| - 1]))
  }

  ghost predicate Proper(s: State) {
    exists es :: AllNamed(Start, es) && s == Run(Start, es)
  }

  // ----- the invariant -----

  /** x was settled with itself. */
  predicate HoldsItself(promises: seq<Promise>, x: nat) {
    x < |promises| && promises[x].status != PENDING && promises[x].data == PromiseRef(x)
  }

  ghost predicate DataExists(c: Core) {
    forall p :: 0 <= p < |c.promises| ==> Existing(|c.promises|, c.promises[p].data)
  }

  ghost predicate OnlyThemselves(c: Core) {
    forall p :: 0 <= p < |c.promises| && PublishFulfillment(p) in c.issued && c.promises[p].data.PromiseRef? ==>
      HoldsItself(c.promises, c.promises[p].data.p)
  }

  ghost predicate Tidy(c: Core) {
    DataExists(c) && OnlyThemselves(c)
  }

  /** v can fulfil p. */
  predicate Fitting(c: Core, p: nat, v: Value) {
    v.PromiseRef? ==> v.p == p || HoldsItself(c.promises, v.p)
  }

  lemma SettledTidy(c: Core, p: nat, v: Value, t: Task)
    requires Inv(c) && Tidy(c) && p < |c.promises| && Existing(|c.promises|, v)
    requires t == PublishRejection(p) || (t == PublishFulfillment(p) && Fitting(c, p, v))
    ensures Tidy(Settle(c, p, v, t))
  {
    if c.promises[p].status == PENDING {
      IssuedOnce(c, p);
      var d := Settle(c, p, v, t);
      hide Inv;
      assert forall x :: HoldsItself(c.promises, x) ==> HoldsItself(d.promises, x);
    }
  }

  lemma SettleTidy(s: State, p: nat, v: Value)
    requires Inv(s.core) && Tidy(s.core) && Existing(|s.core.promises|, v)
    ensures Tidy(RejectAt(s, p, v).core)
    ensures Fitting(s.core, p, v) ==> Tidy(FulfillAt(s, p, v).core)
  {
    hide Inv, Tidy, Settle, Existing, Fitting;
    if p < |s.core.promises| {
      SettledTidy(s.core, p, v, PublishRejection(p));
      if Fitting(s.core, p, v) {
        SettledTidy(s.core, p, v, PublishFulfillment(p));
      }
    }
  }

  lemma AllocateTidy(c: Core, origin: Origin)
    requires Inv(c) && Tidy(c)
    ensures Tidy(Allocate(c, origin))
  {
    var d := Allocate(c, origin);
    IssuedIsKnown(c, |c.promises|);
    hide Inv;
    assert forall x :: HoldsItself(c.promises, x) ==> HoldsItself(d.promises, x);
  }

  /** Nothing is issued yet for a promise to come. */
  lemma IssuedIsKnown(c: Core, p: nat)
    requires Inv(c) && p >= |c.promises|
    ensures PublishFulfillment(p) !in c.issued
  {
    assert forall i :: 0 <= i < |c.issued| ==> KnownTask(|c.promises|, c.issued[i]);
  }

  lemma ThenTidy(s: State, p: nat, f: Handler, r: Handler)
    requires Inv(s.core) && Tidy(s.core)
    ensures Tidy(ThenAt(s, p, f, r).core)
  {
    if p < |s.core.promises| {
      IssuedIsKnown(s.core, |s.core.promises|);
      hide Inv;
      ThenData(s.core, p, f, r);
      hide Then;
      SameData(s.core, Then(s.core, p, f, r));
    }
  }

  lemma ThenData(c: Core, p: nat, f: Handler, r: Handler)
    requires p < |c.promises|
    ensures var d := Then(c, p, f, r);
      && |d.promises| == |c.promises| + 1 && d.promises[|c.promises|].data == Undefined
      && (forall q :: 0 <= q < |c.promises| ==> d.promises[q].data == c.promises[q].data && d.promises[q].status == c.promises[q].status)
      && (forall q: nat :: PublishFulfillment(q) in d.issued ==> PublishFulfillment(q) in c.issued)
  {}

  /** Data and status stay, and what is added holds nothing. */
  lemma SameData(c: Core, d: Core)
    requires Tidy(c) && |c.promises| <= |d.promises|
    requires forall q :: |c.promises| <= q < |d.promises| ==> d.promises[q].data == Undefined
    requires forall q :: 0 <= q < |c.promises| ==> d.promises[q].data == c.promises[q].data && (d.promises[q].status == PENDING ==> c.promises[q].status == PENDING)
    requires forall q: nat :: PublishFulfillment(q) in d.issued ==> PublishFulfillment(q) in c.issued
    ensures Tidy(d)
  {
    assert forall x :: HoldsItself(c.promises, x) ==> HoldsItself(d.promises, x);
  }

  lemma HandleThenableTidy(s: State, p: nat, v: Value, how: Foreign)
    requires Inv(s.core) && Tidy(s.core) && ExistingForeign(|s.core.promises|, how)
    ensures Tidy(HandleThenable(s, p, v, how).0.core)
  {
    hide Inv, Tidy, RejectAt, ThenAt;
    var g := |s.guards|;
    SettleTidy(s, p, TypeError);
    if how.GetterThrows? {
      SettleTidy(s, p, how.e);
    }
    if v.PromiseRef? {
      ThenTidy(s.(guards := s.guards + [Guard(p, v, false)]), v.p, Adopt(g), Refuse(g));
    }
  }

  lemma NotHandled(s: State, p: nat, v: Value, how: Foreign)
    requires !HandleThenable(s, p, v, how).1
    ensures HandleThenable(s, p, v, how).0 == s && !(v.PromiseRef? && v.p < |s.core.promises|)
  {}

  lemma ResolveTidy(s: State, p: nat, v: Value, how: Foreign)
    requires Inv(s.core) && Tidy(s.core) && Existing(|s.core.promises|, v) && ExistingForeign(|s.core.promises|, how)
    ensures Tidy(Resolve(s, p, v, how).core)
  {
    hide Inv, Tidy, HandleThenable, FulfillAt;
    SettleTidy(s, p, v);
    HandleThenableTidy(s, p, v, how);
    if !HandleThenable(s, p, v, how).1 {
      NotHandled(s, p, v, how);
    }
  }

  lemma CompleteTidy(s: State, sub: Subscriber, fulfilled: bool, v: Value, how: Foreign, again: Foreign)
    requires Inv(s.core) && Tidy(s.core) && Existing(|s.core.promises|, v)
    requires ExistingForeign(|s.core.promises|, how) && ExistingForeign(|s.core.promises|, again)
    ensures Tidy(Complete(s, sub, fulfilled, v, how, again).core)
  {
    hide Inv, Tidy, HandleThenable, Resolve, RejectAt;
    HandleThenableTidy(s, sub.child, v, how);
    ResolveTidy(s, sub.child, v, again);
    SettleTidy(s, sub.child, v);
    if !HandleThenable(s, sub.child, v, how).1 {
      NotHandled(s, sub.child, v, how);
    }
  }

  lemma AdoptTidy(s: State, g: nat, v: Value, how: Foreign)
    requires Inv(s.core) && Tidy(s.core) && Existing(|s.core.promises|, v) && ExistingForeign(|s.core.promises|, how)
    requires g < |s.guards| && s.guards[g].value == v && v.PromiseRef? ==> HoldsItself(s.core.promises, v.p)
    ensures Tidy(CallAdopt(s, g, v, how).core)
  {
    hide Inv, Tidy, Resolve, FulfillAt;
    if g < |s.guards| {
      var t := s.(guards := s.guards[g := s.guards[g].(resolved := true)]);
      SettleTidy(t, s.guards[g].promise, v);
      ResolveTidy(t, s.guards[g].promise, v, how);
    }
  }

  lemma RefuseTidy(s: State, g: nat, v: Value)
    requires Inv(s.core) && Tidy(s.core) && Existing(|s.core.promises|, v)
    ensures Tidy(CallRefuse(s, g, v).core)
  {
    hide Inv, Tidy, RejectAt;
    if g < |s.guards| {
      SettleTidy(s.(guards := s.guards[g := s.guards[g].(resolved := true)]), s.guards[g].promise, v);
    }
  }

  lemma ItemTidy(s: State, a: nat, i: nat, v: Value)
    requires Inv(s.core) && Tidy(s.core) && Existing(|s.core.promises|, v)
    ensures Tidy(CallItem(s, a, i, v).core) && Tidy(CallFail(s, a, v).core)
  {
    hide Inv, Tidy, Resolve, RejectAt;
    if a < |s.alls| {
      SettleTidy(s, s.alls[a].promise, v);
      if i < |s.alls[a].results| {
        var all := s.alls[a].(results := s.alls[a].results[i := Some(v)], remaining := s.alls[a].remaining - 1);
        ResolveTidy(s.(alls := s.alls[a := all]), all.promise, Results(a), NotCallable);
      }
    }
  }

  lemma FulfilledData(c: Core, p: nat)
    requires Inv(c) && Tidy(c) && p < |c.promises|
    ensures Existing(|c.promises|, c.promises[p].data)
    ensures c.promises[p].status == FULFILLED && c.promises[p].data.PromiseRef? ==> HoldsItself(c.promises, c.promises[p].data.p)
  {
    PublishedAsIssued(c, p);
    hide Inv;
  }

  lemma InvokeTidy(s: State, sub: Subscriber, how: Foreign, again: Foreign)
    requires Inv(s.core) && Tidy(s.core) && !sub.rejected.Adopt?
    requires ExistingForeign(|s.core.promises|, how) && ExistingForeign(|s.core.promises|, again)
    ensures Tidy(InvokeCallback(s, sub, how, again).core)
  {
    hide Inv, Tidy, Complete, CallAdopt, CallRefuse, CallItem, CallFail;
    if sub.owner < |s.core.promises| {
      var owner, running := s.core.promises[sub.owner], s.(invoking := Some(Invocation(sub, true)));
      FulfilledData(s.core, sub.owner);
      match if owner.status == FULFILLED then sub.fulfilled else sub.rejected
      case Absent => CompleteTidy(s, sub, owner.status == FULFILLED, owner.data, how, again);
      case User(_) =>
      case Adopt(g) => AdoptTidy(running, g, owner.data, how);
      case Refuse(g) => RefuseTidy(running, g, owner.data);
      case Item(a, i) => ItemTidy(running, a, i, owner.data);
      case Fail(a) => ItemTidy(running, a, 0, owner.data);
    }
  }

  lemma {:induction false} GatherTidy(s: State, a: nat, i: nat)
    requires Inv(s.core) && Tidy(s.core) && a < |s.alls| && i <= |s.alls[a].entries| == |s.alls[a].results|
    ensures Tidy(GatherFrom(s, a, i).core)
    decreases |s.alls[a].entries| - i
  {
    hide Inv, Tidy, Extends, GatherFrom, Resolve, ThenAt;
    var all := s.alls[a];
    GatherUnfold(s, a, i);
    if i == |all.entries| {
      ResolveTidy(s, all.promise, Results(a), NotCallable);
    } else {
      match all.entries[i]
      case Given(v) => GatherTidy(s.(alls := s.alls[a := all.(results := all.results[i := Some(v)])]), a, i + 1);
      case Awaited(p) =>
        var t := s.(alls := s.alls[a := all.(remaining := all.remaining + 1)]);
        ThenGood(t, p, Item(a, i), Fail(a));
        ThenTidy(t, p, Item(a, i), Fail(a));
        ThenKeepsRest(t, p, Item(a, i), Fail(a));
        GatherTidy(ThenAt(t, p, Item(a, i), Fail(a)), a, i + 1);
    }
  }

  lemma StartGatheringTidy(s: State, entries: seq<Entry>)
    requires Inv(s.core) && Tidy(s.core)
    ensures Tidy(StartGathering(s, entries).core)
  {
    hide Inv, Tidy, Extends, GatherFrom, Allocate;
    var all := Gathering(entries, seq(|entries|, _ => None), 0, |s.core.promises|);
    AllocateGood(s.core, Collected);
    AllocateTidy(s.core, Collected);
    GatherTidy(s.(core := Allocate(s.core, Collected), alls := s.alls + [all]), |s.alls|, 0);
  }

  // ----- steps and runs -----

  /** The turns of the flush that start no callback. */
  lemma QuietTurnTidy(s: State, how: Foreign, again: Foreign)
    requires Inv(s.core) && Tidy(s.core) && s.calls == [] && s.invoking == None
    requires s.core.flushing ==> NextCallback(s.core) == None
    ensures Tidy(EngineTurn(s, how, again).core)
  {
    var c, d := s.core, EngineTurn(s, how, again).core;
    hide Inv, Tidy, InvokeCallback, Complete;
    assert |d.promises| == |c.promises| && d.issued == c.issued;
    assert forall q :: 0 <= q < |c.promises| ==> d.promises[q].data == c.promises[q].data && (d.promises[q].status == PENDING ==> c.promises[q].status == PENDING);
    hide EngineTurn;
    SameData(c, d);
  }

  lemma TurnTidy(s: State, how: Foreign, again: Foreign)
    requires Whole(s) && AdoptsSound(s) && Tidy(s.core)
    requires ExistingForeign(|s.core.promises|, how) && ExistingForeign(|s.core.promises|, again)
    ensures Tidy(EngineTurn(s, how, again).core)
  {
    assert Inv(s.core);
    hide Inv, Whole, Tidy, InvokeCallback, Complete, Extends, AdoptsSound;
    if s.calls == [] && s.invoking.Some? {
      CompleteTidy(s.(invoking := None), s.invoking.value.sub, true, Undefined, how, again);
    } else if s.calls == [] && s.core.flushing && NextCallback(s.core).Some? {
      TurnOfCallback(s, how, again);
      NextIsPicked(s);
      hide EngineTurn;
      var (d, sub) := NextCallback(s.core).value;
      NotCrossed(s, sub);
      PickedTidy(s, s.(core := d), sub);
      InvokeTidy(s.(core := d), sub, how, again);
    } else if s.calls == [] {
      QuietTurnTidy(s, how, again);
    }
  }

  lemma PickedTidy(s: State, s1: State, sub: Subscriber)
    requires Picked(s, s1, sub) && Tidy(s.core)
    ensures Tidy(s1.core) && Inv(s1.core)
  {
    hide Inv, Extends;
  }

  lemma ThrowTidy(s: State, sub: Subscriber, x: Value, how: Foreign, again: Foreign)
    requires Inv(s.core) && Tidy(s.core) && sub.owner < |s.core.promises| && Names(|s.core.promises|, Throw(x, how, again))
    ensures Tidy(Complete(RejectAt(s, sub.child, x), sub, true, s.core.promises[sub.owner].data, how, again).core)
  {
    FulfilledData(s.core, sub.owner);
    hide Inv, Tidy, Complete, Extends;
    SettleGood(s, sub.child, x);
    SettleTidy(s, sub.child, x);
    CompleteTidy(RejectAt(s, sub.child, x), sub, true, s.core.promises[sub.owner].data, how, again);
  }

  lemma StepTidy(s: State, e: Event)
    requires Whole(s) && AdoptsSound(s) && Tidy(s.core) && Names(|s.core.promises|, e)
    ensures Tidy(Step(s, e).core)
  {
    assert Inv(s.core);
    hide Inv, Tidy, Whole, AdoptsSound, Resolve, RejectAt, ThenAt, Allocate, StartGathering, CallAdopt, CallRefuse, Complete, EngineTurn;
    match e
    case Create => AllocateTidy(s.core, Open);
    case Subscribe(p, f, r) => ThenTidy(s, p, f, r);
    case DoResolve(p, v, how) => ResolveTidy(s, p, v, how);
    case DoReject(p, v) => SettleTidy(s, p, v);
    case Gather(entries) => StartGatheringTidy(s, entries);
    case CallResolve(g, v, how) =>
      if g < |s.guards| && s.guards[g].value.Thenable? {
        AdoptTidy(s, g, v, how);
      }
    case CallReject(g, v) => RefuseTidy(s, g, v);
    case ThenReturns =>
    case ThenThrows(x) =>
      if s.calls != [] && s.calls[|s.calls| - 1] < |s.guards| {
        SettleTidy(s.(calls := s.calls[..|s.calls| - 1]), s.guards[s.calls[|s.calls| - 1]].promise, x);
      }
    case Return(v, how, again) =>
      if s.invoking.Some? {
        CompleteTidy(s.(invoking := None), s.invoking.value.sub, true, v, how, again);
      }
    case Throw(x, how, again) =>
      if s.invoking.Some? && s.invoking.value.sub.owner < |s.core.promises| {
        ThrowTidy(s.(invoking := None), s.invoking.value.sub, x, how, again);
      }
    case Tick(how, again) => TurnTidy(s, how, again);
  }

  /** What every state of a run in which only existing promises are named satisfies. */
  ghost predicate Consistent(s: State) {
    Whole(s) && AdoptsSound(s) && Tidy(s.core)
  }

  lemma {:induction false} RunTidy(s: State, es: seq<Event>)
    requires Consistent(s) && AllNamed(s, es)
    ensures Consistent(Run(s, es))
  {
    hide Whole, AdoptsSound, Tidy, Step;
    if es != [] {
      var t := Run(s, es[..|es| - 1]);
      RunTidy(s, es[..|es| - 1]);
      StepWhole(t, es[|es| - 1]);
      StepSteady(t, es[|es| - 1]);
      StepTidy(t, es[|es| - 1]);
    }
  }

  lemma ProperIsConsistent(s: State)
    requires Proper(s)
    ensures Consistent(s) && Reachable(s)
  {
    var es :| AllNamed(Start, es) && s == Run(Start, es);
    StartTakesOver();
    assert Tidy(Start.core);
    hide Whole, AdoptsSound, Tidy;
    RunTidy(Start, es);
  }

  /**
   * In every run in which user code names only promises that exist: a promise is fulfilled with a
   * promise only if that one was settled with itself. Any other promise is adopted, never a value.
   */
  lemma FulfilledWithAPromise(s: State, p: nat, q: nat)
    requires Proper(s) && p < |s.core.promises|
    requires PublishFulfillment(p) in s.core.issued && s.core.promises[p].data == PromiseRef(q)
    ensures HoldsItself(s.core.promises, q)
  {
    ProperIsConsistent(s);
    hide Whole, AdoptsSound;
  }
}
