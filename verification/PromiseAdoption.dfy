/** A promise that adopts another promise of the engine never waits for it in vain. */
module PromiseAdoption {
  import opened Options
  import opened Promises
  import opened PromiseMachine
  import opened PromiseSafety
  import opened PromiseOutcomes

  // ----- the subscribers that handleThenable makes -----

  predicate NoAdopter(sub: Subscriber) {
    !sub.fulfilled.Adopt? && !sub.fulfilled.Refuse? && !sub.rejected.Adopt? && !sub.rejected.Refuse?
  }

  /** The closures of one guard, subscribed to its value; until they start the guard is open. */
  predicate Adopter(sub: Subscriber, started: seq<Subscriber>, guards: seq<Guard>) {
    && sub.fulfilled.Adopt? && sub.rejected == Refuse(sub.fulfilled.guard) && sub.fulfilled.guard < |guards|
    && guards[sub.fulfilled.guard].value == PromiseRef(sub.owner)
    && (sub !in started ==> !guards[sub.fulfilled.guard].resolved)
  }

  ghost predicate Adoption(subs: seq<Subscriber>, started: seq<Subscriber>, guards: seq<Guard>) {
    && (forall j :: 0 <= j < |subs| ==> NoAdopter(subs[j]) || Adopter(subs[j], started, guards))
    && (forall j, k :: 0 <= j < k < |subs| && subs[j].fulfilled.Adopt? ==> subs[j].fulfilled != subs[k].fulfilled)
  }

  lemma PlainAdded(subs: seq<Subscriber>, started: seq<Subscriber>, guards: seq<Guard>, sub: Subscriber)
    requires Adoption(subs, started, guards) && NoAdopter(sub)
    ensures Adoption(subs + [sub], started, guards)
  {}

  lemma GuardAdded(subs: seq<Subscriber>, started: seq<Subscriber>, guards: seq<Guard>, guard: Guard)
    requires Adoption(subs, started, guards)
    ensures Adoption(subs, started, guards + [guard])
  {
    assert forall j :: 0 <= j < |subs| && Adopter(subs[j], started, guards) ==> Adopter(subs[j], started, guards + [guard]);
  }

  lemma AdopterAdded(subs: seq<Subscriber>, started: seq<Subscriber>, guards: seq<Guard>, guard: Guard, sub: Subscriber)
    requires Adoption(subs, started, guards) && guard.value == PromiseRef(sub.owner) && !guard.resolved
    requires sub.fulfilled == Adopt(|guards|) && sub.rejected == Refuse(|guards|)
    ensures Adoption(subs + [sub], started, guards + [guard])
  {
    GuardAdded(subs, started, guards, guard);
    forall j | 0 <= j < |subs|
      ensures subs[j].fulfilled != sub.fulfilled
    {
      assert NoAdopter(subs[j]) || Adopter(subs[j], started, guards);
    }
    assert Adopter(sub, started, guards + [guard]);
  }

  lemma GuardMarked(subs: seq<Subscriber>, started: seq<Subscriber>, guards: seq<Guard>, g: nat)
    requires Adoption(subs, started, guards) && g < |guards|
    requires forall j :: 0 <= j < |subs| && subs[j].fulfilled == Adopt(g) ==> subs[j] in started
    ensures Adoption(subs, started, guards[g := guards[g].(resolved := true)])
  {
    forall j | 0 <= j < |subs| && Adopter(subs[j], started, guards)
      ensures Adopter(subs[j], started, guards[g := guards[g].(resolved := true)])
    {}
  }

  lemma OneStarted(subs: seq<Subscriber>, started: seq<Subscriber>, guards: seq<Guard>, sub: Subscriber)
    requires Adoption(subs, started, guards)
    ensures Adoption(subs, started + [sub], guards)
  {
    forall j | 0 <= j < |subs| && Adopter(subs[j], started, guards)
      ensures Adopter(subs[j], started + [sub], guards)
    {}
  }

  // ----- every function of the engine -----

  ghost predicate AdoptsSound(s: State) {
    Adoption(s.core.registered, s.core.started, s.guards)
  }

  ghost predicate GuardsGrow(gs: seq<Guard>, hs: seq<Guard>) {
    |gs| <= |hs| && forall g :: 0 <= g < |gs| ==> hs[g].promise == gs[g].promise
  }

  ghost predicate Steady(s: State, t: State) {
    AdoptsSound(t) && GuardsGrow(s.guards, t.guards)
  }

  lemma SteadyTrans(s: State, t: State, u: State)
    requires Steady(s, t) && Steady(t, u)
    ensures Steady(s, u)
  {
    hide AdoptsSound;
    forall g | 0 <= g < |s.guards|
      ensures u.guards[g].promise == s.guards[g].promise
    {
      assert t.guards[g].promise == s.guards[g].promise;
    }
  }

  /** Nothing changes for adoptions. */
  lemma SameAdoptions(s: State, t: State)
    requires AdoptsSound(s) && t.guards == s.guards
    requires t.core.registered == s.core.registered && t.core.started == s.core.started
    ensures Steady(s, t)
  {}

  lemma SettleSteady(s: State, p: nat, v: Value)
    requires AdoptsSound(s)
    ensures Steady(s, FulfillAt(s, p, v)) && Steady(s, RejectAt(s, p, v))
  {
    SameAdoptions(s, FulfillAt(s, p, v));
    SameAdoptions(s, RejectAt(s, p, v));
  }

  lemma ThenRegisters(s: State, p: nat, f: Handler, r: Handler)
    requires p < |s.core.promises|
    ensures var t := ThenAt(s, p, f, r);
      && t.core.registered == s.core.registered + [Subscriber(p, |s.core.promises|, f, r)]
      && t.core.started == s.core.started && t.guards == s.guards
  {}

  lemma ThenSteady(s: State, p: nat, f: Handler, r: Handler)
    requires AdoptsSound(s) && NoAdopter(Subscriber(p, 0, f, r))
    ensures Steady(s, ThenAt(s, p, f, r))
  {
    hide Adoption;
    if p < |s.core.promises| {
      ThenRegisters(s, p, f, r);
      PlainAdded(s.core.registered, s.core.started, s.guards, Subscriber(p, |s.core.promises|, f, r));
    }
    hide Then;
  }

  lemma HandleThenableSteady(s: State, p: nat, v: Value, how: Foreign)
    requires AdoptsSound(s)
    ensures Steady(s, HandleThenable(s, p, v, how).0)
  {
    hide Adoption, RejectAt, ThenAt;
    var g, guard := |s.guards|, Guard(p, v, false);
    var guarded := s.(guards := s.guards + [guard]);
    SettleSteady(s, p, TypeError);
    if v.Thenable? && how.GetterThrows? {
      SettleSteady(s, p, how.e);
    }
    GuardAdded(s.core.registered, s.core.started, s.guards, guard);
    if v.PromiseRef? && v.p < |s.core.promises| {
      ThenRegisters(guarded, v.p, Adopt(g), Refuse(g));
      AdopterAdded(s.core.registered, s.core.started, s.guards, guard, Subscriber(v.p, |s.core.promises|, Adopt(g), Refuse(g)));
    }
  }

  lemma ResolveSteady(s: State, p: nat, v: Value, how: Foreign)
    requires AdoptsSound(s)
    ensures Steady(s, Resolve(s, p, v, how))
  {
    hide Adoption, HandleThenable, FulfillAt, AdoptsSound;
    SettleSteady(s, p, v);
    var t := HandleThenable(s, p, v, how).0;
    HandleThenableSteady(s, p, v, how);
    SettleSteady(t, p, v);
    SteadyTrans(s, t, FulfillAt(t, p, v));
    hide Steady;
  }

  lemma ClosuresSteady(s: State, g: nat, v: Value, how: Foreign)
    requires AdoptsSound(s)
    requires forall j :: 0 <= j < |s.core.registered| && s.core.registered[j].fulfilled == Adopt(g) ==> s.core.registered[j] in s.core.started
    ensures Steady(s, CallAdopt(s, g, v, how)) && Steady(s, CallRefuse(s, g, v))
  {
    SameAdoptions(s, s);
    if g < |s.guards| && !s.guards[g].resolved {
      var t := s.(guards := s.guards[g := s.guards[g].(resolved := true)]);
      var p := s.guards[g].promise;
      GuardMarked(s.core.registered, s.core.started, s.guards, g);
      assert Steady(s, t);
      hide Adoption, Resolve, FulfillAt, RejectAt, AdoptsSound;
      SettleSteady(t, p, v);
      ResolveSteady(t, p, v, how);
      SteadyTrans(s, t, FulfillAt(t, p, v));
      SteadyTrans(s, t, RejectAt(t, p, v));
      SteadyTrans(s, t, Resolve(t, p, v, how));
      hide Steady;
    }
  }

  lemma CompleteSteady(s: State, sub: Subscriber, fulfilled: bool, v: Value, how: Foreign, again: Foreign)
    requires AdoptsSound(s)
    ensures Steady(s, Complete(s, sub, fulfilled, v, how, again))
  {
    hide Adoption, HandleThenable, Resolve, RejectAt, AdoptsSound;
    var t := HandleThenable(s, sub.child, v, how).0;
    HandleThenableSteady(s, sub.child, v, how);
    ResolveSteady(t, sub.child, v, again);
    SettleSteady(t, sub.child, v);
    SteadyTrans(s, t, Resolve(t, sub.child, v, again));
    SteadyTrans(s, t, RejectAt(t, sub.child, v));
    hide Steady;
  }

  lemma ItemSteady(s: State, a: nat, i: nat, v: Value)
    requires AdoptsSound(s)
    ensures Steady(s, CallItem(s, a, i, v)) && Steady(s, CallFail(s, a, v))
  {
    hide Adoption, Resolve, RejectAt;
    SameAdoptions(s, s);
    if a < |s.alls| {
      SettleSteady(s, s.alls[a].promise, v);
      if i < |s.alls[a].results| {
        var t := s.(alls := s.alls[a := s.alls[a].(results := s.alls[a].results[i := Some(v)], remaining := s.alls[a].remaining - 1)]);
        SameAdoptions(s, t);
        ResolveSteady(t, s.alls[a].promise, Results(a), NotCallable);
        SteadyTrans(s, t, Resolve(t, s.alls[a].promise, Results(a), NotCallable));
      }
    }
    hide AdoptsSound, Steady;
  }

  lemma {:induction false} GatherSteady(s: State, a: nat, i: nat)
    requires AdoptsSound(s) && a < |s.alls| && i <= |s.alls[a].entries| == |s.alls[a].results|
    ensures Steady(s, GatherFrom(s, a, i))
    decreases |s.alls[a].entries| - i
  {
    hide Adoption, GatherFrom, Resolve, ThenAt;
    var all := s.alls[a];
    SameAdoptions(s, s);
    GatherUnfold(s, a, i);
    if i == |all.entries| {
      ResolveSteady(s, all.promise, Results(a), NotCallable);
    } else {
      match all.entries[i]
      case Given(v) =>
        var t := s.(alls := s.alls[a := all.(results := all.results[i := Some(v)])]);
        SameAdoptions(s, t);
        GatherSteady(t, a, i + 1);
        SteadyTrans(s, t, GatherFrom(t, a, i + 1));
      case Awaited(p) =>
        var t := s.(alls := s.alls[a := all.(remaining := all.remaining + 1)]);
        var u := ThenAt(t, p, Item(a, i), Fail(a));
        SameAdoptions(s, t);
        ThenSteady(t, p, Item(a, i), Fail(a));
        ThenKeepsRest(t, p, Item(a, i), Fail(a));
        GatherSteady(u, a, i + 1);
        SteadyTrans(s, t, u);
        SteadyTrans(s, u, GatherFrom(u, a, i + 1));
    }
    hide AdoptsSound, Steady;
  }

  /** A subscriber's closure is called by that subscriber alone. */
  lemma OnlyOwnClosure(s: State, sub: Subscriber, g: nat)
    requires AdoptsSound(s) && sub in s.core.registered && sub in s.core.started
    requires sub.fulfilled == Adopt(g) || sub.rejected == Refuse(g)
    ensures forall j :: 0 <= j < |s.core.registered| && s.core.registered[j].fulfilled == Adopt(g) ==> s.core.registered[j] in s.core.started
  {
    var subs := s.core.registered;
    var k :| 0 <= k < |subs| && subs[k] == sub;
    assert Adopter(subs[k], s.core.started, s.guards);
    forall j | 0 <= j < |subs| && subs[j].fulfilled == Adopt(g)
      ensures j == k
    {}
  }

  lemma NotCrossed(s: State, sub: Subscriber)
    requires AdoptsSound(s) && sub in s.core.registered
    ensures NoAdopter(sub) || Adopter(sub, s.core.started, s.guards)
  {}

  lemma InvokeSteady(s: State, sub: Subscriber, how: Foreign, again: Foreign)
    requires AdoptsSound(s) && sub in s.core.registered && sub in s.core.started
    ensures Steady(s, InvokeCallback(s, sub, how, again))
  {
    hide Adoption, Complete, CallAdopt, CallRefuse, CallItem, CallFail;
    SameAdoptions(s, s);
    if sub.owner < |s.core.promises| {
      var owner := s.core.promises[sub.owner];
      var running := s.(invoking := Some(Invocation(sub, true)));
      SameAdoptions(s, running);
      SameAdoptions(s, s.(invoking := Some(Invocation(sub, false))));
      CompleteSteady(s, sub, owner.status == FULFILLED, owner.data, how, again);
      NotCrossed(s, sub);
      match if owner.status == FULFILLED then sub.fulfilled else sub.rejected
      case Adopt(g) =>
        OnlyOwnClosure(running, sub, g);
        ClosuresSteady(running, g, owner.data, how);
      case Refuse(g) =>
        OnlyOwnClosure(running, sub, g);
        ClosuresSteady(running, g, owner.data, how);
      case Item(a, i) => ItemSteady(running, a, i, owner.data);
      case Fail(a) => ItemSteady(running, a, 0, owner.data);
      case _ =>
    }
    hide AdoptsSound;
  }

  lemma QuietTurn(s: State, how: Foreign, again: Foreign)
    requires s.calls == [] && s.invoking == None && (s.core.flushing ==> NextCallback(s.core) == None)
    ensures var t := EngineTurn(s, how, again);
      t.guards == s.guards && t.core.registered == s.core.registered && t.core.started == s.core.started
  {
    hide InvokeCallback, Complete;
  }

  lemma TurnSteady(s: State, how: Foreign, again: Foreign)
    requires Whole(s) && AdoptsSound(s)
    ensures Steady(s, EngineTurn(s, how, again))
  {
    hide Whole, Adoption, InvokeCallback, Complete;
    SameAdoptions(s, s);
    if s.calls == [] && s.invoking.Some? {
      SameAdoptions(s, s.(invoking := None));
      CompleteSteady(s.(invoking := None), s.invoking.value.sub, true, Undefined, how, again);
    } else if s.calls == [] && s.core.flushing && NextCallback(s.core).Some? {
      TurnOfCallback(s, how, again);
      NextIsPicked(s);
      hide EngineTurn;
      var (d, sub) := NextCallback(s.core).value;
      var s1 := s.(core := d);
      OneStarted(s.core.registered, s.core.started, s.guards, sub);
      InvokeSteady(s1, sub, how, again);
    } else if s.calls == [] {
      QuietTurn(s, how, again);
      SameAdoptions(s, EngineTurn(s, how, again));
      hide EngineTurn;
    }
    hide AdoptsSound;
  }

  /** User code gets hold of the closures of foreign thenables only, never of an adopter's guard. */
  lemma ForeignClosure(s: State, g: nat)
    requires AdoptsSound(s) && g < |s.guards| && s.guards[g].value.Thenable?
    ensures forall j :: 0 <= j < |s.core.registered| ==> s.core.registered[j].fulfilled != Adopt(g)
  {
    forall j | 0 <= j < |s.core.registered|
      ensures s.core.registered[j].fulfilled != Adopt(g)
    {
      assert NoAdopter(s.core.registered[j]) || Adopter(s.core.registered[j], s.core.started, s.guards);
    }
  }

  lemma UserStepSteady(s: State, e: Event)
    requires AdoptsSound(s) && !e.Tick? && !e.Return? && !e.Throw?
    ensures Steady(s, Step(s, e))
  {
    hide Adoption, Resolve, RejectAt, ThenAt, CallAdopt, CallRefuse, GatherFrom;
    SameAdoptions(s, s);
    match e
    case Create => SameAdoptions(s, s.(core := Allocate(s.core, Open)));
    case Subscribe(p, f, r) =>
      if FromUser(f) && FromUser(r) {
        ThenSteady(s, p, f, r);
      }
    case DoResolve(p, v, how) => ResolveSteady(s, p, v, how);
    case DoReject(p, v) => SettleSteady(s, p, v);
    case Gather(entries) =>
      var all := Gathering(entries, seq(|entries|, _ => None), 0, |s.core.promises|);
      var t := s.(core := Allocate(s.core, Collected), alls := s.alls + [all]);
      SameAdoptions(s, t);
      GatherSteady(t, |s.alls|, 0);
      SteadyTrans(s, t, GatherFrom(t, |s.alls|, 0));
    case CallResolve(g, v, how) =>
      if g < |s.guards| && s.guards[g].value.Thenable? {
        ForeignClosure(s, g);
        ClosuresSteady(s, g, v, how);
      }
    case CallReject(g, v) =>
      if g < |s.guards| && s.guards[g].value.Thenable? {
        ForeignClosure(s, g);
        ClosuresSteady(s, g, v, NotCallable);
      }
    case ThenReturns => SameAdoptions(s, Step(s, e));
    case ThenThrows(x) =>
      if s.calls != [] {
        var g, t := s.calls[|s.calls| - 1], s.(calls := s.calls[..|s.calls| - 1]);
        SameAdoptions(s, t);
        if g < |s.guards| {
          SettleSteady(t, s.guards[g].promise, x);
          SteadyTrans(s, t, RejectAt(t, s.guards[g].promise, x));
        }
      }
    hide AdoptsSound, Steady;
  }

  lemma StepSteady(s: State, e: Event)
    requires Whole(s) && AdoptsSound(s)
    ensures Steady(s, Step(s, e))
  {
    hide Whole, Adoption, Complete, RejectAt, EngineTurn;
    SameAdoptions(s, s);
    match e
    case Return(v, how, again) =>
      if s.invoking.Some? {
        SameAdoptions(s, s.(invoking := None));
        CompleteSteady(s.(invoking := None), s.invoking.value.sub, true, v, how, again);
      }
    case Throw(x, how, again) =>
      if s.invoking.Some? && s.invoking.value.sub.owner < |s.core.promises| {
        var sub, t := s.invoking.value.sub, s.(invoking := None);
        var u := RejectAt(t, sub.child, x);
        SameAdoptions(s, t);
        SettleSteady(t, sub.child, x);
        SteadyTrans(s, t, u);
        CompleteSteady(u, sub, true, s.core.promises[sub.owner].data, how, again);
        SteadyTrans(s, u, Complete(u, sub, true, s.core.promises[sub.owner].data, how, again));
      }
    case Tick(how, again) => TurnSteady(s, how, again);
    case _ => UserStepSteady(s, e);
    hide AdoptsSound;
  }

  // ----- adopted outcomes -----

  /** The guard through which a subscriber takes its owner's outcome over, if it does: a value that is itself a thenable is adopted in turn. */
  function TakesOver(c: Core, sub: Subscriber): Option<nat> {
    if sub.owner >= |c.promises| then None
    else
      var owner := c.promises[sub.owner];
      if owner.status == FULFILLED && sub.fulfilled.Adopt? && NotThenable(c, owner.data) then Some(sub.fulfilled.guard)
      else if owner.status == REJECTED && sub.rejected.Refuse? then Some(sub.rejected.guard)
      else None
  }

  predicate TakenOver(s: State, sub: Subscriber) {
    match TakesOver(s.core, sub)
    case None => true
    case Some(g) =>
      g < |s.guards| && s.guards[g].promise < |s.core.promises| && s.core.promises[s.guards[g].promise].status != PENDING
  }

  ghost predicate AllTakenOver(s: State) {
    forall i :: 0 <= i < |s.core.started| ==> TakenOver(s, s.core.started[i])
  }

  lemma TakesOverBefore(c: Core, d: Core, sub: Subscriber)
    requires Good(c, d) && sub.owner < |c.promises| && IsPublished(c.promises[sub.owner]) && TakesOver(d, sub).Some?
    ensures TakesOver(c, sub) == TakesOver(d, sub)
  {
    hide Inv;
    assert Later(c.promises[sub.owner], d.promises[sub.owner]);
  }

  lemma TakenOverStays(s: State, t: State, sub: Subscriber)
    requires Inv(s.core) && Good(s.core, t.core) && GuardsGrow(s.guards, t.guards)
    requires sub in s.core.started && TakenOver(s, sub)
    ensures TakenOver(t, sub)
  {
    StartedIsPublished(s.core, sub);
    if TakesOver(t.core, sub).Some? {
      TakesOverBefore(s.core, t.core, sub);
      var p := s.guards[TakesOver(t.core, sub).value].promise;
      hide Inv;
      assert Later(s.core.promises[p], t.core.promises[p]);
    }
  }

  /** The closure of a guard that is still open gives a pending promise the owner's outcome. */
  lemma ClosureTakesOver(s: State, sub: Subscriber, how: Foreign, again: Foreign)
    requires TakesOver(s.core, sub).Some?
    requires var g := TakesOver(s.core, sub).value;
      && g < |s.guards| && !s.guards[g].resolved && s.guards[g].promise < |s.core.promises|
      && s.guards[g].value == PromiseRef(sub.owner)
    ensures var g, owner, c := TakesOver(s.core, sub).value, s.core.promises[sub.owner], InvokeCallback(s, sub, how, again).core;
      var p := s.guards[g].promise;
      && p < |c.promises| && c.promises[p].status != PENDING
      && (s.core.promises[p].status == PENDING ==>
            && c.promises[p].data == owner.data
            && (if owner.status == FULFILLED then PublishFulfillment(p) else PublishRejection(p)) in c.issued)
  {
    var g, owner := TakesOver(s.core, sub).value, s.core.promises[sub.owner];
    var p := s.guards[g].promise;
    var running := s.(invoking := Some(Invocation(sub, true)));
    var t := running.(guards := s.guards[g := s.guards[g].(resolved := true)]);
    if owner.status == FULFILLED {
      assert InvokeCallback(s, sub, how, again) == CallAdopt(running, g, owner.data, how);
      assert NotThenable(s.core, owner.data);
      PlainResolution(t, p, owner.data, how);
      assert CallAdopt(running, g, owner.data, how) == FulfillAt(t, p, owner.data);
    } else {
      assert InvokeCallback(s, sub, how, again) == RejectAt(t, p, owner.data);
    }
  }

  lemma PlainResolution(s: State, p: nat, v: Value, how: Foreign)
    requires p < |s.core.promises| && NotThenable(s.core, v)
    ensures Resolve(s, p, v, how) == FulfillAt(s, p, v)
  {
    assert HandleThenable(s, p, v, how) == (s, false);
  }

  lemma PickedTakesOver(s: State, s1: State, sub: Subscriber, how: Foreign, again: Foreign)
    requires Whole(s) && AdoptsSound(s) && Picked(s, s1, sub)
    ensures TakenOver(InvokeCallback(s1, sub, how, again), sub)
    ensures var g := TakesOver(s1.core, sub);
      g.Some? ==>
        && g.value < |s.guards| && s.guards[g.value].value == PromiseRef(sub.owner) && !s.guards[g.value].resolved
        && s.guards[g.value].promise < |s1.core.promises|
  {
    var r := InvokeCallback(s1, sub, how, again);
    PickedSubs(s, s1, sub);
    InvokeCallbackGood(s1, sub, how, again);
    NotCrossed(s, sub);
    InvokeGuards(s1, sub, how, again, s);
    hide Inv, InvokeCallback, AdoptsSound;
    var g := TakesOver(s1.core, sub);
    if g.Some? {
      assert Adopter(sub, s.core.started, s.guards) && g.value == sub.fulfilled.guard;
      assert Unlocked(s1.core, s1.guards[g.value].promise);
      ClosureTakesOver(s1, sub, how, again);
    }
    if TakesOver(r.core, sub).Some? {
      TakesOverBefore(s1.core, r.core, sub);
    }
  }

  lemma InvokeGuards(s1: State, sub: Subscriber, how: Foreign, again: Foreign, s: State)
    requires Whole(s) && AdoptsSound(s) && Picked(s, s1, sub)
    ensures GuardsGrow(s.guards, InvokeCallback(s1, sub, how, again).guards)
  {
    OneStarted(s.core.registered, s.core.started, s.guards, sub);
    assert s1.core.started[|s.core.started|] == sub;
    InvokeSteady(s1, sub, how, again);
  }

  lemma StepTakesOver(s: State, e: Event)
    requires Whole(s) && AdoptsSound(s) && AllTakenOver(s)
    ensures AllTakenOver(Step(s, e))
  {
    var t := Step(s, e);
    StepGood(s, e);
    StepSteady(s, e);
    hide Step, AdoptsSound;
    forall i | 0 <= i < |s.core.started|
      ensures t.core.started[i] == s.core.started[i] && TakenOver(t, t.core.started[i])
    {
      TakenOverStays(s, t, s.core.started[i]);
    }
    if t.core.started != s.core.started {
      CallbacksStartInFlush(s, e);
      TickIsTurn(s, e);
      TurnOfCallback(s, e.how, e.again);
      NextIsPicked(s);
      var (picked, sub) := NextCallback(s.core).value;
      PickedTakesOver(s, s.(core := picked), sub, e.how, e.again);
      InvokeQuiet(s.(core := picked), sub, e.how, e.again);
    }
    hide Inv, Whole, TakenOver, EngineTurn, InvokeCallback;
  }

  lemma TickIsTurn(s: State, e: Event)
    requires e.Tick?
    ensures Step(s, e) == EngineTurn(s, e.how, e.again)
  {
    hide EngineTurn;
  }

  lemma {:induction false} RunTakesOver(es: seq<Event>)
    ensures var s := Run(Start, es); Whole(s) && AdoptsSound(s) && AllTakenOver(s)
  {
    hide Whole, AdoptsSound, AllTakenOver, Step;
    if es == [] {
      StartTakesOver();
    } else {
      var s := Run(Start, es[..|es| - 1]);
      RunTakesOver(es[..|es| - 1]);
      StepWhole(s, es[|es| - 1]);
      StepSteady(s, es[|es| - 1]);
      StepTakesOver(s, es[|es| - 1]);
    }
  }

  lemma StartTakesOver()
    ensures Whole(Start) && AdoptsSound(Start) && AllTakenOver(Start)
  {
    assert Run(Start, []) == Start && Reachable(Start);
    ReachableIsWhole(Start);
  }

  /**
   * A promise that adopted another one is not left waiting: in every run, once the queue has drained,
   * it is settled as soon as the adopted one is, unless the value is a thenable to be adopted in turn.
   */
  lemma AdoptionNeverStalls(s: State, sub: Subscriber)
    requires Reachable(s) && Drained(s.core) && sub in s.core.registered && TakesOver(s.core, sub).Some?
    ensures var g := TakesOver(s.core, sub).value;
      && g < |s.guards| && s.guards[g].value == PromiseRef(sub.owner)
      && s.guards[g].promise < |s.core.promises| && IsPublished(s.core.promises[s.guards[g].promise])
  {
    var es :| s == Run(Start, es);
    RunTakesOver(es);
    NotCrossed(s, sub);
    StartedIffPublished(s.core, sub);
    var i :| 0 <= i < |s.core.started| && s.core.started[i] == sub;
    assert TakenOver(s, s.core.started[i]);
    DrainedIsNotSettled(s.core, s.guards[TakesOver(s.core, sub).value].promise);
    hide Inv, AdoptsSound;
  }

  /** The turn that calls an adopter's closure gives the adopting promise, if still pending, the outcome of the adopted one. */
  lemma AdoptionTakesOutcome(s: State, how: Foreign, again: Foreign)
    requires Reachable(s) && s.core.flushing && s.calls == [] && s.invoking == None && NextCallback(s.core).Some?
    requires var (d, sub) := NextCallback(s.core).value; TakesOver(d, sub).Some?
    ensures var (d, sub) := NextCallback(s.core).value;
      var g, c := TakesOver(d, sub).value, Step(s, Tick(how, again)).core;
      && sub.owner < |d.promises| && g < |s.guards| && s.guards[g].promise < |d.promises| <= |c.promises|
      && var owner, p := d.promises[sub.owner], s.guards[g].promise;
         d.promises[p].status == PENDING ==>
           && c.promises[p].data == owner.data
           && (if owner.status == FULFILLED then PublishFulfillment(p) else PublishRejection(p)) in c.issued
  {
    var es :| s == Run(Start, es);
    RunTakesOver(es);
    TickIsTurn(s, Tick(how, again));
    TurnOfCallback(s, how, again);
    NextIsPicked(s);
    var (d, sub) := NextCallback(s.core).value;
    var s1 := s.(core := d);
    PickedTakesOver(s, s1, sub, how, again);
    InvokeCallbackGood(s1, sub, how, again);
    hide Inv, Whole, AdoptsSound, InvokeCallback, EngineTurn, Step, NextCallback;
    ClosureTakesOver(s1, sub, how, again);
  }

  // ----- resolving a promise with itself, and resolving it twice -----

  /** The step e resolves the promise p with p itself: by a resolver, by a closure, or as the value of its own callback. */
  predicate SelfResolves(s: State, e: Event, p: nat) {
    match e
    case DoResolve(q, v, _) =>
      UserTurn(s) && q == p && v == PromiseRef(p) && p < |s.core.promises| && s.core.promises[p].origin == Open
    case CallResolve(g, v, _) =>
      UserTurn(s) && g < |s.guards| && s.guards[g].value.Thenable? && !s.guards[g].resolved &&
      s.guards[g].promise == p && v == PromiseRef(p)
    case Return(v, _, _) => s.calls == [] && UserCallback(s) && s.invoking.value.sub.child == p && v == PromiseRef(p)
    case Tick(_, _) =>
      s.core.flushing && s.calls == [] && s.invoking == None && NextCallback(s.core).Some? &&
      var (d, sub) := NextCallback(s.core).value;
      sub.owner < |d.promises| && d.promises[sub.owner].data == PromiseRef(p) && (HandsOn(d, sub, p) || Adopts(s, d, sub, p))
    case _ => false
  }

  predicate UserCallback(s: State) {
    s.invoking.Some? && !s.invoking.value.internal
  }

  /** A subscriber without a callback for the outcome hands its owner's data to its child. */
  predicate HandsOn(c: Core, sub: Subscriber, p: nat)
    requires sub.owner < |c.promises|
  {
    sub.child == p && (if c.promises[sub.owner].status == FULFILLED then sub.fulfilled else sub.rejected).Absent?
  }

  /** The adopt closure of an open guard is called with its owner's data. */
  predicate Adopts(s: State, c: Core, sub: Subscriber, p: nat)
    requires sub.owner < |c.promises|
  {
    && c.promises[sub.owner].status == FULFILLED && sub.fulfilled.Adopt? && sub.fulfilled.guard < |s.guards|
    && !s.guards[sub.fulfilled.guard].resolved && s.guards[sub.fulfilled.guard].promise == p
  }

  /** The value reaches p from invokeCallback: its own callback returned it, or its owner handed it on. */
  predicate FromCallback(s: State, e: Event, p: nat) {
    || e.Return?
    || (e.Tick? && NextCallback(s.core).Some? &&
        var (d, sub) := NextCallback(s.core).value; sub.owner < |d.promises| && HandsOn(d, sub, p))
  }

  predicate FulfilledWith(c: Core, p: nat, v: Value) {
    p < |c.promises| && c.promises[p].data == v && PublishFulfillment(p) in c.issued
  }

  predicate RejectedWith(c: Core, p: nat, v: Value) {
    p < |c.promises| && c.promises[p].data == v && PublishRejection(p) in c.issued
  }

  lemma SelfReference(s: State, p: nat, how: Foreign, again: Foreign)
    requires p < |s.core.promises| && s.core.promises[p].status == PENDING
    ensures FulfilledWith(Resolve(s, p, PromiseRef(p), how).core, p, PromiseRef(p))
    ensures FulfilledWith(FulfillAt(s, p, PromiseRef(p)).core, p, PromiseRef(p))
    ensures HandleThenable(s, p, PromiseRef(p), how) == (RejectAt(s, p, TypeError), true)
    ensures RejectedWith(RejectAt(s, p, TypeError).core, p, TypeError)
  {
    IssuedBy(s, p, PromiseRef(p));
    IssuedBy(s, p, TypeError);
  }

  lemma SelfClosure(s: State, g: nat, how: Foreign)
    requires g < |s.guards| && !s.guards[g].resolved
    requires var p := s.guards[g].promise; p < |s.core.promises| && s.core.promises[p].status == PENDING
    ensures var p := s.guards[g].promise; FulfilledWith(CallAdopt(s, g, PromiseRef(p), how).core, p, PromiseRef(p))
  {
    var t := s.(guards := s.guards[g := s.guards[g].(resolved := true)]);
    SelfReference(t, s.guards[g].promise, how, how);
    hide Resolve, FulfillAt, FulfilledWith;
  }

  lemma SelfCallback(s: State, sub: Subscriber, fulfilled: bool, how: Foreign, again: Foreign)
    requires sub.child < |s.core.promises| && s.core.promises[sub.child].status == PENDING
    ensures RejectedWith(Complete(s, sub, fulfilled, PromiseRef(sub.child), how, again).core, sub.child, TypeError)
  {
    SelfReference(s, sub.child, how, again);
    hide HandleThenable, RejectAt, Resolve, RejectedWith;
  }

  lemma NotBoth(c: Core, p: nat, v: Value, w: Value)
    requires v != w
    ensures !(FulfilledWith(c, p, v) && RejectedWith(c, p, w))
  {}

  lemma SelfTick(s: State, how: Foreign, again: Foreign, p: nat)
    requires p < |s.core.promises| && s.core.promises[p].status == PENDING
    requires SelfResolves(s, Tick(how, again), p)
    ensures var c := Step(s, Tick(how, again)).core;
      if FromCallback(s, Tick(how, again), p) then RejectedWith(c, p, TypeError) else FulfilledWith(c, p, PromiseRef(p))
  {
    TickIsTurn(s, Tick(how, again));
    TurnOfCallback(s, how, again);
    NextKeepsPromises(s.core);
    var (d, sub) := NextCallback(s.core).value;
    var s1 := s.(core := d);
    var owner, running := d.promises[sub.owner], s1.(invoking := Some(Invocation(sub, true)));
    hide Step, EngineTurn, NextCallback, FulfilledWith, RejectedWith, Complete, CallAdopt, CallRefuse, CallItem;
    if HandsOn(d, sub, p) {
      SelfCallback(s1, sub, owner.status == FULFILLED, how, again);
      assert InvokeCallback(s1, sub, how, again) == Complete(s1, sub, owner.status == FULFILLED, owner.data, how, again);
    } else {
      SelfClosure(running, sub.fulfilled.guard, how);
      assert InvokeCallback(s1, sub, how, again) == CallAdopt(running, sub.fulfilled.guard, owner.data, how);
    }
  }

  lemma NextKeepsPromises(c: Core)
    requires NextCallback(c).Some?
    ensures NextCallback(c).value.0.promises == c.promises
  {}

  /**
   * Section 2.3.1 of Promises/A+ asks that a promise resolved with itself be rejected with a TypeError.
   * A pending promise is, exactly when the value reaches it from invokeCallback, as it does when its
   * own callback returns it; through a resolver or an adopt closure it is fulfilled with itself.
   */
  lemma SelfResolution(s: State, e: Event, p: nat)
    requires p < |s.core.promises| && s.core.promises[p].status == PENDING && SelfResolves(s, e, p)
    ensures var c := Step(s, e).core;
      && (RejectedWith(c, p, TypeError) <==> FromCallback(s, e, p))
      && (FulfilledWith(c, p, PromiseRef(p)) <==> !FromCallback(s, e, p))
  {
    var c := Step(s, e).core;
    NotBoth(c, p, PromiseRef(p), TypeError);
    match e
    case DoResolve(_, _, how) =>
      SelfReference(s, p, how, how);
      hide Resolve, FulfilledWith, RejectedWith;
    case CallResolve(g, _, how) =>
      SelfClosure(s, g, how);
      hide CallAdopt, FulfilledWith, RejectedWith;
    case Return(v, how, again) =>
      ReturnStep(s, v, how, again);
      SelfCallback(s.(invoking := None), s.invoking.value.sub, true, how, again);
      hide Complete, FulfilledWith, RejectedWith, Step;
    case Tick(how, again) =>
      SelfTick(s, how, again, p);
      hide FulfilledWith, RejectedWith, Step;
  }

  /** The first values that leave a promise open: another promise of the engine, and a foreign object whose `then` is called. */
  predicate LeavesOpen(c: Core, p: nat, v: Value, how: Foreign) {
    (v.PromiseRef? && v.p < |c.promises| && v.p != p) || (v.Thenable? && how.Calls?)
  }

  lemma FirstResolution(s: State, p: nat, v: Value, how: Foreign)
    requires UserTurn(s) && p < |s.core.promises|
    requires s.core.promises[p].origin == Open && s.core.promises[p].status == PENDING
    ensures var t := Step(s, DoResolve(p, v, how));
      && UserTurn(t) && p < |t.core.promises| && t.core.promises[p].origin == Open
      && (if LeavesOpen(s.core, p, v, how) then t.core.promises[p].status == PENDING
          else t.core.promises[p].status != PENDING &&
               if v.Thenable? && how.GetterThrows? then RejectedWith(t.core, p, how.e) else FulfilledWith(t.core, p, v))
  {
    IssuedBy(s, p, v);
    if how.GetterThrows? {
      IssuedBy(s, p, how.e);
    }
    hide UserTurn, Fulfill, Reject;
    Settles(s.core, p, v);
    if how.GetterThrows? {
      Settles(s.core, p, how.e);
    }
    SameTurn(s, p, v, how);
  }

  lemma Settles(c: Core, p: nat, v: Value)
    requires p < |c.promises| && c.promises[p].status == PENDING
    ensures Fulfill(c, p, v).promises == c.promises[p := c.promises[p].(status := SETTLED, data := v)]
    ensures Reject(c, p, v).promises == c.promises[p := c.promises[p].(status := SETTLED, data := v)]
  {}

  lemma SameTurn(s: State, p: nat, v: Value, how: Foreign)
    requires UserTurn(s)
    ensures UserTurn(Step(s, DoResolve(p, v, how)))
  {}

  /**
   * The resolvers of a promise have no lock of their own. A second call, with a plain value, still
   * settles the promise if and only if the first value left it open; otherwise the first value, or
   * what its getter threw, stays.
   */
  lemma SecondResolution(s: State, p: nat, v: Value, how: Foreign, n: int, again: Foreign)
    requires Reachable(s) && UserTurn(s) && p < |s.core.promises| && v != Plain(n)
    requires s.core.promises[p].origin == Open && s.core.promises[p].status == PENDING
    ensures var c := Step(Step(s, DoResolve(p, v, how)), DoResolve(p, Plain(n), again)).core;
      && (FulfilledWith(c, p, Plain(n)) <==> LeavesOpen(s.core, p, v, how))
      && (p < |c.promises| && c.promises[p].data == Plain(n) <==>
          LeavesOpen(s.core, p, v, how) || (v.Thenable? && how == GetterThrows(Plain(n))))
  {
    FirstResolution(s, p, v, how);
    ReachableIsSound(s);
    StepGood(s, DoResolve(p, v, how));
    var t := Step(s, DoResolve(p, v, how));
    IssuedOnce(t.core, p);
    SecondCall(t, p, n, again);
    hide Step, Inv, Resolve;
  }

  lemma SecondCall(t: State, p: nat, n: int, again: Foreign)
    requires UserTurn(t) && p < |t.core.promises| && t.core.promises[p].origin == Open
    ensures var u := Step(t, DoResolve(p, Plain(n), again));
      if t.core.promises[p].status == PENDING then FulfilledWith(u.core, p, Plain(n))
      else u.core.promises[p] == t.core.promises[p] && u.core.issued == t.core.issued && |u.core.promises| == |t.core.promises|
  {
    PlainResolution(t, p, Plain(n), again);
    if t.core.promises[p].status == PENDING {
      IssuedBy(t, p, Plain(n));
    }
    assert Step(t, DoResolve(p, Plain(n), again)) == FulfillAt(t, p, Plain(n));
  }
}
