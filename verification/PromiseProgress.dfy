/** While user code makes no call the engine comes to rest: every step it or user code can then take makes a measure smaller. */
module PromiseProgress {
  import opened Options
  import opened Promises
  import opened PromiseMachine
  import opened PromiseSafety
  import opened PromiseOutcomes
  import opened PromiseAdoption
  import opened PromiseValues

  // ----- the measure -----

  function Pendings(promises: seq<Promise>): nat {
    if promises == [] then 0
    else Pendings(promises[..|promises| - 1]) + if promises[|promises| - 1].status == PENDING then 1 else 0
  }

  function Publications(tasks: seq<Task>): nat {
    if tasks == [] then 0 else (if tasks[0].Invoke? then 0 else 1) + Publications(tasks[1..])
  }

  /** What may still follow from starting sub; an adopter of a promise that holds itself adopts nothing in turn. */
  function Effort(promises: seq<Promise>, sub: Subscriber): nat {
    if !sub.fulfilled.Adopt? then 18 else if HoldsItself(promises, sub.owner) then 2 else 10
  }

  /** The effort of the subscribers that have not started. */
  function Load(subs: seq<Subscriber>, started: seq<Subscriber>, promises: seq<Promise>): nat {
    if subs == [] then 0
    else
      var last := subs[|subs| - 1];
      Load(subs[..|subs| - 1], started, promises) + if last in started then 0 else Effort(promises, last)
  }

  function Left(c: Core): seq<Task> {
    if c.pos <= |c.queue| then c.queue[c.pos..] else []
  }

  function Clock(c: Core): nat {
    (if c.publishing.Some? then 1 else 0) + if c.flushing then 1 else if c.timer then 2 else 0
  }

  function CoreMeasure(c: Core): nat {
    4 * Pendings(c.promises) + 2 * Publications(Left(c)) + Clock(c) + Load(c.registered, c.started, c.promises)
  }

  function StackMeasure(s: State): nat {
    |s.calls| + if s.invoking == None then 0 else if s.invoking.value.internal then 1 else 17
  }

  function Measure(s: State): nat {
    CoreMeasure(s.core) + StackMeasure(s)
  }

  // ----- its parts -----

  lemma {:induction false} PendingsFall(a: seq<Promise>, b: seq<Promise>)
    requires |a| == |b| && forall p :: 0 <= p < |a| && b[p].status == PENDING ==> a[p].status == PENDING
    ensures Pendings(b) <= Pendings(a)
  {
    if a != [] {
      PendingsFall(a[..|a| - 1], b[..|b| - 1]);
    }
  }

  lemma {:induction false} OnePendingLess(a: seq<Promise>, b: seq<Promise>, p: nat)
    requires p < |a| == |b| && a[p].status == PENDING && b[p].status != PENDING
    requires forall q :: 0 <= q < |a| && q != p ==> b[q].status == a[q].status
    ensures Pendings(b) < Pendings(a)
  {
    var n := |a| - 1;
    if p < n {
      OnePendingLess(a[..n], b[..n], p);
    } else {
      PendingsFall(a[..n], b[..n]);
    }
  }

  lemma OnePendingMore(a: seq<Promise>, pr: Promise)
    ensures Pendings(a + [pr]) <= Pendings(a) + 1
  {
    assert (a + [pr])[..|a|] == a;
  }

  lemma {:induction false} PublicationsPush(tasks: seq<Task>, t: Task)
    ensures Publications(tasks + [t]) == Publications(tasks) + if t.Invoke? then 0 else 1
  {
    if tasks == [] {
      assert [] + [t] == [t] && [t][1..] == [];
    } else {
      assert (tasks + [t])[1..] == tasks[1..] + [t];
      PublicationsPush(tasks[1..], t);
    }
  }

  /** Fewer subscribers have still to start, and more promises hold themselves. */
  lemma {:induction false} LoadFalls(subs: seq<Subscriber>, a: seq<Subscriber>, b: seq<Subscriber>, ps: seq<Promise>, qs: seq<Promise>)
    requires forall sub :: sub in a ==> sub in b
    requires forall x :: HoldsItself(ps, x) ==> HoldsItself(qs, x)
    ensures Load(subs, b, qs) <= Load(subs, a, ps)
  {
    if subs != [] {
      LoadFalls(subs[..|subs| - 1], a, b, ps, qs);
    }
  }

  lemma {:induction false} LoadOfStarted(subs: seq<Subscriber>, started: seq<Subscriber>, sub: Subscriber, ps: seq<Promise>)
    requires sub in subs && sub !in started
    ensures Load(subs, started + [sub], ps) + Effort(ps, sub) <= Load(subs, started, ps)
  {
    var n := |subs| - 1;
    if sub in subs[..n] {
      LoadOfStarted(subs[..n], started, sub, ps);
    } else {
      assert subs[n] == sub;
      LoadFalls(subs[..n], started, started + [sub], ps, ps);
    }
  }

  lemma LoadOfNew(subs: seq<Subscriber>, started: seq<Subscriber>, sub: Subscriber, ps: seq<Promise>)
    ensures Load(subs + [sub], started, ps) <= Load(subs, started, ps) + Effort(ps, sub)
  {
    assert (subs + [sub])[..|subs|] == subs;
  }

  // ----- what the engine's functions add to it -----

  lemma SettleAdds(c: Core, p: nat, v: Value, t: Task)
    requires c.pos <= |c.queue| && p < |c.promises| && !t.Invoke?
    ensures CoreMeasure(Settle(c, p, v, t)) <= CoreMeasure(c)
  {
    if c.promises[p].status == PENDING {
      var d := Settle(c, p, v, t);
      OnePendingLess(c.promises, d.promises, p);
      assert Left(d) == Left(c) + [t];
      PublicationsPush(Left(c), t);
      LoadFalls(c.registered, c.started, d.started, c.promises, d.promises);
      hide Pendings, Publications, Load;
    }
  }

  lemma CoreAdds(s: State, d: Core, k: int)
    requires CoreMeasure(d) <= CoreMeasure(s.core) + k
    ensures Measure(s.(core := d)) <= Measure(s) + k
  {
    hide CoreMeasure;
  }

  lemma SettlesFree(s: State, p: nat, v: Value)
    requires Inv(s.core)
    ensures Measure(FulfillAt(s, p, v)) <= Measure(s) && Measure(RejectAt(s, p, v)) <= Measure(s)
  {
    hide Inv, Measure, CoreMeasure, Settle;
    PosInQueue(s.core);
    if p < |s.core.promises| {
      SettleAdds(s.core, p, v, PublishFulfillment(p));
      SettleAdds(s.core, p, v, PublishRejection(p));
      CoreAdds(s, Fulfill(s.core, p, v), 0);
      CoreAdds(s, Reject(s.core, p, v), 0);
    }
  }

  lemma ThenParts(c: Core, p: nat, f: Handler, r: Handler)
    requires c.pos <= |c.queue| && p < |c.promises|
    ensures var sub, d := Subscriber(p, |c.promises|, f, r), Then(c, p, f, r);
      && |d.promises| == |c.promises| + 1 && d.registered == c.registered + [sub] && d.started == c.started
      && (forall q :: 0 <= q <= |c.promises| ==> d.promises[q].status == (c.promises + [NewPromise])[q].status)
      && (forall q :: 0 <= q <= |c.promises| ==> d.promises[q].data == (c.promises + [NewPromise])[q].data)
      && Left(d) == Left(c) + (if Published(c, p) then [Invoke(sub)] else []) && Clock(d) <= Clock(c) + 2
  {}

  lemma ThenAdds(c: Core, p: nat, f: Handler, r: Handler)
    requires c.pos <= |c.queue| && p < |c.promises|
    ensures CoreMeasure(Then(c, p, f, r)) <= CoreMeasure(c) + 6 + Effort(c.promises, Subscriber(p, |c.promises|, f, r))
  {
    hide Pendings, Publications, Load, Left, Clock, Then;
    var sub, d := Subscriber(p, |c.promises|, f, r), Then(c, p, f, r);
    ThenParts(c, p, f, r);
    OnePendingMore(c.promises, NewPromise);
    PendingsFall(c.promises + [NewPromise], d.promises);
    PublicationsPush(Left(c), Invoke(sub));
    LoadOfNew(c.registered, c.started, sub, d.promises);
    LoadFalls(c.registered, c.started, d.started, c.promises, d.promises);
    assert Left(c) + [] == Left(c);
  }

  /** What adopting v adds at most: a new promise, its subscriber and the timer, or a foreign call. */
  function Cost(c: Core, v: Value): nat {
    if v.PromiseRef? && v.p < |c.promises| then (if HoldsItself(c.promises, v.p) then 8 else 16)
    else if v.Thenable? then 1
    else 0
  }

  lemma PosInQueue(c: Core)
    requires Inv(c)
    ensures c.pos <= |c.queue|
  {}

  lemma CallAdds(s: State, guard: Guard, g: nat)
    ensures Measure(s.(guards := s.guards + [guard])) == Measure(s)
    ensures Measure(s.(guards := s.guards + [guard]).(calls := s.calls + [g])) == Measure(s) + 1
  {
    hide CoreMeasure;
  }

  lemma AdoptionAdds(s: State, p: nat, v: Value)
    requires Inv(s.core) && v.PromiseRef? && v.p < |s.core.promises|
    ensures var g := |s.guards|;
      Measure(ThenAt(s.(guards := s.guards + [Guard(p, v, false)]), v.p, Adopt(g), Refuse(g))) <= Measure(s) + Cost(s.core, v)
  {
    hide Inv, Measure, CoreMeasure, Then;
    var g, guarded := |s.guards|, s.(guards := s.guards + [Guard(p, v, false)]);
    PosInQueue(s.core);
    CallAdds(s, Guard(p, v, false), g);
    ThenAdds(s.core, v.p, Adopt(g), Refuse(g));
    CoreAdds(guarded, Then(s.core, v.p, Adopt(g), Refuse(g)), Cost(s.core, v));
  }

  lemma HandleThenableAdds(s: State, p: nat, v: Value, how: Foreign)
    requires Inv(s.core)
    ensures Measure(HandleThenable(s, p, v, how).0) <= Measure(s) + Cost(s.core, v)
  {
    hide Inv, Measure, RejectAt, ThenAt;
    SettlesFree(s, p, TypeError);
    if how.GetterThrows? {
      SettlesFree(s, p, how.e);
    }
    CallAdds(s, Guard(p, v, false), |s.guards|);
    if v.PromiseRef? && v.p < |s.core.promises| {
      AdoptionAdds(s, p, v);
    }
  }

  lemma ResolveAdds(s: State, p: nat, v: Value, how: Foreign)
    requires Inv(s.core)
    ensures Measure(Resolve(s, p, v, how)) <= Measure(s) + Cost(s.core, v)
  {
    hide Inv, Measure, HandleThenable, FulfillAt, Cost;
    SettlesFree(s, p, v);
    HandleThenableAdds(s, p, v, how);
    if !HandleThenable(s, p, v, how).1 {
      NotHandled(s, p, v, how);
    }
  }

  lemma CompleteAdds(s: State, sub: Subscriber, fulfilled: bool, v: Value, how: Foreign, again: Foreign)
    requires Inv(s.core)
    ensures Measure(Complete(s, sub, fulfilled, v, how, again)) <= Measure(s) + Cost(s.core, v)
  {
    hide Inv, Measure, HandleThenable, Resolve, RejectAt, Cost;
    HandleThenableAdds(s, sub.child, v, how);
    ResolveAdds(s, sub.child, v, again);
    SettlesFree(s, sub.child, v);
    if !HandleThenable(s, sub.child, v, how).1 {
      NotHandled(s, sub.child, v, how);
    }
  }

  lemma ClosuresAdd(s: State, g: nat, v: Value, how: Foreign)
    requires Inv(s.core)
    ensures Measure(CallAdopt(s, g, v, how)) <= Measure(s) + if g < |s.guards| && s.guards[g].value == v then 0 else Cost(s.core, v)
    ensures Measure(CallRefuse(s, g, v)) <= Measure(s)
  {
    hide Inv, CoreMeasure, Resolve, FulfillAt, RejectAt, Cost;
    if g < |s.guards| {
      var t := s.(guards := s.guards[g := s.guards[g].(resolved := true)]);
      SettlesFree(t, s.guards[g].promise, v);
      ResolveAdds(t, s.guards[g].promise, v, how);
    }
  }

  lemma ItemAdds(s: State, a: nat, i: nat, v: Value)
    requires Inv(s.core)
    ensures Measure(CallItem(s, a, i, v)) <= Measure(s) && Measure(CallFail(s, a, v)) <= Measure(s)
  {
    hide Inv, CoreMeasure, Resolve, RejectAt;
    if a < |s.alls| {
      SettlesFree(s, s.alls[a].promise, v);
      if i < |s.alls[a].results| {
        var all := s.alls[a].(results := s.alls[a].results[i := Some(v)], remaining := s.alls[a].remaining - 1);
        ResolveAdds(s.(alls := s.alls[a := all]), all.promise, Results(a), NotCallable);
      }
    }
  }

  /** The closure of an adopter, called with its owner's data, costs less than the effort set aside for it. */
  lemma AdopterAdds(s: State, sub: Subscriber, how: Foreign)
    requires Inv(s.core) && Tidy(s.core) && Adopter(sub, s.core.started, s.guards)
    requires sub.owner < |s.core.promises| && s.core.promises[sub.owner].status == FULFILLED
    ensures Measure(CallAdopt(s, sub.fulfilled.guard, s.core.promises[sub.owner].data, how)) + 1 < Measure(s) + Effort(s.core.promises, sub)
  {
    FulfilledData(s.core, sub.owner);
    hide Inv, Tidy, Measure, CallAdopt;
    ClosuresAdd(s, sub.fulfilled.guard, s.core.promises[sub.owner].data, how);
  }

  lemma InvokingAdds(s: State, sub: Subscriber)
    requires s.invoking == None
    ensures Measure(s.(invoking := Some(Invocation(sub, true)))) == Measure(s) + 1
    ensures Measure(s.(invoking := Some(Invocation(sub, false)))) == Measure(s) + 17
  {
    hide CoreMeasure;
  }

  lemma InvokeAdds(s: State, sub: Subscriber, how: Foreign, again: Foreign)
    requires Inv(s.core) && Tidy(s.core) && s.invoking == None && (NoAdopter(sub) || Adopter(sub, s.core.started, s.guards))
    ensures Measure(InvokeCallback(s, sub, how, again)) < Measure(s) + Effort(s.core.promises, sub)
  {
    hide Inv, Tidy, Measure, Complete, CallAdopt, CallRefuse, CallItem, CallFail;
    if sub.owner < |s.core.promises| {
      var owner, running := s.core.promises[sub.owner], s.(invoking := Some(Invocation(sub, true)));
      InvokingAdds(s, sub);
      match if owner.status == FULFILLED then sub.fulfilled else sub.rejected
      case Absent => CompleteAdds(s, sub, owner.status == FULFILLED, owner.data, how, again);
      case User(_) =>
      case Adopt(g) => AdopterAdds(running, sub, how);
      case Refuse(g) => ClosuresAdd(running, g, owner.data, how);
      case Item(a, i) => ItemAdds(running, a, i, owner.data);
      case Fail(a) => ItemAdds(running, a, 0, owner.data);
    }
  }

  // ----- the turns of the engine -----

  lemma NextLeaves(c: Core)
    requires Inv(c) && NextCallback(c).Some?
    ensures var (d, sub) := NextCallback(c).value;
      && d.promises == c.promises && d.registered == c.registered && d.started == c.started + [sub]
      && Clock(d) == Clock(c) && (Left(d) == Left(c) || Left(c) == [Invoke(sub)] + Left(d))
  {
    PosInQueue(c);
    hide Inv;
  }

  lemma InvokesAreFree(tasks: seq<Task>, sub: Subscriber)
    ensures Publications([Invoke(sub)] + tasks) == Publications(tasks)
  {
    assert ([Invoke(sub)] + tasks)[1..] == tasks;
  }

  lemma PickedIsLess(c: Core)
    requires Inv(c) && NextCallback(c).Some?
    ensures var (d, sub) := NextCallback(c).value;
      sub in c.registered && sub !in c.started ==> CoreMeasure(d) + Effort(c.promises, sub) <= CoreMeasure(c)
  {
    hide Inv, NextCallback, Pendings, Load, Publications, Left, Clock, Effort;
    var (d, sub) := NextCallback(c).value;
    NextLeaves(c);
    InvokesAreFree(Left(d), sub);
    if sub in c.registered && sub !in c.started {
      LoadOfStarted(c.registered, c.started, sub, c.promises);
    }
  }

  lemma FlushIsLess(c: Core)
    requires c.publishing == None
    ensures c.timer && !c.flushing ==> CoreMeasure(StartFlush(c)) < CoreMeasure(c)
    ensures c.flushing && c.pos == |c.queue| ==> CoreMeasure(EndFlush(c)) < CoreMeasure(c)
  {
    hide Pendings, Load;
  }

  lemma EndPublishIsLess(c: Core)
    requires c.publishing.Some? && c.publishing.value.p < |c.promises|
    ensures CoreMeasure(EndPublish(c)) < CoreMeasure(c)
  {
    var d := EndPublish(c);
    PendingsFall(c.promises, d.promises);
    LoadFalls(c.registered, c.started, d.started, c.promises, d.promises);
    hide Pendings, Publications, Load;
  }

  lemma BeginPublishIsLess(c: Core)
    requires Ready(c) && !c.queue[c.pos].Invoke? && c.queue[c.pos].p < |c.promises|
    ensures CoreMeasure(BeginPublish(c)) < CoreMeasure(c)
  {
    var d := BeginPublish(c);
    PendingsFall(c.promises, d.promises);
    LoadFalls(c.registered, c.started, d.started, c.promises, d.promises);
    assert Left(c) == [c.queue[c.pos]] + Left(d) && Left(c)[1..] == Left(d);
    hide Pendings, Load;
  }

  lemma QuietTurnIsLess(s: State, how: Foreign, again: Foreign)
    requires Inv(s.core) && s.calls == [] && s.invoking == None && (s.core.flushing || s.core.timer)
    requires s.core.flushing ==> NextCallback(s.core) == None
    ensures Measure(EngineTurn(s, how, again)) < Measure(s)
  {
    var c, d := s.core, EngineTurn(s, how, again).core;
    assert Controlled(c);
    if c.flushing && c.publishing == None && c.pos < |c.queue| {
      TaskGood(c);
    }
    hide Inv, CoreMeasure, InvokeCallback, Complete, Good, BeginPublish, EndPublish, StartFlush, EndFlush;
    if c.publishing.Some? {
      EndPublishIsLess(c);
    } else {
      FlushIsLess(c);
      if Ready(c) {
        BeginPublishIsLess(c);
      }
    }
  }

  lemma CallbackTurnIsLess(s: State, how: Foreign, again: Foreign)
    requires Consistent(s) && s.calls == [] && s.invoking == None && s.core.flushing && NextCallback(s.core).Some?
    ensures Measure(EngineTurn(s, how, again)) < Measure(s)
  {
    var (d, sub) := NextCallback(s.core).value;
    var s1 := s.(core := d);
    assert Inv(s.core);
    TurnOfCallback(s, how, again);
    NextIsPicked(s);
    NotCrossed(s, sub);
    hide EngineTurn, NextCallback, Inv, Whole, Tidy, AdoptsSound, Extends, CoreMeasure, InvokeCallback, Adopter;
    PickedTidy(s, s1, sub);
    PickedIsLess(s.core);
    PickedAdopter(s, s1, sub);
    InvokeAdds(s1, sub, how, again);
  }

  lemma PickedAdopter(s: State, s1: State, sub: Subscriber)
    requires Picked(s, s1, sub) && (NoAdopter(sub) || Adopter(sub, s.core.started, s.guards))
    ensures NoAdopter(sub) || Adopter(sub, s1.core.started, s1.guards)
  {
    hide Good;
  }

  // ----- steps in which user code makes no call -----

  /** The engine's turns, and user code giving control back: these steps can be taken in s. */
  predicate Enabled(s: State, e: Event) {
    match e
    case ThenReturns => s.calls != []
    case ThenThrows(_) => s.calls != []
    case Return(_, _, _) => s.calls == [] && UserCallback(s)
    case Throw(_, _, _) => s.calls == [] && UserCallback(s)
    case Tick(_, _) => s.calls == [] && if s.invoking.Some? then s.invoking.value.internal else s.core.flushing || s.core.timer
    case _ => false
  }

  lemma TurnIsLess(s: State, how: Foreign, again: Foreign)
    requires Consistent(s) && Enabled(s, Tick(how, again))
    ensures Measure(EngineTurn(s, how, again)) < Measure(s)
  {
    assert Inv(s.core);
    if s.invoking.Some? {
      var t := s.(invoking := None);
      hide Consistent, Inv, CoreMeasure, Complete, InvokeCallback;
      CompleteAdds(t, s.invoking.value.sub, true, Undefined, how, again);
    } else if s.core.flushing && NextCallback(s.core).Some? {
      CallbackTurnIsLess(s, how, again);
      hide *;
    } else {
      QuietTurnIsLess(s, how, again);
      hide *;
    }
  }

  lemma CallbackOver(s: State)
    requires UserCallback(s)
    ensures Measure(s.(invoking := None)) + 17 == Measure(s)
  {
    hide CoreMeasure;
  }

  lemma ThrowOwner(s: State)
    requires Consistent(s) && UserCallback(s)
    ensures Inv(s.core) && s.invoking.value.sub.owner < |s.core.promises|
  {
    assert s.invoking.value.sub in s.core.started;
    StartedIsPublished(s.core, s.invoking.value.sub);
    hide Inv;
  }

  lemma ThrowIsLess(s: State, x: Value, how: Foreign, again: Foreign)
    requires Consistent(s) && Enabled(s, Throw(x, how, again))
    ensures Measure(Step(s, Throw(x, how, again))) < Measure(s)
  {
    hide Consistent, Inv, Extends, Measure, Complete, RejectAt;
    var sub, t := s.invoking.value.sub, s.(invoking := None);
    ThrowOwner(s);
    CallbackOver(s);
    SettlesFree(t, sub.child, x);
    SettleGood(t, sub.child, x);
    CompleteAdds(RejectAt(t, sub.child, x), sub, true, s.core.promises[sub.owner].data, how, again);
  }

  lemma CallPopped(s: State)
    requires s.calls != []
    ensures Measure(s.(calls := s.calls[..|s.calls| - 1])) + 1 == Measure(s)
  {
    hide CoreMeasure;
  }

  lemma CallOver(s: State, e: Event)
    requires Consistent(s) && s.calls != [] && (e.ThenReturns? || e.ThenThrows?)
    ensures Measure(Step(s, e)) < Measure(s)
  {
    ConsistentIsSound(s);
    hide Consistent, Inv, Measure, RejectAt;
    var g, t := s.calls[|s.calls| - 1], s.(calls := s.calls[..|s.calls| - 1]);
    CallPopped(s);
    if e.ThenThrows? && g < |s.guards| {
      SettlesFree(t, s.guards[g].promise, e.e);
    }
  }

  lemma ConsistentIsSound(s: State)
    requires Consistent(s)
    ensures Inv(s.core)
  {
    hide Inv;
  }

  /** Every step that can be taken makes the measure smaller. */
  lemma StepIsLess(s: State, e: Event)
    requires Consistent(s) && Enabled(s, e)
    ensures Measure(Step(s, e)) < Measure(s)
  {
    match e
    case ThenReturns =>
      CallOver(s, e);
      hide *;
    case ThenThrows(_) =>
      CallOver(s, e);
      hide *;
    case Return(v, how, again) =>
      assert Inv(s.core);
      hide Consistent, Inv, CoreMeasure, Complete;
      CompleteAdds(s.(invoking := None), s.invoking.value.sub, true, v, how, again);
    case Throw(x, how, again) =>
      ThrowIsLess(s, x, how, again);
      hide *;
    case Tick(how, again) =>
      TickIsTurn(s, e);
      TurnIsLess(s, how, again);
      hide *;
  }

  // ----- coming to rest -----

  predicate AtRest(s: State) {
    s.calls == [] && s.invoking == None && !s.core.flushing && !s.core.timer
  }

  /** One step that can be taken, unless all is at rest. */
  function Onward(s: State): Event {
    if s.calls != [] then ThenReturns
    else if UserCallback(s) then Return(Undefined, NotCallable, NotCallable)
    else Tick(NotCallable, NotCallable)
  }

  lemma RestOrOnward(s: State)
    ensures AtRest(s) <==> forall e :: !Enabled(s, e)
    ensures !AtRest(s) ==> Enabled(s, Onward(s))
  {
    if AtRest(s) {
      forall e: Event
        ensures !Enabled(s, e)
      {
        match e
        case _ =>
      }
    } else {
      assert Enabled(s, Onward(s));
    }
  }

  /** Each step of es from s can be taken in its turn, and none calls the engine. */
  predicate Progressing(s: State, es: seq<Event>) {
    es == [] || (Progressing(s, es[..|es| - 1]) && Enabled(Run(s, es[..|es| - 1]), es[|es| - 1]))
  }

  lemma {:induction false} RunIsLess(s: State, es: seq<Event>)
    requires Consistent(s) && AllNamed(s, es) && Progressing(s, es)
    ensures Measure(Run(s, es)) + |es| <= Measure(s)
  {
    if es != [] {
      RunIsLess(s, es[..|es| - 1]);
      RunTidy(s, es[..|es| - 1]);
      StepIsLess(Run(s, es[..|es| - 1]), es[|es| - 1]);
    }
    hide Consistent, Measure, Enabled, Names, Step;
  }

  lemma {:induction false} NamedAfter(s: State, es: seq<Event>, more: seq<Event>)
    requires AllNamed(s, es) && AllNamed(Run(s, es), more)
    ensures AllNamed(s, es + more) && Run(s, es + more) == Run(Run(s, es), more)
    decreases |more|
  {
    hide Run, Names;
    RunAppend(s, es, more);
    if more == [] {
      assert es + more == es;
    } else {
      NamedAfter(s, es, more[..|more| - 1]);
      assert (es + more)[..|es + more| - 1] == es + more[..|more| - 1];
    }
  }

  lemma ProperAfter(s: State, es: seq<Event>)
    requires Proper(s) && AllNamed(s, es)
    ensures Proper(Run(s, es))
  {
    var before :| AllNamed(Start, before) && s == Run(Start, before);
    NamedAfter(Start, before, es);
    hide Run, AllNamed;
  }

  /**
   * While user code calls nothing, whatever it returns or throws, no more than Measure(s) steps can be
   * taken, and when none can the queue has drained and every callback of a settled promise has started.
   */
  lemma EngineComesToRest(s: State, es: seq<Event>)
    requires Proper(s) && AllNamed(s, es) && Progressing(s, es)
    ensures |es| <= Measure(s)
    ensures var t := Run(s, es);
      (forall e :: !Enabled(t, e)) ==>
        Drained(t.core) &&
        forall sub :: sub in t.core.registered ==>
          sub.owner < |t.core.promises| && (sub in t.core.started <==> t.core.promises[sub.owner].status != PENDING)
  {
    var t := Run(s, es);
    ProperIsConsistent(s);
    RunIsLess(s, es);
    ProperAfter(s, es);
    ProperIsConsistent(t);
    RestOrOnward(t);
    assert Controlled(t.core);
    hide Run, Proper, AllNamed, Progressing, Consistent, Measure, Enabled, Reachable;
    if AtRest(t) {
      forall sub | sub in t.core.registered
        ensures sub.owner < |t.core.promises| && (sub in t.core.started <==> t.core.promises[sub.owner].status != PENDING)
      {
        NoCallbackLost(t, sub);
      }
    }
  }

  /** And it can always go on until then. */
  lemma RestIsReached(s: State) returns (es: seq<Event>)
    requires Proper(s)
    ensures AllNamed(s, es) && Progressing(s, es) && AtRest(Run(s, es))
  {
    es := [];
    ProperIsConsistent(s);
    assert Run(s, []) == s;
    hide Whole, AdoptsSound, Tidy, Step, Measure, Enabled;
    while !AtRest(Run(s, es))
      invariant AllNamed(s, es) && Progressing(s, es) && Consistent(Run(s, es))
      decreases Measure(Run(s, es))
    {
      var t := Run(s, es);
      var e := Onward(t);
      RestOrOnward(t);
      StepIsLess(t, e);
      OneMoreStep(s, es, e);
      es := es + [e];
      RunTidy(s, es);
    }
  }

  lemma OneMoreStep(s: State, es: seq<Event>, e: Event)
    requires AllNamed(s, es) && Progressing(s, es) && e == Onward(Run(s, es)) && Enabled(Run(s, es), e)
    ensures AllNamed(s, es + [e]) && Progressing(s, es + [e]) && Run(s, es + [e]) == Step(Run(s, es), e)
  {
    hide Run, Step, Enabled;
    RunStep(s, es, e);
    NamedStep(s, es, e);
    ProgressStep(s, es, e);
  }

  lemma NamedStep(s: State, es: seq<Event>, e: Event)
    requires AllNamed(s, es) && Names(|Run(s, es).core.promises|, e)
    ensures AllNamed(s, es + [e])
  {
    hide Run, Names;
    assert (es + [e])[..|es|] == es;
  }

  lemma ProgressStep(s: State, es: seq<Event>, e: Event)
    requires Progressing(s, es) && Enabled(Run(s, es), e)
    ensures Progressing(s, es + [e])
  {
    hide Run, Enabled;
    assert (es + [e])[..|es|] == es;
  }
}
