/** What holds in every state of every run of the promise engine. */
module PromiseSafety {
  import opened Options
  import opened Promises
  import opened PromiseMachine

  predicate IsPublished(a: Promise) {
    a.status == FULFILLED || a.status == REJECTED
  }

  /**
   * A promise leaves PENDING once, keeps its data from then on and its published outcome for ever.
   * From its publication on nothing is added to its list, which can only be dropped.
   */
  predicate Later(a: Promise, b: Promise) {
    && b.origin == a.origin
    && (a.status != PENDING ==> b.status != PENDING && b.data == a.data)
    && (IsPublished(a) ==> b.status == a.status && (b.list == a.list || (b.dropped && b.list == [])))
    && (a.dropped ==> b.dropped)
  }

  /** d is a later state of the engine than c. */
  ghost predicate Extends(c: Core, d: Core) {
    && |c.promises| <= |d.promises|
    && c.registered <= d.registered && c.started <= d.started && c.issued <= d.issued
    && forall p :: 0 <= p < |c.promises| ==> Later(c.promises[p], d.promises[p])
  }

  lemma ExtendsTrans(a: Core, b: Core, c: Core)
    requires Extends(a, b) && Extends(b, c)
    ensures Extends(a, c)
  {
    forall p | 0 <= p < |a.promises|
      ensures Later(a.promises[p], c.promises[p])
    {
      assert Later(a.promises[p], b.promises[p]) && Later(b.promises[p], c.promises[p]);
    }
  }

  ghost predicate Good(c: Core, d: Core) {
    Inv(d) && Extends(c, d)
  }

  lemma GoodTrans(a: Core, b: Core, c: Core)
    requires Good(a, b) && Good(b, c)
    ensures Good(a, c)
  {
    hide Inv, Extends;
    ExtendsTrans(a, b, c);
  }

  // ----- every function of the engine -----

  lemma SettleGood(s: State, p: nat, v: Value)
    requires Inv(s.core)
    ensures Good(s.core, FulfillAt(s, p, v).core) && Good(s.core, RejectAt(s, p, v).core)
  {
    hide Inv;
    if p < |s.core.promises| {
      SettleKeeps(s.core, p, v, PublishFulfillment(p));
      SettleKeeps(s.core, p, v, PublishRejection(p));
    }
  }

  lemma AllocateGood(c: Core, origin: Origin)
    requires Inv(c)
    ensures Good(c, Allocate(c, origin))
  {
    AllocateKeeps(c, origin);
    hide Inv;
  }

  lemma ThenGood(s: State, p: nat, f: Handler, r: Handler)
    requires Inv(s.core)
    ensures Good(s.core, ThenAt(s, p, f, r).core)
  {
    hide Inv;
    if p < |s.core.promises| {
      ThenKeeps(s.core, p, f, r);
    }
  }

  lemma HandleThenableGood(s: State, p: nat, v: Value, how: Foreign)
    requires Inv(s.core)
    ensures Good(s.core, HandleThenable(s, p, v, how).0.core)
  {
    hide Inv, Then, Settle;
    var g := |s.guards|;
    SettleGood(s, p, TypeError);
    if v.PromiseRef? {
      ThenGood(s.(guards := s.guards + [Guard(p, v, false)]), v.p, Adopt(g), Refuse(g));
    }
    if how.GetterThrows? {
      SettleGood(s, p, how.e);
    }
  }

  lemma ResolveGood(s: State, p: nat, v: Value, how: Foreign)
    requires Inv(s.core)
    ensures Good(s.core, Resolve(s, p, v, how).core)
  {
    hide Inv, Extends, HandleThenable, FulfillAt;
    SettleGood(s, p, v);
    HandleThenableGood(s, p, v, how);
    var t := HandleThenable(s, p, v, how).0;
    SettleGood(t, p, v);
    GoodTrans(s.core, t.core, FulfillAt(t, p, v).core);
  }

  lemma ClosuresGood(s: State, g: nat, v: Value, how: Foreign)
    requires Inv(s.core)
    ensures Good(s.core, CallAdopt(s, g, v, how).core) && Good(s.core, CallRefuse(s, g, v).core)
  {
    hide Inv, Later, HandleThenable, FulfillAt, RejectAt, Resolve;
    if g < |s.guards| {
      var t, p := s.(guards := s.guards[g := s.guards[g].(resolved := true)]), s.guards[g].promise;
      SettleGood(t, p, v);
      ResolveGood(t, p, v, how);
    }
    Unchanged(s.core);
  }

  lemma Unchanged(c: Core)
    requires Inv(c)
    ensures Good(c, c)
  {}

  lemma ItemGood(s: State, a: nat, i: nat, v: Value)
    requires Inv(s.core)
    ensures Good(s.core, CallItem(s, a, i, v).core) && Good(s.core, CallFail(s, a, v).core)
  {
    hide Inv, Extends, FulfillAt, RejectAt, Resolve;
    Unchanged(s.core);
    if a < |s.alls| {
      SettleGood(s, s.alls[a].promise, v);
      if i < |s.alls[a].results| {
        var all := s.alls[a].(results := s.alls[a].results[i := Some(v)], remaining := s.alls[a].remaining - 1);
        ResolveGood(s.(alls := s.alls[a := all]), all.promise, Results(a), NotCallable);
      }
    }
  }

  lemma CompleteGood(s: State, sub: Subscriber, fulfilled: bool, v: Value, how: Foreign, again: Foreign)
    requires Inv(s.core)
    ensures Good(s.core, Complete(s, sub, fulfilled, v, how, again).core)
  {
    hide Inv, Extends, HandleThenable, RejectAt, Resolve;
    var t := HandleThenable(s, sub.child, v, how).0;
    HandleThenableGood(s, sub.child, v, how);
    ResolveGood(t, sub.child, v, again);
    SettleGood(t, sub.child, v);
    GoodTrans(s.core, t.core, Resolve(t, sub.child, v, again).core);
    GoodTrans(s.core, t.core, RejectAt(t, sub.child, v).core);
  }

  lemma InvokeCallbackGood(s: State, sub: Subscriber, how: Foreign, again: Foreign)
    requires Inv(s.core)
    ensures Good(s.core, InvokeCallback(s, sub, how, again).core)
  {
    hide Inv, Extends, Complete, CallAdopt, CallRefuse, CallItem, CallFail;
    Unchanged(s.core);
    if sub.owner < |s.core.promises| {
      var owner, running := s.core.promises[sub.owner], s.(invoking := Some(Invocation(sub, true)));
      var fulfilled := owner.status == FULFILLED;
      match if fulfilled then sub.fulfilled else sub.rejected
      case Absent => CompleteGood(s, sub, fulfilled, owner.data, how, again);
      case User(_) =>
      case Adopt(g) => ClosuresGood(running, g, owner.data, how);
      case Refuse(g) => ClosuresGood(running, g, owner.data, how);
      case Item(a, i) => ItemGood(running, a, i, owner.data);
      case Fail(a) => ItemGood(running, a, 0, owner.data);
    }
  }

  lemma {:induction false} GatherGood(s: State, a: nat, i: nat)
    requires Inv(s.core) && a < |s.alls| && i <= |s.alls[a].entries| == |s.alls[a].results|
    ensures Good(s.core, GatherFrom(s, a, i).core)
    decreases |s.alls[a].entries| - i
  {
    hide Inv, Extends, Resolve, ThenAt, GatherFrom;
    var all := s.alls[a];
    Unchanged(s.core);
    GatherUnfold(s, a, i);
    if i == |all.entries| {
      ResolveGood(s, all.promise, Results(a), NotCallable);
    } else {
      match all.entries[i]
      case Given(v) =>
        GatherGood(s.(alls := s.alls[a := all.(results := all.results[i := Some(v)])]), a, i + 1);
      case Awaited(p) =>
        var t := s.(alls := s.alls[a := all.(remaining := all.remaining + 1)]);
        ThenGood(t, p, Item(a, i), Fail(a));
        ThenKeepsRest(t, p, Item(a, i), Fail(a));
        GatherGood(ThenAt(t, p, Item(a, i), Fail(a)), a, i + 1);
        GoodTrans(s.core, ThenAt(t, p, Item(a, i), Fail(a)).core, GatherFrom(s, a, i).core);
    }
  }

  lemma ThenKeepsRest(s: State, p: nat, f: Handler, r: Handler)
    ensures ThenAt(s, p, f, r) == s.(core := ThenAt(s, p, f, r).core)
  {}

  lemma GatherUnfold(s: State, a: nat, i: nat)
    requires a < |s.alls| && i <= |s.alls[a].entries| == |s.alls[a].results|
    ensures var all := s.alls[a];
      GatherFrom(s, a, i) ==
        if i == |all.entries| then (if all.remaining == 0 then Resolve(s, all.promise, Results(a), NotCallable) else s)
        else if all.entries[i].Given? then GatherFrom(s.(alls := s.alls[a := all.(results := all.results[i := Some(all.entries[i].v)])]), a, i + 1)
        else GatherFrom(ThenAt(s.(alls := s.alls[a := all.(remaining := all.remaining + 1)]), all.entries[i].p, Item(a, i), Fail(a)), a, i + 1)
  {}

  lemma StartGatheringGood(s: State, entries: seq<Entry>)
    requires Inv(s.core)
    ensures Good(s.core, StartGathering(s, entries).core)
  {
    hide Inv, Extends, GatherFrom, Allocate;
    var all := Gathering(entries, seq(|entries|, _ => None), 0, |s.core.promises|);
    var t := s.(core := Allocate(s.core, Collected), alls := s.alls + [all]);
    AllocateGood(s.core, Collected);
    GatherGood(t, |s.alls|, 0);
    GoodTrans(s.core, t.core, StartGathering(s, entries).core);
  }

  // ----- the flush -----

  lemma FlushGood(c: Core)
    requires Inv(c)
    ensures c.timer && !c.flushing ==> Good(c, StartFlush(c))
    ensures c.flushing && c.publishing == None && c.pos == |c.queue| ==> Good(c, EndFlush(c))
  {
    if c.timer && !c.flushing {
      StartFlushKeeps(c);
    } else if c.flushing && c.publishing == None && c.pos == |c.queue| {
      EndFlushKeeps(c);
    }
    hide Inv;
  }

  lemma VisitGood(c: Core)
    requires Inv(c) && c.publishing.Some?
    ensures var at := c.publishing.value;
      && at.p < |c.promises| && at.next <= |c.promises[at.p].list|
      && if at.next < |c.promises[at.p].list| then Good(c, VisitNext(c)) else Good(c, EndPublish(c))
  {
    var at := c.publishing.value;
    assert Sound(ViewOf(c, at.p));
    if at.next < |c.promises[at.p].list| {
      VisitNextKeeps(c);
    } else {
      EndPublishKeeps(c);
    }
    hide Inv;
  }

  lemma TaskGood(c: Core)
    requires Inv(c) && Ready(c)
    ensures if c.queue[c.pos].Invoke? then Good(c, BeginInvoke(c))
            else c.queue[c.pos].p < |c.promises| && Good(c, BeginPublish(c))
  {
    var t := c.queue[c.pos];
    if t.Invoke? {
      BeginInvokeKeeps(c);
    } else {
      BeginPublishKeeps(c);
      SettledUntilPublished(c, t.p);
    }
    hide Inv;
  }

  /** A promise that still has a publish task in the queue is SETTLED. */
  lemma SettledUntilPublished(c: Core, p: nat)
    requires Inv(c) && p < |c.promises| && c.pos < |c.queue| && !c.queue[c.pos].Invoke? && c.queue[c.pos].p == p
    ensures c.promises[p].status == SETTLED
  {
    assert Sound(ViewOf(c, p));
    Front(c, p);
  }

  lemma EngineTurnGood(s: State, how: Foreign, again: Foreign)
    requires Inv(s.core)
    ensures Good(s.core, EngineTurn(s, how, again).core)
  {
    var c := s.core;
    Unchanged(c);
    assert c.pos <= |c.queue|;
    hide Inv, Extends, Complete, InvokeCallback, StartFlush, EndFlush, VisitNext, EndPublish, BeginInvoke, BeginPublish;
    FlushGood(c);
    if s.invoking.Some? {
      CompleteGood(s.(invoking := None), s.invoking.value.sub, true, Undefined, how, again);
    } else if c.publishing.Some? {
      VisitGood(c);
      var at := c.publishing.value;
      if at.next < |c.promises[at.p].list| {
        var t := s.(core := VisitNext(c));
        InvokeCallbackGood(t, c.promises[at.p].list[at.next], how, again);
        GoodTrans(c, t.core, InvokeCallback(t, c.promises[at.p].list[at.next], how, again).core);
      }
    } else if c.flushing && c.pos < |c.queue| {
      TaskGood(c);
      if c.queue[c.pos].Invoke? {
        var t := s.(core := BeginInvoke(c));
        InvokeCallbackGood(t, c.queue[c.pos].sub, how, again);
        GoodTrans(c, t.core, InvokeCallback(t, c.queue[c.pos].sub, how, again).core);
      }
    }
  }

  lemma UserStepGood(s: State, e: Event)
    requires Inv(s.core) && !e.Return? && !e.Throw? && !e.Tick? && !e.ThenThrows?
    ensures Good(s.core, Step(s, e).core)
  {
    hide Inv, Extends, Resolve, RejectAt, ThenAt, Allocate, StartGathering, CallAdopt, CallRefuse;
    Unchanged(s.core);
    match e
    case Create => AllocateGood(s.core, Open);
    case Subscribe(p, f, r) => ThenGood(s, p, f, r);
    case DoResolve(p, v, how) => ResolveGood(s, p, v, how);
    case DoReject(p, v) => SettleGood(s, p, v);
    case Gather(entries) => StartGatheringGood(s, entries);
    case CallResolve(g, v, how) => ClosuresGood(s, g, v, how);
    case CallReject(g, v) => ClosuresGood(s, g, v, NotCallable);
    case ThenReturns =>
  }

  /** Every step keeps the invariant and only moves forward. */
  lemma StepGood(s: State, e: Event)
    requires Inv(s.core)
    ensures Good(s.core, Step(s, e).core)
  {
    hide Inv, Extends, RejectAt, Complete, EngineTurn;
    Unchanged(s.core);
    match e
    case ThenThrows(x) =>
      if s.calls != [] && s.calls[|s.calls| - 1] < |s.guards| {
        SettleGood(s.(calls := s.calls[..|s.calls| - 1]), s.guards[s.calls[|s.calls| - 1]].promise, x);
      }
    case Return(v, how, again) =>
      if s.invoking.Some? {
        CompleteGood(s.(invoking := None), s.invoking.value.sub, true, v, how, again);
      }
    case Throw(x, how, again) =>
      if s.invoking.Some? && s.invoking.value.sub.owner < |s.core.promises| {
        var sub, t := s.invoking.value.sub, s.(invoking := None);
        SettleGood(t, sub.child, x);
        var u := RejectAt(t, sub.child, x);
        CompleteGood(u, sub, true, s.core.promises[sub.owner].data, how, again);
        GoodTrans(s.core, u.core, Complete(u, sub, true, s.core.promises[sub.owner].data, how, again).core);
      }
    case Tick(how, again) => EngineTurnGood(s, how, again);
    case _ => UserStepGood(s, e);
  }

  // ----- whole runs -----

  lemma StartIsSound()
    ensures Inv(Start.core)
  {}

  lemma RunStep(s: State, es: seq<Event>, e: Event)
    ensures Run(s, es + [e]) == Step(Run(s, es), e)
  {
    assert (es + [e])[..|es|] == es;
  }

  lemma {:induction false} RunAppend(s: State, es: seq<Event>, more: seq<Event>)
    ensures Run(s, es + more) == Run(Run(s, es), more)
    decreases |more|
  {
    hide Step;
    if more == [] {
      assert es + more == es;
    } else {
      RunAppend(s, es, more[..|more| - 1]);
      assert (es + more)[..|es + more| - 1] == es + more[..|more| - 1];
    }
  }

  lemma {:induction false} RunGood(s: State, es: seq<Event>)
    requires Inv(s.core)
    ensures Good(s.core, Run(s, es).core)
  {
    hide Inv, Extends, Step;
    if es == [] {
      Unchanged(s.core);
    } else {
      var most := Run(s, es[..|es| - 1]);
      RunGood(s, es[..|es| - 1]);
      StepGood(most, es[|es| - 1]);
      GoodTrans(s.core, most.core, Run(s, es).core);
    }
  }

  ghost predicate Reachable(s: State) {
    exists es :: s == Run(Start, es)
  }

  lemma ReachableIsSound(s: State)
    requires Reachable(s)
    ensures Inv(s.core)
  {
    var es :| s == Run(Start, es);
    StartIsSound();
    RunGood(Start, es);
  }

  /** A settled promise never settles again: over any continuation its data and outcome stay. */
  lemma SettlesOnce(s: State, es: seq<Event>, p: nat)
    requires Reachable(s) && p < |s.core.promises|
    ensures p < |Run(s, es).core.promises| && Later(s.core.promises[p], Run(s, es).core.promises[p])
  {
    ReachableIsSound(s);
    RunGood(s, es);
  }

  /** Of all tasks ever pushed, exactly one publishes p once p is no longer PENDING, and none before. */
  lemma PublishedByOneTask(s: State, p: nat)
    requires Reachable(s) && p < |s.core.promises|
    ensures Publishes(s.core.issued, p) == if s.core.promises[p].status == PENDING then 0 else 1
  {
    ReachableIsSound(s);
    assert Sound(ViewOf(s.core, p));
  }

  /**
   * The callbacks of p that have started, those its list still holds and those queued by late calls
   * of then are together, in this order, exactly the ones registered, in the order of the then calls.
   */
  lemma EverySubscriberInOnePlace(s: State, p: nat)
    requires Reachable(s) && p < |s.core.promises|
    ensures Controlled(s.core)
    ensures Owned(s.core.started, p) + Waiting(s.core, p) + Owned(Invoked(Rest(s.core)), p) == Owned(s.core.registered, p)
    ensures Ascending(Owned(s.core.registered, p))
  {
    ReachableIsSound(s);
    assert Sound(ViewOf(s.core, p));
    OwnedAscending(s.core.registered, p);
  }

  lemma {:induction false} OwnedAscending(subs: seq<Subscriber>, p: nat)
    requires Ascending(subs)
    ensures Ascending(Owned(subs, p)) && forall sub :: sub in Owned(subs, p) <==> sub in subs && sub.owner == p
  {
    if subs != [] {
      var n := |subs| - 1;
      OwnedAscending(subs[..n], p);
      assert subs == subs[..n] + [subs[n]];
    }
  }

  // ----- consequences -----

  lemma {:induction false} OwnedCounts(subs: seq<Subscriber>, sub: Subscriber)
    ensures multiset(Owned(subs, sub.owner))[sub] == multiset(subs)[sub]
  {
    if subs != [] {
      var n := |subs| - 1;
      OwnedCounts(subs[..n], sub);
      assert subs == subs[..n] + [subs[n]];
    }
  }

  lemma {:induction false} AscendingCountsOnce(subs: seq<Subscriber>, sub: Subscriber)
    requires Ascending(subs)
    ensures multiset(subs)[sub] <= 1
  {
    if subs != [] {
      var n := |subs| - 1;
      assert subs == subs[..n] + [subs[n]];
      AscendingCountsOnce(subs[..n], sub);
      if subs[n] == sub {
        assert sub !in subs[..n];
      }
    }
  }

  /** No callback is started twice. */
  lemma NoCallbackTwice(s: State, sub: Subscriber)
    requires Reachable(s)
    ensures multiset(s.core.started)[sub] <= 1
  {
    ReachableIsSound(s);
    StartedOnce(s.core, sub);
  }

  lemma StartedOnce(c: Core, sub: Subscriber)
    requires Inv(c)
    ensures multiset(c.started)[sub] <= 1
  {
    if sub in c.started {
      var p := sub.owner;
      assert KnownSub(|c.promises|, sub) && Sound(ViewOf(c, p));
      OwnedAscending(c.registered, p);
      var started, all := Owned(c.started, p), Owned(c.registered, p);
      assert started == all[..|started|];
      AscendingCountsOnce(started, sub);
      OwnedCounts(c.started, sub);
    }
  }

  /** Nothing is left of the queue and no publication is under way. */
  predicate Drained(c: Core) {
    c.pos == |c.queue| && c.publishing == None
  }

  /** No callback is lost: once the queue has drained, only callbacks of pending promises have not started. */
  lemma NoCallbackLost(s: State, sub: Subscriber)
    requires Reachable(s) && Drained(s.core) && sub in s.core.registered
    ensures sub.owner < |s.core.promises|
    ensures sub in s.core.started <==> s.core.promises[sub.owner].status != PENDING
    ensures s.core.promises[sub.owner].status == PENDING ==> sub in s.core.promises[sub.owner].list
  {
    ReachableIsSound(s);
    StartedIffPublished(s.core, sub);
  }

  lemma StartedIffPublished(c: Core, sub: Subscriber)
    requires Inv(c) && Drained(c) && sub in c.registered
    ensures sub.owner < |c.promises|
    ensures sub in c.started <==> c.promises[sub.owner].status != PENDING
    ensures c.promises[sub.owner].status == PENDING ==> sub in c.promises[sub.owner].list
    ensures c.promises[sub.owner].status != SETTLED
  {
    assert KnownSub(|c.promises|, sub);
    var p := sub.owner;
    assert Sound(ViewOf(c, p)) && Rest(c) == [];
    OwnedAscending(c.registered, p);
    OwnedMembers(c.started, sub);
    assert Owned(c.started, p) + c.promises[p].list == Owned(c.registered, p);
    assert sub in Owned(c.registered, p);
  }

  lemma {:induction false} OwnedMembers(subs: seq<Subscriber>, sub: Subscriber)
    ensures sub in Owned(subs, sub.owner) <==> sub in subs
  {
    OwnedCounts(subs, sub);
    assert sub in subs <==> multiset(subs)[sub] > 0;
    assert sub in Owned(subs, sub.owner) <==> multiset(Owned(subs, sub.owner))[sub] > 0;
  }

  /** The callbacks of one promise start in the order in which then was called for them. */
  lemma CallbacksStartInOrder(s: State, p: nat)
    requires Reachable(s) && p < |s.core.promises|
    ensures Owned(s.core.started, p) <= Owned(s.core.registered, p) && Ascending(Owned(s.core.started, p))
  {
    EverySubscriberInOnePlace(s, p);
    var started, all := Owned(s.core.started, p), Owned(s.core.registered, p);
    assert started == all[..|started|];
  }

  /** A task that waits always has a flush that is running or will be started by the timer. */
  lemma WaitingTaskHasFlush(s: State)
    requires Reachable(s) && s.core.pos < |s.core.queue|
    ensures s.core.flushing || (s.core.timer && s.core.pos == 0)
  {
    ReachableIsSound(s);
  }

  /** No later `then` touches the list that a running publication iterates over. */
  lemma ListIsStableWhileVisited(s: State, e: Event, p: nat)
    requires Reachable(s) && s.core.publishing.Some? && s.core.publishing.value.p == p
    ensures p < |s.core.promises| && IsPublished(s.core.promises[p])
    ensures var after := Step(s, e).core.promises;
      (p < |after| && (after[p].list == s.core.promises[p].list || (after[p].dropped && after[p].list == [])))
  {
    ReachableIsSound(s);
    assert Sound(ViewOf(s.core, p));
    StepGood(s, e);
  }

  // ----- callbacks are started by the flush only -----

  predicate Quiet(s: State, t: State) {
    t.core.started == s.core.started && t.core.flushing == s.core.flushing
  }

  lemma HandleThenableQuiet(s: State, p: nat, v: Value, how: Foreign)
    ensures Quiet(s, HandleThenable(s, p, v, how).0)
  {}

  lemma ResolveQuiet(s: State, p: nat, v: Value, how: Foreign)
    ensures Quiet(s, Resolve(s, p, v, how))
  {
    hide HandleThenable;
    HandleThenableQuiet(s, p, v, how);
  }

  lemma ClosuresQuiet(s: State, g: nat, v: Value, how: Foreign)
    ensures Quiet(s, CallAdopt(s, g, v, how)) && Quiet(s, CallRefuse(s, g, v))
  {
    hide Resolve;
    if g < |s.guards| {
      ResolveQuiet(s.(guards := s.guards[g := s.guards[g].(resolved := true)]), s.guards[g].promise, v, how);
    }
  }

  lemma CompleteQuiet(s: State, sub: Subscriber, fulfilled: bool, v: Value, how: Foreign, again: Foreign)
    ensures Quiet(s, Complete(s, sub, fulfilled, v, how, again))
  {
    hide HandleThenable, Resolve;
    HandleThenableQuiet(s, sub.child, v, how);
    ResolveQuiet(HandleThenable(s, sub.child, v, how).0, sub.child, v, again);
  }

  lemma {:induction false} GatherQuiet(s: State, a: nat, i: nat)
    requires a < |s.alls| && i <= |s.alls[a].entries| == |s.alls[a].results|
    ensures Quiet(s, GatherFrom(s, a, i))
    decreases |s.alls[a].entries| - i
  {
    hide GatherFrom, Resolve;
    var all := s.alls[a];
    GatherUnfold(s, a, i);
    if i == |all.entries| {
      ResolveQuiet(s, all.promise, Results(a), NotCallable);
    } else {
      match all.entries[i]
      case Given(v) => GatherQuiet(s.(alls := s.alls[a := all.(results := all.results[i := Some(v)])]), a, i + 1);
      case Awaited(p) =>
        GatherQuiet(ThenAt(s.(alls := s.alls[a := all.(remaining := all.remaining + 1)]), p, Item(a, i), Fail(a)), a, i + 1);
    }
  }

  /**
   * Section 2.2.4 of Promises/A+: a callback starts only in a turn of the flush, when no user code
   * is on the stack; in particular never inside the call of then that registered it.
   */
  lemma CallbacksStartInFlush(s: State, e: Event)
    requires Step(s, e).core.started != s.core.started
    ensures e.Tick? && s.core.flushing && s.calls == [] && s.invoking == None
  {
    hide Resolve, Complete, CallAdopt, CallRefuse, GatherFrom, InvokeCallback;
    match e
    case DoResolve(p, v, how) => ResolveQuiet(s, p, v, how);
    case Gather(entries) =>
      var all := Gathering(entries, seq(|entries|, _ => None), 0, |s.core.promises|);
      GatherQuiet(s.(core := Allocate(s.core, Collected), alls := s.alls + [all]), |s.alls|, 0);
    case CallResolve(g, v, how) => ClosuresQuiet(s, g, v, how);
    case CallReject(g, v) => ClosuresQuiet(s, g, v, NotCallable);
    case Return(v, how, again) =>
      if s.invoking.Some? {
        CompleteQuiet(s.(invoking := None), s.invoking.value.sub, true, v, how, again);
      }
    case Throw(x, how, again) =>
      if s.invoking.Some? && s.invoking.value.sub.owner < |s.core.promises| {
        var sub := s.invoking.value.sub;
        CompleteQuiet(RejectAt(s.(invoking := None), sub.child, x), sub, true, s.core.promises[sub.owner].data, how, again);
      }
    case Tick(how, again) =>
      if s.invoking.Some? {
        CompleteQuiet(s.(invoking := None), s.invoking.value.sub, true, Undefined, how, again);
      }
    case _ =>
  }
}
