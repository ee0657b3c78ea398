/** The queue is first in, first out: callbacks of all promises start in the order in which their tasks were pushed. */
module PromiseOrder {
  import opened Options
  import opened Sequences
  import opened Promises
  import opened PromiseMachine
  import opened PromiseSafety
  import opened PromiseOutcomes
  import opened PromiseAdoption

  // ----- places in the history of tasks -----

  function Index(tasks: seq<Task>, t: Task): nat {
    if tasks == [] || tasks[0] == t then 0 else 1 + Index(tasks[1..], t)
  }

  lemma {:induction false} IndexIs(tasks: seq<Task>, t: Task)
    ensures Index(tasks, t) <= |tasks|
    ensures t in tasks <==> Index(tasks, t) < |tasks|
    ensures t in tasks ==> tasks[Index(tasks, t)] == t
  {
    if tasks != [] && tasks[0] != t {
      IndexIs(tasks[1..], t);
    }
  }

  lemma {:induction false} IndexStays(a: seq<Task>, b: seq<Task>, t: Task)
    requires t in a && a <= b
    ensures Index(b, t) == Index(a, t)
  {
    if a[0] != t {
      IndexStays(a[1..], b[1..], t);
    }
  }

  lemma PlaceOf(tasks: seq<Task>, i: nat)
    requires AllDistinct(tasks) && i < |tasks|
    ensures Index(tasks, tasks[i]) == i
  {
    IndexIs(tasks, tasks[i]);
    hide Index;
  }

  /** The task in whose turn a subscriber's callback starts: its own, if then was called late, or the publication of its owner. */
  function Carrier(issued: seq<Task>, sub: Subscriber): Task {
    if Invoke(sub) in issued then Invoke(sub)
    else if PublishFulfillment(sub.owner) in issued then PublishFulfillment(sub.owner)
    else PublishRejection(sub.owner)
  }

  function Rank(issued: seq<Task>, sub: Subscriber): nat {
    Index(issued, Carrier(issued, sub))
  }

  // ----- what user calls and callbacks do to the queue -----

  ghost predicate ListsApart(c: Core) {
    forall p, i :: 0 <= p < |c.promises| && 0 <= i < |c.promises[p].list| ==> Invoke(c.promises[p].list[i]) !in c.issued
  }

  ghost predicate OwnersPublished(c: Core) {
    forall i :: 0 <= i < |c.issued| && c.issued[i].Invoke? ==>
      c.issued[i].sub.owner < |c.promises| && IsPublished(c.promises[c.issued[i].sub.owner])
  }

  ghost predicate ByAge(tasks: seq<Task>) {
    forall i, j :: 0 <= i < j < |tasks| && tasks[i].Invoke? && tasks[j].Invoke? ==> tasks[i].sub.child < tasks[j].sub.child
  }

  /** No task is pushed twice; a subscriber with a task of its own is in no list, its owner is published, and such tasks come by age. */
  ghost predicate Apart(c: Core) {
    AllDistinct(c.issued) && ListsApart(c) && OwnersPublished(c) && ByAge(c.issued)
  }

  /** From c to d tasks were pushed at the end, those that call a subscriber about new ones, and nothing was published. */
  ghost predicate OnlyPushes(c: Core, d: Core) {
    && c.issued <= d.issued && d.queue == c.queue + d.issued[|c.issued|..]
    && d.pos == c.pos && d.started == c.started && d.publishing == c.publishing
    && |c.promises| <= |d.promises| && Apart(d)
    && (forall i :: |c.issued| <= i < |d.issued| && d.issued[i].Invoke? ==> d.issued[i].sub.child >= |c.promises|)
    && (forall p :: 0 <= p < |c.promises| && IsPublished(d.promises[p]) ==> IsPublished(c.promises[p]))
  }

  ghost predicate AllsStay(s: State, t: State) {
    |s.alls| <= |t.alls| &&
    forall a :: 0 <= a < |s.alls| ==> t.alls[a].entries == s.alls[a].entries && t.alls[a].promise == s.alls[a].promise
  }

  ghost predicate Pushes(s: State, t: State) {
    OnlyPushes(s.core, t.core) && AllsStay(s, t)
  }

  lemma Suffixes(a: seq<Task>, b: seq<Task>, c: seq<Task>)
    requires a <= b <= c
    ensures b[|a|..] + c[|b|..] == c[|a|..]
  {}

  lemma PushedTrans(c: Core, d: Core, e: Core)
    requires OnlyPushes(c, d) && OnlyPushes(d, e)
    ensures OnlyPushes(c, e)
  {
    Suffixes(c.issued, d.issued, e.issued);
    hide Apart;
    assert c.queue + d.issued[|c.issued|..] + e.issued[|d.issued|..] == c.queue + (d.issued[|c.issued|..] + e.issued[|d.issued|..]);
  }

  lemma PushesTrans(s: State, t: State, u: State)
    requires Pushes(s, t) && Pushes(t, u)
    ensures Pushes(s, u)
  {
    PushedTrans(s.core, t.core, u.core);
    hide OnlyPushes;
  }

  lemma NoPush(c: Core)
    requires Apart(c)
    ensures OnlyPushes(c, c)
  {
    assert c.issued[|c.issued|..] == [] && c.queue + [] == c.queue;
    hide Apart;
  }

  /** Nothing the queue depends on changes. */
  lemma SameQueue(s: State, t: State)
    requires Apart(s.core) && t.core == s.core && AllsStay(s, t)
    ensures Pushes(s, t)
  {
    NoPush(s.core);
    hide Apart;
  }

  lemma OnePushed(c: Core, d: Core, t: Task)
    requires d.issued == c.issued + [t] && d.queue == c.queue + [t] && d.pos == c.pos && d.started == c.started
    requires d.publishing == c.publishing && |c.promises| <= |d.promises| && Apart(d)
    requires t.Invoke? ==> t.sub.child >= |c.promises|
    requires forall p :: 0 <= p < |c.promises| && IsPublished(d.promises[p]) ==> IsPublished(c.promises[p])
    ensures OnlyPushes(c, d)
  {
    assert d.issued[|c.issued|..] == [t];
    hide Apart;
  }

  lemma DistinctPush(tasks: seq<Task>, t: Task)
    requires AllDistinct(tasks) && t !in tasks
    ensures AllDistinct(tasks + [t])
  {}

  lemma SettlePushed(c: Core, p: nat, v: Value, t: Task)
    requires Inv(c) && Apart(c) && p < |c.promises| && (t == PublishFulfillment(p) || t == PublishRejection(p))
    ensures OnlyPushes(c, Settle(c, p, v, t))
  {
    NoPush(c);
    if c.promises[p].status == PENDING {
      IssuedOnce(c, p);
      DistinctPush(c.issued, t);
      var d := Settle(c, p, v, t);
      hide Inv, AllDistinct;
      assert Apart(d);
      OnePushed(c, d, t);
    }
  }

  lemma SettlePushes(s: State, p: nat, v: Value)
    requires Inv(s.core) && Apart(s.core)
    ensures Pushes(s, FulfillAt(s, p, v)) && Pushes(s, RejectAt(s, p, v))
  {
    SameQueue(s, s);
    if p < |s.core.promises| {
      SettlePushed(s.core, p, v, PublishFulfillment(p));
      SettlePushed(s.core, p, v, PublishRejection(p));
    }
    hide Inv, Apart, OnlyPushes, Settle;
  }

  lemma AllocatePushed(c: Core, origin: Origin)
    requires Apart(c)
    ensures OnlyPushes(c, Allocate(c, origin))
  {
    assert c.issued[|c.issued|..] == [] && c.queue + [] == c.queue;
  }

  /** A new subscriber is not in the history yet. */
  lemma NewSub(c: Core, sub: Subscriber)
    requires Inv(c) && sub.child == |c.promises|
    ensures Invoke(sub) !in c.issued
    ensures forall i :: 0 <= i < |c.issued| && c.issued[i].Invoke? ==> c.issued[i].sub.child < sub.child
    ensures forall p, i :: 0 <= p < |c.promises| && 0 <= i < |c.promises[p].list| ==> c.promises[p].list[i] != sub
  {}

  lemma LateThenApart(c: Core, sub: Subscriber, d: Core)
    requires Apart(c) && Invoke(sub) !in c.issued && d.issued == c.issued + [Invoke(sub)]
    requires forall i :: 0 <= i < |c.issued| && c.issued[i].Invoke? ==> c.issued[i].sub.child < sub.child
    requires forall p, i :: 0 <= p < |c.promises| && 0 <= i < |c.promises[p].list| ==> c.promises[p].list[i] != sub
    requires sub.owner < |c.promises| && IsPublished(c.promises[sub.owner])
    requires d.promises == c.promises + [NewPromise]
    ensures Apart(d)
  {
    DistinctPush(c.issued, Invoke(sub));
    hide AllDistinct;
    assert ListsApart(d) by { hide ByAge, OwnersPublished; }
    assert OwnersPublished(d) by { hide ByAge, ListsApart; }
    assert ByAge(d.issued) by { hide OwnersPublished, ListsApart; }
  }

  lemma ListedThenApart(c: Core, sub: Subscriber, d: Core)
    requires Apart(c) && Invoke(sub) !in c.issued && d.issued == c.issued && sub.owner < |c.promises|
    requires d.promises == (c.promises + [NewPromise])[sub.owner := c.promises[sub.owner].(list := c.promises[sub.owner].list + [sub])]
    ensures Apart(d)
  {
    hide AllDistinct, ByAge;
    assert ListsApart(d) by { hide OwnersPublished; }
    assert OwnersPublished(d) by { hide ListsApart; }
  }

  lemma ThenPushed(c: Core, p: nat, f: Handler, r: Handler)
    requires Inv(c) && Apart(c) && p < |c.promises|
    ensures OnlyPushes(c, Then(c, p, f, r))
  {
    var sub, d := Subscriber(p, |c.promises|, f, r), Then(c, p, f, r);
    NewSub(c, sub);
    hide Inv, Apart;
    if Published(c, p) {
      LateThenApart(c, sub, d);
      OnePushed(c, d, Invoke(sub));
    } else {
      ListedThenApart(c, sub, d);
      assert c.issued[|c.issued|..] == [] && c.queue + [] == c.queue;
    }
  }

  lemma ThenPushes(s: State, p: nat, f: Handler, r: Handler)
    requires Inv(s.core) && Apart(s.core)
    ensures Pushes(s, ThenAt(s, p, f, r))
  {
    SameQueue(s, s);
    if p < |s.core.promises| {
      ThenPushed(s.core, p, f, r);
    }
    hide Inv, Apart, OnlyPushes, Then;
  }

  lemma HandleThenablePushes(s: State, p: nat, v: Value, how: Foreign)
    requires Inv(s.core) && Apart(s.core)
    ensures Pushes(s, HandleThenable(s, p, v, how).0)
  {
    hide Inv, Apart, OnlyPushes, RejectAt, ThenAt;
    var g, guard := |s.guards|, Guard(p, v, false);
    SameQueue(s, s);
    SettlePushes(s, p, TypeError);
    if how.GetterThrows? {
      SettlePushes(s, p, how.e);
    }
    if v.PromiseRef? {
      ThenPushes(s.(guards := s.guards + [guard]), v.p, Adopt(g), Refuse(g));
    }
  }

  /** What a composite function needs of the state after its first part. */
  lemma StillApart(s: State, t: State)
    requires Pushes(s, t) && Good(s.core, t.core)
    ensures Inv(t.core) && Apart(t.core)
  {
    hide Inv, Apart;
  }

  lemma ResolvePushes(s: State, p: nat, v: Value, how: Foreign)
    requires Inv(s.core) && Apart(s.core)
    ensures Pushes(s, Resolve(s, p, v, how))
  {
    hide Inv, Apart, Pushes, Good, HandleThenable, FulfillAt;
    SettlePushes(s, p, v);
    var t := HandleThenable(s, p, v, how).0;
    HandleThenablePushes(s, p, v, how);
    HandleThenableGood(s, p, v, how);
    StillApart(s, t);
    SettlePushes(t, p, v);
    PushesTrans(s, t, FulfillAt(t, p, v));
  }

  lemma ClosuresPush(s: State, g: nat, v: Value, how: Foreign)
    requires Inv(s.core) && Apart(s.core)
    ensures Pushes(s, CallAdopt(s, g, v, how)) && Pushes(s, CallRefuse(s, g, v))
  {
    hide Inv, Apart, OnlyPushes, Resolve, FulfillAt, RejectAt;
    SameQueue(s, s);
    if g < |s.guards| {
      var t := s.(guards := s.guards[g := s.guards[g].(resolved := true)]);
      SettlePushes(t, s.guards[g].promise, v);
      ResolvePushes(t, s.guards[g].promise, v, how);
    }
  }

  lemma CompletePushes(s: State, sub: Subscriber, fulfilled: bool, v: Value, how: Foreign, again: Foreign)
    requires Inv(s.core) && Apart(s.core)
    ensures Pushes(s, Complete(s, sub, fulfilled, v, how, again))
  {
    hide Inv, Apart, Pushes, Good, HandleThenable, Resolve, RejectAt;
    var t := HandleThenable(s, sub.child, v, how).0;
    HandleThenablePushes(s, sub.child, v, how);
    HandleThenableGood(s, sub.child, v, how);
    StillApart(s, t);
    ResolvePushes(t, sub.child, v, again);
    SettlePushes(t, sub.child, v);
    PushesTrans(s, t, Resolve(t, sub.child, v, again));
    PushesTrans(s, t, RejectAt(t, sub.child, v));
  }

  lemma ItemPushes(s: State, a: nat, i: nat, v: Value)
    requires Inv(s.core) && Apart(s.core)
    ensures Pushes(s, CallItem(s, a, i, v)) && Pushes(s, CallFail(s, a, v))
  {
    hide Inv, Apart, OnlyPushes, Resolve, RejectAt;
    SameQueue(s, s);
    if a < |s.alls| {
      SettlePushes(s, s.alls[a].promise, v);
      if i < |s.alls[a].results| {
        var all := s.alls[a].(results := s.alls[a].results[i := Some(v)], remaining := s.alls[a].remaining - 1);
        var t := s.(alls := s.alls[a := all]);
        SameQueue(s, t);
        ResolvePushes(t, all.promise, Results(a), NotCallable);
        PushesTrans(s, t, Resolve(t, all.promise, Results(a), NotCallable));
      }
    }
    hide Pushes;
  }

  lemma InvokePushes(s: State, sub: Subscriber, how: Foreign, again: Foreign)
    requires Inv(s.core) && Apart(s.core)
    ensures Pushes(s, InvokeCallback(s, sub, how, again))
  {
    hide Inv, Apart, OnlyPushes, Complete, CallAdopt, CallRefuse, CallItem, CallFail;
    SameQueue(s, s);
    if sub.owner < |s.core.promises| {
      var owner, running := s.core.promises[sub.owner], s.(invoking := Some(Invocation(sub, true)));
      CompletePushes(s, sub, owner.status == FULFILLED, owner.data, how, again);
      match if owner.status == FULFILLED then sub.fulfilled else sub.rejected
      case Adopt(g) => ClosuresPush(running, g, owner.data, how);
      case Refuse(g) => ClosuresPush(running, g, owner.data, how);
      case Item(a, i) => ItemPushes(running, a, i, owner.data);
      case Fail(a) => ItemPushes(running, a, 0, owner.data);
      case _ =>
    }
  }

  lemma {:induction false} GatherPushes(s: State, a: nat, i: nat)
    requires Inv(s.core) && Apart(s.core) && a < |s.alls| && i <= |s.alls[a].entries| == |s.alls[a].results|
    ensures Pushes(s, GatherFrom(s, a, i))
    decreases |s.alls[a].entries| - i
  {
    hide Inv, Apart, OnlyPushes, Good, GatherFrom, Resolve, ThenAt;
    var all := s.alls[a];
    SameQueue(s, s);
    GatherUnfold(s, a, i);
    if i == |all.entries| {
      ResolvePushes(s, all.promise, Results(a), NotCallable);
    } else {
      match all.entries[i]
      case Given(v) =>
        var t := s.(alls := s.alls[a := all.(results := all.results[i := Some(v)])]);
        SameQueue(s, t);
        GatherPushes(t, a, i + 1);
        PushesTrans(s, t, GatherFrom(t, a, i + 1));
      case Awaited(p) =>
        var t := s.(alls := s.alls[a := all.(remaining := all.remaining + 1)]);
        var u := ThenAt(t, p, Item(a, i), Fail(a));
        SameQueue(s, t);
        ThenPushes(t, p, Item(a, i), Fail(a));
        ThenGood(t, p, Item(a, i), Fail(a));
        StillApart(t, u);
        ThenKeepsRest(t, p, Item(a, i), Fail(a));
        GatherPushes(u, a, i + 1);
        PushesTrans(s, t, u);
        PushesTrans(s, u, GatherFrom(u, a, i + 1));
    }
    hide Pushes;
  }

  /** Every step that is no turn of the flush only pushes. */
  lemma UserStepPushes(s: State, e: Event)
    requires Inv(s.core) && Apart(s.core) && !e.Tick?
    ensures Pushes(s, Step(s, e))
  {
    hide Inv, Apart, OnlyPushes, Good, Resolve, RejectAt, ThenAt, CallAdopt, CallRefuse, GatherFrom, Complete, Allocate;
    SameQueue(s, s);
    match e
    case Create => AllocatePushed(s.core, Open);
    case Subscribe(p, f, r) => ThenPushes(s, p, f, r);
    case DoResolve(p, v, how) => ResolvePushes(s, p, v, how);
    case DoReject(p, v) => SettlePushes(s, p, v);
    case Gather(entries) => StartGatheringPushes(s, entries);
    case CallResolve(g, v, how) => ClosuresPush(s, g, v, how);
    case CallReject(g, v) => ClosuresPush(s, g, v, NotCallable);
    case ThenReturns => SameQueue(s, Step(s, e));
    case ThenThrows(x) =>
      if s.calls != [] {
        var g, t := s.calls[|s.calls| - 1], s.(calls := s.calls[..|s.calls| - 1]);
        if g < |s.guards| {
          SettlePushes(t, s.guards[g].promise, x);
        }
      }
    case Return(v, how, again) =>
      if s.invoking.Some? {
        CompletePushes(s.(invoking := None), s.invoking.value.sub, true, v, how, again);
      }
    case Throw(x, how, again) =>
      if s.invoking.Some? && s.invoking.value.sub.owner < |s.core.promises| {
        ThrowPushes(s, s.invoking.value.sub, x, how, again);
      }
  }

  lemma StartGatheringPushes(s: State, entries: seq<Entry>)
    requires Inv(s.core) && Apart(s.core)
    ensures Pushes(s, StartGathering(s, entries))
  {
    hide Inv, Apart, OnlyPushes, Good, GatherFrom, Allocate;
    var all := Gathering(entries, seq(|entries|, _ => None), 0, |s.core.promises|);
    var t := s.(core := Allocate(s.core, Collected), alls := s.alls + [all]);
    AllocatePushed(s.core, Collected);
    AllocateGood(s.core, Collected);
    StillApart(s, t);
    GatherPushes(t, |s.alls|, 0);
    PushesTrans(s, t, GatherFrom(t, |s.alls|, 0));
  }

  lemma ThrowPushes(s: State, sub: Subscriber, x: Value, how: Foreign, again: Foreign)
    requires Inv(s.core) && Apart(s.core) && sub.owner < |s.core.promises|
    ensures var u := RejectAt(s.(invoking := None), sub.child, x);
      Pushes(s, Complete(u, sub, true, s.core.promises[sub.owner].data, how, again))
  {
    hide Inv, Apart, OnlyPushes, Good, RejectAt, Complete;
    var t := s.(invoking := None);
    var u := RejectAt(t, sub.child, x);
    SameQueue(s, t);
    SettlePushes(t, sub.child, x);
    SettleGood(t, sub.child, x);
    StillApart(t, u);
    CompletePushes(u, sub, true, s.core.promises[sub.owner].data, how, again);
    PushesTrans(s, t, u);
    PushesTrans(s, u, Complete(u, sub, true, s.core.promises[sub.owner].data, how, again));
  }

  // ----- first in, first out -----

  /** How many of the tasks ever pushed the flush has taken. */
  function Done(c: Core): int {
    |c.issued| - (|c.queue| - c.pos)
  }

  /** What is left of the queue are the last tasks pushed, in order. */
  ghost predicate Fifo(c: Core) {
    c.pos <= |c.queue| && Done(c) >= 0 && c.issued[Done(c)..] == c.queue[c.pos..]
  }

  /** A publication under way is the task taken last. */
  ghost predicate LastTaken(c: Core)
    requires 0 <= Done(c) <= |c.issued|
  {
    c.publishing.Some? ==> Done(c) > 0 && !c.issued[Done(c) - 1].Invoke? && c.issued[Done(c) - 1].p == c.publishing.value.p
  }

  /** Callbacks have started in the order of their tasks, all of which have been taken. */
  ghost predicate Ranked(c: Core) {
    && (forall k :: 0 <= k < |c.started| ==> Rank(c.issued, c.started[k]) < Done(c))
    && (forall j, k :: 0 <= j < k < |c.started| ==> Rank(c.issued, c.started[j]) <= Rank(c.issued, c.started[k]))
  }

  ghost predicate Ordered(c: Core) {
    Apart(c) && Fifo(c) && LastTaken(c) && Ranked(c)
  }

  lemma CarrierStays(c: Core, d: Core, sub: Subscriber)
    requires KnownSub(|c.promises|, sub) && OnlyPushes(c, d) && Inv(d) && Carrier(c.issued, sub) in c.issued
    ensures Rank(d.issued, sub) == Rank(c.issued, sub)
  {
    var t := Carrier(c.issued, sub);
    assert t in d.issued;
    IssuedOnce(d, sub.owner);
    hide Inv, Apart;
    IndexStays(c.issued, d.issued, t);
  }

  lemma StartedStays(c: Core, d: Core, k: nat)
    requires Inv(c) && Ordered(c) && OnlyPushes(c, d) && Inv(d) && k < |c.started|
    ensures Rank(d.issued, c.started[k]) == Rank(c.issued, c.started[k])
  {
    IndexIs(c.issued, Carrier(c.issued, c.started[k]));
    assert KnownSub(|c.promises|, c.started[k]);
    hide Inv, Apart, Index, Carrier;
    CarrierStays(c, d, c.started[k]);
  }

  lemma PushedFifo(c: Core, d: Core)
    requires Fifo(c) && LastTaken(c) && OnlyPushes(c, d)
    ensures Fifo(d) && LastTaken(d) && Done(d) == Done(c)
  {
    hide Apart;
    var more := d.issued[|c.issued|..];
    assert d.issued == c.issued + more;
    assert d.issued[Done(c)..] == c.issued[Done(c)..] + more;
    assert d.queue[c.pos..] == c.queue[c.pos..] + more;
  }

  lemma PushedOrdered(c: Core, d: Core)
    requires Inv(c) && Ordered(c) && OnlyPushes(c, d) && Inv(d)
    ensures Ordered(d)
  {
    PushedFifo(c, d);
    forall k | 0 <= k < |c.started| ensures Rank(d.issued, c.started[k]) == Rank(c.issued, c.started[k]) {
      StartedStays(c, d, k);
    }
    hide Inv, Apart, Rank, Fifo, LastTaken, Done;
  }

  lemma TaskTaken(c: Core)
    requires Fifo(c) && c.pos < |c.queue|
    ensures Done(c) < |c.issued| && c.issued[Done(c)] == c.queue[c.pos] && c.issued[Done(c) + 1..] == c.queue[c.pos + 1..]
  {
    assert c.issued[Done(c)..][0] == c.queue[c.pos..][0];
    assert c.issued[Done(c)..][1..] == c.issued[Done(c) + 1..] && c.queue[c.pos..][1..] == c.queue[c.pos + 1..];
  }

  lemma FlushOrdered(c: Core)
    requires Ordered(c) && c.publishing == None
    ensures Ordered(StartFlush(c)) && (c.pos == |c.queue| ==> Ordered(EndFlush(c)))
  {
    StartFlushOrdered(c);
    if c.pos == |c.queue| {
      EndFlushOrdered(c);
    }
    hide Ordered, StartFlush, EndFlush;
  }

  lemma StartFlushOrdered(c: Core)
    requires Ordered(c)
    ensures Ordered(StartFlush(c))
  {
    var d := StartFlush(c);
    hide Rank, AllDistinct, ByAge, ListsApart, OwnersPublished;
    SameApart(c, d);
    hide Apart;
  }

  lemma EndFlushOrdered(c: Core)
    requires Ordered(c) && c.publishing == None && c.pos == |c.queue|
    ensures Ordered(EndFlush(c))
  {
    var d := EndFlush(c);
    hide Rank, AllDistinct, ByAge, ListsApart, OwnersPublished;
    SameApart(c, d);
    assert Done(d) == Done(c) == |c.issued|;
    assert d.issued[Done(d)..] == [] == d.queue[d.pos..];
    hide Apart;
  }

  lemma SameApart(c: Core, d: Core)
    requires Apart(c) && d.issued == c.issued && d.promises == c.promises
    ensures Apart(d)
  {
    hide AllDistinct, ByAge;
  }

  lemma BeginPublishOrdered(c: Core)
    requires Ordered(c) && Ready(c) && !c.queue[c.pos].Invoke? && c.queue[c.pos].p < |c.promises|
    ensures Ordered(BeginPublish(c))
  {
    TaskTaken(c);
    hide Rank, AllDistinct;
  }

  lemma EndPublishOrdered(c: Core)
    requires Ordered(c) && c.publishing.Some? && c.publishing.value.p < |c.promises|
    ensures Ordered(EndPublish(c))
  {
    hide Rank, AllDistinct;
  }

  lemma StartedNext(c: Core, d: Core, sub: Subscriber)
    requires Ranked(c) && d.issued == c.issued && d.started == c.started + [sub]
    requires Done(c) <= Done(d) && Rank(c.issued, sub) == Done(d) - 1 && (Done(d) == Done(c) || Done(d) == Done(c) + 1)
    ensures Ranked(d)
  {
    hide Rank;
  }

  lemma VisitedRank(c: Core)
    requires Inv(c) && Ordered(c) && c.publishing.Some? && c.publishing.value.p < |c.promises|
    requires c.publishing.value.next < |c.promises[c.publishing.value.p].list|
    ensures Rank(c.issued, c.promises[c.publishing.value.p].list[c.publishing.value.next]) == Done(c) - 1
  {
    var p := c.publishing.value.p;
    var sub := c.promises[p].list[c.publishing.value.next];
    assert sub.owner == p && Invoke(sub) !in c.issued;
    IssuedOnce(c, p);
    assert c.issued[Done(c) - 1] in c.issued;
    hide Inv, Ranked, Fifo;
    assert Carrier(c.issued, sub) == c.issued[Done(c) - 1];
    PlaceOf(c.issued, Done(c) - 1);
  }

  lemma VisitOrdered(c: Core)
    requires Inv(c) && Ordered(c) && c.publishing.Some? && c.publishing.value.p < |c.promises|
    requires c.publishing.value.next < |c.promises[c.publishing.value.p].list|
    ensures Ordered(VisitNext(c))
  {
    VisitedRank(c);
    StartedNext(c, VisitNext(c), c.promises[c.publishing.value.p].list[c.publishing.value.next]);
    hide Inv, Ranked, Rank, AllDistinct;
  }

  lemma InvokeOrdered(c: Core)
    requires Ordered(c) && Ready(c) && c.queue[c.pos].Invoke?
    ensures Ordered(BeginInvoke(c))
  {
    TaskTaken(c);
    PlaceOf(c.issued, Done(c));
    var sub := c.queue[c.pos].sub;
    assert c.issued[Done(c)] in c.issued;
    assert Carrier(c.issued, sub) == c.issued[Done(c)];
    StartedNext(c, BeginInvoke(c), sub);
    hide Ranked, Index, AllDistinct;
  }

  lemma PickedOrdered(s: State)
    requires Inv(s.core) && Ordered(s.core) && s.core.flushing && NextCallback(s.core).Some?
    ensures Ordered(NextCallback(s.core).value.0)
  {
    var c := s.core;
    if c.publishing.Some? {
      VisitOrdered(c);
    } else {
      InvokeOrdered(c);
    }
    hide Inv, Ordered;
  }

  lemma QuietTurnOrdered(s: State, how: Foreign, again: Foreign)
    requires Inv(s.core) && Ordered(s.core) && s.calls == [] && s.invoking == None
    requires s.core.flushing ==> NextCallback(s.core) == None
    ensures Ordered(EngineTurn(s, how, again).core)
  {
    var c := s.core;
    assert Controlled(c);
    hide Inv, Ordered, InvokeCallback, Complete;
    if !c.flushing {
      FlushOrdered(c);
    } else if c.publishing.Some? {
      EndPublishOrdered(c);
    } else if c.pos >= |c.queue| {
      FlushOrdered(c);
    } else if c.queue[c.pos].p < |c.promises| {
      BeginPublishOrdered(c);
    }
  }

  lemma TurnOrdered(s: State, how: Foreign, again: Foreign)
    requires Whole(s) && Ordered(s.core)
    ensures Ordered(EngineTurn(s, how, again).core)
  {
    assert Inv(s.core);
    EngineTurnGood(s, how, again);
    hide Inv, Whole, Ranked, Fifo, LastTaken, OnlyPushes, InvokeCallback, Complete;
    if s.calls == [] && s.invoking.Some? {
      CompletePushes(s.(invoking := None), s.invoking.value.sub, true, Undefined, how, again);
      if s.invoking.value.internal {
        PushedOrdered(s.core, EngineTurn(s, how, again).core);
      }
    } else if s.calls == [] && s.core.flushing && NextCallback(s.core).Some? {
      TurnOfCallback(s, how, again);
      NextIsPicked(s);
      PickedOrdered(s);
      hide EngineTurn;
      var (d, sub) := NextCallback(s.core).value;
      InvokePushes(s.(core := d), sub, how, again);
      PushedOrdered(d, EngineTurn(s, how, again).core);
    } else if s.calls == [] {
      QuietTurnOrdered(s, how, again);
    }
  }

  lemma StepOrdered(s: State, e: Event)
    requires Whole(s) && Ordered(s.core)
    ensures Ordered(Step(s, e).core)
  {
    assert Inv(s.core);
    StepGood(s, e);
    hide Whole, Step, EngineTurn, Inv, Ranked, Fifo, LastTaken, OnlyPushes;
    if e.Tick? {
      TickIsTurn(s, e);
      TurnOrdered(s, e.how, e.again);
    } else {
      UserStepPushes(s, e);
      PushedOrdered(s.core, Step(s, e).core);
    }
  }

  lemma {:induction false} RunOrdered(s: State, es: seq<Event>)
    requires Whole(s) && Ordered(s.core)
    ensures Whole(Run(s, es)) && Ordered(Run(s, es).core)
  {
    hide Whole, Ordered, Step;
    if es != [] {
      RunOrdered(s, es[..|es| - 1]);
      StepWhole(Run(s, es[..|es| - 1]), es[|es| - 1]);
      StepOrdered(Run(s, es[..|es| - 1]), es[|es| - 1]);
    }
  }

  lemma ReachableIsOrdered(s: State)
    requires Reachable(s)
    ensures Whole(s) && Ordered(s.core)
  {
    var es :| s == Run(Start, es);
    StartTakesOver();
    RunOrdered(Start, es);
  }

  /**
   * In every run, over all promises: tasks are taken in the order in which they were pushed, and
   * callbacks start in the order of the tasks that start them.
   */
  lemma CallbacksFollowTasks(s: State)
    requires Reachable(s)
    ensures Fifo(s.core) && AllDistinct(s.core.issued) && Ranked(s.core)
  {
    ReachableIsOrdered(s);
  }
}
