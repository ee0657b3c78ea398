/** With which reason P.all rejects: that of the rejected entry whose task was pushed first. */
module PromiseRejections {
  import opened Options
  import opened Sequences
  import opened Promises
  import opened PromiseMachine
  import opened PromiseSafety
  import opened PromiseOutcomes
  import opened PromiseAdoption
  import opened PromiseOrder

  // ----- callbacks that have not started yet come later -----

  lemma {:induction false} InvokedIn(tasks: seq<Task>, sub: Subscriber)
    requires sub in Invoked(tasks)
    ensures Invoke(sub) in tasks
  {
    if !(tasks[0].Invoke? && tasks[0].sub == sub) {
      InvokedIn(tasks[1..], sub);
    }
  }

  lemma {:induction false} PublishesIn(tasks: seq<Task>, p: nat)
    requires Publishes(tasks, p) > 0
    ensures PublishFulfillment(p) in tasks || PublishRejection(p) in tasks
  {
    if tasks[0].Invoke? || tasks[0].p != p {
      PublishesIn(tasks[1..], p);
    }
  }

  lemma InRest(c: Core, t: Task)
    requires Fifo(c) && AllDistinct(c.issued) && t in Rest(c)
    ensures t in c.issued && Index(c.issued, t) >= Done(c)
  {
    var i :| 0 <= i < |Rest(c)| && Rest(c)[i] == t;
    assert c.issued[Done(c)..][i] == t;
    PlaceOf(c.issued, Done(c) + i);
  }

  /** A registered callback that has not started waits in its owner's list or in the queue. */
  lemma WhereItWaits(c: Core, sub: Subscriber)
    requires Inv(c) && sub in c.registered && sub !in c.started
    ensures sub.owner < |c.promises| && (sub in Waiting(c, sub.owner) || sub in Invoked(Rest(c)))
  {
    assert KnownSub(|c.promises|, sub);
    var p := sub.owner;
    assert Sound(ViewOf(c, p));
    OwnedMembers(c.registered, sub);
    OwnedMembers(c.started, sub);
    OwnedMembers(Invoked(Rest(c)), sub);
    assert sub in Owned(c.started, p) + Waiting(c, p) + Owned(Invoked(Rest(c)), p);
  }

  lemma WaitingIsListed(c: Core, sub: Subscriber)
    requires Inv(c) && Ordered(c) && sub.owner < |c.promises| && sub in Waiting(c, sub.owner)
    ensures Invoke(sub) !in c.issued && sub in c.promises[sub.owner].list
    ensures IsPublished(c.promises[sub.owner]) ==> c.publishing.Some? && c.publishing.value.p == sub.owner
  {
    var p := sub.owner;
    assert Sound(ViewOf(c, p));
    var i :| 0 <= i < |c.promises[p].list| && c.promises[p].list[i] == sub;
    assert Invoke(c.promises[p].list[i]) !in c.issued;
  }

  /** Its task, once pushed, comes no earlier than the one taken last. */
  lemma NotStartedRank(c: Core, sub: Subscriber)
    requires Inv(c) && Ordered(c) && sub in c.registered && sub !in c.started
    requires Carrier(c.issued, sub) in c.issued
    ensures Rank(c.issued, sub) >= Done(c) - 1
  {
    WhereItWaits(c, sub);
    var p := sub.owner;
    if sub in Waiting(c, p) {
      WaitingIsListed(c, sub);
      IssuedOnce(c, p);
      if IsPublished(c.promises[p]) {
        assert c.issued[Done(c) - 1] in c.issued;
        PlaceOf(c.issued, Done(c) - 1);
      } else {
        SettledInRest(c, p);
        InRest(c, Carrier(c.issued, sub));
      }
    } else {
      InvokedIn(Rest(c), sub);
      InRest(c, Invoke(sub));
    }
    hide Inv, Ranked, Index, Waiting;
  }

  lemma SettledInRest(c: Core, p: nat)
    requires Inv(c) && Ordered(c) && p < |c.promises| && c.promises[p].status != PENDING && !IsPublished(c.promises[p])
    ensures PublishFulfillment(p) in c.issued ==> PublishFulfillment(p) in Rest(c)
    ensures PublishRejection(p) in c.issued ==> PublishRejection(p) in Rest(c)
  {
    assert Sound(ViewOf(c, p));
    PublishesIn(Rest(c), p);
    IssuedOnce(c, p);
    assert forall t :: t in Rest(c) ==> t in c.issued[Done(c)..];
    hide Ranked;
  }

  // ----- the first rejection -----

  /** sub belongs to gathering a and its owner's rejection has been pushed. */
  predicate Rejecting(c: Core, sub: Subscriber, a: nat) {
    sub.rejected == Fail(a) && PublishRejection(sub.owner) in c.issued
  }

  lemma {:induction false} RefusedFirst(subs: seq<Subscriber>, ps: seq<Promise>, a: nat) returns (k: nat)
    requires Refused(subs, ps, a).Some?
    ensures k < |subs| && subs[k].rejected == Fail(a) && subs[k].owner < |ps| && ps[subs[k].owner].status == REJECTED
    ensures Refused(subs, ps, a).value == ps[subs[k].owner].data
    ensures forall j :: 0 <= j < k ==>
      !(subs[j].rejected == Fail(a) && subs[j].owner < |ps| && ps[subs[j].owner].status == REJECTED)
  {
    var n := |subs| - 1;
    if Refused(subs[..n], ps, a).Some? {
      k := RefusedFirst(subs[..n], ps, a);
    } else {
      k := n;
      NoneRefused(subs[..n], ps, a);
    }
  }

  lemma {:induction false} NoneRefused(subs: seq<Subscriber>, ps: seq<Promise>, a: nat)
    requires Refused(subs, ps, a).None?
    ensures forall j :: 0 <= j < |subs| ==>
      !(subs[j].rejected == Fail(a) && subs[j].owner < |ps| && ps[subs[j].owner].status == REJECTED)
  {
    if subs != [] {
      NoneRefused(subs[..|subs| - 1], ps, a);
    }
  }

  lemma RejectingRank(c: Core, sub: Subscriber, a: nat, k: nat)
    requires Inv(c) && Ordered(c) && sub in c.registered && Rejecting(c, sub, a) && k < |c.started|
    requires forall j :: 0 <= j < k ==>
      !(c.started[j].rejected == Fail(a) && c.started[j].owner < |c.promises| && c.promises[c.started[j].owner].status == REJECTED)
    ensures Rank(c.issued, c.started[k]) <= Rank(c.issued, sub)
  {
    IssuedOnce(c, sub.owner) by { assert KnownSub(|c.promises|, sub); }
    if sub in c.started {
      var m :| 0 <= m < |c.started| && c.started[m] == sub;
      StartedIsPublished(c, sub);
      PublishedAsIssued(c, sub.owner);
      assert c.promises[sub.owner].status == REJECTED;
    } else {
      NotStartedRank(c, sub);
    }
    hide Inv, Apart, Fifo, LastTaken, Rank;
  }

  /**
   * In every run: a rejected P.all has the reason of the rejected entry whose task comes first among
   * the tasks ever pushed. That task is the entry's own callback if the entry was published before
   * the call, and the publication of its rejection otherwise.
   */
  lemma RejectsWithFirstTask(s: State, a: nat) returns (first: Subscriber)
    requires Reachable(s) && a < |s.alls|
    requires s.alls[a].promise < |s.core.promises| && s.core.promises[s.alls[a].promise].status == REJECTED
    ensures first in s.core.started && first.rejected == Fail(a) && first.owner < |s.core.promises|
    ensures s.core.promises[first.owner].status == REJECTED
    ensures s.core.promises[s.alls[a].promise].data == s.core.promises[first.owner].data
    ensures forall sub :: sub in s.core.registered && Rejecting(s.core, sub, a) ==> Rank(s.core.issued, first) <= Rank(s.core.issued, sub)
  {
    var c := s.core;
    AllIsSound(s, a);
    ReachableIsOrdered(s);
    var k := RefusedFirst(c.started, c.promises, a);
    first := c.started[k];
    assert Inv(c);
    hide Inv, Ordered, Whole, Refused, Rank, Rejecting;
    forall sub | sub in c.registered && Rejecting(c, sub, a)
      ensures Rank(c.issued, first) <= Rank(c.issued, sub)
    {
      RejectingRank(c, sub, a, k);
    }
  }

  // ----- when no entry is rejected at the call -----

  /** From s to t: gatherings keep their entries, and tasks that call a subscriber are pushed for new ones only. */
  ghost predicate Older(s: State, t: State) {
    && AllsStay(s, t) && |s.core.promises| <= |t.core.promises| && s.core.issued <= t.core.issued
    && forall i :: |s.core.issued| <= i < |t.core.issued| && t.core.issued[i].Invoke? ==>
         t.core.issued[i].sub.child >= |s.core.promises|
  }

  lemma OlderTrans(s: State, t: State, u: State)
    requires Older(s, t) && Older(t, u)
    ensures Older(s, u)
  {}

  lemma PushesOlder(s: State, t: State)
    requires Pushes(s, t)
    ensures Older(s, t)
  {
    hide Apart;
  }

  lemma SameOlder(s: State, t: State)
    requires t.alls == s.alls && t.core.issued == s.core.issued && |t.core.promises| == |s.core.promises|
    ensures Older(s, t)
  {}

  lemma TurnOlder(s: State, how: Foreign, again: Foreign)
    requires Whole(s) && Ordered(s.core)
    ensures Older(s, EngineTurn(s, how, again))
  {
    assert Inv(s.core);
    SameOlder(s, s);
    hide Inv, Whole, Ranked, Fifo, LastTaken, Pushes, Older, InvokeCallback, Complete;
    if s.calls == [] && s.invoking.Some? {
      var t := s.(invoking := None);
      CompletePushes(t, s.invoking.value.sub, true, Undefined, how, again);
      PushesOlder(t, Complete(t, s.invoking.value.sub, true, Undefined, how, again));
      SameOlder(s, t);
      OlderTrans(s, t, Complete(t, s.invoking.value.sub, true, Undefined, how, again));
    } else if s.calls == [] && s.core.flushing && NextCallback(s.core).Some? {
      TurnOfCallback(s, how, again);
      NextIsPicked(s);
      PickedOrdered(s);
      hide EngineTurn;
      var (d, sub) := NextCallback(s.core).value;
      var s1 := s.(core := d);
      SameOlder(s, s1);
      InvokePushes(s1, sub, how, again);
      PushesOlder(s1, InvokeCallback(s1, sub, how, again));
      OlderTrans(s, s1, InvokeCallback(s1, sub, how, again));
    } else if s.calls == [] {
      QuietTurnStays(s, how, again);
      SameOlder(s, EngineTurn(s, how, again));
    }
  }

  lemma QuietTurnStays(s: State, how: Foreign, again: Foreign)
    requires s.calls == [] && s.invoking == None && (s.core.flushing ==> NextCallback(s.core) == None)
    ensures var t := EngineTurn(s, how, again);
      t.alls == s.alls && t.core.issued == s.core.issued && |t.core.promises| == |s.core.promises|
  {
    hide InvokeCallback, Complete;
  }

  lemma StepOlder(s: State, e: Event)
    requires Whole(s) && Ordered(s.core)
    ensures Older(s, Step(s, e))
  {
    assert Inv(s.core);
    hide Inv, Whole, Ranked, Fifo, LastTaken, Pushes, Older, Step, EngineTurn;
    if e.Tick? {
      TickIsTurn(s, e);
      TurnOlder(s, e.how, e.again);
    } else {
      UserStepPushes(s, e);
      PushesOlder(s, Step(s, e));
    }
  }

  lemma {:induction false} RunOlder(s: State, es: seq<Event>)
    requires Whole(s) && Ordered(s.core)
    ensures Older(s, Run(s, es))
  {
    if es == [] {
      SameOlder(s, s);
    } else {
      var t := Run(s, es[..|es| - 1]);
      RunOlder(s, es[..|es| - 1]);
      RunOrdered(s, es[..|es| - 1]);
      StepOlder(t, es[|es| - 1]);
      hide Whole, Ordered, Older, Step;
      OlderTrans(s, t, Run(s, es));
    }
  }

  /** What the call of P.all leaves behind. */
  lemma GatherCall(s: State, entries: seq<Entry>)
    requires Whole(s) && Ordered(s.core) && UserTurn(s) && ValidEntries(s.core, entries)
    ensures var t := Step(s, Gather(entries));
      && Whole(t) && Ordered(t.core) && Pushes(s, t) && Good(s.core, t.core)
      && |t.alls| > |s.alls| && t.alls[|s.alls|].entries == entries && t.alls[|s.alls|].promise == |s.core.promises|
  {
    StepWhole(s, Gather(entries));
    StepOrdered(s, Gather(entries));
    assert Inv(s.core);
    StepGood(s, Gather(entries));
    UserStepPushes(s, Gather(entries));
    var all := Gathering(entries, seq(|entries|, _ => None), 0, |s.core.promises|);
    var t := s.(core := Allocate(s.core, Collected), alls := s.alls + [all]);
    hide Inv, Whole, Ranked, Fifo, LastTaken, Apart, OnlyPushes, GatherFrom, Good;
    AllocatePushed(s.core, Collected);
    AllocateGood(s.core, Collected);
    assert Good(s.core, t.core) && OnlyPushes(s.core, t.core);
    StillApart(s, t);
    GatherPushes(t, |s.alls|, 0);
  }

  lemma NoneCollectedYet(s: State, a: nat, i: nat)
    requires Whole(s) && a >= |s.alls|
    ensures Resulted(s.core.started, s.core.promises, a, i) == None && Refused(s.core.started, s.core.promises, a) == None
  {
    var subs := s.core.started;
    forall k | 0 <= k < |subs|
      ensures subs[k].fulfilled != Item(a, i) && subs[k].rejected != Fail(a)
    {
      StartedIsPublished(s.core, subs[k]);
      var j :| 0 <= j < |s.core.registered| && s.core.registered[j] == subs[k];
      assert Ordinary(s.core.registered[j]) || Paired(s, s.core.registered[j]);
    }
    hide Inv, Resulted, Refused;
    ResultedNone(subs, s.core.promises, a, i);
    PromiseOutcomes.RefusedNone(subs, s.core.promises, a);
  }

  /** What P.all does at once: plain entries are stored, promises are subscribed to, and without any of these it is fulfilled. */
  lemma AllStarts(s: State, entries: seq<Entry>)
    requires Reachable(s) && UserTurn(s) && ValidEntries(s.core, entries)
    ensures var t, a, q := Step(s, Gather(entries)), |s.alls|, |s.core.promises|;
      && a < |t.alls| && t.alls[a].entries == entries && t.alls[a].promise == q && q < |t.core.promises|
      && |t.alls[a].results| == |entries|
      && (forall i :: 0 <= i < |entries| ==> t.alls[a].results[i] == if entries[i].Given? then Some(entries[i].v) else None)
      && (forall i :: 0 <= i < |entries| && entries[i].Awaited? ==>
            exists sub :: sub in t.core.registered && sub.owner == entries[i].p && sub.fulfilled == Item(a, i) && sub.rejected == Fail(a))
      && (if forall i :: 0 <= i < |entries| ==> entries[i].Given? then FulfilledWith(t.core, q, Results(a))
          else t.core.promises[q].status == PENDING)
  {
    ReachableIsOrdered(s);
    GatherCall(s, entries);
    var t, a := Step(s, Gather(entries)), |s.alls|;
    hide Step, Ordered, Reachable;
    CallResults(s, t, entries);
    forall i | 0 <= i < |entries| && entries[i].Awaited?
      ensures exists sub :: sub in t.core.registered && sub.owner == entries[i].p && sub.fulfilled == Item(a, i) && sub.rejected == Fail(a)
    {
      var sub := EntrySubscribed(t, a, i);
    }
    hide Whole, Pushes, Good;
  }

  lemma CallResults(s: State, t: State, entries: seq<Entry>)
    requires Whole(s) && Whole(t) && Pushes(s, t) && Good(s.core, t.core)
    requires |t.alls| > |s.alls| && t.alls[|s.alls|].entries == entries && t.alls[|s.alls|].promise == |s.core.promises|
    ensures var a, q := |s.alls|, |s.core.promises|;
      && q < |t.core.promises| && |t.alls[a].results| == |entries|
      && (forall i :: 0 <= i < |entries| ==> t.alls[a].results[i] == if entries[i].Given? then Some(entries[i].v) else None)
      && (if forall i :: 0 <= i < |entries| ==> entries[i].Given? then FulfilledWith(t.core, q, Results(a))
          else t.core.promises[q].status == PENDING)
  {
    var a, q := |s.alls|, |s.core.promises|;
    assert Tally(t, a) && t.core.started == s.core.started;
    StartedAreFrozen(s.core, t.core);
    FrozenOutcomes(s.core.started, s.core.promises, t.core.promises, a);
    var results := t.alls[a].results;
    hide Inv, SubsSound, GuardsUnlocked, Apart, Resulted, Refused, Missing, Frozen, Extends;
    forall i | 0 <= i < |entries| ensures results[i] == if entries[i].Given? then Some(entries[i].v) else None {
      NoneCollectedYet(s, a, i);
      assert results[i] == Outcome(t.core, entries[i], a, i);
    }
    NoneCollectedYet(s, a, 0);
    MissingNone(results);
    IssuedOnce(t.core, q);
  }

  /** And at every moment after it: an entry that has a result is fulfilled, and the result is its value; plain entries always have theirs. */
  lemma ResultsAreValues(s: State, a: nat, i: nat)
    requires Reachable(s) && a < |s.alls| && i < |s.alls[a].entries|
    ensures i < |s.alls[a].results| && (s.alls[a].entries[i].Given? ==> s.alls[a].results[i].Some?)
    ensures s.alls[a].results[i].Some? ==>
      EntryFulfilled(s.core, s.alls[a].entries[i]) && s.alls[a].results[i] == Some(EntryValue(s.core, s.alls[a].entries[i]))
  {
    ReachableIsWhole(s);
    assert Tally(s, a);
    assert s.alls[a].results[i] == Outcome(s.core, s.alls[a].entries[i], a, i);
    if s.alls[a].results[i].Some? {
      ResultIsValue(s, a, i);
    }
    hide Inv;
  }

  /** A subscriber of gathering a stands for one of its entries, and was registered by the call. */
  lemma GatheredAtCall(s: State, t: State, a: nat, sub: Subscriber)
    requires Whole(s) && Whole(t) && Older(s, t) && Good(s.core, t.core) && a < |s.alls|
    requires sub in t.core.registered && sub.rejected == Fail(a)
    ensures Paired(t, sub) && sub.fulfilled.all == a && sub in s.core.registered
  {
    var subs := t.core.registered;
    var k :| 0 <= k < |subs| && subs[k] == sub;
    hide Inv;
    assert Paired(t, subs[k]);
    var i := sub.fulfilled.index;
    var j :| 0 <= j < |s.core.registered| && s.core.registered[j].fulfilled == Item(a, i);
    assert subs[j] == s.core.registered[j];
  }

  lemma InvokedAtCall(s: State, t: State, sub: Subscriber)
    requires Older(s, t) && Inv(s.core) && sub in s.core.registered && Invoke(sub) in t.core.issued
    ensures Invoke(sub) in s.core.issued
  {
    assert KnownSub(|s.core.promises|, sub);
    var i :| 0 <= i < |t.core.issued| && t.core.issued[i] == Invoke(sub);
    assert i < |s.core.issued|;
    assert s.core.issued[i] == Invoke(sub);
  }

  /** An owner that was not rejected at the call and is now has its subscriber started by its publication. */
  lemma CarriedByPublication(s0: State, s: State, t: State, a: nat, sub: Subscriber)
    requires Whole(s) && Whole(t) && Older(s, t) && Good(s.core, t.core) && Pushes(s0, s) && Good(s0.core, s.core) && a < |s.alls|
    requires Apart(s.core) && sub in t.core.registered && Rejecting(t.core, sub, a)
    requires sub.owner < |s0.core.promises| && s0.core.promises[sub.owner].status != REJECTED
    ensures Carrier(t.core.issued, sub) == PublishRejection(sub.owner)
  {
    var p := sub.owner;
    GatheredAtCall(s, t, a, sub);
    assert Inv(s.core) && Inv(t.core);
    IssuedOnce(t.core, p);
    PublishedAsIssued(t.core, p);
    assert Later(s0.core.promises[p], s.core.promises[p]) && Later(s.core.promises[p], t.core.promises[p]);
    hide Inv, Whole, Older;
    if Invoke(sub) in t.core.issued {
      InvokedAtCall(s, t, sub);
    }
  }

  lemma EntrySubscribed(t: State, a: nat, i: nat) returns (sub: Subscriber)
    requires Whole(t) && a < |t.alls| && i < |t.alls[a].entries| && t.alls[a].entries[i].Awaited?
    ensures sub in t.core.registered && sub.rejected == Fail(a) && sub.owner == t.alls[a].entries[i].p
    ensures sub.fulfilled == Item(a, i)
  {
    hide Inv;
    var j :| 0 <= j < |t.core.registered| && t.core.registered[j].fulfilled == Item(a, i);
    sub := t.core.registered[j];
    assert Paired(t, sub);
  }

  lemma FirstIsRejecting(t: State, first: Subscriber, a: nat)
    requires Whole(t) && first in t.core.started && first.rejected == Fail(a)
    requires first.owner < |t.core.promises| && t.core.promises[first.owner].status == REJECTED
    ensures first in t.core.registered && Rejecting(t.core, first, a)
  {
    StartedIsPublished(t.core, first);
    PublishedAsIssued(t.core, first.owner);
  }

  lemma EntryOf(s: State, t: State, a: nat, sub: Subscriber)
    requires Whole(s) && Whole(t) && Older(s, t) && Good(s.core, t.core) && a < |s.alls|
    requires sub in t.core.registered && sub.rejected == Fail(a)
    ensures sub.fulfilled.Item? && a < |t.alls| && sub.fulfilled.index < |t.alls[a].entries|
    ensures t.alls[a].entries[sub.fulfilled.index] == Awaited(sub.owner)
  {
    GatheredAtCall(s, t, a, sub);
    hide Whole, Older;
  }

  lemma CalledReachable(s: State, entries: seq<Entry>, es: seq<Event>)
    requires Reachable(s)
    ensures Reachable(Run(Step(s, Gather(entries)), es))
  {
    var before :| s == Run(Start, before);
    hide Step;
    var call := before + [Gather(entries)];
    assert call[..|before|] == before;
    assert Run(Start, call) == Step(s, Gather(entries));
    RunAppend(Start, call, es);
  }

  // ----- what the call itself pushes -----

  /**
   * The loop of gathering a from entry i on, from s to t: its subscribers are new and registered by
   * entry, those of published promises have a task of their own, and only q is settled.
   */
  ghost predicate Gathered(s: State, t: State, a: nat, i: nat, q: nat) {
    var c, d, m := s.core, t.core, |s.core.registered|;
    && c.registered <= d.registered && c.issued <= d.issued && |c.promises| <= |d.promises|
    && (forall j :: m <= j < |d.registered| ==>
          var sub := d.registered[j];
          sub.fulfilled.Item? && sub.fulfilled.all == a && sub.fulfilled.index >= i && sub.child >= |c.promises|)
    && (forall j, k :: m <= j < k < |d.registered| ==> d.registered[j].fulfilled.index < d.registered[k].fulfilled.index)
    && (forall j :: m <= j < |d.registered| && d.registered[j].owner < |c.promises| && IsPublished(c.promises[d.registered[j].owner]) ==>
          Invoke(d.registered[j]) in d.issued)
    && (forall p :: 0 <= p < |c.promises| && p != q && c.promises[p].status == PENDING ==> d.promises[p].status == PENDING)
    && (forall p :: 0 <= p < |c.promises| && IsPublished(c.promises[p]) ==> IsPublished(d.promises[p]))
  }

  lemma SameGathered(s: State, t: State, a: nat, i: nat, q: nat)
    requires t.core == s.core
    ensures Gathered(s, t, a, i, q)
  {}

  lemma ResolveGathers(s: State, q: nat, a: nat, i: nat)
    ensures Gathered(s, Resolve(s, q, Results(a), NotCallable), a, i, q)
  {}

  /** One more subscriber before the rest of the loop. */
  lemma OneGathered(s: State, u: State, t: State, a: nat, i: nat, q: nat, p: nat)
    requires p < |s.core.promises| && u.core == Then(s.core, p, Item(a, i), Fail(a)) && Gathered(u, t, a, i + 1, q)
    ensures Gathered(s, t, a, i, q)
  {
    var c, d, e := s.core, u.core, t.core;
    var sub := Subscriber(p, |c.promises|, Item(a, i), Fail(a));
    assert d.registered == c.registered + [sub] && e.registered[|c.registered|] == sub;
    assert IsPublished(c.promises[p]) ==> Invoke(sub) in d.issued;
    assert forall x :: 0 <= x < |c.promises| ==> d.promises[x].status == c.promises[x].status;
    hide Then;
  }

  lemma {:induction false} GatherLoop(s: State, a: nat, i: nat, q: nat)
    requires a < |s.alls| && i <= |s.alls[a].entries| == |s.alls[a].results| && s.alls[a].promise == q
    requires KnownEntries(s.core, s.alls[a].entries)
    ensures Gathered(s, GatherFrom(s, a, i), a, i, q)
    decreases |s.alls[a].entries| - i
  {
    hide GatherFrom, Resolve, Gathered;
    var all := s.alls[a];
    SameGathered(s, s, a, i, q);
    GatherUnfold(s, a, i);
    if i == |all.entries| {
      ResolveGathers(s, q, a, i);
    } else {
      match all.entries[i]
      case Given(v) =>
        var t := s.(alls := s.alls[a := all.(results := all.results[i := Some(v)])]);
        GatherLoop(t, a, i + 1, q);
        FromLater(s, t, GatherFrom(t, a, i + 1), a, i, q);
      case Awaited(p) =>
        var t := s.(alls := s.alls[a := all.(remaining := all.remaining + 1)]);
        var u := ThenAt(t, p, Item(a, i), Fail(a));
        ThenKeepsRest(t, p, Item(a, i), Fail(a));
        assert |u.core.promises| > |t.core.promises|;
        hide Then;
        GatherLoop(u, a, i + 1, q);
        OneGathered(s, u, GatherFrom(u, a, i + 1), a, i, q, p);
    }
  }

  lemma FromLater(s: State, t: State, u: State, a: nat, i: nat, q: nat)
    requires t.core == s.core && Gathered(t, u, a, i + 1, q)
    ensures Gathered(s, u, a, i, q)
  {}

  /** The states at a call of P.all, after it, and later on in a run. */
  ghost predicate Called(s: State, entries: seq<Entry>, s1: State, t: State) {
    var a := |s.alls|;
    && Whole(s) && Whole(s1) && Whole(t) && Ordered(s.core) && Ordered(s1.core) && Ordered(t.core)
    && Pushes(s, s1) && Good(s.core, s1.core) && Older(s1, t) && Good(s1.core, t.core)
    && a < |s1.alls| && t.alls[a].entries == entries && t.alls[a].promise == |s.core.promises|
    && Gathered(s, s1, a, 0, |s.core.promises|)
  }

  lemma CallGathers(s: State, entries: seq<Entry>)
    requires UserTurn(s) && ValidEntries(s.core, entries)
    ensures Gathered(s, Step(s, Gather(entries)), |s.alls|, 0, |s.core.promises|)
  {
    var all := Gathering(entries, seq(|entries|, _ => None), 0, |s.core.promises|);
    var t := s.(core := Allocate(s.core, Collected), alls := s.alls + [all]);
    GatherLoop(t, |s.alls|, 0, |s.core.promises|);
    AfterAllocation(s, t, GatherFrom(t, |s.alls|, 0), |s.alls|);
    hide Gathered, GatherFrom;
  }

  lemma AfterAllocation(s: State, t: State, u: State, a: nat)
    requires t.core == Allocate(s.core, Collected) && Gathered(t, u, a, 0, |s.core.promises|)
    ensures Gathered(s, u, a, 0, |s.core.promises|)
  {}

  lemma CallIsCalled(s: State, entries: seq<Entry>, es: seq<Event>)
    requires Reachable(s) && UserTurn(s) && ValidEntries(s.core, entries)
    ensures var s1 := Step(s, Gather(entries));
      Called(s, entries, s1, Run(s1, es)) && Reachable(Run(s1, es))
  {
    var s1 := Step(s, Gather(entries));
    ReachableIsOrdered(s);
    GatherCall(s, entries);
    CallGathers(s, entries);
    RunOrdered(s1, es);
    RunOlder(s1, es);
    assert Inv(s1.core);
    RunGood(s1, es);
    CalledReachable(s, entries, es);
    hide Run, Step, Ordered, Reachable, Whole, Gathered, Good, UserTurn, ValidEntries;
  }

  // ----- the ranks of the entries -----

  /** Its subscriber in gathering a. */
  ghost predicate Gathers(t: State, a: nat, sub: Subscriber) {
    sub in t.core.registered && sub.rejected == Fail(a)
  }

  lemma CallSub(s: State, entries: seq<Entry>, s1: State, t: State, sub: Subscriber) returns (j: nat)
    requires Called(s, entries, s1, t) && Gathers(t, |s.alls|, sub)
    ensures |s.core.registered| <= j < |s1.core.registered| && s1.core.registered[j] == sub
    ensures sub.fulfilled.Item? && sub.fulfilled.index < |entries| && entries[sub.fulfilled.index] == Awaited(sub.owner)
  {
    var a := |s.alls|;
    EntryOf(s1, t, a, sub);
    GatheredAtCall(s1, t, a, sub);
    j :| 0 <= j < |s1.core.registered| && s1.core.registered[j] == sub;
    if j < |s.core.registered| {
      assert s.core.registered[j] == sub;
      NotYetGathered(s, sub);
    }
    hide Whole, Ordered, Older, Pushes, Good;
  }

  lemma NotYetGathered(s: State, sub: Subscriber)
    requires Whole(s) && sub in s.core.registered
    ensures sub.rejected != Fail(|s.alls|)
  {
    hide Inv;
    var j :| 0 <= j < |s.core.registered| && s.core.registered[j] == sub;
    assert Ordinary(s.core.registered[j]) || Paired(s, s.core.registered[j]);
  }

  /** An entry rejected before the call counts from the task that the call pushed for it. */
  lemma RankOfRejected(s: State, entries: seq<Entry>, s1: State, t: State, sub: Subscriber)
    requires Called(s, entries, s1, t) && Gathers(t, |s.alls|, sub)
    requires sub.owner < |s.core.promises| && s.core.promises[sub.owner].status == REJECTED
    ensures Carrier(t.core.issued, sub) == Invoke(sub) && Invoke(sub) in t.core.issued
    ensures |s.core.issued| <= Rank(t.core.issued, sub) < |s1.core.issued|
  {
    var j := CallSub(s, entries, s1, t, sub);
    CalledGathered(s, entries, s1, t);
    assert Whole(s);
    hide Called, Whole, Gathers;
    assert Invoke(s1.core.registered[j]) in s1.core.issued && sub.child >= |s.core.promises|;
    hide Gathered;
    NotInvokedYet(s, sub);
    PushedBetween(s.core.issued, s1.core.issued, t.core.issued, Invoke(sub));
    hide Index;
  }

  lemma PushedBetween(a: seq<Task>, b: seq<Task>, c: seq<Task>, t: Task)
    requires a <= b <= c && t in b && t !in a
    ensures t in c && |a| <= Index(c, t) < |b|
  {
    IndexIs(b, t);
    IndexStays(b, c, t);
    PastPrefix(a, b, t);
    hide Index;
  }

  lemma NotInvokedYet(s: State, sub: Subscriber)
    requires Whole(s) && sub.child >= |s.core.promises|
    ensures Invoke(sub) !in s.core.issued
  {
    assert KnownTasks(|s.core.promises|, s.core.issued);
  }

  /** Any other entry counts from the publication of its rejection, pushed before the call or after it. */
  lemma RankOfOther(s: State, entries: seq<Entry>, s1: State, t: State, sub: Subscriber)
    requires Called(s, entries, s1, t) && Gathers(t, |s.alls|, sub) && Rejecting(t.core, sub, |s.alls|)
    requires sub.owner < |s.core.promises| && s.core.promises[sub.owner].status != REJECTED
    ensures Carrier(t.core.issued, sub) == PublishRejection(sub.owner)
    ensures if PublishRejection(sub.owner) in s.core.issued then Rank(t.core.issued, sub) < |s.core.issued|
            else Rank(t.core.issued, sub) >= |s1.core.issued|
  {
    var p := sub.owner;
    var task := PublishRejection(p);
    CarriedByPublication(s, s1, t, |s.alls|, sub);
    IndexIs(s.core.issued, task);
    if task in s.core.issued {
      IndexStays(s.core.issued, t.core.issued, task);
    } else {
      NotPushedByCall(s, entries, s1, t, p);
      IndexIs(t.core.issued, task);
      hide Called, Index;
      assert Called(s, entries, s1, t);
      PastPrefix(s1.core.issued, t.core.issued, task);
    }
  }

  lemma PastPrefix(a: seq<Task>, b: seq<Task>, t: Task)
    requires t in b && t !in a
    ensures a <= b ==> Index(b, t) >= |a|
  {
    IndexIs(b, t);
    hide Index;
    assert a <= b ==> forall i :: 0 <= i < |a| ==> b[i] == a[i];
  }

  lemma NotPushedByCall(s: State, entries: seq<Entry>, s1: State, t: State, p: nat)
    requires Called(s, entries, s1, t) && p < |s.core.promises|
    requires PublishRejection(p) in t.core.issued && PublishRejection(p) !in s.core.issued
    ensures PublishRejection(p) !in s1.core.issued && s1.core.issued <= t.core.issued
  {
    assert Inv(s.core) && Inv(s1.core) && Inv(t.core);
    hide Inv, Whole, Ordered;
    IssuedOnce(t.core, p);
    IssuedOnce(s.core, p);
    IssuedOnce(s1.core, p);
    assert forall x :: x in s.core.issued ==> x in s1.core.issued;
    assert forall x :: x in s1.core.issued ==> x in t.core.issued;
  }

  // ----- the reason, from what is known at the call -----

  predicate Refusing(c: Core, entry: Entry) {
    entry.Awaited? && entry.p < |c.promises| && PublishRejection(entry.p) in c.issued
  }

  /** Entry i is rejected, and its rejection was pushed, and so published, before that of any other entry. */
  predicate FirstPublished(c: Core, entries: seq<Entry>, i: nat) {
    && i < |entries| && Refusing(c, entries[i])
    && forall j :: 0 <= j < |entries| && Refusing(c, entries[j]) ==>
         Index(c.issued, PublishRejection(entries[i].p)) <= Index(c.issued, PublishRejection(entries[j].p))
  }

  /** Some entry is rejected already. */
  predicate SomeRejected(c: Core, entries: seq<Entry>) {
    exists j :: 0 <= j < |entries| && EntryRejected(c, entries[j])
  }

  /** The rejection of some entry waits in the queue. */
  predicate SomeInQueue(c: Core, entries: seq<Entry>) {
    exists j :: 0 <= j < |entries| && Refusing(c, entries[j]) && !EntryRejected(c, entries[j])
  }

  /** What the subscriber whose rejection counted says about its entry, by the state at the call. */
  ghost predicate CountsFirst(s: State, t: State, entries: seq<Entry>, i: nat)
    requires i < |entries|
  {
    if SomeInQueue(s.core, entries) then
      && Refusing(s.core, entries[i]) && !EntryRejected(s.core, entries[i])
      && forall j :: 0 <= j < |entries| && Refusing(s.core, entries[j]) && !EntryRejected(s.core, entries[j]) ==>
           Index(s.core.issued, PublishRejection(entries[i].p)) <= Index(s.core.issued, PublishRejection(entries[j].p))
    else if SomeRejected(s.core, entries) then
      EntryRejected(s.core, entries[i]) && forall j :: 0 <= j < i ==> !EntryRejected(s.core, entries[j])
    else FirstPublished(t.core, entries, i)
  }

  /** The subscriber of entry j, and its rank. */
  lemma EntryRank(s: State, entries: seq<Entry>, s1: State, t: State, j: nat) returns (sub: Subscriber)
    requires Called(s, entries, s1, t) && KnownEntries(s.core, entries)
    requires j < |entries| && Refusing(t.core, entries[j])
    ensures Gathers(t, |s.alls|, sub) && Rejecting(t.core, sub, |s.alls|)
    ensures sub.owner == entries[j].p && sub.fulfilled == Item(|s.alls|, j)
    ensures if EntryRejected(s.core, entries[j])
            then Carrier(t.core.issued, sub) == Invoke(sub) && Invoke(sub) in t.core.issued &&
                 |s.core.issued| <= Rank(t.core.issued, sub) < |s1.core.issued|
            else Carrier(t.core.issued, sub) == PublishRejection(entries[j].p) &&
                 if Refusing(s.core, entries[j]) then Rank(t.core.issued, sub) < |s.core.issued|
                 else Rank(t.core.issued, sub) >= |s1.core.issued|
  {
    sub := EntrySubscriber(s, entries, s1, t, j);
    hide Called, Rank, Carrier;
    if EntryRejected(s.core, entries[j]) {
      RankOfRejected(s, entries, s1, t, sub);
    } else {
      RankOfOther(s, entries, s1, t, sub);
    }
  }

  lemma EntrySubscriber(s: State, entries: seq<Entry>, s1: State, t: State, j: nat) returns (sub: Subscriber)
    requires Called(s, entries, s1, t) && j < |entries| && entries[j].Awaited?
    ensures Gathers(t, |s.alls|, sub) && sub.owner == entries[j].p && sub.fulfilled == Item(|s.alls|, j)
  {
    AtCall(s, entries, s1, t);
    assert t.alls[|s.alls|].entries == entries;
    hide Called, Whole;
    sub := EntrySubscribed(t, |s.alls|, j);
  }

  /** A rejected entry earlier in the list has the earlier task. */
  lemma EarlierEntry(s: State, entries: seq<Entry>, s1: State, t: State, x: Subscriber, y: Subscriber)
    requires Called(s, entries, s1, t) && Gathers(t, |s.alls|, x) && Gathers(t, |s.alls|, y)
    requires x.fulfilled.Item? && y.fulfilled.Item? && x.fulfilled.index < y.fulfilled.index
    requires Invoke(x) in t.core.issued && Invoke(y) in t.core.issued
    ensures Index(t.core.issued, Invoke(x)) < Index(t.core.issued, Invoke(y))
  {
    EarlierChild(s, entries, s1, t, x, y);
    CalledByAge(s, entries, s1, t);
    hide Called, Gathers;
    ByAgeIndex(t.core.issued, x, y);
  }

  lemma CalledByAge(s: State, entries: seq<Entry>, s1: State, t: State)
    requires Called(s, entries, s1, t)
    ensures ByAge(t.core.issued)
  {
    hide Whole, Older, Pushes, Good, Gathered, Fifo, LastTaken, Ranked, ByAge;
  }

  lemma ByAgeIndex(tasks: seq<Task>, x: Subscriber, y: Subscriber)
    requires ByAge(tasks) && Invoke(x) in tasks && Invoke(y) in tasks && x.child < y.child
    ensures Index(tasks, Invoke(x)) < Index(tasks, Invoke(y))
  {
    IndexIs(tasks, Invoke(x));
    IndexIs(tasks, Invoke(y));
    hide Index;
  }

  lemma EarlierChild(s: State, entries: seq<Entry>, s1: State, t: State, x: Subscriber, y: Subscriber)
    requires Called(s, entries, s1, t) && Gathers(t, |s.alls|, x) && Gathers(t, |s.alls|, y)
    requires x.fulfilled.Item? && y.fulfilled.Item? && x.fulfilled.index < y.fulfilled.index
    ensures x.child < y.child
  {
    var j := CallSub(s, entries, s1, t, x);
    var k := CallSub(s, entries, s1, t, y);
    CalledGathered(s, entries, s1, t);
    hide Called, Gathers, Gathered, Ascending;
    ChildOrder(s, s1, |s.alls|, |s.core.promises|, j, k);
  }

  lemma ChildOrder(s: State, t: State, a: nat, q: nat, j: nat, k: nat)
    requires Gathered(s, t, a, 0, q) && Ascending(t.core.registered)
    requires |s.core.registered| <= j < |t.core.registered| && |s.core.registered| <= k < |t.core.registered|
    requires t.core.registered[j].fulfilled.Item? && t.core.registered[k].fulfilled.Item?
    requires t.core.registered[j].fulfilled.index < t.core.registered[k].fulfilled.index
    ensures t.core.registered[j].child < t.core.registered[k].child
  {
    assert j < k;
  }

  lemma CalledGathered(s: State, entries: seq<Entry>, s1: State, t: State)
    requires Called(s, entries, s1, t)
    ensures Gathered(s, s1, |s.alls|, 0, |s.core.promises|) && Ascending(s1.core.registered)
    ensures s.core.issued <= s1.core.issued <= t.core.issued
  {
    assert Inv(s1.core);
    hide Gathered, Ordered;
  }

  /** first is the subscriber of gathering a whose task comes first. */
  ghost predicate IsFirst(s: State, entries: seq<Entry>, s1: State, t: State, first: Subscriber, i: nat) {
    && Called(s, entries, s1, t) && KnownEntries(s.core, entries) && |s.core.issued| <= |s1.core.issued|
    && i < |entries| && Refusing(t.core, entries[i])
    && first.fulfilled == Item(|s.alls|, i) && Gathers(t, |s.alls|, first)
    && (forall sub :: sub in t.core.registered && Rejecting(t.core, sub, |s.alls|) ==>
          Rank(t.core.issued, first) <= Rank(t.core.issued, sub))
    && (if EntryRejected(s.core, entries[i])
        then Carrier(t.core.issued, first) == Invoke(first) && Invoke(first) in t.core.issued &&
             |s.core.issued| <= Rank(t.core.issued, first) < |s1.core.issued|
        else Carrier(t.core.issued, first) == PublishRejection(entries[i].p) &&
             if Refusing(s.core, entries[i]) then Rank(t.core.issued, first) < |s.core.issued|
             else Rank(t.core.issued, first) >= |s1.core.issued|)
  }

  lemma StillRefusing(s: State, entries: seq<Entry>, s1: State, t: State, j: nat)
    requires Called(s, entries, s1, t) && j < |entries| && Refusing(s.core, entries[j])
    ensures Refusing(t.core, entries[j])
    ensures Index(t.core.issued, PublishRejection(entries[j].p)) == Index(s.core.issued, PublishRejection(entries[j].p))
  {
    CallKnows(s, entries, s1, t);
    hide Called;
    IndexStays(s.core.issued, t.core.issued, PublishRejection(entries[j].p));
  }

  lemma RejectedIsRefusing(s: State, entries: seq<Entry>, s1: State, t: State, j: nat)
    requires Called(s, entries, s1, t) && j < |entries| && EntryRejected(s.core, entries[j])
    ensures Refusing(s.core, entries[j]) && Refusing(t.core, entries[j])
  {
    assert Inv(s.core);
    PublishedAsIssued(s.core, entries[j].p);
    hide Inv;
    StillRefusing(s, entries, s1, t, j);
  }

  lemma InQueueCounts(s: State, entries: seq<Entry>, s1: State, t: State, first: Subscriber, i: nat)
    requires IsFirst(s, entries, s1, t, first, i) && SomeInQueue(s.core, entries)
    ensures CountsFirst(s, t, entries, i)
  {
    hide Called, Rank, Carrier;
    forall j | 0 <= j < |entries| && Refusing(s.core, entries[j]) && !EntryRejected(s.core, entries[j])
      ensures Refusing(s.core, entries[i]) && !EntryRejected(s.core, entries[i])
      ensures Index(s.core.issued, PublishRejection(entries[i].p)) <= Index(s.core.issued, PublishRejection(entries[j].p))
    {
      StillRefusing(s, entries, s1, t, j);
      var sub := EntryRank(s, entries, s1, t, j);
      StillRefusing(s, entries, s1, t, i);
      RankIs(t.core.issued, first);
      RankIs(t.core.issued, sub);
    }
  }

  lemma RankIs(issued: seq<Task>, sub: Subscriber)
    ensures Rank(issued, sub) == Index(issued, Carrier(issued, sub))
  {
    hide Index, Carrier;
  }

  lemma RejectedCounts(s: State, entries: seq<Entry>, s1: State, t: State, first: Subscriber, i: nat)
    requires IsFirst(s, entries, s1, t, first, i) && !SomeInQueue(s.core, entries) && SomeRejected(s.core, entries)
    ensures CountsFirst(s, t, entries, i)
  {
    hide Called, Rank, Carrier;
    forall j | 0 <= j < |entries| && EntryRejected(s.core, entries[j])
      ensures EntryRejected(s.core, entries[i]) && i <= j
    {
      RejectedIsRefusing(s, entries, s1, t, j);
      var sub := EntryRank(s, entries, s1, t, j);
      if j < i && EntryRejected(s.core, entries[i]) {
        EarlierEntry(s, entries, s1, t, sub, first);
        RankIs(t.core.issued, first);
        RankIs(t.core.issued, sub);
      }
    }
  }

  lemma LaterCounts(s: State, entries: seq<Entry>, s1: State, t: State, first: Subscriber, i: nat)
    requires IsFirst(s, entries, s1, t, first, i) && !SomeInQueue(s.core, entries) && !SomeRejected(s.core, entries)
    ensures CountsFirst(s, t, entries, i)
  {
    hide Called, Rank, Carrier;
    forall j | 0 <= j < |entries| && Refusing(t.core, entries[j])
      ensures Index(t.core.issued, PublishRejection(entries[i].p)) <= Index(t.core.issued, PublishRejection(entries[j].p))
    {
      var sub := EntryRank(s, entries, s1, t, j);
      RankIs(t.core.issued, first);
      RankIs(t.core.issued, sub);
    }
  }

  lemma FirstCounts(s: State, entries: seq<Entry>, s1: State, t: State, first: Subscriber) returns (i: nat)
    requires Called(s, entries, s1, t) && KnownEntries(s.core, entries)
    requires Gathers(t, |s.alls|, first) && Rejecting(t.core, first, |s.alls|)
    requires forall sub :: sub in t.core.registered && Rejecting(t.core, sub, |s.alls|) ==> Rank(t.core.issued, first) <= Rank(t.core.issued, sub)
    ensures i < |entries| && entries[i] == Awaited(first.owner) && CountsFirst(s, t, entries, i)
  {
    var _ := CallSub(s, entries, s1, t, first);
    i := first.fulfilled.index;
    CallKnows(s, entries, s1, t);
    ItsGathering(s, entries, s1, t, first);
    var mine := EntryRank(s, entries, s1, t, i);
    SameSubscriber(t, mine, first, |s.alls|, i) by { assert Whole(t); }
    assert |s.core.issued| <= |s1.core.issued|;
    hide Called, Rank, Carrier, CountsFirst;
    if SomeInQueue(s.core, entries) {
      InQueueCounts(s, entries, s1, t, first, i);
    } else if SomeRejected(s.core, entries) {
      RejectedCounts(s, entries, s1, t, first, i);
    } else {
      LaterCounts(s, entries, s1, t, first, i);
    }
  }

  lemma ItsGathering(s: State, entries: seq<Entry>, s1: State, t: State, sub: Subscriber)
    requires Called(s, entries, s1, t) && Gathers(t, |s.alls|, sub)
    ensures sub.fulfilled.Item? && sub.fulfilled.all == |s.alls|
  {
    GatheredAtCall(s1, t, |s.alls|, sub);
    hide Whole, Ordered, Older, Pushes, Good, Gathered;
  }

  lemma CallKnows(s: State, entries: seq<Entry>, s1: State, t: State)
    requires Called(s, entries, s1, t)
    ensures |s.core.promises| <= |t.core.promises| && s.core.issued <= t.core.issued
  {
    hide Whole, Ordered, Gathered;
  }

  lemma SameSubscriber(t: State, x: Subscriber, y: Subscriber, a: nat, i: nat)
    requires Whole(t) && x in t.core.registered && y in t.core.registered
    requires x.fulfilled == Item(a, i) == y.fulfilled
    ensures x == y
  {
    hide Inv;
    var subs := t.core.registered;
    var j :| 0 <= j < |subs| && subs[j] == x;
    var k :| 0 <= k < |subs| && subs[k] == y;
    assert j == k;
  }

  /**
   * In every run, a P.all that rejects does so with the reason of entry i, told by the state at the
   * call: the first whose rejection was then in the queue; else, if some were rejected by then, the
   * first of those in the list; else the one whose rejection is the first to be published afterwards.
   */
  lemma RejectionReason(s: State, entries: seq<Entry>, es: seq<Event>) returns (i: nat)
    requires Reachable(s) && UserTurn(s) && ValidEntries(s.core, entries)
    requires var t := Run(Step(s, Gather(entries)), es);
      |s.core.promises| < |t.core.promises| && t.core.promises[|s.core.promises|].status == REJECTED
    ensures var t := Run(Step(s, Gather(entries)), es);
      && i < |entries| && EntryRejected(t.core, entries[i])
      && |s.core.promises| < |t.core.promises| && t.core.promises[|s.core.promises|].data == t.core.promises[entries[i].p].data
      && CountsFirst(s, t, entries, i)
  {
    var s1 := Step(s, Gather(entries));
    var t := Run(s1, es);
    CallIsCalled(s, entries, es);
    AtCall(s, entries, s1, t);
    hide Run, Step, Called, Reachable, CountsFirst, Rank, Rejecting;
    var first := RejectsWithFirstTask(t, |s.alls|);
    FirstIsRejecting(t, first, |s.alls|);
    i := FirstCounts(s, entries, s1, t, first);
  }

  lemma AtCall(s: State, entries: seq<Entry>, s1: State, t: State)
    requires Called(s, entries, s1, t)
    ensures Whole(t) && |s.alls| < |t.alls| && t.alls[|s.alls|].promise == |s.core.promises|
  {
    hide Whole, Ordered, Pushes, Good, Gathered;
  }

  /** The rejections that were published by the call were pushed before those that were not. */
  lemma PublishedBefore(c: Core, p: nat, q: nat)
    requires Inv(c) && Ordered(c) && p < |c.promises| && q < |c.promises|
    requires c.promises[p].status == REJECTED && PublishRejection(q) in c.issued && c.promises[q].status != REJECTED
    ensures PublishRejection(p) in c.issued && Index(c.issued, PublishRejection(p)) < Index(c.issued, PublishRejection(q))
  {
    PublishedAsIssued(c, p);
    PublishedAsIssued(c, q);
    assert Sound(ViewOf(c, q)) && Sound(ViewOf(c, p));
    SettledInRest(c, q);
    InRest(c, PublishRejection(q));
    PublishedIsTaken(c, p);
    hide Inv, Ranked, Index;
  }

  lemma {:induction false} NotPublishes(tasks: seq<Task>, p: nat)
    requires Publishes(tasks, p) == 0
    ensures PublishRejection(p) !in tasks && PublishFulfillment(p) !in tasks
  {
    if tasks != [] {
      NotPublishes(tasks[1..], p);
    }
  }

  lemma PublishedIsTaken(c: Core, p: nat)
    requires Inv(c) && Ordered(c) && p < |c.promises| && IsPublished(c.promises[p]) && PublishRejection(p) in c.issued
    ensures Index(c.issued, PublishRejection(p)) < Done(c)
  {
    var t := PublishRejection(p);
    assert Sound(ViewOf(c, p));
    NotPublishes(Rest(c), p);
    IndexIs(c.issued, t);
    hide Inv, Ranked, Index, Apart;
    assert forall i :: Done(c) <= i < |c.issued| ==> c.issued[i] == Rest(c)[i - Done(c)] by {
      assert forall i :: Done(c) <= i < |c.issued| ==> c.issued[i] == c.issued[Done(c)..][i - Done(c)];
    }
  }

  /**
   * The reason is that of the first rejection to be published, of all entries, if and only if at the
   * call no entry is rejected, or none has its rejection in the queue and the first of the list that
   * is rejected was also the first to be published.
   */
  lemma WhenFirstPublishedCounts(s: State, entries: seq<Entry>, es: seq<Event>) returns (i: nat)
    requires Reachable(s) && UserTurn(s) && ValidEntries(s.core, entries)
    requires var t := Run(Step(s, Gather(entries)), es);
      |s.core.promises| < |t.core.promises| && t.core.promises[|s.core.promises|].status == REJECTED
    ensures var c := Run(Step(s, Gather(entries)), es).core;
      && i < |entries| && EntryRejected(c, entries[i])
      && |s.core.promises| < |c.promises| && c.promises[|s.core.promises|].data == c.promises[entries[i].p].data
      && (FirstPublished(c, entries, i) <==>
          !SomeRejected(s.core, entries) || (!SomeInQueue(s.core, entries) && FirstPublished(s.core, entries, i)))
  {
    i := RejectionReason(s, entries, es);
    var s1 := Step(s, Gather(entries));
    var t := Run(s1, es);
    CallIsCalled(s, entries, es);
    hide Run, Step, Reachable;
    if !SomeRejected(s.core, entries) {
      NoneRejected(s, entries, s1, t, i);
    } else if SomeInQueue(s.core, entries) {
      QueueHides(s, entries, s1, t, i);
    } else {
      OnlyRejected(s, entries, s1, t, i);
    }
  }

  lemma NoneRejected(s: State, entries: seq<Entry>, s1: State, t: State, i: nat)
    requires Called(s, entries, s1, t) && i < |entries| && CountsFirst(s, t, entries, i) && !SomeRejected(s.core, entries)
    ensures FirstPublished(t.core, entries, i)
  {
    hide Index;
    if SomeInQueue(s.core, entries) {
      forall j | 0 <= j < |entries| && Refusing(t.core, entries[j])
        ensures Index(t.core.issued, PublishRejection(entries[i].p)) <= Index(t.core.issued, PublishRejection(entries[j].p))
      {
        OldFirst(s, entries, s1, t, i, j);
      }
      StillRefusing(s, entries, s1, t, i);
    }
    hide Called;
  }

  /** A rejection pushed before the call comes before one pushed after it. */
  lemma OldFirst(s: State, entries: seq<Entry>, s1: State, t: State, i: nat, j: nat)
    requires Called(s, entries, s1, t) && i < |entries| && j < |entries| && Refusing(s.core, entries[i]) && Refusing(t.core, entries[j])
    requires Refusing(s.core, entries[j]) ==>
      Index(s.core.issued, PublishRejection(entries[i].p)) <= Index(s.core.issued, PublishRejection(entries[j].p))
    ensures Index(t.core.issued, PublishRejection(entries[i].p)) <= Index(t.core.issued, PublishRejection(entries[j].p))
  {
    StillRefusing(s, entries, s1, t, i);
    CallKnows(s, entries, s1, t);
    IndexIs(s.core.issued, PublishRejection(entries[i].p));
    if Refusing(s.core, entries[j]) {
      StillRefusing(s, entries, s1, t, j);
    } else if PublishRejection(entries[j].p) !in s.core.issued {
      PastPrefix(s.core.issued, t.core.issued, PublishRejection(entries[j].p));
    } else {
      IssuedIsKnown(s, entries, s1, t, entries[j].p);
    }
    hide Called, Index;
  }

  lemma IssuedIsKnown(s: State, entries: seq<Entry>, s1: State, t: State, p: nat)
    requires Called(s, entries, s1, t) && PublishRejection(p) in s.core.issued
    ensures p < |s.core.promises|
  {
    assert KnownTasks(|s.core.promises|, s.core.issued);
  }

  lemma QueueHides(s: State, entries: seq<Entry>, s1: State, t: State, i: nat)
    requires Called(s, entries, s1, t) && i < |entries| && CountsFirst(s, t, entries, i)
    requires SomeRejected(s.core, entries) && SomeInQueue(s.core, entries)
    ensures !FirstPublished(t.core, entries, i)
  {
    var j :| 0 <= j < |entries| && EntryRejected(s.core, entries[j]);
    assert Inv(s.core) && Ordered(s.core);
    RejectedIsRefusing(s, entries, s1, t, j);
    StillRefusing(s, entries, s1, t, j);
    StillRefusing(s, entries, s1, t, i);
    hide Called, Inv, Ordered, Index;
    PublishedBefore(s.core, entries[j].p, entries[i].p);
  }

  lemma OnlyRejected(s: State, entries: seq<Entry>, s1: State, t: State, i: nat)
    requires Called(s, entries, s1, t) && i < |entries| && CountsFirst(s, t, entries, i)
    requires SomeRejected(s.core, entries) && !SomeInQueue(s.core, entries)
    ensures FirstPublished(t.core, entries, i) <==> FirstPublished(s.core, entries, i)
  {
    RejectedIsRefusing(s, entries, s1, t, i);
    StillRefusing(s, entries, s1, t, i);
    forall j | 0 <= j < |entries| && Refusing(s.core, entries[j])
      ensures Refusing(t.core, entries[j])
      ensures Index(t.core.issued, PublishRejection(entries[j].p)) == Index(s.core.issued, PublishRejection(entries[j].p))
    {
      StillRefusing(s, entries, s1, t, j);
    }
    hide Index;
    if FirstPublished(s.core, entries, i) {
      forall j | 0 <= j < |entries| && Refusing(t.core, entries[j])
        ensures Index(t.core.issued, PublishRejection(entries[i].p)) <= Index(t.core.issued, PublishRejection(entries[j].p))
      {
        OldFirst(s, entries, s1, t, i, j);
      }
    }
    hide Called;
  }
}
