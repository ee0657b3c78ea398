/** What P.all and callback-less `then` calls make of the outcomes they wait for, in every run. */
module PromiseOutcomes {
  import opened Options
  import opened Promises
  import opened PromiseMachine
  import opened PromiseSafety

  /**
   * The promises that code outside P.all may settle: those with resolvers in user hands, and the
   * children of subscribers whose callback has started.
   */
  ghost predicate Unlocked(c: Core, p: nat) {
    p < |c.promises| &&
    (c.promises[p].origin == Open ||
     (c.promises[p].origin == Derived && exists i :: 0 <= i < |c.started| && c.started[i].child == p))
  }

  predicate OfGathering(h: Handler) {
    h.Item? || h.Fail?
  }

  predicate Ordinary(sub: Subscriber) {
    !OfGathering(sub.fulfilled) && !OfGathering(sub.rejected)
  }

  ghost predicate GuardsUnlocked(c: Core, guards: seq<Guard>) {
    forall g :: 0 <= g < |guards| ==> Unlocked(c, guards[g].promise)
  }

  /** From s to t only unlocked promises were settled, and only ordinary subscribers were added. */
  ghost predicate Tame(s: State, t: State) {
    var c, d := s.core, t.core;
    && Good(c, d)
    && t.alls == s.alls && t.invoking == s.invoking && d.started == c.started
    && (forall i :: |c.registered| <= i < |d.registered| ==>
          Ordinary(d.registered[i]) && |c.promises| <= d.registered[i].child)
    && (forall i :: |c.issued| <= i < |d.issued| && !d.issued[i].Invoke? ==> Unlocked(c, d.issued[i].p))
    && (forall p :: |c.promises| <= p < |d.promises| ==> d.promises[p].status == PENDING && d.promises[p].origin == Derived)
    && (forall p :: 0 <= p < |c.promises| && !Unlocked(c, p) && c.promises[p].status == PENDING ==> d.promises[p].status == PENDING)
    && GuardsUnlocked(d, t.guards)
  }

  lemma UnlockedStays(c: Core, d: Core, p: nat)
    requires Good(c, d)
    ensures Unlocked(c, p) ==> Unlocked(d, p)
  {
    hide Inv;
    if Unlocked(c, p) {
      assert Later(c.promises[p], d.promises[p]);
      assert forall i :: 0 <= i < |c.started| ==> d.started[i] == c.started[i];
    }
  }

  lemma NewcomerIsLocked(c: Core, d: Core, p: nat)
    requires Inv(c) && Good(c, d) && d.started == c.started && |c.promises| <= p < |d.promises| && d.promises[p].origin == Derived
    ensures !Unlocked(d, p)
  {
    assert forall i :: 0 <= i < |c.started| ==> KnownSub(|c.promises|, c.started[i]);
  }

  lemma LockedBefore(c: Core, d: Core, p: nat)
    requires Good(c, d) && d.started == c.started && p < |c.promises|
    ensures Unlocked(d, p) ==> Unlocked(c, p)
  {
    hide Inv;
    assert Later(c.promises[p], d.promises[p]);
  }

  lemma TameTrans(s: State, t: State, u: State)
    requires Inv(s.core) && Tame(s, t) && Tame(t, u)
    ensures Tame(s, u)
  {
    var c, d, e := s.core, t.core, u.core;
    GoodTrans(c, d, e);
    forall p | 0 <= p < |d.promises|
      ensures Unlocked(d, p) ==> Unlocked(c, p)
    {
      if p < |c.promises| {
        LockedBefore(c, d, p);
      } else {
        NewcomerIsLocked(c, d, p);
      }
    }
    hide Inv, Unlocked, GuardsUnlocked;
    forall p | 0 <= p < |e.promises|
      ensures |c.promises| <= p ==> e.promises[p].status == PENDING && e.promises[p].origin == Derived
      ensures p < |c.promises| && !Unlocked(c, p) && c.promises[p].status == PENDING ==> e.promises[p].status == PENDING
    {
      if p < |d.promises| {
        assert Later(d.promises[p], e.promises[p]);
      }
    }
    forall i | |c.registered| <= i < |e.registered|
      ensures Ordinary(e.registered[i]) && |c.promises| <= e.registered[i].child
    {
      if i < |d.registered| {
        assert d.registered[i] == e.registered[i];
      }
    }
    forall i | |c.issued| <= i < |e.issued| && !e.issued[i].Invoke?
      ensures Unlocked(c, e.issued[i].p)
    {
      if i < |d.issued| {
        assert d.issued[i] == e.issued[i];
      } else {
        assert Unlocked(d, e.issued[i].p);
        UnlockedInRange(d, e.issued[i].p);
      }
    }
  }

  lemma UnlockedInRange(c: Core, p: nat)
    requires Unlocked(c, p)
    ensures p < |c.promises|
  {}

  // ----- the functions that settle unlocked promises -----

  lemma SelfTame(s: State)
    requires Inv(s.core) && GuardsUnlocked(s.core, s.guards)
    ensures Tame(s, s)
  {
    Unchanged(s.core);
    hide Inv;
  }

  lemma SettleTame(s: State, p: nat, v: Value)
    requires Inv(s.core) && Unlocked(s.core, p) && GuardsUnlocked(s.core, s.guards)
    ensures Tame(s, FulfillAt(s, p, v)) && Tame(s, RejectAt(s, p, v))
  {
    hide Inv, Good, GuardsUnlocked;
    SettleGood(s, p, v);
    GuardsStay(s.core, FulfillAt(s, p, v).core, s.guards);
    GuardsStay(s.core, RejectAt(s, p, v).core, s.guards);
  }

  lemma GuardsStay(c: Core, d: Core, guards: seq<Guard>)
    requires Good(c, d) && GuardsUnlocked(c, guards)
    ensures GuardsUnlocked(d, guards)
  {
    hide Good, Unlocked;
    forall g | 0 <= g < |guards|
      ensures Unlocked(d, guards[g].promise)
    {
      UnlockedStays(c, d, guards[g].promise);
    }
  }

  lemma ThenTame(s: State, p: nat, f: Handler, r: Handler)
    requires Inv(s.core) && GuardsUnlocked(s.core, s.guards) && !OfGathering(f) && !OfGathering(r)
    ensures Tame(s, ThenAt(s, p, f, r))
  {
    hide Inv, GuardsUnlocked, Unlocked;
    ThenGood(s, p, f, r);
    GuardsStay(s.core, ThenAt(s, p, f, r).core, s.guards);
    hide Good, Extends;
  }

  /** A fresh guard for an unlocked promise. */
  lemma GuardTame(s: State, t: State, guard: Guard)
    requires Tame(s, t) && Unlocked(s.core, guard.promise)
    ensures Tame(s, t.(guards := t.guards + [guard]))
  {
    UnlockedStays(s.core, t.core, guard.promise);
    hide Good, Unlocked;
  }

  lemma HandleThenableTame(s: State, p: nat, v: Value, how: Foreign)
    requires Inv(s.core) && Unlocked(s.core, p) && GuardsUnlocked(s.core, s.guards)
    ensures Tame(s, HandleThenable(s, p, v, how).0)
  {
    hide Tame, Unlocked, GuardsUnlocked, FulfillAt, RejectAt, ThenAt, Inv;
    var g, guard := |s.guards|, Guard(p, v, false);
    SelfTame(s);
    SettleTame(s, p, TypeError);
    GuardTame(s, s, guard);
    if v.PromiseRef? {
      ThenTame(s, v.p, Adopt(g), Refuse(g));
      GuardTame(s, ThenAt(s, v.p, Adopt(g), Refuse(g)), guard);
      GuardedThen(s, v.p, Adopt(g), Refuse(g), guard);
    }
    if how.GetterThrows? {
      SettleTame(s, p, how.e);
    }
    CalledTame(s, guard);
  }

  /** A foreign then is called with a fresh guard. */
  lemma CalledTame(s: State, guard: Guard)
    requires Inv(s.core) && Unlocked(s.core, guard.promise) && GuardsUnlocked(s.core, s.guards)
    ensures Tame(s, s.(guards := s.guards + [guard], calls := s.calls + [|s.guards|]))
  {
    SelfTame(s);
    hide Good, Unlocked;
  }

  /** The guard may be added before `then` is called. */
  lemma GuardedThen(s: State, p: nat, f: Handler, r: Handler, guard: Guard)
    ensures ThenAt(s.(guards := s.guards + [guard]), p, f, r) == var t := ThenAt(s, p, f, r); t.(guards := t.guards + [guard])
  {}

  lemma ResolveTame(s: State, p: nat, v: Value, how: Foreign)
    requires Inv(s.core) && Unlocked(s.core, p) && GuardsUnlocked(s.core, s.guards)
    ensures Tame(s, Resolve(s, p, v, how))
  {
    hide Inv, Unlocked, GuardsUnlocked, HandleThenable, FulfillAt;
    SettleTame(s, p, v);
    HandleThenableTame(s, p, v, how);
    var t := HandleThenable(s, p, v, how).0;
    TameGives(s, t, p);
    SettleTame(t, p, v);
    TameTrans(s, t, FulfillAt(t, p, v));
  }

  lemma TameGives(s: State, t: State, p: nat)
    requires Tame(s, t)
    ensures Inv(t.core) && GuardsUnlocked(t.core, t.guards) && (Unlocked(s.core, p) ==> Unlocked(t.core, p))
  {
    UnlockedStays(s.core, t.core, p);
  }

  lemma MarkedTame(s: State, g: nat)
    requires Inv(s.core) && GuardsUnlocked(s.core, s.guards) && g < |s.guards|
    ensures var t := s.(guards := s.guards[g := s.guards[g].(resolved := true)]); Tame(s, t)
  {
    SelfTame(s);
    hide Inv, Good, Unlocked;
  }

  lemma ClosuresTame(s: State, g: nat, v: Value, how: Foreign)
    requires Inv(s.core) && GuardsUnlocked(s.core, s.guards)
    ensures Tame(s, CallAdopt(s, g, v, how)) && Tame(s, CallRefuse(s, g, v))
  {
    SelfTame(s);
    hide Inv, Unlocked, Tame, FulfillAt, RejectAt, Resolve;
    if g < |s.guards| {
      var t, p := s.(guards := s.guards[g := s.guards[g].(resolved := true)]), s.guards[g].promise;
      MarkedTame(s, g);
      TameGives(s, t, p);
      SettleTame(t, p, v);
      ResolveTame(t, p, v, how);
      TameTrans(s, t, FulfillAt(t, p, v));
      TameTrans(s, t, RejectAt(t, p, v));
      TameTrans(s, t, Resolve(t, p, v, how));
    }
  }

  lemma CompleteTame(s: State, sub: Subscriber, fulfilled: bool, v: Value, how: Foreign, again: Foreign)
    requires Inv(s.core) && Unlocked(s.core, sub.child) && GuardsUnlocked(s.core, s.guards)
    ensures Tame(s, Complete(s, sub, fulfilled, v, how, again))
  {
    hide Inv, Unlocked, GuardsUnlocked, Tame, HandleThenable, RejectAt, Resolve;
    var t := HandleThenable(s, sub.child, v, how).0;
    HandleThenableTame(s, sub.child, v, how);
    TameGives(s, t, sub.child);
    ResolveTame(t, sub.child, v, again);
    SettleTame(t, sub.child, v);
    TameTrans(s, t, Resolve(t, sub.child, v, again));
    TameTrans(s, t, RejectAt(t, sub.child, v));
  }

  // ----- the values that reached P.all -----

  /** The value that the callback for entry i of gathering a was started with. */
  function Resulted(subs: seq<Subscriber>, ps: seq<Promise>, a: nat, i: nat): Option<Value> {
    if subs == [] then None
    else
      var last := subs[|subs| - 1];
      if last.fulfilled == Item(a, i) && last.owner < |ps| && ps[last.owner].status == FULFILLED then Some(ps[last.owner].data)
      else Resulted(subs[..|subs| - 1], ps, a, i)
  }

  /** The reason of the first rejected entry of gathering a whose callback was started. */
  function Refused(subs: seq<Subscriber>, ps: seq<Promise>, a: nat): Option<Value> {
    if subs == [] then None
    else
      var last, before := subs[|subs| - 1], Refused(subs[..|subs| - 1], ps, a);
      if before.Some? then before
      else if last.rejected == Fail(a) && last.owner < |ps| && ps[last.owner].status == REJECTED then Some(ps[last.owner].data)
      else None
  }

  function Missing(results: seq<Option<Value>>): nat {
    if results == [] then 0 else Missing(results[..|results| - 1]) + if results[|results| - 1].None? then 1 else 0
  }

  ghost predicate Frozen(subs: seq<Subscriber>, ps: seq<Promise>, qs: seq<Promise>) {
    |ps| <= |qs| && forall i :: 0 <= i < |subs| ==>
      subs[i].owner < |ps| && IsPublished(ps[subs[i].owner]) && Later(ps[subs[i].owner], qs[subs[i].owner])
  }

  lemma {:induction false} FrozenOutcomes(subs: seq<Subscriber>, ps: seq<Promise>, qs: seq<Promise>, a: nat)
    requires Frozen(subs, ps, qs)
    ensures forall i :: Resulted(subs, qs, a, i) == Resulted(subs, ps, a, i)
    ensures Refused(subs, qs, a) == Refused(subs, ps, a)
  {
    if subs != [] {
      assert Later(ps[subs[|subs| - 1].owner], qs[subs[|subs| - 1].owner]);
      FrozenOutcomes(subs[..|subs| - 1], ps, qs, a);
    }
  }

  /** A started callback belongs to a published promise and was registered. */
  lemma StartedIsPublished(c: Core, sub: Subscriber)
    requires Inv(c) && sub in c.started
    ensures sub.owner < |c.promises| && IsPublished(c.promises[sub.owner]) && sub in c.registered
  {
    assert KnownSub(|c.promises|, sub);
    var p := sub.owner;
    assert Sound(ViewOf(c, p));
    OwnedMembers(c.started, sub);
    OwnedMembers(c.registered, sub);
    assert Owned(c.started, p) != [];
    assert sub in Owned(c.started, p) + Waiting(c, p) + Owned(Invoked(Rest(c)), p);
  }

  lemma StartedAreFrozen(c: Core, d: Core)
    requires Inv(c) && Extends(c, d)
    ensures Frozen(c.started, c.promises, d.promises)
  {
    forall i | 0 <= i < |c.started|
      ensures c.started[i].owner < |c.promises| && IsPublished(c.promises[c.started[i].owner])
    {
      StartedIsPublished(c, c.started[i]);
    }
    hide Inv;
  }

  lemma {:induction false} IssuedCounts(tasks: seq<Task>, p: nat)
    ensures PublishFulfillment(p) in tasks || PublishRejection(p) in tasks <==> Publishes(tasks, p) > 0
    ensures PublishFulfillment(p) in tasks && PublishRejection(p) in tasks ==> Publishes(tasks, p) >= 2
  {
    if tasks != [] {
      IssuedCounts(tasks[1..], p);
      assert tasks == [tasks[0]] + tasks[1..];
    }
  }

  /** A publish task was pushed exactly when the promise has left PENDING, and of one kind only. */
  lemma IssuedOnce(c: Core, p: nat)
    requires Inv(c) && p < |c.promises|
    ensures PublishFulfillment(p) in c.issued || PublishRejection(p) in c.issued <==> c.promises[p].status != PENDING
    ensures !(PublishFulfillment(p) in c.issued && PublishRejection(p) in c.issued)
  {
    assert Sound(ViewOf(c, p));
    IssuedCounts(c.issued, p);
  }

  // ----- the invariant -----

  predicate Paired(s: State, sub: Subscriber) {
    sub.fulfilled.Item? && sub.rejected == Fail(sub.fulfilled.all) && sub.fulfilled.all < |s.alls| &&
    var all, i := s.alls[sub.fulfilled.all], sub.fulfilled.index;
    i < |all.entries| && all.entries[i] == Awaited(sub.owner)
  }

  ghost predicate SubsSound(s: State) {
    var c := s.core;
    && (forall j :: 0 <= j < |c.registered| ==>
          var child := c.registered[j].child;
          child < |c.promises| && c.promises[child].origin == Derived &&
          (c.registered[j] !in c.started ==> c.promises[child].status == PENDING))
    && (forall j :: 0 <= j < |c.registered| ==> Ordinary(c.registered[j]) || Paired(s, c.registered[j]))
    && (forall j, k :: 0 <= j < k < |c.registered| && c.registered[j].fulfilled.Item? ==>
          c.registered[j].fulfilled != c.registered[k].fulfilled)
    && (s.invoking.Some? ==> s.invoking.value.sub in c.started)
  }

  ghost predicate AllsSound(s: State) {
    var c := s.core;
    && (forall a :: 0 <= a < |s.alls| ==>
          var all := s.alls[a];
          all.promise < |c.promises| && c.promises[all.promise].origin == Collected && |all.results| == |all.entries|)
    && (forall a, b :: 0 <= a < b < |s.alls| ==> s.alls[a].promise != s.alls[b].promise)
    && (forall a, i :: 0 <= a < |s.alls| && 0 <= i < |s.alls[a].entries| && s.alls[a].entries[i].Awaited? ==>
          exists j :: 0 <= j < |c.registered| && c.registered[j].fulfilled == Item(a, i))
  }

  ghost predicate Tally(s: State, a: nat)
    requires a < |s.alls| && s.alls[a].promise < |s.core.promises| && |s.alls[a].results| == |s.alls[a].entries|
  {
    var c, all := s.core, s.alls[a];
    var q := all.promise;
    var refused := Refused(c.started, c.promises, a);
    && (forall i :: 0 <= i < |all.results| ==> all.results[i] == Outcome(c, all.entries[i], a, i))
    && all.remaining == Missing(all.results)
    && (PublishFulfillment(q) in c.issued <==> all.remaining == 0)
    && (PublishRejection(q) in c.issued <==> refused.Some?)
    && (all.remaining == 0 ==> c.promises[q].data == Results(a))
    && (refused.Some? ==> c.promises[q].data == refused.value)
  }

  function Outcome(c: Core, entry: Entry, a: nat, i: nat): Option<Value> {
    if entry.Given? then Some(entry.v) else Resulted(c.started, c.promises, a, i)
  }

  ghost predicate Whole(s: State) {
    && Inv(s.core) && GuardsUnlocked(s.core, s.guards) && SubsSound(s) && AllsSound(s)
    && forall a :: 0 <= a < |s.alls| ==> Tally(s, a)
  }

  // ----- tame changes keep it -----

  lemma CollectedIsLocked(c: Core, p: nat)
    requires p < |c.promises| && c.promises[p].origin == Collected
    ensures !Unlocked(c, p)
  {}

  lemma TallyFrame(s: State, t: State, a: nat)
    requires Whole(s) && Tame(s, t) && a < |s.alls|
    ensures s.alls[a].promise < |t.core.promises| && Tally(t, a)
  {
    var c, d, q := s.core, t.core, s.alls[a].promise;
    assert Tally(s, a) && c.promises[q].origin == Collected;
    CollectedIsLocked(c, q);
    StartedAreFrozen(c, d);
    FrozenOutcomes(c.started, c.promises, d.promises, a);
    IssuedOnce(c, q);
    assert Later(c.promises[q], d.promises[q]);
    hide Inv, Unlocked, GuardsUnlocked, SubsSound, AllsSound, Resulted, Refused, Missing;
    assert forall t :: t in c.issued ==> t in d.issued;
    forall x | x in d.issued && !x.Invoke? && x.p == q
      ensures x in c.issued
    {
      var i :| 0 <= i < |d.issued| && d.issued[i] == x;
      if i < |c.issued| {
        assert c.issued[i] == x;
      }
    }
  }

  lemma SubsFrame(s: State, t: State)
    requires Whole(s) && Tame(s, t)
    ensures SubsSound(t)
  {
    var c, d := s.core, t.core;
    assert KnownSubs(|d.promises|, d.registered) && Ascending(d.registered);
    forall j | 0 <= j < |d.registered|
      ensures var child := d.registered[j].child;
        child < |d.promises| && d.promises[child].origin == Derived &&
        (d.registered[j] !in d.started ==> d.promises[child].status == PENDING)
    {
      var sub := d.registered[j];
      assert KnownSub(|d.promises|, sub);
      if j < |c.registered| {
        assert c.registered[j] == sub && Later(c.promises[sub.child], d.promises[sub.child]);
        if sub !in c.started {
          NotStartedIsLocked(c, j);
        }
      }
    }
    hide Inv, Unlocked, GuardsUnlocked;
    forall j | 0 <= j < |d.registered|
      ensures Ordinary(d.registered[j]) || Paired(t, d.registered[j])
    {
      if j < |c.registered| {
        assert c.registered[j] == d.registered[j];
      }
    }
    forall j, k | 0 <= j < k < |d.registered| && d.registered[j].fulfilled.Item?
      ensures d.registered[j].fulfilled != d.registered[k].fulfilled
    {
      if k < |c.registered| {
        assert c.registered[j] == d.registered[j] && c.registered[k] == d.registered[k];
      }
    }
  }

  lemma NotStartedIsLocked(c: Core, j: nat)
    requires Inv(c) && j < |c.registered| && c.registered[j] !in c.started
    requires c.registered[j].child < |c.promises| && c.promises[c.registered[j].child].origin == Derived
    ensures !Unlocked(c, c.registered[j].child)
  {
    forall i | 0 <= i < |c.started|
      ensures c.started[i].child != c.registered[j].child
    {
      StartedIsPublished(c, c.started[i]);
      var k :| 0 <= k < |c.registered| && c.registered[k] == c.started[i];
      assert Ascending(c.registered);
    }
  }

  lemma AllsFrame(s: State, t: State)
    requires Whole(s) && Tame(s, t)
    ensures AllsSound(t)
  {
    hide Inv, Unlocked, GuardsUnlocked;
    var c, d := s.core, t.core;
    forall a | 0 <= a < |s.alls|
      ensures s.alls[a].promise < |d.promises| && d.promises[s.alls[a].promise].origin == Collected
    {
      assert Later(c.promises[s.alls[a].promise], d.promises[s.alls[a].promise]);
    }
    forall a, i | 0 <= a < |s.alls| && 0 <= i < |s.alls[a].entries| && s.alls[a].entries[i].Awaited?
      ensures exists j :: 0 <= j < |d.registered| && d.registered[j].fulfilled == Item(a, i)
    {
      var j :| 0 <= j < |c.registered| && c.registered[j].fulfilled == Item(a, i);
      assert d.registered[j] == c.registered[j];
    }
  }

  lemma TameKeepsWhole(s: State, t: State)
    requires Whole(s) && Tame(s, t)
    ensures Whole(t)
  {
    SubsFrame(s, t);
    AllsFrame(s, t);
    hide Inv, GuardsUnlocked, SubsSound, AllsSound, Tally;
    forall a | 0 <= a < |t.alls|
      ensures Tally(t, a)
    {
      TallyFrame(s, t, a);
    }
  }

  // ----- a callback starts -----

  lemma {:induction false} ResultedNone(subs: seq<Subscriber>, ps: seq<Promise>, a: nat, i: nat)
    requires forall k :: 0 <= k < |subs| ==> subs[k].fulfilled != Item(a, i)
    ensures Resulted(subs, ps, a, i) == None
  {
    if subs != [] {
      ResultedNone(subs[..|subs| - 1], ps, a, i);
    }
  }

  lemma {:induction false} ResultedSome(subs: seq<Subscriber>, ps: seq<Promise>, a: nat, i: nat) returns (k: nat)
    requires Resulted(subs, ps, a, i).Some?
    ensures k < |subs| && subs[k].fulfilled == Item(a, i) && subs[k].owner < |ps| && ps[subs[k].owner].status == FULFILLED
    ensures Resulted(subs, ps, a, i).value == ps[subs[k].owner].data
  {
    k := |subs| - 1;
    var last := subs[k];
    if !(last.fulfilled == Item(a, i) && last.owner < |ps| && ps[last.owner].status == FULFILLED) {
      k := ResultedSome(subs[..k], ps, a, i);
    }
  }

  lemma {:induction false} RefusedSome(subs: seq<Subscriber>, ps: seq<Promise>, a: nat) returns (k: nat)
    requires Refused(subs, ps, a).Some?
    ensures k < |subs| && subs[k].rejected == Fail(a) && subs[k].owner < |ps| && ps[subs[k].owner].status == REJECTED
    ensures Refused(subs, ps, a).value == ps[subs[k].owner].data
  {
    var n := |subs| - 1;
    if Refused(subs[..n], ps, a).Some? {
      k := RefusedSome(subs[..n], ps, a);
    } else {
      k := n;
    }
  }

  function ResultedNext(subs: seq<Subscriber>, sub: Subscriber, ps: seq<Promise>, a: nat, i: nat): Option<Value>
    requires sub.owner < |ps|
  {
    if sub.fulfilled == Item(a, i) && ps[sub.owner].status == FULFILLED then Some(ps[sub.owner].data) else Resulted(subs, ps, a, i)
  }

  lemma OneMore(subs: seq<Subscriber>, sub: Subscriber, ps: seq<Promise>, a: nat)
    requires sub.owner < |ps|
    ensures forall i :: Resulted(subs + [sub], ps, a, i) == ResultedNext(subs, sub, ps, a, i)
    ensures Refused(subs + [sub], ps, a) ==
      if Refused(subs, ps, a).None? && sub.rejected == Fail(a) && ps[sub.owner].status == REJECTED then Some(ps[sub.owner].data)
      else Refused(subs, ps, a)
  {
    assert (subs + [sub])[..|subs|] == subs;
  }

  lemma {:induction false} MissingUpdate(results: seq<Option<Value>>, i: nat, v: Value)
    requires i < |results|
    ensures Missing(results[i := Some(v)]) == Missing(results) - if results[i].None? then 1 else 0
  {
    var n, updated := |results| - 1, results[i := Some(v)];
    if i < n {
      MissingUpdate(results[..n], i, v);
      assert updated[..n] == results[..n][i := Some(v)];
    } else {
      assert updated[..n] == results[..n];
    }
  }

  lemma {:induction false} MissingNone(results: seq<Option<Value>>)
    ensures Missing(results) == 0 <==> forall i :: 0 <= i < |results| ==> results[i].Some?
  {
    if results != [] {
      MissingNone(results[..|results| - 1]);
    }
  }

  /** All but the tally of gathering a. */
  ghost predicate WholeBut(s: State, a: nat) {
    && Inv(s.core) && GuardsUnlocked(s.core, s.guards) && SubsSound(s) && AllsSound(s)
    && forall b :: 0 <= b < |s.alls| && b != a ==> Tally(s, b)
  }

  /** s1 is s after the flush has picked the callback of sub. */
  ghost predicate Picked(s: State, s1: State, sub: Subscriber) {
    var c, d := s.core, s1.core;
    && Good(c, d) && s1 == s.(core := d) && s.invoking == None
    && d.started == c.started + [sub] && d.registered == c.registered && d.issued == c.issued && d.promises == c.promises
    && sub in c.registered && sub !in c.started
  }

  lemma PickedSubs(s: State, s1: State, sub: Subscriber)
    requires Whole(s) && Picked(s, s1, sub)
    ensures SubsSound(s1) && AllsSound(s1) && GuardsUnlocked(s1.core, s1.guards)
    ensures sub.owner < |s1.core.promises| && IsPublished(s1.core.promises[sub.owner]) && Unlocked(s1.core, sub.child)
  {
    hide Inv, GuardsUnlocked;
    GuardsStay(s.core, s1.core, s.guards);
    StartedIsPublished(s1.core, sub);
    assert s1.core.started[|s.core.started|] == sub;
  }

  lemma PickedTally(s: State, s1: State, sub: Subscriber, a: nat)
    requires Whole(s) && Picked(s, s1, sub) && a < |s.alls| && sub.owner < |s.core.promises|
    requires sub.fulfilled.Item? && sub.fulfilled.all == a ==> false
    requires sub.rejected != Fail(a)
    ensures Tally(s1, a)
  {
    assert Tally(s, a);
    OneMore(s.core.started, sub, s.core.promises, a);
    hide Inv, GuardsUnlocked, SubsSound, AllsSound, Resulted, Refused;
  }

  lemma PickedOrdinary(s: State, s1: State, sub: Subscriber)
    requires Whole(s) && Picked(s, s1, sub) && Ordinary(sub)
    ensures Whole(s1)
  {
    PickedSubs(s, s1, sub);
    hide Inv, GuardsUnlocked, SubsSound, AllsSound, Tally;
    forall a | 0 <= a < |s.alls|
      ensures AllsSound(s1) && Tally(s1, a)
    {
      PickedTally(s, s1, sub, a);
    }
  }

  lemma InvokingWhole(s: State, invoking: Option<Invocation>)
    requires Whole(s) && (invoking.Some? ==> invoking.value.sub in s.core.started)
    ensures Whole(s.(invoking := invoking))
  {
    hide Inv, GuardsUnlocked, Outcome, Refused;
    forall a | 0 <= a < |s.alls|
      ensures Tally(s.(invoking := invoking), a)
    {
      assert Tally(s, a);
    }
  }

  lemma OrdinaryStart(s1: State, sub: Subscriber, how: Foreign, again: Foreign)
    requires Ordinary(sub) && sub.owner < |s1.core.promises|
    ensures var owner, running := s1.core.promises[sub.owner], s1.(invoking := Some(Invocation(sub, true)));
      var handler := if owner.status == FULFILLED then sub.fulfilled else sub.rejected;
      InvokeCallback(s1, sub, how, again) == (
        if handler.Absent? then Complete(s1, sub, owner.status == FULFILLED, owner.data, how, again)
        else if handler.Adopt? then CallAdopt(running, handler.guard, owner.data, how)
        else if handler.Refuse? then CallRefuse(running, handler.guard, owner.data)
        else s1.(invoking := Some(Invocation(sub, false))))
  {
    hide Complete, CallAdopt, CallRefuse;
  }

  lemma OrdinaryCallback(s: State, s1: State, sub: Subscriber, how: Foreign, again: Foreign)
    requires Whole(s) && Picked(s, s1, sub) && Ordinary(sub)
    ensures Whole(InvokeCallback(s1, sub, how, again))
  {
    PickedOrdinary(s, s1, sub);
    PickedSubs(s, s1, sub);
    assert sub in s1.core.started;
    OrdinaryStart(s1, sub, how, again);
    hide Whole, Unlocked, Picked, Complete, InvokeCallback, CallAdopt, CallRefuse, IsPublished;
    var owner, running := s1.core.promises[sub.owner], s1.(invoking := Some(Invocation(sub, true)));
    InvokingWhole(s1, Some(Invocation(sub, true)));
    InvokingWhole(s1, Some(Invocation(sub, false)));
    CompletesWhole(s1, sub, owner.status == FULFILLED, owner.data, how, again);
    match if owner.status == FULFILLED then sub.fulfilled else sub.rejected
    case Adopt(g) => ClosuresWhole(running, g, owner.data, how);
    case Refuse(g) => ClosuresWhole(running, g, owner.data, how);
    case _ =>
  }

  lemma ClosuresWhole(s: State, g: nat, v: Value, how: Foreign)
    requires Whole(s)
    ensures Whole(CallAdopt(s, g, v, how)) && Whole(CallRefuse(s, g, v))
  {
    ClosuresTame(s, g, v, how);
    TameKeepsWhole(s, CallAdopt(s, g, v, how));
    TameKeepsWhole(s, CallRefuse(s, g, v));
  }

  lemma CompletesWhole(s: State, sub: Subscriber, fulfilled: bool, v: Value, how: Foreign, again: Foreign)
    requires Whole(s) && Unlocked(s.core, sub.child)
    ensures Whole(Complete(s, sub, fulfilled, v, how, again))
  {
    CompleteTame(s, sub, fulfilled, v, how, again);
    TameKeepsWhole(s, Complete(s, sub, fulfilled, v, how, again));
  }

  // ----- callbacks of P.all -----

  /** The results and the count of gathering a agree with the callbacks started. */
  ghost predicate Counted(s: State, a: nat)
    requires a < |s.alls| && |s.alls[a].results| == |s.alls[a].entries|
  {
    var all := s.alls[a];
    && (forall i :: 0 <= i < |all.results| ==> all.results[i] == Outcome(s.core, all.entries[i], a, i))
    && all.remaining == Missing(all.results)
  }

  /** The promise of a gathering is settled: nothing but its own tally is concerned. */
  lemma SettleCollected(t: State, a: nat, v: Value, u: State)
    requires WholeBut(t, a) && a < |t.alls| && t.core.promises[t.alls[a].promise].status == PENDING
    requires u == FulfillAt(t, t.alls[a].promise, v) || u == RejectAt(t, t.alls[a].promise, v)
    ensures WholeBut(u, a)
    ensures u.alls == t.alls && u.core.started == t.core.started && Good(t.core, u.core)
    ensures u.core.promises[u.alls[a].promise].data == v
    ensures Refused(u.core.started, u.core.promises, a) == Refused(t.core.started, t.core.promises, a)
    ensures forall i :: Resulted(u.core.started, u.core.promises, a, i) == Resulted(t.core.started, t.core.promises, a, i)
  {
    var q, c, d := t.alls[a].promise, t.core, u.core;
    SettleGood(t, q, v);
    GuardsStay(c, d, t.guards);
    StartedAreFrozen(c, d);
    FrozenOutcomes(c.started, c.promises, d.promises, a);
    SettleCollectedSubs(t, q, v, u);
    hide Inv, GuardsUnlocked, SubsSound, Resulted, Refused, Missing;
    forall b | 0 <= b < |t.alls| && b != a
      ensures Tally(u, b)
    {
      assert Tally(t, b) && t.alls[b].promise != q;
      FrozenOutcomes(c.started, c.promises, d.promises, b);
    }
  }

  lemma SettleCollectedSubs(t: State, q: nat, v: Value, u: State)
    requires SubsSound(t) && AllsSound(t) && q < |t.core.promises| && t.core.promises[q].origin == Collected
    requires u == FulfillAt(t, q, v) || u == RejectAt(t, q, v)
    ensures SubsSound(u) && AllsSound(u)
  {
    var c, d := t.core, u.core;
    assert d.registered == c.registered && d.started == c.started && u.alls == t.alls && u.invoking == t.invoking;
    assert |d.promises| == |c.promises| && forall p :: 0 <= p < |c.promises| ==>
      d.promises[p].origin == c.promises[p].origin && (p != q ==> d.promises[p].status == c.promises[p].status);
    hide FulfillAt, RejectAt;
    assert AllsSound(u);
    hide AllsSound;
    assert forall j :: 0 <= j < |d.registered| ==> Paired(t, d.registered[j]) == Paired(u, d.registered[j]);
    hide Paired;
  }

  /** The variables of gathering a change, its entries do not. */
  lemma Recounted(s: State, t: State, a: nat)
    requires Inv(s.core) && GuardsUnlocked(s.core, s.guards) && SubsSound(s) && AllsSound(s) && a < |s.alls|
    requires forall b :: 0 <= b < |s.alls| && b != a ==> Tally(s, b)
    requires |t.alls| == |s.alls| && t == s.(invoking := t.invoking, alls := s.alls[a := t.alls[a]])
    requires t.alls[a].entries == s.alls[a].entries && t.alls[a].promise == s.alls[a].promise && |t.alls[a].results| == |s.alls[a].results|
    requires t.invoking.Some? ==> t.invoking.value.sub in s.core.started
    ensures WholeBut(t, a)
  {
    hide Inv, GuardsUnlocked, Outcome, Refused, Missing;
    forall b | 0 <= b < |t.alls| && b != a
      ensures Tally(t, b)
    {
      assert Tally(s, b);
    }
  }

  lemma PickedBut(s: State, s1: State, sub: Subscriber)
    requires Whole(s) && Picked(s, s1, sub) && Paired(s, sub)
    ensures WholeBut(s1, sub.fulfilled.all)
  {
    PickedSubs(s, s1, sub);
    hide Inv, GuardsUnlocked, SubsSound, Tally;
    forall b | 0 <= b < |s.alls| && b != sub.fulfilled.all
      ensures Tally(s1, b)
    {
      PickedTally(s, s1, sub, b);
    }
  }

  /** Only one subscriber carries the callback for entry i of gathering a. */
  lemma UniqueItem(s: State, x: Subscriber, y: Subscriber)
    requires SubsSound(s) && x in s.core.registered && y in s.core.registered && x.fulfilled.Item? && x.fulfilled == y.fulfilled
    ensures x == y
  {}

  /** No callback of entry i has started before that of sub. */
  lemma NoEarlierItem(s: State, sub: Subscriber)
    requires Whole(s) && sub in s.core.registered && sub !in s.core.started && sub.fulfilled.Item?
    ensures Resulted(s.core.started, s.core.promises, sub.fulfilled.all, sub.fulfilled.index) == None
  {
    forall k | 0 <= k < |s.core.started|
      ensures s.core.started[k].fulfilled != sub.fulfilled
    {
      StartedIsPublished(s.core, s.core.started[k]);
      if s.core.started[k].fulfilled == sub.fulfilled {
        UniqueItem(s, s.core.started[k], sub);
      }
    }
    hide Inv, SubsSound;
    ResultedNone(s.core.started, s.core.promises, sub.fulfilled.all, sub.fulfilled.index);
  }

  /** A refused entry has no result, so its gathering is not complete. */
  lemma RefusedIsMissing(s: State, a: nat)
    requires Inv(s.core) && SubsSound(s) && AllsSound(s) && a < |s.alls| && Counted(s, a)
    requires Refused(s.core.started, s.core.promises, a).Some?
    ensures s.alls[a].remaining > 0
  {
    var c := s.core;
    var k := RefusedSome(c.started, c.promises, a);
    var x := c.started[k];
    StartedIsPublished(c, x);
    assert Paired(s, x) && x.fulfilled.all == a;
    var i := x.fulfilled.index;
    if Resulted(c.started, c.promises, a, i).Some? {
      var j := ResultedSome(c.started, c.promises, a, i);
      StartedIsPublished(c, c.started[j]);
      UniqueItem(s, x, c.started[j]);
      assert false;
    }
    MissingNone(s.alls[a].results);
    assert s.alls[a].results[i] == Outcome(c, s.alls[a].entries[i], a, i);
  }

  function Arrived(all: Gathering, i: nat, v: Value): Gathering
    requires i < |all.results|
  {
    all.(results := all.results[i := Some(v)], remaining := all.remaining - 1)
  }

  lemma ItemCounted(s: State, s1: State, sub: Subscriber, t: State)
    requires Whole(s) && Picked(s, s1, sub) && Paired(s, sub) && sub.owner < |s.core.promises|
    requires s.core.promises[sub.owner].status == FULFILLED
    requires sub.fulfilled.index < |s.alls[sub.fulfilled.all].results| && |t.alls| == |s.alls| && t.core == s1.core
    requires t.alls[sub.fulfilled.all] == Arrived(s.alls[sub.fulfilled.all], sub.fulfilled.index, s.core.promises[sub.owner].data)
    ensures Counted(t, sub.fulfilled.all) && s.alls[sub.fulfilled.all].remaining > 0
  {
    var a, i, c := sub.fulfilled.all, sub.fulfilled.index, s.core;
    var all := s.alls[a];
    assert Tally(s, a);
    NoEarlierItem(s, sub);
    OneMore(c.started, sub, c.promises, a);
    hide Inv, GuardsUnlocked, SubsSound, AllsSound, Resulted, Refused;
    assert all.results[i] == Outcome(c, all.entries[i], a, i);
    MissingUpdate(all.results, i, c.promises[sub.owner].data);
    forall j | 0 <= j < |all.results|
      ensures t.alls[a].results[j] == Outcome(t.core, all.entries[j], a, j)
    {
      assert all.results[j] == Outcome(c, all.entries[j], a, j);
    }
  }

  /** A gathering whose counting is up to date and which has not fulfilled its promise. */
  ghost predicate Awaiting(t: State, a: nat)
    requires a < |t.alls| && t.alls[a].promise < |t.core.promises| && |t.alls[a].results| == |t.alls[a].entries|
  {
    var q, refused := t.alls[a].promise, Refused(t.core.started, t.core.promises, a);
    && Counted(t, a)
    && PublishFulfillment(q) !in t.core.issued
    && (PublishRejection(q) in t.core.issued <==> refused.Some?)
    && (refused.Some? ==> t.core.promises[q].data == refused.value)
  }

  lemma FinishItem(t: State, a: nat)
    requires a < |t.alls| && WholeBut(t, a) && Awaiting(t, a)
    ensures Whole(if t.alls[a].remaining == 0 then FulfillAt(t, t.alls[a].promise, Results(a)) else t)
  {
    var q := t.alls[a].promise;
    IssuedOnce(t.core, q);
    if t.alls[a].remaining == 0 {
      if Refused(t.core.started, t.core.promises, a).Some? {
        RefusedIsMissing(t, a);
      }
      SettleCollected(t, a, Results(a), FulfillAt(t, q, Results(a)));
      IssuedBy(t, q, Results(a));
    }
    hide GuardsUnlocked, SubsSound, AllsSound, Resulted, Refused, Inv, FulfillAt;
  }

  lemma ItemAwaiting(s: State, s1: State, sub: Subscriber, t: State)
    requires Whole(s) && Picked(s, s1, sub) && Paired(s, sub) && sub.owner < |s.core.promises|
    requires s.core.promises[sub.owner].status == FULFILLED
    requires sub.fulfilled.index < |s.alls[sub.fulfilled.all].results|
    requires var a, v := sub.fulfilled.all, s.core.promises[sub.owner].data;
      t == s1.(invoking := Some(Invocation(sub, true)), alls := s1.alls[a := Arrived(s.alls[a], sub.fulfilled.index, v)])
    ensures WholeBut(t, sub.fulfilled.all) && Awaiting(t, sub.fulfilled.all)
  {
    var a := sub.fulfilled.all;
    PickedBut(s, s1, sub);
    assert s1.core.started[|s.core.started|] == sub;
    Recounted(s1, t, a);
    ItemCounted(s, s1, sub, t);
    assert Tally(s, a);
    OneMore(s.core.started, sub, s.core.promises, a);
    hide GuardsUnlocked, SubsSound, AllsSound, Resulted, Refused, Inv;
  }

  lemma ItemArrives(s: State, a: nat, i: nat, v: Value)
    requires a < |s.alls| && i < |s.alls[a].results|
    ensures var t := s.(alls := s.alls[a := Arrived(s.alls[a], i, v)]);
      CallItem(s, a, i, v) == if t.alls[a].remaining == 0 then FulfillAt(t, t.alls[a].promise, Results(a)) else t
  {
    hide FulfillAt;
  }

  lemma ItemCallback(s: State, s1: State, sub: Subscriber)
    requires Whole(s) && Picked(s, s1, sub) && Paired(s, sub) && sub.owner < |s.core.promises|
    requires s.core.promises[sub.owner].status == FULFILLED
    ensures Whole(CallItem(s1.(invoking := Some(Invocation(sub, true))), sub.fulfilled.all, sub.fulfilled.index, s.core.promises[sub.owner].data))
  {
    var a, i, v := sub.fulfilled.all, sub.fulfilled.index, s.core.promises[sub.owner].data;
    assert |s.alls[a].results| == |s.alls[a].entries|;
    hide Whole, WholeBut, Awaiting, Picked, FulfillAt, CallItem;
    ItemArrives(s1.(invoking := Some(Invocation(sub, true))), a, i, v);
    var t := s1.(invoking := Some(Invocation(sub, true)), alls := s1.alls[a := Arrived(s.alls[a], i, v)]);
    assert s1.alls == s.alls by { PickedAlls(s, s1, sub); }
    ItemAwaiting(s, s1, sub, t);
    FinishItem(t, a);
  }

  lemma PickedAlls(s: State, s1: State, sub: Subscriber)
    requires Picked(s, s1, sub)
    ensures s1.alls == s.alls && s1.core.promises == s.core.promises
  {}

  lemma IssuedBy(t: State, q: nat, v: Value)
    requires q < |t.core.promises| && t.core.promises[q].status == PENDING
    ensures FulfillAt(t, q, v).core.issued == t.core.issued + [PublishFulfillment(q)]
    ensures RejectAt(t, q, v).core.issued == t.core.issued + [PublishRejection(q)]
  {}

  /** The first refusal settles the promise of the gathering, later ones find it settled. */
  lemma FinishFail(t: State, a: nat, v: Value, earlier: Option<Value>)
    requires a < |t.alls| && WholeBut(t, a) && Counted(t, a) && t.alls[a].remaining > 0
    requires var q := t.alls[a].promise;
      && PublishFulfillment(q) !in t.core.issued
      && (PublishRejection(q) in t.core.issued <==> earlier.Some?)
      && (earlier.Some? ==> t.core.promises[q].data == earlier.value)
      && Refused(t.core.started, t.core.promises, a) == if earlier.Some? then earlier else Some(v)
    ensures Whole(RejectAt(t, t.alls[a].promise, v))
  {
    var q := t.alls[a].promise;
    IssuedOnce(t.core, q);
    if earlier.None? {
      SettleCollected(t, a, v, RejectAt(t, q, v));
      IssuedBy(t, q, v);
    }
    hide GuardsUnlocked, SubsSound, AllsSound, Resulted, Refused, Inv;
  }

  lemma FailCounted(s: State, s1: State, sub: Subscriber, t: State)
    requires Whole(s) && Picked(s, s1, sub) && Paired(s, sub) && sub.owner < |s.core.promises|
    requires s.core.promises[sub.owner].status == REJECTED && t == s1.(invoking := Some(Invocation(sub, true)))
    ensures WholeBut(t, sub.fulfilled.all) && Counted(t, sub.fulfilled.all) && t.alls[sub.fulfilled.all].remaining > 0
    ensures var a, v := sub.fulfilled.all, s.core.promises[sub.owner].data;
      var earlier := Refused(s.core.started, s.core.promises, a);
      Tally(s, a) && Refused(t.core.started, t.core.promises, a) == if earlier.Some? then earlier else Some(v)
  {
    var a, i := sub.fulfilled.all, sub.fulfilled.index;
    PickedBut(s, s1, sub);
    assert s1.core.started[|s.core.started|] == sub;
    Recounted(s1, t, a);
    assert Tally(s, a);
    NoEarlierItem(s, sub);
    OneMore(s.core.started, sub, s.core.promises, a);
    MissingNone(s.alls[a].results);
    assert s.alls[a].results[i] == Outcome(s.core, s.alls[a].entries[i], a, i);
    hide GuardsUnlocked, SubsSound, AllsSound, Resulted, Refused, Inv;
  }

  lemma FailCallback(s: State, s1: State, sub: Subscriber)
    requires Whole(s) && Picked(s, s1, sub) && Paired(s, sub) && sub.owner < |s.core.promises|
    requires s.core.promises[sub.owner].status == REJECTED
    ensures Whole(CallFail(s1.(invoking := Some(Invocation(sub, true))), sub.fulfilled.all, s.core.promises[sub.owner].data))
  {
    var a, v := sub.fulfilled.all, s.core.promises[sub.owner].data;
    var t := s1.(invoking := Some(Invocation(sub, true)));
    FailCounted(s, s1, sub, t);
    hide GuardsUnlocked, SubsSound, AllsSound, Resulted, Refused, Inv, Good, Outcome, Missing;
    FinishFail(t, a, v, Refused(s.core.started, s.core.promises, a));
  }

  lemma InvokePaired(s1: State, sub: Subscriber, how: Foreign, again: Foreign)
    requires sub.fulfilled.Item? && sub.rejected == Fail(sub.fulfilled.all) && sub.owner < |s1.core.promises|
    ensures var owner, running := s1.core.promises[sub.owner], s1.(invoking := Some(Invocation(sub, true)));
      InvokeCallback(s1, sub, how, again) ==
        if owner.status == FULFILLED then CallItem(running, sub.fulfilled.all, sub.fulfilled.index, owner.data)
        else CallFail(running, sub.fulfilled.all, owner.data)
  {
    hide CallItem, CallFail;
  }

  lemma CallbackKeepsWhole(s: State, s1: State, sub: Subscriber, how: Foreign, again: Foreign)
    requires Whole(s) && Picked(s, s1, sub)
    ensures Whole(InvokeCallback(s1, sub, how, again))
  {
    PickedSubs(s, s1, sub);
    assert Ordinary(sub) || Paired(s, sub);
    PickedAlls(s, s1, sub);
    hide Whole, InvokeCallback, Picked, CallItem, CallFail, SubsSound, AllsSound, GuardsUnlocked, Unlocked;
    if Ordinary(sub) {
      OrdinaryCallback(s, s1, sub, how, again);
    } else {
      InvokePaired(s1, sub, how, again);
      if s.core.promises[sub.owner].status == FULFILLED {
        ItemCallback(s, s1, sub);
      } else {
        FailCallback(s, s1, sub);
      }
    }
  }

  // ----- the other steps -----

  /** A promise of any origin is added. */
  lemma AllocateWhole(s: State, origin: Origin)
    requires Whole(s)
    ensures Whole(s.(core := Allocate(s.core, origin)))
  {
    var t := s.(core := Allocate(s.core, origin));
    AllocateGood(s.core, origin);
    GuardsStay(s.core, t.core, s.guards);
    StartedAreFrozen(s.core, t.core);
    AllocateSubs(s, origin);
    hide Inv, GuardsUnlocked, SubsSound, Resulted, Refused, Missing;
    forall a | 0 <= a < |s.alls|
      ensures Tally(t, a)
    {
      assert Tally(s, a);
      FrozenOutcomes(s.core.started, s.core.promises, t.core.promises, a);
    }
  }

  lemma AllocateSubs(s: State, origin: Origin)
    requires SubsSound(s) && AllsSound(s)
    ensures SubsSound(s.(core := Allocate(s.core, origin))) && AllsSound(s.(core := Allocate(s.core, origin)))
  {}

  /** The flush moves on without starting a callback. */
  lemma FlushTame(s: State, d: Core)
    requires Inv(s.core) && GuardsUnlocked(s.core, s.guards) && Good(s.core, d)
    requires d.started == s.core.started && d.registered == s.core.registered && d.issued == s.core.issued
    requires |d.promises| == |s.core.promises|
    ensures Tame(s, s.(core := d))
  {
    GuardsStay(s.core, d, s.guards);
    forall p | 0 <= p < |d.promises| && s.core.promises[p].status == PENDING
      ensures d.promises[p].status == PENDING
    {
      IssuedOnce(s.core, p);
      IssuedOnce(d, p);
    }
    hide Inv, Unlocked, GuardsUnlocked;
  }

  /** The next subscriber of a list that is being published has not started yet. */
  lemma NextNotStarted(c: Core)
    requires Inv(c) && c.publishing.Some? && c.publishing.value.next < |c.promises[c.publishing.value.p].list|
    ensures var sub := c.promises[c.publishing.value.p].list[c.publishing.value.next]; sub in c.registered && sub !in c.started
  {
    VisitNextKeeps(c);
    NewlyStarted(c, VisitNext(c), c.promises[c.publishing.value.p].list[c.publishing.value.next]);
  }

  lemma TaskNotStarted(c: Core)
    requires Inv(c) && Ready(c) && c.queue[c.pos].Invoke?
    ensures c.queue[c.pos].sub in c.registered && c.queue[c.pos].sub !in c.started
  {
    BeginInvokeKeeps(c);
    NewlyStarted(c, BeginInvoke(c), c.queue[c.pos].sub);
  }

  lemma NewlyStarted(c: Core, d: Core, sub: Subscriber)
    requires Inv(d) && d.started == c.started + [sub] && d.registered == c.registered
    ensures sub in c.registered && sub !in c.started
  {
    assert d.started[|c.started|] == sub;
    StartedIsPublished(d, sub);
    StartedOnce(d, sub);
    hide Inv;
  }

  lemma EngineTurnWhole(s: State, how: Foreign, again: Foreign)
    requires Whole(s)
    ensures Whole(EngineTurn(s, how, again))
  {
    var c := s.core;
    assert c.pos <= |c.queue|;
    hide Inv, GuardsUnlocked, Unlocked, SubsSound, AllsSound, Tally, Complete, InvokeCallback;
    if s.calls != [] {
    } else if s.invoking.Some? {
      InvocationEnds(s);
      var t, sub := s.(invoking := None), s.invoking.value.sub;
      CompleteTame(t, sub, true, Undefined, how, again);
      TameKeepsWhole(t, Complete(t, sub, true, Undefined, how, again));
    } else {
      FlushTurnWhole(s, how, again);
    }
  }

  lemma InvocationEnds(s: State)
    requires Whole(s) && s.invoking.Some?
    ensures Whole(s.(invoking := None)) && Unlocked(s.core, s.invoking.value.sub.child)
  {
    StartedIsPublished(s.core, s.invoking.value.sub);
    InvokingWhole(s, None);
    hide Inv, Tally;
  }

  lemma FlushTurnWhole(s: State, how: Foreign, again: Foreign)
    requires Whole(s) && s.calls == [] && s.invoking == None
    ensures Whole(EngineTurn(s, how, again))
  {
    var c := s.core;
    assert c.pos <= |c.queue|;
    FlushGood(c);
    if c.publishing.Some? {
      VisitGood(c);
      var at := c.publishing.value;
      if at.next < |c.promises[at.p].list| {
        NextNotStarted(c);
      }
    } else if c.flushing && c.pos < |c.queue| {
      TaskGood(c);
      if c.queue[c.pos].Invoke? {
        TaskNotStarted(c);
      }
    }
    hide Inv, GuardsUnlocked, Unlocked, SubsSound, AllsSound, Tally, Good, Complete, InvokeCallback;
    if !c.flushing {
      if c.timer {
        FlushTame(s, StartFlush(c));
        TameKeepsWhole(s, s.(core := StartFlush(c)));
      }
    } else if c.publishing.Some? {
      var at := c.publishing.value;
      if at.next < |c.promises[at.p].list| {
        CallbackKeepsWhole(s, s.(core := VisitNext(c)), c.promises[at.p].list[at.next], how, again);
      } else {
        FlushTame(s, EndPublish(c));
        TameKeepsWhole(s, s.(core := EndPublish(c)));
      }
    } else if c.pos >= |c.queue| {
      FlushTame(s, EndFlush(c));
      TameKeepsWhole(s, s.(core := EndFlush(c)));
    } else if c.queue[c.pos].Invoke? {
      CallbackKeepsWhole(s, s.(core := BeginInvoke(c)), c.queue[c.pos].sub, how, again);
    } else {
      FlushTame(s, BeginPublish(c));
      TameKeepsWhole(s, s.(core := BeginPublish(c)));
    }
  }

  // ----- P.all itself -----

  function Awaiteds(entries: seq<Entry>): nat {
    if entries == [] then 0 else Awaiteds(entries[..|entries| - 1]) + if entries[|entries| - 1].Awaited? then 1 else 0
  }

  predicate KnownEntries(c: Core, entries: seq<Entry>) {
    forall i :: 0 <= i < |entries| && entries[i].Awaited? ==> entries[i].p < |c.promises|
  }

  /** Gathering a is the latest one and its loop has dealt with the first i entries. */
  ghost predicate Building(s: State, a: nat, i: nat) {
    var c := s.core;
    && Inv(c) && GuardsUnlocked(c, s.guards) && SubsSound(s)
    && a == |s.alls| - 1 && i <= |s.alls[a].entries|
    && (forall b :: 0 <= b < |s.alls| ==>
          var all := s.alls[b];
          all.promise < |c.promises| && c.promises[all.promise].origin == Collected && |all.results| == |all.entries|)
    && (forall b, e :: 0 <= b < e < |s.alls| ==> s.alls[b].promise != s.alls[e].promise)
    && (forall b, j :: 0 <= b < |s.alls| && 0 <= j < (if b == a then i else |s.alls[b].entries|) && s.alls[b].entries[j].Awaited? ==>
          exists k :: 0 <= k < |c.registered| && c.registered[k].fulfilled == Item(b, j))
    && (forall b :: 0 <= b < a ==> Tally(s, b))
    && Built(s, a, i)
  }

  ghost predicate Built(s: State, a: nat, i: nat)
    requires a < |s.alls| && s.alls[a].promise < |s.core.promises| && |s.alls[a].results| == |s.alls[a].entries| && i <= |s.alls[a].entries|
  {
    var c, all := s.core, s.alls[a];
    && c.promises[all.promise].status == PENDING
    && KnownEntries(c, all.entries)
    && (forall j :: 0 <= j < |all.results| ==>
          all.results[j] == if j < i && all.entries[j].Given? then Some(all.entries[j].v) else None)
    && all.remaining == Awaiteds(all.entries[..i])
    && (forall k :: 0 <= k < |c.registered| && c.registered[k].fulfilled.Item? && c.registered[k].fulfilled.all == a ==>
          c.registered[k].fulfilled.index < i)
    && (forall k :: 0 <= k < |c.started| ==>
          c.started[k].rejected != Fail(a) && (c.started[k].fulfilled.Item? ==> c.started[k].fulfilled.all != a))
  }

  /** A tally that no new publish task concerns. */
  lemma TallyCarried(s: State, t: State, b: nat)
    requires Inv(s.core) && Good(s.core, t.core) && t.core.started == s.core.started
    requires b < |s.alls| && b < |t.alls| && t.alls[b] == s.alls[b]
    requires s.alls[b].promise < |s.core.promises| && |s.alls[b].results| == |s.alls[b].entries| && Tally(s, b)
    requires forall x :: x in t.core.issued && x !in s.core.issued ==> x.Invoke?
    ensures s.alls[b].promise < |t.core.promises| && Tally(t, b)
  {
    var c, d, q := s.core, t.core, s.alls[b].promise;
    StartedAreFrozen(c, d);
    FrozenOutcomes(c.started, c.promises, d.promises, b);
    IssuedOnce(c, q);
    assert Later(c.promises[q], d.promises[q]);
    hide Inv, Resulted, Refused, Missing;
  }

  lemma {:induction false} RefusedNone(subs: seq<Subscriber>, ps: seq<Promise>, a: nat)
    requires forall k :: 0 <= k < |subs| ==> subs[k].rejected != Fail(a)
    ensures Refused(subs, ps, a) == None
  {
    if subs != [] {
      RefusedNone(subs[..|subs| - 1], ps, a);
    }
  }

  lemma {:induction false} MissingIsAwaiteds(results: seq<Option<Value>>, entries: seq<Entry>)
    requires |results| == |entries| && forall j :: 0 <= j < |results| ==> (results[j].None? <==> entries[j].Awaited?)
    ensures Missing(results) == Awaiteds(entries)
  {
    if results != [] {
      MissingIsAwaiteds(results[..|results| - 1], entries[..|entries| - 1]);
    }
  }

  /** At the end of the loop the gathering is like any other, or complete at once. */
  lemma BuiltAll(s: State, a: nat)
    requires a < |s.alls| && Building(s, a, |s.alls[a].entries|)
    ensures WholeBut(s, a) && Awaiting(s, a)
  {
    hide Inv, GuardsUnlocked, SubsSound, Refused, Resulted, Missing, Awaiteds;
    var c, all := s.core, s.alls[a];
    assert AllsSound(s);
    IssuedOnce(c, all.promise);
    forall i | 0 <= i < |all.results|
      ensures all.results[i] == Outcome(c, all.entries[i], a, i)
    {
      if all.entries[i].Awaited? {
        ResultedNone(c.started, c.promises, a, i);
      }
    }
    RefusedNone(c.started, c.promises, a);
    assert all.entries[..|all.entries|] == all.entries;
    MissingIsAwaiteds(all.results, all.entries);
  }

  lemma GivenStep(s: State, a: nat, i: nat, t: State)
    requires Building(s, a, i) && i < |s.alls[a].entries| && s.alls[a].entries[i].Given?
    requires t == s.(alls := s.alls[a := s.alls[a].(results := s.alls[a].results[i := Some(s.alls[a].entries[i].v)])])
    ensures Building(t, a, i + 1)
  {
    var all := s.alls[a];
    assert all.entries[..i + 1][..i] == all.entries[..i];
    hide Inv, GuardsUnlocked;
    forall b | 0 <= b < a
      ensures Tally(t, b)
    {
      assert Tally(s, b);
    }
  }

  lemma AwaitedBuilt(s: State, a: nat, i: nat, p: nat, t: State)
    requires Building(s, a, i) && i < |s.alls[a].entries| && s.alls[a].entries[i] == Awaited(p) && p < |s.core.promises|
    requires t == s.(alls := s.alls[a := s.alls[a].(remaining := s.alls[a].remaining + 1)], core := Then(s.core, p, Item(a, i), Fail(a)))
    ensures Built(t, a, i + 1)
  {
    var all := s.alls[a];
    assert all.entries[..i + 1][..i] == all.entries[..i];
    hide Inv, GuardsUnlocked, SubsSound, Tally;
  }

  lemma AwaitedSubs(s: State, a: nat, i: nat, p: nat, t: State)
    requires Building(s, a, i) && i < |s.alls[a].entries| && s.alls[a].entries[i] == Awaited(p) && p < |s.core.promises|
    requires t == s.(alls := s.alls[a := s.alls[a].(remaining := s.alls[a].remaining + 1)], core := Then(s.core, p, Item(a, i), Fail(a)))
    ensures SubsSound(t)
  {
    var c, d := s.core, t.core;
    assert KnownSubs(|c.promises|, c.registered);
    hide Inv, GuardsUnlocked, Tally;
    var n := |c.registered|;
    assert d.registered == c.registered + [Subscriber(p, |c.promises|, Item(a, i), Fail(a))];
    forall j | 0 <= j < |d.registered|
      ensures Ordinary(d.registered[j]) || Paired(t, d.registered[j])
    {
      assert j < n ==> d.registered[j] == c.registered[j] && (Ordinary(c.registered[j]) || Paired(s, c.registered[j]));
    }
  }

  lemma AwaitedStep(s: State, a: nat, i: nat, p: nat, t: State)
    requires Building(s, a, i) && i < |s.alls[a].entries| && s.alls[a].entries[i] == Awaited(p) && p < |s.core.promises|
    requires t == s.(alls := s.alls[a := s.alls[a].(remaining := s.alls[a].remaining + 1)], core := Then(s.core, p, Item(a, i), Fail(a)))
    ensures Building(t, a, i + 1)
  {
    ThenGood(s, p, Item(a, i), Fail(a));
    GuardsStay(s.core, t.core, s.guards);
    AwaitedSubs(s, a, i, p, t);
    AwaitedBuilt(s, a, i, p, t);
    AwaitedAlls(s, a, i, p, t);
    assert forall x :: x in t.core.issued && x !in s.core.issued ==> x.Invoke?;
    hide Inv, GuardsUnlocked, SubsSound, Tally, Built;
    forall b | 0 <= b < a
      ensures Tally(t, b)
    {
      TallyCarried(s, t, b);
    }
  }

  lemma AwaitedAlls(s: State, a: nat, i: nat, p: nat, t: State)
    requires Building(s, a, i) && i < |s.alls[a].entries| && s.alls[a].entries[i] == Awaited(p) && p < |s.core.promises|
    requires t == s.(alls := s.alls[a := s.alls[a].(remaining := s.alls[a].remaining + 1)], core := Then(s.core, p, Item(a, i), Fail(a)))
    ensures forall b :: 0 <= b < |t.alls| ==>
      (t.alls[b].promise < |t.core.promises| && t.core.promises[t.alls[b].promise].origin == Collected && |t.alls[b].results| == |t.alls[b].entries|)
    ensures forall b, j :: 0 <= b < |t.alls| && 0 <= j < (if b == a then i + 1 else |t.alls[b].entries|) && t.alls[b].entries[j].Awaited? ==>
      exists k :: 0 <= k < |t.core.registered| && t.core.registered[k].fulfilled == Item(b, j)
  {
    hide Inv, GuardsUnlocked, SubsSound, Tally, Built;
    var n := |s.core.registered|;
    assert t.core.registered[n].fulfilled == Item(a, i);
    forall b, j | 0 <= b < |t.alls| && 0 <= j < (if b == a then i + 1 else |t.alls[b].entries|) && t.alls[b].entries[j].Awaited?
      ensures exists k :: 0 <= k < |t.core.registered| && t.core.registered[k].fulfilled == Item(b, j)
    {
      if b != a || j != i {
        assert s.alls[b].entries[j].Awaited?;
        var k :| 0 <= k < n && s.core.registered[k].fulfilled == Item(b, j);
        assert t.core.registered[k].fulfilled == Item(b, j);
      }
    }
  }

  lemma {:induction false} GatherWhole(s: State, a: nat, i: nat)
    requires Building(s, a, i)
    ensures Whole(GatherFrom(s, a, i))
    decreases |s.alls[a].entries| - i
  {
    var all := s.alls[a];
    GatherUnfold(s, a, i);
    if i == |all.entries| {
      BuiltAll(s, a);
      ResolvesPlainly(s, all.promise, a);
      FinishItem(s, a);
    } else {
      match all.entries[i]
      case Given(v) =>
        var t := s.(alls := s.alls[a := all.(results := all.results[i := Some(v)])]);
        GivenStep(s, a, i, t);
        hide Building, Whole;
        GatherWhole(t, a, i + 1);
      case Awaited(p) =>
        var t := ThenAt(s.(alls := s.alls[a := all.(remaining := all.remaining + 1)]), p, Item(a, i), Fail(a));
        AwaitedStep(s, a, i, p, t);
        hide Building, Whole;
        GatherWhole(t, a, i + 1);
    }
  }

  lemma ResolvesPlainly(s: State, q: nat, a: nat)
    ensures Resolve(s, q, Results(a), NotCallable) == FulfillAt(s, q, Results(a))
  {}

  lemma StartGatheringWhole(s: State, entries: seq<Entry>)
    requires Whole(s) && KnownEntries(s.core, entries)
    ensures Whole(StartGathering(s, entries))
  {
    var all := Gathering(entries, seq(|entries|, _ => None), 0, |s.core.promises|);
    var m := s.(core := Allocate(s.core, Collected));
    var t := m.(alls := s.alls + [all]);
    AllocateWhole(s, Collected);
    assert |s.core.promises| <= |m.core.promises| && AllsSound(s);
    AddedGathering(m, all, t);
    GatherWhole(t, |s.alls|, 0);
  }

  lemma AddedGathering(m: State, all: Gathering, t: State)
    requires Whole(m) && t == m.(alls := m.alls + [all]) && |m.core.promises| > 0
    requires all.promise == |m.core.promises| - 1 && m.core.promises[all.promise] == NewPromise.(origin := Collected)
    requires forall b :: 0 <= b < |m.alls| ==> m.alls[b].promise < all.promise
    requires all == Gathering(all.entries, seq(|all.entries|, _ => None), 0, all.promise) && KnownEntries(m.core, all.entries)
    ensures Building(t, |m.alls|, 0)
  {
    var a, c := |m.alls|, m.core;
    assert all.entries[..0] == [];
    forall k | 0 <= k < |c.started|
      ensures c.started[k].rejected != Fail(a) && (c.started[k].fulfilled.Item? ==> c.started[k].fulfilled.all != a)
    {
      StartedIsPublished(c, c.started[k]);
      assert Ordinary(c.started[k]) || Paired(m, c.started[k]);
    }
    assert Built(t, a, 0);
    hide Inv, GuardsUnlocked, Built, Resulted, Refused, Missing;
    forall b | 0 <= b < a
      ensures Tally(t, b)
    {
      assert Tally(m, b);
    }
    assert SubsSound(t);
  }

  lemma UserStepWhole(s: State, e: Event)
    requires Whole(s) && !e.Return? && !e.Throw? && !e.Tick?
    ensures Whole(Step(s, e))
  {
    hide Inv, Unlocked, SubsSound, AllsSound, Tally, Resolve, RejectAt, ThenAt, Allocate, StartGathering, CallAdopt, CallRefuse;
    match e
    case Create => AllocateWhole(s, Open);
    case Subscribe(p, f, r) =>
      if FromUser(f) && FromUser(r) {
        ThenTame(s, p, f, r);
        TameKeepsWhole(s, ThenAt(s, p, f, r));
      }
    case DoResolve(p, v, how) =>
      if p < |s.core.promises| && s.core.promises[p].origin == Open {
        OpenIsUnlocked(s.core, p);
        ResolveTame(s, p, v, how);
        TameKeepsWhole(s, Resolve(s, p, v, how));
      }
    case DoReject(p, v) =>
      if p < |s.core.promises| && s.core.promises[p].origin == Open {
        OpenIsUnlocked(s.core, p);
        SettleTame(s, p, v);
        TameKeepsWhole(s, RejectAt(s, p, v));
      }
    case Gather(entries) =>
      if ValidEntries(s.core, entries) {
        StartGatheringWhole(s, entries);
      }
    case CallResolve(g, v, how) => ClosuresWhole(s, g, v, how);
    case CallReject(g, v) => ClosuresWhole(s, g, v, NotCallable);
    case ThenReturns =>
      if s.calls != [] {
        ReturnsWhole(s);
      }
    case ThenThrows(x) =>
      if s.calls != [] {
        ReturnsWhole(s);
        var t, g := s.(calls := s.calls[..|s.calls| - 1]), s.calls[|s.calls| - 1];
        if g < |s.guards| {
          assert Unlocked(t.core, s.guards[g].promise);
          SettleTame(t, s.guards[g].promise, x);
          TameKeepsWhole(t, RejectAt(t, s.guards[g].promise, x));
        }
      }
  }

  lemma OpenIsUnlocked(c: Core, p: nat)
    requires p < |c.promises| && c.promises[p].origin == Open
    ensures Unlocked(c, p)
  {}

  lemma ReturnsWhole(s: State)
    requires Whole(s) && s.calls != []
    ensures Whole(s.(calls := s.calls[..|s.calls| - 1]))
  {
    var t := s.(calls := s.calls[..|s.calls| - 1]);
    hide Inv, GuardsUnlocked, Outcome, Refused, Missing;
    forall a | 0 <= a < |t.alls|
      ensures Tally(t, a)
    {
      assert Tally(s, a);
    }
  }

  lemma StepWhole(s: State, e: Event)
    requires Whole(s)
    ensures Whole(Step(s, e))
  {
    hide Whole, GuardsUnlocked, Unlocked, SubsSound, AllsSound, Tally, Complete, RejectAt, EngineTurn;
    match e
    case Return(v, how, again) =>
      if s.invoking.Some? {
        InvocationEnds(s);
        CompletesWhole(s.(invoking := None), s.invoking.value.sub, true, v, how, again);
      }
    case Throw(x, how, again) =>
      if s.invoking.Some? && s.invoking.value.sub.owner < |s.core.promises| {
        var sub, t := s.invoking.value.sub, s.(invoking := None);
        InvocationEnds(s);
        RejectsWhole(t, sub.child, x);
        CompletesWhole(RejectAt(t, sub.child, x), sub, true, s.core.promises[sub.owner].data, how, again);
      }
    case Tick(how, again) => EngineTurnWhole(s, how, again);
    case _ => UserStepWhole(s, e);
  }

  lemma RejectsWhole(s: State, p: nat, v: Value)
    requires Whole(s) && Unlocked(s.core, p)
    ensures Whole(RejectAt(s, p, v)) && Unlocked(RejectAt(s, p, v).core, p)
  {
    SettleTame(s, p, v);
    TameKeepsWhole(s, RejectAt(s, p, v));
    TameGives(s, RejectAt(s, p, v), p);
  }

  lemma {:induction false} RunWhole(s: State, es: seq<Event>)
    requires Whole(s)
    ensures Whole(Run(s, es))
  {
    hide Whole, Step;
    if es != [] {
      RunWhole(s, es[..|es| - 1]);
      StepWhole(Run(s, es[..|es| - 1]), es[|es| - 1]);
    }
  }

  lemma ReachableIsWhole(s: State)
    requires Reachable(s)
    ensures Whole(s)
  {
    var es :| s == Run(Start, es);
    StartIsSound();
    RunWhole(Start, es);
  }

  // ----- the outcome of P.all -----

  lemma DrainedIsNotSettled(c: Core, p: nat)
    requires Inv(c) && Drained(c) && p < |c.promises|
    ensures c.promises[p].status != SETTLED
  {
    assert Sound(ViewOf(c, p)) && Rest(c) == [];
  }

  /** What a published status says about the task that was pushed. */
  lemma PublishedAsIssued(c: Core, p: nat)
    requires Inv(c) && p < |c.promises|
    ensures c.promises[p].status == FULFILLED ==> PublishFulfillment(p) in c.issued && PublishRejection(p) !in c.issued
    ensures c.promises[p].status == REJECTED ==> PublishRejection(p) in c.issued && PublishFulfillment(p) !in c.issued
    ensures c.promises[p].status == PENDING ==> PublishFulfillment(p) !in c.issued && PublishRejection(p) !in c.issued
  {
    IssuedOnce(c, p);
  }

  predicate EntryFulfilled(c: Core, entry: Entry) {
    entry.Given? || (entry.p < |c.promises| && c.promises[entry.p].status == FULFILLED)
  }

  predicate EntryRejected(c: Core, entry: Entry) {
    entry.Awaited? && entry.p < |c.promises| && c.promises[entry.p].status == REJECTED
  }

  function EntryValue(c: Core, entry: Entry): Value
    requires EntryFulfilled(c, entry)
  {
    if entry.Given? then entry.v else c.promises[entry.p].data
  }

  /**
   * At every moment of every run: when the promise of P.all is fulfilled, every entry is, and result i
   * is the value of entry i; when it is rejected, then with the reason of the rejected entry whose
   * callback started first.
   */
  lemma AllIsSound(s: State, a: nat)
    requires Reachable(s) && a < |s.alls|
    ensures s.alls[a].promise < |s.core.promises| && |s.alls[a].results| == |s.alls[a].entries|
    ensures s.core.promises[s.alls[a].promise].status == FULFILLED ==>
      && s.core.promises[s.alls[a].promise].data == Results(a)
      && forall i :: 0 <= i < |s.alls[a].entries| ==>
           EntryFulfilled(s.core, s.alls[a].entries[i]) && s.alls[a].results[i] == Some(EntryValue(s.core, s.alls[a].entries[i]))
    ensures s.core.promises[s.alls[a].promise].status == REJECTED ==>
      Refused(s.core.started, s.core.promises, a) == Some(s.core.promises[s.alls[a].promise].data)
  {
    ReachableIsWhole(s);
    var c, all := s.core, s.alls[a];
    assert Tally(s, a);
    PublishedAsIssued(c, all.promise);
    MissingNone(all.results);
    forall i | 0 <= i < |all.entries| && all.results[i].Some?
      ensures EntryFulfilled(c, all.entries[i]) && all.results[i] == Some(EntryValue(c, all.entries[i]))
    {
      ResultIsValue(s, a, i);
    }
    hide Inv, SubsSound, Resulted, Refused, Missing, GuardsUnlocked;
  }

  lemma ResultIsValue(s: State, a: nat, i: nat)
    requires Whole(s) && a < |s.alls| && i < |s.alls[a].entries| && s.alls[a].results[i].Some?
    ensures EntryFulfilled(s.core, s.alls[a].entries[i]) && s.alls[a].results[i] == Some(EntryValue(s.core, s.alls[a].entries[i]))
  {
    var c, all := s.core, s.alls[a];
    assert Tally(s, a);
    assert all.results[i] == Outcome(c, all.entries[i], a, i);
    if all.entries[i].Awaited? {
      var k := ResultedSome(c.started, c.promises, a, i);
      StartedIsPublished(c, c.started[k]);
      assert Paired(s, c.started[k]);
    }
  }

  /** Once nothing is left to do for the engine, an entry has a result exactly when it is fulfilled. */
  lemma AtRestEntry(s: State, a: nat, i: nat)
    requires Whole(s) && Drained(s.core) && a < |s.alls| && i < |s.alls[a].entries|
    ensures s.alls[a].results[i].Some? <==> EntryFulfilled(s.core, s.alls[a].entries[i])
    ensures EntryRejected(s.core, s.alls[a].entries[i]) ==> Refused(s.core.started, s.core.promises, a).Some?
  {
    var c, all := s.core, s.alls[a];
    assert Tally(s, a);
    assert all.results[i] == Outcome(c, all.entries[i], a, i);
    if all.results[i].Some? {
      ResultIsValue(s, a, i);
    }
    if all.entries[i].Awaited? {
      var j :| 0 <= j < |c.registered| && c.registered[j].fulfilled == Item(a, i);
      var sub := c.registered[j];
      assert Paired(s, sub);
      StartedIffPublished(c, sub);
      if sub in c.started && c.promises[sub.owner].status == FULFILLED {
        ResultedIn(c.started, c.promises, sub, a, i);
      } else if sub in c.started {
        RefusedIn(c.started, c.promises, sub, a);
      }
    }
  }

  lemma {:induction false} ResultedIn(subs: seq<Subscriber>, ps: seq<Promise>, sub: Subscriber, a: nat, i: nat)
    requires sub in subs && sub.fulfilled == Item(a, i) && sub.owner < |ps| && ps[sub.owner].status == FULFILLED
    ensures Resulted(subs, ps, a, i).Some?
  {
    if subs[|subs| - 1] != sub {
      ResultedIn(subs[..|subs| - 1], ps, sub, a, i);
    }
  }

  lemma {:induction false} RefusedIn(subs: seq<Subscriber>, ps: seq<Promise>, sub: Subscriber, a: nat)
    requires sub in subs && sub.rejected == Fail(a) && sub.owner < |ps| && ps[sub.owner].status == REJECTED
    ensures Refused(subs, ps, a).Some?
  {
    if subs[|subs| - 1] != sub {
      RefusedIn(subs[..|subs| - 1], ps, sub, a);
    }
  }

  /**
   * When the queue has drained, the promise of P.all is fulfilled if and only if every entry is,
   * rejected if and only if some entry is, and pending otherwise, whatever the settle order was.
   */
  lemma AllOutcome(s: State, a: nat)
    requires Reachable(s) && Drained(s.core) && a < |s.alls|
    ensures s.alls[a].promise < |s.core.promises|
    ensures s.core.promises[s.alls[a].promise].status == FULFILLED <==>
      forall i :: 0 <= i < |s.alls[a].entries| ==> EntryFulfilled(s.core, s.alls[a].entries[i])
    ensures s.core.promises[s.alls[a].promise].status == REJECTED <==>
      exists i :: 0 <= i < |s.alls[a].entries| && EntryRejected(s.core, s.alls[a].entries[i])
  {
    ReachableIsWhole(s);
    var c, all := s.core, s.alls[a];
    var q := all.promise;
    assert Tally(s, a);
    PublishedAsIssued(c, q);
    DrainedIsNotSettled(c, q);
    MissingNone(all.results);
    forall i | 0 <= i < |all.entries|
      ensures all.results[i].Some? <==> EntryFulfilled(c, all.entries[i])
      ensures EntryRejected(c, all.entries[i]) ==> Refused(c.started, c.promises, a).Some?
    {
      AtRestEntry(s, a, i);
    }
    if Refused(c.started, c.promises, a).Some? {
      var k := RefusedSome(c.started, c.promises, a);
      StartedIsPublished(c, c.started[k]);
      assert Paired(s, c.started[k]);
      assert EntryRejected(c, all.entries[c.started[k].fulfilled.index]);
    }
    hide Inv, SubsSound, Resulted, Refused, Missing, GuardsUnlocked;
  }

  // ----- outcomes handed on to the child -----

  /** A subscriber without a callback for its owner's outcome has handed that outcome on. */
  predicate HandedOn(c: Core, sub: Subscriber)
    requires sub.owner < |c.promises| && sub.child < |c.promises|
  {
    var owner, child := c.promises[sub.owner], c.promises[sub.child];
    && (owner.status == FULFILLED && sub.fulfilled.Absent? && NotThenable(c, owner.data) ==>
          PublishFulfillment(sub.child) in c.issued && child.data == owner.data)
    && (owner.status == REJECTED && sub.rejected.Absent? && NotThenable(c, owner.data) ==>
          PublishRejection(sub.child) in c.issued && child.data == owner.data)
  }

  ghost predicate AllHandedOn(c: Core) {
    forall i :: 0 <= i < |c.started| ==> KnownSub(|c.promises|, c.started[i]) && HandedOn(c, c.started[i])
  }

  lemma HandedOnStays(c: Core, d: Core, sub: Subscriber)
    requires Inv(c) && Good(c, d) && sub in c.started && KnownSub(|c.promises|, sub) && HandedOn(c, sub)
    ensures KnownSub(|d.promises|, sub) && HandedOn(d, sub)
  {
    StartedIsPublished(c, sub);
    IssuedOnce(c, sub.child);
    assert Later(c.promises[sub.owner], d.promises[sub.owner]) && Later(c.promises[sub.child], d.promises[sub.child]);
    hide Inv;
    assert forall t :: t in c.issued ==> t in d.issued;
  }

  lemma InvokeQuiet(s: State, sub: Subscriber, how: Foreign, again: Foreign)
    ensures Quiet(s, InvokeCallback(s, sub, how, again))
  {
    hide Complete, CallAdopt, CallRefuse, Resolve;
    if sub.owner < |s.core.promises| {
      var owner, running := s.core.promises[sub.owner], s.(invoking := Some(Invocation(sub, true)));
      CompleteQuiet(s, sub, owner.status == FULFILLED, owner.data, how, again);
      match if owner.status == FULFILLED then sub.fulfilled else sub.rejected
      case Adopt(g) => ClosuresQuiet(running, g, owner.data, how);
      case Refuse(g) => ClosuresQuiet(running, g, owner.data, how);
      case Item(a, i) =>
        if a < |s.alls| && i < |s.alls[a].results| {
          var all := Arrived(s.alls[a], i, owner.data);
          ResolveQuiet(running.(alls := s.alls[a := all]), all.promise, Results(a), NotCallable);
        }
      case _ =>
    }
  }

  /** Without a callback, invokeCallback settles the pending child like the owner. */
  lemma AbsentHandsOn(s: State, sub: Subscriber, how: Foreign, again: Foreign)
    requires KnownSub(|s.core.promises|, sub) && s.core.promises[sub.child].status == PENDING
    requires var owner := s.core.promises[sub.owner];
      && IsPublished(owner) && NotThenable(s.core, owner.data)
      && (if owner.status == FULFILLED then sub.fulfilled else sub.rejected).Absent?
    ensures var owner, r := s.core.promises[sub.owner], InvokeCallback(s, sub, how, again);
      r == if owner.status == FULFILLED then FulfillAt(s, sub.child, owner.data) else RejectAt(s, sub.child, owner.data)
  {
    hide FulfillAt, RejectAt;
    var owner := s.core.promises[sub.owner];
    assert HandleThenable(s, sub.child, owner.data, how) == (s, false);
    assert HandleThenable(s, sub.child, owner.data, again) == (s, false);
  }

  lemma PickedHandsOn(s: State, s1: State, sub: Subscriber, how: Foreign, again: Foreign)
    requires Whole(s) && Picked(s, s1, sub)
    ensures var r := InvokeCallback(s1, sub, how, again).core;
      r.started == s.core.started + [sub] && KnownSub(|r.promises|, sub) && HandedOn(r, sub)
  {
    var c, d := s.core, s1.core;
    var t := InvokeCallback(s1, sub, how, again);
    InvokeQuiet(s1, sub, how, again);
    InvokeCallbackGood(s1, sub, how, again);
    PickedSubs(s, s1, sub);
    assert KnownSub(|d.promises|, sub) && d.promises[sub.child].status == PENDING;
    assert Later(d.promises[sub.owner], t.core.promises[sub.owner]);
    hide Inv, InvokeCallback;
    var owner := d.promises[sub.owner];
    if (if owner.status == FULFILLED then sub.fulfilled else sub.rejected).Absent? && NotThenable(d, owner.data) {
      AbsentHandsOn(s1, sub, how, again);
      IssuedBy(s1, sub.child, owner.data);
    }
  }

  /** Where the flush takes the next callback from, if it starts one. */
  function NextCallback(c: Core): Option<(Core, Subscriber)> {
    if c.publishing.Some? then
      var at := c.publishing.value;
      if at.p < |c.promises| && at.next < |c.promises[at.p].list| then Some((VisitNext(c), c.promises[at.p].list[at.next])) else None
    else if Ready(c) && c.queue[c.pos].Invoke? then Some((BeginInvoke(c), c.queue[c.pos].sub))
    else None
  }

  lemma TurnOfCallback(s: State, how: Foreign, again: Foreign)
    requires s.core.flushing && s.calls == [] && s.invoking == None
    ensures match NextCallback(s.core)
            case Some((d, sub)) => EngineTurn(s, how, again) == InvokeCallback(s.(core := d), sub, how, again)
            case None => EngineTurn(s, how, again).core.started == s.core.started
  {
    hide InvokeCallback, Complete;
  }

  lemma NextIsPicked(s: State)
    requires Whole(s) && s.core.flushing && s.invoking == None && NextCallback(s.core).Some?
    ensures var (d, sub) := NextCallback(s.core).value; Picked(s, s.(core := d), sub)
  {
    var c := s.core;
    if c.publishing.Some? {
      VisitGood(c);
      NextNotStarted(c);
    } else {
      TaskGood(c);
      TaskNotStarted(c);
    }
    hide Inv, Good, Whole;
  }

  lemma StepHandsOn(s: State, e: Event)
    requires Whole(s) && AllHandedOn(s.core)
    ensures AllHandedOn(Step(s, e).core)
  {
    var c, d := s.core, Step(s, e).core;
    StepGood(s, e);
    forall i | 0 <= i < |c.started|
      ensures d.started[i] == c.started[i] && KnownSub(|d.promises|, d.started[i]) && HandedOn(d, d.started[i])
    {
      HandedOnStays(c, d, c.started[i]);
    }
    if d.started != c.started {
      CallbacksStartInFlush(s, e);
      TurnOfCallback(s, e.how, e.again);
      NextIsPicked(s);
      var (picked, sub) := NextCallback(c).value;
      PickedHandsOn(s, s.(core := picked), sub, e.how, e.again);
      assert d == InvokeCallback(s.(core := picked), sub, e.how, e.again).core;
    }
    hide Inv, HandedOn, Whole, Step;
  }

  lemma {:induction false} RunHandsOn(es: seq<Event>)
    ensures Whole(Run(Start, es)) && AllHandedOn(Run(Start, es).core)
  {
    hide Whole, Step, HandedOn;
    if es == [] {
      assert Run(Start, []) == Start && Reachable(Start);
      ReachableIsWhole(Start);
    } else {
      RunHandsOn(es[..|es| - 1]);
      StepWhole(Run(Start, es[..|es| - 1]), es[|es| - 1]);
      StepHandsOn(Run(Start, es[..|es| - 1]), es[|es| - 1]);
    }
  }

  /**
   * Sections 2.2.7.3 and 2.2.7.4 of Promises/A+: once the queue has drained, a subscriber without a
   * callback for its owner's outcome has a child with the same outcome and the same data.
   */
  lemma ChildFollowsOwner(s: State, sub: Subscriber)
    requires Reachable(s) && Drained(s.core) && sub in s.core.registered
    ensures KnownSub(|s.core.promises|, sub)
    ensures var owner, child := s.core.promises[sub.owner], s.core.promises[sub.child];
      && (owner.status == PENDING ==> child.status == PENDING)
      && (owner.status == FULFILLED && sub.fulfilled.Absent? && NotThenable(s.core, owner.data) ==>
            child.status == FULFILLED && child.data == owner.data)
      && (owner.status == REJECTED && sub.rejected.Absent? && NotThenable(s.core, owner.data) ==>
            child.status == REJECTED && child.data == owner.data)
  {
    var es :| s == Run(Start, es);
    RunHandsOn(es);
    var c := s.core;
    assert KnownSub(|c.promises|, sub);
    StartedIffPublished(c, sub);
    IssuedOnce(c, sub.child);
    PublishedAsIssued(c, sub.child);
    DrainedIsNotSettled(c, sub.child);
  }

  lemma ReturnStep(s: State, v: Value, how: Foreign, again: Foreign)
    requires s.calls == [] && s.invoking.Some? && !s.invoking.value.internal
    ensures Step(s, Return(v, how, again)) == Complete(s.(invoking := None), s.invoking.value.sub, true, v, how, again)
  {
    hide Complete;
  }

  /** Section 2.2.7.1 of Promises/A+: a callback that returns a value which is no thenable fulfils its pending child with it. */
  lemma ReturnFulfilsChild(s: State, v: Value, how: Foreign, again: Foreign)
    requires s.calls == [] && s.invoking.Some? && !s.invoking.value.internal && NotThenable(s.core, v)
    requires s.invoking.value.sub.child < |s.core.promises| && s.core.promises[s.invoking.value.sub.child].status == PENDING
    ensures var child, d := s.invoking.value.sub.child, Step(s, Return(v, how, again)).core;
      && child < |d.promises| && d.promises[child].data == v && d.issued == s.core.issued + [PublishFulfillment(child)]
      && d.promises == s.core.promises[child := d.promises[child]]
  {
    ReturnStep(s, v, how, again);
    var t, child := s.(invoking := None), s.invoking.value.sub.child;
    assert HandleThenable(t, child, v, how) == (t, false) == HandleThenable(t, child, v, again);
    IssuedBy(t, child, v);
    hide Step, HandleThenable;
  }

  lemma ThrowStep(s: State, x: Value, how: Foreign, again: Foreign)
    requires s.calls == [] && s.invoking.Some? && !s.invoking.value.internal
    requires s.invoking.value.sub.owner < |s.core.promises|
    ensures var sub := s.invoking.value.sub;
      Step(s, Throw(x, how, again)) ==
      Complete(RejectAt(s.(invoking := None), sub.child, x), sub, true, s.core.promises[sub.owner].data, how, again)
  {
    hide Complete, RejectAt;
  }

  lemma RejectedData(t: State, q: nat, v: Value)
    requires q < |t.core.promises| && t.core.promises[q].status == PENDING
    ensures RejectAt(t, q, v).core.promises[q].data == v && |RejectAt(t, q, v).core.promises| == |t.core.promises|
  {}

  /** A callback that throws rejects its pending child with the exception, whatever its owner carries. */
  lemma ThrowRejectsChild(s: State, x: Value, how: Foreign, again: Foreign)
    requires Reachable(s) && s.calls == [] && s.invoking.Some? && !s.invoking.value.internal
    requires s.invoking.value.sub.child < |s.core.promises| && s.core.promises[s.invoking.value.sub.child].status == PENDING
    ensures var child, d := s.invoking.value.sub.child, Step(s, Throw(x, how, again)).core;
      child < |d.promises| && PublishRejection(child) in d.issued && d.promises[child].data == x
  {
    ReachableIsWhole(s);
    var sub, t := s.invoking.value.sub, s.(invoking := None);
    StartedIsPublished(s.core, sub);
    ThrowStep(s, x, how, again);
    hide Step, RejectAt, Complete, Reachable;
    var u := RejectAt(t, sub.child, x);
    SettleGood(t, sub.child, x);
    IssuedBy(t, sub.child, x);
    RejectedData(t, sub.child, x);
    hide Inv;
    StaysRejected(u, sub, x, s.core.promises[sub.owner].data, how, again);
  }

  lemma StaysRejected(u: State, sub: Subscriber, x: Value, v: Value, how: Foreign, again: Foreign)
    requires Inv(u.core) && sub.child < |u.core.promises| && PublishRejection(sub.child) in u.core.issued && u.core.promises[sub.child].data == x
    ensures var d := Complete(u, sub, true, v, how, again).core;
      sub.child < |d.promises| && PublishRejection(sub.child) in d.issued && d.promises[sub.child].data == x
  {
    IssuedOnce(u.core, sub.child);
    CompleteGood(u, sub, true, v, how, again);
    hide Inv, Complete;
    var d := Complete(u, sub, true, v, how, again).core;
    assert Later(u.core.promises[sub.child], d.promises[sub.child]);
    assert forall t :: t in u.core.issued ==> t in d.issued;
  }
}
