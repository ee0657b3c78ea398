/** The engine as it runs: variables updated in place, each method tied to the step it performs. */
module PromiseEngine {
  import opened Options
  import opened Promises
  import opened PromiseMachine
  import opened PromiseSafety
  import opened PromiseOutcomes

  class Engine {
    var promises: seq<Promise>
    var asyncQueue: seq<Task>
    var i: nat                            // the loop variable of asyncFlush
    var asyncTimer: bool
    var flushing: bool
    var publishing: Option<Publishing>
    var invoking: Option<Invocation>
    var calls: seq<nat>
    var guards: seq<Guard>
    var alls: seq<Gathering>
    ghost var registered: seq<Subscriber>
    ghost var started: seq<Subscriber>
    ghost var issued: seq<Task>

    ghost function Abstract(): State
      reads this
    {
      State(Core(promises, asyncQueue, i, asyncTimer, flushing, publishing, registered, started, issued), invoking, calls, guards, alls)
    }

    constructor ()
      ensures Abstract() == Start
    {
      promises, asyncQueue, i, asyncTimer, flushing, publishing := [], [], 0, false, false, None;
      invoking, calls, guards, alls := None, [], [], [];
      registered, started, issued := [], [], [];
    }

    method AsyncCall(t: Task)
      modifies this
      ensures Abstract() == old(Abstract()).(core := Promises.AsyncCall(old(Abstract()).core, t))
    {
      asyncQueue := asyncQueue + [t];
      issued := issued + [t];
      if !asyncTimer {
        asyncTimer := true;
      }
    }

    method Fulfill(p: nat, v: Value)
      modifies this
      ensures Abstract() == FulfillAt(old(Abstract()), p, v)
    {
      if p < |promises| && promises[p].status == PENDING {
        promises := promises[p := promises[p].(status := SETTLED, data := v)];
        AsyncCall(PublishFulfillment(p));
      }
    }

    method Reject(p: nat, v: Value)
      modifies this
      ensures Abstract() == RejectAt(old(Abstract()), p, v)
    {
      if p < |promises| && promises[p].status == PENDING {
        promises := promises[p := promises[p].(status := SETTLED, data := v)];
        AsyncCall(PublishRejection(p));
      }
    }

    method Then(p: nat, f: Handler, r: Handler) returns (child: nat)
      requires p < |promises|
      modifies this
      ensures Abstract() == ThenAt(old(Abstract()), p, f, r)
      ensures child == old(|promises|)
    {
      child := |promises|;
      var subscriber := Subscriber(p, child, f, r);
      promises := promises + [NewPromise.(origin := Derived)];
      registered := registered + [subscriber];
      if promises[p].status == FULFILLED || promises[p].status == REJECTED {
        AsyncCall(Invoke(subscriber));
      } else {
        promises := promises[p := promises[p].(list := promises[p].list + [subscriber])];
      }
    }

    /** A foreign `then` that is called is left in progress: user code goes on from here. */
    method HandleThenable(p: nat, v: Value, how: Foreign) returns (handled: bool)
      modifies this
      ensures (Abstract(), handled) == PromiseMachine.HandleThenable(old(Abstract()), p, v, how)
    {
      if v == PromiseRef(p) {
        Reject(p, TypeError);
        return true;
      }
      if v.PromiseRef? && v.p < |promises| {
        var g := |guards|;
        guards := guards + [Guard(p, v, false)];
        var _ := Then(v.p, Adopt(g), Refuse(g));
        return true;
      }
      if v.Thenable? && how.Calls? {
        calls := calls + [|guards|];
        guards := guards + [Guard(p, v, false)];
        return true;
      }
      if v.Thenable? && how.GetterThrows? {
        Reject(p, how.e);
        return true;
      }
      return false;
    }

    method Resolve(p: nat, v: Value, how: Foreign)
      modifies this
      ensures Abstract() == PromiseMachine.Resolve(old(Abstract()), p, v, how)
    {
      if v == PromiseRef(p) {
        Fulfill(p, v);
      } else {
        var handled := HandleThenable(p, v, how);
        if !handled {
          Fulfill(p, v);
        }
      }
    }

    method CallAdopt(g: nat, v: Value, how: Foreign)
      modifies this
      ensures Abstract() == PromiseMachine.CallAdopt(old(Abstract()), g, v, how)
    {
      if g < |guards| && !guards[g].resolved {
        guards := guards[g := guards[g].(resolved := true)];
        if guards[g].value == v {
          Fulfill(guards[g].promise, v);
        } else {
          Resolve(guards[g].promise, v, how);
        }
      }
    }

    method CallRefuse(g: nat, v: Value)
      modifies this
      ensures Abstract() == PromiseMachine.CallRefuse(old(Abstract()), g, v)
    {
      if g < |guards| && !guards[g].resolved {
        guards := guards[g := guards[g].(resolved := true)];
        Reject(guards[g].promise, v);
      }
    }

    method CallItem(a: nat, index: nat, v: Value)
      modifies this
      ensures Abstract() == PromiseMachine.CallItem(old(Abstract()), a, index, v)
    {
      if a < |alls| && index < |alls[a].results| {
        var all := alls[a];
        var results := all.results[index := Some(v)];
        var remaining := all.remaining - 1;
        alls := alls[a := all.(results := results, remaining := remaining)];
        if remaining == 0 {
          Resolve(all.promise, Results(a), NotCallable);
        }
      }
    }

    method Complete(sub: Subscriber, fulfilled: bool, v: Value, how: Foreign, again: Foreign)
      modifies this
      ensures Abstract() == PromiseMachine.Complete(old(Abstract()), sub, fulfilled, v, how, again)
    {
      var handled := HandleThenable(sub.child, v, how);
      if !handled {
        if fulfilled {
          Resolve(sub.child, v, again);
        } else {
          Reject(sub.child, v);
        }
      }
    }

    /** invokeCallback up to the point where user code takes over. */
    method InvokeCallback(sub: Subscriber, how: Foreign, again: Foreign)
      modifies this
      ensures Abstract() == PromiseMachine.InvokeCallback(old(Abstract()), sub, how, again)
    {
      hide PromiseMachine.Complete, PromiseMachine.CallAdopt, PromiseMachine.CallRefuse, PromiseMachine.CallItem, Promises.Reject;
      if sub.owner >= |promises| {
        return;
      }
      var settled, value := promises[sub.owner].status, promises[sub.owner].data;
      var callback := if settled == FULFILLED then sub.fulfilled else sub.rejected;
      if callback.Absent? {
        Complete(sub, settled == FULFILLED, value, how, again);
        return;
      }
      invoking := Some(Invocation(sub, !callback.User?));
      match callback
      case Adopt(g) => CallAdopt(g, value, how);
      case Refuse(g) => CallRefuse(g, value);
      case Item(a, index) => CallItem(a, index, value);
      case Fail(a) => if a < |alls| { Reject(alls[a].promise, value); }
      case _ =>
    }

    /** P.all: subscribes to every promise entry in a loop and fulfils at once when there is none. */
    method All(entries: seq<Entry>) returns (q: nat)
      requires ValidEntries(Abstract().core, entries)
      modifies this
      ensures Abstract() == StartGathering(old(Abstract()), entries)
      ensures q == old(|promises|)
    {
      hide Promises.Then, PromiseMachine.Resolve, GatherFrom;
      ghost var s := Abstract();
      q := |promises|;
      var a := |alls|;
      promises := promises + [NewPromise.(origin := Collected)];
      alls := alls + [Gathering(entries, seq(|entries|, _ => None), 0, q)];
      var k := 0;
      while k < |entries|
        invariant k <= |entries| && |promises| > q && q == |s.core.promises|
        invariant a == |s.alls| < |alls| && alls[a].entries == entries && |alls[a].results| == |entries| && alls[a].promise == q
        invariant GatherFrom(Abstract(), a, k) == StartGathering(s, entries)
      {
        ghost var before := Abstract();
        GatherUnfold(before, a, k);
        match entries[k] {
          case Given(v) =>
            alls := alls[a := alls[a].(results := alls[a].results[k := Some(v)])];
          case Awaited(p) =>
            alls := alls[a := alls[a].(remaining := alls[a].remaining + 1)];
            ThenLeavesAlls(Abstract(), p, Item(a, k), Fail(a));
            var _ := Then(p, Item(a, k), Fail(a));
        }
        k := k + 1;
      }
      GatherUnfold(Abstract(), a, k);
      if alls[a].remaining == 0 {
        Resolve(q, Results(a), NotCallable);
      }
    }

    lemma ThenLeavesAlls(s: State, p: nat, f: Handler, r: Handler)
      ensures ThenAt(s, p, f, r).alls == s.alls && |ThenAt(s, p, f, r).core.promises| >= |s.core.promises|
    {}

    /** forEach of publish: the next subscriber, or the end of the list. */
    method PublishNext(how: Foreign, again: Foreign)
      requires calls == [] && invoking == None && flushing && publishing.Some? && Controlled(Abstract().core)
      modifies this
      ensures Abstract() == EngineTurn(old(Abstract()), how, again)
    {
      hide PromiseMachine.InvokeCallback, PromiseMachine.Complete;
      var p, next := publishing.value.p, publishing.value.next;
      if next < |promises[p].list| {
        publishing := Some(Publishing(p, next + 1));
        var sub := promises[p].list[next];
        started := started + [sub];
        InvokeCallback(sub, how, again);
      } else {
        publishing := None;
        promises := promises[p := promises[p].(list := [], dropped := true)];
      }
    }

    /** asyncFlush: the next task, or the end of the queue. */
    method FlushNext(how: Foreign, again: Foreign)
      requires calls == [] && invoking == None && flushing && publishing == None && Controlled(Abstract().core)
      requires i < |asyncQueue| ==> KnownTask(|promises|, asyncQueue[i])
      modifies this
      ensures Abstract() == EngineTurn(old(Abstract()), how, again)
    {
      hide PromiseMachine.InvokeCallback, PromiseMachine.Complete;
      if i < |asyncQueue| {
        var task := asyncQueue[i];
        i := i + 1;
        match task
        case Invoke(sub) =>
          started := started + [sub];
          InvokeCallback(sub, how, again);
        case PublishFulfillment(p) =>
          promises := promises[p := promises[p].(status := FULFILLED)];
          publishing := Some(Publishing(p, 0));
        case PublishRejection(p) =>
          promises := promises[p := promises[p].(status := REJECTED)];
          publishing := Some(Publishing(p, 0));
      } else {
        asyncQueue, i := [], 0;
        asyncTimer := false;
        flushing := false;
      }
    }

    /** One turn of the engine; every run of turns keeps the invariant. */
    method Turn(how: Foreign, again: Foreign)
      requires Whole(Abstract()) && calls == []
      modifies this
      ensures Abstract() == EngineTurn(old(Abstract()), how, again)
      ensures Whole(Abstract())
    {
      EngineTurnWhole(Abstract(), how, again);
      WholeIsControlled(Abstract());
      if invoking == None && flushing {
        hide Whole, EngineTurn;
        if publishing.Some? {
          PublishNext(how, again);
        } else {
          FlushNext(how, again);
        }
      } else {
        hide Whole, PromiseMachine.Complete, PromiseMachine.InvokeCallback;
        if invoking.Some? {
          if invoking.value.internal {
            var sub := invoking.value.sub;
            invoking := None;
            Complete(sub, true, Undefined, how, again);
          }
        } else if asyncTimer {
          flushing := true;
        }
      }
    }

    lemma WholeIsControlled(s: State)
      requires Whole(s)
      ensures Controlled(s.core) && forall k :: 0 <= k < |s.core.queue| ==> KnownTask(|s.core.promises|, s.core.queue[k])
    {}
  }
}
