/**
 * Runs of the promise engine as steps. User code appears as events: whenever user code has control
 * (at top level, inside a callback, inside a foreign `then`) it may do anything the engine offers.
 */
module PromiseMachine {
  import opened Options
  import opened Promises

  /** One pair of closures made by handleThenable, with their shared flag `resolved`. */
  datatype Guard = Guard(promise: nat, value: Value, resolved: bool)

  /** An entry of the array given to P.all. */
  datatype Entry = Given(v: Value) | Awaited(p: nat)

  /** The variables of one call of P.all. */
  datatype Gathering = Gathering(entries: seq<Entry>, results: seq<Option<Value>>, remaining: int, promise: nat)

  /** The callback that invokeCallback is waiting for; an internal one belongs to the engine. */
  datatype Invocation = Invocation(sub: Subscriber, internal: bool)

  datatype State = State(
    core: Core,
    invoking: Option<Invocation>,
    calls: seq<nat>,            // the foreign `then` calls in progress, by guard, innermost last
    guards: seq<Guard>,
    alls: seq<Gathering>)

  const Start := State(Initial, None, [], [], [])

  /** What reading and calling `then` of a foreign object does. */
  datatype Foreign = GetterThrows(e: Value) | NotCallable | Calls

  datatype Event =
    | Create
    | Subscribe(p: nat, f: Handler, r: Handler)
    | DoResolve(p: nat, v: Value, how: Foreign)
    | DoReject(p: nat, v: Value)
    | Gather(entries: seq<Entry>)
    | CallResolve(g: nat, v: Value, how: Foreign)
    | CallReject(g: nat, v: Value)
    | ThenReturns
    | ThenThrows(e: Value)
    | Return(v: Value, how: Foreign, again: Foreign)
    | Throw(e: Value, how: Foreign, again: Foreign)
    | Tick(how: Foreign, again: Foreign)

  // ----- the engine's functions (an id out of range denotes no promise) -----

  function FulfillAt(s: State, p: nat, v: Value): State {
    if p < |s.core.promises| then s.(core := Fulfill(s.core, p, v)) else s
  }

  function RejectAt(s: State, p: nat, v: Value): State {
    if p < |s.core.promises| then s.(core := Reject(s.core, p, v)) else s
  }

  function ThenAt(s: State, p: nat, f: Handler, r: Handler): State {
    if p < |s.core.promises| then s.(core := Then(s.core, p, f, r)) else s
  }

  function HandleThenable(s: State, p: nat, v: Value, how: Foreign): (State, bool) {
    var g := |s.guards|;
    var guarded := s.(guards := s.guards + [Guard(p, v, false)]);
    if v == PromiseRef(p) then (RejectAt(s, p, TypeError), true)
    else if v.PromiseRef? && v.p < |s.core.promises| then (ThenAt(guarded, v.p, Adopt(g), Refuse(g)), true)
    else if v.Thenable? && how.Calls? then (guarded.(calls := s.calls + [g]), true)
    else if v.Thenable? && how.GetterThrows? then (RejectAt(s, p, how.e), true)
    else (s, false)
  }

  function Resolve(s: State, p: nat, v: Value, how: Foreign): State {
    if v == PromiseRef(p) then FulfillAt(s, p, v)
    else
      var (t, handled) := HandleThenable(s, p, v, how);
      if handled then t else FulfillAt(t, p, v)
  }

  /** The fulfilment closure of handleThenable. */
  function CallAdopt(s: State, g: nat, v: Value, how: Foreign): State {
    if g >= |s.guards| || s.guards[g].resolved then s
    else
      var t := s.(guards := s.guards[g := s.guards[g].(resolved := true)]);
      var p := s.guards[g].promise;
      if s.guards[g].value == v then FulfillAt(t, p, v) else Resolve(t, p, v, how)
  }

  /** The rejection closure of handleThenable. */
  function CallRefuse(s: State, g: nat, v: Value): State {
    if g >= |s.guards| || s.guards[g].resolved then s
    else RejectAt(s.(guards := s.guards[g := s.guards[g].(resolved := true)]), s.guards[g].promise, v)
  }

  /** The closure resolver(i) of P.all. */
  function CallItem(s: State, a: nat, i: nat, v: Value): State {
    if a >= |s.alls| || i >= |s.alls[a].results| then s
    else
      var all := s.alls[a].(results := s.alls[a].results[i := Some(v)], remaining := s.alls[a].remaining - 1);
      var t := s.(alls := s.alls[a := all]);
      if all.remaining == 0 then Resolve(t, all.promise, Results(a), NotCallable) else t
  }

  function CallFail(s: State, a: nat, v: Value): State {
    if a < |s.alls| then RejectAt(s, s.alls[a].promise, v) else s
  }

  /** What invokeCallback does with the value, once the callback, if any, is over. */
  function Complete(s: State, sub: Subscriber, fulfilled: bool, v: Value, how: Foreign, again: Foreign): State {
    var (t, handled) := HandleThenable(s, sub.child, v, how);
    if handled then t
    else if fulfilled then Resolve(t, sub.child, v, again)
    else RejectAt(t, sub.child, v)
  }

  /** invokeCallback: picks the callback by the owner's state and calls it. */
  function InvokeCallback(s: State, sub: Subscriber, how: Foreign, again: Foreign): State {
    if sub.owner >= |s.core.promises| then s
    else
      var owner := s.core.promises[sub.owner];
      var fulfilled := owner.status == FULFILLED;
      var running := s.(invoking := Some(Invocation(sub, true)));
      match if fulfilled then sub.fulfilled else sub.rejected
      case Absent => Complete(s, sub, fulfilled, owner.data, how, again)
      case User(_) => s.(invoking := Some(Invocation(sub, false)))
      case Adopt(g) => CallAdopt(running, g, owner.data, how)
      case Refuse(g) => CallRefuse(running, g, owner.data)
      case Item(a, i) => CallItem(running, a, i, owner.data)
      case Fail(a) => CallFail(running, a, owner.data)
  }

  /** The loop of P.all over the entries from i on. */
  function GatherFrom(s: State, a: nat, i: nat): State
    requires a < |s.alls| && i <= |s.alls[a].entries| == |s.alls[a].results|
    decreases |s.alls[a].entries| - i
  {
    var all := s.alls[a];
    if i == |all.entries| then (if all.remaining == 0 then Resolve(s, all.promise, Results(a), NotCallable) else s)
    else
      match all.entries[i]
      case Given(v) => GatherFrom(s.(alls := s.alls[a := all.(results := all.results[i := Some(v)])]), a, i + 1)
      case Awaited(p) =>
        GatherFrom(ThenAt(s.(alls := s.alls[a := all.(remaining := all.remaining + 1)]), p, Item(a, i), Fail(a)), a, i + 1)
  }

  function StartGathering(s: State, entries: seq<Entry>): State {
    var q := |s.core.promises|;
    var all := Gathering(entries, seq(|entries|, _ => None), 0, q);
    GatherFrom(s.(core := Allocate(s.core, Collected), alls := s.alls + [all]), |s.alls|, 0)
  }

  // ----- steps -----

  predicate UserTurn(s: State) {
    s.calls != [] || (if s.invoking.Some? then !s.invoking.value.internal else !s.core.flushing)
  }

  predicate FromUser(h: Handler) {
    h.Absent? || h.User?
  }

  predicate NotThenable(c: Core, v: Value) {
    !v.Thenable? && !(v.PromiseRef? && v.p < |c.promises|)
  }

  /** Entries of P.all: promises of the engine, whose `then` is called, and values without one. */
  predicate ValidEntries(c: Core, entries: seq<Entry>) {
    forall i :: 0 <= i < |entries| ==>
      if entries[i].Awaited? then entries[i].p < |c.promises| else NotThenable(c, entries[i].v)
  }

  /** One turn of the engine itself: the timer fires, or the flush goes on. */
  function EngineTurn(s: State, how: Foreign, again: Foreign): State {
    var c := s.core;
    if s.calls != [] then s
    else if s.invoking.Some? then
      if s.invoking.value.internal then Complete(s.(invoking := None), s.invoking.value.sub, true, Undefined, how, again) else s
    else if !c.flushing then (if c.timer then s.(core := StartFlush(c)) else s)
    else if c.publishing.Some? then
      var at := c.publishing.value;
      if at.p >= |c.promises| then s
      else if at.next < |c.promises[at.p].list| then
        InvokeCallback(s.(core := VisitNext(c)), c.promises[at.p].list[at.next], how, again)
      else s.(core := EndPublish(c))
    else if c.pos >= |c.queue| then s.(core := EndFlush(c))
    else if c.queue[c.pos].Invoke? then InvokeCallback(s.(core := BeginInvoke(c)), c.queue[c.pos].sub, how, again)
    else if c.queue[c.pos].p < |c.promises| then s.(core := BeginPublish(c))
    else s
  }

  /** A step; an event that cannot happen in s changes nothing. */
  function Step(s: State, e: Event): State {
    var n := |s.core.promises|;
    match e
    case Create => if UserTurn(s) then s.(core := Allocate(s.core, Open)) else s
    case Subscribe(p, f, r) => if UserTurn(s) && FromUser(f) && FromUser(r) then ThenAt(s, p, f, r) else s
    case DoResolve(p, v, how) => if UserTurn(s) && p < n && s.core.promises[p].origin == Open then Resolve(s, p, v, how) else s
    case DoReject(p, v) => if UserTurn(s) && p < n && s.core.promises[p].origin == Open then RejectAt(s, p, v) else s
    case Gather(entries) => if UserTurn(s) && ValidEntries(s.core, entries) then StartGathering(s, entries) else s
    case CallResolve(g, v, how) =>
      if UserTurn(s) && g < |s.guards| && s.guards[g].value.Thenable? then CallAdopt(s, g, v, how) else s
    case CallReject(g, v) =>
      if UserTurn(s) && g < |s.guards| && s.guards[g].value.Thenable? then CallRefuse(s, g, v) else s
    case ThenReturns => if s.calls != [] then s.(calls := s.calls[..|s.calls| - 1]) else s
    case ThenThrows(x) =>
      if s.calls == [] then s
      else
        var g := s.calls[|s.calls| - 1];
        var t := s.(calls := s.calls[..|s.calls| - 1]);
        if g < |s.guards| && !s.guards[g].resolved then RejectAt(t, s.guards[g].promise, x) else t
    case Return(v, how, again) =>
      if s.calls == [] && s.invoking.Some? && !s.invoking.value.internal then
        Complete(s.(invoking := None), s.invoking.value.sub, true, v, how, again)
      else s
    case Throw(x, how, again) =>
      if s.calls == [] && s.invoking.Some? && !s.invoking.value.internal && s.invoking.value.sub.owner < n then
        var sub := s.invoking.value.sub;
        // The value is still the owner's: a throw leaves it as it was before the callback.
        Complete(RejectAt(s.(invoking := None), sub.child, x), sub, true, s.core.promises[sub.owner].data, how, again)
      else s
    case Tick(how, again) => EngineTurn(s, how, again)
  }

  function Run(s: State, es: seq<Event>): State {
    if es == [] then s else Step(Run(s, es[..|es| - 1]), es[|es| - 1])
  }
}
