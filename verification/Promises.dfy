/** The promise records, the task queue and the operations that change them. */
module Promises {
  import opened Options

  /** What a promise can be settled with. A Thenable is foreign code: what its `then` does is not fixed. */
  datatype Value = Undefined | Plain(n: int) | Thenable(n: int) | PromiseRef(p: nat) | TypeError | Results(all: nat)

  datatype Status = PENDING | SETTLED | FULFILLED | REJECTED

  /** Who holds the resolving functions: user code, the engine alone, or P.all. */
  datatype Origin = Open | Derived | Collected

  /** Callbacks: not a function, user code, the closures of handleThenable, those of P.all. */
  datatype Handler = Absent | User(h: nat) | Adopt(guard: nat) | Refuse(guard: nat) | Item(all: nat, index: nat) | Fail(all: nat)

  datatype Subscriber = Subscriber(owner: nat, child: nat, fulfilled: Handler, rejected: Handler)

  /** `_then` is the list until publication drops it. */
  datatype Promise = Promise(origin: Origin, status: Status, data: Value, list: seq<Subscriber>, dropped: bool)

  datatype Task = PublishFulfillment(p: nat) | PublishRejection(p: nat) | Invoke(sub: Subscriber)

  /** The forEach of publish: the next index to visit in the list of p. */
  datatype Publishing = Publishing(p: nat, next: nat)

  /**
   * The engine's variables, the loop variables of a running flush, and three histories: every
   * subscriber created, every callback started, every task pushed.
   */
  datatype Core = Core(
    promises: seq<Promise>,
    queue: seq<Task>,
    pos: nat,
    timer: bool,
    flushing: bool,
    publishing: Option<Publishing>,
    registered: seq<Subscriber>,
    started: seq<Subscriber>,
    issued: seq<Task>)

  const NewPromise := Promise(Derived, PENDING, Undefined, [], false)

  const Initial := Core([], [], 0, false, false, None, [], [], [])

  // ----- operations -----

  function AsyncCall(c: Core, t: Task): Core {
    c.(queue := c.queue + [t], issued := c.issued + [t], timer := true)
  }

  function Settle(c: Core, p: nat, v: Value, t: Task): Core
    requires p < |c.promises|
  {
    if c.promises[p].status == PENDING then
      AsyncCall(c.(promises := c.promises[p := c.promises[p].(status := SETTLED, data := v)]), t)
    else c
  }

  function Fulfill(c: Core, p: nat, v: Value): Core
    requires p < |c.promises|
  {
    Settle(c, p, v, PublishFulfillment(p))
  }

  function Reject(c: Core, p: nat, v: Value): Core
    requires p < |c.promises|
  {
    Settle(c, p, v, PublishRejection(p))
  }

  function Allocate(c: Core, origin: Origin): Core {
    c.(promises := c.promises + [NewPromise.(origin := origin)])
  }

  predicate Published(c: Core, p: nat)
    requires p < |c.promises|
  {
    c.promises[p].status == FULFILLED || c.promises[p].status == REJECTED
  }

  function Then(c: Core, p: nat, onFulfillment: Handler, onRejection: Handler): Core
    requires p < |c.promises|
  {
    var sub := Subscriber(p, |c.promises|, onFulfillment, onRejection);
    var d := Allocate(c, Derived).(registered := c.registered + [sub]);
    if Published(c, p) then AsyncCall(d, Invoke(sub))
    else d.(promises := d.promises[p := d.promises[p].(list := d.promises[p].list + [sub])])
  }

  function StartFlush(c: Core): Core {
    c.(flushing := true)
  }

  function EndFlush(c: Core): Core {
    c.(queue := [], pos := 0, timer := false, flushing := false)
  }

  predicate Ready(c: Core) {
    c.flushing && c.publishing == None && c.pos < |c.queue|
  }

  /** asyncFlush reaches a publish task. */
  function BeginPublish(c: Core): Core
    requires Ready(c) && !c.queue[c.pos].Invoke? && c.queue[c.pos].p < |c.promises|
  {
    var t := c.queue[c.pos];
    var status := if t.PublishFulfillment? then FULFILLED else REJECTED;
    c.(pos := c.pos + 1, publishing := Some(Publishing(t.p, 0)), promises := c.promises[t.p := c.promises[t.p].(status := status)])
  }

  /** forEach visits the next subscriber. */
  function VisitNext(c: Core): Core
    requires c.publishing.Some? && c.publishing.value.p < |c.promises|
    requires c.publishing.value.next < |c.promises[c.publishing.value.p].list|
  {
    var at := c.publishing.value;
    c.(publishing := Some(at.(next := at.next + 1)), started := c.started + [c.promises[at.p].list[at.next]])
  }

  /** forEach is done: the list is replaced by undefined. */
  function EndPublish(c: Core): Core
    requires c.publishing.Some? && c.publishing.value.p < |c.promises|
  {
    var p := c.publishing.value.p;
    c.(publishing := None, promises := c.promises[p := c.promises[p].(list := [], dropped := true)])
  }

  /** asyncFlush reaches a callback queued by a late `then`. */
  function BeginInvoke(c: Core): Core
    requires Ready(c) && c.queue[c.pos].Invoke?
  {
    c.(pos := c.pos + 1, started := c.started + [c.queue[c.pos].sub])
  }

  // ----- what is where -----

  function Owned(subs: seq<Subscriber>, p: nat): (r: seq<Subscriber>) {
    if subs == [] then []
    else
      var last := subs[|subs| - 1];
      Owned(subs[..|subs| - 1], p) + if last.owner == p then [last] else []
  }

  function Invoked(tasks: seq<Task>): seq<Subscriber> {
    if tasks == [] then [] else (if tasks[0].Invoke? then [tasks[0].sub] else []) + Invoked(tasks[1..])
  }

  /** How many tasks publish p. */
  function Publishes(tasks: seq<Task>, p: nat): nat {
    if tasks == [] then 0 else (if !tasks[0].Invoke? && tasks[0].p == p then 1 else 0) + Publishes(tasks[1..], p)
  }

  function Rest(c: Core): seq<Task>
    requires c.pos <= |c.queue|
  {
    c.queue[c.pos..]
  }

  /** The subscribers of p whose callback the list still has to start. */
  function Waiting(c: Core, p: nat): seq<Subscriber>
    requires p < |c.promises| && (c.publishing.Some? && c.publishing.value.p == p ==> c.publishing.value.next <= |c.promises[p].list|)
  {
    if c.publishing.Some? && c.publishing.value.p == p then c.promises[p].list[c.publishing.value.next..] else c.promises[p].list
  }

  // ----- the invariant -----

  /** Only promises below n are mentioned. */
  predicate KnownSub(n: nat, sub: Subscriber) {
    sub.owner < n && sub.child < n
  }

  predicate KnownTask(n: nat, t: Task) {
    if t.Invoke? then KnownSub(n, t.sub) else t.p < n
  }

  ghost predicate KnownSubs(n: nat, subs: seq<Subscriber>) {
    forall i :: 0 <= i < |subs| ==> KnownSub(n, subs[i])
  }

  ghost predicate KnownTasks(n: nat, tasks: seq<Task>) {
    forall i :: 0 <= i < |tasks| ==> KnownTask(n, tasks[i])
  }

  ghost predicate OwnLists(promises: seq<Promise>) {
    forall p, i :: 0 <= p < |promises| && 0 <= i < |promises[p].list| ==>
      promises[p].list[i].owner == p && promises[p].list[i].child < |promises|
  }

  ghost predicate Ascending(subs: seq<Subscriber>) {
    forall i, j :: 0 <= i < j < |subs| ==> subs[i].child < subs[j].child
  }

  predicate Controlled(c: Core) {
    && c.pos <= |c.queue|
    && (c.queue != [] || c.flushing ==> c.timer)
    && (!c.flushing ==> c.pos == 0 && c.publishing == None)
    && (c.publishing.Some? ==>
          c.publishing.value.p < |c.promises| && c.publishing.value.next <= |c.promises[c.publishing.value.p].list|)
  }

  ghost predicate Shape(c: Core) {
    var n := |c.promises|;
    && Controlled(c)
    && KnownSubs(n, c.registered) && KnownSubs(n, c.started)
    && KnownTasks(n, c.queue) && KnownTasks(n, c.issued)
    && OwnLists(c.promises)
    && Ascending(c.registered)
  }

  /** Everything about one promise: its record, and where its subscribers and its publish tasks are. */
  datatype View = View(
    promise: Promise,
    visiting: bool,
    started: seq<Subscriber>,
    waiting: seq<Subscriber>,
    queued: seq<Subscriber>,
    registered: seq<Subscriber>,
    publishes: nat,
    issued: nat)

  ghost function ViewOf(c: Core, p: nat): View
    requires Controlled(c) && p < |c.promises|
  {
    View(c.promises[p], c.publishing.Some? && c.publishing.value.p == p,
         Owned(c.started, p), Waiting(c, p), Owned(Invoked(Rest(c)), p), Owned(c.registered, p),
         Publishes(Rest(c), p), Publishes(c.issued, p))
  }

  ghost predicate Sound(v: View) {
    SoundBut(v, [])
  }

  /** Sound, but for the subscribers `late` that are not filed yet. */
  ghost predicate SoundBut(v: View, late: seq<Subscriber>) {
    var status := v.promise.status;
    // Started, waiting and queued callbacks are, in this order, the ones registered.
    && v.started + v.waiting + v.queued + late == v.registered
    && v.publishes == (if status == SETTLED then 1 else 0)
    && v.issued == (if status == PENDING then 0 else 1)
    && (if status == PENDING || status == SETTLED
        then !v.promise.dropped && !v.visiting && v.started == [] && v.queued == []
        else v.promise.dropped == !v.visiting && (v.promise.dropped ==> v.promise.list == []))
  }

  /** Every task in the queue was pushed, and a promise is published as its task says. */
  ghost predicate Recorded(c: Core) {
    && (forall i :: 0 <= i < |c.queue| ==> c.queue[i] in c.issued)
    && (forall p :: 0 <= p < |c.promises| ==>
          && (c.promises[p].status == FULFILLED ==> PublishFulfillment(p) in c.issued)
          && (c.promises[p].status == REJECTED ==> PublishRejection(p) in c.issued))
  }

  ghost predicate Inv(c: Core) {
    Shape(c) && Recorded(c) && forall p :: 0 <= p < |c.promises| ==> Sound(ViewOf(c, p))
  }

  // ----- lists -----

  lemma {:induction false} OwnedAppend(a: seq<Subscriber>, b: seq<Subscriber>, p: nat)
    ensures Owned(a + b, p) == Owned(a, p) + Owned(b, p)
  {
    if b == [] {
      assert a + b == a;
    } else {
      var n := |b| - 1;
      OwnedAppend(a, b[..n], p);
      assert (a + b)[..|a + b| - 1] == a + b[..n];
    }
  }

  lemma {:induction false} InvokedAppend(a: seq<Task>, b: seq<Task>)
    ensures Invoked(a + b) == Invoked(a) + Invoked(b)
  {
    if a == [] {
      assert a + b == b;
    } else {
      assert (a + b)[0] == a[0] && (a + b)[1..] == a[1..] + b;
      InvokedAppend(a[1..], b);
      var head := if a[0].Invoke? then [a[0].sub] else [];
      assert Invoked(a + b) == head + Invoked(a[1..] + b);
      assert head + (Invoked(a[1..]) + Invoked(b)) == (head + Invoked(a[1..])) + Invoked(b);
    }
  }

  lemma {:induction false} PublishesAppend(a: seq<Task>, b: seq<Task>, p: nat)
    ensures Publishes(a + b, p) == Publishes(a, p) + Publishes(b, p)
  {
    if a == [] {
      assert a + b == b;
    } else {
      assert (a + b)[0] == a[0] && (a + b)[1..] == a[1..] + b;
      PublishesAppend(a[1..], b, p);
    }
  }

  lemma {:induction false} OwnedNone(subs: seq<Subscriber>, p: nat)
    requires KnownSubs(p, subs)
    ensures Owned(subs, p) == []
  {
    if subs != [] {
      OwnedNone(subs[..|subs| - 1], p);
    }
  }

  lemma OwnedOne(sub: Subscriber, p: nat)
    ensures Owned([sub], p) == if sub.owner == p then [sub] else []
  {
    assert [sub][..0] == [] && Owned([], p) == [];
  }

  lemma TaskOne(t: Task, p: nat)
    ensures Invoked([t]) == if t.Invoke? then [t.sub] else []
    ensures Owned(Invoked([t]), p) == if t.Invoke? && t.sub.owner == p then [t.sub] else []
    ensures Publishes([t], p) == if !t.Invoke? && t.p == p then 1 else 0
  {
    assert [t][1..] == [];
    assert Invoked([t]) == if t.Invoke? then [t.sub] else [];
    if t.Invoke? {
      OwnedOne(t.sub, p);
    }
  }

  lemma {:induction false} NewcomerHasNone(tasks: seq<Task>, p: nat)
    requires KnownTasks(p, tasks)
    ensures KnownSubs(p, Invoked(tasks)) && Publishes(tasks, p) == 0
  {
    if tasks != [] {
      assert KnownTask(p, tasks[0]);
      NewcomerHasNone(tasks[1..], p);
    }
  }

  /** What was known stays known when promises are added. */
  lemma KnownGrows(c: Core, n: nat)
    requires Shape(c) && |c.promises| <= n
    ensures KnownSubs(n, c.registered) && KnownSubs(n, c.started) && KnownTasks(n, c.queue) && KnownTasks(n, c.issued)
  {}

  lemma TaskPushed(a: seq<Task>, t: Task, p: nat)
    ensures Owned(Invoked(a + [t]), p) ==
      if t.Invoke? && t.sub.owner == p then Owned(Invoked(a), p) + [t.sub] else Owned(Invoked(a), p)
    ensures Publishes(a + [t], p) == Publishes(a, p) + if !t.Invoke? && t.p == p then 1 else 0
  {
    hide Owned, Invoked, Publishes;
    TaskOne(t, p);
    InvokedAppend(a, [t]);
    OwnedAppend(Invoked(a), Invoked([t]), p);
    PublishesAppend(a, [t], p);
  }

  /** One more task at the end of the queue. */
  lemma Pushed(c: Core, t: Task, p: nat)
    requires Controlled(c) && p < |c.promises|
    ensures Controlled(AsyncCall(c, t))
    ensures var v, one := ViewOf(c, p), if !t.Invoke? && t.p == p then 1 else 0;
      ViewOf(AsyncCall(c, t), p) ==
        v.(queued := if t.Invoke? && t.sub.owner == p then v.queued + [t.sub] else v.queued,
           publishes := v.publishes + one, issued := v.issued + one)
  {
    hide Owned, Invoked, Publishes;
    assert Rest(AsyncCall(c, t)) == Rest(c) + [t];
    TaskPushed(Rest(c), t, p);
    TaskPushed(c.issued, t, p);
  }

  lemma PushedShape(c: Core, t: Task)
    requires Shape(c) && KnownTask(|c.promises|, t)
    ensures Shape(AsyncCall(c, t))
  {}

  // ----- every operation keeps the invariant -----

  lemma MarkedShape(c: Core, p: nat, v: Value)
    requires Shape(c) && p < |c.promises|
    ensures Shape(c.(promises := c.promises[p := c.promises[p].(status := SETTLED, data := v)]))
  {
    hide KnownSubs, KnownTasks, Ascending;
  }

  lemma SettleSound(c: Core, p: nat, v: Value, t: Task, q: nat)
    requires Controlled(c) && p < |c.promises| && q < |c.promises| && !t.Invoke? && t.p == p
    requires c.promises[p].status == PENDING && Sound(ViewOf(c, q))
    ensures Controlled(Settle(c, p, v, t)) && Sound(ViewOf(Settle(c, p, v, t), q))
  {
    hide Owned, Invoked, Publishes, Sound;
    var m := c.(promises := c.promises[p := c.promises[p].(status := SETTLED, data := v)]);
    Pushed(m, t, q);
    assert ViewOf(m, q) == ViewOf(c, q).(promise := m.promises[q]);
    Settled(ViewOf(c, q), m.promises[q], q == p);
  }

  lemma SettleKeeps(c: Core, p: nat, v: Value, t: Task)
    requires Inv(c) && p < |c.promises| && !t.Invoke? && t.p == p
    ensures Inv(Settle(c, p, v, t))
  {
    if c.promises[p].status == PENDING {
      MarkedShape(c, p, v);
      PushedShape(c.(promises := c.promises[p := c.promises[p].(status := SETTLED, data := v)]), t);
      forall q | 0 <= q < |c.promises|
        ensures Sound(ViewOf(Settle(c, p, v, t), q))
      {
        SettleSound(c, p, v, t, q);
      }
    }
  }

  lemma Settled(v: View, pr: Promise, it: bool)
    requires Sound(v) && if it then v.promise.status == PENDING && pr == v.promise.(status := SETTLED, data := pr.data) else pr == v.promise
    ensures var one := if it then 1 else 0; Sound(v.(promise := pr, publishes := v.publishes + one, issued := v.issued + one))
  {}

  lemma AllocateSound(c: Core, origin: Origin, p: nat)
    requires Shape(c) && p <= |c.promises| && (p < |c.promises| ==> Sound(ViewOf(c, p)))
    ensures Controlled(Allocate(c, origin)) && Sound(ViewOf(Allocate(c, origin), p))
  {
    var n := |c.promises|;
    if p == n {
      OwnedNone(c.started, n);
      OwnedNone(c.registered, n);
      NewcomerHasNone(Rest(c), n);
      NewcomerHasNone(c.issued, n);
      OwnedNone(Invoked(Rest(c)), n);
    } else {
      assert ViewOf(Allocate(c, origin), p) == ViewOf(c, p);
    }
  }

  lemma AllocateKeeps(c: Core, origin: Origin)
    requires Inv(c)
    ensures Inv(Allocate(c, origin))
  {
    KnownGrows(c, |c.promises| + 1);
    assert Shape(Allocate(c, origin));
    hide Owned, Invoked, Publishes, Shape, OwnLists, KnownSubs, KnownTasks, Ascending, Sound, ViewOf;
    forall p | 0 <= p <= |c.promises|
      ensures Sound(ViewOf(Allocate(c, origin), p))
    {
      AllocateSound(c, origin, p);
    }
  }

  /** Then, up to the point where the new subscriber is filed. */
  function Subscribed(c: Core, sub: Subscriber): Core {
    Allocate(c, Derived).(registered := c.registered + [sub])
  }

  lemma SubscribedKeeps(c: Core, sub: Subscriber, q: nat)
    requires Inv(c) && sub.owner < |c.promises| && sub.child == |c.promises| && q <= |c.promises|
    ensures Shape(Subscribed(c, sub))
    ensures SoundBut(ViewOf(Subscribed(c, sub), q), if sub.owner == q then [sub] else [])
  {
    SubscribedShape(c, sub);
    AllocateKeeps(c, Derived);
    var a := Allocate(c, Derived);
    hide Owned, Invoked, Publishes, Shape, OwnLists, KnownSubs, KnownTasks, Ascending, Allocate, Sound;
    OwnedAppend(c.registered, [sub], q);
    OwnedOne(sub, q);
    assert Sound(ViewOf(a, q));
    assert ViewOf(Subscribed(c, sub), q) == ViewOf(a, q).(registered := Owned(c.registered, q) + Owned([sub], q));
    NotYetFiled(ViewOf(a, q), Owned([sub], q));
  }

  lemma NotYetFiled(v: View, late: seq<Subscriber>)
    requires Sound(v)
    ensures SoundBut(v.(registered := v.registered + late), late)
  {}

  lemma SubscribedShape(c: Core, sub: Subscriber)
    requires Shape(c) && sub.owner < |c.promises| && sub.child == |c.promises|
    ensures Shape(Subscribed(c, sub))
  {
    KnownGrows(c, |c.promises| + 1);
  }

  lemma OwnListsAppend(promises: seq<Promise>, sub: Subscriber)
    requires OwnLists(promises) && sub.owner < |promises| && sub.child < |promises|
    ensures var pr := promises[sub.owner]; OwnLists(promises[sub.owner := pr.(list := pr.list + [sub])])
  {}

  lemma ThenShape(c: Core, sub: Subscriber)
    requires Shape(c) && KnownSub(|c.promises|, sub) && !(c.publishing.Some? && c.publishing.value.p == sub.owner)
    ensures Shape(Enlisted(c, sub))
  {
    OwnListsAppend(c.promises, sub);
    hide OwnLists, KnownSubs, KnownTasks, Ascending;
  }

  function Enlisted(c: Core, sub: Subscriber): Core
    requires sub.owner < |c.promises|
  {
    var pr := c.promises[sub.owner];
    c.(promises := c.promises[sub.owner := pr.(list := pr.list + [sub])])
  }

  lemma ThenRecorded(c: Core, p: nat, f: Handler, r: Handler)
    requires Recorded(c) && p < |c.promises|
    ensures Recorded(Then(c, p, f, r))
  {}

  lemma ThenKeeps(c: Core, p: nat, f: Handler, r: Handler)
    requires Inv(c) && p < |c.promises|
    ensures Inv(Then(c, p, f, r))
  {
    ThenRecorded(c, p, f, r);
    hide Recorded;
    var sub := Subscriber(p, |c.promises|, f, r);
    var d := Subscribed(c, sub);
    SubscribedKeeps(c, sub, p);
    assert Sound(ViewOf(c, p));
    if Published(c, p) {
      PushedShape(d, Invoke(sub));
    } else {
      ThenShape(d, sub);
    }
    hide Owned, Invoked, Publishes, Shape, OwnLists, KnownSubs, KnownTasks, Ascending, Subscribed, Sound, SoundBut;
    forall q | 0 <= q <= |c.promises|
      ensures Sound(ViewOf(Then(c, p, f, r), q))
    {
      SubscribedKeeps(c, sub, q);
      ThenView(c, p, f, r, q);
      Filed(ViewOf(d, q), if p == q then [sub] else [], Published(c, p));
    }
  }

  /** Late subscribers may be queued once the promise is published, and must join the list before. */
  lemma Filed(v: View, late: seq<Subscriber>, published: bool)
    requires SoundBut(v, late)
    requires late != [] ==> published == (v.promise.status == FULFILLED || v.promise.status == REJECTED)
    ensures published ==> Sound(v.(queued := v.queued + late))
    ensures !published ==> Sound(v.(promise := v.promise.(list := v.promise.list + late), waiting := v.waiting + late))
  {}

  lemma ThenView(c: Core, p: nat, f: Handler, r: Handler, q: nat)
    requires Controlled(c) && p < |c.promises| && q <= |c.promises|
    requires c.publishing.Some? && c.publishing.value.p == p ==> Published(c, p)
    ensures var sub := Subscriber(p, |c.promises|, f, r); var one := if p == q then [sub] else [];
      var v := ViewOf(Subscribed(c, sub), q);
      Controlled(Then(c, p, f, r)) && |Then(c, p, f, r).promises| == |c.promises| + 1 &&
      ViewOf(Then(c, p, f, r), q) ==
        if Published(c, p) then v.(queued := if p == q then v.queued + one else v.queued)
        else v.(promise := v.promise.(list := v.promise.list + one), waiting := v.waiting + one)
  {
    hide Owned, Invoked, Publishes;
    var sub := Subscriber(p, |c.promises|, f, r);
    if Published(c, p) {
      Pushed(Subscribed(c, sub), Invoke(sub), q);
    }
  }

  lemma StartFlushKeeps(c: Core)
    requires Inv(c) && c.timer && !c.flushing
    ensures Inv(StartFlush(c))
  {
    hide Owned, Invoked, Publishes, Sound;
    forall q | 0 <= q < |c.promises|
      ensures Sound(ViewOf(StartFlush(c), q))
    {
      assert ViewOf(StartFlush(c), q) == ViewOf(c, q) && Sound(ViewOf(c, q));
    }
  }

  lemma EndFlushKeeps(c: Core)
    requires Inv(c) && c.flushing && c.publishing == None && c.pos == |c.queue|
    ensures Inv(EndFlush(c))
  {
    hide Owned, Invoked, Publishes, Sound;
    assert Rest(c) == Rest(EndFlush(c)) == [];
    forall q | 0 <= q < |c.promises|
      ensures Sound(ViewOf(EndFlush(c), q))
    {
      assert ViewOf(EndFlush(c), q) == ViewOf(c, q) && Sound(ViewOf(c, q));
    }
  }

  /** The task at the front of the rest of the queue. */
  lemma Front(c: Core, p: nat)
    requires Controlled(c) && c.pos < |c.queue| && p < |c.promises|
    ensures var t, tail := c.queue[c.pos], c.queue[c.pos + 1..];
      && Owned(Invoked(Rest(c)), p) == (if t.Invoke? && t.sub.owner == p then [t.sub] else []) + Owned(Invoked(tail), p)
      && Publishes(Rest(c), p) == (if !t.Invoke? && t.p == p then 1 else 0) + Publishes(tail, p)
  {
    hide Owned, Invoked, Publishes;
    var t, tail := c.queue[c.pos], c.queue[c.pos + 1..];
    assert Rest(c) == [t] + tail;
    InvokedAppend([t], tail);
    PublishesAppend([t], tail, p);
    TaskOne(t, p);
    OwnedAppend(Invoked([t]), Invoked(tail), p);
  }

  lemma BeginPublishShape(c: Core)
    requires Shape(c) && Ready(c) && !c.queue[c.pos].Invoke?
    ensures KnownTask(|c.promises|, c.queue[c.pos]) && Shape(BeginPublish(c))
  {
    assert KnownTask(|c.promises|, c.queue[c.pos]);
  }

  lemma BeginPublishKeeps(c: Core)
    requires Inv(c) && Ready(c) && !c.queue[c.pos].Invoke?
    ensures KnownTask(|c.promises|, c.queue[c.pos]) && Inv(BeginPublish(c))
  {
    BeginPublishShape(c);
    assert Recorded(BeginPublish(c));
    hide Recorded, Owned, Invoked, Publishes, Shape, OwnLists, KnownSubs, KnownTasks, Ascending, Sound, SoundBut;
    var d, t := BeginPublish(c), c.queue[c.pos];
    forall q | 0 <= q < |c.promises|
      ensures Sound(ViewOf(d, q))
    {
      assert Sound(ViewOf(c, q));
      Front(c, q);
      var v, w := ViewOf(c, q), ViewOf(d, q);
      NoPublishYet(c, q);
      PublishBegun(v, w, t.p == q);
    }
  }

  lemma NoPublishYet(c: Core, q: nat)
    requires Ready(c) && Controlled(c) && q < |c.promises|
    ensures !ViewOf(c, q).visiting && ViewOf(c, q).waiting == c.promises[q].list
  {}

  lemma PublishBegun(v: View, w: View, it: bool)
    requires Sound(v) && !v.visiting && v.waiting == v.promise.list
    requires w.started == v.started && w.waiting == v.waiting && w.queued == v.queued && w.registered == v.registered && w.issued == v.issued
    requires v.publishes == w.publishes + if it then 1 else 0
    requires if it then w.visiting && (w.promise.status == FULFILLED || w.promise.status == REJECTED) && w.promise == v.promise.(status := w.promise.status)
             else !w.visiting && w.promise == v.promise
    ensures Sound(w)
  {}

  lemma VisitNextShape(c: Core)
    requires Shape(c) && c.publishing.Some? && c.publishing.value.next < |c.promises[c.publishing.value.p].list|
    ensures Shape(VisitNext(c))
  {
    var sub := c.promises[c.publishing.value.p].list[c.publishing.value.next];
    assert KnownSub(|c.promises|, sub);
    hide OwnLists, KnownTasks, Ascending;
  }

  lemma VisitNextSound(c: Core, q: nat)
    requires Controlled(c) && c.publishing.Some? && c.publishing.value.next < |c.promises[c.publishing.value.p].list|
    requires q < |c.promises| && Sound(ViewOf(c, q))
    requires var at := c.publishing.value; c.promises[at.p].list[at.next].owner == at.p
    ensures Controlled(VisitNext(c)) && Sound(ViewOf(VisitNext(c), q))
  {
    hide Owned, Invoked, Publishes, Sound;
    var d, at := VisitNext(c), c.publishing.value;
    var list := c.promises[at.p].list;
    var sub := list[at.next];
    OwnedAppend(c.started, [sub], q);
    OwnedOne(sub, q);
    assert list[at.next..] == [sub] + list[at.next + 1..];
    Visited(ViewOf(c, q), ViewOf(d, q), sub, q == at.p);
  }

  lemma VisitNextKeeps(c: Core)
    requires Inv(c) && c.publishing.Some? && c.publishing.value.next < |c.promises[c.publishing.value.p].list|
    ensures Inv(VisitNext(c))
  {
    VisitNextShape(c);
    forall q | 0 <= q < |c.promises|
      ensures Sound(ViewOf(VisitNext(c), q))
    {
      VisitNextSound(c, q);
    }
  }

  lemma Visited(v: View, w: View, sub: Subscriber, it: bool)
    requires Sound(v) && w == v.(started := w.started, waiting := w.waiting)
    requires if it then v.visiting && w.started == v.started + [sub] && v.waiting == [sub] + w.waiting
             else w.started == v.started && w.waiting == v.waiting
    ensures Sound(w)
  {
    assert it ==> w.started + w.waiting == v.started + v.waiting;
  }

  lemma EndPublishKeeps(c: Core)
    requires Inv(c) && c.publishing.Some? && c.publishing.value.next == |c.promises[c.publishing.value.p].list|
    ensures Inv(EndPublish(c))
  {
    var d, p := EndPublish(c), c.publishing.value.p;
    EndPublishShape(c);
    hide Owned, Invoked, Publishes, Shape, OwnLists, KnownSubs, KnownTasks, Ascending, Sound, SoundBut;
    forall q | 0 <= q < |c.promises|
      ensures Sound(ViewOf(d, q))
    {
      assert Sound(ViewOf(c, q));
      assert ViewOf(d, q) == ViewOf(c, q).(promise := d.promises[q], visiting := false);
      Dropped(ViewOf(c, q), d.promises[q], q == p);
    }
  }

  lemma EndPublishShape(c: Core)
    requires Shape(c) && c.publishing.Some?
    ensures Shape(EndPublish(c))
  {
    hide KnownSubs, KnownTasks, Ascending;
  }

  lemma Dropped(v: View, pr: Promise, it: bool)
    requires Sound(v) && v.visiting == it
    requires if it then pr == v.promise.(list := [], dropped := true) else pr == v.promise
    ensures Sound(v.(promise := pr, visiting := false))
  {}

  lemma BeginInvokeShape(c: Core)
    requires Shape(c) && Ready(c) && c.queue[c.pos].Invoke?
    ensures Shape(BeginInvoke(c))
  {
    assert KnownTask(|c.promises|, c.queue[c.pos]);
    hide OwnLists, Ascending;
  }

  lemma BeginInvokeSound(c: Core, q: nat)
    requires Controlled(c) && Ready(c) && c.queue[c.pos].Invoke? && q < |c.promises| && Sound(ViewOf(c, q))
    ensures Controlled(BeginInvoke(c)) && Sound(ViewOf(BeginInvoke(c), q))
  {
    hide Owned, Invoked, Publishes, Sound;
    var sub := c.queue[c.pos].sub;
    OwnedAppend(c.started, [sub], q);
    OwnedOne(sub, q);
    Front(c, q);
    NoPublishYet(c, q);
    InvokeBegun(ViewOf(c, q), ViewOf(BeginInvoke(c), q), Owned([sub], q));
  }

  lemma BeginInvokeKeeps(c: Core)
    requires Inv(c) && Ready(c) && c.queue[c.pos].Invoke?
    ensures Inv(BeginInvoke(c))
  {
    BeginInvokeShape(c);
    forall q | 0 <= q < |c.promises|
      ensures Sound(ViewOf(BeginInvoke(c), q))
    {
      BeginInvokeSound(c, q);
    }
  }

  /** A queued callback of a published promise may start: nothing waits in its list any more. */
  lemma InvokeBegun(v: View, w: View, one: seq<Subscriber>)
    requires Sound(v) && !v.visiting && v.waiting == v.promise.list
    requires w == v.(started := v.started + one, queued := w.queued) && v.queued == one + w.queued
    ensures Sound(w)
  {
    if one != [] {
      assert v.waiting == [];
    }
  }
}
