/** A run in which P.all does not reject with the first rejection to be published. */
module PromiseLateRejection {
  import opened Options
  import opened Promises
  import opened PromiseMachine
  import opened PromiseSafety
  import opened PromiseAdoption
  import opened PromiseOrder
  import opened PromiseRejections

  const TICK := Tick(NotCallable, NotCallable)

  const ENTRIES := [Awaited(0), Awaited(1)]

  function Opened(status: Status, v: Value, dropped: bool): Promise {
    Promise(Open, status, v, [], dropped)
  }

  function Pending(): Promise {
    Opened(PENDING, Undefined, false)
  }

  /** The flush with its first task under way or done. */
  function Flushing(p: Promise, pos: nat, at: Option<Publishing>): State {
    var rejected := [PublishRejection(0)];
    Start.(core := Core([p, Pending()], rejected, pos, true, true, at, [], [], rejected))
  }

  /** Promise 0 is rejected and published, promise 1 is rejected and still in the queue. */
  function OneRejected(): State {
    var promises := [Opened(REJECTED, Plain(0), true), Opened(SETTLED, Plain(1), false)];
    Start.(core := Core(promises, [PublishRejection(1)], 0, true, false, None, [], [], [PublishRejection(0), PublishRejection(1)]))
  }

  lemma RunNone(s: State)
    ensures Run(s, []) == s
  {}

  lemma TwoCreated()
    ensures Step(Step(Start, Create), Create) == Start.(core := Initial.(promises := [Pending(), Pending()]))
  {}

  lemma FirstRejected()
    ensures var s := Start.(core := Initial.(promises := [Pending(), Pending()]));
      Step(Step(s, DoReject(0, Plain(0))), TICK) == Flushing(Opened(SETTLED, Plain(0), false), 0, None)
  {}

  lemma FirstBegun()
    ensures Step(Flushing(Opened(SETTLED, Plain(0), false), 0, None), TICK) ==
      Flushing(Opened(REJECTED, Plain(0), false), 1, Some(Publishing(0, 0)))
  {}

  lemma FirstEnded()
    ensures Step(Flushing(Opened(REJECTED, Plain(0), false), 1, Some(Publishing(0, 0))), TICK) ==
      Flushing(Opened(REJECTED, Plain(0), true), 1, None)
  {}

  lemma SecondRejected()
    ensures Step(Step(Flushing(Opened(REJECTED, Plain(0), true), 1, None), TICK), DoReject(1, Plain(1))) == OneRejected()
  {}

  lemma OneRejectedIsReached()
    ensures Reachable(OneRejected())
  {
    TwoCreated();
    FirstRejected();
    FirstBegun();
    FirstEnded();
    SecondRejected();
    hide Step, Flushing, OneRejected, Opened, Pending;
    var begin := [Create, Create, DoReject(0, Plain(0)), TICK];
    var all := [Create, Create, DoReject(0, Plain(0)), TICK, TICK, TICK, TICK, DoReject(1, Plain(1))];
    RunFour(Start, Create, Create, DoReject(0, Plain(0)), TICK);
    RunFour(Run(Start, begin), TICK, TICK, TICK, DoReject(1, Plain(1)));
    RunAppend(Start, begin, [TICK, TICK, TICK, DoReject(1, Plain(1))]);
    hide Run;
    assert begin + [TICK, TICK, TICK, DoReject(1, Plain(1))] == all;
  }

  lemma RunFour(s: State, e: Event, f: Event, g: Event, h: Event)
    ensures Run(s, [e, f, g, h]) == Step(Step(Step(Step(s, e), f), g), h)
  {
    hide Step, Run;
    RunNone(s);
    RunStep(s, [], e);
    RunStep(s, [e], f);
    RunStep(s, [e, f], g);
    RunStep(s, [e, f, g], h);
    assert [] + [e] == [e] && [e] + [f] == [e, f] && [e, f] + [g] == [e, f, g] && [e, f, g] + [h] == [e, f, g, h];
  }

  /** After the call of P.all: promise 0 has called back late, promise 1 has a subscriber in its list. */
  function CallMade(one: Promise, pos: nat, flushing: bool, at: Option<Publishing>): State {
    var sub0, sub1 := Subscriber(0, 3, Item(0, 0), Fail(0)), Subscriber(1, 4, Item(0, 1), Fail(0));
    var promises := [Opened(REJECTED, Plain(0), true), one.(list := [sub1]), NewPromise.(origin := Collected), NewPromise, NewPromise];
    var queue := [PublishRejection(1), Invoke(sub0)];
    State(Core(promises, queue, pos, true, flushing, at, [sub0, sub1], [], [PublishRejection(0), PublishRejection(1), Invoke(sub0)]),
          None, [], [], [Gathering(ENTRIES, [None, None], 2, 2)])
  }

  /** The loop of P.all before entry i: the call has allocated the promise 2, entry 0 the promise 3. */
  function InLoop(i: nat): State {
    var sub0 := Subscriber(0, 3, Item(0, 0), Fail(0));
    var c, rejections := OneRejected().core, [PublishRejection(0), PublishRejection(1)];
    var two := c.promises + [NewPromise.(origin := Collected)];
    if i == 0 then Start.(core := c.(promises := two), alls := [Gathering(ENTRIES, [None, None], 0, 2)])
    else
      var d := c.(promises := two + [NewPromise], queue := [PublishRejection(1), Invoke(sub0)], issued := rejections + [Invoke(sub0)], registered := [sub0]);
      Start.(core := d, alls := [Gathering(ENTRIES, [None, None], 1, 2)])
  }

  lemma LoopFirst()
    ensures GatherFrom(InLoop(0), 0, 0) == GatherFrom(InLoop(1), 0, 1)
  {
    GatherUnfold(InLoop(0), 0, 0);
    hide GatherFrom;
    var t := InLoop(0).(alls := [Gathering(ENTRIES, [None, None], 1, 2)]);
    assert ThenAt(t, 0, Item(0, 0), Fail(0)) == InLoop(1);
  }

  lemma LoopSecond()
    ensures GatherFrom(InLoop(1), 0, 1) == CallMade(Opened(SETTLED, Plain(1), false), 0, false, None)
  {
    var t, u := InLoop(1).(alls := [Gathering(ENTRIES, [None, None], 2, 2)]), CallMade(Opened(SETTLED, Plain(1), false), 0, false, None);
    GatherUnfold(InLoop(1), 0, 1);
    GatherUnfold(u, 0, 2);
    hide GatherFrom;
    var v := ThenAt(t, 1, Item(0, 1), Fail(0));
    assert v.core.promises[1].list == u.core.promises[1].list;
    assert v.core.promises == u.core.promises;
    assert v.core.registered == u.core.registered;
    assert v == u;
  }

  lemma TheCall()
    ensures UserTurn(OneRejected()) && ValidEntries(OneRejected().core, ENTRIES)
    ensures Step(OneRejected(), Gather(ENTRIES)) == CallMade(Opened(SETTLED, Plain(1), false), 0, false, None)
  {
    LoopFirst();
    LoopSecond();
    hide GatherFrom, CallMade;
    var empty: seq<Option<Value>> := seq(2, _ => None);
    assert empty == [None, None];
    var all := Gathering(ENTRIES, seq(|ENTRIES|, _ => None), 0, 2);
    assert all.results == empty;
    assert OneRejected().(core := Allocate(OneRejected().core, Collected), alls := [] + [all]) == InLoop(0);
  }

  lemma SecondBegun()
    ensures Step(CallMade(Opened(SETTLED, Plain(1), false), 0, false, None), TICK) == CallMade(Opened(SETTLED, Plain(1), false), 0, true, None)
    ensures Step(CallMade(Opened(SETTLED, Plain(1), false), 0, true, None), TICK) ==
      CallMade(Opened(REJECTED, Plain(1), false), 1, true, Some(Publishing(1, 0)))
  {}

  lemma SecondFails()
    ensures RejectedWith(Step(CallMade(Opened(REJECTED, Plain(1), false), 1, true, Some(Publishing(1, 0))), TICK).core, 2, Plain(1))
  {}

  /** The first rejection to be published is that of promise 0. */
  lemma ZeroIsFirst(c: Core)
    requires |c.issued| > 0 && c.issued[0] == PublishRejection(0) && |c.promises| > 0
    ensures FirstPublished(c, ENTRIES, 0)
  {}

  lemma SecondCounts(s: State)
    requires s == CallMade(Opened(REJECTED, Plain(1), false), 1, true, Some(Publishing(1, 0)))
    ensures var c := Step(s, TICK).core; RejectedWith(c, 2, Plain(1)) && FirstPublished(c, ENTRIES, 0)
  {
    SecondFails();
    ZeroIsFirst(Step(s, TICK).core);
    hide FirstPublished, RejectedWith;
  }

  lemma RunThree(s: State, e: Event, f: Event, g: Event)
    ensures Run(s, [e, f, g]) == Step(Step(Step(s, e), f), g)
  {
    hide Step, Run;
    RunNone(s);
    RunStep(s, [], e);
    RunStep(s, [e], f);
    RunStep(s, [e, f], g);
    assert [] + [e] == [e] && [e] + [f] == [e, f] && [e, f] + [g] == [e, f, g];
  }

  /**
   * The first rejection to be published is not always the reason: when P.all is called promise 0 is
   * rejected and published and the rejection of promise 1 waits in the queue, and P.all takes that of promise 1.
   */
  lemma FirstPublishedCanLose()
    ensures Reachable(OneRejected()) && UserTurn(OneRejected()) && ValidEntries(OneRejected().core, ENTRIES)
    ensures var c := Run(Step(OneRejected(), Gather(ENTRIES)), [TICK, TICK, TICK]).core;
      FirstPublished(c, ENTRIES, 0) && RejectedWith(c, 2, Plain(1))
  {
    OneRejectedIsReached();
    TheCall();
    SecondBegun();
    SecondCounts(CallMade(Opened(REJECTED, Plain(1), false), 1, true, Some(Publishing(1, 0))));
    hide Step, FirstPublished, RejectedWith, OneRejected, CallMade, Opened, Reachable, UserTurn, ValidEntries;
    RunThree(Step(OneRejected(), Gather(ENTRIES)), TICK, TICK, TICK);
    hide Run;
  }
}
