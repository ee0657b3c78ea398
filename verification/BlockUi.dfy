/** The block/unblock lifecycle of one target: the page or one element. */
module BlockUi {
  import opened Options

  /** One animated removal: the layers it took along and how many of their fades have not ended. */
  datatype Fade = Fade(els: set<nat>, count: int)

  /**
   * isBlocked flag, layers in the document, pageBlock (page only), bound event handlers, armed
   * timers, the timer id kept with the target, the removals so far, and for each fading layer the
   * removal it belongs to. Layers and timers are numbered in the order in which they are made.
   */
  datatype Target = Target(
    page: bool,
    blocked: bool,
    layers: set<nat>,
    pageBlock: Option<nat>,
    handlers: nat,
    armed: set<nat>,
    timeout: Option<nat>,
    fades: seq<Fade>,
    running: map<nat, nat>,
    nextLayer: nat,
    nextTimer: nat)

  datatype BlockOptions = BlockOptions(ignoreIfBlocked: bool, showOverlay: bool, bindEvents: bool, timeout: bool)

  function Fresh(page: bool): Target {
    Target(page, false, {}, None, 0, {}, None, [], map[], 0, 0)
  }

  // ----- the functions of the plugin -----

  function Bind(t: Target, on: bool, bindEvents: bool, showOverlay: bool): Target {
    if !on && ((t.page && t.pageBlock.None?) || (!t.page && !t.blocked)) then t
    else
      var flagged := t.(blocked := on);
      if !t.page || !bindEvents || (on && !showOverlay) then flagged
      else if on then flagged.(handlers := t.handlers + 1)
      else flagged.(handlers := 0)
  }

  function Reset(t: Target, els: set<nat>): Target {
    if t.blocked then t else t.(layers := t.layers - els)
  }

  function Overtaken(running: map<nat, nat>, layers: set<nat>, f: nat): map<nat, nat> {
    running + map l | l in layers :: f
  }

  /** stop() takes each layer out of the fade it is in; its callback is never called. */
  function StartFade(t: Target): Target {
    var f := |t.fades|;
    t.(fades := t.fades + [Fade(t.layers, |t.layers|)], running := Overtaken(t.running, t.layers, f))
  }

  function Remove(t: Target, fadeOut: bool, bindEvents: bool): Target {
    var cleared := if t.timeout.Some? then t.(armed := t.armed - {t.timeout.value}, timeout := None) else t;
    var unbound := Bind(cleared, false, bindEvents, true);
    var gone := if t.page then unbound.(pageBlock := None) else unbound;
    if fadeOut then StartFade(gone) else Reset(gone, gone.layers)
  }

  /** Puts the three layers up, binds the events, records the page's block and arms the timer. */
  function Show(t: Target, o: BlockOptions): Target {
    var n := t.nextLayer;
    var layered := t.(layers := t.layers + {n, n + 1, n + 2}, nextLayer := n + 3);
    var bound := Bind(layered, true, o.bindEvents, o.showOverlay);
    var shown := if t.page then bound.(pageBlock := Some(n + 2)) else bound;
    if o.timeout then
      shown.(armed := shown.armed + {shown.nextTimer}, timeout := Some(shown.nextTimer), nextTimer := shown.nextTimer + 1)
    else shown
  }

  function Install(t: Target, o: BlockOptions): Target {
    if o.ignoreIfBlocked && t.blocked then t
    else Show(if t.page && t.pageBlock.Some? then Remove(t, false, true) else t, o)
  }

  /** $.blockUI for the page; $.fn.block for an element, which first unblocks it without a fade. */
  function Block(t: Target, o: BlockOptions): Target {
    if t.page || (o.ignoreIfBlocked && t.blocked) then Install(t, o) else Install(Remove(t, false, true), o)
  }

  /** The fade of one layer ends; the last one of a removal resets its layers. */
  function FadeEnds(t: Target, layer: nat): Target
    requires layer in t.running && t.running[layer] < |t.fades|
  {
    var f := t.running[layer];
    var fade := t.fades[f].(count := t.fades[f].count - 1);
    var u := t.(running := t.running - {layer}, fades := t.fades[f := fade]);
    if fade.count == 0 then Reset(u, fade.els) else u
  }

  /** An armed timer fires: it unblocks with the options of its block call. */
  function TimerFires(t: Target, id: nat, fadeOut: bool, bindEvents: bool): Target {
    Remove(t.(armed := t.armed - {id}), fadeOut, bindEvents)
  }

  datatype Event =
    | DoBlock(options: BlockOptions)
    | DoUnblock(fadeOut: bool, bindEvents: bool)
    | Fired(id: nat, fadeOut: bool, bindEvents: bool)
    | Ended(layer: nat)

  function Step(t: Target, e: Event): Target {
    match e
    case DoBlock(o) => Block(t, o)
    case DoUnblock(fadeOut, bindEvents) => Remove(t, fadeOut, bindEvents)
    case Fired(id, fadeOut, bindEvents) => if id in t.armed then TimerFires(t, id, fadeOut, bindEvents) else t
    case Ended(layer) => if layer in t.running && t.running[layer] < |t.fades| then FadeEnds(t, layer) else t
  }

  function Run(page: bool, es: seq<Event>): Target {
    if es == [] then Fresh(page) else Step(Run(page, es[..|es| - 1]), es[|es| - 1])
  }

  // ----- layers -----

  /** The layers whose fade in removal f is still running. */
  function RunningIn(running: map<nat, nat>, f: int): set<nat> {
    set l | l in running && running[l] == f
  }

  ghost predicate FadesSound(t: Target) {
    && (forall l :: l in t.running ==> l < t.nextLayer && t.running[l] < |t.fades| && l in t.fades[t.running[l]].els)
    && (forall l :: l in t.layers ==> l < t.nextLayer)
  }

  /**
   * While the target is not blocked, every layer still there belongs to the latest removal, all of
   * whose unfinished fades are still running.
   */
  ghost predicate LayersLeave(t: Target) {
    !t.blocked && t.layers != {} ==>
      && t.fades != []
      && var f := |t.fades| - 1;
         t.layers <= t.fades[f].els && t.fades[f].count == |RunningIn(t.running, f)| && t.fades[f].count > 0
  }

  ghost predicate LayersInv(t: Target) {
    FadesSound(t) && LayersLeave(t)
  }

  lemma AllRunning(running: map<nat, nat>, layers: set<nat>, f: nat)
    requires forall l :: l in running ==> running[l] != f
    ensures RunningIn(Overtaken(running, layers, f), f) == layers
  {}

  lemma StartFadeKeeps(t: Target)
    requires FadesSound(t)
    ensures LayersInv(StartFade(t))
  {
    AllRunning(t.running, t.layers, |t.fades|);
    hide RunningIn, Overtaken;
    StartFadeSound(t);
    if t.layers != {} {
      var l :| l in t.layers;
      assert |t.layers| >= 1 by { assert t.layers == {l} + (t.layers - {l}); }
    }
  }

  lemma StartFadeSound(t: Target)
    requires FadesSound(t)
    ensures FadesSound(StartFade(t))
  {}

  /** Everything of a removal but its fade or reset. */
  function Released(t: Target, bindEvents: bool): Target {
    var cleared := if t.timeout.Some? then t.(armed := t.armed - {t.timeout.value}, timeout := None) else t;
    var unbound := Bind(cleared, false, bindEvents, true);
    if t.page then unbound.(pageBlock := None) else unbound
  }

  /** On the page the flag and pageBlock agree. */
  predicate FlagAgrees(t: Target) {
    t.page ==> (t.blocked <==> t.pageBlock.Some?)
  }

  lemma ReleasedFrees(t: Target, bindEvents: bool)
    requires FlagAgrees(t)
    ensures var u := Released(t, bindEvents);
      && !u.blocked && u.pageBlock == (if t.page then None else t.pageBlock) && u.timeout == None
      && u.layers == t.layers && u.fades == t.fades && u.running == t.running && u.nextLayer == t.nextLayer && u.page == t.page
      && u.armed == (if t.timeout.Some? then t.armed - {t.timeout.value} else t.armed)
      && u.handlers == (if t.page && t.blocked && bindEvents then 0 else t.handlers)
  {}

  lemma RemoveKeeps(t: Target, fadeOut: bool, bindEvents: bool)
    requires LayersInv(t) && FlagAgrees(t)
    ensures LayersInv(Remove(t, fadeOut, bindEvents)) && FlagAgrees(Remove(t, fadeOut, bindEvents))
    ensures !Remove(t, fadeOut, bindEvents).blocked && Remove(t, fadeOut, bindEvents).page == t.page
    ensures !fadeOut ==> Remove(t, fadeOut, bindEvents).layers == {}
  {
    ReleasedFrees(t, bindEvents);
    var u := Released(t, bindEvents);
    assert Remove(t, fadeOut, bindEvents) == if fadeOut then StartFade(u) else Reset(u, u.layers);
    if fadeOut {
      StartFadeKeeps(u);
    }
  }

  lemma InstallKeeps(t: Target, o: BlockOptions)
    requires LayersInv(t) && FlagAgrees(t)
    ensures LayersInv(Install(t, o)) && FlagAgrees(Install(t, o)) && Install(t, o).page == t.page
  {
    if t.page && t.pageBlock.Some? {
      RemoveKeeps(t, false, true);
    }
  }

  lemma BlockKeeps(t: Target, o: BlockOptions)
    requires LayersInv(t) && FlagAgrees(t)
    ensures LayersInv(Block(t, o)) && FlagAgrees(Block(t, o)) && Block(t, o).page == t.page
  {
    hide Install, Remove;
    RemoveKeeps(t, false, true);
    InstallKeeps(t, o);
    InstallKeeps(Remove(t, false, true), o);
  }

  lemma OneLess(running: map<nat, nat>, layer: nat, f: int)
    requires layer in running
    ensures |RunningIn(running - {layer}, f)| == |RunningIn(running, f)| - if running[layer] == f then 1 else 0
  {
    var before, after := RunningIn(running, f), RunningIn(running - {layer}, f);
    assert after == before - {layer};
  }

  lemma FadeEndsKeeps(t: Target, layer: nat)
    requires LayersInv(t) && FlagAgrees(t) && layer in t.running && t.running[layer] < |t.fades|
    ensures LayersInv(FadeEnds(t, layer)) && FlagAgrees(FadeEnds(t, layer)) && FadeEnds(t, layer).page == t.page
  {
    OneLess(t.running, layer, |t.fades| - 1);
    FadeEndsSound(t, layer);
    hide RunningIn, FadesSound;
  }

  lemma FadeEndsSound(t: Target, layer: nat)
    requires FadesSound(t) && layer in t.running && t.running[layer] < |t.fades|
    ensures FadesSound(FadeEnds(t, layer))
  {}

  lemma StepKeeps(t: Target, e: Event)
    requires LayersInv(t) && FlagAgrees(t)
    ensures LayersInv(Step(t, e)) && FlagAgrees(Step(t, e)) && Step(t, e).page == t.page
  {
    hide Install, Remove, Block, FadeEnds, RunningIn;
    match e
    case DoBlock(o) => BlockKeeps(t, o);
    case DoUnblock(fadeOut, bindEvents) => RemoveKeeps(t, fadeOut, bindEvents);
    case Fired(id, fadeOut, bindEvents) =>
      RemoveKeeps(t.(armed := t.armed - {id}), fadeOut, bindEvents);
    case Ended(layer) =>
      if layer in t.running && t.running[layer] < |t.fades| {
        FadeEndsKeeps(t, layer);
      }
  }

  lemma {:induction false} RunKeeps(page: bool, es: seq<Event>)
    ensures LayersInv(Run(page, es)) && FlagAgrees(Run(page, es)) && Run(page, es).page == page
  {
    if es == [] {
    } else {
      hide LayersInv, FlagAgrees, Step;
      RunKeeps(page, es[..|es| - 1]);
      StepKeeps(Run(page, es[..|es| - 1]), es[|es| - 1]);
    }
  }

  /**
   * When the target is not blocked and the fades of its latest removal are over, no layer is left,
   * however many earlier calls overlapped fades.
   */
  lemma NoLayerRemains(page: bool, es: seq<Event>)
    requires var t := Run(page, es); !t.blocked && RunningIn(t.running, |t.fades| - 1) == {}
    ensures Run(page, es).layers == {}
  {
    RunKeeps(page, es);
    hide RunningIn, Run;
  }

  lemma {:induction false} StaysUnblocked(page: bool, es: seq<Event>, later: seq<Event>)
    requires !Run(page, es).blocked && forall e :: e in later ==> !e.DoBlock?
    ensures !Run(page, es + later).blocked
    decreases |later|
  {
    hide LayersInv, FlagAgrees, Step;
    if later == [] {
      assert es + later == es;
    } else {
      var before, last := later[..|later| - 1], later[|later| - 1];
      assert last in later;
      StaysUnblocked(page, es, before);
      assert (es + later)[..|es + later| - 1] == es + before;
      assert Run(page, es + later) == Step(Run(page, es + before), last);
      hide Run;
      RunKeeps(page, es + before);
      UnblockedStep(Run(page, es + before), last);
    }
  }

  lemma UnblockedStep(t: Target, e: Event)
    requires LayersInv(t) && FlagAgrees(t)
    requires (!t.blocked && !e.DoBlock?) || e.DoUnblock?
    ensures !Step(t, e).blocked
  {
    match e
    case DoUnblock(fadeOut, bindEvents) => RemoveKeeps(t, fadeOut, bindEvents);
    case Fired(id, fadeOut, bindEvents) => RemoveKeeps(t.(armed := t.armed - {id}), fadeOut, bindEvents);
    case Ended(layer) =>
    hide LayersInv, Remove;
  }

  /**
   * Once the last call is an unblock, whatever timers and fades still run after it, the target ends
   * without a layer when the fades of its latest removal are over.
   */
  lemma LastUnblockClears(page: bool, es: seq<Event>, fadeOut: bool, bindEvents: bool, later: seq<Event>)
    requires forall e :: e in later ==> !e.DoBlock?
    requires var t := Run(page, es + [DoUnblock(fadeOut, bindEvents)] + later); RunningIn(t.running, |t.fades| - 1) == {}
    ensures var t := Run(page, es + [DoUnblock(fadeOut, bindEvents)] + later); !t.blocked && t.layers == {}
  {
    hide LayersInv, FlagAgrees, RunningIn, Step;
    var calls := es + [DoUnblock(fadeOut, bindEvents)];
    assert calls[..|calls| - 1] == es;
    RunKeeps(page, es);
    UnblockedStep(Run(page, es), DoUnblock(fadeOut, bindEvents));
    StaysUnblocked(page, calls, later);
    NoLayerRemains(page, calls + later);
  }

  lemma LateFade(t: Target, layer: nat)
    requires t.blocked
    ensures var u := Step(t, Ended(layer)); u == t.(running := u.running, fades := u.fades)
  {}

  /** Fades that end while the target is blocked again change nothing but the fades themselves. */
  lemma {:induction false} LateFadesAreHarmless(page: bool, es: seq<Event>, later: seq<Event>)
    requires Run(page, es).blocked && forall e :: e in later ==> e.Ended?
    ensures var u := Run(page, es + later); u == Run(page, es).(running := u.running, fades := u.fades)
    decreases |later|
  {
    hide Step;
    if later == [] {
      assert es + later == es;
    } else {
      var before, last := later[..|later| - 1], later[|later| - 1];
      assert last in later;
      LateFadesAreHarmless(page, es, before);
      assert (es + later)[..|es + later| - 1] == es + before;
      LateFade(Run(page, es + before), last.layer);
      hide Run;
    }
  }

  // ----- flag, handler and timer -----

  /** The options of every call leave the events bound, as they are by default. */
  predicate BindsEvents(e: Event) {
    match e
    case DoBlock(o) => o.bindEvents
    case DoUnblock(_, bindEvents) => bindEvents
    case Fired(_, _, bindEvents) => bindEvents
    case Ended(_) => true
  }

  ghost predicate Exclusive(t: Target) {
    && FlagAgrees(t)
    && t.handlers <= 1 && (t.handlers == 1 ==> t.page && t.blocked)
    && t.armed == (if t.timeout.Some? then {t.timeout.value} else {})
    && (t.timeout.Some? ==> t.blocked)
  }

  lemma RemoveExclusive(t: Target, fadeOut: bool)
    requires FlagAgrees(t) && t.handlers <= 1 && (t.handlers == 1 ==> t.page && t.blocked)
    requires t.armed <= (if t.timeout.Some? then {t.timeout.value} else {})
    ensures Exclusive(Remove(t, fadeOut, true)) && !Remove(t, fadeOut, true).blocked && Remove(t, fadeOut, true).page == t.page
  {
    ReleasedFrees(t, true);
    var u := Released(t, true);
    assert Remove(t, fadeOut, true) == if fadeOut then StartFade(u) else Reset(u, u.layers);
    hide Released;
  }

  lemma InstallExclusive(t: Target, o: BlockOptions)
    requires Exclusive(t) && o.bindEvents && (!t.page && !o.ignoreIfBlocked ==> !t.blocked)
    ensures Exclusive(Install(t, o))
  {
    if t.page && t.pageBlock.Some? {
      RemoveExclusive(t, false);
    }
    hide Remove;
  }

  lemma StepExclusive(t: Target, e: Event)
    requires Exclusive(t) && BindsEvents(e)
    ensures Exclusive(Step(t, e))
  {
    hide Remove, Install, FlagAgrees;
    match e
    case DoBlock(o) =>
      if t.page || (o.ignoreIfBlocked && t.blocked) {
        InstallExclusive(t, o);
      } else {
        RemoveExclusive(t, false);
        InstallExclusive(Remove(t, false, true), o);
      }
    case DoUnblock(fadeOut, _) => RemoveExclusive(t, fadeOut);
    case Fired(id, fadeOut, _) =>
      ArmedOnly(t, id);
      RemoveExclusive(t.(armed := t.armed - {id}), fadeOut);
    case Ended(layer) => EndedExclusive(t, layer);
  }

  lemma ArmedOnly(t: Target, id: nat)
    requires FlagAgrees(t)
    ensures FlagAgrees(t.(armed := t.armed - {id}))
  {}

  lemma EndedExclusive(t: Target, layer: nat)
    requires Exclusive(t)
    ensures Exclusive(Step(t, Ended(layer)))
  {}

  /**
   * Over every run with events bound: the flag is set if and only if pageBlock is, at most one
   * handler is bound and only while the page is blocked, and at most one timer is armed, the one
   * recorded, and only while the target is blocked.
   */
  lemma {:induction false} RunExclusive(page: bool, es: seq<Event>)
    requires forall e :: e in es ==> BindsEvents(e)
    ensures Exclusive(Run(page, es))
  {
    if es == [] {
    } else {
      hide Step, Exclusive;
      RunExclusive(page, es[..|es| - 1]);
      StepExclusive(Run(page, es[..|es| - 1]), es[|es| - 1]);
    }
  }

  /**
   * A block call that is not ignored shows three new layers, takes events if it is the page's and has
   * an overlay, and arms a timer if asked to. Blocking again never stacks: the target then has those
   * three layers only; on a page that is fading out the old layers stay beside them.
   */
  lemma BlockShows(page: bool, es: seq<Event>, o: BlockOptions)
    requires (forall e :: e in es ==> BindsEvents(e)) && o.bindEvents
    requires !(o.ignoreIfBlocked && Run(page, es).blocked)
    ensures var t := Run(page, es);
      var u, n := Step(t, DoBlock(o)), t.nextLayer;
      && u.blocked && u.nextLayer == n + 3 && (page ==> u.pageBlock == Some(n + 2))
      && u.layers == {n, n + 1, n + 2} + (if page && !t.blocked then t.layers else {})
      && u.handlers == (if page && o.showOverlay then 1 else 0)
      && (u.timeout.Some? <==> o.timeout) && |u.armed| == (if o.timeout then 1 else 0)
  {
    StepsAre(Run(page, es), o, false, true);
    hide *;
    RunExclusive(page, es);
    RunKeeps(page, es);
    var t := Run(page, es);
    BlockIsShow(t, o);
    ClearedForShow(t);
    ShowFromClear(ClearedFor(t), o);
  }

  function ClearedFor(t: Target): Target {
    if !t.page || t.pageBlock.Some? then Remove(t, false, true) else t
  }

  lemma BlockIsShow(t: Target, o: BlockOptions)
    requires !(o.ignoreIfBlocked && t.blocked) && Exclusive(t)
    ensures Block(t, o) == Show(ClearedFor(t), o)
  {
    RemoveExclusive(t, false);
    hide Remove, Show;
  }

  lemma ClearedForShow(t: Target)
    requires Exclusive(t) && LayersInv(t)
    ensures var u := ClearedFor(t);
      && !u.blocked && u.page == t.page && u.handlers == 0 && u.armed == {} && u.timeout == None && u.nextLayer == t.nextLayer
      && u.layers == (if t.page && !t.blocked then t.layers else {}) && (t.page ==> u.pageBlock == None)
  {
    RemoveKeeps(t, false, true);
    RemoveExclusive(t, false);
    ReleasedFrees(t, true);
    hide LayersInv;
  }

  lemma ShowFromClear(t: Target, o: BlockOptions)
    requires t.handlers == 0 && t.armed == {} && t.timeout == None && o.bindEvents
    ensures var u, n := Show(t, o), t.nextLayer;
      && u.blocked && u.nextLayer == n + 3 && (t.page ==> u.pageBlock == Some(n + 2))
      && u.layers == {n, n + 1, n + 2} + t.layers
      && u.handlers == (if t.page && o.showOverlay then 1 else 0)
      && (u.timeout.Some? <==> o.timeout) && |u.armed| == (if o.timeout then 1 else 0)
  {}

  lemma LayersFadeOut(t: Target)
    requires FadesSound(t)
    ensures var u := StartFade(t); u.layers == t.layers && RunningIn(u.running, |u.fades| - 1) == t.layers
  {
    AllRunning(t.running, t.layers, |t.fades|);
    hide RunningIn, Overtaken;
  }

  /** A block call that asks to be ignored while the target is blocked is. */
  lemma BlockIsIgnored(t: Target, o: BlockOptions)
    ensures o.ignoreIfBlocked && t.blocked ==> Step(t, DoBlock(o)) == t
  {}

  lemma StepsAre(t: Target, o: BlockOptions, fadeOut: bool, bindEvents: bool)
    ensures Step(t, DoBlock(o)) == Block(t, o)
    ensures Step(t, DoUnblock(fadeOut, bindEvents)) == Remove(t, fadeOut, bindEvents)
  {
    hide Block, Remove;
  }

  /** What unblocking t with events bound leaves: no handler, no timer, and no layer unless they all fade out. */
  ghost predicate LetGo(t: Target, u: Target, fadeOut: bool) {
    && !u.blocked && u.handlers == 0 && u.armed == {} && u.timeout == None && (t.page ==> u.pageBlock == None)
    && (if fadeOut then u.layers == t.layers && RunningIn(u.running, |u.fades| - 1) == t.layers else u.layers == {})
  }

  lemma RemoveReleases(t: Target, fadeOut: bool)
    requires Exclusive(t) && LayersInv(t)
    ensures LetGo(t, Remove(t, fadeOut, true), fadeOut)
  {
    RemoveKeeps(t, fadeOut, true);
    RemoveExclusive(t, fadeOut);
    ReleasedFrees(t, true);
    var u := Released(t, true);
    assert Remove(t, fadeOut, true) == if fadeOut then StartFade(u) else Reset(u, u.layers);
    LayersFadeOut(u);
    hide LayersInv, RunningIn, Released, Remove, StartFade, Reset;
  }

  /** In every run with events bound an unblock call lets the target go. */
  lemma UnblockReleases(page: bool, es: seq<Event>, fadeOut: bool)
    requires forall e :: e in es ==> BindsEvents(e)
    ensures LetGo(Run(page, es), Step(Run(page, es), DoUnblock(fadeOut, true)), fadeOut)
  {
    hide Run, Step, LayersInv, Exclusive, LetGo, FlagAgrees;
    RunExclusive(page, es);
    RunKeeps(page, es);
    StepsAre(Run(page, es), BlockOptions(false, false, false, false), fadeOut, true);
    RemoveReleases(Run(page, es), fadeOut);
  }

  /** So does the timer of its block call when it fires; a timer that was cleared does nothing. */
  lemma TimerUnblocks(page: bool, es: seq<Event>, id: nat, fadeOut: bool)
    requires forall e :: e in es ==> BindsEvents(e)
    ensures var t := Run(page, es);
      var u := Step(t, Fired(id, fadeOut, true));
      if id in t.armed then LetGo(t, u, fadeOut) else u == t
  {
    hide Run, LayersInv, LetGo, FlagAgrees, Remove;
    RunExclusive(page, es);
    RunKeeps(page, es);
    var t := Run(page, es);
    RemoveReleases(t, fadeOut);
    if id in t.armed {
      TimerIsCleared(t, id, fadeOut);
    }
  }

  lemma TimerIsCleared(t: Target, id: nat, fadeOut: bool)
    requires t.timeout == Some(id)
    ensures Remove(t.(armed := t.armed - {id}), fadeOut, true) == Remove(t, fadeOut, true)
  {
    assert t.armed - {id} - {id} == t.armed - {id};
    hide Bind, StartFade, Reset;
  }

  // ----- fades that run to their end -----

  function Endings(ls: seq<nat>): seq<Event> {
    seq(|ls|, i requires 0 <= i < |ls| => Ended(ls[i]))
  }

  /** The end of a fade leaves the flag, and takes the layer out of the removal it was in. */
  lemma FadeIsOver(t: Target, layer: nat)
    requires FadesSound(t)
    ensures var u := Step(t, Ended(layer));
      u.blocked == t.blocked && |u.fades| == |t.fades| && forall l :: l in u.running <==> l in t.running && l != layer
    ensures forall l :: l in Step(t, Ended(layer)).running ==> Step(t, Ended(layer)).running[l] == t.running[l]
  {}

  /** When the target is not blocked and every fade of its latest removal has ended, in any order, no layer is left. */
  lemma FadesClear(page: bool, es: seq<Event>, ls: seq<nat>)
    requires !Run(page, es).blocked
    requires forall l :: l in RunningIn(Run(page, es).running, |Run(page, es).fades| - 1) ==> l in ls
    ensures Run(page, es + Endings(ls)).layers == {}
  {
    StillRunning(page, es, ls);
    hide Run, Endings;
    var t, u := Run(page, es), Run(page, es + Endings(ls));
    NoneRunning(t.running, u.running, ls, |t.fades| - 1);
    hide RunningIn, LeftRunning;
    NoLayerRemains(page, es + Endings(ls));
  }

  ghost predicate LeftRunning(before: map<nat, nat>, after: map<nat, nat>, ls: seq<nat>) {
    && (forall l :: l in after <==> l in before && l !in ls)
    && (forall l :: l in after ==> after[l] == before[l])
  }

  lemma NoneRunning(before: map<nat, nat>, after: map<nat, nat>, ls: seq<nat>, f: int)
    requires LeftRunning(before, after, ls) && forall l :: l in RunningIn(before, f) ==> l in ls
    ensures RunningIn(after, f) == {}
  {}

  lemma {:induction false} StillRunning(page: bool, es: seq<Event>, ls: seq<nat>)
    ensures var t, u := Run(page, es), Run(page, es + Endings(ls));
      u.blocked == t.blocked && |u.fades| == |t.fades| && LeftRunning(t.running, u.running, ls)
  {
    hide Step;
    if ls == [] {
      assert es + Endings(ls) == es;
    } else {
      var before, last := ls[..|ls| - 1], ls[|ls| - 1];
      StillRunning(page, es, before);
      OneMoreEnding(es, ls);
      RunKeeps(page, es + Endings(before));
      var u := Run(page, es + Endings(before));
      assert Run(page, es + Endings(ls)) == Step(u, Ended(last));
      FadeIsOver(u, last);
      hide Run, Endings, LayersLeave, FlagAgrees, FadesSound;
      assert forall l :: l in ls <==> l in before || l == last;
    }
  }

  lemma OneMoreEnding(es: seq<Event>, ls: seq<nat>)
    requires ls != []
    ensures var all := es + Endings(ls);
      |all| > 0 && all[..|all| - 1] == es + Endings(ls[..|ls| - 1]) && all[|all| - 1] == Ended(ls[|ls| - 1])
  {}

  /**
   * In every run, with events bound or not: an unblock call leaves no handler if and only if there was
   * none, or it is a blocked page's and binds events.
   */
  lemma HandlersGone(page: bool, es: seq<Event>, fadeOut: bool, bindEvents: bool)
    ensures var t := Run(page, es);
      Step(t, DoUnblock(fadeOut, bindEvents)).handlers == 0 <==> t.handlers == 0 || (t.page && t.blocked && bindEvents)
  {
    StepsAre(Run(page, es), BlockOptions(false, false, false, false), fadeOut, bindEvents);
    hide Run, Step, LayersInv;
    RunKeeps(page, es);
    HandlersLeft(Run(page, es), fadeOut, bindEvents);
  }

  lemma HandlersLeft(t: Target, fadeOut: bool, bindEvents: bool)
    requires FlagAgrees(t)
    ensures Remove(t, fadeOut, bindEvents).handlers == if t.page && t.blocked && bindEvents then 0 else t.handlers
  {
    ReleasedFrees(t, bindEvents);
    var u := Released(t, bindEvents);
    assert Remove(t, fadeOut, bindEvents) == if fadeOut then StartFade(u) else Reset(u, u.layers);
    hide Released;
  }

  lemma HandlersShown(t: Target, o: BlockOptions)
    ensures Show(t, o).handlers == t.handlers + if t.page && o.bindEvents && o.showOverlay then 1 else 0
    ensures Show(t, o).blocked && Show(t, o).page == t.page
  {}

  /** The block calls that bind a handler. */
  predicate Binds(o: BlockOptions) {
    o.bindEvents && o.showOverlay
  }

  /**
   * The leak breaks the bound of one handler: in every run, when an unblocked page is blocked,
   * unblocked with bindEvents off and blocked again, two handlers more are bound than before.
   */
  lemma LeakedHandlersStack(es: seq<Event>, o: BlockOptions, fadeOut: bool, again: BlockOptions)
    requires !Run(true, es).blocked && Binds(o) && Binds(again)
    ensures Run(true, es + [DoBlock(o), DoUnblock(fadeOut, false), DoBlock(again)]).handlers == Run(true, es).handlers + 2
  {
    var t := Run(true, es);
    var more := [DoBlock(o), DoUnblock(fadeOut, false), DoBlock(again)];
    RunKeeps(true, es);
    ThreeSteps(es, more[0], more[1], more[2]);
    RunKeeps(true, es + [more[0]]);
    RunKeeps(true, es + [more[0], more[1]]);
    hide Run, Remove, Show, LayersInv;
    var u := Run(true, es + [more[0]]);
    var v := Run(true, es + [more[0], more[1]]);
    HandlersShown(t, o);
    HandlersLeft(u, fadeOut, false);
    RemoveFrees(u, fadeOut, false);
    HandlersShown(v, again);
  }

  lemma RemoveFrees(t: Target, fadeOut: bool, bindEvents: bool)
    requires FlagAgrees(t)
    ensures var u := Remove(t, fadeOut, bindEvents); !u.blocked && u.page == t.page && (t.page ==> u.pageBlock == None)
  {
    ReleasedFrees(t, bindEvents);
    var u := Released(t, bindEvents);
    assert Remove(t, fadeOut, bindEvents) == if fadeOut then StartFade(u) else Reset(u, u.layers);
    hide Released;
  }

  lemma ThreeSteps(es: seq<Event>, x: Event, y: Event, z: Event)
    ensures Run(true, es + [x]) == Step(Run(true, es), x)
    ensures Run(true, es + [x, y]) == Step(Run(true, es + [x]), y)
    ensures Run(true, es + [x, y, z]) == Step(Run(true, es + [x, y]), z)
  {
    hide Step;
    assert (es + [x])[..|es|] == es;
    assert (es + [x, y])[..|es| + 1] == es + [x];
    assert (es + [x, y, z])[..|es| + 2] == es + [x, y];
  }

  /** Unblocking with bindEvents off leaves the handler of the block call bound, and the next block call adds another. */
  lemma HandlerCanLeak()
    ensures var t := Run(true, [DoBlock(BlockOptions(false, true, true, false)), DoUnblock(false, false)]);
      !t.blocked && t.handlers == 1
    ensures var block := DoBlock(BlockOptions(false, true, true, false));
      Run(true, [block, DoUnblock(false, false), block]).handlers == 2
  {
    var o := BlockOptions(false, true, true, false);
    var block, unblock := DoBlock(o), DoUnblock(false, false);
    assert [block, unblock][..1] == [block] && [block][..0] == [];
    assert Run(true, []) == Fresh(true);
    assert Run(true, [block]) == Step(Fresh(true), block);
    assert [] + [block, unblock, block] == [block, unblock, block];
    LeakedHandlersStack([], o, false, o);
  }

  // ----- the plugin as it runs -----

  /** The data kept with the target and the module variables, updated in place. */
  class Plugin {
    const page: bool
    var isBlocked: bool
    var layers: set<nat>
    var pageBlock: Option<nat>
    var handlers: nat
    var armed: set<nat>
    var timeout: Option<nat>
    var fades: seq<Fade>
    var running: map<nat, nat>
    var nextLayer: nat
    var nextTimer: nat

    ghost function Abstract(): Target
      reads this
    {
      Target(page, isBlocked, layers, pageBlock, handlers, armed, timeout, fades, running, nextLayer, nextTimer)
    }

    constructor (page: bool)
      ensures Abstract() == Fresh(page)
    {
      this.page := page;
      isBlocked, layers, pageBlock, handlers, armed, timeout := false, {}, None, 0, {}, None;
      fades, running, nextLayer, nextTimer := [], map[], 0, 0;
    }

    method BindEvents(on: bool, bindEvents: bool, showOverlay: bool)
      modifies this
      ensures Abstract() == Bind(old(Abstract()), on, bindEvents, showOverlay)
    {
      if !on && ((page && pageBlock.None?) || (!page && !isBlocked)) {
        return;
      }
      isBlocked := on;
      if !page || !bindEvents || (on && !showOverlay) {
        return;
      }
      handlers := if on then handlers + 1 else 0;
    }

    method ResetLayers(els: set<nat>)
      modifies this
      ensures Abstract() == Reset(old(Abstract()), els)
    {
      if isBlocked {
        return;
      }
      layers := layers - els;
    }

    method Unblock(fadeOut: bool, bindEvents: bool)
      modifies this
      ensures Abstract() == Remove(old(Abstract()), fadeOut, bindEvents)
      ensures old(LayersInv(Abstract()) && FlagAgrees(Abstract())) ==> LayersInv(Abstract()) && FlagAgrees(Abstract())
    {
      if LayersInv(Abstract()) && FlagAgrees(Abstract()) {
        RemoveKeeps(Abstract(), fadeOut, bindEvents);
      }
      if timeout.Some? {
        armed := armed - {timeout.value};
        timeout := None;
      }
      BindEvents(false, bindEvents, true);
      var els := layers;
      if page {
        pageBlock := None;
      }
      if fadeOut {
        running := Overtaken(running, els, |fades|);
        fades := fades + [Fade(els, |els|)];
      } else {
        ResetLayers(els);
      }
    }

    method ShowLayers(o: BlockOptions)
      modifies this
      ensures Abstract() == Show(old(Abstract()), o)
    {
      var n := nextLayer;
      layers, nextLayer := layers + {n, n + 1, n + 2}, n + 3;
      BindEvents(true, o.bindEvents, o.showOverlay);
      if page {
        pageBlock := Some(n + 2);
      }
      if o.timeout {
        armed, timeout, nextTimer := armed + {nextTimer}, Some(nextTimer), nextTimer + 1;
      }
    }

    method InstallLayers(o: BlockOptions)
      modifies this
      ensures Abstract() == Install(old(Abstract()), o)
    {
      if o.ignoreIfBlocked && isBlocked {
        return;
      }
      hide Remove, Show, LayersInv, FlagAgrees;
      if page && pageBlock.Some? {
        Unblock(false, true);
      }
      ShowLayers(o);
    }

    method BlockTarget(o: BlockOptions)
      modifies this
      ensures Abstract() == Block(old(Abstract()), o)
      ensures old(Exclusive(Abstract())) && o.bindEvents ==> Exclusive(Abstract())
    {
      if Exclusive(Abstract()) && o.bindEvents {
        StepExclusive(Abstract(), DoBlock(o));
      }
      hide Remove, Install, Exclusive;
      if !page && !(o.ignoreIfBlocked && isBlocked) {
        Unblock(false, true);
      }
      InstallLayers(o);
    }

    method LayerFaded(layer: nat)
      requires layer in running && running[layer] < |fades|
      modifies this
      ensures Abstract() == FadeEnds(old(Abstract()), layer)
    {
      var f := running[layer];
      running := running - {layer};
      fades := fades[f := fades[f].(count := fades[f].count - 1)];
      if fades[f].count == 0 {
        ResetLayers(fades[f].els);
      }
    }

    method TimerFired(id: nat, fadeOut: bool, bindEvents: bool)
      requires id in armed
      modifies this
      ensures Abstract() == TimerFires(old(Abstract()), id, fadeOut, bindEvents)
    {
      hide Remove;
      armed := armed - {id};
      Unblock(fadeOut, bindEvents);
    }
  }
}
