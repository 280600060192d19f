/**
 Hot swap on one node: uploads and deletes in the management service, and the route table they keep up to
 date over HTTP. Goroutines interleave freely; the mutex covers everything but the first look at the
 handler table. A route update whose call fails may have been applied, may not, or may be applied later.
 */
module HotSwap {
  import opened Types

  type Uid = nat
  type Hid = nat

  /** A function handler; `hasIps` is whether it has an address to route to. */
  datatype Handler = Handler(name: string, hasIps: bool, started: bool, destroyed: bool)

  datatype Pc =
    | Looked(prior: Option<Hid>)
    | Locked(prior: Option<Hid>)
    | Starting(made: Hid, prior: Option<Hid>)
    | Posting(made: Hid, prior: Option<Hid>)
    | Destroying(made: Hid, prior: Option<Hid>)
    | Found(target: Hid)
    | Deleting(target: Hid)
    | Unrouting
    | Ended

  /** An upload or a delete of one function. */
  datatype Worker = Worker(name: string, pc: Pc)

  /** `late` is the route updates still under way although their caller has given up. */
  datatype Service = Service(
    handlers: seq<Handler>,
    table: map<string, Hid>,
    routes: map<string, Hid>,
    mutex: Option<Uid>,
    workers: map<Uid, Worker>,
    late: set<Hid>)

  datatype Event =
    | LookUp(u: Uid, name: string)
    | Lock(u: Uid)
    | Create(u: Uid, ok: bool, hasIps: bool)
    | Start(u: Uid, ok: bool)
    | PostReturns(u: Uid, ok: bool, applied: bool, later: bool)
    | DestroyOld(u: Uid, done: bool)
    | FindDoomed(u: Uid, name: string)
    | LockDelete(u: Uid)
    | DestroyDoomed(u: Uid, ok: bool, done: bool)
    | Unroute(u: Uid, ok: bool, applied: bool)
    | ApplyLate(h: Hid)

  predicate Known(s: Service, u: Uid)
  {
    u in s.workers
  }

  /** The config handler on a route update: a handler without addresses means delete, which fails on an unknown name. */
  function Routed(s: Service, h: Hid): map<string, Hid>
    requires h < |s.handlers|
  {
    if s.handlers[h].hasIps then s.routes[s.handlers[h].name := h] else s.routes - {s.handlers[h].name}
  }

  predicate Accepts(s: Service, h: Hid)
    requires h < |s.handlers|
  {
    s.handlers[h].hasIps || s.handlers[h].name in s.routes
  }

  predicate Enabled(s: Service, e: Event)
  {
    match e
    case LookUp(u, name) => u !in s.workers
    case Lock(u) => Known(s, u) && s.workers[u].pc.Looked? && s.mutex.None?
    case Create(u, ok, hasIps) => Known(s, u) && s.workers[u].pc.Locked?
    case Start(u, ok) => Known(s, u) && s.workers[u].pc.Starting? && s.workers[u].pc.made < |s.handlers|
    case PostReturns(u, ok, applied, later) =>
      && Known(s, u) && s.workers[u].pc.Posting? && s.workers[u].pc.made < |s.handlers|
      && (ok ==> applied && !later && Accepts(s, s.workers[u].pc.made)) && (later ==> !applied)
    case DestroyOld(u, done) =>
      Known(s, u) && s.workers[u].pc.Destroying? && (s.workers[u].pc.prior.Some? ==> s.workers[u].pc.prior.value < |s.handlers|)
    case FindDoomed(u, name) => u !in s.workers && name in s.table
    case LockDelete(u) => Known(s, u) && s.workers[u].pc.Found? && s.mutex.None?
    case DestroyDoomed(u, ok, done) => Known(s, u) && s.workers[u].pc.Deleting? && s.workers[u].pc.target < |s.handlers| && (ok ==> done)
    case Unroute(u, ok, applied) => Known(s, u) && s.workers[u].pc.Unrouting? && (ok ==> applied && s.workers[u].name in s.routes)
    case ApplyLate(h) => h in s.late && h < |s.handlers|
  }

  /** What `Destroy` leaves: the flag is set only if the containers really went. */
  function Destroyed(handlers: seq<Handler>, h: Hid, done: bool): seq<Handler>
    requires h < |handlers|
  {
    if done then handlers[h := handlers[h].(destroyed := true)] else handlers
  }

  function HandlersAfter(s: Service, e: Event): seq<Handler>
    requires Enabled(s, e)
  {
    match e
    case Create(u, ok, hasIps) => if ok then s.handlers + [Handler(s.workers[u].name, hasIps, false, false)] else s.handlers
    case Start(u, ok) =>
      var h := s.workers[u].pc.made;
      if ok then s.handlers[h := s.handlers[h].(started := true)] else s.handlers
    case DestroyOld(u, done) =>
      if s.workers[u].pc.prior.Some? then Destroyed(s.handlers, s.workers[u].pc.prior.value, done) else s.handlers
    case DestroyDoomed(u, ok, done) => Destroyed(s.handlers, s.workers[u].pc.target, done)
    case _ => s.handlers
  }

  function RoutesAfter(s: Service, e: Event): map<string, Hid>
    requires Enabled(s, e)
  {
    match e
    case PostReturns(u, ok, applied, later) => if applied then Routed(s, s.workers[u].pc.made) else s.routes
    case Unroute(u, ok, applied) => if applied then s.routes - {s.workers[u].name} else s.routes
    case ApplyLate(h) => Routed(s, h)
    case _ => s.routes
  }

  function PcAfter(s: Service, e: Event): Pc
    requires Enabled(s, e) && !e.ApplyLate?
  {
    match e
    case LookUp(u, name) => Looked(if name in s.table then Some(s.table[name]) else None)
    case Lock(u) => Locked(s.workers[u].pc.prior)
    case Create(u, ok, hasIps) => if ok then Starting(|s.handlers|, s.workers[u].pc.prior) else Ended
    case Start(u, ok) => if ok then Posting(s.workers[u].pc.made, s.workers[u].pc.prior) else Ended
    case PostReturns(u, ok, applied, later) => if ok then Destroying(s.workers[u].pc.made, s.workers[u].pc.prior) else Ended
    case DestroyOld(u, done) => Ended
    case FindDoomed(u, name) => Found(s.table[name])
    case LockDelete(u) => Deleting(s.workers[u].pc.target)
    case DestroyDoomed(u, ok, done) => if ok then Unrouting else Ended
    case Unroute(u, ok, applied) => Ended
  }

  function TableAfter(s: Service, e: Event): map<string, Hid>
    requires Enabled(s, e)
  {
    match e
    case Create(u, ok, hasIps) => if ok then s.table[s.workers[u].name := |s.handlers|] else s.table
    case Unroute(u, ok, applied) => if ok then s.table - {s.workers[u].name} else s.table
    case _ => s.table
  }

  function MutexAfter(s: Service, e: Event): Option<Uid>
    requires Enabled(s, e)
  {
    if e.Lock? || e.LockDelete? then Some(e.u)
    else if e.LookUp? || e.FindDoomed? || e.ApplyLate? then s.mutex
    else if PcAfter(s, e).Ended? then None
    else s.mutex
  }

  function WorkersAfter(s: Service, e: Event): map<Uid, Worker>
    requires Enabled(s, e)
  {
    if e.ApplyLate? then s.workers
    else s.workers[e.u := Worker(if e.LookUp? || e.FindDoomed? then e.name else s.workers[e.u].name, PcAfter(s, e))]
  }

  function LateAfter(s: Service, e: Event): set<Hid>
    requires Enabled(s, e)
  {
    match e
    case PostReturns(u, ok, applied, later) => if later then s.late + {s.workers[u].pc.made} else s.late
    case ApplyLate(h) => s.late - {h}
    case _ => s.late
  }

  function Step(s: Service, e: Event): Service
    requires Enabled(s, e)
  {
    Service(HandlersAfter(s, e), TableAfter(s, e), RoutesAfter(s, e), MutexAfter(s, e), WorkersAfter(s, e), LateAfter(s, e))
  }

  predicate Init(s: Service)
  {
    s == Service([], map[], map[], None, map[], {})
  }

  datatype Run = Run(states: seq<Service>, events: seq<Event>)

  ghost predicate IsRun(r: Run)
  {
    && |r.states| == |r.events| + 1 && Init(r.states[0])
    && forall i :: 0 <= i < |r.events| ==> Enabled(r.states[i], r.events[i]) && r.states[i + 1] == Step(r.states[i], r.events[i])
  }

  // ---------- what always holds ----------

  predicate HoldsMutex(pc: Pc)
  {
    !pc.Looked? && !pc.Found? && !pc.Ended?
  }

  /** A handler that exists and belongs to this function. */
  predicate Of(handlers: seq<Handler>, h: Hid, name: string)
  {
    h < |handlers| && handlers[h].name == name
  }

  /** A worker's handlers: its own is new and intact, the one it replaces is another. */
  predicate WorkerFits(handlers: seq<Handler>, w: Worker)
  {
    match w.pc
    case Looked(prior) => prior.Some? ==> Of(handlers, prior.value, w.name)
    case Locked(prior) => prior.Some? ==> Of(handlers, prior.value, w.name)
    case Starting(made, prior) => Of(handlers, made, w.name) && !handlers[made].destroyed && (prior.Some? ==> prior.value != made && Of(handlers, prior.value, w.name))
    case Posting(made, prior) =>
      && Of(handlers, made, w.name) && handlers[made].started && !handlers[made].destroyed
      && (prior.Some? ==> prior.value != made && Of(handlers, prior.value, w.name))
    case Destroying(made, prior) => Of(handlers, made, w.name) && (prior.Some? ==> prior.value != made && Of(handlers, prior.value, w.name))
    case Found(target) => Of(handlers, target, w.name)
    case Deleting(target) => Of(handlers, target, w.name)
    case _ => true
  }

  ghost predicate Inv(s: Service)
  {
    && (forall u :: u in s.workers ==> WorkerFits(s.handlers, s.workers[u]))
    && (forall u :: u in s.workers && HoldsMutex(s.workers[u].pc) ==> s.mutex == Some(u))
    && (forall name :: name in s.table ==> Of(s.handlers, s.table[name], name))
    && (forall name :: name in s.routes ==> Of(s.handlers, s.routes[name], name) && s.handlers[s.routes[name]].started)
    && (forall h :: h in s.late ==> h < |s.handlers| && s.handlers[h].started)
  }

  /** Every route points at a handler that was started and has not been destroyed. */
  ghost predicate Live(s: Service)
  {
    forall name :: name in s.routes ==>
      s.routes[name] < |s.handlers| && s.handlers[s.routes[name]].started && !s.handlers[s.routes[name]].destroyed
  }

  /** The handler this event really destroys, if any. */
  function Kills(s: Service, e: Event): Option<Hid>
    requires Enabled(s, e)
  {
    match e
    case DestroyOld(u, done) => if done then s.workers[u].pc.prior else None
    case DestroyDoomed(u, ok, done) => if done then Some(s.workers[u].pc.target) else None
    case _ => None
  }

  /**
   The two ways to lose a route: destroying the handler it points at, or applying late an update to a destroyed
   one.
   */
  predicate Breaks(s: Service, e: Event)
    requires Enabled(s, e)
  {
    || (Kills(s, e).Some? && exists name :: name in s.routes && s.routes[name] == Kills(s, e).value)
    || (e.ApplyLate? && s.handlers[e.h].hasIps && s.handlers[e.h].destroyed)
  }

  // ---------- steps ----------

  /** Handlers keep their identity: they are only ever appended, started and destroyed. */
  lemma HandlersOnlyGrow(s: Service, e: Event, h: Hid)
    requires Inv(s) && Enabled(s, e) && h < |s.handlers|
    ensures h < |HandlersAfter(s, e)|
    ensures var a, b := s.handlers[h], HandlersAfter(s, e)[h];
            && b.name == a.name && b.hasIps == a.hasIps && (a.started ==> b.started)
            && (b.destroyed <==> a.destroyed || Kills(s, e) == Some(h))
  {
  }

  /** The table of handlers has grown, and the worker's own handler is as intact as it was. */
  ghost predicate Grown(handlers: seq<Handler>, handlers': seq<Handler>, w: Worker)
  {
    && |handlers| <= |handlers'|
    && (forall h :: 0 <= h < |handlers| ==>
          handlers'[h].name == handlers[h].name && (handlers[h].started ==> handlers'[h].started))
    && (w.pc.Starting? || w.pc.Posting? ==>
          w.pc.made < |handlers| && handlers'[w.pc.made].destroyed == handlers[w.pc.made].destroyed)
  }

  lemma FitsGrown(handlers: seq<Handler>, handlers': seq<Handler>, w: Worker)
    requires WorkerFits(handlers, w) && Grown(handlers, handlers', w)
    ensures WorkerFits(handlers', w)
  {
  }

  /** The mutex names its holder. */
  lemma HolderIsNamed(s: Service, u: Uid)
    requires Inv(s) && u in s.workers && HoldsMutex(s.workers[u].pc)
    ensures s.mutex == Some(u)
  {
  }

  /** While one goroutine holds the mutex no other does. */
  lemma OthersWait(s: Service, u: Uid, v: Uid)
    requires Inv(s) && u in s.workers && HoldsMutex(s.workers[u].pc) && u != v
    ensures v in s.workers ==> !HoldsMutex(s.workers[v].pc)
  {
  }

  /** Only a goroutine inside the mutex destroys a handler, and no event takes the mutex from its holder. */
  lemma MutexKept(s: Service, e: Event, u: Uid)
    requires Inv(s) && Enabled(s, e) && u in s.workers && (e.ApplyLate? || u != e.u) && HoldsMutex(s.workers[u].pc)
    ensures MutexAfter(s, e) == Some(u) && Kills(s, e).None?
  {
    hide Inv, WorkerFits;
    HolderIsNamed(s, u);
    if !e.ApplyLate? {
      OthersWait(s, u, e.u);
    }
  }

  lemma OtherWorkerFits(s: Service, e: Event, u: Uid)
    requires Inv(s) && Enabled(s, e) && u in s.workers && (e.ApplyLate? || u != e.u)
    ensures WorkerFits(HandlersAfter(s, e), s.workers[u])
    ensures HoldsMutex(s.workers[u].pc) ==> MutexAfter(s, e) == Some(u)
  {
    var w := s.workers[u];
    assert WorkerFits(s.handlers, w);
    HandlersLonger(s, e);
    hide Enabled, HandlersAfter, Kills, MutexAfter, Of;
    forall h | 0 <= h < |s.handlers|
      ensures HandlersAfter(s, e)[h].name == s.handlers[h].name
      ensures s.handlers[h].started ==> HandlersAfter(s, e)[h].started
      ensures HandlersAfter(s, e)[h].destroyed <==> s.handlers[h].destroyed || Kills(s, e) == Some(h)
    {
      HandlersOnlyGrow(s, e, h);
    }
    if HoldsMutex(w.pc) {
      MutexKept(s, e, u);
    }
    if w.pc.Starting? || w.pc.Posting? {
      MadeExists(s.handlers, w);
    }
    hide Inv, WorkerFits;
    FitsGrown(s.handlers, HandlersAfter(s, e), w);
  }

  lemma HandlersLonger(s: Service, e: Event)
    requires Enabled(s, e)
    ensures |s.handlers| <= |HandlersAfter(s, e)|
  {
  }

  lemma MadeExists(handlers: seq<Handler>, w: Worker)
    requires WorkerFits(handlers, w) && (w.pc.Starting? || w.pc.Posting?)
    ensures w.pc.made < |handlers|
  {
  }

  /** An upload's own step inside the mutex. */
  lemma OwnUploadFits(s: Service, e: Event)
    requires Inv(s) && Enabled(s, e) && (e.Create? || e.Start? || e.PostReturns? || e.DestroyOld?)
    ensures WorkerFits(HandlersAfter(s, e), WorkersAfter(s, e)[e.u])
    ensures HoldsMutex(PcAfter(s, e)) ==> MutexAfter(s, e) == Some(e.u)
  {
    assert WorkerFits(s.handlers, s.workers[e.u]) && s.mutex == Some(e.u);
    hide Inv;
  }

  lemma OwnOtherFits(s: Service, e: Event)
    requires Inv(s) && Enabled(s, e) && !e.Create? && !e.Start? && !e.PostReturns? && !e.DestroyOld? && !e.ApplyLate?
    ensures WorkerFits(HandlersAfter(s, e), WorkersAfter(s, e)[e.u])
    ensures HoldsMutex(PcAfter(s, e)) ==> MutexAfter(s, e) == Some(e.u)
  {
    assert e.u in s.workers ==> WorkerFits(s.handlers, s.workers[e.u]);
    assert e.LookUp? && e.name in s.table ==> Of(s.handlers, s.table[e.name], e.name);
    assert e.FindDoomed? ==> Of(s.handlers, s.table[e.name], e.name);
    assert e.DestroyDoomed? || e.Unroute? ==> s.mutex == Some(e.u);
    hide Inv;
  }

  lemma StepWorkersFit(s: Service, e: Event, u: Uid)
    requires Inv(s) && Enabled(s, e) && u in WorkersAfter(s, e)
    ensures WorkerFits(HandlersAfter(s, e), WorkersAfter(s, e)[u])
    ensures HoldsMutex(WorkersAfter(s, e)[u].pc) ==> MutexAfter(s, e) == Some(u)
  {
    hide Inv, Enabled, HandlersAfter, MutexAfter, PcAfter, WorkerFits, HoldsMutex;
    if e.ApplyLate? || u != e.u {
      OtherWorkerFits(s, e, u);
    } else if e.Create? || e.Start? || e.PostReturns? || e.DestroyOld? {
      OwnUploadFits(s, e);
    } else {
      OwnOtherFits(s, e);
    }
  }

  lemma StepInv(s: Service, e: Event)
    requires Inv(s) && Enabled(s, e)
    ensures Inv(Step(s, e))
  {
    var s' := Step(s, e);
    forall u | u in s'.workers ensures WorkerFits(s'.handlers, s'.workers[u]) && (HoldsMutex(s'.workers[u].pc) ==> s'.mutex == Some(u)) {
      StepWorkersFit(s, e, u);
    }
    StepTargets(s, e);
    hide Enabled, HandlersAfter, TableAfter, RoutesAfter, MutexAfter, WorkersAfter, LateAfter, WorkerFits, HoldsMutex;
    hide Of;
  }

  /** The table, the routes and the late updates keep naming handlers of their function. */
  lemma StepTargets(s: Service, e: Event)
    requires Inv(s) && Enabled(s, e)
    ensures forall name :: name in TableAfter(s, e) ==> Of(HandlersAfter(s, e), TableAfter(s, e)[name], name)
    ensures forall name :: name in RoutesAfter(s, e) ==>
              Of(HandlersAfter(s, e), RoutesAfter(s, e)[name], name) && HandlersAfter(s, e)[RoutesAfter(s, e)[name]].started
    ensures forall h :: h in LateAfter(s, e) ==> h < |HandlersAfter(s, e)| && HandlersAfter(s, e)[h].started
  {
    if e.PostReturns? {
      assert WorkerFits(s.handlers, s.workers[e.u]);
    }
    hide WorkerFits, HoldsMutex;
  }

  /** A route after an event is an earlier one, the update just posted, or the update applied late. */
  lemma RouteComesFrom(s: Service, e: Event, name: string)
    requires Inv(s) && Enabled(s, e) && name in RoutesAfter(s, e)
    ensures var h := RoutesAfter(s, e)[name];
            || (name in s.routes && s.routes[name] == h)
            || (e.PostReturns? && s.workers[e.u].pc.made == h)
            || (e.ApplyLate? && e.h == h && s.handlers[h].hasIps)
  {
  }

  lemma UnbrokenStaysLive(s: Service, e: Event, name: string)
    requires Inv(s) && Live(s) && Enabled(s, e) && !Breaks(s, e) && name in RoutesAfter(s, e)
    ensures var h := RoutesAfter(s, e)[name];
            h < |HandlersAfter(s, e)| && HandlersAfter(s, e)[h].started && !HandlersAfter(s, e)[h].destroyed
  {
    hide RoutesAfter, HandlersAfter;
    var h := RoutesAfter(s, e)[name];
    RouteComesFrom(s, e, name);
    if e.PostReturns? && s.workers[e.u].pc.made == h {
      assert WorkerFits(s.handlers, s.workers[e.u]);
    }
    HandlersOnlyGrow(s, e, h);
  }

  lemma BreakShows(s: Service, e: Event)
    requires Inv(s) && Enabled(s, e) && Breaks(s, e)
    ensures !Live(Step(s, e))
  {
    var s' := Step(s, e);
    if e.ApplyLate? {
      var name := s.handlers[e.h].name;
      assert name in s'.routes && s'.routes[name] == e.h && s'.handlers[e.h].destroyed;
    } else {
      var name :| name in s.routes && s.routes[name] == Kills(s, e).value;
      HandlersOnlyGrow(s, e, s.routes[name]);
      assert name in s'.routes && s'.routes[name] == s.routes[name];
    }
  }

  lemma StepLiveExactly(s: Service, e: Event)
    requires Inv(s) && Live(s) && Enabled(s, e)
    ensures Live(Step(s, e)) <==> !Breaks(s, e)
  {
    hide RoutesAfter, HandlersAfter, Inv, Breaks;
    if Breaks(s, e) {
      BreakShows(s, e);
    } else {
      var s' := Step(s, e);
      forall name | name in s'.routes
        ensures s'.routes[name] < |s'.handlers| && s'.handlers[s'.routes[name]].started
                && !s'.handlers[s'.routes[name]].destroyed
      {
        UnbrokenStaysLive(s, e, name);
      }
    }
  }

  // ---------- whole runs ----------

  lemma {:induction false} InvHolds(r: Run, n: nat)
    requires IsRun(r) && n < |r.states|
    ensures Inv(r.states[n])
  {
    hide Enabled, Step;
    if n > 0 {
      InvHolds(r, n - 1);
      StepInv(r.states[n - 1], r.events[n - 1]);
    }
  }

  /**
   Over any interleaving of uploads and deletes, with any step failing: routes stay live exactly as long as
   nobody destroys the handler a route points at and no late update names a destroyed handler.
   */
  lemma {:induction false} RoutesLiveExactly(r: Run, n: nat)
    requires IsRun(r) && n < |r.states|
    ensures (forall i :: 0 <= i <= n ==> Live(r.states[i])) <==> (forall i :: 0 <= i < n ==> !Breaks(r.states[i], r.events[i]))
  {
    hide Enabled, Step, Breaks, Inv;
    if n == 0 {
      assert Live(r.states[0]);
    } else {
      RoutesLiveExactly(r, n - 1);
      InvHolds(r, n - 1);
      var s, e := r.states[n - 1], r.events[n - 1];
      hide Live;
      if forall i :: 0 <= i <= n - 1 ==> Live(r.states[i]) {
        StepLiveExactly(s, e);
        assert Live(r.states[n]) <==> !Breaks(s, e);
      }
    }
  }

  // ---------- uploads never destroy what is routed ----------

  /** While an upload is past its route update, its function is routed to the new handler or not at all. */
  predicate OwnRoute(routes: map<string, Hid>, w: Worker)
  {
    w.pc.Destroying? && w.name in routes ==> routes[w.name] == w.pc.made
  }

  ghost predicate Settled(s: Service)
  {
    s.late == {} && forall u :: u in s.workers ==> OwnRoute(s.routes, s.workers[u])
  }

  /** The update of another worker cannot come in between: it would need the mutex. */
  lemma OwnRouteStays(s: Service, e: Event, u: Uid)
    requires Inv(s) && Settled(s) && Enabled(s, e) && u in WorkersAfter(s, e) && (e.PostReturns? ==> !e.later)
    ensures OwnRoute(RoutesAfter(s, e), WorkersAfter(s, e)[u])
  {
    if u in s.workers && s.workers[u].pc.Destroying? {
      assert OwnRoute(s.routes, s.workers[u]) && s.mutex == Some(u);
    }
    if e.PostReturns? {
      assert WorkerFits(s.handlers, s.workers[e.u]) && s.mutex == Some(e.u);
    } else if e.Unroute? {
      assert s.mutex == Some(e.u);
    }
    hide Inv, Settled, HandlersAfter, TableAfter, LateAfter;
  }

  lemma StepSettled(s: Service, e: Event)
    requires Inv(s) && Settled(s) && Enabled(s, e) && (e.PostReturns? ==> !e.later)
    ensures Settled(Step(s, e))
  {
    hide WorkersAfter, RoutesAfter, HandlersAfter, TableAfter, MutexAfter;
    forall u | u in WorkersAfter(s, e) ensures OwnRoute(RoutesAfter(s, e), WorkersAfter(s, e)[u]) {
      OwnRouteStays(s, e, u);
    }
    hide Inv, OwnRoute, Enabled;
  }

  lemma {:induction false} SettledHolds(r: Run, n: nat)
    requires IsRun(r) && n < |r.states|
    requires forall i :: 0 <= i < n ==> r.events[i].PostReturns? ==> !r.events[i].later
    ensures Settled(r.states[n])
  {
    hide Enabled, Step, OwnRoute;
    if n > 0 {
      SettledHolds(r, n - 1);
      InvHolds(r, n - 1);
      StepSettled(r.states[n - 1], r.events[n - 1]);
    }
  }

  /**
   An upload destroys the handler it replaces only when no route points there, although it looked that handler up
   outside the mutex.
   */
  lemma UploadsSpareRoutes(s: Service, u: Uid, done: bool)
    requires Inv(s) && Settled(s) && Enabled(s, DestroyOld(u, done))
    ensures !Breaks(s, DestroyOld(u, done))
  {
    var w := s.workers[u];
    assert WorkerFits(s.handlers, w) && OwnRoute(s.routes, w);
    if w.pc.prior.Some? {
      forall name | name in s.routes ensures s.routes[name] != w.pc.prior.value {
        assert Of(s.handlers, s.routes[name], name);
      }
    }
  }

  /**
   Hot swap keeps routes live: over any interleaving of uploads, with a failure possible at every step and a
   failed route update applied or not, and without deletes, every route of every reachable state points at a
   handler that was started and has not been destroyed.
   */
  lemma HotSwapKeepsRoutesLive(r: Run, n: nat)
    requires IsRun(r) && n < |r.states|
    requires forall i :: 0 <= i < n ==> !r.events[i].DestroyDoomed? && (r.events[i].PostReturns? ==> !r.events[i].later)
    ensures Live(r.states[n])
  {
    forall i | 0 <= i < n ensures !Breaks(r.states[i], r.events[i]) {
      InvHolds(r, i);
      SettledHolds(r, i);
      hide Inv, IsRun, Step;
      if r.events[i].DestroyOld? {
        UploadsSpareRoutes(r.states[i], r.events[i].u, r.events[i].done);
      }
    }
    RoutesLiveExactly(r, n);
  }

  /**
   However an upload or a delete ends, in success or at any failing step, the mutex is free again and it does no
   more.
   */
  lemma EveryEndFreesTheMutex(s: Service, e: Event)
    requires Inv(s) && Enabled(s, e)
    requires || (e.Create? && !e.ok) || (e.Start? && !e.ok) || (e.PostReturns? && !e.ok) || e.DestroyOld?
             || (e.DestroyDoomed? && !e.ok) || e.Unroute?
    ensures s.mutex == Some(e.u) && Step(s, e).mutex == None
    ensures e.u in Step(s, e).workers && Step(s, e).workers[e.u].pc == Ended
  {
    hide WorkerFits;
  }

  // ---------- the two hypotheses are needed ----------

  /** Some run ends in this state. */
  ghost predicate Reached(s: Service)
  {
    exists r: Run :: Ends(r, s)
  }

  ghost predicate Ends(r: Run, s: Service)
  {
    IsRun(r) && r.states[|r.events|] == s
  }

  lemma Extend(s: Service, e: Event)
    requires Reached(s) && Enabled(s, e)
    ensures Reached(Step(s, e))
  {
    hide Enabled, Step, Init;
    var r :| Ends(r, s);
    assert Ends(Run(r.states + [Step(s, e)], r.events + [e]), Step(s, e));
  }

  /** An upload of "f" as far as its route update, by a service whose mutex is free. */
  lemma UploadTo(s: Service, u: Uid) returns (s': Service)
    requires Reached(s) && u !in s.workers && s.mutex.None?
    ensures Reached(s')
    ensures var prior := if "f" in s.table then Some(s.table["f"]) else None;
            s' == Service(s.handlers + [Handler("f", true, true, false)], s.table["f" := |s.handlers|], s.routes, Some(u),
                          s.workers[u := Worker("f", Posting(|s.handlers|, prior))], s.late)
  {
    hide Reached;
    Extend(s, LookUp(u, "f"));
    var s1 := Step(s, LookUp(u, "f"));
    Extend(s1, Lock(u));
    var s2 := Step(s1, Lock(u));
    Extend(s2, Create(u, true, true));
    var s3 := Step(s2, Create(u, true, true));
    Extend(s3, Start(u, true));
    s' := Step(s3, Start(u, true));
    assert s'.handlers == s.handlers + [Handler("f", true, true, false)];
  }

  /**
   A route update that takes effect only after its upload has given up can undo a later hot swap: the next
   upload replaces and destroys that handler, and then the late update routes the function to it.
   */
  lemma LateUpdateBreaks() returns (s: Service)
    ensures Reached(s) && !Live(s)
  {
    hide Reached;
    var s0 := Service([], map[], map[], None, map[], {});
    assert Ends(Run([s0], []), s0);
    assert Reached(s0) by {
      EndsReached(Run([s0], []), s0);
    }
    var s1 := UploadTo(s0, 0);
    Extend(s1, PostReturns(0, false, false, true));
    var s2 := Step(s1, PostReturns(0, false, false, true));
    var s3 := UploadTo(s2, 1);
    s := SwapThenLate(s3);
  }

  lemma EndsReached(r: Run, s: Service)
    requires Ends(r, s)
    ensures Reached(s)
  {
  }

  lemma SwapThenLate(s: Service) returns (s': Service)
    requires Reached(s) && 1 in s.workers && s.workers[1] == Worker("f", Posting(1, Some(0))) && s.late == {0}
    requires s.handlers == [Handler("f", true, true, false), Handler("f", true, true, false)]
    ensures Reached(s') && !Live(s')
  {
    hide Reached;
    Extend(s, PostReturns(1, true, true, false));
    var s1 := Step(s, PostReturns(1, true, true, false));
    Extend(s1, DestroyOld(1, true));
    var s2 := Step(s1, DestroyOld(1, true));
    Extend(s2, ApplyLate(0));
    s' := Step(s2, ApplyLate(0));
    assert s'.routes["f"] == 0 && s'.handlers[0].destroyed;
  }

  /**
   A delete destroys first and unroutes afterwards: between the two, the function is routed to a destroyed handler.
   */
  lemma DeleteLosesRouteBriefly(s: Service, u: Uid)
    requires Inv(s) && Live(s) && Enabled(s, DestroyDoomed(u, true, true))
    requires s.workers[u].name in s.routes && s.routes[s.workers[u].name] == s.workers[u].pc.target
    ensures var s' := Step(s, DestroyDoomed(u, true, true));
            !Live(s') && Enabled(s', Unroute(u, true, true)) && Live(Step(s', Unroute(u, true, true)))
  {
    var name, h := s.workers[u].name, s.workers[u].pc.target;
    var s' := Step(s, DestroyDoomed(u, true, true));
    assert name in s'.routes && s'.handlers[h].destroyed;
    var s2 := Step(s', Unroute(u, true, true));
    forall n | n in s2.routes ensures s2.routes[n] < |s2.handlers| && s2.handlers[s2.routes[n]].started && !s2.handlers[s2.routes[n]].destroyed {
      assert n in s.routes && Of(s.handlers, s.routes[n], n) && Of(s.handlers, h, name) by {
        assert WorkerFits(s.handlers, s.workers[u]);
      }
    }
  }
}
