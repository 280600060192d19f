/**
 A run that meets every hypothesis of the power and deployment results at once, and in which both have something to
 say.
 */
module Witness {
  import opened Types
  import opened Relay
  import opened RegistrySpec
  import opened Protocol
  import opened PowerState
  import opened Deployment
  import opened ColdBoot
  import opened Runs

  /** The hypotheses of every run-wide power and deployment result together. */
  ghost predicate AllAssumed(s: Cluster, e: Event)
  {
    PowerCycled(s, e) && NoPendingEntry(s, e)
  }

  /** A condition on events that all the hypotheses together imply. */
  ghost predicate Weaker(ok: (Cluster, Event) -> bool)
  {
    forall s, e :: AllAssumed(s, e) ==> ok(s, e)
  }

  lemma Loosened(s: Cluster, ok: (Cluster, Event) -> bool)
    requires Reached(s, AllAssumed) && Weaker(ok)
    ensures Reached(s, ok)
  {
    hide Reached, AllAssumed;
    Weaken(s, AllAssumed, ok);
  }

  // ---------- events that meet the hypotheses ----------

  /** Startup opens the outlet of the one sleeping worker. */
  lemma EnforceMove(s: Cluster, n: Node, io: Io)
    requires s.startup == Enforcing([n]) && !n.local && n.status == Sleeping
    ensures var e := EnforceNext(io);
            && Enabled(s, e) && CommandOf(s, e) == Some(Switching(n, false, io))
            && var relays := Issue(s.relays, Switching(n, false, io)).0;
               Step(s, e) == s.(startup := Enforcing([]), relays := relays, held := Boot(s.nodes, s.relays, relays, s.held))
  {
    assert [n][0] == n && [n][1..] == [];
    hide Issue, Boot;
  }

  lemma FineStartup(s: Cluster, e: Event)
    requires EnabledRest(s, e) && (e.EnforceLists? || e.EnforceEnds? || Passes(s, e))
    ensures AllAssumed(s, e)
  {
    hide IsSnapshot;
  }

  lemma FineEnforce(s: Cluster, n: Node, io: Io)
    requires s.startup == Enforcing([n]) && !n.local && n.status == Sleeping && io.write.Written?
    requires Issue(s.relays, Switching(n, false, io)).1
    ensures AllAssumed(s, EnforceNext(io))
  {
    EnforceMove(s, n, io);
    hide Issue, Boot;
  }

  /** Whether no recovery pass has a node pending. */
  predicate NobodyPending(c: Ctl)
  {
    !c.Restoring? && (c.Recovering? ==> c.todo == [])
  }

  ghost predicate NobodyDeploys(callers: map<Gid, Caller>)
  {
    forall g :: g in callers ==> !InWindow(callers[g].pc)
  }

  /** A handler's event once startup is over; updates come one at a time and not into a deploy window. */
  lemma FineUpdate(s: Cluster, e: Event, ok: (Cluster, Event) -> bool)
    requires Weaker(ok) && EnabledRest(s, e) && s.startup.Finished?
    requires (e.UpdateStores? && s.updaters == map[] && NobodyDeploys(s.callers)) || e.BroadcastLists? || e.UpdateEnds?
    ensures ok(s, e)
  {
    hide IsSnapshot;
    assert AllAssumed(s, e);
  }

  /** A goroutine's step that asks nothing of the hardware, or finds it in order. */
  lemma FineCaller(s: Cluster, e: Event, ok: (Cluster, Event) -> bool)
    requires Weaker(ok) && EnabledCaller(s, e) && s.startup.Finished? && NobodyPending(s.ctl)
    requires || e.Enter? || (e.ListFunctions? && s.updaters == map[]) || e.DeployReturns? || e.DeployEnds? || e.Record?
             || e.GiveUp? || (e.Poll? && !e.answered) || (e.PowerOnReturns? && e.io == WORKS)
    ensures ok(s, e)
  {
    hide Powered;
    assert AllAssumed(s, e);
  }

  lemma FinePoll(s: Cluster, g: Gid, ok: (Cluster, Event) -> bool)
    requires Weaker(ok) && EnabledCaller(s, Poll(g, true)) && s.startup.Finished? && s.callers[g].node in s.nodes
             && On(s, s.callers[g].node)
    ensures ok(s, Poll(g, true))
  {
    hide EnabledCtl, EnabledRest, Powered;
    assert AllAssumed(s, Poll(g, true));
  }

  /** A controller event; recovery finds nobody healthy and writes on dead nodes only. */
  lemma FineCtl(s: Cluster, e: Event, ok: (Cluster, Event) -> bool)
    requires Weaker(ok) && EnabledCtl(s, e) && s.startup.Finished? && (e.CtlChecks? ==> !e.healthy)
    requires e.CtlPowersOff? ==> e.io == WORKS
    requires e.CtlRestores? ==> s.ctl.to != Active && s.ctl.id in s.nodes && s.nodes[s.ctl.id].status == Dead
    ensures ok(s, e)
  {
    hide EnabledCaller, EnabledRest, IsSnapshot;
    assert AllAssumed(s, e);
  }

  // ---------- startup and one update ----------

  /** A worker recorded asleep but left powered: EnforceSleeping passes over the leader and switches the worker off. */
  lemma SwitchedOff(s: Cluster, n: Node) returns (s': Cluster)
    requires Reached(s, AllAssumed) && s.cfg.enabled && s.startup.NotStarted? && IsSnapshot(s.nodes, Both(n))
    requires n.id == W && !n.local && n.status == Sleeping && n.relayUid == "r" && n.channel == 0 && s.nodes == Table(n)
    requires s.relays == Relays("r", map[], map["r" := Channels(true, false)]) && s.held == map[L := map[], W := map[]]
    ensures Reached(s', AllAssumed) && s' == s.(startup := Finished(map[]), relays := OFF)
  {
    hide Reached, AllAssumed, IsSnapshot, Step, EnabledCaller, EnabledCtl;
    FineStartup(s, EnforceLists(Both(n)));
    var s1 := Quietly(s, EnforceLists(Both(n)), AllAssumed);
    assert Both(n)[0] == Dispatcher() && Both(n)[1..] == [n];
    FineStartup(s1, EnforceNext(WORKS));
    var s2 := Quietly(s1, EnforceNext(WORKS), AllAssumed);
    s' := OffAlong(s2, n);
  }

  lemma OffAlong(s: Cluster, n: Node) returns (s': Cluster)
    requires Reached(s, AllAssumed) && s.startup == Enforcing([n])
    requires n.id == W && !n.local && n.status == Sleeping && n.relayUid == "r" && n.channel == 0 && s.nodes == Table(n)
    requires s.relays == Relays("r", map[], map["r" := Channels(true, false)]) && s.held == map[L := map[], W := map[]]
    ensures Reached(s', AllAssumed) && s' == s.(startup := Finished(map[]), relays := OFF)
  {
    hide Reached, AllAssumed, Step, Enabled, Issue, Boot;
    Switched(s.relays, n, false);
    Cutting(s.nodes, s.relays, s.held);
    EnforceMove(s, n, WORKS);
    FineEnforce(s, n, WORKS);
    Extend(s, EnforceNext(WORKS), AllAssumed);
    var s1 := Step(s, EnforceNext(WORKS));
    assert s1 == s.(startup := Enforcing([]), relays := OFF);
    FineStartup(s1, EnforceEnds);
    s' := Quietly(s1, EnforceEnds, AllAssumed);
  }

  /** A whole update while the worker is not active, so that it is pushed to nobody. */
  lemma UpdatedAside(s: Cluster, u: Uid, change: Change, n: Node, ok: (Cluster, Event) -> bool) returns (s': Cluster)
    requires Reached(s, ok) && Weaker(ok) && s.startup.Finished? && NobodyDeploys(s.callers) && s.updaters == map[]
    requires s.nodes == Table(n) && n.id == W && !n.local && n.status != Active
    ensures Reached(s', ok) && s' == s.(store := Apply(s.store, change))
  {
    hide Reached, Weaker, IsSnapshot, EnabledCaller, EnabledCtl, Apply;
    FineUpdate(s, UpdateStores(u, change), ok);
    var s1 := StoreAlong(s, u, change, ok);
    s' := PushedToNobody(s1, u, n, ok);
    assert s'.updaters == map[];
  }

  lemma PushedToNobody(s: Cluster, u: Uid, n: Node, ok: (Cluster, Event) -> bool) returns (s': Cluster)
    requires Reached(s, ok) && Weaker(ok) && s.startup.Finished? && u in s.updaters && s.updaters[u].Stored?
    requires s.nodes == Table(n) && n.id == W && !n.local && n.status != Active
    ensures Reached(s', ok) && s' == s.(updaters := s.updaters - {u})
  {
    hide Reached, Weaker, IsSnapshot, EnabledCaller, EnabledCtl;
    TwoSnapshot(n);
    hide Both, Table;
    FineUpdate(s, BroadcastLists(u, Both(n)), ok);
    var s1 := ListAlong(s, u, n, ok);
    FineUpdate(s1, UpdateEnds(u), ok);
    s' := EndAlong(s1, u, ok);
    assert s'.updaters == s.updaters - {u};
  }

  /** Startup is over, the worker off, and one function stored. */
  lemma AfterUpdate(minActive: int) returns (s: Cluster)
    ensures Reached(s, AllAssumed)
    ensures s == Start(Sleeping, true, minActive).(startup := Finished(map[]), relays := OFF, store := map["f" := DEF])
  {
    hide Reached, AllAssumed, IsSnapshot, Init, Start, Worker, Dispatcher, Table, Both;
    StartFacts(Sleeping, true, minActive);
    Begin(Start(Sleeping, true, minActive), AllAssumed);
    var s1 := SwitchedOff(Start(Sleeping, true, minActive), Worker(Sleeping));
    s := UpdatedAside(s1, 0, CHANGE, Worker(Sleeping), AllAssumed);
  }

  // ---------- the pieces of a wake, under any weaker condition ----------

  /** The one worker as these runs have it, with no recovery in the way. */
  ghost predicate Calm(s: Cluster)
  {
    && s.startup.Finished? && NobodyPending(s.ctl) && s.cfg.enabled && s.cfg.attempts == 1
    && W in s.nodes && s.nodes == Table(s.nodes[W]) && s.held.Keys == {L, W} && Plain(s.nodes[W])
  }

  predicate Plain(n: Node)
  {
    !n.local && !n.dispatchOnly && n.id == W && n.relayUid == "r" && n.channel == 0 && n.managerAddress != ""
  }

  /**
   A request wakes the worker, whose outlet is closed then; if it was open, the worker boots with nothing deployed.
   */
  lemma Booted(s: Cluster, g: Gid, ok: (Cluster, Event) -> bool) returns (s': Cluster)
    requires Reached(s, ok) && Weaker(ok) && Calm(s) && MustWake(s.nodes, W) && (s.relays == OFF || s.relays == LIT)
    requires g !in s.callers
    ensures Reached(s', ok) && Calm(s') && g in s'.callers && s'.callers == s.callers[g := s'.callers[g]]
    ensures s' == s.(nodes := BeginWake(s.nodes, W), relays := LIT, callers := s'.callers, table := s'.table,
                     records := s'.records, held := if s.relays == OFF then s.held[W := map[]] else s.held)
    ensures s'.callers[g].pc == Polling(1) && s'.callers[g].node == W
  {
    hide Reached, Weaker, EnabledCtl, EnabledRest;
    FineCaller(s, Enter(g, W), ok);
    var s1 := Lead(s, g, ok);
    assert s1.nodes == Table(s1.nodes[W]);
    s' := PoweredUp(s1, g, ok);
  }

  lemma PoweredUp(s: Cluster, g: Gid, ok: (Cluster, Event) -> bool) returns (s': Cluster)
    requires Reached(s, ok) && Weaker(ok) && Calm(s) && (s.relays == OFF || s.relays == LIT)
    requires g in s.callers && s.callers[g].pc.PoweringOn? && s.callers[g].node == W
    ensures Reached(s', ok) && g in s'.callers && s'.callers == s.callers[g := s'.callers[g]]
    ensures s' == s.(relays := LIT, callers := s'.callers, held := if s.relays == OFF then s.held[W := map[]] else s.held)
    ensures s'.callers[g].pc == Polling(1) && s'.callers[g].node == W
  {
    hide Reached, Weaker, EnabledCtl, EnabledRest, Issue, Boot;
    FineCaller(s, PowerOnReturns(g, WORKS), ok);
    Switched(s.relays, s.nodes[W], true);
    if s.relays == OFF {
      Booting(s.nodes, s.held);
    } else {
      Staying(s.nodes, LIT, s.held);
    }
    s' := Power(s, PowerOnReturns(g, WORKS), ok);
  }

  lemma DeployMove(s: Cluster, g: Gid, name: string)
    requires EnabledCaller(s, DeployReturns(g, name, true, true)) && s.callers[g].node in s.held
    ensures var e, c := DeployReturns(g, name, true, true), s.callers[g];
            && Enabled(s, e)
            && Step(s, e) == s.(callers := s.callers[g := c.(pc := PcAfter(s, e), heard := HeardAfter(s, e))],
                                held := s.held[c.node := s.held[c.node][name := c.pc.todo[name]]])
  {
  }

  /** The node answers, and the leader lists what to deploy. */
  lemma Listed(s: Cluster, g: Gid, ok: (Cluster, Event) -> bool) returns (s': Cluster)
    requires Reached(s, ok) && Weaker(ok) && Calm(s) && s.relays == LIT && s.updaters == map[]
    requires g in s.callers && s.callers[g].pc == Polling(1) && s.callers[g].node == W
    ensures Reached(s', ok) && s' == s.(callers := s'.callers)
    ensures g in s'.callers && s'.callers == s.callers[g := s'.callers[g]]
    ensures s'.callers[g].pc == Deploying(s.store, 0) && s'.callers[g].node == W
  {
    hide Reached, Weaker, EnabledCtl, EnabledRest;
    FinePoll(s, g, ok);
    var s1 := Own(s, Poll(g, true), ok);
    FineCaller(s1, ListFunctions(g), ok);
    s' := Own(s1, ListFunctions(g), ok);
  }

  lemma DeployedOne(s: Cluster, g: Gid, name: string, ok: (Cluster, Event) -> bool) returns (s': Cluster)
    requires Reached(s, ok) && Weaker(ok) && s.startup.Finished? && NobodyPending(s.ctl) && W in s.held
    requires g in s.callers && s.callers[g].pc.Deploying? && s.callers[g].node == W && name in s.callers[g].pc.todo
    ensures Reached(s', ok)
    ensures s' == s.(callers := s'.callers, held := s.held[W := s.held[W][name := s.callers[g].pc.todo[name]]])
    ensures g in s'.callers && s'.callers == s.callers[g := s'.callers[g]]
    ensures s'.callers[g].pc == Deploying(s.callers[g].pc.todo - {name}, s.callers[g].pc.failed)
            && s'.callers[g].node == W
  {
    hide Reached, Weaker, Step, Enabled;
    var e := DeployReturns(g, name, true, true);
    FineCaller(s, e, ok);
    DeployMove(s, g, name);
    Extend(s, e, ok);
    s' := Step(s, e);
  }

  lemma RecordedUp(s: Cluster, g: Gid, ok: (Cluster, Event) -> bool) returns (s': Cluster)
    requires Reached(s, ok) && Weaker(ok) && s.startup.Finished? && NobodyPending(s.ctl)
    requires g in s.callers && s.callers[g].pc == Deploying(map[], 0) && s.callers[g].node == W
    ensures Reached(s', ok) && g in s'.callers && s'.callers == s.callers[g := s'.callers[g]]
            && s'.callers[g].pc.Deleting?
    ensures s' == s.(nodes := SetStatus(s.nodes, W, Active, s.clock), callers := s'.callers, cooled := s.cooled - {W})
  {
    hide Reached, Weaker, EnabledCtl, EnabledRest, SetStatus;
    FineCaller(s, DeployEnds(g), ok);
    var s1 := Own(s, DeployEnds(g), ok);
    FineCaller(s1, Record(g), ok);
    s' := Final(s1, g, ok);
  }

  /** The node does not answer within the budget and is recorded dead, its outlet closed. */
  lemma Unanswered(s: Cluster, g: Gid, ok: (Cluster, Event) -> bool) returns (s': Cluster)
    requires Reached(s, ok) && Weaker(ok) && s.startup.Finished? && NobodyPending(s.ctl)
    requires g in s.callers && s.callers[g].pc == Polling(1) && s.callers[g].node == W
    ensures Reached(s', ok) && g in s'.callers && s'.callers == s.callers[g := s'.callers[g]]
            && s'.callers[g].pc == Deleting(NotReady)
    ensures s' == s.(nodes := SetStatus(s.nodes, W, Dead, s.clock), callers := s'.callers, cooled := s.cooled - {W})
  {
    hide Reached, Weaker, SetStatus, EnabledCtl, EnabledRest;
    FineCaller(s, Poll(g, false), ok);
    var s1 := Own(s, Poll(g, false), ok);
    FineCaller(s1, GiveUp(g), ok);
    var s2 := Own(s1, GiveUp(g), ok);
    FineCaller(s2, Record(g), ok);
    s' := Final(s2, g, ok);
  }

  // ---------- the pieces of a controller pass ----------

  lemma CtlAlong(s: Cluster, e: Event, ok: (Cluster, Event) -> bool) returns (s': Cluster)
    requires Reached(s, ok) && Weaker(ok) && EnabledCtl(s, e) && s.startup.Finished? && (e.CtlChecks? ==> !e.healthy)
    requires !e.CtlPowersOff? && !e.CtlRestores? && !e.CtlMarks?
    ensures Reached(s', ok) && Enabled(s, e) && s' == s.(ctl := CtlAfter(s, e))
  {
    hide Reached, Weaker, Step, Enabled, CtlAfter;
    FineCtl(s, e, ok);
    CtlMove(s, e);
    Extend(s, e, ok);
    s' := Step(s, e);
  }

  /** A recovery pass finds the worker dead, unhealthy and past its cooldown, and records it asleep. */
  lemma CooledDown(s: Cluster, n: Node, ok: (Cluster, Event) -> bool) returns (s': Cluster)
    requires Reached(s, ok) && Weaker(ok) && s.startup.Finished? && s.cfg.enabled && s.ctl.Resting?
             && s.nodes == Table(n)
    requires n.id == W && n.status == Dead && ElapsedAtLeast(s.clock, n.deadSince, s.cfg.deadRetry)
    ensures Reached(s', ok)
    ensures s' == s.(nodes := SetStatus(s.nodes, W, Sleeping, s.clock), ctl := Recovering([]), cooled := s.cooled + {W})
  {
    hide Reached, Weaker, IsSnapshot, EnabledCaller, EnabledRest, ElapsedAtLeast, SetStatus;
    var s1 := Checked(s, n, ok);
    FineCtl(s1, CtlRestores, ok);
    s' := Restore(s1, ok);
  }

  lemma Checked(s: Cluster, n: Node, ok: (Cluster, Event) -> bool) returns (s': Cluster)
    requires Reached(s, ok) && Weaker(ok) && s.startup.Finished? && s.cfg.enabled && s.ctl.Resting?
             && s.nodes == Table(n)
    requires n.id == W && n.status == Dead && ElapsedAtLeast(s.clock, n.deadSince, s.cfg.deadRetry)
    ensures Reached(s', ok) && s' == s.(ctl := Restoring(W, Sleeping, []))
  {
    hide Reached, Weaker, IsSnapshot, EnabledCaller, EnabledRest, ElapsedAtLeast;
    TwoSnapshot(n);
    var s1 := CtlAlong(s, CtlWakes(Both(n)), ok);
    assert Both(n)[0] == Dispatcher() && Both(n)[1..] == [n] && [n][0] == n && [n][1..] == [];
    var s2 := CtlAlong(s1, CtlChecks(false), ok);
    s' := CtlAlong(s2, CtlChecks(false), ok);
  }

  /** The controller finds nobody to recover and lists the two nodes. */
  lemma ListedForSweep(s: Cluster, n: Node, ok: (Cluster, Event) -> bool) returns (s': Cluster)
    requires Reached(s, ok) && Weaker(ok) && s.startup.Finished? && s.cfg.enabled && s.ctl.Resting?
             && s.nodes == Table(n)
    requires n.id == W && n.status == Active && !n.dispatchOnly
    ensures Reached(s', ok) && s' == s.(ctl := Sweeping(Both(n), 1))
  {
    hide Reached, Weaker, IsSnapshot, EnabledCaller, EnabledRest;
    TwoSnapshot(n);
    var s1 := CtlAlong(s, CtlWakes(Both(n)), ok);
    assert Both(n)[0] == Dispatcher() && Both(n)[1..] == [n] && [n][0] == n && [n][1..] == [];
    var s2 := CtlAlong(s1, CtlChecks(false), ok);
    var s3 := CtlAlong(s2, CtlChecks(false), ok);
    s' := Counted(s3, n, ok);
  }

  lemma Counted(s: Cluster, n: Node, ok: (Cluster, Event) -> bool) returns (s': Cluster)
    requires Reached(s, ok) && Weaker(ok) && s.startup.Finished? && s.cfg.enabled && s.ctl == Recovering([])
             && s.nodes == Table(n)
    requires n.id == W && n.status == Active && !n.dispatchOnly
    ensures Reached(s', ok) && s' == s.(ctl := Sweeping(Both(n), 1))
  {
    hide Reached, Weaker, IsSnapshot, EnabledCaller, EnabledRest;
    TwoSnapshot(n);
    var s1 := CtlAlong(s, CtlRecovered, ok);
    OneServes(n);
    hide Both, CountServing;
    s' := CtlAlong(s1, CtlLists(Both(n)), ok);
  }

  lemma OneServes(n: Node)
    requires n.status == Active && !n.dispatchOnly
    ensures CountServing(Both(n)) == 1
  {
    assert Both(n)[1..] == [n] && [n][1..] == [];
    assert CountServing([n]) == 1;
  }

  /** The sweep passes over the leader and decides to switch the worker off. */
  lemma Considered(s: Cluster, n: Node, ok: (Cluster, Event) -> bool) returns (s': Cluster)
    requires Reached(s, ok) && Weaker(ok) && s.startup.Finished? && s.cfg.enabled && s.ctl == Sweeping(Both(n), 1)
             && s.nodes == Table(n)
    requires MayScaleDown(n, 1, s.cfg, s.clock) && n.id == W
    ensures Reached(s', ok) && s' == s.(ctl := CuttingPower(n, [], 1))
  {
    hide Reached, Weaker, IsSnapshot, EnabledCaller, EnabledRest;
    assert Both(n)[0] == Dispatcher() && Both(n)[1..] == [n] && [n][0] == n && [n][1..] == [];
    var s1 := CtlAlong(s, CtlConsiders, ok);
    s' := CtlAlong(s1, CtlConsiders, ok);
  }

  lemma CutMove(s: Cluster)
    requires s.cfg.enabled && s.ctl.CuttingPower?
    ensures var (relays, worked) := Issue(s.relays, Switching(s.ctl.node, false, WORKS));
            && Enabled(s, CtlPowersOff(WORKS))
            && Step(s, CtlPowersOff(WORKS)) ==
               s.(relays := relays, held := Boot(s.nodes, s.relays, relays, s.held),
                  ctl := if worked then MarkingAsleep(s.ctl.node, s.ctl.todo, s.ctl.count)
                         else Sweeping(s.ctl.todo, s.ctl.count))
  {
    hide Issue, Boot;
  }

  /** The sweep's power-off opens the worker's outlet, whatever has become of its load. */
  lemma Cut(s: Cluster, n: Node, ok: (Cluster, Event) -> bool) returns (s': Cluster)
    requires Reached(s, ok) && Weaker(ok) && Calm(s) && s.ctl == CuttingPower(n, [], 1) && Plain(n) && s.relays == LIT
    ensures Reached(s', ok) && s' == s.(ctl := MarkingAsleep(n, [], 1), relays := OFF)
    ensures Enabled(s, CtlPowersOff(WORKS)) && s' == Step(s, CtlPowersOff(WORKS))
  {
    hide Reached, Weaker, Enabled, Step, EnabledCaller, EnabledRest, Issue, Boot;
    CutMove(s);
    FineCtl(s, CtlPowersOff(WORKS), ok);
    Switched(LIT, n, false);
    Cutting(s.nodes, LIT, s.held);
    Extend(s, CtlPowersOff(WORKS), ok);
    s' := Step(s, CtlPowersOff(WORKS));
  }

  // ---------- all together ----------

  lemma UpdatedIsCalm(minActive: int)
    ensures var s := Start(Sleeping, true, minActive).(startup := Finished(map[]), relays := OFF, store := map["f" := DEF]);
            && Calm(s) && s.cfg == Config(true, 0, minActive, 0, 1) && s.nodes == Table(Worker(Sleeping))
            && s.nodes[W] == Worker(Sleeping)
            && s.relays == OFF && s.callers == map[]
            && s.store == map["f" := DEF] && s.held == map[L := map[], W := map[]]
            && s.updaters == map[] && s.ctl.Resting? && s.clock == 0 && MustWake(s.nodes, W)
  {
  }

  lemma AssumedIsWeaker()
    ensures Weaker(AllAssumed)
  {
    hide AllAssumed;
  }

  /** The worker is powered and answering, with nothing deployed yet. */
  lemma AfterBoot(minActive: int) returns (s: Cluster)
    ensures Reached(s, AllAssumed) && Calm(s) && s.cfg == Config(true, 0, minActive, 0, 1) && s.ctl.Resting?
    ensures s.nodes == BeginWake(Table(Worker(Sleeping)), W) && s.relays == LIT && s.store == map["f" := DEF]
    ensures s.held == map[L := map[], W := map[]] && s.updaters == map[] && s.clock == 0
    ensures s.callers.Keys == {0} && s.callers[0].pc == Polling(1) && s.callers[0].node == W
  {
    hide Reached, AllAssumed, Calm, Start, Weaker, BeginWake;
    AssumedIsWeaker();
    UpdatedIsCalm(minActive);
    var s0 := AfterUpdate(minActive);
    s := Booted(s0, 0, AllAssumed);
  }

  /** The worker is active and holds the one function there is. */
  lemma AfterWake(minActive: int) returns (s: Cluster)
    ensures Reached(s, AllAssumed) && Calm(s) && s.cfg == Config(true, 0, minActive, 0, 1) && s.ctl.Resting?
    ensures s.nodes[W].status == Active && s.nodes[W].load == 0 && s.nodes[W].lastUsed == Never && s.relays == LIT
    ensures s.store == map["f" := DEF] && s.held == map[L := map[], W := map["f" := DEF]] && s.updaters == map[]
    ensures s.callers.Keys == {0} && s.callers[0].pc.Deleting? && s.clock == 0
  {
    hide Reached, AllAssumed, Weaker;
    AssumedIsWeaker();
    var s1 := AfterBoot(minActive);
    var s2 := Listed(s1, 0, AllAssumed);
    var s3 := DeployedOne(s2, 0, "f", AllAssumed);
    assert s3.callers[0].pc == Deploying(map[], 0);
    s := RecordedUp(s3, 0, AllAssumed);
    assert s.nodes == Table(s.nodes[W]);
  }

  lemma StartIsBlank(minActive: int)
    ensures BlankStart(Start(Sleeping, true, minActive))
  {
  }

  /**
   All the hypotheses can hold together from a start they allow: a worker recorded asleep but left powered is
   switched off by startup, a function is stored, a request wakes the worker, and it ends up active, powered
   and holding exactly the store.
   */
  lemma HypothesesAreMet() returns (s: Cluster)
    ensures BlankStart(Start(Sleeping, true, 1)) && Reached(s, AllAssumed) && s.startup.Finished? && s.updaters == map[]
    ensures W in s.nodes && s.nodes[W].status == Active && On(s, W) && s.store != map[] && W in s.held
            && s.held[W] == s.store
  {
    hide Reached, AllAssumed;
    s := AfterWake(1);
    StartIsBlank(1);
    hide BlankStart, Start;
    assert "f" in s.store;
  }
}
