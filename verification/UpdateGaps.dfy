/**
 Runs in which an active worker ends up holding something else than the store because one hypothesis about updates
 fails.
 */
module UpdateGaps {
  import opened Types
  import opened RegistrySpec
  import opened Protocol
  import opened Floor
  import opened PowerState
  import opened Deployment
  import opened ColdBoot
  import opened Runs
  import opened Witness

  // ---------- overlapping updates ----------

  /** What the deployment results assume, except that updates of one function come one at a time. */
  ghost predicate AllButOnePerName(s: Cluster, e: Event)
  {
    && Regular(s, e) && NoOverlap(s, e) && PushReachesActive(s, e) && HealthyMeansPowered(s, e) && EnforceFirst(s, e)
    && FreshRecovery(s, e) && NoShortcut(s, e) && FailedDeployPowersOff(s, e) && PushSparesOthers(s, e)
  }

  /** A function update's own event while no wake is in its deploy window. */
  lemma FineHandler(s: Cluster, e: Event)
    requires EnabledRest(s, e) && Updates(e) && s.startup.Finished?
    requires e.PushReturns? ==> e.landed && e.id in s.nodes && s.nodes[e.id].status == Active
    requires forall g :: g in s.callers ==> !InWindow(s.callers[g].pc)
    ensures AllButOnePerName(s, e)
  {
    hide IsSnapshot;
  }

  const OLDER := FunctionDef("python3", 1, map[], "a")
  const NEWER := FunctionDef("python3", 1, map[], "b")

  /** Nothing under way but update handlers, and an active worker. */
  ghost predicate Serving(s: Cluster)
  {
    && s.startup.Finished? && W in s.nodes && s.nodes == Table(s.nodes[W]) && s.nodes[W].status == Active
    && !s.nodes[W].local
    && s.nodes[W].id == W && W in s.held && s.ctl.Resting? && forall g :: g in s.callers ==> !InWindow(s.callers[g].pc)
  }

  lemma StoreStep(s: Cluster, u: Uid, change: Change) returns (s': Cluster)
    requires Reached(s, AllButOnePerName) && Serving(s) && u !in s.updaters
    ensures Reached(s', AllButOnePerName)
            && s' == s.(updaters := s.updaters[u := Stored(change)], store := Apply(s.store, change))
  {
    hide Reached, AllButOnePerName, Apply;
    FineHandler(s, UpdateStores(u, change));
    s' := StoreAlong(s, u, change, AllButOnePerName);
  }

  lemma ListStep(s: Cluster, u: Uid) returns (s': Cluster)
    requires Reached(s, AllButOnePerName) && Serving(s) && u in s.updaters && s.updaters[u].Stored?
    ensures Reached(s', AllButOnePerName) && s' == s.(updaters := s.updaters[u := Pushing(s.updaters[u].change, {W})])
  {
    hide Reached, AllButOnePerName, IsSnapshot;
    TwoSnapshot(s.nodes[W]);
    FineHandler(s, BroadcastLists(u, Both(s.nodes[W])));
    s' := ListAlong(s, u, s.nodes[W], AllButOnePerName);
  }

  lemma PushAndEnd(s: Cluster, u: Uid) returns (s': Cluster)
    requires Reached(s, AllButOnePerName) && Serving(s) && u in s.updaters && s.updaters[u].Pushing?
             && s.updaters[u].targets == {W}
    ensures Reached(s', AllButOnePerName)
    ensures s' == s.(updaters := s.updaters - {u}, held := s.held[W := Apply(s.held[W], s.updaters[u].change)])
  {
    hide Reached, AllButOnePerName, Apply, EnabledCaller, EnabledCtl;
    FineHandler(s, PushReturns(u, W, true));
    var s1 := Push(s, u, W, AllButOnePerName);
    assert s1.updaters[u].targets == {};
    FineHandler(s1, UpdateEnds(u));
    s' := EndAlong(s1, u, AllButOnePerName);
    assert s'.updaters == s.updaters - {u};
  }

  /** Two handlers store, list and push the same function; the pushes arrive in the opposite order. */
  lemma OverlappingUpdatesDiverge() returns (s: Cluster)
    ensures Reached(s, AllButOnePerName) && s.updaters == map[] && s.startup.Finished?
    ensures W in s.nodes && s.nodes[W].status == Active && !MidDeactivation(s.ctl, W) && W in s.held
            && s.held[W] != s.store
  {
    hide Reached, AllButOnePerName, AllAssumed;
    var s0 := AfterWake(1);
    AssumedWithoutOnePerName();
    Loosened(s0, AllButOnePerName);
    var s1 := StoreStep(s0, 1, Change("f", Some(OLDER)));
    var s2 := StoreStep(s1, 2, Change("f", Some(NEWER)));
    var s3 := ListStep(s2, 1);
    var s4 := ListStep(s3, 2);
    var s5 := PushAndEnd(s4, 2);
    s := PushAndEnd(s5, 1);
    assert s.held[W]["f"] == OLDER && s.store["f"] == NEWER && OLDER.zip[0] != NEWER.zip[0];
  }

  lemma AssumedWithoutOnePerName()
    ensures Weaker(AllButOnePerName)
  {
    hide Enabled, CleanWrites, HealthyMeansPowered, EnforceFirst, NoPendingEntry;
  }

  // ---------- a push into a booting node ----------

  /** What the deployment results assume, except that pushes spare the workers that are not active. */
  ghost predicate AllButSparing(s: Cluster, e: Event)
  {
    && UpdateAssumed(s, e) && HealthyMeansPowered(s, e) && EnforceFirst(s, e) && FreshRecovery(s, e)
    && NoShortcut(s, e) && FailedDeployPowersOff(s, e)
  }

  lemma AssumedWithoutSparing()
    ensures Weaker(AllButSparing)
  {
    hide UpdateAssumed, HealthyMeansPowered, EnforceFirst, FreshRecovery, NoPendingEntry;
  }

  const G_ADDED := Change("g", Some(DEF))
  const G_REMOVED := Change("g", None)

  /** "g" is stored and the active worker listed as a target. */
  lemma PushPending(s: Cluster, ok: (Cluster, Event) -> bool) returns (s': Cluster)
    requires Reached(s, ok) && Weaker(ok) && Calm(s) && NobodyDeploys(s.callers) && s.updaters == map[]
    requires s.nodes[W].status == Active
    ensures Reached(s', ok) && s' == s.(store := s.store["g" := DEF], updaters := map[1 := Pushing(G_ADDED, {W})])
  {
    hide Reached, Weaker, IsSnapshot, EnabledCaller, EnabledCtl;
    TwoSnapshot(s.nodes[W]);
    FineUpdate(s, UpdateStores(1, G_ADDED), ok);
    var s1 := StoreAlong(s, 1, G_ADDED, ok);
    FineUpdate(s1, BroadcastLists(1, Both(s.nodes[W])), ok);
    s' := ListAlong(s1, 1, s.nodes[W], ok);
    assert s'.updaters == map[1 := s'.updaters[1]];
  }

  /** The sweep switches the worker off and records it asleep; what it was to be pushed is still to come. */
  lemma Slept(s: Cluster, n: Node, ok: (Cluster, Event) -> bool) returns (s': Cluster)
    requires Reached(s, ok) && Weaker(ok) && Calm(s) && s.ctl == CuttingPower(n, [], 1) && Plain(n) && s.relays == LIT
    ensures Reached(s', ok)
    ensures s' == s.(nodes := SetStatus(s.nodes, W, Sleeping, s.clock), ctl := Resting, relays := OFF, cooled := s.cooled - {W})
  {
    hide Reached, Weaker, Enabled, Step, SetStatus, EnabledCaller, EnabledRest;
    var s1 := Cut(s, n, ok);
    MarkMove(s1);
    FineCtl(s1, CtlMarks, ok);
    Extend(s1, CtlMarks, ok);
    s' := CtlAlong(Step(s1, CtlMarks), CtlRests, ok);
  }

  lemma MarkMove(s: Cluster)
    requires s.cfg.enabled && s.ctl.MarkingAsleep?
    ensures Enabled(s, CtlMarks)
    ensures Step(s, CtlMarks) ==
            s.(nodes := SetStatus(s.nodes, s.ctl.node.id, Sleeping, s.clock), ctl := Sweeping(s.ctl.todo, s.ctl.count - 1),
               cooled := s.cooled - {s.ctl.node.id})
  {
    hide SetStatus;
  }

  lemma FineIntoBoot(s: Cluster)
    requires EnabledRest(s, PushReturns(1, W, true)) && s.startup.Finished?
    ensures AllButSparing(s, PushReturns(1, W, true))
  {
  }

  /** The push lands on the booting worker, and then the function is removed again. */
  lemma PushedThenRemoved(s: Cluster) returns (s': Cluster)
    requires Reached(s, AllButSparing) && Calm(s) && s.nodes[W].status == Waking && s.held[W] == map[]
    requires s.updaters == map[1 := Pushing(G_ADDED, {W})] && s.store == map["f" := DEF, "g" := DEF]
    requires NobodyDeploys(s.callers)
    ensures Reached(s', AllButSparing)
    ensures s' == s.(updaters := map[], store := map["f" := DEF], held := s.held[W := map["g" := DEF]])
  {
    hide Reached, AllButSparing, EnabledCaller, EnabledCtl;
    AssumedWithoutSparing();
    hide Weaker;
    var s1 := PushedIntoBoot(s);
    s' := UpdatedAside(s1, 2, G_REMOVED, s.nodes[W], AllButSparing);
    assert s'.store == map["f" := DEF];
  }

  lemma PushedIntoBoot(s: Cluster) returns (s': Cluster)
    requires Reached(s, AllButSparing) && s.startup.Finished? && W in s.held && s.held[W] == map[]
    requires s.updaters == map[1 := Pushing(G_ADDED, {W})]
    ensures Reached(s', AllButSparing) && s' == s.(updaters := map[], held := s.held[W := map["g" := DEF]])
  {
    hide Reached, AllButSparing, EnabledCaller, EnabledCtl;
    AssumedWithoutSparing();
    hide Weaker;
    FineIntoBoot(s);
    var s1 := Push(s, 1, W, AllButSparing);
    assert s1.updaters[1].targets == {};
    FineUpdate(s1, UpdateEnds(1), AllButSparing);
    s' := EndAlong(s1, 1, AllButSparing);
    assert s'.updaters == map[];
  }

  /**
   A function is stored and about to be pushed to the active worker; the worker is switched off and woken again
   meanwhile, the push lands while it boots, and the function is removed before the wake lists what to deploy.
   The worker ends up active with a function the store does not have.
   */
  lemma PushIntoBootLeavesStale() returns (s: Cluster)
    ensures Reached(s, AllButSparing) && s.updaters == map[] && s.startup.Finished?
    ensures W in s.nodes && s.nodes[W].status == Active && !MidDeactivation(s.ctl, W) && W in s.held
            && s.held[W] != s.store
  {
    hide Reached, AllButSparing, AllAssumed;
    var s0 := AfterWake(0);
    AssumedWithoutSparing();
    Loosened(s0, AllButSparing);
    hide Weaker;
    var s1 := PushPending(s0, AllButSparing);
    var s2 := ListedForSweep(s1, s1.nodes[W], AllButSparing);
    var s3 := Considered(s2, s1.nodes[W], AllButSparing);
    s := SleptAndWoken(s3, s1.nodes[W]);
  }

  lemma SleptAndWoken(s: Cluster, n: Node) returns (s': Cluster)
    requires Reached(s, AllButSparing) && Calm(s) && s.ctl == CuttingPower(n, [], 1) && n == s.nodes[W]
             && s.relays == LIT
    requires NobodyDeploys(s.callers) && 1 !in s.callers
    requires s.updaters == map[1 := Pushing(G_ADDED, {W})] && s.store == map["f" := DEF, "g" := DEF]
    ensures Reached(s', AllButSparing) && s'.updaters == map[] && s'.startup.Finished?
    ensures W in s'.nodes && s'.nodes[W].status == Active && !MidDeactivation(s'.ctl, W) && W in s'.held
            && s'.held[W] != s'.store
  {
    hide Reached, AllButSparing;
    AssumedWithoutSparing();
    hide Weaker;
    var s1 := Slept(s, n, AllButSparing);
    assert s1.nodes == Table(s1.nodes[W]);
    var s2 := Booted(s1, 1, AllButSparing);
    var s3 := PushedThenRemoved(s2);
    s' := WakesUp(s3);
    assert "g" in s'.held[W] && "g" !in s'.store;
  }

  /** The rest of the wake: "f" is listed and deployed, and the node is recorded active. */
  lemma WakesUp(s: Cluster) returns (s': Cluster)
    requires Reached(s, AllButSparing) && Calm(s) && s.relays == LIT && s.updaters == map[]
             && s.store == map["f" := DEF]
    requires 1 in s.callers && s.callers[1].pc == Polling(1) && s.callers[1].node == W
    ensures Reached(s', AllButSparing) && s'.updaters == map[] && s'.store == s.store && s'.startup == s.startup
            && s'.ctl == s.ctl
    ensures W in s'.nodes && s'.nodes[W].status == Active && W in s'.held && s'.held[W] == s.held[W]["f" := DEF]
  {
    hide Reached, AllButSparing;
    AssumedWithoutSparing();
    hide Weaker;
    var s1 := Listed(s, 1, AllButSparing);
    var s2 := DeployedOne(s1, 1, "f", AllButSparing);
    assert s2.callers[1].pc == Deploying(map[], 0);
    s' := RecordedUp(s2, 1, AllButSparing);
  }
}
