/** Runs in which an active worker ends up without a function of the store because one hypothesis fails. */
module DeployGaps {
  import opened Types
  import opened RegistrySpec
  import opened Protocol
  import opened Floor
  import opened PowerState
  import opened Deployment
  import opened ColdBoot
  import opened Runs
  import opened Witness

  const ADDED := Change("g", Some(DEF))

  /** What goes wrong: nothing is under way any more, and the active worker lacks a function. */
  ghost predicate Lacks(s: Cluster, name: string)
  {
    && s.updaters == map[] && s.startup.Finished? && W in s.nodes && s.nodes[W].status == Active
    && !MidDeactivation(s.ctl, W) && name in s.store && W in s.held && name !in s.held[W]
  }

  /** The hypotheses no run here gives up. */
  ghost predicate Common(s: Cluster, e: Event)
  {
    && Regular(s, e) && OnePerName(s, e) && HealthyMeansPowered(s, e) && EnforceFirst(s, e) && FreshRecovery(s, e)
    && FailedDeployPowersOff(s, e) && PushSparesOthers(s, e)
  }

  // ---------- an update inside a deploy window ----------

  /** What the deployment results assume, except that updates keep clear of the deploy windows. */
  ghost predicate AllButOverlap(s: Cluster, e: Event)
  {
    Common(s, e) && PushReachesActive(s, e) && NoShortcut(s, e)
  }

  lemma AssumedWithoutOverlap()
    ensures Weaker(AllButOverlap)
  {
    hide Enabled, CleanWrites, HealthyMeansPowered, EnforceFirst, NoPendingEntry;
  }

  lemma FineBeside(s: Cluster, e: Event)
    requires s.startup.Finished?
    requires || (EnabledRest(s, e) && (e.BroadcastLists? || e.UpdateEnds? || (e.UpdateStores? && s.updaters == map[])))
             || (EnabledCaller(s, e) && (e.DeployReturns? || e.DeployEnds? || e.Record?))
    ensures AllButOverlap(s, e)
  {
    hide IsSnapshot;
  }

  lemma EndedBeside(s: Cluster) returns (s': Cluster)
    requires Reached(s, AllButOverlap) && s.startup.Finished? && s.updaters == map[1 := Pushing(ADDED, {})]
    ensures Reached(s', AllButOverlap) && s' == s.(updaters := map[])
  {
    hide Reached, AllButOverlap, EnabledCaller, EnabledCtl;
    FineBeside(s, UpdateEnds(1));
    s' := EndAlong(s, 1, AllButOverlap);
    assert s'.updaters == map[];
  }

  /** A whole update, listing nobody because the worker is still waking. */
  lemma UpdatedBeside(s: Cluster) returns (s': Cluster)
    requires Reached(s, AllButOverlap) && s.startup.Finished? && s.updaters == map[]
    requires W in s.nodes && s.nodes == Table(s.nodes[W]) && s.nodes[W].id == W && !s.nodes[W].local
             && s.nodes[W].status == Waking
    ensures Reached(s', AllButOverlap) && s' == s.(store := s.store["g" := DEF])
  {
    hide Reached, AllButOverlap, IsSnapshot, EnabledCaller, EnabledCtl;
    TwoSnapshot(s.nodes[W]);
    hide Both, Table;
    FineBeside(s, UpdateStores(1, ADDED));
    var s1 := StoreAlong(s, 1, ADDED, AllButOverlap);
    FineBeside(s1, BroadcastLists(1, Both(s.nodes[W])));
    var s2 := ListAlong(s1, 1, s.nodes[W], AllButOverlap);
    assert s2.updaters == map[1 := Pushing(ADDED, {})];
    s' := EndedBeside(s2);
  }

  /** A function stored between a wake's listing and its record reaches the node neither by deploy nor by push. */
  lemma UpdateInWindowIsMissed() returns (s: Cluster)
    ensures Reached(s, AllButOverlap) && Lacks(s, "g")
  {
    hide Reached, AllButOverlap, AllAssumed;
    var s0 := AfterBoot(1);
    AssumedIsWeaker();
    AssumedWithoutOverlap();
    hide Weaker;
    var s1 := Listed(s0, 0, AllAssumed);
    Loosened(s1, AllButOverlap);
    var s2 := UpdatedBeside(s1);
    var s3 := DeployedOne(s2, 0, "f", AllButOverlap);
    assert s3.callers[0].pc == Deploying(map[], 0);
    s := RecordedUp(s3, 0, AllButOverlap);
  }

  // ---------- recovery's healthy shortcut ----------

  /** What the deployment results assume, except that recovery never restores a node as active. */
  ghost predicate AllButShortcut(s: Cluster, e: Event)
  {
    Common(s, e) && NoOverlap(s, e) && PushReachesActive(s, e)
  }

  lemma AssumedWithoutShortcut()
    ensures Weaker(AllButShortcut)
  {
    hide Enabled, CleanWrites, HealthyMeansPowered, EnforceFirst, NoPendingEntry;
  }

  lemma FineCheck(s: Cluster, e: Event)
    requires EnabledCtl(s, e) && s.startup.Finished? && (e.CtlWakes? || e.CtlChecks?)
    requires e.CtlChecks? && e.healthy && s.ctl.todo[0].id in s.nodes ==> On(s, s.ctl.todo[0].id)
    ensures AllButShortcut(s, e)
  {
    hide EnabledCaller, EnabledRest, IsSnapshot, Powered;
  }

  lemma FineAnswer(s: Cluster, n: Node)
    requires s.cfg.enabled && s.startup.Finished? && n.id == W && W in s.nodes && On(s, W)
    ensures AllButShortcut(s.(ctl := Recovering([n])), CtlChecks(true))
  {
    hide AllButShortcut, EnabledCaller, EnabledRest, IsSnapshot, Powered;
    assert [n][0] == n;
    FineCheck(s.(ctl := Recovering([n])), CtlChecks(true));
  }

  lemma FineRecovery(s: Cluster, n: Node)
    requires s.cfg.enabled && s.ctl.Resting? && s.startup.Finished? && s.nodes == Table(n) && n.id == W && On(s, W)
    ensures AllButShortcut(s, CtlWakes(Both(n))) && AllButShortcut(s.(ctl := Recovering(Both(n))), CtlChecks(false))
    ensures AllButShortcut(s.(ctl := Recovering([n])), CtlChecks(true))
  {
    hide AllButShortcut, EnabledCaller, EnabledRest, IsSnapshot, Powered;
    TwoSnapshot(n);
    FineCheck(s, CtlWakes(Both(n)));
    FineCheck(s.(ctl := Recovering(Both(n))), CtlChecks(false));
    FineAnswer(s, n);
  }

  lemma FineRestore(s: Cluster)
    requires s.cfg.enabled && s.ctl.Restoring? && s.startup.Finished? && s.ctl.id in s.nodes
             && s.nodes[s.ctl.id].status == Dead
    ensures AllButShortcut(s, CtlRestores)
  {
    hide EnabledCaller, EnabledRest;
  }

  /** The dead worker answers its health check late and is restored as it is. */
  lemma Restored(s: Cluster, n: Node) returns (s': Cluster)
    requires Reached(s, AllButShortcut) && s.cfg.enabled && s.ctl.Resting? && s.startup.Finished? && s.nodes == Table(n)
    requires n.id == W && n.status == Dead && n.managerAddress != "" && On(s, W)
    ensures Reached(s', AllButShortcut) && W in s'.nodes && s'.nodes[W].status == Active && s'.ctl == Recovering([])
    ensures s'.held == s.held && s'.store == s.store && s'.updaters == s.updaters && s'.startup == s.startup
  {
    hide Reached, AllButShortcut, Powered;
    FineRecovery(s, n);
    var s1 := DecideRecovery(s, n, true, AllButShortcut);
    FineRestore(s1);
    s' := Restore(s1, AllButShortcut);
  }

  /** A node that boots too slowly for its wake is later restored as active with nothing deployed. */
  lemma ShortcutSkipsDeploy() returns (s: Cluster)
    ensures Reached(s, AllButShortcut) && Lacks(s, "f")
  {
    hide Reached, AllButShortcut, AllAssumed;
    var s0 := AfterBoot(1);
    AssumedWithoutShortcut();
    Loosened(s0, AllButShortcut);
    hide Weaker;
    var s1 := Unanswered(s0, 0, AllButShortcut);
    assert s1.nodes == Table(s1.nodes[W]) && On(s1, W);
    s := Restored(s1, s1.nodes[W]);
  }

  // ---------- a push that fails ----------

  /** What the deployment results assume, except that pushes reach the active workers. */
  ghost predicate AllButReaching(s: Cluster, e: Event)
  {
    Common(s, e) && NoOverlap(s, e) && NoShortcut(s, e)
  }

  lemma AssumedWithoutReaching()
    ensures Weaker(AllButReaching)
  {
    hide Enabled, CleanWrites, HealthyMeansPowered, EnforceFirst, NoPendingEntry;
  }

  lemma FineUnreached(s: Cluster, e: Event)
    requires EnabledRest(s, e) && s.startup.Finished? && forall g :: g in s.callers ==> !InWindow(s.callers[g].pc)
    requires e.BroadcastLists? || e.UpdateEnds? || (e.UpdateStores? && s.updaters == map[])
             || (e.PushReturns? && !e.landed)
    ensures AllButReaching(s, e)
  {
    hide IsSnapshot;
  }

  lemma LostMove(s: Cluster, u: Uid, id: NodeId)
    requires u in s.updaters && s.updaters[u].Pushing? && id in s.updaters[u].targets
    ensures Enabled(s, PushReturns(u, id, false))
    ensures Step(s, PushReturns(u, id, false)) ==
            s.(updaters := s.updaters[u := Pushing(s.updaters[u].change, s.updaters[u].targets - {id})])
  {
  }

  /** The one push of the handler fails, which is logged, and the handler ends. */
  lemma LostAndEnded(s: Cluster) returns (s': Cluster)
    requires Reached(s, AllButReaching) && s.startup.Finished? && s.updaters == map[1 := Pushing(ADDED, {W})]
    requires forall g :: g in s.callers ==> !InWindow(s.callers[g].pc)
    ensures Reached(s', AllButReaching) && s' == s.(updaters := map[])
  {
    hide Reached, AllButReaching, Step, Enabled, EnabledCaller, EnabledCtl;
    var e := PushReturns(1, W, false);
    FineUnreached(s, e);
    LostMove(s, 1, W);
    Extend(s, e, AllButReaching);
    var s1 := Step(s, e);
    assert s1.updaters[1].targets == {};
    FineUnreached(s1, UpdateEnds(1));
    s' := EndAlong(s1, 1, AllButReaching);
    assert s'.updaters == map[];
  }

  lemma StoredAndListed(s: Cluster) returns (s': Cluster)
    requires Reached(s, AllButReaching) && s.startup.Finished? && s.updaters == map[]
    requires W in s.nodes && s.nodes == Table(s.nodes[W]) && s.nodes[W].id == W && !s.nodes[W].local
             && s.nodes[W].status == Active
    requires forall g :: g in s.callers ==> !InWindow(s.callers[g].pc)
    ensures Reached(s', AllButReaching)
            && s' == s.(store := s.store["g" := DEF], updaters := map[1 := Pushing(ADDED, {W})])
  {
    hide Reached, AllButReaching, IsSnapshot, EnabledCaller, EnabledCtl;
    TwoSnapshot(s.nodes[W]);
    FineUnreached(s, UpdateStores(1, ADDED));
    var s1 := StoreAlong(s, 1, ADDED, AllButReaching);
    FineUnreached(s1, BroadcastLists(1, Both(s.nodes[W])));
    s' := ListAlong(s1, 1, s.nodes[W], AllButReaching);
    assert s'.updaters == map[1 := s'.updaters[1]];
  }

  /** A push that fails is not repeated: the worker stays active without the function. */
  lemma LostPushIsNotRepeated() returns (s: Cluster)
    ensures Reached(s, AllButReaching) && Lacks(s, "g")
  {
    hide Reached, AllButReaching, AllAssumed;
    var s0 := AfterWake(1);
    AssumedWithoutReaching();
    Loosened(s0, AllButReaching);
    var s1 := StoredAndListed(s0);
    s := LostAndEnded(s1);
  }
}
