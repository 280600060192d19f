/** A run in which a wake does not start from nothing because one power-off fails, and what that leaves behind. */
module ColdGaps {
  import opened Types
  import opened Relay
  import opened RegistrySpec
  import opened Protocol
  import opened Floor
  import opened PowerState
  import opened Deployment
  import opened ColdBoot
  import opened Runs
  import opened Witness

  /** What the deployment results assume, except that the power-off after a failed deploy works. */
  ghost predicate AllButPoweringOff(s: Cluster, e: Event)
  {
    && UpdateAssumed(s, e) && HealthyMeansPowered(s, e) && EnforceFirst(s, e) && FreshRecovery(s, e)
    && NoShortcut(s, e) && PushSparesOthers(s, e) && NoPendingEntry(s, e)
  }

  lemma AssumedWithoutPoweringOff()
    ensures Weaker(AllButPoweringOff)
  {
    hide UpdateAssumed, HealthyMeansPowered, EnforceFirst, FreshRecovery, NoPendingEntry;
  }

  const ADDED := Change("g", Some(DEF))
  const REMOVED := Change("f", None)

  /** The relay refuses a write and stays as it is, with the worker's outlet closed. */
  const REFUSED := Io(true, Failed(Channels(true, false)))

  lemma FineRefusal(s: Cluster, g: Gid)
    requires EnabledCaller(s, PowerOffReturns(g, REFUSED)) && s.startup.Finished? && s.relays == LIT
    requires s.nodes[s.callers[g].node].relayUid == "r"
    ensures AllButPoweringOff(s, PowerOffReturns(g, REFUSED))
  {
    hide EnabledCtl, EnabledRest;
  }

  lemma Refused(n: Node)
    requires n.relayUid == "r" && n.channel == 0
    ensures Issue(LIT, Switching(n, false, REFUSED)) == (LIT, false)
  {
    assert LIT.hw["r" := Channels(true, false)] == LIT.hw && LIT.shadow["r" := Channels(true, false)] == LIT.shadow;
  }

  /** One of the two deploys fails. */
  lemma HalfDeployed(s: Cluster) returns (s': Cluster)
    requires Reached(s, AllButPoweringOff) && Calm(s) && s.held[W] == map[]
    requires 0 in s.callers && s.callers[0].pc == Deploying(map["f" := DEF, "g" := DEF], 0) && s.callers[0].node == W
    ensures Reached(s', AllButPoweringOff) && s' == s.(callers := s'.callers, held := s.held[W := map["f" := DEF]])
    ensures s'.callers.Keys == s.callers.Keys && s'.callers[0].pc == PoweringOff(1) && s'.callers[0].node == W
  {
    hide Reached, AllButPoweringOff, EnabledCtl, EnabledRest;
    AssumedWithoutPoweringOff();
    hide Weaker;
    var s1 := DeployedOne(s, 0, "f", AllButPoweringOff);
    FineCaller(s1, DeployReturns(0, "g", false, false), AllButPoweringOff);
    var s2 := Own(s1, DeployReturns(0, "g", false, false), AllButPoweringOff);
    assert s2.callers[0].pc == Deploying(map[], 1);
    FineCaller(s2, DeployEnds(0), AllButPoweringOff);
    s' := Own(s2, DeployEnds(0), AllButPoweringOff);
  }

  /** The power-off fails cleanly, and the node is recorded dead with what it has been given. */
  lemma StuckRecorded(s: Cluster) returns (s': Cluster)
    requires Reached(s, AllButPoweringOff) && Calm(s) && s.relays == LIT && 0 in s.callers && s.callers[0].node == W
    requires s.callers[0].pc == PoweringOff(1)
    ensures Reached(s', AllButPoweringOff) && s'.callers.Keys == s.callers.Keys && s'.callers[0].pc.Deleting?
    ensures s' == s.(nodes := SetStatus(s.nodes, W, Dead, s.clock), callers := s'.callers, cooled := s.cooled - {W})
  {
    hide Reached, AllButPoweringOff, EnabledCtl, EnabledRest, SetStatus;
    AssumedWithoutPoweringOff();
    hide Weaker;
    FineRefusal(s, 0);
    Refused(s.nodes[W]);
    Staying(s.nodes, LIT, s.held);
    hide Issue, Boot;
    var s1 := Power(s, PowerOffReturns(0, REFUSED), AllButPoweringOff);
    FineCaller(s1, Record(0), AllButPoweringOff);
    s' := Final(s1, 0, AllButPoweringOff);
  }

  /** A wake whose node keeps one function of two, powered and dead. */
  lemma StuckOnOne() returns (s: Cluster)
    ensures Reached(s, AllButPoweringOff) && Calm(s) && s.nodes[W].status == Dead && s.nodes[W].deadSince == At(s.clock)
    ensures s.relays == LIT && s.held[W] == map["f" := DEF] && s.store == map["f" := DEF, "g" := DEF]
    ensures s.updaters == map[] && NobodyDeploys(s.callers) && s.callers.Keys == {0} && s.ctl.Resting?
    ensures s.cfg.deadRetry == 0
  {
    hide Reached, AllButPoweringOff, AllAssumed;
    AssumedWithoutPoweringOff();
    var s0 := AfterBoot(1);
    Loosened(s0, AllButPoweringOff);
    hide Weaker;
    var s1 := UpdatedAside(s0, 1, ADDED, s0.nodes[W], AllButPoweringOff);
    var s2 := Listed(s1, 0, AllButPoweringOff);
    assert s2.callers[0].pc == Deploying(map["f" := DEF, "g" := DEF], 0);
    var s3 := HalfDeployed(s2);
    s := StuckRecorded(s3);
    assert s.nodes == Table(s.nodes[W]);
  }

  /** "f" is removed while the node is dead, and the cooldown puts the node back to sleep. */
  lemma RemovedAndCooled(s: Cluster) returns (s': Cluster)
    requires Reached(s, AllButPoweringOff) && Calm(s) && s.nodes[W].status == Dead
             && s.nodes[W].deadSince == At(s.clock)
    requires s.store == map["f" := DEF, "g" := DEF] && s.updaters == map[] && NobodyDeploys(s.callers) && s.ctl.Resting?
    requires s.cfg.deadRetry == 0
    ensures Reached(s', AllButPoweringOff) && Calm(s') && s'.nodes[W].status == Sleeping && s'.store == map["g" := DEF]
    ensures s'.relays == s.relays && s'.held == s.held && s'.updaters == map[] && s'.callers == s.callers
    ensures s'.ctl == Recovering([])
  {
    hide Reached, AllButPoweringOff;
    AssumedWithoutPoweringOff();
    hide Weaker;
    var s1 := UpdatedAside(s, 2, REMOVED, s.nodes[W], AllButPoweringOff);
    assert s1.store == map["g" := DEF];
    s' := CooledDown(s1, s1.nodes[W], AllButPoweringOff);
    assert s'.nodes == Table(s'.nodes[W]);
  }

  /** The next wake finds the node already on, so it keeps what it has, and gets the rest. */
  lemma WokenWarm(s: Cluster) returns (s': Cluster)
    requires Reached(s, AllButPoweringOff) && Calm(s) && s.nodes[W].status == Sleeping && s.relays == LIT
    requires s.store == map["g" := DEF] && s.updaters == map[] && 1 !in s.callers
    ensures Reached(s', AllButPoweringOff) && s'.startup.Finished? && s'.updaters == map[] && s'.store == s.store
    ensures W in s'.nodes && s'.nodes[W].status == Active && s'.ctl == s.ctl
    ensures W in s'.held && s'.held[W] == s.held[W]["g" := DEF]
  {
    hide Reached, AllButPoweringOff;
    AssumedWithoutPoweringOff();
    hide Weaker;
    assert LIT.hw["r"] != OFF.hw["r"];
    var s1 := Booted(s, 1, AllButPoweringOff);
    var s2 := Listed(s1, 1, AllButPoweringOff);
    var s3 := DeployedOne(s2, 1, "g", AllButPoweringOff);
    assert s3.callers[1].pc == Deploying(map[], 0);
    s' := RecordedUp(s3, 1, AllButPoweringOff);
  }

  /**
   A node that could not be switched off after a failed deploy keeps what had been deployed. The function is
   removed while the node is dead, the cooldown puts the node back to sleep, and the next wake, finding it on,
   clears nothing: the node ends up active with a function the store does not have.
   */
  lemma FailedPowerOffLeavesStale() returns (s: Cluster)
    ensures Reached(s, AllButPoweringOff) && s.updaters == map[] && s.startup.Finished?
    ensures W in s.nodes && s.nodes[W].status == Active && !MidDeactivation(s.ctl, W)
    ensures "f" !in s.store && W in s.held && "f" in s.held[W]
  {
    hide Reached, AllButPoweringOff, Calm;
    var s0 := StuckOnOne();
    var s1 := RemovedAndCooled(s0);
    s := WokenWarm(s1);
  }
}
