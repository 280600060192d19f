/**
 Concrete runs showing why the hypotheses are there: each is a run of the control plane as coded in which
 a guarantee fails because one hypothesis about the interleaving does.
 */
module Gaps {
  import opened Types
  import opened Relay
  import opened RegistrySpec
  import opened Protocol
  import opened Frames
  import opened Floor
  import opened PowerState
  import opened Runs
  import opened Witness
  import opened SingleFlight
  import Pacing

  // ---------- recovery over a wake ----------

  /**
   Single flight: a recovery write over a waking node lets a second goroutine power the node on during the first
   one's wake.
   */
  lemma RecoveryBreaksSingleFlight() returns (s: Cluster)
    ensures Reached(s, ANYTHING)
    ensures 0 in s.callers && 1 in s.callers && s.callers[0].node == s.callers[1].node == W
    ensures s.callers[0].pc.PoweringOn? && s.callers[1].pc.PoweringOn?
  {
    hide Reached;
    StartIsInit(Dead, false, 1);
    Begin(Start(Dead, false, 1), ANYTHING);
    s := DecideRecovery(Start(Dead, false, 1), Worker(Dead), false, ANYTHING);
    s := Lead(s, 0, ANYTHING);
    s := Restore(s, ANYTHING);
    s := Lead(s, 1, ANYTHING);
  }

  // ---------- the late delete ----------

  /** A wake that fails at once: the leader has recorded the node dead and not yet deleted its record. */
  lemma FailedWake(s: Cluster, g: Gid, ok: (Cluster, Event) -> bool) returns (s': Cluster)
    requires Reached(s, ok) && g !in s.callers && MustWake(s.nodes, W) && OwnIds(s.nodes)
    requires Resolve(s.nodes[W].relayUid, s.relays.defaultUid) !in s.relays.shadow
    requires forall t: Cluster, e: Event ::
               t.clock == s.clock && t.cfg == s.cfg && (e.Enter? || e.PowerOnReturns? || e.Record?) ==> ok(t, e)
    ensures Reached(s', ok) && g in s'.callers && s'.callers == s.callers[g := s'.callers[g]]
    ensures s'.callers[g].pc == Deleting(PowerOnFailed) && s'.callers[g].node == W
            && s'.callers[g].heard.on == Some(false)
    ensures s'.nodes == SetStatus(BeginWake(s.nodes, W), W, Dead, s.clock) && s'.table == s.table[W := |s.records|]
    ensures s'.cfg == s.cfg && s'.relays == s.relays && s'.ctl == s.ctl && s'.clock == s.clock
  {
    hide Reached;
    var s1 := Lead(s, g, ok);
    var s2 := Power(s1, PowerOnReturns(g, NO_READ), ok);
    s' := Final(s2, g, ok);
  }

  /**
   A caller that arrives between a leader's final SetStatus and its delete starts a wake of its own; the
   delete then removes that wake's record, and the next caller finds a waking node without one and crashes.
   */
  lemma LateDeleteCrashes() returns (s: Cluster)
    ensures Reached(s, ANYTHING) && 2 in s.callers && s.callers[2].pc == Crashed
  {
    hide Reached;
    StartIsInit(Sleeping, false, 1);
    Begin(Start(Sleeping, false, 1), ANYTHING);
    var s3 := FailedWake(Start(Sleeping, false, 1), 0, ANYTHING);
    var s4 := Lead(s3, 1, ANYTHING);
    assert s4.nodes[W].status == Waking && s4.callers[0].pc.Deleting?;
    s := DeleteThenCrash(s4);
  }

  lemma DeleteThenCrash(s: Cluster) returns (s': Cluster)
    requires Reached(s, ANYTHING) && W in s.nodes && s.nodes[W].status == Waking && 2 !in s.callers
    requires 0 in s.callers && s.callers[0].pc.Deleting? && s.callers[0].node == W
    ensures Reached(s', ANYTHING) && 2 in s'.callers && s'.callers[2].pc == Crashed
  {
    hide Reached, Step, Enabled;
    DeleteMove(s, 0);
    Extend(s, Delete(0), ANYTHING);
    var s1 := Step(s, Delete(0));
    FollowMove(s1, 2, W);
    Extend(s1, Enter(2, W), ANYTHING);
    var s2 := Step(s1, Enter(2, W));
    s' := Own(s2, Crash(2), ANYTHING);
  }

  // ---------- a stale pick of a dead node ----------

  /** What the pacing result assumes of an event, except that nobody enters the dead worker; and no time passes. */
  predicate AtOnce(s: Cluster, e: Event)
  {
    Pacing.Silent(s, e, W) && !RecoverOverWaking(s, e) && s.clock == 0 && s.cfg.deadRetry == 10
  }

  lemma HastyStart() returns (s: Cluster)
    ensures Reached(s, AtOnce) && s == Start(Sleeping, false, 1).(cfg := Config(true, 0, 1, 10, 1))
  {
    s := Start(Sleeping, false, 1).(cfg := Config(true, 0, 1, 10, 1));
    StartIsInit(Sleeping, false, 1);
    Begin(s, AtOnce);
  }

  /**
   A caller that picked the worker before it died wakes it again at once: two PowerOn calls of a silent worker have
   returned while the clock stood still, with a cooldown of ten between retries.
   */
  lemma StalePickRetriesAtOnce() returns (s: Cluster)
    ensures Reached(s, AtOnce) && s.clock == 0 && s.cfg.deadRetry == 10
    ensures 0 in s.callers && s.callers[0].node == W && s.callers[0].heard.on == Some(false)
    ensures 1 in s.callers && s.callers[1].node == W && s.callers[1].heard.on == Some(false)
  {
    hide Reached;
    var s0 := HastyStart();
    var s1 := FailedWake(s0, 0, AtOnce);
    assert s1.nodes[W].status == Dead;
    s := FailedWake(s1, 1, AtOnce);
  }

  // ---------- the cooldown branch ----------

  /** A wake that succeeds with nothing to deploy. */
  lemma GoodWake(s: Cluster, g: Gid) returns (s': Cluster)
    requires Reached(s, ANYTHING) && g !in s.callers && MustWake(s.nodes, W) && s.store == map[] && s.cfg.attempts > 0
    requires s.nodes[W].relayUid == "r" && s.nodes[W].channel == 0 && "r" in s.relays.hw
    ensures Reached(s', ANYTHING) && s'.nodes == SetStatus(BeginWake(s.nodes, W), W, Active, s.clock)
    ensures s'.cfg == s.cfg && s'.ctl == s.ctl && s'.clock == s.clock
  {
    hide Reached, Boot, EnabledCtl, EnabledRest;
    var s1 := Lead(s, g, ANYTHING);
    var s2 := Power(s1, PowerOnReturns(g, WORKS), ANYTHING);
    assert s2.callers[g].pc == Polling(s.cfg.attempts);
    var s3 := Own(s2, Poll(g, true), ANYTHING);
    var s4 := Own(s3, ListFunctions(g), ANYTHING);
    var s5 := Own(s4, DeployEnds(g), ANYTHING);
    s' := Final(s5, g, ANYTHING);
  }

  /**
   The capacity floor: a cooldown write on a node that has become active meanwhile takes the cluster below its
   minimum.
   */
  lemma StaleCooldownBreaksFloor() returns (s: Cluster, s': Cluster)
    ensures Reached(s, ANYTHING) && Enabled(s, CtlRestores) && s' == Step(s, CtlRestores) && Reached(s', ANYTHING)
    ensures Capacity(s.nodes) == 1 == s.cfg.minActive && Capacity(s'.nodes) == 0
  {
    hide Reached;
    StartIsInit(Dead, false, 1);
    Begin(Start(Dead, false, 1), ANYTHING);
    var s2 := DecideRecovery(Start(Dead, false, 1), Worker(Dead), false, ANYTHING);
    s := GoodWake(s2, 0);
    s' := Restore(s, ANYTHING);
    RestoreMove(s);
    hide Step, Enabled;
    assert ServingIds(s.nodes) == {W} && ServingIds(s'.nodes) == {};
  }

  /**
   Recorded and physical state: a wake that gets no answer leaves the relay closed, and the cooldown then records
   the node asleep. The run meets every other hypothesis, and starts with EnforceSleeping done.
   */
  lemma CooldownLeavesPowerOn() returns (s: Cluster)
    ensures Reached(s, AllAssumed) && s.startup.Finished?
    ensures W in s.nodes && s.nodes[W].status == Sleeping && !s.nodes[W].local && On(s, W) && W in s.cooled
  {
    hide Reached, AllAssumed;
    AssumedIsWeaker();
    hide Weaker;
    var s0 := AfterBoot(1);
    var s1 := Unanswered(s0, 0, AllAssumed);
    assert s1.nodes == Table(s1.nodes[W]);
    s := CooledDown(s1, s1.nodes[W], AllAssumed);
  }

  // ---------- dead at the write is not enough ----------

  /**
   Recovery writes only while the node is dead, writes are clean, and only powered nodes answer: the hypotheses as
   one would first state them.
   */
  ghost predicate DeadAtWrite(s: Cluster, e: Event)
  {
    && Enabled(s, e) && CleanWrites(s, e) && HealthyMeansPowered(s, e) && EnforceFirst(s, e)
    && (e.CtlRestores? ==> s.ctl.id in s.nodes && s.nodes[s.ctl.id].status == Dead)
  }

  /**
   Events that are neither relay commands, health checks nor recovery writes meet the hypotheses once startup is
   done.
   */
  lemma Harmless(s: Cluster, e: Event)
    requires EnabledCaller(s, e) && s.startup.Finished?
             && (e.Enter? || e.ListFunctions? || e.DeployReturns? || e.DeployEnds? || e.Record?)
    ensures DeadAtWrite(s, e)
  {
    hide EnabledCtl, EnabledRest;
  }

  lemma PoweredAnswer(s: Cluster, g: Gid)
    requires EnabledCaller(s, Poll(g, true)) && s.startup.Finished? && s.callers[g].node in s.nodes
             && On(s, s.callers[g].node)
    ensures DeadAtWrite(s, Poll(g, true))
  {
    hide EnabledCtl, EnabledRest, Powered;
  }

  /** A command whose write works, or fails without moving the bricklet. */
  lemma CleanCommand(s: Cluster, e: Event)
    requires EnabledCaller(s, e) && s.startup.Finished? && (e.PowerOnReturns? || e.PowerOffReturns?)
    requires e.io.write.Written? || e.io.write == Failed(Channels(false, false))
    requires e.io.write.Failed? ==> forall uid :: uid in s.relays.hw ==> s.relays.hw[uid] == Channels(false, false)
    ensures DeadAtWrite(s, e)
  {
    hide EnabledCtl, EnabledRest;
  }

  lemma DeadRestore(s: Cluster)
    requires s.cfg.enabled && s.ctl.Restoring? && s.startup.Finished? && s.ctl.id in s.nodes
             && s.nodes[s.ctl.id].status == Dead
    ensures DeadAtWrite(s, CtlRestores)
  {
    hide EnabledCaller, EnabledRest;
  }

  lemma AsideIsFine(s: Cluster, e: Event)
    requires EnabledRest(s, e) && Aside(s, e)
             && (e.UpdateStores? ==> s.startup.Finished?) && !e.BroadcastLists? && !e.UpdateEnds?
    ensures DeadAtWrite(s, e)
  {
    hide EnabledCaller, EnabledCtl, IsSnapshot;
  }

  /** EnforceSleeping passes over the leader and over a dead node. */
  lemma StartupPasses(s: Cluster, n: Node) returns (s': Cluster)
    requires Reached(s, DeadAtWrite) && s.cfg.enabled && s.startup.NotStarted? && IsSnapshot(s.nodes, Both(n))
             && n.status != Sleeping
    ensures Reached(s', DeadAtWrite) && s' == s.(startup := Finished(map[]))
  {
    hide Reached, DeadAtWrite, IsSnapshot, EnabledCaller, EnabledCtl;
    AsideIsFine(s, EnforceLists(Both(n)));
    var s1 := Quietly(s, EnforceLists(Both(n)), DeadAtWrite);
    assert Both(n)[0] == Dispatcher() && Both(n)[1..] == [n];
    AsideIsFine(s1, EnforceNext(WORKS));
    var s2 := Quietly(s1, EnforceNext(WORKS), DeadAtWrite);
    s' := StartupEnds(s2, n);
  }

  lemma StartupEnds(s: Cluster, n: Node) returns (s': Cluster)
    requires Reached(s, DeadAtWrite) && s.startup == Enforcing([n]) && n.status != Sleeping
    ensures Reached(s', DeadAtWrite) && s' == s.(startup := Finished(map[]))
  {
    hide Reached, DeadAtWrite, IsSnapshot, EnabledCaller, EnabledCtl;
    assert [n][0] == n && [n][1..] == [];
    AsideIsFine(s, EnforceNext(WORKS));
    var s1 := Quietly(s, EnforceNext(WORKS), DeadAtWrite);
    AsideIsFine(s1, EnforceEnds);
    s' := Quietly(s1, EnforceEnds, DeadAtWrite);
  }

  /** The worker starts dead but powered, startup is over, and one function is known. */
  lemma Prepared() returns (s: Cluster)
    ensures Reached(s, DeadAtWrite)
    ensures s == Start(Dead, true, 1).(startup := Finished(map[]), updaters := map[0 := Stored(CHANGE)], store := map["f" := DEF])
  {
    hide Init, Reached, DeadAtWrite, IsSnapshot, EnabledCaller, EnabledCtl, Start, Worker;
    StartFacts(Dead, true, 1);
    Begin(Start(Dead, true, 1), DeadAtWrite);
    var s1 := StartupPasses(Start(Dead, true, 1), Worker(Dead));
    AsideIsFine(s1, UpdateStores(0, CHANGE));
    s := Quietly(s1, UpdateStores(0, CHANGE), DeadAtWrite);
  }

  lemma RecoveryIsFine(s: Cluster, n: Node)
    requires s.cfg.enabled && s.ctl.Resting? && s.startup.Finished? && IsSnapshot(s.nodes, Both(n)) && n.id in s.nodes
             && On(s, n.id)
    ensures DeadAtWrite(s, CtlWakes(Both(n))) && DeadAtWrite(s.(ctl := Recovering(Both(n))), CtlChecks(false))
    ensures DeadAtWrite(s.(ctl := Recovering([n])), CtlChecks(true))
  {
    hide EnabledCaller, EnabledRest, IsSnapshot, Powered;
    assert [n][0] == n;
  }

  /** The recovery pass finds the node answering and decides to restore it. */
  lemma HealthyDecided() returns (s: Cluster)
    ensures Reached(s, DeadAtWrite)
    ensures s == Start(Dead, true, 1).(startup := Finished(map[]), updaters := map[0 := Stored(CHANGE)], store := map["f" := DEF], ctl := Restoring(W, Active, []))
  {
    hide Reached;
    hide DeadAtWrite, Init, IsSnapshot, Start, Worker, Powered;
    var s0 := Prepared();
    StartFacts(Dead, true, 1);
    RecoveryIsFine(s0, Worker(Dead));
    s := DecideRecovery(s0, Worker(Dead), true, DeadAtWrite);
  }

  /** A leader that has powered the node on, reached it and failed to deploy. */
  lemma WakeFailsToDeploy(s: Cluster) returns (s': Cluster)
    requires Reached(s, DeadAtWrite) && s.startup.Finished? && s.store == map["f" := DEF]
    requires 0 in s.callers && s.callers[0].pc == Polling(1) && s.callers[0].node == W && W in s.nodes && On(s, W)
    ensures Reached(s', DeadAtWrite) && s' == s.(callers := s'.callers) && s'.callers.Keys == s.callers.Keys
    ensures s'.callers[0].pc == PoweringOff(1) && s'.callers[0].node == W
  {
    hide Reached, Powered, DeadAtWrite;
    PoweredAnswer(s, 0);
    var s1 := Own(s, Poll(0, true), DeadAtWrite);
    Harmless(s1, ListFunctions(0));
    var s2 := Own(s1, ListFunctions(0), DeadAtWrite);
    s' := DeployFails(s2);
  }

  lemma DeployFails(s: Cluster) returns (s': Cluster)
    requires Reached(s, DeadAtWrite) && s.startup.Finished?
    requires 0 in s.callers && s.callers[0].pc == Deploying(map["f" := DEF], 0) && s.callers[0].node == W
    ensures Reached(s', DeadAtWrite) && s' == s.(callers := s'.callers) && s'.callers.Keys == s.callers.Keys
    ensures s'.callers[0].pc == PoweringOff(1) && s'.callers[0].node == W
  {
    hide Reached, DeadAtWrite;
    Harmless(s, DeployReturns(0, "f", false, false));
    var s3 := Own(s, DeployReturns(0, "f", false, false), DeadAtWrite);
    assert s3.callers[0].pc == Deploying(map[], 1);
    Harmless(s3, DeployEnds(0));
    s' := Own(s3, DeployEnds(0), DeadAtWrite);
  }

  const STUCK := Io(true, Failed(Channels(false, false)))

  /**
   The recovery pass decides on a powered dead node; a wake powers it off again and another fails to power
   it on; the node is dead once more, so the write goes ahead and records an unpowered node as active.
   */
  lemma DeadAtWriteIsNotEnough() returns (s: Cluster)
    ensures Reached(s, DeadAtWrite)
    ensures W in s.nodes && s.nodes[W].status == Active && !On(s, W) && !MidDeactivation(s.ctl, W)
  {
    hide Reached, Boot, DeadAtWrite;
    var s0 := HealthyDecided();
    Harmless(s0, Enter(0, W));
    var s1 := Lead(s0, 0, DeadAtWrite);
    CleanCommand(s1, PowerOnReturns(0, WORKS));
    var s2 := Power(s1, PowerOnReturns(0, WORKS), DeadAtWrite);
    assert s2.relays == LIT;
    s := FailsOffAndDeadAgain(s2);
  }

  lemma FailsOffAndDeadAgain(s: Cluster) returns (s': Cluster)
    requires Reached(s, DeadAtWrite) && s.startup.Finished?
             && s.store == map["f" := DEF] && s.ctl == Restoring(W, Active, []) && s.cfg.enabled
    requires s.callers.Keys == {0} && s.callers[0].pc == Polling(1) && s.callers[0].node == W
    requires W in s.nodes && s.nodes == Table(s.nodes[W]) && s.nodes[W].relayUid == "r" && s.nodes[W].channel == 0
    requires s.relays == LIT
    ensures Reached(s', DeadAtWrite)
    ensures W in s'.nodes && s'.nodes[W].status == Active && !On(s', W) && !MidDeactivation(s'.ctl, W)
  {
    hide Reached, DeadAtWrite;
    var s1 := WakeFailsToDeploy(s);
    var s2 := WorkerOff(s1);
    s' := FailsAgain(s2);
  }

  lemma WorkerOff(s: Cluster) returns (s': Cluster)
    requires Reached(s, DeadAtWrite) && s.startup.Finished? && s.ctl == Restoring(W, Active, []) && s.cfg.enabled
             && s.callers.Keys == {0}
    requires s.callers[0].pc == PoweringOff(1) && s.callers[0].node == W && W in s.nodes && s.nodes == Table(s.nodes[W])
    requires s.nodes[W].relayUid == "r" && s.nodes[W].channel == 0
    requires s.relays == LIT
    ensures Reached(s', DeadAtWrite) && s'.startup == s.startup && s'.ctl == s.ctl && s'.cfg == s.cfg
            && s'.callers.Keys == {0}
    ensures s'.nodes == SetStatus(s.nodes, W, Sleeping, s.clock)
    ensures s'.relays == OFF
  {
    hide Reached, Boot, DeadAtWrite;
    CleanCommand(s, PowerOffReturns(0, WORKS));
    Switched(LIT, s.nodes[W], false);
    hide Issue;
    var s1 := Power(s, PowerOffReturns(0, WORKS), DeadAtWrite);
    assert s1.callers[0].pc.Recording? && s1.callers[0].pc.status == Sleeping;
    Harmless(s1, Record(0));
    s' := Final(s1, 0, DeadAtWrite);
  }

  lemma FailsAgain(s: Cluster) returns (s': Cluster)
    requires Reached(s, DeadAtWrite) && s.startup.Finished? && s.ctl == Restoring(W, Active, []) && s.cfg.enabled
             && s.callers.Keys == {0}
    requires W in s.nodes && s.nodes == Table(s.nodes[W]) && s.nodes[W].status == Sleeping && s.nodes[W].relayUid == "r"
             && s.nodes[W].channel == 0
    requires s.relays == OFF
    ensures Reached(s', DeadAtWrite)
    ensures W in s'.nodes && s'.nodes[W].status == Active && !On(s', W) && !MidDeactivation(s'.ctl, W)
  {
    hide Reached, Boot, DeadAtWrite;
    Harmless(s, Enter(1, W));
    var s1 := Lead(s, 1, DeadAtWrite);
    CleanCommand(s1, PowerOnReturns(1, STUCK));
    var s2 := Power(s1, PowerOnReturns(1, STUCK), DeadAtWrite);
    assert s2.relays == s.relays && s2.callers[1].pc.Recording?;
    Harmless(s2, Record(1));
    var s3 := Final(s2, 1, DeadAtWrite);
    DeadRestore(s3);
    s' := Restore(s3, DeadAtWrite);
  }
}
