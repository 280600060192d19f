/**
 The always-on arm: with power management disabled nothing that is up ever goes down, and PrewarmAll brings
 everything up.
 */
module Baseline {
  import opened Types
  import opened RegistrySpec
  import opened Protocol
  import opened Frames
  import opened SingleFlight
  import opened Followers
  import opened LeaderNode
  import opened Wake

  /** The controller never runs and nothing is switched off at startup. */
  predicate Quiescent(c: Ctl, t: Startup)
  {
    c.Resting? && !t.Enforcing?
  }

  predicate HasResult(pc: Pc): (r: bool)
  {
    pc.Deleting? || pc.Publishing? || pc.Closing? || pc.Returned?
  }

  /** A goroutine that carries a nil result stands for an active node. */
  predicate OkMeansActive(nodes: Nodes, c: Caller)
  {
    && (HasResult(c.pc) && c.pc.res == Ok && c.node in nodes ==> nodes[c.node].status == Active)
    && (c.pc.Recording? && c.pc.res == Ok ==> c.pc.status == Active)
  }

  ghost predicate AllOkActive(nodes: Nodes, callers: Callers)
  {
    forall g :: g in callers ==> OkMeansActive(nodes, callers[g])
  }

  // ---------- an active node stays active ----------

  lemma QuietStep(s: Cluster, e: Event)
    requires Quiescent(s.ctl, s.startup) && !s.cfg.enabled && Enabled(s, e)
    ensures Quiescent(CtlAfter(s, e), StartupAfter(s, e))
    ensures StatusWritten(s, e).Some? ==> e.Record?
    ensures !RecoverOverWaking(s, e)
    ensures CommandOf(s, e).Some? && !CommandOf(s, e).value.on ==> e.PowerOffReturns?
  {
    hide IsSnapshot;
  }

  lemma StepActiveKept(s: Cluster, e: Event)
    requires Quiescent(s.ctl, s.startup) && !s.cfg.enabled && Inv(s) && Enabled(s, e)
    ensures ActiveKept(s.nodes, NodesAfter(s, e))
  {
    hide InvOf, NodesAfter, IsSnapshot;
    QuietStep(s, e);
    if e.Record? {
      InFlightWaking(s, e.g);
    }
    forall id | id in s.nodes && s.nodes[id].status == Active
      ensures id in NodesAfter(s, e) && NodesAfter(s, e)[id].status == Active
    {
      StatusAfter(s, e, id);
    }
  }

  // ---------- a nil result means the node is active ----------

  lemma EntryOkActive(s: Cluster, id: NodeId)
    ensures OkMeansActive(s.nodes, Entering(s, id))
  {
  }

  /** A released follower carries its leader's result, so it stands for the same node. */
  lemma ReleaseOkActive(s: Cluster, g: Gid)
    requires Honest(s) && AllOkActive(s.nodes, s.callers) && EnabledCaller(s, Release(g))
    ensures var err := s.records[s.callers[g].role.seen.value].err;
            err == Ok && s.callers[g].node in s.nodes ==> s.nodes[s.callers[g].node].status == Active
  {
    var a := s.callers[g].role.seen.value;
    assert SoundRole(s.records, g, s.callers[g]);
    assert SoundRecord(s.records, s.callers, a);
    assert OkMeansActive(s.nodes, s.callers[s.records[a].creator]);
  }

  lemma MoveOkActive(s: Cluster, e: Event)
    requires Inv(s) && Honest(s) && AllOkActive(s.nodes, s.callers) && EnabledCaller(s, e) && !e.Enter?
    ensures var c := s.callers[e.g].(pc := PcAfter(s, e), heard := HeardAfter(s, e));
            OkMeansActive(if e.Record? then SetStatus(s.nodes, c.node, s.callers[e.g].pc.status, s.clock) else s.nodes, c)
  {
    hide Succeeds, HeardAfter, Inv, Honest;
    assert OkMeansActive(s.nodes, s.callers[e.g]);
    hide AllOkActive;
    if e.Release? {
      ReleaseOkActive(s, e.g);
    }
  }

  lemma OkActiveKept(nodes: Nodes, nodes': Nodes, c: Caller)
    requires OkMeansActive(nodes, c) && ActiveKept(nodes, nodes') && nodes'.Keys == nodes.Keys
    ensures OkMeansActive(nodes', c)
  {
  }

  /** The goroutine an event moves: its own SetStatus is the only write, and any other event keeps what is active. */
  lemma MovedOkActive(s: Cluster, e: Event)
    requires Inv(s) && Honest(s) && AllOkActive(s.nodes, s.callers) && Enabled(s, e) && EnabledCaller(s, e) && !e.Enter?
    requires ActiveKept(s.nodes, NodesAfter(s, e)) && NodesAfter(s, e).Keys == s.nodes.Keys
    ensures OkMeansActive(NodesAfter(s, e), s.callers[e.g].(pc := PcAfter(s, e), heard := HeardAfter(s, e)))
  {
    MoveOkActive(s, e);
    hide IsSnapshot, Inv, Honest, AllOkActive, PcAfter, HeardAfter, OkMeansActive, ActiveKept, SetStatus;
    if !e.Record? {
      hide NodesAfter, EnabledCaller;
      OkActiveKept(s.nodes, NodesAfter(s, e), s.callers[e.g].(pc := PcAfter(s, e), heard := HeardAfter(s, e)));
    }
  }

  lemma CallerOkActive(s: Cluster, e: Event, g: Gid)
    requires Inv(s) && Honest(s) && AllOkActive(s.nodes, s.callers) && Enabled(s, e) && g in CallersAfter(s, e)
    requires ActiveKept(s.nodes, NodesAfter(s, e)) && NodesAfter(s, e).Keys == s.nodes.Keys
    ensures OkMeansActive(NodesAfter(s, e), CallersAfter(s, e)[g])
  {
    CallerAfter(s, e, g);
    hide CallersAfter, NodesAfter, Inv, Honest, PcAfter, HeardAfter, Entering, OkMeansActive, ActiveKept;
    hide IsSnapshot, EnabledCtl, EnabledRest;
    if Entered(s, e).Some? && g == e.g {
      EntryOkActive(s, Entered(s, e).value);
      OkActiveKept(s.nodes, NodesAfter(s, e), Entering(s, Entered(s, e).value));
    } else if EnabledCaller(s, e) && g == e.g {
      hide AllOkActive;
      MovedOkActive(s, e);
    } else {
      OkActiveKept(s.nodes, NodesAfter(s, e), s.callers[g]);
    }
  }

  lemma StepAllOkActive(s: Cluster, e: Event)
    requires Quiescent(s.ctl, s.startup) && !s.cfg.enabled && Inv(s) && Honest(s)
    requires AllOkActive(s.nodes, s.callers) && Enabled(s, e)
    ensures AllOkActive(NodesAfter(s, e), CallersAfter(s, e))
  {
    StepActiveKept(s, e);
    TopologyKept(s, e);
    hide CallersAfter, NodesAfter, Enabled, Inv, Honest, OkMeansActive, ActiveKept, SameNode;
    forall g | g in CallersAfter(s, e) ensures OkMeansActive(NodesAfter(s, e), CallersAfter(s, e)[g]) {
      CallerOkActive(s, e, g);
    }
  }

  // ---------- PrewarmAll ----------

  /** Every worker is spawned for or still to come, and each spawned goroutine is that worker's. */
  ghost predicate Covers(nodes: Nodes, todo: seq<Node>, spawned: map<NodeId, Gid>)
  {
    && (forall n :: n in todo ==> CopyOf(nodes, n))
    && forall id :: Remote(nodes, id) ==> id in spawned || exists n :: n in todo && n.id == id
  }

  ghost predicate OwnSpawn(callers: Callers, spawned: map<NodeId, Gid>)
  {
    forall id :: id in spawned ==> spawned[id] in callers && callers[spawned[id]].node == id
  }

  ghost predicate Prewarmed(nodes: Nodes, callers: Callers, t: Startup)
  {
    match t
    case Prewarming(todo, spawned) => Covers(nodes, todo, spawned) && OwnSpawn(callers, spawned)
    case Finished(spawned) => Covers(nodes, [], spawned) && OwnSpawn(callers, spawned)
    case _ => true
  }

  lemma CoversKept(nodes: Nodes, nodes': Nodes, todo: seq<Node>, spawned: map<NodeId, Gid>)
    requires SameTopology(nodes, nodes') && Covers(nodes, todo, spawned)
    ensures Covers(nodes', todo, spawned)
  {
    forall id | Remote(nodes', id) ensures id in spawned || exists n :: n in todo && n.id == id {
      assert Remote(nodes, id);
    }
  }

  lemma SnapshotCovers(nodes: Nodes, snap: seq<Node>)
    requires IsSnapshot(nodes, snap)
    ensures Covers(nodes, snap, map[])
  {
    forall id | Remote(nodes, id) ensures exists n :: n in snap && n.id == id {
      var i :| 0 <= i < |snap| && snap[i].id == id;
      assert snap[i] in snap;
    }
  }

  lemma SpawnCovers(nodes: Nodes, todo: seq<Node>, spawned: map<NodeId, Gid>, g: Gid)
    requires OwnIds(nodes) && todo != [] && Covers(nodes, todo, spawned)
    ensures Covers(nodes, todo[1..], if todo[0].local then spawned else spawned[todo[0].id := g])
  {
    var spawned' := if todo[0].local then spawned else spawned[todo[0].id := g];
    assert todo == [todo[0]] + todo[1..];
    assert CopyOf(nodes, todo[0]);
    forall id | Remote(nodes, id) ensures id in spawned' || exists n :: n in todo[1..] && n.id == id {
      if id !in spawned {
        var n :| n in todo && n.id == id;
        assert n == todo[0] || n in todo[1..];
      }
    }
  }

  /** A goroutine inside ActivateNode stays there, for the same node. */
  lemma CallerStays(s: Cluster, e: Event, g: Gid)
    requires Enabled(s, e) && g in s.callers
    ensures g in CallersAfter(s, e) && CallersAfter(s, e)[g].node == s.callers[g].node
  {
    hide Enabled, EnabledCaller, Entered, PcAfter, HeardAfter, Entering;
    if Entered(s, e).Some? {
      EntryIsFresh(s, e);
    }
  }

  lemma OwnSpawnKept(s: Cluster, e: Event, spawned: map<NodeId, Gid>)
    requires Enabled(s, e) && OwnSpawn(s.callers, spawned)
    ensures OwnSpawn(CallersAfter(s, e), spawned)
  {
    hide CallersAfter, Enabled;
    forall id | id in spawned
      ensures spawned[id] in CallersAfter(s, e) && CallersAfter(s, e)[spawned[id]].node == id
    {
      CallerStays(s, e, spawned[id]);
    }
  }

  lemma SpawnOwned(s: Cluster, g: Gid)
    requires EnabledRest(s, PrewarmSpawns(g)) && OwnSpawn(s.callers, s.startup.spawned)
    ensures var t := StartupAfter(s, PrewarmSpawns(g)); t.Prewarming? && OwnSpawn(CallersAfter(s, PrewarmSpawns(g)), t.spawned)
  {
    OwnSpawnKept(s, PrewarmSpawns(g), s.startup.spawned);
  }

  lemma StepPrewarmed(s: Cluster, e: Event)
    requires Quiescent(s.ctl, s.startup) && !s.cfg.enabled && OwnIds(s.nodes)
    requires Prewarmed(s.nodes, s.callers, s.startup) && Enabled(s, e)
    ensures Prewarmed(s.nodes, CallersAfter(s, e), StartupAfter(s, e))
  {
    hide Covers, OwnSpawn, OwnIds;
    if e.PrewarmLists? {
      SnapshotCovers(s.nodes, e.snap);
      hide IsSnapshot, CallersAfter;
      EmptyOwned(CallersAfter(s, e));
    } else if e.PrewarmSpawns? {
      SpawnCovers(s.nodes, s.startup.todo, s.startup.spawned, e.g);
      SpawnOwned(s, e.g);
      hide CallersAfter;
    } else {
      hide IsSnapshot, CallersAfter;
      if s.startup.Prewarming? {
        OwnSpawnKept(s, e, s.startup.spawned);
      } else if s.startup.Finished? {
        OwnSpawnKept(s, e, s.startup.spawned);
      }
    }
  }

  lemma EmptyOwned(callers: Callers)
    ensures OwnSpawn(callers, map[])
  {
  }

  lemma PrewarmedKept(nodes: Nodes, nodes': Nodes, callers: Callers, t: Startup)
    requires SameTopology(nodes, nodes') && Prewarmed(nodes, callers, t)
    ensures Prewarmed(nodes', callers, t)
  {
    hide SameTopology, Covers, OwnSpawn;
    match t
    case Prewarming(todo, spawned) => CoversKept(nodes, nodes', todo, spawned);
    case Finished(spawned) => CoversKept(nodes, nodes', [], spawned);
    case _ =>
  }

  // ---------- whole runs ----------

  ghost predicate BaselineInv(s: Cluster)
  {
    && !s.cfg.enabled && Quiescent(s.ctl, s.startup) && Inv(s) && Honest(s)
    && AllOkActive(s.nodes, s.callers) && Prewarmed(s.nodes, s.callers, s.startup)
  }

  lemma {:induction false} BaselineHolds(r: Run, n: nat)
    requires IsRun(r) && n < |r.states| && !r.states[0].cfg.enabled
    ensures BaselineInv(r.states[n])
  {
    if n == 0 {
      InitKeeps(r.states[0]);
    } else {
      BaselineHolds(r, n - 1);
      RunStep(r, n - 1);
      BaselineStep(r.states[n - 1], r.events[n - 1], r.states[n]);
    }
  }

  lemma BaselineStep(s: Cluster, e: Event, s': Cluster)
    requires BaselineInv(s) && Enabled(s, e) && s'.cfg == s.cfg
    requires s'.nodes == NodesAfter(s, e) && s'.callers == CallersAfter(s, e) && s'.ctl == CtlAfter(s, e)
    requires s'.startup == StartupAfter(s, e) && s'.records == RecordsAfter(s, e) && s'.table == TableAfter(s, e)
    ensures BaselineInv(s')
  {
    hide Enabled, NodesAfter, CallersAfter, CtlAfter, StartupAfter, RecordsAfter, TableAfter;
    hide AllOkActive, Prewarmed, HonestOf, Quiescent, SameTopology, RecoverOverWaking, OwnIds, SoundCallers, OneWaker;
    hide SweepFresh;
    QuietStep(s, e);
    StepKeeps(s, e);
    StepHonest(s, e);
    StepAllOkActive(s, e);
    StepPrewarmed(s, e);
    TopologyKept(s, e);
    PrewarmedKept(s.nodes, s'.nodes, s'.callers, s'.startup);
  }

  /** A node that is active once is active ever after. */
  lemma {:induction false} ActiveForever(r: Run, i: nat, j: nat, id: NodeId)
    requires IsRun(r) && i <= j < |r.states| && !r.states[0].cfg.enabled
    requires id in r.states[i].nodes && r.states[i].nodes[id].status == Active
    ensures id in r.states[j].nodes && r.states[j].nodes[id].status == Active
  {
    hide IsRun, Enabled, NodesAfter, Inv, Honest, AllOkActive, Prewarmed, Quiescent;
    if i < j {
      ActiveForever(r, i, j - 1, id);
      RunStep(r, j - 1);
      BaselineHolds(r, j - 1);
      StepActiveKept(r.states[j - 1], r.events[j - 1]);
    }
  }

  /** The only power-offs are those of wakes in which at least one function failed to deploy. */
  lemma OnlyFailedDeploysPowerOff(r: Run, n: nat)
    requires IsRun(r) && n < |r.events| && !r.states[0].cfg.enabled
    ensures Enabled(r.states[n], r.events[n])
    ensures CommandOf(r.states[n], r.events[n]).Some? && !CommandOf(r.states[n], r.events[n]).value.on ==>
              var s, e := r.states[n], r.events[n];
              && e.PowerOffReturns? && e.g in s.callers
              && exists name :: name in s.callers[e.g].heard.deployed && !s.callers[e.g].heard.deployed[name]
  {
    BaselineHolds(r, n);
    RunStep(r, n);
    AllFitHolds(r, n);
    var s, e := r.states[n], r.events[n];
    hide IsRun, Inv, AllOkActive, Prewarmed, IsSnapshot;
    QuietStep(s, e);
    if CommandOf(s, e).Some? && !CommandOf(s, e).value.on {
      var c := s.callers[e.g];
      assert SoundRole(s.records, e.g, c);
      assert Failures(c.heard.deployed) > 0;
      SomeFailure(c.heard.deployed);
    }
  }

  lemma SomeFailure(deployed: map<string, bool>)
    requires Failures(deployed) > 0
    ensures exists name :: name in deployed && !deployed[name]
  {
    var bad := set name | name in deployed && !deployed[name];
    var name :| name in bad;
  }

  /** If every wake PrewarmAll waited for returned nil, every worker is active when it returns and ever after. */
  lemma PrewarmBringsAllUp(r: Run, i: nat, j: nat, id: NodeId)
    requires IsRun(r) && i <= j < |r.states| && !r.states[0].cfg.enabled
    requires r.states[i].startup.Finished? && Remote(r.states[i].nodes, id)
    requires forall k :: k in r.states[i].startup.spawned && r.states[i].startup.spawned[k] in r.states[i].callers ==>
               r.states[i].callers[r.states[i].startup.spawned[k]].pc == Returned(Ok)
    ensures id in r.states[j].nodes && r.states[j].nodes[id].status == Active
  {
    BaselineHolds(r, i);
    var s := r.states[i];
    hide IsRun, Inv, Honest, Quiescent;
    assert id in s.startup.spawned;
    assert OkMeansActive(s.nodes, s.callers[s.startup.spawned[id]]);
    ActiveForever(r, i, j, id);
  }
}
