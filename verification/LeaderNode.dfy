/**
 The machine running the control plane is never power-cycled: it stays active, and no relay command is ever aimed
 at it.
 */
module LeaderNode {
  import opened Types
  import opened RegistrySpec
  import opened Protocol
  import opened Frames

  /** A snapshot copy that still describes a node of this topology. */
  predicate CopyOf(nodes: Nodes, n: Node)
  {
    n.id in nodes && SameNode(nodes[n.id], n)
  }

  predicate Remote(nodes: Nodes, id: NodeId)
  {
    id in nodes && !nodes[id].local
  }

  ghost predicate LocalsActive(nodes: Nodes)
  {
    forall id :: id in nodes && nodes[id].local ==> nodes[id].status == Active
  }

  ghost predicate WakesRemote(nodes: Nodes, callers: Callers)
  {
    forall g :: g in callers && InFlight(callers[g].pc) ==> Remote(nodes, callers[g].node)
  }

  ghost predicate DeadRemote(nodes: Nodes, todo: seq<Node>)
  {
    forall n :: n in todo && n.status == Dead ==> Remote(nodes, n.id)
  }

  ghost predicate CtlRemote(nodes: Nodes, c: Ctl)
  {
    match c
    case Recovering(todo) => DeadRemote(nodes, todo)
    case Restoring(id, _, todo) => Remote(nodes, id) && DeadRemote(nodes, todo)
    case CuttingPower(n, _, _) => Remote(nodes, n.id) && CopyOf(nodes, n)
    case MarkingAsleep(n, _, _) => Remote(nodes, n.id)
    case _ => true
  }

  ghost predicate StartupRemote(nodes: Nodes, t: Startup)
  {
    t.Enforcing? ==> forall n :: n in t.todo ==> CopyOf(nodes, n)
  }

  ghost predicate Spared(nodes: Nodes, callers: Callers, c: Ctl, t: Startup)
  {
    && OwnIds(nodes) && LocalsActive(nodes) && WakesRemote(nodes, callers) && CtlRemote(nodes, c)
    && StartupRemote(nodes, t)
  }

  // ---------- one step ----------

  /** A status is only ever written for a worker: by its wake, by recovery, or by the sweep. */
  lemma LocalNotWritten(s: Cluster, e: Event)
    requires WakesRemote(s.nodes, s.callers) && CtlRemote(s.nodes, s.ctl) && Enabled(s, e)
    ensures StatusWritten(s, e).Some? ==> Remote(s.nodes, StatusWritten(s, e).value.id)
  {
    if e.Record? {
      hide CtlRemote, EnabledCtl, EnabledRest;
    } else if e.CtlRestores? || e.CtlMarks? {
      hide WakesRemote, EnabledCaller, EnabledRest, DeadRemote;
    } else {
      hide Enabled;
    }
  }

  lemma StepLocalsActive(s: Cluster, e: Event)
    requires Spared(s.nodes, s.callers, s.ctl, s.startup) && Enabled(s, e)
    ensures LocalsActive(NodesAfter(s, e)) && OwnIds(NodesAfter(s, e))
  {
    forall id | id in NodesAfter(s, e)
      ensures NodesAfter(s, e)[id].local ==> NodesAfter(s, e)[id].status == Active
      ensures NodesAfter(s, e)[id].id == id
    {
      TopologyKept(s, e);
      hide SameTopology, NodesAfter, WakesRemote, CtlRemote, StartupRemote, Enabled, Entered, StatusWritten;
      SameTopologyAt(s.nodes, NodesAfter(s, e), id);
      StatusAfter(s, e, id);
      if s.nodes[id].local {
        LocalNotWritten(s, e);
      }
    }
  }

  lemma EntryWakesRemote(s: Cluster, id: NodeId)
    requires LocalsActive(s.nodes)
    ensures InFlight(Entering(s, id).pc) ==> Remote(s.nodes, Entering(s, id).node)
  {
  }

  lemma NotEntering(s: Cluster, e: Event)
    requires Enabled(s, e) && EnabledCaller(s, e) && Entered(s, e).None?
    ensures !e.Enter?
  {
  }

  lemma StepWakesRemote(s: Cluster, e: Event)
    requires Spared(s.nodes, s.callers, s.ctl, s.startup) && Enabled(s, e)
    ensures WakesRemote(NodesAfter(s, e), CallersAfter(s, e))
  {
    forall g | g in CallersAfter(s, e) && InFlight(CallersAfter(s, e)[g].pc)
      ensures Remote(NodesAfter(s, e), CallersAfter(s, e)[g].node)
    {
      hide NodesAfter, CallersAfter, PcAfter, HeardAfter, Entered, Entering, SameTopology, CtlRemote, StartupRemote;
      hide OwnIds, EnabledCaller, EnabledCtl, EnabledRest;
      TopologyKept(s, e);
      CallerAfter(s, e, g);
      if Entered(s, e).Some? && g == e.g {
        EntryWakesRemote(s, Entered(s, e).value);
      } else if EnabledCaller(s, e) && g == e.g {
        NotEntering(s, e);
        PcMoves(s, e);
      }
      var id := CallersAfter(s, e)[g].node;
      assert Remote(s.nodes, id);
      SameTopologyAt(s.nodes, NodesAfter(s, e), id);
    }
  }

  lemma CtlRemoteKept(nodes: Nodes, nodes': Nodes, c: Ctl)
    requires SameTopology(nodes, nodes') && CtlRemote(nodes, c)
    ensures CtlRemote(nodes', c)
  {
  }

  lemma StepCtlRemote(s: Cluster, e: Event)
    requires Spared(s.nodes, s.callers, s.ctl, s.startup) && Enabled(s, e)
    ensures CtlRemote(s.nodes, CtlAfter(s, e))
  {
    hide Succeeds, StartupRemote, WakesRemote, CountServing, Check, Consider;
    if e.CtlChecks? {
      CheckRemote(s.nodes, s.cfg, s.clock, s.ctl.todo, e.healthy);
    } else if e.CtlConsiders? {
      ConsiderRemote(s.nodes, s.cfg, s.clock, s.ctl.todo, s.ctl.count);
    }
  }

  lemma CheckRemote(nodes: Nodes, cfg: Config, now: int, todo: seq<Node>, healthy: bool)
    requires todo != [] && DeadRemote(nodes, todo)
    ensures CtlRemote(nodes, Check(cfg, now, todo, healthy))
  {
    hide ElapsedAtLeast;
    assert todo[0] in todo;
  }

  lemma ConsiderRemote(nodes: Nodes, cfg: Config, now: int, todo: seq<Node>, count: int)
    requires todo != [] && OwnIds(nodes)
    ensures CtlRemote(nodes, Consider(cfg, now, nodes, todo, count))
  {
    hide MayScaleDown;
  }

  lemma StepStartupRemote(s: Cluster, e: Event)
    requires StartupRemote(s.nodes, s.startup) && Enabled(s, e)
    ensures StartupRemote(s.nodes, StartupAfter(s, e))
  {
  }

  lemma StartupRemoteKept(nodes: Nodes, nodes': Nodes, t: Startup)
    requires SameTopology(nodes, nodes') && StartupRemote(nodes, t)
    ensures StartupRemote(nodes', t)
  {
  }

  lemma StepSpared(s: Cluster, e: Event)
    requires Spared(s.nodes, s.callers, s.ctl, s.startup) && Enabled(s, e)
    ensures Spared(NodesAfter(s, e), CallersAfter(s, e), CtlAfter(s, e), StartupAfter(s, e))
  {
    hide Enabled, NodesAfter, CallersAfter, CtlAfter, StartupAfter, LocalsActive, WakesRemote, CtlRemote, StartupRemote;
    hide OwnIds, SameTopology;
    TopologyKept(s, e);
    StepLocalsActive(s, e);
    StepWakesRemote(s, e);
    StepCtlRemote(s, e);
    StepStartupRemote(s, e);
    CtlRemoteKept(s.nodes, NodesAfter(s, e), CtlAfter(s, e));
    StartupRemoteKept(s.nodes, NodesAfter(s, e), StartupAfter(s, e));
  }

  /** A relay command carries the relay and channel of a node that is not local. */
  predicate AimedAtWorker(nodes: Nodes, w: Switching)
  {
    Remote(nodes, w.node.id) && nodes[w.node.id].relayUid == w.node.relayUid && nodes[w.node.id].channel == w.node.channel
  }

  lemma CommandsAimed(s: Cluster, e: Event)
    requires Spared(s.nodes, s.callers, s.ctl, s.startup) && Enabled(s, e) && CommandOf(s, e).Some?
    ensures AimedAtWorker(s.nodes, CommandOf(s, e).value)
  {
    hide LocalsActive, DeadRemote, IsSnapshot;
    if e.PowerOnReturns? || e.PowerOffReturns? {
      assert InFlight(s.callers[e.g].pc) && Remote(s.nodes, s.callers[e.g].node);
    } else {
      StartupCommandAimed(s, e);
    }
  }

  lemma StartupCommandAimed(s: Cluster, e: Event)
    requires Spared(s.nodes, s.callers, s.ctl, s.startup) && Enabled(s, e) && CommandOf(s, e).Some?
    requires !e.PowerOnReturns? && !e.PowerOffReturns?
    ensures AimedAtWorker(s.nodes, CommandOf(s, e).value)
  {
    hide IsSnapshot, LocalsActive, DeadRemote, WakesRemote;
    if e.EnforceNext? {
      assert s.startup.todo[0] in s.startup.todo;
    }
  }

  // ---------- whole runs ----------

  lemma {:induction false} SparedHolds(r: Run, n: nat)
    requires IsRun(r) && n < |r.states| && LocalsActive(r.states[0].nodes)
    ensures Spared(r.states[n].nodes, r.states[n].callers, r.states[n].ctl, r.states[n].startup)
  {
    if n > 0 {
      hide *;
      SparedHolds(r, n - 1);
      RunStep(r, n - 1);
      StepSpared(r.states[n - 1], r.events[n - 1]);
    }
  }

  /** In every run whose local node starts active, it stays active and every relay command is some worker's. */
  lemma LeaderNeverPowerCycled(r: Run, n: nat)
    requires IsRun(r) && n < |r.states| && LocalsActive(r.states[0].nodes)
    ensures LocalsActive(r.states[n].nodes)
    ensures n < |r.events| ==>
              && Enabled(r.states[n], r.events[n])
              && (CommandOf(r.states[n], r.events[n]).Some? ==> AimedAtWorker(r.states[0].nodes, CommandOf(r.states[n], r.events[n]).value))
  {
    SparedHolds(r, n);
    if n < |r.events| {
      RunStep(r, n);
      TopologyHolds(r, n);
      hide IsRun, Enabled, CommandOf, LocalsActive, WakesRemote, CtlRemote, StartupRemote;
      if CommandOf(r.states[n], r.events[n]).Some? {
        CommandsAimed(r.states[n], r.events[n]);
        var w := CommandOf(r.states[n], r.events[n]).value;
        assert SameNode(r.states[0].nodes[w.node.id], r.states[n].nodes[w.node.id]);
      }
    }
  }
}
