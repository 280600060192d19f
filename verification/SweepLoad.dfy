/**
 The sweep and the requests: a node is judged idle on a snapshot and switched off later, so it is idle then
 exactly if no request has been counted on it in between.
 */
module SweepLoad {
  import opened Types
  import opened RegistrySpec
  import opened Protocol
  import opened Frames
  import opened SingleFlight
  import opened Runs
  import opened Witness

  // ---------- the exact condition ----------

  /** The load last counted on a node since the sweep listed the nodes, if any has been. */
  function CountedAfter(e: Event, id: NodeId, last: Option<int>): Option<int>
  {
    if e.CtlLists? then None else if e.Serve? && e.id == id then Some(e.load) else last
  }

  ghost function LastCounted(r: Run, id: NodeId, n: nat): Option<int>
    requires IsRun(r) && n < |r.states|
  {
    if n == 0 then None else CountedAfter(r.events[n - 1], id, LastCounted(r, id, n - 1))
  }

  /** A node has the load last counted on it, or else the one these copies show. */
  ghost predicate Told(nodes: Nodes, copies: seq<Node>, id: NodeId, last: Option<int>)
  {
    forall n :: n in copies && n.id == id ==>
      id in nodes && nodes[id].load == if last.Some? then last.value else n.load
  }

  /** What is known of a node's load during a sweep. */
  ghost predicate LoadKnown(nodes: Nodes, c: Ctl, id: NodeId, last: Option<int>)
  {
    Told(nodes, Pending(c), id, last) && (c.CuttingPower? && c.node.id == id && last.None? ==> c.node.load <= 0)
  }

  lemma LoadAfter(s: Cluster, e: Event, id: NodeId)
    requires Enabled(s, e) && id in s.nodes
    ensures id in NodesAfter(s, e)
    ensures NodesAfter(s, e)[id].load == if e.Serve? && e.id == id then e.load else s.nodes[id].load
  {
    hide Entered, StatusWritten, Enabled;
    ServeIsQuiet(s, e);
  }

  lemma ServeIsQuiet(s: Cluster, e: Event)
    requires Enabled(s, e)
    ensures e.Serve? ==> Entered(s, e).None? && StatusWritten(s, e).None? && CtlAfter(s, e) == s.ctl && e.id in s.nodes
  {
    hide IsSnapshot;
  }

  /** The sweep's own moves: its list only gets shorter, and a node about to be switched off is read afresh. */
  lemma ConsiderKnown(s: Cluster, id: NodeId, last: Option<int>)
    requires OwnIds(s.nodes) && LoadKnown(s.nodes, s.ctl, id, last) && s.ctl.Sweeping? && s.ctl.todo != []
    ensures LoadKnown(s.nodes, Consider(s.cfg, s.clock, s.nodes, s.ctl.todo, s.ctl.count), id, last)
  {
    hide ElapsedAtLeast;
    var n, rest := s.ctl.todo[0], s.ctl.todo[1..];
    assert s.ctl.todo == [n] + rest;
    assert n in Pending(s.ctl);
  }

  lemma ListedKnown(nodes: Nodes, snap: seq<Node>, id: NodeId)
    requires IsSnapshot(nodes, snap)
    ensures Told(nodes, snap, id, None)
  {
  }

  /** The controller's own move, on the loads as they were. */
  lemma CtlKnown(s: Cluster, e: Event, id: NodeId, last: Option<int>)
    requires OwnIds(s.nodes) && LoadKnown(s.nodes, s.ctl, id, last) && Enabled(s, e)
    ensures LoadKnown(s.nodes, CtlAfter(s, e), id, if e.CtlLists? then None else last)
  {
    hide Succeeds, Consider, CountServing, Check, OwnIds, IsSnapshot;
    if e.CtlConsiders? {
      ConsiderKnown(s, id, last);
    } else if e.CtlLists? {
      ListedKnown(s.nodes, e.snap, id);
    } else if e.CtlChecks? {
      CheckSweepsNothing(s.cfg, s.clock, s.ctl.todo, e.healthy);
    }
  }

  lemma SameLoad(nodes: Nodes, nodes': Nodes, c: Ctl, id: NodeId, last: Option<int>)
    requires LoadKnown(nodes, c, id, last) && (id in nodes ==> id in nodes' && nodes'[id].load == nodes[id].load)
    ensures LoadKnown(nodes', c, id, last)
  {
  }

  lemma StepKnown(s: Cluster, e: Event, s': Cluster, id: NodeId, last: Option<int>)
    requires OwnIds(s.nodes) && LoadKnown(s.nodes, s.ctl, id, last) && Enabled(s, e)
    requires s'.nodes == NodesAfter(s, e) && s'.ctl == CtlAfter(s, e)
    ensures LoadKnown(s'.nodes, s'.ctl, id, CountedAfter(e, id, last))
  {
    hide Enabled, NodesAfter, CtlAfter, OwnIds, LoadKnown, Entered, StatusWritten;
    CtlKnown(s, e, id, last);
    if id in s.nodes {
      LoadAfter(s, e, id);
    }
    if e.Serve? && e.id == id {
      ServeIsQuiet(s, e);
      Served(s.nodes, s'.nodes, s'.ctl, id, last, e.load);
    } else {
      SameLoad(s.nodes, s'.nodes, s'.ctl, id, CountedAfter(e, id, last));
    }
  }

  lemma Served(nodes: Nodes, nodes': Nodes, c: Ctl, id: NodeId, last: Option<int>, load: int)
    requires LoadKnown(nodes, c, id, last) && id in nodes && id in nodes' && nodes'[id].load == load
    ensures LoadKnown(nodes', c, id, Some(load))
  {
  }

  /** Nodes keep their own ids, and every load is known. */
  lemma {:induction false} KnownHolds(r: Run, id: NodeId, n: nat)
    requires IsRun(r) && n < |r.states|
    ensures OwnIds(r.states[n].nodes) && LoadKnown(r.states[n].nodes, r.states[n].ctl, id, LastCounted(r, id, n))
  {
    if n == 0 {
      RunStart(r);
    } else {
      KnownHolds(r, id, n - 1);
      RunStep(r, n - 1);
      var s, e := r.states[n - 1], r.events[n - 1];
      hide IsRun, Enabled, Step, LoadKnown, NodesAfter, CtlAfter, CountedAfter, SameTopology;
      StepKnown(s, e, r.states[n], id, LastCounted(r, id, n - 1));
      OwnIdsKept(s, e);
    }
  }

  lemma OwnIdsKept(s: Cluster, e: Event)
    requires OwnIds(s.nodes) && Enabled(s, e)
    ensures OwnIds(NodesAfter(s, e))
  {
    TopologyKept(s, e);
    hide Enabled, NodesAfter, SameTopology;
    forall id | id in NodesAfter(s, e) ensures NodesAfter(s, e)[id].id == id {
      SameTopologyAt(s.nodes, NodesAfter(s, e), id);
    }
  }

  /** This event is a power-off of the sweep, of a node on which no request is counted. */
  predicate CutsUnloaded(s: Cluster, e: Event)
  {
    e.CtlPowersOff? && s.ctl.CuttingPower? ==> s.ctl.node.id in s.nodes && s.nodes[s.ctl.node.id].load <= 0
  }

  /** No request is counted by the last count since the sweep listed the nodes, if there has been one. */
  ghost predicate CountedIdle(r: Run, i: nat)
    requires IsRun(r) && i < |r.events|
  {
    var s := r.states[i];
    r.events[i].CtlPowersOff? && s.ctl.CuttingPower? ==>
      var last := LastCounted(r, s.ctl.node.id, i);
      last.Some? ==> last.value <= 0
  }

  /**
   In any run whatever: a power-off of the sweep finds its node without a request exactly if the last count of the
   node's requests since the sweep listed the nodes, if there has been one, was none.
   */
  lemma CutsUnloadedExactly(r: Run, i: nat)
    requires IsRun(r) && i < |r.events|
    ensures CutsUnloaded(r.states[i], r.events[i]) <==> CountedIdle(r, i)
  {
    var s := r.states[i];
    hide IsRun, LastCounted, OwnIds;
    if s.ctl.CuttingPower? {
      KnownHolds(r, s.ctl.node.id, i);
      assert s.ctl.node in Pending(s.ctl);
    }
  }

  // ---------- a condition on the requests ----------

  /** No request is counted on a node that the sweep still has listed as idle. */
  ghost predicate LeavesIdle(s: Cluster, e: Event)
  {
    e.Serve? && e.load > 0 ==> forall n :: n in Pending(s.ctl) && n.id == e.id ==> n.load > 0
  }

  ghost predicate IdleStays(s: Cluster)
  {
    && OwnIds(s.nodes) && (s.ctl.CuttingPower? ==> s.ctl.node.load <= 0)
    && forall n :: n in Pending(s.ctl) && n.load <= 0 ==> n.id in s.nodes && s.nodes[n.id].load <= 0
  }

  lemma ConsiderIdle(s: Cluster)
    requires IdleStays(s) && s.ctl.Sweeping? && s.ctl.todo != []
    ensures var c := Consider(s.cfg, s.clock, s.nodes, s.ctl.todo, s.ctl.count);
            && (c.CuttingPower? ==> c.node.load <= 0)
            && forall n :: n in Pending(c) && n.load <= 0 ==> n.id in s.nodes && s.nodes[n.id].load <= 0
  {
    hide ElapsedAtLeast;
    var n, rest := s.ctl.todo[0], s.ctl.todo[1..];
    assert s.ctl.todo == [n] + rest;
    assert n in Pending(s.ctl);
  }

  lemma CtlIdle(s: Cluster, e: Event)
    requires IdleStays(s) && Enabled(s, e)
    ensures var c := CtlAfter(s, e);
            && (c.CuttingPower? ==> c.node.load <= 0) && (e.Serve? ==> c == s.ctl)
            && forall n :: n in Pending(c) && n.load <= 0 ==> n.id in s.nodes && s.nodes[n.id].load <= 0
  {
    hide Succeeds, Consider, CountServing, Check, OwnIds, IsSnapshot;
    if e.CtlConsiders? {
      ConsiderIdle(s);
    } else if e.CtlChecks? {
      CheckSweepsNothing(s.cfg, s.clock, s.ctl.todo, e.healthy);
    } else if e.CtlLists? {
      ListedIdle(s.nodes, e.snap);
    }
  }

  lemma ListedIdle(nodes: Nodes, snap: seq<Node>)
    requires IsSnapshot(nodes, snap)
    ensures forall n :: n in snap && n.load <= 0 ==> n.id in nodes && nodes[n.id].load <= 0
  {
  }

  lemma StepIdle(s: Cluster, e: Event, s': Cluster)
    requires IdleStays(s) && Enabled(s, e) && LeavesIdle(s, e)
    requires s'.nodes == NodesAfter(s, e) && s'.ctl == CtlAfter(s, e)
    ensures IdleStays(s')
  {
    CtlIdle(s, e);
    OwnIdsKept(s, e);
    hide Enabled, NodesAfter, CtlAfter, OwnIds;
    forall n | n in Pending(s'.ctl) && n.load <= 0 ensures n.id in s'.nodes && s'.nodes[n.id].load <= 0 {
      LoadAfter(s, e, n.id);
    }
  }

  lemma {:induction false} IdleHolds(r: Run, n: nat)
    requires IsRun(r) && n < |r.states|
    requires forall i :: 0 <= i < n ==> LeavesIdle(r.states[i], r.events[i])
    ensures IdleStays(r.states[n])
  {
    if n == 0 {
      RunStart(r);
    } else {
      IdleHolds(r, n - 1);
      RunStep(r, n - 1);
      hide IsRun, Enabled, Step, IdleStays, NodesAfter, CtlAfter, LeavesIdle;
      StepIdle(r.states[n - 1], r.events[n - 1], r.states[n]);
    }
  }

  /** If requests keep off the nodes a sweep has listed as idle, no node is switched off while it serves one. */
  lemma SweepSparesBusy(r: Run, i: nat)
    requires IsRun(r) && i < |r.events|
    requires forall j :: 0 <= j < i ==> LeavesIdle(r.states[j], r.events[j])
    ensures CutsUnloaded(r.states[i], r.events[i])
  {
    var s := r.states[i];
    IdleHolds(r, i);
    hide IsRun, OwnIds, LeavesIdle;
    if s.ctl.CuttingPower? {
      assert s.ctl.node in Pending(s.ctl);
    }
  }

  // ---------- a busy node switched off ----------

  lemma FineServe(s: Cluster, load: int)
    requires s.startup.Finished? && W in s.nodes
    ensures AllAssumed(s, Serve(W, load, At(s.clock)))
  {
  }

  lemma ServeMove(s: Cluster, load: int)
    requires W in s.nodes
    ensures var e := Serve(W, load, At(s.clock));
            Enabled(s, e) && Step(s, e) == s.(nodes := s.nodes[W := s.nodes[W].(load := load, lastUsed := At(s.clock))])
  {
  }

  lemma Busied(s: Cluster, load: int) returns (s': Cluster)
    requires Reached(s, AllAssumed) && Calm(s)
    ensures Reached(s', AllAssumed) && Calm(s') && s'.nodes[W].load == load && s' == s.(nodes := s'.nodes)
  {
    hide Reached, AllAssumed, Step, Enabled;
    FineServe(s, load);
    ServeMove(s, load);
    Extend(s, Serve(W, load, At(s.clock)), AllAssumed);
    s' := Step(s, Serve(W, load, At(s.clock)));
    assert s'.nodes == Table(s'.nodes[W]);
  }

  /**
   The sweep finds the worker idle and decides to switch it off; a request is counted on it; the power-off goes
   ahead, and the node is off with the request on it. Every hypothesis of the other results holds.
   */
  lemma BusyNodeIsSwitchedOff() returns (s: Cluster, s': Cluster)
    ensures Reached(s, AllAssumed) && Enabled(s, CtlPowersOff(WORKS)) && s' == Step(s, CtlPowersOff(WORKS))
    ensures !CutsUnloaded(s, CtlPowersOff(WORKS)) && Reached(s', AllAssumed)
    ensures W in s.nodes && s.nodes[W].load == 1 && On(s, W) && W in s'.nodes && s'.nodes[W].load == 1 && !On(s', W)
  {
    hide Reached, AllAssumed;
    AssumedIsWeaker();
    hide Weaker;
    var s0 := AfterWake(0);
    var n := s0.nodes[W];
    var s1 := ListedForSweep(s0, n, AllAssumed);
    var s2 := Considered(s1, n, AllAssumed);
    s := Busied(s2, 1);
    CutMove(s);
    s' := Cut(s, n, AllAssumed);
  }
}
