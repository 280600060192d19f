/** The capacity floor over whole runs: how far the number of serving nodes can be lowered. */
module Floor {
  import opened Types
  import opened RegistrySpec
  import opened Protocol
  import opened Frames
  import opened SingleFlight

  function ServingIds(nodes: Nodes): set<NodeId>
  {
    set id | id in nodes && Serving(nodes[id])
  }

  /** Nodes that can execute functions right now. */
  function Capacity(nodes: Nodes): nat
  {
    |ServingIds(nodes)|
  }

  // ---------- the count the controller takes of a snapshot ----------

  function ServingOf(snap: seq<Node>): set<NodeId>
  {
    set n | n in snap && Serving(n) :: n.id
  }

  lemma {:induction false} CountIsSize(snap: seq<Node>)
    requires DistinctIds(snap)
    ensures |ServingOf(snap)| == CountServing(snap)
  {
    if snap != [] {
      var n, rest := snap[0], snap[1..];
      CountIsSize(rest);
      forall m | m in rest ensures m.id != n.id {
        var i :| 0 <= i < |rest| && rest[i] == m;
        assert snap[i + 1] == m;
      }
      HeadServing(snap);
      hide DistinctIds, Serving, ServingOf;
    }
  }

  lemma HeadServing(snap: seq<Node>)
    requires snap != [] && forall m :: m in snap[1..] ==> m.id != snap[0].id
    ensures ServingOf(snap) == ServingOf(snap[1..]) + (if Serving(snap[0]) then {snap[0].id} else {})
    ensures snap[0].id !in ServingOf(snap[1..])
  {
    assert snap == [snap[0]] + snap[1..];
    hide Serving;
  }

  /** On a fresh snapshot the controller's count is the capacity. */
  lemma CountIsCapacity(nodes: Nodes, snap: seq<Node>)
    requires OwnIds(nodes) && IsSnapshot(nodes, snap)
    ensures CountServing(snap) == Capacity(nodes)
  {
    CountIsSize(snap);
    forall id ensures id in ServingOf(snap) <==> id in ServingIds(nodes) {
      if id in ServingIds(nodes) {
        var i :| 0 <= i < |snap| && snap[i].id == id;
        assert snap[i] in snap && Serving(snap[i]);
      }
    }
    assert ServingOf(snap) == ServingIds(nodes);
  }

  // ---------- the count stays a lower bound ----------

  /** During a sweep the count never exceeds the capacity, and a node is only switched off above the floor. */
  ghost predicate CountOk(cfg: Config, nodes: Nodes, c: Ctl)
  {
    match c
    case Sweeping(_, count) => count <= Capacity(nodes)
    case CuttingPower(_, _, count) => cfg.minActive < count <= Capacity(nodes)
    case MarkingAsleep(_, _, count) => cfg.minActive < count <= Capacity(nodes)
    case _ => true
  }

  /** The cooldown branch of RecoverDead overwrites a node that is serving by now, with no capacity to spare. */
  predicate StaleCooldownAtFloor(s: Cluster, e: Event)
  {
    && e.CtlRestores? && s.ctl.Restoring? && s.ctl.to != Active
    && s.ctl.id in s.nodes && Serving(s.nodes[s.ctl.id]) && Capacity(s.nodes) <= s.cfg.minActive
  }

  /** This event lowers the capacity and leaves it below the floor. */
  predicate DropsBelowFloor(s: Cluster, e: Event)
    requires Enabled(s, e)
  {
    Capacity(NodesAfter(s, e)) < Capacity(s.nodes) && Capacity(NodesAfter(s, e)) < s.cfg.minActive
  }

  lemma SetStatusServing(nodes: Nodes, id: NodeId, status: Status, now: int)
    requires id in nodes
    ensures ServingIds(SetStatus(nodes, id, status, now))
         == (ServingIds(nodes) - {id}) + (if status == Active && !nodes[id].dispatchOnly then {id} else {})
  {
    var nodes' := SetStatus(nodes, id, status, now);
    forall k | k in nodes && k != id ensures nodes'[k] == nodes[k] {}
    assert Serving(nodes'[id]) <==> status == Active && !nodes[id].dispatchOnly;
    hide Serving, SetStatus;
  }

  lemma SetStatusCapacity(nodes: Nodes, id: NodeId, status: Status, now: int)
    requires id in nodes
    ensures Capacity(SetStatus(nodes, id, status, now)) == Capacity(nodes)
            + (if status == Active && !nodes[id].dispatchOnly then 1 else 0) - (if Serving(nodes[id]) then 1 else 0)
  {
    SetStatusServing(nodes, id, status, now);
    assert id in ServingIds(nodes) <==> Serving(nodes[id]);
    hide ServingIds, SetStatus, Serving;
  }

  lemma SameServing(nodes: Nodes, nodes': Nodes)
    requires nodes'.Keys == nodes.Keys && forall id :: id in nodes ==> Serving(nodes'[id]) == Serving(nodes[id])
    ensures Capacity(nodes') == Capacity(nodes)
  {
    assert ServingIds(nodes') == ServingIds(nodes);
  }

  lemma ServingUnmoved(s: Cluster, e: Event)
    requires Enabled(s, e) && StatusWritten(s, e).None?
    ensures NodesAfter(s, e).Keys == s.nodes.Keys
    ensures forall id :: id in s.nodes ==> Serving(NodesAfter(s, e)[id]) == Serving(s.nodes[id])
  {
    hide IsSnapshot;
  }

  /** The capacity moves only with a SetStatus call, and then as that call says. */
  lemma CapacityAfter(s: Cluster, e: Event)
    requires Enabled(s, e)
    ensures StatusWritten(s, e).None? ==> Capacity(NodesAfter(s, e)) == Capacity(s.nodes)
    ensures StatusWritten(s, e).Some? ==>
              NodesAfter(s, e) == SetStatus(s.nodes, StatusWritten(s, e).value.id, StatusWritten(s, e).value.status, s.clock)
  {
    hide Capacity, IsSnapshot;
    if StatusWritten(s, e).None? {
      ServingUnmoved(s, e);
      hide NodesAfter, Enabled;
      SameServing(s.nodes, NodesAfter(s, e));
    }
  }

  /** A leader's final status never lowers the capacity: its node was waking. */
  lemma RecordNeverLowers(s: Cluster, g: Gid)
    requires Inv(s) && EnabledCaller(s, Record(g))
    ensures Capacity(NodesAfter(s, Record(g))) >= Capacity(s.nodes)
  {
    var c := s.callers[g];
    assert SoundCaller(s.nodes, c);
    assert g in Wakers(s.callers, c.node);
    SetStatusCapacity(s.nodes, c.node, c.pc.status, s.clock);
  }

  /** Putting the node under the sweep to sleep costs at most the one the count gives up. */
  lemma MarkCapacity(nodes: Nodes, c: Ctl, now: int)
    requires SweepFresh(nodes, c) && c.MarkingAsleep?
    ensures Capacity(nodes) - 1 <= Capacity(SetStatus(nodes, c.node.id, Sleeping, now)) <= Capacity(nodes)
  {
    assert c.node in Pending(c);
    SetStatusCapacity(nodes, c.node.id, Sleeping, now);
  }

  lemma StepCountOk(s: Cluster, e: Event)
    requires Inv(s) && CountOk(s.cfg, s.nodes, s.ctl) && Enabled(s, e)
    ensures CountOk(s.cfg, NodesAfter(s, e), CtlAfter(s, e))
  {
    hide Capacity, IsSnapshot, CountServing, NodesAfter, OneWaker, SweepFresh, SoundCallers, Succeeds, SetStatus;
    hide ElapsedAtLeast;
    CapacityAfter(s, e);
    if e.Record? {
      RecordNeverLowers(s, e.g);
    } else if e.CtlMarks? {
      MarkCapacity(s.nodes, s.ctl, s.clock);
    } else if e.CtlLists? {
      CountIsCapacity(s.nodes, e.snap);
    }
  }

  /** Exactly one kind of event takes the capacity below the floor. */
  lemma DropsExactlyWhenStale(s: Cluster, e: Event)
    requires Inv(s) && CountOk(s.cfg, s.nodes, s.ctl) && Enabled(s, e)
    ensures DropsBelowFloor(s, e) <==> StaleCooldownAtFloor(s, e)
  {
    CapacityAfter(s, e);
    if e.Record? {
      RecordNeverLowers(s, e.g);
    } else if e.CtlMarks? {
      MarkCapacity(s.nodes, s.ctl, s.clock);
    } else if e.CtlRestores? && s.ctl.id in s.nodes {
      SetStatusCapacity(s.nodes, s.ctl.id, s.ctl.to, s.clock);
    }
    hide Capacity, IsSnapshot, NodesAfter, OneWaker, SweepFresh, SoundCallers;
  }

  // ---------- whole runs ----------

  lemma {:induction false} CountOkHolds(r: Run, n: nat)
    requires IsRun(r) && n < |r.states|
    requires forall i :: 0 <= i < n ==> !RecoverOverWaking(r.states[i], r.events[i])
    ensures r.states[n].cfg == r.states[0].cfg
    ensures CountOk(r.states[n].cfg, r.states[n].nodes, r.states[n].ctl)
  {
    if n > 0 {
      CountOkHolds(r, n - 1);
      InvHolds(r, n - 1);
      RunStep(r, n - 1);
      hide IsRun, Enabled, Inv, RecoverOverWaking, CountOk, NodesAfter, CtlAfter;
      StepCountOk(r.states[n - 1], r.events[n - 1]);
    }
  }

  /**
   Over a whole run in which RecoverDead never writes over a waking node: no event ever takes the
   capacity below the floor, exactly when the cooldown branch never writes over a node that is serving
   while there is no capacity to spare.
   */
  lemma FloorExactly(r: Run)
    requires IsRun(r)
    requires forall i :: 0 <= i < |r.events| ==> !RecoverOverWaking(r.states[i], r.events[i])
    ensures (forall i :: 0 <= i < |r.events| ==> Enabled(r.states[i], r.events[i]) && !DropsBelowFloor(r.states[i], r.events[i]))
       <==> (forall i :: 0 <= i < |r.events| ==> !StaleCooldownAtFloor(r.states[i], r.events[i]))
  {
    forall i | 0 <= i < |r.events|
      ensures Enabled(r.states[i], r.events[i])
      ensures DropsBelowFloor(r.states[i], r.events[i]) <==> StaleCooldownAtFloor(r.states[i], r.events[i])
    {
      RunStep(r, i);
      InvHolds(r, i);
      CountOkHolds(r, i);
      hide IsRun, Enabled, Inv, RecoverOverWaking, CountOk, NodesAfter, DropsBelowFloor, StaleCooldownAtFloor;
      DropsExactlyWhenStale(r.states[i], r.events[i]);
    }
  }

  /** RecoverDead writes only while the node is still dead. */
  predicate FreshRecovery(s: Cluster, e: Event)
  {
    e.CtlRestores? && s.ctl.Restoring? && s.ctl.id in s.nodes ==> s.nodes[s.ctl.id].status == Dead
  }

  lemma MinBelow(a: int, b: int)
    ensures a >= Min(a, b)
  {
  }

  lemma MinTransitive(a: int, b: int, c: int, d: int)
    requires a >= Min(b, d) && b >= Min(c, d)
    ensures a >= Min(c, d)
  {
  }

  lemma FreshIsSafe(s: Cluster, e: Event)
    requires FreshRecovery(s, e)
    ensures !RecoverOverWaking(s, e) && !StaleCooldownAtFloor(s, e)
  {
  }

  lemma FreshStep(s: Cluster, e: Event)
    requires Inv(s) && CountOk(s.cfg, s.nodes, s.ctl) && Enabled(s, e) && FreshRecovery(s, e)
    ensures Capacity(NodesAfter(s, e)) >= Min(Capacity(s.nodes), s.cfg.minActive)
  {
    FreshIsSafe(s, e);
    DropsExactlyWhenStale(s, e);
    hide Capacity, NodesAfter, Enabled, Inv, CountOk, FreshRecovery, StaleCooldownAtFloor;
  }

  lemma FreshRun(r: Run, n: nat)
    requires IsRun(r) && n < |r.states|
    requires forall k :: 0 <= k < n ==> FreshRecovery(r.states[k], r.events[k])
    ensures Inv(r.states[n]) && CountOk(r.states[n].cfg, r.states[n].nodes, r.states[n].ctl)
    ensures r.states[n].cfg == r.states[0].cfg
  {
    forall k | 0 <= k < n ensures !RecoverOverWaking(r.states[k], r.events[k]) {
      FreshIsSafe(r.states[k], r.events[k]);
    }
    hide Inv, CountOk, FreshRecovery, RecoverOverWaking;
    InvHolds(r, n);
    CountOkHolds(r, n);
  }

  /**
   With fresh recovery, capacity once reached is never given up below the floor, however wakes and sweeps
   interleave.
   */
  lemma {:induction false} CapacityKept(r: Run, i: nat, j: nat)
    requires IsRun(r) && i <= j < |r.states|
    requires forall k :: 0 <= k < j ==> FreshRecovery(r.states[k], r.events[k])
    ensures Capacity(r.states[j].nodes) >= Min(Capacity(r.states[i].nodes), r.states[0].cfg.minActive)
  {
    hide *;
    if i < j {
      CapacityKept(r, i, j - 1);
      FreshRun(r, j - 1);
      RunStep(r, j - 1);
      FreshStep(r.states[j - 1], r.events[j - 1]);
      MinTransitive(Capacity(r.states[j].nodes), Capacity(r.states[j - 1].nodes), Capacity(r.states[i].nodes), r.states[0].cfg.minActive);
    } else {
      MinBelow(Capacity(r.states[i].nodes), r.states[0].cfg.minActive);
    }
  }
}
