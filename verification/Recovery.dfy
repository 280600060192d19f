/**
 RecoverDead decides on a snapshot and writes later. If no wake of a node starts while a recovery pass
 that saw it dead still has it pending, every recovery write finds the node still dead.
 */
module Recovery {
  import opened Types
  import opened RegistrySpec
  import opened Protocol
  import opened Frames
  import opened SingleFlight
  import opened Floor

  predicate DeadCopy(nodes: Nodes, n: Node)
  {
    n.status == Dead ==> n.id in nodes && nodes[n.id].status == Dead && nodes[n.id].deadSince == n.deadSince
  }

  ghost predicate DeadCopies(nodes: Nodes, todo: seq<Node>)
  {
    forall n :: n in todo ==> DeadCopy(nodes, n)
  }

  ghost predicate NotAmong(id: NodeId, todo: seq<Node>)
  {
    forall n :: n in todo ==> n.id != id
  }

  /** While RecoverDead works through its snapshot, the dead nodes in it are still dead since then. */
  ghost predicate RecoveryFresh(nodes: Nodes, c: Ctl)
  {
    match c
    case Recovering(todo) => DeadCopies(nodes, todo) && DistinctIds(todo)
    case Restoring(id, _, todo) =>
      id in nodes && nodes[id].status == Dead && DeadCopies(nodes, todo) && DistinctIds(todo) && NotAmong(id, todo)
    case _ => true
  }

  /** RecoverDead has seen this node dead and has not yet dealt with it. */
  predicate PendingRecovery(c: Ctl, id: NodeId)
  {
    || (c.Restoring? && c.id == id)
    || ((c.Restoring? || c.Recovering?) && exists n :: n in c.todo && n.id == id && n.status == Dead)
  }

  /** The entry block starts a wake of a node under recovery. */
  predicate EntersPending(s: Cluster, e: Event)
  {
    Enabled(s, e) && Entered(s, e).Some? && MustWake(s.nodes, Entered(s, e).value) && PendingRecovery(s.ctl, Entered(s, e).value)
  }

  /** A dead node changes only by the recovery write aimed at it. */
  lemma DeadStays(s: Cluster, e: Event, id: NodeId)
    requires Inv(s) && Enabled(s, e) && Entered(s, e) != Some(id)
    requires id in s.nodes && s.nodes[id].status == Dead && !(e.CtlRestores? && s.ctl.id == id)
    ensures id in NodesAfter(s, e)
    ensures NodesAfter(s, e)[id].status == Dead && NodesAfter(s, e)[id].deadSince == s.nodes[id].deadSince
  {
    hide IsSnapshot, NodesAfter, InvOf;
    if e.Record? {
      InFlightWaking(s, e.g);
    } else if e.CtlMarks? {
      MarkedIsActive(s);
    }
    StatusAfter(s, e, id);
  }

  lemma MarkedIsActive(s: Cluster)
    requires Inv(s) && s.ctl.MarkingAsleep?
    ensures s.ctl.node.id in s.nodes && s.nodes[s.ctl.node.id].status == Active
  {
    assert s.ctl.node in Pending(s.ctl);
  }

  lemma TailDistinct(todo: seq<Node>)
    requires DistinctIds(todo) && todo != []
    ensures DistinctIds(todo[1..]) && NotAmong(todo[0].id, todo[1..])
    ensures forall n :: n in todo[1..] ==> n in todo
  {
    forall n | n in todo[1..] ensures n in todo && n.id != todo[0].id {
      var i :| 0 <= i < |todo[1..]| && todo[1..][i] == n;
      assert todo[i + 1] == n;
    }
  }

  lemma CheckFresh(nodes: Nodes, cfg: Config, now: int, todo: seq<Node>, healthy: bool)
    requires DeadCopies(nodes, todo) && DistinctIds(todo) && todo != []
    ensures RecoveryFresh(nodes, Check(cfg, now, todo, healthy))
  {
    TailDistinct(todo);
    assert todo[0] in todo && DeadCopy(nodes, todo[0]);
    hide DistinctIds, ElapsedAtLeast;
  }

  lemma SnapshotFresh(nodes: Nodes, snap: seq<Node>)
    requires IsSnapshot(nodes, snap)
    ensures DeadCopies(nodes, snap) && DistinctIds(snap)
  {
  }

  /** The controller's own move, on the nodes as they were. */
  lemma CtlFresh(s: Cluster, e: Event)
    requires RecoveryFresh(s.nodes, s.ctl) && Enabled(s, e)
    ensures RecoveryFresh(s.nodes, CtlAfter(s, e))
  {
    if e.CtlChecks? {
      CheckFresh(s.nodes, s.cfg, s.clock, s.ctl.todo, e.healthy);
    } else if e.CtlWakes? {
      SnapshotFresh(s.nodes, e.snap);
    }
    hide IsSnapshot, DeadCopies, DistinctIds, NotAmong, Succeeds;
  }

  /** This event starts no wake of a node the snapshot copies show dead. */
  ghost predicate SparesDead(s: Cluster, e: Event, todo: seq<Node>)
    requires Enabled(s, e)
  {
    forall n :: n in todo && n.status == Dead ==> Entered(s, e) != Some(n.id)
  }

  lemma PendingSpared(s: Cluster, e: Event)
    requires RecoveryFresh(s.nodes, s.ctl) && Enabled(s, e) && !EntersPending(s, e)
    ensures CtlAfter(s, e).Recovering? || CtlAfter(s, e).Restoring? ==> SparesDead(s, e, CtlAfter(s, e).todo)
    ensures CtlAfter(s, e).Restoring? ==> Entered(s, e) != Some(CtlAfter(s, e).id)
  {
    var c := CtlAfter(s, e);
    if Entered(s, e).Some? {
      assert c == s.ctl;
      hide Enabled, Entered, CtlAfter;
      if c.Recovering? || c.Restoring? {
        forall n | n in c.todo && n.status == Dead ensures Entered(s, e) != Some(n.id) {
          assert DeadCopy(s.nodes, n);
        }
      }
    }
  }

  lemma CopiesStay(s: Cluster, e: Event, todo: seq<Node>)
    requires Inv(s) && Enabled(s, e) && DeadCopies(s.nodes, todo) && SparesDead(s, e, todo)
    requires e.CtlRestores? ==> NotAmong(s.ctl.id, todo)
    ensures DeadCopies(NodesAfter(s, e), todo)
  {
    forall n | n in todo ensures DeadCopy(NodesAfter(s, e), n) {
      assert DeadCopy(s.nodes, n);
      hide Inv, Enabled, NodesAfter, DeadCopies;
      if n.status == Dead {
        DeadStays(s, e, n.id);
      }
    }
  }

  lemma StepRecoveryFresh(s: Cluster, e: Event)
    requires Inv(s) && RecoveryFresh(s.nodes, s.ctl) && Enabled(s, e) && !EntersPending(s, e)
    ensures RecoveryFresh(NodesAfter(s, e), CtlAfter(s, e))
    ensures FreshRecovery(s, e)
  {
    CtlFresh(s, e);
    PendingSpared(s, e);
    var c := CtlAfter(s, e);
    if e.CtlRestores? {
      assert NotAmong(s.ctl.id, c.todo);
    }
    hide Inv, NodesAfter, EntersPending, Check, Consider, DistinctIds, NotAmong, DeadCopies, SparesDead, IsSnapshot;
    hide ElapsedAtLeast, Succeeds;
    if c.Recovering? {
      CopiesStay(s, e, c.todo);
    } else if c.Restoring? {
      CopiesStay(s, e, c.todo);
      DeadStays(s, e, c.id);
    }
  }

  /** In a run without such entries, RecoverDead only ever writes over nodes that are still dead. */
  lemma {:induction false} RecoveryFreshHolds(r: Run, n: nat)
    requires IsRun(r) && n < |r.states|
    requires forall i :: 0 <= i < n ==> !EntersPending(r.states[i], r.events[i])
    ensures Inv(r.states[n]) && RecoveryFresh(r.states[n].nodes, r.states[n].ctl)
    ensures forall i :: 0 <= i < n ==> FreshRecovery(r.states[i], r.events[i])
  {
    if n == 0 {
      InitKeeps(r.states[0]);
    } else {
      RecoveryFreshHolds(r, n - 1);
      RunStep(r, n - 1);
      hide IsRun, Enabled, InvOf, NodesAfter, CallersAfter, CtlAfter, RecoveryFresh, FreshRecovery, RecoverOverWaking;
      hide EntersPending, StaleCooldownAtFloor;
      StepRecoveryFresh(r.states[n - 1], r.events[n - 1]);
      FreshIsSafe(r.states[n - 1], r.events[n - 1]);
      StepKeeps(r.states[n - 1], r.events[n - 1]);
    }
  }
}
