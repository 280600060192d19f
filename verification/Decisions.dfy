/** What the controller and an entering goroutine decide about a node, in the node's own fields. */
module Decisions {
  import opened Types
  import opened RegistrySpec
  import opened Protocol
  import R = Registry

  /**
   One step of the sweep: the node listed next is about to be switched off exactly if its copy is a worker, active,
   unloaded, idle for the timeout and above the floor, and the node is still known; otherwise it is passed over.
   */
  lemma ConsiderDecides(s: Cluster)
    requires Enabled(s, CtlConsiders)
    ensures s.ctl.Sweeping? && s.ctl.todo != []
    ensures var n, rest := s.ctl.todo[0], s.ctl.todo[1..];
            var idle := n.lastUsed.Never? || s.clock - n.lastUsed.t >= s.cfg.idleTimeout;
            Step(s, CtlConsiders).ctl ==
            if !n.local && n.status == Active && n.load <= 0 && idle && s.ctl.count > s.cfg.minActive
               && n.id in s.nodes && !s.nodes[n.id].local
            then CuttingPower(s.nodes[n.id], rest, s.ctl.count) else Sweeping(rest, s.ctl.count)
  {
    hide NodesAfter, CallersAfter, RecordsAfter, TableAfter, HeldAfter, RelaysAfter, CooledAfter;
  }

  /**
   One step of a recovery pass: a copy that is dead and answers is about to become active, one that does not and has
   been dead for the cooldown, or since before any time, to go to sleep; otherwise nothing is written.
   */
  lemma CheckDecides(s: Cluster, healthy: bool)
    requires Enabled(s, CtlChecks(healthy))
    ensures s.ctl.Recovering? && s.ctl.todo != []
    ensures var n, rest := s.ctl.todo[0], s.ctl.todo[1..];
            var answers := healthy && n.managerAddress != "";
            var cooled := n.deadSince.Never? || s.clock - n.deadSince.t >= s.cfg.deadRetry;
            Step(s, CtlChecks(healthy)).ctl ==
            if n.status == Dead && answers then Restoring(n.id, Active, rest)
            else if n.status == Dead && cooled then Restoring(n.id, Sleeping, rest)
            else Recovering(rest)
  {
    hide NodesAfter, CallersAfter, RecordsAfter, TableAfter, HeldAfter, RelaysAfter, CooledAfter;
  }

  /** The pass run by one goroutine alone writes what the machine's check and write of the same node do. */
  lemma RecoverIsCheck(nodes: Nodes, n: Node, healthy: bool, cfg: Config, now: int)
    requires n.id in nodes && nodes[n.id] == n
    ensures var c := Check(cfg, now, [n], healthy);
            var after := if c.Restoring? then SetStatus(nodes, c.id, c.to, now) else nodes;
            n.id in after && after[n.id] == R.Recovered(n, healthy, cfg.deadRetry, now)
  {
  }

  /** The entry block: who returns at once, who waits on which record, who leads, and what is marked. */
  lemma EntryDecides(s: Cluster, g: Gid, id: NodeId)
    requires g !in s.callers
    ensures Enabled(s, Enter(g, id))
    ensures var s' := Step(s, Enter(g, id));
            && g in s'.callers && s'.callers[g].node == id
            && (id !in s.nodes ==> s'.callers[g].pc == Returned(UnknownNode) && s' == s.(callers := s'.callers))
            && (id in s.nodes && s.nodes[id].status == Active ==>
                  s'.callers[g].pc == Returned(Ok) && s' == s.(callers := s'.callers))
            && (id in s.nodes && s.nodes[id].status == Waking ==>
                  s'.callers[g].pc == Waiting && s' == s.(callers := s'.callers)
                  && s'.callers[g].role == Follower(if id in s.table then Some(s.table[id]) else None))
            && (id in s.nodes && s.nodes[id].status != Active && s.nodes[id].status != Waking ==>
                  && s'.callers[g].pc == PoweringOn && s'.callers[g].role == Leader(|s.records|)
                  && s'.nodes == s.nodes[id := s.nodes[id].(status := Waking)] && s'.table == s.table[id := |s.records|]
                  && s'.records == s.records + [Activation(id, g, Ok, 0)])
  {
  }
}
