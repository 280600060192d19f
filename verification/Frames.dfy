/** What an event leaves alone, and what never changes. */
module Frames {
  import opened Types
  import opened RegistrySpec
  import opened Protocol

  type Callers = map<Gid, Caller>

  /** Between the transition to Waking and the final SetStatus. */
  predicate InFlight(pc: Pc)
  {
    pc.PoweringOn? || pc.Polling? || pc.Listing? || pc.Deploying? || pc.PoweringOff? || pc.Recording?
  }

  /** Only entry starts a wake and only the final SetStatus ends one; what a leader records is never Waking. */
  lemma PcMoves(s: Cluster, e: Event)
    requires EnabledCaller(s, e) && !e.Enter?
    ensures e.g in s.callers && !PcAfter(s, e).PoweringOn?
    ensures s.callers[e.g].pc.PoweringOn? <==> e.PowerOnReturns?
    ensures InFlight(PcAfter(s, e)) <==> InFlight(s.callers[e.g].pc) && !e.Record?
    ensures PcAfter(s, e).Recording? ==> PcAfter(s, e).status != Waking
  {
    hide Succeeds;
  }

  lemma EntryIsFresh(s: Cluster, e: Event)
    requires Enabled(s, e) && Entered(s, e).Some?
    ensures e.g !in s.callers
  {
  }

  /** The status of a node after an event: set by the entry block, set by a SetStatus call, or what it was. */
  lemma StatusAfter(s: Cluster, e: Event, id: NodeId)
    requires Enabled(s, e) && id in s.nodes
    ensures id in NodesAfter(s, e)
    ensures NodesAfter(s, e)[id].status ==
            if Entered(s, e) == Some(id) && MustWake(s.nodes, id) then Waking
            else if StatusWritten(s, e).Some? && StatusWritten(s, e).value.id == id then StatusWritten(s, e).value.status
            else s.nodes[id].status
    ensures NodesAfter(s, e)[id].deadSince ==
            if StatusWritten(s, e).Some? && StatusWritten(s, e).value.id == id
            then (if StatusWritten(s, e).value.status == Dead then At(s.clock) else Never)
            else s.nodes[id].deadSince
  {
    assert Entered(s, e).Some? ==> StatusWritten(s, e).None?;
    hide Enabled, Entered, StatusWritten;
  }

  /** A goroutine after an event: just entered, moved by its own event, or where it was. */
  lemma CallerAfter(s: Cluster, e: Event, g: Gid)
    requires Enabled(s, e) && g in CallersAfter(s, e)
    ensures CallersAfter(s, e)[g] ==
            if Entered(s, e).Some? && g == e.g then Entering(s, Entered(s, e).value)
            else if EnabledCaller(s, e) && g == e.g then s.callers[g].(pc := PcAfter(s, e), heard := HeardAfter(s, e))
            else s.callers[g]
    ensures !(Entered(s, e).Some? && g == e.g) ==> g in s.callers
  {
    hide PcAfter, HeardAfter, Entering;
  }

  /** One step of a run, component by component. */
  lemma RunStep(r: Run, i: nat)
    requires IsRun(r) && (i < |r.events| || i + 1 < |r.states|)
    ensures i < |r.events| && i + 1 < |r.states| && Enabled(r.states[i], r.events[i])
    ensures r.states[i + 1] == Step(r.states[i], r.events[i])
    ensures var s, e, s' := r.states[i], r.events[i], r.states[i + 1];
            && s'.cfg == s.cfg && s'.nodes == NodesAfter(s, e) && s'.table == TableAfter(s, e)
            && s'.records == RecordsAfter(s, e) && s'.callers == CallersAfter(s, e) && s'.ctl == CtlAfter(s, e)
            && s'.startup == StartupAfter(s, e) && s'.updaters == UpdatersAfter(s, e) && s'.relays == RelaysAfter(s, e)
            && s'.store == StoreAfter(s, e) && s'.held == HeldAfter(s, e) && s'.cooled == CooledAfter(s, e)
            && s'.clock == ClockAfter(s, e)
  {
    hide Enabled, Init;
  }

  lemma RunStart(r: Run)
    requires IsRun(r)
    ensures |r.states| > 0 && Init(r.states[0])
  {
  }

  lemma CallerCommands(s: Cluster, e: Event)
    requires EnabledCaller(s, e)
    ensures CommandOf(s, e).Some? ==> e.PowerOnReturns? || e.PowerOffReturns?
    ensures StatusWritten(s, e).Some? ==> e.Record?
  {
    hide EnabledCtl, EnabledRest, OwnsRecord, AwaitsRecord;
  }

  /** Goroutines inside ActivateNode touch neither the controller nor the startup pass. */
  lemma CallerFrame(s: Cluster, e: Event)
    requires EnabledCaller(s, e)
    ensures CtlAfter(s, e) == s.ctl && StartupAfter(s, e) == s.startup && UpdatersAfter(s, e) == s.updaters
    ensures CommandOf(s, e).Some? ==> e.PowerOnReturns? || e.PowerOffReturns?
    ensures StatusWritten(s, e).Some? ==> e.Record?
  {
    CallerCommands(s, e);
    hide EnabledCtl, EnabledRest, CommandOf, StatusWritten, OwnsRecord, AwaitsRecord;
  }

  /** The controller enters nothing and leaves startup alone. */
  lemma CtlFrame(s: Cluster, e: Event)
    requires EnabledCtl(s, e)
    ensures StartupAfter(s, e) == s.startup && UpdatersAfter(s, e) == s.updaters && CallersAfter(s, e) == s.callers
    ensures Entered(s, e).None? && (CommandOf(s, e).Some? ==> e.CtlPowersOff?)
    ensures StatusWritten(s, e).Some? ==> e.CtlRestores? || e.CtlMarks?
  {
  }

  /** Only a recovery check decides to write a status. */
  lemma OnlyChecksDecide(s: Cluster, e: Event)
    requires Enabled(s, e) && CtlAfter(s, e).Restoring? && !e.CtlChecks?
    ensures CtlAfter(s, e) == s.ctl && ClockAfter(s, e) >= s.clock
  {
    hide IsSnapshot, CountServing, MayScaleDown;
  }

  // ---------- the topology never changes ----------

  /** The fields a topology file fixes for good. */
  predicate SameNode(a: Node, b: Node)
  {
    b == a.(status := b.status, load := b.load, lastUsed := b.lastUsed, deadSince := b.deadSince)
  }

  ghost predicate SameTopology(nodes: Nodes, nodes': Nodes)
  {
    nodes'.Keys == nodes.Keys && forall id :: id in nodes ==> SameNode(nodes[id], nodes'[id])
  }

  lemma SameTopologyAt(nodes: Nodes, nodes': Nodes, id: NodeId)
    requires SameTopology(nodes, nodes')
    ensures id in nodes <==> id in nodes'
    ensures id in nodes ==> SameNode(nodes[id], nodes'[id])
  {
  }

  ghost predicate OwnIds(nodes: Nodes)
  {
    forall id :: id in nodes ==> nodes[id].id == id
  }

  lemma TopologyKept(s: Cluster, e: Event)
    requires Enabled(s, e)
    ensures SameTopology(s.nodes, NodesAfter(s, e))
  {
    hide Entered, StatusWritten;
  }

  lemma SameTopologyReflexive(a: Nodes)
    ensures SameTopology(a, a)
  {
  }

  lemma SameTopologyTransitive(a: Nodes, b: Nodes, c: Nodes)
    requires SameTopology(a, b) && SameTopology(b, c)
    ensures SameTopology(a, c)
  {
    forall id | id in a ensures SameNode(a[id], c[id]) {
      assert SameNode(a[id], b[id]) && SameNode(b[id], c[id]);
    }
  }

  lemma {:induction false} TopologyHolds(r: Run, n: nat)
    requires IsRun(r) && n < |r.states|
    ensures SameTopology(r.states[0].nodes, r.states[n].nodes)
  {
    hide Enabled, Init, Step, SameTopology, NodesAfter;
    if n == 0 {
      SameTopologyReflexive(r.states[0].nodes);
    } else {
      TopologyHolds(r, n - 1);
      RunStep(r, n - 1);
      TopologyKept(r.states[n - 1], r.events[n - 1]);
      SameTopologyTransitive(r.states[0].nodes, r.states[n - 1].nodes, r.states[n].nodes);
    }
  }
}
