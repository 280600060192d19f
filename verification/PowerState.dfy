/**
 Recorded state agrees with physical power: composition of the activation protocol, the controller, the
 startup pass and the relay controller over a topology whose outlets are distinct.
 */
module PowerState {
  import opened Types
  import opened Relay
  import opened RegistrySpec
  import opened Protocol
  import opened Frames
  import opened SingleFlight
  import opened Floor
  import opened Recovery
  import opened LeaderNode

  function OutletOf(n: Node, defaultUid: string): Outlet
  {
    Outlet(Resolve(n.relayUid, defaultUid), n.channel)
  }

  /** No two workers hang on one physical outlet. */
  ghost predicate DistinctOutlets(nodes: Nodes, defaultUid: string)
  {
    forall a, b :: Remote(nodes, a) && Remote(nodes, b) && a != b ==> OutletOf(nodes[a], defaultUid) != OutletOf(nodes[b], defaultUid)
  }

  // ---------- assumptions on a run, event by event ----------

  /** A failed relay write leaves the bricklet as it was. */
  predicate CleanWrites(s: Cluster, e: Event)
    requires Enabled(s, e)
  {
    CommandOf(s, e).Some? ==>
      var w := CommandOf(s, e).value;
      Clean(s.relays, Command(w.node.relayUid, w.node.channel, w.on, w.io))
  }

  /** A node that answers a health check has its outlet closed. */
  predicate HealthyMeansPowered(s: Cluster, e: Event)
  {
    && (e.Poll? && e.answered && e.g in s.callers && s.callers[e.g].node in s.nodes ==>
          Powered(s.relays, s.nodes[s.callers[e.g].node]))
    && (e.CtlChecks? && e.healthy && s.ctl.Recovering? && s.ctl.todo != [] && s.ctl.todo[0].id in s.nodes ==>
          Powered(s.relays, s.nodes[s.ctl.todo[0].id]))
  }

  /** EnforceSleeping runs to its end, without a failed power-off, before anything else happens. */
  predicate EnforceFirst(s: Cluster, e: Event)
    requires Enabled(s, e)
  {
    !s.startup.Finished? ==>
      && (e.EnforceLists? || e.EnforceNext? || e.EnforceEnds? || e.Tick? || e.Serve?)
      && (CommandOf(s, e).Some? ==> Succeeds(s, e))
  }

  /** A legal event that does not overwrite a wake and leaves the hardware alone when a write fails. */
  predicate Regular(s: Cluster, e: Event)
  {
    Enabled(s, e) && CleanWrites(s, e) && !RecoverOverWaking(s, e)
  }

  predicate PowerAssumed(s: Cluster, e: Event)
  {
    Regular(s, e) && HealthyMeansPowered(s, e) && EnforceFirst(s, e)
  }

  /** A recovery write that restores a worker as active finds the worker's outlet closed. */
  predicate RestoresPowered(s: Cluster, e: Event)
  {
    e.CtlRestores? && s.ctl.Restoring? && s.ctl.to == Active && Remote(s.nodes, s.ctl.id) ==> On(s, s.ctl.id)
  }

  // ---------- what one command does to the workers ----------

  lemma IssueMovesOne(r: Relays, nodes: Nodes, w: Switching, id: NodeId)
    requires Agree(r) && DistinctOutlets(nodes, r.defaultUid) && AimedAtWorker(nodes, w) && Remote(nodes, id)
    requires Clean(r, Command(w.node.relayUid, w.node.channel, w.on, w.io))
    ensures var (r', ok) := Issue(r, w);
            && Agree(r') && r'.defaultUid == r.defaultUid
            && Powered(r', nodes[id]) == if ok && w.node.id == id then w.on else Powered(r, nodes[id])
  {
    var c := Command(w.node.relayUid, w.node.channel, w.on, w.io);
    PhysicalFollows(r, c, OutletOf(nodes[id], r.defaultUid));
    hide SetChannel, Agree, Clean;
    assert w.node.id != id ==> OutletOf(nodes[w.node.id], r.defaultUid) != OutletOf(nodes[id], r.defaultUid);
  }

  /** What this event leaves of a worker's outlet. */
  predicate OnAfter(s: Cluster, e: Event, id: NodeId)
    requires Enabled(s, e) && id in s.nodes
  {
    if Succeeds(s, e) && CommandOf(s, e).value.node.id == id then CommandOf(s, e).value.on else Powered(s.relays, s.nodes[id])
  }

  lemma RelaysMoveOne(s: Cluster, e: Event, id: NodeId)
    requires Enabled(s, e) && Spared(s.nodes, s.callers, s.ctl, s.startup) && CleanWrites(s, e)
    requires Agree(s.relays) && DistinctOutlets(s.nodes, s.relays.defaultUid) && Remote(s.nodes, id)
    ensures Agree(RelaysAfter(s, e)) && RelaysAfter(s, e).defaultUid == s.relays.defaultUid
    ensures Powered(RelaysAfter(s, e), s.nodes[id]) == OnAfter(s, e, id)
  {
    hide Enabled, Spared, DistinctOutlets, Agree, Clean, Powered, Issue, CommandOf, Remote;
    if CommandOf(s, e).Some? {
      CommandsAimed(s, e);
      IssueMovesOne(s.relays, s.nodes, CommandOf(s, e).value, id);
    }
  }

  // ---------- the invariant ----------

  /** EnforceSleeping has not dealt with this node yet. */
  ghost predicate Awaiting(t: Startup, id: NodeId)
  {
    t.NotStarted? || (t.Enforcing? && exists n :: n in t.todo && n.id == id)
  }

  /** The controller has switched the node off and not yet recorded it. */
  predicate MidDeactivation(c: Ctl, id: NodeId)
  {
    c.MarkingAsleep? && c.node.id == id
  }

  /** Status against outlet, for one worker; `on` is its outlet. */
  ghost predicate Agrees(status: Status, on: bool, c: Ctl, t: Startup, cooled: bool, id: NodeId)
  {
    && (status == Active ==> on || MidDeactivation(c, id))
    && (status == Sleeping ==> !on || cooled || Awaiting(t, id))
    && (MidDeactivation(c, id) ==> !on)
  }

  /** Where a leader stands against its node's outlet. */
  predicate LeaderAgrees(pc: Pc, on: bool)
  {
    && (pc.Polling? || pc.Listing? || pc.Deploying? || pc.PoweringOff? ==> on)
    && (pc.Recording? && pc.status == Active ==> on)
    && (pc.Recording? && pc.status == Sleeping ==> !on)
  }

  ghost predicate WorkersAgree(nodes: Nodes, r: Relays, c: Ctl, t: Startup, cooled: set<NodeId>)
  {
    forall id :: Remote(nodes, id) ==> Agrees(nodes[id].status, Powered(r, nodes[id]), c, t, id in cooled, id)
  }

  ghost predicate LeadersAgree(nodes: Nodes, r: Relays, callers: Callers)
  {
    forall g :: g in callers && Remote(nodes, callers[g].node) ==> LeaderAgrees(callers[g].pc, Powered(r, nodes[callers[g].node]))
  }

  /** Before EnforceSleeping has finished nothing else has begun, and its snapshot is still right. */
  ghost predicate Opening(s: Cluster)
  {
    !s.startup.Finished? ==>
      && s.callers == map[] && s.ctl.Resting? && !s.startup.Prewarming?
      && (s.startup.Enforcing? ==> forall n :: n in s.startup.todo ==> n.id in s.nodes && s.nodes[n.id].status == n.status)
  }

  /** Everything already proved about the protocol, gathered. */
  ghost predicate Background(s: Cluster)
  {
    && Inv(s) && Spared(s.nodes, s.callers, s.ctl, s.startup)
    && Agree(s.relays) && DistinctOutlets(s.nodes, s.relays.defaultUid)
  }

  ghost predicate PowerInv(s: Cluster)
  {
    && WorkersAgree(s.nodes, s.relays, s.ctl, s.startup, s.cooled)
    && LeadersAgree(s.nodes, s.relays, s.callers)
    && Opening(s)
  }

  // ---------- leaders ----------

  /** A relay command never concerns the outlet of a node that some other goroutine is waking. */
  lemma CommandElsewhere(s: Cluster, e: Event, g: Gid)
    requires Background(s) && Opening(s) && PowerAssumed(s, e) && CommandOf(s, e).Some?
    requires g in s.callers && InFlight(s.callers[g].pc) && !(EnabledCaller(s, e) && e.g == g)
    ensures CommandOf(s, e).value.node.id != s.callers[g].node
  {
    hide Agree, DistinctOutlets, IsSnapshot, LocalsActive, CtlRemote, StartupRemote, WakesRemote, InvOf;
    hide CleanWrites, RecoverOverWaking, HealthyMeansPowered, Issue;
    InFlightWaking(s, g);
    if e.PowerOnReturns? || e.PowerOffReturns? {
      if s.callers[e.g].node == s.callers[g].node {
        OnlyWaker(s, e.g, g);
      }
    } else if e.CtlPowersOff? {
      CutIsActive(s);
    }
  }

  lemma CutIsActive(s: Cluster)
    requires Inv(s) && s.ctl.CuttingPower?
    ensures s.ctl.node.id in s.nodes && s.nodes[s.ctl.node.id].status == Active
  {
    assert s.ctl.node in Pending(s.ctl);
  }

  /** A PowerOn is the leader's own, and its node is waking. */
  lemma PowerOnIsLeaders(s: Cluster, e: Event)
    requires Inv(s) && OwnIds(s.nodes) && Enabled(s, e) && CommandOf(s, e).Some? && CommandOf(s, e).value.on
    ensures e.PowerOnReturns? && EnabledCaller(s, e) && CommandOf(s, e).value.node.id == s.callers[e.g].node
    ensures InFlight(s.callers[e.g].pc) && s.nodes[s.callers[e.g].node].status == Waking
  {
    hide InvOf, IsSnapshot;
    InFlightWaking(s, e.g);
  }

  /** The outlet of a node nobody is waking is at most opened. */
  lemma NotSwitchedOn(s: Cluster, e: Event, id: NodeId)
    requires Background(s) && Enabled(s, e) && id in s.nodes && s.nodes[id].status != Waking
    ensures OnAfter(s, e, id) ==> On(s, id)
  {
    hide Enabled, InvOf, Agree, DistinctOutlets, LocalsActive, WakesRemote, CtlRemote, StartupRemote, OwnIds;
    hide CommandOf, Powered;
    if CommandOf(s, e).Some? && CommandOf(s, e).value.on {
      PowerOnIsLeaders(s, e);
    }
  }

  lemma OwnCommandAgrees(s: Cluster, e: Event)
    requires OwnIds(s.nodes) && EnabledCaller(s, e) && (e.PowerOnReturns? || e.PowerOffReturns?)
    ensures LeaderAgrees(PcAfter(s, e), OnAfter(s, e, s.callers[e.g].node))
  {
    assert s.nodes[s.callers[e.g].node].id == s.callers[e.g].node;
    hide Issue, Powered, EnabledCtl, EnabledRest, OwnIds;
  }

  lemma OwnQuietAgrees(s: Cluster, e: Event, on: bool)
    requires EnabledCaller(s, e) && !e.Enter? && !e.PowerOnReturns? && !e.PowerOffReturns?
    requires LeaderAgrees(s.callers[e.g].pc, on) && (e.Poll? && e.answered ==> on)
    ensures LeaderAgrees(PcAfter(s, e), on)
  {
    hide Succeeds;
  }

  /** A leader's own step, against the outlet it leaves. */
  lemma OwnStepAgrees(s: Cluster, e: Event)
    requires OwnIds(s.nodes) && HealthyMeansPowered(s, e) && EnabledCaller(s, e) && !e.Enter?
             && s.callers[e.g].node in s.nodes
    requires LeaderAgrees(s.callers[e.g].pc, Powered(s.relays, s.nodes[s.callers[e.g].node]))
    ensures LeaderAgrees(PcAfter(s, e), OnAfter(s, e, s.callers[e.g].node))
  {
    hide LeaderAgrees, PcAfter, OwnIds, Powered, EnabledCtl, EnabledRest, CommandOf;
    if e.PowerOnReturns? || e.PowerOffReturns? {
      OwnCommandAgrees(s, e);
    } else {
      CallerCommands(s, e);
      OwnQuietAgrees(s, e, Powered(s.relays, s.nodes[s.callers[e.g].node]));
    }
  }

  lemma StepLeadersAgree(s: Cluster, e: Event)
    requires Background(s) && PowerInv(s) && PowerAssumed(s, e)
    ensures LeadersAgree(NodesAfter(s, e), RelaysAfter(s, e), CallersAfter(s, e))
  {
    forall g | g in CallersAfter(s, e) && Remote(NodesAfter(s, e), CallersAfter(s, e)[g].node)
      ensures LeaderAgrees(CallersAfter(s, e)[g].pc, Powered(RelaysAfter(s, e), NodesAfter(s, e)[CallersAfter(s, e)[g].node]))
    {
      LeaderStepAgrees(s, e, g);
    }
  }

  lemma SamePower(r: Relays, a: Node, b: Node)
    requires SameNode(a, b)
    ensures Powered(r, a) == Powered(r, b)
  {
  }

  lemma LeaderStepAgrees(s: Cluster, e: Event, g: Gid)
    requires Background(s) && PowerInv(s) && PowerAssumed(s, e)
    requires g in CallersAfter(s, e) && Remote(NodesAfter(s, e), CallersAfter(s, e)[g].node)
    ensures LeaderAgrees(CallersAfter(s, e)[g].pc, Powered(RelaysAfter(s, e), NodesAfter(s, e)[CallersAfter(s, e)[g].node]))
  {
    hide NodesAfter, RelaysAfter, CallersAfter, PcAfter, HeardAfter, SameTopology, InvOf, Agree;
    hide DistinctOutlets;
    hide Powered, Enabled, IsSnapshot, WorkersAgree, RecoverOverWaking, CleanWrites, EnforceFirst, HealthyMeansPowered;
    TopologyKept(s, e);
    CallerAfter(s, e, g);
    var id := CallersAfter(s, e)[g].node;
    SameTopologyAt(s.nodes, NodesAfter(s, e), id);
    SamePower(RelaysAfter(s, e), s.nodes[id], NodesAfter(s, e)[id]);
    RelaysMoveOne(s, e, id);
    if Entered(s, e).Some? && g == e.g {
    } else if EnabledCaller(s, e) && g == e.g {
      hide LeaderAgrees, Opening, OnAfter;
      OwnStepAgrees(s, e);
    } else if InFlight(s.callers[g].pc) && CommandOf(s, e).Some? {
      CommandElsewhere(s, e, g);
      hide LeaderAgrees, Opening, Spared, CommandOf;
    } else {
      hide Opening, Spared, CommandOf;
    }
  }

  // ---------- workers ----------

  /** The worker after an event, as the invariant sees it. */
  ghost predicate AgreesAfter(s: Cluster, e: Event, id: NodeId)
    requires Enabled(s, e) && id in s.nodes && id in NodesAfter(s, e)
  {
    Agrees(NodesAfter(s, e)[id].status, OnAfter(s, e, id), CtlAfter(s, e), StartupAfter(s, e), id in CooledAfter(s, e), id)
  }

  ghost predicate AgreesNow(s: Cluster, id: NodeId)
    requires id in s.nodes
  {
    Agrees(s.nodes[id].status, Powered(s.relays, s.nodes[id]), s.ctl, s.startup, id in s.cooled, id)
  }

  /** A waking node is not being switched off. */
  lemma WakingIsLeftAlone(s: Cluster, id: NodeId)
    requires Inv(s) && id in s.nodes && s.nodes[id].status == Waking
    ensures !MidDeactivation(s.ctl, id)
  {
    if s.ctl.MarkingAsleep? {
      MarkedIsActive(s);
    }
  }

  /** The final SetStatus of a wake agrees with the outlet the leader left. */
  lemma RecordAgrees(s: Cluster, g: Gid)
    requires Background(s) && PowerInv(s) && PowerAssumed(s, Record(g)) && EnabledCaller(s, Record(g))
    requires Remote(s.nodes, s.callers[g].node)
    ensures s.callers[g].node in NodesAfter(s, Record(g)) && AgreesAfter(s, Record(g), s.callers[g].node)
  {
    var id := s.callers[g].node;
    InFlightWaking(s, g);
    WakingIsLeftAlone(s, id);
    assert LeaderAgrees(s.callers[g].pc, Powered(s.relays, s.nodes[id]));
    hide InvOf, Spared, Agree, DistinctOutlets, Powered, WorkersAgree, LeadersAgree, Opening;
  }

  /** A leader's relay command concerns a waking node only. */
  lemma LeaderCommandAgrees(s: Cluster, e: Event, id: NodeId)
    requires Background(s) && Remote(s.nodes, id) && AgreesNow(s, id) && PowerAssumed(s, e)
    requires e.PowerOnReturns? || e.PowerOffReturns?
    ensures id in NodesAfter(s, e) && AgreesAfter(s, e, id)
  {
    InFlightWaking(s, e.g);
    WakingIsLeftAlone(s, s.callers[e.g].node);
    hide InvOf, Spared, Agree, DistinctOutlets, Powered, Issue, IsSnapshot, HealthyMeansPowered;
    hide RecoverOverWaking, CleanWrites;
  }

  lemma CallerAgrees(s: Cluster, e: Event, id: NodeId)
    requires Background(s) && PowerInv(s) && Remote(s.nodes, id) && AgreesNow(s, id) && PowerAssumed(s, e)
             && EnabledCaller(s, e)
    ensures id in NodesAfter(s, e) && AgreesAfter(s, e, id)
  {
    assert Enabled(s, e);
    hide PowerInv, Background, Powered, Enabled, NodesAfter, CtlAfter, StartupAfter, Entered, Succeeds, PowerAssumed;
    hide CommandOf, Agrees, OnAfter;
    if e.PowerOnReturns? || e.PowerOffReturns? {
      LeaderCommandAgrees(s, e, id);
    } else if e.Record? && s.callers[e.g].node == id {
      RecordAgrees(s, e.g);
    } else {
      QuietCallerAgrees(s, e, id);
    }
  }

  lemma QuietCallerAgrees(s: Cluster, e: Event, id: NodeId)
    requires Enabled(s, e) && EnabledCaller(s, e) && !e.PowerOnReturns? && !e.PowerOffReturns?
    requires Remote(s.nodes, id) && AgreesNow(s, id)
    requires e.Record? ==> s.callers[e.g].node != id
    ensures id in NodesAfter(s, e) && AgreesAfter(s, e, id)
  {
    hide Powered, Enabled, NodesAfter, CtlAfter, StartupAfter, CommandOf, Entered, Agrees, PcAfter;
    CallerFrame(s, e);
    StatusAfter(s, e, id);
    hide EnabledCaller;
    StaysOrWakes(s.nodes[id].status, NodesAfter(s, e)[id].status, Powered(s.relays, s.nodes[id]), s.ctl, s.startup, id in s.cooled, id);
  }

  /** A node counts as cooled from a cooldown write until the next status written. */
  lemma CooledMoves(s: Cluster, e: Event, id: NodeId)
    requires Enabled(s, e)
    ensures !(StatusWritten(s, e).Some? && StatusWritten(s, e).value.id == id) ==> (id in CooledAfter(s, e) <==> id in s.cooled)
    ensures StatusWritten(s, e).Some? && StatusWritten(s, e).value.id == id ==>
              (id in CooledAfter(s, e) <==> e.CtlRestores? && StatusWritten(s, e).value.status == Sleeping)
    ensures e.CtlMarks? ==> StatusWritten(s, e).Some? && StatusWritten(s, e).value.status == Sleeping
  {
  }

  lemma StaysOrWakes(status: Status, status': Status, on: bool, c: Ctl, t: Startup, cooled: bool, id: NodeId)
    requires Agrees(status, on, c, t, cooled, id) && (status' == status || status' == Waking)
    ensures Agrees(status', on, c, t, cooled, id)
  {
  }

  /** A sweep's power-off concerns an active node, which is then off and about to be recorded so. */
  lemma SweepCommandAgrees(s: Cluster, e: Event, id: NodeId)
    requires Background(s) && Remote(s.nodes, id) && AgreesNow(s, id) && PowerAssumed(s, e) && e.CtlPowersOff?
    ensures id in NodesAfter(s, e) && AgreesAfter(s, e, id)
  {
    CutIsActive(s);
    hide InvOf, Spared, Agree, DistinctOutlets, Powered, Issue, IsSnapshot, HealthyMeansPowered;
    hide RecoverOverWaking, CleanWrites;
  }

  /** A recovery write: active over a closed outlet, asleep through the cooldown branch. */
  lemma RestoreAgrees(s: Cluster, e: Event, id: NodeId)
    requires Enabled(s, e) && EnabledCtl(s, e) && e.CtlRestores? && RestoresPowered(s, e)
    requires Remote(s.nodes, id) && AgreesNow(s, id)
    ensures id in NodesAfter(s, e) && AgreesAfter(s, e, id)
  {
    hide EnabledCaller, EnabledRest, Powered;
    CtlFrame(s, e);
    StatusAfter(s, e, id);
    hide NodesAfter, CommandOf, Succeeds;
  }

  /** Apart from a power-off, the controller changes an outlet's node only by the statuses it writes. */
  lemma CtlAgrees(s: Cluster, e: Event, id: NodeId)
    requires Background(s) && PowerInv(s) && Remote(s.nodes, id) && AgreesNow(s, id) && PowerAssumed(s, e)
             && EnabledCtl(s, e) && RestoresPowered(s, e)
    ensures id in NodesAfter(s, e) && AgreesAfter(s, e, id)
  {
    hide Background, PowerInv, EnabledCaller, EnabledCtl, EnabledRest, NodesAfter, AgreesNow, AgreesAfter, CleanWrites;
    hide RecoverOverWaking, HealthyMeansPowered, EnforceFirst, RestoresPowered;
    if e.CtlPowersOff? {
      SweepCommandAgrees(s, e, id);
    } else if e.CtlRestores? {
      RestoreAgrees(s, e, id);
    } else {
      QuietCtlAgrees(s, e, id);
    }
  }

  lemma QuietCtlAgrees(s: Cluster, e: Event, id: NodeId)
    requires Enabled(s, e) && EnabledCtl(s, e) && !e.CtlPowersOff? && !e.CtlRestores?
    requires Remote(s.nodes, id) && AgreesNow(s, id)
    ensures id in NodesAfter(s, e) && AgreesAfter(s, e, id)
  {
    hide Powered, IsSnapshot, NodesAfter, StartupAfter, CommandOf, Entered, Issue, Consider, CountServing, Check;
    CtlFrame(s, e);
    StatusAfter(s, e, id);
    if e.CtlConsiders? {
      ConsiderMarksNobody(s.cfg, s.clock, s.nodes, s.ctl.todo, s.ctl.count);
    } else if e.CtlChecks? {
      CheckMarksNobody(s.cfg, s.clock, s.ctl.todo, e.healthy);
    }
  }

  lemma ConsiderMarksNobody(cfg: Config, now: int, nodes: Nodes, todo: seq<Node>, count: int)
    requires todo != []
    ensures !Consider(cfg, now, nodes, todo, count).MarkingAsleep?
  {
    hide MayScaleDown;
  }

  lemma CheckMarksNobody(cfg: Config, now: int, todo: seq<Node>, healthy: bool)
    requires todo != []
    ensures !Check(cfg, now, todo, healthy).MarkingAsleep?
  {
    hide ElapsedAtLeast;
  }

  lemma EnforceAgrees(s: Cluster, e: Event, id: NodeId)
    requires Background(s) && PowerInv(s) && Remote(s.nodes, id) && AgreesNow(s, id) && PowerAssumed(s, e)
             && e.EnforceNext?
    ensures id in NodesAfter(s, e) && AgreesAfter(s, e, id)
  {
    hide InvOf, LocalsActive, WakesRemote, CtlRemote, Agree, DistinctOutlets, Powered, Issue, IsSnapshot;
    hide HealthyMeansPowered, RecoverOverWaking, CleanWrites, WorkersAgree, LeadersAgree;
    var n, rest := s.startup.todo[0], s.startup.todo[1..];
    assert s.startup.todo == [n] + rest;
    assert n in s.startup.todo && CopyOf(s.nodes, n);
    if Awaiting(s.startup, id) && n.id != id {
      var m :| m in s.startup.todo && m.id == id;
      assert m in rest;
    }
  }

  lemma ListedAwaits(s: Cluster, e: Event, id: NodeId)
    requires Enabled(s, e) && e.EnforceLists? && id in s.nodes
    ensures Awaiting(StartupAfter(s, e), id)
  {
    var i :| 0 <= i < |e.snap| && e.snap[i].id == id;
    assert e.snap[i] in e.snap;
  }

  lemma RestAgrees(s: Cluster, e: Event, id: NodeId)
    requires Background(s) && PowerInv(s) && Remote(s.nodes, id) && AgreesNow(s, id) && PowerAssumed(s, e)
             && EnabledRest(s, e)
    ensures id in NodesAfter(s, e) && AgreesAfter(s, e, id)
  {
    hide Background, PowerInv, Remote, AgreesNow, AgreesAfter, PowerAssumed, EnabledRest, NodesAfter;
    if e.EnforceNext? {
      EnforceAgrees(s, e, id);
    } else {
      IdleRestAgrees(s, e, id);
    }
  }

  lemma IdleRestAgrees(s: Cluster, e: Event, id: NodeId)
    requires Background(s) && PowerInv(s) && Remote(s.nodes, id) && AgreesNow(s, id) && PowerAssumed(s, e)
             && EnabledRest(s, e) && !e.EnforceNext?
    ensures id in NodesAfter(s, e) && AgreesAfter(s, e, id)
  {
    hide Background, WorkersAgree, LeadersAgree, Powered, IsSnapshot, RecoverOverWaking, CleanWrites;
    hide HealthyMeansPowered;
    hide NodesAfter, EnabledCaller, EnabledCtl;
    if e.EnforceLists? {
      ListedAwaits(s, e, id);
    }
    StatusAfter(s, e, id);
  }

  lemma StepWorkersAgree(s: Cluster, e: Event)
    requires Background(s) && PowerInv(s) && PowerAssumed(s, e) && RestoresPowered(s, e)
    ensures WorkersAgree(NodesAfter(s, e), RelaysAfter(s, e), CtlAfter(s, e), StartupAfter(s, e), CooledAfter(s, e))
  {
    forall id | Remote(NodesAfter(s, e), id)
      ensures Agrees(NodesAfter(s, e)[id].status, Powered(RelaysAfter(s, e), NodesAfter(s, e)[id]), CtlAfter(s, e),
                     StartupAfter(s, e), id in CooledAfter(s, e), id)
    {
      WorkerStep(s, e, id);
    }
  }

  lemma WorkerStep(s: Cluster, e: Event, id: NodeId)
    requires Background(s) && PowerInv(s) && PowerAssumed(s, e) && RestoresPowered(s, e) && Remote(NodesAfter(s, e), id)
    ensures Agrees(NodesAfter(s, e)[id].status, Powered(RelaysAfter(s, e), NodesAfter(s, e)[id]), CtlAfter(s, e),
                   StartupAfter(s, e), id in CooledAfter(s, e), id)
  {
    hide NodesAfter, RelaysAfter, CtlAfter, StartupAfter, CooledAfter, SameTopology, InvOf, Agree;
    hide DistinctOutlets, Spared;
    hide Powered, RecoverOverWaking, CleanWrites, EnforceFirst, HealthyMeansPowered, LeadersAgree, Opening, Agrees;
    hide OnAfter;
    hide EnabledCaller, EnabledCtl, EnabledRest;
    TopologyKept(s, e);
    SameTopologyAt(s.nodes, NodesAfter(s, e), id);
    SamePower(RelaysAfter(s, e), s.nodes[id], NodesAfter(s, e)[id]);
    RelaysMoveOne(s, e, id);
    assert AgreesNow(s, id);
    if EnabledCaller(s, e) {
      CallerAgrees(s, e, id);
    } else if EnabledCtl(s, e) {
      CtlAgrees(s, e, id);
    } else {
      RestAgrees(s, e, id);
    }
  }

  // ---------- whole runs ----------

  lemma StepOpening(s: Cluster, e: Event)
    requires Opening(s) && PowerAssumed(s, e) && !StartupAfter(s, e).Finished?
    ensures CallersAfter(s, e) == map[] && CtlAfter(s, e).Resting? && !StartupAfter(s, e).Prewarming?
    ensures StartupAfter(s, e).Enforcing? ==>
              forall n :: n in StartupAfter(s, e).todo ==> n.id in NodesAfter(s, e) && NodesAfter(s, e)[n.id].status == n.status
  {
    hide RecoverOverWaking, CleanWrites, HealthyMeansPowered, Succeeds, Check, Consider, NodesAfter, IsSnapshot;
    var t := StartupAfter(s, e);
    if t.Enforcing? {
      forall n | n in t.todo ensures n.id in NodesAfter(s, e) && NodesAfter(s, e)[n.id].status == n.status {
        OpeningCopy(s, e, n);
      }
    }
  }

  lemma OpeningCopy(s: Cluster, e: Event, n: Node)
    requires Opening(s) && PowerAssumed(s, e) && StartupAfter(s, e).Enforcing? && n in StartupAfter(s, e).todo
    ensures n.id in NodesAfter(s, e) && NodesAfter(s, e)[n.id].status == n.status
  {
    hide RecoverOverWaking, CleanWrites, HealthyMeansPowered, Succeeds, CommandOf;
    assert n.id in s.nodes && s.nodes[n.id].status == n.status;
    NothingWritten(s, e);
    StatusAfter(s, e, n.id);
    hide *;
  }

  lemma NothingWritten(s: Cluster, e: Event)
    requires Opening(s) && PowerAssumed(s, e) && !s.startup.Finished?
    ensures Entered(s, e).None? && StatusWritten(s, e).None?
  {
    hide RecoverOverWaking, CleanWrites, HealthyMeansPowered, Succeeds, CommandOf, Enabled;
  }

  ghost predicate PoweredStart(s: Cluster)
  {
    && LocalsActive(s.nodes) && DistinctOutlets(s.nodes, s.relays.defaultUid)
    && forall id :: Remote(s.nodes, id) && s.nodes[id].status == Active ==> Powered(s.relays, s.nodes[id])
  }

  ghost predicate Sound(s: Cluster)
  {
    Background(s) && PowerInv(s)
  }

  lemma StartSound(s: Cluster)
    requires Init(s) && PoweredStart(s)
    ensures Sound(s)
  {
    InitKeeps(s);
  }

  lemma DistinctKept(nodes: Nodes, nodes': Nodes, defaultUid: string)
    requires SameTopology(nodes, nodes') && DistinctOutlets(nodes, defaultUid)
    ensures DistinctOutlets(nodes', defaultUid)
  {
    forall a, b | Remote(nodes', a) && Remote(nodes', b) && a != b
      ensures OutletOf(nodes'[a], defaultUid) != OutletOf(nodes'[b], defaultUid)
    {
      SameTopologyAt(nodes, nodes', a);
      SameTopologyAt(nodes, nodes', b);
      hide SameTopology;
      assert Remote(nodes, a) && Remote(nodes, b);
    }
  }

  /** The relay controller keeps agreeing with its hardware, and its default relay. */
  lemma RelaysKept(s: Cluster, e: Event)
    requires Enabled(s, e) && CleanWrites(s, e) && Agree(s.relays)
    ensures Agree(RelaysAfter(s, e)) && RelaysAfter(s, e).defaultUid == s.relays.defaultUid
  {
    hide Enabled, CommandOf;
    if CommandOf(s, e).Some? {
      var w := CommandOf(s, e).value;
      AgreeExactly(s.relays, Command(w.node.relayUid, w.node.channel, w.on, w.io));
      hide Agree;
    }
  }

  lemma StepBackground(s: Cluster, e: Event, s': Cluster)
    requires Background(s) && Regular(s, e) && s'.nodes == NodesAfter(s, e) && s'.callers == CallersAfter(s, e)
    requires s'.ctl == CtlAfter(s, e) && s'.startup == StartupAfter(s, e) && s'.relays == RelaysAfter(s, e)
    ensures Background(s')
  {
    hide NodesAfter, CallersAfter, CtlAfter, StartupAfter, RelaysAfter, InvOf, Spared, Agree;
    hide DistinctOutlets, SameTopology;
    hide RecoverOverWaking, CleanWrites, Enabled;
    StepKeeps(s, e);
    StepSpared(s, e);
    RelaysKept(s, e);
    TopologyKept(s, e);
    DistinctKept(s.nodes, s'.nodes, s.relays.defaultUid);
  }

  lemma StepSound(s: Cluster, e: Event, s': Cluster)
    requires Sound(s) && PowerAssumed(s, e) && RestoresPowered(s, e)
    requires s'.nodes == NodesAfter(s, e) && s'.callers == CallersAfter(s, e)
    requires s'.ctl == CtlAfter(s, e) && s'.startup == StartupAfter(s, e) && s'.relays == RelaysAfter(s, e)
    requires s'.cooled == CooledAfter(s, e)
    ensures Sound(s')
  {
    hide NodesAfter, CallersAfter, CtlAfter, StartupAfter, RelaysAfter, CooledAfter, Background, WorkersAgree;
    hide LeadersAgree, Regular, HealthyMeansPowered, EnforceFirst, RestoresPowered;
    StepBackground(s, e, s');
    StepWorkersAgree(s, e);
    StepLeadersAgree(s, e);
    if !s'.startup.Finished? {
      StepOpening(s, e);
    }
  }

  lemma {:induction false} SoundHolds(r: Run, n: nat)
    requires IsRun(r) && n < |r.states| && PoweredStart(r.states[0])
    requires forall i :: 0 <= i < n ==> PowerAssumed(r.states[i], r.events[i]) && RestoresPowered(r.states[i], r.events[i])
    ensures Sound(r.states[n])
  {
    if n == 0 {
      StartSound(r.states[0]);
    } else {
      SoundHolds(r, n - 1);
      RunStep(r, n - 1);
      hide IsRun, Enabled, Sound, PowerAssumed, RestoresPowered, NodesAfter, CallersAfter, CtlAfter, StartupAfter;
      hide RelaysAfter, CooledAfter, PoweredStart;
      StepSound(r.states[n - 1], r.events[n - 1], r.states[n]);
    }
  }

  /**
   Recorded state agrees with physical power: an active worker not in the middle of being deactivated has
   its outlet closed, and a sleeping worker has it open unless it last went to sleep through the cooldown
   branch of RecoverDead.
   */
  predicate MatchesUnlessCooled(s: Cluster)
  {
    forall id | id in s.nodes && !s.nodes[id].local ::
      && (s.nodes[id].status == Active && !MidDeactivation(s.ctl, id) ==> On(s, id))
      && (s.nodes[id].status == Sleeping && id !in s.cooled ==> !On(s, id))
  }

  lemma SoundMatches(s: Cluster)
    requires Sound(s) && s.startup.Finished?
    ensures MatchesUnlessCooled(s)
  {
    forall id | id in s.nodes && !s.nodes[id].local
      ensures s.nodes[id].status == Active && !MidDeactivation(s.ctl, id) ==> On(s, id)
      ensures s.nodes[id].status == Sleeping && id !in s.cooled ==> !On(s, id)
    {
      assert Remote(s.nodes, id) && AgreesNow(s, id);
      hide Background, LeadersAgree, Opening, Powered;
    }
  }

  /** A recovery write that restores an unpowered worker leaves it active with its outlet open. */
  lemma UnpoweredRestoreBreaks(s: Cluster, e: Event, s': Cluster)
    requires Sound(s) && PowerAssumed(s, e) && !RestoresPowered(s, e)
    requires s'.nodes == NodesAfter(s, e) && s'.relays == RelaysAfter(s, e) && s'.ctl == CtlAfter(s, e)
    requires s'.startup == StartupAfter(s, e)
    ensures s'.startup.Finished? && !MatchesUnlessCooled(s')
  {
    var id := s.ctl.id;
    CtlFrame(s, e);
    StatusAfter(s, e, id);
    TopologyKept(s, e);
    SameTopologyAt(s.nodes, s'.nodes, id);
    SamePower(s.relays, s.nodes[id], s'.nodes[id]);
    hide NodesAfter, SameTopology, Powered, InvOf, Spared, Agree, DistinctOutlets, PowerInv, IsSnapshot, EnabledCaller;
    hide CleanWrites, HealthyMeansPowered, RecoverOverWaking;
    assert s'.nodes[id].status == Active && !On(s', id) && !MidDeactivation(s'.ctl, id);
  }

  /**
   Over whole runs in which single flight holds, failed writes are clean, only powered nodes answer and
   EnforceSleeping comes first: recorded state agrees with physical power in every state after startup exactly
   when every recovery write that restores a worker as active finds its outlet closed.
   */
  lemma MatchesUnlessCooledExactly(r: Run)
    requires IsRun(r) && PoweredStart(r.states[0])
    requires forall i :: 0 <= i < |r.events| ==> PowerAssumed(r.states[i], r.events[i])
    ensures (forall n :: 0 <= n < |r.states| && r.states[n].startup.Finished? ==> MatchesUnlessCooled(r.states[n]))
       <==> (forall i :: 0 <= i < |r.events| ==> RestoresPowered(r.states[i], r.events[i]))
  {
    hide PowerAssumed, RestoresPowered, PoweredStart, MatchesUnlessCooled, Enabled, Step, Init, Sound;
    if forall i :: 0 <= i < |r.events| ==> RestoresPowered(r.states[i], r.events[i]) {
      forall n | 0 <= n < |r.states| && r.states[n].startup.Finished? ensures MatchesUnlessCooled(r.states[n]) {
        SoundHolds(r, n);
        SoundMatches(r.states[n]);
      }
    } else {
      var k := FirstUnpowered(r);
      SoundHolds(r, k);
      RunStep(r, k);
      hide IsRun, NodesAfter, RelaysAfter, CtlAfter, StartupAfter;
      UnpoweredRestoreBreaks(r.states[k], r.events[k], r.states[k + 1]);
    }
  }

  lemma FirstUnpowered(r: Run) returns (k: nat)
    requires |r.states| == |r.events| + 1
    requires exists i :: 0 <= i < |r.events| && !RestoresPowered(r.states[i], r.events[i])
    ensures k < |r.events| && !RestoresPowered(r.states[k], r.events[k])
    ensures forall i :: 0 <= i < k ==> RestoresPowered(r.states[i], r.events[i])
  {
    hide RestoresPowered;
    k := 0;
    while RestoresPowered(r.states[k], r.events[k])
      invariant k < |r.events|
      invariant forall i :: 0 <= i < k ==> RestoresPowered(r.states[i], r.events[i])
      invariant exists i :: k <= i < |r.events| && !RestoresPowered(r.states[i], r.events[i])
      decreases |r.events| - k
    {
      k := k + 1;
    }
  }

  // ---------- a condition on callers that is enough ----------

  /** The hypotheses with a condition on callers instead: no wake starts on a node recovery still has pending. */
  predicate NoPendingEntry(s: Cluster, e: Event)
  {
    Enabled(s, e) && CleanWrites(s, e) && HealthyMeansPowered(s, e) && EnforceFirst(s, e) && !EntersPending(s, e)
  }

  /** A worker about to be restored as active is still powered since it answered its health check. */
  ghost predicate RestoringPowered(s: Cluster)
  {
    s.ctl.Restoring? && s.ctl.to == Active && Remote(s.nodes, s.ctl.id) ==> On(s, s.ctl.id)
  }

  lemma FreshIsPowerAssumed(s: Cluster, e: Event)
    requires Inv(s) && RecoveryFresh(s.nodes, s.ctl) && RestoringPowered(s) && NoPendingEntry(s, e)
    ensures PowerAssumed(s, e) && RestoresPowered(s, e) && RecoveryFresh(NodesAfter(s, e), CtlAfter(s, e))
  {
    hide NodesAfter, CtlAfter, InvOf, RecoveryFresh, EntersPending, CleanWrites, HealthyMeansPowered, EnforceFirst;
    hide Enabled, Powered, RecoverOverWaking, FreshRecovery, StaleCooldownAtFloor;
    StepRecoveryFresh(s, e);
    FreshIsSafe(s, e);
  }

  /** Nothing but its own wake moves the outlet of a node, and a node being restored is dead, not being woken. */
  lemma StepRestoringPowered(s: Cluster, e: Event, s': Cluster)
    requires Sound(s) && RecoveryFresh(s.nodes, s.ctl) && RestoringPowered(s) && PowerAssumed(s, e)
    requires s'.nodes == NodesAfter(s, e) && s'.relays == RelaysAfter(s, e) && s'.ctl == CtlAfter(s, e)
    ensures RestoringPowered(s')
  {
    hide NodesAfter, RelaysAfter, CtlAfter, SameTopology, InvOf, Spared, Agree, DistinctOutlets, PowerInv, Powered;
    hide Enabled, CleanWrites, RecoverOverWaking, HealthyMeansPowered, EnforceFirst, RecoveryFresh, OnAfter;
    TopologyKept(s, e);
    if s'.ctl.Restoring? && s'.ctl.to == Active && Remote(s'.nodes, s'.ctl.id) {
      var id := s'.ctl.id;
      SameTopologyAt(s.nodes, s'.nodes, id);
      SamePower(s'.relays, s.nodes[id], s'.nodes[id]);
      RelaysMoveOne(s, e, id);
      if e.CtlChecks? {
        CheckedIsPowered(s, e);
      } else {
        RestoringStays(s, e);
      }
    }
  }

  lemma CheckedIsPowered(s: Cluster, e: Event)
    requires PowerAssumed(s, e) && e.CtlChecks? && CtlAfter(s, e).Restoring? && CtlAfter(s, e).to == Active
    requires CtlAfter(s, e).id in s.nodes
    ensures OnAfter(s, e, CtlAfter(s, e).id)
  {
    hide Powered, IsSnapshot, CleanWrites, EnforceFirst, RecoverOverWaking;
  }

  lemma RestoringUnswitched(s: Cluster, e: Event)
    requires Inv(s) && Spared(s.nodes, s.callers, s.ctl, s.startup) && Opening(s) && Enabled(s, e)
    requires s.ctl.Restoring? && s.ctl.id in s.nodes && s.nodes[s.ctl.id].status == Dead
    ensures CommandOf(s, e).Some? ==> CommandOf(s, e).value.node.id != s.ctl.id
  {
    hide IsSnapshot, InvOf, LocalsActive, WakesRemote, CtlRemote, StartupRemote;
    if e.PowerOnReturns? || e.PowerOffReturns? {
      InFlightWaking(s, e.g);
    }
  }

  lemma RestoringStays(s: Cluster, e: Event)
    requires Sound(s) && RecoveryFresh(s.nodes, s.ctl) && PowerAssumed(s, e) && !e.CtlChecks?
             && CtlAfter(s, e).Restoring?
    ensures CtlAfter(s, e) == s.ctl && s.ctl.id in s.nodes && OnAfter(s, e, s.ctl.id) == On(s, s.ctl.id)
  {
    OnlyChecksDecide(s, e);
    hide CtlAfter, DeadCopies, DistinctIds, NotAmong, InvOf, Spared, Agree, DistinctOutlets, PowerInv, Powered;
    hide CommandOf;
    hide Enabled, CleanWrites, RecoverOverWaking, HealthyMeansPowered, EnforceFirst;
    RestoringUnswitched(s, e);
  }

  lemma {:induction false} PendingHolds(r: Run, n: nat)
    requires IsRun(r) && n < |r.states| && PoweredStart(r.states[0])
    requires forall i :: 0 <= i < n ==> NoPendingEntry(r.states[i], r.events[i])
    ensures Sound(r.states[n]) && RecoveryFresh(r.states[n].nodes, r.states[n].ctl) && RestoringPowered(r.states[n])
  {
    if n == 0 {
      StartSound(r.states[0]);
    } else {
      PendingHolds(r, n - 1);
      RunStep(r, n - 1);
      hide IsRun, Enabled, NoPendingEntry, NodesAfter, CallersAfter, CtlAfter, StartupAfter, RelaysAfter, CooledAfter;
      hide PoweredStart, RecoveryFresh, RestoringPowered, PowerAssumed, RestoresPowered, PowerInv, InvOf, Spared, Agree;
      hide DistinctOutlets;
      var s, e := r.states[n - 1], r.events[n - 1];
      FreshIsPowerAssumed(s, e);
      StepSound(s, e, r.states[n]);
      StepRestoringPowered(s, e, r.states[n]);
    }
  }

  /**
   If no caller starts a wake of a dead node that a recovery pass still has pending, the agreement holds
   throughout.
   */
  lemma RecordedStateMatchesPower(r: Run, n: nat)
    requires IsRun(r) && n < |r.states| && PoweredStart(r.states[0])
    requires forall i :: 0 <= i < n ==> NoPendingEntry(r.states[i], r.events[i])
    requires r.states[n].startup.Finished?
    ensures MatchesUnlessCooled(r.states[n])
  {
    hide PoweredStart, NoPendingEntry, Sound, IsRun, MatchesUnlessCooled;
    PendingHolds(r, n);
    SoundMatches(r.states[n]);
  }
}
