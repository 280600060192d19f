/**
 Why a wake starts from nothing: conditions on whole runs under which no worker is ever recorded active over
 functions left from before, so that the active workers match the store throughout.
 */
module ColdBoot {
  import opened Types
  import opened RegistrySpec
  import opened Protocol
  import opened Frames
  import opened SingleFlight
  import opened Floor
  import opened LeaderNode
  import opened PowerState
  import opened Deployment

  /** The node will boot with nothing deployed, or has nothing deployed. */
  predicate Blank(on: bool, held: Functions)
  {
    !on || held == map[]
  }

  // ---------- every wake starts cold ----------

  /** A caller that has to wake a worker finds it blank. */
  predicate EntersBlank(s: Cluster, e: Event)
    requires Enabled(s, e)
  {
    Entered(s, e).Some? ==>
      var id := Entered(s, e).value;
      MustWake(s.nodes, id) && Remote(s.nodes, id) && id in s.held ==> Blank(On(s, id), s.held[id])
  }

  /** A push reaches no worker that is not active. */
  predicate PushSparesOthers(s: Cluster, e: Event)
  {
    e.PushReturns? && e.id in s.nodes && s.nodes[e.id].status != Active ==> !e.landed
  }

  /** RecoverDead does not take its healthy shortcut. */
  predicate NoShortcut(s: Cluster, e: Event)
  {
    e.CtlRestores? && s.ctl.Restoring? ==> s.ctl.to != Active
  }

  ghost predicate ColdAssumed(s: Cluster, e: Event)
  {
    UpdateAssumed(s, e) && EntersBlank(s, e) && PushSparesOthers(s, e) && NoShortcut(s, e)
  }

  /** What a node in the middle of a wake holds: nothing until the listing, then functions of the store only. */
  predicate LeaderFresh(pc: Pc, on: bool, held: Functions, store: Functions)
  {
    match pc
    case PoweringOn => Blank(on, held)
    case Polling(_) => held == map[]
    case Listing => held == map[]
    case Deploying(todo, _) => held.Keys <= store.Keys && todo.Keys <= store.Keys
    case Recording(status, _) => status == Active ==> held.Keys <= store.Keys
    case _ => true
  }

  ghost predicate LeadersFresh(s: Cluster)
  {
    forall g :: g in s.callers && Remote(s.nodes, s.callers[g].node) && s.callers[g].node in s.held ==>
      LeaderFresh(s.callers[g].pc, On(s, s.callers[g].node), s.held[s.callers[g].node], s.store)
  }

  lemma OwnQuietFresh(s: Cluster, e: Event, on: bool, held: Functions)
    requires EnabledCaller(s, e) && !e.Enter? && !e.PowerOnReturns? && !e.PowerOffReturns?
    requires LeaderFresh(s.callers[e.g].pc, on, held, s.store)
    ensures var held' := if e.DeployReturns? && (e.ok || e.landed) then held[e.name := s.callers[e.g].pc.todo[e.name]] else held;
            LeaderFresh(PcAfter(s, e), on, held', s.store)
  {
    hide Succeeds;
  }

  lemma OwnCommandFresh(s: Cluster, e: Event, on: bool, held: Functions)
    requires Enabled(s, e) && EnabledCaller(s, e) && (e.PowerOnReturns? || e.PowerOffReturns?)
    requires OwnIds(s.nodes) && on == On(s, s.callers[e.g].node) && LeaderFresh(s.callers[e.g].pc, on, held, s.store)
    ensures var on' := OnAfter(s, e, s.callers[e.g].node);
            LeaderFresh(PcAfter(s, e), on', if !on && on' then map[] else held, s.store)
  {
    assert s.nodes[s.callers[e.g].node].id == s.callers[e.g].node;
    hide Issue, Powered, OwnIds, EnabledCtl, EnabledRest;
  }

  lemma IssuesCommand(s: Cluster, e: Event)
    requires Enabled(s, e) && (e.PowerOnReturns? || e.PowerOffReturns?)
    ensures CommandOf(s, e).Some?
  {
  }

  lemma OwnCommandKeeps(s: Cluster, e: Event)
    requires Background(s) && Regular(s, e) && EnabledCaller(s, e) && !e.Enter?
             && (e.PowerOnReturns? || e.PowerOffReturns?)
    requires Remote(s.nodes, s.callers[e.g].node) && s.callers[e.g].node in s.held
    requires LeaderFresh(s.callers[e.g].pc, On(s, s.callers[e.g].node), s.held[s.callers[e.g].node], s.store)
    ensures s.callers[e.g].node in HeldAfter(s, e)
    ensures LeaderFresh(PcAfter(s, e), OnAfter(s, e, s.callers[e.g].node), HeldAfter(s, e)[s.callers[e.g].node], s.store)
  {
    hide LeaderFresh, PcAfter, HeldAfter, InvOf, Relay.Agree, DistinctOutlets, CleanWrites, RecoverOverWaking;
    hide Powered, Enabled, EnabledCtl, EnabledRest, OwnIds, OnAfter, Apply;
    var id := s.callers[e.g].node;
    IssuesCommand(s, e);
    HeldOf(s, e, id);
    OwnCommandFresh(s, e, On(s, id), s.held[id]);
  }

  lemma OwnQuietOn(s: Cluster, e: Event)
    requires EnabledCaller(s, e) && !e.PowerOnReturns? && !e.PowerOffReturns?
    requires e.g in s.callers && s.callers[e.g].node in s.nodes
    ensures Enabled(s, e) && OnAfter(s, e, s.callers[e.g].node) == On(s, s.callers[e.g].node)
  {
    CallerCommands(s, e);
    hide CommandOf, EnabledCaller, EnabledCtl, EnabledRest, Powered;
  }

  lemma OwnQuietKeeps(s: Cluster, e: Event)
    requires EnabledCaller(s, e) && !e.Enter? && !e.PowerOnReturns? && !e.PowerOffReturns?
    requires e.g in s.callers && s.callers[e.g].node in s.held && s.callers[e.g].node in s.nodes
    requires LeaderFresh(s.callers[e.g].pc, On(s, s.callers[e.g].node), s.held[s.callers[e.g].node], s.store)
    ensures Enabled(s, e) && s.callers[e.g].node in HeldAfter(s, e)
    ensures LeaderFresh(PcAfter(s, e), OnAfter(s, e, s.callers[e.g].node), HeldAfter(s, e)[s.callers[e.g].node], s.store)
  {
    OwnQuietOn(s, e);
    if e.DeployReturns? {
      DeployHeld(s, e);
    } else {
      OnlyDeploysHold(s, e);
    }
    hide LeaderFresh, PcAfter, HeldAfter, Enabled, On, OnAfter;
    OwnQuietFresh(s, e, On(s, s.callers[e.g].node), s.held[s.callers[e.g].node]);
  }

  /** A leader's own step. */
  lemma OwnFresh(s: Cluster, e: Event)
    requires Background(s) && Regular(s, e) && EnabledCaller(s, e) && !e.Enter?
    requires Remote(s.nodes, s.callers[e.g].node) && s.callers[e.g].node in s.held
    requires LeaderFresh(s.callers[e.g].pc, On(s, s.callers[e.g].node), s.held[s.callers[e.g].node], s.store)
    ensures s.callers[e.g].node in HeldAfter(s, e)
    ensures LeaderFresh(PcAfter(s, e), OnAfter(s, e, s.callers[e.g].node), HeldAfter(s, e)[s.callers[e.g].node], s.store)
  {
    hide InvOf, Spared, Relay.Agree, DistinctOutlets, CleanWrites, RecoverOverWaking, LeaderFresh, PcAfter, HeldAfter;
    hide Enabled, On, OnAfter;
    if e.PowerOnReturns? || e.PowerOffReturns? {
      OwnCommandKeeps(s, e);
    } else {
      OwnQuietKeeps(s, e);
    }
  }

  /** What other events do to a node that is being woken: at most open its outlet. */
  lemma WakingUndisturbed(s: Cluster, e: Event, g: Gid)
    requires Background(s) && Regular(s, e) && PushSparesOthers(s, e) && g in s.callers && InFlight(s.callers[g].pc)
    requires !(EnabledCaller(s, e) && e.g == g) && Remote(s.nodes, s.callers[g].node) && s.callers[g].node in s.held
    ensures s.callers[g].node in HeldAfter(s, e) && HeldAfter(s, e)[s.callers[g].node] == s.held[s.callers[g].node]
    ensures OnAfter(s, e, s.callers[g].node) ==> On(s, s.callers[g].node)
  {
    hide HeldAfter, InvOf, Relay.Agree, DistinctOutlets, CleanWrites, RecoverOverWaking, LocalsActive, WakesRemote;
    hide Apply;
    hide CtlRemote, StartupRemote, OwnIds, Powered, Enabled;
    var id := s.callers[g].node;
    InFlightWaking(s, g);
    HeldOf(s, e, id);
    DeployIsInFlight(s, e);
    if CommandOf(s, e).Some? {
      if CommandOf(s, e).value.on {
        PowerOnIsLeaders(s, e);
        if s.callers[e.g].node == id {
          OnlyWaker(s, e.g, g);
        }
      }
      OthersKeepHeld(s, e, id);
    } else if e.DeployReturns? && s.callers[e.g].node == id {
      OnlyWaker(s, e.g, g);
    }
  }

  lemma LessPowerIsFresh(pc: Pc, on: bool, on': bool, held: Functions, store: Functions, store': Functions)
    requires LeaderFresh(pc, on, held, store) && (on' ==> on) && (InWindow(pc) ==> store' == store)
    ensures LeaderFresh(pc, on', held, store')
  {
  }

  /** A goroutine that has just entered. */
  lemma EnteredFresh(s: Cluster, e: Event)
    requires Enabled(s, e) && EntersBlank(s, e) && Entered(s, e).Some? && Remote(s.nodes, Entered(s, e).value)
    requires Entered(s, e).value in s.held
    ensures Entered(s, e).value in HeldAfter(s, e)
    ensures LeaderFresh(Entering(s, Entered(s, e).value).pc, OnAfter(s, e, Entered(s, e).value),
                        HeldAfter(s, e)[Entered(s, e).value], StoreAfter(s, e))
  {
    EntryIsQuiet(s, e);
    hide HeldAfter, StoreAfter, CommandOf, Entered, Powered, Enabled;
  }

  lemma EntryIsQuiet(s: Cluster, e: Event)
    requires Enabled(s, e) && Entered(s, e).Some?
    ensures CommandOf(s, e).None? && HeldAfter(s, e) == s.held && StoreAfter(s, e) == s.store
  {
  }

  lemma PastFresh(pc: Pc, on: bool, held: Functions, store: Functions)
    requires !InFlight(pc)
    ensures LeaderFresh(pc, on, held, store)
  {
  }

  lemma LeaderStepFresh(s: Cluster, e: Event, g: Gid)
    requires Background(s) && LeadersFresh(s) && ColdAssumed(s, e) && g in CallersAfter(s, e)
             && s.held.Keys == s.nodes.Keys
    requires Remote(NodesAfter(s, e), CallersAfter(s, e)[g].node)
    ensures CallersAfter(s, e)[g].node in s.nodes && CallersAfter(s, e)[g].node in HeldAfter(s, e)
    ensures LeaderFresh(CallersAfter(s, e)[g].pc, OnAfter(s, e, CallersAfter(s, e)[g].node),
                        HeldAfter(s, e)[CallersAfter(s, e)[g].node], StoreAfter(s, e))
  {
    hide NodesAfter, CallersAfter, HeldAfter, StoreAfter, PcAfter, HeardAfter, SameTopology, Background, OnAfter;
    hide Powered;
    hide LeaderFresh, CleanWrites, RecoverOverWaking, PushReachesActive, Entering, EnabledCtl, EnabledRest, Apply;
    hide EntersBlank, PushSparesOthers, NoShortcut, OnePerName;
    TopologyKept(s, e);
    CallerAfter(s, e, g);
    var id := CallersAfter(s, e)[g].node;
    SameTopologyAt(s.nodes, NodesAfter(s, e), id);
    StoreMoves(s, e);
    HeldKeys(s, e);
    if Entered(s, e).Some? && g == e.g {
      EnteringNode(s, Entered(s, e).value);
      EnteredFresh(s, e);
    } else if EnabledCaller(s, e) && g == e.g {
      NotEntering(s, e);
      OwnFresh(s, e);
    } else if InFlight(s.callers[g].pc) {
      WakingUndisturbed(s, e, g);
      LessPowerIsFresh(s.callers[g].pc, On(s, id), OnAfter(s, e, id), s.held[id], s.store, StoreAfter(s, e));
    } else {
      PastFresh(s.callers[g].pc, OnAfter(s, e, id), HeldAfter(s, e)[id], StoreAfter(s, e));
    }
  }

  lemma EnteringNode(s: Cluster, id: NodeId)
    ensures Entering(s, id).node == id
  {
  }

  /** The next state's outlet is what the event left. */
  lemma OnIsOnAfter(s: Cluster, e: Event, s': Cluster, id: NodeId)
    requires Background(s) && Regular(s, e) && s' == Step(s, e) && id in s.nodes && Remote(s'.nodes, id)
    ensures On(s', id) == OnAfter(s, e, id)
  {
    hide NodesAfter, RelaysAfter, SameTopology, InvOf, Spared, Relay.Agree, DistinctOutlets, OnAfter, Powered;
    hide CleanWrites, RecoverOverWaking, Enabled;
    TopologyKept(s, e);
    SameTopologyAt(s.nodes, s'.nodes, id);
    RelaysMoveOne(s, e, id);
    SamePower(s'.relays, s.nodes[id], s'.nodes[id]);
  }

  lemma StepLeadersFresh(s: Cluster, e: Event, s': Cluster)
    requires Background(s) && LeadersFresh(s) && ColdAssumed(s, e) && s.held.Keys == s.nodes.Keys && s' == Step(s, e)
    ensures LeadersFresh(s') && s'.held.Keys == s'.nodes.Keys
  {
    hide NodesAfter, CallersAfter, RelaysAfter, HeldAfter, StoreAfter, Background, LeaderFresh, OnAfter, Powered;
    hide Enabled;
    hide SameNode, CleanWrites, RecoverOverWaking, NoOverlap, OnePerName, PushReachesActive, EntersBlank;
    hide PushSparesOthers;
    HeldKeys(s, e);
    TopologyKept(s, e);
    forall g | g in s'.callers && Remote(s'.nodes, s'.callers[g].node) && s'.callers[g].node in s'.held
      ensures LeaderFresh(s'.callers[g].pc, On(s', s'.callers[g].node), s'.held[s'.callers[g].node], s'.store)
    {
      LeaderStepFresh(s, e, g);
      OnIsOnAfter(s, e, s', s'.callers[g].node);
    }
  }

  lemma FreshActivates(s: Cluster, e: Event)
    requires LeadersFresh(s) && ColdAssumed(s, e)
    ensures ActivatesCurrent(s, e)
  {
    hide Regular, NoOverlap, OnePerName, PushReachesActive, EntersBlank, Powered;
  }

  lemma {:induction false} FreshHolds(r: Run, n: nat)
    requires IsRun(r) && n < |r.states| && DeployStart(r.states[0])
    requires forall i :: 0 <= i < n ==> ColdAssumed(r.states[i], r.events[i])
    ensures Background(r.states[n]) && LeadersFresh(r.states[n]) && r.states[n].held.Keys == r.states[n].nodes.Keys
  {
    if n == 0 {
      StartBackground(r.states[0]);
    } else {
      FreshHolds(r, n - 1);
      RunStep(r, n - 1);
      var s, e := r.states[n - 1], r.events[n - 1];
      assert Regular(s, e);
      hide *;
      StepBackground(s, e, r.states[n]);
      StepLeadersFresh(s, e, r.states[n]);
    }
  }

  /**
   If every wake starts cold, pushes spare the other workers and the shortcut is not taken, the workers match the
   store throughout.
   */
  lemma ColdWakesMatchStore(r: Run, n: nat)
    requires IsRun(r) && n < |r.states| && DeployStart(r.states[0])
    requires forall i :: 0 <= i < n ==> ColdAssumed(r.states[i], r.events[i])
    ensures StoreMatches(r.states[n])
  {
    assert |r.states| == |r.events| + 1;
    forall i | 0 <= i < n ensures UpdateAssumed(r.states[i], r.events[i]) && ActivatesCurrent(r.states[i], r.events[i]) {
      FreshHolds(r, i);
      hide IsRun, DeployStart, Background, LeadersFresh, EntersBlank, PushSparesOthers, NoShortcut, UpdateAssumed;
      FreshActivates(r.states[i], r.events[i]);
    }
    hide IsRun, DeployStart, Background, ColdAssumed, UpdateAssumed, ActivatesCurrent;
    DeployHolds(r, n);
  }

  // ---------- power management makes wakes cold ----------

  /** The power-off after a failed deploy works. */
  predicate FailedDeployPowersOff(s: Cluster, e: Event)
    requires Enabled(s, e)
  {
    e.PowerOffReturns? ==> Succeeds(s, e)
  }

  ghost predicate PowerCycled(s: Cluster, e: Event)
  {
    && UpdateAssumed(s, e) && HealthyMeansPowered(s, e) && EnforceFirst(s, e) && FreshRecovery(s, e)
    && NoShortcut(s, e) && FailedDeployPowersOff(s, e) && PushSparesOthers(s, e)
  }

  /** A worker that is dead, or asleep after a cooldown, is blank; `Sound` has the others asleep powered off. */
  predicate WorkerCold(status: Status, on: bool, held: Functions, cooled: bool)
  {
    status != Active && status != Waking && (status == Sleeping ==> cooled) ==> Blank(on, held)
  }

  ghost predicate WorkersCold(s: Cluster)
  {
    forall id :: Remote(s.nodes, id) && id in s.held ==> WorkerCold(s.nodes[id].status, On(s, id), s.held[id], id in s.cooled)
  }

  /** A wake that does not end well leaves its node blank. */
  predicate EndsCold(pc: Pc, on: bool, held: Functions)
  {
    pc.Recording? && pc.status != Active ==> Blank(on, held)
  }

  ghost predicate LeadersCold(s: Cluster)
  {
    forall g :: g in s.callers && Remote(s.nodes, s.callers[g].node) && s.callers[g].node in s.held ==>
      EndsCold(s.callers[g].pc, On(s, s.callers[g].node), s.held[s.callers[g].node])
  }

  /** The entry of a caller finds its worker blank: asleep and powered off, or cold. */
  lemma EntryIsCold(s: Cluster, e: Event)
    requires Sound(s) && WorkersCold(s) && PowerCycled(s, e)
    ensures EntersBlank(s, e)
  {
    if Entered(s, e).Some? && MustWake(s.nodes, Entered(s, e).value) && Remote(s.nodes, Entered(s, e).value)
       && Entered(s, e).value in s.held {
      var id := Entered(s, e).value;
      assert AgreesNow(s, id);
      assert WorkerCold(s.nodes[id].status, On(s, id), s.held[id], id in s.cooled);
      hide Background, LeadersAgree, WorkersAgree, Powered, UpdateAssumed, HealthyMeansPowered, IsSnapshot, NoShortcut;
      hide Succeeds;
    }
  }

  lemma CommandEndsCold(s: Cluster, e: Event, on: bool, held: Functions)
    requires Enabled(s, e) && EnabledCaller(s, e) && (e.PowerOnReturns? || e.PowerOffReturns?)
             && FailedDeployPowersOff(s, e)
    requires s.nodes[s.callers[e.g].node].id == s.callers[e.g].node && on == On(s, s.callers[e.g].node)
    requires LeaderFresh(s.callers[e.g].pc, on, held, s.store) && EndsCold(s.callers[e.g].pc, on, held)
    ensures var on' := OnAfter(s, e, s.callers[e.g].node);
            EndsCold(PcAfter(s, e), on', if !on && on' then map[] else held)
  {
    hide Issue, Powered, EnabledCtl, EnabledRest;
  }

  /** How a wake comes to end badly: no power, no answer, or powered off again. */
  lemma EndingsAreCold(s: Cluster, e: Event, on: bool, held: Functions)
    requires Enabled(s, e) && EnabledCaller(s, e) && !e.Enter? && FailedDeployPowersOff(s, e) && OwnIds(s.nodes)
    requires s.callers[e.g].node in s.nodes && on == On(s, s.callers[e.g].node)
    requires LeaderFresh(s.callers[e.g].pc, on, held, s.store) && EndsCold(s.callers[e.g].pc, on, held)
             && !e.DeployReturns?
    ensures var on' := OnAfter(s, e, s.callers[e.g].node);
            EndsCold(PcAfter(s, e), on', if !on && on' then map[] else held)
  {
    NamesItself(s.nodes, s.callers[e.g].node);
    hide Issue, Powered, OwnIds, EnabledCtl, EnabledRest, OwnsRecord, AwaitsRecord, LeaderFresh;
    if e.PowerOnReturns? || e.PowerOffReturns? {
      CommandEndsCold(s, e, on, held);
    } else {
      OwnQuietOn(s, e);
      hide CommandOf, On, OnAfter, Succeeds;
    }
  }

  lemma NamesItself(nodes: Nodes, id: NodeId)
    requires OwnIds(nodes) && id in nodes
    ensures nodes[id].id == id
  {
  }

  lemma DeployGoesOn(s: Cluster, e: Event)
    requires EnabledCaller(s, e) && e.DeployReturns?
    ensures PcAfter(s, e).Deploying?
  {
  }

  lemma OwnEndsCold(s: Cluster, e: Event)
    requires Background(s) && Regular(s, e) && EnabledCaller(s, e) && !e.Enter? && FailedDeployPowersOff(s, e)
    requires Remote(s.nodes, s.callers[e.g].node) && s.callers[e.g].node in s.held
    requires LeaderFresh(s.callers[e.g].pc, On(s, s.callers[e.g].node), s.held[s.callers[e.g].node], s.store)
    requires EndsCold(s.callers[e.g].pc, On(s, s.callers[e.g].node), s.held[s.callers[e.g].node])
    ensures s.callers[e.g].node in HeldAfter(s, e)
    ensures EndsCold(PcAfter(s, e), OnAfter(s, e, s.callers[e.g].node), HeldAfter(s, e)[s.callers[e.g].node])
  {
    hide LeaderFresh, PcAfter, HeldAfter, InvOf, Relay.Agree, DistinctOutlets, LocalsActive, WakesRemote, CtlRemote;
    hide StartupRemote, CleanWrites, RecoverOverWaking, Powered, Enabled, OwnIds, FailedDeployPowersOff, OnAfter;
    var id := s.callers[e.g].node;
    HeldOf(s, e, id);
    CallerFrame(s, e);
    if e.DeployReturns? {
      DeployGoesOn(s, e);
    } else {
      EndingsAreCold(s, e, On(s, id), s.held[id]);
      if e.PowerOnReturns? || e.PowerOffReturns? {
        IssuesCommand(s, e);
      } else {
        QuietOutlet(s, e, id);
      }
    }
  }

  lemma QuietOutlet(s: Cluster, e: Event, id: NodeId)
    requires Enabled(s, e) && id in s.nodes && CommandOf(s, e).None?
    ensures OnAfter(s, e, id) == On(s, id)
  {
    hide Enabled, CommandOf, Powered;
  }

  lemma LeaderStepCold(s: Cluster, e: Event, g: Gid)
    requires Background(s) && LeadersFresh(s) && LeadersCold(s) && PowerCycled(s, e) && g in CallersAfter(s, e)
    requires s.held.Keys == s.nodes.Keys && Remote(NodesAfter(s, e), CallersAfter(s, e)[g].node)
    ensures CallersAfter(s, e)[g].node in s.nodes && CallersAfter(s, e)[g].node in HeldAfter(s, e)
    ensures EndsCold(CallersAfter(s, e)[g].pc, OnAfter(s, e, CallersAfter(s, e)[g].node), HeldAfter(s, e)[CallersAfter(s, e)[g].node])
  {
    hide NodesAfter, CallersAfter, HeldAfter, StoreAfter, PcAfter, HeardAfter, SameTopology, Background, OnAfter;
    hide Powered;
    hide CleanWrites, RecoverOverWaking, PushReachesActive, EnabledCtl, EnabledRest, Apply, LeaderFresh, Blank;
    hide NoOverlap;
    hide FailedDeployPowersOff, PushSparesOthers, NoShortcut, OnePerName, HealthyMeansPowered, EnforceFirst;
    hide FreshRecovery;
    TopologyKept(s, e);
    CallerAfter(s, e, g);
    var id := CallersAfter(s, e)[g].node;
    SameTopologyAt(s.nodes, NodesAfter(s, e), id);
    HeldKeys(s, e);
    if Entered(s, e).Some? && g == e.g {
      hide Enabled;
    } else if EnabledCaller(s, e) && g == e.g {
      NotEntering(s, e);
      OwnEndsCold(s, e);
    } else if s.callers[g].pc.Recording? {
      WakingUndisturbed(s, e, g);
      BlankStays(On(s, id), OnAfter(s, e, id), s.held[id]);
    }
  }

  lemma BlankStays(on: bool, on': bool, held: Functions)
    ensures Blank(on, held) && (on' ==> on) ==> Blank(on', held)
  {
  }

  // ---------- workers ----------

  ghost predicate ColdAfter(s: Cluster, e: Event, id: NodeId)
    requires Enabled(s, e) && id in s.nodes && id in NodesAfter(s, e) && id in HeldAfter(s, e)
  {
    WorkerCold(NodesAfter(s, e)[id].status, OnAfter(s, e, id), HeldAfter(s, e)[id], id in CooledAfter(s, e))
  }

  /** The final SetStatus of a wake. */
  lemma RecordCold(s: Cluster, e: Event, id: NodeId)
    requires Background(s) && LeadersCold(s) && Regular(s, e) && e.Record? && Remote(s.nodes, id) && id in s.held
    requires EnabledCaller(s, e) && s.callers[e.g].node == id
    ensures id in NodesAfter(s, e) && id in HeldAfter(s, e) && ColdAfter(s, e, id)
  {
    assert EndsCold(s.callers[e.g].pc, On(s, id), s.held[id]);
    hide Background, Powered, CleanWrites, RecoverOverWaking;
  }

  /** A recovery write on a dead worker, without the shortcut. */
  lemma RestoreCold(s: Cluster, e: Event, id: NodeId)
    requires WorkersCold(s) && Enabled(s, e) && e.CtlRestores? && s.ctl.Restoring? && s.ctl.id == id
             && Remote(s.nodes, id)
    requires id in s.held && FreshRecovery(s, e) && NoShortcut(s, e)
    ensures id in NodesAfter(s, e) && id in HeldAfter(s, e) && ColdAfter(s, e, id)
  {
    ColdNow(s, id);
    hide Powered, EnabledCaller, EnabledRest;
  }

  lemma ColdNow(s: Cluster, id: NodeId)
    requires WorkersCold(s) && Remote(s.nodes, id) && id in s.held
    ensures WorkerCold(s.nodes[id].status, On(s, id), s.held[id], id in s.cooled)
  {
  }

  lemma PushSpares(s: Cluster, e: Event, id: NodeId)
    requires PushSparesOthers(s, e) && id in s.nodes && s.nodes[id].status != Active
    ensures e.PushReturns? && e.id == id ==> !e.landed
  {
  }

  /** Any other event: the status stays, or becomes waking or asleep after a sweep. */
  lemma OtherCold(s: Cluster, e: Event, id: NodeId)
    requires Background(s) && WorkersCold(s) && Regular(s, e) && PushSparesOthers(s, e) && Remote(s.nodes, id)
             && id in s.held
    requires StatusWritten(s, e).Some? && StatusWritten(s, e).value.id == id ==> e.CtlMarks?
    ensures id in NodesAfter(s, e) && id in HeldAfter(s, e) && ColdAfter(s, e, id)
  {
    hide Background, Powered, NodesAfter, HeldAfter, CleanWrites, RecoverOverWaking, Entered, OnAfter, Enabled, Blank;
    hide Apply;
    hide StatusWritten, CooledAfter, PushSparesOthers, WorkersCold;
    ColdNow(s, id);
    StatusAfter(s, e, id);
    HeldKeys(s, e);
    CooledMoves(s, e, id);
    if s.nodes[id].status != Active && s.nodes[id].status != Waking {
      PushSpares(s, e, id);
      AwakeHeld(s, e, id);
      NotSwitchedOn(s, e, id);
      BlankStays(On(s, id), OnAfter(s, e, id), s.held[id]);
    }
  }

  lemma WorkerStepCold(s: Cluster, e: Event, id: NodeId)
    requires Background(s) && WorkersCold(s) && LeadersCold(s) && PowerCycled(s, e) && Remote(s.nodes, id)
             && id in s.held
    ensures id in NodesAfter(s, e) && id in HeldAfter(s, e) && ColdAfter(s, e, id)
  {
    hide Background, NodesAfter, HeldAfter, ColdAfter, WorkersCold, LeadersCold, CleanWrites, RecoverOverWaking;
    hide PushReachesActive, NoOverlap, OnePerName, HealthyMeansPowered, EnforceFirst, FreshRecovery, NoShortcut;
    hide FailedDeployPowersOff, PushSparesOthers, IsSnapshot;
    if e.Record? && s.callers[e.g].node == id {
      RecordCold(s, e, id);
    } else if e.CtlRestores? && s.ctl.id == id {
      RestoreCold(s, e, id);
    } else {
      OtherCold(s, e, id);
    }
  }

  lemma StepCold(s: Cluster, e: Event, s': Cluster)
    requires Background(s) && LeadersFresh(s) && WorkersCold(s) && LeadersCold(s) && PowerCycled(s, e)
    requires s.held.Keys == s.nodes.Keys && s' == Step(s, e)
    ensures WorkersCold(s') && LeadersCold(s')
  {
    hide NodesAfter, CallersAfter, RelaysAfter, HeldAfter, CooledAfter, Background, OnAfter, Powered, Enabled, EndsCold;
    hide WorkerCold, LeadersFresh, SameNode, CleanWrites, RecoverOverWaking, PowerCycled, MidDeactivation;
    CycledIsRegular(s, e);
    TopologyKept(s, e);
    forall id | Remote(s'.nodes, id) && id in s'.held
      ensures WorkerCold(s'.nodes[id].status, On(s', id), s'.held[id], id in s'.cooled)
    {
      SameTopologyAt(s.nodes, s'.nodes, id);
      LocalStays(s.nodes, s'.nodes, id);
      WorkerStepCold(s, e, id);
      OnIsOnAfter(s, e, s', id);
    }
    forall g | g in s'.callers && Remote(s'.nodes, s'.callers[g].node) && s'.callers[g].node in s'.held
      ensures EndsCold(s'.callers[g].pc, On(s', s'.callers[g].node), s'.held[s'.callers[g].node])
    {
      LeaderStepCold(s, e, g);
      OnIsOnAfter(s, e, s', s'.callers[g].node);
    }
  }

  lemma LocalStays(nodes: Nodes, nodes': Nodes, id: NodeId)
    requires id in nodes && id in nodes' && SameNode(nodes[id], nodes'[id])
    ensures Remote(nodes, id) <==> Remote(nodes', id)
  {
  }

  lemma CycledIsRegular(s: Cluster, e: Event)
    requires PowerCycled(s, e)
    ensures Regular(s, e) && Enabled(s, e) && PowerAssumed(s, e) && RestoresPowered(s, e)
  {
    hide CleanWrites, RecoverOverWaking, NoOverlap, OnePerName, PushReachesActive, HealthyMeansPowered, EnforceFirst;
    hide FreshRecovery, FailedDeployPowersOff, PushSparesOthers, Powered;
  }

  /** No worker starts active, and one that does not start asleep is off. */
  ghost predicate BlankStart(s: Cluster)
  {
    && PoweredStart(s)
    && forall id :: Remote(s.nodes, id) ==>
         s.nodes[id].status != Active && (s.nodes[id].status != Sleeping ==> !On(s, id))
  }

  lemma ColdStarts(s: Cluster)
    requires Init(s) && BlankStart(s)
    ensures Cold(s) && DeployStart(s)
  {
    StartSound(s);
    hide Background, Powered, LeadersAgree, WorkersAgree;
  }

  /** Everything that makes the next wake cold. */
  ghost predicate Cold(s: Cluster)
  {
    Sound(s) && LeadersFresh(s) && WorkersCold(s) && LeadersCold(s) && s.held.Keys == s.nodes.Keys
  }

  lemma {:induction false} ColdHolds(r: Run, n: nat)
    requires IsRun(r) && n < |r.states| && BlankStart(r.states[0])
    requires forall i :: 0 <= i < n ==> PowerCycled(r.states[i], r.events[i])
    ensures Cold(r.states[n])
  {
    hide *;
    if n == 0 {
      RunStart(r);
      ColdStarts(r.states[0]);
    } else {
      ColdHolds(r, n - 1);
      RunStep(r, n - 1);
      CycledStep(r.states[n - 1], r.events[n - 1], r.states[n]);
    }
  }

  lemma CycledStep(s: Cluster, e: Event, s': Cluster)
    requires Cold(s) && PowerCycled(s, e) && s' == Step(s, e)
    ensures Cold(s') && ColdAssumed(s, e)
  {
    hide NodesAfter, CallersAfter, RelaysAfter, HeldAfter, CooledAfter, CtlAfter, StartupAfter, Background, PowerInv;
    hide Enabled;
    hide LeadersFresh, WorkersCold, LeadersCold, EntersBlank, UpdateAssumed, HealthyMeansPowered, EnforceFirst;
    hide FreshRecovery, NoShortcut, FailedDeployPowersOff, PushSparesOthers, RestoresPowered, Regular;
    CycledIsRegular(s, e);
    EntryIsCold(s, e);
    StepSound(s, e, s');
    StepCold(s, e, s');
    StepLeadersFresh(s, e, s');
  }

  /**
   With power managed as intended (EnforceSleeping first, recovery writing on dead nodes only and without the
   shortcut, failed deploys powered off, only powered nodes answering), every wake is cold, and so every
   active worker not in the middle of being deactivated holds exactly the store whenever no update is under
   way: the same names with the same definitions, and nothing else.
   */
  lemma DeployedMatchesStore(r: Run, n: nat, id: NodeId)
    requires IsRun(r) && n < |r.states| && BlankStart(r.states[0])
    requires forall i :: 0 <= i < n ==> PowerCycled(r.states[i], r.events[i])
    requires var s := r.states[n];
             Remote(s.nodes, id) && s.nodes[id].status == Active && !MidDeactivation(s.ctl, id) && s.updaters == map[]
    ensures id in r.states[n].held && r.states[n].held[id] == r.states[n].store
  {
    assert |r.states| == |r.events| + 1;
    hide *;
    RunStart(r);
    ColdStarts(r.states[0]);
    forall i | 0 <= i < n ensures ColdAssumed(r.states[i], r.events[i]) {
      ColdHolds(r, i);
      RunStep(r, i);
      CycledStep(r.states[i], r.events[i], r.states[i + 1]);
    }
    ColdWakesMatchStore(r, n);
    MatchingWorker(r.states[n], id);
  }

  lemma MatchingWorker(s: Cluster, id: NodeId)
    requires StoreMatches(s) && s.updaters == map[] && Remote(s.nodes, id) && s.nodes[id].status == Active
             && !MidDeactivation(s.ctl, id)
    ensures id in s.held && s.held[id] == s.store
  {
    hide UpToDate;
    IdleMeansStore(s.held[id], s.store, id);
  }
}
