/**
 Deployed functions agree with the store: what every active worker holds during and after a function update,
 and exactly what has to be true of the moments at which a worker becomes active.
 */
module Deployment {
  import opened Types
  import opened RegistrySpec
  import opened Protocol
  import opened Frames
  import opened SingleFlight
  import opened LeaderNode
  import opened PowerState

  // ---------- assumptions on a run, event by event ----------

  /** Between `All()` and the SetStatus(Active) it leads to. */
  predicate InWindow(pc: Pc)
  {
    pc.Deploying? || (pc.Recording? && pc.status == Active)
  }

  /** A function update and the deploy window of a wake do not overlap. */
  ghost predicate NoOverlap(s: Cluster, e: Event)
  {
    && (e.UpdateStores? ==> forall g :: g in s.callers ==> !InWindow(s.callers[g].pc))
    && (e.ListFunctions? ==> s.updaters == map[])
  }

  /** No update of a function begins while another of the same name is under way; others may be. */
  ghost predicate OnePerName(s: Cluster, e: Event)
  {
    e.UpdateStores? ==> forall u :: u in s.updaters ==> s.updaters[u].change.name != e.change.name
  }

  /** A push reaches a worker that is active and not in the middle of being deactivated. */
  predicate PushReachesActive(s: Cluster, e: Event)
  {
    e.PushReturns? && e.id in s.nodes && s.nodes[e.id].status == Active && !MidDeactivation(s.ctl, e.id) ==> e.landed
  }

  ghost predicate UpdateAssumed(s: Cluster, e: Event)
  {
    Regular(s, e) && NoOverlap(s, e) && OnePerName(s, e) && PushReachesActive(s, e)
  }

  // ---------- the property ----------

  /** What a name is bound to, if anything. */
  function Lookup(m: Functions, name: string): Option<FunctionDef>
  {
    if name in m then Some(m[name]) else None
  }

  /** This handler's push to the worker is still to come. */
  predicate StillToCome(up: Updater, id: NodeId)
  {
    up.Stored? || id in up.targets
  }

  /** Some handler has still to push to the worker what the store has under this name. */
  ghost predicate Awaits(store: Functions, ups: map<Uid, Updater>, name: string, id: NodeId)
  {
    exists u :: u in ups && Brings(ups[u], store, name, id)
  }

  predicate Brings(up: Updater, store: Functions, name: string, id: NodeId)
  {
    up.change == Change(name, Lookup(store, name)) && StillToCome(up, id)
  }

  /** Name by name: as the store has it, unless a push of that name to this worker is still to come. */
  ghost predicate UpToDate(held: Functions, store: Functions, ups: map<Uid, Updater>, id: NodeId)
  {
    forall name :: Awaits(store, ups, name, id) || Lookup(held, name) == Lookup(store, name)
  }

  /** Every active worker not in the middle of being deactivated is up to date. */
  ghost predicate StoreMatches(s: Cluster)
  {
    forall id :: Remote(s.nodes, id) && s.nodes[id].status == Active && !MidDeactivation(s.ctl, id) ==>
      id in s.held && UpToDate(s.held[id], s.store, s.updaters, id)
  }

  /**
   What a worker holds when it is recorded active: after a wake no function that the store does not have,
   after a recovery write what an active worker must hold.
   */
  ghost predicate ActivatesCurrent(s: Cluster, e: Event)
  {
    && (e.Record? && e.g in s.callers && s.callers[e.g].pc.Recording? && s.callers[e.g].pc.status == Active
        && Remote(s.nodes, s.callers[e.g].node) && s.callers[e.g].node in s.held ==>
          s.held[s.callers[e.g].node].Keys <= s.store.Keys)
    && (e.CtlRestores? && s.ctl.Restoring? && s.ctl.to == Active && Remote(s.nodes, s.ctl.id) && s.ctl.id in s.held ==>
          UpToDate(s.held[s.ctl.id], s.store, s.updaters, s.ctl.id))
  }

  // ---------- the invariant ----------

  /** Every listed function still to do, or deployed as the store has it. */
  ghost predicate Partly(held: Functions, store: Functions, todo: Functions)
  {
    && (forall name :: name in todo ==> name in store && todo[name] == store[name])
    && (forall name :: name in store ==> name in todo || (name in held && held[name] == store[name]))
  }

  /** A leader inside its deploy window, as long as no deploy has failed. */
  ghost predicate LeaderHolds(pc: Pc, held: Functions, store: Functions)
  {
    match pc
    case Deploying(todo, failed) => failed == 0 ==> Partly(held, store, todo)
    case Recording(status, _) => status == Active ==> Partly(held, store, map[])
    case _ => true
  }

  ghost predicate LeadersHold(s: Cluster)
  {
    forall g :: g in s.callers && Remote(s.nodes, s.callers[g].node) && s.callers[g].node in s.held ==>
      LeaderHolds(s.callers[g].pc, s.held[s.callers[g].node], s.store)
  }

  ghost predicate WindowIdle(callers: Callers, ups: map<Uid, Updater>)
  {
    forall g :: g in callers && InWindow(callers[g].pc) ==> ups == map[]
  }

  /** The store has every change that is still under way, for no later one of the same name has begun. */
  ghost predicate ChangesStored(store: Functions, ups: map<Uid, Updater>)
  {
    forall u :: u in ups ==> Lookup(store, ups[u].change.name) == ups[u].change.def
  }

  ghost predicate DeployInv(s: Cluster)
  {
    && s.held.Keys == s.nodes.Keys && StoreMatches(s) && LeadersHold(s)
    && WindowIdle(s.callers, s.updaters) && ChangesStored(s.store, s.updaters)
  }

  // ---------- what an event does to a worker's functions ----------

  /** What a worker holds after an event: emptied by a boot, changed by a deploy or a push, or as it was. */
  lemma HeldOf(s: Cluster, e: Event, id: NodeId)
    requires Background(s) && Regular(s, e) && Remote(s.nodes, id) && id in s.held
    ensures id in HeldAfter(s, e)
    ensures HeldAfter(s, e)[id] ==
            if CommandOf(s, e).Some? then (if !On(s, id) && OnAfter(s, e, id) then map[] else s.held[id])
            else if e.DeployReturns? && s.callers[e.g].node == id && (e.ok || e.landed)
            then s.held[id][e.name := s.callers[e.g].pc.todo[e.name]]
            else if e.PushReturns? && e.id == id && e.landed then Apply(s.held[id], s.updaters[e.u].change)
            else s.held[id]
  {
    hide Enabled, InvOf, Relay.Agree, DistinctOutlets, CleanWrites, RecoverOverWaking;
    hide Spared, RelaysAfter, Powered, OnAfter, CommandOf, Apply;
    RelaysMoveOne(s, e, id);
  }

  lemma HeldKeys(s: Cluster, e: Event)
    requires Enabled(s, e)
    ensures HeldAfter(s, e).Keys == s.held.Keys
  {
    hide Enabled, Powered, RelaysAfter, CommandOf, Apply;
  }

  /** Only a worker's own PowerOn can boot it. */
  lemma OthersKeepHeld(s: Cluster, e: Event, id: NodeId)
    requires Background(s) && Regular(s, e) && Remote(s.nodes, id) && id in s.held && CommandOf(s, e).Some?
    requires CommandOf(s, e).value.node.id != id || !CommandOf(s, e).value.on
    ensures id in HeldAfter(s, e) && HeldAfter(s, e)[id] == s.held[id]
  {
    HeldOf(s, e, id);
    hide HeldAfter, Background, Regular, CommandOf, Succeeds, Enabled;
  }

  /** A worker that is not being woken is touched by a landed push only. */
  lemma AwakeHeld(s: Cluster, e: Event, id: NodeId)
    requires Background(s) && Regular(s, e) && Remote(s.nodes, id) && id in s.held && s.nodes[id].status != Waking
    ensures id in HeldAfter(s, e)
    ensures HeldAfter(s, e)[id] ==
            if e.PushReturns? && e.id == id && e.landed then Apply(s.held[id], s.updaters[e.u].change) else s.held[id]
  {
    hide HeldAfter, InvOf, Relay.Agree, DistinctOutlets, CleanWrites, RecoverOverWaking, LocalsActive, WakesRemote;
    hide Apply;
    hide CtlRemote, StartupRemote, OwnIds, Powered, OnAfter, Enabled;
    HeldOf(s, e, id);
    if CommandOf(s, e).Some? {
      PushIsNoCommand(s, e);
      if CommandOf(s, e).value.on {
        PowerOnIsLeaders(s, e);
      }
      OthersKeepHeld(s, e, id);
    } else if e.DeployReturns? {
      DeployIsInFlight(s, e);
      InFlightWaking(s, e.g);
    }
  }

  lemma PushIsNoCommand(s: Cluster, e: Event)
    requires Enabled(s, e) && CommandOf(s, e).Some?
    ensures !e.PushReturns?
  {
  }

  lemma DeployIsInFlight(s: Cluster, e: Event)
    requires Enabled(s, e)
    ensures e.DeployReturns? ==> EnabledCaller(s, e) && InFlight(s.callers[e.g].pc)
  {
  }

  lemma CallersDoNotPush(s: Cluster, e: Event)
    requires EnabledCaller(s, e)
    ensures !e.PushReturns?
  {
  }

  lemma OnlyDeploysHold(s: Cluster, e: Event)
    requires EnabledCaller(s, e) && !e.PowerOnReturns? && !e.PowerOffReturns? && !e.DeployReturns?
    ensures Enabled(s, e) && HeldAfter(s, e) == s.held
  {
    hide CommandOf, EnabledCaller, EnabledCtl, EnabledRest, Boot, RelaysAfter, Apply;
    CallerCommands(s, e);
    CallersDoNotPush(s, e);
  }

  lemma DeployHeld(s: Cluster, e: Event)
    requires EnabledCaller(s, e) && e.DeployReturns? && s.callers[e.g].node in s.held
    ensures Enabled(s, e) && s.callers[e.g].node in HeldAfter(s, e)
    ensures HeldAfter(s, e)[s.callers[e.g].node] ==
            if e.ok || e.landed then s.held[s.callers[e.g].node][e.name := s.callers[e.g].pc.todo[e.name]]
            else s.held[s.callers[e.g].node]
  {
    hide EnabledCtl, EnabledRest, Boot, RelaysAfter;
  }

  // ---------- leaders ----------

  lemma PartlyGrows(held: Functions, store: Functions, todo: Functions, name: string)
    requires Partly(held, store, todo) && name in todo
    ensures Partly(held[name := todo[name]], store, todo - {name})
  {
  }

  /** A step of the leader, against what its node holds then. */
  lemma OwnHolds(s: Cluster, e: Event, held: Functions)
    requires EnabledCaller(s, e) && !e.Enter? && LeaderHolds(s.callers[e.g].pc, held, s.store)
    ensures var held' := if e.DeployReturns? && (e.ok || e.landed) then held[e.name := s.callers[e.g].pc.todo[e.name]] else held;
            LeaderHolds(PcAfter(s, e), held', s.store)
  {
    hide Succeeds, Partly;
    if e.DeployReturns? {
      if s.callers[e.g].pc.failed == 0 {
        PartlyGrows(held, s.store, s.callers[e.g].pc.todo, e.name);
      }
    } else if e.ListFunctions? {
      ListsAll(held, s.store);
    }
  }

  lemma ListsAll(held: Functions, store: Functions)
    ensures Partly(held, store, store)
  {
  }

  /** Nobody else's event touches what a node in its deploy window holds. */
  lemma WindowUndisturbed(s: Cluster, e: Event, g: Gid)
    requires Background(s) && DeployInv(s) && Regular(s, e) && g in s.callers && InWindow(s.callers[g].pc)
    requires !(EnabledCaller(s, e) && e.g == g) && Remote(s.nodes, s.callers[g].node)
    ensures s.callers[g].node in HeldAfter(s, e) && HeldAfter(s, e)[s.callers[g].node] == s.held[s.callers[g].node]
  {
    hide HeldAfter, InvOf, Relay.Agree, DistinctOutlets, CleanWrites, RecoverOverWaking, LocalsActive, WakesRemote;
    hide Apply;
    hide CtlRemote, StartupRemote, OwnIds, Powered, OnAfter, Enabled, StoreMatches, LeadersHold, ChangesStored;
    var id := s.callers[g].node;
    assert s.updaters == map[];
    HeldOf(s, e, id);
    PushNeedsUpdate(s, e);
    DeployIsInFlight(s, e);
    if CommandOf(s, e).Some? {
      if CommandOf(s, e).value.on {
        PowerOnIsLeaders(s, e);
        if s.callers[e.g].node == id {
          OnlyWaker(s, e.g, g);
        }
      }
      OthersKeepHeld(s, e, id);
    } else if e.DeployReturns? && s.callers[e.g].node == id {
      OnlyWaker(s, e.g, g);
    }
  }

  lemma PushNeedsUpdate(s: Cluster, e: Event)
    requires Enabled(s, e)
    ensures e.PushReturns? ==> s.updaters != map[]
  {
  }

  /** A leader's own step, with what the event leaves its node. */
  lemma OwnStepHolds(s: Cluster, e: Event)
    requires Enabled(s, e) && EnabledCaller(s, e) && !e.Enter? && s.callers[e.g].node in s.held
    requires LeaderHolds(s.callers[e.g].pc, s.held[s.callers[e.g].node], s.store)
    ensures s.callers[e.g].node in HeldAfter(s, e)
    ensures LeaderHolds(PcAfter(s, e), HeldAfter(s, e)[s.callers[e.g].node], s.store)
  {
    HeldKeys(s, e);
    if e.PowerOnReturns? || e.PowerOffReturns? {
      hide HeldAfter, PcAfter, LeaderHolds, Enabled, EnabledCaller;
      CommandsEndWindows(s, e);
      OutsideWindow(PcAfter(s, e), HeldAfter(s, e)[s.callers[e.g].node], s.store);
    } else {
      OwnQuietHolds(s, e);
    }
  }

  lemma OwnQuietHolds(s: Cluster, e: Event)
    requires EnabledCaller(s, e) && !e.Enter? && !e.PowerOnReturns? && !e.PowerOffReturns?
    requires e.g in s.callers && s.callers[e.g].node in s.held
    requires LeaderHolds(s.callers[e.g].pc, s.held[s.callers[e.g].node], s.store)
    ensures Enabled(s, e) && s.callers[e.g].node in HeldAfter(s, e)
    ensures LeaderHolds(PcAfter(s, e), HeldAfter(s, e)[s.callers[e.g].node], s.store)
  {
    if e.DeployReturns? {
      DeployHeld(s, e);
    } else {
      OnlyDeploysHold(s, e);
    }
    hide HeldAfter, PcAfter, LeaderHolds;
    OwnHolds(s, e, s.held[s.callers[e.g].node]);
  }

  lemma CommandsEndWindows(s: Cluster, e: Event)
    requires Enabled(s, e) && (e.PowerOnReturns? || e.PowerOffReturns?)
    ensures EnabledCaller(s, e) && !InWindow(PcAfter(s, e))
  {
    hide Succeeds;
  }

  /** The store changes only while nobody deploys, and only by a new update. */
  lemma StoreMoves(s: Cluster, e: Event)
    requires Enabled(s, e)
    ensures StoreAfter(s, e) == if e.UpdateStores? then Apply(s.store, e.change) else s.store
    ensures EnabledCaller(s, e) ==> !e.UpdateStores?
  {
    hide Apply, IsSnapshot;
  }

  lemma LeaderStepHolds(s: Cluster, e: Event, g: Gid)
    requires Background(s) && DeployInv(s) && UpdateAssumed(s, e) && g in CallersAfter(s, e)
    requires Remote(NodesAfter(s, e), CallersAfter(s, e)[g].node) && CallersAfter(s, e)[g].node in HeldAfter(s, e)
    ensures LeaderHolds(CallersAfter(s, e)[g].pc, HeldAfter(s, e)[CallersAfter(s, e)[g].node], StoreAfter(s, e))
  {
    hide NodesAfter, CallersAfter, HeldAfter, StoreAfter, PcAfter, HeardAfter, SameTopology, Background, StoreMatches;
    hide LeaderHolds, CleanWrites, RecoverOverWaking, PushReachesActive, Entering, EnabledCtl, EnabledRest, Apply;
    TopologyKept(s, e);
    CallerAfter(s, e, g);
    var id := CallersAfter(s, e)[g].node;
    SameTopologyAt(s.nodes, NodesAfter(s, e), id);
    StoreMoves(s, e);
    if Entered(s, e).Some? && g == e.g {
      EntryOutsideWindow(s, Entered(s, e).value, HeldAfter(s, e)[id], StoreAfter(s, e));
    } else if EnabledCaller(s, e) && g == e.g {
      NotEntering(s, e);
      OwnStepHolds(s, e);
    } else if InWindow(s.callers[g].pc) {
      WindowUndisturbed(s, e, g);
    } else {
      OutsideWindow(s.callers[g].pc, HeldAfter(s, e)[id], StoreAfter(s, e));
    }
  }

  lemma OutsideWindow(pc: Pc, held: Functions, store: Functions)
    requires !InWindow(pc)
    ensures LeaderHolds(pc, held, store)
  {
  }

  lemma EntryOutsideWindow(s: Cluster, id: NodeId, held: Functions, store: Functions)
    ensures LeaderHolds(Entering(s, id).pc, held, store) && !InWindow(Entering(s, id).pc)
  {
  }

  // ---------- workers ----------

  /** The worker after an event, as the property sees it. */
  ghost predicate CurrentAfter(s: Cluster, e: Event, id: NodeId)
    requires Enabled(s, e) && id in NodesAfter(s, e) && id in HeldAfter(s, e)
  {
    NodesAfter(s, e)[id].status == Active && !MidDeactivation(CtlAfter(s, e), id) ==>
      UpToDate(HeldAfter(s, e)[id], StoreAfter(s, e), UpdatersAfter(s, e), id)
  }

  ghost predicate CurrentNow(s: Cluster, id: NodeId)
    requires id in s.nodes && id in s.held
  {
    s.nodes[id].status == Active && !MidDeactivation(s.ctl, id) ==> UpToDate(s.held[id], s.store, s.updaters, id)
  }

  lemma WorkerNow(s: Cluster, id: NodeId)
    requires DeployInv(s) && Remote(s.nodes, id)
    ensures id in s.held && CurrentNow(s, id)
  {
  }

  predicate Updates(e: Event)
  {
    e.UpdateStores? || e.BroadcastLists? || e.PushReturns? || e.UpdateEnds?
  }

  predicate WrittenActive(s: Cluster, e: Event, id: NodeId)
    requires Enabled(s, e)
  {
    StatusWritten(s, e) == Some(StatusWrite(id, Active))
  }

  /** Outside the update handlers, what a worker must hold does not move. */
  lemma OnlyUpdatesMove(s: Cluster, e: Event, id: NodeId)
    requires Enabled(s, e) && !Updates(e)
    ensures StoreAfter(s, e) == s.store && UpdatersAfter(s, e) == s.updaters
    ensures MidDeactivation(s.ctl, id) ==>
              MidDeactivation(CtlAfter(s, e), id) || (StatusWritten(s, e).Some? && StatusWritten(s, e).value == StatusWrite(id, Sleeping))
  {
    hide IsSnapshot, CountServing, MayScaleDown, ElapsedAtLeast;
  }

  /** A worker that was active stays current as long as it is not touched. */
  lemma QuietCurrent(s: Cluster, e: Event, id: NodeId)
    requires Background(s) && DeployInv(s) && Regular(s, e) && !Updates(e) && Remote(s.nodes, id)
    requires !WrittenActive(s, e, id)
    ensures id in NodesAfter(s, e) && id in HeldAfter(s, e) && CurrentAfter(s, e, id)
  {
    hide Enabled, NodesAfter, HeldAfter, StoreAfter, CtlAfter, UpdatersAfter, StatusWritten, Entered, UpToDate;
    hide Background;
    hide CleanWrites, RecoverOverWaking, DeployInv, MidDeactivation;
    WorkerNow(s, id);
    StatusAfter(s, e, id);
    HeldKeys(s, e);
    if NodesAfter(s, e)[id].status == Active {
      AwakeHeld(s, e, id);
      OnlyUpdatesMove(s, e, id);
    }
  }

  /** The record of a wake that ends well: nothing missing, and by assumption nothing too much. */
  lemma RecordCurrent(s: Cluster, e: Event, id: NodeId)
    requires Background(s) && DeployInv(s) && Regular(s, e) && e.Record? && Remote(s.nodes, id)
             && WrittenActive(s, e, id)
    ensures id in HeldAfter(s, e) && HeldAfter(s, e)[id] == s.held[id] && !MidDeactivation(CtlAfter(s, e), id)
    ensures StoreAfter(s, e) == s.store && UpdatersAfter(s, e) == s.updaters == map[]
    ensures s.held[id] == s.store <==> ActivatesCurrent(s, e)
  {
    assert EnabledCaller(s, e) && s.callers[e.g].node == id && s.callers[e.g].pc.status == Active;
    InFlightWaking(s, e.g);
    WakingIsLeftAlone(s, id);
    assert LeaderHolds(s.callers[e.g].pc, s.held[id], s.store);
    assert Partly(s.held[id], s.store, map[]);
    assert InWindow(s.callers[e.g].pc);
    hide Background, StoreMatches, LeadersHold, CleanWrites, RecoverOverWaking;
    if s.held[id].Keys <= s.store.Keys {
      CoversBoth(s.held[id], s.store);
    }
  }

  lemma CoversBoth(held: Functions, store: Functions)
    requires Partly(held, store, map[]) && held.Keys <= store.Keys
    ensures held == store
  {
  }

  /** A recovery write that restores a worker as active. */
  lemma RestoreCurrent(s: Cluster, e: Event, id: NodeId)
    requires DeployInv(s) && Enabled(s, e) && e.CtlRestores? && Remote(s.nodes, id) && WrittenActive(s, e, id)
    ensures id in HeldAfter(s, e) && HeldAfter(s, e)[id] == s.held[id] && !MidDeactivation(CtlAfter(s, e), id)
    ensures StoreAfter(s, e) == s.store && UpdatersAfter(s, e) == s.updaters
    ensures UpToDate(s.held[id], s.store, s.updaters, id) <==> ActivatesCurrent(s, e)
  {
    hide UpToDate, StoreMatches, LeadersHold, WindowIdle, ChangesStored;
  }

  lemma OnlyTheseActivate(s: Cluster, e: Event, id: NodeId)
    requires Enabled(s, e) && WrittenActive(s, e, id)
    ensures e.Record? || e.CtlRestores?
    ensures !Updates(e)
  {
  }

  // ---------- update handlers ----------

  /** Every active worker is a target of the broadcast. */
  lemma ListedWorker(nodes: Nodes, snap: seq<Node>, id: NodeId)
    requires IsSnapshot(nodes, snap) && Remote(nodes, id) && nodes[id].status == Active
    ensures id in ActiveWorkers(snap)
  {
    var i :| 0 <= i < |snap| && snap[i].id == id;
  }

  lemma ApplyLookup(m: Functions, c: Change, name: string)
    ensures Lookup(Apply(m, c), name) == if name == c.name then c.def else Lookup(m, name)
  {
  }

  lemma CurrentAt(held: Functions, store: Functions, ups: map<Uid, Updater>, id: NodeId, name: string)
    requires UpToDate(held, store, ups, id)
    ensures Awaits(store, ups, name, id) || Lookup(held, name) == Lookup(store, name)
  {
  }

  /** What is still to be pushed stays so, except for what is pushed now. */
  lemma AwaitsAfter(s: Cluster, e: Event, id: NodeId, name: string)
    requires Enabled(s, e) && Updates(e) && Awaits(s.store, s.updaters, name, id) && Remote(s.nodes, id)
    requires s.nodes[id].status == Active && !(e.UpdateStores? && e.change.name == name)
    requires !(e.PushReturns? && e.id == id && s.updaters[e.u].change.name == name)
    ensures Awaits(StoreAfter(s, e), UpdatersAfter(s, e), name, id)
  {
    var u :| u in s.updaters && Brings(s.updaters[u], s.store, name, id);
    if e.BroadcastLists? && e.u == u {
      ListedWorker(s.nodes, e.snap, id);
    } else if e.UpdateStores? {
      ApplyLookup(s.store, e.change, name);
    }
    hide IsSnapshot, ActiveWorkers, Apply, Lookup;
    assert u in UpdatersAfter(s, e) && Brings(UpdatersAfter(s, e)[u], StoreAfter(s, e), name, id);
  }

  /** An update step, against what this worker holds under this name then. */
  lemma UpdateValue(s: Cluster, e: Event, id: NodeId, held: Functions, held': Functions, name: string)
    requires Enabled(s, e) && Updates(e) && ChangesStored(s.store, s.updaters)
    requires UpToDate(held, s.store, s.updaters, id) && Remote(s.nodes, id) && s.nodes[id].status == Active
    requires held' == if e.PushReturns? && e.id == id then Apply(held, s.updaters[e.u].change) else held
    ensures Awaits(StoreAfter(s, e), UpdatersAfter(s, e), name, id) || Lookup(held', name) == Lookup(StoreAfter(s, e), name)
  {
    CurrentAt(held, s.store, s.updaters, id, name);
    if e.UpdateStores? && e.change.name == name {
      ApplyLookup(s.store, e.change, name);
      hide IsSnapshot, ActiveWorkers, Apply, Lookup, UpToDate;
      assert e.u in UpdatersAfter(s, e) && Brings(UpdatersAfter(s, e)[e.u], StoreAfter(s, e), name, id);
    } else if e.PushReturns? && e.id == id && s.updaters[e.u].change.name == name {
      ApplyLookup(held, s.updaters[e.u].change, name);
      hide IsSnapshot, ActiveWorkers, Apply, Lookup, UpToDate;
    } else {
      OtherName(s, e, id, held, held', name);
    }
  }

  lemma OtherName(s: Cluster, e: Event, id: NodeId, held: Functions, held': Functions, name: string)
    requires Enabled(s, e) && Updates(e) && Remote(s.nodes, id) && s.nodes[id].status == Active
    requires Awaits(s.store, s.updaters, name, id) || Lookup(held, name) == Lookup(s.store, name)
    requires !(e.UpdateStores? && e.change.name == name)
    requires !(e.PushReturns? && e.id == id && s.updaters[e.u].change.name == name)
    requires held' == if e.PushReturns? && e.id == id then Apply(held, s.updaters[e.u].change) else held
    ensures Awaits(StoreAfter(s, e), UpdatersAfter(s, e), name, id) || Lookup(held', name) == Lookup(StoreAfter(s, e), name)
  {
    hide IsSnapshot, ActiveWorkers, Apply, Lookup, UpdatersAfter, Awaits;
    if Awaits(s.store, s.updaters, name, id) {
      AwaitsAfter(s, e, id, name);
    } else if e.UpdateStores? {
      ApplyLookup(s.store, e.change, name);
    } else if e.PushReturns? {
      ApplyLookup(held, s.updaters[e.u].change, name);
    }
  }

  lemma UpdateValues(s: Cluster, e: Event, id: NodeId, held: Functions, held': Functions)
    requires Enabled(s, e) && Updates(e) && OnePerName(s, e) && ChangesStored(s.store, s.updaters)
    requires UpToDate(held, s.store, s.updaters, id) && Remote(s.nodes, id) && s.nodes[id].status == Active
    requires held' == if e.PushReturns? && e.id == id then Apply(held, s.updaters[e.u].change) else held
    ensures UpToDate(held', StoreAfter(s, e), UpdatersAfter(s, e), id)
  {
    hide Enabled, OnePerName, ChangesStored, Awaits, Lookup, UpdatersAfter, StoreAfter, Apply;
    forall name ensures Awaits(StoreAfter(s, e), UpdatersAfter(s, e), name, id) || Lookup(held', name) == Lookup(StoreAfter(s, e), name) {
      UpdateValue(s, e, id, held, held', name);
    }
  }

  lemma UpdateQuiet(s: Cluster, e: Event)
    requires Enabled(s, e) && Updates(e)
    ensures CtlAfter(s, e) == s.ctl && NodesAfter(s, e) == s.nodes
  {
    hide IsSnapshot;
  }

  /** What an update step leaves an active worker. */
  lemma PushedHeld(s: Cluster, e: Event, id: NodeId)
    requires Background(s) && Regular(s, e) && PushReachesActive(s, e) && Remote(s.nodes, id) && id in s.held
    requires s.nodes[id].status == Active && !MidDeactivation(s.ctl, id)
    ensures id in HeldAfter(s, e)
    ensures HeldAfter(s, e)[id] == if e.PushReturns? && e.id == id then Apply(s.held[id], s.updaters[e.u].change) else s.held[id]
  {
    hide HeldAfter, Background, CleanWrites, RecoverOverWaking, MidDeactivation, Apply;
    AwakeHeld(s, e, id);
  }

  lemma Unpack(s: Cluster, e: Event)
    requires DeployInv(s) && UpdateAssumed(s, e)
    ensures ChangesStored(s.store, s.updaters) && Regular(s, e) && OnePerName(s, e) && PushReachesActive(s, e)
  {
    hide StoreMatches, LeadersHold, WindowIdle, ChangesStored, Regular, NoOverlap, OnePerName;
  }

  lemma UpdateCurrent(s: Cluster, e: Event, id: NodeId)
    requires Background(s) && DeployInv(s) && UpdateAssumed(s, e) && Updates(e) && Remote(s.nodes, id)
    ensures id in NodesAfter(s, e) && id in HeldAfter(s, e) && CurrentAfter(s, e, id)
  {
    hide Enabled, NodesAfter, HeldAfter, StoreAfter, CtlAfter, UpdatersAfter, StatusWritten, Entered, UpToDate;
    hide Background;
    hide CleanWrites, RecoverOverWaking, DeployInv, UpdateAssumed, MidDeactivation, CommandOf, Apply, OnePerName;
    hide ChangesStored;
    hide PushReachesActive, Updates;
    Unpack(s, e);
    WorkerNow(s, id);
    HeldKeys(s, e);
    UpdateQuiet(s, e);
    if s.nodes[id].status == Active && !MidDeactivation(s.ctl, id) {
      PushedHeld(s, e, id);
      hide Regular;
      UpdateValues(s, e, id, s.held[id], HeldAfter(s, e)[id]);
    }
  }

  lemma StepUpdaters(s: Cluster, e: Event)
    requires Enabled(s, e) && OnePerName(s, e) && ChangesStored(s.store, s.updaters)
    ensures ChangesStored(StoreAfter(s, e), UpdatersAfter(s, e))
    ensures s.updaters == map[] && !e.UpdateStores? ==> UpdatersAfter(s, e) == map[]
  {
    hide IsSnapshot, ActiveWorkers, Apply, Lookup;
    forall u | u in UpdatersAfter(s, e)
      ensures Lookup(StoreAfter(s, e), UpdatersAfter(s, e)[u].change.name) == UpdatersAfter(s, e)[u].change.def
    {
      if e.UpdateStores? {
        ApplyLookup(s.store, e.change, UpdatersAfter(s, e)[u].change.name);
      }
    }
  }

  // ---------- one step ----------

  /** Only listing the functions opens the window. */
  lemma WindowOpens(s: Cluster, e: Event)
    requires EnabledCaller(s, e)
    ensures !e.Enter? && InWindow(PcAfter(s, e)) ==> InWindow(s.callers[e.g].pc) || e.ListFunctions?
  {
    hide Succeeds;
  }

  lemma StepWindowIdle(s: Cluster, e: Event)
    requires Enabled(s, e) && WindowIdle(s.callers, s.updaters) && NoOverlap(s, e) && OnePerName(s, e)
             && ChangesStored(s.store, s.updaters)
    ensures WindowIdle(CallersAfter(s, e), UpdatersAfter(s, e))
  {
    forall g | g in CallersAfter(s, e) && InWindow(CallersAfter(s, e)[g].pc)
      ensures UpdatersAfter(s, e) == map[]
    {
      hide CallersAfter, PcAfter, HeardAfter, UpdatersAfter, Enabled, EnabledCaller, InWindow, Entering, Entered;
      CallerAfter(s, e, g);
      StepUpdaters(s, e);
      StoreMoves(s, e);
      if Entered(s, e).Some? && g == e.g {
        EntryOutsideWindow(s, Entered(s, e).value, map[], map[]);
      } else if EnabledCaller(s, e) && g == e.g {
        NotEntering(s, e);
        WindowOpens(s, e);
      }
    }
  }

  lemma WorkerStepCurrent(s: Cluster, e: Event, id: NodeId)
    requires Background(s) && DeployInv(s) && UpdateAssumed(s, e) && ActivatesCurrent(s, e) && Remote(s.nodes, id)
    ensures id in NodesAfter(s, e) && id in HeldAfter(s, e) && CurrentAfter(s, e, id)
  {
    hide Enabled, NodesAfter, HeldAfter, StoreAfter, CtlAfter, UpdatersAfter, StatusWritten, Entered, Background;
    hide CleanWrites, RecoverOverWaking, DeployInv, NoOverlap, OnePerName, PushReachesActive, ActivatesCurrent;
    hide SameNode;
    TopologyKept(s, e);
    if Updates(e) {
      UpdateCurrent(s, e, id);
    } else if WrittenActive(s, e, id) {
      OnlyTheseActivate(s, e, id);
      if e.Record? {
        RecordCurrent(s, e, id);
      } else {
        RestoreCurrent(s, e, id);
      }
    } else {
      QuietCurrent(s, e, id);
    }
  }

  lemma StepDeployInv(s: Cluster, e: Event, s': Cluster)
    requires Background(s) && DeployInv(s) && UpdateAssumed(s, e) && ActivatesCurrent(s, e) && s' == Step(s, e)
    ensures DeployInv(s')
  {
    hide NodesAfter, CallersAfter, HeldAfter, StoreAfter, CtlAfter, UpdatersAfter, Background, CleanWrites, Enabled;
    hide RecoverOverWaking, StoreMatches, LeadersHold, WindowIdle, ChangesStored, NoOverlap, OnePerName;
    hide PushReachesActive;
    hide ActivatesCurrent;
    HeldKeys(s, e);
    TopologyKept(s, e);
    StepUpdaters(s, e);
    StepWindowIdle(s, e);
    StepStoreMatches(s, e, s');
    StepLeadersHold(s, e, s');
    hide SameTopology;
  }

  lemma StepStoreMatches(s: Cluster, e: Event, s': Cluster)
    requires Background(s) && DeployInv(s) && UpdateAssumed(s, e) && ActivatesCurrent(s, e) && s' == Step(s, e)
    ensures StoreMatches(s')
  {
    hide NodesAfter, CallersAfter, HeldAfter, StoreAfter, CtlAfter, UpdatersAfter, Background, DeployInv, UpToDate;
    hide CleanWrites, Enabled, RecoverOverWaking, NoOverlap, OnePerName, PushReachesActive, ActivatesCurrent;
    hide MidDeactivation;
    forall id | Remote(s'.nodes, id) && s'.nodes[id].status == Active && !MidDeactivation(s'.ctl, id)
      ensures id in s'.held && UpToDate(s'.held[id], s'.store, s'.updaters, id)
    {
      TopologyKept(s, e);
      SameTopologyAt(s.nodes, s'.nodes, id);
      WorkerStepCurrent(s, e, id);
    }
  }

  lemma StepLeadersHold(s: Cluster, e: Event, s': Cluster)
    requires Background(s) && DeployInv(s) && UpdateAssumed(s, e) && s' == Step(s, e)
    ensures LeadersHold(s')
  {
    hide NodesAfter, CallersAfter, HeldAfter, StoreAfter, CtlAfter, UpdatersAfter, Background, DeployInv, LeaderHolds;
    hide CleanWrites, Enabled, RecoverOverWaking, NoOverlap, OnePerName, PushReachesActive;
    forall g | g in s'.callers && Remote(s'.nodes, s'.callers[g].node) && s'.callers[g].node in s'.held
      ensures LeaderHolds(s'.callers[g].pc, s'.held[s'.callers[g].node], s'.store)
    {
      LeaderStepHolds(s, e, g);
    }
  }

  // ---------- whole runs ----------

  /** Distinct outlets, an active leader, and nothing deployed on a worker that starts active. */
  ghost predicate DeployStart(s: Cluster)
  {
    LocalsActive(s.nodes) && DistinctOutlets(s.nodes, s.relays.defaultUid) && StoreMatches(s)
  }

  lemma StartBackground(s: Cluster)
    requires Init(s) && LocalsActive(s.nodes) && DistinctOutlets(s.nodes, s.relays.defaultUid)
    ensures Background(s)
  {
    InitKeeps(s);
  }

  lemma {:induction false} BackgroundHolds(r: Run, n: nat)
    requires IsRun(r) && n < |r.states|
    requires LocalsActive(r.states[0].nodes) && DistinctOutlets(r.states[0].nodes, r.states[0].relays.defaultUid)
    requires forall i :: 0 <= i < n ==> Regular(r.states[i], r.events[i])
    ensures Background(r.states[n])
  {
    if n == 0 {
      StartBackground(r.states[0]);
    } else {
      BackgroundHolds(r, n - 1);
      RunStep(r, n - 1);
      hide *;
      StepBackground(r.states[n - 1], r.events[n - 1], r.states[n]);
    }
  }

  lemma {:induction false} DeployHolds(r: Run, n: nat)
    requires IsRun(r) && n < |r.states| && DeployStart(r.states[0])
    requires forall i :: 0 <= i < n ==> UpdateAssumed(r.states[i], r.events[i]) && ActivatesCurrent(r.states[i], r.events[i])
    ensures Background(r.states[n]) && DeployInv(r.states[n])
  {
    if n == 0 {
      StartBackground(r.states[0]);
    } else {
      DeployHolds(r, n - 1);
      RunStep(r, n - 1);
      var s, e := r.states[n - 1], r.events[n - 1];
      assert Regular(s, e);
      hide *;
      StepBackground(s, e, r.states[n]);
      StepDeployInv(s, e, r.states[n]);
    }
  }

  /**
   A worker recorded active with a function the store does not have, or restored behind the store, breaks the
   agreement.
   */
  lemma StaleActivationBreaks(s: Cluster, e: Event, s': Cluster)
    requires Background(s) && DeployInv(s) && UpdateAssumed(s, e) && !ActivatesCurrent(s, e) && s' == Step(s, e)
    ensures !StoreMatches(s')
  {
    var id := ActivatedBy(s, e);
    assert Regular(s, e);
    hide Regular, UpdateAssumed, Background, DeployInv, NoOverlap, OnePerName, PushReachesActive, CleanWrites;
    hide RecoverOverWaking;
    hide ActivatesCurrent;
    hide NodesAfter, HeldAfter, StoreAfter, CtlAfter, UpdatersAfter, StatusWritten, Enabled, Entered;
    hide UpToDate, MidDeactivation, StoreMatches;
    WrittenIsActive(s, e, id);
    if e.Record? {
      RecordCurrent(s, e, id);
      IdleMeansStore(s.held[id], s.store, id);
    } else {
      RestoreCurrent(s, e, id);
    }
    StaleIsSeen(s', id);
  }

  lemma WrittenIsActive(s: Cluster, e: Event, id: NodeId)
    requires Enabled(s, e) && WrittenActive(s, e, id) && Remote(s.nodes, id)
    ensures Remote(NodesAfter(s, e), id) && NodesAfter(s, e)[id].status == Active
  {
    hide NodesAfter, SameTopology, Enabled, Entered, StatusWritten;
    NoEntryWrites(s, e);
    StatusAfter(s, e, id);
    TopologyKept(s, e);
    SameTopologyAt(s.nodes, NodesAfter(s, e), id);
  }

  lemma NoEntryWrites(s: Cluster, e: Event)
    requires Enabled(s, e) && StatusWritten(s, e).Some?
    ensures Entered(s, e).None?
  {
  }

  lemma IdleMeansStore(held: Functions, store: Functions, id: NodeId)
    ensures UpToDate(held, store, map[], id) <==> held == store
  {
    if UpToDate(held, store, map[], id) {
      forall name ensures name in held <==> name in store
      ensures name in held ==> held[name] == store[name]
      {
        CurrentAt(held, store, map[], id, name);
      }
    }
  }

  lemma StaleIsSeen(s: Cluster, id: NodeId)
    requires Remote(s.nodes, id) && s.nodes[id].status == Active && !MidDeactivation(s.ctl, id) && id in s.held
    requires !UpToDate(s.held[id], s.store, s.updaters, id)
    ensures !StoreMatches(s)
  {
  }

  lemma ActivatedBy(s: Cluster, e: Event) returns (id: NodeId)
    requires Enabled(s, e) && !ActivatesCurrent(s, e)
    ensures Remote(s.nodes, id) && WrittenActive(s, e, id) && (e.Record? || e.CtlRestores?)
  {
    hide UpToDate, IsSnapshot;
    id := if e.Record? then s.callers[e.g].node else s.ctl.id;
  }

  /**
   Over whole runs in which updates of one function come one at a time and not into a deploy window, and pushes
   reach the active workers: every active worker is up to date in every state exactly when no wake is recorded active
   over a function the store does not have, and no recovery write restores a worker that is behind.
   */
  lemma StoreMatchesExactly(r: Run)
    requires IsRun(r) && DeployStart(r.states[0])
    requires forall i :: 0 <= i < |r.events| ==> UpdateAssumed(r.states[i], r.events[i])
    ensures (forall n :: 0 <= n < |r.states| ==> StoreMatches(r.states[n]))
       <==> (forall i :: 0 <= i < |r.events| ==> ActivatesCurrent(r.states[i], r.events[i]))
  {
    hide UpdateAssumed, ActivatesCurrent, DeployStart, StoreMatches, Enabled, Step, Init, Background;
    if forall i :: 0 <= i < |r.events| ==> ActivatesCurrent(r.states[i], r.events[i]) {
      forall n | 0 <= n < |r.states| ensures StoreMatches(r.states[n]) {
        DeployHolds(r, n);
      }
    } else {
      var k := FirstStale(r);
      DeployHolds(r, k);
      RunStep(r, k);
      StaleActivationBreaks(r.states[k], r.events[k], r.states[k + 1]);
    }
  }

  lemma FirstStale(r: Run) returns (k: nat)
    requires |r.states| == |r.events| + 1
    requires exists i :: 0 <= i < |r.events| && !ActivatesCurrent(r.states[i], r.events[i])
    ensures k < |r.events| && !ActivatesCurrent(r.states[k], r.events[k])
    ensures forall i :: 0 <= i < k ==> ActivatesCurrent(r.states[i], r.events[i])
  {
    hide ActivatesCurrent;
    k := 0;
    while ActivatesCurrent(r.states[k], r.events[k])
      invariant k < |r.events|
      invariant forall i :: 0 <= i < k ==> ActivatesCurrent(r.states[i], r.events[i])
      invariant exists i :: k <= i < |r.events| && !ActivatesCurrent(r.states[i], r.events[i])
      decreases |r.events| - k
    {
      k := k + 1;
    }
  }
}
