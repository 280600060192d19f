/**
 The control plane as a transition system at lock granularity: goroutines inside ActivateNode, the
 controller goroutine, the startup goroutine, the function-update handler, the relay controller and
 the clock. One event is one critical section or one external reply; everything the environment may
 choose is carried by the event.
 */
module Protocol {
  import opened Types
  import opened Relay
  import opened RegistrySpec

  type Gid = nat
  type ActId = nat
  type Uid = nat
  type Functions = map<string, FunctionDef>

  /** An activation object. `closes` counts `close(done)`; `creator` and `node` are history. */
  datatype Activation = Activation(node: NodeId, creator: Gid, err: Result, closes: nat)

  datatype Role = Bystander | Leader(act: ActId) | Follower(seen: Option<ActId>)

  /** Where a goroutine stands inside `ActivateNode`. */
  datatype Pc =
    | PoweringOn
    | Polling(left: nat)
    | Listing
    | Deploying(todo: Functions, failed: nat)
    | PoweringOff(failed: nat)
    | Recording(status: Status, res: Result)
    | Deleting(res: Result)
    | Publishing(res: Result)
    | Closing(res: Result)
    | Waiting
    | Returned(res: Result)
    | Crashed

  /** The external replies a leader has received so far, in the order of the wake sequence. */
  datatype Heard = Heard(
    on: Option<bool>,
    polls: seq<bool>,
    listed: Option<Functions>,
    deployed: map<string, bool>,
    off: Option<bool>)

  const NOTHING_HEARD := Heard(None, [], None, map[], None)

  datatype Caller = Caller(node: NodeId, role: Role, pc: Pc, heard: Heard)

  /** The controller goroutine. Every `todo` is what is left of a snapshot it iterates over. */
  datatype Ctl =
    | Resting
    | Recovering(todo: seq<Node>)
    | Restoring(id: NodeId, to: Status, todo: seq<Node>)
    | Counting
    | Sweeping(todo: seq<Node>, count: int)
    | CuttingPower(node: Node, todo: seq<Node>, count: int)
    | MarkingAsleep(node: Node, todo: seq<Node>, count: int)

  /** The goroutine started by main: EnforceSleeping or PrewarmAll. */
  datatype Startup =
    | NotStarted
    | Enforcing(todo: seq<Node>)
    | Prewarming(todo: seq<Node>, spawned: map<NodeId, Gid>)
    | Finished(spawned: map<NodeId, Gid>)

  /** A change of the function store; `None` removes the function. */
  datatype Change = Change(name: string, def: Option<FunctionDef>)

  /** A handler that has stored a function and now pushes it to the active workers; any number may be under way. */
  datatype Updater =
    | Stored(change: Change)
    | Pushing(change: Change, targets: set<NodeId>)

  /**
   `held` is what each node physically has deployed; `cooled` is the nodes whose last entry into Sleeping was
   RecoverDead's cooldown branch.
   */
  datatype Cluster = Cluster(
    cfg: Config,
    nodes: map<NodeId, Node>,
    table: map<NodeId, ActId>,
    records: seq<Activation>,
    callers: map<Gid, Caller>,
    ctl: Ctl,
    startup: Startup,
    updaters: map<Uid, Updater>,
    relays: Relays,
    store: Functions,
    held: map<NodeId, Functions>,
    cooled: set<NodeId>,
    clock: int)

  datatype Event =
    // ActivateNode
    | Enter(g: Gid, id: NodeId)
    | PowerOnReturns(g: Gid, io: Io)
    | Poll(g: Gid, answered: bool)
    | GiveUp(g: Gid)
    | ListFunctions(g: Gid)
    | DeployReturns(g: Gid, name: string, ok: bool, landed: bool)
    | DeployEnds(g: Gid)
    | PowerOffReturns(g: Gid, io: Io)
    | Record(g: Gid)
    | Delete(g: Gid)
    | Publish(g: Gid)
    | Close(g: Gid)
    | Release(g: Gid)
    | TimeOut(g: Gid)
    | Crash(g: Gid)
    // StartController
    | CtlWakes(snap: seq<Node>)
    | CtlChecks(healthy: bool)
    | CtlRestores
    | CtlRecovered
    | CtlLists(snap: seq<Node>)
    | CtlConsiders
    | CtlPowersOff(io: Io)
    | CtlMarks
    | CtlRests
    // startup
    | EnforceLists(snap: seq<Node>)
    | EnforceNext(io: Io)
    | EnforceEnds
    | PrewarmLists(snap: seq<Node>)
    | PrewarmSpawns(g: Gid)
    | PrewarmReturns
    // function updates
    | UpdateStores(u: Uid, change: Change)
    | BroadcastLists(u: Uid, snap: seq<Node>)
    | PushReturns(u: Uid, id: NodeId, landed: bool)
    | UpdateEnds(u: Uid)
    // environment
    | Serve(id: NodeId, load: int, lastUsed: Stamp)
    | Tick(d: nat)

  // ---------- outlets ----------

  /** Whether the outlet feeding a worker is physically closed. */
  predicate Powered(r: Relays, n: Node)
  {
    var uid := Resolve(n.relayUid, r.defaultUid);
    ValidChannel(n.channel) && uid in r.hw && r.hw[uid].Get(n.channel)
  }

  predicate On(s: Cluster, id: NodeId)
    requires id in s.nodes
  {
    Powered(s.relays, s.nodes[id])
  }

  /** A worker whose outlet goes from open to closed boots with nothing deployed. */
  function Boot(nodes: Nodes, r: Relays, r': Relays, held: map<NodeId, Functions>): map<NodeId, Functions>
  {
    map id | id in held ::
      if id in nodes && !nodes[id].local && !Powered(r, nodes[id]) && Powered(r', nodes[id]) then map[] else held[id]
  }

  // ---------- which events may happen ----------

  predicate OwnsRecord(s: Cluster, g: Gid)
  {
    g in s.callers && s.callers[g].role.Leader? && s.callers[g].role.act < |s.records|
  }

  predicate AwaitsRecord(s: Cluster, g: Gid)
  {
    && g in s.callers && s.callers[g].pc.Waiting? && s.callers[g].role.Follower?
    && (s.callers[g].role.seen.Some? ==> s.callers[g].role.seen.value < |s.records|)
  }

  predicate EnabledCaller(s: Cluster, e: Event)
  {
    match e
    case Enter(g, id) => g !in s.callers
    case PowerOnReturns(g, io) => g in s.callers && s.callers[g].pc.PoweringOn? && s.callers[g].node in s.nodes
    case Poll(g, answered) => g in s.callers && s.callers[g].pc.Polling? && s.callers[g].pc.left > 0
    case GiveUp(g) => g in s.callers && s.callers[g].pc.Polling? && s.callers[g].pc.left == 0
    case ListFunctions(g) => g in s.callers && s.callers[g].pc.Listing?
    case DeployReturns(g, name, ok, landed) => g in s.callers && s.callers[g].pc.Deploying? && name in s.callers[g].pc.todo
    case DeployEnds(g) => g in s.callers && s.callers[g].pc.Deploying? && s.callers[g].pc.todo == map[]
    case PowerOffReturns(g, io) => g in s.callers && s.callers[g].pc.PoweringOff? && s.callers[g].node in s.nodes
    case Record(g) => g in s.callers && s.callers[g].pc.Recording?
    case Delete(g) => g in s.callers && s.callers[g].pc.Deleting?
    case Publish(g) => g in s.callers && s.callers[g].pc.Publishing? && OwnsRecord(s, g)
    case Close(g) => g in s.callers && s.callers[g].pc.Closing? && OwnsRecord(s, g)
    case Release(g) => AwaitsRecord(s, g) && s.callers[g].role.seen.Some? && s.records[s.callers[g].role.seen.value].closes > 0
    case TimeOut(g) => AwaitsRecord(s, g) && s.callers[g].role.seen.Some?
    case Crash(g) => AwaitsRecord(s, g) && s.callers[g].role.seen.None?
    case _ => false
  }

  predicate EnabledCtl(s: Cluster, e: Event)
  {
    s.cfg.enabled &&
    match e
    case CtlWakes(snap) => s.ctl.Resting? && IsSnapshot(s.nodes, snap)
    case CtlChecks(healthy) => s.ctl.Recovering? && s.ctl.todo != []
    case CtlRestores => s.ctl.Restoring?
    case CtlRecovered => s.ctl.Recovering? && s.ctl.todo == []
    case CtlLists(snap) => s.ctl.Counting? && IsSnapshot(s.nodes, snap)
    case CtlConsiders => s.ctl.Sweeping? && s.ctl.todo != []
    case CtlPowersOff(io) => s.ctl.CuttingPower?
    case CtlMarks => s.ctl.MarkingAsleep?
    case CtlRests => s.ctl.Sweeping? && s.ctl.todo == []
    case _ => false
  }

  predicate EnabledRest(s: Cluster, e: Event)
  {
    match e
    case EnforceLists(snap) => s.cfg.enabled && s.startup.NotStarted? && IsSnapshot(s.nodes, snap)
    case EnforceNext(io) => s.startup.Enforcing? && s.startup.todo != []
    case EnforceEnds => s.startup.Enforcing? && s.startup.todo == []
    case PrewarmLists(snap) => !s.cfg.enabled && s.startup.NotStarted? && IsSnapshot(s.nodes, snap)
    case PrewarmSpawns(g) => s.startup.Prewarming? && s.startup.todo != [] && g !in s.callers
    case PrewarmReturns =>
      s.startup.Prewarming? && s.startup.todo == []
      && forall id :: id in s.startup.spawned ==>
           s.startup.spawned[id] in s.callers && s.callers[s.startup.spawned[id]].pc.Returned?
    case UpdateStores(u, change) => u !in s.updaters
    case BroadcastLists(u, snap) => u in s.updaters && s.updaters[u].Stored? && IsSnapshot(s.nodes, snap)
    case PushReturns(u, id, landed) => u in s.updaters && s.updaters[u].Pushing? && id in s.updaters[u].targets
    case UpdateEnds(u) => u in s.updaters && s.updaters[u].Pushing? && s.updaters[u].targets == {}
    case Serve(id, load, lastUsed) => id in s.nodes
    case Tick(d) => true
    case _ => false
  }

  predicate Enabled(s: Cluster, e: Event)
  {
    EnabledCaller(s, e) || EnabledCtl(s, e) || EnabledRest(s, e)
  }

  // ---------- what an event asks of the shared state ----------

  /** Whether a caller that finds this node must wake it itself. */
  predicate MustWake(nodes: Nodes, id: NodeId)
  {
    id in nodes && nodes[id].status != Active && nodes[id].status != Waking
  }

  /** What the entry block of `ActivateNode` decides for a caller. */
  function Entering(s: Cluster, id: NodeId): Caller
  {
    if id !in s.nodes then Caller(id, Bystander, Returned(UnknownNode), NOTHING_HEARD)
    else if s.nodes[id].status == Active then Caller(id, Bystander, Returned(Ok), NOTHING_HEARD)
    else if s.nodes[id].status == Waking then
      Caller(id, Follower(if id in s.table then Some(s.table[id]) else None), Waiting, NOTHING_HEARD)
    else Caller(id, Leader(|s.records|), PoweringOn, NOTHING_HEARD)
  }

  /** The node whose entry block this event runs, if it runs one: a call, or PrewarmAll spawning one. */
  function Entered(s: Cluster, e: Event): Option<NodeId>
    requires Enabled(s, e)
  {
    match e
    case Enter(g, id) => Some(id)
    case PrewarmSpawns(g) => if s.startup.todo[0].local then None else Some(s.startup.todo[0].id)
    case _ => None
  }

  datatype Switching = Switching(node: Node, on: bool, io: Io)

  /** The relay command this event completes, if any. */
  function CommandOf(s: Cluster, e: Event): Option<Switching>
    requires Enabled(s, e)
  {
    match e
    case PowerOnReturns(g, io) => Some(Switching(s.nodes[s.callers[g].node], true, io))
    case PowerOffReturns(g, io) => Some(Switching(s.nodes[s.callers[g].node], false, io))
    case CtlPowersOff(io) => Some(Switching(s.ctl.node, false, io))
    case EnforceNext(io) =>
      if s.startup.todo[0].local || s.startup.todo[0].status != Sleeping then None
      else Some(Switching(s.startup.todo[0], false, io))
    case _ => None
  }

  function Issue(r: Relays, w: Switching): (Relays, bool)
  {
    SetChannel(r, Command(w.node.relayUid, w.node.channel, w.on, w.io))
  }

  predicate Succeeds(s: Cluster, e: Event)
    requires Enabled(s, e)
  {
    CommandOf(s, e).Some? && Issue(s.relays, CommandOf(s, e).value).1
  }

  datatype StatusWrite = StatusWrite(id: NodeId, status: Status)

  /** The `SetStatus` call this event makes, if any. */
  function StatusWritten(s: Cluster, e: Event): Option<StatusWrite>
    requires Enabled(s, e)
  {
    match e
    case Record(g) => Some(StatusWrite(s.callers[g].node, s.callers[g].pc.status))
    case CtlRestores => Some(StatusWrite(s.ctl.id, s.ctl.to))
    case CtlMarks => Some(StatusWrite(s.ctl.node.id, Sleeping))
    case _ => None
  }

  // ---------- the state after an event, component by component ----------

  function NodesAfter(s: Cluster, e: Event): Nodes
    requires Enabled(s, e)
  {
    var entered, written := Entered(s, e), StatusWritten(s, e);
    if entered.Some? then (if MustWake(s.nodes, entered.value) then BeginWake(s.nodes, entered.value) else s.nodes)
    else if written.Some? then SetStatus(s.nodes, written.value.id, written.value.status, s.clock)
    else if e.Serve? then s.nodes[e.id := s.nodes[e.id].(load := e.load, lastUsed := e.lastUsed)]
    else s.nodes
  }

  /** `r.activations`: entry stores the new record, the leader deletes by node id. */
  function TableAfter(s: Cluster, e: Event): map<NodeId, ActId>
    requires Enabled(s, e)
  {
    var entered := Entered(s, e);
    if entered.Some? && MustWake(s.nodes, entered.value) then s.table[entered.value := |s.records|]
    else if e.Delete? then s.table - {s.callers[e.g].node}
    else s.table
  }

  /** The activation objects: created unclosed and without error, then given the error, then closed. */
  function RecordsAfter(s: Cluster, e: Event): seq<Activation>
    requires Enabled(s, e)
  {
    var entered := Entered(s, e);
    if entered.Some? && MustWake(s.nodes, entered.value) then s.records + [Activation(entered.value, e.g, Ok, 0)]
    else if e.Publish? then
      var a := s.callers[e.g].role.act;
      s.records[a := s.records[a].(err := s.callers[e.g].pc.res)]
    else if e.Close? then
      var a := s.callers[e.g].role.act;
      s.records[a := s.records[a].(closes := s.records[a].closes + 1)]
    else s.records
  }

  /** Where a goroutine inside `ActivateNode` goes next. */
  function PcAfter(s: Cluster, e: Event): Pc
    requires EnabledCaller(s, e) && !e.Enter?
  {
    var pc := s.callers[e.g].pc;
    match e
    case PowerOnReturns(g, io) => if Succeeds(s, e) then Polling(s.cfg.attempts) else Recording(Dead, PowerOnFailed)
    case Poll(g, answered) => if answered then Listing else Polling(pc.left - 1)
    case GiveUp(g) => Recording(Dead, NotReady)
    case ListFunctions(g) => Deploying(s.store, 0)
    case DeployReturns(g, name, ok, landed) => Deploying(pc.todo - {name}, if ok then pc.failed else pc.failed + 1)
    case DeployEnds(g) => if pc.failed > 0 then PoweringOff(pc.failed) else Recording(Active, Ok)
    case PowerOffReturns(g, io) =>
      if Succeeds(s, e) then Recording(Sleeping, DeployFailed(pc.failed)) else Recording(Dead, StuckOn(pc.failed))
    case Record(g) => Deleting(pc.res)
    case Delete(g) => Publishing(pc.res)
    case Publish(g) => Closing(pc.res)
    case Close(g) => Returned(pc.res)
    case Release(g) => Returned(s.records[s.callers[g].role.seen.value].err)
    case TimeOut(g) => Returned(TimedOut)
    case Crash(g) => Crashed
  }

  function HeardAfter(s: Cluster, e: Event): Heard
    requires EnabledCaller(s, e) && !e.Enter?
  {
    var heard := s.callers[e.g].heard;
    match e
    case PowerOnReturns(g, io) => heard.(on := Some(Succeeds(s, e)))
    case Poll(g, answered) => heard.(polls := heard.polls + [answered])
    case ListFunctions(g) => heard.(listed := Some(s.store))
    case DeployReturns(g, name, ok, landed) => heard.(deployed := heard.deployed[name := ok])
    case PowerOffReturns(g, io) => heard.(off := Some(Succeeds(s, e)))
    case _ => heard
  }

  function CallersAfter(s: Cluster, e: Event): map<Gid, Caller>
    requires Enabled(s, e)
  {
    var entered := Entered(s, e);
    if entered.Some? then s.callers[e.g := Entering(s, entered.value)]
    else if EnabledCaller(s, e) then s.callers[e.g := s.callers[e.g].(pc := PcAfter(s, e), heard := HeardAfter(s, e))]
    else s.callers
  }

  /** The guard chain of the sweep, on a snapshot copy. */
  predicate MayScaleDown(n: Node, count: int, cfg: Config, now: int)
  {
    !n.local && n.status == Active && n.load <= 0 && count > cfg.minActive
    && ElapsedAtLeast(now, n.lastUsed, cfg.idleTimeout)
  }

  /** One iteration of RecoverDead up to its decision: healthy, cooled down, or left alone. */
  function Check(cfg: Config, now: int, todo: seq<Node>, healthy: bool): Ctl
    requires todo != []
  {
    var n, rest := todo[0], todo[1..];
    if n.status != Dead then Recovering(rest)
    else if healthy && n.managerAddress != "" then Restoring(n.id, Active, rest)
    else if ElapsedAtLeast(now, n.deadSince, cfg.deadRetry) then Restoring(n.id, Sleeping, rest)
    else Recovering(rest)
  }

  /** One iteration of the sweep up to the lookup in `DeactivateNode`, which reads the node afresh. */
  function Consider(cfg: Config, now: int, nodes: Nodes, todo: seq<Node>, count: int): Ctl
    requires todo != []
  {
    var n, rest := todo[0], todo[1..];
    if MayScaleDown(n, count, cfg, now) && n.id in nodes && !nodes[n.id].local
    then CuttingPower(nodes[n.id], rest, count) else Sweeping(rest, count)
  }

  function CtlAfter(s: Cluster, e: Event): Ctl
    requires Enabled(s, e)
  {
    match e
    case CtlWakes(snap) => Recovering(snap)
    case CtlChecks(healthy) => Check(s.cfg, s.clock, s.ctl.todo, healthy)
    case CtlRestores => Recovering(s.ctl.todo)
    case CtlRecovered => Counting
    case CtlLists(snap) => Sweeping(snap, CountServing(snap))
    case CtlConsiders => Consider(s.cfg, s.clock, s.nodes, s.ctl.todo, s.ctl.count)
    case CtlPowersOff(io) =>
      if Succeeds(s, e) then MarkingAsleep(s.ctl.node, s.ctl.todo, s.ctl.count) else Sweeping(s.ctl.todo, s.ctl.count)
    case CtlMarks => Sweeping(s.ctl.todo, s.ctl.count - 1)
    case CtlRests => Resting
    case _ => s.ctl
  }

  function StartupAfter(s: Cluster, e: Event): Startup
    requires Enabled(s, e)
  {
    match e
    case EnforceLists(snap) => Enforcing(snap)
    case EnforceNext(io) => Enforcing(s.startup.todo[1..])
    case EnforceEnds => Finished(map[])
    case PrewarmLists(snap) => Prewarming(snap, map[])
    case PrewarmSpawns(g) =>
      var n := s.startup.todo[0];
      Prewarming(s.startup.todo[1..], if n.local then s.startup.spawned else s.startup.spawned[n.id := g])
    case PrewarmReturns => Finished(s.startup.spawned)
    case _ => s.startup
  }

  function Apply(m: Functions, c: Change): Functions
  {
    match c.def
    case Some(def) => m[c.name := def]
    case None => m - {c.name}
  }

  function UpdatersAfter(s: Cluster, e: Event): map<Uid, Updater>
    requires Enabled(s, e)
  {
    match e
    case UpdateStores(u, change) => s.updaters[u := Stored(change)]
    case BroadcastLists(u, snap) => s.updaters[u := Pushing(s.updaters[u].change, ActiveWorkers(snap))]
    case PushReturns(u, id, landed) => s.updaters[u := Pushing(s.updaters[u].change, s.updaters[u].targets - {id})]
    case UpdateEnds(u) => s.updaters - {u}
    case _ => s.updaters
  }

  function RelaysAfter(s: Cluster, e: Event): Relays
    requires Enabled(s, e)
  {
    var w := CommandOf(s, e);
    if w.Some? then Issue(s.relays, w.value).0 else s.relays
  }

  function HeldAfter(s: Cluster, e: Event): map<NodeId, Functions>
    requires Enabled(s, e)
  {
    if CommandOf(s, e).Some? then Boot(s.nodes, s.relays, RelaysAfter(s, e), s.held)
    else match e
    case DeployReturns(g, name, ok, landed) =>
      var c := s.callers[g];
      if (ok || landed) && c.node in s.held then s.held[c.node := s.held[c.node][name := c.pc.todo[name]]] else s.held
    case PushReturns(u, id, landed) =>
      if landed && id in s.held then s.held[id := Apply(s.held[id], s.updaters[u].change)] else s.held
    case _ => s.held
  }

  function CooledAfter(s: Cluster, e: Event): set<NodeId>
    requires Enabled(s, e)
  {
    var written := StatusWritten(s, e);
    if written.None? then s.cooled
    else if e.CtlRestores? && written.value.status == Sleeping then s.cooled + {written.value.id}
    else s.cooled - {written.value.id}
  }

  function StoreAfter(s: Cluster, e: Event): Functions
    requires Enabled(s, e)
  {
    if e.UpdateStores? then Apply(s.store, e.change) else s.store
  }

  function ClockAfter(s: Cluster, e: Event): int
    requires Enabled(s, e)
  {
    if e.Tick? then s.clock + e.d else s.clock
  }

  function Step(s: Cluster, e: Event): Cluster
    requires Enabled(s, e)
  {
    Cluster(
      s.cfg, NodesAfter(s, e), TableAfter(s, e), RecordsAfter(s, e), CallersAfter(s, e), CtlAfter(s, e),
      StartupAfter(s, e), UpdatersAfter(s, e), RelaysAfter(s, e),
      StoreAfter(s, e), HeldAfter(s, e), CooledAfter(s, e), ClockAfter(s, e))
  }

  // ---------- runs ----------

  /** How the process starts: a topology without a waking node, and nothing in progress. */
  predicate Init(s: Cluster)
  {
    && (forall id :: id in s.nodes ==> s.nodes[id].id == id && s.nodes[id].status != Waking)
    && s.table == map[] && s.records == [] && s.callers == map[]
    && s.ctl.Resting? && s.startup.NotStarted? && s.updaters == map[]
    && s.relays.shadow == map[] && s.cooled == {} && s.store == map[]
    && s.held.Keys == s.nodes.Keys
  }

  datatype Run = Run(states: seq<Cluster>, events: seq<Event>)

  ghost predicate IsRun(r: Run)
  {
    && |r.states| == |r.events| + 1
    && Init(r.states[0])
    && forall i :: 0 <= i < |r.events| ==> Enabled(r.states[i], r.events[i]) && r.states[i + 1] == Step(r.states[i], r.events[i])
  }
}
