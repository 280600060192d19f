/** Building concrete runs of the control plane, from a start the program can really make. */
module Runs {
  import opened Types
  import opened Relay
  import opened RegistrySpec
  import opened Protocol
  import Topology

  // ---------- steps that change few components ----------

  predicate Local(e: Event)
  {
    e.Poll? || e.GiveUp? || e.ListFunctions? || e.DeployEnds? || e.Crash? || (e.DeployReturns? && !e.ok && !e.landed)
  }

  /** An event that moves one goroutine and nothing else. */
  lemma LocalMove(s: Cluster, e: Event)
    requires EnabledCaller(s, e) && Local(e)
    ensures Enabled(s, e)
            && Step(s, e) == s.(callers := s.callers[e.g := s.callers[e.g].(pc := PcAfter(s, e), heard := HeardAfter(s, e))])
  {
  }

  lemma CtlMove(s: Cluster, e: Event)
    requires EnabledCtl(s, e) && !e.CtlPowersOff? && !e.CtlRestores? && !e.CtlMarks?
    ensures Enabled(s, e) && Step(s, e) == s.(ctl := CtlAfter(s, e))
  {
  }

  lemma LeadMove(s: Cluster, g: Gid, id: NodeId)
    requires g !in s.callers && MustWake(s.nodes, id)
    ensures Enabled(s, Enter(g, id))
    ensures Step(s, Enter(g, id)) ==
            s.(nodes := BeginWake(s.nodes, id), table := s.table[id := |s.records|], records := s.records + [Activation(id, g, Ok, 0)],
               callers := s.callers[g := Caller(id, Leader(|s.records|), PoweringOn, NOTHING_HEARD)])
  {
  }

  /** The pc and the relays after a power command of a leader. */
  lemma PowerMove(s: Cluster, e: Event)
    requires EnabledCaller(s, e) && (e.PowerOnReturns? || e.PowerOffReturns?)
    ensures Enabled(s, e)
    ensures var c := s.callers[e.g];
            var (relays, ok) := Issue(s.relays, Switching(s.nodes[c.node], e.PowerOnReturns?, e.io));
            Step(s, e) ==
            s.(relays := relays, held := Boot(s.nodes, s.relays, relays, s.held),
               callers := s.callers[e.g :=
                 if e.PowerOnReturns? then c.(pc := if ok then Polling(s.cfg.attempts) else Recording(Dead, PowerOnFailed), heard := c.heard.(on := Some(ok)))
                 else c.(pc := if ok then Recording(Sleeping, DeployFailed(c.pc.failed)) else Recording(Dead, StuckOn(c.pc.failed)),
                         heard := c.heard.(off := Some(ok)))])
  {
    hide Issue, Boot;
  }

  lemma FollowMove(s: Cluster, g: Gid, id: NodeId)
    requires g !in s.callers && id in s.nodes && s.nodes[id].status == Waking && id !in s.table
    ensures Enabled(s, Enter(g, id))
    ensures Step(s, Enter(g, id)) == s.(callers := s.callers[g := Caller(id, Follower(None), Waiting, NOTHING_HEARD)])
  {
  }

  lemma DeleteMove(s: Cluster, g: Gid)
    requires g in s.callers && s.callers[g].pc.Deleting?
    ensures Enabled(s, Delete(g))
    ensures var c := s.callers[g];
            Step(s, Delete(g)) == s.(table := s.table - {c.node}, callers := s.callers[g := c.(pc := Publishing(c.pc.res))])
  {
  }

  lemma RestoreMove(s: Cluster)
    requires s.cfg.enabled && s.ctl.Restoring?
    ensures Enabled(s, CtlRestores)
    ensures Step(s, CtlRestores) ==
            s.(nodes := SetStatus(s.nodes, s.ctl.id, s.ctl.to, s.clock), ctl := Recovering(s.ctl.todo),
               cooled := if s.ctl.to == Sleeping then s.cooled + {s.ctl.id} else s.cooled - {s.ctl.id})
  {
    hide SetStatus;
  }

  lemma RecordMove(s: Cluster, g: Gid)
    requires g in s.callers && s.callers[g].pc.Recording?
    ensures Enabled(s, Record(g))
    ensures var c := s.callers[g];
            Step(s, Record(g)) ==
            s.(nodes := SetStatus(s.nodes, c.node, c.pc.status, s.clock), callers := s.callers[g := c.(pc := Deleting(c.pc.res))],
               cooled := s.cooled - {c.node})
  {
    hide SetStatus;
  }

  /** Some run whose events all satisfy `ok` ends in this state. */
  ghost predicate Reached(s: Cluster, ok: (Cluster, Event) -> bool)
  {
    exists r: Run :: Ends(r, s, ok)
  }

  ghost predicate Ends(r: Run, s: Cluster, ok: (Cluster, Event) -> bool)
  {
    IsRun(r) && r.states[|r.events|] == s && forall i :: 0 <= i < |r.events| ==> ok(r.states[i], r.events[i])
  }

  lemma Extend(s: Cluster, e: Event, ok: (Cluster, Event) -> bool)
    requires Reached(s, ok) && Enabled(s, e) && ok(s, e)
    ensures Reached(Step(s, e), ok)
  {
    hide Enabled, Step, Init;
    var r :| Ends(r, s, ok);
    assert Ends(Run(r.states + [Step(s, e)], r.events + [e]), Step(s, e), ok);
  }

  lemma Begin(s: Cluster, ok: (Cluster, Event) -> bool)
    requires Init(s)
    ensures Reached(s, ok)
  {
    hide Init, Enabled, Step;
    assert Ends(Run([s], []), s, ok);
  }

  /** A run that meets a stronger condition meets a weaker one. */
  lemma Weaken(s: Cluster, p: (Cluster, Event) -> bool, q: (Cluster, Event) -> bool)
    requires Reached(s, p) && forall t, e :: p(t, e) ==> q(t, e)
    ensures Reached(s, q)
  {
    hide Enabled, Step, Init;
    var r :| Ends(r, s, p);
    forall i | 0 <= i < |r.events| ensures q(r.states[i], r.events[i]) {
      assert p(r.states[i], r.events[i]);
    }
    assert Ends(r, s, q);
  }

  // ---------- the leader and one worker ----------

  const L := NodeId("leader")
  const W := NodeId("w")

  /** The machine this runs on: always active, and dispatching only. */
  function Dispatcher(): Node
  {
    Node(L, "", "", "", 0, Active, 0, Never, Never, true, true)
  }

  function Worker(status: Status): Node
  {
    Node(W, "10.0.0.2:8000", "10.0.0.2:8080", "r", 0, status, 0, Never, Never, false, false)
  }

  /** The node table and its snapshot, for a worker as it is now. */
  function Table(n: Node): Nodes
  {
    map[L := Dispatcher(), W := n]
  }

  function Both(n: Node): seq<Node>
  {
    [Dispatcher(), n]
  }

  /** The leader, and one worker on channel 0 of the default relay. */
  function Start(status: Status, on: bool, minActive: int): Cluster
  {
    Cluster(Config(true, 0, minActive, 0, 1), Table(Worker(status)), map[], [], map[], Resting, NotStarted, map[],
            Relays("r", map[], map["r" := Channels(on, false)]), map[], map[L := map[], W := map[]], {}, 0)
  }

  /** The topology these runs start from is one that loading accepts, for any status the file may preset. */
  lemma StartIsAccepted(status: Status, on: bool, minActive: int)
    ensures Topology.WellFormed(Both(Worker(status)))
    ensures Topology.Registered(Both(Worker(status))) == Start(status, on, minActive).nodes
  {
    var nodes := Both(Worker(status));
    assert nodes[..1] == [Dispatcher()] && [Dispatcher()][..0] == [];
    assert Topology.Locals([Dispatcher()]) == 1;
    assert !nodes[1].dispatchOnly;
  }

  lemma StartIsInit(status: Status, on: bool, minActive: int)
    requires status != Waking
    ensures Init(Start(status, on, minActive))
  {
  }

  lemma TwoSnapshot(n: Node)
    requires n.id == W
    ensures IsSnapshot(Table(n), Both(n))
  {
    assert Both(n)[0] == Dispatcher() && Both(n)[1] == n;
  }

  lemma StartFacts(status: Status, on: bool, minActive: int)
    requires status != Waking
    ensures var s, n := Start(status, on, minActive), Worker(status);
            && Init(s) && s.cfg == Config(true, 0, minActive, 0, 1) && s.startup.NotStarted? && s.updaters == map[]
            && s.store == map[] && s.ctl.Resting? && s.clock == 0 && s.callers == map[]
            && s.nodes == Table(n) && IsSnapshot(s.nodes, Both(n)) && n.id == W && n.status == status
            && n.managerAddress != "" && !n.local && n.relayUid == "r" && n.channel == 0
            && s.relays == Relays("r", map[], map["r" := Channels(on, false)])
            && s.held == map[L := map[], W := map[]] && On(s, W) == on
  {
    StartIsInit(status, on, minActive);
    TwoSnapshot(Worker(status));
    hide Init, IsSnapshot;
  }

  /** A recovery pass sees the one worker dead and decides about it, without having written yet. */
  lemma DecideRecovery(s: Cluster, n: Node, healthy: bool, ok: (Cluster, Event) -> bool) returns (s': Cluster)
    requires Reached(s, ok) && s.cfg.enabled && s.ctl.Resting? && s.nodes == Table(n)
    requires n.id == W && n.status == Dead
             && (if healthy then n.managerAddress != "" else ElapsedAtLeast(s.clock, n.deadSince, s.cfg.deadRetry))
    requires ok(s, CtlWakes(Both(n))) && ok(s.(ctl := Recovering(Both(n))), CtlChecks(false))
    requires ok(s.(ctl := Recovering([n])), CtlChecks(healthy))
    ensures s' == s.(ctl := Restoring(W, if healthy then Active else Sleeping, [])) && Reached(s', ok)
  {
    hide Step, Enabled, IsSnapshot, ElapsedAtLeast, Reached;
    TwoSnapshot(n);
    CtlMove(s, CtlWakes(Both(n)));
    Extend(s, CtlWakes(Both(n)), ok);
    var s1 := s.(ctl := Recovering(Both(n)));
    assert Both(n)[0] == Dispatcher() && Both(n)[1..] == [n];
    CtlMove(s1, CtlChecks(false));
    Extend(s1, CtlChecks(false), ok);
    var s2 := s.(ctl := Recovering([n]));
    assert [n][0] == n && [n][1..] == [];
    CtlMove(s2, CtlChecks(healthy));
    Extend(s2, CtlChecks(healthy), ok);
    s' := s.(ctl := Restoring(W, if healthy then Active else Sleeping, []));
  }

  lemma Lead(s: Cluster, g: Gid, ok: (Cluster, Event) -> bool) returns (s': Cluster)
    requires Reached(s, ok) && g !in s.callers && MustWake(s.nodes, W) && ok(s, Enter(g, W))
    ensures Reached(s', ok)
    ensures s' == s.(nodes := BeginWake(s.nodes, W), table := s.table[W := |s.records|], records := s.records + [Activation(W, g, Ok, 0)],
                     callers := s.callers[g := Caller(W, Leader(|s.records|), PoweringOn, NOTHING_HEARD)])
  {
    hide Step, Enabled, Reached;
    LeadMove(s, g, W);
    Extend(s, Enter(g, W), ok);
    s' := Step(s, Enter(g, W));
  }

  lemma Restore(s: Cluster, ok: (Cluster, Event) -> bool) returns (s': Cluster)
    requires Reached(s, ok) && s.cfg.enabled && s.ctl.Restoring? && ok(s, CtlRestores)
    ensures Reached(s', ok)
    ensures s' == s.(nodes := SetStatus(s.nodes, s.ctl.id, s.ctl.to, s.clock), ctl := Recovering(s.ctl.todo),
                     cooled := if s.ctl.to == Sleeping then s.cooled + {s.ctl.id} else s.cooled - {s.ctl.id})
  {
    hide Step, Enabled, Reached, SetStatus;
    RestoreMove(s);
    Extend(s, CtlRestores, ok);
    s' := Step(s, CtlRestores);
  }

  const ANYTHING := (s: Cluster, e: Event) => true
  const NO_READ := Io(false, Written)
  const WORKS := Io(true, Written)

  // ---------- the worker's outlet, open and closed ----------

  const OFF := Relays("r", map["r" := Channels(false, false)], map["r" := Channels(false, false)])
  const LIT := Relays("r", map["r" := Channels(true, false)], map["r" := Channels(true, false)])

  lemma Switched(r: Relays, n: Node, on: bool)
    requires r.defaultUid == "r" && r.hw.Keys == {"r"} && !r.hw["r"].c1 && (r.shadow == map[] || r.shadow == r.hw)
    requires n.relayUid == "r" && n.channel == 0
    ensures Issue(r, Switching(n, on, WORKS)) == (if on then LIT else OFF, true)
  {
    var next := Channels(on, false);
    assert r.hw["r" := next] == map["r" := next] && r.shadow["r" := next] == map["r" := next];
  }

  /** Closing the outlet boots the worker with nothing deployed; the leader is on no outlet. */
  lemma Booting(nodes: Nodes, held: map<NodeId, Functions>)
    requires W in nodes && nodes == Table(nodes[W]) && held.Keys == {L, W}
    requires !nodes[W].local && nodes[W].relayUid == "r" && nodes[W].channel == 0
    ensures Boot(nodes, OFF, LIT, held) == held[W := map[]]
  {
    var booted := Boot(nodes, OFF, LIT, held);
    assert nodes[L].local && !Powered(OFF, nodes[W]) && Powered(LIT, nodes[W]);
    hide Powered, Table;
    assert booted.Keys == held.Keys && booted[L] == held[L] && booted[W] == map[];
    hide Boot;
  }

  lemma Staying(nodes: Nodes, r: Relays, held: map<NodeId, Functions>)
    ensures Boot(nodes, r, r, held) == held
  {
  }

  lemma Cutting(nodes: Nodes, r: Relays, held: map<NodeId, Functions>)
    requires W in nodes && nodes == Table(nodes[W]) && !nodes[W].local && nodes[W].relayUid == "r"
             && nodes[W].channel == 0
    ensures Boot(nodes, r, OFF, held) == held
  {
  }

  // ---------- the same moves, along a run ----------

  lemma Power(s: Cluster, e: Event, ok: (Cluster, Event) -> bool) returns (s': Cluster)
    requires Reached(s, ok) && EnabledCaller(s, e) && (e.PowerOnReturns? || e.PowerOffReturns?) && ok(s, e)
    ensures Reached(s', ok)
    ensures var c := s.callers[e.g];
            var (relays, worked) := Issue(s.relays, Switching(s.nodes[c.node], e.PowerOnReturns?, e.io));
            s' ==
            s.(relays := relays, held := Boot(s.nodes, s.relays, relays, s.held),
               callers := s.callers[e.g :=
                 if e.PowerOnReturns? then c.(pc := if worked then Polling(s.cfg.attempts) else Recording(Dead, PowerOnFailed), heard := c.heard.(on := Some(worked)))
                 else c.(pc := if worked then Recording(Sleeping, DeployFailed(c.pc.failed)) else Recording(Dead, StuckOn(c.pc.failed)),
                         heard := c.heard.(off := Some(worked)))])
  {
    hide Step, Enabled, Reached, Issue, Boot;
    PowerMove(s, e);
    Extend(s, e, ok);
    s' := Step(s, e);
  }

  lemma Own(s: Cluster, e: Event, ok: (Cluster, Event) -> bool) returns (s': Cluster)
    requires Reached(s, ok) && EnabledCaller(s, e) && Local(e) && ok(s, e)
    ensures Reached(s', ok)
    ensures s' == s.(callers := s.callers[e.g := s.callers[e.g].(pc := PcAfter(s, e), heard := HeardAfter(s, e))])
  {
    hide Step, Enabled, Reached, PcAfter, HeardAfter;
    LocalMove(s, e);
    Extend(s, e, ok);
    s' := Step(s, e);
  }

  lemma Final(s: Cluster, g: Gid, ok: (Cluster, Event) -> bool) returns (s': Cluster)
    requires Reached(s, ok) && g in s.callers && s.callers[g].pc.Recording? && ok(s, Record(g))
    ensures Reached(s', ok)
    ensures var c := s.callers[g];
            s' == s.(nodes := SetStatus(s.nodes, c.node, c.pc.status, s.clock), callers := s.callers[g := c.(pc := Deleting(c.pc.res))],
                     cooled := s.cooled - {c.node})
  {
    hide Step, Enabled, Reached, SetStatus;
    RecordMove(s, g);
    Extend(s, Record(g), ok);
    s' := Step(s, Record(g));
  }

  // ---------- startup and updates ----------

  predicate Passes(s: Cluster, e: Event)
  {
    e.EnforceNext? && s.startup.Enforcing? && s.startup.todo != []
    && (s.startup.todo[0].local || s.startup.todo[0].status != Sleeping)
  }

  /** An event of startup or of an update handler that touches no relay and no worker. */
  predicate Aside(s: Cluster, e: Event)
  {
    e.EnforceLists? || e.EnforceEnds? || e.UpdateStores? || e.BroadcastLists? || e.UpdateEnds? || Passes(s, e)
  }

  lemma AsideMove(s: Cluster, e: Event)
    requires EnabledRest(s, e) && Aside(s, e)
    ensures Enabled(s, e) && CommandOf(s, e).None?
    ensures Step(s, e) == s.(startup := StartupAfter(s, e), updaters := UpdatersAfter(s, e), store := StoreAfter(s, e))
  {
    hide IsSnapshot;
  }

  lemma Quietly(s: Cluster, e: Event, ok: (Cluster, Event) -> bool) returns (s': Cluster)
    requires Reached(s, ok) && EnabledRest(s, e) && Aside(s, e) && ok(s, e)
    ensures Reached(s', ok)
    ensures Enabled(s, e)
            && s' == s.(startup := StartupAfter(s, e), updaters := UpdatersAfter(s, e), store := StoreAfter(s, e))
  {
    hide Reached, Step, Enabled, StartupAfter, UpdatersAfter, StoreAfter, Aside;
    AsideMove(s, e);
    Extend(s, e, ok);
    s' := Step(s, e);
  }

  lemma OnlyWorkerListed(n: Node)
    requires n.id == W && !n.local
    ensures ActiveWorkers(Both(n)) == if n.status == Active then {W} else {}
  {
    assert Both(n)[0] == Dispatcher() && Both(n)[1] == n;
    if n.status == Active {
      assert W in ActiveWorkers(Both(n));
    }
  }

  lemma StoreAlong(s: Cluster, u: Uid, change: Change, ok: (Cluster, Event) -> bool) returns (s': Cluster)
    requires Reached(s, ok) && u !in s.updaters && ok(s, UpdateStores(u, change))
    ensures Reached(s', ok) && s' == s.(updaters := s.updaters[u := Stored(change)], store := Apply(s.store, change))
  {
    hide Reached, Apply;
    s' := Quietly(s, UpdateStores(u, change), ok);
  }

  /** A handler lists its targets: the worker if it is active. */
  lemma ListAlong(s: Cluster, u: Uid, n: Node, ok: (Cluster, Event) -> bool) returns (s': Cluster)
    requires Reached(s, ok) && u in s.updaters && s.updaters[u].Stored? && s.nodes == Table(n) && n.id == W && !n.local
    requires ok(s, BroadcastLists(u, Both(n)))
    ensures Reached(s', ok)
    ensures s' == s.(updaters := s.updaters[u := Pushing(s.updaters[u].change, if n.status == Active then {W} else {})])
  {
    hide Reached, IsSnapshot, ActiveWorkers, Both, Table;
    TwoSnapshot(n);
    OnlyWorkerListed(n);
    s' := Quietly(s, BroadcastLists(u, Both(n)), ok);
  }

  lemma EndAlong(s: Cluster, u: Uid, ok: (Cluster, Event) -> bool) returns (s': Cluster)
    requires Reached(s, ok) && u in s.updaters && s.updaters[u].Pushing? && s.updaters[u].targets == {}
             && ok(s, UpdateEnds(u))
    ensures Reached(s', ok) && s' == s.(updaters := s.updaters - {u})
  {
    hide Reached;
    s' := Quietly(s, UpdateEnds(u), ok);
  }

  lemma PushMove(s: Cluster, u: Uid, id: NodeId)
    requires EnabledRest(s, PushReturns(u, id, true)) && id in s.held
    ensures var e := PushReturns(u, id, true);
            && Enabled(s, e)
            && Step(s, e) == s.(updaters := s.updaters[u := Pushing(s.updaters[u].change, s.updaters[u].targets - {id})],
                                held := s.held[id := Apply(s.held[id], s.updaters[u].change)])
  {
    hide Apply;
  }

  lemma Push(s: Cluster, u: Uid, id: NodeId, ok: (Cluster, Event) -> bool) returns (s': Cluster)
    requires Reached(s, ok) && EnabledRest(s, PushReturns(u, id, true)) && id in s.held
             && ok(s, PushReturns(u, id, true))
    ensures Reached(s', ok)
    ensures s' == s.(updaters := s.updaters[u := Pushing(s.updaters[u].change, s.updaters[u].targets - {id})],
                     held := s.held[id := Apply(s.held[id], s.updaters[u].change)])
  {
    hide Reached, Step, Enabled, Apply;
    PushMove(s, u, id);
    Extend(s, PushReturns(u, id, true), ok);
    s' := Step(s, PushReturns(u, id, true));
  }

  const DEF := FunctionDef("python3", 1, map[], "")
  const CHANGE := Change("f", Some(DEF))
}
