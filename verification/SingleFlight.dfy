/**
 Single-flight wake: a node is waking exactly while one goroutine is between its transition to Waking and its final
 SetStatus.
 */
module SingleFlight {
  import opened Types
  import opened RegistrySpec
  import opened Protocol
  import opened Frames

  predicate Wakes(c: Caller, id: NodeId)
  {
    c.node == id && InFlight(c.pc)
  }

  function Wakers(callers: Callers, id: NodeId): set<Gid>
  {
    set g | g in callers && Wakes(callers[g], id)
  }

  /** The property: Waking iff exactly one waker, and otherwise none. */
  ghost predicate OneWaker(nodes: Nodes, callers: Callers)
  {
    forall id :: id in nodes ==> |Wakers(callers, id)| == if nodes[id].status == Waking then 1 else 0
  }

  /** What is left of the sweep's snapshot, the node being switched off first. */
  function Pending(c: Ctl): seq<Node>
  {
    match c
    case Sweeping(todo, _) => todo
    case CuttingPower(n, todo, _) => [n] + todo
    case MarkingAsleep(n, todo, _) => [n] + todo
    case _ => []
  }

  /** Nodes a snapshot recorded as active are still active. */
  ghost predicate StillActive(nodes: Nodes, p: seq<Node>)
  {
    forall n :: n in p && n.status == Active ==> n.id in nodes && nodes[n.id].status == Active
  }

  ghost predicate DistinctIds(p: seq<Node>)
  {
    forall i, j :: 0 <= i < j < |p| ==> p[i].id != p[j].id
  }

  /** Nodes the sweep still believes active are active: only the sweep itself puts an active node to sleep. */
  ghost predicate SweepFresh(nodes: Nodes, c: Ctl)
  {
    && StillActive(nodes, Pending(c))
    && DistinctIds(Pending(c))
    && (c.CuttingPower? || c.MarkingAsleep? ==> c.node.status == Active)
  }

  ghost predicate ActiveKept(nodes: Nodes, nodes': Nodes)
  {
    forall id :: id in nodes && nodes[id].status == Active ==> id in nodes' && nodes'[id].status == Active
  }

  /** A goroutine in flight wakes a known node and never records Waking. */
  predicate SoundCaller(nodes: Nodes, c: Caller)
  {
    (InFlight(c.pc) ==> c.node in nodes) && (c.pc.Recording? ==> c.pc.status != Waking)
  }

  ghost predicate SoundCallers(nodes: Nodes, callers: Callers)
  {
    forall g :: g in callers ==> SoundCaller(nodes, callers[g])
  }

  ghost predicate InvOf(nodes: Nodes, callers: Callers, ctl: Ctl)
  {
    && OwnIds(nodes)
    && SoundCallers(nodes, callers)
    && OneWaker(nodes, callers)
    && SweepFresh(nodes, ctl)
    && (ctl.Restoring? ==> ctl.to != Waking)
  }

  ghost predicate Inv(s: Cluster)
  {
    InvOf(s.nodes, s.callers, s.ctl)
  }

  /** RecoverDead overwrites a node that has meanwhile started waking. */
  predicate RecoverOverWaking(s: Cluster, e: Event)
  {
    e.CtlRestores? && s.ctl.Restoring? && s.ctl.id in s.nodes && s.nodes[s.ctl.id].status == Waking
  }

  // ---------- wakers and single moves ----------

  lemma WakersMoved(callers: Callers, g: Gid, c: Caller, id: NodeId)
    requires g in callers && c.node == callers[g].node && InFlight(c.pc) == InFlight(callers[g].pc)
    ensures Wakers(callers[g := c], id) == Wakers(callers, id)
  {
  }

  lemma WakersLeft(callers: Callers, g: Gid, c: Caller, id: NodeId)
    requires g in callers && c.node == callers[g].node && InFlight(callers[g].pc) && !InFlight(c.pc)
    ensures Wakers(callers[g := c], id) == Wakers(callers, id) - (if id == c.node then {g} else {})
  {
  }

  lemma WakersJoined(callers: Callers, g: Gid, c: Caller, id: NodeId)
    requires g !in callers
    ensures Wakers(callers[g := c], id) == Wakers(callers, id) + (if Wakes(c, id) then {g} else {})
  {
  }

  /** The final SetStatus turns the one waker into none. */
  lemma RecordOneWaker(nodes: Nodes, callers: Callers, g: Gid, c: Caller, status: Status, now: int)
    requires OneWaker(nodes, callers) && g in callers && callers[g].node in nodes
    requires InFlight(callers[g].pc) && c.node == callers[g].node && !InFlight(c.pc) && status != Waking
    ensures OneWaker(SetStatus(nodes, c.node, status, now), callers[g := c])
  {
    forall id | id in nodes
      ensures |Wakers(callers[g := c], id)| == if SetStatus(nodes, c.node, status, now)[id].status == Waking then 1 else 0
    {
      WakersLeft(callers, g, c, id);
      if id == c.node {
        assert g in Wakers(callers, id);
      }
    }
  }

  /** Entering a node that is neither active nor waking makes the caller its one waker. */
  lemma EnterOneWaker(nodes: Nodes, callers: Callers, g: Gid, c: Caller)
    requires OneWaker(nodes, callers) && g !in callers && InFlight(c.pc)
    requires c.node in nodes && nodes[c.node].status != Waking
    ensures OneWaker(BeginWake(nodes, c.node), callers[g := c])
  {
    forall id | id in nodes
      ensures |Wakers(callers[g := c], id)| == if BeginWake(nodes, c.node)[id].status == Waking then 1 else 0
    {
      WakersJoined(callers, g, c, id);
    }
  }

  lemma JoinIdle(nodes: Nodes, callers: Callers, g: Gid, c: Caller)
    requires OneWaker(nodes, callers) && g !in callers && !InFlight(c.pc)
    ensures OneWaker(nodes, callers[g := c])
  {
    forall id ensures Wakers(callers[g := c], id) == Wakers(callers, id) {
      WakersJoined(callers, g, c, id);
    }
  }

  /** Changing statuses among the ones other than Waking does not concern the wakers. */
  lemma StatusOneWaker(nodes: Nodes, callers: Callers, id: NodeId, status: Status, now: int)
    requires OneWaker(nodes, callers) && id in nodes && nodes[id].status != Waking && status != Waking
    ensures OneWaker(SetStatus(nodes, id, status, now), callers)
  {
  }

  // ---------- every step keeps the invariant ----------

  lemma JoinKeeps(nodes: Nodes, callers: Callers, ctl: Ctl, g: Gid, c: Caller)
    requires InvOf(nodes, callers, ctl) && g !in callers && !c.pc.Recording?
    requires InFlight(c.pc) ==> MustWake(nodes, c.node)
    ensures InvOf(if InFlight(c.pc) then BeginWake(nodes, c.node) else nodes, callers[g := c], ctl)
  {
    if InFlight(c.pc) {
      EnterOneWaker(nodes, callers, g, c);
      assert ActiveKept(nodes, BeginWake(nodes, c.node));
    } else {
      JoinIdle(nodes, callers, g, c);
    }
  }

  lemma RecordKeeps(nodes: Nodes, callers: Callers, ctl: Ctl, g: Gid, c: Caller, now: int)
    requires InvOf(nodes, callers, ctl) && g in callers && callers[g].pc.Recording?
    requires c.node == callers[g].node && !InFlight(c.pc)
    ensures InvOf(SetStatus(nodes, c.node, callers[g].pc.status, now), callers[g := c], ctl)
  {
    assert SoundCaller(nodes, callers[g]);
    RecordOneWaker(nodes, callers, g, c, callers[g].pc.status, now);
    assert g in Wakers(callers, c.node);
    assert ActiveKept(nodes, SetStatus(nodes, c.node, callers[g].pc.status, now));
  }

  lemma MoveKeeps(nodes: Nodes, callers: Callers, ctl: Ctl, g: Gid, c: Caller)
    requires InvOf(nodes, callers, ctl) && g in callers && c.node == callers[g].node
    requires InFlight(c.pc) == InFlight(callers[g].pc) && (c.pc.Recording? ==> c.pc.status != Waking)
    ensures InvOf(nodes, callers[g := c], ctl)
  {
    forall id ensures Wakers(callers[g := c], id) == Wakers(callers, id) {
      WakersMoved(callers, g, c, id);
    }
    assert SoundCaller(nodes, callers[g]);
  }

  lemma CallerKeeps(s: Cluster, e: Event)
    requires Inv(s) && EnabledCaller(s, e)
    ensures InvOf(NodesAfter(s, e), CallersAfter(s, e), CtlAfter(s, e))
  {
    if e.Enter? {
      JoinKeeps(s.nodes, s.callers, s.ctl, e.g, Entering(s, e.id));
    } else {
      PcMoves(s, e);
      var c := s.callers[e.g].(pc := PcAfter(s, e), heard := HeardAfter(s, e));
      hide PcAfter, HeardAfter, InvOf;
      if e.Record? {
        RecordKeeps(s.nodes, s.callers, s.ctl, e.g, c, s.clock);
      } else {
        MoveKeeps(s.nodes, s.callers, s.ctl, e.g, c);
      }
    }
  }

  lemma DropHead(nodes: Nodes, c: Ctl)
    requires SweepFresh(nodes, c) && (c.CuttingPower? || c.MarkingAsleep?)
    ensures DistinctIds(c.todo) && StillActive(nodes, c.todo)
    ensures forall n :: n in c.todo ==> n.id != c.node.id
  {
    var p := Pending(c);
    assert p[0] == c.node && p[1..] == c.todo;
    forall n | n in c.todo ensures n.id != c.node.id && n in p {
      var i :| 0 <= i < |c.todo| && c.todo[i] == n;
      assert p[i + 1] == n;
    }
  }

  /** What the sweep has left shrinks by its head, which may be replaced by the freshly read node. */
  lemma ConsiderKeeps(cfg: Config, now: int, nodes: Nodes, todo: seq<Node>, count: int)
    requires OwnIds(nodes) && SweepFresh(nodes, Sweeping(todo, count)) && todo != []
    ensures SweepFresh(nodes, Consider(cfg, now, nodes, todo, count))
  {
    var c := Consider(cfg, now, nodes, todo, count);
    assert todo[0] in todo;
    if c.Sweeping? {
      assert Pending(c) == todo[1..];
    } else {
      var p := Pending(c);
      assert p[0].id == todo[0].id && p[1..] == todo[1..];
      forall i, j | 0 <= i < j < |p| ensures p[i].id != p[j].id {
        assert p[j] == todo[j];
      }
    }
  }

  lemma MarkKeeps(nodes: Nodes, callers: Callers, c: Ctl, now: int)
    requires InvOf(nodes, callers, c) && c.MarkingAsleep?
    ensures InvOf(SetStatus(nodes, c.node.id, Sleeping, now), callers, Sweeping(c.todo, c.count - 1))
  {
    DropHead(nodes, c);
    assert c.node in Pending(c);
    StatusOneWaker(nodes, callers, c.node.id, Sleeping, now);
  }

  lemma RestoreKeeps(nodes: Nodes, callers: Callers, c: Ctl, now: int)
    requires InvOf(nodes, callers, c) && c.Restoring?
    requires c.id in nodes ==> nodes[c.id].status != Waking
    ensures InvOf(SetStatus(nodes, c.id, c.to, now), callers, Recovering(c.todo))
  {
    if c.id in nodes {
      StatusOneWaker(nodes, callers, c.id, c.to, now);
    }
  }

  /** A recovery check leaves nothing to sweep, and restores a node as active or sleeping. */
  lemma CheckSweepsNothing(cfg: Config, now: int, todo: seq<Node>, healthy: bool)
    requires todo != []
    ensures var c := Check(cfg, now, todo, healthy);
            Pending(c) == [] && (c.Recovering? || (c.Restoring? && (c.to == Active || c.to == Sleeping)))
  {
    hide ElapsedAtLeast;
  }

  lemma CtlKeeps(s: Cluster, e: Event)
    requires Inv(s) && EnabledCtl(s, e) && !RecoverOverWaking(s, e)
    ensures InvOf(NodesAfter(s, e), CallersAfter(s, e), CtlAfter(s, e))
  {
    hide OneWaker, SoundCallers, OwnIds, Succeeds, EnabledRest, Check;
    match e
    case CtlMarks => MarkKeeps(s.nodes, s.callers, s.ctl, s.clock);
    case CtlRestores => RestoreKeeps(s.nodes, s.callers, s.ctl, s.clock);
    case CtlConsiders => ConsiderKeeps(s.cfg, s.clock, s.nodes, s.ctl.todo, s.ctl.count);
    case CtlPowersOff(io) => DropHead(s.nodes, s.ctl);
    case CtlChecks(healthy) => CheckSweepsNothing(s.cfg, s.clock, s.ctl.todo, healthy);
    case _ =>
  }

  lemma RestKeeps(s: Cluster, e: Event)
    requires Inv(s) && EnabledRest(s, e)
    ensures InvOf(NodesAfter(s, e), CallersAfter(s, e), CtlAfter(s, e))
  {
    if Entered(s, e).Some? {
      JoinKeeps(s.nodes, s.callers, s.ctl, e.g, Entering(s, Entered(s, e).value));
    }
  }

  lemma StepKeeps(s: Cluster, e: Event)
    requires Inv(s) && Enabled(s, e) && !RecoverOverWaking(s, e)
    ensures InvOf(NodesAfter(s, e), CallersAfter(s, e), CtlAfter(s, e))
  {
    hide InvOf, NodesAfter, CallersAfter, CtlAfter;
    if EnabledCaller(s, e) {
      CallerKeeps(s, e);
    } else if EnabledCtl(s, e) {
      CtlKeeps(s, e);
    } else {
      RestKeeps(s, e);
    }
  }

  /** A goroutine in flight stands for a waking node. */
  lemma InFlightWaking(s: Cluster, g: Gid)
    requires Inv(s) && g in s.callers && InFlight(s.callers[g].pc)
    ensures s.callers[g].node in s.nodes && s.nodes[s.callers[g].node].status == Waking
  {
    assert SoundCaller(s.nodes, s.callers[g]);
    assert g in Wakers(s.callers, s.callers[g].node);
  }

  // ---------- whole runs ----------

  lemma InitKeeps(s: Cluster)
    requires Init(s)
    ensures Inv(s)
  {
    forall id ensures Wakers(s.callers, id) == {} {}
  }

  lemma {:induction false} InvHolds(r: Run, n: nat)
    requires IsRun(r) && n < |r.states|
    requires forall i :: 0 <= i < n ==> !RecoverOverWaking(r.states[i], r.events[i])
    ensures Inv(r.states[n])
  {
    if n == 0 {
      InitKeeps(r.states[0]);
    } else {
      InvHolds(r, n - 1);
      RunStep(r, n - 1);
      hide NodesAfter, CallersAfter, CtlAfter, InvOf, Enabled;
      StepKeeps(r.states[n - 1], r.events[n - 1]);
    }
  }

  /** A recovery write over a waking node leaves its waker behind. */
  lemma RecoverOverWakingBreaks(s: Cluster, e: Event)
    requires Inv(s) && Enabled(s, e) && RecoverOverWaking(s, e)
    ensures !OneWaker(NodesAfter(s, e), CallersAfter(s, e))
  {
    assert CallersAfter(s, e) == s.callers;
    assert |Wakers(s.callers, s.ctl.id)| == 1;
  }

  /** A run is single-flight throughout exactly when RecoverDead never writes over a waking node. */
  lemma SingleFlightExactly(r: Run)
    requires IsRun(r)
    ensures (forall i :: 0 <= i < |r.states| ==> OneWaker(r.states[i].nodes, r.states[i].callers))
       <==> (forall i :: 0 <= i < |r.events| ==> !RecoverOverWaking(r.states[i], r.events[i]))
  {
    hide Enabled, Init, Step;
    if forall i :: 0 <= i < |r.events| ==> !RecoverOverWaking(r.states[i], r.events[i]) {
      forall i | 0 <= i < |r.states| ensures OneWaker(r.states[i].nodes, r.states[i].callers) {
        InvHolds(r, i);
      }
    } else {
      var k := FirstOverwrite(r);
      InvHolds(r, k);
      RunStep(r, k);
      hide NodesAfter, CallersAfter;
      RecoverOverWakingBreaks(r.states[k], r.events[k]);
      assert !OneWaker(r.states[k + 1].nodes, r.states[k + 1].callers);
    }
  }

  lemma FirstOverwrite(r: Run) returns (k: nat)
    requires IsRun(r) && exists i :: 0 <= i < |r.events| && RecoverOverWaking(r.states[i], r.events[i])
    ensures k < |r.events| && RecoverOverWaking(r.states[k], r.events[k])
    ensures forall i :: 0 <= i < k ==> !RecoverOverWaking(r.states[i], r.events[i])
  {
    hide Step, Enabled, Init;
    k := 0;
    while !RecoverOverWaking(r.states[k], r.events[k])
      invariant k < |r.events|
      invariant forall i :: 0 <= i < k ==> !RecoverOverWaking(r.states[i], r.events[i])
      invariant exists i :: k <= i < |r.events| && RecoverOverWaking(r.states[i], r.events[i])
      decreases |r.events| - k
    {
      k := k + 1;
    }
  }

  /** While a wake is past its PowerOn call, no other PowerOn for that node can start. */
  lemma NoSecondPowerOn(s: Cluster, g: Gid, h: Gid, io: Relay.Io)
    requires Inv(s) && g in s.callers && InFlight(s.callers[g].pc) && !s.callers[g].pc.PoweringOn?
    requires h in s.callers && s.callers[h].node == s.callers[g].node
    ensures !Enabled(s, PowerOnReturns(h, io))
  {
    var id := s.callers[g].node;
    assert SoundCaller(s.nodes, s.callers[g]);
    if s.callers[h].pc.PoweringOn? {
      assert {g, h} <= Wakers(s.callers, id);
      assert |{g, h}| == 2;
      SubsetSize({g, h}, Wakers(s.callers, id));
    }
  }

  lemma SubsetSize<T>(a: set<T>, b: set<T>)
    requires a <= b
    ensures |a| <= |b|
  {
    assert b == a + (b - a);
  }

  /** Two goroutines waking the same node are one. */
  lemma OnlyWaker(s: Cluster, g: Gid, h: Gid)
    requires Inv(s) && g in s.callers && h in s.callers && s.callers[g].node == s.callers[h].node
    requires InFlight(s.callers[g].pc) && InFlight(s.callers[h].pc)
    ensures g == h
  {
    var id := s.callers[g].node;
    assert SoundCaller(s.nodes, s.callers[g]);
    if g != h {
      assert {g, h} <= Wakers(s.callers, id);
      assert |{g, h}| == 2;
      SubsetSize({g, h}, Wakers(s.callers, id));
    }
  }

  // ---------- counting PowerOn calls ----------

  predicate IsPowerOn(s: Cluster, e: Event, id: NodeId)
  {
    e.PowerOnReturns? && e.g in s.callers && s.callers[e.g].node == id
  }

  predicate EntersWaking(nodes: Nodes, nodes': Nodes, id: NodeId)
  {
    id in nodes && id in nodes' && nodes[id].status != Waking && nodes'[id].status == Waking
  }

  ghost function PowerOns(r: Run, id: NodeId, n: nat): nat
    requires IsRun(r) && n < |r.states|
  {
    if n == 0 then 0
    else PowerOns(r, id, n - 1) + if IsPowerOn(r.states[n - 1], r.events[n - 1], id) then 1 else 0
  }

  ghost function WakeEntries(r: Run, id: NodeId, n: nat): nat
    requires IsRun(r) && n < |r.states|
  {
    if n == 0 then 0
    else WakeEntries(r, id, n - 1) + if EntersWaking(r.states[n - 1].nodes, r.states[n].nodes, id) then 1 else 0
  }

  /** Goroutines that have marked the node waking but not yet called PowerOn. */
  function AboutToPower(callers: Callers, id: NodeId): set<Gid>
  {
    set g | g in callers && callers[g].node == id && callers[g].pc.PoweringOn?
  }

  lemma JoinCounts(callers: Callers, g: Gid, c: Caller, id: NodeId)
    requires g !in callers
    ensures |AboutToPower(callers[g := c], id)|
         == |AboutToPower(callers, id)| + (if c.pc.PoweringOn? && c.node == id then 1 else 0)
  {
    assert AboutToPower(callers[g := c], id)
        == AboutToPower(callers, id) + (if c.pc.PoweringOn? && c.node == id then {g} else {});
  }

  lemma MoveCounts(callers: Callers, g: Gid, c: Caller, id: NodeId)
    requires g in callers && c.node == callers[g].node && !c.pc.PoweringOn?
    ensures |AboutToPower(callers, id)|
         == |AboutToPower(callers[g := c], id)| + (if callers[g].pc.PoweringOn? && c.node == id then 1 else 0)
  {
    assert AboutToPower(callers[g := c], id)
        == AboutToPower(callers, id) - (if callers[g].pc.PoweringOn? && c.node == id then {g} else {});
  }

  /** Only the entry block marks a node waking. */
  lemma OnlyEntryMarksWaking(s: Cluster, e: Event, id: NodeId)
    requires Inv(s) && Enabled(s, e) && id in s.nodes
    ensures EntersWaking(s.nodes, NodesAfter(s, e), id) <==> Entered(s, e) == Some(id) && MustWake(s.nodes, id)
  {
    hide NodesAfter, OneWaker, SweepFresh, OwnIds, IsSnapshot;
    StatusAfter(s, e, id);
    if e.Record? {
      assert SoundCaller(s.nodes, s.callers[e.g]);
    }
  }

  lemma StepCounts(s: Cluster, e: Event, id: NodeId)
    requires Inv(s) && Enabled(s, e) && id in s.nodes
    ensures |AboutToPower(CallersAfter(s, e), id)| + (if IsPowerOn(s, e, id) then 1 else 0)
         == |AboutToPower(s.callers, id)| + (if EntersWaking(s.nodes, NodesAfter(s, e), id) then 1 else 0)
  {
    hide Inv, EntersWaking, NodesAfter, Succeeds, PcAfter, HeardAfter, AboutToPower;
    OnlyEntryMarksWaking(s, e, id);
    if Entered(s, e).Some? {
      EntryIsFresh(s, e);
      hide Enabled;
      JoinCounts(s.callers, e.g, Entering(s, Entered(s, e).value), id);
    } else if EnabledCaller(s, e) {
      PcMoves(s, e);
      hide Enabled;
      MoveCounts(s.callers, e.g, CallersAfter(s, e)[e.g], id);
    }
  }

  /**
   PowerOn calls started plus wakes about to call it are exactly the entries into Waking, so calls never exceed
   entries.
   */
  lemma {:induction false} PowerOnsPerEntry(r: Run, id: NodeId, n: nat)
    requires IsRun(r) && n < |r.states| && id in r.states[0].nodes
    requires forall i :: 0 <= i < n ==> !RecoverOverWaking(r.states[i], r.events[i])
    ensures id in r.states[n].nodes
    ensures PowerOns(r, id, n) + |AboutToPower(r.states[n].callers, id)| == WakeEntries(r, id, n)
  {
    hide Enabled, InvOf, NodesAfter, CallersAfter;
    if n == 0 {
      assert AboutToPower(r.states[0].callers, id) == {};
    } else {
      PowerOnsPerEntry(r, id, n - 1);
      InvHolds(r, n - 1);
      RunStep(r, n - 1);
      TopologyKept(r.states[n - 1], r.events[n - 1]);
      StepCounts(r.states[n - 1], r.events[n - 1], id);
    }
  }
}
