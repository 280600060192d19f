/**
 The cooldown branch of RecoverDead and physical power: recorded and physical state are one exactly when a node
 put back to sleep is off, and which nodes are not off can be told from what their wakes returned.
 */
module Cooldown {
  import opened Types
  import opened RegistrySpec
  import opened Protocol
  import opened Frames
  import opened SingleFlight
  import opened Floor
  import opened Recovery
  import opened LeaderNode
  import opened PowerState

  // ---------- the exact condition ----------

  /** A cooldown write finds the worker's outlet open. */
  predicate CoolsUnpowered(s: Cluster, e: Event)
  {
    e.CtlRestores? && s.ctl.Restoring? && s.ctl.to == Sleeping && Remote(s.nodes, s.ctl.id) ==> !On(s, s.ctl.id)
  }

  /** An active worker not in the middle of being deactivated has its outlet closed, and a sleeping one has it open. */
  predicate PowerMatches(s: Cluster)
  {
    forall id | id in s.nodes && !s.nodes[id].local ::
      && (s.nodes[id].status == Active && !MidDeactivation(s.ctl, id) ==> On(s, id))
      && (s.nodes[id].status == Sleeping ==> !On(s, id))
  }

  ghost predicate CooledOff(s: Cluster)
  {
    forall id :: Remote(s.nodes, id) && s.nodes[id].status == Sleeping && id in s.cooled ==> !On(s, id)
  }

  lemma MatchesFrom(s: Cluster)
    requires MatchesUnlessCooled(s) && CooledOff(s)
    ensures PowerMatches(s)
  {
    hide Powered;
    forall id | id in s.nodes && !s.nodes[id].local
      ensures s.nodes[id].status == Active && !MidDeactivation(s.ctl, id) ==> On(s, id)
      ensures s.nodes[id].status == Sleeping ==> !On(s, id)
    {
      assert Remote(s.nodes, id);
    }
  }

  lemma MatchesImplies(s: Cluster)
    requires PowerMatches(s)
    ensures MatchesUnlessCooled(s)
  {
    hide Powered;
  }

  /** The next state's outlet is what the event left. */
  lemma OutletAfter(s: Cluster, e: Event, s': Cluster, id: NodeId)
    requires Background(s) && Regular(s, e) && s'.nodes == NodesAfter(s, e) && s'.relays == RelaysAfter(s, e)
    requires Remote(s'.nodes, id)
    ensures Remote(s.nodes, id) && On(s', id) == OnAfter(s, e, id)
  {
    hide NodesAfter, RelaysAfter, SameTopology, InvOf, Spared, Relay.Agree, DistinctOutlets, OnAfter, Powered;
    hide CleanWrites, RecoverOverWaking, Enabled;
    TopologyKept(s, e);
    SameTopologyAt(s.nodes, s'.nodes, id);
    RelaysMoveOne(s, e, id);
    SamePower(s'.relays, s.nodes[id], s'.nodes[id]);
  }

  lemma CooledOffAt(s: Cluster, id: NodeId)
    requires CooledOff(s) && Remote(s.nodes, id) && s.nodes[id].status == Sleeping && id in s.cooled
    ensures !On(s, id)
  {
  }

  lemma RestoreIsQuiet(s: Cluster, e: Event, id: NodeId)
    requires Enabled(s, e) && e.CtlRestores? && id in s.nodes
    ensures s.ctl.Restoring? && StatusWritten(s, e) == Some(StatusWrite(s.ctl.id, s.ctl.to))
    ensures OnAfter(s, e, id) == On(s, id)
  {
    hide Powered;
  }

  lemma WorkerCooledOff(s: Cluster, e: Event, id: NodeId)
    requires Background(s) && CooledOff(s) && Regular(s, e) && CoolsUnpowered(s, e) && Remote(s.nodes, id)
    ensures id in NodesAfter(s, e)
    ensures NodesAfter(s, e)[id].status == Sleeping && id in CooledAfter(s, e) ==> !OnAfter(s, e, id)
  {
    hide Background, CooledOff, CleanWrites, RecoverOverWaking, Enabled, NodesAfter, CooledAfter, StatusWritten;
    hide Entered, OnAfter, Powered;
    StatusAfter(s, e, id);
    CooledMoves(s, e, id);
    if NodesAfter(s, e)[id].status == Sleeping && id in CooledAfter(s, e) {
      if StatusWritten(s, e).Some? && StatusWritten(s, e).value.id == id {
        RestoreIsQuiet(s, e, id);
      } else {
        CooledOffAt(s, id);
        NotSwitchedOn(s, e, id);
      }
    }
  }

  lemma StepCooledOff(s: Cluster, e: Event, s': Cluster)
    requires Background(s) && CooledOff(s) && Regular(s, e) && CoolsUnpowered(s, e)
    requires s'.nodes == NodesAfter(s, e) && s'.relays == RelaysAfter(s, e) && s'.cooled == CooledAfter(s, e)
    ensures CooledOff(s')
  {
    hide Background, Regular, CoolsUnpowered, NodesAfter, RelaysAfter, CooledAfter, OnAfter, Powered;
    forall id | Remote(s'.nodes, id) && s'.nodes[id].status == Sleeping && id in s'.cooled ensures !On(s', id) {
      OutletAfter(s, e, s', id);
      WorkerCooledOff(s, e, id);
    }
  }

  /** A cooldown write on a powered worker leaves it asleep with its outlet closed. */
  lemma PoweredCooldownBreaks(s: Cluster, e: Event, s': Cluster)
    requires Background(s) && PowerAssumed(s, e) && !CoolsUnpowered(s, e)
    requires s'.nodes == NodesAfter(s, e) && s'.relays == RelaysAfter(s, e) && s'.startup == StartupAfter(s, e)
    ensures s'.startup.Finished? && !PowerMatches(s')
  {
    var id := s.ctl.id;
    CtlOnlyAfterStartup(s, e);
    hide NodesAfter, RelaysAfter, StartupAfter, Background, CleanWrites, HealthyMeansPowered, RecoverOverWaking;
    hide Powered, OnAfter, SameTopology, Enabled, EnforceFirst;
    TopologyKept(s, e);
    SameTopologyAt(s.nodes, s'.nodes, id);
    RestoreIsQuiet(s, e, id);
    WrittenStatus(s, e, id);
    OutletAfter(s, e, s', id);
    assert s'.nodes[id].status == Sleeping && On(s', id) && !s'.nodes[id].local;
  }

  lemma CtlOnlyAfterStartup(s: Cluster, e: Event)
    requires PowerAssumed(s, e) && e.CtlRestores?
    ensures s.startup.Finished? && StartupAfter(s, e) == s.startup
  {
    hide CleanWrites, HealthyMeansPowered, RecoverOverWaking;
  }

  lemma WrittenStatus(s: Cluster, e: Event, id: NodeId)
    requires Enabled(s, e) && e.CtlRestores? && id in s.nodes && StatusWritten(s, e) == Some(StatusWrite(id, s.ctl.to))
    ensures id in NodesAfter(s, e) && NodesAfter(s, e)[id].status == s.ctl.to
  {
    hide EnabledCaller, EnabledRest;
  }

  lemma {:induction false} CooledOffHolds(r: Run, n: nat)
    requires IsRun(r) && n < |r.states| && PoweredStart(r.states[0])
    requires forall i :: 0 <= i < n ==>
               PowerAssumed(r.states[i], r.events[i]) && RestoresPowered(r.states[i], r.events[i])
               && CoolsUnpowered(r.states[i], r.events[i])
    ensures Sound(r.states[n]) && CooledOff(r.states[n])
  {
    SoundHolds(r, n);
    if n == 0 {
      hide Powered;
    } else {
      CooledOffHolds(r, n - 1);
      RunStep(r, n - 1);
      var s, e := r.states[n - 1], r.events[n - 1];
      assert PowerAssumed(s, e) && CoolsUnpowered(s, e) && Background(s) && Regular(s, e);
      hide *;
      StepCooledOff(s, e, r.states[n]);
    }
  }

  /** The two conditions on recovery writes together. */
  predicate RestoresTruly(s: Cluster, e: Event)
  {
    RestoresPowered(s, e) && CoolsUnpowered(s, e)
  }

  /**
   Over whole runs in which single flight holds, failed writes are clean, only powered nodes answer and
   EnforceSleeping comes first: recorded state is physical power in every state after startup exactly when every
   recovery write finds the outlet as it records it, closed for active and open for asleep.
   */
  lemma PowerMatchesExactly(r: Run)
    requires IsRun(r) && PoweredStart(r.states[0])
    requires forall i :: 0 <= i < |r.events| ==> PowerAssumed(r.states[i], r.events[i])
    ensures (forall n :: 0 <= n < |r.states| && r.states[n].startup.Finished? ==> PowerMatches(r.states[n]))
       <==> (forall i :: 0 <= i < |r.events| ==> RestoresPowered(r.states[i], r.events[i]) && CoolsUnpowered(r.states[i], r.events[i]))
  {
    hide PowerAssumed, RestoresPowered, CoolsUnpowered, PoweredStart, PowerMatches, MatchesUnlessCooled, CooledOff;
    hide Enabled, Step, Init, Sound;
    if forall i :: 0 <= i < |r.events| ==> RestoresTruly(r.states[i], r.events[i]) {
      forall i | 0 <= i < |r.events|
        ensures RestoresPowered(r.states[i], r.events[i]) && CoolsUnpowered(r.states[i], r.events[i])
      {
        assert RestoresTruly(r.states[i], r.events[i]);
      }
      forall n | 0 <= n < |r.states| && r.states[n].startup.Finished? ensures PowerMatches(r.states[n]) {
        CooledOffHolds(r, n);
        SoundMatches(r.states[n]);
        MatchesFrom(r.states[n]);
      }
    } else {
      var k := FirstUntrue(r);
      UntrueBreaks(r, k);
    }
  }

  lemma UntrueBreaks(r: Run, k: nat)
    requires IsRun(r) && PoweredStart(r.states[0]) && k < |r.events| && !RestoresTruly(r.states[k], r.events[k])
    requires forall i :: 0 <= i < |r.events| ==> PowerAssumed(r.states[i], r.events[i])
    requires forall i :: 0 <= i < k ==> RestoresTruly(r.states[i], r.events[i])
    ensures k + 1 < |r.states| && r.states[k + 1].startup.Finished? && !PowerMatches(r.states[k + 1])
  {
    forall i | 0 <= i < k ensures RestoresPowered(r.states[i], r.events[i]) {
      assert RestoresTruly(r.states[i], r.events[i]);
    }
    hide PowerAssumed, RestoresPowered, CoolsUnpowered, PoweredStart, PowerMatches, MatchesUnlessCooled, Enabled, Init;
    SoundHolds(r, k);
    RunStep(r, k);
    var s, e, s' := r.states[k], r.events[k], r.states[k + 1];
    hide IsRun, NodesAfter, RelaysAfter, CtlAfter, StartupAfter, Background;
    if !RestoresPowered(s, e) {
      UnpoweredRestoreBreaks(s, e, s');
      if PowerMatches(s') {
        MatchesImplies(s');
      }
    } else {
      PoweredCooldownBreaks(s, e, s');
    }
  }

  lemma FirstUntrue(r: Run) returns (k: nat)
    requires |r.states| == |r.events| + 1
    requires exists i :: 0 <= i < |r.events| && !RestoresTruly(r.states[i], r.events[i])
    ensures k < |r.events| && !RestoresTruly(r.states[k], r.events[k])
    ensures forall i :: 0 <= i < k ==> RestoresTruly(r.states[i], r.events[i])
  {
    hide RestoresTruly;
    k := 0;
    while RestoresTruly(r.states[k], r.events[k])
      invariant k < |r.events|
      invariant forall i :: 0 <= i < k ==> RestoresTruly(r.states[i], r.events[i])
      invariant exists i :: k <= i < |r.events| && !RestoresTruly(r.states[i], r.events[i])
      decreases |r.events| - k
    {
      k := k + 1;
    }
  }

  // ---------- told from what the wakes returned ----------

  /**
   The workers a caller knows to be left on: a wake that returned NotReady or StuckOn leaves its node on, one that
   could not power it on leaves it as it was, and a cooldown write does not touch it.
   */
  function LeftAfter(s: Cluster, e: Event, left: set<NodeId>): set<NodeId>
    requires Enabled(s, e)
  {
    var w := StatusWritten(s, e);
    if w.None? then left
    else if e.Record? && (s.callers[e.g].pc.res.NotReady? || s.callers[e.g].pc.res.StuckOn?) then left + {w.value.id}
    else if e.Record? && s.callers[e.g].pc.res.PowerOnFailed? then left
    else if e.CtlRestores? && w.value.status == Sleeping then left
    else left - {w.value.id}
  }

  /** Workers whose file presets neither active nor sleeping may start with a closed outlet. */
  function LeftAtStart(s: Cluster): set<NodeId>
  {
    set id | id in s.nodes && !s.nodes[id].local && s.nodes[id].status != Active && s.nodes[id].status != Sleeping && On(s, id)
  }

  ghost function LeftOn(r: Run, n: nat): set<NodeId>
    requires IsRun(r) && n < |r.states|
  {
    if n == 0 then LeftAtStart(r.states[0]) else LeftAfter(r.states[n - 1], r.events[n - 1], LeftOn(r, n - 1))
  }

  /** A worker nobody is waking, if it is neither active nor properly switched off, is on exactly if left on. */
  predicate WorkerLeft(status: Status, on: bool, cooled: bool, left: bool)
  {
    match status
    case Active => true
    case Waking => true
    case Sleeping => if cooled then on <==> left else !left
    case _ => on <==> left
  }

  /** What a leader's result will say about its node's outlet. */
  predicate LeaderLeft(pc: Pc, on: bool, left: bool)
  {
    match pc
    case PoweringOn => on <==> left
    case Recording(status, res) => (
      match res
      case PowerOnFailed => status == Dead && (on <==> left)
      case NotReady => status == Dead && on
      case StuckOn(_) => status == Dead && on
      case Ok => status == Active
      case DeployFailed(_) => status == Sleeping
      case _ => false)
    case _ => true
  }

  ghost predicate WorkersLeft(s: Cluster, left: set<NodeId>)
  {
    forall id :: Remote(s.nodes, id) ==> WorkerLeft(s.nodes[id].status, On(s, id), id in s.cooled, id in left)
  }

  ghost predicate LeadersLeft(s: Cluster, left: set<NodeId>)
  {
    forall g :: g in s.callers && Remote(s.nodes, s.callers[g].node) ==>
      LeaderLeft(s.callers[g].pc, On(s, s.callers[g].node), s.callers[g].node in left)
  }

  ghost predicate LeftInv(s: Cluster, left: set<NodeId>)
  {
    WorkersLeft(s, left) && LeadersLeft(s, left) && (!s.startup.Finished? ==> s.cooled == {})
  }

  lemma WorkerLeftAt(s: Cluster, left: set<NodeId>, id: NodeId)
    requires WorkersLeft(s, left) && Remote(s.nodes, id)
    ensures WorkerLeft(s.nodes[id].status, On(s, id), id in s.cooled, id in left)
  {
  }

  lemma LeaderLeftAt(s: Cluster, left: set<NodeId>, g: Gid)
    requires LeadersLeft(s, left) && g in s.callers && Remote(s.nodes, s.callers[g].node)
    ensures LeaderLeft(s.callers[g].pc, On(s, s.callers[g].node), s.callers[g].node in left)
  {
  }

  lemma LeftElsewhere(s: Cluster, e: Event, left: set<NodeId>, id: NodeId)
    requires Enabled(s, e) && !(StatusWritten(s, e).Some? && StatusWritten(s, e).value.id == id)
    ensures id in LeftAfter(s, e, left) <==> id in left
  {
    hide Enabled, StatusWritten;
  }

  // ---------- leaders ----------

  lemma OwnCommandLeft(s: Cluster, e: Event, left: bool)
    requires EnabledCaller(s, e) && (e.PowerOnReturns? || e.PowerOffReturns?)
             && s.nodes[s.callers[e.g].node].id == s.callers[e.g].node
    requires LeaderLeft(s.callers[e.g].pc, On(s, s.callers[e.g].node), left)
    requires LeaderAgrees(s.callers[e.g].pc, On(s, s.callers[e.g].node))
    ensures LeaderLeft(PcAfter(s, e), OnAfter(s, e, s.callers[e.g].node), left)
  {
    hide Issue, Powered, EnabledCtl, EnabledRest;
  }

  lemma OwnQuietLeft(s: Cluster, e: Event, on: bool, left: bool)
    requires EnabledCaller(s, e) && !e.Enter? && !e.PowerOnReturns? && !e.PowerOffReturns?
    requires LeaderLeft(s.callers[e.g].pc, on, left) && LeaderAgrees(s.callers[e.g].pc, on)
    ensures LeaderLeft(PcAfter(s, e), on, left)
    ensures e.Record? ==> LeaderLeft(PcAfter(s, e), on, !left)
  {
    hide Succeeds;
  }

  lemma QuietOutletKept(s: Cluster, e: Event, id: NodeId)
    requires Enabled(s, e) && EnabledCaller(s, e) && !e.PowerOnReturns? && !e.PowerOffReturns? && id in s.nodes
    ensures OnAfter(s, e, id) == On(s, id)
    ensures StatusWritten(s, e).Some? ==> e.Record?
  {
    hide CommandOf, EnabledCaller, EnabledCtl, EnabledRest, Powered;
    CallerCommands(s, e);
  }

  lemma OwnLeft(s: Cluster, e: Event, g: Gid, left: set<NodeId>)
    requires OwnIds(s.nodes) && Enabled(s, e) && EnabledCaller(s, e) && !e.Enter? && e.g == g && g in s.callers
    requires s.callers[g].node in s.nodes && LeaderAgrees(s.callers[g].pc, On(s, s.callers[g].node))
    requires LeaderLeft(s.callers[g].pc, On(s, s.callers[g].node), s.callers[g].node in left)
    ensures LeaderLeft(PcAfter(s, e), OnAfter(s, e, s.callers[g].node), s.callers[g].node in LeftAfter(s, e, left))
  {
    hide LeaderLeft, LeaderAgrees, PcAfter, LeftAfter, On, OnAfter, Enabled, EnabledCaller, StatusWritten;
    var id := s.callers[g].node;
    if e.PowerOnReturns? || e.PowerOffReturns? {
      CallerCommands(s, e);
      LeftElsewhere(s, e, left, id);
      OwnCommandLeft(s, e, id in left);
    } else {
      QuietOutletKept(s, e, id);
      OwnQuietLeft(s, e, On(s, id), id in left);
      if !e.Record? {
        LeftElsewhere(s, e, left, id);
      }
    }
  }

  /** Nobody writes the status of a node another goroutine is waking. */
  lemma WrittenElsewhere(s: Cluster, e: Event, g: Gid)
    requires Inv(s) && Enabled(s, e) && !RecoverOverWaking(s, e) && g in s.callers && InFlight(s.callers[g].pc)
    requires !(EnabledCaller(s, e) && e.g == g)
    ensures StatusWritten(s, e).Some? ==> StatusWritten(s, e).value.id != s.callers[g].node
  {
    hide InvOf, IsSnapshot;
    InFlightWaking(s, g);
    if e.Record? {
      if s.callers[e.g].node == s.callers[g].node {
        OnlyWaker(s, e.g, g);
      }
    } else if e.CtlMarks? {
      MarkedIsActive(s);
    }
  }

  lemma EnteringLeft(s: Cluster, left: set<NodeId>, id: NodeId)
    requires WorkersLeft(s, left) && Remote(s.nodes, id) && AgreesNow(s, id) && s.startup.Finished?
    ensures LeaderLeft(Entering(s, id).pc, On(s, id), id in left)
  {
    WorkerLeftAt(s, left, id);
    hide Powered, WorkersLeft;
  }

  lemma EntersAfterStartup(s: Cluster, e: Event)
    requires PowerAssumed(s, e) && Entered(s, e).Some?
    ensures s.startup.Finished? && CommandOf(s, e).None? && StatusWritten(s, e).None?
  {
    hide CleanWrites, HealthyMeansPowered, RecoverOverWaking, IsSnapshot;
  }

  lemma EnteringAfter(s: Cluster, e: Event, left: set<NodeId>, id: NodeId)
    requires Sound(s) && WorkersLeft(s, left) && PowerAssumed(s, e) && Entered(s, e).Some? && Remote(s.nodes, id)
    requires Entering(s, Entered(s, e).value).node == id
    ensures LeaderLeft(Entering(s, Entered(s, e).value).pc, OnAfter(s, e, id), id in LeftAfter(s, e, left))
  {
    hide Background, WorkersLeft, LeadersAgree, Opening, Agrees, LeaderLeft, LeftAfter, Powered, Enabled, CleanWrites;
    hide HealthyMeansPowered, EnforceFirst, RecoverOverWaking, Entered, CommandOf, StatusWritten;
    EntersAfterStartup(s, e);
    assert AgreesNow(s, id);
    EnteringLeft(s, left, id);
    LeftElsewhere(s, e, left, id);
  }

  lemma OtherLeaderLeft(s: Cluster, e: Event, left: set<NodeId>, g: Gid)
    requires Sound(s) && LeadersLeft(s, left) && PowerAssumed(s, e) && g in s.callers
    requires !(EnabledCaller(s, e) && e.g == g) && Remote(s.nodes, s.callers[g].node)
    ensures LeaderLeft(s.callers[g].pc, OnAfter(s, e, s.callers[g].node), s.callers[g].node in LeftAfter(s, e, left))
  {
    hide LeadersLeft, WorkersAgree, LeadersAgree, LeftAfter, Powered, Enabled, CleanWrites, HealthyMeansPowered;
    hide EnforceFirst, RecoverOverWaking, Entered, CommandOf, StatusWritten, EnabledCaller, InvOf, Spared, Relay.Agree;
    hide DistinctOutlets, Opening;
    if InFlight(s.callers[g].pc) {
      LeaderLeftAt(s, left, g);
      WrittenElsewhere(s, e, g);
      LeftElsewhere(s, e, left, s.callers[g].node);
      if CommandOf(s, e).Some? {
        CommandElsewhere(s, e, g);
      }
      hide LeaderLeft;
    }
  }

  lemma LeaderStepLeft(s: Cluster, e: Event, left: set<NodeId>, g: Gid)
    requires Sound(s) && WorkersLeft(s, left) && LeadersLeft(s, left) && PowerAssumed(s, e) && g in CallersAfter(s, e)
    requires Remote(NodesAfter(s, e), CallersAfter(s, e)[g].node)
    ensures Remote(s.nodes, CallersAfter(s, e)[g].node)
    ensures LeaderLeft(CallersAfter(s, e)[g].pc, OnAfter(s, e, CallersAfter(s, e)[g].node),
                       CallersAfter(s, e)[g].node in LeftAfter(s, e, left))
  {
    hide NodesAfter, CallersAfter, PcAfter, HeardAfter, Entering, SameTopology, WorkersLeft, LeadersLeft, LeaderLeft;
    hide LeaderAgrees, LeftAfter, OnAfter, Powered, EnabledCtl, EnabledRest, CleanWrites, HealthyMeansPowered;
    hide EnforceFirst;
    hide RecoverOverWaking, WorkersAgree, Opening, SoundCallers, OneWaker, SweepFresh, Spared, Relay.Agree;
    hide DistinctOutlets;
    TopologyKept(s, e);
    CallerAfter(s, e, g);
    var id := CallersAfter(s, e)[g].node;
    SameTopologyAt(s.nodes, NodesAfter(s, e), id);
    if Entered(s, e).Some? && g == e.g {
      EnteringAfter(s, e, left, id);
    } else if EnabledCaller(s, e) && g == e.g {
      NotEntering(s, e);
      LeaderLeftAt(s, left, g);
      hide OwnIds;
      OwnLeft(s, e, g, left);
    } else {
      hide OwnIds;
      OtherLeaderLeft(s, e, left, g);
    }
  }

  // ---------- workers ----------

  /** No relay command concerns a worker that is neither waking nor active, nor asleep while startup goes on. */
  lemma IdleUnswitched(s: Cluster, e: Event, id: NodeId)
    requires Inv(s) && OwnIds(s.nodes) && Opening(s) && Enabled(s, e) && id in s.nodes
    requires s.nodes[id].status != Waking && s.nodes[id].status != Active
    requires s.nodes[id].status == Sleeping ==> s.startup.Finished?
    ensures OnAfter(s, e, id) == On(s, id)
  {
    hide IsSnapshot, InvOf, Powered, Issue;
    if e.PowerOnReturns? || e.PowerOffReturns? {
      InFlightWaking(s, e.g);
    } else if e.CtlPowersOff? {
      CutIsActive(s);
    }
  }

  lemma UnwrittenLeft(s: Cluster, e: Event, left: set<NodeId>, id: NodeId)
    requires Sound(s) && LeftInv(s, left) && PowerAssumed(s, e) && Remote(s.nodes, id)
    requires !(StatusWritten(s, e).Some? && StatusWritten(s, e).value.id == id)
    ensures id in NodesAfter(s, e)
    ensures WorkerLeft(NodesAfter(s, e)[id].status, OnAfter(s, e, id), id in CooledAfter(s, e), id in LeftAfter(s, e, left))
  {
    hide WorkersLeft, LeadersLeft, WorkersAgree, LeadersAgree, LeftAfter, Powered, Enabled, CleanWrites, Entered;
    hide OnAfter;
    hide HealthyMeansPowered, EnforceFirst, RecoverOverWaking, StatusWritten, NodesAfter, CooledAfter, SoundCallers;
    hide OneWaker, SweepFresh, LocalsActive, WakesRemote, CtlRemote, StartupRemote, Relay.Agree, DistinctOutlets;
    hide Opening;
    hide OwnIds;
    StatusAfter(s, e, id);
    CooledMoves(s, e, id);
    LeftElsewhere(s, e, left, id);
    WorkerLeftAt(s, left, id);
    var status := s.nodes[id].status;
    if status != Waking && status != Active && (status == Sleeping ==> s.startup.Finished?) {
      IdleUnswitched(s, e, id);
    }
  }

  lemma RecordedLeft(s: Cluster, e: Event, left: set<NodeId>)
    requires LeadersLeft(s, left) && Enabled(s, e) && e.Record? && Remote(s.nodes, s.callers[e.g].node)
    ensures s.callers[e.g].node in NodesAfter(s, e)
    ensures var id := s.callers[e.g].node;
            WorkerLeft(NodesAfter(s, e)[id].status, OnAfter(s, e, id), id in CooledAfter(s, e), id in LeftAfter(s, e, left))
  {
    LeaderLeftAt(s, left, e.g);
    hide LeadersLeft, Powered, EnabledCtl, EnabledRest;
  }

  lemma CtlWrittenLeft(s: Cluster, e: Event, left: set<NodeId>, id: NodeId)
    requires WorkersLeft(s, left) && Enabled(s, e) && (e.CtlRestores? || e.CtlMarks?) && Remote(s.nodes, id)
    requires FreshRecovery(s, e) && StatusWritten(s, e).Some? && StatusWritten(s, e).value.id == id
    requires s.ctl.Restoring? ==> s.ctl.to == Active || s.ctl.to == Sleeping
    ensures id in NodesAfter(s, e)
    ensures WorkerLeft(NodesAfter(s, e)[id].status, OnAfter(s, e, id), id in CooledAfter(s, e), id in LeftAfter(s, e, left))
  {
    WorkerLeftAt(s, left, id);
    hide WorkersLeft, Powered, EnabledCaller, EnabledRest;
  }

  lemma OnlyTheseWrite(s: Cluster, e: Event)
    requires Enabled(s, e) && StatusWritten(s, e).Some?
    ensures e.CtlRestores? || e.CtlMarks? || (e.Record? && StatusWritten(s, e).value.id == s.callers[e.g].node)
  {
  }

  lemma WorkerStepLeft(s: Cluster, e: Event, left: set<NodeId>, id: NodeId)
    requires Sound(s) && LeftInv(s, left) && PowerAssumed(s, e) && FreshRecovery(s, e) && Remote(s.nodes, id)
    requires s.ctl.Restoring? ==> s.ctl.to == Active || s.ctl.to == Sleeping
    ensures id in NodesAfter(s, e)
    ensures WorkerLeft(NodesAfter(s, e)[id].status, OnAfter(s, e, id), id in CooledAfter(s, e), id in LeftAfter(s, e, left))
  {
    hide Sound, WorkersLeft, LeadersLeft, WorkerLeft, LeftAfter, Powered, Enabled, CleanWrites, OnAfter;
    hide HealthyMeansPowered;
    hide EnforceFirst, RecoverOverWaking, StatusWritten, NodesAfter, CooledAfter, FreshRecovery;
    if StatusWritten(s, e).Some? && StatusWritten(s, e).value.id == id {
      OnlyTheseWrite(s, e);
      if e.Record? {
        RecordedLeft(s, e, left);
      } else {
        CtlWrittenLeft(s, e, left, id);
      }
    } else {
      UnwrittenLeft(s, e, left, id);
    }
  }

  // ---------- one step, and whole runs ----------

  lemma CooledOnlyLater(s: Cluster, e: Event)
    requires PowerAssumed(s, e) && (!s.startup.Finished? ==> s.cooled == {}) && !StartupAfter(s, e).Finished?
    ensures CooledAfter(s, e) == {}
  {
    hide CleanWrites, HealthyMeansPowered, RecoverOverWaking, IsSnapshot;
  }

  /** RecoverDead records active or sleeping only. */
  predicate RestoresEither(c: Ctl)
  {
    c.Restoring? ==> c.to == Active || c.to == Sleeping
  }

  lemma StepRestoresEither(s: Cluster, e: Event)
    requires Enabled(s, e) && RestoresEither(s.ctl)
    ensures RestoresEither(CtlAfter(s, e))
  {
    hide IsSnapshot, CountServing, MayScaleDown, ElapsedAtLeast;
  }

  lemma StepLeft(s: Cluster, e: Event, s': Cluster, left: set<NodeId>)
    requires Sound(s) && LeftInv(s, left) && PowerAssumed(s, e) && FreshRecovery(s, e) && RestoresEither(s.ctl)
    requires s' == Step(s, e)
    ensures LeftInv(s', LeftAfter(s, e, left))
  {
    hide NodesAfter, CallersAfter, RelaysAfter, CooledAfter, StartupAfter, CtlAfter, Background, PowerInv, WorkerLeft;
    hide LeaderLeft, LeftAfter, OnAfter, Powered, Enabled, CleanWrites, RecoverOverWaking, HealthyMeansPowered;
    hide EnforceFirst, FreshRecovery;
    var left' := LeftAfter(s, e, left);
    forall id | Remote(s'.nodes, id)
      ensures WorkerLeft(s'.nodes[id].status, On(s', id), id in s'.cooled, id in left')
    {
      OutletAfter(s, e, s', id);
      WorkerStepLeft(s, e, left, id);
    }
    forall g | g in s'.callers && Remote(s'.nodes, s'.callers[g].node)
      ensures LeaderLeft(s'.callers[g].pc, On(s', s'.callers[g].node), s'.callers[g].node in left')
    {
      OutletAfter(s, e, s', s'.callers[g].node);
      LeaderStepLeft(s, e, left, g);
    }
    if !s'.startup.Finished? {
      CooledOnlyLater(s, e);
    }
  }

  lemma StartLeft(s: Cluster)
    requires Init(s)
    ensures LeftInv(s, LeftAtStart(s)) && RestoresEither(s.ctl)
  {
    hide Powered;
  }

  /** What `NoPendingEntry` gives at each event of a run. */
  lemma PendingStep(r: Run, n: nat)
    requires IsRun(r) && n < |r.events| && PoweredStart(r.states[0])
    requires forall i :: 0 <= i <= n ==> NoPendingEntry(r.states[i], r.events[i])
    ensures Sound(r.states[n]) && PowerAssumed(r.states[n], r.events[n]) && RestoresPowered(r.states[n], r.events[n])
    ensures FreshRecovery(r.states[n], r.events[n])
  {
    PendingHolds(r, n);
    hide IsRun, PoweredStart, InvOf, PowerInv, NoPendingEntry, RestoringPowered, PowerAssumed, RestoresPowered;
    FreshIsPowerAssumed(r.states[n], r.events[n]);
    hide Spared, Relay.Agree, DistinctOutlets;
  }

  lemma {:induction false} LeftHolds(r: Run, n: nat)
    requires IsRun(r) && n < |r.states| && PoweredStart(r.states[0])
    requires forall i :: 0 <= i < n ==> NoPendingEntry(r.states[i], r.events[i])
    ensures LeftInv(r.states[n], LeftOn(r, n)) && RestoresEither(r.states[n].ctl)
  {
    if n == 0 {
      RunStart(r);
      hide *;
      StartLeft(r.states[0]);
    } else {
      LeftHolds(r, n - 1);
      RunStep(r, n - 1);
      hide IsRun, PoweredStart, NoPendingEntry, LeftInv, LeftAfter, RestoresEither, Sound, PowerAssumed, Step, Enabled;
      hide FreshRecovery, NodesAfter, CallersAfter, RelaysAfter, CooledAfter, StartupAfter, CtlAfter, RestoresPowered;
      PendingStep(r, n - 1);
      StepRestoresEither(r.states[n - 1], r.events[n - 1]);
      StepLeft(r.states[n - 1], r.events[n - 1], r.states[n], LeftOn(r, n - 1));
    }
  }

  /** A cooldown write on a worker its wakes are known to have left on. */
  ghost predicate CoolsLeftOn(r: Run, i: nat)
    requires IsRun(r) && i < |r.events|
  {
    var s, e := r.states[i], r.events[i];
    e.CtlRestores? && s.ctl.Restoring? && s.ctl.to == Sleeping && Remote(s.nodes, s.ctl.id) && s.ctl.id in LeftOn(r, i)
  }

  /** The dead worker of a cooldown write is on exactly if its wakes left it on. */
  lemma LeftIsOn(r: Run, i: nat)
    requires IsRun(r) && i < |r.events| && PoweredStart(r.states[0])
    requires forall j :: 0 <= j < |r.events| ==> NoPendingEntry(r.states[j], r.events[j])
    ensures CoolsUnpowered(r.states[i], r.events[i]) <==> !CoolsLeftOn(r, i)
  {
    PendingStep(r, i);
    LeftHolds(r, i);
    hide IsRun, PoweredStart, NoPendingEntry, Sound, PowerAssumed, RestoresPowered, Powered, LeadersLeft, LeftOn;
    hide WorkersLeft;
    var s := r.states[i];
    if s.ctl.Restoring? && Remote(s.nodes, s.ctl.id) {
      WorkerLeftAt(s, LeftOn(r, i), s.ctl.id);
    }
  }

  /**
   If no wake starts on a node a recovery pass still has pending: recorded state is physical power in every state
   after startup exactly when no node is put back to sleep that its wakes left on, as told by their results.
   */
  lemma PowerMatchesByResults(r: Run)
    requires IsRun(r) && PoweredStart(r.states[0])
    requires forall i :: 0 <= i < |r.events| ==> NoPendingEntry(r.states[i], r.events[i])
    ensures (forall n :: 0 <= n < |r.states| && r.states[n].startup.Finished? ==> PowerMatches(r.states[n]))
       <==> (forall i :: 0 <= i < |r.events| ==> !CoolsLeftOn(r, i))
  {
    hide PoweredStart, NoPendingEntry, Sound, PowerAssumed, RestoresPowered, CoolsUnpowered, CoolsLeftOn, PowerMatches;
    hide Enabled, Step, Init, FreshRecovery;
    forall i | 0 <= i < |r.events|
      ensures PowerAssumed(r.states[i], r.events[i]) && RestoresPowered(r.states[i], r.events[i])
      ensures CoolsUnpowered(r.states[i], r.events[i]) <==> !CoolsLeftOn(r, i)
    {
      PendingStep(r, i);
      LeftIsOn(r, i);
    }
    PowerMatchesExactly(r);
  }
}
