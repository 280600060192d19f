/**
 Retry pacing: if nobody enters a worker on a stale pick while it is dead, recovery is its only way out of Dead,
 so a worker that never answers is powered on at most once per cooldown.
 */
module Pacing {
  import opened Types
  import opened RegistrySpec
  import opened Protocol
  import opened Frames
  import opened SingleFlight
  import opened Floor
  import opened Recovery

  /**
   The entry block starts a wake of this node while it is recorded dead, as a pick from an old snapshot can make it
   do.
   */
  predicate EntersDead(s: Cluster, e: Event, id: NodeId)
  {
    Enabled(s, e) && Entered(s, e) == Some(id) && id in s.nodes && s.nodes[id].status == Dead
  }

  // ---------- recovery of one node ----------

  ghost predicate CopiesDead(nodes: Nodes, todo: seq<Node>, id: NodeId)
  {
    forall n :: n in todo && n.id == id ==> DeadCopy(nodes, n)
  }

  /** What RecoverDead has seen of this node is still so, whatever becomes of the others. */
  ghost predicate FreshFor(nodes: Nodes, c: Ctl, id: NodeId)
  {
    match c
    case Recovering(todo) => CopiesDead(nodes, todo, id) && DistinctIds(todo)
    case Restoring(n, _, todo) =>
      && CopiesDead(nodes, todo, id) && DistinctIds(todo)
      && (n == id ==> id in nodes && nodes[id].status == Dead && NotAmong(id, todo))
    case _ => true
  }

  lemma CheckFreshFor(nodes: Nodes, cfg: Config, now: int, todo: seq<Node>, healthy: bool, id: NodeId)
    requires CopiesDead(nodes, todo, id) && DistinctIds(todo) && todo != []
    ensures FreshFor(nodes, Check(cfg, now, todo, healthy), id)
  {
    TailDistinct(todo);
    assert todo[0] in todo && (todo[0].id == id ==> DeadCopy(nodes, todo[0]));
    hide DistinctIds, ElapsedAtLeast;
  }

  lemma ListedFreshFor(nodes: Nodes, snap: seq<Node>, id: NodeId)
    requires IsSnapshot(nodes, snap)
    ensures CopiesDead(nodes, snap, id) && DistinctIds(snap)
  {
  }

  /** The controller's own move, on the nodes as they were. */
  lemma CtlFreshFor(s: Cluster, e: Event, id: NodeId)
    requires FreshFor(s.nodes, s.ctl, id) && Enabled(s, e)
    ensures FreshFor(s.nodes, CtlAfter(s, e), id)
    ensures e.CtlRestores? && s.ctl.id == id ==> CtlAfter(s, e).Recovering? && NotAmong(id, CtlAfter(s, e).todo)
  {
    hide Check, Consider;
    if e.CtlChecks? {
      CheckFreshFor(s.nodes, s.cfg, s.clock, s.ctl.todo, e.healthy, id);
    } else if e.CtlWakes? {
      ListedFreshFor(s.nodes, e.snap, id);
    } else if e.CtlConsiders? {
      ConsiderSweeps(s.cfg, s.clock, s.nodes, s.ctl.todo, s.ctl.count);
    }
    hide IsSnapshot, CopiesDead, DistinctIds, NotAmong, Succeeds;
  }

  lemma ConsiderSweeps(cfg: Config, now: int, nodes: Nodes, todo: seq<Node>, count: int)
    requires todo != []
    ensures var c := Consider(cfg, now, nodes, todo, count); c.Sweeping? || c.CuttingPower?
  {
    hide MayScaleDown;
  }

  /** A dead node nobody enters stays as recovery has seen it, until recovery writes to it. */
  lemma StepFreshFor(s: Cluster, e: Event, id: NodeId)
    requires Inv(s) && FreshFor(s.nodes, s.ctl, id) && Enabled(s, e) && !EntersDead(s, e, id)
    ensures FreshFor(NodesAfter(s, e), CtlAfter(s, e), id)
  {
    CtlFreshFor(s, e, id);
    hide InvOf, NodesAfter, CtlAfter, FreshFor, NotAmong, EnabledCaller, EnabledRest, Entered;
    if e.CtlRestores? && s.ctl.id == id {
      UnseenFreshFor(s.nodes, NodesAfter(s, e), CtlAfter(s, e), id);
    } else {
      if id in s.nodes && s.nodes[id].status == Dead {
        DeadStays(s, e, id);
      }
      FreshForStays(s.nodes, NodesAfter(s, e), CtlAfter(s, e), id);
    }
  }

  lemma FreshForStays(nodes: Nodes, nodes': Nodes, c: Ctl, id: NodeId)
    requires FreshFor(nodes, c, id)
    requires id in nodes && nodes[id].status == Dead ==>
               id in nodes' && nodes'[id].status == Dead && nodes'[id].deadSince == nodes[id].deadSince
    ensures FreshFor(nodes', c, id)
  {
    hide DistinctIds, NotAmong;
  }

  lemma UnseenFreshFor(nodes: Nodes, nodes': Nodes, c: Ctl, id: NodeId)
    requires c.Recovering? && FreshFor(nodes, c, id) && NotAmong(id, c.todo)
    ensures FreshFor(nodes', c, id)
  {
    hide DistinctIds;
  }

  // ---------- a silent worker ----------

  /** The worker answers neither a readiness poll nor a recovery check at this event. */
  predicate Silent(s: Cluster, e: Event, id: NodeId)
  {
    && !(e.Poll? && e.answered && e.g in s.callers && s.callers[e.g].node == id)
    && !(e.CtlChecks? && e.healthy && s.ctl.Recovering? && s.ctl.todo != [] && s.ctl.todo[0].id == id)
  }

  /** A wake of a silent worker never gets past polling, and can only record it dead. */
  predicate Stuck(c: Caller, id: NodeId)
  {
    c.node == id && InFlight(c.pc) ==> c.pc.PoweringOn? || c.pc.Polling? || (c.pc.Recording? && c.pc.status == Dead)
  }

  ghost predicate AllStuck(callers: Callers, id: NodeId)
  {
    forall g :: g in callers ==> Stuck(callers[g], id)
  }

  /** No PowerOn of the worker can happen before `last` plus the cooldown. */
  ghost predicate Paced(s: Cluster, id: NodeId, last: int)
  {
    && id in s.nodes && last <= s.clock && AllStuck(s.callers, id)
    && (match s.nodes[id].status
        case Dead => s.nodes[id].deadSince.At? && s.nodes[id].deadSince.t >= last
        case Waking => AboutToPower(s.callers, id) != {} ==> s.clock >= last + s.cfg.deadRetry
        case Active => false
        case _ => s.clock >= last + s.cfg.deadRetry)
    && (s.ctl.Restoring? && s.ctl.id == id ==> s.ctl.to == Sleeping && s.clock >= last + s.cfg.deadRetry)
  }

  lemma StepAllStuck(s: Cluster, e: Event, id: NodeId)
    requires AllStuck(s.callers, id) && Enabled(s, e) && Silent(s, e, id)
    ensures AllStuck(CallersAfter(s, e), id)
  {
    forall g | g in CallersAfter(s, e) ensures Stuck(CallersAfter(s, e)[g], id) {
      hide CallersAfter, HeardAfter, IsSnapshot, PcAfter, Silent, EnabledCtl, EnabledRest;
      CallerAfter(s, e, g);
      if EnabledCaller(s, e) && !e.Enter? && g == e.g {
        hide Enabled, EnabledCaller;
        PcStuck(s, e, id);
      }
    }
  }

  lemma PcStuck(s: Cluster, e: Event, id: NodeId)
    requires EnabledCaller(s, e) && !e.Enter? && Stuck(s.callers[e.g], id) && Silent(s, e, id)
    ensures Stuck(s.callers[e.g].(pc := PcAfter(s, e), heard := HeardAfter(s, e)), id)
  {
    hide Succeeds, HeardAfter;
  }

  /** Only entry makes a goroutine stand before its PowerOn call. */
  lemma NobodyNewAboutToPower(s: Cluster, e: Event, id: NodeId)
    requires Enabled(s, e) && !(Entered(s, e) == Some(id) && MustWake(s.nodes, id))
    ensures AboutToPower(CallersAfter(s, e), id) <= AboutToPower(s.callers, id)
  {
    forall g | g in AboutToPower(CallersAfter(s, e), id) ensures g in AboutToPower(s.callers, id) {
      hide CallersAfter, HeardAfter, Succeeds, IsSnapshot, PcAfter;
      CallerAfter(s, e, g);
      if EnabledCaller(s, e) && !e.Enter? && g == e.g {
        PcMoves(s, e);
      }
    }
  }

  lemma PoweredOnce(s: Cluster, g: Gid, io: Relay.Io)
    requires Inv(s) && EnabledCaller(s, PowerOnReturns(g, io))
    ensures AboutToPower(CallersAfter(s, PowerOnReturns(g, io)), s.callers[g].node) == {}
  {
    var e, id := PowerOnReturns(g, io), s.callers[g].node;
    forall h | h in AboutToPower(CallersAfter(s, e), id) ensures false {
      hide CallersAfter, HeardAfter, Succeeds, IsSnapshot, PcAfter, InvOf;
      CallerAfter(s, e, h);
      PcMoves(s, e);
      OnlyWaker(s, g, h);
    }
  }

  /** The time before which no PowerOn may come, after this event. */
  function LastAfter(s: Cluster, e: Event, id: NodeId, last: int): int
  {
    if IsPowerOn(s, e, id) then s.clock else last
  }

  /** A PowerOn of a paced worker comes no earlier than the cooldown after the last one. */
  lemma PowerOnIsLate(s: Cluster, e: Event, id: NodeId, last: int)
    requires Inv(s) && Paced(s, id, last) && EnabledCaller(s, e) && IsPowerOn(s, e, id)
    ensures s.clock >= last + s.cfg.deadRetry
  {
    InFlightWaking(s, e.g);
    hide InvOf, AllStuck;
    assert e.g in AboutToPower(s.callers, id);
  }

  lemma CheckPaced(s: Cluster, e: Event, id: NodeId, last: int)
    requires Paced(s, id, last) && FreshFor(s.nodes, s.ctl, id) && Enabled(s, e) && Silent(s, e, id) && e.CtlChecks?
    ensures var c := CtlAfter(s, e);
            c.Restoring? && c.id == id ==> c.to == Sleeping && ClockAfter(s, e) >= last + s.cfg.deadRetry
  {
    hide AllStuck, AboutToPower, DistinctIds, IsSnapshot;
    assert s.ctl.todo[0] in s.ctl.todo && (s.ctl.todo[0].id == id ==> DeadCopy(s.nodes, s.ctl.todo[0]));
  }

  lemma CtlPaced(s: Cluster, e: Event, id: NodeId, last: int)
    requires Paced(s, id, last) && FreshFor(s.nodes, s.ctl, id) && Enabled(s, e) && Silent(s, e, id)
    ensures var c := CtlAfter(s, e);
            c.Restoring? && c.id == id ==> c.to == Sleeping && ClockAfter(s, e) >= last + s.cfg.deadRetry
  {
    hide Enabled, Silent, CtlAfter, ClockAfter, FreshFor, AllStuck, AboutToPower;
    if e.CtlChecks? {
      CheckPaced(s, e, id, last);
    } else if CtlAfter(s, e).Restoring? {
      OnlyChecksDecide(s, e);
    }
  }

  lemma StatusPaced(s: Cluster, e: Event, id: NodeId, last: int)
    requires Inv(s) && Paced(s, id, last) && FreshFor(s.nodes, s.ctl, id)
    requires Enabled(s, e) && !EntersDead(s, e, id) && !IsPowerOn(s, e, id)
    ensures id in NodesAfter(s, e)
    ensures match NodesAfter(s, e)[id].status
            case Dead => NodesAfter(s, e)[id].deadSince.At? && NodesAfter(s, e)[id].deadSince.t >= last
            case Waking => AboutToPower(CallersAfter(s, e), id) != {} ==> ClockAfter(s, e) >= last + s.cfg.deadRetry
            case Active => false
            case _ => ClockAfter(s, e) >= last + s.cfg.deadRetry
  {
    hide InvOf, AboutToPower, CallersAfter, FreshFor, IsSnapshot, NodesAfter;
    StatusAfter(s, e, id);
    if !(Entered(s, e) == Some(id) && MustWake(s.nodes, id)) {
      NobodyNewAboutToPower(s, e, id);
    }
    if e.Record? {
      assert Stuck(s.callers[e.g], id);
      InFlightWaking(s, e.g);
    } else if e.CtlMarks? {
      MarkedIsActive(s);
    }
  }

  /** After its PowerOn the worker is waking, and nobody else is about to power it. */
  lemma PoweredStatus(s: Cluster, e: Event, id: NodeId, last: int)
    requires Inv(s) && Paced(s, id, last) && Enabled(s, e) && IsPowerOn(s, e, id)
    ensures NodesAfter(s, e) == s.nodes && s.nodes[id].status == Waking && ClockAfter(s, e) == s.clock
    ensures AboutToPower(CallersAfter(s, e), id) == {}
  {
    hide AllStuck, AboutToPower, CallersAfter, IsSnapshot;
    PoweredOnce(s, e.g, e.io);
    InFlightWaking(s, e.g);
  }

  lemma StepPaced(s: Cluster, e: Event, id: NodeId, last: int)
    requires Inv(s) && Paced(s, id, last) && FreshFor(s.nodes, s.ctl, id)
    requires Enabled(s, e) && !EntersDead(s, e, id) && Silent(s, e, id)
    ensures Paced(Step(s, e), id, LastAfter(s, e, id, last))
  {
    StepAllStuck(s, e, id);
    CtlPaced(s, e, id, last);
    hide InvOf, AllStuck, AboutToPower, CallersAfter, FreshFor, Silent, CtlAfter, HeldAfter, RelaysAfter;
    hide RecordsAfter, TableAfter, CooledAfter, NodesAfter, Enabled;
    if IsPowerOn(s, e, id) {
      PoweredStatus(s, e, id, last);
    } else {
      StatusPaced(s, e, id, last);
    }
  }

  // ---------- whole runs ----------

  /** The latest PowerOn of the node before state `n`, or a time that constrains nothing. */
  ghost function LastOn(r: Run, id: NodeId, n: nat): int
    requires IsRun(r) && n < |r.states|
  {
    if n == 0 then r.states[0].clock - (if r.states[0].cfg.deadRetry > 0 then r.states[0].cfg.deadRetry else 0)
    else LastAfter(r.states[n - 1], r.events[n - 1], id, LastOn(r, id, n - 1))
  }

  /**
   A worker that starts asleep and never answers, in a run in which nobody enters it while it is dead; other nodes
   may be entered dead, as long as recovery overwrites no wake.
   */
  ghost predicate SilentRun(r: Run, id: NodeId)
  {
    && IsRun(r) && id in r.states[0].nodes && r.states[0].nodes[id].status == Sleeping
    && forall i :: 0 <= i < |r.events| ==> Unhurried(r.states[i], r.events[i], id)
  }

  predicate Unhurried(s: Cluster, e: Event, id: NodeId)
  {
    !EntersDead(s, e, id) && !RecoverOverWaking(s, e) && Silent(s, e, id)
  }

  lemma {:induction false} FreshForHolds(r: Run, id: NodeId, n: nat)
    requires SilentRun(r, id) && n < |r.states|
    ensures Inv(r.states[n]) && FreshFor(r.states[n].nodes, r.states[n].ctl, id)
  {
    if n == 0 {
      InitKeeps(r.states[0]);
    } else {
      FreshForHolds(r, id, n - 1);
      RunStep(r, n - 1);
      assert Unhurried(r.states[n - 1], r.events[n - 1], id);
      hide *;
      UnhurriedStep(r.states[n - 1], r.events[n - 1], r.states[n], id);
    }
  }

  lemma UnhurriedStep(s: Cluster, e: Event, s': Cluster, id: NodeId)
    requires Inv(s) && FreshFor(s.nodes, s.ctl, id) && Enabled(s, e) && Unhurried(s, e, id)
    requires s'.nodes == NodesAfter(s, e) && s'.callers == CallersAfter(s, e) && s'.ctl == CtlAfter(s, e)
    ensures Inv(s') && FreshFor(s'.nodes, s'.ctl, id)
  {
    hide InvOf, FreshFor, Enabled, NodesAfter, CallersAfter, CtlAfter, EntersDead, RecoverOverWaking, Silent;
    StepFreshFor(s, e, id);
    StepKeeps(s, e);
  }

  lemma {:induction false} PacedHolds(r: Run, id: NodeId, n: nat)
    requires SilentRun(r, id) && n < |r.states|
    ensures r.states[n].cfg == r.states[0].cfg
    ensures Paced(r.states[n], id, LastOn(r, id, n))
  {
    if n > 0 {
      PacedHolds(r, id, n - 1);
      FreshForHolds(r, id, n - 1);
      RunStep(r, n - 1);
      assert Unhurried(r.states[n - 1], r.events[n - 1], id);
      hide IsRun, Enabled, Inv, Paced, FreshFor, EntersDead, Silent, Step, LastAfter;
      StepPaced(r.states[n - 1], r.events[n - 1], id, LastOn(r, id, n - 1));
    }
  }

  /** Every PowerOn of the silent worker comes at least a cooldown after the one before it. */
  lemma AttemptsSpaced(r: Run, id: NodeId, n: nat)
    requires SilentRun(r, id) && n < |r.events| && IsPowerOn(r.states[n], r.events[n], id)
    ensures r.states[n].clock >= LastOn(r, id, n) + r.states[0].cfg.deadRetry
    ensures LastOn(r, id, n + 1) == r.states[n].clock
  {
    PacedHolds(r, id, n);
    FreshForHolds(r, id, n);
    RunStep(r, n);
    hide IsRun, Inv, Paced, FreshFor, EntersDead, Silent, IsSnapshot;
    PowerOnIsLate(r.states[n], r.events[n], id, LastOn(r, id, n));
  }

  /** What `k` attempts must have taken: one cooldown between any two. */
  function Spacing(k: nat, cooldown: int): int
    requires k > 0
  {
    (k - 1) * cooldown
  }

  /** `k` attempts, the last of them at `last`, all after `first`, are spaced. */
  predicate Spaced(k: nat, first: int, last: int, cooldown: int)
  {
    k > 0 ==> last - first >= Spacing(k, cooldown)
  }

  lemma SpacedStep(k: nat, first: int, last: int, cooldown: int, now: int)
    requires Spaced(k, first, last, cooldown) && now >= first && now >= last + cooldown
    ensures Spaced(k + 1, first, now, cooldown)
  {
    assert k * cooldown == (k - 1) * cooldown + cooldown;
  }

  lemma {:induction false} ClockGrows(r: Run, n: nat)
    requires IsRun(r) && n < |r.states|
    ensures r.states[n].clock >= r.states[0].clock
  {
    hide IsRun, Enabled, Step;
    if n > 0 {
      ClockGrows(r, n - 1);
      RunStep(r, n - 1);
    }
  }

  lemma {:induction false} LastAttemptLate(r: Run, id: NodeId, n: nat)
    requires SilentRun(r, id) && n < |r.states|
    ensures Spaced(PowerOns(r, id, n), r.states[0].clock, LastOn(r, id, n), r.states[0].cfg.deadRetry)
  {
    if n > 0 {
      assert IsRun(r) && n - 1 < |r.events|;
      hide IsRun, Enabled, IsPowerOn, SilentRun, Step, Spaced;
      LastAttemptLate(r, id, n - 1);
      if IsPowerOn(r.states[n - 1], r.events[n - 1], id) {
        ClockGrows(r, n - 1);
        AttemptsSpaced(r, id, n - 1);
        SpacedStep(PowerOns(r, id, n - 1), r.states[0].clock, LastOn(r, id, n - 1), r.states[0].cfg.deadRetry, r.states[n - 1].clock);
      }
    }
  }

  /** To see `k` PowerOn attempts on a worker that never answers takes at least (k - 1) cooldowns. */
  lemma AttemptsTakeTime(r: Run, id: NodeId, n: nat)
    requires SilentRun(r, id) && n < |r.states| && PowerOns(r, id, n) > 0
    ensures r.states[n].clock - r.states[0].clock >= (PowerOns(r, id, n) - 1) * r.states[0].cfg.deadRetry
  {
    LastAttemptLate(r, id, n);
    PacedHolds(r, id, n);
    hide IsRun, PowerOns, LastOn, AllStuck, AboutToPower;
  }

  // ---------- when nobody enters any dead node ----------

  /** A node RecoverDead still has to decide about is dead, so entering it would be entering a dead node. */
  lemma DeadEntryOnly(s: Cluster, e: Event)
    requires RecoveryFresh(s.nodes, s.ctl) && EntersPending(s, e)
    ensures EntersDead(s, e, Entered(s, e).value)
  {
    var id := Entered(s, e).value;
    if s.ctl.Recovering? || s.ctl.id != id {
      var n :| n in s.ctl.todo && n.id == id && n.status == Dead;
      assert DeadCopy(s.nodes, n);
    }
  }

  ghost predicate NobodyEntersDead(s: Cluster, e: Event)
  {
    forall id :: !EntersDead(s, e, id)
  }

  /** Then recovery overwrites no wake either. */
  lemma {:induction false} NoDeadEntryIsFresh(r: Run, n: nat)
    requires IsRun(r) && n < |r.states|
    requires forall i :: 0 <= i < |r.events| ==> NobodyEntersDead(r.states[i], r.events[i])
    ensures forall i :: 0 <= i < n ==> !EntersPending(r.states[i], r.events[i]) && !RecoverOverWaking(r.states[i], r.events[i])
    ensures Inv(r.states[n]) && RecoveryFresh(r.states[n].nodes, r.states[n].ctl)
  {
    hide Enabled, Inv, RecoveryFresh, EntersDead, EntersPending, RecoverOverWaking;
    if n > 0 {
      NoDeadEntryIsFresh(r, n - 1);
      RunStep(r, n - 1);
      if EntersPending(r.states[n - 1], r.events[n - 1]) {
        DeadEntryOnly(r.states[n - 1], r.events[n - 1]);
      }
      StepRecoveryFresh(r.states[n - 1], r.events[n - 1]);
      FreshIsSafe(r.states[n - 1], r.events[n - 1]);
    }
    RecoveryFreshHolds(r, n);
  }

  lemma NoDeadEntryIsUnhurried(r: Run, id: NodeId)
    requires IsRun(r) && id in r.states[0].nodes && r.states[0].nodes[id].status == Sleeping
    requires forall i :: 0 <= i < |r.events| ==>
               NobodyEntersDead(r.states[i], r.events[i]) && Silent(r.states[i], r.events[i], id)
    ensures SilentRun(r, id)
  {
    hide Enabled, Inv, RecoveryFresh, EntersDead, EntersPending, RecoverOverWaking, Silent, Init, Step;
    NoDeadEntryIsFresh(r, |r.events|);
    forall i | 0 <= i < |r.events| ensures Unhurried(r.states[i], r.events[i], id) {
      assert NobodyEntersDead(r.states[i], r.events[i]);
    }
  }
}
