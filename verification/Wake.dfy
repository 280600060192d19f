/**
 What a wake computes and that it ends: the interleaved leader steps compute what the sequential
 `wakeNode` computes from the same external replies, and under any fair scheduling every wake finishes,
 closes its record and so releases its followers.
 */
module Wake {
  import opened Types
  import opened RegistrySpec
  import opened Protocol
  import opened Frames
  import opened Followers

  // ---------- the sequential wake ----------

  datatype Outcome = Outcome(status: Status, res: Result)

  function Failures(deployed: map<string, bool>): nat
  {
    |set name | name in deployed && !deployed[name]|
  }

  /** `wakeNode` as a function of the replies it receives. */
  function WakeOutcome(h: Heard): Outcome
  {
    if h.on != Some(true) then Outcome(Dead, PowerOnFailed)
    else if true !in h.polls then Outcome(Dead, NotReady)
    else
      var failed := Failures(h.deployed);
      if failed == 0 then Outcome(Active, Ok)
      else if h.off == Some(true) then Outcome(Sleeping, DeployFailed(failed))
      else Outcome(Dead, StuckOn(failed))
  }

  /** Power on, at most `attempts` polls of which only the last may succeed, then every listed function. */
  ghost predicate Replied(attempts: nat, h: Heard)
  {
    && h.on.Some? && |h.polls| <= attempts
    && (forall i :: 0 <= i < |h.polls| - 1 ==> !h.polls[i])
    && (!h.on.value ==> h.polls == [] && h.listed.None?)
    && (h.on.value && true !in h.polls ==> |h.polls| == attempts && h.listed.None?)
    && (h.on.value && true in h.polls ==> h.listed.Some? && h.deployed.Keys == h.listed.value.Keys)
    && (h.off.Some? ==> h.on.value && true in h.polls && Failures(h.deployed) > 0)
    && (h.on.value && true in h.polls && Failures(h.deployed) > 0 ==> h.off.Some?)
  }

  /** A nil result means: powered on, answered within the attempt budget, and no listed function failed to deploy. */
  lemma NilMeansReady(attempts: nat, h: Heard)
    requires Replied(attempts, h)
    ensures WakeOutcome(h).res == Ok <==>
            && h.on == Some(true)
            && (exists i :: 0 <= i < |h.polls| <= attempts && h.polls[i])
            && h.listed.Some? && forall name :: name in h.listed.value ==> name in h.deployed && h.deployed[name]
    ensures WakeOutcome(h).res == Ok <==> WakeOutcome(h).status == Active
  {
    var bad := set name | name in h.deployed && !h.deployed[name];
    if WakeOutcome(h).res == Ok {
      assert bad == {};
      forall name | name in h.listed.value ensures name in h.deployed && h.deployed[name] {
        assert name in h.deployed.Keys;
        assert name in bad <==> !h.deployed[name];
      }
    } else if h.on == Some(true) && true in h.polls {
      assert bad != {};
      var name :| name in bad;
      assert name in h.listed.value.Keys;
    }
  }

  // ---------- the interleaved steps follow it ----------

  predicate Quiet(h: Heard)
  {
    h.listed.None? && h.deployed == map[] && h.off.None?
  }

  predicate Answered(attempts: nat, polls: seq<bool>)
  {
    && 0 < |polls| <= attempts && polls[|polls| - 1]
    && forall i :: 0 <= i < |polls| - 1 ==> !polls[i]
  }

  predicate AllDecided(attempts: nat, h: Heard)
  {
    h.on == Some(true) && Answered(attempts, h.polls) && h.listed.Some? && h.deployed.Keys == h.listed.value.Keys
  }

  /** What a leader has heard, given where it stands. */
  ghost predicate Fits(attempts: nat, pc: Pc, h: Heard)
  {
    match pc
    case PoweringOn => h == NOTHING_HEARD
    case Polling(left) => h.on == Some(true) && Quiet(h) && true !in h.polls && |h.polls| + left == attempts
    case Listing => h.on == Some(true) && Quiet(h) && Answered(attempts, h.polls)
    case Deploying(todo, failed) =>
      && h.on == Some(true) && Answered(attempts, h.polls) && h.listed.Some? && h.off.None?
      && h.deployed.Keys + todo.Keys == h.listed.value.Keys && h.deployed.Keys !! todo.Keys
      && Failures(h.deployed) == failed
    case PoweringOff(failed) => AllDecided(attempts, h) && h.off.None? && Failures(h.deployed) == failed && failed > 0
    case Recording(status, res) => Replied(attempts, h) && WakeOutcome(h) == Outcome(status, res)
    case Deleting(res) => Replied(attempts, h) && WakeOutcome(h).res == res
    case Publishing(res) => Replied(attempts, h) && WakeOutcome(h).res == res
    case Closing(res) => Replied(attempts, h) && WakeOutcome(h).res == res
    case Returned(res) => Replied(attempts, h) && WakeOutcome(h).res == res
    case _ => false
  }

  ghost predicate AllFit(attempts: nat, callers: Callers)
  {
    forall g :: g in callers && callers[g].role.Leader? ==> Fits(attempts, callers[g].pc, callers[g].heard)
  }

  lemma FailuresGrow(deployed: map<string, bool>, name: string, ok: bool)
    requires name !in deployed
    ensures Failures(deployed[name := ok]) == Failures(deployed) + if ok then 0 else 1
  {
    var bad := set n | n in deployed && !deployed[n];
    var deployed' := deployed[name := ok];
    var bad' := set n | n in deployed' && !deployed'[n];
    assert bad' == bad + if ok then {} else {name};
  }

  lemma DeployFits(attempts: nat, todo: Functions, failed: nat, h: Heard, name: string, ok: bool)
    requires Fits(attempts, Deploying(todo, failed), h) && name in todo
    ensures Fits(attempts, Deploying(todo - {name}, if ok then failed else failed + 1), h.(deployed := h.deployed[name := ok]))
  {
    FailuresGrow(h.deployed, name, ok);
    var d := h.deployed[name := ok];
    assert d.Keys == h.deployed.Keys + {name};
    assert (todo - {name}).Keys == todo.Keys - {name};
    hide Failures, Answered;
  }

  lemma PollFits(attempts: nat, left: nat, h: Heard, answered: bool)
    requires Fits(attempts, Polling(left), h) && left > 0
    ensures Fits(attempts, if answered then Listing else Polling(left - 1), h.(polls := h.polls + [answered]))
  {
  }

  lemma StepFits(s: Cluster, e: Event)
    requires EnabledCaller(s, e) && !e.Enter? && s.callers[e.g].role.Leader?
    requires Fits(s.cfg.attempts, s.callers[e.g].pc, s.callers[e.g].heard)
    ensures Fits(s.cfg.attempts, PcAfter(s, e), HeardAfter(s, e))
  {
    var c := s.callers[e.g];
    match e
    case Poll(g, answered) => PollFits(s.cfg.attempts, c.pc.left, c.heard, answered);
    case DeployReturns(g, name, ok, landed) => DeployFits(s.cfg.attempts, c.pc.todo, c.pc.failed, c.heard, name, ok);
    case ListFunctions(g) => assert c.heard.deployed == map[];
    case GiveUp(g) =>
    case DeployEnds(g) => assert c.heard.deployed.Keys == c.heard.listed.value.Keys;
    case PowerOffReturns(g, io) => hide Succeeds, Failures;
    case _ => hide Succeeds, Failures;
  }

  lemma {:induction false} AllFitHolds(r: Run, n: nat)
    requires IsRun(r) && n < |r.states|
    ensures r.states[n].cfg == r.states[0].cfg && AllFit(r.states[0].cfg.attempts, r.states[n].callers)
  {
    if n > 0 {
      hide *;
      AllFitHolds(r, n - 1);
      RunStep(r, n - 1);
      StepAllFit(r.states[n - 1], r.events[n - 1]);
    }
  }

  lemma StepAllFit(s: Cluster, e: Event)
    requires Enabled(s, e) && AllFit(s.cfg.attempts, s.callers)
    ensures AllFit(s.cfg.attempts, CallersAfter(s, e))
  {
    forall g | g in CallersAfter(s, e) && CallersAfter(s, e)[g].role.Leader?
      ensures Fits(s.cfg.attempts, CallersAfter(s, e)[g].pc, CallersAfter(s, e)[g].heard)
    {
      hide PcAfter, HeardAfter, IsSnapshot, CallersAfter;
      CallerAfter(s, e, g);
      if Entered(s, e).Some? && g == e.g {
      } else if EnabledCaller(s, e) && g == e.g {
        hide Fits;
        StepFits(s, e);
      } else {
        hide Fits;
      }
    }
  }

  /** Every leader that has returned got replies in the order of the wake sequence and returned what they add up to. */
  lemma LeadersReturnTheOutcome(r: Run, n: nat, g: Gid)
    requires IsRun(r) && n < |r.states|
    requires g in r.states[n].callers && r.states[n].callers[g].role.Leader? && r.states[n].callers[g].pc.Returned?
    ensures var c := r.states[n].callers[g];
            Replied(r.states[0].cfg.attempts, c.heard) && c.pc.res == WakeOutcome(c.heard).res
  {
    AllFitHolds(r, n);
  }

  /** The final status a leader writes is the outcome's, so Active is written exactly for a nil result. */
  lemma LeadersRecordTheOutcome(r: Run, n: nat)
    requires IsRun(r) && n < |r.events| && r.events[n].Record?
    ensures var s, g := r.states[n], r.events[n].g;
            && g in s.callers && s.callers[g].pc.Recording?
            && Outcome(s.callers[g].pc.status, s.callers[g].pc.res) == WakeOutcome(s.callers[g].heard)
  {
    hide IsRun, WakeOutcome, Replied, SoundRecords, SoundTable, IsSnapshot;
    RunStep(r, n);
    AllFitHolds(r, n);
    HonestHolds(r, n);
    var s, g := r.states[n], r.events[n].g;
    assert SoundRole(s.records, g, s.callers[g]);
  }

  // ---------- every wake ends ----------

  /** The lexicographic measure of a leader: phase, polls left, functions undecided. */
  function Phase(pc: Pc): nat
  {
    match pc
    case PoweringOn => 9
    case Polling(_) => 8
    case Listing => 7
    case Deploying(_, _) => 6
    case PoweringOff(_) => 5
    case Recording(_, _) => 4
    case Deleting(_) => 3
    case Publishing(_) => 2
    case Closing(_) => 1
    case _ => 0
  }

  function PollsLeft(pc: Pc): nat
  {
    if pc.Polling? then pc.left else 0
  }

  function Undecided(pc: Pc): nat
  {
    if pc.Deploying? then |pc.todo| else 0
  }

  predicate Below(p: Pc, q: Pc)
  {
    || Phase(p) < Phase(q)
    || (Phase(p) == Phase(q) && PollsLeft(p) < PollsLeft(q))
    || (Phase(p) == Phase(q) && PollsLeft(p) == PollsLeft(q) && Undecided(p) < Undecided(q))
  }

  /** The goroutine this event moves, entry apart. */
  function Mover(e: Event): Option<Gid>
  {
    match e
    case PowerOnReturns(g, _) => Some(g)
    case Poll(g, _) => Some(g)
    case GiveUp(g) => Some(g)
    case ListFunctions(g) => Some(g)
    case DeployReturns(g, _, _, _) => Some(g)
    case DeployEnds(g) => Some(g)
    case PowerOffReturns(g, _) => Some(g)
    case Record(g) => Some(g)
    case Delete(g) => Some(g)
    case Publish(g) => Some(g)
    case Close(g) => Some(g)
    case Release(g) => Some(g)
    case TimeOut(g) => Some(g)
    case Crash(g) => Some(g)
    case _ => None
  }

  lemma LeaderDescends(s: Cluster, e: Event)
    requires EnabledCaller(s, e) && !e.Enter? && s.callers[e.g].role.Leader?
    ensures Below(PcAfter(s, e), s.callers[e.g].pc)
  {
    hide Succeeds;
    if e.DeployReturns? {
      var todo := s.callers[e.g].pc.todo;
      assert (todo - {e.name}).Keys == todo.Keys - {e.name};
      assert |(todo - {e.name}).Keys| == |todo.Keys| - 1;
    }
  }

  predicate Leading(s: Cluster, g: Gid)
  {
    g in s.callers && s.callers[g].role.Leader? && (InFlight(s.callers[g].pc) ==> s.callers[g].node in s.nodes)
  }

  ghost predicate Unfinished(s: Cluster, g: Gid)
  {
    Honest(s) && Leading(s, g) && !s.callers[g].pc.Returned?
  }

  /** Whatever the external calls reply, the leader has its next step. */
  lemma LeaderCanMove(s: Cluster, g: Gid, io: Relay.Io, flag: bool)
    requires Unfinished(s, g)
    ensures var pc := s.callers[g].pc;
            match pc
            case PoweringOn => Enabled(s, PowerOnReturns(g, io))
            case Polling(left) => Enabled(s, if left > 0 then Poll(g, flag) else GiveUp(g))
            case Listing => Enabled(s, ListFunctions(g))
            case Deploying(todo, _) =>
              if todo == map[] then Enabled(s, DeployEnds(g))
              else exists name :: name in todo && Enabled(s, DeployReturns(g, name, flag, flag))
            case PoweringOff(_) => Enabled(s, PowerOffReturns(g, io))
            case Recording(_, _) => Enabled(s, Record(g))
            case Deleting(_) => Enabled(s, Delete(g))
            case Publishing(_) => Enabled(s, Publish(g))
            case _ => pc.Closing? && Enabled(s, Close(g))
  {
    hide EnabledCtl, EnabledRest;
    var c := s.callers[g];
    assert SoundRole(s.records, g, c);
    assert SoundRecord(s.records, s.callers, c.role.act);
    hide SoundRecords, SoundRoles, SoundTable;
    if c.pc.Deploying? && c.pc.todo != map[] {
      var name :| name in c.pc.todo;
      assert EnabledCaller(s, DeployReturns(g, name, flag, flag));
    }
  }

  /** One such step, as a choice. */
  ghost function NextEvent(s: Cluster, g: Gid, io: Relay.Io, flag: bool): (e: Event)
    requires Unfinished(s, g)
    ensures Enabled(s, e) && Mover(e) == Some(g)
  {
    LeaderCanMove(s, g, io, flag);
    var pc := s.callers[g].pc;
    match pc
    case PoweringOn => PowerOnReturns(g, io)
    case Polling(left) => if left > 0 then Poll(g, flag) else GiveUp(g)
    case Listing => ListFunctions(g)
    case Deploying(todo, _) =>
      if todo == map[] then DeployEnds(g)
      else
        var name :| name in todo && Enabled(s, DeployReturns(g, name, flag, flag));
        DeployReturns(g, name, flag, flag)
    case PoweringOff(_) => PowerOffReturns(g, io)
    case Recording(_, _) => Record(g)
    case Deleting(_) => Delete(g)
    case Publishing(_) => Publish(g)
    case _ => Close(g)
  }

  /** An event that is not the leader's own leaves it where it is. */
  lemma OthersLeaveIt(s: Cluster, e: Event, g: Gid)
    requires Enabled(s, e) && Leading(s, g) && Mover(e) != Some(g)
    ensures g in CallersAfter(s, e) && CallersAfter(s, e)[g] == s.callers[g] && NodesAfter(s, e).Keys == s.nodes.Keys
  {
    TopologyKept(s, e);
    hide NodesAfter, SameTopology, PcAfter, HeardAfter, IsSnapshot;
  }

  lemma OwnMove(s: Cluster, e: Event, g: Gid)
    requires Enabled(s, e) && Leading(s, g) && Mover(e) == Some(g)
    ensures g in CallersAfter(s, e) && CallersAfter(s, e)[g].role == s.callers[g].role
    ensures CallersAfter(s, e)[g].node == s.callers[g].node && NodesAfter(s, e).Keys == s.nodes.Keys
    ensures Below(CallersAfter(s, e)[g].pc, s.callers[g].pc)
    ensures InFlight(CallersAfter(s, e)[g].pc) ==> InFlight(s.callers[g].pc)
  {
    TopologyKept(s, e);
    assert EnabledCaller(s, e) && !e.Enter?;
    LeaderDescends(s, e);
    PcMoves(s, e);
    hide NodesAfter, SameTopology, PcAfter, HeardAfter, Below;
  }

  // ---------- infinite runs ----------

  /** An infinite sequence of events and the states they lead through, from any state on. */
  ghost predicate Continues(states: nat -> Cluster, events: nat -> Event)
  {
    forall i: nat :: Enabled(states(i), events(i)) && states(i + 1) == Step(states(i), events(i))
  }

  /** As long as the leader has not returned, it gets a turn again. */
  ghost predicate KeepsGettingTurns(states: nat -> Cluster, events: nat -> Event, g: Gid)
  {
    forall n: nat :: Unfinished(states(n), g) ==> exists m: nat :: m >= n && Mover(events(m)) == Some(g)
  }

  /** The leader is still running, or has returned. */
  ghost predicate Running(s: Cluster, g: Gid)
  {
    Honest(s) && Leading(s, g)
  }

  lemma OthersStep(s: Cluster, e: Event, g: Gid)
    requires Enabled(s, e) && Running(s, g) && Mover(e) != Some(g)
    ensures Running(Step(s, e), g) && Step(s, e).callers[g] == s.callers[g]
  {
    StepHonest(s, e);
    OthersLeaveIt(s, e, g);
    hide HonestOf, Enabled, NodesAfter, CallersAfter, TableAfter, RecordsAfter, HeldAfter, RelaysAfter, CooledAfter;
  }

  lemma OwnStep(s: Cluster, e: Event, g: Gid)
    requires Enabled(s, e) && Running(s, g) && Mover(e) == Some(g)
    ensures Running(Step(s, e), g) && Below(Step(s, e).callers[g].pc, s.callers[g].pc)
    ensures Step(s, e).callers[g].role == s.callers[g].role && Step(s, e).callers[g].node == s.callers[g].node
  {
    StepHonest(s, e);
    OwnMove(s, e, g);
    hide HonestOf, Enabled, Below, NodesAfter, CallersAfter, TableAfter, RecordsAfter, HeldAfter, RelaysAfter;
    hide CooledAfter;
  }

  /** Up to its next turn the leader stays where it is. */
  lemma {:induction false} WaitsForTurn(states: nat -> Cluster, events: nat -> Event, g: Gid, n: nat, m: nat)
    requires Continues(states, events) && Running(states(n), g) && n <= m
    requires forall k: nat :: n <= k < m ==> Mover(events(k)) != Some(g)
    ensures Running(states(m), g) && states(m).callers[g] == states(n).callers[g]
    decreases m - n
  {
    hide Enabled, Step, Running;
    if n < m {
      OthersStep(states(n), events(n), g);
      WaitsForTurn(states, events, g, n + 1, m);
    }
  }

  lemma NextTurn(events: nat -> Event, g: Gid, n: nat, m: nat) returns (k: nat)
    requires n <= m && Mover(events(m)) == Some(g)
    ensures n <= k <= m && Mover(events(k)) == Some(g)
    ensures forall j: nat :: n <= j < k ==> Mover(events(j)) != Some(g)
  {
    k := n;
    while Mover(events(k)) != Some(g)
      invariant n <= k <= m
      invariant forall j: nat :: n <= j < k ==> Mover(events(j)) != Some(g)
      decreases m - k
    {
      k := k + 1;
    }
  }

  /**
   In every infinite run that keeps giving the leader turns, whatever else happens in between and whatever
   the external calls reply, the wake ends: its leader returns, its record is closed once and holds the
   leader's result, and every follower still waiting on that record may return that result.
   */
  lemma {:induction false} WakeEnds(states: nat -> Cluster, events: nat -> Event, g: Gid, n: nat) returns (end: nat)
    requires Continues(states, events) && KeepsGettingTurns(states, events, g) && Running(states(n), g)
    ensures end >= n && g in states(end).callers && states(end).callers[g].pc.Returned?
    ensures states(end).callers[g].role == states(n).callers[g].role
    ensures Concluded(states(end), g)
    decreases Phase(states(n).callers[g].pc), PollsLeft(states(n).callers[g].pc), Undecided(states(n).callers[g].pc)
  {
    hide Step, Enabled, Concluded;
    if states(n).callers[g].pc.Returned? {
      end := n;
      ReturnedIsConcluded(states(n), g);
    } else {
      assert Unfinished(states(n), g);
      var m: nat :| m >= n && Mover(events(m)) == Some(g);
      var k := NextTurn(events, g, n, m);
      WaitsForTurn(states, events, g, n, k);
      OwnStep(states(k), events(k), g);
      hide Running;
      end := WakeEnds(states, events, g, k + 1);
    }
  }

  /** The leader has returned what its record, closed once, tells every follower still waiting on it. */
  ghost predicate Concluded(s: Cluster, g: Gid)
  {
    && g in s.callers && s.callers[g].pc.Returned? && s.callers[g].role.Leader? && s.callers[g].role.act < |s.records|
    && s.records[s.callers[g].role.act].closes == 1 && s.records[s.callers[g].role.act].err == s.callers[g].pc.res
    && forall h :: h in s.callers && s.callers[h].pc.Waiting? && s.callers[h].role == Follower(Some(s.callers[g].role.act))
         ==> Enabled(s, Release(h)) && PcAfter(s, Release(h)) == s.callers[g].pc
  }

  lemma ReturnedIsConcluded(s: Cluster, g: Gid)
    requires Running(s, g) && s.callers[g].pc.Returned?
    ensures Concluded(s, g)
  {
    assert SoundRole(s.records, g, s.callers[g]);
    assert SoundRecord(s.records, s.callers, s.callers[g].role.act);
  }

  // ---------- the result concerns every leader of every run, and fair runs exist ----------

  /** A leader in flight stands for a node of the topology. */
  ghost predicate WakesKnown(nodes: Nodes, callers: Callers)
  {
    forall g :: g in callers && InFlight(callers[g].pc) ==> callers[g].node in nodes
  }

  lemma StepWakesKnown(s: Cluster, e: Event)
    requires Enabled(s, e) && WakesKnown(s.nodes, s.callers)
    ensures WakesKnown(NodesAfter(s, e), CallersAfter(s, e))
  {
    TopologyKept(s, e);
    forall g | g in CallersAfter(s, e) && InFlight(CallersAfter(s, e)[g].pc)
      ensures CallersAfter(s, e)[g].node in NodesAfter(s, e)
    {
      hide NodesAfter, CallersAfter, PcAfter, HeardAfter, SameNode, EnabledCtl, EnabledRest;
      CallerAfter(s, e, g);
      if EnabledCaller(s, e) && !e.Enter? && g == e.g {
        PcMoves(s, e);
      }
    }
  }

  lemma {:induction false} WakesKnownHolds(r: Run, n: nat)
    requires IsRun(r) && n < |r.states|
    ensures WakesKnown(r.states[n].nodes, r.states[n].callers)
  {
    if n > 0 {
      WakesKnownHolds(r, n - 1);
      RunStep(r, n - 1);
      hide *;
      StepWakesKnown(r.states[n - 1], r.events[n - 1]);
    }
  }

  /** Every leader of every state of every run is one the termination result speaks of. */
  lemma LeadersRun(r: Run, n: nat, g: Gid)
    requires IsRun(r) && n < |r.states| && g in r.states[n].callers && r.states[n].callers[g].role.Leader?
    ensures Running(r.states[n], g)
  {
    HonestHolds(r, n);
    WakesKnownHolds(r, n);
    hide IsRun, HonestOf;
  }

  /**
   The run that does nothing but give the leader its steps, with the same reply each time, and then lets time stand
   still.
   */
  ghost function OnlyLeader(s: Cluster, g: Gid, io: Relay.Io, flag: bool, n: nat): (t: Cluster)
    requires Running(s, g)
    ensures Running(t, g)
  {
    if n == 0 then s
    else
      var t := OnlyLeader(s, g, io, flag, n - 1);
      StepsOn(t, g, io, flag);
      Step(t, LeaderEvent(t, g, io, flag))
  }

  ghost function LeaderEvent(s: Cluster, g: Gid, io: Relay.Io, flag: bool): Event
    requires Running(s, g)
  {
    if s.callers[g].pc.Returned? then Tick(0) else NextEvent(s, g, io, flag)
  }

  lemma StepsOn(s: Cluster, g: Gid, io: Relay.Io, flag: bool)
    requires Running(s, g)
    ensures Enabled(s, LeaderEvent(s, g, io, flag)) && Running(Step(s, LeaderEvent(s, g, io, flag)), g)
  {
    hide Step;
    if s.callers[g].pc.Returned? {
      hide Running;
      OthersStep(s, Tick(0), g);
    } else {
      assert Unfinished(s, g);
      hide Running, Enabled, Unfinished;
      OwnStep(s, NextEvent(s, g, io, flag), g);
    }
  }

  lemma LeaderStarts(s: Cluster, g: Gid, io: Relay.Io, flag: bool)
    requires Running(s, g)
    ensures OnlyLeader(s, g, io, flag, 0) == s
  {
    hide Running;
  }

  lemma LeaderSteps(s: Cluster, g: Gid, io: Relay.Io, flag: bool, n: nat)
    requires Running(s, g)
    ensures var t, e := OnlyLeader(s, g, io, flag, n), LeaderEvent(OnlyLeader(s, g, io, flag, n), g, io, flag);
            Enabled(t, e) && OnlyLeader(s, g, io, flag, n + 1) == Step(t, e)
  {
    hide Enabled, Step, Running, LeaderEvent;
    StepsOn(OnlyLeader(s, g, io, flag, n), g, io, flag);
  }

  lemma UnfinishedMoves(s: Cluster, g: Gid, io: Relay.Io, flag: bool)
    requires Unfinished(s, g)
    ensures Running(s, g) && LeaderEvent(s, g, io, flag) == NextEvent(s, g, io, flag)
    ensures Mover(LeaderEvent(s, g, io, flag)) == Some(g)
  {
    hide NextEvent, HonestOf, Mover;
  }

  /** From every state with an unfinished wake there is an infinite run that gives its leader turns, for any replies. */
  lemma FairRunExists(s: Cluster, g: Gid, io: Relay.Io, flag: bool)
    requires Running(s, g)
    ensures exists states: nat -> Cluster, events: nat -> Event ::
              && states(0) == s && Continues(states, events) && KeepsGettingTurns(states, events, g)
              && forall i: nat :: Unfinished(states(i), g) ==> events(i) == NextEvent(states(i), g, io, flag)
  {
    hide Enabled, Step, Running, Mover, Unfinished, NextEvent, OnlyLeader, LeaderEvent;
    LeaderStarts(s, g, io, flag);
    var states: nat -> Cluster := (n: nat) => OnlyLeader(s, g, io, flag, n);
    var events: nat -> Event := (n: nat) => LeaderEvent(OnlyLeader(s, g, io, flag, n), g, io, flag);
    forall i: nat ensures Enabled(states(i), events(i)) && states(i + 1) == Step(states(i), events(i)) {
      LeaderSteps(s, g, io, flag, i);
    }
    assert Continues(states, events);
    forall n: nat | Unfinished(states(n), g)
      ensures events(n) == NextEvent(states(n), g, io, flag)
      ensures exists m: nat :: m >= n && Mover(events(m)) == Some(g)
    {
      UnfinishedMoves(states(n), g, io, flag);
      assert Mover(events(n)) == Some(g);
    }
    assert KeepsGettingTurns(states, events, g);
  }
}
