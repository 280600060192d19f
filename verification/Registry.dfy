/**
 The node registry as it runs: its methods update the node table, the activations and the relays in
 place. Each is the uninterrupted run of one goroutine; how goroutines interleave is the Protocol module.
 Replies from outside (health checks, deploys, relay transfers) and the time are parameters.
 */
module Registry {
  import opened Types
  import opened Relay
  import opened RegistrySpec
  import opened Protocol
  import opened Frames
  import opened Wake
  import opened LeaderNode
  import T = TinkerforgeController
  import F = FunctionStore

  /** One in-flight wake; `err` is meaningful once `done` is closed. */
  class ActivationRecord {
    var done: bool
    var err: Result

    constructor ()
      ensures !done && err == Ok
    {
      done, err := false, Ok;
    }

    /** Waits until closed, perhaps by its leader `meanwhile`, or until the safety timeout. */
    method Wait(meanwhile: Option<Result>) returns (res: Result)
      ensures done ==> res == err
      ensures !done && meanwhile.Some? ==> res == meanwhile.value
      ensures !done && meanwhile.None? ==> res == TimedOut
    {
      if done {
        return err;
      }
      match meanwhile {
        case Some(outcome) => return outcome;
        case None =>
      }
      res := TimedOut;
    }
  }

  /** Everything outside the leader answers during one wake. */
  datatype Replies = Replies(on: Io, health: nat -> bool, deploys: string -> bool, off: Io)

  /**
   The relay commands of one wake: power on, and power off again exactly if the wake got as far as a failed deploy.
   */
  predicate WakeCommands(before: Relays, after: Relays, relayUid: string, channel: int, r: Replies, heard: Heard)
  {
    var on := SetChannel(before, Command(relayUid, channel, true, r.on));
    && heard.on == Some(on.1)
    && (heard.off.None? ==> after == on.0)
    && (heard.off.Some? ==> (after, heard.off.value) == SetChannel(on.0, Command(relayUid, channel, false, r.off)))
  }

  /** A wake hears what the outside answers: poll by poll, and for every function of the store. */
  ghost predicate HeardFrom(heard: Heard, r: Replies, funcs: Functions)
  {
    && (forall i :: 0 <= i < |heard.polls| ==> heard.polls[i] == r.health(i))
    && (heard.listed.Some? ==>
          heard.listed.value == funcs && forall name :: name in funcs ==> name in heard.deployed && heard.deployed[name] == r.deploys(name))
  }

  /** What `ActivateNode` does in its entry block. */
  datatype Decision = Return(res: Result) | Await(act: Option<ActivationRecord>) | Lead(own: ActivationRecord, node: Node)

  /** Polls until the node answers or the attempts are used up. */
  method WaitForNodeReady(attempts: nat, health: nat -> bool) returns (ready: bool, ghost polls: seq<bool>)
    ensures ready <==> exists i: nat :: i < attempts && health(i)
    ensures if ready then Answered(attempts, polls) else |polls| == attempts && true !in polls
    ensures forall i :: 0 <= i < |polls| ==> polls[i] == health(i)
  {
    polls := [];
    for i := 0 to attempts
      invariant |polls| == i && forall k :: 0 <= k < i ==> polls[k] == health(k) && !polls[k]
    {
      polls := polls + [health(i)];
      if health(i) {
        assert polls[i];
        return true, polls;
      }
    }
    ready := false;
  }

  /** How each listed function's deploy goes. */
  function DeployReplies(all: Functions, deploys: string -> bool): map<string, bool>
  {
    map name | name in all :: deploys(name)
  }

  /** Deploys every listed function, whatever happens to the others, and counts the failures. */
  method DeployFunctions(all: Functions, deploys: string -> bool) returns (failed: nat)
    ensures failed == Failures(DeployReplies(all, deploys)) == |set name | name in all && !deploys(name)|
    ensures failed == 0 <==> forall name :: name in all ==> deploys(name)
  {
    failed := 0;
    ghost var deployed: map<string, bool> := map[];
    var todo := all.Keys;
    while todo != {}
      invariant todo <= all.Keys && deployed.Keys == all.Keys - todo
      invariant forall name :: name in deployed ==> deployed[name] == deploys(name)
      invariant failed == Failures(deployed)
      decreases |todo|
    {
      var name :| name in todo;
      FailuresGrow(deployed, name, deploys(name));
      if !deploys(name) {
        failed := failed + 1;
      }
      deployed := deployed[name := deploys(name)];
      todo := todo - {name};
    }
    assert deployed == DeployReplies(all, deploys);
    NoFailures(deployed);
    FailuresMean(all, deploys);
  }

  lemma FailuresMean(all: Functions, deploys: string -> bool)
    ensures Failures(DeployReplies(all, deploys)) == |set name | name in all && !deploys(name)|
  {
    var replies := DeployReplies(all, deploys);
    assert (set name | name in replies && !replies[name]) == set name | name in all && !deploys(name);
  }

  lemma NoFailures(deployed: map<string, bool>)
    ensures Failures(deployed) == 0 <==> forall name :: name in deployed ==> deployed[name]
  {
    var bad := set name | name in deployed && !deployed[name];
    forall name | name in deployed ensures !deployed[name] <==> name in bad {
    }
    if bad != {} {
      var name :| name in bad;
      assert !deployed[name];
    }
  }

  // ---------- the four ways a wake can end ----------

  lemma NoPower(attempts: nat)
    ensures var h := NOTHING_HEARD.(on := Some(false)); Replied(attempts, h) && WakeOutcome(h) == Outcome(Dead, PowerOnFailed)
  {
  }

  lemma NoAnswer(attempts: nat, polls: seq<bool>)
    requires |polls| == attempts && true !in polls
    ensures var h := NOTHING_HEARD.(on := Some(true), polls := polls); Replied(attempts, h) && WakeOutcome(h) == Outcome(Dead, NotReady)
  {
  }

  lemma Undeployed(attempts: nat, polls: seq<bool>, all: Functions, deployed: map<string, bool>, off: bool)
    requires Answered(attempts, polls)
    requires deployed.Keys == all.Keys && Failures(deployed) > 0
    ensures var h := Heard(Some(true), polls, Some(all), deployed, Some(off));
            && Replied(attempts, h)
            && WakeOutcome(h) == if off then Outcome(Sleeping, DeployFailed(Failures(deployed))) else Outcome(Dead, StuckOn(Failures(deployed)))
  {
  }

  lemma Deployed(attempts: nat, polls: seq<bool>, all: Functions, deployed: map<string, bool>)
    requires Answered(attempts, polls)
    requires deployed.Keys == all.Keys && Failures(deployed) == 0
    ensures var h := Heard(Some(true), polls, Some(all), deployed, None);
            Replied(attempts, h) && WakeOutcome(h) == Outcome(Active, Ok)
  {
  }

  /**
   A wake as what the outside answers makes of it: it fails without power, without an answer within the attempts,
   or if some function of the store fails to deploy, and is then powered off again, or stuck on if that fails.
   */
  lemma WakeByReplies(before: Relays, after: Relays, relayUid: string, channel: int, r: Replies, heard: Heard,
        funcs: Functions, attempts: nat)
    requires Replied(attempts, heard) && HeardFrom(heard, r, funcs)
    requires WakeCommands(before, after, relayUid, channel, r, heard)
    ensures var bad := set name | name in funcs && !r.deploys(name);
            var (mid, on) := SetChannel(before, Command(relayUid, channel, true, r.on));
            var (end, off) := SetChannel(mid, Command(relayUid, channel, false, r.off));
            var up := on && exists i: nat :: i < attempts && r.health(i);
            && (!on ==> WakeOutcome(heard) == Outcome(Dead, PowerOnFailed))
            && (on && !up ==> WakeOutcome(heard) == Outcome(Dead, NotReady))
            && (up && bad == {} ==> WakeOutcome(heard) == Outcome(Active, Ok))
            && (up && bad != {} && off ==> WakeOutcome(heard) == Outcome(Sleeping, DeployFailed(|bad|)))
            && (up && bad != {} && !off ==> WakeOutcome(heard) == Outcome(Dead, StuckOn(|bad|)))
            && after == if up && bad != {} then end else mid
  {
    hide SetChannel;
    if true in heard.polls {
      var i :| 0 <= i < |heard.polls| && heard.polls[i];
      assert i < attempts && r.health(i);
      var bad := set name | name in funcs && !r.deploys(name);
      assert bad == set name | name in heard.deployed && !heard.deployed[name];
    } else if heard.on.value {
      forall i: nat | i < attempts ensures !r.health(i) {
        assert heard.polls[i] in heard.polls;
      }
    }
  }

  /** The entry block leaves everything but the status alone, and the final SetStatus the time of death. */
  lemma StatusOfWake(nodes: Nodes, id: NodeId, status: Status, now: int)
    requires id in nodes
    ensures SetStatus(BeginWake(nodes, id), id, status, now)
            == nodes[id := nodes[id].(status := status, deadSince := if status == Dead then At(now) else Never)]
    ensures BeginWake(nodes, id) == nodes[id := nodes[id].(status := Waking)]
  {
  }

  /** A listing in progress: every node is listed once or still to come. */
  ghost predicate Listed(nodes: Nodes, snap: seq<Node>, todo: set<NodeId>)
  {
    && todo <= nodes.Keys && OwnIds(nodes)
    && (forall i :: 0 <= i < |snap| ==> snap[i].id in nodes && nodes[snap[i].id] == snap[i] && snap[i].id !in todo)
    && (forall i, j :: 0 <= i < j < |snap| ==> snap[i].id != snap[j].id)
    && (forall id :: id in nodes && id !in todo ==> exists i :: 0 <= i < |snap| && snap[i].id == id)
  }

  lemma NothingListed(nodes: Nodes)
    requires OwnIds(nodes)
    ensures Listed(nodes, [], nodes.Keys)
  {
  }

  lemma ListOneMore(nodes: Nodes, snap: seq<Node>, todo: set<NodeId>, id: NodeId)
    requires Listed(nodes, snap, todo) && id in todo
    ensures id in nodes && Listed(nodes, snap + [nodes[id]], todo - {id})
  {
    var longer := snap + [nodes[id]];
    forall k | k in nodes && k !in todo - {id} ensures exists i :: 0 <= i < |longer| && longer[i].id == k {
      if k == id {
        assert longer[|snap|].id == k;
      } else {
        var i :| 0 <= i < |snap| && snap[i].id == k;
        assert longer[i].id == k;
      }
    }
  }

  lemma AllListed(nodes: Nodes, snap: seq<Node>)
    requires Listed(nodes, snap, {})
    ensures IsSnapshot(nodes, snap)
  {
  }

  /** What one node becomes in a recovery pass. */
  function Recovered(n: Node, healthy: bool, cooldown: int, now: int): Node
  {
    if n.status != Dead then n
    else if healthy && n.managerAddress != "" then n.(status := Active, deadSince := Never)
    else if ElapsedAtLeast(now, n.deadSince, cooldown) then n.(status := Sleeping, deadSince := Never)
    else n
  }

  /** A recovery pass has dealt with the first `i` nodes of its snapshot and not touched the others. */
  ghost predicate RecoveredUpTo(before: Nodes, nodes: Nodes, snap: seq<Node>, i: nat, healthy: NodeId -> bool,
        cooldown: int, now: int)
    requires i <= |snap|
  {
    && nodes.Keys == before.Keys && IsSnapshot(before, snap)
    && (forall k :: 0 <= k < i ==> nodes[snap[k].id] == Recovered(snap[k], healthy(snap[k].id), cooldown, now))
    && (forall k :: i <= k < |snap| ==> nodes[snap[k].id] == snap[k])
  }

  lemma RecoveryStarts(nodes: Nodes, snap: seq<Node>, healthy: NodeId -> bool, cooldown: int, now: int)
    requires IsSnapshot(nodes, snap)
    ensures RecoveredUpTo(nodes, nodes, snap, 0, healthy, cooldown, now)
  {
  }

  lemma RecoverNext(before: Nodes, nodes: Nodes, snap: seq<Node>, i: nat, healthy: NodeId -> bool, cooldown: int,
        now: int)
    requires i < |snap| && RecoveredUpTo(before, nodes, snap, i, healthy, cooldown, now)
    ensures snap[i].id in nodes && nodes[snap[i].id] == snap[i] && nodes[snap[i].id := snap[i]] == nodes
    ensures RecoveredUpTo(before, nodes[snap[i].id := Recovered(snap[i], healthy(snap[i].id), cooldown, now)], snap, i + 1, healthy, cooldown, now)
  {
    hide Recovered;
  }

  lemma RecoveryEnds(before: Nodes, nodes: Nodes, snap: seq<Node>, healthy: NodeId -> bool, cooldown: int, now: int)
    requires RecoveredUpTo(before, nodes, snap, |snap|, healthy, cooldown, now)
    ensures nodes.Keys == before.Keys
    ensures forall id :: id in nodes ==> nodes[id] == Recovered(before[id], healthy(id), cooldown, now)
  {
    hide Recovered;
    forall id | id in nodes ensures nodes[id] == Recovered(before[id], healthy(id), cooldown, now) {
      var k :| 0 <= k < |snap| && snap[k].id == id;
    }
  }

  /** The relay commands of a startup pass over a snapshot. */
  function PowerOffs(snap: seq<Node>, ios: NodeId -> Io): seq<Command>
  {
    if snap == [] then []
    else
      var n := snap[|snap| - 1];
      PowerOffs(snap[..|snap| - 1], ios)
      + if n.local || n.status != Sleeping then [] else [Command(n.relayUid, n.channel, false, ios(n.id))]
  }

  lemma PowerOffsOneMore(snap: seq<Node>, i: nat, ios: NodeId -> Io)
    requires i < |snap|
    ensures PowerOffs(snap[..0], ios) == []
    ensures PowerOffs(snap[..i + 1], ios)
            == if snap[i].local || snap[i].status != Sleeping then PowerOffs(snap[..i], ios)
               else PowerOffs(snap[..i], ios) + [Command(snap[i].relayUid, snap[i].channel, false, ios(snap[i].id))]
  {
    assert snap[..i + 1][..i] == snap[..i];
  }

  /** The positions of the sleeping workers, in order. */
  function Sleepers(snap: seq<Node>): seq<nat>
  {
    if snap == [] then []
    else
      var n := snap[|snap| - 1];
      Sleepers(snap[..|snap| - 1]) + if n.local || n.status != Sleeping then [] else [|snap| - 1]
  }

  lemma {:induction false} SleepersExactly(snap: seq<Node>)
    ensures forall k :: k in Sleepers(snap) <==> 0 <= k < |snap| && !snap[k].local && snap[k].status == Sleeping
  {
    if snap != [] {
      SleepersExactly(snap[..|snap| - 1]);
    }
  }

  lemma {:induction false} SleepersInOrder(snap: seq<Node>)
    ensures forall j, k :: 0 <= j < k < |Sleepers(snap)| ==> Sleepers(snap)[j] < Sleepers(snap)[k]
    ensures forall i :: 0 <= i < |Sleepers(snap)| ==> Sleepers(snap)[i] < |snap|
  {
    if snap != [] {
      SleepersInOrder(snap[..|snap| - 1]);
    }
  }

  /** The commands are those of the sleeping workers, one each and in order. */
  lemma {:induction false} SleepersCommanded(snap: seq<Node>, ios: NodeId -> Io)
    ensures |PowerOffs(snap, ios)| == |Sleepers(snap)|
    ensures forall i :: 0 <= i < |Sleepers(snap)| ==>
              && Sleepers(snap)[i] < |snap|
              && PowerOffs(snap, ios)[i]
                 == Command(snap[Sleepers(snap)[i]].relayUid, snap[Sleepers(snap)[i]].channel, false, ios(snap[Sleepers(snap)[i]].id))
  {
    if snap != [] {
      SleepersCommanded(snap[..|snap| - 1], ios);
    }
  }

  lemma RunNone(r: Relays, snap: seq<Node>, ios: NodeId -> Io)
    ensures RunCommands(r, PowerOffs(snap[..0], ios)) == r
  {
  }

  class Registry {
    var nodes: Nodes
    var activations: map<NodeId, ActivationRecord>
    const ctrl: T.Controller
    const funcs: F.Store
    const attempts: nat

    ghost predicate Valid()
      reads this`nodes, ctrl, ctrl.Arrays()
    {
      OwnIds(nodes) && ctrl.Valid()
    }

    constructor (ctrl: T.Controller, funcs: F.Store, attempts: nat)
      requires ctrl.Valid()
      ensures Valid() && nodes == map[] && activations == map[]
      ensures this.ctrl == ctrl && this.funcs == funcs && this.attempts == attempts
    {
      this.ctrl := ctrl;
      this.funcs := funcs;
      this.attempts := attempts;
      nodes := map[];
      activations := map[];
    }

    method AddNode(node: Node)
      requires Valid()
      modifies this`nodes
      ensures Valid() && nodes == old(nodes)[node.id := node]
    {
      nodes := nodes[node.id := node];
    }

    /** Every node once, copied, in whatever order the map yields them. */
    method ListNodes() returns (snap: seq<Node>)
      requires Valid()
      ensures IsSnapshot(nodes, snap)
    {
      hide Listed;
      snap := [];
      var todo := nodes.Keys;
      NothingListed(nodes);
      while todo != {}
        invariant Listed(nodes, snap, todo)
        decreases |todo|
      {
        var id :| id in todo;
        ListOneMore(nodes, snap, todo, id);
        snap := snap + [nodes[id]];
        todo := todo - {id};
      }
      AllListed(nodes, snap);
    }

    method AddLoad(id: NodeId)
      requires Valid()
      modifies this`nodes
      ensures Valid() && nodes == IncLoad(old(nodes), id)
      ensures nodes == if id in old(nodes) then old(nodes)[id := old(nodes)[id].(load := old(nodes)[id].load + 1)] else old(nodes)
    {
      if id in nodes {
        nodes := nodes[id := nodes[id].(load := nodes[id].load + 1)];
      }
    }

    method DropLoad(id: NodeId)
      requires Valid()
      modifies this`nodes
      ensures Valid() && nodes == DecLoad(old(nodes), id)
      ensures nodes == if id in old(nodes) && old(nodes)[id].load > 0
                       then old(nodes)[id := old(nodes)[id].(load := old(nodes)[id].load - 1)] else old(nodes)
    {
      if id in nodes {
        if nodes[id].load > 0 {
          nodes := nodes[id := nodes[id].(load := nodes[id].load - 1)];
        }
      }
    }

    method TouchNode(id: NodeId, now: int)
      requires Valid()
      modifies this`nodes
      ensures Valid()
      ensures nodes == if id in old(nodes) then old(nodes)[id := old(nodes)[id].(lastUsed := At(now))] else old(nodes)
    {
      if id in nodes {
        nodes := nodes[id := nodes[id].(lastUsed := At(now))];
      }
    }

    method SetNodeStatus(id: NodeId, status: Status, now: int)
      requires Valid()
      modifies this`nodes
      ensures Valid() && nodes == SetStatus(old(nodes), id, status, now)
      ensures id !in old(nodes) ==> nodes == old(nodes)
      ensures id in old(nodes) ==>
                nodes == old(nodes)[id := old(nodes)[id].(status := status, deadSince := if status == Dead then At(now) else Never)]
    {
      if id in nodes {
        var n := nodes[id].(status := status);
        if status == Dead {
          n := n.(deadSince := At(now));
        } else {
          n := n.(deadSince := Never);
        }
        nodes := nodes[id := n];
      }
    }

    /** One recovery pass, uninterrupted. */
    method RecoverDead(cooldown: int, healthy: NodeId -> bool, now: int)
      requires Valid()
      modifies this`nodes
      ensures Valid() && nodes.Keys == old(nodes).Keys
      ensures forall id :: id in nodes ==> nodes[id] == Recovered(old(nodes)[id], healthy(id), cooldown, now)
      ensures forall id :: id in nodes ==>
                var n := old(nodes)[id];
                var answers := healthy(id) && n.managerAddress != "";
                && (n.status != Dead ==> nodes[id] == n)
                && (n.status == Dead && answers ==> nodes[id] == n.(status := Active, deadSince := Never))
                && (n.status == Dead && !answers && n.deadSince.Never? ==>
                      nodes[id] == n.(status := Sleeping, deadSince := Never))
                && (n.status == Dead && !answers && n.deadSince.At? && now - n.deadSince.t >= cooldown ==>
                      nodes[id] == n.(status := Sleeping, deadSince := Never))
                && (n.status == Dead && !answers && n.deadSince.At? && now - n.deadSince.t < cooldown ==> nodes[id] == n)
    {
      hide IsSnapshot, RecoveredUpTo, OwnIds;
      var snap := ListNodes();
      RecoveryStarts(nodes, snap, healthy, cooldown, now);
      for i := 0 to |snap|
        invariant Valid() && RecoveredUpTo(old(nodes), nodes, snap, i, healthy, cooldown, now)
      {
        var n := snap[i];
        RecoverNext(old(nodes), nodes, snap, i, healthy, cooldown, now);
        if n.status != Dead {
          continue;
        }
        if n.managerAddress != "" && healthy(n.id) {
          SetNodeStatus(n.id, Active, now);
          continue;
        }
        if ElapsedAtLeast(now, n.deadSince, cooldown) {
          SetNodeStatus(n.id, Sleeping, now);
        }
      }
      RecoveryEnds(old(nodes), nodes, snap, healthy, cooldown, now);
    }

    // ---------- ActivateNode ----------

    /** The entry block: one critical section that decides who wakes the node. */
    method BeginActivation(id: NodeId) returns (d: Decision)
      requires Valid()
      modifies this`nodes, this`activations
      ensures Valid()
      ensures d.Lead? <==> MustWake(old(nodes), id)
      ensures d.Lead? <==> id in old(nodes) && old(nodes)[id].status != Active && old(nodes)[id].status != Waking
      ensures d.Lead? ==>
                && fresh(d.own) && !d.own.done && d.node == old(nodes)[id]
                && nodes == BeginWake(old(nodes), id) && activations == old(activations)[id := d.own]
      ensures !MustWake(old(nodes), id) ==> nodes == old(nodes) && activations == old(activations)
      ensures id !in old(nodes) ==> d == Return(UnknownNode)
      ensures id in old(nodes) && old(nodes)[id].status == Active ==> d == Return(Ok)
      ensures id in old(nodes) && old(nodes)[id].status == Waking ==>
                d == Await(if id in old(activations) then Some(old(activations)[id]) else None)
    {
      if id !in nodes {
        return Return(UnknownNode);
      }
      match nodes[id].status {
        case Active => return Return(Ok);
        case Waking => return Await(if id in activations then Some(activations[id]) else None);
        case _ =>
      }
      var act := new ActivationRecord();
      activations := activations[id := act];
      d := Lead(act, nodes[id]);
      nodes := nodes[id := nodes[id].(status := Waking)];
    }

    /** The end of the wake sequence: serve with every function deployed, or go back to sleep. */
    method DeployOrPowerOff(id: NodeId, relayUid: string, channel: int, r: Replies, now: int, ghost polls: seq<bool>)
      returns (res: Result, ghost heard: Heard)
      requires Valid() && Answered(attempts, polls)
      modifies this`nodes, ctrl, ctrl.Arrays()
      ensures Valid() && fresh(ctrl.Arrays() - old(ctrl.Arrays()))
      ensures heard.on == Some(true) && heard.polls == polls && Replied(attempts, heard)
              && res == WakeOutcome(heard).res
      ensures nodes == SetStatus(old(nodes), id, WakeOutcome(heard).status, now)
      ensures heard.off.None? ==> ctrl.View() == old(ctrl.View())
      ensures heard.off.Some? ==>
                (ctrl.View(), heard.off.value) == SetChannel(old(ctrl.View()), Command(relayUid, channel, false, r.off))
      ensures heard.listed == Some(funcs.funcs) && heard.deployed.Keys == funcs.funcs.Keys
      ensures forall name :: name in funcs.funcs ==> heard.deployed[name] == r.deploys(name)
    {
      hide SetChannel, Replied, WakeOutcome, SetStatus, BeginWake, OwnIds, MustWake, PowerOffs, RunCommands;
      hide T.Controller.Valid, T.Controller.View;
      var all := funcs.All();
      var failed := DeployFunctions(all, r.deploys);
      ghost var deployed := DeployReplies(all, r.deploys);
      if failed > 0 {
        var off := ctrl.PowerOff(relayUid, channel, r.off);
        heard := Heard(Some(true), polls, Some(all), deployed, Some(off));
        Undeployed(attempts, polls, all, deployed, off);
        if !off {
          SetNodeStatus(id, Dead, now);
          return StuckOn(failed), heard;
        }
        SetNodeStatus(id, Sleeping, now);
        return DeployFailed(failed), heard;
      }
      heard := Heard(Some(true), polls, Some(all), deployed, None);
      Deployed(attempts, polls, all, deployed);
      SetNodeStatus(id, Active, now);
      res := Ok;
    }

    /** The wake sequence: it records the final status itself, and its result follows the replies. */
    method WakeNode(id: NodeId, relayUid: string, channel: int, r: Replies, now: int) returns (res: Result,
          ghost heard: Heard)
      requires Valid()
      modifies this`nodes, ctrl, ctrl.Arrays()
      ensures Valid() && fresh(ctrl.Arrays() - old(ctrl.Arrays()))
      ensures Replied(attempts, heard) && res == WakeOutcome(heard).res
      ensures nodes == SetStatus(old(nodes), id, WakeOutcome(heard).status, now)
      ensures WakeCommands(old(ctrl.View()), ctrl.View(), relayUid, channel, r, heard)
              && HeardFrom(heard, r, funcs.funcs)
      ensures var bad := set name | name in funcs.funcs && !r.deploys(name);
              var (mid, on) := SetChannel(old(ctrl.View()), Command(relayUid, channel, true, r.on));
              var (end, off) := SetChannel(mid, Command(relayUid, channel, false, r.off));
              var up := on && exists i: nat :: i < attempts && r.health(i);
              && (!on ==> res == PowerOnFailed && nodes == SetStatus(old(nodes), id, Dead, now))
              && (on && !up ==> res == NotReady && nodes == SetStatus(old(nodes), id, Dead, now))
              && (up && bad == {} ==> res == Ok && nodes == SetStatus(old(nodes), id, Active, now))
              && (up && bad != {} && off ==> res == DeployFailed(|bad|) && nodes == SetStatus(old(nodes), id, Sleeping, now))
              && (up && bad != {} && !off ==> res == StuckOn(|bad|) && nodes == SetStatus(old(nodes), id, Dead, now))
              && ctrl.View() == if up && bad != {} then end else mid
    {
      hide SetChannel, Replied, WakeOutcome, SetStatus, BeginWake, OwnIds, MustWake, PowerOffs, RunCommands;
      hide T.Controller.Valid, T.Controller.View;
      var on := ctrl.PowerOn(relayUid, channel, r.on);
      heard := NOTHING_HEARD.(on := Some(on));
      if !on {
        NoPower(attempts);
        SetNodeStatus(id, Dead, now);
        WakeByReplies(old(ctrl.View()), ctrl.View(), relayUid, channel, r, heard, funcs.funcs, attempts);
        return PowerOnFailed, heard;
      }
      var ready;
      ghost var polls;
      ready, polls := WaitForNodeReady(attempts, r.health);
      if !ready {
        heard := heard.(polls := polls);
        NoAnswer(attempts, polls);
        SetNodeStatus(id, Dead, now);
        WakeByReplies(old(ctrl.View()), ctrl.View(), relayUid, channel, r, heard, funcs.funcs, attempts);
        return NotReady, heard;
      }
      res, heard := DeployOrPowerOff(id, relayUid, channel, r, now, polls);
      WakeByReplies(old(ctrl.View()), ctrl.View(), relayUid, channel, r, heard, funcs.funcs, attempts);
    }

    /**
     One caller alone: `None` is the crash on a missing record. A leader's record ends up closed with
     exactly the result the leader returns, and is no longer in the table.
     */
    method ActivateNode(id: NodeId, r: Replies, meanwhile: Option<Result>, now: int) returns (res: Option<Result>,
          ghost heard: Heard,
          ghost act: Option<ActivationRecord>)
      requires Valid()
      modifies this`nodes, this`activations, ctrl, ctrl.Arrays()
      ensures Valid() && fresh(ctrl.Arrays() - old(ctrl.Arrays()))
      ensures !MustWake(old(nodes), id) ==> nodes == old(nodes) && activations == old(activations) && ctrl.View() == old(ctrl.View())
      ensures id !in old(nodes) ==> res == Some(UnknownNode)
      ensures id in old(nodes) && old(nodes)[id].status == Active ==> res == Some(Ok)
      ensures id in old(nodes) && old(nodes)[id].status == Waking && id !in old(activations) ==> res == None
      ensures id in old(nodes) && old(nodes)[id].status == Waking && id in old(activations) ==>
                && (old(activations[id].done) ==> res == Some(old(activations[id].err)))
                && (!old(activations[id].done) && meanwhile.Some? ==> res == Some(meanwhile.value))
                && (!old(activations[id].done) && meanwhile.None? ==> res == Some(TimedOut))
      ensures MustWake(old(nodes), id) <==> id in old(nodes) && old(nodes)[id].status != Active && old(nodes)[id].status != Waking
      ensures MustWake(old(nodes), id) ==>
                && Replied(attempts, heard) && res == Some(WakeOutcome(heard).res)
                && nodes == SetStatus(BeginWake(old(nodes), id), id, WakeOutcome(heard).status, now)
                && activations == old(activations) - {id}
                && WakeCommands(old(ctrl.View()), ctrl.View(), old(nodes)[id].relayUid, old(nodes)[id].channel, r, heard)
                && HeardFrom(heard, r, funcs.funcs)
                && act.Some? && fresh(act.value) && act.value.done && Some(act.value.err) == res
    {
      hide WakeCommands, HeardFrom, SetChannel, Replied, WakeOutcome, SetStatus, BeginWake, OwnIds, MustWake, PowerOffs;
      hide RunCommands, T.Controller.Valid, T.Controller.View;
      heard, act := NOTHING_HEARD, None;
      var d := BeginActivation(id);
      match d
      case Return(result) =>
        res := Some(result);
      case Await(None) =>
        res := None;
      case Await(Some(record)) =>
        var result := record.Wait(meanwhile);
        res := Some(result);
      case Lead(record, n) =>
        var err;
        err, heard := WakeNode(id, n.relayUid, n.channel, r, now);
        assert activations - {id} == old(activations) - {id};
        activations := activations - {id};
        record.err := err;
        record.done := true;
        act := Some(record);
        res := Some(err);
    }

    // ---------- the controller's side ----------

    /** Powers a worker off and only then records it asleep; the machine running this is refused. */
    method DeactivateNode(id: NodeId, io: Io, now: int) returns (ok: bool)
      requires Valid()
      modifies this`nodes, ctrl, ctrl.Arrays()
      ensures Valid() && fresh(ctrl.Arrays() - old(ctrl.Arrays()))
      ensures !Remote(old(nodes), id) ==> !ok && nodes == old(nodes) && ctrl.View() == old(ctrl.View())
      ensures Remote(old(nodes), id) ==>
                (ctrl.View(), ok) == SetChannel(old(ctrl.View()), Command(old(nodes)[id].relayUid, old(nodes)[id].channel, false, io))
      ensures Remote(old(nodes), id) <==> id in old(nodes) && !old(nodes)[id].local
      ensures nodes == if ok then SetStatus(old(nodes), id, Sleeping, now) else old(nodes)
      ensures ok ==> id in old(nodes) && nodes == old(nodes)[id := old(nodes)[id].(status := Sleeping, deadSince := Never)]
    {
      hide SetChannel;
      if id !in nodes {
        return false;
      }
      if nodes[id].local {
        return false;
      }
      var n := nodes[id];
      ok := ctrl.PowerOff(n.relayUid, n.channel, io);
      if !ok {
        return false;
      }
      SetNodeStatus(id, Sleeping, now);
    }

    /** Opens the relay of every worker recorded as asleep, at positions `asleep`; failures are passed over. */
    method EnforceSleeping(ios: NodeId -> Io) returns (ghost snap: seq<Node>, ghost asleep: seq<nat>)
      requires Valid()
      modifies ctrl, ctrl.Arrays()
      ensures Valid() && fresh(ctrl.Arrays() - old(ctrl.Arrays()))
      ensures IsSnapshot(nodes, snap) && ctrl.View() == RunCommands(old(ctrl.View()), PowerOffs(snap, ios))
      ensures forall j, k :: 0 <= j < k < |asleep| ==> asleep[j] < asleep[k]
      ensures forall k :: k in asleep <==> 0 <= k < |snap| && !snap[k].local && snap[k].status == Sleeping
      ensures |PowerOffs(snap, ios)| == |asleep|
      ensures forall i :: 0 <= i < |asleep| ==>
                && asleep[i] < |snap|
                && PowerOffs(snap, ios)[i]
                   == Command(snap[asleep[i]].relayUid, snap[asleep[i]].channel, false, ios(snap[asleep[i]].id))
    {
      hide SetChannel, Replied, WakeOutcome, SetStatus, BeginWake, OwnIds, MustWake, PowerOffs, RunCommands;
      hide T.Controller.Valid, T.Controller.View, Sleepers;
      var listed := ListNodes();
      snap := listed;
      RunNone(ctrl.View(), listed, ios);
      for i := 0 to |listed|
        invariant Valid() && fresh(ctrl.Arrays() - old(ctrl.Arrays()))
        invariant ctrl.View() == RunCommands(old(ctrl.View()), PowerOffs(listed[..i], ios))
      {
        var n := listed[i];
        PowerOffsOneMore(listed, i, ios);
        if n.local || n.status != Sleeping {
          continue;
        }
        RunOneMore(old(ctrl.View()), PowerOffs(listed[..i], ios), Command(n.relayUid, n.channel, false, ios(n.id)));
        var ok := ctrl.PowerOff(n.relayUid, n.channel, ios(n.id));
      }
      assert listed[..|listed|] == listed;
      asleep := Sleepers(listed);
      SleepersExactly(listed);
      SleepersInOrder(listed);
      SleepersCommanded(listed, ios);
    }

    /** Whom a push of a function goes to: every active worker, once. */
    method BroadcastTargets() returns (targets: seq<NodeId>)
      requires Valid()
      ensures forall i, j :: 0 <= i < j < |targets| ==> targets[i] != targets[j]
      ensures forall id :: id in targets <==> id in nodes && !nodes[id].local && nodes[id].status == Active
    {
      var snap := ListNodes();
      targets := [];
      for i := 0 to |snap|
        invariant forall k :: 0 <= k < |targets| ==> exists j :: 0 <= j < i && snap[j].id == targets[k]
        invariant forall k, j :: 0 <= k < j < |targets| ==> targets[k] != targets[j]
        invariant forall j :: 0 <= j < i ==> (snap[j].id in targets <==> !snap[j].local && snap[j].status == Active)
      {
        var n := snap[i];
        if n.local || n.status != Active {
          continue;
        }
        targets := targets + [n.id];
      }
      forall id ensures id in targets <==> id in nodes && !nodes[id].local && nodes[id].status == Active {
        if id in nodes {
          var j :| 0 <= j < |snap| && snap[j].id == id;
        }
      }
    }
  }
}
