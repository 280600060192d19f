/** Loading and validating a cluster topology, and what an accepted topology guarantees about the relays. */
module Topology {
  import opened Types
  import opened Relay
  import opened RegistrySpec
  import opened LeaderNode
  import opened PowerState
  import opened Protocol
  import opened Frames
  import ColdBoot

  datatype Error =
    | NoNodes
    | EmptyId
    | DuplicateId(id: NodeId)
    | NoAddress(id: NodeId)
    | NoManagerAddress(id: NodeId)
    | BadChannel(id: NodeId, channel: int)
    | SharedRelay(other: NodeId, id: NodeId)
    | WrongLocals(found: nat)
    | NothingExecutes

  // ---------- LoadNodes: default statuses ----------

  function Defaulted(n: Node): Node
  {
    if n.status != Other("") then n else n.(status := if n.local then Active else Sleeping)
  }

  /** The status pass of `LoadNodes`, in place: it fills in what is missing and keeps what is given. */
  method FillStatuses(nodes: array<Node>)
    modifies nodes
    ensures forall i :: 0 <= i < nodes.Length ==> nodes[i] == Defaulted(old(nodes[i]))
    ensures forall i :: 0 <= i < nodes.Length ==>
              nodes[i] == if old(nodes[i]).status != Other("") then old(nodes[i])
                          else old(nodes[i]).(status := if old(nodes[i]).local then Active else Sleeping)
  {
    for i := 0 to nodes.Length
      invariant forall k :: 0 <= k < i ==> nodes[k] == Defaulted(old(nodes[k]))
      invariant forall k :: i <= k < nodes.Length ==> nodes[k] == old(nodes[k])
    {
      if nodes[i].status != Other("") {
        continue;
      }
      if nodes[i].local {
        nodes[i] := nodes[i].(status := Active);
      } else {
        nodes[i] := nodes[i].(status := Sleeping);
      }
    }
  }

  // ---------- ValidateNodes ----------

  /** The outlet as the file names it: the relay text as written, and the channel. */
  datatype RelayChannel = RelayChannel(uid: string, channel: int)

  function RawKey(n: Node): RelayChannel
  {
    RelayChannel(n.relayUid, n.channel)
  }

  function Locals(nodes: seq<Node>): nat
  {
    if nodes == [] then 0 else Locals(nodes[..|nodes| - 1]) + (if nodes[|nodes| - 1].local then 1 else 0)
  }

  predicate ReachableWorker(n: Node)
  {
    n.address != "" && n.managerAddress != "" && 0 <= n.channel < 2
  }

  /** What a topology has to satisfy node by node, against the nodes before it. */
  predicate GoodPrefix(nodes: seq<Node>)
  {
    && (forall i :: 0 <= i < |nodes| ==> nodes[i].id.name != "")
    && (forall i, j :: 0 <= i < j < |nodes| ==> nodes[i].id != nodes[j].id)
    && (forall i :: 0 <= i < |nodes| && !nodes[i].local ==> ReachableWorker(nodes[i]))
    && (forall i, j :: 0 <= i < j < |nodes| && !nodes[i].local && !nodes[j].local ==> RawKey(nodes[i]) != RawKey(nodes[j]))
  }

  /**
   A well-formed topology: named nodes with distinct names, exactly one of them local, workers that can be
   reached and each on an outlet of its own as the file writes it, and some node that executes functions.
   */
  predicate WellFormed(nodes: seq<Node>)
  {
    && nodes != [] && GoodPrefix(nodes) && Locals(nodes) == 1
    && exists i :: 0 <= i < |nodes| && !nodes[i].dispatchOnly
  }

  lemma {:induction false} LocalsCounted(nodes: seq<Node>)
    ensures Locals(nodes) == |set i | 0 <= i < |nodes| && nodes[i].local|
  {
    if nodes != [] {
      var last := |nodes| - 1;
      var before := set i | 0 <= i < |nodes[..last]| && nodes[..last][i].local;
      LocalsCounted(nodes[..last]);
      assert (set i | 0 <= i < |nodes| && nodes[i].local) == before + if nodes[last].local then {last} else {};
    }
  }

  /** What is demanded of a topology, in the fields of its nodes. */
  lemma WellFormedMeans(nodes: seq<Node>)
    ensures WellFormed(nodes) <==>
            && nodes != []
            && (forall i :: 0 <= i < |nodes| ==> nodes[i].id.name != "")
            && (forall i, j :: 0 <= i < j < |nodes| ==> nodes[i].id != nodes[j].id)
            && (forall i :: 0 <= i < |nodes| && !nodes[i].local ==>
                  nodes[i].address != "" && nodes[i].managerAddress != "" && (nodes[i].channel == 0 || nodes[i].channel == 1))
            && (forall i, j :: 0 <= i < j < |nodes| && !nodes[i].local && !nodes[j].local ==>
                  nodes[i].relayUid != nodes[j].relayUid || nodes[i].channel != nodes[j].channel)
            && |set i | 0 <= i < |nodes| && nodes[i].local| == 1
            && (exists i :: 0 <= i < |nodes| && !nodes[i].dispatchOnly)
  {
    LocalsCounted(nodes);
  }

  /** What an error says about the node at fault, or about the whole list. */
  lemma ErrorMeans(nodes: seq<Node>, e: Error, at: nat)
    requires Explains(nodes, e, at)
    ensures match e
            case NoNodes => nodes == []
            case WrongLocals(found) => found == |set i | 0 <= i < |nodes| && nodes[i].local| && found != 1
            case NothingExecutes => forall i :: 0 <= i < |nodes| ==> nodes[i].dispatchOnly
            case EmptyId => at < |nodes| && nodes[at].id.name == ""
            case DuplicateId(id) => at < |nodes| && nodes[at].id == id && exists j :: 0 <= j < at && nodes[j].id == id
            case NoAddress(id) => at < |nodes| && nodes[at].id == id && !nodes[at].local && nodes[at].address == ""
            case NoManagerAddress(id) => at < |nodes| && nodes[at].id == id && !nodes[at].local && nodes[at].managerAddress == ""
            case BadChannel(id, ch) =>
              at < |nodes| && nodes[at].id == id && !nodes[at].local && nodes[at].channel == ch && (ch < 0 || ch >= 2)
            case SharedRelay(other, id) =>
              && at < |nodes| && nodes[at].id == id && !nodes[at].local
              && exists j :: 0 <= j < at && nodes[j].id == other && !nodes[j].local
                   && nodes[j].relayUid == nodes[at].relayUid && nodes[j].channel == nodes[at].channel
  {
    LocalsCounted(nodes);
    if at < |nodes| {
      var before := nodes[..at];
      assert forall j :: 0 <= j < |before| ==> before[j] == nodes[j];
    }
  }

  /** A worker of the deployment below. */
  function Wired(name: string, relayUid: string, channel: int): Node
  {
    Node(NodeId(name), "10.0.0.1:8000", "10.0.0.1:8080", relayUid, channel, Sleeping, 0, Never, Never, false, false)
  }

  /** Any four names, a dispatching leader, workers on both channels of one relay and on channel 0 of another. */
  lemma BothChannelsAccepted(names: seq<string>, uid: string, other: string)
    requires |names| == 4 && uid != other && "" !in names && forall i, j :: 0 <= i < j < 4 ==> names[i] != names[j]
    ensures var leader := Node(NodeId(names[0]), "", "", "", 0, Active, 0, Never, Never, true, true);
            WellFormed([leader, Wired(names[1], uid, 0), Wired(names[2], uid, 1), Wired(names[3], other, 0)])
  {
    var leader := Node(NodeId(names[0]), "", "", "", 0, Active, 0, Never, Never, true, true);
    var a, b, c := Wired(names[1], uid, 0), Wired(names[2], uid, 1), Wired(names[3], other, 0);
    var nodes := [leader, a, b, c];
    assert nodes[..3] == [leader, a, b] && [leader, a, b][..2] == [leader, a];
    assert [leader, a][..1] == [leader] && [leader][..0] == [];
    assert Locals([leader]) == 1;
    assert Locals([leader, a]) == 1;
    assert Locals([leader, a, b]) == 1;
    assert Locals(nodes) == 1;
    assert !nodes[1].dispatchOnly;
    forall i | 0 <= i < 4 ensures nodes[i].id.name == names[i] && names[i] != "" {
      assert names[i] in names;
    }
  }

  predicate Worker(n: Node, id: NodeId)
  {
    n.id == id && !n.local
  }

  /** Node `at` is the first that makes the list unacceptable. */
  predicate FirstFault(nodes: seq<Node>, at: nat)
  {
    at < |nodes| && GoodPrefix(nodes[..at]) && !GoodPrefix(nodes[..at + 1])
  }

  /** What the error names is really there: `at` is the first node at fault, with what is wrong with it. */
  predicate Explains(nodes: seq<Node>, e: Error, at: nat)
  {
    match e
    case NoNodes => nodes == []
    case WrongLocals(found) => nodes != [] && GoodPrefix(nodes) && found == Locals(nodes) && found != 1
    case NothingExecutes => GoodPrefix(nodes) && Locals(nodes) == 1 && forall i :: 0 <= i < |nodes| ==> nodes[i].dispatchOnly
    case _ => FirstFault(nodes, at) && NodeFault(nodes[..at], nodes[at], e)
  }

  /** What is wrong with one node, given the acceptable ones before it: the first thing, in the order of the checks. */
  predicate NodeFault(before: seq<Node>, n: Node, e: Error)
  {
    match e
    case EmptyId => n.id.name == ""
    case DuplicateId(id) => n.id == id && id.name != "" && exists j :: 0 <= j < |before| && before[j].id == id
    case NoAddress(id) => NewWorker(before, n, id) && n.address == ""
    case NoManagerAddress(id) => NewWorker(before, n, id) && n.address != "" && n.managerAddress == ""
    case BadChannel(id, ch) =>
      NewWorker(before, n, id) && n.address != "" && n.managerAddress != "" && n.channel == ch && (ch < 0 || ch >= 2)
    case SharedRelay(other, id) =>
      && NewWorker(before, n, id) && ReachableWorker(n)
      && exists j :: 0 <= j < |before| && Worker(before[j], other) && RawKey(before[j]) == RawKey(n)
    case _ => false
  }

  /** A worker with a name of its own. */
  predicate NewWorker(before: seq<Node>, n: Node, id: NodeId)
  {
    Worker(n, id) && id.name != "" && forall j :: 0 <= j < |before| ==> before[j].id != id
  }

  /** A topology has one error at most, so the one reported is determined. */
  lemma ErrorIsUnique(nodes: seq<Node>, e: Error, at: nat, e': Error, at': nat)
    requires Explains(nodes, e, at) && Explains(nodes, e', at')
    ensures e == e'
  {
    OneFirstFault(nodes, at, at');
    if FirstFault(nodes, at) && NodeFault(nodes[..at], nodes[at], e) && NodeFault(nodes[..at], nodes[at], e') {
      OneFault(nodes[..at], nodes[at], e, e');
    }
  }

  lemma OneWorkerPerKey(nodes: seq<Node>, j: nat, k: nat)
    requires GoodPrefix(nodes) && j < |nodes| && k < |nodes| && !nodes[j].local && !nodes[k].local
             && RawKey(nodes[j]) == RawKey(nodes[k])
    ensures j == k
  {
  }

  lemma OneFault(before: seq<Node>, n: Node, e: Error, e': Error)
    requires GoodPrefix(before) && NodeFault(before, n, e) && NodeFault(before, n, e')
    ensures e == e'
  {
    if e.SharedRelay? && e'.SharedRelay? {
      var j :| 0 <= j < |before| && Worker(before[j], e.other) && RawKey(before[j]) == RawKey(n);
      var k :| 0 <= k < |before| && Worker(before[k], e'.other) && RawKey(before[k]) == RawKey(n);
      OneWorkerPerKey(before, j, k);
    }
  }

  lemma GoodBefore(nodes: seq<Node>, n: nat, m: nat)
    requires m <= n <= |nodes| && GoodPrefix(nodes[..n])
    ensures GoodPrefix(nodes[..m])
  {
    PrefixOfGood(nodes[..n], m);
    assert nodes[..n][..m] == nodes[..m];
  }

  /** There is one first node at fault, and none in a list that is good so far. */
  lemma OneFirstFault(nodes: seq<Node>, at: nat, at': nat)
    ensures FirstFault(nodes, at) && FirstFault(nodes, at') ==> at == at'
    ensures FirstFault(nodes, at) ==> !GoodPrefix(nodes) && nodes != []
    ensures FirstFault(nodes, at') ==> !GoodPrefix(nodes) && nodes != []
  {
    if GoodPrefix(nodes) {
      if at < |nodes| {
        PrefixOfGood(nodes, at + 1);
      }
      if at' < |nodes| {
        PrefixOfGood(nodes, at' + 1);
      }
    }
    if FirstFault(nodes, at) && FirstFault(nodes, at') {
      if at < at' {
        GoodBefore(nodes, at', at + 1);
      } else if at' < at {
        GoodBefore(nodes, at, at' + 1);
      }
    }
  }

  /** An error that explains itself is never raised for a well-formed topology. */
  lemma FaultIsFault(nodes: seq<Node>, e: Error, at: nat)
    requires Explains(nodes, e, at)
    ensures !WellFormed(nodes)
  {
    if WellFormed(nodes) && FirstFault(nodes, at) {
      PrefixOfGood(nodes, at + 1);
    }
  }

  lemma PrefixOfGood(nodes: seq<Node>, n: nat)
    requires GoodPrefix(nodes) && n <= |nodes|
    ensures GoodPrefix(nodes[..n])
  {
  }

  /** A node that can follow the ones before it. */
  predicate Follows(before: seq<Node>, n: Node)
  {
    && n.id.name != "" && (forall j :: 0 <= j < |before| ==> before[j].id != n.id)
    && (!n.local ==> ReachableWorker(n) && forall j :: 0 <= j < |before| && !before[j].local ==> RawKey(before[j]) != RawKey(n))
  }

  lemma OneMore(nodes: seq<Node>, i: nat)
    requires i < |nodes| && GoodPrefix(nodes[..i])
    ensures GoodPrefix(nodes[..i + 1]) <==> Follows(nodes[..i], nodes[i])
    ensures Locals(nodes[..i + 1]) == Locals(nodes[..i]) + (if nodes[i].local then 1 else 0)
  {
    var longer := nodes[..i + 1];
    assert longer[..i] == nodes[..i] && longer[i] == nodes[i];
    if GoodPrefix(longer) {
      forall j | 0 <= j < i ensures nodes[..i][j].id != nodes[i].id && (!nodes[i].local && !nodes[j].local ==> RawKey(nodes[j]) != RawKey(nodes[i])) {
        assert longer[j].id != longer[i].id;
      }
    }
  }

  /** The seen-maps of the loop: every name so far, and the worker on every outlet so far. */
  ghost predicate Seen(before: seq<Node>, seenId: map<NodeId, bool>, seenChannel: map<RelayChannel, NodeId>)
  {
    && (forall id :: id in seenId <==> exists k :: 0 <= k < |before| && before[k].id == id)
    && (forall rc :: rc in seenChannel ==> exists k :: 0 <= k < |before| && Worker(before[k], seenChannel[rc]) && RawKey(before[k]) == rc)
    && (forall k :: 0 <= k < |before| && !before[k].local ==> RawKey(before[k]) in seenChannel)
  }

  lemma SeeOneMore(nodes: seq<Node>, i: nat, seenId: map<NodeId, bool>, seenChannel: map<RelayChannel, NodeId>)
    requires i < |nodes| && Seen(nodes[..i], seenId, seenChannel)
    ensures Seen(nodes[..i + 1], seenId[nodes[i].id := true],
                 if nodes[i].local then seenChannel else seenChannel[RawKey(nodes[i]) := nodes[i].id])
  {
    var before, after, n := nodes[..i], nodes[..i + 1], nodes[i];
    assert after == before + [n];
    var seenId' := seenId[n.id := true];
    var seenChannel' := if n.local then seenChannel else seenChannel[RawKey(n) := n.id];
    forall id ensures id in seenId' <==> exists k :: 0 <= k < |after| && after[k].id == id {
      if id == n.id {
        assert after[i].id == id;
      } else if exists k :: 0 <= k < |before| && before[k].id == id {
        var k :| 0 <= k < |before| && before[k].id == id;
        assert after[k].id == id;
      }
    }
    forall rc | rc in seenChannel' ensures exists k :: 0 <= k < |after| && Worker(after[k], seenChannel'[rc]) && RawKey(after[k]) == rc {
      if !n.local && rc == RawKey(n) {
        assert Worker(after[i], n.id) && RawKey(after[i]) == rc;
      } else {
        var k :| 0 <= k < |before| && Worker(before[k], seenChannel[rc]) && RawKey(before[k]) == rc;
        assert Worker(after[k], seenChannel'[rc]) && RawKey(after[k]) == rc;
      }
    }
  }

  /** The checks of the loop body, against the seen-maps: they pass exactly when the node can follow. */
  lemma ChecksAreFollows(before: seq<Node>, n: Node, seenId: map<NodeId, bool>, seenChannel: map<RelayChannel, NodeId>)
    requires Seen(before, seenId, seenChannel)
    ensures Follows(before, n) <==>
            n.id.name != "" && n.id !in seenId && (n.local || (ReachableWorker(n) && RawKey(n) !in seenChannel))
    ensures n.id in seenId && n.id.name != "" ==> NodeFault(before, n, DuplicateId(n.id))
    ensures n.id !in seenId && n.id.name != "" && !n.local ==> NewWorker(before, n, n.id)
    ensures n.id !in seenId && n.id.name != "" && !n.local && ReachableWorker(n) && RawKey(n) in seenChannel ==>
              NodeFault(before, n, SharedRelay(seenChannel[RawKey(n)], n.id))
  {
    forall j | 0 <= j < |before| && !before[j].local && RawKey(before[j]) == RawKey(n) ensures RawKey(n) in seenChannel {
    }
    if n.id in seenId {
      var k :| 0 <= k < |before| && before[k].id == n.id;
    }
  }

  /** `ValidateNodes` accepts exactly the well-formed topologies, and a rejection names the first fault. */
  method ValidateNodes(nodes: seq<Node>) returns (err: Option<Error>, ghost at: nat)
    ensures err.None? <==> WellFormed(nodes)
    ensures err.Some? ==> Explains(nodes, err.value, at)
    ensures err.Some? && err.value.BadChannel? ==>
              at < |nodes| && !nodes[at].local && (nodes[at].channel < 0 || nodes[at].channel >= 2)
  {
    hide GoodPrefix, Seen, Follows, Locals, NodeFault, NewWorker;
    at := 0;
    if |nodes| == 0 {
      return Some(NoNodes), 0;
    }
    var seenId: map<NodeId, bool> := map[];
    var seenChannel: map<RelayChannel, NodeId> := map[];
    var locals := 0;
    NothingYet(nodes);
    for i := 0 to |nodes|
      invariant GoodPrefix(nodes[..i]) && locals == Locals(nodes[..i])
      invariant Seen(nodes[..i], seenId, seenChannel)
    {
      var n := nodes[i];
      OneMore(nodes, i);
      SeeOneMore(nodes, i, seenId, seenChannel);
      ChecksAreFollows(nodes[..i], n, seenId, seenChannel);
      NodeFaults(nodes[..i], n);
      at := i;
      if n.id.name == "" {
        NotWellFormed(nodes, at);
        return Some(EmptyId), at;
      }
      if n.id in seenId {
        NotWellFormed(nodes, at);
        return Some(DuplicateId(n.id)), at;
      }
      seenId := seenId[n.id := true];
      if n.local {
        locals := locals + 1;
        continue;
      }
      if n.address == "" {
        NotWellFormed(nodes, at);
        return Some(NoAddress(n.id)), at;
      }
      if n.managerAddress == "" {
        NotWellFormed(nodes, at);
        return Some(NoManagerAddress(n.id)), at;
      }
      if n.channel < 0 || n.channel >= CHANNELS_PER_RELAY {
        NotWellFormed(nodes, at);
        return Some(BadChannel(n.id, n.channel)), at;
      }
      var rc := RelayChannel(n.relayUid, n.channel);
      if rc in seenChannel {
        NotWellFormed(nodes, at);
        return Some(SharedRelay(seenChannel[rc], n.id)), at;
      }
      seenChannel := seenChannel[rc := n.id];
    }
    assert nodes[..|nodes|] == nodes;
    if locals != 1 {
      return Some(WrongLocals(locals)), at;
    }
    var executors := 0;
    for i := 0 to |nodes|
      invariant executors == 0 <==> forall k :: 0 <= k < i ==> nodes[k].dispatchOnly
      invariant executors >= 0
    {
      if !nodes[i].dispatchOnly {
        executors := executors + 1;
      }
    }
    if executors == 0 {
      return Some(NothingExecutes), at;
    }
    err := None;
  }

  lemma NothingYet(nodes: seq<Node>)
    ensures GoodPrefix(nodes[..0]) && Locals(nodes[..0]) == 0 && Seen(nodes[..0], map[], map[])
  {
  }

  lemma NotWellFormed(nodes: seq<Node>, at: nat)
    requires FirstFault(nodes, at)
    ensures !WellFormed(nodes)
  {
    if WellFormed(nodes) {
      PrefixOfGood(nodes, at + 1);
    }
  }

  /** The faults that concern one node alone. */
  lemma NodeFaults(before: seq<Node>, n: Node)
    ensures n.id.name == "" ==> NodeFault(before, n, EmptyId)
    ensures NewWorker(before, n, n.id) && n.address == "" ==> NodeFault(before, n, NoAddress(n.id))
    ensures NewWorker(before, n, n.id) && n.address != "" && n.managerAddress == "" ==> NodeFault(before, n, NoManagerAddress(n.id))
    ensures NewWorker(before, n, n.id) && n.address != "" && n.managerAddress != "" && (n.channel < 0 || n.channel >= 2) ==>
              NodeFault(before, n, BadChannel(n.id, n.channel))
  {
  }

  // ---------- what acceptance guarantees ----------

  function WorkerKeys(nodes: seq<Node>): set<RelayChannel>
  {
    set i | 0 <= i < |nodes| && !nodes[i].local :: RawKey(nodes[i])
  }

  function RelayUids(nodes: seq<Node>): set<string>
  {
    set i | 0 <= i < |nodes| && !nodes[i].local :: nodes[i].relayUid
  }

  function Workers(nodes: seq<Node>): nat
  {
    if nodes == [] then 0 else Workers(nodes[..|nodes| - 1]) + (if nodes[|nodes| - 1].local then 0 else 1)
  }

  lemma LastKey(init: seq<Node>, n: Node)
    requires GoodPrefix(init + [n])
    ensures WorkerKeys(init + [n]) == WorkerKeys(init) + if n.local then {} else {RawKey(n)}
    ensures !n.local ==> RawKey(n) !in WorkerKeys(init)
  {
    var nodes := init + [n];
    assert forall i :: 0 <= i < |init| ==> nodes[i] == init[i];
    assert nodes[|init|] == n;
    hide GoodPrefix;
    forall rc | rc in WorkerKeys(nodes) ensures rc in WorkerKeys(init) || (!n.local && rc == RawKey(n)) {
      var i :| 0 <= i < |nodes| && !nodes[i].local && RawKey(nodes[i]) == rc;
    }
    forall rc | rc in WorkerKeys(init) ensures rc in WorkerKeys(nodes) {
      var i :| 0 <= i < |init| && !init[i].local && RawKey(init[i]) == rc;
      assert !nodes[i].local && RawKey(nodes[i]) == rc;
    }
    forall i | 0 <= i < |init| && !init[i].local && !n.local ensures RawKey(init[i]) != RawKey(n) {
      KeysDiffer(nodes, i, |init|);
    }
  }

  lemma KeysDiffer(nodes: seq<Node>, i: nat, j: nat)
    requires GoodPrefix(nodes) && i < j < |nodes| && !nodes[i].local && !nodes[j].local
    ensures RawKey(nodes[i]) != RawKey(nodes[j])
  {
  }

  /** Distinct outlets as written: as many of them as there are workers. */
  lemma {:induction false} KeysCountWorkers(nodes: seq<Node>)
    requires GoodPrefix(nodes)
    ensures |WorkerKeys(nodes)| == Workers(nodes)
  {
    if nodes == [] {
      assert WorkerKeys(nodes) == {};
    } else {
      hide GoodPrefix, WorkerKeys;
      var init, n := nodes[..|nodes| - 1], nodes[|nodes| - 1];
      PrefixOfGood(nodes, |nodes| - 1);
      KeysCountWorkers(init);
      assert nodes == init + [n];
      LastKey(init, n);
    }
  }

  /** Keys over `uids` and the channels of one relay. */
  function Outlets(uids: set<string>): set<RelayChannel>
  {
    set uid, ch | uid in uids && 0 <= ch < CHANNELS_PER_RELAY :: RelayChannel(uid, ch)
  }

  lemma {:induction false} OutletsCount(uids: set<string>)
    ensures |Outlets(uids)| == CHANNELS_PER_RELAY * |uids|
    decreases |uids|
  {
    if uids == {} {
      assert Outlets(uids) == {};
    } else {
      var uid :| uid in uids;
      var rest := uids - {uid};
      OutletsCount(rest);
      assert Outlets(uids) == Outlets(rest) + {RelayChannel(uid, 0), RelayChannel(uid, 1)};
      assert Outlets(rest) !! {RelayChannel(uid, 0), RelayChannel(uid, 1)};
    }
  }

  /** An accepted topology never asks more of its relays than two workers each. */
  lemma TwoWorkersPerRelay(nodes: seq<Node>)
    requires WellFormed(nodes)
    ensures Workers(nodes) <= CHANNELS_PER_RELAY * |RelayUids(nodes)|
  {
    KeysCountWorkers(nodes);
    OutletsCount(RelayUids(nodes));
    forall rc | rc in WorkerKeys(nodes) ensures rc in Outlets(RelayUids(nodes)) {
      var i :| 0 <= i < |nodes| && !nodes[i].local && RawKey(nodes[i]) == rc;
      assert nodes[i].relayUid in RelayUids(nodes);
    }
    SingleFlight.SubsetSize(WorkerKeys(nodes), Outlets(RelayUids(nodes)));
  }

  // ---------- from the file to the registry ----------

  /** The registry after `AddNode` for each node in turn. */
  function Registered(nodes: seq<Node>): Nodes
  {
    if nodes == [] then map[] else Registered(nodes[..|nodes| - 1])[nodes[|nodes| - 1].id := nodes[|nodes| - 1]]
  }

  /** A worker left to the default relay, and one that names it, on the same channel. */
  predicate Clash(a: Node, b: Node, defaultUid: string)
  {
    !a.local && !b.local && a.relayUid == "" && b.relayUid == defaultUid != "" && a.channel == b.channel
  }

  ghost predicate NoClash(nodes: seq<Node>, defaultUid: string)
  {
    forall i, j :: 0 <= i < |nodes| && 0 <= j < |nodes| ==> !Clash(nodes[i], nodes[j], defaultUid)
  }

  lemma {:induction false} RegisteredIsList(nodes: seq<Node>)
    requires GoodPrefix(nodes)
    ensures forall i :: 0 <= i < |nodes| ==> nodes[i].id in Registered(nodes) && Registered(nodes)[nodes[i].id] == nodes[i]
    ensures forall id :: id in Registered(nodes) ==> exists i :: 0 <= i < |nodes| && nodes[i].id == id
  {
    if nodes != [] {
      var k := |nodes| - 1;
      PrefixOfGood(nodes, k);
      RegisteredIsList(nodes[..k]);
      forall i | 0 <= i < |nodes| ensures nodes[i].id in Registered(nodes) && Registered(nodes)[nodes[i].id] == nodes[i] {
        if i < k {
          assert nodes[..k][i] == nodes[i] && nodes[i].id != nodes[k].id;
        }
      }
      forall id | id in Registered(nodes) ensures exists i :: 0 <= i < |nodes| && nodes[i].id == id {
        if id == nodes[k].id {
        } else {
          var i :| 0 <= i < k && nodes[..k][i].id == id;
          assert nodes[i].id == id;
        }
      }
    }
  }

  /**
   Validation compares relay texts as written, the relay controller resolves the empty text to its default.
   An accepted topology therefore has one outlet per worker exactly when no worker that relies on the
   default relay shares its channel with one that names that relay.
   */
  lemma OutletsDistinctExactly(nodes: seq<Node>, defaultUid: string)
    requires WellFormed(nodes)
    ensures DistinctOutlets(Registered(nodes), defaultUid) <==> NoClash(nodes, defaultUid)
  {
    RegisteredIsList(nodes);
    if NoClash(nodes, defaultUid) {
      NoClashDistinct(nodes, defaultUid);
    } else {
      var i, j :| 0 <= i < |nodes| && 0 <= j < |nodes| && Clash(nodes[i], nodes[j], defaultUid);
      ClashShares(nodes, i, j, defaultUid);
    }
  }

  lemma NoClashDiffer(nodes: seq<Node>, i: nat, j: nat, defaultUid: string)
    requires WellFormed(nodes) && NoClash(nodes, defaultUid) && i < |nodes| && j < |nodes| && i != j
    requires !nodes[i].local && !nodes[j].local
    ensures OutletOf(nodes[i], defaultUid) != OutletOf(nodes[j], defaultUid)
  {
    assert !Clash(nodes[i], nodes[j], defaultUid) && !Clash(nodes[j], nodes[i], defaultUid);
    if i < j {
      KeysDiffer(nodes, i, j);
    } else {
      KeysDiffer(nodes, j, i);
    }
    hide NoClash, GoodPrefix;
  }

  lemma NoClashDistinct(nodes: seq<Node>, defaultUid: string)
    requires WellFormed(nodes) && NoClash(nodes, defaultUid)
    ensures DistinctOutlets(Registered(nodes), defaultUid)
  {
    RegisteredIsList(nodes);
    var reg := Registered(nodes);
    forall a, b | Remote(reg, a) && Remote(reg, b) && a != b ensures OutletOf(reg[a], defaultUid) != OutletOf(reg[b], defaultUid) {
      hide WellFormed, NoClash, Registered, OutletOf;
      var i :| 0 <= i < |nodes| && nodes[i].id == a;
      var j :| 0 <= j < |nodes| && nodes[j].id == b;
      assert reg[a] == nodes[i] && reg[b] == nodes[j];
      NoClashDiffer(nodes, i, j, defaultUid);
    }
  }

  lemma ClashShares(nodes: seq<Node>, i: nat, j: nat, defaultUid: string)
    requires WellFormed(nodes) && i < |nodes| && j < |nodes| && Clash(nodes[i], nodes[j], defaultUid)
    ensures !DistinctOutlets(Registered(nodes), defaultUid)
  {
    RegisteredIsList(nodes);
    var reg := Registered(nodes);
    assert Remote(reg, nodes[i].id) && Remote(reg, nodes[j].id) && nodes[i].id != nodes[j].id;
    assert OutletOf(reg[nodes[i].id], defaultUid) == OutletOf(reg[nodes[j].id], defaultUid);
  }

  /** A file that presets no status starts the cluster the way the power and deployment results assume. */
  lemma DefaultedFileStartsRight(file: seq<Node>, nodes: seq<Node>, s: Cluster)
    requires |file| == |nodes| && forall i :: 0 <= i < |nodes| ==> file[i].status == Other("") && nodes[i] == Defaulted(file[i])
    requires WellFormed(nodes) && NoClash(nodes, s.relays.defaultUid) && s.nodes == Registered(nodes)
    ensures ColdBoot.BlankStart(s) && OwnIds(s.nodes)
    ensures forall id :: id in s.nodes ==> s.nodes[id].status == if s.nodes[id].local then Active else Sleeping
  {
    OutletsDistinctExactly(nodes, s.relays.defaultUid);
    hide WellFormed, NoClash, DistinctOutlets, Registered, Powered;
    forall id | id in s.nodes ensures s.nodes[id].id == id && s.nodes[id].status == if s.nodes[id].local then Active else Sleeping {
      RegisteredStatus(file, nodes, id);
    }
  }

  lemma RegisteredStatus(file: seq<Node>, nodes: seq<Node>, id: NodeId)
    requires |file| == |nodes| && forall i :: 0 <= i < |nodes| ==> file[i].status == Other("") && nodes[i] == Defaulted(file[i])
    requires WellFormed(nodes) && id in Registered(nodes)
    ensures var n := Registered(nodes)[id]; n.id == id && n.status == if n.local then Active else Sleeping
  {
    RegisteredIsList(nodes);
    var i :| 0 <= i < |nodes| && nodes[i].id == id;
    assert Registered(nodes)[id] == Defaulted(file[i]);
  }

  /** A topology validation accepts although one relay channel feeds both of its workers. */
  lemma AcceptedYetShared()
    ensures exists nodes: seq<Node>, defaultUid: string ::
              WellFormed(nodes) && !DistinctOutlets(Registered(nodes), defaultUid)
  {
    var leader := Node(NodeId("leader"), "", "", "", 0, Active, 0, Never, Never, true, true);
    var a := Node(NodeId("a"), "10.0.0.1:8000", "10.0.0.1:8080", "", 0, Sleeping, 0, Never, Never, false, false);
    var b := Node(NodeId("b"), "10.0.0.2:8000", "10.0.0.2:8080", "XYZ", 0, Sleeping, 0, Never, Never, false, false);
    var nodes := [leader, a, b];
    assert nodes[..2] == [leader, a] && [leader, a][..1] == [leader] && [leader][..0] == [];
    assert Locals([leader]) == 1;
    assert Locals([leader, a]) == 1;
    assert !nodes[1].dispatchOnly;
    assert WellFormed(nodes);
    ClashShares(nodes, 1, 2, "XYZ");
  }
}
