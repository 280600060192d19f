/** The critical sections of the node registry, as functions of the node table. */
module RegistrySpec {
  import opened Types

  /** What `ActivateNode` returns; `Ok` is the nil error. */
  datatype Result =
    | Ok
    | UnknownNode
    | TimedOut
    | PowerOnFailed
    | NotReady
    | DeployFailed(failed: nat)
    | StuckOn(failed: nat)

  type Nodes = map<NodeId, Node>

  /** Records a status; the time of death is kept only while a node is dead. */
  function SetStatus(nodes: Nodes, id: NodeId, status: Status, now: int): Nodes
  {
    if id in nodes
    then nodes[id := nodes[id].(status := status, deadSince := if status == Dead then At(now) else Never)]
    else nodes
  }

  /** The entry block marks the node waking without touching its time of death. */
  function BeginWake(nodes: Nodes, id: NodeId): Nodes
    requires id in nodes
  {
    nodes[id := nodes[id].(status := Waking)]
  }

  /** A request starts on a node. */
  function IncLoad(nodes: Nodes, id: NodeId): Nodes
  {
    if id in nodes then nodes[id := nodes[id].(load := nodes[id].load + 1)] else nodes
  }

  /** A request ends on a node; the counter is never taken below zero. */
  function DecLoad(nodes: Nodes, id: NodeId): Nodes
  {
    if id in nodes && nodes[id].load > 0 then nodes[id := nodes[id].(load := nodes[id].load - 1)] else nodes
  }

  /** A snapshot lists every node exactly once, in any order. */
  predicate IsSnapshot(nodes: Nodes, snap: seq<Node>)
  {
    && (forall i :: 0 <= i < |snap| ==> snap[i].id in nodes && nodes[snap[i].id] == snap[i])
    && (forall i, j :: 0 <= i < j < |snap| ==> snap[i].id != snap[j].id)
    && (forall id :: id in nodes ==> exists i :: 0 <= i < |snap| && snap[i].id == id)
  }

  predicate Serving(n: Node)
  {
    n.status == Active && !n.dispatchOnly
  }

  /** The controller's count: active nodes that can execute functions. */
  function CountServing(snap: seq<Node>): nat
  {
    if snap == [] then 0 else (if Serving(snap[0]) then 1 else 0) + CountServing(snap[1..])
  }

  function ActiveWorkers(snap: seq<Node>): set<NodeId>
  {
    set i | 0 <= i < |snap| && !snap[i].local && snap[i].status == Active :: snap[i].id
  }
}
