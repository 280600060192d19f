/** The HTTP handler of the leader: one request from snapshot to answer, alone. */
module Frontend {
  import opened Types
  import opened RegistrySpec
  import opened Protocol
  import opened Scheduler
  import opened Registry
  import opened Wake

  const STATUS_OK := 200
  const STATUS_ACCEPTED := 202

  /** What comes of forwarding the request, or of calling the function on this machine. */
  datatype Forwarded = Answered(code: int) | SendFailed | BodyFailed

  /** How the handler ends; `Panicked` is its death on a missing activation record. */
  datatype Response = Refused | NotActivated | Panicked | Answer(code: int)

  predicate Succeeded(f: Forwarded)
  {
    f == Answered(STATUS_OK) || f == Answered(STATUS_ACCEPTED)
  }

  /** Only the wake's own fields differ. */
  predicate SameButForWake(a: Node, b: Node)
  {
    b == a.(status := b.status, deadSince := b.deadSince)
  }

  lemma SnapshotRefuses(nodes: Nodes, snap: seq<Node>)
    requires IsSnapshot(nodes, snap)
    ensures (forall i :: 0 <= i < |snap| ==> snap[i].status == Dead || snap[i].dispatchOnly)
       <==> (forall id :: id in nodes ==> nodes[id].status == Dead || nodes[id].dispatchOnly)
  {
    if forall i :: 0 <= i < |snap| ==> snap[i].status == Dead || snap[i].dispatchOnly {
      forall id | id in nodes ensures nodes[id].status == Dead || nodes[id].dispatchOnly {
        var i :| 0 <= i < |snap| && snap[i].id == id;
      }
    } else {
      var i :| 0 <= i < |snap| && snap[i].status != Dead && !snap[i].dispatchOnly;
      assert snap[i].id in nodes && nodes[snap[i].id] == snap[i];
    }
  }

  lemma PickIsListed(nodes: Nodes, snap: seq<Node>, threshold: int, at: nat)
    requires IsSnapshot(nodes, snap) && IsPick(snap, threshold, at)
    ensures at < |snap| && snap[at].id in nodes && nodes[snap[at].id] == snap[at]
  {
  }

  /** A wake that returns nil has recorded the node active. */
  lemma NilIsActive(attempts: nat, heard: Heard)
    requires Replied(attempts, heard) && WakeOutcome(heard).res == Ok
    ensures WakeOutcome(heard).status == Active
  {
    NilMeansReady(attempts, heard);
  }

  /** Counting up, serving, recording the use, and the deferred counting down. */
  method Serve(reg: Registry, id: NodeId, f: Forwarded, now: int) returns (code: int)
    requires reg.Valid() && id in reg.nodes
    modifies reg`nodes
    ensures reg.Valid()
    ensures var n := old(reg.nodes)[id];
            reg.nodes == old(reg.nodes)[id := n.(
              lastUsed := if f == Answered(200) || f == Answered(202) then At(now) else n.lastUsed,
              load := if n.load < 0 then n.load + 1 else n.load)]
    ensures (f.Answered? ==> code == f.code) && (f.SendFailed? ==> code == 502) && (f.BodyFailed? ==> code == 500)
  {
    reg.AddLoad(id);
    if Succeeded(f) {
      reg.TouchNode(id, now);
    }
    match f {
      case Answered(answer) => code := answer;
      case SendFailed => code := 502;
      case BodyFailed => code := 500;
    }
    reg.DropLoad(id);
    hide T.Controller.Valid, Frames.OwnIds;
  }

  /**
   What an activation does to the node table: at most the wake's fields of its own node, which ends up active on a
   nil result.
   */
  ghost predicate Activated(before: Nodes, after: Nodes, id: NodeId, res: Option<Result>)
    requires id in before
  {
    && after.Keys == before.Keys && SameButForWake(before[id], after[id])
    && (forall k :: k in after && k != id ==> after[k] == before[k])
    && (res == Some(Ok) && before[id].status != Waking ==> after[id].status == Active)
  }

  lemma ActivationIsLocal(before: Nodes, after: Nodes, id: NodeId, res: Option<Result>, attempts: nat, heard: Heard,
        now: int)
    requires id in before
    requires if MustWake(before, id)
             then Replied(attempts, heard) && res == Some(WakeOutcome(heard).res)
                  && after == SetStatus(BeginWake(before, id), id, WakeOutcome(heard).status, now)
             else after == before
    ensures Activated(before, after, id, res)
  {
    if MustWake(before, id) && res == Some(Ok) {
      NilIsActive(attempts, heard);
    }
    hide Replied, WakeOutcome;
  }

  lemma ServedNode(before: Nodes, mid: Nodes, id: NodeId, f: Forwarded, now: int)
    requires id in before && Activated(before, mid, id, Some(Ok))
    ensures var used, was := f == Answered(200) || f == Answered(202), before[id];
            var n := mid[id].(lastUsed := if used then At(now) else mid[id].lastUsed,
                              load := if mid[id].load < 0 then mid[id].load + 1 else mid[id].load);
            && (was.status != Waking ==> n.status == Active)
            && n == was.(status := n.status, deadSince := n.deadSince, lastUsed := if used then At(now) else was.lastUsed,
                         load := if was.load < 0 then was.load + 1 else was.load)
  {
  }

  lemma UnservedNodes(before: Nodes, after: Nodes, id: NodeId, res: Option<Result>)
    requires id in before && Activated(before, after, id, res)
    ensures after.Keys == before.Keys
    ensures after[id] == before[id].(status := after[id].status, deadSince := after[id].deadSince)
    ensures forall k :: k in after && k != id ==> after[k] == before[k]
  {
  }

  /** The activation of a picked node, as the request sees it: at most that node's status and time of death change. */
  method Awaken(reg: Registry, n: Node, r: Replies, meanwhile: Option<Result>, now: int)
    returns (res: Option<Result>, ghost heard: Heard)
    requires reg.Valid() && n.id in reg.nodes && reg.nodes[n.id] == n
    modifies reg`nodes, reg`activations, reg.ctrl, reg.ctrl.Arrays()
    ensures reg.Valid() && Activated(old(reg.nodes), reg.nodes, n.id, res)
    ensures fresh(reg.ctrl.Arrays() - old(reg.ctrl.Arrays()))
    ensures res == None ==> reg.nodes == old(reg.nodes)
    ensures res == None <==> n.status == Waking && n.id !in old(reg.activations)
    ensures n.status == Active ==> res == Some(Ok)
    ensures n.status == Waking && n.id in old(reg.activations) ==>
              (res == Some(Ok) <==>
                 if old(reg.activations[n.id].done) then old(reg.activations[n.id].err) == Ok else meanwhile == Some(Ok))
    ensures MustWake(old(reg.nodes), n.id) ==>
              && Replied(reg.attempts, heard) && HeardFrom(heard, r, reg.funcs.funcs)
              && WakeCommands(old(reg.ctrl.View()), reg.ctrl.View(), n.relayUid, n.channel, r, heard)
              && (res == Some(Ok) <==> WakeOutcome(heard).res == Ok)
              && reg.activations == old(reg.activations) - {n.id}
    ensures !MustWake(old(reg.nodes), n.id) ==>
              reg.ctrl.View() == old(reg.ctrl.View()) && reg.activations == old(reg.activations)
  {
    hide T.Controller.Valid, T.Controller.View, Replied, WakeOutcome, Frames.OwnIds;
    hide Activated, SetStatus, BeginWake, MustWake, WakeCommands, HeardFrom, Relay.SetChannel;
    ghost var act;
    res, heard, act := reg.ActivateNode(n.id, r, meanwhile, now);
    ActivationIsLocal(old(reg.nodes), reg.nodes, n.id, res, reg.attempts, heard, now);
  }

  /** The picked node is woken if need be, and then serves the request; no other node changes. */
  method Attend(reg: Registry, n: Node, r: Replies, meanwhile: Option<Result>, f: Forwarded, now: int)
    returns (response: Response, ghost heard: Heard)
    requires reg.Valid() && n.id in reg.nodes && reg.nodes[n.id] == n
    modifies reg`nodes, reg`activations, reg.ctrl, reg.ctrl.Arrays()
    ensures reg.Valid() && response != Refused && reg.nodes.Keys == old(reg.nodes).Keys
    ensures forall id :: id in reg.nodes && id != n.id ==> reg.nodes[id] == old(reg.nodes)[id]
    ensures response.Answer? ==>
              && (f.Answered? ==> response.code == f.code) && (f.SendFailed? ==> response.code == 502)
              && (f.BodyFailed? ==> response.code == 500)
    ensures response.Answer? && n.status != Waking ==> reg.nodes[n.id].status == Active
    ensures var after := reg.nodes[n.id];
            after == n.(status := after.status, deadSince := after.deadSince,
                        lastUsed := if response.Answer? && (f == Answered(200) || f == Answered(202)) then At(now) else n.lastUsed,
                        load := if response.Answer? && n.load < 0 then n.load + 1 else n.load)
    ensures response == Panicked <==> n.status == Waking && n.id !in old(reg.activations)
    ensures response == Panicked ==> reg.nodes == old(reg.nodes)
    ensures n.status == Active ==> response.Answer?
    ensures n.status == Waking && n.id in old(reg.activations) ==>
              (response.Answer? <==>
                 if old(reg.activations[n.id].done) then old(reg.activations[n.id].err) == Ok else meanwhile == Some(Ok))
    ensures MustWake(old(reg.nodes), n.id) ==>
              && Replied(reg.attempts, heard) && HeardFrom(heard, r, reg.funcs.funcs)
              && WakeCommands(old(reg.ctrl.View()), reg.ctrl.View(), n.relayUid, n.channel, r, heard)
              && (response.Answer? <==> WakeOutcome(heard).res == Ok)
              && reg.activations == old(reg.activations) - {n.id}
    ensures !MustWake(old(reg.nodes), n.id) ==>
              reg.ctrl.View() == old(reg.ctrl.View()) && reg.activations == old(reg.activations)
  {
    hide T.Controller.Valid, T.Controller.View, Replied, WakeOutcome, Frames.OwnIds;
    hide Activated, MustWake, SameButForWake, Succeeded, WakeCommands, HeardFrom, Relay.SetChannel;
    var res;
    res, heard := Awaken(reg, n, r, meanwhile, now);
    UnservedNodes(old(reg.nodes), reg.nodes, n.id, res);
    match res
    case None =>
      response := Panicked;
    case Some(result) =>
      if result != Ok {
        return NotActivated, heard;
      }
      ServedNode(old(reg.nodes), reg.nodes, n.id, f, now);
      var code := Serve(reg, n.id, f, now);
      response := Answer(code);
  }

  /**
   One request: it goes to a pick of a snapshot, wakes it if need be, and leaves every load as it found it.
   The last use of the node is recorded only for a successful answer.
   */
  method Handle(reg: Registry, threshold: int, r: Replies, meanwhile: Option<Result>, f: Forwarded, now: int)
    returns (response: Response, ghost snap: seq<Node>, ghost at: nat, ghost heard: Heard)
    requires reg.Valid()
    modifies reg`nodes, reg`activations, reg.ctrl, reg.ctrl.Arrays()
    ensures reg.Valid() && IsSnapshot(old(reg.nodes), snap)
    ensures response == Refused <==>
              forall id :: id in old(reg.nodes) ==> old(reg.nodes)[id].status == Dead || old(reg.nodes)[id].dispatchOnly
    ensures response == Refused ==> reg.nodes == old(reg.nodes)
    ensures response != Refused ==>
              && IsPick(snap, threshold, at) && snap[at].id in old(reg.nodes) && old(reg.nodes)[snap[at].id] == snap[at]
              && snap[at].status != Dead && !snap[at].dispatchOnly
    ensures response.Answer? ==>
              && (f.Answered? ==> response.code == f.code) && (f.SendFailed? ==> response.code == 502)
              && (f.BodyFailed? ==> response.code == 500)
    ensures response.Answer? ==>
              reg.nodes.Keys == old(reg.nodes).Keys && (snap[at].status != Waking ==> reg.nodes[snap[at].id].status == Active)
    ensures response != Refused ==>
              && reg.nodes.Keys == old(reg.nodes).Keys
              && (var was, after := snap[at], reg.nodes[snap[at].id];
                  after == was.(status := after.status, deadSince := after.deadSince,
                                lastUsed := if response.Answer? && (f == Answered(200) || f == Answered(202)) then At(now) else was.lastUsed,
                                load := if response.Answer? && was.load < 0 then was.load + 1 else was.load))
              && forall id :: id in reg.nodes && id != snap[at].id ==> reg.nodes[id] == old(reg.nodes)[id]
    ensures response == Panicked <==>
              response != Refused && old(reg.nodes)[snap[at].id].status == Waking && snap[at].id !in old(reg.activations)
    ensures response == Panicked ==> reg.nodes == old(reg.nodes)
    ensures response != Refused && old(reg.nodes)[snap[at].id].status == Active ==> response.Answer?
    ensures response != Refused && old(reg.nodes)[snap[at].id].status == Waking && snap[at].id in old(reg.activations) ==>
              (response.Answer? <==>
                 if old(reg.activations[snap[at].id].done) then old(reg.activations[snap[at].id].err) == Ok
                 else meanwhile == Some(Ok))
    ensures response != Refused && MustWake(old(reg.nodes), snap[at].id) ==>
              && Replied(reg.attempts, heard) && HeardFrom(heard, r, reg.funcs.funcs)
              && WakeCommands(old(reg.ctrl.View()), reg.ctrl.View(), snap[at].relayUid, snap[at].channel, r, heard)
              && (response.Answer? <==> WakeOutcome(heard).res == Ok)
              && reg.activations == old(reg.activations) - {snap[at].id}
    ensures response == Refused || !MustWake(old(reg.nodes), snap[at].id) ==>
              reg.ctrl.View() == old(reg.ctrl.View()) && reg.activations == old(reg.activations)
  {
    hide T.Controller.Valid, T.Controller.View, Replied, WakeOutcome, IsSnapshot, IsPick, Frames.OwnIds, MustWake;
    hide WakeCommands, HeardFrom, Relay.SetChannel;
    var nodes := reg.ListNodes();
    var picked;
    picked, at := PickNode(nodes, threshold);
    snap := nodes;
    SnapshotRefuses(reg.nodes, nodes);
    if picked.None? {
      return Refused, snap, at, NOTHING_HEARD;
    }
    PickIsListed(reg.nodes, nodes, threshold, at);
    response, heard := Attend(reg, picked.value, r, meanwhile, f, now);
  }
}
