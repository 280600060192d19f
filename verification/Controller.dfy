/** One uninterrupted scale-down sweep: exactly how many nodes it powers off, whatever the order of the snapshot. */
module Controller {
  import opened Types
  import opened Relay
  import opened RegistrySpec
  import opened Protocol
  import opened Frames
  import opened Registry
  import Floor

  // ---------- what a sweep may and does switch off ----------

  /** A worker that is active, unloaded and idle long enough: everything the sweep asks but the floor. */
  predicate Candidate(n: Node, cfg: Config, now: int)
  {
    !n.local && n.status == Active && n.load <= 0 && ElapsedAtLeast(now, n.lastUsed, cfg.idleTimeout)
  }

  function Candidates(snap: seq<Node>, cfg: Config, now: int): set<NodeId>
  {
    set i | 0 <= i < |snap| && Candidate(snap[i], cfg, now) :: snap[i].id
  }

  /** Who has been powered off after the sweep has gone through `snap`, when the power-offs of `failed` fail. */
  function Swept(snap: seq<Node>, count: int, failed: set<NodeId>, cfg: Config, now: int): set<NodeId>
  {
    if snap == [] then {}
    else
      var n, off := snap[|snap| - 1], Swept(snap[..|snap| - 1], count, failed, cfg, now);
      if MayScaleDown(n, count - |off|, cfg, now) && n.id !in failed then off + {n.id} else off
  }

  ghost predicate DistinctNodes(snap: seq<Node>)
  {
    forall i, j :: 0 <= i < j < |snap| ==> snap[i].id != snap[j].id
  }

  /** How many nodes a sweep may still take off: none below the floor. */
  function Spare(count: int, cfg: Config): nat
  {
    if count > cfg.minActive then count - cfg.minActive else 0
  }

  lemma LastCandidate(snap: seq<Node>, cfg: Config, now: int)
    requires snap != [] && DistinctNodes(snap)
    ensures var init, n := snap[..|snap| - 1], snap[|snap| - 1];
            && DistinctNodes(init) && n.id !in Candidates(init, cfg, now)
            && Candidates(snap, cfg, now) == Candidates(init, cfg, now) + if Candidate(n, cfg, now) then {n.id} else {}
  {
    hide ElapsedAtLeast, Candidate;
    var init, n := snap[..|snap| - 1], snap[|snap| - 1];
    forall id | id in Candidates(init, cfg, now) ensures id in Candidates(snap, cfg, now) && id != n.id {
      var i :| 0 <= i < |init| && Candidate(init[i], cfg, now) && init[i].id == id;
      assert snap[i] == init[i];
    }
    forall id | id in Candidates(snap, cfg, now) ensures id in Candidates(init, cfg, now) || (id == n.id && Candidate(n, cfg, now)) {
      var i :| 0 <= i < |snap| && Candidate(snap[i], cfg, now) && snap[i].id == id;
      assert i < |init| ==> init[i] == snap[i];
    }
  }

  /**
   A sweep powers off exactly min(candidates whose power-off works, count above the floor) nodes, all of
   them candidates. With failures it therefore ends at or below the floor by its own count, or every
   candidate left had its power-off fail.
   */
  lemma {:induction false} SweepIsExact(snap: seq<Node>, count: int, failed: set<NodeId>, cfg: Config, now: int)
    requires DistinctNodes(snap)
    ensures Exact(Swept(snap, count, failed, cfg, now), Candidates(snap, cfg, now), failed, count, cfg)
  {
    if snap != [] {
      var init, n := snap[..|snap| - 1], snap[|snap| - 1];
      LastCandidate(snap, cfg, now);
      SweepIsExact(init, count, failed, cfg, now);
      var off, cands := Swept(init, count, failed, cfg, now), Candidates(init, cfg, now);
      assert MayScaleDown(n, count - |off|, cfg, now) == (Candidate(n, cfg, now) && count - |off| > cfg.minActive);
      ExactOneMore(off, cands, failed, n.id, Candidate(n, cfg, now), count, cfg);
      hide MayScaleDown, Candidate, Candidates, Min, Spare;
    } else {
      assert Candidates(snap, cfg, now) == {};
    }
  }

  /** What the sweep keeps true, on sets: `off` is as large as the floor and the working candidates allow. */
  ghost predicate Exact(off: set<NodeId>, cands: set<NodeId>, failed: set<NodeId>, count: int, cfg: Config)
  {
    && off <= cands - failed
    && |off| == Min(|cands - failed|, Spare(count, cfg))
    && (count - |off| <= cfg.minActive || off == cands - failed)
  }

  lemma ExactOneMore(off: set<NodeId>, cands: set<NodeId>, failed: set<NodeId>, id: NodeId, candidate: bool,
        count: int, cfg: Config)
    requires Exact(off, cands, failed, count, cfg) && id !in cands
    ensures var off' := if candidate && count - |off| > cfg.minActive && id !in failed then off + {id} else off;
            Exact(off', cands + if candidate then {id} else {}, failed, count, cfg)
  {
    GrowsBy(cands, failed, id, candidate);
    if off < cands - failed {
      var rest := cands - failed - off;
      assert |cands - failed| == |off| + |rest|;
    }
  }

  lemma GrowsBy(cands: set<NodeId>, failed: set<NodeId>, id: NodeId, candidate: bool)
    requires id !in cands
    ensures var all := cands + if candidate then {id} else {};
            && (candidate && id !in failed ==> all - failed == (cands - failed) + {id} && |all - failed| == |cands - failed| + 1)
            && (!(candidate && id !in failed) ==> all - failed == cands - failed)
  {
    if candidate && id !in failed {
      assert (cands + {id}) - failed == (cands - failed) + {id};
    } else if candidate {
      assert (cands + {id}) - failed == cands - failed;
    } else {
      assert cands + {} == cands;
    }
  }

  // ---------- the order of the snapshot does not matter ----------

  lemma {:induction false} CountOfConcat(a: seq<Node>, b: seq<Node>)
    ensures CountServing(a + b) == CountServing(a) + CountServing(b)
  {
    if a == [] {
      assert a + b == b;
    } else {
      assert (a + b)[1..] == a[1..] + b;
      CountOfConcat(a[1..], b);
    }
  }

  lemma DropOne<T>(a: seq<T>, b: seq<T>, i: nat)
    requires a != [] && i < |b| && b[i] == a[0] && multiset(a) == multiset(b)
    ensures multiset(a[1..]) == multiset(b[..i] + b[i + 1..])
  {
    assert a == [a[0]] + a[1..];
    assert b == b[..i] + [b[i]] + b[i + 1..];
    assert multiset(a) == multiset{a[0]} + multiset(a[1..]);
    assert multiset(b) == multiset(b[..i]) + multiset{b[i]} + multiset(b[i + 1..]);
    assert multiset(a[1..]) == multiset(a) - multiset{a[0]};
    assert multiset(b[..i] + b[i + 1..]) == multiset(b) - multiset{b[i]};
  }

  lemma {:induction false} CountOfPermutation(a: seq<Node>, b: seq<Node>)
    requires multiset(a) == multiset(b)
    ensures CountServing(a) == CountServing(b)
    decreases |a|
  {
    if a == [] {
      assert |multiset(b)| == 0;
    } else {
      assert a[0] in multiset(b);
      var i :| 0 <= i < |b| && b[i] == a[0];
      DropOne(a, b, i);
      CountOfPermutation(a[1..], b[..i] + b[i + 1..]);
      CountOfConcat(b[..i], b[i + 1..]);
      CountOfConcat(b[..i], [b[i]] + b[i + 1..]);
      assert b == b[..i] + ([b[i]] + b[i + 1..]);
    }
  }

  lemma CandidatesOfPermutation(a: seq<Node>, b: seq<Node>, cfg: Config, now: int)
    requires multiset(a) == multiset(b)
    ensures Candidates(a, cfg, now) <= Candidates(b, cfg, now)
  {
    hide Candidate;
    forall id | id in Candidates(a, cfg, now) ensures id in Candidates(b, cfg, now) {
      var i :| 0 <= i < |a| && Candidate(a[i], cfg, now) && a[i].id == id;
      assert a[i] in multiset(b);
      var j :| 0 <= j < |b| && b[j] == a[i];
    }
  }

  lemma SizesAgree(a: seq<Node>, b: seq<Node>, failed: set<NodeId>, cfg: Config, now: int)
    requires Exact(Swept(a, CountServing(a), failed, cfg, now), Candidates(a, cfg, now), failed, CountServing(a), cfg)
    requires Exact(Swept(b, CountServing(b), failed, cfg, now), Candidates(b, cfg, now), failed, CountServing(b), cfg)
    requires CountServing(a) == CountServing(b) && Candidates(a, cfg, now) == Candidates(b, cfg, now)
    ensures |Swept(a, CountServing(a), failed, cfg, now)| == |Swept(b, CountServing(b), failed, cfg, now)|
  {
    hide Swept, Candidates, CountServing;
  }

  /** Two sweeps over the same nodes in different orders, with the same power-offs failing, take off equally many. */
  lemma SweepIgnoresOrder(a: seq<Node>, b: seq<Node>, failed: set<NodeId>, cfg: Config, now: int)
    requires multiset(a) == multiset(b) && DistinctNodes(a) && DistinctNodes(b)
    ensures |Swept(a, CountServing(a), failed, cfg, now)| == |Swept(b, CountServing(b), failed, cfg, now)|
  {
    CountOfPermutation(a, b);
    CandidatesOfPermutation(a, b, cfg, now);
    CandidatesOfPermutation(b, a, cfg, now);
    SweepIsExact(a, CountServing(a), failed, cfg, now);
    SweepIsExact(b, CountServing(b), failed, cfg, now);
    SizesAgree(a, b, failed, cfg, now);
  }

  // ---------- the loop ----------

  /** A power-off that fails later does not change what was swept before. */
  lemma {:induction false} FailureElsewhere(snap: seq<Node>, count: int, failed: set<NodeId>, id: NodeId, cfg: Config,
        now: int)
    requires forall i :: 0 <= i < |snap| ==> snap[i].id != id
    ensures Swept(snap, count, failed + {id}, cfg, now) == Swept(snap, count, failed, cfg, now)
  {
    hide MayScaleDown;
    if snap != [] {
      FailureElsewhere(snap[..|snap| - 1], count, failed, id, cfg, now);
    }
  }

  lemma {:induction false} CountOneMore(snap: seq<Node>, i: nat)
    requires i < |snap|
    ensures CountServing(snap[..i + 1]) == CountServing(snap[..i]) + if Serving(snap[i]) then 1 else 0
  {
    assert snap[..i + 1] == snap[..i] + [snap[i]];
    CountOfConcat(snap[..i], [snap[i]]);
  }

  /** The registry half way through a sweep. */
  ghost predicate HalfSwept(before: Nodes, nodes: Nodes, off: set<NodeId>, now: int)
  {
    && nodes.Keys == before.Keys && off <= before.Keys
    && forall id :: id in nodes ==> nodes[id] == if id in off then before[id].(status := Sleeping, deadSince := Never) else before[id]
  }

  /** Where the sweep stands before it looks at node `i`: who is off, whose power-off failed, what its counter says. */
  ghost predicate InSweep(before: Nodes, nodes: Nodes, snap: seq<Node>, i: nat, activeCount: int, off: set<NodeId>,
        failed: set<NodeId>, cfg: Config, now: int)
    requires i <= |snap|
  {
    && IsSnapshot(before, snap) && off == Swept(snap[..i], CountServing(snap), failed, cfg, now)
    && activeCount == CountServing(snap) - |off|
    && HalfSwept(before, nodes, off, now) && failed <= Candidates(snap[..i], cfg, now)
  }

  lemma SweepStarts(nodes: Nodes, snap: seq<Node>, cfg: Config, now: int)
    requires IsSnapshot(nodes, snap)
    ensures InSweep(nodes, nodes, snap, 0, CountServing(snap), {}, {}, cfg, now)
  {
    hide IsSnapshot, MayScaleDown, CountServing;
  }

  lemma MoreCandidates(snap: seq<Node>, i: nat, cfg: Config, now: int)
    requires i < |snap|
    ensures Candidates(snap[..i], cfg, now) <= Candidates(snap[..i + 1], cfg, now)
    ensures Candidate(snap[i], cfg, now) ==> snap[i].id in Candidates(snap[..i + 1], cfg, now)
  {
    hide Candidate;
    assert snap[..i + 1][i] == snap[i];
    forall id | id in Candidates(snap[..i], cfg, now) ensures id in Candidates(snap[..i + 1], cfg, now) {
      var k :| 0 <= k < i && Candidate(snap[..i][k], cfg, now) && snap[..i][k].id == id;
      assert snap[..i + 1][k] == snap[k];
    }
  }

  /** A node that the guards spare. */
  lemma SweepPasses(before: Nodes, nodes: Nodes, snap: seq<Node>, i: nat, activeCount: int, off: set<NodeId>,
        failed: set<NodeId>, cfg: Config, now: int)
    requires i < |snap| && InSweep(before, nodes, snap, i, activeCount, off, failed, cfg, now)
    ensures !MayScaleDown(snap[i], activeCount, cfg, now) ==> InSweep(before, nodes, snap, i + 1, activeCount, off, failed, cfg, now)
  {
    hide Swept, CountServing, Candidates, MayScaleDown, IsSnapshot, HalfSwept;
    SweptOneMore(snap, i, CountServing(snap), failed, cfg, now);
    MoreCandidates(snap, i, cfg, now);
  }

  /** A node whose power-off fails. */
  lemma SweepFails(before: Nodes, nodes: Nodes, snap: seq<Node>, i: nat, activeCount: int, off: set<NodeId>,
        failed: set<NodeId>, cfg: Config, now: int)
    requires i < |snap| && InSweep(before, nodes, snap, i, activeCount, off, failed, cfg, now)
             && MayScaleDown(snap[i], activeCount, cfg, now)
    ensures InSweep(before, nodes, snap, i + 1, activeCount, off, failed + {snap[i].id}, cfg, now)
  {
    var n, count := snap[i], CountServing(snap);
    NotYetSwept(before, snap, i, count, failed, cfg, now);
    FailureElsewhere(snap[..i], count, failed, n.id, cfg, now);
    SweptOneMore(snap, i, count, failed + {n.id}, cfg, now);
    MoreCandidates(snap, i, cfg, now);
    hide Swept, CountServing, Candidates, IsSnapshot, HalfSwept, ElapsedAtLeast;
  }

  /** A node that is switched off. */
  lemma SweepSwitches(before: Nodes, nodes: Nodes, snap: seq<Node>, i: nat, activeCount: int, off: set<NodeId>,
        failed: set<NodeId>, cfg: Config, now: int)
    requires i < |snap| && InSweep(before, nodes, snap, i, activeCount, off, failed, cfg, now)
             && MayScaleDown(snap[i], activeCount, cfg, now)
    ensures snap[i].id in nodes && nodes[snap[i].id] == snap[i] && snap[i].id !in off + failed
    ensures InSweep(before, SetStatus(nodes, snap[i].id, Sleeping, now), snap, i + 1, activeCount - 1, off + {snap[i].id}, failed, cfg, now)
  {
    var n, count := snap[i], CountServing(snap);
    NotYetSwept(before, snap, i, count, failed, cfg, now);
    SweptOneMore(snap, i, count, failed, cfg, now);
    SweepOne(before, nodes, off, n, now);
    MoreCandidates(snap, i, cfg, now);
    hide Swept, CountServing, Candidates, IsSnapshot, HalfSwept, ElapsedAtLeast, SetStatus, MayScaleDown;
  }

  lemma SweepEnds(before: Nodes, nodes: Nodes, snap: seq<Node>, activeCount: int, off: set<NodeId>,
        failed: set<NodeId>, cfg: Config, now: int)
    requires InSweep(before, nodes, snap, |snap|, activeCount, off, failed, cfg, now)
    ensures off == Swept(snap, CountServing(snap), failed, cfg, now) && HalfSwept(before, nodes, off, now)
            && failed <= Candidates(snap, cfg, now)
  {
    hide Swept, CountServing, Candidates, IsSnapshot, HalfSwept;
    assert snap[..|snap|] == snap;
  }

  /** The nodes already considered when the sweep reaches position `i`. */
  lemma NotYetSwept(before: Nodes, snap: seq<Node>, i: nat, count: int, failed: set<NodeId>, cfg: Config, now: int)
    requires IsSnapshot(before, snap) && i < |snap|
    ensures snap[i].id !in Swept(snap[..i], count, failed, cfg, now) && snap[i].id in before
            && before[snap[i].id] == snap[i]
    ensures snap[i].id !in Candidates(snap[..i], cfg, now)
    ensures forall k :: 0 <= k < i ==> snap[..i][k].id != snap[i].id
    ensures Swept(snap[..i], count, failed, cfg, now) <= before.Keys
  {
    assert DistinctNodes(snap[..i]);
    SweepIsExact(snap[..i], count, failed, cfg, now);
    hide Swept, Candidate;
  }

  lemma SweptOneMore(snap: seq<Node>, i: nat, count: int, failed: set<NodeId>, cfg: Config, now: int)
    requires i < |snap|
    ensures var off := Swept(snap[..i], count, failed, cfg, now);
            Swept(snap[..i + 1], count, failed, cfg, now)
            == if MayScaleDown(snap[i], count - |off|, cfg, now) && snap[i].id !in failed then off + {snap[i].id} else off
  {
    assert snap[..i + 1][..i] == snap[..i];
  }

  lemma NothingTried(snap: seq<Node>, r: Relays, ios: NodeId -> Io)
    ensures TriedAre([], snap, {}, {}) && RunCommands(r, PowerOffsFor([], ios)) == r
  {
  }

  lemma NothingCounted(snap: seq<Node>)
    ensures CountServing(snap[..0]) == 0
  {
  }

  lemma HalfSweptMeans(before: Nodes, nodes: Nodes, off: set<NodeId>, now: int)
    requires HalfSwept(before, nodes, off, now)
    ensures nodes.Keys == before.Keys
    ensures forall id :: id in nodes ==>
              nodes[id] == if id in off then before[id].(status := Sleeping, deadSince := Never) else before[id]
  {
  }

  lemma SweepOne(before: Nodes, nodes: Nodes, off: set<NodeId>, n: Node, now: int)
    requires HalfSwept(before, nodes, off, now) && n.id in before && before[n.id] == n && n.id !in off
    ensures n.id in nodes && nodes[n.id] == n
    ensures HalfSwept(before, SetStatus(nodes, n.id, Sleeping, now), off + {n.id}, now)
  {
  }

  /** The power-off commands for these nodes, in this order. */
  function PowerOffsFor(tried: seq<Node>, ios: NodeId -> Io): seq<Command>
  {
    seq(|tried|, i requires 0 <= i < |tried| => Command(tried[i].relayUid, tried[i].channel, false, ios(tried[i].id)))
  }

  function Ids(nodes: seq<Node>): set<NodeId>
  {
    set i | 0 <= i < |nodes| :: nodes[i].id
  }

  lemma OneMoreId(nodes: seq<Node>, n: Node)
    ensures Ids(nodes + [n]) == Ids(nodes) + {n.id}
  {
    var longer := nodes + [n];
    forall id | id in Ids(nodes) + {n.id} ensures id in Ids(longer) {
      if id == n.id {
        assert longer[|nodes|].id == id;
      } else {
        var i :| 0 <= i < |nodes| && nodes[i].id == id;
        assert longer[i].id == id;
      }
    }
    forall id | id in Ids(longer) ensures id in Ids(nodes) + {n.id} {
      var i :| 0 <= i < |longer| && longer[i].id == id;
      assert i < |nodes| ==> nodes[i].id == id;
    }
  }

  lemma OneMoreCommand(tried: seq<Node>, n: Node, r: Relays, ios: NodeId -> Io)
    ensures RunCommands(r, PowerOffsFor(tried + [n], ios))
            == SetChannel(RunCommands(r, PowerOffsFor(tried, ios)), Command(n.relayUid, n.channel, false, ios(n.id))).0
  {
    var c := Command(n.relayUid, n.channel, false, ios(n.id));
    assert PowerOffsFor(tried + [n], ios) == PowerOffsFor(tried, ios) + [c];
    hide PowerOffsFor, SetChannel;
    RunOneMore(r, PowerOffsFor(tried, ios), c);
  }

  /** The nodes whose power-off was tried: each once, those now off and those that failed. */
  ghost predicate TriedAre(tried: seq<Node>, snap: seq<Node>, off: set<NodeId>, failed: set<NodeId>)
  {
    && (forall i :: 0 <= i < |tried| ==> tried[i] in snap)
    && Ids(tried) == off + failed
    && |tried| == |off| + |failed| && off !! failed
  }

  lemma TryOneMore(tried: seq<Node>, snap: seq<Node>, n: Node, off: set<NodeId>, failed: set<NodeId>)
    requires TriedAre(tried, snap, off, failed) && n in snap && n.id !in off + failed
    ensures TriedAre(tried + [n], snap, off + {n.id}, failed) && TriedAre(tried + [n], snap, off, failed + {n.id})
  {
    OneMoreId(tried, n);
    hide Ids;
    assert off + failed + {n.id} == (off + {n.id}) + failed == off + (failed + {n.id});
  }

  /** A candidate of the snapshot, in the node's own fields. */
  lemma CandidateMeans(before: Nodes, snap: seq<Node>, cfg: Config, now: int, id: NodeId)
    requires IsSnapshot(before, snap)
    ensures id in Candidates(snap, cfg, now) <==>
            && id in before && !before[id].local && before[id].status == Active && before[id].load <= 0
            && (before[id].lastUsed.Never? || now - before[id].lastUsed.t >= cfg.idleTimeout)
  {
    if id in before {
      var i :| 0 <= i < |snap| && snap[i].id == id;
      assert snap[i] == before[id];
    }
  }

  /** Counting over a snapshot is counting the nodes that are active and execute functions. */
  lemma CountMeans(before: Nodes, snap: seq<Node>)
    requires OwnIds(before) && IsSnapshot(before, snap)
    ensures CountServing(snap) == |set id | id in before && before[id].status == Active && !before[id].dispatchOnly|
  {
    Floor.CountIsCapacity(before, snap);
    assert (set id | id in before && before[id].status == Active && !before[id].dispatchOnly) == Floor.ServingIds(before);
  }

  /**
   What a sweep does, in the nodes' own fields: only workers that are active, unloaded and idle for the timeout are
   tried; one that is and is neither off nor failed is spared for the floor alone; and none goes below the floor.
   */
  lemma SweepMeans(before: Nodes, snap: seq<Node>, off: set<NodeId>, failed: set<NodeId>, cfg: Config, now: int)
    requires OwnIds(before) && IsSnapshot(before, snap)
    requires off == Swept(snap, CountServing(snap), failed, cfg, now) && failed <= Candidates(snap, cfg, now)
    ensures off !! failed
    ensures forall id :: id in off + failed ==>
              && id in before && !before[id].local && before[id].status == Active && before[id].load <= 0
              && (before[id].lastUsed.Never? || now - before[id].lastUsed.t >= cfg.idleTimeout)
    ensures var count := |set id | id in before && before[id].status == Active && !before[id].dispatchOnly|;
            && (off != {} ==> count - |off| >= cfg.minActive)
            && forall id :: (id in before && id !in off + failed && !before[id].local && before[id].status == Active
                 && before[id].load <= 0
                 && (before[id].lastUsed.Never? || now - before[id].lastUsed.t >= cfg.idleTimeout)) ==>
                   count - |off| <= cfg.minActive
  {
    CountMeans(before, snap);
    SweepIsExact(snap, CountServing(snap), failed, cfg, now);
    var count := CountServing(snap);
    assert off <= Candidates(snap, cfg, now) - failed
    && (count - |off| <= cfg.minActive || off == Candidates(snap, cfg, now) - failed);
    assert |off| <= Spare(count, cfg);
    hide Swept, Candidates, CountServing, IsSnapshot;
    forall id ensures id in Candidates(snap, cfg, now) <==>
            && id in before && !before[id].local && before[id].status == Active && before[id].load <= 0
            && (before[id].lastUsed.Never? || now - before[id].lastUsed.t >= cfg.idleTimeout)
    {
      CandidateMeans(before, snap, cfg, now, id);
    }
  }

  /**
   The counting loop and the sweep of `StartController`, on a fresh snapshot and without anything else
   happening meanwhile: the nodes in `off`, and no others, go to sleep, and those are exactly the nodes
   `Swept` names for the power-offs that failed. The relays have received one power-off for each node in
   `off` or `failed`, and nothing else.
   */
  method Sweep(reg: Registry, cfg: Config, ios: NodeId -> Io, now: int)
    returns (ghost snap: seq<Node>, ghost off: set<NodeId>, ghost failed: set<NodeId>, ghost tried: seq<Node>)
    requires reg.Valid()
    modifies reg`nodes, reg.ctrl, reg.ctrl.Arrays()
    ensures reg.Valid() && fresh(reg.ctrl.Arrays() - old(reg.ctrl.Arrays()))
    ensures IsSnapshot(old(reg.nodes), snap) && failed <= Candidates(snap, cfg, now)
    ensures off == Swept(snap, CountServing(snap), failed, cfg, now)
    ensures reg.nodes.Keys == old(reg.nodes).Keys
    ensures forall id :: id in reg.nodes ==>
              reg.nodes[id] == if id in off then old(reg.nodes)[id].(status := Sleeping, deadSince := Never) else old(reg.nodes)[id]
    ensures off !! failed
    ensures forall id :: id in off + failed ==>
              id in old(reg.nodes) &&
              var n := old(reg.nodes)[id];
              && !n.local && n.status == Active && n.load <= 0
              && (n.lastUsed.Never? || now - n.lastUsed.t >= cfg.idleTimeout)
    ensures var nodes := old(reg.nodes);
            var count := |set id | id in nodes && nodes[id].status == Active && !nodes[id].dispatchOnly|;
            && (off != {} ==> count - |off| >= cfg.minActive)
            && forall id :: (id in nodes && id !in off + failed && !nodes[id].local && nodes[id].status == Active
                 && nodes[id].load <= 0
                 && (nodes[id].lastUsed.Never? || now - nodes[id].lastUsed.t >= cfg.idleTimeout)) ==>
                   count - |off| <= cfg.minActive
    ensures TriedAre(tried, snap, off, failed)
    ensures reg.ctrl.View() == RunCommands(old(reg.ctrl.View()), PowerOffsFor(tried, ios))
  {
    hide CountServing, Swept, Candidates, SetStatus, SetChannel, OwnIds, T.Controller.Valid, T.Controller.View;
    hide HalfSwept, IsSnapshot, InSweep;
    hide TriedAre, RunCommands, PowerOffsFor;
    var nodes := reg.ListNodes();
    snap := nodes;

    var activeCount := 0;
    NothingCounted(nodes);
    for i := 0 to |nodes|
      modifies {}
      invariant activeCount == CountServing(nodes[..i])
    {
      CountOneMore(nodes, i);
      if nodes[i].status == Active && !nodes[i].dispatchOnly {
        activeCount := activeCount + 1;
      }
    }
    assert nodes[..|nodes|] == nodes;
    off, failed, tried := {}, {}, [];
    SweepStarts(reg.nodes, nodes, cfg, now);
    NothingTried(nodes, reg.ctrl.View(), ios);

    for i := 0 to |nodes|
      invariant reg.Valid() && fresh(reg.ctrl.Arrays() - old(reg.ctrl.Arrays()))
      invariant InSweep(old(reg.nodes), reg.nodes, nodes, i, activeCount, off, failed, cfg, now)
      invariant TriedAre(tried, nodes, off, failed)
      invariant reg.ctrl.View() == RunCommands(old(reg.ctrl.View()), PowerOffsFor(tried, ios))
    {
      var n := nodes[i];
      SweepPasses(old(reg.nodes), reg.nodes, nodes, i, activeCount, off, failed, cfg, now);
      if n.local {
        continue;
      }
      if n.status != Active {
        continue;
      }
      if n.load > 0 {
        continue;
      }
      if activeCount <= cfg.minActive {
        continue;
      }
      if !ElapsedAtLeast(now, n.lastUsed, cfg.idleTimeout) {
        continue;
      }
      SweepFails(old(reg.nodes), reg.nodes, nodes, i, activeCount, off, failed, cfg, now);
      SweepSwitches(old(reg.nodes), reg.nodes, nodes, i, activeCount, off, failed, cfg, now);
      TryOneMore(tried, nodes, n, off, failed);
      OneMoreCommand(tried, n, old(reg.ctrl.View()), ios);
      tried := tried + [n];
      var ok := reg.DeactivateNode(n.id, ios(n.id), now);
      if !ok {
        failed := failed + {n.id};
        continue;
      }
      off := off + {n.id};
      activeCount := activeCount - 1;
    }
    SweepEnds(old(reg.nodes), reg.nodes, nodes, activeCount, off, failed, cfg, now);
    SweepMeans(old(reg.nodes), nodes, off, failed, cfg, now);
    HalfSweptMeans(old(reg.nodes), reg.nodes, off, now);
  }
}
