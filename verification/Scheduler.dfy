/** Choosing a node for a request: the one-pass loop of `PickNode` against a lexicographic order on nodes. */
module Scheduler {
  import opened Types

  /** A node that may be given a request at all. */
  predicate Eligible(n: Node)
  {
    n.status != Dead && !n.dispatchOnly
  }

  /** Order of preference: active with room, asleep, active and saturated, anything else. */
  function Class(n: Node, threshold: int): nat
  {
    if n.status == Active then (if n.load < threshold then 0 else 2)
    else if n.status == Sleeping then 1
    else 3
  }

  /** Strictly preferred: by class, and between active nodes of one class by load. */
  predicate Preferred(a: Node, b: Node, threshold: int)
  {
    var ca, cb := Class(a, threshold), Class(b, threshold);
    ca < cb || (ca == cb && a.status == Active && a.load < b.load)
  }

  /** Position `k` holds the earliest of the most preferred eligible nodes. */
  predicate IsPick(nodes: seq<Node>, threshold: int, k: nat)
  {
    && k < |nodes| && Eligible(nodes[k])
    && forall j :: 0 <= j < |nodes| && Eligible(nodes[j]) ==>
         !Preferred(nodes[j], nodes[k], threshold) && (j < k ==> Preferred(nodes[k], nodes[j], threshold))
  }

  /**
   The pick against every node that is neither dead nor dispatching only: an active node with room is matched only
   by one at most as loaded, a sleeping one by an active one with room or an earlier sleeping one, a saturated one
   by anything active at most as loaded or asleep, and any other by an active, a sleeping or an earlier one.
   */
  lemma PickInFields(nodes: seq<Node>, threshold: int, k: nat)
    requires IsPick(nodes, threshold, k)
    ensures k < |nodes| && nodes[k].status != Dead && !nodes[k].dispatchOnly
    ensures forall j :: 0 <= j < |nodes| && nodes[j].status != Dead && !nodes[j].dispatchOnly ==>
              var p, n := nodes[k], nodes[j];
              && (n.status == Active && n.load < threshold ==>
                    p.status == Active && p.load < threshold && p.load <= n.load && (j < k ==> p.load < n.load))
              && (n.status == Sleeping ==>
                    (p.status == Active && p.load < threshold) || (p.status == Sleeping && k <= j))
              && (n.status == Active && n.load >= threshold ==>
                    || (p.status == Active && p.load <= n.load && (j < k ==> p.load < n.load))
                    || p.status == Sleeping)
              && (n.status != Active && n.status != Sleeping ==>
                    p.status == Active || p.status == Sleeping || k <= j)
  {
    forall j | 0 <= j < |nodes| && nodes[j].status != Dead && !nodes[j].dispatchOnly
      ensures Eligible(nodes[j]) && !Preferred(nodes[j], nodes[k], threshold)
      ensures j < k ==> Preferred(nodes[k], nodes[j], threshold)
    {
    }
  }

  // ---------- the loop ----------

  /** One accumulator: the earliest most preferred node of class `c` among the first `i`, if there is one. */
  predicate BestOf(nodes: seq<Node>, i: nat, c: nat, threshold: int, best: Option<nat>)
    requires i <= |nodes|
  {
    match best
    case None => forall j :: 0 <= j < i && Eligible(nodes[j]) ==> Class(nodes[j], threshold) != c
    case Some(k) =>
      && k < i && Eligible(nodes[k]) && Class(nodes[k], threshold) == c
      && forall j :: 0 <= j < i && Eligible(nodes[j]) && Class(nodes[j], threshold) == c ==>
           !Preferred(nodes[j], nodes[k], threshold) && (j < k ==> Preferred(nodes[k], nodes[j], threshold))
  }

  /** One accumulator after the loop has looked at node `i`. */
  function Look(nodes: seq<Node>, i: nat, c: nat, threshold: int, best: Option<nat>): Option<nat>
    requires i < |nodes| && (best.Some? ==> best.value < |nodes|)
  {
    if Eligible(nodes[i]) && Class(nodes[i], threshold) == c
       && (best.None? || (nodes[i].status == Active && nodes[i].load < nodes[best.value].load))
    then Some(i) else best
  }

  lemma LookKeepsBest(nodes: seq<Node>, i: nat, c: nat, threshold: int, best: Option<nat>)
    requires i < |nodes| && BestOf(nodes, i, c, threshold, best)
    ensures best.Some? ==> best.value < i
    ensures BestOf(nodes, i + 1, c, threshold, Look(nodes, i, c, threshold, best))
  {
  }

  lemma NothingSeen(nodes: seq<Node>, threshold: int)
    ensures forall c: nat :: BestOf(nodes, 0, c, threshold, None)
  {
  }

  lemma PickInRange(nodes: seq<Node>, threshold: int, pick: Option<nat>)
    requires pick.Some? ==> IsPick(nodes, threshold, pick.value)
    ensures pick.Some? ==> pick.value < |nodes|
  {
  }

  /** The best of its class is the pick when every class before it is empty. */
  lemma FirstClassWins(nodes: seq<Node>, threshold: int, k: nat)
    requires k < |nodes| && BestOf(nodes, |nodes|, Class(nodes[k], threshold), threshold, Some(k))
    requires forall j :: 0 <= j < |nodes| && Eligible(nodes[j]) ==> Class(nodes[j], threshold) >= Class(nodes[k], threshold)
    ensures IsPick(nodes, threshold, k)
  {
    forall j | 0 <= j < |nodes| && Eligible(nodes[j])
      ensures !Preferred(nodes[j], nodes[k], threshold) && (j < k ==> Preferred(nodes[k], nodes[j], threshold))
    {
      if Class(nodes[j], threshold) != Class(nodes[k], threshold) {
        assert Class(nodes[k], threshold) < Class(nodes[j], threshold);
      }
    }
  }

  /** The order in which the accumulators are consulted. */
  function Cascade(active: Option<nat>, sleeping: Option<nat>, saturated: Option<nat>, other: Option<nat>): Option<nat>
  {
    if active.Some? then active else if sleeping.Some? then sleeping else if saturated.Some? then saturated else other
  }

  lemma CascadePicks(nodes: seq<Node>, threshold: int, active: Option<nat>, sleeping: Option<nat>,
        saturated: Option<nat>, other: Option<nat>)
    requires BestOf(nodes, |nodes|, 0, threshold, active) && BestOf(nodes, |nodes|, 1, threshold, sleeping)
    requires BestOf(nodes, |nodes|, 2, threshold, saturated) && BestOf(nodes, |nodes|, 3, threshold, other)
    ensures Cascade(active, sleeping, saturated, other).None? <==> forall k :: 0 <= k < |nodes| ==> !Eligible(nodes[k])
    ensures Cascade(active, sleeping, saturated, other).Some? ==>
              IsPick(nodes, threshold, Cascade(active, sleeping, saturated, other).value)
  {
    var pick := Cascade(active, sleeping, saturated, other);
    if pick.Some? {
      FirstClassWins(nodes, threshold, pick.value);
    } else {
      forall k | 0 <= k < |nodes| ensures !Eligible(nodes[k]) {
        assert Class(nodes[k], threshold) <= 3;
      }
    }
  }

  /** `PickNode`: the earliest lexicographic minimum, and none exactly when no node is eligible. */
  method PickNode(nodes: seq<Node>, loadThreshold: int) returns (node: Option<Node>, ghost at: nat)
    ensures node.None? <==> forall k :: 0 <= k < |nodes| ==> nodes[k].status == Dead || nodes[k].dispatchOnly
    ensures node.Some? ==> IsPick(nodes, loadThreshold, at) && node.value == nodes[at]
    ensures node.Some? ==> node.value.status != Dead && !node.value.dispatchOnly
  {
    hide BestOf, IsPick;
    var bestActive: Option<nat> := None;
    var bestIdleActive: Option<nat> := None;
    var bestSleeping: Option<nat> := None;
    var fallback: Option<nat> := None;
    NothingSeen(nodes, loadThreshold);

    for i := 0 to |nodes|
      invariant BestOf(nodes, i, 0, loadThreshold, bestActive)
      invariant BestOf(nodes, i, 1, loadThreshold, bestSleeping)
      invariant BestOf(nodes, i, 2, loadThreshold, bestIdleActive)
      invariant BestOf(nodes, i, 3, loadThreshold, fallback)
    {
      LookKeepsBest(nodes, i, 0, loadThreshold, bestActive);
      LookKeepsBest(nodes, i, 1, loadThreshold, bestSleeping);
      LookKeepsBest(nodes, i, 2, loadThreshold, bestIdleActive);
      LookKeepsBest(nodes, i, 3, loadThreshold, fallback);
      var n := nodes[i];
      if n.status == Dead {
        continue;
      }
      if n.dispatchOnly {
        continue;
      }
      if n.status == Active && n.load < loadThreshold {
        if bestActive.None? || n.load < nodes[bestActive.value].load {
          bestActive := Some(i);
        }
        continue;
      }
      if n.status == Active {
        if bestIdleActive.None? || n.load < nodes[bestIdleActive.value].load {
          bestIdleActive := Some(i);
        }
        continue;
      }
      if n.status == Sleeping {
        if bestSleeping.None? {
          bestSleeping := Some(i);
        }
        continue;
      }
      if fallback.None? {
        fallback := Some(i);
      }
    }

    CascadePicks(nodes, loadThreshold, bestActive, bestSleeping, bestIdleActive, fallback);
    PickInRange(nodes, loadThreshold, Cascade(bestActive, bestSleeping, bestIdleActive, fallback));
    if Cascade(bestActive, bestSleeping, bestIdleActive, fallback).Some? {
      PickInFields(nodes, loadThreshold, Cascade(bestActive, bestSleeping, bestIdleActive, fallback).value);
    }
    if bestActive.Some? {
      return Some(nodes[bestActive.value]), bestActive.value;
    }
    if bestSleeping.Some? {
      return Some(nodes[bestSleeping.value]), bestSleeping.value;
    }
    if bestIdleActive.Some? {
      return Some(nodes[bestIdleActive.value]), bestIdleActive.value;
    }
    if fallback.Some? {
      return Some(nodes[fallback.value]), fallback.value;
    }
    return None, 0;
  }

  // ---------- what the order amounts to ----------

  /** There is one pick at most. */
  lemma PickIsUnique(nodes: seq<Node>, threshold: int, k: nat, m: nat)
    requires IsPick(nodes, threshold, k) && IsPick(nodes, threshold, m)
    ensures k == m
  {
    assert !Preferred(nodes[m], nodes[k], threshold) && !Preferred(nodes[k], nodes[m], threshold);
  }

  lemma SameMembers(a: seq<Node>, b: seq<Node>, n: Node)
    requires multiset(a) == multiset(b) && n in a
    ensures n in b
  {
    assert n in multiset(a);
    assert n in multiset(b);
  }

  /**
   The snapshot comes out of a map in any order. Whatever the order, a node is found or not found alike,
   and the class of the node found, and its load when it is active, are the same.
   */
  lemma OrderDoesNotMatter(a: seq<Node>, b: seq<Node>, threshold: int, k: nat, m: nat)
    requires multiset(a) == multiset(b) && IsPick(a, threshold, k)
    ensures exists j :: 0 <= j < |b| && b[j].status != Dead && !b[j].dispatchOnly
    ensures IsPick(b, threshold, m) ==>
              && Class(a[k], threshold) == Class(b[m], threshold)
              && (a[k].status == Active ==> b[m].status == Active && b[m].load == a[k].load)
  {
    SameMembers(a, b, a[k]);
    var j :| 0 <= j < |b| && b[j] == a[k];
    assert Eligible(b[j]);
    if IsPick(b, threshold, m) {
      SameMembers(b, a, b[m]);
      var i :| 0 <= i < |a| && a[i] == b[m];
      assert !Preferred(a[i], a[k], threshold) && !Preferred(b[j], b[m], threshold);
    }
  }

  /**
   Why the cluster scales out: a saturated node is given a request only when no worker is asleep, and a
   sleeping one is woken only when no active node has room.
   */
  lemma WakesBeforeSaturating(nodes: seq<Node>, threshold: int, k: nat, j: nat)
    requires IsPick(nodes, threshold, k) && j < |nodes| && nodes[j].status != Dead && !nodes[j].dispatchOnly
    ensures nodes[j].status == Active && nodes[j].load < threshold ==>
              nodes[k].status == Active && nodes[k].load <= nodes[j].load
    ensures nodes[j].status == Sleeping && nodes[k].status == Active ==> nodes[k].load < threshold
    ensures nodes[k].status != Active && nodes[k].status != Sleeping ==> nodes[j].status != Active && nodes[j].status != Sleeping
  {
    assert !Preferred(nodes[j], nodes[k], threshold);
  }
}
