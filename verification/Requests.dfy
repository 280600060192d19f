/**
 The request path: snapshot and pick, activate, count up, serve, count down. Everything else that goes on
 (wakes, the controller, startup) may change a node's status and times between any two steps.
 */
module Requests {
  import opened Types
  import opened RegistrySpec
  import opened Scheduler

  type Qid = nat

  /** A request, from its pick on; `Gone` has been answered. */
  datatype Request = Chosen(node: NodeId) | Activated(node: NodeId) | Running(node: NodeId) | Gone

  datatype Path = Path(threshold: int, nodes: Nodes, requests: map<Qid, Request>)

  datatype Event =
    | Arrive(q: Qid, snap: seq<Node>, at: nat)
    | Unserved(q: Qid, snap: seq<Node>)
    | ActivateReturns(q: Qid, ok: bool)
    | CountUp(q: Qid)
    | Touch(q: Qid, now: int)
    | CountDown(q: Qid)
    | Meanwhile(id: NodeId, status: Status, lastUsed: Stamp, deadSince: Stamp)

  predicate Enabled(s: Path, e: Event)
  {
    match e
    case Arrive(q, snap, at) => q !in s.requests && IsSnapshot(s.nodes, snap) && IsPick(snap, s.threshold, at)
    case Unserved(q, snap) => q !in s.requests && IsSnapshot(s.nodes, snap) && forall i :: 0 <= i < |snap| ==> snap[i].status == Dead || snap[i].dispatchOnly
    case ActivateReturns(q, ok) => q in s.requests && s.requests[q].Chosen?
    case CountUp(q) => q in s.requests && s.requests[q].Activated?
    case Touch(q, now) => q in s.requests && s.requests[q].Running?
    case CountDown(q) => q in s.requests && s.requests[q].Running?
    case Meanwhile(id, status, lastUsed, deadSince) => id in s.nodes
  }

  function Step(s: Path, e: Event): Path
    requires Enabled(s, e)
  {
    match e
    case Arrive(q, snap, at) => s.(requests := s.requests[q := Chosen(snap[at].id)])
    case Unserved(q, snap) => s.(requests := s.requests[q := Gone])
    case ActivateReturns(q, ok) => s.(requests := s.requests[q := if ok then Activated(s.requests[q].node) else Gone])
    case CountUp(q) => s.(nodes := IncLoad(s.nodes, s.requests[q].node), requests := s.requests[q := Running(s.requests[q].node)])
    case Touch(q, now) =>
      var id := s.requests[q].node;
      if id in s.nodes then s.(nodes := s.nodes[id := s.nodes[id].(lastUsed := At(now))]) else s
    case CountDown(q) => s.(nodes := DecLoad(s.nodes, s.requests[q].node), requests := s.requests[q := Gone])
    case Meanwhile(id, status, lastUsed, deadSince) =>
      s.(nodes := s.nodes[id := s.nodes[id].(status := status, lastUsed := lastUsed, deadSince := deadSince)])
  }

  predicate Init(s: Path)
  {
    s.requests == map[] && forall id :: id in s.nodes ==> s.nodes[id].id == id
  }

  datatype Run = Run(states: seq<Path>, events: seq<Event>)

  ghost predicate IsRun(r: Run)
  {
    && |r.states| == |r.events| + 1 && Init(r.states[0])
    && forall i :: 0 <= i < |r.events| ==> Enabled(r.states[i], r.events[i]) && r.states[i + 1] == Step(r.states[i], r.events[i])
  }

  // ---------- counting requests ----------

  predicate On(r: Request, id: NodeId)
  {
    r == Running(id)
  }

  predicate PendingOn(r: Request, id: NodeId)
  {
    r == Chosen(id) || r == Activated(id)
  }

  /** Between `IncLoad` and `DecLoad` on this node. */
  function Serving(requests: map<Qid, Request>, id: NodeId): set<Qid>
  {
    set q | q in requests && On(requests[q], id)
  }

  /** Between the snapshot that chose this node and `IncLoad`. */
  function Pending(requests: map<Qid, Request>, id: NodeId): set<Qid>
  {
    set q | q in requests && PendingOn(requests[q], id)
  }

  /** One request changing moves each count by at most itself. */
  lemma OneRequest(requests: map<Qid, Request>, q: Qid, r: Request, id: NodeId)
    ensures var after := requests[q := r];
            && Serving(after, id) == Serving(requests, id) - {q} + (if On(r, id) then {q} else {})
            && Pending(after, id) == Pending(requests, id) - {q} + (if PendingOn(r, id) then {q} else {})
  {
  }

  lemma OneRequestCounts(requests: map<Qid, Request>, q: Qid, r: Request, id: NodeId)
    ensures var after := requests[q := r];
            var was := if q in requests then requests[q] else Gone;
            && |Serving(after, id)| == |Serving(requests, id)| + (if On(r, id) then 1 else 0) - (if On(was, id) then 1 else 0)
            && |Pending(after, id)| == |Pending(requests, id)| + (if PendingOn(r, id) then 1 else 0) - (if PendingOn(was, id) then 1 else 0)
  {
    OneRequest(requests, q, r, id);
    var was := if q in requests then requests[q] else Gone;
    assert q in Serving(requests, id) <==> On(was, id);
    assert q in Pending(requests, id) <==> PendingOn(was, id);
  }

  // ---------- load conservation ----------

  /** The counter counts the requests being served, on top of what the topology file preset. */
  ghost predicate Conserved(s: Path, preset: map<NodeId, int>)
  {
    && s.nodes.Keys == preset.Keys
    && (forall id :: id in s.nodes ==> s.nodes[id].id == id && s.nodes[id].load == preset[id] + |Serving(s.requests, id)|)
    && (forall q :: q in s.requests && !s.requests[q].Gone? ==> s.requests[q].node in s.nodes)
  }

  predicate NoNegativePreset(preset: map<NodeId, int>)
  {
    forall id :: id in preset ==> preset[id] >= 0
  }

  function Presets(s: Path): map<NodeId, int>
  {
    map id | id in s.nodes :: s.nodes[id].load
  }

  lemma LoadAfter(s: Path, e: Event, preset: map<NodeId, int>, id: NodeId)
    requires Enabled(s, e) && Conserved(s, preset) && NoNegativePreset(preset) && id in s.nodes
    ensures var s' := Step(s, e);
            id in s'.nodes && s'.nodes[id].id == id && s'.nodes[id].load == preset[id] + |Serving(s'.requests, id)|
  {
    hide IsSnapshot, IsPick, NoNegativePreset;
    if !e.Touch? && !e.Meanwhile? {
      OneRequestCounts(s.requests, e.q, Step(s, e).requests[e.q], id);
      if e.CountDown? {
        assert e.q in Serving(s.requests, s.requests[e.q].node);
        assert preset[s.requests[e.q].node] >= 0 by {
          NotNegative(preset, s.requests[e.q].node);
        }
      }
      hide Serving, Pending, Conserved;
    }
  }

  lemma NotNegative(preset: map<NodeId, int>, id: NodeId)
    requires NoNegativePreset(preset) && id in preset
    ensures preset[id] >= 0
  {
  }

  lemma StepConserves(s: Path, e: Event, preset: map<NodeId, int>)
    requires Enabled(s, e) && Conserved(s, preset) && NoNegativePreset(preset)
    ensures Conserved(Step(s, e), preset)
  {
    var s' := Step(s, e);
    forall id | id in s'.nodes ensures s'.nodes[id].id == id && s'.nodes[id].load == preset[id] + |Serving(s'.requests, id)| {
      LoadAfter(s, e, preset, id);
    }
    RequestsStayOnNodes(s, e, preset);
    hide Enabled, Serving, IncLoad, DecLoad;
  }

  lemma RequestsStayOnNodes(s: Path, e: Event, preset: map<NodeId, int>)
    requires Enabled(s, e) && Conserved(s, preset)
    ensures Step(s, e).nodes.Keys == s.nodes.Keys
    ensures forall q :: q in Step(s, e).requests && !Step(s, e).requests[q].Gone? ==> Step(s, e).requests[q].node in s.nodes
  {
    hide Serving;
  }

  /** In every reachable state a node's load is what it started with plus the requests being served on it. */
  lemma {:induction false} LoadIsConserved(r: Run, n: nat)
    requires IsRun(r) && n < |r.states| && NoNegativePreset(Presets(r.states[0]))
    ensures Conserved(r.states[n], Presets(r.states[0]))
  {
    if n == 0 {
      forall id | id in r.states[0].nodes ensures |Serving(r.states[0].requests, id)| == 0 {
        assert Serving(r.states[0].requests, id) == {};
      }
    } else {
      LoadIsConserved(r, n - 1);
      StepConserves(r.states[n - 1], r.events[n - 1], Presets(r.states[0]));
    }
  }

  /**
   With loads starting at zero the clamp of `DecLoad` never hides a decrement, and load is the number of requests
   served.
   */
  lemma ClampNeverActs(r: Run, n: nat, q: Qid)
    requires IsRun(r) && n < |r.states| && forall id :: id in r.states[0].nodes ==> r.states[0].nodes[id].load == 0
    requires q in r.states[n].requests && r.states[n].requests[q].Running?
    ensures var s, id := r.states[n], r.states[n].requests[q].node;
            id in s.nodes && s.nodes[id].load == |Serving(s.requests, id)| > 0
  {
    LoadIsConserved(r, n);
    var s := r.states[n];
    assert q in Serving(s.requests, s.requests[q].node);
    hide IsRun;
  }

  /** The condition is needed: one request served on a node with a negative preset leaves its load changed for good. */
  lemma NegativePresetLeaks(s: Path, q: Qid)
    requires Enabled(s, CountUp(q)) && s.requests[q].node in s.nodes && s.nodes[s.requests[q].node].load < 0
    ensures var id, up := s.requests[q].node, Step(s, CountUp(q));
            Enabled(up, CountDown(q)) && Step(up, CountDown(q)).nodes[id].load == s.nodes[id].load + 1
  {
  }

  // ---------- overshoot ----------

  /** At most `p` requests are between snapshot and count, and the pick is below the threshold in its snapshot. */
  predicate Bounded(s: Path, e: Event, p: nat)
    requires Enabled(s, e)
  {
    e.Arrive? ==> e.snap[e.at].load < s.threshold && |Pending(s.requests, e.snap[e.at].id)| < p
  }

  /**
   A pick is below the threshold whenever some active node has room: only then does an active node get chosen
   saturated.
   */
  lemma RoomMeansBelow(nodes: seq<Node>, threshold: int, at: nat, j: nat)
    requires IsPick(nodes, threshold, at) && j < |nodes| && nodes[j].status == Active && !nodes[j].dispatchOnly
             && nodes[j].load < threshold
    ensures nodes[at].status == Active && nodes[at].load < threshold
  {
    WakesBeforeSaturating(nodes, threshold, at, j);
  }

  ghost predicate Within(s: Path, p: nat)
  {
    forall id :: id in s.nodes ==> s.nodes[id].load + |Pending(s.requests, id)| <= s.threshold - 1 + p
  }

  lemma BoundAfter(s: Path, e: Event, p: nat, id: NodeId)
    requires Enabled(s, e) && Bounded(s, e, p) && Within(s, p) && id in s.nodes && s.threshold >= 1
    requires forall k :: k in s.nodes ==> s.nodes[k].id == k
    ensures var s' := Step(s, e);
            s'.threshold == s.threshold && id in s'.nodes && s'.nodes[id].load + |Pending(s'.requests, id)| <= s.threshold - 1 + p
  {
    if !e.Touch? && !e.Meanwhile? {
      OneRequestCounts(s.requests, e.q, Step(s, e).requests[e.q], id);
      if e.Arrive? {
        assert s.nodes[e.snap[e.at].id] == e.snap[e.at];
      }
    }
    hide IsSnapshot, IsPick, Pending, Serving;
  }

  /**
   Requests choose on a snapshot and count later, so a node can be taken beyond the threshold, but by no
   more than the requests that may be on their way at once: load and pending picks together never exceed
   threshold - 1 + p.
   */
  lemma {:induction false} OvershootIsBounded(r: Run, n: nat, p: nat)
    requires IsRun(r) && n < |r.states| && r.states[0].threshold >= 1
    requires forall id :: id in r.states[0].nodes ==> r.states[0].nodes[id].load == 0
    requires forall i :: 0 <= i < n ==> Bounded(r.states[i], r.events[i], p)
    ensures Within(r.states[n], p) && r.states[n].threshold == r.states[0].threshold
  {
    if n == 0 {
      forall id | id in r.states[0].nodes ensures |Pending(r.states[0].requests, id)| == 0 {
        assert Pending(r.states[0].requests, id) == {};
      }
    } else {
      OvershootIsBounded(r, n - 1, p);
      LoadIsConserved(r, n - 1);
      var s, e := r.states[n - 1], r.events[n - 1];
      KeysKept(s, e);
      hide IsRun, Step, Enabled, Bounded, Pending, Serving;
      forall id | id in r.states[n].nodes
        ensures r.states[n].nodes[id].load + |Pending(r.states[n].requests, id)| <= r.states[n].threshold - 1 + p
      {
        BoundAfter(s, e, p, id);
      }
    }
  }

  /** The bound is reached: a node at threshold - 1 may be chosen again and again until `p` picks are pending. */
  lemma BoundIsReached(s: Path, snap: seq<Node>, at: nat, q: Qid, p: nat)
    requires q !in s.requests && IsSnapshot(s.nodes, snap) && IsPick(snap, s.threshold, at)
    requires snap[at].load == s.threshold - 1 && |Pending(s.requests, snap[at].id)| < p
    ensures var e, id := Arrive(q, snap, at), snap[at].id;
            && Enabled(s, e) && Bounded(s, e, p) && Step(s, e).nodes == s.nodes
            && |Pending(Step(s, e).requests, id)| == |Pending(s.requests, id)| + 1
            && (|Pending(s.requests, id)| == p - 1 ==> s.nodes[id].load + |Pending(Step(s, e).requests, id)| == s.threshold - 1 + p)
  {
    OneRequestCounts(s.requests, q, Chosen(snap[at].id), snap[at].id);
    hide Pending, Serving;
  }

  lemma KeysKept(s: Path, e: Event)
    requires Enabled(s, e)
    ensures Step(s, e).nodes.Keys == s.nodes.Keys && Step(s, e).threshold == s.threshold
  {
  }
}
