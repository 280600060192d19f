/**
 Follower truthfulness: each activation record is closed once, by its creator and after its error is
 final, so a released follower returns the leader's own result. Whether a follower finds a record at
 all depends on the gap between the final SetStatus and the delete, and exactly on that.
 */
module Followers {
  import opened Types
  import opened RegistrySpec
  import opened Protocol
  import opened Frames
  import opened SingleFlight

  type Records = seq<Activation>

  // ---------- records, unconditionally ----------

  /** How far a record is, given where its creator stands. */
  predicate Stage(rec: Activation, pc: Pc)
  {
    match pc
    case Closing(res) => rec.closes == 0 && rec.err == res
    case Returned(res) => rec.closes == 1 && rec.err == res
    case Waiting => false
    case Crashed => false
    case _ => rec.closes == 0 && rec.err == Ok
  }

  predicate SoundRecord(records: Records, callers: Callers, a: ActId)
  {
    a < |records| ==>
      var rec := records[a];
      && rec.creator in callers && callers[rec.creator].role == Leader(a)
      && callers[rec.creator].node == rec.node && Stage(rec, callers[rec.creator].pc)
  }

  ghost predicate SoundRecords(records: Records, callers: Callers)
  {
    forall a: nat :: SoundRecord(records, callers, a)
  }

  predicate SoundRole(records: Records, g: Gid, c: Caller)
  {
    match c.role
    case Bystander => c.pc.Returned?
    case Leader(a) => a < |records| && records[a].creator == g
    case Follower(seen) =>
      match seen
      case None => c.pc.Waiting? || c.pc.Crashed?
      case Some(a) =>
        && a < |records| && records[a].node == c.node
        && (c.pc.Waiting? || (c.pc.Returned? && (c.pc.res == TimedOut || (records[a].closes == 1 && records[a].err == c.pc.res))))
  }

  ghost predicate SoundRoles(records: Records, callers: Callers)
  {
    forall g :: g in callers ==> SoundRole(records, g, callers[g])
  }

  ghost predicate SoundTable(records: Records, table: map<NodeId, ActId>)
  {
    forall id :: id in table ==> table[id] < |records| && records[table[id]].node == id
  }

  ghost predicate HonestOf(records: Records, callers: Callers, table: map<NodeId, ActId>)
  {
    SoundRecords(records, callers) && SoundRoles(records, callers) && SoundTable(records, table)
  }

  ghost predicate Honest(s: Cluster)
  {
    HonestOf(s.records, s.callers, s.table)
  }

  lemma EnterHonest(s: Cluster, g: Gid, id: NodeId)
    requires Honest(s) && g !in s.callers
    ensures var c := Entering(s, id);
            var wake := MustWake(s.nodes, id);
            var records := if wake then s.records + [Activation(id, g, Ok, 0)] else s.records;
            && SoundRecords(records, s.callers[g := c])
            && SoundRoles(records, s.callers[g := c])
            && SoundTable(records, if wake then s.table[id := |s.records|] else s.table)
  {
    var callers := s.callers[g := Entering(s, id)];
    var records := if MustWake(s.nodes, id) then s.records + [Activation(id, g, Ok, 0)] else s.records;
    forall a: nat ensures SoundRecord(records, callers, a) {
      assert SoundRecord(s.records, s.callers, a);
    }
    forall h | h in callers ensures SoundRole(records, h, callers[h]) {
      if h != g {
        assert SoundRole(s.records, h, s.callers[h]);
      }
    }
  }

  /** What a record becomes when its owner publishes or closes it. */
  function RecordMoved(s: Cluster, e: Event): Activation
    requires EnabledCaller(s, e) && (e.Publish? || e.Close?)
  {
    var rec := s.records[s.callers[e.g].role.act];
    if e.Publish? then rec.(err := s.callers[e.g].pc.res) else rec.(closes := rec.closes + 1)
  }

  lemma OwnRecordHonest(s: Cluster, e: Event, c: Caller)
    requires Honest(s) && EnabledCaller(s, e) && (e.Publish? || e.Close?)
    requires c.node == s.callers[e.g].node && c.role == s.callers[e.g].role && c.pc == PcAfter(s, e)
    ensures var records := s.records[c.role.act := RecordMoved(s, e)];
            && SoundRecords(records, s.callers[e.g := c])
            && SoundRoles(records, s.callers[e.g := c]) && SoundTable(records, s.table)
  {
    var b := c.role.act;
    var records := s.records[b := RecordMoved(s, e)];
    var callers := s.callers[e.g := c];
    assert SoundRole(s.records, e.g, s.callers[e.g]);
    assert SoundRecord(s.records, s.callers, b);
    forall a: nat ensures SoundRecord(records, callers, a) {
      assert SoundRecord(s.records, s.callers, a);
    }
    forall h | h in callers ensures SoundRole(records, h, callers[h]) {
      assert SoundRole(s.records, h, s.callers[h]);
    }
  }

  /** A move of one goroutine that touches no record. */
  lemma MoveHonest(records: Records, callers: Callers, g: Gid, c: Caller)
    requires SoundRecords(records, callers) && SoundRoles(records, callers)
    requires g in callers && c.node == callers[g].node && c.role == callers[g].role
    requires SoundRole(records, g, c)
    requires c.role.Leader? ==> c.role.act < |records| && Stage(records[c.role.act], c.pc)
    ensures SoundRecords(records, callers[g := c]) && SoundRoles(records, callers[g := c])
  {
    var callers' := callers[g := c];
    forall a: nat ensures SoundRecord(records, callers', a) {
      assert SoundRecord(records, callers, a);
    }
    forall h | h in callers' ensures SoundRole(records, h, callers'[h]) {
      assert SoundRole(records, h, callers[h]);
    }
  }

  lemma QuietMove(s: Cluster, e: Event)
    requires Honest(s) && EnabledCaller(s, e) && !e.Enter? && !e.Publish? && !e.Close?
    ensures var c := s.callers[e.g].(pc := PcAfter(s, e), heard := HeardAfter(s, e));
            && SoundRole(s.records, e.g, c)
            && (c.role.Leader? ==> c.role.act < |s.records| && Stage(s.records[c.role.act], c.pc))
  {
    var c := s.callers[e.g];
    assert SoundRole(s.records, e.g, c);
    if c.role.Leader? {
      assert SoundRecord(s.records, s.callers, c.role.act);
    }
    if e.Release? {
      assert SoundRecord(s.records, s.callers, c.role.seen.value);
    }
  }

  lemma StepHonest(s: Cluster, e: Event)
    requires Honest(s) && Enabled(s, e)
    ensures HonestOf(RecordsAfter(s, e), CallersAfter(s, e), TableAfter(s, e))
  {
    if Entered(s, e).Some? {
      EnterHonest(s, e.g, Entered(s, e).value);
    } else if EnabledCaller(s, e) {
      hide SoundRecords, SoundRoles;
      var c := s.callers[e.g].(pc := PcAfter(s, e), heard := HeardAfter(s, e));
      if e.Publish? || e.Close? {
        OwnRecordHonest(s, e, c);
      } else {
        QuietMove(s, e);
        MoveHonest(s.records, s.callers, e.g, c);
      }
    }
  }

  lemma {:induction false} HonestHolds(r: Run, n: nat)
    requires IsRun(r) && n < |r.states|
    ensures Honest(r.states[n])
  {
    if n > 0 {
      HonestHolds(r, n - 1);
      RunStep(r, n - 1);
      hide Enabled, IsRun, HonestOf, RecordsAfter, CallersAfter, TableAfter;
      StepHonest(r.states[n - 1], r.events[n - 1]);
    }
  }

  /** A record is closed at most once, and exactly when its creator has returned, with the creator's result in it. */
  predicate ClosedByCreator(callers: Callers, rec: Activation)
  {
    && rec.closes <= 1 && rec.creator in callers
    && (rec.closes == 1 <==> callers[rec.creator].pc.Returned?)
    && (rec.closes == 1 ==> callers[rec.creator].pc == Returned(rec.err))
  }

  /** A follower that returned either timed out or returned the very result its leader returned. */
  predicate ToldTheTruth(records: Records, callers: Callers, c: Caller)
  {
    c.role.Follower? && c.pc.Returned? && c.pc.res != TimedOut ==>
      && c.role.seen.Some? && c.role.seen.value < |records|
      && var rec := records[c.role.seen.value];
         rec.node == c.node && rec.creator in callers && callers[rec.creator].pc == c.pc
  }

  /** In every reachable state of every run, with no assumption on the interleaving. */
  lemma FollowersTellTheTruth(r: Run, n: nat)
    requires IsRun(r) && n < |r.states|
    ensures forall rec :: rec in r.states[n].records ==> ClosedByCreator(r.states[n].callers, rec)
    ensures forall g :: g in r.states[n].callers ==> ToldTheTruth(r.states[n].records, r.states[n].callers, r.states[n].callers[g])
  {
    HonestHolds(r, n);
    var s := r.states[n];
    forall rec | rec in s.records ensures ClosedByCreator(s.callers, rec) {
      var a :| 0 <= a < |s.records| && s.records[a] == rec;
      assert SoundRecord(s.records, s.callers, a);
    }
    forall g | g in s.callers ensures ToldTheTruth(s.records, s.callers, s.callers[g]) {
      var c := s.callers[g];
      assert SoundRole(s.records, g, c);
      if c.role.Follower? && c.role.seen.Some? {
        assert SoundRecord(s.records, s.callers, c.role.seen.value);
      }
    }
  }

  /**
   A record changes only while unclosed and only by its own creator's hand: first it gets the creator's final
   result, and then, holding that result, it is closed once.
   */
  lemma RecordLifecycle(s: Cluster, e: Event, a: ActId)
    requires Honest(s) && Enabled(s, e) && a < |s.records|
    ensures a < |RecordsAfter(s, e)|
    ensures RecordsAfter(s, e)[a] != s.records[a] ==>
              var rec := s.records[a];
              && rec.closes == 0 && rec.creator in s.callers
              && var pc := s.callers[rec.creator].pc;
                 || (e == Publish(rec.creator) && pc.Publishing? && RecordsAfter(s, e)[a] == rec.(err := pc.res))
                 || (e == Close(rec.creator) && pc.Closing? && rec.err == pc.res && RecordsAfter(s, e)[a] == rec.(closes := 1))
  {
    assert SoundRecord(s.records, s.callers, a);
    if e.Publish? || e.Close? {
      assert SoundRole(s.records, e.g, s.callers[e.g]);
      assert SoundRecord(s.records, s.callers, s.callers[e.g].role.act);
    }
  }

  // ---------- the table, exactly ----------

  /** A caller that sees this node waking finds the unclosed record of the goroutine waking it. */
  predicate FindsRecord(records: Records, callers: Callers, table: map<NodeId, ActId>, id: NodeId)
  {
    && id in table && table[id] < |records|
    && var rec := records[table[id]];
       rec.closes == 0 && rec.creator in callers && Wakes(callers[rec.creator], id)
  }

  ghost predicate TabledOf(nodes: Nodes, records: Records, callers: Callers, table: map<NodeId, ActId>)
  {
    forall id :: id in nodes && nodes[id].status == Waking ==> FindsRecord(records, callers, table, id)
  }

  ghost predicate Tabled(s: Cluster)
  {
    TabledOf(s.nodes, s.records, s.callers, s.table)
  }

  /** A leader deletes by node id, after another goroutine has already started the next wake of that node. */
  predicate LateDelete(s: Cluster, e: Event)
  {
    e.Delete? && e.g in s.callers && s.callers[e.g].node in s.nodes && s.nodes[s.callers[e.g].node].status == Waking
  }

  /** The entry block starts a wake while an earlier leader of the same node has yet to delete its record. */
  ghost predicate EntersGap(s: Cluster, e: Event)
  {
    && Enabled(s, e) && Entered(s, e).Some? && MustWake(s.nodes, Entered(s, e).value)
    && exists g :: g in s.callers && s.callers[g].pc.Deleting? && s.callers[g].node == Entered(s, e).value
  }

  lemma EntryFinds(s: Cluster, g: Gid, k: NodeId, id: NodeId)
    requires Honest(s) && g !in s.callers
    requires !(k == id && MustWake(s.nodes, id)) ==> FindsRecord(s.records, s.callers, s.table, id)
    ensures var wake := MustWake(s.nodes, k);
            FindsRecord(if wake then s.records + [Activation(k, g, Ok, 0)] else s.records, s.callers[g := Entering(s, k)],
                        if wake then s.table[k := |s.records|] else s.table, id)
  {
  }

  lemma CallerFinds(s: Cluster, e: Event, id: NodeId)
    requires Honest(s) && FindsRecord(s.records, s.callers, s.table, id) && EnabledCaller(s, e) && !e.Enter?
    requires (e.Record? || e.Delete?) ==> s.callers[e.g].node != id
    ensures FindsRecord(RecordsAfter(s, e), CallersAfter(s, e), TableAfter(s, e), id)
  {
    var a := s.table[id];
    PcMoves(s, e);
    assert SoundRole(s.records, e.g, s.callers[e.g]);
    assert SoundRecord(s.records, s.callers, a);
    hide PcAfter, HeardAfter, SoundRoles, SoundRecords, SoundTable;
  }

  lemma StepTabled(s: Cluster, e: Event)
    requires Inv(s) && Honest(s) && Tabled(s) && Enabled(s, e) && !LateDelete(s, e)
    ensures TabledOf(NodesAfter(s, e), RecordsAfter(s, e), CallersAfter(s, e), TableAfter(s, e))
  {
    forall id | id in NodesAfter(s, e) && NodesAfter(s, e)[id].status == Waking
      ensures FindsRecord(RecordsAfter(s, e), CallersAfter(s, e), TableAfter(s, e), id)
    {
      TopologyKept(s, e);
      StillWaking(s, e, id);
      hide Inv, Honest, NodesAfter, FindsRecord, HonestOf, InvOf;
      if Entered(s, e).Some? {
        EntryFinds(s, e.g, Entered(s, e).value, id);
      } else if EnabledCaller(s, e) {
        hide RecordsAfter, CallersAfter, TableAfter;
        CallerFinds(s, e, id);
      }
    }
  }

  /** A node that is waking after an event was waking before, or this event is the entry that wakes it. */
  lemma StillWaking(s: Cluster, e: Event, id: NodeId)
    requires Inv(s) && Enabled(s, e) && id in s.nodes && id in NodesAfter(s, e) && NodesAfter(s, e)[id].status == Waking
    ensures (Entered(s, e) == Some(id) && MustWake(s.nodes, id)) || s.nodes[id].status == Waking
    ensures e.Record? ==> s.callers[e.g].node != id
  {
    hide NodesAfter, OneWaker, SweepFresh, OwnIds, IsSnapshot;
    OnlyEntryMarksWaking(s, e, id);
    StatusAfter(s, e, id);
    if e.Record? {
      assert SoundCaller(s.nodes, s.callers[e.g]);
    }
  }

  lemma {:induction false} TabledHolds(r: Run, n: nat)
    requires IsRun(r) && n < |r.states|
    requires forall i :: 0 <= i < n ==> !RecoverOverWaking(r.states[i], r.events[i]) && !LateDelete(r.states[i], r.events[i])
    ensures Tabled(r.states[n])
  {
    if n > 0 {
      TabledHolds(r, n - 1);
      InvHolds(r, n - 1);
      HonestHolds(r, n - 1);
      RunStep(r, n - 1);
      hide IsRun, Enabled, Inv, Honest, TabledOf, LateDelete, RecoverOverWaking, RecordsAfter, CallersAfter, TableAfter;
      hide NodesAfter;
      StepTabled(r.states[n - 1], r.events[n - 1]);
    }
  }

  lemma LateDeleteBreaks(s: Cluster, e: Event)
    requires Enabled(s, e) && LateDelete(s, e)
    ensures !TabledOf(NodesAfter(s, e), RecordsAfter(s, e), CallersAfter(s, e), TableAfter(s, e))
  {
    var id := s.callers[e.g].node;
    assert !FindsRecord(RecordsAfter(s, e), CallersAfter(s, e), TableAfter(s, e), id);
  }

  /**
   Every caller that could see Waking would find the unclosed record, throughout, exactly when no delete comes
   late.
   */
  lemma TabledExactly(r: Run)
    requires IsRun(r)
    requires forall i :: 0 <= i < |r.events| ==> !RecoverOverWaking(r.states[i], r.events[i])
    ensures (forall i :: 0 <= i < |r.states| ==> Tabled(r.states[i]))
       <==> (forall i :: 0 <= i < |r.events| ==> !LateDelete(r.states[i], r.events[i]))
  {
    hide Enabled, Init, Step, TabledOf, LateDelete;
    if forall i :: 0 <= i < |r.events| ==> !LateDelete(r.states[i], r.events[i]) {
      forall i | 0 <= i < |r.states| ensures Tabled(r.states[i]) {
        TabledHolds(r, i);
      }
    } else {
      var i :| 0 <= i < |r.events| && LateDelete(r.states[i], r.events[i]);
      RunStep(r, i);
      hide RecordsAfter, CallersAfter, TableAfter, NodesAfter, IsRun;
      LateDeleteBreaks(r.states[i], r.events[i]);
      assert !Tabled(r.states[i + 1]);
    }
  }

  /** No leader is about to delete the record of a node that is waking. */
  ghost predicate GapClear(nodes: Nodes, callers: Callers)
  {
    forall g :: g in callers && callers[g].pc.Deleting? && callers[g].node in nodes ==> nodes[callers[g].node].status != Waking
  }

  lemma StepGapClear(s: Cluster, e: Event)
    requires Inv(s) && GapClear(s.nodes, s.callers) && Enabled(s, e) && !EntersGap(s, e)
    ensures GapClear(NodesAfter(s, e), CallersAfter(s, e))
  {
    var callers' := CallersAfter(s, e);
    forall g | g in callers' && callers'[g].pc.Deleting? && callers'[g].node in NodesAfter(s, e)
      ensures NodesAfter(s, e)[callers'[g].node].status != Waking
    {
      var id := callers'[g].node;
      if NodesAfter(s, e)[id].status == Waking {
        TopologyKept(s, e);
        StillWaking(s, e, id);
        DeletingFrom(s, e, g);
        hide Inv, NodesAfter, CallersAfter, Enabled;
      }
    }
  }

  /** A goroutine about to delete was so before, or has just recorded its status. */
  lemma DeletingFrom(s: Cluster, e: Event, g: Gid)
    requires Enabled(s, e) && g in CallersAfter(s, e) && CallersAfter(s, e)[g].pc.Deleting?
    ensures g in s.callers && s.callers[g].node == CallersAfter(s, e)[g].node
    ensures e == Record(g) || s.callers[g].pc.Deleting?
  {
    hide Succeeds, HeardAfter, EnabledRest, EnabledCtl;
    CallerAfter(s, e, g);
    hide CallersAfter;
  }

  /** Keeping entries out of the gap between the final SetStatus and the delete is enough: no delete is ever late. */
  lemma NoEntryInGapNoLateDelete(r: Run, n: nat)
    requires IsRun(r) && n < |r.events|
    requires forall i :: 0 <= i < n ==> !RecoverOverWaking(r.states[i], r.events[i]) && !EntersGap(r.states[i], r.events[i])
    ensures !LateDelete(r.states[n], r.events[n])
  {
    GapClearHolds(r, n);
    RunStep(r, n);
    hide *;
    ClearGapDeletesInTime(r.states[n], r.events[n]);
  }

  lemma {:induction false} GapClearHolds(r: Run, n: nat)
    requires IsRun(r) && n < |r.states|
    requires forall i :: 0 <= i < n ==> !RecoverOverWaking(r.states[i], r.events[i]) && !EntersGap(r.states[i], r.events[i])
    ensures GapClear(r.states[n].nodes, r.states[n].callers)
  {
    if n == 0 {
      RunStart(r);
    } else {
      GapClearHolds(r, n - 1);
      InvHolds(r, n - 1);
      RunStep(r, n - 1);
      hide *;
      StepGapClear(r.states[n - 1], r.events[n - 1]);
    }
  }

  lemma ClearGapDeletesInTime(s: Cluster, e: Event)
    requires Enabled(s, e) && GapClear(s.nodes, s.callers)
    ensures !LateDelete(s, e)
  {
    hide IsSnapshot;
  }

  ghost predicate NobodyLost(callers: Callers)
  {
    forall g :: g in callers ==> !callers[g].pc.Crashed? && callers[g].role != Follower(None)
  }

  /** A caller that enters finds a record, and nobody who has one crashes. */
  lemma StepNobodyLost(s: Cluster, e: Event)
    requires NobodyLost(s.callers) && Tabled(s) && Enabled(s, e)
    ensures NobodyLost(CallersAfter(s, e))
  {
    hide HeardAfter, PcAfter, Entering, TabledOf, EnabledRest, EnabledCtl, CallersAfter;
    forall g | g in CallersAfter(s, e)
      ensures !CallersAfter(s, e)[g].pc.Crashed? && CallersAfter(s, e)[g].role != Follower(None)
    {
      CallerAfter(s, e, g);
      if Entered(s, e).Some? && g == e.g {
        EntryFindsRecord(s, Entered(s, e).value);
      } else if EnabledCaller(s, e) && g == e.g {
        OnlyLostCrash(s, e);
      }
    }
  }

  lemma OnlyLostCrash(s: Cluster, e: Event)
    requires EnabledCaller(s, e) && !e.Enter? && s.callers[e.g].role != Follower(None)
    ensures !PcAfter(s, e).Crashed?
  {
    hide Succeeds;
  }

  lemma EntryFindsRecord(s: Cluster, id: NodeId)
    requires Tabled(s)
    ensures Entering(s, id).role != Follower(None) && !Entering(s, id).pc.Crashed?
  {
    if id in s.nodes && s.nodes[id].status == Waking {
      assert FindsRecord(s.records, s.callers, s.table, id);
    }
  }

  /** Without late deletes nobody waits on a missing record, so no caller crashes. */
  lemma {:induction false} NobodyCrashes(r: Run, n: nat)
    requires IsRun(r) && n < |r.states|
    requires forall i :: 0 <= i < n ==> !RecoverOverWaking(r.states[i], r.events[i]) && !LateDelete(r.states[i], r.events[i])
    ensures NobodyLost(r.states[n].callers)
  {
    if n > 0 {
      NobodyCrashes(r, n - 1);
      TabledHolds(r, n - 1);
      RunStep(r, n - 1);
      hide CallersAfter, Tabled, Enabled, IsRun;
      StepNobodyLost(r.states[n - 1], r.events[n - 1]);
    }
  }
}
