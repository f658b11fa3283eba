/**
 * The durable journal through removals and retirements: how each step of the
 * engine moves it, and what is durable at every crash point of a run.
 */
module EngineRemoval {
  import opened Wrappers
  import opened Authority
  import opened Lanes
  import opened BlobRefs
  import opened Journal
  import opened Settlements
  import opened Engine
  import opened EngineSafety
  import opened EngineProtection

  // ---------------------------------------------------------------------------
  // What the durable journal holds
  // ---------------------------------------------------------------------------

  /** The snapshot lists the entry; a committed entry exactly as it is. */
  ghost predicate Lists(snapshot: seq<Intent>, it: Intent) {
    exists e :: e in snapshot && e.id == it.id && (it.phase.Committed? ==> e == it)
  }

  /** Every crash point from now on finds the entry: in the record, whichever queued snapshots land. */
  ghost predicate JournalHolds(l: Lane<seq<Intent>>, key: Scope, it: Intent) {
    && key in l.durable && Lists(l.durable[key], it)
    && (forall i :: l.done <= i < |l.log| && l.log[i].store.key == key ==> Lists(l.log[i].snapshot, it))
  }

  /** The snapshots a step enqueues for a key all list the entry. */
  ghost predicate AppendsLists(l: Lane<seq<Intent>>, l': Lane<seq<Intent>>, key: Scope, it: Intent) {
    forall i :: |l.log| <= i < |l'.log| && l'.log[i].store.key == key ==> Lists(l'.log[i].snapshot, it)
  }

  /** How a lane moves: its log grows, its queue shrinks from the front, and only the front of the queue lands. */
  ghost predicate Evolves<S>(l: Lane<S>, l': Lane<S>) {
    && |l.log| <= |l'.log| && l.done <= l'.done
    && (forall i :: 0 <= i < |l.log| ==> l'.log[i].store == l.log[i].store && l'.log[i].snapshot == l.log[i].snapshot)
    && (l'.durable == l.durable
        || (l.done < |l.log| && l'.durable == l.durable[l.log[l.done].store.key := l.log[l.done].snapshot]))
  }

  lemma EvolvingHolds(l: Lane<seq<Intent>>, l': Lane<seq<Intent>>, key: Scope, it: Intent)
    requires Evolves(l, l') && JournalHolds(l, key, it) && AppendsLists(l, l', key, it)
    ensures JournalHolds(l', key, it)
  {
  }

  lemma LaneStepEvolves<S>(l: Lane<S>, e: LaneEvent, g: Guard, settings: Scope)
    requires !e.Ensure? && LaneEnabled(l, e, g, settings)
    ensures Evolves(l, LaneStep(l, e, g, settings)) && |LaneStep(l, e, g, settings).log| == |l.log|
    ensures LaneStep(l, e, g, settings).store == l.store || LaneStep(l, e, g, settings).store == None
  {
    LaneStepKeepsLast(l, e, g, settings);
  }

  /** What a step may enqueue: the entries memory holds for the scope of the attached store. */
  ghost predicate AppendsMemory(s: State, t: State) {
    forall i :: |s.pend.log| <= i < |t.pend.log| ==>
      && t.pend.store == Some(t.pend.log[i].store)
      && forall e :: e in t.journal && e.scope == t.pend.log[i].store.key ==> e in t.pend.log[i].snapshot
  }

  /** A step moves the lane forward, enqueues only memory, and attaches no store. */
  ghost predicate PendStep(s: State, t: State) {
    && Evolves(s.pend, t.pend) && AppendsMemory(s, t)
    && (t.pend.store == None || t.pend.store == s.pend.store)
  }

  lemma SamePend(s: State, t: State)
    requires t.pend.log == s.pend.log && t.pend.done == s.pend.done && t.pend.durable == s.pend.durable
    requires t.pend.store == None || t.pend.store == s.pend.store
    ensures PendStep(s, t)
  {
  }

  lemma ActivatePends(s: State)
    ensures PendStep(s, DoActivate(s))
  {
  }

  lemma EnqueueJournalPends(s: State)
    ensures PendStep(s, EnqueueJournal(s).state)
  {
  }

  /** The pass may move, and memory other than the journal may change, around an enqueue. */
  lemma PendsAround(s: State, s1: State, t: State)
    requires s1.pend == s.pend && t.pend == EnqueueJournal(s1).state.pend && t.journal == s1.journal
    ensures PendStep(s, t)
  {
    EnqueueJournalPends(s1);
  }

  // ---------------------------------------------------------------------------
  // The journal lane, segment by segment
  // ---------------------------------------------------------------------------

  lemma WriteRemovalPends(s: State, s1: State)
    requires s1.pend == s.pend
    ensures PendStep(s, WriteRemoval(s1))
  {
    PendsAround(s, Suspend(s1, RemovalWrite(None)), WriteRemoval(s1));
  }

  lemma EnqueueSettledPends(s: State, s1: State, t: State)
    requires s1.pend == s.pend && t.pend == EnqueueSettled(s1).state.pend
    ensures PendStep(s, t)
  {
    SamePend(s, t);
  }

  lemma RetireOrQuarantinePends(s: State, sight: Sight, changed: bool, it: Intent)
    ensures PendStep(s, RetireOrQuarantine(s, sight, changed, it))
  {
    var d := DecideRetirement(it, sight.diskOccupied, SourcePath(it) in sight.remote.refs);
    var gateAdded := d.AuthorityMoved? && SourcePath(it) !in s.mem.gate;
    var t := RetireOrQuarantine(s, sight, changed, it);
    if d.Retain? {
      SamePend(s, t);
    } else if RetireEpisode(s.mem, it, d).stages == s.mem.stages && !gateAdded {
      WriteRemovalPends(s, DropEpisode(s, it, d, RemovalWrite(None)));
      assert t == WriteRemoval(DropEpisode(s, it, d, RemovalWrite(None)));
    } else {
      var dropped := DropEpisode(s, it, d, GateWrite(it, None, gateAdded));
      assert t == WriteGate(dropped);
      EnqueueSettledPends(s, dropped, t);
    }
  }

  lemma BeginRemovalPends(s: State, sight: Sight, changed: bool, it: Intent)
    ensures PendStep(s, BeginRemoval(s, sight, changed, it))
  {
    var p := Prepare(s.mem, it, sight.remote, sight.now);
    var t := BeginRemoval(s, sight, changed, it);
    if p.Write? {
      var taken := TakeUp(s, it, p, PreparingRemoval(it, changed, Unwritten));
      assert t == WritePreparation(taken);
      EnqueueSettledPends(s, taken, t);
    } else {
      SamePend(s, t);
    }
  }

  lemma BeginAttemptPends(s: State, sight: Sight, it: Intent)
    ensures PendStep(s, BeginAttempt(s, sight, it))
  {
    var t := BeginAttempt(s, sight, it);
    if MarkAttempt(s, sight, it).ok {
      PendsAround(s, WithAttempt(s, sight, it), t);
    } else {
      SamePend(s, t);
    }
  }

  lemma ProcessEntryPends(s: State, sight: Sight)
    requires s.pass.pc.AtEntry?
    ensures PendStep(s, ProcessEntry(s, sight))
  {
    var it, changed := s.pass.pc.it, s.pass.pc.changed;
    var t := ProcessEntry(s, sight);
    if t == RetireOrQuarantine(s, sight, changed, it) {
      RetireOrQuarantinePends(s, sight, changed, it);
    } else if it.phase.Committed? && sight.receipt && Postcondition(it, sight.remote) {
      BeginRemovalPends(s, sight, changed, it);
      assert t == BeginRemoval(s, sight, changed, it);
    } else if it.phase.Committed? {
      SamePend(s, t);
    } else {
      BeginAttemptPends(s, sight, it);
      assert t == BeginAttempt(s, sight, it);
    }
  }

  lemma PersistFinalPends(s: State, s1: State, t: State)
    requires s1.pend == s.pend && t.pend == PersistFinal(s1).state.pend && t.journal == s1.journal
    ensures PendStep(s, t)
  {
    EnqueueJournalPends(s1);
    EnqueueSettledAfterJournal(s1);
  }

  lemma EnqueueSettledAfterJournal(s: State)
    ensures PersistFinal(s).state.pend == EnqueueJournal(s).state.pend
  {
  }

  lemma CasPends(s: State, sight: Sight)
    requires s.pass.pc.Attempting? && s.pass.pc.at.AtCas?
    ensures PendStep(s, Cas(s, sight))
  {
    var it, t := s.pass.pc.it, Cas(s, sight);
    if t.pend == s.pend {
      SamePend(s, t);
    } else if sight.cas.NoMutation? {
      var cleared := ClearCommitAttempt(s.journal, it.id, s.pass.pc.attempt);
      var s1 := Suspend(s, Clearing(it, None, None, sight.cas.stale)).(journal := cleared.entries);
      assert t == WriteClear(s1);
      PersistFinalPends(s, s1, t);
    } else {
      var s1 := AppliedState(s, sight, CurrentEntry(s, it.id).value).(journal := MarkFinal(s, sight).entries);
      assert t == WriteCommit(s1);
      PersistFinalPends(s, s1, t);
    }
  }

  lemma FinishGateWritePends(s: State, sight: Sight)
    requires s.pass.pc.GateWrite?
    ensures PendStep(s, FinishGateWrite(s, sight))
  {
    var t := FinishGateWrite(s, sight);
    if t.pend == s.pend {
      SamePend(s, t);
    } else if IsOk(s.sett, s.pass.pc.write) {
      WriteRemovalPends(s, ConfirmPending(s));
      assert t == WriteRemoval(ConfirmPending(s));
    } else {
      WriteRemovalPends(s, s.(pending := None));
      assert t == WriteRemoval(s.(pending := None));
    }
  }

  lemma FinishStalePends(s: State, sight: Sight)
    requires s.pass.pc.Clearing? || s.pass.pc.StaleRemoval?
    ensures PendStep(s, if s.pass.pc.Clearing? then FinishClear(s, sight) else FinishStaleRemoval(s, sight))
  {
    var it := s.pass.pc.it;
    var t := if s.pass.pc.Clearing? then FinishClear(s, sight) else FinishStaleRemoval(s, sight);
    if t.pend == s.pend {
      SamePend(s, t);
    } else if s.pass.pc.Clearing? {
      var s1 := Suspend(s, StaleRemoval(it, None)).(journal := Remove(s.journal, it.id));
      assert t == WriteStaleRemoval(s1);
      PendsAround(s, s1, t);
    } else {
      var s1 := s.(journal := Restore(s.journal, it));
      assert t == WriteRestored(s1);
      PendsAround(s, s1, t);
    }
  }

  lemma FinishRemovalPends(s: State, sight: Sight)
    requires s.pass.pc.PreparedRemoval?
    ensures PendStep(s, FinishRemoval(s, sight))
  {
    if s.pass.pc.ok {
      SamePend(s, FinishRemoval(s, sight));
    } else {
      RetireOrQuarantinePends(s, sight, s.pass.pc.changed, s.pass.pc.it);
      assert FinishRemoval(s, sight) == RetireOrQuarantine(s, sight, s.pass.pc.changed, s.pass.pc.it);
    }
  }

  lemma EndLoopPends(s: State)
    requires s.pass.pc.Looping?
    ensures PendStep(s, EndLoop(s))
  {
    if s.pass.pc.changed {
      PendsAround(s, s, EndLoop(s));
    } else {
      SamePend(s, EndLoop(s));
    }
  }

  lemma LoopPends(s: State, sight: Sight)
    requires s.pass.pc.Looping?
    ensures PendStep(s, ReplayStep(s, sight))
  {
    if s.pass.todo == [] {
      EndLoopPends(s);
    } else {
      ProcessEntryPends(TakeEntry(s), sight);
    }
  }

  lemma StartPends(s: State, sight: Sight)
    requires s.pass.pc.Idle?
    ensures PendStep(s, StartPass(s, sight))
  {
    ActivationLeavesLog(s);
    SamePend(s, StartPass(s, sight));
  }

  lemma OpeningPends(s: State, sight: Sight)
    requires s.pass.pc.OpeningJournal? || s.pass.pc.OpeningSettled?
    ensures PendStep(s, ReplayStep(s, sight))
  {
    SamePend(s, ReplayStep(s, sight));
  }

  lemma QuietPends(s: State, sight: Sight)
    requires s.pass.pc.RemovalWrite? || s.pass.pc.Committing? || s.pass.pc.LastWrite?
    ensures PendStep(s, ReplayStep(s, sight))
  {
    SamePend(s, ReplayStep(s, sight));
  }

  lemma AdvancePends(s: State, sight: Sight)
    requires s.pass.pc.Attempting? && !s.pass.pc.at.AtCas?
    ensures PendStep(s, AdvanceAttempt(s, sight))
  {
    SamePend(s, AdvanceAttempt(s, sight));
  }

  lemma PreparationPends(s: State, sight: Sight)
    requires s.pass.pc.PreparingRemoval?
    ensures PendStep(s, FinishPreparation(s, sight))
  {
    SamePend(s, FinishPreparation(s, sight));
  }

  lemma ReplayPends(s: State, sight: Sight)
    ensures PendStep(s, ReplayStep(s, sight))
  {
    match s.pass.pc
    case Looping(_) => LoopPends(s, sight);
    case AtEntry(_, _) => ProcessEntryPends(s, sight);
    case PreparingRemoval(_, _, _) => PreparationPends(s, sight);
    case PreparedRemoval(_, _, _) => FinishRemovalPends(s, sight);
    case GateWrite(_, _, _) => FinishGateWritePends(s, sight);
    case Attempting(_, _, at) =>
      if at.AtCas? {
        CasPends(s, sight);
      } else {
        AdvancePends(s, sight);
      }
    case Clearing(_, _, _, _) => FinishStalePends(s, sight);
    case StaleRemoval(_, _) => FinishStalePends(s, sight);
    case RemovalWrite(_) => QuietPends(s, sight);
    case Committing(_, _) => QuietPends(s, sight);
    case LastWrite(_) => QuietPends(s, sight);
    case Idle => StartPends(s, sight);
    case _ => OpeningPends(s, sight);
  }

  // ---------------------------------------------------------------------------
  // The journal lane, event by event
  // ---------------------------------------------------------------------------

  lemma EnsureJournalPends(s: State, s1: State, opens: bool)
    requires s1.pend.log == s.pend.log && s1.pend.done == s.pend.done && s1.pend.durable == s.pend.durable
    requires s1.pend.store == None || s1.pend.store == s.pend.store
    ensures PendStep(s, EnsureJournal(s1, opens))
  {
    var a := DoActivate(s1);
    ActivationLeavesLog(s1);
    EnsuringLeavesLog(a.pend, a.g, a.settings, opens);
    SamePend(s, EnsureJournal(s1, opens));
  }

  lemma ActivationLeavesLog(s: State)
    ensures var a := DoActivate(s);
            && a.pend.log == s.pend.log && a.pend.done == s.pend.done && a.pend.durable == s.pend.durable
            && (a.pend.store == None || a.pend.store == s.pend.store)
  {
  }

  lemma EnsuringLeavesLog<S>(l: Lane<S>, g: Guard, settings: Scope, opens: bool)
    ensures var t := BeginEnsure(l, g, settings, opens);
            && t.log == l.log && t.done == l.done && t.durable == l.durable
            && (t.store == None || t.store == l.store)
  {
  }

  lemma EnqueueMovedPends(s: State, a: State)
    requires a.pend.log == s.pend.log && a.pend.done == s.pend.done && a.pend.durable == s.pend.durable
    requires a.pend.store == None || a.pend.store == s.pend.store
    ensures PendStep(s, EnqueueJournal(a).state)
  {
    EnqueueJournalPends(a);
  }

  lemma PersistJournalPends(s: State, s1: State, opens: bool)
    requires s1.pend.log == s.pend.log && s1.pend.done == s.pend.done && s1.pend.durable == s.pend.durable
    requires s1.pend.store == s.pend.store
    ensures PendStep(s, PersistJournal(s1, opens))
  {
    var a := DoActivate(s1);
    if a.pend.store.None? || a.pend.store.value.key != a.settings {
      EnsureJournalPends(s, a.(pend := a.pend.(healthy := false)), opens);
    } else {
      EnqueueMovedPends(s, a);
    }
  }

  lemma RecordPends(s: State, journal: seq<Intent>, opens: bool)
    ensures PendStep(s, PersistRecorded(s, journal, opens))
  {
    if IsComplete(s.settings) {
      PersistJournalPends(s, WithJournal(s, journal), opens);
    } else {
      SamePend(s, PersistRecorded(s, journal, opens));
    }
  }

  lemma SettlementPends(s: State, e: Event)
    requires Enabled(s, e) && (e.Settlement? || e.Gate? || e.PersistsSettled? || e.SettledAdopts? || e.SettledLane?)
    ensures PendStep(s, Step(s, e))
  {
    SamePend(s, Step(s, e));
  }

  /** Every event but the installation of a load moves the journal lane this way. */
  lemma StepPends(s: State, e: Event)
    requires Enabled(s, e) && !e.JournalAdopts?
    ensures PendStep(s, Step(s, e))
  {
    var t := Step(s, e);
    match e
    case Replays(sight) => ReplayPends(s, sight);
    case PersistsJournal(opens) => PersistJournalPends(s, s, opens);
    case Local(file, opens) => RecordPends(s, Recording(s, file), opens);
    case JournalLane(le) =>
      if le.Ensure? {
        EnsureJournalPends(s, s, le.opens);
      } else {
        LaneStepEvolves(s.pend, le, s.g, s.settings);
      }
    case Crashes => CrashPends(s);
    case ChangeSettings(_) => SamePend(s, t);
    case ActivateScope => ActivatePends(s);
    case Forgets(_) => SamePend(s, t);
    case _ => SettlementPends(s, e);
  }

  lemma CrashPends(s: State)
    requires s.pend.done <= |s.pend.log| && s.sett.done <= |s.sett.log|
    ensures PendStep(s, CrashState(s))
  {
  }

  lemma AdoptEvolves(s: State, a: nat)
    requires SafetyInv(s) && AdoptEnabled(s.pend, s.g, s.settings, a)
    ensures Evolves(s.pend, AdoptJournal(s, a).pend)
    ensures forall i :: |s.pend.log| <= i < |AdoptJournal(s, a).pend.log| ==>
              AdoptJournal(s, a).pend.log[i].snapshot == AdoptedEntries(s, a)
  {
  }

  // ---------------------------------------------------------------------------
  // Following one committed entry
  // ---------------------------------------------------------------------------

  /** Copies the process could act on: the journal in memory and what the pass holds on to. */
  ghost predicate IsHeld(s: State, e: Intent) {
    e in s.journal || e in Captured(s.pass)
  }

  /** No other version of the entry is in memory, and none is being attempted. */
  ghost predicate IsOnlyVersion(s: State, it: Intent) {
    && (forall e :: IsHeld(s, e) && e.id == it.id ==> e == it)
    && (s.pass.pc.Attempting? ==> s.pass.pc.it.id != it.id)
  }

  /** What memory holds afterwards, it held before. */
  ghost predicate HoldsNoMore(s: State, t: State, id: nat) {
    && (forall e :: IsHeld(t, e) && e.id == id ==> IsHeld(s, e))
    && (t.pass.pc.Attempting? && t.pass.pc.it.id == id ==>
          (s.pass.pc.Attempting? && t.pass.pc.it == s.pass.pc.it)
          || (t.pass.pc.it in Captured(s.pass) && t.pass.pc.it.phase.Ready?))
  }

  lemma HoldingLess(s: State, t: State, id: nat)
    requires forall e :: e in t.journal && e.id == id ==> IsHeld(s, e)
    requires Captured(t.pass) <= Captured(s.pass) && !t.pass.pc.Attempting?
    ensures HoldsNoMore(s, t, id)
  {
  }

  lemma HoldingOther(s: State, t: State, it: Intent, id: nat)
    requires forall e :: e in t.journal && e.id == id ==> IsHeld(s, e)
    requires Captured(t.pass) <= Captured(s.pass) + {it} && it.id != id && !t.pass.pc.Attempting?
    ensures HoldsNoMore(s, t, id)
  {
  }

  lemma HoldingNoMore(s: State, t: State, it: Intent)
    requires it.phase.Committed? && IsOnlyVersion(s, it) && HoldsNoMore(s, t, it.id)
    ensures IsOnlyVersion(t, it)
  {
  }

  /** A mark that does not accept the entry's phase leaves it, and its identity, alone. */
  lemma MarkLeaves(s: State, id: nat, expected: Phase -> bool, next: Phase, it: Intent)
    requires DistinctIds(s.journal) && IsOnlyVersion(s, it) && !expected(it.phase)
    requires Mark(s.journal, id, expected, next).ok
    ensures forall e :: e in Mark(s.journal, id, expected, next).entries && e.id == it.id ==> e in s.journal
    ensures it in s.journal ==> it in Mark(s.journal, id, expected, next).entries
  {
    MarkIsExact(s.journal, id, expected, next);
    var marked := EntryById(s.journal, id).value;
    assert IsHeld(s, marked);
  }

  lemma RetireHoldsNoMore(s: State, sight: Sight, changed: bool, it: Intent, id: nat)
    requires it in Captured(s.pass)
    ensures HoldsNoMore(s, RetireOrQuarantine(s, sight, changed, it), id)
  {
    var t := RetireOrQuarantine(s, sight, changed, it);
    assert t.journal == s.journal || t.journal == Remove(s.journal, it.id);
    assert t.pass.todo == s.pass.todo && (t.pass.pc.GateWrite? ==> t.pass.pc.it == it);
    assert t.pass.pc.GateWrite? || t.pass.pc.RemovalWrite? || t.pass.pc.Looping?;
  }

  lemma AttemptHoldsNoMore(s: State, sight: Sight, it: Intent, kept: Intent)
    requires DistinctIds(s.journal) && IsOnlyVersion(s, kept) && kept.phase.Committed?
    requires it in Captured(s.pass) && it.phase.Ready?
    ensures HoldsNoMore(s, BeginAttempt(s, sight, it), kept.id)
  {
    var t := BeginAttempt(s, sight, it);
    if MarkAttempt(s, sight, it).ok {
      MarkLeaves(s, it.id, IsReady(), Attempted(s.nextAttempt, sight.now, sight.session), kept);
      assert t.journal == MarkAttempt(s, sight, it).entries;
      assert t.pass.todo == s.pass.todo || t.pass.todo == [];
    }
  }

  lemma ProcessHoldsNoMore(s: State, sight: Sight, kept: Intent)
    requires DistinctIds(s.journal) && IsOnlyVersion(s, kept) && kept.phase.Committed? && s.pass.pc.AtEntry?
    ensures HoldsNoMore(s, ProcessEntry(s, sight), kept.id)
  {
    var it, changed := s.pass.pc.it, s.pass.pc.changed;
    var t := ProcessEntry(s, sight);
    if t == RetireOrQuarantine(s, sight, changed, it) {
      RetireHoldsNoMore(s, sight, changed, it, kept.id);
    } else if it.phase.Committed? && sight.receipt && Postcondition(it, sight.remote) {
      RemovalHoldsNoMore(s, sight, changed, it, kept.id);
      assert t == BeginRemoval(s, sight, changed, it);
    } else if it.phase.Committed? {
      HoldingLess(s, Suspend(s, Looping(changed)), kept.id);
      assert t == Suspend(s, Looping(changed));
    } else {
      AttemptHoldsNoMore(s, sight, it, kept);
      assert t == BeginAttempt(s, sight, it);
    }
  }

  lemma RemovalHoldsNoMore(s: State, sight: Sight, changed: bool, it: Intent, id: nat)
    requires it in Captured(s.pass)
    ensures HoldsNoMore(s, BeginRemoval(s, sight, changed, it), id)
  {
    var t := BeginRemoval(s, sight, changed, it);
    assert t.journal == s.journal && t.pass.todo == s.pass.todo && t.pass.pc.PreparingRemoval? && t.pass.pc.it == it;
    HoldingLess(s, t, id);
  }

  lemma FinalWritesLeaveMemory(s: State)
    ensures WriteCommit(s).journal == s.journal && WriteCommit(s).pass.todo == s.pass.todo
    ensures WriteCommit(s).pass.pc.Committing?
    ensures s.pass.pc.Clearing? ==>
              WriteClear(s).journal == s.journal && WriteClear(s).pass.todo == s.pass.todo
              && WriteClear(s).pass.pc.Clearing? && WriteClear(s).pass.pc.it == s.pass.pc.it
  {
  }

  lemma ClearHoldsNoMore(s: State, stale: bool, kept: Intent)
    requires DistinctIds(s.journal) && IsOnlyVersion(s, kept) && kept.phase.Committed? && s.pass.pc.Attempting?
    ensures HoldsNoMore(s, CasClears(s, stale), kept.id)
  {
    var it, attempt, t := s.pass.pc.it, s.pass.pc.attempt, CasClears(s, stale);
    var cleared := ClearCommitAttempt(s.journal, it.id, attempt);
    if cleared.ok {
      MarkLeaves(s, it.id, IsAttempt(attempt), Ready, kept);
      var clearing := Suspend(s, Clearing(it, None, None, stale)).(journal := cleared.entries);
      FinalWritesLeaveMemory(clearing);
      assert t == WriteClear(clearing);
      HoldingOther(s, t, it, kept.id);
    } else {
      assert t == Stop(s);
      HoldingLess(s, t, kept.id);
    }
  }

  lemma CommitHoldsNoMore(s: State, sight: Sight, current: Intent, kept: Intent)
    requires DistinctIds(s.journal) && IsOnlyVersion(s, kept) && kept.phase.Committed?
    requires s.pass.pc.Attempting? && sight.cas.Mutates?
    ensures HoldsNoMore(s, CasCommits(s, sight, current), kept.id)
  {
    var t, applied, marked := CasCommits(s, sight, current), AppliedState(s, sight, current), MarkFinal(s, sight);
    assert applied.journal == s.journal && applied.pass.todo == s.pass.todo;
    if sight.cas.boundAfter && marked.ok {
      FinalMarkHoldsNoMore(s, sight, applied, kept);
      assert t == WriteCommit(applied.(journal := marked.entries));
    } else {
      assert t == Stop(applied);
      HoldingLess(s, t, kept.id);
    }
  }

  lemma FinalMarkHoldsNoMore(s: State, sight: Sight, applied: State, kept: Intent)
    requires DistinctIds(s.journal) && IsOnlyVersion(s, kept) && kept.phase.Committed?
    requires s.pass.pc.Attempting? && applied.pass.todo == s.pass.todo && MarkFinal(s, sight).ok
    ensures HoldsNoMore(s, WriteCommit(applied.(journal := MarkFinal(s, sight).entries)), kept.id)
  {
    var marked := applied.(journal := MarkFinal(s, sight).entries);
    var final := Committed(sight.now, sight.session, sight.receiptId, sight.fingerprint);
    MarkLeaves(s, s.pass.pc.it.id, IsAttempt(s.pass.pc.attempt), final, kept);
    CommittingHoldsNoMore(s, marked, kept.id);
  }

  lemma CommittingHoldsNoMore(s: State, marked: State, id: nat)
    requires marked.pass.todo == s.pass.todo && forall e :: e in marked.journal && e.id == id ==> e in s.journal
    ensures HoldsNoMore(s, WriteCommit(marked), id)
  {
    FinalWritesLeaveMemory(marked);
    HoldingLess(s, WriteCommit(marked), id);
  }

  lemma CasHoldsNoMore(s: State, sight: Sight, kept: Intent)
    requires DistinctIds(s.journal) && IsOnlyVersion(s, kept) && kept.phase.Committed?
    requires s.pass.pc.Attempting? && s.pass.pc.at.AtCas?
    ensures HoldsNoMore(s, Cas(s, sight), kept.id)
  {
    var t := Cas(s, sight);
    if IsAttemptCurrent(s, sight) && sight.cas.Mutates? {
      CommitHoldsNoMore(s, sight, CurrentEntry(s, s.pass.pc.it.id).value, kept);
      assert t == CasCommits(s, sight, CurrentEntry(s, s.pass.pc.it.id).value);
    } else if IsAttemptCurrent(s, sight) && sight.cas.NoMutation? {
      ClearHoldsNoMore(s, sight.cas.stale, kept);
      assert t == CasClears(s, sight.cas.stale);
    } else {
      assert t.journal == s.journal && t.pass.pc.Idle? && t.pass.todo == [];
    }
  }

  lemma OpenHoldsNoMore(s: State, sight: Sight, id: nat)
    requires s.pass.pc.OpeningSettled?
    ensures HoldsNoMore(s, OpenSettled(s, sight), id)
  {
  }

  lemma GateHoldsNoMore(s: State, sight: Sight, id: nat)
    requires s.pass.pc.GateWrite?
    ensures HoldsNoMore(s, FinishGateWrite(s, sight), id)
  {
    var it, t := s.pass.pc.it, FinishGateWrite(s, sight);
    assert t.journal == s.journal || t.journal == Restore(s.journal, it);
    assert Captured(t.pass) <= Captured(s.pass);
    HoldingLess(s, t, id);
  }

  lemma StaleHoldsNoMore(s: State, sight: Sight, id: nat)
    requires s.pass.pc.Clearing? || s.pass.pc.StaleRemoval?
    ensures HoldsNoMore(s, ReplayStep(s, sight), id)
  {
    var it, t := s.pass.pc.it, ReplayStep(s, sight);
    assert t.journal == s.journal || t.journal == Remove(s.journal, it.id) || t.journal == Restore(s.journal, it);
    assert Captured(t.pass) <= Captured(s.pass);
    HoldingLess(s, t, id);
  }

  lemma PreparedHoldsNoMore(s: State, sight: Sight, id: nat)
    requires s.pass.pc.PreparedRemoval?
    ensures HoldsNoMore(s, FinishRemoval(s, sight), id)
  {
    var it, t := s.pass.pc.it, FinishRemoval(s, sight);
    if s.pass.pc.ok {
      assert t.journal == Remove(s.journal, it.id) && Captured(t.pass) <= Captured(s.pass);
      HoldingLess(s, t, id);
    } else {
      RetireHoldsNoMore(s, sight, s.pass.pc.changed, it, id);
      assert t == RetireOrQuarantine(s, sight, s.pass.pc.changed, it);
    }
  }

  lemma LoopHoldsNoMore(s: State, sight: Sight, kept: Intent)
    requires DistinctIds(s.journal) && IsOnlyVersion(s, kept) && kept.phase.Committed? && s.pass.pc.Looping?
    ensures HoldsNoMore(s, ReplayStep(s, sight), kept.id)
  {
    if s.pass.todo == [] {
      assert EndLoop(s).journal == s.journal && Captured(EndLoop(s).pass) == {};
      HoldingLess(s, EndLoop(s), kept.id);
    } else {
      var taken := TakeEntry(s);
      assert s.pass.todo == [s.pass.todo[0]] + s.pass.todo[1..];
      assert Captured(taken.pass) == Captured(s.pass);
      ProcessHoldsNoMore(taken, sight, kept);
    }
  }

  lemma QuietHoldsNoMore(s: State, sight: Sight, id: nat)
    requires || s.pass.pc.Idle? || s.pass.pc.OpeningJournal? || s.pass.pc.PreparingRemoval? || s.pass.pc.RemovalWrite?
             || s.pass.pc.Committing? || s.pass.pc.LastWrite?
    ensures HoldsNoMore(s, ReplayStep(s, sight), id)
  {
    var t := ReplayStep(s, sight);
    assert t.journal == s.journal && Captured(t.pass) <= Captured(s.pass);
    HoldingLess(s, t, id);
  }

  lemma ReplayHoldsNoMore(s: State, sight: Sight, kept: Intent)
    requires DistinctIds(s.journal) && IsOnlyVersion(s, kept) && kept.phase.Committed?
    ensures HoldsNoMore(s, ReplayStep(s, sight), kept.id)
  {
    match s.pass.pc
    case Looping(_) => LoopHoldsNoMore(s, sight, kept);
    case AtEntry(_, _) => ProcessHoldsNoMore(s, sight, kept);
    case Attempting(_, _, at) =>
      if at.AtCas? {
        CasHoldsNoMore(s, sight, kept);
      } else {
        AdvanceHoldsNoMore(s, sight, kept.id);
      }
    case OpeningSettled(_) => OpenHoldsNoMore(s, sight, kept.id);
    case PreparedRemoval(_, _, _) => PreparedHoldsNoMore(s, sight, kept.id);
    case GateWrite(_, _, _) => GateHoldsNoMore(s, sight, kept.id);
    case Clearing(_, _, _, _) => StaleHoldsNoMore(s, sight, kept.id);
    case StaleRemoval(_, _) => StaleHoldsNoMore(s, sight, kept.id);
    case _ => QuietHoldsNoMore(s, sight, kept.id);
  }

  lemma AdvanceHoldsNoMore(s: State, sight: Sight, id: nat)
    requires s.pass.pc.Attempting? && !s.pass.pc.at.AtCas?
    ensures HoldsNoMore(s, AdvanceAttempt(s, sight), id)
  {
    assert AdvanceAttempt(s, sight).journal == s.journal;
  }

  // ---------------------------------------------------------------------------
  // Keeping a committed entry
  // ---------------------------------------------------------------------------

  /**
   * The committed entry is durable at every crash point, memory knows no other
   * version of it, and memory of an attached journal lists it.
   */
  ghost predicate IsKept(s: State, it: Intent) {
    && it.phase.Committed?
    && JournalHolds(s.pend, it.scope, it)
    && IsOnlyVersion(s, it)
    && (s.pend.store.Some? && s.pend.store.value.key == it.scope ==> it in s.journal)
  }

  /** A step that keeps the entry in memory keeps it durable. */
  lemma PendStepKeeps(s: State, t: State, it: Intent)
    requires IsKept(s, it) && PendStep(s, t) && IsOnlyVersion(t, it)
    requires it in s.journal ==> it in t.journal
    ensures IsKept(t, it)
  {
    forall i | |s.pend.log| <= i < |t.pend.log| && t.pend.log[i].store.key == it.scope
      ensures Lists(t.pend.log[i].snapshot, it)
    {
      assert it in t.journal;
    }
    EvolvingHolds(s.pend, t.pend, it.scope, it);
  }

  lemma RecordingLeaves(s: State, file: LocalEvent, it: Intent)
    requires SafetyInv(s) && IsKept(s, it)
    ensures forall e :: e in Recording(s, file) && e.id == it.id ==> e in s.journal
    ensures it in s.journal ==> it in Recording(s, file)
  {
    JournaledIdsAreOld(s);
    RecordingTouchesOnlyReady(s, file);
    assert it in Copies(s);
    TouchingLeavesKept(s, Recording(s, file), it);
  }

  lemma TouchingLeavesKept(s: State, j: seq<Intent>, it: Intent)
    requires TouchesOnlyReady(s.journal, j, {s.nextId, s.nextId + 1}, s.settings)
    requires IsOnlyVersion(s, it) && it.phase.Committed? && it.id < s.nextId
    ensures forall e :: e in j && e.id == it.id ==> e in s.journal
    ensures it in s.journal ==> it in j
  {
    forall e | e in j && e.id == it.id
      ensures e in s.journal
    {
      if e !in s.journal && ReadyTwin(s.journal, e) {
        var r :| r in s.journal && r.id == e.id && r.scope == e.scope && r.phase.Ready?;
        assert IsHeld(s, r);
      }
    }
  }

  /** A load of the entry's own scope brings it back, and no other version of it. */
  lemma LoadListsKept(s: State, a: nat, it: Intent)
    requires SafetyInv(s) && IsKept(s, it) && AdoptEnabled(s.pend, s.g, s.settings, a)
    requires s.pend.loads[a].store.key == it.scope
    ensures it in AdoptedEntries(s, a)
    ensures forall e :: e in AdoptedEntries(s, a) && e.id == it.id ==> e == it
  {
    var load := s.pend.loads[a];
    assert IsLive(s.pend, s.g, a);
    var loaded := load.pc.result.value;
    var memory := Entries(s.journal, it.scope);
    assert it in loaded;
    EntriesAreScoped(s.journal, it.scope);
    MergeIsUnion(loaded, memory);
    forall e | e in loaded && e.id == it.id
      ensures e == it
    {
      EntryIsUnique(loaded, e, it);
    }
  }

  /** A load of another scope knows nothing of the entry. */
  lemma ForeignLoadLeaves(s: State, a: nat, it: Intent)
    requires SafetyInv(s) && IsKept(s, it) && AdoptEnabled(s.pend, s.g, s.settings, a)
    requires s.pend.loads[a].store.key != it.scope
    ensures forall e :: e in AdoptedEntries(s, a) ==> e.id != it.id
  {
    AdoptedEntriesAreCopies(s, a);
    assert it in Copies(s);
  }

  lemma AdoptedVersions(s: State, a: nat, it: Intent)
    requires SafetyInv(s) && IsKept(s, it) && AdoptEnabled(s.pend, s.g, s.settings, a)
    ensures var t := AdoptJournal(s, a);
            && IsOnlyVersion(t, it)
            && (it in s.journal || s.pend.loads[a].store.key == it.scope ==> it in t.journal)
            && (s.pend.loads[a].store.key == it.scope ==> it in AdoptedEntries(s, a))
  {
    var key, t := s.pend.loads[a].store.key, AdoptJournal(s, a);
    if key == it.scope {
      LoadListsKept(s, a, it);
    } else {
      ForeignLoadLeaves(s, a, it);
    }
    assert t.journal == Filter(s.journal, (e: Intent) => e.scope != key) + AdoptedEntries(s, a);
    assert t.pass == s.pass;
    forall e | IsHeld(t, e) && e.id == it.id
      ensures e == it
    {
      assert e in AdoptedEntries(s, a) || IsHeld(s, e);
    }
  }

  lemma AdoptionKeeps(s: State, a: nat, it: Intent)
    requires SafetyInv(s) && IsKept(s, it) && AdoptEnabled(s.pend, s.g, s.settings, a)
    ensures IsKept(AdoptJournal(s, a), it)
  {
    var t := AdoptJournal(s, a);
    AdoptedVersions(s, a, it);
    AdoptEvolves(s, a);
    AdoptAttaches(s, a);
    EvolvingHolds(s.pend, t.pend, it.scope, it);
  }

  lemma AdoptAttaches(s: State, a: nat)
    requires AdoptEnabled(s.pend, s.g, s.settings, a)
    ensures AdoptJournal(s, a).pend.store == Some(s.pend.loads[a].store)
    ensures forall i :: |s.pend.log| <= i < |AdoptJournal(s, a).pend.log| ==>
              AdoptJournal(s, a).pend.log[i].store == s.pend.loads[a].store
  {
  }

  /** Every step that does not take the entry out of memory keeps it durable, a crash and a scope switch included. */
  lemma StepKeeps(s: State, e: Event, it: Intent)
    requires SafetyInv(s) && IsKept(s, it) && Enabled(s, e)
    requires e.Crashes? || (it in s.journal ==> it in Step(s, e).journal)
    ensures IsKept(Step(s, e), it)
  {
    var t := Step(s, e);
    if e.JournalAdopts? {
      AdoptionKeeps(s, e.load, it);
      assert t == AdoptJournal(s, e.load);
    } else {
      StepPends(s, e);
      StepVersions(s, e, it);
      if e.Crashes? {
        CrashKeeps(s, it);
        assert t == CrashState(s);
      } else {
        PendStepKeeps(s, t, it);
      }
    }
  }

  lemma CrashKeeps(s: State, it: Intent)
    requires IsKept(s, it) && s.pend.done <= |s.pend.log| && s.sett.done <= |s.sett.log|
    ensures IsKept(CrashState(s), it)
  {
  }

  lemma StepVersions(s: State, e: Event, it: Intent)
    requires SafetyInv(s) && IsKept(s, it) && Enabled(s, e) && !e.JournalAdopts?
    ensures IsOnlyVersion(Step(s, e), it)
  {
    var t := Step(s, e);
    if e.Replays? {
      ReplayHoldsNoMore(s, e.sight, it);
      HoldingNoMore(s, t, it);
    } else if e.Local? {
      RecordingLeaves(s, e.file, it);
      RecordHoldsNoMore(s, e.file, e.opens, it);
    } else {
      OtherStepsLeaveMemory(s, e);
      SameMemoryVersions(s, t, it);
    }
  }

  lemma SameMemoryVersions(s: State, t: State, it: Intent)
    requires IsOnlyVersion(s, it)
    requires (t.journal == s.journal || t.journal == []) && (t.pass == s.pass || t.pass == IDLE_PASS)
    ensures IsOnlyVersion(t, it)
  {
  }

  lemma OtherStepsLeaveMemory(s: State, e: Event)
    requires Enabled(s, e) && !e.Replays? && !e.Local? && !e.JournalAdopts?
    ensures Step(s, e).journal == s.journal || Step(s, e).journal == []
    ensures Step(s, e).pass == s.pass || Step(s, e).pass == IDLE_PASS
  {
  }

  lemma RecordHoldsNoMore(s: State, file: LocalEvent, opens: bool, it: Intent)
    requires IsOnlyVersion(s, it)
    requires forall e :: e in Recording(s, file) && e.id == it.id ==> e in s.journal
    ensures IsOnlyVersion(PersistRecorded(s, Recording(s, file), opens), it)
  {
    var t := PersistRecorded(s, Recording(s, file), opens);
    assert t.pass == s.pass;
    assert t.journal == s.journal || t.journal == Recording(s, file);
  }

  // ---------------------------------------------------------------------------
  // Confirmed removals
  // ---------------------------------------------------------------------------

  function FenceClaim(it: Intent): Claim {
    Claim(it.scope, FenceOf(it))
  }

  /** The entry itself is in the durable record of its scope. */
  ghost predicate IsEntryDurable(s: State, it: Intent) {
    it.scope in s.pend.durable && it in s.pend.durable[it.scope]
  }

  /**
   * The fence of an entry about to leave the journal is saved: its write was
   * awaited, or the settled lane is healthy and memory fences the path by a stage
   * that no refused preparation put there since the last write.
   */
  predicate IsSaved(s: State, it: Intent) {
    || FenceClaim(it) in s.claims
    || (s.sett.healthy && s.g.identity == Some(it.scope) && Protects(s.mem, FenceOf(it)) && SourcePath(it) !in s.unsaved)
  }

  /** The end of the confirmed removal of an entry. */
  predicate RemovesConfirmed(s: State, e: Event, it: Intent) {
    e.Replays? && s.pass.pc.PreparedRemoval? && s.pass.pc.ok && s.pass.pc.it == it
  }

  lemma ConfirmedRemovalClaims(s: State, e: Event, it: Intent)
    requires SafetyInv(s) && Enabled(s, e) && RemovesConfirmed(s, e, it) && IsSaved(s, it)
    ensures FenceClaim(it) in Step(s, e).claims
  {
    assert Step(s, e) == FinishRemoval(s, e.sight);
  }

  /**
   * A run in which the entry leaves memory only by a confirmed removal with its
   * fence saved, or by a crash, and a confirmed fence is not given up.
   */
  predicate RemovesOnlyConfirmed(s: State, es: seq<Event>, it: Intent)
    decreases |es|
  {
    if es == [] then true
    else if !Enabled(s, es[0]) then false
    else
      var t := Step(s, es[0]);
      && (es[0].Crashes? || (it in s.journal ==> it in t.journal) || (RemovesConfirmed(s, es[0], it) && IsSaved(s, it)))
      && (FenceClaim(it) in s.claims ==> FenceClaim(it) in t.claims)
      && RemovesOnlyConfirmed(t, es[1..], it)
  }

  lemma {:induction false} KeptOrClaimedThroughout(s: State, es: seq<Event>, t: State, it: Intent)
    requires SafetyInv(s) && IsRun(s, es, t) && RemovesOnlyConfirmed(s, es, it)
    requires IsKept(s, it) || FenceClaim(it) in s.claims
    ensures IsKept(t, it) || FenceClaim(it) in t.claims
    decreases |es|
  {
    if es != [] {
      var u := Step(s, es[0]);
      StepIsSafe(s, es[0]);
      if FenceClaim(it) !in u.claims {
        if RemovesConfirmed(s, es[0], it) && IsSaved(s, it) {
          ConfirmedRemovalClaims(s, es[0], it);
        } else {
          StepKeeps(s, es[0], it);
        }
      }
      KeptOrClaimedThroughout(u, es[1..], t, it);
    }
  }

  /** When the removal of an entry is being prepared, what the durable journal holds is all it takes to keep it. */
  lemma PreparationKeeps(s: State)
    requires SafetyInv(s) && (s.pass.pc.PreparingRemoval? || s.pass.pc.PreparedRemoval?)
    requires JournalHolds(s.pend, s.pass.scope, s.pass.pc.it)
    ensures IsKept(s, s.pass.pc.it)
  {
    var it := s.pass.pc.it;
    forall e | IsHeld(s, e) && e.id == it.id
      ensures e == it
    {
      if e in s.journal {
        EntryIsUnique(s.journal, e, it);
      }
    }
  }

  lemma RunReaches(s: State, es: seq<Event>, t: State)
    requires Reachable(s) && IsRun(s, es, t)
    ensures Reachable(t)
  {
    var settings, journals, settled, nextId, before :|
      GoodJournals(journals, nextId) && IsRun(Start(settings, journals, settled, nextId), before, s);
    RunsCompose(Start(settings, journals, settled, nextId), before, s, es, t);
  }

  lemma RunStarts(s: State, all: seq<Event>, e: Event, rest: seq<Event>, w: State, u: State)
    requires all == [e] + rest && Enabled(s, e) && w == Step(s, e) && IsRun(w, rest, u)
    ensures IsRun(s, all, u)
  {
    assert all[0] == e && all[1..] == rest;
  }

  lemma FirstEvent(es: seq<Event>, fs: seq<Event>)
    ensures es + fs == if es == [] then fs else [es[0]] + (es[1..] + fs)
  {
  }

  /** A run ends in one state. */
  lemma {:induction false} RunsAgree(s: State, es: seq<Event>, t: State, u: State)
    requires IsRun(s, es, t) && IsRun(s, es, u)
    ensures t == u
    decreases |es|
  {
    if es != [] {
      RunsAgree(Step(s, es[0]), es[1..], t, u);
    }
  }

  lemma {:induction false} RunsCompose(s: State, es: seq<Event>, t: State, fs: seq<Event>, u: State)
    requires IsRun(s, es, t) && IsRun(t, fs, u)
    ensures IsRun(s, es + fs, u)
    decreases |es|
  {
    FirstEvent(es, fs);
    if es != [] {
      RunsCompose(Step(s, es[0]), es[1..], t, fs, u);
      RunStarts(s, es + fs, es[0], es[1..] + fs, Step(s, es[0]), u);
    }
  }

  /**
   * Receipt-confirmed removal is safe at every crash point. In every run from the
   * preparation of a removal on, rename or delete, in which the entry leaves
   * memory only by that removal with its fence saved, each state has the committed
   * entry in the durable journal, or a retire stage for its source with its ref
   * and version in the durable settled record, until that fence is given up.
   */
  lemma ConfirmedRemovalIsCrashSafe(s: State, es: seq<Event>, t: State, it: Intent)
    requires Reachable(s) && (s.pass.pc.PreparingRemoval? || s.pass.pc.PreparedRemoval?) && s.pass.pc.it == it
    requires JournalHolds(s.pend, it.scope, it)
    requires IsRun(s, es, t) && RemovesOnlyConfirmed(s, es, it)
    ensures IsEntryDurable(t, it) || IsDurable(t.sett, FenceClaim(it))
  {
    ReachableIsSafe(s);
    PreparationKeeps(s);
    KeptOrClaimedThroughout(s, es, t, it);
    RunReaches(s, es, t);
    KeptOrClaimedIsDurable(t, it);
  }

  lemma KeptOrClaimedIsDurable(s: State, it: Intent)
    requires Reachable(s) && (IsKept(s, it) || FenceClaim(it) in s.claims)
    ensures IsEntryDurable(s, it) || IsDurable(s.sett, FenceClaim(it))
  {
    if FenceClaim(it) in s.claims {
      ClaimsAreDurable(s, FenceClaim(it));
    }
  }

  /** On a healthy settled lane what fences a path in memory is durable exactly when no refused preparation put it there. */
  lemma FenceIsDurableIff(s: State, it: Intent)
    requires LanesInv(s) && SyncInv(s) && s.sett.healthy && s.g.identity == Some(it.scope) && Protects(s.mem, FenceOf(it))
    ensures IsDurable(s.sett, FenceClaim(it)) <==> SourcePath(it) !in s.unsaved
  {
  }

  /** A removal with a healthy settled lane leaves its fence durable exactly when no refused preparation put it there. */
  lemma RemovalLeavesFenceIff(s: State, sight: Sight)
    requires Reachable(s) && s.pass.pc.PreparedRemoval? && s.pass.pc.ok
    requires s.sett.healthy && s.g.identity == Some(s.pass.scope) && Protects(s.mem, FenceOf(s.pass.pc.it))
    ensures IsDurable(ReplayStep(s, sight).sett, FenceClaim(s.pass.pc.it)) <==> SourcePath(s.pass.pc.it) !in s.unsaved
  {
    ReachableProtects(s);
    ReachableIsSafe(s);
    FenceIsDurableIff(s, s.pass.pc.it);
    assert FinishRemoval(s, sight).sett == s.sett;
  }

  /** On a healthy journal lane the entry is held exactly when the last snapshot of its scope lists it. */
  lemma HealthyJournalHoldsIff(s: State, it: Intent)
    requires Reachable(s) && s.pend.healthy && s.g.identity == Some(it.scope)
    ensures it.scope in s.pend.last
    ensures JournalHolds(s.pend, it.scope, it) <==> Lists(s.pend.last[it.scope], it)
  {
    ReachableIsSafe(s);
  }

  // ---------------------------------------------------------------------------
  // Retirements that gate a path
  // ---------------------------------------------------------------------------

  function GateClaim(it: Intent): Claim {
    Claim(it.scope, DownloadGate(SourcePath(it)))
  }

  /** The durable journal of its scope lists the intent. */
  ghost predicate IsListedDurably(s: State, it: Intent) {
    it.scope in s.pend.durable && Lists(s.pend.durable[it.scope], it)
  }

  /**
   * One step of a run that keeps the last fence: it enqueues no journal snapshot
   * without the intent before the gate is confirmed, and does not lift a confirmed
   * gate.
   */
  ghost predicate KeepsCover(s: State, t: State, it: Intent) {
    && (GateClaim(it) in s.claims ==> GateClaim(it) in t.claims)
    && (GateClaim(it) in t.claims || AppendsLists(s.pend, t.pend, it.scope, it))
  }

  ghost predicate KeepsCoverThroughout(s: State, es: seq<Event>, it: Intent)
    decreases |es|
  {
    es == [] || (Enabled(s, es[0]) && KeepsCover(s, Step(s, es[0]), it) && KeepsCoverThroughout(Step(s, es[0]), es[1..], it))
  }

  lemma StepEvolves(s: State, e: Event)
    requires SafetyInv(s) && Enabled(s, e)
    ensures Evolves(s.pend, Step(s, e).pend)
  {
    if e.JournalAdopts? {
      AdoptEvolves(s, e.load);
      assert Step(s, e) == AdoptJournal(s, e.load);
    } else {
      StepPends(s, e);
    }
  }

  lemma {:induction false} CoveredThroughout(s: State, es: seq<Event>, t: State, it: Intent)
    requires SafetyInv(s) && IsRun(s, es, t) && KeepsCoverThroughout(s, es, it)
    requires JournalHolds(s.pend, it.scope, it) || GateClaim(it) in s.claims
    ensures JournalHolds(t.pend, it.scope, it) || GateClaim(it) in t.claims
    decreases |es|
  {
    if es != [] {
      var u := Step(s, es[0]);
      StepIsSafe(s, es[0]);
      if GateClaim(it) !in u.claims {
        StepEvolves(s, es[0]);
        EvolvingHolds(s.pend, u.pend, it.scope, it);
      }
      CoveredThroughout(u, es[1..], t, it);
    }
  }

  /**
   * Retiring an intent whose path has a live remote ref never drops its last
   * durable fence: in every run from the gate write on, in which nobody enqueues a
   * journal snapshot without the intent before the gate is confirmed or lifts the
   * confirmed gate, each state has the intent in the durable journal or the path
   * in the durable download gate.
   */
  lemma RetirementNeverDropsTheLastFence(s: State, es: seq<Event>, t: State, it: Intent)
    requires Reachable(s) && s.pass.pc.GateWrite? && s.pass.pc.gateAdded && s.pass.pc.it == it
    requires JournalHolds(s.pend, it.scope, it)
    requires IsRun(s, es, t) && KeepsCoverThroughout(s, es, it)
    ensures IsListedDurably(t, it) || IsDurable(t.sett, GateClaim(it))
  {
    ReachableIsSafe(s);
    CoveredThroughout(s, es, t, it);
    RunReaches(s, es, t);
    ReachableProtects(t);
  }

  /** The retirement begins by writing the gate: the journal lane is as it was, and the write awaited is that gate's. */
  lemma GateWriteBeginsCovered(s: State, it: Intent, d: Disposition)
    requires d.AuthorityMoved? && SourcePath(it) !in s.mem.gate && s.settings == it.scope && JournalHolds(s.pend, it.scope, it)
    ensures var t := RetireStuck(s, it, d);
            && t.pass.pc.GateWrite? && t.pass.pc.gateAdded && t.pass.pc.it == it
            && JournalHolds(t.pend, it.scope, it)
            && (t.pass.pc.write.Some? ==> t.pending == Some((GateClaim(it), t.pass.pc.write.value)))
  {
    var t := RetireStuck(s, it, d);
    var dropped := DropEpisode(s, it, d, GateWrite(it, None, true));
    assert t == WriteGate(dropped);
    EnqueueSettledPends(s, dropped, t);
    assert |t.pend.log| == |s.pend.log|;
    EvolvingHolds(s.pend, t.pend, it.scope, it);
  }

  /** The engine itself never breaks the cover: waiting appends nothing, success confirms the gate, failure writes nothing. */
  lemma GateWriteKeepsCover(s: State, sight: Sight)
    requires Reachable(s) && s.pass.pc.GateWrite? && s.pass.pc.gateAdded
    requires IsOk(s.sett, s.pass.pc.write) ==> s.pending == Some((GateClaim(s.pass.pc.it), s.pass.pc.write.value))
    ensures KeepsCover(s, ReplayStep(s, sight), s.pass.pc.it)
  {
    var t := ReplayStep(s, sight);
    assert t == FinishGateWrite(s, sight);
    if IsOk(s.sett, s.pass.pc.write) {
      AcknowledgedGateIsDurable(s, sight);
      RemovalWriteKeepsClaims(ConfirmPending(s));
    }
  }

  lemma EnqueueAppendsOne(s: State)
    requires EnqueueJournal(s).write.Some?
    ensures var l := EnqueueJournal(s).state.pend;
            && |l.log| == |s.pend.log| + 1 && l.done == s.pend.done
            && l.log[|s.pend.log|].store.key == s.settings
            && l.log[|s.pend.log|].snapshot == Entries(s.journal, s.settings)
  {
  }

  lemma EnqueueKeepsIff(s: State, it: Intent)
    requires s.pend.done <= |s.pend.log|
    requires JournalHolds(s.pend, it.scope, it) && s.settings == it.scope && EnqueueJournal(s).write.Some?
    ensures JournalHolds(EnqueueJournal(s).state.pend, it.scope, it) <==> Lists(Entries(s.journal, it.scope), it)
  {
    EnqueueJournalPends(s);
    EnqueueAppendsOne(s);
    var l := EnqueueJournal(s).state.pend;
    if Lists(Entries(s.journal, it.scope), it) {
      EvolvingHolds(s.pend, l, it.scope, it);
    }
  }

  /** The proviso is exact: a journal snapshot enqueued meanwhile ends the cover unless it still lists the intent. */
  lemma InterveningSnapshotEndsTheCoverIff(s: State, it: Intent)
    requires Reachable(s) && JournalHolds(s.pend, it.scope, it) && s.settings == it.scope && EnqueueJournal(s).write.Some?
    ensures JournalHolds(EnqueueJournal(s).state.pend, it.scope, it) <==> Lists(Entries(s.journal, it.scope), it)
  {
    ReachableIsSafe(s);
    EnqueueKeepsIff(s, it);
  }
}
