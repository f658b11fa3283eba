/**
 * What single steps of the attachment engine lead to, said by what can be seen
 * before and after them: which intents leave the journal in memory and why, what
 * the end of an awaited write does, and what a mutation requires
 * (src/main.ts:899-3288).
 */
module EngineOutcomes {
  import opened Wrappers
  import opened Authority
  import opened Lanes
  import opened BlobRefs
  import opened Journal
  import opened Settlements
  import opened OwedMutations
  import opened Engine
  import opened EngineSafety
  import opened EngineTheorems

  // ---------------------------------------------------------------------------
  // Awaited writes
  // ---------------------------------------------------------------------------

  /** The write was refused outright, or its promise settled without success. */
  predicate HasFailed<S>(l: Lane<S>, w: Awaited) {
    w.None? || (0 < w.value <= l.done <= |l.log| && l.log[w.value - 1].outcome != Succeeded)
  }

  predicate HasSucceeded<S>(l: Lane<S>, w: Awaited) {
    w.Some? && 0 < w.value <= l.done <= |l.log| && l.log[w.value - 1].outcome == Succeeded
  }

  lemma SettledWrite<S>(l: Lane<S>, w: Awaited)
    ensures HasFailed(l, w) ==> IsDone(l, w) && !IsOk(l, w)
    ensures HasSucceeded(l, w) ==> IsDone(l, w) && IsOk(l, w)
  {
  }

  /** The pass still runs under the authority it started with. */
  predicate IsAuthorized(s: State, sight: Sight) {
    sight.bound && s.pass.token == Token(s.g.identity, s.g.epoch) && Identity(s.settings) == s.g.identity
  }

  predicate HasEnded(t: State) {
    t.pass.pc == Idle && t.pass.todo == []
  }

  /** The loop goes on to the next captured entry if the pass is still authorized; otherwise the pass ends. */
  predicate GoesOn(s: State, t: State, sight: Sight, changed: bool) {
    if IsAuthorized(s, sight) then t.pass == s.pass.(pc := Looping(changed)) else HasEnded(t)
  }

  // ---------------------------------------------------------------------------
  // Stale intents
  // ---------------------------------------------------------------------------

  /** The write was accepted as the newest of the journal lane, and saves what memory now holds for the scope. */
  ghost predicate IsSnapshotted(s: State, t: State, w: Awaited) {
    w.Some? ==>
      && w.value == |t.pend.log| == |s.pend.log| + 1 && t.pend.tail == w.value && !t.pend.healthy
      && t.pend.log[w.value - 1].store.key == s.settings
      && forall e :: e in t.pend.log[w.value - 1].snapshot <==> e in t.journal && e.scope == s.settings
  }

  /** The write was accepted as the newest of the settled lane, and saves what memory now holds. */
  predicate IsSettledSaved(s: State, t: State, w: Awaited) {
    w.Some? ==> w.value == |t.sett.log| && IsSettledSnapshot(s, t)
  }

  lemma SettledIsSaved(s: State, s1: State)
    requires s1.sett == s.sett && s1.settings == s.settings && s1.g == s.g
    ensures IsSettledSaved(s, EnqueueSettled(s1).state, EnqueueSettled(s1).write)
  {
  }

  /** An entry came back into memory: it is listed, in its own version unless another one was there, and nothing was lost. */
  ghost predicate IsRestored(s: State, t: State, it: Intent) {
    && HasId(t.journal, it.id) && (!HasId(s.journal, it.id) ==> it in t.journal)
    && forall e :: e in s.journal ==> e in t.journal
  }

  lemma RestoringRestores(s: State, it: Intent)
    ensures IsRestored(s, s.(journal := Restore(s.journal, it)), it)
  {
    assert it in s.journal + [it];
  }

  /** A stale intent whose removal could not be saved is put back into memory, and the pass ends. */
  lemma FailedRemovalRestoresTheIntent(s: State, sight: Sight)
    requires s.pass.pc.StaleRemoval? && HasFailed(s.pend, s.pass.pc.write)
    ensures var t := Step(s, Replays(sight));
            IsRestored(s, t, s.pass.pc.it) && HasEnded(t) && t.pend == s.pend && t.mem == s.mem
  {
    SettledWrite(s.pend, s.pass.pc.write);
    RestoringRestores(s, s.pass.pc.it);
  }

  /** The occupant that made the intent stale is gone, and nobody of the scope speaks for its path. */
  ghost predicate PathIsLeft(s: State, sight: Sight, it: Intent) {
    && !sight.occupantStays
    && !exists e :: e in s.journal && e.scope == s.pass.scope
                    && (SourcePath(it) == SourcePath(e) || (SourcePath(it) in Paths(e) && !e.phase.Committed?))
  }

  /**
   * Once its removal was saved, a stale intent comes back exactly when the pass is
   * still authorized, its occupant has left meanwhile and nobody speaks for its
   * path; the journal with it is then enqueued, and the pass ends with that write.
   */
  lemma SavedRemovalIsRevertedIff(s: State, sight: Sight)
    requires s.pass.pc.StaleRemoval? && HasSucceeded(s.pend, s.pass.pc.write)
    ensures var t, it := Step(s, Replays(sight)), s.pass.pc.it;
            && (IsAuthorized(s, sight) && PathIsLeft(s, sight, it) ==>
                  && IsRestored(s, t, it) && t.pass.todo == [] && t.pass.pc.LastWrite?
                  && IsSnapshotted(s, t, t.pass.pc.write))
            && (!(IsAuthorized(s, sight) && PathIsLeft(s, sight, it)) ==>
                  t.journal == s.journal && t.pend == s.pend && GoesOn(s, t, sight, false))
  {
    SettledWrite(s.pend, s.pass.pc.write);
    RestoringRestores(s, s.pass.pc.it);
    HasPathIff(s.journal, SourcePath(s.pass.pc.it), s.pass.scope);
  }

  /** Both final writes of an attempt were saved. */
  predicate FinalsSaved(s: State, j: Awaited, m: Awaited) {
    HasSucceeded(s.pend, j) && HasSucceeded(s.sett, m)
  }

  predicate FinalsFailed(s: State, j: Awaited, m: Awaited) {
    HasFailed(s.pend, j) || HasFailed(s.sett, m)
  }

  /** The exact removal of one identity. */
  ghost predicate IsWithout(j: seq<Intent>, j': seq<Intent>, id: nat) {
    !HasId(j', id) && forall e: Intent :: e.id != id ==> (e in j' <==> e in j)
  }

  lemma RemovingIsWithout(j: seq<Intent>, id: nat)
    requires DistinctIds(j)
    ensures IsWithout(j, Remove(j, id), id)
  {
    RemoveIsExact(j, id);
  }

  /**
   * An attempt proved to have changed nothing: once its two writes are saved the
   * ready intent is retired, with the journal without it enqueued, exactly when the
   * disk had made it stale, the same occupant is still there and the pass is
   * authorized; it stays otherwise. A failed write ends the pass.
   */
  lemma ClearedAttemptIsRetiredIff(s: State, sight: Sight)
    requires s.pass.pc.Clearing? && DistinctIds(s.journal)
    ensures var t, pc := Step(s, Replays(sight)), s.pass.pc;
            && (FinalsFailed(s, pc.journalWrite, pc.settledWrite) ==> HasEnded(t) && t.journal == s.journal)
            && (FinalsSaved(s, pc.journalWrite, pc.settledWrite) ==>
                  if IsAuthorized(s, sight) && pc.stale && sight.occupantStays && HasId(s.journal, pc.it.id) then
                    && IsWithout(s.journal, t.journal, pc.it.id)
                    && t.pass.pc.StaleRemoval? && t.pass.pc.it == pc.it && t.pass.todo == s.pass.todo
                    && IsSnapshotted(s, t, t.pass.pc.write)
                  else
                    && t.journal == s.journal
                    && (if pc.stale && sight.occupantStays then HasEnded(t) else GoesOn(s, t, sight, false)))
  {
    var pc := s.pass.pc;
    SettledWrite(s.pend, pc.journalWrite);
    SettledWrite(s.sett, pc.settledWrite);
    RemovingIsWithout(s.journal, pc.it.id);
  }

  // ---------------------------------------------------------------------------
  // Retirements
  // ---------------------------------------------------------------------------

  /**
   * After the gate's write: a gate that is new and was not saved puts the intent
   * back, without a journal write; in every other case the journal without the
   * intent is enqueued.
   */
  lemma GateWriteDecides(s: State, sight: Sight)
    requires s.pass.pc.GateWrite?
    ensures var t, pc := ReplayStep(s, sight), s.pass.pc;
            && (HasFailed(s.sett, pc.write) && pc.gateAdded ==>
                  && IsRestored(s, t, pc.it) && t.pend == s.pend && t.mem == s.mem && GoesOn(s, t, sight, true))
            && (HasSucceeded(s.sett, pc.write) || (HasFailed(s.sett, pc.write) && !pc.gateAdded) ==>
                  && t.journal == s.journal && t.pass.pc.RemovalWrite? && t.pass.todo == s.pass.todo
                  && IsSnapshotted(s, t, t.pass.pc.write))
  {
    assert ReplayStep(s, sight) == FinishGateWrite(s, sight);
    if HasFailed(s.sett, s.pass.pc.write) && s.pass.pc.gateAdded {
      UnsavedGateRestores(s, sight);
    } else if HasSucceeded(s.sett, s.pass.pc.write) {
      SettledWrite(s.sett, s.pass.pc.write);
      WrittenRemoval(s, ConfirmPending(s));
    } else if HasFailed(s.sett, s.pass.pc.write) {
      SettledWrite(s.sett, s.pass.pc.write);
      WrittenRemoval(s, s.(pending := None));
    }
  }

  lemma UnsavedGateRestores(s: State, sight: Sight)
    requires s.pass.pc.GateWrite? && HasFailed(s.sett, s.pass.pc.write) && s.pass.pc.gateAdded
    ensures var t := FinishGateWrite(s, sight);
            IsRestored(s, t, s.pass.pc.it) && t.pend == s.pend && t.mem == s.mem && GoesOn(s, t, sight, true)
  {
    SettledWrite(s.sett, s.pass.pc.write);
    RestoringRestores(s, s.pass.pc.it);
  }

  lemma EnqueuedSnapshot(s: State)
    ensures IsSnapshotted(s, EnqueueJournal(s).state, EnqueueJournal(s).write)
  {
  }

  lemma WrittenRemoval(s: State, s1: State)
    requires s1.pend == s.pend && s1.settings == s.settings && s1.g == s.g
    ensures var t := WriteRemoval(s1);
            t.journal == s1.journal && t.pass.pc.RemovalWrite? && t.pass.todo == s1.pass.todo
            && IsSnapshotted(s, t, t.pass.pc.write)
  {
    EnqueuedSnapshot(Suspend(s1, RemovalWrite(None)));
  }

  /** A removal that was written, or could not be, stands; an authorized pass goes on. */
  lemma RemovalStands(s: State, sight: Sight)
    requires s.pass.pc.RemovalWrite? && (HasFailed(s.pend, s.pass.pc.write) || HasSucceeded(s.pend, s.pass.pc.write))
    ensures ReplayStep(s, sight).journal == s.journal && GoesOn(s, ReplayStep(s, sight), sight, true)
  {
    SettledWrite(s.pend, s.pass.pc.write);
  }

  /** The stages that retiring the entry would take back. */
  predicate HasOwnStage(m: Settled, it: Intent) {
    exists p :: p in m.stages && (m.stages[p].id == CommittedBy(it.id) || m.stages[p].id == RenamedBy(it.id))
  }

  /** A live remote ref took over a path that is gone from disk. */
  predicate IsTakenOver(it: Intent, sight: Sight) {
    !sight.diskOccupied && SourcePath(it) in sight.remote.refs
  }

  /**
   * An entry is retired: it leaves memory with its own stages, a taken-over path is
   * gated, and the settled record is written first exactly when that changed it.
   */
  ghost predicate Retires(s: State, t: State, sight: Sight, it: Intent) {
    && IsWithout(s.journal, t.journal, it.id) && t.pass.todo == s.pass.todo
    && t.mem.refs == s.mem.refs && t.mem.versions == s.mem.versions
    && (forall p :: p in t.mem.stages <==>
          p in s.mem.stages && s.mem.stages[p].id != CommittedBy(it.id) && s.mem.stages[p].id != RenamedBy(it.id))
    && (forall p :: p in t.mem.stages ==> t.mem.stages[p] == s.mem.stages[p])
    && t.mem.gate == s.mem.gate + (if IsTakenOver(it, sight) then {SourcePath(it)} else {})
    && (if HasOwnStage(s.mem, it) || (IsTakenOver(it, sight) && SourcePath(it) !in s.mem.gate)
        then t.pass.pc.GateWrite? && t.pass.pc.it == it && IsSettledSaved(s, t, t.pass.pc.write)
             && (t.pass.pc.gateAdded <==> IsTakenOver(it, sight) && SourcePath(it) !in s.mem.gate)
        else t.pass.pc.RemovalWrite? && IsSnapshotted(s, t, t.pass.pc.write))
  }

  /** What becomes of a stuck entry: it stays, quarantined, exactly while its path is occupied and it was never attempted. */
  ghost predicate IsDecided(s: State, t: State, sight: Sight, it: Intent, changed: bool) {
    if sight.diskOccupied && !it.phase.Attempted? then t == Suspend(s, Looping(changed)) else Retires(s, t, sight, it)
  }

  lemma StagesChangeIff(m: Settled, it: Intent, d: Disposition)
    ensures RetireEpisode(m, it, d).stages == m.stages <==> !HasOwnStage(m, it)
  {
    RetirementIsExact(m, it, d);
    if !HasOwnStage(m, it) {
      assert forall p :: p in RetireEpisode(m, it, d).stages <==> p in m.stages;
    }
  }

  lemma RetirementRetires(s: State, sight: Sight, changed: bool, it: Intent)
    requires DistinctIds(s.journal) && Identity(s.settings) == s.g.identity
    ensures IsDecided(s, RetireOrQuarantine(s, sight, changed, it), sight, it, changed)
  {
    var d := DecideRetirement(it, sight.diskOccupied, SourcePath(it) in sight.remote.refs);
    if !d.Retain? {
      StuckRetires(s, it, d, sight);
      assert RetireOrQuarantine(s, sight, changed, it) == RetireStuck(s, it, d);
    }
  }

  lemma StuckRetires(s: State, it: Intent, d: Disposition, sight: Sight)
    requires DistinctIds(s.journal) && Identity(s.settings) == s.g.identity && (d == AuthorityMoved <==> IsTakenOver(it, sight))
    ensures Retires(s, RetireStuck(s, it, d), sight, it)
  {
    RemovingIsWithout(s.journal, it.id);
    RetirementIsExact(s.mem, it, d);
    StagesChangeIff(s.mem, it, d);
    WrittenRemoval(s, DropEpisode(s, it, d, RemovalWrite(None)));
    GateIsSaved(s, DropEpisode(s, it, d, GateWrite(it, None, d.AuthorityMoved? && SourcePath(it) !in s.mem.gate)));
  }

  lemma GateIsSaved(s: State, s1: State)
    requires s1.sett == s.sett && s1.settings == s.settings && s1.g == s.g && s1.pass.pc.GateWrite?
    ensures WriteGate(s1).pass.pc.GateWrite? && IsSettledSaved(s, WriteGate(s1), WriteGate(s1).pass.pc.write)
  {
    SettledIsSaved(s, s1);
  }

  // ---------------------------------------------------------------------------
  // Captured entries
  // ---------------------------------------------------------------------------

  /** Another entry of the scope that shares a path and whose mutation may have happened. */
  ghost predicate IsFencedByOther(s: State, it: Intent) {
    exists c :: c in s.journal && c.scope == s.pass.scope && c.id != it.id && c.phase != Ready && Paths(it) * Paths(c) != {}
  }

  /** A ready entry is held up by a settlement stage on one of its paths, or by another entry's uncertain mutation. */
  ghost predicate IsHeldUp(s: State, it: Intent) {
    (exists p :: p in Paths(it) && p in s.mem.stages) || IsFencedByOther(s, it)
  }

  /** An entry the pass cannot finish: attempted before, ready but held up, or committed and contradicted by disk or document. */
  ghost predicate IsStuck(s: State, sight: Sight, it: Intent) {
    match it.phase
    case Attempted(_, _, _) => true
    case Ready => IsHeldUp(s, it)
    case Committed(_, _, _, _) => sight.diskOccupied || !DocumentConfirms(it, sight.remote)
  }

  lemma HeldUpIff(s: State, it: Intent)
    ensures IsHeldUp(s, it) <==> HasSettlementStage(s.mem, it) || HasOtherFence(s.journal, s.pass.scope, it)
  {
    if HasSettlementStage(s.mem, it) {
      var p :| p in Paths(it) * s.mem.stages.Keys;
      assert p in Paths(it) && p in s.mem.stages;
    }
    if p :| p in Paths(it) && p in s.mem.stages {
      assert p in Paths(it) * s.mem.stages.Keys;
    }
    if c :| c in s.journal && c.scope == s.pass.scope && c.id != it.id && c.phase != Ready && Paths(it) * Paths(c) != {} {
      assert Overlap(it, c);
    }
    if HasOtherFence(s.journal, s.pass.scope, it) {
      var c :| c in s.journal && c.scope == s.pass.scope && c.id != it.id && !c.phase.Ready? && Overlap(it, c);
      assert Paths(it) * Paths(c) != {};
    }
  }

  /** The next captured entry, taken from the list. */
  predicate IsNext(s: State, it: Intent, changed: bool) {
    s.pass.pc == Looping(changed) && s.pass.todo != [] && s.pass.todo[0] == it
  }

  function Passed(s: State): State
    requires s.pass.todo != []
  {
    s.(pass := s.pass.(todo := s.pass.todo[1..]))
  }

  /** A stuck entry is decided by disk and document; a committed one that still waits for its receipt is passed over. */
  lemma StuckEntryIsDecided(s: State, sight: Sight, it: Intent, changed: bool)
    requires IsNext(s, it, changed) && DistinctIds(s.journal) && Identity(s.settings) == s.g.identity
    ensures IsStuck(s, sight, it) ==> IsDecided(Passed(s), ReplayStep(s, sight), sight, it, changed)
    ensures !IsStuck(s, sight, it) && it.phase.Committed? && !sight.receipt ==> ReplayStep(s, sight) == Passed(s)
  {
    var taken := TakeEntry(s);
    HeldUpIff(s, it);
    PostconditionIff(it, sight.remote);
    assert Passed(s).pass.pc == Looping(changed);
    if IsStuck(s, sight, it) {
      RetirementRetires(taken, sight, changed, it);
      assert ReplayStep(s, sight) == RetireOrQuarantine(taken, sight, changed, it);
      DecidedFrom(Passed(s), taken, RetireOrQuarantine(taken, sight, changed, it), sight, it, changed);
    }
  }

  lemma DecidedFrom(s: State, s1: State, t: State, sight: Sight, it: Intent, changed: bool)
    requires s1 == s.(pass := s1.pass) && s1.pass.todo == s.pass.todo && s1.pass.token == s.pass.token
    requires s1.pass.scope == s.pass.scope && IsDecided(s1, t, sight, it, changed)
    ensures IsDecided(s, t, sight, it, changed)
  {
  }

  /**
   * A committed entry whose removal the server confirmed is prepared: it stays
   * journaled meanwhile, and the preparation refuses exactly when a fence is in the
   * way at its source or destination.
   */
  lemma ConfirmedEntryIsPrepared(s: State, sight: Sight, it: Intent, changed: bool)
    requires IsNext(s, it, changed) && it.phase.Committed? && !IsStuck(s, sight, it) && sight.receipt
    ensures var t := ReplayStep(s, sight);
            && t.pass.pc.PreparingRemoval? && t.pass.pc.it == it && t.pass.pc.changed == changed
            && t.pass.todo == s.pass.todo[1..] && t.journal == s.journal && t.pend.log == s.pend.log
            && (t.pass.pc.prep.Refusing? <==> !(SourceIsFree(s.mem, it) && DestinationIsFree(s.mem, it, sight.remote)))
  {
    PostconditionIff(it, sight.remote);
    PreparationRefusesIff(s.mem, it, sight.remote, sight.now);
    assert ReplayStep(s, sight) == BeginRemoval(TakeEntry(s), sight, changed, it);
  }

  /**
   * What the preparation changed is in memory at once. It is being saved as a whole
   * exactly when the preparation asked for a write, and awaited before the entry may
   * leave.
   */
  lemma PreparationIsSaved(s: State, sight: Sight, it: Intent, changed: bool)
    requires Identity(s.settings) == s.g.identity
    ensures var t, p := BeginRemoval(s, sight, changed, it), Prepare(s.mem, it, sight.remote, sight.now);
            && t.mem == p.state && t.pass.pc.PreparingRemoval?
            && (t.pass.pc.prep.Waiting? <==> p.Write?)
            && (p.Write? ==> IsSettledSaved(s, t, t.pass.pc.prep.write) && (MaySettle(s) ==> t.pass.pc.prep.write.Some?))
            && (!p.Write? ==> t.sett == s.sett)
  {
    var p := Prepare(s.mem, it, sight.remote, sight.now);
    SettledIsSaved(s, TakeUp(s, it, p, PreparingRemoval(it, changed, Unwritten)));
  }

  /** Only such a preparation leads to a removal: no other segment starts one. */
  lemma OnlyConfirmedEntriesArePrepared(s: State, sight: Sight)
    requires !s.pass.pc.PreparingRemoval? && !s.pass.pc.AtEntry? && ReplayStep(s, sight).pass.pc.PreparingRemoval?
    ensures s.pass.pc.Looping? && s.pass.todo != []
    ensures var it := s.pass.todo[0];
            it.phase.Committed? && !sight.diskOccupied && DocumentConfirms(it, sight.remote) && sight.receipt
  {
    if s.pass.pc.Looping? && s.pass.todo != [] {
      PostconditionIff(s.pass.todo[0], sight.remote);
    }
  }

  /** A ready entry is marked with the next attempt and that is written ahead; where there is none to mark, the pass ends. */
  ghost predicate IsAttempted(s: State, t: State, sight: Sight, it: Intent) {
    if sight.session != "" && (exists e :: e in s.journal && e.id == it.id && e.phase == Ready) then
      && MovesTo(s.journal, t.journal, it.id, Attempted(s.nextAttempt, sight.now, sight.session))
      && t.nextAttempt == s.nextAttempt + 1
      && (HasEnded(t)
          || (&& t.pass.todo == s.pass.todo && t.pass.pc.Attempting? && t.pass.pc.it == it
              && t.pass.pc.attempt == s.nextAttempt && t.pass.pc.at.WriteAhead?
              && IsSnapshotted(s, t, Some(t.pass.pc.at.write))))
    else t.journal == s.journal && t.pend == s.pend && HasEnded(t)
  }

  /** A ready entry that nothing holds up is attempted. */
  lemma ReadyEntryIsAttempted(s: State, sight: Sight, it: Intent, changed: bool)
    requires IsNext(s, it, changed) && it.phase == Ready && !IsHeldUp(s, it) && DistinctIds(s.journal)
    ensures IsAttempted(Passed(s), ReplayStep(s, sight), sight, it)
  {
    ReadyEntryIsBegun(s, sight, it, changed);
    AttemptBegins(TakeEntry(s), sight, it);
    AttemptedFrom(Passed(s), TakeEntry(s), BeginAttempt(TakeEntry(s), sight, it), sight, it);
  }

  lemma AttemptedFrom(s: State, s1: State, t: State, sight: Sight, it: Intent)
    requires s1 == s.(pass := s1.pass) && s1.pass.todo == s.pass.todo && IsAttempted(s1, t, sight, it)
    ensures IsAttempted(s, t, sight, it)
  {
  }

  lemma ReadyEntryIsBegun(s: State, sight: Sight, it: Intent, changed: bool)
    requires IsNext(s, it, changed) && it.phase == Ready && !IsHeldUp(s, it)
    ensures ReplayStep(s, sight) == BeginAttempt(TakeEntry(s), sight, it)
  {
    HeldUpIff(s, it);
    assert ProcessEntry(TakeEntry(s), sight) == BeginAttempt(TakeEntry(s), sight, it);
  }

  lemma AttemptBegins(s: State, sight: Sight, it: Intent)
    requires DistinctIds(s.journal)
    ensures IsAttempted(s, BeginAttempt(s, sight, it), sight, it)
  {
    AttemptIsRecorded(s.journal, it.id, s.nextAttempt, sight.now, sight.session);
    MarkMoves(s.journal, it.id, IsReady(), Attempted(s.nextAttempt, sight.now, sight.session));
    if MarkAttempt(s, sight, it).ok {
      AttemptIsWrittenAhead(WithAttempt(s, sight, it), it, s.nextAttempt);
    }
  }

  lemma AttemptIsWrittenAhead(s: State, it: Intent, attempt: nat)
    ensures var t := WriteAttempt(s, it, attempt);
            && t.journal == s.journal && t.nextAttempt == s.nextAttempt
            && (HasEnded(t)
                || (&& t.pass.todo == s.pass.todo && t.pass.pc.Attempting? && t.pass.pc.it == it
                    && t.pass.pc.attempt == attempt && t.pass.pc.at.WriteAhead?
                    && IsSnapshotted(s, t, Some(t.pass.pc.at.write))))
  {
    EnqueuedSnapshot(s);
  }

  // ---------------------------------------------------------------------------
  // Confirmed removals
  // ---------------------------------------------------------------------------

  /** What a preparation answers once it returns: refused, or whether its destination is settled and unfenced by then. */
  lemma PreparationAnswers(s: State, sight: Sight)
    requires s.pass.pc.PreparingRemoval?
    ensures var t, pc := ReplayStep(s, sight), s.pass.pc;
            && t.journal == s.journal && t.mem == s.mem
            && (pc.prep.Refusing? ==> t.pass.pc == PreparedRemoval(pc.it, pc.changed, false))
            && (pc.prep.Waiting? && HasFailed(s.sett, pc.prep.write) ==> HasEnded(t))
            && (pc.prep.Unwritten? || (pc.prep.Waiting? && HasSucceeded(s.sett, pc.prep.write)) ==>
                  t.pass.pc == PreparedRemoval(pc.it, pc.changed, !NeedsDestinationStage(s.mem, pc.it, sight.remote)))
  {
    if s.pass.pc.prep.Waiting? {
      SettledWrite(s.sett, s.pass.pc.prep.write);
    }
  }

  /** A prepared entry leaves memory, and nothing else does; one that could not be prepared is decided like a stuck one. */
  lemma PreparedEntryLeaves(s: State, sight: Sight)
    requires s.pass.pc.PreparedRemoval? && DistinctIds(s.journal) && Identity(s.settings) == s.g.identity
    ensures var t, pc := ReplayStep(s, sight), s.pass.pc;
            && (pc.ok ==>
                  && IsWithout(s.journal, t.journal, pc.it.id) && t.mem == s.mem && t.pend == s.pend
                  && t.pass == s.pass.(pc := Looping(pc.changed || HasId(s.journal, pc.it.id))))
            && (!pc.ok ==> IsDecided(s, t, sight, pc.it, pc.changed))
  {
    assert ReplayStep(s, sight) == FinishRemoval(s, sight);
    if s.pass.pc.ok {
      RemovingIsWithout(s.journal, s.pass.pc.it.id);
    } else {
      UnpreparedIsDecided(s, sight);
    }
  }

  lemma UnpreparedIsDecided(s: State, sight: Sight)
    requires s.pass.pc.PreparedRemoval? && !s.pass.pc.ok && DistinctIds(s.journal) && Identity(s.settings) == s.g.identity
    ensures IsDecided(s, FinishRemoval(s, sight), sight, s.pass.pc.it, s.pass.pc.changed)
  {
    RetirementRetires(s, sight, s.pass.pc.changed, s.pass.pc.it);
  }

  // ---------------------------------------------------------------------------
  // The mutation
  // ---------------------------------------------------------------------------

  /** Everything that must hold in the segment of a mutation. */
  ghost predicate MutationIsAllowed(s: State, sight: Sight)
    requires s.pass.pc.Attempting?
  {
    var it := s.pass.pc.it;
    && IsAuthorized(s, sight) && sight.ready && s.pend.healthy && s.sett.healthy
    && (exists e :: e in s.journal && e.scope == s.pass.scope && e.id == it.id
                    && e.phase.Attempted? && e.phase.attempt == s.pass.pc.attempt)
    && (forall p :: p in Paths(it) ==> p !in s.mem.stages)
    && (forall c :: c in s.journal && c.scope == s.pass.scope && c.id != it.id ==> Paths(it) * Paths(c) == {})
  }

  lemma MutationIsAllowedIff(s: State, sight: Sight)
    requires s.pass.pc.Attempting? && DistinctIds(s.journal)
    ensures MutationIsAllowed(s, sight) <==> IsAttemptCurrent(s, sight)
  {
    var it := s.pass.pc.it;
    var entries := Entries(s.journal, s.pass.scope);
    var current := CurrentEntry(s, it.id);
    if e :| e in s.journal && e.scope == s.pass.scope && e.id == it.id
            && e.phase.Attempted? && e.phase.attempt == s.pass.pc.attempt {
      assert e in entries;
      EntryIsUnique(s.journal, e, current.value);
    }
    if current.Some? {
      assert current.value in s.journal && current.value.scope == s.pass.scope && current.value.id == it.id;
    }
    assert HasSettlementStage(s.mem, it) <==> exists p :: p in Paths(it) && p in s.mem.stages by {
      if p :| p in Paths(it) && p in s.mem.stages {
        assert p in Paths(it) * s.mem.stages.Keys;
      }
    }
    OverlapIff(s, it);
  }

  lemma OverlapIff(s: State, it: Intent)
    ensures HasOtherOverlap(s.journal, s.pass.scope, it) <==>
              !forall c :: c in s.journal && c.scope == s.pass.scope && c.id != it.id ==> Paths(it) * Paths(c) == {}
  {
    if c :| c in s.journal && c.scope == s.pass.scope && c.id != it.id && Paths(it) * Paths(c) != {} {
      assert Overlap(it, c);
    }
    if HasOtherOverlap(s.journal, s.pass.scope, it) {
      var c :| c in s.journal && c.scope == s.pass.scope && c.id != it.id && Overlap(it, c);
      assert Paths(it) * Paths(c) != {};
    }
  }

  /** One more mutation took effect: the captured entry's, in the scope of the pass. */
  predicate HasApplied(s: State, t: State)
    requires s.pass.pc.Attempting?
  {
    && |t.applied| == |s.applied| + 1 && t.applied[..|s.applied|] == s.applied
    && t.applied[|s.applied|].id == s.pass.pc.it.id && t.applied[|s.applied|].scope == s.pass.scope
    && t.applied[|s.applied|].claimed == Paths(s.pass.pc.it)
  }

  /** A mutation that is not allowed is not tried: nothing but the pass changes, and that ends. */
  lemma ForbiddenMutationEndsThePass(s: State, sight: Sight)
    requires s.pass.pc.Attempting? && s.pass.pc.at.AtCas? && DistinctIds(s.journal) && !MutationIsAllowed(s, sight)
    ensures ReplayStep(s, sight) == s.(pass := s.pass.(todo := [], pc := Idle))
  {
    MutationIsAllowedIff(s, sight);
  }

  /** A mutation that throws leaves the attempt as it is and ends the pass; it may or may not have taken effect. */
  lemma ThrowingMutationKeepsTheAttempt(s: State, sight: Sight)
    requires s.pass.pc.Attempting? && s.pass.pc.at.AtCas? && DistinctIds(s.journal) && MutationIsAllowed(s, sight)
    requires sight.cas.Throws?
    ensures var t := ReplayStep(s, sight);
            && t.journal == s.journal && t.pend == s.pend && t.sett == s.sett && t.mem == s.mem && HasEnded(t)
            && (if sight.cas.mutated then HasApplied(s, t) else t.applied == s.applied)
  {
    MutationIsAllowedIff(s, sight);
  }

  /** The attempt is undone in memory, and both records are being written. */
  ghost predicate IsCleared(s: State, t: State, stale: bool)
    requires s.pass.pc.Attempting?
  {
    && MovesTo(s.journal, t.journal, s.pass.pc.it.id, Ready) && t.applied == s.applied && t.mem == s.mem
    && t.pass.todo == s.pass.todo && t.pass.pc.Clearing? && t.pass.pc.it == s.pass.pc.it
    && t.pass.pc.stale == stale && IsSnapshotted(s, t, t.pass.pc.journalWrite)
    && IsSettledSaved(s, t, t.pass.pc.settledWrite)
  }

  /** A proof that nothing happened makes the entry ready again, and both records are written. */
  lemma ProvenNoMutationClearsTheAttempt(s: State, sight: Sight)
    requires s.pass.pc.Attempting? && s.pass.pc.at.AtCas? && DistinctIds(s.journal) && MutationIsAllowed(s, sight)
    requires sight.cas.NoMutation?
    ensures IsCleared(s, ReplayStep(s, sight), sight.cas.stale)
  {
    MutationIsAllowedIff(s, sight);
    CurrentProofClears(s, sight);
  }

  lemma CurrentProofClears(s: State, sight: Sight)
    requires s.pass.pc.Attempting? && s.pass.pc.at.AtCas? && DistinctIds(s.journal) && IsAttemptCurrent(s, sight)
    requires sight.cas.NoMutation?
    ensures IsCleared(s, ReplayStep(s, sight), sight.cas.stale)
  {
    CurrentHasAttempt(s, sight);
    ClearingClears(s, sight.cas.stale);
    CasIsClearing(s, sight);
  }

  lemma CasIsClearing(s: State, sight: Sight)
    requires s.pass.pc.Attempting? && s.pass.pc.at.AtCas? && IsAttemptCurrent(s, sight) && sight.cas.NoMutation?
    ensures ReplayStep(s, sight) == Cas(s, sight) == CasClears(s, sight.cas.stale)
  {
    AtCasStepsCas(s, sight);
    CurrentCasClears(s, sight);
  }

  lemma AtCasStepsCas(s: State, sight: Sight)
    requires s.pass.pc.Attempting? && s.pass.pc.at.AtCas?
    ensures ReplayStep(s, sight) == Cas(s, sight)
  {
  }

  lemma CurrentCasClears(s: State, sight: Sight)
    requires s.pass.pc.Attempting? && s.pass.pc.at.AtCas? && IsAttemptCurrent(s, sight) && sight.cas.NoMutation?
    ensures Cas(s, sight) == CasClears(s, sight.cas.stale)
  {
    match sight.cas
    case NoMutation(stale) => assert Cas(s, sight) == CasClears(s, stale);
  }

  lemma CurrentHasAttempt(s: State, sight: Sight)
    requires s.pass.pc.Attempting? && IsAttemptCurrent(s, sight)
    ensures exists e :: e in s.journal && e.id == s.pass.pc.it.id && e.phase.Attempted? && e.phase.attempt == s.pass.pc.attempt
    ensures Identity(s.settings) == s.g.identity
  {
    CurrentEntryIsJournaled(s, s.pass.pc.it.id);
  }

  lemma CurrentCasCommits(s: State, sight: Sight)
    requires s.pass.pc.Attempting? && s.pass.pc.at.AtCas? && IsAttemptCurrent(s, sight) && sight.cas.Mutates?
    ensures Cas(s, sight) == CasCommits(s, sight, CurrentEntry(s, s.pass.pc.it.id).value)
  {
  }

  /** Both final snapshots are taken from the same memory. */
  lemma FinalSnapshots(s: State)
    requires Identity(s.settings) == s.g.identity
    ensures var f := PersistFinal(s);
            && f.state.journal == s.journal && f.state.pass == s.pass && f.state.applied == s.applied && f.state.mem == s.mem
            && IsSnapshotted(s, f.state, f.journalWrite) && IsSettledSaved(s, f.state, f.settledWrite)
  {
    EnqueuedSnapshot(s);
    SettledIsSaved(s, EnqueueJournal(s).state);
    assert EnqueueSettled(EnqueueJournal(s).state).state.pend == EnqueueJournal(s).state.pend;
  }

  lemma ClearingClears(s: State, stale: bool)
    requires s.pass.pc.Attempting? && DistinctIds(s.journal) && Identity(s.settings) == s.g.identity
    requires exists e :: e in s.journal && e.id == s.pass.pc.it.id && e.phase.Attempted? && e.phase.attempt == s.pass.pc.attempt
    ensures IsCleared(s, CasClears(s, stale), stale)
  {
    var it := s.pass.pc.it;
    AttemptIsCleared(s.journal, it.id, s.pass.pc.attempt);
    var cleared := ClearCommitAttempt(s.journal, it.id, s.pass.pc.attempt).entries;
    var s1 := Suspend(s, Clearing(it, None, None, stale)).(journal := cleared);
    FinalSnapshots(s1);
    assert CasClears(s, stale) == WriteClear(s1);
  }

  /**
   * A mutation that took effect commits the entry with the receipt candidate and
   * the delete fingerprint of that moment, and both records are written. Without
   * authority, or an identity to commit it under, the entry stays attempted and the
   * pass ends.
   */
  lemma MutationCommitsTheEntry(s: State, sight: Sight)
    requires s.pass.pc.Attempting? && s.pass.pc.at.AtCas? && DistinctIds(s.journal) && MutationIsAllowed(s, sight)
    requires sight.cas.Mutates?
    ensures var t := ReplayStep(s, sight);
            && HasApplied(s, t) && t.mem == s.mem.(refs := sight.cas.refs, versions := sight.cas.versions)
            && if sight.cas.boundAfter && sight.session != "" && sight.receiptId != Some("") && sight.fingerprint != Some("") then
                 && MovesTo(s.journal, t.journal, s.pass.pc.it.id,
                            Committed(sight.now, sight.session, sight.receiptId, sight.fingerprint))
                 && t.pass.todo == s.pass.todo && t.pass.pc.Committing? && IsSnapshotted(s, t, t.pass.pc.journalWrite)
                 && IsSettledSaved(s, t, t.pass.pc.settledWrite)
               else t.journal == s.journal && t.pend == s.pend && t.sett == s.sett && HasEnded(t)
  {
    MutationIsAllowedIff(s, sight);
    var current := CurrentEntry(s, s.pass.pc.it.id).value;
    assert ReplayStep(s, sight) == CasCommits(s, sight, current);
    CommittingCommits(s, sight, current);
  }

  lemma RefsMoveWithTheMutation(s: State, sight: Sight, current: Intent)
    requires s.pass.pc.Attempting? && sight.cas.Mutates?
    ensures AppliedState(s, sight, current).mem == s.mem.(refs := sight.cas.refs, versions := sight.cas.versions)
  {
  }

  lemma CommittingCommits(s: State, sight: Sight, current: Intent)
    requires s.pass.pc.Attempting? && sight.cas.Mutates? && DistinctIds(s.journal) && Identity(s.settings) == s.g.identity
    requires exists e :: e in s.journal && e.id == s.pass.pc.it.id && e.phase.Attempted? && e.phase.attempt == s.pass.pc.attempt
    ensures var t := CasCommits(s, sight, current);
            && HasApplied(s, t) && t.mem == s.mem.(refs := sight.cas.refs, versions := sight.cas.versions)
            && if sight.cas.boundAfter && sight.session != "" && sight.receiptId != Some("") && sight.fingerprint != Some("") then
                 && MovesTo(s.journal, t.journal, s.pass.pc.it.id,
                            Committed(sight.now, sight.session, sight.receiptId, sight.fingerprint))
                 && t.pass.todo == s.pass.todo && t.pass.pc.Committing? && IsSnapshotted(s, t, t.pass.pc.journalWrite)
                 && IsSettledSaved(s, t, t.pass.pc.settledWrite)
               else t.journal == s.journal && t.pend == s.pend && t.sett == s.sett && HasEnded(t)
  {
    var it, applied := s.pass.pc.it, AppliedState(s, sight, current);
    RefsMoveWithTheMutation(s, sight, current);
    CommitIsRecorded(s.journal, it.id, s.pass.pc.attempt, sight.now, sight.session, sight.receiptId, sight.fingerprint);
    MarkMoves(s.journal, it.id, IsAttempt(s.pass.pc.attempt),
              Committed(sight.now, sight.session, sight.receiptId, sight.fingerprint));
    if sight.cas.boundAfter && MarkFinal(s, sight).ok {
      var s1 := applied.(journal := MarkFinal(s, sight).entries);
      FinalSnapshots(s1);
      assert CasCommits(s, sight, current) == WriteCommit(s1);
    }
  }

  /** Both final writes saved let an authorized pass go on; one that failed ends it. */
  lemma CommitEnds(s: State, sight: Sight)
    requires s.pass.pc.Committing?
    ensures var t, pc := ReplayStep(s, sight), s.pass.pc;
            && t.journal == s.journal
            && (FinalsSaved(s, pc.journalWrite, pc.settledWrite) ==> GoesOn(s, t, sight, false))
            && (FinalsFailed(s, pc.journalWrite, pc.settledWrite) ==> HasEnded(t))
  {
    SettledWrite(s.pend, s.pass.pc.journalWrite);
    SettledWrite(s.sett, s.pass.pc.settledWrite);
  }

  // ---------------------------------------------------------------------------
  // How an intent leaves memory
  // ---------------------------------------------------------------------------

  /** The end of a confirmed removal. */
  predicate LeavesConfirmed(s: State, it: Intent) {
    s.pass.pc.PreparedRemoval? && s.pass.pc.ok && s.pass.pc.it.id == it.id
  }

  /** The entry a segment may retire: the next one, or the one whose preparation was refused. */
  function Judged(s: State): Option<Intent> {
    match s.pass.pc
    case Looping(_) => if s.pass.todo == [] then None else Some(s.pass.todo[0])
    case AtEntry(it, _) => Some(it)
    case PreparedRemoval(it, _, ok) => if ok then None else Some(it)
    case _ => None
  }

  /** A retirement: the path is free, or the mutation was attempted before. */
  predicate LeavesRetired(s: State, sight: Sight, it: Intent) {
    Judged(s).Some? && Judged(s).value.id == it.id && (!sight.diskOccupied || Judged(s).value.phase.Attempted?)
  }

  /** A proven stale attempt, cleared durably, whose occupant is still there. */
  predicate LeavesStale(s: State, sight: Sight, it: Intent) {
    && s.pass.pc.Clearing? && s.pass.pc.it.id == it.id && s.pass.pc.stale && sight.occupantStays && IsAuthorized(s, sight)
    && IsOk(s.pend, s.pass.pc.journalWrite) && IsOk(s.sett, s.pass.pc.settledWrite)
  }

  /** A local event rewrote a ready rename: it led back to its origin, or a ready delete is owed instead. */
  ghost predicate LeavesRewritten(s: State, e: Event, t: State, it: Intent) {
    && e.Local? && IsReadyRename(it, s.settings)
    && ((e.file.FileRenamed? && it.kind.oldPath == e.file.newPath)
        || exists d :: d in t.journal && d.kind.Delete? && d.phase == Ready && d.scope == s.settings)
  }

  /** All identities are still listed. */
  ghost predicate KeepsIds(j: seq<Intent>, j': seq<Intent>) {
    forall e :: e in j ==> HasId(j', e.id)
  }

  lemma SameKeepsIds(j: seq<Intent>, j': seq<Intent>)
    requires forall e :: e in j ==> e in j'
    ensures KeepsIds(j, j')
  {
  }

  lemma ReplacingKeepsIds(j: seq<Intent>, x: Intent)
    ensures KeepsIds(j, Replace(j, x))
  {
    forall e | e in j
      ensures HasId(Replace(j, x), e.id)
    {
      var i :| 0 <= i < |j| && j[i] == e;
      assert Replace(j, x)[i] in Replace(j, x) && Replace(j, x)[i].id == e.id;
    }
  }

  lemma MarkingKeepsIds(j: seq<Intent>, id: nat, expected: Phase -> bool, next: Phase)
    ensures KeepsIds(j, Mark(j, id, expected, next).entries)
  {
    SameKeepsIds(j, j);
    var e := EntryById(j, id);
    if e.Some? {
      ReplacingKeepsIds(j, e.value.(phase := next));
    }
  }

  /** Every other identity is still listed. */
  ghost predicate KeepsOthers(j: seq<Intent>, j': seq<Intent>, id: nat) {
    forall e :: e in j && e.id != id ==> HasId(j', e.id)
  }

  lemma RemovingKeepsOthers(j: seq<Intent>, id: nat)
    ensures KeepsOthers(j, Remove(j, id), id)
  {
  }

  lemma RestoringKeepsIds(j: seq<Intent>, x: Intent)
    ensures KeepsIds(j, Restore(j, x))
  {
  }

  lemma RetiringLeaves(s: State, sight: Sight, changed: bool, it: Intent)
    ensures var t := RetireOrQuarantine(s, sight, changed, it);
            t.journal == s.journal || (t.journal == Remove(s.journal, it.id) && (!sight.diskOccupied || it.phase.Attempted?))
  {
  }

  lemma BegunJournal(s: State, sight: Sight, changed: bool, it: Intent)
    ensures BeginRemoval(s, sight, changed, it).journal == s.journal
    ensures BeginAttempt(s, sight, it).journal in {s.journal, MarkAttempt(s, sight, it).entries}
  {
  }

  lemma ProcessedJournal(s: State, sight: Sight)
    requires s.pass.pc.AtEntry?
    ensures var t, it := ProcessEntry(s, sight), s.pass.pc.it;
            || t.journal == s.journal
            || (t.journal == Remove(s.journal, it.id) && (!sight.diskOccupied || it.phase.Attempted?))
            || t.journal == MarkAttempt(s, sight, it).entries
  {
    var it, changed, t := s.pass.pc.it, s.pass.pc.changed, ProcessEntry(s, sight);
    RetiringLeaves(s, sight, changed, it);
    BegunJournal(s, sight, changed, it);
    assert || t == RetireOrQuarantine(s, sight, changed, it) || t == BeginRemoval(s, sight, changed, it)
           || t == Suspend(s, Looping(changed)) || t == BeginAttempt(s, sight, it);
  }

  lemma ProcessingLeaves(s: State, sight: Sight)
    requires s.pass.pc.AtEntry?
    ensures var t, it := ProcessEntry(s, sight), s.pass.pc.it;
            KeepsIds(s.journal, t.journal)
            || (KeepsOthers(s.journal, t.journal, it.id) && (!sight.diskOccupied || it.phase.Attempted?))
  {
    var it := s.pass.pc.it;
    ProcessedJournal(s, sight);
    SameKeepsIds(s.journal, s.journal);
    RemovingKeepsOthers(s.journal, it.id);
    MarkedAttemptKeepsIds(s, sight, it);
  }

  lemma MarkedAttemptKeepsIds(s: State, sight: Sight, it: Intent)
    ensures KeepsIds(s.journal, MarkAttempt(s, sight, it).entries)
  {
    SameKeepsIds(s.journal, s.journal);
    MarkingKeepsIds(s.journal, it.id, IsReady(), Attempted(s.nextAttempt, sight.now, sight.session));
  }

  lemma ClearsJournal(s: State, stale: bool)
    requires s.pass.pc.Attempting?
    ensures var t, pc := CasClears(s, stale), s.pass.pc;
            t.journal == s.journal || t.journal == ClearCommitAttempt(s.journal, pc.it.id, pc.attempt).entries
  {
  }

  lemma CommitsJournal(s: State, sight: Sight, current: Intent)
    requires s.pass.pc.Attempting? && sight.cas.Mutates?
    ensures var t := CasCommits(s, sight, current);
            t.journal == s.journal || t.journal == MarkFinal(s, sight).entries
  {
  }

  lemma CasJournal(s: State, sight: Sight)
    requires s.pass.pc.Attempting? && s.pass.pc.at.AtCas?
    ensures var t, pc := Cas(s, sight), s.pass.pc;
            || t.journal == s.journal
            || t.journal == ClearCommitAttempt(s.journal, pc.it.id, pc.attempt).entries
            || t.journal == MarkFinal(s, sight).entries
  {
    if IsAttemptCurrent(s, sight) && sight.cas.Mutates? {
      CurrentCasCommits(s, sight);
      CommitsJournal(s, sight, CurrentEntry(s, s.pass.pc.it.id).value);
    } else if IsAttemptCurrent(s, sight) && sight.cas.NoMutation? {
      CasIsClearing(s, sight);
      ClearsJournal(s, sight.cas.stale);
    } else {
      assert Cas(s, sight).journal == s.journal;
    }
  }

  lemma CasLeaves(s: State, sight: Sight)
    requires s.pass.pc.Attempting? && s.pass.pc.at.AtCas?
    ensures KeepsIds(s.journal, Cas(s, sight).journal)
  {
    CasJournal(s, sight);
    FinalMarksKeepIds(s, sight);
  }

  lemma FinalMarksKeepIds(s: State, sight: Sight)
    requires s.pass.pc.Attempting?
    ensures KeepsIds(s.journal, s.journal) && KeepsIds(s.journal, MarkFinal(s, sight).entries)
    ensures KeepsIds(s.journal, ClearCommitAttempt(s.journal, s.pass.pc.it.id, s.pass.pc.attempt).entries)
  {
    SameKeepsIds(s.journal, s.journal);
    MarkingKeepsIds(s.journal, s.pass.pc.it.id, IsAttempt(s.pass.pc.attempt), Ready);
    MarkingKeepsIds(s.journal, s.pass.pc.it.id, IsAttempt(s.pass.pc.attempt),
                    Committed(sight.now, sight.session, sight.receiptId, sight.fingerprint));
  }

  lemma WaitingLeaves(s: State, sight: Sight)
    requires s.pass.pc.GateWrite? || s.pass.pc.StaleRemoval?
    ensures KeepsIds(s.journal, ReplayStep(s, sight).journal)
  {
    var t := ReplayStep(s, sight);
    SameKeepsIds(s.journal, s.journal);
    RestoringKeepsIds(s.journal, s.pass.pc.it);
    assert t.journal == s.journal || t.journal == Restore(s.journal, s.pass.pc.it);
  }

  lemma ClearingLeaves(s: State, sight: Sight)
    requires s.pass.pc.Clearing?
    ensures var t, it := FinishClear(s, sight), s.pass.pc.it;
            KeepsIds(s.journal, t.journal) || (LeavesStale(s, sight, it) && KeepsOthers(s.journal, t.journal, it.id))
  {
    var t, it := FinishClear(s, sight), s.pass.pc.it;
    SameKeepsIds(s.journal, s.journal);
    RemovingKeepsOthers(s.journal, it.id);
    assert t.journal == s.journal || (t.journal == Remove(s.journal, it.id) && LeavesStale(s, sight, it));
  }

  lemma QuietLeaves(s: State, sight: Sight)
    requires || s.pass.pc.Idle? || s.pass.pc.OpeningJournal? || s.pass.pc.OpeningSettled? || s.pass.pc.PreparingRemoval?
             || s.pass.pc.RemovalWrite? || s.pass.pc.Committing? || s.pass.pc.LastWrite?
             || (s.pass.pc.Attempting? && !s.pass.pc.at.AtCas?) || (s.pass.pc.Looping? && s.pass.todo == [])
    ensures ReplayStep(s, sight).journal == s.journal
  {
  }

  lemma ReplayRemoves(s: State, sight: Sight, it: Intent)
    requires it in s.journal && !HasId(ReplayStep(s, sight).journal, it.id)
    ensures LeavesConfirmed(s, it) || LeavesRetired(s, sight, it) || LeavesStale(s, sight, it)
  {
    match s.pass.pc
    case Looping(_) =>
      if s.pass.todo == [] {
        QuietLeaves(s, sight);
      } else {
        ProcessingLeaves(TakeEntry(s), sight);
      }
    case AtEntry(_, _) => ProcessingLeaves(s, sight);
    case PreparedRemoval(x, changed, ok) =>
      RemovingKeepsOthers(s.journal, x.id);
      RetiringLeaves(s, sight, changed, x);
    case GateWrite(_, _, _) => WaitingLeaves(s, sight);
    case StaleRemoval(_, _) => WaitingLeaves(s, sight);
    case Clearing(_, _, _, _) => ClearingLeaves(s, sight);
    case Attempting(_, _, at) =>
      if at.AtCas? {
        CasLeaves(s, sight);
      } else {
        QuietLeaves(s, sight);
      }
    case _ => QuietLeaves(s, sight);
  }

  /** A load lists everything memory had of its scope, under the identities memory had. */
  lemma LoadingKeepsIds(s: State, a: nat)
    requires SafetyInv(s) && AdoptEnabled(s.pend, s.g, s.settings, a)
    ensures forall e :: e in s.journal ==> e in AdoptJournal(s, a).journal
  {
    AdoptedEntriesAreCopies(s, a);
  }

  lemma DeletingRewrites(s: State, path: Path, base: MutationBase, at: nat, it: Intent)
    requires DistinctIds(s.journal) && it in s.journal
    requires var t := RecordDelete(s.journal, path, s.settings, base, s.nextId, at).entries; it !in t
    ensures IsReadyRename(it, s.settings)
    ensures exists d :: d in RecordDelete(s.journal, path, s.settings, base, s.nextId, at).entries && d.kind.Delete?
                        && d.phase == Ready && d.scope == s.settings
  {
    DeleteIsOwed(s.journal, path, s.settings, base, s.nextId, at);
  }

  lemma RenamingRewrites(j: seq<Intent>, oldPath: Path, newPath: Path, scope: Scope, base: MutationBase, id: nat, at: nat,
                         it: Intent)
    requires DistinctIds(j) && it in j
    ensures var j' := RecordRename(j, oldPath, newPath, scope, base, id, at).entries;
            && (it.kind.Delete? ==> it in j')
            && (!HasId(j', it.id) ==> IsReadyRename(it, scope) && it.kind.oldPath == newPath)
  {
    RenameIsOwed(j, oldPath, newPath, scope, base, id, at);
    var j' := RecordRename(j, oldPath, newPath, scope, base, id, at).entries;
    if x :| IsContinued(j, scope, oldPath, x) && Continues(j, j', x, newPath, at) {
      if x.id == it.id {
        EntryIsUnique(j, x, it);
      }
    }
  }

  lemma LocalRewrites(s: State, file: LocalEvent, it: Intent)
    requires DistinctIds(s.journal) && it in s.journal && (forall d :: d in s.journal ==> d.id < s.nextId)
    requires !HasId(Recording(s, file), it.id)
    ensures IsReadyRename(it, s.settings)
    ensures (file.FileRenamed? && it.kind.oldPath == file.newPath)
            || exists d :: d in Recording(s, file) && d.kind.Delete? && d.phase == Ready && d.scope == s.settings
  {
    if file.FileDeleted? {
      DeletingRewrites(s, file.path, file.base, file.at, it);
    } else {
      var j := ClosingChain(s, file.oldPath, file.base, file.at, file.sameFile);
      ClosingTouchesOnlyReady(s, file.oldPath, file.base, file.at, file.sameFile);
      if it in j {
        RenamingRewrites(j, file.oldPath, file.newPath, s.settings, file.base, s.nextId + 1, file.at, it);
      } else {
        DeletingRewrites(s, file.oldPath, file.base, file.at, it);
        var d :| d in j && d.kind.Delete? && d.phase == Ready && d.scope == s.settings;
        RenamingRewrites(j, file.oldPath, file.newPath, s.settings, file.base, s.nextId + 1, file.at, d);
      }
    }
  }

  lemma OtherEventsKeepJournal(s: State, e: Event)
    requires Enabled(s, e) && !e.Replays? && !e.Local? && !e.JournalAdopts? && !e.Crashes?
    ensures Step(s, e).journal == s.journal
  {
  }

  /**
   * The engine forgets no intent. In every run and at every step an intent leaves
   * the journal in memory only by the end of its confirmed removal, by a retirement
   * that disk and attempt allow, as a proven stale one whose clearing is durable, by
   * a local event that rewrites a ready rename, or with the whole memory in a crash.
   * Loads, scope switches, failed writes and settlements lose none.
   */
  lemma IntentLeavesOnlyWhenDone(s: State, e: Event, it: Intent)
    requires Reachable(s) && Enabled(s, e) && it in s.journal && !HasId(Step(s, e).journal, it.id)
    ensures || e.Crashes?
            || (e.Replays? && (LeavesConfirmed(s, it) || LeavesRetired(s, e.sight, it) || LeavesStale(s, e.sight, it)))
            || LeavesRewritten(s, e, Step(s, e), it)
  {
    if e.Replays? {
      ReplayRemoves(s, e.sight, it);
    } else if e.Local? {
      ReachableIsSafe(s);
      JournaledIdsAreOld(s);
      LocalEventIsRecorded(s, e.file, e.opens);
      LocalRewrites(s, e.file, it);
    } else if e.JournalAdopts? {
      ReachableIsSafe(s);
      LoadingKeepsIds(s, e.load);
    } else if !e.Crashes? {
      OtherEventsKeepJournal(s, e);
    }
  }

  /** The journal lane after an activation still has the store of the active scope, and may write. */
  predicate MayEnqueue(s: State) {
    && IsComplete(s.settings) && s.g.identity == Some(s.settings)
    && s.pend.store.Some? && s.pend.store.value.key == s.settings && s.settings !in s.pend.corrupt
  }

  lemma PersistingSnapshots(s: State, opens: bool)
    ensures var t := PersistJournal(s, opens);
            && t.journal == s.journal && !t.pend.healthy
            && (MayEnqueue(s) ==> |t.pend.log| == |s.pend.log| + 1 && IsSnapshotted(s, t, Some(|t.pend.log|)))
  {
    EnqueuedSnapshot(DoActivate(s));
    if MayEnqueue(s) {
      assert DoActivate(s) == s && PersistJournal(s, opens) == EnqueueJournal(s).state;
    }
  }

  /**
   * A local event is recorded whenever the scope is complete, and from then on the
   * journal lane is unhealthy until a newer write is acknowledged; where the store
   * is attached, the journal with it is enqueued at once.
   */
  lemma LocalEventIsRecorded(s: State, file: LocalEvent, opens: bool)
    ensures var t := Step(s, Local(file, opens));
            && t.journal == (if IsComplete(s.settings) then Recording(s, file) else s.journal)
            && !t.pend.healthy
            && (MayEnqueue(s) ==> |t.pend.log| == |s.pend.log| + 1 && IsSnapshotted(s, t, Some(|t.pend.log|)))
  {
    PersistingSnapshots(WithJournal(s, Recording(s, file)), opens);
  }

  /** A ready delete of the scope that stands for a whole chain of ready renames ending in `path`. */
  ghost predicate OwesDelete(j: seq<Intent>, j': seq<Intent>, scope: Scope, path: Path, base: MutationBase) {
    exists d, originBase :: d in j' && IsOwedDelete(j, scope, path, base, d, originBase)
  }

  ghost predicate IsOwedDelete(j: seq<Intent>, scope: Scope, path: Path, base: MutationBase, d: Intent, originBase: MutationBase) {
    && d.kind.Delete? && d.phase == Ready && d.scope == scope
    && IsOrigin(j, scope, path, base, d.kind.path, originBase) && (d in j || CarriesBase(d, originBase))
  }

  /** A file that is deleted is owed as the deletion of the place its ready renames began. */
  lemma LocalDeleteIsOwed(s: State, path: Path, base: MutationBase, at: nat)
    requires DistinctIds(s.journal)
    ensures OwesDelete(s.journal, Recording(s, FileDeleted(path, base, at)), s.settings, path, base)
  {
    DeletionIsOwed(s.journal, path, s.settings, base, s.nextId, at);
  }

  lemma DeletionIsOwed(j: seq<Intent>, path: Path, scope: Scope, base: MutationBase, id: nat, at: nat)
    requires DistinctIds(j)
    ensures OwesDelete(j, RecordDelete(j, path, scope, base, id, at).entries, scope, path, base)
  {
    var d := RecordDelete(j, path, scope, base, id, at).intent.value;
    DeleteIsOwed(j, path, scope, base, id, at);
    var originBase :| IsOrigin(j, scope, path, base, d.kind.path, originBase)
                      && (d in j || (d.id == id && d.recordedAt == at && CarriesBase(d, originBase)));
    assert IsOwedDelete(j, scope, path, base, d, originBase);
  }

  lemma RenamingKeepsOwed(j: seq<Intent>, j1: seq<Intent>, oldPath: Path, newPath: Path, scope: Scope, path: Path,
                          base: MutationBase, id: nat, at: nat)
    requires OwesDelete(j, j1, scope, path, base) && DistinctIds(j1)
    ensures OwesDelete(j, RecordRename(j1, oldPath, newPath, scope, base, id, at).entries, scope, path, base)
  {
    var d, originBase :| d in j1 && IsOwedDelete(j, scope, path, base, d, originBase);
    RenamingRewrites(j1, oldPath, newPath, scope, base, id, at, d);
  }

  /** A rename that continues with another file than the one that moved there first owes the deletion of that one's origin. */
  lemma ReplacedFileIsOwed(s: State, oldPath: Path, newPath: Path, base: MutationBase, at: nat, x: Intent)
    requires DistinctIds(s.journal) && (forall d :: d in s.journal ==> d.id < s.nextId)
    requires x in s.journal && IsReadyRename(x, s.settings) && x.kind.newPath == oldPath
    ensures OwesDelete(s.journal, Recording(s, FileRenamed(oldPath, newPath, base, at, false)), s.settings, oldPath, base)
  {
    var j := RecordDelete(s.journal, oldPath, s.settings, base, s.nextId, at).entries;
    RecordDeleteTouchesOnlyReady(s.journal, oldPath, s.settings, base, s.nextId, at);
    DeletionIsOwed(s.journal, oldPath, s.settings, base, s.nextId, at);
    RenamingKeepsOwed(s.journal, j, oldPath, newPath, s.settings, oldPath, base, s.nextId + 1, at);
    ReplacementIsRecorded(s, oldPath, newPath, base, at, x);
  }

  lemma ReplacementIsRecorded(s: State, oldPath: Path, newPath: Path, base: MutationBase, at: nat, x: Intent)
    requires x in s.journal && IsReadyRename(x, s.settings) && x.kind.newPath == oldPath
    ensures var j := RecordDelete(s.journal, oldPath, s.settings, base, s.nextId, at).entries;
            Recording(s, FileRenamed(oldPath, newPath, base, at, false))
            == RecordRename(j, oldPath, newPath, s.settings, base, s.nextId + 1, at).entries
  {
    RenameFollowsClosing(s, oldPath, newPath, base, at, false);
    ReplacedChainIsClosed(s, oldPath, base, at, x);
  }

  lemma RenameFollowsClosing(s: State, oldPath: Path, newPath: Path, base: MutationBase, at: nat, sameFile: bool)
    ensures Recording(s, FileRenamed(oldPath, newPath, base, at, sameFile))
            == RecordRename(ClosingChain(s, oldPath, base, at, sameFile), oldPath, newPath, s.settings, base, s.nextId + 1,
                            at).entries
  {
  }

  lemma ReplacedChainIsClosed(s: State, oldPath: Path, base: MutationBase, at: nat, x: Intent)
    requires x in s.journal && IsReadyRename(x, s.settings) && x.kind.newPath == oldPath
    ensures ClosingChain(s, oldPath, base, at, false)
            == RecordDelete(s.journal, oldPath, s.settings, base, s.nextId, at).entries
  {
    assert ReadyRenameTo(s.journal, s.settings, oldPath).Some?;
  }

  /** Any other rename is owed as the journal had it: elsewhere, as a continuation, or afresh on its base. */
  lemma FollowedFileIsOwed(s: State, oldPath: Path, newPath: Path, base: MutationBase, at: nat, sameFile: bool)
    requires DistinctIds(s.journal)
    requires sameFile || forall x :: x in s.journal && IsReadyRename(x, s.settings) ==> x.kind.newPath != oldPath
    ensures var j, j' := s.journal, Recording(s, FileRenamed(oldPath, newPath, base, at, sameFile));
            || (IsOwedElsewhere(j, s.settings, oldPath, newPath) && j' == j)
            || (exists x :: IsContinued(j, s.settings, oldPath, x) && Continues(j, j', x, newPath, at))
            || (exists e :: j' == j + [e] && e.kind == Rename(oldPath, newPath) && e.phase == Ready && e.scope == s.settings
                            && CarriesBase(e, base))
  {
    RenameIsOwed(s.journal, oldPath, newPath, s.settings, base, s.nextId + 1, at);
    var j' := Recording(s, FileRenamed(oldPath, newPath, base, at, sameFile));
    if |j'| == |s.journal| + 1 && j'[..|s.journal|] == s.journal {
      assert j' == s.journal + [j'[|s.journal|]];
    }
  }

  /**
   * What a device journals about a file it deletes is what it had settled there: an
   * untouched path's delete carries the settled ref, whatever the document holds by
   * then, and nothing known for a fenced path.
   */
  lemma JournaledDeleteCarriesTheSettlement(s: State, path: Path, remote: Remote, remoteReady: bool, at: nat)
    requires DistinctIds(s.journal)
    requires forall e :: e in s.journal && IsReadyRename(e, s.settings) ==> e.kind.newPath != path
    requires forall e :: e in s.journal && e.kind == Delete(path) && e.phase == Ready ==> e.scope != s.settings
    ensures var j' := Recording(s, FileDeleted(path, CaptureBase(s.mem, path, remote, remoteReady), at));
            exists d :: d in j' && d.kind == Delete(path) && d.phase == Ready && d.scope == s.settings
                        && (path in s.mem.stages ==> !d.baseRefKnown && !d.sourceVersionKnown)
                        && (path !in s.mem.stages && path in s.mem.refs ==>
                              d.baseRefKnown && SameBlobRef(d.expectedSourceRef, Some(s.mem.refs[path])))
  {
    var base := CaptureBase(s.mem, path, remote, remoteReady);
    BaseCarriesTheSettlement(s.mem, path, remote, remoteReady);
    DeleteIsOwed(s.journal, path, s.settings, base, s.nextId, at);
    var d := RecordDelete(s.journal, path, s.settings, base, s.nextId, at).intent.value;
    SameBlobRefIsEquivalence(d.expectedSourceRef, base.ref, if path in s.mem.refs then Some(s.mem.refs[path]) else None);
  }

  // ---------------------------------------------------------------------------
  // Opening a pass and writing ahead
  // ---------------------------------------------------------------------------

  /** A flush of the tail that was awaited succeeds: the tail did not move, was not rejected, and the lane is healthy. */
  predicate IsFlushed<S>(l: Lane<S>, tail: nat) {
    tail == l.tail && tail <= l.done && l.healthy && !(0 < tail <= |l.log| && l.log[tail - 1].outcome == Rejected)
  }

  predicate MustWaitAgain<S>(l: Lane<S>, tail: nat) {
    tail != l.tail || l.done < tail
  }

  /**
   * A pass starts exactly when everything is ready, the scope is complete, the
   * settled lane is healthy and something is pending.
   */
  lemma PassStartsIff(s: State, sight: Sight)
    requires s.pass.pc.Idle?
    ensures var t, a := ReplayStep(s, sight), DoActivate(s);
            && t.journal == s.journal && t.pend.log == s.pend.log && t.sett.log == s.sett.log
            && if sight.ready && IsComplete(s.settings) && a.sett.healthy && (exists e :: e in s.journal && e.scope == s.settings)
               then t == a.(pass := Pass(Token(a.g.identity, a.g.epoch), s.settings, [], OpeningJournal(a.pend.tail)))
               else t.pass == s.pass
  {
    if e :| e in s.journal && e.scope == s.settings {
      assert e in Entries(s.journal, s.settings);
    }
    if Entries(s.journal, s.settings) != [] {
      assert Entries(s.journal, s.settings)[0] in Entries(s.journal, s.settings);
    }
  }

  /** The journal is flushed first; a tail that moved is awaited again, and a failed flush or lost authority ends the pass. */
  lemma JournalIsFlushedFirst(s: State, sight: Sight)
    requires s.pass.pc.OpeningJournal?
    ensures var t, tail := ReplayStep(s, sight), s.pass.pc.tail;
            && t == s.(pass := t.pass)
            && (IsFlushed(s.pend, tail) && IsAuthorized(s, sight) ==> t.pass == s.pass.(pc := OpeningSettled(s.sett.tail)))
            && (!IsFlushed(s.pend, tail) || !IsAuthorized(s, sight) ==> t.pass.pc.OpeningJournal? || HasEnded(t))
            && (t.pass.pc.OpeningJournal? <==> MustWaitAgain(s.pend, tail))
  {
  }

  /** Then the settled record; only then the pass captures the journal of its scope, with everything still ready. */
  lemma CaptureFollowsBothFlushes(s: State, sight: Sight)
    requires s.pass.pc.OpeningSettled?
    ensures var t, tail := ReplayStep(s, sight), s.pass.pc.tail;
            && t == s.(pass := t.pass)
            && (t.pass.pc.OpeningSettled? <==> MustWaitAgain(s.sett, tail))
            && (!MustWaitAgain(s.sett, tail) ==>
                  if IsFlushed(s.sett, tail) && IsAuthorized(s, sight) && sight.ready then
                    && t.pass.pc == Looping(false) && t.pass.token == s.pass.token && t.pass.scope == s.pass.scope
                    && forall e :: e in t.pass.todo <==> e in s.journal && e.scope == s.pass.scope
                  else HasEnded(t))
  {
  }

  /**
   * Between the mark of an attempt and its mutation three awaits succeed in order,
   * each under the authority of the pass: its write-ahead is acknowledged, the
   * journal is flushed, and the settled record is flushed.
   */
  lemma AttemptAdvancesInOrder(s: State, sight: Sight)
    requires s.pass.pc.Attempting? && !s.pass.pc.at.AtCas?
    ensures var t, pc := ReplayStep(s, sight), s.pass.pc;
            && t == s.(pass := t.pass)
            && (t.pass.pc.Attempting? ==> t.pass.pc.it == pc.it && t.pass.pc.attempt == pc.attempt && t.pass.todo == s.pass.todo)
            && (pc.at.WriteAhead? && HasSucceeded(s.pend, Some(pc.at.write)) && IsAuthorized(s, sight) ==>
                  t.pass.pc.Attempting? && t.pass.pc.at == FlushingJournal(s.pend.tail))
            && (pc.at.WriteAhead? && (HasFailed(s.pend, Some(pc.at.write)) || !IsAuthorized(s, sight)) ==>
                  HasEnded(t) || (t == s && pc.at.write > s.pend.done))
            && (pc.at.FlushingJournal? && !MustWaitAgain(s.pend, pc.at.tail) ==>
                  if IsFlushed(s.pend, pc.at.tail) && IsAuthorized(s, sight)
                  then t.pass.pc.Attempting? && t.pass.pc.at == FlushingSettled(s.sett.tail) else HasEnded(t))
            && (pc.at.FlushingSettled? && !MustWaitAgain(s.sett, pc.at.tail) ==>
                  if IsFlushed(s.sett, pc.at.tail) && IsAuthorized(s, sight)
                  then t.pass.pc.Attempting? && t.pass.pc.at == AtCas else HasEnded(t))
            && (pc.at.FlushingJournal? && MustWaitAgain(s.pend, pc.at.tail) ==>
                  t.pass.pc.Attempting? && t.pass.pc.at.FlushingJournal?)
            && (pc.at.FlushingSettled? && MustWaitAgain(s.sett, pc.at.tail) ==>
                  t.pass.pc.Attempting? && t.pass.pc.at.FlushingSettled?)
  {
    if s.pass.pc.at.WriteAhead? {
      SettledWrite(s.pend, Some(s.pass.pc.at.write));
    }
  }

  /** When the loop is over, removals that no later write covers are written, and the pass ends with that. */
  lemma LoopEndsWithItsRemovals(s: State, sight: Sight)
    requires s.pass.pc.Looping? && s.pass.todo == []
    ensures var t := ReplayStep(s, sight);
            && t.journal == s.journal
            && (if s.pass.pc.changed then t.pass.pc.LastWrite? && IsSnapshotted(s, t, t.pass.pc.write)
                else t == s.(pass := s.pass.(pc := Idle)))
  {
    EnqueuedSnapshot(s);
  }

  lemma LastWriteEndsThePass(s: State, sight: Sight)
    requires s.pass.pc.LastWrite? && (HasFailed(s.pend, s.pass.pc.write) || HasSucceeded(s.pend, s.pass.pc.write))
    ensures ReplayStep(s, sight) == s.(pass := s.pass.(todo := [], pc := Idle))
  {
    SettledWrite(s.pend, s.pass.pc.write);
  }

  // ---------------------------------------------------------------------------
  // Waiting
  // ---------------------------------------------------------------------------

  predicate IsQueued<S>(l: Lane<S>, w: Awaited) {
    w.Some? && w.value > l.done
  }

  /** One of the final writes is still queued, and the other has not failed. */
  predicate FinalsAreQueued(s: State, j: Awaited, m: Awaited) {
    || (IsQueued(s.pend, j) && (IsQueued(s.sett, m) || HasSucceeded(s.sett, m)))
    || (IsQueued(s.sett, m) && HasSucceeded(s.pend, j))
  }

  /** What the pass is suspended at has not happened yet. */
  predicate IsWaiting(s: State) {
    match s.pass.pc
    case OpeningJournal(tail) => tail > s.pend.done
    case OpeningSettled(tail) => tail > s.sett.done
    case PreparingRemoval(_, _, prep) => prep.Waiting? && IsQueued(s.sett, prep.write)
    case GateWrite(_, write, _) => IsQueued(s.sett, write)
    case RemovalWrite(write) => IsQueued(s.pend, write)
    case StaleRemoval(_, write) => IsQueued(s.pend, write)
    case LastWrite(write) => IsQueued(s.pend, write)
    case Clearing(_, journalWrite, settledWrite, _) => FinalsAreQueued(s, journalWrite, settledWrite)
    case Committing(journalWrite, settledWrite) => FinalsAreQueued(s, journalWrite, settledWrite)
    case Attempting(_, _, at) =>
      (match at
       case WriteAhead(write) => write > s.pend.done
       case FlushingJournal(tail) => tail > s.pend.done
       case FlushingSettled(tail) => tail > s.sett.done
       case AtCas => false)
    case _ => false
  }

  /** No segment runs before the write it awaits has settled. */
  lemma PassWaits(s: State, sight: Sight)
    requires IsWaiting(s)
    ensures ReplayStep(s, sight) == s
  {
  }

  // ---------------------------------------------------------------------------
  // Settlement memory
  // ---------------------------------------------------------------------------

  /** The settled lane may write memory for the active scope. */
  predicate MaySettle(s: State) {
    && IsComplete(s.settings) && s.g.identity == Some(s.settings)
    && s.sett.store.Some? && s.sett.store.value.key == s.settings && s.settings !in s.sett.corrupt
  }

  /** The newest write of the settled lane saves exactly what memory now holds. */
  predicate IsSettledSnapshot(s: State, t: State) {
    && |t.sett.log| == |s.sett.log| + 1 && t.sett.tail == |t.sett.log| && !t.sett.healthy
    && t.sett.log[|s.sett.log|].snapshot == t.mem && t.sett.log[|s.sett.log|].store.key == s.settings
  }

  /** Every settled snapshot saves the whole memory, and closes health until it is acknowledged. */
  lemma SettlementIsEnqueued(s: State)
    ensures var e := EnqueueSettled(s);
            && !e.state.sett.healthy && e.state.mem == DoActivate(s).mem
            && (MaySettle(s) ==> e.write == Some(|s.sett.log| + 1) && IsSettledSnapshot(s, e.state))
            && (e.write.None? ==> e.state.sett.log == s.sett.log)
  {
  }

  /** An accepted callback is in memory and enqueued at once; a refused one changes nothing. */
  lemma AcceptedCallbackIsEnqueued(s: State, c: Callback)
    requires MaySettle(s)
    ensures var t := Step(s, Settlement(c));
            match Call(s.mem, c)
            case Accepted(m) => t.mem == m && IsSettledSnapshot(s, t) && t.journal == s.journal && t.pass == s.pass
            case Refused => t == s
  {
    if Call(s.mem, c).Accepted? {
      SettlementIsEnqueued(SetMem(s, Call(s.mem, c).state));
    }
  }

  /** Setting or lifting a gate changes that gate alone, and is enqueued at once. */
  lemma GateIsEnqueued(s: State, path: Path, gated: bool)
    requires MaySettle(s)
    ensures var t := Step(s, Gate(path, gated));
            && (path in t.mem.gate <==> gated) && t.mem.gate - {path} == s.mem.gate - {path}
            && t.mem == s.mem.(gate := t.mem.gate) && IsSettledSnapshot(s, t) && t.journal == s.journal && t.pass == s.pass
  {
    SettlementIsEnqueued(SetMem(s, s.mem.(gate := if gated then s.mem.gate + {path} else s.mem.gate - {path})));
  }

  /** A path whose settlement lost its authority is settled no more; its fence and gate stay. */
  lemma ForgettingUnsettles(s: State, path: Path)
    ensures var t := Step(s, Forgets(path));
            && path !in t.mem.refs && path !in t.mem.versions && t.mem.stages == s.mem.stages && t.mem.gate == s.mem.gate
            && t.mem.refs - {path} == s.mem.refs - {path} && t.mem.versions - {path} == s.mem.versions - {path}
            && t == s.(mem := t.mem)
  {
  }

  /** A stage that may still establish content keeps its path from being downloaded. */
  predicate IsEstablishing(stage: Stage) {
    stage.kind == Download || stage.kind == Upload || stage.kind == Equality || stage.kind == Renaming
  }

  /**
   * A loaded settled record becomes memory as it is, or empty when there was none;
   * gated are what it gated, what it was establishing, and what a migration found
   * missing. It is written back exactly when it was missing or migrated.
   */
  lemma SettledRecordIsAdopted(s: State, a: nat, migrate: bool, legacy: set<Path>)
    requires AdoptEnabled(s.sett, s.g, s.settings, a)
    ensures var t, load := Step(s, SettledAdopts(a, migrate, legacy)), s.sett.loads[a];
            && var m := if load.pc.result.Loaded? then load.pc.result.value else Settled(map[], map[], map[], {});
            && var written := load.pc.result.Missing? || migrate;
            && t.mem.refs == m.refs && t.mem.versions == m.versions && t.mem.stages == m.stages
            && (forall p :: p in t.mem.gate <==>
                  p in m.gate || (p in m.stages && IsEstablishing(m.stages[p])) || (written && p in legacy))
            && t.sett.store == Some(load.store) && t.journal == s.journal && t.pend == s.pend && t.pass == s.pass
            && (if written then IsSettledAs(s, t, load.store.key) else t.sett.healthy && t.sett.log == s.sett.log)
  {
  }

  predicate IsSettledAs(s: State, t: State, key: Scope) {
    && |t.sett.log| == |s.sett.log| + 1 && !t.sett.healthy
    && t.sett.log[|s.sett.log|].snapshot == t.mem && t.sett.log[|s.sett.log|].store.key == key
  }

  /**
   * A loaded journal joins memory: entries in memory win by identity, everything else
   * of the record is added, and no other entry changes.
   */
  lemma JournalRecordIsMerged(s: State, a: nat)
    requires SafetyInv(s) && AdoptEnabled(s.pend, s.g, s.settings, a)
    ensures var t, load := AdoptJournal(s, a), s.pend.loads[a];
            && var loaded := if load.pc.result.Loaded? then load.pc.result.value else [];
            && (forall e :: e in t.journal <==>
                  e in s.journal || (e in loaded && !exists d :: d in s.journal && d.scope == load.store.key && d.id == e.id))
            && t.mem == s.mem && t.sett == s.sett && t.pass == s.pass
  {
    var load := s.pend.loads[a];
    var loaded := if load.pc.result.Loaded? then load.pc.result.value else [];
    LoadedIsScoped(s, a);
    MergedContents(s.journal, loaded, load.store.key);
  }

  lemma LoadedIsScoped(s: State, a: nat)
    requires SafetyInv(s) && AdoptEnabled(s.pend, s.g, s.settings, a)
    ensures DistinctIds(s.journal)
    ensures s.pend.loads[a].pc.result.Loaded? ==> IsScoped(s.pend.loads[a].pc.result.value, s.pend.loads[a].store.key)
  {
    assert IsLive(s.pend, s.g, a);
  }

  lemma MergedContents(j: seq<Intent>, loaded: seq<Intent>, key: Scope)
    requires DistinctIds(j) && IsScoped(loaded, key)
    ensures forall e :: e in Filter(j, (e: Intent) => e.scope != key) + Merge(loaded, Entries(j, key)) <==>
                        e in j || (e in loaded && !exists d :: d in j && d.scope == key && d.id == e.id)
  {
    EntriesAreScoped(j, key);
    MergeIsUnion(loaded, Entries(j, key));
    forall e
      ensures HasId(Entries(j, key), e) <==> exists d :: d in j && d.scope == key && d.id == e
    {
      if d :| d in j && d.scope == key && d.id == e {
        assert d in Entries(j, key);
      }
    }
  }

  /** And it is written back exactly when there was no record, or memory had something of its scope. */
  lemma JournalRecordIsWrittenBack(s: State, a: nat)
    requires AdoptEnabled(s.pend, s.g, s.settings, a)
    ensures var t, load := AdoptJournal(s, a), s.pend.loads[a];
            && t.pend.store == Some(load.store)
            && (if load.pc.result.Missing? || exists e :: e in s.journal && e.scope == load.store.key
                then !t.pend.healthy && |t.pend.log| == |s.pend.log| + 1 && t.pend.log[|s.pend.log|].store == load.store
                else t.pend.healthy && t.pend.log == s.pend.log)
  {
    var inMemory := Entries(s.journal, s.pend.loads[a].store.key);
    if e :| e in s.journal && e.scope == s.pend.loads[a].store.key {
      assert e in inMemory;
    }
    if inMemory != [] {
      assert inMemory[0] in inMemory;
    }
  }

  // ---------------------------------------------------------------------------
  // Scope switches
  // ---------------------------------------------------------------------------

  /**
   * Activating another scope drops all authority at once: both lanes are unhealthy
   * and detached, settlement memory is empty and the epoch is new, so that nothing
   * begun before is current. Journaled intents stay. Activating the same scope again
   * changes nothing.
   */
  lemma ScopeSwitchDropsAuthority(s: State)
    ensures var t := Step(s, ActivateScope);
            && (Identity(s.settings) != s.g.identity ==>
                  && !t.pend.healthy && !t.sett.healthy && t.pend.store == None && t.sett.store == None
                  && t.mem == Settled(map[], map[], map[], {}) && t.g == Guard(Identity(s.settings), s.g.epoch + 1)
                  && t.journal == s.journal && t.pend.log == s.pend.log && t.sett.log == s.sett.log)
            && (Identity(s.settings) == s.g.identity ==> t == s)
  {
  }

  /** A crash loses all memory and everything in progress; the durable records stay as they are. */
  lemma CrashLeavesTheRecords(s: State)
    requires Enabled(s, Crashes)
    ensures var t := Step(s, Crashes);
            && t.pend.durable == s.pend.durable && t.sett.durable == s.sett.durable && t.settings == s.settings
            && t.journal == [] && t.mem == Settled(map[], map[], map[], {}) && HasEnded(t)
            && t.g.identity == None && t.pend.store == None && t.sett.store == None && !t.pend.healthy && !t.sett.healthy
  {
  }
}
