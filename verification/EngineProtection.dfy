/**
 * What the durable records protect in every run: a confirmed removal leaves a
 * retire stage behind, and an authority that moved leaves a download gate.
 */
module EngineProtection {
  import opened Wrappers
  import opened Authority
  import opened Lanes
  import opened BlobRefs
  import opened Journal
  import opened Settlements
  import opened Engine
  import opened EngineSafety

  // ---------------------------------------------------------------------------
  // Invariant
  // ---------------------------------------------------------------------------

  /** Attached memory of the scope of a claim provides what it claims. */
  ghost predicate IsProvided(s: State, c: Claim) {
    s.sett.store.Some? && s.g.identity == Some(c.scope) ==> Protects(s.mem, c.what)
  }

  /** Every snapshot of the scope from position `from` on that is still queued provides it. */
  ghost predicate IsQueuedFrom(l: Lane<Settled>, c: Claim, from: int) {
    forall i :: from <= i < |l.log| && l.done <= i && l.log[i].store.key == c.scope ==> Protects(l.log[i].snapshot, c.what)
  }

  ghost predicate IsDurable(l: Lane<Settled>, c: Claim) {
    c.scope in l.durable && Protects(l.durable[c.scope], c.what)
  }

  /** A confirmed protection is durable, and whatever will be written next keeps it. */
  ghost predicate ClaimsInv(s: State) {
    forall c :: c in s.claims ==> IsDurable(s.sett, c) && IsQueuedFrom(s.sett, c, 0) && IsProvided(s, c)
  }

  /** A protection whose write is awaited: once the write has landed, it is as good as confirmed. */
  ghost predicate PendingInv(s: State) {
    s.pending.Some? ==>
      var (c, w) := s.pending.value;
      && 0 < w <= |s.sett.log| && s.sett.log[w - 1].store.key == c.scope
      && (s.sett.done < w || s.sett.log[w - 1].landed ==>
            && IsQueuedFrom(s.sett, c, w - 1)
            && (s.sett.log[w - 1].landed ==> IsDurable(s.sett, c))
            && IsProvided(s, c))
  }

  /** The write a pending protection waits for is the one the pass is suspended on. */
  ghost predicate AwaitInv(s: State) {
    s.pending.Some? ==>
      var (c, w) := s.pending.value;
      || (s.pass.pc.PreparingRemoval? && s.pass.pc.prep == Waiting(Some(w))
          && c.what == FenceOf(s.pass.pc.it))
      || (s.pass.pc.GateWrite? && s.pass.pc.write == Some(w) && s.pass.pc.gateAdded
          && c.what == DownloadGate(SourcePath(s.pass.pc.it)))
  }

  /**
   * Attached memory and the last snapshot of its key agree on every gate, and on
   * every fence but the unsaved ones, which are not in the snapshot.
   */
  ghost predicate SyncInv(s: State) {
    s.sett.store.Some? ==>
      && s.sett.store.value.key in s.sett.last
      && var last := s.sett.last[s.sett.store.value.key];
         && (forall p :: IsGated(s.mem, p) <==> IsGated(last, p))
         && (forall p :: p !in s.unsaved ==> At(s.mem.stages, p) == At(last.stages, p))
         && (forall p :: p in s.unsaved ==> p !in last.stages)
  }

  ghost predicate CoverInv(s: State) {
    ClaimsInv(s) && PendingInv(s)
  }

  ghost predicate ProtectionInv(s: State) {
    CoverInv(s) && AwaitInv(s) && SyncInv(s)
  }

  // ---------------------------------------------------------------------------
  // Memory and writes
  // ---------------------------------------------------------------------------

  lemma SetMemCovers(s: State, mem: Settled)
    requires CoverInv(s)
    ensures CoverInv(SetMem(s, mem))
  {
  }

  lemma ActivateCovers(s: State)
    requires CoverInv(s)
    ensures CoverInv(DoActivate(s))
  {
  }

  lemma ActivateProtects(s: State)
    requires ProtectionInv(s)
    ensures ProtectionInv(DoActivate(s))
  {
  }

  /** An accepted or refused write leaves memory and the last snapshot in agreement. */
  lemma AcceptedSettledProtects(s: State)
    requires LaneInv(s.sett, s.g) && CoverInv(s) && AwaitInv(s)
    requires EnqueueSettled(s).write.Some? && DoActivate(s) == s
    ensures ProtectionInv(EnqueueSettled(s).state)
  {
  }

  lemma RefusedSettledProtects(s: State)
    requires LaneInv(s.sett, s.g) && CoverInv(s) && AwaitInv(s)
    requires EnqueueSettled(s).write.None? && DoActivate(s) == s
    ensures ProtectionInv(EnqueueSettled(s).state)
  {
  }

  lemma EnqueueSettledProtects(s: State)
    requires LaneInv(s.sett, s.g) && CoverInv(s) && AwaitInv(s)
    ensures ProtectionInv(EnqueueSettled(s).state)
  {
    var a := DoActivate(s);
    ActivateCovers(s);
    ActivationKeepsLane(s.sett, s.g, s.settings);
    EnqueueActivates(s);
    if EnqueueSettled(s).write.Some? {
      AcceptedSettledProtects(a);
    } else {
      RefusedSettledProtects(a);
    }
  }

  lemma EnqueueJournalProtects(s: State)
    requires ProtectionInv(s)
    ensures ProtectionInv(EnqueueJournal(s).state)
  {
    ActivateProtects(s);
    SameProtection(DoActivate(s), EnqueueJournal(s).state);
  }

  /** The protections do not depend on the journal or its lane. */
  lemma SameProtection(s: State, t: State)
    requires ProtectionInv(s) && t.pass == s.pass
    requires t.sett == s.sett && t.g == s.g && t.mem == s.mem && t.unsaved == s.unsaved
    requires t.pending == s.pending && t.claims == s.claims
    ensures ProtectionInv(t)
  {
  }

  // ---------------------------------------------------------------------------
  // Lanes
  // ---------------------------------------------------------------------------

  lemma LandCovers(s: State)
    requires CoverInv(s) && QueueInv(s.sett) && s.sett.done < |s.sett.log|
    ensures CoverInv(s.(sett := Land(s.sett)))
  {
  }

  lemma SettleCovers(s: State, ok: bool)
    requires CoverInv(s) && QueueInv(s.sett) && s.sett.done < |s.sett.log|
    ensures CoverInv(s.(sett := Settle(s.sett, s.g, s.settings, ok)))
  {
  }

  lemma SettledLaneProtects(s: State, e: LaneEvent)
    requires ProtectionInv(s) && LaneInv(s.sett, s.g) && !e.Ensure? && LaneEnabled(s.sett, e, s.g, s.settings)
    ensures ProtectionInv(s.(sett := LaneStep(s.sett, e, s.g, s.settings)))
  {
    LaneStepKeepsLast(s.sett, e, s.g, s.settings);
    if e.LandWrite? {
      LandCovers(s);
    } else if e.SettleWrite? {
      SettleCovers(s, e.ok);
    } else {
      LoadStepProtects(s, LaneStep(s.sett, e, s.g, s.settings));
    }
  }

  lemma LoadStepProtects(s: State, l: Lane<Settled>)
    requires ProtectionInv(s) && l.last == s.sett.last
    requires l.log == s.sett.log && l.done == s.sett.done && l.durable == s.sett.durable
    requires l.store.None? || l.store == s.sett.store
    ensures ProtectionInv(s.(sett := l))
  {
    DetachCovers(s, l);
  }

  lemma EnsureJournalProtects(s: State, opens: bool)
    requires ProtectionInv(s)
    ensures ProtectionInv(EnsureJournal(s, opens))
  {
    ActivateProtects(s);
    SameProtection(DoActivate(s), EnsureJournal(s, opens));
  }

  lemma DetachCovers(s: State, l: Lane<Settled>)
    requires CoverInv(s)
    requires l.log == s.sett.log && l.done == s.sett.done && l.durable == s.sett.durable
    requires l.store.None? || l.store == s.sett.store
    ensures CoverInv(s.(sett := l))
  {
  }

  lemma EnsureSettledProtects(s: State, opens: bool)
    requires ProtectionInv(s)
    ensures ProtectionInv(EnsureSettled(s, opens))
  {
    ActivateProtects(s);
    var a := DoActivate(s);
    DetachCovers(a, BeginEnsure(a.sett, a.g, a.settings, opens));
  }

  lemma AdoptedStillProtects(value: Settled, legacy: set<Path>, what: Protection)
    requires Protects(value, what)
    ensures Protects(AdoptedSettled(Loaded(value), legacy), what)
  {
  }

  lemma AdoptSettledProtects(s: State, a: nat, migrate: bool, legacy: set<Path>)
    requires ProtectionInv(s) && LaneInv(s.sett, s.g) && AdoptEnabled(s.sett, s.g, s.settings, a)
    ensures ProtectionInv(AdoptSettled(s, a, migrate, legacy))
  {
    var load := s.sett.loads[a];
    var result := load.pc.result;
    var t := AdoptSettled(s, a, migrate, legacy);
    assert IsLive(s.sett, s.g, a);
    assert forall i :: 0 <= i < |s.sett.log| ==> t.sett.log[i] == s.sett.log[i];
    forall c: Claim | c.scope == load.store.key && IsDurable(s.sett, c)
      ensures Protects(t.mem, c.what)
    {
      AdoptedStillProtects(result.value, if result.Missing? || migrate then legacy else {}, c.what);
    }
  }

  lemma AdoptJournalProtects(s: State, a: nat)
    requires ProtectionInv(s) && LaneInv(s.pend, s.g) && TodoInv(s) && AdoptEnabled(s.pend, s.g, s.settings, a)
    ensures ProtectionInv(AdoptJournal(s, a))
  {
  }

  lemma CrashProtects(s: State)
    requires ProtectionInv(s) && LaneInv(s.sett, s.g) && LaneInv(s.pend, s.g)
    ensures ProtectionInv(CrashState(s))
  {
  }

  // ---------------------------------------------------------------------------
  // Other events
  // ---------------------------------------------------------------------------

  lemma PersistJournalProtects(s: State, opens: bool)
    requires ProtectionInv(s)
    ensures ProtectionInv(PersistJournal(s, opens))
  {
    ActivateProtects(s);
    var a := DoActivate(s);
    if a.pend.store.None? || a.pend.store.value.key != a.settings {
      var b := a.(pend := a.pend.(healthy := false));
      SameProtection(a, b);
      EnsureJournalProtects(b, opens);
    } else {
      EnqueueJournalProtects(a);
    }
  }

  lemma RecordProtects(s: State, journal: seq<Intent>, nextId: nat)
    requires ProtectionInv(s)
    ensures ProtectionInv(s.(journal := journal, nextId := nextId))
  {
  }

  lemma PersistRecordedProtects(s: State, journal: seq<Intent>, opens: bool)
    requires ProtectionInv(s)
    ensures ProtectionInv(PersistRecorded(s, journal, opens))
  {
    if IsComplete(s.settings) {
      var recorded := WithJournal(s, journal);
      RecordProtects(s, journal, s.nextId + 2);
      PersistJournalProtects(recorded, opens);
      assert PersistRecorded(s, journal, opens) == PersistJournal(recorded, opens);
    } else {
      var closed := s.(pend := s.pend.(healthy := false));
      SameProtection(s, closed);
      assert PersistRecorded(s, journal, opens) == closed;
    }
  }

  lemma SetMemThenEnqueueProtects(s: State, mem: Settled)
    requires ProtectionInv(s) && LaneInv(s.sett, s.g)
    ensures ProtectionInv(EnqueueSettled(SetMem(s, mem)).state)
  {
    SetMemCovers(s, mem);
    EnqueueSettledProtects(SetMem(s, mem));
  }

  // ---------------------------------------------------------------------------
  // Replay
  // ---------------------------------------------------------------------------

  /** A segment that changes nothing the protections depend on, and stops waiting for none. */
  ghost predicate LeavesProtections(s: State, t: State) {
    && t.sett == s.sett && t.g == s.g && t.unsaved == s.unsaved && t.claims == s.claims
    && t.mem.stages == s.mem.stages && t.mem.gate == s.mem.gate
    && (t.pending == None || (t.pending == s.pending && t.pass == s.pass))
  }

  lemma LeavingProtects(s: State, t: State)
    requires ProtectionInv(s) && LeavesProtections(s, t)
    ensures ProtectionInv(t)
  {
  }

  /** No protection is pending outside the two places that wait for one. */
  lemma NothingPends(s: State)
    requires AwaitInv(s) && !(s.pass.pc.PreparingRemoval? && s.pass.pc.prep.Waiting?) && !s.pass.pc.GateWrite?
    ensures s.pending == None
  {
  }

  lemma MoveProtects(s: State, t: State)
    requires ProtectionInv(s) && t == s.(pass := t.pass, journal := t.journal, nextAttempt := t.nextAttempt)
    requires !(s.pass.pc.PreparingRemoval? && s.pass.pc.prep.Waiting?) && !s.pass.pc.GateWrite?
    ensures ProtectionInv(t)
  {
  }

  lemma EnqueueJournalAndMoveProtects(s: State, q: Pass)
    requires ProtectionInv(s) && s.pending == None
    ensures ProtectionInv(EnqueueJournal(s).state.(pass := q))
  {
  }

  lemma WriteRemovalProtects(s: State)
    requires ProtectionInv(s) && s.pending == None
    ensures ProtectionInv(WriteRemoval(s))
  {
  }

  lemma DropEpisodeCovers(s: State, it: Intent, d: Disposition, pc: Pc)
    requires CoverInv(s)
    ensures CoverInv(DropEpisode(s, it, d, pc))
  {
  }

  /** The write of a new gate or of dropped stages. */
  lemma WriteGateProtects(s: State)
    requires LaneInv(s.sett, s.g) && CoverInv(s) && AwaitInv(s) && s.pending == None
    requires s.pass.pc.GateWrite? && (s.pass.pc.gateAdded ==> SourcePath(s.pass.pc.it) in s.mem.gate)
    ensures ProtectionInv(WriteGate(s))
  {
    var e := EnqueueSettled(s);
    EnqueueSettledProtects(s);
    if e.write.Some? {
      assert e.state.sett.log[e.write.value - 1].snapshot == s.mem;
    }
  }

  lemma DropEpisodeSyncs(s: State, it: Intent, d: Disposition, pc: Pc)
    requires SyncInv(s) && RetireEpisode(s.mem, it, d).stages == s.mem.stages
    requires d.AuthorityMoved? ==> SourcePath(it) in s.mem.gate
    ensures SyncInv(DropEpisode(s, it, d, pc))
  {
  }

  lemma RetireStuckProtects(s: State, it: Intent, d: Disposition)
    requires ProtectionInv(s) && LaneInv(s.sett, s.g)
    ensures ProtectionInv(RetireStuck(s, it, d))
  {
    var gateAdded := d.AuthorityMoved? && SourcePath(it) !in s.mem.gate;
    if RetireEpisode(s.mem, it, d).stages == s.mem.stages && !gateAdded {
      var dropped := DropEpisode(s, it, d, RemovalWrite(None));
      DropEpisodeCovers(s, it, d, RemovalWrite(None));
      DropEpisodeSyncs(s, it, d, RemovalWrite(None));
      assert dropped.pending == None;
      WriteRemovalProtects(dropped);
      assert RetireStuck(s, it, d) == WriteRemoval(dropped);
    } else {
      var pc := GateWrite(it, None, gateAdded);
      var dropped := DropEpisode(s, it, d, pc);
      DropEpisodeCovers(s, it, d, pc);
      assert dropped.pending == None && dropped.pass.pc == pc;
      WriteGateProtects(dropped);
      assert RetireStuck(s, it, d) == WriteGate(dropped);
    }
  }

  lemma RetireOrQuarantineProtects(s: State, sight: Sight, changed: bool, it: Intent)
    requires ProtectionInv(s) && LaneInv(s.sett, s.g) && s.pending == None
    ensures ProtectionInv(RetireOrQuarantine(s, sight, changed, it))
  {
    var d := DecideRetirement(it, sight.diskOccupied, SourcePath(it) in sight.remote.refs);
    if d.Retain? {
      LeavingProtects(s, Suspend(s, Looping(changed)));
      assert RetireOrQuarantine(s, sight, changed, it) == Suspend(s, Looping(changed));
    } else {
      RetireStuckProtects(s, it, d);
      assert RetireOrQuarantine(s, sight, changed, it) == RetireStuck(s, it, d);
    }
  }

  /** A successful write confirms the protection that waited for it. */
  lemma ConfirmingProtects(s: State, w: nat)
    requires ProtectionInv(s) && QueueInv(s.sett) && IsOk(s.sett, Some(w))
    requires s.pending.Some? ==> s.pending.value.1 == w
    ensures ProtectionInv(ConfirmPending(s)) && ConfirmPending(s).pending == None
  {
  }

  lemma FinishGateWriteProtects(s: State, sight: Sight)
    requires ProtectionInv(s) && QueueInv(s.sett) && s.pass.pc.GateWrite?
    ensures ProtectionInv(FinishGateWrite(s, sight))
  {
    var pc := s.pass.pc;
    var t := FinishGateWrite(s, sight);
    if IsDone(s.sett, pc.write) {
      if IsOk(s.sett, pc.write) {
        ConfirmingProtects(s, pc.write.value);
        WriteRemovalProtects(ConfirmPending(s));
        assert t == WriteRemoval(ConfirmPending(s));
      } else if pc.gateAdded {
        var restored := s.(journal := Restore(s.journal, pc.it), pending := None);
        LeavingProtects(s, restored);
        LeavingProtects(restored, NextEntry(restored, sight, true));
        assert t == NextEntry(restored, sight, true);
      } else {
        var s1 := s.(pending := None);
        LeavingProtects(s, s1);
        WriteRemovalProtects(s1);
        assert t == WriteRemoval(s1);
      }
    }
  }

  lemma TakeUpCovers(s: State, it: Intent, p: Preparation, pc: Pc)
    requires CoverInv(s)
    ensures CoverInv(TakeUp(s, it, p, pc))
  {
  }

  lemma TakeUpSyncs(s: State, it: Intent, sight: Sight, pc: Pc)
    requires SyncInv(s) && !Prepare(s.mem, it, sight.remote, sight.now).Write?
    ensures SyncInv(TakeUp(s, it, Prepare(s.mem, it, sight.remote, sight.now), pc))
  {
  }

  lemma WritePreparationProtects(s: State)
    requires LaneInv(s.sett, s.g) && CoverInv(s) && s.pending == None
    requires s.pass.pc.PreparingRemoval? && Protects(s.mem, FenceOf(s.pass.pc.it))
    ensures ProtectionInv(WritePreparation(s))
  {
    var e := EnqueueSettled(s);
    EnqueueSettledProtects(s);
    if e.write.Some? {
      assert e.state.sett.log[e.write.value - 1].snapshot == s.mem;
    }
  }

  lemma BeginRemovalProtects(s: State, sight: Sight, changed: bool, it: Intent)
    requires ProtectionInv(s) && LaneInv(s.sett, s.g)
    ensures ProtectionInv(BeginRemoval(s, sight, changed, it))
  {
    var p := Prepare(s.mem, it, sight.remote, sight.now);
    var pc := PreparingRemoval(it, changed, if p.Refuse? then Refusing else Unwritten);
    var taken := TakeUp(s, it, p, pc);
    TakeUpCovers(s, it, p, pc);
    assert AwaitInv(taken);
    if p.Write? {
      PreparationFencesSource(s.mem, it, sight.remote, sight.now);
      WritePreparationProtects(taken);
      assert BeginRemoval(s, sight, changed, it) == WritePreparation(taken);
    } else {
      TakeUpSyncs(s, it, sight, pc);
      assert BeginRemoval(s, sight, changed, it) == taken;
    }
  }

  lemma FinishPreparationProtects(s: State, sight: Sight)
    requires ProtectionInv(s) && QueueInv(s.sett) && s.pass.pc.PreparingRemoval?
    ensures ProtectionInv(FinishPreparation(s, sight))
  {
    var pc := s.pass.pc;
    var t := FinishPreparation(s, sight);
    match pc.prep
    case Refusing => LeavingProtects(s, t);
    case Unwritten => LeavingProtects(s, t);
    case Waiting(w) =>
      if IsDone(s.sett, w) {
        if IsOk(s.sett, w) {
          ConfirmingProtects(s, w.value);
          LeavingProtects(ConfirmPending(s), t);
        } else {
          LeavingProtects(s, t);
        }
      }
  }

  /** A fence that was saved before is durable whenever the lane is healthy. */
  lemma SavedFenceIsDurable(s: State, it: Intent)
    requires ProtectionInv(s) && LaneInv(s.sett, s.g) && FenceIsSaved(s, it)
    ensures IsDurable(s.sett, Claim(s.pass.scope, FenceOf(it)))
    ensures s.sett.done == |s.sett.log|
  {
  }

  lemma ClaimingProtects(s: State, c: Claim)
    requires ProtectionInv(s) && IsDurable(s.sett, c) && s.sett.done == |s.sett.log| && Protects(s.mem, c.what)
    ensures ProtectionInv(s.(claims := s.claims + {c}))
  {
  }

  lemma FinishRemovalProtects(s: State, sight: Sight)
    requires ProtectionInv(s) && LaneInv(s.sett, s.g) && s.pass.pc.PreparedRemoval?
    ensures ProtectionInv(FinishRemoval(s, sight))
  {
    var pc := s.pass.pc;
    NothingPends(s);
    if !pc.ok {
      RetireOrQuarantineProtects(s, sight, pc.changed, pc.it);
      assert FinishRemoval(s, sight) == RetireOrQuarantine(s, sight, pc.changed, pc.it);
    } else {
      var t := Suspend(s, Looping(pc.changed || HasId(s.journal, pc.it.id))).(journal := Remove(s.journal, pc.it.id));
      LeavingProtects(s, t);
      if FenceIsSaved(s, pc.it) {
        SavedFenceIsDurable(s, pc.it);
        ClaimingProtects(t, Claim(s.pass.scope, FenceOf(pc.it)));
        assert FinishRemoval(s, sight) == t.(claims := t.claims + {Claim(s.pass.scope, FenceOf(pc.it))});
      } else {
        assert FinishRemoval(s, sight) == t;
      }
    }
  }

  lemma BeginAttemptProtects(s: State, sight: Sight, it: Intent)
    requires ProtectionInv(s) && s.pass.pc.AtEntry?
    ensures ProtectionInv(BeginAttempt(s, sight, it))
  {
    NothingPends(s);
    if MarkAttempt(s, sight, it).ok {
      var s1 := WithAttempt(s, sight, it);
      LeavingProtects(s, s1);
      EnqueueJournalProtects(s1);
      var e := EnqueueJournal(s1);
      MoveProtects(e.state, WriteAttempt(s1, it, s.nextAttempt));
      assert BeginAttempt(s, sight, it) == WriteAttempt(s1, it, s.nextAttempt);
    } else {
      LeavingProtects(s, Stop(s));
      assert BeginAttempt(s, sight, it) == Stop(s);
    }
  }

  lemma EnqueueJournalKeepsSettledLane(s: State)
    requires LaneInv(s.sett, s.g)
    ensures var t := EnqueueJournal(s).state; LaneInv(t.sett, t.g) && (s.pending == None ==> t.pending == None)
  {
    ActivationKeepsLane(s.sett, s.g, s.settings);
    assert EnqueueJournal(s).state.sett == DoActivate(s).sett;
  }

  lemma EnqueueSettledAndMoveProtects(s: State, q: Pass)
    requires ProtectionInv(s) && LaneInv(s.sett, s.g) && s.pending == None
    ensures ProtectionInv(EnqueueSettled(s).state.(pass := q))
  {
    EnqueueSettledProtects(s);
    var t := EnqueueSettled(s).state;
    assert t.pending == None;
    LeavingProtects(t, t.(pass := q));
  }

  lemma PersistFinalProtects(s: State, q: Pass)
    requires ProtectionInv(s) && LaneInv(s.sett, s.g)
    requires s.pending == None
    ensures ProtectionInv(PersistFinal(s).state.(pass := q))
  {
    EnqueueJournalProtects(s);
    EnqueueJournalKeepsSettledLane(s);
    EnqueueSettledAndMoveProtects(EnqueueJournal(s).state, q);
  }

  lemma CasClearsProtects(s: State, stale: bool)
    requires ProtectionInv(s) && LaneInv(s.sett, s.g) && s.pass.pc.Attempting?
    ensures ProtectionInv(CasClears(s, stale))
  {
    NothingPends(s);
    var it := s.pass.pc.it;
    var cleared := ClearCommitAttempt(s.journal, it.id, s.pass.pc.attempt);
    if cleared.ok {
      var s1 := Suspend(s, Clearing(it, None, None, stale)).(journal := cleared.entries);
      LeavingProtects(s, s1);
      PersistFinalProtects(s1, WriteClear(s1).pass);
      assert CasClears(s, stale) == WriteClear(s1);
    } else {
      LeavingProtects(s, Stop(s));
      assert CasClears(s, stale) == Stop(s);
    }
  }

  lemma AppliedStateProtects(s: State, sight: Sight, current: Intent)
    requires ProtectionInv(s) && s.pass.pc.Attempting? && sight.cas.Mutates?
    ensures ProtectionInv(AppliedState(s, sight, current)) && AppliedState(s, sight, current).pending == None
  {
  }

  lemma WriteCommitProtects(s: State, journal: seq<Intent>)
    requires ProtectionInv(s) && LaneInv(s.sett, s.g) && s.pass.pc.Committing? && s.pending == None
    ensures ProtectionInv(WriteCommit(s.(journal := journal))) && ProtectionInv(Stop(s))
  {
    var marked := s.(journal := journal);
    LeavingProtects(s, marked);
    PersistFinalProtects(marked, WriteCommit(marked).pass);
    LeavingProtects(s, Stop(s));
  }

  lemma CasCommitsProtects(s: State, sight: Sight, current: Intent)
    requires ProtectionInv(s) && LaneInv(s.sett, s.g) && s.pass.pc.Attempting? && sight.cas.Mutates?
    ensures ProtectionInv(CasCommits(s, sight, current))
  {
    var applied, marked := AppliedState(s, sight, current), MarkFinal(s, sight);
    AppliedStateProtects(s, sight, current);
    WriteCommitProtects(applied, marked.entries);
    if !sight.cas.boundAfter || !marked.ok {
      assert CasCommits(s, sight, current) == Stop(applied);
    } else {
      assert CasCommits(s, sight, current) == WriteCommit(applied.(journal := marked.entries));
    }
  }

  lemma CasProtects(s: State, sight: Sight)
    requires ProtectionInv(s) && LaneInv(s.sett, s.g) && s.pass.pc.Attempting? && s.pass.pc.at.AtCas?
    ensures ProtectionInv(Cas(s, sight))
  {
    NothingPends(s);
    if !IsAttemptCurrent(s, sight) {
      LeavingProtects(s, Stop(s));
      assert Cas(s, sight) == Stop(s);
    } else {
      var current := CurrentEntry(s, s.pass.pc.it.id).value;
      if sight.cas.Mutates? {
        CasCommitsProtects(s, sight, current);
        assert Cas(s, sight) == CasCommits(s, sight, current);
      } else if sight.cas.NoMutation? {
        CasClearsProtects(s, sight.cas.stale);
        assert Cas(s, sight) == CasClears(s, sight.cas.stale);
      } else {
        LeavingProtects(s, Cas(s, sight));
      }
    }
  }

  lemma FinishClearProtects(s: State, sight: Sight)
    requires ProtectionInv(s) && s.pass.pc.Clearing?
    ensures ProtectionInv(FinishClear(s, sight))
  {
    NothingPends(s);
    var t := FinishClear(s, sight);
    if t.pass.pc.StaleRemoval? {
      var s1 := Suspend(s, StaleRemoval(s.pass.pc.it, None)).(journal := Remove(s.journal, s.pass.pc.it.id));
      LeavingProtects(s, s1);
      EnqueueJournalAndMoveProtects(s1, WriteStaleRemoval(s1).pass);
      assert t == WriteStaleRemoval(s1);
    } else {
      LeavingProtects(s, t);
    }
  }

  lemma FinishStaleRemovalProtects(s: State, sight: Sight)
    requires ProtectionInv(s) && s.pass.pc.StaleRemoval?
    ensures ProtectionInv(FinishStaleRemoval(s, sight))
  {
    NothingPends(s);
    var t := FinishStaleRemoval(s, sight);
    if t.pass.pc.LastWrite? {
      var restored := s.(journal := Restore(s.journal, s.pass.pc.it));
      LeavingProtects(s, restored);
      EnqueueJournalAndMoveProtects(restored, WriteRestored(restored).pass);
      assert t == WriteRestored(restored);
    } else {
      LeavingProtects(s, t);
    }
  }

  lemma EndLoopProtects(s: State)
    requires ProtectionInv(s) && s.pass.pc.Looping?
    ensures ProtectionInv(EndLoop(s))
  {
  }

  lemma ProcessEntryProtects(s: State, sight: Sight)
    requires ProtectionInv(s) && LaneInv(s.sett, s.g) && s.pass.pc.AtEntry?
    ensures ProtectionInv(ProcessEntry(s, sight))
  {
    NothingPends(s);
    var it, changed := s.pass.pc.it, s.pass.pc.changed;
    var t := ProcessEntry(s, sight);
    if t == RetireOrQuarantine(s, sight, changed, it) {
      RetireOrQuarantineProtects(s, sight, changed, it);
    } else if it.phase.Committed? && sight.receipt && Postcondition(it, sight.remote) {
      BeginRemovalProtects(s, sight, changed, it);
      assert t == BeginRemoval(s, sight, changed, it);
    } else if it.phase.Committed? {
      LeavingProtects(s, Suspend(s, Looping(changed)));
      assert t == Suspend(s, Looping(changed));
    } else {
      BeginAttemptProtects(s, sight, it);
      assert t == BeginAttempt(s, sight, it);
    }
  }

  lemma StartPassProtects(s: State, sight: Sight)
    requires ProtectionInv(s) && s.pass.pc.Idle?
    ensures ProtectionInv(StartPass(s, sight))
  {
    NothingPends(s);
    ActivateProtects(s);
    var t := StartPass(s, sight);
    if t.pass.pc.OpeningJournal? {
      LeavingProtects(DoActivate(s), t);
    }
  }

  lemma SmallSegmentsProtect(s: State, sight: Sight)
    requires ProtectionInv(s)
    requires s.pass.pc.OpeningJournal? || s.pass.pc.OpeningSettled? || s.pass.pc.RemovalWrite? || s.pass.pc.Committing?
             || s.pass.pc.LastWrite? || (s.pass.pc.Attempting? && !s.pass.pc.at.AtCas?)
    ensures ProtectionInv(ReplayStep(s, sight))
  {
    NothingPends(s);
    SmallSegmentsMove(s, sight);
    LeavingProtects(s, ReplayStep(s, sight));
  }

  lemma SmallSegmentsMove(s: State, sight: Sight)
    requires s.pass.pc.OpeningJournal? || s.pass.pc.OpeningSettled? || s.pass.pc.RemovalWrite? || s.pass.pc.Committing?
             || s.pass.pc.LastWrite? || (s.pass.pc.Attempting? && !s.pass.pc.at.AtCas?)
    ensures var t := ReplayStep(s, sight); t == s.(pass := t.pass)
  {
  }

  lemma ReplayStepProtects(s: State, sight: Sight)
    requires ProtectionInv(s) && LaneInv(s.sett, s.g)
    ensures ProtectionInv(ReplayStep(s, sight))
  {
    var t := ReplayStep(s, sight);
    match s.pass.pc
    case Idle => StartPassProtects(s, sight); assert t == StartPass(s, sight);
    case Looping(_) =>
      if s.pass.todo == [] {
        EndLoopProtects(s);
        assert t == EndLoop(s);
      } else {
        NothingPends(s);
        LeavingProtects(s, TakeEntry(s));
        ProcessEntryProtects(TakeEntry(s), sight);
        assert t == ProcessEntry(TakeEntry(s), sight);
      }
    case AtEntry(_, _) => ProcessEntryProtects(s, sight); assert t == ProcessEntry(s, sight);
    case PreparingRemoval(_, _, _) => FinishPreparationProtects(s, sight); assert t == FinishPreparation(s, sight);
    case PreparedRemoval(_, _, _) => FinishRemovalProtects(s, sight); assert t == FinishRemoval(s, sight);
    case GateWrite(_, _, _) => FinishGateWriteProtects(s, sight); assert t == FinishGateWrite(s, sight);
    case Attempting(_, _, at) =>
      if at.AtCas? {
        CasProtects(s, sight);
        assert t == Cas(s, sight);
      } else {
        SmallSegmentsProtect(s, sight);
      }
    case Clearing(_, _, _, _) => FinishClearProtects(s, sight); assert t == FinishClear(s, sight);
    case StaleRemoval(_, _) => FinishStaleRemovalProtects(s, sight); assert t == FinishStaleRemoval(s, sight);
    case _ => SmallSegmentsProtect(s, sight);
  }

  lemma LaneEventProtects(s: State, e: Event)
    requires ProtectionInv(s) && LanesInv(s) && TodoInv(s) && Enabled(s, e) && IsLaneEvent(e)
    ensures ProtectionInv(Step(s, e))
  {
    match e
    case JournalLane(le) =>
      if le.Ensure? {
        EnsureJournalProtects(s, le.opens);
      } else {
        SameProtection(s, s.(pend := LaneStep(s.pend, le, s.g, s.settings)));
      }
    case SettledLane(le) =>
      if le.Ensure? {
        EnsureSettledProtects(s, le.opens);
      } else {
        SettledLaneProtects(s, le);
      }
    case JournalAdopts(a) => AdoptJournalProtects(s, a);
    case SettledAdopts(a, migrate, legacy) => AdoptSettledProtects(s, a, migrate, legacy);
  }

  /** Settlement callbacks and changes of the gate. */
  lemma SettlementEventProtects(s: State, e: Event)
    requires ProtectionInv(s) && LaneInv(s.sett, s.g) && Enabled(s, e) && (e.Settlement? || e.Gate?)
    ensures ProtectionInv(Step(s, e))
  {
    var t := Step(s, e);
    if e.Settlement? {
      if Call(s.mem, e.c).Accepted? {
        SetMemThenEnqueueProtects(s, Call(s.mem, e.c).state);
        assert t == EnqueueSettled(SetMem(s, Call(s.mem, e.c).state)).state;
      } else {
        assert t == s;
      }
    } else {
      var mem := s.mem.(gate := if e.gated then s.mem.gate + {e.path} else s.mem.gate - {e.path});
      SetMemThenEnqueueProtects(s, mem);
      assert t == EnqueueSettled(SetMem(s, mem)).state;
    }
  }

  lemma StepProtects(s: State, e: Event)
    requires ProtectionInv(s) && LanesInv(s) && TodoInv(s) && Enabled(s, e)
    ensures ProtectionInv(Step(s, e))
  {
    match e
    case ChangeSettings(scope) => SameProtection(s, s.(settings := scope));
    case ActivateScope => ActivateProtects(s);
    case PersistsJournal(opens) => PersistJournalProtects(s, opens);
    case PersistsSettled => EnqueueSettledProtects(s);
    case Local(file, opens) => PersistRecordedProtects(s, Recording(s, file), opens);
    case Settlement(_) => SettlementEventProtects(s, e);
    case Gate(_, _) => SettlementEventProtects(s, e);
    case Forgets(_) => ForgettingProtects(s, Step(s, e));
    case Replays(sight) => ReplayStepProtects(s, sight);
    case Crashes => CrashProtects(s);
    case _ => LaneEventProtects(s, e);
  }

  lemma ForgettingProtects(s: State, t: State)
    requires ProtectionInv(s) && t == s.(mem := t.mem) && t.mem.stages == s.mem.stages && t.mem.gate == s.mem.gate
    ensures ProtectionInv(t)
  {
  }

  lemma {:induction false} RunProtects(s: State, es: seq<Event>, t: State)
    requires SafetyInv(s) && ProtectionInv(s) && IsRun(s, es, t)
    ensures ProtectionInv(t)
    decreases |es|
  {
    if es != [] {
      StepIsSafe(s, es[0]);
      StepProtects(s, es[0]);
      RunProtects(Step(s, es[0]), es[1..], t);
    }
  }

  lemma ReachableProtects(s: State)
    requires Reachable(s)
    ensures ProtectionInv(s)
  {
    var settings, journals, settled, nextId, es :|
      GoodJournals(journals, nextId) && IsRun(Start(settings, journals, settled, nextId), es, s);
    StartIsSafe(settings, journals, settled, nextId);
    RunProtects(Start(settings, journals, settled, nextId), es, s);
  }

  // ---------------------------------------------------------------------------
  // Claims in every run
  // ---------------------------------------------------------------------------

  /** A claimed protection is in the durable record now, and in it after every write still queued. */
  lemma ClaimsAreDurable(s: State, c: Claim)
    requires Reachable(s) && c in s.claims
    ensures c.scope in s.sett.durable && Protects(s.sett.durable[c.scope], c.what)
    ensures forall i :: s.sett.done <= i < |s.sett.log| && s.sett.log[i].store.key == c.scope
                        ==> Protects(s.sett.log[i].snapshot, c.what)
  {
    ReachableProtects(s);
  }

  lemma ConfirmedWhenOk(s: State, w: nat)
    requires ProtectionInv(s) && QueueInv(s.sett) && s.pending.Some? && s.pending.value.1 == w && IsOk(s.sett, Some(w))
    ensures IsDurable(s.sett, s.pending.value.0) && s.pending.value.0 in ConfirmPending(s).claims
    ensures s.pending.value.0.scope == s.sett.log[w - 1].store.key
  {
    ConfirmingProtects(s, w);
  }

  lemma ReachableQueues(s: State)
    requires Reachable(s)
    ensures QueueInv(s.sett) && LaneInv(s.sett, s.g)
  {
    ReachableIsSafe(s);
  }

  lemma RemovalWriteKeepsClaims(s: State)
    ensures WriteRemoval(s).claims == s.claims
  {
  }

  /** An awaited preparation write that succeeded has made the fence durable, unless it was given up meanwhile. */
  lemma AwaitedFenceIsDurable(s: State, sight: Sight, w: nat)
    requires Reachable(s) && s.pass.pc.PreparingRemoval? && s.pass.pc.prep == Waiting(Some(w)) && IsOk(s.sett, Some(w))
    requires s.pending.Some?
    ensures var t := FinishPreparation(s, sight);
            var c := Claim(s.sett.log[w - 1].store.key, FenceOf(s.pass.pc.it));
            && t.pass.pc.PreparedRemoval? && c in t.claims && IsDurable(t.sett, c)
  {
    ReachableProtects(s);
    ReachableQueues(s);
    ConfirmedWhenOk(s, w);
    assert FinishPreparation(s, sight).sett == s.sett;
  }

  /** An acknowledged write has made the gate durable, before the journal without the intent is even enqueued. */
  lemma AcknowledgedGateIsDurable(s: State, sight: Sight)
    requires Reachable(s) && s.pass.pc.GateWrite? && s.pending.Some? && IsOk(s.sett, s.pass.pc.write)
    ensures s.pending.value.0 == Claim(s.sett.log[s.pass.pc.write.value - 1].store.key, DownloadGate(SourcePath(s.pass.pc.it)))
    ensures IsDurable(s.sett, s.pending.value.0) && s.pending.value.0 in FinishGateWrite(s, sight).claims
  {
    ReachableProtects(s);
    ReachableQueues(s);
    ConfirmedWhenOk(s, s.pass.pc.write.value);
    RemovalWriteKeepsClaims(ConfirmPending(s));
    assert FinishGateWrite(s, sight) == WriteRemoval(ConfirmPending(s));
  }

  /** A failed gate write puts the intent back in memory and leaves the durable journal alone. */
  lemma FailedGateWriteRestoresTheIntent(s: State, sight: Sight)
    requires s.pass.pc.GateWrite? && s.pass.pc.gateAdded && IsDone(s.sett, s.pass.pc.write) && !IsOk(s.sett, s.pass.pc.write)
    ensures HasId(FinishGateWrite(s, sight).journal, s.pass.pc.it.id)
    ensures FinishGateWrite(s, sight).pend == s.pend
  {
  }

  /** On a healthy settled lane every gate in memory is durable. */
  lemma HealthyGateIsDurable(s: State, path: Path)
    requires Reachable(s) && s.sett.healthy && s.g.identity == Some(s.pass.scope) && path in s.mem.gate
    ensures IsDurable(s.sett, Claim(s.pass.scope, DownloadGate(path)))
  {
    ReachableProtects(s);
    ReachableIsSafe(s);
  }

  /** A path that memory gates already is not written again; on a healthy lane its gate is durable. */
  lemma GateAlreadyThereIsDurable(s: State, it: Intent, d: Disposition)
    requires Reachable(s) && d.AuthorityMoved? && SourcePath(it) in s.mem.gate
    requires RetireEpisode(s.mem, it, d).stages == s.mem.stages
    requires s.sett.healthy && s.g.identity == Some(s.pass.scope)
    ensures RetireStuck(s, it, d).pass.pc.RemovalWrite?
    ensures RetireStuck(s, it, d).sett.durable == s.sett.durable
    ensures IsDurable(s.sett, Claim(s.pass.scope, DownloadGate(SourcePath(it))))
  {
    HealthyGateIsDurable(s, SourcePath(it));
  }

  // ---------------------------------------------------------------------------
  // The end of a claim
  // ---------------------------------------------------------------------------

  /** Every claim survives, unless memory of its own scope stops providing what it provided. */
  ghost predicate ClaimsLast(s: State, t: State) {
    forall c :: c in s.claims && c !in t.claims ==>
      Some(c.scope) == s.g.identity && Protects(s.mem, c.what) && !Protects(t.mem, c.what)
  }

  lemma SetMemThenEnqueueKeepsClaims(s: State, mem: Settled)
    ensures ClaimsLast(s, EnqueueSettled(SetMem(s, mem)).state)
  {
  }

  lemma RetireStuckKeepsClaims(s: State, it: Intent, d: Disposition)
    ensures ClaimsLast(s, RetireStuck(s, it, d))
  {
    var gateAdded := d.AuthorityMoved? && SourcePath(it) !in s.mem.gate;
    if RetireEpisode(s.mem, it, d).stages == s.mem.stages && !gateAdded {
      var dropped := DropEpisode(s, it, d, RemovalWrite(None));
      assert RetireStuck(s, it, d) == WriteRemoval(dropped);
    } else {
      var dropped := DropEpisode(s, it, d, GateWrite(it, None, gateAdded));
      assert RetireStuck(s, it, d) == WriteGate(dropped);
    }
  }

  lemma BeginRemovalKeepsClaims(s: State, sight: Sight, changed: bool, it: Intent)
    ensures ClaimsLast(s, BeginRemoval(s, sight, changed, it))
  {
    var p := Prepare(s.mem, it, sight.remote, sight.now);
    var pc := PreparingRemoval(it, changed, if p.Refuse? then Refusing else Unwritten);
    var taken := TakeUp(s, it, p, pc);
    if p.Write? {
      assert BeginRemoval(s, sight, changed, it) == WritePreparation(taken);
    } else {
      assert BeginRemoval(s, sight, changed, it) == taken;
    }
  }

  lemma ProcessEntryKeepsClaims(s: State, sight: Sight)
    requires s.pass.pc.AtEntry?
    ensures ClaimsLast(s, ProcessEntry(s, sight))
  {
    var it, changed := s.pass.pc.it, s.pass.pc.changed;
    var t := ProcessEntry(s, sight);
    var d := DecideRetirement(it, sight.diskOccupied, SourcePath(it) in sight.remote.refs);
    if t == RetireStuck(s, it, d) {
      RetireStuckKeepsClaims(s, it, d);
    } else if it.phase.Committed? && sight.receipt && Postcondition(it, sight.remote) && !sight.diskOccupied {
      BeginRemovalKeepsClaims(s, sight, changed, it);
      assert t == BeginRemoval(s, sight, changed, it);
    } else {
      assert t.claims == s.claims;
    }
  }

  lemma ReplayStepKeepsClaims(s: State, sight: Sight)
    ensures ClaimsLast(s, ReplayStep(s, sight))
  {
    var t := ReplayStep(s, sight);
    if s.pass.pc.Looping? && s.pass.todo != [] {
      ProcessEntryKeepsClaims(TakeEntry(s), sight);
      assert t == ProcessEntry(TakeEntry(s), sight);
    } else if s.pass.pc.AtEntry? {
      ProcessEntryKeepsClaims(s, sight);
      assert t == ProcessEntry(s, sight);
    } else if s.pass.pc.PreparedRemoval? && !s.pass.pc.ok {
      var it := s.pass.pc.it;
      var d := DecideRetirement(it, sight.diskOccupied, SourcePath(it) in sight.remote.refs);
      RetireStuckKeepsClaims(s, it, d);
      assert t == RetireOrQuarantine(s, sight, s.pass.pc.changed, it);
    } else {
      OtherSegmentsKeepClaims(s, sight);
    }
  }

  lemma OtherSegmentsKeepClaims(s: State, sight: Sight)
    requires !s.pass.pc.AtEntry? && !(s.pass.pc.Looping? && s.pass.todo != []) && !(s.pass.pc.PreparedRemoval? && !s.pass.pc.ok)
    ensures s.claims <= ReplayStep(s, sight).claims
  {
    var t := ReplayStep(s, sight);
    match s.pass.pc
    case GateWrite(_, _, _) => assert t == FinishGateWrite(s, sight);
    case PreparingRemoval(_, _, _) => assert t == FinishPreparation(s, sight);
    case PreparedRemoval(_, _, _) => assert t == FinishRemoval(s, sight);
    case Attempting(_, _, at) =>
      if at.AtCas? {
        CasKeepsClaims(s, sight);
        assert t == Cas(s, sight);
      } else {
        assert t == AdvanceAttempt(s, sight);
      }
    case Clearing(_, _, _, _) => assert t == FinishClear(s, sight);
    case StaleRemoval(_, _) => assert t == FinishStaleRemoval(s, sight);
    case Looping(_) => assert t == EndLoop(s);
    case Idle => assert t == StartPass(s, sight);
    case _ => SmallSegmentsMove(s, sight);
  }

  lemma CasKeepsClaims(s: State, sight: Sight)
    requires s.pass.pc.Attempting? && s.pass.pc.at.AtCas?
    ensures Cas(s, sight).claims == s.claims
  {
  }

  /** No step, no crash and no scope switch ends a protection, unless it gives the protection up in memory. */
  lemma ClaimsEndOnlyWhenGivenUp(s: State, e: Event)
    requires Enabled(s, e)
    ensures ClaimsLast(s, Step(s, e))
  {
    var t := Step(s, e);
    match e
    case Settlement(c) =>
      if Call(s.mem, c).Accepted? {
        SetMemThenEnqueueKeepsClaims(s, Call(s.mem, c).state);
        assert t == EnqueueSettled(SetMem(s, Call(s.mem, c).state)).state;
      }
    case Gate(path, gated) =>
      var mem := s.mem.(gate := if gated then s.mem.gate + {path} else s.mem.gate - {path});
      SetMemThenEnqueueKeepsClaims(s, mem);
      assert t == EnqueueSettled(SetMem(s, mem)).state;
    case Replays(sight) =>
      ReplayStepKeepsClaims(s, sight);
      assert t == ReplayStep(s, sight);
    case _ =>
      OtherStepsKeepClaims(s, e);
  }

  lemma OtherStepsKeepClaims(s: State, e: Event)
    requires Enabled(s, e) && !e.Settlement? && !e.Gate? && !e.Replays?
    ensures Step(s, e).claims == s.claims
  {
  }
}
