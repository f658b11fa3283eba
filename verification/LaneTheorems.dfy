/**
 * What the two persistence lanes promise in every run: what an open health flag
 * means, what a load may install, and that stale completions change nothing.
 */
module LaneTheorems {
  import opened Wrappers
  import opened Authority
  import opened Lanes
  import opened BlobRefs
  import opened Journal
  import opened Settlements
  import opened Engine
  import opened EngineSafety
  import opened EngineRemoval

  // ---------------------------------------------------------------------------
  // Health
  // ---------------------------------------------------------------------------

  /** The position of the last landed write of a key. */
  function LastLanded<S>(log: seq<Write<S>>, key: Scope): (r: Option<nat>)
    ensures r.Some? ==> r.value < |log| && log[r.value].landed && log[r.value].store.key == key
    ensures forall i :: 0 <= i < |log| && log[i].landed && log[i].store.key == key ==> r.Some? && i <= r.value
  {
    if log == [] then None
    else
      var n := |log| - 1;
      if log[n].landed && log[n].store.key == key then Some(n) else LastLanded(log[..n], key)
  }

  /** A durable record is the snapshot of the last landed write of its key, or what was there before any. */
  lemma {:induction false} DurableIsLastLanded<S>(base: map<Scope, S>, log: seq<Write<S>>, key: Scope)
    ensures At(Replayed(base, log), key) ==
              var k := LastLanded(log, key); if k.Some? then Some(log[k.value].snapshot) else At(base, key)
    decreases |log|
  {
    if log != [] {
      DurableIsLastLanded(base, log[..|log| - 1], key);
    }
  }

  /**
   * What an open health flag stands for, in every reachable state: the store is
   * attached for the active scope and epoch, nothing is queued, the key is not
   * latched as corrupt, and its durable record is the snapshot enqueued or
   * adopted last. The tail itself succeeded unless a load adopted the record
   * over it without writing.
   */
  ghost predicate IsQuiescent<S>(l: Lane<S>, g: Guard) {
    && l.store.Some?
    && g.identity == Some(l.store.value.key)
    && l.store.value.epoch == g.epoch
    && l.store.value.key !in l.corrupt
    && l.done == |l.log|
    && l.store.value.key in l.durable && l.store.value.key in l.last
    && l.durable[l.store.value.key] == l.last[l.store.value.key]
    && (WasRejected(l, l.tail) ==> l.adoptedOver == Some(l.tail))
  }

  lemma HealthMeansQuiescence(s: State)
    requires Reachable(s)
    ensures s.pend.healthy ==> IsQuiescent(s.pend, s.g)
    ensures s.sett.healthy ==> IsQuiescent(s.sett, s.g)
  {
    ReachableIsSafe(s);
  }

  /** A healthy lane fails to flush only over a tail that an adoption came over without a write. */
  lemma HealthyLaneFlushes(s: State)
    requires Reachable(s)
    ensures s.pend.healthy && FlushTurn(s.pend, s.pend.tail) != Some(true) ==> s.pend.adoptedOver == Some(s.pend.tail)
    ensures s.sett.healthy && FlushTurn(s.sett, s.sett.tail) != Some(true) ==> s.sett.adoptedOver == Some(s.sett.tail)
  {
    HealthMeansQuiescence(s);
  }

  /** A load adopted without writing leaves a healthy lane that flushes exactly when the old tail was not rejected. */
  lemma AdoptionFlushesIff<S>(l: Lane<S>, g: Guard, settings: Scope, a: nat)
    requires LaneInv(l, g) && a in l.loads && l.loads[a].pc.Read? && MayAdopt(l, g, settings, a)
    requires l.loads[a].pc.result.Loaded?
    ensures var l' := Adopt(l, a, l.loads[a].pc.result.value, false);
            && LaneInv(l', g) && l'.healthy && l'.tail == l.tail
            && (FlushTurn(l', l'.tail) == Some(true) <==> !WasRejected(l, l.tail))
  {
  }

  // ---------------------------------------------------------------------------
  // Loads
  // ---------------------------------------------------------------------------

  /**
   * What a load may answer: the snapshot of the last landed write of its key, or
   * the record older than all of them, when no write of the key is still queued
   * and none enqueued later was acknowledged.
   */
  ghost predicate ReflectsEveryWrite<S>(l: Lane<S>, key: Scope, value: Option<S>) {
    var k := LastLanded(l.log, key);
    && (forall i :: 0 <= i < |l.log| && l.log[i].store.key == key ==> l.log[i].outcome != Queued)
    && (forall i :: 0 <= i < |l.log| && l.log[i].store.key == key && l.log[i].outcome == Succeeded
          ==> k.Some? && i <= k.value)
    && value == if k.Some? then Some(l.log[k.value].snapshot) else At(l.base, key)
  }

  /**
   * A load is adopted only with a value that reflects every write ever enqueued
   * before, in this process or an earlier one, however the scope moved meanwhile.
   */
  lemma AdoptedLoadIsLinearized<S>(l: Lane<S>, g: Guard, settings: Scope, a: nat)
    requires LaneInv(l, g) && a in l.loads && l.loads[a].pc.Read? && MayAdopt(l, g, settings, a)
    ensures l.done == |l.log| && Some(l.loads[a].store.key) == g.identity == Identity(settings)
    ensures l.loads[a].pc.result.Loaded? ==>
              ReflectsEveryWrite(l, l.loads[a].store.key, Some(l.loads[a].pc.result.value))
    ensures l.loads[a].pc.result.Missing? ==> ReflectsEveryWrite(l, l.loads[a].store.key, None)
  {
    assert IsLive(l, g, a);
    DurableIsLastLanded(l.base, l.log, l.loads[a].store.key);
  }

  /** Only the newest ensure of a lane can adopt. */
  lemma OneLoadMayAdopt<S>(l: Lane<S>, g: Guard, settings: Scope, a: nat, b: nat)
    requires LaneInv(l, g) && a in l.loads && b in l.loads && l.loads[a].pc.Read? && l.loads[b].pc.Read?
    requires MayAdopt(l, g, settings, a) && MayAdopt(l, g, settings, b)
    ensures a == b == l.attempts
  {
  }

  /** Another scope is activated, and then the first one again. */
  function AwayAndBack(s: State, other: Scope): State {
    var away := DoActivate(s.(settings := other));
    DoActivate(away.(settings := s.settings))
  }

  /** Every load of either lane begun before a scope change is stale after it, even when the scope changes back. */
  lemma SwitchingBackDoesNotReviveLoads(s: State, other: Scope, a: nat)
    requires Reachable(s) && Identity(s.settings) == s.g.identity && Identity(other) != s.g.identity
    ensures AwayAndBack(s, other).g.identity == s.g.identity
    ensures var back := AwayAndBack(s, other);
            && (a in s.pend.loads && s.pend.loads[a].pc.Read? ==> !MayAdopt(back.pend, back.g, back.settings, a))
            && (a in s.sett.loads && s.sett.loads[a].pc.Read? ==> !MayAdopt(back.sett, back.g, back.settings, a))
  {
    ReachableIsSafe(s);
  }

  ghost predicate IsLinearized<S>(l: Lane<S>, a: nat)
    requires a in l.loads && l.loads[a].pc.Read?
  {
    match l.loads[a].pc.result
    case Loaded(value) => ReflectsEveryWrite(l, l.loads[a].store.key, Some(value))
    case Missing => ReflectsEveryWrite(l, l.loads[a].store.key, None)
    case _ => true
  }

  /** In every reachable state both lanes adopt only linearized loads. */
  lemma ReachableLoadsAreLinearized(s: State, a: nat)
    requires Reachable(s)
    ensures AdoptEnabled(s.pend, s.g, s.settings, a) ==> IsLinearized(s.pend, a)
    ensures AdoptEnabled(s.sett, s.g, s.settings, a) ==> IsLinearized(s.sett, a)
  {
    ReachableIsSafe(s);
    if AdoptEnabled(s.pend, s.g, s.settings, a) {
      AdoptedLoadIsLinearized(s.pend, s.g, s.settings, a);
    }
    if AdoptEnabled(s.sett, s.g, s.settings, a) {
      AdoptedLoadIsLinearized(s.sett, s.g, s.settings, a);
    }
  }

  /**
   * The settlement of a path that an acknowledged write retired does not come back
   * with a load: every acknowledged or landed snapshot since then would have to
   * settle it again.
   */
  lemma LoadDoesNotResurrectSettlement(s: State, a: nat, path: Path, retiring: nat)
    requires Reachable(s) && AdoptEnabled(s.sett, s.g, s.settings, a)
    requires retiring < |s.sett.log| && s.sett.log[retiring].outcome == Succeeded
    requires s.sett.log[retiring].store.key == s.sett.loads[a].store.key
    requires forall i :: retiring <= i < |s.sett.log| && s.sett.log[i].store.key == s.sett.loads[a].store.key
                         ==> path !in s.sett.log[i].snapshot.refs
    ensures s.sett.loads[a].pc.result.Loaded?
    ensures forall migrate, legacy :: path !in AdoptSettled(s, a, migrate, legacy).mem.refs
  {
    ReachableIsSafe(s);
    var key := s.sett.loads[a].store.key;
    AdoptedLoadIsLinearized(s.sett, s.g, s.settings, a);
    DurableIsLastLanded(s.sett.base, s.sett.log, key);
    assert s.sett.log[retiring].landed;
  }

  // ---------------------------------------------------------------------------
  // Superseded loads
  // ---------------------------------------------------------------------------

  /** A load that an epoch or a newer ensure has overtaken, or that is over. */
  predicate IsSuperseded<S>(l: Lane<S>, g: Guard, a: nat) {
    a <= l.attempts && (a in l.loads ==> l.loads[a].token.epoch < g.epoch || a < l.attempts)
  }

  /** Loads keep their tokens, new ones get new numbers, and the epoch only advances while there are any. */
  ghost predicate LoadsAge<S>(l: Lane<S>, g: Guard, l': Lane<S>, g': Guard) {
    && l.attempts <= l'.attempts
    && (forall a :: a in l'.loads && a <= l.attempts ==>
          a in l.loads && l'.loads[a].token == l.loads[a].token && g.epoch <= g'.epoch)
  }

  lemma AgingSupersedes<S>(l: Lane<S>, g: Guard, l': Lane<S>, g': Guard, a: nat)
    requires LoadsAge(l, g, l', g') && IsSuperseded(l, g, a)
    ensures IsSuperseded(l', g', a)
  {
  }

  /** Both lanes keep their loads, and the epoch does not go back. */
  predicate KeepsLoads(s: State, t: State) {
    && t.pend.loads == s.pend.loads && t.pend.attempts == s.pend.attempts
    && t.sett.loads == s.sett.loads && t.sett.attempts == s.sett.attempts
    && t.pend.corrupt == s.pend.corrupt && t.sett.corrupt == s.sett.corrupt
    && s.g.epoch <= t.g.epoch
  }

  /** Nothing the loads depend on differs. */
  predicate SameLoads(s: State, t: State) {
    && t.pend.loads == s.pend.loads && t.pend.attempts == s.pend.attempts
    && t.sett.loads == s.sett.loads && t.sett.attempts == s.sett.attempts
    && t.pend.corrupt == s.pend.corrupt && t.sett.corrupt == s.sett.corrupt && t.g == s.g
  }

  lemma EnqueuesKeepLoads(s: State, s1: State)
    requires SameLoads(s, s1)
    ensures KeepsLoads(s, EnqueueJournal(s1).state) && KeepsLoads(s, EnqueueSettled(s1).state)
  {
    JournalEnqueueKeepsLoads(s, s1);
    SettledEnqueueKeepsLoads(s, s1);
  }

  lemma ActivationKeepsLoads(s: State)
    ensures KeepsLoads(s, DoActivate(s))
  {
  }

  lemma JournalEnqueueKeepsLoads(s: State, s1: State)
    requires SameLoads(s, s1)
    ensures KeepsLoads(s, EnqueueJournal(s1).state)
  {
    var a, t := DoActivate(s1), EnqueueJournal(s1).state;
    ActivationKeepsLoads(s1);
    assert t.sett == a.sett && t.g == a.g;
    assert t.pend.loads == a.pend.loads && t.pend.attempts == a.pend.attempts && t.pend.corrupt == a.pend.corrupt;
  }

  lemma SettledEnqueueKeepsLoads(s: State, s1: State)
    requires SameLoads(s, s1)
    ensures KeepsLoads(s, EnqueueSettled(s1).state)
  {
    var a, t := DoActivate(s1), EnqueueSettled(s1).state;
    ActivationKeepsLoads(s1);
    assert t.pend == a.pend && t.g == a.g;
    assert t.sett.loads == a.sett.loads && t.sett.attempts == a.sett.attempts && t.sett.corrupt == a.sett.corrupt;
  }

  lemma LoadsCarryOver(s: State, t: State, u: State)
    requires KeepsLoads(s, t) && SameLoads(t, u)
    ensures KeepsLoads(s, u)
  {
  }

  lemma WriteRemovalKeepsLoads(s: State, s1: State)
    requires SameLoads(s, s1)
    ensures KeepsLoads(s, WriteRemoval(s1))
  {
    var s2 := Suspend(s1, RemovalWrite(None));
    EnqueuesKeepLoads(s, s2);
    LoadsCarryOver(s, EnqueueJournal(s2).state, WriteRemoval(s1));
  }

  lemma RetireKeepsLoads(s: State, sight: Sight, changed: bool, it: Intent)
    ensures KeepsLoads(s, RetireOrQuarantine(s, sight, changed, it))
  {
    var d := DecideRetirement(it, sight.diskOccupied, SourcePath(it) in sight.remote.refs);
    var gateAdded := d.AuthorityMoved? && SourcePath(it) !in s.mem.gate;
    var t := RetireOrQuarantine(s, sight, changed, it);
    if d.Retain? {
      assert SameLoads(s, t);
    } else if RetireEpisode(s.mem, it, d).stages == s.mem.stages && !gateAdded {
      var dropped := DropEpisode(s, it, d, RemovalWrite(None));
      WriteRemovalKeepsLoads(s, dropped);
      assert t == WriteRemoval(dropped);
    } else {
      var dropped := DropEpisode(s, it, d, GateWrite(it, None, gateAdded));
      EnqueuesKeepLoads(s, dropped);
      assert t == WriteGate(dropped);
      LoadsCarryOver(s, EnqueueSettled(dropped).state, t);
    }
  }

  lemma BeginRemovalKeepsLoads(s: State, sight: Sight, changed: bool, it: Intent)
    ensures KeepsLoads(s, BeginRemoval(s, sight, changed, it))
  {
    var p, t := Prepare(s.mem, it, sight.remote, sight.now), BeginRemoval(s, sight, changed, it);
    if p.Write? {
      var taken := TakeUp(s, it, p, PreparingRemoval(it, changed, Unwritten));
      EnqueuesKeepLoads(s, taken);
      assert t == WritePreparation(taken);
      LoadsCarryOver(s, EnqueueSettled(taken).state, t);
    } else {
      assert SameLoads(s, t);
    }
  }

  lemma BeginAttemptKeepsLoads(s: State, sight: Sight, it: Intent)
    ensures KeepsLoads(s, BeginAttempt(s, sight, it))
  {
    var marked := WithAttempt(s, sight, it);
    EnqueuesKeepLoads(s, marked);
    LoadsCarryOver(s, EnqueueJournal(marked).state, WriteAttempt(marked, it, s.nextAttempt));
  }

  lemma ProcessKeepsLoads(s: State, sight: Sight)
    requires s.pass.pc.AtEntry?
    ensures KeepsLoads(s, ProcessEntry(s, sight))
  {
    var it, changed, t := s.pass.pc.it, s.pass.pc.changed, ProcessEntry(s, sight);
    if t == RetireOrQuarantine(s, sight, changed, it) {
      RetireKeepsLoads(s, sight, changed, it);
    } else {
      BeginRemovalKeepsLoads(s, sight, changed, it);
      BeginAttemptKeepsLoads(s, sight, it);
      assert t == BeginRemoval(s, sight, changed, it) || t == BeginAttempt(s, sight, it) || t == Suspend(s, Looping(changed));
    }
  }

  lemma PersistFinalKeepsLoads(s: State, s1: State)
    requires SameLoads(s, s1)
    ensures KeepsLoads(s, PersistFinal(s1).state)
  {
    EnqueuesKeepLoads(s, s1);
    EnqueuesKeepLoads(EnqueueJournal(s1).state, EnqueueJournal(s1).state);
    assert PersistFinal(s1).state == EnqueueSettled(EnqueueJournal(s1).state).state;
  }

  lemma CasKeepsLoads(s: State, sight: Sight)
    requires s.pass.pc.Attempting? && s.pass.pc.at.AtCas?
    ensures KeepsLoads(s, Cas(s, sight))
  {
    var it, t := s.pass.pc.it, Cas(s, sight);
    if t.pass.pc.Clearing? {
      var s1 := Suspend(s, Clearing(it, None, None, sight.cas.stale))
                .(journal := ClearCommitAttempt(s.journal, it.id, s.pass.pc.attempt).entries);
      PersistFinalKeepsLoads(s, s1);
      assert t == WriteClear(s1);
      LoadsCarryOver(s, PersistFinal(s1).state, t);
    } else if t.pass.pc.Committing? {
      var s1 := AppliedState(s, sight, CurrentEntry(s, it.id).value).(journal := MarkFinal(s, sight).entries);
      PersistFinalKeepsLoads(s, s1);
      assert t == WriteCommit(s1);
      LoadsCarryOver(s, PersistFinal(s1).state, t);
    } else {
      assert SameLoads(s, t);
    }
  }

  lemma GateKeepsLoads(s: State, sight: Sight)
    requires s.pass.pc.GateWrite?
    ensures KeepsLoads(s, FinishGateWrite(s, sight))
  {
    var t := FinishGateWrite(s, sight);
    if !SameLoads(s, t) {
      var s1 := if IsOk(s.sett, s.pass.pc.write) then ConfirmPending(s) else s.(pending := None);
      WriteRemovalKeepsLoads(s, s1);
      assert t == WriteRemoval(s1);
    }
  }

  lemma ClearKeepsLoads(s: State, sight: Sight)
    requires s.pass.pc.Clearing?
    ensures KeepsLoads(s, FinishClear(s, sight))
  {
    var it, t := s.pass.pc.it, FinishClear(s, sight);
    if !SameLoads(s, t) {
      var s1 := Suspend(s, StaleRemoval(it, None)).(journal := Remove(s.journal, it.id));
      EnqueuesKeepLoads(s, s1);
      assert t == WriteStaleRemoval(s1);
      LoadsCarryOver(s, EnqueueJournal(s1).state, t);
    }
  }

  lemma StaleRemovalKeepsLoads(s: State, sight: Sight)
    requires s.pass.pc.StaleRemoval?
    ensures KeepsLoads(s, FinishStaleRemoval(s, sight))
  {
    var t := FinishStaleRemoval(s, sight);
    if !SameLoads(s, t) {
      var s1 := s.(journal := Restore(s.journal, s.pass.pc.it));
      EnqueuesKeepLoads(s, s1);
      assert t == WriteRestored(s1);
      LoadsCarryOver(s, EnqueueJournal(s1).state, t);
    }
  }

  lemma PreparedKeepsLoads(s: State, sight: Sight)
    requires s.pass.pc.PreparedRemoval?
    ensures KeepsLoads(s, FinishRemoval(s, sight))
  {
    RetireKeepsLoads(s, sight, s.pass.pc.changed, s.pass.pc.it);
  }

  lemma LoopKeepsLoads(s: State, sight: Sight)
    requires s.pass.pc.Looping?
    ensures KeepsLoads(s, ReplayStep(s, sight))
  {
    if s.pass.todo == [] {
      EnqueuesKeepLoads(s, s);
    } else {
      ProcessKeepsLoads(TakeEntry(s), sight);
    }
  }

  lemma QuietKeepsLoads(s: State, sight: Sight)
    requires || s.pass.pc.OpeningJournal? || s.pass.pc.OpeningSettled? || s.pass.pc.PreparingRemoval?
             || s.pass.pc.RemovalWrite? || s.pass.pc.Committing? || s.pass.pc.LastWrite?
             || (s.pass.pc.Attempting? && !s.pass.pc.at.AtCas?)
    ensures SameLoads(s, ReplayStep(s, sight))
  {
  }

  lemma ReplayKeepsLoads(s: State, sight: Sight)
    ensures KeepsLoads(s, ReplayStep(s, sight))
  {
    match s.pass.pc
    case Idle => assert KeepsLoads(s, StartPass(s, sight));
    case Looping(_) => LoopKeepsLoads(s, sight);
    case AtEntry(_, _) => ProcessKeepsLoads(s, sight);
    case PreparedRemoval(_, _, _) => PreparedKeepsLoads(s, sight);
    case GateWrite(_, _, _) => GateKeepsLoads(s, sight);
    case Clearing(_, _, _, _) => ClearKeepsLoads(s, sight);
    case StaleRemoval(_, _) => StaleRemovalKeepsLoads(s, sight);
    case Attempting(_, _, at) =>
      if at.AtCas? {
        CasKeepsLoads(s, sight);
      } else {
        QuietKeepsLoads(s, sight);
      }
    case _ => QuietKeepsLoads(s, sight);
  }

  /** The keys latched as corrupt stay latched. */
  predicate KeepsLatches(s: State, t: State) {
    s.pend.corrupt <= t.pend.corrupt && s.sett.corrupt <= t.sett.corrupt
  }

  predicate SameLatches(s: State, t: State) {
    s.pend.corrupt == t.pend.corrupt && s.sett.corrupt == t.sett.corrupt
  }

  ghost predicate BothAge(s: State, t: State) {
    LoadsAge(s.pend, s.g, t.pend, t.g) && LoadsAge(s.sett, s.g, t.sett, t.g) && SameLatches(s, t)
  }

  lemma PersistJournalAges(s: State, s1: State, opens: bool)
    requires SameLoads(s, s1)
    ensures BothAge(s, PersistJournal(s1, opens))
  {
    var a := DoActivate(s1);
    if a.pend.store.None? || a.pend.store.value.key != a.settings {
      assert PersistJournal(s1, opens) == EnsureJournal(a.(pend := a.pend.(healthy := false)), opens);
    } else {
      EnqueuesKeepLoads(a, a);
      assert PersistJournal(s1, opens) == EnqueueJournal(a).state;
    }
  }

  lemma LaneStepAges<S>(l: Lane<S>, e: LaneEvent, g: Guard, settings: Scope)
    requires !e.Ensure? && LaneEnabled(l, e, g, settings)
    ensures LoadsAge(l, g, LaneStep(l, e, g, settings), g) && l.corrupt <= LaneStep(l, e, g, settings).corrupt
    ensures !e.Abandon? ==> LaneStep(l, e, g, settings).corrupt == l.corrupt
  {
  }

  lemma RecordAges(s: State, journal: seq<Intent>, opens: bool)
    ensures BothAge(s, PersistRecorded(s, journal, opens))
  {
    if IsComplete(s.settings) {
      PersistJournalAges(s, WithJournal(s, journal), opens);
    }
  }

  lemma SettlementAges(s: State, c: Callback)
    ensures BothAge(s, SettlementEvent(s, c))
  {
    var r := Call(s.mem, c);
    if r.Accepted? {
      EnqueuesKeepLoads(s, SetMem(s, r.state));
    }
  }

  lemma GateAges(s: State, path: Path, gated: bool)
    ensures BothAge(s, GateEvent(s, path, gated))
  {
    EnqueuesKeepLoads(s, SetMem(s, s.mem.(gate := if gated then s.mem.gate + {path} else s.mem.gate - {path})));
  }

  lemma LaneEventAges(s: State, e: Event)
    requires Enabled(s, e) && (e.JournalLane? || e.SettledLane?)
    ensures LoadsAge(s.pend, s.g, Step(s, e).pend, Step(s, e).g) && LoadsAge(s.sett, s.g, Step(s, e).sett, Step(s, e).g)
    ensures KeepsLatches(s, Step(s, e)) && (!e.step.Abandon? ==> SameLatches(s, Step(s, e)))
  {
    if !e.step.Ensure? {
      if e.JournalLane? {
        LaneStepAges(s.pend, e.step, s.g, s.settings);
      } else {
        LaneStepAges(s.sett, e.step, s.g, s.settings);
      }
    }
  }

  lemma AdoptionAges(s: State, e: Event)
    requires Enabled(s, e) && (e.JournalAdopts? || e.SettledAdopts?)
    ensures BothAge(s, Step(s, e))
  {
  }

  predicate IsAbandon(e: Event) {
    (e.JournalLane? || e.SettledLane?) && e.step.Abandon?
  }

  /** Every event ages the loads of both lanes, and all but a crash keep what is latched as corrupt. */
  lemma StepAges(s: State, e: Event)
    requires Enabled(s, e)
    ensures LoadsAge(s.pend, s.g, Step(s, e).pend, Step(s, e).g) && LoadsAge(s.sett, s.g, Step(s, e).sett, Step(s, e).g)
    ensures !e.Crashes? ==> KeepsLatches(s, Step(s, e))
    ensures !e.Crashes? && !IsAbandon(e) ==> SameLatches(s, Step(s, e))
  {
    match e
    case Replays(sight) => ReplayKeepsLoads(s, sight);
    case PersistsJournal(opens) => PersistJournalAges(s, s, opens);
    case PersistsSettled => EnqueuesKeepLoads(s, s);
    case Local(file, opens) => RecordAges(s, Recording(s, file), opens);
    case Settlement(c) => SettlementAges(s, c);
    case Gate(path, gated) => GateAges(s, path, gated);
    case JournalLane(_) => LaneEventAges(s, e);
    case SettledLane(_) => LaneEventAges(s, e);
    case JournalAdopts(_) => AdoptionAges(s, e);
    case SettledAdopts(_, _, _) => AdoptionAges(s, e);
    case _ =>
  }

  /**
   * An old load never comes back: in every run from a state in which an epoch or a
   * newer ensure has overtaken a load, through scope switches there and back, and
   * through crashes, that load can never be adopted.
   */
  lemma {:induction false} SupersededLoadsNeverAdopt(s: State, es: seq<Event>, t: State, a: nat)
    requires IsRun(s, es, t)
    ensures IsSuperseded(s.pend, s.g, a) ==> !AdoptEnabled(t.pend, t.g, t.settings, a)
    ensures IsSuperseded(s.sett, s.g, a) ==> !AdoptEnabled(t.sett, t.g, t.settings, a)
    decreases |es|
  {
    if es != [] {
      var u := Step(s, es[0]);
      StepAges(s, es[0]);
      if IsSuperseded(s.pend, s.g, a) {
        AgingSupersedes(s.pend, s.g, u.pend, u.g, a);
      }
      if IsSuperseded(s.sett, s.g, a) {
        AgingSupersedes(s.sett, s.g, u.sett, u.g, a);
      }
      SupersededLoadsNeverAdopt(u, es[1..], t, a);
    }
  }

  // ---------------------------------------------------------------------------
  // Corrupt records
  // ---------------------------------------------------------------------------

  /** The key is shut out of the lane: latched, and attached by no store, healthy or not, nor by a load that could still adopt. */
  ghost predicate IsShutOut<S>(l: Lane<S>, g: Guard, key: Scope) {
    && key in l.corrupt
    && (l.store.Some? ==> l.store.value.key != key)
    && (l.healthy ==> l.store.Some? && l.store.value.key != key)
    && (forall a :: a in l.loads && IsLive(l, g, a) ==> l.loads[a].store.key != key)
  }

  lemma LatchedIsShutOut(s: State, key: Scope)
    requires Reachable(s)
    ensures key in s.pend.corrupt ==> IsShutOut(s.pend, s.g, key)
    ensures key in s.sett.corrupt ==> IsShutOut(s.sett, s.g, key)
  {
    ReachableIsSafe(s);
  }

  predicate IsCrashFree(es: seq<Event>) {
    forall e :: e in es ==> !e.Crashes?
  }

  lemma {:induction false} LatchesLast(s: State, es: seq<Event>, t: State)
    requires IsRun(s, es, t) && IsCrashFree(es)
    ensures KeepsLatches(s, t)
    decreases |es|
  {
    if es != [] {
      StepAges(s, es[0]);
      LatchesLast(Step(s, es[0]), es[1..], t);
    }
  }

  /**
   * A corrupt record is never healed by itself: once the current load of a lane has
   * read one, its key is latched, and until the process ends, whatever runs, no
   * store or load of the lane attaches that key again and the lane is never healthy
   * for it.
   */
  lemma CorruptRecordsStayShutOut(s: State, a: nat, es: seq<Event>, t: State)
    requires Reachable(s) && IsCrashFree(es)
    ensures a in s.pend.loads && s.pend.loads[a].pc.Read? && s.pend.loads[a].pc.result.Corrupt?
            && MayAdopt(s.pend, s.g, s.settings, a) && IsRun(Step(s, JournalLane(Abandon(a))), es, t)
            ==> IsShutOut(t.pend, t.g, s.pend.loads[a].store.key)
    ensures a in s.sett.loads && s.sett.loads[a].pc.Read? && s.sett.loads[a].pc.result.Corrupt?
            && MayAdopt(s.sett, s.g, s.settings, a) && IsRun(Step(s, SettledLane(Abandon(a))), es, t)
            ==> IsShutOut(t.sett, t.g, s.sett.loads[a].store.key)
  {
    if a in s.pend.loads && s.pend.loads[a].pc.Read? && s.pend.loads[a].pc.result.Corrupt?
       && MayAdopt(s.pend, s.g, s.settings, a) && IsRun(Step(s, JournalLane(Abandon(a))), es, t) {
      AbandonedStaysShutOut(s, JournalLane(Abandon(a)), es, t, s.pend.loads[a].store.key);
    }
    if a in s.sett.loads && s.sett.loads[a].pc.Read? && s.sett.loads[a].pc.result.Corrupt?
       && MayAdopt(s.sett, s.g, s.settings, a) && IsRun(Step(s, SettledLane(Abandon(a))), es, t) {
      AbandonedStaysShutOut(s, SettledLane(Abandon(a)), es, t, s.sett.loads[a].store.key);
    }
  }

  lemma AbandonedStaysShutOut(s: State, e: Event, es: seq<Event>, t: State, key: Scope)
    requires Reachable(s) && Enabled(s, e) && IsRun(Step(s, e), es, t) && IsCrashFree(es)
    ensures key in Step(s, e).pend.corrupt ==> IsShutOut(t.pend, t.g, key)
    ensures key in Step(s, e).sett.corrupt ==> IsShutOut(t.sett, t.g, key)
  {
    LatchesLast(Step(s, e), es, t);
    RunStarts(s, [e] + es, e, es, Step(s, e), t);
    RunReaches(s, [e] + es, t);
    LatchedIsShutOut(t, key);
  }

  /** And nothing else latches a key: it takes a corrupt record, read by the load that could have adopted it. */
  lemma OnlyCorruptionLatches(s: State, e: Event, key: Scope)
    requires Enabled(s, e)
    ensures key in Step(s, e).pend.corrupt && key !in s.pend.corrupt ==>
              && e.JournalLane? && e.step.Abandon?
              && var load := s.pend.loads[e.step.load];
                 load.pc.result.Corrupt? && load.store.key == key && MayAdopt(s.pend, s.g, s.settings, e.step.load)
    ensures key in Step(s, e).sett.corrupt && key !in s.sett.corrupt ==>
              && e.SettledLane? && e.step.Abandon?
              && var load := s.sett.loads[e.step.load];
                 load.pc.result.Corrupt? && load.store.key == key && MayAdopt(s.sett, s.g, s.settings, e.step.load)
  {
    if e.Crashes? {
      assert CrashState(s).pend.corrupt == {} && CrashState(s).sett.corrupt == {};
    } else {
      StepAges(s, e);
    }
  }

  /** Nor does the key get a new load, or an enqueue, while it is latched. */
  lemma LatchedKeyIsRefused(s: State, opens: bool)
    ensures s.settings in s.pend.corrupt ==>
              && EnsureJournal(s, opens).pend.loads == s.pend.loads && !EnsureJournal(s, opens).pend.healthy
              && EnqueueJournal(s).write == None && EnqueueJournal(s).state.pend.log == s.pend.log
    ensures s.settings in s.sett.corrupt ==>
              && EnsureSettled(s, opens).sett.loads == s.sett.loads && !EnsureSettled(s, opens).sett.healthy
              && EnqueueSettled(s).write == None && EnqueueSettled(s).state.sett.log == s.sett.log
  {
  }

  // ---------------------------------------------------------------------------
  // Stale completions
  // ---------------------------------------------------------------------------

  /** The completion of a write that is no longer the lane's latest changes no authority. */
  lemma StaleWriteChangesNothing<S>(l: Lane<S>, g: Guard, settings: Scope, ok: bool)
    requires LaneInv(l, g) && l.done < |l.log| && !IsCurrentWrite(l, g, settings, l.done + 1)
    ensures Settle(l, g, settings, ok) == l.(log := Settle(l, g, settings, ok).log, done := l.done + 1)
    ensures !Settle(l, g, settings, ok).healthy
  {
  }

  /** Health opens only for the newest tail of the attached store, and only when it succeeded. */
  lemma HealthOpensOnlyForTheTail<S>(l: Lane<S>, g: Guard, settings: Scope, ok: bool)
    requires LaneInv(l, g) && l.done < |l.log| && (ok ==> l.log[l.done].landed)
    requires Settle(l, g, settings, ok).healthy
    ensures ok && l.done + 1 == |l.log| == l.tail
    ensures l.store == Some(l.log[l.done].store)
    ensures l.log[l.done].store.key in l.durable && l.durable[l.log[l.done].store.key] == l.log[l.done].snapshot
  {
  }
}
