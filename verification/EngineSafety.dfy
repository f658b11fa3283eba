/**
 * Safety of the attachment engine over all runs: every intent takes effect at
 * most once, only behind a durable write-ahead record, and never beside another
 * journaled intent it overlaps.
 */
module EngineSafety {
  import opened Wrappers
  import opened Authority
  import opened Lanes
  import opened BlobRefs
  import opened Journal
  import opened Settlements
  import opened Engine

  // ---------------------------------------------------------------------------
  // Copies of intents
  // ---------------------------------------------------------------------------

  /** Intents in a durable journal record or in a snapshot still queued. */
  ghost function Stored(l: Lane<seq<Intent>>): set<Intent> {
    (set k, e | k in l.durable && e in l.durable[k] :: e)
    + (set i, e | l.done <= i < |l.log| && e in l.log[i].snapshot :: e)
  }

  /** Intents the replay pass holds on to and could act on or put back. */
  ghost function Captured(p: Pass): set<Intent> {
    (set e | e in p.todo)
    + (match p.pc
       case AtEntry(it, _) => {it}
       case PreparingRemoval(it, _, _) => {it}
       case PreparedRemoval(it, _, _) => {it}
       case GateWrite(it, _, _) => {it}
       case Clearing(it, _, _, _) => {it}
       case StaleRemoval(it, _) => {it}
       case _ => {})
  }

  /** Every copy of every intent, wherever it is. */
  ghost function Copies(s: State): set<Intent> {
    (set e | e in s.journal) + Stored(s.pend) + Captured(s.pass)
  }

  ghost predicate IsApplied(s: State, id: nat) {
    exists i :: 0 <= i < |s.applied| && s.applied[i].id == id
  }

  ghost predicate HasCopy(s: State, id: nat) {
    exists e :: e in Copies(s) && e.id == id
  }

  // ---------------------------------------------------------------------------
  // Invariant
  // ---------------------------------------------------------------------------

  /** No intent took effect twice. */
  ghost predicate AppliedOnce(s: State) {
    && (forall i, k :: 0 <= i < k < |s.applied| ==> s.applied[i].id != s.applied[k].id)
    && (forall i :: 0 <= i < |s.applied| ==> s.applied[i].id < s.nextId)
  }

  /** Once an intent took effect, no copy of it is ready. */
  ghost predicate CopiesInv(s: State) {
    forall e :: e in Copies(s) ==>
      && e.id < s.nextId
      && (forall i :: 0 <= i < |s.applied| && s.applied[i].id == e.id ==>
            && !e.phase.Ready?
            && e.scope == s.applied[i].scope
            && Paths(e) == s.applied[i].journaled)
  }

  /** What a later mutation looked at is disjoint from what an earlier, still journaled one owns. */
  ghost predicate ExclusionInv(s: State) {
    forall i, k :: 0 <= i < k < |s.applied| && s.applied[i].scope == s.applied[k].scope
                   && HasCopy(s, s.applied[i].id) && HasCopy(s, s.applied[k].id) ==>
      s.applied[i].journaled * s.applied[k].claimed == {}
  }

  /** Copies of one intent belong to one scope. */
  ghost predicate OneScopeInv(s: State) {
    forall e, f :: e in Copies(s) && f in Copies(s) && e.id == f.id ==> e.scope == f.scope
  }

  ghost predicate HistoryInv(s: State) {
    AppliedOnce(s) && CopiesInv(s) && ExclusionInv(s) && OneScopeInv(s)
  }

  ghost predicate IsScoped(j: seq<Intent>, key: Scope) {
    DistinctIds(j) && forall e :: e in j ==> e.scope == key
  }

  ghost predicate ScopedLane(l: Lane<seq<Intent>>) {
    && (forall k :: k in l.durable ==> IsScoped(l.durable[k], k))
    && (forall i :: l.done <= i < |l.log| ==> IsScoped(l.log[i].snapshot, l.log[i].store.key))
    && (forall k :: k in l.last ==> IsScoped(l.last[k], k))
  }

  ghost predicate LanesInv(s: State) {
    LaneInv(s.pend, s.g) && LaneInv(s.sett, s.g) && ScopedLane(s.pend) && DistinctIds(s.journal)
  }

  function Entry(pc: Pc): Option<Intent> {
    match pc
    case AtEntry(it, _) => Some(it)
    case PreparingRemoval(it, _, _) => Some(it)
    case PreparedRemoval(it, _, _) => Some(it)
    case GateWrite(it, _, _) => Some(it)
    case Attempting(it, _, _) => Some(it)
    case Clearing(it, _, _, _) => Some(it)
    case StaleRemoval(it, _) => Some(it)
    case _ => None
  }

  /** What was captured and fenced is still journaled until the pass reaches it. */
  ghost predicate TodoInv(s: State) {
    && IsScoped(s.pass.todo, s.pass.scope)
    && (forall e :: e in s.pass.todo && !e.phase.Ready? ==> e in s.journal)
    && (Entry(s.pass.pc).Some? ==>
          && Entry(s.pass.pc).value.scope == s.pass.scope
          && !HasId(s.pass.todo, Entry(s.pass.pc).value.id))
    && (s.pass.pc.Attempting? || s.pass.pc.Clearing? || s.pass.pc.StaleRemoval? ==> Entry(s.pass.pc).value.phase.Ready?)
    && (s.pass.pc.AtEntry? && !s.pass.pc.it.phase.Ready? ==> s.pass.pc.it in s.journal)
    && (s.pass.pc.PreparingRemoval? || s.pass.pc.PreparedRemoval? ==> s.pass.pc.it in s.journal)
    && (s.pass.pc.PreparingRemoval? || s.pass.pc.PreparedRemoval? ==> Entry(s.pass.pc).value.phase.Committed?)
    && (!s.pass.pc.Idle? ==> s.pass.token.identity == Some(s.pass.scope) && s.pass.token.epoch <= s.g.epoch)
  }

  /**
   * While an attempt runs under its own authority, the last snapshot enqueued for
   * the scope agrees with memory on every fenced entry, and holds the attempt.
   */
  ghost predicate AttemptInv(s: State) {
    s.pass.pc.Attempting? ==>
      && s.pass.pc.it.id < s.nextId
      && !IsApplied(s, s.pass.pc.it.id)
      && (s.pass.token == Capture(s.g) ==>
            && s.pass.scope in s.pend.last
            && (forall e :: e in s.pend.last[s.pass.scope] && !e.phase.Ready? ==> e in s.journal)
            && (forall e :: e in s.journal && e.id == s.pass.pc.it.id && e.scope == s.pass.scope && !e.phase.Ready?
                  ==> e in s.pend.last[s.pass.scope]))
  }

  ghost predicate SafetyInv(s: State) {
    LanesInv(s) && HistoryInv(s) && TodoInv(s) && AttemptInv(s)
  }

  // ---------------------------------------------------------------------------
  // Growing the set of copies harmlessly
  // ---------------------------------------------------------------------------

  /** Copies only disappear, or appear for intents that never took effect. */
  ghost predicate GrowsHarmlessly(s: State, t: State) {
    && s.applied == t.applied
    && s.nextId <= t.nextId
    && (forall e :: e in Copies(t) ==> e in Copies(s) || IsHarmless(s, t, e))
  }

  /** A new copy: of an intent never applied, and either new itself or the twin of an older copy. */
  ghost predicate IsHarmless(s: State, t: State, e: Intent) {
    && e.id < t.nextId
    && !IsApplied(s, e.id)
    && ((s.nextId <= e.id && e.scope == s.settings) || HasTwin(s, e))
  }

  ghost predicate HasTwin(s: State, e: Intent) {
    exists f :: f in Copies(s) && f.id == e.id && f.scope == e.scope
  }

  lemma HarmlessGrowth(s: State, t: State)
    requires HistoryInv(s) && GrowsHarmlessly(s, t)
    ensures HistoryInv(t)
  {
  }

  // ---------------------------------------------------------------------------
  // Activation and enqueueing
  // ---------------------------------------------------------------------------

  lemma ActivateIsSafe(s: State)
    requires SafetyInv(s)
    ensures SafetyInv(DoActivate(s))
    ensures Copies(DoActivate(s)) == Copies(s)
  {
    ActivationKeepsLane(s.pend, s.g, s.settings);
    ActivationKeepsLane(s.sett, s.g, s.settings);
    assert Stored(DoActivate(s).pend) == Stored(s.pend);
    HarmlessGrowth(s, DoActivate(s));
  }

  lemma UnhealthyKeepsLane<S>(l: Lane<S>, g: Guard)
    requires LaneInv(l, g)
    ensures LaneInv(l.(healthy := false), g)
  {
  }

  lemma EntriesAreScoped(j: seq<Intent>, key: Scope)
    requires DistinctIds(j)
    ensures IsScoped(Entries(j, key), key)
  {
    FilterKeepsDistinct(j, (e: Intent) => e.scope == key);
  }

  /** The invariant without what an attempt in progress needs. */
  ghost predicate QuietInv(s: State) {
    LanesInv(s) && HistoryInv(s) && TodoInv(s)
  }

  lemma PushIsSafe(s: State, token: Token, attempt: Option<nat>, store: Store)
    requires QuietInv(s) && s.pend.store == Some(store)
    ensures var t := s.(pend := Push(s.pend, token, attempt, store, Entries(s.journal, store.key)));
            QuietInv(t) && Copies(t) == Copies(s)
  {
    var snapshot := Entries(s.journal, store.key);
    var t := s.(pend := Push(s.pend, token, attempt, store, snapshot));
    PushKeepsLane(s.pend, s.g, token, attempt, store, snapshot);
    EntriesAreScoped(s.journal, store.key);
    assert t.pend.log[..|s.pend.log|] == s.pend.log;
    PushStores(s.pend, token, attempt, store, snapshot);
    assert Copies(t) == Copies(s);
    HarmlessGrowth(s, t);
  }

  lemma PushStores(l: Lane<seq<Intent>>, token: Token, attempt: Option<nat>, store: Store, snapshot: seq<Intent>)
    requires l.done <= |l.log|
    ensures Stored(Push(l, token, attempt, store, snapshot)) == Stored(l) + set e | e in snapshot
  {
    var t := Push(l, token, attempt, store, snapshot);
    assert forall i :: 0 <= i < |l.log| ==> t.log[i] == l.log[i];
    assert t.log[|l.log|].snapshot == snapshot;
    forall e | e in Stored(l)
      ensures e in Stored(t)
    {
      if i :| l.done <= i < |l.log| && e in l.log[i].snapshot {
        assert e in t.log[i].snapshot;
      }
    }
  }

  /** Two states that differ at most in settlement memory, settings and protections. */
  ghost predicate SameButSettlement(s: State, t: State) {
    && t == s.(mem := t.mem, unsaved := t.unsaved, pending := t.pending, claims := t.claims, settings := t.settings)
  }

  lemma SettlementIsSafe(s: State, t: State)
    requires SafetyInv(s) && SameButSettlement(s, t)
    ensures SafetyInv(t)
  {
  }

  function Pushed(s: State): State
    requires s.pend.store.Some?
  {
    s.(pend := Push(s.pend, Capture(s.g), None, s.pend.store.value, Entries(s.journal, s.pend.store.value.key)))
  }

  /** A fresh snapshot of memory agrees with memory, so an attempt in progress stays covered. */
  lemma PushKeepsAttempt(s: State)
    requires SafetyInv(s) && s.pend.store.Some?
    ensures AttemptInv(Pushed(s))
  {
  }

  lemma AcceptedJournalIsSafe(s: State)
    requires SafetyInv(s) && EnqueueJournal(s).write.Some? && DoActivate(s) == s
    ensures SafetyInv(EnqueueJournal(s).state)
    ensures Copies(EnqueueJournal(s).state) == Copies(s)
  {
    PushIsSafe(s, Capture(s.g), None, s.pend.store.value);
    PushKeepsAttempt(s);
    SettlementIsSafe(Pushed(s), EnqueueJournal(s).state);
  }

  lemma RefusedJournalIsSafe(s: State)
    requires SafetyInv(s) && EnqueueJournal(s).write.None? && DoActivate(s) == s
    ensures SafetyInv(EnqueueJournal(s).state)
    ensures Copies(EnqueueJournal(s).state) == Copies(s)
  {
  }

  lemma EnqueueActivates(s: State)
    ensures DoActivate(DoActivate(s)) == DoActivate(s)
    ensures EnqueueJournal(DoActivate(s)) == EnqueueJournal(s)
    ensures EnqueueSettled(DoActivate(s)) == EnqueueSettled(s)
  {
  }

  lemma EnqueueJournalIsSafe(s: State)
    requires SafetyInv(s)
    ensures SafetyInv(EnqueueJournal(s).state)
    ensures Copies(EnqueueJournal(s).state) == Copies(s)
  {
    var a := DoActivate(s);
    ActivateIsSafe(s);
    EnqueueActivates(s);
    if EnqueueJournal(s).write.Some? {
      AcceptedJournalIsSafe(a);
    } else {
      RefusedJournalIsSafe(a);
    }
  }

  lemma EnqueueSettledIsSafe(s: State)
    requires SafetyInv(s)
    ensures SafetyInv(EnqueueSettled(s).state)
    ensures Copies(EnqueueSettled(s).state) == Copies(s)
  {
    ActivateIsSafe(s);
    var a := DoActivate(s);
    UnhealthyKeepsLane(a.sett, a.g);
    var t := EnqueueSettled(s).state;
    if EnqueueSettled(s).write.Some? {
      PushKeepsLane(a.sett, a.g, Capture(a.g), None, a.sett.store.value, a.mem);
    }
    HarmlessGrowth(a, t);
  }

  // ---------------------------------------------------------------------------
  // Lanes
  // ---------------------------------------------------------------------------

  lemma LaneStepKeepsLane<S>(l: Lane<S>, e: LaneEvent, g: Guard, settings: Scope)
    requires LaneInv(l, g) && !e.Ensure? && LaneEnabled(l, e, g, settings)
    ensures LaneInv(LaneStep(l, e, g, settings), g)
  {
    match e
    case LandWrite =>
      LandKeepsLane(l, g);
      assert LaneStep(l, e, g, settings) == Land(l);
    case SettleWrite(ok) =>
      SettleKeepsLane(l, g, settings, ok);
      assert LaneStep(l, e, g, settings) == Settle(l, g, settings, ok);
    case TailDone(a) =>
      TailSettledKeepsLane(l, g, settings, a);
      assert LaneStep(l, e, g, settings) == TailSettled(l, g, settings, a);
    case BeginRead(a) =>
      StartReadKeepsLane(l, g, settings, a);
      assert LaneStep(l, e, g, settings) == StartRead(l, g, settings, a);
    case EndRead(a, kind) =>
      FinishReadKeepsLane(l, g, a, kind);
      assert LaneStep(l, e, g, settings) == FinishRead(l, a, kind);
    case Abandon(a) =>
      AbandonLoadKeepsLane(l, g, settings, a);
      assert LaneStep(l, e, g, settings) == AbandonLoad(l, g, settings, a);
  }

  lemma WriteStepKeepsLast<S>(l: Lane<S>, g: Guard, settings: Scope, ok: bool)
    requires l.done < |l.log|
    ensures Land(l).last == l.last && Settle(l, g, settings, ok).last == l.last
  {
  }

  lemma LoadStepKeepsLog<S>(l: Lane<S>, e: LaneEvent, g: Guard, settings: Scope)
    requires !e.Ensure? && !e.LandWrite? && !e.SettleWrite? && LaneEnabled(l, e, g, settings)
    ensures var t := LaneStep(l, e, g, settings);
            t.last == l.last && t.log == l.log && t.done == l.done && t.durable == l.durable
  {
    if e.Abandon? {
      AbandoningKeepsLog(l, g, settings, e.load);
    }
  }

  lemma AbandoningKeepsLog<S>(l: Lane<S>, g: Guard, settings: Scope, a: nat)
    requires a in l.loads && l.loads[a].pc.Read?
    ensures var t := AbandonLoad(l, g, settings, a);
            t.last == l.last && t.log == l.log && t.done == l.done && t.durable == l.durable
  {
  }

  lemma LaneStepKeepsLast<S>(l: Lane<S>, e: LaneEvent, g: Guard, settings: Scope)
    requires !e.Ensure? && LaneEnabled(l, e, g, settings)
    ensures LaneStep(l, e, g, settings).last == l.last
    ensures !e.LandWrite? && !e.SettleWrite? ==>
              && LaneStep(l, e, g, settings).log == l.log
              && LaneStep(l, e, g, settings).done == l.done
              && LaneStep(l, e, g, settings).durable == l.durable
  {
    if e.LandWrite? || e.SettleWrite? {
      WriteStepKeepsLast(l, g, settings, e.SettleWrite? && e.ok);
    } else {
      LoadStepKeepsLog(l, e, g, settings);
    }
  }

  lemma LandStores(l: Lane<seq<Intent>>)
    requires l.done < |l.log| && ScopedLane(l)
    ensures Stored(Land(l)) <= Stored(l) && ScopedLane(Land(l))
  {
  }

  lemma SettleStores(l: Lane<seq<Intent>>, g: Guard, settings: Scope, ok: bool)
    requires l.done < |l.log| && ScopedLane(l)
    ensures Stored(Settle(l, g, settings, ok)) <= Stored(l) && ScopedLane(Settle(l, g, settings, ok))
  {
  }

  lemma LaneStepStores(l: Lane<seq<Intent>>, e: LaneEvent, g: Guard, settings: Scope)
    requires ScopedLane(l) && !e.Ensure? && LaneEnabled(l, e, g, settings)
    ensures Stored(LaneStep(l, e, g, settings)) <= Stored(l)
    ensures ScopedLane(LaneStep(l, e, g, settings))
  {
    LaneStepKeepsLast(l, e, g, settings);
    if e.LandWrite? {
      LandStores(l);
    } else if e.SettleWrite? {
      SettleStores(l, g, settings, e.ok);
    }
  }

  lemma JournalLaneIsSafe(s: State, e: LaneEvent)
    requires SafetyInv(s) && !e.Ensure? && LaneEnabled(s.pend, e, s.g, s.settings)
    ensures SafetyInv(s.(pend := LaneStep(s.pend, e, s.g, s.settings)))
  {
    LaneStepKeepsLane(s.pend, e, s.g, s.settings);
    LaneStepKeepsLast(s.pend, e, s.g, s.settings);
    LaneStepStores(s.pend, e, s.g, s.settings);
    HarmlessGrowth(s, s.(pend := LaneStep(s.pend, e, s.g, s.settings)));
  }

  lemma SettledLaneIsSafe(s: State, e: LaneEvent)
    requires SafetyInv(s) && !e.Ensure? && LaneEnabled(s.sett, e, s.g, s.settings)
    ensures SafetyInv(s.(sett := LaneStep(s.sett, e, s.g, s.settings)))
  {
    LaneStepKeepsLane(s.sett, e, s.g, s.settings);
    HarmlessGrowth(s, s.(sett := LaneStep(s.sett, e, s.g, s.settings)));
  }

  lemma BeginEnsureStores(l: Lane<seq<Intent>>, g: Guard, settings: Scope, opens: bool)
    requires ScopedLane(l)
    ensures Stored(BeginEnsure(l, g, settings, opens)) == Stored(l)
    ensures ScopedLane(BeginEnsure(l, g, settings, opens))
    ensures BeginEnsure(l, g, settings, opens).last == l.last
  {
  }

  lemma EnsureJournalIsSafe(s: State, opens: bool)
    requires SafetyInv(s)
    ensures SafetyInv(EnsureJournal(s, opens))
  {
    ActivateIsSafe(s);
    var a := DoActivate(s);
    var t := EnsureJournal(s, opens);
    BeginEnsureKeepsLane(a.pend, a.g, a.settings, opens);
    BeginEnsureStores(a.pend, a.g, a.settings, opens);
    HarmlessGrowth(a, t);
  }

  lemma EnsureSettledIsSafe(s: State, opens: bool)
    requires SafetyInv(s)
    ensures SafetyInv(EnsureSettled(s, opens))
  {
    ActivateIsSafe(s);
    var a := DoActivate(s);
    BeginEnsureKeepsLane(a.sett, a.g, a.settings, opens);
    HarmlessGrowth(a, EnsureSettled(s, opens));
  }

  lemma AdoptSettledIsSafe(s: State, a: nat, migrate: bool, legacy: set<Path>)
    requires SafetyInv(s) && AdoptEnabled(s.sett, s.g, s.settings, a)
    ensures SafetyInv(AdoptSettled(s, a, migrate, legacy))
  {
    var result := s.sett.loads[a].pc.result;
    var writeBack := result.Missing? || migrate;
    var mem := AdoptedSettled(result, if writeBack then legacy else {});
    AdoptKeepsLane(s.sett, s.g, s.settings, a, if writeBack then mem else result.value, writeBack);
    SettledSideIsSafe(s, AdoptSettled(s, a, migrate, legacy));
  }

  lemma SettledSideIsSafe(s: State, t: State)
    requires SafetyInv(s) && LaneInv(t.sett, s.g) && t == s.(sett := t.sett, mem := t.mem, unsaved := t.unsaved)
    ensures SafetyInv(t)
  {
    HarmlessGrowth(s, t);
  }

  lemma CrashIsSafe(s: State)
    requires SafetyInv(s)
    ensures SafetyInv(CrashState(s))
  {
    var t := CrashState(s);
    CrashKeepsLane(s.pend, s.g, t.g);
    CrashKeepsLane(s.sett, s.g, t.g);
    CrashScopes(s.pend);
    CrashKeepsHistory(s);
  }

  lemma CrashScopes(l: Lane<seq<Intent>>)
    requires ScopedLane(l) && l.done <= |l.log|
    ensures ScopedLane(Crash(l)) && Stored(Crash(l)) <= Stored(l)
  {
  }

  lemma CrashKeepsHistory(s: State)
    requires HistoryInv(s) && s.pend.done <= |s.pend.log| && s.sett.done <= |s.sett.log|
    requires Stored(Crash(s.pend)) <= Stored(s.pend)
    ensures HistoryInv(CrashState(s))
  {
    HarmlessGrowth(s, CrashState(s));
  }

  // ---------------------------------------------------------------------------
  // Adopting the journal
  // ---------------------------------------------------------------------------

  lemma FilterAppendDistinct(j: seq<Intent>, key: Scope, entries: seq<Intent>)
    requires DistinctIds(j) && IsScoped(entries, key)
    requires forall e, f :: e in j && e.scope != key && f in entries ==> e.id != f.id
    ensures DistinctIds(Filter(j, (e: Intent) => e.scope != key) + entries)
  {
    FilterKeepsDistinct(j, (e: Intent) => e.scope != key);
    var foreign := Filter(j, (e: Intent) => e.scope != key);
    forall i, k | 0 <= i < |foreign| && 0 <= k < |entries|
      ensures foreign[i].id != entries[k].id
    {
      assert foreign[i] in foreign;
    }
  }

  function AdoptedEntries(s: State, a: nat): seq<Intent>
    requires AdoptEnabled(s.pend, s.g, s.settings, a)
  {
    var load := s.pend.loads[a];
    Merge(if load.pc.result.Loaded? then load.pc.result.value else [], Entries(s.journal, load.store.key))
  }

  /** What a load installs is the durable journal under the entries already in memory. */
  lemma AdoptedEntriesAreCopies(s: State, a: nat)
    requires SafetyInv(s) && AdoptEnabled(s.pend, s.g, s.settings, a)
    ensures var key := s.pend.loads[a].store.key;
            && IsScoped(AdoptedEntries(s, a), key)
            && (forall e :: e in AdoptedEntries(s, a) ==> e in Copies(s))
            && (forall e :: e in s.journal && e.scope == key ==> e in AdoptedEntries(s, a))
            && (Entries(s.journal, key) == [] && s.pend.loads[a].pc.result.Loaded?
                ==> s.pend.loads[a].pc.result == Loaded(AdoptedEntries(s, a)))
  {
    var load := s.pend.loads[a];
    var key := load.store.key;
    assert IsLive(s.pend, s.g, a);
    var loaded := if load.pc.result.Loaded? then load.pc.result.value else [];
    var inMemory := Entries(s.journal, key);
    EntriesAreScoped(s.journal, key);
    MergeIsUnion(loaded, inMemory);
    forall e | e in loaded
      ensures e in Stored(s.pend) && e.scope == key
    {
      assert key in s.pend.durable && e in s.pend.durable[key];
    }
  }

  lemma AdoptStores(l: Lane<seq<Intent>>, a: nat, value: seq<Intent>, writeBack: bool)
    requires a in l.loads && l.done == |l.log| && ScopedLane(l) && IsScoped(value, l.loads[a].store.key)
    ensures ScopedLane(Adopt(l, a, value, writeBack))
    ensures forall e :: e in Stored(Adopt(l, a, value, writeBack)) ==> e in Stored(l) || e in value
  {
  }

  lemma AdoptJournalIsSafe(s: State, a: nat)
    requires SafetyInv(s) && AdoptEnabled(s.pend, s.g, s.settings, a)
    ensures SafetyInv(AdoptJournal(s, a))
  {
    AdoptedLaneIsSafe(s, a);
    AdoptedJournalIsDistinct(s, a);
    AdoptionKeepsHistory(s, a);
    AdoptionKeepsPass(s, a);
  }

  function AdoptionWrites(s: State, a: nat): bool
    requires AdoptEnabled(s.pend, s.g, s.settings, a)
  {
    s.pend.loads[a].pc.result.Missing? || Entries(s.journal, s.pend.loads[a].store.key) != []
  }

  lemma AdoptedLaneIsSafe(s: State, a: nat)
    requires SafetyInv(s) && AdoptEnabled(s.pend, s.g, s.settings, a)
    ensures LaneInv(AdoptJournal(s, a).pend, s.g) && ScopedLane(AdoptJournal(s, a).pend)
  {
    var entries, writeBack := AdoptedEntries(s, a), AdoptionWrites(s, a);
    assert IsLive(s.pend, s.g, a);
    AdoptedEntriesAreCopies(s, a);
    AdoptKeepsLane(s.pend, s.g, s.settings, a, entries, writeBack);
    AdoptStores(s.pend, a, entries, writeBack);
    assert AdoptJournal(s, a).pend == Adopt(s.pend, a, entries, writeBack);
  }

  lemma AdoptedJournalIsDistinct(s: State, a: nat)
    requires SafetyInv(s) && AdoptEnabled(s.pend, s.g, s.settings, a)
    ensures DistinctIds(AdoptJournal(s, a).journal)
  {
    var key, entries := s.pend.loads[a].store.key, AdoptedEntries(s, a);
    AdoptedEntriesAreCopies(s, a);
    forall e, f | e in s.journal && e.scope != key && f in entries
      ensures e.id != f.id
    {
      assert e in Copies(s) && f in Copies(s);
    }
    FilterAppendDistinct(s.journal, key, entries);
  }

  lemma AdoptionKeepsHistory(s: State, a: nat)
    requires SafetyInv(s) && AdoptEnabled(s.pend, s.g, s.settings, a)
    ensures HistoryInv(AdoptJournal(s, a))
  {
    var t, entries, writeBack := AdoptJournal(s, a), AdoptedEntries(s, a), AdoptionWrites(s, a);
    assert IsLive(s.pend, s.g, a);
    AdoptedEntriesAreCopies(s, a);
    AdoptStores(s.pend, a, entries, writeBack);
    assert t.pend == Adopt(s.pend, a, entries, writeBack);
    HarmlessGrowth(s, t);
  }

  /** What the pass relies on is still there: no entry of memory is lost. */
  lemma AdoptionKeepsPass(s: State, a: nat)
    requires SafetyInv(s) && AdoptEnabled(s.pend, s.g, s.settings, a)
    ensures TodoInv(AdoptJournal(s, a)) && AttemptInv(AdoptJournal(s, a))
  {
    AdoptedEntriesAreCopies(s, a);
  }

  // ---------------------------------------------------------------------------
  // Local events
  // ---------------------------------------------------------------------------

  /** The chain a file did not follow is closed by deleting its origin. */
  function ClosingChain(s: State, oldPath: Path, base: MutationBase, at: nat, sameFile: bool): seq<Intent> {
    if ReadyRenameTo(s.journal, s.settings, oldPath).Some? && !sameFile
    then RecordDelete(s.journal, oldPath, s.settings, base, s.nextId, at).entries
    else s.journal
  }

  lemma ClosingTouchesOnlyReady(s: State, oldPath: Path, base: MutationBase, at: nat, sameFile: bool)
    requires DistinctIds(s.journal) && forall d :: d in s.journal ==> d.id < s.nextId
    ensures var j := ClosingChain(s, oldPath, base, at, sameFile);
            DistinctIds(j) && TouchesOnlyReady(s.journal, j, {s.nextId}, s.settings) && !HasId(j, s.nextId + 1)
  {
    RecordDeleteTouchesOnlyReady(s.journal, oldPath, s.settings, base, s.nextId, at);
  }

  lemma RenamingTouchesOnlyReady(s: State, e: LocalEvent)
    requires DistinctIds(s.journal) && (forall d :: d in s.journal ==> d.id < s.nextId) && e.FileRenamed?
    ensures DistinctIds(Recording(s, e))
    ensures TouchesOnlyReady(s.journal, Recording(s, e), {s.nextId} + {s.nextId + 1}, s.settings)
  {
    var j := ClosingChain(s, e.oldPath, e.base, e.at, e.sameFile);
    ClosingTouchesOnlyReady(s, e.oldPath, e.base, e.at, e.sameFile);
    RecordRenameTouchesOnlyReady(j, e.oldPath, e.newPath, s.settings, e.base, s.nextId + 1, e.at);
    TouchesOnlyReadyTwice(s.journal, j, Recording(s, e), {s.nextId}, {s.nextId + 1}, s.settings);
  }

  lemma RecordingTouchesOnlyReady(s: State, e: LocalEvent)
    requires DistinctIds(s.journal) && forall d :: d in s.journal ==> d.id < s.nextId
    ensures DistinctIds(Recording(s, e))
    ensures TouchesOnlyReady(s.journal, Recording(s, e), {s.nextId, s.nextId + 1}, s.settings)
  {
    if e.FileDeleted? {
      RecordDeleteTouchesOnlyReady(s.journal, e.path, s.settings, e.base, s.nextId, e.at);
    } else {
      RenamingTouchesOnlyReady(s, e);
      assert {s.nextId} + {s.nextId + 1} == {s.nextId, s.nextId + 1};
    }
  }

  lemma PersistJournalIsSafe(s: State, opens: bool)
    requires SafetyInv(s)
    ensures SafetyInv(PersistJournal(s, opens))
  {
    ActivateIsSafe(s);
    var a := DoActivate(s);
    if a.pend.store.None? || a.pend.store.value.key != a.settings {
      var b := a.(pend := a.pend.(healthy := false));
      UnhealthyKeepsLane(a.pend, a.g);
      assert Stored(b.pend) == Stored(a.pend);
      HarmlessGrowth(a, b);
      EnsureJournalIsSafe(b, opens);
    } else {
      EnqueueJournalIsSafe(a);
    }
  }

  lemma RecordIsHarmless(s: State, t: State, newIds: set<nat>)
    requires SafetyInv(s) && t == s.(journal := t.journal, nextId := s.nextId + 2)
    requires newIds == {s.nextId, s.nextId + 1}
    requires TouchesOnlyReady(s.journal, t.journal, newIds, s.settings)
    ensures GrowsHarmlessly(s, t)
  {
  }

  lemma RecordKeepsAttempt(s: State, t: State, newIds: set<nat>)
    requires SafetyInv(s) && t == s.(journal := t.journal, nextId := s.nextId + 2)
    requires TouchesOnlyReady(s.journal, t.journal, newIds, s.settings)
    ensures TodoInv(t) && AttemptInv(t)
  {
  }

  lemma RecordIsSafe(s: State, e: LocalEvent)
    requires SafetyInv(s)
    ensures SafetyInv(WithJournal(s, Recording(s, e)))
  {
    JournaledIdsAreOld(s);
    RecordingTouchesOnlyReady(s, e);
    TouchingOnlyReadyIsSafe(s, WithJournal(s, Recording(s, e)), {s.nextId, s.nextId + 1});
  }

  lemma JournaledIdsAreOld(s: State)
    requires CopiesInv(s)
    ensures forall d :: d in s.journal ==> d.id < s.nextId
  {
    assert forall d :: d in s.journal ==> d in Copies(s);
  }

  lemma TouchingOnlyReadyIsSafe(s: State, t: State, newIds: set<nat>)
    requires SafetyInv(s) && t == s.(journal := t.journal, nextId := s.nextId + 2) && newIds == {s.nextId, s.nextId + 1}
    requires DistinctIds(t.journal) && TouchesOnlyReady(s.journal, t.journal, newIds, s.settings)
    ensures SafetyInv(t)
  {
    RecordIsHarmless(s, t, newIds);
    RecordKeepsAttempt(s, t, newIds);
    HarmlessGrowth(s, t);
  }

  lemma ClosedJournalIsSafe(s: State)
    requires SafetyInv(s)
    ensures SafetyInv(s.(pend := s.pend.(healthy := false)))
  {
    var b := s.(pend := s.pend.(healthy := false));
    UnhealthyKeepsLane(s.pend, s.g);
    assert Stored(b.pend) == Stored(s.pend);
    HarmlessGrowth(s, b);
  }

  lemma SafetyCarriesOver(s: State, t: State)
    requires SafetyInv(s) && s == t
    ensures SafetyInv(t)
  {
  }

  lemma RecordedIsPersisted(s: State, journal: seq<Intent>, opens: bool)
    requires IsComplete(s.settings)
    ensures PersistRecorded(s, journal, opens) == PersistJournal(WithJournal(s, journal), opens)
  {
  }

  lemma RecordedIsSafe(s: State, journal: seq<Intent>, opens: bool)
    requires IsComplete(s.settings) && SafetyInv(WithJournal(s, journal))
    ensures SafetyInv(PersistRecorded(s, journal, opens))
  {
    var recorded := WithJournal(s, journal);
    RecordedIsPersisted(s, journal, opens);
    PersistJournalIsSafe(recorded, opens);
    SafetyCarriesOver(PersistJournal(recorded, opens), PersistRecorded(s, journal, opens));
  }

  lemma UnrecordedIsSafe(s: State, journal: seq<Intent>, opens: bool)
    requires !IsComplete(s.settings) && SafetyInv(s)
    ensures SafetyInv(PersistRecorded(s, journal, opens))
  {
    assert PersistRecorded(s, journal, opens) == s.(pend := s.pend.(healthy := false));
    ClosedJournalIsSafe(s);
  }

  lemma RecordEventIsSafe(s: State, e: LocalEvent, opens: bool)
    requires SafetyInv(s)
    ensures SafetyInv(PersistRecorded(s, Recording(s, e), opens))
  {
    if IsComplete(s.settings) {
      RecordIsSafe(s, e);
      RecordedIsSafe(s, Recording(s, e), opens);
    } else {
      UnrecordedIsSafe(s, Recording(s, e), opens);
    }
  }

  // ---------------------------------------------------------------------------
  // Settlement
  // ---------------------------------------------------------------------------

  lemma SettlementEventIsSafe(s: State, c: Callback)
    requires SafetyInv(s)
    ensures SafetyInv(SettlementEvent(s, c))
  {
    var r := Call(s.mem, c);
    if r.Accepted? {
      SettlementIsSafe(s, SetMem(s, r.state));
      EnqueueSettledIsSafe(SetMem(s, r.state));
    }
  }

  lemma GateEventIsSafe(s: State, path: Path, gated: bool)
    requires SafetyInv(s)
    ensures SafetyInv(GateEvent(s, path, gated))
  {
    var gate := if gated then s.mem.gate + {path} else s.mem.gate - {path};
    SettlementIsSafe(s, SetMem(s, s.mem.(gate := gate)));
    EnqueueSettledIsSafe(SetMem(s, s.mem.(gate := gate)));
  }

  // ---------------------------------------------------------------------------
  // Replay: moving on
  // ---------------------------------------------------------------------------

  /** The pass drops copies or moves on; nothing else changes but the journal, which may put captured entries back. */
  ghost predicate Shrinks(s: State, t: State) {
    && t.pend == s.pend && t.sett == s.sett && t.g == s.g && t.applied == s.applied && t.nextId == s.nextId
    && DistinctIds(t.journal)
    && Copies(t) <= Copies(s)
    && !t.pass.pc.Attempting?
  }

  lemma ShrinkingIsSafe(s: State, t: State)
    requires SafetyInv(s) && Shrinks(s, t) && TodoInv(t)
    ensures SafetyInv(t)
  {
    HarmlessGrowth(s, t);
  }

  /** A pass moves on to a place that captures no more. */
  ghost predicate PassMoves(p: Pass, q: Pass) {
    && q.scope == p.scope && q.token == p.token
    && (q.todo == p.todo || q.todo == [])
    && Captured(q) <= Captured(p)
    && (q.pc.Attempting? ==> p.pc.Attempting? && q.pc.it == p.pc.it && q.pc.attempt == p.pc.attempt)
    && (q.pc.Idle? || !p.pc.Idle?)
    && (Entry(q.pc).None? || Entry(q.pc) == Entry(p.pc))
    && (q.pc.AtEntry? ==> p.pc.AtEntry?)
    && (q.pc.Clearing? || q.pc.StaleRemoval? ==> Entry(p.pc).value.phase.Ready?)
    && (q.pc.PreparingRemoval? || q.pc.PreparedRemoval? ==> p.pc.PreparingRemoval? || p.pc.PreparedRemoval?)
  }

  ghost predicate MovesOn(s: State, t: State) {
    && t == s.(pass := t.pass, mem := t.mem, unsaved := t.unsaved, pending := t.pending, claims := t.claims)
    && PassMoves(s.pass, t.pass)
  }

  lemma MovingOnIsSafe(s: State, t: State)
    requires SafetyInv(s) && MovesOn(s, t)
    ensures SafetyInv(t)
  {
  }

  lemma EnqueueJournalAndMove(s: State, q: Pass)
    requires SafetyInv(s) && PassMoves(s.pass, q)
    ensures SafetyInv(EnqueueJournal(s).state.(pass := q))
  {
    EnqueueJournalIsSafe(s);
    MovingOnIsSafe(EnqueueJournal(s).state, EnqueueJournal(s).state.(pass := q));
  }

  lemma StopIsSafe(s: State)
    requires SafetyInv(s)
    ensures SafetyInv(Stop(s))
  {
  }

  lemma NextEntryIsSafe(s: State, sight: Sight, changed: bool)
    requires SafetyInv(s) && !s.pass.pc.Idle?
    ensures SafetyInv(NextEntry(s, sight, changed))
  {
    MovingOnIsSafe(s, NextEntry(s, sight, changed));
  }

  lemma StartPassIsSafe(s0: State, sight: Sight)
    requires SafetyInv(s0) && s0.pass.pc.Idle?
    ensures SafetyInv(StartPass(s0, sight))
  {
    ActivateIsSafe(s0);
    var t := StartPass(s0, sight);
    if t.pass.pc.OpeningJournal? {
      ShrinkingIsSafe(DoActivate(s0), t);
    }
  }

  lemma OpenJournalIsSafe(s: State, sight: Sight)
    requires SafetyInv(s) && s.pass.pc.OpeningJournal?
    ensures SafetyInv(OpenJournal(s, sight))
  {
    if OpenJournal(s, sight) != s {
      MovingOnIsSafe(s, OpenJournal(s, sight));
    }
  }

  lemma OpenSettledIsSafe(s: State, sight: Sight)
    requires SafetyInv(s) && s.pass.pc.OpeningSettled?
    ensures SafetyInv(OpenSettled(s, sight))
  {
    var t := OpenSettled(s, sight);
    if t.pass.pc.Looping? {
      EntriesAreScoped(s.journal, s.pass.scope);
      ShrinkingIsSafe(s, t);
    } else if t != s {
      MovingOnIsSafe(s, t);
    }
  }

  // ---------------------------------------------------------------------------
  // Replay: retiring and removing
  // ---------------------------------------------------------------------------

  /** The pass is past `it`, which it may drop from the journal. */
  ghost predicate IsPast(s: State, it: Intent) {
    && it.scope == s.pass.scope && !HasId(s.pass.todo, it.id) && !s.pass.pc.Idle? && !s.pass.pc.Attempting?
    && (s.pass.pc.AtEntry? ==> s.pass.pc.it == it)
  }

  lemma RemovingIsSafe(s: State, it: Intent, pc: Pc)
    requires SafetyInv(s) && IsPast(s, it)
    requires pc.Looping? || pc.RemovalWrite?
             || ((pc.GateWrite? || (pc.StaleRemoval? && it.phase.Ready?)) && pc.it == it && it in Copies(s))
    ensures SafetyInv(Suspend(s, pc).(journal := Remove(s.journal, it.id)))
  {
    RemoveIsExact(s.journal, it.id);
    ShrinkingIsSafe(s, Suspend(s, pc).(journal := Remove(s.journal, it.id)));
  }

  lemma WriteRemovalIsSafe(s: State)
    requires SafetyInv(s) && !s.pass.pc.Idle?
    ensures SafetyInv(WriteRemoval(s))
  {
    var s1 := Suspend(s, RemovalWrite(None));
    MovingOnIsSafe(s, s1);
    EnqueueJournalAndMove(s1, WriteRemoval(s).pass);
  }

  lemma DropEpisodeIsSafe(s: State, it: Intent, d: Disposition, pc: Pc)
    requires SafetyInv(s) && IsPast(s, it) && it in Copies(s)
    requires pc.RemovalWrite? || (pc.GateWrite? && pc.it == it)
    ensures SafetyInv(DropEpisode(s, it, d, pc))
  {
    RemovingIsSafe(s, it, pc);
    SettlementIsSafe(Suspend(s, pc).(journal := Remove(s.journal, it.id)), DropEpisode(s, it, d, pc));
  }

  lemma WriteGateIsSafe(s: State)
    requires SafetyInv(s) && s.pass.pc.GateWrite?
    ensures SafetyInv(WriteGate(s))
  {
    EnqueueSettledIsSafe(s);
    MovingOnIsSafe(EnqueueSettled(s).state, WriteGate(s));
  }

  lemma RetireStuckIsSafe(s: State, it: Intent, d: Disposition)
    requires SafetyInv(s) && IsPast(s, it) && it in Copies(s)
    ensures SafetyInv(RetireStuck(s, it, d))
  {
    var gateAdded := d.AuthorityMoved? && SourcePath(it) !in s.mem.gate;
    var pc := if RetireEpisode(s.mem, it, d).stages == s.mem.stages && !gateAdded then RemovalWrite(None)
              else GateWrite(it, None, gateAdded);
    var dropped := DropEpisode(s, it, d, pc);
    DropEpisodeIsSafe(s, it, d, pc);
    if pc.RemovalWrite? {
      WriteRemovalIsSafe(dropped);
      assert RetireStuck(s, it, d) == WriteRemoval(dropped);
    } else {
      WriteGateIsSafe(dropped);
      assert RetireStuck(s, it, d) == WriteGate(dropped);
    }
  }

  lemma RetireOrQuarantineIsSafe(s: State, sight: Sight, changed: bool, it: Intent)
    requires SafetyInv(s) && IsPast(s, it) && it in Copies(s)
    ensures SafetyInv(RetireOrQuarantine(s, sight, changed, it))
  {
    var d := DecideRetirement(it, sight.diskOccupied, SourcePath(it) in sight.remote.refs);
    if d.Retain? {
      MovingOnIsSafe(s, Suspend(s, Looping(changed)));
    } else {
      RetireStuckIsSafe(s, it, d);
    }
  }

  lemma RestoringIsSafe(s: State, it: Intent, t: State)
    requires SafetyInv(s) && it in Copies(s) && !s.pass.pc.Attempting?
    requires t == s.(journal := Restore(s.journal, it), pending := t.pending)
    ensures SafetyInv(t)
  {
    if !HasId(s.journal, it.id) {
      AppendKeepsDistinct(s.journal, it);
    }
    ShrinkingIsSafe(s, t);
  }

  lemma FinishGateWriteIsSafe(s: State, sight: Sight)
    requires SafetyInv(s) && s.pass.pc.GateWrite?
    ensures SafetyInv(FinishGateWrite(s, sight))
  {
    var pc := s.pass.pc;
    if IsDone(s.sett, pc.write) {
      if IsOk(s.sett, pc.write) {
        SettlementIsSafe(s, ConfirmPending(s));
        WriteRemovalIsSafe(ConfirmPending(s));
      } else if pc.gateAdded {
        var t := s.(journal := Restore(s.journal, pc.it), pending := None);
        RestoringIsSafe(s, pc.it, t);
        NextEntryIsSafe(t, sight, true);
      } else {
        SettlementIsSafe(s, s.(pending := None));
        WriteRemovalIsSafe(s.(pending := None));
      }
    }
  }

  lemma TakeUpIsSafe(s: State, it: Intent, p: Preparation, pc: Pc)
    requires SafetyInv(s) && IsPast(s, it) && it in s.journal && it.phase.Committed?
    requires pc.PreparingRemoval? && pc.it == it
    ensures SafetyInv(TakeUp(s, it, p, pc))
  {
    ShrinkingIsSafe(s, Suspend(s, pc));
    SettlementIsSafe(Suspend(s, pc), TakeUp(s, it, p, pc));
  }

  lemma WritePreparationIsSafe(s: State)
    requires SafetyInv(s) && s.pass.pc.PreparingRemoval?
    ensures SafetyInv(WritePreparation(s))
  {
    EnqueueSettledIsSafe(s);
    MovingOnIsSafe(EnqueueSettled(s).state, WritePreparation(s));
  }

  lemma BeginRemovalIsSafe(s: State, sight: Sight, changed: bool, it: Intent)
    requires SafetyInv(s) && IsPast(s, it) && it in s.journal && it.phase.Committed?
    ensures SafetyInv(BeginRemoval(s, sight, changed, it))
  {
    var p := Prepare(s.mem, it, sight.remote, sight.now);
    TakeUpIsSafe(s, it, p, PreparingRemoval(it, changed, if p.Refuse? then Refusing else Unwritten));
    if p.Write? {
      WritePreparationIsSafe(TakeUp(s, it, p, PreparingRemoval(it, changed, Unwritten)));
    }
  }

  lemma FinishPreparationIsSafe(s: State, sight: Sight)
    requires SafetyInv(s) && s.pass.pc.PreparingRemoval?
    ensures SafetyInv(FinishPreparation(s, sight))
  {
    if FinishPreparation(s, sight) != s {
      MovingOnIsSafe(s, FinishPreparation(s, sight));
    }
  }

  lemma FinishRemovalIsSafe(s: State, sight: Sight)
    requires SafetyInv(s) && s.pass.pc.PreparedRemoval?
    ensures SafetyInv(FinishRemoval(s, sight))
  {
    var pc := s.pass.pc;
    if pc.ok {
      var looping := Looping(pc.changed || HasId(s.journal, pc.it.id));
      RemovingIsSafe(s, pc.it, looping);
      SettlementIsSafe(Suspend(s, looping).(journal := Remove(s.journal, pc.it.id)), FinishRemoval(s, sight));
    } else {
      RetireOrQuarantineIsSafe(s, sight, pc.changed, pc.it);
    }
  }

  // ---------------------------------------------------------------------------
  // Replay: attempts
  // ---------------------------------------------------------------------------

  /** Changing the phase of a journaled entry whose intent never took effect. */
  lemma RephasingIsHarmless(s: State, t: State, id: nat, expected: Phase -> bool, next: Phase)
    requires HistoryInv(s) && DistinctIds(s.journal) && !IsApplied(s, id)
    requires Mark(s.journal, id, expected, next).ok
    requires t.journal == Mark(s.journal, id, expected, next).entries
    requires t.pend == s.pend && t.applied == s.applied && t.nextId == s.nextId
    requires forall e :: e in Captured(t.pass) ==> e in Captured(s.pass) || (e.id == id && HasTwin(s, e))
    ensures HistoryInv(t) && DistinctIds(t.journal)
  {
    MarkIsExact(s.journal, id, expected, next);
    forall e | e in Copies(t) && e !in Copies(s)
      ensures IsHarmless(s, t, e)
    {
      if e in t.journal {
        var d :| d in s.journal && d.id == id && e == d.(phase := next);
        assert d in Copies(s);
      }
    }
    HarmlessGrowth(s, t);
  }

  ghost predicate MayAttempt(s: State, it: Intent) {
    IsPast(s, it) && it.phase.Ready? && !IsApplied(s, it.id) && it.id < s.nextId
  }

  lemma ReadyEntryIsNotApplied(s: State, id: nat)
    requires CopiesInv(s) && EntryById(s.journal, id).Some? && EntryById(s.journal, id).value.phase.Ready?
    ensures !IsApplied(s, id)
  {
  }

  lemma MarkingKeepsTodo(s: State, t: State, id: nat, expected: Phase -> bool, next: Phase)
    requires TodoInv(s) && DistinctIds(s.journal) && !HasId(s.pass.todo, id)
    requires s.pass.pc.AtEntry? && (s.pass.pc.it.id != id || s.pass.pc.it.phase.Ready?)
    requires Mark(s.journal, id, expected, next).ok
    requires t == s.(journal := Mark(s.journal, id, expected, next).entries, nextAttempt := t.nextAttempt)
    ensures TodoInv(t)
  {
  }

  lemma SameLanesAreSafe(s: State, t: State)
    requires LanesInv(s) && t.pend == s.pend && t.sett == s.sett && t.g == s.g && DistinctIds(t.journal)
    ensures LanesInv(t)
  {
  }

  lemma MarkingIsFresh(s: State, sight: Sight, it: Intent)
    requires HistoryInv(s) && IsPast(s, it) && it in Copies(s) && it.phase.Ready? && MarkAttempt(s, sight, it).ok
    ensures !IsApplied(s, it.id) && MayAttempt(WithAttempt(s, sight, it), it)
  {
    ReadyEntryIsNotApplied(s, it.id);
  }

  lemma MarkingIsSafe(s: State, sight: Sight, it: Intent)
    requires SafetyInv(s) && s.pass.pc.AtEntry? && IsPast(s, it) && it.phase.Ready?
    requires !IsApplied(s, it.id) && MarkAttempt(s, sight, it).ok
    ensures SafetyInv(WithAttempt(s, sight, it))
  {
    var next := Attempted(s.nextAttempt, sight.now, sight.session);
    var t := WithAttempt(s, sight, it);
    MarkingKeepsTodo(s, t, it.id, IsReady(), next);
    RephasingIsHarmless(s, t, it.id, IsReady(), next);
    SameLanesAreSafe(s, t);
  }

  lemma AttemptingIsSafe(s: State, it: Intent, attempt: nat, write: nat)
    requires SafetyInv(s) && MayAttempt(s, it)
    requires s.pass.token == Capture(s.g) ==>
               s.pass.scope in s.pend.last && s.pend.last[s.pass.scope] == Entries(s.journal, s.pass.scope)
    ensures SafetyInv(Suspend(s, Attempting(it, attempt, WriteAhead(write))))
  {
    var t := Suspend(s, Attempting(it, attempt, WriteAhead(write)));
    assert Copies(t) <= Copies(s);
    HarmlessGrowth(s, t);
  }

  lemma EnqueueJournalFrame(s: State)
    ensures var e := EnqueueJournal(s);
            && e.state.pass == s.pass && e.state.journal == s.journal
            && e.state.applied == s.applied && e.state.nextId == s.nextId
            && (e.write.Some? ==>
                  && e.state.g.identity == Some(e.state.settings)
                  && e.state.settings in e.state.pend.last
                  && e.state.pend.last[e.state.settings] == Entries(s.journal, e.state.settings))
  {
  }

  lemma SamePassMayAttempt(s: State, t: State, it: Intent)
    requires MayAttempt(s, it)
    requires t.pass == s.pass && t.journal == s.journal && t.applied == s.applied && t.nextId == s.nextId
    ensures MayAttempt(t, it)
  {
  }

  lemma WriteAttemptIsSafe(s: State, it: Intent, attempt: nat)
    requires SafetyInv(s) && MayAttempt(s, it)
    ensures SafetyInv(WriteAttempt(s, it, attempt))
  {
    EnqueueJournalIsSafe(s);
    EnqueueJournalFrame(s);
    var e := EnqueueJournal(s);
    if e.write.Some? {
      SamePassMayAttempt(s, e.state, it);
      AttemptingIsSafe(e.state, it, attempt, e.write.value);
    } else {
      StopIsSafe(e.state);
    }
  }

  lemma BeginAttemptIsSafe(s: State, sight: Sight, it: Intent)
    requires SafetyInv(s) && s.pass.pc.AtEntry? && IsPast(s, it) && it in Copies(s) && it.phase.Ready?
    ensures SafetyInv(BeginAttempt(s, sight, it))
  {
    if MarkAttempt(s, sight, it).ok {
      MarkingIsFresh(s, sight, it);
      MarkingIsSafe(s, sight, it);
      WriteAttemptIsSafe(WithAttempt(s, sight, it), it, s.nextAttempt);
    } else {
      StopIsSafe(s);
    }
  }

  lemma AdvanceAttemptIsSafe(s: State, sight: Sight)
    requires SafetyInv(s) && s.pass.pc.Attempting? && !s.pass.pc.at.AtCas?
    ensures SafetyInv(AdvanceAttempt(s, sight))
  {
    if AdvanceAttempt(s, sight) != s {
      AdvancingMovesOn(s, sight);
      MovingOnIsSafe(s, AdvanceAttempt(s, sight));
    }
  }

  lemma AdvancingMovesOn(s: State, sight: Sight)
    requires s.pass.pc.Attempting? && !s.pass.pc.at.AtCas? && AdvanceAttempt(s, sight) != s
    ensures MovesOn(s, AdvanceAttempt(s, sight))
  {
  }

  // ---------------------------------------------------------------------------
  // Replay: the linearization point
  // ---------------------------------------------------------------------------

  lemma HealthyMeansDurable(s: State)
    requires LanesInv(s) && s.pend.healthy && s.pass.token == Capture(s.g) && s.pass.token.identity == Some(s.pass.scope)
    ensures s.pend.done == |s.pend.log|
    ensures s.pass.scope in s.pend.durable && s.pass.scope in s.pend.last
    ensures s.pend.durable[s.pass.scope] == s.pend.last[s.pass.scope]
  {
  }

  lemma CurrentEntryIsJournaled(s: State, id: nat)
    requires CurrentEntry(s, id).Some?
    ensures CurrentEntry(s, id).value in s.journal
    ensures CurrentEntry(s, id).value.scope == s.pass.scope && CurrentEntry(s, id).value.id == id
  {
  }

  /**
   * When the checks before a mutation pass, nothing is queued on either lane and
   * the durable journal of the scope holds the entry with exactly this attempt.
   */
  lemma CasIsBehindWriteAhead(s: State, sight: Sight)
    requires SafetyInv(s) && s.pass.pc.Attempting? && IsAttemptCurrent(s, sight)
    ensures s.pend.done == |s.pend.log| && s.sett.done == |s.sett.log|
    ensures s.pass.scope in s.pend.durable && s.g.identity == Some(s.pass.scope)
    ensures var current := CurrentEntry(s, s.pass.pc.it.id).value;
            && current in s.pend.durable[s.pass.scope]
            && current.id == s.pass.pc.it.id
            && current.phase.Attempted? && current.phase.attempt == s.pass.pc.attempt
  {
  }

  /** At that moment the journaled entry is the only copy of its intent. */
  lemma CurrentEntryIsTheOnlyCopy(s: State, sight: Sight, e: Intent)
    requires SafetyInv(s) && s.pass.pc.Attempting? && IsAttemptCurrent(s, sight)
    requires e in Copies(s) && e.id == s.pass.pc.it.id
    ensures e == CurrentEntry(s, s.pass.pc.it.id).value
  {
    var current := CurrentEntry(s, s.pass.pc.it.id).value;
    HealthyMeansDurable(s);
    CasIsBehindWriteAhead(s, sight);
    CurrentEntryIsJournaled(s, s.pass.pc.it.id);
    assert current in Copies(s);
    assert e.scope == s.pass.scope;
    if e in s.journal {
      EntryIsUnique(s.journal, e, current);
    } else if e in Stored(s.pend) {
      assert e in s.pend.durable[s.pass.scope];
      EntryIsUnique(s.pend.durable[s.pass.scope], e, current);
    }
  }

  /** What the mutation looks at is disjoint from every fenced copy of another intent of its scope. */
  lemma FencedCopiesAreDisjoint(s: State, sight: Sight, e: Intent)
    requires SafetyInv(s) && s.pass.pc.Attempting? && IsAttemptCurrent(s, sight)
    requires e in Copies(s) && !e.phase.Ready? && e.scope == s.pass.scope && e.id != s.pass.pc.it.id
    ensures Paths(e) * Paths(s.pass.pc.it) == {}
  {
    HealthyMeansDurable(s);
    assert e in s.journal by {
      if e in Stored(s.pend) {
        assert e in s.pend.durable[s.pass.scope];
      }
    }
    assert !Overlap(s.pass.pc.it, e);
  }

  lemma ApplyingKeepsCopies(s: State, sight: Sight)
    requires SafetyInv(s) && s.pass.pc.Attempting? && IsAttemptCurrent(s, sight)
    ensures var t := RecordApplied(s, s.pass.pc.it, CurrentEntry(s, s.pass.pc.it.id).value);
            AppliedOnce(t) && CopiesInv(t)
  {
    var current := CurrentEntry(s, s.pass.pc.it.id).value;
    CurrentEntryIsJournaled(s, s.pass.pc.it.id);
    forall e | e in Copies(s) && e.id == current.id
      ensures e == current
    {
      CurrentEntryIsTheOnlyCopy(s, sight, e);
    }
    RecordingKeepsCopies(s, s.pass.pc.it, current);
  }

  lemma RecordingKeepsCopies(s: State, it: Intent, current: Intent)
    requires AppliedOnce(s) && CopiesInv(s) && it.id == current.id < s.nextId && !IsApplied(s, it.id)
    requires current.scope == s.pass.scope && !current.phase.Ready?
    requires forall e :: e in Copies(s) && e.id == current.id ==> e == current
    ensures AppliedOnce(RecordApplied(s, it, current)) && CopiesInv(RecordApplied(s, it, current))
  {
    assert Copies(RecordApplied(s, it, current)) == Copies(s);
  }

  lemma AppliedIsAvoided(s: State, sight: Sight, i: nat)
    requires SafetyInv(s) && s.pass.pc.Attempting? && IsAttemptCurrent(s, sight)
    requires i < |s.applied| && s.applied[i].scope == s.pass.scope && HasCopy(s, s.applied[i].id)
    ensures s.applied[i].journaled * Paths(s.pass.pc.it) == {}
  {
    var e :| e in Copies(s) && e.id == s.applied[i].id;
    assert IsApplied(s, e.id);
    FencedCopiesAreDisjoint(s, sight, e);
  }

  lemma RecordingKeepsExclusion(s: State, it: Intent, current: Intent)
    requires ExclusionInv(s)
    requires forall i :: 0 <= i < |s.applied| && s.applied[i].scope == s.pass.scope && HasCopy(s, s.applied[i].id) ==>
               s.applied[i].journaled * Paths(it) == {}
    ensures ExclusionInv(RecordApplied(s, it, current))
  {
    var t := RecordApplied(s, it, current);
    assert Copies(t) == Copies(s);
    assert forall id :: HasCopy(t, id) ==> HasCopy(s, id);
  }

  lemma ApplyingKeepsExclusion(s: State, sight: Sight)
    requires SafetyInv(s) && s.pass.pc.Attempting? && IsAttemptCurrent(s, sight)
    ensures ExclusionInv(RecordApplied(s, s.pass.pc.it, CurrentEntry(s, s.pass.pc.it.id).value))
  {
    forall i | 0 <= i < |s.applied| && s.applied[i].scope == s.pass.scope && HasCopy(s, s.applied[i].id)
      ensures s.applied[i].journaled * Paths(s.pass.pc.it) == {}
    {
      AppliedIsAvoided(s, sight, i);
    }
    RecordingKeepsExclusion(s, s.pass.pc.it, CurrentEntry(s, s.pass.pc.it.id).value);
  }

  lemma ApplyingKeepsHistory(s: State, sight: Sight)
    requires SafetyInv(s) && s.pass.pc.Attempting? && IsAttemptCurrent(s, sight)
    ensures HistoryInv(RecordApplied(s, s.pass.pc.it, CurrentEntry(s, s.pass.pc.it.id).value))
  {
    var t := RecordApplied(s, s.pass.pc.it, CurrentEntry(s, s.pass.pc.it.id).value);
    ApplyingKeepsCopies(s, sight);
    ApplyingKeepsExclusion(s, sight);
    assert Copies(t) == Copies(s);
  }

  lemma ThrowIsSafe(s: State, sight: Sight)
    requires SafetyInv(s) && s.pass.pc.Attempting? && IsAttemptCurrent(s, sight)
    ensures SafetyInv(Stop(RecordApplied(s, s.pass.pc.it, CurrentEntry(s, s.pass.pc.it.id).value)))
  {
    ApplyingKeepsHistory(s, sight);
    StoppedIsSafe(RecordApplied(s, s.pass.pc.it, CurrentEntry(s, s.pass.pc.it.id).value));
  }

  lemma StoppedIsSafe(s: State)
    requires LanesInv(s) && HistoryInv(s)
    ensures SafetyInv(Stop(s))
  {
    assert Copies(Stop(s)) <= Copies(s);
    HarmlessGrowth(s, Stop(s));
  }

  lemma PersistFinalIsSafe(s: State)
    requires SafetyInv(s)
    ensures SafetyInv(PersistFinal(s).state) && PersistFinal(s).state.pass == s.pass
  {
    EnqueueJournalIsSafe(s);
    EnqueueSettledIsSafe(EnqueueJournal(s).state);
  }

  lemma WriteClearIsSafe(s: State)
    requires SafetyInv(s) && s.pass.pc.Clearing?
    ensures SafetyInv(WriteClear(s))
  {
    PersistFinalIsSafe(s);
    MovingOnIsSafe(PersistFinal(s).state, WriteClear(s));
  }

  lemma WriteCommitIsSafe(s: State)
    requires SafetyInv(s) && s.pass.pc.Committing?
    ensures SafetyInv(WriteCommit(s))
  {
    PersistFinalIsSafe(s);
    MovingOnIsSafe(PersistFinal(s).state, WriteCommit(s));
  }

  lemma ClearingKeepsTodo(s: State, t: State, id: nat, expected: Phase -> bool)
    requires TodoInv(s) && DistinctIds(s.journal) && s.pass.pc.Attempting? && s.pass.pc.it.id == id && Mark(s.journal, id, expected, Ready).ok
    requires t.pass.pc.Clearing? && t.pass.pc.it == s.pass.pc.it && t == Suspend(s, t.pass.pc).(journal := t.journal)
    requires t.journal == Mark(s.journal, id, expected, Ready).entries
    ensures TodoInv(t)
  {
  }

  lemma CurrentEntryIsTwin(s: State)
    requires TodoInv(s) && s.pass.pc.Attempting? && CurrentEntry(s, s.pass.pc.it.id).Some?
    ensures HasTwin(s, s.pass.pc.it)
  {
  }

  lemma ClearingKeepsHistory(s: State, t: State, id: nat, expected: Phase -> bool)
    requires s.pass.pc.Attempting? && s.pass.pc.it.id == id && Mark(s.journal, id, expected, Ready).ok
    requires HistoryInv(s) && DistinctIds(s.journal) && !IsApplied(s, id) && HasTwin(s, s.pass.pc.it)
    requires t.pass.pc.Clearing? && t.pass.pc.it == s.pass.pc.it && t == Suspend(s, t.pass.pc).(journal := t.journal)
    requires t.journal == Mark(s.journal, id, expected, Ready).entries
    ensures HistoryInv(t) && DistinctIds(t.journal)
  {
    RephasingIsHarmless(s, t, id, expected, Ready);
  }

  lemma ClearingIsSafe(s: State, entries: seq<Intent>, stale: bool)
    requires SafetyInv(s) && s.pass.pc.Attempting? && CurrentEntry(s, s.pass.pc.it.id).Some?
    requires ClearCommitAttempt(s.journal, s.pass.pc.it.id, s.pass.pc.attempt) == Marked(entries, true)
    ensures SafetyInv(Suspend(s, Clearing(s.pass.pc.it, None, None, stale)).(journal := entries))
  {
    var it, expected := s.pass.pc.it, IsAttempt(s.pass.pc.attempt);
    var t := Suspend(s, Clearing(it, None, None, stale)).(journal := entries);
    CurrentEntryIsTwin(s);
    ClearingKeepsTodo(s, t, it.id, expected);
    ClearingKeepsHistory(s, t, it.id, expected);
    SameLanesAreSafe(s, t);
  }

  lemma CasClearsIsSafe(s: State, stale: bool)
    requires SafetyInv(s) && s.pass.pc.Attempting? && CurrentEntry(s, s.pass.pc.it.id).Some?
    ensures SafetyInv(CasClears(s, stale))
  {
    var cleared := ClearCommitAttempt(s.journal, s.pass.pc.it.id, s.pass.pc.attempt);
    if cleared.ok {
      ClearingIsSafe(s, cleared.entries, stale);
      WriteClearIsSafe(Suspend(s, Clearing(s.pass.pc.it, None, None, stale)).(journal := cleared.entries));
    } else {
      StopIsSafe(s);
    }
  }

  /** A fenced copy that stands in for another of the same intent, scope and paths. */
  ghost predicate Advances(s: State, e: Intent) {
    !e.phase.Ready? && exists f :: f in Copies(s) && f.id == e.id && f.scope == e.scope && f.kind == e.kind
  }

  lemma AdvancingKeepsHistory(s: State, t: State)
    requires HistoryInv(s) && t.applied == s.applied && t.nextId == s.nextId
    requires forall e :: e in Copies(t) ==> e in Copies(s) || Advances(s, e)
    ensures HistoryInv(t)
  {
  }

  lemma CommittingIsSafe(s: State, t: State, id: nat, expected: Phase -> bool, next: Phase)
    requires LanesInv(s) && HistoryInv(s) && TodoInv(s) && !HasId(s.pass.todo, id)
    requires s.pass.pc.Committing? && !next.Ready?
    requires Mark(s.journal, id, expected, next).ok && t == s.(journal := Mark(s.journal, id, expected, next).entries)
    ensures SafetyInv(t)
  {
    MarkIsExact(s.journal, id, expected, next);
    forall e | e in Copies(t) && e !in Copies(s)
      ensures Advances(s, e)
    {
      var d :| d in s.journal && d.id == id && e == d.(phase := next);
      assert d in Copies(s);
    }
    AdvancingKeepsHistory(s, t);
  }

  lemma AppliedCopies(s: State, sight: Sight)
    requires SafetyInv(s) && s.pass.pc.Attempting? && IsAttemptCurrent(s, sight) && sight.cas.Mutates?
    ensures HistoryInv(AppliedState(s, sight, CurrentEntry(s, s.pass.pc.it.id).value))
  {
    ApplyingKeepsHistory(s, sight);
    MutationDropsCopies(s, sight, CurrentEntry(s, s.pass.pc.it.id).value);
  }

  lemma MutationDropsCopies(s: State, sight: Sight, current: Intent)
    requires s.pass.pc.Attempting? && sight.cas.Mutates? && HistoryInv(RecordApplied(s, s.pass.pc.it, current))
    ensures HistoryInv(AppliedState(s, sight, current))
  {
    var u, t := RecordApplied(s, s.pass.pc.it, current), AppliedState(s, sight, current);
    assert Copies(t) <= Copies(u);
    HarmlessGrowth(u, t);
  }

  /** The state right after the mutation, before the entry is marked. */
  lemma AppliedStateIsSafe(s: State, sight: Sight)
    requires SafetyInv(s) && s.pass.pc.Attempting? && IsAttemptCurrent(s, sight) && sight.cas.Mutates?
    ensures var t := AppliedState(s, sight, CurrentEntry(s, s.pass.pc.it.id).value);
            SafetyInv(t) && !HasId(t.pass.todo, s.pass.pc.it.id)
  {
    AppliedCopies(s, sight);
    AppliedTodo(s, sight, CurrentEntry(s, s.pass.pc.it.id).value);
    SameLanesAreSafe(s, AppliedState(s, sight, CurrentEntry(s, s.pass.pc.it.id).value));
  }

  lemma AppliedTodo(s: State, sight: Sight, current: Intent)
    requires TodoInv(s) && s.pass.pc.Attempting? && sight.cas.Mutates?
    ensures TodoInv(AppliedState(s, sight, current)) && AttemptInv(AppliedState(s, sight, current))
    ensures !HasId(AppliedState(s, sight, current).pass.todo, s.pass.pc.it.id)
  {
  }

  lemma CasCommitsIsSafe(s: State, sight: Sight)
    requires SafetyInv(s) && s.pass.pc.Attempting? && IsAttemptCurrent(s, sight) && sight.cas.Mutates?
    ensures SafetyInv(CasCommits(s, sight, CurrentEntry(s, s.pass.pc.it.id).value))
  {
    var current := CurrentEntry(s, s.pass.pc.it.id).value;
    var applied, marked := AppliedState(s, sight, current), MarkFinal(s, sight);
    AppliedStateIsSafe(s, sight);
    if !sight.cas.boundAfter || !marked.ok {
      StopIsSafe(applied);
      assert CasCommits(s, sight, current) == Stop(applied);
    } else {
      var t := applied.(journal := marked.entries);
      CommittingIsSafe(applied, t, s.pass.pc.it.id, IsAttempt(s.pass.pc.attempt),
                       Committed(sight.now, sight.session, sight.receiptId, sight.fingerprint));
      WriteCommitIsSafe(t);
      assert CasCommits(s, sight, current) == WriteCommit(t);
    }
  }

  lemma CasMayBeSafe(s: State, sight: Sight)
    requires SafetyInv(s) && s.pass.pc.Attempting? && s.pass.pc.at.AtCas? && IsAttemptCurrent(s, sight)
    ensures SafetyInv(Cas(s, sight))
  {
    var current := CurrentEntry(s, s.pass.pc.it.id).value;
    if sight.cas.Mutates? {
      CasCommitsIsSafe(s, sight);
      assert Cas(s, sight) == CasCommits(s, sight, current);
    } else if sight.cas.NoMutation? {
      CasClearsIsSafe(s, sight.cas.stale);
      assert Cas(s, sight) == CasClears(s, sight.cas.stale);
    } else if sight.cas.mutated {
      ThrowIsSafe(s, sight);
      assert Cas(s, sight) == Stop(RecordApplied(s, s.pass.pc.it, current));
    } else {
      StopIsSafe(s);
      assert Cas(s, sight) == Stop(s);
    }
  }

  lemma CasIsSafe(s: State, sight: Sight)
    requires SafetyInv(s) && s.pass.pc.Attempting? && s.pass.pc.at.AtCas?
    ensures SafetyInv(Cas(s, sight))
  {
    if IsAttemptCurrent(s, sight) {
      CasMayBeSafe(s, sight);
    } else {
      StopIsSafe(s);
    }
  }

  // ---------------------------------------------------------------------------
  // Replay: after the final writes
  // ---------------------------------------------------------------------------

  lemma FinishCommitIsSafe(s: State, sight: Sight)
    requires SafetyInv(s) && s.pass.pc.Committing?
    ensures SafetyInv(FinishCommit(s, sight))
  {
    StopIsSafe(s);
    NextEntryIsSafe(s, sight, false);
  }

  lemma WriteStaleRemovalIsSafe(s: State)
    requires SafetyInv(s) && s.pass.pc.StaleRemoval?
    ensures SafetyInv(WriteStaleRemoval(s))
  {
    EnqueueJournalAndMove(s, WriteStaleRemoval(s).pass);
  }

  lemma FinishClearIsSafe(s: State, sight: Sight)
    requires SafetyInv(s) && s.pass.pc.Clearing?
    ensures SafetyInv(FinishClear(s, sight))
  {
    var it, t := s.pass.pc.it, FinishClear(s, sight);
    var removed := Suspend(s, StaleRemoval(it, None)).(journal := Remove(s.journal, it.id));
    if t == Stop(s) {
      StopIsSafe(s);
    } else if t == NextEntry(s, sight, false) {
      NextEntryIsSafe(s, sight, false);
    } else if t != s {
      RemovingIsSafe(s, it, StaleRemoval(it, None));
      WriteStaleRemovalIsSafe(removed);
      assert t == WriteStaleRemoval(removed);
    }
  }

  lemma WriteRestoredIsSafe(s: State)
    requires SafetyInv(s) && s.pass.pc.StaleRemoval?
    ensures SafetyInv(WriteRestored(s))
  {
    EnqueueJournalAndMove(s, WriteRestored(s).pass);
  }

  lemma FinishStaleRemovalIsSafe(s: State, sight: Sight)
    requires SafetyInv(s) && s.pass.pc.StaleRemoval?
    ensures SafetyInv(FinishStaleRemoval(s, sight))
  {
    var restored := s.(journal := Restore(s.journal, s.pass.pc.it));
    var t := FinishStaleRemoval(s, sight);
    RestoringIsSafe(s, s.pass.pc.it, restored);
    if t == Stop(restored) {
      StopIsSafe(restored);
    } else if t == WriteRestored(restored) {
      WriteRestoredIsSafe(restored);
    } else if t == Stop(s) {
      StopIsSafe(s);
    } else if t != s {
      NextEntryIsSafe(s, sight, false);
    }
  }

  // ---------------------------------------------------------------------------
  // Every step, every run
  // ---------------------------------------------------------------------------

  lemma TakeEntryIsSafe(s: State)
    requires SafetyInv(s) && s.pass.pc.Looping? && s.pass.todo != []
    ensures SafetyInv(TakeEntry(s))
  {
    assert s.pass.todo == [s.pass.todo[0]] + s.pass.todo[1..];
    ShrinkingIsSafe(s, TakeEntry(s));
  }

  lemma EndLoopIsSafe(s: State)
    requires SafetyInv(s) && s.pass.pc.Looping?
    ensures SafetyInv(EndLoop(s))
  {
    if s.pass.pc.changed {
      EnqueueJournalAndMove(s, EndLoop(s).pass);
    } else {
      StopIsSafe(s);
    }
  }

  lemma ProcessEntryIsSafe(s: State, sight: Sight)
    requires SafetyInv(s) && s.pass.pc.AtEntry?
    ensures SafetyInv(ProcessEntry(s, sight))
  {
    var it, changed := s.pass.pc.it, s.pass.pc.changed;
    var t := ProcessEntry(s, sight);
    assert IsPast(s, it) && it in Copies(s);
    if t == RetireOrQuarantine(s, sight, changed, it) {
      RetireOrQuarantineIsSafe(s, sight, changed, it);
    } else if it.phase.Committed? && sight.receipt && Postcondition(it, sight.remote) {
      BeginRemovalIsSafe(s, sight, changed, it);
      assert t == BeginRemoval(s, sight, changed, it);
    } else if it.phase.Committed? {
      MovingOnIsSafe(s, Suspend(s, Looping(changed)));
      assert t == Suspend(s, Looping(changed));
    } else {
      BeginAttemptIsSafe(s, sight, it);
      assert t == BeginAttempt(s, sight, it);
    }
  }

  lemma ReplayStepIsSafe(s: State, sight: Sight)
    requires SafetyInv(s)
    ensures SafetyInv(ReplayStep(s, sight))
  {
    var t := ReplayStep(s, sight);
    match s.pass.pc
    case Idle => StartPassIsSafe(s, sight); assert t == StartPass(s, sight);
    case OpeningJournal(_) => OpenJournalIsSafe(s, sight); assert t == OpenJournal(s, sight);
    case OpeningSettled(_) => OpenSettledIsSafe(s, sight); assert t == OpenSettled(s, sight);
    case Looping(_) =>
      if s.pass.todo == [] {
        EndLoopIsSafe(s);
        assert t == EndLoop(s);
      } else {
        TakeEntryIsSafe(s);
        ProcessEntryIsSafe(TakeEntry(s), sight);
        assert t == ProcessEntry(TakeEntry(s), sight);
      }
    case AtEntry(_, _) => ProcessEntryIsSafe(s, sight); assert t == ProcessEntry(s, sight);
    case PreparingRemoval(_, _, _) => FinishPreparationIsSafe(s, sight); assert t == FinishPreparation(s, sight);
    case PreparedRemoval(_, _, _) => FinishRemovalIsSafe(s, sight); assert t == FinishRemoval(s, sight);
    case GateWrite(_, _, _) => FinishGateWriteIsSafe(s, sight); assert t == FinishGateWrite(s, sight);
    case RemovalWrite(_) => NextEntryIsSafe(s, sight, true); assert t == FinishRemovalWrite(s, sight);
    case Attempting(_, _, at) =>
      if at.AtCas? {
        CasIsSafe(s, sight);
        assert t == Cas(s, sight);
      } else {
        AdvanceAttemptIsSafe(s, sight);
        assert t == AdvanceAttempt(s, sight);
      }
    case Clearing(_, _, _, _) => FinishClearIsSafe(s, sight); assert t == FinishClear(s, sight);
    case StaleRemoval(_, _) => FinishStaleRemovalIsSafe(s, sight); assert t == FinishStaleRemoval(s, sight);
    case Committing(_, _) => FinishCommitIsSafe(s, sight); assert t == FinishCommit(s, sight);
    case LastWrite(w) => StopIsSafe(s); assert t == if IsDone(s.pend, w) then Stop(s) else s;
  }

  predicate IsLaneEvent(e: Event) {
    e.JournalLane? || e.SettledLane? || e.JournalAdopts? || e.SettledAdopts?
  }

  lemma LaneEventIsSafe(s: State, e: Event)
    requires SafetyInv(s) && Enabled(s, e) && IsLaneEvent(e)
    ensures SafetyInv(Step(s, e))
  {
    var t := Step(s, e);
    match e
    case JournalLane(le) =>
      if le.Ensure? {
        EnsureJournalIsSafe(s, le.opens);
        assert t == EnsureJournal(s, le.opens);
      } else {
        JournalLaneIsSafe(s, le);
        assert t == s.(pend := LaneStep(s.pend, le, s.g, s.settings));
      }
    case SettledLane(le) =>
      if le.Ensure? {
        EnsureSettledIsSafe(s, le.opens);
        assert t == EnsureSettled(s, le.opens);
      } else {
        SettledLaneIsSafe(s, le);
        assert t == s.(sett := LaneStep(s.sett, le, s.g, s.settings));
      }
    case JournalAdopts(a) => AdoptJournalIsSafe(s, a); assert t == AdoptJournal(s, a);
    case SettledAdopts(a, migrate, legacy) =>
      AdoptSettledIsSafe(s, a, migrate, legacy);
      assert t == AdoptSettled(s, a, migrate, legacy);
  }

  lemma StepIsSafe(s: State, e: Event)
    requires SafetyInv(s) && Enabled(s, e)
    ensures SafetyInv(Step(s, e))
  {
    match e
    case ChangeSettings(scope) => SettlementIsSafe(s, s.(settings := scope));
    case ActivateScope => ActivateIsSafe(s);
    case PersistsJournal(opens) => PersistJournalIsSafe(s, opens);
    case PersistsSettled => EnqueueSettledIsSafe(s);
    case Local(file, opens) => RecordEventIsSafe(s, file, opens);
    case Settlement(c) => SettlementEventIsSafe(s, c);
    case Gate(path, gated) => GateEventIsSafe(s, path, gated);
    case Forgets(path) => SettlementIsSafe(s, Step(s, e));
    case Replays(sight) => ReplayStepIsSafe(s, sight);
    case Crashes => CrashIsSafe(s);
    case _ => LaneEventIsSafe(s, e);
  }

  // ---------------------------------------------------------------------------
  // Main theorems
  // ---------------------------------------------------------------------------

  /** Durable journals a device may start with. */
  ghost predicate GoodJournals(journals: map<Scope, seq<Intent>>, nextId: nat) {
    && (forall k :: k in journals ==> IsScoped(journals[k], k))
    && (forall k, e :: k in journals && e in journals[k] ==> e.id < nextId)
    && (forall k, e, l, f :: k in journals && e in journals[k] && l in journals && f in journals[l] && e.id == f.id
          ==> k == l)
  }

  ghost predicate Reachable(s: State) {
    exists settings, journals, settled, nextId, es ::
      GoodJournals(journals, nextId) && IsRun(Start(settings, journals, settled, nextId), es, s)
  }

  lemma StartCopies(settings: Scope, journals: map<Scope, seq<Intent>>, settled: map<Scope, Settled>, nextId: nat)
    ensures Copies(Start(settings, journals, settled, nextId)) == set k, e | k in journals && e in journals[k] :: e
  {
  }

  lemma StartIsSafe(settings: Scope, journals: map<Scope, seq<Intent>>, settled: map<Scope, Settled>, nextId: nat)
    requires GoodJournals(journals, nextId)
    ensures SafetyInv(Start(settings, journals, settled, nextId))
  {
    var s := Start(settings, journals, settled, nextId);
    NewLaneInv(journals, s.g);
    NewLaneInv(settled, s.g);
    StartCopies(settings, journals, settled, nextId);
    assert LanesInv(s) && TodoInv(s) && AttemptInv(s);
    assert HistoryInv(s);
  }

  lemma {:induction false} RunIsSafe(s: State, es: seq<Event>, t: State)
    requires SafetyInv(s) && IsRun(s, es, t)
    ensures SafetyInv(t)
    decreases |es|
  {
    if es != [] {
      StepIsSafe(s, es[0]);
      RunIsSafe(Step(s, es[0]), es[1..], t);
    }
  }

  lemma ReachableIsSafe(s: State)
    requires Reachable(s)
    ensures SafetyInv(s)
  {
    var settings, journals, settled, nextId, es :|
      GoodJournals(journals, nextId) && IsRun(Start(settings, journals, settled, nextId), es, s);
    StartIsSafe(settings, journals, settled, nextId);
    RunIsSafe(Start(settings, journals, settled, nextId), es, s);
  }
}
