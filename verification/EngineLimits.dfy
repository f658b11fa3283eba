/**
 * Where the guarantees of the attachment engine end: runs from a device start
 * after which a weaker proviso would not do.
 */
module EngineLimits {
  import opened Wrappers
  import opened Authority
  import opened Lanes
  import opened BlobRefs
  import opened Journal
  import opened Settlements
  import opened IntentJournal
  import opened Engine
  import opened EngineSafety
  import opened EngineTheorems
  import opened EngineProtection
  import opened EngineRemoval
  import opened EngineRuns

  function Entry0(id: nat, kind: Kind, phase: Phase): Intent {
    Intent(id, KEY, kind, 0, false, None, false, None, phase)
  }

  /** A document with a live ref at one path. */
  function LiveAt(path: Path): Remote {
    Remote(map[path := BlobRef("h", 1, None)], map[], {}, map[])
  }

  lemma CrashRuns(s: State)
    requires s.pend.done <= |s.pend.log| && s.sett.done <= |s.sett.log|
    ensures IsRun(s, [Crashes], CrashState(s))
  {
    StepRuns(s, Crashes, CrashState(s));
  }

  // ---------------------------------------------------------------------------
  // A gate whose own write is still queued
  // ---------------------------------------------------------------------------

  const OTHER := Entry0(0, Delete("q"), Attempted(0, 0, "session"))

  const STUCK := Entry0(1, Delete("p"), Attempted(1, 0, "session"))

  const GATED := NOTHING_SETTLED.(gate := {"p"})

  /** The first intent was retired, and its removal is being written. */
  predicate OtherLeaves(s: State) {
    && IsPlain(s, NOTHING_SETTLED) && HasOneQueued(s.pend) && s.pend.log[s.pend.done].snapshot == [STUCK]
    && IsQuiet(s.sett) && s.sett.durable == map[KEY := NOTHING_SETTLED]
    && s.journal == s.pass.todo == [STUCK] && s.pass.pc == RemovalWrite(Some(|s.pend.log|))
    && s.pend.durable == map[KEY := [OTHER, STUCK]]
  }

  lemma OtherIsGone(s: State)
    requires IsQuiet(s.pend)
    requires s.journal == [OTHER, STUCK]
    ensures WithoutEntry(s, OTHER, [STUCK]).journal == [STUCK]
    ensures var l := WithoutEntry(s, OTHER, [STUCK]).pend;
            HasOneQueued(l) && l.log[l.done].snapshot == [STUCK] && l.durable == s.pend.durable
  {
    AllEntries([STUCK]);
    assert Remove([OTHER, STUCK], OTHER.id) == [STUCK];
    PushHasOneQueued(s.pend, [STUCK]);
  }

  lemma OtherLeavesSomewhere()
    ensures exists s :: Reachable(s) && OtherLeaves(s)
  {
    DeviceCaptures([OTHER, STUCK], 2);
    var s :| HasCaptured(s, [OTHER, STUCK], 2);
    assert [OTHER, STUCK] == [OTHER] + [STUCK];
    EntryRetires(s, OTHER, [STUCK], false, Sees(NO_REMOTE, false, false));
    OtherIsGone(s);
    assert OtherLeaves(WithoutEntry(s, OTHER, [STUCK]));
  }

  /** Meanwhile the path of the second intent was gated; the snapshot saying so is still queued. */
  predicate GateIsQueued(s: State) {
    && IsPlain(s, GATED) && IsQuiet(s.pend) && HasOneQueued(s.sett)
    && s.sett.durable == map[KEY := NOTHING_SETTLED] && s.pend.durable == map[KEY := [STUCK]]
    && s.journal == s.pass.todo == [STUCK] && s.pass.pc.RemovalWrite? && IsDone(s.pend, s.pass.pc.write)
  }

  lemma GateIsRaised(s: State)
    requires OtherLeaves(s)
    ensures IsDone(Saved(s.pend), s.pass.pc.write) && GateIsQueued(Gated(WithPend(s, Saved(s.pend)), "p"))
  {
    SavedIsQuiet(s.pend);
    assert s.mem.(gate := s.mem.gate + {"p"}) == GATED;
    PushHasOneQueued(s.sett, GATED);
  }

  lemma GateIsQueuedSomewhere()
    ensures exists s :: Reachable(s) && GateIsQueued(s) && IsListedDurably(s, STUCK)
  {
    OtherLeavesSomewhere();
    var s :| Reachable(s) && OtherLeaves(s);
    JournalSaves(s);
    PathIsGated(WithPend(s, Saved(s.pend)), "p");
    GateIsRaised(s);
    GateIsQueuedIsListed(Gated(WithPend(s, Saved(s.pend)), "p"));
  }

  lemma GateIsQueuedIsListed(s: State)
    requires GateIsQueued(s)
    ensures IsListedDurably(s, STUCK)
  {
    assert STUCK in s.pend.durable[KEY];
  }

  /** The second retirement sees its path gated, and enqueues only the journal without the intent. */
  predicate StuckLeaves(s: State) {
    && HasOneQueued(s.pend) && s.pend.log[s.pend.done].snapshot == []
    && s.sett.durable == map[KEY := NOTHING_SETTLED] && s.pend.durable == map[KEY := [STUCK]]
  }

  lemma StuckIsGone(s: State)
    requires GateIsQueued(s)
    ensures StuckLeaves(WithoutEntry(InPass(s, [STUCK], Looping(true)), STUCK, []))
  {
    assert Remove(s.journal, STUCK.id) == [];
    AllEntries([]);
    PushHasOneQueued(s.pend, []);
  }

  /** What the second retirement sees: its path is live in the document, and nothing is on disk. */
  const STILL_LIVE := Sees(LiveAt("p"), false, false)

  /** The pass goes on, retires the second intent, and its journal write lands. */
  const RETIRING: seq<Event> := [Replays(STILL_LIVE), Replays(STILL_LIVE), JournalLane(LandWrite)]

  /** The states of that run. */
  function Retiring(s: State, n: nat): State
    requires GateIsQueued(s) && n <= 3
  {
    if n == 0 then s
    else if n == 1 then InPass(s, [STUCK], Looping(true))
    else
      var left := WithoutEntry(InPass(s, [STUCK], Looping(true)), STUCK, []);
      if n == 2 then left else StuckIsGone(s); WithPend(left, Land(left.pend))
  }

  lemma RetiringSteps(s: State)
    requires GateIsQueued(s)
    ensures ReplayStep(s, STILL_LIVE) == Retiring(s, 1) && ReplayStep(Retiring(s, 1), STILL_LIVE) == Retiring(s, 2)
  {
    RemovalEnds(s, STILL_LIVE);
    assert [STUCK] == [STUCK] + [];
    RetiringSegment(Retiring(s, 1), STUCK, [], true, STILL_LIVE);
  }

  lemma RetiringRuns(s: State, n: nat)
    requires GateIsQueued(s) && n <= 3
    ensures IsRun(s, RETIRING[..n], Retiring(s, n))
  {
    if n == 0 {
      assert RETIRING[..0] == [];
    } else {
      RetiringRuns(s, n - 1);
      RetiringSteps(s);
      StuckIsGone(s);
      if n < 3 {
        SegmentRuns(Retiring(s, n - 1), STILL_LIVE, Retiring(s, n));
      } else {
        JournalLands(Retiring(s, 2));
      }
      RunsCompose(s, RETIRING[..n - 1], Retiring(s, n - 1), [RETIRING[n - 1]], Retiring(s, n));
      assert RETIRING[..n - 1] + [RETIRING[n - 1]] == RETIRING[..n];
    }
  }

  /** Memory holds these settlements in every state of the run. */
  ghost predicate HoldsThroughout(s: State, es: seq<Event>, mem: Settled) {
    forall n: nat, v :: n <= |es| && IsRun(s, es[..n], v) ==> v.mem == mem
  }

  lemma RetiringKeepsGate(s: State)
    requires GateIsQueued(s)
    ensures HoldsThroughout(s, RETIRING, GATED)
  {
    forall n: nat, v | n <= |RETIRING| && IsRun(s, RETIRING[..n], v)
      ensures v.mem == GATED
    {
      RetiringRuns(s, n);
      RunsAgree(s, RETIRING[..n], v, Retiring(s, n));
    }
  }

  /**
   * A retirement loses its fence: while the snapshot that gates its path is still
   * queued, the intent is retired with a journal write alone, that write lands
   * first and the process dies. In between nobody else enqueues a journal snapshot,
   * and memory keeps the gate; before, the durable journal listed the intent, and
   * after, neither the intent nor the gate is durable.
   */
  lemma QueuedGateDoesNotCoverRetirement()
    ensures forall e :: e in RETIRING ==> e.Replays? || e == JournalLane(LandWrite)
    ensures exists s, u, t :: Reachable(s) && GateIsQueued(s) && IsListedDurably(s, STUCK)
                              && IsRun(s, RETIRING, u) && HoldsThroughout(s, RETIRING, GATED)
                              && IsRun(u, [Crashes], t) && IsLost(t, STUCK)
  {
    GateIsQueuedSomewhere();
    var s :| Reachable(s) && GateIsQueued(s) && IsListedDurably(s, STUCK);
    QueuesAreBounded(s);
    RetiringIsPlain();
    var u, t := RetiringLoses(s);
  }

  lemma RetiringIsPlain()
    ensures forall e :: e in RETIRING ==> e.Replays? || e == JournalLane(LandWrite)
  {
  }

  lemma QueuesAreBounded(s: State)
    requires Reachable(s)
    ensures s.pend.done <= |s.pend.log| && s.sett.done <= |s.sett.log|
  {
    ReachableIsSafe(s);
  }

  lemma RetiringLoses(s: State) returns (u: State, t: State)
    requires GateIsQueued(s) && s.sett.done <= |s.sett.log|
    ensures HoldsThroughout(s, RETIRING, GATED)
    ensures IsRun(s, RETIRING, u) && IsRun(u, [Crashes], t) && IsLost(t, STUCK)
  {
    RetiringKeepsGate(s);
    RetiringRuns(s, 3);
    assert RETIRING[..3] == RETIRING;
    RetiredIsLost(s);
    u := Retiring(s, 3);
    CrashRuns(u);
    t := CrashState(u);
  }

  lemma RetiredIsLost(s: State)
    requires GateIsQueued(s) && s.sett.done <= |s.sett.log|
    ensures Retiring(s, 3).pend.done <= |Retiring(s, 3).pend.log| && Retiring(s, 3).sett == s.sett
    ensures IsLost(CrashState(Retiring(s, 3)), STUCK)
  {
    StuckIsGone(s);
    assert !Lists([], STUCK);
    LandedWithoutIsLost(Retiring(s, 2), STUCK);
  }

  /** A step that takes an entry whose path memory gates straight out of the journal, without a gate write. */
  ghost predicate RetiresGated(s: State, sight: Sight, it: Intent) {
    && Reachable(s) && s.g.identity == Some(s.pass.scope) && it in s.journal && it.scope == s.pass.scope
    && SourcePath(it) in s.mem.gate
    && ReplayStep(s, sight).pass.pc.RemovalWrite? && !HasId(ReplayStep(s, sight).journal, it.id)
  }

  /** Such a retirement is sure to be covered by a durable gate exactly when the settled lane is healthy. */
  lemma GatedRetirementIsCoveredIff(healthy: bool)
    ensures (forall s, sight, it :: RetiresGated(s, sight, it) && s.sett.healthy == healthy ==>
               IsDurable(s.sett, GateClaim(it)))
            <==> healthy
  {
    if healthy {
      forall s, sight, it | RetiresGated(s, sight, it) && s.sett.healthy
        ensures IsDurable(s.sett, GateClaim(it))
      {
        HealthyGateIsDurable(s, SourcePath(it));
      }
    } else {
      GateIsQueuedSomewhere();
      var s :| Reachable(s) && GateIsQueued(s);
      StuckRetiresUncovered(s);
    }
  }

  lemma StuckRetiresUncovered(s: State)
    requires Reachable(s) && GateIsQueued(s)
    ensures RetiresGated(Retiring(s, 1), STILL_LIVE, STUCK)
    ensures !Retiring(s, 1).sett.healthy && !IsDurable(Retiring(s, 1).sett, GateClaim(STUCK))
  {
    RetiringRuns(s, 1);
    RunReaches(s, RETIRING[..1], Retiring(s, 1));
    StuckLeavesGated(s);
    QueuedMeansUnhealthy(s);
  }

  lemma StuckLeavesGated(s: State)
    requires GateIsQueued(s)
    ensures var u := Retiring(s, 1);
            && u.g == s.g == GUARD && u.sett == s.sett && u.mem == GATED && STUCK in u.journal && u.pass.scope == KEY
            && ReplayStep(u, STILL_LIVE).pass.pc.RemovalWrite? && !HasId(ReplayStep(u, STILL_LIVE).journal, STUCK.id)
  {
    RetiringSteps(s);
    StuckIsGone(s);
    assert s.journal[0] == STUCK;
  }

  lemma QueuedMeansUnhealthy(s: State)
    requires Reachable(s) && HasOneQueued(s.sett)
    ensures !s.sett.healthy
  {
    ReachableIsSafe(s);
  }

  lemma MemberIsListed(j: seq<Intent>, it: Intent)
    ensures it in j ==> Lists(j, it)
  {
  }

  /** Neither the intent nor anything that stands in for it is durable. */
  ghost predicate IsLost(s: State, it: Intent) {
    && !IsListedDurably(s, it) && !IsEntryDurable(s, it)
    && !IsDurable(s.sett, GateClaim(it)) && !IsDurable(s.sett, FenceClaim(it))
  }

  lemma LandedWithoutIsLost(s: State, it: Intent)
    requires HasOneQueued(s.pend) && !Lists(s.pend.log[s.pend.done].snapshot, it) && it.scope == KEY
    requires s.sett.durable == map[KEY := NOTHING_SETTLED]
    requires s.sett.done <= |s.sett.log|
    ensures IsLost(CrashState(WithPend(s, Land(s.pend))), it)
  {
    var t := CrashState(WithPend(s, Land(s.pend)));
    assert t.pend.durable[KEY] == s.pend.log[s.pend.done].snapshot;
    MemberIsListed(t.pend.durable[KEY], it);
  }

  const LAND_AND_CRASH: seq<Event> := [JournalLane(LandWrite), Crashes]

  /** Landing a journal snapshot without the intent, and dying, while nothing in the settled record protects it. */
  lemma LandAndCrashLoses(s: State, it: Intent)
    requires HasOneQueued(s.pend) && !Lists(s.pend.log[s.pend.done].snapshot, it) && it.scope == KEY
    requires s.sett.durable == map[KEY := NOTHING_SETTLED] && s.sett.done <= |s.sett.log|
    ensures exists t :: IsRun(s, LAND_AND_CRASH, t) && IsLost(t, it)
  {
    var landed := WithPend(s, Land(s.pend));
    JournalLands(s);
    CrashRuns(landed);
    RunsCompose(s, [JournalLane(LandWrite)], landed, [Crashes], CrashState(landed));
    assert [JournalLane(LandWrite)] + [Crashes] == LAND_AND_CRASH;
    LandedWithoutIsLost(s, it);
  }

  /** A run that goes on to lose the entry this way loses it. */
  lemma LosingGoesOn(s: State, es: seq<Event>, u: State, it: Intent)
    requires IsRun(s, es, u) && exists t :: IsRun(u, LAND_AND_CRASH, t) && IsLost(t, it)
    ensures exists t :: IsRun(s, es + LAND_AND_CRASH, t) && IsLost(t, it)
  {
    var t :| IsRun(u, LAND_AND_CRASH, t) && IsLost(t, it);
    RunsCompose(s, es, u, LAND_AND_CRASH, t);
  }

  // ---------------------------------------------------------------------------
  // A journal snapshot enqueued while a gate is written
  // ---------------------------------------------------------------------------

  const LONE := Entry0(0, Delete("p"), Attempted(0, 0, "session"))

  const UNKNOWN_BASE := MutationBase(false, None, false, None)

  /** The retirement awaits its gate's write; the durable journal holds the intent. */
  predicate GateIsAwaited(s: State) {
    && IsAtHome(s) && IsQuiet(s.pend) && s.journal == [] && s.nextId == 1
    && s.pend.durable == map[KEY := [LONE]] && s.sett.durable == map[KEY := NOTHING_SETTLED]
    && s.pass.pc.GateWrite? && s.pass.pc.it == LONE && s.pass.pc.gateAdded
  }

  lemma GateIsAwaitedSomewhere()
    ensures exists s :: Reachable(s) && GateIsAwaited(s) && JournalHolds(s.pend, KEY, LONE)
  {
    DeviceCaptures([LONE], 1);
    var s :| HasCaptured(s, [LONE], 1);
    assert [LONE] == [LONE] + [];
    GateRetires(s, LONE, [], false, Sees(LiveAt("p"), false, false));
    LoneAwaitsGate(s);
  }

  lemma LoneAwaitsGate(s: State)
    requires IsPlain(s, NOTHING_SETTLED) && IsQuiet(s.pend) && s.journal == [LONE] && s.nextId == 1
    requires s.pend.durable == map[KEY := [LONE]] && s.sett.durable == map[KEY := NOTHING_SETTLED]
    ensures GateIsAwaited(AtGate(s, LONE, [])) && JournalHolds(AtGate(s, LONE, []).pend, KEY, LONE)
  {
    assert Remove([LONE], LONE.id) == [];
    assert LONE in s.pend.durable[KEY];
  }

  lemma OneDelete(path: Path, id: nat)
    ensures RecordDelete([], path, KEY, UNKNOWN_BASE, id, 9).entries == [NewIntent(id, Delete(path), KEY, UNKNOWN_BASE, 9)]
  {
    assert CollapseChain([], KEY, path, UNKNOWN_BASE) == Collapsed([], path, UNKNOWN_BASE);
  }

  const ELSEWHERE := FileDeleted("z", UNKNOWN_BASE, 9)

  lemma DeletedElsewhere(s: State)
    requires GateIsAwaited(s)
    ensures var l := EventRecorded(s, ELSEWHERE).pend;
            HasOneQueued(l) && !Lists(l.log[l.done].snapshot, LONE)
  {
    OneDelete("z", 1);
    var j := [NewIntent(1, Delete("z"), KEY, UNKNOWN_BASE, 9)];
    assert Recording(s, ELSEWHERE) == j;
    AllEntries(j);
    PushHasOneQueued(s.pend, j);
  }

  const INTERVENING: seq<Event> := [Local(ELSEWHERE, true), JournalLane(LandWrite), Crashes]

  /** From every such state a local delete elsewhere, the landing of its snapshot and a crash lose the intent. */
  lemma AwaitedGateIsLost(s: State)
    requires GateIsAwaited(s) && s.sett.done <= |s.sett.log|
    ensures exists t :: IsRun(s, INTERVENING, t) && IsLost(t, LONE)
  {
    EventRuns(s, ELSEWHERE);
    DeletedElsewhere(s);
    LandAndCrashLoses(EventRecorded(s, ELSEWHERE), LONE);
    LosingGoesOn(s, [Local(ELSEWHERE, true)], EventRecorded(s, ELSEWHERE), LONE);
    assert [Local(ELSEWHERE, true)] + LAND_AND_CRASH == INTERVENING;
  }

  /**
   * A gate write whose intent the durable journal and its queue hold, and a run
   * from there after which neither the intent nor the gate is durable.
   */
  lemma InterveningSnapshotLosesTheFence()
    ensures exists s, t :: Reachable(s) && GateIsAwaited(s) && JournalHolds(s.pend, KEY, LONE)
                           && IsRun(s, INTERVENING, t) && IsLost(t, LONE)
  {
    GateIsAwaitedSomewhere();
    var s :| Reachable(s) && GateIsAwaited(s) && JournalHolds(s.pend, KEY, LONE);
    QueuesAreBounded(s);
    AwaitedGateIsLost(s);
  }

  // ---------------------------------------------------------------------------
  // A rename that follows its file while the pass runs
  // ---------------------------------------------------------------------------

  const DELETION := Entry0(0, Delete("c"), Ready)

  const RENAMING := Entry0(1, Rename("a", "b"), Ready)

  /** The captured rename, with its file moved on from b to c. */
  const MOVED := RENAMING.(kind := Rename("a", "c"), recordedAt := 9)

  const SIGHT := Sees(NO_REMOTE, false, false)

  const ATTEMPT0 := Attempted(0, 5, "session")

  const ATTEMPT1 := Attempted(1, 5, "session")

  const DONE := Committed(5, "session", None, None)

  /** A two-entry journal in the scope. */
  predicate ArePair(a: Intent, b: Intent) {
    a.id == 0 && b.id == 1 && a.scope == KEY && b.scope == KEY
  }

  lemma PairEntries(a: Intent, b: Intent)
    requires ArePair(a, b)
    ensures DistinctIds([a, b]) && Entries([a, b], KEY) == [a, b]
    ensures EntryById([a, b], 0) == Some(a) && EntryById([a, b], 1) == Some(b)
  {
    AllEntries([a, b]);
    assert [a, b][0] == a && [a, b][1] == b;
    assert EntryById([a, b], 0).Some? && EntryById([a, b], 1).Some?;
  }

  lemma PairMarks(a: Intent, b: Intent, expected: Phase -> bool, next: Phase)
    requires ArePair(a, b)
    ensures expected(a.phase) ==> Mark([a, b], 0, expected, next) == Journal.Marked([a.(phase := next), b], true)
    ensures expected(b.phase) ==> Mark([a, b], 1, expected, next) == Journal.Marked([a, b.(phase := next)], true)
  {
    PairEntries(a, b);
    ReplaceIsUpdate([a, b], 0, a.(phase := next));
    ReplaceIsUpdate([a, b], 1, b.(phase := next));
  }

  /** The delete is about to take effect. */
  predicate DeletionAttempted(s: State) {
    && IsPlain(s, NOTHING_SETTLED) && IsQuiet(s.pend) && IsQuiet(s.sett)
    && s.journal == [DELETION.(phase := ATTEMPT0), RENAMING] && s.pass.todo == [RENAMING]
    && s.pass.pc == Attempting(DELETION, 0, AtCas) && s.nextAttempt == 1 && s.nextId == 2 && s.applied == []
  }

  lemma PairFence(a: Intent, b: Intent, it: Intent)
    requires ArePair(a, b)
    requires a.id == it.id || a.phase.Ready? || !Overlap(it, a)
    requires b.id == it.id || b.phase.Ready? || !Overlap(it, b)
    ensures !HasOtherFence([a, b], KEY, it)
  {
  }

  lemma DeletionMayBegin(s: State)
    requires HasCaptured(s, [DELETION, RENAMING], 2)
    ensures MayBegin(s, DELETION, [RENAMING], false, SIGHT)
    ensures MarkAttempt(s, SIGHT, DELETION) == Journal.Marked([DELETION.(phase := ATTEMPT0), RENAMING], true)
  {
    assert [DELETION, RENAMING] == [DELETION] + [RENAMING];
    PairMarks(DELETION, RENAMING, IsReady(), ATTEMPT0);
    PairFence(DELETION, RENAMING, DELETION);
  }

  lemma DeletionIsAttempted()
    ensures exists s :: Reachable(s) && DeletionAttempted(s)
  {
    DeviceCaptures([DELETION, RENAMING], 2);
    var s :| HasCaptured(s, [DELETION, RENAMING], 2);
    DeletionMayBegin(s);
    AttemptReachesCas(s, DELETION, [RENAMING], false, SIGHT);
    assert DeletionAttempted(AtMutation(s, DELETION, [RENAMING], SIGHT));
  }

  /** The delete took effect; its final snapshots are queued. */
  predicate DeletionMutated(s: State) {
    && IsPlain(s, NOTHING_SETTLED) && HasOneQueued(s.pend) && HasOneQueued(s.sett)
    && s.journal == [DELETION.(phase := DONE), RENAMING] && s.pass.todo == [RENAMING]
    && s.pass.pc == Committing(Some(|s.pend.log|), Some(|s.sett.log|)) && s.nextAttempt == 1 && s.nextId == 2
    && s.applied == [Applied(0, KEY, {"c"}, {"c"})]
  }

  lemma DeletionMayMutate(s: State)
    requires DeletionAttempted(s)
    ensures CurrentEntry(s, 0) == Some(DELETION.(phase := ATTEMPT0)) && IsAttemptCurrent(s, SIGHT)
    ensures MarkFinal(s, SIGHT) == Journal.Marked([DELETION.(phase := DONE), RENAMING], true)
  {
    PairEntries(DELETION.(phase := ATTEMPT0), RENAMING);
    PairMarks(DELETION.(phase := ATTEMPT0), RENAMING, IsAttempt(0), DONE);
  }

  lemma DeletionIsMutated(s: State)
    requires DeletionAttempted(s) && CurrentEntry(s, 0) == Some(DELETION.(phase := ATTEMPT0))
    requires MarkFinal(s, SIGHT) == Journal.Marked([DELETION.(phase := DONE), RENAMING], true)
    ensures DeletionMutated(Mutated(s, SIGHT))
  {
    PushHasOneQueued(s.pend, Entries([DELETION.(phase := DONE), RENAMING], KEY));
    PushHasOneQueued(s.sett, NOTHING_SETTLED);
    assert Paths(DELETION) == {"c"} == Paths(DELETION.(phase := ATTEMPT0));
  }

  lemma DeletionMutates()
    ensures exists s :: Reachable(s) && DeletionMutated(s)
  {
    DeletionIsAttempted();
    var s :| Reachable(s) && DeletionAttempted(s);
    DeletionMayMutate(s);
    MutationReaches(s, SIGHT);
    DeletionIsMutated(s);
  }

  /** While the final writes are awaited the renamed file moves on; everything is saved then. */
  predicate FileMoved(s: State) {
    && IsPlain(s, NOTHING_SETTLED) && IsQuiet(s.pend) && IsQuiet(s.sett)
    && s.journal == [DELETION.(phase := DONE), MOVED] && s.pass.todo == [RENAMING]
    && s.pass.pc.Committing? && IsOk(s.pend, s.pass.pc.journalWrite) && IsOk(s.sett, s.pass.pc.settledWrite)
    && s.nextAttempt == 1 && s.applied == [Applied(0, KEY, {"c"}, {"c"})]
  }

  const MOVES := FileRenamed("b", "c", UNKNOWN_BASE, 9, true)

  /** The journaled rename follows the file; the captured entry does not. */
  lemma RenamingLeavesTheCaptureStale(a: Intent, base: MutationBase, id: nat, at: nat)
    requires a.id == 0 && a.scope == KEY && a.phase.Committed? && a.kind == Delete("c")
    ensures RecordRename([a, RENAMING], "b", "c", KEY, base, id, at).entries == [a, MOVED.(recordedAt := at)]
    ensures ReadyRenameTo([a, RENAMING], KEY, "b") == Some(RENAMING)
  {
    var j := [a, RENAMING];
    assert j[1] == RENAMING;
    assert ReadyDelete(j, KEY, "b").None?;
    assert ReadyRenameTo(j, KEY, "b") == Some(RENAMING);
    ReplaceIsUpdate(j, 1, MOVED.(recordedAt := at));
  }

  lemma MoveRecords(s: State)
    requires IsPlain(s, NOTHING_SETTLED) && IsQuiet(s.pend) && s.journal == [DELETION.(phase := DONE), RENAMING]
    ensures var j := [DELETION.(phase := DONE), MOVED];
            Recording(s, MOVES) == j && HasOneQueued(Push(s.pend, TOKEN, None, STORE, Entries(j, KEY)))
  {
    RenamingLeavesTheCaptureStale(DELETION.(phase := DONE), UNKNOWN_BASE, s.nextId + 1, 9);
    PushHasOneQueued(s.pend, Entries([DELETION.(phase := DONE), MOVED], KEY));
  }

  lemma FileMoves()
    ensures exists s :: Reachable(s) && FileMoved(s)
  {
    DeletionMutates();
    var s :| Reachable(s) && DeletionMutated(s);
    JournalSaves(s);
    SavedIsQuiet(s.pend);
    var s1 := WithPend(s, Saved(s.pend));
    EventIsRecorded(s1, MOVES);
    MoveRecords(s1);
    FinalWritesEnd(EventRecorded(s1, MOVES));
  }

  /** The move is recorded; both snapshots are still queued. */
  predicate MoveIsRecorded(s: State) {
    && IsPlain(s, NOTHING_SETTLED) && HasOneQueued(s.pend) && HasOneQueued(s.sett)
    && s.journal == [DELETION.(phase := DONE), MOVED] && s.pass.todo == [RENAMING] && s.nextAttempt == 1
    && s.pass.pc.Committing? && IsOk(s.pend, s.pass.pc.journalWrite) && s.pass.pc.settledWrite == Some(|s.sett.log|)
    && s.applied == [Applied(0, KEY, {"c"}, {"c"})]
  }

  lemma SavedAfterMove(s: State)
    requires MoveIsRecorded(s)
    ensures FileMoved(WithSett(WithPend(s, Saved(s.pend)), Saved(s.sett)))
  {
    SavedIsQuiet(s.pend);
    SavedIsQuiet(s.sett);
  }

  lemma FinalWritesEnd(s: State)
    requires Reachable(s) && MoveIsRecorded(s)
    ensures exists t :: Reachable(t) && FileMoved(t)
  {
    JournalSaves(s);
    SettledSaves(WithPend(s, Saved(s.pend)));
    SavedAfterMove(s);
  }

  /** The pass attempts the rename as it was captured. */
  predicate RenameAttempted(s: State) {
    && IsPlain(s, NOTHING_SETTLED) && IsQuiet(s.pend) && IsQuiet(s.sett)
    && s.journal == [DELETION.(phase := DONE), MOVED.(phase := ATTEMPT1)]
    && s.pass.pc == Attempting(RENAMING, 1, AtCas) && s.applied == [Applied(0, KEY, {"c"}, {"c"})]
  }

  lemma RenameMayBegin(s: State)
    requires FileMoved(s)
    ensures MayBegin(InPass(s, [RENAMING], Looping(false)), RENAMING, [], false, SIGHT)
    ensures MarkAttempt(s, SIGHT, RENAMING) == Journal.Marked([DELETION.(phase := DONE), MOVED.(phase := ATTEMPT1)], true)
  {
    assert [RENAMING] == [RENAMING] + [];
    PairMarks(DELETION.(phase := DONE), MOVED, IsReady(), ATTEMPT1);
    assert Paths(RENAMING) * Paths(DELETION.(phase := DONE)) == {};
    PairFence(DELETION.(phase := DONE), MOVED, RENAMING);
  }

  lemma RenameIsAttempted()
    ensures exists s :: Reachable(s) && RenameAttempted(s)
  {
    FileMoves();
    var s :| Reachable(s) && FileMoved(s);
    CommitEnds(s, SIGHT);
    var s1 := InPass(s, [RENAMING], Looping(false));
    RenameMayBegin(s);
    AttemptReachesCas(s1, RENAMING, [], false, SIGHT);
    assert RenameAttempted(AtMutation(s1, RENAMING, [], SIGHT));
  }

  lemma RenameMayMutate(s: State)
    requires RenameAttempted(s)
    ensures CurrentEntry(s, 1) == Some(MOVED.(phase := ATTEMPT1)) && IsAttemptCurrent(s, SIGHT)
    ensures MarkFinal(s, SIGHT) == Journal.Marked([DELETION.(phase := DONE), MOVED.(phase := DONE)], true)
    ensures !JournaledEntryIsExclusive(s)
  {
    PairEntries(DELETION.(phase := DONE), MOVED.(phase := ATTEMPT1));
    PairMarks(DELETION.(phase := DONE), MOVED.(phase := ATTEMPT1), IsAttempt(1), DONE);
    assert s.journal[0] == DELETION.(phase := DONE) && s.applied[0].id == 0;
    assert IsApplied(s, 0);
    assert "c" in Paths(MOVED) * Paths(DELETION);
  }

  /** Both entries took effect; the second was decided on other paths than it names. */
  predicate BothApplied(t: State) {
    && t.journal == [DELETION.(phase := DONE), MOVED.(phase := DONE)]
    && t.applied == [Applied(0, KEY, {"c"}, {"c"}), Applied(1, KEY, {"a", "b"}, {"a", "c"})]
  }

  lemma BothOwnC(t: State)
    requires BothApplied(t)
    ensures !AppliedAreDisjoint(t) && !CapturesWereFresh(t)
  {
    var e, f := DELETION.(phase := DONE), MOVED.(phase := DONE);
    assert t.journal[0] == e && t.journal[1] == f;
    assert t.applied[0].id == 0 && t.applied[1].id == 1;
    assert "c" in Paths(e) * Paths(f);
    assert AreAppliedPair(t, e, f);
    assert "b" in t.applied[1].claimed && "b" !in t.applied[1].journaled;
  }

  lemma RenameIsMutated(s: State)
    requires RenameAttempted(s) && CurrentEntry(s, 1) == Some(MOVED.(phase := ATTEMPT1))
    requires MarkFinal(s, SIGHT) == Journal.Marked([DELETION.(phase := DONE), MOVED.(phase := DONE)], true)
    ensures BothApplied(Mutated(s, SIGHT))
  {
    assert Paths(RENAMING) == {"a", "b"} && Paths(MOVED.(phase := ATTEMPT1)) == {"a", "c"};
  }

  /** The guard, asked about the captured rename a -> b, passes beside the applied delete of c. */
  lemma StaleGuardPasses()
    ensures exists s :: Reachable(s) && RenameAttempted(s) && IsAttemptCurrent(s, SIGHT) && !JournaledEntryIsExclusive(s)
  {
    RenameIsAttempted();
    var s :| Reachable(s) && RenameAttempted(s);
    RenameMayMutate(s);
  }

  /** A run of the engine after which two applied and journaled entries own c. */
  lemma ExclusionFailsForStaleCaptures()
    ensures exists t :: Reachable(t) && !AppliedAreDisjoint(t) && !CapturesWereFresh(t)
  {
    RenameIsAttempted();
    var s :| Reachable(s) && RenameAttempted(s);
    RenameMayMutate(s);
    MutationReaches(s, SIGHT);
    RenameIsMutated(s);
    BothOwnC(Mutated(s, SIGHT));
  }

  // ---------------------------------------------------------------------------
  // A fence that a refused preparation left in memory
  // ---------------------------------------------------------------------------

  const RENAMED := Entry0(0, Rename("a", "b"), DONE)

  const FENCED := NOTHING_SETTLED.(stages := map["a" := Stage(CommittedBy(0), Retire, None, None, 5)])

  lemma RenamePrepares()
    ensures Postcondition(RENAMED, LiveAt("b")) && Postcondition(RENAMED, NO_REMOTE)
    ensures Prepare(NOTHING_SETTLED, RENAMED, LiveAt("b"), 5) == Refuse(FENCED)
    ensures Prepare(FENCED, RENAMED, NO_REMOTE, 5) == Keep(FENCED)
    ensures Prepared(FENCED, RENAMED, NO_REMOTE) && Protects(FENCED, FenceOf(RENAMED))
  {
    assert NOTHING_SETTLED.refs - {"a"} == NOTHING_SETTLED.refs;
    assert NOTHING_SETTLED.versions - {"a"} == NOTHING_SETTLED.versions;
  }

  /** The source was staged in memory by a preparation that then refused; the pass is over. */
  predicate FenceIsLeft(s: State) {
    && IsAtHome(s) && s.mem == FENCED && s.claims == {} && s.pending == None && IsQuiet(s.pend) && IsQuiet(s.sett)
    && s.journal == [RENAMED] && s.unsaved == {"a"} && s.pass.pc.Idle?
    && s.pend.durable == map[KEY := [RENAMED]] && s.sett.durable == map[KEY := NOTHING_SETTLED]
  }

  lemma FenceIsLeftSomewhere()
    ensures exists s :: Reachable(s) && FenceIsLeft(s)
  {
    DeviceCaptures([RENAMED], 1);
    var s :| HasCaptured(s, [RENAMED], 1);
    assert [RENAMED] == [RENAMED] + [];
    RenamePrepares();
    var sight := Sees(LiveAt("b"), false, true);
    PreparationRefuses(s, RENAMED, [], false, sight, FENCED);
    var t := AtPreparation(s, RENAMED, [], false, FENCED, {"a"}, Refusing);
    assert s.unsaved + {"a"} == {"a"};
    SegmentReaches(s, sight, t);
    RefusalEnds(t, Sees(LiveAt("b"), true, true));
    FenceStays(s);
  }

  lemma FenceStays(s: State)
    requires IsPlain(s, NOTHING_SETTLED) && IsQuiet(s.pend) && IsQuiet(s.sett) && s.journal == [RENAMED]
    requires s.pend.durable == map[KEY := [RENAMED]] && s.sett.durable == map[KEY := NOTHING_SETTLED]
    ensures FenceIsLeft(InPass(AtPreparation(s, RENAMED, [], false, FENCED, {"a"}, Refusing), [], Idle))
  {
  }

  /** A later pass prepares the removal again, and finds everything in place. */
  predicate FenceIsFound(s: State) {
    && IsAtHome(s) && s.mem == FENCED && IsQuiet(s.pend) && IsQuiet(s.sett)
    && s.journal == [RENAMED] && s.unsaved == {"a"} && s.pass.todo == []
    && s.pass.pc == PreparingRemoval(RENAMED, false, Unwritten)
    && s.pend.durable == map[KEY := [RENAMED]] && s.sett.durable == map[KEY := NOTHING_SETTLED]
  }

  lemma FenceIsFoundSomewhere()
    ensures exists s :: Reachable(s) && FenceIsFound(s)
  {
    FenceIsLeftSomewhere();
    var s :| Reachable(s) && FenceIsLeft(s);
    var sight := Sees(NO_REMOTE, false, true);
    AllEntries([RENAMED]);
    PassOpens(s, sight);
    var s1 := InPass(s, [RENAMED], Looping(false));
    assert [RENAMED] == [RENAMED] + [];
    RenamePrepares();
    PreparationKeepsMemory(s1, RENAMED, [], false, sight);
    SegmentReaches(s1, sight, AtPreparation(s1, RENAMED, [], false, FENCED, {"a"}, Unwritten));
  }

  lemma FoundIsKept(s: State)
    requires FenceIsFound(s)
    ensures JournalHolds(s.pend, KEY, RENAMED) && Protects(s.mem, FenceOf(RENAMED)) && SourcePath(RENAMED) in s.unsaved
  {
    RenamePrepares();
    assert RENAMED in s.pend.durable[KEY];
  }

  const DONE_RENAMING := Sees(NO_REMOTE, false, true)

  /** The preparation ends, the entry is removed, the loop ends with the journal write, and that lands. */
  const REMOVING: seq<Event> :=
    [Replays(DONE_RENAMING), Replays(DONE_RENAMING), Replays(DONE_RENAMING), JournalLane(LandWrite), Crashes]

  lemma FoundFenceIsLost(s: State)
    requires FenceIsFound(s) && s.sett.done <= |s.sett.log|
    ensures exists t :: IsRun(s, REMOVING, t) && IsLost(t, RENAMED)
  {
    var segments := [Replays(DONE_RENAMING), Replays(DONE_RENAMING), Replays(DONE_RENAMING)];
    RenamePrepares();
    assert s.journal[0] == RENAMED;
    UnsavedRemovalRuns(s, DONE_RENAMING);
    RenamedIsGone(s);
    LandAndCrashLoses(EntryRemoved(s, RENAMED), RENAMED);
    LosingGoesOn(s, segments, EntryRemoved(s, RENAMED), RENAMED);
    assert segments + LAND_AND_CRASH == REMOVING;
  }

  lemma RenamedIsGone(s: State)
    requires FenceIsFound(s)
    ensures var l := EntryRemoved(s, RENAMED).pend; HasOneQueued(l) && !Lists(l.log[l.done].snapshot, RENAMED)
  {
    assert Remove(s.journal, 0) == [];
    AllEntries([]);
    PushHasOneQueued(s.pend, []);
  }

  /**
   * A run in which a confirmed removal leaves nothing durable: both lanes are
   * healthy, memory fences the source, the journal holds the entry, and after the
   * removal, the landing of its journal write and a crash neither the entry nor its
   * fence is durable.
   */
  lemma RefusedPreparationLosesTheFence()
    ensures exists s, t :: Reachable(s) && FenceIsFound(s) && JournalHolds(s.pend, KEY, RENAMED)
                           && Protects(s.mem, FenceOf(RENAMED)) && IsRun(s, REMOVING, t) && IsLost(t, RENAMED)
  {
    FenceIsFoundSomewhere();
    var s :| Reachable(s) && FenceIsFound(s);
    QueuesAreBounded(s);
    FoundIsKept(s);
    FoundFenceIsLost(s);
  }

  // ---------------------------------------------------------------------------
  // A healthy lane whose tail was rejected
  // ---------------------------------------------------------------------------

  const EMPTY: seq<Intent> := []

  const STORE2 := Store(2, KEY, 1)

  /** A write failed, and a second ensure is at some point of its load. */
  function ReloadingLane(pc: LoadPc<seq<Intent>>): Lane<seq<Intent>> {
    Lane([Write.Write(TOKEN, None, STORE, EMPTY, false, Rejected)], 1, 1, false, None, 2, map[2 := Load(TOKEN, STORE2, 2, pc)],
         {}, map[KEY := EMPTY], map[KEY := EMPTY], map[KEY := EMPTY], None)
  }

  function ReloadPcAt(n: nat): LoadPc<seq<Intent>> {
    if n == 0 then AwaitingTail(1) else if n == 1 then TailStable else if n == 2 then Reading(1) else Read(1, Loaded(EMPTY))
  }

  function ReloadEvent(n: nat): LaneEvent {
    if n == 0 then TailDone(2) else if n == 1 then BeginRead(2) else EndRead(2, ReadsRecord)
  }

  lemma LaneReloads(n: nat)
    requires n < 3
    ensures LaneEnabled(ReloadingLane(ReloadPcAt(n)), ReloadEvent(n), GUARD, KEY)
    ensures LaneStep(ReloadingLane(ReloadPcAt(n)), ReloadEvent(n), GUARD, KEY) == ReloadingLane(ReloadPcAt(n + 1))
  {
  }

  function Reloading(l: Lane<seq<Intent>>): State {
    Device(l, UnopenedLane(NOTHING_SETTLED), EMPTY, 0)
  }

  lemma EmptyJournalIsEnqueued()
    ensures PersistJournal(Reloading(AdoptedLane(EMPTY)), true) == Reloading(Push(AdoptedLane(EMPTY), TOKEN, None, STORE, EMPTY))
  {
    AllEntries(EMPTY);
    JournalEnqueues(Reloading(AdoptedLane(EMPTY)));
  }

  lemma QueuedWriteReaches()
    ensures Reachable(Reloading(Push(AdoptedLane(EMPTY), TOKEN, None, STORE, EMPTY)))
  {
    JournalOpens(EMPTY, 0);
    EmptyJournalIsEnqueued();
    StepReaches(Reloading(AdoptedLane(EMPTY)), PersistsJournal(true));
  }

  lemma FailedWriteReaches()
    ensures Reachable(Reloading(Settle(Push(AdoptedLane(EMPTY), TOKEN, None, STORE, EMPTY), GUARD, KEY, false)))
  {
    QueuedWriteReaches();
    StepReaches(Reloading(Push(AdoptedLane(EMPTY), TOKEN, None, STORE, EMPTY)), JournalLane(SettleWrite(false)));
  }

  lemma ReloadBegins()
    ensures EnsureJournal(Reloading(Settle(Push(AdoptedLane(EMPTY), TOKEN, None, STORE, EMPTY), GUARD, KEY, false)), true)
            == Reloading(ReloadingLane(ReloadPcAt(0)))
  {
    var l := Settle(Push(AdoptedLane(EMPTY), TOKEN, None, STORE, EMPTY), GUARD, KEY, false);
    assert BeginEnsure(l, GUARD, KEY, true) == ReloadingLane(ReloadPcAt(0));
  }

  lemma ReloadReaches(n: nat)
    requires n <= 3
    ensures Reachable(Reloading(ReloadingLane(ReloadPcAt(n))))
  {
    if n == 0 {
      FailedWriteReaches();
      var s := Reloading(Settle(Push(AdoptedLane(EMPTY), TOKEN, None, STORE, EMPTY), GUARD, KEY, false));
      StepReaches(s, JournalLane(Ensure(true)));
      ReloadBegins();
    } else {
      ReloadReaches(n - 1);
      LaneReloads(n - 1);
      var s := Reloading(ReloadingLane(ReloadPcAt(n - 1)));
      StepReaches(s, JournalLane(ReloadEvent(n - 1)));
      assert Step(s, JournalLane(ReloadEvent(n - 1))) == s.(pend := ReloadingLane(ReloadPcAt(n)));
    }
  }

  /** A run after which the journal lane is healthy although its tail is the rejected promise, so that it fails to flush. */
  lemma HealthyLaneMayHaveRejectedTail()
    ensures exists s :: Reachable(s) && s.pend.healthy && WasRejected(s.pend, s.pend.tail)
                        && FlushTurn(s.pend, s.pend.tail) == Some(false)
  {
    ReloadReaches(3);
    var s := Reloading(ReloadingLane(ReloadPcAt(3)));
    StepReaches(s, JournalAdopts(2));
    var t := AdoptJournal(s, 2);
    assert t.pend == Adopt(s.pend, 2, EMPTY, false);
    assert Step(s, JournalAdopts(2)) == t;
  }

  // ---------------------------------------------------------------------------
  // An entry back in memory that the durable journal does not hold
  // ---------------------------------------------------------------------------

  const DELETED := Entry0(0, Delete("p"), DONE)

  /** Its retirement awaits a gate; a file that moved there and back has meanwhile written the journal without it. */
  predicate GateOutlived(s: State) {
    && IsAtHome(s) && s.mem == GATED && s.claims == {} && IsQuiet(s.pend) && HasOneQueued(s.sett) && s.journal == []
    && KEY in s.pend.durable && s.pend.durable[KEY] == []
    && s.pass.pc == GateWrite(DELETED, Some(|s.sett.log|), true)
  }

  predicate GateBegun(s: State, j: seq<Intent>) {
    && IsAtHome(s) && s.mem == GATED && s.claims == {} && IsQuiet(s.pend) && HasOneQueued(s.sett) && s.journal == j
    && s.pass.pc == GateWrite(DELETED, Some(|s.sett.log|), true) && s.nextId == (if j == [] then 1 else 3)
  }

  lemma GateBegins()
    ensures exists s :: Reachable(s) && GateBegun(s, [])
  {
    DeviceCaptures([DELETED], 1);
    var s :| HasCaptured(s, [DELETED], 1);
    assert [DELETED] == [DELETED] + [];
    var sight := Sees(LiveAt("p"), false, false);
    GateRetires(s, DELETED, [], false, sight);
    DeletedAwaitsGate(s);
  }

  lemma DeletedAwaitsGate(s: State)
    requires IsPlain(s, NOTHING_SETTLED) && IsQuiet(s.pend) && IsQuiet(s.sett) && s.journal == [DELETED] && s.nextId == 1
    ensures GateBegun(AtGate(s, DELETED, []), [])
  {
    assert Remove([DELETED], 0) == [];
    assert {} + {"p"} == {"p"};
    PushHasOneQueued(s.sett, GATED);
  }

  const AWAY := NewIntent(2, Rename("y", "z"), KEY, UNKNOWN_BASE, 9)

  lemma MovesAway(id: nat)
    ensures RecordRename([], "y", "z", KEY, UNKNOWN_BASE, id, 9).entries == [NewIntent(id, Rename("y", "z"), KEY, UNKNOWN_BASE, 9)]
    ensures RecordRename([AWAY], "z", "y", KEY, UNKNOWN_BASE, id, 9).entries == []
    ensures ReadyRenameTo([], KEY, "y").None? && ReadyRenameTo([AWAY], KEY, "z") == Some(AWAY)
  {
    assert [AWAY][0] == AWAY;
    assert ReadyDelete([AWAY], KEY, "z").None?;
    assert Remove([AWAY], AWAY.id) == [];
  }

  lemma FileMovesAway()
    ensures exists s :: Reachable(s) && GateBegun(s, [AWAY])
  {
    GateBegins();
    var s :| Reachable(s) && GateBegun(s, []);
    var file := FileRenamed("y", "z", UNKNOWN_BASE, 9, true);
    EventIsRecorded(s, file);
    MovesAway(2);
    assert Recording(s, file) == [AWAY];
    AllEntries([AWAY]);
    PushHasOneQueued(s.pend, [AWAY]);
    var s1 := EventRecorded(s, file);
    JournalSaves(s1);
    SavedIsQuiet(s1.pend);
    assert GateBegun(WithPend(s1, Saved(s1.pend)), [AWAY]);
  }

  lemma FileMovesBack()
    ensures exists s :: Reachable(s) && GateOutlived(s)
  {
    FileMovesAway();
    var s :| Reachable(s) && GateBegun(s, [AWAY]);
    var file := FileRenamed("z", "y", UNKNOWN_BASE, 9, true);
    EventIsRecorded(s, file);
    MovesAway(s.nextId + 1);
    assert Recording(s, file) == [];
    AllEntries([]);
    PushHasOneQueued(s.pend, []);
    var s1 := EventRecorded(s, file);
    JournalSaves(s1);
    SavedIsQuiet(s1.pend);
    assert GateOutlived(WithPend(s1, Saved(s1.pend)));
  }

  /** The gate's write failed after that; the entry was put back, and both lanes work again. */
  predicate EntryIsBack(s: State) {
    && IsAtHome(s) && s.mem == GATED && s.claims == {} && s.pending == None && IsQuiet(s.pend) && IsQuiet(s.sett)
    && s.journal == [DELETED] && KEY in s.pend.durable && s.pend.durable[KEY] == [] && s.pass.pc.Idle?
  }

  lemma FailedGateHasOneQueued(s: State)
    requires GateOutlived(s)
    ensures HasOneQueued(Push(GateFailed(s).sett, TOKEN, None, STORE, GATED))
    ensures GateFailed(s).journal == [DELETED]
  {
    assert [] + [DELETED] == [DELETED];
  }

  lemma EntryComesBack()
    ensures exists s :: Reachable(s) && EntryIsBack(s)
  {
    FileMovesBack();
    var s :| Reachable(s) && GateOutlived(s);
    GateWriteFails(s);
    FailedGateHasOneQueued(s);
    var s1 := GateFailed(s);
    SettledIsEnqueued(s1);
    var s2 := WithSett(s1, Push(s1.sett, TOKEN, None, STORE, GATED)).(unsaved := {});
    SettledSaves(s2);
    SavedIsQuiet(s2.sett);
    assert EntryIsBack(WithSett(s2, Saved(s2.sett)));
  }

  lemma NothingHoldsIt(l: Lane<seq<Intent>>)
    requires KEY in l.durable && l.durable[KEY] == []
    ensures !JournalHolds(l, KEY, DELETED)
  {
  }

  /**
   * A run after which the removal of a confirmed entry begins although the durable
   * journal does not hold it, with the journal lane healthy: that it holds it is
   * not for free.
   */
  lemma RemovalMayBeginUnheld()
    ensures exists s :: Reachable(s) && s.pass.pc.PreparingRemoval? && s.pass.pc.it == DELETED && s.pend.healthy
                        && !JournalHolds(s.pend, KEY, DELETED)
  {
    EntryComesBack();
    var s :| Reachable(s) && EntryIsBack(s);
    var sight := Sees(NO_REMOTE, false, true);
    AllEntries([DELETED]);
    PassOpens(s, sight);
    var s1 := InPass(s, [DELETED], Looping(false));
    assert [DELETED] == [DELETED] + [];
    DeletionPrepares();
    PreparationWrites(s1, DELETED, [], false, sight);
    SegmentReaches(s1, sight, ReplayStep(s1, sight));
    NothingHoldsIt(s1.pend);
  }

  lemma DeletionPrepares()
    ensures Postcondition(DELETED, NO_REMOTE) && Prepare(GATED, DELETED, NO_REMOTE, 5).Write?
  {
    assert "p" in Prepare(GATED, DELETED, NO_REMOTE, 5).state.stages;
  }
}
