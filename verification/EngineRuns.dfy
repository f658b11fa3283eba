/**
 * Runs of the attachment engine from a device start, put together from steps that
 * recur: loading both records, opening a pass, saving a snapshot, attempting an
 * entry.
 */
module EngineRuns {
  import opened Wrappers
  import opened Authority
  import opened Lanes
  import opened BlobRefs
  import opened Journal
  import opened Settlements
  import opened Engine
  import opened EngineSafety
  import opened EngineRemoval

  const KEY := Scope("host", "vault", "device")

  const STORE := Store(1, KEY, 1)

  const TOKEN := Token(Some(KEY), 1)

  const GUARD := Guard(Some(KEY), 1)

  /** One step is a run. */
  lemma StepRuns(s: State, e: Event, t: State)
    requires Enabled(s, e) && Step(s, e) == t
    ensures IsRun(s, [e], t)
  {
    assert IsRun(t, [], t);
    RunStarts(s, [e], e, [], t, t);
  }

  lemma StepReaches(s: State, e: Event)
    requires Reachable(s) && Enabled(s, e)
    ensures Reachable(Step(s, e))
  {
    StepRuns(s, e, Step(s, e));
    RunReaches(s, [e], Step(s, e));
  }

  lemma SegmentRuns(s: State, sight: Sight, t: State)
    requires ReplayStep(s, sight) == t
    ensures IsRun(s, [Replays(sight)], t)
  {
    StepRuns(s, Replays(sight), t);
  }

  /** The same, for a step whose outcome is known. */
  lemma SegmentReaches(s: State, sight: Sight, t: State)
    requires Reachable(s) && ReplayStep(s, sight) == t
    ensures Reachable(t)
  {
    StepReaches(s, Replays(sight));
  }

  // ---------------------------------------------------------------------------
  // Loading both records
  // ---------------------------------------------------------------------------

  /** A lane whose first ensure is at some point of its load. */
  function LoadingLane<S>(value: S, pc: LoadPc<S>): Lane<S> {
    Lane([], 0, 0, false, None, 1, map[1 := Load(TOKEN, STORE, 1, pc)], {}, map[KEY := value], map[KEY := value], map[],
         None)
  }

  function UnopenedLane<S>(value: S): Lane<S> {
    Lane([], 0, 0, false, None, 0, map[], {}, map[KEY := value], map[KEY := value], map[], None)
  }

  /** A lane that has just adopted the record of the scope. */
  function AdoptedLane<S>(value: S): Lane<S> {
    Lane([], 0, 0, true, Some(STORE), 1, map[], {}, map[KEY := value], map[KEY := value], map[KEY := value], Some(0))
  }

  function LoadPcAt<S>(value: S, n: nat): LoadPc<S> {
    if n == 0 then AwaitingTail(0) else if n == 1 then TailStable else if n == 2 then Reading(0) else Read(0, Loaded(value))
  }

  function LoadEvent(n: nat): LaneEvent {
    if n == 0 then TailDone(1) else if n == 1 then BeginRead(1) else EndRead(1, ReadsRecord)
  }

  lemma LaneLoads<S>(value: S, n: nat)
    requires n < 3
    ensures LaneEnabled(LoadingLane(value, LoadPcAt(value, n)), LoadEvent(n), GUARD, KEY)
    ensures LaneStep(LoadingLane(value, LoadPcAt(value, n)), LoadEvent(n), GUARD, KEY)
            == LoadingLane(value, LoadPcAt(value, n + 1))
  {
  }

  lemma LaneBegins<S>(value: S)
    ensures BeginEnsure(UnopenedLane(value), GUARD, KEY, true) == LoadingLane(value, AwaitingTail(0))
    ensures AdoptEnabled(LoadingLane(value, LoadPcAt(value, 3)), GUARD, KEY, 1)
    ensures Adopt(LoadingLane(value, LoadPcAt(value, 3)), 1, value, false) == AdoptedLane(value)
  {
  }

  /** A device with the scope activated, in between. */
  function Device(pend: Lane<seq<Intent>>, sett: Lane<Settled>, journal: seq<Intent>, n: nat): State {
    State(KEY, GUARD, pend, sett, journal, NOTHING_SETTLED, IDLE_PASS, n, 0, [], {}, None, {})
  }

  /** Both lanes attached to what a device found: this journal, and nothing settled. */
  function Opened(j: seq<Intent>, n: nat): State {
    Device(AdoptedLane(j), AdoptedLane(NOTHING_SETTLED), j, n)
  }

  predicate IsJournal(j: seq<Intent>, n: nat) {
    DistinctIds(j) && forall e :: e in j ==> e.scope == KEY && e.id < n
  }

  function Begin(j: seq<Intent>, n: nat): State {
    Start(KEY, map[KEY := j], map[KEY := NOTHING_SETTLED], n)
  }

  lemma BeginReaches(j: seq<Intent>, n: nat)
    requires IsJournal(j, n)
    ensures Reachable(Begin(j, n))
  {
    assert GoodJournals(map[KEY := j], n);
    assert IsRun(Begin(j, n), [], Begin(j, n));
  }

  lemma JournalLoads(j: seq<Intent>, n: nat, k: nat)
    requires IsJournal(j, n) && k <= 3
    ensures Reachable(Device(LoadingLane(j, LoadPcAt(j, k)), UnopenedLane(NOTHING_SETTLED), [], n))
  {
    if k == 0 {
      BeginReaches(j, n);
      LaneBegins(j);
      StepReaches(Begin(j, n), JournalLane(Ensure(true)));
      assert Step(Begin(j, n), JournalLane(Ensure(true)))
          == Device(LoadingLane(j, LoadPcAt(j, 0)), UnopenedLane(NOTHING_SETTLED), [], n);
    } else {
      JournalLoads(j, n, k - 1);
      LaneLoads(j, k - 1);
      var s := Device(LoadingLane(j, LoadPcAt(j, k - 1)), UnopenedLane(NOTHING_SETTLED), [], n);
      StepReaches(s, JournalLane(LoadEvent(k - 1)));
      assert Step(s, JournalLane(LoadEvent(k - 1))) == s.(pend := LoadingLane(j, LoadPcAt(j, k)));
    }
  }

  lemma JournalIsAdopted(j: seq<Intent>, n: nat)
    requires IsJournal(j, n)
    ensures var s := Device(LoadingLane(j, LoadPcAt(j, 3)), UnopenedLane(NOTHING_SETTLED), [], n);
            AdoptEnabled(s.pend, s.g, s.settings, 1)
            && AdoptJournal(s, 1) == Device(AdoptedLane(j), UnopenedLane(NOTHING_SETTLED), j, n)
  {
    LaneBegins(j);
    assert Merge(j, []) == j && [] + j == j;
  }

  lemma JournalOpens(j: seq<Intent>, n: nat)
    requires IsJournal(j, n)
    ensures Reachable(Device(AdoptedLane(j), UnopenedLane(NOTHING_SETTLED), j, n))
  {
    JournalLoads(j, n, 3);
    JournalIsAdopted(j, n);
    StepReaches(Device(LoadingLane(j, LoadPcAt(j, 3)), UnopenedLane(NOTHING_SETTLED), [], n), JournalAdopts(1));
  }

  lemma SettledLoads(j: seq<Intent>, n: nat, k: nat)
    requires IsJournal(j, n) && k <= 3
    ensures Reachable(Device(AdoptedLane(j), LoadingLane(NOTHING_SETTLED, LoadPcAt(NOTHING_SETTLED, k)), j, n))
  {
    if k == 0 {
      JournalOpens(j, n);
      LaneBegins(NOTHING_SETTLED);
      var s := Device(AdoptedLane(j), UnopenedLane(NOTHING_SETTLED), j, n);
      StepReaches(s, SettledLane(Ensure(true)));
      assert EnsureSettled(s, true) == s.(sett := LoadingLane(NOTHING_SETTLED, AwaitingTail(0)));
    } else {
      SettledLoads(j, n, k - 1);
      LaneLoads(NOTHING_SETTLED, k - 1);
      var s := Device(AdoptedLane(j), LoadingLane(NOTHING_SETTLED, LoadPcAt(NOTHING_SETTLED, k - 1)), j, n);
      StepReaches(s, SettledLane(LoadEvent(k - 1)));
      assert Step(s, SettledLane(LoadEvent(k - 1)))
          == s.(sett := LoadingLane(NOTHING_SETTLED, LoadPcAt(NOTHING_SETTLED, k)));
    }
  }

  /** Every device with a distinct durable journal of one scope can open both lanes. */
  lemma OpenedReaches(j: seq<Intent>, n: nat)
    requires IsJournal(j, n)
    ensures Reachable(Opened(j, n))
  {
    SettledLoads(j, n, 3);
    LaneBegins(NOTHING_SETTLED);
    var s := Device(AdoptedLane(j), LoadingLane(NOTHING_SETTLED, LoadPcAt(NOTHING_SETTLED, 3)), j, n);
    StepReaches(s, SettledAdopts(1, false, {}));
    assert AdoptedSettled(Loaded(NOTHING_SETTLED), {}) == NOTHING_SETTLED;
    assert AdoptSettled(s, 1, false, {}) == Opened(j, n);
  }

  // ---------------------------------------------------------------------------
  // Lanes at rest and lanes with one write
  // ---------------------------------------------------------------------------

  /** Attached, healthy, nothing queued, and the tail did not fail. */
  predicate IsQuiet<S>(l: Lane<S>) {
    l.store == Some(STORE) && KEY !in l.corrupt && l.healthy && l.done == |l.log| && l.tail <= l.done && !WasRejected(l, l.tail)
  }

  /** Attached, with exactly one write of the attached store queued. */
  predicate HasOneQueued<S>(l: Lane<S>) {
    && l.store == Some(STORE) && KEY !in l.corrupt && l.done + 1 == |l.log| == l.tail
    && l.log[l.done].token == TOKEN && l.log[l.done].attempt == None && l.log[l.done].store == STORE
  }

  function Landed<S>(l: Lane<S>): Lane<S>
    requires l.done < |l.log|
  {
    Land(l)
  }

  /** The queued write reaches the database and succeeds. */
  function Saved<S>(l: Lane<S>): Lane<S>
    requires l.done < |l.log|
  {
    Settle(Land(l), GUARD, KEY, true)
  }

  lemma SavedIsQuiet<S>(l: Lane<S>)
    requires HasOneQueued(l)
    ensures IsQuiet(Saved(l)) && Saved(l).tail == l.tail && |Saved(l).log| == |l.log|
    ensures Saved(l).durable == l.durable[KEY := l.log[l.done].snapshot]
    ensures Saved(l).log[l.done].outcome == Succeeded
  {
  }

  lemma PushHasOneQueued<S>(l: Lane<S>, snapshot: S)
    requires IsQuiet(l)
    ensures HasOneQueued(Push(l, TOKEN, None, STORE, snapshot))
    ensures Push(l, TOKEN, None, STORE, snapshot).log[l.done].snapshot == snapshot
    ensures Push(l, TOKEN, None, STORE, snapshot).durable == l.durable
  {
  }

  predicate IsAtHome(s: State) {
    s.settings == KEY && s.g == GUARD && s.pass.token == TOKEN && s.pass.scope == KEY
  }

  function WithPend(s: State, l: Lane<seq<Intent>>): State {
    s.(pend := l)
  }

  function WithSett(s: State, l: Lane<Settled>): State {
    s.(sett := l)
  }

  lemma JournalSaves(s: State)
    requires Reachable(s) && s.settings == KEY && s.g == GUARD && HasOneQueued(s.pend)
    ensures Reachable(WithPend(s, Saved(s.pend)))
  {
    StepReaches(s, JournalLane(LandWrite));
    var s1 := WithPend(s, Land(s.pend));
    assert Step(s, JournalLane(LandWrite)) == s1;
    StepReaches(s1, JournalLane(SettleWrite(true)));
    assert Step(s1, JournalLane(SettleWrite(true))) == WithPend(s, Saved(s.pend));
  }

  lemma JournalLands(s: State)
    requires HasOneQueued(s.pend)
    ensures IsRun(s, [JournalLane(LandWrite)], WithPend(s, Land(s.pend)))
  {
    StepRuns(s, JournalLane(LandWrite), WithPend(s, Land(s.pend)));
  }

  lemma SettledSaves(s: State)
    requires Reachable(s) && s.settings == KEY && s.g == GUARD && HasOneQueued(s.sett)
    ensures Reachable(WithSett(s, Saved(s.sett)))
  {
    StepReaches(s, SettledLane(LandWrite));
    var s1 := WithSett(s, Land(s.sett));
    assert Step(s, SettledLane(LandWrite)) == s1;
    StepReaches(s1, SettledLane(SettleWrite(true)));
    assert Step(s1, SettledLane(SettleWrite(true))) == WithSett(s, Saved(s.sett));
  }

  /** With the store attached, memory is enqueued as it is. */
  lemma JournalEnqueues(s: State)
    requires s.settings == KEY && s.g == GUARD && IsQuiet(s.pend)
    ensures EnqueueJournal(s)
            == Enqueued(WithPend(s, Push(s.pend, TOKEN, None, STORE, Entries(s.journal, KEY))), Some(|s.pend.log| + 1))
  {
  }

  lemma SettledEnqueues(s: State)
    requires s.settings == KEY && s.g == GUARD && IsQuiet(s.sett)
    ensures EnqueueSettled(s)
            == Enqueued(WithSett(s, Push(s.sett, TOKEN, None, STORE, s.mem)).(unsaved := {}), Some(|s.sett.log| + 1))
  {
  }

  // ---------------------------------------------------------------------------
  // Passes
  // ---------------------------------------------------------------------------

  const NO_REMOTE := Remote(map[], map[], {}, map[])

  /** An authorized look at the world, with everything ready. */
  function Sees(remote: Remote, occupied: bool, receipt: bool): Sight {
    Sight(true, true, occupied, receipt, remote, 5, "session", None, None, Mutates(true, map[], map[]), false)
  }

  function InPass(s: State, todo: seq<Intent>, pc: Pc): State {
    s.(pass := Pass(TOKEN, KEY, todo, pc))
  }

  predicate MayOpen(s: State, sight: Sight) {
    s.settings == KEY && s.g == GUARD && IsQuiet(s.pend) && IsQuiet(s.sett) && sight.bound && sight.ready
  }

  lemma PassStarts(s: State, sight: Sight)
    requires MayOpen(s, sight) && s.pass.pc.Idle? && Entries(s.journal, KEY) != []
    ensures ReplayStep(s, sight) == InPass(s, [], OpeningJournal(s.pend.tail))
  {
  }

  lemma JournalFlushes(s: State, sight: Sight)
    requires MayOpen(s, sight)
    ensures ReplayStep(InPass(s, [], OpeningJournal(s.pend.tail)), sight) == InPass(s, [], OpeningSettled(s.sett.tail))
  {
  }

  lemma SettledFlushes(s: State, sight: Sight)
    requires MayOpen(s, sight)
    ensures ReplayStep(InPass(s, [], OpeningSettled(s.sett.tail)), sight)
            == InPass(s, Entries(s.journal, KEY), Looping(false))
  {
  }

  /** With both lanes quiet a pass opens and captures the journal of its scope. */
  lemma PassOpens(s: State, sight: Sight)
    requires Reachable(s) && MayOpen(s, sight) && s.pass.pc.Idle? && Entries(s.journal, KEY) != []
    ensures Reachable(InPass(s, Entries(s.journal, KEY), Looping(false)))
  {
    PassStarts(s, sight);
    SegmentReaches(s, sight, InPass(s, [], OpeningJournal(s.pend.tail)));
    JournalFlushes(s, sight);
    SegmentReaches(InPass(s, [], OpeningJournal(s.pend.tail)), sight, InPass(s, [], OpeningSettled(s.sett.tail)));
    SettledFlushes(s, sight);
    SegmentReaches(InPass(s, [], OpeningSettled(s.sett.tail)), sight, InPass(s, Entries(s.journal, KEY), Looping(false)));
  }

  lemma AllEntries(j: seq<Intent>)
    requires forall e :: e in j ==> e.scope == KEY
    ensures Entries(j, KEY) == j
  {
    FilterKeepsAll(j, (e: Intent) => e.scope == KEY);
  }

  /** Nothing is claimed or awaited, and memory holds these settlements. */
  predicate IsPlain(s: State, mem: Settled) {
    IsAtHome(s) && s.mem == mem && s.claims == {} && s.pending == None
  }

  /** A pass has just captured the journal a device found. */
  ghost predicate HasCaptured(s: State, j: seq<Intent>, n: nat) {
    && Reachable(s) && IsPlain(s, NOTHING_SETTLED) && IsQuiet(s.pend) && IsQuiet(s.sett)
    && s.journal == s.pass.todo == j && s.pass.pc == Looping(false)
    && s.pend.durable == map[KEY := j] && s.sett.durable == map[KEY := NOTHING_SETTLED]
    && s.applied == [] && s.nextId == n && s.nextAttempt == 0 && s.unsaved == {}
  }

  lemma DeviceCaptures(j: seq<Intent>, n: nat)
    requires IsJournal(j, n) && j != []
    ensures exists s :: HasCaptured(s, j, n)
  {
    OpenedReaches(j, n);
    AllEntries(j);
    PassOpens(Opened(j, n), Sees(NO_REMOTE, false, false));
    assert HasCaptured(InPass(Opened(j, n), j, Looping(false)), j, n);
  }

  // ---------------------------------------------------------------------------
  // Retiring
  // ---------------------------------------------------------------------------

  /** The entry left memory, and the journal without it is enqueued. */
  function WithoutEntry(s: State, it: Intent, rest: seq<Intent>): State {
    var j := Remove(s.journal, it.id);
    InPass(s, rest, RemovalWrite(Some(|s.pend.log| + 1)))
      .(journal := j, pend := Push(s.pend, TOKEN, None, STORE, Entries(j, KEY)))
  }

  lemma DroppingPlainly(s: State, it: Intent, d: Disposition, rest: seq<Intent>, changed: bool)
    requires IsPlain(s, s.mem) && s.mem.stages == map[] && (d.AuthorityMoved? ==> SourcePath(it) in s.mem.gate)
    ensures DropEpisode(InPass(s, rest, AtEntry(it, changed)), it, d, RemovalWrite(None))
            == InPass(s, rest, RemovalWrite(None)).(journal := Remove(s.journal, it.id))
    ensures RetireEpisode(s.mem, it, d) == s.mem
  {
    assert RetireEpisode(s.mem, it, d).gate == s.mem.gate;
    assert RetireEpisode(s.mem, it, d).stages == map[];
  }

  /** An attempted entry whose path needs no new gate is about to be retired. */
  predicate MayRetire(s: State, it: Intent, rest: seq<Intent>, changed: bool, sight: Sight) {
    && IsPlain(s, s.mem) && IsQuiet(s.pend) && s.mem.stages == map[]
    && s.pass.pc == Looping(changed) && s.pass.todo == [it] + rest && it.phase.Attempted?
    && !sight.diskOccupied && (SourcePath(it) in sight.remote.refs ==> SourcePath(it) in s.mem.gate)
  }

  /** Retiring it enqueues only the journal. */
  lemma RetiringSegment(s: State, it: Intent, rest: seq<Intent>, changed: bool, sight: Sight)
    requires MayRetire(s, it, rest, changed, sight)
    ensures ReplayStep(s, sight) == WithoutEntry(s, it, rest)
  {
    var taken := InPass(s, rest, AtEntry(it, changed));
    var d := DecideRetirement(it, false, SourcePath(it) in sight.remote.refs);
    var dropped := InPass(s, rest, RemovalWrite(None)).(journal := Remove(s.journal, it.id));
    assert TakeEntry(s) == taken;
    DroppingPlainly(s, it, d, rest, changed);
    JournalEnqueues(dropped);
    assert WriteRemoval(dropped) == WithoutEntry(s, it, rest);
    assert RetireStuck(taken, it, d) == WriteRemoval(dropped);
    assert ReplayStep(s, sight) == RetireStuck(taken, it, d);
  }

  lemma EntryRetires(s: State, it: Intent, rest: seq<Intent>, changed: bool, sight: Sight)
    requires Reachable(s) && MayRetire(s, it, rest, changed, sight)
    ensures Reachable(WithoutEntry(s, it, rest))
  {
    RetiringSegment(s, it, rest, changed, sight);
    SegmentReaches(s, sight, WithoutEntry(s, it, rest));
  }

  function Gated(s: State, path: Path): State {
    var mem := s.mem.(gate := s.mem.gate + {path});
    s.(mem := mem, sett := Push(s.sett, TOKEN, None, STORE, mem), unsaved := {})
  }

  lemma PathIsGated(s: State, path: Path)
    requires Reachable(s) && IsPlain(s, s.mem) && IsQuiet(s.sett)
    ensures Reachable(Gated(s, path))
  {
    var mem := s.mem.(gate := s.mem.gate + {path});
    StepReaches(s, Gate(path, true));
    assert SetMem(s, mem) == s.(mem := mem);
    SettledEnqueues(s.(mem := mem));
    assert Step(s, Gate(path, true)) == Gated(s, path);
  }

  /** An awaited removal write that is done lets the loop go on. */
  lemma RemovalEnds(s: State, sight: Sight)
    requires IsAtHome(s) && s.pass.pc.RemovalWrite? && IsDone(s.pend, s.pass.pc.write) && sight.bound
    ensures ReplayStep(s, sight) == InPass(s, s.pass.todo, Looping(true))
  {
  }

  /** The entry left memory, its path is newly gated, and the gate's own write is awaited. */
  function AtGate(s: State, it: Intent, rest: seq<Intent>): State {
    var mem := s.mem.(gate := s.mem.gate + {SourcePath(it)});
    InPass(s, rest, GateWrite(it, Some(|s.sett.log| + 1), true))
      .(journal := Remove(s.journal, it.id), mem := mem, sett := Push(s.sett, TOKEN, None, STORE, mem), unsaved := {},
        pending := Some((Claim(KEY, DownloadGate(SourcePath(it))), |s.sett.log| + 1)))
  }

  predicate MustRetire(it: Intent, sight: Sight) {
    !sight.diskOccupied && (it.phase.Attempted? || (it.phase.Committed? && !Postcondition(it, sight.remote)))
  }

  lemma RetirementIsBegun(s: State, sight: Sight)
    requires s.pass.pc.AtEntry? && MustRetire(s.pass.pc.it, sight)
    ensures ProcessEntry(s, sight)
            == RetireStuck(s, s.pass.pc.it, DecideRetirement(s.pass.pc.it, false, SourcePath(s.pass.pc.it) in sight.remote.refs))
  {
  }

  lemma GateIsWritten(s: State, it: Intent, rest: seq<Intent>, changed: bool)
    requires IsPlain(s, s.mem) && IsQuiet(s.sett) && s.mem.stages == map[] && SourcePath(it) !in s.mem.gate
    ensures RetireStuck(Taken(s, it, rest, changed), it, AuthorityMoved) == AtGate(s, it, rest)
  {
    var mem := s.mem.(gate := s.mem.gate + {SourcePath(it)});
    assert RetireEpisode(s.mem, it, AuthorityMoved) == mem by {
      assert RetireEpisode(s.mem, it, AuthorityMoved).stages == map[];
    }
    var dropped := InPass(s, rest, GateWrite(it, None, true)).(journal := Remove(s.journal, it.id), mem := mem);
    assert DropEpisode(Taken(s, it, rest, changed), it, AuthorityMoved, GateWrite(it, None, true)) == dropped;
    SettledEnqueues(dropped);
    assert WriteGate(dropped) == AtGate(s, it, rest);
  }

  lemma GateRetires(s: State, it: Intent, rest: seq<Intent>, changed: bool, sight: Sight)
    requires Reachable(s) && IsPlain(s, s.mem) && IsQuiet(s.sett) && s.mem.stages == map[]
    requires s.pass.pc == Looping(changed) && s.pass.todo == [it] + rest && MustRetire(it, sight)
    requires SourcePath(it) in sight.remote.refs && SourcePath(it) !in s.mem.gate
    ensures Reachable(AtGate(s, it, rest))
  {
    calc {
      ReplayStep(s, sight);
    ==  { LoopTakesEntry(s, sight); EntryIsTaken(s, it, rest, changed); }
      ProcessEntry(Taken(s, it, rest, changed), sight);
    ==  { RetirementIsBegun(Taken(s, it, rest, changed), sight); }
      RetireStuck(Taken(s, it, rest, changed), it, AuthorityMoved);
    ==  { GateIsWritten(s, it, rest, changed); }
      AtGate(s, it, rest);
    }
    SegmentReaches(s, sight, AtGate(s, it, rest));
  }

  /** The gate's write fails, and by then the pass has lost its authority: the entry is back in memory only. */
  function GateFailed(s: State): State
    requires s.pass.pc.GateWrite? && s.sett.done < |s.sett.log|
  {
    InPass(s, [], Idle).(sett := Settle(s.sett, GUARD, KEY, false), journal := Restore(s.journal, s.pass.pc.it), pending := None)
  }

  lemma FailedGateReturns(s: State, sight: Sight)
    requires IsAtHome(s) && HasOneQueued(s.sett) && !sight.bound
    requires s.pass.pc.GateWrite? && s.pass.pc.gateAdded && s.pass.pc.write == Some(|s.sett.log|)
    ensures FinishGateWrite(WithSett(s, Settle(s.sett, GUARD, KEY, false)), sight) == GateFailed(s)
  {
  }

  lemma GateWriteFails(s: State)
    requires Reachable(s) && IsAtHome(s) && HasOneQueued(s.sett)
    requires s.pass.pc.GateWrite? && s.pass.pc.gateAdded && s.pass.pc.write == Some(|s.sett.log|)
    ensures Reachable(GateFailed(s))
  {
    SettledFails(s);
    var sight := Sees(NO_REMOTE, false, false).(bound := false);
    FailedGateReturns(s, sight);
    SegmentReaches(WithSett(s, Settle(s.sett, GUARD, KEY, false)), sight, GateFailed(s));
  }

  lemma SettledFails(s: State)
    requires Reachable(s) && IsAtHome(s) && HasOneQueued(s.sett)
    ensures Reachable(WithSett(s, Settle(s.sett, GUARD, KEY, false)))
  {
    StepReaches(s, SettledLane(SettleWrite(false)));
  }

  /** An enqueue needs the attached store, not health. */
  lemma SettledIsEnqueued(s: State)
    requires Reachable(s) && s.settings == KEY && s.g == GUARD && s.sett.store == Some(STORE) && KEY !in s.sett.corrupt
    ensures Reachable(WithSett(s, Push(s.sett, TOKEN, None, STORE, s.mem)).(unsaved := {}))
  {
    StepReaches(s, PersistsSettled);
    assert EnqueueSettled(s).state == WithSett(s, Push(s.sett, TOKEN, None, STORE, s.mem)).(unsaved := {});
  }

  // ---------------------------------------------------------------------------
  // Local events
  // ---------------------------------------------------------------------------

  function EventRecorded(s: State, file: LocalEvent): State {
    WithJournal(s, Recording(s, file)).(pend := Push(s.pend, TOKEN, None, STORE, Entries(Recording(s, file), KEY)))
  }

  lemma RecordingEnqueues(s: State, file: LocalEvent)
    requires s.settings == KEY && s.g == GUARD && IsQuiet(s.pend)
    ensures RecordEvent(s, file, true) == EventRecorded(s, file)
  {
    var recorded := WithJournal(s, Recording(s, file));
    JournalEnqueues(recorded);
    assert PersistJournal(recorded, true) == EventRecorded(s, file);
  }

  lemma EventRuns(s: State, file: LocalEvent)
    requires s.settings == KEY && s.g == GUARD && IsQuiet(s.pend)
    ensures IsRun(s, [Local(file, true)], EventRecorded(s, file))
  {
    RecordingEnqueues(s, file);
    StepRuns(s, Local(file, true), EventRecorded(s, file));
  }

  lemma EventIsRecorded(s: State, file: LocalEvent)
    requires Reachable(s) && s.settings == KEY && s.g == GUARD && IsQuiet(s.pend)
    ensures Reachable(EventRecorded(s, file))
  {
    EventRuns(s, file);
    RunReaches(s, [Local(file, true)], EventRecorded(s, file));
  }

  // ---------------------------------------------------------------------------
  // Attempts
  // ---------------------------------------------------------------------------

  /** The entry is marked, and its write-ahead snapshot is enqueued. */
  function AtWriteAhead(s: State, it: Intent, rest: seq<Intent>, sight: Sight): State {
    var marked := MarkAttempt(s, sight, it).entries;
    InPass(s, rest, Attempting(it, s.nextAttempt, WriteAhead(|s.pend.log| + 1)))
      .(journal := marked, nextAttempt := s.nextAttempt + 1, pend := Push(s.pend, TOKEN, None, STORE, Entries(marked, KEY)))
  }

  predicate MayBegin(s: State, it: Intent, rest: seq<Intent>, changed: bool, sight: Sight) {
    && IsPlain(s, NOTHING_SETTLED) && IsQuiet(s.pend) && IsQuiet(s.sett)
    && s.pass.pc == Looping(changed) && s.pass.todo == [it] + rest && it.phase.Ready?
    && MarkAttempt(s, sight, it).ok && !HasOtherFence(s.journal, KEY, it)
  }

  function Taken(s: State, it: Intent, rest: seq<Intent>, changed: bool): State {
    InPass(s, rest, AtEntry(it, changed))
  }

  lemma EntryIsTaken(s: State, it: Intent, rest: seq<Intent>, changed: bool)
    requires IsAtHome(s) && s.pass.pc == Looping(changed) && s.pass.todo == [it] + rest
    ensures TakeEntry(s) == Taken(s, it, rest, changed)
  {
  }

  /** The part of the segment after the entry is marked. */
  lemma MarkedIsWritten(s: State, it: Intent, rest: seq<Intent>, changed: bool, sight: Sight)
    requires IsAtHome(s) && IsQuiet(s.pend)
    ensures WriteAttempt(WithAttempt(Taken(s, it, rest, changed), sight, it), it, s.nextAttempt)
            == AtWriteAhead(s, it, rest, sight)
  {
    JournalEnqueues(WithAttempt(Taken(s, it, rest, changed), sight, it));
  }

  /** Nothing stands in the way of the entry: it is attempted. */
  lemma ReadyEntryIsAttempted(s: State, sight: Sight)
    requires s.pass.pc.AtEntry? && s.pass.pc.it.phase.Ready? && s.mem.stages == map[]
    requires !HasOtherFence(s.journal, s.pass.scope, s.pass.pc.it)
    ensures ProcessEntry(s, sight) == BeginAttempt(s, sight, s.pass.pc.it)
  {
  }

  lemma LoopTakesEntry(s: State, sight: Sight)
    requires s.pass.pc.Looping? && s.pass.todo != []
    ensures ReplayStep(s, sight) == ProcessEntry(TakeEntry(s), sight)
  {
  }

  lemma AttemptIsMarked(s: State, sight: Sight, it: Intent)
    requires MarkAttempt(s, sight, it).ok
    ensures BeginAttempt(s, sight, it) == WriteAttempt(WithAttempt(s, sight, it), it, s.nextAttempt)
  {
  }

  lemma AttemptSegment(s: State, it: Intent, rest: seq<Intent>, changed: bool, sight: Sight)
    requires MayBegin(s, it, rest, changed, sight)
    ensures ReplayStep(s, sight) == AtWriteAhead(s, it, rest, sight)
  {
    var taken := Taken(s, it, rest, changed);
    calc {
      ReplayStep(s, sight);
    ==  { LoopTakesEntry(s, sight); EntryIsTaken(s, it, rest, changed); }
      ProcessEntry(taken, sight);
    ==  { ReadyEntryIsAttempted(taken, sight); }
      BeginAttempt(taken, sight, it);
    ==  { AttemptIsMarked(taken, sight, it); }
      WriteAttempt(WithAttempt(taken, sight, it), it, s.nextAttempt);
    ==  { MarkedIsWritten(s, it, rest, changed, sight); }
      AtWriteAhead(s, it, rest, sight);
    }
  }

  lemma AttemptBegins(s: State, it: Intent, rest: seq<Intent>, changed: bool, sight: Sight)
    requires Reachable(s) && MayBegin(s, it, rest, changed, sight)
    ensures Reachable(AtWriteAhead(s, it, rest, sight))
  {
    AttemptSegment(s, it, rest, changed, sight);
    SegmentReaches(s, sight, AtWriteAhead(s, it, rest, sight));
  }

  function AttemptAt(s: State, at: AttemptPc): State
    requires s.pass.pc.Attempting?
  {
    Suspend(s, Attempting(s.pass.pc.it, s.pass.pc.attempt, at))
  }

  predicate MayAdvance(s: State, sight: Sight) {
    IsAtHome(s) && IsQuiet(s.pend) && IsQuiet(s.sett) && sight.bound && s.pass.pc.Attempting?
  }

  lemma WriteAheadIsDone(s: State, sight: Sight)
    requires MayAdvance(s, sight) && s.pass.pc.at.WriteAhead? && IsOk(s.pend, Some(s.pass.pc.at.write))
    ensures ReplayStep(s, sight) == AttemptAt(s, FlushingJournal(s.pend.tail))
  {
  }

  lemma AttemptFlushesJournal(s: State, sight: Sight)
    requires MayAdvance(s, sight)
    ensures ReplayStep(AttemptAt(s, FlushingJournal(s.pend.tail)), sight) == AttemptAt(s, FlushingSettled(s.sett.tail))
  {
  }

  lemma AttemptFlushesSettled(s: State, sight: Sight)
    requires MayAdvance(s, sight)
    ensures ReplayStep(AttemptAt(s, FlushingSettled(s.sett.tail)), sight) == AttemptAt(s, AtCas)
  {
  }

  /** With both lanes at rest and the write-ahead acknowledged, the attempt goes through its flushes. */
  lemma AttemptAdvances(s: State, sight: Sight)
    requires Reachable(s) && MayAdvance(s, sight)
    requires s.pass.pc.at.WriteAhead? && IsOk(s.pend, Some(s.pass.pc.at.write))
    ensures Reachable(AttemptAt(s, AtCas))
  {
    WriteAheadIsDone(s, sight);
    SegmentReaches(s, sight, AttemptAt(s, FlushingJournal(s.pend.tail)));
    AttemptFlushesJournal(s, sight);
    SegmentReaches(AttemptAt(s, FlushingJournal(s.pend.tail)), sight, AttemptAt(s, FlushingSettled(s.sett.tail)));
    AttemptFlushesSettled(s, sight);
    SegmentReaches(AttemptAt(s, FlushingSettled(s.sett.tail)), sight, AttemptAt(s, AtCas));
  }

  /** Right before the mutation, with the write-ahead durable. */
  function AtMutation(s: State, it: Intent, rest: seq<Intent>, sight: Sight): State
    requires s.pend.done == |s.pend.log|
  {
    var ahead := AtWriteAhead(s, it, rest, sight);
    InPass(WithPend(ahead, Saved(ahead.pend)), rest, Attempting(it, s.nextAttempt, AtCas))
  }

  lemma AttemptReachesCas(s: State, it: Intent, rest: seq<Intent>, changed: bool, sight: Sight)
    requires Reachable(s) && MayBegin(s, it, rest, changed, sight) && sight.bound
    ensures Reachable(AtMutation(s, it, rest, sight)) && IsQuiet(AtMutation(s, it, rest, sight).pend)
  {
    AttemptBegins(s, it, rest, changed, sight);
    var ahead := AtWriteAhead(s, it, rest, sight);
    PushHasOneQueued(s.pend, Entries(ahead.journal, KEY));
    JournalSaves(ahead);
    SavedIsQuiet(ahead.pend);
    AttemptAdvances(WithPend(ahead, Saved(ahead.pend)), sight);
    assert AttemptAt(WithPend(ahead, Saved(ahead.pend)), AtCas) == AtMutation(s, it, rest, sight);
  }

  /** Right after the mutation: the entry is committed in memory, and both final snapshots are queued. */
  function Mutated(s: State, sight: Sight): State
    requires s.pass.pc.Attempting? && CurrentEntry(s, s.pass.pc.it.id).Some?
  {
    var it, current := s.pass.pc.it, CurrentEntry(s, s.pass.pc.it.id).value;
    var committed := MarkFinal(s, sight).entries;
    Suspend(s, Committing(Some(|s.pend.log| + 1), Some(|s.sett.log| + 1)))
      .(journal := committed, applied := s.applied + [Applied(it.id, KEY, Paths(it), Paths(current))],
        pend := Push(s.pend, TOKEN, None, STORE, Entries(committed, KEY)),
        sett := Push(s.sett, TOKEN, None, STORE, NOTHING_SETTLED), unsaved := {})
  }

  function CommitMarked(s: State, sight: Sight): State
    requires s.pass.pc.Attempting? && CurrentEntry(s, s.pass.pc.it.id).Some? && sight.cas.Mutates?
  {
    AppliedState(s, sight, CurrentEntry(s, s.pass.pc.it.id).value).(journal := MarkFinal(s, sight).entries)
  }

  lemma MarkedIsPersisted(s: State, sight: Sight)
    requires IsPlain(s, NOTHING_SETTLED) && IsQuiet(s.pend) && IsQuiet(s.sett)
    requires s.pass.pc.Attempting? && CurrentEntry(s, s.pass.pc.it.id).Some? && sight.cas == Mutates(true, map[], map[])
    ensures WriteCommit(CommitMarked(s, sight)) == Mutated(s, sight)
  {
    JournalEnqueues(CommitMarked(s, sight));
    SettledEnqueues(EnqueueJournal(CommitMarked(s, sight)).state);
    assert CommitMarked(s, sight).mem == NOTHING_SETTLED;
  }

  lemma CasIsCommit(s: State, sight: Sight)
    requires s.pass.pc.Attempting? && s.pass.pc.at.AtCas? && IsAttemptCurrent(s, sight) && sight.cas.Mutates?
    ensures ReplayStep(s, sight) == CasCommits(s, sight, CurrentEntry(s, s.pass.pc.it.id).value)
  {
    assert Cas(s, sight) == CasCommits(s, sight, CurrentEntry(s, s.pass.pc.it.id).value);
  }

  lemma CommitIsWritten(s: State, sight: Sight)
    requires s.pass.pc.Attempting? && CurrentEntry(s, s.pass.pc.it.id).Some? && sight.cas.Mutates? && sight.cas.boundAfter
    requires MarkFinal(s, sight).ok
    ensures CasCommits(s, sight, CurrentEntry(s, s.pass.pc.it.id).value) == WriteCommit(CommitMarked(s, sight))
  {
  }

  lemma MutationSegment(s: State, sight: Sight)
    requires IsPlain(s, NOTHING_SETTLED) && IsQuiet(s.pend) && IsQuiet(s.sett)
    requires s.pass.pc.Attempting? && s.pass.pc.at.AtCas? && IsAttemptCurrent(s, sight)
    requires sight.cas == Mutates(true, map[], map[]) && MarkFinal(s, sight).ok
    ensures ReplayStep(s, sight) == Mutated(s, sight)
  {
    calc {
      ReplayStep(s, sight);
    ==  { CasIsCommit(s, sight); }
      CasCommits(s, sight, CurrentEntry(s, s.pass.pc.it.id).value);
    ==  { CommitIsWritten(s, sight); }
      WriteCommit(CommitMarked(s, sight));
    ==  { MarkedIsPersisted(s, sight); }
      Mutated(s, sight);
    }
  }

  lemma MutationReaches(s: State, sight: Sight)
    requires Reachable(s) && IsPlain(s, NOTHING_SETTLED) && IsQuiet(s.pend) && IsQuiet(s.sett)
    requires s.pass.pc.Attempting? && s.pass.pc.at.AtCas? && IsAttemptCurrent(s, sight)
    requires sight.cas == Mutates(true, map[], map[]) && MarkFinal(s, sight).ok
    ensures Reachable(Mutated(s, sight))
  {
    MutationSegment(s, sight);
    SegmentReaches(s, sight, Mutated(s, sight));
  }

  /** Acknowledged final writes let the loop go on. */
  lemma CommitEnds(s: State, sight: Sight)
    requires Reachable(s) && IsAtHome(s) && s.pass.pc.Committing? && sight.bound
    requires IsOk(s.pend, s.pass.pc.journalWrite) && IsOk(s.sett, s.pass.pc.settledWrite)
    ensures Reachable(InPass(s, s.pass.todo, Looping(false)))
  {
    CommitReturns(s, sight);
    SegmentReaches(s, sight, InPass(s, s.pass.todo, Looping(false)));
  }

  lemma CommitReturns(s: State, sight: Sight)
    requires IsAtHome(s) && s.pass.pc.Committing? && sight.bound
    requires IsOk(s.pend, s.pass.pc.journalWrite) && IsOk(s.sett, s.pass.pc.settledWrite)
    ensures FinishCommit(s, sight) == InPass(s, s.pass.todo, Looping(false))
  {
  }

  // ---------------------------------------------------------------------------
  // Confirmed removals
  // ---------------------------------------------------------------------------

  /** The entry is being prepared for removal; memory already has what the preparation staged. */
  function AtPreparation(s: State, it: Intent, rest: seq<Intent>, changed: bool, mem: Settled, unsaved: set<Path>,
                         prep: Preparing): State {
    InPass(s, rest, PreparingRemoval(it, changed, prep)).(mem := mem, unsaved := unsaved)
  }

  predicate MayPrepare(s: State, it: Intent, rest: seq<Intent>, changed: bool, sight: Sight) {
    && IsPlain(s, s.mem) && s.pass.pc == Looping(changed) && s.pass.todo == [it] + rest && it.phase.Committed?
    && !sight.diskOccupied && sight.receipt && Postcondition(it, sight.remote)
  }

  lemma RemovalIsBegun(s: State, sight: Sight)
    requires s.pass.pc.AtEntry? && s.pass.pc.it.phase.Committed? && !sight.diskOccupied && sight.receipt
    requires Postcondition(s.pass.pc.it, sight.remote)
    ensures ProcessEntry(s, sight) == BeginRemoval(s, sight, s.pass.pc.changed, s.pass.pc.it)
  {
  }

  /** A refused preparation that stages its source leaves the stage in memory, without a write. */
  lemma PreparationRefuses(s: State, it: Intent, rest: seq<Intent>, changed: bool, sight: Sight, mem: Settled)
    requires MayPrepare(s, it, rest, changed, sight) && Prepare(s.mem, it, sight.remote, sight.now) == Refuse(mem)
    requires SourcePath(it) !in s.mem.stages && SourcePath(it) in mem.stages
    ensures ReplayStep(s, sight)
            == AtPreparation(s, it, rest, changed, mem, s.unsaved + {SourcePath(it)}, Refusing)
  {
    var taken := Taken(s, it, rest, changed);
    calc {
      ReplayStep(s, sight);
    ==  { LoopTakesEntry(s, sight); EntryIsTaken(s, it, rest, changed); }
      ProcessEntry(taken, sight);
    ==  { RemovalIsBegun(taken, sight); }
      BeginRemoval(taken, sight, changed, it);
    ==
      AtPreparation(s, it, rest, changed, mem, s.unsaved + {SourcePath(it)}, Refusing);
    }
  }

  /** A preparation that finds everything in place asks for no write. */
  lemma PreparationKeepsMemory(s: State, it: Intent, rest: seq<Intent>, changed: bool, sight: Sight)
    requires MayPrepare(s, it, rest, changed, sight) && Prepare(s.mem, it, sight.remote, sight.now) == Keep(s.mem)
    ensures ReplayStep(s, sight) == AtPreparation(s, it, rest, changed, s.mem, s.unsaved, Unwritten)
  {
    var taken := Taken(s, it, rest, changed);
    calc {
      ReplayStep(s, sight);
    ==  { LoopTakesEntry(s, sight); EntryIsTaken(s, it, rest, changed); }
      ProcessEntry(taken, sight);
    ==  { RemovalIsBegun(taken, sight); }
      BeginRemoval(taken, sight, changed, it);
    ==
      AtPreparation(s, it, rest, changed, s.mem, s.unsaved, Unwritten);
    }
  }

  /** A refused entry whose path is occupied by then stays quarantined, and the pass ends. */
  lemma RefusalEnds(s: State, sight: Sight)
    requires Reachable(s) && IsAtHome(s) && s.pass.todo == [] && s.pass.pc.PreparingRemoval? && s.pass.pc.prep.Refusing?
    requires !s.pass.pc.changed && !s.pass.pc.it.phase.Attempted? && sight.diskOccupied
    ensures Reachable(InPass(s, [], Idle))
  {
    var it := s.pass.pc.it;
    RefusalReturns(s, sight);
    RefusedIsKept(s, it, sight);
    SegmentReaches(InPass(s, [], PreparedRemoval(it, false, false)), sight, InPass(s, [], Looping(false)));
    UnchangedPassEnds(InPass(s, [], Looping(false)), sight);
  }

  lemma RefusalReturns(s: State, sight: Sight)
    requires Reachable(s) && IsAtHome(s) && s.pass.todo == [] && s.pass.pc.PreparingRemoval? && s.pass.pc.prep.Refusing?
    requires !s.pass.pc.changed
    ensures Reachable(InPass(s, [], PreparedRemoval(s.pass.pc.it, false, false)))
  {
    SegmentReaches(s, sight, InPass(s, [], PreparedRemoval(s.pass.pc.it, false, false)));
  }

  lemma UnchangedPassEnds(s: State, sight: Sight)
    requires Reachable(s) && IsAtHome(s) && s.pass.pc == Looping(false) && s.pass.todo == []
    ensures Reachable(InPass(s, [], Idle))
  {
    SegmentReaches(s, sight, InPass(s, [], Idle));
  }

  lemma RefusedIsKept(s: State, it: Intent, sight: Sight)
    requires !it.phase.Attempted? && sight.diskOccupied
    ensures FinishRemoval(InPass(s, [], PreparedRemoval(it, false, false)), sight) == InPass(s, [], Looping(false))
  {
  }

  function EntryRemoved(s: State, it: Intent): State {
    var j := Remove(s.journal, it.id);
    InPass(s, [], LastWrite(Some(|s.pend.log| + 1))).(journal := j, pend := Push(s.pend, TOKEN, None, STORE, Entries(j, KEY)))
  }

  lemma PreparationEnds(s: State, sight: Sight)
    requires s.pass.pc.PreparingRemoval? && s.pass.pc.prep.Unwritten? && Prepared(s.mem, s.pass.pc.it, sight.remote)
    ensures ReplayStep(s, sight) == Suspend(s, PreparedRemoval(s.pass.pc.it, s.pass.pc.changed, true))
  {
  }

  lemma RemovalIsUncovered(s: State, sight: Sight)
    requires s.pass.pc.PreparedRemoval? && s.pass.pc.ok && SourcePath(s.pass.pc.it) in s.unsaved && HasId(s.journal, s.pass.pc.it.id)
    ensures ReplayStep(s, sight) == Suspend(s, Looping(true)).(journal := Remove(s.journal, s.pass.pc.it.id))
  {
  }

  lemma LoopEndsWriting(s: State, sight: Sight)
    requires IsAtHome(s) && IsQuiet(s.pend) && s.pass.pc == Looping(true) && s.pass.todo == []
    ensures ReplayStep(s, sight)
            == InPass(s, [], LastWrite(Some(|s.pend.log| + 1))).(pend := Push(s.pend, TOKEN, None, STORE, Entries(s.journal, KEY)))
  {
    JournalEnqueues(s);
    assert ReplayStep(s, sight) == EndLoop(s);
  }

  /** A removal whose fence is in memory only goes through all the same. */
  lemma UnsavedRemovalRuns(s: State, sight: Sight)
    requires IsAtHome(s) && IsQuiet(s.pend) && s.pass.todo == []
    requires s.pass.pc.PreparingRemoval? && s.pass.pc.prep.Unwritten? && Prepared(s.mem, s.pass.pc.it, sight.remote)
    requires SourcePath(s.pass.pc.it) in s.unsaved && HasId(s.journal, s.pass.pc.it.id)
    ensures IsRun(s, [Replays(sight), Replays(sight), Replays(sight)], EntryRemoved(s, s.pass.pc.it))
  {
    var it := s.pass.pc.it;
    var prepared := Suspend(s, PreparedRemoval(it, s.pass.pc.changed, true));
    var removed := Suspend(prepared, Looping(true)).(journal := Remove(s.journal, it.id));
    PreparationEnds(s, sight);
    RemovalIsUncovered(prepared, sight);
    LoopEndsWriting(removed, sight);
    ThreeSegmentsRun(s, sight, prepared, removed, EntryRemoved(s, it));
  }

  lemma ThreeSegmentsRun(s: State, sight: Sight, t: State, u: State, v: State)
    requires ReplayStep(s, sight) == t && ReplayStep(t, sight) == u && ReplayStep(u, sight) == v
    ensures IsRun(s, [Replays(sight), Replays(sight), Replays(sight)], v)
  {
    SegmentRuns(u, sight, v);
    RunStarts(t, [Replays(sight), Replays(sight)], Replays(sight), [Replays(sight)], u, v);
    RunStarts(s, [Replays(sight), Replays(sight), Replays(sight)], Replays(sight), [Replays(sight), Replays(sight)], t, v);
  }

  /** A preparation that stages its source awaits the write. */
  lemma PreparationWrites(s: State, it: Intent, rest: seq<Intent>, changed: bool, sight: Sight)
    requires MayPrepare(s, it, rest, changed, sight) && Prepare(s.mem, it, sight.remote, sight.now).Write?
    ensures var t := ReplayStep(s, sight);
            t.pass.pc.PreparingRemoval? && t.pass.pc.it == it && t.pend == s.pend
  {
    var taken := Taken(s, it, rest, changed);
    LoopTakesEntry(s, sight);
    EntryIsTaken(s, it, rest, changed);
    RemovalIsBegun(taken, sight);
    var p := Prepare(s.mem, it, sight.remote, sight.now);
    var staged := TakeUp(taken, it, p, PreparingRemoval(it, changed, Unwritten));
    assert BeginRemoval(taken, sight, changed, it) == WritePreparation(staged);
    assert DoActivate(staged) == staged;
  }
}
