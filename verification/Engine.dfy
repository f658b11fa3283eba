/**
 * The attachment mutation engine as a step machine (src/main.ts:899-3288).
 *
 * A step runs the code between two suspension points of one activity. The
 * activities are the settings (which may name another scope at any moment), the
 * two persistence lanes with their ensure routines, local file events,
 * settlement callbacks and the single replay chain. A crash may happen between
 * any two steps. What the disk, the shared document and the server say is an
 * input of the step that looks.
 */
module Engine {
  import opened Wrappers
  import opened Authority
  import opened Lanes
  import opened BlobRefs
  import opened Journal
  import opened Settlements

  /** What one replay segment observes of the world outside the engine. */
  datatype Sight = Sight(
    bound: bool,          // the provider runtime is the one bound to the current authority
    ready: bool,          // attachment sync is on, the provider is synced and both replicas are ready
    diskOccupied: bool,   // some file occupies the intent's source path
    receipt: bool,        // the server confirmed a receipt covering the commit
    remote: Remote,
    now: nat, session: string, receiptId: Option<string>, fingerprint: Option<string>,
    cas: CasResult,
    occupantStays: bool)  // the file that made a stale intent stale is still there

  /** How `apply()` ends. A throw may leave the mutation behind. */
  datatype CasResult =
    | Throws(mutated: bool)
    | NoMutation(stale: bool)
    | Mutates(boundAfter: bool, refs: map<Path, BlobRef>, versions: map<Path, string>)

  /** A write promise a continuation waits for; `None` is one that was rejected outright. */
  type Awaited = Option<nat>

  datatype AttemptPc =
    | WriteAhead(write: nat)
    | FlushingJournal(tail: nat)
    | FlushingSettled(tail: nat)
    | AtCas

  datatype Preparing = Waiting(write: Awaited) | Unwritten | Refusing

  /** Where the replay chain is suspended; `it` is the captured entry it works on. */
  datatype Pc =
    | Idle
    | OpeningJournal(tail: nat)
    | OpeningSettled(tail: nat)
    | Looping(changed: bool)
    | AtEntry(it: Intent, changed: bool)
    | PreparingRemoval(it: Intent, changed: bool, prep: Preparing)
    | PreparedRemoval(it: Intent, changed: bool, ok: bool)
    | GateWrite(it: Intent, write: Awaited, gateAdded: bool)
    | RemovalWrite(write: Awaited)
    | Attempting(it: Intent, attempt: nat, at: AttemptPc)
    | Clearing(it: Intent, journalWrite: Awaited, settledWrite: Awaited, stale: bool)
    | StaleRemoval(it: Intent, write: Awaited)
    | Committing(journalWrite: Awaited, settledWrite: Awaited)
    | LastWrite(write: Awaited)

  /**
   * One pass of the replay chain: the authority it started under and the entries
   * it captured then and has not reached yet.
   */
  datatype Pass = Pass(token: Token, scope: Scope, todo: seq<Intent>, pc: Pc)

  const IDLE_PASS := Pass(Token(None, 0), Scope("", "", ""), [], Idle)

  /** History: one mutation that took effect, with the paths its code looked at and those its entry named. */
  datatype Applied = Applied(id: nat, scope: Scope, claimed: set<Path>, journaled: set<Path>)

  /** History: something the settled record of a scope must keep until it is explicitly released. */
  datatype Protection = RetireFence(path: Path, ref: Option<BlobRef>, version: Option<string>) | DownloadGate(path: Path)

  datatype Claim = Claim(scope: Scope, what: Protection)

  datatype State = State(
    settings: Scope, g: Guard,
    pend: Lane<seq<Intent>>, sett: Lane<Settled>,
    journal: seq<Intent>, mem: Settled,
    pass: Pass,
    nextId: nat, nextAttempt: nat,
    /* History */
    applied: seq<Applied>,
    unsaved: set<Path>,              // paths staged in memory by a refused preparation, after the last snapshot
    pending: Option<(Claim, nat)>,   // a protection whose settled write is being awaited
    claims: set<Claim>)              // protections whose settled write was confirmed

  // ---------------------------------------------------------------------------
  // Scope activation and enqueueing
  // ---------------------------------------------------------------------------

  /** `activateBlobAuthorityScope` with the current settings. */
  function DoActivate(s: State): (r: State)
    ensures r.applied == s.applied && r.pass == s.pass && r.journal == s.journal && r.claims == s.claims
    ensures r.sett.durable == s.sett.durable && (r.mem == s.mem || r.mem == NOTHING_SETTLED)
  {
    if !ActivationChanges(s.g, s.settings) then s
    else s.(g := Activate(s.g, s.settings), pend := Detach(s.pend), sett := Detach(s.sett),
            mem := NOTHING_SETTLED, unsaved := {})
  }

  datatype Enqueued = Enqueued(state: State, write: Awaited)

  /** `enqueuePendingBlobIntentPersistence`: the snapshot is taken at once. */
  function EnqueueJournal(s0: State): (r: Enqueued)
    ensures r.state.applied == s0.applied && r.state.pass == s0.pass && r.state.journal == s0.journal
    ensures r.state.claims == s0.claims && r.state.mem == DoActivate(s0).mem && r.state.sett == DoActivate(s0).sett
  {
    var s := DoActivate(s0);
    if !IsComplete(s.settings) || s.settings in s.pend.corrupt || s.pend.store.None?
       || s.pend.store.value.key != s.settings
    then Enqueued(s.(pend := s.pend.(healthy := false)), None)
    else
      var store := s.pend.store.value;
      var snapshot := Entries(s.journal, s.settings);
      Enqueued(s.(pend := Push(s.pend, Capture(s.g), None, store, snapshot)), Some(|s.pend.log| + 1))
  }

  /** `enqueueBlobSettledRefPersistence`. */
  function EnqueueSettled(s0: State): (r: Enqueued)
    ensures r.state.applied == s0.applied && r.state.pass == s0.pass && r.state.journal == s0.journal
    ensures r.state.claims == s0.claims && r.state.mem == DoActivate(s0).mem && r.state.pend == DoActivate(s0).pend
  {
    var s := DoActivate(s0);
    if !IsComplete(s.settings) || s.settings in s.sett.corrupt || s.sett.store.None?
       || s.sett.store.value.key != s.settings
    then Enqueued(s.(sett := s.sett.(healthy := false)), None)
    else
      Enqueued(s.(sett := Push(s.sett, Capture(s.g), None, s.sett.store.value, s.mem), unsaved := {}),
               Some(|s.sett.log| + 1))
  }

  // ---------------------------------------------------------------------------
  // Awaiting
  // ---------------------------------------------------------------------------

  predicate IsDone<S>(l: Lane<S>, w: Awaited) {
    w.Some? ==> HasSettled(l, w.value)
  }

  predicate IsOk<S>(l: Lane<S>, w: Awaited) {
    w.Some? && 0 < w.value <= l.done <= |l.log| && l.log[w.value - 1].outcome == Succeeded
  }

  /** One turn of `flush*Persistence` after the awaited tail settled: nothing while the tail moved on. */
  function FlushTurn<S>(l: Lane<S>, tail: nat): Option<bool> {
    if tail != l.tail then None else Some(!WasRejected(l, tail) && l.healthy)
  }

  /** `isCurrentBlobReplayAuthority`. */
  predicate HasAuthority(s: State, sight: Sight) {
    IsCurrent(s.g, s.pass.token, s.settings) && sight.bound
  }

  // ---------------------------------------------------------------------------
  // Fences looked up by the replay
  // ---------------------------------------------------------------------------

  predicate HasSettlementStage(m: Settled, it: Intent) {
    Paths(it) * m.stages.Keys != {}
  }

  predicate HasOtherFence(j: seq<Intent>, scope: Scope, it: Intent) {
    exists c :: c in j && c.scope == scope && c.id != it.id && !c.phase.Ready? && Overlap(it, c)
  }

  predicate HasOtherOverlap(j: seq<Intent>, scope: Scope, it: Intent) {
    exists c :: c in j && c.scope == scope && c.id != it.id && Overlap(it, c)
  }

  // ---------------------------------------------------------------------------
  // Protections
  // ---------------------------------------------------------------------------

  /** What a reload of `m` would keep from download: the gate and every establishing stage. */
  predicate IsGated(m: Settled, path: Path) {
    || path in m.gate
    || (path in m.stages && !m.stages[path].kind.Retire? && !m.stages[path].kind.ManualDownloadConflict?)
  }

  predicate Protects(m: Settled, what: Protection) {
    match what
    case RetireFence(path, ref, version) =>
      path in m.stages && m.stages[path].kind.Retire?
      && SameBlobRef(m.stages[path].ref, ref) && m.stages[path].sourceVersion == version
    case DownloadGate(path) => IsGated(m, path)
  }

  function FenceOf(it: Intent): Protection {
    RetireFence(SourcePath(it), CloneBlobRef(it.expectedSourceRef), it.expectedSourceVersion)
  }

  /** Memory of the active scope stops providing a protection it provided. */
  predicate GivesUp(s: State, mem: Settled, c: Claim) {
    Some(c.scope) == s.g.identity && Protects(s.mem, c.what) && !Protects(mem, c.what)
  }

  function KeptClaims(s: State, mem: Settled): set<Claim> {
    set c | c in s.claims && !GivesUp(s, mem, c)
  }

  /** A change of the settlement memory gives up the protections it no longer provides. */
  function SetMem(s: State, mem: Settled): State {
    s.(mem := mem,
       claims := KeptClaims(s, mem),
       pending := if s.pending.Some? && GivesUp(s, mem, s.pending.value.0) then None else s.pending)
  }

  // ---------------------------------------------------------------------------
  // Replay segments
  // ---------------------------------------------------------------------------

  function Suspend(s: State, pc: Pc): State {
    s.(pass := s.pass.(pc := pc))
  }

  function Stop(s: State): State {
    s.(pass := s.pass.(todo := [], pc := Idle))
  }

  function StartPass(s0: State, sight: Sight): (r: State)
    requires s0.pass.pc.Idle?
    ensures r.applied == s0.applied
  {
    if !sight.ready then s0
    else
      var s := DoActivate(s0);
      if !IsComplete(s.settings) || !s.sett.healthy || Entries(s.journal, s.settings) == [] then s
      else s.(pass := Pass(Capture(s.g), s.settings, [], OpeningJournal(s.pend.tail)))
  }

  function OpenJournal(s: State, sight: Sight): (r: State)
    requires s.pass.pc.OpeningJournal?
    ensures r.applied == s.applied
  {
    var tail := s.pass.pc.tail;
    if !HasSettled(s.pend, tail) then s
    else match FlushTurn(s.pend, tail)
      case None => Suspend(s, OpeningJournal(s.pend.tail))
      case Some(ok) =>
        if ok && HasAuthority(s, sight) then Suspend(s, OpeningSettled(s.sett.tail)) else Stop(s)
  }

  function OpenSettled(s: State, sight: Sight): (r: State)
    requires s.pass.pc.OpeningSettled?
    ensures r.applied == s.applied
  {
    var tail := s.pass.pc.tail;
    if !HasSettled(s.sett, tail) then s
    else match FlushTurn(s.sett, tail)
      case None => Suspend(s, OpeningSettled(s.sett.tail))
      case Some(ok) =>
        if ok && HasAuthority(s, sight) && sight.ready && s.sett.healthy
        then s.(pass := s.pass.(todo := Entries(s.journal, s.pass.scope), pc := Looping(false)))
        else Stop(s)
  }

  /** The rest of the pass after one entry, unless its authority moved. */
  function NextEntry(s: State, sight: Sight, changed: bool): (r: State)
    ensures r.applied == s.applied
  {
    if HasAuthority(s, sight) then Suspend(s, Looping(changed)) else Stop(s)
  }

  function WriteRemoval(s: State): (r: State)
    ensures r.applied == s.applied
  {
    var e := EnqueueJournal(Suspend(s, RemovalWrite(None)));
    Suspend(e.state, RemovalWrite(e.write))
  }

  /** The entry and the stages of its own removal leave memory; a moved authority gates its path. */
  function DropEpisode(s: State, it: Intent, d: Disposition, pc: Pc): State {
    SetMem(Suspend(s, pc), RetireEpisode(s.mem, it, d))
      .(journal := Remove(s.journal, it.id), pending := None)
  }

  /** The settled-ref write that must be durable before the journal's. */
  function WriteGate(s: State): (r: State)
    requires s.pass.pc.GateWrite?
    ensures r.applied == s.applied
  {
    var pc := s.pass.pc;
    var e := EnqueueSettled(s);
    Suspend(e.state, GateWrite(pc.it, e.write, pc.gateAdded))
      .(pending := if pc.gateAdded && e.write.Some?
                   then Some((Claim(s.settings, DownloadGate(SourcePath(pc.it))), e.write.value)) else None)
  }

  /** `retireStuckBlobEpisode` up to its first await. */
  function RetireStuck(s: State, it: Intent, d: Disposition): (r: State)
    ensures r.applied == s.applied
  {
    var gateAdded := d.AuthorityMoved? && SourcePath(it) !in s.mem.gate;
    if RetireEpisode(s.mem, it, d).stages == s.mem.stages && !gateAdded
    then WriteRemoval(DropEpisode(s, it, d, RemovalWrite(None)))
    else WriteGate(DropEpisode(s, it, d, GateWrite(it, None, gateAdded)))
  }

  /** `retireOrQuarantinePendingBlobIntent` up to its first await. */
  function RetireOrQuarantine(s: State, sight: Sight, changed: bool, it: Intent): (r: State)
    ensures r.applied == s.applied
  {
    var d := DecideRetirement(it, sight.diskOccupied, SourcePath(it) in sight.remote.refs);
    if d.Retain? then Suspend(s, Looping(changed)) else RetireStuck(s, it, d)
  }

  function ConfirmPending(s: State): State {
    if s.pending.Some? then s.(claims := s.claims + {s.pending.value.0}, pending := None) else s
  }

  /** The gate write settled: only now may the journal drop the entry. */
  function FinishGateWrite(s: State, sight: Sight): (r: State)
    requires s.pass.pc.GateWrite?
    ensures r.applied == s.applied
  {
    var pc := s.pass.pc;
    if !IsDone(s.sett, pc.write) then s
    else if IsOk(s.sett, pc.write) then WriteRemoval(ConfirmPending(s))
    else if pc.gateAdded then NextEntry(s.(journal := Restore(s.journal, pc.it), pending := None), sight, true)
    else WriteRemoval(s.(pending := None))
  }

  function FinishRemovalWrite(s: State, sight: Sight): State
    requires s.pass.pc.RemovalWrite?
  {
    if !IsDone(s.pend, s.pass.pc.write) then s else NextEntry(s, sight, true)
  }

  /** What a preparation does to memory before any write. */
  function TakeUp(s: State, it: Intent, p: Preparation, pc: Pc): State {
    SetMem(Suspend(s, pc), p.state)
      .(pending := None,
        unsaved := if p.Refuse? && SourcePath(it) !in s.mem.stages && SourcePath(it) in p.state.stages
                   then s.unsaved + {SourcePath(it)} else s.unsaved)
  }

  function WritePreparation(s: State): (r: State)
    requires s.pass.pc.PreparingRemoval?
    ensures r.applied == s.applied
  {
    var pc := s.pass.pc;
    var e := EnqueueSettled(s);
    Suspend(e.state, PreparingRemoval(pc.it, pc.changed, Waiting(e.write)))
      .(pending := if e.write.Some? then Some((Claim(s.settings, FenceOf(pc.it)), e.write.value)) else None)
  }

  /** `prepareCommittedBlobIntentForRemoval` up to its await. */
  function BeginRemoval(s: State, sight: Sight, changed: bool, it: Intent): (r: State)
    ensures r.applied == s.applied
  {
    var p := Prepare(s.mem, it, sight.remote, sight.now);
    match p
    case Refuse(_) => TakeUp(s, it, p, PreparingRemoval(it, changed, Refusing))
    case Keep(_) => TakeUp(s, it, p, PreparingRemoval(it, changed, Unwritten))
    case Write(_) => WritePreparation(TakeUp(s, it, p, PreparingRemoval(it, changed, Unwritten)))
  }

  /** The preparation returns, or its failed write ends the pass. */
  function FinishPreparation(s: State, sight: Sight): (r: State)
    requires s.pass.pc.PreparingRemoval?
    ensures r.applied == s.applied
  {
    var pc := s.pass.pc;
    match pc.prep
    case Refusing => Suspend(s, PreparedRemoval(pc.it, pc.changed, false))
    case Unwritten => Suspend(s, PreparedRemoval(pc.it, pc.changed, Prepared(s.mem, pc.it, sight.remote)))
    case Waiting(w) =>
      if !IsDone(s.sett, w) then s
      else if !IsOk(s.sett, w) then Stop(s.(pending := None))
      else Suspend(ConfirmPending(s), PreparedRemoval(pc.it, pc.changed, Prepared(s.mem, pc.it, sight.remote)))
  }

  /** The retire stage of the entry is known to be in the settled record without a write of its own. */
  predicate FenceIsSaved(s: State, it: Intent) {
    && s.sett.healthy
    && Some(s.pass.scope) == s.g.identity
    && SourcePath(it) !in s.unsaved
    && Protects(s.mem, FenceOf(it))
  }

  /** A prepared entry leaves the journal; the write that makes it so comes with the rest of the pass. */
  function FinishRemoval(s: State, sight: Sight): (r: State)
    requires s.pass.pc.PreparedRemoval?
    ensures r.applied == s.applied
  {
    var pc := s.pass.pc;
    if !pc.ok then RetireOrQuarantine(s, sight, pc.changed, pc.it)
    else
      Suspend(s, Looping(pc.changed || HasId(s.journal, pc.it.id)))
        .(journal := Remove(s.journal, pc.it.id),
          claims := if FenceIsSaved(s, pc.it) then s.claims + {Claim(s.pass.scope, FenceOf(pc.it))} else s.claims)
  }

  /** The write-ahead of a freshly marked entry. */
  function WriteAttempt(s: State, it: Intent, attempt: nat): (r: State)
    ensures r.applied == s.applied
  {
    var e := EnqueueJournal(s);
    if e.write.None? then Stop(e.state)
    else Suspend(e.state, Attempting(it, attempt, WriteAhead(e.write.value)))
  }

  function MarkAttempt(s: State, sight: Sight, it: Intent): Marked {
    MarkCommitAttempted(s.journal, it.id, s.nextAttempt, sight.now, sight.session)
  }

  function WithAttempt(s: State, sight: Sight, it: Intent): State {
    s.(journal := MarkAttempt(s, sight, it).entries, nextAttempt := s.nextAttempt + 1)
  }

  /** `commitReadyPendingBlobIntent` up to the await of its write-ahead. */
  function BeginAttempt(s: State, sight: Sight, it: Intent): (r: State)
    ensures r.applied == s.applied
  {
    if !MarkAttempt(s, sight, it).ok then Stop(s)
    else WriteAttempt(WithAttempt(s, sight, it), it, s.nextAttempt)
  }

  /** One entry of the replay loop, up to its first await. */
  function ProcessEntry(s: State, sight: Sight): (r: State)
    requires s.pass.pc.AtEntry?
    ensures r.applied == s.applied
  {
    var it, changed := s.pass.pc.it, s.pass.pc.changed;
    if || it.phase.Attempted?
       || (it.phase.Ready? && HasSettlementStage(s.mem, it))
       || (it.phase.Ready? && HasOtherFence(s.journal, s.pass.scope, it))
       || (it.phase.Committed? && sight.diskOccupied)
    then RetireOrQuarantine(s, sight, changed, it)
    else if it.phase.Committed? && sight.receipt && Postcondition(it, sight.remote)
    then BeginRemoval(s, sight, changed, it)
    else if it.phase.Committed? then
      if Postcondition(it, sight.remote) then Suspend(s, Looping(changed))
      else RetireOrQuarantine(s, sight, changed, it)
    else BeginAttempt(s, sight, it)
  }

  function TakeEntry(s: State): State
    requires s.pass.pc.Looping? && s.pass.todo != []
  {
    s.(pass := s.pass.(todo := s.pass.todo[1..], pc := AtEntry(s.pass.todo[0], s.pass.pc.changed)))
  }

  /** After the loop: earlier removals still have to be written. */
  function EndLoop(s: State): (r: State)
    requires s.pass.pc.Looping?
    ensures r.applied == s.applied
  {
    if !s.pass.pc.changed then Stop(s)
    else
      var e := EnqueueJournal(s);
      Suspend(e.state, LastWrite(e.write))
  }

  /** `persistAttempted`, one await at a time. */
  function AdvanceAttempt(s: State, sight: Sight): (r: State)
    requires s.pass.pc.Attempting? && !s.pass.pc.at.AtCas?
    ensures r.applied == s.applied
  {
    var pc := s.pass.pc;
    match pc.at
    case WriteAhead(w) =>
      if !HasSettled(s.pend, w) then s
      else if IsOk(s.pend, Some(w)) && HasAuthority(s, sight)
      then Suspend(s, Attempting(pc.it, pc.attempt, FlushingJournal(s.pend.tail)))
      else Stop(s)
    case FlushingJournal(tail) =>
      if !HasSettled(s.pend, tail) then s
      else (match FlushTurn(s.pend, tail)
        case None => Suspend(s, Attempting(pc.it, pc.attempt, FlushingJournal(s.pend.tail)))
        case Some(ok) =>
          if ok && HasAuthority(s, sight)
          then Suspend(s, Attempting(pc.it, pc.attempt, FlushingSettled(s.sett.tail))) else Stop(s))
    case FlushingSettled(tail) =>
      if !HasSettled(s.sett, tail) then s
      else (match FlushTurn(s.sett, tail)
        case None => Suspend(s, Attempting(pc.it, pc.attempt, FlushingSettled(s.sett.tail)))
        case Some(ok) =>
          if ok && HasAuthority(s, sight) then Suspend(s, Attempting(pc.it, pc.attempt, AtCas)) else Stop(s))
  }

  function CurrentEntry(s: State, id: nat): Option<Intent> {
    EntryById(Entries(s.journal, s.pass.scope), id)
  }

  /** `isAttemptCurrent`: checked in the same segment as the mutation. */
  predicate IsAttemptCurrent(s: State, sight: Sight)
    requires s.pass.pc.Attempting?
  {
    var it := s.pass.pc.it;
    var current := CurrentEntry(s, it.id);
    && HasAuthority(s, sight)
    && sight.ready
    && s.pend.healthy
    && s.sett.healthy
    && current.Some? && current.value.phase.Attempted? && current.value.phase.attempt == s.pass.pc.attempt
    && !HasSettlementStage(s.mem, it)
    && !HasOtherOverlap(s.journal, s.pass.scope, it)
  }

  /** The mutation of `it` takes effect while the journal holds `current`. */
  function RecordApplied(s: State, it: Intent, current: Intent): State {
    s.(applied := s.applied + [Applied(it.id, s.pass.scope, Paths(it), Paths(current))])
  }

  datatype Finals = Finals(state: State, journalWrite: Awaited, settledWrite: Awaited)

  /** `persistFinal`: both snapshots are taken in the segment of the mutation. */
  function PersistFinal(s: State): Finals {
    var e := EnqueueJournal(s);
    var f := EnqueueSettled(e.state);
    Finals(f.state, e.write, f.write)
  }

  function WriteClear(s: State): (r: State)
    requires s.pass.pc.Clearing?
    ensures r.applied == s.applied
  {
    var f := PersistFinal(s);
    Suspend(f.state, Clearing(s.pass.pc.it, f.journalWrite, f.settledWrite, s.pass.pc.stale))
  }

  function WriteCommit(s: State): State {
    var f := PersistFinal(s);
    Suspend(f.state, Committing(f.journalWrite, f.settledWrite))
  }

  /** `apply()` proved that nothing happened: the entry is ready again. */
  function CasClears(s: State, stale: bool): (r: State)
    requires s.pass.pc.Attempting?
    ensures r.applied == s.applied
  {
    var it := s.pass.pc.it;
    var cleared := ClearCommitAttempt(s.journal, it.id, s.pass.pc.attempt);
    if !cleared.ok then Stop(s)
    else WriteClear(Suspend(s, Clearing(it, None, None, stale)).(journal := cleared.entries))
  }

  /** Right after the mutation: settled refs moved with it, and the entry is still attempted. */
  function AppliedState(s: State, sight: Sight, current: Intent): State
    requires s.pass.pc.Attempting? && sight.cas.Mutates?
  {
    Suspend(RecordApplied(s, s.pass.pc.it, current), Committing(None, None))
      .(mem := s.mem.(refs := sight.cas.refs, versions := sight.cas.versions))
  }

  function MarkFinal(s: State, sight: Sight): Marked
    requires s.pass.pc.Attempting?
  {
    MarkCommittedFromAttempt(s.journal, s.pass.pc.it.id, s.pass.pc.attempt, sight.now, sight.session,
                             sight.receiptId, sight.fingerprint)
  }

  /** The mutation took effect: the entry is committed, unless that cannot be told. */
  function CasCommits(s: State, sight: Sight, current: Intent): State
    requires s.pass.pc.Attempting? && sight.cas.Mutates?
  {
    var applied, marked := AppliedState(s, sight, current), MarkFinal(s, sight);
    if !sight.cas.boundAfter || !marked.ok then Stop(applied) else WriteCommit(applied.(journal := marked.entries))
  }

  /** The linearization point, from `isAttemptCurrent` to the start of the final writes. */
  function Cas(s: State, sight: Sight): State
    requires s.pass.pc.Attempting? && s.pass.pc.at.AtCas?
  {
    if !IsAttemptCurrent(s, sight) then Stop(s)
    else
      var it := s.pass.pc.it;
      var current := CurrentEntry(s, it.id).value;
      match sight.cas
      case Throws(mutated) => Stop(if mutated then RecordApplied(s, it, current) else s)
      case NoMutation(stale) => CasClears(s, stale)
      case Mutates(_, _, _) => CasCommits(s, sight, current)
  }

  /** `Promise.all` of the two final writes: done when both are, or when one has failed. */
  predicate FinalsDone(s: State, j: Awaited, m: Awaited) {
    || (IsDone(s.pend, j) && IsDone(s.sett, m))
    || (IsDone(s.pend, j) && !IsOk(s.pend, j))
    || (IsDone(s.sett, m) && !IsOk(s.sett, m))
  }

  function FinishCommit(s: State, sight: Sight): (r: State)
    requires s.pass.pc.Committing?
    ensures r.applied == s.applied
  {
    var pc := s.pass.pc;
    if !FinalsDone(s, pc.journalWrite, pc.settledWrite) then s
    else if IsOk(s.pend, pc.journalWrite) && IsOk(s.sett, pc.settledWrite) then NextEntry(s, sight, false)
    else Stop(s)
  }

  function WriteStaleRemoval(s: State): (r: State)
    requires s.pass.pc.StaleRemoval?
    ensures r.applied == s.applied
  {
    var e := EnqueueJournal(s);
    Suspend(e.state, StaleRemoval(s.pass.pc.it, e.write))
  }

  /** A proven no-mutation attempt: keep the ready entry, or retire it when the disk moved on. */
  function FinishClear(s: State, sight: Sight): (r: State)
    requires s.pass.pc.Clearing?
    ensures r.applied == s.applied
  {
    var pc := s.pass.pc;
    if !FinalsDone(s, pc.journalWrite, pc.settledWrite) then s
    else if !IsOk(s.pend, pc.journalWrite) || !IsOk(s.sett, pc.settledWrite) || !HasAuthority(s, sight) then Stop(s)
    else if !pc.stale || !sight.occupantStays then NextEntry(s, sight, false)
    else if !HasId(s.journal, pc.it.id) then Stop(s)
    else WriteStaleRemoval(Suspend(s, StaleRemoval(pc.it, None)).(journal := Remove(s.journal, pc.it.id)))
  }

  /** The write of a restored entry is the last thing a pass does. */
  function WriteRestored(s: State): (r: State)
    ensures r.applied == s.applied
  {
    var e := EnqueueJournal(s);
    Suspend(e.state.(pass := e.state.pass.(todo := [])), LastWrite(e.write))
  }

  /** A failed removal write restores the entry, and so does an occupant that left meanwhile. */
  function FinishStaleRemoval(s: State, sight: Sight): (r: State)
    requires s.pass.pc.StaleRemoval?
    ensures r.applied == s.applied
  {
    var pc := s.pass.pc;
    var restored := s.(journal := Restore(s.journal, pc.it));
    if !IsDone(s.pend, pc.write) then s
    else if !IsOk(s.pend, pc.write) then Stop(restored)
    else if !HasAuthority(s, sight) then Stop(s)
    else if !sight.occupantStays && !HasPath(s.journal, SourcePath(pc.it), s.pass.scope) then WriteRestored(restored)
    else NextEntry(s, sight, false)
  }

  function ReplayStep(s: State, sight: Sight): State {
    match s.pass.pc
    case Idle => StartPass(s, sight)
    case OpeningJournal(_) => OpenJournal(s, sight)
    case OpeningSettled(_) => OpenSettled(s, sight)
    case Looping(_) => if s.pass.todo == [] then EndLoop(s) else ProcessEntry(TakeEntry(s), sight)
    case AtEntry(_, _) => ProcessEntry(s, sight)
    case PreparingRemoval(_, _, _) => FinishPreparation(s, sight)
    case PreparedRemoval(_, _, _) => FinishRemoval(s, sight)
    case GateWrite(_, _, _) => FinishGateWrite(s, sight)
    case RemovalWrite(_) => FinishRemovalWrite(s, sight)
    case Attempting(_, _, at) => if at.AtCas? then Cas(s, sight) else AdvanceAttempt(s, sight)
    case Clearing(_, _, _, _) => FinishClear(s, sight)
    case StaleRemoval(_, _) => FinishStaleRemoval(s, sight)
    case Committing(_, _) => FinishCommit(s, sight)
    case LastWrite(w) => if IsDone(s.pend, w) then Stop(s) else s
  }

  // ---------------------------------------------------------------------------
  // The other activities
  // ---------------------------------------------------------------------------

  /** A local delete or rename, with the base the settlement state gave it. */
  datatype LocalEvent =
    | FileDeleted(path: Path, base: MutationBase, at: nat)
    | FileRenamed(oldPath: Path, newPath: Path, base: MutationBase, at: nat, sameFile: bool)

  /**
   * The journal after an event; it may use two new identities. A chain of renames
   * that does not follow one file is first closed by deleting its origin.
   */
  function Recording(s: State, e: LocalEvent): seq<Intent> {
    match e
    case FileDeleted(path, base, at) => RecordDelete(s.journal, path, s.settings, base, s.nextId, at).entries
    case FileRenamed(oldPath, newPath, base, at, sameFile) =>
      var j := if ReadyRenameTo(s.journal, s.settings, oldPath).Some? && !sameFile
               then RecordDelete(s.journal, oldPath, s.settings, base, s.nextId, at).entries
               else s.journal;
      RecordRename(j, oldPath, newPath, s.settings, base, s.nextId + 1, at).entries
  }

  function EnsureJournal(s0: State, opens: bool): State {
    var s := DoActivate(s0);
    s.(pend := BeginEnsure(s.pend, s.g, s.settings, opens))
  }

  function EnsureSettled(s0: State, opens: bool): State {
    var s := DoActivate(s0);
    s.(sett := BeginEnsure(s.sett, s.g, s.settings, opens))
  }

  /** `persistPendingBlobIntents`: enqueue, or start to attach the missing store. */
  function PersistJournal(s0: State, opens: bool): State {
    var s := DoActivate(s0);
    if s.pend.store.None? || s.pend.store.value.key != s.settings
    then EnsureJournal(s.(pend := s.pend.(healthy := false)), opens)
    else EnqueueJournal(s).state
  }

  /** `recordPendingBlobDelete` and `recordPendingBlobRename`, given the journal after the event. */
  function PersistRecorded(s: State, journal: seq<Intent>, opens: bool): State {
    if !IsComplete(s.settings) then s.(pend := s.pend.(healthy := false)) else PersistJournal(WithJournal(s, journal), opens)
  }

  function WithJournal(s: State, journal: seq<Intent>): State {
    s.(journal := journal, nextId := s.nextId + 2)
  }

  function RecordEvent(s: State, e: LocalEvent, opens: bool): State {
    PersistRecorded(s, Recording(s, e), opens)
  }

  /** The memory a journal load installs: loaded entries under the ones already in memory. */
  function AdoptJournal(s: State, a: nat): State
    requires a in s.pend.loads && s.pend.loads[a].pc.Read?
    requires s.pend.loads[a].pc.result.Loaded? || s.pend.loads[a].pc.result.Missing?
  {
    var load := s.pend.loads[a];
    var key := load.store.key;
    var loaded := if load.pc.result.Loaded? then load.pc.result.value else [];
    var inMemory := Entries(s.journal, key);
    var entries := Merge(loaded, inMemory);
    var lane := Adopt(s.pend, a, entries, load.pc.result.Missing? || inMemory != []);
    s.(journal := Filter(s.journal, (e: Intent) => e.scope != key) + entries, pend := lane)
  }

  /** The memory a settled-ref load installs; `legacy` is the disk evidence of a record never migrated. */
  function AdoptedSettled(result: LoadResult<Settled>, legacy: set<Path>): Settled {
    var m := if result.Loaded? then result.value else NOTHING_SETTLED;
    m.(gate := m.gate + legacy
               + set p | p in m.stages && !m.stages[p].kind.Retire? && !m.stages[p].kind.ManualDownloadConflict?)
  }

  function AdoptSettled(s: State, a: nat, migrate: bool, legacy: set<Path>): State
    requires a in s.sett.loads && s.sett.loads[a].pc.Read?
    requires s.sett.loads[a].pc.result.Loaded? || s.sett.loads[a].pc.result.Missing?
  {
    var load := s.sett.loads[a];
    var result := load.pc.result;
    var writeBack := result.Missing? || migrate;
    var mem := AdoptedSettled(result, if writeBack then legacy else {});
    s.(mem := mem, unsaved := {},
       sett := Adopt(s.sett, a, if writeBack then mem else result.value, writeBack))
  }

  /** A settlement callback, and the write it asks for. */
  function SettlementEvent(s: State, c: Callback): State {
    var r := Call(s.mem, c);
    if r.Refused? then s else EnqueueSettled(SetMem(s, r.state)).state
  }

  /** The download quarantine of a path is set or lifted, and written. */
  function GateEvent(s: State, path: Path, gated: bool): State {
    var gate := if gated then s.mem.gate + {path} else s.mem.gate - {path};
    EnqueueSettled(SetMem(s, s.mem.(gate := gate))).state
  }

  function CrashState(s: State): State
    requires s.pend.done <= |s.pend.log| && s.sett.done <= |s.sett.log|
  {
    s.(g := Guard(None, 0), pend := Crash(s.pend), sett := Crash(s.sett), journal := [], mem := NOTHING_SETTLED,
       pass := IDLE_PASS, unsaved := {}, pending := None)
  }

  // ---------------------------------------------------------------------------
  // Runs
  // ---------------------------------------------------------------------------

  datatype LaneEvent =
    | LandWrite
    | SettleWrite(ok: bool)
    | Ensure(opens: bool)
    | TailDone(load: nat)
    | BeginRead(load: nat)
    | EndRead(load: nat, kind: ReadKind)
    | Abandon(load: nat)

  datatype Event =
    | ChangeSettings(scope: Scope)
    | ActivateScope
    | JournalLane(step: LaneEvent)
    | SettledLane(step: LaneEvent)
    | JournalAdopts(load: nat)
    | SettledAdopts(load: nat, migrate: bool, legacy: set<Path>)
    | PersistsJournal(opens: bool)
    | PersistsSettled
    | Local(file: LocalEvent, opens: bool)
    | Settlement(c: Callback)
    | Gate(path: Path, gated: bool)
    | Forgets(path: Path)           // its settlement is no longer authoritative
    | Replays(sight: Sight)
    | Crashes

  /** When a lane may take a step. */
  predicate LaneEnabled<S>(l: Lane<S>, e: LaneEvent, g: Guard, settings: Scope) {
    match e
    case LandWrite => l.done < |l.log|
    case SettleWrite(ok) => l.done < |l.log| && (ok ==> l.log[l.done].landed)
    case Ensure(_) => true
    case TailDone(a) => a in l.loads && l.loads[a].pc.AwaitingTail? && HasSettled(l, l.loads[a].pc.tail)
    case BeginRead(a) => a in l.loads && l.loads[a].pc.TailStable?
    case EndRead(a, _) => a in l.loads && l.loads[a].pc.Reading?
    case Abandon(a) =>
      && a in l.loads && l.loads[a].pc.Read?
      && (MayAdopt(l, g, settings, a) ==> l.loads[a].pc.result.Corrupt? || l.loads[a].pc.result.Unreadable?)
  }

  function LaneStep<S>(l: Lane<S>, e: LaneEvent, g: Guard, settings: Scope): Lane<S>
    requires LaneEnabled(l, e, g, settings)
  {
    match e
    case LandWrite => Land(l)
    case SettleWrite(ok) => Settle(l, g, settings, ok)
    case Ensure(opens) => BeginEnsure(l, g, settings, opens)
    case TailDone(a) => TailSettled(l, g, settings, a)
    case BeginRead(a) => StartRead(l, g, settings, a)
    case EndRead(a, kind) => FinishRead(l, a, kind)
    case Abandon(a) => AbandonLoad(l, g, settings, a)
  }

  predicate AdoptEnabled<S>(l: Lane<S>, g: Guard, settings: Scope, a: nat) {
    && a in l.loads && l.loads[a].pc.Read? && MayAdopt(l, g, settings, a)
    && (l.loads[a].pc.result.Loaded? || l.loads[a].pc.result.Missing?)
  }

  predicate Enabled(s: State, e: Event) {
    match e
    case JournalLane(le) => le.Ensure? || LaneEnabled(s.pend, le, s.g, s.settings)
    case SettledLane(le) => le.Ensure? || LaneEnabled(s.sett, le, s.g, s.settings)
    case JournalAdopts(a) => AdoptEnabled(s.pend, s.g, s.settings, a)
    case SettledAdopts(a, _, _) => AdoptEnabled(s.sett, s.g, s.settings, a)
    case Settlement(_) => s.g.identity.Some? && Identity(s.settings) == s.g.identity
    case Crashes => s.pend.done <= |s.pend.log| && s.sett.done <= |s.sett.log|
    case _ => true
  }

  function Step(s: State, e: Event): State
    requires Enabled(s, e)
  {
    match e
    case ChangeSettings(scope) => s.(settings := scope)
    case ActivateScope => DoActivate(s)
    case JournalLane(le) =>
      if le.Ensure? then EnsureJournal(s, le.opens) else s.(pend := LaneStep(s.pend, le, s.g, s.settings))
    case SettledLane(le) =>
      if le.Ensure? then EnsureSettled(s, le.opens) else s.(sett := LaneStep(s.sett, le, s.g, s.settings))
    case JournalAdopts(a) => AdoptJournal(s, a)
    case SettledAdopts(a, migrate, legacy) => AdoptSettled(s, a, migrate, legacy)
    case PersistsJournal(opens) => PersistJournal(s, opens)
    case PersistsSettled => EnqueueSettled(s).state
    case Local(le, opens) => RecordEvent(s, le, opens)
    case Settlement(c) => SettlementEvent(s, c)
    case Gate(path, gated) => GateEvent(s, path, gated)
    case Forgets(path) => s.(mem := s.mem.(refs := s.mem.refs - {path}, versions := s.mem.versions - {path}))
    case Replays(sight) => ReplayStep(s, sight)
    case Crashes => CrashState(s)
  }

  /** A device that starts with some settings and some durable records. */
  function Start(settings: Scope, journals: map<Scope, seq<Intent>>, settled: map<Scope, Settled>, nextId: nat): State {
    State(settings, Guard(None, 0), NewLane(journals), NewLane(settled), [], NOTHING_SETTLED, IDLE_PASS, nextId, 0,
          [], {}, None, {})
  }

  ghost predicate IsRun(s: State, es: seq<Event>, t: State)
    decreases |es|
  {
    if es == [] then s == t else Enabled(s, es[0]) && IsRun(Step(s, es[0]), es[1..], t)
  }
}
