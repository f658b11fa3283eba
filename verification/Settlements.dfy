/**
 * The settlement state of attachments: which refs are known to match the disk,
 * which paths are fenced by a stage, and which are gated from download
 * (src/main.ts:1688-1908 and 2098-2229).
 */
module Settlements {
  import opened Wrappers
  import opened BlobRefs
  import opened Journal

  datatype StageKind = Download | ManualDownloadConflict | Upload | Equality | Renaming | Retire

  /**
   * Stage identities are random strings without a colon, or name the journal
   * entry whose removal installed them (`committed:<id>`, `rename:<id>`).
   */
  datatype StageId = Random(name: string) | CommittedBy(intent: nat) | RenamedBy(intent: nat)

  datatype Stage = Stage(
    id: StageId, kind: StageKind, ref: Option<BlobRef>, sourceVersion: Option<string>, stagedAt: nat)

  /** `gate` is the legacy-missing quarantine that keeps a path from being downloaded. */
  datatype Settled = Settled(
    refs: map<Path, BlobRef>, versions: map<Path, string>, stages: map<Path, Stage>, gate: set<Path>)

  const NOTHING_SETTLED := Settled(map[], map[], map[], {})

  datatype DeleteSnapshot = DeleteSnapshot(fingerprint: string, deletedRef: Option<BlobRef>)

  /** What the shared document says about attachments at one moment. */
  datatype Remote = Remote(
    refs: map<Path, BlobRef>, versions: map<Path, string>, tombstoned: set<Path>, deletes: map<Path, DeleteSnapshot>)

  function At<K, V>(m: map<K, V>, k: K): Option<V> {
    if k in m then Some(m[k]) else None
  }

  // ---------------------------------------------------------------------------
  // Settlement callbacks
  // ---------------------------------------------------------------------------

  /** A new settlement state, or the unchanged one when the callback throws. */
  datatype Outcome = Accepted(state: Settled) | Refused

  predicate SameStage(a: Stage, b: Stage) {
    a.id == b.id && a.kind == b.kind && SameBlobRef(a.ref, b.ref) && a.sourceVersion == b.sourceVersion
  }

  function StageSettlement(m: Settled, path: Path, stage: Stage): Outcome {
    if path in m.stages && !SameStage(m.stages[path], stage) then Refused
    else Accepted(m.(stages := m.stages[path := stage.(ref := CloneBlobRef(stage.ref))]))
  }

  function FinalizeSettlement(m: Settled, path: Path, id: StageId, ref: BlobRef, version: string,
                              remote: Remote): Outcome {
    if path !in m.stages || m.stages[path].id != id || m.stages[path].kind.Retire?
       || !SameBlobRef(m.stages[path].ref, Some(ref)) then Refused
    else if m.stages[path].sourceVersion.Some? && m.stages[path].sourceVersion.value != version then Refused
    else if !SameBlobRef(At(remote.refs, path), Some(ref)) || At(remote.versions, path) != Some(version) then Refused
    else Accepted(Settled(m.refs[path := CloneBlobRef(Some(ref)).value], m.versions[path := version],
                          m.stages - {path}, m.gate - {path}))
  }

  function RetireSettlement(m: Settled, path: Path, id: StageId): Outcome {
    if path !in m.stages || m.stages[path].id != id || !m.stages[path].kind.Retire? then Refused
    else Accepted(Settled(m.refs - {path}, m.versions - {path}, m.stages, m.gate - {path}))
  }

  /** A stage that is not the caller's is left alone, without an error. */
  function AbortStage(m: Settled, path: Path, id: StageId): Outcome {
    if path !in m.stages || m.stages[path].id != id then Refused
    else Accepted(m.(stages := m.stages - {path}))
  }

  /** The operator's explicit resolution of a fence. */
  function ClearFence(m: Settled, path: Path): Outcome {
    Accepted(m.(refs := m.refs - {path}, versions := m.versions - {path}, stages := m.stages - {path}))
  }

  datatype Callback =
    | DoStage(path: Path, stage: Stage)
    | DoFinalize(path: Path, id: StageId, ref: BlobRef, version: string, remote: Remote)
    | DoRetire(path: Path, id: StageId)
    | DoAbort(path: Path, id: StageId)
    | DoClear(path: Path)

  function Call(m: Settled, c: Callback): Outcome {
    match c
    case DoStage(path, stage) => StageSettlement(m, path, stage)
    case DoFinalize(path, id, ref, version, remote) => FinalizeSettlement(m, path, id, ref, version, remote)
    case DoRetire(path, id) => RetireSettlement(m, path, id)
    case DoAbort(path, id) => AbortStage(m, path, id)
    case DoClear(path) => ClearFence(m, path)
  }

  function After(m: Settled, c: Callback): Settled {
    var r := Call(m, c);
    if r.Accepted? then r.state else m
  }

  /** The state after the synchronous parts of a run of callbacks, in the order they ran. */
  function Run(m: Settled, cs: seq<Callback>): Settled
    decreases |cs|
  {
    if cs == [] then m else Run(After(m, cs[0]), cs[1..])
  }

  /** An explicit end of the fence on a path. */
  predicate Releases(m: Settled, c: Callback, path: Path) {
    c.path == path && (c.DoAbort? || c.DoClear?) && Call(m, c).Accepted?
  }

  predicate NeverReleased(m: Settled, cs: seq<Callback>, path: Path)
    decreases |cs|
  {
    cs == [] || (!Releases(m, cs[0], path) && NeverReleased(After(m, cs[0]), cs[1..], path))
  }

  predicate IsRetired(m: Settled, path: Path, id: StageId) {
    path in m.stages && m.stages[path].id == id && m.stages[path].kind.Retire? && path !in m.refs
  }

  /** Two states that agree on every path but one. */
  predicate AgreeElsewhere(m: Settled, t: Settled, path: Path) {
    && m.refs - {path} == t.refs - {path} && m.versions - {path} == t.versions - {path}
    && m.stages - {path} == t.stages - {path} && m.gate - {path} == t.gate - {path}
  }

  /**
   * A stage is accepted exactly where nothing or the same episode is staged; it
   * then fences the path with what the caller named, and nothing else changes.
   */
  lemma StagingFences(m: Settled, path: Path, stage: Stage)
    ensures var r := StageSettlement(m, path, stage);
            && (r.Accepted? <==>
                  path in m.stages ==>
                    && m.stages[path].id == stage.id && m.stages[path].kind == stage.kind
                    && SameBlobRef(m.stages[path].ref, stage.ref) && m.stages[path].sourceVersion == stage.sourceVersion)
            && (r.Accepted? ==>
                  && path in r.state.stages
                  && r.state.stages[path].id == stage.id && r.state.stages[path].kind == stage.kind
                  && SameBlobRef(r.state.stages[path].ref, stage.ref)
                  && r.state.stages[path].sourceVersion == stage.sourceVersion
                  && r.state.stages[path].stagedAt == stage.stagedAt
                  && r.state.refs == m.refs && r.state.versions == m.versions && r.state.gate == m.gate
                  && AgreeElsewhere(m, r.state, path))
  {
    ClonePriorHashes(stage.ref);
  }

  /**
   * A retirement is accepted exactly under its own retire stage; it leaves the path
   * unsettled, without a version and ungated under that stage, and nothing else
   * changes.
   */
  lemma RetiringRetires(m: Settled, path: Path, id: StageId)
    ensures var r := RetireSettlement(m, path, id);
            && (r.Accepted? <==> path in m.stages && m.stages[path].id == id && m.stages[path].kind == Retire)
            && (r.Accepted? ==>
                  && IsRetired(r.state, path, id) && path !in r.state.versions && path !in r.state.gate
                  && r.state.stages == m.stages && AgreeElsewhere(m, r.state, path))
  {
  }

  /** An abort is accepted exactly for the stage's own identity; it lifts the fence, and nothing else changes. */
  lemma AbortingLiftsTheFence(m: Settled, path: Path, id: StageId)
    ensures var r := AbortStage(m, path, id);
            && (r.Accepted? <==> path in m.stages && m.stages[path].id == id)
            && (r.Accepted? ==>
                  && path !in r.state.stages && r.state.refs == m.refs && r.state.versions == m.versions
                  && r.state.gate == m.gate && AgreeElsewhere(m, r.state, path))
  {
  }

  /**
   * The operator's resolution always lifts the fence: the path is then settled,
   * versioned and staged no more, every stage is accepted there, and every other
   * path and the whole gate are as they were.
   */
  lemma ClearingLiftsTheFence(m: Settled, path: Path, stage: Stage)
    ensures var r := ClearFence(m, path);
            && r.Accepted?
            && path !in r.state.refs && path !in r.state.versions && path !in r.state.stages
            && r.state.gate == m.gate && AgreeElsewhere(m, r.state, path)
            && StageSettlement(r.state, path, stage).Accepted?
  {
  }

  /**
   * Whatever callbacks run after a retirement, in any order and with any
   * arguments, the path stays retired under the same stage until that stage is
   * aborted or cleared.
   */
  lemma {:induction false} RetiredStaysRetired(m: Settled, cs: seq<Callback>, path: Path, id: StageId)
    requires IsRetired(m, path, id)
    requires NeverReleased(m, cs, path)
    ensures IsRetired(Run(m, cs), path, id)
    decreases |cs|
  {
    if cs != [] {
      assert IsRetired(After(m, cs[0]), path, id);
      RetiredStaysRetired(After(m, cs[0]), cs[1..], path, id);
    }
  }

  /** A path becomes settled only by finalizing a stage for exactly the ref and version the document holds. */
  lemma SettledOnlyByFinalizing(m: Settled, c: Callback, path: Path)
    requires path !in m.refs && path in After(m, c).refs
    ensures c.DoFinalize? && c.path == path
    ensures path in m.stages && !m.stages[path].kind.Retire? && m.stages[path].id == c.id
    ensures SameBlobRef(Some(After(m, c).refs[path]), At(c.remote.refs, path))
    ensures At(After(m, c).versions, path) == At(c.remote.versions, path)
  {
    CloneIsNormalForm(Some(c.ref), At(c.remote.refs, path));
    SameBlobRefIsEquivalence(Some(After(m, c).refs[path]), Some(c.ref), At(c.remote.refs, path));
    SameBlobRefIsEquivalence(At(c.remote.refs, path), Some(c.ref), None);
  }

  /** What a finalization leaves: the path settled at the document's ref and version, unfenced and ungated. */
  lemma FinalizingSettles(m: Settled, path: Path, id: StageId, ref: BlobRef, version: string, remote: Remote)
    ensures var r := FinalizeSettlement(m, path, id, ref, version, remote);
            && (r.Accepted? <==>
                  && path in m.stages && m.stages[path].id == id && !m.stages[path].kind.Retire?
                  && SameBlobRef(m.stages[path].ref, Some(ref))
                  && (m.stages[path].sourceVersion == None || m.stages[path].sourceVersion == Some(version))
                  && SameBlobRef(At(remote.refs, path), Some(ref)) && At(remote.versions, path) == Some(version))
            && (r.Accepted? ==>
                  && SameBlobRef(At(r.state.refs, path), At(remote.refs, path))
                  && At(r.state.versions, path) == At(remote.versions, path)
                  && path !in r.state.stages && path !in r.state.gate
                  && r.state.refs - {path} == m.refs - {path} && r.state.versions - {path} == m.versions - {path}
                  && r.state.stages == m.stages - {path} && r.state.gate == m.gate - {path})
  {
    ClonePriorHashes(Some(ref));
    SameBlobRefIsEquivalence(CloneBlobRef(Some(ref)), Some(ref), At(remote.refs, path));
    SameBlobRefIsEquivalence(At(remote.refs, path), Some(ref), None);
  }

  /** A stage that is aborted by its own identity leaves no trace; another identity leaves it alone. */
  lemma AbortUndoesStaging(m: Settled, path: Path, stage: Stage, id: StageId)
    requires path !in m.stages
    ensures var staged := StageSettlement(m, path, stage);
            && staged.Accepted?
            && AbortStage(staged.state, path, id) == (if id == stage.id then Accepted(m) else Refused)
            && (staged.state.stages[path].kind == stage.kind && SameBlobRef(staged.state.stages[path].ref, stage.ref))
  {
    ClonePriorHashes(stage.ref);
    assert m.stages[path := stage.(ref := CloneBlobRef(stage.ref))] - {path} == m.stages;
  }

  // ---------------------------------------------------------------------------
  // The base of a local mutation
  // ---------------------------------------------------------------------------

  /** `captureBlobMutationBase`; `remoteReady` is the three readiness flags together. */
  function CaptureBase(m: Settled, path: Path, remote: Remote, remoteReady: bool): MutationBase {
    if path in m.stages then MutationBase(false, None, false, None)
    else if path in m.refs then
      var ref := CloneBlobRef(Some(m.refs[path]));
      var current := CloneBlobRef(At(remote.refs, path));
      var version := At(m.versions, path);
      var sameEpisode := SameBlobRef(current, ref) && At(remote.versions, path) == version;
      MutationBase(true, ref, sameEpisode && version.Some?, if sameEpisode then version else None)
    else if remoteReady && path !in remote.refs then MutationBase(true, None, true, None)
    else MutationBase(false, None, false, None)
  }

  /**
   * A base is known exactly for an unfenced path that is settled, or that the
   * ready document says is absent; and a known source version is the one both
   * sides agree on.
   */
  lemma BaseIsKnownIff(m: Settled, path: Path, remote: Remote, remoteReady: bool)
    ensures var b := CaptureBase(m, path, remote, remoteReady);
            && (b.known <==> path !in m.stages && (path in m.refs || (remoteReady && path !in remote.refs)))
            && (b.known && b.ref.Some? && b.sourceVersionKnown ==>
                  && path in m.refs && SameBlobRef(Some(m.refs[path]), At(remote.refs, path))
                  && b.expectedSourceVersion.Some?
                  && b.expectedSourceVersion == At(m.versions, path) == At(remote.versions, path))
  {
    ClonePriorHashes(At(remote.refs, path));
    ClonePriorHashes(At(m.refs, path));
  }

  /**
   * What a base carries. A fenced path has none. A settled one carries the ref this
   * device settled, whatever the document says now, and its version exactly when
   * the document still has that ref at that version. A path the ready document
   * lacks is known to be absent, and any other is unknown.
   */
  lemma BaseCarriesTheSettlement(m: Settled, path: Path, remote: Remote, remoteReady: bool)
    ensures var b := CaptureBase(m, path, remote, remoteReady);
            && (path in m.stages ==> b == MutationBase(false, None, false, None))
            && (path !in m.stages && path in m.refs ==>
                  && b.known && SameBlobRef(b.ref, Some(m.refs[path]))
                  && (b.sourceVersionKnown <==>
                        && path in remote.refs && SameBlobRef(Some(remote.refs[path]), Some(m.refs[path]))
                        && path in m.versions && path in remote.versions && m.versions[path] == remote.versions[path])
                  && b.expectedSourceVersion == if b.sourceVersionKnown then Some(m.versions[path]) else None)
            && (path !in m.stages && path !in m.refs ==>
                  b == if remoteReady && path !in remote.refs then MutationBase(true, None, true, None)
                       else MutationBase(false, None, false, None))
  {
    ClonePriorHashes(At(remote.refs, path));
    ClonePriorHashes(At(m.refs, path));
  }

  /** Once a path is retired, no local mutation of it can know its base, in any run. */
  lemma RetiredPathHasUnknownBase(m: Settled, cs: seq<Callback>, path: Path, id: StageId,
                                  remote: Remote, remoteReady: bool)
    requires IsRetired(m, path, id) && NeverReleased(m, cs, path)
    ensures !CaptureBase(Run(m, cs), path, remote, remoteReady).known
  {
    RetiredStaysRetired(m, cs, path, id);
  }

  // ---------------------------------------------------------------------------
  // Preparing the removal of a confirmed intent
  // ---------------------------------------------------------------------------

  /** `hasPendingBlobIntentCommitPostcondition`. */
  predicate Postcondition(e: Intent, remote: Remote) {
    var source := SourcePath(e);
    var snapshot := At(remote.deletes, source);
    && source !in remote.refs
    && (if e.phase.Committed? && e.phase.fingerprint.Some? then
          snapshot.Some? && snapshot.value.fingerprint == e.phase.fingerprint.value
        else if e.expectedSourceRef.None? then true
        else snapshot.Some? && SameBlobRef(snapshot.value.deletedRef, e.expectedSourceRef))
  }

  /** `Write` asks for a settled-ref write; `Keep` found everything in place already. */
  datatype Preparation = Refuse(state: Settled) | Write(state: Settled) | Keep(state: Settled)

  predicate RetireStageMatches(m: Settled, e: Intent) {
    var source := SourcePath(e);
    && source in m.stages
    && m.stages[source].kind.Retire?
    && SameBlobRef(m.stages[source].ref, CloneBlobRef(e.expectedSourceRef))
    && m.stages[source].sourceVersion == e.expectedSourceVersion
  }

  function CommitTime(e: Intent, now: nat): nat {
    if e.phase.Committed? then e.phase.committedAt else now
  }

  /** The source half: a retire stage carrying the intent's ref and version replaces the settlement. */
  function PrepareSource(m: Settled, e: Intent, now: nat): Settled {
    var source := SourcePath(e);
    var stages := if source in m.stages then m.stages
                  else m.stages[source := Stage(CommittedBy(e.id), Retire, CloneBlobRef(e.expectedSourceRef),
                                                e.expectedSourceVersion, CommitTime(e, now))];
    Settled(m.refs - {source}, m.versions - {source}, stages, m.gate)
  }

  predicate DestinationSettled(m: Settled, path: Path, remote: Remote) {
    && SameBlobRef(At(m.refs, path), At(remote.refs, path))
    && At(m.versions, path) == At(remote.versions, path)
    && path !in m.stages
  }

  predicate RenameStageMatches(m: Settled, path: Path, remote: Remote) {
    && path in m.stages
    && m.stages[path].kind.Renaming?
    && SameBlobRef(m.stages[path].ref, CloneBlobRef(At(remote.refs, path)))
    && m.stages[path].sourceVersion == At(remote.versions, path)
  }

  /** The synchronous part of `prepareCommittedBlobIntentForRemoval`. */
  function Prepare(m: Settled, e: Intent, remote: Remote, now: nat): Preparation {
    var source := SourcePath(e);
    if !Postcondition(e, remote) then Refuse(m)
    else if source in m.stages && !RetireStageMatches(m, e) then Refuse(m)
    else
      var m1 := PrepareSource(m, e, now);
      if e.kind.Delete? || e.kind.newPath !in remote.refs then
        if m1 == m then Keep(m) else Write(m1)
      else
        var path := e.kind.newPath;
        if path !in remote.versions then Refuse(m1)
        else if DestinationSettled(m1, path, remote) then
          if m1 == m then Keep(m) else Write(m1)
        else if path !in m1.stages then
          Write(m1.(stages := m1.stages[path := Stage(RenamedBy(e.id), Renaming, CloneBlobRef(At(remote.refs, path)),
                                                      At(remote.versions, path), CommitTime(e, now))],
                    gate := m1.gate + {path}))
        else if !RenameStageMatches(m1, path, remote) then Refuse(m1)
        else Write(m1.(gate := m1.gate + {path}))
  }

  /** The answer of the preparation, after its write was awaited. */
  predicate Prepared(m: Settled, e: Intent, remote: Remote) {
    || e.kind.Delete?
    || e.kind.newPath !in remote.refs
    || DestinationSettled(m, e.kind.newPath, remote)
  }

  /** What the document must say before a committed mutation may leave the journal as confirmed. */
  ghost predicate DocumentConfirms(e: Intent, remote: Remote) {
    var source := SourcePath(e);
    && source !in remote.refs
    && (forall fingerprint :: e.phase.Committed? && e.phase.fingerprint == Some(fingerprint) ==>
          source in remote.deletes && remote.deletes[source].fingerprint == fingerprint)
    && (forall ref :: !(e.phase.Committed? && e.phase.fingerprint.Some?) && e.expectedSourceRef == Some(ref) ==>
          source in remote.deletes && SameBlobRef(remote.deletes[source].deletedRef, Some(ref)))
  }

  /** The source is unfenced, or fenced by a retirement of exactly the entry's base. */
  predicate SourceIsFree(m: Settled, e: Intent) {
    SourcePath(e) in m.stages ==>
      var stage := m.stages[SourcePath(e)];
      stage.kind == Retire && SameBlobRef(stage.ref, e.expectedSourceRef) && stage.sourceVersion == e.expectedSourceVersion
  }

  /** What a rename moved to is gone again, or has a version and no fence but that of this very content. */
  predicate DestinationIsFree(m: Settled, e: Intent, remote: Remote) {
    e.kind.Rename? && e.kind.newPath in remote.refs ==>
      var path := e.kind.newPath;
      && path in remote.versions
      && (path in m.stages ==>
            && m.stages[path].kind == Renaming && SameBlobRef(m.stages[path].ref, Some(remote.refs[path]))
            && m.stages[path].sourceVersion == Some(remote.versions[path]))
  }

  lemma CloneIsSame(a: Option<BlobRef>, b: Option<BlobRef>)
    ensures SameBlobRef(a, CloneBlobRef(b)) <==> SameBlobRef(a, b)
  {
    ClonePriorHashes(b);
  }

  lemma PostconditionIff(e: Intent, remote: Remote)
    ensures Postcondition(e, remote) <==> DocumentConfirms(e, remote)
  {
  }

  /** A preparation refuses exactly when the document does not confirm the mutation or a fence is in its way. */
  lemma PreparationRefusesIff(m: Settled, e: Intent, remote: Remote, now: nat)
    ensures Prepare(m, e, remote, now).Refuse?
            <==> !(DocumentConfirms(e, remote) && SourceIsFree(m, e) && DestinationIsFree(m, e, remote))
  {
    var source := SourcePath(e);
    PostconditionIff(e, remote);
    if source in m.stages {
      CloneIsSame(m.stages[source].ref, e.expectedSourceRef);
    }
    if e.kind.Rename? && e.kind.newPath in m.stages {
      CloneIsSame(m.stages[e.kind.newPath].ref, At(remote.refs, e.kind.newPath));
    }
  }

  /** The destination of a rename is live in the document, and not settled there as the document has it. */
  predicate NeedsDestinationStage(m: Settled, e: Intent, remote: Remote) {
    && e.kind.Rename? && e.kind.newPath in remote.refs
    && !(&& SameBlobRef(At(m.refs, e.kind.newPath), Some(remote.refs[e.kind.newPath]))
         && At(m.versions, e.kind.newPath) == At(remote.versions, e.kind.newPath)
         && e.kind.newPath !in m.stages)
  }

  lemma PreparedSourceIsExact(m: Settled, e: Intent, now: nat)
    requires SourcePath(e) in m.stages ==> RetireStageMatches(m, e)
    ensures var t, source := PrepareSource(m, e, now), SourcePath(e);
            && t.refs == m.refs - {source} && t.versions == m.versions - {source} && t.gate == m.gate
            && source in t.stages && t.stages - {source} == m.stages - {source}
            && t.stages[source].kind == Retire && SameBlobRef(t.stages[source].ref, e.expectedSourceRef)
            && t.stages[source].sourceVersion == e.expectedSourceVersion
            && (source in m.stages ==> t.stages == m.stages)
            && (source !in m.stages ==>
                  t.stages[source].id == CommittedBy(e.id)
                  && (e.phase.Committed? ==> t.stages[source].stagedAt == e.phase.committedAt))
            && (t == m <==> source in m.stages && source !in m.refs && source !in m.versions)
  {
    var source := SourcePath(e);
    ClonePriorHashes(e.expectedSourceRef);
    if source in m.stages {
      CloneIsSame(m.stages[source].ref, e.expectedSourceRef);
    }
    assert source !in m.refs ==> m.refs - {source} == m.refs;
    assert source !in m.versions ==> m.versions - {source} == m.versions;
    assert source !in PrepareSource(m, e, now).refs && source !in PrepareSource(m, e, now).versions;
  }

  /**
   * What an accepted preparation leaves at the source: it is unsettled under a
   * retire stage of the entry's base. When no destination has to be staged, nothing
   * else changes, and no write is asked for exactly when things were so already.
   */
  lemma PreparationRetiresTheSource(m: Settled, e: Intent, remote: Remote, now: nat)
    requires !Prepare(m, e, remote, now).Refuse?
    ensures var p, t, source := Prepare(m, e, remote, now), Prepare(m, e, remote, now).state, SourcePath(e);
            && t.refs == m.refs - {source} && t.versions == m.versions - {source}
            && source in t.stages && t.stages[source].kind == Retire
            && SameBlobRef(t.stages[source].ref, e.expectedSourceRef)
            && t.stages[source].sourceVersion == e.expectedSourceVersion
            && t.stages[source].id == (if source in m.stages then m.stages[source].id else CommittedBy(e.id))
            && (source !in m.stages && e.phase.Committed? ==> t.stages[source].stagedAt == e.phase.committedAt)
            && (!NeedsDestinationStage(m, e, remote) ==>
                  && t.gate == m.gate && t.stages - {source} == m.stages - {source}
                  && (p.Keep? <==> source in m.stages && source !in m.refs && source !in m.versions))
  {
    PreparedSourceIsExact(m, e, now);
  }

  /** And at a destination it has to stage: fenced and gated as the document has it, with nothing else changed. */
  lemma PreparationStagesTheDestination(m: Settled, e: Intent, remote: Remote, now: nat)
    requires !Prepare(m, e, remote, now).Refuse? && NeedsDestinationStage(m, e, remote)
    ensures var p, t, source, path := Prepare(m, e, remote, now), Prepare(m, e, remote, now).state, SourcePath(e), e.kind.newPath;
            && p.Write? && path in t.stages && t.stages[path].kind == Renaming
            && SameBlobRef(t.stages[path].ref, Some(remote.refs[path]))
            && t.stages[path].sourceVersion == At(remote.versions, path)
            && t.stages[path].id == (if path in m.stages then m.stages[path].id else RenamedBy(e.id))
            && (path !in m.stages && e.phase.Committed? ==> t.stages[path].stagedAt == e.phase.committedAt)
            && t.gate == m.gate + {path} && t.stages - {source} - {path} == m.stages - {source} - {path}
  {
    var live := At(remote.refs, e.kind.newPath);
    PreparedSourceIsExact(m, e, now);
    ClonePriorHashes(live);
    if e.kind.newPath in m.stages {
      CloneIsSame(m.stages[e.kind.newPath].ref, live);
    }
  }

  /** A prepared entry may leave exactly when it is a delete, or its destination is gone or settled and unfenced. */
  lemma PreparedIff(m: Settled, e: Intent, remote: Remote)
    ensures Prepared(m, e, remote) <==> !NeedsDestinationStage(m, e, remote)
  {
  }

  lemma PreparedSourceStays(m: Settled, e: Intent, now: nat, later: nat)
    requires SourcePath(e) in m.stages ==> RetireStageMatches(m, e)
    ensures RetireStageMatches(PrepareSource(m, e, now), e)
    ensures PrepareSource(PrepareSource(m, e, now), e, later) == PrepareSource(m, e, now)
  {
  }

  /** A repeated preparation against the same document changes nothing. */
  lemma PreparationIsIdempotent(m: Settled, e: Intent, remote: Remote, now: nat, later: nat)
    requires e.kind.Rename? ==> e.kind.oldPath != e.kind.newPath
    ensures Prepare(Prepare(m, e, remote, now).state, e, remote, later).state == Prepare(m, e, remote, now).state
    ensures Prepare(m, e, remote, now).Refuse? <==> Prepare(Prepare(m, e, remote, now).state, e, remote, later).Refuse?
  {
    var source := SourcePath(e);
    if Postcondition(e, remote) && (source in m.stages ==> RetireStageMatches(m, e)) {
      PreparedSourceStays(m, e, now, later);
      var m2 := Prepare(m, e, remote, now).state;
      assert PrepareSource(m2, e, later) == m2 by {
        assert m2.refs - {source} == m2.refs;
        assert m2.versions - {source} == m2.versions;
      }
      assert m2.gate + (if e.kind.Rename? && e.kind.newPath in m2.gate then {e.kind.newPath} else {}) == m2.gate;
    }
  }

  /** A preparation that does not refuse leaves the source fenced by a matching retire stage. */
  lemma PreparationFencesSource(m: Settled, e: Intent, remote: Remote, now: nat)
    requires !Prepare(m, e, remote, now).Refuse?
    ensures RetireStageMatches(Prepare(m, e, remote, now).state, e)
    ensures SourcePath(e) !in Prepare(m, e, remote, now).state.refs
    ensures SourcePath(e) !in Prepare(m, e, remote, now).state.versions
  {
  }

  // ---------------------------------------------------------------------------
  // Retiring a stuck episode
  // ---------------------------------------------------------------------------

  /** `decidePendingBlobIntentRetirement`. */
  datatype Disposition = Retain | AbsenceSettled | AuthorityMoved | StaleLocalEpisode

  function DecideRetirement(e: Intent, diskOccupied: bool, liveRef: bool): Disposition {
    if !diskOccupied then (if liveRef then AuthorityMoved else AbsenceSettled)
    else if e.phase.Attempted? then StaleLocalEpisode
    else Retain
  }

  predicate OwnStage(id: StageId, intent: nat) {
    id == CommittedBy(intent) || id == RenamedBy(intent)
  }

  /** Stages installed by the intent's own removal follow it; other retire stages survive. */
  function WithoutOwnStages(m: Settled, intent: nat): Settled {
    m.(stages := map p | p in m.stages && !OwnStage(m.stages[p].id, intent) :: m.stages[p])
  }

  function RetireEpisode(m: Settled, e: Intent, d: Disposition): Settled {
    var m1 := WithoutOwnStages(m, e.id);
    if d.AuthorityMoved? then m1.(gate := m1.gate + {SourcePath(e)}) else m1
  }

  /**
   * A retirement drops the stages of the entry's own removal and no other, gates
   * the source exactly when a live remote ref took it over, and leaves every
   * settlement alone.
   */
  lemma RetirementIsExact(m: Settled, e: Intent, d: Disposition)
    ensures var t := RetireEpisode(m, e, d);
            && t.refs == m.refs && t.versions == m.versions
            && (forall p :: p in t.stages <==>
                  p in m.stages && m.stages[p].id != CommittedBy(e.id) && m.stages[p].id != RenamedBy(e.id))
            && (forall p :: p in t.stages ==> t.stages[p] == m.stages[p])
            && t.gate == m.gate + if d == AuthorityMoved then {SourcePath(e)} else {}
  {
  }

  lemma PreparationAddsOwnStages(m: Settled, e: Intent, remote: Remote, now: nat, p: Path)
    ensures var t := Prepare(m, e, remote, now).state;
            && (p in m.stages ==> p in t.stages && t.stages[p] == m.stages[p])
            && (p !in m.stages && p in t.stages ==> OwnStage(t.stages[p].id, e.id))
  {
  }

  /** The stages a removal installs are those its retirement takes back. */
  lemma RetirementUndoesPreparation(m: Settled, e: Intent, remote: Remote, now: nat, d: Disposition)
    requires forall p :: p in m.stages ==> !OwnStage(m.stages[p].id, e.id)
    ensures RetireEpisode(Prepare(m, e, remote, now).state, e, d).stages == m.stages
  {
    var prepared := Prepare(m, e, remote, now).state;
    RetirementIsExact(prepared, e, d);
    forall p
      ensures p in RetireEpisode(prepared, e, d).stages <==> p in m.stages
      ensures p in m.stages ==> prepared.stages[p] == m.stages[p]
    {
      PreparationAddsOwnStages(m, e, remote, now, p);
    }
  }
}
