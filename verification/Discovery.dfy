/**
 * Discovery of attachments that were deleted while the plugin was inactive
 * (src/main.ts:2751-2924): what its two synchronous parts do to the settlement
 * state and the journal, for every list of candidates.
 */
module Discovery {
  import opened Wrappers
  import opened Authority
  import opened BlobRefs
  import opened Journal
  import opened Settlements

  /** A live ref at a path: present and not tombstoned. */
  predicate IsLiveRef(remote: Remote, path: Path) {
    path in remote.refs && path !in remote.tombstoned
  }

  // ---------------------------------------------------------------------------
  // Revivals of retired paths
  // ---------------------------------------------------------------------------

  predicate HasRetireStage(m: Settled, path: Path) {
    path in m.stages && m.stages[path].kind.Retire?
  }

  /** A retired path is gated exactly while it has a live revival; other paths keep their gate. */
  ghost predicate RevivalsAreGated(m: Settled, remote: Remote, m': Settled) {
    && m' == m.(gate := m'.gate)
    && forall p :: p in m'.gate <==> (if HasRetireStage(m, p) then IsLiveRef(remote, p) else p in m.gate)
  }

  // ---------------------------------------------------------------------------
  // Confirmed candidates
  // ---------------------------------------------------------------------------

  /** A settled path with what was settled there, and whether the second look at the disk found it missing. */
  datatype Candidate = Candidate(path: Path, ref: BlobRef, sourceVersion: Option<string>, missing: bool)

  /** What the synchronous loop sees: the document, the vault and the running operations. */
  datatype Surroundings = Surroundings(remote: Remote, occupied: set<Path>, inFlight: set<Path>, scope: Scope, now: nat)

  datatype Found = Found(mem: Settled, journal: seq<Intent>, nextId: nat, recorded: nat)

  predicate IsSkipped(st: Found, c: Candidate, v: Surroundings) {
    || !c.missing
    || c.path in v.occupied
    || c.path in v.inFlight
    || HasPath(st.journal, c.path, v.scope)
    || c.path in st.mem.stages
    || !SameBlobRef(At(st.mem.refs, c.path), Some(c.ref))
  }

  /** The live ref is exactly the one that was settled, in the same episode. */
  predicate IsUnchanged(c: Candidate, remote: Remote) {
    c.sourceVersion.Some? && c.sourceVersion == At(remote.versions, c.path) && SameBlobRef(At(remote.refs, c.path), Some(c.ref))
  }

  function DeleteBase(c: Candidate): MutationBase {
    MutationBase(true, Some(c.ref), true, c.sourceVersion)
  }

  function RetireStage(c: Candidate, name: string, now: nat): Stage {
    Stage(Random(name), Retire, CloneBlobRef(Some(c.ref)), c.sourceVersion, now)
  }

  /** One confirmed candidate; `name` is the random identity a new stage would get. */
  function Resolve(st: Found, c: Candidate, v: Surroundings, name: string): Found {
    if IsSkipped(st, c, v) then st
    else if !IsLiveRef(v.remote, c.path) then
      st.(mem := st.mem.(refs := st.mem.refs - {c.path}, versions := st.mem.versions - {c.path}))
    else if !IsUnchanged(c, v.remote) then
      st.(mem := st.mem.(stages := st.mem.stages[c.path := RetireStage(c, name, v.now)], gate := st.mem.gate + {c.path}))
    else
      st.(journal := RecordDelete(st.journal, c.path, v.scope, DeleteBase(c), st.nextId, v.now).entries,
          nextId := st.nextId + 1, recorded := st.recorded + 1)
  }

  function ResolveAll(st: Found, cs: seq<Candidate>, v: Surroundings, names: nat -> string): Found {
    if cs == [] then st
    else Resolve(ResolveAll(st, cs[..|cs| - 1], v, names), cs[|cs| - 1], v, names(|cs| - 1))
  }

  // ---------------------------------------------------------------------------
  // Recording a delete of a path nothing is journaled about
  // ---------------------------------------------------------------------------

  lemma NothingJournaled(j: seq<Intent>, path: Path, scope: Scope)
    requires !HasPath(j, path, scope)
    ensures ReadyRenameTo(j, scope, path).None? && ReadyDelete(j, scope, path).None?
  {
  }

  lemma {:induction false} KeepsRenamesElsewhere(j: seq<Intent>, path: Path, scope: Scope)
    requires !HasPath(j, path, scope)
    ensures WithoutReadyRenamesFrom(j, scope, path) == j
  {
    FilterKeepsAll(j, (e: Intent) => !(e.kind.Rename? && e.scope == scope && e.phase.Ready? && e.kind.oldPath == path));
  }

  /** Then the journal simply gains the delete, with the exact base it was given. */
  lemma FreshDeleteIsAppended(j: seq<Intent>, path: Path, scope: Scope, base: MutationBase, id: nat, at: nat)
    requires !HasPath(j, path, scope)
    ensures RecordDelete(j, path, scope, base, id, at).entries == j + [NewIntent(id, Delete(path), scope, base, at)]
  {
    NothingJournaled(j, path, scope);
    KeepsRenamesElsewhere(j, path, scope);
    assert CollapseChain(j, scope, path, base) == Collapsed(j, path, base);
  }

  // ---------------------------------------------------------------------------
  // Nothing is lost
  // ---------------------------------------------------------------------------

  /** What one candidate may do, path by path and entry by entry. */
  lemma ResolveIsExact(st: Found, c: Candidate, v: Surroundings, name: string)
    ensures var t := Resolve(st, c, v, name);
            && (forall p :: p != c.path ==> SameAt(st.mem, t.mem, p))
            && (c.path in st.mem.refs && c.path !in t.mem.refs ==> c.missing && !IsLiveRef(v.remote, c.path))
            && (forall p :: p in t.mem.refs ==> p in st.mem.refs && t.mem.refs[p] == st.mem.refs[p])
            && (t.journal == st.journal
                || (t.journal == st.journal + [NewIntent(st.nextId, Delete(c.path), v.scope, DeleteBase(c), v.now)]
                    && c.missing && IsLiveRef(v.remote, c.path) && IsUnchanged(c, v.remote)))
  {
    if !IsSkipped(st, c, v) && IsLiveRef(v.remote, c.path) && IsUnchanged(c, v.remote) {
      FreshDeleteIsAppended(st.journal, c.path, v.scope, DeleteBase(c), st.nextId, v.now);
    }
  }

  predicate SameAt(m: Settled, m': Settled, p: Path) {
    && At(m.refs, p) == At(m'.refs, p) && At(m.versions, p) == At(m'.versions, p)
    && At(m.stages, p) == At(m'.stages, p) && (p in m.gate <==> p in m'.gate)
  }

  /** A settled entry is dropped only when a candidate confirmed it missing and its ref is absent or tombstoned. */
  lemma {:induction false} DroppedOnlyWhenGone(st: Found, cs: seq<Candidate>, v: Surroundings, names: nat -> string, p: Path)
    requires p in st.mem.refs && p !in ResolveAll(st, cs, v, names).mem.refs
    ensures !IsLiveRef(v.remote, p)
    ensures exists c :: c in cs && c.path == p && c.missing
    decreases |cs|
  {
    if cs != [] {
      var n := |cs| - 1;
      var before := ResolveAll(st, cs[..n], v, names);
      ResolveIsExact(before, cs[n], v, names(n));
      if p !in before.mem.refs {
        DroppedOnlyWhenGone(st, cs[..n], v, names, p);
      } else {
        assert cs[n] in cs && cs[n].path == p;
      }
    }
  }

  /** A delete is journaled only for a confirmed candidate whose live ref and source version match exactly. */
  lemma {:induction false} JournaledOnlyWhenExact(st: Found, cs: seq<Candidate>, v: Surroundings, names: nat -> string, e: Intent)
    requires e in ResolveAll(st, cs, v, names).journal && e !in st.journal
    ensures exists c :: c in cs && c.missing && IsLiveRef(v.remote, c.path) && IsUnchanged(c, v.remote)
                        && e.kind == Delete(c.path) && e.scope == v.scope && e.phase.Ready?
                        && e.expectedSourceRef == CloneBlobRef(Some(c.ref)) && e.expectedSourceVersion == c.sourceVersion
    decreases |cs|
  {
    if cs != [] {
      var n := |cs| - 1;
      var before := ResolveAll(st, cs[..n], v, names);
      ResolveIsExact(before, cs[n], v, names(n));
      if e !in before.journal {
        assert cs[n] in cs;
      } else {
        JournaledOnlyWhenExact(st, cs[..n], v, names, e);
      }
    }
  }

  /** Entries journaled before discovery stay. */
  lemma {:induction false} JournalOnlyGrows(st: Found, cs: seq<Candidate>, v: Surroundings, names: nat -> string)
    ensures st.journal <= ResolveAll(st, cs, v, names).journal
    decreases |cs|
  {
    if cs != [] {
      var n := |cs| - 1;
      var before := ResolveAll(st, cs[..n], v, names);
      JournalOnlyGrows(st, cs[..n], v, names);
      ResolveIsExact(before, cs[n], v, names(n));
    }
  }

  /** Each candidate journaled is counted once, under an identity of its own. */
  lemma {:induction false} RecordedCountsDeletes(st: Found, cs: seq<Candidate>, v: Surroundings, names: nat -> string)
    ensures var t := ResolveAll(st, cs, v, names);
            t.recorded - st.recorded == t.nextId - st.nextId == |t.journal| - |st.journal|
    decreases |cs|
  {
    if cs != [] {
      var n := |cs| - 1;
      var before := ResolveAll(st, cs[..n], v, names);
      RecordedCountsDeletes(st, cs[..n], v, names);
      if !IsSkipped(before, cs[n], v) {
        FreshDeleteIsAppended(before.journal, cs[n].path, v.scope, DeleteBase(cs[n]), before.nextId, v.now);
      }
    }
  }

  /** Candidates come from a map, so no two share a path. */
  predicate DistinctPaths(cs: seq<Candidate>) {
    forall i, k :: 0 <= i < k < |cs| ==> cs[i].path != cs[k].path
  }

  predicate IsElsewhere(cs: seq<Candidate>, p: Path) {
    forall i :: 0 <= i < |cs| ==> cs[i].path != p
  }

  /** What no candidate names is left alone. */
  lemma {:induction false} OtherPathsAreUntouched(st: Found, cs: seq<Candidate>, v: Surroundings, names: nat -> string, p: Path)
    requires IsElsewhere(cs, p)
    ensures SameAt(st.mem, ResolveAll(st, cs, v, names).mem, p)
    ensures HasPath(st.journal, p, v.scope) <==> HasPath(ResolveAll(st, cs, v, names).journal, p, v.scope)
    decreases |cs|
  {
    if cs != [] {
      var n := |cs| - 1;
      var before := ResolveAll(st, cs[..n], v, names);
      OtherPathsAreUntouched(st, cs[..n], v, names, p);
      ResolveIsExact(before, cs[n], v, names(n));
      AppendedElsewhere(before.journal, NewIntent(before.nextId, Delete(cs[n].path), v.scope, DeleteBase(cs[n]), v.now), p,
                        v.scope);
    }
  }

  lemma AppendedElsewhere(j: seq<Intent>, e: Intent, p: Path, scope: Scope)
    requires e.kind.Delete? && e.kind.path != p
    ensures HasPath(j + [e], p, scope) <==> HasPath(j, p, scope)
  {
  }

  /** The four ways a candidate can end. */
  datatype Fate = Untouched | Dropped | Staged | Journaled

  function FateOf(st: Found, c: Candidate, v: Surroundings): Fate {
    if IsSkipped(st, c, v) then Untouched
    else if !IsLiveRef(v.remote, c.path) then Dropped
    else if !IsUnchanged(c, v.remote) then Staged
    else Journaled
  }

  /** Something of the scope speaks for the path: a source, or the destination of a rename that is not committed. */
  ghost predicate IsSpokenFor(j: seq<Intent>, path: Path, scope: Scope) {
    exists e :: e in j && e.scope == scope && (path == SourcePath(e) || (path in Paths(e) && !e.phase.Committed?))
  }

  /** A candidate counts: still missing, nothing else deals with its path, and it is settled there as it was. */
  ghost predicate IsCandidateStill(st: Found, c: Candidate, v: Surroundings) {
    && c.missing && c.path !in v.occupied && c.path !in v.inFlight && !IsSpokenFor(st.journal, c.path, v.scope)
    && c.path !in st.mem.stages && c.path in st.mem.refs && SameBlobRef(Some(st.mem.refs[c.path]), Some(c.ref))
  }

  /** The document still has the candidate live at the ref and the version it was settled at. */
  predicate IsLiveAsSettled(c: Candidate, remote: Remote) {
    && c.path in remote.refs && c.path !in remote.tombstoned && SameBlobRef(Some(remote.refs[c.path]), Some(c.ref))
    && c.path in remote.versions && c.sourceVersion == Some(remote.versions[c.path])
  }

  /** What decides the fate of a candidate. */
  lemma FateIff(st: Found, c: Candidate, v: Surroundings)
    ensures FateOf(st, c, v).Untouched? <==> !IsCandidateStill(st, c, v)
    ensures FateOf(st, c, v).Dropped? <==>
              IsCandidateStill(st, c, v) && (c.path !in v.remote.refs || c.path in v.remote.tombstoned)
    ensures FateOf(st, c, v).Journaled? <==> IsCandidateStill(st, c, v) && IsLiveAsSettled(c, v.remote)
  {
    assert HasPath(st.journal, c.path, v.scope) <==> IsSpokenFor(st.journal, c.path, v.scope) by {
      if e :| e in st.journal && e.scope == v.scope && match e.kind
                                                       case Delete(p) => p == c.path
                                                       case Rename(o, n) => o == c.path || (!e.phase.Committed? && n == c.path) {
        assert c.path == SourcePath(e) || (c.path in Paths(e) && !e.phase.Committed?);
      }
    }
  }

  /** A journaled delete with exactly the base the candidate was settled at. */
  predicate HasDelete(j: seq<Intent>, c: Candidate, scope: Scope) {
    exists e :: e in j && e.kind == Delete(c.path) && e.scope == scope
                && e.expectedSourceRef == CloneBlobRef(Some(c.ref)) && e.expectedSourceVersion == c.sourceVersion
  }

  /** What the fate of a candidate means for the state afterwards. */
  predicate HasFate(st: Found, t: Found, c: Candidate, v: Surroundings) {
    match FateOf(st, c, v)
    case Untouched => SameAt(st.mem, t.mem, c.path)
    case Dropped =>
      && c.path !in t.mem.refs && c.path !in t.mem.versions && c.path !in t.mem.stages
      && (c.path in t.mem.gate <==> c.path in st.mem.gate)
    case Staged =>
      && HasRetireStage(t.mem, c.path) && c.path in t.mem.gate
      && SameBlobRef(t.mem.stages[c.path].ref, Some(c.ref)) && t.mem.stages[c.path].sourceVersion == c.sourceVersion
      && t.mem.stages[c.path].id.Random? && t.mem.stages[c.path].stagedAt == v.now
      && At(t.mem.refs, c.path) == At(st.mem.refs, c.path) && At(t.mem.versions, c.path) == At(st.mem.versions, c.path)
    case Journaled => HasDelete(t.journal, c, v.scope) && SameAt(st.mem, t.mem, c.path)
  }

  lemma ResolveGivesFate(st: Found, c: Candidate, v: Surroundings, name: string)
    ensures HasFate(st, Resolve(st, c, v, name), c, v)
  {
    ClonePriorHashes(Some(c.ref));
    if FateOf(st, c, v) == Journaled {
      FreshDeleteIsAppended(st.journal, c.path, v.scope, DeleteBase(c), st.nextId, v.now);
      var e := NewIntent(st.nextId, Delete(c.path), v.scope, DeleteBase(c), v.now);
      assert e in st.journal + [e];
    }
  }

  /** A state in which the path of a candidate is as it was decides about it the same way. */
  lemma FateDependsOnItsPath(st: Found, u: Found, c: Candidate, v: Surroundings)
    requires SameAt(st.mem, u.mem, c.path)
    requires HasPath(st.journal, c.path, v.scope) <==> HasPath(u.journal, c.path, v.scope)
    ensures FateOf(u, c, v) == FateOf(st, c, v)
  {
  }

  /**
   * Discovery loses nothing: every candidate ends as the state before discovery
   * decided. In particular every settled path whose file is confirmed missing and
   * whose live ref changed ends staged for retirement and gated from download, and
   * every one whose live ref is unchanged ends journaled.
   */
  lemma {:induction false} EveryCandidateMeetsItsFate(st: Found, cs: seq<Candidate>, v: Surroundings, names: nat -> string, i: nat)
    requires DistinctPaths(cs) && i < |cs|
    ensures HasFate(st, ResolveAll(st, cs, v, names), cs[i], v)
    decreases |cs|
  {
    var n := |cs| - 1;
    var before := ResolveAll(st, cs[..n], v, names);
    var t := ResolveAll(st, cs, v, names);
    if i == n {
      OtherPathsAreUntouched(st, cs[..n], v, names, cs[n].path);
      FateDependsOnItsPath(st, before, cs[n], v);
      ResolveGivesFate(before, cs[n], v, names(n));
    } else {
      EveryCandidateMeetsItsFate(st, cs[..n], v, names, i);
      ResolveIsExact(before, cs[n], v, names(n));
      assert SameAt(before.mem, t.mem, cs[i].path);
      JournalGrowthKeepsDeletes(before.journal, t.journal, cs[i], v.scope);
    }
  }

  lemma JournalGrowthKeepsDeletes(j: seq<Intent>, j': seq<Intent>, c: Candidate, scope: Scope)
    requires j <= j'
    ensures HasDelete(j, c, scope) ==> HasDelete(j', c, scope)
  {
  }
}
