/**
 * What the journal owes the server after each of its operations
 * (src/sync/pendingBlobIntentJournal.ts:390-616), said without its code: which
 * mutation is owed, on which base, and in which phase.
 */
module OwedMutations {
  import opened Wrappers
  import opened Authority
  import opened BlobRefs
  import opened Journal

  /** The entry was recorded on that base. */
  predicate CarriesBase(e: Intent, base: MutationBase) {
    && e.baseRefKnown == base.known
    && (if base.known then SameBlobRef(e.expectedSourceRef, base.ref) else e.expectedSourceRef == None)
    && e.sourceVersionKnown == base.sourceVersionKnown
    && e.expectedSourceVersion == if base.sourceVersionKnown then base.expectedSourceVersion else None
  }

  lemma NewIntentCarriesBase(id: nat, kind: Kind, scope: Scope, base: MutationBase, at: nat)
    ensures var e := NewIntent(id, kind, scope, base, at);
            && CarriesBase(e, base) && CarriesBase(e, BaseOf(e)) && e.id == id && e.kind == kind && e.scope == scope
            && e.recordedAt == at && e.phase == Ready
  {
    ClonePriorHashes(base.ref);
    ClonePriorHashes(CloneBlobRef(base.ref));
    SameBlobRefIsEquivalence(base.ref, base.ref, base.ref);
  }

  /** A path is spoken for by the source of an entry, and by the destination of a rename that is not committed. */
  lemma HasPathIff(j: seq<Intent>, path: Path, scope: Scope)
    ensures HasPath(j, path, scope) <==>
              exists e :: e in j && e.scope == scope
                          && (path == SourcePath(e) || (path in Paths(e) && !e.phase.Committed?))
  {
    if HasPath(j, path, scope) {
      var e :| e in j && e.scope == scope && match e.kind
                                             case Delete(p) => p == path
                                             case Rename(o, n) => o == path || (!e.phase.Committed? && n == path);
      assert path == SourcePath(e) || (path in Paths(e) && !e.phase.Committed?);
    }
  }

  // ---------------------------------------------------------------------------
  // Phases
  // ---------------------------------------------------------------------------

  /** The entry of that identity is now in that phase, and everything else about the journal is as it was. */
  ghost predicate MovesTo(j: seq<Intent>, j': seq<Intent>, id: nat, next: Phase) {
    && (exists e :: e in j && e.id == id && e.(phase := next) in j')
    && (forall e :: e in j' && e.id == id ==> e.phase == next)
    && (forall e: Intent :: e.id != id ==> (e in j' <==> e in j))
  }

  lemma MarkMoves(j: seq<Intent>, id: nat, expected: Phase -> bool, next: Phase)
    requires DistinctIds(j)
    ensures Mark(j, id, expected, next).ok <==> exists e :: e in j && e.id == id && expected(e.phase)
    ensures Mark(j, id, expected, next).ok ==> MovesTo(j, Mark(j, id, expected, next).entries, id, next)
    ensures !Mark(j, id, expected, next).ok ==> Mark(j, id, expected, next).entries == j
  {
    if Mark(j, id, expected, next).ok {
      MarkIsExact(j, id, expected, next);
      var e := EntryById(j, id).value;
      assert e in j && e.id == id && expected(e.phase);
    } else if e :| e in j && e.id == id && expected(e.phase) {
      EntryIsUnique(j, e, EntryById(j, id).value);
    }
  }

  /** A ready entry, and no other, becomes attempted, under that attempt, time and session. */
  lemma AttemptIsRecorded(j: seq<Intent>, id: nat, attempt: nat, at: nat, session: string)
    requires DistinctIds(j)
    ensures var r := MarkCommitAttempted(j, id, attempt, at, session);
            && (r.ok <==> session != "" && exists e :: e in j && e.id == id && e.phase == Ready)
            && (r.ok ==> exists next :: MovesTo(j, r.entries, id, next) && next.Attempted? && next.attempt == attempt
                                        && next.attemptedAt == at && next.attemptSession == session)
            && (!r.ok ==> r.entries == j)
  {
    MarkMoves(j, id, IsReady(), Attempted(attempt, at, session));
  }

  /** Exactly the attempt named becomes ready again. */
  lemma AttemptIsCleared(j: seq<Intent>, id: nat, attempt: nat)
    requires DistinctIds(j)
    ensures var r := ClearCommitAttempt(j, id, attempt);
            && (r.ok <==> exists e :: e in j && e.id == id && e.phase.Attempted? && e.phase.attempt == attempt)
            && (r.ok ==> MovesTo(j, r.entries, id, Ready)) && (!r.ok ==> r.entries == j)
  {
    MarkMoves(j, id, IsAttempt(attempt), Ready);
  }

  /** Exactly the attempt named is committed, with the receipt candidate and the delete fingerprint given, each in its place. */
  lemma CommitIsRecorded(j: seq<Intent>, id: nat, attempt: nat, at: nat, session: string,
                         receipt: Option<string>, fingerprint: Option<string>)
    requires DistinctIds(j)
    ensures var r := MarkCommittedFromAttempt(j, id, attempt, at, session, receipt, fingerprint);
            && (r.ok <==> session != "" && receipt != Some("") && fingerprint != Some("")
                          && exists e :: e in j && e.id == id && e.phase.Attempted? && e.phase.attempt == attempt)
            && (r.ok ==> exists next :: MovesTo(j, r.entries, id, next) && next.Committed? && next.committedAt == at
                                        && next.commitSession == session && next.receipt == receipt
                                        && next.fingerprint == fingerprint)
            && (!r.ok ==> r.entries == j)
  {
    MarkMoves(j, id, IsAttempt(attempt), Committed(at, session, receipt, fingerprint));
  }

  // ---------------------------------------------------------------------------
  // Recording a delete
  // ---------------------------------------------------------------------------

  /** A rename of the scope that may still be rewritten. */
  predicate IsReadyRename(e: Intent, scope: Scope) {
    e.kind.Rename? && e.phase == Ready && e.scope == scope
  }

  /** Where a chain of ready renames that ends in `path` began, and on which base. */
  ghost predicate IsOrigin(j: seq<Intent>, scope: Scope, path: Path, base: MutationBase, origin: Path, originBase: MutationBase) {
    if forall e :: e in j && IsReadyRename(e, scope) ==> e.kind.newPath != path then origin == path && originBase == base
    else exists e :: e in j && IsReadyRename(e, scope) && e.kind.oldPath == origin && originBase == BaseOf(e)
  }

  lemma CollapseGoesOn(j: seq<Intent>, scope: Scope, path: Path, base: MutationBase)
    requires ReadyRenameTo(j, scope, path).Some?
    ensures var r := ReadyRenameTo(j, scope, path).value;
            CollapseChain(j, scope, path, base) == CollapseChain(Remove(j, r.id), scope, r.kind.oldPath, BaseOf(r))
  {
    FoundHasId(j, ReadyRenameTo(j, scope, path).value);
  }

  lemma {:induction false} CollapseEnds(j: seq<Intent>, scope: Scope, path: Path, base: MutationBase)
    requires DistinctIds(j)
    ensures var c := CollapseChain(j, scope, path, base);
            && IsOrigin(j, scope, path, base, c.path, c.base)
            && (forall e :: e in c.entries ==> e in j)
            && (forall e :: e in c.entries && IsReadyRename(e, scope) ==> e.kind.newPath != c.path)
            && (forall e :: e in j && e !in c.entries ==> IsReadyRename(e, scope))
    decreases |j|
  {
    var r := ReadyRenameTo(j, scope, path);
    if r.Some? {
      FoundHasId(j, r.value);
      RemoveIsExact(j, r.value.id);
      CollapseGoesOn(j, scope, path, base);
      CollapseEnds(Remove(j, r.value.id), scope, r.value.kind.oldPath, BaseOf(r.value));
      forall e | e in j && e.id == r.value.id
        ensures e == r.value
      {
        EntryIsUnique(j, e, r.value);
      }
    }
  }

  lemma FoundDelete(j: seq<Intent>, scope: Scope, path: Path)
    ensures ReadyDelete(j, scope, path).Some? <==>
              exists d :: d in j && d.kind == Delete(path) && d.phase == Ready && d.scope == scope
  {
  }

  /**
   * Recording a delete owes the server the deletion of the place the file had when
   * its chain of ready renames began: one ready delete of it is journaled, an older
   * one or a new one on the base that place had; and only ready renames of the
   * scope are dropped for it.
   */
  lemma DeleteIsOwed(j: seq<Intent>, path: Path, scope: Scope, base: MutationBase, id: nat, at: nat)
    requires DistinctIds(j)
    ensures var r := RecordDelete(j, path, scope, base, id, at);
            && r.intent.Some? && r.intent.value in r.entries
            && var d := r.intent.value;
               && d.kind.Delete? && d.phase == Ready && d.scope == scope
               && (exists originBase :: IsOrigin(j, scope, path, base, d.kind.path, originBase)
                                        && (d in j || (d.id == id && d.recordedAt == at && CarriesBase(d, originBase))))
               && (forall e :: e in r.entries && IsReadyRename(e, scope) ==> e.kind.newPath != d.kind.path)
               && (d !in j ==> forall e :: e in r.entries && IsReadyRename(e, scope) ==> e.kind.oldPath != d.kind.path)
               && (forall e :: e in j && e !in r.entries ==> IsReadyRename(e, scope))
               && (forall e :: e in r.entries && e !in j ==> e == d)
  {
    var c := CollapseChain(j, scope, path, base);
    CollapseEnds(j, scope, path, base);
    if ReadyDelete(c.entries, scope, c.path).None? {
      NewIntentCarriesBase(id, Delete(c.path), scope, c.base, at);
    }
  }

  // ---------------------------------------------------------------------------
  // Recording a rename
  // ---------------------------------------------------------------------------

  /** The ready rename that a rename of `oldPath` continues: the one that moved the file there, else one from there. */
  ghost predicate IsContinued(j: seq<Intent>, scope: Scope, oldPath: Path, x: Intent) {
    && x in j && IsReadyRename(x, scope)
    && (x.kind.newPath == oldPath
        || (x.kind.oldPath == oldPath && forall e :: e in j && IsReadyRename(e, scope) ==> e.kind.newPath != oldPath))
  }

  ghost predicate IsOwedElsewhere(j: seq<Intent>, scope: Scope, oldPath: Path, newPath: Path) {
    || oldPath == "" || newPath == "" || oldPath == newPath
    || exists d :: d in j && d.kind == Delete(oldPath) && d.phase == Ready && d.scope == scope
  }

  /** The continued rename is dropped when it leads back to its origin, and moves on from its origin otherwise, on its own base. */
  ghost predicate Continues(j: seq<Intent>, j': seq<Intent>, x: Intent, newPath: Path, at: nat)
    requires x.kind.Rename?
  {
    && (forall e: Intent :: e.id != x.id ==> (e in j' <==> e in j))
    && (forall e :: e in j' && e.id == x.id ==>
          x.kind.oldPath != newPath && e == x.(kind := Rename(x.kind.oldPath, newPath), recordedAt := at))
    && (x.kind.oldPath != newPath ==> x.(kind := Rename(x.kind.oldPath, newPath), recordedAt := at) in j')
  }

  /**
   * A rename is owed elsewhere or meaningless and changes nothing, or continues a
   * ready rename, or is owed as it is on its base.
   */
  lemma RenameIsOwed(j: seq<Intent>, oldPath: Path, newPath: Path, scope: Scope, base: MutationBase, id: nat, at: nat)
    requires DistinctIds(j)
    ensures var j' := RecordRename(j, oldPath, newPath, scope, base, id, at).entries;
            && (IsOwedElsewhere(j, scope, oldPath, newPath) ==> j' == j)
            && (!IsOwedElsewhere(j, scope, oldPath, newPath) ==>
                  || (exists x :: IsContinued(j, scope, oldPath, x) && Continues(j, j', x, newPath, at))
                  || (&& (forall x :: !IsContinued(j, scope, oldPath, x))
                      && |j'| == |j| + 1 && j'[..|j|] == j
                      && var e := j'[|j|];
                         && e.kind == Rename(oldPath, newPath) && e.phase == Ready && e.scope == scope && e.id == id
                         && e.recordedAt == at && CarriesBase(e, base)))
  {
    FoundDelete(j, scope, oldPath);
    if !IsOwedElsewhere(j, scope, oldPath, newPath) {
      var chained := ReadyRenameTo(j, scope, oldPath);
      var existing := if chained.Some? then chained else ReadyRenameFrom(j, scope, oldPath);
      if existing.Some? {
        assert IsContinued(j, scope, oldPath, existing.value);
        ContinuationIsRecorded(j, oldPath, newPath, scope, base, id, at);
        ContinuedRename(j, existing.value, newPath, at);
      } else {
        NewIntentCarriesBase(id, Rename(oldPath, newPath), scope, base, at);
      }
    }
  }

  lemma ContinuationIsRecorded(j: seq<Intent>, oldPath: Path, newPath: Path, scope: Scope, base: MutationBase, id: nat, at: nat)
    requires !IsOwedElsewhere(j, scope, oldPath, newPath)
    requires ReadyRenameTo(j, scope, oldPath).Some? || ReadyRenameFrom(j, scope, oldPath).Some?
    ensures var to := ReadyRenameTo(j, scope, oldPath);
            var x := if to.Some? then to.value else ReadyRenameFrom(j, scope, oldPath).value;
            RecordRename(j, oldPath, newPath, scope, base, id, at).entries
            == if x.kind.oldPath == newPath then Remove(j, x.id)
               else Replace(j, x.(kind := Rename(x.kind.oldPath, newPath), recordedAt := at))
  {
    FoundDelete(j, scope, oldPath);
  }

  lemma ContinuedRename(j: seq<Intent>, x: Intent, newPath: Path, at: nat)
    requires DistinctIds(j) && x in j && x.kind.Rename?
    ensures x.kind.oldPath == newPath ==> Continues(j, Remove(j, x.id), x, newPath, at)
    ensures x.kind.oldPath != newPath ==>
              Continues(j, Replace(j, x.(kind := Rename(x.kind.oldPath, newPath), recordedAt := at)), x, newPath, at)
  {
    RemoveIsExact(j, x.id);
    FoundHasId(j, x);
    ReplaceContents(j, x.(kind := Rename(x.kind.oldPath, newPath), recordedAt := at));
    RemovedIsGone(j, x.id);
  }

  lemma RemovedIsGone(j: seq<Intent>, id: nat)
    requires !HasId(Remove(j, id), id)
    ensures forall e :: e in Remove(j, id) ==> e.id != id
  {
  }
}
