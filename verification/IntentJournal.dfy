/**
 * The in-memory journal object of pending attachment intents
 * (src/sync/pendingBlobIntentJournal.ts:292-560). Each method changes the entry
 * list in place and is proved against the journal functions.
 */
module IntentJournal {
  import opened Wrappers
  import opened Authority
  import opened BlobRefs
  import opened Journal

  // ---------------------------------------------------------------------------
  // Positions
  // ---------------------------------------------------------------------------

  /** `Array.prototype.findIndex`. */
  function FindIndex(j: seq<Intent>, p: Intent -> bool): (r: Option<nat>)
    ensures r.Some? ==> r.value < |j| && p(j[r.value]) && forall i :: 0 <= i < r.value ==> !p(j[i])
    ensures r.None? ==> forall i :: 0 <= i < |j| ==> !p(j[i])
  {
    if j == [] then None
    else if p(j[0]) then Some(0)
    else
      var rest := FindIndex(j[1..], p);
      if rest.None? then None else Some(rest.value + 1)
  }

  lemma {:induction false} FindIsAtIndex(j: seq<Intent>, p: Intent -> bool)
    ensures Find(j, p) == var i := FindIndex(j, p); if i.Some? then Some(j[i.value]) else None
  {
    if j != [] && !p(j[0]) {
      FindIsAtIndex(j[1..], p);
    }
  }

  /** Splicing out the entry at its index removes it. */
  lemma {:induction false} RemoveIsSplice(j: seq<Intent>, i: nat)
    requires i < |j| && forall k :: 0 <= k < i ==> j[k].id != j[i].id
    ensures Remove(j, j[i].id) == j[..i] + j[i + 1..]
  {
    if i > 0 {
      RemoveIsSplice(j[1..], i - 1);
      SpliceOfRest(j, i);
    }
  }

  lemma SpliceOfRest(j: seq<Intent>, i: nat)
    requires 0 < i < |j|
    ensures j[1..][i - 1] == j[i] && j[..i] + j[i + 1..] == [j[0]] + (j[1..][..i - 1] + j[1..][i..])
  {
  }

  lemma {:induction false} RemoveMissing(j: seq<Intent>, id: nat)
    requires !HasId(j, id)
    ensures Remove(j, id) == j
  {
    if j != [] {
      assert j[0] in j;
      assert forall e :: e in j[1..] ==> e in j;
      RemoveMissing(j[1..], id);
    }
  }

  lemma NoEarlierId(j: seq<Intent>, i: nat)
    requires DistinctIds(j) && i < |j|
    ensures forall k :: 0 <= k < i ==> j[k].id != j[i].id
  {
  }

  // ---------------------------------------------------------------------------
  // The journal
  // ---------------------------------------------------------------------------

  class PendingBlobIntentJournal {
    var entries: seq<Intent>

    ghost predicate Valid()
      reads this
    {
      DistinctIds(entries)
    }

    constructor ()
      ensures Valid() && entries == []
    {
      entries := [];
    }

    method Hydrate(loaded: seq<Intent>)
      modifies this
      ensures entries == loaded && (Valid() <==> DistinctIds(loaded))
    {
      entries := loaded;
    }

    method Remove(id: nat) returns (removed: bool)
      requires Valid()
      modifies this
      ensures Valid() && entries == Journal.Remove(old(entries), id)
      ensures removed <==> HasId(old(entries), id)
    {
      RemoveIsExact(entries, id);
      var i := FindIndex(entries, (e: Intent) => e.id == id);
      if i.None? {
        RemoveMissing(entries, id);
        return false;
      }
      NoEarlierId(entries, i.value);
      RemoveIsSplice(entries, i.value);
      assert entries[i.value] in entries;
      entries := entries[..i.value] + entries[i.value + 1..];
      return true;
    }

    method Restore(intent: Intent)
      requires Valid()
      modifies this
      ensures Valid() && entries == Journal.Restore(old(entries), intent)
    {
      if HasId(entries, intent.id) {
        return;
      }
      AppendKeepsDistinct(entries, intent);
      entries := entries + [intent];
    }

    /** Deleting the target of a chain of ready renames deletes its origin. */
    method RecordDelete(path: Path, scope: Scope, base: MutationBase, id: nat, at: nat) returns (intent: Intent)
      requires Valid() && !HasId(entries, id)
      modifies this
      ensures Valid()
      ensures Recorded(entries, Some(intent)) == Journal.RecordDelete(old(entries), path, scope, base, id, at)
    {
      var target, effective := path, base;
      ghost var start := entries;
      while true
        invariant Valid() && !HasId(entries, id)
        invariant CollapseChain(entries, scope, target, effective) == CollapseChain(start, scope, path, base)
        decreases |entries|
      {
        var rename := ReadyRenameTo(entries, scope, target);
        if rename.None? {
          break;
        }
        FoundHasId(entries, rename.value);
        target, effective := rename.value.kind.oldPath, BaseOf(rename.value);
        var _ := Remove(rename.value.id);
      }
      var existing := ReadyDelete(entries, scope, target);
      if existing.Some? {
        return existing.value;
      }
      RecordDeleteTouchesOnlyReady(start, path, scope, base, id, at);
      entries := WithoutReadyRenamesFrom(entries, scope, target);
      intent := NewIntent(id, Delete(target), scope, effective, at);
      entries := entries + [intent];
    }

    method RecordRename(oldPath: Path, newPath: Path, scope: Scope, base: MutationBase, id: nat, at: nat)
      returns (intent: Option<Intent>)
      requires Valid() && !HasId(entries, id)
      modifies this
      ensures Valid()
      ensures Recorded(entries, intent) == Journal.RecordRename(old(entries), oldPath, newPath, scope, base, id, at)
    {
      RecordRenameTouchesOnlyReady(entries, oldPath, newPath, scope, base, id, at);
      if oldPath == "" || newPath == "" || oldPath == newPath {
        return None;
      }
      if ReadyDelete(entries, scope, oldPath).Some? {
        return None;
      }
      var existing := ReadyRenameTo(entries, scope, oldPath);
      if existing.None? {
        existing := ReadyRenameFrom(entries, scope, oldPath);
      }
      if existing.None? {
        var added := NewIntent(id, Rename(oldPath, newPath), scope, base, at);
        entries := entries + [added];
        return Some(added);
      }
      if existing.value.kind.oldPath == newPath {
        var _ := Remove(existing.value.id);
        return None;
      }
      var moved := existing.value.(kind := Rename(existing.value.kind.oldPath, newPath), recordedAt := at);
      Assign(existing.value, moved);
      return Some(moved);
    }

    /** Field assignments on a journaled entry. */
    method Assign(e: Intent, changed: Intent)
      requires Valid() && e in entries && changed.id == e.id
      modifies this
      ensures Valid() && entries == Replace(old(entries), changed)
    {
      var i := FindIndex(entries, (d: Intent) => d.id == e.id);
      ReplaceIsUpdate(entries, i.value, changed);
      entries := entries[i.value := changed];
    }

    /** The common part of the marks: only an entry in the expected phase changes, and only its phase. */
    method SetPhase(id: nat, expected: Phase -> bool, next: Phase) returns (ok: bool)
      requires Valid()
      modifies this
      ensures Valid() && Marked(entries, ok) == Mark(old(entries), id, expected, next)
    {
      var e := EntryById(entries, id);
      if e.None? || !expected(e.value.phase) {
        return false;
      }
      Assign(e.value, e.value.(phase := next));
      return true;
    }

    method MarkCommitAttempted(id: nat, attempt: nat, at: nat, session: string) returns (ok: bool)
      requires Valid()
      modifies this
      ensures Valid() && Marked(entries, ok) == Journal.MarkCommitAttempted(old(entries), id, attempt, at, session)
    {
      if session == "" {
        return false;
      }
      ok := SetPhase(id, IsReady(), Attempted(attempt, at, session));
    }

    method ClearCommitAttempt(id: nat, attempt: nat) returns (ok: bool)
      requires Valid()
      modifies this
      ensures Valid() && Marked(entries, ok) == Journal.ClearCommitAttempt(old(entries), id, attempt)
    {
      ok := SetPhase(id, IsAttempt(attempt), Ready);
    }

    method MarkCommittedFromAttempt(id: nat, attempt: nat, at: nat, session: string,
                                    receipt: Option<string>, fingerprint: Option<string>) returns (ok: bool)
      requires Valid()
      modifies this
      ensures Valid()
      ensures Marked(entries, ok)
              == Journal.MarkCommittedFromAttempt(old(entries), id, attempt, at, session, receipt, fingerprint)
    {
      if session == "" || receipt == Some("") || fingerprint == Some("") {
        return false;
      }
      ok := SetPhase(id, IsAttempt(attempt), Committed(at, session, receipt, fingerprint));
    }
  }

  // ---------------------------------------------------------------------------
  // What recording means for the paths a scope still owes the server
  // ---------------------------------------------------------------------------

  /** A stale continuation cannot clear or commit a newer attempt. */
  lemma OnlyTheExactAttemptMoves(j: seq<Intent>, id: nat, attempt: nat, at: nat, session: string,
                                 receipt: Option<string>, fingerprint: Option<string>)
    ensures ClearCommitAttempt(j, id, attempt).ok || MarkCommittedFromAttempt(j, id, attempt, at, session, receipt, fingerprint).ok
            ==> exists e :: e in j && e.id == id && e.phase.Attempted? && e.phase.attempt == attempt
  {
  }

  lemma MarkAtIndex(j: seq<Intent>, i: nat, expected: Phase -> bool, next: Phase)
    requires DistinctIds(j) && i < |j| && expected(j[i].phase)
    ensures Mark(j, j[i].id, expected, next) == Marked(j[i := j[i].(phase := next)], true)
  {
  }

  /** An attempt that is cleared leaves the entry exactly as it was before it was marked. */
  lemma ClearingUndoesMarking(j: seq<Intent>, id: nat, attempt: nat, at: nat, session: string)
    requires DistinctIds(j) && MarkCommitAttempted(j, id, attempt, at, session).ok
    ensures ClearCommitAttempt(MarkCommitAttempted(j, id, attempt, at, session).entries, id, attempt) == Marked(j, true)
  {
    var e := EntryById(j, id).value;
    var i :| 0 <= i < |j| && j[i] == e;
    var marked := j[i := e.(phase := Attempted(attempt, at, session))];
    MarkAtIndex(j, i, IsReady(), Attempted(attempt, at, session));
    MarkAtIndex(marked, i, IsAttempt(attempt), Ready);
    assert marked[i := e] == j;
  }

  lemma {:induction false} FindAppended(j: seq<Intent>, e: Intent, p: Intent -> bool)
    ensures Find(j + [e], p) == if Find(j, p).Some? then Find(j, p) else if p(e) then Some(e) else None
  {
    if j != [] {
      assert (j + [e])[1..] == j[1..] + [e];
      FindAppended(j[1..], e, p);
    } else {
      assert (j + [e])[1..] == [];
    }
  }

  lemma {:induction false} RemoveAppended(j: seq<Intent>, e: Intent)
    requires !HasId(j, e.id)
    ensures Remove(j + [e], e.id) == j
  {
    if j != [] {
      assert j[0] in j && forall d :: d in j[1..] ==> d in j;
      assert (j + [e])[1..] == j[1..] + [e];
      RemoveAppended(j[1..], e);
    }
  }

  /** Paths that no ready entry of the scope speaks about yet. */
  predicate IsUntouched(j: seq<Intent>, scope: Scope, path: Path) {
    ReadyDelete(j, scope, path).None? && ReadyRenameTo(j, scope, path).None? && ReadyRenameFrom(j, scope, path).None?
  }

  lemma AppendedRename(j: seq<Intent>, e: Intent, scope: Scope, to: Path)
    requires e.kind.Rename? && e.scope == scope && e.phase.Ready? && e.kind.newPath == to && IsUntouched(j, scope, to)
    ensures ReadyRenameTo(j + [e], scope, to) == Some(e) && ReadyDelete(j + [e], scope, to).None?
  {
    FindAppended(j, e, (d: Intent) => d.kind.Rename? && d.scope == scope && d.phase.Ready? && d.kind.newPath == to);
    FindAppended(j, e, (d: Intent) => d.kind.Delete? && d.scope == scope && d.phase.Ready? && d.kind.path == to);
  }

  /** Renaming a file there and back owes the server nothing. */
  lemma RenamingBackUndoesRenaming(j: seq<Intent>, a: Path, b: Path, scope: Scope, base: MutationBase, base': MutationBase,
                                   id: nat, id': nat, at: nat, at': nat)
    requires a != "" && b != "" && a != b && !HasId(j, id) && IsUntouched(j, scope, a) && IsUntouched(j, scope, b)
    ensures RecordRename(RecordRename(j, a, b, scope, base, id, at).entries, b, a, scope, base', id', at').entries == j
  {
    var e := NewIntent(id, Rename(a, b), scope, base, at);
    AppendedRename(j, e, scope, b);
    RemoveAppended(j, e);
  }

  /** Renaming a file and deleting it under its new name owes the server the deletion of the old one. */
  lemma DeletingARenamedFileDeletesItsOrigin(j: seq<Intent>, a: Path, b: Path, scope: Scope,
                                             base: MutationBase, base': MutationBase, id: nat, id': nat, at: nat, at': nat)
    requires a != "" && b != "" && a != b && !HasId(j, id) && IsUntouched(j, scope, a) && IsUntouched(j, scope, b)
    ensures var e := NewIntent(id, Rename(a, b), scope, base, at);
            RecordDelete(RecordRename(j, a, b, scope, base, id, at).entries, b, scope, base', id', at').entries
            == WithoutReadyRenamesFrom(j, scope, a) + [NewIntent(id', Delete(a), scope, BaseOf(e), at')]
  {
    var e := NewIntent(id, Rename(a, b), scope, base, at);
    AppendedRename(j, e, scope, b);
    RemoveAppended(j, e);
    assert CollapseChain(j, scope, a, BaseOf(e)) == Collapsed(j, a, BaseOf(e));
  }

  lemma ReplaceAppended(j: seq<Intent>, e: Intent, e': Intent)
    requires DistinctIds(j) && !HasId(j, e.id) && e'.id == e.id
    ensures Replace(j + [e], e') == j + [e']
  {
  }

  /** A chain of renames of one file owes the server one rename, from its origin to where it is now. */
  lemma RenamingTwiceRenamesOnce(j: seq<Intent>, a: Path, b: Path, c: Path, scope: Scope, base: MutationBase,
                                 base': MutationBase, id: nat, id': nat, at: nat, at': nat)
    requires DistinctIds(j) && a != "" && b != "" && c != "" && a != b && b != c && a != c && !HasId(j, id)
    requires IsUntouched(j, scope, a) && IsUntouched(j, scope, b)
    ensures RecordRename(RecordRename(j, a, b, scope, base, id, at).entries, b, c, scope, base', id', at').entries
            == j + [NewIntent(id, Rename(a, b), scope, base, at).(kind := Rename(a, c), recordedAt := at')]
  {
    var e := NewIntent(id, Rename(a, b), scope, base, at);
    AppendedRename(j, e, scope, b);
    ReplaceAppended(j, e, e.(kind := Rename(a, c), recordedAt := at'));
  }
}
