/**
 * The journal of pending attachment intents
 * (src/sync/pendingBlobIntentJournal.ts).
 */
module Journal {
  import opened Wrappers
  import opened Authority
  import opened BlobRefs

  type Path = string

  /** What a local mutation was based on. */
  datatype MutationBase = MutationBase(
    known: bool, ref: Option<BlobRef>, sourceVersionKnown: bool, expectedSourceVersion: Option<string>)

  datatype Kind = Delete(path: Path) | Rename(oldPath: Path, newPath: Path)

  /**
   * The attempt and commit fields of a record. The source keeps them exclusive:
   * a record mixing them is refused when read, and every mark clears the other set.
   */
  datatype Phase =
    | Ready
    | Attempted(attempt: nat, attemptedAt: nat, attemptSession: string)
    | Committed(committedAt: nat, commitSession: string, receipt: Option<string>, fingerprint: Option<string>)

  datatype Intent = Intent(
    id: nat, scope: Scope, kind: Kind, recordedAt: nat,
    baseRefKnown: bool, expectedSourceRef: Option<BlobRef>,
    sourceVersionKnown: bool, expectedSourceVersion: Option<string>,
    phase: Phase)

  function Paths(e: Intent): set<Path> {
    match e.kind
    case Delete(path) => {path}
    case Rename(oldPath, newPath) => {oldPath, newPath}
  }

  function SourcePath(e: Intent): Path {
    match e.kind
    case Delete(path) => path
    case Rename(oldPath, _) => oldPath
  }

  /** `pendingBlobIntentsOverlap`: a rename owns both of its paths. */
  predicate Overlap(a: Intent, b: Intent) {
    Paths(a) * Paths(b) != {}
  }

  function BaseOf(e: Intent): MutationBase {
    MutationBase(e.baseRefKnown, CloneBlobRef(e.expectedSourceRef), e.sourceVersionKnown, e.expectedSourceVersion)
  }

  function NewIntent(id: nat, kind: Kind, scope: Scope, base: MutationBase, at: nat): Intent {
    Intent(id, scope, kind, at,
           base.known, if base.known then CloneBlobRef(base.ref) else None,
           base.sourceVersionKnown, if base.sourceVersionKnown then base.expectedSourceVersion else None,
           Ready)
  }

  // ---------------------------------------------------------------------------
  // Sequences
  // ---------------------------------------------------------------------------

  /** `Array.prototype.find`. */
  function Find<T>(xs: seq<T>, p: T -> bool): (r: Option<T>)
    ensures r.Some? ==> r.value in xs && p(r.value)
    ensures r.None? ==> forall i :: 0 <= i < |xs| ==> !p(xs[i])
  {
    if xs == [] then None else if p(xs[0]) then Some(xs[0]) else Find(xs[1..], p)
  }

  /** `Array.prototype.filter`. */
  function Filter<T(!new)>(xs: seq<T>, p: T -> bool): (r: seq<T>)
    ensures forall x :: x in r <==> x in xs && p(x)
  {
    if xs == [] then []
    else
      var rest := Filter(xs[1..], p);
      assert xs == [xs[0]] + xs[1..];
      if p(xs[0]) then [xs[0]] + rest else rest
  }

  predicate HasId(j: seq<Intent>, id: nat) {
    exists e :: e in j && e.id == id
  }

  predicate DistinctIds(j: seq<Intent>) {
    forall i, k :: 0 <= i < k < |j| ==> j[i].id != j[k].id
  }

  /** Puts `e` in the place of the entry carrying its identity. */
  function Replace(j: seq<Intent>, e: Intent): (r: seq<Intent>)
    ensures |r| == |j|
    ensures forall i :: 0 <= i < |j| ==> r[i].id == j[i].id
    ensures forall i :: 0 <= i < |j| ==> r[i] == j[i] || r[i] == e
    ensures forall i :: 0 <= i < |j| && j[i].id != e.id ==> r[i] == j[i]
    ensures HasId(j, e.id) ==> e in r
  {
    if j == [] then []
    else if j[0].id == e.id then [e] + j[1..]
    else
      assert j == [j[0]] + j[1..];
      [j[0]] + Replace(j[1..], e)
  }

  // ---------------------------------------------------------------------------
  // Operations
  // ---------------------------------------------------------------------------

  function EntryById(j: seq<Intent>, id: nat): Option<Intent> {
    Find(j, (e: Intent) => e.id == id)
  }

  function Entries(j: seq<Intent>, scope: Scope): seq<Intent> {
    Filter(j, (e: Intent) => e.scope == scope)
  }

  predicate HasPath(j: seq<Intent>, path: Path, scope: Scope) {
    exists e :: e in j && e.scope == scope &&
      match e.kind
      case Delete(p) => p == path
      case Rename(o, n) => o == path || (!e.phase.Committed? && n == path)
  }

  function Remove(j: seq<Intent>, id: nat): (r: seq<Intent>)
    ensures forall e :: e in r ==> e in j
    ensures forall e :: e in j && e.id != id ==> e in r
    ensures |r| == if HasId(j, id) then |j| - 1 else |j|
  {
    if j == [] then []
    else if j[0].id == id then j[1..]
    else
      assert j == [j[0]] + j[1..];
      [j[0]] + Remove(j[1..], id)
  }

  function Restore(j: seq<Intent>, e: Intent): seq<Intent> {
    if HasId(j, e.id) then j else j + [e]
  }

  function ReadyRenameTo(j: seq<Intent>, scope: Scope, path: Path): Option<Intent> {
    Find(j, (e: Intent) => e.kind.Rename? && e.scope == scope && e.phase.Ready? && e.kind.newPath == path)
  }

  function ReadyRenameFrom(j: seq<Intent>, scope: Scope, path: Path): Option<Intent> {
    Find(j, (e: Intent) => e.kind.Rename? && e.scope == scope && e.phase.Ready? && e.kind.oldPath == path)
  }

  function ReadyDelete(j: seq<Intent>, scope: Scope, path: Path): Option<Intent> {
    Find(j, (e: Intent) => e.kind.Delete? && e.scope == scope && e.phase.Ready? && e.kind.path == path)
  }

  datatype Collapsed = Collapsed(entries: seq<Intent>, path: Path, base: MutationBase)

  /** A -> B followed by deleting B means deleting A, along the whole chain of ready renames. */
  function CollapseChain(j: seq<Intent>, scope: Scope, path: Path, base: MutationBase): Collapsed
    decreases |j|
  {
    var r := ReadyRenameTo(j, scope, path);
    if r.None? then Collapsed(j, path, base)
    else
      FoundHasId(j, r.value);
      CollapseChain(Remove(j, r.value.id), scope, r.value.kind.oldPath, BaseOf(r.value))
  }

  lemma FoundHasId(j: seq<Intent>, e: Intent)
    requires e in j
    ensures HasId(j, e.id)
  {
  }

  function WithoutReadyRenamesFrom(j: seq<Intent>, scope: Scope, path: Path): seq<Intent> {
    Filter(j, (e: Intent) =>
      !(e.kind.Rename? && e.scope == scope && e.phase.Ready? && e.kind.oldPath == path))
  }

  datatype Recorded = Recorded(entries: seq<Intent>, intent: Option<Intent>)

  function RecordDelete(j: seq<Intent>, path: Path, scope: Scope, base: MutationBase, id: nat, at: nat): Recorded {
    var c := CollapseChain(j, scope, path, base);
    var existing := ReadyDelete(c.entries, scope, c.path);
    if existing.Some? then Recorded(c.entries, existing)
    else
      var intent := NewIntent(id, Delete(c.path), scope, c.base, at);
      Recorded(WithoutReadyRenamesFrom(c.entries, scope, c.path) + [intent], Some(intent))
  }

  function RecordRename(j: seq<Intent>, oldPath: Path, newPath: Path, scope: Scope, base: MutationBase,
                        id: nat, at: nat): Recorded {
    if oldPath == "" || newPath == "" || oldPath == newPath then Recorded(j, None)
    else if ReadyDelete(j, scope, oldPath).Some? then Recorded(j, None)
    else
      var chained := ReadyRenameTo(j, scope, oldPath);
      var existing := if chained.Some? then chained else ReadyRenameFrom(j, scope, oldPath);
      if existing.Some? then
        if existing.value.kind.oldPath == newPath then Recorded(Remove(j, existing.value.id), None)
        else
          var moved := existing.value.(kind := Rename(existing.value.kind.oldPath, newPath), recordedAt := at);
          Recorded(Replace(j, moved), Some(moved))
      else
        var intent := NewIntent(id, Rename(oldPath, newPath), scope, base, at);
        Recorded(j + [intent], Some(intent))
  }

  datatype Marked = Marked(entries: seq<Intent>, ok: bool)

  /** Replaces the phase of the entry `id` if it is in the phase the mark expects. */
  function Mark(j: seq<Intent>, id: nat, expected: Phase -> bool, next: Phase): Marked {
    var e := EntryById(j, id);
    if e.None? || !expected(e.value.phase) then Marked(j, false)
    else Marked(Replace(j, e.value.(phase := next)), true)
  }

  function IsReady(): Phase -> bool {
    (p: Phase) => p.Ready?
  }

  function IsAttempt(attempt: nat): Phase -> bool {
    (p: Phase) => p.Attempted? && p.attempt == attempt
  }

  function MarkCommitAttempted(j: seq<Intent>, id: nat, attempt: nat, at: nat, session: string): Marked {
    if session == "" then Marked(j, false)
    else Mark(j, id, IsReady(), Attempted(attempt, at, session))
  }

  function ClearCommitAttempt(j: seq<Intent>, id: nat, attempt: nat): Marked {
    Mark(j, id, IsAttempt(attempt), Ready)
  }

  function MarkCommittedFromAttempt(j: seq<Intent>, id: nat, attempt: nat, at: nat, session: string,
                                    receipt: Option<string>, fingerprint: Option<string>): Marked {
    if session == "" || receipt == Some("") || fingerprint == Some("") then Marked(j, false)
    else Mark(j, id, IsAttempt(attempt), Committed(at, session, receipt, fingerprint))
  }

  /** A `Map` keyed by identity: an equal key keeps its position, a new one goes last. */
  function Merge(loaded: seq<Intent>, memory: seq<Intent>): seq<Intent> {
    if memory == [] then loaded
    else
      var before := Merge(loaded, memory[..|memory| - 1]);
      var e := memory[|memory| - 1];
      if HasId(before, e.id) then Replace(before, e) else before + [e]
  }

  // ---------------------------------------------------------------------------
  // What the operations keep
  // ---------------------------------------------------------------------------

  lemma EntryIsUnique(j: seq<Intent>, a: Intent, b: Intent)
    requires DistinctIds(j) && a in j && b in j && a.id == b.id
    ensures a == b
  {
  }

  lemma {:induction false} FilterKeepsDistinct(j: seq<Intent>, p: Intent -> bool)
    requires DistinctIds(j)
    ensures DistinctIds(Filter(j, p))
  {
    if j != [] {
      FilterKeepsDistinct(j[1..], p);
      assert j == [j[0]] + j[1..];
      var rest := Filter(j[1..], p);
      forall i | 0 <= i < |rest|
        ensures rest[i].id != j[0].id
      {
        assert rest[i] in rest;
        assert rest[i] in j[1..];
      }
    }
  }

  lemma {:induction false} FilterKeepsAll(j: seq<Intent>, p: Intent -> bool)
    requires forall e :: e in j ==> p(e)
    ensures Filter(j, p) == j
  {
    if j != [] {
      FilterKeepsAll(j[1..], p);
    }
  }

  lemma {:induction false} RemoveIsExact(j: seq<Intent>, id: nat)
    requires DistinctIds(j)
    ensures DistinctIds(Remove(j, id))
    ensures !HasId(Remove(j, id), id)
  {
    if j != [] && j[0].id != id {
      RemoveIsExact(j[1..], id);
      var rest := Remove(j[1..], id);
      forall i | 0 <= i < |rest|
        ensures rest[i].id != j[0].id
      {
        assert rest[i] in rest;
        assert rest[i] in j[1..];
      }
    }
  }

  /**
   * Recording local events rewrites nothing but ready entries: every attempted or
   * committed entry survives untouched, and whatever appears is ready and either
   * fresh or the successor of a ready entry with the same identity and scope.
   */
  ghost predicate TouchesOnlyReady(j: seq<Intent>, j': seq<Intent>, newIds: set<nat>, scope: Scope) {
    && (forall e :: e in j && !e.phase.Ready? ==> e in j')
    && (forall e :: e in j' && e !in j ==> e.phase.Ready? && ((e.id in newIds && e.scope == scope) || ReadyTwin(j, e)))
  }

  ghost predicate ReadyTwin(j: seq<Intent>, e: Intent) {
    exists r :: r in j && r.id == e.id && r.scope == e.scope && r.phase.Ready?
  }

  lemma {:induction false} CollapseTouchesOnlyReady(j: seq<Intent>, scope: Scope, path: Path, base: MutationBase)
    requires DistinctIds(j)
    ensures var c := CollapseChain(j, scope, path, base);
            && DistinctIds(c.entries)
            && (forall e :: e in c.entries ==> e in j)
            && (forall e :: e in j && !e.phase.Ready? ==> e in c.entries)
    decreases |j|
  {
    var r := ReadyRenameTo(j, scope, path);
    if r.Some? {
      FoundHasId(j, r.value);
      RemoveIsExact(j, r.value.id);
      var j1 := Remove(j, r.value.id);
      CollapseTouchesOnlyReady(j1, scope, r.value.kind.oldPath, BaseOf(r.value));
      forall e | e in j && e.id == r.value.id
        ensures e == r.value
      {
        EntryIsUnique(j, e, r.value);
      }
    }
  }

  lemma AppendKeepsDistinct(j: seq<Intent>, e: Intent)
    requires DistinctIds(j) && !HasId(j, e.id)
    ensures DistinctIds(j + [e])
  {
  }

  lemma RecordDeleteTouchesOnlyReady(j: seq<Intent>, path: Path, scope: Scope, base: MutationBase, id: nat, at: nat)
    requires DistinctIds(j) && !HasId(j, id)
    ensures TouchesOnlyReady(j, RecordDelete(j, path, scope, base, id, at).entries, {id}, scope)
    ensures DistinctIds(RecordDelete(j, path, scope, base, id, at).entries)
  {
    CollapseTouchesOnlyReady(j, scope, path, base);
    var c := CollapseChain(j, scope, path, base);
    if ReadyDelete(c.entries, scope, c.path).None? {
      FilterKeepsDistinct(c.entries, (e: Intent) =>
        !(e.kind.Rename? && e.scope == scope && e.phase.Ready? && e.kind.oldPath == c.path));
      var kept := WithoutReadyRenamesFrom(c.entries, scope, c.path);
      assert !HasId(kept, id);
    }
  }

  /** Putting another version in the place of a ready entry touches nothing else. */
  lemma ReplacingReady(j: seq<Intent>, x: Intent, moved: Intent, newIds: set<nat>, scope: Scope)
    requires DistinctIds(j) && x in j && x.phase.Ready? && moved.phase.Ready? && moved.id == x.id && moved.scope == x.scope
    ensures TouchesOnlyReady(j, Replace(j, moved), newIds, scope) && DistinctIds(Replace(j, moved))
  {
    forall e | e in j && !e.phase.Ready?
      ensures e in Replace(j, moved)
    {
      if e.id == x.id {
        EntryIsUnique(j, e, x);
      }
      var i :| 0 <= i < |j| && j[i] == e;
      assert Replace(j, moved)[i] == e;
    }
    assert ReadyTwin(j, moved);
  }

  /** Removing a ready entry touches nothing else. */
  lemma RemovingReady(j: seq<Intent>, x: Intent, newIds: set<nat>, scope: Scope)
    requires DistinctIds(j) && x in j && x.phase.Ready?
    ensures TouchesOnlyReady(j, Remove(j, x.id), newIds, scope) && DistinctIds(Remove(j, x.id))
  {
    RemoveIsExact(j, x.id);
    forall e | e in j && e.id == x.id
      ensures e == x
    {
      EntryIsUnique(j, e, x);
    }
  }

  lemma RecordRenameTouchesOnlyReady(j: seq<Intent>, oldPath: Path, newPath: Path, scope: Scope, base: MutationBase,
                                     id: nat, at: nat)
    requires DistinctIds(j) && !HasId(j, id)
    ensures TouchesOnlyReady(j, RecordRename(j, oldPath, newPath, scope, base, id, at).entries, {id}, scope)
    ensures DistinctIds(RecordRename(j, oldPath, newPath, scope, base, id, at).entries)
  {
    var chained := ReadyRenameTo(j, scope, oldPath);
    var existing := if chained.Some? then chained else ReadyRenameFrom(j, scope, oldPath);
    if existing.Some? {
      var x := existing.value;
      RemovingReady(j, x, {id}, scope);
      ReplacingReady(j, x, x.(kind := Rename(x.kind.oldPath, newPath), recordedAt := at), {id}, scope);
    }
  }

  lemma TouchesOnlyReadyTwice(j: seq<Intent>, j1: seq<Intent>, j2: seq<Intent>,
                              a: set<nat>, b: set<nat>, scope: Scope)
    requires TouchesOnlyReady(j, j1, a, scope) && TouchesOnlyReady(j1, j2, b, scope)
    ensures TouchesOnlyReady(j, j2, a + b, scope)
  {
  }

  /** A successful mark changes exactly one entry. */
  lemma MarkIsExact(j: seq<Intent>, id: nat, expected: Phase -> bool, next: Phase)
    requires DistinctIds(j) && Mark(j, id, expected, next).ok
    ensures var j' := Mark(j, id, expected, next).entries;
            && DistinctIds(j')
            && (exists e :: e in j && e.id == id && expected(e.phase) && e.(phase := next) in j')
            && (forall e :: e in j' && e.id == id ==> exists d :: d in j && d.id == id && e == d.(phase := next))
            && (forall e :: e in j' && e.id != id ==> e in j)
            && (forall e :: e in j && e.id != id ==> e in j')
  {
    var e := EntryById(j, id).value;
    assert e in j && HasId(j, e.(phase := next).id);
    ReplaceContents(j, e.(phase := next));
  }

  /** Assigning to the fields of an entry replaces it at its index. */
  lemma ReplaceIsUpdate(j: seq<Intent>, i: nat, e: Intent)
    requires DistinctIds(j) && i < |j| && e.id == j[i].id
    ensures Replace(j, e) == j[i := e]
  {
  }

  /** Putting another entry in the place of one with its identity. */
  lemma ReplaceContents(j: seq<Intent>, last: Intent)
    requires DistinctIds(j) && HasId(j, last.id)
    ensures DistinctIds(Replace(j, last)) && last in Replace(j, last)
    ensures forall e :: e in j && e.id != last.id ==> e in Replace(j, last)
    ensures forall e :: e in Replace(j, last) ==> e == last || (e in j && e.id != last.id)
  {
    var k :| 0 <= k < |j| && j[k].id == last.id;
    ReplaceIsUpdate(j, k, last);
    UpdateContents(j, k, last);
  }

  lemma UpdateContents(j: seq<Intent>, k: nat, last: Intent)
    requires DistinctIds(j) && k < |j| && j[k].id == last.id
    ensures DistinctIds(j[k := last]) && last in j[k := last]
    ensures forall e :: e in j && e.id != last.id ==> e in j[k := last]
    ensures forall e :: e in j[k := last] ==> e == last || (e in j && e.id != last.id)
  {
    var t := j[k := last];
    assert t[k] == last;
    forall e | e in j && e.id != last.id
      ensures e in t
    {
      var i :| 0 <= i < |j| && j[i] == e;
      assert t[i] == e;
    }
  }

  lemma NextMerge(loaded: seq<Intent>, memory: seq<Intent>)
    requires memory != []
    ensures var before, last := Merge(loaded, memory[..|memory| - 1]), memory[|memory| - 1];
            Merge(loaded, memory) == if HasId(before, last.id) then Replace(before, last) else before + [last]
  {
  }

  /** In-memory entries win over loaded ones with the same identity; nothing else is lost. */
  lemma {:induction false} MergeIsUnion(loaded: seq<Intent>, memory: seq<Intent>)
    requires DistinctIds(loaded) && DistinctIds(memory)
    ensures DistinctIds(Merge(loaded, memory))
    ensures forall e :: e in memory ==> e in Merge(loaded, memory)
    ensures forall e :: e in loaded && !HasId(memory, e.id) ==> e in Merge(loaded, memory)
    ensures forall e :: e in Merge(loaded, memory) ==> e in memory || (e in loaded && !HasId(memory, e.id))
  {
    if memory != [] {
      var shorter, last := memory[..|memory| - 1], memory[|memory| - 1];
      MergeIsUnion(loaded, shorter);
      var before := Merge(loaded, shorter);
      var merged := Merge(loaded, memory);
      NextMerge(loaded, memory);
      assert memory == shorter + [last];
      assert !HasId(shorter, last.id);
      if HasId(before, last.id) {
        ReplaceContents(before, last);
      }
      assert forall id :: HasId(memory, id) <==> HasId(shorter, id) || id == last.id;
    }
  }
}
