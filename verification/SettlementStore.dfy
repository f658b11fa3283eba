/**
 * The settlement memory of the plugin object: `blobSettledRefs`,
 * `blobSettledSourceVersions`, `blobSettlementStages` and
 * `legacyMissingBlobPaths`, updated in place by the settlement callbacks, the
 * removal preparation, retirement and discovery
 * (src/main.ts:1702-1843, 2114-2192, 2340-2382, 2751-2924).
 */
module SettlementStore {
  import opened Wrappers
  import opened Authority
  import opened BlobRefs
  import opened Journal
  import opened Settlements
  import opened Discovery
  import IntentJournal

  class BlobSettlements {
    var refs: map<Path, BlobRef>
    var versions: map<Path, string>
    var stages: map<Path, Stage>
    var gate: set<Path>

    function View(): Settled
      reads this
    {
      Settled(refs, versions, stages, gate)
    }

    constructor ()
      ensures View() == NOTHING_SETTLED
    {
      refs, versions, stages, gate := map[], map[], map[], {};
    }

    // -------------------------------------------------------------------------
    // Callbacks, up to their write
    // -------------------------------------------------------------------------

    /** A callback throws and changes nothing, or makes the change its function describes. */
    ghost predicate Did(before: Settled, r: Outcome, accepted: bool)
      reads this
    {
      (accepted <==> r.Accepted?) && View() == if r.Accepted? then r.state else before
    }

    method DoStage(path: Path, stage: Stage) returns (accepted: bool)
      modifies this
      ensures Did(old(View()), StageSettlement(old(View()), path, stage), accepted)
    {
      if path in stages && !SameStage(stages[path], stage) {
        return false;
      }
      stages := stages[path := if stage.ref.Some? then stage.(ref := CloneBlobRef(stage.ref)) else stage];
      return true;
    }

    method DoFinalize(path: Path, id: StageId, ref: BlobRef, version: string, remote: Remote) returns (accepted: bool)
      modifies this
      ensures Did(old(View()), FinalizeSettlement(old(View()), path, id, ref, version, remote), accepted)
    {
      if path !in stages || stages[path].id != id || stages[path].kind.Retire?
         || !SameBlobRef(stages[path].ref, Some(ref)) {
        return false;
      }
      if stages[path].sourceVersion.Some? && stages[path].sourceVersion != Some(version) {
        return false;
      }
      if !SameBlobRef(At(remote.refs, path), Some(ref)) || At(remote.versions, path) != Some(version) {
        return false;
      }
      refs := refs[path := CloneBlobRef(Some(ref)).value];
      versions := versions[path := version];
      stages := stages - {path};
      gate := gate - {path};
      return true;
    }

    method DoRetire(path: Path, id: StageId) returns (accepted: bool)
      modifies this
      ensures Did(old(View()), RetireSettlement(old(View()), path, id), accepted)
    {
      if path !in stages || stages[path].id != id || !stages[path].kind.Retire? {
        return false;
      }
      refs := refs - {path};
      versions := versions - {path};
      gate := gate - {path};
      return true;
    }

    method DoAbort(path: Path, id: StageId) returns (accepted: bool)
      modifies this
      ensures Did(old(View()), AbortStage(old(View()), path, id), accepted)
    {
      if path !in stages || stages[path].id != id {
        return false;
      }
      stages := stages - {path};
      return true;
    }

    method DoClear(path: Path)
      modifies this
      ensures Did(old(View()), ClearFence(old(View()), path), true)
    {
      stages := stages - {path};
      refs := refs - {path};
      versions := versions - {path};
    }

    // -------------------------------------------------------------------------
    // Removal and retirement
    // -------------------------------------------------------------------------

    /** The source half of a preparation: a retire stage, unless one is there, replaces the settlement. */
    method TakeSource(e: Intent, now: nat) returns (changed: bool)
      modifies this
      ensures View() == PrepareSource(old(View()), e, now)
      ensures changed <==> View() != old(View())
    {
      ghost var before := View();
      var source := SourcePath(e);
      changed := false;
      if source !in stages {
        stages := stages[source := Stage(CommittedBy(e.id), Retire, CloneBlobRef(e.expectedSourceRef),
                                         e.expectedSourceVersion, CommitTime(e, now))];
        changed := true;
      }
      if source in refs {
        refs := refs - {source};
        changed := true;
      }
      if source in versions {
        versions := versions - {source};
        changed := true;
      }
      assert source !in before.refs ==> before.refs - {source} == before.refs;
      assert source !in before.versions ==> before.versions - {source} == before.versions;
      assert source !in refs && source !in versions;
    }

    /** The synchronous part of `prepareCommittedBlobIntentForRemoval`, with its early returns. */
    method DoPrepare(e: Intent, remote: Remote, now: nat) returns (answer: Preparation)
      modifies this
      ensures answer == Prepare(old(View()), e, remote, now)
      ensures View() == answer.state
    {
      if !Postcondition(e, remote) {
        return Refuse(View());
      }
      var source := SourcePath(e);
      if source in stages && (!stages[source].kind.Retire?
                              || !SameBlobRef(stages[source].ref, CloneBlobRef(e.expectedSourceRef))
                              || stages[source].sourceVersion != e.expectedSourceVersion) {
        return Refuse(View());
      }
      var changed := TakeSource(e, now);
      if e.kind.Rename? && e.kind.newPath in remote.refs {
        var path := e.kind.newPath;
        if path !in remote.versions {
          return Refuse(View());
        }
        if !DestinationSettled(View(), path, remote) {
          if path !in stages {
            stages := stages[path := Stage(RenamedBy(e.id), Renaming, CloneBlobRef(At(remote.refs, path)),
                                           At(remote.versions, path), CommitTime(e, now))];
          } else if !RenameStageMatches(View(), path, remote) {
            return Refuse(View());
          }
          gate := gate + {path};
          changed := true;
        }
      }
      return if changed then Write(View()) else Keep(View());
    }

    /** The loop that drops the stages of an intent's own removal, then the gate of a moved authority. */
    method DoRetireEpisode(e: Intent, d: Disposition) returns (stagesChanged: bool, gateAdded: bool)
      modifies this
      ensures View() == RetireEpisode(old(View()), e, d)
      ensures stagesChanged <==> View().stages != old(View()).stages
      ensures gateAdded <==> d.AuthorityMoved? && SourcePath(e) !in old(View()).gate
    {
      ghost var before := stages;
      stagesChanged := false;
      var todo := stages.Keys;
      while todo != {}
        invariant todo <= stages.Keys <= before.Keys
        invariant forall p :: p in stages ==> stages[p] == before[p]
        invariant forall p :: p in before && (p in todo || !OwnStage(before[p].id, e.id)) ==> p in stages
        invariant forall p :: p in stages && p !in todo ==> !OwnStage(stages[p].id, e.id)
        invariant stagesChanged <==> stages.Keys != before.Keys
        invariant refs == old(refs) && versions == old(versions) && gate == old(gate)
        decreases todo
      {
        var p :| p in todo;
        todo := todo - {p};
        if OwnStage(stages[p].id, e.id) {
          stages := stages - {p};
          stagesChanged := true;
        }
      }
      assert stages == WithoutOwnStages(old(View()), e.id).stages;
      gateAdded := false;
      if d.AuthorityMoved? && SourcePath(e) !in gate {
        gate := gate + {SourcePath(e)};
        gateAdded := true;
      }
      assert View().gate == RetireEpisode(old(View()), e, d).gate;
    }

    // -------------------------------------------------------------------------
    // Discovery
    // -------------------------------------------------------------------------

    /** The first loop of discovery: a retired path is gated exactly while it has a live revival. */
    method GateRevivals(remote: Remote) returns (changed: bool)
      modifies this`gate
      ensures RevivalsAreGated(old(View()), remote, View())
      ensures changed <==> gate != old(gate)
    {
      changed := false;
      var todo := stages.Keys;
      while todo != {}
        invariant todo <= stages.Keys
        invariant forall p :: p in gate <==>
                    if HasRetireStage(View(), p) && p !in todo then IsLiveRef(remote, p) else p in old(gate)
        invariant changed <==> gate != old(gate)
        decreases todo
      {
        var p :| p in todo;
        todo := todo - {p};
        if stages[p].kind.Retire? {
          var live := IsLiveRef(remote, p);
          if live && p !in gate {
            gate := gate + {p};
            changed := true;
          } else if !live && p in gate {
            gate := gate - {p};
            changed := true;
          }
        }
      }
    }

    /** One turn of the loop over the confirmed candidates. */
    method ResolveCandidate(journal: IntentJournal.PendingBlobIntentJournal, c: Candidate, v: Surroundings, name: string,
                            nextId: nat, recorded: nat) returns (counted: nat, changed: bool)
      requires journal.Valid() && forall e :: e in journal.entries ==> e.id < nextId + recorded
      modifies this, journal
      ensures journal.Valid() && forall e :: e in journal.entries ==> e.id < nextId + counted
      ensures Found(View(), journal.entries, nextId + counted, counted)
              == Resolve(Found(old(View()), old(journal.entries), nextId + recorded, recorded), c, v, name)
      ensures !changed ==> View() == old(View())
    {
      counted, changed := recorded, false;
      if !c.missing || c.path in v.occupied || c.path in v.inFlight || HasPath(journal.entries, c.path, v.scope)
         || c.path in stages || !SameBlobRef(At(refs, c.path), Some(c.ref)) {
        return;
      }
      if c.path !in v.remote.refs || c.path in v.remote.tombstoned {
        refs := refs - {c.path};
        versions := versions - {c.path};
        changed := true;
      } else if !IsUnchanged(c, v.remote) {
        stages := stages[c.path := RetireStage(c, name, v.now)];
        gate := gate + {c.path};
        changed := true;
      } else {
        FreshDeleteIsAppended(journal.entries, c.path, v.scope, DeleteBase(c), nextId + recorded, v.now);
        var _ := journal.RecordDelete(c.path, v.scope, DeleteBase(c), nextId + recorded, v.now);
        counted := recorded + 1;
      }
    }

    /** The second loop: every confirmed candidate is skipped, dropped, staged or journaled. */
    method ResolveConfirmed(journal: IntentJournal.PendingBlobIntentJournal, cs: seq<Candidate>, v: Surroundings,
                            names: nat -> string, nextId: nat)
      returns (recorded: nat, settlementChanged: bool)
      requires journal.Valid() && forall e :: e in journal.entries ==> e.id < nextId
      modifies this, journal
      ensures journal.Valid()
      ensures var t := ResolveAll(Found(old(View()), old(journal.entries), nextId, 0), cs, v, names);
              View() == t.mem && journal.entries == t.journal && recorded == t.recorded
      ensures !settlementChanged ==> View() == old(View())
    {
      ghost var start := Found(View(), journal.entries, nextId, 0);
      recorded, settlementChanged := 0, false;
      for i := 0 to |cs|
        invariant journal.Valid()
        invariant forall e :: e in journal.entries ==> e.id < nextId + recorded
        invariant Found(View(), journal.entries, nextId + recorded, recorded) == ResolveAll(start, cs[..i], v, names)
        invariant !settlementChanged ==> View() == old(View())
      {
        assert cs[..i + 1][..i] == cs[..i];
        var changed;
        recorded, changed := ResolveCandidate(journal, cs[i], v, names(i), nextId, recorded);
        settlementChanged := settlementChanged || changed;
      }
      assert cs[..|cs|] == cs;
    }
  }
}
