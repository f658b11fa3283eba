/**
 * What holds in every run of the attachment engine, whatever crashes, failed
 * saves, scope switches, loads and local events happen between two awaits.
 */
module EngineTheorems {
  import opened Wrappers
  import opened Authority
  import opened Lanes
  import opened BlobRefs
  import opened Journal
  import opened Settlements
  import opened Engine
  import opened EngineSafety

  // ---------------------------------------------------------------------------
  // At most once
  // ---------------------------------------------------------------------------

  /** The copies of an intent that a later replay could read, in memory or after a restart. */
  ghost predicate IsReplayable(s: State, e: Intent) {
    || e in s.journal
    || (exists key :: key in s.pend.durable && e in s.pend.durable[key])
    || (exists i :: s.pend.done <= i < |s.pend.log| && e in s.pend.log[i].snapshot)
    || e in s.pass.todo
  }

  /** Each intent's mutation takes effect at most once, and an intent that took effect has no ready copy left. */
  lemma EveryIntentIsAppliedAtMostOnce(s: State)
    requires Reachable(s)
    ensures forall i, k :: 0 <= i < k < |s.applied| ==> s.applied[i].id != s.applied[k].id
    ensures forall i, e :: 0 <= i < |s.applied| && IsReplayable(s, e) && e.id == s.applied[i].id ==> !e.phase.Ready?
  {
    ReachableIsSafe(s);
    forall e | IsReplayable(s, e)
      ensures e in Copies(s)
    {
      ReplayableIsCopy(s, e);
    }
  }

  /** The journal a restarted process would hydrate for a scope once the queued writes have landed or been lost. */
  lemma NoRestartRevivesAnAppliedIntent(s: State, key: Scope, e: Intent)
    requires Reachable(s) && IsApplied(s, e.id)
    requires (key in s.pend.durable && e in s.pend.durable[key])
             || exists i :: s.pend.done <= i < |s.pend.log| && s.pend.log[i].store.key == key && e in s.pend.log[i].snapshot
    ensures e.phase.Attempted? || e.phase.Committed?
    ensures forall at: nat, attempt: nat, session: string, j: seq<Intent> ::
              EntryById(j, e.id) == Some(e) ==> !MarkCommitAttempted(j, e.id, attempt, at, session).ok
  {
    EveryIntentIsAppliedAtMostOnce(s);
    assert IsReplayable(s, e);
  }

  lemma OtherSegmentsApplyNothing(s: State, sight: Sight)
    requires !(s.pass.pc.Attempting? && s.pass.pc.at.AtCas?)
    ensures ReplayStep(s, sight).applied == s.applied
  {
  }

  lemma OtherStepsApplyNothing(s: State, e: Event)
    requires Enabled(s, e) && !e.Replays?
    ensures Step(s, e).applied == s.applied
  {
  }

  // ---------------------------------------------------------------------------
  // Write-ahead
  // ---------------------------------------------------------------------------

  /**
   * Whenever a step applies a mutation, both lanes are quiescent and the durable
   * journal of the active scope already holds the intent with exactly the attempt
   * that applies it; no other copy of the intent exists.
   */
  lemma MutationsAreBehindWriteAhead(s: State, e: Event)
    requires Reachable(s) && Enabled(s, e) && Step(s, e).applied != s.applied
    ensures e.Replays? && s.pass.pc.Attempting? && s.pass.pc.at.AtCas?
    ensures s.pend.healthy && s.sett.healthy
    ensures s.pend.done == |s.pend.log| && s.sett.done == |s.sett.log|
    ensures s.g.identity == Some(s.pass.scope) && Identity(s.settings) == Some(s.pass.scope)
    ensures s.pass.scope in s.pend.durable
    ensures exists x :: x in s.pend.durable[s.pass.scope] && x.id == s.pass.pc.it.id
                        && x.phase.Attempted? && x.phase.attempt == s.pass.pc.attempt
                        && Step(s, e).applied == s.applied + [Applied(x.id, s.pass.scope, Paths(s.pass.pc.it), Paths(x))]
                        && IsOnlyCopy(s, x)
  {
    ReachableIsSafe(s);
    ApplyingStepIsCas(s, e);
    MutatingCas(s, e.sight);
    CasIsBehindWriteAhead(s, e.sight);
    CurrentEntryIsOnlyCopy(s, e.sight);
  }

  lemma ApplyingStepIsCas(s: State, e: Event)
    requires Enabled(s, e) && Step(s, e).applied != s.applied
    ensures e.Replays? && s.pass.pc.Attempting? && s.pass.pc.at.AtCas? && Step(s, e) == Cas(s, e.sight)
  {
    if !IsMutationPoint(s, e) {
      OtherEventsApplyNothing(s, e);
    }
  }

  predicate IsMutationPoint(s: State, e: Event) {
    e.Replays? && s.pass.pc.Attempting? && s.pass.pc.at.AtCas?
  }

  lemma OtherEventsApplyNothing(s: State, e: Event)
    requires Enabled(s, e) && !IsMutationPoint(s, e)
    ensures Step(s, e).applied == s.applied
  {
    if e.Replays? {
      OtherSegmentsApplyNothing(s, e.sight);
    } else {
      OtherStepsApplyNothing(s, e);
    }
  }

  ghost predicate IsOnlyCopy(s: State, x: Intent) {
    forall c :: IsReplayable(s, c) && c.id == x.id ==> c == x
  }

  lemma CurrentEntryIsOnlyCopy(s: State, sight: Sight)
    requires SafetyInv(s) && s.pass.pc.Attempting? && IsAttemptCurrent(s, sight)
    ensures IsOnlyCopy(s, CurrentEntry(s, s.pass.pc.it.id).value)
  {
    CurrentEntryIsJournaled(s, s.pass.pc.it.id);
    forall c | IsReplayable(s, c) && c.id == s.pass.pc.it.id
      ensures c == CurrentEntry(s, s.pass.pc.it.id).value
    {
      ReplayableIsCopy(s, c);
      CurrentEntryIsTheOnlyCopy(s, sight, c);
    }
  }

  lemma ReplayableIsCopy(s: State, e: Intent)
    requires IsReplayable(s, e)
    ensures e in Copies(s)
  {
  }

  lemma MutatingCas(s: State, sight: Sight)
    requires s.pass.pc.Attempting? && s.pass.pc.at.AtCas? && Cas(s, sight).applied != s.applied
    ensures IsAttemptCurrent(s, sight)
    ensures Cas(s, sight).applied
            == RecordApplied(s, s.pass.pc.it, CurrentEntry(s, s.pass.pc.it.id).value).applied
  {
  }

  // ---------------------------------------------------------------------------
  // Overlap exclusion
  // ---------------------------------------------------------------------------

  ghost predicate AreAppliedPair(s: State, e: Intent, f: Intent) {
    e.id != f.id && e.scope == f.scope && IsApplied(s, e.id) && IsApplied(s, f.id)
  }

  /** Intents that took effect and are still journaled somewhere in one scope own disjoint paths. */
  ghost predicate AppliedAreDisjoint(s: State) {
    forall e, f :: e in Copies(s) && f in Copies(s) && AreAppliedPair(s, e, f) ==> !Overlap(e, f)
  }

  /** No mutation was decided on paths that differ from those its entry named. */
  ghost predicate CapturesWereFresh(s: State) {
    forall i :: 0 <= i < |s.applied| ==> s.applied[i].claimed == s.applied[i].journaled
  }

  /** In every run: what a mutation looked at is disjoint from every entry applied before it and still journaled. */
  lemma LaterMutationsAvoidEarlierOnes(s: State, i: nat, k: nat, e: Intent, f: Intent)
    requires Reachable(s) && i < k < |s.applied| && s.applied[i].scope == s.applied[k].scope
    requires e in Copies(s) && e.id == s.applied[i].id && f in Copies(s) && f.id == s.applied[k].id
    ensures Paths(e) * s.applied[k].claimed == {}
    ensures Paths(f) == s.applied[k].journaled
  {
    ReachableIsSafe(s);
  }

  /** The paths a later mutation's entry named beyond those its code had looked at. */
  function Strays(s: State, k: nat): set<Path>
    requires k < |s.applied|
  {
    s.applied[k].journaled - s.applied[k].claimed
  }

  /** No stray path of a mutation belongs to an intent applied before it, as far as both are still journaled. */
  ghost predicate StraysAreFree(s: State) {
    forall i, k :: 0 <= i < k < |s.applied| && s.applied[i].scope == s.applied[k].scope
                   && HasCopy(s, s.applied[i].id) && HasCopy(s, s.applied[k].id) ==>
      s.applied[i].journaled * Strays(s, k) == {}
  }

  lemma DisjointnessByOrder(s: State, e: Intent, f: Intent, i: nat, k: nat)
    requires HistoryInv(s) && StraysAreFree(s) && i < k < |s.applied|
    requires e in Copies(s) && f in Copies(s) && e.scope == f.scope
    requires s.applied[i].id == e.id && s.applied[k].id == f.id
    ensures !Overlap(e, f) && !Overlap(f, e)
  {
    assert HasCopy(s, s.applied[i].id) && HasCopy(s, s.applied[k].id);
    assert Paths(f) <= s.applied[k].claimed + Strays(s, k);
  }

  lemma DisjointMeansFree(s: State, i: nat, k: nat)
    requires HistoryInv(s) && AppliedAreDisjoint(s) && i < k < |s.applied| && s.applied[i].scope == s.applied[k].scope
    requires HasCopy(s, s.applied[i].id) && HasCopy(s, s.applied[k].id)
    ensures s.applied[i].journaled * Strays(s, k) == {}
  {
    var e :| e in Copies(s) && e.id == s.applied[i].id;
    var f :| f in Copies(s) && f.id == s.applied[k].id;
    assert AreAppliedPair(s, e, f);
  }

  /**
   * In every run, crashes included, the exclusion holds exactly when no path that
   * an entry came to name between its capture and its mutation belongs to an
   * intent applied before; so it holds when no entry was renamed in between.
   */
  lemma AppliedIntentsAreDisjoint(s: State)
    requires Reachable(s)
    ensures AppliedAreDisjoint(s) <==> StraysAreFree(s)
    ensures CapturesWereFresh(s) ==> AppliedAreDisjoint(s)
  {
    ReachableIsSafe(s);
    if AppliedAreDisjoint(s) {
      forall i, k | 0 <= i < k < |s.applied| && s.applied[i].scope == s.applied[k].scope
                    && HasCopy(s, s.applied[i].id) && HasCopy(s, s.applied[k].id)
        ensures s.applied[i].journaled * Strays(s, k) == {}
      {
        DisjointMeansFree(s, i, k);
      }
    }
    if StraysAreFree(s) {
      FreeMeansDisjoint(s);
    }
  }

  lemma FreeMeansDisjoint(s: State)
    requires HistoryInv(s) && StraysAreFree(s)
    ensures AppliedAreDisjoint(s)
  {
    forall e, f | e in Copies(s) && f in Copies(s) && AreAppliedPair(s, e, f)
      ensures !Overlap(e, f)
    {
      var i :| 0 <= i < |s.applied| && s.applied[i].id == e.id;
      var k :| 0 <= k < |s.applied| && s.applied[k].id == f.id;
      if i < k {
        DisjointnessByOrder(s, e, f, i, k);
      } else {
        DisjointnessByOrder(s, f, e, k, i);
      }
    }
  }

  /** The guard of the mutation, asked about the entry as it is journaled now instead of as it was captured. */
  ghost predicate JournaledEntryIsExclusive(s: State)
    requires s.pass.pc.Attempting? && CurrentEntry(s, s.pass.pc.it.id).Some?
  {
    var current := CurrentEntry(s, s.pass.pc.it.id).value;
    forall c :: c in s.journal && c.scope == s.pass.scope && c.id != current.id && IsApplied(s, c.id)
                ==> !Overlap(current, c)
  }

  lemma AppliedBy(s: State, t: State, id: nat, x: nat)
    requires |t.applied| == |s.applied| + 1 && t.applied[..|s.applied|] == s.applied && t.applied[|s.applied|].id == id
    ensures IsApplied(t, x) <==> IsApplied(s, x) || x == id
  {
  }

  /** The guard seen from the copies: no other applied copy of the scope overlaps the current entry. */
  lemma ExclusiveAmongCopies(s: State, sight: Sight)
    requires SafetyInv(s) && s.pass.pc.Attempting? && IsAttemptCurrent(s, sight)
    ensures JournaledEntryIsExclusive(s) <==>
              var current := CurrentEntry(s, s.pass.pc.it.id).value;
              forall c :: c in Copies(s) && c.scope == s.pass.scope && c.id != current.id && IsApplied(s, c.id)
                          ==> !Overlap(current, c)
  {
    var current := CurrentEntry(s, s.pass.pc.it.id).value;
    forall c | c in Copies(s) && c.scope == s.pass.scope && c.id != current.id && IsApplied(s, c.id)
      ensures c in s.journal
    {
      AppliedCopyIsJournaled(s, sight, c);
    }
    assert forall c :: c in s.journal ==> c in Copies(s);
  }

  /** A mutation keeps the exclusion exactly when that guard would have held. */
  lemma MutationKeepsExclusionIff(s: State, sight: Sight)
    requires Reachable(s) && AppliedAreDisjoint(s)
    requires s.pass.pc.Attempting? && s.pass.pc.at.AtCas? && IsAttemptCurrent(s, sight)
    ensures AppliedAreDisjoint(RecordApplied(s, s.pass.pc.it, CurrentEntry(s, s.pass.pc.it.id).value))
            <==> JournaledEntryIsExclusive(s)
    ensures Paths(s.pass.pc.it) == Paths(CurrentEntry(s, s.pass.pc.it.id).value) ==> JournaledEntryIsExclusive(s)
  {
    ReachableIsSafe(s);
    var current := CurrentEntry(s, s.pass.pc.it.id).value;
    CurrentEntryIsJournaled(s, s.pass.pc.it.id);
    ExclusiveAmongCopies(s, sight);
    forall e | e in Copies(s) && e.id == current.id
      ensures e == current
    {
      CurrentEntryIsTheOnlyCopy(s, sight, e);
    }
    RecordingExcludesIff(s, current);
  }

  lemma RecordingExcludesIff(s: State, current: Intent)
    requires AppliedAreDisjoint(s) && s.pass.pc.Attempting? && s.pass.pc.it.id == current.id
    requires current in s.journal && !IsApplied(s, current.id)
    requires forall e :: e in Copies(s) && e.id == current.id ==> e == current
    ensures AppliedAreDisjoint(RecordApplied(s, s.pass.pc.it, current)) <==>
              forall c :: c in Copies(s) && c.scope == current.scope && c.id != current.id && IsApplied(s, c.id)
                          ==> !Overlap(current, c)
  {
    var t := RecordApplied(s, s.pass.pc.it, current);
    assert Copies(t) == Copies(s) && current in Copies(s);
    forall x
      ensures IsApplied(t, x) <==> IsApplied(s, x) || x == current.id
    {
      AppliedBy(s, t, current.id, x);
    }
    ExclusionAfter(s, t, current);
  }

  lemma ExclusionAfter(s: State, t: State, current: Intent)
    requires Copies(t) == Copies(s) && current in Copies(s) && AppliedAreDisjoint(s) && !IsApplied(s, current.id)
    requires forall x :: IsApplied(t, x) <==> IsApplied(s, x) || x == current.id
    requires forall e :: e in Copies(s) && e.id == current.id ==> e == current
    ensures AppliedAreDisjoint(t) <==>
              forall c :: c in Copies(s) && c.scope == current.scope && c.id != current.id && IsApplied(s, c.id)
                          ==> !Overlap(current, c)
  {
  }

  lemma AppliedCopyIsJournaled(s: State, sight: Sight, c: Intent)
    requires SafetyInv(s) && s.pass.pc.Attempting? && IsAttemptCurrent(s, sight)
    requires c in Copies(s) && c.scope == s.pass.scope && IsApplied(s, c.id)
    ensures c in s.journal
  {
    HealthyMeansDurable(s);
    assert !c.phase.Ready?;
    if c in Stored(s.pend) {
      assert c in s.pend.durable[s.pass.scope];
    }
  }
}
