/**
 * What the flight-trace classifier reports, said of the events of a group alone:
 * which content is still remembered at an event, which returns, repeats, marks and
 * divergences the event adds, and what the report counts.
 */
module EditorReturns {
  import opened Wrappers
  import opened EditorCausality

  /** The elements that meet `f`, in order. */
  function Where<T>(f: T -> bool, xs: seq<T>): seq<T> {
    if xs == [] then []
    else
      var before, x := Where(f, xs[..|xs| - 1]), xs[|xs| - 1];
      if f(x) then before + [x] else before
  }

  // ---------------------------------------------------------------------------
  // Which content is remembered
  // ---------------------------------------------------------------------------

  /** A capture of the lineage. */
  predicate IsOfLineage(e: Event, lineage: Lineage) {
    && e.kind == "editor.causality.observed" && e.data.captureStatus == Some("ok") && e.data.editorAfterHash.Some?
    && lineage == Lineage(e.data.runtimeId, e.data.cmId, e.data.contentHashDomain)
  }

  /** The editor held the hash right before or right after the capture. */
  predicate Held(e: Event, lineage: Lineage, hash: string) {
    IsOfLineage(e, lineage) && (e.data.editorBeforeHash == Some(hash) || e.data.editorAfterHash == Some(hash))
  }

  /** The sequence number of the last event that held the hash. */
  function LastHeld(es: seq<Event>, lineage: Lineage, hash: string): Option<int> {
    if es == [] then None
    else if Held(es[|es| - 1], lineage, hash) then Some(es[|es| - 1].at)
    else LastHeld(es[..|es| - 1], lineage, hash)
  }

  predicate IsOldest(places: map<string, nat>, hash: string) {
    hash in places && forall other :: other in places ==> places[hash] <= places[other]
  }

  /** The places after a capture, before the oldest is given up. */
  function Placed(places: map<string, nat>, e: Event, n: nat): map<string, nat>
    requires e.data.editorAfterHash.Some?
  {
    var before, after := e.data.editorBeforeHash, e.data.editorAfterHash.value;
    (if before.Some? && before.value !in places then places[before.value := 2 * n] else places)[after := 2 * n + 1]
  }

  function WithoutOldest(places: map<string, nat>): map<string, nat> {
    map h | h in places && !IsOldest(places, h) :: places[h]
  }

  function NextPlaces(places: map<string, nat>, e: Event, n: nat): map<string, nat>
    requires e.data.editorAfterHash.Some?
  {
    var placed := Placed(places, e, n);
    if |placed| > 64 then WithoutOldest(placed) else placed
  }

  /**
   * The remembered hashes of a lineage, each with its place: the n-th event gives
   * its content after the change a new place, its content before the change one
   * only if that was not remembered, and then one hash, the one with the lowest
   * place, is given up when there are more than 64.
   */
  function Places(es: seq<Event>, lineage: Lineage): map<string, nat> {
    if es == [] then map[]
    else
      var n := |es| - 1;
      if IsOfLineage(es[n], lineage) then NextPlaces(Places(es[..n], lineage), es[n], n) else Places(es[..n], lineage)
  }

  /** Every hash the lineage ever held. */
  function HashesOf(es: seq<Event>, lineage: Lineage): set<string> {
    if es == [] then {}
    else
      var before, e := HashesOf(es[..|es| - 1], lineage), es[|es| - 1];
      if !IsOfLineage(e, lineage) then before
      else before + {e.data.editorAfterHash.value}
           + (if e.data.editorBeforeHash.Some? then {e.data.editorBeforeHash.value} else {})
  }

  // ---------------------------------------------------------------------------
  // The insertion-ordered map
  // ---------------------------------------------------------------------------

  predicate Has(history: seq<Seen>, hash: string) {
    exists i :: 0 <= i < |history| && history[i].hash == hash
  }

  predicate AreDistinctHashes(history: seq<Seen>) {
    forall i, k :: 0 <= i < k < |history| ==> history[i].hash != history[k].hash
  }

  lemma {:induction false} LookupFinds(history: seq<Seen>, hash: string)
    ensures Lookup(history, hash).Some? <==> Has(history, hash)
    ensures AreDistinctHashes(history) ==>
              forall i :: 0 <= i < |history| && history[i].hash == hash ==> Lookup(history, hash) == Some(history[i].at)
  {
    if history != [] && history[0].hash != hash {
      LookupFinds(history[1..], hash);
      if Has(history, hash) {
        var i :| 0 <= i < |history| && history[i].hash == hash;
        assert history[1..][i - 1].hash == hash;
      }
      forall i | 0 <= i < |history| && history[i].hash == hash && AreDistinctHashes(history)
        ensures Lookup(history, hash) == Some(history[i].at)
      {
        assert history[1..][i - 1] == history[i];
      }
    }
  }

  lemma {:induction false} PutInPlace(history: seq<Seen>, hash: string, at: int, i: nat)
    requires i < |history| && history[i].hash == hash && AreDistinctHashes(history)
    ensures Put(history, hash, at) == history[i := Seen(hash, at)]
  {
    if i > 0 {
      PutInPlace(history[1..], hash, at, i - 1);
    }
  }

  lemma {:induction false} PutAtEnd(history: seq<Seen>, hash: string, at: int)
    requires !Has(history, hash)
    ensures Put(history, hash, at) == history + [Seen(hash, at)]
  {
    if history != [] {
      assert forall i :: 0 <= i < |history| - 1 ==> history[1..][i] == history[i + 1];
      PutAtEnd(history[1..], hash, at);
    }
  }

  lemma {:induction false} DeleteAt(history: seq<Seen>, hash: string, i: nat)
    requires i < |history| && history[i].hash == hash && AreDistinctHashes(history)
    ensures Delete(history, hash) == history[..i] + history[i + 1..]
  {
    if i > 0 {
      DeleteAt(history[1..], hash, i - 1);
    }
  }

  lemma {:induction false} DeleteNone(history: seq<Seen>, hash: string)
    requires !Has(history, hash)
    ensures Delete(history, hash) == history
  {
    if history != [] {
      assert forall i :: 0 <= i < |history| - 1 ==> history[1..][i] == history[i + 1];
      DeleteNone(history[1..], hash);
    }
  }

  // ---------------------------------------------------------------------------
  // The map holds the places in order
  // ---------------------------------------------------------------------------

  /** The hashes in the order of their places. */
  ghost predicate IsInOrder(history: seq<Seen>, places: map<string, nat>) {
    && (forall i :: 0 <= i < |history| ==> history[i].hash in places)
    && (forall i, k :: 0 <= i < k < |history| ==> places[history[i].hash] < places[history[k].hash])
    && (forall hash :: hash in places ==> Has(history, hash))
  }

  ghost predicate AreBelow(places: map<string, nat>, bound: int) {
    forall hash :: hash in places ==> places[hash] < bound
  }

  lemma InOrderIsDistinct(history: seq<Seen>, places: map<string, nat>)
    requires IsInOrder(history, places)
    ensures AreDistinctHashes(history)
  {
  }

  lemma {:induction false} DistinctCount(history: seq<Seen>)
    requires AreDistinctHashes(history)
    ensures |set s | s in history :: s.hash| == |history|
  {
    if history != [] {
      var n := |history| - 1;
      DistinctCount(history[..n]);
      var shorter := set s | s in history[..n] :: s.hash;
      assert history == history[..n] + [history[n]];
      assert (set s | s in history :: s.hash) == shorter + {history[n].hash};
      assert history[n].hash !in shorter;
    }
  }

  lemma InOrderCount(history: seq<Seen>, places: map<string, nat>)
    requires IsInOrder(history, places)
    ensures |places| == |history|
  {
    DistinctCount(history);
    var hashes := set s | s in history :: s.hash;
    forall hash
      ensures hash in places <==> hash in hashes
    {
      if hash in places {
        var i :| 0 <= i < |history| && history[i].hash == hash;
        assert history[i] in history;
      }
    }
    assert places.Keys == hashes;
  }

  lemma AppendKeepsOrder(history: seq<Seen>, places: map<string, nat>, hash: string, at: int, place: nat)
    requires IsInOrder(history, places) && !Has(history, hash) && AreBelow(places, place)
    ensures IsInOrder(history + [Seen(hash, at)], places[hash := place])
  {
    var longer := history + [Seen(hash, at)];
    forall h | h in places[hash := place]
      ensures Has(longer, h)
    {
      if h == hash {
        assert longer[|history|].hash == hash;
      } else {
        var i :| 0 <= i < |history| && history[i].hash == h;
        assert longer[i].hash == h;
      }
    }
  }

  lemma RefreshKeepsOrder(history: seq<Seen>, places: map<string, nat>, i: nat, at: int)
    requires IsInOrder(history, places) && i < |history|
    ensures IsInOrder(history[i := Seen(history[i].hash, at)], places)
  {
    var refreshed := history[i := Seen(history[i].hash, at)];
    forall hash | hash in places
      ensures Has(refreshed, hash)
    {
      var k :| 0 <= k < |history| && history[k].hash == hash;
      assert refreshed[k].hash == hash;
    }
  }

  lemma RemovedIsGone(history: seq<Seen>, i: nat)
    requires AreDistinctHashes(history) && i < |history|
    ensures !Has(history[..i] + history[i + 1..], history[i].hash)
  {
  }

  lemma OthersStay(history: seq<Seen>, i: nat, hash: string)
    requires i < |history| && Has(history, hash) && hash != history[i].hash
    ensures Has(history[..i] + history[i + 1..], hash)
  {
    var shorter := history[..i] + history[i + 1..];
    var k :| 0 <= k < |history| && history[k].hash == hash;
    assert shorter[if k < i then k else k - 1].hash == hash;
  }

  lemma RemoveKeepsOrder(history: seq<Seen>, places: map<string, nat>, i: nat)
    requires IsInOrder(history, places) && i < |history|
    ensures IsInOrder(history[..i] + history[i + 1..], places - {history[i].hash})
    ensures !Has(history[..i] + history[i + 1..], history[i].hash)
  {
    InOrderIsDistinct(history, places);
    RemovedIsGone(history, i);
    forall hash | hash in places - {history[i].hash}
      ensures Has(history[..i] + history[i + 1..], hash)
    {
      OthersStay(history, i, hash);
    }
  }

  /** The content before the change: a known hash keeps its place, a new one joins at the end. */
  function WithBefore(history: seq<Seen>, e: Event): seq<Seen> {
    if e.data.editorBeforeHash.Some? then Put(history, e.data.editorBeforeHash.value, e.at) else history
  }

  function WithAfter(history: seq<Seen>, e: Event): seq<Seen>
    requires IsCapture(e)
  {
    Put(Delete(history, e.data.editorAfterHash.value), e.data.editorAfterHash.value, e.at)
  }

  function BeforePlaced(places: map<string, nat>, e: Event, n: nat): map<string, nat> {
    if e.data.editorBeforeHash.Some? && e.data.editorBeforeHash.value !in places
    then places[e.data.editorBeforeHash.value := 2 * n] else places
  }

  lemma BeforeKeepsOrder(history: seq<Seen>, places: map<string, nat>, e: Event, n: nat)
    requires IsInOrder(history, places) && AreBelow(places, 2 * n)
    ensures IsInOrder(WithBefore(history, e), BeforePlaced(places, e, n))
  {
    if e.data.editorBeforeHash.Some? {
      var hash := e.data.editorBeforeHash.value;
      InOrderIsDistinct(history, places);
      if hash in places {
        var i :| 0 <= i < |history| && history[i].hash == hash;
        PutInPlace(history, hash, e.at, i);
        RefreshKeepsOrder(history, places, i, e.at);
      } else {
        PutAtEnd(history, hash, e.at);
        AppendKeepsOrder(history, places, hash, e.at, 2 * n);
      }
    }
  }

  lemma RejoinKeepsOrder(history: seq<Seen>, places: map<string, nat>, e: Event, i: nat, place: nat)
    requires IsCapture(e) && IsInOrder(history, places) && AreBelow(places, place)
    requires i < |history| && history[i].hash == e.data.editorAfterHash.value
    ensures IsInOrder(WithAfter(history, e), places[e.data.editorAfterHash.value := place])
  {
    var hash := e.data.editorAfterHash.value;
    var shorter, fewer := history[..i] + history[i + 1..], places - {hash};
    InOrderIsDistinct(history, places);
    DeleteAt(history, hash, i);
    RemoveKeepsOrder(history, places, i);
    PutAtEnd(shorter, hash, e.at);
    assert AreBelow(fewer, place);
    AppendKeepsOrder(shorter, fewer, hash, e.at, place);
    assert fewer[hash := place] == places[hash := place];
  }

  lemma JoinKeepsOrder(history: seq<Seen>, places: map<string, nat>, e: Event, place: nat)
    requires IsCapture(e) && IsInOrder(history, places) && AreBelow(places, place)
    requires !Has(history, e.data.editorAfterHash.value)
    ensures IsInOrder(WithAfter(history, e), places[e.data.editorAfterHash.value := place])
  {
    var hash := e.data.editorAfterHash.value;
    DeleteNone(history, hash);
    PutAtEnd(history, hash, e.at);
    AppendKeepsOrder(history, places, hash, e.at, place);
  }

  lemma AfterKeepsOrder(history: seq<Seen>, places: map<string, nat>, e: Event, n: nat)
    requires IsCapture(e) && IsInOrder(history, places) && AreBelow(places, 2 * n + 1)
    ensures IsInOrder(WithAfter(history, e), places[e.data.editorAfterHash.value := 2 * n + 1])
  {
    if i: int :| 0 <= i < |history| && history[i].hash == e.data.editorAfterHash.value {
      RejoinKeepsOrder(history, places, e, i, 2 * n + 1);
    } else {
      JoinKeepsOrder(history, places, e, 2 * n + 1);
    }
  }

  /** The oldest hash is the first of the map. */
  lemma OldestIsFirst(history: seq<Seen>, places: map<string, nat>, hash: string)
    requires IsInOrder(history, places) && history != []
    ensures IsOldest(places, hash) <==> hash == history[0].hash
  {
    var first := history[0].hash;
    forall other | other in places
      ensures places[first] <= places[other]
    {
      var k :| 0 <= k < |history| && history[k].hash == other;
    }
    if hash in places {
      var i :| 0 <= i < |history| && history[i].hash == hash;
      assert i > 0 ==> places[first] < places[hash];
    }
  }

  lemma EvictionIsFirst(history: seq<Seen>, places: map<string, nat>)
    requires IsInOrder(history, places) && history != []
    ensures WithoutOldest(places) == places - {history[0].hash}
  {
    forall h | h in places
      ensures IsOldest(places, h) <==> h == history[0].hash
    {
      OldestIsFirst(history, places, h);
    }
  }

  lemma NothingBefore(history: seq<Seen>)
    requires history != []
    ensures history[..0] + history[0 + 1..] == history[1..]
  {
  }

  lemma EvictionKeepsOrder(history: seq<Seen>, places: map<string, nat>)
    requires IsInOrder(history, places) && history != []
    ensures IsInOrder(history[1..], WithoutOldest(places))
  {
    EvictionIsFirst(history, places);
    RemoveKeepsOrder(history, places, 0);
    NothingBefore(history);
  }

  lemma RememberKeepsSixtyFour(history: seq<Seen>, e: Event)
    requires IsCapture(e)
    ensures var h := WithAfter(WithBefore(history, e), e); Remember(history, e) == if |h| > 64 then h[1..] else h
  {
  }

  lemma RememberKeepsOrder(history: seq<Seen>, places: map<string, nat>, e: Event, n: nat)
    requires IsCapture(e) && IsInOrder(history, places) && AreBelow(places, 2 * n)
    ensures IsInOrder(Remember(history, e), NextPlaces(places, e, n)) && AreBelow(NextPlaces(places, e, n), 2 * n + 2)
  {
    var h1, p1 := WithBefore(history, e), BeforePlaced(places, e, n);
    var h2, p2 := WithAfter(h1, e), Placed(places, e, n);
    RememberKeepsSixtyFour(history, e);
    BeforeKeepsOrder(history, places, e, n);
    AfterKeepsOrder(h1, p1, e, n);
    InOrderCount(h2, p2);
    if |h2| > 64 {
      EvictionKeepsOrder(h2, p2);
    }
  }

  /** At every event the remembered hashes of a lineage are exactly those with a place, in its order. */
  lemma {:induction false} HistoryIsInOrder(es: seq<Event>, writeKind: string, lineage: Lineage)
    ensures IsInOrder(HistoryOf(ObserveAll(es, writeKind).trail, lineage), Places(es, lineage))
    ensures AreBelow(Places(es, lineage), 2 * |es|)
    decreases |es|
  {
    if es != [] {
      var n := |es| - 1;
      var before := ObserveAll(es[..n], writeKind).trail;
      HistoryIsInOrder(es[..n], writeKind, lineage);
      NextHistory(before, es[n], writeKind, lineage);
      if IsOfLineage(es[n], lineage) {
        RememberKeepsOrder(HistoryOf(before, lineage), Places(es[..n], lineage), es[n], n);
      }
    }
  }

  lemma NextHistory(t: Trail, e: Event, writeKind: string, lineage: Lineage)
    ensures HistoryOf(Observe(t, e, writeKind).trail, lineage)
            == if IsOfLineage(e, lineage) then Remember(HistoryOf(t, lineage), e) else HistoryOf(t, lineage)
  {
  }

  // ---------------------------------------------------------------------------
  // The remembered sequence numbers
  // ---------------------------------------------------------------------------

  /** A remembered hash names the last event that held it. */
  lemma {:induction false} RememberedIsLastHeld(es: seq<Event>, writeKind: string, lineage: Lineage, seen: Seen)
    requires seen in HistoryOf(ObserveAll(es, writeKind).trail, lineage)
    ensures LastHeld(es, lineage, seen.hash) == Some(seen.at)
    decreases |es|
  {
    var n := |es| - 1;
    var before := ObserveAll(es[..n], writeKind).trail;
    NextHistory(before, es[n], writeKind, lineage);
    if IsOfLineage(es[n], lineage) {
      HistoryIsInOrder(es[..n], writeKind, lineage);
      InOrderIsDistinct(HistoryOf(before, lineage), Places(es[..n], lineage));
      RememberRefreshes(HistoryOf(before, lineage), Places(es[..n], lineage), es[n], n, seen);
    }
    if !Held(es[n], lineage, seen.hash) {
      RememberedIsLastHeld(es[..n], writeKind, lineage, seen);
    }
  }

  lemma BeforeRefreshes(history: seq<Seen>, e: Event, seen: Seen)
    requires AreDistinctHashes(history) && seen in WithBefore(history, e)
    ensures if e.data.editorBeforeHash == Some(seen.hash) then seen.at == e.at else seen in history
  {
    if e.data.editorBeforeHash.Some? {
      var hash := e.data.editorBeforeHash.value;
      if Has(history, hash) {
        var i :| 0 <= i < |history| && history[i].hash == hash;
        PutInPlace(history, hash, e.at, i);
      } else {
        PutAtEnd(history, hash, e.at);
      }
    }
  }

  lemma AfterRefreshes(history: seq<Seen>, e: Event, seen: Seen)
    requires IsCapture(e) && AreDistinctHashes(history) && seen in WithAfter(history, e)
    ensures if e.data.editorAfterHash == Some(seen.hash) then seen.at == e.at else seen in history
  {
    var hash := e.data.editorAfterHash.value;
    if Has(history, hash) {
      var i :| 0 <= i < |history| && history[i].hash == hash;
      DeleteAt(history, hash, i);
    } else {
      DeleteNone(history, hash);
    }
    var shorter := Delete(history, hash);
    assert !Has(shorter, hash);
    PutAtEnd(shorter, hash, e.at);
  }

  lemma RememberRefreshes(history: seq<Seen>, places: map<string, nat>, e: Event, n: nat, seen: Seen)
    requires IsCapture(e) && IsInOrder(history, places) && AreBelow(places, 2 * n) && seen in Remember(history, e)
    ensures if e.data.editorBeforeHash == Some(seen.hash) || e.data.editorAfterHash == Some(seen.hash)
            then seen.at == e.at else seen in history
  {
    var h1 := WithBefore(history, e);
    InOrderIsDistinct(history, places);
    BeforeKeepsOrder(history, places, e, n);
    InOrderIsDistinct(h1, BeforePlaced(places, e, n));
    assert seen in WithAfter(h1, e);
    AfterRefreshes(h1, e, seen);
    if e.data.editorAfterHash != Some(seen.hash) {
      BeforeRefreshes(history, e, seen);
    }
  }

  /**
   * What a capture finds of a hash: the last event of its lineage that held it,
   * if the hash still has a place, and nothing otherwise.
   */
  lemma RememberedIff(es: seq<Event>, writeKind: string, lineage: Lineage, hash: string)
    ensures Lookup(HistoryOf(ObserveAll(es, writeKind).trail, lineage), hash)
            == if hash in Places(es, lineage) then LastHeld(es, lineage, hash) else None
    ensures hash in Places(es, lineage) ==> LastHeld(es, lineage, hash).Some?
  {
    var history := HistoryOf(ObserveAll(es, writeKind).trail, lineage);
    HistoryIsInOrder(es, writeKind, lineage);
    InOrderIsDistinct(history, Places(es, lineage));
    LookupFinds(history, hash);
    if hash in Places(es, lineage) {
      var i :| 0 <= i < |history| && history[i].hash == hash;
      RememberedIsLastHeld(es, writeKind, lineage, history[i]);
    }
  }

  // ---------------------------------------------------------------------------
  // How long content is remembered
  // ---------------------------------------------------------------------------

  lemma {:induction false} PlacesAreBelow(es: seq<Event>, lineage: Lineage)
    ensures AreBelow(Places(es, lineage), 2 * |es|)
    decreases |es|
  {
    if es != [] {
      PlacesAreBelow(es[..|es| - 1], lineage);
    }
  }

  /** Nothing is given up while the lineage has held at most 64 hashes. */
  lemma {:induction false} FewHashesAreAllRemembered(es: seq<Event>, lineage: Lineage)
    ensures Places(es, lineage).Keys <= HashesOf(es, lineage)
    ensures |HashesOf(es, lineage)| <= 64 ==> Places(es, lineage).Keys == HashesOf(es, lineage)
    decreases |es|
  {
    if es != [] {
      var n := |es| - 1;
      FewHashesAreAllRemembered(es[..n], lineage);
      if IsOfLineage(es[n], lineage) {
        var placed := Placed(Places(es[..n], lineage), es[n], n);
        assert placed.Keys <= HashesOf(es, lineage);
        SubsetCount(placed.Keys, HashesOf(es, lineage));
        SubsetCount(HashesOf(es[..n], lineage), HashesOf(es, lineage));
      }
    }
  }

  lemma SubsetCount<T>(some: set<T>, all: set<T>)
    requires some <= all
    ensures |some| <= |all|
  {
    assert all == some + (all - some);
  }

  lemma OneIsGivenUp(history: seq<Seen>, places: map<string, nat>)
    requires IsInOrder(history, places) && history != []
    ensures |WithoutOldest(places)| == |places| - 1
  {
    EvictionIsFirst(history, places);
    assert WithoutOldest(places).Keys == places.Keys - {history[0].hash};
  }

  lemma TwoJoin(places: map<string, nat>, e: Event, n: nat)
    requires e.data.editorAfterHash.Some? && e.data.editorBeforeHash.Some?
    requires e.data.editorBeforeHash != e.data.editorAfterHash
    requires e.data.editorBeforeHash.value !in places && e.data.editorAfterHash.value !in places
    ensures |Placed(places, e, n)| == |places| + 2
  {
    var before, after := e.data.editorBeforeHash.value, e.data.editorAfterHash.value;
    assert Placed(places, e, n).Keys == places.Keys + {before} + {after};
  }

  lemma TwoJoinAndOneLeaves(history: seq<Seen>, places: map<string, nat>, e: Event, n: nat)
    requires IsCapture(e) && IsInOrder(history, places) && AreBelow(places, 2 * n) && |places| >= 63
    requires e.data.editorBeforeHash.Some? && e.data.editorBeforeHash != e.data.editorAfterHash
    requires e.data.editorBeforeHash.value !in places && e.data.editorAfterHash.value !in places
    ensures |NextPlaces(places, e, n)| == |places| + 1
  {
    BeforeKeepsOrder(history, places, e, n);
    AfterKeepsOrder(WithBefore(history, e), BeforePlaced(places, e, n), e, n);
    TwoJoin(places, e, n);
    OneIsGivenUp(WithAfter(WithBefore(history, e), e), Placed(places, e, n));
  }

  /**
   * The bound is not kept: a capture that brings two new hashes to a full history
   * gives up only one, so the history grows by one.
   */
  lemma HistoryOutgrowsItsBound(es: seq<Event>, lineage: Lineage)
    requires es != [] && IsOfLineage(es[|es| - 1], lineage) && |Places(es[..|es| - 1], lineage)| >= 63
    requires var places, d := Places(es[..|es| - 1], lineage), es[|es| - 1].data;
             && d.editorBeforeHash.Some? && d.editorBeforeHash != d.editorAfterHash
             && d.editorBeforeHash.value !in places && d.editorAfterHash.value !in places
    ensures |Places(es, lineage)| == |Places(es[..|es| - 1], lineage)| + 1
  {
    var n := |es| - 1;
    var history := HistoryOf(ObserveAll(es[..n], "").trail, lineage);
    HistoryIsInOrder(es[..n], "", lineage);
    TwoJoinAndOneLeaves(history, Places(es[..n], lineage), es[n], n);
  }

  lemma {:induction false} HashesAreHeld(es: seq<Event>, lineage: Lineage, hash: string)
    ensures hash in HashesOf(es, lineage) <==> exists i :: 0 <= i < |es| && Held(es[i], lineage, hash)
    decreases |es|
  {
    if es != [] {
      var n := |es| - 1;
      HashesAreHeld(es[..n], lineage, hash);
      if i: int :| 0 <= i < n && Held(es[..n][i], lineage, hash) {
        assert Held(es[i], lineage, hash);
      }
      if i: int :| 0 <= i < |es| && Held(es[i], lineage, hash) {
        assert i < n ==> Held(es[..n][i], lineage, hash);
      }
    }
  }

  /** The other hashes placed at or after the hash. */
  function After(places: map<string, nat>, hash: string): set<string>
    requires hash in places
  {
    set other | other in places && other != hash && places[other] >= places[hash]
  }

  /**
   * Content the editor changed to stays remembered until the lineage has held 64
   * other hashes since.
   */
  lemma {:induction false} RecentContentIsRemembered(es: seq<Event>, lineage: Lineage, hash: string, j: nat)
    requires j < |es| && IsOfLineage(es[j], lineage) && es[j].data.editorAfterHash == Some(hash)
    requires |HashesOf(es[j + 1..], lineage) - {hash}| < 64
    ensures hash in Places(es, lineage)
    ensures After(Places(es, lineage), hash) <= HashesOf(es[j + 1..], lineage)
    decreases |es|
  {
    var n := |es| - 1;
    PlacesAreBelow(es[..n], lineage);
    if j == n {
      var placed := Placed(Places(es[..n], lineage), es[n], n);
      assert placed[hash] == 2 * n + 1;
      if |placed| > 64 {
        SomeOther(placed, hash);
        assert !IsOldest(placed, hash);
      }
    } else {
      assert es[j + 1..][..|es[j + 1..]| - 1] == es[..n][j + 1..];
      assert es[j + 1..][|es[j + 1..]| - 1] == es[n];
      SubsetCount(HashesOf(es[..n][j + 1..], lineage) - {hash}, HashesOf(es[j + 1..], lineage) - {hash});
      RecentContentIsRemembered(es[..n], lineage, hash, j);
      if IsOfLineage(es[n], lineage) {
        NextIsRemembered(Places(es[..n], lineage), es[n], n, hash, HashesOf(es[j + 1..], lineage));
      }
    }
  }

  lemma SomeOther(places: map<string, nat>, hash: string)
    requires hash in places && |places| > 1
    ensures exists other :: other in places && other != hash
  {
    var others := places.Keys - {hash};
    assert |others| == |places| - 1;
    var other :| other in others;
  }

  lemma AllComeAfterTheOldest(places: map<string, nat>, hash: string)
    requires IsOldest(places, hash)
    ensures |After(places, hash)| == |places| - 1
  {
    assert After(places, hash) == places.Keys - {hash};
  }

  lemma NextIsRemembered(places: map<string, nat>, e: Event, n: nat, hash: string, held: set<string>)
    requires e.data.editorAfterHash.Some? && hash in places && AreBelow(places, 2 * n)
    requires After(places, hash) <= held && e.data.editorAfterHash.value in held
    requires e.data.editorBeforeHash.Some? ==> e.data.editorBeforeHash.value in held
    requires |held - {hash}| < 64
    ensures hash in NextPlaces(places, e, n) && After(NextPlaces(places, e, n), hash) <= held
  {
    var placed := Placed(places, e, n);
    assert After(placed, hash) <= held;
    SubsetCount(After(placed, hash), held - {hash});
    if IsOldest(placed, hash) {
      AllComeAfterTheOldest(placed, hash);
    }
  }

  // ---------------------------------------------------------------------------
  // What one event adds to the report
  // ---------------------------------------------------------------------------

  function PathOf(e: Event): string {
    if e.path.Some? then e.path.value else ""
  }

  /** The text a write is counted under: an absent domain reads "undefined". */
  function TextOf(domain: Option<string>, hash: string): string {
    (match domain case Some(d) => d case None => "undefined") + ":" + hash
  }

  /** Two writes of the counted kind with one text. */
  predicate AreSameWrites(p: Event, e: Event, writeKind: string) {
    && p.kind == writeKind && e.kind == writeKind && p.data.diskHash.Some? && e.data.diskHash.Some?
    && TextOf(p.data.contentHashDomain, p.data.diskHash.value) == TextOf(e.data.contentHashDomain, e.data.diskHash.value)
  }

  /** The third write of a text is reported with the two before it. */
  function RepeatAfter(before: seq<Event>, e: Event, writeKind: string): seq<Observation> {
    var earlier := Where((p: Event) => AreSameWrites(p, e, writeKind), before);
    if AreSameWrites(e, e, writeKind) && |earlier| == 2
    then [Observation("repeated-same-content-disk-write", PathOf(e), e.device, e.boot, e.at,
                      [earlier[0].at, earlier[1].at, e.at], [])]
    else []
  }

  function MarkOf(e: Event): seq<Observation> {
    if e.kind == "editor.causality.observed" && e.data.phase == Some("symptom-marked")
    then [Observation("user-reported-rollback", PathOf(e), e.device, e.boot, e.at, [e.at], [])] else []
  }

  /** The event took its editor back to content its lineage still remembers, and no undo or redo did it. */
  predicate ReturnsToSeen(before: seq<Event>, e: Event) {
    && e.kind == "editor.causality.observed" && e.data.captureStatus == Some("ok")
    && e.data.phase in {Some("editor-update"), Some("binding-applied")}
    && e.data.editorBeforeHash.Some? && e.data.editorAfterHash.Some?
    && e.data.editorBeforeHash.value != e.data.editorAfterHash.value
    && e.data.editorAfterHash.value in Places(before, Lineage(e.data.runtimeId, e.data.cmId, e.data.contentHashDomain))
    && !e.data.undoOrRedo
  }

  /** A disk reload the runtime kept, whose normalized hash, or plain hash when it has none, is the content. */
  predicate IsReloadOf(p: Event, hash: string) {
    && p.kind == "disk.modify.classified" && p.data.runtimeCurrent
    && (p.data.diskEditorNormalizedHash == Some(hash)
        || (p.data.diskEditorNormalizedHash == None && p.data.diskHash == Some(hash)))
  }

  /** A change of the shared text under the same binding, whose content is the hash. */
  predicate IsProjectionOf(p: Event, e: Event, hash: string) {
    && p.kind != "disk.modify.classified" && p.data.phase == Some("crdt-change") && p.data.crdtHash == Some(hash)
    && p.data.cmId == e.data.cmId && p.data.yTextId == e.data.yTextId && p.data.bindingEpoch == e.data.bindingEpoch
  }

  /** An ok event of the same runtime and hash domain that could have supplied the content. */
  predicate CouldSupply(p: Event, e: Event, hash: string) {
    && p.data.captureStatus == Some("ok")
    && p.data.runtimeId == e.data.runtimeId && p.data.contentHashDomain == e.data.contentHashDomain
    && (IsReloadOf(p, hash) || IsProjectionOf(p, e, hash))
  }

  /** The events that could have supplied the content, among the 24 right before. */
  function Suppliers(before: seq<Event>, e: Event, hash: string): seq<Event> {
    Where((p: Event) => CouldSupply(p, e, hash), if |before| > 24 then before[|before| - 24..] else before)
  }

  function ReturnAfter(before: seq<Event>, e: Event): seq<Observation> {
    if !ReturnsToSeen(before, e) then []
    else
      var hash := e.data.editorAfterHash.value;
      var last := LastHeld(before, Lineage(e.data.runtimeId, e.data.cmId, e.data.contentHashDomain), hash);
      var suppliers := Suppliers(before, e, hash);
      var rebound := e.data.phase == Some("binding-applied");
      [Observation(if rebound || e.data.nonUserDocChanged then "non-user-return-to-seen-editor-state"
                   else "return-to-seen-editor-state",
                   PathOf(e), e.device, e.boot, e.at,
                   (if last.Some? then [last.value] else []) + Ats(suppliers) + [e.at],
                   Candidates(suppliers) + (if rebound then ["binding-reprojection"] else []))]
  }

  /** The user changed the document and the shared text did not follow. */
  function DivergenceOf(e: Event): seq<Observation> {
    if && e.kind == "editor.causality.observed" && e.data.captureStatus == Some("ok") && e.data.editorAfterHash.Some?
       && e.data.phase == Some("editor-update") && e.data.userDocChanged && e.data.editorEqualsCrdt == Some(false)
    then [Observation("editor-crdt-diverged-after-input", PathOf(e), e.device, e.boot, e.at, [e.at], [])] else []
  }

  /** Everything an event of a group adds, given the events of the group before it. */
  function ReportAfter(before: seq<Event>, e: Event, writeKind: string): seq<Observation> {
    RepeatAfter(before, e, writeKind) + MarkOf(e) + ReturnAfter(before, e) + DivergenceOf(e)
  }

  lemma {:induction false} SameWritesAreCounted(before: seq<Event>, e: Event, writeKind: string)
    requires IsWrite(e, writeKind)
    ensures Ats(Where((p: Event) => AreSameWrites(p, e, writeKind), before)) == WriteAts(before, writeKind, WriteKey(e))
    decreases |before|
  {
    if before != [] {
      var n := |before| - 1;
      SameWritesAreCounted(before[..n], e, writeKind);
    }
  }

  lemma ThirdWriteText(before: seq<Event>, e: Event, writeKind: string)
    requires IsWrite(e, writeKind) && |WriteAts(before, writeKind, WriteKey(e))| == 2
    ensures RepeatAfter(before, e, writeKind)
            == [Describe(e, REPEATED, WriteAts(before, writeKind, WriteKey(e)) + [e.at], [])]
  {
    var earlier := Where((p: Event) => AreSameWrites(p, e, writeKind), before);
    SameWritesAreCounted(before, e, writeKind);
    assert [earlier[0].at, earlier[1].at, e.at] == Ats(earlier) + [e.at];
  }

  lemma NoThirdWrite(before: seq<Event>, e: Event, writeKind: string)
    requires !IsWrite(e, writeKind) || |WriteAts(before, writeKind, WriteKey(e))| != 2
    ensures RepeatAfter(before, e, writeKind) == []
  {
    if IsWrite(e, writeKind) {
      SameWritesAreCounted(before, e, writeKind);
    }
  }

  lemma RepeatIsReported(es: seq<Event>, writeKind: string, i: nat)
    requires i < |es|
    ensures NoteWrite(ObserveAll(es[..i], writeKind).trail, es[i], writeKind).out == RepeatAfter(es[..i], es[i], writeKind)
  {
    WriteOutIsThird(es, writeKind, i);
    if IsThirdWrite(es, writeKind, i) {
      ThirdWriteText(es[..i], es[i], writeKind);
    } else {
      NoThirdWrite(es[..i], es[i], writeKind);
    }
  }

  lemma MatchesIff(p: Event, e: Event)
    requires IsCapture(e)
    ensures Matches(p, e) <==> CouldSupply(p, e, e.data.editorAfterHash.value)
  {
  }

  lemma {:induction false} MatchingAreSuppliers(recent: seq<Event>, e: Event)
    requires IsCapture(e)
    ensures Matching(recent, e) == Where((p: Event) => CouldSupply(p, e, e.data.editorAfterHash.value), recent)
    decreases |recent|
  {
    if recent != [] {
      var n := |recent| - 1;
      MatchingAreSuppliers(recent[..n], e);
      MatchesIff(recent[n], e);
    }
  }

  lemma SuppliersAreMatching(before: seq<Event>, e: Event)
    requires IsCapture(e)
    ensures Matching(Tail(before), e) == Suppliers(before, e, e.data.editorAfterHash.value)
  {
    MatchingAreSuppliers(Tail(before), e);
  }

  lemma SeenIsRemembered(history: seq<Seen>, before: seq<Event>, e: Event)
    requires IsCapture(e)
    requires Lookup(history, e.data.editorAfterHash.value).Some?
             <==> e.data.editorAfterHash.value in Places(before, LineageOf(e))
    ensures Returns(history, e) <==> ReturnsToSeen(before, e)
  {
  }

  lemma ReturnedText(t: Trail, before: seq<Event>, e: Event)
    requires IsCapture(e) && (Returns(HistoryOf(t, LineageOf(e)), e) <==> ReturnsToSeen(before, e))
    requires Matching(t.recent, e) == Suppliers(before, e, e.data.editorAfterHash.value)
    requires ReturnsToSeen(before, e) ==>
               Lookup(HistoryOf(t, LineageOf(e)), e.data.editorAfterHash.value)
               == LastHeld(before, LineageOf(e), e.data.editorAfterHash.value)
    ensures Returned(t, e) == ReturnAfter(before, e)
  {
  }

  lemma ReturnIsReported(es: seq<Event>, writeKind: string, i: nat)
    requires i < |es| && IsCapture(es[i])
    ensures Returned(ObserveAll(es[..i], writeKind).trail, es[i]) == ReturnAfter(es[..i], es[i])
  {
    var t := ObserveAll(es[..i], writeKind).trail;
    RememberedIff(es[..i], writeKind, LineageOf(es[i]), es[i].data.editorAfterHash.value);
    RecentIsTail(es[..i], writeKind);
    SuppliersAreMatching(es[..i], es[i]);
    SeenIsRemembered(HistoryOf(t, LineageOf(es[i])), es[..i], es[i]);
    ReturnedText(t, es[..i], es[i]);
  }

  lemma WritingKeepsReturns(t: Trail, e: Event, writeKind: string)
    requires IsCapture(e)
    ensures Returned(NoteWrite(t, e, writeKind).trail, e) == Returned(t, e)
  {
  }

  lemma CaptureIsReported(es: seq<Event>, writeKind: string, i: nat)
    requires i < |es|
    ensures var t := ObserveAll(es[..i], writeKind).trail;
            NoteCapture(NoteWrite(t, es[i], writeKind).trail, es[i]).out
            == MarkOf(es[i]) + ReturnAfter(es[..i], es[i]) + DivergenceOf(es[i])
  {
    if IsCapture(es[i]) {
      ReturnIsReported(es, writeKind, i);
      WritingKeepsReturns(ObserveAll(es[..i], writeKind).trail, es[i], writeKind);
    }
  }

  /**
   * The loop, with its maps and its window, reports of each event exactly what the
   * events before it in the group call for.
   */
  lemma EventIsReported(es: seq<Event>, writeKind: string, i: nat)
    requires i < |es|
    ensures OutAt(es, writeKind, i) == ReportAfter(es[..i], es[i], writeKind)
  {
    RepeatIsReported(es, writeKind, i);
    CaptureIsReported(es, writeKind, i);
  }

  // ---------------------------------------------------------------------------
  // Returns
  // ---------------------------------------------------------------------------

  lemma {:induction false} WhereJoins<T>(f: T -> bool, xs: seq<T>, ys: seq<T>)
    ensures Where(f, xs + ys) == Where(f, xs) + Where(f, ys)
    decreases |ys|
  {
    if ys == [] {
      assert xs + ys == xs;
    } else {
      var n := |ys| - 1;
      WhereJoins(f, xs, ys[..n]);
      assert (xs + ys)[..|xs| + n] == xs + ys[..n];
    }
  }

  lemma WhereOfOne<T>(f: T -> bool, xs: seq<T>)
    requires |xs| <= 1
    ensures Where(f, xs) == if xs != [] && f(xs[0]) then xs else []
  {
    if xs != [] {
      assert xs == [xs[0]] && xs[..|xs| - 1] == [];
      assert Where(f, []) == [];
    }
  }

  predicate IsNoReturn(kind: string) {
    kind != RETURNED && kind != RETURNED_NON_USER
  }

  lemma RepeatedIsNoReturn()
    ensures IsNoReturn("repeated-same-content-disk-write")
  {
    assert "repeated-same-content-disk-write"[2] == 'p' && RETURNED[2] == 't' && RETURNED_NON_USER[2] == 'n';
  }

  lemma MarkedIsNoReturn()
    ensures IsNoReturn("user-reported-rollback")
  {
    assert "user-reported-rollback"[0] == 'u' && RETURNED[0] == 'r' && RETURNED_NON_USER[0] == 'n';
  }

  lemma DivergedIsNoReturn()
    ensures IsNoReturn("editor-crdt-diverged-after-input")
  {
    assert "editor-crdt-diverged-after-input"[0] == 'e' && RETURNED[0] == 'r' && RETURNED_NON_USER[0] == 'n';
  }

  lemma NoReturnAmong(out: seq<Observation>)
    requires |out| <= 1 && (out != [] ==> IsNoReturn(out[0].kind))
    ensures Where(IsReturn, out) == []
  {
    WhereOfOne(IsReturn, out);
  }

  lemma ReturnAmong(before: seq<Event>, e: Event)
    ensures Where(IsReturn, ReturnAfter(before, e)) == ReturnAfter(before, e)
  {
    WhereOfOne(IsReturn, ReturnAfter(before, e));
  }

  lemma RepeatHasNoReturn(before: seq<Event>, e: Event, writeKind: string)
    ensures Where(IsReturn, RepeatAfter(before, e, writeKind)) == []
  {
    RepeatedIsNoReturn();
    NoReturnAmong(RepeatAfter(before, e, writeKind));
  }

  lemma MarkHasNoReturn(e: Event)
    ensures Where(IsReturn, MarkOf(e)) == []
  {
    MarkedIsNoReturn();
    NoReturnAmong(MarkOf(e));
  }

  lemma DivergenceHasNoReturn(e: Event)
    ensures Where(IsReturn, DivergenceOf(e)) == []
  {
    DivergedIsNoReturn();
    NoReturnAmong(DivergenceOf(e));
  }

  lemma ReturnsOfReport(before: seq<Event>, e: Event, writeKind: string)
    ensures Where(IsReturn, ReportAfter(before, e, writeKind)) == ReturnAfter(before, e)
  {
    var a, b, c, d := RepeatAfter(before, e, writeKind), MarkOf(e), ReturnAfter(before, e), DivergenceOf(e);
    WhereJoins(IsReturn, a + b + c, d);
    WhereJoins(IsReturn, a + b, c);
    WhereJoins(IsReturn, a, b);
    RepeatHasNoReturn(before, e, writeKind);
    MarkHasNoReturn(e);
    ReturnAmong(before, e);
    DivergenceHasNoReturn(e);
  }

  /**
   * An event adds exactly one return observation when it takes its editor back to
   * content its lineage still remembers from an earlier event, without undo or
   * redo, and none otherwise. A rebinding and a change by others make it a
   * non-user return. It cites the last earlier event that held the content.
   */
  lemma ReturnIsReportedIff(es: seq<Event>, writeKind: string, i: nat)
    requires i < |es|
    ensures ReturnsToSeen(es[..i], es[i]) ==>
              && Where(IsReturn, OutAt(es, writeKind, i)) == ReturnAfter(es[..i], es[i])
              && |ReturnAfter(es[..i], es[i])| == 1
              && LastHeld(es[..i], LineageOf(es[i]), es[i].data.editorAfterHash.value).Some?
    ensures !ReturnsToSeen(es[..i], es[i]) ==> Where(IsReturn, OutAt(es, writeKind, i)) == []
  {
    EventIsReported(es, writeKind, i);
    ReturnsOfReport(es[..i], es[i], writeKind);
    if ReturnsToSeen(es[..i], es[i]) {
      RememberedIff(es[..i], writeKind, LineageOf(es[i]), es[i].data.editorAfterHash.value);
    }
  }

  /**
   * A return to content the editor changed to at an earlier event of the lineage
   * is reported unless the lineage has held 64 other hashes in between.
   */
  lemma RecentReturnIsReported(es: seq<Event>, writeKind: string, j: nat, i: nat)
    requires j < i < |es| && IsOfLineage(es[j], LineageOf(es[i])) && IsCapture(es[i])
    requires es[j].data.editorAfterHash == es[i].data.editorAfterHash
    requires es[i].data.phase == Some("editor-update") || es[i].data.phase == Some("binding-applied")
    requires es[i].data.editorBeforeHash.Some? && es[i].data.editorBeforeHash != es[i].data.editorAfterHash
    requires !es[i].data.undoOrRedo
    requires |HashesOf(es[j + 1..i], LineageOf(es[i])) - {es[i].data.editorAfterHash.value}| < 64
    ensures |Where(IsReturn, OutAt(es, writeKind, i))| == 1
  {
    assert es[..i][j + 1..] == es[j + 1..i];
    RecentContentIsRemembered(es[..i], LineageOf(es[i]), es[i].data.editorAfterHash.value, j);
    ReturnIsReportedIff(es, writeKind, i);
  }

  // ---------------------------------------------------------------------------
  // Candidate sources
  // ---------------------------------------------------------------------------

  /** The name of a source: how the disk change was classified, or where the shared change came from. */
  predicate IsNamed(source: Event, name: string) {
    if source.kind == "disk.modify.classified" then
      match source.data.classification
      case Some(c) => name == "disk-reload:" + c
      case None => name == "disk-reload:unknown"
    else
      match source.data.originKind
      case Some(origin) => name == origin + "-crdt-projection"
      case None => name == "unknown-crdt-projection"
  }

  lemma CandidateIsNamed(source: Event, name: string)
    ensures name == Candidate(source) <==> IsNamed(source, name)
  {
    assert "disk-reload:" + "unknown" == "disk-reload:unknown";
    assert "unknown" + "-crdt-projection" == "unknown-crdt-projection";
  }

  lemma {:induction false} CandidatesAreDistinct(sources: seq<Event>)
    ensures forall i, k :: 0 <= i < k < |Candidates(sources)| ==> Candidates(sources)[i] != Candidates(sources)[k]
    decreases |sources|
  {
    if sources != [] {
      CandidatesAreDistinct(sources[..|sources| - 1]);
    }
  }

  /** The candidates are the names of the sources, each once. */
  lemma {:induction false} CandidatesAreTheNames(sources: seq<Event>, name: string)
    ensures name in Candidates(sources) <==> exists source :: source in sources && IsNamed(source, name)
    ensures forall i, k :: 0 <= i < k < |Candidates(sources)| ==> Candidates(sources)[i] != Candidates(sources)[k]
    decreases |sources|
  {
    CandidatesAreDistinct(sources);
    if sources != [] {
      var n := |sources| - 1;
      CandidatesAreTheNames(sources[..n], name);
      CandidateIsNamed(sources[n], name);
      assert sources == sources[..n] + [sources[n]];
    }
  }

  /** A later source only adds its name behind the others. */
  lemma {:induction false} CandidatesGrow(sources: seq<Event>, n: nat)
    requires n <= |sources|
    ensures Candidates(sources[..n]) <= Candidates(sources)
    decreases |sources|
  {
    if n < |sources| {
      assert sources[..|sources| - 1][..n] == sources[..n];
      CandidatesGrow(sources[..|sources| - 1], n);
    } else {
      assert sources[..n] == sources;
    }
  }

  // ---------------------------------------------------------------------------
  // The whole report
  // ---------------------------------------------------------------------------

  /** Committed writes count if the group has any, else successful ones. */
  lemma CountedWriteIff(group: seq<Event>, e: Event)
    requires e in group
    ensures IsWrite(e, WriteKind(group)) <==>
              && e.data.diskHash.Some?
              && (e.kind == "disk.write.committed"
                  || (e.kind == "disk.write.ok" && forall o :: o in group ==> o.kind != "disk.write.committed"))
  {
    assert "disk.write.ok"[11] == 'o' && "disk.write.committed"[11] == 'c';
  }

  /** What the events of a group call for, in their order. */
  function ReportOf(es: seq<Event>, writeKind: string): seq<Observation> {
    if es == [] then []
    else ReportOf(es[..|es| - 1], writeKind) + ReportAfter(es[..|es| - 1], es[|es| - 1], writeKind)
  }

  lemma {:induction false} GroupIsReported(es: seq<Event>, writeKind: string)
    ensures ObserveAll(es, writeKind).out == ReportOf(es, writeKind)
    decreases |es|
  {
    if es != [] {
      GroupIsReported(es[..|es| - 1], writeKind);
      LastOut(es, writeKind);
      EventIsReported(es, writeKind, |es| - 1);
    }
  }

  /** The report of a trace: what each group calls for, groups in the order of their first event. */
  lemma {:induction false} TraceIsReported(events: seq<Event>, keys: seq<Key>)
    ensures Observations(events, keys)
            == FlatMap((key: Key) => ReportOf(Sorted(GroupOf(events, key)), WriteKind(Sorted(GroupOf(events, key)))), keys)
    decreases |keys|
  {
    if keys != [] {
      var group := Sorted(GroupOf(events, keys[|keys| - 1]));
      TraceIsReported(events, keys[..|keys| - 1]);
      GroupIsReported(group, WriteKind(group));
    }
  }

  /** A return is in the report exactly when an event of a group calls for it. */
  lemma ReturnIsInTheReportIff(events: seq<Event>, o: Observation)
    ensures o in Observations(events, KeysOf(events)) && IsReturn(o) <==>
              exists key, i: nat :: CallsForReturn(events, key, i, o)
  {
    if o in Observations(events, KeysOf(events)) && IsReturn(o) {
      ObservationsComeFromGroups(events, o);
      var key :| key in KeysOf(events) && o in OutOf(events)(key);
      var group := Sorted(GroupOf(events, key));
      OutComesFromAnEvent(group, WriteKind(group), o);
      var i: nat :| IsOutAt(group, WriteKind(group), o, i);
      ReturnAtIff(group, WriteKind(group), i, o);
      assert CallsForReturn(events, key, i, o);
    }
    if key, i: nat :| CallsForReturn(events, key, i, o) {
      var group := Sorted(GroupOf(events, key));
      ReturnAtIff(group, WriteKind(group), i, o);
      OutOfAnEventIsKept(group, WriteKind(group), o, i);
      GroupsAreReported(events, o, key);
    }
  }

  predicate CallsForReturn(events: seq<Event>, key: Key, i: nat, o: Observation) {
    var group := Sorted(GroupOf(events, key));
    key in KeysOf(events) && i < |group| && ReturnsToSeen(group[..i], group[i]) && ReturnAfter(group[..i], group[i]) == [o]
  }

  lemma {:induction false} WhereContents<T>(f: T -> bool, xs: seq<T>, x: T)
    ensures x in Where(f, xs) <==> x in xs && f(x)
    decreases |xs|
  {
    if xs != [] {
      WhereContents(f, xs[..|xs| - 1], x);
      assert xs == xs[..|xs| - 1] + [xs[|xs| - 1]];
    }
  }

  lemma ReturnAtIff(group: seq<Event>, writeKind: string, i: nat, o: Observation)
    requires i < |group|
    ensures o in OutAt(group, writeKind, i) && IsReturn(o) <==>
              ReturnsToSeen(group[..i], group[i]) && ReturnAfter(group[..i], group[i]) == [o]
  {
    ReturnIsReportedIff(group, writeKind, i);
    WhereContents(IsReturn, OutAt(group, writeKind, i), o);
  }

  // ---------------------------------------------------------------------------
  // Gaps and captures
  // ---------------------------------------------------------------------------

  predicate IsLoss(e: Event) {
    e.kind == "flight.events.dropped" || e.kind == "redaction.failure" || e.kind == "path.identity.degraded"
  }

  /** A capture that was tried and did not end well. */
  predicate IsFailedCapture(e: Event) {
    e.data.captureStatus != None && e.data.captureStatus != Some("") && e.data.captureStatus != Some("ok")
  }

  lemma GapsOfOne(e: Event)
    ensures |GapsOf(e)| == (if IsLoss(e) then 1 else 0) + if IsFailedCapture(e) then 1 else 0
  {
  }

  /** Every loss and every failed capture of the trace is one gap, with or without a path. */
  lemma {:induction false} GapsAreCounted(events: seq<Event>)
    ensures |Gaps(events)| == Count(IsLoss, events) + Count(IsFailedCapture, events)
    decreases |events|
  {
    if events != [] {
      GapsAreCounted(events[..|events| - 1]);
      GapsOfOne(events[|events| - 1]);
    }
  }

  /** The gaps name the losses and the failed captures of the trace, and nothing else. */
  lemma {:induction false} GapsAreTheLosses(events: seq<Event>, g: Gap)
    ensures g in Gaps(events) <==> exists e :: e in events && IsGapOf(g, e)
    decreases |events|
  {
    if events != [] {
      var n := |events| - 1;
      GapsAreTheLosses(events[..n], g);
      GapIff(g, events[n]);
      assert events == events[..n] + [events[n]];
    }
  }

  predicate IsGapOf(g: Gap, e: Event) {
    && g.at == e.at && g.device == e.device
    && (if IsLoss(e) && g.reason == e.kind then true else IsFailedCapture(e) && e.data.captureStatus == Some(g.reason))
  }

  lemma GapIff(g: Gap, e: Event)
    ensures g in GapsOf(e) <==> IsGapOf(g, e)
  {
  }

  /** An ok capture of the trace that names a path. */
  predicate IsCounted(e: Event) {
    && e.path.Some? && e.path.value != ""
    && e.kind == "editor.causality.observed" && e.data.captureStatus == Some("ok") && e.data.editorAfterHash.Some?
  }

  lemma {:induction false} GroupCaptures(es: seq<Event>, writeKind: string)
    ensures ObserveAll(es, writeKind).trail.captures == Count(IsCapture, es)
    decreases |es|
  {
    if es != [] {
      GroupCaptures(es[..|es| - 1], writeKind);
    }
  }

  lemma {:induction false} CountSplits<T>(f: T -> bool, g: T -> bool, either: T -> bool, xs: seq<T>)
    requires forall x :: !(f(x) && g(x)) && (either(x) <==> f(x) || g(x))
    ensures Count(either, xs) == Count(f, xs) + Count(g, xs)
    decreases |xs|
  {
    if xs != [] {
      CountSplits(f, g, either, xs[..|xs| - 1]);
    }
  }

  function CapturesUnder(keys: seq<Key>): Event -> bool {
    (e: Event) => IsCapture(e) && IsGrouped(e) && KeyOf(e) in keys
  }

  lemma CapturesOfGroup(events: seq<Event>, key: Key)
    ensures GroupReport(events, key).trail.captures == Count((e: Event) => IsCapture(e) && BelongsTo(e, key), events)
  {
    var group := Sorted(GroupOf(events, key));
    GroupCaptures(group, WriteKind(group));
    CountSorted(GroupOf(events, key), IsCapture);
    CountInGroup(events, key, IsCapture, (e: Event) => IsCapture(e) && BelongsTo(e, key));
  }

  lemma {:induction false} CapturesOfGroups(events: seq<Event>, keys: seq<Key>)
    requires AreDistinct(keys)
    ensures Captures(events, keys) == Count(CapturesUnder(keys), events)
    decreases |keys|
  {
    if keys == [] {
      CountNone(CapturesUnder([]), events);
    } else {
      var shorter, last := keys[..|keys| - 1], keys[|keys| - 1];
      assert keys == shorter + [last];
      DistinctSplit(shorter, last);
      CapturesOfGroups(events, shorter);
      CapturesOfGroup(events, last);
      CountSplits(CapturesUnder(shorter), (e: Event) => IsCapture(e) && BelongsTo(e, last), CapturesUnder(keys), events);
    }
  }

  lemma {:induction false} KeysAreKept(events: seq<Event>, e: Event)
    requires e in events && IsGrouped(e)
    ensures KeyOf(e) in KeysOf(events)
    decreases |events|
  {
    if e != events[|events| - 1] {
      KeysAreKept(events[..|events| - 1], e);
    }
  }

  /** The report counts each ok capture with a path once, and is observed exactly when there is one and nothing was lost. */
  lemma CapturesAreCounted(events: seq<Event>)
    ensures Captures(events, KeysOf(events)) == Count(IsCounted, events)
  {
    KeysAreDistinct(events);
    CapturesOfGroups(events, KeysOf(events));
    forall e | e in events
      ensures CapturesUnder(KeysOf(events))(e) == IsCounted(e)
    {
      if IsGrouped(e) {
        KeysAreKept(events, e);
      }
    }
    CountAgrees(CapturesUnder(KeysOf(events)), IsCounted, events);
  }
}
