/**
 * The passive classifier of flight traces (qa/analyzers/editorCausality.ts): it
 * groups events, orders each group, and reports repeated writes of the same
 * content and editor states that return to content seen before.
 */
module EditorCausality {
  import opened Wrappers

  datatype Data = Data(
    captureStatus: Option<string>, phase: Option<string>, contentHashDomain: Option<string>, diskHash: Option<string>,
    editorBeforeHash: Option<string>, editorAfterHash: Option<string>, runtimeId: Option<string>, cmId: Option<string>,
    yTextId: Option<string>, bindingEpoch: Option<int>, crdtHash: Option<string>,
    diskEditorNormalizedHash: Option<string>, classification: Option<string>, originKind: Option<string>,
    undoOrRedo: bool, nonUserDocChanged: bool, userDocChanged: bool, runtimeCurrent: bool, editorEqualsCrdt: Option<bool>)

  /** `at` is the sequence number of the event within its device, boot and trace. */
  datatype Event = Event(
    kind: string, at: int, device: Option<string>, boot: Option<string>, trace: Option<string>, path: Option<string>,
    data: Data)

  datatype Key = Key(device: Option<string>, boot: Option<string>, trace: Option<string>, path: string)

  datatype Observation = Observation(
    kind: string, path: string, device: Option<string>, boot: Option<string>, at: int,
    evidence: seq<int>, candidates: seq<string>)

  const REPEATED := "repeated-same-content-disk-write"
  const RETURNED := "return-to-seen-editor-state"
  const RETURNED_NON_USER := "non-user-return-to-seen-editor-state"
  const WINDOW := 24
  const HISTORY := 64

  // ---------------------------------------------------------------------------
  // Grouping
  // ---------------------------------------------------------------------------

  predicate IsGrouped(e: Event) {
    e.path.Some? && e.path.value != ""
  }

  function KeyOf(e: Event): Key
    requires IsGrouped(e)
  {
    Key(e.device, e.boot, e.trace, e.path.value)
  }

  predicate BelongsTo(e: Event, key: Key) {
    IsGrouped(e) && KeyOf(e) == key
  }

  /** The events of one group, in the order of the trace. */
  function GroupOf(events: seq<Event>, key: Key): seq<Event> {
    if events == [] then []
    else
      var before, e := GroupOf(events[..|events| - 1], key), events[|events| - 1];
      if BelongsTo(e, key) then before + [e] else before
  }

  /** The keys in the order of their first event. */
  function KeysOf(events: seq<Event>): seq<Key> {
    if events == [] then []
    else
      var before, e := KeysOf(events[..|events| - 1]), events[|events| - 1];
      if IsGrouped(e) && KeyOf(e) !in before then before + [KeyOf(e)] else before
  }

  lemma {:induction false} KeysCoverGroups(events: seq<Event>, key: Key)
    ensures key in KeysOf(events) <==> GroupOf(events, key) != []
    decreases |events|
  {
    if events != [] {
      KeysCoverGroups(events[..|events| - 1], key);
    }
  }

  // ---------------------------------------------------------------------------
  // Ordering
  // ---------------------------------------------------------------------------

  /** Keeps events with equal sequence numbers in their order. */
  function Insert(sorted: seq<Event>, e: Event): seq<Event> {
    if sorted == [] || sorted[|sorted| - 1].at <= e.at then sorted + [e]
    else Insert(sorted[..|sorted| - 1], e) + [sorted[|sorted| - 1]]
  }

  /** `Array.prototype.sort` by sequence number, which is stable. */
  function Sorted(events: seq<Event>): seq<Event> {
    if events == [] then [] else Insert(Sorted(events[..|events| - 1]), events[|events| - 1])
  }

  predicate IsSorted(es: seq<Event>) {
    forall i, k :: 0 <= i < k < |es| ==> es[i].at <= es[k].at
  }

  /** The events with one sequence number. */
  function AtNumber(es: seq<Event>, at: int): seq<Event> {
    if es == [] then []
    else
      var before, e := AtNumber(es[..|es| - 1], at), es[|es| - 1];
      if e.at == at then before + [e] else before
  }

  lemma {:induction false} InsertContents(sorted: seq<Event>, e: Event)
    ensures multiset(Insert(sorted, e)) == multiset(sorted) + multiset{e}
    decreases |sorted|
  {
    if sorted != [] && sorted[|sorted| - 1].at > e.at {
      var n := |sorted| - 1;
      InsertContents(sorted[..n], e);
      assert sorted == sorted[..n] + [sorted[n]];
    }
  }

  lemma {:induction false} InsertMembers(sorted: seq<Event>, e: Event, x: Event)
    requires x in Insert(sorted, e)
    ensures x in sorted || x == e
    decreases |sorted|
  {
    if sorted != [] && sorted[|sorted| - 1].at > e.at && x != sorted[|sorted| - 1] {
      InsertMembers(sorted[..|sorted| - 1], e, x);
    }
  }

  lemma {:induction false} InsertSorts(sorted: seq<Event>, e: Event)
    requires IsSorted(sorted)
    ensures IsSorted(Insert(sorted, e))
    decreases |sorted|
  {
    if sorted != [] && sorted[|sorted| - 1].at > e.at {
      var shorter, last := sorted[..|sorted| - 1], sorted[|sorted| - 1];
      InsertSorts(shorter, e);
      forall x | x in Insert(shorter, e)
        ensures x.at <= last.at
      {
        InsertMembers(shorter, e, x);
      }
      AppendSorts(Insert(shorter, e), last);
    }
  }

  lemma AppendSorts(sorted: seq<Event>, last: Event)
    requires IsSorted(sorted) && forall x :: x in sorted ==> x.at <= last.at
    ensures IsSorted(sorted + [last])
  {
  }

  lemma NextAtNumber(es: seq<Event>, e: Event, at: int)
    ensures AtNumber(es + [e], at) == AtNumber(es, at) + if e.at == at then [e] else []
  {
    assert (es + [e])[..|es|] == es;
  }

  lemma {:induction false} InsertIsStable(sorted: seq<Event>, e: Event, at: int)
    ensures AtNumber(Insert(sorted, e), at) == AtNumber(sorted, at) + (if e.at == at then [e] else [])
    decreases |sorted|
  {
    if sorted == [] || sorted[|sorted| - 1].at <= e.at {
      NextAtNumber(sorted, e, at);
    } else {
      var shorter, last := sorted[..|sorted| - 1], sorted[|sorted| - 1];
      InsertIsStable(shorter, e, at);
      NextAtNumber(Insert(shorter, e), last, at);
      NextAtNumber(shorter, last, at);
      assert sorted == shorter + [last];
    }
  }

  lemma {:induction false} SortSorts(events: seq<Event>)
    ensures IsSorted(Sorted(events)) && multiset(Sorted(events)) == multiset(events)
    decreases |events|
  {
    if events != [] {
      var n := |events| - 1;
      var before := Sorted(events[..n]);
      SortSorts(events[..n]);
      InsertSorts(before, events[n]);
      InsertContents(before, events[n]);
      assert events == events[..n] + [events[n]];
    }
  }

  /** Sorting a group keeps events with equal sequence numbers in their order. */
  lemma {:induction false} SortIsStable(events: seq<Event>, at: int)
    ensures AtNumber(Sorted(events), at) == AtNumber(events, at)
    decreases |events|
  {
    if events != [] {
      var n := |events| - 1;
      var before := Sorted(events[..n]);
      SortIsStable(events[..n], at);
      SortSorts(events[..n]);
      InsertIsStable(before, events[n], at);
      assert Sorted(events) == Insert(before, events[n]);
    }
  }

  // ---------------------------------------------------------------------------
  // Repeated writes
  // ---------------------------------------------------------------------------

  function WriteKind(group: seq<Event>): string {
    if exists e :: e in group && e.kind == "disk.write.committed" then "disk.write.committed" else "disk.write.ok"
  }

  predicate IsWrite(e: Event, writeKind: string) {
    e.kind == writeKind && e.data.diskHash.Some?
  }

  function Rendered(x: Option<string>): string {
    if x.Some? then x.value else "undefined"
  }

  /** The text a write is counted under. */
  function WriteKey(e: Event): string
    requires e.data.diskHash.Some?
  {
    Rendered(e.data.contentHashDomain) + ":" + e.data.diskHash.value
  }

  function LastThree(ns: seq<int>): seq<int> {
    if |ns| <= 3 then ns else ns[|ns| - 3..]
  }

  function Describe(e: Event, kind: string, evidence: seq<int>, candidates: seq<string>): Observation {
    Observation(kind, if e.path.Some? then e.path.value else "", e.device, e.boot, e.at, evidence, candidates)
  }

  // ---------------------------------------------------------------------------
  // Returning to seen content
  // ---------------------------------------------------------------------------

  datatype Lineage = Lineage(runtimeId: Option<string>, cmId: Option<string>, domain: Option<string>)

  datatype Seen = Seen(hash: string, at: int)

  function LineageOf(e: Event): Lineage {
    Lineage(e.data.runtimeId, e.data.cmId, e.data.contentHashDomain)
  }

  /** A `Map` from hash to sequence number, in insertion order. */
  function Lookup(history: seq<Seen>, hash: string): Option<int> {
    if history == [] then None
    else if history[0].hash == hash then Some(history[0].at)
    else Lookup(history[1..], hash)
  }

  /** `Map.set`: an existing hash keeps its place. */
  function Put(history: seq<Seen>, hash: string, at: int): seq<Seen> {
    if history == [] then [Seen(hash, at)]
    else if history[0].hash == hash then [Seen(hash, at)] + history[1..]
    else [history[0]] + Put(history[1..], hash, at)
  }

  function Delete(history: seq<Seen>, hash: string): seq<Seen> {
    if history == [] then []
    else if history[0].hash == hash then history[1..]
    else [history[0]] + Delete(history[1..], hash)
  }

  predicate IsCapture(e: Event) {
    e.kind == "editor.causality.observed" && e.data.captureStatus == Some("ok") && e.data.editorAfterHash.Some?
  }

  function Remember(history: seq<Seen>, e: Event): seq<Seen>
    requires IsCapture(e)
  {
    var h1 := if e.data.editorBeforeHash.Some? then Put(history, e.data.editorBeforeHash.value, e.at) else history;
    var h2 := Put(Delete(h1, e.data.editorAfterHash.value), e.data.editorAfterHash.value, e.at);
    if |h2| > HISTORY then h2[1..] else h2
  }

  /** An earlier event that could be where the content of `e` came from. */
  predicate Matches(prior: Event, e: Event) {
    var p, d := prior.data, e.data;
    && p.captureStatus == Some("ok") && p.contentHashDomain == d.contentHashDomain && p.runtimeId == d.runtimeId
    && if prior.kind == "disk.modify.classified" then
         (if p.diskEditorNormalizedHash.Some? then p.diskEditorNormalizedHash else p.diskHash) == d.editorAfterHash
         && p.runtimeCurrent
       else
         p.phase == Some("crdt-change") && p.yTextId == d.yTextId && p.bindingEpoch == d.bindingEpoch && p.cmId == d.cmId
         && p.crdtHash == d.editorAfterHash
  }

  function Matching(recent: seq<Event>, e: Event): seq<Event> {
    if recent == [] then []
    else
      var before, prior := Matching(recent[..|recent| - 1], e), recent[|recent| - 1];
      if Matches(prior, e) then before + [prior] else before
  }

  function Ats(es: seq<Event>): (r: seq<int>)
    ensures |r| == |es| && forall i :: 0 <= i < |es| ==> r[i] == es[i].at
  {
    if es == [] then [] else [es[0].at] + Ats(es[1..])
  }

  function Candidate(prior: Event): string {
    if prior.kind == "disk.modify.classified" then
      "disk-reload:" + (if prior.data.classification.Some? then prior.data.classification.value else "unknown")
    else (if prior.data.originKind.Some? then prior.data.originKind.value else "unknown") + "-crdt-projection"
  }

  /** The distinct candidate sources, in the order of their first match. */
  function Candidates(matched: seq<Event>): seq<string> {
    if matched == [] then []
    else
      var before, c := Candidates(matched[..|matched| - 1]), Candidate(matched[|matched| - 1]);
      if c in before then before else before + [c]
  }

  predicate Returns(history: seq<Seen>, e: Event)
    requires IsCapture(e)
  {
    && (e.data.phase == Some("editor-update") || e.data.phase == Some("binding-applied"))
    && e.data.editorBeforeHash.Some? && e.data.editorBeforeHash != e.data.editorAfterHash
    && Lookup(history, e.data.editorAfterHash.value).Some?
    && !e.data.undoOrRedo
  }

  // ---------------------------------------------------------------------------
  // One group
  // ---------------------------------------------------------------------------

  /** What the loop over a group carries from event to event. */
  datatype Trail = Trail(
    histories: map<Lineage, seq<Seen>>, writes: map<string, seq<int>>, recent: seq<Event>, captures: nat)

  datatype Observed = Observed(trail: Trail, out: seq<Observation>)

  const NO_TRAIL := Trail(map[], map[], [], 0)

  function HistoryOf(t: Trail, lineage: Lineage): seq<Seen> {
    if lineage in t.histories then t.histories[lineage] else []
  }

  function WritesOf(t: Trail, key: string): seq<int> {
    if key in t.writes then t.writes[key] else []
  }

  function NoteWrite(t: Trail, e: Event, writeKind: string): Observed {
    if !IsWrite(e, writeKind) then Observed(t, [])
    else
      var prior := WritesOf(t, WriteKey(e)) + [e.at];
      Observed(t.(writes := t.writes[WriteKey(e) := LastThree(prior)]),
               if |prior| == 3 then [Describe(e, REPEATED, prior, [])] else [])
  }

  function Marked(e: Event): seq<Observation> {
    if e.kind == "editor.causality.observed" && e.data.phase == Some("symptom-marked")
    then [Describe(e, "user-reported-rollback", [e.at], [])] else []
  }

  function Returned(t: Trail, e: Event): seq<Observation>
    requires IsCapture(e)
  {
    var history := HistoryOf(t, LineageOf(e));
    if !Returns(history, e) then []
    else
      var matched := Matching(t.recent, e);
      var applied := e.data.phase == Some("binding-applied");
      [Describe(e, if e.data.nonUserDocChanged || applied then RETURNED_NON_USER else RETURNED,
                [Lookup(history, e.data.editorAfterHash.value).value] + Ats(matched) + [e.at],
                Candidates(matched) + (if applied then ["binding-reprojection"] else []))]
  }

  function Diverged(e: Event): seq<Observation> {
    if e.data.phase == Some("editor-update") && e.data.userDocChanged && e.data.editorEqualsCrdt == Some(false)
    then [Describe(e, "editor-crdt-diverged-after-input", [e.at], [])] else []
  }

  function NoteCapture(t: Trail, e: Event): Observed {
    if !IsCapture(e) then Observed(t, Marked(e))
    else
      Observed(t.(histories := t.histories[LineageOf(e) := Remember(HistoryOf(t, LineageOf(e)), e)], captures := t.captures + 1),
               Marked(e) + Returned(t, e) + Diverged(e))
  }

  function Slide(recent: seq<Event>, e: Event): seq<Event> {
    if |recent| + 1 > WINDOW then (recent + [e])[1..] else recent + [e]
  }

  function Observe(t: Trail, e: Event, writeKind: string): Observed {
    var written := NoteWrite(t, e, writeKind);
    var captured := NoteCapture(written.trail, e);
    Observed(captured.trail.(recent := Slide(t.recent, e)), written.out + captured.out)
  }

  function ObserveAll(es: seq<Event>, writeKind: string): Observed {
    if es == [] then Observed(NO_TRAIL, [])
    else
      var before := ObserveAll(es[..|es| - 1], writeKind);
      var last := Observe(before.trail, es[|es| - 1], writeKind);
      Observed(last.trail, before.out + last.out)
  }

  /** What the i-th event of a group adds to the report. */
  function OutAt(es: seq<Event>, writeKind: string, i: nat): seq<Observation>
    requires i < |es|
  {
    Observe(ObserveAll(es[..i], writeKind).trail, es[i], writeKind).out
  }

  // ---------------------------------------------------------------------------
  // What the trail stands for
  // ---------------------------------------------------------------------------

  /** The sequence numbers of the writes counted under a key. */
  function WriteAts(es: seq<Event>, writeKind: string, key: string): seq<int> {
    if es == [] then []
    else
      var before, e := WriteAts(es[..|es| - 1], writeKind, key), es[|es| - 1];
      if IsWrite(e, writeKind) && WriteKey(e) == key then before + [e.at] else before
  }

  function Tail(es: seq<Event>): seq<Event> {
    if |es| <= WINDOW then es else es[|es| - WINDOW..]
  }

  /** An event whose editor held the hash, in the given lineage. */
  predicate Witnesses(e: Event, lineage: Lineage, hash: string) {
    IsCapture(e) && LineageOf(e) == lineage
    && (e.data.editorBeforeHash == Some(hash) || e.data.editorAfterHash == Some(hash))
  }

  ghost predicate IsWitnessed(es: seq<Event>, lineage: Lineage, seen: Seen) {
    exists j :: 0 <= j < |es| && es[j].at == seen.at && Witnesses(es[j], lineage, seen.hash)
  }

  lemma {:induction false} PutContents(history: seq<Seen>, hash: string, at: int)
    ensures forall s :: s in Put(history, hash, at) ==> s in history || s == Seen(hash, at)
  {
    if history != [] {
      PutContents(history[1..], hash, at);
    }
  }

  lemma {:induction false} DeleteContents(history: seq<Seen>, hash: string)
    ensures forall s :: s in Delete(history, hash) ==> s in history
  {
    if history != [] {
      DeleteContents(history[1..], hash);
    }
  }

  lemma RememberContents(history: seq<Seen>, e: Event)
    requires IsCapture(e)
    ensures forall s :: s in Remember(history, e) ==>
              s in history || (s.at == e.at && (Some(s.hash) == e.data.editorBeforeHash || Some(s.hash) == e.data.editorAfterHash))
  {
    var h1 := if e.data.editorBeforeHash.Some? then Put(history, e.data.editorBeforeHash.value, e.at) else history;
    if e.data.editorBeforeHash.Some? {
      PutContents(history, e.data.editorBeforeHash.value, e.at);
    }
    DeleteContents(h1, e.data.editorAfterHash.value);
    PutContents(Delete(h1, e.data.editorAfterHash.value), e.data.editorAfterHash.value, e.at);
  }

  lemma {:induction false} LookupContents(history: seq<Seen>, hash: string)
    requires Lookup(history, hash).Some?
    ensures Seen(hash, Lookup(history, hash).value) in history
  {
    if history[0].hash != hash {
      LookupContents(history[1..], hash);
    }
  }

  lemma SlideTail(es: seq<Event>, e: Event)
    ensures Slide(Tail(es), e) == Tail(es + [e])
  {
  }

  /** The sliding window is exactly the preceding 24 events of the group. */
  lemma {:induction false} RecentIsTail(es: seq<Event>, writeKind: string)
    ensures ObserveAll(es, writeKind).trail.recent == Tail(es)
    decreases |es|
  {
    if es != [] {
      var n := |es| - 1;
      RecentIsTail(es[..n], writeKind);
      SlideTail(es[..n], es[n]);
      assert es[..n] + [es[n]] == es;
    }
  }

  /** Per key the loop keeps the last three sequence numbers. */
  lemma {:induction false} WritesAreLastThree(es: seq<Event>, writeKind: string, key: string)
    ensures WritesOf(ObserveAll(es, writeKind).trail, key) == LastThree(WriteAts(es, writeKind, key))
    decreases |es|
  {
    if es != [] {
      var n := |es| - 1;
      var before := ObserveAll(es[..n], writeKind).trail;
      WritesAreLastThree(es[..n], writeKind, key);
      NextWrites(before, es[n], writeKind, key);
      LastThreeOfNext(WriteAts(es[..n], writeKind, key), es[n].at);
    }
  }

  lemma LastThreeOfNext(ns: seq<int>, n: int)
    ensures LastThree(LastThree(ns) + [n]) == LastThree(ns + [n])
  {
  }

  lemma NextWrites(t: Trail, e: Event, writeKind: string, key: string)
    ensures WritesOf(Observe(t, e, writeKind).trail, key)
            == if IsWrite(e, writeKind) && WriteKey(e) == key then LastThree(WritesOf(t, key) + [e.at]) else WritesOf(t, key)
  {
  }

  /** Everything a history remembers was really held by the editor at the event it names. */
  lemma {:induction false} HistoriesAreWitnessed(es: seq<Event>, writeKind: string, lineage: Lineage, seen: Seen)
    requires seen in HistoryOf(ObserveAll(es, writeKind).trail, lineage)
    ensures IsWitnessed(es, lineage, seen)
    decreases |es|
  {
    var n := |es| - 1;
    var before := ObserveAll(es[..n], writeKind).trail;
    if seen in HistoryOf(before, lineage) {
      HistoriesAreWitnessed(es[..n], writeKind, lineage, seen);
      var j :| 0 <= j < n && es[..n][j].at == seen.at && Witnesses(es[..n][j], lineage, seen.hash);
      assert es[j].at == seen.at && Witnesses(es[j], lineage, seen.hash);
    } else {
      assert IsCapture(es[n]) && LineageOf(es[n]) == lineage;
      RememberContents(HistoryOf(before, lineage), es[n]);
      assert es[n].at == seen.at && Witnesses(es[n], lineage, seen.hash);
    }
  }

  // ---------------------------------------------------------------------------
  // Theorems
  // ---------------------------------------------------------------------------

  predicate IsReturn(o: Observation) {
    o.kind == RETURNED || o.kind == RETURNED_NON_USER
  }

  /** The i-th event is the third write counted under its key. */
  predicate IsThirdWrite(es: seq<Event>, writeKind: string, i: nat)
    requires i < |es|
  {
    IsWrite(es[i], writeKind) && |WriteAts(es[..i], writeKind, WriteKey(es[i]))| == 2
  }

  lemma CapturesNeverRepeat(t: Trail, e: Event, o: Observation)
    requires o in NoteCapture(t, e).out
    ensures o.kind != REPEATED
    ensures IsReturn(o) ==> IsCapture(e) && o in Returned(t, e)
  {
  }

  lemma OutIsRepeatedIff(t: Trail, e: Event, writeKind: string, o: Observation)
    ensures o in Observe(t, e, writeKind).out && o.kind == REPEATED <==> o in NoteWrite(t, e, writeKind).out
  {
  }

  /** What the i-th event adds as a write: one observation when it is the third under its key. */
  lemma WriteOutIsThird(es: seq<Event>, writeKind: string, i: nat)
    requires i < |es|
    ensures NoteWrite(ObserveAll(es[..i], writeKind).trail, es[i], writeKind).out
            == if IsThirdWrite(es, writeKind, i)
               then [Describe(es[i], REPEATED, WriteAts(es[..i], writeKind, WriteKey(es[i])) + [es[i].at], [])] else []
  {
    if IsWrite(es[i], writeKind) {
      WritesAreLastThree(es[..i], writeKind, WriteKey(es[i]));
    }
  }

  lemma OutIsWriteOut(es: seq<Event>, writeKind: string, i: nat, o: Observation)
    requires i < |es|
    ensures o in OutAt(es, writeKind, i) && o.kind == REPEATED <==>
            o in NoteWrite(ObserveAll(es[..i], writeKind).trail, es[i], writeKind).out
  {
    OutIsRepeatedIff(ObserveAll(es[..i], writeKind).trail, es[i], writeKind, o);
  }

  /** A repeated-write observation appears exactly at the third write of a key, and cites the first three. */
  lemma RepeatedWriteIsTheThird(es: seq<Event>, writeKind: string, i: nat, o: Observation)
    requires i < |es|
    ensures o in OutAt(es, writeKind, i) && o.kind == REPEATED <==>
              && IsThirdWrite(es, writeKind, i)
              && o == Describe(es[i], REPEATED, WriteAts(es[..i], writeKind, WriteKey(es[i])) + [es[i].at], [])
  {
    WriteOutIsThird(es, writeKind, i);
    OutIsWriteOut(es, writeKind, i, o);
  }

  lemma {:induction false} WriteAtsGrow(es: seq<Event>, writeKind: string, key: string, i: nat)
    requires i <= |es|
    ensures WriteAts(es[..i], writeKind, key) <= WriteAts(es, writeKind, key)
    decreases |es|
  {
    if i < |es| {
      var n := |es| - 1;
      assert es[..n][..i] == es[..i];
      WriteAtsGrow(es[..n], writeKind, key, i);
    } else {
      assert es[..i] == es;
    }
  }

  /** The i-th event is the third write counted under `key`, and with the two before it the first three of all. */
  predicate IsThirdOf(es: seq<Event>, writeKind: string, key: string, i: nat) {
    && i < |es| && IsThirdWrite(es, writeKind, i) && WriteKey(es[i]) == key
    && WriteAts(es[..i + 1], writeKind, key) <= WriteAts(es, writeKind, key)
  }

  lemma ThirdOfPrefix(es: seq<Event>, writeKind: string, key: string, n: nat, i: nat)
    requires n <= |es| && IsThirdOf(es[..n], writeKind, key, i)
    ensures IsThirdOf(es, writeKind, key, i)
  {
    assert es[..n][..i] == es[..i] && es[..n][..i + 1] == es[..i + 1];
    WriteAtsGrow(es, writeKind, key, i + 1);
  }

  /** Every key with at least three writes has a third write. */
  lemma {:induction false} ThirdWriteExists(es: seq<Event>, writeKind: string, key: string)
    requires |WriteAts(es, writeKind, key)| >= 3
    ensures exists i: nat :: IsThirdOf(es, writeKind, key, i)
    decreases |es|
  {
    var n := |es| - 1;
    if |WriteAts(es[..n], writeKind, key)| >= 3 {
      ThirdWriteExists(es[..n], writeKind, key);
      var i: nat :| IsThirdOf(es[..n], writeKind, key, i);
      ThirdOfPrefix(es, writeKind, key, n, i);
    } else {
      assert es[..n + 1] == es;
      assert IsThirdOf(es, writeKind, key, n);
    }
  }

  lemma ThirdWriteIsUnique(es: seq<Event>, writeKind: string, i: nat, k: nat)
    requires i < |es| && k < |es| && IsThirdWrite(es, writeKind, i) && IsThirdWrite(es, writeKind, k)
    requires WriteKey(es[i]) == WriteKey(es[k])
    ensures i == k
  {
    if i < k {
      LaterWritesFollowThree(es, writeKind, i, k);
    } else if k < i {
      LaterWritesFollowThree(es, writeKind, k, i);
    }
  }

  lemma LaterWritesFollowThree(es: seq<Event>, writeKind: string, i: nat, k: nat)
    requires i < k < |es| && IsThirdWrite(es, writeKind, i)
    ensures |WriteAts(es[..k], writeKind, WriteKey(es[i]))| >= 3
  {
    assert es[..k][..i + 1] == es[..i + 1] && es[..i + 1][..i] == es[..i];
    WriteAtsGrow(es[..k], writeKind, WriteKey(es[i]), i + 1);
  }

  /**
   * Every return-to-seen observation cites an earlier event of its group and
   * lineage that really had the hash, then exactly the matching events among the
   * preceding 24, then itself.
   */
  lemma ReturnsCiteTheirEvidence(es: seq<Event>, writeKind: string, i: nat, o: Observation)
    requires i < |es| && o in OutAt(es, writeKind, i) && IsReturn(o)
    ensures IsCapture(es[i]) && |o.evidence| >= 2
    ensures exists j :: 0 <= j < i && es[j].at == o.evidence[0]
                        && Witnesses(es[j], LineageOf(es[i]), es[i].data.editorAfterHash.value)
    ensures o.evidence[1..] == Ats(Matching(Tail(es[..i]), es[i])) + [es[i].at]
  {
    var before := ObserveAll(es[..i], writeKind).trail;
    ReturnComesFromItsTrail(before, es[i], writeKind, o);
    RecentIsTail(es[..i], writeKind);
    SeenIsWitnessed(es, writeKind, i);
  }

  lemma ReturnedShape(t: Trail, e: Event, o: Observation)
    requires IsCapture(e) && o in Returned(t, e)
    ensures var seen := Lookup(HistoryOf(t, LineageOf(e)), e.data.editorAfterHash.value);
            seen.Some? && o.evidence == [seen.value] + (Ats(Matching(t.recent, e)) + [e.at])
  {
  }

  lemma WritingKeepsTheRest(t: Trail, e: Event, writeKind: string)
    ensures NoteWrite(t, e, writeKind).trail == t.(writes := NoteWrite(t, e, writeKind).trail.writes)
  {
  }

  lemma ReturnIsCaptured(t: Trail, e: Event, writeKind: string, o: Observation)
    requires o in Observe(t, e, writeKind).out && IsReturn(o)
    ensures o in NoteCapture(NoteWrite(t, e, writeKind).trail, e).out
  {
  }

  /** A return-to-seen observation is put together from the trail as it was before its event. */
  lemma ReturnComesFromItsTrail(t: Trail, e: Event, writeKind: string, o: Observation)
    requires o in Observe(t, e, writeKind).out && IsReturn(o)
    ensures IsCapture(e)
    ensures var seen := Lookup(HistoryOf(t, LineageOf(e)), e.data.editorAfterHash.value);
            seen.Some? && o.evidence == [seen.value] + (Ats(Matching(t.recent, e)) + [e.at])
  {
    var written := NoteWrite(t, e, writeKind).trail;
    ReturnIsCaptured(t, e, writeKind, o);
    CapturesNeverRepeat(written, e, o);
    ReturnedShape(written, e, o);
    WritingKeepsTheRest(t, e, writeKind);
  }

  /** What a capture is compared with was held by the editor at an earlier event. */
  lemma SeenIsWitnessed(es: seq<Event>, writeKind: string, i: nat)
    requires i < |es| && IsCapture(es[i])
    requires Lookup(HistoryOf(ObserveAll(es[..i], writeKind).trail, LineageOf(es[i])), es[i].data.editorAfterHash.value).Some?
    ensures var lineage, hash := LineageOf(es[i]), es[i].data.editorAfterHash.value;
            var at := Lookup(HistoryOf(ObserveAll(es[..i], writeKind).trail, lineage), hash).value;
            exists j :: 0 <= j < i && es[j].at == at && Witnesses(es[j], lineage, hash)
  {
    var lineage, hash := LineageOf(es[i]), es[i].data.editorAfterHash.value;
    var history := HistoryOf(ObserveAll(es[..i], writeKind).trail, lineage);
    LookupContents(history, hash);
    HistoriesAreWitnessed(es[..i], writeKind, lineage, Seen(hash, Lookup(history, hash).value));
    var j :| 0 <= j < i && es[..i][j].at == Lookup(history, hash).value && Witnesses(es[..i][j], lineage, hash);
    assert es[j].at == Lookup(history, hash).value && Witnesses(es[j], lineage, hash);
  }

  /** The cited matches are all the matching events of the window, and nothing else. */
  lemma {:induction false} MatchingIsExact(recent: seq<Event>, e: Event, prior: Event)
    ensures prior in Matching(recent, e) <==> prior in recent && Matches(prior, e)
    decreases |recent|
  {
    if recent != [] {
      var n := |recent| - 1;
      MatchingIsExact(recent[..n], e, prior);
      assert recent == recent[..n] + [recent[n]];
    }
  }

  /** Keys tell writes apart as long as no hash holds a colon. */
  lemma WriteKeysAreExactWithoutColons(a: Event, b: Event)
    requires a.data.diskHash.Some? && b.data.diskHash.Some?
    requires ':' !in a.data.diskHash.value && ':' !in b.data.diskHash.value
    ensures WriteKey(a) == WriteKey(b) <==>
              Rendered(a.data.contentHashDomain) == Rendered(b.data.contentHashDomain) && a.data.diskHash == b.data.diskHash
  {
    if WriteKey(a) == WriteKey(b) {
      SplitAtLastColon(Rendered(a.data.contentHashDomain), a.data.diskHash.value,
                       Rendered(b.data.contentHashDomain), b.data.diskHash.value);
    }
  }

  lemma LastColon(whole: string, p: string, q: string, n: nat)
    requires whole == p + ":" + q && ':' !in q && n < |whole| && whole[n] == ':'
    ensures n <= |p|
  {
  }

  lemma SplitAtLastColon(p: string, q: string, r: string, t: string)
    requires p + ":" + q == r + ":" + t && ':' !in q && ':' !in t
    ensures p == r && q == t
  {
    var whole := p + ":" + q;
    LastColon(whole, p, q, |r|);
    LastColon(whole, r, t, |p|);
    assert p == whole[..|p|] && r == whole[..|r|];
    assert q == whole[|p| + 1..] && t == whole[|r| + 1..];
  }

  /** With a colon in a hash two different writes can share a key. */
  lemma WriteKeysMayCollide(a: Event, b: Event)
    requires a.data.contentHashDomain == Some("x:y") && a.data.diskHash == Some("z")
    requires b.data.contentHashDomain == Some("x") && b.data.diskHash == Some("y:z")
    ensures WriteKey(a) == WriteKey(b) && a.data.diskHash != b.data.diskHash
  {
  }

  // ---------------------------------------------------------------------------
  // The whole trace
  // ---------------------------------------------------------------------------

  datatype Gap = Gap(at: int, device: Option<string>, reason: string)

  datatype Report = Report(status: string, captures: nat, gaps: seq<Gap>, observations: seq<Observation>)

  function GapsOf(e: Event): seq<Gap> {
    (if e.kind in {"flight.events.dropped", "redaction.failure", "path.identity.degraded"}
     then [Gap(e.at, e.device, e.kind)] else [])
    + (if e.data.captureStatus.Some? && e.data.captureStatus.value != "" && e.data.captureStatus.value != "ok"
       then [Gap(e.at, e.device, e.data.captureStatus.value)] else [])
  }

  function Gaps(events: seq<Event>): seq<Gap> {
    if events == [] then [] else Gaps(events[..|events| - 1]) + GapsOf(events[|events| - 1])
  }

  function GroupReport(events: seq<Event>, key: Key): Observed {
    var group := Sorted(GroupOf(events, key));
    ObserveAll(group, WriteKind(group))
  }

  /** `flatMap` over a list. */
  function FlatMap<K, V>(f: K -> seq<V>, keys: seq<K>): seq<V> {
    if keys == [] then [] else FlatMap(f, keys[..|keys| - 1]) + f(keys[|keys| - 1])
  }

  function OutOf(events: seq<Event>): Key -> seq<Observation> {
    (key: Key) => GroupReport(events, key).out
  }

  /** The observations of all groups, group after group. */
  function Observations(events: seq<Event>, keys: seq<Key>): seq<Observation> {
    FlatMap(OutOf(events), keys)
  }

  function Captures(events: seq<Event>, keys: seq<Key>): nat {
    if keys == [] then 0 else Captures(events, keys[..|keys| - 1]) + GroupReport(events, keys[|keys| - 1]).trail.captures
  }

  /** Counts one write; the stored list is replaced by a copy of its last three numbers. */
  method CountWrite(writes: map<string, seq<int>>, e: Event, writeKind: string, ghost t: Trail)
    returns (counted: map<string, seq<int>>, out: seq<Observation>)
    requires t.writes == writes
    ensures NoteWrite(t, e, writeKind) == Observed(t.(writes := counted), out)
  {
    counted, out := writes, [];
    if e.kind == writeKind && e.data.diskHash.Some? {
      var prior := (if WriteKey(e) in writes then writes[WriteKey(e)] else []) + [e.at];
      counted := writes[WriteKey(e) := LastThree(prior)];
      if |prior| == 3 {
        out := [Describe(e, REPEATED, prior, [])];
      }
    }
  }

  /** Compares one capture with what its lineage has seen, and remembers it. */
  method CompareCapture(histories: map<Lineage, seq<Seen>>, recent: seq<Event>, e: Event, ghost t: Trail)
    returns (seen: map<Lineage, seq<Seen>>, out: seq<Observation>, captured: bool)
    requires t.histories == histories && t.recent == recent
    ensures NoteCapture(t, e)
            == Observed(t.(histories := seen, captures := if captured then t.captures + 1 else t.captures), out)
  {
    seen, out, captured := histories, Marked(e), IsCapture(e);
    if captured {
      var lineage := LineageOf(e);
      var history := if lineage in histories then histories[lineage] else [];
      out := out + Returned(Trail(histories, map[], recent, 0), e) + Diverged(e);
      seen := histories[lineage := Remember(history, e)];
    }
  }

  /** The loop over one ordered group, with its maps and its window updated in place. */
  method AnalyzeGroup(group: seq<Event>) returns (out: seq<Observation>, captures: nat)
    ensures out == ObserveAll(group, WriteKind(group)).out
    ensures captures == ObserveAll(group, WriteKind(group)).trail.captures
  {
    var writeKind := WriteKind(group);
    var histories: map<Lineage, seq<Seen>> := map[];
    var recent: seq<Event> := [];
    var writes: map<string, seq<int>> := map[];
    out, captures := [], 0;
    for i := 0 to |group|
      invariant Observed(Trail(histories, writes, recent, captures), out) == ObserveAll(group[..i], writeKind)
    {
      assert group[..i + 1][..i] == group[..i];
      ghost var before := Trail(histories, writes, recent, captures);
      var counted, repeated := CountWrite(writes, group[i], writeKind, before);
      var seen, compared, captured := CompareCapture(histories, recent, group[i], before.(writes := counted));
      writes, histories := counted, seen;
      captures := if captured then captures + 1 else captures;
      out := out + (repeated + compared);
      recent := recent + [group[i]];
      if |recent| > WINDOW {
        recent := recent[1..];
      }
    }
    assert group[..|group|] == group;
  }

  /** The grouping loop: one list per key, keys in the order of their first event, and the gaps of the trace. */
  method GroupEvents(events: seq<Event>) returns (keys: seq<Key>, groups: map<Key, seq<Event>>, gaps: seq<Gap>)
    ensures keys == KeysOf(events) && gaps == Gaps(events)
    ensures forall k :: k in keys ==> k in groups && groups[k] == GroupOf(events, k)
  {
    keys, groups, gaps := [], map[], [];
    for i := 0 to |events|
      invariant keys == KeysOf(events[..i]) && gaps == Gaps(events[..i])
      invariant forall k :: k in groups <==> k in keys
      invariant forall k :: k in keys ==> groups[k] == GroupOf(events[..i], k)
    {
      assert events[..i + 1][..i] == events[..i];
      var e := events[i];
      gaps := gaps + GapsOf(e);
      if e.path.Some? && e.path.value != "" {
        var key := KeyOf(e);
        KeysCoverGroups(events[..i], key);
        if key in groups {
          groups := groups[key := groups[key] + [e]];
        } else {
          keys := keys + [key];
          groups := groups[key := [e]];
        }
      }
    }
    assert events[..|events|] == events;
  }

  lemma NextInFlatMap<K, V>(f: K -> seq<V>, keys: seq<K>, i: nat)
    requires i < |keys|
    ensures FlatMap(f, keys[..i + 1]) == FlatMap(f, keys[..i]) + f(keys[i])
  {
    assert keys[..i + 1][..i] == keys[..i];
  }

  lemma NextObservations(events: seq<Event>, keys: seq<Key>, i: nat)
    requires i < |keys|
    ensures Observations(events, keys[..i + 1]) == Observations(events, keys[..i]) + GroupReport(events, keys[i]).out
  {
    NextInFlatMap(OutOf(events), keys, i);
  }

  lemma NextCaptures(events: seq<Event>, keys: seq<Key>, i: nat)
    requires i < |keys|
    ensures Captures(events, keys[..i + 1]) == Captures(events, keys[..i]) + GroupReport(events, keys[i]).trail.captures
  {
    assert keys[..i + 1][..i] == keys[..i];
  }

  method AnalyzeEditorCausality(events: seq<Event>) returns (report: Report)
    ensures report.observations == Observations(events, KeysOf(events))
    ensures report.captures == Captures(events, KeysOf(events))
    ensures report.gaps == Gaps(events)
    ensures report.status == "OBSERVED" <==> report.captures > 0 && report.gaps == []
  {
    var keys, groups, gaps := GroupEvents(events);
    var observations: seq<Observation> := [];
    var captures := 0;
    for i := 0 to |keys|
      invariant observations == Observations(events, keys[..i])
      invariant captures == Captures(events, keys[..i])
    {
      NextObservations(events, keys, i);
      NextCaptures(events, keys, i);
      var out, n := AnalyzeGroup(Sorted(groups[keys[i]]));
      observations := observations + out;
      captures := captures + n;
    }
    assert keys[..|keys|] == keys;
    return Report(if captures == 0 || |gaps| > 0 then "INSUFFICIENT_EVIDENCE" else "OBSERVED", captures, gaps, observations);
  }

  // ---------------------------------------------------------------------------
  // Theorems about the report
  // ---------------------------------------------------------------------------

  predicate IsOutAt(es: seq<Event>, writeKind: string, o: Observation, i: nat) {
    i < |es| && o in OutAt(es, writeKind, i)
  }

  lemma OutOfPrefix(es: seq<Event>, writeKind: string, o: Observation, n: nat, i: nat)
    requires n <= |es| && i < n
    ensures IsOutAt(es[..n], writeKind, o, i) <==> IsOutAt(es, writeKind, o, i)
  {
    assert es[..n][..i] == es[..i];
  }

  lemma {:induction false} OutComesFromAnEvent(es: seq<Event>, writeKind: string, o: Observation)
    requires o in ObserveAll(es, writeKind).out
    ensures exists i: nat :: IsOutAt(es, writeKind, o, i)
    decreases |es|
  {
    var n := |es| - 1;
    if o in ObserveAll(es[..n], writeKind).out {
      OutComesFromAnEvent(es[..n], writeKind, o);
      var i: nat :| IsOutAt(es[..n], writeKind, o, i);
      OutOfPrefix(es, writeKind, o, n, i);
    } else {
      assert IsOutAt(es, writeKind, o, n);
    }
  }

  lemma LastOut(es: seq<Event>, writeKind: string)
    requires es != []
    ensures ObserveAll(es, writeKind).out
            == ObserveAll(es[..|es| - 1], writeKind).out + OutAt(es, writeKind, |es| - 1)
  {
  }

  lemma {:induction false} ChainGrows<T>(s: nat -> seq<T>, i: nat, n: nat)
    requires i <= n && forall k :: i <= k < n ==> s(k) <= s(k + 1)
    ensures s(i) <= s(n)
    decreases n - i
  {
    if i < n {
      ChainGrows(s, i + 1, n);
    }
  }

  function OutUpTo(es: seq<Event>, writeKind: string): nat -> seq<Observation> {
    (k: nat) => if k <= |es| then ObserveAll(es[..k], writeKind).out else []
  }

  lemma OutGrowsByOne(es: seq<Event>, writeKind: string, k: nat)
    requires k < |es|
    ensures OutUpTo(es, writeKind)(k) <= OutUpTo(es, writeKind)(k + 1)
  {
    LastOut(es[..k + 1], writeKind);
    assert es[..k + 1][..k] == es[..k];
  }

  lemma OutGrows(es: seq<Event>, writeKind: string, i: nat)
    requires i <= |es|
    ensures ObserveAll(es[..i], writeKind).out <= ObserveAll(es, writeKind).out
  {
    forall k: nat | i <= k < |es|
      ensures OutUpTo(es, writeKind)(k) <= OutUpTo(es, writeKind)(k + 1)
    {
      OutGrowsByOne(es, writeKind, k);
    }
    ChainGrows(OutUpTo(es, writeKind), i, |es|);
    assert es[..|es|] == es;
  }

  lemma LastIsOut(es: seq<Event>, writeKind: string, o: Observation)
    requires es != [] && IsOutAt(es, writeKind, o, |es| - 1)
    ensures o in ObserveAll(es, writeKind).out
  {
    LastOut(es, writeKind);
  }

  lemma OutOfAnEventIsKept(es: seq<Event>, writeKind: string, o: Observation, i: nat)
    requires IsOutAt(es, writeKind, o, i)
    ensures o in ObserveAll(es, writeKind).out
  {
    OutOfPrefix(es, writeKind, o, i + 1, i);
    LastIsOut(es[..i + 1], writeKind, o);
    OutGrows(es, writeKind, i + 1);
  }

  lemma {:induction false} FlatMapContents<K, V>(f: K -> seq<V>, keys: seq<K>, v: V)
    ensures v in FlatMap(f, keys) <==> exists i :: 0 <= i < |keys| && v in f(keys[i])
    decreases |keys|
  {
    if keys != [] {
      var n := |keys| - 1;
      FlatMapContents(f, keys[..n], v);
      assert forall i :: 0 <= i < n ==> keys[..n][i] == keys[i];
    }
  }

  lemma ObservationsComeFromGroups(events: seq<Event>, o: Observation)
    requires o in Observations(events, KeysOf(events))
    ensures exists key :: key in KeysOf(events) && o in OutOf(events)(key)
  {
    FlatMapContents(OutOf(events), KeysOf(events), o);
  }

  lemma GroupsAreReported(events: seq<Event>, o: Observation, key: Key)
    requires key in KeysOf(events) && o in OutOf(events)(key)
    ensures o in Observations(events, KeysOf(events))
  {
    FlatMapContents(OutOf(events), KeysOf(events), o);
  }

  /** The j-th event of a group held the hash the i-th returned to, in the same lineage. */
  predicate IsReturnTo(group: seq<Event>, i: nat, j: nat) {
    && j < i < |group| && IsCapture(group[i])
    && Witnesses(group[j], LineageOf(group[i]), group[i].data.editorAfterHash.value)
  }

  /** The evidence is the earlier event, exactly the matches among the 24 before the return, and the return. */
  predicate CitesReturn(group: seq<Event>, o: Observation, i: nat, j: nat) {
    && IsReturnTo(group, i, j)
    && o.evidence == [group[j].at] + (Ats(Matching(Tail(group[..i]), group[i])) + [group[i].at])
  }

  lemma EvidenceIsCited(group: seq<Event>, o: Observation, i: nat, j: nat)
    requires IsReturnTo(group, i, j) && o.evidence != [] && group[j].at == o.evidence[0]
    requires o.evidence[1..] == Ats(Matching(Tail(group[..i]), group[i])) + [group[i].at]
    ensures CitesReturn(group, o, i, j)
  {
    assert o.evidence == [o.evidence[0]] + o.evidence[1..];
  }

  lemma GroupReturnsAreGenuine(group: seq<Event>, o: Observation)
    requires o in ObserveAll(group, WriteKind(group)).out && IsReturn(o)
    ensures exists i: nat, j: nat :: CitesReturn(group, o, i, j)
  {
    var writeKind := WriteKind(group);
    OutComesFromAnEvent(group, writeKind, o);
    var i: nat :| IsOutAt(group, writeKind, o, i);
    ReturnsCiteTheirEvidence(group, writeKind, i, o);
    var j: nat :| j < i && group[j].at == o.evidence[0]
             && Witnesses(group[j], LineageOf(group[i]), group[i].data.editorAfterHash.value);
    EvidenceIsCited(group, o, i, j);
  }

  /**
   * Every return-to-seen observation of a report comes from an event of one group
   * and cites first an earlier event of the same group and lineage that really
   * had its hash, last itself, and in between exactly its matches among the 24
   * events before it.
   */
  lemma ReportedReturnsAreGenuine(events: seq<Event>, o: Observation)
    requires o in Observations(events, KeysOf(events)) && IsReturn(o)
    ensures exists key :: key in KeysOf(events)
                          && exists i: nat, j: nat :: CitesReturn(Sorted(GroupOf(events, key)), o, i, j)
  {
    ObservationsComeFromGroups(events, o);
    var key :| key in KeysOf(events) && o in OutOf(events)(key);
    GroupReturnsAreGenuine(Sorted(GroupOf(events, key)), o);
  }

  /** An observation of a repeated write that cites the first three writes under a key. */
  predicate CitesFirstThree(group: seq<Event>, writeKey: string, o: Observation) {
    var ats := WriteAts(group, WriteKind(group), writeKey);
    o.kind == REPEATED && |o.evidence| == 3 && o.evidence <= ats
  }

  lemma NextWriteAts(es: seq<Event>, writeKind: string, i: nat)
    requires i < |es| && IsWrite(es[i], writeKind)
    ensures WriteAts(es[..i + 1], writeKind, WriteKey(es[i])) == WriteAts(es[..i], writeKind, WriteKey(es[i])) + [es[i].at]
  {
    assert es[..i + 1][..i] == es[..i];
  }

  lemma ThirdWriteIsOut(group: seq<Event>, writeKind: string, writeKey: string, i: nat)
    requires IsThirdOf(group, writeKind, writeKey, i)
    ensures var o := Describe(group[i], REPEATED, WriteAts(group[..i + 1], writeKind, writeKey), []);
            IsOutAt(group, writeKind, o, i) && |o.evidence| == 3
  {
    NextWriteAts(group, writeKind, i);
    RepeatedWriteIsTheThird(group, writeKind, i,
                            Describe(group[i], REPEATED, WriteAts(group[..i + 1], writeKind, writeKey), []));
  }

  lemma GroupRepeatsAreReported(group: seq<Event>, writeKey: string)
    requires |WriteAts(group, WriteKind(group), writeKey)| >= 3
    ensures exists o :: o in ObserveAll(group, WriteKind(group)).out && CitesFirstThree(group, writeKey, o)
  {
    var writeKind := WriteKind(group);
    ThirdWriteExists(group, writeKind, writeKey);
    var i: nat :| IsThirdOf(group, writeKind, writeKey, i);
    var o := Describe(group[i], REPEATED, WriteAts(group[..i + 1], writeKind, writeKey), []);
    ThirdWriteIsOut(group, writeKind, writeKey, i);
    OutOfAnEventIsKept(group, writeKind, o, i);
    assert CitesFirstThree(group, writeKey, o);
  }

  /** In every group each key with at least three writes is reported, citing the first three of them. */
  lemma RepeatedWritesAreReported(events: seq<Event>, key: Key, writeKey: string)
    requires key in KeysOf(events)
    requires var group := Sorted(GroupOf(events, key)); |WriteAts(group, WriteKind(group), writeKey)| >= 3
    ensures exists o :: o in Observations(events, KeysOf(events))
                        && CitesFirstThree(Sorted(GroupOf(events, key)), writeKey, o)
  {
    var group := Sorted(GroupOf(events, key));
    GroupRepeatsAreReported(group, writeKey);
    var o :| o in ObserveAll(group, WriteKind(group)).out && CitesFirstThree(group, writeKey, o);
    GroupsAreReported(events, o, key);
  }

  // ---------------------------------------------------------------------------
  // Counting the repeated writes of a report
  // ---------------------------------------------------------------------------

  /** An observation with the group and the event it was made at, which the report does not carry. */
  datatype Emission = Emission(key: Key, event: Event, observation: Observation)

  function Emit(key: Key, e: Event, out: seq<Observation>): seq<Emission> {
    if out == [] then [] else Emit(key, e, out[..|out| - 1]) + [Emission(key, e, out[|out| - 1])]
  }

  function EmitAll(key: Key, es: seq<Event>, writeKind: string): seq<Emission> {
    if es == [] then []
    else
      EmitAll(key, es[..|es| - 1], writeKind) + Emit(key, es[|es| - 1], OutAt(es, writeKind, |es| - 1))
  }

  function EmissionsOf(events: seq<Event>): Key -> seq<Emission> {
    (key: Key) => var group := Sorted(GroupOf(events, key)); EmitAll(key, group, WriteKind(group))
  }

  /** The report's observations, each with where it comes from. */
  function Emissions(events: seq<Event>, keys: seq<Key>): seq<Emission> {
    FlatMap(EmissionsOf(events), keys)
  }

  function Bare(ms: seq<Emission>): seq<Observation> {
    if ms == [] then [] else Bare(ms[..|ms| - 1]) + [ms[|ms| - 1].observation]
  }

  function Count<T>(f: T -> bool, xs: seq<T>): nat {
    if xs == [] then 0 else Count(f, xs[..|xs| - 1]) + if f(xs[|xs| - 1]) then 1 else 0
  }

  lemma {:induction false} BareJoins(ms: seq<Emission>, ns: seq<Emission>)
    ensures Bare(ms + ns) == Bare(ms) + Bare(ns)
    decreases |ns|
  {
    if ns == [] {
      assert ms + ns == ms;
    } else {
      var n := |ns| - 1;
      BareJoins(ms, ns[..n]);
      assert (ms + ns)[..|ms| + n] == ms + ns[..n];
    }
  }

  lemma {:induction false} BareEmit(key: Key, e: Event, out: seq<Observation>)
    ensures Bare(Emit(key, e, out)) == out
    decreases |out|
  {
    if out != [] {
      var n := |out| - 1;
      BareEmit(key, e, out[..n]);
      BareJoins(Emit(key, e, out[..n]), [Emission(key, e, out[n])]);
      assert Bare([Emission(key, e, out[n])]) == Bare([]) + [out[n]];
    }
  }

  lemma {:induction false} BareEmitAll(key: Key, es: seq<Event>, writeKind: string)
    ensures Bare(EmitAll(key, es, writeKind)) == ObserveAll(es, writeKind).out
    decreases |es|
  {
    if es != [] {
      var n := |es| - 1;
      BareEmitAll(key, es[..n], writeKind);
      BareEmit(key, es[n], OutAt(es, writeKind, n));
      BareJoins(EmitAll(key, es[..n], writeKind), Emit(key, es[n], OutAt(es, writeKind, n)));
    }
  }

  /** Without their places the emissions are the report's observations, in the same order. */
  lemma {:induction false} EmissionsAreTheReport(events: seq<Event>, keys: seq<Key>)
    ensures Bare(Emissions(events, keys)) == Observations(events, keys)
    decreases |keys|
  {
    if keys != [] {
      var n := |keys| - 1;
      var group := Sorted(GroupOf(events, keys[n]));
      EmissionsAreTheReport(events, keys[..n]);
      BareEmitAll(keys[n], group, WriteKind(group));
      BareJoins(Emissions(events, keys[..n]), EmissionsOf(events)(keys[n]));
    }
  }

  lemma {:induction false} CountJoins<T>(f: T -> bool, xs: seq<T>, ys: seq<T>)
    ensures Count(f, xs + ys) == Count(f, xs) + Count(f, ys)
    decreases |ys|
  {
    if ys == [] {
      assert xs + ys == xs;
    } else {
      var n := |ys| - 1;
      CountJoins(f, xs, ys[..n]);
      assert (xs + ys)[..|xs| + n] == xs + ys[..n];
    }
  }

  lemma {:induction false} CountAgrees<T>(f: T -> bool, g: T -> bool, xs: seq<T>)
    requires forall x :: x in xs ==> f(x) == g(x)
    ensures Count(f, xs) == Count(g, xs)
    decreases |xs|
  {
    if xs != [] {
      CountAgrees(f, g, xs[..|xs| - 1]);
    }
  }

  lemma {:induction false} CountNone<T>(f: T -> bool, xs: seq<T>)
    requires forall x :: x in xs ==> !f(x)
    ensures Count(f, xs) == 0
    decreases |xs|
  {
    if xs != [] {
      CountNone(f, xs[..|xs| - 1]);
    }
  }

  lemma {:induction false} EmitContents(key: Key, e: Event, out: seq<Observation>)
    ensures forall m :: m in Emit(key, e, out) ==> m.key == key && m.event == e && m.observation in out
    decreases |out|
  {
    if out != [] {
      EmitContents(key, e, out[..|out| - 1]);
    }
  }

  lemma {:induction false} EmitJoins(key: Key, e: Event, out: seq<Observation>, more: seq<Observation>)
    ensures Emit(key, e, out + more) == Emit(key, e, out) + Emit(key, e, more)
    decreases |more|
  {
    if more == [] {
      assert out + more == out;
    } else {
      var n := |more| - 1;
      EmitJoins(key, e, out, more[..n]);
      assert (out + more)[..|out| + n] == out + more[..n];
    }
  }

  lemma {:induction false} EmitAllContents(key: Key, es: seq<Event>, writeKind: string)
    ensures forall m :: m in EmitAll(key, es, writeKind) ==> m.key == key && m.event in es
    decreases |es|
  {
    if es != [] {
      EmitAllContents(key, es[..|es| - 1], writeKind);
      EmitContents(key, es[|es| - 1], OutAt(es, writeKind, |es| - 1));
    }
  }

  /** A write counted under the key. */
  predicate IsUnder(e: Event, writeKey: string) {
    e.data.diskHash.Some? && WriteKey(e) == writeKey
  }

  /** A write of the content: its rendered domain and its hash. */
  predicate IsOf(e: Event, domain: string, hash: string) {
    Rendered(e.data.contentHashDomain) == domain && e.data.diskHash == Some(hash)
  }

  function RepeatsUnder(key: Key, writeKey: string): Emission -> bool {
    (m: Emission) => m.key == key && m.observation.kind == REPEATED && IsUnder(m.event, writeKey)
  }

  function RepeatsOf(key: Key, domain: string, hash: string): Emission -> bool {
    (m: Emission) => m.key == key && m.observation.kind == REPEATED && IsOf(m.event, domain, hash)
  }

  /** One event emits one repeated-write observation if it is the third under its key, and none otherwise. */
  lemma EmittedRepeats(key: Key, es: seq<Event>, writeKind: string, writeKey: string)
    requires es != []
    ensures var n := |es| - 1;
            Count(RepeatsUnder(key, writeKey), Emit(key, es[n], OutAt(es, writeKind, n)))
            == if IsThirdWrite(es, writeKind, n) && WriteKey(es[n]) == writeKey then 1 else 0
  {
    var n, f := |es| - 1, RepeatsUnder(key, writeKey);
    var before, e := ObserveAll(es[..n], writeKind).trail, es[n];
    var written, captured := NoteWrite(before, e, writeKind), NoteCapture(NoteWrite(before, e, writeKind).trail, e);
    EmitJoins(key, e, written.out, captured.out);
    CountJoins(f, Emit(key, e, written.out), Emit(key, e, captured.out));
    EmitContents(key, e, captured.out);
    forall m | m in Emit(key, e, captured.out)
      ensures !f(m)
    {
      CapturesNeverRepeat(written.trail, e, m.observation);
    }
    CountNone(f, Emit(key, e, captured.out));
    WriteOutIsThird(es, writeKind, n);
    CountOfOne(key, e, f, written.out);
  }

  lemma CountOfOne(key: Key, e: Event, f: Emission -> bool, out: seq<Observation>)
    requires |out| <= 1
    ensures Count(f, Emit(key, e, out)) == if out != [] && f(Emission(key, e, out[0])) then 1 else 0
  {
    if out != [] {
      assert out[..0] == [] && Emit(key, e, []) == [];
      var ms := Emit(key, e, out);
      assert ms == [Emission(key, e, out[0])] && ms[..0] == [];
      assert Count(f, ms[..0]) == 0;
    }
  }

  /** A group emits exactly one repeated-write observation for each key with three writes, and none for the others. */
  lemma {:induction false} GroupRepeats(key: Key, es: seq<Event>, writeKind: string, writeKey: string)
    ensures Count(RepeatsUnder(key, writeKey), EmitAll(key, es, writeKind))
            == if |WriteAts(es, writeKind, writeKey)| >= 3 then 1 else 0
    decreases |es|
  {
    if es != [] {
      var n := |es| - 1;
      GroupRepeats(key, es[..n], writeKind, writeKey);
      EmittedRepeats(key, es, writeKind, writeKey);
      CountJoins(RepeatsUnder(key, writeKey), EmitAll(key, es[..n], writeKind), Emit(key, es[n], OutAt(es, writeKind, n)));
    }
  }

  predicate AreDistinct(keys: seq<Key>) {
    forall i, k :: 0 <= i < k < |keys| ==> keys[i] != keys[k]
  }

  lemma {:induction false} KeysAreDistinct(events: seq<Event>)
    ensures AreDistinct(KeysOf(events))
    decreases |events|
  {
    if events != [] {
      KeysAreDistinct(events[..|events| - 1]);
    }
  }

  lemma OtherGroupsCountNone(events: seq<Event>, other: Key, f: Emission -> bool, key: Key)
    requires forall m :: f(m) ==> m.key == key
    requires other != key
    ensures Count(f, EmissionsOf(events)(other)) == 0
  {
    var group := Sorted(GroupOf(events, other));
    EmitAllContents(other, group, WriteKind(group));
    CountNone(f, EmitAll(other, group, WriteKind(group)));
  }

  lemma DistinctSplit(shorter: seq<Key>, last: Key)
    requires AreDistinct(shorter + [last])
    ensures AreDistinct(shorter) && last !in shorter
  {
    var keys := shorter + [last];
    assert forall i :: 0 <= i < |shorter| ==> keys[i] == shorter[i];
    assert keys[|shorter|] == last;
  }

  lemma CountWithGroup(events: seq<Event>, shorter: seq<Key>, last: Key, f: Emission -> bool)
    ensures Count(f, Emissions(events, shorter + [last]))
            == Count(f, Emissions(events, shorter)) + Count(f, EmissionsOf(events)(last))
  {
    assert (shorter + [last])[..|shorter|] == shorter;
    CountJoins(f, Emissions(events, shorter), EmissionsOf(events)(last));
  }

  lemma {:induction false} CountNoGroup(events: seq<Event>, keys: seq<Key>, f: Emission -> bool, key: Key)
    requires key !in keys && forall m :: f(m) ==> m.key == key
    ensures Count(f, Emissions(events, keys)) == 0
    decreases |keys|
  {
    if keys != [] {
      var shorter, last := keys[..|keys| - 1], keys[|keys| - 1];
      assert keys == shorter + [last];
      CountNoGroup(events, shorter, f, key);
      CountWithGroup(events, shorter, last, f);
      OtherGroupsCountNone(events, last, f, key);
    }
  }

  /** Only the group of the key itself can add to a count for that key. */
  lemma {:induction false} CountInGroups(events: seq<Event>, keys: seq<Key>, f: Emission -> bool, key: Key)
    requires key in keys && AreDistinct(keys) && forall m :: f(m) ==> m.key == key
    ensures Count(f, Emissions(events, keys)) == Count(f, EmissionsOf(events)(key))
    decreases |keys|
  {
    var shorter, last := keys[..|keys| - 1], keys[|keys| - 1];
    assert keys == shorter + [last];
    DistinctSplit(shorter, last);
    CountWithGroup(events, shorter, last, f);
    if last == key {
      CountNoGroup(events, shorter, f, key);
    } else {
      CountInGroups(events, shorter, f, key);
      OtherGroupsCountNone(events, last, f, key);
    }
  }

  // ---------------------------------------------------------------------------
  // The writes of a trace
  // ---------------------------------------------------------------------------

  /** The writes of the group that count, under the key. */
  function WritesUnder(events: seq<Event>, key: Key, writeKey: string): nat {
    Count((e: Event) => BelongsTo(e, key) && IsWrite(e, WriteKind(GroupOf(events, key))) && IsUnder(e, writeKey), events)
  }

  /** The writes of the group that count, with that content. */
  function WritesOfContent(events: seq<Event>, key: Key, domain: string, hash: string): nat {
    Count((e: Event) => BelongsTo(e, key) && IsWrite(e, WriteKind(GroupOf(events, key))) && IsOf(e, domain, hash), events)
  }

  lemma {:induction false} CountInGroup(events: seq<Event>, key: Key, f: Event -> bool, g: Event -> bool)
    requires forall e :: g(e) <==> BelongsTo(e, key) && f(e)
    ensures Count(f, GroupOf(events, key)) == Count(g, events)
    decreases |events|
  {
    if events != [] {
      var n := |events| - 1;
      CountInGroup(events[..n], key, f, g);
      assert BelongsTo(events[n], key) ==> GroupOf(events, key)[..|GroupOf(events, key)| - 1] == GroupOf(events[..n], key);
    }
  }

  lemma {:induction false} CountInserted(sorted: seq<Event>, e: Event, f: Event -> bool)
    ensures Count(f, Insert(sorted, e)) == Count(f, sorted) + if f(e) then 1 else 0
    decreases |sorted|
  {
    if sorted == [] || sorted[|sorted| - 1].at <= e.at {
      assert (sorted + [e])[..|sorted|] == sorted;
    } else {
      var n := |sorted| - 1;
      var inner := Insert(sorted[..n], e);
      CountInserted(sorted[..n], e, f);
      assert (inner + [sorted[n]])[..|inner|] == inner;
    }
  }

  lemma {:induction false} CountSorted(es: seq<Event>, f: Event -> bool)
    ensures Count(f, Sorted(es)) == Count(f, es)
    decreases |es|
  {
    if es != [] {
      CountSorted(es[..|es| - 1], f);
      CountInserted(Sorted(es[..|es| - 1]), es[|es| - 1], f);
    }
  }

  lemma {:induction false} WriteAtsCount(es: seq<Event>, writeKind: string, writeKey: string, f: Event -> bool)
    requires forall e :: f(e) <==> IsWrite(e, writeKind) && IsUnder(e, writeKey)
    ensures |WriteAts(es, writeKind, writeKey)| == Count(f, es)
    decreases |es|
  {
    if es != [] {
      WriteAtsCount(es[..|es| - 1], writeKind, writeKey, f);
    }
  }

  lemma SortingKeepsWriteKind(es: seq<Event>)
    ensures WriteKind(Sorted(es)) == WriteKind(es)
  {
    SortSorts(es);
    assert forall e :: e in es <==> e in multiset(es);
    assert forall e :: e in Sorted(es) <==> e in multiset(Sorted(es));
  }

  lemma WritesUnderAreCounted(events: seq<Event>, key: Key, writeKey: string)
    ensures var group := Sorted(GroupOf(events, key));
            |WriteAts(group, WriteKind(group), writeKey)| == WritesUnder(events, key, writeKey)
  {
    var inTrace := GroupOf(events, key);
    var writeKind := WriteKind(inTrace);
    var f := (e: Event) => IsWrite(e, writeKind) && IsUnder(e, writeKey);
    var g := (e: Event) => BelongsTo(e, key) && IsWrite(e, WriteKind(GroupOf(events, key))) && IsUnder(e, writeKey);
    SortingKeepsWriteKind(inTrace);
    WriteAtsCount(Sorted(inTrace), writeKind, writeKey, f);
    CountSorted(inTrace, f);
    CountInGroup(events, key, f, g);
  }

  /**
   * In every report, each group and write key has exactly one repeated-write
   * observation when three writes of the trace share them, and none otherwise.
   */
  lemma OneReportPerWriteKey(events: seq<Event>, key: Key, writeKey: string)
    ensures Count(RepeatsUnder(key, writeKey), Emissions(events, KeysOf(events)))
            == if WritesUnder(events, key, writeKey) >= 3 then 1 else 0
  {
    var group := Sorted(GroupOf(events, key));
    WritesUnderAreCounted(events, key, writeKey);
    KeysCoverGroups(events, key);
    if key in KeysOf(events) {
      KeysAreDistinct(events);
      CountInGroups(events, KeysOf(events), RepeatsUnder(key, writeKey), key);
      GroupRepeats(key, group, WriteKind(group), writeKey);
    } else {
      CountNoGroup(events, KeysOf(events), RepeatsUnder(key, writeKey), key);
    }
  }

  /** No other domain or hash writes the same key. */
  ghost predicate KeyIsExclusive(domain: string, hash: string) {
    forall d, h :: SharesKey(d, h, domain, hash) ==> d == domain && h == hash
  }

  predicate SharesKey(d: string, h: string, domain: string, hash: string) {
    d + ":" + h == domain + ":" + hash
  }

  lemma FirstColon(whole: string, p: string, q: string, n: nat)
    requires whole == p + ":" + q && ':' !in p && n < |whole| && whole[n] == ':'
    ensures n >= |p|
  {
  }

  lemma OnlyColon(whole: string, p: string, q: string, n: nat)
    requires whole == p + ":" + q && ':' !in p && ':' !in q && n < |whole| && whole[n] == ':'
    ensures n == |p|
  {
    LastColon(whole, p, q, n);
    FirstColon(whole, p, q, n);
  }

  /** A key stands for one content exactly when neither its domain nor its hash has a colon. */
  lemma KeyIsExclusiveIff(domain: string, hash: string)
    ensures KeyIsExclusive(domain, hash) <==> ':' !in domain && ':' !in hash
  {
    var whole := domain + ":" + hash;
    if ':' !in domain && ':' !in hash {
      forall d, h | SharesKey(d, h, domain, hash)
        ensures d == domain && h == hash
      {
        OnlyColon(whole, domain, hash, |d|);
        assert d == whole[..|d|] && h == whole[|d| + 1..];
      }
    } else {
      var d, h := SplitElsewhere(domain, hash);
      assert SharesKey(d, h, domain, hash);
    }
  }

  lemma SplitElsewhere(domain: string, hash: string) returns (d: string, h: string)
    requires ':' in domain || ':' in hash
    ensures SharesKey(d, h, domain, hash) && d != domain && h != hash
  {
    if ':' in domain {
      var i :| 0 <= i < |domain| && domain[i] == ':';
      d, h := domain[..i], domain[i + 1..] + ":" + hash;
      assert domain == domain[..i] + ":" + domain[i + 1..];
    } else {
      var i :| 0 <= i < |hash| && hash[i] == ':';
      d, h := domain + ":" + hash[..i], hash[i + 1..];
      assert hash == hash[..i] + ":" + hash[i + 1..];
    }
  }

  /** The writes of the trace that share the key all have that content. */
  ghost predicate HasNoCollision(events: seq<Event>, domain: string, hash: string) {
    forall e :: e in events && IsUnder(e, domain + ":" + hash) ==> IsOf(e, domain, hash)
  }

  function OneIfThree(n: nat): nat {
    if n >= 3 then 1 else 0
  }

  lemma {:induction false} GroupContents(events: seq<Event>, key: Key)
    ensures forall e :: e in GroupOf(events, key) ==> e in events
    ensures forall e :: e in Sorted(GroupOf(events, key)) ==> e in GroupOf(events, key)
    decreases |events|
  {
    SortSorts(GroupOf(events, key));
    assert forall e :: e in Sorted(GroupOf(events, key)) ==> e in multiset(Sorted(GroupOf(events, key)));
    if events != [] {
      GroupContents(events[..|events| - 1], key);
    }
  }

  lemma {:induction false} EmissionsContents(events: seq<Event>, keys: seq<Key>)
    ensures forall m :: m in Emissions(events, keys) ==> m.event in events
    decreases |keys|
  {
    if keys != [] {
      var n := |keys| - 1;
      var group := Sorted(GroupOf(events, keys[n]));
      EmissionsContents(events, keys[..n]);
      GroupContents(events, keys[n]);
      EmitAllContents(keys[n], group, WriteKind(group));
    }
  }

  /** The report has one repeated-write observation of the content if three writes of the group have it, else none. */
  ghost predicate IsReportedOnce(events: seq<Event>, key: Key, domain: string, hash: string) {
    Count(RepeatsOf(key, domain, hash), Emissions(events, KeysOf(events)))
    == OneIfThree(WritesOfContent(events, key, domain, hash))
  }

  /**
   * In every report, each group and content has exactly one repeated-write
   * observation when the trace has three writes of that content in the group,
   * and none otherwise, as long as no other content of the trace shares the key.
   */
  lemma OneReportPerContent(events: seq<Event>, key: Key, domain: string, hash: string)
    requires HasNoCollision(events, domain, hash)
    ensures IsReportedOnce(events, key, domain, hash)
  {
    var writeKey := domain + ":" + hash;
    OneReportPerWriteKey(events, key, writeKey);
    EmissionsContents(events, KeysOf(events));
    CountAgrees(RepeatsOf(key, domain, hash), RepeatsUnder(key, writeKey), Emissions(events, KeysOf(events)));
    WritesAgree(events, key, domain, hash);
  }

  lemma WritesAgree(events: seq<Event>, key: Key, domain: string, hash: string)
    requires HasNoCollision(events, domain, hash)
    ensures WritesOfContent(events, key, domain, hash) == WritesUnder(events, key, domain + ":" + hash)
  {
    CountAgrees((e: Event) => BelongsTo(e, key) && IsWrite(e, WriteKind(GroupOf(events, key))) && IsOf(e, domain, hash),
                (e: Event) => BelongsTo(e, key) && IsWrite(e, WriteKind(GroupOf(events, key)))
                              && IsUnder(e, domain + ":" + hash), events);
  }

  /** Hashes without colons are enough, whatever the domains are. */
  lemma OneReportPerPlainHash(events: seq<Event>, key: Key, domain: string, hash: string)
    requires ':' !in hash && forall e :: e in events && e.data.diskHash.Some? ==> ':' !in e.data.diskHash.value
    ensures IsReportedOnce(events, key, domain, hash)
  {
    forall e | e in events && IsUnder(e, domain + ":" + hash)
      ensures IsOf(e, domain, hash)
    {
      SplitAtLastColon(Rendered(e.data.contentHashDomain), e.data.diskHash.value, domain, hash);
    }
    OneReportPerContent(events, key, domain, hash);
  }

  function WriteOf(domain: string, hash: string, at: int): Event {
    Event("disk.write.ok", at, None, None, None, Some("note"),
          Data(None, None, Some(domain), Some(hash), None, None, None, None, None, None, None, None, None, None,
               false, false, false, false, None))
  }

  /** One write of another content with the same key, and then two of the content. */
  function Colliding(d: string, h: string, domain: string, hash: string): seq<Event> {
    [WriteOf(d, h, 0), WriteOf(domain, hash, 1), WriteOf(domain, hash, 2)]
  }

  const NOTE := Key(None, None, None, "note")

  lemma {:induction false} WholeGroup(es: seq<Event>, key: Key)
    requires forall e :: e in es ==> BelongsTo(e, key)
    ensures GroupOf(es, key) == es
  {
    if es != [] {
      WholeGroup(es[..|es| - 1], key);
    }
  }

  lemma {:induction false} SortedAlready(es: seq<Event>)
    requires IsSorted(es)
    ensures Sorted(es) == es
  {
    if es != [] {
      SortedAlready(es[..|es| - 1]);
    }
  }

  lemma CollidingGroup(d: string, h: string, domain: string, hash: string)
    ensures var es := Colliding(d, h, domain, hash);
            GroupOf(es, NOTE) == es && Sorted(es) == es && WriteKind(es) == "disk.write.ok" && NOTE in KeysOf(es)
  {
    var es := Colliding(d, h, domain, hash);
    WholeGroup(es, NOTE);
    CollidingIsSorted(d, h, domain, hash);
    SortedAlready(es);
    KeysCoverGroups(es, NOTE);
    AllWritesAreOk(es);
  }

  lemma CollidingIsSorted(d: string, h: string, domain: string, hash: string)
    ensures IsSorted(Colliding(d, h, domain, hash))
  {
  }

  lemma AllWritesAreOk(es: seq<Event>)
    requires forall e :: e in es ==> e.kind == "disk.write.ok"
    ensures WriteKind(es) == "disk.write.ok"
  {
    assert "disk.write.ok"[11] == 'o' && "disk.write.committed"[11] == 'c';
  }

  lemma CollidingWrites(d: string, h: string, domain: string, hash: string)
    requires SharesKey(d, h, domain, hash)
    ensures IsThirdWrite(Colliding(d, h, domain, hash), "disk.write.ok", 2)
  {
    var es, writeKey := Colliding(d, h, domain, hash), domain + ":" + hash;
    assert es[..2][..1][..0] == [];
    assert es[..2][..1] == [es[0]] && es[..2] == [es[0], es[1]];
    assert WriteAts(es[..2][..1], "disk.write.ok", writeKey) == [0];
    assert WriteAts(es[..2], "disk.write.ok", writeKey) == [0, 1];
  }

  lemma CollidingCount(d: string, h: string, domain: string, hash: string)
    requires SharesKey(d, h, domain, hash) && h != hash
    ensures WritesOfContent(Colliding(d, h, domain, hash), NOTE, domain, hash) == 2
  {
    var es := Colliding(d, h, domain, hash);
    var g := (e: Event) => BelongsTo(e, NOTE) && IsWrite(e, WriteKind(GroupOf(es, NOTE))) && IsOf(e, domain, hash);
    CollidingGroup(d, h, domain, hash);
    assert es[..2][..1][..0] == [];
    assert es[..2][..1] == [es[0]] && es[..2] == [es[0], es[1]];
    assert Count(g, es[..2][..1]) == 0;
    assert Count(g, es[..2]) == 1;
  }

  /** The third write under the key has the content, which the report then shows as written three times. */
  lemma CollisionIsReported(d: string, h: string, domain: string, hash: string)
    requires SharesKey(d, h, domain, hash) && h != hash
    ensures !IsReportedOnce(Colliding(d, h, domain, hash), NOTE, domain, hash)
  {
    var es, f, writeKind := Colliding(d, h, domain, hash), RepeatsOf(NOTE, domain, hash), "disk.write.ok";
    var last := Emit(NOTE, es[2], OutAt(es, writeKind, 2));
    CollidingGroup(d, h, domain, hash);
    CollidingWrites(d, h, domain, hash);
    CollidingCount(d, h, domain, hash);
    EmittedRepeats(NOTE, es, writeKind, domain + ":" + hash);
    EmitContents(NOTE, es[2], OutAt(es, writeKind, 2));
    CountAgrees(f, RepeatsUnder(NOTE, domain + ":" + hash), last);
    CountJoins(f, EmitAll(NOTE, es[..2], writeKind), last);
    KeysAreDistinct(es);
    CountInGroups(es, KeysOf(es), f, NOTE);
  }

  /** Every trace is reported right about a content exactly when neither its domain nor its hash has a colon. */
  lemma ContentIsReportedOnceIff(domain: string, hash: string)
    ensures (forall events, key :: IsReportedOnce(events, key, domain, hash)) <==> ':' !in domain && ':' !in hash
  {
    KeyIsExclusiveIff(domain, hash);
    if ':' !in domain && ':' !in hash {
      forall events, key
        ensures IsReportedOnce(events, key, domain, hash)
      {
        assert forall e :: e in events && IsUnder(e, domain + ":" + hash) ==>
            SharesKey(Rendered(e.data.contentHashDomain), e.data.diskHash.value, domain, hash);
        OneReportPerContent(events, key, domain, hash);
      }
    } else {
      var d, h := SplitElsewhere(domain, hash);
      CollisionIsReported(d, h, domain, hash);
    }
  }
}
