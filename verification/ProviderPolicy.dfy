/**
 * The exclude policy of one provider generation: an overlay captured from the
 * shared document keeps remote content off excluded paths until disk and
 * document agree (src/main.ts:8510-8900).
 *
 * A step runs the code between two awaits. Provider generations, runtimes, the
 * document, the disk and the refreshes of the control file change at will.
 */
module ProviderPolicy {
  import opened Wrappers
  import opened ExcludePatterns
  import opened ProjectionGate

  /** The control file as the shared document has it; `Invalid` makes reading it throw. */
  datatype Control = Present(raw: Option<string>) | Invalid

  predicate IsReadable(c: Control) {
    c.Present? && WithinLimit(c.raw)
  }

  /** What a read of the disk answers; `Failed` is a rejected read. */
  datatype DiskRead = Snapshot(raw: Option<string>) | Failed

  datatype Refresh = NotRefreshing | Refreshing | Refreshed(read: DiskRead)

  datatype Request = Request(runtime: nat, generation: nat)

  /** A settlement, suspended; `authority` and `epoch` were captured before its disk read. */
  datatype Settling =
    | Resting
    | Waiting(request: Request)
    | Reading(request: Request, authority: nat, epoch: nat, quiet: bool)
    | HasRead(request: Request, authority: nat, epoch: nat, quiet: bool, read: DiskRead)

  /** The overlay and where it was captured: runtime, generation and the document's text then. */
  datatype Overlay = Overlay(runtime: nat, generation: nat, captured: Option<string>)

  datatype Policy = Policy(
    gate: Gate, runtime: Option<nat>, nextRuntime: nat, connection: nat, document: Control,
    disk: Option<string>, authority: nat,
    settings: seq<string>, fileRaw: Option<Option<string>>, filePatterns: seq<string>,
    overlay: Option<Overlay>, overlayPatterns: seq<string>, effective: seq<string>,
    refresh: Refresh, epoch: nat,
    settling: Settling, pending: Option<Request>)

  // ---------------------------------------------------------------------------
  // Segments
  // ---------------------------------------------------------------------------

  /** `applyRuntimeSettings`. */
  function Apply(s: Policy): Policy {
    s.(effective := Merge([s.settings, s.filePatterns, s.overlayPatterns]))
  }

  /** `applyExcludeFileSnapshot`. */
  function ApplySnapshot(s: Policy, raw: Option<string>): Policy {
    if s.fileRaw == Some(raw) then s else Apply(s.(fileRaw := Some(raw), filePatterns := PatternsOf(raw)))
  }

  datatype Prepared = Prepared(state: Policy, ready: bool)

  predicate IsPrepared(s: Policy, generation: nat) {
    && s.overlay.Some? && Some(s.overlay.value.runtime) == s.runtime && s.overlay.value.generation == generation
    && s.gate.ready == Some(generation)
  }

  /** `prepareProviderSyncPolicy`. */
  function Prepare(s: Policy, generation: nat, schemaBlocked: bool): Prepared {
    if s.runtime.None? || generation != s.connection then Prepared(s, false)
    else if IsPrepared(s, generation) then Prepared(s, true)
    else if schemaBlocked then Prepared(s, false)
    else
      var s1 := if s.gate.generation != generation then s.(gate := Close(s.gate, generation)) else s;
      if s1.gate.generation != generation then Prepared(s1, false)
      else if !IsReadable(s1.document) then Prepared(s1, false)
      else
        var s2 := Apply(s1.(overlay := Some(Overlay(s.runtime.value, generation, s1.document.raw)),
                            overlayPatterns := PatternsOf(s1.document.raw)));
        var opening := Open(s2.gate, generation);
        Prepared(s2.(gate := opening.gate), opening.ok)
  }

  /** The next request of the coordinator, if no settlement runs. */
  function TakeRequest(s: Policy): Policy {
    if !s.settling.Resting? || s.pending.None? then s
    else
      var r := s.pending.value;
      var s1 := s.(pending := None);
      if Some(r.runtime) != s.runtime || s.connection != r.generation || s.gate.ready != Some(r.generation) then s1
      else s1.(settling := Waiting(r))
  }

  /** The authority is captured once the refresh in flight, if any, is over. */
  function BeginRead(s: Policy): Policy
    requires s.settling.Waiting?
  {
    s.(settling := Reading(s.settling.request, s.authority, s.epoch, s.refresh.NotRefreshing?))
  }

  /** A read of the disk sees some moment of it; a text beyond the limit makes it throw. */
  function ReadsDisk(s: Policy, fails: bool): DiskRead {
    if fails || !WithinLimit(s.disk) then Failed else Snapshot(s.disk)
  }

  predicate MayDrop(s: Policy)
    requires s.settling.HasRead?
  {
    var h := s.settling;
    && h.read.Snapshot?
    && s.authority == h.authority
    && s.runtime == Some(h.request.runtime) && s.connection == h.request.generation
    && IsReadable(s.document)
    && s.epoch == h.epoch
    && h.read.raw == s.document.raw
  }

  /** The rest of `runProviderExcludePolicySettlement` after its read. */
  function FinishSettlement(s: Policy): Policy
    requires s.settling.HasRead?
  {
    if !MayDrop(s) then s.(settling := Resting)
    else
      var s1 := ApplySnapshot(s, s.settling.read.raw);
      Apply(s1.(overlay := None, overlayPatterns := [], settling := Resting))
  }

  function FinishRefresh(s: Policy): Policy
    requires s.refresh.Refreshed?
  {
    var s1 := s.(refresh := NotRefreshing);
    if s.refresh.read.Failed? then s1 else ApplySnapshot(s1, s.refresh.read.raw)
  }

  // ---------------------------------------------------------------------------
  // Runs
  // ---------------------------------------------------------------------------

  datatype Event =
    | DocumentChanges(document: Control)
    | DiskChanges(text: Option<string>)
    | DiskTouched
    | Connects(generation: nat)
    | ClosesGate(generation: nat)
    | NewRuntime(document: Control)
    | Teardown
    | ChangesSettings(settings: seq<string>)
    | Applies
    | Prepares(generation: nat, schemaBlocked: bool)
    | EntersSection(lease: Lease)
    | LeavesSection(section: nat)
    | StartsRefresh
    | ReadsForRefresh(fails: bool)
    | EndsRefresh
    | Requests
    | TakesRequest
    | BeginsRead
    | ReadsForSettlement(fails: bool)
    | EndsSettlement

  predicate Enabled(s: Policy, e: Event) {
    match e
    case LeavesSection(section) => Active(s.gate, section) > 0
    case ReadsForRefresh(_) => s.refresh.Refreshing?
    case EndsRefresh => s.refresh.Refreshed?
    case BeginsRead => s.settling.Waiting?
    case ReadsForSettlement(_) => s.settling.Reading?
    case EndsSettlement => s.settling.HasRead?
    case _ => true
  }

  function Step(s: Policy, e: Event): Policy
    requires Enabled(s, e)
  {
    match e
    case DocumentChanges(document) => s.(document := document)
    case DiskChanges(text) => s.(disk := text, authority := s.authority + 1)
    case DiskTouched => s.(authority := s.authority + 1)
    case Connects(generation) => s.(connection := generation)
    case ClosesGate(generation) => if s.runtime.None? then s else s.(gate := Close(s.gate, generation))
    case NewRuntime(document) =>
      s.(runtime := Some(s.nextRuntime), nextRuntime := s.nextRuntime + 1, document := document,
         gate := NEW_GATE, overlay := None, overlayPatterns := [])
    case Teardown => Apply(s.(runtime := None, gate := NEW_GATE, overlay := None, overlayPatterns := []))
    case ChangesSettings(settings) => s.(settings := settings)
    case Applies => Apply(s)
    case Prepares(generation, schemaBlocked) => Prepare(s, generation, schemaBlocked).state
    case EntersSection(lease) => s.(gate := Enter(s.gate, lease).gate)
    case LeavesSection(section) => s.(gate := Release(s.gate, section).gate)
    case StartsRefresh => if s.refresh.NotRefreshing? then s.(refresh := Refreshing, epoch := s.epoch + 1) else s
    case ReadsForRefresh(fails) => s.(refresh := Refreshed(ReadsDisk(s, fails)))
    case EndsRefresh => FinishRefresh(s)
    case Requests =>
      if s.overlay.None? then s else s.(pending := Some(Request(s.overlay.value.runtime, s.overlay.value.generation)))
    case TakesRequest => TakeRequest(s)
    case BeginsRead => BeginRead(s)
    case ReadsForSettlement(fails) =>
      s.(settling := HasRead(s.settling.request, s.settling.authority, s.settling.epoch, s.settling.quiet,
                             ReadsDisk(s, fails)))
    case EndsSettlement => FinishSettlement(s)
  }

  predicate IsRun(s: Policy, es: seq<Event>, t: Policy)
    decreases |es|
  {
    if es == [] then s == t else Enabled(s, es[0]) && IsRun(Step(s, es[0]), es[1..], t)
  }

  function Start(settings: seq<string>, disk: Option<string>): Policy {
    Policy(NEW_GATE, None, 0, 0, Present(None), disk, 0, settings, None, [], None, [], Merge([settings, [], []]),
           NotRefreshing, 0, Resting, None)
  }

  ghost predicate Reachable(s: Policy) {
    exists settings, disk, es :: IsRun(Start(settings, disk), es, s)
  }

  // ---------------------------------------------------------------------------
  // Invariant
  // ---------------------------------------------------------------------------

  /** Every pattern of the list is in force, in the form merging gives it. */
  ghost predicate InForce(patterns: seq<string>, effective: seq<string>) {
    forall p :: p in patterns && Clean(p) != "" ==> Clean(p) in effective
  }

  ghost predicate PolicyInv(s: Policy) {
    && GateInv(s.gate)
    && InForce(s.overlayPatterns, s.effective)
    && InForce(s.filePatterns, s.effective)
    && s.overlayPatterns == (if s.overlay.Some? then PatternsOf(s.overlay.value.captured) else [])
    && (s.fileRaw.Some? ==> s.filePatterns == PatternsOf(s.fileRaw.value))
    && (s.gate.ready.Some? && s.overlay.Some? ==>
          Some(s.overlay.value.runtime) == s.runtime && s.gate.ready == Some(s.overlay.value.generation))
  }

  /** A settlement's read is the disk of now, unless the authority moved since it was captured. */
  ghost predicate SettlingInv(s: Policy) {
    && (s.settling.Reading? || s.settling.HasRead? ==>
          s.settling.authority <= s.authority && s.settling.epoch <= s.epoch
          && (s.settling.quiet && s.settling.epoch == s.epoch ==> s.refresh.NotRefreshing?))
    && (s.settling.HasRead? && s.settling.read.Snapshot? && s.settling.authority == s.authority ==>
          s.settling.read.raw == s.disk)
  }

  lemma ApplyPutsInForce(s: Policy)
    ensures InForce(s.settings, Apply(s).effective)
    ensures InForce(s.overlayPatterns, Apply(s).effective)
    ensures InForce(s.filePatterns, Apply(s).effective)
  {
    var groups := [s.settings, s.filePatterns, s.overlayPatterns];
    forall p, g | 0 <= g < 3 && p in groups[g] && Clean(p) != ""
      ensures Clean(p) in Merge(groups)
    {
      var i :| 0 <= i < |groups[g]| && groups[g][i] == p;
      assert HasEntry(groups[g], Clean(p));
      MergeIsUnion(groups, Clean(p));
    }
    assert groups[0] == s.settings && groups[1] == s.filePatterns && groups[2] == s.overlayPatterns;
  }

  lemma ApplySnapshotKeepsInv(s: Policy, raw: Option<string>)
    requires PolicyInv(s)
    ensures PolicyInv(ApplySnapshot(s, raw))
    ensures ApplySnapshot(s, raw).filePatterns == PatternsOf(raw)
  {
    ApplyPutsInForce(s.(fileRaw := Some(raw), filePatterns := PatternsOf(raw)));
  }

  lemma PrepareKeepsInv(s: Policy, generation: nat, schemaBlocked: bool)
    requires PolicyInv(s)
    ensures PolicyInv(Prepare(s, generation, schemaBlocked).state)
  {
    var s1 := if s.gate.generation != generation then s.(gate := Close(s.gate, generation)) else s;
    GateStepsKeepInv(s.gate, generation, Lease(0, 0, false), 0);
    if IsReadable(s1.document) && s.runtime.Some? {
      GateStepsKeepInv(s1.gate, generation, Lease(0, 0, false), 0);
      ApplyPutsInForce(s1.(overlay := Some(Overlay(s.runtime.value, generation, s1.document.raw)),
                           overlayPatterns := PatternsOf(s1.document.raw)));
    }
  }

  lemma FinishSettlementKeepsInv(s: Policy)
    requires PolicyInv(s) && s.settling.HasRead?
    ensures PolicyInv(FinishSettlement(s))
  {
    if MayDrop(s) {
      ApplySnapshotKeepsInv(s, s.settling.read.raw);
      var s1 := ApplySnapshot(s, s.settling.read.raw);
      ApplyPutsInForce(s1.(overlay := None, overlayPatterns := [], settling := Resting));
    }
  }

  lemma StepKeepsInv(s: Policy, e: Event)
    requires PolicyInv(s) && Enabled(s, e)
    ensures PolicyInv(Step(s, e))
  {
    ApplyPutsInForce(s);
    match e
    case ClosesGate(generation) => GateStepsKeepInv(s.gate, generation, Lease(0, 0, false), 0);
    case EntersSection(lease) => GateStepsKeepInv(s.gate, 0, lease, 0);
    case LeavesSection(section) => GateStepsKeepInv(s.gate, 0, Lease(0, 0, false), section);
    case Prepares(generation, schemaBlocked) => PrepareKeepsInv(s, generation, schemaBlocked);
    case EndsRefresh =>
      if s.refresh.read.Snapshot? {
        ApplySnapshotKeepsInv(s.(refresh := NotRefreshing), s.refresh.read.raw);
      }
    case EndsSettlement => FinishSettlementKeepsInv(s);
    case Teardown => ApplyPutsInForce(s.(runtime := None, gate := NEW_GATE, overlay := None, overlayPatterns := []));
    case _ =>
  }

  lemma StepKeepsSettling(s: Policy, e: Event)
    requires SettlingInv(s) && Enabled(s, e)
    ensures SettlingInv(Step(s, e))
  {
  }

  lemma {:induction false} RunKeepsInv(s: Policy, es: seq<Event>, t: Policy)
    requires PolicyInv(s) && SettlingInv(s) && IsRun(s, es, t)
    ensures PolicyInv(t) && SettlingInv(t)
    decreases |es|
  {
    if es != [] {
      StepKeepsInv(s, es[0]);
      StepKeepsSettling(s, es[0]);
      RunKeepsInv(Step(s, es[0]), es[1..], t);
    }
  }

  lemma ReachableKeepsInv(s: Policy)
    requires Reachable(s)
    ensures PolicyInv(s) && SettlingInv(s)
  {
    var settings, disk, es :| IsRun(Start(settings, disk), es, s);
    RunKeepsInv(Start(settings, disk), es, s);
  }

  // ---------------------------------------------------------------------------
  // The overlay is in force
  // ---------------------------------------------------------------------------

  /**
   * While the gate is open and the overlay is held, the overlay was captured from
   * the document of this runtime and of the very generation the gate admits, and
   * every pattern of it is in force in its merged form, whatever the disk
   * refreshes do; and no filesystem primitive of an older epoch still runs.
   */
  lemma OpenGateEnforcesTheOverlay(s: Policy)
    requires Reachable(s) && s.gate.ready.Some? && s.overlay.Some?
    ensures Some(s.overlay.value.runtime) == s.runtime
    ensures s.gate.ready == Some(s.overlay.value.generation) == Some(s.gate.generation)
    ensures s.overlayPatterns == PatternsOf(s.overlay.value.captured)
    ensures InForce(PatternsOf(s.overlay.value.captured), s.effective)
    ensures !HasStale(s.gate)
  {
    ReachableKeepsInv(s);
  }

  /** A reachable state whose gate is open under an overlay that captured the pattern. */
  ghost predicate Enforces(s: Policy, p: string) {
    Reachable(s) && s.gate.ready.Some? && s.overlay.Some? && p in PatternsOf(s.overlay.value.captured)
  }

  /** A path the captured pattern excludes and the patterns in force do not. */
  ghost predicate LosesPath(s: Policy, p: string, path: string) {
    NormalizePrefix(p) <= NormalizePrefix(path) && !IsExcludedBy(path, s.effective)
  }

  /** A runtime whose document holds one line, once the provider policy is prepared. */
  function PreparedFor(line: string): Policy {
    var s := Step(Start([], None), NewRuntime(Present(Some(line))));
    Step(s, Prepares(0, false))
  }

  /** Any captured pattern can be the whole policy. */
  lemma PatternAlone(line: string)
    requires IsPolicyLine(line) && Clean(line) != "" && |line| <= MAX_CHARS
    ensures var s := PreparedFor(line); Enforces(s, Clean(line)) && s.effective == Merge([[Clean(line)]])
  {
    PreparedIsReachable(line);
    LineAlone(line);
    PreparedPolicy(line);
    EmptyGroupsAddNothing([Clean(line)]);
  }

  lemma PreparedIsReachable(line: string)
    ensures Reachable(PreparedFor(line))
  {
    var es := [NewRuntime(Present(Some(line))), Prepares(0, false)];
    var s := Step(Start([], None), es[0]);
    assert es[1..] == [es[1]] && es[1..][1..] == [];
    assert IsRun(Step(s, es[1]), [], Step(s, es[1]));
    assert IsRun(s, es[1..], Step(s, es[1]));
    assert IsRun(Start([], None), es, PreparedFor(line));
  }

  lemma PreparedPolicy(line: string)
    requires |line| <= MAX_CHARS
    ensures var s := PreparedFor(line);
            && s.gate.ready.Some? && s.overlay.Some? && s.overlay.value.captured == Some(line)
            && s.effective == Merge([[], [], PatternsOf(Some(line))])
  {
  }

  lemma EmptyGroupsAddNothing(group: seq<string>)
    ensures Merge([[], [], group]) == Merge([group])
  {
    var groups: seq<seq<string>> := [[], [], group];
    assert groups[..2] == [[], []] && groups[..2][..1] == [[]] && groups[..2][..1][..0] == [];
    assert [group][..0] == [];
    assert Merge([[]]) == JoinAll(Merge([]), []) == [];
    assert Merge([[], []]) == JoinAll(Merge([[]]), []) == [];
  }

  /**
   * A captured pattern is always in force literally exactly when it has no outer
   * white space and no further `./`. Otherwise merging it again rewrites it.
   */
  lemma CapturedPatternIsInForceIff(raw: Option<string>, p: string)
    requires WithinLimit(raw) && p in PatternsOf(raw)
    ensures (forall s :: Enforces(s, p) ==> p in s.effective) <==> Trim(p) == p && !StartsWithDotSlash(p)
  {
    var line := PatternsStandOnLines(raw, p);
    CleanIsIdempotentIff(line);
    PatternAlone(line);
    SingletonMerge(p);
    assert Enforces(PreparedFor(line), p);
    forall s | Enforces(s, p) && Clean(p) == p
      ensures p in s.effective
    {
      ReachableKeepsInv(s);
    }
  }

  /**
   * Every path a captured pattern excludes stays excluded, in every state with an
   * open gate, exactly when merging the pattern again leaves something that is
   * still a prefix of it.
   */
  lemma ExcludedPathsStayExcludedIff(raw: Option<string>, p: string)
    requires WithinLimit(raw) && p in PatternsOf(raw)
    ensures (forall s, path :: Enforces(s, p) ==> !LosesPath(s, p, path))
            <==> Clean(p) != "" && NormalizePrefix(Clean(p)) <= NormalizePrefix(p)
  {
    if Clean(p) != "" && NormalizePrefix(Clean(p)) <= NormalizePrefix(p) {
      forall s, path | Enforces(s, p)
        ensures !LosesPath(s, p, path)
      {
        ReachableKeepsInv(s);
        assert Clean(p) in s.effective;
      }
    } else {
      var line := PatternsStandOnLines(raw, p);
      PatternAlone(line);
      SingletonMerge(p);
      assert Enforces(PreparedFor(line), p) && LosesPath(PreparedFor(line), p, p);
    }
  }

  lemma PlainCleans(p: string)
    requires IsPlain(p)
    ensures NormalizePrefix(p) == DropSlashes(DropDotSlash(p))
  {
    PlainSlashes(p);
    CollapseOfPlain(p);
  }

  lemma WhiteSpaceCleans()
    ensures Clean("/ a") == " a" && Clean(" a") == "a"
  {
    assert Trim("/ a") == "/ a";
    assert TrimStart("a") == "a" && Trim(" a") == "a";
    PlainCleans("/ a");
    PlainCleans("a");
  }

  lemma WhiteSpaceExcludes()
    ensures NormalizePrefix(" a") <= NormalizePrefix(" a/x") && !(NormalizePrefix("a") <= NormalizePrefix(" a/x"))
  {
    PlainCleans("a");
    PlainCleans(" a");
    PlainCleans(" a/x");
  }

  lemma WhiteSpaceIsPolicyLine()
    ensures IsPolicyLine("/ a")
  {
    assert TrimStart("/ a") == "/ a";
  }

  /**
   * White space behind a leading slash does it: the document `/ a` excludes the
   * folder named ` a`, and an open gate enforces `a` instead.
   */
  lemma WhiteSpacePatternLosesItsPaths()
    ensures PatternsOf(Some("/ a")) == [" a"]
    ensures Enforces(PreparedFor("/ a"), " a") && PreparedFor("/ a").effective == ["a"]
    ensures LosesPath(PreparedFor("/ a"), " a", " a/x")
  {
    var line, p, path := "/ a", " a", " a/x";
    WhiteSpaceCleans();
    WhiteSpaceIsPolicyLine();
    WhiteSpaceExcludes();
    RewrittenPatternLosesPath(line, p, "a", path);
  }

  lemma RewrittenPatternLosesPath(line: string, p: string, q: string, path: string)
    requires IsPolicyLine(line) && |line| <= MAX_CHARS && Clean(line) == p != "" && Clean(p) == q != ""
    requires NormalizePrefix(p) <= NormalizePrefix(path) && !(NormalizePrefix(q) <= NormalizePrefix(path))
    ensures PatternsOf(Some(line)) == [p]
    ensures Enforces(PreparedFor(line), p) && PreparedFor(line).effective == [q]
    ensures LosesPath(PreparedFor(line), p, path)
  {
    LineAlone(line);
    PatternAlone(line);
    SingletonMerge(p);
  }

  lemma DotSlashTwice()
    ensures IsPolicyLine("././a") && Clean("././a") == "./a"
  {
    assert Trim("././a") == "././a";
    PlainCleans("././a");
  }

  lemma DotSlashOnce()
    ensures Clean("./a") == "a" && NormalizePrefix("a") <= NormalizePrefix("./a")
  {
    assert Trim("./a") == "./a";
    PlainCleans("./a");
    PlainCleans("a");
  }

  /** A second `./` is rewritten as well, but the pattern enforced then keeps the paths excluded. */
  lemma DotSlashPatternIsRewritten()
    ensures Enforces(PreparedFor("././a"), "./a") && PreparedFor("././a").effective == ["a"]
    ensures forall s, path :: Enforces(s, "./a") ==> !LosesPath(s, "./a", path)
  {
    DotSlashTwice();
    DotSlashOnce();
    RewrittenPatternKeepsPaths("././a", "./a", "a");
  }

  lemma RewrittenPatternKeepsPaths(line: string, p: string, q: string)
    requires IsPolicyLine(line) && |line| <= MAX_CHARS && Clean(line) == p != "" && Clean(p) == q != ""
    requires NormalizePrefix(q) <= NormalizePrefix(p)
    ensures Enforces(PreparedFor(line), p) && PreparedFor(line).effective == [q]
    ensures forall s, path :: Enforces(s, p) ==> !LosesPath(s, p, path)
  {
    LineAlone(line);
    PatternAlone(line);
    SingletonMerge(p);
    ExcludedPathsStayExcludedIff(Some(line), p);
  }

  // ---------------------------------------------------------------------------
  // Dropping the overlay
  // ---------------------------------------------------------------------------

  /**
   * A settlement drops the overlay only at a step at which disk and document hold
   * identical control texts, with the disk authority unmoved since before its
   * read and the runtime and generation it was asked for still current. The file
   * patterns are then those of that text, so every pattern of the document stays
   * in force.
   */
  lemma OverlayIsDroppedOnlyInAgreement(s: Policy, e: Event)
    requires Reachable(s) && Enabled(s, e) && s.overlay.Some? && Step(s, e).overlay.None?
    requires !e.NewRuntime? && !e.Teardown?
    ensures e.EndsSettlement? && s.settling.authority == s.authority && s.settling.epoch == s.epoch
    ensures s.document == Present(s.disk) && IsReadable(s.document)
    ensures s.runtime == Some(s.settling.request.runtime) && s.connection == s.settling.request.generation
    ensures Step(s, e).filePatterns == PatternsOf(s.document.raw)
    ensures InForce(PatternsOf(s.document.raw), Step(s, e).effective)
  {
    ReachableKeepsInv(s);
    StepKeepsInv(s, e);
    if e.EndsSettlement? {
      ApplySnapshotKeepsInv(s, s.settling.read.raw);
    }
  }

  /**
   * And it drops a held overlay whenever those conditions hold at its end: the
   * document then has exactly the text that is on disk now, and nothing else in
   * the policy stands in the way.
   */
  lemma SettlementDropsIff(s: Policy)
    requires Reachable(s) && s.settling.HasRead? && s.overlay.Some?
    ensures var h, t := s.settling, Step(s, EndsSettlement);
            t.overlay.None? <==>
              && h.read.Snapshot? && h.authority == s.authority && h.epoch == s.epoch
              && s.runtime == Some(h.request.runtime) && s.connection == h.request.generation
              && IsReadable(s.document) && s.document == Present(s.disk)
  {
    ReachableKeepsInv(s);
  }

  /** If no refresh was running when the read began, none is running when the overlay goes. */
  lemma NoRefreshSurvivesTheDrop(s: Policy)
    requires Reachable(s) && s.settling.HasRead? && MayDrop(s) && s.settling.quiet
    ensures FinishSettlement(s).refresh.NotRefreshing?
  {
    ReachableKeepsInv(s);
  }

  // ---------------------------------------------------------------------------
  // What each operation decides
  // ---------------------------------------------------------------------------

  /** The overlay of this runtime and generation is held and the gate is open for it. */
  predicate HoldsPolicyOf(s: Policy, generation: nat) {
    && s.gate.ready == Some(generation)
    && s.overlay.Some? && s.overlay.value.generation == generation && s.runtime == Some(s.overlay.value.runtime)
  }

  /** The shared document may be read for the policy of the generation. */
  predicate MayCapture(s: Policy, generation: nat, schemaBlocked: bool) {
    && s.runtime.Some? && s.connection == generation && !schemaBlocked && s.gate.generation <= generation
    && s.document.Present? && (s.document.raw.Some? ==> |s.document.raw.value| <= 65536)
  }

  /** Every primitive still running was admitted under the close epoch in which the gate would open. */
  ghost predicate RunsOnlyCurrent(s: Policy, generation: nat) {
    forall epoch :: Active(s.gate, epoch) > 0
                    ==> epoch == s.gate.closeEpoch + if s.gate.generation < generation then 1 else 0
  }

  lemma ClosingKeepsRunning(s: Policy, generation: nat)
    requires s.gate.generation <= generation
    ensures var g := if s.gate.generation != generation then Close(s.gate, generation) else s.gate;
            Open(g, generation).ok <==> RunsOnlyCurrent(s, generation)
  {
    var g := if s.gate.generation != generation then Close(s.gate, generation) else s.gate;
    ClosesIff(s.gate, generation);
    OpensIff(g, generation);
    assert forall epoch :: Active(g, epoch) == Active(s.gate, epoch);
  }

  /**
   * A provider generation is ready exactly when it is the connection's, and either
   * its policy is held already or its document is readable under a schema that is
   * not blocked, and no primitive admitted by an older generation still runs.
   */
  lemma PrepareIsReadyIff(s: Policy, generation: nat, schemaBlocked: bool)
    ensures Prepare(s, generation, schemaBlocked).ready <==>
              && s.runtime.Some? && s.connection == generation
              && (|| HoldsPolicyOf(s, generation)
                  || (MayCapture(s, generation, schemaBlocked) && RunsOnlyCurrent(s, generation)))
  {
    if s.gate.generation <= generation {
      ClosingKeepsRunning(s, generation);
    }
  }

  /**
   * A preparation that may read the document captures its text for this runtime and
   * generation and puts its patterns in force, before it tries the gate.
   */
  lemma PrepareCaptures(s: Policy, generation: nat, schemaBlocked: bool)
    requires MayCapture(s, generation, schemaBlocked) && !HoldsPolicyOf(s, generation)
    ensures var p, patterns := Prepare(s, generation, schemaBlocked), PatternsOf(s.document.raw);
            && p.state == s.(gate := p.state.gate, overlayPatterns := patterns,
                             overlay := Some(Overlay(s.runtime.value, generation, s.document.raw)),
                             effective := Merge([s.settings, s.filePatterns, patterns]))
            && p.state.gate.generation == generation
            && p.state.gate.ready == if RunsOnlyCurrent(s, generation) then Some(generation) else None
  {
    ClosingKeepsRunning(s, generation);
  }

  /** Any other preparation leaves the policy alone; at most it closes the gate for a newer generation. */
  lemma PrepareKeepsThePolicy(s: Policy, generation: nat, schemaBlocked: bool)
    requires !MayCapture(s, generation, schemaBlocked) || HoldsPolicyOf(s, generation)
    ensures var p := Prepare(s, generation, schemaBlocked);
            && p.state == s.(gate := p.state.gate)
            && p.state.gate in {s.gate, Close(s.gate, generation)}
            && (p.state.gate != s.gate <==>
                  && s.runtime.Some? && s.connection == generation && !schemaBlocked
                  && s.gate.generation < generation && !HoldsPolicyOf(s, generation))
  {
  }

  /** A settlement that drops the overlay leaves the text both sides agree on; any other changes nothing. */
  lemma SettlementOutcome(s: Policy)
    requires Reachable(s) && s.settling.HasRead?
    ensures var h, t := s.settling, Step(s, EndsSettlement);
            if && h.read.Snapshot? && h.authority == s.authority && h.epoch == s.epoch
               && s.runtime == Some(h.request.runtime) && s.connection == h.request.generation
               && IsReadable(s.document) && s.document == Present(s.disk)
            then t == s.(settling := Resting, overlay := None, overlayPatterns := [],
                         fileRaw := Some(s.disk), filePatterns := PatternsOf(s.disk),
                         effective := Merge([s.settings, PatternsOf(s.disk), []]))
            else t == s.(settling := Resting)
  {
    ReachableKeepsInv(s);
  }

  /** A failed refresh keeps the policy; a read takes the place of the file patterns and leaves the overlay alone. */
  lemma RefreshOutcome(s: Policy)
    requires Reachable(s) && s.refresh.Refreshed?
    ensures var t := Step(s, EndsRefresh);
            match s.refresh.read
            case Failed => t == s.(refresh := NotRefreshing)
            case Snapshot(raw) =>
              t == s.(refresh := NotRefreshing, fileRaw := Some(raw), filePatterns := PatternsOf(raw),
                      effective := if s.fileRaw == Some(raw) then s.effective
                                   else Merge([s.settings, PatternsOf(raw), s.overlayPatterns]))
  {
    ReachableKeepsInv(s);
  }

  /** A read answers the text on disk, unless it fails or the text has more than 65536 characters. */
  lemma ReadsSeeTheDisk(s: Policy, fails: bool)
    ensures s.refresh.Refreshing? ==>
              Step(s, ReadsForRefresh(fails)) == s.(refresh := Refreshed(DiskAnswer(s.disk, fails)))
    ensures s.settling.Reading? ==>
              Step(s, ReadsForSettlement(fails))
              == s.(settling := HasRead(s.settling.request, s.settling.authority, s.settling.epoch, s.settling.quiet,
                                        DiskAnswer(s.disk, fails)))
  {
  }

  function DiskAnswer(disk: Option<string>, fails: bool): DiskRead {
    match disk
    case None => if fails then Failed else Snapshot(None)
    case Some(text) => if fails || |text| > 65536 then Failed else Snapshot(Some(text))
  }

  /**
   * The coordinator takes a waiting request once no settlement runs, and starts it
   * exactly when its runtime and generation are current and the gate admits it.
   */
  lemma SettlementStartsIff(s: Policy)
    ensures var t := Step(s, TakesRequest);
            if s.settling.Resting? && s.pending.Some? then
              var r := s.pending.value;
              t == s.(pending := None,
                      settling := if s.runtime == Some(r.runtime) && s.connection == r.generation
                                     && s.gate.ready == Some(r.generation)
                                  then Waiting(r) else Resting)
            else t == s
  {
  }

  /** A waiting request waits until it is taken or a later request takes its place. */
  lemma RequestWaits(s: Policy, e: Event)
    requires Enabled(s, e) && s.pending.Some? && Step(s, e).pending != s.pending
    ensures (e.TakesRequest? && s.settling.Resting?)
            || (e.Requests? && s.overlay.Some?
                && Step(s, e).pending == Some(Request(s.overlay.value.runtime, s.overlay.value.generation)))
  {
  }

  /** A request names the overlay that is held, and takes the place of one that waits; without an overlay there is none. */
  lemma RequestIsNoted(s: Policy)
    ensures s.overlay.Some? ==>
              Step(s, Requests) == s.(pending := Some(Request(s.overlay.value.runtime, s.overlay.value.generation)))
    ensures s.overlay.None? ==> Step(s, Requests) == s
  {
  }

  /** A new runtime, and the end of one, start without an overlay and behind a closed gate. */
  lemma RuntimeStartsClosed(s: Policy, document: Control)
    ensures var t := Step(s, NewRuntime(document));
            && t.runtime == Some(s.nextRuntime) && t.nextRuntime == s.nextRuntime + 1 && t.document == document
            && t.overlay == None && t.overlayPatterns == [] && t.gate.ready == None && t.gate.active == map[]
            && t.settings == s.settings && t.filePatterns == s.filePatterns && t.disk == s.disk
    ensures var t := Step(s, Teardown);
            && t.runtime == None && t.overlay == None && t.overlayPatterns == [] && t.gate.ready == None
            && t.effective == Merge([s.settings, s.filePatterns, []])
  {
  }

  // ---------------------------------------------------------------------------
  // Settlements of an earlier runtime
  // ---------------------------------------------------------------------------

  predicate IsRequestBefore(s: Policy, r: Request) {
    r.runtime < s.nextRuntime
  }

  /** No overlay and no request is of a runtime that is still to come. */
  ghost predicate AreRuntimesPast(s: Policy) {
    && (s.runtime.Some? ==> s.runtime.value < s.nextRuntime)
    && (s.overlay.Some? ==> s.overlay.value.runtime < s.nextRuntime)
    && (s.pending.Some? ==> IsRequestBefore(s, s.pending.value))
    && (!s.settling.Resting? ==> IsRequestBefore(s, s.settling.request))
  }

  lemma {:induction false} RuntimesStayPast(s: Policy, es: seq<Event>, t: Policy)
    requires AreRuntimesPast(s) && IsRun(s, es, t)
    ensures AreRuntimesPast(t)
    decreases |es|
  {
    if es != [] {
      StepKeepsRuntimesPast(s, es[0]);
      RuntimesStayPast(Step(s, es[0]), es[1..], t);
    }
  }

  lemma PrepareKeepsRuntimesPast(s: Policy, generation: nat, schemaBlocked: bool)
    requires AreRuntimesPast(s)
    ensures AreRuntimesPast(Prepare(s, generation, schemaBlocked).state)
  {
  }

  lemma StepKeepsRuntimesPast(s: Policy, e: Event)
    requires AreRuntimesPast(s) && Enabled(s, e)
    ensures AreRuntimesPast(Step(s, e))
  {
    match e
    case Prepares(generation, schemaBlocked) => PrepareKeepsRuntimesPast(s, generation, schemaBlocked);
    case EndsRefresh =>
    case EndsSettlement =>
    case _ =>
  }

  /** The runtime of a state stays the same, is gone, or is newer, and never comes back. */
  lemma {:induction false} RuntimeNeverReturns(s: Policy, es: seq<Event>, t: Policy, runtime: nat)
    requires IsRun(s, es, t) && runtime < s.nextRuntime && s.runtime != Some(runtime)
    ensures t.runtime != Some(runtime)
    decreases |es|
  {
    if es != [] {
      RuntimeNeverReturns(Step(s, es[0]), es[1..], t, runtime);
    }
  }

  /** However long its read takes, a settlement asked for one runtime never drops the overlay of a later one. */
  lemma SettlementOfAnEarlierRuntimeKeepsTheOverlay(s: Policy, document: Control, es: seq<Event>, t: Policy)
    requires Reachable(s) && !s.settling.Resting? && IsRun(Step(s, NewRuntime(document)), es, t)
    requires t.settling.HasRead? && t.settling.request == s.settling.request
    ensures Step(t, EndsSettlement) == t.(settling := Resting)
  {
    var settings, disk, before :| IsRun(Start(settings, disk), before, s);
    RuntimesStayPast(Start(settings, disk), before, s);
    RuntimeNeverReturns(Step(s, NewRuntime(document)), es, t, s.settling.request.runtime);
  }

  // ---------------------------------------------------------------------------
  // The plugin's fields
  // ---------------------------------------------------------------------------

  class ExcludePolicy {
    const gate: RemoteProjectionPolicyGate
    var settings: seq<string>
    var fileRaw: Option<Option<string>>
    var filePatterns: seq<string>
    var overlay: Option<Overlay>
    var overlayPatterns: seq<string>
    var effective: seq<string>

    constructor (g: RemoteProjectionPolicyGate, patterns: seq<string>)
      ensures gate == g && settings == patterns && overlay == None && overlayPatterns == []
      ensures fileRaw == None && filePatterns == [] && effective == Merge([patterns, [], []])
    {
      gate, settings, fileRaw, filePatterns, overlay, overlayPatterns := g, patterns, None, [], None, [];
      effective := Merge([patterns, [], []]);
    }

    /** The plugin within its surroundings `s`, which it does not change. */
    function View(s: Policy): Policy
      reads this, gate
    {
      s.(gate := gate.View(), settings := settings, fileRaw := fileRaw, filePatterns := filePatterns,
         overlay := overlay, overlayPatterns := overlayPatterns, effective := effective)
    }

    method DoApply(ghost s: Policy)
      modifies this
      ensures View(s) == Apply(old(View(s)))
    {
      effective := MergeExcludePatterns([settings, filePatterns, overlayPatterns]);
    }

    method DoApplySnapshot(ghost s: Policy, raw: Option<string>)
      modifies this
      ensures View(s) == ApplySnapshot(old(View(s)), raw)
    {
      if fileRaw == Some(raw) {
        return;
      }
      fileRaw, filePatterns := Some(raw), PatternsOf(raw);
      DoApply(s);
    }

    method DoPrepare(s: Policy, generation: nat, schemaBlocked: bool) returns (ready: bool)
      requires PolicyInv(View(s))
      modifies this, gate
      ensures Prepared(View(s), ready) == Prepare(old(View(s)), generation, schemaBlocked)
      ensures PolicyInv(View(s))
    {
      PrepareKeepsInv(View(s), generation, schemaBlocked);
      if s.runtime.None? || generation != s.connection {
        return false;
      }
      if overlay.Some? && Some(overlay.value.runtime) == s.runtime && overlay.value.generation == generation
         && gate.ready == Some(generation) {
        return true;
      }
      if schemaBlocked {
        return false;
      }
      if gate.generation != generation {
        gate.DoClose(generation);
      }
      if gate.generation != generation || !IsReadable(s.document) {
        return false;
      }
      overlay := Some(Overlay(s.runtime.value, generation, s.document.raw));
      overlayPatterns := PatternsOf(s.document.raw);
      DoApply(s);
      ready := gate.DoOpen(generation);
    }

    /** Everything a settlement does after its disk read. */
    method DoFinishSettlement(s: Policy) returns (dropped: bool)
      requires PolicyInv(View(s)) && s.settling.HasRead?
      modifies this
      ensures View(s.(settling := Resting)) == FinishSettlement(old(View(s)))
      ensures dropped <==> MayDrop(old(View(s)))
      ensures PolicyInv(View(s.(settling := Resting)))
    {
      FinishSettlementKeepsInv(View(s));
      var h := s.settling;
      if h.read.Failed? || s.authority != h.authority {
        return false;
      }
      if s.runtime != Some(h.request.runtime) || s.connection != h.request.generation || !IsReadable(s.document) {
        return false;
      }
      if s.epoch != h.epoch || h.read.raw != s.document.raw {
        return false;
      }
      DoApplySnapshot(s, h.read.raw);
      overlay, overlayPatterns := None, [];
      DoApply(s);
      return true;
    }
  }
}
