/**
 * Exclude patterns: normalization, the stable union of several lists, and the
 * shared control file (src/sync/exclude.ts:39-45, 101-161,
 * src/runtime/excludeFile.ts:22-45).
 */
module ExcludePatterns {
  import opened Wrappers

  // ---------------------------------------------------------------------------
  // Normalization
  // ---------------------------------------------------------------------------

  predicate IsSpace(c: char) {
    || c in " \t\n\r\U{000B}\U{000C}\U{00A0}\U{1680}\U{2028}\U{2029}\U{202F}\U{205F}\U{3000}\U{FEFF}"
    || '\U{2000}' <= c <= '\U{200A}'
  }

  function TrimStart(s: string): string {
    if s != "" && IsSpace(s[0]) then TrimStart(s[1..]) else s
  }

  function TrimEnd(s: string): string {
    if s != "" && IsSpace(s[|s| - 1]) then TrimEnd(s[..|s| - 1]) else s
  }

  function Trim(s: string): string {
    TrimEnd(TrimStart(s))
  }

  function ForwardSlashes(s: string): (r: string)
    ensures '\\' !in r
  {
    if s == "" then "" else [if s[0] == '\\' then '/' else s[0]] + ForwardSlashes(s[1..])
  }

  /** Runs of slashes become one. */
  function CollapseSlashes(s: string): string {
    if |s| < 2 then s
    else if s[0] == '/' && s[1] == '/' then CollapseSlashes(s[1..])
    else [s[0]] + CollapseSlashes(s[1..])
  }

  function DropDotSlash(s: string): string {
    if |s| >= 2 && s[0] == '.' && s[1] == '/' then s[2..] else s
  }

  function DropSlashes(s: string): (r: string)
    ensures r != "" ==> r[0] != '/'
  {
    if s != "" && s[0] == '/' then DropSlashes(s[1..]) else s
  }

  function NormalizePrefix(s: string): string {
    DropSlashes(DropDotSlash(CollapseSlashes(ForwardSlashes(s))))
  }

  /** What a list entry becomes when it is merged. */
  function Clean(pattern: string): string {
    NormalizePrefix(Trim(pattern))
  }

  // ---------------------------------------------------------------------------
  // Fixed points of the normalization
  // ---------------------------------------------------------------------------

  predicate HasNoRuns(s: string) {
    forall i :: 0 <= i < |s| - 1 ==> !(s[i] == '/' && s[i + 1] == '/')
  }

  predicate IsPlain(s: string) {
    '\\' !in s && HasNoRuns(s)
  }

  lemma SuffixIsPlain(s: string, n: nat)
    requires IsPlain(s) && n <= |s|
    ensures IsPlain(s[n..])
  {
  }

  lemma {:induction false} PlainSlashes(s: string)
    requires '\\' !in s
    ensures ForwardSlashes(s) == s
  {
    if s != "" {
      PlainSlashes(s[1..]);
    }
  }

  lemma {:induction false} CollapseIsPlain(s: string)
    requires '\\' !in s
    ensures IsPlain(CollapseSlashes(s))
    ensures s != "" ==> CollapseSlashes(s) != "" && CollapseSlashes(s)[0] == s[0]
  {
    if |s| >= 2 {
      CollapseIsPlain(s[1..]);
    }
  }

  lemma {:induction false} CollapseOfPlain(s: string)
    requires IsPlain(s)
    ensures CollapseSlashes(s) == s
  {
    if |s| >= 2 {
      SuffixIsPlain(s, 1);
      CollapseOfPlain(s[1..]);
    }
  }

  lemma DropSlashesIsPlain(s: string)
    requires IsPlain(s)
    ensures IsPlain(DropSlashes(s))
  {
    if s != "" {
      SuffixIsPlain(s, 1);
    }
  }

  lemma NormalizedIsPlain(s: string)
    ensures IsPlain(NormalizePrefix(s))
    ensures NormalizePrefix(s) != "" ==> NormalizePrefix(s)[0] != '/'
  {
    var collapsed := CollapseSlashes(ForwardSlashes(s));
    CollapseIsPlain(ForwardSlashes(s));
    var dropped := DropDotSlash(collapsed);
    if dropped != collapsed {
      SuffixIsPlain(collapsed, 2);
    }
    DropSlashesIsPlain(dropped);
  }

  predicate StartsWithDotSlash(s: string) {
    |s| >= 2 && s[0] == '.' && s[1] == '/'
  }

  /** A plain pattern without a leading slash is a fixed point exactly when it has no `./` left to drop. */
  lemma NormalizeFixedIff(p: string)
    requires IsPlain(p) && (p != "" ==> p[0] != '/')
    ensures NormalizePrefix(p) == p <==> !StartsWithDotSlash(p)
  {
    PlainSlashes(p);
    CollapseOfPlain(p);
    if StartsWithDotSlash(p) {
      DropSlashesShrinks(p[2..]);
    }
  }

  lemma {:induction false} DropSlashesShrinks(s: string)
    ensures |DropSlashes(s)| <= |s|
  {
    if s != "" && s[0] == '/' {
      DropSlashesShrinks(s[1..]);
    }
  }

  lemma {:induction false} TrimStartShrinks(s: string)
    ensures |TrimStart(s)| <= |s|
    ensures TrimStart(s) != "" ==> !IsSpace(TrimStart(s)[0])
  {
    if s != "" && IsSpace(s[0]) {
      TrimStartShrinks(s[1..]);
    }
  }

  lemma {:induction false} TrimEndEnds(s: string)
    ensures TrimEnd(s) <= s
    ensures TrimEnd(s) != "" ==> !IsSpace(TrimEnd(s)[|TrimEnd(s)| - 1])
  {
    if s != "" && IsSpace(s[|s| - 1]) {
      TrimEndEnds(s[..|s| - 1]);
    }
  }

  lemma TrimIsIdempotent(s: string)
    ensures Trim(Trim(s)) == Trim(s)
  {
    TrimStartShrinks(s);
    TrimEndEnds(TrimStart(s));
  }

  lemma TrimShrinks(s: string)
    ensures |Trim(s)| < |s| || Trim(s) == s
  {
    if s != "" {
      TrimStartShrinks(s[1..]);
    }
    TrimStartShrinks(s);
    TrimEndEnds(TrimStart(s));
  }

  lemma {:induction false} CollapseShrinks(s: string)
    ensures |CollapseSlashes(s)| <= |s|
  {
    if |s| >= 2 {
      CollapseShrinks(s[1..]);
    }
  }

  lemma {:induction false} ForwardSlashesKeepLength(s: string)
    ensures |ForwardSlashes(s)| == |s|
  {
    if s != "" {
      ForwardSlashesKeepLength(s[1..]);
    }
  }

  lemma NormalizeShrinks(s: string)
    ensures |NormalizePrefix(s)| <= |s|
  {
    ForwardSlashesKeepLength(s);
    CollapseShrinks(ForwardSlashes(s));
    DropSlashesShrinks(DropDotSlash(CollapseSlashes(ForwardSlashes(s))));
  }

  /**
   * Merging leaves an already merged pattern alone exactly when it carries no
   * outer white space and no further `./`: normalization strips only one, and
   * trimming comes before it.
   */
  lemma CleanIsIdempotentIff(raw: string)
    ensures var p := Clean(raw); Clean(p) == p <==> Trim(p) == p && !StartsWithDotSlash(p)
  {
    var p := Clean(raw);
    NormalizedIsPlain(Trim(raw));
    NormalizeFixedIff(p);
    TrimShrinks(p);
    NormalizeShrinks(Trim(p));
  }

  // ---------------------------------------------------------------------------
  // Merging
  // ---------------------------------------------------------------------------

  /** One list entry joins the patterns gathered so far. */
  function Join(merged: seq<string>, pattern: string): seq<string> {
    var p := Clean(pattern);
    if p == "" || p in merged then merged else merged + [p]
  }

  function JoinAll(merged: seq<string>, group: seq<string>): seq<string> {
    if group == [] then merged else Join(JoinAll(merged, group[..|group| - 1]), group[|group| - 1])
  }

  function Merge(groups: seq<seq<string>>): seq<string> {
    if groups == [] then [] else JoinAll(Merge(groups[..|groups| - 1]), groups[|groups| - 1])
  }

  lemma NextGroup(groups: seq<seq<string>>, g: nat)
    requires g < |groups|
    ensures Merge(groups[..g + 1]) == JoinAll(Merge(groups[..g]), groups[g])
  {
    assert groups[..g + 1][..g] == groups[..g];
  }

  lemma NextEntry(merged: seq<string>, group: seq<string>, i: nat)
    requires i < |group|
    ensures JoinAll(merged, group[..i + 1]) == Join(JoinAll(merged, group[..i]), group[i])
  {
    assert group[..i + 1][..i] == group[..i];
  }

  /** `mergeExcludePatterns`. */
  method MergeExcludePatterns(groups: seq<seq<string>>) returns (merged: seq<string>)
    ensures merged == Merge(groups)
  {
    merged := [];
    var seen: set<string> := {};
    for g := 0 to |groups|
      invariant merged == Merge(groups[..g])
      invariant forall p :: p in seen <==> p in merged
    {
      var group := groups[g];
      NextGroup(groups, g);
      for i := 0 to |group|
        invariant merged == JoinAll(Merge(groups[..g]), group[..i])
        invariant forall p :: p in seen <==> p in merged
      {
        NextEntry(Merge(groups[..g]), group, i);
        var pattern := Clean(group[i]);
        if pattern == "" || pattern in seen {
          continue;
        }
        seen := seen + {pattern};
        merged := merged + [pattern];
      }
      assert group[..|group|] == group;
    }
    assert groups[..|groups|] == groups;
  }

  ghost predicate HasEntry(group: seq<string>, p: string) {
    exists i :: 0 <= i < |group| && Clean(group[i]) == p
  }

  ghost predicate HasSource(groups: seq<seq<string>>, p: string) {
    exists g :: 0 <= g < |groups| && HasEntry(groups[g], p)
  }

  lemma HasEntrySplit(shorter: seq<string>, entry: string, p: string)
    ensures HasEntry(shorter + [entry], p) <==> HasEntry(shorter, p) || Clean(entry) == p
  {
    var group := shorter + [entry];
    if HasEntry(shorter, p) {
      var i :| 0 <= i < |shorter| && Clean(shorter[i]) == p;
      assert group[i] == shorter[i];
    }
    if HasEntry(group, p) {
      var i :| 0 <= i < |group| && Clean(group[i]) == p;
      assert i < |shorter| ==> group[i] == shorter[i];
    }
    assert group[|shorter|] == entry;
  }

  lemma {:induction false} JoinAllHas(merged: seq<string>, group: seq<string>, p: string)
    ensures p in JoinAll(merged, group) <==> p in merged || (p != "" && HasEntry(group, p))
    decreases |group|
  {
    if group != [] {
      var shorter, entry := group[..|group| - 1], group[|group| - 1];
      JoinAllHas(merged, shorter, p);
      assert group == shorter + [entry];
      HasEntrySplit(shorter, entry, p);
      JoinHas(JoinAll(merged, shorter), entry, p);
    }
  }

  lemma JoinHas(merged: seq<string>, entry: string, p: string)
    ensures p in Join(merged, entry) <==> p in merged || (p != "" && Clean(entry) == p)
  {
  }

  lemma HasSourceSplit(shorter: seq<seq<string>>, group: seq<string>, p: string)
    ensures HasSource(shorter + [group], p) <==> HasSource(shorter, p) || HasEntry(group, p)
  {
    var groups := shorter + [group];
    if HasSource(shorter, p) {
      var g :| 0 <= g < |shorter| && HasEntry(shorter[g], p);
      assert HasEntry(groups[g], p);
    }
    if HasEntry(group, p) {
      assert HasEntry(groups[|shorter|], p);
    }
  }

  /** The merged list is the set of all cleaned entries that are not empty. */
  lemma {:induction false} MergeIsUnion(groups: seq<seq<string>>, p: string)
    ensures p in Merge(groups) <==> p != "" && HasSource(groups, p)
    decreases |groups|
  {
    if groups != [] {
      var shorter, group := groups[..|groups| - 1], groups[|groups| - 1];
      MergeIsUnion(shorter, p);
      JoinAllHas(Merge(shorter), group, p);
      assert groups == shorter + [group];
      HasSourceSplit(shorter, group, p);
    }
  }

  predicate NoDuplicates(ps: seq<string>) {
    forall i, k :: 0 <= i < k < |ps| ==> ps[i] != ps[k]
  }

  lemma {:induction false} JoinAllKeepsOrder(merged: seq<string>, group: seq<string>)
    requires NoDuplicates(merged)
    ensures merged <= JoinAll(merged, group) && NoDuplicates(JoinAll(merged, group))
    decreases |group|
  {
    if group != [] {
      JoinAllKeepsOrder(merged, group[..|group| - 1]);
    }
  }

  /** Merging is stable: earlier groups keep their place in front, and nothing is listed twice. */
  lemma {:induction false} MergeIsStable(groups: seq<seq<string>>, n: nat)
    requires n <= |groups|
    ensures NoDuplicates(Merge(groups)) && Merge(groups[..n]) <= Merge(groups)
    decreases |groups|
  {
    if groups != [] {
      var shorter := groups[..|groups| - 1];
      MergeIsStable(shorter, if n < |groups| then n else 0);
      JoinAllKeepsOrder(Merge(shorter), groups[|groups| - 1]);
      if n < |groups| {
        assert shorter[..n] == groups[..n];
      } else {
        assert groups[..n] == groups;
      }
    }
  }

  // ---------------------------------------------------------------------------
  // The control file
  // ---------------------------------------------------------------------------

  const MAX_CHARS := 65536

  const BOM := '\U{FEFF}'

  /** Lines end at a line feed; a carriage return before it is trimmed with the line. */
  function Lines(s: string, current: string): seq<string>
    decreases |s|
  {
    if s == "" then [current]
    else if s[0] == '\n' then [current] + Lines(s[1..], "")
    else Lines(s[1..], current + [s[0]])
  }

  function Meaningful(lines: seq<string>): seq<string> {
    if lines == [] then []
    else
      var line := Trim(lines[0]);
      (if line == "" || line[0] == '#' then [] else [line]) + Meaningful(lines[1..])
  }

  /** `parseKaosExcludeFile`. */
  function Parse(raw: string): seq<string> {
    var text := if raw != "" && raw[0] == BOM then raw[1..] else raw;
    Merge([Meaningful(Lines(text, ""))])
  }

  /** The patterns of a control file that is absent or has a text within the limit. */
  function PatternsOf(raw: Option<string>): seq<string> {
    if raw.None? then [] else Parse(raw.value)
  }

  /** A text of lines. */
  function JoinLines(lines: seq<string>): string
    requires lines != []
  {
    if |lines| == 1 then lines[0] else lines[0] + "\n" + JoinLines(lines[1..])
  }

  ghost predicate AreLines(lines: seq<string>) {
    lines != [] && forall i :: 0 <= i < |lines| ==> '\n' !in lines[i]
  }

  lemma {:induction false} FirstLine(line: string, rest: string, current: string)
    requires '\n' !in line
    ensures Lines(line + "\n" + rest, current) == [current + line] + Lines(rest, "")
    decreases |line|
  {
    var text := line + "\n" + rest;
    if line == "" {
      assert text[1..] == rest && current + line == current;
    } else {
      FirstLine(line[1..], rest, current + [line[0]]);
      assert text[1..] == line[1..] + "\n" + rest;
      assert current + [line[0]] + line[1..] == current + line;
    }
  }

  /** Reading a file gives back the lines it was written from. */
  lemma {:induction false} LinesRoundTrip(lines: seq<string>)
    requires AreLines(lines)
    ensures Lines(JoinLines(lines), "") == lines
    decreases |lines|
  {
    assert lines[0] == "" + lines[0];
    if |lines| == 1 {
      OneLine(lines[0], "");
    } else {
      LinesRoundTrip(lines[1..]);
      FirstLine(lines[0], JoinLines(lines[1..]), "");
    }
  }

  /** The line names a prefix: it has more than white space and is no comment. */
  predicate NamesPrefix(line: string) {
    Trim(line) != "" && Trim(line)[0] != '#'
  }

  lemma {:induction false} MeaningfulIff(lines: seq<string>, line: string)
    ensures line in Meaningful(lines) <==> exists l :: l in lines && NamesPrefix(l) && Trim(l) == line
    decreases |lines|
  {
    if lines != [] {
      MeaningfulIff(lines[1..], line);
      assert lines == [lines[0]] + lines[1..];
    }
  }

  /** A control file has exactly the prefixes its lines name. */
  lemma FilePatternsIff(lines: seq<string>, p: string)
    requires AreLines(lines) && !([BOM] <= JoinLines(lines))
    ensures p in PatternsOf(Some(JoinLines(lines))) <==> p != "" && exists l :: l in lines && NamesPrefix(l) && Clean(l) == p
  {
    var group := Meaningful(lines);
    LinesRoundTrip(lines);
    MergeIsUnion([group], p);
    assert HasSource([group], p) <==> HasEntry([group][0], p);
    if HasEntry(group, p) {
      var i :| 0 <= i < |group| && Clean(group[i]) == p;
      MeaningfulIff(lines, group[i]);
      var l :| l in lines && NamesPrefix(l) && Trim(l) == group[i];
      TrimIsIdempotent(l);
    }
    if l :| l in lines && NamesPrefix(l) && Clean(l) == p {
      MeaningfulIff(lines, Trim(l));
      var i :| 0 <= i < |group| && group[i] == Trim(l);
      TrimIsIdempotent(l);
      assert Clean(group[i]) == p;
    }
  }

  /** One byte order mark in front is no part of the file. */
  lemma LeadingMarkIsDropped(text: string)
    requires !([BOM] <= text)
    ensures Parse([BOM] + text) == Parse(text)
  {
    assert ([BOM] + text)[1..] == text;
  }

  /** A line as it reaches the merge: trimmed, not empty and no comment. */
  predicate IsPolicyLine(line: string) {
    line != "" && line[0] != '#' && '\n' !in line && Trim(line) == line
  }

  lemma {:induction false} LinesContents(s: string, current: string, line: string)
    requires line in Lines(s, current) && '\n' !in current
    ensures '\n' !in line && |line| <= |current| + |s|
    decreases |s|
  {
    if s != "" {
      if s[0] != '\n' {
        LinesContents(s[1..], current + [s[0]], line);
      } else if line != current {
        LinesContents(s[1..], "", line);
      }
    }
  }

  lemma {:induction false} OneLine(s: string, current: string)
    requires '\n' !in s
    ensures Lines(s, current) == [current + s]
    decreases |s|
  {
    if s != "" {
      OneLine(s[1..], current + [s[0]]);
      assert current + [s[0]] + s[1..] == current + s;
    } else {
      assert current + s == current;
    }
  }

  lemma {:induction false} TrimStartContents(s: string, c: char)
    requires c in TrimStart(s)
    ensures c in s
  {
    if s != "" && IsSpace(s[0]) {
      TrimStartContents(s[1..], c);
    }
  }

  lemma TrimContents(s: string, c: char)
    requires c in Trim(s)
    ensures c in s
  {
    TrimEndEnds(TrimStart(s));
    TrimStartContents(s, c);
  }

  lemma {:induction false} MeaningfulContents(lines: seq<string>, line: string)
    requires line in Meaningful(lines)
    ensures line != "" && line[0] != '#' && exists l :: l in lines && line == Trim(l)
  {
    if line != Trim(lines[0]) || line == "" || line[0] == '#' {
      MeaningfulContents(lines[1..], line);
      var l :| l in lines[1..] && line == Trim(l);
      assert l in lines;
    }
  }

  /** Every pattern of a control file stands on a line of it. */
  lemma PatternsStandOnLines(raw: Option<string>, p: string) returns (line: string)
    requires p in PatternsOf(raw)
    ensures p != "" && Clean(line) == p && IsPolicyLine(line) && |line| <= |raw.value|
  {
    var text := if raw.value != "" && raw.value[0] == BOM then raw.value[1..] else raw.value;
    var group := Meaningful(Lines(text, ""));
    MergeIsUnion([group], p);
    var g :| 0 <= g < |[group]| && HasEntry([group][g], p);
    assert HasEntry(group, p);
    var i :| 0 <= i < |group| && Clean(group[i]) == p;
    line := group[i];
    MeaningfulContents(Lines(text, ""), line);
    var l :| l in Lines(text, "") && line == Trim(l);
    LinesContents(text, "", l);
    TrimShrinks(l);
    TrimIsIdempotent(l);
    if '\n' in line {
      TrimContents(l, '\n');
    }
  }

  lemma SingletonMerge(line: string)
    ensures Merge([[line]]) == if Clean(line) == "" then [] else [Clean(line)]
  {
    assert [[line]][..0] == [] && [line][..0] == [];
    assert JoinAll([], [line]) == Join(JoinAll([], []), line);
  }

  lemma PolicyLineStartsAtItsText(line: string)
    requires IsPolicyLine(line)
    ensures !IsSpace(line[0])
  {
    TrimStartShrinks(line);
    TrimEndEnds(TrimStart(line));
  }

  lemma MeaningfulAlone(line: string)
    requires IsPolicyLine(line)
    ensures Meaningful([line]) == [line]
  {
    assert [line][1..] == [] && Meaningful([]) == [];
  }

  /** A control file of one such line has its pattern alone. */
  lemma LineAlone(line: string)
    requires IsPolicyLine(line) && Clean(line) != ""
    ensures Parse(line) == [Clean(line)]
  {
    PolicyLineStartsAtItsText(line);
    assert line[0] != BOM;
    OneLine(line, "");
    assert "" + line == line;
    MeaningfulAlone(line);
    SingletonMerge(line);
  }

  predicate WithinLimit(raw: Option<string>) {
    raw.Some? ==> |raw.value| <= MAX_CHARS
  }

  /** A path is excluded by a pattern list when a normalized pattern is a prefix of it. */
  ghost predicate IsExcludedBy(path: string, patterns: seq<string>) {
    exists p :: p in patterns && NormalizePrefix(p) <= NormalizePrefix(path)
  }
}
