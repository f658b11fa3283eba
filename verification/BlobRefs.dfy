/**
 * Content references of attachments and their bounded causal lineage
 * (src/types.ts).
 */
module BlobRefs {
  import opened Wrappers

  const MAX_PRIOR_HASHES: nat := 16

  /** `priorHashes` is an optional field in the source. */
  datatype BlobRef = BlobRef(hash: string, size: nat, priorHashes: Option<seq<string>>)

  predicate IsHexDigit(c: char) {
    '0' <= c <= '9' || 'a' <= c <= 'f'
  }

  predicate IsSha256Hex(s: string) {
    |s| == 64 && forall i :: 0 <= i < |s| ==> IsHexDigit(s[i])
  }

  predicate Distinct<T(==, !new)>(xs: seq<T>) {
    forall i, j :: 0 <= i < j < |xs| ==> xs[i] != xs[j]
  }

  function Take<T>(n: nat, xs: seq<T>): seq<T> {
    if |xs| <= n then xs else xs[..n]
  }

  /** Keeps the first occurrence of every element, as a JavaScript `Set` does. */
  function Dedup<T(==, !new)>(xs: seq<T>): (r: seq<T>)
    ensures Distinct(r)
    ensures forall x :: x in r <==> x in xs
  {
    if xs == [] then []
    else
      var r := Dedup(xs[..|xs| - 1]);
      var x := xs[|xs| - 1];
      assert xs == xs[..|xs| - 1] + [x];
      if x in r then r else r + [x]
  }

  lemma {:induction false} DedupOfDistinct<T(!new)>(xs: seq<T>)
    requires Distinct(xs)
    ensures Dedup(xs) == xs
  {
    if xs != [] {
      DedupOfDistinct(xs[..|xs| - 1]);
      assert xs == xs[..|xs| - 1] + [xs[|xs| - 1]];
    }
  }

  /** The validated lineage of a ref; malformed or oversized lineages read as empty. */
  function PriorHashes(ref: Option<BlobRef>): (r: seq<string>)
    ensures |r| <= MAX_PRIOR_HASHES && Distinct(r)
    ensures forall h :: h in r ==> IsSha256Hex(h)
  {
    if ref.None? || ref.value.priorHashes.None? then []
    else
      var hs := ref.value.priorHashes.value;
      if |hs| > MAX_PRIOR_HASHES || exists h :: h in hs && !IsSha256Hex(h) then []
      else DedupNoLonger(hs); Dedup(hs)
  }

  lemma DedupNoLonger<T(!new)>(xs: seq<T>)
    ensures |Dedup(xs)| <= |xs|
  {
  }

  /** The elements of `r` are those of `xs`, each at its first occurrence. */
  ghost predicate KeepsFirsts<T(!new)>(xs: seq<T>, r: seq<T>) {
    && Distinct(r) && (forall x :: x in r <==> x in xs)
  }

  lemma {:induction false} DedupGrows<T(!new)>(xs: seq<T>, n: nat)
    requires n <= |xs|
    ensures Dedup(xs[..n]) <= Dedup(xs)
    decreases |xs|
  {
    if n < |xs| {
      assert xs[..|xs| - 1][..n] == xs[..n];
      DedupGrows(xs[..|xs| - 1], n);
    } else {
      assert xs[..n] == xs;
    }
  }

  /**
   * A lineage reads exactly when it has at most 16 hashes and all of them are
   * valid. It then reads as its hashes in their order, each once; any other reads
   * as empty.
   */
  lemma LineageReadsIff(hash: string, size: nat, hs: seq<string>)
    ensures var r := PriorHashes(Some(BlobRef(hash, size, Some(hs))));
            if |hs| <= 16 && forall i :: 0 <= i < |hs| ==> IsSha256Hex(hs[i])
            then KeepsFirsts(hs, r) && (forall n: nat :: n <= |hs| ==> Dedup(hs[..n]) <= r) && (Distinct(hs) ==> r == hs)
            else r == []
    ensures PriorHashes(Some(BlobRef(hash, size, None))) == [] && PriorHashes(None) == []
  {
    forall n: nat | n <= |hs|
      ensures Dedup(hs[..n]) <= Dedup(hs)
    {
      DedupGrows(hs, n);
    }
    if Distinct(hs) {
      DedupOfDistinct(hs);
    }
  }

  // ---------------------------------------------------------------------------
  // Minting a ref
  // ---------------------------------------------------------------------------

  /** The full, unbounded lineage: valid candidates other than `hash`, first occurrences only. */
  function Lineage(hash: string, candidates: seq<string>): (r: seq<string>)
    ensures Distinct(r)
    ensures forall h :: h in r <==> h in candidates && IsSha256Hex(h) && h != hash
  {
    if candidates == [] then []
    else
      var r := Lineage(hash, candidates[..|candidates| - 1]);
      var c := candidates[|candidates| - 1];
      assert candidates == candidates[..|candidates| - 1] + [c];
      if IsSha256Hex(c) && c != hash && c !in r then r + [c] else r
  }

  function Candidates(previous: Option<BlobRef>, inherited: seq<string>): seq<string> {
    (if previous.Some? then [previous.value.hash] + PriorHashes(previous) else []) + inherited
  }

  function CausalBlobRef(hash: string, size: nat, previous: Option<BlobRef>, inherited: seq<string>): BlobRef {
    var prior := Take(MAX_PRIOR_HASHES, Lineage(hash, Candidates(previous, inherited)));
    BlobRef(hash, size, if prior == [] then None else Some(prior))
  }

  /** Extending the candidate list only ever appends to the lineage. */
  lemma {:induction false} LineagePrefix(hash: string, candidates: seq<string>, n: nat)
    requires n <= |candidates|
    ensures Lineage(hash, candidates[..n]) <= Lineage(hash, candidates)
    decreases |candidates|
  {
    if n < |candidates| {
      var shorter := candidates[..|candidates| - 1];
      LineagePrefix(hash, shorter, n);
      assert shorter[..n] == candidates[..n];
    } else {
      assert candidates[..n] == candidates;
    }
  }

  lemma NextCandidate(hash: string, candidates: seq<string>, i: nat)
    requires i < |candidates|
    ensures var before, c := Lineage(hash, candidates[..i]), candidates[i];
            Lineage(hash, candidates[..i + 1])
            == if IsSha256Hex(c) && c != hash && c !in before then before + [c] else before
  {
    assert candidates[..i + 1][..i] == candidates[..i];
  }

  lemma BoundReached(hash: string, candidates: seq<string>, n: nat)
    requires n <= |candidates| && |Lineage(hash, candidates[..n])| <= MAX_PRIOR_HASHES
    requires n == |candidates| || |Lineage(hash, candidates[..n])| == MAX_PRIOR_HASHES
    ensures Lineage(hash, candidates[..n]) == Take(MAX_PRIOR_HASHES, Lineage(hash, candidates))
  {
    LineagePrefix(hash, candidates, n);
    assert candidates[..|candidates|] == candidates;
  }

  /** The loop of `createCausalBlobRef` with its early break. */
  method CollectPriorHashes(hash: string, candidates: seq<string>) returns (prior: seq<string>)
    ensures prior == Take(MAX_PRIOR_HASHES, Lineage(hash, candidates))
  {
    prior := [];
    var i := 0;
    while i < |candidates|
      invariant 0 <= i <= |candidates|
      invariant prior == Lineage(hash, candidates[..i])
      invariant |prior| < MAX_PRIOR_HASHES
    {
      NextCandidate(hash, candidates, i);
      var candidate := candidates[i];
      i := i + 1;
      if !IsSha256Hex(candidate) || candidate == hash || candidate in prior {
        continue;
      }
      prior := prior + [candidate];
      if |prior| == MAX_PRIOR_HASHES {
        break;
      }
    }
    BoundReached(hash, candidates, i);
  }

  /** `createCausalBlobRef`. */
  method CreateCausalBlobRef(hash: string, size: nat, previous: Option<BlobRef>, inherited: seq<string>)
    returns (ref: BlobRef)
    ensures ref == CausalBlobRef(hash, size, previous, inherited)
  {
    var prior := CollectPriorHashes(hash, Candidates(previous, inherited));
    ref := if |prior| > 0 then BlobRef(hash, size, Some(prior)) else BlobRef(hash, size, None);
  }

  lemma MintedPriorHashes(hash: string, size: nat, previous: Option<BlobRef>, inherited: seq<string>)
    ensures PriorHashes(Some(CausalBlobRef(hash, size, previous, inherited)))
            == Take(MAX_PRIOR_HASHES, Lineage(hash, Candidates(previous, inherited)))
  {
    DedupOfDistinct(Take(MAX_PRIOR_HASHES, Lineage(hash, Candidates(previous, inherited))));
  }

  /** The content that is replaced, then what it had replaced itself. */
  function OwnChain(previous: Option<BlobRef>): seq<string> {
    match previous
    case None => []
    case Some(ref) => [ref.hash] + PriorHashes(previous)
  }

  lemma OwnChainIsFirst(previous: Option<BlobRef>, inherited: seq<string>)
    ensures Candidates(previous, inherited) == OwnChain(previous) + inherited
  {
  }

  /**
   * A minted ref has the hash and the size asked for. Its lineage begins with the
   * path's own chain and then takes the inherited hashes while there is room: it
   * lists nothing else, never its own hash, and all of them when it stays below 16.
   */
  lemma MintedLineage(hash: string, size: nat, previous: Option<BlobRef>, inherited: seq<string>)
    ensures var ref := CausalBlobRef(hash, size, previous, inherited);
            && ref.hash == hash && ref.size == size
            && Take(16, Lineage(hash, OwnChain(previous))) <= PriorHashes(Some(ref))
            && (forall h :: h in PriorHashes(Some(ref)) ==>
                  h != hash && IsSha256Hex(h) && (h in OwnChain(previous) || h in inherited))
            && (|PriorHashes(Some(ref))| < 16 ==>
                  forall h :: (h in OwnChain(previous) || h in inherited) && IsSha256Hex(h) && h != hash
                              ==> h in PriorHashes(Some(ref)))
            && (ref.priorHashes == None <==> PriorHashes(Some(ref)) == [])
  {
    MintedPriorHashes(hash, size, previous, inherited);
    OwnChainIsFirst(previous, inherited);
    ChainComesFirst(hash, OwnChain(previous), inherited);
    MintedIsWindow(hash, size, previous, inherited);
  }

  lemma ChainComesFirst(hash: string, chain: seq<string>, inherited: seq<string>)
    ensures Take(16, Lineage(hash, chain)) <= Take(16, Lineage(hash, chain + inherited))
    ensures forall h :: h in Take(16, Lineage(hash, chain + inherited)) ==>
              h != hash && IsSha256Hex(h) && (h in chain || h in inherited)
    ensures |Take(16, Lineage(hash, chain + inherited))| < 16 ==>
              forall h :: (h in chain || h in inherited) && IsSha256Hex(h) && h != hash
                          ==> h in Take(16, Lineage(hash, chain + inherited))
  {
    var all := chain + inherited;
    assert all[..|chain|] == chain;
    LineagePrefix(hash, all, |chain|);
    assert forall h :: h in Take(16, Lineage(hash, all)) ==> h in Lineage(hash, all);
  }

  lemma MintedIsWindow(hash: string, size: nat, previous: Option<BlobRef>, inherited: seq<string>)
    ensures var ref, window := CausalBlobRef(hash, size, previous, inherited),
                               Take(MAX_PRIOR_HASHES, Lineage(hash, Candidates(previous, inherited)));
            ref == BlobRef(hash, size, if window == [] then None else Some(window))
  {
  }

  // ---------------------------------------------------------------------------
  // Truncating at every publication loses nothing inside the window
  // ---------------------------------------------------------------------------

  /** One publication of new content for a path. */
  datatype Publication = Publication(hash: string, size: nat)

  /** The ref a path carries after a history of publications, oldest first. */
  function Published(history: seq<Publication>): Option<BlobRef> {
    if history == [] then None
    else
      var last := history[|history| - 1];
      Some(CausalBlobRef(last.hash, last.size, Published(history[..|history| - 1]), []))
  }

  /** The hashes of a history, newest first; no bound and no truncation. */
  function NewestFirst(history: seq<Publication>): seq<string> {
    if history == [] then []
    else [history[|history| - 1].hash] + NewestFirst(history[..|history| - 1])
  }

  lemma AddedCandidate(hash: string, candidates: seq<string>, c: string)
    requires IsSha256Hex(c) && c != hash && c !in candidates
    ensures Lineage(hash, candidates + [c]) == Lineage(hash, candidates) + [c]
  {
    assert (candidates + [c])[..|candidates|] == candidates;
  }

  lemma SkippedCandidate(hash: string, candidates: seq<string>, c: string)
    requires !IsSha256Hex(c) || c == hash || c in candidates
    ensures Lineage(hash, candidates + [c]) == Lineage(hash, candidates)
  {
    assert (candidates + [c])[..|candidates|] == candidates;
  }

  lemma {:induction false} LineageAbsorbsLineage(hash: string, x: string, rest: seq<string>)
    ensures Lineage(hash, [x] + Lineage(x, rest)) == Lineage(hash, [x] + rest)
    decreases |rest|
  {
    if rest != [] {
      var shorter, c := rest[..|rest| - 1], rest[|rest| - 1];
      LineageAbsorbsLineage(hash, x, shorter);
      assert rest == shorter + [c];
      Reassociate([x], shorter, c);
      if IsSha256Hex(c) && c != x && c !in shorter {
        AbsorbsNew(hash, x, shorter, c);
      } else {
        SkippedCandidate(x, shorter, c);
        SkippedCandidate(hash, [x] + shorter, c);
      }
    }
  }

  lemma Reassociate(xs: seq<string>, ys: seq<string>, c: string)
    ensures xs + (ys + [c]) == (xs + ys) + [c]
  {
  }

  lemma AbsorbsNew(hash: string, x: string, rest: seq<string>, c: string)
    requires Lineage(hash, [x] + Lineage(x, rest)) == Lineage(hash, [x] + rest)
    requires IsSha256Hex(c) && c != x && c !in rest
    ensures Lineage(hash, [x] + Lineage(x, rest + [c])) == Lineage(hash, ([x] + rest) + [c])
  {
    var inner := Lineage(x, rest);
    AddedCandidate(x, rest, c);
    Reassociate([x], inner, c);
    if c == hash {
      SkippedCandidate(hash, [x] + rest, c);
      SkippedCandidate(hash, [x] + inner, c);
    } else {
      AddedCandidate(hash, [x] + rest, c);
      AddedCandidate(hash, [x] + inner, c);
    }
  }

  /** Leaving `hash` out of distinct valid candidates drops at most one of them. */
  lemma {:induction false} LineageDropsAtMostOne(hash: string, candidates: seq<string>)
    requires Distinct(candidates)
    requires forall h :: h in candidates ==> IsSha256Hex(h)
    ensures |Lineage(hash, candidates)| >= |candidates| - (if hash in candidates then 1 else 0)
  {
    if candidates != [] {
      var shorter, c := candidates[..|candidates| - 1], candidates[|candidates| - 1];
      assert candidates == shorter + [c];
      LineageDropsAtMostOne(hash, shorter);
    }
  }

  lemma WindowSurvivesTruncation(hash: string, x: string, full: seq<string>)
    requires Distinct([x] + full)
    requires forall h :: h in [x] + full ==> IsSha256Hex(h)
    ensures Take(MAX_PRIOR_HASHES, Lineage(hash, [x] + Take(MAX_PRIOR_HASHES, full)))
            == Take(MAX_PRIOR_HASHES, Lineage(hash, [x] + full))
  {
    if |full| > MAX_PRIOR_HASHES {
      var cut := [x] + full[..MAX_PRIOR_HASHES];
      assert cut == ([x] + full)[..MAX_PRIOR_HASHES + 1];
      LineagePrefix(hash, [x] + full, MAX_PRIOR_HASHES + 1);
      LineageDropsAtMostOne(hash, cut);
    }
  }

  /**
   * The stored lineage is the window of the full one: for every history of
   * publications with valid hashes, the stored prior hashes are exactly the
   * first 16 of the newest-first, deduplicated earlier hashes other than the
   * current one.
   */
  lemma {:induction false} BoundedLineageRefinesFull(history: seq<Publication>)
    requires history != []
    requires forall p :: p in history ==> IsSha256Hex(p.hash)
    ensures Published(history).value.hash == history[|history| - 1].hash
    ensures PriorHashes(Published(history))
            == Take(MAX_PRIOR_HASHES,
                    Lineage(history[|history| - 1].hash, NewestFirst(history[..|history| - 1])))
    decreases |history|
  {
    var before, last := history[..|history| - 1], history[|history| - 1];
    MintedPriorHashes(last.hash, last.size, Published(before), []);
    if before == [] {
      assert Candidates(Published(before), []) == NewestFirst(before);
    } else {
      BoundedLineageRefinesFull(before);
      var n := |before| - 1;
      assert before[n] in history;
      NextWindow(last.hash, Published(before), before[n].hash, NewestFirst(before[..n]));
      assert NewestFirst(before) == [before[n].hash] + NewestFirst(before[..n]);
    }
  }

  /** One more publication: what the stored lineage drops is never missed in the next window. */
  lemma NextWindow(hash: string, previous: Option<BlobRef>, x: string, older: seq<string>)
    requires previous.Some? && previous.value.hash == x && IsSha256Hex(x)
    requires PriorHashes(previous) == Take(MAX_PRIOR_HASHES, Lineage(x, older))
    ensures Take(MAX_PRIOR_HASHES, Lineage(hash, Candidates(previous, [])))
            == Take(MAX_PRIOR_HASHES, Lineage(hash, [x] + older))
  {
    var full := Lineage(x, older);
    assert Candidates(previous, []) == [x] + Take(MAX_PRIOR_HASHES, full);
    LineageIsFresh(x, older);
    WindowSurvivesTruncation(hash, x, full);
    LineageAbsorbsLineage(hash, x, older);
  }

  lemma LineageIsFresh(x: string, older: seq<string>)
    requires IsSha256Hex(x)
    ensures Distinct([x] + Lineage(x, older)) && forall h :: h in [x] + Lineage(x, older) ==> IsSha256Hex(h)
  {
  }

  // ---------------------------------------------------------------------------
  // Identity of refs
  // ---------------------------------------------------------------------------

  predicate SameBlobRef(left: Option<BlobRef>, right: Option<BlobRef>) {
    if left.None? then right.None?
    else if right.None? || left.value.hash != right.value.hash || left.value.size != right.value.size then false
    else PriorHashes(left) == PriorHashes(right)
  }

  function CloneBlobRef(ref: Option<BlobRef>): Option<BlobRef> {
    if ref.None? then None
    else
      var prior := PriorHashes(ref);
      Some(BlobRef(ref.value.hash, ref.value.size, if |prior| > 0 then Some(prior) else None))
  }

  lemma SameBlobRefIsEquivalence(a: Option<BlobRef>, b: Option<BlobRef>, c: Option<BlobRef>)
    ensures SameBlobRef(a, a)
    ensures SameBlobRef(a, b) <==> SameBlobRef(b, a)
    ensures SameBlobRef(a, b) && SameBlobRef(b, c) ==> SameBlobRef(a, c)
  {
  }

  lemma ClonePriorHashes(a: Option<BlobRef>)
    ensures PriorHashes(CloneBlobRef(a)) == PriorHashes(a)
  {
    DedupOfDistinct(PriorHashes(a));
  }

  /** A clone is the same ref in normal form, so same refs have equal clones. */
  lemma CloneIsNormalForm(a: Option<BlobRef>, b: Option<BlobRef>)
    ensures SameBlobRef(CloneBlobRef(a), a)
    ensures CloneBlobRef(CloneBlobRef(a)) == CloneBlobRef(a)
    ensures SameBlobRef(a, b) <==> CloneBlobRef(a) == CloneBlobRef(b)
  {
    ClonePriorHashes(a);
    ClonePriorHashes(b);
  }

  // ---------------------------------------------------------------------------
  // Fingerprints: JSON.stringify([hash, size, priorHashes])
  // ---------------------------------------------------------------------------

  function Digit(d: nat): char
    requires d < 10
  {
    '0' + d as char
  }

  /** Decimal notation, as JSON prints a natural number. */
  function Decimal(n: nat): (s: string)
    ensures |s| > 0 && forall i :: 0 <= i < |s| ==> '0' <= s[i] <= '9'
  {
    if n < 10 then [Digit(n)] else Decimal(n / 10) + [Digit(n % 10)]
  }

  function DecimalValue(s: string): int {
    if s == [] then 0
    else DecimalValue(s[..|s| - 1]) * 10 + (s[|s| - 1] as int - '0' as int)
  }

  lemma {:induction false} DecimalRoundTrip(n: nat)
    ensures DecimalValue(Decimal(n)) == n
  {
    if n >= 10 {
      DecimalRoundTrip(n / 10);
      assert Decimal(n)[..|Decimal(n)| - 1] == Decimal(n / 10);
    }
  }

  /** Quoting needs no escapes for lowercase hex strings. */
  function Quoted(s: string): string {
    "\"" + s + "\""
  }

  function QuotedList(xs: seq<string>): string {
    if xs == [] then ""
    else if |xs| == 1 then Quoted(xs[0])
    else Quoted(xs[0]) + "," + QuotedList(xs[1..])
  }

  function BlobRefFingerprint(ref: Option<BlobRef>): string {
    if ref.Some?
    then "[" + (Quoted(ref.value.hash)
              + ("," + (Decimal(ref.value.size)
              + (",[" + (QuotedList(PriorHashes(ref)) + "]]")))))
    else "absent"
  }

  lemma CancelPrefix<T>(a: seq<T>, x: seq<T>, b: seq<T>, y: seq<T>)
    requires a + x == b + y && |a| == |b|
    ensures a == b && x == y
  {
    assert a == (a + x)[..|a|] == (b + y)[..|b|] == b;
    assert x == (a + x)[|a|..] == (b + y)[|b|..] == y;
  }

  /** A decimal number followed by a comma can be read back in one way only. */
  lemma CancelDecimal(a: nat, x: string, b: nat, y: string)
    requires |x| > 0 && x[0] == ','
    requires |y| > 0 && y[0] == ','
    requires Decimal(a) + x == Decimal(b) + y
    ensures a == b && x == y
  {
    var s, t := Decimal(a), Decimal(b);
    var both := s + x;
    assert both[|s|] == ',' && forall i :: 0 <= i < |s| ==> both[i] == s[i];
    assert both == t + y;
    assert both[|t|] == ',' && forall i :: 0 <= i < |t| ==> both[i] == t[i];
    assert |s| == |t|;
    CancelPrefix(s, x, t, y);
    DecimalRoundTrip(a);
    DecimalRoundTrip(b);
  }

  lemma QuotedInjective(s: string, t: string)
    requires Quoted(s) == Quoted(t)
    ensures s == t
  {
    assert s == Quoted(s)[1..|s| + 1] && t == Quoted(t)[1..|t| + 1];
  }

  lemma {:induction false} QuotedListInjective(xs: seq<string>, ys: seq<string>)
    requires forall h :: h in xs ==> |h| == 64
    requires forall h :: h in ys ==> |h| == 64
    requires QuotedList(xs) == QuotedList(ys)
    ensures xs == ys
    decreases |xs|
  {
    if xs == [] || ys == [] {
    } else if |xs| == 1 && |ys| == 1 {
      QuotedInjective(xs[0], ys[0]);
    } else if |xs| > 1 && |ys| > 1 {
      assert QuotedList(xs) == Quoted(xs[0]) + ("," + QuotedList(xs[1..]));
      assert QuotedList(ys) == Quoted(ys[0]) + ("," + QuotedList(ys[1..]));
      CancelPrefix(Quoted(xs[0]), "," + QuotedList(xs[1..]), Quoted(ys[0]), "," + QuotedList(ys[1..]));
      QuotedInjective(xs[0], ys[0]);
      CancelPrefix(",", QuotedList(xs[1..]), ",", QuotedList(ys[1..]));
      QuotedListInjective(xs[1..], ys[1..]);
      assert xs == [xs[0]] + xs[1..] && ys == [ys[0]] + ys[1..];
    }
  }

  lemma FingerprintDeterminesRef(a: BlobRef, b: BlobRef)
    requires IsSha256Hex(a.hash) && IsSha256Hex(b.hash)
    requires BlobRefFingerprint(Some(a)) == BlobRefFingerprint(Some(b))
    ensures a.hash == b.hash && a.size == b.size && PriorHashes(Some(a)) == PriorHashes(Some(b))
  {
    var la, lb := QuotedList(PriorHashes(Some(a))), QuotedList(PriorHashes(Some(b)));
    var ta, tb := ",[" + (la + "]]"), ",[" + (lb + "]]");
    var da, db := Decimal(a.size) + ta, Decimal(b.size) + tb;
    CancelPrefix("[", Quoted(a.hash) + ("," + da), "[", Quoted(b.hash) + ("," + db));
    CancelPrefix(Quoted(a.hash), "," + da, Quoted(b.hash), "," + db);
    QuotedInjective(a.hash, b.hash);
    CancelPrefix(",", da, ",", db);
    CancelDecimal(a.size, ta, b.size, tb);
    CancelPrefix(",[", la + "]]", ",[", lb + "]]");
    CancelPrefix(la, "]]", lb, "]]");
    QuotedListInjective(PriorHashes(Some(a)), PriorHashes(Some(b)));
  }

  /** Two refs have equal fingerprints exactly when they are the same ref. */
  lemma FingerprintIdentifiesRef(a: Option<BlobRef>, b: Option<BlobRef>)
    requires a.Some? ==> IsSha256Hex(a.value.hash)
    requires b.Some? ==> IsSha256Hex(b.value.hash)
    ensures BlobRefFingerprint(a) == BlobRefFingerprint(b) <==> SameBlobRef(a, b)
  {
    if a.Some? && b.Some? {
      if BlobRefFingerprint(a) == BlobRefFingerprint(b) {
        FingerprintDeterminesRef(a.value, b.value);
      }
    } else if a.Some? {
      assert BlobRefFingerprint(a)[0] == '[';
    } else if b.Some? {
      assert BlobRefFingerprint(b)[0] == '[';
    }
  }
}
