/**
 * The bounded parallel map (server/src/concurrency.ts:10-34): a few workers share
 * one index counter and write into one results array. A step is the code one
 * worker runs between two awaits; the scheduler picks the worker.
 */
module ParallelMap {
  import opened Wrappers

  datatype Worker = Looping | Calling(index: nat) | Finished | Threw

  /** `claimed` is history: the indices handed out, in order. */
  datatype Run<R> = Run(size: nat, next: nat, workers: seq<Worker>, results: seq<Option<R>>, claimed: seq<nat>)

  function Limit(limit: int, size: nat): nat {
    if limit < 1 || size == 0 then 1 else if limit < size then limit else size
  }

  function Start<R>(limit: int, size: nat): Run<R> {
    Run(size, 0, if size == 0 then [] else seq(Limit(limit, size), _ => Looping), seq(size, _ => None), [])
  }

  /** A worker takes the next index, or finds none left. */
  function Claim<R>(s: Run<R>, w: nat): Run<R>
    requires w < |s.workers| && s.workers[w].Looping?
  {
    if s.next >= s.size then s.(next := s.next + 1, workers := s.workers[w := Finished])
    else s.(next := s.next + 1, workers := s.workers[w := Calling(s.next)], claimed := s.claimed + [s.next])
  }

  function Return<R>(s: Run<R>, w: nat, value: R): Run<R>
    requires w < |s.workers| && s.workers[w].Calling? && s.workers[w].index < |s.results|
  {
    s.(results := s.results[s.workers[w].index := Some(value)], workers := s.workers[w := Looping])
  }

  /** A rejected call ends its worker, and with it the whole map's promise; the others go on. */
  function Reject<R>(s: Run<R>, w: nat): Run<R>
    requires w < |s.workers| && s.workers[w].Calling?
  {
    s.(workers := s.workers[w := Threw])
  }

  datatype Event<R> = Claims(w: nat) | Returns(w: nat, value: R) | Rejects(w: nat)

  /** A call of index `i` answers `answer(i)`, which stands for `worker(items[i], i)`. */
  predicate Enabled<R(==)>(s: Run<R>, e: Event<R>, answer: nat -> R) {
    match e
    case Claims(w) => w < |s.workers| && s.workers[w].Looping?
    case Returns(w, value) =>
      w < |s.workers| && s.workers[w].Calling? && s.workers[w].index < |s.results| && value == answer(s.workers[w].index)
    case Rejects(w) => w < |s.workers| && s.workers[w].Calling?
  }

  function Step<R(==)>(s: Run<R>, e: Event<R>, answer: nat -> R): Run<R>
    requires Enabled(s, e, answer)
  {
    match e
    case Claims(w) => Claim(s, w)
    case Returns(w, value) => Return(s, w, value)
    case Rejects(w) => Reject(s, w)
  }

  predicate IsRun<R(==)>(s: Run<R>, es: seq<Event<R>>, t: Run<R>, answer: nat -> R)
    decreases |es|
  {
    if es == [] then s == t else Enabled(s, es[0], answer) && IsRun(Step(s, es[0], answer), es[1..], t, answer)
  }

  // ---------------------------------------------------------------------------
  // Invariant
  // ---------------------------------------------------------------------------

  function Claimed(next: nat, size: nat): nat {
    if next < size then next else size
  }

  predicate IsCalling<R>(s: Run<R>, i: nat) {
    exists w :: 0 <= w < |s.workers| && s.workers[w] == Calling(i)
  }

  ghost predicate Inv<R>(s: Run<R>, answer: nat -> R) {
    && |s.results| == s.size
    && s.claimed == seq(Claimed(s.next, s.size), i => i)
    && (forall w :: 0 <= w < |s.workers| && s.workers[w].Calling? ==> s.workers[w].index < Claimed(s.next, s.size))
    && (forall v, w :: 0 <= v < w < |s.workers| && s.workers[v].Calling? && s.workers[w].Calling? ==>
          s.workers[v].index != s.workers[w].index)
    && (forall i :: 0 <= i < s.size ==> s.results[i] == None || s.results[i] == Some(answer(i)))
    && (forall i :: 0 <= i < s.size && s.results[i].Some? ==> i < Claimed(s.next, s.size) && !IsCalling(s, i))
    && (forall i :: 0 <= i < Claimed(s.next, s.size) && s.results[i].None? ==> IsCalling(s, i) || HasThrown(s))
    && ((exists w :: 0 <= w < |s.workers| && s.workers[w].Finished?) ==> s.next >= s.size)
  }

  predicate HasThrown<R>(s: Run<R>) {
    exists w :: 0 <= w < |s.workers| && s.workers[w].Threw?
  }

  lemma StartInv<R>(limit: int, size: nat, answer: nat -> R)
    ensures Inv(Start<R>(limit, size), answer)
  {
  }

  lemma ClaimKeepsInv<R>(s: Run<R>, w: nat, answer: nat -> R)
    requires Inv(s, answer) && w < |s.workers| && s.workers[w].Looping?
    ensures Inv(Claim(s, w), answer)
  {
    var t := Claim(s, w);
    forall v, i | 0 <= v < |s.workers| && s.workers[v] == Calling(i)
      ensures t.workers[v] == Calling(i)
    {
    }
    if HasThrown(s) {
      var v :| 0 <= v < |s.workers| && s.workers[v].Threw?;
      assert t.workers[v].Threw?;
    }
    if s.next < s.size {
      assert t.workers[w] == Calling(s.next);
      assert IsCalling(t, s.next);
    }
    forall v, i | 0 <= v < |t.workers| && t.workers[v] == Calling(i)
      ensures i == s.next || IsCalling(s, i)
    {
      assert v != w ==> s.workers[v] == Calling(i);
    }
    forall i | 0 <= i < Claimed(s.next, s.size) && s.results[i].None? && IsCalling(s, i)
      ensures IsCalling(t, i)
    {
      var v :| 0 <= v < |s.workers| && s.workers[v] == Calling(i);
      assert t.workers[v] == Calling(i);
    }
  }

  lemma ReturnKeepsInv<R>(s: Run<R>, w: nat, value: R, answer: nat -> R)
    requires Inv(s, answer) && w < |s.workers| && s.workers[w].Calling? && value == answer(s.workers[w].index)
    ensures Inv(Return(s, w, value), answer)
  {
    var t := Return(s, w, value);
    if HasThrown(s) {
      var v :| 0 <= v < |s.workers| && s.workers[v].Threw?;
      assert t.workers[v].Threw?;
    }
    forall v, i | 0 <= v < |t.workers| && t.workers[v] == Calling(i)
      ensures i != s.workers[w].index && IsCalling(s, i)
    {
      assert s.workers[v] == Calling(i);
    }
    forall i | 0 <= i < Claimed(s.next, s.size) && t.results[i].None? && IsCalling(s, i)
      ensures IsCalling(t, i)
    {
      var v :| 0 <= v < |s.workers| && s.workers[v] == Calling(i);
      assert t.workers[v] == Calling(i);
    }
  }

  lemma RejectKeepsInv<R>(s: Run<R>, w: nat, answer: nat -> R)
    requires Inv(s, answer) && w < |s.workers| && s.workers[w].Calling?
    ensures Inv(Reject(s, w), answer)
  {
    var t := Reject(s, w);
    assert t.workers[w].Threw?;
    forall v, i | 0 <= v < |t.workers| && t.workers[v] == Calling(i)
      ensures IsCalling(s, i)
    {
      assert s.workers[v] == Calling(i);
    }
  }

  lemma {:induction false} RunKeepsInv<R>(s: Run<R>, es: seq<Event<R>>, t: Run<R>, answer: nat -> R)
    requires Inv(s, answer) && IsRun(s, es, t, answer)
    ensures Inv(t, answer) && t.size == s.size && |t.workers| == |s.workers|
    decreases |es|
  {
    if es != [] {
      match es[0] {
        case Claims(w) => ClaimKeepsInv(s, w, answer);
        case Returns(w, value) => ReturnKeepsInv(s, w, value, answer);
        case Rejects(w) => RejectKeepsInv(s, w, answer);
      }
      RunKeepsInv(Step(s, es[0], answer), es[1..], t, answer);
    }
  }

  // ---------------------------------------------------------------------------
  // Theorems
  // ---------------------------------------------------------------------------

  function Calls<R>(s: Run<R>): set<nat> {
    set w | 0 <= w < |s.workers| && s.workers[w].Calling?
  }

  lemma RangeSize(ws: set<nat>, n: nat)
    requires forall w :: w in ws ==> w < n
    ensures |ws| <= n
  {
    if n == 0 {
      assert ws == {};
    } else {
      RangeSize(ws - {n - 1}, n - 1);
    }
  }

  /** In every interleaving each index is handed out exactly once and in order, and the bound on calls holds. */
  lemma EachIndexIsClaimedOnce<R>(limit: int, size: nat, es: seq<Event<R>>, t: Run<R>, answer: nat -> R)
    requires IsRun(Start(limit, size), es, t, answer)
    ensures forall i, k :: 0 <= i < k < |t.claimed| ==> t.claimed[i] < t.claimed[k] < size
    ensures |Calls(t)| <= Limit(limit, size)
    ensures limit >= 1 && size > 0 ==> |Calls(t)| <= limit && |Calls(t)| <= size
  {
    StartInv(limit, size, answer);
    RunKeepsInv(Start(limit, size), es, t, answer);
    RangeSize(Calls(t), |t.workers|);
  }

  predicate IsOver<R>(s: Run<R>) {
    forall w :: 0 <= w < |s.workers| ==> s.workers[w].Finished? || s.workers[w].Threw?
  }

  /** When no call rejected and every worker is done, each result is the answer of its own call. */
  lemma ResultsMatchTheirItems<R>(limit: int, size: nat, es: seq<Event<R>>, t: Run<R>, answer: nat -> R)
    requires IsRun(Start(limit, size), es, t, answer) && IsOver(t) && !HasThrown(t)
    ensures t.results == seq(size, i requires 0 <= i < size => Some(answer(i)))
    ensures t.claimed == seq(size, i => i)
  {
    StartInv(limit, size, answer);
    RunKeepsInv(Start(limit, size), es, t, answer);
    if size > 0 {
      assert t.workers[0].Finished?;
      assert forall i :: 0 <= i < size ==> !IsCalling(t, i);
    }
  }

  function Weight(w: Worker): nat {
    match w
    case Looping => 1
    case Calling(_) => 2
    case _ => 0
  }

  function Weights(ws: seq<Worker>): nat {
    if ws == [] then 0 else Weight(ws[0]) + Weights(ws[1..])
  }

  lemma {:induction false} ChangedWeight(ws: seq<Worker>, w: nat, x: Worker)
    requires w < |ws|
    ensures Weights(ws[w := x]) + Weight(ws[w]) == Weights(ws) + Weight(x)
  {
    if w > 0 {
      ChangedWeight(ws[1..], w - 1, x);
      assert ws[w := x][1..] == ws[1..][w - 1 := x];
    } else {
      assert ws[0 := x][1..] == ws[1..];
    }
  }

  function Remaining<R>(s: Run<R>): nat {
    (if s.next < s.size then 3 * (s.size - s.next) else 0) + Weights(s.workers)
  }

  lemma {:induction false} StepsRemain<R>(s: Run<R>, es: seq<Event<R>>, t: Run<R>, answer: nat -> R)
    requires IsRun(s, es, t, answer)
    ensures |es| + Remaining(t) <= Remaining(s)
    decreases |es|
  {
    if es != [] {
      var w := es[0].w;
      ChangedWeight(s.workers, w, Step(s, es[0], answer).workers[w]);
      StepsRemain(Step(s, es[0], answer), es[1..], t, answer);
    }
  }

  lemma {:induction false} LoopingWeights(n: nat)
    ensures Weights(seq(n, _ => Looping)) == n
  {
    if n > 0 {
      LoopingWeights(n - 1);
      assert seq(n, _ => Looping)[1..] == seq(n - 1, _ => Looping);
    }
  }

  /** Every run ends: it has at most `3 * size + limit` steps, and it can only stop when every worker is done. */
  lemma EveryRunEnds<R>(limit: int, size: nat, es: seq<Event<R>>, t: Run<R>, answer: nat -> R)
    requires IsRun(Start(limit, size), es, t, answer)
    ensures |es| <= 3 * size + Limit(limit, size)
    ensures !IsOver(t) ==> exists e :: Enabled(t, e, answer)
  {
    StepsRemain(Start(limit, size), es, t, answer);
    LoopingWeights(Limit(limit, size));
    StartInv(limit, size, answer);
    RunKeepsInv(Start(limit, size), es, t, answer);
    if !IsOver(t) {
      var w :| 0 <= w < |t.workers| && !t.workers[w].Finished? && !t.workers[w].Threw?;
      if t.workers[w].Looping? {
        assert Enabled(t, Claims(w), answer);
      } else {
        assert Enabled(t, Returns(w, answer(t.workers[w].index)), answer);
      }
    }
  }

  lemma OneCallStarts<R>(limit: int, size: nat, answer: nat -> R)
    requires size > 0
    ensures var t := Claim(Start<R>(limit, size), 0);
            IsRun(Start(limit, size), [Claims(0)], t, answer) && Calls(t) == {0}
  {
  }

  ghost predicate NeverExceeds<R(!new)>(limit: int, size: nat, answer: nat -> R) {
    forall es, t :: IsRun(Start<R>(limit, size), es, t, answer) ==> |Calls(t)| <= limit
  }

  /** The caller's own limit bounds the calls in flight exactly when it is positive: below one, one worker still runs. */
  lemma LimitIsRespectedIff<R(!new)>(limit: int, size: nat, answer: nat -> R)
    requires size > 0
    ensures NeverExceeds(limit, size, answer) <==> limit >= 1
  {
    if limit >= 1 {
      forall es, t | IsRun(Start<R>(limit, size), es, t, answer)
        ensures |Calls(t)| <= limit
      {
        EachIndexIsClaimedOnce(limit, size, es, t, answer);
      }
    } else {
      OneCallStarts(limit, size, answer);
      assert |{0 as nat}| == 1;
    }
  }

  lemma {:induction false} RunAppends<R>(s: Run<R>, es: seq<Event<R>>, t: Run<R>, e: Event<R>, answer: nat -> R)
    requires IsRun(s, es, t, answer) && Enabled(t, e, answer)
    ensures IsRun(s, es + [e], Step(t, e, answer), answer)
    decreases |es|
  {
    if es == [] {
      assert [e][1..] == [] && es + [e] == [e];
    } else {
      RunAppends(Step(s, es[0], answer), es[1..], t, e, answer);
      assert (es + [e])[1..] == es[1..] + [e];
    }
  }

  /** The first `n` workers have claimed, and none has returned. */
  function AllCalling<R>(limit: int, size: nat, n: nat): Run<R>
    requires n <= Limit(limit, size) && size > 0
  {
    Run(size, n, seq(Limit(limit, size), w requires 0 <= w => if w < n then Calling(w) else Looping),
        seq(size, _ => None), seq(n, i => i))
  }

  lemma ClaimStarts<R>(limit: int, size: nat, n: nat)
    requires n < Limit(limit, size) && size > 0
    ensures Claim(AllCalling<R>(limit, size, n), n) == AllCalling(limit, size, n + 1)
  {
    assert Limit(limit, size) <= size;
    var t := Claim(AllCalling<R>(limit, size, n), n);
    assert t.workers == AllCalling<R>(limit, size, n + 1).workers;
    assert t.claimed == AllCalling<R>(limit, size, n + 1).claimed;
  }

  lemma {:induction false} ClaimsReach<R>(limit: int, size: nat, n: nat, answer: nat -> R) returns (es: seq<Event<R>>)
    requires n <= Limit(limit, size) && size > 0
    ensures IsRun(Start(limit, size), es, AllCalling(limit, size, n), answer)
  {
    es := [];
    if n == 0 {
      assert AllCalling<R>(limit, size, 0).workers == Start<R>(limit, size).workers;
    } else {
      var before := ClaimsReach(limit, size, n - 1, answer);
      ClaimStarts<R>(limit, size, n - 1);
      RunAppends(Start(limit, size), before, AllCalling(limit, size, n - 1), Claims(n - 1), answer);
      es := before + [Claims(n - 1)];
    }
  }

  function FirstNumbers(n: nat): (r: set<nat>)
    ensures |r| == n && forall w :: w in r <==> 0 <= w < n
  {
    if n == 0 then {} else FirstNumbers(n - 1) + {n - 1}
  }

  /** The map is as parallel as the caller allows: as many calls as the limit and the items permit can be in flight at once. */
  lemma LimitIsReached<R(!new)>(limit: int, size: nat, answer: nat -> R)
    requires size > 0
    ensures exists es, t :: IsRun(Start<R>(limit, size), es, t, answer)
                            && |Calls(t)| == if limit < 1 then 1 else if limit < size then limit else size
  {
    var n := Limit(limit, size);
    var es := ClaimsReach(limit, size, n, answer);
    var t := AllCalling<R>(limit, size, n);
    assert Calls(t) == FirstNumbers(n);
    assert IsRun(Start(limit, size), es, t, answer);
  }

  // ---------------------------------------------------------------------------
  // The shared state, updated in place
  // ---------------------------------------------------------------------------

  class SharedMap<R(0)> {
    const results: array<Option<R>>
    const workers: array<Worker>
    var next: nat
    ghost var claimed: seq<nat>

    ghost function View(): Run<R>
      reads this, results, workers
    {
      Run(results.Length, next, workers[..], results[..], claimed)
    }

    constructor (limit: int, size: nat)
      requires size > 0
      ensures View() == Start(limit, size)
      ensures fresh(results) && fresh(workers)
    {
      results := new Option<R>[size](_ => None);
      workers := new Worker[Limit(limit, size)](_ => Looping);
      next, claimed := 0, [];
      new;
      assert results[..] == seq(size, _ => None);
      assert workers[..] == seq(Limit(limit, size), _ => Looping);
    }

    /** `const index = nextIndex++` and the end of the loop, or the start of the call. */
    method DoClaim(w: nat, ghost answer: nat -> R) returns (index: Option<nat>)
      requires w < workers.Length && workers[w].Looping? && Inv(View(), answer)
      modifies this, workers
      ensures View() == Claim(old(View()), w) && Inv(View(), answer)
      ensures index == if old(next) < results.Length then Some(old(next)) else None
    {
      ClaimKeepsInv(View(), w, answer);
      var mine := next;
      next := next + 1;
      if mine >= results.Length {
        workers[w] := Finished;
        return None;
      }
      workers[w] := Calling(mine);
      claimed := claimed + [mine];
      return Some(mine);
    }

    /** `results[index] = await worker(...)`. */
    method DoReturn(w: nat, value: R, ghost answer: nat -> R)
      requires w < workers.Length && workers[w].Calling? && Inv(View(), answer) && value == answer(workers[w].index)
      modifies workers, results
      ensures View() == Return(old(View()), w, value) && Inv(View(), answer)
    {
      ReturnKeepsInv(View(), w, value, answer);
      assert View().workers[w] == workers[w];
      results[workers[w].index] := Some(value);
      workers[w] := Looping;
    }
  }
}
