/**
 * The server's two asynchronous runners (server/src/asyncConcurrency.ts): calls
 * that queue behind one another, and calls that join a flight in progress. A step
 * is what the event loop runs before it turns to something else.
 */
module AsyncRunners {
  import opened Wrappers

  datatype Outcome = Success(value: int) | Failure(error: int)

  // ---------------------------------------------------------------------------
  // runSerialized
  // ---------------------------------------------------------------------------

  /** The task of a call: its `run` promise, and whether the link it left in the chain has fulfilled. */
  datatype Task = Waiting | Running | Settled(outcome: Outcome, linked: bool)

  /** `behind` is the link the call found in `state.chain`. */
  datatype Call = Call(behind: Option<nat>, task: Task)

  /** `chain` is the call whose link `state.chain` is; `None` is the resolved promise it starts with. */
  datatype Serial = Serial(chain: Option<nat>, calls: seq<Call>, started: seq<nat>)

  const IDLE := Serial(None, [], [])

  predicate IsFree(s: Serial, link: Option<nat>) {
    link.Some? ==> link.value < |s.calls| && s.calls[link.value].task.Settled? && s.calls[link.value].task.linked
  }

  /** `run = chain.then(task)` and `chain = run.then(ignore, ignore)`. */
  function Enqueue(s: Serial): Serial {
    s.(calls := s.calls + [Call(s.chain, Waiting)], chain := Some(|s.calls|))
  }

  function SetTask(s: Serial, k: nat, task: Task): Serial
    requires k < |s.calls|
  {
    s.(calls := s.calls[k := s.calls[k].(task := task)])
  }

  datatype SerialEvent = Calls | Starts(k: nat) | Settles(k: nat) | Links(k: nat)

  predicate SerialEnabled(s: Serial, e: SerialEvent) {
    match e
    case Calls => true
    case Starts(k) => k < |s.calls| && s.calls[k].task.Waiting? && IsFree(s, s.calls[k].behind)
    case Settles(k) => k < |s.calls| && s.calls[k].task.Running?
    case Links(k) => k < |s.calls| && s.calls[k].task.Settled? && !s.calls[k].task.linked
  }

  /** `answer(k)` is how the task of the k-th call ends; it may fail. */
  function SerialStep(s: Serial, e: SerialEvent, answer: nat -> Outcome): Serial
    requires SerialEnabled(s, e)
  {
    match e
    case Calls => Enqueue(s)
    case Starts(k) => SetTask(s, k, Running).(started := s.started + [k])
    case Settles(k) => SetTask(s, k, Settled(answer(k), false))
    case Links(k) => SetTask(s, k, Settled(s.calls[k].task.outcome, true))
  }

  predicate IsSerialRun(s: Serial, es: seq<SerialEvent>, t: Serial, answer: nat -> Outcome)
    decreases |es|
  {
    if es == [] then s == t
    else SerialEnabled(s, es[0]) && IsSerialRun(SerialStep(s, es[0], answer), es[1..], t, answer)
  }

  predicate IsLinked(c: Call) {
    c.task.Settled? && c.task.linked
  }

  ghost predicate SerialInv(s: Serial, answer: nat -> Outcome) {
    && s.chain == (if s.calls == [] then None else Some(|s.calls| - 1))
    && (forall k :: 0 <= k < |s.calls| ==> s.calls[k].behind == if k == 0 then None else Some(k - 1))
    && |s.started| <= |s.calls|
    && s.started == seq(|s.started|, k => k)
    && (forall k :: |s.started| <= k < |s.calls| ==> s.calls[k].task.Waiting?)
    && (forall k :: 0 <= k < |s.started| ==> !s.calls[k].task.Waiting?)
    && (forall k :: 0 <= k < |s.started| - 1 ==> IsLinked(s.calls[k]))
    && (forall k :: 0 <= k < |s.calls| && s.calls[k].task.Settled? ==> s.calls[k].task.outcome == answer(k))
  }

  lemma SerialStepKeepsInv(s: Serial, e: SerialEvent, answer: nat -> Outcome)
    requires SerialInv(s, answer) && SerialEnabled(s, e)
    ensures SerialInv(SerialStep(s, e, answer), answer)
  {
  }

  lemma {:induction false} SerialRunKeepsInv(s: Serial, es: seq<SerialEvent>, t: Serial, answer: nat -> Outcome)
    requires SerialInv(s, answer) && IsSerialRun(s, es, t, answer)
    ensures SerialInv(t, answer)
    decreases |es|
  {
    if es != [] {
      SerialStepKeepsInv(s, es[0], answer);
      SerialRunKeepsInv(SerialStep(s, es[0], answer), es[1..], t, answer);
    }
  }

  /**
   * For every sequence of calls and any failures: at most one task runs, tasks
   * start in call order, and each caller gets the outcome of its own task.
   */
  lemma SerializedTasksNeverOverlap(es: seq<SerialEvent>, t: Serial, answer: nat -> Outcome)
    requires IsSerialRun(IDLE, es, t, answer)
    ensures forall j, k :: 0 <= j < k < |t.calls| ==> !(t.calls[j].task.Running? && t.calls[k].task.Running?)
    ensures t.started == seq(|t.started|, k => k)
    ensures forall k :: 0 <= k < |t.calls| && t.calls[k].task.Settled? ==> t.calls[k].task.outcome == answer(k)
  {
    SerialRunKeepsInv(IDLE, es, t, answer);
  }

  /** A failed task blocks nobody: while any call is unsettled, a task is running or the event loop can advance. */
  lemma SerializedCallsNeverStall(es: seq<SerialEvent>, t: Serial, answer: nat -> Outcome, k: nat)
    requires IsSerialRun(IDLE, es, t, answer) && k < |t.calls| && !t.calls[k].task.Settled?
    ensures exists e: SerialEvent :: !e.Calls? && SerialEnabled(t, e)
  {
    SerialRunKeepsInv(IDLE, es, t, answer);
    var n := |t.started|;
    if n > 0 && t.calls[n - 1].task.Running? {
      assert SerialEnabled(t, Settles(n - 1));
    } else if n > 0 && !t.calls[n - 1].task.linked {
      assert SerialEnabled(t, Links(n - 1));
    } else {
      assert n <= k;
      assert SerialEnabled(t, Starts(n));
    }
  }

  class SerializedState {
    var chain: Option<nat>
    var calls: seq<Call>
    ghost var started: seq<nat>

    ghost function View(): Serial
      reads this
    {
      Serial(chain, calls, started)
    }

    constructor ()
      ensures View() == IDLE
    {
      chain, calls, started := None, [], [];
    }

    /** The synchronous part of `runSerialized`: only the chain decides when the task may start. */
    method Run(ghost answer: nat -> Outcome) returns (k: nat)
      requires SerialInv(View(), answer)
      modifies this
      ensures View() == Enqueue(old(View())) && SerialInv(View(), answer)
      ensures k == |old(calls)| && chain == Some(k)
    {
      SerialStepKeepsInv(View(), Calls, answer);
      k := |calls|;
      calls := calls + [Call(chain, Waiting)];
      chain := Some(k);
    }
  }

  // ---------------------------------------------------------------------------
  // runSingleFlight
  // ---------------------------------------------------------------------------

  /** `Prefix` is the synchronous beginning of a task, before `state.inFlight` is assigned. */
  datatype Flight = Prefix | Flying | Landed(outcome: Outcome, cleared: bool)

  datatype Caller = Caller(flight: nat, started: bool, got: Option<Outcome>)

  /** `slot` is `state.inFlight`; `stack` lists the flights whose synchronous prefix is on the call stack. */
  datatype Single = Single(slot: Option<nat>, flights: seq<Flight>, callers: seq<Caller>, stack: seq<nat>)

  const GROUNDED := Single(None, [], [], [])

  datatype SingleEvent = Enters | LeavesPrefix | Lands(f: nat) | Clears(f: nat) | Hears(c: nat)

  predicate HasLanded(s: Single, f: nat) {
    f < |s.flights| && s.flights[f].Landed?
  }

  /** While a prefix is on the stack nothing else runs but the prefix itself. */
  predicate SingleEnabled(s: Single, e: SingleEvent) {
    match e
    case Enters => true
    case LeavesPrefix => s.stack != [] && s.stack[|s.stack| - 1] < |s.flights|
    case Lands(f) => s.stack == [] && f < |s.flights| && s.flights[f].Flying?
    case Clears(f) => s.stack == [] && HasLanded(s, f) && !s.flights[f].cleared
    case Hears(c) =>
      && s.stack == [] && c < |s.callers| && s.callers[c].got.None? && HasLanded(s, s.callers[c].flight)
      && (s.callers[c].started ==> s.flights[s.callers[c].flight].cleared)
  }

  /** `answer(f)` is how the f-th task ends. */
  function SingleStep(s: Single, e: SingleEvent, answer: nat -> Outcome): Single
    requires SingleEnabled(s, e)
  {
    match e
    case Enters =>
      if s.slot.Some? then s.(callers := s.callers + [Caller(s.slot.value, false, None)])
      else s.(flights := s.flights + [Prefix], callers := s.callers + [Caller(|s.flights|, true, None)],
              stack := s.stack + [|s.flights|])
    case LeavesPrefix =>
      var f := s.stack[|s.stack| - 1];
      s.(slot := Some(f), flights := s.flights[f := Flying], stack := s.stack[..|s.stack| - 1])
    case Lands(f) => s.(flights := s.flights[f := Landed(answer(f), false)])
    case Clears(f) => s.(slot := None, flights := s.flights[f := Landed(s.flights[f].outcome, true)])
    case Hears(c) => s.(callers := s.callers[c := s.callers[c].(got := Some(s.flights[s.callers[c].flight].outcome))])
  }

  predicate IsSingleRun(s: Single, es: seq<SingleEvent>, t: Single, answer: nat -> Outcome)
    decreases |es|
  {
    if es == [] then s == t
    else SingleEnabled(s, es[0]) && IsSingleRun(SingleStep(s, es[0], answer), es[1..], t, answer)
  }

  /** No task calls the runner again before its first await. */
  predicate NeverReenters(s: Single, es: seq<SingleEvent>, answer: nat -> Outcome)
    decreases |es|
  {
    if es == [] then true
    else
      && (es[0].Enters? ==> s.stack == [])
      && (SingleEnabled(s, es[0]) ==> NeverReenters(SingleStep(s, es[0], answer), es[1..], answer))
  }

  predicate IsUnderWay(f: Flight) {
    f.Prefix? || f.Flying?
  }

  ghost predicate SingleInv(s: Single, answer: nat -> Outcome) {
    && |s.stack| <= 1
    && (s.stack != [] ==> s.slot == None && s.stack[0] < |s.flights| && s.flights[s.stack[0]].Prefix?)
    && (s.slot.Some? ==> s.slot.value < |s.flights| && !s.flights[s.slot.value].Prefix?
                         && (s.flights[s.slot.value].Landed? ==> !s.flights[s.slot.value].cleared))
    && (forall f :: 0 <= f < |s.flights| && s.slot != Some(f) && (s.stack == [] || s.stack[0] != f) ==>
          s.flights[f].Landed? && s.flights[f].cleared)
    && (forall f :: 0 <= f < |s.flights| && s.flights[f].Landed? ==> s.flights[f].outcome == answer(f))
    && (forall c :: 0 <= c < |s.callers| ==>
          && s.callers[c].flight < |s.flights|
          && (s.callers[c].got.Some? ==>
                s.flights[s.callers[c].flight].Landed? && s.callers[c].got == Some(answer(s.callers[c].flight))))
  }

  lemma SingleStepKeepsInv(s: Single, e: SingleEvent, answer: nat -> Outcome)
    requires SingleInv(s, answer) && SingleEnabled(s, e) && (e.Enters? ==> s.stack == [])
    ensures SingleInv(SingleStep(s, e, answer), answer)
  {
  }

  lemma {:induction false} SingleRunKeepsInv(s: Single, es: seq<SingleEvent>, t: Single, answer: nat -> Outcome)
    requires SingleInv(s, answer) && IsSingleRun(s, es, t, answer) && NeverReenters(s, es, answer)
    ensures SingleInv(t, answer)
    decreases |es|
  {
    if es != [] {
      SingleStepKeepsInv(s, es[0], answer);
      SingleRunKeepsInv(SingleStep(s, es[0], answer), es[1..], t, answer);
    }
  }

  predicate TasksOverlap(s: Single) {
    exists f, g :: 0 <= f < g < |s.flights| && IsUnderWay(s.flights[f]) && IsUnderWay(s.flights[g])
  }

  /**
   * Without re-entrance no two tasks overlap in any interleaving, each caller gets
   * the outcome of the flight it joined or started, and once every landed flight
   * has run its `finally` the slot is empty, after a failure as after a success.
   */
  lemma SingleFlightsNeverOverlap(es: seq<SingleEvent>, t: Single, answer: nat -> Outcome)
    requires IsSingleRun(GROUNDED, es, t, answer) && NeverReenters(GROUNDED, es, answer)
    ensures !TasksOverlap(t)
    ensures forall c :: 0 <= c < |t.callers| && t.callers[c].got.Some? ==>
              && t.callers[c].flight < |t.flights| && t.flights[t.callers[c].flight].Landed?
              && t.callers[c].got == Some(t.flights[t.callers[c].flight].outcome)
    ensures (forall f :: 0 <= f < |t.flights| ==> t.flights[f].Landed? && t.flights[f].cleared) ==> t.slot == None
  {
    SingleRunKeepsInv(GROUNDED, es, t, answer);
  }

  /**
   * A call joins the flight in the slot without starting a task, and starts exactly
   * one task of its own when the slot is empty.
   */
  lemma EnteringJoinsIff(s: Single, answer: nat -> Outcome)
    ensures var t, n := SingleStep(s, Enters, answer), |s.callers|;
            && |t.callers| == n + 1 && t.callers[..n] == s.callers && t.slot == s.slot && t.callers[n].got == None
            && (if s.slot.Some? then
                  t.flights == s.flights && t.stack == s.stack && t.callers[n].flight == s.slot.value && !t.callers[n].started
                else
                  && |t.flights| == |s.flights| + 1 && t.flights[..|s.flights|] == s.flights && t.flights[|s.flights|] == Prefix
                  && t.callers[n].flight == |s.flights| && t.callers[n].started && t.stack == s.stack + [|s.flights|])
  {
  }

  /** No caller waits for good: while one has not heard, its flight is under way or the event loop can advance. */
  lemma SingleFlightCallersNeverStall(es: seq<SingleEvent>, t: Single, answer: nat -> Outcome, c: nat)
    requires IsSingleRun(GROUNDED, es, t, answer) && NeverReenters(GROUNDED, es, answer)
    requires c < |t.callers| && t.callers[c].got.None?
    ensures exists e: SingleEvent :: !e.Enters? && SingleEnabled(t, e)
  {
    SingleRunKeepsInv(GROUNDED, es, t, answer);
    var f := t.callers[c].flight;
    if t.stack != [] {
      assert SingleEnabled(t, LeavesPrefix);
    } else if t.flights[f].Flying? {
      assert SingleEnabled(t, Lands(f));
    } else if !t.flights[f].cleared {
      assert SingleEnabled(t, Clears(f));
    } else {
      assert SingleEnabled(t, Hears(c));
    }
  }

  /** The condition is exact: a task whose prefix calls the runner again overlaps the task this starts. */
  lemma ReenteringOverlaps(es: seq<SingleEvent>, t: Single, answer: nat -> Outcome)
    requires IsSingleRun(GROUNDED, es, t, answer) && NeverReenters(GROUNDED, es, answer) && t.stack != []
    ensures TasksOverlap(SingleStep(t, Enters, answer))
  {
    SingleRunKeepsInv(GROUNDED, es, t, answer);
    var u := SingleStep(t, Enters, answer);
    assert u.flights[t.stack[0]].Prefix? && u.flights[|t.flights|].Prefix?;
  }

  const REENTRANT_EVENTS: seq<SingleEvent> := [Enters, Enters, LeavesPrefix, LeavesPrefix, Lands(1), Clears(1)]

  /** The states of a run in which the first task calls the runner before its first await. */
  function Reentrant(n: nat, answer: nat -> Outcome): Single {
    var both := [Caller(0, true, None), Caller(1, true, None)];
    if n == 0 then GROUNDED
    else if n == 1 then Single(None, [Prefix], [Caller(0, true, None)], [0])
    else if n == 2 then Single(None, [Prefix, Prefix], both, [0, 1])
    else if n == 3 then Single(Some(1), [Prefix, Flying], both, [0])
    else if n == 4 then Single(Some(0), [Flying, Flying], both, [])
    else if n == 5 then Single(Some(0), [Flying, Landed(answer(1), false)], both, [])
    else Single(None, [Flying, Landed(answer(1), true)], both, [])
  }

  lemma ReentrantStep(n: nat, answer: nat -> Outcome)
    requires n < 6
    ensures SingleEnabled(Reentrant(n, answer), REENTRANT_EVENTS[n])
    ensures SingleStep(Reentrant(n, answer), REENTRANT_EVENTS[n], answer) == Reentrant(n + 1, answer)
  {
  }

  lemma {:induction false} ReentrantRun(n: nat, answer: nat -> Outcome)
    requires n <= 6
    ensures IsSingleRun(Reentrant(n, answer), REENTRANT_EVENTS[n..], Reentrant(6, answer), answer)
    decreases 6 - n
  {
    if n < 6 {
      ReentrantStep(n, answer);
      ReentrantRun(n + 1, answer);
      assert REENTRANT_EVENTS[n..][1..] == REENTRANT_EVENTS[n + 1..];
    }
  }

  /** After a re-entrant start the inner task's `finally` empties the slot of the outer one, which is still flying. */
  lemma ReentranceFreesTheSlotEarly(answer: nat -> Outcome)
    ensures var t := Reentrant(6, answer);
            IsSingleRun(GROUNDED, REENTRANT_EVENTS, t, answer) && t.slot == None && t.flights[0].Flying?
  {
    ReentrantRun(0, answer);
    assert Reentrant(0, answer) == GROUNDED && REENTRANT_EVENTS[0..] == REENTRANT_EVENTS;
  }

  /** A call that finds the slot empty, when its task does not call back before its first await. */
  function Launch(s: Single): Single {
    s.(flights := s.flights + [Flying], callers := s.callers + [Caller(|s.flights|, true, None)], slot := Some(|s.flights|))
  }

  lemma LaunchIsEnterAndLeave(s: Single, answer: nat -> Outcome)
    requires s.stack == [] && s.slot == None
    ensures var entered := SingleStep(s, Enters, answer);
            SingleEnabled(entered, LeavesPrefix) && SingleStep(entered, LeavesPrefix, answer) == Launch(s)
  {
  }

  lemma LaunchKeepsInv(s: Single, answer: nat -> Outcome)
    requires SingleInv(s, answer) && s.stack == [] && s.slot == None
    ensures SingleInv(Launch(s), answer)
  {
  }

  class SingleFlightState {
    var inFlight: Option<nat>
    var flights: seq<Flight>
    var callers: seq<Caller>

    ghost function View(): Single
      reads this
    {
      Single(inFlight, flights, callers, [])
    }

    constructor ()
      ensures View() == GROUNDED
    {
      inFlight, flights, callers := None, [], [];
    }

    /** A call whose task does not call back before its first await: it joins, or its flight fills the slot. */
    method Run(ghost answer: nat -> Outcome) returns (flight: nat, started: bool)
      requires SingleInv(View(), answer)
      modifies this
      ensures SingleInv(View(), answer)
      ensures View() == if started
                        then Launch(old(View()))
                        else SingleStep(old(View()), Enters, answer)
      ensures started <==> old(inFlight).None?
      ensures inFlight == Some(flight)
    {
      if inFlight.Some? {
        SingleStepKeepsInv(View(), Enters, answer);
        callers := callers + [Caller(inFlight.value, false, None)];
        return inFlight.value, false;
      }
      LaunchKeepsInv(View(), answer);
      flight, started := |flights|, true;
      flights := flights + [Flying];
      callers := callers + [Caller(flight, true, None)];
      inFlight := Some(flight);
    }

    /** The `finally` of the call that started the flight. */
    method Finish(flight: nat, ghost answer: nat -> Outcome)
      requires SingleInv(View(), answer) && HasLanded(View(), flight) && !flights[flight].cleared
      modifies this
      ensures SingleInv(View(), answer) && inFlight == None
      ensures View() == SingleStep(old(View()), Clears(flight), answer)
    {
      SingleStepKeepsInv(View(), Clears(flight), answer);
      flights := flights[flight := Landed(flights[flight].outcome, true)];
      inFlight := None;
    }
  }
}
