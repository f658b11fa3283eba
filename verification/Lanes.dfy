/**
 * One durable persistence lane of the attachment engine (src/main.ts:1025-1578).
 *
 * The engine runs two of them with the same code: one stores pending intents,
 * one stores settled refs. A lane serializes full-snapshot writes behind one
 * promise tail, closes its health flag on every enqueue, and re-attaches a
 * store only by loading what is durable.
 *
 * `log` lists every write promise ever made, in enqueue order, so that the
 * write with identity `w` is `log[w - 1]` and identity 0 is the resolved
 * promise a process starts with. The first `done` of them have settled; the
 * rest is the queue.
 */
module Lanes {
  import opened Wrappers
  import opened Authority

  /** An open store object: the attempt that opened it, its record key and the epoch it was opened in. */
  datatype Store = Store(id: nat, key: Scope, epoch: nat)

  datatype Outcome = Queued | Succeeded | Rejected | Crashed

  datatype Write<S> = Write(
    token: Token, attempt: Option<nat>, store: Store, snapshot: S, landed: bool, outcome: Outcome)

  /** What `loadWithStatus` answers; `Unreadable` is a rejected read. */
  datatype LoadResult<S> = Missing | Loaded(value: S) | Corrupt | Unreadable

  /** Where an "ensure" routine is suspended. */
  datatype LoadPc<S> =
    | AwaitingTail(tail: nat)
    | TailStable
    | Reading(tail: nat)
    | Read(tail: nat, result: LoadResult<S>)

  datatype Load<S> = Load(token: Token, store: Store, attempt: nat, pc: LoadPc<S>)

  datatype Lane<S> = Lane(
    log: seq<Write<S>>,
    done: nat,
    tail: nat,
    healthy: bool,
    store: Option<Store>,
    attempts: nat,
    loads: map<nat, Load<S>>,
    corrupt: set<Scope>,
    durable: map<Scope, S>,
    /* History: the records before the first write, the last snapshot enqueued or
       adopted per key, and the tail over which the store was adopted without a write. */
    base: map<Scope, S>,
    last: map<Scope, S>,
    adoptedOver: Option<nat>)

  // ---------------------------------------------------------------------------
  // Promises
  // ---------------------------------------------------------------------------

  predicate HasSettled<S>(l: Lane<S>, w: nat) {
    w <= l.done
  }

  predicate WasRejected<S>(l: Lane<S>, w: nat) {
    0 < w <= |l.log| && l.log[w - 1].outcome == Rejected
  }

  /** The durable records that the landed writes of a log leave behind. */
  function Replayed<S>(base: map<Scope, S>, log: seq<Write<S>>): map<Scope, S> {
    if log == [] then base
    else
      var before, w := Replayed(base, log[..|log| - 1]), log[|log| - 1];
      if w.landed then before[w.store.key := w.snapshot] else before
  }

  // ---------------------------------------------------------------------------
  // Steps
  // ---------------------------------------------------------------------------

  function NewLane<S>(records: map<Scope, S>): Lane<S> {
    Lane([], 0, 0, false, None, 0, map[], {}, records, records, map[], None)
  }

  /** A process death: everything but the durable records is gone. */
  function Crash<S>(l: Lane<S>): Lane<S>
    requires l.done <= |l.log|
  {
    l.(log := seq(|l.log|, i requires 0 <= i < |l.log| =>
                if i < l.done then l.log[i] else l.log[i].(outcome := Crashed)),
       done := |l.log|, tail := 0, healthy := false, store := None, loads := map[], corrupt := {},
       adoptedOver := None)
  }

  function Detach<S>(l: Lane<S>): Lane<S> {
    l.(healthy := false, store := None, adoptedOver := None)
  }

  predicate EnqueueAccepted<S>(l: Lane<S>, g: Guard, settings: Scope, token: Token, store: Store) {
    IsCurrent(g, token, settings) && l.store == Some(store)
  }

  /** The accepted part of `enqueue*Snapshot`: health closes and the tail moves. */
  function Push<S>(l: Lane<S>, token: Token, attempt: Option<nat>, store: Store, snapshot: S): Lane<S> {
    l.(healthy := false,
       log := l.log + [Write(token, attempt, store, snapshot, false, Queued)],
       tail := |l.log| + 1,
       last := l.last[store.key := snapshot],
       adoptedOver := None)
  }

  /** The head of the queue reaches the database; its promise has not settled yet. */
  function Land<S>(l: Lane<S>): Lane<S>
    requires l.done < |l.log|
  {
    var w := l.log[l.done];
    l.(log := l.log[l.done := w.(landed := true)], durable := l.durable[w.store.key := w.snapshot])
  }

  /** `isCurrentEnsure` for the write's or load's own token, key and store. */
  predicate IsCurrentAttempt<S>(l: Lane<S>, g: Guard, settings: Scope, token: Token, attempt: nat) {
    IsCurrent(g, token, settings) && attempt == l.attempts
  }

  /** `isCurrent*Write`: only the latest tail of the attached store may touch health. */
  predicate IsCurrentWrite<S>(l: Lane<S>, g: Guard, settings: Scope, w: nat)
    requires 0 < w <= |l.log|
  {
    var r := l.log[w - 1];
    && IsCurrent(g, r.token, settings)
    && Identity(settings) == Some(r.store.key)
    && l.store == Some(r.store)
    && l.tail == w
    && (r.attempt.Some? ==> IsCurrentAttempt(l, g, settings, r.token, r.attempt.value))
  }

  /** The head of the queue settles and its callback runs. A failed save may have landed. */
  function Settle<S>(l: Lane<S>, g: Guard, settings: Scope, ok: bool): Lane<S>
    requires l.done < |l.log|
  {
    var w := l.log[l.done];
    l.(log := l.log[l.done := w.(outcome := if ok then Succeeded else Rejected)],
       done := l.done + 1,
       healthy := if IsCurrentWrite(l, g, settings, l.done + 1)
                  then ok && w.store.key !in l.corrupt
                  else l.healthy)
  }

  /** The synchronous prefix of `ensure*Persistence`, after the scope activation. */
  function BeginEnsure<S>(l: Lane<S>, g: Guard, settings: Scope, opens: bool): Lane<S> {
    if !IsComplete(settings) || settings in l.corrupt then l.(healthy := false)
    else if l.store.Some? && l.store.value.key == settings && l.healthy then l
    else if !opens then Detach(l)
    else
      var store := Store(l.attempts + 1, settings, g.epoch);
      var load := Load(Token(Identity(settings), g.epoch), store, l.attempts + 1, AwaitingTail(l.tail));
      Detach(l).(attempts := l.attempts + 1, loads := l.loads[l.attempts + 1 := load])
  }

  function DropLoad<S>(l: Lane<S>, a: nat): Lane<S> {
    l.(loads := l.loads - {a})
  }

  function SetLoad<S>(l: Lane<S>, a: nat, pc: LoadPc<S>): Lane<S>
    requires a in l.loads
  {
    l.(loads := l.loads[a := l.loads[a].(pc := pc)])
  }

  /** One turn of `waitForStable*Tail` once the awaited promise has settled. */
  function TailSettled<S>(l: Lane<S>, g: Guard, settings: Scope, a: nat): Lane<S>
    requires a in l.loads && l.loads[a].pc.AwaitingTail? && HasSettled(l, l.loads[a].pc.tail)
  {
    if !IsCurrent(g, l.loads[a].token, settings) then DropLoad(l, a)
    else if l.loads[a].pc.tail != l.tail then SetLoad(l, a, AwaitingTail(l.tail))
    else SetLoad(l, a, TailStable)
  }

  function StartRead<S>(l: Lane<S>, g: Guard, settings: Scope, a: nat): Lane<S>
    requires a in l.loads && l.loads[a].pc.TailStable?
  {
    if !IsCurrentAttempt(l, g, settings, l.loads[a].token, a) then DropLoad(l, a)
    else SetLoad(l, a, Reading(l.tail))
  }

  /** How a read may end; a record that is present can also turn out corrupt or unreadable. */
  datatype ReadKind = ReadsRecord | FindsCorruption | Fails

  function FinishRead<S>(l: Lane<S>, a: nat, kind: ReadKind): Lane<S>
    requires a in l.loads && l.loads[a].pc.Reading?
  {
    var key := l.loads[a].store.key;
    var result := match kind
      case ReadsRecord => if key in l.durable then Loaded(l.durable[key]) else Missing
      case FindsCorruption => Corrupt
      case Fails => Unreadable;
    SetLoad(l, a, Read(l.loads[a].pc.tail, result))
  }

  /** The guard after `loadWithStatus`: anything stale is discarded. */
  predicate MayAdopt<S>(l: Lane<S>, g: Guard, settings: Scope, a: nat)
    requires a in l.loads && l.loads[a].pc.Read?
  {
    l.tail == l.loads[a].pc.tail && IsCurrentAttempt(l, g, settings, l.loads[a].token, a)
  }

  /** A stale load, a corrupt record or a failed read. */
  function AbandonLoad<S>(l: Lane<S>, g: Guard, settings: Scope, a: nat): Lane<S>
    requires a in l.loads && l.loads[a].pc.Read?
  {
    var load := l.loads[a];
    if !MayAdopt(l, g, settings, a) then DropLoad(l, a)
    else if load.pc.result.Corrupt? then DropLoad(l.(corrupt := l.corrupt + {load.store.key}), a)
    else DropLoad(Detach(l), a)
  }

  /** The current load installs its store with `value` and writes it back when told to. */
  function Adopt<S>(l: Lane<S>, a: nat, value: S, writeBack: bool): Lane<S>
    requires a in l.loads
  {
    var load := l.loads[a];
    if writeBack then Push(Attach(l, a, value), load.token, Some(a), load.store, value)
    else Attach(l, a, value).(healthy := true, adoptedOver := Some(l.tail))
  }

  /** The load is over, and its store is attached with `value` as memory. */
  function Attach<S>(l: Lane<S>, a: nat, value: S): Lane<S>
    requires a in l.loads
  {
    DropLoad(l, a).(store := Some(l.loads[a].store), last := l.last[l.loads[a].store.key := value])
  }

  // ---------------------------------------------------------------------------
  // Invariant
  // ---------------------------------------------------------------------------

  ghost predicate QueueInv<S>(l: Lane<S>) {
    && l.done <= |l.log|
    && (forall i :: 0 <= i < l.done ==> l.log[i].outcome != Queued)
    && (forall i :: l.done <= i < |l.log| ==> l.log[i].outcome == Queued)
    && (forall i :: l.done < i < |l.log| ==> !l.log[i].landed)
    && (forall i :: 0 <= i < |l.log| && l.log[i].outcome == Succeeded ==> l.log[i].landed)
    && (l.tail == 0 || l.tail == |l.log|)
    && (l.done < |l.log| ==> l.tail == |l.log|)
  }

  /** Every durable record is the last landed write of its key. */
  ghost predicate DurableInv<S>(l: Lane<S>) {
    l.durable == Replayed(l.base, l.log)
  }

  ghost predicate StoreInv<S>(l: Lane<S>, g: Guard) {
    && (forall i :: 0 <= i < |l.log| ==> l.log[i].store.id <= l.attempts && l.log[i].store.id !in l.loads)
    && (l.store.Some? ==>
          && l.store.value.id <= l.attempts
          && l.store.value.id !in l.loads
          && g.identity == Some(l.store.value.key)
          && l.store.value.epoch == g.epoch
          && l.store.value.key !in l.corrupt
          && l.store.value.key in l.last
          && (0 < l.tail <= |l.log| && l.log[l.tail - 1].store == l.store.value
              ==> l.last[l.store.value.key] == l.log[l.tail - 1].snapshot))
  }

  /** What an open health flag stands for. */
  ghost predicate HealthInv<S>(l: Lane<S>, g: Guard) {
    l.healthy ==>
      && l.store.Some?
      && l.done == |l.log|
      && l.store.value.key in l.durable
      && l.store.value.key in l.last
      && l.durable[l.store.value.key] == l.last[l.store.value.key]
      && (WasRejected(l, l.tail) ==> l.adoptedOver == Some(l.tail))
  }

  /** A load that could still install its store: nothing happened in its lane since it began. */
  ghost predicate IsLive<S>(l: Lane<S>, g: Guard, a: nat)
    requires a in l.loads
  {
    l.loads[a].token == Capture(g) && a == l.attempts
  }

  ghost predicate LiveLoadInv<S>(l: Lane<S>, g: Guard, load: Load<S>) {
    && l.store == None
    && g.identity == Some(load.store.key)
    && load.store.epoch == g.epoch
    && load.store.key !in l.corrupt
    && (!load.pc.AwaitingTail? ==> l.done == |l.log|)
    && (load.pc.Reading? || load.pc.Read? ==> load.pc.tail == l.tail)
    && (load.pc.Read? && load.pc.result.Loaded? ==>
          load.store.key in l.durable && l.durable[load.store.key] == load.pc.result.value)
    && (load.pc.Read? && load.pc.result.Missing? ==> load.store.key !in l.durable)
  }

  ghost predicate LoadsInv<S>(l: Lane<S>, g: Guard) {
    forall a :: a in l.loads ==>
      && l.loads[a].attempt == a <= l.attempts
      && l.loads[a].token.epoch <= g.epoch
      && l.loads[a].store.id == a
      && (l.loads[a].pc.AwaitingTail? ==> l.loads[a].pc.tail <= |l.log|)
      && (IsLive(l, g, a) ==> LiveLoadInv(l, g, l.loads[a]))
  }

  ghost predicate LaneInv<S>(l: Lane<S>, g: Guard) {
    QueueInv(l) && DurableInv(l) && StoreInv(l, g) && HealthInv(l, g) && LoadsInv(l, g)
  }

  // ---------------------------------------------------------------------------
  // Replaying the log
  // ---------------------------------------------------------------------------

  lemma {:induction false} ReplayedAgrees<S>(base: map<Scope, S>, a: seq<Write<S>>, b: seq<Write<S>>)
    requires |a| == |b|
    requires forall i :: 0 <= i < |a| ==>
               a[i].landed == b[i].landed && a[i].store == b[i].store && a[i].snapshot == b[i].snapshot
    ensures Replayed(base, a) == Replayed(base, b)
    decreases |a|
  {
    if a != [] {
      ReplayedAgrees(base, a[..|a| - 1], b[..|b| - 1]);
    }
  }

  /** Landing a write that no landed write follows makes it the record of its key. */
  lemma {:induction false} ReplayedLanding<S>(base: map<Scope, S>, log: seq<Write<S>>, n: nat)
    requires n < |log|
    requires forall i :: n < i < |log| ==> !log[i].landed
    ensures Replayed(base, log[n := log[n].(landed := true)])
            == Replayed(base, log)[log[n].store.key := log[n].snapshot]
    decreases |log|
  {
    var landing := log[n := log[n].(landed := true)];
    var shorter := log[..|log| - 1];
    if n == |log| - 1 {
      assert landing[..|log| - 1] == shorter;
    } else {
      ReplayedLanding(base, shorter, n);
      assert landing[..|log| - 1] == shorter[n := shorter[n].(landed := true)];
    }
  }

  // ---------------------------------------------------------------------------
  // Preservation, step by step
  // ---------------------------------------------------------------------------

  lemma NewLaneInv<S>(records: map<Scope, S>, g: Guard)
    ensures LaneInv(NewLane(records), g)
  {
  }

  lemma CrashKeepsLane<S>(l: Lane<S>, g: Guard, g': Guard)
    requires LaneInv(l, g)
    ensures LaneInv(Crash(l), g')
  {
    ReplayedAgrees(l.base, l.log, Crash(l).log);
  }

  /** Advancing the epoch makes every load stale, so only detaching is needed. */
  lemma ActivationKeepsLane<S>(l: Lane<S>, g: Guard, settings: Scope)
    requires LaneInv(l, g)
    ensures LaneInv(if ActivationChanges(g, settings) then Detach(l) else l, Activate(g, settings))
  {
  }

  lemma PushKeepsLane<S>(l: Lane<S>, g: Guard, token: Token, attempt: Option<nat>, store: Store, snapshot: S)
    requires LaneInv(l, g) && l.store == Some(store)
    ensures LaneInv(Push(l, token, attempt, store, snapshot), g)
  {
  }

  lemma LandKeepsLane<S>(l: Lane<S>, g: Guard)
    requires LaneInv(l, g) && l.done < |l.log|
    ensures LaneInv(Land(l), g)
  {
    ReplayedLanding(l.base, l.log, l.done);
  }

  lemma SettleKeepsLane<S>(l: Lane<S>, g: Guard, settings: Scope, ok: bool)
    requires LaneInv(l, g) && l.done < |l.log|
    requires ok ==> l.log[l.done].landed
    ensures LaneInv(Settle(l, g, settings, ok), g)
  {
    var l' := Settle(l, g, settings, ok);
    ReplayedAgrees(l.base, l.log, l'.log);
    if l'.healthy {
      HeadRecordIsDurable(l);
    }
  }

  lemma {:induction false} ReplayedLast<S>(base: map<Scope, S>, log: seq<Write<S>>, n: nat)
    requires n < |log| && log[n].landed
    requires forall i :: n < i < |log| ==> !log[i].landed
    ensures log[n].store.key in Replayed(base, log)
    ensures Replayed(base, log)[log[n].store.key] == log[n].snapshot
    decreases |log|
  {
    if n < |log| - 1 {
      ReplayedLast(base, log[..|log| - 1], n);
    }
  }

  lemma HeadRecordIsDurable<S>(l: Lane<S>)
    requires QueueInv(l) && DurableInv(l) && l.done < |l.log| && l.log[l.done].landed
    ensures l.log[l.done].store.key in l.durable
    ensures l.durable[l.log[l.done].store.key] == l.log[l.done].snapshot
  {
    ReplayedLast(l.base, l.log, l.done);
  }

  lemma BeginEnsureKeepsLane<S>(l: Lane<S>, g: Guard, settings: Scope, opens: bool)
    requires LaneInv(l, g) && Identity(settings) == g.identity
    ensures LaneInv(BeginEnsure(l, g, settings, opens), g)
  {
  }

  lemma DropLoadKeepsLane<S>(l: Lane<S>, g: Guard, a: nat)
    requires LaneInv(l, g)
    ensures LaneInv(DropLoad(l, a), g)
  {
  }

  lemma SetLoadKeepsLane<S>(l: Lane<S>, g: Guard, a: nat, pc: LoadPc<S>)
    requires LaneInv(l, g) && a in l.loads
    requires pc.AwaitingTail? ==> pc.tail <= |l.log|
    requires IsLive(l, g, a) ==> LiveLoadInv(l, g, l.loads[a].(pc := pc))
    ensures LaneInv(SetLoad(l, a, pc), g)
  {
  }

  lemma TailSettledKeepsLane<S>(l: Lane<S>, g: Guard, settings: Scope, a: nat)
    requires LaneInv(l, g)
    requires a in l.loads && l.loads[a].pc.AwaitingTail? && HasSettled(l, l.loads[a].pc.tail)
    ensures LaneInv(TailSettled(l, g, settings, a), g)
  {
    DropLoadKeepsLane(l, g, a);
    if IsCurrent(g, l.loads[a].token, settings) {
      SetLoadKeepsLane(l, g, a, if l.loads[a].pc.tail != l.tail then AwaitingTail(l.tail) else TailStable);
    }
  }

  lemma StartReadKeepsLane<S>(l: Lane<S>, g: Guard, settings: Scope, a: nat)
    requires LaneInv(l, g) && a in l.loads && l.loads[a].pc.TailStable?
    ensures LaneInv(StartRead(l, g, settings, a), g)
  {
    DropLoadKeepsLane(l, g, a);
    SetLoadKeepsLane(l, g, a, Reading(l.tail));
  }

  lemma FinishReadKeepsLane<S>(l: Lane<S>, g: Guard, a: nat, kind: ReadKind)
    requires LaneInv(l, g) && a in l.loads && l.loads[a].pc.Reading?
    ensures LaneInv(FinishRead(l, a, kind), g)
  {
  }

  lemma LatchKeepsLane<S>(l: Lane<S>, g: Guard, a: nat)
    requires LaneInv(l, g) && a in l.loads && IsLive(l, g, a)
    ensures LaneInv(DropLoad(l.(corrupt := l.corrupt + {l.loads[a].store.key}), a), g)
  {
  }

  lemma AbandonLoadKeepsLane<S>(l: Lane<S>, g: Guard, settings: Scope, a: nat)
    requires LaneInv(l, g) && a in l.loads && l.loads[a].pc.Read?
    ensures LaneInv(AbandonLoad(l, g, settings, a), g)
  {
    DropLoadKeepsLane(l, g, a);
    if MayAdopt(l, g, settings, a) {
      assert IsLive(l, g, a);
      DropLoadKeepsLane(Detach(l), g, a);
      LatchKeepsLane(l, g, a);
    }
  }

  lemma AttachKeepsLane<S>(l: Lane<S>, g: Guard, a: nat, value: S)
    requires LaneInv(l, g) && a in l.loads && IsLive(l, g, a) && l.loads[a].pc.Read?
    ensures LaneInv(Attach(l, a, value), g)
  {
  }

  lemma AdoptKeepsLane<S>(l: Lane<S>, g: Guard, settings: Scope, a: nat, value: S, writeBack: bool)
    requires LaneInv(l, g) && a in l.loads && l.loads[a].pc.Read? && MayAdopt(l, g, settings, a)
    requires writeBack || l.loads[a].pc.result == Loaded(value)
    ensures LaneInv(Adopt(l, a, value, writeBack), g)
  {
    var load := l.loads[a];
    assert IsLive(l, g, a);
    AttachKeepsLane(l, g, a, value);
    if writeBack {
      PushKeepsLane(Attach(l, a, value), g, load.token, Some(a), load.store, value);
    }
  }
}
