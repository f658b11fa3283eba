/**
 * What single steps of a persistence lane lead to (src/main.ts:1025-1578), said by
 * the fields they may touch: when health opens, which ensure starts a load, what a
 * load waits for, reads and leaves behind.
 */
module LaneOutcomes {
  import opened Wrappers
  import opened Authority
  import opened Lanes

  // ---------------------------------------------------------------------------
  // Writes
  // ---------------------------------------------------------------------------

  /** The write's authority is still the current one, for a complete scope. */
  predicate IsOfActiveScope(g: Guard, settings: Scope, token: Token) {
    && token.identity == g.identity && token.epoch == g.epoch
    && settings.host != "" && settings.vaultId != "" && settings.localDeviceId != "" && g.identity == Some(settings)
  }

  /** The settling write is the newest of the store that is attached for the active scope. */
  predicate IsNewestOfActiveStore<S>(l: Lane<S>, g: Guard, settings: Scope, w: Write<S>, n: nat) {
    && IsOfActiveScope(g, settings, w.token)
    && w.store.key == settings && l.store == Some(w.store) && l.tail == n
    && (w.attempt == None || w.attempt == Some(l.attempts))
  }

  /**
   * Every queued write settles in order. Health follows its outcome exactly when it
   * is the newest write of the active store: it opens when the write succeeded and
   * its key is not latched as corrupt, and is closed otherwise. Any other settlement
   * leaves health as it was, and nothing but the outcome changes.
   */
  lemma SettlementMovesHealthIff<S>(l: Lane<S>, g: Guard, settings: Scope, ok: bool)
    requires l.done < |l.log|
    ensures var t, w := Settle(l, g, settings, ok), l.log[l.done];
            && (t.healthy <==> if IsNewestOfActiveStore(l, g, settings, w, l.done + 1)
                               then ok && w.store.key !in l.corrupt else l.healthy)
            && t.done == l.done + 1
            && t.log == l.log[..l.done] + [w.(outcome := if ok then Succeeded else Rejected)] + l.log[l.done + 1..]
            && t == l.(log := t.log, done := t.done, healthy := t.healthy)
  {
  }

  /** A landing write becomes the record of its key, and no other record changes. */
  lemma LandingIsDurable<S>(l: Lane<S>)
    requires l.done < |l.log|
    ensures var t, w := Land(l), l.log[l.done];
            && w.store.key in t.durable && t.durable[w.store.key] == w.snapshot
            && t.durable - {w.store.key} == l.durable - {w.store.key}
            && t.log == l.log[..l.done] + [w.(landed := true)] + l.log[l.done + 1..]
            && t == l.(log := t.log, durable := t.durable)
  {
  }

  /** An enqueued write closes health and becomes the tail, behind everything queued before it. */
  lemma EnqueuedIsTheTail<S>(l: Lane<S>, token: Token, attempt: Option<nat>, store: Store, snapshot: S)
    ensures var t := Push(l, token, attempt, store, snapshot);
            && !t.healthy && t.tail == |t.log| == |l.log| + 1 && t.log[..|l.log|] == l.log
            && t.log[|l.log|] == Write(token, attempt, store, snapshot, false, Queued)
            && t.done == l.done && t.durable == l.durable && t.store == l.store && t.corrupt == l.corrupt
            && t.loads == l.loads && t.attempts == l.attempts
  {
  }

  /** A process death leaves the durable records alone, and nothing else that could act. */
  lemma OnlyRecordsSurvive<S>(l: Lane<S>)
    requires l.done <= |l.log|
    ensures var t := Crash(l);
            && t.durable == l.durable && !t.healthy && t.store == None && t.loads == map[] && t.corrupt == {} && t.tail == 0
            && t.done == |t.log| == |l.log|
            && (forall i :: 0 <= i < |l.log| ==>
                  t.log[i] == if i < l.done then l.log[i] else l.log[i].(outcome := Crashed))
  {
  }

  // ---------------------------------------------------------------------------
  // Ensuring a store
  // ---------------------------------------------------------------------------

  /** The lane could only be used once something outside it changes: no complete scope, or a latched key. */
  predicate IsBarred<S>(l: Lane<S>, settings: Scope) {
    settings.host == "" || settings.vaultId == "" || settings.localDeviceId == "" || settings in l.corrupt
  }

  /**
   * An ensure closes health while the lane is barred. Otherwise it keeps a healthy
   * store of the scope as it is, and in every other case it detaches first; it then
   * starts a load, under a new number and the active authority, exactly when its
   * store could be opened. The load waits for the tail of that moment.
   */
  lemma EnsureDecides<S>(l: Lane<S>, g: Guard, settings: Scope, opens: bool)
    ensures var t := BeginEnsure(l, g, settings, opens);
            && t.log == l.log && t.done == l.done && t.tail == l.tail && t.durable == l.durable && t.corrupt == l.corrupt
            && (if IsBarred(l, settings) then t == l.(healthy := false)
                else if l.healthy && l.store.Some? && l.store.value.key == settings then t == l
                else
                  && !t.healthy && t.store == None
                  && (if opens then
                        var n := l.attempts + 1;
                        && t.attempts == n && n in t.loads && t.loads - {n} == l.loads - {n}
                        && t.loads[n].token == Token(Some(settings), g.epoch)
                        && t.loads[n].store == Store(n, settings, g.epoch)
                        && t.loads[n].attempt == n && t.loads[n].pc == AwaitingTail(l.tail)
                      else t.attempts == l.attempts && t.loads == l.loads))
  {
  }

  // ---------------------------------------------------------------------------
  // Loads
  // ---------------------------------------------------------------------------

  /** Only the load of that number changes, and nothing else of the lane. */
  predicate MovesLoad<S(==)>(l: Lane<S>, t: Lane<S>, a: nat, pc: LoadPc<S>) {
    && t == l.(loads := t.loads) && t.loads - {a} == l.loads - {a}
    && a in l.loads && a in t.loads && t.loads[a] == l.loads[a].(pc := pc)
  }

  /** Only the load of that number is over. */
  predicate EndsLoad<S(==)>(l: Lane<S>, t: Lane<S>, a: nat) {
    t == l.(loads := t.loads) && t.loads == l.loads - {a}
  }

  /** The load's authority is still the current one. */
  predicate IsOfAuthority(g: Guard, settings: Scope, token: Token) {
    token == Token(g.identity, g.epoch) && Identity(settings) == g.identity
  }

  /**
   * After the tail it waited for, a load whose authority moved is over; otherwise it
   * waits again when the tail moved, and is ready to read when it did not.
   */
  lemma TailDecides<S>(l: Lane<S>, g: Guard, settings: Scope, a: nat)
    requires a in l.loads && l.loads[a].pc.AwaitingTail? && HasSettled(l, l.loads[a].pc.tail)
    ensures var t := TailSettled(l, g, settings, a);
            if !IsOfAuthority(g, settings, l.loads[a].token) then EndsLoad(l, t, a)
            else if l.loads[a].pc.tail == l.tail then MovesLoad(l, t, a, TailStable)
            else MovesLoad(l, t, a, AwaitingTail(l.tail))
  {
  }

  /** A load reads exactly when its authority is current and no newer ensure began. */
  lemma ReadStartsIff<S>(l: Lane<S>, g: Guard, settings: Scope, a: nat)
    requires a in l.loads && l.loads[a].pc.TailStable?
    ensures var t := StartRead(l, g, settings, a);
            if IsOfAuthority(g, settings, l.loads[a].token) && a == l.attempts then MovesLoad(l, t, a, Reading(l.tail))
            else EndsLoad(l, t, a)
  {
  }

  /** A read answers the durable record of its key, that there is none, or how it failed. */
  lemma ReadAnswersTheRecord<S>(l: Lane<S>, a: nat, kind: ReadKind)
    requires a in l.loads && l.loads[a].pc.Reading?
    ensures var t, key, tail := FinishRead(l, a, kind), l.loads[a].store.key, l.loads[a].pc.tail;
            match kind
            case ReadsRecord =>
              if key in l.durable then MovesLoad(l, t, a, Read(tail, Loaded(l.durable[key])))
              else MovesLoad(l, t, a, Read(tail, Missing))
            case FindsCorruption => MovesLoad(l, t, a, Read(tail, Corrupt))
            case Fails => MovesLoad(l, t, a, Read(tail, Unreadable))
  {
  }

  /** A read counts when the tail, the authority and the newest ensure are those it began with. */
  predicate IsReadCurrent<S>(l: Lane<S>, g: Guard, settings: Scope, a: nat)
    requires a in l.loads && l.loads[a].pc.Read?
  {
    l.loads[a].pc.tail == l.tail && IsOfAuthority(g, settings, l.loads[a].token) && a == l.attempts
  }

  /**
   * A stale read changes nothing but its own end. A current one that found a corrupt
   * record latches its key, and one that failed leaves the lane detached.
   */
  lemma AbandonDecides<S>(l: Lane<S>, g: Guard, settings: Scope, a: nat)
    requires a in l.loads && l.loads[a].pc.Read?
    requires IsReadCurrent(l, g, settings, a) ==> l.loads[a].pc.result.Corrupt? || l.loads[a].pc.result.Unreadable?
    ensures var t := AbandonLoad(l, g, settings, a);
            if !IsReadCurrent(l, g, settings, a) then EndsLoad(l, t, a)
            else if l.loads[a].pc.result.Corrupt? then
              t == l.(loads := l.loads - {a}, corrupt := t.corrupt) && t.corrupt == l.corrupt + {l.loads[a].store.key}
            else
              t == l.(loads := l.loads - {a}, healthy := false, store := None, adoptedOver := None)
  {
  }

  /**
   * An adoption ends its load and attaches its store. Without a write it opens
   * health over the tail as it is; with one, health opens only when that write of
   * the adopted value is acknowledged.
   */
  lemma AdoptionAttaches<S>(l: Lane<S>, a: nat, value: S, writeBack: bool)
    requires a in l.loads
    ensures var t, load := Adopt(l, a, value, writeBack), l.loads[a];
            && t.loads == l.loads - {a} && t.store == Some(load.store)
            && t.corrupt == l.corrupt && t.durable == l.durable && t.attempts == l.attempts && t.done == l.done
            && (if writeBack then
                  && !t.healthy && t.tail == |l.log| + 1
                  && t.log == l.log + [Write(load.token, Some(a), load.store, value, false, Queued)]
                else t.healthy && t.tail == l.tail && t.log == l.log)
  {
  }

  /**
   * The write back of an adoption opens health when it is acknowledged, unless the
   * scope, the store, the tail or the ensure moved meanwhile.
   */
  lemma WriteBackOpensHealth<S>(l: Lane<S>, g: Guard, settings: Scope, a: nat, value: S)
    requires LaneInv(l, g) && a in l.loads && l.loads[a].pc.Read? && IsReadCurrent(l, g, settings, a)
    ensures var written := Adopt(l, a, value, true);
            && written.done < |written.log|
            && var acknowledged := Settle(Land(written), g, settings, true);
               && acknowledged.healthy && acknowledged.store == Some(l.loads[a].store)
               && l.loads[a].store.key in acknowledged.durable && acknowledged.durable[l.loads[a].store.key] == value
  {
    assert IsLive(l, g, a);
  }
}
