/**
 * A persistence lane as the plugin object holds it: the fields of
 * src/main.ts:1025-1578 with the database and the promises they refer to,
 * updated in place by each callback. Every method is proved against the step
 * function of the lane and keeps its invariant.
 */
module LaneObject {
  import opened Wrappers
  import opened Authority
  import opened Lanes

  class PersistenceLane<S(==)> {
    /* The plugin's fields. */
    var tail: nat
    var healthy: bool
    var store: Option<Store>
    var attempts: nat
    var corrupt: set<Scope>
    /* Promises, suspended routines and the database. */
    var log: seq<Write<S>>
    var done: nat
    var loads: map<nat, Load<S>>
    var durable: map<Scope, S>
    /* History. */
    ghost var base: map<Scope, S>
    ghost var last: map<Scope, S>
    ghost var adoptedOver: Option<nat>

    ghost function View(): Lane<S>
      reads this
    {
      Lane(log, done, tail, healthy, store, attempts, loads, corrupt, durable, base, last, adoptedOver)
    }

    ghost predicate Valid(g: Guard)
      reads this
    {
      LaneInv(View(), g)
    }

    constructor (records: map<Scope, S>, g: Guard)
      ensures Valid(g) && View() == NewLane(records)
    {
      tail, healthy, store, attempts, corrupt := 0, false, None, 0, {};
      log, done, loads, durable := [], 0, map[], records;
      base, last, adoptedOver := records, map[], None;
      new;
      NewLaneInv(records, g);
    }

    /** What a scope activation does to the lane, after the guard advanced its epoch. */
    method OnActivation(g: Guard, settings: Scope)
      requires Valid(g)
      modifies this
      ensures Valid(Activate(g, settings))
      ensures View() == if ActivationChanges(g, settings) then Lanes.Detach(old(View())) else old(View())
    {
      ActivationKeepsLane(View(), g, settings);
      if ActivationChanges(g, settings) {
        healthy, store := false, None;
        adoptedOver := None;
      }
    }

    /** The snapshot joins the queue, and the tail moves to it. */
    method Append(token: Token, attempt: Option<nat>, target: Store, snapshot: S)
      modifies this
      ensures View() == Push(old(View()), token, attempt, target, snapshot)
    {
      healthy := false;
      log := log + [Write(token, attempt, target, snapshot, false, Queued)];
      tail := |log|;
      last, adoptedOver := last[target.key := snapshot], None;
    }

    /** `enqueue*Snapshot`: refused unless the scope, key and store are current; otherwise the tail moves. */
    method Enqueue(g: Guard, settings: Scope, target: Store, snapshot: S, ensureToken: Option<(Token, nat)>)
      returns (accepted: bool)
      requires Valid(g)
      modifies this
      ensures Valid(g)
      ensures var token := if ensureToken.Some? then ensureToken.value.0 else Capture(g);
              && (accepted <==> EnqueueAccepted(old(View()), g, settings, token, target))
              && View() == if accepted
                           then Push(old(View()), token, if ensureToken.Some? then Some(ensureToken.value.1) else None,
                                     target, snapshot)
                           else old(View())
    {
      var token := if ensureToken.Some? then ensureToken.value.0 else Capture(g);
      var attempt := if ensureToken.Some? then Some(ensureToken.value.1) else None;
      if !IsCurrent(g, token, settings) || store != Some(target) {
        return false;
      }
      PushKeepsLane(View(), g, token, attempt, target, snapshot);
      Append(token, attempt, target, snapshot);
      return true;
    }

    /** The database takes the head of the queue. */
    method LandHead(g: Guard)
      requires Valid(g) && done < |log|
      modifies this
      ensures Valid(g) && View() == Land(old(View()))
    {
      LandKeepsLane(View(), g);
      durable := durable[log[done].store.key := log[done].snapshot];
      log := log[done := log[done].(landed := true)];
    }

    /** What the settlement of the head does to the queue and, for the current tail alone, to the flag. */
    method DoSettle(g: Guard, settings: Scope, ok: bool)
      requires done < |log|
      modifies this
      ensures View() == Settle(old(View()), g, settings, ok)
      ensures healthy && !old(healthy) ==> ok && tail == done
    {
      var write := log[done];
      log := log[done := write.(outcome := if ok then Succeeded else Rejected)];
      done := done + 1;
      if IsCurrent(g, write.token, settings) && Identity(settings) == Some(write.store.key) && store == Some(write.store)
         && tail == done && (write.attempt.Some? ==> write.attempt.value == attempts) {
        healthy := ok && write.store.key !in corrupt;
      }
    }

    /** The head's promise settles; only the current tail of the attached store may touch the health flag. */
    method SettleHead(g: Guard, settings: Scope, ok: bool)
      requires Valid(g) && done < |log| && (ok ==> log[done].landed)
      modifies this
      ensures Valid(g) && View() == Settle(old(View()), g, settings, ok)
      ensures healthy && !old(healthy) ==> ok && done == |log| == tail
    {
      SettleKeepsLane(View(), g, settings, ok);
      DoSettle(g, settings, ok);
    }

    /** The part of an ensure that starts a load: its number, its store and its token are taken at once. */
    method BeginLoad(g: Guard, settings: Scope)
      modifies this
      ensures attempts == old(attempts) + 1 && !healthy && store == None && adoptedOver == None
      ensures loads == old(loads)[attempts := Load(Capture(g), Store(attempts, settings, g.epoch), attempts, AwaitingTail(tail))]
      ensures View() == old(View()).(healthy := false, store := None, adoptedOver := None, attempts := attempts, loads := loads)
    {
      healthy, store, adoptedOver := false, None, None;
      attempts := attempts + 1;
      loads := loads[attempts := Load(Capture(g), Store(attempts, settings, g.epoch), attempts, AwaitingTail(tail))];
    }

    /** What an ensure does: it may answer at once, detach, or start a load. */
    method DoEnsure(g: Guard, settings: Scope, opens: bool) returns (ready: bool, load: Option<nat>)
      requires Identity(settings) == g.identity
      modifies this
      ensures View() == BeginEnsure(old(View()), g, settings, opens)
      ensures ready ==> healthy && store.Some? && store.value.key == settings
      ensures load.Some? ==> load.value == attempts && load.value in loads && !ready && store == None
    {
      if !IsComplete(settings) || settings in corrupt {
        healthy := false;
        return false, None;
      }
      if store.Some? && store.value.key == settings && healthy {
        return true, None;
      }
      if !opens {
        healthy, store, adoptedOver := false, None, None;
        return false, None;
      }
      BeginLoad(g, settings);
      return false, Some(attempts);
    }

    /** The synchronous prefix of `ensure*Persistence`: it detaches before its first await. */
    method OnEnsure(g: Guard, settings: Scope, opens: bool) returns (ready: bool, load: Option<nat>)
      requires Valid(g) && Identity(settings) == g.identity
      modifies this
      ensures Valid(g) && View() == BeginEnsure(old(View()), g, settings, opens)
      ensures ready ==> healthy && store.Some? && store.value.key == settings
      ensures load.Some? ==> load.value == attempts && load.value in loads && !ready && store == None
    {
      BeginEnsureKeepsLane(View(), g, settings, opens);
      ready, load := DoEnsure(g, settings, opens);
    }

    /** One turn of `waitForStable*Tail`. */
    method OnTail(g: Guard, settings: Scope, a: nat)
      requires Valid(g) && a in loads && loads[a].pc.AwaitingTail? && HasSettled(View(), loads[a].pc.tail)
      modifies this
      ensures Valid(g) && View() == TailSettled(old(View()), g, settings, a)
    {
      TailSettledKeepsLane(View(), g, settings, a);
      var load := loads[a];
      if !IsCurrent(g, load.token, settings) {
        loads := loads - {a};
      } else if load.pc.tail != tail {
        loads := loads[a := load.(pc := AwaitingTail(tail))];
      } else {
        loads := loads[a := load.(pc := TailStable)];
      }
    }

    method OnStable(g: Guard, settings: Scope, a: nat)
      requires Valid(g) && a in loads && loads[a].pc.TailStable?
      modifies this
      ensures Valid(g) && View() == StartRead(old(View()), g, settings, a)
    {
      StartReadKeepsLane(View(), g, settings, a);
      if !IsCurrent(g, loads[a].token, settings) || a != attempts {
        loads := loads - {a};
      } else {
        loads := loads[a := loads[a].(pc := Reading(tail))];
      }
    }

    method OnRead(g: Guard, a: nat, kind: ReadKind)
      requires Valid(g) && a in loads && loads[a].pc.Reading?
      modifies this
      ensures Valid(g) && View() == FinishRead(old(View()), a, kind)
    {
      FinishReadKeepsLane(View(), g, a, kind);
      var key := loads[a].store.key;
      var result := Missing;
      match kind {
        case ReadsRecord => if key in durable { result := Loaded(durable[key]); }
        case FindsCorruption => result := Corrupt;
        case Fails => result := Unreadable;
      }
      loads := loads[a := loads[a].(pc := Read(loads[a].pc.tail, result))];
    }

    /** Installing a loaded record as it is opens the lane. */
    method InstallLoaded(g: Guard, settings: Scope, a: nat, value: S)
      requires Valid(g) && a in loads && loads[a].pc.Read? && MayAdopt(View(), g, settings, a)
      requires loads[a].pc.result == Loaded(value)
      modifies this
      ensures Valid(g) && View() == Adopt(old(View()), a, value, false)
      ensures store == Some(old(loads)[a].store) && healthy
    {
      AdoptKeepsLane(View(), g, settings, a, value, false);
      var load := loads[a];
      loads, store, last := loads - {a}, Some(load.store), last[load.store.key := value];
      healthy, adoptedOver := true, Some(tail);
    }

    /** Installing a value that differs from the record starts its write. */
    method InstallAndWrite(g: Guard, settings: Scope, a: nat, value: S)
      requires Valid(g) && a in loads && loads[a].pc.Read? && MayAdopt(View(), g, settings, a)
      modifies this
      ensures Valid(g) && View() == Adopt(old(View()), a, value, true)
      ensures store == Some(old(loads)[a].store) && !healthy
    {
      AdoptKeepsLane(View(), g, settings, a, value, true);
      var load := loads[a];
      loads, store, last := loads - {a}, Some(load.store), last[load.store.key := value];
      Append(load.token, Some(a), load.store, value);
    }

    /** The current load installs its store with `value`, and writes it back when told to. */
    method Install(g: Guard, settings: Scope, a: nat, value: S, writeBack: bool)
      requires Valid(g) && a in loads && loads[a].pc.Read? && MayAdopt(View(), g, settings, a)
      requires writeBack || loads[a].pc.result == Loaded(value)
      modifies this
      ensures Valid(g) && View() == Adopt(old(View()), a, value, writeBack)
      ensures store == Some(old(loads)[a].store) && healthy == !writeBack
    {
      if writeBack {
        InstallAndWrite(g, settings, a, value);
      } else {
        InstallLoaded(g, settings, a, value);
      }
    }

    /**
     * The code after `loadWithStatus`: a stale load is dropped, a corrupt record
     * latches its key, a failed read detaches, and anything else installs the
     * store with `value` (the merge of what was read with memory).
     */
    method OnLoaded(g: Guard, settings: Scope, a: nat, value: S, writeBack: bool) returns (adopted: bool)
      requires Valid(g) && a in loads && loads[a].pc.Read?
      requires loads[a].pc.result.Missing? ==> writeBack
      requires loads[a].pc.result.Loaded? && !writeBack ==> value == loads[a].pc.result.value
      modifies this
      ensures Valid(g)
      ensures adopted <==> MayAdopt(old(View()), g, settings, a)
                           && (old(loads)[a].pc.result.Loaded? || old(loads)[a].pc.result.Missing?)
      ensures View() == if adopted then Adopt(old(View()), a, value, writeBack) else AbandonLoad(old(View()), g, settings, a)
    {
      var load := loads[a];
      if load.pc.tail != tail || !IsCurrent(g, load.token, settings) || a != attempts {
        AbandonLoadKeepsLane(View(), g, settings, a);
        loads := loads - {a};
        return false;
      }
      if load.pc.result.Corrupt? {
        AbandonLoadKeepsLane(View(), g, settings, a);
        loads, corrupt := loads - {a}, corrupt + {load.store.key};
        return false;
      }
      if load.pc.result.Unreadable? {
        AbandonLoadKeepsLane(View(), g, settings, a);
        loads, healthy, store, adoptedOver := loads - {a}, false, None, None;
        return false;
      }
      Install(g, settings, a, value, writeBack);
      return true;
    }
  }
}
