/**
 * The provider-generation gate for writing remote content to disk
 * (src/runtime/remoteProjectionPolicyGate.ts).
 */
module ProjectionGate {
  import opened Wrappers

  /** `active` counts the filesystem primitives running under each close epoch. */
  datatype Gate = Gate(generation: nat, ready: Option<nat>, closeEpoch: nat, active: map<nat, nat>, retry: Option<nat>)

  const NEW_GATE := Gate(0, None, 0, map[], None)

  /**
   * A lease pins the generation and the close epoch it was captured in. A lease on
   * the shared control file alone does not depend on the gate being open.
   */
  datatype Lease = Lease(generation: nat, closeEpoch: nat, controlOnly: bool)

  function Active(g: Gate, epoch: nat): nat {
    if epoch in g.active then g.active[epoch] else 0
  }

  predicate HasStale(g: Gate) {
    exists e :: e in g.active && e != g.closeEpoch && g.active[e] > 0
  }

  predicate IsOpen(g: Gate) {
    g.ready == Some(g.generation)
  }

  predicate IsLeaseCurrent(g: Gate, lease: Lease) {
    lease.generation == g.generation && lease.closeEpoch == g.closeEpoch && (lease.controlOnly || IsOpen(g))
  }

  function Close(g: Gate, generation: nat): Gate {
    if generation < g.generation then g
    else g.(generation := generation, ready := None, closeEpoch := g.closeEpoch + 1, retry := None)
  }

  datatype Opening = Opening(gate: Gate, ok: bool)

  function Open(g: Gate, generation: nat): Opening {
    if generation != g.generation then Opening(g, false)
    else if HasStale(g) then Opening(g.(ready := None, retry := Some(g.closeEpoch)), false)
    else Opening(g.(ready := Some(generation), retry := None), true)
  }

  function Enter(g: Gate, lease: Lease): Opening {
    if !IsLeaseCurrent(g, lease) then Opening(g, false)
    else Opening(g.(active := g.active[lease.closeEpoch := Active(g, lease.closeEpoch) + 1]), true)
  }

  /** The release of one primitive; it may run a deferred opening again. */
  function Release(g: Gate, epoch: nat): Opening
    requires Active(g, epoch) > 0
  {
    var active := if g.active[epoch] > 1 then g.active[epoch := g.active[epoch] - 1] else g.active - {epoch};
    var g1 := g.(active := active);
    if g1.retry == Some(g1.closeEpoch) && !HasStale(g1) then Opening(g1.(retry := None), true) else Opening(g1, false)
  }

  /** An open gate admits only its own generation, and no primitive of an older close epoch still runs. */
  predicate GateInv(g: Gate) {
    g.ready.Some? ==> IsOpen(g) && !HasStale(g)
  }

  lemma GateStepsKeepInv(g: Gate, generation: nat, lease: Lease, epoch: nat)
    requires GateInv(g)
    ensures GateInv(Close(g, generation)) && GateInv(Open(g, generation).gate) && GateInv(Enter(g, lease).gate)
    ensures Active(g, epoch) > 0 ==> GateInv(Release(g, epoch).gate)
  {
  }

  /** Events of a gate in one run. */
  datatype GateEvent = Closes(generation: nat) | Opens(generation: nat) | Enters(lease: Lease) | Releases(epoch: nat)

  function GateStep(g: Gate, e: GateEvent): Gate {
    match e
    case Closes(generation) => Close(g, generation)
    case Opens(generation) => Open(g, generation).gate
    case Enters(lease) => Enter(g, lease).gate
    case Releases(epoch) => if Active(g, epoch) > 0 then Release(g, epoch).gate else g
  }

  function GateRun(g: Gate, es: seq<GateEvent>): Gate
    decreases |es|
  {
    if es == [] then g else GateRun(GateStep(g, es[0]), es[1..])
  }

  /** The close that invalidated a lease, if any, came with a newer epoch that never goes back. */
  lemma {:induction false} EpochNeverReturns(g: Gate, es: seq<GateEvent>)
    ensures GateRun(g, es).closeEpoch >= g.closeEpoch && GateRun(g, es).generation >= g.generation
    decreases |es|
  {
    if es != [] {
      EpochNeverReturns(GateStep(g, es[0]), es[1..]);
    }
  }

  /** Closing ends every lease for good: it stays stale when the same generation opens again. */
  lemma ClosedLeasesStayStale(g: Gate, lease: Lease, generation: nat, es: seq<GateEvent>)
    requires generation >= g.generation && lease.closeEpoch <= g.closeEpoch
    ensures !IsLeaseCurrent(GateRun(Close(g, generation), es), lease)
  {
    EpochNeverReturns(Close(g, generation), es);
  }

  lemma {:induction false} GateRunKeepsInv(g: Gate, es: seq<GateEvent>)
    requires GateInv(g)
    ensures GateInv(GateRun(g, es))
    decreases |es|
  {
    if es != [] {
      var epoch := if es[0].Releases? then es[0].epoch else 0;
      var generation := if es[0].Closes? || es[0].Opens? then es[0].generation else 0;
      GateStepsKeepInv(g, generation, if es[0].Enters? then es[0].lease else Lease(0, 0, false), epoch);
      GateRunKeepsInv(GateStep(g, es[0]), es[1..]);
    }
  }

  // ---------------------------------------------------------------------------
  // What each operation decides
  // ---------------------------------------------------------------------------

  /** The gate but for what runs and what waits. */
  predicate IsSameGate(g: Gate, h: Gate) {
    h.generation == g.generation && h.ready == g.ready && h.closeEpoch == g.closeEpoch
  }

  /** Nothing admitted under another close epoch still runs. */
  ghost predicate IsDrained(g: Gate) {
    forall epoch :: epoch != g.closeEpoch ==> Active(g, epoch) == 0
  }

  lemma DrainedIff(g: Gate)
    ensures IsDrained(g) <==> !HasStale(g)
  {
    if HasStale(g) {
      var epoch :| epoch in g.active && epoch != g.closeEpoch && g.active[epoch] > 0;
      assert Active(g, epoch) > 0;
    }
  }

  /** A new or repeated generation closes the gate and ends what waited; an older one is ignored. */
  lemma ClosesIff(g: Gate, generation: nat)
    ensures var h := Close(g, generation);
            if generation < g.generation then h == g
            else && h.generation == generation && h.ready == None && h.retry == None
                 && h.closeEpoch == g.closeEpoch + 1 && h.active == g.active
  {
  }

  /**
   * The gate opens exactly for its own generation with nothing of an older epoch
   * running. While something of an older epoch runs, an opening of its generation
   * closes the gate and waits.
   */
  lemma OpensIff(g: Gate, generation: nat)
    ensures var o := Open(g, generation);
            && (o.ok <==> generation == g.generation && IsDrained(g))
            && o.gate.generation == g.generation && o.gate.closeEpoch == g.closeEpoch && o.gate.active == g.active
            && (o.ok ==> IsOpen(o.gate) && o.gate.retry == None)
            && (!o.ok && generation == g.generation ==> o.gate.ready == None && o.gate.retry == Some(g.closeEpoch))
            && (generation != g.generation ==> o.gate == g)
  {
    DrainedIff(g);
  }

  /**
   * A primitive enters exactly under the generation and close epoch of its lease
   * and, beyond the control file, only while the gate is open. Then one more runs
   * under that epoch, and nothing else changes.
   */
  lemma EntersIff(g: Gate, lease: Lease)
    ensures var o := Enter(g, lease);
            && (o.ok <==> && lease.generation == g.generation && lease.closeEpoch == g.closeEpoch
                          && (lease.controlOnly || g.ready == Some(g.generation)))
            && IsSameGate(g, o.gate) && o.gate.retry == g.retry
            && forall epoch ::
                 Active(o.gate, epoch) == Active(g, epoch) + if o.ok && epoch == lease.closeEpoch then 1 else 0
  {
  }

  /**
   * A release ends one primitive of its epoch. It runs the deferred opening exactly
   * when one waits since the last close and the last primitive of the older epochs
   * is gone with it; it then no longer waits, and opening again succeeds.
   */
  lemma ResumesIff(g: Gate, epoch: nat)
    requires Active(g, epoch) > 0
    ensures var o := Release(g, epoch);
            && IsSameGate(g, o.gate)
            && (forall e :: Active(o.gate, e) == Active(g, e) - if e == epoch then 1 else 0)
            && (o.ok <==> g.retry == Some(g.closeEpoch) && IsDrained(o.gate))
            && o.gate.retry == (if o.ok then None else g.retry)
            && (o.ok ==> Open(o.gate, g.generation).ok)
  {
    var o := Release(g, epoch);
    DrainedIff(o.gate);
    var h := o.gate.(retry := g.retry);
    assert HasStale(h) <==> HasStale(o.gate);
  }

  /** Leaving undoes entering: the same primitives run, and an open gate stays as it was. */
  lemma LeavingUndoesEntering(g: Gate, lease: Lease)
    requires Enter(g, lease).ok && g.retry == None
    ensures var entered := Enter(g, lease).gate;
            Active(entered, lease.closeEpoch) > 0
            && var left := Release(entered, lease.closeEpoch);
               && !left.ok && IsSameGate(g, left.gate) && left.gate.retry == None
               && forall epoch :: Active(left.gate, epoch) == Active(g, epoch)
  {
    EntersIff(g, lease);
    ResumesIff(Enter(g, lease).gate, lease.closeEpoch);
  }

  class RemoteProjectionPolicyGate {
    var generation: nat
    var ready: Option<nat>
    var closeEpoch: nat
    var active: map<nat, nat>
    var retry: Option<nat>

    function View(): Gate
      reads this
    {
      Gate(generation, ready, closeEpoch, active, retry)
    }

    constructor ()
      ensures View() == NEW_GATE && GateInv(View())
    {
      generation, ready, closeEpoch, active, retry := 0, None, 0, map[], None;
    }

    method DoClose(newGeneration: nat)
      requires GateInv(View())
      modifies this
      ensures View() == Close(old(View()), newGeneration) && GateInv(View())
    {
      if newGeneration < generation {
        return;
      }
      generation, ready, closeEpoch, retry := newGeneration, None, closeEpoch + 1, None;
    }

    /** The loop of `hasStaleCriticalSections`. */
    method FindsStale() returns (stale: bool)
      ensures stale == HasStale(View())
    {
      var todo := active.Keys;
      while todo != {}
        invariant todo <= active.Keys
        invariant forall e :: e in active && e !in todo ==> e == closeEpoch || active[e] == 0
        decreases todo
      {
        var e :| e in todo;
        todo := todo - {e};
        if active[e] > 0 && e != closeEpoch {
          return true;
        }
      }
      return false;
    }

    method DoOpen(wanted: nat) returns (ok: bool)
      requires GateInv(View())
      modifies this
      ensures Opening(View(), ok) == Open(old(View()), wanted) && GateInv(View())
    {
      if wanted != generation {
        return false;
      }
      var stale := FindsStale();
      if stale {
        ready, retry := None, Some(closeEpoch);
        return false;
      }
      ready, retry := Some(wanted), None;
      return true;
    }

    method DoEnter(lease: Lease) returns (entered: bool)
      requires GateInv(View())
      modifies this
      ensures Opening(View(), entered) == Enter(old(View()), lease) && GateInv(View())
    {
      GateStepsKeepInv(View(), 0, lease, 0);
      if !(lease.generation == generation && lease.closeEpoch == closeEpoch
           && (lease.controlOnly || ready == Some(generation))) {
        return false;
      }
      active := active[lease.closeEpoch := Active(View(), lease.closeEpoch) + 1];
      return true;
    }

    /** Answers whether the callback of a deferred opening runs now. */
    method DoRelease(epoch: nat) returns (resumes: bool)
      requires GateInv(View()) && Active(View(), epoch) > 0
      modifies this
      ensures Opening(View(), resumes) == Release(old(View()), epoch) && GateInv(View())
    {
      GateStepsKeepInv(View(), 0, Lease(0, 0, false), epoch);
      var remaining := active[epoch] - 1;
      if remaining > 0 {
        active := active[epoch := remaining];
      } else {
        active := active - {epoch};
      }
      var stale := FindsStale();
      if retry != Some(closeEpoch) || stale {
        return false;
      }
      retry := None;
      return true;
    }
  }
}
