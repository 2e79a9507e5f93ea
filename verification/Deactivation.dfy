/**
 DeactivateController: guards keep the evictor alive while operations run; the first thread to call
 deactivate waits for them to go and is told to do the deactivation; all others are told, in the end, not to.
 The sections under the controller's lock are methods of the class; the machine interleaves them.
 */
module Deactivation {
  import opened EvictorTypes

  datatype Flags = Flags(deactivating: bool, deactivated: bool, guardCount: int)

  /** Where a thread is: `Draining` and `Waiting` are the two waits inside deactivate. */
  datatype Pc = Outside | Guarded | Draining | Waiting | Owner

  /** `granted` counts how often deactivate has returned true. */
  datatype Machine = Machine(flags: Flags, threads: map<nat, Pc>, granted: nat)

  datatype Step = Enter(t: nat) | Leave(t: nat) | Deactivate(t: nat) | Drained(t: nat) | Woken(t: nat) | Complete(t: nat)

  /****** Sections ******/

  /** Guard's constructor; None is EvictorDeactivatedException. */
  function Entered(f: Flags): Option<Flags> {
    if f.deactivated || f.deactivating then None else Some(f.(guardCount := f.guardCount + 1))
  }

  function Left(f: Flags): Flags {
    f.(guardCount := f.guardCount - 1)
  }

  function Completed(f: Flags): Flags {
    f.(deactivated := true, deactivating := false)
  }

  class DeactivateController {
    var deactivating: bool
    var deactivated: bool
    var guardCount: int

    constructor ()
      ensures Model() == Flags(false, false, 0)
    {
      deactivating, deactivated, guardCount := false, false, 0;
    }

    ghost function Model(): Flags
      reads this
    {
      Flags(deactivating, deactivated, guardCount)
    }

    method EnterGuard() returns (ok: bool)
      modifies this
      ensures ok == Entered(old(Model())).Some? && Model() == if ok then Entered(old(Model())).value else old(Model())
      ensures ok == !(old(deactivating) || old(deactivated)) && guardCount == old(guardCount) + if ok then 1 else 0
    {
      ok := !(deactivated || deactivating);
      if ok {
        guardCount := guardCount + 1;
      }
    }

    /** The result says whether waiting threads are notified. */
    method LeaveGuard() returns (notify: bool)
      modifies this
      ensures Model() == Left(old(Model())) && notify == (deactivating && guardCount == 0)
    {
      guardCount := guardCount - 1;
      notify := deactivating && guardCount == 0;
    }

    /** deactivate up to its first wait: where the thread goes. */
    method BeginDeactivate() returns (pc: Pc)
      modifies this
      ensures pc.Outside? <==> old(deactivated)
      ensures pc.Draining? <==> !old(deactivated) && !old(deactivating)
      ensures pc == Begun(old(Model())) && Model() == if pc.Draining? then old(Model()).(deactivating := true) else old(Model())
    {
      if deactivated {
        return Outside;
      }
      if deactivating {
        return Waiting;
      }
      deactivating := true;
      pc := Draining;
    }

    method DeactivationComplete()
      modifies this
      ensures Model() == Completed(old(Model()))
    {
      deactivated, deactivating := true, false;
    }
  }

  function Begun(f: Flags): Pc {
    if f.deactivated then Outside else if f.deactivating then Waiting else Draining
  }

  /****** The machine ******/

  function PcOf(s: Machine, t: nat): Pc {
    if t in s.threads then s.threads[t] else Outside
  }

  function Move(s: Machine, f: Flags, t: nat, pc: Pc): Machine {
    s.(flags := f, threads := s.threads[t := pc])
  }

  ghost predicate Enabled(s: Machine, a: Step) {
    var f, pc := s.flags, PcOf(s, a.t);
    match a
    case Enter(_) => pc.Outside?
    case Leave(_) => pc.Guarded?
    case Deactivate(_) => pc.Outside?
    case Drained(_) => pc.Draining? && f.guardCount <= 0
    case Woken(_) => pc.Waiting? && f.deactivated
    case Complete(_) => pc.Owner?
  }

  ghost function Apply(s: Machine, a: Step): Machine
    requires Enabled(s, a)
  {
    var f := s.flags;
    match a
    case Enter(t) => if Entered(f).None? then s else Move(s, Entered(f).value, t, Guarded)
    case Leave(t) => Move(s, Left(f), t, Outside)
    case Deactivate(t) => Move(s, if Begun(f).Draining? then f.(deactivating := true) else f, t, Begun(f))
    case Drained(t) => Move(s, f, t, Owner).(granted := s.granted + 1)
    case Woken(t) => Move(s, f, t, Outside)
    case Complete(t) => Move(s, Completed(f), t, Outside)
  }

  ghost function At(threads: map<nat, Pc>, pc: Pc): set<nat> {
    set t | t in threads && threads[t] == pc
  }

  lemma AtAfter(threads: map<nat, Pc>, t: nat, to: Pc, pc: Pc)
    ensures |At(threads[t := to], pc)|
            == |At(threads, pc)| - (if t in threads && threads[t] == pc then 1 else 0) + (if to == pc then 1 else 0)
  {
    var a := At(threads, pc);
    assert At(threads[t := to], pc) == if to == pc then a + {t} else a - {t};
  }

  /** The guard count is the threads in a guard; one thread at most is deactivating; once it owns the evictor, nobody else is in. */
  ghost predicate Inv(s: Machine) {
    var f := s.flags;
    && f.guardCount == |At(s.threads, Guarded)|
    && |At(s.threads, Draining)| + |At(s.threads, Owner)| == (if f.deactivating then 1 else 0)
    && !(f.deactivating && f.deactivated)
    && s.granted == |At(s.threads, Owner)| + (if f.deactivated then 1 else 0)
    && (s.granted > 0 ==> f.guardCount == 0)
  }

  lemma StepInv(s: Machine, a: Step)
    requires Inv(s) && Enabled(s, a)
    ensures Inv(Apply(s, a))
  {
    var to := PcOf(Apply(s, a), a.t);
    if Apply(s, a) != s {
      AtAfter(s.threads, a.t, to, Guarded);
      AtAfter(s.threads, a.t, to, Draining);
      AtAfter(s.threads, a.t, to, Owner);
    }
    if PcOf(s, a.t).Guarded? {
      assert a.t in At(s.threads, Guarded);
    }
    if PcOf(s, a.t).Draining? {
      assert a.t in At(s.threads, Draining);
    }
    if PcOf(s, a.t).Owner? {
      assert a.t in At(s.threads, Owner);
    }
  }

  datatype Run = Run(states: seq<Machine>, steps: seq<Step>)

  ghost predicate IsRun(r: Run) {
    && |r.states| == |r.steps| + 1 && r.states[0] == Machine(Flags(false, false, 0), map[], 0)
    && forall i :: 0 <= i < |r.steps| ==> Enabled(r.states[i], r.steps[i]) && r.states[i + 1] == Apply(r.states[i], r.steps[i])
  }

  lemma {:induction false} RunInv(r: Run, i: nat)
    requires IsRun(r) && i < |r.states|
    ensures Inv(r.states[i])
  {
    if i == 0 {
      assert forall pc :: At(map[], pc) == {};
    } else {
      RunInv(r, i - 1);
      StepInv(r.states[i - 1], r.steps[i - 1]);
    }
  }

  /** Over any run deactivate returns true at most once. */
  lemma OneDeactivator(r: Run, i: nat)
    requires IsRun(r) && i < |r.states|
    ensures r.states[i].granted <= 1
  {
    RunInv(r, i);
    var s := r.states[i];
    assert |At(s.threads, Draining)| >= 0;
  }

  /** Once granted, deactivation stays granted, nobody is in a guard and no new guard succeeds, for the rest of the run. */
  lemma {:induction false} NoGuardsAfterGrant(r: Run, i: nat, j: nat)
    requires IsRun(r) && i <= j < |r.states| && r.states[i].granted > 0
    ensures r.states[j].granted == 1 && r.states[j].flags.guardCount == 0 && At(r.states[j].threads, Guarded) == {}
    ensures Entered(r.states[j].flags).None?
  {
    RunInv(r, j);
    OneDeactivator(r, j);
    if i < j {
      NoGuardsAfterGrant(r, i, j - 1);
    }
  }

  /** A thread that waits in deactivate waits for something: guards that are still held, or another thread that is deactivating. */
  lemma WaitsForSomebody(r: Run, i: nat, t: nat)
    requires IsRun(r) && i < |r.states|
    ensures var s := r.states[i];
      && (PcOf(s, t).Draining? ==> Enabled(s, Drained(t)) || exists u :: PcOf(s, u).Guarded?)
      && (s.flags.deactivating ==> exists u :: PcOf(s, u).Draining? || PcOf(s, u).Owner?)
  {
    RunInv(r, i);
    var s := r.states[i];
    if PcOf(s, t).Draining? && s.flags.guardCount > 0 {
      var u :| u in At(s.threads, Guarded);
      assert PcOf(s, u).Guarded?;
    }
    if s.flags.deactivating {
      var u :| u in At(s.threads, Draining) + At(s.threads, Owner);
      assert PcOf(s, u).Draining? || PcOf(s, u).Owner?;
    }
  }

  lemma {:induction false} FlagsFrom(r: Run, i: nat)
    requires IsRun(r) && i < |r.states|
    ensures r.states[i].flags.deactivating || r.states[i].flags.deactivated <==> exists j :: 0 <= j < i && r.steps[j].Deactivate?
  {
    if i > 0 {
      FlagsFrom(r, i - 1);
      RunInv(r, i - 1);
      if r.steps[i - 1].Complete? {
        assert r.steps[i - 1].t in At(r.states[i - 1].threads, Owner);
      }
    }
  }

  /** Over any run a guard is refused if and only if some thread has called deactivate before. */
  lemma RefusedIffBegun(r: Run, i: nat)
    requires IsRun(r) && i < |r.states|
    ensures Entered(r.states[i].flags).None? <==> exists j :: 0 <= j < i && r.steps[j].Deactivate?
  {
    FlagsFrom(r, i);
  }

  lemma {:induction false} DeactivatedFrom(r: Run, i: nat)
    requires IsRun(r) && i < |r.states|
    ensures r.states[i].flags.deactivated <==> exists j :: 0 <= j < i && r.steps[j].Complete?
  {
    if i > 0 {
      DeactivatedFrom(r, i - 1);
    }
  }

  /**
   Over any run deactivate answers no only after the thread that was told yes has completed the deactivation, and
   of the callers the first one is never told no.
   */
  lemma NoOnlyWhenComplete(r: Run, i: nat)
    requires IsRun(r) && i < |r.steps| && (r.steps[i].Deactivate? || r.steps[i].Woken?)
    requires PcOf(r.states[i + 1], r.steps[i].t).Outside?
    ensures (exists j :: 0 <= j < i && r.steps[j].Complete?) && exists j :: 0 <= j < i && r.steps[j].Deactivate?
  {
    DeactivatedFrom(r, i);
    FlagsFrom(r, i);
  }

  /** A thread waits for another's deactivation only while there is one, and can go on once it is complete. */
  lemma WaitingWhileDeactivating(r: Run, i: nat, t: nat)
    requires IsRun(r) && i < |r.states| && PcOf(r.states[i], t).Waiting?
    ensures Enabled(r.states[i], Woken(t)) || exists u :: PcOf(r.states[i], u).Draining? || PcOf(r.states[i], u).Owner?
  {
    WaitingFlags(r, i, t);
    WaitsForSomebody(r, i, t);
  }

  lemma {:induction false} WaitingFlags(r: Run, i: nat, t: nat)
    requires IsRun(r) && i < |r.states| && PcOf(r.states[i], t).Waiting?
    ensures r.states[i].flags.deactivating || r.states[i].flags.deactivated
  {
    if i > 0 && PcOf(r.states[i - 1], t).Waiting? {
      WaitingFlags(r, i - 1, t);
    }
  }
}
