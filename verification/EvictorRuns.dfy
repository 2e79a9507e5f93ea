/** Theorems about whole runs of the evictor. */
module EvictorRuns {
  import opened EvictorTypes
  import opened EvictorSections
  import opened EvictorMachine
  import opened EvictorInvariant
  import opened EvictorPreservation
  import opened EvictorRefinement
  import opened PlainMap

  datatype Run<E> = Run(states: seq<Machine<E>>, steps: seq<Step<E>>)

  /** Step `i` is enabled and leads to the next state. */
  ghost predicate StepAt<E>(r: Run<E>, i: nat) {
    && |r.states| == |r.steps| + 1 && i < |r.steps|
    && Enabled(r.states[i], r.steps[i]) && r.states[i + 1] == Apply(r.states[i], r.steps[i])
  }

  /** A run starts in an initial state and takes enabled steps, of any threads in any order. */
  ghost predicate IsRun<E>(r: Run<E>) {
    && |r.states| == |r.steps| + 1
    && Init(r.states[0])
    && forall i: nat {:trigger StepAt(r, i)} :: i < |r.steps| ==> StepAt(r, i)
  }

  lemma {:induction false} RunInv<E>(r: Run<E>, i: nat)
    requires IsRun(r) && i < |r.states|
    ensures Inv(r.states[i])
  {
    if i == 0 {
      InitInv(r.states[0]);
    } else {
      RunInv(r, i - 1);
      assert StepAt(r, i - 1);
      StepInv(r.states[i - 1], r.steps[i - 1]);
    }
  }

  /** Along every run the evictor behaves, event by event, as one plain map that starts as the database. */
  lemma RunRefines<E>(r: Run<E>)
    requires IsRun(r)
    ensures Abstract(r.states[0]) == Plain(r.states[0].db, map[])
    ensures forall i :: 0 <= i < |r.steps| ==>
      StepAt(r, i) && Accepts(Abstract(r.states[i]), EventOf(r.states[i], r.steps[i]), Abstract(r.states[i + 1]))
  {
    var s := r.states[0];
    forall k ensures Get(Objects(s), k) == Get(s.db, k) {
      AbstractAt(s, k);
    }
    SameMap(Objects(s), s.db);
    forall i | 0 <= i < |r.steps|
      ensures StepAt(r, i) && Accepts(Abstract(r.states[i]), EventOf(r.states[i], r.steps[i]), Abstract(r.states[i + 1]))
    {
      assert StepAt(r, i);
      RunInv(r, i);
      StepRefines(r.states[i], r.steps[i]);
    }
  }

  /** Over any run no strict write fails: the saving thread is never killed by a database error. */
  lemma RunNeverFails<E>(r: Run<E>, i: nat)
    requires IsRun(r) && i < |r.states|
    ensures !r.states[i].saver.phase.Failed?
    ensures SaveAll(r.states[i].db, r.states[i].saver.pending).Some?
    ensures i < |r.steps| && r.steps[i].Commit? ==>
      SaveAll(r.states[i].db, r.states[i].saver.pending[..Min(r.states[i].saver.txSize, |r.states[i].saver.pending|)]).Some?
  {
    RunInv(r, i);
    if i < |r.steps| && r.steps[i].Commit? {
      assert StepAt(r, i);
      CommitShape(r.states[i]);
    }
  }

  /** Usage counts are conserved in every reachable state. */
  lemma UsageConserved<E>(r: Run<E>, i: nat, e: E)
    requires IsRun(r) && i < |r.states| && e in r.states[i].sh.elems
    ensures var s := r.states[i];
      var x := s.sh.elems[e];
      && (!x.stale && x.usage >= 0 ==> x.usage == multiset(s.sh.queue)[e] + multiset(s.saver.batch)[e] + Cookies(s.threads, e))
      && (x.stale ==> e !in s.sh.queue && e !in s.saver.batch && Cookies(s.threads, e) == 0)
      && (!x.stale && Dirty(x.status) ==> x.usage >= 1)
  {
    RunInv(r, i);
    var s := r.states[i];
    assert ElementOK(Observe(s, e));
    if !s.sh.elems[e].stale && Dirty(s.sh.elems[e].status) && Owners(s, e) == 0 {
      IdleUnloaned(s, e);
    }
  }

  /** A kept object exists, is pinned and is outside the evictor list. */
  lemma KeptSafe<E>(r: Run<E>, i: nat, e: E)
    requires IsRun(r) && i < |r.states| && e in r.states[i].sh.elems && r.states[i].sh.elems[e].keep > 0
    ensures var s := r.states[i];
      && Present(s.sh.elems[e].status) && s.sh.elems[e].servant.Some?
      && !s.sh.elems[e].stale && IfPinned(s.sh, s.sh.elems[e].key) == Some(e) && e !in s.sh.list
  {
    RunInv(r, i);
    assert ElementOK(Observe(r.states[i], e));
  }

  /** A thread whose element was evicted after it pinned it sees a stale element and goes back to pinning. */
  lemma StaleRetries<E>(r: Run<E>, i: nat)
    requires IsRun(r) && StepAt(r, i) && r.steps[i].Section?
    ensures var s, t := r.states[i], r.steps[i].t;
      var op, e := PcOf(s, t).op, PcOf(s, t).e;
      && (s.sh.elems[e].stale <==> IfPinned(s.sh, op.key) != Some(e))
      && (s.sh.elems[e].stale ==> r.states[i + 1] == SetPc(s, t, Pinning(op)))
  {
    RunInv(r, i);
    var s, t := r.states[i], r.steps[i].t;
    assert PcOK(s, t, s.threads[t]);
    assert ElementOK(Observe(s, PcOf(s, t).e));
  }

  /** Steps that clients see an event of evict nothing. */
  lemma VisibleKeepsPinned<E>(s: Machine<E>, a: Step<E>, k: Key)
    requires Inv(s) && Enabled(s, a) && !Hidden(a) && IfPinned(s.sh, k).Some?
    ensures IfPinned(Apply(s, a).sh, k).Some?
  {
    if a.Install? {
      assert PcOK(s, a.t, s.threads[a.t]);
    } else if a.Section? {
      SectionKeepsCache(s, a.t);
    } else {
      AnswerKeepsCache(s, a);
    }
  }

  lemma AnswerKeepsCache<E>(s: Machine<E>, a: Step<E>)
    requires Enabled(s, a) && (a.Call? || a.ReleaseCall? || a.HasCall? || a.Mutate?)
    ensures Apply(s, a).sh.cache == s.sh.cache
  {
  }

  lemma SectionKeepsCache<E>(s: Machine<E>, t: nat)
    requires Enabled(s, Section(t))
    ensures Apply(s, Section(t)).sh.cache == s.sh.cache
  {
    var e, op := PcOf(s, t).e, PcOf(s, t).op;
    assert Touch(s.sh, e).cache == s.sh.cache;
    assert Apply(s, Section(t)) == SectionStep(s, t);
  }

  /** When an object's element is evicted, the database already holds exactly what clients saw of the object. */
  lemma EvictedIsSaved<E>(r: Run<E>, i: nat, k: Key)
    requires IsRun(r) && i < |r.steps|
    requires IfPinned(r.states[i].sh, k).Some? && IfPinned(r.states[i + 1].sh, k).None?
    ensures Get(r.states[i + 1].db, k) == Get(Abstract(r.states[i]).objects, k)
  {
    RunInv(r, i);
    var s, a := r.states[i], r.steps[i];
    assert StepAt(r, i);
    if !Hidden(a) {
      VisibleKeepsPinned(s, a, k);
    } else {
      HiddenView(s, a);
      AbstractAt(s, k);
      assert View(r.states[i + 1], k) == View(s, k);
    }
  }

  /****** The assertions in the source ******/

  /** finished: the element is not stale and its usage count is at least the cookie's. */
  lemma FinishedAsserts<E>(r: Run<E>, i: nat)
    requires IsRun(r) && StepAt(r, i) && r.steps[i].FinishLock?
    ensures var x := r.states[i].sh.elems[PcOf(r.states[i], r.steps[i].t).e]; !x.stale && x.usage >= 1
  {
    RunInv(r, i);
    var s, t := r.states[i], r.steps[i].t;
    var e := PcOf(s, t).e;
    assert t in CookieThreads(s.threads, e);
    assert ElementOK(Observe(s, e));
  }

  /** run: when the saving thread leaves, the modified queue is empty and nobody waits in saveNow. */
  lemma ExitAsserts<E>(r: Run<E>, i: nat)
    requires IsRun(r) && i < |r.steps| && r.steps[i].Exit?
    ensures r.states[i].sh.queue == [] && r.states[i].sh.waiters == []
  {
    assert StepAt(r, i);
    RunInv(r, i);
  }

  /** From the moment a thread has been told to deactivate, no thread is inside a guarded operation. */
  lemma DeactivationExclusive<E>(r: Run<E>, i: nat, t: nat)
    requires IsRun(r) && i < |r.states|
    requires r.states[i].gate.Saving? || r.states[i].gate.Stopping? || r.states[i].gate.Closed?
    ensures !InGuard(PcOf(r.states[i], t))
  {
    RunInv(r, i);
  }

  /** evict: an element taken from the list by the scan is not stale and not kept. */
  lemma EvictAsserts<E>(r: Run<E>, i: nat, e: E)
    requires IsRun(r) && i < |r.states| && e in r.states[i].sh.list
    ensures var s := r.states[i]; e in s.sh.elems && !s.sh.elems[e].stale && s.sh.elems[e].keep == 0
    ensures r.states[i].sh.size == |r.states[i].sh.list|
  {
    RunInv(r, i);
    assert ElementOK(Observe(r.states[i], e));
  }
}
