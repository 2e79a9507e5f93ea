/** Which call a thread answers, over any run: the one it was last called with, and a dispatch is that of its locate. */
module EvictorCalls {
  import opened EvictorTypes
  import opened EvictorSections
  import opened EvictorMachine
  import opened EvictorInvariant
  import opened EvictorPreservation
  import opened EvictorProgress
  import opened EvictorRuns
  import opened PlainMap

  /** A step moves no thread but its own, and the saving thread moves none. */
  lemma OtherThreads<E>(s: Machine<E>, a: Step<E>, t: nat)
    requires Enabled(s, a) && (SaverStep(a) || a.t != t)
    ensures PcOf(Apply(s, a), t) == PcOf(s, t)
  {
    if SaverStep(a) {
      SaverThreads(s, a);
    }
  }

  lemma SaverThreads<E>(s: Machine<E>, a: Step<E>)
    requires Enabled(s, a) && SaverStep(a)
    ensures Apply(s, a).threads == s.threads
  {
  }



  /** Thread `t` made the call at step `j`, and has made no other before step `i`. */
  ghost predicate LastCall<E>(r: Run<E>, j: nat, i: nat, t: nat, op: Op) {
    && j < i <= |r.steps| && r.steps[j] == Call(t, op)
    && forall n :: j < n < i && r.steps[n].Call? ==> r.steps[n].t != t
  }

  ghost predicate Serving<E>(pc: Pc<E>) {
    pc.Pinning? || pc.Loading? || pc.Loaded? || pc.Locking?
  }

  lemma ServingStep<E>(s: Machine<E>, a: Step<E>, t: nat)
    requires Enabled(s, a) && Serving(PcOf(Apply(s, a), t))
    ensures if a.Call? && a.t == t then PcOf(Apply(s, a), t).op == a.op
            else Serving(PcOf(s, t)) && PcOf(s, t).op == PcOf(Apply(s, a), t).op
  {
    if SaverStep(a) || a.t != t {
      OtherThreads(s, a, t);
    } else {
      OwnServing(s, a);
    }
  }

  lemma OwnServing<E>(s: Machine<E>, a: Step<E>)
    requires Enabled(s, a) && !SaverStep(a) && Serving(PcOf(Apply(s, a), a.t))
    ensures if a.Call? then PcOf(Apply(s, a), a.t).op == a.op
            else Serving(PcOf(s, a.t)) && PcOf(s, a.t).op == PcOf(Apply(s, a), a.t).op
  {
  }

  /** The operation a thread is carrying out is the one it was last called with. */
  lemma {:induction false} ServesLastCall<E>(r: Run<E>, i: nat, t: nat)
    requires IsRun(r) && i < |r.states| && Serving(PcOf(r.states[i], t))
    ensures exists j: nat :: LastCall(r, j, i, t, PcOf(r.states[i], t).op)
  {
    if i > 0 {
      var a := r.steps[i - 1];
      assert StepAt(r, i - 1);
      ServingStep(r.states[i - 1], a, t);
      if a.Call? && a.t == t {
        assert LastCall(r, i - 1, i, t, a.op);
      } else {
        ServesLastCall(r, i - 1, t);
        var j: nat :| LastCall(r, j, i - 1, t, PcOf(r.states[i], t).op);
        assert LastCall(r, j, i, t, PcOf(r.states[i], t).op);
      }
    }
  }

  /** The event is an answer to the operation. */
  ghost predicate AnswerTo(op: Op, ev: Event) {
    match op
    case AddOp(k, sv) => ev.Added? && ev.key == k && ev.state == sv.state
    case CreateOp(k, sv) => ev.CreatedOrUpdated? && ev.key == k && ev.state == sv.state
    case RemoveOp(k) => ev.Removed? && ev.key == k
    case KeepOp(k) => ev.Kept? && ev.key == k
    case LocateOp(k, _) => ev.Located? && ev.key == k
  }

  /** Stores are opened and never closed. */
  lemma StoresGrow<E>(s: Machine<E>, a: Step<E>)
    requires Enabled(s, a)
    ensures Apply(s, a).sh.stores >= s.sh.stores
  {
    if MayEvict(a) {
      EvictingShape(s, a);
      EvictScanFrame(BeforeScan(s, a), |BeforeScan(s, a).list|);
    } else if a.Release? {
      var c := ReleaseCounts(s.sh, s.saver.batch);
      EvictDeadFrame(c, s.saver.dead);
      EvictScanFrame(EvictDead(c, s.saver.dead), |EvictDead(c, s.saver.dead).list|);
    } else if a.Section? {
      SectionStores(s, a.t);
    } else {
      SmallStepStores(s, a);
    }
  }

  lemma SectionStores<E>(s: Machine<E>, t: nat)
    requires Enabled(s, Section(t))
    ensures SectionStep(s, t).sh.stores == s.sh.stores
  {
    assert Touch(s.sh, PcOf(s, t).e).stores == s.sh.stores;
  }

  lemma SmallStepStores<E>(s: Machine<E>, a: Step<E>)
    requires Enabled(s, a) && !MayEvict(a) && !a.Release? && !a.Section?
    ensures Apply(s, a).sh.stores >= s.sh.stores
  {
  }

  lemma {:induction false} DefaultStoreOpen<E>(r: Run<E>, i: nat)
    requires IsRun(r) && i < |r.states|
    ensures "" in r.states[i].sh.stores
  {
    if i > 0 {
      DefaultStoreOpen(r, i - 1);
      assert StepAt(r, i - 1);
      StoresGrow(r.states[i - 1], r.steps[i - 1]);
    }
  }

  lemma CallTakenUp<E>(s: Machine<E>, t: nat, op: Op)
    requires Enabled(s, Call(t, op)) && "" in s.sh.stores
    ensures var s' := Apply(s, Call(t, op));
      if Serving(PcOf(s', t)) then PcOf(s', t).op == op
      else op.key.facet !in s.sh.stores && AnswerTo(op, EventOf(s, Call(t, op)))
  {
  }

  /** No call is lost: it is answered at once, because its store does not exist, or taken up; */
  lemma CallIsTakenUp<E>(r: Run<E>, i: nat)
    requires IsRun(r) && StepAt(r, i) && r.steps[i].Call?
    ensures var s, t, op := r.states[i], r.steps[i].t, r.steps[i].op;
      if Serving(PcOf(r.states[i + 1], t)) then PcOf(r.states[i + 1], t).op == op
      else op.key.facet !in s.sh.stores && AnswerTo(op, EventOf(s, r.steps[i]))
  {
    DefaultStoreOpen(r, i);
    CallTakenUp(r.states[i], r.steps[i].t, r.steps[i].op);
  }

  /** and what was taken up ends with an answer, unless loading threw. */
  lemma AnsweredOnLeaving<E>(s: Machine<E>, a: Step<E>)
    requires Inv(s) && Enabled(s, a) && !SaverStep(a) && Serving(PcOf(s, a.t)) && !Serving(PcOf(Apply(s, a), a.t))
    ensures a.LoadFail? || AnswerTo(PcOf(s, a.t).op, EventOf(s, a))
  {
    assert PcOK(s, a.t, s.threads[a.t]);
  }

  /** A dispatch as it begins: the section of a locate for it, on an element with that servant. */
  ghost predicate Begins<E>(s: Machine<E>, a: Step<E>, t: nat, pc: Pc<E>) {
    && pc.Holding? && a == Section(t) && PcOf(s, t).Locking? && PcOf(s, t).e == pc.e && pc.e in s.sh.elems
    && PcOf(s, t).op.LocateOp? && PcOf(s, t).op.mutating == pc.mutating
    && var x := s.sh.elems[pc.e];
       !x.stale && Present(x.status) && x.servant.Some? && x.servant.value.oid == pc.oid
  }

  /** A locate that answers with an object begins a dispatch to it. */
  lemma LocateBegins<E>(s: Machine<E>, t: nat)
    requires Inv(s) && Enabled(s, Section(t)) && PcOf(s, t).op.LocateOp?
    ensures var ev := EventOf(s, Section(t));
      ev.Located? && ev.found.Some? <==> Begins(s, Section(t), t, PcOf(Apply(s, Section(t)), t))
  {
    assert ElementOK(Observe(s, PcOf(s, t).e));
  }

  lemma HoldingStep<E>(s: Machine<E>, a: Step<E>, t: nat)
    requires Enabled(s, a) && PcOf(Apply(s, a), t).Holding?
    ensures PcOf(s, t) == PcOf(Apply(s, a), t) || Begins(s, a, t, PcOf(Apply(s, a), t))
  {
    if SaverStep(a) || a.t != t {
      OtherThreads(s, a, t);
    } else {
      OwnHolding(s, a);
    }
  }

  lemma OwnHolding<E>(s: Machine<E>, a: Step<E>)
    requires Enabled(s, a) && !SaverStep(a) && PcOf(Apply(s, a), a.t).Holding?
    ensures PcOf(s, a.t) == PcOf(Apply(s, a), a.t) || Begins(s, a, a.t, PcOf(Apply(s, a), a.t))
  {
  }

  /** A thread that dispatches was let in by a locate, with its mutating flag and the servant it was given. */
  lemma {:induction false} DispatchOfLocate<E>(r: Run<E>, i: nat, t: nat)
    requires IsRun(r) && i < |r.states| && PcOf(r.states[i], t).Holding?
    ensures exists j :: 0 <= j < i && Begins(r.states[j], r.steps[j], t, PcOf(r.states[i], t))
  {
    if i > 0 {
      assert StepAt(r, i - 1);
      HoldingStep(r.states[i - 1], r.steps[i - 1], t);
      if PcOf(r.states[i - 1], t) == PcOf(r.states[i], t) {
        DispatchOfLocate(r, i - 1, t);
      }
    }
  }
}
