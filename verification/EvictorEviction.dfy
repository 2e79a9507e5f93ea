/**
 When the evictor evicts, and how much: after a finished that leaves its object idle, a new size, a saving
 round and the stop, the list is within its limit or all in use, and no unused dead element is left behind.
 */
module EvictorEviction {
  import opened EvictorTypes
  import opened EvictorSections
  import opened EvictorMachine
  import opened EvictorInvariant
  import opened EvictorPreservation
  import opened EvictionOrder
  import opened EvictorRuns
  import opened EvictorBarrier
  import opened EvictorProgress
  import opened EvictorRecency

  /**
   finished that enqueues nothing and leaves its object idle and not kept makes the list fit; in all other
   cases it leaves list and cache alone.
   */
  lemma FinishedEvicts<E>(s: Machine<E>, t: nat)
    requires Inv(s) && Enabled(s, FinishLock(t))
    ensures var e, sh' := PcOf(s, t).e, Apply(s, FinishLock(t)).sh;
      && e in sh'.elems && sh'.elems[e].keep == s.sh.elems[e].keep
      && sh'.elems[e].usage == s.sh.elems[e].usage - (if PcOf(s, t).enqueue then 0 else 1)
      && if !PcOf(s, t).enqueue && sh'.elems[e].usage == 0 && sh'.elems[e].keep == 0 then Fits(sh')
         else sh'.list == s.sh.list && sh'.cache == s.sh.cache
  {
    var e := PcOf(s, t).e;
    var u := Dropped(s.sh, e);
    ScanEffect(u, |u.list|, e);
    ScanFits(u);
  }

  /** A size that is not negative becomes the limit, and the list fits it. */
  lemma SetSizeEvicts<E>(s: Machine<E>, t: nat, n: int)
    requires Inv(s) && Enabled(s, SetSize(t, n))
    ensures var sh' := Apply(s, SetSize(t, n)).sh;
      if n >= 0 then sh'.limit == n && Fits(sh') else sh' == s.sh
  {
    if n >= 0 {
      var u := s.sh.(limit := n);
      EvictScanFrame(u, |u.list|);
      ScanFits(u);
    }
  }

  /** Deactivation evicts all that can be evicted. */
  lemma StopEvicts<E>(s: Machine<E>, t: nat)
    requires Inv(s) && Enabled(s, DeactivateStop(t))
    ensures var sh' := Apply(s, DeactivateStop(t)).sh;
      sh'.limit == 0 && forall e | e in sh'.list :: e in sh'.elems && sh'.elems[e].usage != 0
  {
    var u := s.sh.(limit := 0);
    EvictScanFrame(u, |u.list|);
    ScanFits(u);
  }

  /****** Dead elements ******/

  ghost predicate UnusedDead(x: Elem) {
    !x.stale && x.usage == 0 && x.keep == 0 && x.status.Dead?
  }

  lemma {:induction false} DeadGone<E>(sh: Shared<E>, dead: seq<E>, e: E)
    requires (forall d | d in dead :: d in sh.elems) && e in sh.elems
    ensures e in EvictDead(sh, dead).elems
    ensures e in dead || !UnusedDead(sh.elems[e]) ==> !UnusedDead(EvictDead(sh, dead).elems[e])
    decreases |dead|
  {
    if dead != [] {
      var d := dead[0];
      var t := if UnusedDead(sh.elems[d]) then EvictOne(sh, d) else sh;
      DeadGone(t, dead[1..], e);
    }
  }

  /** A saving round ends with the list fitting, and with no unused dead element on its queue of dead elements still pinned. */
  lemma ReleaseEvicts<E>(s: Machine<E>)
    requires Inv(s) && Enabled(s, Step.Release)
    ensures var sh' := Apply(s, Step.Release).sh;
      Fits(sh') && forall e | e in s.saver.dead :: e in sh'.elems && !UnusedDead(sh'.elems[e])
  {
    var c := ReleaseCounts(s.sh, s.saver.batch);
    var d := EvictDead(c, s.saver.dead);
    EvictDeadFrame(c, s.saver.dead);
    SweptList(s);
    ScanFits(d);
    forall e | e in s.saver.dead ensures e in EvictIdle(d).elems && !UnusedDead(EvictIdle(d).elems[e]) {
      DeadGone(c, s.saver.dead, e);
      ScanEffect(d, |d.list|, e);
    }
  }

  lemma SweptList<E>(s: Machine<E>)
    requires Inv(s) && Enabled(s, Step.Release)
    ensures var c := ReleaseCounts(s.sh, s.saver.batch);
      ListOK(s.(sh := EvictDead(c, s.saver.dead)))
  {
    RoundOverInv(s);
    EvictDeadInv(RoundOver(s), s.saver.dead);
  }

  /** The object never was, or is no more, in the database. */
  ghost predicate Absent(st: Status) {
    st.Created? || st.Dead?
  }

  /** Of the entries streamed so far, those whose object has no place in the database are on the queue of dead elements. */
  ghost predicate DeadListed<E>(s: Machine<E>) {
    forall i {:trigger s.saver.batch[i]} :: 0 <= i < s.saver.next && i < |s.saver.batch| ==>
      var e := s.saver.batch[i]; e in s.sh.elems && Absent(s.sh.elems[e].status) ==> e in s.saver.dead
  }

  lemma SectionAbsent<E>(s: Machine<E>, t: nat, e: E)
    requires Enabled(s, Section(t)) && e in s.sh.elems
    ensures e in SectionStep(s, t).sh.elems
    ensures Absent(SectionStep(s, t).sh.elems[e].status) ==> Absent(s.sh.elems[e].status)
  {
    var x := PcOf(s, t).e;
    match PcOf(s, t).op
    case AddOp(_, sv) => UpdateAbsent(s.sh, x, sv, e);
    case CreateOp(_, sv) => UpdateAbsent(s.sh, x, sv, e);
    case RemoveOp(_) => RemoveAbsent(s.sh, x, e);
    case KeepOp(_) =>
    case LocateOp(_, _) =>
  }

  lemma UpdateAbsent<E>(sh: Shared<E>, x: E, sv: Servant, e: E)
    requires x in sh.elems && e in sh.elems
    ensures e in AddSection(sh, x, sv).elems && (Absent(AddSection(sh, x, sv).elems[e].status) ==> Absent(sh.elems[e].status))
    ensures e in CreateSection(sh, x, sv).elems && (Absent(CreateSection(sh, x, sv).elems[e].status) ==> Absent(sh.elems[e].status))
  {
  }

  lemma RemoveAbsent<E>(sh: Shared<E>, x: E, e: E)
    requires x in sh.elems && e in sh.elems
    ensures e in RemoveSection(sh, x).elems && (Absent(RemoveSection(sh, x).elems[e].status) ==> Absent(sh.elems[e].status))
  {
    assert e in RemoveStatus(sh, x).elems && (Absent(RemoveStatus(sh, x).elems[e].status) ==> Absent(sh.elems[e].status));
  }

  /** No thread but the saving one makes an object absent that was present or being removed. */
  lemma OthersAbsent<E>(s: Machine<E>, a: Step<E>, e: E)
    requires Inv(s) && Enabled(s, a) && !SaverStep(a) && e in s.sh.elems
    ensures e in Apply(s, a).sh.elems && (Absent(Apply(s, a).sh.elems[e].status) ==> Absent(s.sh.elems[e].status))
  {
    if a.Section? {
      SectionAbsent(s, a.t, e);
    } else if MayEvict(a) {
      EvictingShape(s, a);
      ScanEffect(BeforeScan(s, a), |BeforeScan(s, a).list|, e);
    } else {
      SmallStepAbsent(s, a, e);
    }
  }

  lemma SmallStepAbsent<E>(s: Machine<E>, a: Step<E>, e: E)
    requires Enabled(s, a) && !SaverStep(a) && !a.Section? && !MayEvict(a) && e in s.sh.elems
    ensures e in Apply(s, a).sh.elems && (Absent(Apply(s, a).sh.elems[e].status) ==> Absent(s.sh.elems[e].status))
  {
  }

  lemma StreamDeadListed<E>(s: Machine<E>)
    requires DeadListed(s) && AtElement(s)
    ensures DeadListed(StreamNow(s))
  {
  }

  lemma RoundDeadListed<E>(s: Machine<E>, a: Step<E>)
    requires Enabled(s, a) && (a.Swap? || a.EndStreaming? || a.Deadlock? || a.Release? || a.Exit?) && DeadListed(s)
    ensures DeadListed(Apply(s, a))
  {
  }

  lemma DeadListedStep<E>(s: Machine<E>, a: Step<E>)
    requires Inv(s) && Enabled(s, a) && DeadListed(s)
    ensures DeadListed(Apply(s, a))
  {
    var s' := Apply(s, a);
    if a.StreamOne? || a.StreamLocked? {
      if s' == StreamNow(s) {
        StreamDeadListed(s);
      }
    } else if a.Commit? {
      CommitShape(s);
    } else if SaverStep(a) {
      RoundDeadListed(s, a);
    } else {
      OthersOutside(s, a);
      forall i | 0 <= i < s'.saver.next && i < |s'.saver.batch| && s'.saver.batch[i] in s'.sh.elems && Absent(s'.sh.elems[s'.saver.batch[i]].status)
        ensures s'.saver.batch[i] in s'.saver.dead
      {
        assert s.saver.batch[i] in s.saver.batch;
        OthersAbsent(s, a, s.saver.batch[i]);
      }
    }
  }

  lemma {:induction false} RunDeadListed<E>(r: Run<E>, n: nat)
    requires IsRun(r) && n < |r.states|
    ensures DeadListed(r.states[n])
  {
    if n > 0 {
      RunDeadListed(r, n - 1);
      RunInv(r, n - 1);
      assert StepAt(r, n - 1);
      DeadListedStep(r.states[n - 1], r.steps[n - 1]);
    }
  }

  /** Over any run, when a saving round ends no element it saved is left pinned, dead, unused and not kept. */
  lemma RoundLeavesNoDead<E>(r: Run<E>, n: nat, e: E)
    requires IsRun(r) && n < |r.steps| && r.steps[n].Release? && e in r.states[n].saver.batch
    ensures e in r.states[n + 1].sh.elems && !UnusedDead(r.states[n + 1].sh.elems[e])
  {
    var s := r.states[n];
    RunInv(r, n);
    RunDeadListed(r, n);
    assert StepAt(r, n);
    ReleaseEvicts(s);
    ReleaseStatus(s, e);
    var i :| 0 <= i < |s.saver.batch| && s.saver.batch[i] == e;
  }

  /****** Which go first ******/

  /** If an idle entry stays, whatever stands before it stays. */
  lemma BeforeStays<E>(u: Shared<E>, i: nat, j: nat)
    requires Listed(u) && NoDup(u.list) && u.size == |u.list|
    requires i < j < |u.list| && u.list[j] in EvictIdle(u).list && u.elems[u.list[j]].usage == 0
    ensures u.list[i] in EvictIdle(u).list
  {
    EvictsFewestFromTail(u);
    assert u.list[i] in u.list && u.list[j] in u.list;
  }

  /** A scan takes an idle entry only after all idle entries behind it. */
  lemma ScanTakesLast<E>(u: Shared<E>, rank: E -> int, e: E, f: E)
    requires Listed(u) && NoDup(u.list) && u.size == |u.list| && Descending(u.list, rank)
    requires e in u.list && e !in EvictIdle(u).list && f in EvictIdle(u).list && f in u.elems && u.elems[f].usage == 0
    ensures rank(e) < rank(f)
  {
    EvictScanFrame(u, |u.list|);
    var i :| 0 <= i < |u.list| && u.list[i] == e;
    var j :| 0 <= j < |u.list| && u.list[j] == f;
    if i < j {
      BeforeStays(u, i, j);
    }
  }

  lemma {:induction false} AliveStaysListed<E>(sh: Shared<E>, dead: seq<E>, e: E)
    requires (forall d | d in dead :: d in sh.elems) && e in sh.elems && e in sh.list && !sh.elems[e].status.Dead?
    ensures e in EvictDead(sh, dead).list
    decreases |dead|
  {
    if dead != [] {
      var d := dead[0];
      var t := if UnusedDead(sh.elems[d]) then EvictOne(sh, d) else sh;
      AliveStaysListed(t, dead[1..], e);
    }
  }

  /** The step takes `e`, which is not dead, from the list, and leaves `f` there idle. */
  ghost predicate TakesAndLeaves<E>(s: Machine<E>, s': Machine<E>, e: E, f: E) {
    && e in s.sh.list && e in s.sh.elems && !s.sh.elems[e].status.Dead? && e !in s'.sh.list
    && f in s'.sh.list && f in s'.sh.elems && s'.sh.elems[f].usage == 0
  }

  lemma MayEvictLeastRecent<E>(s: Machine<E>, a: Step<E>, rank: E -> int, e: E, f: E)
    requires Inv(s) && Enabled(s, a) && MayEvict(a) && Descending(s.sh.list, rank)
    requires TakesAndLeaves(s, Apply(s, a), e, f)
    ensures rank(e) < rank(f)
  {
    EvictingShape(s, a);
    var u := BeforeScan(s, a);
    EvictScanFrame(u, |u.list|);
    ScanEffect(u, |u.list|, f);
    ScanTakesLast(u, rank, e, f);
  }

  lemma ReleaseLeastRecent<E>(s: Machine<E>, rank: E -> int, e: E, f: E)
    requires Inv(s) && Enabled(s, Step.Release) && Descending(s.sh.list, rank)
    requires TakesAndLeaves(s, Apply(s, Step.Release), e, f)
    ensures rank(e) < rank(f)
  {
    var c := ReleaseCounts(s.sh, s.saver.batch);
    var d := EvictDead(c, s.saver.dead);
    SweptList(s);
    EvictDeadFrame(c, s.saver.dead);
    DescendingDead(c, s.saver.dead, rank);
    AliveStaysListed(c, s.saver.dead, e);
    EvictScanFrame(d, |d.list|);
    ScanEffect(d, |d.list|, f);
    ScanTakesLast(d, rank, e, f);
  }

  /**
   Over any run: when a step evicts an object for lack of room and leaves another one idle on the list, the last
   use of the evicted one was earlier.
   */
  lemma EvictsLeastRecent<E>(r: Run<E>, n: nat, e: E, f: E)
    requires IsRun(r) && n < |r.steps| && (MayEvict(r.steps[n]) || r.steps[n].Release?)
    requires TakesAndLeaves(r.states[n], r.states[n + 1], e, f)
    ensures LastUse(r, n, e) < LastUse(r, n, f)
  {
    var rank := (x: E) => LastUse(r, n, x);
    RunInv(r, n);
    assert StepAt(r, n);
    ListedByRecency(r, n);
    assert Descending(r.states[n].sh.list, rank);
    if r.steps[n].Release? {
      ReleaseLeastRecent(r.states[n], rank, e, f);
    } else {
      MayEvictLeastRecent(r.states[n], r.steps[n], rank, e, f);
    }
  }
}
