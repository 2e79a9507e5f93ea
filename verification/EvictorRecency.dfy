/**
 The evictor list is ordered by use: over any run, of two listed elements the one used last stands before
 the other. With the order in which evict() takes elements, least recently used idle objects go first.
 */
module EvictorRecency {
  import opened EvictorTypes
  import opened EvictorSections
  import opened EvictorMachine
  import opened EvictorInvariant
  import opened EvictorPreservation
  import opened EvictionOrder
  import opened EvictorRuns

  /****** Lists in descending order of a rank ******/

  ghost predicate Descending<E>(l: seq<E>, rank: E -> int) {
    forall i, j :: 0 <= i < j < |l| ==> rank(l[i]) > rank(l[j])
  }

  lemma {:induction false} DescendingWithout<E>(l: seq<E>, x: E, rank: E -> int)
    requires Descending(l, rank)
    ensures Descending(Without(l, x), rank)
  {
    if l != [] {
      DescendingWithout(l[1..], x, rank);
      var m := Without(l[1..], x);
      forall j | 0 <= j < |m| ensures rank(l[0]) > rank(m[j]) {
        assert m[j] in l[1..];
      }
    }
  }

  lemma {:induction false} DescendingScan<E>(sh: Shared<E>, p: nat, rank: E -> int)
    requires Listed(sh) && Descending(sh.list, rank)
    ensures Descending(EvictScan(sh, p).list, rank)
    decreases p
  {
    if sh.size <= sh.limit || p == 0 || p > |sh.list| {
    } else if sh.elems[sh.list[p - 1]].usage == 0 {
      DescendingWithout(sh.list, sh.list[p - 1], rank);
      DescendingScan(EvictOne(sh, sh.list[p - 1]), p - 1, rank);
    } else {
      DescendingScan(sh, p - 1, rank);
    }
  }

  lemma {:induction false} DescendingDead<E>(sh: Shared<E>, dead: seq<E>, rank: E -> int)
    requires (forall e | e in dead :: e in sh.elems) && Descending(sh.list, rank)
    ensures Descending(EvictDead(sh, dead).list, rank)
    decreases |dead|
  {
    if dead != [] {
      var e, x := dead[0], sh.elems[dead[0]];
      var t := if !x.stale && x.usage == 0 && x.keep == 0 && x.status.Dead? then EvictOne(sh, e) else sh;
      DescendingWithout(sh.list, e, rank);
      DescendingDead(t, dead[1..], rank);
    }
  }

  /** The newest goes in front. */
  lemma DescendingFront<E>(l: seq<E>, e: E, rank: E -> int, rank': E -> int)
    requires Descending(l, rank)
    requires forall x | x in l && x != e :: rank'(x) == rank(x) && rank'(e) > rank(x)
    ensures Descending([e] + Without(l, e), rank')
  {
    DescendingWithout(l, e, rank);
    var m := Without(l, e);
    forall i | 0 <= i < |m| ensures rank'(m[i]) == rank(m[i]) && rank'(e) > rank(m[i]) {
      assert m[i] in m;
    }
  }

  /****** Use ******/

  /** A locked section that uses its element: all but keepFacet, and locate only if it finds an object. */
  ghost predicate UsingOp(op: Op, x: Elem) {
    !op.KeepOp? && (op.LocateOp? ==> Present(x.status) && x.servant.Some?)
  }

  /** The step uses `e`: in such a section, or by the release that ends a keep. */
  ghost predicate Uses<E>(s: Machine<E>, a: Step<E>, e: E) {
    e in s.sh.elems && !s.sh.elems[e].stale &&
    if a.Section? then PcOf(s, a.t).Locking? && PcOf(s, a.t).e == e && UsingOp(PcOf(s, a.t).op, s.sh.elems[e])
    else a.ReleaseCall? && IfPinned(s.sh, a.key) == Some(e) && s.sh.elems[e].keep == 1
  }

  /** The last of the first `n` steps that used `e`, or -1. */
  ghost function LastUse<E>(r: Run<E>, n: nat, e: E): int
    requires n <= |r.steps| && n <= |r.states|
  {
    if n == 0 then -1
    else if Uses(r.states[n - 1], r.steps[n - 1], e) then n - 1
    else LastUse(r, n - 1, e)
  }

  lemma {:induction false} LastUseBefore<E>(r: Run<E>, n: nat, e: E)
    requires n <= |r.steps| && n <= |r.states|
    ensures LastUse(r, n, e) < n
  {
    if n > 0 {
      LastUseBefore(r, n - 1, e);
    }
  }

  ghost predicate Recent<E>(r: Run<E>, n: nat, l: seq<E>)
    requires n <= |r.steps| && n <= |r.states|
  {
    forall i, j :: 0 <= i < j < |l| ==> LastUse(r, n, l[i]) > LastUse(r, n, l[j])
  }

  /****** What a step does to the list ******/

  /** The list after a section of an element that is not stale. */
  ghost predicate SectionList<E>(sh: Shared<E>, sh': Shared<E>, e: E, op: Op)
    requires e in sh.elems && e in sh'.elems
  {
    if UsingOp(op, sh.elems[e]) then sh'.list == if sh'.elems[e].keep == 0 then [e] + Without(sh.list, e) else sh.list
    else sh'.list == sh.list || sh'.list == Without(sh.list, e)
  }

  /** An element that has not been seen yet, or is kept, is not in the list; taking it out changes nothing. */
  lemma NotYetListed<E>(s: Machine<E>, e: E)
    requires ElementsOK(s) && e in s.sh.elems && !s.sh.elems[e].stale
    ensures s.sh.elems[e].usage < 0 || s.sh.elems[e].keep > 0 ==> Without(s.sh.list, e) == s.sh.list
    ensures s.sh.elems[e].keep >= 0
  {
    assert ElementOK(Observe(s, e));
    if e !in s.sh.list {
      WithoutAbsent(s.sh.list, e);
    }
  }

  lemma TouchList<E>(s: Machine<E>, e: E)
    requires ElementsOK(s) && e in s.sh.elems && !s.sh.elems[e].stale
    ensures Touch(s.sh, e).list == if s.sh.elems[e].keep == 0 then [e] + Without(s.sh.list, e) else s.sh.list
    ensures e in Touch(s.sh, e).elems && Touch(s.sh, e).elems[e].keep == s.sh.elems[e].keep
  {
    NotYetListed(s, e);
  }

  lemma RemoveList<E>(s: Machine<E>, e: E)
    requires ElementsOK(s) && e in s.sh.elems && !s.sh.elems[e].stale
    ensures RemoveSection(s.sh, e).list == [e] + Without(s.sh.list, e)
    ensures e in RemoveSection(s.sh, e).elems && RemoveSection(s.sh, e).elems[e].keep == 0
  {
    NotYetListed(s, e);
    TouchList(s, e);
  }

  lemma UpdateList<E>(s: Machine<E>, e: E, sv: Servant)
    requires ElementsOK(s) && e in s.sh.elems && !s.sh.elems[e].stale
    ensures SectionList(s.sh, AddSection(s.sh, e, sv), e, AddOp(s.sh.elems[e].key, sv))
    ensures SectionList(s.sh, CreateSection(s.sh, e, sv), e, CreateOp(s.sh.elems[e].key, sv))
  {
    TouchList(s, e);
  }

  lemma SectionStepList<E>(s: Machine<E>, t: nat)
    requires ElementsOK(s) && Enabled(s, Section(t)) && !s.sh.elems[PcOf(s, t).e].stale
    ensures PcOf(s, t).e in SectionStep(s, t).sh.elems
    ensures SectionList(s.sh, SectionStep(s, t).sh, PcOf(s, t).e, PcOf(s, t).op)
  {
    var e, op := PcOf(s, t).e, PcOf(s, t).op;
    if op.AddOp? || op.CreateOp? {
      UpdateList(s, e, op.servant);
    } else if op.RemoveOp? {
      RemoveList(s, e);
    } else if op.LocateOp? {
      TouchList(s, e);
    }
  }

  /** Only the steps named here change the list. */
  lemma QuietList<E>(s: Machine<E>, a: Step<E>)
    requires Enabled(s, a) && !a.Section? && !a.ReleaseCall? && !MayEvict(a) && !a.Release?
    ensures Apply(s, a).sh.list == s.sh.list
  {
  }

  lemma ReleaseCallList<E>(s: Machine<E>, t: nat, k: Key)
    requires Inv(s) && Enabled(s, ReleaseCall(t, k))
    ensures var l' := Apply(s, ReleaseCall(t, k)).sh.list;
      match IfPinned(s.sh, k)
      case None => l' == s.sh.list
      case Some(e) => e in s.sh.elems && !s.sh.elems[e].stale && l' == if s.sh.elems[e].keep == 1 then [e] + Without(s.sh.list, e) else s.sh.list
  {
    if IfPinned(s.sh, k).Some? {
      var e := IfPinned(s.sh, k).value;
      assert ElementOK(Observe(s, e));
      NotYetListed(s, e);
    }
  }

  lemma ReleaseDescending<E>(s: Machine<E>, rank: E -> int)
    requires Inv(s) && Enabled(s, Step.Release) && Descending(s.sh.list, rank)
    ensures Descending(Apply(s, Step.Release).sh.list, rank)
  {
    var c := ReleaseCounts(s.sh, s.saver.batch);
    var d := EvictDead(c, s.saver.dead);
    DescendingDead(c, s.saver.dead, rank);
    EvictDeadFrame(c, s.saver.dead);
    DescendingScan(d, |d.list|, rank);
  }

  lemma MayEvictDescending<E>(s: Machine<E>, a: Step<E>, rank: E -> int)
    requires Enabled(s, a) && MayEvict(a) && Descending(s.sh.list, rank)
    ensures Descending(Apply(s, a).sh.list, rank)
  {
    EvictingShape(s, a);
    DescendingScan(BeforeScan(s, a), |BeforeScan(s, a).list|, rank);
  }

  /** A step that uses `e` and the list it leaves. */
  ghost predicate Leads<E>(s: Machine<E>, a: Step<E>, e: E, l': seq<E>) {
    Uses(s, a, e) && l' == [e] + Without(s.sh.list, e)
  }

  /** Whatever the step, the list keeps its order, and an element that is used and listed afterwards goes to the front. */
  lemma ListStep<E>(s: Machine<E>, a: Step<E>, rank: E -> int)
    requires Inv(s) && Enabled(s, a) && Descending(s.sh.list, rank)
    ensures (exists e :: e in s.sh.elems && Leads(s, a, e, Apply(s, a).sh.list))
         || (Descending(Apply(s, a).sh.list, rank) && forall e | e in Apply(s, a).sh.list :: !Uses(s, a, e))
  {
    var l' := Apply(s, a).sh.list;
    if a.Section? {
      SectionListStep(s, a.t, rank);
    } else if a.ReleaseCall? {
      ReleaseCallList(s, a.t, a.key);
      if IfPinned(s.sh, a.key).Some? && s.sh.elems[IfPinned(s.sh, a.key).value].keep == 1 {
        assert Leads(s, a, IfPinned(s.sh, a.key).value, l');
      }
    } else if a.Release? {
      ReleaseDescending(s, rank);
    } else if MayEvict(a) {
      MayEvictDescending(s, a, rank);
    } else {
      QuietList(s, a);
    }
  }

  lemma SectionListStep<E>(s: Machine<E>, t: nat, rank: E -> int)
    requires Inv(s) && Enabled(s, Section(t)) && Descending(s.sh.list, rank)
    ensures Leads(s, Section(t), PcOf(s, t).e, SectionStep(s, t).sh.list)
         || (Descending(SectionStep(s, t).sh.list, rank) && forall e | e in SectionStep(s, t).sh.list :: !Uses(s, Section(t), e))
  {
    var e := PcOf(s, t).e;
    if !s.sh.elems[e].stale {
      SectionStepList(s, t);
      DescendingWithout(s.sh.list, e, rank);
      SectionInv(s, t);
      assert ElementOK(Observe(SectionStep(s, t), e));
    }
  }

  /****** Runs ******/

  /** In every reachable state the evictor list is in the order of last use, most recent first. */
  lemma {:induction false} ListedByRecency<E>(r: Run<E>, n: nat)
    requires IsRun(r) && n < |r.states|
    ensures Recent(r, n, r.states[n].sh.list)
  {
    if n > 0 {
      ListedByRecency(r, n - 1);
      RecencyStep(r, n - 1);
    }
  }

  lemma RecencyStep<E>(r: Run<E>, n: nat)
    requires IsRun(r) && n < |r.steps| && Recent(r, n, r.states[n].sh.list)
    ensures Recent(r, n + 1, r.states[n + 1].sh.list)
  {
    var s, a := r.states[n], r.steps[n];
    var rank, rank' := (e: E) => LastUse(r, n, e), (e: E) => LastUse(r, n + 1, e);
    assert StepAt(r, n);
    RunInv(r, n);
    ListStep(s, a, rank);
    if e :| e in s.sh.elems && Leads(s, a, e, Apply(s, a).sh.list) {
      forall x | x in s.sh.list && x != e ensures rank'(x) == rank(x) && rank'(e) > rank(x) {
        OneUsed(s, a, e, x);
        LastUseBefore(r, n, x);
      }
      DescendingFront(s.sh.list, e, rank, rank');
    }
  }

  lemma OneUsed<E>(s: Machine<E>, a: Step<E>, e: E, x: E)
    requires Uses(s, a, e) && x != e
    ensures !Uses(s, a, x)
  {
  }
}
