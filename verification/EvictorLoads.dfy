/**
 Facts about runs that concern the two things a thread leaves half done: a placeholder always has a thread that
 will replace or withdraw it, and a transaction is never larger than the configured maximum, nor smaller than it need be.
 */
module EvictorLoads {
  import opened EvictorTypes
  import opened EvictorSections
  import opened EvictorMachine
  import opened EvictorInvariant
  import opened EvictorPreservation
  import opened EvictorProgress
  import opened EvictorRuns
  import opened EvictorCalls

  /****** Placeholders ******/

  /** Each placeholder belongs to a thread that is loading its key. */
  ghost predicate LoadersOK<E>(s: Machine<E>) {
    forall k | k in s.sh.cache && s.sh.cache[k].Placeholder? :: LoadsFor(PcOf(s, s.sh.cache[k].loader), k)
  }

  ghost predicate LoadsFor<E>(pc: Pc<E>, k: Key) {
    (pc.Loading? || pc.Loaded?) && pc.op.key == k
  }

  lemma SectionCache<E>(s: Machine<E>, t: nat)
    requires Enabled(s, Section(t))
    ensures SectionStep(s, t).sh.cache == s.sh.cache
    ensures forall u | u != t :: PcOf(SectionStep(s, t), u) == PcOf(s, u)
  {
    assert Touch(s.sh, PcOf(s, t).e).cache == s.sh.cache;
  }

  lemma {:induction false} ScanCache<E>(sh: Shared<E>, p: nat)
    requires Listed(sh)
    ensures forall k | k in EvictScan(sh, p).cache :: k in sh.cache && EvictScan(sh, p).cache[k] == sh.cache[k]
    decreases p
  {
    if sh.size <= sh.limit || p == 0 || p > |sh.list| {
    } else if sh.elems[sh.list[p - 1]].usage == 0 {
      ScanCache(EvictOne(sh, sh.list[p - 1]), p - 1);
    } else {
      ScanCache(sh, p - 1);
    }
  }

  lemma {:induction false} DeadCache<E>(sh: Shared<E>, dead: seq<E>)
    requires forall e | e in dead :: e in sh.elems
    ensures forall k | k in EvictDead(sh, dead).cache :: k in sh.cache && EvictDead(sh, dead).cache[k] == sh.cache[k]
    decreases |dead|
  {
    if dead != [] {
      var e, x := dead[0], sh.elems[dead[0]];
      var t := if !x.stale && x.usage == 0 && x.keep == 0 && x.status.Dead? then EvictOne(sh, e) else sh;
      DeadCache(t, dead[1..]);
    }
  }

  lemma LoadersStep<E>(s: Machine<E>, a: Step<E>)
    requires Inv(s) && Enabled(s, a) && LoadersOK(s)
    ensures LoadersOK(Apply(s, a))
  {
    if a.Section? {
      SectionLoaders(s, a.t);
    } else if MayEvict(a) {
      MayEvictLoaders(s, a);
    } else if a.Release? {
      ReleaseLoaders(s);
    } else if a.Commit? {
      CommitShape(s);
    } else if a.PinHit? || a.PinMiss? || a.LoadRead? || a.LoadFail? || a.Install? {
      LoadStepLoaders(s, a);
    } else {
      OtherStepLoaders(s, a);
    }
  }

  lemma SectionLoaders<E>(s: Machine<E>, t: nat)
    requires Enabled(s, Section(t)) && LoadersOK(s)
    ensures LoadersOK(Apply(s, Section(t)))
  {
    SectionCache(s, t);
  }

  lemma MayEvictLoaders<E>(s: Machine<E>, a: Step<E>)
    requires Enabled(s, a) && MayEvict(a) && LoadersOK(s) && GateOK(s)
    ensures LoadersOK(Apply(s, a))
  {
    EvictingShape(s, a);
    ScanCache(BeforeScan(s, a), |BeforeScan(s, a).list|);
  }

  lemma ReleaseLoaders<E>(s: Machine<E>)
    requires Enabled(s, Step.Release) && LoadersOK(s)
    ensures LoadersOK(Apply(s, Step.Release))
  {
    var c := ReleaseCounts(s.sh, s.saver.batch);
    var d := EvictDead(c, s.saver.dead);
    DeadCache(c, s.saver.dead);
    EvictDeadFrame(c, s.saver.dead);
    ScanCache(d, |d.list|);
  }

  lemma LoadStepLoaders<E>(s: Machine<E>, a: Step<E>)
    requires Enabled(s, a) && LoadersOK(s) && (a.PinHit? || a.PinMiss? || a.LoadRead? || a.LoadFail? || a.Install?)
    ensures LoadersOK(Apply(s, a))
  {
  }

  /** The other steps leave the cache map alone, and are not those of a loading thread. */
  lemma OtherStepLoaders<E>(s: Machine<E>, a: Step<E>)
    requires GateOK(s) && Enabled(s, a) && LoadersOK(s) && !a.Section? && !MayEvict(a) && !a.Release? && !a.Commit?
    requires !a.PinHit? && !a.PinMiss? && !a.LoadRead? && !a.LoadFail? && !a.Install?
    ensures LoadersOK(Apply(s, a))
  {
    QuietCache(s, a);
    forall t | PcOf(s, t).Loading? || PcOf(s, t).Loaded? ensures PcOf(Apply(s, a), t) == PcOf(s, t) {
      StillLoading(s, a, t);
    }
  }

  lemma QuietCache<E>(s: Machine<E>, a: Step<E>)
    requires Enabled(s, a) && !a.Section? && !MayEvict(a) && !a.Release? && !a.Commit?
    requires !a.PinMiss? && !a.LoadFail? && !a.Install?
    ensures Apply(s, a).sh.cache == s.sh.cache
  {
  }

  lemma StillLoading<E>(s: Machine<E>, a: Step<E>, t: nat)
    requires Enabled(s, a) && !a.LoadRead? && !a.LoadFail? && !a.Install?
    requires PcOf(s, t).Loading? || PcOf(s, t).Loaded?
    ensures PcOf(Apply(s, a), t) == PcOf(s, t) || a == DeactivateDone(t)
  {
    if SaverStep(a) || a.t != t {
      OtherThreads(s, a, t);
    }
  }

  lemma {:induction false} RunLoaders<E>(r: Run<E>, i: nat)
    requires IsRun(r) && i < |r.states|
    ensures LoadersOK(r.states[i])
  {
    if i > 0 {
      RunLoaders(r, i - 1);
      RunInv(r, i - 1);
      assert StepAt(r, i - 1);
      LoadersStep(r.states[i - 1], r.steps[i - 1]);
    }
  }

  lemma LoaderHasPlaceholder<E>(s: Machine<E>, t: nat, k: Key)
    requires HandlesOK(s) && LoadsFor(PcOf(s, t), k)
    ensures k in s.sh.cache && s.sh.cache[k] == Placeholder(t)
  {
    assert PcOK(s, t, s.threads[t]);
  }

  /** In every reachable state a placeholder is there exactly while one thread, its loader, loads the key. */
  lemma PlaceholderIffLoading<E>(r: Run<E>, i: nat, t: nat, k: Key)
    requires IsRun(r) && i < |r.states|
    ensures LoadsFor(PcOf(r.states[i], t), k) <==> k in r.states[i].sh.cache && r.states[i].sh.cache[k] == Placeholder(t)
  {
    RunInv(r, i);
    RunLoaders(r, i);
    if LoadsFor(PcOf(r.states[i], t), k) {
      LoaderHasPlaceholder(r.states[i], t, k);
    }
  }

  /****** Transaction sizes ******/

  /** The first transaction takes all records, or as many as may be. */
  lemma FirstSize<E>(s: Machine<E>)
    requires Enabled(s, EndStreaming)
    ensures Apply(s, EndStreaming).saver.txSize == Min(|s.saver.pending|, s.maxTx)
  {
  }

  /** A commit takes as many records as the one before, or all that are left. */
  lemma CommitTakes<E>(s: Machine<E>)
    requires Inv(s) && Enabled(s, Commit)
    ensures var s' := Apply(s, Commit);
      s'.saver.txSize == Min(s.saver.txSize, |s.saver.pending|) && s'.saver.pending == s.saver.pending[s'.saver.txSize..]
  {
    CommitShape(s);
  }

  /** A deadlock halves the transaction that met it, rounding up, and changes nothing else. */
  lemma DeadlockHalves<E>(s: Machine<E>)
    requires Enabled(s, Deadlock)
    ensures var s', n := Apply(s, Deadlock), Min(s.saver.txSize, |s.saver.pending|);
      s' == s.(saver := s.saver.(txSize := s'.saver.txSize)) && n <= 2 * s'.saver.txSize <= n + 1
  {
  }

  /** No transaction is larger than `max`, the configured number. */
  ghost predicate Bounded<E>(s: Machine<E>, max: nat) {
    s.saver.txSize <= max == s.maxTx
  }

  lemma SizeStep<E>(s: Machine<E>, a: Step<E>, max: nat)
    requires Inv(s) && Enabled(s, a) && Bounded(s, max)
    ensures Bounded(Apply(s, a), max)
  {
    if !SaverStep(a) {
      OthersOutside(s, a);
    } else if a.Commit? {
      CommitTakes(s);
    } else {
      SaverSize(s, a);
    }
    KeepsMaximum(s, a);
  }

  lemma SaverSize<E>(s: Machine<E>, a: Step<E>)
    requires Enabled(s, a) && SaverStep(a) && !a.Commit? && s.saver.txSize <= s.maxTx && s.maxTx >= 1
    ensures Apply(s, a).saver.txSize <= s.maxTx
  {
  }

  lemma KeepsMaximum<E>(s: Machine<E>, a: Step<E>)
    requires Enabled(s, a)
    ensures Apply(s, a).maxTx == s.maxTx
  {
  }

  lemma {:induction false} RunSizes<E>(r: Run<E>, i: nat)
    requires IsRun(r) && i < |r.states|
    ensures Bounded(r.states[i], r.states[0].maxTx)
  {
    if i > 0 {
      RunSizes(r, i - 1);
      RunInv(r, i - 1);
      assert StepAt(r, i - 1);
      SizeStep(r.states[i - 1], r.steps[i - 1], r.states[0].maxTx);
    }
  }

  lemma CommitNotEmpty<E>(s: Machine<E>)
    requires SaverOK(s) && Enabled(s, Commit)
    ensures Min(s.saver.txSize, |s.saver.pending|) >= 1
  {
  }

  /** Over any run a transaction takes at least one record and at most the configured number. */
  lemma TransactionBounds<E>(r: Run<E>, i: nat)
    requires IsRun(r) && i < |r.steps| && r.steps[i].Commit?
    ensures 1 <= Min(r.states[i].saver.txSize, |r.states[i].saver.pending|) <= r.states[0].maxTx
  {
    RunSizes(r, i);
    RunInv(r, i);
    assert StepAt(r, i);
    CommitNotEmpty(r.states[i]);
  }
}
