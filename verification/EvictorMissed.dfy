/**
 saveNow's barrier holds for an object exactly if its state is recorded when saveNow is called: if it is
 not, the call can go on, with nobody else taking a step, so that it returns and the database has missed it.
 */
module EvictorMissed {
  import opened EvictorTypes
  import opened EvictorSections
  import opened EvictorMachine
  import opened EvictorInvariant
  import opened EvictorPreservation
  import opened EvictorRefinement
  import opened EvictorRuns
  import opened EvictorBarrier
  import opened EvictorGuards
  import opened EvictorProgress

  /** At no moment between `i` and `n` did the map show what the database holds at `n`. */
  ghost predicate BarrierMissed<E>(states: seq<Machine<E>>, i: nat, n: nat, k: Key)
    requires n < |states|
  {
    forall j :: i <= j <= n ==> Get(states[n].db, k) != Get(Abstract(states[j]).objects, k)
  }

  /** From `i` to `n` thread `t` is inside saveNow. */
  ghost predicate InCall<E>(states: seq<Machine<E>>, t: nat, i: nat, n: nat)
    requires n < |states|
  {
    forall j :: i < j <= n ==> PcOf(states[j], t).SavingNow?
  }

  /** In run `r`, thread `t` calls saveNow at `i` and returns from it at `n`, and the barrier does not hold for `k`. */
  ghost predicate LosesBarrier<E>(r: Run<E>, t: nat, i: nat, n: nat, k: Key) {
    && IsRun(r) && i < n < |r.steps|
    && r.steps[i] == SaveNowCall(t) && r.steps[n] == SaveNowReturn(t)
    && InCall(r.states, t, i, n) && BarrierMissed(r.states, i, n, k)
  }

  ghost predicate Extends<E>(r: Run<E>, r': Run<E>) {
    r.states <= r'.states && r.steps <= r'.steps
  }

  lemma ExtendsFurther<E>(r: Run<E>, m: Run<E>, r': Run<E>)
    requires Extends(r, m) && Extends(m, r')
    ensures Extends(r, r')
  {
  }

  /****** What is not recorded stays so ******/

  /** The object's change is on the modified queue or in the part of the batch still to be streamed. */
  ghost predicate Waits<E>(s: Machine<E>, k: Key, e: E) {
    && e in s.sh.elems && IfPinned(s.sh, k) == Some(e) && Dirty(s.sh.elems[e].status)
    && (e in s.sh.queue || e in Unstreamed(s.saver))
  }

  lemma RecordedMeans<E>(s: Machine<E>, k: Key)
    ensures Recorded(s, k) <==> Get(Disk(s), k) == View(s, k) || exists e :: e in s.sh.elems && Waits(s, k, e)
  {
  }

  lemma StillUnrecorded<E>(s: Machine<E>, s': Machine<E>, k: Key)
    requires !Recorded(s, k) && View(s', k) == View(s, k) && Get(Disk(s'), k) == Get(Disk(s), k)
    requires forall e | e in s'.sh.elems && Waits(s', k, e) :: e in s.sh.elems && Waits(s, k, e)
    ensures !Recorded(s', k)
  {
    RecordedMeans(s, k);
    RecordedMeans(s', k);
  }

  lemma StreamUnrecorded<E>(s: Machine<E>, k: Key)
    requires Inv(s) && AtElement(s) && !Recorded(s, k)
    ensures !Recorded(StreamNow(s), k)
  {
    var e := s.saver.batch[s.saver.next];
    StreamedPinned(s);
    assert Unstreamed(s.saver) == [e] + Unstreamed(StreamNow(s).saver);
    assert k == s.sh.elems[e].key && Dirty(s.sh.elems[e].status) ==> Waits(s, k, e);
    RecordedMeans(s, k);
    StreamDisk(s, k);
    StreamView(s);
    StillUnrecorded(s, StreamNow(s), k);
  }

  lemma ReleaseUnrecorded<E>(s: Machine<E>, k: Key)
    requires Inv(s) && Enabled(s, Step.Release) && !Recorded(s, k)
    ensures !Recorded(Apply(s, Step.Release), k)
  {
    var s' := Apply(s, Step.Release);
    StepInv(s, Step.Release);
    ReleaseView(s);
    SweptFrame(s);
    forall e | e in s'.sh.elems && Waits(s', k, e) ensures e in s.sh.elems && Waits(s, k, e) {
      ReleaseElements(s);
      ReleaseStatus(s, e);
      assert ElementOK(Observe(s', e));
      assert ElementOK(Observe(s, e));
    }
    StillUnrecorded(s, s', k);
  }

  lemma ReleaseElements<E>(s: Machine<E>)
    requires Inv(s) && Enabled(s, Step.Release)
    ensures Apply(s, Step.Release).sh.elems.Keys == s.sh.elems.Keys
  {
    var c := ReleaseCounts(s.sh, s.saver.batch);
    EvictDeadFrame(c, s.saver.dead);
    EvictScanFrame(EvictDead(c, s.saver.dead), |EvictDead(c, s.saver.dead).list|);
  }

  /** No step of the saving thread records an object that neither waits nor is recorded. */
  lemma SaverUnrecorded<E>(s: Machine<E>, a: Step<E>, k: Key)
    requires Inv(s) && Enabled(s, a) && SaverStep(a) && !Recorded(s, k)
    ensures !Recorded(Apply(s, a), k) && View(Apply(s, a), k) == View(s, k)
  {
    HiddenView(s, a);
    if a.Release? {
      ReleaseUnrecorded(s, k);
    } else if a.StreamOne? || a.StreamLocked? {
      if Apply(s, a) == StreamNow(s) {
        StreamUnrecorded(s, k);
      } else {
        StillUnrecorded(s, Apply(s, a), k);
      }
    } else if a.Commit? {
      CommitShape(s);
      StillUnrecorded(s, Apply(s, a), k);
    } else {
      StillUnrecorded(s, Apply(s, a), k);
    }
  }

  /****** The call goes on alone ******/

  ghost function Last<E>(r: Run<E>): Machine<E>
    requires r.states != []
  {
    r.states[|r.states| - 1]
  }

  lemma LastInv<E>(r: Run<E>)
    requires IsRun(r)
    ensures Inv(Last(r))
  {
    RunInv(r, |r.states| - 1);
  }

  ghost function Then<E>(r: Run<E>, a: Step<E>, s: Machine<E>): Run<E> {
    Run(r.states + [s], r.steps + [a])
  }

  lemma ThenIsRun<E>(r: Run<E>, a: Step<E>, s: Machine<E>)
    requires IsRun(r) && Enabled(Last(r), a) && s == Apply(Last(r), a)
    ensures IsRun(Then(r, a, s)) && Extends(r, Then(r, a, s))
  {
    var r' := Then(r, a, s);
    forall i: nat | i < |r'.steps| ensures StepAt(r', i) {
      if i < |r.steps| {
        assert StepAt(r, i);
        assert r'.states[i] == r.states[i] && r'.steps[i] == r.steps[i] && r'.states[i + 1] == r.states[i + 1];
      }
    }
  }

  /** From state `i` on `k` has shown `v`, and after it `t` has been inside saveNow. */
  ghost predicate Showing<E>(states: seq<Machine<E>>, t: nat, i: nat, k: Key, v: Option<string>) {
    && i < |states|
    && (forall j :: i < j < |states| ==> PcOf(states[j], t).SavingNow?)
    && (forall j :: i <= j < |states| ==> View(states[j], k) == v)
  }

  lemma ShowingMore<E>(states: seq<Machine<E>>, s: Machine<E>, t: nat, i: nat, k: Key, v: Option<string>)
    requires Showing(states, t, i, k, v) && PcOf(s, t).SavingNow? && View(s, k) == v
    ensures Showing(states + [s], t, i, k, v)
  {
  }

  /** A call that began at `i` is still going on, and `k`, unrecorded, has shown `v` all the time. */
  ghost predicate Missing<E>(r: Run<E>, t: nat, i: nat, k: Key, v: Option<string>) {
    && IsRun(r) && i < |r.steps| && r.steps[i] == SaveNowCall(t)
    && Showing(r.states, t, i, k, v) && !Recorded(Last(r), k)
  }

  lemma SaverPc<E>(s: Machine<E>, a: Step<E>)
    requires Enabled(s, a) && SaverStep(a)
    ensures Apply(s, a).threads == s.threads
  {
  }

  /** What one step of the saving thread does to such a call. */
  lemma MissingStep<E>(s: Machine<E>, a: Step<E>, t: nat, k: Key)
    requires Inv(s) && Enabled(s, a) && SaverStep(a) && !Recorded(s, k)
    ensures var s' := Apply(s, a);
      !Recorded(s', k) && View(s', k) == View(s, k) && PcOf(s', t) == PcOf(s, t)
    ensures t in s.sh.waiters && t !in Apply(s, a).sh.waiters ==> Get(Apply(s, a).db, k) != View(s, k)
  {
    SaverUnrecorded(s, a, k);
    SaverPc(s, a);
    if t in s.sh.waiters && t !in Apply(s, a).sh.waiters {
      WokenSaved(s, a, t, k);
      RecordedMeans(Apply(s, a), k);
    }
  }

  lemma SaverTurn<E>(s: Machine<E>, t: nat, k: Key)
    requires Inv(s) && !Recorded(s, k) && t in s.sh.waiters
    ensures Enabled(s, NextStep(s))
    ensures var s' := Apply(s, NextStep(s));
      && !Recorded(s', k) && View(s', k) == View(s, k) && PcOf(s', t) == PcOf(s, t)
      && (if t in s'.sh.waiters then Nearer(s, s', t) else Get(s'.db, k) != View(s, k))
  {
    NextStepNearer(s, t);
    MissingStep(s, NextStep(s), t, k);
  }

  /** The saving thread's next step. */
  lemma MissingNext<E>(r: Run<E>, t: nat, i: nat, k: Key, v: Option<string>) returns (r': Run<E>)
    requires Missing(r, t, i, k, v) && i + 1 < |r.states| && t in Last(r).sh.waiters
    ensures Missing(r', t, i, k, v) && i + 1 < |r'.states| && Extends(r, r')
    ensures if t in Last(r').sh.waiters then Nearer(Last(r), Last(r'), t) else Get(Last(r').db, k) != v
  {
    LastInv(r);
    SaverTurn(Last(r), t, k);
    r' := Moved(r, t, i, k, v, NextStep(Last(r)), Apply(Last(r), NextStep(Last(r))));
  }

  lemma Moved<E>(r: Run<E>, t: nat, i: nat, k: Key, v: Option<string>, a: Step<E>, s: Machine<E>) returns (r': Run<E>)
    requires Missing(r, t, i, k, v) && Enabled(Last(r), a) && s == Apply(Last(r), a)
    requires PcOf(s, t).SavingNow? && View(s, k) == v && !Recorded(s, k)
    ensures Missing(r', t, i, k, v) && |r'.states| == |r.states| + 1 && Extends(r, r') && Last(r') == s
  {
    ThenIsRun(r, a, s);
    ShowingMore(r.states, s, t, i, k, v);
    r' := Then(r, a, s);
    assert r'.steps[i] == r.steps[i] && r'.states == r.states + [s] && Last(r') == s;
  }

  /** The saving thread alone wakes the caller. */
  lemma {:induction false} WokenAlone<E>(r: Run<E>, t: nat, i: nat, k: Key, v: Option<string>) returns (r': Run<E>)
    requires Missing(r, t, i, k, v) && i + 1 < |r.states| && t in Last(r).sh.waiters
    ensures Missing(r', t, i, k, v) && i + 1 < |r'.states| && Extends(r, r')
    ensures t !in Last(r').sh.waiters && Get(Last(r').db, k) != v
    decreases Rounds(Last(r), t), Stages(Last(r)), Entries(Last(r)), Looks(Last(r))
  {
    r' := MissingNext(r, t, i, k, v);
    if t in Last(r').sh.waiters {
      var m := r';
      r' := WokenAlone(m, t, i, k, v);
      ExtendsFurther(r, m, r');
    }
  }

  /** The states of a call that is over, of which the one before the last has missed the object. */
  lemma ShowingMissed<E>(states: seq<Machine<E>>, n: nat, t: nat, i: nat, k: Key, v: Option<string>)
    requires |states| == n + 2 && Showing(states[..n + 1], t, i, k, v) && Get(states[n].db, k) != v
    ensures InCall(states, t, i, n) && BarrierMissed(states, i, n, k)
  {
    forall j | i <= j <= n ensures Get(Abstract(states[j]).objects, k) == v && (j > i ==> PcOf(states[j], t).SavingNow?) {
      assert states[j] == states[..n + 1][j];
      AbstractAt(states[j], k);
    }
  }

  /** The run ends with the caller's return: it has missed the object. */
  lemma ReturnMisses<E>(r: Run<E>, t: nat, i: nat, k: Key, v: Option<string>) returns (r': Run<E>)
    requires Missing(r, t, i, k, v) && t !in Last(r).sh.waiters && Get(Last(r).db, k) != v && i + 1 < |r.states|
    ensures Extends(r, r') && |r'.steps| > 0 && LosesBarrier(r', t, i, |r'.steps| - 1, k)
  {
    var s := Apply(Last(r), SaveNowReturn(t));
    ThenIsRun(r, SaveNowReturn(t), s);
    r' := Then(r, SaveNowReturn(t), s);
    assert r'.states[..|r'.steps|] == r.states;
    ShowingMissed(r'.states, |r'.steps| - 1, t, i, k, v);
    assert r'.steps[i] == r.steps[i];
  }

  lemma CallMisses<E>(r: Run<E>, t: nat, k: Key) returns (r': Run<E>)
    requires IsRun(r) && Last(r).gate.Open? && PcOf(Last(r), t).Idle? && !Recorded(Last(r), k)
    ensures Extends(r, r') && |r'.states| == |r.states| + 1 && t in Last(r').sh.waiters
    ensures Missing(r', t, |r.steps|, k, View(Last(r), k))
  {
    var s, a := Last(r), SaveNowCall(t);
    var s' := Apply(s, a);
    LastInv(r);
    ThenIsRun(r, a, s');
    r' := Then(r, a, s');
    HiddenView(s, a);
    assert View(s', k) == View(s, k);
    StillUnrecorded(s, s', k);
    assert r'.states[|r.steps|] == s;
  }

  /** An object that is not recorded can be missed by a saveNow called now. */
  lemma UnrecordedIsMissed<E>(r: Run<E>, t: nat, k: Key) returns (r': Run<E>)
    requires IsRun(r) && Last(r).gate.Open? && PcOf(Last(r), t).Idle? && !Recorded(Last(r), k)
    ensures Extends(r, r') && |r'.steps| > 0 && LosesBarrier(r', t, |r.steps|, |r'.steps| - 1, k)
  {
    var called := CallMisses(r, t, k);
    var woken := WokenAlone(called, t, |r.steps|, k, View(Last(r), k));
    ExtendsFurther(r, called, woken);
    r' := ReturnMisses(woken, t, |r.steps|, k, View(Last(r), k));
    ExtendsFurther(r, woken, r');
  }

  /** Wherever a run has got to: `k` is recorded exactly if no saveNow called now, however the run goes on, misses it. */
  lemma BarrierIff<E>(r: Run<E>, t: nat, k: Key)
    requires IsRun(r) && Last(r).gate.Open? && PcOf(Last(r), t).Idle?
    ensures Recorded(Last(r), k) <==> forall r', n :: Extends(r, r') ==> !LosesBarrier(r', t, |r.steps|, n, k)
  {
    var i := |r.steps|;
    if Recorded(Last(r), k) {
      forall r', n | Extends(r, r') ensures !LosesBarrier(r', t, i, n, k) {
        if LosesBarrier(r', t, i, n, k) {
          assert r'.states[i] == Last(r);
          SaveNowBarrier(r', t, i, n, k);
        }
      }
    } else {
      var r' := UnrecordedIsMissed(r, t, k);
      assert Extends(r, r') && LosesBarrier(r', t, i, |r'.steps| - 1, k);
    }
  }
}
