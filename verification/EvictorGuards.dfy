/**
 The preconditions of the class methods, and the guards of the transitions that stand for the
 source's own assertions, are facts in every state that satisfies the invariant.
 */
module EvictorGuards {
  import opened EvictorStructure
  import opened EvictorMachine
  import opened EvictorInvariant

  lemma InvStructural<E>(s: Machine<E>)
    requires Inv(s)
    ensures Structural(s.sh)
  {
    forall e | e in s.sh.elems ensures ElementPlaced(s.sh, e) {
      assert ElementOK(Observe(s, e));
    }
  }

  /** A thread that has pinned, dispatched or half finished can always go on. */
  lemma ClientsNotStuck<E>(s: Machine<E>, t: nat)
    requires Inv(s) && t in s.threads
    ensures s.threads[t].Loading? ==> Enabled(s, LoadRead(t)) && Enabled(s, LoadFail(t))
    ensures s.threads[t].Locking? ==> Enabled(s, Section(t))
    ensures s.threads[t].Holding? && s.gate.Open? ==> Enabled(s, FinishCall(t))
    ensures s.threads[t].Finishing? ==> Enabled(s, FinishLock(t))
  {
    assert PcOK(s, t, s.threads[t]);
  }

  /** What the saving thread does next. */
  ghost function NextStep<E>(s: Machine<E>): Step<E> {
    match s.saver.phase
    case Waiting => if s.gate.Stopping? then Exit else Swap
    case Streaming =>
      if s.saver.next == |s.saver.batch| then EndStreaming
      else if s.saver.held.None? then StreamOne(true) else StreamLocked
    case Writing => if s.saver.pending == [] then Release else Commit
    case Exited => Exit
    case Failed => Exit
  }

  /** The saving thread always has a next step until it has been told to stop and has. */
  lemma SaverNotStuck<E>(s: Machine<E>)
    requires Inv(s) && !s.saver.phase.Exited?
    ensures Enabled(s, NextStep(s))
  {
    var v := s.saver;
    if v.phase.Streaming? && v.next < |v.batch| {
      assert v.batch[v.next] in v.batch;
      assert Enabled(s, NextStep(s));
    } else if v.phase.Writing? && v.pending == [] {
      assert Enabled(s, Release);
    }
  }

  /** What ReleaseRound asks of its batch: the batch owns the counts it gives back. */
  lemma BatchOwnsCounts<E>(s: Machine<E>, e: E)
    requires Inv(s) && e in s.saver.batch
    ensures e in s.sh.elems && !s.sh.elems[e].stale && s.sh.elems[e].usage >= multiset(s.saver.batch)[e]
  {
    assert multiset(s.saver.batch)[e] > 0;
    assert ElementOK(Observe(s, e));
  }
}
