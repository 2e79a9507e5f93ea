/**
 The machine with the mutexes of the servants: a dispatch changes its servant's state only while it holds its
 mutex, and the saving thread tries that mutex under the element's lock, or waits for it without. No state from
 the middle of a dispatch is ever recorded, and the saving thread waits for nobody but a dispatch.
 */
module EvictorMutexes {
  import opened EvictorTypes
  import opened EvictorSections
  import opened EvictorMachine
  import opened EvictorInvariant
  import opened EvictorPreservation
  import opened EvictorProgress
  import opened EvictorCalls

  datatype Owner = Dispatch(t: nat) | SavingThread

  datatype Locked<E> = Locked(m: Machine<E>, mutexes: map<nat, Owner>)

  datatype Move<E> =
    | Plain(a: Step<E>)
    | Lock(t: nat)          // a dispatch locks its servant
    | Unlock(t: nat)
    | TakeServant           // the saving thread, having waited

  /** The servant whose mutex the first look at the current element tries. */
  ghost function Tried<E>(m: Machine<E>): Option<nat> {
    if m.saver.next >= |m.saver.batch| || m.saver.batch[m.saver.next] !in m.sh.elems then None
    else
      var x := m.sh.elems[m.saver.batch[m.saver.next]];
      if (x.status.Created? || x.status.Modified?) && x.servant.Some? then Some(x.servant.value.oid) else None
  }

  /** What the mutexes allow of the machine's steps. */
  ghost predicate Allowed<E>(s: Locked<E>, a: Step<E>) {
    match a
    case Mutate(t, _) => PcOf(s.m, t).Holding? && Get(s.mutexes, PcOf(s.m, t).oid) == Some(Dispatch(t))
    case FinishCall(t) => forall oid | oid in s.mutexes :: s.mutexes[oid] != Dispatch(t)
    case StreamOne(acquired) => Tried(s.m).Some? ==> acquired == (Tried(s.m).value !in s.mutexes)
    case StreamLocked => s.m.saver.held.Some? && Get(s.mutexes, s.m.saver.held.value) == Some(SavingThread)
    case _ => true
  }

  ghost predicate Possible<E>(s: Locked<E>, v: Move<E>) {
    match v
    case Plain(a) => Enabled(s.m, a) && Allowed(s, a)
    case Lock(t) => PcOf(s.m, t).Holding? && PcOf(s.m, t).oid !in s.mutexes
    case Unlock(t) => PcOf(s.m, t).Holding? && Get(s.mutexes, PcOf(s.m, t).oid) == Some(Dispatch(t))
    case TakeServant => s.m.saver.phase.Streaming? && s.m.saver.held.Some? && s.m.saver.held.value !in s.mutexes
  }

  ghost function Moved<E>(s: Locked<E>, v: Move<E>): Locked<E>
    requires Possible(s, v)
  {
    match v
    case Plain(a) => Locked(Apply(s.m, a), if a.StreamLocked? then s.mutexes - {s.m.saver.held.value} else s.mutexes)
    case Lock(t) => s.(mutexes := s.mutexes[PcOf(s.m, t).oid := Dispatch(t)])
    case Unlock(t) => s.(mutexes := s.mutexes - {PcOf(s.m, t).oid})
    case TakeServant => s.(mutexes := s.mutexes[s.m.saver.held.value := SavingThread])
  }

  /****** One step ******/

  /** A first look streams the element and moves on, unless its servant is taken: then it only remembers which servant that is. */
  lemma FirstLookWaitsIff<E>(m: Machine<E>, acquired: bool)
    requires Enabled(m, StreamOne(acquired))
    ensures var m' := Apply(m, StreamOne(acquired));
      if Tried(m).Some? && !acquired then m' == m.(saver := m.saver.(held := Tried(m)))
      else m'.saver.next == m.saver.next + 1 && m'.saver.held.None?
  {
  }

  /** A second look streams the element and moves on, unless its servant was replaced: then there will be another first look. */
  lemma SecondLookRetriesIff<E>(m: Machine<E>)
    requires Enabled(m, StreamLocked)
    ensures var m' := Apply(m, StreamLocked);
      if Tried(m).Some? && Tried(m) != m.saver.held then m' == m.(saver := m.saver.(held := None))
      else m'.saver.next == m.saver.next + 1 && m'.saver.held.None?
  {
  }

  /** From `m` to `m'` one record is added, and it holds the state of the servant `oid` of its element. */
  ghost predicate Records<E>(m: Machine<E>, m': Machine<E>, oid: nat) {
    && |m'.saver.pending| == |m.saver.pending| + 1
    && var r := m'.saver.pending[|m.saver.pending|];
       && m'.saver.pending == m.saver.pending + [r] && r.e in m.sh.elems
       && m.sh.elems[r.e].servant == Some(Servant(oid, r.data))
  }

  /** Every step that lengthens the queue of streamed records adds one: of a destroyed object, or of the servant the element has. */
  lemma OnlyLooksRecord<E>(m: Machine<E>, a: Step<E>)
    requires Inv(m) && Enabled(m, a) && |Apply(m, a).saver.pending| > |m.saver.pending|
    ensures a.StreamOne? || a.StreamLocked?
    ensures Tried(m).Some? ==> Records(m, Apply(m, a), Tried(m).value)
    ensures a.StreamOne? ==> Tried(m).None? || a.acquired
    ensures a.StreamLocked? ==> Tried(m).None? || Tried(m) == m.saver.held
    ensures Tried(m).None? ==> Apply(m, a).saver.pending[|m.saver.pending|].status.Destroyed?
  {
    if !SaverStep(a) {
      OthersOutside(m, a);
    } else if a.Commit? {
      CommitShape(m);
    } else {
      OnlyLooksAdd(m, a);
      LookRecords(m, a);
    }
  }

  lemma OnlyLooksAdd<E>(m: Machine<E>, a: Step<E>)
    requires Enabled(m, a) && SaverStep(a) && !a.Commit? && |Apply(m, a).saver.pending| > |m.saver.pending|
    ensures (a.StreamOne? || a.StreamLocked? || a.Swap?) && (a.Swap? ==> |Apply(m, a).saver.pending| == 0)
  {
  }

  lemma LookRecords<E>(m: Machine<E>, a: Step<E>)
    requires ElementsOK(m) && Enabled(m, a) && (a.StreamOne? || a.StreamLocked?) && |Apply(m, a).saver.pending| > |m.saver.pending|
    ensures Tried(m).Some? ==> Records(m, Apply(m, a), Tried(m).value)
    ensures a.StreamOne? ==> Tried(m).None? || a.acquired
    ensures a.StreamLocked? ==> Tried(m).None? || Tried(m) == m.saver.held
    ensures Tried(m).None? ==> Apply(m, a).saver.pending[|m.saver.pending|].status.Destroyed?
  {
    assert ElementOK(Observe(m, m.saver.batch[m.saver.next]));
  }

  /****** Runs ******/

  datatype LockedRun<E> = LockedRun(states: seq<Locked<E>>, moves: seq<Move<E>>)

  ghost predicate MoveAt<E>(r: LockedRun<E>, i: nat) {
    && |r.states| == |r.moves| + 1 && i < |r.moves|
    && Possible(r.states[i], r.moves[i]) && r.states[i + 1] == Moved(r.states[i], r.moves[i])
  }

  ghost predicate IsLockedRun<E>(r: LockedRun<E>) {
    && |r.states| == |r.moves| + 1
    && Init(r.states[0].m) && r.states[0].mutexes == map[]
    && forall i: nat {:trigger MoveAt(r, i)} :: i < |r.moves| ==> MoveAt(r, i)
  }

  /** A mutex is held by a dispatch to its servant, or by the saving thread between waiting for it and its second look. */
  ghost predicate OwnersOK<E>(s: Locked<E>) {
    forall oid | oid in s.mutexes ::
      match s.mutexes[oid]
      case Dispatch(t) => PcOf(s.m, t).Holding? && PcOf(s.m, t).oid == oid
      case SavingThread => s.m.saver.phase.Streaming? && s.m.saver.held == Some(oid)
  }

  /** A dispatch lasts until its own thread's finished. */
  lemma StillHolding<E>(m: Machine<E>, a: Step<E>, t: nat)
    requires Enabled(m, a) && PcOf(m, t).Holding? && a != FinishCall(t)
    ensures PcOf(Apply(m, a), t) == PcOf(m, t) || a == DeactivateDone(t)
  {
    if SaverStep(a) || a.t != t {
      OtherThreads(m, a, t);
    }
  }

  /** What the saving thread waits for stays until its second look. */
  lemma StillWaiting<E>(m: Machine<E>, a: Step<E>)
    requires Inv(m) && Enabled(m, a) && m.saver.phase.Streaming? && m.saver.held.Some? && !a.StreamLocked?
    requires a.EndStreaming? ==> m.saver.next < |m.saver.batch|
    ensures Apply(m, a).saver.phase.Streaming? && Apply(m, a).saver.held == m.saver.held
  {
    if !SaverStep(a) {
      OthersOutside(m, a);
    }
  }

  lemma OwnersStep<E>(s: Locked<E>, v: Move<E>)
    requires Inv(s.m) && OwnersOK(s) && Possible(s, v) && WaitsInside(s.m)
    ensures OwnersOK(Moved(s, v)) && Inv(Moved(s, v).m) && WaitsInside(Moved(s, v).m)
  {
    if v.Plain? {
      StepInv(s.m, v.a);
      WaitsInsideStep(s.m, v.a);
      PlainOwners(s, v.a);
    }
  }

  /** The saving thread waits for a servant only at an element. */
  ghost predicate WaitsInside<E>(m: Machine<E>) {
    m.saver.held.Some? ==> m.saver.phase.Streaming? && m.saver.next < |m.saver.batch|
  }

  lemma WaitsInsideStep<E>(m: Machine<E>, a: Step<E>)
    requires Inv(m) && Enabled(m, a) && WaitsInside(m)
    ensures WaitsInside(Apply(m, a))
  {
    if !SaverStep(a) {
      OthersOutside(m, a);
    } else if a.Commit? {
      CommitShape(m);
    } else {
      SaverWaitsInside(m, a);
    }
  }

  lemma SaverWaitsInside<E>(m: Machine<E>, a: Step<E>)
    requires Enabled(m, a) && SaverStep(a) && !a.Commit? && WaitsInside(m)
    ensures WaitsInside(Apply(m, a))
  {
  }

  lemma PlainOwners<E>(s: Locked<E>, a: Step<E>)
    requires Inv(s.m) && OwnersOK(s) && WaitsInside(s.m) && Possible(s, Plain(a))
    ensures OwnersOK(Moved(s, Plain(a)))
  {
    var s' := Moved(s, Plain(a));
    forall oid | oid in s'.mutexes
      ensures match s'.mutexes[oid]
              case Dispatch(t) => PcOf(s'.m, t).Holding? && PcOf(s'.m, t).oid == oid
              case SavingThread => s'.m.saver.phase.Streaming? && s'.m.saver.held == Some(oid)
    {
      match s.mutexes[oid]
      case Dispatch(t) => StillHolding(s.m, a, t);
      case SavingThread => StillWaiting(s.m, a);
    }
  }

  lemma {:induction false} RunOwners<E>(r: LockedRun<E>, i: nat)
    requires IsLockedRun(r) && i < |r.states|
    ensures Inv(r.states[i].m) && OwnersOK(r.states[i]) && WaitsInside(r.states[i].m)
  {
    if i == 0 {
      InitInv(r.states[0].m);
    } else {
      RunOwners(r, i - 1);
      assert MoveAt(r, i - 1);
      OwnersStep(r.states[i - 1], r.moves[i - 1]);
    }
  }

  /** Over any run, a record is taken of an object that is not being destroyed only while no dispatch holds its servant's mutex. */
  lemma NoRecordDuringDispatch<E>(r: LockedRun<E>, i: nat, oid: nat)
    requires IsLockedRun(r) && i < |r.moves| && |r.states[i + 1].m.saver.pending| > |r.states[i].m.saver.pending|
    requires Tried(r.states[i].m) == Some(oid)
    ensures Records(r.states[i].m, r.states[i + 1].m, oid)
    ensures oid !in r.states[i].mutexes || r.states[i].mutexes[oid] == SavingThread
  {
    RunOwners(r, i);
    assert MoveAt(r, i);
    OnlyLooksRecord(r.states[i].m, r.moves[i].a);
  }

  /** In every reachable state in which the saving thread waits for a servant it can go on, or a dispatch to that servant can let it. */
  lemma WaitsForDispatch<E>(r: LockedRun<E>, i: nat)
    requires IsLockedRun(r) && i < |r.states| && r.states[i].m.saver.held.Some?
    ensures var s := r.states[i];
      Possible(s, TakeServant) || Possible(s, Plain(StreamLocked))
      || exists t :: Possible(s, Unlock(t)) && PcOf(s.m, t).oid == s.m.saver.held.value
  {
    RunOwners(r, i);
    var s := r.states[i];
    var oid := s.m.saver.held.value;
    if oid in s.mutexes && s.mutexes[oid].Dispatch? {
      assert Possible(s, Unlock(s.mutexes[oid].t));
    }
  }
}
