/**
 How far a thread that waits in saveNow is from being woken. Every step of the saving thread but a deadlock
 brings it nearer; no other thread can put it back, except for another look at one element whose servant it replaces.
 */
module EvictorProgress {
  import opened EvictorTypes
  import opened EvictorMachine
  import opened EvictorInvariant
  import opened EvictorPreservation
  import opened EvictorBarrier
  import opened EvictorGuards

  ghost predicate SaverStep<E>(a: Step<E>) {
    || a.Swap? || a.StreamOne? || a.StreamLocked? || a.EndStreaming?
    || a.Commit? || a.Deadlock? || a.Release? || a.Exit?
  }

  /** The round in progress began before `t` joined the waiters, so that it will not wake `t`. */
  ghost predicate Unserved<E>(s: Machine<E>, t: nat) {
    s.saver.snap <= |s.sh.waiters| && t in s.sh.waiters[s.saver.snap..]
  }

  /** Rounds before the last one: this and the next, the next, or none. */
  ghost function Rounds<E>(s: Machine<E>, t: nat): nat {
    if s.saver.phase.Waiting? then 1 else if Unserved(s, t) then 2 else 0
  }

  ghost function Stages<E>(s: Machine<E>): nat {
    if s.saver.phase.Streaming? then 1 else 0
  }

  /** Entries to stream, or records to commit. */
  ghost function Entries<E>(s: Machine<E>): nat {
    if s.saver.phase.Streaming? then |Unstreamed(s.saver)|
    else if s.saver.phase.Writing? then |s.saver.pending| else 0
  }

  /** Looks at the current entry: two if its servant was replaced while the saving thread waits for the old one's mutex. */
  ghost function Looks<E>(s: Machine<E>): nat {
    if s.saver.held.None? then 1 else if Replaced(s) then 2 else 0
  }

  ghost predicate Replaced<E>(s: Machine<E>) {
    && s.saver.next < |s.saver.batch| && s.saver.batch[s.saver.next] in s.sh.elems
    && var x := s.sh.elems[s.saver.batch[s.saver.next]];
       (x.status.Created? || x.status.Modified?) && x.servant.Some? && s.saver.held != Some(x.servant.value.oid)
  }

  /** Without the looks. */
  ghost predicate SamePlace<E>(s: Machine<E>, s': Machine<E>, t: nat) {
    Rounds(s', t) == Rounds(s, t) && Stages(s') == Stages(s) && Entries(s') == Entries(s)
  }

  /** Lexicographically. */
  ghost predicate Nearer<E>(s: Machine<E>, s': Machine<E>, t: nat) {
    || Rounds(s', t) < Rounds(s, t)
    || (Rounds(s', t) == Rounds(s, t) && Stages(s') < Stages(s))
    || (Rounds(s', t) == Rounds(s, t) && Stages(s') == Stages(s) && Entries(s') < Entries(s))
    || (SamePlace(s, s', t) && Looks(s') < Looks(s))
  }

  lemma StreamNearer<E>(s: Machine<E>, a: Step<E>, t: nat)
    requires SaverOK(s) && Enabled(s, a) && (a.StreamOne? || a.StreamLocked?) && t in s.sh.waiters
    ensures t in Apply(s, a).sh.waiters && Nearer(s, Apply(s, a), t)
  {
    var s' := Apply(s, a);
    if s' == StreamNow(s) {
      assert Unstreamed(s.saver) == [s.saver.batch[s.saver.next]] + Unstreamed(s'.saver);
    }
  }

  /** Each step of the saving thread other than a deadlock wakes the waiter or brings it nearer to being woken. */
  lemma SaverNearer<E>(s: Machine<E>, a: Step<E>, t: nat)
    requires Inv(s) && Enabled(s, a) && SaverStep(a) && !a.Deadlock? && t in s.sh.waiters
    ensures t !in Apply(s, a).sh.waiters || Nearer(s, Apply(s, a), t)
  {
    if a.StreamOne? || a.StreamLocked? {
      StreamNearer(s, a, t);
    } else if a.Commit? {
      CommitShape(s);
    } else if a.Release? {
      SweptFrame(s);
    } else if a.Swap? {
      assert s.sh.waiters[|s.sh.waiters|..] == [];
    }
  }

  /** A deadlock costs an attempt, and nothing else. */
  lemma DeadlockKeepsPlace<E>(s: Machine<E>, t: nat)
    requires Enabled(s, Deadlock)
    ensures SamePlace(s, Apply(s, Deadlock), t) && Looks(Apply(s, Deadlock)) == Looks(s)
    ensures Apply(s, Deadlock).sh.waiters == s.sh.waiters
  {
  }

  /** Other threads leave the saving thread's locals alone, and a thread joins the waiters only at the end and only once. */
  lemma OthersOutside<E>(s: Machine<E>, a: Step<E>)
    requires Inv(s) && Enabled(s, a) && !SaverStep(a)
    ensures Apply(s, a).saver == s.saver
    ensures Apply(s, a).sh.waiters == s.sh.waiters || (a.t !in s.sh.waiters && Apply(s, a).sh.waiters == s.sh.waiters + [a.t])
  {
    if a.FinishLock? || a.SetSize? || a.DeactivateStop? {
      EvictingQueues(s, a);
    } else if a.Section? {
      SectionFrames(s, a.t);
    } else {
      SmallStepOutside(s, a);
    }
  }

  lemma SmallStepOutside<E>(s: Machine<E>, a: Step<E>)
    requires GateOK(s) && Enabled(s, a) && !SaverStep(a) && !a.FinishLock? && !a.SetSize? && !a.DeactivateStop? && !a.Section?
    ensures Apply(s, a).saver == s.saver
    ensures Apply(s, a).sh.waiters == s.sh.waiters || (a.t !in s.sh.waiters && Apply(s, a).sh.waiters == s.sh.waiters + [a.t])
  {
  }

  /** No step of another thread puts the waiter back: its rounds, stages and entries stay, and it is still waiting. */
  lemma OthersDoNotDelay<E>(s: Machine<E>, a: Step<E>, t: nat)
    requires Inv(s) && Enabled(s, a) && !SaverStep(a) && t in s.sh.waiters
    ensures t in Apply(s, a).sh.waiters && SamePlace(s, Apply(s, a), t)
  {
    OthersOutside(s, a);
    var w, w' := s.sh.waiters, Apply(s, a).sh.waiters;
    if w' != w {
      assert w'[s.saver.snap..] == w[s.saver.snap..] + [a.t];
    }
  }

  /** The saving thread's next step never waits for anybody and is never a deadlock. */
  lemma NextStepNearer<E>(s: Machine<E>, t: nat)
    requires Inv(s) && t in s.sh.waiters
    ensures Enabled(s, NextStep(s)) && !NextStep(s).Exit?
    ensures t !in Apply(s, NextStep(s)).sh.waiters || Nearer(s, Apply(s, NextStep(s)), t)
  {
    SaverNotStuck(s);
    SaverNearer(s, NextStep(s), t);
  }
}
