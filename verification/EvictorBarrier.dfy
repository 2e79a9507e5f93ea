/**
 Two properties that span many steps: the answer hasFacet reads from the database is one the
 plain map gave during the call, and saveNow is a durability barrier.
 */
module EvictorBarrier {
  import opened EvictorTypes
  import opened EvictorSections
  import opened EvictorMachine
  import opened EvictorInvariant
  import opened EvictorPreservation
  import opened EvictorRefinement
  import opened EvictorRuns
  import opened EvictionOrder

  /** The plain map had `v` at `k` in some state between `i` and `m`. */
  ghost predicate Seen<E>(r: Run<E>, i: nat, m: nat, k: Key, v: Option<string>)
    requires m < |r.states|
  {
    exists j :: i <= j <= m && View(r.states[j], k) == v
  }

  lemma SeenLater<E>(r: Run<E>, i: nat, m: nat, k: Key, v: Option<string>)
    requires m + 1 < |r.states| && Seen(r, i, m, k, v)
    ensures Seen(r, i, m + 1, k, v)
  {
    var j :| i <= j <= m && View(r.states[j], k) == v;
    assert View(r.states[j], k) == v;
  }

  lemma SeenNow<E>(r: Run<E>, i: nat, m: nat, k: Key)
    requires i <= m < |r.states|
    ensures Seen(r, i, m, k, View(r.states[m], k))
  {
  }

  /** The value record `x` leaves at its key. */
  ghost function ValueOf<E>(x: Rec<E>): Option<string> {
    if x.status.Destroyed? then None else Some(x.data)
  }

  /** What a projection holds at `k` comes from the database or from one of the records. */
  lemma {:induction false} ProjectSource<E>(db: map<Key, string>, rs: seq<Rec<E>>, k: Key)
    requires SaveAll(db, rs).Some?
    ensures Get(Project(db, rs), k) == Get(db, k)
         || exists i :: 0 <= i < |rs| && rs[i].key == k && Get(Project(db, rs), k) == ValueOf(rs[i])
  {
    if rs != [] {
      var n := |rs| - 1;
      SaveAllProject(db, rs[..n]);
      if rs[n].key == k {
        assert Get(Project(db, rs), k) == ValueOf(rs[n]);
      } else {
        ProjectSource(db, rs[..n], k);
        if Get(Project(db, rs[..n]), k) != Get(db, k) {
          var i :| 0 <= i < n && rs[..n][i].key == k && Get(Project(db, rs[..n]), k) == ValueOf(rs[..n][i]);
          assert rs[i].key == k && Get(Project(db, rs), k) == ValueOf(rs[i]);
        }
      }
    }
  }

  /****** What steps do to the database and the records ******/

  ghost predicate Streams<E>(s: Machine<E>, a: Step<E>)
    requires Enabled(s, a)
  {
    (a.StreamOne? || a.StreamLocked?) && Apply(s, a) == StreamNow(s)
  }

  /** Only a commit changes the database, and only streaming adds records: the state seen by clients at that moment. */
  lemma RecordStep<E>(s: Machine<E>, a: Step<E>, k: Key)
    requires Inv(s) && Enabled(s, a)
    ensures !a.Commit? ==> Apply(s, a).db == s.db
    ensures forall x :: x in Apply(s, a).saver.pending && x.key == k ==>
      x in s.saver.pending || ValueOf(x) == View(s, k)
  {
    if a.Commit? {
      CommitShape(s);
    } else if a.StreamOne? || a.StreamLocked? {
      if Apply(s, a) == StreamNow(s) {
        StreamRecord(s, k);
      }
    } else {
      QuietStep(s, a);
    }
  }

  lemma QuietStep<E>(s: Machine<E>, a: Step<E>)
    requires Enabled(s, a) && !a.StreamOne? && !a.StreamLocked? && !a.Commit?
    requires s.saver.phase.Waiting? ==> s.saver.pending == []
    requires a.Release? ==> s.saver.pending == []
    ensures Apply(s, a).db == s.db && Apply(s, a).saver.pending == s.saver.pending
  {
    if a.Section? {
      assert Apply(s, a) == SectionStep(s, a.t);
      assert SectionStep(s, a.t).db == s.db && SectionStep(s, a.t).saver == s.saver;
    } else if a.Install? {
      assert InstallStep(s, a.t, a.e, a.oid).saver == s.saver;
    } else if MayEvict(a) {
      EvictingShape(s, a);
    } else {
      SmallStepQuiet(s, a);
    }
  }

  lemma SmallStepQuiet<E>(s: Machine<E>, a: Step<E>)
    requires Enabled(s, a) && !a.StreamOne? && !a.StreamLocked? && !a.Commit? && !a.Section? && !a.Install? && !MayEvict(a)
    requires s.saver.phase.Waiting? ==> s.saver.pending == []
    requires a.Release? ==> s.saver.pending == []
    ensures Apply(s, a).db == s.db && Apply(s, a).saver.pending == s.saver.pending
  {
  }

  lemma StreamRecord<E>(s: Machine<E>, k: Key)
    requires ElementsOK(s) && CacheOK(s) && AtElement(s)
    ensures forall x :: x in StreamNow(s).saver.pending && x.key == k ==>
      x in s.saver.pending || ValueOf(x) == View(s, k)
  {
    StreamedPinned(s);
    var e := s.saver.batch[s.saver.next];
    assert IfPinned(s.sh, s.sh.elems[e].key) == Some(e);
  }

  /****** hasFacet ******/

  /** Both the database and the pending records show, at `k`, only what the plain map showed since state `i`. */
  ghost predicate DatabaseSeen<E>(r: Run<E>, i: nat, m: nat, k: Key)
    requires m < |r.states|
  {
    && Seen(r, i, m, k, Get(r.states[m].db, k))
    && forall x :: x in r.states[m].saver.pending && x.key == k ==> Seen(r, i, m, k, ValueOf(x))
  }

  lemma DatabaseSeenStep<E>(r: Run<E>, i: nat, m: nat, k: Key)
    requires IsRun(r) && i <= m < |r.steps| && DatabaseSeen(r, i, m, k)
    ensures DatabaseSeen(r, i, m + 1, k)
  {
    var s, a, s' := r.states[m], r.steps[m], r.states[m + 1];
    assert StepAt(r, m);
    RunInv(r, m);
    RecordStep(s, a, k);
    SeenNow(r, i, m, k);
    if a.Commit? {
      CommittedSeen(r, i, m, k);
    }
    SeenLater(r, i, m, k, Get(s'.db, k));
    forall x | x in s'.saver.pending && x.key == k ensures Seen(r, i, m + 1, k, ValueOf(x)) {
      SeenLater(r, i, m, k, ValueOf(x));
    }
  }

  /** What a commit leaves in the database was there or in one of its records. */
  lemma CommittedSeen<E>(r: Run<E>, i: nat, m: nat, k: Key)
    requires i <= m < |r.states| && DatabaseSeen(r, i, m, k) && Inv(r.states[m]) && Enabled(r.states[m], Commit)
    ensures Seen(r, i, m, k, Get(CommitStep(r.states[m]).db, k))
    ensures forall x | x in CommitStep(r.states[m]).saver.pending :: x in r.states[m].saver.pending
  {
    var s := r.states[m];
    CommitShape(s);
    var n := Min(s.saver.txSize, |s.saver.pending|);
    ProjectSource(s.db, s.saver.pending[..n], k);
  }

  lemma {:induction false} DatabaseSeenRun<E>(r: Run<E>, i: nat, m: nat, n: nat, k: Key)
    requires IsRun(r) && i <= m <= n < |r.states| && DatabaseSeen(r, i, m, k)
    ensures DatabaseSeen(r, i, n, k)
    decreases n - m
  {
    if m < n {
      DatabaseSeenStep(r, i, m, k);
      DatabaseSeenRun(r, i, m + 1, n, k);
    }
  }

  /**
   hasFacet that finds nothing pinned reads the database later, without the lock. Whatever
   happened in between, its answer is the one the plain map gave at some moment of the call.
   */
  lemma HasFacetLinearizable<E>(r: Run<E>, t: nat, k: Key, i: nat, n: nat)
    requires IsRun(r) && i < n < |r.steps|
    requires r.steps[i] == HasCall(t, k) && IfPinned(r.states[i].sh, k).None?
    requires r.steps[n] == HasRead(t) && PcOf(r.states[n], t) == Missed(k)
    ensures exists j :: i <= j <= n && (k in r.states[n].db <==> k in Abstract(r.states[j]).objects)
  {
    RunInv(r, i);
    UnpinnedDisk(r.states[i], k);
    forall x | x in r.states[i].saver.pending ensures x.key != k {
      var p :| 0 <= p < |r.states[i].saver.pending| && r.states[i].saver.pending[p] == x;
      PendingPinned(r.states[i], p);
    }
    SeenNow(r, i, i, k);
    DatabaseSeenRun(r, i, i, n, k);
    var j :| i <= j <= n && View(r.states[j], k) == Get(r.states[n].db, k);
    AbstractAt(r.states[j], k);
  }

  /****** saveNow ******/

  /** What the database will hold at `k` changes only by streaming, to what clients see then. */
  lemma DiskStep<E>(s: Machine<E>, a: Step<E>, k: Key)
    requires Inv(s) && Enabled(s, a)
    ensures Get(Disk(Apply(s, a)), k) == Get(Disk(s), k) || Get(Disk(Apply(s, a)), k) == View(s, k)
  {
    if a.Commit? {
      CommitShape(s);
    } else if a.StreamOne? || a.StreamLocked? {
      LookDisk(s, a, k);
    } else {
      QuietStep(s, a);
    }
  }

  lemma LookDisk<E>(s: Machine<E>, a: Step<E>, k: Key)
    requires Inv(s) && Enabled(s, a) && (a.StreamOne? || a.StreamLocked?)
    ensures Get(Disk(Apply(s, a)), k) == Get(Disk(s), k) || Get(Disk(Apply(s, a)), k) == View(s, k)
  {
    if Apply(s, a) == StreamNow(s) {
      StreamedPinned(s);
      StreamDisk(s, k);
    }
  }

  lemma {:induction false} EvictDeadStatus<E>(sh: Shared<E>, dead: seq<E>, e: E)
    requires (forall d | d in dead :: d in sh.elems) && e in sh.elems
    ensures e in EvictDead(sh, dead).elems
    ensures EvictDead(sh, dead).elems[e] == sh.elems[e].(stale := EvictDead(sh, dead).elems[e].stale)
    ensures sh.elems[e].stale ==> EvictDead(sh, dead).elems[e].stale
    decreases |dead|
  {
    if dead != [] {
      var d, x := dead[0], sh.elems[dead[0]];
      var t := if !x.stale && x.usage == 0 && x.keep == 0 && x.status.Dead? then EvictOne(sh, d) else sh;
      EvictDeadStatus(t, dead[1..], e);
    }
  }

  /** A dirty element stays dirty until it is streamed, unless its object, never saved, is removed. */
  ghost predicate StillDirty(x: Elem, x': Elem) {
    x'.key == x.key && (Dirty(x.status) ==> Dirty(x'.status) || x'.status.Dead?)
  }

  /** The release section evicts, and changes neither keys nor statuses. */
  lemma ReleaseStatus<E>(s: Machine<E>, e: E)
    requires Inv(s) && Enabled(s, Step.Release) && e in s.sh.elems
    ensures e in Apply(s, Step.Release).sh.elems
    ensures var x, x' := s.sh.elems[e], Apply(s, Step.Release).sh.elems[e];
      x'.key == x.key && x'.status == x.status && (x.stale ==> x'.stale)
  {
    var c := ReleaseCounts(s.sh, s.saver.batch);
    EvictDeadFrame(c, s.saver.dead);
    var d := EvictDead(c, s.saver.dead);
    EvictDeadStatus(c, s.saver.dead, e);
    ScanEffect(d, |d.list|, e);
  }

  lemma SectionDirty<E>(s: Machine<E>, t: nat, e: E)
    requires Enabled(s, Section(t)) && e in s.sh.elems
    ensures e in SectionStep(s, t).sh.elems && StillDirty(s.sh.elems[e], SectionStep(s, t).sh.elems[e])
  {
    var x := PcOf(s, t).e;
    match PcOf(s, t).op
    case AddOp(_, sv) => AddDirty(s.sh, x, sv, e);
    case CreateOp(_, sv) => CreateDirty(s.sh, x, sv, e);
    case RemoveOp(_) => RemoveDirty(s.sh, x, e);
    case KeepOp(_) =>
    case LocateOp(_, _) =>
  }

  lemma AddDirty<E>(sh: Shared<E>, x: E, sv: Servant, e: E)
    requires x in sh.elems && e in sh.elems
    ensures e in AddSection(sh, x, sv).elems && StillDirty(sh.elems[e], AddSection(sh, x, sv).elems[e])
  {
  }

  lemma CreateDirty<E>(sh: Shared<E>, x: E, sv: Servant, e: E)
    requires x in sh.elems && e in sh.elems
    ensures e in CreateSection(sh, x, sv).elems && StillDirty(sh.elems[e], CreateSection(sh, x, sv).elems[e])
  {
  }

  lemma RemoveDirty<E>(sh: Shared<E>, x: E, e: E)
    requires x in sh.elems && e in sh.elems
    ensures e in RemoveSection(sh, x).elems && StillDirty(sh.elems[e], RemoveSection(sh, x).elems[e])
  {
    assert e in RemoveStatus(sh, x).elems && StillDirty(sh.elems[e], RemoveStatus(sh, x).elems[e]);
  }

  lemma EvictingDirty<E>(s: Machine<E>, a: Step<E>, e: E)
    requires Enabled(s, a) && e in s.sh.elems && MayEvict(a)
    ensures e in Apply(s, a).sh.elems && StillDirty(s.sh.elems[e], Apply(s, a).sh.elems[e])
  {
    var u := BeforeScan(s, a);
    EvictingShape(s, a);
    assert e in u.elems && u.elems[e] == s.sh.elems[e].(usage := u.elems[e].usage);
    ScanEffect(u, |u.list|, e);
  }

  lemma DirtyStep<E>(s: Machine<E>, a: Step<E>, e: E)
    requires Inv(s) && Enabled(s, a) && e in s.sh.elems
    requires Streams(s, a) ==> e != s.saver.batch[s.saver.next]
    ensures e in Apply(s, a).sh.elems && StillDirty(s.sh.elems[e], Apply(s, a).sh.elems[e])
  {
    if a.Section? {
      SectionDirty(s, a.t, e);
    } else if a.Release? {
      ReleaseStatus(s, e);
    } else if a.FinishLock? || a.SetSize? || a.DeactivateStop? {
      EvictingDirty(s, a, e);
    } else if a.Commit? {
      CommitShape(s);
    } else {
      SmallStepDirty(s, a, e);
    }
  }

  /** The remaining steps change one field of one element, or none. */
  lemma SmallStepDirty<E>(s: Machine<E>, a: Step<E>, e: E)
    requires Enabled(s, a) && e in s.sh.elems
    requires Streams(s, a) ==> e != s.saver.batch[s.saver.next]
    requires !a.Section? && !a.Release? && !a.FinishLock? && !a.SetSize? && !a.DeactivateStop? && !a.Commit?
    ensures e in Apply(s, a).sh.elems && StillDirty(s.sh.elems[e], Apply(s, a).sh.elems[e])
  {
    if !a.FinishCall? && !a.Mutate? && !a.StreamOne? && !a.StreamLocked? && !a.ReleaseCall? {
      ElementsUntouched(s, a);
      assert e in s.sh.elems;
    }
  }

  lemma ElementsUntouched<E>(s: Machine<E>, a: Step<E>)
    requires Enabled(s, a)
    requires !a.Section? && !a.Release? && !a.FinishLock? && !a.SetSize? && !a.DeactivateStop? && !a.Commit?
    requires !a.FinishCall? && !a.Mutate? && !a.StreamOne? && !a.StreamLocked? && !a.ReleaseCall?
    ensures forall e | e in s.sh.elems :: e in Apply(s, a).sh.elems && Apply(s, a).sh.elems[e] == s.sh.elems[e]
  {
  }

  /** The round in progress will wake thread `t`. */
  ghost predicate Covered<E>(s: Machine<E>, t: nat) {
    s.saver.snap <= |s.sh.waiters| && t in s.sh.waiters[..s.saver.snap]
  }

  /** `e` will be streamed before thread `t` is woken. */
  ghost predicate BeforeWake<E>(s: Machine<E>, t: nat, e: E) {
    e in Unstreamed(s.saver) || (e in s.sh.queue && !Covered(s, t))
  }

  /** Outside the rounds of the saving thread the queues only grow at the end. */
  ghost predicate QueuesGrow<E>(s: Machine<E>, s': Machine<E>) {
    && (forall e :: e in s.sh.queue ==> e in s'.sh.queue)
    && s.sh.waiters <= s'.sh.waiters
    && s'.saver.snap == s.saver.snap && Unstreamed(s'.saver) == Unstreamed(s.saver)
  }

  lemma EvictingQueues<E>(s: Machine<E>, a: Step<E>)
    requires Enabled(s, a) && MayEvict(a)
    ensures QueuesGrow(s, Apply(s, a)) && Apply(s, a).sh.waiters == s.sh.waiters
  {
    var u := BeforeScan(s, a);
    EvictingShape(s, a);
    EvictScanFrame(u, |u.list|);
  }

  /** Sections leave the waiters alone and put at most their element on the modified queue. */
  ghost predicate SectionFrame<E>(sh: Shared<E>, sh': Shared<E>, e: E) {
    sh'.waiters == sh.waiters && (sh'.queue == sh.queue || sh'.queue == sh.queue + [e])
  }

  lemma UpdateFrames<E>(sh: Shared<E>, e: E, sv: Servant)
    requires e in sh.elems
    ensures SectionFrame(sh, AddSection(sh, e, sv), e) && SectionFrame(sh, CreateSection(sh, e, sv), e)
  {
  }

  lemma OtherFrames<E>(sh: Shared<E>, e: E)
    requires e in sh.elems
    ensures SectionFrame(sh, RemoveSection(sh, e), e) && SectionFrame(sh, KeepSection(sh, e), e)
    ensures SectionFrame(sh, LocateSection(sh, e), e)
  {
    assert SectionFrame(sh, RemoveStatus(sh, e), e);
  }

  lemma SectionFrames<E>(s: Machine<E>, t: nat)
    requires Enabled(s, Section(t))
    ensures SectionFrame(s.sh, SectionStep(s, t).sh, PcOf(s, t).e)
  {
    var e := PcOf(s, t).e;
    match PcOf(s, t).op
    case AddOp(_, sv) => UpdateFrames(s.sh, e, sv);
    case CreateOp(_, sv) => UpdateFrames(s.sh, e, sv);
    case RemoveOp(_) => OtherFrames(s.sh, e);
    case KeepOp(_) => OtherFrames(s.sh, e);
    case LocateOp(_, _) => OtherFrames(s.sh, e);
  }

  lemma QueueStep<E>(s: Machine<E>, a: Step<E>)
    requires Inv(s) && Enabled(s, a) && !Streams(s, a) && !a.Swap? && !a.Release?
    ensures QueuesGrow(s, Apply(s, a))
  {
    if a.FinishLock? || a.SetSize? || a.DeactivateStop? {
      EvictingQueues(s, a);
    } else if a.Section? {
      SectionFrames(s, a.t);
    } else if a.Commit? {
      CommitShape(s);
    } else {
      SmallStepQueues(s, a);
    }
  }

  lemma SmallStepQueues<E>(s: Machine<E>, a: Step<E>)
    requires Enabled(s, a) && !Streams(s, a) && !a.Swap? && !a.Release?
    requires !a.FinishLock? && !a.SetSize? && !a.DeactivateStop? && !a.Section? && !a.Commit?
    requires a.Exit? ==> s.saver == IdleSaver(Waiting)
    ensures QueuesGrow(s, Apply(s, a))
  {
    if a.StreamOne? || a.StreamLocked? || a.EndStreaming? || a.Deadlock? || a.Exit? {
      SaverQueues(s, a);
    } else {
      ThreadQueues(s, a);
    }
  }

  lemma SaverQueues<E>(s: Machine<E>, a: Step<E>)
    requires Enabled(s, a) && !Streams(s, a) && (a.StreamOne? || a.StreamLocked? || a.EndStreaming? || a.Deadlock? || a.Exit?)
    requires a.Exit? ==> s.saver == IdleSaver(Waiting)
    ensures QueuesGrow(s, Apply(s, a))
  {
  }

  lemma ThreadQueues<E>(s: Machine<E>, a: Step<E>)
    requires Enabled(s, a) && !(a.StreamOne? || a.StreamLocked? || a.EndStreaming? || a.Deadlock? || a.Exit?)
    requires !a.Swap? && !a.Release? && !a.FinishLock? && !a.SetSize? && !a.DeactivateStop? && !a.Section? && !a.Commit?
    ensures QueuesGrow(s, Apply(s, a))
  {
  }

  lemma GrowKeeps<E>(s: Machine<E>, s': Machine<E>, t: nat, e: E)
    requires SaverOK(s) && QueuesGrow(s, s') && BeforeWake(s, t, e)
    ensures BeforeWake(s', t, e)
  {
    assert s'.sh.waiters[..s.saver.snap] == s.sh.waiters[..s.saver.snap];
  }

  lemma RoundKeeps<E>(s: Machine<E>, a: Step<E>, t: nat, e: E)
    requires Inv(s) && Enabled(s, a) && BeforeWake(s, t, e) && (a.Swap? || a.Release?)
    ensures BeforeWake(Apply(s, a), t, e)
  {
    if a.Swap? {
      assert Unstreamed(Apply(s, a).saver) == s.sh.queue;
    } else {
      SweptFrame(s);
    }
  }

  lemma BeforeWakeStep<E>(s: Machine<E>, a: Step<E>, t: nat, e: E)
    requires Inv(s) && Enabled(s, a) && BeforeWake(s, t, e)
    requires Streams(s, a) ==> e != s.saver.batch[s.saver.next]
    ensures BeforeWake(Apply(s, a), t, e)
  {
    if Streams(s, a) {
      assert Unstreamed(s.saver) == [s.saver.batch[s.saver.next]] + Unstreamed(StreamNow(s).saver);
    } else if a.Swap? || a.Release? {
      RoundKeeps(s, a, t, e);
    } else {
      QueueStep(s, a);
      GrowKeeps(s, Apply(s, a), t, e);
    }
  }

  /** The unsaved change of `k` will be streamed before thread `t` is woken. */
  ghost predicate Enqueued<E>(s: Machine<E>, t: nat, k: Key) {
    exists e :: e in s.sh.elems && Unsaved(s, t, k, e)
  }

  ghost predicate Unsaved<E>(s: Machine<E>, t: nat, k: Key, e: E) {
    && IfPinned(s.sh, k) == Some(e) && e in s.sh.elems
    && Dirty(s.sh.elems[e].status) && BeforeWake(s, t, e)
  }

  lemma BeforeWakeOwned<E>(s: Machine<E>, t: nat, e: E)
    requires Inv(s) && BeforeWake(s, t, e)
    ensures Owners(s, e) >= 1
  {
    if e in Unstreamed(s.saver) {
      assert e in multiset(s.saver.batch);
    } else {
      assert e in multiset(s.sh.queue);
    }
  }

  /** An unsaved change stays ahead of the waiter, or has just become what the database will hold. */
  lemma UnsavedStep<E>(s: Machine<E>, a: Step<E>, t: nat, k: Key, e: E)
    requires Inv(s) && Enabled(s, a) && Unsaved(s, t, k, e)
    ensures Unsaved(Apply(s, a), t, k, e) || Get(Disk(Apply(s, a)), k) == View(Apply(s, a), k)
  {
    var s' := Apply(s, a);
    StepInv(s, a);
    assert ElementOK(Observe(s, e));
    if Streams(s, a) && e == s.saver.batch[s.saver.next] {
      StreamedPinned(s);
      StreamDisk(s, k);
      StreamView(s);
    } else {
      DirtyStep(s, a, e);
      BeforeWakeStep(s, a, t, e);
      BeforeWakeOwned(s', t, e);
      assert ElementOK(Observe(s', e));
    }
  }

  /**
   How far a saveNow call that began at `i` has come: while thread `t` waits, the change of `k`
   is ahead of it or recorded; once it is woken, the database holds what the map showed since `i`.
   */
  ghost predicate Stage<E>(r: Run<E>, i: nat, m: nat, t: nat, k: Key)
    requires m < |r.states|
  {
    var s := r.states[m];
    if t in s.sh.waiters then Seen(r, i, m, k, Get(Disk(s), k)) || Enqueued(s, t, k)
    else DatabaseSeen(r, i, m, k)
  }

  /** Waiting stage. */
  lemma AheadStep<E>(r: Run<E>, i: nat, m: nat, t: nat, k: Key)
    requires IsRun(r) && i <= m < |r.steps|
    requires Seen(r, i, m, k, Get(Disk(r.states[m]), k)) || Enqueued(r.states[m], t, k)
    ensures Seen(r, i, m + 1, k, Get(Disk(r.states[m + 1]), k)) || Enqueued(r.states[m + 1], t, k)
  {
    var s, a, s' := r.states[m], r.steps[m], r.states[m + 1];
    assert StepAt(r, m);
    RunInv(r, m);
    SeenNow(r, i, m + 1, k);
    SeenNow(r, i, m, k);
    if Seen(r, i, m, k, Get(Disk(s), k)) {
      DiskStep(s, a, k);
      SeenLater(r, i, m, k, Get(Disk(s'), k));
    } else {
      var e :| e in s.sh.elems && Unsaved(s, t, k, e);
      UnsavedStep(s, a, t, k, e);
    }
  }

  /** When the waiter is woken nothing is left to commit, so what the database will hold is what it holds. */
  lemma WokenSaved<E>(s: Machine<E>, a: Step<E>, t: nat, k: Key)
    requires Inv(s) && Enabled(s, a) && t in s.sh.waiters && t !in Apply(s, a).sh.waiters
    ensures Apply(s, a).db == s.db && Apply(s, a).saver.pending == [] && Disk(s) == s.db
    ensures !Enqueued(s, t, k)
  {
    if a.Swap? {
      assert Unstreamed(s.saver) == [];
    } else if a.Release? {
      SweptFrame(s);
      assert Unstreamed(s.saver) == [];
      assert s.sh.waiters == s.sh.waiters[..s.saver.snap] + s.sh.waiters[s.saver.snap..];
      assert Covered(s, t);
    } else {
      WaitersKept(s, a);
    }
  }

  lemma WaitersKept<E>(s: Machine<E>, a: Step<E>)
    requires Inv(s) && Enabled(s, a) && !a.Swap? && !a.Release?
    ensures s.sh.waiters <= Apply(s, a).sh.waiters
  {
    if Streams(s, a) {
    } else {
      QueueStep(s, a);
    }
  }

  /** Only a thread that calls saveNow joins the waiters. */
  lemma WaitersStep<E>(s: Machine<E>, a: Step<E>, t: nat)
    requires Inv(s) && Enabled(s, a) && t !in s.sh.waiters && a != SaveNowCall(t) && a != DeactivateSave(t)
    ensures t !in Apply(s, a).sh.waiters
  {
    if a.Release? {
      SweptFrame(s);
    } else if MayEvict(a) {
      EvictingQueues(s, a);
    } else if a.Section? {
      SectionFrames(s, a.t);
    } else {
      SmallStepWaiters(s, a, t);
    }
  }

  lemma SmallStepWaiters<E>(s: Machine<E>, a: Step<E>, t: nat)
    requires Enabled(s, a) && t !in s.sh.waiters && a != SaveNowCall(t) && a != DeactivateSave(t)
    requires !a.Release? && !MayEvict(a) && !a.Section?
    ensures t !in Apply(s, a).sh.waiters
  {
  }

  lemma StageStep<E>(r: Run<E>, i: nat, m: nat, t: nat, k: Key)
    requires IsRun(r) && i <= m < |r.steps| && Stage(r, i, m, t, k)
    requires PcOf(r.states[m], t).SavingNow?
    ensures Stage(r, i, m + 1, t, k)
  {
    var s, a, s' := r.states[m], r.steps[m], r.states[m + 1];
    assert StepAt(r, m);
    RunInv(r, m);
    if t !in s.sh.waiters {
      WaitersStep(s, a, t);
      DatabaseSeenStep(r, i, m, k);
    } else if t in s'.sh.waiters {
      AheadStep(r, i, m, t, k);
    } else {
      WokenSaved(s, a, t, k);
      SeenLater(r, i, m, k, Get(s.db, k));
    }
  }

  lemma {:induction false} StageRun<E>(r: Run<E>, i: nat, m: nat, n: nat, t: nat, k: Key)
    requires IsRun(r) && i <= m <= n < |r.states| && Stage(r, i, m, t, k)
    requires forall j :: m <= j < n ==> PcOf(r.states[j], t).SavingNow?
    ensures Stage(r, i, n, t, k)
    decreases n - m
  {
    if m < n {
      StageStep(r, i, m, t, k);
      StageRun(r, i, m + 1, n, t, k);
    }
  }

  /** No mutating dispatch on `k` is in progress: none between locate and finished, none between finished's two sections. */
  ghost predicate NoDispatch<E>(s: Machine<E>, k: Key) {
    forall t :: t in s.threads && (s.threads[t].Holding? || s.threads[t].Finishing?) && IfPinned(s.sh, k) == Some(s.threads[t].e) ==>
      if s.threads[t].Holding? then !s.threads[t].mutating else !s.threads[t].enqueue
  }

  /** The map's state at `k` is recorded for the database, or its change is on the modified queue or in the saver's batch. */
  ghost predicate Recorded<E>(s: Machine<E>, k: Key) {
    || Get(Disk(s), k) == View(s, k)
    || exists e :: e in s.sh.elems && IfPinned(s.sh, k) == Some(e) && Dirty(s.sh.elems[e].status)
                && (e in s.sh.queue || e in Unstreamed(s.saver))
  }

  lemma RecordedWithoutDispatch<E>(s: Machine<E>, k: Key)
    requires Inv(s) && NoDispatch(s, k)
    ensures Recorded(s, k)
  {
    if IfPinned(s.sh, k).None? {
      UnpinnedDisk(s, k);
    } else {
      assert ElementOK(Observe(s, IfPinned(s.sh, k).value));
    }
  }

  /**
   Deactivation loses nothing: once the saving thread has been told to stop, the database holds every object
   as the map shows it, except one whose mutating dispatch is still outstanding.
   */
  lemma ShutdownSaves<E>(r: Run<E>, i: nat, k: Key)
    requires IsRun(r) && i < |r.states| && NoDispatch(r.states[i], k)
    requires r.states[i].gate.Stopping? || r.states[i].gate.Closed?
    ensures Get(r.states[i].db, k) == Get(Abstract(r.states[i]).objects, k)
  {
    RunInv(r, i);
    RecordedWithoutDispatch(r.states[i], k);
    AbstractAt(r.states[i], k);
  }

  /**
   saveNow is a durability barrier. Thread `t` calls it at step `i` and returns at step `n`. For
   every object whose state was saved, recorded or enqueued at the call, the database at the
   return holds a state the object had at some moment since the call, for any number of callers.
   */
  lemma SaveNowBarrier<E>(r: Run<E>, t: nat, i: nat, n: nat, k: Key)
    requires IsRun(r) && i < n < |r.steps|
    requires r.steps[i] == SaveNowCall(t) && r.steps[n] == SaveNowReturn(t)
    requires forall j :: i < j <= n ==> PcOf(r.states[j], t).SavingNow?
    requires Recorded(r.states[i], k)
    ensures exists j :: i <= j <= n && Get(r.states[n].db, k) == Get(Abstract(r.states[j]).objects, k)
  {
    StageStart(r, t, i, k);
    StageRun(r, i, i + 1, n, t, k);
    assert StepAt(r, n);
    var j :| i <= j <= n && View(r.states[j], k) == Get(r.states[n].db, k);
    AbstractAt(r.states[j], k);
  }

  /** The call itself. */
  lemma StageStart<E>(r: Run<E>, t: nat, i: nat, k: Key)
    requires IsRun(r) && i < |r.steps| && r.steps[i] == SaveNowCall(t) && Recorded(r.states[i], k)
    ensures Stage(r, i, i + 1, t, k)
  {
    var s, s' := r.states[i], r.states[i + 1];
    assert StepAt(r, i);
    RunInv(r, i);
    SeenNow(r, i, i, k);
    assert Stage(r, i, i + 1, t, k) by {
      if Get(Disk(s), k) == View(s, k) {
        SeenLater(r, i, i, k, Get(Disk(s'), k));
      } else {
        var e :| e in s.sh.elems && IfPinned(s.sh, k) == Some(e) && Dirty(s.sh.elems[e].status)
              && (e in s.sh.queue || e in Unstreamed(s.saver));
        NotCovered(s, t);
        assert Unsaved(s', t, k, e);
      }
    }
  }

  /** A thread that joins the waiters now is not served by the round in progress. */
  lemma NotCovered<E>(s: Machine<E>, t: nat)
    requires Inv(s) && PcOf(s, t).Idle?
    ensures t !in s.sh.waiters
    ensures (s.sh.waiters + [t])[..s.saver.snap] == s.sh.waiters[..s.saver.snap]
  {
  }
}
