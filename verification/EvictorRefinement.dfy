/**
 The evictor refines one plain map. Whatever the interleaving, each step either is invisible
 to clients or is exactly what the plain map would do and answer; saving, committing, loading
 and evicting are invisible, and the saving thread never meets a database error.
 */
module EvictorRefinement {
  import opened EvictorTypes
  import opened EvictorSections
  import opened EvictorMachine
  import opened EvictorInvariant
  import opened EvictorPreservation
  import opened PlainMap

  ghost function KeepOf<E>(s: Machine<E>, k: Key): int {
    match IfPinned(s.sh, k)
    case None => 0
    case Some(e) => if e in s.sh.elems then s.sh.elems[e].keep else 0
  }

  ghost function Objects<E>(s: Machine<E>): map<Key, string> {
    map k | k in s.sh.cache.Keys + s.db.Keys && View(s, k).Some? :: View(s, k).value
  }

  ghost function KeptCounts<E>(s: Machine<E>): map<Key, nat> {
    map k | k in s.sh.cache.Keys && KeepOf(s, k) > 0 :: KeepOf(s, k)
  }

  /** The plain map a state stands for. */
  ghost function Abstract<E>(s: Machine<E>): Plain {
    Plain(Objects(s), KeptCounts(s))
  }

  lemma AbstractAt<E>(s: Machine<E>, k: Key)
    ensures Get(Objects(s), k) == View(s, k)
    ensures Get(KeptCounts(s), k) == if KeepOf(s, k) > 0 then Some(KeepOf(s, k)) else None
  {
  }

  lemma SameMap<K, V>(m: map<K, V>, n: map<K, V>)
    requires forall k :: Get(m, k) == Get(n, k)
    ensures m == n
  {
    forall k ensures k in m <==> k in n {
      assert Get(m, k) == Get(n, k);
    }
    forall k | k in m ensures m[k] == n[k] {
      assert Get(m, k) == Get(n, k);
    }
  }

  /** Two states that agree on every key stand for the same plain map. */
  ghost predicate SameView<E>(s: Machine<E>, s': Machine<E>) {
    forall k {:trigger View(s', k)} {:trigger KeepOf(s', k)} :: View(s', k) == View(s, k) && KeepOf(s', k) == KeepOf(s, k)
  }

  /** They agree on every key but `k`. */
  ghost predicate SameViewBut<E>(s: Machine<E>, s': Machine<E>, k: Key) {
    forall x {:trigger View(s', x)} {:trigger KeepOf(s', x)} ::
      x != k ==> View(s', x) == View(s, x) && KeepOf(s', x) == KeepOf(s, x)
  }

  lemma SameViewAbstract<E>(s: Machine<E>, s': Machine<E>)
    requires SameView(s, s')
    ensures Abstract(s') == Abstract(s)
  {
    forall k
      ensures Get(Objects(s'), k) == Get(Objects(s), k) && Get(KeptCounts(s'), k) == Get(KeptCounts(s), k)
    {
      AbstractAt(s, k);
      AbstractAt(s', k);
    }
    SameMap(Objects(s'), Objects(s));
    SameMap(KeptCounts(s'), KeptCounts(s));
  }

  ghost function SetOrDrop<V>(m: map<Key, V>, k: Key, v: Option<V>): map<Key, V> {
    match v case Some(d) => m[k := d] case None => m - {k}
  }

  lemma ViewButAbstract<E>(s: Machine<E>, s': Machine<E>, k: Key)
    requires SameViewBut(s, s', k)
    ensures Objects(s') == SetOrDrop(Objects(s), k, View(s', k))
    ensures KeptCounts(s') == SetOrDrop(KeptCounts(s), k, if KeepOf(s', k) > 0 then Some(KeepOf(s', k)) else None)
  {
    var m := SetOrDrop(Objects(s), k, View(s', k));
    var n := SetOrDrop(KeptCounts(s), k, if KeepOf(s', k) > 0 then Some(KeepOf(s', k)) else None);
    forall x ensures Get(Objects(s'), x) == Get(m, x) && Get(KeptCounts(s'), x) == Get(n, x) {
      AbstractAt(s, x);
      AbstractAt(s', x);
      assert x != k ==> View(s', x) == View(s, x);
    }
    SameMap(Objects(s'), m);
    SameMap(KeptCounts(s'), n);
  }

  /****** Changes to one element ******/

  ghost predicate OnlyElement<E>(sh: Shared<E>, sh': Shared<E>, e: E) {
    && sh'.cache == sh.cache && sh'.elems.Keys == sh.elems.Keys
    && forall x :: x in sh.elems && x != e ==> sh'.elems[x] == sh.elems[x]
  }

  /** A section changes the view of its element's key only. */
  lemma ElementView<E>(s: Machine<E>, s': Machine<E>, e: E)
    requires Inv(s) && e in s.sh.elems && !s.sh.elems[e].stale
    requires s'.db == s.db && OnlyElement(s.sh, s'.sh, e)
    ensures SameViewBut(s, s', s.sh.elems[e].key)
    ensures View(s, s.sh.elems[e].key) == StateIn(s.sh.elems[e])
    ensures View(s', s.sh.elems[e].key) == StateIn(s'.sh.elems[e])
    ensures KeepOf(s, s.sh.elems[e].key) == s.sh.elems[e].keep
    ensures KeepOf(s', s.sh.elems[e].key) == s'.sh.elems[e].keep
  {
    assert ElementOK(Observe(s, e));
    forall k | k != s.sh.elems[e].key
      ensures View(s', k) == View(s, k) && KeepOf(s', k) == KeepOf(s, k)
    {
      assert IfPinned(s.sh, k) != Some(e);
    }
  }

  /** A section that keeps its element's state and keep count is invisible. */
  lemma ElementInvisible<E>(s: Machine<E>, s': Machine<E>, e: E)
    requires Inv(s) && e in s.sh.elems && !s.sh.elems[e].stale
    requires s'.db == s.db && OnlyElement(s.sh, s'.sh, e)
    requires StateIn(s'.sh.elems[e]) == StateIn(s.sh.elems[e]) && s'.sh.elems[e].keep == s.sh.elems[e].keep
    ensures SameView(s, s')
  {
    ElementView(s, s', e);
  }

  /****** Invisible steps ******/

  /** Evicting an unused element is invisible: a clean one is in the database as it is, a dead one is not there. */
  lemma EvictView<E>(s: Machine<E>, e: E)
    requires Inv(s) && e in s.sh.elems && Evictable(s.sh.elems[e])
    ensures SameView(s, s.(sh := EvictOne(s.sh, e)))
  {
    var s' := s.(sh := EvictOne(s.sh, e));
    var x := s.sh.elems[e];
    assert ElementOK(Observe(s, e));
    IdleUnloaned(s, e);
    EvictOneInv(s, e);
    UnpinnedDisk(s', x.key);
    assert View(s', x.key) == View(s, x.key);
    forall k | k != x.key ensures View(s', k) == View(s, k) && KeepOf(s', k) == KeepOf(s, k) {
      assert IfPinned(s.sh, k) != Some(e);
      assert IfPinned(s'.sh, k) == IfPinned(s.sh, k);
    }
  }

  /** An element without owners is neither queued nor in a mutating dispatch. */
  lemma IdleUnloaned<E>(s: Machine<E>, e: E)
    requires SaverOK(s) && e in s.sh.elems && Owners(s, e) == 0
    ensures !Loaned(s.threads, e) && !Queued(s, e)
  {
    assert CookieThreads(s.threads, e) == {};
    forall t | t in s.threads ensures !HasCookie(s.threads[t], e) {
      assert t !in CookieThreads(s.threads, e);
    }
  }

  lemma {:induction false} EvictScanView<E>(s: Machine<E>, p: nat)
    requires Inv(s)
    ensures SameView(s, s.(sh := EvictScan(s.sh, p)))
    decreases p
  {
    if s.sh.size <= s.sh.limit || p == 0 || p > |s.sh.list| {
    } else if s.sh.elems[s.sh.list[p - 1]].usage == 0 {
      var e := s.sh.list[p - 1];
      assert ElementOK(Observe(s, e));
      EvictOneInv(s, e);
      EvictView(s, e);
      EvictScanView(s.(sh := EvictOne(s.sh, e)), p - 1);
    } else {
      EvictScanView(s, p - 1);
    }
  }

  lemma {:induction false} EvictDeadView<E>(s: Machine<E>, dead: seq<E>)
    requires Inv(s) && (forall e :: e in dead ==> e in s.sh.elems)
    ensures SameView(s, s.(sh := EvictDead(s.sh, dead)))
    decreases |dead|
  {
    if dead != [] {
      var e, x := dead[0], s.sh.elems[dead[0]];
      if !x.stale && x.usage == 0 && x.keep == 0 && x.status.Dead? {
        EvictOneInv(s, e);
        EvictView(s, e);
        EvictDeadView(s.(sh := EvictOne(s.sh, e)), dead[1..]);
      } else {
        EvictDeadView(s, dead[1..]);
      }
    }
  }

  lemma RoundOverView<E>(s: Machine<E>)
    requires Inv(s)
    ensures SameView(s, RoundOver(s))
  {
    forall k ensures View(RoundOver(s), k) == View(s, k) && KeepOf(RoundOver(s), k) == KeepOf(s, k) {
    }
  }

  lemma SweptView<E>(s: Machine<E>)
    requires Inv(s) && s.saver.phase.Writing? && s.saver.pending == []
    ensures SameView(s, Swept(s))
  {
    var s1 := RoundOver(s);
    RoundOverInv(s);
    RoundOverView(s);
    EvictDeadView(s1, s.saver.dead);
    EvictDeadInv(s1, s.saver.dead);
    var s2 := s1.(sh := EvictDead(s1.sh, s.saver.dead));
    EvictScanView(s2, |s2.sh.list|);
  }

  /** The release phase evicts, but clients see nothing of it. */
  lemma ReleaseView<E>(s: Machine<E>)
    requires Inv(s) && Enabled(s, Step.Release)
    ensures SameView(s, Apply(s, Step.Release))
  {
    SweptView(s);
    var s' := Apply(s, Step.Release);
    forall k ensures View(s', k) == View(Swept(s), k) && KeepOf(s', k) == KeepOf(Swept(s), k) {
    }
  }

  /** A committed batch moves records into the database that pinned elements already show. */
  lemma CommitView<E>(s: Machine<E>)
    requires Inv(s) && Enabled(s, Commit)
    ensures SameView(s, Apply(s, Commit))
  {
    var s' := CommitStep(s);
    CommitShape(s);
    CommitInv(s);
    forall k ensures View(s', k) == View(s, k) && KeepOf(s', k) == KeepOf(s, k) {
      if IfPinned(s.sh, k).None? {
        UnpinnedDisk(s, k);
        UnpinnedDisk(s', k);
      }
    }
  }

  lemma StreamView<E>(s: Machine<E>)
    requires Inv(s) && AtElement(s)
    ensures SameView(s, StreamNow(s))
  {
    StreamedPinned(s);
    ElementInvisible(s, StreamNow(s), s.saver.batch[s.saver.next]);
  }

  lemma InstallView<E>(s: Machine<E>, t: nat, e: E, oid: nat)
    requires Inv(s) && Enabled(s, Install(t, e, oid))
    ensures SameView(s, InstallStep(s, t, e, oid))
  {
    var s' := InstallStep(s, t, e, oid);
    var op := PcOf(s, t).op;
    assert PcOK(s, t, s.threads[t]);
    forall k ensures View(s', k) == View(s, k) && KeepOf(s', k) == KeepOf(s, k) {
      if k != op.key {
        assert IfPinned(s'.sh, k) == IfPinned(s.sh, k);
      }
    }
  }

  /** Threads, placeholders, stores, queues and the saver's position change; elements and the database do not. */
  lemma ControlView<E>(s: Machine<E>, s': Machine<E>)
    requires s'.db == s.db && s'.sh.elems == s.sh.elems
    requires forall k :: IfPinned(s'.sh, k) == IfPinned(s.sh, k)
    ensures SameView(s, s')
  {
  }

  lemma FinishCallView<E>(s: Machine<E>, t: nat)
    requires Inv(s) && Enabled(s, FinishCall(t))
    ensures SameView(s, FinishFirstStep(s, t))
  {
    var e := PcOf(s, t).e;
    assert t in CookieThreads(s.threads, e);
    assert ElementOK(Observe(s, e));
    ElementInvisible(s, FinishFirstStep(s, t), e);
  }

  lemma FinishedView<E>(s: Machine<E>, t: nat)
    requires Inv(s) && Enabled(s, FinishLock(t))
    ensures Inv(SetPc(s.(sh := Finished(s, t)), t, Idle))
    ensures SameView(s, SetPc(s.(sh := Finished(s, t)), t, Idle))
  {
    var e := PcOf(s, t).e;
    assert t in CookieThreads(s.threads, e);
    assert ElementOK(Observe(s, e));
    FinishSecondInv(s, t);
    ElementInvisible(s, SetPc(s.(sh := Finished(s, t)), t, Idle), e);
  }

  lemma FinishLockView<E>(s: Machine<E>, t: nat)
    requires Inv(s) && Enabled(s, FinishLock(t))
    ensures SameView(s, Apply(s, FinishLock(t)))
  {
    FinishedView(s, t);
    EvictingShape(s, FinishLock(t));
    var m := SetPc(s.(sh := Finished(s, t)), t, Idle);
    EvictScanView(m, |m.sh.list|);
    assert Apply(s, FinishLock(t)) == m || Apply(s, FinishLock(t)) == m.(sh := EvictScan(m.sh, |m.sh.list|));
  }

  /****** Visible steps ******/

  /** What an operation's section does to the state and the keep count of its element. */
  ghost predicate SectionEffect(op: Op, x: Elem, x': Elem) {
    match op
    case AddOp(_, sv) => x'.keep == x.keep && StateIn(x') == if Present(x.status) then StateIn(x) else Some(sv.state)
    case CreateOp(_, sv) => x'.keep == x.keep && StateIn(x') == Some(sv.state)
    case RemoveOp(_) => x'.keep == 0 && StateIn(x') == None
    case KeepOp(_) => StateIn(x') == StateIn(x) && x'.keep == if Present(x.status) then x.keep + 1 else x.keep
    case LocateOp(_, _) => StateIn(x') == StateIn(x) && x'.keep == x.keep
  }

  /** What the invariant says of the element alone. */
  ghost predicate ElemOK(x: Elem) {
    !x.stale && x.keep >= 0 && (x.keep > 0 ==> Present(x.status)) && (Present(x.status) <==> x.servant.Some?)
  }

  lemma AddEffect<E>(sh: Shared<E>, e: E, op: Op)
    requires e in sh.elems && ElemOK(sh.elems[e]) && op.AddOp?
    ensures OnlyElement(sh, AddSection(sh, e, op.servant), e)
    ensures SectionEffect(op, sh.elems[e], AddSection(sh, e, op.servant).elems[e])
  {
  }

  lemma CreateEffect<E>(sh: Shared<E>, e: E, op: Op)
    requires e in sh.elems && ElemOK(sh.elems[e]) && op.CreateOp?
    ensures OnlyElement(sh, CreateSection(sh, e, op.servant), e)
    ensures SectionEffect(op, sh.elems[e], CreateSection(sh, e, op.servant).elems[e])
  {
  }

  lemma RemoveEffect<E>(sh: Shared<E>, e: E, op: Op)
    requires e in sh.elems && ElemOK(sh.elems[e]) && op.RemoveOp?
    ensures OnlyElement(sh, RemoveSection(sh, e), e)
    ensures SectionEffect(op, sh.elems[e], RemoveSection(sh, e).elems[e])
  {
  }

  lemma KeepEffect<E>(sh: Shared<E>, e: E, op: Op)
    requires e in sh.elems && ElemOK(sh.elems[e]) && op.KeepOp?
    ensures OnlyElement(sh, KeepSection(sh, e), e)
    ensures SectionEffect(op, sh.elems[e], KeepSection(sh, e).elems[e])
  {
  }

  lemma LocateEffect<E>(sh: Shared<E>, e: E, op: Op)
    requires e in sh.elems && ElemOK(sh.elems[e]) && op.LocateOp?
    ensures OnlyElement(sh, LocateSection(sh, e), e)
    ensures SectionEffect(op, sh.elems[e], LocateSection(sh, e).elems[e])
  {
  }

  lemma SectionElement<E>(s: Machine<E>, t: nat)
    requires Enabled(s, Section(t)) && ElemOK(s.sh.elems[PcOf(s, t).e])
    ensures var e, s' := PcOf(s, t).e, SectionStep(s, t);
      && OnlyElement(s.sh, s'.sh, e) && s'.db == s.db
      && SectionEffect(PcOf(s, t).op, s.sh.elems[e], s'.sh.elems[e])
  {
    var e, op := PcOf(s, t).e, PcOf(s, t).op;
    match op
    case AddOp(_, _) => AddEffect(s.sh, e, op);
    case CreateOp(_, _) => CreateEffect(s.sh, e, op);
    case RemoveOp(_) => RemoveEffect(s.sh, e, op);
    case KeepOp(_) => KeepEffect(s.sh, e, op);
    case LocateOp(_, _) => LocateEffect(s.sh, e, op);
  }

  /** That effect on the element of a key is what the plain map does to the key. */
  lemma EffectAccepted(p: Plain, q: Plain, op: Op, x: Elem, x': Elem)
    requires q.objects == SetOrDrop(p.objects, op.key, StateIn(x'))
    requires q.kept == SetOrDrop(p.kept, op.key, if x'.keep > 0 then Some(x'.keep) else None)
    requires Get(p.objects, op.key) == StateIn(x)
    requires Get(p.kept, op.key) == if x.keep > 0 then Some(x.keep) else None
    requires ElemOK(x) && SectionEffect(op, x, x')
    ensures Accepts(p, SectionEvent(op, x), q)
  {
  }

  /** The locked section of an operation is where the operation takes effect. */
  lemma SectionRefines<E>(s: Machine<E>, t: nat)
    requires Inv(s) && Enabled(s, Section(t))
    ensures Accepts(Abstract(s), EventOf(s, Section(t)), Abstract(SectionStep(s, t)))
  {
    var e, op := PcOf(s, t).e, PcOf(s, t).op;
    var s' := SectionStep(s, t);
    assert PcOK(s, t, s.threads[t]);
    if s.sh.elems[e].stale {
      SameViewAbstract(s, s');
    } else {
      assert ElementOK(Observe(s, e));
      SectionElement(s, t);
      ElementView(s, s', e);
      ViewButAbstract(s, s', op.key);
      AbstractAt(s, op.key);
      EffectAccepted(Abstract(s), Abstract(s'), op, s.sh.elems[e], s'.sh.elems[e]);
    }
  }

  /** An operation that finds nothing answers as the plain map does for an absent key. */
  lemma NotFoundAccepted<E>(s: Machine<E>, s': Machine<E>, op: Op)
    requires SameView(s, s') && View(s, op.key).None? && KeepOf(s, op.key) == 0
    ensures Accepts(Abstract(s), NotFound(op), Abstract(s'))
  {
    SameViewAbstract(s, s');
    AbstractAt(s, op.key);
    assert Objects(s) - {op.key} == Objects(s);
    assert KeptCounts(s) - {op.key} == KeptCounts(s);
  }

  lemma InstallRefines<E>(s: Machine<E>, t: nat, e: E, oid: nat)
    requires Inv(s) && Enabled(s, Install(t, e, oid))
    ensures Accepts(Abstract(s), EventOf(s, Install(t, e, oid)), Abstract(InstallStep(s, t, e, oid)))
  {
    var op := PcOf(s, t).op;
    assert PcOK(s, t, s.threads[t]);
    InstallView(s, t, e, oid);
    if PcOf(s, t).record.None? && !op.AddOp? && !op.CreateOp? {
      NotFoundAccepted(s, InstallStep(s, t, e, oid), op);
    } else {
      SameViewAbstract(s, InstallStep(s, t, e, oid));
    }
  }

  lemma CallRefines<E>(s: Machine<E>, t: nat, op: Op)
    requires Inv(s) && Enabled(s, Call(t, op))
    ensures Accepts(Abstract(s), EventOf(s, Call(t, op)), Abstract(Apply(s, Call(t, op))))
  {
    var s' := Apply(s, Call(t, op));
    ControlView(s, s');
    if op.key.facet in s.sh.stores || op.AddOp? {
      SameViewAbstract(s, s');
    } else {
      NotFoundAccepted(s, s', op);
    }
  }

  lemma SetSame<V>(m: map<Key, V>, k: Key)
    ensures SetOrDrop(m, k, Get(m, k)) == m
  {
    forall x ensures Get(SetOrDrop(m, k, Get(m, k)), x) == Get(m, x) {
    }
    SameMap(SetOrDrop(m, k, Get(m, k)), m);
  }

  lemma ReleaseElement<E>(s: Machine<E>, t: nat, k: Key, e: E)
    requires Inv(s) && Enabled(s, ReleaseCall(t, k)) && IfPinned(s.sh, k) == Some(e)
    ensures var s', x := Apply(s, ReleaseCall(t, k)), s.sh.elems[e];
      && Objects(s') == Objects(s) && Get(KeptCounts(s), k) == (if x.keep > 0 then Some(x.keep) else None)
      && KeptCounts(s') == SetOrDrop(KeptCounts(s), k, if x.keep > 1 then Some(x.keep - 1) else None)
  {
    var s' := Apply(s, ReleaseCall(t, k));
    assert ElementOK(Observe(s, e));
    ElementView(s, s', e);
    ViewButAbstract(s, s', k);
    AbstractAt(s, k);
    SetSame(Objects(s), k);
  }

  lemma ReleaseRefines<E>(s: Machine<E>, t: nat, k: Key)
    requires Inv(s) && Enabled(s, ReleaseCall(t, k))
    ensures Accepts(Abstract(s), EventOf(s, ReleaseCall(t, k)), Abstract(Apply(s, ReleaseCall(t, k))))
  {
    var s' := Apply(s, ReleaseCall(t, k));
    AbstractAt(s, k);
    if IfPinned(s.sh, k).None? {
      SameViewAbstract(s, s');
    } else {
      ReleaseElement(s, t, k, IfPinned(s.sh, k).value);
      SetSame(KeptCounts(s), k);
    }
  }

  lemma MutateElement<E>(s: Machine<E>, t: nat, v: string)
    requires Inv(s) && Enabled(s, Mutate(t, v))
    requires s.sh.elems[PcOf(s, t).e].servant.Some? && s.sh.elems[PcOf(s, t).e].servant.value.oid == PcOf(s, t).oid
    ensures var s', k := Apply(s, Mutate(t, v)), s.sh.elems[PcOf(s, t).e].key;
      && k in Objects(s) && Objects(s') == Objects(s)[k := v] && KeptCounts(s') == KeptCounts(s)
  {
    var e := PcOf(s, t).e;
    var x := s.sh.elems[e];
    var s' := Apply(s, Mutate(t, v));
    assert t in CookieThreads(s.threads, e);
    assert ElementOK(Observe(s, e));
    ElementView(s, s', e);
    ViewButAbstract(s, s', x.key);
    AbstractAt(s, x.key);
    SetSame(KeptCounts(s), x.key);
  }

  lemma MutateRefines<E>(s: Machine<E>, t: nat, v: string)
    requires Inv(s) && Enabled(s, Mutate(t, v))
    ensures Accepts(Abstract(s), EventOf(s, Mutate(t, v)), Abstract(Apply(s, Mutate(t, v))))
  {
    var x := s.sh.elems[PcOf(s, t).e];
    if x.servant.Some? && x.servant.value.oid == PcOf(s, t).oid {
      MutateElement(s, t, v);
    }
  }

  lemma HasRefines<E>(s: Machine<E>, t: nat, k: Key)
    requires Inv(s) && Enabled(s, HasCall(t, k))
    ensures Accepts(Abstract(s), EventOf(s, HasCall(t, k)), Abstract(Apply(s, HasCall(t, k))))
  {
    ControlView(s, Apply(s, HasCall(t, k)));
    SameViewAbstract(s, Apply(s, HasCall(t, k)));
    AbstractAt(s, k);
    if IfPinned(s.sh, k).Some? {
      assert ElementOK(Observe(s, IfPinned(s.sh, k).value));
    }
  }

  /** Steps with no event. */
  ghost predicate Hidden<E>(a: Step<E>) {
    !a.Call? && !a.Install? && !a.Section? && !a.ReleaseCall? && !a.HasCall? && !a.Mutate?
  }

  lemma EvictingView<E>(s: Machine<E>, limit: nat)
    requires Inv(s)
    ensures SameView(s, s.(sh := EvictIdle(s.sh.(limit := limit))))
  {
    LimitInv(s, limit);
    var m := s.(sh := s.sh.(limit := limit));
    ControlView(s, m);
    EvictScanView(m, |m.sh.list|);
  }

  lemma StreamStepView<E>(s: Machine<E>, a: Step<E>)
    requires Inv(s) && Enabled(s, a) && (a.StreamOne? || a.StreamLocked?)
    ensures SameView(s, Apply(s, a))
  {
    if Apply(s, a) == StreamNow(s) {
      StreamView(s);
    } else {
      ControlView(s, Apply(s, a));
    }
  }

  /** Hidden steps that change no element and leave the database alone. */
  ghost predicate Control<E>(a: Step<E>) {
    || a.OpenStore? || a.PinHit? || a.PinMiss? || a.LoadRead? || a.LoadFail? || a.HasRead?
    || a.SaveNowCall? || a.SaveNowReturn? || a.Swap? || a.EndStreaming? || a.Deadlock? || a.Exit?
    || a.DeactivateCall? || a.DeactivateSave? || a.DeactivateDone?
  }

  lemma ControlStepView<E>(s: Machine<E>, a: Step<E>)
    requires Inv(s) && Enabled(s, a) && Control(a)
    ensures SameView(s, Apply(s, a))
  {
    if a.LoadFail? { assert PcOK(s, a.t, s.threads[a.t]); }
    ControlPinned(s, a);
    ControlView(s, Apply(s, a));
  }

  lemma ControlPinned<E>(s: Machine<E>, a: Step<E>)
    requires Enabled(s, a) && Control(a)
    requires a.LoadFail? ==> PcOf(s, a.t).op.key in s.sh.cache && s.sh.cache[PcOf(s, a.t).op.key].Placeholder?
    ensures Apply(s, a).db == s.db && Apply(s, a).sh.elems == s.sh.elems
    ensures forall k :: IfPinned(Apply(s, a).sh, k) == IfPinned(s.sh, k)
  {
    if a.PinMiss? || a.LoadFail? {
      PlaceholderPinned(s, a);
    } else {
      CacheKept(s, a);
    }
  }

  lemma PlaceholderPinned<E>(s: Machine<E>, a: Step<E>)
    requires Enabled(s, a) && (a.PinMiss? || a.LoadFail?)
    requires a.LoadFail? ==> PcOf(s, a.t).op.key in s.sh.cache && s.sh.cache[PcOf(s, a.t).op.key].Placeholder?
    ensures Apply(s, a).db == s.db && Apply(s, a).sh.elems == s.sh.elems
    ensures forall k :: IfPinned(Apply(s, a).sh, k) == IfPinned(s.sh, k)
  {
  }

  lemma CacheKept<E>(s: Machine<E>, a: Step<E>)
    requires Enabled(s, a) && Control(a) && !a.PinMiss? && !a.LoadFail?
    ensures Apply(s, a).db == s.db && Apply(s, a).sh.elems == s.sh.elems && Apply(s, a).sh.cache == s.sh.cache
  {
  }

  lemma HiddenView<E>(s: Machine<E>, a: Step<E>)
    requires Inv(s) && Enabled(s, a) && Hidden(a)
    ensures SameView(s, Apply(s, a))
  {
    if Control(a) {
      ControlStepView(s, a);
    } else if a.SetSize? {
      if a.n >= 0 { EvictingView(s, a.n); }
    } else if a.FinishCall? {
      FinishCallView(s, a.t);
    } else if a.FinishLock? {
      FinishLockView(s, a.t);
    } else if a.Commit? {
      CommitView(s);
    } else if a.Release? {
      ReleaseView(s);
    } else if a.DeactivateStop? {
      EvictingView(s, 0);
      ControlView(s.(sh := EvictIdle(s.sh.(limit := 0))), Apply(s, a));
    } else {
      StreamStepView(s, a);
    }
  }

  /** Every step of the evictor is a step of the plain map. */
  lemma StepRefines<E>(s: Machine<E>, a: Step<E>)
    requires Inv(s) && Enabled(s, a)
    ensures Accepts(Abstract(s), EventOf(s, a), Abstract(Apply(s, a)))
  {
    if Hidden(a) {
      HiddenView(s, a);
      SameViewAbstract(s, Apply(s, a));
    } else if a.Call? {
      CallRefines(s, a.t, a.op);
    } else if a.Install? {
      InstallRefines(s, a.t, a.e, a.oid);
    } else if a.Section? {
      SectionRefines(s, a.t);
    } else if a.ReleaseCall? {
      ReleaseRefines(s, a.t, a.key);
    } else if a.HasCall? {
      HasRefines(s, a.t, a.key);
    } else {
      MutateRefines(s, a.t, a.state);
    }
  }
}
