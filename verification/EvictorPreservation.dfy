/** Every step of the machine keeps the invariant. */
module EvictorPreservation {
  import opened EvictorTypes
  import opened EvictorSections
  import opened EvictorMachine
  import opened EvictorInvariant

  /****** Threads ******/

  lemma CookiesAfter<E>(threads: map<nat, Pc<E>>, t: nat, pc: Pc<E>, e: E)
    ensures Cookies(threads[t := pc], e)
            == Cookies(threads, e)
               - (if t in threads && HasCookie(threads[t], e) then 1 else 0)
               + (if HasCookie(pc, e) then 1 else 0)
  {
    var a := CookieThreads(threads, e);
    var b := CookieThreads(threads[t := pc], e);
    if HasCookie(pc, e) {
      assert b == a + {t};
    } else {
      assert b == a - {t};
    }
  }

  /** A thread that moves between two places that own no usage count changes no observation. */
  lemma SetPcObserve<E>(s: Machine<E>, t: nat, pc: Pc<E>, e: E)
    requires e in s.sh.elems
    requires !PcOf(s, t).Holding? && !PcOf(s, t).Finishing? && !pc.Holding? && !pc.Finishing?
    ensures Observe(SetPc(s, t, pc), e) == Observe(s, e)
  {
    CookiesAfter(s.threads, t, pc, e);
    var threads' := s.threads[t := pc];
    forall u | u in s.threads && (s.threads[u].Holding? || s.threads[u].Finishing?)
      ensures threads'[u] == s.threads[u]
    {
      assert u != t;
    }
    assert EnqueuePending(s.threads, e) == EnqueuePending(threads', e);
    assert Loaned(s.threads, e) == Loaned(threads', e);
  }

  lemma SetPcInv<E>(s: Machine<E>, t: nat, pc: Pc<E>)
    requires Inv(s)
    requires !PcOf(s, t).Holding? && !PcOf(s, t).Finishing? && !pc.Holding? && !pc.Finishing?
    requires PcOK(s, t, pc) && !PcOf(s, t).Deactivating?
    requires !s.gate.Open? && !s.gate.Draining? ==> !InGuard(pc)
    requires t in s.sh.waiters && !pc.SavingNow? ==> s.gate == Saving(t)
    ensures Inv(SetPc(s, t, pc))
  {
    var s' := SetPc(s, t, pc);
    assert ElementsOK(s') by {
      forall e | e in s.sh.elems ensures ElementOK(Observe(s', e)) {
        SetPcObserve(s, t, pc, e);
      }
    }
    assert HandlesOK(s') by {
      forall u | u in s'.threads ensures PcOK(s', u, s'.threads[u]) {
        assert u != t ==> PcOK(s, u, s.threads[u]);
      }
    }
  }

  /****** Changes to one element ******/

  /** Only the mutable fields of elements, the list and the queue differ, and the queue only grew while clients could run. */
  ghost predicate SameShape<E>(s: Machine<E>, sh': Shared<E>) {
    && sh'.elems.Keys == s.sh.elems.Keys
    && (forall e :: e in s.sh.elems ==> sh'.elems[e].key == s.sh.elems[e].key)
    && sh'.cache == s.sh.cache && sh'.stores == s.sh.stores && sh'.waiters == s.sh.waiters
    && (sh'.queue == s.sh.queue
        || (!NoGuards(s) && exists e :: e in s.sh.elems && sh'.queue == s.sh.queue + [e]))
  }

  lemma ShapeInv<E>(s: Machine<E>, sh': Shared<E>)
    requires Inv(s) && SameShape(s, sh')
    ensures CacheOK(s.(sh := sh')) && HandlesOK(s.(sh := sh')) && PendingOK(s.(sh := sh'))
    ensures SaverOK(s.(sh := sh')) && GateOK(s.(sh := sh'))
  {
    var s' := s.(sh := sh');
    assert HandlesOK(s') by {
      forall u | u in s'.threads ensures PcOK(s', u, s'.threads[u]) {
        assert PcOK(s, u, s.threads[u]);
      }
    }
  }

  /** What a change to elements, list and queue does to the observation of `e`. */
  lemma ShapeObserve<E>(s: Machine<E>, sh': Shared<E>, e: E, pushed: seq<E>)
    requires SameShape(s, sh') && e in s.sh.elems && sh'.queue == s.sh.queue + pushed
    ensures Observe(s.(sh := sh'), e) == Observe(s, e).(
              elem := sh'.elems[e],
              listed := e in sh'.list,
              owners := Observe(s, e).owners + multiset(pushed)[e],
              queued := Observe(s, e).queued || e in pushed)
  {
    assert multiset(sh'.queue) == multiset(s.sh.queue) + multiset(pushed);
  }

  /** Every element but `e` is untouched. */
  ghost predicate OthersSame<E>(sh: Shared<E>, sh': Shared<E>, e: E) {
    && sh'.elems.Keys == sh.elems.Keys
    && forall x :: x in sh.elems && x != e ==> sh'.elems[x] == sh.elems[x] && (x in sh'.list <==> x in sh.list)
  }

  /** The observation of the one element a section changed. */
  ghost function Changed<E>(s: Machine<E>, sh': Shared<E>, e: E, pushed: seq<E>): Observation
    requires e in s.sh.elems && e in sh'.elems
  {
    var o := Observe(s, e);
    o.(elem := sh'.elems[e], listed := e in sh'.list,
       owners := o.owners + |pushed|, queued := o.queued || pushed != [])
  }

  lemma OneElement<E>(s: Machine<E>, sh': Shared<E>, e: E, pushed: seq<E>)
    requires ElementsOK(s) && SameShape(s, sh') && e in s.sh.elems
    requires pushed == [] || pushed == [e]
    requires sh'.queue == s.sh.queue + pushed
    requires OthersSame(s.sh, sh', e)
    requires ElementOK(Changed(s, sh', e, pushed))
    ensures ElementsOK(s.(sh := sh'))
  {
    forall x | x in s.sh.elems ensures ElementOK(Observe(s.(sh := sh'), x)) {
      assert ElementOK(Observe(s, x));
      ShapeObserve(s, sh', x, pushed);
    }
  }

  /****** fixEvictPosition and the evictions ******/

  lemma TouchInv<E>(s: Machine<E>, e: E)
    requires Inv(s) && e in s.sh.elems && !s.sh.elems[e].stale
    ensures Inv(s.(sh := Touch(s.sh, e)))
  {
    var sh' := Touch(s.sh, e);
    TouchElement(s, e);
    assert sh'.queue == s.sh.queue + [];
    OneElement(s, sh', e, []);
    ShapeInv(s, sh');
  }

  lemma TouchElement<E>(s: Machine<E>, e: E)
    requires ElementsOK(s) && ListOK(s) && e in s.sh.elems && !s.sh.elems[e].stale
    ensures ElementOK(Changed(s, Touch(s.sh, e), e, []))
    ensures ListOK(s.(sh := Touch(s.sh, e))) && OthersSame(s.sh, Touch(s.sh, e), e)
  {
    assert ElementOK(Observe(s, e));
    WithoutNoDup(s.sh.list, e);
  }

  /****** The locked sections of the client operations ******/

  /** A change of status, servant or keep count that leaves the list alone, with or without an entry on the modified queue. */
  lemma UpdateInv<E>(s: Machine<E>, e: E, x: Elem, push: bool)
    requires Inv(s) && e in s.sh.elems && !s.sh.elems[e].stale
    requires x == s.sh.elems[e].(status := x.status, servant := x.servant)
    requires s.sh.elems[e].usage >= 0
    requires push ==> !NoGuards(s)
    requires Present(x.status) <==> x.servant.Some?
    requires x.keep > 0 ==> Present(x.status)
    requires x.status.Created? || x.status.Dead? <==> s.sh.elems[e].status.Created? || s.sh.elems[e].status.Dead?
    requires x.status.Clean? ==> x == s.sh.elems[e]
    requires Dirty(x.status) ==> push || Dirty(s.sh.elems[e].status)
    ensures var t := With(s.sh, e, x); Inv(s.(sh := if push then Push(t, e) else t))
  {
    var t := With(s.sh, e, x);
    var sh' := if push then Push(t, e) else t;
    var pushed := if push then [e] else [];
    UpdatedElement(s, e, x, push);
    assert sh'.queue == s.sh.queue + pushed;
    OneElement(s, sh', e, pushed);
    ShapeInv(s, sh');
  }

  lemma UpdatedElement<E>(s: Machine<E>, e: E, x: Elem, push: bool)
    requires ElementsOK(s) && e in s.sh.elems && !s.sh.elems[e].stale && s.sh.elems[e].usage >= 0
    requires x == s.sh.elems[e].(status := x.status, servant := x.servant)
    requires (Present(x.status) <==> x.servant.Some?) && (x.keep > 0 ==> Present(x.status))
    requires x.status.Created? || x.status.Dead? <==> s.sh.elems[e].status.Created? || s.sh.elems[e].status.Dead?
    requires x.status.Clean? ==> x == s.sh.elems[e]
    requires Dirty(x.status) ==> push || Dirty(s.sh.elems[e].status)
    ensures var t := With(s.sh, e, x);
      ElementOK(Changed(s, if push then Push(t, e) else t, e, if push then [e] else []))
  {
    assert ElementOK(Observe(s, e));
  }

  lemma AddInv<E>(s: Machine<E>, e: E, servant: Servant)
    requires Inv(s) && e in s.sh.elems && !s.sh.elems[e].stale && !NoGuards(s)
    ensures Inv(s.(sh := AddSection(s.sh, e, servant)))
  {
    TouchInv(s, e);
    var s1 := s.(sh := Touch(s.sh, e));
    assert ElementOK(Observe(s, e));
    var x := s1.sh.elems[e];
    match x.status
    case Destroyed => UpdateInv(s1, e, x.(status := Modified, servant := Some(servant)), false);
    case Dead => UpdateInv(s1, e, x.(status := Created, servant := Some(servant)), true);
    case _ =>
  }

  lemma CreateInv<E>(s: Machine<E>, e: E, servant: Servant)
    requires Inv(s) && e in s.sh.elems && !s.sh.elems[e].stale && !NoGuards(s)
    ensures Inv(s.(sh := CreateSection(s.sh, e, servant)))
  {
    TouchInv(s, e);
    var s1 := s.(sh := Touch(s.sh, e));
    assert ElementOK(Observe(s, e));
    var x := s1.sh.elems[e];
    match x.status
    case Clean => UpdateInv(s1, e, x.(status := Modified, servant := Some(servant)), true);
    case Created => UpdateInv(s1, e, x.(servant := Some(servant)), false);
    case Modified => UpdateInv(s1, e, x.(servant := Some(servant)), false);
    case Destroyed => UpdateInv(s1, e, x.(status := Modified, servant := Some(servant)), false);
    case Dead => UpdateInv(s1, e, x.(status := Created, servant := Some(servant)), true);
  }

  /** A kept element goes back to the front of the list. */
  lemma UnkeepInv<E>(s: Machine<E>, e: E)
    requires Inv(s) && e in s.sh.elems && s.sh.elems[e].keep > 0
    ensures Inv(s.(sh := Unkept(s.sh, e)))
  {
    var sh' := Unkept(s.sh, e);
    assert ElementOK(Observe(s, e));
    assert sh'.queue == s.sh.queue + [];
    OneElement(s, sh', e, []);
    ShapeInv(s, sh');
  }

  /** The status update of removeFacet, done once a kept element is no longer kept. */
  lemma RemoveStatusInv<E>(s: Machine<E>, e: E)
    requires Inv(s) && e in s.sh.elems && !s.sh.elems[e].stale && !NoGuards(s) && s.sh.elems[e].keep == 0
    ensures Inv(s.(sh := RemoveStatus(s.sh, e)))
  {
    TouchInv(s, e);
    var s1 := s.(sh := Touch(s.sh, e));
    assert ElementOK(Observe(s, e));
    var x := s1.sh.elems[e];
    match x.status
    case Clean => UpdateInv(s1, e, x.(status := Destroyed, servant := None), true);
    case Created => UpdateInv(s1, e, x.(status := Dead, servant := None), false);
    case Modified => UpdateInv(s1, e, x.(status := Destroyed, servant := None), false);
    case _ =>
  }

  /** removeFacet clears the keep count last; clearing it first gives the same state. */
  lemma RemoveKept<E>(sh: Shared<E>, e: E)
    requires e in sh.elems && sh.elems[e].keep > 0 && sh.elems[e].usage >= 0 && e !in sh.list
    ensures RemoveSection(sh, e) == RemoveStatus(Unkept(sh, e), e)
  {
    var u := Unkept(sh, e);
    WithoutAbsent(sh.list, e);
    assert u.list[1..] == sh.list;
    assert Touch(u, e) == u;
    assert RemoveStatus(sh, e).list == sh.list;
    var a, b := RemoveSection(sh, e), RemoveStatus(u, e);
    assert a.elems == b.elems;
    assert a == b;
  }

  lemma RemoveInv<E>(s: Machine<E>, e: E)
    requires Inv(s) && e in s.sh.elems && !s.sh.elems[e].stale && !NoGuards(s)
    ensures Inv(s.(sh := RemoveSection(s.sh, e)))
  {
    assert ElementOK(Observe(s, e));
    if s.sh.elems[e].keep == 0 {
      RemoveStatusInv(s, e);
    } else {
      RemoveKept(s.sh, e);
      UnkeepInv(s, e);
      RemoveStatusInv(s.(sh := Unkept(s.sh, e)), e);
    }
  }

  lemma KeepInv<E>(s: Machine<E>, e: E)
    requires Inv(s) && e in s.sh.elems && !s.sh.elems[e].stale
    ensures Inv(s.(sh := KeepSection(s.sh, e)))
  {
    var sh' := KeepSection(s.sh, e);
    KeptElement(s, e);
    assert sh'.queue == s.sh.queue + [];
    OneElement(s, sh', e, []);
    ShapeInv(s, sh');
  }

  lemma KeptElement<E>(s: Machine<E>, e: E)
    requires ElementsOK(s) && ListOK(s) && e in s.sh.elems && !s.sh.elems[e].stale
    ensures ElementOK(Changed(s, KeepSection(s.sh, e), e, []))
    ensures ListOK(s.(sh := KeepSection(s.sh, e))) && OthersSame(s.sh, KeepSection(s.sh, e), e)
  {
    assert ElementOK(Observe(s, e));
    WithoutNoDup(s.sh.list, e);
  }

  lemma ReleaseInv<E>(s: Machine<E>, e: E)
    requires Inv(s) && e in s.sh.elems
    ensures Inv(s.(sh := ReleaseSection(s.sh, e)))
  {
    if s.sh.elems[e].keep == 1 {
      UnkeepInv(s, e);
    } else if s.sh.elems[e].keep > 1 {
      var sh' := ReleaseSection(s.sh, e);
      assert ElementOK(Observe(s, e));
      assert sh'.queue == s.sh.queue + [];
      OneElement(s, sh', e, []);
      ShapeInv(s, sh');
    }
  }

  /****** Evictions ******/

  /** No client, no queue and no saver owns the element: it may be evicted. */
  ghost predicate Evictable(x: Elem) {
    !x.stale && x.usage == 0 && x.keep == 0
  }

  lemma EvictObserve<E>(s: Machine<E>, e: E, x: E)
    requires ElementsOK(s) && CacheOK(s) && e in s.sh.elems && Evictable(s.sh.elems[e]) && x in s.sh.elems
    ensures var o := Observe(s, x);
      Observe(s.(sh := EvictOne(s.sh, e)), x)
      == if x == e then o.(elem := o.elem.(stale := true), pinned := false, listed := false) else o
  {
    var sh' := EvictOne(s.sh, e);
    assert Observe(s, e).pinned by { assert ElementOK(Observe(s, e)); }
    assert ElementOK(Observe(s, x));
    assert x in sh'.list <==> x in s.sh.list && x != e;
  }

  lemma EvictElements<E>(s: Machine<E>, e: E)
    requires ElementsOK(s) && CacheOK(s) && e in s.sh.elems && Evictable(s.sh.elems[e])
    ensures ElementsOK(s.(sh := EvictOne(s.sh, e)))
  {
    forall x | x in s.sh.elems ensures ElementOK(Observe(s.(sh := EvictOne(s.sh, e)), x)) {
      EvictObserve(s, e, x);
      assert ElementOK(Observe(s, x));
    }
  }

  lemma EvictOneInv<E>(s: Machine<E>, e: E)
    requires Inv(s) && e in s.sh.elems && Evictable(s.sh.elems[e])
    ensures Inv(s.(sh := EvictOne(s.sh, e)))
  {
    var s' := s.(sh := EvictOne(s.sh, e));
    EvictElements(s, e);
    assert ElementOK(Observe(s, e));
    WithoutNoDup(s.sh.list, e);
    assert HandlesOK(s') by {
      forall u | u in s'.threads ensures PcOK(s', u, s'.threads[u]) {
        assert PcOK(s, u, s.threads[u]);
      }
    }
  }

  lemma {:induction false} EvictScanInv<E>(s: Machine<E>, p: nat)
    requires Inv(s)
    ensures Inv(s.(sh := EvictScan(s.sh, p)))
    decreases p
  {
    if s.sh.size <= s.sh.limit || p == 0 || p > |s.sh.list| {
    } else if s.sh.elems[s.sh.list[p - 1]].usage == 0 {
      var e := s.sh.list[p - 1];
      assert ElementOK(Observe(s, e));
      EvictOneInv(s, e);
      EvictScanInv(s.(sh := EvictOne(s.sh, e)), p - 1);
    } else {
      EvictScanInv(s, p - 1);
    }
  }

  lemma {:induction false} EvictDeadInv<E>(s: Machine<E>, dead: seq<E>)
    requires Inv(s) && (forall e :: e in dead ==> e in s.sh.elems)
    ensures Inv(s.(sh := EvictDead(s.sh, dead)))
    decreases |dead|
  {
    if dead != [] {
      var e, x := dead[0], s.sh.elems[dead[0]];
      if !x.stale && x.usage == 0 && x.keep == 0 && x.status.Dead? {
        EvictOneInv(s, e);
        EvictDeadInv(s.(sh := EvictOne(s.sh, e)), dead[1..]);
      } else {
        EvictDeadInv(s, dead[1..]);
      }
    }
  }

  /****** Cookies ******/

  ghost predicate MutatingOn<E>(pc: Pc<E>, e: E) {
    pc.Holding? && pc.e == e && pc.mutating
  }

  /** What a thread's move does to the observation of `x`. */
  lemma PcObserve<E>(s: Machine<E>, t: nat, pc: Pc<E>, x: E)
    requires x in s.sh.elems
    ensures var o, o' := Observe(s, x), Observe(SetPc(s, t, pc), x);
      && o' == o.(owners := o'.owners, queued := o'.queued, loaned := o'.loaned)
      && o'.owners == o.owners - (if HasCookie(PcOf(s, t), x) then 1 else 0) + (if HasCookie(pc, x) then 1 else 0)
      && (o.queued && PcOf(s, t) != Finishing(x, true) ==> o'.queued)
      && (pc == Finishing(x, true) ==> o'.queued)
      && (o.loaned && !MutatingOn(PcOf(s, t), x) ==> o'.loaned)
      && (MutatingOn(pc, x) ==> o'.loaned)
  {
    CookiesAfter(s.threads, t, pc, x);
    StillPending(s, t, pc, x);
  }

  /** Somebody else's mutating dispatch, or finished() on its way to the queue, stays what it is. */
  lemma StillPending<E>(s: Machine<E>, t: nat, pc: Pc<E>, x: E)
    ensures var threads' := s.threads[t := pc];
      && (EnqueuePending(s.threads, x) && PcOf(s, t) != Finishing(x, true) ==> EnqueuePending(threads', x))
      && (pc == Finishing(x, true) ==> EnqueuePending(threads', x))
      && (Loaned(s.threads, x) && !MutatingOn(PcOf(s, t), x) ==> Loaned(threads', x))
      && (MutatingOn(pc, x) ==> Loaned(threads', x))
  {
    var threads' := s.threads[t := pc];
    assert threads'[t] == pc;
    if EnqueuePending(s.threads, x) && PcOf(s, t) != Finishing(x, true) {
      var u :| u in s.threads && s.threads[u] == Finishing(x, true);
      assert threads'[u] == Finishing(x, true);
    }
    if Loaned(s.threads, x) && !MutatingOn(PcOf(s, t), x) {
      var u :| u in s.threads && s.threads[u].Holding? && s.threads[u].e == x && s.threads[u].mutating;
      assert threads'[u] == s.threads[u];
    }
  }

  /** Everything but the element invariants survives the move of a thread with a cookie. */
  lemma PcRest<E>(s: Machine<E>, t: nat, pc: Pc<E>)
    requires HandlesOK(s) && CacheOK(s) && PendingOK(s) && SaverOK(s) && GateOK(s) && ListOK(s)
    requires PcOK(s, t, pc) && !PcOf(s, t).SavingNow? && !PcOf(s, t).Deactivating?
    requires !s.gate.Open? && !s.gate.Draining? ==> !InGuard(pc)
    ensures var s' := SetPc(s, t, pc);
      HandlesOK(s') && CacheOK(s') && PendingOK(s') && SaverOK(s') && GateOK(s') && ListOK(s')
  {
    var s' := SetPc(s, t, pc);
    assert HandlesOK(s') by {
      forall u | u in s'.threads ensures PcOK(s', u, s'.threads[u]) {
        assert u != t ==> PcOK(s, u, s.threads[u]);
      }
    }
  }

  /** locate: the cookie owns the usage count it adds. */
  lemma TakeCookieInv<E>(s: Machine<E>, t: nat, e: E, oid: nat, mutating: bool)
    requires Inv(s) && e in s.sh.elems && !s.sh.elems[e].stale && s.sh.elems[e].usage >= 0
    requires PcOf(s, t).Locking?
    ensures Inv(SetPc(s, t, Holding(e, oid, mutating)).(
                  sh := With(s.sh, e, s.sh.elems[e].(usage := s.sh.elems[e].usage + 1))))
  {
    var pc := Holding(e, oid, mutating);
    var sh' := With(s.sh, e, s.sh.elems[e].(usage := s.sh.elems[e].usage + 1));
    var m := s.(sh := sh');
    var s' := SetPc(m, t, pc);
    assert sh'.queue == s.sh.queue + [];
    ShapeInv(s, sh');
    PcRest(m, t, pc);
    assert ListOK(s');
    forall x | x in s.sh.elems ensures ElementOK(Observe(s', x)) {
      CookieElement(s, t, e, pc, x);
    }
  }

  lemma CookieElement<E>(s: Machine<E>, t: nat, e: E, pc: Pc<E>, x: E)
    requires ElementsOK(s) && e in s.sh.elems && !s.sh.elems[e].stale && s.sh.elems[e].usage >= 0 && x in s.sh.elems
    requires PcOf(s, t).Locking? && pc.Holding? && pc.e == e
    ensures var m := s.(sh := With(s.sh, e, s.sh.elems[e].(usage := s.sh.elems[e].usage + 1)));
      ElementOK(Observe(SetPc(m, t, pc), x))
  {
    var sh' := With(s.sh, e, s.sh.elems[e].(usage := s.sh.elems[e].usage + 1));
    assert ElementOK(Observe(s, x));
    assert sh'.queue == s.sh.queue + [];
    ShapeObserve(s, sh', x, []);
    PcObserve(s.(sh := sh'), t, pc, x);
  }

  /** A section under the evictor lock and the move of the thread that runs it. */
  lemma SectionAndMove<E>(s: Machine<E>, t: nat, pc: Pc<E>, sh': Shared<E>, e: E, pushed: seq<E>)
    requires Inv(s) && SameShape(s, sh') && e in s.sh.elems
    requires pushed == [] || pushed == [e]
    requires sh'.queue == s.sh.queue + pushed && sh'.list == s.sh.list && sh'.size == s.sh.size
    requires OthersSame(s.sh, sh', e)
    requires PcOK(s, t, pc) && !PcOf(s, t).SavingNow? && !PcOf(s, t).Deactivating?
    requires !s.gate.Open? && !s.gate.Draining? ==> !InGuard(pc)
    requires forall x :: x != e ==> !HasCookie(PcOf(s, t), x) && !HasCookie(pc, x)
    requires ElementOK(Observe(SetPc(s.(sh := sh'), t, pc), e))
    ensures Inv(SetPc(s.(sh := sh'), t, pc))
  {
    var m := s.(sh := sh');
    ShapeInv(s, sh');
    PcRest(m, t, pc);
    forall x | x in s.sh.elems ensures ElementOK(Observe(SetPc(m, t, pc), x)) {
      if x != e {
        OtherElement(s, t, pc, sh', e, pushed, x);
      }
    }
  }

  lemma OtherElement<E>(s: Machine<E>, t: nat, pc: Pc<E>, sh': Shared<E>, e: E, pushed: seq<E>, x: E)
    requires ElementsOK(s) && SameShape(s, sh') && e in s.sh.elems && x in s.sh.elems && x != e
    requires pushed == [] || pushed == [e]
    requires sh'.queue == s.sh.queue + pushed && OthersSame(s.sh, sh', e)
    requires !HasCookie(PcOf(s, t), x) && !HasCookie(pc, x)
    ensures ElementOK(Observe(SetPc(s.(sh := sh'), t, pc), x))
  {
    assert ElementOK(Observe(s, x));
    ShapeObserve(s, sh', x, pushed);
    PcObserve(s.(sh := sh'), t, pc, x);
  }

  /** The element finished works on, after its first section. */
  lemma FinishFirstElement<E>(s: Machine<E>, t: nat, e: E)
    requires ElementsOK(s) && PcOf(s, t).Holding? && e == PcOf(s, t).e && e in s.sh.elems
    ensures ElementOK(Observe(FinishFirstStep(s, t), e))
  {
    var pc := PcOf(s, t);
    var sh' := FinishFirst(s.sh, e, pc.mutating);
    assert sh'.queue == s.sh.queue + [];
    assert ElementOK(Observe(s, e));
    assert t in CookieThreads(s.threads, e);
    ShapeObserve(s, sh', e, []);
    PcObserve(s.(sh := sh'), t, Finishing(e, pc.mutating && s.sh.elems[e].status.Clean?), e);
  }

  /** finished, first section: a clean element becomes modified, and the thread will enqueue it. */
  lemma FinishFirstInv<E>(s: Machine<E>, t: nat)
    requires Inv(s) && PcOf(s, t).Holding? && s.gate.Open? && PcOf(s, t).e in s.sh.elems
    ensures Inv(FinishFirstStep(s, t))
  {
    var pc := PcOf(s, t);
    var sh' := FinishFirst(s.sh, pc.e, pc.mutating);
    assert sh'.queue == s.sh.queue + [];
    FinishFirstElement(s, t, pc.e);
    SectionAndMove(s, t, Finishing(pc.e, pc.mutating && s.sh.elems[pc.e].status.Clean?), sh', pc.e, []);
  }

  /** The state after the second section of finished, before the eviction at its end. */
  ghost function Finished<E>(s: Machine<E>, t: nat): Shared<E>
    requires PcOf(s, t).Finishing? && PcOf(s, t).e in s.sh.elems
  {
    var e := PcOf(s, t).e;
    var u := Dropped(s.sh, e);
    if PcOf(s, t).enqueue then Push(u, e) else u
  }

  lemma FinishedShape<E>(s: Machine<E>, t: nat)
    requires PcOf(s, t).Finishing? && PcOf(s, t).e in s.sh.elems
    ensures SameShape(s, Finished(s, t)) && OthersSame(s.sh, Finished(s, t), PcOf(s, t).e)
    ensures Finished(s, t).queue == s.sh.queue + if PcOf(s, t).enqueue then [PcOf(s, t).e] else []
    ensures Finished(s, t).list == s.sh.list && Finished(s, t).size == s.sh.size
  {
    assert !NoGuards(s) by { assert InGuard(s.threads[t]); }
  }

  lemma FinishSecondElement<E>(s: Machine<E>, t: nat, e: E)
    requires ElementsOK(s) && PcOf(s, t).Finishing? && e == PcOf(s, t).e && e in s.sh.elems
    ensures ElementOK(Observe(SetPc(s.(sh := Finished(s, t)), t, Idle), e))
  {
    var pushed := if PcOf(s, t).enqueue then [e] else [];
    var sh' := Finished(s, t);
    FinishedShape(s, t);
    assert ElementOK(Observe(s, e));
    assert t in CookieThreads(s.threads, e);
    ShapeObserve(s, sh', e, pushed);
    PcObserve(s.(sh := sh'), t, Idle, e);
  }

  lemma FinishSecondInv<E>(s: Machine<E>, t: nat)
    requires Inv(s) && PcOf(s, t).Finishing? && PcOf(s, t).e in s.sh.elems
    ensures Inv(SetPc(s.(sh := Finished(s, t)), t, Idle))
  {
    var e := PcOf(s, t).e;
    FinishedShape(s, t);
    FinishSecondElement(s, t, e);
    SectionAndMove(s, t, Idle, Finished(s, t), e, if PcOf(s, t).enqueue then [e] else []);
  }

  lemma MutateInv<E>(s: Machine<E>, t: nat, state: string)
    requires Inv(s) && Enabled(s, Mutate(t, state))
    ensures Inv(Apply(s, Mutate(t, state)))
  {
    var e := PcOf(s, t).e;
    var x := s.sh.elems[e];
    if x.servant.Some? && x.servant.value.oid == PcOf(s, t).oid {
      var sh' := With(s.sh, e, x.(servant := Some(Servant(PcOf(s, t).oid, state))));
      assert sh'.queue == s.sh.queue + [];
      assert ElementOK(Observe(s, e));
      OneElement(s, sh', e, []);
      ShapeInv(s, sh');
    }
  }

  /****** Pinning ******/

  lemma {:induction false} ProjectFrame<E>(db: map<Key, string>, rs: seq<Rec<E>>, k: Key)
    requires forall i :: 0 <= i < |rs| ==> rs[i].key != k
    ensures Get(Project(db, rs), k) == Get(db, k)
  {
    if rs != [] {
      ProjectFrame(db, rs[..|rs| - 1], k);
    }
  }

  /** No record is pending for a key whose element is not pinned. */
  lemma UnpinnedDisk<E>(s: Machine<E>, k: Key)
    requires ElementsOK(s) && PendingOK(s) && IfPinned(s.sh, k).None?
    ensures Get(Disk(s), k) == Get(s.db, k)
  {
    forall i | 0 <= i < |s.saver.pending| ensures s.saver.pending[i].key != k {
      var e := s.saver.pending[i].e;
      assert ElementOK(Observe(s, e));
    }
    ProjectFrame(s.db, s.saver.pending, k);
  }

  lemma OpenStoreInv<E>(s: Machine<E>, facet: string)
    requires Inv(s)
    ensures Inv(s.(sh := s.sh.(stores := s.sh.stores + {facet})))
  {
    var s' := s.(sh := s.sh.(stores := s.sh.stores + {facet}));
    forall x | x in s.sh.elems ensures ElementOK(Observe(s', x)) {
      assert ElementOK(Observe(s, x));
    }
    forall u | u in s'.threads ensures PcOK(s', u, s'.threads[u]) {
      assert PcOK(s, u, s.threads[u]);
    }
  }

  /** Adding or dropping a placeholder of thread `t` changes no observation. */
  lemma PlaceholderElements<E>(s: Machine<E>, k: Key, cache': map<Key, Slot<E>>)
    requires ElementsOK(s) && CacheOK(s) && IfPinned(s.sh, k).None?
    requires forall x :: x != k ==> Get(cache', x) == Get(s.sh.cache, x)
    requires k in cache' ==> cache'[k].Placeholder?
    ensures ElementsOK(s.(sh := s.sh.(cache := cache')))
  {
    var s' := s.(sh := s.sh.(cache := cache'));
    forall e | e in s.sh.elems ensures ElementOK(Observe(s', e)) {
      assert ElementOK(Observe(s, e));
      var key := s.sh.elems[e].key;
      assert Get(cache', key) == Get(s.sh.cache, key) || key == k;
      assert IfPinned(s'.sh, key) == IfPinned(s.sh, key);
    }
  }

  /** Thread `t`, which loads `k` if anyone does, adds or drops the placeholder and moves on. */
  lemma PlaceholderInv<E>(s: Machine<E>, t: nat, k: Key, cache': map<Key, Slot<E>>, pc: Pc<E>)
    requires Inv(s)
    requires k !in s.sh.cache || s.sh.cache[k] == Placeholder(t)
    requires k.facet in s.sh.stores
    requires cache' == s.sh.cache - {k} || cache' == s.sh.cache[k := Placeholder(t)]
    requires PcOK(s.(sh := s.sh.(cache := cache')), t, pc)
    requires InGuard(PcOf(s, t)) && !PcOf(s, t).SavingNow? && !PcOf(s, t).Finishing?
    requires !pc.Holding? && !pc.Finishing? && !pc.SavingNow?
    ensures Inv(SetPc(s.(sh := s.sh.(cache := cache')), t, pc))
  {
    var m := SetPc(s, t, pc);
    var s' := SetPc(s.(sh := s.sh.(cache := cache')), t, pc);
    assert !NoGuards(s) by { assert InGuard(s.threads[t]); }
    assert ElementsOK(m) by {
      forall e | e in s.sh.elems ensures ElementOK(Observe(m, e)) {
        assert ElementOK(Observe(s, e));
        SetPcObserve(s, t, pc, e);
      }
    }
    PlaceholderElements(m, k, cache');
    assert s' == m.(sh := m.sh.(cache := cache'));
    PlaceholderHandles(s, t, k, cache', pc);
  }

  lemma PlaceholderHandles<E>(s: Machine<E>, t: nat, k: Key, cache': map<Key, Slot<E>>, pc: Pc<E>)
    requires HandlesOK(s)
    requires k !in s.sh.cache || s.sh.cache[k] == Placeholder(t)
    requires cache' == s.sh.cache - {k} || cache' == s.sh.cache[k := Placeholder(t)]
    requires PcOK(s.(sh := s.sh.(cache := cache')), t, pc)
    ensures HandlesOK(SetPc(s.(sh := s.sh.(cache := cache')), t, pc))
  {
    var s' := SetPc(s.(sh := s.sh.(cache := cache')), t, pc);
    forall u | u in s'.threads ensures PcOK(s', u, s'.threads[u]) {
      assert u != t ==> PcOK(s, u, s.threads[u]);
    }
  }

  /** The shared state with a new element pinned under `x.key`. */
  ghost function Installed<E>(sh: Shared<E>, e: E, x: Elem): Shared<E> {
    sh.(elems := sh.elems[e := x], cache := sh.cache[x.key := Pinned(e)])
  }

  lemma InstallElements<E>(s: Machine<E>, e: E, x: Elem)
    requires ElementsOK(s) && CacheOK(s) && ListOK(s) && HandlesOK(s) && PendingOK(s) && e !in s.sh.elems
    requires IfPinned(s.sh, x.key).None?
    requires !x.stale && x.usage == -1 && x.keep == 0
    requires Get(s.db, x.key).None? ==> x.status.Dead? && x.servant.None?
    requires Get(s.db, x.key).Some? ==> x.status.Clean? && x.servant.Some? && Get(s.db, x.key) == Some(x.servant.value.state)
    ensures ElementsOK(s.(sh := Installed(s.sh, e, x)))
  {
    var s' := s.(sh := Installed(s.sh, e, x));
    forall y | y in s'.sh.elems ensures ElementOK(Observe(s', y)) {
      if y == e {
        UnpinnedDisk(s, x.key);
        FreshUnowned(s, e);
        assert multiset(s.sh.queue)[e] == 0 && multiset(s.saver.batch)[e] == 0;
      } else {
        assert ElementOK(Observe(s, y));
        assert IfPinned(s'.sh, s.sh.elems[y].key) == Some(y) <==> IfPinned(s.sh, s.sh.elems[y].key) == Some(y);
        assert Observe(s', y) == Observe(s, y);
      }
    }
  }

  /** A handle no element has belongs to no thread. */
  lemma FreshUnowned<E>(s: Machine<E>, e: E)
    requires HandlesOK(s) && e !in s.sh.elems
    ensures Cookies(s.threads, e) == 0
  {
    forall t | t in s.threads ensures !HasCookie(s.threads[t], e) {
      assert PcOK(s, t, s.threads[t]);
    }
    assert CookieThreads(s.threads, e) == {};
  }

  lemma InstallInv<E>(s: Machine<E>, t: nat, e: E, x: Elem, op: Op)
    requires Inv(s) && e !in s.sh.elems && InGuard(PcOf(s, t)) && !PcOf(s, t).SavingNow? && !PcOf(s, t).Finishing?
    requires x.key in s.sh.cache && s.sh.cache[x.key] == Placeholder(t) && op.key == x.key && OpOK(s, op)
    requires !x.stale && x.usage == -1 && x.keep == 0
    requires Get(s.db, x.key).None? ==> x.status.Dead? && x.servant.None?
    requires Get(s.db, x.key).Some? ==> x.status.Clean? && x.servant.Some? && Get(s.db, x.key) == Some(x.servant.value.state)
    ensures Inv(SetPc(s.(sh := Installed(s.sh, e, x)), t, Locking(op, e)))
  {
    var pc := Locking(op, e);
    var m := s.(sh := Installed(s.sh, e, x));
    var s' := SetPc(m, t, pc);
    assert !NoGuards(s) by { assert InGuard(s.threads[t]); }
    InstallElements(s, e, x);
    forall y | y in s'.sh.elems ensures ElementOK(Observe(s', y)) {
      assert ElementOK(Observe(m, y));
      SetPcObserve(m, t, pc, y);
    }
    InstallHandles(s, t, e, x, op);
  }

  /** The other threads do not notice a new element in place of `t`'s placeholder. */
  lemma InstallHandles<E>(s: Machine<E>, t: nat, e: E, x: Elem, op: Op)
    requires HandlesOK(s) && CacheOK(s) && PendingOK(s) && e !in s.sh.elems
    requires x.key in s.sh.cache && s.sh.cache[x.key] == Placeholder(t) && op.key == x.key && OpOK(s, op)
    ensures var s' := SetPc(s.(sh := Installed(s.sh, e, x)), t, Locking(op, e));
      HandlesOK(s') && CacheOK(s') && PendingOK(s')
  {
    var s' := SetPc(s.(sh := Installed(s.sh, e, x)), t, Locking(op, e));
    forall u | u in s'.threads ensures PcOK(s', u, s'.threads[u]) {
      assert u != t ==> PcOK(s, u, s.threads[u]);
    }
  }

  /****** The saving thread ******/

  lemma SwapElements<E>(s: Machine<E>)
    requires ElementsOK(s) && s.saver == IdleSaver(Waiting) && s.sh.queue != []
    ensures ElementsOK(SwapStep(s))
  {
    var s' := SwapStep(s);
    forall e | e in s.sh.elems ensures ElementOK(Observe(s', e)) {
      assert ElementOK(Observe(s, e));
      assert Unstreamed(s'.saver) == s.sh.queue;
      assert Owners(s', e) == Owners(s, e);
      assert Queued(s', e) == Queued(s, e);
    }
  }

  lemma SwapInv<E>(s: Machine<E>)
    requires Inv(s) && Enabled(s, Swap)
    ensures Inv(SwapStep(s))
  {
    var s' := SwapStep(s);
    if s.sh.queue == [] {
      WaitersInv(s, []);
    } else {
      SwapElements(s);
      assert HandlesOK(s') by {
        forall u | u in s'.threads ensures PcOK(s', u, s'.threads[u]) {
          assert PcOK(s, u, s.threads[u]);
        }
      }
    }
  }

  lemma {:induction false} SaveAllProject<E>(db: map<Key, string>, rs: seq<Rec<E>>)
    requires SaveAll(db, rs).Some?
    ensures SaveAll(db, rs) == Some(Project(db, rs))
  {
    if rs != [] {
      SaveAllProject(db, rs[..|rs| - 1]);
    }
  }

  /** Saving `a` and then `b` is saving `a + b`. */
  lemma {:induction false} SaveAllSplit<E>(db: map<Key, string>, a: seq<Rec<E>>, b: seq<Rec<E>>)
    requires SaveAll(db, a + b).Some?
    ensures SaveAll(db, a).Some?
    ensures SaveAll(Project(db, a), b) == SaveAll(db, a + b)
    ensures Project(Project(db, a), b) == Project(db, a + b)
  {
    if b == [] {
      assert a + b == a;
      SaveAllProject(db, a);
    } else {
      var b' := b[..|b| - 1];
      assert (a + b)[..|a + b| - 1] == a + b';
      SaveAllSplit(db, a, b');
    }
  }

  lemma SnocSave<E>(db: map<Key, string>, rs: seq<Rec<E>>, r: Rec<E>)
    requires SaveAll(db, rs).Some? && Save(Project(db, rs), r).Some?
    ensures SaveAll(db, rs + [r]).Some?
    ensures Project(db, rs + [r]) == Save(Project(db, rs), r).value
  {
    assert (rs + [r])[..|rs|] == rs;
    SaveAllProject(db, rs);
  }

  /** The saver is at an element it has not streamed yet. */
  ghost predicate AtElement<E>(s: Machine<E>) {
    s.saver.phase.Streaming? && s.saver.next < |s.saver.batch| && s.saver.batch[s.saver.next] in s.sh.elems
  }

  /** The element about to be streamed is owned by the batch, so it is pinned. */
  lemma StreamedPinned<E>(s: Machine<E>)
    requires ElementsOK(s) && AtElement(s)
    ensures var e := s.saver.batch[s.saver.next];
      ElementOK(Observe(s, e)) && !s.sh.elems[e].stale && s.sh.elems[e].usage >= 1
  {
    var e := s.saver.batch[s.saver.next];
    assert e in multiset(s.saver.batch);
    assert ElementOK(Observe(s, e));
  }

  /** The record streamed now can be saved on top of those streamed before. */
  lemma StreamSaves<E>(s: Machine<E>)
    requires ElementsOK(s) && PendingOK(s) && AtElement(s)
    ensures var e := s.saver.batch[s.saver.next];
      var x := s.sh.elems[e];
      Dirty(x.status) ==>
        && SaveAll(s.db, s.saver.pending + [RecordOf(e, x)]).Some?
        && Save(Disk(s), RecordOf(e, x)) == Some(Project(s.db, s.saver.pending + [RecordOf(e, x)]))
  {
    StreamedPinned(s);
    var e := s.saver.batch[s.saver.next];
    var x := s.sh.elems[e];
    if Dirty(x.status) {
      SnocSave(s.db, s.saver.pending, RecordOf(e, x));
    }
  }

  /** What the database will hold after the record is streamed. */
  lemma StreamDisk<E>(s: Machine<E>, k: Key)
    requires ElementsOK(s) && PendingOK(s) && AtElement(s)
    ensures var x := s.sh.elems[s.saver.batch[s.saver.next]];
      Get(Disk(StreamNow(s)), k) ==
        if k == x.key && (x.status.Created? || x.status.Modified?) then Some(RecordOf(s.saver.batch[s.saver.next], x).data)
        else if k == x.key && x.status.Destroyed? then None
        else Get(Disk(s), k)
  {
    StreamedPinned(s);
    StreamSaves(s);
    var e := s.saver.batch[s.saver.next];
    var x := s.sh.elems[e];
    if Dirty(x.status) {
      assert Disk(StreamNow(s)) == Project(s.db, s.saver.pending + [RecordOf(e, x)]);
    } else {
      assert StreamNow(s).saver.pending == s.saver.pending;
    }
  }

  /** Streaming one element leaves the others as they were. */
  lemma StreamOther<E>(s: Machine<E>, y: E)
    requires ElementsOK(s) && PendingOK(s) && AtElement(s) && y in s.sh.elems && y != s.saver.batch[s.saver.next]
    ensures ElementOK(Observe(StreamNow(s), y))
  {
    var s' := StreamNow(s);
    var e := s.saver.batch[s.saver.next];
    assert ElementOK(Observe(s, y));
    StreamedPinned(s);
    assert Unstreamed(s.saver) == [e] + Unstreamed(s'.saver);
    assert y in Unstreamed(s.saver) <==> y in Unstreamed(s'.saver);
    StreamDisk(s, s.sh.elems[y].key);
    var o, o' := Observe(s, y), Observe(s', y);
    assert o' == o.(disk := o'.disk);
  }

  lemma StreamThis<E>(s: Machine<E>)
    requires ElementsOK(s) && PendingOK(s) && AtElement(s)
    ensures ElementOK(Observe(StreamNow(s), s.saver.batch[s.saver.next]))
  {
    var s' := StreamNow(s);
    var e := s.saver.batch[s.saver.next];
    StreamedPinned(s);
    StreamDisk(s, s.sh.elems[e].key);
    var o, o' := Observe(s, e), Observe(s', e);
    assert o' == o.(elem := s'.sh.elems[e], queued := o'.queued, disk := o'.disk);
  }

  lemma StreamInv<E>(s: Machine<E>)
    requires Inv(s) && AtElement(s)
    ensures Inv(StreamNow(s))
  {
    var s' := StreamNow(s);
    var e := s.saver.batch[s.saver.next];
    assert ElementsOK(s') by {
      forall y | y in s.sh.elems ensures ElementOK(Observe(s', y)) {
        if y == e { StreamThis(s); } else { StreamOther(s, y); }
      }
    }
    assert PendingOK(s') by { StreamSaves(s); assert Dirty(s.sh.elems[e].status) || s'.saver.pending == s.saver.pending; }
    assert HandlesOK(s') by {
      forall u | u in s'.threads ensures PcOK(s', u, s'.threads[u]) {
        assert PcOK(s, u, s.threads[u]);
      }
    }
  }

  lemma {:induction false} ProjectKeys<E>(db: map<Key, string>, rs: seq<Rec<E>>, k: Key)
    requires k in Project(db, rs)
    ensures k in db || exists i :: 0 <= i < |rs| && rs[i].key == k
  {
    if rs != [] {
      var d := Project(db, rs[..|rs| - 1]);
      if k in d {
        ProjectKeys(db, rs[..|rs| - 1], k);
        if k !in db {
          var i :| 0 <= i < |rs| - 1 && rs[..|rs| - 1][i].key == k;
          assert rs[i].key == k;
        }
      } else {
        assert rs[|rs| - 1].key == k;
      }
    }
  }

  /** The key of a pending record has its element pinned, so its store exists and no load of it is in flight. */
  lemma PendingPinned<E>(s: Machine<E>, i: nat)
    requires ElementsOK(s) && PendingOK(s) && CacheOK(s) && i < |s.saver.pending|
    ensures IfPinned(s.sh, s.saver.pending[i].key) == Some(s.saver.pending[i].e)
    ensures s.saver.pending[i].key.facet in s.sh.stores
  {
    assert ElementOK(Observe(s, s.saver.pending[i].e));
  }

  /** A commit never meets an error, and moves a prefix of the records into the database. */
  lemma CommitShape<E>(s: Machine<E>)
    requires Inv(s) && Enabled(s, Commit)
    ensures var n := Min(s.saver.txSize, |s.saver.pending|);
      && 1 <= n <= |s.saver.pending|
      && SaveAll(s.db, s.saver.pending[..n]) == Some(Project(s.db, s.saver.pending[..n]))
      && CommitStep(s).db == Project(s.db, s.saver.pending[..n])
      && CommitStep(s).saver == s.saver.(pending := s.saver.pending[n..], txSize := n)
      && Disk(CommitStep(s)) == Disk(s)
      && SaveAll(CommitStep(s).db, s.saver.pending[n..]).Some?
  {
    var n := Min(s.saver.txSize, |s.saver.pending|);
    assert s.saver.pending[..n] + s.saver.pending[n..] == s.saver.pending;
    SaveAllSplit(s.db, s.saver.pending[..n], s.saver.pending[n..]);
    SaveAllProject(s.db, s.saver.pending[..n]);
  }

  lemma CommitElements<E>(s: Machine<E>)
    requires Inv(s) && Enabled(s, Commit)
    ensures ElementsOK(CommitStep(s))
  {
    CommitShape(s);
    var s' := CommitStep(s);
    forall e | e in s.sh.elems ensures ElementOK(Observe(s', e)) {
      assert ElementOK(Observe(s, e));
      assert Observe(s', e) == Observe(s, e);
    }
  }

  /** A thread between reading and installing a record still holds what the database says. */
  lemma CommitHandles<E>(s: Machine<E>)
    requires Inv(s) && Enabled(s, Commit)
    ensures HandlesOK(CommitStep(s))
  {
    CommitShape(s);
    var s' := CommitStep(s);
    var n := Min(s.saver.txSize, |s.saver.pending|);
    forall u | u in s'.threads ensures PcOK(s', u, s'.threads[u]) {
      assert PcOK(s, u, s.threads[u]);
      if s.threads[u].Loaded? {
        var k := s.threads[u].op.key;
        forall i | 0 <= i < n ensures s.saver.pending[..n][i].key != k {
          PendingPinned(s, i);
        }
        ProjectFrame(s.db, s.saver.pending[..n], k);
      }
    }
  }

  lemma CommitStores<E>(s: Machine<E>)
    requires Inv(s) && Enabled(s, Commit)
    ensures CacheOK(CommitStep(s))
  {
    CommitShape(s);
    var s' := CommitStep(s);
    var n := Min(s.saver.txSize, |s.saver.pending|);
    forall k | k in s'.db ensures k.facet in s'.sh.stores {
      ProjectKeys(s.db, s.saver.pending[..n], k);
      if k !in s.db {
        var i :| 0 <= i < n && s.saver.pending[..n][i].key == k;
        PendingPinned(s, i);
      }
    }
  }

  lemma CommitPending<E>(s: Machine<E>)
    requires Inv(s) && Enabled(s, Commit)
    ensures PendingOK(CommitStep(s))
  {
    CommitShape(s);
    var s' := CommitStep(s);
    var n := Min(s.saver.txSize, |s.saver.pending|);
    forall i | 0 <= i < |s'.saver.pending|
      ensures s'.saver.pending[i] == s.saver.pending[n + i]
    {
    }
  }

  lemma CommitInv<E>(s: Machine<E>)
    requires Inv(s) && Enabled(s, Commit)
    ensures Inv(CommitStep(s))
  {
    CommitShape(s);
    CommitElements(s);
    CommitHandles(s);
    CommitStores(s);
    CommitPending(s);
  }

  /** The saver's locals change without touching its batch, its position or the records. */
  lemma SaverLocalsInv<E>(s: Machine<E>, v: Saver<E>)
    requires Inv(s)
    requires v == s.saver.(phase := v.phase, held := v.held, txSize := v.txSize)
    requires (s.saver.phase.Streaming? && v.phase.Streaming?)
          || (v.phase.Writing? && (s.saver.phase.Streaming? || s.saver.phase.Writing?) && v.next == |v.batch|
              && (v.pending != [] ==> v.txSize >= 1))
    ensures Inv(s.(saver := v))
  {
    var s' := s.(saver := v);
    forall e | e in s.sh.elems ensures ElementOK(Observe(s', e)) {
      assert ElementOK(Observe(s, e));
      assert Observe(s', e) == Observe(s, e);
    }
    assert HandlesOK(s') by {
      forall u | u in s'.threads ensures PcOK(s', u, s'.threads[u]) {
        assert PcOK(s, u, s.threads[u]);
      }
    }
  }

  /** The release phase gives back the batch's usage counts: the round is over. */
  ghost function RoundOver<E>(s: Machine<E>): Machine<E> {
    s.(sh := ReleaseCounts(s.sh, s.saver.batch), saver := IdleSaver(Waiting))
  }

  lemma RoundOverInv<E>(s: Machine<E>)
    requires Inv(s) && s.saver.phase.Writing? && s.saver.pending == []
    ensures Inv(RoundOver(s))
  {
    var s' := RoundOver(s);
    assert ElementsOK(s') by {
      forall e | e in s.sh.elems ensures ElementOK(Observe(s', e)) {
        assert ElementOK(Observe(s, e));
        assert Unstreamed(s.saver) == [] && Unstreamed(s'.saver) == [];
        assert Observe(s', e) == Observe(s, e).(
          elem := s'.sh.elems[e], owners := Observe(s, e).owners - multiset(s.saver.batch)[e]);
      }
    }
    assert HandlesOK(s') by {
      forall u | u in s'.threads ensures PcOK(s', u, s'.threads[u]) {
        assert PcOK(s, u, s.threads[u]);
      }
    }
  }

  /** Waiters leave from the front of the queue of saveNow threads. */
  lemma WaitersInv<E>(s: Machine<E>, waiters: seq<nat>)
    requires Inv(s) && s.saver.phase.Waiting?
    requires forall t :: t in waiters ==> t in s.sh.waiters
    requires s.gate.Saving? ==> waiters == s.sh.waiters || (waiters == [] && s.sh.queue == [])
    requires s.gate.Stopping? || s.gate.Closed? ==> waiters == []
    ensures Inv(s.(sh := s.sh.(waiters := waiters)))
  {
    var s' := s.(sh := s.sh.(waiters := waiters));
    forall e | e in s.sh.elems ensures ElementOK(Observe(s', e)) {
      assert ElementOK(Observe(s, e));
      assert Observe(s', e) == Observe(s, e);
    }
    assert HandlesOK(s') by {
      forall u | u in s'.threads ensures PcOK(s', u, s'.threads[u]) {
        assert PcOK(s, u, s.threads[u]);
      }
    }
  }

  /** The evictor after a whole release phase but for the waiters. */
  ghost function Swept<E>(s: Machine<E>): Machine<E>
    requires Inv(s) && s.saver.phase.Writing?
  {
    var t := EvictDead(ReleaseCounts(s.sh, s.saver.batch), s.saver.dead);
    EvictDeadFrame(ReleaseCounts(s.sh, s.saver.batch), s.saver.dead);
    s.(sh := EvictIdle(t), saver := IdleSaver(Waiting))
  }

  lemma SweptInv<E>(s: Machine<E>)
    requires Inv(s) && s.saver.phase.Writing? && s.saver.pending == []
    ensures Inv(Swept(s))
  {
    RoundOverInv(s);
    var s1 := RoundOver(s);
    EvictDeadInv(s1, s.saver.dead);
    var s2 := s1.(sh := EvictDead(s1.sh, s.saver.dead));
    EvictScanInv(s2, |s2.sh.list|);
  }

  lemma SweptFrame<E>(s: Machine<E>)
    requires Inv(s) && s.saver.phase.Writing?
    ensures Swept(s).sh.queue == s.sh.queue && Swept(s).sh.waiters == s.sh.waiters
    ensures Swept(s).threads == s.threads && Swept(s).gate == s.gate
  {
    var t := EvictDead(ReleaseCounts(s.sh, s.saver.batch), s.saver.dead);
    EvictDeadFrame(ReleaseCounts(s.sh, s.saver.batch), s.saver.dead);
    EvictScanFrame(t, |t.list|);
  }

  lemma ReleasePhaseInv<E>(s: Machine<E>)
    requires Inv(s) && Enabled(s, Step.Release)
    ensures Inv(Apply(s, Step.Release))
  {
    SweptInv(s);
    SweptFrame(s);
    var waiters := s.sh.waiters[s.saver.snap..];
    WaitersInv(Swept(s), waiters);
    assert Apply(s, Step.Release) == Swept(s).(sh := Swept(s).sh.(waiters := waiters));
  }

  /** Threads, gate and waiters change, elements do not. */
  lemma ControlInv<E>(s: Machine<E>, t: nat, pc: Pc<E>, waiters: seq<nat>, gate: Gate)
    requires Inv(s) && PcOK(s, t, pc)
    requires !PcOf(s, t).Holding? && !PcOf(s, t).Finishing? && !pc.Holding? && !pc.Finishing?
    requires s.saver.snap <= |waiters|
    requires var s' := SetPc(s, t, pc).(gate := gate, sh := s.sh.(waiters := waiters));
      GateOK(s') && (s.saver.phase.Exited? ==> gate.Stopping? || gate.Closed?)
    ensures Inv(SetPc(s, t, pc).(gate := gate, sh := s.sh.(waiters := waiters)))
  {
    var m := SetPc(s, t, pc);
    var s' := m.(gate := gate, sh := s.sh.(waiters := waiters));
    forall e | e in s.sh.elems ensures ElementOK(Observe(s', e)) {
      assert ElementOK(Observe(s, e));
      SetPcObserve(s, t, pc, e);
      assert Observe(s', e) == Observe(m, e);
    }
    assert HandlesOK(s') by {
      forall u | u in s'.threads ensures PcOK(s', u, s'.threads[u]) {
        assert u != t ==> PcOK(s, u, s.threads[u]);
      }
    }
  }

  /****** All steps ******/

  lemma SectionInv<E>(s: Machine<E>, t: nat)
    requires Inv(s) && Enabled(s, Section(t))
    ensures Inv(SectionStep(s, t))
  {
    var e, op := PcOf(s, t).e, PcOf(s, t).op;
    assert PcOK(s, t, s.threads[t]);
    assert !NoGuards(s) by { assert InGuard(s.threads[t]); }
    if s.sh.elems[e].stale {
      SetPcInv(s, t, Pinning(op));
    } else {
      match op
      case AddOp(_, sv) =>
        AddInv(s, e, sv);
        SetPcInv(s.(sh := AddSection(s.sh, e, sv)), t, Idle);
      case CreateOp(_, sv) =>
        CreateInv(s, e, sv);
        SetPcInv(s.(sh := CreateSection(s.sh, e, sv)), t, Idle);
      case RemoveOp(_) =>
        RemoveInv(s, e);
        SetPcInv(s.(sh := RemoveSection(s.sh, e)), t, Idle);
      case KeepOp(_) =>
        KeepInv(s, e);
        SetPcInv(s.(sh := KeepSection(s.sh, e)), t, Idle);
      case LocateOp(_, mutating) => LocateInv(s, t);
    }
  }

  /** A successful locate is fixEvictPosition followed by the cookie's usage count. */
  lemma LocateShape<E>(s: Machine<E>, t: nat)
    requires Enabled(s, Section(t)) && PcOf(s, t).op.LocateOp?
    requires var x := s.sh.elems[PcOf(s, t).e]; !x.stale && Present(x.status) && x.servant.Some?
    ensures var e, op := PcOf(s, t).e, PcOf(s, t).op;
      var m := s.(sh := Touch(s.sh, e));
      SectionStep(s, t) == SetPc(m, t, Holding(e, s.sh.elems[e].servant.value.oid, op.mutating)).(
        sh := With(m.sh, e, m.sh.elems[e].(usage := m.sh.elems[e].usage + 1)))
  {
  }

  /** After fixEvictPosition the usage count is not negative. */
  lemma TouchedUsage<E>(s: Machine<E>, e: E)
    requires ElementsOK(s) && e in s.sh.elems && !s.sh.elems[e].stale
    ensures Touch(s.sh, e).elems[e].usage >= 0 && !Touch(s.sh, e).elems[e].stale
  {
    assert ElementOK(Observe(s, e));
  }

  lemma LocateInv<E>(s: Machine<E>, t: nat)
    requires Inv(s) && Enabled(s, Section(t)) && PcOf(s, t).op.LocateOp? && !s.sh.elems[PcOf(s, t).e].stale
    ensures Inv(SectionStep(s, t))
  {
    var e, op := PcOf(s, t).e, PcOf(s, t).op;
    var x := s.sh.elems[e];
    if !Present(x.status) || x.servant.None? {
      assert PcOK(s, t, s.threads[t]);
      SetPcInv(s, t, Idle);
    } else {
      LocateShape(s, t);
      LocateTakes(s, t);
    }
  }

  lemma LocateTakes<E>(s: Machine<E>, t: nat)
    requires Inv(s) && Enabled(s, Section(t)) && PcOf(s, t).op.LocateOp? && !s.sh.elems[PcOf(s, t).e].stale
    requires s.sh.elems[PcOf(s, t).e].servant.Some?
    ensures var e, op := PcOf(s, t).e, PcOf(s, t).op;
      var m := s.(sh := Touch(s.sh, e));
      Inv(SetPc(m, t, Holding(e, s.sh.elems[e].servant.value.oid, op.mutating)).(
        sh := With(m.sh, e, m.sh.elems[e].(usage := m.sh.elems[e].usage + 1))))
  {
    var e := PcOf(s, t).e;
    TouchInv(s, e);
    TouchedUsage(s, e);
    TakeCookieInv(s.(sh := Touch(s.sh, e)), t, e, s.sh.elems[e].servant.value.oid, PcOf(s, t).op.mutating);
  }

  lemma InstallStepInv<E>(s: Machine<E>, t: nat, e: E, oid: nat)
    requires Inv(s) && Enabled(s, Install(t, e, oid))
    ensures Inv(InstallStep(s, t, e, oid))
  {
    var op, record := PcOf(s, t).op, PcOf(s, t).record;
    assert PcOK(s, t, s.threads[t]);
    if record.None? && !op.AddOp? && !op.CreateOp? {
      PlaceholderInv(s, t, op.key, s.sh.cache - {op.key}, Idle);
    } else {
      InstallInv(s, t, e, NewElem(op.key, record, oid), op);
    }
  }

  /** The steps that may end with evict(). */
  ghost predicate MayEvict<E>(a: Step<E>) {
    a.FinishLock? || a.SetSize? || a.DeactivateStop?
  }

  /** The shared state such a step has reached when it comes to evict(). */
  ghost function BeforeScan<E>(s: Machine<E>, a: Step<E>): Shared<E>
    requires Enabled(s, a) && MayEvict(a)
  {
    match a
    case FinishLock(t) => Finished(s, t)
    case SetSize(_, n) => if n < 0 then s.sh else s.sh.(limit := n)
    case DeactivateStop(_) => s.sh.(limit := 0)
  }

  lemma EvictingShape<E>(s: Machine<E>, a: Step<E>)
    requires Enabled(s, a) && MayEvict(a)
    ensures var u, s' := BeforeScan(s, a), Apply(s, a);
      Listed(u) && (s'.sh == u || s'.sh == EvictScan(u, |u.list|)) && s'.saver == s.saver && s'.db == s.db
    ensures a.FinishLock? ==> Apply(s, a) == SetPc(s, a.t, Idle).(sh := Apply(s, a).sh)
  {
  }

  lemma FinishLockInv<E>(s: Machine<E>, t: nat)
    requires Inv(s) && Enabled(s, FinishLock(t))
    ensures Inv(Apply(s, FinishLock(t)))
  {
    FinishSecondInv(s, t);
    EvictingShape(s, FinishLock(t));
    var m := SetPc(s.(sh := Finished(s, t)), t, Idle);
    if Apply(s, FinishLock(t)).sh == m.sh {
      assert Apply(s, FinishLock(t)) == m;
    } else {
      EvictScanInv(m, |m.sh.list|);
      assert Apply(s, FinishLock(t)) == m.(sh := EvictScan(m.sh, |m.sh.list|));
    }
  }

  lemma PinStepInv<E>(s: Machine<E>, a: Step<E>)
    requires Inv(s) && Enabled(s, a)
    requires PinStep(a)
    ensures Inv(Apply(s, a))
  {
    match a
    case Call(t, op) =>
      if op.key.facet in s.sh.stores || op.AddOp? { SetPcInv(s, t, Pinning(op)); }
    case OpenStore(t) => OpenStoreInv(s, PcOf(s, t).op.key.facet);
    case PinHit(t) =>
      assert PcOK(s, t, s.threads[t]);
      SetPcInv(s, t, Locking(PcOf(s, t).op, IfPinned(s.sh, PcOf(s, t).op.key).value));
    case PinMiss(t) =>
      assert PcOK(s, t, s.threads[t]);
      var k := PcOf(s, t).op.key;
      PlaceholderInv(s, t, k, s.sh.cache[k := Placeholder(t)], Loading(PcOf(s, t).op));
    case LoadRead(t) =>
      assert PcOK(s, t, s.threads[t]);
      SetPcInv(s, t, Loaded(PcOf(s, t).op, Get(s.db, PcOf(s, t).op.key)));
    case LoadFail(t) =>
      assert PcOK(s, t, s.threads[t]);
      PlaceholderInv(s, t, PcOf(s, t).op.key, s.sh.cache - {PcOf(s, t).op.key}, Idle);
  }

  lemma SimpleStepInv<E>(s: Machine<E>, a: Step<E>)
    requires Inv(s) && Enabled(s, a)
    requires SimpleStep(a)
    ensures Inv(Apply(s, a))
  {
    match a
    case ReleaseCall(t, k) =>
      if IfPinned(s.sh, k).Some? { ReleaseInv(s, IfPinned(s.sh, k).value); }
    case HasCall(t, k) =>
      if k.facet in s.sh.stores && IfPinned(s.sh, k).None? { SetPcInv(s, t, Missed(k)); }
    case HasRead(t) => SetPcInv(s, t, Idle);
    case SetSize(t, n) => SetSizeInv(s, t, n);
    case SaveNowCall(t) => ControlInv(s, t, SavingNow, s.sh.waiters + [t], s.gate);
    case SaveNowReturn(t) => SetPcInv(s, t, Idle);
  }

  lemma SetSizeInv<E>(s: Machine<E>, t: nat, n: int)
    requires Inv(s) && Enabled(s, SetSize(t, n))
    ensures Inv(Apply(s, SetSize(t, n)))
  {
    if n >= 0 {
      LimitInv(s, n);
      var m := s.(sh := s.sh.(limit := n));
      EvictScanInv(m, |m.sh.list|);
      assert Apply(s, SetSize(t, n)) == m.(sh := EvictScan(m.sh, |m.sh.list|));
    }
  }

  lemma LimitInv<E>(s: Machine<E>, limit: nat)
    requires Inv(s)
    ensures Inv(s.(sh := s.sh.(limit := limit)))
  {
    var s' := s.(sh := s.sh.(limit := limit));
    forall e | e in s.sh.elems ensures ElementOK(Observe(s', e)) {
      assert ElementOK(Observe(s, e));
      assert Observe(s', e) == Observe(s, e);
    }
    ShapeInv(s, s'.sh);
  }

  lemma SaverStepInv<E>(s: Machine<E>, a: Step<E>)
    requires Inv(s) && Enabled(s, a)
    requires SmallSaverStep(a)
    ensures Inv(Apply(s, a))
  {
    match a
    case StreamOne(acquired) =>
      var x := s.sh.elems[s.saver.batch[s.saver.next]];
      if (x.status.Created? || x.status.Modified?) && x.servant.Some? && !acquired {
        SaverLocalsInv(s, s.saver.(held := Some(x.servant.value.oid)));
      } else {
        StreamInv(s);
      }
    case StreamLocked =>
      var x := s.sh.elems[s.saver.batch[s.saver.next]];
      if (x.status.Created? || x.status.Modified?) && x.servant.Some? && s.saver.held != Some(x.servant.value.oid) {
        SaverLocalsInv(s, s.saver.(held := None));
      } else {
        StreamInv(s);
      }
    case EndStreaming => SaverLocalsInv(s, s.saver.(phase := Writing, txSize := Min(|s.saver.pending|, s.maxTx)));
    case Deadlock => SaverLocalsInv(s, s.saver.(txSize := (Min(s.saver.txSize, |s.saver.pending|) + 1) / 2));
    case Exit => ExitInv(s);
  }

  lemma ExitInv<E>(s: Machine<E>)
    requires Inv(s) && Enabled(s, Exit)
    ensures Inv(Apply(s, Exit))
  {
    var s' := s.(saver := IdleSaver(Exited));
    forall e | e in s.sh.elems ensures ElementOK(Observe(s', e)) {
      assert ElementOK(Observe(s, e));
      assert Observe(s', e) == Observe(s, e);
    }
    forall u | u in s'.threads ensures PcOK(s', u, s'.threads[u]) {
      assert PcOK(s, u, s.threads[u]);
    }
  }

  lemma GateStepInv<E>(s: Machine<E>, a: Step<E>)
    requires Inv(s) && Enabled(s, a)
    requires GateStep(a)
    ensures Inv(Apply(s, a))
  {
    match a
    case DeactivateCall(t) => ControlInv(s, t, Deactivating, s.sh.waiters, Draining(t));
    case DeactivateSave(t) =>
      NoWaiters(s);
      GateOnlyInv(s, Saving(t), s.sh.waiters + [t]);
    case DeactivateStop(t) => StopInv(s, t);
    case DeactivateDone(t) => ControlInv(s, t, Idle, s.sh.waiters, Closed);
  }

  lemma StopInv<E>(s: Machine<E>, t: nat)
    requires Inv(s) && Enabled(s, DeactivateStop(t))
    ensures Inv(Apply(s, DeactivateStop(t)))
  {
    LimitInv(s, 0);
    var m := s.(sh := s.sh.(limit := 0));
    EvictScanInv(m, |m.sh.list|);
    EvictScanFrame(m.sh, |m.sh.list|);
    var m' := m.(sh := EvictIdle(m.sh));
    GateOnlyInv(m', Stopping(t), m'.sh.waiters);
  }

  lemma HeadIn<T>(l: seq<T>)
    ensures l == [] || l[0] in l
  {
  }

  /** Threads waiting in saveNow hold guards. */
  lemma NoWaiters<E>(s: Machine<E>)
    requires NoGuards(s)
    requires forall t :: t in s.sh.waiters ==> t in s.threads && s.threads[t].SavingNow?
    ensures s.sh.waiters == []
  {
    HeadIn(s.sh.waiters);
  }

  lemma GateOnlyInv<E>(s: Machine<E>, gate: Gate, waiters: seq<nat>)
    requires Inv(s) && s.saver.snap <= |waiters|
    requires GateOK(s.(gate := gate, sh := s.sh.(waiters := waiters)))
    requires s.saver.phase.Exited? ==> gate.Stopping? || gate.Closed?
    ensures Inv(s.(gate := gate, sh := s.sh.(waiters := waiters)))
  {
    var s' := s.(gate := gate, sh := s.sh.(waiters := waiters));
    forall e | e in s.sh.elems ensures ElementOK(Observe(s', e)) {
      assert ElementOK(Observe(s, e));
      assert Observe(s', e) == Observe(s, e);
    }
    forall u | u in s'.threads ensures PcOK(s', u, s'.threads[u]) {
      assert PcOK(s, u, s.threads[u]);
    }
  }

  ghost predicate PinStep<E>(a: Step<E>) {
    a.Call? || a.OpenStore? || a.PinHit? || a.PinMiss? || a.LoadRead? || a.LoadFail?
  }

  ghost predicate SimpleStep<E>(a: Step<E>) {
    a.ReleaseCall? || a.HasCall? || a.HasRead? || a.SetSize? || a.SaveNowCall? || a.SaveNowReturn?
  }

  ghost predicate SmallSaverStep<E>(a: Step<E>) {
    a.StreamOne? || a.StreamLocked? || a.EndStreaming? || a.Deadlock? || a.Exit?
  }

  ghost predicate GateStep<E>(a: Step<E>) {
    a.DeactivateCall? || a.DeactivateSave? || a.DeactivateStop? || a.DeactivateDone?
  }

  lemma OtherStepInv<E>(s: Machine<E>, a: Step<E>)
    requires Inv(s) && Enabled(s, a)
    requires a.Install? || a.Section? || a.Mutate? || a.FinishCall? || a.FinishLock?
    ensures Inv(Apply(s, a))
  {
    match a
    case Install(t, e, oid) => InstallStepInv(s, t, e, oid);
    case Section(t) => SectionInv(s, t);
    case Mutate(t, v) => MutateInv(s, t, v);
    case FinishCall(t) => FinishFirstInv(s, t);
    case FinishLock(t) => FinishLockInv(s, t);
  }

  lemma RoundStepInv<E>(s: Machine<E>, a: Step<E>)
    requires Inv(s) && Enabled(s, a) && (a.Swap? || a.Commit? || a.Release?)
    ensures Inv(Apply(s, a))
  {
    match a
    case Swap => SwapInv(s);
    case Commit => CommitInv(s);
    case Release => ReleasePhaseInv(s);
  }

  /** The invariant is inductive. */
  lemma StepInv<E>(s: Machine<E>, a: Step<E>)
    requires Inv(s) && Enabled(s, a)
    ensures Inv(Apply(s, a))
  {
    if PinStep(a) {
      PinStepInv(s, a);
    } else if SimpleStep(a) {
      SimpleStepInv(s, a);
    } else if SmallSaverStep(a) {
      SaverStepInv(s, a);
    } else if GateStep(a) {
      GateStepInv(s, a);
    } else if a.Swap? || a.Commit? || a.Release? {
      RoundStepInv(s, a);
    } else {
      OtherStepInv(s, a);
    }
  }

  lemma InitInv<E>(s: Machine<E>)
    requires Init(s)
    ensures Inv(s)
  {
  }
}
