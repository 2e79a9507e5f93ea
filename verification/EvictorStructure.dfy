/** The evictor list, the cache map and the elements agree, and every locked section keeps them so. */
module EvictorStructure {
  import opened EvictorTypes
  import opened EvictorSections

  /** An element is pinned iff it is not stale, and has a place in the list iff it is pinned, seen and not kept. */
  ghost predicate ElementPlaced<E>(sh: Shared<E>, e: E)
    requires e in sh.elems
  {
    var x := sh.elems[e];
    && (IfPinned(sh, x.key) == Some(e) <==> !x.stale)
    && (e in sh.list <==> !x.stale && x.usage >= 0 && x.keep == 0)
    && x.keep >= 0
    && (x.keep > 0 ==> !x.stale && x.usage >= 0 && Present(x.status))
    && x.usage >= -1
  }

  ghost predicate Structural<E>(sh: Shared<E>) {
    && NoDup(sh.list) && sh.size == |sh.list|
    && (forall e :: e in sh.list ==> e in sh.elems)
    && (forall k :: k in sh.cache && sh.cache[k].Pinned? ==> sh.cache[k].e in sh.elems && sh.elems[sh.cache[k].e].key == k)
    && (forall e {:trigger ElementPlaced(sh, e)} :: e in sh.elems ==> ElementPlaced(sh, e))
  }

  /** A section that changes one element and its place in the list. */
  lemma LocalStructural<E>(sh: Shared<E>, sh': Shared<E>, e: E)
    requires Structural(sh) && e in sh.elems && !sh.elems[e].stale
    requires e in sh'.elems && sh'.elems == sh.elems[e := sh'.elems[e]] && sh'.elems[e].key == sh.elems[e].key
    requires sh'.cache == sh.cache && NoDup(sh'.list) && sh'.size == |sh'.list|
    requires forall y :: y != e ==> (y in sh'.list <==> y in sh.list)
    requires ElementPlaced(sh', e)
    ensures Structural(sh')
  {
    forall y | y in sh'.elems ensures ElementPlaced(sh', y) {
      assert ElementPlaced(sh, y);
    }
  }

  lemma ListFacts<E>(sh: Shared<E>, e: E)
    requires Structural(sh) && e in sh.elems
    ensures ElementPlaced(sh, e)
    ensures NoDup(Without(sh.list, e)) && NoDup([e] + Without(sh.list, e))
    ensures |Without(sh.list, e)| == if e in sh.list then |sh.list| - 1 else |sh.list|
    ensures e !in sh.list ==> NoDup([e] + sh.list)
  {
    WithoutNoDup(sh.list, e);
  }

  lemma TouchStructural<E>(sh: Shared<E>, e: E)
    requires Structural(sh) && e in sh.elems && !sh.elems[e].stale
    ensures Structural(Touch(sh, e)) && Touch(sh, e).elems[e].usage >= 0
  {
    ListFacts(sh, e);
    LocalStructural(sh, Touch(sh, e), e);
  }

  /** New status, servant or higher usage count for an element that a locked section has seen. */
  lemma UpdateStructural<E>(sh: Shared<E>, sh': Shared<E>, e: E)
    requires Structural(sh) && e in sh.elems && !sh.elems[e].stale && sh.elems[e].usage >= 0
    requires e in sh'.elems && sh' == sh.(elems := sh.elems[e := sh'.elems[e]], queue := sh'.queue)
    requires var x, x' := sh.elems[e], sh'.elems[e];
      x'.key == x.key && x'.keep == x.keep && x'.stale == x.stale && x'.usage >= 0 && (x.keep > 0 ==> Present(x'.status))
    ensures Structural(sh')
  {
    assert ElementPlaced(sh, e);
    LocalStructural(sh, sh', e);
  }

  lemma AddStructural<E>(sh: Shared<E>, e: E, servant: Servant)
    requires Structural(sh) && e in sh.elems && !sh.elems[e].stale
    ensures Structural(AddSection(sh, e, servant))
  {
    TouchStructural(sh, e);
    UpdateStructural(Touch(sh, e), AddSection(sh, e, servant), e);
  }

  lemma CreateStructural<E>(sh: Shared<E>, e: E, servant: Servant)
    requires Structural(sh) && e in sh.elems && !sh.elems[e].stale
    ensures Structural(CreateSection(sh, e, servant))
  {
    TouchStructural(sh, e);
    UpdateStructural(Touch(sh, e), CreateSection(sh, e, servant), e);
  }

  /** Removing a kept element brings it back into the list. */
  lemma RemoveStructural<E>(sh: Shared<E>, e: E)
    requires Structural(sh) && e in sh.elems && !sh.elems[e].stale
    ensures Structural(RemoveSection(sh, e))
  {
    if sh.elems[e].keep > 0 {
      UnkeepStructural(sh, e);
    } else {
      TouchStructural(sh, e);
      assert ElementPlaced(sh, e);
      UpdateStructural(Touch(sh, e), RemoveSection(sh, e), e);
    }
  }

  lemma UnkeepStructural<E>(sh: Shared<E>, e: E)
    requires Structural(sh) && e in sh.elems && !sh.elems[e].stale && sh.elems[e].keep > 0
    ensures Structural(RemoveSection(sh, e))
  {
    ListFacts(sh, e);
    assert RemoveStatus(sh, e).list == sh.list && RemoveStatus(sh, e).size == sh.size;
    LocalStructural(sh, RemoveSection(sh, e), e);
  }

  lemma KeepStructural<E>(sh: Shared<E>, e: E)
    requires Structural(sh) && e in sh.elems && !sh.elems[e].stale
    ensures Structural(KeepSection(sh, e))
  {
    ListFacts(sh, e);
    LocalStructural(sh, KeepSection(sh, e), e);
  }

  lemma ReleaseStructural<E>(sh: Shared<E>, e: E)
    requires Structural(sh) && e in sh.elems && !sh.elems[e].stale
    ensures Structural(ReleaseSection(sh, e))
  {
    ListFacts(sh, e);
    LocalStructural(sh, ReleaseSection(sh, e), e);
  }

  lemma LocateStructural<E>(sh: Shared<E>, e: E)
    requires Structural(sh) && e in sh.elems && !sh.elems[e].stale
    ensures Structural(LocateSection(sh, e))
  {
    TouchStructural(sh, e);
    if Present(sh.elems[e].status) {
      UpdateStructural(Touch(sh, e), LocateSection(sh, e), e);
    }
  }

  lemma FinishFirstStructural<E>(sh: Shared<E>, e: E, mutating: bool)
    requires Structural(sh) && e in sh.elems && !sh.elems[e].stale
    ensures Structural(FinishFirst(sh, e, mutating))
  {
    ListFacts(sh, e);
    assert sh.elems == sh.elems[e := sh.elems[e]];
    LocalStructural(sh, FinishFirst(sh, e, mutating), e);
  }

  /** Giving one usage count back. */
  lemma DropStructural<E>(sh: Shared<E>, e: E)
    requires Structural(sh) && e in sh.elems && !sh.elems[e].stale && sh.elems[e].usage >= 1
    ensures Structural(Dropped(sh, e))
  {
    assert ElementPlaced(sh, e);
    UpdateStructural(sh, Dropped(sh, e), e);
  }

  lemma PushStructural<E>(sh: Shared<E>, e: E)
    requires Structural(sh) && e in sh.elems && !sh.elems[e].stale && sh.elems[e].usage >= 0
    ensures Structural(Push(sh, e))
  {
    assert ElementPlaced(sh, e);
    UpdateStructural(sh, Push(sh, e), e);
  }

  lemma LimitStructural<E>(sh: Shared<E>, n: nat)
    requires Structural(sh)
    ensures Structural(sh.(limit := n))
  {
    forall y | y in sh.elems ensures ElementPlaced(sh.(limit := n), y) {
      assert ElementPlaced(sh, y);
    }
  }

  lemma CountsOfNone<E>(sh: Shared<E>)
    ensures ReleaseCounts(sh, []) == sh
  {
    assert ReleaseCounts(sh, []).elems == sh.elems;
  }

  lemma CountsOfOne<E>(sh: Shared<E>, batch: seq<E>, i: nat)
    requires i < |batch| && batch[i] in sh.elems
    ensures ReleaseCounts(sh, batch[..i + 1]) == Dropped(ReleaseCounts(sh, batch[..i]), batch[i])
  {
    assert batch[..i + 1] == batch[..i] + [batch[i]];
    assert ReleaseCounts(sh, batch[..i + 1]).elems == Dropped(ReleaseCounts(sh, batch[..i]), batch[i]).elems;
  }

  lemma CountsStructural<E>(sh: Shared<E>, batch: seq<E>)
    requires Structural(sh)
    requires forall e | e in batch :: e in sh.elems && !sh.elems[e].stale && sh.elems[e].usage >= multiset(batch)[e]
    ensures Structural(ReleaseCounts(sh, batch))
  {
    var t := ReleaseCounts(sh, batch);
    forall y | y in t.elems ensures ElementPlaced(t, y) {
      assert ElementPlaced(sh, y);
      assert y !in batch ==> multiset(batch)[y] == 0;
    }
  }

  lemma WaitersStructural<E>(sh: Shared<E>, waiters: seq<nat>)
    requires Structural(sh)
    ensures Structural(sh.(waiters := waiters))
  {
    forall y | y in sh.elems ensures ElementPlaced(sh.(waiters := waiters), y) {
      assert ElementPlaced(sh, y);
    }
  }

  /** A new element takes the place of a placeholder, or of nothing. */
  lemma InstallStructural<E>(sh: Shared<E>, e: E, x: Elem)
    requires Structural(sh) && e !in sh.elems && IfPinned(sh, x.key).None?
    requires !x.stale && x.usage == -1 && x.keep == 0
    ensures Structural(sh.(elems := sh.elems[e := x], cache := sh.cache[x.key := Pinned(e)]))
  {
    var t := sh.(elems := sh.elems[e := x], cache := sh.cache[x.key := Pinned(e)]);
    forall y | y in t.elems ensures ElementPlaced(t, y) {
      if y != e {
        assert ElementPlaced(sh, y);
      }
    }
  }

  /** Only listed elements are ever evicted: they are pinned and not kept, and they leave list and cache together. */
  lemma EvictOneStructural<E>(sh: Shared<E>, e: E)
    requires Structural(sh) && e in sh.list
    ensures Structural(EvictOne(sh, e))
  {
    ListFacts(sh, e);
    var t := EvictOne(sh, e);
    forall y | y in t.elems ensures ElementPlaced(t, y) {
      assert ElementPlaced(sh, y);
      assert ElementPlaced(sh, e);
    }
  }

  /** The element getIfPinned finds is known and not stale. */
  lemma PinnedKnown<E>(sh: Shared<E>, k: Key)
    requires Structural(sh) && IfPinned(sh, k).Some?
    ensures var e := IfPinned(sh, k).value; e in sh.elems && !sh.elems[e].stale && sh.elems[e].key == k
  {
    assert ElementPlaced(sh, IfPinned(sh, k).value);
  }
}
